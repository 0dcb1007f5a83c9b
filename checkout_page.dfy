/**
 * The checkout screen, src/pages/CheckoutPage.tsx: the shipping-address
 * form, its validation rules, how editing a field clears that field's
 * error, and the validation path of "Place order". Placing the order is a
 * simulated delay in the client; after it the cart is cleared.
 */
module CheckoutPage {
  import opened Common
  import opened Forms
  import CartContext

  /** `addressSchema` (CheckoutPage.tsx:15-22), in key order. */
  const AddressRules: seq<Rule> := [
    MinLength("name", 2, "Name is required"),
    MinLength("phone", 10, "Valid phone number required"),
    MinLength("address_line1", 5, "Address is required"),
    MinLength("city", 2, "City is required"),
    MinLength("state", 2, "Province is required"),
    MinLength("postal_code", 4, "Postal code is required")
  ]

  /** Every key of the address object the form holds. */
  const AddressKeys: set<string> :=
    {"name", "phone", "address_line1", "address_line2", "city", "state", "postal_code", "country"}

  /** The schema has no e-mail rule, so the e-mail test plays no part. */
  const NoEmailRule: string -> bool := (s: string) => true

  /** The address passes `addressSchema` exactly when each checked field is long enough. */
  lemma AddressAcceptedIff(address: map<string, string>)
    requires AddressKeys <= address.Keys
    ensures Validate(AddressRules, address, NoEmailRule) == [] <==>
      && |address["name"]| >= 2 && |address["phone"]| >= 10 && |address["address_line1"]| >= 5
      && |address["city"]| >= 2 && |address["state"]| >= 2 && |address["postal_code"]| >= 4
  {
    ValidateEmptyIff(AddressRules, address, NoEmailRule);
    assert AddressRules[0].field == "name" && AddressRules[1].field == "phone";
    assert AddressRules[2].field == "address_line1" && AddressRules[3].field == "city";
    assert AddressRules[4].field == "state" && AddressRules[5].field == "postal_code";
  }

  /**
   * A rejected address shows an error on exactly the fields that are too
   * short, each with its rule's message, and on no other key.
   */
  lemma AddressErrors(address: map<string, string>)
    requires AddressKeys <= address.Keys
    ensures forall i :: 0 <= i < |AddressRules| ==>
      ((AddressRules[i].field in LastMessages(Validate(AddressRules, address, NoEmailRule)))
       <==> |address[AddressRules[i].field]| < AddressRules[i].min)
    ensures forall i :: 0 <= i < |AddressRules| && |address[AddressRules[i].field]| < AddressRules[i].min ==>
      LastMessages(Validate(AddressRules, address, NoEmailRule))[AddressRules[i].field] == AddressRules[i].message
    ensures LastMessages(Validate(AddressRules, address, NoEmailRule)).Keys <= AddressKeys - {"address_line2", "country"}
  {
    AddressRulesShape();
    ErrorsOfFailingRules(AddressRules, address, NoEmailRule);
    forall i | 0 <= i < |AddressRules|
      ensures Fails(AddressRules[i], address, NoEmailRule) <==> |address[AddressRules[i].field]| < AddressRules[i].min
    {
      assert AddressRules[i].MinLength?;
    }
  }

  /** The rules check six different keys of the address, each by length. */
  lemma AddressRulesShape()
    ensures DistinctFields(AddressRules)
    ensures forall i :: 0 <= i < |AddressRules| ==>
      && AddressRules[i].MinLength? && AddressRules[i].field != ""
      && AddressRules[i].field in AddressKeys - {"address_line2", "country"}
  {
    var fields := ["name", "phone", "address_line1", "city", "state", "postal_code"];
    assert forall i :: 0 <= i < |AddressRules| ==> AddressRules[i].field == fields[i];
    assert forall i, j :: 0 <= i < j < |fields| ==> fields[i] != fields[j];
  }

  /** The form's state: the address object, the per-field errors and the loading flag. */
  class CheckoutForm {
    var address: map<string, string>
    var errors: map<string, string>
    var isLoading: bool

    predicate Valid()
      reads this
    {
      AddressKeys <= address.Keys
    }

    /**
     * The initial form (CheckoutPage.tsx:30-43): the signed-in user's name
     * and phone when set (`user?.name || ''`), every other line blank, the
     * country "South Africa".
     */
    constructor (userName: Option<string>, userPhone: Option<string>)
      ensures Valid() && errors == map[] && !isLoading
      ensures address["name"] == userName.GetOr("") && address["phone"] == userPhone.GetOr("")
      ensures address["country"] == "South Africa"
      ensures forall k :: k in AddressKeys - {"name", "phone", "country"} ==> address[k] == ""
    {
      address := map[
        "name" := userName.GetOr(""), "phone" := userPhone.GetOr(""),
        "address_line1" := "", "address_line2" := "", "city" := "", "state" := "",
        "postal_code" := "", "country" := "South Africa"];
      errors := map[];
      isLoading := false;
    }

    /**
     * `handleAddressChange`: the field takes the value, and its error, when
     * one is shown, is blanked; no other field or error changes.
     */
    method HandleAddressChange(field: string, value: string)
      modifies this`address, this`errors
      ensures address == old(address)[field := value]
      ensures field in old(errors) && old(errors)[field] != "" ==> errors == old(errors)[field := ""]
      ensures !(field in old(errors) && old(errors)[field] != "") ==> errors == old(errors)
      ensures old(Valid()) ==> Valid()
    {
      address := address[field := value];
      if field in errors && errors[field] != "" {
        errors := errors[field := ""];
      }
    }

    /**
     * `handlePlaceOrder`: a rejected address sets the field errors and
     * stops, leaving the cart alone; an accepted one clears the errors and
     * the cart and leads to "/orders".
     */
    method PlaceOrder(cart: CartContext.Cart) returns (nav: Option<string>)
      modifies this`errors, this`isLoading, cart
      ensures Validate(AddressRules, address, NoEmailRule) != [] ==>
        && errors == LastMessages(Validate(AddressRules, address, NoEmailRule))
        && nav == None && cart.items == old(cart.items) && isLoading == old(isLoading)
      ensures Validate(AddressRules, address, NoEmailRule) == [] ==>
        errors == map[] && nav == Some("/orders") && cart.items == [] && !isLoading
    {
      errors := map[];
      var issues := Validate(AddressRules, address, NoEmailRule);
      if issues != [] {
        errors := FieldErrors(issues);
        return None;
      }
      isLoading := true;
      cart.ClearCart();
      nav := Some("/orders");
      isLoading := false;
    }
  }

  /** An empty cart sends the page to "/cart" (CheckoutPage.tsx:101-104). */
  function EmptyCartRedirect(items: seq<CartContext.CartItem>): (r: Option<string>)
    ensures r.Some? <==> |items| == 0
    ensures r.Some? ==> r.value == "/cart"
  {
    if |items| == 0 then Some("/cart") else None
  }
}
