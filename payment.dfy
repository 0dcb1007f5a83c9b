/**
 * The PayFast bridge of php-api/controllers/payment.php. `initiate` builds the
 * form the client posts to PayFast: eleven fields in a fixed order, signed with
 * the MD5 of their `key=urlencode(trim(value))` pairs joined by '&', with the
 * passphrase appended when one is configured. `callback` receives PayFast's
 * notification and moves the order to paid/confirmed or to failed.
 *
 * MD5 and `number_format` are parameters; `urlencode` is modelled exactly,
 * over the UTF-8 bytes of each character.
 */
module Payment {
  import opened Common
  import opened Text
  import opened Tables
  import Jwt
  import Orders
  import Numeric

  const MerchantId: string := "your_merchant_id"
  const MerchantKey: string := "your_merchant_key"
  const Passphrase: string := "your_passphrase"
  const Sandbox: bool := true
  const PayfastUrl: string := if Sandbox then "https://sandbox.payfast.co.za/eng/process" else "https://www.payfast.co.za/eng/process"
  const NotifyUrl: string := "https://partsbaypro.com/backend-php/api/payment/payfast/callback"

  // ---------------------------------------------------------------------------
  // urlencode

  function HexDigit(n: nat): (c: char)
    requires n < 16
    ensures c != '&' && c != '=' && c != ' '
  {
    if n < 10 then ('0' as int + n) as char else ('A' as int + n - 10) as char
  }

  /** The UTF-8 encoding of one character. */
  function Utf8(c: char): (bytes: seq<nat>)
    ensures 1 <= |bytes| <= 4
    ensures forall i :: 0 <= i < |bytes| ==> bytes[i] < 256
  {
    var n := c as int;
    if n < 0x80 then [n]
    else if n < 0x800 then [0xC0 + n / 64, 0x80 + n % 64]
    else if n < 0x10000 then [0xE0 + n / 4096, 0x80 + (n / 64) % 64, 0x80 + n % 64]
    else [0xF0 + n / 262144, 0x80 + (n / 4096) % 64, 0x80 + (n / 64) % 64, 0x80 + n % 64]
  }

  /** `%XX` for every byte, with upper-case hex digits. */
  function PercentEncode(bytes: seq<nat>): (r: string)
    requires forall i :: 0 <= i < |bytes| ==> bytes[i] < 256
    ensures |r| == 3 * |bytes|
    ensures '&' !in r && '=' !in r && ' ' !in r
  {
    if |bytes| == 0 then ""
    else
      var n := |bytes| - 1;
      PercentEncode(bytes[..n]) + ['%', HexDigit(bytes[n] / 16), HexDigit(bytes[n] % 16)]
  }

  /** Characters `urlencode` keeps as they are: ASCII letters, digits and `-_.`. */
  predicate Unreserved(c: char)
  {
    ('a' <= c <= 'z') || ('A' <= c <= 'Z') || ('0' <= c <= '9') || c == '-' || c == '_' || c == '.'
  }

  function EncodeChar(c: char): (r: string)
    ensures Unreserved(c) ==> r == [c]
    ensures c == ' ' ==> r == "+"
    ensures '&' !in r && '=' !in r && ' ' !in r
  {
    if Unreserved(c) then [c]
    else if c == ' ' then "+"
    else PercentEncode(Utf8(c))
  }

  /** PHP `urlencode`. */
  function UrlEncode(s: string): (r: string)
    ensures '&' !in r && '=' !in r && ' ' !in r
    ensures |r| >= |s|
  {
    if |s| == 0 then ""
    else UrlEncode(s[..|s| - 1]) + EncodeChar(s[|s| - 1])
  }

  /** A string of unreserved characters encodes to itself. */
  lemma {:induction false} UrlEncodeUnreserved(s: string)
    requires forall i :: 0 <= i < |s| ==> Unreserved(s[i])
    ensures UrlEncode(s) == s
  {
    if |s| > 0 {
      UrlEncodeUnreserved(s[..|s| - 1]);
    }
  }

  // ---------------------------------------------------------------------------
  // initiate

  /** `explode(' ', $name)[0] ?? ''`. */
  function NameFirst(name: string): string
  {
    Split(name, ' ')[0]
  }

  /** `explode(' ', $name)[1] ?? ''`. */
  function NameLast(name: string): string
  {
    var parts := Split(name, ' ');
    if |parts| > 1 then parts[1] else ""
  }

  /** A one-word name is all first name. */
  lemma NameOneWord(a: string)
    requires ' ' !in a
    ensures NameFirst(a) == a && NameLast(a) == ""
  {
    SplitNoSep(a, ' ');
  }

  /** The first two words are the first and last name; any later words are dropped. */
  lemma NameWords(a: string, b: string, rest: string)
    requires ' ' !in a && ' ' !in b
    requires rest == "" || rest[0] == ' '
    ensures NameFirst(a + " " + b + rest) == a && NameLast(a + " " + b + rest) == b
  {
    SplitCons(a, ' ', b + rest);
    assert a + " " + b + rest == a + [' '] + (b + rest);
    if rest == "" {
      assert b + rest == b;
      SplitNoSep(b, ' ');
    } else {
      assert b + rest == b + [' '] + rest[1..];
      SplitCons(b, ' ', rest[1..]);
    }
  }

  /** The form fields of initiate (payment.php:34-46), in insertion order. */
  function FormFields(order: OrderRow, user: Option<UserRow>, amount: string): (fields: seq<(string, string)>)
    ensures |fields| == 11
    ensures fields[0].0 == "merchant_id" && fields[8] == ("amount", amount) && fields[10] == ("custom_str1", IntToString(order.id))
  {
    var name := if user.Some? then user.value.name.GetOr("") else "";
    var email := if user.Some? then user.value.email else "";
    var id := IntToString(order.id);
    [("merchant_id", MerchantId),
     ("merchant_key", MerchantKey),
     ("return_url", "https://partsbaypro.com/home/payment-success.php?order_id=" + id),
     ("cancel_url", "https://partsbaypro.com/home/payment-cancel.php?order_id=" + id),
     ("notify_url", NotifyUrl),
     ("name_first", NameFirst(name)),
     ("name_last", NameLast(name)),
     ("email_address", email),
     ("amount", amount),
     ("item_name", "BayPro Order " + order.orderNumber),
     ("custom_str1", id)]
  }

  /** `$key . '=' . urlencode(trim($val))`. */
  function Pair(field: (string, string)): string
  {
    field.0 + "=" + UrlEncode(Trim(field.1))
  }

  function Pairs(fields: seq<(string, string)>): (r: seq<string>)
    ensures |r| == |fields| && forall i :: 0 <= i < |fields| ==> r[i] == Pair(fields[i])
  {
    if |fields| == 0 then [] else Pairs(fields[..|fields| - 1]) + [Pair(fields[|fields| - 1])]
  }

  /** The string that is hashed (payment.php:49-57): the pairs joined by '&', then the passphrase when non-empty. */
  function SigningString(fields: seq<(string, string)>, passphrase: string): string
  {
    Join(Pairs(fields), "&") + (if PhpEmpty(passphrase) then "" else "&passphrase=" + UrlEncode(passphrase))
  }

  /**
   * Without a passphrase the signed string splits on '&' back into exactly the
   * fields' pairs, in insertion order, and each pair splits on '=' into the key
   * and the encoded value: no encoded value can smuggle in a field.
   */
  lemma SigningStringParts(fields: seq<(string, string)>)
    requires |fields| >= 1
    requires forall i :: 0 <= i < |fields| ==> '&' !in fields[i].0 && '=' !in fields[i].0
    ensures Split(SigningString(fields, ""), '&') == Pairs(fields)
    ensures forall i :: 0 <= i < |fields| ==> Split(Pairs(fields)[i], '=') == [fields[i].0, UrlEncode(Trim(fields[i].1))]
  {
    var ps := Pairs(fields);
    forall i | 0 <= i < |fields|
      ensures '&' !in ps[i]
      ensures Split(ps[i], '=') == [fields[i].0, UrlEncode(Trim(fields[i].1))]
    {
      PairParts(fields[i]);
    }
    assert SigningString(fields, "") == Join(ps, "&");
    SplitJoin(ps, '&');
  }

  lemma PairParts(field: (string, string))
    requires '&' !in field.0 && '=' !in field.0
    ensures '&' !in Pair(field)
    ensures Split(Pair(field), '=') == [field.0, UrlEncode(Trim(field.1))]
  {
    var v := UrlEncode(Trim(field.1));
    assert Pair(field) == field.0 + ['='] + v;
    SplitCons(field.0, '=', v);
    SplitNoSep(v, '=');
  }

  /** A pair never ends with '&', so `rtrim($s, '&')` removes exactly the '&' the loop appended last. */
  lemma PairEnd(field: (string, string))
    ensures var p := Pair(field); |p| >= 1 && p[|p| - 1] != '&'
  {
    var v := UrlEncode(Trim(field.1));
    var p := Pair(field);
    if |v| > 0 {
      assert p[|p| - 1] == v[|v| - 1];
    }
  }

  /** `rtrim` strips exactly the final '&' after the last pair. */
  lemma TrimLastAmpersand(fields: seq<(string, string)>)
    requires |fields| >= 1
    ensures RTrimChar(Join(Pairs(fields), "&") + "&", '&') == Join(Pairs(fields), "&")
  {
    var ps := Pairs(fields);
    PairEnd(fields[|fields| - 1]);
    assert ps[|ps| - 1] == Pair(fields[|fields| - 1]);
    TrimAfterJoin(ps);
  }

  /** A join whose last part does not end with '&' loses exactly one appended '&' to `rtrim`. */
  lemma TrimAfterJoin(ps: seq<string>)
    requires |ps| >= 1
    requires var last := ps[|ps| - 1]; |last| >= 1 && last[|last| - 1] != '&'
    ensures RTrimChar(Join(ps, "&") + "&", '&') == Join(ps, "&")
  {
    JoinLastChar(ps, "&");
    var j := Join(ps, "&");
    RTrimOne(j, '&');
    assert j + "&" == j + ['&'];
  }

  /** The loop's string after some fields: `pair&` for each of them. */
  function Accumulated(fields: seq<(string, string)>): string
  {
    if |fields| == 0 then "" else Accumulated(fields[..|fields| - 1]) + Pair(fields[|fields| - 1]) + "&"
  }

  /** After at least one field the loop's string is the pairs joined by '&', plus one '&'. */
  lemma {:induction false} AccumulatedJoin(fields: seq<(string, string)>)
    requires |fields| > 0
    ensures Accumulated(fields) == Join(Pairs(fields), "&") + "&"
  {
    var n := |fields| - 1;
    var init := fields[..n];
    var last := Pair(fields[n]);
    assert Pairs(fields) == Pairs(init) + [last];
    if n == 0 {
      assert Pairs(fields) == [last];
      assert Accumulated(fields) == "" + last + "&";
    } else {
      AccumulatedJoin(init);
      JoinSnoc(Pairs(init), "&", last);
    }
  }

  /** What the loop leaves, once its trailing '&' is stripped, is the pairs joined by '&'. */
  lemma LoopStringTrimmed(fields: seq<(string, string)>)
    ensures RTrimChar(Accumulated(fields), '&') == Join(Pairs(fields), "&")
  {
    if |fields| > 0 {
      AccumulatedJoin(fields);
      TrimLastAmpersand(fields);
    }
  }

  /** The signing loop (payment.php:49-57): append `pair&` per field, strip trailing '&', add the passphrase. */
  method ParamString(fields: seq<(string, string)>, passphrase: string) returns (s: string)
    ensures s == SigningString(fields, passphrase)
  {
    s := "";
    var i := 0;
    while i < |fields|
      invariant 0 <= i <= |fields|
      invariant s == Accumulated(fields[..i])
    {
      assert fields[..i + 1][..i] == fields[..i];
      var pair := fields[i].0 + "=" + UrlEncode(Trim(fields[i].1));
      s := s + pair + "&";
      i := i + 1;
    }
    assert fields[..i] == fields;
    LoopStringTrimmed(fields);
    s := RTrimChar(s, '&');
    if !PhpEmpty(passphrase) {
      s := s + ("&passphrase=" + UrlEncode(passphrase));
    }
  }

  /** What initiate responds with: the PayFast URL and the signed form. */
  datatype PaymentForm = PaymentForm(paymentUrl: string, formData: seq<(string, string)>)

  /** `empty($data['order_id'])` for a JSON number or null. */
  predicate OrderIdMissing(orderId: Option<int>)
  {
    orderId.None? || orderId.value == 0
  }

  /** The signed form: the fields, then `signature`, computed over the fields alone. */
  function SignedForm(fields: seq<(string, string)>, md5: string -> string): (form: seq<(string, string)>)
    ensures |form| == |fields| + 1 && form[..|fields|] == fields
    ensures form[|fields|] == ("signature", md5(SigningString(fields, Passphrase)))
  {
    fields + [("signature", md5(SigningString(fields, Passphrase)))]
  }

  /**
   * `initiate` (payment.php:13-65). `amount` stands for
   * `number_format($total, 2, '.', '')` and `md5` for PHP's md5.
   */
  method Initiate(orders: seq<OrderRow>, users: seq<UserRow>, auth: Option<Jwt.Claims>, orderId: Option<int>,
                  amount: real -> string, md5: string -> string)
    returns (r: Result<PaymentForm, HttpError>)
    ensures auth.None? ==> r == Err(HttpError(401, "Unauthorized"))
    ensures auth.Some? && OrderIdMissing(orderId) ==> r == Err(HttpError(422, "Order ID is required"))
    ensures auth.Some? && !OrderIdMissing(orderId) ==>
      match Orders.FindOrder(orders, orderId.value, auth.value.userId)
      case None => r == Err(HttpError(404, "Order not found"))
      case Some(o) =>
        var fields := FormFields(o, UserById(users, auth.value.userId), amount(o.total));
        r == Ok(PaymentForm(PayfastUrl, SignedForm(fields, md5)))
  {
    var claims := Jwt.RequireAuth(auth);
    if claims.Err? {
      return Err(claims.error);
    }
    if OrderIdMissing(orderId) {
      return Err(HttpError(422, "Order ID is required"));
    }
    var order := Orders.FindOrder(orders, orderId.value, claims.value.userId);
    if order.None? {
      return Err(HttpError(404, "Order not found"));
    }
    var fields := FormFields(order.value, UserById(users, claims.value.userId), amount(order.value.total));
    var signed := ParamString(fields, Passphrase);
    r := Ok(PaymentForm(PayfastUrl, fields + [("signature", md5(signed))]));
  }

  // ---------------------------------------------------------------------------
  // callback

  /**
   * `WHERE id = ?` with the posted text bound to the INT column: MySQL compares
   * the two as numbers, the text read by its numeric prefix, so "7" and "7.0"
   * match order 7, "1e3" matches order 1000 and "1.5" matches no order.
   */
  predicate IdMatches(id: int, posted: string)
  {
    Numeric.Value(Numeric.NumericPrefix(posted)) == id as real
  }

  /**
   * `UPDATE orders SET payment_status = 'paid', status = 'confirmed', payment_reference = ?,
   * updated_at = NOW() WHERE id = ?` (payment.php:86-87), with `now` for `NOW()`.
   */
  function MarkPaid(orders: seq<OrderRow>, posted: string, reference: string, now: string): (r: seq<OrderRow>)
    ensures |r| == |orders| && forall i :: 0 <= i < |r| ==> r[i].id == orders[i].id
    ensures forall i :: 0 <= i < |orders| && !IdMatches(orders[i].id, posted) ==> r[i] == orders[i]
    ensures forall i :: 0 <= i < |orders| && IdMatches(orders[i].id, posted) ==>
      r[i] == orders[i].(paymentStatus := Some("paid"), status := Some("confirmed"), paymentReference := Some(reference), updatedAt := now)
  {
    seq(|orders|, i requires 0 <= i < |orders| =>
      if IdMatches(orders[i].id, posted)
      then orders[i].(paymentStatus := Some("paid"), status := Some("confirmed"), paymentReference := Some(reference), updatedAt := now)
      else orders[i])
  }

  /** `UPDATE orders SET payment_status = 'failed', updated_at = NOW() WHERE id = ?` (payment.php:89-90): the status column is untouched. */
  function MarkFailed(orders: seq<OrderRow>, posted: string, now: string): (r: seq<OrderRow>)
    ensures |r| == |orders| && forall i :: 0 <= i < |r| ==> r[i].id == orders[i].id
    ensures forall i :: 0 <= i < |orders| && !IdMatches(orders[i].id, posted) ==> r[i] == orders[i]
    ensures forall i :: 0 <= i < |orders| && IdMatches(orders[i].id, posted) ==> r[i] == orders[i].(paymentStatus := Some("failed"), updatedAt := now)
  {
    seq(|orders|, i requires 0 <= i < |orders| => if IdMatches(orders[i].id, posted) then orders[i].(paymentStatus := Some("failed"), updatedAt := now) else orders[i])
  }

  /** The decimal text of an id matches exactly the order with that id. */
  lemma DecimalIdMatches(id: int, n: nat)
    ensures IdMatches(id, NatToString(n)) <==> id == n
  {
    Numeric.NumericPrefixOfNat(n);
  }

  /** An id posted as "1.5" matches no order, so the notification changes nothing. */
  lemma FractionalIdMatchesNothing(orders: seq<OrderRow>, post: map<string, string>, now: string)
    requires "custom_str1" in post && post["custom_str1"] == "1.5"
    ensures AfterNotification(orders, post, now) == orders
  {
    Numeric.FractionNumeral();
    var after := AfterNotification(orders, post, now);
    forall i | 0 <= i < |orders|
      ensures !IdMatches(orders[i].id, "1.5")
    {
      var id := orders[i].id;
      assert id <= 1 || id >= 2;
    }
    assert after == orders;
  }

  /** An id posted as "1e3" is order 1000, not order 1. */
  lemma ExponentIdMatches()
    ensures IdMatches(1000, "1e3") && !IdMatches(1, "1e3")
  {
    Numeric.ExponentNumeral();
  }

  /** `$_POST[key] ?? ''`. */
  function Field(post: map<string, string>, key: string): string
  {
    if key in post then post[key] else ""
  }

  /**
   * The orders after a notification that passed the checks: COMPLETE marks the
   * order paid, CANCELLED marks it failed, any other status changes nothing.
   * The posted id is compared with the integer column as `IdMatches` says.
   */
  function AfterNotification(orders: seq<OrderRow>, post: map<string, string>, now: string): seq<OrderRow>
  {
    var id := Field(post, "custom_str1");
    var status := Field(post, "payment_status");
    if status == "COMPLETE" then MarkPaid(orders, id, Field(post, "pf_payment_id"), now)
    else if status == "CANCELLED" then MarkFailed(orders, id, now)
    else orders
  }

  /** A repeated notification leaves the orders as the first one did. */
  lemma NotificationIdempotent(orders: seq<OrderRow>, post: map<string, string>, now: string)
    ensures AfterNotification(AfterNotification(orders, post, now), post, now) == AfterNotification(orders, post, now)
  {
  }

  /** Only a COMPLETE notification changes an order's status; any other status leaves it as it was. */
  lemma OnlyCompleteConfirms(orders: seq<OrderRow>, post: map<string, string>, now: string)
    ensures var after := AfterNotification(orders, post, now);
      && |after| == |orders|
      && (Field(post, "payment_status") != "COMPLETE" ==> forall i :: 0 <= i < |orders| ==> after[i].status == orders[i].status)
      && (forall i :: 0 <= i < |orders| && !IdMatches(orders[i].id, Field(post, "custom_str1")) ==> after[i] == orders[i])
  {
  }

  /**
   * `callback` (payment.php:67-96): PayFast's notification; the reply is 200 "OK"
   * unless a check fails. `now` stands for MySQL's `NOW()`.
   */
  method Callback(db: Database, post: map<string, string>, now: string) returns (r: Result<string, HttpError>)
    modifies db`orders
    requires db.Valid()
    ensures db.Valid()
    ensures |post| == 0 ==> r == Err(HttpError(400, "No data received")) && db.orders == old(db.orders)
    ensures |post| > 0 && PhpEmpty(Field(post, "custom_str1")) ==> r == Err(HttpError(400, "No order ID")) && db.orders == old(db.orders)
    ensures |post| > 0 && !PhpEmpty(Field(post, "custom_str1")) ==> r == Ok("OK") && db.orders == AfterNotification(old(db.orders), post, now)
  {
    if |post| == 0 {
      return Err(HttpError(400, "No data received"));
    }
    var orderId := Field(post, "custom_str1");
    if PhpEmpty(orderId) {
      return Err(HttpError(400, "No order ID"));
    }
    var status := Field(post, "payment_status");
    if status == "COMPLETE" {
      db.orders := MarkPaid(db.orders, orderId, Field(post, "pf_payment_id"), now);
    } else if status == "CANCELLED" {
      db.orders := MarkFailed(db.orders, orderId, now);
    }
    OrderIdsKept(old(db.orders), db.orders, db.nextOrderId);
    r := Ok("OK");
  }
}
