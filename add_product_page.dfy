/**
 * The vendor's new-product form, src/pages/vendor/AddProductPage.tsx: the
 * chosen image files and their preview URLs, the specification rows, and
 * the required-field check of the submit button.
 */
module AddProductPage {

  /** A file the vendor picked; only its identity matters to the form. */
  datatype ImageFile = ImageFile(name: string)

  /** One specification row, `{ key, value }`. */
  datatype Specification = Specification(key: string, value: string)

  /** Which half of a row `updateSpecification` edits. */
  datatype SpecField = Key | Value

  /** What submitting leads to: the "Missing Fields" toast, or the vendor's product list. */
  datatype SubmitOutcome = MissingFields | Navigate(path: string)

  /** `prev.filter((_, i) => i !== index)`: every element except the one at `index`. */
  function DropIndex<T>(s: seq<T>, index: int): (r: seq<T>)
    ensures |r| <= |s|
  {
    if |s| == 0 then []
    else DropIndex(s[..|s| - 1], index) + (if |s| - 1 != index then [s[|s| - 1]] else [])
  }

  /**
   * Dropping an index in range removes exactly that element, keeping the
   * others in order; an index out of range changes nothing.
   */
  lemma {:induction false} DropIndexSpec<T>(s: seq<T>, index: int)
    ensures 0 <= index < |s| ==> DropIndex(s, index) == s[..index] + s[index + 1..]
    ensures !(0 <= index < |s|) ==> DropIndex(s, index) == s
  {
    if |s| > 0 {
      var init := s[..|s| - 1];
      DropIndexSpec(init, index);
      if index == |s| - 1 {
        assert init == s[..index];
        assert s[index + 1..] == [];
      } else if 0 <= index < |s| - 1 {
        assert init[index + 1..] + [s[|s| - 1]] == s[index + 1..];
        assert init[..index] == s[..index];
      } else {
        assert init + [s[|s| - 1]] == s;
      }
    }
  }

  /** Dropping an index in range shortens the list by one, otherwise not at all. */
  lemma DropIndexLength<T>(s: seq<T>, index: int)
    ensures |DropIndex(s, index)| == |s| - (if 0 <= index < |s| then 1 else 0)
  {
    DropIndexSpec(s, index);
  }

  /** A row with one half replaced: `{ ...spec, [field]: value }`. */
  function WithField(spec: Specification, field: SpecField, value: string): Specification
  {
    match field
    case Key => spec.(key := value)
    case Value => spec.(value := value)
  }

  /** `prev.map((spec, i) => i === index ? { ...spec, [field]: value } : spec)`. */
  function UpdatedRows(rows: seq<Specification>, index: int, field: SpecField, value: string): seq<Specification>
  {
    seq(|rows|, i requires 0 <= i < |rows| => if i == index then WithField(rows[i], field, value) else rows[i])
  }

  /**
   * Editing a row keeps the number of rows and every other row, writes the
   * edited half of that row and keeps its other half.
   */
  lemma UpdatedRowsSpec(rows: seq<Specification>, index: int, field: SpecField, value: string)
    ensures |UpdatedRows(rows, index, field, value)| == |rows|
    ensures forall i :: 0 <= i < |rows| && i != index ==> UpdatedRows(rows, index, field, value)[i] == rows[i]
    ensures 0 <= index < |rows| ==>
      var r := UpdatedRows(rows, index, field, value)[index];
      && (field == Key ==> r.key == value && r.value == rows[index].value)
      && (field == Value ==> r.value == value && r.key == rows[index].key)
    ensures !(0 <= index < |rows|) ==> UpdatedRows(rows, index, field, value) == rows
  {
  }

  /**
   * The remove button of a row is shown only while there is more than one
   * row (AddProductPage.tsx:360), so the form always keeps at least one.
   */
  lemma RemovingKeepsARow(rows: seq<Specification>, index: int)
    requires |rows| > 1 && 0 <= index < |rows|
    ensures |DropIndex(rows, index)| == |rows| - 1 >= 1
  {
    DropIndexLength(rows, index);
  }

  /** The form's state. `images[i]` is previewed at `previews[i]`. */
  class ProductForm {
    var images: seq<ImageFile>
    var previews: seq<string>
    var specifications: seq<Specification>
    var name: string
    var price: string
    var categoryId: string
    var brand: string
    var sku: string
    var stockQuantity: string
    var isLoading: bool

    /** Every image has its preview at the same position. */
    predicate Valid()
      reads this
    {
      |images| == |previews|
    }

    /** The empty form, with one blank specification row (AddProductPage.tsx:34-56). */
    constructor ()
      ensures Valid()
      ensures images == [] && previews == [] && specifications == [Specification("", "")]
      ensures name == "" && price == "" && categoryId == "" && brand == "" && sku == "" && stockQuantity == ""
      ensures !isLoading
    {
      images := [];
      previews := [];
      specifications := [Specification("", "")];
      name := "";
      price := "";
      categoryId := "";
      brand := "";
      sku := "";
      stockQuantity := "";
      isLoading := false;
    }

    /** `handleImageUpload`: the new files and one object URL each are appended. */
    method UploadImages(files: seq<ImageFile>, createObjectUrl: ImageFile -> string)
      modifies this`images, this`previews
      ensures images == old(images) + files
      ensures previews == old(previews) + seq(|files|, i requires 0 <= i < |files| => createObjectUrl(files[i]))
      ensures old(Valid()) ==> Valid()
    {
      var newPreviews := seq(|files|, i requires 0 <= i < |files| => createObjectUrl(files[i]));
      images := images + files;
      previews := previews + newPreviews;
    }

    /** `removeImage`: the file and its preview at `index` both go. */
    method RemoveImage(index: int)
      modifies this`images, this`previews
      ensures images == DropIndex(old(images), index) && previews == DropIndex(old(previews), index)
      ensures old(Valid()) ==> Valid()
    {
      DropIndexLength(images, index);
      DropIndexLength(previews, index);
      images := DropIndex(images, index);
      previews := DropIndex(previews, index);
    }

    /** `addSpecification`: one blank row at the end. */
    method AddSpecification()
      modifies this`specifications
      ensures specifications == old(specifications) + [Specification("", "")]
    {
      specifications := specifications + [Specification("", "")];
    }

    /** `removeSpecification`: the row at `index` goes. */
    method RemoveSpecification(index: int)
      modifies this`specifications
      ensures specifications == DropIndex(old(specifications), index)
    {
      specifications := DropIndex(specifications, index);
    }

    /** `updateSpecification`: one half of the row at `index` is replaced. */
    method UpdateSpecification(index: int, field: SpecField, value: string)
      modifies this`specifications
      ensures specifications == UpdatedRows(old(specifications), index, field, value)
    {
      specifications := UpdatedRows(specifications, index, field, value);
    }

    /** `!name || !price || !categoryId || !brand || !sku || !stockQuantity` fails. */
    predicate RequiredFilled()
      reads this
    {
      name != "" && price != "" && categoryId != "" && brand != "" && sku != "" && stockQuantity != ""
    }

    /**
     * `handleSubmit`: with a required field empty it stops at the toast and
     * leaves the form alone; otherwise it goes to "/vendor/products" with
     * the loading flag cleared again.
     */
    method Submit() returns (r: SubmitOutcome)
      modifies this`isLoading
      ensures r == MissingFields <==> !RequiredFilled()
      ensures RequiredFilled() ==> r == Navigate("/vendor/products") && !isLoading
      ensures !RequiredFilled() ==> isLoading == old(isLoading)
    {
      if name == "" || price == "" || categoryId == "" || brand == "" || sku == "" || stockQuantity == "" {
        return MissingFields;
      }
      isLoading := true;
      r := Navigate("/vendor/products");
      isLoading := false;
    }
  }
}
