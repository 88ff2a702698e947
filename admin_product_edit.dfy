/** `client/src/pages/admin/AdminProductEdit.tsx`: the product form's initial and loaded
    state, its change handler and its image list. */
module AdminProductEdit {
  import opened Wrappers
  import opened Types
  import opened Seqs
  import opened Text
  import opened Forms

  /** The blank form of a new product. */
  function EmptyProductForm(): (r: Form)
    ensures r.Keys == {"name", "description", "richDescription", "images", "brand", "price", "category",
                       "countInStock", "isFeatured", "discountPrice", "discountPercentage", "attributes"}
    ensures r["images"] == FList([]) && r["isFeatured"] == FFlag(false) && r["price"] == FNumber(Some(0.0))
  {
    map[
      "name" := FText(""), "description" := FText(""), "richDescription" := FText(""),
      "images" := FList([]), "brand" := FText(""), "price" := FNumber(Some(0.0)),
      "category" := FText(""), "countInStock" := FNumber(Some(0.0)), "isFeatured" := FFlag(false),
      "discountPrice" := FNumber(Some(0.0)), "discountPercentage" := FNumber(Some(0.0)),
      "attributes" := FAttrs(map[])]
  }

  /** A loaded category is reduced to its id: `typeof category === "object" ? category._id : category`. */
  function CategoryKey(c: CategoryRef): (r: string)
    ensures c.CategoryObject? ==> r == c.id
    ensures c.CategoryId? ==> r == c.ref
  {
    match c
    case CategoryObject(id, _) => id
    case CategoryId(ref) => ref
  }

  /** Adds `key` to the form when the optional value is present, as a spread does. */
  function WithOptional(form: Form, key: string, v: Option<FormValue>): (r: Form)
    ensures key in r <==> key in form || v.Some?
    ensures v.Some? ==> r[key] == v.value
    ensures forall k :: k in form && k != key ==> k in r && r[k] == form[k]
  {
    if v.Some? then form[key := v.value] else form
  }

  function OptionalNumber(x: Option<real>): Option<FormValue> {
    if x.Some? then Some(FNumber(x)) else None
  }

  function OptionalText(s: Option<string>): Option<FormValue> {
    if s.Some? then Some(FText(s.value)) else None
  }

  /** `{ ...productData, category: <its id> }`: the form of an edited product replaces the
      blank one entirely, so absent optional fields are absent from the form. */
  function LoadedProductForm(p: Product): (r: Form)
    ensures "category" in r && r["category"] == FText(CategoryKey(p.category))
    ensures "brand" in r <==> p.brand.Some?
  {
    var base := map[
      "_id" := FText(p.id), "name" := FText(p.name), "description" := FText(p.description),
      "images" := FList(p.images), "price" := FNumber(Some(p.price)),
      "countInStock" := FNumber(Some(p.countInStock as real)), "rating" := FNumber(Some(p.rating)),
      "numReviews" := FNumber(Some(p.numReviews as real)), "isFeatured" := FFlag(p.isFeatured),
      "attributes" := FAttrs(p.attributes)];
    var withRich := WithOptional(base, "richDescription", OptionalText(p.richDescription));
    var withBrand := WithOptional(withRich, "brand", OptionalText(p.brand));
    var withDiscount := WithOptional(withBrand, "discountPrice", OptionalNumber(p.discountPrice));
    var withPercent := WithOptional(withDiscount, "discountPercentage", OptionalNumber(p.discountPercentage));
    withPercent["category" := FText(CategoryKey(p.category))]
  }

  /** The value `handleChange` stores: `checked` for a checkbox, the parsed number for a
      number input, the raw string otherwise. */
  function ChangedValue(e: ChangeEvent): (v: FormValue)
    ensures e.kind == Checkbox ==> v == FFlag(e.checked)
    ensures e.kind == NumberInput ==> v == FNumber(e.parsed)
    ensures e.kind == TextInput ==> v == FText(e.value)
  {
    match e.kind
    case Checkbox => FFlag(e.checked)
    case NumberInput => FNumber(e.parsed)
    case TextInput => FText(e.value)
  }

  /** `handleChange`: only the named field changes. */
  function HandleChange(form: Form, e: ChangeEvent): (r: Form)
    ensures r.Keys == form.Keys + {e.name}
    ensures r[e.name] == ChangedValue(e)
    ensures forall k :: k in form && k != e.name ==> r[k] == form[k]
  {
    SetField(form, e.name, ChangedValue(e))
  }

  /** `prev.images || []`. */
  function ImagesOf(form: Form): seq<string> {
    if "images" in form && form["images"].FList? then form["images"].items else []
  }

  /** The form together with the "new image URL" input. */
  datatype ImageEditor = ImageEditor(form: Form, newImageUrl: string)

  /** `handleAddImage`: a URL that is not blank is appended as typed (untrimmed) and the
      input is cleared; a blank one changes nothing. */
  function HandleAddImage(s: ImageEditor): (r: ImageEditor)
    ensures IsBlank(s.newImageUrl) ==> r == s
    ensures !IsBlank(s.newImageUrl) ==>
              r.newImageUrl == "" && ImagesOf(r.form) == ImagesOf(s.form) + [s.newImageUrl]
              && (forall k :: k in s.form && k != "images" ==> k in r.form && r.form[k] == s.form[k])
  {
    if IsBlank(s.newImageUrl) then s
    else ImageEditor(SetField(s.form, "images", FList(ImagesOf(s.form) + [s.newImageUrl])), "")
  }

  /** `handleRemoveImage(index)`: drop that position only. */
  function HandleRemoveImage(form: Form, index: int): (r: Form)
    ensures ImagesOf(r) == RemoveAt(ImagesOf(form), index)
    ensures forall k :: k in form && k != "images" ==> k in r && r[k] == form[k]
  {
    SetField(form, "images", FList(RemoveAt(ImagesOf(form), index)))
  }

  /** Adding an image and then removing the last position gives the old image list back. */
  lemma AddThenRemoveImage(s: ImageEditor)
    requires !IsBlank(s.newImageUrl)
    ensures var added := HandleAddImage(s);
            ImagesOf(HandleRemoveImage(added.form, |ImagesOf(s.form)|)) == ImagesOf(s.form)
  {
    var imgs := ImagesOf(s.form);
    assert (imgs + [s.newImageUrl])[..|imgs|] == imgs;
  }
}
