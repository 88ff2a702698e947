/** `client/src/pages/admin/AdminCategoryEdit.tsx`: the parent candidates, the form's
    initial and loaded state, and its change handler. */
module AdminCategoryEdit {
  import opened Wrappers
  import opened Types
  import opened Seqs
  import opened Forms

  /** The blank form of a new category: active, top-level. */
  function EmptyCategoryForm(): (r: Form)
    ensures r.Keys == {"name", "description", "image", "parent", "isActive"}
    ensures r["parent"] == FText("") && r["isActive"] == FFlag(true)
  {
    map["name" := FText(""), "description" := FText(""), "image" := FText(""),
        "parent" := FText(""), "isActive" := FFlag(true)]
  }

  function CategoryIdIs(c: Category): string {
    c.id
  }

  /** The categories offered as parent: all of them for a new category, all but the
      category itself when editing. */
  function ParentCandidates(all: seq<Category>, id: Option<string>): (r: seq<Category>)
    ensures IsEditMode(id) ==> forall c :: c in r <==> c in all && c.id != id.value
    ensures !IsEditMode(id) ==> r == all
  {
    if IsEditMode(id) then WithoutKey(all, CategoryIdIs, id.value) else all
  }

  /** When editing, the category can never be offered as its own parent, and every other
      category is offered in its original order. */
  lemma NoSelfParent(all: seq<Category>, id: string)
    requires id != ""
    ensures forall c :: c in ParentCandidates(all, Some(id)) ==> c.id != id
    ensures IsSubsequence(ParentCandidates(all, Some(id)), all)
  {
    WithoutKeyOrder(all, CategoryIdIs, id);
  }

  /** The loaded parent as the select's value: the id of a populated parent, the string
      itself when it is a non-empty id, else "". */
  function ParentKey(p: ParentRef): (r: string)
    ensures p.ParentObject? ==> r == p.id
    ensures p.ParentText? ==> r == p.text
    ensures p.NoParent? ==> r == ""
  {
    match p
    case ParentObject(id) => id
    case ParentText(text) => text
    case NoParent => ""
  }

  /** `{ ...categoryData, parent: <its id or ""> }`. */
  function LoadedCategoryForm(c: Category): (r: Form)
    ensures "parent" in r && r["parent"] == FText(ParentKey(c.parent))
    ensures "name" in r && r["name"] == FText(c.name)
    ensures "isActive" in r <==> c.isActive.Some?
  {
    var base := map["_id" := FText(c.id), "name" := FText(c.name)];
    var withDescription := if c.description.Some? then base["description" := FText(c.description.value)] else base;
    var withImage := if c.image.Some? then withDescription["image" := FText(c.image.value)] else withDescription;
    var withActive := if c.isActive.Some? then withImage["isActive" := FFlag(c.isActive.value)] else withImage;
    withActive["parent" := FText(ParentKey(c.parent))]
  }

  /** A top-level category loads with parent "", the select's "None" option, and is
      submitted with that empty parent. */
  lemma TopLevelLoadsEmptyParent(c: Category)
    requires c.parent.NoParent?
    ensures "parent" in LoadedCategoryForm(c) && LoadedCategoryForm(c)["parent"] == FText("")
  {
  }

  /** `handleChange`: a checkbox stores `checked`, any other input its raw value; only the
      named field changes. */
  function HandleChange(form: Form, e: ChangeEvent): (r: Form)
    ensures r.Keys == form.Keys + {e.name}
    ensures e.kind == Checkbox ==> r[e.name] == FFlag(e.checked)
    ensures e.kind != Checkbox ==> r[e.name] == FText(e.value)
    ensures forall k :: k in form && k != e.name ==> r[k] == form[k]
  {
    SetField(form, e.name, if e.kind == Checkbox then FFlag(e.checked) else FText(e.value))
  }
}
