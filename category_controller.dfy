/** `server/controllers/categoryController.js`: the category list, and creating, updating
    and deleting a category. */
module CategoryController {
  import opened Wrappers
  import opened Types
  import opened Seqs
  import opened Text
  import opened Catalog

  // Listing

  /** Byte-wise string order (code-point order, as MongoDB's simple collation compares
      UTF-8 strings): `a` sorts no later than `b`. */
  predicate NameLe(a: string, b: string)
    decreases |a|
  {
    a == [] || (b != [] && (a[0] < b[0] || (a[0] == b[0] && NameLe(a[1..], b[1..]))))
  }

  /** Any two names are ordered one way or the other. */
  lemma {:induction false} NameLeTotal(a: string, b: string)
    ensures NameLe(a, b) || NameLe(b, a)
    decreases |a|
  {
    if a != [] && b != [] && a[0] == b[0] {
      NameLeTotal(a[1..], b[1..]);
    }
  }

  predicate SortedByName(cs: seq<CategoryDoc>) {
    forall i :: 0 <= i < |cs| - 1 ==> NameLe(cs[i].name, cs[i + 1].name)
  }

  /** The name order is transitive. */
  lemma {:induction false} NameLeTrans(a: string, b: string, c: string)
    requires NameLe(a, b) && NameLe(b, c)
    ensures NameLe(a, c)
  {
    if a != [] && b != [] && c != [] && a[0] == b[0] && b[0] == c[0] {
      NameLeTrans(a[1..], b[1..], c[1..]);
    }
  }

  /** In a list sorted by name the first category has the least name of all. */
  lemma {:induction false} SortedFirstIsLeast(cs: seq<CategoryDoc>)
    requires SortedByName(cs)
    ensures forall i :: 0 <= i < |cs| ==> NameLe(cs[0].name, cs[i].name)
  {
    if |cs| > 1 {
      SortedFirstIsLeast(cs[1..]);
      forall i | 1 <= i < |cs|
        ensures NameLe(cs[0].name, cs[i].name)
      {
        assert cs[1..][i - 1] == cs[i];
        NameLeTrans(cs[0].name, cs[1].name, cs[i].name);
      }
      NameLeRefl(cs[0].name);
    } else if |cs| == 1 {
      NameLeRefl(cs[0].name);
    }
  }

  lemma {:induction false} NameLeRefl(a: string)
    ensures NameLe(a, a)
  {
    if a != [] {
      NameLeRefl(a[1..]);
    }
  }

  function InsertByName(c: CategoryDoc, sorted: seq<CategoryDoc>): (r: seq<CategoryDoc>)
    ensures multiset(r) == multiset(sorted) + multiset{c}
    ensures |r| > 0 && (r[0] == c || (sorted != [] && r[0] == sorted[0]))
  {
    if sorted == [] then [c]
    else if NameLe(c.name, sorted[0].name) then [c] + sorted
    else
      assert sorted == [sorted[0]] + sorted[1..];
      [sorted[0]] + InsertByName(c, sorted[1..])
  }

  lemma {:induction false} InsertKeepsSorted(c: CategoryDoc, sorted: seq<CategoryDoc>)
    requires SortedByName(sorted)
    ensures SortedByName(InsertByName(c, sorted))
  {
    if sorted != [] && !NameLe(c.name, sorted[0].name) {
      NameLeTotal(c.name, sorted[0].name);
      InsertKeepsSorted(c, sorted[1..]);
      var rest := InsertByName(c, sorted[1..]);
      assert InsertByName(c, sorted) == [sorted[0]] + rest;
    }
  }

  /** `Category.find({}).sort({ name: 1 })`. */
  function GetCategories(categories: seq<CategoryDoc>): (r: seq<CategoryDoc>)
    ensures multiset(r) == multiset(categories)
  {
    if categories == [] then []
    else
      assert categories == [categories[0]] + categories[1..];
      InsertByName(categories[0], GetCategories(categories[1..]))
  }

  /** The list comes back in ascending name order and holds exactly the stored categories. */
  lemma {:induction false} GetCategoriesSorted(categories: seq<CategoryDoc>)
    ensures SortedByName(GetCategories(categories))
    ensures multiset(GetCategories(categories)) == multiset(categories)
  {
    if categories != [] {
      GetCategoriesSorted(categories[1..]);
      InsertKeepsSorted(categories[0], GetCategories(categories[1..]));
    }
  }

  // Creating

  /** The body of a create or update request; None is a field left out of the body. */
  datatype CategoryInput = CategoryInput(
    name: Option<string>,
    description: Option<string>,
    image: Option<string>,
    parent: Option<string>,
    isActive: Option<bool>)

  /** `parent && parent.trim() !== ""`. */
  predicate GivesParent(parent: Option<string>) {
    parent.Some? && parent.value != "" && !IsBlank(parent.value)
  }

  predicate CategorySlugTaken(categories: seq<CategoryDoc>, slug: string) {
    exists i :: 0 <= i < |categories| && categories[i].slug == slug
  }

  /** The document `Category.create` stores: the parent only when one is given; `isActive`
      is not read from the body and takes the value true. */
  function NewCategoryDoc(id: string, slug: string, body: CategoryInput): CategoryDoc {
    CategoryDoc(id, body.name.GetOr(""), slug, body.description, body.image,
      if GivesParent(body.parent) then body.parent else None, true)
  }

  /** `createCategory`: a missing name throws; a taken slug is 400; a given parent must
      exist (400); an empty or blank parent is stored as no parent. */
  function CreateCategory(db: Db, body: CategoryInput, newId: string): (r: Result<Db, Failure>)
    ensures body.name.None? ==> r.Err? && r.error.Uncaught?
    ensures body.name.Some? && CategorySlugTaken(db.categories, Slug(body.name.value))
            ==> r == Err(HttpError(400, "Category with this name already exists"))
    ensures (body.name.Some? && !CategorySlugTaken(db.categories, Slug(body.name.value)) && GivesParent(body.parent)
             && IsValidObjectId(body.parent.value) && CategoryIndex(db.categories, body.parent.value) == -1)
            ==> r == Err(HttpError(400, "Parent category not found"))
    ensures r.Ok? <==> body.name.Some? && !CategorySlugTaken(db.categories, Slug(body.name.value))
                       && (GivesParent(body.parent) ==> IsValidObjectId(body.parent.value) && CategoryIndex(db.categories, body.parent.value) >= 0)
    ensures r.Ok? ==> r.value == db.(categories := db.categories + [NewCategoryDoc(newId, Slug(body.name.value), body)])
    ensures r.Ok? ==> var c := NewCategoryDoc(newId, Slug(body.name.value), body);
                      c.parent.Some? ==> exists i :: 0 <= i < |db.categories| && db.categories[i].id == c.parent.value
  {
    if body.name.None? then Err(Uncaught("Cannot read properties of undefined (reading 'toLowerCase')"))
    else
      var slug := Slug(body.name.value);
      if CategorySlugTaken(db.categories, slug) then Err(HttpError(400, "Category with this name already exists"))
      else if GivesParent(body.parent) then
        var found :- FindCategory(db.categories, body.parent.value);
        if found == -1 then Err(HttpError(400, "Parent category not found"))
        else Ok(db.(categories := db.categories + [NewCategoryDoc(newId, slug, body)]))
      else Ok(db.(categories := db.categories + [NewCategoryDoc(newId, slug, body)]))
  }

  /** Creating never gives two categories the same slug. */
  lemma CreateKeepsSlugsUnique(db: Db, body: CategoryInput, newId: string)
    requires CategorySlugsUnique(db.categories)
    ensures var r := CreateCategory(db, body, newId);
            r.Ok? ==> CategorySlugsUnique(r.value.categories)
  {
  }

  // Updating

  /** The merge of `updateCategory`: name, description, image and parent are replaced only
      by a truthy value; `isActive` by any value that is present; the slug follows a
      truthy name. */
  function MergeCategory(c: CategoryDoc, body: CategoryInput): (r: CategoryDoc)
    ensures r.id == c.id
    ensures TruthyText(body.name) ==> r.name == body.name.value && r.slug == Slug(r.name)
    ensures !TruthyText(body.name) ==> r.name == c.name && r.slug == c.slug
    ensures r.description == (if TruthyText(body.description) then body.description else c.description)
    ensures r.image == (if TruthyText(body.image) then body.image else c.image)
    ensures TruthyText(body.parent) ==> r.parent == body.parent
    ensures !TruthyText(body.parent) ==> r.parent == c.parent
    ensures r.isActive == (if body.isActive.Some? then body.isActive.value else c.isActive)
  {
    CategoryDoc(
      c.id,
      TextOr(body.name, c.name),
      if TruthyText(body.name) then Slug(body.name.value) else c.slug,
      if TruthyText(body.description) then body.description else c.description,
      if TruthyText(body.image) then body.image else c.image,
      if TruthyText(body.parent) then body.parent else c.parent,
      body.isActive.GetOr(c.isActive))
  }

  /** A body with no fields leaves the category as it was. */
  lemma MergeCategoryEmptyBody(c: CategoryDoc)
    ensures MergeCategory(c, CategoryInput(None, None, None, None, None)) == c
  {
  }

  /** Sending the same update twice has the effect of sending it once. */
  lemma MergeCategoryIdempotent(c: CategoryDoc, body: CategoryInput)
    ensures MergeCategory(MergeCategory(c, body), body) == MergeCategory(c, body)
  {
  }

  /** The merge as written cannot move a category back to the top level: the form's
      "None" option sends an empty parent, which is falsy, so the old parent stays. */
  lemma ParentCannotBeCleared(c: CategoryDoc, body: CategoryInput)
    requires body.parent == Some("")
    ensures MergeCategory(c, body).parent == c.parent
  {
  }

  /** The merge as evidently intended: a parent that is present replaces the old one, and
      an empty or blank parent clears it, as `createCategory` treats it. */
  function MergeCategoryIntended(c: CategoryDoc, body: CategoryInput): (r: CategoryDoc)
    ensures r.(parent := c.parent) == MergeCategory(c, body).(parent := c.parent)
    ensures body.parent == Some("") ==> r.parent.None?
  {
    MergeCategory(c, body).(parent :=
      if body.parent.None? then c.parent
      else if GivesParent(body.parent) then body.parent
      else None)
  }

  /** With the intended merge an empty parent makes the category top-level, a real parent
      is taken, an absent one is kept, and every other field merges as before. */
  lemma IntendedParentRules(c: CategoryDoc, body: CategoryInput)
    ensures body.parent == Some("") ==> MergeCategoryIntended(c, body).parent == None
    ensures GivesParent(body.parent) ==> MergeCategoryIntended(c, body).parent == body.parent
    ensures body.parent.None? ==> MergeCategoryIntended(c, body).parent == c.parent
    ensures MergeCategoryIntended(c, body).(parent := c.parent) == MergeCategory(c, body).(parent := c.parent)
  {
  }

  /** The fetched category document, whose fields `updateCategory` assigns in place. */
  class CategoryDocument {
    const id: string
    var name: string
    var slug: string
    var description: Option<string>
    var image: Option<string>
    var parent: Option<string>
    var isActive: bool

    constructor(c: CategoryDoc)
      ensures Snapshot() == c
    {
      id := c.id;
      name := c.name;
      slug := c.slug;
      description := c.description;
      image := c.image;
      parent := c.parent;
      isActive := c.isActive;
    }

    function Snapshot(): CategoryDoc
      reads this
    {
      CategoryDoc(id, name, slug, description, image, parent, isActive)
    }

    /** The assignments of `updateCategory`, in the source's order. */
    method ApplyUpdate(body: CategoryInput)
      modifies this
      ensures Snapshot() == MergeCategory(old(Snapshot()), body)
    {
      var newSlug := if TruthyText(body.name) then Slug(body.name.value) else slug;
      name := TextOr(body.name, name);
      slug := newSlug;
      description := if TruthyText(body.description) then body.description else description;
      image := if TruthyText(body.image) then body.image else image;
      parent := if TruthyText(body.parent) then body.parent else parent;
      isActive := if body.isActive.Some? then body.isActive.value else isActive;
    }
  }

  /** `updateCategory`: an unknown category is 404; a truthy parent must exist (400);
      otherwise the document is merged and saved in place. */
  method UpdateCategory(db: Db, id: string, body: CategoryInput) returns (r: Result<Db, Failure>)
    ensures !IsValidObjectId(id) ==> r.Err? && r.error.Uncaught?
    ensures IsValidObjectId(id) && CategoryIndex(db.categories, id) == -1 ==> r == Err(HttpError(404, "Category not found"))
    ensures (IsValidObjectId(id) && CategoryIndex(db.categories, id) >= 0 && TruthyText(body.parent)
             && IsValidObjectId(body.parent.value) && CategoryIndex(db.categories, body.parent.value) == -1)
            ==> r == Err(HttpError(400, "Parent category not found"))
    ensures r.Ok? <==> IsValidObjectId(id) && CategoryIndex(db.categories, id) >= 0
                       && (TruthyText(body.parent) ==> IsValidObjectId(body.parent.value) && CategoryIndex(db.categories, body.parent.value) >= 0)
    ensures r.Ok? ==> var i := CategoryIndex(db.categories, id);
                      r.value == db.(categories := db.categories[i := MergeCategory(db.categories[i], body)])
  {
    var found := FindCategory(db.categories, id);
    if found.Err? {
      return Err(found.error);
    }
    var i := found.value;
    if i == -1 {
      return Err(HttpError(404, "Category not found"));
    }
    var category := new CategoryDocument(db.categories[i]);
    if TruthyText(body.parent) {
      var parentCheck := FindCategory(db.categories, body.parent.value);
      if parentCheck.Err? {
        return Err(parentCheck.error);
      }
      if parentCheck.value == -1 {
        return Err(HttpError(400, "Parent category not found"));
      }
    }
    category.ApplyUpdate(body);
    r := Ok(db.(categories := db.categories[i := category.Snapshot()]));
  }

  // Deleting

  predicate HasChildren(categories: seq<CategoryDoc>, id: string) {
    exists i :: 0 <= i < |categories| && categories[i].parent == Some(id)
  }

  predicate HasProducts(products: seq<ProductDoc>, id: string) {
    exists i :: 0 <= i < |products| && products[i].category == id
  }

  /** `deleteCategory`, its checks in order: malformed id (400), not found (404), has
      subcategories (400), assigned to products (400); only then is it removed. */
  function DeleteCategory(db: Db, id: string): (r: Result<Db, Failure>)
    ensures !IsValidObjectId(id) ==> r == Err(HttpError(400, "Invalid category ID"))
    ensures IsValidObjectId(id) && CategoryIndex(db.categories, id) == -1 ==> r == Err(HttpError(404, "Category not found"))
    ensures (IsValidObjectId(id) && CategoryIndex(db.categories, id) >= 0 && HasChildren(db.categories, id))
            ==> r == Err(HttpError(400, "Cannot delete category: It has subcategories. Delete or reassign them first."))
    ensures (IsValidObjectId(id) && CategoryIndex(db.categories, id) >= 0 && !HasChildren(db.categories, id)
             && HasProducts(db.products, id))
            ==> r == Err(HttpError(400, "Cannot delete category: It is assigned to products."))
    ensures r.Ok? <==> IsValidObjectId(id) && CategoryIndex(db.categories, id) >= 0
                       && !HasChildren(db.categories, id) && !HasProducts(db.products, id)
    ensures r.Ok? ==> r.value == db.(categories := RemoveAt(db.categories, CategoryIndex(db.categories, id)))
  {
    if !IsValidObjectId(id) then Err(HttpError(400, "Invalid category ID"))
    else
      var i := CategoryIndex(db.categories, id);
      if i == -1 then Err(HttpError(404, "Category not found"))
      else if HasChildren(db.categories, id) then
        Err(HttpError(400, "Cannot delete category: It has subcategories. Delete or reassign them first."))
      else if HasProducts(db.products, id) then Err(HttpError(400, "Cannot delete category: It is assigned to products."))
      else Ok(db.(categories := RemoveAt(db.categories, i)))
  }

  /** A successful delete leaves no category pointing at the removed one as its parent and
      no product assigned to it. */
  lemma DeleteLeavesNoDanglingRefs(db: Db, id: string)
    ensures var r := DeleteCategory(db, id);
            r.Ok? ==> (forall k :: 0 <= k < |r.value.categories| ==> r.value.categories[k].parent != Some(id))
                      && (forall k :: 0 <= k < |r.value.products| ==> r.value.products[k].category != id)
  {
    var r := DeleteCategory(db, id);
    if r.Ok? {
      var i := CategoryIndex(db.categories, id);
      forall k | 0 <= k < |r.value.categories|
        ensures r.value.categories[k].parent != Some(id)
      {
        if k < i {
          assert r.value.categories[k] == db.categories[k];
        } else {
          assert r.value.categories[k] == db.categories[k + 1];
        }
      }
    }
  }
}
