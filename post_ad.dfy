/** The ad submission form of src/pages/PostAd.tsx: the extra fields each
    category asks for, the category picker's list, and the photo list. */
module PostAd {
  import opened Common
  import opened Seqs
  import opened Categories

  datatype FieldKind = TextField | NumberField | SelectField

  /** A form field; `options` lists a select field's choices. */
  datatype CategoryField = CategoryField(name: string, kind: FieldKind, required: bool, options: Option<seq<string>>)

  function Names(fields: seq<CategoryField>): (r: seq<string>)
    ensures |r| == |fields|
    ensures forall i :: 0 <= i < |fields| ==> r[i] == fields[i].name
  {
    if fields == [] then [] else [fields[0].name] + Names(fields[1..])
  }

  /** Brand and model, both optional text. */
  function CommonFields(): seq<CategoryField> {
    [CategoryField("brand", TextField, false, None), CategoryField("model", TextField, false, None)]
  }

  /** The `switch` on the category's slug. */
  function FieldsForSlug(slug: string): seq<CategoryField> {
    if slug == "automobiles" then
      CommonFields() + [
        CategoryField("year", NumberField, true, None),
        CategoryField("mileage", NumberField, true, None),
        CategoryField("fuel_type", SelectField, true, Some(["Essence", "Diesel", "Électrique", "Hybride"])),
        CategoryField("transmission", SelectField, true, Some(["Manuelle", "Automatique"]))]
    else if slug == "immobilier" then
      [CategoryField("surface", NumberField, true, None),
       CategoryField("rooms", NumberField, true, None),
       CategoryField("property_type", SelectField, true, Some(["Appartement", "Maison", "Studio", "Villa"]))]
    else if slug == "electronique" then
      CommonFields() + [
        CategoryField("warranty", SelectField, false, Some(["Sous garantie", "Hors garantie"])),
        CategoryField("storage", TextField, false, None)]
    else if slug == "vetements" then
      [CategoryField("size", SelectField, true, Some(["XS", "S", "M", "L", "XL", "XXL"])),
       CategoryField("color", TextField, true, None),
       CategoryField("material", TextField, false, None)]
    else
      CommonFields()
  }

  /** Every select field offers at least one choice, and only select fields
      carry choices. */
  predicate WellFormedField(f: CategoryField) {
    (f.kind == SelectField ==> f.options.Some? && |f.options.value| > 0)
    && (f.kind != SelectField ==> f.options.None?)
  }

  /** `k` is the first position of `cats` with id `id`. */
  predicate IsFirstWithId(cats: seq<Category>, id: string, k: int) {
    0 <= k < |cats| && cats[k].id == id && forall j :: 0 <= j < k ==> cats[j].id != id
  }

  /** `getCategoryFields(categoryId)`: the fields of the first loaded category
      with that id, none when no loaded category has it. */
  function GetCategoryFields(cats: seq<Category>, categoryId: string): (r: seq<CategoryField>)
    ensures (forall i :: 0 <= i < |cats| ==> cats[i].id != categoryId) ==> r == []
    ensures forall k :: IsFirstWithId(cats, categoryId, k) ==> r == FieldsForSlug(cats[k].slug)
    ensures forall i :: 0 <= i < |r| ==> WellFormedField(r[i])
  {
    match Find(cats, (c: Category) => c.id == categoryId)
    case None => []
    case Some(c) =>
      var fields := FieldsForSlug(c.slug);
      assert forall i :: 0 <= i < |fields| ==> WellFormedField(fields[i]);
      forall k | IsFirstWithId(cats, categoryId, k)
        ensures c == cats[k]
      {
        FindIsFirst(cats, (c: Category) => c.id == categoryId, k);
      }
      fields
  }

  /** Vehicles ask for brand, model, year, mileage, fuel type and gearbox, in
      that order; the last four are required. */
  lemma AutomobileFields()
    ensures Names(FieldsForSlug("automobiles")) == ["brand", "model", "year", "mileage", "fuel_type", "transmission"]
    ensures forall i :: 0 <= i < 6 ==> (FieldsForSlug("automobiles")[i].required <==> i >= 2)
  {
    var fs := FieldsForSlug("automobiles");
    assert Names(fs) == [fs[0].name, fs[1].name, fs[2].name, fs[3].name, fs[4].name, fs[5].name];
  }

  /** Property and clothing skip brand and model; electronics start with them;
      any other slug asks for exactly them. */
  lemma SlugTable(slug: string)
    ensures "brand" !in Names(FieldsForSlug("immobilier")) && "model" !in Names(FieldsForSlug("immobilier"))
    ensures "brand" !in Names(FieldsForSlug("vetements")) && "model" !in Names(FieldsForSlug("vetements"))
    ensures FieldsForSlug("electronique")[..2] == CommonFields()
    ensures slug !in ["automobiles", "immobilier", "electronique", "vetements"] ==> FieldsForSlug(slug) == CommonFields()
  {
    var im := FieldsForSlug("immobilier");
    assert Names(im) == [im[0].name, im[1].name, im[2].name];
    var ve := FieldsForSlug("vetements");
    assert Names(ve) == [ve[0].name, ve[1].name, ve[2].name];
  }

  /** The values the form's condition select stores. */
  const ConditionChoices := ["new", "like-new", "good", "fair", "poor"]

  /** A category with no parent: `!c.parent_id` also holds for an empty id. */
  predicate IsRoot(c: Category) {
    c.parentId.None? || c.parentId.value == ""
  }

  /** Each of `roots` followed at once by its children, in input order. */
  function Blocks(roots: seq<Category>, cats: seq<Category>): seq<Category> {
    if roots == [] then [] else [roots[0]] + ChildrenOf(cats, roots[0].id) + Blocks(roots[1..], cats)
  }

  /** The picker's list: every root category, each immediately followed by
      its direct children. */
  function SelectList(cats: seq<Category>): seq<Category> {
    Blocks(Filter(cats, IsRoot), cats)
  }

  lemma {:induction false} BlocksMembership(roots: seq<Category>, cats: seq<Category>, c: Category)
    ensures c in Blocks(roots, cats) <==>
      c in roots || (c in cats && exists i :: 0 <= i < |roots| && c.parentId == Some(roots[i].id))
  {
    if roots != [] {
      BlocksMembership(roots[1..], cats, c);
      if c in cats && exists i :: 0 <= i < |roots| && c.parentId == Some(roots[i].id) {
        var i :| 0 <= i < |roots| && c.parentId == Some(roots[i].id);
        if i > 0 {
          assert c.parentId == Some(roots[1..][i - 1].id);
        }
      }
      if c in cats && exists i :: 0 <= i < |roots[1..]| && c.parentId == Some(roots[1..][i].id) {
        var i :| 0 <= i < |roots[1..]| && c.parentId == Some(roots[1..][i].id);
        assert c.parentId == Some(roots[i + 1].id);
      }
    }
  }

  /** A category is offered exactly when it is a root or the child of a root;
      one whose parent is itself a child is never offered. */
  lemma SelectListMembership(cats: seq<Category>, c: Category)
    ensures c in SelectList(cats) <==>
      c in cats && (IsRoot(c) || exists r :: r in cats && IsRoot(r) && c.parentId == Some(r.id))
  {
    var roots := Filter(cats, IsRoot);
    BlocksMembership(roots, cats, c);
    if exists r :: r in cats && IsRoot(r) && c.parentId == Some(r.id) {
      var r :| r in cats && IsRoot(r) && c.parentId == Some(r.id);
      assert r in roots;
      var i :| 0 <= i < |roots| && roots[i] == r;
    }
  }

  /** The picker's blocks split wherever the roots do. */
  lemma {:induction false} BlocksAppend(a: seq<Category>, b: seq<Category>, cats: seq<Category>)
    ensures Blocks(a + b, cats) == Blocks(a, cats) + Blocks(b, cats)
  {
    if a == [] {
      assert a + b == b;
    } else {
      assert (a + b)[0] == a[0] && (a + b)[1..] == a[1..] + b;
      BlocksAppend(a[1..], b, cats);
    }
  }

  /** The picker lists the roots in their fetched order, each immediately
      followed by its children: the blocks of the roots before it come first
      and those of the roots after it follow. */
  lemma SelectListOrder(cats: seq<Category>, i: int)
    requires 0 <= i < |Filter(cats, IsRoot)|
    ensures var roots := Filter(cats, IsRoot);
      SelectList(cats) == Blocks(roots[..i], cats) + [roots[i]] + ChildrenOf(cats, roots[i].id) + Blocks(roots[i + 1..], cats)
  {
    var roots := Filter(cats, IsRoot);
    assert roots == roots[..i] + roots[i..];
    BlocksAppend(roots[..i], roots[i..], cats);
    assert roots[i..][0] == roots[i] && roots[i..][1..] == roots[i + 1..];
  }

  /** Removing photo `k`: `images.filter((_, i) => i !== k)`. */
  function RemovedAt(images: seq<string>, k: int): (r: seq<string>)
    ensures 0 <= k < |images| ==> |r| == |images| - 1
    ensures !(0 <= k < |images|) ==> r == images
  {
    if 0 <= k < |images| then images[..k] + images[k + 1..] else images
  }

  /** Removing a photo keeps the others in order: putting it back at its place
      gives the list back. */
  lemma RemovedAtRestores(images: seq<string>, k: int)
    requires 0 <= k < |images|
    ensures RemovedAt(images, k)[..k] + [images[k]] + RemovedAt(images, k)[k..] == images
    ensures forall i :: 0 <= i < |images| - 1 ==> RemovedAt(images, k)[i] == images[if i < k then i else i + 1]
  {
    var r := RemovedAt(images, k);
    assert r[..k] == images[..k];
    assert r[k..] == images[k + 1..];
  }

  /** The form takes up to ten photos. */
  const MaxImages := 10

  /** The add tile is shown while fewer than ten photos are present. */
  predicate ShowsAddTile(images: seq<string>) {
    |images| < MaxImages
  }

  /** The upload handler as written: every selected file is appended. */
  function UploadedAsWritten(images: seq<string>, files: seq<string>): (r: seq<string>)
    ensures |r| == |images| + |files|
    ensures r[..|images|] == images && r[|images|..] == files
  {
    images + files
  }

  /** With nine photos the add tile is still shown, and picking two files
      gives eleven, one over the limit. */
  lemma UploadOverflows()
    ensures var nine := seq(9, i => "photo");
      ShowsAddTile(nine) && |UploadedAsWritten(nine, ["a", "b"])| == 11 > MaxImages
  {
  }

  function Min(a: int, b: int): int {
    if a <= b then a else b
  }

  /** The upload with the limit applied: files are appended in order until
      ten photos are present; the rest are dropped. */
  function CappedUpload(images: seq<string>, files: seq<string>): (r: seq<string>)
    ensures |r| >= |images| && r[..|images|] == images
    ensures |images| <= MaxImages ==> |r| <= MaxImages
    ensures |images| <= MaxImages ==> |r| == Min(MaxImages, |images| + |files|)
    ensures |images| + |files| <= MaxImages ==> r == UploadedAsWritten(images, files)
    ensures r[|images|..] <= files
  {
    var room := if |images| < MaxImages then MaxImages - |images| else 0;
    var r := images + files[..Min(room, |files|)];
    assert r[|images|..] == files[..Min(room, |files|)];
    r
  }

  /** The form's state: the chosen category, its fields and the photos. */
  class AdDraft {
    var selectedCategory: string
    var categoryFields: seq<CategoryField>
    var images: seq<string>

    predicate Valid()
      reads this
    {
      |images| <= MaxImages
    }

    constructor ()
      ensures selectedCategory == "" && categoryFields == [] && images == [] && Valid()
    {
      selectedCategory, categoryFields, images := "", [], [];
    }

    /** `handleCategoryChange` over the loaded categories. */
    method ChangeCategory(cats: seq<Category>, categoryId: string)
      modifies this`selectedCategory, this`categoryFields
      ensures selectedCategory == categoryId && categoryFields == GetCategoryFields(cats, categoryId)
    {
      selectedCategory := categoryId;
      categoryFields := GetCategoryFields(cats, categoryId);
    }

    /** `handleImageUpload` with the limit applied; `files` are the data URLs
        of the picked files. */
    method Upload(files: seq<string>)
      requires Valid()
      modifies this`images
      ensures images == CappedUpload(old(images), files) && Valid()
    {
      var i := 0;
      while i < |files| && |images| < MaxImages
        invariant 0 <= i <= |files|
        invariant |images| <= MaxImages
        invariant images == old(images) + files[..i]
        invariant |old(images)| + i <= MaxImages
        invariant i < |files| && |images| == MaxImages ==> i == Min(MaxImages - |old(images)|, |files|)
        decreases |files| - i
      {
        images := images + [files[i]];
        i := i + 1;
      }
      assert i == Min(if |old(images)| < MaxImages then MaxImages - |old(images)| else 0, |files|);
    }

    /** The delete button on photo `k`. */
    method RemoveImage(k: nat)
      requires Valid()
      modifies this`images
      ensures images == RemovedAt(old(images), k) && Valid()
    {
      if k < |images| {
        images := images[..k] + images[k + 1..];
      }
    }
  }
}
