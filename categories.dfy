/** The category browsing page of src/pages/Categories.tsx: resolving the
    category and subcategory slugs of the route, and the ads query it sends. */
module Categories {
  import opened Common
  import opened Seqs
  import opened Listings

  /** A row of `categories`; `parentId` is NULL for a top-level category. */
  datatype Category = Category(id: string, name: string, slug: string, parentId: Option<string>, displayOrder: int)

  /** `k` is the first position of `cats` whose slug is `slug`. */
  predicate IsFirstWithSlug(cats: seq<Category>, slug: string, k: int) {
    0 <= k < |cats| && cats[k].slug == slug && forall j :: 0 <= j < k ==> cats[j].slug != slug
  }

  /** `categories.find(cat => cat.slug === slug)`; an absent route parameter
      equals no slug. */
  function FindBySlug(cats: seq<Category>, slug: Option<string>): (r: Option<Category>)
    ensures r.None? <==> slug.None? || forall i :: 0 <= i < |cats| ==> cats[i].slug != slug.value
    ensures r.Some? ==> slug.Some? && exists k :: IsFirstWithSlug(cats, slug.value, k) && cats[k] == r.value
  {
    if slug.None? then None else Find(cats, (c: Category) => c.slug == slug.value)
  }

  /** `categories.filter(cat => cat.parent_id === parentId)`. */
  function ChildrenOf(cats: seq<Category>, parentId: string): (r: seq<Category>)
    ensures forall c :: c in r <==> c in cats && c.parentId == Some(parentId)
  {
    Filter(cats, (c: Category) => c.parentId == Some(parentId))
  }

  /** The children keep their fetched order. */
  lemma ChildrenInOrder(cats: seq<Category>, parentId: string)
    ensures IsSubsequence(ChildrenOf(cats, parentId), cats)
  {
    FilterIsSubsequence(cats, (c: Category) => c.parentId == Some(parentId));
  }

  /** The category whose ads are listed: the subcategory the second slug
      names, when it is given and names one of `subs`, else the category. */
  function TargetCategoryId(category: Category, subs: seq<Category>, subSlug: Option<string>): (r: string)
    ensures (subSlug.Some? && subSlug.value != "" && exists i :: 0 <= i < |subs| && subs[i].slug == subSlug.value)
      ==> exists k :: IsFirstWithSlug(subs, subSlug.value, k) && r == subs[k].id
    ensures !(subSlug.Some? && subSlug.value != "" && exists i :: 0 <= i < |subs| && subs[i].slug == subSlug.value)
      ==> r == category.id
  {
    if subSlug.Some? && subSlug.value != "" then
      match FindBySlug(subs, subSlug)
      case Some(sub) => sub.id
      case None => category.id
    else
      category.id
  }

  /** The ads query of a category page, newest first. */
  function CategoryAdsQuery(target: string): Query {
    Query([Eq(CategoryId, Str(target)), Eq(Status, Str(Active))], Some(Order(CreatedAt, false)), None)
  }

  /** The page lists exactly the active listings filed under the target
      category, newest first. */
  lemma CategoryQueryMeaning(target: string, ad: Listing)
    ensures Matches(CategoryAdsQuery(target), ad) <==> ad.categoryId == target && ad.status == Some(Active)
    ensures CategoryAdsQuery(target).order == Some(Order(CreatedAt, false))
    ensures CategoryAdsQuery(target).limit.None?
  {
    var ps := CategoryAdsQuery(target).filters;
    assert ps[0] == Eq(CategoryId, Str(target)) && ps[1] == Eq(Status, Str(Active));
  }

  /** A top-level page lists only the ads filed under the top-level category
      itself, not those filed under one of its subcategories. */
  lemma ParentPageOmitsChildAds(category: Category, cats: seq<Category>, sub: Category, ad: Listing)
    requires sub in ChildrenOf(cats, category.id) && sub.id != category.id
    requires ad.categoryId == sub.id
    ensures !Matches(CategoryAdsQuery(TargetCategoryId(category, ChildrenOf(cats, category.id), None)), ad)
  {
    CategoryQueryMeaning(category.id, ad);
  }

  /** The badge for a listing's condition: none when the condition is empty,
      "Neuf" for 'new', "Comme neuf" for 'like_new', "Occasion" for any other. */
  function ConditionLabel(condition: Option<string>): (r: Option<string>)
    ensures r.None? <==> condition.None? || condition.value == ""
    ensures r.Some? ==> r.value in ["Neuf", "Comme neuf", "Occasion"]
    ensures r == Some("Neuf") <==> condition == Some("new")
    ensures r == Some("Comme neuf") <==> condition == Some("like_new")
  {
    if condition.None? || condition.value == "" then None
    else if condition.value == "new" then Some("Neuf")
    else if condition.value == "like_new" then Some("Comme neuf")
    else Some("Occasion")
  }

  /** The page's state. */
  class CategoryPage {
    var categories: seq<Category>
    var current: Option<Category>
    var subcategories: seq<Category>
    var ads: seq<Listing>
    var loading: bool

    constructor ()
      ensures categories == [] && current.None? && subcategories == [] && ads == [] && loading
    {
      categories, current, subcategories, ads := [], None, [], [];
      loading := true;
    }

    /** `fetchCategoriesAndAds` for the route's slugs. `fetchedCategories` is
        the read of all categories (None on error), `fetchedAds` the answer to
        the ads query if one is issued (None on error); `issued` is that query. */
    method FetchCategoriesAndAds(catSlug: Option<string>, subSlug: Option<string>,
                                 fetchedCategories: Option<seq<Category>>, fetchedAds: Option<seq<Listing>>)
      returns (issued: Option<Query>)
      modifies this
      ensures !loading
      ensures fetchedCategories.None? ==>
        && issued.None? && categories == old(categories)
        && current == old(current) && subcategories == old(subcategories) && ads == old(ads)
      ensures fetchedCategories.Some? ==>
        && categories == fetchedCategories.value
        && current == FindBySlug(fetchedCategories.value, catSlug)
      ensures fetchedCategories.Some? && current.None? ==>
        && issued.None?
        && subcategories == old(subcategories) && ads == old(ads)
      ensures fetchedCategories.Some? && current.Some? ==>
        && subcategories == ChildrenOf(categories, current.value.id)
        && issued == Some(CategoryAdsQuery(TargetCategoryId(current.value, subcategories, subSlug)))
        && ads == (if fetchedAds.Some? then fetchedAds.value else old(ads))
    {
      loading := true;
      issued := None;
      if fetchedCategories.None? {
        loading := false;
        return;
      }
      categories := fetchedCategories.value;
      current := FindBySlug(categories, catSlug);
      if current.Some? {
        subcategories := ChildrenOf(categories, current.value.id);
        var target := TargetCategoryId(current.value, subcategories, subSlug);
        issued := Some(CategoryAdsQuery(target));
        if fetchedAds.Some? {
          ads := fetchedAds.value;
        }
      }
      loading := false;
    }
  }
}
