/** The marketplace listing: the query that loads unsold items of the
    chosen category, the case-insensitive search over title and
    description, the condition colours and the role-gated "List Item"
    button. Lower-casing covers ASCII letters only. */
module Marketplace {
  import opened Basics
  import opened Text
  import opened Lists
  import opened Records

  /** The category buttons' values. */
  const CategoryFilters: seq<string> := ["all", "parts", "refurbished", "tools"]

  /** The load query: unsold items, of the chosen category unless the
      filter is 'all'. */
  predicate Loaded(x: MarketplaceItem, categoryFilter: string) {
    !x.sold && (categoryFilter == "all" || MarketCategoryName(x.category) == categoryFilter)
  }

  function LoadedItems(rows: seq<MarketplaceItem>, categoryFilter: string): (r: seq<MarketplaceItem>)
    ensures forall i :: 0 <= i < |r| ==> !r[i].sold
    ensures categoryFilter != "all" ==> forall i :: 0 <= i < |r| ==> MarketCategoryName(r[i].category) == categoryFilter
    ensures forall i :: 0 <= i < |rows| && Loaded(rows[i], categoryFilter) ==> rows[i] in r
    ensures Subsequence(r, rows)
    ensures forall x :: multiset(r)[x] == if Loaded(x, categoryFilter) then multiset(rows)[x] else 0
  {
    Filter(rows, (x: MarketplaceItem) => Loaded(x, categoryFilter))
  }

  /** 'all' keeps every unsold item, whatever its category. */
  lemma AllCategoriesKeepUnsold(rows: seq<MarketplaceItem>)
    requires forall i :: 0 <= i < |rows| ==> !rows[i].sold
    ensures LoadedItems(rows, "all") == rows
  {
    FilterKeepsAll(rows, (x: MarketplaceItem) => Loaded(x, "all"));
  }

  /** The search predicate: the lower-cased query occurs in the
      lower-cased title or description. */
  predicate Matches(x: MarketplaceItem, query: string) {
    Contains(Lower(x.title), Lower(query)) || Contains(Lower(x.description), Lower(query))
  }

  /** `filteredItems`: exactly the matching items, in their order. */
  function FilteredItems(items: seq<MarketplaceItem>, query: string): (r: seq<MarketplaceItem>)
    ensures forall i :: 0 <= i < |r| ==> Matches(r[i], query)
    ensures forall i :: 0 <= i < |items| && Matches(items[i], query) ==> items[i] in r
    ensures Subsequence(r, items)
    ensures forall x :: multiset(r)[x] == if Matches(x, query) then multiset(items)[x] else 0
  {
    Filter(items, (x: MarketplaceItem) => Matches(x, query))
  }

  /** An empty query keeps every item. */
  lemma EmptyQueryKeepsAll(items: seq<MarketplaceItem>)
    ensures FilteredItems(items, "") == items
  {
    forall i | 0 <= i < |items| ensures Matches(items[i], "") {
      assert Lower("") == "";
      ContainsEmpty(Lower(items[i].title));
    }
    FilterKeepsAll(items, (x: MarketplaceItem) => Matches(x, ""));
  }

  /** The search ignores the case of the query. */
  lemma SearchIgnoresQueryCase(x: MarketplaceItem, query: string)
    ensures Matches(x, query) <==> Matches(x, Lower(query))
  {
    LowerIdempotent(query);
  }

  /** Searching for an item's own title, in any case, finds it. */
  lemma TitleFindsItem(x: MarketplaceItem)
    ensures Matches(x, x.title)
    ensures Matches(x, Lower(x.title))
  {
    var t := Lower(x.title);
    assert OccursAt(t, t, 0);
    LowerIdempotent(x.title);
  }

  const GrayCondition: string := "bg-gray-100 text-gray-700"

  /** `getConditionColor`: fair and any unknown condition share the same
      gray. */
  function ConditionColor(condition: string): (r: string)
    ensures condition == "fair" ==> r == GrayCondition
    ensures condition !in ["new", "like_new", "good", "fair"] ==> r == GrayCondition
    ensures condition in ["new", "like_new", "good"] ==> r != GrayCondition
  {
    if condition == "new" then "bg-emerald-100 text-emerald-700"
    else if condition == "like_new" then "bg-blue-100 text-blue-700"
    else if condition == "good" then "bg-amber-100 text-amber-700"
    else GrayCondition
  }

  /** The "List Item" button: repairers and refurbishers only. */
  predicate ShowListItemButton(profile: Option<Profile>) {
    IsRepairerOrRefurbisher(profile)
  }

  lemma ListItemButtonRoles(profile: Option<Profile>)
    ensures ShowListItemButton(profile) <==>
      (profile.Some? && RoleName(profile.value.role) in ["repairer", "refurbisher"])
  {
  }
}
