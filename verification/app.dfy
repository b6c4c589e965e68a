/** The application shell: navigation requests and the choice of the page
    body to render. The auth context's loading flag is an input. */
module App {
  import opened Basics

  /** The page bodies the shell can render. */
  datatype Body =
    | LoadingScreen
    | HomeBody
    | SubmitBody
    | MyRepairsBody
    | ItemDetailBody(itemId: string)
    | DashboardBody
    | MarketplaceBody
    | ProfileBody

  /** The page ids that have a body. */
  const RoutedPages: seq<string> :=
    ["home", "submit", "my-repairs", "item-detail", "repairer-dashboard", "marketplace", "profile"]

  /** One `currentPage === id && <Page/>` line of the shell. */
  function When(cond: bool, b: Body): seq<Body> {
    if cond then [b] else []
  }

  /** The bodies the shell renders: the loading screen alone while auth
      loads; otherwise each page whose id is current, the detail page
      only with a selected item. */
  function Rendered(loading: bool, currentPage: string, selectedItemId: Option<string>): (r: seq<Body>)
    ensures loading ==> r == [LoadingScreen]
    ensures |r| <= 1
    ensures !loading && currentPage !in RoutedPages ==> r == []
    ensures !loading && currentPage == "item-detail" ==>
      (r != [] <==> selectedItemId.Some? && selectedItemId.value != "")
    ensures !loading && currentPage in RoutedPages && currentPage != "item-detail" ==> |r| == 1
    ensures !loading && currentPage == "home" ==> r == [HomeBody]
    ensures !loading && currentPage == "submit" ==> r == [SubmitBody]
    ensures !loading && currentPage == "my-repairs" ==> r == [MyRepairsBody]
    ensures !loading && currentPage == "item-detail" && selectedItemId.Some? && selectedItemId.value != "" ==>
      r == [ItemDetailBody(selectedItemId.value)]
    ensures !loading && currentPage == "repairer-dashboard" ==> r == [DashboardBody]
    ensures !loading && currentPage == "marketplace" ==> r == [MarketplaceBody]
    ensures !loading && currentPage == "profile" ==> r == [ProfileBody]
  {
    if loading then [LoadingScreen]
    else
      When(currentPage == "home", HomeBody)
      + When(currentPage == "submit", SubmitBody)
      + When(currentPage == "my-repairs", MyRepairsBody)
      + When(currentPage == "item-detail" && selectedItemId.Some? && selectedItemId.value != "",
             ItemDetailBody(selectedItemId.GetOr("")))
      + When(currentPage == "repairer-dashboard", DashboardBody)
      + When(currentPage == "marketplace", MarketplaceBody)
      + When(currentPage == "profile", ProfileBody)
  }

  /** The detail page shows the selected item. */
  lemma ItemDetailShowsSelection(id: string)
    requires id != ""
    ensures Rendered(false, "item-detail", Some(id)) == [ItemDetailBody(id)]
  {
  }

  /** The page the Track button asks for has no branch in the shell, so
      nothing renders below the navigation bar. */
  lemma RepairTrackingRendersNothing(selectedItemId: Option<string>)
    ensures Rendered(false, "repair-tracking", selectedItemId) == []
  {
    assert "repair-tracking" !in RoutedPages;
  }

  class AppState {
    var currentPage: string
    var selectedItemId: Option<string>
    var authModalOpen: bool

    /** A selected item id is never empty. */
    predicate Valid()
      reads this
    {
      selectedItemId.Some? ==> selectedItemId.value != ""
    }

    constructor ()
      ensures Valid() && currentPage == "home" && selectedItemId.None? && !authModalOpen
    {
      currentPage := "home";
      selectedItemId := None;
      authModalOpen := false;
    }

    /** `handleNavigate`: the page always changes; the selected item only
        when a non-empty id comes with the request. */
    method HandleNavigate(page: string, itemId: Option<string>)
      requires Valid()
      modifies this
      ensures Valid() && currentPage == page && authModalOpen == old(authModalOpen)
      ensures itemId.Some? && itemId.value != "" ==> selectedItemId == itemId
      ensures itemId.None? || itemId.value == "" ==> selectedItemId == old(selectedItemId)
    {
      currentPage := page;
      if itemId.Some? && itemId.value != "" {
        selectedItemId := itemId;
      }
    }

    method OpenAuthModal()
      modifies this
      ensures authModalOpen && currentPage == old(currentPage) && selectedItemId == old(selectedItemId)
    {
      authModalOpen := true;
    }

    method CloseAuthModal()
      modifies this
      ensures !authModalOpen && currentPage == old(currentPage) && selectedItemId == old(selectedItemId)
    {
      authModalOpen := false;
    }

    /** What the shell renders in this state. */
    function RenderedBodies(loading: bool): seq<Body>
      reads this
    {
      Rendered(loading, currentPage, selectedItemId)
    }
  }
}
