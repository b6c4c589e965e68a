/** The item detail page: the merged media list with its thumbnail window
    and full-screen carousel, the solution chooser, and quote acceptance.
    The reload that follows each write is not modelled. */
module ItemDetail {
  import opened Basics
  import opened Records
  import opened Database

  datatype MediaType = ImageMedia | VideoMedia

  datatype Media = Media(url: string, kind: MediaType)

  /** `item.images || []` and `item.videos || []`. */
  function Images(item: Item): seq<string> {
    item.images.GetOr([])
  }

  function Videos(item: Item): seq<string> {
    item.videos.GetOr([])
  }

  /** `getAllMedia`: every image, typed image, then every video, typed
      video; no item gives no media. */
  function AllMedia(item: Option<Item>): (r: seq<Media>)
    ensures item.None? ==> r == []
    ensures item.Some? ==> |r| == |Images(item.value)| + |Videos(item.value)|
    ensures item.Some? ==> forall i :: 0 <= i < |Images(item.value)| ==>
      r[i] == Media(Images(item.value)[i], ImageMedia)
    ensures item.Some? ==> forall j :: 0 <= j < |Videos(item.value)| ==>
      r[|Images(item.value)| + j] == Media(Videos(item.value)[j], VideoMedia)
  {
    if item.None? then []
    else
      var images := Images(item.value);
      var videos := Videos(item.value);
      seq(|images|, i requires 0 <= i < |images| => Media(images[i], ImageMedia))
      + seq(|videos|, j requires 0 <= j < |videos| => Media(videos[j], VideoMedia))
  }

  /** An item without image and video lists has no media. */
  lemma MissingListsGiveNoMedia(item: Item)
    requires item.images.None? && item.videos.None?
    ensures AllMedia(Some(item)) == []
  {
  }

  /** `getAllMedia().slice(1, 5)`: the media after the main one, at most
      four of them; thumbnail `k` opens media `k + 1`. */
  function Thumbnails(media: seq<Media>): (r: seq<Media>)
    ensures |r| <= 4
    ensures |media| <= 1 ==> r == []
    ensures |media| > 1 ==> |r| == (if |media| < 5 then |media| else 5) - 1
    ensures forall k :: 0 <= k < |r| ==> r[k] == media[k + 1]
  {
    if |media| <= 1 then [] else media[1..if |media| < 5 then |media| else 5]
  }

  /** The "+n" badge after the thumbnails: present only beyond five media. */
  function OverflowBadge(media: seq<Media>): (r: Option<nat>)
    ensures r.Some? <==> |media| > 5
    ensures r.Some? ==> r.value >= 1
  {
    if |media| > 5 then Some(|media| - 5) else None
  }

  /** The main media, the thumbnails and the badge's count account for
      every media exactly once. */
  lemma GalleryAccountsForAll(media: seq<Media>)
    requires |media| >= 1
    ensures 1 + |Thumbnails(media)| + OverflowBadge(media).GetOr(0) == |media|
  {
  }

  /** The chooser shows while the item has no solution type; the quotes
      show once it has one: exactly one of the two. */
  predicate SolutionChooserVisible(item: Item) {
    item.solution_type.None?
  }

  predicate QuotesVisible(item: Item) {
    item.solution_type.Some?
  }

  lemma ChooserOrQuotes(item: Item)
    ensures SolutionChooserVisible(item) != QuotesVisible(item)
  {
  }

  /** The accept button is offered for pending quotes only; accepted ones
      carry a badge instead. */
  predicate AcceptButtonVisible(q: Quote)
    ensures AcceptButtonVisible(q) ==> !AcceptedBadgeVisible(q)
    ensures q.status == Rejected ==> !AcceptButtonVisible(q) && !AcceptedBadgeVisible(q)
  {
    q.status == Pending
  }

  predicate AcceptedBadgeVisible(q: Quote) {
    q.status == Accepted
  }

  /** The cost estimate shows the range only when both bounds are present
      and non-zero (zero is falsy). */
  function CostRangeShown(item: Item): (r: bool)
    ensures r <==> (item.estimated_cost_min.Some? && item.estimated_cost_min.value != 0.0
      && item.estimated_cost_max.Some? && item.estimated_cost_max.value != 0.0)
  {
    match (item.estimated_cost_min, item.estimated_cost_max)
    case (Some(lo), Some(hi)) => lo != 0.0 && hi != 0.0
    case _ => false
  }

  /** A zero minimum, which the AI normalisation produces for a negative
      raw minimum, hides the range. */
  lemma ZeroMinimumHidesRange(item: Item)
    requires item.estimated_cost_min == Some(0.0)
    ensures !CostRangeShown(item)
  {
  }

  /** Accepting a quote: that quote is accepted, nothing else about it or
      any other quote changes. */
  function Accept(q: Quote): (r: Quote)
    ensures r.status == Accepted && !AcceptButtonVisible(r) && AcceptedBadgeVisible(r)
    ensures r.id == q.id && r.item_id == q.item_id && r.repairer_id == q.repairer_id
    ensures r.price == q.price && r.message == q.message
    ensures r.estimated_duration == q.estimated_duration && r.created_at == q.created_at
  {
    q.(status := Accepted)
  }

  /** Choosing a solution sets the solution type and nothing else. */
  function WithSolution(it: Item, s: SolutionType): (r: Item)
    ensures r.solution_type == Some(s) && QuotesVisible(r) && !SolutionChooserVisible(r)
    ensures r.status == it.status && r.id == it.id && r.images == it.images && r.videos == it.videos
    ensures r.user_id == it.user_id && r.name == it.name && r.category == it.category && r.brand == it.brand
    ensures r.problem_description == it.problem_description && r.ai_diagnosis == it.ai_diagnosis
    ensures r.estimated_cost_min == it.estimated_cost_min && r.estimated_cost_max == it.estimated_cost_max
    ensures r.created_at == it.created_at && r.updated_at == it.updated_at
  {
    it.(solution_type := Some(s))
  }

  class ItemDetailView {
    const itemId: string
    var item: Option<Item>
    var quotes: seq<Quote>
    var selectedMediaIndex: int
    var showMediaModal: bool
    var showSolutionChoice: bool

    constructor (itemId: string, loaded: Option<Item>, loadedQuotes: seq<Quote>)
      ensures this.itemId == itemId && item == loaded && quotes == loadedQuotes
      ensures selectedMediaIndex == 0 && !showMediaModal && !showSolutionChoice
    {
      this.itemId := itemId;
      item := loaded;
      quotes := loadedQuotes;
      selectedMediaIndex := 0;
      showMediaModal := false;
      showSolutionChoice := false;
    }

    function MediaList(): seq<Media>
      reads this
    {
      AllMedia(item)
    }

    /** The carousel index points at a media. */
    predicate IndexInRange()
      reads this
    {
      0 <= selectedMediaIndex < |MediaList()|
    }

    /** The full-screen viewer renders only when opened and there is
        something to show. */
    predicate ModalShown()
      reads this
    {
      showMediaModal && |MediaList()| > 0
    }

    /** `openMediaModal(index)`. */
    method OpenMediaModal(index: int)
      modifies this
      ensures selectedMediaIndex == index && showMediaModal
      ensures item == old(item) && quotes == old(quotes) && showSolutionChoice == old(showSolutionChoice)
    {
      selectedMediaIndex := index;
      showMediaModal := true;
    }

    /** A position dot or a thumbnail: one is drawn per media, and
        clicking it shows that media. */
    method SelectMedia(index: int)
      requires 0 <= index < |MediaList()|
      modifies this
      ensures selectedMediaIndex == index && IndexInRange()
      ensures item == old(item) && quotes == old(quotes) && showMediaModal == old(showMediaModal)
      ensures showSolutionChoice == old(showSolutionChoice)
    {
      selectedMediaIndex := index;
    }

    method CloseMediaModal()
      modifies this
      ensures !showMediaModal && !ModalShown()
      ensures selectedMediaIndex == old(selectedMediaIndex) && item == old(item) && quotes == old(quotes)
      ensures showSolutionChoice == old(showSolutionChoice)
    {
      showMediaModal := false;
    }

    /** The previous arrow: one step back, never below the first media. */
    method Prev()
      modifies this
      ensures old(selectedMediaIndex) > 0 ==> selectedMediaIndex == old(selectedMediaIndex) - 1
      ensures old(selectedMediaIndex) <= 0 ==> selectedMediaIndex == 0
      ensures old(IndexInRange()) ==> IndexInRange()
      ensures item == old(item) && quotes == old(quotes) && showMediaModal == old(showMediaModal)
      ensures showSolutionChoice == old(showSolutionChoice)
    {
      selectedMediaIndex := if selectedMediaIndex - 1 > 0 then selectedMediaIndex - 1 else 0;
    }

    /** The next arrow: one step forward, never past the last media. */
    method Next()
      modifies this
      ensures old(selectedMediaIndex) < |MediaList()| - 1 ==> selectedMediaIndex == old(selectedMediaIndex) + 1
      ensures old(selectedMediaIndex) >= |MediaList()| - 1 ==> selectedMediaIndex == |MediaList()| - 1
      ensures old(IndexInRange()) ==> IndexInRange()
      ensures item == old(item) && quotes == old(quotes) && showMediaModal == old(showMediaModal)
      ensures showSolutionChoice == old(showSolutionChoice)
    {
      var last := |MediaList()| - 1;
      selectedMediaIndex := if selectedMediaIndex + 1 < last then selectedMediaIndex + 1 else last;
    }

    /** `acceptQuote`: the quote row is accepted and the page's item row
        moves to in_progress; both writes happen whatever the first one
        returns, and no other row changes. */
    method AcceptQuote(db: Db, quoteId: string)
      modifies db
      ensures db.quotes == UpdateRow(old(db.quotes), quoteId, Accept)
      ensures db.items == SetItemStatus(old(db.items), itemId, InProgress)
      ensures quoteId in db.quotes ==> db.quotes[quoteId].status == Accepted
      ensures forall k :: k in old(db.quotes) && k != quoteId ==> k in db.quotes && db.quotes[k] == old(db.quotes)[k]
      ensures itemId in db.items ==> db.items[itemId].status == InProgress
      ensures db.repairs == old(db.repairs) && db.profiles == old(db.profiles)
      ensures db.ecoTransactions == old(db.ecoTransactions) && db.repairerProfiles == old(db.repairerProfiles)
    {
      db.quotes := UpdateRow(db.quotes, quoteId, Accept);
      db.items := SetItemStatus(db.items, itemId, InProgress);
    }

    /** `selectSolution`: the item row's solution type is set, which hides
        the chooser and shows the quotes; the choice flag is cleared. */
    method SelectSolution(db: Db, s: SolutionType)
      modifies this, db
      ensures db.items == UpdateRow(old(db.items), itemId, (it: Item) => WithSolution(it, s))
      ensures itemId in db.items ==>
        (db.items[itemId].solution_type == Some(s) && db.items[itemId].status == old(db.items)[itemId].status)
      ensures db.quotes == old(db.quotes) && db.repairs == old(db.repairs)
      ensures db.profiles == old(db.profiles) && db.ecoTransactions == old(db.ecoTransactions)
      ensures db.repairerProfiles == old(db.repairerProfiles)
      ensures !showSolutionChoice
      ensures item == old(item) && quotes == old(quotes) && selectedMediaIndex == old(selectedMediaIndex)
      ensures showMediaModal == old(showMediaModal)
    {
      db.items := UpdateRow(db.items, itemId, (it: Item) => WithSolution(it, s));
      showSolutionChoice := false;
    }
  }
}
