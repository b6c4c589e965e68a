/** The customer's list of submitted items: the media shown on each card,
    the status filter and colours, the item-to-repair tracking map that
    enables the Track button, and the repair entries created for test
    items. Rows come in the order the database returns them (the ordering
    by creation date is not modelled); the clock and generated ids are
    parameters. */
module MyRepairs {
  import opened Basics
  import opened Lists
  import opened Records
  import opened ItemDetail

  /** `getFirstMedia`: the first image, else the first video, else none. */
  function FirstMedia(item: Item): (r: Option<Media>)
    ensures |Images(item)| > 0 ==> r == Some(Media(Images(item)[0], ImageMedia))
    ensures |Images(item)| == 0 && |Videos(item)| > 0 ==> r == Some(Media(Videos(item)[0], VideoMedia))
    ensures r.None? <==> |Images(item)| == 0 && |Videos(item)| == 0
  {
    var images := Images(item);
    var videos := Videos(item);
    if |images| > 0 then Some(Media(images[0], ImageMedia))
    else if |videos| > 0 then Some(Media(videos[0], VideoMedia))
    else None
  }

  /** The card's first media is the first entry of the detail page's
      merged media list. */
  lemma FirstMediaIsFirstOfAll(item: Item)
    ensures FirstMedia(item) == if |AllMedia(Some(item))| > 0 then Some(AllMedia(Some(item))[0]) else None
  {
    var all := AllMedia(Some(item));
    if |Images(item)| == 0 && |Videos(item)| > 0 {
      assert all[|Images(item)| + 0] == Media(Videos(item)[0], VideoMedia);
    }
  }

  /** `getMediaCount`: images plus videos, a missing list counting 0. */
  function MediaCount(item: Item): (n: nat)
    ensures n == |AllMedia(Some(item))|
    ensures item.images.None? && item.videos.None? ==> n == 0
  {
    |Images(item)| + |Videos(item)|
  }

  // ------------------------------------------------------------ status

  const GrayStatus: string := "bg-gray-100 text-gray-700"

  const ItemStatusNames: seq<string> := ["submitted", "quoted", "in_progress", "completed", "cancelled"]

  /** `getStatusColor`: one colour per live status; cancelled and any
      unknown status share the same gray. */
  function StatusColor(status: string): (r: string)
    ensures status == "cancelled" ==> r == GrayStatus
    ensures status !in ItemStatusNames ==> r == GrayStatus
    ensures status in ["submitted", "quoted", "in_progress", "completed"] ==> r != GrayStatus
  {
    if status == "submitted" then "bg-blue-100 text-blue-700"
    else if status == "quoted" then "bg-purple-100 text-purple-700"
    else if status == "in_progress" then "bg-amber-100 text-amber-700"
    else if status == "completed" then "bg-emerald-100 text-emerald-700"
    else GrayStatus
  }

  /** The names are exactly the item statuses. */
  lemma ItemStatusNamesAreTheStatuses(s: ItemStatus)
    ensures ItemStatusName(s) in ItemStatusNames
  {
  }

  /** The filter buttons' values. */
  const FilterValues: seq<string> := ["all", "submitted", "quoted", "in_progress", "completed"]

  /** The query of `loadItems`: the user's items, restricted to one
      status unless the filter is 'all'. */
  predicate Listed(it: Item, userId: string, filter: string) {
    it.user_id == userId && (filter == "all" || ItemStatusName(it.status) == filter)
  }

  function VisibleItems(rows: seq<Item>, userId: string, filter: string): (r: seq<Item>)
    ensures forall i :: 0 <= i < |r| ==> r[i].user_id == userId
    ensures filter != "all" ==> forall i :: 0 <= i < |r| ==> ItemStatusName(r[i].status) == filter
    ensures forall i :: 0 <= i < |rows| && Listed(rows[i], userId, filter) ==> rows[i] in r
    ensures Subsequence(r, rows)
    ensures forall it :: multiset(r)[it] == if Listed(it, userId, filter) then multiset(rows)[it] else 0
  {
    Filter(rows, (it: Item) => Listed(it, userId, filter))
  }

  /** 'all' imposes no status restriction: every item of the user is
      listed, whatever its status. */
  lemma AllFilterKeepsEveryStatus(rows: seq<Item>, userId: string)
    requires forall i :: 0 <= i < |rows| ==> rows[i].user_id == userId
    ensures VisibleItems(rows, userId, "all") == rows
  {
    FilterKeepsAll(rows, (it: Item) => Listed(it, userId, "all"));
  }

  // ------------------------------------------------------- tracking map

  /** A row of `select('item_id, id')` on the repairs table. */
  datatype RepairRef = RepairRef(item_id: string, id: string)

  /** The map the `forEach` builds: each row in turn writes its id under
      its item id, so later rows overwrite earlier ones. */
  function TrackingMap(rows: seq<RepairRef>): (m: map<string, string>)
    ensures forall x :: x in m <==> exists i :: 0 <= i < |rows| && rows[i].item_id == x
  {
    if rows == [] then map[]
    else
      var last := rows[|rows| - 1];
      var m := TrackingMap(rows[..|rows| - 1])[last.item_id := last.id];
      assert forall i :: 0 <= i < |rows| - 1 ==> rows[..|rows| - 1][i] == rows[i];
      m
  }

  /** Each item id maps to the id of the LAST row for that item. */
  lemma {:induction false} LastRowWins(rows: seq<RepairRef>, k: int)
    requires 0 <= k < |rows|
    requires forall j :: k < j < |rows| ==> rows[j].item_id != rows[k].item_id
    ensures rows[k].item_id in TrackingMap(rows)
    ensures TrackingMap(rows)[rows[k].item_id] == rows[k].id
  {
    if k < |rows| - 1 {
      var init := rows[..|rows| - 1];
      assert forall j :: k < j < |init| ==> init[j] == rows[j];
      LastRowWins(init, k);
    }
  }

  /** `repairTracking[item.id]` is set (a non-empty id) and the item is in
      progress or quoted. */
  predicate ShowTrackButton(tracking: map<string, string>, item: Item)
    ensures ShowTrackButton(tracking, item) <==>
      item.id in tracking && tracking[item.id] != "" && ItemStatusName(item.status) in ["in_progress", "quoted"]
  {
    item.id in tracking && tracking[item.id] != "" && item.status in {InProgress, Quoted}
  }

  /** Submitted, completed and cancelled items never show the button. */
  lemma TrackButtonNeedsActiveItem(tracking: map<string, string>, item: Item)
    requires item.status in {Submitted, Completed, Cancelled}
    ensures !ShowTrackButton(tracking, item)
  {
  }

  /** The navigation the Track button asks for. */
  datatype NavRequest = NavRequest(page: string, itemId: Option<string>, repairId: Option<string>)

  function TrackRequest(tracking: map<string, string>, item: Item): (r: NavRequest)
    requires ShowTrackButton(tracking, item)
    ensures r.page == "repair-tracking" && r.itemId.None? && r.repairId == Some(tracking[item.id])
  {
    NavRequest("repair-tracking", None, Some(tracking[item.id]))
  }

  /** "Voir Détails" asks for the item's detail page. */
  function DetailsRequest(item: Item): (r: NavRequest)
    ensures r.page == "item-detail" && r.itemId == Some(item.id) && r.repairId.None?
  {
    NavRequest("item-detail", Some(item.id), None)
  }

  // ------------------------------------------------------- test entries

  const TestDoneMessage: string := "Réparation terminée"
  const TestWaitingMessage: string := "Objet soumis, en attente de diagnostic"

  /** The repair entry created for an inserted test item: completed for a
      completed item and diagnostic otherwise, with one tracking update of
      the same status, no quote, no repairer, no photos, and a completion
      time only when completed. */
  function TestRepairEntry(item: Item, id: string, now: string): (r: Repair)
    ensures r.item_id == item.id && r.quote_id.None? && r.repairer_id.None?
    ensures r.status == Done <==> item.status == Completed
    ensures r.status == Diagnostic <==> item.status != Completed
    ensures |r.tracking_updates| == 1 && r.tracking_updates[0].status == r.status
    ensures r.tracking_updates[0].repairer_id.None? && r.tracking_updates[0].timestamp == now
    ensures r.tracking_updates[0].message == if r.status == Done then TestDoneMessage else TestWaitingMessage
    ensures r.completion_photos == [] && r.rating.None? && r.started_at == now
    ensures r.completed_at.Some? <==> r.status == Done
  {
    var done := item.status == Completed;
    var status := if done then Done else Diagnostic;
    Repair(id, item.id, None, None, status,
      [TrackingUpdate(now, status, if done then TestDoneMessage else TestWaitingMessage, None)],
      [], None, None, now, if done then Some(now) else None)
  }

  /** One entry per inserted item, in order; `ids` are the ids the
      database assigns. */
  function TestRepairEntries(items: seq<Item>, ids: nat -> string, now: string): (r: seq<Repair>)
    ensures |r| == |items|
    ensures forall i :: 0 <= i < |items| ==> r[i] == TestRepairEntry(items[i], ids(i), now)
  {
    seq(|items|, i requires 0 <= i < |items| => TestRepairEntry(items[i], ids(i), now))
  }

  /** The page's state: the listed items, the status filter and the
      tracking map. */
  class MyRepairsView {
    const userId: string
    var items: seq<Item>
    var filter: string
    var repairTracking: map<string, string>

    constructor (userId: string)
      ensures this.userId == userId && items == [] && filter == "all" && repairTracking == map[]
    {
      this.userId := userId;
      items := [];
      filter := "all";
      repairTracking := map[];
    }

    method SetFilter(value: string)
      modifies this
      ensures filter == value && items == old(items) && repairTracking == old(repairTracking)
    {
      filter := value;
    }

    /** `loadItems` on the rows of the items table. */
    method LoadItems(rows: seq<Item>)
      modifies this
      ensures items == VisibleItems(rows, userId, filter)
      ensures filter == old(filter) && repairTracking == old(repairTracking)
    {
      items := VisibleItems(rows, userId, filter);
    }

    /** `loadRepairTracking`: one pass over the returned rows, each
        writing its id under its item id. */
    method LoadRepairTracking(rows: seq<RepairRef>)
      modifies this
      ensures repairTracking == TrackingMap(rows)
      ensures items == old(items) && filter == old(filter)
    {
      var trackingMap: map<string, string> := map[];
      var i := 0;
      while i < |rows|
        invariant 0 <= i <= |rows|
        invariant trackingMap == TrackingMap(rows[..i])
      {
        assert rows[..i + 1][..i] == rows[..i];
        trackingMap := trackingMap[rows[i].item_id := rows[i].id];
        i := i + 1;
      }
      assert rows[..|rows|] == rows;
      repairTracking := trackingMap;
    }
  }
}
