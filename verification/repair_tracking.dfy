/** The customer's repair-tracking page: the status timeline, the rating
    prompt and the rating submission, which completes the repair and the
    item and credits the repairer with eco points. The reload that follows
    a submission is not modelled; the clock reading and the notification
    id are parameters. */
module RepairTracking {
  import opened Basics
  import opened Text
  import opened Lists
  import opened Records
  import opened Database
  import opened Progress
  import opened Notifications

  datatype StatusInfo = StatusInfo(title: string, color: string, description: string)

  const DiagnosticInfo: StatusInfo :=
    StatusInfo("Diagnostic", "bg-blue-100 text-blue-700", "Analyse du problème en cours")

  /** `getStatusInfo`: the five known statuses have their own entry; any
      other string falls back to the diagnostic entry. */
  function StatusInfoOf(status: string): (r: StatusInfo)
    ensures status !in StatusSteps ==> r == DiagnosticInfo
    ensures status == "diagnostic" ==> r == DiagnosticInfo
    ensures status in StatusSteps && status != "diagnostic" ==> r != DiagnosticInfo
  {
    if status == "in_repair" then
      StatusInfo("En Réparation", "bg-amber-100 text-amber-700", "Réparation en cours")
    else if status == "quality_check" then
      StatusInfo("Contrôle Qualité", "bg-purple-100 text-purple-700", "Vérification de la qualité")
    else if status == "ready_delivery" then
      StatusInfo("Prêt pour Livraison", "bg-emerald-100 text-emerald-700", "Réparation terminée, prêt à être récupéré")
    else if status == "completed" then
      StatusInfo("Terminé", "bg-green-100 text-green-700", "Réparation terminée avec succès")
    else DiagnosticInfo
  }

  /** `statusSteps`, in the order the timeline draws them. */
  const StatusSteps: seq<string> := ["diagnostic", "in_repair", "quality_check", "ready_delivery", "completed"]

  /** The steps are the five repair statuses, in lifecycle order. */
  lemma StatusStepsAreTheStatuses()
    ensures StatusSteps == [RepairStatusName(Diagnostic), RepairStatusName(InRepair),
      RepairStatusName(QualityCheck), RepairStatusName(ReadyDelivery), RepairStatusName(Done)]
  {
  }

  /** The position of a status in the step list. */
  function StatusOrdinal(s: RepairStatus): nat {
    match s
    case Diagnostic => 0
    case InRepair => 1
    case QualityCheck => 2
    case ReadyDelivery => 3
    case Done => 4
  }

  /** `statusSteps.indexOf(status)`. */
  function CurrentStepIndex(status: string): (r: int)
    ensures -1 <= r < |StatusSteps|
    ensures r == -1 <==> status !in StatusSteps
  {
    IndexOf(StatusSteps, status)
  }

  /** The timeline's step states for the repair's status: a step is done
      before the status's position in the step list, current at it and
      pending after it; an unknown status leaves every step pending. */
  function StepStates(status: string): (r: seq<StepState>)
    ensures |r| == |StatusSteps|
    ensures forall i :: 0 <= i < |r| ==>
      && (r[i] == StepDone <==> i < CurrentStepIndex(status))
      && (r[i] == StepCurrent <==> i == CurrentStepIndex(status))
      && (r[i] == StepPending <==> i > CurrentStepIndex(status))
    ensures status !in StatusSteps ==> forall i :: 0 <= i < |r| ==> r[i] == StepPending
  {
    Timeline(|StatusSteps|, CurrentStepIndex(status))
  }

  /** For a known status the timeline marks the status's own step current,
      the steps before it done and the steps after it pending. */
  lemma KnownStatusTimeline(s: RepairStatus)
    ensures CurrentStepIndex(RepairStatusName(s)) == StatusOrdinal(s)
    ensures StepStates(RepairStatusName(s)) ==
      Repeat(StepDone, StatusOrdinal(s)) + [StepCurrent] + Repeat(StepPending, 4 - StatusOrdinal(s))
  {
    var name := RepairStatusName(s);
    var k := StatusOrdinal(s);
    assert StatusSteps[k] == name;
    assert forall j :: 0 <= j < k ==> StatusSteps[j] != name;
    TimelineShape(|StatusSteps|, k);
  }

  /** A status missing from the step list leaves every step pending and
      shows the diagnostic entry. */
  lemma UnknownStatusTimeline(status: string)
    requires status !in StatusSteps
    ensures StepStates(status) == Repeat(StepPending, 5)
    ensures StatusInfoOf(status) == DiagnosticInfo
  {
    TimelineOutOfRange(5);
  }

  // ---------------------------------------------------------------- rating

  /** The rate prompt shows when the repair is ready for delivery and
      carries no rating (a missing rating or 0, both falsy). */
  predicate RatePromptVisible(r: Repair)
    ensures RatePromptVisible(r) <==>
      RepairStatusName(r.status) == "ready_delivery" && (r.rating.None? || r.rating.value == 0)
  {
    r.status == ReadyDelivery && (r.rating.None? || r.rating == Some(0))
  }

  /** The five stars, the first `rating` of them filled. */
  function Stars(rating: int): (r: seq<bool>)
    ensures |r| == 5
    ensures forall i :: 0 <= i < 5 ==> (r[i] <==> i + 1 <= rating)
  {
    seq(5, i requires 0 <= i < 5 => i + 1 <= rating)
  }

  /** `Math.floor(rating * 10)` for a whole-star rating. */
  function PointsForRating(rating: int): (p: int)
    ensures 1 <= rating <= 5 ==> 10 <= p <= 50 && p % 10 == 0
    ensures p == rating * 10
  {
    rating * 10
  }

  /** The reason recorded with the repairer's points: it names the
      rating, out of five. */
  function RatingReason(rating: nat): (r: string)
    ensures Contains(r, Decimal(rating) + "/5")
    ensures StartsWith(r, "Réparation terminée avec note ")
  {
    var lead := "Réparation terminée avec note ";
    ContainsPart(lead, Decimal(rating) + "/5", "");
    assert lead + (Decimal(rating) + "/5") + "" == lead + Decimal(rating) + "/5";
    assert (lead + Decimal(rating) + "/5")[..|lead|] == lead;
    lead + Decimal(rating) + "/5"
  }

  /** `review.trim() || null`. */
  function ReviewText(review: string): (r: Option<string>)
    ensures r.None? <==> IsBlank(review)
    ensures r.Some? ==> (r.value == Trim(review) && r.value != []
      && !IsSpace(r.value[0]) && !IsSpace(r.value[|r.value| - 1]))
  {
    TrimEmptyIffBlank(review);
    var t := Trim(review);
    if t == [] then None else Some(t)
  }

  /** The repair row after a rating is submitted: rated, reviewed,
      completed at the given time; nothing else about the repair changes. */
  function Rated(r: Repair, rating: int, review: string, now: string): (s: Repair)
    ensures s.status == Done && s.rating == Some(rating) && s.completed_at == Some(now)
    ensures s.review == ReviewText(review)
    ensures s.id == r.id && s.item_id == r.item_id && s.quote_id == r.quote_id
    ensures s.repairer_id == r.repairer_id && s.started_at == r.started_at
    ensures s.tracking_updates == r.tracking_updates && s.completion_photos == r.completion_photos
  {
    r.(rating := Some(rating), review := ReviewText(review), completed_at := Some(now), status := Done)
  }

  /** The tracking page's state. */
  class RepairTrackingView {
    const repairId: string
    var repair: Option<Repair>
    var showRatingModal: bool
    var rating: nat
    var review: string

    predicate Valid()
      reads this
    {
      rating <= 5
    }

    constructor (repairId: string, loaded: Option<Repair>)
      ensures Valid()
      ensures this.repairId == repairId && repair == loaded
      ensures !showRatingModal && rating == 0 && review == ""
    {
      this.repairId := repairId;
      repair := loaded;
      showRatingModal := false;
      rating := 0;
      review := "";
    }

    /** Clicking a star sets the rating to that star. */
    method ChooseStar(star: nat)
      requires 1 <= star <= 5
      modifies this
      ensures Valid() && rating == star
      ensures repair == old(repair) && review == old(review) && showRatingModal == old(showRatingModal)
    {
      rating := star;
    }

    /** `handleRatingSubmit`. Nothing happens without a loaded repair or
        with no star chosen. Otherwise the repair row named by the page's
        id is rated and completed, the repair's item is completed, the
        repairer is credited `PointsForRating(rating)` eco points, the
        modal closes and a success notice is queued. */
    method HandleRatingSubmit(db: Db, notices: NotificationCenter, now: string, noticeId: string)
      requires Valid()
      modifies this, db, notices
      ensures Valid()
      ensures repair == old(repair) && rating == old(rating) && review == old(review)
      ensures old(repair).None? || old(rating) == 0 ==>
        unchanged(db) && unchanged(notices) && showRatingModal == old(showRatingModal)
      ensures old(repair).Some? && old(rating) != 0 ==>
        && db.repairs == UpdateRow(old(db.repairs), repairId, (r: Repair) => Rated(r, old(rating), old(review), now))
        && db.items == SetItemStatus(old(db.items), old(repair).value.item_id, Completed)
        && db.ecoTransactions == old(db.ecoTransactions) + [EcoTransaction(
             old(repair).value.repairer_id, PointsForRating(old(rating)), RatingReason(old(rating)), Some(repairId))]
        && db.quotes == old(db.quotes) && db.profiles == old(db.profiles)
        && db.repairerProfiles == old(db.repairerProfiles)
        && !showRatingModal
        && notices.notifications == old(notices.notifications) + [Notification(
             noticeId, SuccessType, "Évaluation soumise", "Merci d'avoir évalué cette réparation !", None)]
    {
      if repair.None? || rating == 0 {
        return;
      }
      var current := repair.value;
      var stars := rating;
      var text := review;
      db.repairs := UpdateRow(db.repairs, repairId, (r: Repair) => Rated(r, stars, text, now));
      db.items := SetItemStatus(db.items, current.item_id, Completed);
      db.ecoTransactions := db.ecoTransactions + [EcoTransaction(
        current.repairer_id, PointsForRating(stars), RatingReason(stars), Some(repairId))];
      showRatingModal := false;
      notices.Success("Évaluation soumise", "Merci d'avoir évalué cette réparation !", None, noticeId);
    }
  }

  /** A submitted rating of one to five stars credits ten to fifty points
      and leaves the rated repair completed. */
  lemma SubmittedRatingEffects(r: Repair, rating: int, review: string, now: string)
    requires 1 <= rating <= 5
    ensures Rated(r, rating, review, now).status == Done
    ensures 10 <= PointsForRating(rating) <= 50
    ensures !RatePromptVisible(Rated(r, rating, review, now))
  {
  }
}
