/** The repairer's management of active repairs: the active-repair list,
    status updates that append to a repair's tracking log, and progress
    photos uploaded to storage and appended to the repair. The list reload
    after each write and the `uploading` flag are not modelled; the clock,
    the file-name seeds, the bucket's base URL and the success of the
    storage transfer are parameters. */
module RepairManagement {
  import opened Basics
  import opened Text
  import opened Lists
  import opened Records
  import opened Database
  import opened Storage

  /** `getStatusInfo` of this page: label and colour. */
  datatype StatusBadge = StatusBadge(title: string, color: string)

  const DiagnosticBadge: StatusBadge := StatusBadge("Diagnostic", "bg-blue-100 text-blue-700")

  /** Four entries; any other status, `completed` included, shows the
      diagnostic badge. */
  function StatusBadgeOf(status: string): (r: StatusBadge)
    ensures status !in ActiveStatusNames ==> r == DiagnosticBadge
    ensures status in ActiveStatusNames && status != "diagnostic" ==> r != DiagnosticBadge
  {
    if status == "in_repair" then StatusBadge("En Réparation", "bg-amber-100 text-amber-700")
    else if status == "quality_check" then StatusBadge("Contrôle Qualité", "bg-purple-100 text-purple-700")
    else if status == "ready_delivery" then StatusBadge("Prêt pour Livraison", "bg-emerald-100 text-emerald-700")
    else DiagnosticBadge
  }

  /** The statuses of an active repair, which are also the options of the
      status selector. */
  const ActiveStatusNames: seq<string> := ["diagnostic", "in_repair", "quality_check", "ready_delivery"]

  /** The active statuses are every status but `completed`. */
  lemma ActiveStatusNamesAreNotDone(s: RepairStatus)
    ensures RepairStatusName(s) in ActiveStatusNames <==> s != Done
  {
  }

  /** The query of `loadActiveRepairs`: this repairer's repairs whose
      status is one of the four active ones. */
  predicate IsActiveRepair(r: Repair, repairerId: string) {
    r.repairer_id == Some(repairerId) && RepairStatusName(r.status) in ActiveStatusNames
  }

  function ActiveRepairs(rows: seq<Repair>, repairerId: string): (r: seq<Repair>)
    ensures forall i :: 0 <= i < |r| ==> r[i].repairer_id == Some(repairerId) && r[i].status != Done
    ensures forall i :: 0 <= i < |rows| && IsActiveRepair(rows[i], repairerId) ==> rows[i] in r
    ensures Subsequence(r, rows)
    ensures forall x :: multiset(r)[x] == if IsActiveRepair(x, repairerId) then multiset(rows)[x] else 0
  {
    Filter(rows, (x: Repair) => IsActiveRepair(x, repairerId))
  }

  /** The card's "recent photos": the last three. */
  function RecentPhotos(r: Repair): (p: seq<string>)
    ensures |p| == if |r.completion_photos| < 3 then |r.completion_photos| else 3
    ensures r.completion_photos == r.completion_photos[..|r.completion_photos| - |p|] + p
  {
    LastN(r.completion_photos, 3)
  }

  /** The repair row after a status update written from the selected copy
      `sel`: the chosen status, and the selected copy's log with the new
      entry at its end. */
  function WithStatusUpdate(r: Repair, sel: Repair, entry: TrackingUpdate): (s: Repair)
    ensures s.status == entry.status
    ensures s.tracking_updates == sel.tracking_updates + [entry]
    ensures |s.tracking_updates| == |sel.tracking_updates| + 1
    ensures s.id == r.id && s.item_id == r.item_id && s.completion_photos == r.completion_photos
    ensures s.rating == r.rating && s.review == r.review && s.completed_at == r.completed_at
    ensures s.quote_id == r.quote_id && s.repairer_id == r.repairer_id && s.started_at == r.started_at
  {
    r.(status := entry.status, tracking_updates := sel.tracking_updates + [entry])
  }

  /** The repair row after photos are added from the selected copy `sel`. */
  function WithPhotos(r: Repair, sel: Repair, urls: seq<string>): (s: Repair)
    ensures s.completion_photos == sel.completion_photos + urls
    ensures s.completion_photos[..|sel.completion_photos|] == sel.completion_photos
    ensures s.status == r.status && s.tracking_updates == r.tracking_updates
    ensures s.id == r.id && s.item_id == r.item_id && s.quote_id == r.quote_id && s.repairer_id == r.repairer_id
    ensures s.rating == r.rating && s.review == r.review && s.started_at == r.started_at && s.completed_at == r.completed_at
  {
    r.(completion_photos := sel.completion_photos + urls)
  }

  /** The clock reading and random suffix a file name is generated from. */
  datatype Seed = Seed(timestamp: nat, random: string)

  /** The batch handed to `uploadMultipleFiles`. */
  function Batch(photos: seq<File>, seeds: nat -> Seed): (b: seq<Upload>)
    ensures |b| == |photos|
    ensures forall i :: 0 <= i < |photos| ==> b[i].file == photos[i]
  {
    seq(|photos|, i requires 0 <= i < |photos| => Upload(photos[i], seeds(i).timestamp, seeds(i).random))
  }

  /** The folder a repair's photos are stored under. */
  function PhotoFolder(r: Repair): string {
    "repair-" + r.id
  }

  /** The public URL of every stored path, in order. */
  function PublicUrls(bucketUrl: string, paths: seq<string>): (urls: seq<string>)
    ensures |urls| == |paths|
    ensures forall i :: 0 <= i < |paths| ==> urls[i] == PublicUrl(bucketUrl, paths[i])
  {
    seq(|paths|, i requires 0 <= i < |paths| => PublicUrl(bucketUrl, paths[i]))
  }

  class RepairManagement {
    const repairerId: string
    var selectedRepair: Option<Repair>
    var showUpdateModal: bool
    var showPhotoModal: bool
    var updateMessage: string
    var newStatus: Option<RepairStatus>
    var photos: seq<File>

    /** The selector offers the four active statuses and the empty choice. */
    predicate Valid()
      reads this
    {
      newStatus != Some(Done)
    }

    constructor (repairerId: string)
      ensures Valid() && this.repairerId == repairerId
      ensures selectedRepair.None? && !showUpdateModal && !showPhotoModal
      ensures updateMessage == "" && newStatus.None? && photos == []
    {
      this.repairerId := repairerId;
      selectedRepair := None;
      showUpdateModal := false;
      showPhotoModal := false;
      updateMessage := "";
      newStatus := None;
      photos := [];
    }

    /** "Mettre à jour" on a card: that repair is selected and the update
        form opens. */
    method OpenUpdate(r: Repair)
      modifies this
      ensures selectedRepair == Some(r) && showUpdateModal
      ensures showPhotoModal == old(showPhotoModal) && updateMessage == old(updateMessage)
      ensures newStatus == old(newStatus) && photos == old(photos)
    {
      selectedRepair := Some(r);
      showUpdateModal := true;
    }

    /** "Ajouter photos" on a card: that repair is selected and the photo
        form opens. */
    method OpenPhotos(r: Repair)
      modifies this
      ensures selectedRepair == Some(r) && showPhotoModal
      ensures showUpdateModal == old(showUpdateModal) && updateMessage == old(updateMessage)
      ensures newStatus == old(newStatus) && photos == old(photos)
    {
      selectedRepair := Some(r);
      showPhotoModal := true;
    }

    /** The status select: any of the four active statuses may be chosen,
        whatever the selected repair's current status, and the placeholder
        option (`None`) clears the choice, which disables the update. */
    method ChooseStatus(s: Option<RepairStatus>)
      requires s != Some(Done)
      modifies this
      ensures Valid() && newStatus == s
      ensures s.None? ==> !CanSubmitUpdate()
      ensures selectedRepair == old(selectedRepair) && updateMessage == old(updateMessage) && photos == old(photos)
      ensures showUpdateModal == old(showUpdateModal) && showPhotoModal == old(showPhotoModal)
    {
      newStatus := s;
    }

    method SetMessage(text: string)
      modifies this
      ensures updateMessage == text
      ensures selectedRepair == old(selectedRepair) && newStatus == old(newStatus) && photos == old(photos)
      ensures showUpdateModal == old(showUpdateModal) && showPhotoModal == old(showPhotoModal)
    {
      updateMessage := text;
    }

    /** The update button is enabled only with a status and a non-blank
        message. */
    predicate CanSubmitUpdate()
      reads this
      ensures CanSubmitUpdate() <==> newStatus.Some? && Trim(updateMessage) != ""
    {
      TrimEmptyIffBlank(updateMessage);
      newStatus.Some? && !IsBlank(updateMessage)
    }

    /** `handleStatusUpdate`. Without a selected repair, a status or a
        non-blank message nothing happens. Otherwise the selected repair's
        row takes the chosen status and its log gains one entry (time,
        status, trimmed message, this repairer) after the entries of the
        selected copy; the item is marked completed only when the status
        is ready_delivery; the form closes and its inputs reset. */
    method HandleStatusUpdate(db: Db, now: string)
      requires Valid()
      modifies this, db
      ensures Valid()
      ensures selectedRepair == old(selectedRepair) && photos == old(photos) && showPhotoModal == old(showPhotoModal)
      ensures unchanged(db`quotes, db`ecoTransactions, db`profiles, db`repairerProfiles)
      ensures old(selectedRepair).None? || old(newStatus).None? || IsBlank(old(updateMessage)) ==>
        unchanged(db) && unchanged(this)
      ensures old(selectedRepair).Some? && old(newStatus).Some? && !IsBlank(old(updateMessage)) ==>
        var sel := old(selectedRepair).value;
        var entry := TrackingUpdate(now, old(newStatus).value, Trim(old(updateMessage)), Some(repairerId));
        && db.repairs == UpdateRow(old(db.repairs), sel.id, (r: Repair) => WithStatusUpdate(r, sel, entry))
        && db.items == (if entry.status == ReadyDelivery then SetItemStatus(old(db.items), sel.item_id, Completed)
                        else old(db.items))
        && !showUpdateModal && updateMessage == "" && newStatus.None?
    {
      TrimEmptyIffBlank(updateMessage);
      if selectedRepair.None? || newStatus.None? || Trim(updateMessage) == "" {
        return;
      }
      var sel := selectedRepair.value;
      var entry := TrackingUpdate(now, newStatus.value, Trim(updateMessage), Some(repairerId));
      db.repairs := UpdateRow(db.repairs, sel.id, (r: Repair) => WithStatusUpdate(r, sel, entry));
      if entry.status == ReadyDelivery {
        db.items := SetItemStatus(db.items, sel.item_id, Completed);
      }
      showUpdateModal := false;
      updateMessage := "";
      newStatus := None;
    }

    /** Choosing files replaces the selection. */
    method SelectFiles(files: seq<File>)
      modifies this
      ensures photos == files
      ensures selectedRepair == old(selectedRepair) && newStatus == old(newStatus) && updateMessage == old(updateMessage)
      ensures showUpdateModal == old(showUpdateModal) && showPhotoModal == old(showPhotoModal)
    {
      photos := files;
    }

    /** `removePhoto(i)`: exactly the i-th selected file goes, the others
        stay in order. */
    method RemovePhoto(i: int)
      modifies this
      ensures photos == RemoveAt(old(photos), i)
      ensures 0 <= i < |old(photos)| ==> multiset(photos) + multiset{old(photos)[i]} == multiset(old(photos))
      ensures selectedRepair == old(selectedRepair) && newStatus == old(newStatus) && updateMessage == old(updateMessage)
      ensures showUpdateModal == old(showUpdateModal) && showPhotoModal == old(showPhotoModal)
    {
      if 0 <= i < |photos| {
        RemoveAtMultiset(photos, i);
      }
      photos := RemoveAt(photos, i);
    }

    /** `handlePhotoUpload`. Without a selected repair or without files
        nothing happens, and so it is when the batch is rejected (a file
        fails validation) or the transfer fails. Otherwise the public URLs
        of the stored files follow the selected copy's photos in the
        repair row, and the photo form closes with its selection cleared. */
    method HandlePhotoUpload(db: Db, seeds: nat -> Seed, bucketUrl: string, transferOk: bool)
      requires Valid()
      modifies this, db
      ensures Valid()
      ensures selectedRepair == old(selectedRepair) && newStatus == old(newStatus) && updateMessage == old(updateMessage)
      ensures showUpdateModal == old(showUpdateModal)
      ensures unchanged(db`items, db`quotes, db`ecoTransactions, db`profiles, db`repairerProfiles)
      ensures old(selectedRepair).None? || old(photos) == [] ==> unchanged(db) && unchanged(this)
      ensures old(selectedRepair).Some? && old(photos) != [] ==>
        var sel := old(selectedRepair).value;
        var batch := UploadMultiple(Batch(old(photos), seeds), PhotoFolder(sel), ImageFile);
        if batch.Success? && transferOk then
          && db.repairs == UpdateRow(old(db.repairs), sel.id,
               (r: Repair) => WithPhotos(r, sel, PublicUrls(bucketUrl, batch.value)))
          && |batch.value| == |old(photos)|
          && !showPhotoModal && photos == []
        else
          unchanged(db) && unchanged(this)
    {
      if selectedRepair.Some? && photos != [] {
        var sel := selectedRepair.value;
        var batch := UploadMultiple(Batch(photos, seeds), PhotoFolder(sel), ImageFile);
        if batch.Success? && transferOk {
          var urls := PublicUrls(bucketUrl, batch.value);
          db.repairs := UpdateRow(db.repairs, sel.id, (r: Repair) => WithPhotos(r, sel, urls));
          showPhotoModal := false;
          photos := [];
        }
      }
    }
  }
}
