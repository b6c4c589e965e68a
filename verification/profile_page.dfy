/** The profile page: role labels and colours, and the repairer-profile
    editor whose expertise and service-type lists behave like sets, with
    the choice between updating and inserting the repairer profile on
    save. The column defaults the database fills in on insert are a
    parameter. */
module ProfilePage {
  import opened Basics
  import opened Text
  import opened Lists
  import opened Records
  import opened Database

  // ---------------------------------------------------------------- roles

  const RoleNames: seq<string> := ["user", "repairer", "refurbisher", "recycler"]

  /** `getRoleLabel`: the four roles have French labels; any other string
      is shown as it is. */
  function RoleLabel(role: string): (r: string)
    ensures role == "user" ==> r == "Utilisateur"
    ensures role == "repairer" ==> r == "Réparateur"
    ensures role == "refurbisher" ==> r == "Remise à Neuf"
    ensures role == "recycler" ==> r == "Recycleur"
    ensures role !in RoleNames ==> r == role
  {
    if role == "user" then "Utilisateur"
    else if role == "repairer" then "Réparateur"
    else if role == "refurbisher" then "Remise à Neuf"
    else if role == "recycler" then "Recycleur"
    else role
  }

  const GrayBadge: string := "bg-gray-100 text-gray-800"

  /** `getRoleColor`: one colour per role, gray for anything else. */
  function RoleColor(role: string): (r: string)
    ensures role !in RoleNames <==> r == GrayBadge
  {
    if role == "user" then "bg-blue-100 text-blue-800"
    else if role == "repairer" then "bg-emerald-100 text-emerald-800"
    else if role == "refurbisher" then "bg-purple-100 text-purple-800"
    else if role == "recycler" then "bg-orange-100 text-orange-800"
    else GrayBadge
  }

  /** Every role of the model has its own label and colour. */
  lemma EveryRoleIsMapped(role: Role)
    ensures RoleName(role) in RoleNames
    ensures RoleLabel(RoleName(role)) != RoleName(role)
    ensures RoleColor(RoleName(role)) != GrayBadge
  {
  }

  // ------------------------------------------------------------ set lists

  /** The add rule of the expertise and service-type lists: the trimmed
      input joins the end when it is not blank and not already there;
      otherwise the list is unchanged. */
  function AddEntry(xs: seq<string>, input: string): (r: seq<string>)
    ensures !IsBlank(input) && Trim(input) !in xs ==> r == xs + [Trim(input)]
    ensures IsBlank(input) || Trim(input) in xs ==> r == xs
  {
    TrimEmptyIffBlank(input);
    var t := Trim(input);
    if t != "" && t !in xs then xs + [t] else xs
  }

  /** Adding never creates a duplicate. */
  lemma AddEntryKeepsNoDuplicates(xs: seq<string>, input: string)
    requires NoDuplicates(xs)
    ensures NoDuplicates(AddEntry(xs, input))
  {
  }

  /** Adding never introduces a blank entry. */
  lemma AddEntryKeepsNoBlank(xs: seq<string>, input: string)
    requires forall i :: 0 <= i < |xs| ==> !IsBlank(xs[i])
    ensures forall i :: 0 <= i < |AddEntry(xs, input)| ==> !IsBlank(AddEntry(xs, input)[i])
  {
    var r := AddEntry(xs, input);
    if r != xs {
      var t := Trim(input);
      assert r[|r| - 1] == t && t != [];
      assert !IsSpace(t[0]);
    }
  }

  /** The remove rule: every entry equal to `v` goes, the rest stay in
      order; a duplicate-free list stays duplicate-free. */
  function RemoveEntry(xs: seq<string>, v: string): (r: seq<string>)
    ensures v !in r
    ensures forall i :: 0 <= i < |xs| && xs[i] != v ==> xs[i] in r
    ensures Subsequence(r, xs)
    ensures forall x :: multiset(r)[x] == if x == v then 0 else multiset(xs)[x]
  {
    RemoveAll(xs, v)
  }

  lemma RemoveEntryKeepsNoDuplicates(xs: seq<string>, v: string)
    requires NoDuplicates(xs)
    ensures NoDuplicates(RemoveEntry(xs, v))
  {
    SubsequenceNoDuplicates(RemoveEntry(xs, v), xs);
  }

  /** Adding an entry and then removing it gives the list back. */
  lemma AddThenRemoveEntry(xs: seq<string>, input: string)
    requires Trim(input) !in xs
    ensures RemoveEntry(AddEntry(xs, input), Trim(input)) == xs
  {
    TrimEmptyIffBlank(input);
    if Trim(input) != "" {
      RemoveAllAppended(xs, Trim(input));
    } else {
      RemoveAllAbsent(xs, Trim(input));
    }
  }

  // ---------------------------------------------------------------- editor

  /** `editRepairerForm`. */
  datatype RepairerForm = RepairerForm(
    business_name: string,
    expertise: seq<string>,
    service_types: seq<string>,
    location: string,
    latitude: Option<real>,
    longitude: Option<real>,
    bio: string)

  const EmptyForm: RepairerForm := RepairerForm("", [], [], "", None, None, "")

  /** The form filled from a loaded profile (missing text becomes ''). */
  function FormOf(p: RepairerProfile): RepairerForm {
    RepairerForm(p.business_name.GetOr(""), p.expertise, p.service_types,
      p.location.GetOr(""), p.latitude, p.longitude, p.bio.GetOr(""))
  }

  /** The columns the save writes, over an existing or default row. */
  function WithForm(p: RepairerProfile, id: string, f: RepairerForm): (r: RepairerProfile)
    ensures r.id == id && FormOf(r) == f
    ensures r.verified == p.verified && r.rating == p.rating && r.total_jobs == p.total_jobs
    ensures r.created_at == p.created_at
  {
    p.(id := id, business_name := Some(f.business_name), expertise := f.expertise,
       service_types := f.service_types, location := Some(f.location), latitude := f.latitude,
       longitude := f.longitude, bio := Some(f.bio))
  }

  const SaveError: string := "Erreur lors de la mise à jour du profil réparateur"

  class RepairerProfileEditor {
    var repairerProfile: Option<RepairerProfile>
    var form: RepairerForm
    var newExpertise: string
    var newServiceType: string
    var isEditingRepairer: bool
    var error: Option<string>

    constructor ()
      ensures repairerProfile.None? && form == EmptyForm
      ensures newExpertise == "" && newServiceType == "" && !isEditingRepairer && error.None?
    {
      repairerProfile := None;
      form := EmptyForm;
      newExpertise := "";
      newServiceType := "";
      isEditingRepairer := false;
      error := None;
    }

    /** `addExpertise`: the expertise list follows `AddEntry`; the input
        is cleared only when an entry was added; nothing else changes. */
    method AddExpertise()
      modifies this
      ensures form == old(form).(expertise := AddEntry(old(form).expertise, old(newExpertise)))
      ensures newExpertise == if form.expertise != old(form).expertise then "" else old(newExpertise)
      ensures newServiceType == old(newServiceType) && repairerProfile == old(repairerProfile)
      ensures error == old(error) && isEditingRepairer == old(isEditingRepairer)
    {
      var updated := AddEntry(form.expertise, newExpertise);
      if updated != form.expertise {
        form := form.(expertise := updated);
        newExpertise := "";
      }
    }

    /** `removeExpertise(v)`. */
    method RemoveExpertise(v: string)
      modifies this
      ensures form == old(form).(expertise := RemoveEntry(old(form).expertise, v))
      ensures newExpertise == old(newExpertise) && newServiceType == old(newServiceType)
      ensures repairerProfile == old(repairerProfile) && error == old(error)
      ensures isEditingRepairer == old(isEditingRepairer)
    {
      form := form.(expertise := RemoveEntry(form.expertise, v));
    }

    /** `addServiceType`: the same rule on the service-type list. */
    method AddServiceType()
      modifies this
      ensures form == old(form).(service_types := AddEntry(old(form).service_types, old(newServiceType)))
      ensures newServiceType == if form.service_types != old(form).service_types then "" else old(newServiceType)
      ensures newExpertise == old(newExpertise) && repairerProfile == old(repairerProfile)
      ensures error == old(error) && isEditingRepairer == old(isEditingRepairer)
    {
      var updated := AddEntry(form.service_types, newServiceType);
      if updated != form.service_types {
        form := form.(service_types := updated);
        newServiceType := "";
      }
    }

    /** `removeServiceType(v)`. */
    method RemoveServiceType(v: string)
      modifies this
      ensures form == old(form).(service_types := RemoveEntry(old(form).service_types, v))
      ensures newExpertise == old(newExpertise) && newServiceType == old(newServiceType)
      ensures repairerProfile == old(repairerProfile) && error == old(error)
      ensures isEditingRepairer == old(isEditingRepairer)
    {
      form := form.(service_types := RemoveEntry(form.service_types, v));
    }

    /** `loadRepairerProfile`: the row with the user's id, if any, and the
        form filled from it. */
    method Load(db: Db, userId: string)
      modifies this
      ensures repairerProfile == (if userId in db.repairerProfiles then Some(db.repairerProfiles[userId]) else None)
      ensures form == (if userId in db.repairerProfiles then FormOf(db.repairerProfiles[userId]) else old(form))
      ensures newExpertise == old(newExpertise) && newServiceType == old(newServiceType)
      ensures error == old(error) && isEditingRepairer == old(isEditingRepairer)
    {
      if userId in db.repairerProfiles {
        repairerProfile := Some(db.repairerProfiles[userId]);
        form := FormOf(db.repairerProfiles[userId]);
      } else {
        repairerProfile := None;
      }
    }

    /** `handleSaveRepairerProfile`. Without a user nothing happens. With a
        loaded profile the user's row is updated from the form; without
        one a row is inserted, which the database refuses when the id is
        taken. `saveOk` is the outcome of the update or insert request for
        every other reason. After a save the profile is reloaded and the
        editor closes; after a failed one the page shows the save error,
        nothing is reloaded and the editor stays as it was. */
    method HandleSaveRepairerProfile(db: Db, user: Option<string>, columnDefaults: RepairerProfile, saveOk: bool)
      modifies this, db
      ensures unchanged(db`items, db`repairs, db`quotes, db`profiles, db`ecoTransactions)
      ensures newExpertise == old(newExpertise) && newServiceType == old(newServiceType)
      ensures user.None? ==> unchanged(this) && unchanged(db)
      ensures user.Some? && saveOk && old(repairerProfile).Some? ==>
        && db.repairerProfiles == UpdateRow(old(db.repairerProfiles), user.value,
             (p: RepairerProfile) => WithForm(p, user.value, old(form)))
        && error.None? && !isEditingRepairer && form == old(form)
        && repairerProfile == (if user.value in db.repairerProfiles then Some(db.repairerProfiles[user.value]) else None)
      ensures user.Some? && saveOk && old(repairerProfile).None? && user.value !in old(db.repairerProfiles) ==>
        && db.repairerProfiles == old(db.repairerProfiles)[user.value := WithForm(columnDefaults, user.value, old(form))]
        && error.None? && !isEditingRepairer
        && repairerProfile == Some(db.repairerProfiles[user.value]) && form == old(form)
      ensures user.Some? && (!saveOk || (old(repairerProfile).None? && user.value in old(db.repairerProfiles))) ==>
        && db.repairerProfiles == old(db.repairerProfiles)
        && error == Some(SaveError) && isEditingRepairer == old(isEditingRepairer)
        && repairerProfile == old(repairerProfile) && form == old(form)
    {
      if user.None? {
        return;
      }
      var id := user.value;
      error := None;
      if !saveOk {
        error := Some(SaveError);
        return;
      }
      if repairerProfile.Some? {
        var f := form;
        db.repairerProfiles := UpdateRow(db.repairerProfiles, id, (p: RepairerProfile) => WithForm(p, id, f));
      } else if id in db.repairerProfiles {
        error := Some(SaveError);
        return;
      } else {
        db.repairerProfiles := db.repairerProfiles[id := WithForm(columnDefaults, id, form)];
      }
      Load(db, id);
      isEditingRepairer := false;
    }
  }
}
