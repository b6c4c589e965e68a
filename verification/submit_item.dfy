/** The three-step submission wizard: item details, optional AI
    diagnosis, review and submit. Submitting inserts the item, records a
    ten-point eco transaction and adds ten points to the user's profile.
    The diagnosis timer is modelled by its effect alone; the generated
    item id, the clock and the database's verdict on the insert are
    parameters. */
module SubmitItem {
  import opened Basics
  import opened Records
  import opened Database
  import opened Progress

  /** `formData`. */
  datatype SubmitForm = SubmitForm(name: string, category: string, brand: string, problemDescription: string)

  const InitialForm: SubmitForm := SubmitForm("", "electronics", "", "")

  /** The `name` attribute of the input that changed. */
  datatype FormField = NameField | CategoryField | BrandField | ProblemField

  /** `handleInputChange`: the named field takes the value, the others
      keep theirs. */
  function WithField(f: SubmitForm, field: FormField, value: string): (r: SubmitForm)
    ensures field == NameField ==> r == f.(name := value)
    ensures field == CategoryField ==> r == f.(category := value)
    ensures field == BrandField ==> r == f.(brand := value)
    ensures field == ProblemField ==> r == f.(problemDescription := value)
  {
    match field
    case NameField => f.(name := value)
    case CategoryField => f.(category := value)
    case BrandField => f.(brand := value)
    case ProblemField => f.(problemDescription := value)
  }

  /** The diagnosis the simulated AI produces. */
  const SimulatedDiagnosis: WizardDiagnosis := WizardDiagnosis(
    ["Battery not holding charge", "Possible charging port damage", "Software optimization needed"],
    45.0, 120.0, "Medium", "workshop", 0.87)

  /** The submitted item: the form's fields, the diagnosis if any with
      its cost bounds (absent without one), status submitted. */
  function NewItem(id: string, userId: string, f: SubmitForm, diagnosis: Option<WizardDiagnosis>, now: string): (it: Item)
    ensures it.id == id && it.user_id == userId && it.status == Submitted
    ensures it.name == f.name && it.category == f.category && it.brand == Some(f.brand)
    ensures it.problem_description == f.problemDescription && it.ai_diagnosis == diagnosis
    ensures diagnosis.None? ==> it.estimated_cost_min.None? && it.estimated_cost_max.None?
    ensures diagnosis.Some? ==>
      (it.estimated_cost_min == Some(diagnosis.value.estimatedCostMin)
       && it.estimated_cost_max == Some(diagnosis.value.estimatedCostMax))
    ensures it.solution_type.None? && it.images.None? && it.videos.None?
  {
    Item(id, userId, f.name, f.category, Some(f.brand), f.problemDescription, None, None, diagnosis,
      if diagnosis.Some? then Some(diagnosis.value.estimatedCostMin) else None,
      if diagnosis.Some? then Some(diagnosis.value.estimatedCostMax) else None,
      Submitted, None, now, now)
  }

  const SubmitReason: string := "Item submitted for repair"
  const SubmitPoints: int := 10

  /** The profile after the award: ten more points, nothing else. */
  function Awarded(p: Profile): (r: Profile)
    ensures r.eco_points == p.eco_points + 10
    ensures r.id == p.id && r.role == p.role && r.email == p.email
    ensures r.full_name == p.full_name && r.avatar_url == p.avatar_url && r.created_at == p.created_at
  {
    p.(eco_points := p.eco_points + SubmitPoints)
  }

  /** The step indicator for the steps 1, 2, 3: the step numbered `i + 1`
      is done before the current step, current at it and pending after
      it. */
  function Indicator(step: int): (r: seq<StepState>)
    ensures |r| == 3
    ensures forall i :: 0 <= i < 3 ==>
      && (r[i] == StepDone <==> i + 1 < step)
      && (r[i] == StepCurrent <==> i + 1 == step)
      && (r[i] == StepPending <==> i + 1 > step)
  {
    Timeline(3, step - 1)
  }

  class SubmitWizard {
    var step: int
    var formData: SubmitForm
    var aiDiagnosis: Option<WizardDiagnosis>
    var aiDiagnosing: bool

    /** The wizard is always on step 1, 2 or 3. */
    predicate Valid()
      reads this
    {
      1 <= step <= 3
    }

    constructor ()
      ensures Valid() && step == 1 && formData == InitialForm && aiDiagnosis.None? && !aiDiagnosing
    {
      step := 1;
      formData := InitialForm;
      aiDiagnosis := None;
      aiDiagnosing := false;
    }

    method InputChange(field: FormField, value: string)
      requires Valid()
      modifies this
      ensures Valid() && formData == WithField(old(formData), field, value)
      ensures step == old(step) && aiDiagnosis == old(aiDiagnosis) && aiDiagnosing == old(aiDiagnosing)
    {
      formData := WithField(formData, field, value);
    }

    /** Step 1's button is enabled only with a name and a description. */
    predicate CanContinue()
      reads this
      ensures CanContinue() ==> formData != InitialForm
    {
      formData.name != "" && formData.problemDescription != ""
    }

    /** Step 1 to step 2, when the button is enabled. */
    method Continue()
      requires Valid()
      modifies this
      ensures Valid()
      ensures old(step) == 1 && old(CanContinue()) ==> step == 2
      ensures !(old(step) == 1 && old(CanContinue())) ==> step == old(step)
      ensures formData == old(formData) && aiDiagnosis == old(aiDiagnosis) && aiDiagnosing == old(aiDiagnosing)
    {
      if step == 1 && CanContinue() {
        step := 2;
      }
    }

    /** The back buttons: step 2 to 1 and step 3 to 2. */
    method Back()
      requires Valid()
      modifies this
      ensures Valid()
      ensures old(step) > 1 ==> step == old(step) - 1
      ensures old(step) == 1 ==> step == 1
      ensures formData == old(formData) && aiDiagnosis == old(aiDiagnosis) && aiDiagnosing == old(aiDiagnosing)
    {
      if step > 1 {
        step := step - 1;
      }
    }

    /** Step 2's "skip": straight to step 3 without running a diagnosis;
        one already made is kept. */
    method Skip()
      requires Valid()
      modifies this
      ensures Valid()
      ensures old(step) == 2 ==> step == 3
      ensures old(step) != 2 ==> step == old(step)
      ensures formData == old(formData) && aiDiagnosis == old(aiDiagnosis) && aiDiagnosing == old(aiDiagnosing)
    {
      if step == 2 {
        step := 3;
      }
    }

    /** Step 2's diagnose button, enabled while no diagnosis runs. */
    method StartDiagnosis()
      requires Valid()
      modifies this
      ensures Valid()
      ensures old(step) == 2 && !old(aiDiagnosing) ==> aiDiagnosing
      ensures !(old(step) == 2 && !old(aiDiagnosing)) ==> aiDiagnosing == old(aiDiagnosing)
      ensures step == old(step) && formData == old(formData) && aiDiagnosis == old(aiDiagnosis)
    {
      if step == 2 && !aiDiagnosing {
        aiDiagnosing := true;
      }
    }

    /** The diagnosis timer firing: the diagnosis is set and the wizard
        moves to step 3, from whichever step it is on by then. */
    method FinishDiagnosis()
      requires Valid()
      modifies this
      ensures Valid() && step == 3
      ensures aiDiagnosis == Some(SimulatedDiagnosis) && !aiDiagnosing
      ensures formData == old(formData)
    {
      aiDiagnosis := Some(SimulatedDiagnosis);
      aiDiagnosing := false;
      step := 3;
    }

    /** `handleSubmit`. Without a user nothing happens. When the item
        insert fails (the database refuses it or the id is taken) nothing
        else happens either. Otherwise the item row is added, a +10 eco
        transaction refers to it, the user's profile gains ten points, and
        the page asks for 'my-repairs'. */
    method HandleSubmit(db: Db, user: Option<string>, itemId: string, now: string, insertOk: bool)
      returns (navigate: Option<string>)
      requires Valid()
      modifies db
      ensures user.None? || !insertOk || itemId in old(db.items) ==> unchanged(db) && navigate.None?
      ensures user.Some? && insertOk && itemId !in old(db.items) ==>
        && db.items == old(db.items)[itemId := NewItem(itemId, user.value, formData, aiDiagnosis, now)]
        && db.ecoTransactions == old(db.ecoTransactions) + [EcoTransaction(user, SubmitPoints, SubmitReason, Some(itemId))]
        && db.profiles == UpdateRow(old(db.profiles), user.value, Awarded)
        && db.quotes == old(db.quotes) && db.repairs == old(db.repairs)
        && db.repairerProfiles == old(db.repairerProfiles)
        && navigate == Some("my-repairs")
    {
      navigate := None;
      if user.None? || !insertOk || itemId in db.items {
        return;
      }
      db.items := db.items[itemId := NewItem(itemId, user.value, formData, aiDiagnosis, now)];
      db.ecoTransactions := db.ecoTransactions + [EcoTransaction(user, SubmitPoints, SubmitReason, Some(itemId))];
      db.profiles := UpdateRow(db.profiles, user.value, Awarded);
      navigate := Some("my-repairs");
    }
  }
}
