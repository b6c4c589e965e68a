/** The rows of the hosted database as the application sees them
    (profiles, items, quotes, repairs, marketplace items, repairer
    profiles, eco-point transactions), with the string forms of their
    enumerations. A JSON `null`/absent field is `None`. */
module Records {
  import opened Basics

  // ------------------------------------------------------------ enumerations

  datatype Role = User | Repairer | Refurbisher | Recycler

  function RoleName(r: Role): string {
    match r
    case User => "user"
    case Repairer => "repairer"
    case Refurbisher => "refurbisher"
    case Recycler => "recycler"
  }

  datatype ItemStatus = Submitted | Quoted | InProgress | Completed | Cancelled

  function ItemStatusName(s: ItemStatus): string {
    match s
    case Submitted => "submitted"
    case Quoted => "quoted"
    case InProgress => "in_progress"
    case Completed => "completed"
    case Cancelled => "cancelled"
  }

  datatype SolutionType = HomeRepair | Workshop | Refurbish | Recycle

  function SolutionTypeName(s: SolutionType): string {
    match s
    case HomeRepair => "home_repair"
    case Workshop => "workshop"
    case Refurbish => "refurbish"
    case Recycle => "recycle"
  }

  datatype QuoteStatus = Pending | Accepted | Rejected

  /** The repair lifecycle: diagnostic, in_repair, quality_check,
      ready_delivery, completed. Nothing in the application forces a
      repair through these in order. */
  datatype RepairStatus = Diagnostic | InRepair | QualityCheck | ReadyDelivery | Done

  function RepairStatusName(s: RepairStatus): string {
    match s
    case Diagnostic => "diagnostic"
    case InRepair => "in_repair"
    case QualityCheck => "quality_check"
    case ReadyDelivery => "ready_delivery"
    case Done => "completed"
  }

  /** Reads a repair status back from its database string. */
  function ParseRepairStatus(s: string): (r: Option<RepairStatus>)
    ensures r.Some? ==> RepairStatusName(r.value) == s
  {
    if s == "diagnostic" then Some(Diagnostic)
    else if s == "in_repair" then Some(InRepair)
    else if s == "quality_check" then Some(QualityCheck)
    else if s == "ready_delivery" then Some(ReadyDelivery)
    else if s == "completed" then Some(Done)
    else None
  }

  /** Every status survives the trip to its string and back, so the five
      names are distinct. */
  lemma RepairStatusRoundTrip(s: RepairStatus)
    ensures ParseRepairStatus(RepairStatusName(s)) == Some(s)
  {
  }

  datatype MarketCategory = Parts | Refurbished | Tools

  function MarketCategoryName(c: MarketCategory): string {
    match c
    case Parts => "parts"
    case Refurbished => "refurbished"
    case Tools => "tools"
  }

  datatype Condition = New | LikeNew | Good | Fair

  function ConditionName(c: Condition): string {
    match c
    case New => "new"
    case LikeNew => "like_new"
    case Good => "good"
    case Fair => "fair"
  }

  // ------------------------------------------------------------------ rows

  datatype Profile = Profile(
    id: string,
    email: string,
    full_name: Option<string>,
    avatar_url: Option<string>,
    role: Role,
    eco_points: int,
    created_at: string)

  /** The diagnosis blob the submission wizard stores with an item. */
  datatype WizardDiagnosis = WizardDiagnosis(
    detectedIssues: seq<string>,
    estimatedCostMin: real,
    estimatedCostMax: real,
    repairComplexity: string,
    recommendedSolution: string,
    confidence: real)

  datatype Item = Item(
    id: string,
    user_id: string,
    name: string,
    category: string,
    brand: Option<string>,
    problem_description: string,
    images: Option<seq<string>>,
    videos: Option<seq<string>>,
    ai_diagnosis: Option<WizardDiagnosis>,
    estimated_cost_min: Option<real>,
    estimated_cost_max: Option<real>,
    status: ItemStatus,
    solution_type: Option<SolutionType>,
    created_at: string,
    updated_at: string)

  datatype Quote = Quote(
    id: string,
    item_id: string,
    repairer_id: string,
    price: real,
    estimated_duration: string,
    message: Option<string>,
    status: QuoteStatus,
    created_at: string)

  /** One entry of a repair's tracking log. */
  datatype TrackingUpdate = TrackingUpdate(
    timestamp: string,
    status: RepairStatus,
    message: string,
    repairer_id: Option<string>)

  datatype Repair = Repair(
    id: string,
    item_id: string,
    quote_id: Option<string>,
    repairer_id: Option<string>,
    status: RepairStatus,
    tracking_updates: seq<TrackingUpdate>,
    completion_photos: seq<string>,
    rating: Option<int>,
    review: Option<string>,
    started_at: string,
    completed_at: Option<string>)

  datatype MarketplaceItem = MarketplaceItem(
    id: string,
    seller_id: string,
    title: string,
    description: string,
    category: MarketCategory,
    price: real,
    images: seq<string>,
    condition: Condition,
    stock: int,
    sold: bool,
    created_at: string)

  datatype RepairerProfile = RepairerProfile(
    id: string,
    business_name: Option<string>,
    expertise: seq<string>,
    service_types: seq<string>,
    location: Option<string>,
    latitude: Option<real>,
    longitude: Option<real>,
    verified: bool,
    rating: real,
    total_jobs: int,
    bio: Option<string>,
    created_at: string)

  datatype EcoTransaction = EcoTransaction(
    user_id: Option<string>,
    points: int,
    reason: string,
    related_id: Option<string>)

  /** `profile?.role === 'repairer' || profile?.role === 'refurbisher'`:
      the roles that get the dashboard and may list marketplace items. */
  predicate IsRepairerOrRefurbisher(profile: Option<Profile>) {
    profile.Some? && profile.value.role in {Repairer, Refurbisher}
  }
}
