/** The rows of the tables the garden-request lifecycle reads and writes.

    Every table is a sequence: a row's id is its position, an INSERT appends, and insertion order
    is the order of `created_at`. Fixed texts of the program are constructors, so that two of them
    are equal exactly when the program's texts are. */
module Domain {
  import opened Wrappers

  type Id = nat
  /** Seconds. */
  type Time = nat

  /** Days; a day begins at its midnight. */
  type Day = nat

  const DAY_SECONDS := 86400

  function DayOf(t: Time): Day {
    t / DAY_SECONDS
  }

  function Midnight(d: Day): Time {
    d * DAY_SECONDS
  }

  datatype Word = ManualReviewPassed | DecisionApproved | DecisionRejected | DecisionCancelled
                | Tracking | Planned

  /** JSON values. `JId(id)` is the text of a row id. */
  datatype Json =
    | JNull
    | JBool(b: bool)
    | JInt(n: int)
    | JReal(x: real)
    | JText(text: string)
    | JWord(word: Word)
    | JId(id: Id)
    | JTime(time: Time)
    | JDay(day: Day)
    | JList(items: seq<Json>)
    | JObject(fields: map<string, Json>)

  /** Python's truth value of a decoded JSON value. */
  predicate Truthy(j: Json) {
    match j
    case JNull => false
    case JBool(b) => b
    case JInt(n) => n != 0
    case JReal(x) => x != 0.0
    case JText(t) => t != ""
    case JList(items) => items != []
    case JObject(fields) => fields != map[]
    case _ => true
  }

  function TextOrNull(t: Option<string>): Json {
    if t.Some? then JText(t.value) else JNull
  }

  function RealOrNull(x: Option<real>): Json {
    if x.Some? then JReal(x.value) else JNull
  }

  function IdList(ids: seq<Id>): Json {
    JList(seq(|ids|, i requires 0 <= i < |ids| => JId(ids[i])))
  }

  function TextList(texts: seq<string>): Json {
    JList(seq(|texts|, i requires 0 <= i < |texts| => JText(texts[i])))
  }

  // ---------- Garden requests ----------

  datatype RequestStatus =
    | Submitted | InspectionScheduled | Accepted | NeedingImplements | ImplementsInstalled
    | Seeds | FinalInstall | Live | Rejected | Cancelled

  datatype DetailKey =
    | LeadKey | InspectionAssignmentKey | PhotosKey | NotesKey
    | RequestedPlants | Plants | AllocatedPlants | InspectionNotes | AllocationNotes
    | TrackingState | TrackingStartedAt | TrackingStartedBy
    | OtherKey(name: string)

  type Details = map<DetailKey, Json>

  datatype Site = Site(
    title: string, address: Option<string>, city: Option<string>, lat: Option<real>, lng: Option<real>,
    spaceM2: Option<real>, sunlightHours: Option<real>)

  datatype Request = Request(
    owner: Id, property: Option<Id>, site: Site, details: Details, status: RequestStatus,
    adminNotes: Option<string>, reviewedBy: Option<Id>, reviewedAt: Option<Time>)

  datatype Property = Property(owner: Id, site: Site, notes: Json)

  datatype LeadStatus = LeadNew | Contacted | LeadScheduled | Assessed | Converted | NotViable | LeadClosed

  datatype Lead = Lead(
    status: LeadStatus, adminNotes: Option<string>, reviewedBy: Option<Id>, reviewedAt: Option<Time>)

  // ---------- Inspections ----------

  datatype Priority = Low | Medium | High | Urgent

  datatype AssignmentStatus = Pending | VisitInProgress | VisitCompleted | VisitFailed | VisitFlagged

  datatype Visit = Visit(dueDate: Day, scheduledFor: Time, priority: Priority, adminNotes: string)

  datatype Assignment = Assignment(
    inspector: Id, garden: Id, visit: Visit, status: AssignmentStatus,
    startedAt: Option<Time>, completedAt: Option<Time>, updatedAt: Time)

  predicate Open(a: Assignment) {
    a.status == Pending || a.status == VisitInProgress
  }

  datatype AssessmentStatus = Draft | SubmittedForApproval | Approved | RevisionRequested | AssessmentRejected

  datatype Band = Suitable | Conditional | NotSuitable

  datatype OverallStatus = OverallPending | Pass | Warning | Fail

  datatype WaterAccess = NoWater | LimitedWater | ReliableWater

  datatype Severity = LowRisk | MediumRisk | HighRisk

  /** What an inspector measures of a site. */
  datatype SiteFacts = SiteFacts(
    sunlightHours: real, water: WaterAccess, usableSpaceM2: real, installationTypes: seq<string>, risks: seq<Severity>)

  /** What a scored site assessment stores: null until an assessment is first saved. */
  datatype Findings = Findings(
    site: SiteFacts, score: int, band: Band, breakdown: seq<int>, crops: seq<string>, infrastructure: seq<string>)

  datatype Gps = Gps(lat: Option<real>, lng: Option<real>)

  datatype Report = Report(
    assignment: Id, inspector: Id, garden: Id, overall: OverallStatus, notes: Option<string>, gps: Gps,
    followUp: bool, findings: Option<Findings>, status: AssessmentStatus,
    startedAt: Option<Time>, submittedAt: Option<Time>)

  datatype ItemResult = ItemPass | ItemWarning | ItemFail | ItemNa

  datatype ChecklistItem = ChecklistItem(
    report: Id, category: string, name: string, requiresPhoto: bool,
    result: ItemResult, comment: Option<string>, sortOrder: int)

  datatype PhotoType = FullGardenView | CropCloseUp | Irrigation | ProblemArea | Extra

  datatype Photo = Photo(report: Id, item: Option<Id>, photoType: PhotoType)

  // ---------- Installations and crops ----------

  datatype InstallationStatus = InstallationPlanned | Installed | Active | Paused | Decommissioned

  datatype InstallationFacts = InstallationFacts(
    installType: string, sizeM2: real, capacityUnits: int, photos: seq<string>, maintenanceNotes: string)

  datatype Installation = Installation(
    property: Id, owner: Id, facts: InstallationFacts, status: InstallationStatus, installedAt: Option<Time>)

  datatype BatchStatus = BatchPlanned | Planted | Growing | BatchReady | Harvested | BatchFailed

  datatype Batch = Batch(
    installation: Id, crop: Id, owner: Id, units: nat, expectedYieldKg: real,
    status: BatchStatus, plantedAt: Option<Time>)

  datatype Crop = Crop(id: Id, name: string, yieldPerUnit: Option<real>)

  datatype ActivityType = InspectionActivity | PlantingActivity | InstallationActivity

  datatype Activity = Activity(
    owner: Id, property: Id, installation: Option<Id>, activityType: ActivityType, details: map<string, Json>)

  // ---------- Operational workflow ----------

  datatype StageKey =
    | ResidentSignup | PropertyDetails | PreliminaryAssessment | InspectorVisit | SiteScore
    | GardenRecommendation | Approval | InstallationStage | CropAllocation | MaintenanceTasks
    | HarvestRecording | ProduceDisposition | ImpactReporting

  datatype StageStatus =
    | NotStarted | Ready | InProgress | Blocked | StageSubmitted | StageApproved | StageCompleted
    | StageRejected | Skipped

  datatype NextAction =
    | SeededAction(key: StageKey)
    | CompleteSiteVisit
    | ReviewInspectionEvidence
    | PrepareInfrastructure
    | AllocateApprovedCrops
    | PlantAllocatedCrops

  datatype EvidenceKey =
    | AddressEvidence | PropertyEvidence | ResultEvidence | ReviewedBy | AssignmentEvidence
    | Decision | ReportEvidence | Rationale | GpsEvidence | ScoreEvidence | BandEvidence | BreakdownEvidence
    | CropsEvidence | InfrastructureEvidence | WorkStartedBy | InstallationEvidence | InstalledAtEvidence
    | PhotosEvidence | PlantedAtEvidence | CropBatchIds | RecommendedCrops

  type Evidence = map<EvidenceKey, Json>

  datatype Stage = Stage(
    status: StageStatus, owner: Option<Id>, evidence: Evidence, nextAction: NextAction,
    startedAt: Option<Time>, submittedAt: Option<Time>, completedAt: Option<Time>)

  datatype WorkflowStatus = WorkflowActive | WorkflowOnHold | WorkflowCompleted | WorkflowCancelled

  /** One operational_workflows row together with its workflow_stages rows, keyed as
      UNIQUE (workflow_id, stage_key) allows. The workflow of request r is row r. */
  datatype Workflow = Workflow(
    owner: Id, currentStage: StageKey, status: WorkflowStatus, completedAt: Option<Time>,
    stages: map<StageKey, Stage>)

  /** An append-only workflow_stage_events row; a stage row is named by its request and key. */
  datatype StageEvent = StageEvent(
    request: Id, key: StageKey, actor: Id, fromStatus: StageStatus, toStatus: StageStatus, evidence: Evidence)

  // ---------- The database ----------

  datatype Db = Db(
    leads: seq<Lead>,
    inspectorActive: seq<bool>,
    requests: seq<Request>,
    properties: seq<Property>,
    assignments: seq<Assignment>,
    reports: seq<Report>,
    items: seq<ChecklistItem>,
    photos: seq<Photo>,
    installations: seq<Installation>,
    batches: seq<Batch>,
    activities: seq<Activity>,
    workflows: seq<Workflow>,
    events: seq<StageEvent>)

  datatype ErrorCode =
    | RequestNotFound | InvalidRequestTransition | InspectorUnavailable | GardenPropertyMismatch
    | RequestChanged | WorkflowStageMissing | WorkflowMissing | AssessmentLeadNotFound
    | ActivationRequirementsMissing | PlantingNotComplete | InspectorAssignmentRequired
    | AssessmentChanged | InspectionApprovalRequired | AllocationRequired | PropertyRequired
    | InstallationNotComplete | CropAllocationRequired | CropBatchStateInvalid | CropBatchStateChanged
    | CropNotRecommended | PropertyChanged | InspectionReportNotFound | AssessmentAlreadySubmitted
    | InspectionAssignmentNotFound | InspectionChecklistMissing | InspectionEvidenceIncomplete
    | InspectionReportRequired | ApprovalRationaleRequired | AssessmentApprovalFailed
    | InspectionReportForbidden | ForeignKeyViolation | CropsNotFound

  /** A transaction either commits a new database with a result, or raises and changes nothing. */
  datatype Outcome<+T> = Committed(db: Db, value: T) | Aborted(error: ErrorCode)
}
