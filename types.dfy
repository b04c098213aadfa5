/** The data model of the conversation session engine (types/index.ts). */
module Types {
  import opened Wrappers

  /** The eight workflow steps, declared in workflow order. */
  datatype ConversationStep =
    | Greeting
    | ConceptInput
    | DeviceClassification
    | ProductCategory
    | PurposeMechanism
    | PlanGeneration
    | PlanReview
    | FinalConfirmation

  /** The numeric value of a step in the TypeScript enum. */
  function StepValue(s: ConversationStep): (n: nat)
    ensures n < 8
  {
    match s
    case Greeting => 0
    case ConceptInput => 1
    case DeviceClassification => 2
    case ProductCategory => 3
    case PurposeMechanism => 4
    case PlanGeneration => 5
    case PlanReview => 6
    case FinalConfirmation => 7
  }

  /** The step with a given enum value, if there is one. */
  function StepOfValue(n: nat): (r: Option<ConversationStep>)
    ensures r.Some? <==> n < 8
    ensures r.Some? ==> StepValue(r.value) == n
  {
    if n == 0 then Some(Greeting)
    else if n == 1 then Some(ConceptInput)
    else if n == 2 then Some(DeviceClassification)
    else if n == 3 then Some(ProductCategory)
    else if n == 4 then Some(PurposeMechanism)
    else if n == 5 then Some(PlanGeneration)
    else if n == 6 then Some(PlanReview)
    else if n == 7 then Some(FinalConfirmation)
    else None
  }

  /** Reading a step's value back gives the step: the numbering is one-to-one. */
  lemma StepValueRoundTrip(s: ConversationStep)
    ensures StepOfValue(StepValue(s)) == Some(s)
  {
  }

  /** Step order is the order of the enum values (`currentStep > step.step` in the UI). */
  predicate StepBefore(s: ConversationStep, t: ConversationStep) {
    StepValue(s) < StepValue(t)
  }

  datatype Role = User | Assistant | System

  datatype RiskClass = ClassI | ClassII | ClassIII | ClassIV

  /** `confidence` is a floating-point number and is not part of the model. */
  datatype DeviceClassification = Classification(
    isMedicalDevice: bool,
    reasoning: string,
    category: Option<string>,
    riskClass: Option<RiskClass>)

  datatype ProductCategory = Category(
    code: string,
    name: string,
    description: string,
    regulatoryPath: string)

  datatype PurposeMechanism = PurposeAndMechanism(
    intendedUse: string,
    mechanismOfAction: string,
    targetPopulation: string,
    clinicalBenefit: string,
    contraindications: Option<seq<string>>)

  datatype PlanTier = Fastest | Normal | Conservative | Innovative

  /** The string value of each tier in the TypeScript enum. */
  function TierValue(t: PlanTier): string {
    match t
    case Fastest => "fastest"
    case Normal => "normal"
    case Conservative => "conservative"
    case Innovative => "innovative"
  }

  /** The four tiers have four different string values. */
  lemma TierValuesDistinct(a: PlanTier, b: PlanTier)
    ensures TierValue(a) == TierValue(b) <==> a == b
  {
  }

  datatype TimelineItem = TimelineItem(
    phase: string,
    description: string,
    duration: string,
    dependencies: Option<seq<string>>,
    deliverables: seq<string>)

  datatype RiskLevel = Low | Medium | High

  datatype CommonStandards = CommonStandards(
    timeline: seq<TimelineItem>,
    standards: seq<string>,
    documentation: seq<string>)

  datatype PerformanceEvaluation = PerformanceEvaluation(
    timeline: seq<TimelineItem>,
    tests: seq<string>,
    documentation: seq<string>)

  datatype Plan = Plan(
    id: string,
    tier: PlanTier,
    title: string,
    description: string,
    totalDuration: string,
    estimatedCost: Option<string>,
    riskLevel: RiskLevel,
    commonStandards: CommonStandards,
    performanceEvaluation: PerformanceEvaluation,
    pros: seq<string>,
    cons: seq<string>,
    recommendations: seq<string>)

  datatype NodeType = Decision | Process | Start | End

  /** The `data` payload a milestone node carries (typed `any` in the source). */
  datatype NodeData =
    | ClassificationData(classification: DeviceClassification)
    | CategoryData(category: ProductCategory)
    | PurposeData(purposeMechanism: PurposeMechanism)
    | PlanCountData(count: nat)
    | PlanData(plan: Plan)

  datatype FlowchartNode = FlowchartNode(
    id: string,
    labelText: string,  // `label` in the source (a Dafny keyword)
    nodeType: NodeType,
    step: ConversationStep,
    data: Option<NodeData>)

  datatype FlowchartEdge = FlowchartEdge(from: string, to: string, labelText: Option<string>)

  /** The `metadata` a message carries (`Record<string, any>` in the source), one variant per
      producing operation. */
  datatype Metadata =
    | ClassificationMeta(classification: DeviceClassification, suggestedCategories: seq<ProductCategory>)
    | PurposeMeta(purposeMechanism: PurposeMechanism)
    | ModifiedPlanMeta(modifiedPlan: Plan)

  /** `timestamp` is a clock reading in milliseconds. */
  datatype Message = Message(
    id: string,
    role: Role,
    content: string,
    timestamp: nat,
    metadata: Option<Metadata>)

  datatype SessionState = SessionState(
    sessionId: string,
    currentStep: ConversationStep,
    messages: seq<Message>,
    concept: Option<string>,
    classification: Option<DeviceClassification>,
    category: Option<ProductCategory>,
    purposeMechanism: Option<PurposeMechanism>,
    plans: Option<seq<Plan>>,
    selectedPlan: Option<Plan>,
    flowchartNodes: seq<FlowchartNode>,
    flowchartEdges: seq<FlowchartEdge>,
    showSummary: bool,
    showFlowchart: bool,
    isLoading: bool,
    createdAt: nat,
    updatedAt: nat)

  datatype ClassifyDeviceRequest = ClassifyDeviceRequest(concept: string, context: Option<string>)

  datatype ClassifyDeviceResponse = ClassifyDeviceResponse(
    classification: DeviceClassification,
    suggestedCategories: seq<ProductCategory>)

  datatype GeneratePlansRequest = GeneratePlansRequest(
    classification: DeviceClassification,
    category: ProductCategory,
    purposeMechanism: PurposeMechanism)

  datatype GeneratePlansResponse = GeneratePlansResponse(plans: seq<Plan>)

  /** The `context` PlanLayout sends with a refinement request. */
  datatype RefineContext = RefineContext(
    classification: Option<DeviceClassification>,
    category: Option<ProductCategory>,
    purposeMechanism: Option<PurposeMechanism>)

  datatype RefinePlanRequest = RefinePlanRequest(
    planId: string,
    modifications: string,
    context: RefineContext)

  datatype RefinePlanResponse = RefinePlanResponse(plan: Plan)

  datatype AppMode = Production | Mock | Test
}
