/** The session store (store/useAppStore.ts): one active session, the mock-mode flag and the
    actions that update the session and persist it. */
module AppStore {
  import opened Wrappers
  import opened Strings
  import opened Types
  import opened LocalStorage
  import opened SqlAdapter
  import opened StorageFactory

  /** The k-th identifier `uuidv4()` hands out. Random v4 identifiers are modelled by a counter,
      so two draws never coincide. */
  function Uuid(k: nat): string {
    "uuid-" + NatToString(k)
  }

  lemma UuidInjective(a: nat, b: nat)
    ensures Uuid(a) == Uuid(b) <==> a == b
  {
    if Uuid(a) == Uuid(b) {
      assert Uuid(a)[5..] == NatToString(a);
      assert Uuid(b)[5..] == NatToString(b);
      NatToStringInjective(a, b);
    }
  }

  /** `createInitialSession()`: step GREETING, no messages, no milestones, panels closed. */
  function InitialSession(id: string, now: nat): (s: SessionState)
    ensures s.sessionId == id && s.currentStep == Greeting
    ensures s.messages == [] && s.flowchartNodes == [] && s.flowchartEdges == []
    ensures s.concept.None? && s.classification.None? && s.category.None?
    ensures s.purposeMechanism.None? && s.plans.None? && s.selectedPlan.None?
    ensures !s.showSummary && !s.showFlowchart && !s.isLoading
    ensures s.createdAt == now && s.updatedAt == now
  {
    SessionState(id, Greeting, [], None, None, None, None, None, None, [], [], false, false, false, now, now)
  }

  /** A `Partial<SessionState>`: `None` leaves a field alone. An optional field takes an
      `Option` of its own, so that `{ field: undefined }` can clear it. `updatedAt` is left out
      because `updateSession` always overwrites it. */
  datatype SessionPatch = SessionPatch(
    sessionId: Option<string>,
    currentStep: Option<ConversationStep>,
    messages: Option<seq<Message>>,
    concept: Option<Option<string>>,
    classification: Option<Option<DeviceClassification>>,
    category: Option<Option<ProductCategory>>,
    purposeMechanism: Option<Option<PurposeMechanism>>,
    plans: Option<Option<seq<Plan>>>,
    selectedPlan: Option<Option<Plan>>,
    flowchartNodes: Option<seq<FlowchartNode>>,
    flowchartEdges: Option<seq<FlowchartEdge>>,
    showSummary: Option<bool>,
    showFlowchart: Option<bool>,
    isLoading: Option<bool>,
    createdAt: Option<nat>)

  const NoChange := SessionPatch(None, None, None, None, None, None, None, None, None, None, None, None, None, None, None)

  /** The patched value of one field. */
  function Patched<T>(p: Option<T>, x: T): T {
    if p.Some? then p.value else x
  }

  /** `{ ...session, ...updates, updatedAt: new Date() }`. */
  function ApplyPatch(s: SessionState, p: SessionPatch, now: nat): (r: SessionState)
    ensures r.updatedAt == now
    ensures p == NoChange ==> r == s.(updatedAt := now)
  {
    SessionState(
      Patched(p.sessionId, s.sessionId),
      Patched(p.currentStep, s.currentStep),
      Patched(p.messages, s.messages),
      Patched(p.concept, s.concept),
      Patched(p.classification, s.classification),
      Patched(p.category, s.category),
      Patched(p.purposeMechanism, s.purposeMechanism),
      Patched(p.plans, s.plans),
      Patched(p.selectedPlan, s.selectedPlan),
      Patched(p.flowchartNodes, s.flowchartNodes),
      Patched(p.flowchartEdges, s.flowchartEdges),
      Patched(p.showSummary, s.showSummary),
      Patched(p.showFlowchart, s.showFlowchart),
      Patched(p.isLoading, s.isLoading),
      Patched(p.createdAt, s.createdAt),
      now)
  }

  /** A later spread over an earlier one: `{ ...p, ...q }`. */
  function Then(p: SessionPatch, q: SessionPatch): SessionPatch {
    SessionPatch(
      if q.sessionId.Some? then q.sessionId else p.sessionId,
      if q.currentStep.Some? then q.currentStep else p.currentStep,
      if q.messages.Some? then q.messages else p.messages,
      if q.concept.Some? then q.concept else p.concept,
      if q.classification.Some? then q.classification else p.classification,
      if q.category.Some? then q.category else p.category,
      if q.purposeMechanism.Some? then q.purposeMechanism else p.purposeMechanism,
      if q.plans.Some? then q.plans else p.plans,
      if q.selectedPlan.Some? then q.selectedPlan else p.selectedPlan,
      if q.flowchartNodes.Some? then q.flowchartNodes else p.flowchartNodes,
      if q.flowchartEdges.Some? then q.flowchartEdges else p.flowchartEdges,
      if q.showSummary.Some? then q.showSummary else p.showSummary,
      if q.showFlowchart.Some? then q.showFlowchart else p.showFlowchart,
      if q.isLoading.Some? then q.isLoading else p.isLoading,
      if q.createdAt.Some? then q.createdAt else p.createdAt)
  }

  /** Two updates in a row are one update with the merged patch, stamped with the later time. */
  lemma PatchesCompose(s: SessionState, p: SessionPatch, q: SessionPatch, t1: nat, t2: nat)
    ensures ApplyPatch(ApplyPatch(s, p, t1), q, t2) == ApplyPatch(s, Then(p, q), t2)
  {
  }

  /** Repeating an update at the same time changes nothing more. */
  lemma PatchIdempotent(s: SessionState, p: SessionPatch, now: nat)
    ensures ApplyPatch(ApplyPatch(s, p, now), p, now) == ApplyPatch(s, p, now)
  {
  }

  function StepPatch(step: ConversationStep): SessionPatch { NoChange.(currentStep := Some(step)) }
  function MessagesPatch(messages: seq<Message>): SessionPatch { NoChange.(messages := Some(messages)) }
  function LoadingPatch(loading: bool): SessionPatch { NoChange.(isLoading := Some(loading)) }
  function NodesPatch(nodes: seq<FlowchartNode>): SessionPatch { NoChange.(flowchartNodes := Some(nodes)) }
  function EdgesPatch(edges: seq<FlowchartEdge>): SessionPatch { NoChange.(flowchartEdges := Some(edges)) }

  /** The five milestones that add a flowchart node. */
  datatype Milestone = ClassificationMilestone | CategoryMilestone | PurposeMilestone | PlansMilestone | SelectedMilestone

  function MilestoneName(m: Milestone): (name: string)
    ensures |name| >= 5
  {
    match m
    case ClassificationMilestone => "classification"
    case CategoryMilestone => "category"
    case PurposeMilestone => "purpose"
    case PlansMilestone => "plans"
    case SelectedMilestone => "selected"
  }

  /** `node-<milestone>-${Date.now()}`. */
  function NodeId(m: Milestone, now: nat): string {
    "node-" + MilestoneName(m) + "-" + NatToString(now)
  }

  /** Node ids tell the milestone and the clock reading apart: two nodes share an id exactly
      when they mark the same milestone at the same millisecond. */
  lemma NodeIdInjective(m1: Milestone, t1: nat, m2: Milestone, t2: nat)
    ensures NodeId(m1, t1) == NodeId(m2, t2) <==> m1 == m2 && t1 == t2
  {
    var a, b := NodeId(m1, t1), NodeId(m2, t2);
    if m1 == m2 {
      var n := 5 + |MilestoneName(m1)| + 1;
      assert a[n..] == NatToString(t1);
      assert b[n..] == NatToString(t2);
      if a == b {
        NatToStringInjective(t1, t2);
      }
    } else {
      assert a[5] == MilestoneName(m1)[0] && a[6] == MilestoneName(m1)[1];
      assert b[5] == MilestoneName(m2)[0] && b[6] == MilestoneName(m2)[1];
    }
  }

  function ClassificationNode(c: DeviceClassification, now: nat): FlowchartNode {
    FlowchartNode(NodeId(ClassificationMilestone, now),
                  "의료기기: " + (if c.isMedicalDevice then "예" else "아니오"),
                  Decision, DeviceClassification, Some(ClassificationData(c)))
  }

  function CategoryNode(c: ProductCategory, now: nat): FlowchartNode {
    FlowchartNode(NodeId(CategoryMilestone, now), c.name, Process, ProductCategory, Some(CategoryData(c)))
  }

  function PurposeNode(pm: PurposeMechanism, now: nat): FlowchartNode {
    FlowchartNode(NodeId(PurposeMilestone, now), "사용목적 & 작용원리", Process, PurposeMechanism, Some(PurposeData(pm)))
  }

  function PlansNode(plans: seq<Plan>, now: nat): FlowchartNode {
    FlowchartNode(NodeId(PlansMilestone, now), NatToString(|plans|) + "개 전략 생성", Process, PlanGeneration,
                  Some(PlanCountData(|plans|)))
  }

  function SelectedNode(plan: Plan, now: nat): FlowchartNode {
    FlowchartNode(NodeId(SelectedMilestone, now), "선택: " + plan.title, Decision, PlanReview, Some(PlanData(plan)))
  }

  /** The flowchart is a chain: one edge from each node to the next, in order, unlabelled. */
  predicate IsChain(nodes: seq<FlowchartNode>, edges: seq<FlowchartEdge>) {
    && |edges| == (if nodes == [] then 0 else |nodes| - 1)
    && forall i :: 0 <= i < |edges| ==> edges[i] == FlowchartEdge(nodes[i].id, nodes[i + 1].id, None)
  }

  /** `addFlowchartEdge`. */
  function WithEdge(s: SessionState, edge: FlowchartEdge, now: nat): SessionState {
    s.(flowchartEdges := s.flowchartEdges + [edge], updatedAt := now)
  }

  /** `addFlowchartNode`: an edge from the previous last node (if any), then the node. */
  function WithNode(s: SessionState, node: FlowchartNode, now: nat): (r: SessionState)
    ensures r.flowchartNodes == s.flowchartNodes + [node]
    ensures s.flowchartNodes == [] ==> r.flowchartEdges == s.flowchartEdges
    ensures s.flowchartNodes != [] ==>
              r.flowchartEdges == s.flowchartEdges + [FlowchartEdge(s.flowchartNodes[|s.flowchartNodes| - 1].id, node.id, None)]
    ensures r == s.(flowchartNodes := r.flowchartNodes, flowchartEdges := r.flowchartEdges, updatedAt := now)
  {
    var withEdge :=
      if |s.flowchartNodes| > 0 then WithEdge(s, FlowchartEdge(s.flowchartNodes[|s.flowchartNodes| - 1].id, node.id, None), now)
      else s;
    withEdge.(flowchartNodes := s.flowchartNodes + [node], updatedAt := now)
  }

  /** Adding a node keeps the flowchart a chain. */
  lemma WithNodeKeepsChain(s: SessionState, node: FlowchartNode, now: nat)
    requires IsChain(s.flowchartNodes, s.flowchartEdges)
    ensures IsChain(WithNode(s, node, now).flowchartNodes, WithNode(s, node, now).flowchartEdges)
  {
    var r := WithNode(s, node, now);
    var nodes, edges := r.flowchartNodes, r.flowchartEdges;
    forall i | 0 <= i < |edges| ensures edges[i] == FlowchartEdge(nodes[i].id, nodes[i + 1].id, None) {
      if i < |s.flowchartEdges| {
        assert edges[i] == s.flowchartEdges[i];
        assert nodes[i] == s.flowchartNodes[i] && nodes[i + 1] == s.flowchartNodes[i + 1];
      }
    }
  }

  /** The store state a session action works on: the session and the next identifier. */
  datatype Turn = Turn(session: SessionState, serial: nat)

  /** `addMessage`: a message with a fresh id and the current time. */
  function WithMessage(t: Turn, role: Role, content: string, metadata: Option<Metadata>, now: nat): Turn {
    var newMessage := Message(Uuid(t.serial), role, content, now, metadata);
    Turn(t.session.(messages := t.session.messages + [newMessage], updatedAt := now), t.serial + 1)
  }

  /** A reply from the assistant without metadata. */
  function Say(t: Turn, content: string, now: nat): Turn {
    WithMessage(t, Assistant, content, None, now)
  }

  /** `setStep`. */
  function WithStep(s: SessionState, step: ConversationStep, now: nat): SessionState {
    s.(currentStep := step, updatedAt := now)
  }

  /** `setLoading`. */
  function WithLoading(s: SessionState, loading: bool, now: nat): SessionState {
    s.(isLoading := loading, updatedAt := now)
  }

  /** `setClassification`: records the classification and its milestone. */
  function WithClassification(s: SessionState, c: DeviceClassification, now: nat): (r: SessionState)
    ensures r.classification == Some(c)
    ensures r == s.(classification := Some(c), flowchartNodes := r.flowchartNodes, flowchartEdges := r.flowchartEdges, updatedAt := now)
    ensures |r.flowchartNodes| == |s.flowchartNodes| + 1 && r.flowchartNodes[..|s.flowchartNodes|] == s.flowchartNodes
    ensures var n := r.flowchartNodes[|s.flowchartNodes|];
      && n.id == NodeId(ClassificationMilestone, now) && n.nodeType == Decision && n.step == ConversationStep.DeviceClassification
      && n.labelText == "의료기기: " + (if c.isMedicalDevice then "예" else "아니오") && n.data == Some(ClassificationData(c))
  {
    WithNode(s.(classification := Some(c), updatedAt := now), ClassificationNode(c, now), now)
  }

  /** `setCategory`. */
  function WithCategory(s: SessionState, c: ProductCategory, now: nat): (r: SessionState)
    ensures r.category == Some(c)
    ensures r == s.(category := Some(c), flowchartNodes := r.flowchartNodes, flowchartEdges := r.flowchartEdges, updatedAt := now)
    ensures |r.flowchartNodes| == |s.flowchartNodes| + 1 && r.flowchartNodes[..|s.flowchartNodes|] == s.flowchartNodes
    ensures var n := r.flowchartNodes[|s.flowchartNodes|];
      && n.id == NodeId(CategoryMilestone, now) && n.nodeType == Process && n.step == ConversationStep.ProductCategory
      && n.labelText == c.name && n.data == Some(CategoryData(c))
  {
    WithNode(s.(category := Some(c), updatedAt := now), CategoryNode(c, now), now)
  }

  /** `setPurposeMechanism`. */
  function WithPurposeMechanism(s: SessionState, pm: PurposeMechanism, now: nat): (r: SessionState)
    ensures r.purposeMechanism == Some(pm)
    ensures r == s.(purposeMechanism := Some(pm), flowchartNodes := r.flowchartNodes, flowchartEdges := r.flowchartEdges, updatedAt := now)
    ensures |r.flowchartNodes| == |s.flowchartNodes| + 1 && r.flowchartNodes[..|s.flowchartNodes|] == s.flowchartNodes
    ensures var n := r.flowchartNodes[|s.flowchartNodes|];
      && n.id == NodeId(PurposeMilestone, now) && n.nodeType == Process && n.step == ConversationStep.PurposeMechanism
      && n.labelText == "사용목적 & 작용원리" && n.data == Some(PurposeData(pm))
  {
    WithNode(s.(purposeMechanism := Some(pm), updatedAt := now), PurposeNode(pm, now), now)
  }

  /** `setPlans`: every call, including the one after a refinement, adds a plans milestone. */
  function WithPlans(s: SessionState, plans: seq<Plan>, now: nat): (r: SessionState)
    ensures r.plans == Some(plans)
    ensures r == s.(plans := Some(plans), flowchartNodes := r.flowchartNodes, flowchartEdges := r.flowchartEdges, updatedAt := now)
    ensures |r.flowchartNodes| == |s.flowchartNodes| + 1 && r.flowchartNodes[..|s.flowchartNodes|] == s.flowchartNodes
    ensures var n := r.flowchartNodes[|s.flowchartNodes|];
      && n.id == NodeId(PlansMilestone, now) && n.nodeType == Process && n.step == ConversationStep.PlanGeneration
      && n.labelText == NatToString(|plans|) + "개 전략 생성" && n.data == Some(PlanCountData(|plans|))
  {
    WithNode(s.(plans := Some(plans), updatedAt := now), PlansNode(plans, now), now)
  }

  /** `selectPlan`: records the choice and its milestone; the step is left alone. */
  function WithSelectedPlan(s: SessionState, plan: Plan, now: nat): (r: SessionState)
    ensures r.selectedPlan == Some(plan) && r.currentStep == s.currentStep
    ensures r == s.(selectedPlan := Some(plan), flowchartNodes := r.flowchartNodes, flowchartEdges := r.flowchartEdges, updatedAt := now)
    ensures |r.flowchartNodes| == |s.flowchartNodes| + 1 && r.flowchartNodes[..|s.flowchartNodes|] == s.flowchartNodes
    ensures var n := r.flowchartNodes[|s.flowchartNodes|];
      && n.id == NodeId(SelectedMilestone, now) && n.nodeType == Decision && n.step == ConversationStep.PlanReview
      && n.labelText == "선택: " + plan.title && n.data == Some(PlanData(plan))
  {
    WithNode(s.(selectedPlan := Some(plan), updatedAt := now), SelectedNode(plan, now), now)
  }

  /** `toggleSummary`. */
  function WithSummaryToggled(s: SessionState, now: nat): SessionState {
    s.(showSummary := !s.showSummary, updatedAt := now)
  }

  /** `toggleFlowchart`. */
  function WithFlowchartToggled(s: SessionState, now: nat): SessionState {
    s.(showFlowchart := !s.showFlowchart, updatedAt := now)
  }

  /** Toggling a panel twice restores it. */
  lemma ToggleTwiceRestores(s: SessionState, t1: nat, t2: nat)
    ensures WithSummaryToggled(WithSummaryToggled(s, t1), t2) == s.(updatedAt := t2)
    ensures WithFlowchartToggled(WithFlowchartToggled(s, t1), t2) == s.(updatedAt := t2)
  {
  }

  /** `r` is `s` with one node of the given type and step appended, the flowchart still a
      chain, and the conversation (step and messages), the session's identity and its flags
      left alone. */
  predicate MilestoneAdded(s: SessionState, r: SessionState, nodeType: NodeType, step: ConversationStep, now: nat) {
    && IsChain(r.flowchartNodes, r.flowchartEdges)
    && |r.flowchartNodes| == |s.flowchartNodes| + 1
    && r.flowchartNodes[|s.flowchartNodes|].nodeType == nodeType
    && r.flowchartNodes[|s.flowchartNodes|].step == step
    && r.currentStep == s.currentStep && r.messages == s.messages
    && r.sessionId == s.sessionId && r.createdAt == s.createdAt && r.updatedAt == now
    && r.isLoading == s.isLoading && r.showSummary == s.showSummary && r.showFlowchart == s.showFlowchart
  }

  /** Every milestone action adds exactly one node and keeps the flowchart a chain: a decision
      for the classification and the selection, a process otherwise, each marked with the step
      its result belongs to. */
  lemma MilestonesKeepChain(s: SessionState, c: DeviceClassification, cat: ProductCategory,
                            pm: PurposeMechanism, plans: seq<Plan>, plan: Plan, now: nat)
    requires IsChain(s.flowchartNodes, s.flowchartEdges)
    ensures MilestoneAdded(s, WithClassification(s, c, now), Decision, ConversationStep.DeviceClassification, now)
    ensures MilestoneAdded(s, WithCategory(s, cat, now), Process, ConversationStep.ProductCategory, now)
    ensures MilestoneAdded(s, WithPurposeMechanism(s, pm, now), Process, ConversationStep.PurposeMechanism, now)
    ensures MilestoneAdded(s, WithPlans(s, plans, now), Process, PlanGeneration, now)
    ensures MilestoneAdded(s, WithSelectedPlan(s, plan, now), Decision, PlanReview, now)
  {
    WithNodeKeepsChain(s.(classification := Some(c), updatedAt := now), ClassificationNode(c, now), now);
    WithNodeKeepsChain(s.(category := Some(cat), updatedAt := now), CategoryNode(cat, now), now);
    WithNodeKeepsChain(s.(purposeMechanism := Some(pm), updatedAt := now), PurposeNode(pm, now), now);
    WithNodeKeepsChain(s.(plans := Some(plans), updatedAt := now), PlansNode(plans, now), now);
    WithNodeKeepsChain(s.(selectedPlan := Some(plan), updatedAt := now), SelectedNode(plan, now), now);
  }

  /** The storage contents after a reset whose storage calls each finish before the next
      starts: the old session is deleted, then the new one saved. */
  function ResetItems(items: Items, sessionCodec: Codec<SessionState>, indexCodec: Codec<seq<string>>,
                      oldId: string, next: SessionState, now: nat): Items {
    SavedItems(DeletedItems(items, indexCodec, oldId), sessionCodec, indexCodec, next, now)
  }

  /** The storage contents after `resetSession` as written. Neither storage call is awaited,
      so the delete and the save both read the index before either writes it; the delete's
      filtered index is written first and then overwritten by the save's, which was computed
      from the index that still lists the deleted id. */
  function ResetItemsAsWritten(items: Items, sessionCodec: Codec<SessionState>, indexCodec: Codec<seq<string>>,
                               oldId: string, next: SessionState, now: nat): Items {
    var removed := items - {SessionKey(oldId)};
    var deleteWrite := Without(ListIn(items, indexCodec), oldId);
    var written := WithRecord(removed, sessionCodec, next, now);
    var saveWrite := IndexWriteAfterSave(ListIn(removed, indexCodec), next.sessionId);
    WithIndexWrite(WithIndex(written, indexCodec, deleteWrite), indexCodec, saveWrite)
  }

  /** As written, a reset leaves the deleted session listed in the index although its record
      is gone, so the index no longer agrees with the records. */
  lemma ResetAsWrittenKeepsDeletedId(items: Items, sessionCodec: Codec<SessionState>, indexCodec: Codec<seq<string>>,
                                     oldId: string, next: SessionState, now: nat)
    requires Lawful(sessionCodec) && Lawful(indexCodec)
    requires oldId in ListIn(items, indexCodec)
    requires next.sessionId !in ListIn(items, indexCodec)
    ensures var after := ResetItemsAsWritten(items, sessionCodec, indexCodec, oldId, next, now);
      && oldId in ListIn(after, indexCodec)
      && SessionKey(oldId) !in after
      && LoadIn(after, sessionCodec, oldId) == None
      && !Consistent(after, indexCodec)
  {
    var ids := ListIn(items, indexCodec);
    var removed := items - {SessionKey(oldId)};
    SessionKeyNotListKey(oldId);
    SessionKeyNotListKey(next.sessionId);
    SessionKeyInjective(oldId, next.sessionId);
    assert ListIn(removed, indexCodec) == ids;
    assert indexCodec.decode(indexCodec.encode(ids + [next.sessionId])) == Some(ids + [next.sessionId]);
    var after := ResetItemsAsWritten(items, sessionCodec, indexCodec, oldId, next, now);
    assert ListIn(after, indexCodec) == ids + [next.sessionId];
    var i :| 0 <= i < |ids| && ids[i] == oldId;
    assert ListIn(after, indexCodec)[i] == oldId;
  }

  /** With each call finishing first, a reset keeps the index and the records in agreement;
      the old session is gone from both and the new one is in both. */
  lemma ResetKeepsConsistent(items: Items, sessionCodec: Codec<SessionState>, indexCodec: Codec<seq<string>>,
                             oldId: string, next: SessionState, now: nat)
    requires Lawful(sessionCodec) && Lawful(indexCodec)
    requires Consistent(items, indexCodec)
    requires next.sessionId != oldId
    ensures var after := ResetItems(items, sessionCodec, indexCodec, oldId, next, now);
      && Consistent(after, indexCodec)
      && oldId !in ListIn(after, indexCodec) && LoadIn(after, sessionCodec, oldId) == None
      && next.sessionId in ListIn(after, indexCodec)
      && LoadIn(after, sessionCodec, next.sessionId) == Some(Stamped(next, now))
  {
    var deleted := DeletedItems(items, indexCodec, oldId);
    DeleteKeepsConsistent(items, indexCodec, oldId);
    DeleteThenLoad(items, sessionCodec, indexCodec, oldId, oldId);
    SaveKeepsConsistent(deleted, sessionCodec, indexCodec, next, now);
    SaveThenLoad(deleted, sessionCodec, indexCodec, next, now, oldId);
  }

  /** The store (`useAppStore`). `storage` is the module's adapter, made once by the factory. */
  class Store {
    var session: Option<SessionState>
    const mode: AppMode
    var useMockMode: bool
    /** How many identifiers `uuidv4()` has handed out. */
    var nextSerial: nat
    const storage: Adapter

    function StorageObjects(): set<object>
      reads this
    {
      if storage.LocalAdapter? then {storage.local} else {}
    }

    /** On browser storage that accepts writes, the current session is what storage holds
        for its id, and its id is listed. */
    ghost predicate Persisted()
      reads this, StorageObjects()
    {
      storage.LocalAdapter? && !storage.local.quotaExceeded && session.Some? ==>
        && storage.local.LoadSession(session.value.sessionId) == Some(session.value)
        && session.value.sessionId in storage.local.ListSessions()
    }

    ghost predicate Valid()
      reads this, StorageObjects()
    {
      (storage.LocalAdapter? ==> storage.local.Valid()) && Persisted()
    }

    /** The contents of browser storage (nothing for the SQL adapter). */
    ghost function StoredItems(): Items
      reads this, StorageObjects()
    {
      if storage.LocalAdapter? then storage.local.items else map[]
    }

    /** What an action that ends by saving the current session leaves in browser storage:
        `before` with the session saved over it at `now` when there is a session and writes
        are accepted, and `before` itself otherwise. */
    ghost predicate SavedOver(before: Items, now: nat)
      reads this, StorageObjects()
    {
      storage.LocalAdapter? ==>
        storage.local.items == if session.Some? && !storage.local.quotaExceeded
                               then SavedItems(before, storage.local.sessionCodec, storage.local.indexCodec, session.value, now)
                               else before
    }

    /** The store as created: no session yet, mock mode as the environment says. */
    constructor(envUseMock: Option<string>, storage: Adapter)
      requires storage.LocalAdapter? ==> storage.local.Valid()
      ensures Valid()
      ensures session == None && nextSerial == 0 && this.storage == storage
      ensures useMockMode <==> envUseMock == Some("true")
      ensures mode == if envUseMock == Some("true") then Mock else Production
    {
      session := None;
      mode := if envUseMock == Some("true") then Mock else Production;
      useMockMode := envUseMock == Some("true");
      nextSerial := 0;
      this.storage := storage;
    }

    /** `storage.saveSession(s)`, not awaited: a failure is an unhandled rejection and changes
        nothing here. */
    method Save(s: SessionState, now: nat)
      requires storage.LocalAdapter? ==> storage.local.Valid()
      modifies StorageObjects()
      ensures storage.LocalAdapter? && !storage.local.quotaExceeded ==>
                storage.local.items == SavedItems(old(storage.local.items), storage.local.sessionCodec,
                                                  storage.local.indexCodec, s, now)
      ensures storage.LocalAdapter? && storage.local.quotaExceeded ==> storage.local.items == old(storage.local.items)
    {
      if storage.LocalAdapter? {
        var _ := storage.local.SaveSession(s, now);
      } else {
        var _ := storage.sql.SaveSession(s);
      }
    }

    /** Saving a session stamped with the time of saving makes it the persisted one. */
    method SaveCurrent(now: nat)
      requires storage.LocalAdapter? ==> storage.local.Valid()
      requires session.Some? && session.value.updatedAt == now
      modifies StorageObjects()
      ensures Valid()
      ensures SavedOver(old(StoredItems()), now)
    {
      Save(session.value, now);
      if storage.LocalAdapter? && !storage.local.quotaExceeded {
        SaveThenLoad(old(storage.local.items), storage.local.sessionCodec, storage.local.indexCodec,
                     session.value, now, session.value.sessionId);
      }
    }

    /** `updateSession(updates)`. */
    method UpdateSession(patch: SessionPatch, now: nat)
      requires Valid()
      modifies this, StorageObjects()
      ensures Valid()
      ensures session == if old(session).None? then None else Some(ApplyPatch(old(session).value, patch, now))
      ensures nextSerial == old(nextSerial) && useMockMode == old(useMockMode)
      ensures SavedOver(old(StoredItems()), now)
    {
      if session.None? {
        return;
      }
      session := Some(ApplyPatch(session.value, patch, now));
      SaveCurrent(now);
    }

    /** `addMessage`. */
    method AddMessage(role: Role, content: string, metadata: Option<Metadata>, now: nat)
      requires Valid()
      modifies this, StorageObjects()
      ensures Valid()
      ensures old(session).None? ==> session == None && nextSerial == old(nextSerial)
      ensures old(session).Some? ==>
                var t := WithMessage(Turn(old(session).value, old(nextSerial)), role, content, metadata, now);
                session == Some(t.session) && nextSerial == t.serial
      ensures useMockMode == old(useMockMode)
      ensures SavedOver(old(StoredItems()), now)
    {
      if session.None? {
        return;
      }
      var newMessage := Message(Uuid(nextSerial), role, content, now, metadata);
      nextSerial := nextSerial + 1;
      UpdateSession(MessagesPatch(session.value.messages + [newMessage]), now);
    }

    /** `setStep`. */
    method SetStep(step: ConversationStep, now: nat)
      requires Valid()
      modifies this, StorageObjects()
      ensures Valid()
      ensures session == if old(session).None? then None else Some(WithStep(old(session).value, step, now))
      ensures nextSerial == old(nextSerial) && useMockMode == old(useMockMode)
      ensures SavedOver(old(StoredItems()), now)
    {
      UpdateSession(StepPatch(step), now);
    }

    /** `setLoading`. */
    method SetLoading(loading: bool, now: nat)
      requires Valid()
      modifies this, StorageObjects()
      ensures Valid()
      ensures session == if old(session).None? then None else Some(WithLoading(old(session).value, loading, now))
      ensures nextSerial == old(nextSerial) && useMockMode == old(useMockMode)
      ensures SavedOver(old(StoredItems()), now)
    {
      UpdateSession(LoadingPatch(loading), now);
    }

    /** `addFlowchartEdge`. */
    method AddFlowchartEdge(edge: FlowchartEdge, now: nat)
      requires Valid()
      modifies this, StorageObjects()
      ensures Valid()
      ensures session == if old(session).None? then None else Some(WithEdge(old(session).value, edge, now))
      ensures nextSerial == old(nextSerial) && useMockMode == old(useMockMode)
      ensures SavedOver(old(StoredItems()), now)
    {
      if session.None? {
        return;
      }
      UpdateSession(EdgesPatch(session.value.flowchartEdges + [edge]), now);
    }

    /** `addFlowchartNode`. */
    method AddFlowchartNode(node: FlowchartNode, now: nat)
      requires Valid()
      modifies this, StorageObjects()
      ensures Valid()
      ensures session == if old(session).None? then None else Some(WithNode(old(session).value, node, now))
      ensures nextSerial == old(nextSerial) && useMockMode == old(useMockMode)
      ensures SavedOver(old(StoredItems()), now)
    {
      if session.None? {
        return;
      }
      var currentSession := session.value;
      var updatedNodes := currentSession.flowchartNodes + [node];
      ghost var before := StoredItems();
      if |currentSession.flowchartNodes| > 0 {
        var prevNode := currentSession.flowchartNodes[|currentSession.flowchartNodes| - 1];
        AddFlowchartEdge(FlowchartEdge(prevNode.id, node.id, None), now);
        ghost var linked := session.value;
        UpdateSession(NodesPatch(updatedNodes), now);
        assert session.value == WithNode(currentSession, node, now);
        if storage.LocalAdapter? && !storage.local.quotaExceeded {
          SaveOverSave(before, storage.local.sessionCodec, storage.local.indexCodec, linked, now, session.value, now);
        }
      } else {
        UpdateSession(NodesPatch(updatedNodes), now);
        assert session.value == WithNode(currentSession, node, now);
      }
    }

    /** `setClassification`. */
    method SetClassification(c: DeviceClassification, now: nat)
      requires Valid()
      modifies this, StorageObjects()
      ensures Valid()
      ensures session == if old(session).None? then None else Some(WithClassification(old(session).value, c, now))
      ensures nextSerial == old(nextSerial) && useMockMode == old(useMockMode)
      ensures SavedOver(old(StoredItems()), now)
    {
      if session.None? {
        return;
      }
      ghost var before := StoredItems();
      UpdateSession(NoChange.(classification := Some(Some(c))), now);
      ghost var recorded := session.value;
      AddFlowchartNode(ClassificationNode(c, now), now);
      if storage.LocalAdapter? && !storage.local.quotaExceeded {
        SaveOverSave(before, storage.local.sessionCodec, storage.local.indexCodec, recorded, now, session.value, now);
      }
    }

    /** `setCategory`. */
    method SetCategory(c: ProductCategory, now: nat)
      requires Valid()
      modifies this, StorageObjects()
      ensures Valid()
      ensures session == if old(session).None? then None else Some(WithCategory(old(session).value, c, now))
      ensures nextSerial == old(nextSerial) && useMockMode == old(useMockMode)
      ensures SavedOver(old(StoredItems()), now)
    {
      if session.None? {
        return;
      }
      ghost var before := StoredItems();
      UpdateSession(NoChange.(category := Some(Some(c))), now);
      ghost var recorded := session.value;
      AddFlowchartNode(CategoryNode(c, now), now);
      if storage.LocalAdapter? && !storage.local.quotaExceeded {
        SaveOverSave(before, storage.local.sessionCodec, storage.local.indexCodec, recorded, now, session.value, now);
      }
    }

    /** `setPurposeMechanism`. */
    method SetPurposeMechanism(pm: PurposeMechanism, now: nat)
      requires Valid()
      modifies this, StorageObjects()
      ensures Valid()
      ensures session == if old(session).None? then None else Some(WithPurposeMechanism(old(session).value, pm, now))
      ensures nextSerial == old(nextSerial) && useMockMode == old(useMockMode)
      ensures SavedOver(old(StoredItems()), now)
    {
      if session.None? {
        return;
      }
      ghost var before := StoredItems();
      UpdateSession(NoChange.(purposeMechanism := Some(Some(pm))), now);
      ghost var recorded := session.value;
      AddFlowchartNode(PurposeNode(pm, now), now);
      if storage.LocalAdapter? && !storage.local.quotaExceeded {
        SaveOverSave(before, storage.local.sessionCodec, storage.local.indexCodec, recorded, now, session.value, now);
      }
    }

    /** `setPlans`. */
    method SetPlans(plans: seq<Plan>, now: nat)
      requires Valid()
      modifies this, StorageObjects()
      ensures Valid()
      ensures session == if old(session).None? then None else Some(WithPlans(old(session).value, plans, now))
      ensures nextSerial == old(nextSerial) && useMockMode == old(useMockMode)
      ensures SavedOver(old(StoredItems()), now)
    {
      if session.None? {
        return;
      }
      ghost var before := StoredItems();
      UpdateSession(NoChange.(plans := Some(Some(plans))), now);
      ghost var recorded := session.value;
      AddFlowchartNode(PlansNode(plans, now), now);
      if storage.LocalAdapter? && !storage.local.quotaExceeded {
        SaveOverSave(before, storage.local.sessionCodec, storage.local.indexCodec, recorded, now, session.value, now);
      }
    }

    /** `selectPlan`. */
    method SelectPlan(plan: Plan, now: nat)
      requires Valid()
      modifies this, StorageObjects()
      ensures Valid()
      ensures session == if old(session).None? then None else Some(WithSelectedPlan(old(session).value, plan, now))
      ensures nextSerial == old(nextSerial) && useMockMode == old(useMockMode)
      ensures SavedOver(old(StoredItems()), now)
    {
      if session.None? {
        return;
      }
      ghost var before := StoredItems();
      UpdateSession(NoChange.(selectedPlan := Some(Some(plan))), now);
      ghost var recorded := session.value;
      AddFlowchartNode(SelectedNode(plan, now), now);
      if storage.LocalAdapter? && !storage.local.quotaExceeded {
        SaveOverSave(before, storage.local.sessionCodec, storage.local.indexCodec, recorded, now, session.value, now);
      }
    }

    /** `toggleSummary`. */
    method ToggleSummary(now: nat)
      requires Valid()
      modifies this, StorageObjects()
      ensures Valid()
      ensures session == if old(session).None? then None else Some(WithSummaryToggled(old(session).value, now))
      ensures nextSerial == old(nextSerial) && useMockMode == old(useMockMode)
      ensures SavedOver(old(StoredItems()), now)
    {
      if session.None? {
        return;
      }
      UpdateSession(NoChange.(showSummary := Some(!session.value.showSummary)), now);
    }

    /** `toggleFlowchart`. */
    method ToggleFlowchart(now: nat)
      requires Valid()
      modifies this, StorageObjects()
      ensures Valid()
      ensures session == if old(session).None? then None else Some(WithFlowchartToggled(old(session).value, now))
      ensures nextSerial == old(nextSerial) && useMockMode == old(useMockMode)
      ensures SavedOver(old(StoredItems()), now)
    {
      if session.None? {
        return;
      }
      UpdateSession(NoChange.(showFlowchart := Some(!session.value.showFlowchart)), now);
    }

    /** `initSession`: a fresh session replaces the current one and is saved. */
    method InitSession(now: nat)
      requires Valid()
      modifies this, StorageObjects()
      ensures Valid()
      ensures session == Some(InitialSession(Uuid(old(nextSerial)), now))
      ensures nextSerial == old(nextSerial) + 1 && useMockMode == old(useMockMode)
      ensures SavedOver(old(StoredItems()), now)
    {
      var s := InitialSession(Uuid(nextSerial), now);
      nextSerial := nextSerial + 1;
      session := Some(s);
      SaveCurrent(now);
    }

    /** `storage.deleteSession(id)`, not awaited. */
    method Delete(id: string)
      requires storage.LocalAdapter? ==> storage.local.Valid()
      modifies StorageObjects()
      ensures storage.LocalAdapter? && !storage.local.quotaExceeded ==>
                storage.local.items == DeletedItems(old(storage.local.items), storage.local.indexCodec, id)
      ensures storage.LocalAdapter? && storage.local.quotaExceeded ==>
                storage.local.items == old(storage.local.items) - {SessionKey(id)}
    {
      if storage.LocalAdapter? {
        var _ := storage.local.DeleteSession(id);
      } else {
        var _ := storage.sql.DeleteSession(id);
      }
    }

    /** `resetSession`: the current session is deleted from storage and a fresh one started.
        The delete runs to completion before the save of the new session. */
    method ResetSession(now: nat)
      requires Valid()
      modifies this, StorageObjects()
      ensures Valid()
      ensures session == Some(InitialSession(Uuid(old(nextSerial)), now))
      ensures nextSerial == old(nextSerial) + 1 && useMockMode == old(useMockMode)
      ensures storage.LocalAdapter? && !storage.local.quotaExceeded && old(session).Some? ==>
                storage.local.items == ResetItems(old(storage.local.items), storage.local.sessionCodec,
                                                  storage.local.indexCodec, old(session).value.sessionId,
                                                  session.value, now)
      ensures storage.LocalAdapter? && !storage.local.quotaExceeded && old(session).None? ==>
                storage.local.items == SavedItems(old(storage.local.items), storage.local.sessionCodec,
                                                  storage.local.indexCodec, session.value, now)
      ensures storage.LocalAdapter? && storage.local.quotaExceeded ==>
                storage.local.items == old(storage.local.items)
                                       - (if old(session).Some? then {SessionKey(old(session).value.sessionId)} else {})
    {
      if session.Some? {
        Delete(session.value.sessionId);
        session := None;
      }
      InitSession(now);
    }

    /** `toggleMockMode`: flips the flag and starts over with a fresh session, deleting the old
        one from storage and saving the new one as a reset does. */
    method ToggleMockMode(now: nat)
      requires Valid()
      modifies this, StorageObjects()
      ensures Valid()
      ensures useMockMode == !old(useMockMode)
      ensures session == Some(InitialSession(Uuid(old(nextSerial)), now))
      ensures nextSerial == old(nextSerial) + 1
      ensures storage.LocalAdapter? && !storage.local.quotaExceeded && old(session).Some? ==>
                storage.local.items == ResetItems(old(storage.local.items), storage.local.sessionCodec,
                                                  storage.local.indexCodec, old(session).value.sessionId,
                                                  session.value, now)
      ensures storage.LocalAdapter? && !storage.local.quotaExceeded && old(session).None? ==>
                storage.local.items == SavedItems(old(storage.local.items), storage.local.sessionCodec,
                                                  storage.local.indexCodec, session.value, now)
      ensures storage.LocalAdapter? && storage.local.quotaExceeded ==>
                storage.local.items == old(storage.local.items)
                                       - (if old(session).Some? then {SessionKey(old(session).value.sessionId)} else {})
    {
      useMockMode := !useMockMode;
      ResetSession(now);
    }
  }
}
