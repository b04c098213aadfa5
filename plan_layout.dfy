/** The plan panel (components/plans/PlanLayout.tsx): which plan is open, confirming it, and
    asking the client to refine it. */
module PlanLayout {
  import opened Wrappers
  import opened Strings
  import opened Types
  import opened DummyData
  import opened ApiClient
  import opened AppStore

  // ---------------------------------------------------------------------------------------
  // The selected plan and the plan list after a refinement
  // ---------------------------------------------------------------------------------------

  /** `session.plans.find((p) => p.id === selectedPlanId) || null`: the first plan with the
      selected id, and nothing when no id is selected or no plan has it. */
  function SelectedPlan(plans: seq<Plan>, selectedPlanId: Option<string>): (r: Option<Plan>)
    ensures r.Some? <==> selectedPlanId.Some? && exists i :: 0 <= i < |plans| && plans[i].id == selectedPlanId.value
    ensures r.Some? ==> r.value in plans && r.value.id == selectedPlanId.value
  {
    if selectedPlanId.None? then None else FindPlan(plans, selectedPlanId.value)
  }

  /** `plans.map((p) => p.id === id ? refined : p)`. */
  function ReplacePlan(plans: seq<Plan>, id: string, refined: Plan): seq<Plan> {
    if plans == [] then []
    else [if plans[0].id == id then refined else plans[0]] + ReplacePlan(plans[1..], id, refined)
  }

  /** The refined plan takes the place of every plan with the id; the list keeps its length and
      its order, and every other plan stays where it was. */
  lemma {:induction false} ReplacePlanAt(plans: seq<Plan>, id: string, refined: Plan)
    ensures |ReplacePlan(plans, id, refined)| == |plans|
    ensures forall i :: 0 <= i < |plans| ==>
              ReplacePlan(plans, id, refined)[i] == if plans[i].id == id then refined else plans[i]
  {
    if plans != [] {
      ReplacePlanAt(plans[1..], id, refined);
      var r := ReplacePlan(plans, id, refined);
      forall i | 0 <= i < |plans|
        ensures r[i] == if plans[i].id == id then refined else plans[i]
      {
        if i > 0 {
          assert r[i] == ReplacePlan(plans[1..], id, refined)[i - 1];
        }
      }
    }
  }

  /** A list without the id is left as it is. */
  lemma ReplaceAbsent(plans: seq<Plan>, id: string, refined: Plan)
    requires forall i :: 0 <= i < |plans| ==> plans[i].id != id
    ensures ReplacePlan(plans, id, refined) == plans
  {
    ReplacePlanAt(plans, id, refined);
  }

  /** After a refinement that keeps the plan's id, opening that id shows the refined plan. */
  lemma ReplacedIsSelected(plans: seq<Plan>, id: string, refined: Plan)
    requires refined.id == id
    requires exists i :: 0 <= i < |plans| && plans[i].id == id
    ensures SelectedPlan(ReplacePlan(plans, id, refined), Some(id)) == Some(refined)
  {
    ReplacePlanAt(plans, id, refined);
    var r := ReplacePlan(plans, id, refined);
    var k :| 0 <= k < |plans| && plans[k].id == id;
    assert r[k].id == id;
    var found := FindPlan(r, id).value;
    var i :| 0 <= i < |r| && r[i] == found && found.id == id;
    assert r[i].id == id;
  }

  /** A second refinement of the same plan replaces the first one: refinements do not pile up
      in the list. */
  lemma ReplaceTwice(plans: seq<Plan>, id: string, first: Plan, second: Plan)
    requires first.id == id
    ensures ReplacePlan(ReplacePlan(plans, id, first), id, second) == ReplacePlan(plans, id, second)
  {
    var once := ReplacePlan(plans, id, first);
    ReplacePlanAt(plans, id, first);
    ReplacePlanAt(once, id, second);
    ReplacePlanAt(plans, id, second);
    forall i | 0 <= i < |plans|
      ensures ReplacePlan(once, id, second)[i] == ReplacePlan(plans, id, second)[i]
    {
      if plans[i].id == id {
        assert once[i] == first;
      } else {
        assert once[i] == plans[i];
      }
    }
  }

  // ---------------------------------------------------------------------------------------
  // What the handlers do to the session
  // ---------------------------------------------------------------------------------------

  const RefinedNotice := "플랜을 수정했습니다. 변경 사항을 확인해주세요."
  const RefineError := "플랜 수정 중 오류가 발생했습니다. 다시 시도해 주세요."

  /** The confirmation question, which names the plan. */
  function ConfirmText(plan: Plan): string {
    plan.title + " 플랜을 선택하셨습니다. 이 플랜으로 진행하시겠습니까?"
  }

  /** `handleConfirmPlan` with a plan open: `selectPlan`, the question, then the last step. */
  function Confirmed(t: Turn, plan: Plan, now: nat): Turn {
    var t1 := Turn(WithSelectedPlan(t.session, plan, now), t.serial);
    var t2 := WithMessage(t1, Assistant, ConfirmText(plan), None, now);
    Turn(WithStep(t2.session, FinalConfirmation, now), t2.serial)
  }

  /** Confirming records the plan and its milestone, adds one question naming the plan and
      moves to FINAL_CONFIRMATION; the plan list and the earlier messages stay, and the
      flowchart stays a chain. */
  lemma ConfirmedEffect(t: Turn, plan: Plan, now: nat)
    requires IsChain(t.session.flowchartNodes, t.session.flowchartEdges)
    ensures var r := Confirmed(t, plan, now).session;
      && r.selectedPlan == Some(plan)
      && r.currentStep == FinalConfirmation
      && r.plans == t.session.plans
      && r.messages == t.session.messages + [Message(Uuid(t.serial), Assistant, ConfirmText(plan), now, None)]
      && Contains(ConfirmText(plan), plan.title)
      && |r.flowchartNodes| == |t.session.flowchartNodes| + 1
      && IsChain(r.flowchartNodes, r.flowchartEdges)
  {
    var s := t.session;
    WithNodeKeepsChain(s.(selectedPlan := Some(plan), updatedAt := now), SelectedNode(plan, now), now);
    assert IsPrefix(plan.title, ConfirmText(plan));
  }

  /** The request `handleModifyPlan` sends: the open plan's id, the requested changes and the
      session's results. */
  function RefineRequest(s: SessionState, plan: Plan, modifications: string): RefinePlanRequest {
    RefinePlanRequest(plan.id, modifications, RefineContext(s.classification, s.category, s.purposeMechanism))
  }

  /** `handleModifyPlan` on a session with plans once the client has answered: loading on at
      `now`; on success one notice carrying the refined plan and the list with the refined plan
      in place (`setPlans`); on failure one error message; loading off at `later`. */
  function Modified(t: Turn, plan: Plan, reply: Result<RefinePlanResponse, string>, now: nat, later: nat): Turn
    requires t.session.plans.Some?
  {
    var t0 := Turn(WithLoading(t.session, true, now), t.serial);
    var t2 := Answered(t0, t.session.plans.value, plan, reply, later);
    Turn(WithLoading(t2.session, false, later), t2.serial)
  }

  /** The client's answer taken in: on success the notice and the list `plans` with the
      refined plan in place of `plan`; on failure the error message. */
  function Answered(t: Turn, plans: seq<Plan>, plan: Plan, reply: Result<RefinePlanResponse, string>, later: nat): Turn {
    match reply
    case Success(response) =>
      var t1 := WithMessage(t, Assistant, RefinedNotice, Some(ModifiedPlanMeta(response.plan)), later);
      Turn(WithPlans(t1.session, ReplacePlan(plans, plan.id, response.plan), later), t1.serial)
    case Failure(_) => WithMessage(t, Assistant, RefineError, None, later)
  }

  /** A successful refinement adds one notice, puts the refined plan in place of the open one,
      adds the plans milestone, keeps the step and ends with loading off. */
  lemma ModifiedOnSuccess(t: Turn, plan: Plan, response: RefinePlanResponse, now: nat, later: nat)
    requires t.session.plans.Some?
    requires IsChain(t.session.flowchartNodes, t.session.flowchartEdges)
    ensures var r := Modified(t, plan, Success(response), now, later).session;
      && r.plans == Some(ReplacePlan(t.session.plans.value, plan.id, response.plan))
      && r.messages == t.session.messages
                       + [Message(Uuid(t.serial), Assistant, RefinedNotice, later, Some(ModifiedPlanMeta(response.plan)))]
      && |r.flowchartNodes| == |t.session.flowchartNodes| + 1
      && IsChain(r.flowchartNodes, r.flowchartEdges)
      && r.currentStep == t.session.currentStep
      && r.selectedPlan == t.session.selectedPlan
      && !r.isLoading
  {
    var t0 := Turn(WithLoading(t.session, true, now), t.serial);
    var t1 := WithMessage(t0, Assistant, RefinedNotice, Some(ModifiedPlanMeta(response.plan)), later);
    var plans := ReplacePlan(t.session.plans.value, plan.id, response.plan);
    WithNodeKeepsChain(t1.session.(plans := Some(plans), updatedAt := later), PlansNode(plans, later), later);
  }

  /** A failed refinement adds one error message and changes nothing else but the loading
      flag, which ends off. */
  lemma ModifiedOnFailure(t: Turn, plan: Plan, error: string, now: nat, later: nat)
    requires t.session.plans.Some?
    ensures var r := Modified(t, plan, Failure(error), now, later);
      r.session == t.session.(messages := t.session.messages + [Message(Uuid(t.serial), Assistant, RefineError, later, None)],
                              isLoading := false, updatedAt := later)
      && r.serial == t.serial + 1
  {
  }

  /** In mock mode, refining a fixture plan replaces it, in its place, by the fixture with the
      request's note appended to its description; the other plans are untouched. A plan id the
      fixtures do not hold yields only the error message. */
  lemma MockModification(t: Turn, plan: Plan, modifications: string, api: Api, now: nat, later: nat)
    requires t.session.plans.Some? && api.useMock && HasMockPlanIds(api.mocks.plans)
    ensures var reply := RefinePlan(api, RefineRequest(t.session, plan, modifications));
      var r := Modified(t, plan, reply, now, later).session;
      var fixtures := api.mocks.plans;
      && (plan.id in MockPlanIds ==>
            exists k :: 0 <= k < |fixtures| && fixtures[k].id == plan.id
              && r.plans == Some(ReplacePlan(t.session.plans.value, plan.id,
                                             fixtures[k].(description := fixtures[k].description + RefinementNote(modifications)))))
      && (plan.id !in MockPlanIds ==> r.plans == t.session.plans && r.messages[|r.messages| - 1].content == RefineError)
  {
    var request := RefineRequest(t.session, plan, modifications);
    MockRefineMeaning(api, request);
    var reply := RefinePlan(api, request);
    var fixtures := api.mocks.plans;
    if plan.id in MockPlanIds {
      var k :| 0 <= k < |fixtures| && fixtures[k].id == plan.id
               && reply.value.plan == fixtures[k].(description := fixtures[k].description + RefinementNote(modifications));
      assert Modified(t, plan, reply, now, later).session.plans
          == Some(ReplacePlan(t.session.plans.value, plan.id, reply.value.plan));
    }
  }

  // ---------------------------------------------------------------------------------------
  // The component
  // ---------------------------------------------------------------------------------------

  /** The plan panel: the store it reads, the client it asks, and the id of the open plan
      (`selectedPlanId`, local state). */
  class PlanLayout {
    const store: Store
    const client: MockModeSwitch
    var selectedPlanId: Option<string>

    constructor(store: Store, client: MockModeSwitch)
      ensures this.store == store && this.client == client && selectedPlanId == None
    {
      this.store := store;
      this.client := client;
      selectedPlanId := None;
    }

    /** The open plan; none while the session has no plans (the panel then shows only a
        waiting text and offers no handlers). */
    function Selected(): Option<Plan>
      reads this, store
    {
      if store.session.Some? && store.session.value.plans.Some?
      then SelectedPlan(store.session.value.plans.value, selectedPlanId)
      else None
    }

    /** The detail view shows exactly when a plan is open; otherwise the list does. */
    predicate ShowsDetail()
      reads this, store
    {
      Selected().Some?
    }

    function Current(): Turn
      reads store
      requires store.session.Some?
    {
      Turn(store.session.value, store.nextSerial)
    }

    /** `handleSelectPlan`: clicking a card opens that plan. */
    method HandleSelectPlan(plan: Plan)
      modifies this
      ensures selectedPlanId == Some(plan.id)
      ensures store.session.Some? && store.session.value.plans.Some? && plan in store.session.value.plans.value ==>
                ShowsDetail() && Selected().value.id == plan.id
    {
      selectedPlanId := Some(plan.id);
      if store.session.Some? && store.session.value.plans.Some? && plan in store.session.value.plans.value {
        var plans := store.session.value.plans.value;
        var i :| 0 <= i < |plans| && plans[i] == plan;
        assert plans[i].id == plan.id;
      }
    }

    /** The detail view's back button: the selection is cleared and the list shows again. */
    method Back()
      modifies this
      ensures selectedPlanId == None && !ShowsDetail()
    {
      selectedPlanId := None;
    }

    /** `handleConfirmPlan`: nothing without an open plan. */
    method HandleConfirmPlan(now: nat)
      requires store.Valid()
      modifies store, store.StorageObjects()
      ensures store.Valid() && store.useMockMode == old(store.useMockMode)
      ensures old(Selected()).None? ==> store.session == old(store.session) && store.nextSerial == old(store.nextSerial)
      ensures old(Selected()).Some? ==>
                var r := Confirmed(Turn(old(store.session).value, old(store.nextSerial)), old(Selected()).value, now);
                store.session == Some(r.session) && store.nextSerial == r.serial
    {
      var selectedPlan := Selected();
      if selectedPlan.None? {
        return;
      }
      store.SelectPlan(selectedPlan.value, now);
      store.AddMessage(Assistant, ConfirmText(selectedPlan.value), None, now);
      store.SetStep(FinalConfirmation, now);
    }

    /** `handleModifyPlan(modifications)`: nothing without an open plan; otherwise the session
        ends as `Modified` says for the client's answer (the mock switch read when the request
        is sent), with the answer arriving at `later`. */
    method HandleModifyPlan(modifications: string, backend: Backend, now: nat, later: nat)
      requires store.Valid()
      modifies store, store.StorageObjects()
      ensures store.Valid() && store.useMockMode == old(store.useMockMode)
      ensures old(Selected()).None? ==> store.session == old(store.session) && store.nextSerial == old(store.nextSerial)
      ensures old(Selected()).Some? ==>
                var t := Turn(old(store.session).value, old(store.nextSerial));
                var plan := old(Selected()).value;
                var reply := RefinePlan(Api(client.ShouldUseMock(), backend, client.mocks), RefineRequest(t.session, plan, modifications));
                var r := Modified(t, plan, reply, now, later);
                store.session == Some(r.session) && store.nextSerial == r.serial
    {
      var selectedPlan := Selected();
      if selectedPlan.None? {
        return;
      }
      var plan := selectedPlan.value;
      var api := Api(client.ShouldUseMock(), backend, client.mocks);
      var reply := RefinePlan(api, RefineRequest(store.session.value, plan, modifications));
      Modify(plan, reply, now, later);
      assert client.ShouldUseMock() == api.useMock;
    }

    /** Loading on, the answer taken in, loading off. */
    method Modify(plan: Plan, reply: Result<RefinePlanResponse, string>, now: nat, later: nat)
      requires store.Valid() && store.session.Some? && store.session.value.plans.Some?
      modifies store, store.StorageObjects()
      ensures store.Valid() && store.session.Some? && store.useMockMode == old(store.useMockMode)
      ensures Current() == Modified(old(Current()), plan, reply, now, later)
    {
      var plans := store.session.value.plans.value;
      store.SetLoading(true, now);
      Answer(plans, plan, reply, later);
      store.SetLoading(false, later);
    }

    /** The client's answer taken in. */
    method Answer(plans: seq<Plan>, plan: Plan, reply: Result<RefinePlanResponse, string>, later: nat)
      requires store.Valid() && store.session.Some?
      modifies store, store.StorageObjects()
      ensures store.Valid() && store.session.Some? && store.useMockMode == old(store.useMockMode)
      ensures Current() == Answered(old(Current()), plans, plan, reply, later)
    {
      if reply.Success? {
        store.AddMessage(Assistant, RefinedNotice, Some(ModifiedPlanMeta(reply.value.plan)), later);
        store.SetPlans(ReplacePlan(plans, plan.id, reply.value.plan), later);
      } else {
        store.AddMessage(Assistant, RefineError, None, later);
      }
    }
  }
}
