/** The API client (lib/api/client.ts): every operation answers from the fixtures in mock mode
    and otherwise posts to the backend, turning any failure into one fixed message. */
module ApiClient {
  import opened Wrappers
  import opened Strings
  import opened Types
  import opened Endpoints
  import opened DummyData

  /** The backend as the client sees it: for each endpoint, the response body, or `None` when
      the request fails in any way (network, timeout, error status). Delays and the 30-second
      axios timeout are not modelled. */
  datatype Backend = Backend(
    classify: ClassifyDeviceRequest -> Option<ClassifyDeviceResponse>,
    purposeMechanism: (string, string) -> Option<PurposeMechanism>,
    standards: GeneratePlansRequest -> Option<GeneratePlansResponse>,
    refine: RefinePlanRequest -> Option<RefinePlanResponse>)

  /** What one call of the client sees: whether it runs in mock mode, the backend, and the
      fixtures the module answers with in mock mode. */
  datatype Api = Api(useMock: bool, backend: Backend, mocks: Fixtures)

  const ClassifyFailed := "Failed to classify device. Please try again."
  const PurposeFailed := "Failed to generate purpose/mechanism. Please try again."
  const PlansFailed := "Failed to generate plans. Please try again."
  const RefineFailed := "Failed to refine plan. Please try again."
  const PlanNotFound := "Plan not found"

  /** The module-level state of the client. `mockModeGetter` is the registered getter, modelled
      by the value it returns (the page registers `() => useMockMode` again whenever the flag
      changes); `envUseMock` is `NEXT_PUBLIC_USE_MOCK === 'true'`; `mocks` are the fixtures the
      module imports. */
  class MockModeSwitch {
    var mockModeGetter: Option<bool>
    const envUseMock: bool
    const mocks: Fixtures

    constructor(env: Option<string>)
      ensures mockModeGetter == None
      ensures envUseMock <==> env == Some("true")
      ensures mocks == MockFixtures()
    {
      mockModeGetter := None;
      envUseMock := env == Some("true");
      mocks := MockFixtures();
    }

    /** `setMockModeGetter`: replaces the registered getter. */
    method SetMockModeGetter(value: bool)
      modifies this
      ensures mockModeGetter == Some(value)
    {
      mockModeGetter := Some(value);
    }

    /** `shouldUseMock`: the registered getter wins; without one the environment decides. */
    function ShouldUseMock(): (useMock: bool)
      reads this
      ensures mockModeGetter.Some? ==> useMock == mockModeGetter.value
      ensures mockModeGetter.None? ==> (useMock <==> envUseMock)
    {
      if mockModeGetter.Some? then mockModeGetter.value else envUseMock
    }
  }

  /** Once a getter is registered, the environment no longer matters. */
  lemma RegisteredGetterDecides(s: MockModeSwitch, value: bool)
    requires s.mockModeGetter == Some(value)
    ensures s.ShouldUseMock() == value
  {
  }

  /** The URL each operation posts to (`getApiUrl(API_ENDPOINTS.X)`). */
  function ClassifyUrl(env: Option<string>): string { GetApiUrl(env, Classify) }
  function PurposeUrl(env: Option<string>): string { GetApiUrl(env, Purpose) }
  function StandardsUrl(env: Option<string>): string { GetApiUrl(env, Standards) }
  function RefineUrl(env: Option<string>): string { GetApiUrl(env, Refine) }

  /** The four operations post to four different URLs under the same base. */
  lemma OperationUrlsDistinct(env: Option<string>)
    ensures |{ClassifyUrl(env), PurposeUrl(env), StandardsUrl(env), RefineUrl(env)}| == 4
  {
    GetApiUrlInjective(env, Classify, Purpose);
    GetApiUrlInjective(env, Classify, Standards);
    GetApiUrlInjective(env, Classify, Refine);
    GetApiUrlInjective(env, Purpose, Standards);
    GetApiUrlInjective(env, Purpose, Refine);
    GetApiUrlInjective(env, Standards, Refine);
  }

  /** `classifyDevice`. */
  function ClassifyDevice(api: Api, request: ClassifyDeviceRequest)
    : (r: Result<ClassifyDeviceResponse, string>)
    ensures api.useMock ==> r == Success(ClassifyDeviceResponse(api.mocks.classification, api.mocks.categories))
    ensures !api.useMock && api.backend.classify(request).Some? ==> r == Success(api.backend.classify(request).value)
    ensures !api.useMock && api.backend.classify(request).None? ==> r == Failure(ClassifyFailed)
  {
    if api.useMock then Success(ClassifyDeviceResponse(api.mocks.classification, api.mocks.categories))
    else match api.backend.classify(request)
      case Some(response) => Success(response)
      case None => Failure(ClassifyFailed)
  }

  /** `generatePurposeMechanism(concept, category)`. */
  function GeneratePurposeMechanism(api: Api, concept: string, category: string)
    : (r: Result<PurposeMechanism, string>)
    ensures api.useMock ==> r == Success(api.mocks.purposeMechanism)
    ensures !api.useMock && api.backend.purposeMechanism(concept, category).Some? ==>
              r == Success(api.backend.purposeMechanism(concept, category).value)
    ensures !api.useMock && api.backend.purposeMechanism(concept, category).None? ==> r == Failure(PurposeFailed)
  {
    if api.useMock then Success(api.mocks.purposeMechanism)
    else match api.backend.purposeMechanism(concept, category)
      case Some(response) => Success(response)
      case None => Failure(PurposeFailed)
  }

  /** `generatePlans`. */
  function GeneratePlans(api: Api, request: GeneratePlansRequest)
    : (r: Result<GeneratePlansResponse, string>)
    ensures api.useMock ==> r == Success(GeneratePlansResponse(api.mocks.plans))
    ensures !api.useMock && api.backend.standards(request).Some? ==> r == Success(api.backend.standards(request).value)
    ensures !api.useMock && api.backend.standards(request).None? ==> r == Failure(PlansFailed)
  {
    if api.useMock then Success(GeneratePlansResponse(api.mocks.plans))
    else match api.backend.standards(request)
      case Some(response) => Success(response)
      case None => Failure(PlansFailed)
  }

  /** In mock mode the answers come from the fixtures alone: the request and the backend play
      no part, except that a refinement depends on the plan id and the modifications; and only
      a refinement can fail. */
  lemma MockIgnoresRequestAndBackend(a1: Api, a2: Api, c1: ClassifyDeviceRequest, c2: ClassifyDeviceRequest,
                                     concept1: string, category1: string, concept2: string, category2: string,
                                     g1: GeneratePlansRequest, g2: GeneratePlansRequest,
                                     r1: RefinePlanRequest, r2: RefinePlanRequest)
    requires a1.useMock && a2.useMock && a1.mocks == a2.mocks
    ensures ClassifyDevice(a1, c1) == ClassifyDevice(a2, c2) && ClassifyDevice(a1, c1).Success?
    ensures GeneratePurposeMechanism(a1, concept1, category1) == GeneratePurposeMechanism(a2, concept2, category2)
    ensures GeneratePurposeMechanism(a1, concept1, category1).Success?
    ensures GeneratePlans(a1, g1) == GeneratePlans(a2, g2) && GeneratePlans(a1, g1).Success?
    ensures r1.planId == r2.planId && r1.modifications == r2.modifications ==> RefinePlan(a1, r1) == RefinePlan(a2, r2)
  {
  }

  /** `Array.prototype.find` on plan ids: the first plan with the id. */
  function FindPlan(plans: seq<Plan>, id: string): (r: Option<Plan>)
    ensures r.Some? <==> exists i :: 0 <= i < |plans| && plans[i].id == id
    ensures r.Some? ==> exists i :: 0 <= i < |plans| && plans[i] == r.value && r.value.id == id
                          && forall j :: 0 <= j < i ==> plans[j].id != id
  {
    if plans == [] then None
    else if plans[0].id == id then Some(plans[0])
    else
      var r := FindPlan(plans[1..], id);
      assert r.Some? ==> exists i :: 0 <= i < |plans| && plans[i] == r.value && r.value.id == id
                           && forall j :: 0 <= j < i ==> plans[j].id != id by {
        if r.Some? {
          var i :| 0 <= i < |plans[1..]| && plans[1..][i] == r.value && r.value.id == id
                   && forall j :: 0 <= j < i ==> plans[1..][j].id != id;
          assert plans[i + 1] == r.value;
          forall j | 0 <= j < i + 1 ensures plans[j].id != id {
            if j > 0 { assert plans[1..][j - 1] == plans[j]; }
          }
        }
      }
      assert r.None? ==> forall i :: 0 <= i < |plans| ==> plans[i].id != id by {
        if r.None? {
          forall i | 0 <= i < |plans| ensures plans[i].id != id {
            if i > 0 { assert plans[1..][i - 1] == plans[i]; }
          }
        }
      }
      r
  }

  /** The note the mock refinement appends to a plan's description. */
  function RefinementNote(modifications: string): string {
    "\n\n[수정 요청 반영: " + modifications + "]"
  }

  /** The mock refinement: the requested fixture plan with the note appended to its description. */
  function MockRefine(plans: seq<Plan>, planId: string, modifications: string): (r: Result<RefinePlanResponse, string>)
    ensures r.Failure? <==> FindPlan(plans, planId).None?
    ensures r.Failure? ==> r.error == PlanNotFound
    ensures r.Success? ==>
              var p := FindPlan(plans, planId).value;
              r.value.plan == p.(description := p.description + RefinementNote(modifications))
  {
    match FindPlan(plans, planId)
    case None => Failure(PlanNotFound)
    case Some(plan) =>
      Success(RefinePlanResponse(plan.(description := plan.description + RefinementNote(modifications))))
  }

  /** `refinePlan`. */
  function RefinePlan(api: Api, request: RefinePlanRequest)
    : (r: Result<RefinePlanResponse, string>)
    ensures api.useMock ==> r == MockRefine(api.mocks.plans, request.planId, request.modifications)
    ensures !api.useMock && api.backend.refine(request).Some? ==> r == Success(api.backend.refine(request).value)
    ensures !api.useMock && api.backend.refine(request).None? ==> r == Failure(RefineFailed)
  {
    if api.useMock then MockRefine(api.mocks.plans, request.planId, request.modifications)
    else match api.backend.refine(request)
      case Some(response) => Success(response)
      case None => Failure(RefineFailed)
  }

  /** Four plans carrying the fixture ids, in order. */
  predicate HasMockPlanIds(plans: seq<Plan>) {
    |plans| == 4 && forall i :: 0 <= i < 4 ==> plans[i].id == MockPlanIds[i]
  }

  /** The fixtures the client module imports carry the four fixture ids. */
  lemma MockFixturesPlanIds()
    ensures HasMockPlanIds(MockFixtures().plans)
  {
  }

  /** In mock mode refinement succeeds exactly for the four fixture ids, whatever the backend;
      the refined plan is the fixture with that id with only its description changed, and the
      description is the fixture's own followed by a note quoting this request, so refinements
      never accumulate. */
  lemma MockRefineMeaning(api: Api, request: RefinePlanRequest)
    requires api.useMock && HasMockPlanIds(api.mocks.plans)
    ensures var r := RefinePlan(api, request);
      var plans := api.mocks.plans;
      && (r.Success? <==> request.planId in MockPlanIds)
      && (r.Success? ==>
            exists i :: 0 <= i < |plans| && plans[i].id == request.planId
              && r.value.plan == plans[i].(description := plans[i].description + RefinementNote(request.modifications)))
      && (r.Failure? ==> r.error == PlanNotFound)
  {
    var plans := api.mocks.plans;
    if request.planId in MockPlanIds {
      MockRefineFound(plans, request.planId, request.modifications);
    } else {
      MockRefineMissing(plans, request.planId, request.modifications);
    }
  }

  /** A fixture id finds its plan. */
  lemma MockRefineFound(plans: seq<Plan>, planId: string, modifications: string)
    requires HasMockPlanIds(plans) && planId in MockPlanIds
    ensures var r := MockRefine(plans, planId, modifications);
      && r.Success?
      && exists i :: 0 <= i < |plans| && plans[i].id == planId
           && r.value.plan == plans[i].(description := plans[i].description + RefinementNote(modifications))
  {
    var k :| 0 <= k < 4 && MockPlanIds[k] == planId;
    assert plans[k].id == planId;
    var found := FindPlan(plans, planId);
    assert found.Some?;
    var i :| 0 <= i < |plans| && plans[i] == found.value && found.value.id == planId;
    assert MockRefine(plans, planId, modifications).value.plan
        == plans[i].(description := plans[i].description + RefinementNote(modifications));
  }

  /** Any other id fails with the not-found message. */
  lemma MockRefineMissing(plans: seq<Plan>, planId: string, modifications: string)
    requires HasMockPlanIds(plans) && planId !in MockPlanIds
    ensures MockRefine(plans, planId, modifications) == Failure(PlanNotFound)
  {
    assert forall i :: 0 <= i < |plans| ==> plans[i].id != planId;
  }
}
