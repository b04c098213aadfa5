/** The chat step machine (components/chat/ChatInterface.tsx): the two keyword tests, the
    reply to one user message at each step of the conversation, and the greeting. */
module Chat {
  import opened Wrappers
  import opened Strings
  import opened Types
  import opened ApiClient
  import opened DummyData
  import opened AppStore

  // ---------------------------------------------------------------------------------------
  // Keyword tests
  // ---------------------------------------------------------------------------------------

  const ProceedKeywords: seq<string> := ["진행", "다음", "계속", "확인", "네", "예", "yes", "ok", "좋아", "맞아"]
  const ModifyKeywords: seq<string> := ["수정", "다시", "재입력", "변경", "아니", "틀려", "아니야", "no"]
  /** Tested on the raw message, not the normalised one. */
  const RegenerateWord := "재생성"
  const RestartWord := "처음부터"

  /** `keywords.some(keyword => text.includes(keyword))`. */
  function SomeKeyword(text: string, keywords: seq<string>): (r: bool)
    ensures r <==> exists i :: 0 <= i < |keywords| && Contains(text, keywords[i])
  {
    if keywords == [] then false
    else
      var rest := SomeKeyword(text, keywords[1..]);
      assert forall i :: 1 <= i < |keywords| ==> keywords[i] == keywords[1..][i - 1];
      Contains(text, keywords[0]) || rest
  }

  /** The text the keyword tests look at: lower-cased, then trimmed. */
  function Normalized(message: string): string {
    Trim(ToLower(message))
  }

  /** `isProceedKeyword`. */
  predicate IsProceedKeyword(message: string) {
    SomeKeyword(Normalized(message), ProceedKeywords)
  }

  /** `isModifyKeyword`. */
  predicate IsModifyKeyword(message: string) {
    SomeKeyword(Normalized(message), ModifyKeywords)
  }

  /** What the handler's conditions test of the message: the two keyword tests (the first
      computed once before the `switch`, as `shouldProceed`) and the two words looked for in
      the raw message. */
  datatype Words = Words(proceed: bool, revise: bool, regenerate: bool, restart: bool)

  function WordsOf(message: string): Words {
    Words(IsProceedKeyword(message), IsModifyKeyword(message),
          Contains(message, RegenerateWord), Contains(message, RestartWord))
  }

  /** No keyword is empty or holds whitespace. */
  lemma KeywordsAreWords()
    ensures forall i :: 0 <= i < |ProceedKeywords| ==> ProceedKeywords[i] != [] && NoWhitespace(ProceedKeywords[i])
    ensures forall i :: 0 <= i < |ModifyKeywords| ==> ModifyKeywords[i] != [] && NoWhitespace(ModifyKeywords[i])
  {
  }

  /** Trimming is immaterial: each test holds exactly when the lower-cased message contains one
      of its keywords somewhere. */
  lemma KeywordTestsIgnoreTrim(message: string)
    ensures IsProceedKeyword(message) <==>
              exists i :: 0 <= i < |ProceedKeywords| && Contains(ToLower(message), ProceedKeywords[i])
    ensures IsModifyKeyword(message) <==>
              exists i :: 0 <= i < |ModifyKeywords| && Contains(ToLower(message), ModifyKeywords[i])
  {
    KeywordsAreWords();
    var lower := ToLower(message);
    forall i | 0 <= i < |ProceedKeywords|
      ensures Contains(Trim(lower), ProceedKeywords[i]) <==> Contains(lower, ProceedKeywords[i])
    {
      ContainsTrim(lower, ProceedKeywords[i]);
    }
    forall i | 0 <= i < |ModifyKeywords|
      ensures Contains(Trim(lower), ModifyKeywords[i]) <==> Contains(lower, ModifyKeywords[i])
    {
      ContainsTrim(lower, ModifyKeywords[i]);
    }
  }

  // ---------------------------------------------------------------------------------------
  // Replies
  // ---------------------------------------------------------------------------------------

  const ReenterConcept := "의료기기 개념을 다시 입력해주세요. 더 자세히 설명해주시면 정확한 분류가 가능합니다."
  const ReviewClassification := "분류 결과를 검토해주세요.\n\n✅ 맞다면: \"확인\" 또는 \"진행\"\n🔄 다시 하려면: \"수정\" 또는 \"다시\""
  const BackToClassification := "분류 단계로 돌아갑니다. 의료기기 개념을 다시 입력해주세요."
  const ReviewCategory := "품목 분류를 확인해주세요.\n\n✅ 맞다면: \"확인\" 또는 \"진행\"\n🔄 다시 하려면: \"수정\" 또는 \"다시\""
  const GeneratingPlans := "인허가 전략을 생성하고 있습니다. 잠시만 기다려주세요..."
  const RedoPurpose := "사용 목적과 작용 원리를 다시 생성하시겠습니까?\n\n의료기기 개념을 처음부터 다시 입력해주세요."
  const ReviewPurpose := "사용 목적과 작용 원리를 검토해주세요.\n\n✅ 맞다면: \"확인\" 또는 \"진행\" (인허가 전략 생성)\n🔄 다시 하려면: \"수정\" 또는 \"다시\" (처음부터)"
  const ChoosePlan := "우측의 플랜 카드를 클릭하여 상세 내용을 확인하실 수 있습니다. 마음에 드는 플랜을 선택해주세요!"
  const RegeneratePrompt := "플랜을 다시 생성하시겠습니까?\n\n\"재생성\" 입력 시 새로운 플랜을 생성합니다.\n\"처음부터\" 입력 시 개념 입력부터 다시 시작합니다."
  const Regenerating := "새로운 인허가 전략을 생성하고 있습니다..."
  const Regenerated := "새로운 전략이 생성되었습니다! 우측에서 확인해주세요."
  const Restarting := "처음부터 다시 시작합니다. 의료기기 개념을 입력해주세요."
  const PlanHelp := "플랜 카드를 클릭하여 상세 내용을 확인하실 수 있습니다.\n\n🔄 플랜 재생성: \"재생성\"\n⏮ 처음부터: \"처음부터\"\n\n또는 해당 플랜을 선택 후 수정 요청을 해주세요."
  const DefaultReply := "무엇을 도와드릴까요?"
  const Apology := "죄송합니다. 오류가 발생했습니다. 다시 시도해주세요."

  /** The category `handleSend` records from the classification's category name. */
  function SuggestedCategory(name: string): ProductCategory {
    Category("A41010.01", name, "의료기기 품목", "인허가 필요")
  }

  /** JavaScript truthiness of an optional string. */
  predicate Truthy(s: Option<string>) {
    s.Some? && s.value != ""
  }

  /** The session holds the three results plan generation needs. */
  predicate HasResults(s: SessionState) {
    s.classification.Some? && s.category.Some? && s.purposeMechanism.Some?
  }

  function PlansRequest(s: SessionState): GeneratePlansRequest
    requires HasResults(s)
  {
    GeneratePlansRequest(s.classification.value, s.category.value, s.purposeMechanism.value)
  }

  /** A request the handler sends. */
  datatype Call =
    | ClassifyCall(request: ClassifyDeviceRequest)
    | PurposeCall(concept: string, category: string)
    | PlansCall(plansRequest: GeneratePlansRequest)

  /** What an awaited request settles to: the response, or the rejection's message. */
  datatype Reply =
    | Classified(classified: ClassifyDeviceResponse)
    | Described(described: PurposeMechanism)
    | Planned(planned: seq<Plan>)
    | Refused(reason: string)

  /** The request a message sends from a session, if any: the branch conditions of the
      `switch` that lead to an `await`. */
  function RemoteCall(snapshot: SessionState, message: string): Option<Call> {
    RemoteCallOf(snapshot, message, WordsOf(message))
  }

  function RemoteCallOf(snapshot: SessionState, message: string, w: Words): Option<Call> {
    match snapshot.currentStep
    case ConceptInput => Some(ClassifyCall(ClassifyDeviceRequest(message, None)))
    case ProductCategory =>
      if w.proceed && snapshot.classification.Some?
      then Some(PurposeCall(message, OrElse(snapshot.classification.value.category, "")))
      else None
    case PurposeMechanism =>
      if w.proceed && HasResults(snapshot) then Some(PlansCall(PlansRequest(snapshot))) else None
    case PlanGeneration =>
      if !w.proceed && !w.revise && w.regenerate && HasResults(snapshot) then Some(PlansCall(PlansRequest(snapshot))) else None
    case PlanReview =>
      if !w.proceed && !w.revise && w.regenerate && HasResults(snapshot) then Some(PlansCall(PlansRequest(snapshot))) else None
    case Greeting => None
    case DeviceClassification => None
    case FinalConfirmation => None
  }

  /** Sending a request through the client. */
  function Perform(call: Call, api: Api): (r: Reply)
    ensures r.Refused? || Answers(call, r)
  {
    match call
    case ClassifyCall(request) =>
      (match ClassifyDevice(api, request)
       case Success(response) => Classified(response)
       case Failure(e) => Refused(e))
    case PurposeCall(concept, category) =>
      (match GeneratePurposeMechanism(api, concept, category)
       case Success(pm) => Described(pm)
       case Failure(e) => Refused(e))
    case PlansCall(request) =>
      (match GeneratePlans(api, request)
       case Success(response) => Planned(response.plans)
       case Failure(e) => Refused(e))
  }

  /** A reply of the kind the request asks for. */
  predicate Answers(call: Call, reply: Reply) {
    match call
    case ClassifyCall(_) => reply.Classified?
    case PurposeCall(_, _) => reply.Described?
    case PlansCall(_) => reply.Planned?
  }

  /** How a branch of the `try` block ends, and at which time the rest of the handler runs:
      the time of the call for a branch that does not wait, the time the reply arrives for
      one that does. A reply that is not the awaited response is a rejection. */
  datatype Ending = Completed(turn: Turn, at: nat) | Raised(turn: Turn, at: nat)

  function Go(t: Turn, step: ConversationStep, now: nat): (r: Turn)
    ensures r == Turn(t.session.(currentStep := step, updatedAt := now), t.serial)
  {
    Turn(WithStep(t.session, step, now), t.serial)
  }

  /** A classification received: recorded with its milestone, acknowledged with the
      suggested categories, and the step moved to DEVICE_CLASSIFICATION. */
  function ClassifiedTurn(t: Turn, response: ClassifyDeviceResponse, later: nat): Turn {
    var t1 := Turn(WithClassification(t.session, response.classification, later), t.serial);
    var t2 := WithMessage(t1, Assistant, AcknowledgeClassification,
                          Some(ClassificationMeta(response.classification, response.suggestedCategories)), later);
    Go(t2, ConversationStep.DeviceClassification, later)
  }

  /** CONCEPT_INPUT: the message was sent to be classified. */
  function ConceptBranch(t: Turn, reply: Option<Reply>, later: nat): Ending {
    match reply
    case Some(Classified(response)) => Completed(ClassifiedTurn(t, response, later), later)
    case _ => Raised(t, later)
  }

  /** DEVICE_CLASSIFICATION: confirm, redo or ask again. */
  function ClassificationBranch(t: Turn, w: Words, now: nat): Ending {
    if w.proceed then
      Completed(Go(Say(t, AcknowledgeCategory, now), ConversationStep.ProductCategory, now), now)
    else if w.revise then
      Completed(Go(Say(t, ReenterConcept, now), ConceptInput, now), now)
    else
      Completed(Say(t, ReviewClassification, now), now)
  }

  /** A purpose and mechanism received: recorded with its milestone, the classification's
      category recorded too when it names one, acknowledged, and the step moved to
      PURPOSE_MECHANISM. */
  function DescribedTurn(t: Turn, category: Option<string>, pm: PurposeMechanism, later: nat): Turn {
    var t3 := WithMessage(Turn(WithDescription(t.session, category, pm, later), t.serial),
                          Assistant, AcknowledgePurpose, Some(PurposeMeta(pm)), later);
    Go(t3, ConversationStep.PurposeMechanism, later)
  }

  /** The purpose and mechanism recorded, then the category when the name is not empty. */
  function WithDescription(s: SessionState, category: Option<string>, pm: PurposeMechanism, later: nat): SessionState {
    var s1 := WithPurposeMechanism(s, pm, later);
    if Truthy(category) then WithCategory(s1, SuggestedCategory(category.value), later) else s1
  }

  /** PRODUCT_CATEGORY: on confirmation the purpose and mechanism were requested from the
      message and the classification's category. */
  function CategoryBranch(t: Turn, snapshot: SessionState, w: Words, reply: Option<Reply>, now: nat, later: nat): Ending {
    if w.proceed && snapshot.classification.Some? then
      match reply
      case Some(Described(pm)) =>
        Completed(DescribedTurn(t, snapshot.classification.value.category, pm, later), later)
      case _ => Raised(t, later)
    else if w.revise then
      Completed(Go(Say(t, BackToClassification, now), ConceptInput, now), now)
    else
      Completed(Say(t, ReviewCategory, now), now)
  }

  /** PURPOSE_MECHANISM: on confirmation, and only with all three results, the plans were
      requested after a notice. */
  function PurposeBranch(t: Turn, snapshot: SessionState, w: Words, reply: Option<Reply>, now: nat, later: nat): Ending {
    if w.proceed then
      if HasResults(snapshot) then
        var t1 := Say(t, GeneratingPlans, now);
        match reply
        case Some(Planned(plans)) =>
          var t2 := Say(Turn(WithPlans(t1.session, plans, later), t1.serial), PresentPlans, later);
          Completed(Go(t2, PlanGeneration, later), later)
        case _ => Raised(t1, later)
      else
        Completed(t, now)
    else if w.revise then
      Completed(Go(Say(t, RedoPurpose, now), ConceptInput, now), now)
    else
      Completed(Say(t, ReviewPurpose, now), now)
  }

  /** PLAN_GENERATION and PLAN_REVIEW: guidance, regeneration or a fresh start. */
  function PlansBranch(t: Turn, snapshot: SessionState, w: Words, reply: Option<Reply>, now: nat, later: nat): Ending {
    if w.proceed then
      Completed(Say(t, ChoosePlan, now), now)
    else if w.revise then
      Completed(Say(t, RegeneratePrompt, now), now)
    else if w.regenerate && HasResults(snapshot) then
      var t1 := Say(t, Regenerating, now);
      match reply
      case Some(Planned(plans)) =>
        Completed(Say(Turn(WithPlans(t1.session, plans, later), t1.serial), Regenerated, later), later)
      case _ => Raised(t1, later)
    else if w.restart then
      Completed(Go(Say(t, Restarting, now), ConceptInput, now), now)
    else
      Completed(Say(t, PlanHelp, now), now)
  }

  /** The `switch` on the step of the session the handler was rendered with. */
  function Branch(t: Turn, snapshot: SessionState, w: Words, reply: Option<Reply>, now: nat, later: nat): Ending {
    match snapshot.currentStep
    case ConceptInput => ConceptBranch(t, reply, later)
    case DeviceClassification => ClassificationBranch(t, w, now)
    case ProductCategory => CategoryBranch(t, snapshot, w, reply, now, later)
    case PurposeMechanism => PurposeBranch(t, snapshot, w, reply, now, later)
    case PlanGeneration => PlansBranch(t, snapshot, w, reply, now, later)
    case PlanReview => PlansBranch(t, snapshot, w, reply, now, later)
    case Greeting => Completed(Say(t, DefaultReply, now), now)
    case FinalConfirmation => Completed(Say(t, DefaultReply, now), now)
  }

  /** The turn the branches start from: the user's message recorded, loading on. */
  function Started(t: Turn, message: string, now: nat): (r: Turn)
    ensures r.serial == t.serial + 1
    ensures r.session == t.session.(messages := t.session.messages + [Message(Uuid(t.serial), User, message, now, None)],
                                    isLoading := true, updatedAt := now)
  {
    var t1 := WithMessage(t, User, message, None, now);
    Turn(WithLoading(t1.session, true, now), t1.serial)
  }

  /** The `catch` (one apology) and the `finally` (loading off). */
  function Finish(e: Ending): Turn {
    match e
    case Completed(t3, at) => Turn(WithLoading(t3.session, false, at), t3.serial)
    case Raised(t3, at) =>
      var t4 := Say(t3, Apology, at);
      Turn(WithLoading(t4.session, false, at), t4.serial)
  }

  /** The reply a message gets from the client, if it sends a request. */
  function ReplyTo(snapshot: SessionState, message: string, api: Api): Option<Reply> {
    ReplyOf(snapshot, message, WordsOf(message), api)
  }

  function ReplyOf(snapshot: SessionState, message: string, w: Words, api: Api): Option<Reply> {
    var call := RemoteCallOf(snapshot, message, w);
    if call.Some? then Some(Perform(call.value, api)) else None
  }

  /** `handleSend(message)` on a session: the message is recorded and loading switched on at
      `now`; a branch that waits for the client resumes at `later`; a failure adds the
      apology; loading is switched off last. */
  function Respond(t: Turn, message: string, api: Api, now: nat, later: nat): Turn {
    Resume(t, message, ReplyTo(t.session, message, api), now, later)
  }

  /** `Respond` is the branch taken from the started turn, with the reply to the message. */
  lemma RespondByBranch(t: Turn, message: string, api: Api, now: nat, later: nat)
    ensures Respond(t, message, api, now, later)
            == Finish(Branch(Started(t, message, now), t.session, WordsOf(message),
                             ReplyOf(t.session, message, WordsOf(message), api), now, later))
  {
  }

  /** The handler once the client's reply (if a request was sent) is known. */
  function Resume(t: Turn, message: string, reply: Option<Reply>, now: nat, later: nat): Turn {
    Finish(Branch(Started(t, message, now), t.session, WordsOf(message), reply, now, later))
  }

  // ---------------------------------------------------------------------------------------
  // What one message does, stated independently of the branch functions
  // ---------------------------------------------------------------------------------------

  /** What the handler's conditions see of the message and the session. */
  datatype Flags = Flags(proceed: bool, revise: bool, regenerate: bool, restart: bool,
                         classified: bool, categoryNamed: bool, ready: bool)

  function FlagsOf(snapshot: SessionState, w: Words): Flags {
    Flags(w.proceed, w.revise, w.regenerate, w.restart,
          snapshot.classification.Some?,
          snapshot.classification.Some? && Truthy(snapshot.classification.value.category),
          HasResults(snapshot))
  }

  /** The effect of a message whose request, if any, succeeds: the next step, the number of
      assistant replies, the number of flowchart milestones, and whether a request is sent. */
  datatype Effect = Effect(next: ConversationStep, replies: nat, milestones: nat, calls: bool)

  /** The step machine as a table. */
  function Expected(step: ConversationStep, f: Flags): Effect {
    match step
    case ConceptInput => Effect(ConversationStep.DeviceClassification, 1, 1, true)
    case DeviceClassification =>
      if f.proceed then Effect(ConversationStep.ProductCategory, 1, 0, false)
      else if f.revise then Effect(ConceptInput, 1, 0, false)
      else Effect(step, 1, 0, false)
    case ProductCategory =>
      if f.proceed && f.classified then Effect(ConversationStep.PurposeMechanism, 1, if f.categoryNamed then 2 else 1, true)
      else if f.revise then Effect(ConceptInput, 1, 0, false)
      else Effect(step, 1, 0, false)
    case PurposeMechanism =>
      if f.proceed && f.ready then Effect(PlanGeneration, 2, 1, true)
      else if f.proceed then Effect(step, 0, 0, false)
      else if f.revise then Effect(ConceptInput, 1, 0, false)
      else Effect(step, 1, 0, false)
    case PlanGeneration => PlansEffect(step, f)
    case PlanReview => PlansEffect(step, f)
    case Greeting => Effect(step, 1, 0, false)
    case FinalConfirmation => Effect(step, 1, 0, false)
  }

  function PlansEffect(step: ConversationStep, f: Flags): Effect {
    if f.proceed || f.revise then Effect(step, 1, 0, false)
    else if f.regenerate && f.ready then Effect(step, 2, 1, true)
    else if f.restart then Effect(ConceptInput, 1, 0, false)
    else Effect(step, 1, 0, false)
  }

  /** The notice sent before the plans are requested, at the step that sends it. */
  function Notice(step: ConversationStep): string {
    if step == PurposeMechanism then GeneratingPlans else Regenerating
  }

  /** The reply is the successful response to the request the branch sends, if any. */
  predicate Succeeds(call: Option<Call>, reply: Option<Reply>) {
    call.Some? ==> reply.Some? && Answers(call.value, reply.value)
  }

  /** What the table promises about a branch's ending. */
  predicate EndsAsTable(u: Turn, e: Effect, ending: Ending) {
    && ending.Completed?
    && ending.turn.session.currentStep == e.next
    && |ending.turn.session.messages| == |u.session.messages| + e.replies
    && |ending.turn.session.flowchartNodes| == |u.session.flowchartNodes| + e.milestones
  }

  lemma ConceptFollowsTable(u: Turn, f: Flags, response: ClassifyDeviceResponse, later: nat)
    ensures EndsAsTable(u, Expected(ConceptInput, f), ConceptBranch(u, Some(Classified(response)), later))
  {
  }

  lemma ClassificationFollowsTable(u: Turn, s: SessionState, w: Words, now: nat)
    requires u.session.currentStep == DeviceClassification
    ensures EndsAsTable(u, Expected(DeviceClassification, FlagsOf(s, w)), ClassificationBranch(u, w, now))
  {
  }

  lemma CategoryFollowsTable(u: Turn, s: SessionState, w: Words, reply: Option<Reply>, now: nat, later: nat)
    requires u.session.currentStep == ProductCategory
    requires w.proceed && s.classification.Some? ==> reply.Some? && reply.value.Described?
    ensures EndsAsTable(u, Expected(ProductCategory, FlagsOf(s, w)), CategoryBranch(u, s, w, reply, now, later))
  {
    if w.proceed && s.classification.Some? {
      var s1 := WithPurposeMechanism(u.session, reply.value.described, later);
      assert |s1.messages| == |u.session.messages| && |s1.flowchartNodes| == |u.session.flowchartNodes| + 1;
    }
  }

  lemma PurposeFollowsTable(u: Turn, s: SessionState, w: Words, reply: Option<Reply>, now: nat, later: nat)
    requires u.session.currentStep == PurposeMechanism
    requires w.proceed && HasResults(s) ==> reply.Some? && reply.value.Planned?
    ensures EndsAsTable(u, Expected(PurposeMechanism, FlagsOf(s, w)), PurposeBranch(u, s, w, reply, now, later))
  {
  }

  lemma PlansFollowTable(u: Turn, s: SessionState, w: Words, reply: Option<Reply>, now: nat, later: nat)
    requires !w.proceed && !w.revise && w.regenerate && HasResults(s) ==> reply.Some? && reply.value.Planned?
    ensures EndsAsTable(u, PlansEffect(u.session.currentStep, FlagsOf(s, w)), PlansBranch(u, s, w, reply, now, later))
  {
  }

  /** A branch whose request succeeds ends as the table says. */
  lemma BranchFollowsTable(u: Turn, s: SessionState, message: string, w: Words, reply: Option<Reply>, now: nat, later: nat)
    requires u.session.currentStep == s.currentStep
    requires Succeeds(RemoteCallOf(s, message, w), reply)
    ensures EndsAsTable(u, Expected(s.currentStep, FlagsOf(s, w)), Branch(u, s, w, reply, now, later))
  {
    match s.currentStep
    case ConceptInput => ConceptFollowsTable(u, FlagsOf(s, w), reply.value.classified, later);
    case DeviceClassification => ClassificationFollowsTable(u, s, w, now);
    case ProductCategory => CategoryFollowsTable(u, s, w, reply, now, later);
    case PurposeMechanism => PurposeFollowsTable(u, s, w, reply, now, later);
    case PlanGeneration => PlansFollowTable(u, s, w, reply, now, later);
    case PlanReview => PlansFollowTable(u, s, w, reply, now, later);
    case Greeting =>
    case FinalConfirmation =>
  }

  /** A branch whose request is refused ends where it started, after its notice if it sent
      one. */
  lemma BranchRaises(u: Turn, s: SessionState, message: string, w: Words, reply: Option<Reply>, now: nat, later: nat)
    requires RemoteCallOf(s, message, w).Some? && reply.Some? && reply.value.Refused?
    ensures var e := Branch(u, s, w, reply, now, later);
      && e.Raised? && e.at == later
      && e.turn == if RemoteCallOf(s, message, w).value.PlansCall? then Say(u, Notice(s.currentStep), now) else u
  {
  }

  /** Without a request, a branch ends the same whatever reply it is handed. */
  lemma BranchWithoutCall(u: Turn, s: SessionState, message: string, w: Words, r1: Option<Reply>, r2: Option<Reply>,
                          now: nat, later1: nat, later2: nat)
    requires RemoteCallOf(s, message, w).None?
    ensures Branch(u, s, w, r1, now, later1) == Branch(u, s, w, r2, now, later2)
  {
    match s.currentStep
    case ConceptInput =>
    case DeviceClassification =>
    case ProductCategory =>
      assert !(w.proceed && s.classification.Some?);
    case PurposeMechanism =>
      assert !(w.proceed && HasResults(s));
    case PlanGeneration =>
      assert !(!w.proceed && !w.revise && w.regenerate && HasResults(s));
    case PlanReview =>
      assert !(!w.proceed && !w.revise && w.regenerate && HasResults(s));
    case Greeting =>
    case FinalConfirmation =>
  }

  /** The request sent, if any, failed. */
  predicate CallFails(snapshot: SessionState, message: string, api: Api) {
    ReplyTo(snapshot, message, api).Some? && ReplyTo(snapshot, message, api).value.Refused?
  }

  /** The client's reply is either a refusal or the response the request asks for. */
  lemma ReplyToSucceedsOrFails(snapshot: SessionState, message: string, api: Api)
    ensures RemoteCall(snapshot, message).Some? <==> ReplyTo(snapshot, message, api).Some?
    ensures !CallFails(snapshot, message, api) ==> Succeeds(RemoteCall(snapshot, message), ReplyTo(snapshot, message, api))
  {
  }

  /** Given a successful reply, a message moves the conversation as the table says. */
  lemma ResumeFollowsTable(t: Turn, message: string, reply: Option<Reply>, now: nat, later: nat)
    requires Succeeds(RemoteCall(t.session, message), reply)
    ensures var e := Expected(t.session.currentStep, FlagsOf(t.session, WordsOf(message)));
      var r := Resume(t, message, reply, now, later);
      && r.session.currentStep == e.next
      && |r.session.messages| == |t.session.messages| + 1 + e.replies
      && |r.session.flowchartNodes| == |t.session.flowchartNodes| + e.milestones
  {
    BranchFollowsTable(Started(t, message, now), t.session, message, WordsOf(message), reply, now, later);
  }

  /** Given a refusal, the results stay as they were and one apology follows the notice. */
  lemma ResumeRaises(t: Turn, message: string, reply: Option<Reply>, now: nat, later: nat)
    requires RemoteCall(t.session, message).Some? && reply.Some? && reply.value.Refused?
    ensures var r := Resume(t, message, reply, now, later);
      var s := t.session;
      var user := Message(Uuid(t.serial), User, message, now, None);
      var notice := if RemoteCall(s, message).value.PlansCall?
                    then [Message(Uuid(t.serial + 1), Assistant, Notice(s.currentStep), now, None)] else [];
      && r.session.messages == s.messages + [user] + notice
                               + [Message(Uuid(t.serial + 1 + |notice|), Assistant, Apology, later, None)]
      && r.serial == t.serial + 2 + |notice|
      && r == Turn(s.(messages := r.session.messages, isLoading := false, updatedAt := later), r.serial)
  {
    var s := t.session;
    var user := Message(Uuid(t.serial), User, message, now, None);
    if RemoteCall(s, message).value.PlansCall? {
      RaisesAfterNotice(t, message, reply, now, later);
    } else {
      RaisesAtOnce(t, message, reply, now, later);
      assert s.messages + [user] + [] == s.messages + [user];
    }
  }

  lemma RaisesAfterNotice(t: Turn, message: string, reply: Option<Reply>, now: nat, later: nat)
    requires RemoteCall(t.session, message).Some? && RemoteCall(t.session, message).value.PlansCall?
    requires reply.Some? && reply.value.Refused?
    ensures var s := t.session;
      var messages := s.messages + [Message(Uuid(t.serial), User, message, now, None)]
                      + [Message(Uuid(t.serial + 1), Assistant, Notice(s.currentStep), now, None)]
                      + [Message(Uuid(t.serial + 2), Assistant, Apology, later, None)];
      Resume(t, message, reply, now, later)
        == Turn(s.(messages := messages, isLoading := false, updatedAt := later), t.serial + 3)
  {
    var u := Started(t, message, now);
    BranchRaises(u, t.session, message, WordsOf(message), reply, now, later);
    FinishRaised(Branch(u, t.session, WordsOf(message), reply, now, later));
  }

  lemma RaisesAtOnce(t: Turn, message: string, reply: Option<Reply>, now: nat, later: nat)
    requires RemoteCall(t.session, message).Some? && !RemoteCall(t.session, message).value.PlansCall?
    requires reply.Some? && reply.value.Refused?
    ensures var s := t.session;
      var messages := s.messages + [Message(Uuid(t.serial), User, message, now, None)]
                      + [Message(Uuid(t.serial + 1), Assistant, Apology, later, None)];
      Resume(t, message, reply, now, later)
        == Turn(s.(messages := messages, isLoading := false, updatedAt := later), t.serial + 2)
  {
    var u := Started(t, message, now);
    BranchRaises(u, t.session, message, WordsOf(message), reply, now, later);
    FinishRaised(Branch(u, t.session, WordsOf(message), reply, now, later));
  }

  /** The `catch` and `finally` on a rejection: one apology at the time of the rejection,
      loading off, nothing else changed. */
  lemma FinishRaised(e: Ending)
    requires e.Raised?
    ensures var s := e.turn.session;
      Finish(e) == Turn(s.(messages := s.messages + [Message(Uuid(e.turn.serial), Assistant, Apology, e.at, None)],
                           isLoading := false, updatedAt := e.at), e.turn.serial + 1)
  {
  }

  /** When no request fails, a message moves the conversation as the table says, with the
      user's message plus the table's replies, and the table's milestones; the table says a
      request is sent exactly when one is. */
  lemma RespondFollowsTable(t: Turn, message: string, api: Api, now: nat, later: nat)
    ensures var e := Expected(t.session.currentStep, FlagsOf(t.session, WordsOf(message)));
      && (e.calls <==> RemoteCall(t.session, message).Some?)
      && (!CallFails(t.session, message, api) ==>
            var r := Respond(t, message, api, now, later);
            && r.session.currentStep == e.next
            && |r.session.messages| == |t.session.messages| + 1 + e.replies
            && |r.session.flowchartNodes| == |t.session.flowchartNodes| + e.milestones)
  {
    var reply := ReplyTo(t.session, message, api);
    ReplyToSucceedsOrFails(t.session, message, api);
    CallsAsTable(t.session, message, WordsOf(message));
    if !CallFails(t.session, message, api) {
      ResumeFollowsTable(t, message, reply, now, later);
    }
  }

  /** The table says a request is sent exactly when the handler sends one. */
  lemma CallsAsTable(s: SessionState, message: string, w: Words)
    ensures Expected(s.currentStep, FlagsOf(s, w)).calls <==> RemoteCallOf(s, message, w).Some?
  {
  }

  /** When the request fails, the step, the results and the flowchart stay as they were, and
      the only messages added are the user's, the notice if the branch sent one, and one
      apology; loading is off. */
  lemma ApologyOnFailure(t: Turn, message: string, api: Api, now: nat, later: nat)
    requires CallFails(t.session, message, api)
    ensures var r := Respond(t, message, api, now, later);
      var s := t.session;
      var user := Message(Uuid(t.serial), User, message, now, None);
      var notice := if RemoteCall(s, message).value.PlansCall?
                    then [Message(Uuid(t.serial + 1), Assistant, Notice(s.currentStep), now, None)] else [];
      && r.session.messages == s.messages + [user] + notice
                               + [Message(Uuid(t.serial + 1 + |notice|), Assistant, Apology, later, None)]
      && r.serial == t.serial + 2 + |notice|
      && r == Turn(s.(messages := r.session.messages, isLoading := false, updatedAt := later), r.serial)
  {
    ReplyToSucceedsOrFails(t.session, message, api);
    ResumeRaises(t, message, ReplyTo(t.session, message, api), now, later);
  }

  /** A message that sends no request does not depend on the client or the time a reply
      would arrive. */
  lemma NoCallNoBackend(t: Turn, message: string, api1: Api, api2: Api, now: nat, later1: nat, later2: nat)
    requires RemoteCall(t.session, message).None?
    ensures Respond(t, message, api1, now, later1) == Respond(t, message, api2, now, later2)
  {
    ReplyToSucceedsOrFails(t.session, message, api1);
    ReplyToSucceedsOrFails(t.session, message, api2);
    BranchWithoutCall(Started(t, message, now), t.session, message, WordsOf(message), None, None, now, later1, later2);
  }

  // ---------------------------------------------------------------------------------------
  // What every message keeps
  // ---------------------------------------------------------------------------------------

  /** `r` extends `t`: the same session, the earlier messages untouched, every new message
      under the next unused identifier, and a flowchart that stays a chain. */
  predicate Grows(t: Turn, r: Turn) {
    var m, n := t.session.messages, r.session.messages;
    && r.session.sessionId == t.session.sessionId
    && r.session.createdAt == t.session.createdAt
    && |m| <= |n| && n[..|m|] == m
    && r.serial == t.serial + (|n| - |m|)
    && (forall k :: |m| <= k < |n| ==> n[k].id == Uuid(t.serial + (k - |m|)))
    && (IsChain(t.session.flowchartNodes, t.session.flowchartEdges) ==>
          IsChain(r.session.flowchartNodes, r.session.flowchartEdges))
  }

  lemma GrowsTransitive(a: Turn, b: Turn, c: Turn)
    requires Grows(a, b) && Grows(b, c)
    ensures Grows(a, c)
  {
    var ma, mb, mc := a.session.messages, b.session.messages, c.session.messages;
    assert mc[..|ma|] == mc[..|mb|][..|ma|];
    forall k | |ma| <= k < |mc| ensures mc[k].id == Uuid(a.serial + (k - |ma|)) {
      if k < |mb| {
        assert mc[k] == mc[..|mb|][k];
      }
    }
  }

  /** A change that leaves the messages alone and keeps the chain. */
  lemma KeepsMessages(t: Turn, s: SessionState)
    requires s.sessionId == t.session.sessionId && s.createdAt == t.session.createdAt
    requires s.messages == t.session.messages
    requires IsChain(t.session.flowchartNodes, t.session.flowchartEdges) ==> IsChain(s.flowchartNodes, s.flowchartEdges)
    ensures Grows(t, Turn(s, t.serial))
  {
  }

  lemma MessageGrows(t: Turn, role: Role, content: string, metadata: Option<Metadata>, now: nat)
    ensures Grows(t, WithMessage(t, role, content, metadata, now))
  {
  }

  /** Recording a result together with its milestone. */
  lemma MilestoneGrows(t: Turn, s: SessionState, node: FlowchartNode, now: nat)
    requires s.sessionId == t.session.sessionId && s.createdAt == t.session.createdAt
    requires s.messages == t.session.messages
    requires s.flowchartNodes == t.session.flowchartNodes && s.flowchartEdges == t.session.flowchartEdges
    ensures Grows(t, Turn(WithNode(s, node, now), t.serial))
  {
    if IsChain(s.flowchartNodes, s.flowchartEdges) {
      WithNodeKeepsChain(s, node, now);
    }
    KeepsMessages(t, WithNode(s, node, now));
  }

  lemma ConceptGrows(t: Turn, reply: Option<Reply>, later: nat)
    ensures Grows(t, ConceptBranch(t, reply, later).turn)
  {
    if reply.Some? && reply.value.Classified? {
      var response := reply.value.classified;
      var c := response.classification;
      MilestoneGrows(t, t.session.(classification := Some(c), updatedAt := later), ClassificationNode(c, later), later);
      var t1 := Turn(WithClassification(t.session, c, later), t.serial);
      var t2 := WithMessage(t1, Assistant, AcknowledgeClassification,
                            Some(ClassificationMeta(c, response.suggestedCategories)), later);
      MessageGrows(t1, Assistant, AcknowledgeClassification, Some(ClassificationMeta(c, response.suggestedCategories)), later);
      KeepsMessages(t2, Go(t2, ConversationStep.DeviceClassification, later).session);
      GrowsTransitive(t, t1, t2);
      GrowsTransitive(t, t2, Go(t2, ConversationStep.DeviceClassification, later));
    } else {
      KeepsMessages(t, t.session);
    }
  }

  /** A reply, then possibly a move to another step. */
  lemma SayGoGrows(t: Turn, content: string, step: ConversationStep, now: nat)
    ensures Grows(t, Say(t, content, now))
    ensures Grows(t, Go(Say(t, content, now), step, now))
  {
    var t1 := Say(t, content, now);
    MessageGrows(t, Assistant, content, None, now);
    KeepsMessages(t1, Go(t1, step, now).session);
    GrowsTransitive(t, t1, Go(t1, step, now));
  }

  lemma ClassificationGrows(t: Turn, w: Words, now: nat)
    ensures Grows(t, ClassificationBranch(t, w, now).turn)
  {
    SayGoGrows(t, AcknowledgeCategory, ConversationStep.ProductCategory, now);
    SayGoGrows(t, ReenterConcept, ConceptInput, now);
    SayGoGrows(t, ReviewClassification, ConceptInput, now);
  }

  lemma CategoryGrows(t: Turn, snapshot: SessionState, w: Words, reply: Option<Reply>, now: nat, later: nat)
    ensures Grows(t, CategoryBranch(t, snapshot, w, reply, now, later).turn)
  {
    if w.proceed && snapshot.classification.Some? {
      if reply.Some? && reply.value.Described? {
        DescribedGrows(t, snapshot.classification.value.category, reply.value.described, later);
      } else {
        KeepsMessages(t, t.session);
      }
    } else {
      SayGoGrows(t, BackToClassification, ConceptInput, now);
      SayGoGrows(t, ReviewCategory, ConceptInput, now);
    }
  }

  lemma DescribedGrows(t: Turn, category: Option<string>, pm: PurposeMechanism, later: nat)
    ensures Grows(t, DescribedTurn(t, category, pm, later))
  {
    var t2 := Turn(WithDescription(t.session, category, pm, later), t.serial);
    RecordsGrow(t, category, pm, later);
    MessageGoGrows(t2, AcknowledgePurpose, Some(PurposeMeta(pm)), ConversationStep.PurposeMechanism, later);
    GrowsTransitive(t, t2, DescribedTurn(t, category, pm, later));
  }

  lemma RecordsGrow(t: Turn, category: Option<string>, pm: PurposeMechanism, later: nat)
    ensures Grows(t, Turn(WithDescription(t.session, category, pm, later), t.serial))
  {
    MilestoneGrows(t, t.session.(purposeMechanism := Some(pm), updatedAt := later), PurposeNode(pm, later), later);
    if Truthy(category) {
      var s1 := WithPurposeMechanism(t.session, pm, later);
      var c := SuggestedCategory(category.value);
      MilestoneGrows(Turn(s1, t.serial), s1.(category := Some(c), updatedAt := later), CategoryNode(c, later), later);
      GrowsTransitive(t, Turn(s1, t.serial), Turn(WithCategory(s1, c, later), t.serial));
    }
  }

  lemma MessageGoGrows(t: Turn, content: string, metadata: Option<Metadata>, step: ConversationStep, now: nat)
    ensures Grows(t, Go(WithMessage(t, Assistant, content, metadata, now), step, now))
  {
    var t1 := WithMessage(t, Assistant, content, metadata, now);
    MessageGrows(t, Assistant, content, metadata, now);
    KeepsMessages(t1, Go(t1, step, now).session);
    GrowsTransitive(t, t1, Go(t1, step, now));
  }

  /** The plans arrive after the notice: recorded with their milestone, then one reply, then
      possibly a move. */
  lemma PlansArriveGrows(t1: Turn, plans: seq<Plan>, content: string, step: ConversationStep, later: nat)
    ensures var t2 := Say(Turn(WithPlans(t1.session, plans, later), t1.serial), content, later);
      Grows(t1, t2) && Grows(t1, Go(t2, step, later))
  {
    MilestoneGrows(t1, t1.session.(plans := Some(plans), updatedAt := later), PlansNode(plans, later), later);
    var t15 := Turn(WithPlans(t1.session, plans, later), t1.serial);
    SayGoGrows(t15, content, step, later);
    GrowsTransitive(t1, t15, Say(t15, content, later));
    GrowsTransitive(t1, t15, Go(Say(t15, content, later), step, later));
  }

  lemma PurposeGrows(t: Turn, snapshot: SessionState, w: Words, reply: Option<Reply>, now: nat, later: nat)
    ensures Grows(t, PurposeBranch(t, snapshot, w, reply, now, later).turn)
  {
    if w.proceed {
      if HasResults(snapshot) {
        var t1 := Say(t, GeneratingPlans, now);
        SayGoGrows(t, GeneratingPlans, PlanGeneration, now);
        if reply.Some? && reply.value.Planned? {
          PlansArriveGrows(t1, reply.value.planned, PresentPlans, PlanGeneration, later);
          GrowsTransitive(t, t1, PurposeBranch(t, snapshot, w, reply, now, later).turn);
        }
      } else {
        KeepsMessages(t, t.session);
      }
    } else {
      SayGoGrows(t, RedoPurpose, ConceptInput, now);
      SayGoGrows(t, ReviewPurpose, ConceptInput, now);
    }
  }

  lemma PlansGrow(t: Turn, snapshot: SessionState, w: Words, reply: Option<Reply>, now: nat, later: nat)
    ensures Grows(t, PlansBranch(t, snapshot, w, reply, now, later).turn)
  {
    if w.proceed {
      SayGoGrows(t, ChoosePlan, ConceptInput, now);
    } else if w.revise {
      SayGoGrows(t, RegeneratePrompt, ConceptInput, now);
    } else if w.regenerate && HasResults(snapshot) {
      var t1 := Say(t, Regenerating, now);
      SayGoGrows(t, Regenerating, ConceptInput, now);
      if reply.Some? && reply.value.Planned? {
        PlansArriveGrows(t1, reply.value.planned, Regenerated, ConceptInput, later);
        GrowsTransitive(t, t1, PlansBranch(t, snapshot, w, reply, now, later).turn);
      }
    } else if w.restart {
      SayGoGrows(t, Restarting, ConceptInput, now);
    } else {
      SayGoGrows(t, PlanHelp, ConceptInput, now);
    }
  }

  lemma BranchGrows(t: Turn, snapshot: SessionState, w: Words, reply: Option<Reply>, now: nat, later: nat)
    ensures Grows(t, Branch(t, snapshot, w, reply, now, later).turn)
  {
    match snapshot.currentStep
    case ConceptInput => ConceptGrows(t, reply, later);
    case DeviceClassification => ClassificationGrows(t, w, now);
    case ProductCategory => CategoryGrows(t, snapshot, w, reply, now, later);
    case PurposeMechanism => PurposeGrows(t, snapshot, w, reply, now, later);
    case PlanGeneration => PlansGrow(t, snapshot, w, reply, now, later);
    case PlanReview => PlansGrow(t, snapshot, w, reply, now, later);
    case Greeting => SayGoGrows(t, DefaultReply, ConceptInput, now);
    case FinalConfirmation => SayGoGrows(t, DefaultReply, ConceptInput, now);
  }

  lemma FinishGrows(e: Ending)
    ensures Grows(e.turn, Finish(e))
    ensures !Finish(e).session.isLoading
  {
    match e
    case Completed(t3, at) =>
      KeepsMessages(t3, WithLoading(t3.session, false, at));
    case Raised(t3, at) =>
      var t4 := Say(t3, Apology, at);
      SayGoGrows(t3, Apology, ConceptInput, at);
      KeepsMessages(t4, WithLoading(t4.session, false, at));
      GrowsTransitive(t3, t4, Finish(e));
  }

  /** Whatever the reply: the conversation only grows, the user's message comes first under
      the next identifier, and loading is off at the end. */
  lemma ResumeGrows(t: Turn, message: string, reply: Option<Reply>, now: nat, later: nat)
    ensures var r := Resume(t, message, reply, now, later);
      && Grows(t, r)
      && |r.session.messages| > |t.session.messages|
      && r.session.messages[|t.session.messages|] == Message(Uuid(t.serial), User, message, now, None)
      && !r.session.isLoading
  {
    var u := Started(t, message, now);
    var e := Branch(u, t.session, WordsOf(message), reply, now, later);
    StartedGrows(t, message, now);
    BranchGrows(u, t.session, WordsOf(message), reply, now, later);
    FinishGrows(e);
    GrowsTransitive(u, e.turn, Finish(e));
    GrowsTransitive(t, u, Finish(e));
    var n := Finish(e).session.messages;
    assert n[..|u.session.messages|] == u.session.messages;
    assert n[|t.session.messages|] == n[..|u.session.messages|][|t.session.messages|];
  }

  lemma StartedGrows(t: Turn, message: string, now: nat)
    ensures Grows(t, Started(t, message, now))
  {
    var t1 := WithMessage(t, User, message, None, now);
    MessageGrows(t, User, message, None, now);
    KeepsMessages(t1, Started(t, message, now).session);
    GrowsTransitive(t, t1, Started(t, message, now));
  }

  /** The same for the handler with its client. */
  lemma RespondGrows(t: Turn, message: string, api: Api, now: nat, later: nat)
    ensures var r := Respond(t, message, api, now, later);
      && Grows(t, r)
      && |r.session.messages| > |t.session.messages|
      && r.session.messages[|t.session.messages|] == Message(Uuid(t.serial), User, message, now, None)
      && !r.session.isLoading
  {
    ResumeGrows(t, message, ReplyTo(t.session, message, api), now, later);
  }

  /** A message that both confirms and asks for changes is taken as a confirmation: the
      handler checks the confirmation words first. The one exception is PRODUCT_CATEGORY
      without a classification, where the confirmation test also needs the classification
      and the message falls through to the change request. */
  lemma ProceedWinsTie(t: Turn, snapshot: SessionState, w: Words, reply: Option<Reply>, now: nat, later: nat)
    requires w.proceed
    requires snapshot.currentStep == ProductCategory ==> snapshot.classification.Some?
    ensures Branch(t, snapshot, w, reply, now, later)
         == Branch(t, snapshot, w.(revise := false, regenerate := false, restart := false), reply, now, later)
  {
  }

  /** The exception: at PRODUCT_CATEGORY without a classification, a message that confirms
      and asks for changes goes back to the concept. */
  lemma UnclassifiedTieRevises(t: Turn, snapshot: SessionState, w: Words, reply: Option<Reply>, now: nat, later: nat)
    requires snapshot.currentStep == ProductCategory && snapshot.classification.None?
    requires w.proceed && w.revise
    ensures Branch(t, snapshot, w, reply, now, later) == Completed(Go(Say(t, BackToClassification, now), ConceptInput, now), now)
  {
  }

  // ---------------------------------------------------------------------------------------
  // The greeting
  // ---------------------------------------------------------------------------------------

  /** While the session has no messages the component shows its welcome screen, which has no
      input box: nothing can be sent until some message arrives. */
  predicate AcceptsInput(s: SessionState) {
    |s.messages| > 0
  }

  /** The greeting: the fixture text from the assistant, then CONCEPT_INPUT. The half-second
      timer is not modelled; the greeting arrives at `now`. */
  function Greeted(t: Turn, now: nat): Turn {
    Go(Say(t, GreetingText, now), ConceptInput, now)
  }

  /** The greeting effect as written: the guard is a flag of the component, set by the first
      greeting and never cleared. The result pairs the new flag with the new turn. */
  function GreetAsWritten(hasGreeted: bool, t: Turn, now: nat): (bool, Turn) {
    if !hasGreeted && |t.session.messages| == 0 then (true, Greeted(t, now)) else (hasGreeted, t)
  }

  /** The component outlives the session (it is not keyed by it), so after the first greeting
      the flag stays set: a session installed by a reset or a mode toggle starts with no
      messages, the effect does nothing however often it runs, and the welcome screen never
      gives way to an input box. */
  lemma AsWrittenStrandsNewSession(first: Turn, id: string, serial: nat, now: nat, later: nat)
    requires |first.session.messages| == 0
    ensures GreetAsWritten(false, first, now).0 == true
    ensures var reset := Turn(InitialSession(id, later), serial);
      && GreetAsWritten(GreetAsWritten(false, first, now).0, reset, later) == (true, reset)
      && !AcceptsInput(reset.session)
      && reset.session.currentStep == Greeting
  {
  }

  /** The greeting effect with the guard keyed by the session: a session with no messages is
      greeted unless it is the one greeted last. */
  function Greet(greetedSession: Option<string>, t: Turn, now: nat): (Option<string>, Turn) {
    if greetedSession != Some(t.session.sessionId) && |t.session.messages| == 0
    then (Some(t.session.sessionId), Greeted(t, now))
    else (greetedSession, t)
  }

  /** A session with no messages that was not greeted gets exactly the greeting, moves to
      CONCEPT_INPUT and accepts input; running the effect again adds nothing. */
  lemma GreetsOnce(greetedSession: Option<string>, t: Turn, now: nat, again: nat)
    requires |t.session.messages| == 0 && greetedSession != Some(t.session.sessionId)
    ensures var g := Greet(greetedSession, t, now);
      && g.0 == Some(t.session.sessionId)
      && g.1.session.messages == [Message(Uuid(t.serial), Assistant, GreetingText, now, None)]
      && g.1.session.currentStep == ConceptInput
      && AcceptsInput(g.1.session)
      && Greet(g.0, g.1, again) == g
  {
  }

  /** With the keyed guard a session installed by a reset is greeted like the first one, since
      its id is new. On the first session the two guards agree. */
  lemma GreetsAfterReset(first: Turn, id: string, serial: nat, now: nat, later: nat)
    requires |first.session.messages| == 0 && id != first.session.sessionId
    ensures Greet(None, first, now).1 == GreetAsWritten(false, first, now).1
    ensures var reset := Turn(InitialSession(id, later), serial);
      var g := Greet(Greet(None, first, now).0, reset, later);
      && g.1 == Greeted(reset, later)
      && AcceptsInput(g.1.session)
  {
  }

  // ---------------------------------------------------------------------------------------
  // The component
  // ---------------------------------------------------------------------------------------

  /** The chat component: the store it is bound to and the client it sends requests with. */
  class ChatInterface {
    const store: Store
    const client: MockModeSwitch
    /** The session the greeting effect last greeted. */
    var greetedSession: Option<string>

    constructor(store: Store, client: MockModeSwitch)
      ensures this.store == store && this.client == client && greetedSession == None
    {
      this.store := store;
      this.client := client;
      greetedSession := None;
    }

    /** The greeting effect, run whenever the session changes: the store and the guard end as
        `Greet` says; without a session nothing happens. */
    method GreetNewSession(now: nat)
      requires store.Valid()
      modifies this, store, store.StorageObjects()
      ensures store.Valid() && store.useMockMode == old(store.useMockMode)
      ensures old(store.session).None? ==>
                store.session == None && store.nextSerial == old(store.nextSerial)
                && greetedSession == old(greetedSession)
      ensures old(store.session).Some? ==>
                var g := Greet(old(greetedSession), Turn(old(store.session).value, old(store.nextSerial)), now);
                greetedSession == g.0 && store.session == Some(g.1.session) && store.nextSerial == g.1.serial
    {
      if store.session.None? {
        return;
      }
      var session := store.session.value;
      if greetedSession != Some(session.sessionId) && |session.messages| == 0 {
        greetedSession := Some(session.sessionId);
        ReplyAndGo(GreetingText, ConceptInput, now);
      }
    }

    /** The session and identifier counter the store holds. */
    function Current(): Turn
      reads store
      requires store.session.Some?
    {
      Turn(store.session.value, store.nextSerial)
    }

    /** `addMessage({role: 'assistant', content})`. */
    method Reply(content: string, now: nat)
      requires store.Valid() && store.session.Some?
      modifies store, store.StorageObjects()
      ensures store.Valid() && store.session.Some? && store.useMockMode == old(store.useMockMode)
      ensures Current() == Say(old(Current()), content, now)
    {
      store.AddMessage(Assistant, content, None, now);
    }

    /** A reply, then `setStep(step)`. */
    method ReplyAndGo(content: string, step: ConversationStep, now: nat)
      requires store.Valid() && store.session.Some?
      modifies store, store.StorageObjects()
      ensures store.Valid() && store.session.Some? && store.useMockMode == old(store.useMockMode)
      ensures Current() == Go(Say(old(Current()), content, now), step, now)
    {
      Reply(content, now);
      store.SetStep(step, now);
    }

    /** The concept sent to be classified and, when the classification arrives, recorded. */
    method Classify(message: string, api: Api, later: nat) returns (raised: bool)
      requires store.Valid() && store.session.Some?
      modifies store, store.StorageObjects()
      ensures store.Valid() && store.session.Some? && store.useMockMode == old(store.useMockMode)
      ensures var reply := Perform(ClassifyCall(ClassifyDeviceRequest(message, None)), api);
        && raised == !reply.Classified?
        && Current() == if raised then old(Current()) else ClassifiedTurn(old(Current()), reply.classified, later)
    {
      var reply := Perform(ClassifyCall(ClassifyDeviceRequest(message, None)), api);
      if !reply.Classified? {
        return true;
      }
      var response := reply.classified;
      store.SetClassification(response.classification, later);
      store.AddMessage(Assistant, AcknowledgeClassification,
                       Some(ClassificationMeta(response.classification, response.suggestedCategories)), later);
      store.SetStep(ConversationStep.DeviceClassification, later);
      raised := false;
    }

    /** CONCEPT_INPUT. */
    method ConceptStep(snapshot: SessionState, message: string, w: Words, api: Api, later: nat)
      returns (raised: bool, at: nat)
      requires store.Valid() && store.session.Some? && snapshot.currentStep == ConceptInput
      modifies store, store.StorageObjects()
      ensures store.Valid() && store.session.Some? && store.useMockMode == old(store.useMockMode)
      ensures var e := ConceptBranch(old(Current()), ReplyOf(snapshot, message, w, api), later);
        raised == e.Raised? && at == e.at && Current() == e.turn
    {
      raised := Classify(message, api, later);
      at := later;
    }

    /** DEVICE_CLASSIFICATION. */
    method ClassificationStep(w: Words, now: nat)
      requires store.Valid() && store.session.Some?
      modifies store, store.StorageObjects()
      ensures store.Valid() && store.session.Some? && store.useMockMode == old(store.useMockMode)
      ensures Current() == ClassificationBranch(old(Current()), w, now).turn
    {
      if w.proceed {
        ReplyAndGo(AcknowledgeCategory, ConversationStep.ProductCategory, now);
      } else if w.revise {
        ReplyAndGo(ReenterConcept, ConceptInput, now);
      } else {
        Reply(ReviewClassification, now);
      }
    }

    /** The purpose and mechanism requested for a classified session and, when they arrive,
        recorded. */
    method Describe(snapshot: SessionState, message: string, api: Api, later: nat) returns (raised: bool)
      requires store.Valid() && store.session.Some? && snapshot.classification.Some?
      modifies store, store.StorageObjects()
      ensures store.Valid() && store.session.Some? && store.useMockMode == old(store.useMockMode)
      ensures var category := snapshot.classification.value.category;
        var reply := Perform(PurposeCall(message, OrElse(category, "")), api);
        && raised == !reply.Described?
        && Current() == if raised then old(Current()) else DescribedTurn(old(Current()), category, reply.described, later)
    {
      var category := snapshot.classification.value.category;
      var reply := Perform(PurposeCall(message, OrElse(category, "")), api);
      if !reply.Described? {
        return true;
      }
      store.SetPurposeMechanism(reply.described, later);
      if Truthy(category) {
        store.SetCategory(SuggestedCategory(category.value), later);
      }
      store.AddMessage(Assistant, AcknowledgePurpose, Some(PurposeMeta(reply.described)), later);
      store.SetStep(ConversationStep.PurposeMechanism, later);
      raised := false;
    }

    /** PRODUCT_CATEGORY. */
    method CategoryStep(snapshot: SessionState, message: string, w: Words, api: Api, now: nat, later: nat)
      returns (raised: bool, at: nat)
      requires store.Valid() && store.session.Some? && snapshot.currentStep == ProductCategory
      modifies store, store.StorageObjects()
      ensures store.Valid() && store.session.Some? && store.useMockMode == old(store.useMockMode)
      ensures var e := CategoryBranch(old(Current()), snapshot, w, ReplyOf(snapshot, message, w, api), now, later);
        raised == e.Raised? && at == e.at && Current() == e.turn
    {
      raised := false;
      at := if w.proceed && snapshot.classification.Some? then later else now;
      if w.proceed && snapshot.classification.Some? {
        raised := Describe(snapshot, message, api, later);
      } else if w.revise {
        ReplyAndGo(BackToClassification, ConceptInput, now);
      } else {
        Reply(ReviewCategory, now);
      }
    }

    /** The plans requested from the results of a session, recorded, then `content` said. */
    method PlansArrive(snapshot: SessionState, api: Api, content: string, later: nat) returns (raised: bool)
      requires store.Valid() && store.session.Some? && HasResults(snapshot)
      modifies store, store.StorageObjects()
      ensures store.Valid() && store.session.Some? && store.useMockMode == old(store.useMockMode)
      ensures var reply := Perform(PlansCall(PlansRequest(snapshot)), api);
        raised == !reply.Planned?
        && Current() == if raised then old(Current())
                        else Say(Turn(WithPlans(old(Current()).session, reply.planned, later), old(store.nextSerial)), content, later)
    {
      var reply := Perform(PlansCall(PlansRequest(snapshot)), api);
      if !reply.Planned? {
        return true;
      }
      store.SetPlans(reply.planned, later);
      Reply(content, later);
      raised := false;
    }

    /** PURPOSE_MECHANISM. */
    method PurposeStep(snapshot: SessionState, message: string, w: Words, api: Api, now: nat, later: nat)
      returns (raised: bool, at: nat)
      requires store.Valid() && store.session.Some? && snapshot.currentStep == PurposeMechanism
      modifies store, store.StorageObjects()
      ensures store.Valid() && store.session.Some? && store.useMockMode == old(store.useMockMode)
      ensures var e := PurposeBranch(old(Current()), snapshot, w, ReplyOf(snapshot, message, w, api), now, later);
        raised == e.Raised? && at == e.at && Current() == e.turn
    {
      raised := false;
      at := if w.proceed && HasResults(snapshot) then later else now;
      if w.proceed {
        if HasResults(snapshot) {
          Reply(GeneratingPlans, now);
          raised := PlansArrive(snapshot, api, PresentPlans, later);
          if !raised {
            store.SetStep(PlanGeneration, later);
          }
        }
      } else if w.revise {
        ReplyAndGo(RedoPurpose, ConceptInput, now);
      } else {
        Reply(ReviewPurpose, now);
      }
    }

    /** PLAN_GENERATION and PLAN_REVIEW. */
    method PlansStep(snapshot: SessionState, message: string, w: Words, api: Api, now: nat, later: nat)
      returns (raised: bool, at: nat)
      requires store.Valid() && store.session.Some?
      requires snapshot.currentStep == PlanGeneration || snapshot.currentStep == PlanReview
      modifies store, store.StorageObjects()
      ensures store.Valid() && store.session.Some? && store.useMockMode == old(store.useMockMode)
      ensures var e := PlansBranch(old(Current()), snapshot, w, ReplyOf(snapshot, message, w, api), now, later);
        raised == e.Raised? && at == e.at && Current() == e.turn
    {
      raised := false;
      at := if !w.proceed && !w.revise && w.regenerate && HasResults(snapshot) then later else now;
      if w.proceed {
        Reply(ChoosePlan, now);
      } else if w.revise {
        Reply(RegeneratePrompt, now);
      } else if w.regenerate && HasResults(snapshot) {
        Reply(Regenerating, now);
        raised := PlansArrive(snapshot, api, Regenerated, later);
      } else if w.restart {
        ReplyAndGo(Restarting, ConceptInput, now);
      } else {
        Reply(PlanHelp, now);
      }
    }

    /** The `switch` on the step of the session the handler was rendered with. */
    method Dispatch(snapshot: SessionState, message: string, w: Words, api: Api, now: nat, later: nat)
      returns (raised: bool, at: nat)
      requires store.Valid() && store.session.Some?
      modifies store, store.StorageObjects()
      ensures store.Valid() && store.session.Some? && store.useMockMode == old(store.useMockMode)
      ensures var e := Branch(old(Current()), snapshot, w, ReplyOf(snapshot, message, w, api), now, later);
        raised == e.Raised? && at == e.at && Current() == e.turn
    {
      raised, at := false, now;
      match snapshot.currentStep {
        case ConceptInput =>
          raised, at := ConceptStep(snapshot, message, w, api, later);
        case DeviceClassification =>
          ClassificationStep(w, now);
        case ProductCategory =>
          raised, at := CategoryStep(snapshot, message, w, api, now, later);
        case PurposeMechanism =>
          raised, at := PurposeStep(snapshot, message, w, api, now, later);
        case PlanGeneration =>
          raised, at := PlansStep(snapshot, message, w, api, now, later);
        case PlanReview =>
          raised, at := PlansStep(snapshot, message, w, api, now, later);
        case Greeting =>
          Reply(DefaultReply, now);
        case FinalConfirmation =>
          Reply(DefaultReply, now);
      }
    }

    /** The user's message recorded, then `setLoading(true)`. */
    method Begin(message: string, now: nat)
      requires store.Valid() && store.session.Some?
      modifies store, store.StorageObjects()
      ensures store.Valid() && store.session.Some? && store.useMockMode == old(store.useMockMode)
      ensures Current() == Started(old(Current()), message, now)
    {
      store.AddMessage(User, message, None, now);
      store.SetLoading(true, now);
    }

    /** The `catch` (an apology if the branch was rejected) and the `finally`. */
    method Conclude(ghost e: Ending, raised: bool, at: nat)
      requires store.Valid() && store.session.Some?
      requires Current() == e.turn && raised == e.Raised? && at == e.at
      modifies store, store.StorageObjects()
      ensures store.Valid() && store.session.Some? && store.useMockMode == old(store.useMockMode)
      ensures Current() == Finish(e)
    {
      if raised {
        FinishRaised(e);
        Reply(Apology, at);
      }
      store.SetLoading(false, at);
    }

    /** The handler on a session: the store ends as `Respond` says. */
    method Send(message: string, api: Api, now: nat, later: nat)
      requires store.Valid() && store.session.Some?
      modifies store, store.StorageObjects()
      ensures store.Valid() && store.session.Some? && store.useMockMode == old(store.useMockMode)
      ensures Current() == Respond(old(Current()), message, api, now, later)
    {
      var snapshot := store.session.value;
      ghost var t := Current();
      Begin(message, now);
      var w := WordsOf(message);
      ghost var e := Branch(Current(), snapshot, w, ReplyOf(snapshot, message, w, api), now, later);
      var raised, at := Dispatch(snapshot, message, w, api, now, later);
      Conclude(e, raised, at);
      assert Respond(t, message, api, now, later) == Finish(e) by {
        RespondByBranch(t, message, api, now, later);
      }
    }

    /** `handleSend(message)`: the store ends as `Respond` says, with the client's mock
        switch read when the request is sent. Without a session nothing happens. */
    method HandleSend(message: string, backend: Backend, now: nat, later: nat)
      requires store.Valid()
      modifies store, store.StorageObjects()
      ensures store.Valid() && store.useMockMode == old(store.useMockMode)
      ensures old(store.session).None? ==> store.session == None && store.nextSerial == old(store.nextSerial)
      ensures old(store.session).Some? ==>
                var r := Respond(Turn(old(store.session).value, old(store.nextSerial)), message,
                                 Api(client.ShouldUseMock(), backend, client.mocks), now, later);
                store.session == Some(r.session) && store.nextSerial == r.serial
    {
      if store.session.None? {
        return;
      }
      var api := Api(client.ShouldUseMock(), backend, client.mocks);
      Send(message, api, now, later);
    }
  }
}
