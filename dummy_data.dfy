/** The mock fixtures the client returns in mock mode (lib/mock/dummyData.ts). */
module DummyData {
  import opened Wrappers
  import opened Strings
  import opened Types

  /** The fixture classification (its floating-point `confidence` is not modelled). */
  function MockClassification(): DeviceClassification {
    Classification(
      true,
      "제시된 개념은 의료 목적으로 사용되며, 질병의 진단 또는 치료를 보조하는 소프트웨어로 의료기기에 해당합니다.",
      Some("영상의학 진단보조 소프트웨어"),
      Some(ClassII))
  }

  function MockCategories(): seq<ProductCategory> {
    [
      Category(
        "A41010.01",
        "영상의학 진단보조 소프트웨어",
        "의료영상을 분석하여 병변을 검출하거나 의료진의 진단을 보조하는 소프트웨어",
        "2등급 의료기기 - 인허가 필요"),
      Category(
        "A41010.02",
        "의료영상 처리 소프트웨어",
        "의료영상의 화질 개선 및 처리를 수행하는 소프트웨어",
        "1등급 의료기기 - 신고")
    ]
  }

  function MockPurposeMechanism(): PurposeMechanism {
    PurposeAndMechanism(
      "CT 영상에서 폐결절을 자동으로 검출하여 의료진의 진단을 보조",
      "딥러닝 알고리즘을 활용하여 CT 영상을 분석하고 의심 병변을 표시",
      "폐결절 검진이 필요한 성인 환자",
      "조기 발견을 통한 치료 시기 단축 및 생존율 향상",
      Some(["18세 미만 소아", "영상 품질이 불량한 경우"]))
  }

  /** `mockResponses`: the assistant's fixed texts. */
  const GreetingText := "안녕하세요! RAiDesk 의료기기 인허가 어시스턴트입니다. 👋\n\n저는 여러분의 의료기기 아이디어를 인허가까지 안내해드리는 AI 어시스턴트입니다.\n\n다음과 같은 절차로 진행됩니다:\n1️⃣ 제품 개념 확인\n2️⃣ 의료기기 해당 여부 판단\n3️⃣ 품목 분류 및 등급 결정\n4️⃣ 사용 목적과 작용 원리 정의\n5️⃣ 인허가 전략 수립 (4가지 옵션)\n\n어떤 의료기기를 개발하고 계신가요? 간단히 설명해주세요."
  const AcknowledgeClassification := "입력하신 내용을 바탕으로 분석한 결과입니다.\n\n의료기기 해당 여부와 품목 분류를 확인해주세요. 수정이 필요하시면 말씀해주세요."
  const AcknowledgeCategory := "품목 분류가 확정되었습니다.\n\n이제 구체적인 사용 목적과 작용 원리를 정의하겠습니다. 제안된 내용을 확인해주세요."
  const AcknowledgePurpose := "사용 목적과 작용 원리가 확정되었습니다.\n\n이제 인허가 전략을 수립하겠습니다. 최단, 표준, 보수적, 혁신 경로의 4가지 옵션을 제시해드리겠습니다."
  const PresentPlans := "4가지 인허가 전략을 준비했습니다.\n\n각 카드를 클릭하시면 상세 내용을 확인하실 수 있습니다. 필요시 수정 요청도 가능합니다."

  /** A duration of `n` weeks, written as the fixtures write it ("2주" is `Weeks(2)`). */
  function Weeks(n: nat): string {
    NatToString(n) + "주"
  }

  /** The number of weeks a duration string states, if it has the form digits + "주". */
  function WeeksOf(d: string): Option<nat> {
    if |d| >= 2 && d[|d| - 1] == '주' && AllDigits(d[..|d| - 1]) then Some(ParseNat(d[..|d| - 1]))
    else None
  }

  /** Reading back a duration gives its number of weeks. */
  lemma WeeksOfWeeks(n: nat)
    ensures WeeksOf(Weeks(n)) == Some(n)
  {
    var d := Weeks(n);
    assert d[..|d| - 1] == NatToString(n);
    ParseNatToString(n);
  }

  /** The source's `tier === FASTEST ? a : tier === NORMAL ? b : tier === CONSERVATIVE ? c : d`:
      the last choice is the fall-through taken by the innovative tier. */
  function ByTier(tier: PlanTier, fastest: nat, normal: nat, conservative: nat, otherwise: nat): nat {
    if tier == Fastest then fastest
    else if tier == Normal then normal
    else if tier == Conservative then conservative
    else otherwise
  }

  /** Every dependency of a phase names a phase that comes earlier in the same timeline. */
  predicate DependenciesEarlier(timeline: seq<TimelineItem>) {
    forall i :: 0 <= i < |timeline| && timeline[i].dependencies.Some? ==>
      forall d :: d in timeline[i].dependencies.value ==>
        exists j :: 0 <= j < i && timeline[j].phase == d
  }

  function InnovativeDesignation(): TimelineItem {
    TimelineItem(
      "혁신의료기기 지정",
      "혁신의료기기로 지정 신청 및 우선심사",
      Weeks(4),
      None,
      ["혁신의료기기 지정서", "우선심사 승인"])
  }

  /** The three common-standards phases every tier has. */
  function BaseCommonStandardsTimeline(tier: PlanTier): (timeline: seq<TimelineItem>)
    ensures |timeline| == 3
  {
    [
      TimelineItem(
        "문서 준비",
        "기술문서 및 임상시험계획서 작성",
        Weeks(ByTier(tier, 2, 4, 6, 3)),
        None,
        ["기술문서", "eCTD 구성", "임상시험계획서"]),
      TimelineItem(
        "품질관리체계",
        "ISO 13485 인증 준비 및 획득",
        Weeks(ByTier(tier, 8, 12, 16, 10)),
        Some(["문서 준비"]),
        ["ISO 13485 인증서", "QMS 문서"]),
      TimelineItem(
        "생물학적 안전성",
        "ISO 10993 시험 (해당시)",
        Weeks(ByTier(tier, 4, 6, 8, 5)),
        Some(["문서 준비"]),
        ["생물학적 안전성 시험 보고서"])
    ]
  }

  /** The common-standards timeline of a tier: three phases, and a fourth (innovative-device
      designation) exactly for the innovative tier. */
  function CommonStandardsTimeline(tier: PlanTier): (timeline: seq<TimelineItem>)
    ensures |timeline| == if tier == Innovative then 4 else 3
    ensures timeline[..3] == BaseCommonStandardsTimeline(tier)
    ensures tier == Innovative ==> timeline[3] == InnovativeDesignation()
    ensures DependenciesEarlier(timeline)
  {
    var base := BaseCommonStandardsTimeline(tier);
    assert base[0].phase == "문서 준비";
    if tier == Innovative then base + [InnovativeDesignation()] else base
  }

  /** `createCommonStandardsTimeline`: builds the three phases, then pushes the fourth for the
      innovative tier. */
  method CreateCommonStandardsTimeline(tier: PlanTier) returns (timeline: seq<TimelineItem>)
    ensures timeline == CommonStandardsTimeline(tier)
  {
    timeline := BaseCommonStandardsTimeline(tier);
    if tier == Innovative {
      timeline := timeline + [InnovativeDesignation()];
    }
  }

  /** `createPerformanceTimeline`: always the same three phases, durations by tier. */
  function PerformanceTimeline(tier: PlanTier): (timeline: seq<TimelineItem>)
    ensures |timeline| == 3
    ensures DependenciesEarlier(timeline)
  {
    var timeline := [
      TimelineItem(
        "알고리즘 검증",
        "성능 평가를 위한 알고리즘 검증 시험",
        Weeks(ByTier(tier, 4, 8, 12, 6)),
        None,
        ["알고리즘 검증 보고서", "통계 분석 결과"]),
      TimelineItem(
        "임상성능시험",
        "실제 임상 환경에서의 성능 평가",
        Weeks(ByTier(tier, 12, 16, 24, 14)),
        Some(["알고리즘 검증"]),
        ["임상시험 보고서", "IRB 승인서"]),
      TimelineItem(
        "S/W 검증",
        "IEC 62304 기반 소프트웨어 검증",
        Weeks(ByTier(tier, 6, 8, 12, 7)),
        None,
        ["소프트웨어 검증 보고서", "V&V 문서"])
    ];
    assert timeline[0].phase == "알고리즘 검증";
    timeline
  }

  /** The weeks each tier gives the three common-standards phases (documents, quality system,
      biological safety). */
  function CommonStandardsWeeksTable(tier: PlanTier): seq<nat> {
    [ByTier(tier, 2, 4, 6, 3), ByTier(tier, 8, 12, 16, 10), ByTier(tier, 4, 6, 8, 5)]
  }

  /** The weeks each tier gives the three performance phases (algorithm validation, clinical
      performance study, software verification). */
  function PerformanceWeeksTable(tier: PlanTier): seq<nat> {
    [ByTier(tier, 4, 8, 12, 6), ByTier(tier, 12, 16, 24, 14), ByTier(tier, 6, 8, 12, 7)]
  }

  /** The durations the common-standards phases are written with, by tier. */
  lemma CommonStandardsDurations(tier: PlanTier)
    ensures forall k :: 0 <= k < 3 ==>
      CommonStandardsTimeline(tier)[k].duration == Weeks(CommonStandardsWeeksTable(tier)[k])
  {
    var t := CommonStandardsTimeline(tier);
    assert t[..3] == BaseCommonStandardsTimeline(tier);
    assert t[0] == t[..3][0] && t[1] == t[..3][1] && t[2] == t[..3][2];
  }

  /** The common-standards durations read back, phase by phase, as the tier table gives them
      (the innovative tier's fourth, designation phase takes four weeks). */
  lemma CommonStandardsWeeks(tier: PlanTier)
    ensures forall k :: 0 <= k < 3 ==>
      WeeksOf(CommonStandardsTimeline(tier)[k].duration) == Some(CommonStandardsWeeksTable(tier)[k])
    ensures tier == Innovative ==> WeeksOf(CommonStandardsTimeline(tier)[3].duration) == Some(4)
  {
    CommonStandardsDurations(tier);
    forall k | 0 <= k < 3
      ensures WeeksOf(CommonStandardsTimeline(tier)[k].duration) == Some(CommonStandardsWeeksTable(tier)[k])
    {
      WeeksOfWeeks(CommonStandardsWeeksTable(tier)[k]);
    }
    if tier == Innovative {
      WeeksOfWeeks(4);
    }
  }

  /** The durations the performance phases are written with, by tier. */
  lemma PerformanceDurations(tier: PlanTier)
    ensures forall k :: 0 <= k < 3 ==>
      PerformanceTimeline(tier)[k].duration == Weeks(PerformanceWeeksTable(tier)[k])
  {
  }

  /** The performance-evaluation durations read back, phase by phase, as the tier table gives them. */
  lemma PerformanceWeeks(tier: PlanTier)
    ensures forall k :: 0 <= k < 3 ==>
      WeeksOf(PerformanceTimeline(tier)[k].duration) == Some(PerformanceWeeksTable(tier)[k])
  {
    PerformanceDurations(tier);
    forall k | 0 <= k < 3
      ensures WeeksOf(PerformanceTimeline(tier)[k].duration) == Some(PerformanceWeeksTable(tier)[k])
    {
      WeeksOfWeeks(PerformanceWeeksTable(tier)[k]);
    }
  }

  /** How long a tier is meant to take, shortest first: fastest, innovative, normal,
      conservative. */
  function PaceRank(tier: PlanTier): nat {
    match tier
    case Fastest => 0
    case Innovative => 1
    case Normal => 2
    case Conservative => 3
  }

  /** The tiers live up to their names: in every shared phase of both timelines a tier of lower
      pace rank is given no more weeks than one of higher rank. */
  lemma TierWeeksOrdered(a: PlanTier, b: PlanTier)
    requires PaceRank(a) <= PaceRank(b)
    ensures forall k :: 0 <= k < 3 ==> CommonStandardsWeeksTable(a)[k] <= CommonStandardsWeeksTable(b)[k]
    ensures forall k :: 0 <= k < 3 ==> PerformanceWeeksTable(a)[k] <= PerformanceWeeksTable(b)[k]
  {
  }

  function PlanFastest(): Plan {
    Plan(
      "plan-fastest",
      Fastest,
      "최단 경로",
      "최소한의 요구사항을 충족하여 가장 빠르게 인허가를 받는 전략",
      "6개월",
      Some("1억 ~ 1.5억원"),
      High,
      CommonStandards(
        CommonStandardsTimeline(Fastest),
        ["ISO 13485", "ISO 14971", "IEC 62304"],
        ["기술문서", "위험관리 파일", "eCTD"]),
      PerformanceEvaluation(
        PerformanceTimeline(Fastest),
        ["알고리즘 검증", "임상성능시험 (최소 사례)", "S/W 검증"],
        ["시험계획서", "시험보고서", "V&V 문서"]),
      ["가장 빠른 시장 진입", "초기 비용 최소화", "빠른 피드백 수집 가능"],
      ["심사 반려 위험 높음", "추가 자료 요청 가능성", "시장 신뢰도 낮을 수 있음"],
      ["명확한 규제 근거가 있는 경우 적합", "스타트업 초기 단계에 유리", "빠른 시장 검증이 필요한 경우"])
  }

  function PlanNormal(): Plan {
    Plan(
      "plan-normal",
      Normal,
      "표준 경로",
      "업계 표준을 따르는 균형잡힌 인허가 전략",
      "9-10개월",
      Some("1.5억 ~ 2.5억원"),
      Medium,
      CommonStandards(
        CommonStandardsTimeline(Normal),
        ["ISO 13485", "ISO 14971", "IEC 62304", "IEC 82304-1"],
        ["기술문서", "위험관리 파일", "eCTD", "사용성 평가"]),
      PerformanceEvaluation(
        PerformanceTimeline(Normal),
        ["알고리즘 검증", "임상성능시험 (적정 사례)", "S/W 검증", "사용성 평가"],
        ["시험계획서", "시험보고서", "V&V 문서", "사용성 보고서"]),
      ["승인 가능성 높음", "적정 수준의 투자", "시장 신뢰도 확보"],
      ["중간 수준의 기간 소요", "표준 비용 발생"],
      ["대부분의 의료기기 제조사에 권장", "안정적인 인허가를 원하는 경우", "중장기적 사업 계획이 있는 경우"])
  }

  function PlanConservative(): Plan {
    Plan(
      "plan-conservative",
      Conservative,
      "보수적 경로",
      "최대한 많은 근거를 확보하여 심사 통과를 보장하는 전략",
      "12-15개월",
      Some("2.5억 ~ 4억원"),
      Low,
      CommonStandards(
        CommonStandardsTimeline(Conservative),
        ["ISO 13485", "ISO 14971", "IEC 62304", "IEC 82304-1", "ISO 27001"],
        ["기술문서", "위험관리 파일", "eCTD", "사용성 평가", "보안성 평가"]),
      PerformanceEvaluation(
        PerformanceTimeline(Conservative),
        ["알고리즘 검증 (다수 데이터셋)", "다기관 임상성능시험", "S/W 검증", "사용성 평가", "보안성 평가"],
        ["시험계획서", "시험보고서", "V&V 문서", "사용성 보고서", "보안성 보고서", "다기관 임상 데이터"]),
      ["심사 통과 확률 최대화", "높은 시장 신뢰도", "글로벌 인허가 대비"],
      ["긴 개발 기간", "높은 비용", "시장 진입 지연"],
      ["대기업 또는 충분한 자금이 있는 경우", "글로벌 시장 진출 계획이 있는 경우", "고위험 제품인 경우"])
  }

  function PlanInnovative(): Plan {
    Plan(
      "plan-innovative",
      Innovative,
      "혁신 경로",
      "혁신의료기기로 지정받아 우선심사 및 지원을 받는 전략",
      "7-8개월",
      Some("1.8억 ~ 2.8억원"),
      Medium,
      CommonStandards(
        CommonStandardsTimeline(Innovative),
        ["ISO 13485", "ISO 14971", "IEC 62304", "IEC 82304-1"],
        ["기술문서", "위험관리 파일", "eCTD", "혁신성 입증 자료", "혁신의료기기 신청서"]),
      PerformanceEvaluation(
        PerformanceTimeline(Innovative),
        ["알고리즘 검증", "임상성능시험", "S/W 검증", "혁신성 평가"],
        ["시험계획서", "시험보고서", "V&V 문서", "혁신성 입증 자료", "기술적 우수성 보고서"]),
      ["우선 심사로 기간 단축", "정부 지원금 수혜 가능", "시장 주목도 높음"],
      ["혁신성 입증 필요", "지정 심사 추가 소요", "지정 거부시 일반 경로로 전환"],
      ["기술적 혁신성이 명확한 경우", "세계 최초 또는 국내 최초 기술", "정부 지원 사업과 연계 가능한 경우"])
  }

  /** The ids of the fixture plans. */
  const MockPlanIds := ["plan-fastest", "plan-normal", "plan-conservative", "plan-innovative"]

  lemma MockPlanIdsDistinct()
    ensures forall i, j :: 0 <= i < j < |MockPlanIds| ==> MockPlanIds[i] != MockPlanIds[j]
  {
  }

  /** `mockPlans`: four plans, one per tier in tier order, carrying the fixture ids. */
  function MockPlans(): (plans: seq<Plan>)
    ensures |plans| == |MockPlanIds| == 4
    ensures forall i :: 0 <= i < |plans| ==> plans[i].id == MockPlanIds[i]
    ensures [plans[0].tier, plans[1].tier, plans[2].tier, plans[3].tier] == [Fastest, Normal, Conservative, Innovative]
  {
    [PlanFastest(), PlanNormal(), PlanConservative(), PlanInnovative()]
  }

  /** The fixtures the client answers with in mock mode. */
  datatype Fixtures = Fixtures(
    classification: DeviceClassification,
    categories: seq<ProductCategory>,
    purposeMechanism: PurposeMechanism,
    plans: seq<Plan>)

  function MockFixtures(): Fixtures {
    Fixtures(MockClassification(), MockCategories(), MockPurposeMechanism(), MockPlans())
  }

  /** Each mock plan carries the timelines built for its own tier. */
  lemma MockPlansTimelines()
    ensures var plans := MockPlans();
      && plans[0].commonStandards.timeline == CommonStandardsTimeline(Fastest)
      && plans[1].commonStandards.timeline == CommonStandardsTimeline(Normal)
      && plans[2].commonStandards.timeline == CommonStandardsTimeline(Conservative)
      && plans[3].commonStandards.timeline == CommonStandardsTimeline(Innovative)
      && plans[0].performanceEvaluation.timeline == PerformanceTimeline(Fastest)
      && plans[1].performanceEvaluation.timeline == PerformanceTimeline(Normal)
      && plans[2].performanceEvaluation.timeline == PerformanceTimeline(Conservative)
      && plans[3].performanceEvaluation.timeline == PerformanceTimeline(Innovative)
  {
  }
}
