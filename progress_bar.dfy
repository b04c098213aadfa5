/** The step progress bar (components/panels/ProgressBar.tsx): one entry per workflow step and
    what each entry shows for the session's current step. */
module ProgressBar {
  import opened Types

  /** An entry of the `STEPS` table. */
  datatype StepEntry = StepEntry(step: ConversationStep, labelText: string)

  /** `STEPS`. */
  const Steps: seq<StepEntry> := [
    StepEntry(Greeting, "시작"),
    StepEntry(ConceptInput, "개념 입력"),
    StepEntry(ConversationStep.DeviceClassification, "분류"),
    StepEntry(ConversationStep.ProductCategory, "품목"),
    StepEntry(ConversationStep.PurposeMechanism, "목적/원리"),
    StepEntry(PlanGeneration, "플랜 생성"),
    StepEntry(PlanReview, "검토"),
    StepEntry(FinalConfirmation, "완료")
  ]

  /** What the round badge of an entry shows: a check mark or the entry's position. */
  datatype Badge = Check | Number(n: nat)

  /** What the bar derives for one entry: whether it is the current step, whether it lies
      behind, whether its badge is highlighted, the badge, and whether a connector follows it
      and is filled. */
  datatype EntryView = EntryView(
    isActive: bool,
    isCompleted: bool,
    highlighted: bool,
    badge: Badge,
    hasConnector: bool,
    connectorFilled: bool)

  /** The view of the entry at `index` when the session is at `current`. */
  function ViewAt(current: ConversationStep, index: nat): EntryView
    requires index < |Steps|
  {
    var step := Steps[index].step;
    var isActive := current == step;
    var isCompleted := StepValue(current) > StepValue(step);
    EntryView(isActive, isCompleted, isCompleted || isActive,
              if isCompleted then Check else Number(index + 1),
              index < |Steps| - 1, isCompleted)
  }

  /** `STEPS.map(...)`. */
  function Views(current: ConversationStep): (vs: seq<EntryView>)
    ensures |vs| == |Steps|
  {
    seq(|Steps|, i requires 0 <= i < |Steps| => ViewAt(current, i))
  }

  /** The table lists every step once, in enum order: entry `i` is the step with value `i`. */
  lemma StepsInEnumOrder()
    ensures |Steps| == 8
    ensures forall i :: 0 <= i < |Steps| ==> StepValue(Steps[i].step) == i
    ensures forall s: ConversationStep :: Steps[StepValue(s)].step == s
  {
  }

  /** Exactly one entry is active, the one at the current step's position; the completed
      entries are exactly those before it; no entry is both; the badge is a check mark on the
      completed entries and the one-based position on the others. */
  lemma {:induction false} ViewsFollowStep(current: ConversationStep)
    ensures var vs := Views(current);
      && (forall i :: 0 <= i < |vs| ==> (vs[i].isActive <==> i == StepValue(current)))
      && (forall i :: 0 <= i < |vs| ==> (vs[i].isCompleted <==> i < StepValue(current)))
      && (forall i :: 0 <= i < |vs| ==> !(vs[i].isActive && vs[i].isCompleted))
      && (forall i :: 0 <= i < |vs| ==> (vs[i].highlighted <==> i <= StepValue(current)))
      && (forall i :: 0 <= i < |vs| ==> vs[i].badge == if i < StepValue(current) then Check else Number(i + 1))
  {
    StepsInEnumOrder();
    var vs := Views(current);
    forall i | 0 <= i < |vs|
      ensures vs[i].isActive <==> i == StepValue(current)
    {
      assert vs[i] == ViewAt(current, i);
      assert Steps[StepValue(current)].step == current;
    }
  }

  /** Exactly one active entry, counted. */
  function CountActive(vs: seq<EntryView>): nat {
    if vs == [] then 0 else (if vs[0].isActive then 1 else 0) + CountActive(vs[1..])
  }

  /** No active entry among entries that are not active. */
  lemma {:induction false} NoneActive(vs: seq<EntryView>)
    requires forall i :: 0 <= i < |vs| ==> !vs[i].isActive
    ensures CountActive(vs) == 0
  {
    if vs != [] {
      NoneActive(vs[1..]);
    }
  }

  /** The count is one when exactly the entry at `k` is active. */
  lemma {:induction false} OnlyOneActive(vs: seq<EntryView>, k: nat)
    requires k < |vs|
    requires forall i :: 0 <= i < |vs| ==> (vs[i].isActive <==> i == k)
    ensures CountActive(vs) == 1
  {
    if k == 0 {
      NoneActive(vs[1..]);
    } else {
      OnlyOneActive(vs[1..], k - 1);
    }
  }

  lemma ExactlyOneActive(current: ConversationStep)
    ensures CountActive(Views(current)) == 1
  {
    ViewsFollowStep(current);
    OnlyOneActive(Views(current), StepValue(current));
  }

  /** Connectors follow every entry but the last, so the bar has seven, and a connector is
      filled exactly when the entry before it is completed. */
  lemma Connectors(current: ConversationStep)
    ensures var vs := Views(current);
      && (forall i :: 0 <= i < |vs| ==> (vs[i].hasConnector <==> i < 7))
      && (forall i :: 0 <= i < |vs| ==> (vs[i].connectorFilled <==> vs[i].isCompleted))
  {
  }
}
