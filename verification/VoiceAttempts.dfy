/** The spoken attempts of one approval authority, over all interleavings at the await points. */
module VoiceAttempts {
  /**
   * `isolated` is whether the turn isolation holds an authority, `exhausting` the attempts that suspended
   * exhaustions began at, `retiring` how many retirements are suspended. `begun` lists the attempts that were
   * begun, `clarified` counts the clarifications, `over` is whether voice was ever given up.
   */
  datatype Voice = Voice(
    prepared: bool, contextReady: bool, preContextOnset: bool, attempt: nat, clarificationQueued: bool,
    isolated: bool, cleared: bool, exhausting: multiset<nat>, retiring: nat,
    begun: seq<nat>, clarified: nat, over: bool)

  // ---------- What the steps are made of ----------

  /** `current` is the environment's part of being current: epoch, controller, deadline. */
  predicate Current(v: Voice, current: bool) {
    current && !v.cleared
  }

  function Begin(v: Voice, current: bool, n: nat): Voice {
    if Current(v, current) then v.(attempt := n, isolated := true, begun := v.begun + [n]) else v
  }

  function Clarify(v: Voice, current: bool): Voice {
    if Current(v, current) && !v.clarificationQueued
    then v.(clarificationQueued := true, clarified := v.clarified + 1) else v
  }

  function Clear(v: Voice): Voice {
    v.(cleared := true, isolated := false)
  }

  // ---------- Steps ----------

  function Onset(v: Voice): Voice {
    if !v.cleared && !v.contextReady then v.(preContextOnset := true) else v
  }

  /** The provider confirmed the approval's context, or did not. */
  function Prepare(v: Voice, injected: bool, current: bool): Voice {
    if v.prepared then v
    else
      var p := v.(prepared := true);
      if !Current(p, current) then p
      else if !injected then Clear(p)
      else Confirm(p, current)
  }

  /** The first attempt begins: attempt two at once, with its clarification, if the user has spoken already. */
  function Confirm(v: Voice, current: bool): Voice {
    var r := v.(contextReady := true);
    if r.preContextOnset then Clarify(Begin(r, current, 2), current) else Begin(r, current, 1)
  }

  /** A newer user turn replaces attempt one. */
  function Rotate(v: Voice, current: bool): Voice {
    if v.isolated && v.contextReady && Current(v, current) && v.attempt == 1 then Begin(v, current, 2) else v
  }

  /** Up to the wait for the refusals; it is only called while the isolation holds an authority. */
  function Exhaust(v: Voice, current: bool): Voice {
    if v.isolated && Current(v, current)
    then v.(isolated := false, exhausting := v.exhausting + multiset{v.attempt}) else v
  }

  /** One of the suspended exhaustions resumes: one that began at the given attempt. */
  function Exhausted(v: Voice, from: nat, current: bool): Voice {
    if from !in v.exhausting then v else Resolve(v.(exhausting := v.exhausting - multiset{from}), from, current)
  }

  function Resolve(v: Voice, from: nat, current: bool): Voice {
    if !Current(v, current) then v
    else if from == 1 && !v.clarificationQueued then Clarify(Begin(v, current, 2), current)
    else v.(attempt := 0, over := true)
  }

  /** Up to the wait for the refusals; like an exhaustion it only begins while the isolation holds an authority. */
  function Retire(v: Voice): Voice {
    if v.isolated && !v.cleared then v.(retiring := v.retiring + 1) else v
  }

  function Retired(v: Voice): Voice {
    if v.retiring == 0 then v else v.(retiring := v.retiring - 1, isolated := false, attempt := 0, over := true)
  }

  /** A retirement of an earlier authority takes the isolation along. */
  function LoseIsolation(v: Voice): Voice {
    v.(isolated := false)
  }

  datatype Op =
    | SpeechStarts
    | ContextSettles(injected: bool, current: bool)
    | NewerTurn(current: bool)
    | ExhaustBegins(current: bool)
    | ExhaustResumes(from: nat, current: bool)
    | RetireBegins
    | RetireResumes
    | Clears
    | IsolationLost

  function Step(v: Voice, op: Op): Voice {
    match op
    case SpeechStarts => Onset(v)
    case ContextSettles(injected, current) => Prepare(v, injected, current)
    case NewerTurn(current) => Rotate(v, current)
    case ExhaustBegins(current) => Exhaust(v, current)
    case ExhaustResumes(from, current) => Exhausted(v, from, current)
    case RetireBegins => Retire(v)
    case RetireResumes => Retired(v)
    case Clears => Clear(v)
    case IsolationLost => LoseIsolation(v)
  }

  // ---------- What holds ----------

  predicate Orderly(begun: seq<nat>) {
    begun == [] || begun == [1] || begun == [2] || begun == [1, 2]
  }

  predicate Second(begun: seq<nat>) {
    begun == [2] || begun == [1, 2]
  }

  /** An exhaustion that began at attempt one holds everything else off until it resumes. */
  ghost predicate Inv(v: Voice) {
    && Orderly(v.begun) && v.attempt <= 2
    && (v.begun == [] ==> !v.isolated && v.attempt == 0 && v.exhausting == multiset{})
    && (v.begun != [] ==> v.contextReady) && (v.contextReady ==> v.prepared)
    && (v.attempt == 1 ==> v.begun == [1])
    && (v.attempt == 2 ==> Second(v.begun))
    && (1 in v.exhausting ==> v.begun == [1] && !v.isolated && !v.clarificationQueued)
    && v.exhausting[1] <= 1
    && v.clarified == (if v.clarificationQueued then 1 else 0)
    && (v.clarificationQueued ==> Second(v.begun))
    && (v.over || v.retiring > 0 ==> v.begun != [])
  }

  lemma ExhaustKeeps(v: Voice, current: bool)
    requires Inv(v)
    ensures Inv(Exhaust(v, current)) && v.begun <= Exhaust(v, current).begun
  {
  }

  lemma ExhaustedKeeps(v: Voice, from: nat, current: bool)
    requires Inv(v)
    ensures Inv(Exhausted(v, from, current)) && v.begun <= Exhausted(v, from, current).begun
  {
    if from == 1 && 1 in v.exhausting {
      assert v.begun + [2] == [1, 2];
    }
  }

  lemma TurnKeeps(v: Voice, injected: bool, current: bool)
    requires Inv(v)
    ensures Inv(Prepare(v, injected, current)) && v.begun <= Prepare(v, injected, current).begun
    ensures Inv(Rotate(v, current)) && v.begun <= Rotate(v, current).begun
  {
  }

  lemma LossKeeps(v: Voice)
    requires Inv(v)
    ensures Inv(Clear(v)) && Inv(LoseIsolation(v))
  {
  }

  /** Speech before the context is ready decides how the first attempt begins. */
  lemma OnsetSkipsToTwo(v: Voice)
    requires Inv(v) && !v.cleared && !v.prepared
    ensures Prepare(Onset(v), true, true).begun == [2]
    ensures !v.preContextOnset ==> Prepare(v, true, true).begun == [1]
  {
    assert v.begun == [] && [] + [2] == [2] && [] + [1] == [1];
  }

  /** Attempts begin as 1 then 2, or 2 alone, each once, and at most one clarification is queued. */
  lemma StepKeeps(v: Voice, op: Op)
    requires Inv(v)
    ensures Inv(Step(v, op)) && v.begun <= Step(v, op).begun
  {
    match op
    case ContextSettles(injected, current) => TurnKeeps(v, injected, current);
    case NewerTurn(current) => TurnKeeps(v, true, current);
    case ExhaustBegins(current) => ExhaustKeeps(v, current);
    case ExhaustResumes(from, current) => ExhaustedKeeps(v, from, current);
    case _ =>
  }

  const START := Voice(false, false, false, 0, false, false, false, multiset{}, 0, [], 0, false)

  function Run(ops: seq<Op>): Voice {
    if ops == [] then START else Step(Run(ops[..|ops| - 1]), ops[|ops| - 1])
  }

  lemma {:induction false} RunKeeps(ops: seq<Op>)
    ensures Inv(Run(ops))
  {
    if ops != [] {
      RunKeeps(ops[..|ops| - 1]);
      StepKeeps(Run(ops[..|ops| - 1]), ops[|ops| - 1]);
    }
  }

  lemma AttemptsInOrder(ops: seq<Op>)
    ensures Orderly(Run(ops).begun) && Run(ops).clarified <= 1
  {
    RunKeeps(ops);
  }

  /** With this step a clarification is queued if and only if attempt two begins. */
  ghost predicate ClarifiesWithTwo(v: Voice, r: Voice) {
    && (r.begun == v.begun || (|r.begun| == |v.begun| + 1 && r.begun[..|v.begun|] == v.begun))
    && r.clarified == v.clarified + (if |r.begun| > |v.begun| && r.begun[|v.begun|] == 2 then 1 else 0)
  }

  lemma ContextClarifies(v: Voice, injected: bool, current: bool)
    requires Inv(v)
    ensures ClarifiesWithTwo(v, Prepare(v, injected, current))
  {
  }

  lemma ExhaustionClarifies(v: Voice, from: nat, current: bool)
    requires Inv(v)
    ensures ClarifiesWithTwo(v, Exhausted(v, from, current))
  {
  }

  lemma TurnDoesNotClarify(v: Voice, current: bool)
    requires Inv(v)
    ensures Rotate(v, current).clarified == v.clarified
  {
  }

  /**
   * The one clarification is queued exactly with an attempt two that nobody's new turn has brought about: when
   * attempt one was exhausted, or when the user had spoken before the context was ready.
   */
  lemma ClarifiesIff(v: Voice, op: Op)
    requires Inv(v)
    ensures var r := Step(v, op);
      && (r.clarified == v.clarified + 1 <==> Begins(v, op) && r.begun[|r.begun| - 1] == 2 && !op.NewerTurn?)
      && (r.clarified == v.clarified || r.clarified == v.clarified + 1)
      && (r.clarificationQueued <==> r.clarified == 1)
  {
    StepKeeps(v, op);
    match op
    case ContextSettles(injected, current) => ContextClarifies(v, injected, current);
    case ExhaustResumes(from, current) => ExhaustionClarifies(v, from, current);
    case NewerTurn(current) => TurnDoesNotClarify(v, current);
    case _ => NothingBegins(v, op);
  }

  lemma NothingBegins(v: Voice, op: Op)
    requires !op.ContextSettles? && !op.ExhaustResumes? && !op.NewerTurn?
    ensures !Begins(v, op) && Step(v, op).clarified == v.clarified
  {
  }

  /** A clarification is on its way in every run that brought attempt two about without a newer turn. */
  lemma {:induction false} ClarifiedUnlessTurned(ops: seq<Op>)
    requires forall op | op in ops :: !op.NewerTurn?
    ensures Run(ops).clarificationQueued <==> 2 in Run(ops).begun
  {
    if ops != [] {
      var front, op := ops[..|ops| - 1], ops[|ops| - 1];
      assert op in ops && forall x | x in front :: x in ops;
      ClarifiedUnlessTurned(front);
      RunKeeps(front);
      ClarifiesIff(Run(front), op);
      StepKeeps(Run(front), op);
    }
  }

  // ---------- After voice was given up ----------

  /** Voice was given up, by exhaustion or by retirement, and no attempt is on. */
  predicate GivenUp(v: Voice) {
    v.over && v.attempt == 0
  }

  /**
   * A retirement that resumes while an exhaustion of attempt one is suspended does not stop it: the exhaustion
   * goes on to begin attempt two.
   */
  lemma AttemptAfterRetirement()
    ensures var ops := [ContextSettles(true, true), RetireBegins, ExhaustBegins(true), RetireResumes];
      GivenUp(Run(ops)) && Run(ops).begun == [1]
      && Run(ops + [ExhaustResumes(1, true)]).begun == [1, 2] && Run(ops + [ExhaustResumes(1, true)]).attempt == 2
  {
    var a, b, c, d, e :=
      ContextSettles(true, true), RetireBegins, ExhaustBegins(true), RetireResumes, ExhaustResumes(1, true);
    assert [a, b, c, d] + [e] == [a, b, c, d, e];
    assert [a][..0] == [] && [a, b][..1] == [a] && [a, b, c][..2] == [a, b] && [a, b, c, d][..3] == [a, b, c]
           && [a, b, c, d, e][..4] == [a, b, c, d];
    assert Run([a]) == Step(START, a);
    assert Run([a, b]) == Step(Run([a]), b);
    assert Run([a, b, c]) == Step(Run([a, b]), c);
    assert Run([a, b, c, d]) == Step(Run([a, b, c]), d);
  }

  predicate Begins(v: Voice, op: Op) {
    |Step(v, op).begun| > |v.begun|
  }

  /** Once voice was given up a step begins an attempt only as a suspended exhaustion of attempt one. */
  lemma BeginsAgainIff(v: Voice, op: Op)
    requires Inv(v) && GivenUp(v)
    ensures Begins(v, op) <==> op.ExhaustResumes? && op.from == 1 && 1 in v.exhausting && Current(v, op.current)
  {
  }

  // ---------- When there is another attempt to come ----------

  /** Its context is not settled, an exhaustion of attempt one is suspended, or attempt one can be replaced. */
  predicate MayBegin(v: Voice) {
    !v.cleared && (!v.prepared || 1 in v.exhausting || (v.isolated && v.attempt == 1))
  }

  lemma BeginsOnlyIfMay(v: Voice, op: Op)
    requires Inv(v) && !MayBegin(v)
    ensures !Begins(v, op) && !MayBegin(Step(v, op))
  {
  }

  function After(v: Voice, ops: seq<Op>): Voice {
    if ops == [] then v else Step(After(v, ops[..|ops| - 1]), ops[|ops| - 1])
  }

  lemma {:induction false} NoneIfMayNot(v: Voice, ops: seq<Op>)
    requires Inv(v) && !MayBegin(v)
    ensures var r := After(v, ops); Inv(r) && !MayBegin(r) && r.begun == v.begun
  {
    if ops != [] {
      var front, op := ops[..|ops| - 1], ops[|ops| - 1];
      NoneIfMayNot(v, front);
      StepKeeps(After(v, front), op);
      BeginsOnlyIfMay(After(v, front), op);
    }
  }

  /** The step that begins it. */
  function Opening(v: Voice): Op {
    if !v.prepared then ContextSettles(true, true)
    else if 1 in v.exhausting then ExhaustResumes(1, true)
    else NewerTurn(true)
  }

  lemma OpeningBegins(v: Voice)
    requires Inv(v) && MayBegin(v)
    ensures |After(v, [Opening(v)]).begun| > |v.begun|
  {
    var op := Opening(v);
    assert Begins(v, op);
    assert [op][..0] == [] && After(v, [op]) == Step(v, op);
  }

  /** Some run begins another attempt if and only if the state says so. */
  lemma AnotherAttemptIff(v: Voice)
    requires Inv(v)
    ensures (exists ops :: |After(v, ops).begun| > |v.begun|) <==> MayBegin(v)
  {
    if MayBegin(v) {
      OpeningBegins(v);
    } else {
      forall ops: seq<Op>
        ensures |After(v, ops).begun| <= |v.begun|
      {
        NoneIfMayNot(v, ops);
      }
    }
  }

  /** Voice that was given up stays so if and only if it is cleared or no exhaustion of attempt one is suspended. */
  lemma GivenUpForGoodIff(v: Voice)
    requires Inv(v) && GivenUp(v)
    ensures (forall ops :: After(v, ops).begun == v.begun) <==> v.cleared || 1 !in v.exhausting
  {
    if MayBegin(v) {
      OpeningBegins(v);
      assert After(v, [Opening(v)]).begun != v.begun;
    } else {
      forall ops: seq<Op>
        ensures After(v, ops).begun == v.begun
      {
        NoneIfMayNot(v, ops);
      }
    }
  }

  /** What ends an authority: after a clear, or a context that could not be confirmed, it begins nothing any more. */
  lemma ClearedIsSilent(v: Voice, ops: seq<Op>)
    requires Inv(v)
    ensures After(Clear(v), ops).begun == v.begun
    ensures !v.prepared ==> After(Prepare(v, false, true), ops).begun == v.begun
    ensures !v.prepared ==> Prepare(v, false, true).cleared && !Prepare(v, false, true).isolated
  {
    LossKeeps(v);
    NoneIfMayNot(Clear(v), ops);
    if !v.prepared {
      TurnKeeps(v, false, true);
      NoneIfMayNot(Prepare(v, false, true), ops);
    }
  }

  /** An exhaustion that resumes while current begins attempt two, if it began at attempt one, or gives voice up. */
  lemma ExhaustionDecides(v: Voice, from: nat)
    requires Inv(v) && from in v.exhausting && !v.cleared
    ensures var r := Exhausted(v, from, true);
      if from == 1 then r.attempt == 2 && r.isolated && Begins(v, ExhaustResumes(1, true)) else GivenUp(r)
  {
  }

  /** A retirement that is over has given voice up and holds no isolation. */
  lemma RetirementEnds(v: Voice)
    requires Inv(v) && v.retiring > 0
    ensures GivenUp(Retired(v)) && !Retired(v).isolated
    ensures MayBegin(Retired(v)) <==> !v.cleared && 1 in v.exhausting
  {
  }

  /** A prepared authority that loses its isolation to the retirement of an earlier one never speaks again. */
  lemma DisarmedIff(v: Voice)
    requires Inv(v) && v.prepared
    ensures MayBegin(LoseIsolation(v)) <==> !v.cleared && 1 in v.exhausting
  {
  }
}
