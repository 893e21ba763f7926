/**
 * What a replay has to do with its stimuli and its script: the trace of what happened, and what follows from it
 * for the events that are posted and the completions that are scheduled.
 */
module ReplayTrace {
  import opened Common
  import opened EventQueues

  type Delay = d: real | d >= 0.0 witness 0.0

  datatype Post = Post(kind: Kind, payload: nat, delay: Delay)

  datatype Reaction = Reaction(posts: seq<Post>, schedules: seq<Delay>)

  datatype Completion = Completion(due: real, sequence: nat)

  /** An event applied while the clock read `at`. */
  datatype Applied = Applied(event: Event, at: real)

  datatype Stimulus =
    | PostStimulus(at: real, reaction: Reaction)
    | AdvanceClock(at: real, to: real)

  /** A stimulus is played, a completion fires, an event is applied, the reducer answers one of the latter two. */
  datatype Act =
    | Stimulated(reaction: Reaction, at: real)
    | Fired(completion: Completion)
    | Handled(event: Event)
    | Replied(reaction: Reaction, at: real)

  /** An event but for its sequence number. */
  datatype Fact = Fact(kind: Kind, payload: nat, ts: real)

  function FactOf(e: Event): Fact {
    Fact(e.kind, e.payload, e.ts)
  }

  function FactsOf(events: seq<Event>): (r: seq<Fact>)
    ensures |r| == |events|
  {
    seq(|events|, i requires 0 <= i < |events| => FactOf(events[i]))
  }

  /** What a call at that time posts: kind and payload of each post, delayed as it says. */
  function PostFacts(posts: seq<Post>, at: real): (r: seq<Fact>)
    ensures |r| == |posts|
    ensures forall i | 0 <= i < |r| :: r[i] == Fact(posts[i].kind, posts[i].payload, at + posts[i].delay)
  {
    seq(|posts|, i requires 0 <= i < |posts| => Fact(posts[i].kind, posts[i].payload, at + posts[i].delay))
  }

  function DueTimes(schedules: seq<Delay>, at: real): (r: seq<real>)
    ensures |r| == |schedules| && forall i | 0 <= i < |r| :: r[i] == at + schedules[i]
  {
    seq(|schedules|, i requires 0 <= i < |schedules| => at + schedules[i])
  }

  function DuesOf(scheduled: seq<Completion>): (r: seq<real>)
    ensures |r| == |scheduled|
  {
    seq(|scheduled|, i requires 0 <= i < |scheduled| => scheduled[i].due)
  }

  // ---------- What follows from a trace ----------

  /** The events that one act posts. */
  function Makes(a: Act): seq<Fact> {
    match a
    case Stimulated(r, at) => PostFacts(r.posts, at)
    case Fired(c) => [Fact(OtherKind, c.sequence, c.due)]
    case Handled(_) => []
    case Replied(r, at) => PostFacts(r.posts, at)
  }

  /** The due times of the completions that one act schedules. */
  function Plans(a: Act): seq<real> {
    match a
    case Stimulated(r, at) => DueTimes(r.schedules, at)
    case Replied(r, at) => DueTimes(r.schedules, at)
    case _ => []
  }

  function Made(trace: seq<Act>): seq<Fact> {
    if trace == [] then [] else Made(trace[..|trace| - 1]) + Makes(trace[|trace| - 1])
  }

  function Planned(trace: seq<Act>): seq<real> {
    if trace == [] then [] else Planned(trace[..|trace| - 1]) + Plans(trace[|trace| - 1])
  }

  function FiredIn(trace: seq<Act>): seq<Completion> {
    if trace == [] then []
    else
      var a := trace[|trace| - 1];
      FiredIn(trace[..|trace| - 1]) + if a.Fired? then [a.completion] else []
  }

  function HandledIn(trace: seq<Act>): seq<Event> {
    if trace == [] then []
    else
      var a := trace[|trace| - 1];
      HandledIn(trace[..|trace| - 1]) + if a.Handled? then [a.event] else []
  }

  function RepliesIn(trace: seq<Act>): seq<Reaction> {
    if trace == [] then []
    else
      var a := trace[|trace| - 1];
      RepliesIn(trace[..|trace| - 1]) + if a.Replied? then [a.reaction] else []
  }

  function StimuliIn(trace: seq<Act>): seq<Stimulus> {
    if trace == [] then []
    else
      var a := trace[|trace| - 1];
      StimuliIn(trace[..|trace| - 1]) + if a.Stimulated? then [PostStimulus(a.at, a.reaction)] else []
  }

  /** What has happened, and what came of it. */
  datatype Story = Story(
    trace: seq<Act>, log: seq<Applied>, posted: seq<Event>, scheduled: seq<Completion>)

  const NOTHING := Story([], [], [], [])

  /** What has been posted and scheduled is exactly what the acts so far make and plan, in their order. */
  ghost predicate Told(s: Story) {
    FactsOf(s.posted) == Made(s.trace) && DuesOf(s.scheduled) == Planned(s.trace)
  }

  /** The time of what the reducer has to answer. */
  function Asked(a: Act): Option<real> {
    match a
    case Fired(c) => Some(c.due)
    case Handled(e) => Some(e.ts)
    case _ => None
  }

  predicate AsksAt(trace: seq<Act>, i: int) {
    0 <= i < |trace| && Asked(trace[i]).Some?
  }

  predicate RepliesAt(trace: seq<Act>, i: int) {
    0 <= i < |trace| && trace[i].Replied?
  }

  /** Each answer of the reducer comes right after what it answers, at its time. */
  ghost predicate Answering(trace: seq<Act>) {
    forall i {:trigger RepliesAt(trace, i)} | RepliesAt(trace, i) :: i > 0 && Asked(trace[i - 1]) == Some(trace[i].at)
  }

  /** While the script lasts, everything that asks for an answer has got one. */
  ghost predicate Answered(trace: seq<Act>, script: seq<Reaction>) {
    script != [] ==> forall i {:trigger AsksAt(trace, i)} | AsksAt(trace, i) :: RepliesAt(trace, i + 1)
  }

  /** The last act asks for an answer at that time; everything before it has got its own. */
  ghost predicate Asks(trace: seq<Act>, script: seq<Reaction>, at: real) {
    && trace != [] && Asked(trace[|trace| - 1]) == Some(at) && Answered(trace[..|trace| - 1], script)
  }

  function TimeOf(a: Act): real {
    match a
    case Stimulated(_, at) => at
    case Fired(c) => c.due
    case Handled(e) => e.ts
    case Replied(_, at) => at
  }

  /** The acts are in order of time, and none is of the future. */
  ghost predicate Chronological(trace: seq<Act>, now: real) {
    && (forall i {:trigger trace[i]} | 0 <= i < |trace| :: TimeOf(trace[i]) <= now)
    && forall i, j {:trigger trace[i], trace[j]} | 0 <= i < j < |trace| :: TimeOf(trace[i]) <= TimeOf(trace[j])
  }

  lemma TraceGrows(trace: seq<Act>, a: Act)
    ensures Made(trace + [a]) == Made(trace) + Makes(a) && Planned(trace + [a]) == Planned(trace) + Plans(a)
    ensures FiredIn(trace + [a]) == FiredIn(trace) + if a.Fired? then [a.completion] else []
    ensures HandledIn(trace + [a]) == HandledIn(trace) + if a.Handled? then [a.event] else []
    ensures RepliesIn(trace + [a]) == RepliesIn(trace) + if a.Replied? then [a.reaction] else []
    ensures StimuliIn(trace + [a]) == StimuliIn(trace) + if a.Stimulated? then [PostStimulus(a.at, a.reaction)] else []
    ensures Chronological(trace, TimeOf(a)) ==> Chronological(trace + [a], TimeOf(a))
  {
    assert (trace + [a])[..|trace|] == trace;
  }

  lemma FactsJoin(a: seq<Event>, b: seq<Event>)
    ensures FactsOf(a + b) == FactsOf(a) + FactsOf(b)
  {
  }

  lemma DuesJoin(a: seq<Completion>, b: seq<Completion>)
    ensures DuesOf(a + b) == DuesOf(a) + DuesOf(b)
  {
  }

  // ---------- What every move keeps ----------

  ghost predicate Future(m: multiset<Entry>, t: real) {
    forall e | e in m :: e.event.ts >= t
  }

  ghost predicate NoneBefore(pending: seq<Completion>, t: real) {
    forall c | c in pending :: c.due >= t
  }

  /** Every event was applied when the clock read its own timestamp, in non-decreasing time. */
  ghost predicate OnTime(log: seq<Applied>, now: real) {
    && (forall i | 0 <= i < |log| :: log[i].at == log[i].event.ts <= now)
    && (forall i, j {:trigger log[i].at, log[j].at} | 0 <= i < j < |log| :: log[i].at <= log[j].at)
  }

  function Happened(log: seq<Applied>): seq<Event> {
    seq(|log|, i requires 0 <= i < |log| => log[i].event)
  }

  function Events(log: seq<Applied>): (r: seq<Entry>)
    ensures |r| == |log| && forall i | 0 <= i < |r| :: r[i] == Ranked(log[i].event)
  {
    seq(|log|, i requires 0 <= i < |log| => Ranked(log[i].event))
  }

  /** Nothing is overdue, everything posted is applied or queued, everything scheduled has fired or is pending. */
  ghost predicate Balanced(s: Story, queued: multiset<Entry>, pending: seq<Completion>, now: real) {
    && Future(queued, now) && NoneBefore(pending, now)
    && multiset(Entries(s.posted)) == multiset(Events(s.log)) + queued
    && multiset(s.scheduled) == multiset(FiredIn(s.trace)) + multiset(pending)
    && Recorded(s, now)
  }

  /** The trace tells the log, and everything happened in order of time. */
  ghost predicate Recorded(s: Story, now: real) {
    && HandledIn(s.trace) == Happened(s.log)
    && Answering(s.trace) && Chronological(s.trace, now) && OnTime(s.log, now)
  }

  lemma PostKeeps(s: Story, queued: multiset<Entry>, pending: seq<Completion>, now: real, event: Event)
    requires Balanced(s, queued, pending, now) && event.ts >= now
    ensures var t := s.(posted := s.posted + [event]);
      && Balanced(t, queued + multiset{Ranked(event)}, pending, now)
      && FactsOf(t.posted) == FactsOf(s.posted) + [FactOf(event)]
  {
    FactsJoin(s.posted, [event]);
    assert Entries(s.posted + [event]) == Entries(s.posted) + [Ranked(event)];
  }

  lemma ScheduleKeeps(s: Story, queued: multiset<Entry>, pending: seq<Completion>, now: real, c: Completion,
                      more: seq<Completion>)
    requires Balanced(s, queued, pending, now) && c.due >= now && multiset(more) == multiset(pending) + multiset{c}
    ensures var t := s.(scheduled := s.scheduled + [c]);
      Balanced(t, queued, more, now) && DuesOf(t.scheduled) == DuesOf(s.scheduled) + [c.due]
  {
    DuesJoin(s.scheduled, [c]);
    forall x | x in more
      ensures x.due >= now
    {
      assert x in multiset(more);
      assert x in multiset(pending) || x == c;
    }
  }

  /** `t` is `s` after one call of the reducer. */
  ghost predicate Performed(s: Story, t: Story, r: Reaction, at: real) {
    && t.trace == s.trace && t.log == s.log
    && FactsOf(t.posted) == FactsOf(s.posted) + PostFacts(r.posts, at)
    && DuesOf(t.scheduled) == DuesOf(s.scheduled) + DueTimes(r.schedules, at)
  }

  lemma StimulusKeeps(s: Story, t: Story, r: Reaction, at: real, queued: multiset<Entry>, pending: seq<Completion>,
                      script: seq<Reaction>)
    requires Told(s) && Answered(s.trace, script) && Performed(s, t, r, at) && Balanced(t, queued, pending, at)
    ensures var u := t.(trace := t.trace + [Stimulated(r, at)]);
      && Told(u) && Balanced(u, queued, pending, at) && Answered(u.trace, script)
      && RepliesIn(u.trace) == RepliesIn(t.trace) && StimuliIn(u.trace) == StimuliIn(t.trace) + [PostStimulus(at, r)]
  {
    TraceGrows(t.trace, Stimulated(r, at));
    StimulusGrows(t.trace, script, r, at);
  }

  lemma ReplyKeeps(s: Story, t: Story, at: real, queued: multiset<Entry>, pending: seq<Completion>,
                   script: seq<Reaction>)
    requires Told(s) && script != [] && Asks(s.trace, script, at)
    requires Performed(s, t, script[0], at) && Balanced(t, queued, pending, at)
    ensures var u := t.(trace := t.trace + [Replied(script[0], at)]);
      && Told(u) && Balanced(u, queued, pending, at) && Answered(u.trace, script[1..])
      && RepliesIn(u.trace) + script[1..] == RepliesIn(t.trace) + script && StimuliIn(u.trace) == StimuliIn(t.trace)
  {
    TraceGrows(t.trace, Replied(script[0], at));
    ReplyAnswers(t.trace, script, at);
    Associates(RepliesIn(t.trace), [script[0]], script[1..]);
    assert script == [script[0]] + script[1..];
  }

  lemma ReplyAnswers(trace: seq<Act>, script: seq<Reaction>, at: real)
    requires Answering(trace) && Asks(trace, script, at) && script != []
    ensures Answering(trace + [Replied(script[0], at)]) && Answered(trace + [Replied(script[0], at)], script[1..])
  {
    var more := trace + [Replied(script[0], at)];
    AnsweringGrows(trace, Replied(script[0], at));
    forall i | AsksAt(more, i)
      ensures RepliesAt(more, i + 1)
    {
      if i < |trace| - 1 { assert AsksAt(trace[..|trace| - 1], i); }
    }
  }

  lemma AnsweringGrows(trace: seq<Act>, a: Act)
    requires Answering(trace) && (a.Replied? ==> trace != [] && Asked(trace[|trace| - 1]) == Some(a.at))
    ensures Answering(trace + [a])
  {
    forall i | RepliesAt(trace + [a], i)
      ensures i > 0 && Asked((trace + [a])[i - 1]) == Some((trace + [a])[i].at)
    {
      if i < |trace| { assert RepliesAt(trace, i); }
    }
  }

  /** An act that asks for an answer. */
  lemma AskGrows(trace: seq<Act>, script: seq<Reaction>, a: Act)
    requires Answering(trace) && Answered(trace, script) && Asked(a).Some?
    ensures Answering(trace + [a]) && Asks(trace + [a], script, Asked(a).value)
  {
    AnsweringGrows(trace, a);
    assert (trace + [a])[..|trace|] == trace;
  }

  lemma StimulusGrows(trace: seq<Act>, script: seq<Reaction>, r: Reaction, at: real)
    requires Answering(trace) && Answered(trace, script)
    ensures Answering(trace + [Stimulated(r, at)]) && Answered(trace + [Stimulated(r, at)], script)
  {
    var more := trace + [Stimulated(r, at)];
    AnsweringGrows(trace, Stimulated(r, at));
    forall i | script != [] && AsksAt(more, i)
      ensures RepliesAt(more, i + 1)
    {
      assert AsksAt(trace, i);
      assert RepliesAt(trace, i + 1);
    }
  }

  /** The first completion fires at its time, and its event has been posted. */
  lemma FireKeeps(s: Story, event: Event, queued: multiset<Entry>, pending: seq<Completion>, script: seq<Reaction>)
    requires pending != [] && Told(s) && Answered(s.trace, script)
    requires FactOf(event) == Fact(OtherKind, pending[0].sequence, pending[0].due)
    requires Balanced(s.(posted := s.posted + [event]), queued, pending, pending[0].due)
    ensures var u := s.(posted := s.posted + [event], trace := s.trace + [Fired(pending[0])]);
      && Told(u) && Balanced(u, queued, pending[1..], pending[0].due) && Asks(u.trace, script, pending[0].due)
      && RepliesIn(u.trace) == RepliesIn(s.trace) && StimuliIn(u.trace) == StimuliIn(s.trace)
  {
    TraceGrows(s.trace, Fired(pending[0]));
    AskGrows(s.trace, script, Fired(pending[0]));
    FactsJoin(s.posted, [event]);
    assert pending == [pending[0]] + pending[1..];
  }

  /** Nothing queued is overdue. */
  lemma DueIsNow(s: Story, queued: multiset<Entry>, pending: seq<Completion>, now: real, event: Event)
    requires Balanced(s, queued, pending, now) && Ranked(event) in queued && event.ts <= now
    ensures event.ts == now
  {
  }

  /** An event that is due now is taken from the queue and applied. */
  lemma HandleKeeps(s: Story, event: Event, queued: multiset<Entry>, pending: seq<Completion>, script: seq<Reaction>)
    requires Told(s) && Answered(s.trace, script)
    requires Balanced(s, queued, pending, event.ts) && Ranked(event) in queued
    ensures var u := s.(log := s.log + [Applied(event, event.ts)], trace := s.trace + [Handled(event)]);
      && Told(u) && Balanced(u, queued - multiset{Ranked(event)}, pending, event.ts) && Asks(u.trace, script, event.ts)
      && RepliesIn(u.trace) == RepliesIn(s.trace) && StimuliIn(u.trace) == StimuliIn(s.trace)
  {
    TraceGrows(s.trace, Handled(event));
    AskGrows(s.trace, script, Handled(event));
    ApplyOne(s.log, event, queued, multiset(Entries(s.posted)));
  }

  lemma ApplyOne(log: seq<Applied>, event: Event, queued: multiset<Entry>, posted: multiset<Entry>)
    requires OnTime(log, event.ts) && Ranked(event) in queued && posted == multiset(Events(log)) + queued
    ensures var more := log + [Applied(event, event.ts)];
      && OnTime(more, event.ts) && Happened(more) == Happened(log) + [event]
      && posted == multiset(Events(more)) + (queued - multiset{Ranked(event)})
  {
    assert Events(log + [Applied(event, event.ts)]) == Events(log) + [Ranked(event)];
  }

  /** The clock may go on to where nothing is skipped. */
  lemma ClockKeeps(s: Story, queued: multiset<Entry>, pending: seq<Completion>, now: real, t: real)
    requires Balanced(s, queued, pending, now) && t >= now && Future(queued, t) && NoneBefore(pending, t)
    ensures Balanced(s, queued, pending, t)
  {
  }

  // ---------- What a caller gets ----------

  /** The stimuli that are played, without those that only move the clock. */
  function Playable(stimuli: seq<Stimulus>): seq<Stimulus> {
    if stimuli == [] then []
    else (if stimuli[0].PostStimulus? then [stimuli[0]] else []) + Playable(stimuli[1..])
  }

  lemma {:induction false} PlayableJoins(a: seq<Stimulus>, b: seq<Stimulus>)
    ensures Playable(a + b) == Playable(a) + Playable(b)
  {
    if a == [] {
      assert a + b == b;
    } else {
      HeadFirst(a, b);
      PlayableJoins(a[1..], b);
      Associates(if a[0].PostStimulus? then [a[0]] else [], Playable(a[1..]), Playable(b));
    }
  }

  lemma {:induction false} PlayableHas(stimuli: seq<Stimulus>, s: Stimulus)
    ensures s in Playable(stimuli) <==> s in stimuli && s.PostStimulus?
  {
    if stimuli != [] {
      PlayableHas(stimuli[1..], s);
      assert stimuli == [stimuli[0]] + stimuli[1..];
    }
  }

  ghost predicate Logged(log: seq<Applied>, fact: Fact) {
    exists i :: 0 <= i < |log| && FactOf(log[i].event) == fact
  }

  lemma {:induction false} StimulusInTrace(trace: seq<Act>, s: Stimulus)
    requires s in StimuliIn(trace)
    ensures s.PostStimulus? && Stimulated(s.reaction, s.at) in trace
  {
    var front := trace[..|trace| - 1];
    if s in StimuliIn(front) {
      StimulusInTrace(front, s);
      assert Stimulated(s.reaction, s.at) in front;
    }
  }

  lemma {:induction false} ActMakes(trace: seq<Act>, a: Act)
    requires a in trace
    ensures forall f | f in Makes(a) :: f in Made(trace)
    ensures forall t | t in Plans(a) :: t in Planned(trace)
  {
    var front := trace[..|trace| - 1];
    if a != trace[|trace| - 1] {
      assert trace == front + [trace[|trace| - 1]];
      ActMakes(front, a);
    }
  }

  lemma PostedIsLogged(s: Story, fact: Fact)
    requires multiset(Entries(s.posted)) == multiset(Events(s.log)) && fact in FactsOf(s.posted)
    ensures Logged(s.log, fact)
  {
    var k :| 0 <= k < |s.posted| && FactsOf(s.posted)[k] == fact;
    assert Entries(s.posted)[k] in multiset(Events(s.log));
    var i :| 0 <= i < |s.log| && Events(s.log)[i] == Entries(s.posted)[k];
    assert FactOf(s.log[i].event) == fact;
  }

  /** Everything that a reaction posts has been applied at its time, and what it schedules has been scheduled. */
  ghost predicate Done(s: Story, r: Reaction, at: real) {
    && (forall k | 0 <= k < |r.posts| :: Logged(s.log, PostFacts(r.posts, at)[k]))
    && forall k | 0 <= k < |r.schedules| :: DueTimes(r.schedules, at)[k] in DuesOf(s.scheduled)
  }

  /** Once all that was posted is applied, whatever was played or answered is done. */
  lemma ActIsDone(s: Story, a: Act)
    requires Told(s) && a in s.trace && (a.Stimulated? || a.Replied?)
    requires multiset(Entries(s.posted)) == multiset(Events(s.log))
    ensures Done(s, a.reaction, a.at)
  {
    ActMakes(s.trace, a);
    forall k | 0 <= k < |a.reaction.posts|
      ensures Logged(s.log, PostFacts(a.reaction.posts, a.at)[k])
    {
      assert PostFacts(a.reaction.posts, a.at)[k] in Makes(a);
      PostedIsLogged(s, PostFacts(a.reaction.posts, a.at)[k]);
    }
    forall k | 0 <= k < |a.reaction.schedules|
      ensures DueTimes(a.reaction.schedules, a.at)[k] in DuesOf(s.scheduled)
    {
      assert DueTimes(a.reaction.schedules, a.at)[k] in Plans(a);
    }
  }

  /** All that was posted was applied, all that was scheduled fired, and every stimulus and answer is done. */
  ghost predicate Complete(s: Story) {
    && multiset(Entries(s.posted)) == multiset(Events(s.log)) && multiset(s.scheduled) == multiset(FiredIn(s.trace))
    && (forall a | a in s.trace && (a.Stimulated? || a.Replied?) :: Done(s, a.reaction, a.at))
    && forall x | x in StimuliIn(s.trace) :: x.PostStimulus? && Done(s, x.reaction, x.at)
  }

  lemma NothingLeft(s: Story, now: real)
    requires Told(s) && Balanced(s, multiset{}, [], now)
    ensures Complete(s)
  {
    assert multiset(Entries(s.posted)) == multiset(Events(s.log));
    assert multiset(s.scheduled) == multiset(FiredIn(s.trace));
    forall a | a in s.trace && (a.Stimulated? || a.Replied?)
      ensures Done(s, a.reaction, a.at)
    {
      ActIsDone(s, a);
    }
    forall x | x in StimuliIn(s.trace)
      ensures x.PostStimulus? && Done(s, x.reaction, x.at)
    {
      StimulusInTrace(s.trace, x);
    }
  }
}
