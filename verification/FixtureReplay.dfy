/**
 * The deterministic replay loop. The reducer is abstract: whatever it does in answer to one call is
 * one reaction of a script, posting events and scheduling completions no earlier than the call.
 */
module FixtureReplay {
  import opened Common
  import opened EventQueues
  import opened ReplayTrace
  import opened VirtualClocks

  // ---------- The scheduler's list ----------

  predicate Earlier(a: Completion, b: Completion) {
    a.due < b.due || (a.due == b.due && a.sequence < b.sequence)
  }

  /** The list after a push and the stable sort: the newest entry stands behind everything due no later. */
  function Scheduled(pending: seq<Completion>, c: Completion): seq<Completion> {
    if pending == [] || Earlier(c, pending[0]) then [c] + pending else [pending[0]] + Scheduled(pending[1..], c)
  }

  ghost predicate Sorted(pending: seq<Completion>) {
    forall i, j {:trigger Earlier(pending[j], pending[i])} | 0 <= i < j < |pending| :: !Earlier(pending[j], pending[i])
  }

  lemma {:induction false} ScheduledMembers(pending: seq<Completion>, c: Completion)
    ensures |Scheduled(pending, c)| == |pending| + 1
    ensures forall x :: x in Scheduled(pending, c) <==> x in pending || x == c
    ensures multiset(Scheduled(pending, c)) == multiset(pending) + multiset{c}
  {
    if pending != [] && !Earlier(c, pending[0]) {
      ScheduledMembers(pending[1..], c);
      assert pending == [pending[0]] + pending[1..];
    }
  }

  lemma {:induction false} ScheduledSorted(pending: seq<Completion>, c: Completion)
    requires Sorted(pending)
    ensures Sorted(Scheduled(pending, c))
  {
    if pending != [] {
      var first, rest := pending[0], pending[1..];
      forall i | 0 <= i < |rest|
        ensures !Earlier(rest[i], first)
      {
        assert !Earlier(pending[i + 1], pending[0]);
      }
      if !Earlier(c, first) {
        var all := Scheduled(rest, c);
        ScheduledSorted(rest, c);
        ScheduledMembers(rest, c);
        forall i | 0 <= i < |all|
          ensures !Earlier(all[i], first)
        {
          assert all[i] in all;
        }
      }
    }
  }

  lemma RestSorted(pending: seq<Completion>)
    requires Sorted(pending) && pending != []
    ensures Sorted(pending[1..])
  {
    forall i, j | 0 <= i < j < |pending[1..]|
      ensures !Earlier(pending[1..][j], pending[1..][i])
    {
      assert !Earlier(pending[j + 1], pending[i + 1]);
    }
  }

  lemma FirstIsLeast(pending: seq<Completion>)
    requires Sorted(pending) && pending != []
    ensures NoneBefore(pending, pending[0].due)
  {
    forall i | 0 < i < |pending|
      ensures pending[0].due <= pending[i].due
    {
      assert !Earlier(pending[i], pending[0]);
    }
  }

  function Earliest(left: Option<real>, right: Option<real>): Option<real> {
    if left.None? then right
    else if right.None? then left
    else Some(if left.value <= right.value then left.value else right.value)
  }

  // ---------- The stimulus list ----------

  /** How many stimuli share the first one's time. */
  function GroupLength(stimuli: seq<Stimulus>): (n: nat)
    requires stimuli != []
    ensures 0 < n <= |stimuli| && forall i | 0 <= i < n :: stimuli[i].at == stimuli[0].at
    ensures n < |stimuli| ==> stimuli[n].at != stimuli[0].at
  {
    if |stimuli| > 1 && stimuli[1].at == stimuli[0].at then 1 + GroupLength(stimuli[1..]) else 1
  }

  /** Where the clock stands after the clock stimuli of a group, unless one of them points backwards. */
  function Advanced(group: seq<Stimulus>, now: real): Option<real> {
    if group == [] then Some(now)
    else if group[0].PostStimulus? then Advanced(group[1..], now)
    else if group[0].to < now then None
    else Advanced(group[1..], group[0].to)
  }

  /** Where the clock stands after all groups, unless a stimulus points backwards. */
  function Timeline(stimuli: seq<Stimulus>, now: real): Option<real>
    decreases |stimuli|
  {
    if stimuli == [] then Some(now)
    else if stimuli[0].at < now then None
    else
      var n := GroupLength(stimuli);
      var t := Advanced(stimuli[..n], stimuli[0].at);
      if t.None? then None else Timeline(stimuli[n..], t.value)
  }

  /** A clock stimulus that has run makes a later stimulus of an earlier time point backwards. */
  lemma EarlierStimulusIsRefused()
    ensures var stimuli := [AdvanceClock(0.0, 5.0), PostStimulus(1.0, Reaction([], []))];
      Timeline(stimuli, 0.0).None?
  {
    var first, second := AdvanceClock(0.0, 5.0), PostStimulus(1.0, Reaction([], []));
    var stimuli := [first, second];
    assert GroupLength(stimuli) == 1;
    assert stimuli[..1] == [first] && stimuli[1..] == [second];
    assert Advanced([first], 0.0) == Advanced([], 5.0) == Some(5.0) by { assert [first][1..] == []; }
  }

  class FixtureModelScheduler {
    var pending: seq<Completion>
    var sequence: nat

    ghost predicate Valid()
      reads this
    {
      Sorted(pending)
    }

    constructor ()
      ensures Valid() && pending == []
    {
      pending, sequence := [], 0;
    }

    method Schedule(due: real) returns (c: Completion)
      requires Valid()
      modifies this
      ensures Valid() && |pending| == |old(pending)| + 1 && c == Completion(due, old(sequence) + 1)
      ensures forall x :: x in pending <==> x in old(pending) || x == c
      ensures multiset(pending) == multiset(old(pending)) + multiset{c}
    {
      sequence := sequence + 1;
      c := Completion(due, sequence);
      ScheduledMembers(pending, c);
      ScheduledSorted(pending, c);
      pending := Scheduled(pending, c);
    }

    function NextTimestamp(): Option<real>
      reads this
    {
      if pending == [] then None else Some(pending[0].due)
    }
  }

  class FixtureHost {
    const queue: EventQueue
    const clock: VirtualClock
    const scheduler: FixtureModelScheduler
    /** What the reducer will do, call by call; once it is used up the reducer answers with nothing. */
    var script: seq<Reaction>
    /** The script as it was at the start, and what has happened. */
    ghost const plan: seq<Reaction>
    ghost var story: Story
    ghost var played: seq<Stimulus>

    ghost predicate Sound()
      reads this, queue, clock, scheduler
    {
      && queue.Valid() && clock.Valid() && scheduler.Valid() && clock.current.At?
      && Balanced(story, queue.Contents(), scheduler.pending, clock.current.time)
    }

    /** What was posted and scheduled is exactly what the trace of stimuli and of the script's answers tells. */
    ghost predicate Valid()
      reads this, queue, clock, scheduler
    {
      Sound() && Told(story) && StimuliIn(story.trace) == played && RepliesIn(story.trace) + script == plan
    }

    /** Between its moves the host owes the reducer no call. */
    ghost predicate Even()
      reads this
    {
      Answered(story.trace, script)
    }

    ghost function Work(): nat
      reads this, queue, scheduler
    {
      2 * |scheduler.pending| + |queue.heap|
    }

    ghost predicate Same(heap: seq<Entry>, pending: seq<Completion>)
      reads this, queue, scheduler
    {
      queue.heap == heap && scheduler.pending == pending
    }

    /** Either nothing was handled or less work is left. */
    ghost predicate LessOrSame(heap: seq<Entry>, pending: seq<Completion>)
      reads this, queue, scheduler
    {
      Work() < 2 * |pending| + |heap| || Same(heap, pending)
    }

    /** Everything at or before now has been handled. */
    ghost predicate Drained()
      reads queue, clock, scheduler
      requires clock.current.At?
    {
      && (forall e | e in queue.Contents() :: e.event.ts > clock.current.time)
      && (forall c | c in scheduler.pending :: c.due > clock.current.time)
    }

    constructor (start: real, script: seq<Reaction>)
      ensures Valid() && Even() && fresh(queue) && fresh(clock) && fresh(scheduler)
      ensures story == NOTHING && played == [] && plan == this.script == script && clock.current.time == start
    {
      queue := new EventQueue();
      clock := new VirtualClock(At(start));
      scheduler := new FixtureModelScheduler();
      this.script, plan, story, played := script, script, NOTHING, [];
    }

    method PostEvent(kind: Kind, payload: nat, at: real) returns (event: Event)
      requires Sound() && at >= clock.current.time
      modifies this`story, queue
      ensures Sound() && |queue.heap| == |old(queue.heap)| + 1
      ensures FactOf(event) == Fact(kind, payload, at) && story == old(story).(posted := old(story).posted + [event])
      ensures FactsOf(story.posted) == old(FactsOf(story.posted)) + [Fact(kind, payload, at)]
    {
      ghost var queued := queue.Contents();
      event := queue.Push(kind, payload, at);
      PostKeeps(story, queued, scheduler.pending, clock.current.time, event);
      story := story.(posted := story.posted + [event]);
    }

    method ScheduleCompletion(due: real)
      requires Sound() && due >= clock.current.time
      modifies this`story, scheduler
      ensures Sound() && story == old(story).(scheduled := story.scheduled)
      ensures DuesOf(story.scheduled) == old(DuesOf(story.scheduled)) + [due]
    {
      ghost var before := scheduler.pending;
      var c := scheduler.Schedule(due);
      ScheduleKeeps(story, queue.Contents(), before, clock.current.time, c, scheduler.pending);
      story := story.(scheduled := story.scheduled + [c]);
    }

    /** One call of the reducer at `at`: exactly one event per post and one completion per schedule. */
    method Perform(r: Reaction, at: real)
      requires Sound() && at >= clock.current.time
      modifies this`story, queue, scheduler
      ensures Sound() && Performed(old(story), story, r, at)
    {
      PostAll(r.posts, at);
      ScheduleAll(r.schedules, at);
    }

    method PostAll(posts: seq<Post>, at: real)
      requires Sound() && at >= clock.current.time
      modifies this`story, queue
      ensures Sound() && story == old(story).(posted := story.posted)
      ensures FactsOf(story.posted) == old(FactsOf(story.posted)) + PostFacts(posts, at)
    {
      hide Balanced;
      ghost var before := FactsOf(story.posted);
      var i := 0;
      while i < |posts|
        invariant 0 <= i <= |posts| && Sound() && story == old(story).(posted := story.posted)
        invariant FactsOf(story.posted) == before + PostFacts(posts, at)[..i]
      {
        var _ := PostEvent(posts[i].kind, posts[i].payload, at + posts[i].delay);
        i := i + 1;
      }
    }

    method ScheduleAll(schedules: seq<Delay>, at: real)
      requires Sound() && at >= clock.current.time
      modifies this`story, scheduler
      ensures Sound() && story == old(story).(scheduled := story.scheduled)
      ensures DuesOf(story.scheduled) == old(DuesOf(story.scheduled)) + DueTimes(schedules, at)
    {
      hide Balanced;
      ghost var before := DuesOf(story.scheduled);
      var i := 0;
      while i < |schedules|
        invariant 0 <= i <= |schedules| && Sound() && story == old(story).(scheduled := story.scheduled)
        invariant DuesOf(story.scheduled) == before + DueTimes(schedules, at)[..i]
      {
        ScheduleCompletion(at + schedules[i]);
        i := i + 1;
      }
    }

    /** A stimulus is played: the host makes its call at the time the clock reads. */
    method Stimulate(r: Reaction, at: real)
      requires Valid() && Even() && at == clock.current.time
      modifies this`story, this`played, queue, scheduler
      ensures Valid() && Even() && played == old(played) + [PostStimulus(at, r)]
    {
      hide Balanced, Told, Answered;
      Perform(r, at);
      StimulusKeeps(old(story), story, r, at, queue.Contents(), scheduler.pending, script);
      story := story.(trace := story.trace + [Stimulated(r, at)]);
      played := played + [PostStimulus(at, r)];
    }

    /** The reducer answers what has just happened, with the next reaction of the script if there is one. */
    method React(at: real)
      requires Valid() && Asks(story.trace, script, at) && at == clock.current.time
      modifies this`story, this`script, queue, scheduler
      ensures Valid() && Even()
      ensures |script| < |old(script)| || (script == old(script) && Same(old(queue.heap), old(scheduler.pending)))
    {
      if script != [] { Reply(at); }
    }

    method Reply(at: real)
      requires Valid() && Asks(story.trace, script, at) && at == clock.current.time && script != []
      modifies this`story, this`script, queue, scheduler
      ensures Valid() && Even() && script == old(script)[1..]
    {
      hide Balanced, Told, Answered;
      var r := script[0];
      Perform(r, at);
      ReplyKeeps(old(story), story, at, queue.Contents(), scheduler.pending, script);
      story := story.(trace := story.trace + [Replied(r, at)]);
      script := script[1..];
    }

    /** The first completion becomes an event of its due time. */
    method Fire()
      requires Valid() && Even() && scheduler.pending != [] && scheduler.pending[0].due == clock.current.time
      modifies this`story, queue, scheduler
      ensures Valid() && Asks(story.trace, script, clock.current.time) && Work() == old(Work()) - 1
      ensures story.trace == old(story).trace + [Fired(old(scheduler.pending)[0])]
    {
      hide Balanced, Told, Answered;
      var completion := scheduler.pending[0];
      var event := PostEvent(OtherKind, completion.sequence, completion.due);
      FireKeeps(old(story), event, queue.Contents(), scheduler.pending, script);
      story := story.(trace := story.trace + [Fired(completion)]);
      RestSorted(scheduler.pending);
      scheduler.pending := scheduler.pending[1..];
    }

    /** The first completion fires and is answered. */
    method FireNext()
      requires Valid() && Even() && scheduler.pending != [] && scheduler.pending[0].due == clock.current.time
      modifies this`story, this`script, queue, scheduler
      ensures Valid() && Even()
      ensures |script| < |old(script)| || (script == old(script) && Work() < old(Work()))
    {
      Fire();
      React(clock.current.time);
    }

    method MaterializeDue()
      requires Valid() && Even()
      modifies this`story, this`script, queue, scheduler
      ensures Valid() && Even()
      ensures forall c | c in scheduler.pending :: c.due > clock.current.time
      ensures |script| < |old(script)| || (script == old(script) && LessOrSame(old(queue.heap), old(scheduler.pending)))
    {
      hide Balanced, Told, Answered;
      while scheduler.pending != [] && scheduler.pending[0].due <= clock.current.time
        invariant Valid() && Even()
        invariant |script| < |old(script)|
                  || (script == old(script) && LessOrSame(old(queue.heap), old(scheduler.pending)))
        decreases |script|, Work()
      {
        FirstIsDueNow();
        FireNext();
      }
      if scheduler.pending != [] { FirstIsLeast(scheduler.pending); }
    }

    /** Nothing pending is overdue. */
    lemma FirstIsDueNow()
      requires Sound() && scheduler.pending != [] && scheduler.pending[0].due <= clock.current.time
      ensures scheduler.pending[0].due == clock.current.time
    {
      assert scheduler.pending[0] in scheduler.pending;
    }

    /** Pop the least due event, if any: it is due exactly now, and nothing earlier can still be queued. */
    method PopNow() returns (popped: Option<Event>)
      requires Valid() && Even()
      modifies this`story, queue
      ensures Valid()
      ensures popped.Some? ==>
                && popped.value.ts == clock.current.time && Work() == old(Work()) - 1
                && story.trace == old(story).trace + [Handled(popped.value)]
                && Asks(story.trace, script, popped.value.ts)
      ensures popped.None? ==>
                && story == old(story) && queue.heap == old(queue.heap)
                && forall e | e in queue.Contents() :: e.event.ts > clock.current.time
    {
      hide Balanced, Told, Answered;
      ghost var queued := queue.Contents();
      popped := queue.PopReady(clock.current.time);
      if popped.Some? { Apply(popped.value, queued); }
    }

    /** The event that has left the queue is applied. */
    ghost method Apply(event: Event, queued: multiset<Entry>)
      requires queue.Valid() && clock.Valid() && scheduler.Valid() && clock.current.At? && Even()
      requires Balanced(story, queued, scheduler.pending, clock.current.time)
      requires Told(story) && StimuliIn(story.trace) == played && RepliesIn(story.trace) + script == plan
      requires Ranked(event) in queued && event.ts <= clock.current.time
      requires queue.Contents() == queued - multiset{Ranked(event)}
      modifies this`story
      ensures Valid() && event.ts == clock.current.time
      ensures story.trace == old(story).trace + [Handled(event)] && Asks(story.trace, script, event.ts)
    {
      hide Balanced, Told, Answered;
      DueIsNow(story, queued, scheduler.pending, clock.current.time, event);
      HandleKeeps(story, event, queued, scheduler.pending, script);
      story := story.(log := story.log + [Applied(event, event.ts)], trace := story.trace + [Handled(event)]);
    }

    /** Returns with nothing due at or before now in the queue or the scheduler. */
    method DrainReady()
      requires Valid() && Even()
      modifies this`story, this`script, queue, scheduler
      ensures Valid() && Even() && Drained()
      ensures |script| < |old(script)| || (script == old(script) && LessOrSame(old(queue.heap), old(scheduler.pending)))
    {
      hide Balanced, Told, Answered;
      while true
        invariant Valid() && Even()
        invariant |script| < |old(script)|
                  || (script == old(script) && LessOrSame(old(queue.heap), old(scheduler.pending)))
        decreases |script|, Work()
      {
        var more := HandleNext();
        if !more { return; }
      }
    }

    /** What is due fires, and the next event, if any is due, is applied and answered. */
    method HandleNext() returns (more: bool)
      requires Valid() && Even()
      modifies this`story, this`script, queue, scheduler
      ensures Valid() && Even()
      ensures more ==> |script| < |old(script)| || (script == old(script) && Work() < old(Work()))
      ensures !more ==>
                Drained()
                && (|script| < |old(script)|
                    || (script == old(script) && LessOrSame(old(queue.heap), old(scheduler.pending))))
    {
      hide Balanced, Told, Answered;
      MaterializeDue();
      var popped := PopNow();
      if popped.None? { return false; }
      React(popped.value.ts);
      return true;
    }

    // ---------- Moving the clock ----------

    function Next(): (t: Option<real>)
      reads queue, scheduler
    {
      Earliest(queue.NextTimestamp(), scheduler.NextTimestamp())
    }

    /** Nothing queued or scheduled comes before the next timestamp, so the clock may go there. */
    lemma NextIsLeast()
      requires Valid()
      ensures Next().None? <==> queue.heap == [] && scheduler.pending == []
      ensures Next().Some? ==> Next().value >= clock.current.time
      ensures Next().Some? ==> Future(queue.Contents(), Next().value) && NoneBefore(scheduler.pending, Next().value)
    {
      if queue.heap != [] { queue.LeastIsFirst(); }
      if scheduler.pending != [] { FirstIsLeast(scheduler.pending); }
    }

    /** A step of the clock to where nothing is skipped is never refused. */
    method StepTo(t: real)
      requires Valid() && Even() && t >= clock.current.time
      requires Future(queue.Contents(), t) && NoneBefore(scheduler.pending, t)
      modifies clock
      ensures Valid() && Even() && clock.current.time == t
    {
      ClockKeeps(story, queue.Contents(), scheduler.pending, clock.current.time, t);
      var ok := clock.AdvanceTo(At(t));
      assert ok;
    }

    /** Handle everything strictly before the target, each at its own time. */
    method AdvanceBefore(target: real) returns (ok: bool)
      requires Valid() && Even()
      modifies this`story, this`script, queue, clock, scheduler
      ensures Valid() && Even() && ok == (target >= old(clock.current.time))
      ensures ok ==> clock.current.time <= target
      ensures ok ==> Future(queue.Contents(), target) && NoneBefore(scheduler.pending, target)
    {
      hide Balanced, Told, Answered;
      if target < clock.current.time { return false; }
      while true
        invariant Valid() && Even() && clock.current.time <= target
        decreases |script|, Work()
      {
        NextIsLeast();
        var next := Next();
        if next.None? || next.value >= target { return true; }
        StepTo(next.value);
        DrainDue();
      }
    }

    /** Draining right after a step to the next timestamp handles at least one item. */
    method DrainDue()
      requires Valid() && Even() && Next() == Some(clock.current.time)
      modifies this`story, this`script, queue, scheduler
      ensures Valid() && Even() && Drained()
      ensures |script| < |old(script)| || (script == old(script) && Work() < old(Work()))
    {
      NextIsQueued();
      DrainReady();
    }

    /** Handle everything up to and including the target. */
    method AdvanceAndDrain(target: real) returns (ok: bool)
      requires Valid() && Even()
      modifies this`story, this`script, queue, clock, scheduler
      ensures Valid() && Even() && ok == (target >= old(clock.current.time))
      ensures ok ==> clock.current.time == target && Drained()
      ensures ok && old(Next()) == Some(target) ==>
                |script| < |old(script)| || (script == old(script) && Work() < old(Work()))
    {
      hide Balanced, Told, Answered;
      if target < clock.current.time { return false; }
      DrainThrough(target);
      DrainAt(target);
      return true;
    }

    method DrainAt(target: real)
      requires Valid() && Even() && target >= clock.current.time && (Next().None? || Next().value > target)
      modifies this`story, this`script, queue, clock, scheduler
      ensures Valid() && Even() && clock.current.time == target && Drained()
      ensures |script| < |old(script)| || (script == old(script) && LessOrSame(old(queue.heap), old(scheduler.pending)))
    {
      hide Balanced, Told, Answered;
      NextIsLeast();
      StepTo(target);
      DrainReady();
    }

    method DrainThrough(target: real)
      requires Valid() && Even() && target >= clock.current.time
      modifies this`story, this`script, queue, clock, scheduler
      ensures Valid() && Even() && clock.current.time <= target && (Next().None? || Next().value > target)
      ensures |script| < |old(script)| || (script == old(script) && LessOrSame(old(queue.heap), old(scheduler.pending)))
    {
      hide Balanced, Told, Answered;
      while true
        invariant Valid() && Even() && clock.current.time <= target
        invariant |script| < |old(script)|
                  || (script == old(script) && LessOrSame(old(queue.heap), old(scheduler.pending)))
        decreases |script|, Work()
      {
        NextIsLeast();
        var next := Next();
        if next.None? || next.value > target { return; }
        StepTo(next.value);
        DrainDue();
      }
    }

    // ---------- The replay ----------

    method PlayGroup(group: seq<Stimulus>)
      requires Valid() && Even() && forall i | 0 <= i < |group| :: group[i].at == clock.current.time
      modifies this`story, this`script, this`played, queue, scheduler
      ensures Valid() && Even() && played == old(played) + Playable(group)
    {
      hide Balanced, Told, Answered;
      var i := 0;
      while i < |group|
        invariant 0 <= i <= |group| && Valid() && Even()
        invariant played == old(played) + Playable(group[..i])
      {
        assert old(played) + Playable(group[..i + 1]) == played + Playable([group[i]]) by {
          PlayableGrows(group, i);
          Associates(old(played), Playable(group[..i]), Playable([group[i]]));
        }
        PlayOne(group[i]);
        i := i + 1;
      }
      assert group[..i] == group;
    }

    /** A stimulus is played, and what comes of it at once is handled. */
    method PlayOne(s: Stimulus)
      requires Valid() && Even() && s.at == clock.current.time
      modifies this`story, this`script, this`played, queue, scheduler
      ensures Valid() && Even() && played == old(played) + Playable([s])
      ensures s.PostStimulus? ==> Drained()
    {
      hide Balanced, Told, Answered;
      assert Playable([s]) == if s.PostStimulus? then [s] else [] by { assert [s][1..] == []; }
      if s.PostStimulus? {
        Stimulate(s.reaction, s.at);
        DrainReady();
      }
    }

    method AdvanceGroup(group: seq<Stimulus>) returns (ok: bool)
      requires Valid() && Even()
      modifies this`story, this`script, queue, clock, scheduler
      ensures Valid() && Even() && ok == Advanced(group, old(clock.current.time)).Some?
      ensures ok ==> clock.current.time == Advanced(group, old(clock.current.time)).value
    {
      hide Balanced, Told, Answered;
      var i := 0;
      assert group[0..] == group;
      while i < |group|
        invariant 0 <= i <= |group| && Valid() && Even()
        invariant Advanced(group, old(clock.current.time)) == Advanced(group[i..], clock.current.time)
      {
        if group[i].AdvanceClock? {
          var reached := AdvanceBefore(group[i].to);
          if !reached { return false; }
          StepTo(group[i].to);
        }
        i := i + 1;
      }
      return true;
    }

    /** One group of stimuli of the same instant: what it posts is drained first, then its clock stimuli run. */
    method ReplayGroup(rest: seq<Stimulus>) returns (ok: bool, n: nat)
      requires Valid() && Even() && rest != []
      modifies this`story, this`script, this`played, queue, clock, scheduler
      ensures Valid() && Even() && n == GroupLength(rest)
      ensures !ok ==> Timeline(rest, old(clock.current.time)).None?
      ensures ok ==> Timeline(rest, old(clock.current.time)) == Timeline(rest[n..], clock.current.time)
      ensures ok ==> played == old(played) + Playable(rest[..n])
    {
      hide Balanced, Told, Answered;
      n := GroupLength(rest);
      ok := AdvanceBefore(rest[0].at);
      if !ok { return; }
      StepTo(rest[0].at);
      PlayGroup(rest[..n]);
      ok := AdvanceGroup(rest[..n]);
    }

    /**
     * A replay is refused only when a stimulus points backwards. Otherwise every stimulus is played, in order;
     * whatever it or an answer to what followed posts is applied, once, at its time; whatever they schedule fires
     * once; and nothing else is applied or fires.
     */
    method Replay(stimuli: seq<Stimulus>) returns (ok: bool)
      requires Valid() && Even()
      modifies this`story, this`script, this`played, queue, clock, scheduler
      ensures Valid() && Even() && ok == Timeline(stimuli, old(clock.current.time)).Some?
      ensures ok ==> queue.heap == [] && scheduler.pending == [] && Complete(story)
      ensures ok ==> played == old(played) + Playable(stimuli)
      ensures ok ==> forall s | s in stimuli && s.PostStimulus? :: Done(story, s.reaction, s.at)
    {
      ok := PlayAll(stimuli);
      if !ok { return; }
      Finish();
      forall s | s in stimuli && s.PostStimulus?
        ensures Done(story, s.reaction, s.at)
      {
        PlayableHas(stimuli, s);
        assert s in played;
      }
    }

    method PlayAll(stimuli: seq<Stimulus>) returns (ok: bool)
      requires Valid() && Even()
      modifies this`story, this`script, this`played, queue, clock, scheduler
      ensures Valid() && Even() && ok == Timeline(stimuli, old(clock.current.time)).Some?
      ensures ok ==> played == old(played) + Playable(stimuli)
    {
      hide Balanced, Told, Answered;
      var rest := stimuli;
      while rest != []
        invariant Valid() && Even()
        invariant Timeline(stimuli, old(clock.current.time)) == Timeline(rest, clock.current.time)
        invariant played + Playable(rest) == old(played) + Playable(stimuli)
        decreases |rest|
      {
        ghost var before := played;
        var going, n := ReplayGroup(rest);
        if !going { return false; }
        GroupPlayed(before, rest, n);
        rest := rest[n..];
      }
      assert played + [] == played;
      return true;
    }

    /** The final loop ends, with nothing left to do. */
    method Finish()
      requires Valid() && Even()
      modifies this`story, this`script, queue, clock, scheduler
      ensures Valid() && Even() && queue.heap == [] && scheduler.pending == [] && Complete(story)
    {
      while queue.heap != [] || scheduler.pending != []
        invariant Valid() && Even()
        decreases |script|, Work()
      {
        NextIsLeast();
        var ok := AdvanceAndDrain(Next().value);
      }
      assert queue.Contents() == multiset{};
      NothingLeft(story, clock.current.time);
    }

    lemma NextIsQueued()
      requires Valid() && Next() == Some(clock.current.time)
      ensures !Drained()
    {
      if queue.heap != [] && queue.heap[0].event.ts == clock.current.time { assert queue.heap[0] in queue.Contents(); }
    }
  }

  lemma PlayableGrows(group: seq<Stimulus>, i: nat)
    requires i < |group|
    ensures Playable(group[..i + 1]) == Playable(group[..i]) + Playable([group[i]])
  {
    assert group[..i + 1] == group[..i] + [group[i]];
    PlayableJoins(group[..i], [group[i]]);
  }

  lemma GroupPlayed(before: seq<Stimulus>, rest: seq<Stimulus>, n: nat)
    requires n <= |rest|
    ensures before + Playable(rest[..n]) + Playable(rest[n..]) == before + Playable(rest)
  {
    assert rest == rest[..n] + rest[n..];
    PlayableJoins(rest[..n], rest[n..]);
    Associates(before, Playable(rest[..n]), Playable(rest[n..]));
  }
}
