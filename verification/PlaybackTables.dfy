/** The bounded tables and counters of the playback queue, and the whole queue over runs. */
module PlaybackTables {
  import opened Common
  import opened NearSilence
  import opened PlaybackModel
  import opened PlaybackRuns

  // ---------- Bounded tables ----------

  ghost predicate NoDuplicates(order: seq<Identity>) {
    forall i, j | 0 <= i < j < |order| :: order[i] != order[j]
  }

  ghost predicate Keyed(keys: set<Identity>, order: seq<Identity>) {
    NoDuplicates(order) && forall id :: id in keys <==> id in order
  }

  /** A table and its order list agree, without duplicates, and are at most 32 long. */
  ghost predicate TableOk(keys: set<Identity>, order: seq<Identity>) {
    Keyed(keys, order) && |order| <= MAX_COMPLETED_PLAYBACK
  }

  lemma {:induction false} WithoutFacts(order: seq<Identity>, id: Identity)
    ensures forall x :: x in Without(order, id) <==> x in order && x != id
    ensures |Without(order, id)| <= |order|
    ensures NoDuplicates(order) ==> NoDuplicates(Without(order, id))
  {
    if order != [] {
      WithoutFacts(order[1..], id);
      var rest := Without(order[1..], id);
      if NoDuplicates(order) {
        assert order[0] !in order[1..];
        assert NoDuplicates(order[1..]);
      }
    }
  }

  lemma ForgetKeeps(keys: set<Identity>, order: seq<Identity>, id: Identity)
    requires TableOk(keys, order)
    ensures TableOk(keys - {id}, Without(order, id))
  {
    WithoutFacts(order, id);
  }

  lemma {:induction false} TrimFacts<V>(table: map<Identity, V>, order: seq<Identity>)
    requires Keyed(table.Keys, order)
    ensures TableOk(Trim(table, order).0.Keys, Trim(table, order).1)
    ensures forall id | id in Trim(table, order).0 :: id in table && Trim(table, order).0[id] == table[id]
    ensures order != [] ==> order[|order| - 1] in Trim(table, order).0
  {
    if |order| > MAX_COMPLETED_PLAYBACK {
      assert order == [order[0]] + order[1..];
      TrimFacts(table - {order[0]}, order[1..]);
    }
  }

  /** Trimming keeps the newest 32 keys. */
  lemma {:induction false} TrimKeepsNewest<V>(table: map<Identity, V>, order: seq<Identity>)
    ensures Trim(table, order).1 ==
            if |order| <= MAX_COMPLETED_PLAYBACK then order else order[|order| - MAX_COMPLETED_PLAYBACK..]
  {
    if |order| > MAX_COMPLETED_PLAYBACK {
      TrimKeepsNewest(table - {order[0]}, order[1..]);
    }
  }

  /** Touching a key moves it to the back of its order and keeps the table bounded. */
  lemma TouchKeeps<V>(table: map<Identity, V>, order: seq<Identity>, id: Identity)
    requires TableOk(table.Keys - {id}, Without(order, id)) && id in table
    ensures var (t, o) := Trim(table, Without(order, id) + [id]);
      && TableOk(t.Keys, o) && id in t
      && forall x | x in t :: x in table && t[x] == table[x]
  {
    WithoutFacts(order, id);
    TrimFacts(table, Without(order, id) + [id]);
  }

  ghost predicate TablesOk(q: Queue) {
    TableOk(q.completed.Keys, q.completedOrder) && TableOk(q.telemetry.Keys, q.telemetryOrder)
  }

  lemma AppendKeepsTables(q: Queue, samples: seq<Int16>, id: Identity)
    requires TablesOk(q) && samples != []
    ensures TablesOk(Append(q, samples, id)) && id in Append(q, samples, id).telemetry
    ensures var known := if id in q.telemetry then q.telemetry else q.telemetry[id := Counters(0, Reset)];
      forall x | x in Append(q, samples, id).telemetry ::
        && x in known
        && Append(q, samples, id).telemetry[x] == if x == id then Counted(known[x], samples) else known[x]
  {
    var known := if id in q.telemetry then q.telemetry else q.telemetry[id := Counters(0, Reset)];
    ForgetKeeps(q.telemetry.Keys, q.telemetryOrder, id);
    assert known.Keys - {id} == q.telemetry.Keys - {id};
    TouchKeeps(known, q.telemetryOrder, id);
    ForgetKeeps(q.completed.Keys, q.completedOrder, id);
    var (table, order) := Trim(known, Without(q.telemetryOrder, id) + [id]);
    assert table[id := Counted(table[id], samples)].Keys == table.Keys;
    assert (q.completed - {id}).Keys == q.completed.Keys - {id};
  }

  lemma TurnKeepsTables(c: Callback, room: nat)
    requires WellFormed(c.q.entries) && !Stops(c, room) && TablesOk(c.q)
    ensures TablesOk(Turn(c, room).q) && Turn(c, room).q.telemetry.Keys == c.q.telemetry.Keys
  {
    if c.q.entries[0].Terminal? {
      var id := c.q.entries[0].identity;
      var table := c.q.completed[id := At(c.q.rendered, id)];
      ForgetKeeps(c.q.completed.Keys, c.q.completedOrder, id);
      assert table.Keys - {id} == c.q.completed.Keys - {id};
      TouchKeeps(table, c.q.completedOrder, id);
    } else {
      assert Turn(c, room).q.telemetry.Keys == c.q.telemetry.Keys;
    }
  }

  lemma {:induction false} ReportKeepsTables(q: Queue, finished: seq<Popped>)
    requires TablesOk(q)
    ensures TablesOk(Report(q, finished).0)
    decreases |finished|
  {
    if finished != [] {
      var id := finished[0].identity;
      if id in q.telemetry {
        ForgetKeeps(q.telemetry.Keys, q.telemetryOrder, id);
        assert (q.telemetry - {id}).Keys == q.telemetry.Keys - {id};
        ReportKeepsTables(q.(telemetry := q.telemetry - {id}, telemetryOrder := Without(q.telemetryOrder, id)),
                          finished[1..]);
      } else {
        ReportKeepsTables(q, finished[1..]);
      }
    }
  }

  // ---------- The queued-samples counter ----------

  /** A counter may forget (its generation was evicted) but never claims more than is queued. */
  ghost predicate CountersBounded(q: Queue) {
    forall id | id in q.telemetry :: q.telemetry[id].queuedSamples <= CountOf(Pending(q.entries), id)
  }

  /** Playing takes as much of an identity off its counter as it takes off the queue. */
  lemma PlaySomeDrains(c: Callback, amount: nat, id: Identity)
    requires c.q.entries != [] && c.q.entries[0].Audio?
    requires 0 < amount <= |c.q.entries[0].samples| - c.q.entries[0].consumed
    ensures var taken := if c.q.entries[0].identity == id then amount else 0;
      && CountOf(Pending(c.q.entries), id) == CountOf(Pending(PlaySome(c, amount).q.entries), id) + taken
      && (id in PlaySome(c, amount).q.telemetry ==>
            id in c.q.telemetry && PlaySome(c, amount).q.telemetry[id] == Drained(c.q.telemetry[id], taken))
  {
    var e := c.q.entries[0];
    AdvanceSplits(c.q.entries, amount);
    CountJoins(Tag(e.identity, e.samples[e.consumed..e.consumed + amount]), Pending(Advance(c.q.entries, amount)), id);
    CountTag(e.identity, e.samples[e.consumed..e.consumed + amount], id);
  }

  lemma PlaySomeKeepsCounters(c: Callback, amount: nat)
    requires c.q.entries != [] && c.q.entries[0].Audio? && CountersBounded(c.q)
    requires 0 < amount <= |c.q.entries[0].samples| - c.q.entries[0].consumed
    ensures CountersBounded(PlaySome(c, amount).q)
    ensures forall id | id in PlaySome(c, amount).q.telemetry ::
              id in c.q.telemetry && PlaySome(c, amount).q.telemetry[id].quiet == c.q.telemetry[id].quiet
  {
    var r := PlaySome(c, amount).q;
    forall id | id in r.telemetry
      ensures id in c.q.telemetry && r.telemetry[id].quiet == c.q.telemetry[id].quiet
      ensures r.telemetry[id].queuedSamples <= CountOf(Pending(r.entries), id)
    {
      PlaySomeDrains(c, amount, id);
    }
  }

  lemma TurnKeepsCounters(c: Callback, room: nat)
    requires WellFormed(c.q.entries) && !Stops(c, room) && CountersBounded(c.q)
    ensures CountersBounded(Turn(c, room).q)
    ensures forall id | id in Turn(c, room).q.telemetry ::
              id in c.q.telemetry && Turn(c, room).q.telemetry[id].quiet == c.q.telemetry[id].quiet
  {
    var e := c.q.entries[0];
    if e.Audio? {
      PlaySomeKeepsCounters(c, Fit(c, room));
    } else {
      PendingPastTerminal(c.q.entries);
    }
  }

  ghost predicate CallbackOk(c: Callback) {
    WellFormed(c.q.entries) && TablesOk(c.q) && CountersBounded(c.q)
  }

  lemma {:induction false} DriveKeeps(c: Callback, room: nat)
    requires CallbackOk(c)
    ensures CallbackOk(Drive(c, room))
    ensures forall id | id in Drive(c, room).q.telemetry ::
              id in c.q.telemetry && Drive(c, room).q.telemetry[id].quiet == c.q.telemetry[id].quiet
    decreases room - |c.played|, |c.q.entries|
  {
    if !Stops(c, room) {
      TurnKeepsTables(c, room);
      TurnKeepsCounters(c, room);
      DriveKeeps(Turn(c, room), room);
    }
  }

  // ---------- Clearing ----------

  function Dropped(s: seq<Tagged>, id: Identity): seq<Tagged> {
    if s == [] then [] else (if s[0].identity == id then [] else [s[0]]) + Dropped(s[1..], id)
  }

  function Only(s: seq<Tagged>, id: Identity): seq<Tagged> {
    if s == [] then [] else (if s[0].identity == id then [s[0]] else []) + Only(s[1..], id)
  }

  lemma {:induction false} DroppedAndOnly(s: seq<Tagged>, id: Identity)
    ensures multiset(s) == multiset(Dropped(s, id)) + multiset(Only(s, id))
  {
    if s != [] {
      DroppedAndOnly(s[1..], id);
      assert s == [s[0]] + s[1..];
    }
  }

  lemma {:induction false} DroppedJoins(a: seq<Tagged>, b: seq<Tagged>, id: Identity)
    ensures Dropped(a + b, id) == Dropped(a, id) + Dropped(b, id)
  {
    if a == [] {
      assert a + b == b;
    } else {
      HeadFirst(a, b);
      DroppedJoins(a[1..], b, id);
      Associates(if a[0].identity == id then [] else [a[0]], Dropped(a[1..], id), Dropped(b, id));
    }
  }

  lemma {:induction false} DroppedTag(own: Identity, samples: seq<Int16>, id: Identity)
    ensures Dropped(Tag(own, samples), id) == if own == id then [] else Tag(own, samples)
  {
    if samples != [] {
      DroppedTag(own, samples[1..], id);
      assert Tag(own, samples)[1..] == Tag(own, samples[1..]);
    }
  }

  lemma {:induction false} DroppedCount(s: seq<Tagged>, id: Identity, other: Identity)
    ensures CountOf(Dropped(s, id), other) == if id == other then 0 else CountOf(s, other)
  {
    if s != [] {
      var head := [s[0]];
      var kept := if s[0].identity == id then [] else head;
      DroppedCount(s[1..], id, other);
      assert s == head + s[1..];
      CountJoins(head, s[1..], other);
      CountJoins(kept, Dropped(s[1..], id), other);
      assert CountOf(head, other) == if s[0].identity == other then 1 else 0 by {
        assert head[..0] == [];
      }
    }
  }

  lemma {:induction false} ClearedPending(entries: seq<Entry>, id: Identity)
    requires WellFormed(entries)
    ensures WellFormed(EntriesWithout(entries, id))
    ensures Pending(EntriesWithout(entries, id)) == Dropped(Pending(entries), id)
  {
    if entries != [] {
      var e := entries[0];
      ClearedPending(entries[1..], id);
      DroppedJoins(Left(e), Pending(entries[1..]), id);
      assert Dropped(Left(e), id) == if e.identity == id then [] else Left(e) by {
        if e.Audio? && e.consumed <= |e.samples| { DroppedTag(e.identity, e.samples[e.consumed..], id); }
      }
      PendingJoins(if e.identity == id then [] else [e], EntriesWithout(entries[1..], id));
    }
  }

  // ---------- The whole queue over runs ----------

  datatype Op =
    | AppendOp(samples: seq<Int16>, identity: Identity)
    | TerminalOp(finishing: Identity)
    | ClearOp(target: Option<Identity>)
    | MuteOp(muted: bool)
    | SampleOp
    | RenderOp(room: nat)

  function StepQueue(q: Queue, op: Op): Queue
    requires WellFormed(q.entries)
  {
    match op
    case AppendOp(samples, id) => Append(q, samples, id)
    case TerminalOp(id) => Finish(q, id)
    case ClearOp(None) => ClearAll(q)
    case ClearOp(Some(id)) => ClearOne(q, id).0
    case MuteOp(muted) => q.(muted := muted)
    case SampleOp => TakeSnapshots(q)
    case RenderOp(room) => Render(q, room).0.q
  }

  function PlayedBy(q: Queue, op: Op): seq<Tagged>
    requires WellFormed(q.entries)
  {
    if op.RenderOp? then Render(q, op.room).0.played else []
  }

  function ClearedBy(q: Queue, op: Op): seq<Tagged> {
    if !op.ClearOp? then []
    else if op.target.None? then Pending(q.entries) else Only(Pending(q.entries), op.target.value)
  }

  /**
   * The queue beside its history. `line` is one stream with a read cursor: appends extend it, clears
   * take unread samples out of it, callbacks only move the cursor, which stands after `played`.
   * `windows` holds, per live generation, the samples appended since its last telemetry sample.
   */
  datatype World = World(
    q: Queue,
    appended: seq<Tagged>,
    cleared: seq<Tagged>,
    played: seq<Tagged>,
    line: seq<Tagged>,
    windows: map<Identity, seq<Int16>>)

  const Start := World(Empty, [], [], [], [], map[])

  function LineAfter(w: World, op: Op): seq<Tagged>
    requires |w.played| <= |w.line|
  {
    match op
    case AppendOp(samples, id) => w.line + Tag(id, samples)
    case ClearOp(None) => w.line[..|w.played|]
    case ClearOp(Some(id)) => w.line[..|w.played|] + Dropped(w.line[|w.played|..], id)
    case _ => w.line
  }

  function WindowsAfter(w: World, op: Op): map<Identity, seq<Int16>>
    requires WellFormed(w.q.entries)
  {
    map id | id in StepQueue(w.q, op).telemetry ::
      var before := if id in w.windows && !op.SampleOp? then w.windows[id] else [];
      if op.AppendOp? && op.identity == id then before + op.samples else before
  }

  ghost predicate WorldOk(w: World) {
    && CallbackOk(Callback(w.q, [], [], []))
    && w.line == w.played + Pending(w.q.entries)
    && multiset(w.appended) == multiset(w.played) + multiset(Pending(w.q.entries)) + multiset(w.cleared)
    && w.windows.Keys == w.q.telemetry.Keys
    && forall id | id in w.windows :: Sandwiched(w.q.telemetry[id].quiet, w.windows[id])
  }

  function StepWorld(w: World, op: Op): World
    requires WellFormed(w.q.entries) && |w.played| <= |w.line|
  {
    World(StepQueue(w.q, op),
          if op.AppendOp? then w.appended + Tag(op.identity, op.samples) else w.appended,
          w.cleared + ClearedBy(w.q, op),
          w.played + PlayedBy(w.q, op),
          LineAfter(w, op),
          WindowsAfter(w, op))
  }
}
