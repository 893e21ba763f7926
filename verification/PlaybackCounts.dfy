/** What the tables of the playback queue remember of its history, over every run. */
module PlaybackCounts {
  import opened Common
  import opened NearSilence
  import opened PlaybackModel
  import opened PlaybackRuns
  import opened PlaybackTables
  import opened PlaybackWorld

  /** What can happen to a generation: a callback takes a sample or a terminal, audio comes in, or it is cleared. */
  datatype Mark = Took(item: Item) | Fresh(identity: Identity) | Wiped(target: Option<Identity>)

  predicate Ends(m: Mark, id: Identity) {
    m == Took(End(id))
  }

  predicate Plays(m: Mark, id: Identity) {
    m.Took? && m.item.Sound? && m.item.tagged.identity == id
  }

  predicate Wipes(m: Mark, id: Identity) {
    m.Wiped? && (m.target == None || m.target == Some(id))
  }

  /** The samples taken of a generation since it last ended or was cleared. */
  function Running(marks: seq<Mark>, id: Identity): nat {
    if marks == [] then 0
    else
      var m, before := marks[|marks| - 1], marks[..|marks| - 1];
      if Ends(m, id) || Wipes(m, id) then 0
      else Running(before, id) + if Plays(m, id) then 1 else 0
  }

  /** The samples a generation had when it last ended, unless it got new audio or was cleared since. */
  function Finished(marks: seq<Mark>, id: Identity): Option<nat> {
    if marks == [] then None
    else
      var m, before := marks[|marks| - 1], marks[..|marks| - 1];
      if Ends(m, id) then Some(Running(before, id))
      else if Wipes(m, id) || m == Fresh(id) then None
      else Finished(before, id)
  }

  /** The generations that ended after this one did. */
  function EndedSince(marks: seq<Mark>, id: Identity): set<Identity> {
    if marks == [] || Ends(marks[|marks| - 1], id) then {}
    else
      var m := marks[|marks| - 1];
      EndedSince(marks[..|marks| - 1], id) + if m.Took? && m.item.End? then {m.item.identity} else {}
  }

  /** The tables hold of a generation what its history says, and forget an end only behind 32 later ones. */
  ghost predicate Knows(q: Queue, marks: seq<Mark>, id: Identity) {
    && (id in q.started <==> Running(marks, id) > 0)
    && At(q.rendered, id) == Running(marks, id)
    && (id in q.completed ==> Finished(marks, id) == Some(q.completed[id]))
    && (id !in q.completed && Finished(marks, id).Some? ==> |EndedSince(marks, id)| >= MAX_COMPLETED_PLAYBACK)
  }

  ghost predicate InOrder(order: seq<Identity>, marks: seq<Mark>) {
    forall i, j {:trigger order[i], order[j]} | 0 <= i < j < |order| :: order[j] in EndedSince(marks, order[i])
  }

  ghost predicate Remembers(q: Queue, marks: seq<Mark>) {
    && TableOk(q.completed.Keys, q.completedOrder)
    && InOrder(q.completedOrder, marks)
    && forall id {:trigger Knows(q, marks, id)} :: Knows(q, marks, id)
  }

  lemma OneMore(marks: seq<Mark>, m: Mark)
    ensures (marks + [m])[..|marks + [m]| - 1] == marks && (marks + [m])[|marks + [m]| - 1] == m
  {
  }

  // ---------- Orders ----------

  /** What is left of an order keeps its places relative to each other. */
  lemma {:induction false} WithoutInOrder(order: seq<Identity>, marks: seq<Mark>, id: Identity)
    requires InOrder(order, marks)
    ensures InOrder(Without(order, id), marks)
  {
    if order != [] {
      var rest := order[1..];
      assert InOrder(rest, marks) by {
        forall i, j | 0 <= i < j < |rest|
          ensures rest[j] in EndedSince(marks, rest[i])
        {
          assert rest[i] == order[i + 1] && rest[j] == order[j + 1];
        }
      }
      WithoutInOrder(rest, marks, id);
      WithoutFacts(rest, id);
      forall x | x in Without(rest, id)
        ensures x in EndedSince(marks, order[0])
      {
        var k :| 0 <= k < |rest| && rest[k] == x;
        assert order[k + 1] == x;
      }
    }
  }

  lemma OrderGrows(order: seq<Identity>, marks: seq<Mark>, m: Mark)
    requires InOrder(order, marks) && forall id | id in order :: !Ends(m, id)
    ensures InOrder(order, marks + [m])
  {
    OneMore(marks, m);
    forall i, j | 0 <= i < j < |order|
      ensures order[j] in EndedSince(marks + [m], order[i])
    {
      assert order[i] in order;
    }
  }

  // ---------- The end of a generation ----------

  /** Distinct members of a list that all lie in a set: the set is no smaller than the list. */
  lemma {:induction false} AtLeast(order: seq<Identity>, all: set<Identity>)
    requires NoDuplicates(order) && forall id | id in order :: id in all
    ensures |all| >= |order|
  {
    if order != [] {
      var rest := order[1..];
      assert order[0] !in rest && NoDuplicates(rest);
      assert forall id | id in rest :: id in order;
      AtLeast(rest, all - {order[0]});
    }
  }

  /** At most the oldest entry leaves a table that one key was added to. */
  lemma TrimOnce(table: map<Identity, nat>, order: seq<Identity>)
    requires |order| <= MAX_COMPLETED_PLAYBACK + 1
    ensures Trim(table, order) ==
            if |order| <= MAX_COMPLETED_PLAYBACK then (table, order) else (table - {order[0]}, order[1..])
  {
    if |order| > MAX_COMPLETED_PLAYBACK {
      assert Trim(table - {order[0]}, order[1..]) == (table - {order[0]}, order[1..]);
    }
  }

  lemma EndInOrder(order: seq<Identity>, marks: seq<Mark>, id: Identity)
    requires InOrder(order, marks)
    ensures InOrder(Without(order, id) + [id], marks + [Took(End(id))])
  {
    var m, rest := Took(End(id)), Without(order, id);
    WithoutInOrder(order, marks, id);
    WithoutFacts(order, id);
    OrderGrows(rest, marks, m);
    OneMore(marks, m);
    forall i | 0 <= i < |rest|
      ensures id in EndedSince(marks + [m], rest[i])
    {
      assert rest[i] in rest;
    }
  }

  lemma TailInOrder(order: seq<Identity>, marks: seq<Mark>)
    requires InOrder(order, marks) && order != []
    ensures InOrder(order[1..], marks)
  {
    forall i, j | 0 <= i < j < |order[1..]|
      ensures order[1..][j] in EndedSince(marks, order[1..][i])
    {
      assert order[1..][i] == order[i + 1] && order[1..][j] == order[j + 1];
    }
  }

  /** Whoever had to leave the full table ended before 32 others. */
  lemma LeavesBehind(order: seq<Identity>, marks: seq<Mark>)
    requires InOrder(order, marks) && NoDuplicates(order) && |order| == MAX_COMPLETED_PLAYBACK + 1
    ensures |EndedSince(marks, order[0])| >= MAX_COMPLETED_PLAYBACK
  {
    var rest := order[1..];
    forall id | id in rest
      ensures id in EndedSince(marks, order[0])
    {
      var k :| 0 <= k < |rest| && rest[k] == id;
      assert order[k + 1] == id;
    }
    AtLeast(rest, EndedSince(marks, order[0]));
  }

  lemma EndCounts(marks: seq<Mark>, id: Identity, other: Identity)
    ensures var after := marks + [Took(End(id))];
      if other == id then Running(after, id) == 0 && Finished(after, id) == Some(Running(marks, id))
      else Running(after, other) == Running(marks, other) && Finished(after, other) == Finished(marks, other)
           && |EndedSince(after, other)| >= |EndedSince(marks, other)|
  {
    OneMore(marks, Took(End(id)));
    if other != id {
      Grows(EndedSince(marks, other), id);
    }
  }

  lemma Grows(s: set<Identity>, id: Identity)
    ensures |s + {id}| >= |s|
  {
    if id in s { assert s + {id} == s; }
  }

  lemma PopKeepsTable(c: Callback)
    requires c.q.entries != [] && TableOk(c.q.completed.Keys, c.q.completedOrder)
    ensures var r, id := PopTerminal(c).q, c.q.entries[0].identity;
      && TableOk(r.completed.Keys, r.completedOrder)
      && id in r.completed && r.completed[id] == At(c.q.rendered, id)
      && (forall x | x in r.completed && x != id :: x in c.q.completed && r.completed[x] == c.q.completed[x])
  {
    var id := c.q.entries[0].identity;
    var table := c.q.completed[id := At(c.q.rendered, id)];
    ForgetKeeps(c.q.completed.Keys, c.q.completedOrder, id);
    assert table.Keys - {id} == c.q.completed.Keys - {id};
    TouchKeeps(table, c.q.completedOrder, id);
  }

  lemma PopKeepsOrder(c: Callback, marks: seq<Mark>)
    requires c.q.entries != []
    requires TableOk(c.q.completed.Keys, c.q.completedOrder) && InOrder(c.q.completedOrder, marks)
    ensures var r, after := PopTerminal(c).q, marks + [Took(End(c.q.entries[0].identity))];
      && InOrder(r.completedOrder, after)
      && forall x | x !in r.completed && x in c.q.completed :: |EndedSince(after, x)| >= MAX_COMPLETED_PLAYBACK
  {
    var id := c.q.entries[0].identity;
    var table, order := c.q.completed[id := At(c.q.rendered, id)], Without(c.q.completedOrder, id) + [id];
    var after := marks + [Took(End(id))];
    EndInOrder(c.q.completedOrder, marks, id);
    WithoutFacts(c.q.completedOrder, id);
    TrimOnce(table, order);
    if |order| > MAX_COMPLETED_PLAYBACK {
      LeavesBehind(order, after);
      TailInOrder(order, after);
    }
  }

  lemma PopRemembers(c: Callback, marks: seq<Mark>)
    requires c.q.entries != [] && Remembers(c.q, marks)
    ensures Remembers(PopTerminal(c).q, marks + [Took(End(c.q.entries[0].identity))])
  {
    var r, id := PopTerminal(c).q, c.q.entries[0].identity;
    var after := marks + [Took(End(id))];
    PopKeepsTable(c);
    PopKeepsOrder(c, marks);
    assert Knows(c.q, marks, id);
    forall x
      ensures Knows(r, after, x)
    {
      assert Knows(c.q, marks, x);
      EndCounts(marks, id, x);
    }
  }

  // ---------- Audio that is played ----------

  function Taking(items: seq<Item>): (r: seq<Mark>)
    ensures |r| == |items|
  {
    seq(|items|, i requires 0 <= i < |items| => Took(items[i]))
  }

  lemma {:induction false} SoundsCounted(marks: seq<Mark>, own: Identity, samples: seq<Int16>, id: Identity)
    ensures var after := marks + Taking(Sounds(Tag(own, samples)));
      && Running(after, id) == Running(marks, id) + (if own == id then |samples| else 0)
      && Finished(after, id) == Finished(marks, id) && EndedSince(after, id) == EndedSince(marks, id)
  {
    if samples == [] {
      assert marks + Taking(Sounds(Tag(own, samples))) == marks;
    } else {
      var front := samples[..|samples| - 1];
      var m := Took(Sound(Tagged(own, samples[|samples| - 1])));
      SoundsCounted(marks, own, front, id);
      OneMore(marks + Taking(Sounds(Tag(own, front))), m);
      assert marks + Taking(Sounds(Tag(own, samples))) == marks + Taking(Sounds(Tag(own, front))) + [m];
    }
  }

  lemma PlayKnows(c: Callback, amount: nat, marks: seq<Mark>, id: Identity)
    requires c.q.entries != [] && c.q.entries[0].Audio? && Knows(c.q, marks, id)
    requires 0 < amount <= |c.q.entries[0].samples| - c.q.entries[0].consumed
    ensures var e := c.q.entries[0];
      Knows(PlaySome(c, amount).q,
            marks + Taking(Sounds(Tag(e.identity, e.samples[e.consumed..e.consumed + amount]))), id)
  {
    var e := c.q.entries[0];
    SoundsCounted(marks, e.identity, e.samples[e.consumed..e.consumed + amount], id);
  }

  lemma PlayRemembers(c: Callback, amount: nat, marks: seq<Mark>)
    requires c.q.entries != [] && c.q.entries[0].Audio? && Remembers(c.q, marks)
    requires 0 < amount <= |c.q.entries[0].samples| - c.q.entries[0].consumed
    ensures var e := c.q.entries[0];
      Remembers(PlaySome(c, amount).q,
                marks + Taking(Sounds(Tag(e.identity, e.samples[e.consumed..e.consumed + amount]))))
  {
    var r, e := PlaySome(c, amount).q, c.q.entries[0];
    var more := e.samples[e.consumed..e.consumed + amount];
    var after := marks + Taking(Sounds(Tag(e.identity, more)));
    forall id
      ensures Knows(r, after, id)
    {
      PlayKnows(c, amount, marks, id);
    }
    SameOrder(r.completedOrder, marks, e.identity, more);
  }

  lemma SameOrder(order: seq<Identity>, marks: seq<Mark>, own: Identity, samples: seq<Int16>)
    requires InOrder(order, marks)
    ensures InOrder(order, marks + Taking(Sounds(Tag(own, samples))))
  {
    forall i | 0 <= i < |order|
      ensures EndedSince(marks + Taking(Sounds(Tag(own, samples))), order[i]) == EndedSince(marks, order[i])
    {
      SoundsCounted(marks, own, samples, order[i]);
    }
  }

  // ---------- A callback ----------

  lemma TurnRemembers(c: Callback, room: nat, marks: seq<Mark>)
    requires WellFormed(c.q.entries) && !Stops(c, room) && Remembers(c.q, marks)
    ensures Remembers(Turn(c, room).q, marks + Taking(TakenByTurn(c, room)))
  {
    if c.q.entries[0].Audio? {
      AudioTurn(c, room);
      PlayRemembers(c, Fit(c, room), marks);
    } else {
      assert Taking([End(c.q.entries[0].identity)]) == [Took(End(c.q.entries[0].identity))];
      PopRemembers(c, marks);
    }
  }

  lemma TakingJoins(marks: seq<Mark>, a: seq<Item>, b: seq<Item>)
    ensures marks + Taking(a + b) == marks + Taking(a) + Taking(b)
  {
  }

  lemma {:induction false} DriveRemembers(c: Callback, room: nat, marks: seq<Mark>)
    requires WellFormed(c.q.entries) && Remembers(c.q, marks)
    ensures Remembers(Drive(c, room).q, marks + Taking(Taken(c, room)))
    decreases room - |c.played|, |c.q.entries|
  {
    if Stops(c, room) {
      assert marks + Taking([]) == marks;
    } else {
      var taken := TakenByTurn(c, room);
      TurnRemembers(c, room, marks);
      DriveRemembers(Turn(c, room), room, marks + Taking(taken));
      TakingJoins(marks, taken, Taken(Turn(c, room), room));
    }
  }

  lemma SameTables(q: Queue, r: Queue, marks: seq<Mark>)
    requires Remembers(q, marks)
    requires (r.started, r.rendered, r.completed, r.completedOrder)
             == (q.started, q.rendered, q.completed, q.completedOrder)
    ensures Remembers(r, marks)
  {
    forall id
      ensures Knows(r, marks, id)
    {
      assert Knows(q, marks, id);
    }
  }

  lemma RenderRemembers(q: Queue, room: nat, marks: seq<Mark>)
    requires WellFormed(q.entries) && Remembers(q, marks)
    ensures Remembers(Render(q, room).0.q, marks + Taking(Taken(Callback(q, [], [], []), room)))
  {
    var start := Callback(q, [], [], []);
    var c := Drive(start, room);
    DriveRemembers(start, room, marks);
    ReportKeepsQueue(c.q, c.finished);
    SameTables(c.q, Render(q, room).0.q, marks + Taking(Taken(start, room)));
  }

  // ---------- New audio and clears ----------

  lemma FreshCounts(marks: seq<Mark>, id: Identity, other: Identity)
    ensures var after := marks + [Fresh(id)];
      && Running(after, other) == Running(marks, other)
      && Finished(after, other) == (if other == id then None else Finished(marks, other))
      && EndedSince(after, other) == EndedSince(marks, other)
  {
    OneMore(marks, Fresh(id));
  }

  lemma AppendRemembers(q: Queue, samples: seq<Int16>, id: Identity, marks: seq<Mark>)
    requires Remembers(q, marks) && samples != []
    ensures Remembers(Append(q, samples, id), marks + [Fresh(id)])
  {
    var r := Append(q, samples, id);
    ForgetKeeps(q.completed.Keys, q.completedOrder, id);
    assert r.completed.Keys == q.completed.Keys - {id};
    WithoutInOrder(q.completedOrder, marks, id);
    OrderGrows(Without(q.completedOrder, id), marks, Fresh(id));
    forall x
      ensures Knows(r, marks + [Fresh(id)], x)
    {
      assert Knows(q, marks, x);
      FreshCounts(marks, id, x);
    }
  }

  lemma WipedCounts(marks: seq<Mark>, target: Option<Identity>, other: Identity)
    ensures var after := marks + [Wiped(target)];
      && EndedSince(after, other) == EndedSince(marks, other)
      && if target == None || target == Some(other) then Running(after, other) == 0 && Finished(after, other) == None
         else Running(after, other) == Running(marks, other) && Finished(after, other) == Finished(marks, other)
  {
    OneMore(marks, Wiped(target));
  }

  lemma ClearRemembers(q: Queue, id: Identity, marks: seq<Mark>)
    requires Remembers(q, marks)
    ensures Remembers(ClearOne(q, id).0, marks + [Wiped(Some(id))])
  {
    var r := ClearOne(q, id).0;
    ForgetKeeps(q.completed.Keys, q.completedOrder, id);
    assert r.completed.Keys == q.completed.Keys - {id};
    WithoutInOrder(q.completedOrder, marks, id);
    OrderGrows(Without(q.completedOrder, id), marks, Wiped(Some(id)));
    forall x
      ensures Knows(r, marks + [Wiped(Some(id))], x)
    {
      assert Knows(q, marks, x);
      WipedCounts(marks, Some(id), x);
    }
  }

  lemma ClearAllRemembers(q: Queue, marks: seq<Mark>)
    requires Remembers(q, marks)
    ensures Remembers(ClearAll(q), marks + [Wiped(None)])
  {
    forall x
      ensures Knows(ClearAll(q), marks + [Wiped(None)], x)
    {
      WipedCounts(marks, None, x);
    }
  }

  // ---------- Every run ----------

  function MarksOf(q: Queue, op: Op): seq<Mark>
    requires WellFormed(q.entries)
  {
    match op
    case AppendOp(samples, id) => if samples == [] then [] else [Fresh(id)]
    case ClearOp(target) => [Wiped(target)]
    case RenderOp(room) => Taking(Taken(Callback(q, [], [], []), room))
    case _ => []
  }

  ghost function History(ops: seq<Op>): seq<Mark> {
    if ops == [] then []
    else History(ops[..|ops| - 1]) + MarksOf(Run(ops[..|ops| - 1]).q, ops[|ops| - 1])
  }

  lemma StepRemembers(q: Queue, op: Op, marks: seq<Mark>)
    requires WellFormed(q.entries) && Remembers(q, marks)
    ensures Remembers(StepQueue(q, op), marks + MarksOf(q, op))
  {
    assert marks + [] == marks;
    match op
    case AppendOp(samples, id) => if samples != [] { AppendRemembers(q, samples, id, marks); }
    case ClearOp(None) => ClearAllRemembers(q, marks);
    case ClearOp(Some(id)) => ClearRemembers(q, id, marks);
    case RenderOp(room) => RenderRemembers(q, room, marks);
    case _ => SameTables(q, StepQueue(q, op), marks);
  }

  /**
   * After any run: a generation is started, with its running count, exactly as what callbacks took of it since its
   * last end or clear says; an end is remembered with its count until new audio, a clear or 32 later ends.
   */
  lemma {:induction false} TablesTellHistory(ops: seq<Op>)
    ensures Remembers(Run(ops).q, History(ops))
  {
    if ops != [] {
      TablesTellHistory(ops[..|ops| - 1]);
      StepRemembers(Run(ops[..|ops| - 1]).q, ops[|ops| - 1], History(ops[..|ops| - 1]));
    }
  }

  /** What a clear returns: the larger of what was taken since the last end and what the last end counted. */
  lemma ClearReturns(ops: seq<Op>, id: Identity)
    ensures var last := Finished(History(ops), id);
      var counted := if last.Some? then last.value else 0;
      var result := ClearOne(Run(ops).q, id).1;
      || result == Max(Running(History(ops), id), counted)
      || (|EndedSince(History(ops), id)| >= MAX_COMPLETED_PLAYBACK && result == Running(History(ops), id))
  {
    TablesTellHistory(ops);
    assert Knows(Run(ops).q, History(ops), id);
  }

  /** New audio goes behind everything queued. */
  lemma AppendItems(q: Queue, samples: seq<Int16>, id: Identity)
    ensures Items(Append(q, samples, id).entries) == Items(q.entries) + Sounds(Tag(id, samples))
  {
    if samples == [] {
      assert Sounds(Tag(id, samples)) == [];
    } else {
      NewItems(samples, id);
      ItemsJoin(q.entries, [Audio(id, samples, 0)]);
    }
  }

  lemma NewItems(samples: seq<Int16>, id: Identity)
    ensures Items([Audio(id, samples, 0)]) == Sounds(Tag(id, samples))
  {
    assert samples[0..] == samples;
    assert Items([Audio(id, samples, 0)]) == Sounds(Tag(id, samples)) + Items([]);
  }

  lemma LastStays<V>(table: map<Identity, V>, order: seq<Identity>, id: Identity)
    ensures var o := Trim(table, order + [id]).1; o != [] && o[|o| - 1] == id
  {
    TrimKeepsNewest(table, order + [id]);
  }

  /** Its generation is the newest live one, and no longer one that ended. */
  lemma AppendIsNewest(q: Queue, samples: seq<Int16>, id: Identity)
    requires TablesOk(q) && samples != []
    ensures var r := Append(q, samples, id);
      && id in r.telemetry && r.telemetryOrder != [] && r.telemetryOrder[|r.telemetryOrder| - 1] == id
      && id !in r.completed
  {
    AppendKeepsTables(q, samples, id);
    var known := if id in q.telemetry then q.telemetry else q.telemetry[id := Counters(0, Reset)];
    LastStays(known, Without(q.telemetryOrder, id), id);
  }

  // ---------- Clearing leaves nothing behind ----------

  function OthersOf(items: seq<Item>, id: Identity): seq<Item> {
    if items == [] then []
    else (if IdOf(items[0]) == id then [] else [items[0]]) + OthersOf(items[1..], id)
  }

  function IdOf(item: Item): Identity {
    if item.Sound? then item.tagged.identity else item.identity
  }

  lemma {:induction false} OthersJoin(a: seq<Item>, b: seq<Item>, id: Identity)
    ensures OthersOf(a + b, id) == OthersOf(a, id) + OthersOf(b, id)
  {
    if a == [] {
      assert a + b == b;
    } else {
      HeadFirst(a, b);
      OthersJoin(a[1..], b, id);
      Associates(if IdOf(a[0]) == id then [] else [a[0]], OthersOf(a[1..], id), OthersOf(b, id));
    }
  }

  lemma {:induction false} OthersOfSounds(own: Identity, samples: seq<Int16>, id: Identity)
    ensures OthersOf(Sounds(Tag(own, samples)), id) == if own == id then [] else Sounds(Tag(own, samples))
  {
    if samples != [] {
      OthersOfSounds(own, samples[1..], id);
      assert Sounds(Tag(own, samples))[1..] == Sounds(Tag(own, samples[1..]));
    }
  }

  lemma OthersOfEntry(e: Entry, id: Identity)
    ensures OthersOf(ItemsOf(e), id) == if e.identity == id then [] else ItemsOf(e)
  {
    if e.Terminal? {
      assert [End(e.identity)][1..] == [];
    } else if e.consumed <= |e.samples| {
      OthersOfSounds(e.identity, e.samples[e.consumed..], id);
    }
  }

  /** Of the line of samples and terminals exactly the cleared generation's leave, and the rest keep their order. */
  lemma {:induction false} ClearedItems(entries: seq<Entry>, id: Identity)
    ensures Items(EntriesWithout(entries, id)) == OthersOf(Items(entries), id)
  {
    if entries != [] {
      var e, rest := entries[0], entries[1..];
      ClearedItems(rest, id);
      OthersOfEntry(e, id);
      OthersJoin(ItemsOf(e), Items(rest), id);
      ItemsJoin(if e.identity == id then [] else [e], EntriesWithout(rest, id));
      assert Items([e]) == ItemsOf(e) + Items([]);
    }
  }

  ghost predicate Gone(q: Queue, id: Identity) {
    && id !in q.started && id !in q.rendered && id !in q.completed && id !in q.completedOrder
    && id !in q.telemetry && id !in q.telemetryOrder
    && forall e | e in q.entries :: e.identity != id
  }

  /** Everything another generation had it still has, in the same order. */
  ghost predicate KeepsOthers(q: Queue, r: Queue, id: Identity) {
    && r.muted == q.muted
    && Items(r.entries) == OthersOf(Items(q.entries), id)
    && forall x | x != id ::
         && (x in r.started <==> x in q.started)
         && At(r.rendered, x) == At(q.rendered, x)
         && (x in r.completed <==> x in q.completed) && At(r.completed, x) == At(q.completed, x)
         && (x in r.completedOrder <==> x in q.completedOrder)
         && (x in r.telemetry <==> x in q.telemetry)
         && (x in r.telemetry ==> r.telemetry[x] == q.telemetry[x])
         && (x in r.telemetryOrder <==> x in q.telemetryOrder)
  }

  /** A cleared generation leaves nothing behind and takes nothing of another along. */
  lemma ClearLeavesNothing(q: Queue, id: Identity)
    ensures Gone(ClearOne(q, id).0, id) && KeepsOthers(q, ClearOne(q, id).0, id)
  {
    WithoutFacts(q.completedOrder, id);
    WithoutFacts(q.telemetryOrder, id);
    ClearedItems(q.entries, id);
    NoEntryLeft(q.entries, id);
  }

  lemma {:induction false} NoEntryLeft(entries: seq<Entry>, id: Identity)
    ensures forall e | e in EntriesWithout(entries, id) :: e.identity != id
  {
    if entries != [] {
      NoEntryLeft(entries[1..], id);
    }
  }

  // ---------- Queued samples ----------

  lemma {:induction false} PendingIsCounted(s: seq<Tagged>, id: Identity)
    ensures id in Ids(s) <==> CountOf(s, id) > 0
  {
    if s != [] {
      var front, last := s[..|s| - 1], s[|s| - 1];
      PendingIsCounted(front, id);
      assert s == front + [last];
      assert forall t :: t in s <==> t in front || t == last;
      if id in Ids(s) {
        var t :| t in s && t.identity == id;
        assert t in front || t == last;
      }
      if id in Ids(front) || last.identity == id {
        assert exists t :: t in s && t.identity == id by { assert last in s; }
      }
    }
  }

  /** The generations with audio still queued whose counters were missing at some time while they had audio queued. */
  function LostAfter(q: Queue, lost: set<Identity>): set<Identity> {
    set id | id in Ids(Pending(q.entries)) && (id in lost || id !in q.telemetry)
  }

  ghost function Lost(ops: seq<Op>): set<Identity> {
    if ops == [] then {} else LostAfter(Run(ops).q, Lost(ops[..|ops| - 1]))
  }

  function Queued(q: Queue, id: Identity): nat {
    if id in q.telemetry then q.telemetry[id].queuedSamples else 0
  }

  ghost predicate Exact(q: Queue, id: Identity) {
    Queued(q, id) == CountOf(Pending(q.entries), id)
  }

  lemma AppendExact(q: Queue, samples: seq<Int16>, own: Identity, id: Identity)
    requires QueueOk(q) && Exact(q, id)
    requires id in Append(q, samples, own).telemetry || CountOf(Pending(Append(q, samples, own).entries), id) == 0
    ensures Exact(Append(q, samples, own), id)
  {
    if samples != [] {
      AppendPending(q, samples, own);
      AppendKeepsTables(q, samples, own);
      CountJoins(Pending(q.entries), Tag(own, samples), id);
      CountTag(own, samples, id);
    }
  }

  lemma TurnExact(c: Callback, room: nat, id: Identity)
    requires WellFormed(c.q.entries) && !Stops(c, room) && id in c.q.telemetry && Exact(c.q, id)
    ensures id in Turn(c, room).q.telemetry && Exact(Turn(c, room).q, id)
  {
    if c.q.entries[0].Audio? {
      AudioTurn(c, room);
      PlaySomeDrains(c, Fit(c, room), id);
    } else {
      PendingPastTerminal(c.q.entries);
    }
  }

  lemma {:induction false} DriveExact(c: Callback, room: nat, id: Identity)
    requires WellFormed(c.q.entries) && id in c.q.telemetry && Exact(c.q, id)
    ensures id in Drive(c, room).q.telemetry && Exact(Drive(c, room).q, id)
    decreases room - |c.played|, |c.q.entries|
  {
    if !Stops(c, room) {
      TurnExact(c, room, id);
      DriveExact(Turn(c, room), room, id);
    }
  }

  lemma RenderExact(q: Queue, room: nat, id: Identity)
    requires WellFormed(q.entries) && id in Render(q, room).0.q.telemetry
    requires id in q.telemetry && Exact(q, id)
    ensures Exact(Render(q, room).0.q, id)
  {
    var start := Callback(q, [], [], []);
    var c := Drive(start, room);
    DriveExact(start, room, id);
    ReportKeepsQueue(c.q, c.finished);
  }

  lemma ClearExact(q: Queue, own: Identity, id: Identity)
    requires QueueOk(q) && Exact(q, id)
    ensures Exact(ClearOne(q, own).0, id)
  {
    ClearedPending(q.entries, own);
    DroppedCount(Pending(q.entries), own, id);
  }

  lemma StepExact(q: Queue, op: Op, id: Identity)
    requires QueueOk(q) && Exact(q, id)
    requires id in StepQueue(q, op).telemetry || CountOf(Pending(StepQueue(q, op).entries), id) == 0
    ensures Exact(StepQueue(q, op), id)
  {
    match op
    case AppendOp(samples, own) => AppendExact(q, samples, own, id);
    case TerminalOp(own) => FinishPending(q, own);
    case ClearOp(Some(own)) => ClearExact(q, own, id);
    case RenderOp(room) =>
      RenderOk(q, room);
      if id in Render(q, room).0.q.telemetry { RenderExact(q, room, id); }
    case _ =>
  }

  /**
   * After any run the queued-samples counter of a generation is the number of its samples that are queued, unless
   * its counters were once dropped while it had audio queued, and it has had audio queued ever since.
   */
  lemma {:induction false} QueuedIsExact(ops: seq<Op>, id: Identity)
    requires id !in Lost(ops)
    ensures Exact(Run(ops).q, id)
  {
    if ops != [] {
      var before, op := ops[..|ops| - 1], ops[|ops| - 1];
      var q, r := Run(before).q, Run(ops).q;
      PendingIsCounted(Pending(r.entries), id);
      if id in Ids(Pending(r.entries)) {
        QueuedIsExact(before, id);
        StepExact(q, op, id);
      } else {
        assert QueueOk(r);
      }
    }
  }
}
