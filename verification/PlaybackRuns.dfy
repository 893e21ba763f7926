/** What every interleaving of append, terminal, clear, mute, sample and render keeps. */
module PlaybackRuns {
  import opened Common
  import opened NearSilence
  import opened PlaybackModel

  // ---------- Audio still queued ----------

  function Left(e: Entry): seq<Tagged> {
    if e.Audio? && e.consumed <= |e.samples| then Tag(e.identity, e.samples[e.consumed..]) else []
  }

  function Pending(entries: seq<Entry>): seq<Tagged> {
    if entries == [] then [] else Left(entries[0]) + Pending(entries[1..])
  }

  lemma {:induction false} PendingJoins(a: seq<Entry>, b: seq<Entry>)
    ensures Pending(a + b) == Pending(a) + Pending(b)
  {
    if a == [] {
      assert a + b == b;
    } else {
      PendingJoins(a[1..], b);
      HeadFirst(a, b);
      Associates(Left(a[0]), Pending(a[1..]), Pending(b));
    }
  }

  lemma TagSplits(id: Identity, samples: seq<Int16>, i: nat, j: nat)
    requires i <= j <= |samples|
    ensures Tag(id, samples[i..]) == Tag(id, samples[i..j]) + Tag(id, samples[j..])
  {
  }

  lemma AdvancePending(entries: seq<Entry>, amount: nat)
    requires entries != [] && entries[0].Audio?
    requires amount <= |entries[0].samples| - entries[0].consumed
    ensures Pending(Advance(entries, amount)) ==
            Tag(entries[0].identity, entries[0].samples[entries[0].consumed + amount..]) + Pending(entries[1..])
  {
    var e := entries[0];
    if e.consumed + amount == |e.samples| {
      assert Tag(e.identity, e.samples[e.consumed + amount..]) == [];
    } else {
      assert Advance(entries, amount)[1..] == entries[1..];
    }
  }

  lemma AdvanceSplits(entries: seq<Entry>, amount: nat)
    requires entries != [] && entries[0].Audio?
    requires amount <= |entries[0].samples| - entries[0].consumed
    ensures var e := entries[0];
      Pending(entries) ==
        Tag(e.identity, e.samples[e.consumed..e.consumed + amount]) + Pending(Advance(entries, amount))
  {
    var e := entries[0];
    AdvancePending(entries, amount);
    TagSplits(e.identity, e.samples, e.consumed, e.consumed + amount);
    Associates(Tag(e.identity, e.samples[e.consumed..e.consumed + amount]),
               Tag(e.identity, e.samples[e.consumed + amount..]), Pending(entries[1..]));
  }

  lemma PlaySomeInOrder(c: Callback, amount: nat)
    requires c.q.entries != [] && c.q.entries[0].Audio?
    requires 0 < amount <= |c.q.entries[0].samples| - c.q.entries[0].consumed
    ensures PlaySome(c, amount).played + Pending(PlaySome(c, amount).q.entries) == c.played + Pending(c.q.entries)
  {
    var e := c.q.entries[0];
    var front := Tag(e.identity, e.samples[e.consumed..e.consumed + amount]);
    AdvanceSplits(c.q.entries, amount);
    Associates(c.played, front, Pending(Advance(c.q.entries, amount)));
  }

  lemma TurnPlaysInOrder(c: Callback, room: nat)
    requires WellFormed(c.q.entries) && !Stops(c, room)
    ensures Turn(c, room).played + Pending(Turn(c, room).q.entries) == c.played + Pending(c.q.entries)
  {
    var e := c.q.entries[0];
    if e.Audio? {
      PlaySomeInOrder(c, Fit(c, room));
    } else {
      PendingPastTerminal(c.q.entries);
    }
  }

  lemma PendingPastTerminal(entries: seq<Entry>)
    requires entries != [] && entries[0].Terminal?
    ensures Pending(entries) == Pending(entries[1..])
  {
  }

  /** Whatever a callback consumes is the front of the queued audio, in order. */
  lemma {:induction false} DrivePlaysInOrder(c: Callback, room: nat)
    requires WellFormed(c.q.entries)
    ensures Drive(c, room).played + Pending(Drive(c, room).q.entries) == c.played + Pending(c.q.entries)
    ensures |c.played| <= |Drive(c, room).played| && (|c.played| <= room ==> |Drive(c, room).played| <= room)
    decreases room - |c.played|, |c.q.entries|
  {
    if !Stops(c, room) {
      TurnPlaysInOrder(c, room);
      DrivePlaysInOrder(Turn(c, room), room);
    }
  }

  lemma {:induction false} ReportKeepsQueue(q: Queue, finished: seq<Popped>)
    ensures Report(q, finished).0 == q.(telemetry := Report(q, finished).0.telemetry,
                                        telemetryOrder := Report(q, finished).0.telemetryOrder)
    ensures Report(q, finished).0.telemetry.Keys <= q.telemetry.Keys
    ensures forall id | id in Report(q, finished).0.telemetry :: Report(q, finished).0.telemetry[id] == q.telemetry[id]
    decreases |finished|
  {
    if finished != [] {
      var id := finished[0].identity;
      ReportKeepsQueue(q, finished[1..]);
      ReportKeepsQueue(q.(telemetry := q.telemetry - {id}, telemetryOrder := Without(q.telemetryOrder, id)),
                       finished[1..]);
    }
  }

  /**
   * A callback consumes a prefix of the queued audio, fills its buffer unless the queue ran dry or
   * the next terminal belongs to audio of this very callback, and leaves the rest queued.
   */
  lemma RenderPlaysPrefix(q: Queue, room: nat)
    requires WellFormed(q.entries)
    ensures var c := Render(q, room).0;
      && WellFormed(c.q.entries)
      && c.played + Pending(c.q.entries) == Pending(q.entries)
      && |c.played| <= room
      && (|c.played| < room ==>
            c.q.entries == [] || (c.q.entries[0].Terminal? && c.q.entries[0].identity in Ids(c.played)))
  {
    var c := Drive(Callback(q, [], [], []), room);
    DrivePlaysInOrder(Callback(q, [], [], []), room);
    ReportKeepsQueue(c.q, c.finished);
  }

  // ---------- Terminals and rendered counts ----------

  ghost predicate TerminalsFirst(c: Callback) {
    forall p | p in c.finished :: p.after <= |c.played| && p.identity !in Ids(c.played[..p.after])
  }

  /** No terminal is popped in a callback that has already consumed samples of its identity. */
  lemma {:induction false} TerminalsWait(c: Callback, room: nat)
    requires WellFormed(c.q.entries) && TerminalsFirst(c)
    ensures TerminalsFirst(Drive(c, room))
    decreases room - |c.played|, |c.q.entries|
  {
    if !Stops(c, room) {
      var r := Turn(c, room);
      assert r.played[..|c.played|] == c.played;
      forall p | p in r.finished
        ensures p.after <= |r.played| && p.identity !in Ids(r.played[..p.after])
      {
        assert p.after <= |c.played| && r.played[..p.after] == c.played[..p.after];
        assert c.played[..|c.played|] == c.played;
      }
      TerminalsWait(r, room);
    }
  }

  function CountOf(s: seq<Tagged>, id: Identity): nat {
    if s == [] then 0 else CountOf(s[..|s| - 1], id) + if s[|s| - 1].identity == id then 1 else 0
  }

  lemma {:induction false} CountJoins(a: seq<Tagged>, b: seq<Tagged>, id: Identity)
    ensures CountOf(a + b, id) == CountOf(a, id) + CountOf(b, id)
  {
    if b == [] {
      assert a + b == a;
    } else {
      CountJoins(a, b[..|b| - 1], id);
      assert (a + b)[..|a + b| - 1] == a + b[..|b| - 1];
    }
  }

  lemma {:induction false} CountTag(id: Identity, samples: seq<Int16>, other: Identity)
    ensures CountOf(Tag(id, samples), other) == if id == other then |samples| else 0
  {
    if samples != [] {
      CountTag(id, samples[..|samples| - 1], other);
      assert Tag(id, samples)[..|samples| - 1] == Tag(id, samples[..|samples| - 1]);
    }
  }

  function Reported(finished: seq<Popped>, id: Identity): nat {
    if finished == [] then 0
    else Reported(finished[..|finished| - 1], id)
         + if finished[|finished| - 1].identity == id then finished[|finished| - 1].rendered else 0
  }

  function Accounted(c: Callback, id: Identity): nat {
    At(c.q.rendered, id) + Reported(c.finished, id)
  }

  lemma PlayedCount(played: seq<Tagged>, e: Entry, amount: nat, id: Identity)
    requires e.Audio? && amount <= |e.samples| - e.consumed
    ensures CountOf(played + Tag(e.identity, e.samples[e.consumed..e.consumed + amount]), id)
            == CountOf(played, id) + if e.identity == id then amount else 0
  {
    CountJoins(played, Tag(e.identity, e.samples[e.consumed..e.consumed + amount]), id);
    CountTag(e.identity, e.samples[e.consumed..e.consumed + amount], id);
  }

  lemma TurnAccounts(c: Callback, room: nat, id: Identity)
    requires WellFormed(c.q.entries) && !Stops(c, room)
    ensures var r := Turn(c, room);
      Accounted(r, id) + CountOf(c.played, id) == Accounted(c, id) + CountOf(r.played, id)
  {
    if c.q.entries[0].Audio? {
      PlayedCount(c.played, c.q.entries[0], Fit(c, room), id);
    } else {
      PopAccounts(c, id);
    }
  }

  lemma PopAccounts(c: Callback, id: Identity)
    requires c.q.entries != []
    ensures Accounted(PopTerminal(c), id) == Accounted(c, id)
  {
    var r := PopTerminal(c);
    assert r.finished[..|c.finished|] == c.finished;
  }

  /** What is on the running count plus what popped terminals carried is exactly what was consumed. */
  lemma {:induction false} RenderedCountsAreExact(c: Callback, room: nat, id: Identity)
    requires WellFormed(c.q.entries)
    ensures var r := Drive(c, room);
      Accounted(r, id) + CountOf(c.played, id) == Accounted(c, id) + CountOf(r.played, id)
    decreases room - |c.played|, |c.q.entries|
  {
    if !Stops(c, room) {
      TurnAccounts(c, room, id);
      RenderedCountsAreExact(Turn(c, room), room, id);
    }
  }

  // ---------- Audio and terminals in one line ----------

  datatype Item = Sound(tagged: Tagged) | End(identity: Identity)

  function Sounds(s: seq<Tagged>): (r: seq<Item>)
    ensures |r| == |s|
  {
    seq(|s|, i requires 0 <= i < |s| => Sound(s[i]))
  }

  function ItemsOf(e: Entry): seq<Item> {
    if e.Audio? then Sounds(Left(e)) else [End(e.identity)]
  }

  /** Everything that is queued: each sample still to be played and each terminal, in order. */
  function Items(entries: seq<Entry>): seq<Item> {
    if entries == [] then [] else ItemsOf(entries[0]) + Items(entries[1..])
  }

  lemma {:induction false} ItemsJoin(a: seq<Entry>, b: seq<Entry>)
    ensures Items(a + b) == Items(a) + Items(b)
  {
    if a == [] {
      assert a + b == b;
    } else {
      ItemsJoin(a[1..], b);
      HeadFirst(a, b);
      Associates(ItemsOf(a[0]), Items(a[1..]), Items(b));
    }
  }

  /** What a turn takes off the front of the line. */
  function TakenByTurn(c: Callback, room: nat): seq<Item>
    requires WellFormed(c.q.entries) && !Stops(c, room)
  {
    var e := c.q.entries[0];
    if e.Terminal? then [End(e.identity)]
    else Sounds(Tag(e.identity, e.samples[e.consumed..e.consumed + Fit(c, room)]))
  }

  function Taken(c: Callback, room: nat): seq<Item>
    requires WellFormed(c.q.entries)
    decreases room - |c.played|, |c.q.entries|
  {
    if Stops(c, room) then [] else TakenByTurn(c, room) + Taken(Turn(c, room), room)
  }

  lemma SoundsJoin(a: seq<Tagged>, b: seq<Tagged>)
    ensures Sounds(a + b) == Sounds(a) + Sounds(b)
  {
  }

  lemma AdvanceItems(entries: seq<Entry>, amount: nat)
    requires entries != [] && entries[0].Audio?
    requires amount <= |entries[0].samples| - entries[0].consumed
    ensures var e := entries[0];
      Items(entries) ==
        Sounds(Tag(e.identity, e.samples[e.consumed..e.consumed + amount])) + Items(Advance(entries, amount))
  {
    var e := entries[0];
    var front := Tag(e.identity, e.samples[e.consumed..e.consumed + amount]);
    var behind := Tag(e.identity, e.samples[e.consumed + amount..]);
    assert ItemsOf(e) == Sounds(front) + Sounds(behind) by {
      TagSplits(e.identity, e.samples, e.consumed, e.consumed + amount);
      SoundsJoin(front, behind);
    }
    AdvancedItems(entries, amount);
    Associates(Sounds(front), Sounds(behind), Items(entries[1..]));
  }

  lemma AdvancedItems(entries: seq<Entry>, amount: nat)
    requires entries != [] && entries[0].Audio?
    requires amount <= |entries[0].samples| - entries[0].consumed
    ensures var e := entries[0];
      Items(Advance(entries, amount)) ==
        Sounds(Tag(e.identity, e.samples[e.consumed + amount..])) + Items(entries[1..])
  {
    var e := entries[0];
    if e.consumed + amount == |e.samples| {
      assert Sounds(Tag(e.identity, e.samples[e.consumed + amount..])) == [];
      assert [] + Items(entries[1..]) == Items(entries[1..]);
    } else {
      assert Advance(entries, amount)[1..] == entries[1..];
    }
  }

  lemma ItemsPastTerminal(entries: seq<Entry>)
    requires entries != [] && entries[0].Terminal?
    ensures Items(entries) == [End(entries[0].identity)] + Items(entries[1..])
  {
  }

  lemma TurnTakesFront(c: Callback, room: nat)
    requires WellFormed(c.q.entries) && !Stops(c, room)
    ensures Items(c.q.entries) == TakenByTurn(c, room) + Items(Turn(c, room).q.entries)
  {
    if c.q.entries[0].Audio? {
      AdvanceItems(c.q.entries, Fit(c, room));
      AudioTurn(c, room);
    } else {
      ItemsPastTerminal(c.q.entries);
    }
  }

  lemma {:induction false} DriveTakesFront(c: Callback, room: nat)
    requires WellFormed(c.q.entries)
    ensures Items(c.q.entries) == Taken(c, room) + Items(Drive(c, room).q.entries)
    decreases room - |c.played|, |c.q.entries|
  {
    if Stops(c, room) {
      assert [] + Items(c.q.entries) == Items(c.q.entries);
    } else {
      var r := Turn(c, room);
      TurnTakesFront(c, room);
      DriveTakesFront(r, room);
      Associates(TakenByTurn(c, room), Taken(r, room), Items(Drive(r, room).q.entries));
    }
  }

  function SoundsIn(items: seq<Item>): seq<Tagged> {
    if items == [] then [] else (if items[0].Sound? then [items[0].tagged] else []) + SoundsIn(items[1..])
  }

  function EndsIn(items: seq<Item>): seq<Identity> {
    if items == [] then [] else (if items[0].End? then [items[0].identity] else []) + EndsIn(items[1..])
  }

  lemma {:induction false} ProjectionsJoin(a: seq<Item>, b: seq<Item>)
    ensures SoundsIn(a + b) == SoundsIn(a) + SoundsIn(b) && EndsIn(a + b) == EndsIn(a) + EndsIn(b)
  {
    if a == [] {
      assert a + b == b;
    } else {
      ProjectionsJoin(a[1..], b);
      HeadFirst(a, b);
      Associates(if a[0].Sound? then [a[0].tagged] else [], SoundsIn(a[1..]), SoundsIn(b));
      Associates(if a[0].End? then [a[0].identity] else [], EndsIn(a[1..]), EndsIn(b));
    }
  }

  lemma {:induction false} SoundsOnly(s: seq<Tagged>)
    ensures SoundsIn(Sounds(s)) == s && EndsIn(Sounds(s)) == []
  {
    if s != [] {
      SoundsOnly(s[1..]);
      assert Sounds(s)[1..] == Sounds(s[1..]);
    }
  }

  function PoppedIds(finished: seq<Popped>): (r: seq<Identity>)
    ensures |r| == |finished|
  {
    seq(|finished|, i requires 0 <= i < |finished| => finished[i].identity)
  }

  lemma TurnRecords(c: Callback, room: nat)
    requires WellFormed(c.q.entries) && !Stops(c, room)
    ensures Turn(c, room).played == c.played + SoundsIn(TakenByTurn(c, room))
    ensures PoppedIds(Turn(c, room).finished) == PoppedIds(c.finished) + EndsIn(TakenByTurn(c, room))
  {
    var e := c.q.entries[0];
    if e.Audio? {
      SoundsOnly(Tag(e.identity, e.samples[e.consumed..e.consumed + Fit(c, room)]));
      assert PoppedIds(c.finished) + [] == PoppedIds(c.finished);
    } else {
      assert [End(e.identity)][1..] == [] && c.played + [] == c.played;
    }
  }

  lemma {:induction false} DriveRecords(c: Callback, room: nat)
    requires WellFormed(c.q.entries)
    ensures Drive(c, room).played == c.played + SoundsIn(Taken(c, room))
    ensures PoppedIds(Drive(c, room).finished) == PoppedIds(c.finished) + EndsIn(Taken(c, room))
    decreases room - |c.played|, |c.q.entries|
  {
    if Stops(c, room) {
      assert c.played + [] == c.played && PoppedIds(c.finished) + [] == PoppedIds(c.finished);
    } else {
      var r := Turn(c, room);
      TurnRecords(c, room);
      DriveRecords(r, room);
      ProjectionsJoin(TakenByTurn(c, room), Taken(r, room));
      Associates(c.played, SoundsIn(TakenByTurn(c, room)), SoundsIn(Taken(r, room)));
      Associates(PoppedIds(c.finished), EndsIn(TakenByTurn(c, room)), EndsIn(Taken(r, room)));
    }
  }

  /**
   * A callback takes the front of the line, samples and terminals alike, and leaves the rest: so a
   * terminal is popped only when everything queued before it has been played or popped.
   */
  lemma RenderTakesFront(q: Queue, room: nat)
    requires WellFormed(q.entries)
    ensures var start := Callback(q, [], [], []);
      var c := Render(q, room).0;
      && Items(q.entries) == Taken(start, room) + Items(c.q.entries)
      && SoundsIn(Taken(start, room)) == c.played
      && EndsIn(Taken(start, room)) == PoppedIds(c.finished)
  {
    var start := Callback(q, [], [], []);
    var c := Drive(start, room);
    DriveTakesFront(start, room);
    DriveRecords(start, room);
    ReportKeepsQueue(c.q, c.finished);
  }

  // ---------- Muting ----------

  function Muted(c: Callback, muted: bool): Callback {
    c.(q := c.q.(muted := muted))
  }

  lemma PopIgnoresMute(c: Callback, muted: bool)
    requires c.q.entries != []
    ensures PopTerminal(Muted(c, muted)) == Muted(PopTerminal(c), muted)
  {
  }

  lemma PlaySomeIgnoresMute(c: Callback, amount: nat, muted: bool)
    requires c.q.entries != [] && c.q.entries[0].Audio?
    requires 0 < amount <= |c.q.entries[0].samples| - c.q.entries[0].consumed
    ensures PlaySome(Muted(c, muted), amount) == Muted(PlaySome(c, amount), muted)
  {
  }

  lemma TurnIgnoresMute(c: Callback, room: nat, muted: bool)
    requires WellFormed(c.q.entries) && !Stops(c, room)
    ensures !Stops(Muted(c, muted), room) && Turn(Muted(c, muted), room) == Muted(Turn(c, room), muted)
  {
    if c.q.entries[0].Terminal? {
      PopIgnoresMute(c, muted);
    } else {
      PlaySomeIgnoresMute(c, Fit(c, room), muted);
    }
  }

  lemma {:induction false} DriveIgnoresMute(c: Callback, room: nat, muted: bool)
    requires WellFormed(c.q.entries)
    ensures Drive(Muted(c, muted), room) == Muted(Drive(c, room), muted)
    decreases room - |c.played|, |c.q.entries|
  {
    if !Stops(c, room) {
      TurnIgnoresMute(c, room, muted);
      DriveIgnoresMute(Turn(c, room), room, muted);
    }
  }

  lemma {:induction false} ReportIgnoresMute(q: Queue, finished: seq<Popped>, muted: bool)
    ensures Report(q.(muted := muted), finished) == (Report(q, finished).0.(muted := muted), Report(q, finished).1)
    decreases |finished|
  {
    if finished != [] {
      var id := finished[0].identity;
      ReportIgnoresMute(q, finished[1..], muted);
      ReportIgnoresMute(q.(telemetry := q.telemetry - {id}, telemetryOrder := Without(q.telemetryOrder, id)),
                        finished[1..], muted);
    }
  }

  /** Muting only silences: a muted callback plays, starts, counts and finishes exactly what it would aloud. */
  lemma MutingOnlySilences(q: Queue, room: nat, muted: bool)
    requires WellFormed(q.entries)
    ensures Render(q.(muted := muted), room) == (Muted(Render(q, room).0, muted), Render(q, room).1)
  {
    var c := Callback(q, [], [], []);
    DriveIgnoresMute(c, room, muted);
    ReportIgnoresMute(Drive(c, room).q, Drive(c, room).finished, muted);
  }
}
