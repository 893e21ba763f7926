/** Which starts and which completions a render callback signals. */
module PlaybackSignals {
  import opened Common
  import opened NearSilence
  import opened PlaybackModel
  import opened PlaybackRuns

  /** Where an identity comes first, or the length of the list. */
  function FirstOf(ids: seq<Identity>, id: Identity): (n: nat)
    ensures n <= |ids| && (n < |ids| <==> id in ids) && (n < |ids| ==> ids[n] == id)
  {
    if ids == [] || ids[0] == id then 0 else 1 + FirstOf(ids[1..], id)
  }

  lemma {:induction false} FirstStays(a: seq<Identity>, b: seq<Identity>, id: Identity)
    ensures id in a ==> FirstOf(a + b, id) == FirstOf(a, id)
    ensures id !in a ==> FirstOf(a + b, id) == |a| + FirstOf(b, id)
  {
    if a == [] {
      assert a + b == b;
    } else {
      HeadFirst(a, b);
      FirstStays(a[1..], b, id);
    }
  }

  // ---------- Completions ----------

  /**
   * Of the terminals that were popped, exactly those whose generation is known are reported: each generation
   * once, in the order of the pops, with the count it was popped with.
   */
  ghost predicate Reports(finished: seq<Popped>, known: set<Identity>, done: seq<Popped>) {
    && (forall id :: id in PoppedIds(done) <==> id in PoppedIds(finished) && id in known)
    && (forall i {:trigger done[i]} | 0 <= i < |done| ::
          var n := FirstOf(PoppedIds(finished), done[i].identity);
          n < |finished| && done[i] == finished[n])
    && (forall i, j {:trigger done[i], done[j]} | 0 <= i < j < |done| ::
          FirstOf(PoppedIds(finished), done[i].identity) < FirstOf(PoppedIds(finished), done[j].identity))
  }

  lemma PoppedFirst(finished: seq<Popped>)
    requires finished != []
    ensures PoppedIds(finished)[0] == finished[0].identity && PoppedIds(finished)[1..] == PoppedIds(finished[1..])
  {
  }

  /** A generation that is not known, or was just reported, is passed over. */
  lemma ReportsLater(finished: seq<Popped>, known: set<Identity>, done: seq<Popped>)
    requires finished != [] && finished[0].identity !in known && Reports(finished[1..], known, done)
    ensures Reports(finished, known, done)
  {
    PoppedFirst(finished);
    forall i | 0 <= i < |done|
      ensures FirstOf(PoppedIds(finished), done[i].identity) == 1 + FirstOf(PoppedIds(finished[1..]), done[i].identity)
    {
      assert PoppedIds(done)[i] == done[i].identity;
    }
    IdsAfter(finished);
  }

  lemma IdsAfter(finished: seq<Popped>)
    requires finished != []
    ensures forall id :: id in PoppedIds(finished) <==> id == finished[0].identity || id in PoppedIds(finished[1..])
  {
    PoppedFirst(finished);
    assert PoppedIds(finished) == [finished[0].identity] + PoppedIds(finished[1..]);
  }

  lemma ReportsFirst(finished: seq<Popped>, known: set<Identity>, done: seq<Popped>)
    requires finished != [] && finished[0].identity in known
    requires Reports(finished[1..], known - {finished[0].identity}, done)
    ensures Reports(finished, known, [finished[0]] + done)
  {
    var all := [finished[0]] + done;
    PoppedFirst(finished);
    IdsAfter(finished);
    IdsAfter(all);
    assert all[1..] == done;
    forall i | 0 <= i < |done|
      ensures FirstOf(PoppedIds(finished), done[i].identity) == 1 + FirstOf(PoppedIds(finished[1..]), done[i].identity)
    {
      assert PoppedIds(done)[i] == done[i].identity;
    }
  }

  /** What a callback reports, and that exactly the generations whose terminals it popped leave the counters. */
  lemma {:induction false} ReportMeans(q: Queue, finished: seq<Popped>)
    ensures Reports(finished, q.telemetry.Keys, Report(q, finished).1)
    ensures forall id :: id in Report(q, finished).0.telemetry <==> id in q.telemetry && id !in PoppedIds(finished)
    decreases |finished|
  {
    if finished != [] {
      var id := finished[0].identity;
      IdsAfter(finished);
      if id in q.telemetry {
        var r := q.(telemetry := q.telemetry - {id}, telemetryOrder := Without(q.telemetryOrder, id));
        ReportMeans(r, finished[1..]);
        assert r.telemetry.Keys == q.telemetry.Keys - {id};
        ReportsFirst(finished, q.telemetry.Keys, Report(r, finished[1..]).1);
      } else {
        ReportMeans(q, finished[1..]);
        ReportsLater(finished, q.telemetry.Keys, Report(q, finished[1..]).1);
      }
    }
  }

  lemma {:induction false} DriveKeepsKnown(c: Callback, room: nat)
    requires WellFormed(c.q.entries)
    ensures Drive(c, room).q.telemetry.Keys == c.q.telemetry.Keys
    decreases room - |c.played|, |c.q.entries|
  {
    if !Stops(c, room) {
      assert Turn(c, room).q.telemetry.Keys == c.q.telemetry.Keys;
      DriveKeepsKnown(Turn(c, room), room);
    }
  }

  lemma {:induction false} EndsAreIn(items: seq<Item>, id: Identity)
    ensures End(id) in items <==> id in EndsIn(items)
  {
    if items != [] {
      EndsAreIn(items[1..], id);
      assert items == [items[0]] + items[1..];
    }
  }

  /** A generation is done in a callback if and only if the callback takes its terminal and its counters are known. */
  lemma RenderReports(q: Queue, room: nat)
    requires WellFormed(q.entries)
    ensures var (c, done) := Render(q, room);
      && Reports(c.finished, q.telemetry.Keys, done)
      && (forall id :: id in c.q.telemetry <==> id in q.telemetry && id !in PoppedIds(c.finished))
      && forall id :: id in PoppedIds(c.finished) <==> End(id) in Taken(Callback(q, [], [], []), room)
  {
    var start := Callback(q, [], [], []);
    var c := Drive(start, room);
    DriveKeepsKnown(start, room);
    ReportMeans(c.q, c.finished);
    RenderTakesFront(q, room);
    forall id
      ensures id in PoppedIds(c.finished) <==> End(id) in Taken(start, room)
    {
      EndsAreIn(Taken(start, room), id);
    }
  }

  // ---------- Starts ----------

  function PlayedIds(played: seq<Tagged>): (r: seq<Identity>)
    ensures |r| == |played| && forall i | 0 <= i < |r| :: r[i] == played[i].identity
  {
    seq(|played|, i requires 0 <= i < |played| => played[i].identity)
  }

  /** The identities that are announced, in the order in which they first play in this callback. */
  ghost predicate Announced(before: set<Identity>, c: Callback) {
    && (forall id :: id in c.started <==> id in Ids(c.played) && (id !in before || id in PoppedIds(c.finished)))
    && (forall i, j {:trigger c.started[i], c.started[j]} | 0 <= i < j < |c.started| ::
          FirstOf(PlayedIds(c.played), c.started[i]) < FirstOf(PlayedIds(c.played), c.started[j]))
  }

  /** What is remembered as started: what plays in this callback, and what was started before and has not ended. */
  ghost predicate Remembered(before: set<Identity>, c: Callback) {
    forall id :: id in c.q.started <==> id in Ids(c.played) || (id in before && id !in PoppedIds(c.finished))
  }

  lemma IdsArePlayed(played: seq<Tagged>, id: Identity)
    ensures id in Ids(played) <==> id in PlayedIds(played)
  {
    if id in Ids(played) {
      var t :| t in played && t.identity == id;
      var i :| 0 <= i < |played| && played[i] == t;
      assert PlayedIds(played)[i] == id;
    }
    if id in PlayedIds(played) {
      var i :| 0 <= i < |played| && PlayedIds(played)[i] == id;
      assert played[i] in played;
    }
  }

  lemma PopAnnounces(before: set<Identity>, c: Callback)
    requires c.q.entries != [] && c.q.entries[0].identity !in Ids(c.played)
    requires Announced(before, c) && Remembered(before, c)
    ensures Announced(before, PopTerminal(c)) && Remembered(before, PopTerminal(c))
  {
    var r, id := PopTerminal(c), c.q.entries[0].identity;
    assert PoppedIds(r.finished) == PoppedIds(c.finished) + [id];
  }

  lemma PlayAnnounces(before: set<Identity>, c: Callback, amount: nat)
    requires c.q.entries != [] && c.q.entries[0].Audio?
    requires 0 < amount <= |c.q.entries[0].samples| - c.q.entries[0].consumed
    requires Announced(before, c) && Remembered(before, c)
    ensures Announced(before, PlaySome(c, amount)) && Remembered(before, PlaySome(c, amount))
  {
    var r, e := PlaySome(c, amount), c.q.entries[0];
    var more := Tag(e.identity, e.samples[e.consumed..e.consumed + amount]);
    PlaySomeIds(c, amount);
    assert PlayedIds(r.played) == PlayedIds(c.played) + PlayedIds(more);
    forall i | 0 <= i < |c.started|
      ensures FirstOf(PlayedIds(r.played), c.started[i]) == FirstOf(PlayedIds(c.played), c.started[i]) < |c.played|
    {
      assert c.started[i] in c.started;
      IdsArePlayed(c.played, c.started[i]);
      FirstStays(PlayedIds(c.played), PlayedIds(more), c.started[i]);
    }
    if e.identity !in c.q.started {
      IdsArePlayed(c.played, e.identity);
      FirstStays(PlayedIds(c.played), PlayedIds(more), e.identity);
    }
  }

  lemma {:induction false} DriveAnnounces(before: set<Identity>, c: Callback, room: nat)
    requires WellFormed(c.q.entries) && Announced(before, c) && Remembered(before, c)
    ensures Announced(before, Drive(c, room)) && Remembered(before, Drive(c, room))
    decreases room - |c.played|, |c.q.entries|
  {
    if !Stops(c, room) {
      if c.q.entries[0].Terminal? {
        PopAnnounces(before, c);
      } else {
        PlayAnnounces(before, c, Fit(c, room));
      }
      DriveAnnounces(before, Turn(c, room), room);
    }
  }

  /**
   * A start is signalled for exactly the identities that play in a callback and were not started yet, or had
   * ended earlier in it: each once, in the order in which they begin to play.
   */
  lemma RenderAnnounces(q: Queue, room: nat)
    requires WellFormed(q.entries)
    ensures Announced(q.started, Render(q, room).0) && Remembered(q.started, Render(q, room).0)
  {
    var start := Callback(q, [], [], []);
    assert Ids(start.played) == {};
    DriveAnnounces(q.started, start, room);
    var c := Drive(start, room);
    ReportKeepsQueue(c.q, c.finished);
  }
}
