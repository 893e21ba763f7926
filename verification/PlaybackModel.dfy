/** The playback queue as a value, one function per operation. */
module PlaybackModel {
  import opened Common
  import opened NearSilence

  const MAX_COMPLETED_PLAYBACK := 32

  datatype Identity = Identity(utteranceId: string, generationEpoch: int)

  datatype Entry =
    | Audio(identity: Identity, samples: seq<Int16>, consumed: nat)
    | Terminal(identity: Identity)

  datatype Tagged = Tagged(identity: Identity, sample: Int16)

  datatype Counters = Counters(queuedSamples: nat, quiet: Tracker)

  datatype Queue = Queue(
    entries: seq<Entry>,
    started: set<Identity>,
    rendered: map<Identity, nat>,
    completed: map<Identity, nat>,
    completedOrder: seq<Identity>,
    muted: bool,
    telemetry: map<Identity, Counters>,
    telemetryOrder: seq<Identity>)

  const Empty := Queue([], {}, map[], map[], [], false, map[], [])

  predicate WellFormed(entries: seq<Entry>) {
    forall e | e in entries && e.Audio? :: e.consumed < |e.samples|
  }

  function At(m: map<Identity, nat>, id: Identity): nat {
    if id in m then m[id] else 0
  }

  function Without(order: seq<Identity>, id: Identity): seq<Identity> {
    if order == [] then []
    else (if order[0] == id then [] else [order[0]]) + Without(order[1..], id)
  }

  /** Keys leave a table oldest first until at most 32 are left. */
  function Trim<V>(table: map<Identity, V>, order: seq<Identity>): (map<Identity, V>, seq<Identity>) {
    if |order| <= MAX_COMPLETED_PLAYBACK then (table, order) else Trim(table - {order[0]}, order[1..])
  }

  // ---------- Append, terminal, clear ----------

  function Append(q: Queue, samples: seq<Int16>, id: Identity): Queue {
    if samples == [] then q
    else
      var known := if id in q.telemetry then q.telemetry else q.telemetry[id := Counters(0, Reset)];
      var (table, order) := Trim(known, Without(q.telemetryOrder, id) + [id]);
      q.(telemetry := if id in table then table[id := Counted(table[id], samples)] else table,
         telemetryOrder := order,
         completed := q.completed - {id},
         completedOrder := Without(q.completedOrder, id),
         entries := q.entries + [Audio(id, samples, 0)])
  }

  function Counted(c: Counters, samples: seq<Int16>): Counters {
    Counters(c.queuedSamples + |samples|, Track(c.quiet, Longest(samples), samples))
  }

  function Finish(q: Queue, id: Identity): Queue {
    q.(entries := q.entries + [Terminal(id)])
  }

  function EntriesWithout(entries: seq<Entry>, id: Identity): seq<Entry> {
    if entries == [] then []
    else (if entries[0].identity == id then [] else [entries[0]]) + EntriesWithout(entries[1..], id)
  }

  function ClearOne(q: Queue, id: Identity): (Queue, nat) {
    (q.(entries := EntriesWithout(q.entries, id),
        started := q.started - {id},
        rendered := q.rendered - {id},
        completed := q.completed - {id},
        completedOrder := Without(q.completedOrder, id),
        telemetry := q.telemetry - {id},
        telemetryOrder := Without(q.telemetryOrder, id)),
     Max(At(q.rendered, id), At(q.completed, id)))
  }

  function ClearAll(q: Queue): Queue {
    Empty.(muted := q.muted)
  }

  /** What a telemetry sample reports of one generation. */
  datatype Snapshot = Snapshot(identity: Identity, queuedSamples: nat, nearSilenceMax: nat)

  function SnapshotOf(id: Identity, c: Counters): Snapshot {
    Snapshot(id, c.queuedSamples, c.quiet.peak)
  }

  /** A telemetry sample starts a new window for every live generation. */
  function TakeSnapshots(q: Queue): Queue {
    q.(telemetry := map id | id in q.telemetry :: q.telemetry[id].(quiet := Reset))
  }

  // ---------- One render callback ----------

  /** A terminal popped with the samples rendered for it, once the callback had consumed `after` samples. */
  datatype Popped = Popped(identity: Identity, rendered: nat, after: nat)

  /** `played` is the audio consumed so far, `started` the identities announced, `finished` the terminals popped. */
  datatype Callback = Callback(
    q: Queue,
    played: seq<Tagged>,
    started: seq<Identity>,
    finished: seq<Popped>)

  function Ids(played: seq<Tagged>): set<Identity> {
    set t | t in played :: t.identity
  }

  predicate Stops(c: Callback, room: nat) {
    || |c.played| >= room
    || c.q.entries == []
    || (c.q.entries[0].Terminal? && c.q.entries[0].identity in Ids(c.played))
  }

  function Tag(id: Identity, samples: seq<Int16>): (r: seq<Tagged>)
    ensures |r| == |samples|
  {
    seq(|samples|, i requires 0 <= i < |samples| => Tagged(id, samples[i]))
  }

  function PopTerminal(c: Callback): Callback
    requires c.q.entries != []
  {
    var id := c.q.entries[0].identity;
    var count := At(c.q.rendered, id);
    var (table, order) := Trim(c.q.completed[id := count], Without(c.q.completedOrder, id) + [id]);
    c.(q := c.q.(entries := c.q.entries[1..], started := c.q.started - {id}, rendered := c.q.rendered - {id},
                 completed := table, completedOrder := order),
       finished := c.finished + [Popped(id, count, |c.played|)])
  }

  /** The head entry after `amount` more of its samples. */
  function Advance(entries: seq<Entry>, amount: nat): seq<Entry>
    requires entries != [] && entries[0].Audio?
  {
    var Audio(id, samples, consumed) := entries[0];
    if consumed + amount == |samples| then entries[1..] else [Audio(id, samples, consumed + amount)] + entries[1..]
  }

  function PlaySome(c: Callback, amount: nat): Callback
    requires c.q.entries != [] && c.q.entries[0].Audio?
    requires 0 < amount <= |c.q.entries[0].samples| - c.q.entries[0].consumed
  {
    var Audio(id, samples, consumed) := c.q.entries[0];
    Callback(
      c.q.(entries := Advance(c.q.entries, amount), started := c.q.started + {id},
           rendered := c.q.rendered[id := At(c.q.rendered, id) + amount],
           telemetry := if id in c.q.telemetry
                        then c.q.telemetry[id := Drained(c.q.telemetry[id], amount)] else c.q.telemetry),
      c.played + Tag(id, samples[consumed..consumed + amount]),
      if id in c.q.started then c.started else c.started + [id],
      c.finished)
  }

  function Drained(c: Counters, amount: nat): Counters {
    c.(queuedSamples := if c.queuedSamples >= amount then c.queuedSamples - amount else 0)
  }

  /** How much of the head audio still fits. */
  function Fit(c: Callback, room: nat): nat
    requires c.q.entries != [] && c.q.entries[0].Audio? && c.q.entries[0].consumed <= |c.q.entries[0].samples|
    requires |c.played| <= room
  {
    var left := |c.q.entries[0].samples| - c.q.entries[0].consumed;
    if room - |c.played| <= left then room - |c.played| else left
  }

  function Turn(c: Callback, room: nat): (r: Callback)
    requires WellFormed(c.q.entries) && !Stops(c, room)
    ensures WellFormed(r.q.entries)
    ensures |c.played| < |r.played| <= room || (r.played == c.played && |r.q.entries| < |c.q.entries|)
  {
    if c.q.entries[0].Terminal? then PopTerminal(c) else PlaySome(c, Fit(c, room))
  }

  function Drive(c: Callback, room: nat): (r: Callback)
    requires WellFormed(c.q.entries)
    ensures WellFormed(r.q.entries) && Stops(r, room)
    decreases room - |c.played|, |c.q.entries|
  {
    if Stops(c, room) then c else Drive(Turn(c, room), room)
  }

  /** A finished generation whose counters are still known reports them once and gives them up. */
  function Report(q: Queue, finished: seq<Popped>): (Queue, seq<Popped>)
    decreases |finished|
  {
    if finished == [] then (q, [])
    else
      var id := finished[0].identity;
      if id in q.telemetry then
        var (r, done) := Report(q.(telemetry := q.telemetry - {id}, telemetryOrder := Without(q.telemetryOrder, id)),
                                finished[1..]);
        (r, [finished[0]] + done)
      else Report(q, finished[1..])
  }

  function Render(q: Queue, room: nat): (Callback, seq<Popped>)
    requires WellFormed(q.entries)
  {
    var c := Drive(Callback(q, [], [], []), room);
    var (r, done) := Report(c.q, c.finished);
    (c.(q := r), done)
  }

  /** What a callback writes: the consumed samples, or silence for them when muted, then silence. */
  function Output(played: seq<Tagged>, muted: bool, room: nat): seq<Int16>
    requires |played| <= room
  {
    seq(room, i requires 0 <= i < room => if i < |played| && !muted then played[i].sample else 0)
  }

  lemma PlaySomeIds(c: Callback, amount: nat)
    requires c.q.entries != [] && c.q.entries[0].Audio?
    requires 0 < amount <= |c.q.entries[0].samples| - c.q.entries[0].consumed
    ensures Ids(PlaySome(c, amount).played) == Ids(c.played) + {c.q.entries[0].identity}
  {
    var e := c.q.entries[0];
    var more := Tag(e.identity, e.samples[e.consumed..e.consumed + amount]);
    assert more[0].identity == e.identity && more[0] in more;
    assert forall t | t in more :: t.identity == e.identity;
  }

  lemma AudioTurn(c: Callback, room: nat)
    requires WellFormed(c.q.entries) && !Stops(c, room) && c.q.entries[0].Audio?
    ensures Turn(c, room) == PlaySome(c, Fit(c, room))
    ensures Turn(c, room) == Callback(
      PlaySome(c, Fit(c, room)).q, Turn(c, room).played,
      if c.q.entries[0].identity in c.q.started then c.started else c.started + [c.q.entries[0].identity], c.finished)
    ensures |Turn(c, room).played| == |c.played| + Fit(c, room)
    ensures Ids(Turn(c, room).played) == Ids(c.played) + {c.q.entries[0].identity}
  {
    PlaySomeIds(c, Fit(c, room));
  }

  lemma OutputGrows(played: seq<Tagged>, id: Identity, more: seq<Int16>, muted: bool, room: nat)
    requires |played| + |more| <= room
    ensures Output(played + Tag(id, more), muted, room) ==
            if muted then Output(played, muted, room)
            else Output(played, muted, room)[..|played|] + more + Output(played, muted, room)[|played| + |more|..]
  {
  }
}
