/**
 * The executor permission FIFO as one value: a line of entries whose first element is the
 * voice-visible head. There is no separate deadline object and no timer here; the classes in
 * HostApproval keep those two in step with this line and refine every operation below.
 */
module ApprovalFifo {
  import opened Common

  const APPROVAL_TTL_SECONDS: real := 60.0
  const APPROVAL_ID_LIMIT := 128

  datatype Decision = Accept | AcceptForSession | Decline
  datatype Hold = Project | Background

  /** An accepted entry owns exactly one resolution object, so its serial is that object's identity. */
  datatype Resolution = Resolution(owner: Option<nat>, decision: Decision)

  datatype Phase = Pending | Responding(decision: Decision)

  /** `serial` is the identity of the entry object: its place in the order of admitted offers. */
  datatype Entry = Entry(
    serial: nat,
    id: string,
    work: Option<string>,
    allowedDecisions: Option<set<Decision>>,
    signal: nat,
    expiresAt: real,
    held: bool,
    awaitingPresentation: bool,
    phase: Phase)
  {
    function Allowed(): set<Decision> {
      if allowedDecisions.Some? then allowedDecisions.value else {Accept, Decline}
    }

    predicate Expired(now: real) {
      phase.Pending? && !held && now >= expiresAt
    }
  }

  /** One call of an entry's `resolve` (in `settled`) or one spent resolution (in `spent`). */
  datatype Settlement = Settlement(serial: nat, decision: Decision)

  datatype Fifo = Fifo(
    now: real,
    capacity: nat,
    entries: seq<Entry>,
    holds: set<Hold>,
    nextSerial: nat,
    aborted: set<nat>,
    settled: seq<Settlement>,
    spent: seq<Settlement>)
  {
    predicate HeadPending() {
      entries != [] && entries[0].phase.Pending?
    }
  }

  function Init(now: real, capacity: nat): Fifo {
    Fifo(now, capacity, [], {}, 0, {}, [], [])
  }

  // ---------- Operations ----------

  predicate ValidId(id: string) {
    id != "" && |id| <= APPROVAL_ID_LIMIT
  }

  predicate HasWork(entries: seq<Entry>, work: Option<string>) {
    work.Some? && exists e | e in entries :: e.work == work
  }

  /** The TTL starts when an entry becomes head; holds and the presentation gate park it at once. */
  function Armed(e: Entry, now: real, holds: set<Hold>): Entry {
    e.(expiresAt := now + APPROVAL_TTL_SECONDS, held := holds != {} || e.awaitingPresentation)
  }

  function ArmHead(entries: seq<Entry>, now: real, holds: set<Hold>): seq<Entry> {
    if entries == [] then [] else [Armed(entries[0], now, holds)] + entries[1..]
  }

  /** Entry `i` leaves the line; a leaving head takes the project hold with it and promotes the next. */
  function Remove(f: Fifo, i: nat): Fifo
    requires i < |f.entries|
  {
    var rest := f.entries[..i] + f.entries[i + 1..];
    if i == 0 then
      var holds := f.holds - {Project};
      f.(entries := ArmHead(rest, f.now, holds), holds := holds)
    else
      f.(entries := rest)
  }

  /** Removal that declines the entry when nothing has settled it yet. */
  function Drop(f: Fifo, i: nat): Fifo
    requires i < |f.entries|
  {
    var e := f.entries[i];
    var g := Remove(f, i);
    if e.phase.Pending? then g.(settled := g.settled + [Settlement(e.serial, Decline)]) else g
  }

  datatype Outcome = Aborted | Refused | InvalidId | Admitted(serial: nat)

  /** A new entry joins at the back; one that finds the line empty is promoted on the spot. */
  function Enqueue(f: Fifo, e: Entry): Fifo {
    f.(entries := f.entries + [if f.entries == [] then Armed(e, f.now, f.holds) else e], nextSerial := e.serial + 1)
  }

  function Offer(f: Fifo, id: string, work: Option<string>, allowed: Option<set<Decision>>,
                 signal: nat): (Fifo, Outcome)
  {
    if signal in f.aborted then (f, Aborted)
    else if |f.entries| >= f.capacity || HasWork(f.entries, work) then (f, Refused)
    else if !ValidId(id) then (f, InvalidId)
    else
      var e := Entry(f.nextSerial, id, work, allowed, signal, 0.0, false, Background in f.holds, Pending);
      (Enqueue(f, e), Admitted(e.serial))
  }

  predicate Decides(f: Fifo, id: string, decision: Decision) {
    && f.HeadPending()
    && f.entries[0].id == id
    && decision in f.entries[0].Allowed()
    && !f.entries[0].Expired(f.now)
    && f.entries[0].signal !in f.aborted
  }

  function AcceptDecision(f: Fifo, id: string, decision: Decision): (Fifo, bool) {
    if !f.HeadPending() || f.entries[0].id != id || decision !in f.entries[0].Allowed() then (f, false)
    else if f.entries[0].Expired(f.now) || f.entries[0].signal in f.aborted then (Drop(f, 0), false)
    else
      (f.(entries := f.entries[0 := f.entries[0].(phase := Responding(decision))],
          settled := f.settled + [Settlement(f.entries[0].serial, decision)]), true)
  }

  predicate Spendable(f: Fifo, r: Resolution) {
    && f.entries != []
    && f.entries[0].phase.Responding?
    && r == Resolution(Some(f.entries[0].serial), f.entries[0].phase.decision)
    && f.entries[0].signal !in f.aborted
  }

  function Consume(f: Fifo, r: Resolution): (Fifo, Decision) {
    if !Spendable(f, r) then (f, Decline)
    else (Remove(f, 0).(spent := f.spent + [Settlement(f.entries[0].serial, r.decision)]), r.decision)
  }

  /** The reason is in force from now on; a background hold also gates every entry in line. */
  function Park(f: Fifo, reason: Hold): Fifo {
    var gated := if reason == Background then Gate(f.entries) else f.entries;
    f.(holds := f.holds + {reason},
       entries := if f.HeadPending() then gated[0 := gated[0].(held := true)] else gated)
  }

  /** A hold that finds its head already expired drops it first and then parks the next one. */
  function HoldLine(f: Fifo, reason: Hold): (Fifo, bool) {
    if reason in f.holds || (f.entries == [] && reason == Project) then (f, false)
    else
      var g := Expire(f);
      if g.entries == [] && reason == Project then (g, false) else (Park(g, reason), true)
  }

  function Gate(entries: seq<Entry>): (r: seq<Entry>)
    ensures |r| == |entries|
    ensures forall i | 0 <= i < |entries| :: r[i] == entries[i].(awaitingPresentation := true)
  {
    seq(|entries|, i requires 0 <= i < |entries| => entries[i].(awaitingPresentation := true))
  }

  function ReleaseLine(f: Fifo, reason: Hold, awaitPresentation: bool): (Fifo, bool) {
    if reason !in f.holds && !(reason == Background && f.entries != [] && f.entries[0].awaitingPresentation)
    then (f, false)
    else
      var g := f.(holds := f.holds - {reason});
      if g.entries == [] then (g, true)
      else
        var shown := if reason == Background && !awaitPresentation
                     then g.entries[0].(awaitingPresentation := false) else g.entries[0];
        var head := if g.holds == {} && shown.phase.Pending? && shown.held && !shown.awaitingPresentation
                    then shown.(held := false, expiresAt := g.now + APPROVAL_TTL_SECONDS) else shown;
        (g.(entries := g.entries[0 := head]), true)
  }

  function Invalidate(f: Fifo): (Fifo, bool) {
    if f.entries == [] then (f, false) else (Drop(f, 0), true)
  }

  /** Where the entry of this work stands, or the length of the line. */
  function WorkIndex(entries: seq<Entry>, work: string): (i: nat)
    ensures i <= |entries|
    ensures i < |entries| ==> entries[i].work == Some(work)
    ensures forall j | 0 <= j < i :: entries[j].work != Some(work)
  {
    if entries == [] || entries[0].work == Some(work) then 0 else 1 + WorkIndex(entries[1..], work)
  }

  /** Drop every entry of this work, in line order. */
  function DropOwned(f: Fifo, work: string): Fifo
    decreases |f.entries|
  {
    var i := WorkIndex(f.entries, work);
    if i < |f.entries| then DropOwned(Drop(f, i), work) else f
  }

  function InvalidateWork(f: Fifo, work: string): (Fifo, bool) {
    (DropOwned(f, work), WorkIndex(f.entries, work) < |f.entries|)
  }

  function SerialIndex(entries: seq<Entry>, serial: nat): (i: nat)
    ensures i <= |entries|
    ensures i < |entries| ==> entries[i].serial == serial
    ensures forall j | 0 <= j < i :: entries[j].serial != serial
  {
    if entries == [] || entries[0].serial == serial then 0 else 1 + SerialIndex(entries[1..], serial)
  }

  /** The abort listener of one entry runs; other listeners of the signal may have run before it. */
  function AbortListener(f: Fifo, serial: nat): Fifo {
    var i := SerialIndex(f.entries, serial);
    if i < |f.entries| && f.entries[i].signal in f.aborted then Drop(f, i) else f
  }

  function Expire(f: Fifo): Fifo {
    if f.entries != [] && f.entries[0].Expired(f.now) then Drop(f, 0) else f
  }

  // ---------- Runs ----------

  datatype Op =
    | OfferOp(id: string, work: Option<string>, allowed: Option<set<Decision>>, signal: nat)
    | AcceptOp(id: string, decision: Decision)
    | ConsumeOp(resolution: Resolution)
    | HoldOp(reason: Hold)
    | ReleaseOp(reason: Hold, awaitPresentation: bool)
    | InvalidateOp
    | InvalidateWorkOp(owner: string)
    | AbortOp(signal: nat)
    | AbortListenerOp(serial: nat)
    | TimerOp
    | ClockOp(to: real)

  function Step(f: Fifo, op: Op): Fifo {
    match op
    case OfferOp(id, work, allowed, signal) => Offer(f, id, work, allowed, signal).0
    case AcceptOp(id, decision) => AcceptDecision(f, id, decision).0
    case ConsumeOp(r) => Consume(f, r).0
    case HoldOp(reason) => HoldLine(f, reason).0
    case ReleaseOp(reason, awaitPresentation) => ReleaseLine(f, reason, awaitPresentation).0
    case InvalidateOp => Invalidate(f).0
    case InvalidateWorkOp(owner) => InvalidateWork(f, owner).0
    case AbortOp(signal) => f.(aborted := f.aborted + {signal})
    case AbortListenerOp(serial) => AbortListener(f, serial)
    case TimerOp => Expire(f)
    case ClockOp(to) => if to >= f.now then f.(now := to) else f
  }

  function Run(f: Fifo, ops: seq<Op>): Fifo {
    if ops == [] then f else Step(Run(f, ops[..|ops| - 1]), ops[|ops| - 1])
  }

  // ---------- The invariant ----------

  ghost predicate Ascending(entries: seq<Entry>, next: nat) {
    && (forall i, j {:trigger entries[i].serial, entries[j].serial} | 0 <= i < j < |entries| ::
          entries[i].serial < entries[j].serial)
    && (forall i {:trigger entries[i].serial} | 0 <= i < |entries| :: entries[i].serial < next)
  }

  /** Only the head can be answered or parked. */
  ghost predicate Waiting(entries: seq<Entry>) {
    forall i {:trigger entries[i].phase} {:trigger entries[i].held} | 0 < i < |entries| ::
      entries[i].phase.Pending? && !entries[i].held
  }

  ghost predicate InOfferOrder(f: Fifo) {
    && |f.entries| <= f.capacity
    && Ascending(f.entries, f.nextSerial)
    && (forall i, j {:trigger f.entries[i].work, f.entries[j].work} | 0 <= i < j < |f.entries| ::
          f.entries[i].work.Some? ==> f.entries[i].work != f.entries[j].work)
  }

  ghost predicate HoldsAgree(f: Fifo) {
    && Waiting(f.entries)
    && (f.HeadPending() ==>
          && f.entries[0].held == (f.holds != {} || f.entries[0].awaitingPresentation)
          && f.entries[0].expiresAt <= f.now + APPROVAL_TTL_SECONDS)
    && (Project in f.holds ==> f.entries != [])
    && (Background in f.holds ==> forall i | 0 <= i < |f.entries| :: f.entries[i].awaitingPresentation)
  }

  ghost predicate PendingIn(entries: seq<Entry>, serial: nat) {
    exists i | 0 <= i < |entries| :: entries[i].serial == serial && entries[i].phase.Pending?
  }

  ghost predicate Listed(entries: seq<Entry>, serial: nat) {
    exists i | 0 <= i < |entries| :: entries[i].serial == serial
  }

  ghost predicate Recorded(log: seq<Settlement>, serial: nat) {
    exists i | 0 <= i < |log| :: log[i].serial == serial
  }

  ghost predicate Once(log: seq<Settlement>) {
    forall i, j | 0 <= i < j < |log| :: log[i].serial != log[j].serial
  }

  /** Exactly the admitted entries that are not pending any more have been settled, once each. */
  ghost predicate LedgerAgrees(f: Fifo) {
    && Once(f.settled)
    && SettledExactly(f.settled, f.entries, f.nextSerial)
    && RespondersSettled(f.entries, f.settled)
    && Once(f.spent)
    && SpentAndGone(f.spent, f.settled, f.entries)
  }

  ghost predicate SettledExactly(settled: seq<Settlement>, entries: seq<Entry>, next: nat) {
    forall k: nat :: Recorded(settled, k) <==> k < next && !PendingIn(entries, k)
  }

  ghost predicate RespondersSettled(entries: seq<Entry>, settled: seq<Settlement>) {
    forall e | e in entries && e.phase.Responding? :: Settlement(e.serial, e.phase.decision) in settled
  }

  ghost predicate SpentAndGone(spent: seq<Settlement>, settled: seq<Settlement>, entries: seq<Entry>) {
    forall s | s in spent :: s in settled && !Listed(entries, s.serial)
  }

  ghost predicate Inv(f: Fifo) {
    InOfferOrder(f) && HoldsAgree(f) && LedgerAgrees(f)
  }
}
