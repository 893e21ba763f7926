/** The desktop server's outbound sends as a state machine over successive client sockets. */
module OutboundModel {
  import opened Common

  const MAX_DESKTOP_PENDING_SENDS := 128

  /** `id` is the identity of the send object: its place in the order of accepted sends. */
  datatype Send = Send(id: nat, socket: nat, raw: seq<int>, settled: bool)

  datatype Outcome = Written | Unavailable | Failed

  /** What the server knows about its client. */
  datatype Gate = Gate(active: Option<nat>, authenticated: bool, stopping: bool)
  {
    predicate CanSend() {
      !stopping && active.Some? && authenticated
    }

    predicate Passes(socket: nat) {
      active == Some(socket) && authenticated && !stopping
    }
  }

  /** A frame handed to a socket, with the gate at that moment. */
  datatype Frame = Frame(send: Send, gate: Gate)

  /**
   * `current` is in flight, `waiting` stands behind it; `fate` says of every accepted send how it was settled,
   * `wire` holds every frame handed over.
   */
  datatype Writer = Writer(
    gate: Gate, sockets: nat,
    current: Option<Send>, waiting: seq<Send>,
    fate: seq<Option<Outcome>>, wire: seq<Frame>)
  {
    /** The sends that nobody has settled yet. */
    function Unsettled(): nat {
      (if current.Some? && !current.value.settled then 1 else 0) + Open(waiting)
    }

    /** How many sends have been taken out of the array so far: their ids are those below. */
    function Taken(): int {
      |fate| - |waiting|
    }
  }

  function Open(sends: seq<Send>): nat {
    if sends == [] then 0 else (if sends[0].settled then 0 else 1) + Open(sends[1..])
  }

  // ---------- Steps ----------

  function Decide(fate: seq<Option<Outcome>>, id: nat, outcome: Outcome): (r: seq<Option<Outcome>>)
    ensures |r| == |fate|
  {
    if id < |fate| then fate[id := Some(outcome)] else fate
  }

  function Settle(w: Writer, outcome: Outcome): Writer
    requires w.current.Some?
  {
    if w.current.value.settled then w
    else w.(current := Some(w.current.value.(settled := true)), fate := Decide(w.fate, w.current.value.id, outcome))
  }

  function RejectAt(w: Writer, i: nat): Writer
    requires i < |w.waiting|
  {
    w.(waiting := w.waiting[i := w.waiting[i].(settled := true)], fate := Decide(w.fate, w.waiting[i].id, Unavailable))
  }

  /** The first `n` waiting sends have been looked at; settled ones stay in the array. */
  function RejectFirst(w: Writer, socket: nat, n: nat): (r: Writer)
    requires n <= |w.waiting|
    ensures |r.waiting| == |w.waiting|
  {
    if n == 0 then w
    else RejectTurn(RejectFirst(w, socket, n - 1), socket, n - 1)
  }

  /** One turn of the loop over the sends that wait. */
  function RejectTurn(w: Writer, socket: nat, i: nat): (r: Writer)
    requires i < |w.waiting|
    ensures |r.waiting| == |w.waiting|
  {
    if w.waiting[i].socket == socket && !w.waiting[i].settled then RejectAt(w, i) else w
  }

  function Reject(w: Writer, socket: nat): Writer {
    var s := if w.current.Some? && w.current.value.socket == socket then Settle(w, Unavailable) else w;
    RejectFirst(s, socket, |s.waiting|)
  }

  /** Only the active socket's disconnection changes anything here. */
  function Disconnect(w: Writer, socket: nat): Writer {
    if w.gate.active != Some(socket) then w
    else Reject(w.(gate := Gate(None, false, w.gate.stopping)), socket)
  }

  /** What waits is refused up to the first send for the authenticated active socket; that one is handed over. */
  function Drain(w: Writer): Writer
    decreases |w.waiting|
  {
    if w.current.Some? || w.waiting == [] then w
    else
      var s := Take(w);
      if w.gate.Passes(w.waiting[0].socket) then HandOver(s) else Drain(Drop(Settle(s, Unavailable)))
  }

  function Take(w: Writer): Writer
    requires w.waiting != []
  {
    w.(current := Some(w.waiting[0]), waiting := w.waiting[1..])
  }

  function HandOver(w: Writer): Writer
    requires w.current.Some?
  {
    w.(wire := w.wire + [Frame(w.current.value, w.gate)])
  }

  function Drop(w: Writer): Writer {
    w.(current := None)
  }

  function Push(w: Writer, socket: nat, raw: seq<int>): Writer {
    w.(waiting := w.waiting + [Send(|w.fate|, socket, raw, false)], fate := w.fate + [None])
  }

  function Enqueue(w: Writer, socket: nat, raw: seq<int>): Writer {
    if w.Unsettled() >= MAX_DESKTOP_PENDING_SENDS then w else Drain(Push(w, socket, raw))
  }

  /** The frame in flight has been written, or has failed and its socket is given up. */
  function Done(w: Writer, written: bool): Writer
    requires w.current.Some?
  {
    var s := Settle(w, if written then Written else Failed);
    Drain(Drop(if written then s else Disconnect(s, w.current.value.socket)))
  }

  function Accept(w: Writer): Writer {
    if w.gate.active.Some? || w.gate.stopping then w
    else w.(gate := w.gate.(active := Some(w.sockets)), sockets := w.sockets + 1)
  }

  function Authenticate(w: Writer, socket: nat): Writer {
    if w.gate.active == Some(socket) then w.(gate := w.gate.(authenticated := true)) else w
  }

  function Stop(w: Writer): Writer {
    w.(gate := w.gate.(stopping := true))
  }

  // ---------- What holds ----------

  /**
   * The sends still here are exactly the newest ones, in the order of acceptance, each marked as settled
   * once its fate is decided; every older one is decided.
   */
  ghost predicate Accounted(w: Writer) {
    && |w.waiting| + (if w.current.Some? then 1 else 0) <= |w.fate|
    && (forall i {:trigger w.waiting[i]} | 0 <= i < |w.waiting| ::
          w.waiting[i].id == w.Taken() + i && (w.waiting[i].settled <==> w.fate[w.Taken() + i].Some?))
    && (w.current.Some? ==>
          w.current.value.id == w.Taken() - 1 && (w.current.value.settled <==> w.fate[w.Taken() - 1].Some?))
    && (forall k {:trigger w.fate[k]} | 0 <= k < w.Taken() - (if w.current.Some? then 1 else 0) :: w.fate[k].Some?)
  }

  /** Frames left in the order of acceptance, unsettled, through a gate that passed their socket. */
  ghost predicate WireOk(w: Writer) {
    && (forall i, j {:trigger w.wire[i], w.wire[j]} | 0 <= i < j < |w.wire| :: w.wire[i].send.id < w.wire[j].send.id)
    && (forall i {:trigger w.wire[i]} | 0 <= i < |w.wire| ::
          w.wire[i].send.id < w.Taken() && !w.wire[i].send.settled && w.wire[i].gate.Passes(w.wire[i].send.socket))
  }

  ghost predicate OnWire(wire: seq<Frame>, id: nat) {
    exists i {:trigger wire[i]} :: 0 <= i < |wire| && wire[i].send.id == id
  }

  /** Only what reached the wire is settled as written, or as failed in writing. */
  ghost predicate Earned(w: Writer) {
    forall k {:trigger w.fate[k]} | 0 <= k < |w.fate| && (w.fate[k] == Some(Written) || w.fate[k] == Some(Failed)) ::
      OnWire(w.wire, k)
  }

  /**
   * Authentication goes with the socket it was for. A settled send lingers in the array only for a socket that is
   * gone; no socket is accepted twice.
   */
  ghost predicate Retired(w: Writer) {
    && (w.gate.active.None? ==> !w.gate.authenticated)
    && (w.gate.active.Some? ==> w.gate.active.value < w.sockets)
    && (w.current.Some? ==> w.current.value.socket < w.sockets)
    && forall i {:trigger w.waiting[i]} | 0 <= i < |w.waiting| ::
         w.waiting[i].socket < w.sockets && (w.waiting[i].settled ==> w.gate.active != Some(w.waiting[i].socket))
  }

  /** What holds at every point of a step. */
  ghost predicate Sound(w: Writer) {
    Accounted(w) && Retired(w) && WireOk(w) && Earned(w)
  }

  /** Between steps: what is in flight was handed over, nothing waits at rest, and the open sends are bounded. */
  ghost predicate Steady(w: Writer) {
    && Sound(w)
    && (w.current.Some? ==> OnWire(w.wire, w.current.value.id))
    && (w.current.None? ==> w.waiting == [])
    && w.Unsettled() <= MAX_DESKTOP_PENDING_SENDS
  }
}
