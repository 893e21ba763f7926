/** What every step, and every run, of the outbound writer keeps. */
module OutboundRuns {
  import opened Common
  import opened OutboundModel

  lemma {:induction false} OpenJoins(a: seq<Send>, b: seq<Send>)
    ensures Open(a + b) == Open(a) + Open(b)
  {
    if a == [] {
      assert a + b == b;
    } else {
      HeadFirst(a, b);
      OpenJoins(a[1..], b);
    }
  }

  /** No send is settled again or forgotten, and no frame is taken back. */
  ghost predicate Grows(before: Writer, after: Writer) {
    && |before.fate| <= |after.fate| && before.wire <= after.wire
    && forall k {:trigger after.fate[k]} | 0 <= k < |before.fate| && before.fate[k].Some? ::
         after.fate[k] == before.fate[k]
  }

  // ---------- Settling the send in flight ----------

  lemma SettleKeeps(w: Writer, outcome: Outcome)
    requires Sound(w) && w.current.Some? && (outcome != Unavailable ==> OnWire(w.wire, w.current.value.id))
    ensures var r := Settle(w, outcome);
      && Sound(r) && Grows(w, r) && r.Unsettled() == w.Unsettled() - if w.current.value.settled then 0 else 1
  {
  }

  // ---------- Settling what waits ----------

  lemma SettleOne(sends: seq<Send>, i: nat)
    requires i < |sends| && !sends[i].settled
    ensures Open(sends) == Open(sends[i := sends[i].(settled := true)]) + 1
  {
    var s := sends[i];
    var t := s.(settled := true);
    assert sends == sends[..i] + ([s] + sends[i + 1..]);
    assert sends[i := t] == sends[..i] + ([t] + sends[i + 1..]);
    OpenJoins(sends[..i], [s] + sends[i + 1..]);
    OpenJoins([s], sends[i + 1..]);
    OpenJoins(sends[..i], [t] + sends[i + 1..]);
    OpenJoins([t], sends[i + 1..]);
    assert [s][1..] == [] == [t][1..];
  }

  lemma RejectAtKeeps(w: Writer, i: nat)
    requires Sound(w) && i < |w.waiting| && !w.waiting[i].settled && w.gate.active != Some(w.waiting[i].socket)
    ensures Sound(RejectAt(w, i)) && Grows(w, RejectAt(w, i)) && RejectAt(w, i).Unsettled() == w.Unsettled() - 1
  {
    SettleOne(w.waiting, i);
  }

  /** The first `n` sends for the socket are settled and nothing else has changed or moved. */
  ghost predicate Marked(before: seq<Send>, after: seq<Send>, socket: nat, n: nat) {
    && |after| == |before|
    && forall i {:trigger after[i]} | 0 <= i < |before| ::
         after[i] == before[i].(settled := before[i].settled || (i < n && before[i].socket == socket))
  }

  ghost predicate Rejecting(w: Writer, r: Writer, socket: nat, n: nat) {
    && Marked(w.waiting, r.waiting, socket, n)
    && r.gate == w.gate && r.sockets == w.sockets && r.current == w.current && r.wire == w.wire && |r.fate| == |w.fate|
    && Grows(w, r)
  }

  lemma {:induction false} RejectFirstKeeps(w: Writer, socket: nat, n: nat)
    requires Sound(w) && n <= |w.waiting| && w.gate.active != Some(socket)
    ensures var r := RejectFirst(w, socket, n);
      Sound(r) && r.Unsettled() <= w.Unsettled() && Rejecting(w, r, socket, n)
  {
    if n == 0 {
      RejectNone(w, socket);
    } else {
      var r := RejectFirst(w, socket, n - 1);
      RejectFirstKeeps(w, socket, n - 1);
      RejectNext(w, r, socket, n - 1);
    }
  }

  lemma RejectNone(w: Writer, socket: nat)
    ensures Rejecting(w, w, socket, 0)
  {
  }

  lemma RejectNext(w: Writer, r: Writer, socket: nat, i: nat)
    requires Sound(r) && Rejecting(w, r, socket, i) && i < |w.waiting|
    requires w.gate.active != Some(socket)
    ensures var t := RejectTurn(r, socket, i);
      Sound(t) && t.Unsettled() <= r.Unsettled() && Rejecting(w, t, socket, i + 1)
  {
    if r.waiting[i].socket == socket && !r.waiting[i].settled {
      RejectAtKeeps(r, i);
    }
  }

  lemma RejectKeeps(w: Writer, socket: nat)
    requires Sound(w) && w.gate.active != Some(socket)
    ensures var r := Reject(w, socket);
      && Sound(r) && r.Unsettled() <= w.Unsettled() && r.wire == w.wire && r.gate == w.gate
      && |r.fate| == |w.fate| && Grows(w, r)
      && |r.waiting| == |w.waiting|
      && Marked(w.waiting, r.waiting, socket, |w.waiting|)
      && r.current == if w.current.Some? && w.current.value.socket == socket
                      then Some(w.current.value.(settled := true)) else w.current
  {
    if w.current.Some? && w.current.value.socket == socket {
      SettleKeeps(w, Unavailable);
      RejectFirstKeeps(Settle(w, Unavailable), socket, |w.waiting|);
    } else {
      RejectFirstKeeps(w, socket, |w.waiting|);
    }
  }

  lemma DisconnectKeeps(w: Writer, socket: nat)
    requires Sound(w)
    ensures var r := Disconnect(w, socket);
      && Sound(r) && r.Unsettled() <= w.Unsettled() && r.wire == w.wire && |r.fate| == |w.fate| && Grows(w, r)
      && r.gate.active != Some(socket)
      && |r.waiting| == |w.waiting|
      && (r.current.Some? <==> w.current.Some?)
      && (r.current.Some? ==>
            r.current.value.id == w.current.value.id && (w.current.value.settled ==> r.current.value.settled))
  {
    if w.gate.active == Some(socket) {
      RejectKeeps(w.(gate := Gate(None, false, w.gate.stopping)), socket);
    }
  }

  // ---------- Draining ----------

  lemma TakeKeeps(w: Writer)
    requires Sound(w) && w.current.None? && w.waiting != []
    ensures Sound(Take(w)) && Take(w).Unsettled() == w.Unsettled()
  {
    OpenJoins([w.waiting[0]], w.waiting[1..]);
    assert w.waiting == [w.waiting[0]] + w.waiting[1..];
    assert Take(w).Unsettled() == w.Unsettled();
  }

  lemma DropKeeps(w: Writer)
    requires Sound(w) && w.current.Some? && w.current.value.settled
    ensures Sound(Drop(w)) && Drop(w).Unsettled() == w.Unsettled()
  {
  }

  lemma HandOverKeeps(w: Writer)
    requires Sound(w) && w.current.None? && w.waiting != [] && w.gate.Passes(w.waiting[0].socket)
    ensures Sound(HandOver(Take(w))) && HandOver(Take(w)).Unsettled() == w.Unsettled()
    ensures OnWire(HandOver(Take(w)).wire, w.waiting[0].id)
  {
    TakeKeeps(w);
    var h := HandOver(Take(w));
    assert h.wire[|w.wire|].send == w.waiting[0];
    forall id: nat | OnWire(w.wire, id)
      ensures OnWire(h.wire, id)
    {
      var k :| 0 <= k < |w.wire| && w.wire[k].send.id == id;
      assert h.wire[k] == w.wire[k];
    }
  }

  lemma {:induction false} DrainKeeps(w: Writer)
    requires Sound(w) && (w.current.Some? ==> OnWire(w.wire, w.current.value.id))
    ensures var d := Drain(w);
      && Sound(d) && d.Unsettled() <= w.Unsettled() && d.gate == w.gate && |d.fate| == |w.fate| && Grows(w, d)
      && (d.current.Some? ==> OnWire(d.wire, d.current.value.id))
      && (d.current.None? ==> d.waiting == [])
    decreases |w.waiting|
  {
    if w.current.None? && w.waiting != [] {
      if w.gate.Passes(w.waiting[0].socket) {
        HandOverKeeps(w);
      } else {
        TakeKeeps(w);
        SettleKeeps(Take(w), Unavailable);
        DropKeeps(Settle(Take(w), Unavailable));
        DrainKeeps(Drop(Settle(Take(w), Unavailable)));
      }
    }
  }

  /** Where the writer stops: at the first waiting send for the socket it may write to. */
  function Refused(w: Writer): (n: nat)
    ensures n <= |w.waiting| && (forall i | 0 <= i < n :: !w.gate.Passes(w.waiting[i].socket))
    ensures n < |w.waiting| ==> w.gate.Passes(w.waiting[n].socket)
    decreases |w.waiting|
  {
    if w.waiting == [] || w.gate.Passes(w.waiting[0].socket) then 0 else 1 + Refused(w.(waiting := w.waiting[1..]))
  }

  /** A drain hands over exactly the first send it may, and leaves exactly those behind it. */
  lemma {:induction false} DrainSendsFirst(w: Writer)
    requires w.current.None?
    ensures var n, d := Refused(w), Drain(w);
      if n < |w.waiting|
      then d.current == Some(w.waiting[n]) && d.waiting == w.waiting[n + 1..]
           && d.wire == w.wire + [Frame(w.waiting[n], w.gate)]
      else d.current.None? && d.waiting == [] && d.wire == w.wire
    decreases |w.waiting|
  {
    if w.waiting != [] && !w.gate.Passes(w.waiting[0].socket) {
      var s := Drop(Settle(Take(w), Unavailable));
      DrainSendsFirst(s);
      RefusedLooksOnlyAhead(s, w.(waiting := w.waiting[1..]));
    }
  }

  lemma {:induction false} RefusedLooksOnlyAhead(a: Writer, b: Writer)
    requires a.waiting == b.waiting && a.gate == b.gate
    ensures Refused(a) == Refused(b)
    decreases |a.waiting|
  {
    if a.waiting != [] { RefusedLooksOnlyAhead(a.(waiting := a.waiting[1..]), b.(waiting := b.waiting[1..])); }
  }

  // ---------- Steps and runs ----------

  lemma PushKeeps(w: Writer, socket: nat, raw: seq<int>)
    requires Sound(w) && socket < w.sockets
    ensures Sound(Push(w, socket, raw)) && Push(w, socket, raw).Unsettled() == w.Unsettled() + 1
  {
    var s := Send(|w.fate|, socket, raw, false);
    OpenJoins(w.waiting, [s]);
    assert [s][1..] == [];
  }

  lemma EnqueueKeeps(w: Writer, socket: nat, raw: seq<int>)
    requires Steady(w) && socket < w.sockets
    ensures Steady(Enqueue(w, socket, raw)) && Grows(w, Enqueue(w, socket, raw))
  {
    if w.Unsettled() < MAX_DESKTOP_PENDING_SENDS {
      PushKeeps(w, socket, raw);
      DrainKeeps(Push(w, socket, raw));
    }
  }

  lemma GrowsOn(a: Writer, b: Writer, c: Writer)
    requires Grows(a, b) && Grows(b, c)
    ensures Grows(a, c)
  {
    forall k | 0 <= k < |a.fate| && a.fate[k].Some?
      ensures c.fate[k] == a.fate[k]
    {
      assert b.fate[k] == a.fate[k];
    }
  }

  lemma DrainOn(w: Writer)
    requires Sound(w) && w.current.Some? && w.current.value.settled && w.Unsettled() <= MAX_DESKTOP_PENDING_SENDS
    ensures Steady(Drain(Drop(w))) && Grows(w, Drain(Drop(w)))
  {
    DropKeeps(w);
    DrainKeeps(Drop(w));
  }

  /** The end of a write decides its send, unless the loss of its socket did so before. */
  lemma DoneKeeps(w: Writer, written: bool)
    requires Steady(w) && w.current.Some?
    ensures var r, id := Done(w, written), w.current.value.id;
      && Steady(r) && Grows(w, r) && id < |w.fate|
      && r.fate[id] == if w.current.value.settled then w.fate[id] else Some(if written then Written else Failed)
  {
    var s := Settle(w, if written then Written else Failed);
    SettleKeeps(w, if written then Written else Failed);
    if written {
      DrainOn(s);
      GrowsOn(w, s, Done(w, written));
    } else {
      var t := Disconnect(s, w.current.value.socket);
      DisconnectKeeps(s, w.current.value.socket);
      DrainOn(t);
      GrowsOn(s, t, Done(w, written));
      GrowsOn(w, s, Done(w, written));
    }
  }

  lemma DisconnectIsSteady(w: Writer, socket: nat)
    requires Steady(w)
    ensures Steady(Disconnect(w, socket)) && Grows(w, Disconnect(w, socket))
  {
    DisconnectKeeps(w, socket);
  }

  lemma GateKeeps(w: Writer, gate: Gate, sockets: nat)
    requires Steady(w) && sockets >= w.sockets
    requires gate.active == w.gate.active || gate.active == Some(w.sockets)
    requires gate.active.Some? ==> gate.active.value < sockets
    requires gate.active.None? ==> !gate.authenticated
    ensures Steady(w.(gate := gate, sockets := sockets)) && Grows(w, w.(gate := gate, sockets := sockets))
  {
    assert w.(gate := gate, sockets := sockets).Unsettled() == w.Unsettled();
  }

  datatype Op =
    | Connects
    | Proves(socket: nat)
    | Offers(socket: nat, raw: seq<int>)
    | Completes(written: bool)
    | Leaves(socket: nat)
    | Stops

  function Step(w: Writer, op: Op): Writer {
    match op
    case Connects => Accept(w)
    case Proves(socket) => Authenticate(w, socket)
    case Offers(socket, raw) => if socket < w.sockets then Enqueue(w, socket, raw) else w
    case Completes(written) => if w.current.Some? then Done(w, written) else w
    case Leaves(socket) => Disconnect(w, socket)
    case Stops => Stop(w)
  }

  lemma StepKeeps(w: Writer, op: Op)
    requires Steady(w)
    ensures Steady(Step(w, op)) && Grows(w, Step(w, op))
  {
    match op
    case Offers(socket, raw) => if socket < w.sockets { EnqueueKeeps(w, socket, raw); }
    case Completes(written) => if w.current.Some? { DoneKeeps(w, written); }
    case Leaves(socket) => DisconnectIsSteady(w, socket);
    case _ => GateKeeps(w, Step(w, op).gate, Step(w, op).sockets);
  }

  const START := Writer(Gate(None, false, false), 0, None, [], [], [])

  function Run(ops: seq<Op>): Writer {
    if ops == [] then START else Step(Run(ops[..|ops| - 1]), ops[|ops| - 1])
  }

  lemma {:induction false} RunKeeps(ops: seq<Op>)
    ensures Steady(Run(ops))
  {
    if ops != [] {
      RunKeeps(ops[..|ops| - 1]);
      StepKeeps(Run(ops[..|ops| - 1]), ops[|ops| - 1]);
    }
  }

  /** Whatever happens later, a settlement stands and the frames already out stay first. */
  lemma {:induction false} SettledOnce(ops: seq<Op>, n: nat)
    requires n <= |ops|
    ensures Grows(Run(ops[..n]), Run(ops))
  {
    if n == |ops| {
      assert ops[..n] == ops;
    } else {
      var front := ops[..|ops| - 1];
      assert front[..n] == ops[..n];
      SettledOnce(front, n);
      RunKeeps(front);
      StepKeeps(Run(front), ops[|ops| - 1]);
    }
  }

  /** At rest nothing is owed: every send that was ever accepted has been settled. */
  lemma RestOwesNothing(ops: seq<Op>, id: nat)
    requires Run(ops).current.None? && id < |Run(ops).fate|
    ensures Run(ops).fate[id].Some?
  {
    RunKeeps(ops);
  }

  /** Two frames of one socket are on the wire in the order in which their sends were accepted. */
  lemma FramesInOrder(ops: seq<Op>, i: nat, j: nat)
    requires i < j < |Run(ops).wire|
    ensures var w := Run(ops).wire;
      w[i].send.id < w[j].send.id && w[j].gate.Passes(w[j].send.socket) && !w[j].send.settled
  {
    RunKeeps(ops);
  }

  // ---------- A stopped server writes nothing ----------

  lemma StopStays(w: Writer, op: Op)
    requires Steady(w) && w.gate.stopping
    ensures Step(w, op).gate.stopping && Step(w, op).wire == w.wire
    ensures op.Connects? ==> Step(w, op) == w
  {
    var r := Step(w, op);
    StepKeeps(w, op);
    assert r.gate.stopping by {
      match op
      case Offers(socket, raw) => EnqueueGate(w, socket, raw);
      case Completes(written) =>
        if w.current.Some? {
          DoneGate(w, written);
          DisconnectGate(w, w.current.value.socket);
        }
      case Leaves(socket) => DisconnectGate(w, socket);
      case _ =>
    }
    if |w.wire| < |r.wire| {
      StepWire(w, op, |w.wire|);
      assert false;
    }
  }

  /** From the step that stops the server on no frame is written and no client is accepted, whatever happens. */
  lemma {:induction false} NothingAfterStop(ops: seq<Op>, n: nat)
    requires n < |ops| && ops[n] == Stops
    ensures Run(ops).gate.stopping && Run(ops).wire == Run(ops[..n]).wire && Run(ops).sockets == Run(ops[..n]).sockets
  {
    var m := |ops| - 1;
    RunKeeps(ops[..m]);
    if n < m {
      assert ops[..m][..n] == ops[..n];
      NothingAfterStop(ops[..m], n);
      StopStays(Run(ops[..m]), ops[m]);
      SocketsStay(Run(ops[..m]), ops[m]);
    }
  }

  lemma SocketsStay(w: Writer, op: Op)
    requires Steady(w) && w.gate.stopping
    ensures Step(w, op).sockets == w.sockets
  {
    match op
    case Offers(socket, raw) => DrainSockets(Push(w, socket, raw));
    case Completes(written) =>
      if w.current.Some? {
        var s := Settle(w, if written then Written else Failed);
        DisconnectSockets(s, w.current.value.socket);
        DrainSockets(Drop(if written then s else Disconnect(s, w.current.value.socket)));
      }
    case Leaves(socket) => DisconnectSockets(w, socket);
    case _ =>
  }

  lemma {:induction false} DrainSockets(w: Writer)
    ensures Drain(w).sockets == w.sockets
    decreases |w.waiting|
  {
    if w.current.None? && w.waiting != [] && !w.gate.Passes(w.waiting[0].socket) {
      DrainSockets(Drop(Settle(Take(w), Unavailable)));
    }
  }

  lemma {:induction false} RejectSockets(w: Writer, socket: nat, n: nat)
    requires n <= |w.waiting|
    ensures RejectFirst(w, socket, n).sockets == w.sockets
  {
    if n > 0 { RejectSockets(w, socket, n - 1); }
  }

  lemma DisconnectSockets(w: Writer, socket: nat)
    ensures Disconnect(w, socket).sockets == w.sockets
  {
    var t := w.(gate := Gate(None, false, w.gate.stopping));
    RejectSockets(t, socket, |t.waiting|);
    if t.current.Some? { RejectSockets(Settle(t, Unavailable), socket, |t.waiting|); }
  }

  // ---------- Only who has proved itself is written to ----------

  /** The socket was accepted, has proved itself at step `n`, and has been the active one ever since. */
  ghost predicate ProvedAt(ops: seq<Op>, n: nat, socket: nat) {
    && n < |ops| && ops[n] == Proves(socket)
    && forall m {:trigger Run(ops[..m])} | n <= m <= |ops| :: Run(ops[..m]).gate.active == Some(socket)
  }

  lemma ProvedLater(ops: seq<Op>, n: nat, socket: nat)
    requires |ops| > 0 && ProvedAt(ops[..|ops| - 1], n, socket) && Run(ops).gate.active == Some(socket)
    ensures ProvedAt(ops, n, socket)
  {
    forall m | n <= m <= |ops|
      ensures Run(ops[..m]).gate.active == Some(socket)
    {
      if m == |ops| {
        assert ops[..m] == ops;
      } else {
        assert ops[..|ops| - 1][..m] == ops[..m];
      }
    }
  }

  lemma {:induction false} DrainGate(w: Writer)
    ensures Drain(w).gate == w.gate
    decreases |w.waiting|
  {
    if w.current.None? && w.waiting != [] && !w.gate.Passes(w.waiting[0].socket) {
      DrainGate(Drop(Settle(Take(w), Unavailable)));
    }
  }

  lemma EnqueueGate(w: Writer, socket: nat, raw: seq<int>)
    ensures Enqueue(w, socket, raw).gate == w.gate
  {
    DrainGate(Push(w, socket, raw));
  }

  lemma {:induction false} RejectGate(w: Writer, socket: nat, n: nat)
    requires n <= |w.waiting|
    ensures RejectFirst(w, socket, n).gate == w.gate
  {
    if n > 0 { RejectGate(w, socket, n - 1); }
  }

  lemma DisconnectGate(w: Writer, socket: nat)
    ensures Disconnect(w, socket).gate ==
            if w.gate.active == Some(socket) then Gate(None, false, w.gate.stopping) else w.gate
  {
    var t := w.(gate := Gate(None, false, w.gate.stopping));
    RejectGate(t, socket, |t.waiting|);
    if t.current.Some? { RejectGate(Settle(t, Unavailable), socket, |t.waiting|); }
  }

  lemma DoneGate(w: Writer, written: bool)
    requires w.current.Some?
    ensures Done(w, written).gate == if written then w.gate else Disconnect(w, w.current.value.socket).gate
  {
    var s := Settle(w, if written then Written else Failed);
    DisconnectGate(s, w.current.value.socket);
    DisconnectGate(w, w.current.value.socket);
    DrainGate(Drop(if written then s else Disconnect(s, w.current.value.socket)));
  }

  /** A step that leaves the server authenticated was the proof itself or found and left the same client. */
  lemma StepAuthenticates(w: Writer, op: Op)
    requires Steady(w) && Step(w, op).gate.authenticated
    ensures var g := Step(w, op).gate;
      g.active.Some? && w.gate.active == g.active && (op == Proves(g.active.value) || w.gate.authenticated)
  {
    match op
    case Offers(socket, raw) => if socket < w.sockets { EnqueueGate(w, socket, raw); }
    case Completes(written) =>
      if w.current.Some? {
        DoneGate(w, written);
        DisconnectGate(w, w.current.value.socket);
      }
    case Leaves(socket) => DisconnectGate(w, socket);
    case _ =>
  }

  /** Whoever the server holds for authenticated has proved itself since it was accepted. */
  lemma {:induction false} AuthenticatedProved(ops: seq<Op>)
    requires Run(ops).gate.authenticated
    ensures Run(ops).gate.active.Some?
    ensures exists n :: ProvedAt(ops, n, Run(ops).gate.active.value)
  {
    if ops != [] {
      var m := |ops| - 1;
      var w, op := Run(ops[..m]), ops[m];
      RunKeeps(ops[..m]);
      StepAuthenticates(w, op);
      var socket := Run(ops).gate.active.value;
      if w.gate.authenticated {
        AuthenticatedProved(ops[..m]);
        var n :| ProvedAt(ops[..m], n, socket);
        ProvedLater(ops, n, socket);
      } else {
        assert ops[..m + 1] == ops;
        assert ProvedAt(ops, m, socket);
      }
    }
  }

  lemma {:induction false} DrainWire(w: Writer)
    ensures w.wire <= Drain(w).wire
    ensures forall i {:trigger Drain(w).wire[i]} | |w.wire| <= i < |Drain(w).wire| :: Drain(w).wire[i].gate == w.gate
    decreases |w.waiting|
  {
    if w.current.None? && w.waiting != [] && !w.gate.Passes(w.waiting[0].socket) {
      DrainWire(Drop(Settle(Take(w), Unavailable)));
    }
  }

  /** A frame that a step puts on the wire goes through the gate that the step leaves. */
  lemma StepWire(w: Writer, op: Op, i: nat)
    requires Steady(w) && |w.wire| <= i < |Step(w, op).wire|
    ensures Step(w, op).wire[i].gate == Step(w, op).gate && !op.Proves?
  {
    match op
    case Offers(socket, raw) =>
      EnqueueGate(w, socket, raw);
      DrainWire(Push(w, socket, raw));
    case Completes(written) =>
      var s := Settle(w, if written then Written else Failed);
      SettleKeeps(w, if written then Written else Failed);
      DisconnectKeeps(s, w.current.value.socket);
      var t := Drop(if written then s else Disconnect(s, w.current.value.socket));
      DrainGate(t);
      DrainWire(t);
    case Leaves(socket) => DisconnectKeeps(w, socket);
    case _ =>
  }

  /** Step `k` put the frame on the wire, and its socket had proved itself before, at step `n`. */
  ghost predicate SentAfterProof(ops: seq<Op>, i: nat, k: nat, n: nat) {
    && k < |ops| && |Run(ops[..k]).wire| <= i < |Run(ops).wire|
    && i < |Run(ops[..k + 1]).wire|
    && ProvedAt(ops[..k], n, Run(ops).wire[i].send.socket)
  }

  /** Every frame goes to a client that proved itself since it was accepted and was the active one from then on. */
  lemma {:induction false} WrittenOnlyAfterProof(ops: seq<Op>, i: nat) returns (k: nat, n: nat)
    requires i < |Run(ops).wire|
    ensures SentAfterProof(ops, i, k, n)
  {
    assert ops != [];
    var front := ops[..|ops| - 1];
    if i < |Run(front).wire| {
      k, n := WrittenOnlyAfterProof(front, i);
      SentBefore(ops, i, k, n);
    } else {
      k := |ops| - 1;
      n := SentInStep(ops, i);
    }
  }

  lemma SentBefore(ops: seq<Op>, i: nat, k: nat, n: nat)
    requires ops != [] && SentAfterProof(ops[..|ops| - 1], i, k, n)
    ensures SentAfterProof(ops, i, k, n)
  {
    var front := ops[..|ops| - 1];
    RunKeeps(front);
    StepKeeps(Run(front), ops[|ops| - 1]);
    assert front[..k] == ops[..k] && front[..k + 1] == ops[..k + 1];
  }

  lemma SentInStep(ops: seq<Op>, i: nat) returns (n: nat)
    requires ops != [] && |Run(ops[..|ops| - 1]).wire| <= i < |Run(ops).wire|
    ensures SentAfterProof(ops, i, |ops| - 1, n)
  {
    var m := |ops| - 1;
    var socket := Run(ops).wire[i].send.socket;
    PassesBefore(ops, i);
    AuthenticatedProved(ops[..m]);
    n :| ProvedAt(ops[..m], n, socket);
    assert ops[..m + 1] == ops;
  }

  lemma PassesBefore(ops: seq<Op>, i: nat)
    requires ops != [] && |Run(ops[..|ops| - 1]).wire| <= i < |Run(ops).wire|
    ensures var g := Run(ops[..|ops| - 1]).gate;
      g.authenticated && g.active == Some(Run(ops).wire[i].send.socket)
  {
    var m := |ops| - 1;
    RunKeeps(ops[..m]);
    RunKeeps(ops);
    StepWire(Run(ops[..m]), ops[m], i);
    StepAuthenticates(Run(ops[..m]), ops[m]);
  }
}
