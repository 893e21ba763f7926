/** What a caller of the outbound writer may rely on, told without the functions that do it. */
module OutboundMeaning {
  import opened Common
  import opened OutboundModel
  import opened OutboundRuns

  // ---------- Accepting a send ----------

  /** An accepted send waits behind a frame in flight; else it goes out at once or, without a client, is refused. */
  ghost predicate Accepted(w: Writer, socket: nat, raw: seq<int>, r: Writer) {
    var s := Send(|w.fate|, socket, raw, false);
    && |r.fate| == |w.fate| + 1 && r.gate == w.gate && r.sockets == w.sockets
    && (forall k | 0 <= k < |w.fate| :: r.fate[k] == w.fate[k])
    && (if w.current.Some?
        then r.current == w.current && r.waiting == w.waiting + [s] && r.wire == w.wire && r.fate[|w.fate|] == None
        else if w.gate.Passes(socket)
        then r.current == Some(s) && r.waiting == [] && r.wire == w.wire + [Frame(s, w.gate)]
             && r.fate[|w.fate|] == None
        else r.current.None? && r.waiting == [] && r.wire == w.wire && r.fate[|w.fate|] == Some(Unavailable))
  }

  lemma EnqueueMeans(w: Writer, socket: nat, raw: seq<int>)
    requires Steady(w)
    ensures var r := Enqueue(w, socket, raw);
      if w.Unsettled() < MAX_DESKTOP_PENDING_SENDS then Accepted(w, socket, raw, r) else r == w
  {
    var p := Push(w, socket, raw);
    if w.current.None? {
      assert w.waiting == [] && p.waiting == [Send(|w.fate|, socket, raw, false)] && p.waiting[1..] == [];
      var q := Drop(Settle(Take(p), Unavailable));
      assert Drain(q) == q;
      if w.gate.Passes(socket) {
        assert Drain(p) == HandOver(Take(p));
      } else {
        assert Drain(p) == q;
      }
    } else {
      assert Drain(p) == p;
    }
  }

  // ---------- The gate ----------

  /** A free server that goes on accepts a new client; exactly the active one can prove itself; a stop is final. */
  lemma GateMeans(w: Writer, socket: nat)
    requires Steady(w)
    ensures var r := Accept(w);
      if w.gate.active.None? && !w.gate.stopping
      then r.gate.active == Some(w.sockets) && r.sockets == w.sockets + 1 && !r.gate.CanSend()
      else r == w
    ensures Authenticate(w, socket).gate.authenticated <==> w.gate.authenticated || w.gate.active == Some(socket)
    ensures Stop(w).gate.stopping && !Stop(w).gate.CanSend() && Accept(Stop(w)) == Stop(w)
  {
  }

  // ---------- Losing a socket ----------

  /** Every send of a lost socket is settled where it stands, as unavailable if nobody has settled it; no other is. */
  ghost predicate Lost(w: Writer, socket: nat, r: Writer) {
    && r.gate == Gate(None, false, w.gate.stopping)
    && Marked(w.waiting, r.waiting, socket, |w.waiting|)
    && (r.current.Some? <==> w.current.Some?)
    && (w.current.Some? ==>
          r.current.value == w.current.value.(settled := w.current.value.settled || w.current.value.socket == socket))
    && r.wire == w.wire && |r.fate| == |w.fate| && r.sockets == w.sockets
    && forall k {:trigger r.fate[k]} | 0 <= k < |w.fate| :: r.fate[k] == w.fate[k] || r.fate[k] == Some(Unavailable)
  }

  ghost predicate OnlyUnavailable(before: seq<Option<Outcome>>, after: seq<Option<Outcome>>) {
    |after| == |before| && forall k {:trigger after[k]} | 0 <= k < |before| ::
      after[k] == before[k] || after[k] == Some(Unavailable)
  }

  lemma {:induction false} RejectFirstFates(w: Writer, socket: nat, n: nat)
    requires n <= |w.waiting|
    ensures OnlyUnavailable(w.fate, RejectFirst(w, socket, n).fate) && RejectFirst(w, socket, n).sockets == w.sockets
  {
    if n > 0 {
      RejectFirstFates(w, socket, n - 1);
    }
  }

  lemma RejectFates(w: Writer, socket: nat)
    ensures OnlyUnavailable(w.fate, Reject(w, socket).fate) && Reject(w, socket).sockets == w.sockets
  {
    var s := if w.current.Some? && w.current.value.socket == socket then Settle(w, Unavailable) else w;
    assert OnlyUnavailable(w.fate, s.fate);
    RejectFirstFates(s, socket, |s.waiting|);
  }

  /** Only the loss of the active socket changes anything. */
  lemma DisconnectMeans(w: Writer, socket: nat)
    requires Sound(w)
    ensures if w.gate.active == Some(socket) then Lost(w, socket, Disconnect(w, socket)) else Disconnect(w, socket) == w
  {
    if w.gate.active == Some(socket) {
      var t := w.(gate := Gate(None, false, w.gate.stopping));
      RejectKeeps(t, socket);
      RejectFates(t, socket);
    }
  }

  // ---------- After a write ----------

  /** What the gate is once a write has ended: a failed one gives its socket up. */
  function GateThen(w: Writer, written: bool): Gate
    requires w.current.Some?
  {
    if !written && w.gate.active == Some(w.current.value.socket) then Gate(None, false, w.gate.stopping) else w.gate
  }

  /** The first waiting send that may go out, or how many there are. */
  function NextPassing(waiting: seq<Send>, gate: Gate): (n: nat)
    ensures n <= |waiting| && (forall i | 0 <= i < n :: !gate.Passes(waiting[i].socket))
    ensures n < |waiting| ==> gate.Passes(waiting[n].socket)
  {
    if waiting == [] || gate.Passes(waiting[0].socket) then 0 else 1 + NextPassing(waiting[1..], gate)
  }

  lemma {:induction false} RefusedIsNext(w: Writer)
    ensures Refused(w) == NextPassing(w.waiting, w.gate)
    decreases |w.waiting|
  {
    if w.waiting != [] { RefusedIsNext(w.(waiting := w.waiting[1..])); }
  }

  /** The write is over: the first send that may go out is in flight now, and exactly those behind it wait. */
  ghost predicate GoesOn(w: Writer, written: bool, r: Writer)
    requires w.current.Some?
  {
    var gate := GateThen(w, written);
    var n := NextPassing(w.waiting, gate);
    && r.gate == gate
    && (if n < |w.waiting|
        then r.current == Some(w.waiting[n]) && r.waiting == w.waiting[n + 1..]
             && r.wire == w.wire + [Frame(w.waiting[n], gate)]
        else r.current.None? && r.waiting == [] && r.wire == w.wire)
  }

  lemma DoneMeans(w: Writer, written: bool)
    requires Steady(w) && w.current.Some?
    ensures GoesOn(w, written, Done(w, written))
  {
    var s := Settle(w, if written then Written else Failed);
    SettleKeeps(w, if written then Written else Failed);
    var lost := !written && w.gate.active == Some(w.current.value.socket);
    var t := Drop(if written then s else Disconnect(s, w.current.value.socket));
    AfterWrite(s, w.current.value.socket, written);
    DrainGate(t);
    DrainSendsFirst(t);
    RefusedIsNext(t);
    if lost {
      NonePass(w.waiting, t.gate);
      NonePass(t.waiting, t.gate);
    }
  }

  lemma AfterWrite(s: Writer, socket: nat, written: bool)
    requires Sound(s)
    ensures var r := if written then s else Disconnect(s, socket);
      && r.wire == s.wire && |r.waiting| == |s.waiting|
      && (if !written && s.gate.active == Some(socket) then r.gate == Gate(None, false, s.gate.stopping) else r == s)
  {
    DisconnectMeans(s, socket);
  }

  lemma {:induction false} NonePass(waiting: seq<Send>, gate: Gate)
    requires gate.active.None?
    ensures NextPassing(waiting, gate) == |waiting|
  {
    if waiting != [] { NonePass(waiting[1..], gate); }
  }
}
