/** The virtual clock: sleepers in order of their due time, settled once each. */
module VirtualClocks {
  import opened Common

  /** A point in time; `Never` is the infinite one, where `sleep(Infinity)` parks its waiter. */
  datatype Due = At(time: real) | Never {
    predicate NoLater(other: Due) {
      other.Never? || (At? && time <= other.time)
    }
  }

  datatype Waiter = Waiter(due: Due, sequence: nat, signal: Option<nat>, settled: bool)

  predicate DueBy(w: Waiter, t: Due) {
    w.due.NoLater(t)
  }

  predicate Before(a: Waiter, b: Waiter) {
    match (a.due, b.due)
    case (At(s), At(t)) => s < t || (s == t && a.sequence < b.sequence)
    case (At(_), Never) => true
    case (Never, At(_)) => false
    case (Never, Never) => a.sequence < b.sequence
  }

  ghost predicate InOrder(ws: seq<Waiter>) {
    forall i, j {:trigger Before(ws[i], ws[j])} | 0 <= i < j < |ws| :: Before(ws[i], ws[j])
  }

  /** How many waiters at the front are due by `t`. */
  function Ready(ws: seq<Waiter>, t: Due): (n: nat)
    ensures n <= |ws| && (forall i | 0 <= i < n :: DueBy(ws[i], t)) && (n < |ws| ==> !DueBy(ws[n], t))
  {
    if ws == [] || !DueBy(ws[0], t) then 0 else 1 + Ready(ws[1..], t)
  }

  /** In order of due time, the waiters due by `t` are exactly those at the front. */
  lemma ReadyIsExact(ws: seq<Waiter>, t: Due, i: nat)
    requires InOrder(ws) && i < |ws|
    ensures DueBy(ws[i], t) <==> i < Ready(ws, t)
  {
    var n := Ready(ws, t);
    if n < i { assert Before(ws[n], ws[i]); }
  }

  /** Nobody waits beyond the infinite time. */
  lemma {:induction false} EveryoneIsReady(ws: seq<Waiter>)
    ensures Ready(ws, Never) == |ws| && ws[..Ready(ws, Never)] == ws
  {
    if ws != [] { EveryoneIsReady(ws[1..]); }
  }

  function Ids(ws: seq<Waiter>): (r: seq<nat>)
    ensures |r| == |ws|
  {
    seq(|ws|, i requires 0 <= i < |ws| => ws[i].sequence)
  }

  /** Where a waiter that was just numbered goes: behind everything due no later. */
  function Place(ws: seq<Waiter>, w: Waiter): (p: nat)
    ensures p <= |ws| && (forall i | 0 <= i < p :: !Before(w, ws[i])) && (p < |ws| ==> Before(w, ws[p]))
  {
    if ws == [] || Before(w, ws[0]) then 0 else 1 + Place(ws[1..], w)
  }

  function Insert(ws: seq<Waiter>, w: Waiter): seq<Waiter> {
    ws[..Place(ws, w)] + [w] + ws[Place(ws, w)..]
  }

  lemma InsertHas(ws: seq<Waiter>, w: Waiter)
    ensures w in Insert(ws, w)
  {
    assert Insert(ws, w)[Place(ws, w)] == w;
  }

  lemma InsertKeepsOrder(ws: seq<Waiter>, w: Waiter)
    requires InOrder(ws) && forall i | 0 <= i < |ws| :: ws[i].sequence < w.sequence
    ensures InOrder(Insert(ws, w))
  {
    var p := Place(ws, w);
    var r := Insert(ws, w);
    forall i, j | 0 <= i < j < |r|
      ensures Before(r[i], r[j])
    {
      if i < p { assert Before(ws[i], w); }
      if j > p { assert j - 1 > p ==> Before(ws[p], ws[j - 1]); }
      if i != p && j != p { assert Before(ws[if i < p then i else i - 1], ws[if j < p then j else j - 1]); }
    }
  }

  function Unsettled(ws: seq<Waiter>): seq<Waiter> {
    if ws == [] then [] else (if ws[0].settled then [] else [ws[0]]) + Unsettled(ws[1..])
  }

  lemma {:induction false} UnsettledSuffix(ws: seq<Waiter>, n: nat)
    requires n <= |ws| && forall i | 0 <= i < |ws| :: ws[i].settled == (i < n)
    ensures Unsettled(ws) == ws[n..]
  {
    if ws != [] {
      UnsettledSuffix(ws[1..], if n == 0 then 0 else n - 1);
    }
  }

  function RemoveAt(ws: seq<Waiter>, at: nat): seq<Waiter>
    requires at < |ws|
  {
    ws[..at] + ws[at + 1..]
  }

  lemma {:induction false} UnsettledExcept(ws: seq<Waiter>, at: nat)
    requires at < |ws| && forall i | 0 <= i < |ws| :: ws[i].settled == (i == at)
    ensures Unsettled(ws) == RemoveAt(ws, at)
  {
    if at == 0 {
      UnsettledSuffix(ws, 1);
    } else {
      UnsettledExcept(ws[1..], at - 1);
    }
  }

  datatype SleepOutcome = Waiting | NegativeDuration | Aborted

  function DueAfter(now: Due, duration: Due): Due {
    if now.At? && duration.At? then At(now.time + duration.time) else Never
  }

  /** A waiter is due at any time exactly once its duration has passed; an endless one only at infinity. */
  ghost predicate DueFor(w: Waiter, start: Due, duration: Due) {
    if start.At? && duration.At?
    then forall t: real {:trigger DueBy(w, At(t))} :: DueBy(w, At(t)) <==> t - start.time >= duration.time
    else forall t: real {:trigger DueBy(w, At(t))} :: !DueBy(w, At(t))
  }

  lemma DueAfterItsDuration(w: Waiter, start: Due, duration: Due)
    requires w.due == DueAfter(start, duration)
    ensures DueFor(w, start, duration)
  {
  }

  class VirtualClock {
    var current: Due
    var waiters: seq<Waiter>
    var sequence: nat
    /** Which sleeps have been resolved and rejected, in order. */
    ghost var resolved: seq<nat>
    ghost var rejected: seq<nat>

    /** Everyone still waiting is unsettled, in order, due later than now; each sleep settles at most once. */
    ghost predicate Valid()
      reads this
    {
      Sound(waiters, resolved, rejected, sequence)
    }

    constructor (start: Due)
      ensures Valid() && current == start && waiters == []
    {
      current, waiters, sequence := start, [], 0;
      resolved, rejected := [], [];
    }

    /** A negative duration is refused, an aborted signal rejects at once; otherwise one waiter joins. */
    method Sleep(duration: Due, signal: Option<nat>, signalAborted: bool) returns (outcome: SleepOutcome)
      requires Valid()
      modifies this
      ensures Valid() && resolved == old(resolved) && rejected == old(rejected) && current == old(current)
      ensures outcome.NegativeDuration? <==> duration.At? && duration.time < 0.0
      ensures outcome.Aborted? <==> !outcome.NegativeDuration? && signal.Some? && signalAborted
      ensures !outcome.Waiting? ==> waiters == old(waiters)
      ensures outcome.Waiting? ==>
                sequence == old(sequence) + 1 &&
                waiters == Insert(old(waiters), Waiter(DueAfter(old(current), duration), sequence, signal, false))
      ensures outcome.Waiting? ==> WaitsFor(sequence, old(current), duration, signal)
    {
      if duration.At? && duration.time < 0.0 { return NegativeDuration; }
      if signal.Some? && signalAborted { return Aborted; }
      sequence := sequence + 1;
      var w := Waiter(DueAfter(current, duration), sequence, signal, false);
      InsertKeepsSound(waiters, w, resolved, rejected);
      InsertHas(waiters, w);
      DueAfterItsDuration(w, current, duration);
      waiters := Insert(waiters, w);
      return Waiting;
    }

    /** The sleep is in line, and due when it should be. */
    ghost predicate WaitsFor(sleep: nat, start: Due, duration: Due, signal: Option<nat>)
      reads this
    {
      exists w :: w in waiters && w.sequence == sleep && w.signal == signal && DueFor(w, start, duration)
    }

    function NextTimerTimestamp(): Option<real>
      reads this
    {
      if waiters != [] && waiters[0].due.At? then Some(waiters[0].due.time) else None
    }

    /** The reported timer is the least finite due time, and there is none only if nobody waits finitely. */
    lemma NextTimerIsLeast(i: nat)
      requires Valid() && i < |waiters|
      ensures waiters[i].due.At? ==> NextTimerTimestamp().Some? && NextTimerTimestamp().value <= waiters[i].due.time
      ensures NextTimerTimestamp().Some? ==> waiters[0].due == At(NextTimerTimestamp().value)
    {
      assert i > 0 ==> Before(waiters[0], waiters[i]);
    }

    /**
     * Going backwards is refused; otherwise exactly the waiters due by then are resolved, in order.
     * Going past everything resolves everyone, also those parked forever.
     */
    method AdvanceTo(timestamp: Due) returns (ok: bool)
      requires Valid()
      modifies this
      ensures Valid() && ok == old(current).NoLater(timestamp) && rejected == old(rejected) && sequence == old(sequence)
      ensures !ok ==> current == old(current) && waiters == old(waiters) && resolved == old(resolved)
      ensures ok ==>
                && current == timestamp
                && waiters == old(waiters)[Ready(old(waiters), timestamp)..]
                && resolved == old(resolved) + Ids(old(waiters)[..Ready(old(waiters), timestamp)])
      ensures timestamp.Never? ==> ok && waiters == [] && resolved == old(resolved) + Ids(old(waiters))
    {
      if !current.NoLater(timestamp) { return false; }
      current := timestamp;
      AdvanceKeepsSound(waiters, Ready(waiters, timestamp), resolved, rejected, sequence);
      EveryoneIsReady(waiters);
      ResolveDue(timestamp);
      return true;
    }

    method ResolveDue(timestamp: Due)
      requires InOrder(waiters) && AllUnsettled(waiters)
      modifies this`waiters, this`resolved
      ensures waiters == old(waiters)[Ready(old(waiters), timestamp)..]
      ensures resolved == old(resolved) + Ids(old(waiters)[..Ready(old(waiters), timestamp)])
    {
      ghost var n := Ready(waiters, timestamp);
      Settle(timestamp);
      UnsettledSuffix(waiters, n);
      assert waiters[n..] == old(waiters)[n..];
      DiscardSettled();
    }

    /** Mark and resolve the due waiters where they stand. */
    method Settle(timestamp: Due)
      requires InOrder(waiters) && AllUnsettled(waiters)
      modifies this`waiters, this`resolved
      ensures |waiters| == |old(waiters)|
      ensures forall i | 0 <= i < |waiters| ::
                waiters[i] == old(waiters)[i].(settled := i < Ready(old(waiters), timestamp))
      ensures resolved == old(resolved) + Ids(old(waiters)[..Ready(old(waiters), timestamp)])
    {
      ghost var n := Ready(waiters, timestamp);
      var i := 0;
      while i < |waiters|
        invariant 0 <= i <= |waiters| == |old(waiters)|
        invariant forall k | 0 <= k < |waiters| :: waiters[k] == old(waiters)[k].(settled := k < i && k < n)
        invariant resolved == old(resolved) + Ids(old(waiters)[..if i <= n then i else n])
      {
        ReadyIsExact(old(waiters), timestamp, i);
        if !waiters[i].settled && DueBy(waiters[i], timestamp) {
          resolved := resolved + [waiters[i].sequence];
          waiters := waiters[i := waiters[i].(settled := true)];
        }
        i := i + 1;
      }
    }

    method DiscardSettled()
      modifies this`waiters
      ensures waiters == Unsettled(old(waiters))
    {
      var index := |waiters| - 1;
      while index >= 0
        invariant -1 <= index < |old(waiters)|
        invariant waiters == old(waiters)[..index + 1] + Unsettled(old(waiters)[index + 1..])
      {
        ghost var tail := old(waiters)[index + 1..];
        assert old(waiters)[index..] == [old(waiters)[index]] + tail;
        if waiters[index].settled {
          waiters := waiters[..index] + waiters[index + 1..];
        }
        index := index - 1;
      }
    }

    /** The abort listener of one sleep runs; a sleep that is already settled stays as it is. */
    method OnAbort(sleep: nat)
      requires Valid()
      modifies this`waiters, this`rejected
      ensures Valid() && sequence == old(sequence) && current == old(current)
      ensures Position(old(waiters), sleep) == |old(waiters)| ==> waiters == old(waiters) && rejected == old(rejected)
      ensures Position(old(waiters), sleep) < |old(waiters)| ==>
                && waiters == RemoveAt(old(waiters), Position(old(waiters), sleep))
                && rejected == old(rejected) + [sleep]
    {
      var at := Position(waiters, sleep);
      if at == |waiters| { return; }
      RejectKeepsSound(waiters, at, resolved, rejected, sequence);
      Reject(at);
    }

    method Reject(at: nat)
      requires at < |waiters| && AllUnsettled(waiters)
      modifies this`waiters, this`rejected
      ensures waiters == RemoveAt(old(waiters), at) && rejected == old(rejected) + [old(waiters)[at].sequence]
    {
      MarkedExcept(waiters, at);
      rejected := rejected + [waiters[at].sequence];
      waiters := waiters[at := waiters[at].(settled := true)];
      DiscardSettled();
    }
  }

  function Position(ws: seq<Waiter>, sleep: nat): (i: nat)
    ensures i <= |ws| && (i < |ws| ==> ws[i].sequence == sleep)
    ensures forall j | 0 <= j < i :: ws[j].sequence != sleep
  {
    if ws == [] || ws[0].sequence == sleep then 0 else 1 + Position(ws[1..], sleep)
  }

  /** Every sleep that was started is waiting, resolved or rejected: exactly one of these, exactly once. */
  ghost predicate Ledger(ws: seq<Waiter>, resolved: seq<nat>, rejected: seq<nat>, last: nat) {
    forall k: nat ::
      multiset(Ids(ws))[k] + multiset(resolved)[k] + multiset(rejected)[k] == if 1 <= k <= last then 1 else 0
  }

  lemma IdsJoin(a: seq<Waiter>, b: seq<Waiter>)
    ensures Ids(a + b) == Ids(a) + Ids(b)
  {
  }

  lemma InsertIds(ws: seq<Waiter>, w: Waiter)
    ensures multiset(Ids(Insert(ws, w))) == multiset(Ids(ws)) + multiset{w.sequence}
  {
    var p := Place(ws, w);
    var a, b := Ids(ws[..p]), Ids(ws[p..]);
    assert Ids(ws) == a + b by {
      assert ws == ws[..p] + ws[p..];
      IdsJoin(ws[..p], ws[p..]);
    }
    assert Ids(Insert(ws, w)) == a + [w.sequence] + b by {
      IdsJoin(ws[..p], [w]);
      IdsJoin(ws[..p] + [w], ws[p..]);
      assert Ids([w]) == [w.sequence];
    }
  }

  ghost predicate AllUnsettled(ws: seq<Waiter>) {
    forall i | 0 <= i < |ws| :: !ws[i].settled
  }

  ghost predicate Sound(ws: seq<Waiter>, resolved: seq<nat>, rejected: seq<nat>, last: nat) {
    InOrder(ws) && AllUnsettled(ws) && Ledger(ws, resolved, rejected, last)
  }

  lemma Numbered(ws: seq<Waiter>, resolved: seq<nat>, rejected: seq<nat>, last: nat, w: Waiter)
    requires Ledger(ws, resolved, rejected, last) && w in ws
    ensures 1 <= w.sequence <= last
  {
    var i :| 0 <= i < |ws| && ws[i] == w;
    assert Ids(ws)[i] == w.sequence && w.sequence in multiset(Ids(ws));
  }

  lemma InsertKeepsSound(ws: seq<Waiter>, w: Waiter, resolved: seq<nat>, rejected: seq<nat>)
    requires w.sequence > 0 && Sound(ws, resolved, rejected, w.sequence - 1) && !w.settled
    ensures Sound(Insert(ws, w), resolved, rejected, w.sequence)
  {
    forall i | 0 <= i < |ws|
      ensures ws[i].sequence < w.sequence
    {
      Numbered(ws, resolved, rejected, w.sequence - 1, ws[i]);
    }
    InsertKeepsOrder(ws, w);
    InsertIds(ws, w);
  }

  lemma AdvanceKeepsSound(ws: seq<Waiter>, n: nat, resolved: seq<nat>, rejected: seq<nat>, last: nat)
    requires n <= |ws| && Sound(ws, resolved, rejected, last)
    ensures Sound(ws[n..], resolved + Ids(ws[..n]), rejected, last)
  {
    assert ws == ws[..n] + ws[n..];
    IdsJoin(ws[..n], ws[n..]);
  }

  lemma RejectKeepsSound(ws: seq<Waiter>, at: nat, resolved: seq<nat>, rejected: seq<nat>, last: nat)
    requires at < |ws| && Sound(ws, resolved, rejected, last)
    ensures Sound(RemoveAt(ws, at), resolved, rejected + [ws[at].sequence], last)
  {
    assert ws == ws[..at] + ([ws[at]] + ws[at + 1..]);
    IdsJoin(ws[..at], [ws[at]] + ws[at + 1..]);
    IdsJoin([ws[at]], ws[at + 1..]);
    IdsJoin(ws[..at], ws[at + 1..]);
    assert Ids([ws[at]]) == [ws[at].sequence];
  }

  lemma MarkedExcept(ws: seq<Waiter>, at: nat)
    requires at < |ws| && AllUnsettled(ws)
    ensures Unsettled(ws[at := ws[at].(settled := true)]) == RemoveAt(ws, at)
  {
    var marked := ws[at := ws[at].(settled := true)];
    UnsettledExcept(marked, at);
    assert marked[..at] == ws[..at] && marked[at + 1..] == ws[at + 1..];
  }
}
