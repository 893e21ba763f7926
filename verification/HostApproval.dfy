/**
 * The approval controller over its deadline object. Its operations refine the FIFO of ApprovalFifo,
 * and `Valid` is the coupling of the two objects that every operation keeps.
 */
module HostApproval {
  import opened Common
  import opened ApprovalFifo
  import opened PendingDecisions
  import opened ApprovalRuns
  import opened ApprovalMeaning

  function LineOf(current: Option<Entry>, queue: seq<Entry>): seq<Entry> {
    if current.Some? then [current.value] + queue else queue
  }

  /** No head without a queue behind it being empty, and everyone in offer order, waiting. */
  ghost predicate Orderly(current: Option<Entry>, queue: seq<Entry>, next: nat) {
    && (current.None? ==> queue == [])
    && (current.Some? ==> current.value.serial < next)
    && Ascending(queue, next)
    && forall i {:trigger queue[i].serial} {:trigger queue[i].phase} {:trigger queue[i].held} | 0 <= i < |queue| ::
         queue[i].serial > current.value.serial && queue[i].phase.Pending? && !queue[i].held
  }

  /** The identities of the entries of one work, in line order. */
  function OwnedSerials(entries: seq<Entry>, work: string): seq<nat> {
    if entries == [] then []
    else (if entries[0].work == Some(work) then [entries[0].serial] else []) + OwnedSerials(entries[1..], work)
  }

  function NextHead(queue: seq<Entry>, now: real, holds: set<Hold>): Option<Entry> {
    if queue == [] then None else Some(Armed(queue[0], now, holds))
  }

  function NextQueue(queue: seq<Entry>): seq<Entry> {
    if queue == [] then [] else queue[1..]
  }

  class HostApprovalController {
    const clock: HostClock
    const decision: PendingDecision
    const capacity: nat
    var current: Option<Entry>
    var queue: seq<Entry>
    var holds: set<Hold>
    /** Identity for the next entry object, and the abort signals that have fired. */
    var nextSerial: nat
    var aborted: set<nat>
    ghost var settled: seq<Settlement>
    ghost var spent: seq<Settlement>

    ghost function Model(): Fifo
      reads this, clock
    {
      Fifo(clock.now, capacity, LineOf(current, queue), holds, nextSerial, aborted, settled, spent)
    }

    /** The deadline object runs, or is parked, for exactly this entry and with its expiry. */
    ghost predicate DeadlineOf(e: Entry)
      reads decision
    {
      && decision.current.Some?
      && decision.current.value.payload == e.serial
      && decision.current.value.expiresAt == e.expiresAt
      && decision.current.value.held == e.held
      && (!e.held ==> decision.current.value.abort in decision.sleepers
                      && decision.sleepers[decision.current.value.abort].due == e.expiresAt)
    }

    ghost predicate Sound()
      reads this, decision
    {
      && decision.Valid() && decision.clock == clock
      && Orderly(current, queue, nextSerial)
    }

    /** The coupling: a deadline exists exactly for a pending head, and then the two agree. */
    ghost predicate Valid()
      reads this, decision
    {
      && Sound()
      && (decision.current.Some? <==> current.Some? && current.value.phase.Pending?)
      && (decision.current.Some? ==> DeadlineOf(current.value))
    }

    constructor (clock: HostClock, capacity: nat)
      ensures Valid() && fresh(decision) && this.clock == clock
      ensures Model() == Init(clock.now, capacity)
    {
      var deadline := new PendingDecision(clock);
      this.clock := clock;
      this.decision := deadline;
      this.capacity := capacity;
      current, queue, holds, nextSerial, aborted := None, [], {}, 0, {};
      settled, spent := [], [];
    }

    // ---------- Private steps ----------

    method Arm(entry: Entry)
      requires decision.Valid() && decision.clock == clock
      modifies this`current, decision
      ensures current == Some(Armed(entry, clock.now, holds))
      ensures decision.Valid() && DeadlineOf(current.value)
    {
      var armed := entry.(expiresAt := clock.now + APPROVAL_TTL_SECONDS, held := false);
      var _ := decision.Offer(armed.serial, armed.expiresAt);
      if holds != {} || armed.awaitingPresentation {
        armed := armed.(held := true);
        var _ := decision.Hold(armed.serial);
      }
      current := Some(armed);
    }

    /** The head's place becomes free, a project hold ends with it, and the next entry is promoted. */
    method PromoteNext()
      requires decision.Valid() && decision.clock == clock
      modifies this`current, this`queue, this`holds, decision
      ensures decision.Valid() && holds == old(holds) - {Project}
      ensures current == NextHead(old(queue), clock.now, holds) && queue == NextQueue(old(queue))
      ensures current.None? ==> decision.current == old(decision.current)
      ensures current.Some? ==> DeadlineOf(current.value)
    {
      current := None;
      holds := holds - {Project};
      if queue != [] {
        var next := queue[0];
        queue := queue[1..];
        Arm(next);
      }
    }

    /** The next entry displaces the leaving head's deadline before that deadline is consumed. */
    method RemoveHead()
      requires decision.Valid() && decision.clock == clock && current.Some?
      requires decision.current.Some? ==> decision.current.value.payload == current.value.serial
      requires queue != [] ==> queue[0].serial != current.value.serial
      modifies this`current, this`queue, this`holds, decision
      ensures decision.Valid() && holds == old(holds) - {Project}
      ensures current == NextHead(old(queue), clock.now, holds) && queue == NextQueue(old(queue))
      ensures current.None? ==> decision.current == None
      ensures current.Some? ==> DeadlineOf(current.value)
    {
      var leaving := current.value.serial;
      PromoteNext();
      var _ := decision.Consume(leaving);
    }

    /** Remove one entry wherever it sits, declining it if still undecided. */
    method Drop(entry: Entry)
      requires Sound() && entry in LineOf(current, queue)
      requires Valid() || (decision.current == None && current == Some(entry))
      modifies this, decision
      ensures Valid()
      ensures Model() == ApprovalFifo.Drop(old(Model()), SerialIndex(old(LineOf(current, queue)), entry.serial))
    {
      ghost var place := SerialIndex(LineOf(current, queue), entry.serial);
      if current.Some? && current.value.serial == entry.serial {
        assert place == 0 by { FindInLine(current, queue, nextSerial, entry); }
        DropHead();
      } else {
        var index := SerialIndex(queue, entry.serial);
        assert index < |queue| && queue[index] == entry && place == 1 + index by {
          FindInLine(current, queue, nextSerial, entry);
        }
        DropQueued(entry, index);
      }
    }

    method DropHead()
      requires Sound() && current.Some?
      requires Valid() || decision.current == None
      modifies this, decision
      ensures Valid() && Model() == ApprovalFifo.Drop(old(Model()), 0)
    {
      HeadLeaves(Model(), current.value, queue, nextSerial);
      if current.value.phase.Pending? {
        settled := settled + [Settlement(current.value.serial, Decline)];
      }
      RemoveHead();
    }

    method DropQueued(entry: Entry, index: nat)
      requires Valid() && index < |queue| && queue[index] == entry
      modifies this, decision
      ensures Valid() && Model() == ApprovalFifo.Drop(old(Model()), 1 + index)
    {
      QueuedLeaves(Model(), current.value, queue, nextSerial, index);
      queue := queue[..index] + queue[index + 1..];
      var consumed := decision.Consume(entry.serial);
      assert !consumed && Orderly(current, queue, nextSerial);
      settled := settled + [Settlement(entry.serial, Decline)];
    }

    // ---------- Operations ----------

    method Offer(id: string, work: Option<string>, allowed: Option<set<Decision>>, signal: nat)
      returns (outcome: Outcome)
      requires Valid()
      modifies this, decision
      ensures Valid() && (Model(), outcome) == ApprovalFifo.Offer(old(Model()), id, work, allowed, signal)
      ensures Offers(old(Model()), id, work, allowed, signal, Model(), outcome)
    {
      OfferMeans(Model(), id, work, allowed, signal);
      if signal in aborted { return Aborted; }
      var pending := LineOf(current, queue);
      if |pending| >= capacity || HasWork(pending, work) { return Refused; }
      if !ValidId(id) { return InvalidId; }
      var entry := Entry(nextSerial, id, work, allowed, signal, 0.0, false, Background in holds, Pending);
      Join(entry);
      return Admitted(entry.serial);
    }

    method Join(entry: Entry)
      requires Valid() && entry.serial == nextSerial && entry.phase.Pending? && !entry.held
      modifies this, decision
      ensures Valid() && Model() == Enqueue(old(Model()), entry)
    {
      JoinedLine(Model(), current, queue, entry);
      nextSerial := nextSerial + 1;
      if current.None? {
        Arm(entry);
      } else {
        queue := queue + [entry];
      }
    }

    method AcceptDecision(id: string, answer: Decision) returns (accepted: bool)
      requires Valid()
      modifies this, decision
      ensures Valid() && (Model(), accepted) == ApprovalFifo.AcceptDecision(old(Model()), id, answer)
      ensures Accepts(old(Model()), id, answer, Model(), accepted)
    {
      AcceptMeans(Model(), id, answer);
      if current.None? || current.value.phase.Responding? || id != current.value.id
         || answer !in current.value.Allowed() { return false; }
      if (!current.value.held && clock.now >= current.value.expiresAt) || current.value.signal in aborted {
        Drop(current.value);
        return false;
      }
      HeadChanges(Model(), current.value, queue);
      current := Some(current.value.(phase := Responding(answer)));
      var _ := decision.Consume(current.value.serial);
      settled := settled + [Settlement(current.value.serial, answer)];
      return true;
    }

    method Consume(r: Resolution) returns (answer: Decision)
      requires Valid()
      modifies this, decision
      ensures Valid() && (Model(), answer) == ApprovalFifo.Consume(old(Model()), r)
      ensures Consumes(old(Model()), r, Model(), answer)
    {
      ConsumeMeans(Model(), r);
      if current.None? || current.value.phase.Pending?
         || r != Resolution(Some(current.value.serial), current.value.phase.decision)
         || current.value.signal in aborted { return Decline; }
      SpendHead(r.decision);
      return r.decision;
    }

    method SpendHead(answer: Decision)
      requires Valid() && current.Some? && current.value.phase.Responding?
      modifies this, decision
      ensures Valid()
      ensures Model() ==
        Remove(old(Model()), 0).(spent := old(spent) + [Settlement(old(current).value.serial, answer)])
    {
      assert Remove(Model(), 0).entries ==
             LineOf(NextHead(queue, clock.now, holds - {Project}), NextQueue(queue)) by {
        HeadLeaves(Model(), current.value, queue, nextSerial);
      }
      spent := spent + [Settlement(current.value.serial, answer)];
      DetachHead();
    }

    /** An answered head has no deadline any more; its place becomes free. */
    method DetachHead()
      requires Valid() && current.Some? && current.value.phase.Responding?
      modifies this`current, this`queue, this`holds, decision
      ensures Valid() && holds == old(holds) - {Project}
      ensures current == NextHead(old(queue), clock.now, holds) && queue == NextQueue(old(queue))
    {
      assert Orderly(NextHead(queue, clock.now, holds - {Project}), NextQueue(queue), nextSerial)
             && (queue != [] ==> queue[0].phase.Pending?) by {
        HeadLeaves(Model(), current.value, queue, nextSerial);
      }
      var consumed := decision.Consume(current.value.serial);
      assert !consumed;
      PromoteNext();
    }

    method Hold(reason: Hold) returns (held: bool)
      requires Valid()
      modifies this, decision
      ensures Valid() && (Model(), held) == HoldLine(old(Model()), reason)
      ensures Holds(old(Model()), reason, Model(), held)
      decreases if current.Some? && current.value.Expired(clock.now) then 1 else 0
    {
      HoldMeans(Model(), reason);
      if reason in holds { return false; }
      if current.None? && reason == Project { return false; }
      if current.Some? && current.value.Expired(clock.now) {
        HeadStarts(Model());
        Drop(current.value);
        assert current.Some? ==> LineOf(current, queue)[0] == current.value;
        held := Hold(reason);
        return;
      }
      ParkAll(reason);
      return true;
    }

    method ParkAll(reason: Hold)
      requires Valid()
      modifies this, decision
      ensures Valid() && Model() == Park(old(Model()), reason)
    {
      ParkedLine(Model(), current, queue, reason);
      holds := holds + {reason};
      if reason == Background { GateLine(); }
      ParkHead();
    }

    /** Everything in line waits to be presented. */
    method GateLine()
      requires Valid()
      modifies this`current, this`queue
      ensures Valid() && queue == Gate(old(queue))
      ensures current == if old(current).None? then None
                         else Some(old(current).value.(awaitingPresentation := true))
    {
      if current.Some? { current := Some(current.value.(awaitingPresentation := true)); }
      GateQueue();
    }

    /** A pending head is held, and so is its deadline. */
    method ParkHead()
      requires Valid()
      modifies this`current, decision
      ensures Valid()
      ensures current == if old(current).Some? && old(current).value.phase.Pending?
                         then Some(old(current).value.(held := true)) else old(current)
    {
      if current.Some? && current.value.phase.Pending? {
        current := Some(current.value.(held := true));
        var _ := decision.Hold(current.value.serial);
      }
    }

    method GateQueue()
      modifies this`queue
      ensures queue == Gate(old(queue))
    {
      var i := 0;
      while i < |queue|
        invariant i <= |queue| == |old(queue)|
        invariant forall j | 0 <= j < i :: queue[j] == old(queue)[j].(awaitingPresentation := true)
        invariant forall j | i <= j < |queue| :: queue[j] == old(queue)[j]
      {
        queue := queue[i := queue[i].(awaitingPresentation := true)];
        i := i + 1;
      }
    }

    method Release(reason: Hold, awaitPresentation: bool) returns (released: bool)
      requires Valid()
      modifies this, decision
      ensures Valid() && (Model(), released) == ReleaseLine(old(Model()), reason, awaitPresentation)
      ensures Releases(old(Model()), reason, awaitPresentation, Model(), released)
    {
      ReleaseMeans(Model(), reason, awaitPresentation);
      if current.Some? { HeadChanges(Model(), current.value, queue); }
      var removed := reason in holds;
      holds := holds - {reason};
      if !removed && !(reason == Background && current.Some? && current.value.awaitingPresentation) {
        assert holds == old(holds);
        return false;
      }
      if reason == Background && current.Some? && !awaitPresentation {
        current := Some(current.value.(awaitingPresentation := false));
      }
      if holds == {} && current.Some? && current.value.phase.Pending? && current.value.held
         && !current.value.awaitingPresentation {
        current := Some(current.value.(held := false, expiresAt := clock.now + APPROVAL_TTL_SECONDS));
        var _ := decision.Release(current.value.serial, current.value.expiresAt);
      }
      return true;
    }

    method Invalidate() returns (dropped: bool)
      requires Valid()
      modifies this, decision
      ensures Valid() && (Model(), dropped) == ApprovalFifo.Invalidate(old(Model()))
      ensures dropped <==> old(current).Some?
      ensures dropped ==> current.None? || current.value.serial != old(current).value.serial
    {
      if current.None? { return false; }
      Drop(current.value);
      return true;
    }

    /** Every entry of the work is dropped, in line order. */
    method InvalidateWork(work: string) returns (dropped: bool)
      requires Valid()
      modifies this, decision
      ensures Valid() && (Model(), dropped) == ApprovalFifo.InvalidateWork(old(Model()), work)
    {
      var owned := OwnedSerials(LineOf(current, queue), work);
      var i := 0;
      while i < |owned|
        invariant Valid() && 0 <= i <= |owned|
        invariant OwnedSerials(Model().entries, work) == owned[i..]
        invariant DropOwned(Model(), work) == DropOwned(old(Model()), work)
      {
        ghost var place := WorkIndex(Model().entries, work);
        FirstOwned(Model(), work);
        OwnPlace(current, queue, nextSerial, place);
        DropSerial(owned[i]);
        i := i + 1;
      }
      FirstOwned(Model(), work);
      FirstOwned(old(Model()), work);
      return owned != [];
    }

    /** Drop the entry object of this identity if it is still in line. */
    method DropSerial(serial: nat)
      requires Valid()
      modifies this, decision
      ensures Valid()
      ensures var f := old(Model());
        var place := SerialIndex(f.entries, serial);
        Model() == if place < |f.entries| then ApprovalFifo.Drop(f, place) else f
    {
      var all := LineOf(current, queue);
      var place := SerialIndex(all, serial);
      if place < |all| { Drop(all[place]); }
    }

    method SignalAborts(signal: nat)
      requires Valid()
      modifies this`aborted
      ensures Valid() && Model() == Step(old(Model()), AbortOp(signal))
      ensures aborted == old(aborted) + {signal}
    {
      aborted := aborted + {signal};
    }

    method RunAbortListener(serial: nat)
      requires Valid()
      modifies this, decision
      ensures Valid() && Model() == AbortListener(old(Model()), serial)
    {
      var all := LineOf(current, queue);
      var i := SerialIndex(all, serial);
      if i < |all| && all[i].signal in aborted {
        Drop(all[i]);
      }
    }

    /** Any sleeper may wake at any time; only the live one, and only at its deadline, expires the head. */
    method TimerWakes(signal: nat)
      requires Valid() && signal in decision.sleepers
      modifies this, decision
      ensures Valid() && Model() == if old(decision.IsLive(signal)) then Expire(old(Model())) else old(Model())
    {
      var expired := decision.Wake(signal);
      if expired.Some? {
        Drop(current.value);
      }
    }

    /** A running head always has its timer: one that sleeps, unaborted, until exactly its deadline. */
    lemma RunningHeadHasTimer()
      requires Valid() && current.Some? && current.value.phase.Pending? && !current.value.held
      ensures exists s :: s in decision.sleepers && decision.IsLive(s) && s !in decision.aborted
                          && decision.sleepers[s].due == current.value.expiresAt
    {
      assert decision.IsLive(decision.current.value.abort);
    }
  }

  // ---------- The two fields as one line ----------

  lemma OwnPlace(current: Option<Entry>, queue: seq<Entry>, next: nat, i: nat)
    requires Orderly(current, queue, next) && i < |LineOf(current, queue)|
    ensures SerialIndex(LineOf(current, queue), LineOf(current, queue)[i].serial) == i
  {
    var line := LineOf(current, queue);
    assert Ascending(line, next);
    PlaceInLine(line, next, line[i]);
  }

  lemma {:induction false} OwnedBehind(a: seq<Entry>, b: seq<Entry>, work: string)
    requires forall i | 0 <= i < |a| :: a[i].work != Some(work)
    ensures OwnedSerials(a + b, work) == OwnedSerials(b, work)
  {
    if a == [] {
      assert a + b == b;
    } else {
      OwnedBehind(a[1..], b, work);
      HeadFirst(a, b);
    }
  }

  lemma OwnedWithoutFirst(entries: seq<Entry>, work: string)
    ensures var i := WorkIndex(entries, work);
      && (OwnedSerials(entries, work) == [] <==> i == |entries|)
      && (i < |entries| ==>
            && OwnedSerials(entries, work)[0] == entries[i].serial
            && OwnedSerials(entries[..i] + entries[i + 1..], work) == OwnedSerials(entries, work)[1..])
  {
    var i := WorkIndex(entries, work);
    assert entries == entries[..i] + entries[i..];
    OwnedBehind(entries[..i], entries[i..], work);
    if i < |entries| {
      OwnedBehind(entries[..i], entries[i + 1..], work);
      assert entries[i..][1..] == entries[i + 1..];
    }
  }

  /** The first entry of the work goes; its others stay, also if one of them is promoted. */
  lemma FirstOwned(f: Fifo, work: string)
    ensures var i := WorkIndex(f.entries, work);
      && (OwnedSerials(f.entries, work) == [] <==> i == |f.entries|)
      && (i < |f.entries| ==>
            && OwnedSerials(f.entries, work)[0] == f.entries[i].serial
            && OwnedSerials(Drop(f, i).entries, work) == OwnedSerials(f.entries, work)[1..])
  {
    OwnedWithoutFirst(f.entries, work);
    var i := WorkIndex(f.entries, work);
    if i < |f.entries| {
      var rest := f.entries[..i] + f.entries[i + 1..];
      ArmingKeepsOwned(rest, f.now, f.holds - {Project}, work);
      assert Remove(f, i).entries == rest || Remove(f, i).entries == ArmHead(rest, f.now, f.holds - {Project});
    }
  }

  lemma ArmingKeepsOwned(entries: seq<Entry>, now: real, holds: set<Hold>, work: string)
    ensures OwnedSerials(ArmHead(entries, now, holds), work) == OwnedSerials(entries, work)
  {
    if entries != [] {
      assert ArmHead(entries, now, holds)[1..] == entries[1..];
    }
  }

  lemma FindInLine(current: Option<Entry>, queue: seq<Entry>, next: nat, e: Entry)
    requires Orderly(current, queue, next) && e in LineOf(current, queue)
    ensures current.Some?
    ensures e.serial == current.value.serial ==>
              e == current.value && SerialIndex(LineOf(current, queue), e.serial) == 0
    ensures e.serial != current.value.serial ==>
              && SerialIndex(queue, e.serial) < |queue| && queue[SerialIndex(queue, e.serial)] == e
              && SerialIndex(LineOf(current, queue), e.serial) == 1 + SerialIndex(queue, e.serial)
  {
    var line := LineOf(current, queue);
    assert line[1..] == queue;
    if e in queue {
      PlaceInLine(queue, next, e);
    }
  }

  lemma HeadLeaves(f: Fifo, head: Entry, queue: seq<Entry>, next: nat)
    requires f.entries == LineOf(Some(head), queue) && Orderly(Some(head), queue, next)
    ensures queue != [] ==> queue[0].serial != head.serial && queue[0].phase.Pending?
    ensures var holds := f.holds - {Project};
      && Orderly(NextHead(queue, f.now, holds), NextQueue(queue), next)
      && Remove(f, 0).entries == LineOf(NextHead(queue, f.now, holds), NextQueue(queue))
  {
    assert f.entries[..0] + f.entries[1..] == queue;
    NextInOrder(head, queue, next, f.now, f.holds - {Project});
  }

  lemma NextInOrder(head: Entry, queue: seq<Entry>, next: nat, now: real, holds: set<Hold>)
    requires Orderly(Some(head), queue, next)
    ensures Orderly(NextHead(queue, now, holds), NextQueue(queue), next)
  {
    if queue != [] {
      assert forall i | 0 <= i < |queue| - 1 :: queue[1..][i] == queue[i + 1] && queue[0].serial < queue[i + 1].serial;
    }
  }

  lemma HeadChanges(f: Fifo, head: Entry, queue: seq<Entry>)
    requires f.entries == LineOf(Some(head), queue)
    ensures f.entries != [] && f.entries[0] == head
    ensures forall to: Entry :: f.entries[0 := to] == LineOf(Some(to), queue)
  {
  }

  lemma JoinedLine(f: Fifo, current: Option<Entry>, queue: seq<Entry>, e: Entry)
    requires f.entries == LineOf(current, queue) && Orderly(current, queue, f.nextSerial)
    requires e.serial == f.nextSerial && e.phase.Pending? && !e.held
    ensures current.None? ==> Enqueue(f, e).entries == LineOf(Some(Armed(e, f.now, f.holds)), queue)
    ensures current.Some? ==> Enqueue(f, e).entries == LineOf(current, queue + [e])
    ensures current.Some? ==> Orderly(current, queue + [e], e.serial + 1)
  {
  }

  lemma ParkedLine(f: Fifo, current: Option<Entry>, queue: seq<Entry>, reason: Hold)
    requires f.entries == LineOf(current, queue) && (current.None? ==> queue == [])
    ensures var gate := reason == Background;
      Park(f, reason).entries == LineOf(
        if current.None? then None
        else Some(current.value.(awaitingPresentation := current.value.awaitingPresentation || gate,
                                 held := current.value.held || current.value.phase.Pending?)),
        if gate then Gate(queue) else queue)
  {
    if current.Some? {
      var head := current.value;
      if reason == Background {
        GatedLine(head, queue);
        HeadReplaced(head.(awaitingPresentation := true), Gate(queue));
      } else {
        HeadReplaced(head, queue);
      }
    }
  }

  lemma GatedLine(head: Entry, queue: seq<Entry>)
    ensures Gate([head] + queue) == [head.(awaitingPresentation := true)] + Gate(queue)
  {
  }

  lemma HeadReplaced(head: Entry, queue: seq<Entry>)
    ensures var line := [head] + queue;
      line[0] == head && line[0 := head.(held := true)] == [head.(held := true)] + queue
  {
  }

  /** A promoted head starts with a full TTL, so a hold that dropped its head runs at most once more. */
  lemma HeadStarts(f: Fifo)
    requires f.entries != []
    ensures Drop(f, 0).entries != [] ==> !Drop(f, 0).entries[0].Expired(f.now)
  {
  }

  lemma QueuedLeaves(f: Fifo, head: Entry, queue: seq<Entry>, next: nat, i: nat)
    requires f.entries == LineOf(Some(head), queue) && Orderly(Some(head), queue, next) && i < |queue|
    ensures f.entries[1 + i] == queue[i] && queue[i].phase.Pending? && queue[i].serial != head.serial
    ensures Remove(f, 1 + i).entries == LineOf(Some(head), queue[..i] + queue[i + 1..])
    ensures Orderly(Some(head), queue[..i] + queue[i + 1..], next)
  {
    var rest := queue[..i] + queue[i + 1..];
    assert forall j | 0 <= j < |rest| :: rest[j] == queue[if j < i then j else j + 1];
    assert f.entries[..1 + i] + f.entries[2 + i..] == [head] + rest;
  }
}
