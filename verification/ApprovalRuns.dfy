/** What every operation of the permission FIFO keeps, and what follows over whole runs. */
module ApprovalRuns {
  import opened Common
  import opened ApprovalFifo

  // ---------- One removal ----------

  lemma RemoveAt(f: Fifo, i: nat)
    requires i < |f.entries|
    ensures |Remove(f, i).entries| == |f.entries| - 1
    ensures forall j | 0 <= j < |f.entries| - 1 ::
              var was := f.entries[if j < i then j else j + 1];
              var now := Remove(f, i).entries[j];
              && now.serial == was.serial && now.work == was.work && now.phase == was.phase
              && now.awaitingPresentation == was.awaitingPresentation
              && (j > 0 || i > 0 ==> now == was)
  {
  }

  lemma RemoveKeepsOrder(f: Fifo, i: nat)
    requires i < |f.entries| && InOfferOrder(f)
    ensures InOfferOrder(Remove(f, i))
  {
    RemoveAt(f, i);
  }

  lemma RemoveAgrees(f: Fifo, i: nat)
    requires i < |f.entries| && HoldsAgree(f)
    ensures HoldsAgree(Remove(f, i))
  {
    RemoveAt(f, i);
    if i == 0 && |f.entries| > 1 {
      assert Remove(f, i).entries[0] == Armed(f.entries[1], f.now, Remove(f, i).holds);
    }
  }

  lemma RemoveLists(f: Fifo, i: nat, k: nat)
    requires i < |f.entries| && InOfferOrder(f)
    ensures Listed(Remove(f, i).entries, k) <==> Listed(f.entries, k) && k != f.entries[i].serial
    ensures PendingIn(Remove(f, i).entries, k) <==> PendingIn(f.entries, k) && k != f.entries[i].serial
  {
    RemoveAt(f, i);
    var g := Remove(f, i);
    forall j | 0 <= j < |f.entries| && j != i
      ensures exists m :: 0 <= m < |g.entries| &&
                g.entries[m].serial == f.entries[j].serial && g.entries[m].phase == f.entries[j].phase
    {
      var m := if j < i then j else j - 1;
      assert g.entries[m].serial == f.entries[j].serial;
    }
  }

  lemma RecordedAppend(log: seq<Settlement>, s: Settlement, k: nat)
    ensures Recorded(log + [s], k) <==> Recorded(log, k) || k == s.serial
  {
    var longer := log + [s];
    assert longer[|log|] == s;
    if Recorded(log, k) {
      var i :| 0 <= i < |log| && log[i].serial == k;
      assert longer[i].serial == k;
    }
  }

  lemma OnceAppend(log: seq<Settlement>, s: Settlement)
    requires Once(log) && !Recorded(log, s.serial)
    ensures Once(log + [s])
  {
  }

  lemma RemoveKeepsResponders(f: Fifo, i: nat, x: Entry)
    requires i < |f.entries| && x in Remove(f, i).entries && x.phase.Responding?
    ensures exists was :: was in f.entries && was.phase == x.phase && was.serial == x.serial
  {
    RemoveAt(f, i);
    var g := Remove(f, i);
    var j :| 0 <= j < |g.entries| && g.entries[j] == x;
    assert f.entries[if j < i then j else j + 1] in f.entries;
  }

  lemma DropSettles(f: Fifo, i: nat, k: nat)
    requires i < |f.entries| && InOfferOrder(f)
    requires Recorded(f.settled, k) <==> k < f.nextSerial && !PendingIn(f.entries, k)
    ensures Recorded(Drop(f, i).settled, k) <==> k < f.nextSerial && !PendingIn(Drop(f, i).entries, k)
  {
    var e := f.entries[i];
    RemoveLists(f, i, k);
    RecordedAppend(f.settled, Settlement(e.serial, Decline), k);
    if e.phase.Responding? && PendingIn(f.entries, k) {
      var j :| 0 <= j < |f.entries| && f.entries[j].serial == k && f.entries[j].phase.Pending?;
      assert j != i;
    }
  }

  lemma DropKeepsSettled(f: Fifo, i: nat)
    requires i < |f.entries| && InOfferOrder(f) && SettledExactly(f.settled, f.entries, f.nextSerial)
    ensures SettledExactly(Drop(f, i).settled, Drop(f, i).entries, f.nextSerial)
  {
    var g := Drop(f, i);
    forall k: nat
      ensures Recorded(g.settled, k) <==> k < f.nextSerial && !PendingIn(g.entries, k)
    {
      DropSettles(f, i, k);
    }
  }

  lemma DropKeepsOnce(f: Fifo, i: nat)
    requires i < |f.entries| && Once(f.settled) && SettledExactly(f.settled, f.entries, f.nextSerial)
    ensures Once(Drop(f, i).settled)
  {
    var e := f.entries[i];
    if e.phase.Pending? {
      assert PendingIn(f.entries, e.serial);
      OnceAppend(f.settled, Settlement(e.serial, Decline));
    }
  }

  lemma DropKeepsResponders(f: Fifo, i: nat)
    requires i < |f.entries| && RespondersSettled(f.entries, f.settled)
    ensures RespondersSettled(Drop(f, i).entries, Drop(f, i).settled)
  {
    var g := Drop(f, i);
    forall x | x in g.entries && x.phase.Responding?
      ensures Settlement(x.serial, x.phase.decision) in g.settled
    {
      RemoveKeepsResponders(f, i, x);
    }
  }

  lemma DropKeepsSpent(f: Fifo, i: nat)
    requires i < |f.entries| && InOfferOrder(f) && SpentAndGone(f.spent, f.settled, f.entries)
    ensures SpentAndGone(f.spent, Drop(f, i).settled, Drop(f, i).entries)
  {
    forall x | x in f.spent
      ensures !Listed(Drop(f, i).entries, x.serial)
    {
      RemoveLists(f, i, x.serial);
    }
  }

  lemma DropKeepsOrder(f: Fifo, i: nat)
    requires i < |f.entries| && InOfferOrder(f) && HoldsAgree(f)
    ensures InOfferOrder(Drop(f, i)) && HoldsAgree(Drop(f, i))
  {
    RemoveKeepsOrder(f, i);
    RemoveAgrees(f, i);
  }

  lemma DropKeepsInv(f: Fifo, i: nat)
    requires i < |f.entries| && Inv(f)
    ensures Inv(Drop(f, i))
  {
    DropKeepsOrder(f, i);
    DropKeepsSettled(f, i);
    DropKeepsOnce(f, i);
    DropKeepsResponders(f, i);
    DropKeepsSpent(f, i);
  }

  lemma {:induction false} DropOwnedKeepsInv(f: Fifo, work: string)
    requires Inv(f)
    ensures Inv(DropOwned(f, work))
    decreases |f.entries|
  {
    var i := WorkIndex(f.entries, work);
    if i < |f.entries| {
      DropKeepsInv(f, i);
      DropOwnedKeepsInv(Drop(f, i), work);
    }
  }

  lemma PlaceInLine(entries: seq<Entry>, next: nat, e: Entry)
    requires Ascending(entries, next) && e in entries
    ensures var i := SerialIndex(entries, e.serial);
      i < |entries| && entries[i] == e && (i > 0 ==> SerialIndex(entries[1..], e.serial) == i - 1)
  {
    var n :| 0 <= n < |entries| && entries[n] == e;
    assert SerialIndex(entries, e.serial) == n;
  }

  // ---------- Every operation keeps the invariant ----------

  ghost predicate SameLine(f: Fifo, g: Fifo) {
    && |g.entries| == |f.entries|
    && (forall i | 0 <= i < |f.entries| ::
          && g.entries[i].serial == f.entries[i].serial
          && g.entries[i].work == f.entries[i].work
          && g.entries[i].phase == f.entries[i].phase)
    && g.settled == f.settled && g.spent == f.spent
    && g.nextSerial == f.nextSerial && g.capacity == f.capacity
  }

  /** Order and ledger depend only on who is in line and in which phase. */
  lemma SameLineKeeps(f: Fifo, g: Fifo)
    requires InOfferOrder(f) && LedgerAgrees(f) && SameLine(f, g)
    ensures InOfferOrder(g) && LedgerAgrees(g)
  {
    forall k: nat
      ensures PendingIn(g.entries, k) <==> PendingIn(f.entries, k)
      ensures Listed(g.entries, k) <==> Listed(f.entries, k)
    {
    }
    forall x | x in g.entries && x.phase.Responding?
      ensures Settlement(x.serial, x.phase.decision) in g.settled
    {
      var j :| 0 <= j < |g.entries| && g.entries[j] == x;
      assert f.entries[j] in f.entries;
    }
  }

  ghost predicate Joins(f: Fifo, e: Entry) {
    && |f.entries| < f.capacity
    && e.serial == f.nextSerial && e.phase.Pending? && !e.held
    && (e.awaitingPresentation <==> Background in f.holds)
    && forall i | 0 <= i < |f.entries| :: f.entries[i].work.Some? ==> f.entries[i].work != e.work
  }

  lemma EnqueueKeepsOrder(f: Fifo, e: Entry)
    requires InOfferOrder(f) && Joins(f, e)
    ensures InOfferOrder(Enqueue(f, e))
  {
  }

  lemma EnqueueAgrees(f: Fifo, e: Entry)
    requires HoldsAgree(f) && Joins(f, e)
    ensures HoldsAgree(Enqueue(f, e))
  {
  }

  lemma EnqueueLists(f: Fifo, e: Entry, k: nat)
    requires Joins(f, e)
    ensures PendingIn(Enqueue(f, e).entries, k) <==> PendingIn(f.entries, k) || k == e.serial
    ensures Listed(Enqueue(f, e).entries, k) <==> Listed(f.entries, k) || k == e.serial
  {
    var g := Enqueue(f, e);
    var n := |f.entries|;
    assert forall i | 0 <= i < n :: g.entries[i] == f.entries[i];
    assert g.entries[n].phase.Pending? && g.entries[n].serial == e.serial;
  }

  lemma EnqueueKeepsInv(f: Fifo, e: Entry)
    requires Inv(f) && Joins(f, e)
    ensures Inv(Enqueue(f, e))
  {
    EnqueueKeepsOrder(f, e);
    EnqueueAgrees(f, e);
    forall k: nat
      ensures PendingIn(Enqueue(f, e).entries, k) <==> PendingIn(f.entries, k) || k == e.serial
      ensures Listed(Enqueue(f, e).entries, k) <==> Listed(f.entries, k) || k == e.serial
    {
      EnqueueLists(f, e, k);
    }
    assert forall s | s in f.spent :: Recorded(f.settled, s.serial);
  }

  lemma OfferKeepsInv(f: Fifo, id: string, work: Option<string>, allowed: Option<set<Decision>>, signal: nat)
    requires Inv(f)
    ensures Inv(Offer(f, id, work, allowed, signal).0)
  {
    if Offer(f, id, work, allowed, signal).1.Admitted? {
      assert forall i | 0 <= i < |f.entries| :: f.entries[i] in f.entries;
      EnqueueKeepsInv(f, Entry(f.nextSerial, id, work, allowed, signal, 0.0, false, Background in f.holds, Pending));
    }
  }

  lemma AcceptSettles(f: Fifo, id: string, decision: Decision, k: nat)
    requires InOfferOrder(f) && Decides(f, id, decision)
    ensures var g := AcceptDecision(f, id, decision).0;
      && (PendingIn(g.entries, k) <==> PendingIn(f.entries, k) && k != f.entries[0].serial)
      && (Listed(g.entries, k) <==> Listed(f.entries, k))
      && (Recorded(g.settled, k) <==> Recorded(f.settled, k) || k == f.entries[0].serial)
  {
    var g := AcceptDecision(f, id, decision).0;
    RecordedAppend(f.settled, Settlement(f.entries[0].serial, decision), k);
    assert forall i | 0 < i < |f.entries| :: g.entries[i] == f.entries[i];
    assert g.entries[0].serial == f.entries[0].serial;
  }

  lemma AcceptKeepsInv(f: Fifo, id: string, decision: Decision)
    requires Inv(f)
    ensures Inv(AcceptDecision(f, id, decision).0)
  {
    var (g, accepted) := AcceptDecision(f, id, decision);
    if accepted {
      assert InOfferOrder(g) && HoldsAgree(g);
      assert PendingIn(f.entries, f.entries[0].serial);
      OnceAppend(f.settled, Settlement(f.entries[0].serial, decision));
      forall k: nat
        ensures Recorded(g.settled, k) <==> k < g.nextSerial && !PendingIn(g.entries, k)
        ensures Listed(g.entries, k) <==> Listed(f.entries, k)
      {
        AcceptSettles(f, id, decision, k);
      }
    } else if f != g {
      DropKeepsInv(f, 0);
    }
  }

  lemma SpendKeepsInv(f: Fifo, s: Settlement)
    requires Inv(f) && s in f.settled && !Listed(f.entries, s.serial) && !Recorded(f.spent, s.serial)
    ensures Inv(f.(spent := f.spent + [s]))
  {
    OnceAppend(f.spent, s);
  }

  lemma ConsumeKeepsInv(f: Fifo, r: Resolution)
    requires Inv(f)
    ensures Inv(Consume(f, r).0)
  {
    if Spendable(f, r) {
      var e := f.entries[0];
      assert Drop(f, 0) == Remove(f, 0);
      DropKeepsInv(f, 0);
      RemoveLists(f, 0, e.serial);
      assert e in f.entries;
      assert !Recorded(f.spent, e.serial) by {
        assert Listed(f.entries, e.serial);
        assert forall i | 0 <= i < |f.spent| :: f.spent[i] in f.spent;
      }
      SpendKeepsInv(Remove(f, 0), Settlement(e.serial, r.decision));
    }
  }

  lemma ParkKeepsInv(f: Fifo, reason: Hold)
    requires Inv(f) && (f.entries == [] ==> reason == Background)
    ensures Inv(Park(f, reason))
  {
    SameLineKeeps(f, Park(f, reason));
    ParkAgrees(f, reason);
  }

  lemma ParkAgrees(f: Fifo, reason: Hold)
    requires HoldsAgree(f) && (f.entries == [] ==> reason == Background)
    ensures HoldsAgree(Park(f, reason))
  {
  }

  lemma ReleaseAgrees(f: Fifo, reason: Hold, awaitPresentation: bool)
    requires HoldsAgree(f)
    ensures HoldsAgree(ReleaseLine(f, reason, awaitPresentation).0)
  {
  }

  lemma ExpireKeepsInv(f: Fifo)
    requires Inv(f)
    ensures Inv(Expire(f))
  {
    if f.entries != [] {
      DropKeepsInv(f, 0);
    }
  }

  lemma HoldKeepsInv(f: Fifo, reason: Hold)
    requires Inv(f)
    ensures Inv(HoldLine(f, reason).0)
  {
    ExpireKeepsInv(f);
    if HoldLine(f, reason).1 {
      ParkKeepsInv(Expire(f), reason);
    }
  }

  lemma ReleaseKeepsInv(f: Fifo, reason: Hold, awaitPresentation: bool)
    requires Inv(f)
    ensures Inv(ReleaseLine(f, reason, awaitPresentation).0)
  {
    SameLineKeeps(f, ReleaseLine(f, reason, awaitPresentation).0);
    ReleaseAgrees(f, reason, awaitPresentation);
  }

  /** One step of any kind, from any state that keeps the invariant. */
  lemma StepKeepsInv(f: Fifo, op: Op)
    requires Inv(f)
    ensures Inv(Step(f, op))
  {
    match op
    case OfferOp(id, work, allowed, signal) => OfferKeepsInv(f, id, work, allowed, signal);
    case AcceptOp(id, decision) => AcceptKeepsInv(f, id, decision);
    case ConsumeOp(r) => ConsumeKeepsInv(f, r);
    case HoldOp(reason) => HoldKeepsInv(f, reason);
    case ReleaseOp(reason, awaitPresentation) => ReleaseKeepsInv(f, reason, awaitPresentation);
    case InvalidateOp => if f.entries != [] { DropKeepsInv(f, 0); }
    case InvalidateWorkOp(owner) => DropOwnedKeepsInv(f, owner);
    case AbortListenerOp(serial) =>
      var i := SerialIndex(f.entries, serial);
      if i < |f.entries| { DropKeepsInv(f, i); }
    case TimerOp => ExpireKeepsInv(f);
    case _ => SameLineKeeps(f, Step(f, op));
  }

  /** Every reachable state of the FIFO keeps the invariant. */
  lemma {:induction false} RunKeepsInv(now: real, capacity: nat, ops: seq<Op>)
    ensures Inv(Run(Init(now, capacity), ops))
  {
    if ops != [] {
      RunKeepsInv(now, capacity, ops[..|ops| - 1]);
      StepKeepsInv(Run(Init(now, capacity), ops[..|ops| - 1]), ops[|ops| - 1]);
    }
  }

  // ---------- Who may ever be in line ----------

  ghost predicate SameOffer(a: Entry, b: Entry) {
    && a.serial == b.serial && a.id == b.id && a.work == b.work
    && a.signal == b.signal && a.allowedDecisions == b.allowedDecisions
  }

  ghost predicate CameFrom(f: Fifo, e: Entry) {
    e.serial >= f.nextSerial || exists was :: was in f.entries && SameOffer(e, was)
  }

  lemma DropOrigins(f: Fifo, i: nat, e: Entry)
    requires i < |f.entries| && e in Drop(f, i).entries
    ensures CameFrom(f, e)
  {
    RemoveAt(f, i);
    var g := Remove(f, i);
    var j :| 0 <= j < |g.entries| && g.entries[j] == e;
    var was := f.entries[if j < i then j else j + 1];
    assert was in f.entries && SameOffer(e, was);
  }

  lemma {:induction false} DropOwnedOrigins(f: Fifo, work: string, e: Entry)
    requires e in DropOwned(f, work).entries
    ensures CameFrom(f, e)
    decreases |f.entries|
  {
    var i := WorkIndex(f.entries, work);
    if i < |f.entries| {
      DropOwnedOrigins(Drop(f, i), work, e);
      if e.serial < f.nextSerial {
        var was :| was in Drop(f, i).entries && SameOffer(e, was);
        DropOrigins(f, i, was);
      }
    } else {
      assert SameOffer(e, e);
    }
  }

  /** Entries that keep their place keep what they asked for. */
  lemma InPlaceOrigins(f: Fifo, g: Fifo, e: Entry)
    requires |g.entries| == |f.entries| && e in g.entries
    requires forall j | 0 <= j < |f.entries| :: SameOffer(g.entries[j], f.entries[j])
    ensures CameFrom(f, e)
  {
    var j :| 0 <= j < |g.entries| && g.entries[j] == e;
    assert f.entries[j] in f.entries;
  }

  lemma HoldOrigins(f: Fifo, reason: Hold, e: Entry)
    requires e in HoldLine(f, reason).0.entries
    ensures CameFrom(f, e)
  {
    var x := Expire(f);
    if HoldLine(f, reason).1 {
      InPlaceOrigins(x, Park(x, reason), e);
      var was :| was in x.entries && (e.serial >= x.nextSerial || SameOffer(e, was));
      if x != f { DropOrigins(f, 0, was); }
    } else if x != f && e in x.entries {
      DropOrigins(f, 0, e);
    }
  }

  /** An operation never puts back an entry that has left and never changes what an entry asked for. */
  lemma StepOrigins(f: Fifo, op: Op, e: Entry)
    requires e in Step(f, op).entries
    ensures CameFrom(f, e)
  {
    var g := Step(f, op);
    if op.HoldOp? {
      HoldOrigins(f, op.reason, e);
    } else if g.entries != f.entries {
      if op.OfferOp? {
        assert g.entries[..|f.entries|] == f.entries;
      } else if op.ReleaseOp? || (op.AcceptOp? && |g.entries| == |f.entries|) {
        InPlaceOrigins(f, g, e);
      } else if op.InvalidateWorkOp? {
        DropOwnedOrigins(f, op.owner, e);
      } else {
        DropOrigins(f, if op.AbortListenerOp? then SerialIndex(f.entries, op.serial) else 0, e);
      }
    }
  }

  lemma {:induction false} DropOwnedKeepsTime(f: Fifo, work: string)
    ensures var g := DropOwned(f, work); g.nextSerial == f.nextSerial && g.aborted == f.aborted && g.now == f.now
    decreases |f.entries|
  {
    var i := WorkIndex(f.entries, work);
    if i < |f.entries| { DropOwnedKeepsTime(Drop(f, i), work); }
  }

  lemma StepGrows(f: Fifo, op: Op)
    ensures Step(f, op).nextSerial >= f.nextSerial && f.aborted <= Step(f, op).aborted && f.now <= Step(f, op).now
  {
    if op.InvalidateWorkOp? { DropOwnedKeepsTime(f, op.owner); }
  }

  lemma {:induction false} RunOrigins(f: Fifo, ops: seq<Op>, e: Entry)
    requires e in Run(f, ops).entries
    ensures CameFrom(f, e)
  {
    if ops != [] {
      var before := Run(f, ops[..|ops| - 1]);
      StepOrigins(before, ops[|ops| - 1], e);
      RunGrows(f, ops[..|ops| - 1]);
      if e.serial < before.nextSerial {
        var was :| was in before.entries && SameOffer(e, was);
        RunOrigins(f, ops[..|ops| - 1], was);
      }
    }
  }

  lemma {:induction false} RunGrows(f: Fifo, ops: seq<Op>)
    ensures Run(f, ops).nextSerial >= f.nextSerial && f.aborted <= Run(f, ops).aborted && f.now <= Run(f, ops).now
  {
    if ops != [] {
      RunGrows(f, ops[..|ops| - 1]);
      StepGrows(Run(f, ops[..|ops| - 1]), ops[|ops| - 1]);
    }
  }

  /** Heads are promoted in offer order: a later head is never an earlier offer. */
  lemma HeadsInOfferOrder(f: Fifo, ops: seq<Op>)
    requires Inv(f) && f.entries != [] && Run(f, ops).entries != []
    ensures f.entries[0].serial <= Run(f, ops).entries[0].serial
  {
    RunOrigins(f, ops, Run(f, ops).entries[0]);
  }

  /**
   * Once an entry has been spent, dropped, invalidated or replaced, or its signal has aborted,
   * its resolution buys nothing but a decline, whatever happens afterwards.
   */
  lemma NeverSpendableAgain(f: Fifo, ops: seq<Op>, r: Resolution)
    requires Inv(f) && r.owner.Some? && r.owner.value < f.nextSerial
    requires forall e | e in f.entries && e.serial == r.owner.value :: e.signal in f.aborted
    ensures Consume(Run(f, ops), r) == (Run(f, ops), Decline)
  {
    var g := Run(f, ops);
    if Spendable(g, r) {
      RunOrigins(f, ops, g.entries[0]);
      RunGrows(f, ops);
    }
  }

  // ---------- Where answers come from ----------

  /** An answer that names the live head of this state. */
  ghost predicate Answers(f: Fifo, op: Op, s: Settlement) {
    && op.AcceptOp? && op.decision == s.decision
    && Decides(f, op.id, s.decision)
    && f.entries[0].serial == s.serial
  }

  ghost predicate Spends(f: Fifo, op: Op, s: Settlement) {
    op == ConsumeOp(Resolution(Some(s.serial), s.decision)) && Spendable(f, op.resolution)
  }

  ghost predicate AnsweredAt(f: Fifo, ops: seq<Op>, n: nat, s: Settlement) {
    n < |ops| && Answers(Run(f, ops[..n]), ops[n], s)
  }

  ghost predicate SpentAt(f: Fifo, ops: seq<Op>, n: nat, s: Settlement) {
    n < |ops| && Spends(Run(f, ops[..n]), ops[n], s)
  }

  /** A drop records nothing but a decline and spends nothing. */
  lemma DropDeclines(f: Fifo, i: nat, s: Settlement)
    requires i < |f.entries| && s.decision != Decline
    ensures s in Drop(f, i).settled <==> s in f.settled
    ensures Drop(f, i).spent == f.spent
  {
  }

  lemma {:induction false} DropOwnedDeclines(f: Fifo, work: string, s: Settlement)
    requires s.decision != Decline
    ensures s in DropOwned(f, work).settled <==> s in f.settled
    ensures DropOwned(f, work).spent == f.spent
    decreases |f.entries|
  {
    var i := WorkIndex(f.entries, work);
    if i < |f.entries| {
      DropDeclines(f, i, s);
      DropOwnedDeclines(Drop(f, i), work, s);
    }
  }

  lemma AcceptAnswers(f: Fifo, id: string, decision: Decision, s: Settlement)
    requires s.decision != Decline
    ensures s in AcceptDecision(f, id, decision).0.settled <==> s in f.settled || Answers(f, AcceptOp(id, decision), s)
    ensures AcceptDecision(f, id, decision).0.spent == f.spent
  {
    if f.entries != [] { DropDeclines(f, 0, s); }
  }

  lemma ConsumeSpends(f: Fifo, r: Resolution, s: Settlement)
    requires s.decision != Decline
    ensures Consume(f, r).0.settled == f.settled
    ensures s in Consume(f, r).0.spent <==> s in f.spent || Spends(f, ConsumeOp(r), s)
  {
  }

  lemma StepSettles(f: Fifo, op: Op, s: Settlement)
    requires s.decision != Decline
    ensures s in Step(f, op).settled <==> s in f.settled || Answers(f, op, s)
    ensures s in Step(f, op).spent <==> s in f.spent || Spends(f, op, s)
  {
    match op
    case AcceptOp(id, decision) => AcceptAnswers(f, id, decision, s);
    case ConsumeOp(r) => ConsumeSpends(f, r, s);
    case InvalidateWorkOp(owner) => DropOwnedDeclines(f, owner, s);
    case AbortListenerOp(serial) =>
      var i := SerialIndex(f.entries, serial);
      if i < |f.entries| { DropDeclines(f, i, s); }
    case _ => if f.entries != [] { DropDeclines(f, 0, s); }
  }

  lemma Earlier(f: Fifo, ops: seq<Op>, n: nat, s: Settlement)
    requires n < |ops| - 1
    ensures AnsweredAt(f, ops, n, s) <==> AnsweredAt(f, ops[..|ops| - 1], n, s)
    ensures SpentAt(f, ops, n, s) <==> SpentAt(f, ops[..|ops| - 1], n, s)
  {
    assert ops[..|ops| - 1][..n] == ops[..n];
  }

  /** A non-decline is on record exactly when some answer named that entry while it was the live head. */
  lemma {:induction false} NonDeclineNeedsAnswer(now: real, capacity: nat, ops: seq<Op>, s: Settlement)
    requires s.decision != Decline
    ensures s in Run(Init(now, capacity), ops).settled <==> exists n :: AnsweredAt(Init(now, capacity), ops, n, s)
  {
    var f := Init(now, capacity);
    if ops != [] {
      var m := |ops| - 1;
      NonDeclineNeedsAnswer(now, capacity, ops[..m], s);
      StepSettles(Run(f, ops[..m]), ops[m], s);
      forall n: nat | n < m
        ensures AnsweredAt(f, ops, n, s) <==> AnsweredAt(f, ops[..m], n, s)
      {
        Earlier(f, ops, n, s);
      }
      assert AnsweredAt(f, ops, m, s) <==> Answers(Run(f, ops[..m]), ops[m], s);
    }
  }

  /** `consume` hands out a non-decline exactly when it spends the unaborted head's own resolution. */
  lemma {:induction false} SpentOnlyAtHead(now: real, capacity: nat, ops: seq<Op>, s: Settlement)
    requires s.decision != Decline
    ensures s in Run(Init(now, capacity), ops).spent <==> exists n :: SpentAt(Init(now, capacity), ops, n, s)
  {
    var f := Init(now, capacity);
    if ops != [] {
      var m := |ops| - 1;
      SpentOnlyAtHead(now, capacity, ops[..m], s);
      StepSettles(Run(f, ops[..m]), ops[m], s);
      forall n: nat | n < m
        ensures SpentAt(f, ops, n, s) <==> SpentAt(f, ops[..m], n, s)
      {
        Earlier(f, ops, n, s);
      }
      assert SpentAt(f, ops, m, s) <==> Spends(Run(f, ops[..m]), ops[m], s);
    }
  }

  ghost predicate Owns(entries: seq<Entry>, work: string, serial: nat) {
    exists i | 0 <= i < |entries| :: entries[i].serial == serial && entries[i].work == Some(work)
  }

  lemma OwnerIndex(f: Fifo, work: string, k: nat)
    requires InOfferOrder(f)
    ensures Owns(f.entries, work, k) <==>
            WorkIndex(f.entries, work) < |f.entries| && f.entries[WorkIndex(f.entries, work)].serial == k
  {
  }

  /** Admission keeps works distinct, so the loop over a work's entries drops at most one. */
  lemma AtMostOneOwned(f: Fifo, work: string)
    requires InOfferOrder(f)
    ensures var i := WorkIndex(f.entries, work);
      DropOwned(f, work) == if i < |f.entries| then Drop(f, i) else f
  {
    var i := WorkIndex(f.entries, work);
    if i < |f.entries| {
      RemoveAt(f, i);
      var g := Drop(f, i);
      forall j | 0 <= j < |g.entries|
        ensures g.entries[j].work != Some(work)
      {
        assert g.entries[j].work == f.entries[if j < i then j else j + 1].work;
      }
      assert WorkIndex(g.entries, work) == |g.entries|;
    }
  }

  /** Dropping one work removes exactly its entries; `InOfferOrder` keeps the rest in offer order. */
  lemma InvalidateWorkExact(f: Fifo, work: string, k: nat)
    requires Inv(f)
    ensures InvalidateWork(f, work).1 <==> HasWork(f.entries, Some(work))
    ensures Listed(InvalidateWork(f, work).0.entries, k) <==> Listed(f.entries, k) && !Owns(f.entries, work, k)
    ensures InOfferOrder(InvalidateWork(f, work).0)
  {
    OwnerIndex(f, work, k);
    AtMostOneOwned(f, work);
    var i := WorkIndex(f.entries, work);
    if i < |f.entries| {
      assert f.entries[i] in f.entries;
      RemoveLists(f, i, k);
      RemoveKeepsOrder(f, i);
    }
  }

  // ---------- A project hold ends with its head ----------

  ghost predicate HeadStays(f: Fifo, g: Fifo) {
    f.entries != [] && g.entries != [] && g.entries[0].serial == f.entries[0].serial
  }

  /** A project hold that is still in force after a step is about the same head: no head inherits it. */
  lemma ProjectHoldKeepsHead(f: Fifo, op: Op)
    requires Inv(f) && Project in f.holds && Project in Step(f, op).holds
    ensures HeadStays(f, Step(f, op))
  {
    if op.InvalidateWorkOp? { AtMostOneOwned(f, op.owner); }
  }

  /** As long as one project hold stays in force, whatever else happens, the head stays the same. */
  lemma {:induction false} ProjectHoldEndsWithHead(f: Fifo, ops: seq<Op>)
    requires Inv(f) && forall n | 0 <= n <= |ops| :: Project in Run(f, ops[..n]).holds
    ensures Inv(Run(f, ops)) && HeadStays(f, Run(f, ops))
  {
    if ops == [] {
      assert ops[..0] == ops;
    } else {
      var m := |ops| - 1;
      forall n | 0 <= n <= m
        ensures Project in Run(f, ops[..m][..n]).holds
      {
        assert ops[..m][..n] == ops[..n];
      }
      ProjectHoldEndsWithHead(f, ops[..m]);
      assert ops[..m + 1] == ops;
      StepKeepsInv(Run(f, ops[..m]), ops[m]);
      ProjectHoldKeepsHead(Run(f, ops[..m]), ops[m]);
    }
  }

  // ---------- A head keeps its time ----------

  /** Everything that can happen to a line except an answer, an invalidation or an abort listener. */
  predicate Passive(op: Op) {
    op.OfferOp? || op.ConsumeOp? || op.HoldOp? || op.ReleaseOp? || op.AbortOp? || op.TimerOp? || op.ClockOp?
  }

  ghost predicate SafeUntil(f: Fifo, serial: nat, t: real) {
    && f.HeadPending() && f.entries[0].serial == serial
    && (f.entries[0].held || f.entries[0].expiresAt >= t)
    && t <= f.now + APPROVAL_TTL_SECONDS
  }

  /**
   * A pending head that is parked, or has until `t`, is still the pending head as long as the clock
   * reads less than `t`: no stale timer, hold, release or offer cuts its time short.
   */
  lemma {:induction false} HeadKeepsItsTime(f: Fifo, ops: seq<Op>, serial: nat, t: real)
    requires SafeUntil(f, serial, t)
    requires forall op | op in ops :: Passive(op)
    requires Run(f, ops).now < t
    ensures SafeUntil(Run(f, ops), serial, t)
  {
    if ops != [] {
      var m := |ops| - 1;
      var before := Run(f, ops[..m]);
      assert ops[m] in ops && forall op | op in ops[..m] :: op in ops;
      StepGrows(before, ops[m]);
      HeadKeepsItsTime(f, ops[..m], serial, t);
    }
  }
}
