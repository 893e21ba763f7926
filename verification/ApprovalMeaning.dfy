/** What the operations of the permission FIFO do for a caller, told without the functions that do it. */
module ApprovalMeaning {
  import opened Common
  import opened ApprovalFifo
  import opened ApprovalRuns

  /** Nothing but the line and the reasons that park it is different. */
  ghost predicate OnlyLine(f: Fifo, g: Fifo) {
    g.(entries := f.entries, holds := f.holds) == f
  }

  ghost predicate TailKept(f: Fifo, g: Fifo) {
    |g.entries| == |f.entries| && forall i | 0 < i < |f.entries| :: g.entries[i] == f.entries[i]
  }

  predicate Gated(f: Fifo) {
    f.entries != [] && f.entries[0].awaitingPresentation
  }

  // ---------- Release ----------

  /**
   * A released head is the same offer in the same phase. Its presentation gate opens exactly if `opens`. If it was
   * parked and pending it runs again, with the full time, exactly if no reason and no gate is left.
   */
  ghost predicate HeadReleased(was: Entry, now: Entry, opens: bool, holds: set<Hold>, time: real) {
    && SameOffer(now, was) && now.phase == was.phase
    && (now.awaitingPresentation <==> was.awaitingPresentation && !opens)
    && (if was.phase.Pending? && was.held && holds == {} && !now.awaitingPresentation
        then !now.held && now.expiresAt == time + APPROVAL_TTL_SECONDS
        else now.held == was.held && now.expiresAt == was.expiresAt)
  }

  /** A release succeeds exactly if the reason or, for a background release, the head's gate was there. */
  ghost predicate Releases(f: Fifo, reason: Hold, awaitPresentation: bool, g: Fifo, released: bool) {
    && (released <==> reason in f.holds || (reason == Background && Gated(f)))
    && (!released ==> g == f)
    && OnlyLine(f, g) && TailKept(f, g) && g.holds == f.holds - {reason}
    && (released && f.entries != [] ==>
          HeadReleased(f.entries[0], g.entries[0], reason == Background && !awaitPresentation, g.holds, f.now))
  }

  lemma ReleaseMeans(f: Fifo, reason: Hold, awaitPresentation: bool)
    ensures var (g, released) := ReleaseLine(f, reason, awaitPresentation);
      Releases(f, reason, awaitPresentation, g, released)
  {
  }

  /** The ordinary end of a background hold: the head is presented, runs, and has its sixty seconds. */
  lemma BackgroundEnds(f: Fifo)
    requires Inv(f) && f.HeadPending() && f.holds == {Background}
    ensures var g := Step(f, ReleaseOp(Background, false));
      && g.holds == {} && g.HeadPending() && g.entries[0].serial == f.entries[0].serial
      && !g.entries[0].held && !g.entries[0].awaitingPresentation
      && g.entries[0].expiresAt == f.now + APPROVAL_TTL_SECONDS
  {
    ReleaseMeans(f, Background, false);
    assert f.holds - {Background} == {};
  }

  // ---------- Offer ----------

  /** A freshly promoted head has its full time, and is parked at once if a reason or its gate is there. */
  ghost predicate JustPromoted(e: Entry, time: real, holds: set<Hold>) {
    && e.phase.Pending? && e.expiresAt == time + APPROVAL_TTL_SECONDS
    && (e.held <==> holds != {} || e.awaitingPresentation)
  }

  /** An offer joins at the back, under a new identity, with what it asked for; alone it is promoted. */
  ghost predicate Joined(f: Fifo, g: Fifo, id: string, work: Option<string>, allowed: Option<set<Decision>>,
                         signal: nat)
  {
    && |g.entries| == |f.entries| + 1 && g.entries[..|f.entries|] == f.entries
    && g.nextSerial == f.nextSerial + 1 && g.(entries := f.entries, nextSerial := f.nextSerial) == f
    && var e := g.entries[|f.entries|];
       && e.serial == f.nextSerial && e.id == id && e.work == work && e.allowedDecisions == allowed
       && e.signal == signal && e.phase.Pending?
       && (e.awaitingPresentation <==> Background in f.holds)
       && (if f.entries == [] then JustPromoted(e, f.now, f.holds) else !e.held)
  }

  /** Exactly which offers are admitted, and why the others are not. */
  ghost predicate Offers(f: Fifo, id: string, work: Option<string>, allowed: Option<set<Decision>>, signal: nat,
                         g: Fifo, outcome: Outcome)
  {
    && (outcome.Aborted? <==> signal in f.aborted)
    && (outcome.Refused? <==>
          signal !in f.aborted
          && (|f.entries| >= f.capacity
              || (work.Some? && exists i :: 0 <= i < |f.entries| && f.entries[i].work == work)))
    && (outcome.InvalidId? ==> id == "" || |id| > 128)
    && (outcome.Admitted? ==> 1 <= |id| <= 128)
    && (!outcome.Admitted? ==> g == f)
    && (outcome.Admitted? ==> outcome.serial == f.nextSerial && Joined(f, g, id, work, allowed, signal))
  }

  lemma OfferMeans(f: Fifo, id: string, work: Option<string>, allowed: Option<set<Decision>>, signal: nat)
    ensures var (g, outcome) := Offer(f, id, work, allowed, signal);
      Offers(f, id, work, allowed, signal, g, outcome)
  {
    forall i | 0 <= i < |f.entries|
      ensures f.entries[i] in f.entries
    {
    }
  }

  // ---------- Hold ----------

  /** How many entries a hold drops first: the head, if its time is up. */
  function Overdue(f: Fifo): nat {
    if f.entries != [] && f.entries[0].Expired(f.now) then 1 else 0
  }

  /** A hold succeeds exactly if its reason is not in force yet and, for a project, there is a head left to park. */
  ghost predicate Holds(f: Fifo, reason: Hold, g: Fifo, held: bool) {
    var n := Overdue(f);
    && (held <==> reason !in f.holds && (reason == Background || |f.entries| > n))
    && (reason in f.holds || (reason == Project && f.entries == []) ==> g == f)
    && (held ==>
          && reason in g.holds && |g.entries| == |f.entries| - n
          && (g.HeadPending() ==> g.entries[0].held)
          && forall i | 0 <= i < |g.entries| :: StaysOn(f.entries[n + i], g.entries[i], reason))
  }

  /** An entry that a hold leaves in line is the same offer, gated from now on if the reason is the background. */
  ghost predicate StaysOn(was: Entry, now: Entry, reason: Hold) {
    && SameOffer(now, was) && now.phase == was.phase
    && (now.awaitingPresentation <==> was.awaitingPresentation || reason == Background)
  }

  lemma HoldMeans(f: Fifo, reason: Hold)
    ensures var (g, held) := HoldLine(f, reason);
      Holds(f, reason, g, held)
  {
    ExpireLeaves(f);
    var x := Expire(f);
    var (g, held) := HoldLine(f, reason);
    if held {
      ParkStays(x, reason);
      forall i | 0 <= i < |g.entries|
        ensures StaysOn(f.entries[Overdue(f) + i], g.entries[i], reason)
      {
        assert SameOffer(x.entries[i], f.entries[Overdue(f) + i]) && StaysOn(x.entries[i], g.entries[i], reason);
      }
    }
  }

  lemma ExpireLeaves(f: Fifo)
    ensures |Expire(f).entries| == |f.entries| - Overdue(f)
    ensures forall i {:trigger Expire(f).entries[i]} | 0 <= i < |f.entries| - Overdue(f) ::
              var was, now := f.entries[Overdue(f) + i], Expire(f).entries[i];
              SameOffer(now, was) && now.phase == was.phase && now.awaitingPresentation == was.awaitingPresentation
  {
    forall i | 0 <= i < |f.entries| - Overdue(f)
      ensures var was, now := f.entries[Overdue(f) + i], Expire(f).entries[i];
              SameOffer(now, was) && now.phase == was.phase && now.awaitingPresentation == was.awaitingPresentation
    {
      if Overdue(f) == 1 { HeadGoes(f, i); }
    }
  }

  lemma HeadGoes(f: Fifo, i: nat)
    requires i < |f.entries| - 1
    ensures |Remove(f, 0).entries| == |f.entries| - 1
    ensures var was, now := f.entries[1 + i], Remove(f, 0).entries[i];
      SameOffer(now, was) && now.phase == was.phase && now.awaitingPresentation == was.awaitingPresentation
  {
  }

  lemma ParkStays(f: Fifo, reason: Hold)
    ensures |Park(f, reason).entries| == |f.entries| && reason in Park(f, reason).holds
    ensures forall i {:trigger f.entries[i]} | 0 <= i < |f.entries| ::
              StaysOn(f.entries[i], Park(f, reason).entries[i], reason)
    ensures Park(f, reason).HeadPending() ==> Park(f, reason).entries[0].held
  {
  }

  // ---------- Answers ----------

  /** An answer is taken exactly from the live head by name; a head that is overdue or aborted is dropped instead. */
  ghost predicate Accepts(f: Fifo, id: string, decision: Decision, g: Fifo, accepted: bool) {
    && (accepted <==>
          f.entries != []
          && var e := f.entries[0];
             && e.phase.Pending? && e.id == id && (e.held || f.now < e.expiresAt) && e.signal !in f.aborted
             && (if e.allowedDecisions.Some? then decision in e.allowedDecisions.value
                 else decision != AcceptForSession))
    && (accepted ==>
          && OnlyLine(f.(settled := g.settled), g) && TailKept(f, g) && g.holds == f.holds
          && g.entries[0] == f.entries[0].(phase := Responding(decision))
          && g.settled == f.settled + [Settlement(f.entries[0].serial, decision)])
  }

  lemma AcceptMeans(f: Fifo, id: string, decision: Decision)
    ensures var (g, accepted) := AcceptDecision(f, id, decision);
      Accepts(f, id, decision, g, accepted)
  {
  }

  /** What is handed out is what is put on record as spent; anything else is a decline that changes nothing. */
  ghost predicate Consumes(f: Fifo, r: Resolution, g: Fifo, answer: Decision) {
    if Spendable(f, r)
    then answer == r.decision && g.spent == f.spent + [Settlement(f.entries[0].serial, answer)]
         && |g.entries| == |f.entries| - 1
    else answer == Decline && g == f
  }

  lemma ConsumeMeans(f: Fifo, r: Resolution)
    ensures var (g, answer) := Consume(f, r);
      Consumes(f, r, g, answer)
  {
  }

  lemma InvalidateMeans(f: Fifo)
    requires Inv(f)
    ensures var (g, dropped) := Invalidate(f);
      && (dropped <==> f.entries != []) && |g.entries| == |f.entries| - (if dropped then 1 else 0)
      && (dropped ==> !Listed(g.entries, f.entries[0].serial))
  {
    if f.entries != [] { RemoveLists(f, 0, f.entries[0].serial); }
  }

  // ---------- Who leaves, and who comes next ----------

  /** The time of the entry is up. */
  predicate TimeIsUp(e: Entry, now: real) {
    e.phase.Pending? && !e.held && e.expiresAt <= now
  }

  /** The entry at `i` leaves the line with this step. */
  predicate Leaves(f: Fifo, op: Op, i: nat)
    requires i < |f.entries|
  {
    var e := f.entries[i];
    match op
    case ConsumeOp(r) =>
      i == 0 && e.phase.Responding? && r.owner == Some(e.serial) && r.decision == e.phase.decision
      && e.signal !in f.aborted
    case AcceptOp(id, decision) =>
      i == 0 && e.phase.Pending? && id == e.id && decision in e.Allowed()
      && (TimeIsUp(e, f.now) || e.signal in f.aborted)
    case HoldOp(reason) => i == 0 && TimeIsUp(e, f.now) && reason !in f.holds
    case InvalidateOp => i == 0
    case InvalidateWorkOp(owner) => e.work == Some(owner)
    case AbortListenerOp(serial) => e.serial == serial && e.signal in f.aborted
    case TimerOp => i == 0 && TimeIsUp(e, f.now)
    case _ => false
  }

  /** Every step takes out of the line exactly the entry it should, and nobody else. */
  lemma LeavesExactly(f: Fifo, op: Op, i: nat)
    requires Inv(f) && i < |f.entries|
    ensures Listed(Step(f, op).entries, f.entries[i].serial) <==> !Leaves(f, op, i)
  {
    match op
    case ConsumeOp(r) => ConsumeLeaves(f, r, i);
    case AcceptOp(id, decision) => AcceptLeaves(f, id, decision, i);
    case HoldOp(reason) => HoldLeaves(f, reason, i);
    case InvalidateOp => HeadOnly(f, i);
    case InvalidateWorkOp(owner) =>
      HeadOnly(f, i);
      InvalidateWorkExact(f, owner, f.entries[i].serial);
    case AbortListenerOp(serial) => ListenerLeaves(f, serial, i);
    case TimerOp => HeadOnly(f, i);
    case _ => StaysListed(f, Step(f, op), i);
  }

  lemma StaysListed(f: Fifo, g: Fifo, i: nat)
    requires i < |f.entries| <= |g.entries| && g.entries[i].serial == f.entries[i].serial
    ensures Listed(g.entries, f.entries[i].serial)
  {
  }

  lemma ConsumeLeaves(f: Fifo, r: Resolution, i: nat)
    requires InOfferOrder(f) && i < |f.entries|
    ensures Listed(Consume(f, r).0.entries, f.entries[i].serial) <==> !Leaves(f, ConsumeOp(r), i)
  {
    HeadOnly(f, i);
  }

  lemma AcceptLeaves(f: Fifo, id: string, decision: Decision, i: nat)
    requires InOfferOrder(f) && i < |f.entries|
    ensures Listed(AcceptDecision(f, id, decision).0.entries, f.entries[i].serial)
            <==> !Leaves(f, AcceptOp(id, decision), i)
  {
    HeadOnly(f, i);
    var g := AcceptDecision(f, id, decision).0;
    if |g.entries| == |f.entries| { StaysListed(f, g, i); }
  }

  lemma HoldLeaves(f: Fifo, reason: Hold, i: nat)
    requires InOfferOrder(f) && i < |f.entries|
    ensures Listed(HoldLine(f, reason).0.entries, f.entries[i].serial) <==> !Leaves(f, HoldOp(reason), i)
  {
    HeadOnly(f, i);
    HoldLists(f, reason, f.entries[i].serial);
  }

  lemma ListenerLeaves(f: Fifo, serial: nat, i: nat)
    requires InOfferOrder(f) && i < |f.entries|
    ensures Listed(AbortListener(f, serial).entries, f.entries[i].serial) <==> !Leaves(f, AbortListenerOp(serial), i)
  {
    var at := SerialIndex(f.entries, serial);
    HeadOnly(f, i);
    if at < |f.entries| { RemoveLists(f, at, f.entries[i].serial); }
    assert f.entries[i].serial == serial ==> at == i;
  }

  lemma HeadOnly(f: Fifo, i: nat)
    requires InOfferOrder(f) && i < |f.entries|
    ensures Listed(f.entries, f.entries[i].serial)
    ensures Listed(Remove(f, 0).entries, f.entries[i].serial) <==> i != 0
  {
    RemoveLists(f, 0, f.entries[i].serial);
    assert i > 0 ==> f.entries[0].serial < f.entries[i].serial;
  }

  lemma HoldLists(f: Fifo, reason: Hold, serial: nat)
    ensures var g := if reason in f.holds then f else Expire(f);
      Listed(HoldLine(f, reason).0.entries, serial) <==> Listed(g.entries, serial)
  {
    var g := Expire(f);
    var p := Park(g, reason);
    assert |p.entries| == |g.entries| && forall j | 0 <= j < |g.entries| :: p.entries[j].serial == g.entries[j].serial;
  }

  lemma NextIsPromoted(f: Fifo)
    requires HoldsAgree(f) && |f.entries| > 1
    ensures JustPromoted(Remove(f, 0).entries[0], f.now, Remove(f, 0).holds)
  {
    assert f.entries[1].phase.Pending?;
    assert Remove(f, 0).entries[0] == Armed(f.entries[1], f.now, Remove(f, 0).holds);
  }

  lemma ParkedIsPromoted(f: Fifo, reason: Hold, time: real)
    requires f.entries != [] && JustPromoted(f.entries[0], time, f.holds)
    ensures JustPromoted(Park(f, reason).entries[0], time, Park(f, reason).holds)
  {
  }

  /** Whoever becomes head in a step has sixty seconds from then, and is parked exactly if something parks it. */
  lemma NewHeadHasItsTime(f: Fifo, op: Op)
    requires Inv(f) && Step(f, op).entries != []
    requires f.entries == [] || Step(f, op).entries[0].serial != f.entries[0].serial
    ensures JustPromoted(Step(f, op).entries[0], f.now, Step(f, op).holds)
  {
    match op
    case OfferOp(id, work, allowed, signal) => OfferMeans(f, id, work, allowed, signal);
    case HoldOp(reason) => HoldPromotes(f, reason);
    case _ =>
      FirstHasGone(f, op);
      NextIsPromoted(f);
  }

  lemma HoldPromotes(f: Fifo, reason: Hold)
    requires Inv(f) && f.entries != [] && HoldLine(f, reason).0.entries != []
    requires HoldLine(f, reason).0.entries[0].serial != f.entries[0].serial
    ensures JustPromoted(HoldLine(f, reason).0.entries[0], f.now, HoldLine(f, reason).0.holds)
  {
    if Overdue(f) == 1 {
      NextIsPromoted(f);
      ParkedIsPromoted(Expire(f), reason, f.now);
    }
  }

  /** Where the head has changed the first entry has gone, and it alone. */
  lemma FirstHasGone(f: Fifo, op: Op)
    requires Inv(f) && f.entries != [] && !op.OfferOp? && !op.HoldOp?
    requires Step(f, op).entries != [] && Step(f, op).entries[0].serial != f.entries[0].serial
    ensures |f.entries| > 1
    ensures Step(f, op).entries == Remove(f, 0).entries && Step(f, op).holds == Remove(f, 0).holds
  {
    if op.InvalidateWorkOp? { AtMostOneOwned(f, op.owner); }
  }

  // ---------- Time and aborts ----------

  /** A pending head that nothing parks leaves with its timer once the clock has come to its time, and not before. */
  lemma TimeTakesOut(f: Fifo, time: real)
    requires Inv(f) && f.HeadPending() && !f.entries[0].held && time >= f.now
    ensures var g := Step(Step(f, ClockOp(time)), TimerOp);
      Listed(g.entries, f.entries[0].serial) <==> time < f.entries[0].expiresAt
  {
    var clocked := Step(f, ClockOp(time));
    StepKeepsInv(f, ClockOp(time));
    LeavesExactly(clocked, TimerOp, 0);
  }

  /** Whoever's signal is aborted leaves with its listener, wherever it stands. */
  lemma AbortTakesOut(f: Fifo, i: nat)
    requires Inv(f) && i < |f.entries|
    ensures var g := Step(Step(f, AbortOp(f.entries[i].signal)), AbortListenerOp(f.entries[i].serial));
      !Listed(g.entries, f.entries[i].serial)
  {
    var aborted := Step(f, AbortOp(f.entries[i].signal));
    StepKeepsInv(f, AbortOp(f.entries[i].signal));
    LeavesExactly(aborted, AbortListenerOp(f.entries[i].serial), i);
  }
}
