/** What stands between the admission of executor work and its launch, over all interleavings. */
module LaunchFence {
  import opened Common

  /** `Revoked` is the null that a cancellation leaves behind. */
  datatype Check = Authorized | Revoked

  /** An owned executor task that has not come to its launch check yet. */
  datatype Task = Task(epoch: nat, aborted: bool, bound: bool)

  datatype Dispatch = Dispatch(id: nat, epoch: nat, capability: Option<nat>)

  /**
   * `admitted` gives the conversation epoch of every admitted delegate, `holder` the delegate that a confirmed
   * capability was admitted for, `reached` the delegates that came to their launch check, `cancelled` those whose
   * cancellation was reported as done, and `dispatched` every call of an adapter.
   */
  datatype Fence = Fence(
    epoch: nat, clearing: bool, closed: bool, accepting: bool,
    tasks: map<nat, Task>, checks: map<nat, Check>, turns: set<nat>, capabilities: map<nat, nat>, bindings: set<nat>,
    admitted: seq<nat>, holder: map<nat, nat>, reached: set<nat>, cancelled: set<nat>, dispatched: seq<Dispatch>)

  // ---------- Admission ----------

  /** `ready` is whether the runtime's memory is open and the core accepts the request. */
  predicate Admits(s: Fence, ready: bool) {
    ready && !s.closed && !s.clearing
  }

  function Owned(s: Fence): Fence {
    s.(tasks := s.tasks[|s.admitted| := Task(s.epoch, false, false)], admitted := s.admitted + [s.epoch])
  }

  function Admit(s: Fence, ready: bool, turn: bool, check: bool): Fence {
    if !Admits(s, ready) then s
    else
      var id := |s.admitted|;
      Install(Owned(s), id, turn, check)
  }

  function Install(s: Fence, id: nat, turn: bool, check: bool): Fence {
    s.(turns := if turn then s.turns + {id} else s.turns,
       checks := if check then s.checks[id := Authorized] else s.checks)
  }

  /** A task grant always brings a check and a binding that has to be written first. */
  function AdmitTask(s: Fence, ready: bool): Fence {
    if !Admits(s, ready) then s
    else Guard(Owned(s), |s.admitted|, true)
  }

  /** A capability that was admitted before is refused. */
  function AdmitConfirmed(s: Fence, ready: bool, capability: nat, grant: bool): Fence {
    if !Admits(s, ready) || capability in s.holder then s
    else
      var id := |s.admitted|;
      Guard(Entrust(Owned(s), id, capability), id, grant)
  }

  function Guard(s: Fence, id: nat, grant: bool): Fence {
    s.(checks := s.checks[id := Authorized], bindings := if grant then s.bindings + {id} else s.bindings)
  }

  function Entrust(s: Fence, id: nat, capability: nat): Fence {
    s.(capabilities := s.capabilities[id := capability], holder := s.holder[capability := id])
  }

  // ---------- Cancellation, clearing, shutdown ----------

  predicate Cancels(s: Fence, id: nat) {
    id in s.checks
  }

  function Cancel(s: Fence, id: nat): Fence {
    if !Cancels(s, id) then s else s.(checks := s.checks[id := Revoked], cancelled := s.cancelled + {id})
  }

  /** Executor tasks go on; what they were to be launched with does not outlive the conversation. */
  function Clear(s: Fence): Fence {
    if s.clearing || s.closed then s
    else s.(epoch := s.epoch + 1, clearing := true, checks := map[], turns := {}, capabilities := map[])
  }

  function Cleared(s: Fence): Fence {
    s.(clearing := false)
  }

  function Close(s: Fence): Fence {
    s.(closed := true, accepting := false, bindings := {},
       tasks := map id | id in s.tasks :: s.tasks[id].(aborted := true))
  }

  /** Once the tasks have stopped, or the grace period is over. */
  function Purge(s: Fence): Fence {
    if !s.closed then s else s.(checks := map[], turns := {}, capabilities := map[])
  }

  // ---------- Tasks ----------

  function Forget(s: Fence, id: nat): Fence {
    s.(tasks := s.tasks - {id})
  }

  predicate Live(s: Fence, id: nat, wanted: bool)
    requires id in s.tasks
  {
    && (id in s.checks || id in s.turns ==> wanted)
    && s.tasks[id].epoch == s.epoch && !s.clearing && s.accepting
  }

  /** Task, check, user turn and capability are used up together, whichever way the check goes. */
  function Consume(s: Fence, id: nat): Fence {
    Forget(s, id).(turns := s.turns - {id}, checks := s.checks - {id}, capabilities := s.capabilities - {id},
                   reached := s.reached + {id})
  }

  /** The launch check, which runs without interruption up to the adapter's call. */
  function Launch(s: Fence, id: nat, wanted: bool): Fence
    requires id in s.tasks
  {
    var revoked := id in s.checks && s.checks[id] == Revoked;
    var capability := if id in s.capabilities then Some(s.capabilities[id]) else None;
    if revoked || !Live(s, id, wanted) then Consume(s, id)
    else Consume(s, id).(dispatched := s.dispatched + [Dispatch(id, s.epoch, capability)])
  }

  /** The task's turn of the event loop: it may first have to wait for its binding. */
  function Start(s: Fence, id: nat, wanted: bool): Fence {
    if id !in s.tasks || s.tasks[id].bound then s
    else if !s.accepting || s.tasks[id].aborted then Forget(s, id)
    else if id in s.bindings then s.(bindings := s.bindings - {id}, tasks := s.tasks[id := s.tasks[id].(bound := true)])
    else Launch(s, id, wanted)
  }

  function Bound(s: Fence, id: nat, written: bool, wanted: bool): Fence {
    if id !in s.tasks || !s.tasks[id].bound then s
    else if !written then Forget(s, id)
    else Launch(s, id, wanted)
  }

  // ---------- What holds ----------

  ghost predicate Numbered(s: Fence) {
    && (forall k | 0 <= k < |s.admitted| :: s.admitted[k] <= s.epoch)
    && (forall id | id in s.tasks :: id < |s.admitted| && s.tasks[id].epoch == s.admitted[id] && id !in s.reached)
    && (forall id | id in s.reached :: id < |s.admitted|)
    && (forall id | id in s.cancelled :: id < |s.admitted|)
    && (forall id | id in s.bindings :: id < |s.admitted|)
    && (s.accepting <==> !s.closed)
    && (s.clearing ==> forall id | id in s.tasks :: s.tasks[id].epoch < s.epoch)
  }

  predicate Young(s: Fence, id: nat) {
    id < |s.admitted| && s.admitted[id] == s.epoch && id !in s.reached
  }

  /** Checks, user turns and capabilities are there only for this conversation, and only before the launch check. */
  ghost predicate Fresh(s: Fence) {
    && (forall id | id in s.checks :: Young(s, id))
    && (forall id | id in s.turns :: Young(s, id))
    && (forall id | id in s.capabilities :: Young(s, id))
  }

  /** Each capability stays with the one delegate it was admitted for. */
  ghost predicate Private(s: Fence) {
    && (forall id | id in s.capabilities :: s.capabilities[id] in s.holder && s.holder[s.capabilities[id]] == id)
    && (forall c | c in s.holder :: s.holder[c] < |s.admitted|)
  }

  /** What was dispatched had reached its check, once, in the epoch it was admitted in, with its own capability. */
  ghost predicate Proper(s: Fence) {
    && (forall i, j {:trigger s.dispatched[i], s.dispatched[j]} | 0 <= i < j < |s.dispatched| ::
          s.dispatched[i].id != s.dispatched[j].id)
    && forall i {:trigger s.dispatched[i]} | 0 <= i < |s.dispatched| ::
         var d := s.dispatched[i];
         && d.id in s.reached && d.id < |s.admitted| && d.epoch == s.admitted[d.id] && d.id !in s.cancelled
         && (d.capability.Some? ==> d.capability.value in s.holder && s.holder[d.capability.value] == d.id)
  }

  /** A cancelled delegate that could still start finds its null, an epoch that is over, or a stopped runtime. */
  ghost predicate Doomed(s: Fence) {
    && (forall id | id in s.cancelled && id in s.tasks ::
          (id in s.checks && s.checks[id] == Revoked) || s.tasks[id].epoch < s.epoch || !s.accepting)
    && (forall id | id in s.checks && s.checks[id] == Revoked :: id in s.cancelled)
  }

  ghost predicate Inv(s: Fence) {
    Numbered(s) && Fresh(s) && Private(s) && Proper(s) && Doomed(s)
  }

  // ---------- Every step keeps it ----------

  datatype Op =
    | Plain(ready: bool, turn: bool, check: bool)
    | Granted(ready: bool)
    | Confirmed(ready: bool, capability: nat, grant: bool)
    | Cancelling(id: nat)
    | Clearing
    | ClearingDone
    | Closing
    | Purging
    | Starts(id: nat, wanted: bool)
    | BindingDone(id: nat, written: bool, wanted: bool)

  function Step(s: Fence, op: Op): Fence {
    match op
    case Plain(ready, turn, check) => Admit(s, ready, turn, check)
    case Granted(ready) => AdmitTask(s, ready)
    case Confirmed(ready, capability, grant) => AdmitConfirmed(s, ready, capability, grant)
    case Cancelling(id) => Cancel(s, id)
    case Clearing => Clear(s)
    case ClearingDone => Cleared(s)
    case Closing => Close(s)
    case Purging => Purge(s)
    case Starts(id, wanted) => Start(s, id, wanted)
    case BindingDone(id, written, wanted) => Bound(s, id, written, wanted)
  }

  /** History only grows; what is dispatched meanwhile belongs to an epoch that was not over, and to a live runtime. */
  ghost predicate Grows(a: Fence, b: Fence) {
    && a.epoch <= b.epoch && (b.accepting ==> a.accepting) && (!a.accepting ==> a.dispatched == b.dispatched)
    && a.admitted <= b.admitted && a.dispatched <= b.dispatched && a.cancelled <= b.cancelled && a.reached <= b.reached
    && forall i {:trigger b.dispatched[i]} | |a.dispatched| <= i < |b.dispatched| :: b.dispatched[i].epoch >= a.epoch
  }

  lemma ConsumeKeeps(s: Fence, id: nat)
    requires Inv(s) && id in s.tasks
    ensures Inv(Consume(s, id)) && Grows(s, Consume(s, id))
  {
  }

  /** The launch check is where a cancellation, a clear and a shutdown are seen. */
  lemma LaunchIsProper(s: Fence, id: nat, wanted: bool)
    requires Numbered(s) && Private(s) && Proper(s) && Doomed(s) && id in s.tasks
    ensures Proper(Launch(s, id, wanted))
  {
  }

  lemma LaunchKeeps(s: Fence, id: nat, wanted: bool)
    requires Inv(s) && id in s.tasks
    ensures Inv(Launch(s, id, wanted)) && Grows(s, Launch(s, id, wanted))
  {
    LaunchIsProper(s, id, wanted);
    ConsumeKeeps(s, id);
  }

  lemma AdmitKeeps(s: Fence, ready: bool, turn: bool, check: bool)
    requires Inv(s)
    ensures Inv(Admit(s, ready, turn, check)) && Grows(s, Admit(s, ready, turn, check))
  {
    if Admits(s, ready) {
      OwnedKeeps(s);
      InstallKeeps(Owned(s), |s.admitted|, turn, check);
    }
  }

  lemma AdmitTaskKeeps(s: Fence, ready: bool)
    requires Inv(s)
    ensures Inv(AdmitTask(s, ready)) && Grows(s, AdmitTask(s, ready))
  {
    if Admits(s, ready) {
      OwnedKeeps(s);
      GuardKeeps(Owned(s), |s.admitted|, true);
    }
  }

  lemma OwnedKeeps(s: Fence)
    requires Inv(s) && !s.clearing
    ensures Inv(Owned(s)) && Grows(s, Owned(s)) && Young(Owned(s), |s.admitted|) && |s.admitted| !in s.cancelled
  {
  }

  lemma AdmitConfirmedKeeps(s: Fence, ready: bool, capability: nat, grant: bool)
    requires Inv(s)
    ensures Inv(AdmitConfirmed(s, ready, capability, grant)) && Grows(s, AdmitConfirmed(s, ready, capability, grant))
  {
    if Admits(s, ready) && capability !in s.holder {
      OwnedKeeps(s);
      var id := |s.admitted|;
      EntrustKeeps(Owned(s), id, capability);
      GuardKeeps(Entrust(Owned(s), id, capability), id, grant);
    }
  }

  lemma EntrustKeeps(s: Fence, id: nat, capability: nat)
    requires Inv(s) && Young(s, id) && capability !in s.holder
    ensures Inv(Entrust(s, id, capability)) && Young(Entrust(s, id, capability), id)
  {
  }

  lemma GuardKeeps(s: Fence, id: nat, grant: bool)
    requires Inv(s) && Young(s, id) && id !in s.cancelled
    ensures Inv(Guard(s, id, grant))
  {
  }

  lemma InstallKeeps(s: Fence, id: nat, turn: bool, check: bool)
    requires Inv(s) && Young(s, id) && id !in s.cancelled
    ensures Inv(Install(s, id, turn, check))
  {
  }

  lemma CancelKeeps(s: Fence, id: nat)
    requires Inv(s)
    ensures Inv(Cancel(s, id)) && Grows(s, Cancel(s, id))
  {
  }

  lemma ClearKeeps(s: Fence)
    requires Inv(s)
    ensures Inv(Clear(s)) && Grows(s, Clear(s))
  {
  }

  lemma ClearedKeeps(s: Fence)
    requires Inv(s)
    ensures Inv(Cleared(s)) && Grows(s, Cleared(s))
  {
  }

  lemma CloseKeeps(s: Fence)
    requires Inv(s)
    ensures Inv(Close(s)) && Grows(s, Close(s))
  {
  }

  lemma PurgeKeeps(s: Fence)
    requires Inv(s)
    ensures Inv(Purge(s)) && Grows(s, Purge(s))
  {
  }

  lemma ForgetKeeps(s: Fence, id: nat)
    requires Inv(s)
    ensures Inv(Forget(s, id)) && Grows(s, Forget(s, id))
  {
  }

  lemma AwaitKeeps(s: Fence, id: nat)
    requires Inv(s) && id in s.tasks
    ensures var w := s.(bindings := s.bindings - {id}, tasks := s.tasks[id := s.tasks[id].(bound := true)]);
      Inv(w) && Grows(s, w)
  {
  }

  lemma StartKeeps(s: Fence, id: nat, wanted: bool)
    requires Inv(s)
    ensures Inv(Start(s, id, wanted)) && Grows(s, Start(s, id, wanted))
  {
    ForgetKeeps(s, id);
    if id in s.tasks {
      AwaitKeeps(s, id);
      LaunchKeeps(s, id, wanted);
    }
  }

  lemma BoundKeeps(s: Fence, id: nat, written: bool, wanted: bool)
    requires Inv(s)
    ensures Inv(Bound(s, id, written, wanted)) && Grows(s, Bound(s, id, written, wanted))
  {
    ForgetKeeps(s, id);
    if id in s.tasks { LaunchKeeps(s, id, wanted); }
  }

  lemma StepKeeps(s: Fence, op: Op)
    requires Inv(s)
    ensures Inv(Step(s, op)) && Grows(s, Step(s, op))
  {
    match op
    case Plain(ready, turn, check) => AdmitKeeps(s, ready, turn, check);
    case Granted(ready) => AdmitTaskKeeps(s, ready);
    case Confirmed(ready, capability, grant) => AdmitConfirmedKeeps(s, ready, capability, grant);
    case Cancelling(id) => CancelKeeps(s, id);
    case Clearing => ClearKeeps(s);
    case ClearingDone => ClearedKeeps(s);
    case Closing => CloseKeeps(s);
    case Purging => PurgeKeeps(s);
    case Starts(id, wanted) => StartKeeps(s, id, wanted);
    case BindingDone(id, written, wanted) => BoundKeeps(s, id, written, wanted);
  }

  // ---------- Runs ----------

  const START := Fence(0, false, false, true, map[], map[], {}, map[], {}, [], map[], {}, {}, [])

  function Run(ops: seq<Op>): Fence {
    if ops == [] then START else Step(Run(ops[..|ops| - 1]), ops[|ops| - 1])
  }

  lemma {:induction false} RunKeeps(ops: seq<Op>)
    ensures Inv(Run(ops))
  {
    if ops != [] {
      RunKeeps(ops[..|ops| - 1]);
      StepKeeps(Run(ops[..|ops| - 1]), ops[|ops| - 1]);
    }
  }

  lemma GrowsOn(a: Fence, b: Fence, c: Fence)
    requires Grows(a, b) && Grows(b, c)
    ensures Grows(a, c)
  {
    forall i | |a.dispatched| <= i < |c.dispatched|
      ensures c.dispatched[i].epoch >= a.epoch
    {
      if i < |b.dispatched| { assert c.dispatched[i] == b.dispatched[i]; }
    }
  }

  lemma {:induction false} RunGrows(ops: seq<Op>, n: nat)
    requires n <= |ops|
    ensures Grows(Run(ops[..n]), Run(ops))
  {
    if n == |ops| {
      assert ops[..n] == ops;
    } else {
      var front := ops[..|ops| - 1];
      assert front[..n] == ops[..n];
      RunGrows(front, n);
      RunKeeps(front);
      StepKeeps(Run(front), ops[|ops| - 1]);
      GrowsOn(Run(ops[..n]), Run(front), Run(ops));
    }
  }

  /** A cancellation that reported success holds, whatever happens before and after it. */
  lemma CancelledNeverDispatched(ops: seq<Op>, n: nat, id: nat)
    requires n < |ops| && ops[n] == Cancelling(id) && Cancels(Run(ops[..n]), id)
    ensures forall i | 0 <= i < |Run(ops).dispatched| :: Run(ops).dispatched[i].id != id
  {
    assert ops[..n + 1][..n] == ops[..n];
    assert id in Run(ops[..n + 1]).cancelled;
    RunGrows(ops, n + 1);
    RunKeeps(ops);
  }

  /** After a clear nothing that was admitted before it is launched; after a shutdown nothing is. */
  lemma ClearedNeverDispatched(ops: seq<Op>, n: nat, i: nat)
    requires n <= |ops| && |Run(ops[..n]).dispatched| <= i < |Run(ops).dispatched|
    ensures var d := Run(ops).dispatched[i];
      && d.id < |Run(ops).admitted| && Run(ops).admitted[d.id] == d.epoch >= Run(ops[..n]).epoch
      && Run(ops[..n]).accepting
  {
    RunGrows(ops, n);
    RunKeeps(ops);
  }

  /** No two dispatches carry one capability, and none is left in the table once its delegate was checked. */
  lemma CapabilityOnce(ops: seq<Op>, i: nat, j: nat)
    requires i < |Run(ops).dispatched| && j < |Run(ops).dispatched|
    requires Run(ops).dispatched[i].capability.Some?
    requires Run(ops).dispatched[i].capability == Run(ops).dispatched[j].capability
    ensures i == j && Run(ops).dispatched[i].id !in Run(ops).capabilities
  {
    RunKeeps(ops);
  }

  lemma CheckedLeavesNothing(ops: seq<Op>, id: nat)
    requires id in Run(ops).reached
    ensures var s := Run(ops); id !in s.capabilities && id !in s.checks && id !in s.turns && id !in s.tasks
  {
    RunKeeps(ops);
  }

  // ---------- What an admission brings ----------

  /** What a delegate is admitted with. */
  datatype Terms = Terms(turn: bool, check: bool, grant: bool, capability: Option<nat>)

  /**
   * The new delegate is owned in the present epoch, waits for a binding exactly if there is a grant, and has
   * exactly the check, the user turn and the capability of its terms; a check it has stands as authorized.
   */
  ghost predicate Enters(s: Fence, terms: Terms, t: Fence) {
    var id := |s.admitted|;
    && t.admitted == s.admitted + [s.epoch] && id in t.tasks && t.tasks[id] == Task(s.epoch, false, false)
    && (Cancels(t, id) <==> terms.check) && (terms.check ==> t.checks[id] == Authorized)
    && (id in t.turns <==> terms.turn)
    && (id in t.bindings <==> terms.grant)
    && (id in t.capabilities <==> terms.capability.Some?)
    && (terms.capability.Some? ==> t.capabilities[id] == terms.capability.value && terms.capability.value in t.holder)
  }

  /** The delegate has in `t` what it had in `s`. */
  ghost predicate SameDelegate(s: Fence, t: Fence, x: nat) {
    && (x in t.tasks <==> x in s.tasks) && (x in s.tasks ==> t.tasks[x] == s.tasks[x])
    && (x in t.checks <==> x in s.checks) && (x in s.checks ==> t.checks[x] == s.checks[x])
    && (x in t.turns <==> x in s.turns)
    && (x in t.bindings <==> x in s.bindings)
    && (x in t.capabilities <==> x in s.capabilities)
    && (x in s.capabilities ==> t.capabilities[x] == s.capabilities[x])
  }

  /** Nothing but the number of delegates and the tables is different, and there nothing of another delegate. */
  ghost predicate NoneElse(s: Fence, t: Fence) {
    && t.epoch == s.epoch && t.clearing == s.clearing && t.closed == s.closed && t.accepting == s.accepting
    && t.reached == s.reached && t.cancelled == s.cancelled && t.dispatched == s.dispatched
    && forall x {:trigger SameDelegate(s, t, x)} | x != |s.admitted| :: SameDelegate(s, t, x)
  }

  /** An admission is refused and changes nothing, or brings a delegate on these terms and changes nothing else. */
  ghost predicate Admission(s: Fence, admitted: bool, terms: Terms, t: Fence) {
    if admitted then Enters(s, terms, t) && NoneElse(s, t) else t == s
  }

  /** No delegate of a number that was not given out yet is in any table. */
  ghost predicate Unheard(s: Fence, id: nat) {
    id !in s.tasks && id !in s.checks && id !in s.turns && id !in s.bindings && id !in s.capabilities
  }

  lemma NextIsUnheard(s: Fence)
    requires Inv(s)
    ensures Unheard(s, |s.admitted|)
  {
  }

  lemma AdmitMeans(s: Fence, ready: bool, turn: bool, check: bool)
    requires Inv(s)
    ensures Admission(s, ready && !s.closed && !s.clearing, Terms(turn, check, false, None),
                      Admit(s, ready, turn, check))
  {
    NextIsUnheard(s);
  }

  /** A task grant always brings a check and a binding. */
  lemma AdmitTaskMeans(s: Fence, ready: bool)
    requires Inv(s)
    ensures Admission(s, ready && !s.closed && !s.clearing, Terms(false, true, true, None), AdmitTask(s, ready))
  {
    NextIsUnheard(s);
  }

  /** A confirmation always brings a check, and its capability once. */
  lemma AdmitConfirmedMeans(s: Fence, ready: bool, capability: nat, grant: bool)
    requires Inv(s)
    ensures Admission(s, ready && !s.closed && !s.clearing && capability !in s.holder,
                      Terms(false, true, grant, Some(capability)), AdmitConfirmed(s, ready, capability, grant))
  {
    NextIsUnheard(s);
  }

  // ---------- What is left behind ----------

  /** The delegate still has something in the tables it was to be launched with. */
  predicate Left(s: Fence, id: nat) {
    id in s.checks || id in s.turns || id in s.capabilities
  }

  /** The step is the task's launch check. */
  predicate Checks(s: Fence, op: Op, id: nat)
    requires id in s.tasks
  {
    || (op.Starts? && op.id == id && !s.tasks[id].bound && s.accepting && !s.tasks[id].aborted && id !in s.bindings)
    || (op.BindingDone? && op.id == id && s.tasks[id].bound && op.written)
  }

  /**
   * A task that ends takes along what it was to be launched with if and only if it ends at its launch check:
   * one that is stopped before, or whose binding fails, leaves it in the tables.
   */
  lemma EndsLeavingIff(s: Fence, op: Op, id: nat)
    requires Inv(s) && id in s.tasks && id !in Step(s, op).tasks
    ensures Left(Step(s, op), id) <==> Left(s, id) && !Checks(s, op, id)
  {
    match op
    case Starts(x, wanted) => StartLeaving(s, x, wanted, id);
    case BindingDone(x, written, wanted) => BoundLeaving(s, x, written, wanted, id);
    case _ => OthersKeepTasks(s, op, id);
  }

  lemma OthersKeepTasks(s: Fence, op: Op, id: nat)
    requires id in s.tasks && !op.Starts? && !op.BindingDone?
    ensures id in Step(s, op).tasks
  {
  }

  lemma StartLeaving(s: Fence, x: nat, wanted: bool, id: nat)
    requires id in s.tasks && id !in Start(s, x, wanted).tasks
    ensures Left(Start(s, x, wanted), id) <==> Left(s, id) && !Checks(s, Starts(x, wanted), id)
  {
    assert x == id by {
      if x in s.tasks && x != id { OtherTaskStays(s, x, wanted, id); }
    }
    LaunchTakes(s, id, wanted, id);
  }

  lemma OtherTaskStays(s: Fence, x: nat, wanted: bool, id: nat)
    requires x in s.tasks && id in s.tasks && x != id
    ensures id in Start(s, x, wanted).tasks
  {
    LaunchTakes(s, x, wanted, id);
  }

  lemma BoundLeaving(s: Fence, x: nat, written: bool, wanted: bool, id: nat)
    requires id in s.tasks && id !in Bound(s, x, written, wanted).tasks
    ensures Left(Bound(s, x, written, wanted), id) <==> Left(s, id) && !Checks(s, BindingDone(x, written, wanted), id)
  {
    if x in s.tasks { LaunchTakes(s, x, wanted, id); }
  }

  lemma LaunchTakes(s: Fence, x: nat, wanted: bool, id: nat)
    requires x in s.tasks
    ensures Left(Launch(s, x, wanted), id) <==> Left(s, id) && x != id
    ensures id in Launch(s, x, wanted).tasks <==> id in s.tasks && x != id
  {
  }

  // ---------- What the steps mean ----------

  /** Nobody cancelled the task, it is still wanted if anyone is to be asked, and its conversation goes on. */
  ghost predicate Due(s: Fence, id: nat, wanted: bool) {
    && id !in s.cancelled && (id in s.checks || id in s.turns ==> wanted)
    && id < |s.admitted| && s.admitted[id] == s.epoch && !s.clearing && s.accepting
  }

  /** The last dispatch is the task's own, in the epoch it was admitted in, with its capability, which no other had. */
  ghost predicate DispatchedLast(s: Fence, id: nat, t: Fence) {
    && |t.dispatched| == |s.dispatched| + 1 && s.dispatched <= t.dispatched
    && var d := t.dispatched[|s.dispatched|];
       && d.id == id < |s.admitted| && d.epoch == s.admitted[id]
       && (d.capability.Some? <==> id in s.capabilities)
       && (d.capability.Some? ==>
             && d.capability.value == s.capabilities[id]
             && forall e | e in s.dispatched :: e.capability != d.capability)
  }

  /** From `s` to `t` the task went through its check: it and its tables are gone, and it was dispatched if due. */
  ghost predicate Checked(s: Fence, id: nat, wanted: bool, t: Fence) {
    && id !in t.tasks && !Left(t, id) && id in t.reached
    && (forall x | x != id :: (Left(t, x) <==> Left(s, x)) && (x in t.tasks <==> x in s.tasks))
    && (if Due(s, id, wanted) then DispatchedLast(s, id, t) else t.dispatched == s.dispatched)
  }

  /** From `s` to `t` nothing was dispatched and nothing was taken from the tables of any delegate. */
  ghost predicate Untouched(s: Fence, t: Fence) {
    t.dispatched == s.dispatched && forall x :: Left(t, x) <==> Left(s, x)
  }

  lemma DispatchMeans(s: Fence, id: nat, wanted: bool)
    requires Inv(s) && id in s.tasks
    ensures if Due(s, id, wanted) then DispatchedLast(s, id, Launch(s, id, wanted))
            else Launch(s, id, wanted).dispatched == s.dispatched
  {
    if id in s.capabilities {
      forall e | e in s.dispatched
        ensures e.capability != Some(s.capabilities[id])
      {
        var i :| 0 <= i < |s.dispatched| && s.dispatched[i] == e;
      }
    }
  }

  lemma LaunchMeans(s: Fence, id: nat, wanted: bool)
    requires Inv(s) && id in s.tasks
    ensures Checked(s, id, wanted, Launch(s, id, wanted))
  {
    DispatchMeans(s, id, wanted);
    forall x
      ensures Left(Launch(s, id, wanted), x) <==> Left(s, x) && x != id
      ensures x in Launch(s, id, wanted).tasks <==> x in s.tasks && x != id
    {
      LaunchTakes(s, id, wanted, x);
    }
  }

  /** The step went through the launch check or touched nothing that tasks are launched with. */
  ghost predicate CheckedOrUntouched(s: Fence, op: Op, id: nat, wanted: bool, t: Fence)
    requires id in s.tasks
  {
    if Checks(s, op, id) then Checked(s, id, wanted, t) else Untouched(s, t)
  }

  lemma StartTouchesNothing(s: Fence, id: nat, wanted: bool)
    requires id in s.tasks && !Checks(s, Starts(id, wanted), id)
    ensures Untouched(s, Start(s, id, wanted))
  {
  }

  lemma StartMeans(s: Fence, id: nat, wanted: bool)
    requires Inv(s) && id in s.tasks
    ensures CheckedOrUntouched(s, Starts(id, wanted), id, wanted, Start(s, id, wanted))
  {
    if Checks(s, Starts(id, wanted), id) {
      assert Start(s, id, wanted) == Launch(s, id, wanted);
      LaunchMeans(s, id, wanted);
    } else {
      StartTouchesNothing(s, id, wanted);
    }
  }

  lemma BoundMeans(s: Fence, id: nat, written: bool, wanted: bool)
    requires Inv(s) && id in s.tasks
    ensures CheckedOrUntouched(s, BindingDone(id, written, wanted), id, wanted, Bound(s, id, written, wanted))
  {
    LaunchMeans(s, id, wanted);
  }

  /** No task there is can be launched any more. */
  ghost predicate NothingLaunches(s: Fence) {
    forall id, wanted {:trigger Live(s, id, wanted)} | id in s.tasks :: !Live(s, id, wanted)
  }

  /** After a clear that holds at once and for good, and after a shutdown. */
  lemma FenceHolds(s: Fence)
    requires Inv(s)
    ensures NothingLaunches(Clear(s)) && NothingLaunches(Cleared(Clear(s)))
    ensures NothingLaunches(Close(s)) && NothingLaunches(Purge(Close(s)))
  {
  }

  /** A conversation is cleared once until that has settled, and never after a shutdown. */
  lemma ClearsOnce(s: Fence)
    ensures Clear(Clear(s)) == Clear(s)
    ensures s.closed ==> Clear(s) == s
    ensures !s.clearing && !s.closed ==>
              Clear(s).epoch == s.epoch + 1 && !Cleared(Clear(s)).clearing && Admits(Cleared(Clear(s)), true)
    ensures !s.clearing && !s.closed ==> !Admits(Clear(s), true)
    ensures !Admits(Close(s), true) && Cleared(Close(s)).closed
  {
  }

  /** What was left behind goes with the next clear, and with the end of a shutdown. */
  lemma LeftUntilClear(s: Fence, id: nat)
    ensures !s.clearing && !s.closed ==> !Left(Clear(s), id)
    ensures s.closed ==> !Left(Purge(s), id)
  {
  }

  /** A binding that fails leaves check and capability behind ... */
  lemma FailedBindingLeavesCapability()
    ensures var s := Run([Confirmed(true, 7, true), Starts(0, true), BindingDone(0, false, true)]);
      s.tasks == map[] && s.reached == {} && s.capabilities == map[0 := 7] && Cancels(s, 0)
  {
    RunOfThree(Confirmed(true, 7, true), Starts(0, true), BindingDone(0, false, true));
    assert Confirmation(true).bindings == {0};
    assert Start(Confirmation(true), 0, true).tasks == map[0 := Task(0, false, true)];
  }

  /** ... and so does a shutdown that comes before the task's turn. */
  lemma ShutdownLeavesCapability()
    ensures var s := Run([Confirmed(true, 7, false), Closing, Starts(0, true)]);
      s.tasks == map[] && s.reached == {} && s.capabilities == map[0 := 7] && Cancels(s, 0)
  {
    RunOfThree(Confirmed(true, 7, false), Closing, Starts(0, true));
    assert Close(Confirmation(false)).tasks == map[0 := Task(0, true, false)];
  }

  function Confirmation(grant: bool): (s: Fence)
    ensures s == Step(START, Confirmed(true, 7, grant))
  {
    Fence(0, false, false, true, map[0 := Task(0, false, false)], map[0 := Authorized], {}, map[0 := 7],
          if grant then {0} else {}, [0], map[7 := 0], {}, {}, [])
  }

  lemma RunOfThree(a: Op, b: Op, c: Op)
    ensures Run([a, b, c]) == Step(Step(Step(START, a), b), c)
  {
    assert [a, b, c][..2] == [a, b] && [a, b][..1] == [a] && [a][..0] == [];
    assert Run([a]) == Step(START, a);
    assert Run([a, b]) == Step(Run([a]), b);
  }
}
