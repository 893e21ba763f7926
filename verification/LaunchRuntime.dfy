/** The runtime's fields behind the launch fence; its methods do what the fence's steps do. */
module LaunchRuntime {
  import opened Common
  import opened LaunchFence

  class CausalRuntime {
    /** The core's counters for conversations and delegates. */
    var conversationEpoch: nat
    var nextDelegate: nat
    var clearing: bool
    var closed: bool
    var acceptCompletions: bool
    var tasks: map<nat, Task>
    var launchChecks: map<nat, Check>
    var userTurns: set<nat>
    var hostExecutorCapabilities: map<nat, nat>
    var taskBindings: set<nat>
    /** Capabilities in the phase `admitted`. */
    var admittedCapabilities: set<nat>
    ghost var admitted: seq<nat>
    ghost var holder: map<nat, nat>
    ghost var reached: set<nat>
    ghost var cancelled: set<nat>
    ghost var dispatched: seq<Dispatch>

    ghost function Model(): Fence
      reads this
    {
      Fence(conversationEpoch, clearing, closed, acceptCompletions,
            tasks, launchChecks, userTurns, hostExecutorCapabilities, taskBindings,
            admitted, holder, reached, cancelled, dispatched)
    }

    ghost predicate Valid()
      reads this
    {
      Inv(Model()) && nextDelegate == |admitted| && admittedCapabilities == holder.Keys
    }

    constructor ()
      ensures Valid() && Model() == START
    {
      conversationEpoch, nextDelegate, clearing, closed, acceptCompletions := 0, 0, false, false, true;
      tasks, launchChecks, userTurns, hostExecutorCapabilities, taskBindings := map[], map[], {}, map[], {};
      admittedCapabilities := {};
      admitted, holder, reached, cancelled, dispatched := [], map[], {}, {}, [];
    }

    /** The core hands out the next delegate and its executor task is owned, in one go. */
    method OwnTask() returns (id: nat)
      requires nextDelegate == |admitted|
      modifies this`nextDelegate, this`tasks, this`admitted
      ensures id == old(nextDelegate) && Model() == Owned(old(Model())) && nextDelegate == |admitted|
    {
      id := nextDelegate;
      tasks := tasks[id := Task(conversationEpoch, false, false)];
      admitted := admitted + [conversationEpoch];
      nextDelegate := nextDelegate + 1;
    }

    /** Work without a grant: it has a user turn and a check exactly if it was given them. */
    method DispatchExternal(ready: bool, userTurn: bool, stillWanted: bool) returns (id: Option<nat>)
      requires Valid()
      modifies this`nextDelegate, this`tasks, this`admitted, this`userTurns, this`launchChecks
      ensures Valid() && Model() == Admit(old(Model()), ready, userTurn, stillWanted)
      ensures id == if ready && !closed && !clearing then Some(old(nextDelegate)) else None
      ensures Admission(old(Model()), id.Some?, Terms(userTurn, stillWanted, false, None), Model())
    {
      AdmitMeans(Model(), ready, userTurn, stillWanted);
      AdmitKeeps(Model(), ready, userTurn, stillWanted);
      if closed || clearing || !ready { return None; }
      var d := OwnChecked(userTurn, stillWanted);
      return Some(d);
    }

    method OwnChecked(userTurn: bool, stillWanted: bool) returns (d: nat)
      requires nextDelegate == |admitted| && !closed && !clearing
      modifies this`nextDelegate, this`tasks, this`admitted, this`userTurns, this`launchChecks
      ensures Model() == Admit(old(Model()), true, userTurn, stillWanted)
      ensures d == old(nextDelegate) && nextDelegate == |admitted|
    {
      d := OwnTask();
      if userTurn { userTurns := userTurns + {d}; }
      if stillWanted { launchChecks := launchChecks[d := Authorized]; }
    }

    /** Work of a task grant: it always has a check, and waits for its binding. */
    method DispatchTaskExternal(ready: bool) returns (id: Option<nat>)
      requires Valid()
      modifies this`nextDelegate, this`tasks, this`admitted, this`launchChecks, this`taskBindings
      ensures Valid() && Model() == AdmitTask(old(Model()), ready)
      ensures id == if ready && !closed && !clearing then Some(old(nextDelegate)) else None
      ensures Admission(old(Model()), id.Some?, Terms(false, true, true, None), Model())
    {
      AdmitTaskMeans(Model(), ready);
      AdmitTaskKeeps(Model(), ready);
      if closed || clearing || !ready { return None; }
      var d := OwnGranted();
      return Some(d);
    }

    method OwnGranted() returns (d: nat)
      requires nextDelegate == |admitted| && !closed && !clearing
      modifies this`nextDelegate, this`tasks, this`admitted, this`launchChecks, this`taskBindings
      ensures Model() == AdmitTask(old(Model()), true)
      ensures d == old(nextDelegate) && nextDelegate == |admitted|
    {
      d := OwnTask();
      launchChecks := launchChecks[d := Authorized];
      taskBindings := taskBindings + {d};
    }

    /** Confirmed work: it always has a check, and carries its capability, which is admitted only once. */
    method DispatchConfirmedExternal(ready: bool, capability: nat, taskContext: bool) returns (id: Option<nat>)
      requires Valid()
      modifies this`nextDelegate, this`tasks, this`admitted, this`launchChecks, this`taskBindings,
               this`hostExecutorCapabilities, this`admittedCapabilities, this`holder
      ensures Valid() && Model() == AdmitConfirmed(old(Model()), ready, capability, taskContext)
      ensures id == if ready && !closed && !clearing && capability !in old(admittedCapabilities)
                    then Some(old(nextDelegate)) else None
      ensures Admission(old(Model()), id.Some?, Terms(false, true, taskContext, Some(capability)), Model())
    {
      AdmitConfirmedMeans(Model(), ready, capability, taskContext);
      id := AdmitOnce(ready, capability, taskContext);
    }

    method AdmitOnce(ready: bool, capability: nat, taskContext: bool) returns (id: Option<nat>)
      requires Valid()
      modifies this`nextDelegate, this`tasks, this`admitted, this`launchChecks, this`taskBindings,
               this`hostExecutorCapabilities, this`admittedCapabilities, this`holder
      ensures Valid() && Model() == AdmitConfirmed(old(Model()), ready, capability, taskContext)
      ensures id == if ready && !closed && !clearing && capability !in old(admittedCapabilities)
                    then Some(old(nextDelegate)) else None
    {
      AdmitConfirmedKeeps(Model(), ready, capability, taskContext);
      if closed || clearing || !ready || capability in admittedCapabilities { return None; }
      var d := AdmitCapability(capability, taskContext);
      return Some(d);
    }

    method AdmitCapability(capability: nat, taskContext: bool) returns (d: nat)
      requires nextDelegate == |admitted| && !closed && !clearing && capability !in holder
      modifies this`nextDelegate, this`tasks, this`admitted, this`launchChecks, this`taskBindings,
               this`hostExecutorCapabilities, this`admittedCapabilities, this`holder
      ensures Model() == AdmitConfirmed(old(Model()), true, capability, taskContext)
      ensures d == old(nextDelegate) && nextDelegate == |admitted|
      ensures admittedCapabilities == old(admittedCapabilities) + {capability}
    {
      ghost var before := Model();
      d := OwnTask();
      admittedCapabilities := admittedCapabilities + {capability};
      holder := holder[capability := d];
      hostExecutorCapabilities := hostExecutorCapabilities[d := capability];
      assert Model() == Entrust(Owned(before), d, capability);
      if taskContext { taskBindings := taskBindings + {d}; }
      launchChecks := launchChecks[d := Authorized];
      assert Model() == Guard(Entrust(Owned(before), d, capability), d, taskContext);
    }

    method CancelPendingDispatch(id: nat) returns (done: bool)
      requires Valid()
      modifies this`launchChecks, this`cancelled
      ensures Valid() && Model() == Cancel(old(Model()), id) && done == Cancels(old(Model()), id)
      ensures done <==> id in old(launchChecks)
      ensures done ==> id in cancelled && launchChecks == old(launchChecks)[id := Revoked]
      ensures !done ==> Model() == old(Model())
    {
      CancelKeeps(Model(), id);
      if id !in launchChecks { return false; }
      launchChecks := launchChecks[id := Revoked];
      cancelled := cancelled + {id};
      return true;
    }

    /** A conversation that is cleared: no task there is will be launched, now or once the clear has settled. */
    method ClearConversation()
      requires Valid()
      modifies this`conversationEpoch, this`clearing, this`launchChecks, this`userTurns, this`hostExecutorCapabilities
      ensures Valid() && Model() == Clear(old(Model()))
      ensures NothingLaunches(Model()) && NothingLaunches(Cleared(Model()))
      ensures !old(clearing) && !closed ==>
                conversationEpoch == old(conversationEpoch) + 1 && clearing && forall id :: !Left(Model(), id)
      ensures old(clearing) || closed ==> Model() == old(Model())
    {
      ghost var before := Model();
      ClearKeeps(before);
      FenceHolds(before);
      if !clearing && !closed { BeginClearing(); }
    }

    method BeginClearing()
      requires !clearing && !closed
      modifies this`conversationEpoch, this`clearing, this`launchChecks, this`userTurns, this`hostExecutorCapabilities
      ensures Model() == Clear(old(Model()))
    {
      clearing := true;
      conversationEpoch := conversationEpoch + 1;
      hostExecutorCapabilities := map[];
      userTurns := {};
      launchChecks := map[];
    }

    method ClearingSettled()
      requires Valid()
      modifies this`clearing
      ensures Valid() && Model() == Cleared(old(Model())) && !clearing
    {
      ClearedKeeps(Model());
      clearing := false;
    }

    /** Serving ends: completions are off and every owned task is aborted, so none of them will be launched. */
    method Shutdown()
      requires Valid()
      modifies this`closed, this`acceptCompletions, this`taskBindings, this`tasks
      ensures Valid() && Model() == Close(old(Model()))
      ensures NothingLaunches(Model()) && NothingLaunches(Purge(Model()))
    {
      ghost var before := Model();
      CloseKeeps(before);
      FenceHolds(before);
      AbortTasks();
    }

    method AbortTasks()
      modifies this`closed, this`acceptCompletions, this`taskBindings, this`tasks
      ensures Model() == Close(old(Model()))
    {
      closed := true;
      taskBindings := {};
      acceptCompletions := false;
      tasks := map id | id in tasks :: tasks[id].(aborted := true);
    }

    /** The end of a shutdown takes whatever tasks have left behind. */
    method TasksStopped()
      requires Valid()
      modifies this`launchChecks, this`userTurns, this`hostExecutorCapabilities
      ensures Valid() && Model() == Purge(old(Model()))
      ensures closed ==> forall id :: !Left(Model(), id)
    {
      ghost var before := Model();
      PurgeKeeps(before);
      if closed {
        hostExecutorCapabilities := map[];
        userTurns := {};
        launchChecks := map[];
      }
      assert Model() == Purge(before);
    }

    /**
     * The launch check and the adapter's call. The check looks at tables that a clear has emptied and at a null that
     * a cancellation has left; what it decides is whether the task is due.
     */
    method RunTask(id: nat, wanted: bool) returns (called: bool)
      requires Valid() && id in tasks
      modifies this`tasks, this`userTurns, this`launchChecks, this`hostExecutorCapabilities
      modifies this`reached, this`dispatched
      ensures Valid() && Model() == Launch(old(Model()), id, wanted)
      ensures Checked(old(Model()), id, wanted, Model())
      ensures called == Due(old(Model()), id, wanted)
    {
      ghost var before := Model();
      LaunchKeeps(before, id, wanted);
      LaunchMeans(before, id, wanted);
      called := CheckAndCall(id, wanted);
      assert called == Due(before, id, wanted);
    }

    method CheckAndCall(id: nat, wanted: bool) returns (called: bool)
      requires id in tasks
      modifies this`tasks, this`userTurns, this`launchChecks, this`hostExecutorCapabilities
      modifies this`reached, this`dispatched
      ensures Model() == Launch(old(Model()), id, wanted)
      ensures called <==> |dispatched| > |old(dispatched)|
    {
      var epoch := tasks[id].epoch;
      var userTurn := id in userTurns;
      var launchCheck := if id in launchChecks then Some(launchChecks[id]) else None;
      var capability := if id in hostExecutorCapabilities then Some(hostExecutorCapabilities[id]) else None;
      ConsumeTables(id);
      if launchCheck == Some(Revoked) { return false; }
      var live := (if launchCheck.Some? || userTurn then wanted else true)
                  && epoch == conversationEpoch && !clearing && acceptCompletions;
      if !live { return false; }
      dispatched := dispatched + [Dispatch(id, conversationEpoch, capability)];
      return true;
    }

    /** The task, its check and its user turn are taken; the capability is deleted on each of the three ways on. */
    method ConsumeTables(id: nat)
      modifies this`tasks, this`userTurns, this`launchChecks, this`hostExecutorCapabilities, this`reached
      ensures Model() == Consume(old(Model()), id)
    {
      tasks := tasks - {id};
      reached := reached + {id};
      userTurns := userTurns - {id};
      launchChecks := launchChecks - {id};
      hostExecutorCapabilities := hostExecutorCapabilities - {id};
    }

    /** A task's turn goes through its launch check, or nothing is dispatched and nothing leaves the tables. */
    method TaskTurn(id: nat, wanted: bool)
      requires Valid() && id in tasks
      modifies this`tasks, this`taskBindings, this`userTurns, this`launchChecks, this`hostExecutorCapabilities,
               this`reached, this`dispatched
      ensures Valid() && Model() == Start(old(Model()), id, wanted)
      ensures CheckedOrUntouched(old(Model()), Starts(id, wanted), id, wanted, Model())
    {
      ghost var before := Model();
      RunTurnSafely(id, wanted);
      StartMeans(before, id, wanted);
    }

    method RunTurnSafely(id: nat, wanted: bool)
      requires Valid() && id in tasks
      modifies this`tasks, this`taskBindings, this`userTurns, this`launchChecks, this`hostExecutorCapabilities,
               this`reached, this`dispatched
      ensures Valid() && Model() == Start(old(Model()), id, wanted)
    {
      StartKeeps(Model(), id, wanted);
      RunTurn(id, wanted);
    }

    method RunTurn(id: nat, wanted: bool)
      requires id in tasks
      modifies this`tasks, this`taskBindings, this`userTurns, this`launchChecks, this`hostExecutorCapabilities,
               this`reached, this`dispatched
      ensures Model() == Start(old(Model()), id, wanted)
    {
      if tasks[id].bound { return; }
      if !acceptCompletions || tasks[id].aborted {
        tasks := tasks - {id};
      } else if id in taskBindings {
        taskBindings := taskBindings - {id};
        tasks := tasks[id := tasks[id].(bound := true)];
      } else {
        var _ := CheckAndCall(id, wanted);
      }
    }

    /** So does the end of its binding: one that failed leaves everything where it is but the task. */
    method BindingSettled(id: nat, written: bool, wanted: bool)
      requires Valid() && id in tasks && tasks[id].bound
      modifies this`tasks, this`userTurns, this`launchChecks, this`hostExecutorCapabilities
      modifies this`reached, this`dispatched
      ensures Valid() && Model() == Bound(old(Model()), id, written, wanted) && id !in tasks
      ensures CheckedOrUntouched(old(Model()), BindingDone(id, written, wanted), id, wanted, Model())
    {
      ghost var before := Model();
      BoundKeeps(before, id, written, wanted);
      BoundMeans(before, id, written, wanted);
      RunBound(id, written, wanted);
    }

    method RunBound(id: nat, written: bool, wanted: bool)
      requires id in tasks && tasks[id].bound
      modifies this`tasks, this`userTurns, this`launchChecks, this`hostExecutorCapabilities
      modifies this`reached, this`dispatched
      ensures Model() == Bound(old(Model()), id, written, wanted)
    {
      if !written {
        tasks := tasks - {id};
      } else {
        var _ := CheckAndCall(id, wanted);
      }
    }
  }
}
