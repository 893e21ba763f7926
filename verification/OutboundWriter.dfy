/** The desktop server's fields for outbound sends; its methods do what the state machine does. */
module OutboundWriter {
  import opened Common
  import opened OutboundMeaning
  import opened OutboundModel
  import OutboundRuns

  class DesktopWriter {
    var active: Option<nat>
    var authenticated: bool
    var stopping: bool
    var pendingSends: seq<Send>
    var currentSend: Option<Send>
    var writerRunning: bool
    var pendingSendCount: int
    /** Identities for the next socket and the next send. */
    var nextSocket: nat
    var nextId: nat
    ghost var fate: seq<Option<Outcome>>
    ghost var wire: seq<Frame>

    ghost function Model(): Writer
      reads this
    {
      Writer(Gate(active, authenticated, stopping), nextSocket, currentSend, pendingSends, fate, wire)
    }

    /** What holds in the middle of an operation: the count is the number of unsettled sends. */
    ghost predicate Live()
      reads this
    {
      Sound(Model()) && pendingSendCount == Model().Unsettled() && nextId == |fate|
    }

    /** Between events the writer runs exactly while a frame is in flight. */
    ghost predicate Valid()
      reads this
    {
      Live() && Steady(Model()) && (writerRunning <==> currentSend.Some?)
    }

    constructor ()
      ensures Valid() && Model() == OutboundRuns.START
    {
      active, authenticated, stopping := None, false, false;
      pendingSends, currentSend, writerRunning, pendingSendCount := [], None, false, 0;
      nextSocket, nextId := 0, 0;
      fate, wire := [], [];
    }

    predicate CanSend()
      reads this
    {
      !stopping && active.Some? && authenticated
    }

    /** `settleSend` on the send in flight. */
    method SettleCurrent(outcome: Outcome)
      requires Live() && currentSend.Some? && (outcome != Unavailable ==> OnWire(wire, currentSend.value.id))
      modifies this`currentSend, this`pendingSendCount, this`fate
      ensures Live() && Model() == Settle(old(Model()), outcome)
    {
      OutboundRuns.SettleKeeps(Model(), outcome);
      if currentSend.value.settled { return; }
      fate := Decide(fate, currentSend.value.id, outcome);
      currentSend := Some(currentSend.value.(settled := true));
      pendingSendCount := pendingSendCount - 1;
    }

    /** `settleSend` on a send that waits: it keeps its place in the array. */
    method SettleWaiting(i: nat)
      requires Live() && i < |pendingSends| && !pendingSends[i].settled && active != Some(pendingSends[i].socket)
      modifies this`pendingSends, this`pendingSendCount, this`fate
      ensures Live() && Model() == RejectAt(old(Model()), i)
    {
      OutboundRuns.RejectAtKeeps(Model(), i);
      fate := Decide(fate, pendingSends[i].id, Unavailable);
      pendingSends := pendingSends[i := pendingSends[i].(settled := true)];
      pendingSendCount := pendingSendCount - 1;
    }

    method RejectSocketSends(socket: nat)
      requires Live() && active != Some(socket)
      modifies this`currentSend, this`pendingSends, this`pendingSendCount, this`fate
      ensures Live() && Model() == Reject(old(Model()), socket)
    {
      if currentSend.Some? && currentSend.value.socket == socket {
        SettleCurrent(Unavailable);
      }
      ghost var start := Model();
      var i: nat := 0;
      while i < |pendingSends|
        invariant i <= |pendingSends| == |start.waiting| && Live() && active != Some(socket)
        invariant Model() == RejectFirst(start, socket, i)
      {
        if pendingSends[i].socket == socket && !pendingSends[i].settled {
          SettleWaiting(i);
        }
        i := i + 1;
      }
    }

    method NotifyDisconnected(socket: nat)
      requires Live()
      modifies this`active, this`authenticated, this`currentSend, this`pendingSends, this`pendingSendCount, this`fate
      ensures Live() && Model() == Disconnect(old(Model()), socket)
      ensures if old(active) == Some(socket) then Lost(old(Model()), socket, Model()) else Model() == old(Model())
    {
      DisconnectMeans(Model(), socket);
      Forget(socket);
    }

    method Forget(socket: nat)
      requires Live()
      modifies this`active, this`authenticated, this`currentSend, this`pendingSends, this`pendingSendCount, this`fate
      ensures Live() && Model() == Disconnect(old(Model()), socket)
    {
      if active != Some(socket) { return; }
      active := None;
      authenticated := false;
      RejectSocketSends(socket);
    }

    method TakeNext()
      requires Live() && currentSend.None? && pendingSends != []
      modifies this`currentSend, this`pendingSends
      ensures Live() && Model() == Take(old(Model()))
    {
      OutboundRuns.TakeKeeps(Model());
      currentSend, pendingSends := Some(pendingSends[0]), pendingSends[1..];
    }

    method DropCurrent()
      requires Live() && currentSend.Some? && currentSend.value.settled
      modifies this`currentSend
      ensures Live() && Model() == Drop(old(Model()))
    {
      OutboundRuns.DropKeeps(Model());
      currentSend := None;
    }

    /** The writer's loop up to the next frame that has to be awaited. */
    method DrainSends()
      requires Live() && currentSend.None?
      modifies this`currentSend, this`pendingSends, this`pendingSendCount, this`fate, this`wire, this`writerRunning
      ensures Live() && Model() == Drain(old(Model())) && (writerRunning <==> currentSend.Some?)
    {
      writerRunning := true;
      while pendingSends != []
        invariant Live() && currentSend.None? && writerRunning
        invariant Drain(Model()) == Drain(old(Model()))
        decreases |pendingSends|
      {
        if active != Some(pendingSends[0].socket) || !authenticated || stopping {
          RefuseNext();
        } else {
          HandOverNext();
          return;
        }
      }
      writerRunning := false;
    }

    /** The next send's socket may not be written to. */
    method RefuseNext()
      requires Live() && currentSend.None? && pendingSends != []
      modifies this`currentSend, this`pendingSends, this`pendingSendCount, this`fate
      ensures Live() && currentSend.None? && Model() == Drop(Settle(Take(old(Model())), Unavailable))
    {
      TakeNext();
      SettleCurrent(Unavailable);
      DropCurrent();
    }

    method HandOverNext()
      requires Live() && currentSend.None? && pendingSends != []
      requires active == Some(pendingSends[0].socket) && authenticated && !stopping
      modifies this`currentSend, this`pendingSends, this`wire
      ensures Live() && currentSend.Some? && Model() == HandOver(Take(old(Model())))
    {
      OutboundRuns.HandOverKeeps(Model());
      TakeNext();
      wire := wire + [Frame(currentSend.value, Gate(active, authenticated, stopping))];
    }

    method EnqueueSend(socket: nat, raw: seq<int>) returns (accepted: bool)
      requires Valid() && socket < nextSocket
      modifies this
      ensures Valid() && Model() == Enqueue(old(Model()), socket, raw)
      ensures accepted == (old(pendingSendCount) < MAX_DESKTOP_PENDING_SENDS)
      ensures if accepted then Accepted(old(Model()), socket, raw, Model()) else Model() == old(Model())
    {
      EnqueueMeans(Model(), socket, raw);
      OutboundRuns.EnqueueKeeps(Model(), socket, raw);
      if pendingSendCount >= MAX_DESKTOP_PENDING_SENDS { return false; }
      PushSend(socket, raw);
      if !writerRunning { DrainSends(); }
      return true;
    }

    method PushSend(socket: nat, raw: seq<int>)
      requires Live() && socket < nextSocket
      modifies this`pendingSends, this`pendingSendCount, this`fate, this`nextId
      ensures Live() && Model() == Push(old(Model()), socket, raw)
    {
      OutboundRuns.PushKeeps(Model(), socket, raw);
      pendingSendCount := pendingSendCount + 1;
      pendingSends := pendingSends + [Send(nextId, socket, raw, false)];
      fate := fate + [None];
      nextId := nextId + 1;
    }

    method SendText(raw: seq<int>) returns (accepted: bool)
      requires Valid()
      modifies this
      ensures Valid() && accepted == (old(CanSend()) && old(pendingSendCount) < MAX_DESKTOP_PENDING_SENDS)
      ensures Model() == if old(CanSend()) then Enqueue(old(Model()), old(active).value, raw) else old(Model())
      ensures accepted ==> Accepted(old(Model()), old(active).value, raw, Model())
    {
      if !CanSend() { return false; }
      accepted := EnqueueSend(active.value, raw);
    }

    /** The frame in flight has been written or has failed; the writer goes on. */
    method FrameDone(written: bool)
      requires Valid() && currentSend.Some?
      modifies this
      ensures Valid() && Model() == Done(old(Model()), written)
      ensures GoesOn(old(Model()), written, Model())
    {
      DoneMeans(Model(), written);
      EndFrame(written);
    }

    method EndFrame(written: bool)
      requires Valid() && currentSend.Some?
      modifies this
      ensures Valid() && Model() == Done(old(Model()), written)
    {
      OutboundRuns.DoneKeeps(Model(), written);
      SettleCurrent(if written then Written else Failed);
      if !written { CloseFailedSocket(currentSend.value.socket); }
      DropCurrent();
      DrainSends();
    }

    method CloseFailedSocket(socket: nat)
      requires Live()
      modifies this`active, this`authenticated, this`currentSend, this`pendingSends, this`pendingSendCount, this`fate
      ensures Live() && Model() == Disconnect(old(Model()), socket)
      ensures old(currentSend).Some? && old(currentSend).value.settled ==>
                currentSend.Some? && currentSend.value.settled
    {
      OutboundRuns.DisconnectKeeps(Model(), socket);
      NotifyDisconnected(socket);
    }

    method AcceptSocket() returns (socket: Option<nat>)
      requires Valid()
      modifies this`active, this`nextSocket
      ensures Valid() && Model() == Accept(old(Model()))
      ensures socket == if old(active).None? && !stopping then Some(old(nextSocket)) else None
      ensures socket.Some? ==> active == socket && !CanSend()
    {
      OutboundRuns.StepKeeps(Model(), OutboundRuns.Connects);
      assert active.None? ==> !authenticated;
      socket := TakeSocket();
    }

    method TakeSocket() returns (socket: Option<nat>)
      modifies this`active, this`nextSocket
      ensures Model() == Accept(old(Model()))
      ensures socket == if old(active).None? && !stopping then Some(old(nextSocket)) else None
      ensures socket.Some? ==> active == socket
    {
      if active.Some? || stopping { return None; }
      socket := Some(nextSocket);
      active := socket;
      nextSocket := nextSocket + 1;
    }

    method AuthenticateSocket(socket: nat)
      requires Valid()
      modifies this`authenticated
      ensures Valid() && Model() == Authenticate(old(Model()), socket)
      ensures authenticated <==> old(authenticated) || active == Some(socket)
    {
      OutboundRuns.StepKeeps(Model(), OutboundRuns.Proves(socket));
      if active == Some(socket) { authenticated := true; }
    }

    method SocketClosed(socket: nat)
      requires Valid()
      modifies this
      ensures Valid() && Model() == Disconnect(old(Model()), socket)
    {
      OutboundRuns.DisconnectIsSteady(Model(), socket);
      OutboundRuns.DisconnectKeeps(Model(), socket);
      NotifyDisconnected(socket);
    }

    method Close()
      requires Valid()
      modifies this`stopping
      ensures Valid() && Model() == Stop(old(Model())) && stopping && !CanSend()
    {
      OutboundRuns.StepKeeps(Model(), OutboundRuns.Stops);
      stopping := true;
    }
  }
}
