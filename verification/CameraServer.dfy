/** The desktop server's fields for camera requests; its methods do what the registry's steps do. */
module CameraServer {
  import opened Common
  import opened CameraRegistry

  class DesktopCamera {
    var active: Option<nat>
    var authenticated: bool
    var stopping: bool
    var nextSocket: nat
    var connectionGeneration: nat
    var cameraSequence: nat
    var cameraPermissionSequence: nat
    var pendingCamera: map<Id, Owner>
    var pendingCameraPermission: Option<Held>
    var lateCameraIds: map<Id, Owner>
    var lateCameraOrder: seq<Id>
    ghost var fate: map<Id, Option<Fate>>
    ghost var expired: seq<Id>

    ghost function Model(): Registry
      reads this
    {
      Registry(active, authenticated, stopping, nextSocket, connectionGeneration,
               cameraSequence, cameraPermissionSequence, pendingCamera, pendingCameraPermission,
               Late(lateCameraIds, lateCameraOrder, expired), fate)
    }

    ghost predicate Valid()
      reads this
    {
      Inv(Model())
    }

    constructor ()
      ensures Valid() && Model() == START
    {
      active, authenticated, stopping, nextSocket, connectionGeneration := None, false, false, 0, 0;
      cameraSequence, cameraPermissionSequence := 0, 0;
      pendingCamera, pendingCameraPermission := map[], None;
      lateCameraIds, lateCameraOrder := map[], [];
      fate, expired := map[], [];
    }

    predicate CanSend()
      reads this
    {
      !stopping && active.Some? && authenticated
    }

    /** A connection is accepted exactly if none is active and the server goes on, and it starts clean. */
    method AcceptSocket() returns (accepted: bool)
      requires Valid()
      modifies this`active, this`nextSocket, this`connectionGeneration
      ensures Valid() && Model() == Accept(old(Model()))
      ensures accepted <==> old(active).None? && !stopping
      ensures accepted ==> Clean(Model())
    {
      ConnectKeeps(Model());
      if active.None? && !stopping { AcceptedIsClean(Model()); }
      accepted := TakeSocket();
    }

    method TakeSocket() returns (accepted: bool)
      modifies this`active, this`nextSocket, this`connectionGeneration
      ensures Model() == Accept(old(Model())) && (accepted <==> old(active).None? && !stopping)
    {
      if active.Some? || stopping { return false; }
      active := Some(nextSocket);
      nextSocket := nextSocket + 1;
      connectionGeneration := connectionGeneration + 1;
      return true;
    }

    method CaptureCamera() returns (id: Option<Id>)
      requires Valid()
      modifies this`cameraSequence, this`pendingCamera, this`fate
      ensures Valid() && Model() == RequestCapture(old(Model()))
      ensures id == if old(CanSend()) && |old(pendingCamera)| < MAX_PENDING_CAMERA_REQUESTS
                    then Some(Capture(old(cameraSequence) + 1)) else None
      ensures if id.Some? then Requested(old(Model()), id.value, Model()) else Model() == old(Model())
    {
      CaptureMeans(Model());
      CaptureKeeps(Model());
      if !CanSend() || |pendingCamera| >= MAX_PENDING_CAMERA_REQUESTS { return None; }
      var requestId := AddCapture();
      return Some(requestId);
    }

    method AddCapture() returns (requestId: Id)
      requires CanSend() && |pendingCamera| < MAX_PENDING_CAMERA_REQUESTS
      modifies this`cameraSequence, this`pendingCamera, this`fate
      ensures Model() == RequestCapture(old(Model())) && requestId == Capture(old(cameraSequence) + 1)
    {
      cameraSequence := cameraSequence + 1;
      requestId := Capture(cameraSequence);
      pendingCamera := pendingCamera[requestId := Owner(active.value, connectionGeneration)];
      fate := fate[requestId := None];
    }

    method RequestCameraPermission() returns (id: Option<Id>)
      requires Valid()
      modifies this`cameraPermissionSequence, this`pendingCameraPermission, this`fate
      ensures Valid() && Model() == RequestPermission(old(Model()))
      ensures id == if old(CanSend()) && old(pendingCameraPermission).None?
                    then Some(Permission(old(cameraPermissionSequence) + 1)) else None
      ensures if id.Some? then Requested(old(Model()), id.value, Model()) else Model() == old(Model())
    {
      PermissionMeans(Model());
      PermissionKeeps(Model());
      if !CanSend() || pendingCameraPermission.Some? { return None; }
      var requestId := AddPermission();
      return Some(requestId);
    }

    method AddPermission() returns (requestId: Id)
      requires CanSend() && pendingCameraPermission.None?
      modifies this`cameraPermissionSequence, this`pendingCameraPermission, this`fate
      ensures Model() == RequestPermission(old(Model())) && requestId == Permission(old(cameraPermissionSequence) + 1)
    {
      cameraPermissionSequence := cameraPermissionSequence + 1;
      requestId := Permission(cameraPermissionSequence);
      pendingCameraPermission := Some(Held(requestId, Owner(active.value, connectionGeneration)));
      fate := fate[requestId := None];
    }

    method SettleCapture(id: Id, outcome: Fate)
      requires Valid() && id in pendingCamera
      modifies this`pendingCamera, this`fate
      ensures Valid() && Model() == Settle(old(Model()), id, outcome) && id !in expired
    {
      SettleKeeps(Model(), id, outcome);
      TakeCapture(id, outcome);
    }

    method TakeCapture(id: Id, outcome: Fate)
      requires !Model().Asks(id)
      modifies this`pendingCamera, this`fate
      ensures Model() == Settle(old(Model()), id, outcome)
    {
      pendingCamera := pendingCamera - {id};
      fate := fate[id := Some(outcome)];
    }

    method TakePermission(outcome: Fate)
      requires pendingCameraPermission.Some? && pendingCameraPermission.value.id !in pendingCamera
      modifies this`pendingCameraPermission, this`fate
      ensures Model() == Settle(old(Model()), old(pendingCameraPermission).value.id, outcome)
    {
      var id := pendingCameraPermission.value.id;
      assert pendingCamera - {id} == pendingCamera;
      pendingCameraPermission := None;
      fate := fate[id := Some(outcome)];
    }

    method SettlePermission(outcome: Fate)
      requires Valid() && pendingCameraPermission.Some?
      modifies this`pendingCameraPermission, this`fate
      ensures Valid() && Model() == Settle(old(Model()), old(pendingCameraPermission).value.id, outcome)
      ensures old(pendingCameraPermission).value.id !in expired
    {
      SettleKeeps(Model(), pendingCameraPermission.value.id, outcome);
      TakePermission(outcome);
    }

    /** The oldest late requests give way once there are too many. */
    method RememberLateCameraId(id: Id, owner: Owner)
      requires LateOk(Late(lateCameraIds, lateCameraOrder, expired)) && id !in expired
      modifies this`lateCameraIds, this`lateCameraOrder, this`expired
      ensures Late(lateCameraIds, lateCameraOrder, expired) ==
              Remember(old(Late(lateCameraIds, lateCameraOrder, expired)), id, owner)
    {
      NewestIsLast(expired);
      lateCameraIds := lateCameraIds[id := owner];
      lateCameraOrder := lateCameraOrder + [id];
      expired := expired + [id];
      ghost var owners, order := lateCameraIds, lateCameraOrder;
      while |lateCameraOrder| > MAX_CAMERA_LATE_RESPONSES
        invariant |order| <= MAX_CAMERA_LATE_RESPONSES + 1
        invariant |lateCameraOrder| > MAX_CAMERA_LATE_RESPONSES ==> lateCameraIds == owners && lateCameraOrder == order
        invariant |lateCameraOrder| <= MAX_CAMERA_LATE_RESPONSES ==>
            if |order| > MAX_CAMERA_LATE_RESPONSES
            then lateCameraIds == owners - {order[0]} && lateCameraOrder == order[1..]
            else lateCameraIds == owners && lateCameraOrder == order
        decreases |lateCameraOrder|
        modifies this`lateCameraIds, this`lateCameraOrder
      {
        lateCameraIds, lateCameraOrder := lateCameraIds - {lateCameraOrder[0]}, lateCameraOrder[1..];
      }
    }

    method TimerFires(id: Id)
      requires Valid()
      modifies this`pendingCamera, this`pendingCameraPermission, this`fate
      modifies this`lateCameraIds, this`lateCameraOrder, this`expired
      ensures Valid() && Model() == Expire(old(Model()), id)
    {
      ExpireKeeps(Model(), id);
      if Model().Waits(id) { WaitingApart(Model(), id); }
      MoveToLate(id);
    }

    method MoveToLate(id: Id)
      requires LateOk(Model().late) && (Model().Waits(id) ==> Apart(Model(), id))
      modifies this`pendingCamera, this`pendingCameraPermission, this`fate
      modifies this`lateCameraIds, this`lateCameraOrder, this`expired
      ensures Model() == Expire(old(Model()), id)
    {
      if id in pendingCamera {
        var owner := pendingCamera[id];
        TakeCapture(id, TimedOut);
        RememberLateCameraId(id, owner);
      } else if pendingCameraPermission.Some? && pendingCameraPermission.value.id == id {
        var owner := pendingCameraPermission.value.owner;
        TakePermission(TimedOut);
        RememberLateCameraId(id, owner);
      }
    }

    method RequestNotSent(id: Id)
      requires Valid()
      modifies this`pendingCamera, this`pendingCameraPermission, this`fate
      ensures Valid() && Model() == Undelivered(old(Model()), id)
    {
      if id in pendingCamera {
        SettleCapture(id, Undeliverable);
      } else if pendingCameraPermission.Some? && pendingCameraPermission.value.id == id {
        SettlePermission(Undeliverable);
      }
    }

    /**
     * `ownedCameraCapture`: the request of the answer, or why there is none. Of a message that is looked
     * at, a pending request is always its own; a stranger's request can only be one that has timed out.
     */
    method OwnedCameraCapture(id: Id, from: Owner) returns (verdict: Verdict)
      requires Valid()
      ensures verdict == CaptureVerdict(Model(), id, from)
      ensures Heard(Model(), from) ==>
                && (verdict == Owned <==> id in pendingCamera)
                && (verdict == LateAnswer <==> id in lateCameraIds && lateCameraIds[id] == from)
                && (verdict == WrongOwner <==> id in Newest(expired) && lateCameraIds[id] != from)
                && (verdict == Unsolicited <==> id !in pendingCamera && id !in Newest(expired))
    {
      if Heard(Model(), from) {
        VerdictMeans(Model(), id, from);
        WaitingIsNotLate(Model(), id);
      }
      if id !in pendingCamera {
        if id in lateCameraIds {
          if lateCameraIds[id] == from { return LateAnswer; }
          return WrongOwner;
        }
        return Unsolicited;
      }
      if pendingCamera[id] != from { return WrongOwner; }
      return Owned;
    }

    /** A camera frame or a camera error; the verdicts `WrongOwner` and `Unsolicited` are protocol errors. */
    method ReceiveCameraAnswer(id: Id, from: Owner, outcome: Fate) returns (verdict: Option<Verdict>)
      requires Valid()
      modifies this`pendingCamera, this`fate
      ensures Valid() && Model() == Answer(old(Model()), id, from, outcome)
      ensures verdict == if Heard(old(Model()), from) then Some(CaptureVerdict(old(Model()), id, from)) else None
    {
      if active != Some(from.socket) || connectionGeneration != from.generation { return None; }
      var v := OwnedCameraCapture(id, from);
      if v == Owned { SettleCapture(id, outcome); }
      return Some(v);
    }

    method ReceiveCameraPermission(id: Id, from: Owner) returns (verdict: Option<Verdict>)
      requires Valid()
      modifies this`pendingCameraPermission, this`fate
      ensures Valid() && Model() == AnswerPermission(old(Model()), id, from)
      ensures verdict == if Heard(old(Model()), from) then Some(PermissionVerdict(old(Model()), id, from)) else None
    {
      if active != Some(from.socket) || connectionGeneration != from.generation { return None; }
      if pendingCameraPermission.None? || pendingCameraPermission.value.id != id {
        if id in lateCameraIds && lateCameraIds[id] == from { return Some(LateAnswer); }
        return Some(Unsolicited);
      }
      if pendingCameraPermission.value.owner != from { return Some(WrongOwner); }
      SettlePermission(Delivered);
      return Some(Owned);
    }

    /** Reject whatever the socket still owes, in whatever order the table lists it. */
    method RejectSocketCameraCaptures(socket: nat)
      requires Valid()
      modifies this`pendingCamera, this`pendingCameraPermission, this`fate
      ensures Valid() && Model() == Abandon(old(Model()), socket)
    {
      var todo := pendingCamera.Keys;
      ghost var start := Model();
      while todo != {}
        invariant Valid() && todo <= start.pending.Keys && Partly(start, Model(), socket, todo)
        decreases |todo|
      {
        var id :| id in todo;
        PartlyGoesOn(start, Model(), socket, todo, id);
        if pendingCamera[id].socket == socket { SettleCapture(id, Abandoned); }
        todo := todo - {id};
      }
      PartlyEnds(start, Model(), socket);
      if pendingCameraPermission.Some? && pendingCameraPermission.value.owner.socket == socket {
        SettlePermission(Abandoned);
      }
    }

    method NotifyDisconnected(socket: nat)
      requires Valid()
      modifies this`active, this`authenticated, this`pendingCamera, this`pendingCameraPermission, this`fate
      ensures Valid() && Model() == Disconnect(old(Model()), socket)
    {
      DisconnectKeeps(Model(), socket);
      RejectSocketCameraCaptures(socket);
      if active != Some(socket) { return; }
      active := None;
      authenticated := false;
    }
  }

  /** What waits stands in one table only and has not timed out. */
  ghost predicate Apart(r: Registry, id: Id) {
    !(id in r.pending && r.Asks(id)) && id !in r.late.expired
  }

  lemma WaitingApart(r: Registry, id: Id)
    requires Inv(r) && r.Waits(id)
    ensures Apart(r, id)
  {
  }

  /** How far rejecting has come: the requests in `todo` and all of other sockets stand as they did. */
  ghost predicate Partly(start: Registry, now: Registry, socket: nat, todo: set<Id>) {
    && now.(pending := start.pending, fate := start.fate) == start
    && (forall id :: id in now.pending <==> id in start.pending && (id in todo || start.pending[id].socket != socket))
    && (forall id | id in now.pending :: now.pending[id] == start.pending[id])
    && now.fate.Keys == start.fate.Keys
    && (forall id | id in start.fate ::
          now.fate[id] == if id in start.pending && id !in todo && start.pending[id].socket == socket
                          then Some(Abandoned) else start.fate[id])
  }

  lemma PartlyGoesOn(start: Registry, now: Registry, socket: nat, todo: set<Id>, id: Id)
    requires Inv(start) && Inv(now) && Partly(start, now, socket, todo) && id in todo && id in start.pending
    ensures id in now.pending
    ensures var next := if now.pending[id].socket == socket then Settle(now, id, Abandoned) else now;
      Partly(start, next, socket, todo - {id})
  {
  }

  lemma PartlyEnds(start: Registry, now: Registry, socket: nat)
    requires Accounted(start) && Partly(start, now, socket, {})
    ensures var p := now.permission;
      Abandon(start, socket) ==
        if p.Some? && p.value.owner.socket == socket then Settle(now, p.value.id, Abandoned) else now
  {
    var p := now.permission;
    PartlyEndsPending(start, now, socket);
    if p.Some? {
      if p.value.owner.socket == socket {
        assert Abandon(start, socket).fate == now.fate[p.value.id := Some(Abandoned)];
      } else {
        assert Abandon(start, socket).fate == now.fate;
      }
    } else {
      assert Abandon(start, socket).fate == now.fate;
    }
  }

  lemma PartlyEndsPending(start: Registry, now: Registry, socket: nat)
    requires Accounted(start) && Partly(start, now, socket, {})
    ensures Abandon(start, socket).pending == now.pending
    ensures now.permission.Some? ==>
      now.permission.value.id in start.fate && now.pending - {now.permission.value.id} == now.pending
  {
  }
}
