/** The desktop server's camera requests: which are pending, which answers may still come late. */
module CameraRegistry {
  import opened Common

  const MAX_PENDING_CAMERA_REQUESTS := 8
  const MAX_CAMERA_LATE_RESPONSES := 32

  /** `camera-n` and `camera-permission-n`; a client may answer with either kind in either message. */
  datatype Id = Capture(n: nat) | Permission(n: nat)

  datatype Owner = Owner(socket: nat, generation: nat)

  datatype Held = Held(id: Id, owner: Owner)

  datatype Fate = Delivered | Declined | TimedOut | Undeliverable | Abandoned

  /**
   * The owners of answers that may still come late, by request and in order; `expired` lists every
   * request that timed out.
   */
  datatype Late = Late(owners: map<Id, Owner>, order: seq<Id>, expired: seq<Id>)

  /** `fate` says of every request ever made how its promise ended. */
  datatype Registry = Registry(
    active: Option<nat>, authenticated: bool, stopping: bool, sockets: nat, generation: nat,
    captures: nat, permissions: nat,
    pending: map<Id, Owner>, permission: Option<Held>,
    late: Late, fate: map<Id, Option<Fate>>)
  {
    predicate CanSend() {
      !stopping && active.Some? && authenticated
    }

    predicate Asks(id: Id) {
      permission.Some? && permission.value.id == id
    }

    predicate Waits(id: Id) {
      id in pending || Asks(id)
    }

    /** The connection a request made now belongs to. */
    function Client(): Owner
      requires active.Some?
    {
      Owner(active.value, generation)
    }
  }

  // ---------- Connections ----------

  function Accept(r: Registry): Registry {
    if r.active.Some? || r.stopping then r
    else r.(active := Some(r.sockets), sockets := r.sockets + 1, generation := r.generation + 1)
  }

  function Authenticate(r: Registry, socket: nat): Registry {
    if r.active == Some(socket) then r.(authenticated := true) else r
  }

  predicate Forsaken(r: Registry, socket: nat, id: Id) {
    (id in r.pending && r.pending[id].socket == socket) || (r.Asks(id) && r.permission.value.owner.socket == socket)
  }

  /** Every request of the socket is rejected; nothing is remembered for a late answer. */
  function Abandon(r: Registry, socket: nat): Registry {
    r.(pending := map id | id in r.pending && r.pending[id].socket != socket :: r.pending[id],
       permission := if r.permission.Some? && r.permission.value.owner.socket == socket then None else r.permission,
       fate := map id | id in r.fate :: if Forsaken(r, socket, id) then Some(Abandoned) else r.fate[id])
  }

  function Disconnect(r: Registry, socket: nat): Registry {
    var a := Abandon(r, socket);
    if r.active == Some(socket) then a.(active := None, authenticated := false) else a
  }

  // ---------- Requests ----------

  function RequestCapture(r: Registry): Registry {
    if !r.CanSend() || |r.pending| >= MAX_PENDING_CAMERA_REQUESTS then r
    else
      var id := Capture(r.captures + 1);
      r.(captures := r.captures + 1, pending := r.pending[id := r.Client()], fate := r.fate[id := None])
  }

  function RequestPermission(r: Registry): Registry {
    if !r.CanSend() || r.permission.Some? then r
    else
      var id := Permission(r.permissions + 1);
      r.(permissions := r.permissions + 1, permission := Some(Held(id, r.Client())), fate := r.fate[id := None])
  }

  function Settle(r: Registry, id: Id, fate: Fate): Registry {
    r.(pending := r.pending - {id}, permission := if r.Asks(id) then None else r.permission,
       fate := r.fate[id := Some(fate)])
  }

  function OwnerOf(r: Registry, id: Id): Owner
    requires r.Waits(id)
  {
    if id in r.pending then r.pending[id] else r.permission.value.owner
  }

  function Remember(l: Late, id: Id, owner: Owner): Late {
    var order := l.order + [id];
    var owners := l.owners[id := owner];
    if |order| > MAX_CAMERA_LATE_RESPONSES then Late(owners - {order[0]}, order[1..], l.expired + [id])
    else Late(owners, order, l.expired + [id])
  }

  /** A timer whose request is no longer waiting does nothing. */
  function Expire(r: Registry, id: Id): Registry {
    if !r.Waits(id) then r else Settle(r, id, TimedOut).(late := Remember(r.late, id, OwnerOf(r, id)))
  }

  /** The frame that carried the request could not be sent. */
  function Undelivered(r: Registry, id: Id): Registry {
    if !r.Waits(id) then r else Settle(r, id, Undeliverable)
  }

  // ---------- Answers ----------

  datatype Verdict = Owned | LateAnswer | WrongOwner | Unsolicited

  function LateVerdict(r: Registry, id: Id, from: Owner): Verdict {
    if id !in r.late.owners then Unsolicited else if r.late.owners[id] == from then LateAnswer else WrongOwner
  }

  function CaptureVerdict(r: Registry, id: Id, from: Owner): Verdict {
    if id !in r.pending then LateVerdict(r, id, from) else if r.pending[id] == from then Owned else WrongOwner
  }

  /** Here a late answer of another connection counts as unsolicited. */
  function PermissionVerdict(r: Registry, id: Id, from: Owner): Verdict {
    if !r.Asks(id) then (if LateVerdict(r, id, from) == LateAnswer then LateAnswer else Unsolicited)
    else if r.permission.value.owner == from then Owned else WrongOwner
  }

  /** Messages of a connection that is no longer the active one are not looked at. */
  predicate Heard(r: Registry, from: Owner) {
    r.active == Some(from.socket) && r.generation == from.generation
  }

  function Answer(r: Registry, id: Id, from: Owner, fate: Fate): Registry {
    if Heard(r, from) && CaptureVerdict(r, id, from) == Owned then Settle(r, id, fate) else r
  }

  function AnswerPermission(r: Registry, id: Id, from: Owner): Registry {
    if Heard(r, from) && PermissionVerdict(r, id, from) == Owned then Settle(r, id, Delivered) else r
  }

  // ---------- What holds ----------

  /** Whatever is pending belongs to the connection that is active now. */
  ghost predicate Current(r: Registry) {
    && (r.active.Some? ==> r.active.value < r.sockets) && (r.active.None? ==> !r.authenticated)
    && (forall id | id in r.pending :: r.active.Some? && r.pending[id] == r.Client())
    && (r.permission.Some? ==> r.active.Some? && r.permission.value.owner == r.Client())
    && |r.pending| <= MAX_PENDING_CAMERA_REQUESTS
  }

  predicate Issued(r: Registry, id: Id) {
    match id case Capture(n) => n <= r.captures case Permission(n) => n <= r.permissions
  }

  /** A request is unsettled exactly while it waits. */
  ghost predicate Accounted(r: Registry) {
    && (forall id | id in r.pending :: id.Capture? && id in r.fate)
    && (r.permission.Some? ==> r.permission.value.id.Permission? && r.permission.value.id in r.fate)
    && (forall id | id in r.fate :: Issued(r, id) && (r.fate[id].None? <==> r.Waits(id)))
  }

  function Newest(s: seq<Id>): seq<Id> {
    if |s| <= MAX_CAMERA_LATE_RESPONSES then s else s[|s| - MAX_CAMERA_LATE_RESPONSES..]
  }

  /** The late table holds exactly the newest requests that timed out, each of which timed out once. */
  ghost predicate LateOk(l: Late) {
    && (forall id :: id in l.owners <==> id in l.order)
    && l.order == Newest(l.expired)
    && Distinct(l.expired)
  }

  ghost predicate TimedOutOk(r: Registry) {
    forall id | id in r.late.expired :: id in r.fate && r.fate[id] == Some(TimedOut)
  }

  /** What is remembered belongs to the present connection or to an earlier one. */
  ghost predicate LateFromHere(r: Registry) {
    forall id | id in r.late.owners ::
      r.late.owners[id].socket < r.sockets && r.late.owners[id].generation <= r.generation
  }

  ghost predicate Inv(r: Registry) {
    Current(r) && Accounted(r) && TimedOutOk(r) && LateOk(r.late) && LateFromHere(r)
  }

  /** A settled promise stays as it is, and no request is forgotten. */
  ghost predicate Grows(before: Registry, after: Registry) {
    forall id | id in before.fate :: id in after.fate && (before.fate[id].Some? ==> after.fate[id] == before.fate[id])
  }

  // ---------- Every step keeps it ----------

  lemma SubsetSize<T>(a: set<T>, b: set<T>)
    requires a <= b
    ensures |a| <= |b|
  {
    assert b == a + (b - a);
  }

  lemma FewerPending(m: map<Id, Owner>, n: map<Id, Owner>)
    requires n.Keys <= m.Keys
    ensures |n| <= |m|
  {
    SubsetSize(n.Keys, m.Keys);
  }

  lemma OneMorePending(m: map<Id, Owner>, id: Id, owner: Owner)
    requires id !in m
    ensures |m[id := owner]| == |m| + 1
  {
    assert m[id := owner].Keys == m.Keys + {id};
  }

  lemma SettleAccounts(r: Registry, id: Id, fate: Fate)
    requires Accounted(r) && r.Waits(id)
    ensures Accounted(Settle(r, id, fate)) && r.fate[id].None? && Grows(r, Settle(r, id, fate))
  {
  }

  lemma SettleKeeps(r: Registry, id: Id, fate: Fate)
    requires Inv(r) && r.Waits(id)
    ensures Inv(Settle(r, id, fate)) && Grows(r, Settle(r, id, fate)) && id !in r.late.expired
  {
    SettleAccounts(r, id, fate);
    FewerPending(r.pending, r.pending - {id});
  }

  lemma NewestGrows(s: seq<Id>, id: Id)
    ensures var order := Newest(s) + [id];
      Newest(s + [id]) == if |order| > MAX_CAMERA_LATE_RESPONSES then order[1..] else order
  {
  }

  lemma NewestIsLast(s: seq<Id>)
    ensures var n := Newest(s); |n| <= |s| && n == s[|s| - |n|..] && |n| <= MAX_CAMERA_LATE_RESPONSES
  {
  }

  ghost predicate Distinct(s: seq<Id>) {
    forall i, j {:trigger s[i], s[j]} | 0 <= i < j < |s| :: s[i] != s[j]
  }

  lemma NewestIsDistinct(s: seq<Id>)
    requires Distinct(s)
    ensures Distinct(Newest(s))
  {
  }

  /** Dropping the oldest entry from both tables keeps them the same. */
  lemma DropOldest(owners: map<Id, Owner>, order: seq<Id>)
    requires order != [] && Distinct(order) && forall id :: id in owners <==> id in order
    ensures forall id :: id in owners - {order[0]} <==> id in order[1..]
  {
    assert order == [order[0]] + order[1..];
  }

  lemma RememberKeeps(l: Late, id: Id, owner: Owner)
    requires LateOk(l) && id !in l.expired
    ensures LateOk(Remember(l, id, owner)) && id in Remember(l, id, owner).owners
  {
    NewestGrows(l.expired, id);
    NewestIsLast(l.expired);
    NewestIsDistinct(l.expired);
    var order := l.order + [id];
    assert Distinct(order) && Distinct(l.expired + [id]);
    assert order[|order| - 1] == id;
    if |order| > MAX_CAMERA_LATE_RESPONSES { DropOldest(l.owners[id := owner], order); }
  }

  lemma ExpireKeeps(r: Registry, id: Id)
    requires Inv(r)
    ensures Inv(Expire(r, id)) && Grows(r, Expire(r, id)) && (r.Waits(id) ==> id in Expire(r, id).late.owners)
  {
    if r.Waits(id) {
      SettleKeeps(r, id, TimedOut);
      RememberedKeeps(Settle(r, id, TimedOut), id, OwnerOf(r, id));
    }
  }

  lemma RememberedKeeps(r: Registry, id: Id, owner: Owner)
    requires Inv(r) && id !in r.late.expired && id in r.fate && r.fate[id] == Some(TimedOut)
    requires owner.socket < r.sockets && owner.generation <= r.generation
    ensures Inv(r.(late := Remember(r.late, id, owner))) && id in Remember(r.late, id, owner).owners
  {
    RememberKeeps(r.late, id, owner);
    assert TimedOutOk(r.(late := Remember(r.late, id, owner))) by { RememberTimesOut(r, id, owner); }
    assert LateFromHere(r.(late := Remember(r.late, id, owner))) by { RememberFromHere(r, id, owner); }
  }

  lemma RememberTimesOut(r: Registry, id: Id, owner: Owner)
    requires TimedOutOk(r) && id in r.fate && r.fate[id] == Some(TimedOut)
    ensures TimedOutOk(r.(late := Remember(r.late, id, owner)))
  {
  }

  lemma RememberFromHere(r: Registry, id: Id, owner: Owner)
    requires LateFromHere(r) && owner.socket < r.sockets && owner.generation <= r.generation
    ensures LateFromHere(r.(late := Remember(r.late, id, owner)))
  {
  }

  lemma AbandonKeeps(r: Registry, socket: nat)
    requires Inv(r)
    ensures Inv(Abandon(r, socket)) && Grows(r, Abandon(r, socket))
    ensures r.active == Some(socket) ==> Abandon(r, socket).pending == map[] && Abandon(r, socket).permission == None
  {
    FewerPending(r.pending, Abandon(r, socket).pending);
    assert Current(Abandon(r, socket));
  }

  lemma DisconnectKeeps(r: Registry, socket: nat)
    requires Inv(r)
    ensures Inv(Disconnect(r, socket)) && Grows(r, Disconnect(r, socket))
  {
    AbandonKeeps(r, socket);
  }

  lemma CaptureKeeps(r: Registry)
    requires Inv(r)
    ensures Inv(RequestCapture(r)) && Grows(r, RequestCapture(r))
  {
    var id := Capture(r.captures + 1);
    assert id !in r.fate;
    if r.CanSend() { OneMorePending(r.pending, id, r.Client()); }
  }

  lemma PermissionKeeps(r: Registry)
    requires Inv(r)
    ensures Inv(RequestPermission(r)) && Grows(r, RequestPermission(r))
  {
    assert Permission(r.permissions + 1) !in r.fate;
  }

  lemma ConnectKeeps(r: Registry)
    requires Inv(r)
    ensures Inv(Accept(r)) && Grows(r, Accept(r))
  {
    if Accept(r) != r { assert r.pending == map[]; }
  }

  lemma AnswerKeeps(r: Registry, id: Id, from: Owner, fate: Fate)
    requires Inv(r)
    ensures Inv(Answer(r, id, from, fate)) && Grows(r, Answer(r, id, from, fate))
  {
    if r.Waits(id) { SettleKeeps(r, id, fate); }
  }

  lemma StatusKeeps(r: Registry, id: Id, from: Owner)
    requires Inv(r)
    ensures Inv(AnswerPermission(r, id, from)) && Grows(r, AnswerPermission(r, id, from))
  {
    if r.Waits(id) { SettleKeeps(r, id, Delivered); }
  }

  lemma UndeliveredKeeps(r: Registry, id: Id)
    requires Inv(r)
    ensures Inv(Undelivered(r, id)) && Grows(r, Undelivered(r, id))
  {
    if r.Waits(id) { SettleKeeps(r, id, Undeliverable); }
  }

  datatype Op =
    | Connects
    | Proves(socket: nat)
    | Leaves(socket: nat)
    | Retires(socket: nat)
    | Stops
    | Captures
    | AsksPermission
    | TimerFires(id: Id)
    | SendFails(id: Id)
    | Frame(id: Id, from: Owner)
    | CameraError(id: Id, from: Owner)
    | Status(id: Id, from: Owner)

  function Step(r: Registry, op: Op): Registry {
    match op
    case Connects => Accept(r)
    case Proves(socket) => Authenticate(r, socket)
    case Leaves(socket) => Disconnect(r, socket)
    case Retires(socket) => Abandon(r, socket)
    case Stops => r.(stopping := true)
    case Captures => RequestCapture(r)
    case AsksPermission => RequestPermission(r)
    case TimerFires(id) => Expire(r, id)
    case SendFails(id) => Undelivered(r, id)
    case Frame(id, from) => Answer(r, id, from, Delivered)
    case CameraError(id, from) => Answer(r, id, from, Declined)
    case Status(id, from) => AnswerPermission(r, id, from)
  }

  lemma StepKeeps(r: Registry, op: Op)
    requires Inv(r)
    ensures Inv(Step(r, op)) && Grows(r, Step(r, op))
  {
    match op
    case Leaves(socket) => DisconnectKeeps(r, socket);
    case Retires(socket) => AbandonKeeps(r, socket);
    case Connects => ConnectKeeps(r);
    case Captures => CaptureKeeps(r);
    case AsksPermission => PermissionKeeps(r);
    case TimerFires(id) => ExpireKeeps(r, id);
    case SendFails(id) => UndeliveredKeeps(r, id);
    case Frame(id, from) => AnswerKeeps(r, id, from, Delivered);
    case CameraError(id, from) => AnswerKeeps(r, id, from, Declined);
    case Status(id, from) => StatusKeeps(r, id, from);
    case _ =>
  }

  /** What ends a waiting request: its own timer, its own send, its owner's answer, or the end of its socket. */
  function Ends(r: Registry, op: Op, id: Id): Option<Fate>
    requires r.Waits(id)
  {
    var owner := OwnerOf(r, id);
    match op
    case Leaves(socket) => if owner.socket == socket then Some(Abandoned) else None
    case Retires(socket) => if owner.socket == socket then Some(Abandoned) else None
    case TimerFires(x) => if x == id then Some(TimedOut) else None
    case SendFails(x) => if x == id then Some(Undeliverable) else None
    case Frame(x, from) => if x == id && id.Capture? && from == owner then Some(Delivered) else None
    case CameraError(x, from) => if x == id && id.Capture? && from == owner then Some(Declined) else None
    case Status(x, from) => if x == id && id.Permission? && from == owner then Some(Delivered) else None
    case _ => None
  }

  /** What waits is open, belongs to the connection that is heard, and is of the kind its table holds. */
  ghost predicate OpenAndHeard(r: Registry, id: Id) {
    && id in r.fate && r.fate[id].None? && r.Waits(id)
    && (id in r.pending <==> id.Capture?) && (r.Asks(id) <==> id.Permission?)
    && r.active.Some? && OwnerOf(r, id) == r.Client()
  }

  lemma WaitingIsOpen(r: Registry, id: Id)
    requires Current(r) && Accounted(r) && r.Waits(id)
    ensures OpenAndHeard(r, id)
  {
  }

  lemma AnswerEnds(r: Registry, x: Id, from: Owner, fate: Fate, id: Id)
    requires OpenAndHeard(r, id)
    ensures var a := Answer(r, x, from, fate);
      id in a.fate && a.fate[id] == if x == id && id.Capture? && from == OwnerOf(r, id) then Some(fate) else None
  {
  }

  lemma StatusEnds(r: Registry, x: Id, from: Owner, id: Id)
    requires OpenAndHeard(r, id)
    ensures var a := AnswerPermission(r, x, from);
      && id in a.fate
      && a.fate[id] == if x == id && id.Permission? && from == OwnerOf(r, id) then Some(Delivered) else None
  {
  }

  lemma DisconnectEnds(r: Registry, socket: nat, id: Id)
    requires OpenAndHeard(r, id)
    ensures var a := Abandon(r, socket);
      id in a.fate && a.fate[id] == if OwnerOf(r, id).socket == socket then Some(Abandoned) else None
  {
  }

  lemma TimerEnds(r: Registry, x: Id, id: Id)
    requires OpenAndHeard(r, id)
    ensures id in Expire(r, x).fate && Expire(r, x).fate[id] == if x == id then Some(TimedOut) else None
    ensures id in Undelivered(r, x).fate && Undelivered(r, x).fate[id] == if x == id then Some(Undeliverable) else None
  {
  }

  lemma RequestEnds(r: Registry, id: Id)
    requires Accounted(r) && OpenAndHeard(r, id)
    ensures id in RequestCapture(r).fate && RequestCapture(r).fate[id] == None
    ensures id in RequestPermission(r).fate && RequestPermission(r).fate[id] == None
  {
  }

  /** Every step ends exactly the waiting requests it should, as it should, and no other. */
  lemma EndsExactly(r: Registry, op: Op, id: Id)
    requires Inv(r) && r.Waits(id)
    ensures id in Step(r, op).fate && Step(r, op).fate[id] == Ends(r, op, id)
  {
    WaitingIsOpen(r, id);
    match op
    case Frame(x, from) => AnswerEnds(r, x, from, Delivered, id);
    case CameraError(x, from) => AnswerEnds(r, x, from, Declined, id);
    case Status(x, from) => StatusEnds(r, x, from, id);
    case Leaves(socket) => DisconnectEnds(r, socket, id);
    case Retires(socket) => DisconnectEnds(r, socket, id);
    case TimerFires(x) => TimerEnds(r, x, id);
    case SendFails(x) => TimerEnds(r, x, id);
    case Captures => RequestEnds(r, id);
    case AsksPermission => RequestEnds(r, id);
    case _ =>
  }

  const START := Registry(None, false, false, 0, 0, 0, 0, map[], None, Late(map[], [], []), map[])

  function Run(ops: seq<Op>): Registry {
    if ops == [] then START else Step(Run(ops[..|ops| - 1]), ops[|ops| - 1])
  }

  lemma {:induction false} RunKeeps(ops: seq<Op>)
    ensures Inv(Run(ops))
  {
    if ops != [] {
      RunKeeps(ops[..|ops| - 1]);
      StepKeeps(Run(ops[..|ops| - 1]), ops[|ops| - 1]);
    }
  }

  /** However the run goes on, a capture or permission request that has ended has ended for good. */
  lemma {:induction false} EndsOnce(ops: seq<Op>, n: nat)
    requires n <= |ops|
    ensures Grows(Run(ops[..n]), Run(ops))
  {
    if n == |ops| {
      assert ops[..n] == ops;
    } else {
      var front := ops[..|ops| - 1];
      assert front[..n] == ops[..n];
      EndsOnce(front, n);
      RunKeeps(front);
      StepKeeps(Run(front), ops[|ops| - 1]);
    }
  }

  /** What waits is not in the late table, which holds the newest requests that timed out and no others. */
  lemma WaitingIsNotLate(r: Registry, id: Id)
    requires Inv(r)
    ensures !(r.Waits(id) && id in r.late.owners)
    ensures id in r.late.owners <==> id in Newest(r.late.expired)
    ensures |r.late.order| <= MAX_CAMERA_LATE_RESPONSES
  {
    NewestIsLast(r.late.expired);
  }

  /** What the verdict on a message that is looked at says of its request. */
  lemma VerdictMeans(r: Registry, id: Id, from: Owner)
    requires Inv(r) && Heard(r, from)
    ensures CaptureVerdict(r, id, from) == Owned <==> id in r.pending
    ensures PermissionVerdict(r, id, from) == Owned <==> r.Asks(id)
    ensures PermissionVerdict(r, id, from) != WrongOwner
    ensures PermissionVerdict(r, id, from) == LateAnswer <==> id in r.late.owners && r.late.owners[id] == from
    ensures CaptureVerdict(r, id, from) == WrongOwner <==> id in r.late.owners && r.late.owners[id] != from
    ensures CaptureVerdict(r, id, from) == LateAnswer <==> id in r.late.owners && r.late.owners[id] == from
  {
    WaitingIsNotLate(r, id);
  }

  /** No message that is looked at can find a request that is pending for someone else. */
  lemma WrongOwnerOnlyLate(ops: seq<Op>, id: Id, from: Owner)
    requires var r := Run(ops); Heard(r, from)
    ensures var r := Run(ops);
      && (CaptureVerdict(r, id, from) == Owned <==> id in r.pending)
      && (PermissionVerdict(r, id, from) == Owned <==> r.Asks(id))
      && PermissionVerdict(r, id, from) != WrongOwner
      && (CaptureVerdict(r, id, from) == WrongOwner <==> id in r.late.owners && r.late.owners[id] != from)
  {
    RunKeeps(ops);
    VerdictMeans(Run(ops), id, from);
  }

  lemma PendingIsNotLate(ops: seq<Op>, id: Id)
    ensures var r := Run(ops);
      && !(r.Waits(id) && id in r.late.owners)
      && (id in r.late.owners <==> id in Newest(r.late.expired))
      && |r.late.order| <= MAX_CAMERA_LATE_RESPONSES
  {
    RunKeeps(ops);
    WaitingIsNotLate(Run(ops), id);
  }

  /** A connection owes no answer and is owed none: whatever it may send at first is not asked for. */
  ghost predicate Clean(r: Registry) {
    && r.active.Some? && r.pending == map[] && r.permission == None
    && forall id: Id ::
         && CaptureVerdict(r, id, r.Client()) in {Unsolicited, WrongOwner}
         && PermissionVerdict(r, id, r.Client()) == Unsolicited
  }

  /** A new connection starts clean: no answer that an earlier one still owed is taken from it. */
  lemma AcceptedIsClean(r: Registry)
    requires Inv(r) && r.active.None? && !r.stopping
    ensures Clean(Accept(r))
  {
    assert r.pending == map[];
  }

  // ---------- What the other steps bring ----------

  /** A request waits from now on, unsettled, for the client there is; nobody else's request is different. */
  ghost predicate Requested(r: Registry, id: Id, t: Registry) {
    && t.CanSend() && t.Waits(id) && OwnerOf(t, id) == t.Client() && id !in r.fate && id in t.fate && t.fate[id] == None
    && forall x | x in r.fate :: x in t.fate && t.fate[x] == r.fate[x] && (t.Waits(x) <==> r.Waits(x))
  }

  /** A capture is made exactly for a client that can be sent to and that owes fewer than eight. */
  lemma CaptureMeans(r: Registry)
    requires Inv(r)
    ensures if !r.stopping && r.active.Some? && r.authenticated && |r.pending| < 8
            then Requested(r, Capture(r.captures + 1), RequestCapture(r)) else RequestCapture(r) == r
  {
    assert Capture(r.captures + 1) !in r.fate;
  }

  lemma PermissionMeans(r: Registry)
    requires Inv(r)
    ensures if !r.stopping && r.active.Some? && r.authenticated && r.permission.None?
            then Requested(r, Permission(r.permissions + 1), RequestPermission(r)) else RequestPermission(r) == r
  {
    assert Permission(r.permissions + 1) !in r.fate;
  }

  /** The active socket, and no other, proves itself; a stopped server accepts nobody and can send to nobody. */
  lemma GateMeans(r: Registry, socket: nat)
    requires Inv(r)
    ensures Step(r, Proves(socket)).authenticated <==> r.authenticated || r.active == Some(socket)
    ensures !Step(r, Stops).CanSend() && Step(Step(r, Stops), Connects) == Step(r, Stops)
    ensures r.active.None? && !r.stopping ==>
              Accept(r).active == Some(r.sockets) && !Accept(r).authenticated && Accept(r).generation > r.generation
  {
  }

  // ---------- Only who has proved itself is asked ----------

  /** The socket was accepted, has proved itself at step `n`, and has been the active one ever since. */
  ghost predicate ProvedAt(ops: seq<Op>, n: nat, socket: nat) {
    && n < |ops| && ops[n] == Proves(socket)
    && forall m {:trigger Run(ops[..m])} | n <= m <= |ops| :: Run(ops[..m]).active == Some(socket)
  }

  /** Whoever the server holds for authenticated has proved itself since it was accepted. */
  lemma {:induction false} AuthenticatedProved(ops: seq<Op>) returns (n: nat)
    requires Run(ops).authenticated
    ensures Run(ops).active.Some? && ProvedAt(ops, n, Run(ops).active.value)
  {
    var m := |ops| - 1;
    var r, op := Run(ops[..m]), ops[m];
    RunKeeps(ops[..m]);
    RunKeeps(ops);
    AuthenticationStays(r, op);
    if r.authenticated {
      n := AuthenticatedProved(ops[..m]);
    } else {
      n := m;
    }
    forall k | n <= k <= |ops|
      ensures Run(ops[..k]).active == Run(ops).active
    {
      if k == |ops| { assert ops[..k] == ops; } else { assert ops[..m][..k] == ops[..k]; }
    }
  }

  /** A step that leaves the server authenticated was the proof itself or found and left the same client. */
  lemma AuthenticationStays(r: Registry, op: Op)
    requires Inv(r) && Step(r, op).authenticated
    ensures Step(r, op).active == r.active && (r.authenticated || (r.active.Some? && op == Proves(r.active.value)))
  {
  }

  /** A new request belongs to the connection there is, and its client has proved itself. */
  ghost predicate AskedOf(r: Registry, t: Registry) {
    && r.authenticated && t.active == r.active && t.active.Some?
    && (t.captures > r.captures ==> Capture(t.captures) in t.pending && t.pending[Capture(t.captures)] == t.Client())
    && (t.permissions > r.permissions ==> t.permission == Some(Held(Permission(t.permissions), t.Client())))
  }

  lemma StepAsks(r: Registry, op: Op)
    requires Step(r, op).captures > r.captures || Step(r, op).permissions > r.permissions
    ensures AskedOf(r, Step(r, op))
  {
  }

  /** A capture or permission is only ever asked of a client that has proved itself. */
  lemma AskedOnlyAfterProof(ops: seq<Op>) returns (n: nat)
    requires ops != []
    requires Run(ops).captures > Run(ops[..|ops| - 1]).captures
             || Run(ops).permissions > Run(ops[..|ops| - 1]).permissions
    ensures AskedOf(Run(ops[..|ops| - 1]), Run(ops)) && ProvedAt(ops[..|ops| - 1], n, Run(ops).active.value)
  {
    var front := ops[..|ops| - 1];
    StepAsks(Run(front), ops[|ops| - 1]);
    n := AuthenticatedProved(front);
  }
}
