/** The streaming decoder: a receiver and a worker per connection, sharing a buffer, a flag and an event. */
module DecodeProtocol {
  import opened Common

  const RATE := 16000
  const MAX_BYTES := RATE * 2 * 65
  const MAX_FRAME := 64000

  /** Where the connection's own coroutine stands; in `Draining` it has set `stopped` and awaits the worker. */
  datatype Receiver = Refused | Starting | Receiving | Awaiting | Closing | Reporting | Draining | Ended

  datatype Worker =
    | Absent
    | Waiting
    | Recognizing(final: bool, snapshot: seq<int>)
    | Sending(final: bool, text: string, snapshot: seq<int>)
    | Sleeping
    | Exited
    | Crashed
  {
    predicate Done() {
      Exited? || Crashed?
    }

    predicate Alive() {
      !Absent? && !Done()
    }
  }

  datatype Message = Ready | Result(text: string, final: bool, snapshot: seq<int>) | Error | Close(code: int)

  /** `snapshots` lists what was given to the recognizer, `failed` says whether anything ever went wrong. */
  datatype Session = Session(
    receiver: Receiver, worker: Worker,
    audio: seq<int>, changed: bool, finished: bool, stopped: bool, lastText: Option<string>,
    sent: seq<Message>, snapshots: seq<seq<int>>, failed: bool)

  datatype Server = Server(busy: bool, sessions: seq<Session>)

  // ---------- The worker ----------

  /** The event is set: the loop goes round once, up to the recognizer's call. */
  function Wake(s: Session): Session {
    if !s.worker.Waiting? || !s.changed then s
    else if s.stopped then s.(worker := Exited)
    else s.(changed := false, worker := Recognizing(s.finished, s.audio), snapshots := s.snapshots + [s.audio])
  }

  /** After a result that was sent, or that was not worth sending. */
  function Proceed(s: Session, final: bool): Session {
    s.(worker := if final then Exited else if s.finished then Waiting else Sleeping)
  }

  function Recognized(s: Session, text: Option<string>): Session {
    if !s.worker.Recognizing? then s
    else if text.None? then s.(worker := Crashed, failed := true)
    else if s.stopped then s.(worker := Exited)
    else if s.worker.final || (text.value != [] && text != s.lastText)
    then s.(worker := Sending(s.worker.final, text.value, s.worker.snapshot))
    else Proceed(s, false)
  }

  function ResultSent(s: Session, delivered: bool): Session {
    if !s.worker.Sending? then s
    else if !delivered then s.(worker := Crashed, failed := true)
    else
      var w := s.worker;
      Proceed(s.(sent := s.sent + [Result(w.text, w.final, w.snapshot)], lastText := Some(w.text)), w.final)
  }

  function Slept(s: Session): Session {
    if s.worker.Sleeping? then s.(worker := Waiting) else s
  }

  // ---------- The receiver ----------

  datatype Incoming = Disconnect | Data(bytes: seq<int>) | Finish | Other

  /** The `finally` block up to its first await. */
  function Unwind(s: Session): Session {
    s.(receiver := Draining, stopped := true, changed := true)
  }

  function Report(s: Session): Session {
    s.(receiver := Reporting, failed := true)
  }

  function Started(s: Session, delivered: bool): Session {
    if !s.receiver.Starting? then s
    else if delivered then s.(receiver := Receiving, worker := Waiting, sent := s.sent + [Ready])
    else Report(s)
  }

  predicate BadFrame(s: Session, bytes: seq<int>) {
    bytes == [] || |bytes| % 2 != 0 || |bytes| > MAX_FRAME || |s.audio| + |bytes| > MAX_BYTES
  }

  /** The worker's end is looked at first. */
  function Receive(s: Session, m: Incoming): Session {
    if !s.receiver.Receiving? then s
    else if s.worker.Crashed? then Report(s)
    else if s.worker.Exited? then s.(receiver := Awaiting)
    else match m
      case Disconnect => Unwind(s.(failed := true))
      case Data(bytes) => if BadFrame(s, bytes) then Report(s) else s.(audio := s.audio + bytes, changed := true)
      case Finish => if s.audio == [] then Report(s) else s.(finished := true, changed := true, receiver := Awaiting)
      case Other => Report(s)
  }

  /** The shielded wait for the worker. */
  function Joined(s: Session): Session {
    if !s.receiver.Awaiting? || !s.worker.Done() then s
    else if s.worker.Crashed? then Report(s)
    else s.(receiver := Closing)
  }

  function Closed(s: Session, delivered: bool): Session {
    if !s.receiver.Closing? then s
    else if delivered then Unwind(s.(sent := s.sent + [Close(1000)]))
    else Report(s)
  }

  /** The 120 seconds are over. */
  function TimedOut(s: Session): Session {
    if s.receiver.Receiving? || s.receiver.Awaiting? then Report(s) else s
  }

  /** Whether the error could be sent or not, the session unwinds. */
  function Reported(s: Session, delivered: bool): Session {
    if !s.receiver.Reporting? then s
    else Unwind(if delivered then s.(sent := s.sent + [Error, Close(1011)]) else s)
  }

  predicate MayEnd(s: Session) {
    s.receiver.Draining? && !s.worker.Alive()
  }

  // ---------- Steps of the server ----------

  datatype Event =
    | Wakes
    | Recognizes(text: Option<string>)
    | Sends(delivered: bool)
    | Sleeps
    | Starts(delivered: bool)
    | Receives(m: Incoming)
    | Joins
    | Closes(delivered: bool)
    | Expires
    | Reports(delivered: bool)

  function Act(s: Session, e: Event): Session {
    match e
    case Wakes => Wake(s)
    case Recognizes(text) => Recognized(s, text)
    case Sends(delivered) => ResultSent(s, delivered)
    case Sleeps => Slept(s)
    case Starts(delivered) => Started(s, delivered)
    case Receives(m) => Receive(s, m)
    case Joins => Joined(s)
    case Closes(delivered) => Closed(s, delivered)
    case Expires => TimedOut(s)
    case Reports(delivered) => Reported(s, delivered)
  }

  const NEW := Session(Starting, Absent, [], false, false, false, None, [], [], false)

  function Connect(v: Server): Server {
    if v.busy then v.(sessions := v.sessions + [NEW.(receiver := Refused, sent := [Close(1013)])])
    else Server(true, v.sessions + [NEW])
  }

  function Run(v: Server, i: nat, e: Event): Server {
    if i < |v.sessions| then v.(sessions := v.sessions[i := Act(v.sessions[i], e)]) else v
  }

  /** The last step of a session: its admission is given back. */
  function Release(v: Server, i: nat): Server {
    if i < |v.sessions| && MayEnd(v.sessions[i]) then Server(false, v.sessions[i := v.sessions[i].(receiver := Ended)])
    else v
  }

  // ---------- What holds of a session ----------

  ghost predicate Stages(s: Session) {
    && (s.stopped <==> s.receiver.Draining? || s.receiver.Ended?)
    && (s.stopped ==> s.changed)
    && (s.worker.Absent? ==> s.audio == [] && !s.finished)
    && (s.receiver.Refused? || s.receiver.Starting? ==> s.worker.Absent?)
    && (s.receiver.Receiving? || s.receiver.Awaiting? || s.receiver.Closing? ==> !s.worker.Absent?)
    && (s.receiver.Ended? ==> !s.worker.Alive())
    && (s.receiver.Receiving? ==> !s.finished)
    && (s.receiver.Awaiting? ==> s.finished)
    && (s.receiver.Closing? ==> s.worker.Exited? && s.finished)
    && (s.finished ==> s.audio != [])
    && |s.audio| % 2 == 0 && |s.audio| <= MAX_BYTES
  }

  /** Once everything has been received the worker is on its last round, or its next round is due. */
  ghost predicate Awake(s: Session) {
    s.finished && !s.stopped && s.worker.Alive() ==>
      s.changed || (s.worker.Recognizing? && s.worker.final) || (s.worker.Sending? && s.worker.final)
  }

  /** Every decode saw a prefix of the next one, and of the audio. */
  ghost predicate Growing(s: Session) {
    && (forall i, j {:trigger s.snapshots[i], s.snapshots[j]} | 0 <= i <= j < |s.snapshots| ::
          s.snapshots[i] <= s.snapshots[j])
    && (forall i {:trigger s.snapshots[i]} | 0 <= i < |s.snapshots| :: s.snapshots[i] <= s.audio)
    && (s.worker.Recognizing? ==> s.snapshots != [] && s.worker.snapshot == s.snapshots[|s.snapshots| - 1])
    && (s.worker.Sending? ==> s.snapshots != [] && s.worker.snapshot == s.snapshots[|s.snapshots| - 1])
    && (s.worker.Recognizing? && s.worker.final ==> s.finished && s.worker.snapshot == s.audio)
    && (s.worker.Sending? && s.worker.final ==> s.finished && s.worker.snapshot == s.audio)
  }

  ghost predicate FinalAt(s: Session, k: nat) {
    k < |s.sent| && s.sent[k].Result? && s.sent[k].final
  }

  /** A final result is sent once, covers everything, is the last result, and ends the worker. */
  ghost predicate OneFinal(s: Session) {
    && (forall k: nat {:trigger FinalAt(s, k)} | FinalAt(s, k) ::
          s.sent[k].snapshot == s.audio && s.finished && s.worker.Exited?
          && forall j {:trigger s.sent[j]} | k < j < |s.sent| :: !s.sent[j].Result?)
    && (s.worker.Exited? && !s.stopped ==> s.sent != [] && FinalAt(s, |s.sent| - 1))
  }

  /** A normal close comes right after the final result and is the last message of all. */
  ghost predicate Clean(s: Session) {
    forall k {:trigger s.sent[k]} | 0 <= k < |s.sent| && s.sent[k] == Close(1000) ::
      0 < k == |s.sent| - 1 && FinalAt(s, k - 1) && s.stopped
  }

  /** What never failed has no error to report and stops only behind a normal close. */
  ghost predicate Flawless(s: Session) {
    !s.failed ==>
      && !s.worker.Crashed? && !s.receiver.Reporting?
      && (s.stopped ==> s.sent != [] && s.sent[|s.sent| - 1] == Close(1000))
  }

  ghost predicate SessionOk(s: Session) {
    Stages(s) && Awake(s) && Growing(s) && OneFinal(s) && Clean(s) && Flawless(s)
  }

  lemma WakeKeeps(s: Session)
    requires SessionOk(s)
    ensures SessionOk(Wake(s))
  {
    assert forall k: nat :: FinalAt(Wake(s), k) <==> FinalAt(s, k);
  }

  lemma RecognizedKeeps(s: Session, text: Option<string>)
    requires SessionOk(s)
    ensures SessionOk(Recognized(s, text))
  {
    assert forall k: nat :: FinalAt(Recognized(s, text), k) <==> FinalAt(s, k);
  }

  lemma ResultSentKeeps(s: Session, delivered: bool)
    requires SessionOk(s)
    ensures SessionOk(ResultSent(s, delivered))
  {
    var r := ResultSent(s, delivered);
    if s.worker.Sending? {
      assert forall k: nat :: !FinalAt(s, k);
      assert forall k: nat | k < |s.sent| :: r.sent[k] == s.sent[k] && (FinalAt(r, k) <==> FinalAt(s, k));
    }
  }

  lemma ReportKeeps(s: Session)
    requires SessionOk(s) && !s.stopped && !s.receiver.Refused?
    ensures SessionOk(Report(s))
  {
    assert forall k: nat :: FinalAt(Report(s), k) <==> FinalAt(s, k);
  }

  lemma LostKeeps(s: Session)
    requires SessionOk(s) && s.receiver.Receiving?
    ensures SessionOk(Unwind(s.(failed := true)))
  {
    assert forall k: nat :: FinalAt(Unwind(s.(failed := true)), k) <==> FinalAt(s, k);
  }

  lemma TakeInKeeps(s: Session, bytes: seq<int>)
    requires SessionOk(s) && s.receiver.Receiving? && s.worker.Alive() && !BadFrame(s, bytes)
    ensures SessionOk(s.(audio := s.audio + bytes, changed := true))
  {
    var r := s.(audio := s.audio + bytes, changed := true);
    assert forall k: nat :: FinalAt(r, k) <==> FinalAt(s, k);
    assert forall i | 0 <= i < |s.snapshots| :: s.snapshots[i] <= s.audio;
  }

  lemma ReceiveKeeps(s: Session, m: Incoming)
    requires SessionOk(s)
    ensures SessionOk(Receive(s, m))
  {
    if s.receiver.Receiving? {
      ReportKeeps(s);
      LostKeeps(s);
      if m.Data? && s.worker.Alive() && !BadFrame(s, m.bytes) {
        TakeInKeeps(s, m.bytes);
      } else {
        assert forall k: nat :: FinalAt(Receive(s, m), k) <==> FinalAt(s, k);
      }
    }
  }

  lemma StartedKeeps(s: Session, delivered: bool)
    requires SessionOk(s)
    ensures SessionOk(Started(s, delivered))
  {
    var r := Started(s, delivered);
    assert s.sent <= r.sent;
    assert forall k: nat :: FinalAt(r, k) ==> FinalAt(s, k);
  }

  lemma SleptKeeps(s: Session)
    requires SessionOk(s)
    ensures SessionOk(Slept(s))
  {
    assert forall k: nat :: FinalAt(Slept(s), k) ==> FinalAt(s, k);
  }

  lemma JoinedKeeps(s: Session)
    requires SessionOk(s)
    ensures SessionOk(Joined(s))
  {
    assert forall k: nat :: FinalAt(Joined(s), k) ==> FinalAt(s, k);
  }

  lemma TimedOutKeeps(s: Session)
    requires SessionOk(s)
    ensures SessionOk(TimedOut(s))
  {
    assert forall k: nat :: FinalAt(TimedOut(s), k) ==> FinalAt(s, k);
  }

  lemma ClosedKeeps(s: Session, delivered: bool)
    requires SessionOk(s)
    ensures SessionOk(Closed(s, delivered))
  {
    var r := Closed(s, delivered);
    assert s.sent <= r.sent;
    assert forall k: nat :: FinalAt(r, k) ==> FinalAt(s, k);
  }

  lemma ReportedKeeps(s: Session, delivered: bool)
    requires SessionOk(s)
    ensures SessionOk(Reported(s, delivered))
  {
    var r := Reported(s, delivered);
    assert s.sent <= r.sent;
    assert forall k: nat :: FinalAt(r, k) ==> FinalAt(s, k);
  }

  lemma ActKeeps(s: Session, e: Event)
    requires SessionOk(s)
    ensures SessionOk(Act(s, e))
  {
    match e
    case Wakes => WakeKeeps(s);
    case Recognizes(text) => RecognizedKeeps(s, text);
    case Sends(delivered) => ResultSentKeeps(s, delivered);
    case Closes(delivered) => ClosedKeeps(s, delivered);
    case Reports(delivered) => ReportedKeeps(s, delivered);
    case Starts(delivered) => StartedKeeps(s, delivered);
    case Receives(m) => ReceiveKeeps(s, m);
    case Sleeps => SleptKeeps(s);
    case Joins => JoinedKeeps(s);
    case Expires => TimedOutKeeps(s);
  }

  // ---------- What holds of the server ----------

  predicate Active(s: Session) {
    !s.receiver.Refused? && !s.receiver.Ended?
  }

  ghost predicate ServerOk(v: Server) {
    && (forall i {:trigger v.sessions[i]} | 0 <= i < |v.sessions| ::
          SessionOk(v.sessions[i]) && (Active(v.sessions[i]) ==> v.busy))
    && (v.busy ==> exists i {:trigger v.sessions[i]} :: 0 <= i < |v.sessions| && Active(v.sessions[i]))
    && (forall i, j {:trigger v.sessions[i], v.sessions[j]} | 0 <= i < j < |v.sessions| ::
          !(Active(v.sessions[i]) && Active(v.sessions[j])))
  }

  datatype Op = Connects | Acts(i: nat, e: Event) | Releases(i: nat)

  function Step(v: Server, op: Op): Server {
    match op
    case Connects => Connect(v)
    case Acts(i, e) => Run(v, i, e)
    case Releases(i) => Release(v, i)
  }

  lemma StepKeeps(v: Server, op: Op)
    requires ServerOk(v)
    ensures ServerOk(Step(v, op))
  {
    match op
    case Connects => ConnectKeeps(v);
    case Acts(i, e) => RunKeeps(v, i, e);
    case Releases(i) => ReleaseKeeps(v, i);
  }

  lemma ConnectKeeps(v: Server)
    requires ServerOk(v)
    ensures ServerOk(Connect(v))
  {
    var r := Connect(v);
    var n := |v.sessions|;
    assert forall i | 0 <= i < n :: r.sessions[i] == v.sessions[i];
    assert r.sessions[n].sent == [] || r.sessions[n].sent == [Close(1013)];
    assert SessionOk(r.sessions[n]);
    assert Active(r.sessions[n]) <==> !v.busy;
  }

  lemma ActiveStays(s: Session, e: Event)
    ensures Active(Act(s, e)) <==> Active(s)
  {
  }

  lemma RunKeeps(v: Server, i: nat, e: Event)
    requires ServerOk(v)
    ensures ServerOk(Run(v, i, e))
  {
    if i < |v.sessions| {
      ActKeeps(v.sessions[i], e);
      ActiveStays(v.sessions[i], e);
      var r := Run(v, i, e);
      assert r.sessions[i] == Act(v.sessions[i], e);
      assert forall j | 0 <= j < |v.sessions| && j != i :: r.sessions[j] == v.sessions[j];
    }
  }

  lemma ReleaseKeeps(v: Server, i: nat)
    requires ServerOk(v)
    ensures ServerOk(Release(v, i))
  {
    if i < |v.sessions| && MayEnd(v.sessions[i]) {
      var s := v.sessions[i].(receiver := Ended);
      assert forall k: nat :: FinalAt(s, k) <==> FinalAt(v.sessions[i], k);
      assert SessionOk(s);
      assert forall j | 0 <= j < |v.sessions| && j != i :: !Active(v.sessions[j]);
    }
  }

  const START := Server(false, [])

  function Reach(ops: seq<Op>): Server {
    if ops == [] then START else Step(Reach(ops[..|ops| - 1]), ops[|ops| - 1])
  }

  lemma {:induction false} ReachKeeps(ops: seq<Op>)
    ensures ServerOk(Reach(ops))
  {
    if ops != [] {
      ReachKeeps(ops[..|ops| - 1]);
      StepKeeps(Reach(ops[..|ops| - 1]), ops[|ops| - 1]);
    }
  }

  /** No two recognitions run at once, and none runs without the server being taken. */
  lemma OneRecognition(ops: seq<Op>, i: nat, j: nat)
    requires i < |Reach(ops).sessions| && j < |Reach(ops).sessions|
    requires Reach(ops).sessions[i].worker.Alive() && Reach(ops).sessions[j].worker.Alive()
    ensures i == j && Reach(ops).busy && Active(Reach(ops).sessions[i])
  {
    ReachKeeps(ops);
    assert SessionOk(Reach(ops).sessions[i]) && SessionOk(Reach(ops).sessions[j]);
  }

  /** After a normal close there is one final result; it covered all the audio, and only the close came after it. */
  lemma CleanCloseHasFinal(ops: seq<Op>, i: nat, k: nat)
    requires i < |Reach(ops).sessions| && k < |Reach(ops).sessions[i].sent|
    requires Reach(ops).sessions[i].sent[k] == Close(1000)
    ensures var s := Reach(ops).sessions[i];
      && 0 < k == |s.sent| - 1 && FinalAt(s, k - 1) && s.sent[k - 1].snapshot == s.audio != []
      && forall j: nat {:trigger FinalAt(s, j)} | FinalAt(s, j) :: j == k - 1
  {
    ReachKeeps(ops);
    var s := Reach(ops).sessions[i];
    assert SessionOk(s) && FinalAt(s, k - 1);
    FinalIsUnique(s, k - 1);
  }

  /**
   * A connection that was served to its end without a failure got its one final result, over all the audio it had
   * sent, and then the close.
   */
  lemma ServedToTheEnd(ops: seq<Op>, i: nat)
    requires i < |Reach(ops).sessions| && Reach(ops).sessions[i].receiver.Ended? && !Reach(ops).sessions[i].failed
    ensures var s := Reach(ops).sessions[i];
      && s.finished && |s.sent| >= 2 && s.sent[|s.sent| - 1] == Close(1000)
      && FinalAt(s, |s.sent| - 2) && s.sent[|s.sent| - 2].snapshot == s.audio
      && forall j: nat {:trigger FinalAt(s, j)} | FinalAt(s, j) :: j == |s.sent| - 2
  {
    ReachKeeps(ops);
    assert SessionOk(Reach(ops).sessions[i]);
    CleanCloseHasFinal(ops, i, |Reach(ops).sessions[i].sent| - 1);
  }

  lemma FinalIsUnique(s: Session, k: nat)
    requires OneFinal(s) && FinalAt(s, k)
    ensures forall j: nat {:trigger FinalAt(s, j)} | FinalAt(s, j) :: j == k
  {
  }

  /** Each decode saw a prefix of what the next one saw, and of what has been received. */
  lemma SnapshotsGrow(ops: seq<Op>, i: nat, j: nat, k: nat)
    requires i < |Reach(ops).sessions| && j <= k < |Reach(ops).sessions[i].snapshots|
    ensures var s := Reach(ops).sessions[i]; s.snapshots[j] <= s.snapshots[k] <= s.audio
  {
    ReachKeeps(ops);
    assert SessionOk(Reach(ops).sessions[i]);
  }

  // ---------- The final result comes ----------

  /** The worker's next event when nothing fails. */
  function Next(s: Session, text: string): Event
    requires s.worker.Alive()
  {
    match s.worker
    case Waiting => Wakes
    case Recognizing(_, _) => Recognizes(Some(text))
    case Sending(_, _, _) => Sends(true)
    case Sleeping => Sleeps
  }

  function Rounds(w: Worker): nat {
    match w
    case Recognizing(final, _) => if final then 2 else 6
    case Sending(final, _, _) => if final then 1 else 5
    case Sleeping => 4
    case Waiting => 3
    case _ => 0
  }

  /** No wakeup is lost: once all has been received the worker never waits in vain, and comes closer to its end. */
  lemma WorkerGoesOn(s: Session, text: string)
    requires SessionOk(s) && s.finished && !s.stopped && s.worker.Alive()
    ensures var r := Act(s, Next(s, text));
      && SessionOk(r) && r.finished && !r.stopped && r.audio == s.audio && Rounds(r.worker) < Rounds(s.worker)
      && (r.worker.Alive() || r.worker.Exited?)
  {
    ActKeeps(s, Next(s, text));
  }

  function Play(s: Session, text: nat -> string): Session
    requires SessionOk(s) && s.finished && !s.stopped
    decreases Rounds(s.worker)
  {
    if !s.worker.Alive() then s
    else
      WorkerGoesOn(s, text(Rounds(s.worker)));
      Play(Act(s, Next(s, text(Rounds(s.worker)))), text)
  }

  /** Whatever the recognizer says, a worker that is left alone after the finish sends the final result. */
  lemma {:induction false} FinalComes(s: Session, text: nat -> string)
    requires SessionOk(s) && s.finished && !s.stopped && s.worker.Alive()
    ensures var r := Play(s, text);
      r.worker.Exited? && r.sent != [] && FinalAt(r, |r.sent| - 1) && r.sent[|r.sent| - 1].snapshot == s.audio
    decreases Rounds(s.worker)
  {
    var t := text(Rounds(s.worker));
    WorkerGoesOn(s, t);
    var r := Act(s, Next(s, t));
    if r.worker.Alive() {
      FinalComes(r, text);
    } else {
      assert FinalAt(r, |r.sent| - 1);
    }
  }
}
