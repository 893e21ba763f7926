/** What the client of the streaming decoder is told, and what becomes of what it sends. */
module DecodeTalk {
  import opened Common
  import opened DecodeProtocol

  /** The text of the last result among the messages. */
  function LastText(sent: seq<Message>): Option<string> {
    if sent == [] then None
    else
      var m := sent[|sent| - 1];
      if m.Result? then Some(m.text) else LastText(sent[..|sent| - 1])
  }

  /** A result before the final one has a text, and not the one that was sent last. */
  ghost predicate NewsOnly(s: Session) {
    && s.lastText == LastText(s.sent)
    && (s.worker.Sending? && !s.worker.final ==> s.worker.text != [] && Some(s.worker.text) != s.lastText)
    && forall k {:trigger s.sent[k]} | 0 <= k < |s.sent| && s.sent[k].Result? && !s.sent[k].final ::
         s.sent[k].text != [] && Some(s.sent[k].text) != LastText(s.sent[..k])
  }

  /** The greeting comes first and once, and no worker and no result comes without it. */
  ghost predicate Greeted(s: Session) {
    && (forall k {:trigger s.sent[k]} | 0 < k < |s.sent| :: !s.sent[k].Ready?)
    && (!s.worker.Absent? ==> s.sent != [] && s.sent[0].Ready?)
    && (s.receiver.Starting? ==> s.sent == [] && s.worker.Absent?)
    && forall k {:trigger s.sent[k]} | 0 <= k < |s.sent| && s.sent[k].Result? :: s.sent[0].Ready?
  }

  ghost predicate Told(s: Session) {
    NewsOnly(s) && Greeted(s)
  }

  /** Nothing was said, and the worker did not begin to send what is not news. */
  lemma SilenceKeeps(s: Session, r: Session)
    requires Told(s) && r.sent == s.sent && r.lastText == s.lastText
    requires r.worker.Absent? <==> s.worker.Absent?
    requires r.receiver.Starting? ==> s.receiver.Starting?
    requires r.worker.Sending? && !r.worker.final && r.worker != s.worker ==>
               r.worker.text != [] && Some(r.worker.text) != s.lastText
    ensures Told(r)
  {
  }

  lemma OneMoreKeeps(s: Session, r: Session, m: Message)
    requires Told(s) && !m.Ready? && r.sent == s.sent + [m] && !r.receiver.Starting? && !s.receiver.Starting?
    requires r.worker.Absent? <==> s.worker.Absent?
    requires if m.Result?
             then !s.worker.Absent? && r.lastText == Some(m.text) && !r.worker.Sending?
                  && (!m.final ==> m.text != [] && Some(m.text) != s.lastText)
             else r.lastText == s.lastText && r.worker == s.worker
    ensures Told(r)
  {
    assert r.sent[..|s.sent|] == s.sent;
    forall k | 0 <= k < |r.sent| && r.sent[k].Result? && !r.sent[k].final
      ensures r.sent[k].text != [] && Some(r.sent[k].text) != LastText(r.sent[..k])
    {
      if k < |s.sent| { assert r.sent[..k] == s.sent[..k] && s.sent[k] == r.sent[k]; }
    }
  }

  lemma SendTold(s: Session, delivered: bool)
    requires Told(s)
    ensures Told(ResultSent(s, delivered))
  {
    var r := ResultSent(s, delivered);
    if s.worker.Sending? && delivered {
      OneMoreKeeps(s, r, Result(s.worker.text, s.worker.final, s.worker.snapshot));
    } else {
      SilenceKeeps(s, r);
    }
  }

  lemma StartTold(s: Session, delivered: bool)
    requires Told(s)
    ensures Told(Started(s, delivered))
  {
    if s.receiver.Starting? && delivered {
      assert [Ready][..0] == [];
      assert Started(s, delivered).sent == [Ready];
    } else {
      SilenceKeeps(s, Started(s, delivered));
    }
  }

  lemma CloseTold(s: Session, delivered: bool)
    requires Told(s)
    ensures Told(Closed(s, delivered))
  {
    if s.receiver.Closing? && delivered {
      OneMoreKeeps(s, Closed(s, delivered), Close(1000));
    } else {
      SilenceKeeps(s, Closed(s, delivered));
    }
  }

  lemma ReportTold(s: Session, delivered: bool)
    requires Told(s)
    ensures Told(Reported(s, delivered))
  {
    if s.receiver.Reporting? && delivered {
      var t := s.(sent := s.sent + [Error]);
      OneMoreKeeps(s, t, Error);
      assert Reported(s, delivered).sent == t.sent + [Close(1011)];
      OneMoreKeeps(t, Reported(s, delivered), Close(1011));
    } else {
      SilenceKeeps(s, Reported(s, delivered));
    }
  }

  lemma WakeTold(s: Session)
    requires Told(s)
    ensures Told(Wake(s))
  {
    SilenceKeeps(s, Wake(s));
  }

  lemma RecognizedTold(s: Session, text: Option<string>)
    requires Told(s)
    ensures Told(Recognized(s, text))
  {
    SilenceKeeps(s, Recognized(s, text));
  }

  lemma SleptTold(s: Session)
    requires Told(s)
    ensures Told(Slept(s))
  {
    SilenceKeeps(s, Slept(s));
  }

  lemma ReceiveIsSilent(s: Session, m: Incoming)
    ensures var r := Receive(s, m);
      r.sent == s.sent && r.lastText == s.lastText && r.worker == s.worker
      && (r.receiver.Starting? ==> s.receiver.Starting?)
  {
  }

  lemma ReceiveTold(s: Session, m: Incoming)
    requires Told(s)
    ensures Told(Receive(s, m))
  {
    ReceiveIsSilent(s, m);
    var r := Receive(s, m);
    SilenceKeeps(s, r);
  }

  lemma JoinedTold(s: Session)
    requires Told(s)
    ensures Told(Joined(s))
  {
    SilenceKeeps(s, Joined(s));
  }

  lemma ExpiryTold(s: Session)
    requires Told(s)
    ensures Told(TimedOut(s))
  {
    SilenceKeeps(s, TimedOut(s));
  }

  lemma ActTold(s: Session, e: Event)
    requires Told(s)
    ensures Told(Act(s, e))
  {
    match e
    case Wakes => WakeTold(s);
    case Recognizes(text) => RecognizedTold(s, text);
    case Sends(delivered) => SendTold(s, delivered);
    case Sleeps => SleptTold(s);
    case Starts(delivered) => StartTold(s, delivered);
    case Receives(m) => ReceiveTold(s, m);
    case Joins => JoinedTold(s);
    case Closes(delivered) => CloseTold(s, delivered);
    case Expires => ExpiryTold(s);
    case Reports(delivered) => ReportTold(s, delivered);
  }

  /** Over every run each client is greeted first, and gets no partial result that is empty or repeats the last one. */
  lemma {:induction false} EveryoneIsTold(ops: seq<Op>, i: nat)
    requires i < |Reach(ops).sessions|
    ensures Told(Reach(ops).sessions[i])
  {
    if ops != [] {
      var v := Reach(ops[..|ops| - 1]);
      if i < |v.sessions| {
        EveryoneIsTold(ops[..|ops| - 1], i);
        StepTold(v, ops[|ops| - 1], i);
      } else {
        NewIsTold(v, ops[|ops| - 1], i);
      }
    }
  }

  lemma StepTold(v: Server, op: Op, i: nat)
    requires i < |v.sessions| && Told(v.sessions[i])
    ensures i < |Step(v, op).sessions| && Told(Step(v, op).sessions[i])
  {
    var s := v.sessions[i];
    if op.Acts? { ActTold(s, op.e); }
    SilenceKeeps(s, s.(receiver := Ended));
  }

  lemma NewIsTold(v: Server, op: Op, i: nat)
    requires |v.sessions| <= i < |Step(v, op).sessions|
    ensures Told(Step(v, op).sessions[i])
  {
    assert [Close(1013)][..0] == [];
  }

  // ---------- Who is admitted ----------

  /** A client is turned away, and told so, exactly while another one is being served. */
  lemma ConnectMeans(v: Server)
    ensures var w := Connect(v);
      && |w.sessions| == |v.sessions| + 1 && w.sessions[..|v.sessions|] == v.sessions && w.busy
      && var s := w.sessions[|v.sessions|];
         if v.busy then s.receiver.Refused? && s.sent == [Close(1013)] && s.worker.Absent? else s == NEW
  {
  }

  // ---------- What becomes of a message ----------

  /** What the server takes: an even number of bytes, not none and not too many, that still fits. */
  predicate Fits(s: Session, bytes: seq<int>) {
    0 < |bytes| <= 64000 && |bytes| % 2 == 0 && |s.audio| + |bytes| <= 65 * 32000
  }

  /** A message is taken, ends the reception, or is answered by an error; a worker that crashed is noticed first. */
  lemma ReceiveMeans(s: Session, m: Incoming)
    requires SessionOk(s) && s.receiver.Receiving?
    ensures var r := Receive(s, m);
      if s.worker.Crashed? then r.receiver.Reporting? && r.failed && r.audio == s.audio
      else match m
        case Data(bytes) =>
          if Fits(s, bytes) then r == s.(audio := s.audio + bytes, changed := true)
          else r.receiver.Reporting? && r.failed && r.audio == s.audio
        case Finish =>
          if s.audio != [] then r == s.(finished := true, changed := true, receiver := Awaiting)
          else r.receiver.Reporting? && r.failed
        case Disconnect => r.receiver.Draining? && r.stopped && r.changed && r.sent == s.sent
        case Other => r.receiver.Reporting? && r.failed
  {
    assert forall k: nat | FinalAt(s, k) :: s.finished;
  }

  /** Whatever goes wrong is put down: the worker's trouble ends the worker, any other leads to an error. */
  lemma TroubleMeans(s: Session, e: Event)
    requires e == Starts(false) || e == Closes(false) || e == Joins || e == Recognizes(None) || e == Sends(false)
    ensures var r := Act(s, e);
      match e
      case Starts(_) => s.receiver.Starting? ==> r.receiver.Reporting? && r.failed && r.worker == s.worker
      case Closes(_) => s.receiver.Closing? ==> r.receiver.Reporting? && r.failed && r.sent == s.sent
      case Joins => s.receiver.Awaiting? ==>
        if s.worker.Alive() || s.worker.Absent? then r == s
        else if s.worker.Crashed? then r.receiver.Reporting? && r.failed
        else r.receiver.Closing?
      case Recognizes(_) => s.worker.Recognizing? ==> r.worker.Crashed? && r.failed && r.receiver == s.receiver
      case Sends(_) => s.worker.Sending? ==> r.worker.Crashed? && r.failed && r.sent == s.sent
      case _ => true
  {
  }

  /** After 120 seconds a connection that receives or waits is on its way to an error. */
  lemma ExpiryMeans(s: Session)
    ensures var r := Act(s, Expires);
      if s.receiver.Receiving? || s.receiver.Awaiting? then r.receiver.Reporting? && r.failed else r == s
  {
  }

  /** An error that can be delivered is, with its close; then, and if it cannot be, the worker is stopped. */
  lemma ErrorIsTold(s: Session, delivered: bool)
    requires s.receiver.Reporting?
    ensures var r := Act(s, Reports(delivered));
      && r.receiver.Draining? && r.stopped && r.changed
      && r.sent == if delivered then s.sent + [Error, Close(1011)] else s.sent
  {
  }

  /** Before the finish the worker always rests between two recognitions; after it, never. */
  lemma RestsUnlessFinished(s: Session, e: Event)
    requires Stages(s) && (s.worker.Recognizing? || s.worker.Sending?)
    requires Act(s, e).worker.Waiting? || Act(s, e).worker.Sleeping?
    ensures Act(s, e).worker.Sleeping? <==> !s.finished
  {
  }
}
