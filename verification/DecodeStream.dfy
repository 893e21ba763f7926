/**
 * The decode loop as one coroutine over the variables it shares with the receiver. Where the worker stands is the
 * position in the loop; the receiver's code runs at the awaits, whenever the schedule lets it.
 */
module DecodeStream {
  import opened Common
  import opened DecodeProtocol

  /** The loop ended, an exception left it, or it waits for an event that nobody set before the schedule ran out. */
  datatype LoopEnd = Returned | Raised | Parked

  class AudioStream {
    var audio: seq<int>
    var changed: bool
    var finished: bool
    var stopped: bool
    var receiver: Receiver
    /** Where the worker is, and its local variable. */
    ghost var worker: Worker
    ghost var lastText: Option<string>
    ghost var sent: seq<Message>
    ghost var snapshots: seq<seq<int>>
    ghost var failed: bool

    ghost function Model(): Session
      reads this
    {
      Session(receiver, worker, audio, changed, finished, stopped, lastText, sent, snapshots, failed)
    }

    ghost predicate Valid()
      reads this
    {
      SessionOk(Model())
    }

    /** What is still to come: audio, the finish, the stop, and a wake-up. */
    ghost function Fuel(): int
      reads this
    {
      MAX_BYTES - |audio| + (if finished then 0 else 2) + (if stopped then 0 else 2) + (if changed then 1 else 0)
    }

    // ---------- The receiver's code between its awaits, while the worker lives ----------

    method ReceiveMessage(message: Incoming)
      requires Valid() && receiver.Receiving? && worker.Alive()
      modifies this`receiver, this`audio, this`changed, this`finished, this`stopped, this`failed
      ensures Valid() && Model() == Receive(old(Model()), message)
      ensures Fuel() <= old(Fuel()) && (receiver.Awaiting? <==> finished)
    {
      ReceiveKeeps(Model(), message);
      match message
      case Disconnect =>
        receiver, stopped, changed := Draining, true, true;
        failed := true;
      case Data(bytes) =>
        if |bytes| == 0 || |bytes| % 2 != 0 || |bytes| > MAX_FRAME || |audio| + |bytes| > MAX_BYTES {
          receiver := Reporting;
          failed := true;
        } else {
          audio := audio + bytes;
          changed := true;
        }
      case Finish =>
        if audio == [] {
          receiver := Reporting;
          failed := true;
        } else {
          finished := true;
          changed := true;
          receiver := Awaiting;
        }
      case Other =>
        receiver := Reporting;
        failed := true;
    }

    /** One turn of the receiver: a message, the end of the 120 seconds, or the end of reporting an error. */
    method ReceiverTurn(e: Event)
      requires Valid() && worker.Alive()
      modifies this`receiver, this`audio, this`changed, this`finished, this`stopped, this`failed, this`sent
      ensures Valid() && Fuel() <= old(Fuel()) && (old(stopped) ==> stopped)
    {
      ActKeeps(Model(), e);
      if e.Receives? && receiver.Receiving? {
        ReceiveMessage(e.m);
      } else if e.Expires? && (receiver.Receiving? || receiver.Awaiting?) {
        receiver := Reporting;
        failed := true;
      } else if e.Reports? && receiver.Reporting? {
        if e.delivered { sent := sent + [Error, Close(1011)]; }
        receiver, stopped, changed := Draining, true, true;
      }
    }

    method Await(turns: seq<Event>)
      requires Valid() && worker.Alive()
      modifies this`receiver, this`audio, this`changed, this`finished, this`stopped, this`failed, this`sent
      ensures Valid() && Fuel() <= old(Fuel()) && (old(stopped) ==> stopped)
    {
      for i := 0 to |turns|
        invariant Valid() && worker == old(worker) && Fuel() <= old(Fuel()) && (old(stopped) ==> stopped)
      {
        ReceiverTurn(turns[i]);
      }
    }

    // ---------- The worker ----------

    /** Up to the recognizer's call. */
    method TakeSnapshot() returns (isFinal: bool, snapshot: seq<int>)
      requires Valid() && worker.Waiting? && changed && !stopped
      modifies this`changed, this`worker, this`snapshots
      ensures Valid() && worker == Recognizing(isFinal, snapshot) && snapshot == audio && isFinal == finished
      ensures !changed && Fuel() == old(Fuel()) - 1
    {
      WakeKeeps(Model());
      changed := false;
      isFinal, snapshot := finished, audio;
      snapshots := snapshots + [snapshot];
      worker := Recognizing(isFinal, snapshot);
    }

    /** The result is sent, unless nobody is there any more. */
    method SendResult(text: string, delivered: bool)
      requires Valid() && worker.Sending? && worker.text == text
      modifies this`worker, this`lastText, this`sent, this`failed
      ensures Valid() && Model() == ResultSent(old(Model()), delivered)
    {
      ResultSentKeeps(Model(), delivered);
      if !delivered {
        worker := Crashed;
        failed := true;
        return;
      }
      sent := sent + [Result(text, worker.final, worker.snapshot)];
      lastText := Some(text);
      worker := if worker.final then Exited else if finished then Waiting else Sleeping;
    }

    /** What the recognizer returned is worth sending, or the round is over. */
    method Weigh(text: string, last: Option<string>, isFinal: bool) returns (send: bool)
      requires Valid() && worker.Recognizing? && worker.final == isFinal && !stopped && lastText == last
      modifies this`worker
      ensures Valid() && send == (isFinal || (text != [] && Some(text) != last))
      ensures send ==> worker == Sending(isFinal, text, old(worker).snapshot)
      ensures !send ==> worker == if finished then Waiting else Sleeping
    {
      RecognizedKeeps(Model(), Some(text));
      send := isFinal || (text != [] && Some(text) != last);
      worker := if send then Sending(isFinal, text, worker.snapshot) else if finished then Waiting else Sleeping;
    }

    ghost method Crash()
      requires Valid() && worker.Recognizing?
      modifies this`worker, this`failed
      ensures Valid() && worker.Crashed? && failed
    {
      RecognizedKeeps(Model(), None);
      worker := Crashed;
      failed := true;
    }

    ghost method Leave()
      requires Valid() && stopped && (worker.Waiting? || worker.Recognizing?)
      modifies this`worker
      ensures Valid() && worker.Exited?
    {
      WakeKeeps(Model());
      RecognizedKeeps(Model(), Some([]));
      worker := Exited;
    }

    ghost method WakeUp()
      requires Valid() && worker.Sleeping?
      modifies this`worker
      ensures Valid() && worker.Waiting?
    {
      SleptKeeps(Model());
      worker := Waiting;
    }

    ghost predicate FinalSent()
      reads this
    {
      sent != [] && FinalAt(Model(), |sent| - 1) && sent[|sent| - 1].snapshot == audio
    }

    /** What it means that the loop ended one way or another. */
    ghost predicate EndsAs(end: LoopEnd)
      reads this
    {
      match end
      case Returned => worker.Exited? && (stopped || FinalSent())
      case Raised => worker.Crashed? && failed
      case Parked => worker.Waiting? && !changed && !finished && !stopped
    }

    /** From the recognizer's return to the sending of its result, if it is worth it; `done` when the loop is over. */
    method Respond(n: nat, turns: nat -> seq<Event>, text: string, delivered: bool, last: Option<string>, isFinal: bool)
      returns (newLast: Option<string>, end: Option<LoopEnd>)
      requires Valid() && worker.Recognizing? && worker.final == isFinal && !stopped && lastText == last
      modifies this
      ensures Valid() && Fuel() <= old(Fuel())
      ensures end.Some? ==> EndsAs(end.value)
      ensures end.None? ==> lastText == newLast && worker == if finished then Waiting else Sleeping
    {
      var send := Weigh(text, last, isFinal);
      if !send { return last, None; }
      Await(turns(4 * n + 2));
      SendResult(text, delivered);
      return Some(text), if !delivered then Some(Raised) else if isFinal then Some(Returned) else None;
    }

    /** One round, once the event is set and nobody has stopped the worker. */
    method Round(n: nat, turns: nat -> seq<Event>, recognized: Option<string>, delivered: bool, last: Option<string>)
      returns (newLast: Option<string>, end: Option<LoopEnd>)
      requires Valid() && worker.Waiting? && changed && !stopped && lastText == last
      modifies this
      ensures Valid() && Fuel() < old(Fuel())
      ensures end.Some? ==> EndsAs(end.value)
      ensures end.None? ==> worker.Waiting? && lastText == newLast
    {
      var isFinal, _ := TakeSnapshot();
      Await(turns(4 * n + 1));
      if recognized.None? {
        Crash();
        return last, Some(Raised);
      }
      if stopped {
        Leave();
        return last, Some(Returned);
      }
      newLast, end := Respond(n, turns, recognized.value, delivered, last, isFinal);
      if end.None? && !finished {
        Await(turns(4 * n + 3));
        WakeUp();
      }
    }

    /**
     * The loop ends, whatever the client sends and however its turns fall between the awaits. A worker that returned
     * was stopped or has just sent the final result, over all the audio; one that still waits has not been told of
     * the finish.
     */
    method DecodeLoop(turns: nat -> seq<Event>, recognize: nat -> Option<string>, delivers: nat -> bool)
      returns (end: LoopEnd)
      requires Valid() && worker.Waiting? && lastText == None
      modifies this
      ensures Valid() && EndsAs(end)
    {
      var last: Option<string> := None;
      var n: nat := 0;
      while !stopped
        invariant Valid() && worker.Waiting? && lastText == last
        decreases Fuel()
      {
        Await(turns(4 * n));
        if !changed { return Parked; }
        if stopped { break; }
        var over;
        last, over := Round(n, turns, recognize(n), delivers(n), last);
        if over.Some? { return over.value; }
        n := n + 1;
      }
      Leave();
      return Returned;
    }
  }
}
