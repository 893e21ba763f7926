/** Every interleaving of the queue's operations, beside its history. */
module PlaybackWorld {
  import opened Common
  import opened NearSilence
  import opened PlaybackModel
  import opened PlaybackRuns
  import opened PlaybackTables

  ghost predicate QueueOk(q: Queue) {
    CallbackOk(Callback(q, [], [], []))
  }

  // ---------- Tables and counters ----------

  lemma AppendPending(q: Queue, samples: seq<Int16>, id: Identity)
    ensures Pending(Append(q, samples, id).entries) == Pending(q.entries) + Tag(id, samples)
  {
    if samples == [] {
      assert Tag(id, samples) == [];
    } else {
      PendingJoins(q.entries, [Audio(id, samples, 0)]);
      assert samples[0..] == samples;
      assert Pending([Audio(id, samples, 0)]) == Tag(id, samples) + [];
    }
  }

  lemma AppendOk(q: Queue, samples: seq<Int16>, id: Identity)
    requires QueueOk(q)
    ensures QueueOk(Append(q, samples, id))
  {
    if samples != [] {
      var r := Append(q, samples, id);
      AppendKeepsTables(q, samples, id);
      AppendPending(q, samples, id);
      forall x | x in r.telemetry
        ensures r.telemetry[x].queuedSamples <= CountOf(Pending(r.entries), x)
      {
        CountJoins(Pending(q.entries), Tag(id, samples), x);
        CountTag(id, samples, x);
      }
    }
  }

  lemma ClearOneOk(q: Queue, id: Identity)
    requires QueueOk(q)
    ensures QueueOk(ClearOne(q, id).0)
  {
    var r := ClearOne(q, id).0;
    ForgetKeeps(q.completed.Keys, q.completedOrder, id);
    ForgetKeeps(q.telemetry.Keys, q.telemetryOrder, id);
    assert r.completed.Keys == q.completed.Keys - {id} && r.telemetry.Keys == q.telemetry.Keys - {id};
    ClearedPending(q.entries, id);
    forall x | x in r.telemetry
      ensures r.telemetry[x].queuedSamples <= CountOf(Pending(r.entries), x)
    {
      DroppedCount(Pending(q.entries), id, x);
    }
  }

  lemma FinishPending(q: Queue, id: Identity)
    ensures Pending(Finish(q, id).entries) == Pending(q.entries)
  {
    PendingJoins(q.entries, [Terminal(id)]);
    assert Pending([Terminal(id)]) == [];
  }

  lemma RenderOk(q: Queue, room: nat)
    requires QueueOk(q)
    ensures QueueOk(Render(q, room).0.q)
    ensures forall id | id in Render(q, room).0.q.telemetry ::
              id in q.telemetry && Render(q, room).0.q.telemetry[id].quiet == q.telemetry[id].quiet
  {
    var start := Callback(q, [], [], []);
    DriveKeeps(start, room);
    var c := Drive(start, room);
    ReportKeepsTables(c.q, c.finished);
    ReportKeepsQueue(c.q, c.finished);
  }

  lemma StepKeepsQueue(q: Queue, op: Op)
    requires QueueOk(q)
    ensures QueueOk(StepQueue(q, op))
  {
    match op
    case AppendOp(samples, id) => AppendOk(q, samples, id);
    case TerminalOp(id) => FinishPending(q, id);
    case ClearOp(None) =>
    case ClearOp(Some(id)) => ClearOneOk(q, id);
    case MuteOp(_) =>
    case SampleOp => assert TakeSnapshots(q).telemetry.Keys == q.telemetry.Keys;
    case RenderOp(room) => RenderOk(q, room);
  }

  // ---------- The line of audio ----------

  lemma StepPending(w: World, op: Op)
    requires QueueOk(w.q) && w.line == w.played + Pending(w.q.entries)
    ensures LineAfter(w, op) == (w.played + PlayedBy(w.q, op)) + Pending(StepQueue(w.q, op).entries)
  {
    var queued := Pending(w.q.entries);
    CursorSplits(w.played, queued);
    match op
    case AppendOp(samples, id) =>
      AppendPending(w.q, samples, id);
      Associates(w.played, queued, Tag(id, samples));
    case TerminalOp(id) => FinishPending(w.q, id);
    case ClearOp(Some(id)) => ClearedPending(w.q.entries, id);
    case RenderOp(room) =>
      RenderPlaysPrefix(w.q, room);
      Associates(w.played, PlayedBy(w.q, op), Pending(StepQueue(w.q, op).entries));
    case _ =>
  }

  lemma CursorSplits(played: seq<Tagged>, queued: seq<Tagged>)
    ensures (played + queued)[|played|..] == queued && (played + queued)[..|played|] == played
    ensures played + [] == played && [] + played == played
  {
  }

  /** Nothing is lost or invented: queued audio plus what is new is what is played, cleared or still queued. */
  lemma StepConserves(q: Queue, op: Op)
    requires QueueOk(q)
    ensures multiset(Pending(q.entries)) + multiset(if op.AppendOp? then Tag(op.identity, op.samples) else [])
            == multiset(PlayedBy(q, op)) + multiset(ClearedBy(q, op)) + multiset(Pending(StepQueue(q, op).entries))
  {
    if op.AppendOp? {
      AppendPending(q, op.samples, op.identity);
    } else if op.RenderOp? {
      RenderConserves(q, op.room);
    } else {
      assert PlayedBy(q, op) == [];
      QuietConserves(q, op);
    }
  }

  lemma QuietConserves(q: Queue, op: Op)
    requires WellFormed(q.entries) && !op.AppendOp? && !op.RenderOp?
    ensures multiset(Pending(q.entries)) ==
            multiset(ClearedBy(q, op)) + multiset(Pending(StepQueue(q, op).entries))
  {
    match op
    case TerminalOp(id) => FinishPending(q, id);
    case ClearOp(Some(id)) => ClearConserves(q.entries, id);
    case _ =>
  }

  lemma ClearConserves(entries: seq<Entry>, id: Identity)
    requires WellFormed(entries)
    ensures multiset(Pending(entries)) ==
            multiset(Only(Pending(entries), id)) + multiset(Pending(EntriesWithout(entries, id)))
  {
    ClearedPending(entries, id);
    DroppedAndOnly(Pending(entries), id);
  }

  lemma RenderConserves(q: Queue, room: nat)
    requires WellFormed(q.entries)
    ensures var c := Render(q, room).0;
      multiset(Pending(q.entries)) == multiset(c.played) + multiset(Pending(c.q.entries))
  {
    RenderPlaysPrefix(q, room);
  }

  // ---------- The quiet windows ----------

  lemma StepQuiet(w: World, op: Op, id: Identity)
    requires WorldOk(w) && id in StepQueue(w.q, op).telemetry
    ensures Sandwiched(StepQueue(w.q, op).telemetry[id].quiet, WindowsAfter(w, op)[id])
  {
    match op
    case AppendOp(samples, own) =>
      if samples == [] {
        assert WindowsAfter(w, op)[id] == w.windows[id];
      } else {
        AppendKeepsTables(w.q, samples, own);
        if id == own {
          var before := if id in w.windows then w.windows[id] else [];
          var t := if id in w.q.telemetry then w.q.telemetry[id].quiet else Reset;
          TrackSandwiches(t, before, samples);
        }
      }
    case RenderOp(room) => RenderOk(w.q, room);
    case _ =>
  }

  // ---------- Runs ----------

  lemma Balances(a: seq<Tagged>, p: seq<Tagged>, q: seq<Tagged>, c: seq<Tagged>,
                 more: seq<Tagged>, played: seq<Tagged>, left: seq<Tagged>, cleared: seq<Tagged>)
    requires multiset(a) == multiset(p) + multiset(q) + multiset(c)
    requires multiset(q) + multiset(more) == multiset(played) + multiset(cleared) + multiset(left)
    ensures multiset(a + more) == multiset(p + played) + multiset(left) + multiset(c + cleared)
  {
    forall t
      ensures multiset(a + more)[t] == (multiset(p + played) + multiset(left) + multiset(c + cleared))[t]
    {
      assert (multiset(q) + multiset(more))[t] == (multiset(played) + multiset(cleared) + multiset(left))[t];
      assert multiset(a)[t] == (multiset(p) + multiset(q) + multiset(c))[t];
    }
  }

  lemma StepBalances(w: World, op: Op)
    requires WorldOk(w)
    ensures var r := StepWorld(w, op);
      multiset(r.appended) == multiset(r.played) + multiset(Pending(r.q.entries)) + multiset(r.cleared)
  {
    var more := if op.AppendOp? then Tag(op.identity, op.samples) else [];
    StepConserves(w.q, op);
    Balances(w.appended, w.played, Pending(w.q.entries), w.cleared,
             more, PlayedBy(w.q, op), Pending(StepQueue(w.q, op).entries), ClearedBy(w.q, op));
    assert StepWorld(w, op).appended == w.appended + more;
  }

  lemma StepWindows(w: World, op: Op)
    requires WorldOk(w)
    ensures WindowsAfter(w, op).Keys == StepQueue(w.q, op).telemetry.Keys
    ensures forall id | id in WindowsAfter(w, op) ::
              Sandwiched(StepQueue(w.q, op).telemetry[id].quiet, WindowsAfter(w, op)[id])
  {
    forall id | id in WindowsAfter(w, op)
      ensures Sandwiched(StepQueue(w.q, op).telemetry[id].quiet, WindowsAfter(w, op)[id])
    {
      StepQuiet(w, op, id);
    }
  }

  lemma StepKeepsWorld(w: World, op: Op)
    requires WorldOk(w)
    ensures WorldOk(StepWorld(w, op))
  {
    StepKeepsQueue(w.q, op);
    StepPending(w, op);
    StepBalances(w, op);
    StepWindows(w, op);
  }

  /**
   * After any run: what callbacks consumed is the front of the appended audio minus what was cleared
   * unread; per sample and identity, appended = played + still queued + cleared; tables, counters and
   * the quiet statistic are as `WorldOk` says.
   */
  ghost function Run(ops: seq<Op>): (w: World)
    ensures WorldOk(w)
  {
    if ops == [] then Start
    else
      var before := Run(ops[..|ops| - 1]);
      StepKeepsWorld(before, ops[|ops| - 1]);
      StepWorld(before, ops[|ops| - 1])
  }
}
