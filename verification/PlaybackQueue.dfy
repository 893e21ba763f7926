/** The lock-protected queue object; each locked section is one method. */
module PlaybackQueues {
  import opened Common
  import opened NearSilence
  import opened PlaybackCounts
  import opened PlaybackModel
  import opened PlaybackRuns
  import opened PlaybackSignals
  import opened PlaybackTables

  class PlaybackQueue {
    var entries: seq<Entry>
    var started: set<Identity>
    var renderedSamples: map<Identity, nat>
    var completedSamples: map<Identity, nat>
    var completedOrder: seq<Identity>
    var muted: bool
    var telemetry: map<Identity, Counters>
    var telemetryOrder: seq<Identity>

    function Model(): Queue
      reads this
    {
      Queue(entries, started, renderedSamples, completedSamples, completedOrder, muted, telemetry, telemetryOrder)
    }

    constructor ()
      ensures Model() == Empty
    {
      entries, started, renderedSamples, completedSamples, completedOrder := [], {}, map[], map[], [];
      muted, telemetry, telemetryOrder := false, map[], [];
    }

    method SetMuted(value: bool)
      modifies this`muted
      ensures Model() == old(Model()).(muted := value)
    {
      muted := value;
    }

    /** One snapshot per live generation, in the order of their last appends; then every window starts anew. */
    method TakeTelemetrySnapshots() returns (snapshots: seq<Snapshot>)
      requires TablesOk(Model())
      modifies this`telemetry
      ensures Model() == TakeSnapshots(old(Model()))
      ensures |snapshots| == |telemetryOrder| && forall i | 0 <= i < |snapshots| ::
                telemetryOrder[i] in old(telemetry) && snapshots[i].identity == telemetryOrder[i]
                && snapshots[i].queuedSamples == old(telemetry)[telemetryOrder[i]].queuedSamples
                && snapshots[i].nearSilenceMax == old(telemetry)[telemetryOrder[i]].quiet.peak
      ensures forall id | id in old(telemetry) ::
                exists i :: 0 <= i < |snapshots| && snapshots[i].identity == id
      ensures forall id | id in telemetry :: Sandwiched(telemetry[id].quiet, [])
    {
      snapshots := Snapshots();
      ResetWindows();
      assert forall id | id in old(telemetry) :: id in telemetryOrder;
    }

    method Snapshots() returns (snapshots: seq<Snapshot>)
      requires TablesOk(Model())
      ensures |snapshots| == |telemetryOrder| && forall i | 0 <= i < |snapshots| ::
                telemetryOrder[i] in telemetry
                && snapshots[i] == SnapshotOf(telemetryOrder[i], telemetry[telemetryOrder[i]])
    {
      snapshots := [];
      var i := 0;
      while i < |telemetryOrder|
        invariant 0 <= i == |snapshots| <= |telemetryOrder|
        invariant forall k | 0 <= k < i ::
                    telemetryOrder[k] in telemetry
                    && snapshots[k] == SnapshotOf(telemetryOrder[k], telemetry[telemetryOrder[k]])
      {
        var identity := telemetryOrder[i];
        assert identity in telemetryOrder;
        if identity in telemetry {
          snapshots := snapshots + [SnapshotOf(identity, telemetry[identity])];
        }
        i := i + 1;
      }
    }

    method ResetWindows()
      requires TablesOk(Model())
      modifies this`telemetry
      ensures telemetry == TakeSnapshots(old(Model())).telemetry
    {
      var i := 0;
      while i < |telemetryOrder|
        invariant 0 <= i <= |telemetryOrder| && telemetry.Keys == old(telemetry).Keys
        invariant forall id | id in telemetry :: telemetry[id] ==
                    if id in telemetryOrder[..i] then old(telemetry)[id].(quiet := Reset) else old(telemetry)[id]
      {
        var identity := telemetryOrder[i];
        assert telemetryOrder[..i + 1] == telemetryOrder[..i] + [identity];
        if identity in telemetry {
          telemetry := telemetry[identity := telemetry[identity].(quiet := Reset)];
        }
        i := i + 1;
      }
      assert telemetryOrder[..i] == telemetryOrder;
    }

    /** Audio goes behind everything queued; its generation becomes the newest live one. */
    method AppendAudio(samples: seq<Int16>, identity: Identity)
      requires TablesOk(Model())
      modifies this
      ensures Model() == Append(old(Model()), samples, identity) && TablesOk(Model())
      ensures Items(entries) == old(Items(entries)) + Sounds(Tag(identity, samples))
      ensures samples != [] ==>
                && identity in telemetry && telemetryOrder != [] && telemetryOrder[|telemetryOrder| - 1] == identity
                && identity !in completedSamples
    {
      AppendItems(Model(), samples, identity);
      if samples == [] { return; }
      AppendIsNewest(Model(), samples, identity);
      AppendKeepsTables(Model(), samples, identity);
      Enqueue(samples, identity);
    }

    method Enqueue(samples: seq<Int16>, identity: Identity)
      requires samples != []
      modifies this
      ensures Model() == Append(old(Model()), samples, identity)
    {
      var silence := MeasureRun(samples);
      if identity !in telemetry {
        telemetry := telemetry[identity := Counters(0, Reset)];
      }
      telemetryOrder := Without(telemetryOrder, identity) + [identity];
      TrimTelemetry();
      CountAppended(samples, silence, identity);
      completedSamples := completedSamples - {identity};
      completedOrder := Without(completedOrder, identity);
      entries := entries + [Audio(identity, samples, 0)];
    }

    method CountAppended(samples: seq<Int16>, silence: NearSilenceRun, identity: Identity)
      requires silence == NearSilenceRun(Longest(samples), Trailing(samples), Longest(samples), AllQuiet(samples))
      modifies this`telemetry
      ensures telemetry == if identity in old(telemetry)
                           then old(telemetry)[identity := Counted(old(telemetry)[identity], samples)]
                           else old(telemetry)
    {
      if identity in telemetry {
        var current := telemetry[identity];
        var joinedLeading := current.quiet.carried + silence.leading;
        var quiet := Tracker(if silence.fillsFrame then joinedLeading else silence.trailing,
                             Max(current.quiet.peak, Max(joinedLeading, silence.longest)));
        telemetry := telemetry[identity := Counters(current.queuedSamples + |samples|, quiet)];
      }
    }

    method TrimTelemetry()
      modifies this`telemetry, this`telemetryOrder
      ensures (telemetry, telemetryOrder) == Trim(old(telemetry), old(telemetryOrder))
    {
      while |telemetryOrder| > MAX_COMPLETED_PLAYBACK
        invariant Trim(telemetry, telemetryOrder) == Trim(old(telemetry), old(telemetryOrder))
      {
        telemetry, telemetryOrder := telemetry - {telemetryOrder[0]}, telemetryOrder[1..];
      }
    }

    method TrimCompleted()
      modifies this`completedSamples, this`completedOrder
      ensures (completedSamples, completedOrder) == Trim(old(completedSamples), old(completedOrder))
    {
      while |completedOrder| > MAX_COMPLETED_PLAYBACK
        invariant Trim(completedSamples, completedOrder) == Trim(old(completedSamples), old(completedOrder))
      {
        completedSamples, completedOrder := completedSamples - {completedOrder[0]}, completedOrder[1..];
      }
    }

    method FinishWith(identity: Identity)
      modifies this`entries
      ensures Model() == Finish(old(Model()), identity)
      ensures Items(entries) == old(Items(entries)) + [End(identity)]
    {
      ItemsJoin(entries, [Terminal(identity)]);
      assert Items([Terminal(identity)]) == [End(identity)] + Items([]);
      entries := entries + [Terminal(identity)];
    }

    method Clear(target: Option<Identity>) returns (rendered: nat)
      modifies this
      ensures target.None? ==> (Model(), rendered) == (ClearAll(old(Model())), 0)
      ensures target.None? ==> entries == [] && muted == old(muted) && forall id :: Gone(Model(), id)
      ensures target.Some? ==> (Model(), rendered) == ClearOne(old(Model()), target.value)
      ensures target.Some? ==> Gone(Model(), target.value) && KeepsOthers(old(Model()), Model(), target.value)
    {
      if target.None? {
        entries, started, renderedSamples, completedSamples, completedOrder := [], {}, map[], map[], [];
        telemetry, telemetryOrder := map[], [];
        return 0;
      }
      var identity := target.value;
      ClearLeavesNothing(Model(), identity);
      RetainOthers(identity);
      started := started - {identity};
      rendered := Max(At(renderedSamples, identity), At(completedSamples, identity));
      renderedSamples := renderedSamples - {identity};
      completedSamples := completedSamples - {identity};
      completedOrder := Without(completedOrder, identity);
      telemetry := telemetry - {identity};
      telemetryOrder := Without(telemetryOrder, identity);
    }

    method RetainOthers(identity: Identity)
      modifies this`entries
      ensures entries == EntriesWithout(old(entries), identity)
    {
      var retained := [];
      var i := 0;
      while i < |entries|
        invariant 0 <= i <= |entries|
        invariant retained + EntriesWithout(entries[i..], identity) == EntriesWithout(old(entries), identity)
        invariant entries == old(entries)
      {
        RetainOne(retained, entries[i..], identity);
        assert entries[i..][1..] == entries[i + 1..];
        if entries[i].identity != identity { retained := retained + [entries[i]]; }
        i := i + 1;
      }
      assert entries[i..] == [] && retained + [] == retained;
      entries := retained;
    }

    lemma RetainOne(retained: seq<Entry>, rest: seq<Entry>, identity: Identity)
      requires rest != []
      ensures var kept := if rest[0].identity == identity then retained else retained + [rest[0]];
        kept + EntriesWithout(rest[1..], identity) == retained + EntriesWithout(rest, identity)
    {
      var later := EntriesWithout(rest[1..], identity);
      if rest[0].identity == identity {
        assert EntriesWithout(rest, identity) == [] + later == later;
      } else {
        Associates(retained, [rest[0]], later);
      }
    }

    // ---------- Rendering ----------

    method PopFinished(ghost c: Callback) returns (count: nat)
      requires entries != [] && entries[0].Terminal? && c.q == Model()
      modifies this
      ensures Model() == PopTerminal(c).q
      ensures PopTerminal(c) ==
              c.(q := Model(), finished := c.finished + [Popped(old(entries)[0].identity, count, |c.played|)])
    {
      var identity := entries[0].identity;
      entries := entries[1..];
      started := started - {identity};
      count := At(renderedSamples, identity);
      renderedSamples := renderedSamples - {identity};
      completedSamples := completedSamples[identity := count];
      completedOrder := Without(completedOrder, identity) + [identity];
      TrimCompleted();
    }

    method PlayHead(amount: nat, ghost c: Callback) returns (announced: bool)
      requires entries != [] && entries[0].Audio? && c.q == Model()
      requires 0 < amount <= |entries[0].samples| - entries[0].consumed
      modifies this
      ensures Model() == PlaySome(c, amount).q
      ensures announced <==> old(entries)[0].identity !in old(started)
    {
      var identity := entries[0].identity;
      announced := identity !in started;
      started := started + {identity};
      renderedSamples := renderedSamples[identity := At(renderedSamples, identity) + amount];
      CountPlayed(identity, amount);
      AdvanceHead(amount);
    }

    method CountPlayed(identity: Identity, amount: nat)
      modifies this`telemetry
      ensures telemetry == if identity in old(telemetry)
                           then old(telemetry)[identity := Drained(old(telemetry)[identity], amount)]
                           else old(telemetry)
    {
      if identity in telemetry {
        telemetry := telemetry[identity := Drained(telemetry[identity], amount)];
      }
    }

    method AdvanceHead(amount: nat)
      requires entries != [] && entries[0].Audio? && amount <= |entries[0].samples| - entries[0].consumed
      modifies this`entries
      ensures entries == Advance(old(entries), amount)
    {
      var next := entries[0].consumed + amount;
      if next == |entries[0].samples| {
        entries := entries[1..];
      } else {
        entries := [entries[0].(consumed := next)] + entries[1..];
      }
    }

    method ReportDone(completed: seq<Popped>) returns (done: seq<Popped>)
      modifies this`telemetry, this`telemetryOrder
      ensures (Model(), done) == Report(old(Model()), completed)
    {
      done := [];
      var i := 0;
      assert completed[0..] == completed && forall r: seq<Popped> :: [] + r == r;
      while i < |completed|
        invariant 0 <= i <= |completed|
        invariant Report(old(Model()), completed) ==
                  (Report(Model(), completed[i..]).0, done + Report(Model(), completed[i..]).1)
      {
        var identity := completed[i].identity;
        assert completed[i..][1..] == completed[i + 1..];
        if identity in telemetry {
          ghost var rest := Model().(telemetry := telemetry - {identity},
                                     telemetryOrder := Without(telemetryOrder, identity));
          ghost var later := Report(rest, completed[i + 1..]).1;
          Associates(done, [completed[i]], later);
          done := done + [completed[i]];
          telemetry := telemetry - {identity};
          telemetryOrder := Without(telemetryOrder, identity);
        }
        i := i + 1;
      }
      assert done + [] == done;
    }

    /** Consume what fits of the head audio, writing it out unless muted. */
    method RenderHead(output: array<Int16>, offset: nat, amount: nat, ghost c: Callback) returns (announced: bool)
      requires c.q == Model() && entries != [] && entries[0].Audio?
      requires 0 < amount <= |entries[0].samples| - entries[0].consumed && offset + amount <= output.Length
      requires offset == |c.played| && output[..] == Output(c.played, muted, output.Length)
      modifies this, output
      ensures Model() == PlaySome(c, amount).q && muted == old(muted)
      ensures announced == (old(entries)[0].identity !in old(started))
      ensures output[..] == Output(PlaySome(c, amount).played, muted, output.Length)
    {
      var source := entries[0].samples[entries[0].consumed..entries[0].consumed + amount];
      WriteSamples(output, offset, source, c.played, entries[0].identity);
      announced := PlayHead(amount, c);
    }

    method WriteSamples(output: array<Int16>, offset: nat, source: seq<Int16>,
                        ghost played: seq<Tagged>, ghost identity: Identity)
      requires offset == |played| && offset + |source| <= output.Length
      requires output[..] == Output(played, muted, output.Length)
      modifies output
      ensures output[..] == Output(played + Tag(identity, source), muted, output.Length)
    {
      OutputGrows(played, identity, source, muted, output.Length);
      if !muted { CopySamples(output, offset, source); }
    }

    method RenderTurn(output: array<Int16>, offset: nat, ghost c: Callback) returns (amount: nat, announced: bool)
      requires c.q == Model() && WellFormed(entries) && !Stops(c, output.Length) && entries[0].Audio?
      requires offset == |c.played| && output[..] == Output(c.played, muted, output.Length)
      modifies this, output
      ensures muted == old(muted) && WellFormed(entries)
      ensures var r := Turn(c, output.Length);
        && r.q == Model() && r.finished == c.finished
        && r.started == (if announced then c.started + [old(entries)[0].identity] else c.started)
        && |r.played| == offset + amount && Ids(r.played) == Ids(c.played) + {old(entries)[0].identity}
        && output[..] == Output(r.played, muted, output.Length)
    {
      AudioTurn(c, output.Length);
      assert entries[0] in entries;
      var left := |entries[0].samples| - entries[0].consumed;
      amount := if output.Length - offset <= left then output.Length - offset else left;
      announced := RenderHead(output, offset, amount, c);
    }

    method CopySamples(output: array<Int16>, offset: nat, source: seq<Int16>)
      requires offset + |source| <= output.Length
      modifies output
      ensures output[..] == old(output[..])[..offset] + source + old(output[..])[offset + |source|..]
    {
      forall i | 0 <= i < |source| { output[offset + i] := source[i]; }
    }

    /**
     * One callback. A start is announced for what begins to play; a generation is done exactly if its terminal
     * was taken off the line and its counters were known, and exactly those counters are given up.
     */
    method RenderInto(output: array<Int16>) returns (announced: seq<Identity>, done: seq<Popped>)
      requires WellFormed(entries)
      modifies this, output
      ensures WellFormed(entries)
      ensures var (c, reported) := Render(old(Model()), output.Length);
        && Model() == c.q && announced == c.started && done == reported
        && |c.played| <= output.Length && output[..] == Output(c.played, muted, output.Length)
        && Announced(old(started), c) && Reports(c.finished, old(telemetry).Keys, done)
        && (forall i | 0 <= i < output.Length ::
              output[i] == if i < |c.played| && !muted then c.played[i].sample else 0)
      ensures var taken := Taken(Callback(old(Model()), [], [], []), output.Length);
        && (forall id :: id in PoppedIds(done) <==> id in old(telemetry) && End(id) in taken)
        && (forall id :: id in telemetry <==> id in old(telemetry) && End(id) !in taken)
    {
      RenderAnnounces(Model(), output.Length);
      RenderReports(Model(), output.Length);
      announced, done := Fill(output);
      assert forall i | 0 <= i < output.Length :: output[i] == output[..][i];
    }

    /** Fill the callback's buffer; signal starts as they happen and completed generations at the end. */
    method Fill(output: array<Int16>) returns (announced: seq<Identity>, done: seq<Popped>)
      requires WellFormed(entries)
      modifies this, output
      ensures WellFormed(entries)
      ensures var (c, reported) := Render(old(Model()), output.Length);
        && Model() == c.q && announced == c.started && done == reported
        && |c.played| <= output.Length && output[..] == Output(c.played, muted, output.Length)
    {
      forall i | 0 <= i < output.Length { output[i] := 0; }
      ghost var start := Callback(Model(), [], [], []);
      ghost var c := start;
      var completed: seq<Popped> := [];
      var consumedIdentities: set<Identity> := {};
      var offset := 0;
      announced := [];
      while offset < output.Length && entries != []
        invariant WellFormed(entries) && c == Callback(Model(), c.played, announced, completed)
        invariant Drive(c, output.Length) == Drive(start, output.Length)
        invariant 0 <= offset == |c.played| <= output.Length && consumedIdentities == Ids(c.played)
        invariant muted == old(muted) && output[..] == Output(c.played, muted, output.Length)
        decreases output.Length - offset, |entries|
      {
        var identity := entries[0].identity;
        if entries[0].Terminal? {
          if identity in consumedIdentities { break; }
          var count := PopFinished(c);
          completed := completed + [Popped(identity, count, offset)];
          c := PopTerminal(c);
        } else {
          var amount, isNew := RenderTurn(output, offset, c);
          c := Turn(c, output.Length);
          if isNew { announced := announced + [identity]; }
          offset := offset + amount;
          consumedIdentities := consumedIdentities + {identity};
        }
      }
      done := ReportDone(completed);
    }
  }
}
