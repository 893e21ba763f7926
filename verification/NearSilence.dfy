/**
 * The streaming near-silence statistic of the playback queue, frame by frame, against the longest
 * quiet run of the whole stream.
 */
module NearSilence {
  const NEAR_SILENCE_AMPLITUDE_THRESHOLD := 33

  type Int16 = x: int | -0x8000 <= x < 0x8000

  predicate Quiet(sample: Int16) {
    -NEAR_SILENCE_AMPLITUDE_THRESHOLD <= sample <= NEAR_SILENCE_AMPLITUDE_THRESHOLD
  }

  predicate QuietIn(s: seq<Int16>, from: nat, to: nat)
    requires from <= to <= |s|
  {
    forall i | from <= i < to :: Quiet(s[i])
  }

  predicate AllQuiet(s: seq<Int16>) {
    QuietIn(s, 0, |s|)
  }

  function Max(a: nat, b: nat): nat {
    if a >= b then a else b
  }

  // ---------- What the statistic is about ----------

  function Front(s: seq<Int16>): (r: seq<Int16>)
    requires s != []
    ensures |r| == |s| - 1 && forall i | 0 <= i < |r| :: r[i] == s[i]
  {
    s[..|s| - 1]
  }

  function Trailing(s: seq<Int16>): (n: nat)
    ensures n <= |s| && QuietIn(s, |s| - n, |s|)
    ensures n < |s| ==> !Quiet(s[|s| - 1 - n])
  {
    if s == [] || !Quiet(s[|s| - 1]) then 0 else 1 + Trailing(Front(s))
  }

  function Leading(s: seq<Int16>): (n: nat)
    ensures n <= |s| && QuietIn(s, 0, n)
    ensures n < |s| ==> !Quiet(s[n])
  {
    if s == [] || !Quiet(s[0]) then 0 else 1 + Leading(s[1..])
  }

  function Longest(s: seq<Int16>): (n: nat)
    ensures n <= |s|
  {
    if s == [] then 0 else Max(Longest(Front(s)), Trailing(s))
  }

  ghost predicate HasRun(s: seq<Int16>, at: nat, n: nat) {
    at + n <= |s| && QuietIn(s, at, at + n)
  }

  /** `Longest` is the length of some quiet run ... */
  lemma {:induction false} LongestIsRun(s: seq<Int16>) returns (at: nat)
    ensures HasRun(s, at, Longest(s))
  {
    if s == [] || Longest(s) == Trailing(s) {
      at := |s| - Longest(s);
    } else {
      at := LongestIsRun(Front(s));
    }
  }

  /** ... and no quiet run is longer. */
  lemma {:induction false} NoRunIsLonger(s: seq<Int16>, at: nat, n: nat)
    requires HasRun(s, at, n)
    ensures n <= Longest(s)
  {
    if at + n < |s| {
      NoRunIsLonger(Front(s), at, n);
    } else {
      assert Trailing(s) < |s| ==> !Quiet(s[|s| - 1 - Trailing(s)]);
    }
  }

  // ---------- One frame, as written ----------

  datatype NearSilenceRun = NearSilenceRun(leading: nat, trailing: nat, longest: nat, fillsFrame: bool)

  /**
   * `leading` may grow again on a later run that has caught up with it, so it always ends up as the
   * longest run of the frame; the other three facts are exact.
   */
  method MeasureRun(samples: seq<Int16>) returns (r: NearSilenceRun)
    ensures r.trailing == Trailing(samples) && r.longest == Longest(samples)
    ensures r.leading == Longest(samples)
    ensures r.fillsFrame <==> AllQuiet(samples)
  {
    var leading, longest, current := 0, 0, 0;
    var i := 0;
    while i < |samples|
      invariant 0 <= i <= |samples|
      invariant current == Trailing(samples[..i]) && longest == Longest(samples[..i]) == leading
    {
      assert Front(samples[..i + 1]) == samples[..i];
      if Quiet(samples[i]) {
        current := current + 1;
        longest := Max(longest, current);
        if leading == current - 1 { leading := current; }
      } else {
        current := 0;
      }
      i := i + 1;
    }
    assert samples[..i] == samples;
    FullIffQuiet(samples);
    r := NearSilenceRun(leading, current, longest, leading == |samples|);
  }

  lemma FullIffQuiet(s: seq<Int16>)
    ensures Longest(s) == |s| <==> AllQuiet(s)
    ensures Leading(s) <= Longest(s) && Trailing(s) <= Longest(s)
  {
    var at := LongestIsRun(s);
    NoRunIsLonger(s, 0, Leading(s));
    NoRunIsLonger(s, |s| - Trailing(s), Trailing(s));
    if AllQuiet(s) { NoRunIsLonger(s, 0, |s|); }
  }

  // ---------- Joining frames ----------

  lemma JoinTrailing(a: seq<Int16>, b: seq<Int16>)
    ensures Trailing(a + b) == if AllQuiet(b) then Trailing(a) + |b| else Trailing(b)
  {
    var s := a + b;
    var n := Trailing(s);
    var m := if AllQuiet(b) then Trailing(a) + |b| else Trailing(b);
    assert QuietIn(s, |s| - m, |s|);
    assert m < |s| ==> !Quiet(s[|s| - 1 - m]);
    assert n < |s| ==> !Quiet(s[|s| - 1 - n]);
  }

  /** The longest run of either part or the one across the seam. */
  function JoinedLongest(a: seq<Int16>, b: seq<Int16>): nat {
    Max(Longest(a), Max(Trailing(a) + Leading(b), Longest(b)))
  }

  /** Every run of a joined stream lies in one part or runs across the seam. */
  lemma JoinLongest(a: seq<Int16>, b: seq<Int16>)
    ensures Longest(a + b) == JoinedLongest(a, b)
  {
    var at := LongestIsRun(a + b);
    JoinAtMost(a, b, at, Longest(a + b));
    JoinAtLeast(a, b);
  }

  lemma JoinAtLeast(a: seq<Int16>, b: seq<Int16>)
    ensures Longest(a + b) >= JoinedLongest(a, b)
  {
    var at := LongestIsRun(a);
    NoRunIsLonger(a + b, at, Longest(a));
    NoRunIsLonger(a + b, |a| - Trailing(a), Trailing(a) + Leading(b));
    var bt := LongestIsRun(b);
    NoRunIsLonger(a + b, |a| + bt, Longest(b));
  }

  lemma JoinAtMost(a: seq<Int16>, b: seq<Int16>, at: nat, n: nat)
    requires HasRun(a + b, at, n)
    ensures n <= JoinedLongest(a, b)
  {
    var s := a + b;
    if at + n <= |a| {
      assert forall i | 0 <= i < |a| :: a[i] == s[i];
      NoRunIsLonger(a, at, n);
    } else if at >= |a| {
      assert forall i | 0 <= i < |b| :: b[i] == s[|a| + i];
      NoRunIsLonger(b, at - |a|, n);
    } else {
      assert Trailing(a) < |a| ==> !Quiet(s[|a| - 1 - Trailing(a)]);
      assert Leading(b) < |b| ==> !Quiet(s[|a| + Leading(b)]);
    }
  }

  // ---------- The window statistic ----------

  /** `consecutiveNearSilenceSamples` and `pcmNearSilenceSamplesMax`. */
  datatype Tracker = Tracker(carried: nat, peak: nat)

  const Reset := Tracker(0, 0)

  /** One append, with the frame's `leading` as a parameter. */
  function Track(t: Tracker, leading: nat, frame: seq<Int16>): Tracker {
    var joined := t.carried + leading;
    Tracker(if AllQuiet(frame) then joined else Trailing(frame), Max(t.peak, Max(joined, Longest(frame))))
  }

  /** As written: `leading` is the longest run. */
  function Tracked(frames: seq<seq<Int16>>): Tracker {
    if frames == [] then Reset
    else Track(Tracked(frames[..|frames| - 1]), Longest(frames[|frames| - 1]), frames[|frames| - 1])
  }

  /** The same, with a `leading` that stops at the first loud sample. */
  function TrackedExactly(frames: seq<seq<Int16>>): Tracker {
    if frames == [] then Reset
    else Track(TrackedExactly(frames[..|frames| - 1]), Leading(frames[|frames| - 1]), frames[|frames| - 1])
  }

  function Stream(frames: seq<seq<Int16>>): seq<Int16> {
    if frames == [] then [] else Stream(frames[..|frames| - 1]) + frames[|frames| - 1]
  }

  ghost predicate Sandwiched(t: Tracker, s: seq<Int16>) {
    t.carried == Trailing(s) && Longest(s) <= t.peak <= 2 * Longest(s)
  }

  lemma TrackSandwiches(t: Tracker, s: seq<Int16>, frame: seq<Int16>)
    requires Sandwiched(t, s)
    ensures Sandwiched(Track(t, Longest(frame), frame), s + frame)
  {
    JoinTrailing(s, frame);
    JoinLongest(s, frame);
    FullIffQuiet(s);
    FullIffQuiet(frame);
  }

  /** As written, the carried run is exact and the peak lies between the true longest run and twice it. */
  lemma {:induction false} PeakIsSandwiched(frames: seq<seq<Int16>>)
    ensures Sandwiched(Tracked(frames), Stream(frames))
  {
    if frames != [] {
      PeakIsSandwiched(frames[..|frames| - 1]);
      TrackSandwiches(Tracked(frames[..|frames| - 1]), Stream(frames[..|frames| - 1]), frames[|frames| - 1]);
    }
  }

  /** With the corrected `leading` the peak is the true longest run. */
  lemma {:induction false} CorrectedPeakIsExact(frames: seq<seq<Int16>>)
    ensures TrackedExactly(frames) == Tracker(Trailing(Stream(frames)), Longest(Stream(frames)))
  {
    if frames != [] {
      var before := frames[..|frames| - 1];
      var frame := frames[|frames| - 1];
      CorrectedPeakIsExact(before);
      JoinTrailing(Stream(before), frame);
      JoinLongest(Stream(before), frame);
    }
  }

  /** The upper bound is reached: two quiet samples, then a frame whose quiet run is not at its start. */
  lemma PeakCanDouble()
    ensures var frames := [[0, 0], [100, 0, 0]];
      Longest(Stream(frames)) == 2 && Tracked(frames).peak == 4
  {
    var first: seq<Int16> := [0, 0];
    var second: seq<Int16> := [100, 0, 0];
    var frames := [first, second];
    LongestOfTwo(first);
    assert second[..2] == [100, 0] && second[..2][..1] == [100];
    assert Longest([100 as Int16]) == 0 && Trailing([100 as Int16]) == 0;
    assert Longest(second[..2]) == 1 && Trailing(second[..2]) == 1;
    assert Longest(second) == 2;
    assert frames[..1] == [first];
    assert Stream([first]) == [] + first == first;
    JoinLongest(first, second);
    assert Leading(second) == 0;
  }

  lemma LongestOfTwo(s: seq<Int16>)
    requires |s| == 2 && AllQuiet(s)
    ensures Longest(s) == 2 == Trailing(s)
  {
    FullIffQuiet(s);
  }

  /**
   * While the peak has been exact, the next append keeps it exact exactly when nothing was carried,
   * or the frame's longest run is its leading one, or even the overcounted sum is no new maximum.
   */
  lemma PeakStaysExactIff(t: Tracker, s: seq<Int16>, frame: seq<Int16>)
    requires t == Tracker(Trailing(s), Longest(s))
    ensures Track(t, Longest(frame), frame).peak == Longest(s + frame) <==>
            (t.carried == 0 || Longest(frame) == Leading(frame) || t.carried + Longest(frame) <= t.peak)
  {
    JoinLongest(s, frame);
    FullIffQuiet(frame);
  }

  /** What append `n` adds up: the run carried into the frame and the frame's longest run, wherever it is. */
  function SeamSum(frames: seq<seq<Int16>>, n: nat): nat
    requires n < |frames|
  {
    Trailing(Stream(frames[..n])) + Longest(frames[n])
  }

  lemma {:induction false} PeakIsLargestSeamSum(frames: seq<seq<Int16>>, bound: nat)
    ensures Tracked(frames).peak <= bound <==> forall n | 0 <= n < |frames| :: SeamSum(frames, n) <= bound
  {
    if frames != [] {
      var m := |frames| - 1;
      PeakIsLargestSeamSum(frames[..m], bound);
      PeakIsSandwiched(frames[..m]);
      forall n | 0 <= n < m
        ensures SeamSum(frames, n) == SeamSum(frames[..m], n)
      {
        assert frames[..m][..n] == frames[..n];
      }
      assert SeamSum(frames, m) == Tracked(frames[..m]).carried + Longest(frames[m]);
    }
  }

  /** The guard of the overcount: a run is carried into a frame whose longest run is not at its start. */
  predicate Overcounts(frames: seq<seq<Int16>>, n: nat)
    requires n < |frames|
  {
    Trailing(Stream(frames[..n])) > 0 && Longest(frames[n]) != Leading(frames[n])
  }

  /** Without the guard the sum is a quiet run of the joined stream. */
  lemma SumIsRun(s: seq<Int16>, frame: seq<Int16>)
    requires Trailing(s) == 0 || Longest(frame) == Leading(frame)
    ensures Trailing(s) + Longest(frame) <= Longest(s + frame)
  {
    JoinLongest(s, frame);
  }

  lemma RunsStay(s: seq<Int16>, frame: seq<Int16>)
    ensures Longest(s) <= Longest(s + frame)
  {
    JoinLongest(s, frame);
  }

  /** Where the guard does not hold, what is added up is no more than some quiet run of the whole stream. */
  lemma {:induction false} OtherSumsAreRuns(frames: seq<seq<Int16>>, n: nat)
    requires n < |frames| && !Overcounts(frames, n)
    ensures SeamSum(frames, n) <= Longest(Stream(frames))
  {
    var m := |frames| - 1;
    var before := frames[..m];
    if n == m {
      SumIsRun(Stream(before), frames[m]);
    } else {
      assert before[..n] == frames[..n] && before[n] == frames[n];
      OtherSumsAreRuns(before, n);
      RunsStay(Stream(before), frames[m]);
    }
  }

  /**
   * Over a whole window the peak is exact exactly when no append that carries a run into a frame whose
   * longest run is not at its start adds up to more than some true quiet run.
   */
  lemma PeakIsExactIff(frames: seq<seq<Int16>>)
    ensures Tracked(frames).peak == Longest(Stream(frames)) <==>
            forall n | 0 <= n < |frames| && Overcounts(frames, n) :: SeamSum(frames, n) <= Longest(Stream(frames))
  {
    PeakIsSandwiched(frames);
    PeakIsLargestSeamSum(frames, Longest(Stream(frames)));
    forall n | 0 <= n < |frames| && !Overcounts(frames, n)
      ensures SeamSum(frames, n) <= Longest(Stream(frames))
    {
      OtherSumsAreRuns(frames, n);
    }
  }
}
