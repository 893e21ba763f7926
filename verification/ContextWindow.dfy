/** Which rows of a channel a context view shows, and how it counts those it leaves out. */
module ContextWindow {
  import opened Common

  const RECENT_LIMIT := 5
  const UNCOMPRESSED_LIMIT := 40
  const PENDING_CHARACTER_LIMIT := 16000

  /** `size` is the length of the row's canonical form. */
  datatype Row = Row(seqNo: int, size: nat)

  datatype ChannelView = ChannelView(recent: seq<Row>, omitted: nat, uncompressedOmitted: nat)

  function Back(n: nat, k: nat): nat {
    if n < k then 0 else n - k
  }

  /** At least five rows, and up to forty while that many are not summarised. */
  function RowLimit(uncompressed: nat): (r: nat)
    ensures RECENT_LIMIT <= r <= UNCOMPRESSED_LIMIT
  {
    if uncompressed < RECENT_LIMIT then RECENT_LIMIT
    else if uncompressed < UNCOMPRESSED_LIMIT then uncompressed
    else UNCOMPRESSED_LIMIT
  }

  function Characters(rows: seq<Row>): nat {
    if rows == [] then 0 else rows[0].size + Characters(rows[1..])
  }

  /** Whether a view may start at row `s`: within the row limit, and the characters before the last five fit. */
  predicate MayStart(rows: seq<Row>, uncompressed: nat, s: nat)
    requires s <= Back(|rows|, RECENT_LIMIT)
  {
    && Back(|rows|, RowLimit(uncompressed)) <= s
    && Characters(rows[s..Back(|rows|, RECENT_LIMIT)]) <= PENDING_CHARACTER_LIMIT
  }

  lemma {:induction false} CharactersShrink(rows: seq<Row>, i: nat, j: nat, end: nat)
    requires i <= j <= end <= |rows|
    ensures Characters(rows[j..end]) <= Characters(rows[i..end])
    decreases j - i
  {
    if i < j {
      CharactersShrink(rows, i + 1, j, end);
      assert rows[i..end][1..] == rows[i + 1..end];
    }
  }

  // ---------- Counting ----------

  predicate Pending(row: Row, through: int) {
    row.seqNo > through
  }

  function CountPending(rows: seq<Row>, through: int): nat {
    if rows == [] then 0 else (if Pending(rows[0], through) then 1 else 0) + CountPending(rows[1..], through)
  }

  /** Rows that are not summarised and come before a sequence number; without one, all of them. */
  function CountBefore(rows: seq<Row>, through: int, first: Option<int>): nat {
    if rows == [] then 0
    else (if Pending(rows[0], through) && (first.Some? ==> rows[0].seqNo < first.value) then 1 else 0)
         + CountBefore(rows[1..], through, first)
  }

  ghost predicate Increasing(rows: seq<Row>) {
    forall i, j {:trigger rows[i].seqNo, rows[j].seqNo} | 0 <= i < j < |rows| :: rows[i].seqNo < rows[j].seqNo
  }

  lemma {:induction false} PendingJoins(a: seq<Row>, b: seq<Row>, through: int)
    ensures CountPending(a + b, through) == CountPending(a, through) + CountPending(b, through)
  {
    if a == [] {
      assert a + b == b;
    } else {
      HeadFirst(a, b);
      PendingJoins(a[1..], b, through);
    }
  }

  lemma {:induction false} BeforeAll(rows: seq<Row>, through: int, first: Option<int>)
    requires first.Some? ==> forall i | 0 <= i < |rows| :: rows[i].seqNo < first.value
    ensures CountBefore(rows, through, first) == CountPending(rows, through)
  {
    if rows != [] { BeforeAll(rows[1..], through, first); }
  }

  lemma {:induction false} BeforeNone(rows: seq<Row>, through: int, first: int)
    requires forall i | 0 <= i < |rows| :: rows[i].seqNo >= first
    ensures CountBefore(rows, through, Some(first)) == 0
  {
    if rows != [] { BeforeNone(rows[1..], through, first); }
  }

  lemma {:induction false} BeforeJoins(a: seq<Row>, b: seq<Row>, through: int, first: Option<int>)
    ensures CountBefore(a + b, through, first) == CountBefore(a, through, first) + CountBefore(b, through, first)
  {
    if a == [] {
      assert a + b == b;
    } else {
      HeadFirst(a, b);
      BeforeJoins(a[1..], b, through, first);
    }
  }

  /** Where the sequence numbers grow, what is counted before the first shown row is what is pending and not shown. */
  lemma CountedOrShown(rows: seq<Row>, start: nat, through: int)
    requires Increasing(rows) && start < |rows|
    ensures CountBefore(rows, through, Some(rows[start].seqNo)) + CountPending(rows[start..], through)
            == CountPending(rows, through)
  {
    var first := rows[start].seqNo;
    assert rows == rows[..start] + rows[start..];
    BeforeJoins(rows[..start], rows[start..], through, Some(first));
    PendingJoins(rows[..start], rows[start..], through);
    BeforeAll(rows[..start], through, Some(first));
    forall i | 0 <= i < |rows[start..]|
      ensures rows[start..][i].seqNo >= first
    {
      assert rows[start..][i] == rows[start + i];
    }
    BeforeNone(rows[start..], through, first);
  }

  /** What is not pending has no pending row before it. */
  lemma {:induction false} PendingBehind(rows: seq<Row>, through: int, i: nat)
    requires Increasing(rows) && i < |rows| && !Pending(rows[i], through)
    ensures CountPending(rows, through) <= |rows| - 1 - i
    decreases i
  {
    assert !Pending(rows[0], through) by { assert i > 0 ==> rows[0].seqNo < rows[i].seqNo; }
    if i == 0 {
      PendingAtMost(rows[1..], through);
    } else {
      PendingBehind(rows[1..], through, i - 1);
    }
  }

  lemma {:induction false} PendingAtMost(rows: seq<Row>, through: int)
    ensures CountPending(rows, through) <= |rows|
  {
    if rows != [] { PendingAtMost(rows[1..], through); }
  }

  /** As many rows from the end as are pending are the pending ones. */
  lemma LastArePending(rows: seq<Row>, through: int, i: nat)
    requires Increasing(rows) && |rows| - CountPending(rows, through) <= i < |rows|
    ensures Pending(rows[i], through)
  {
    if !Pending(rows[i], through) { PendingBehind(rows, through, i); }
  }

  // ---------- The view ----------

  method CompileChannel(rows: seq<Row>, uncompressed: nat, through: int) returns (view: ChannelView)
    ensures view.omitted + |view.recent| == |rows| && view.recent == rows[view.omitted..]
    ensures view.omitted <= Back(|rows|, RECENT_LIMIT)
    ensures forall s | 0 <= s <= Back(|rows|, RECENT_LIMIT) :: MayStart(rows, uncompressed, s) <==> view.omitted <= s
    ensures |view.recent| <= 5 || |view.recent| <= uncompressed
    ensures |view.recent| <= 40
    ensures Increasing(rows) && uncompressed == CountPending(rows, through) ==>
              forall i | view.omitted <= i < |rows| - 5 :: Pending(rows[i], through)
    ensures Increasing(rows) ==>
              view.uncompressedOmitted + CountPending(view.recent, through) == CountPending(rows, through)
  {
    var limit := RowLimit(uncompressed);
    var start: nat, base: nat := Back(|rows|, RECENT_LIMIT), Back(|rows|, RECENT_LIMIT);
    var extraCharacters: nat := 0;
    var earliest := Back(|rows|, limit);
    while start > earliest
      invariant earliest <= start <= base
      invariant extraCharacters == Characters(rows[start..base]) <= PENDING_CHARACTER_LIMIT
    {
      var size := rows[start - 1].size;
      assert Characters(rows[start - 1..base]) == size + Characters(rows[start..base]) by {
        assert rows[start - 1..base] == [rows[start - 1]] + rows[start..base];
      }
      if extraCharacters + size > PENDING_CHARACTER_LIMIT { break; }
      extraCharacters := extraCharacters + size;
      start := start - 1;
    }
    forall s | 0 <= s <= base
      ensures MayStart(rows, uncompressed, s) <==> start <= s
    {
      if start <= s {
        CharactersShrink(rows, start, s, base);
      } else if earliest <= s {
        CharactersShrink(rows, s, start - 1, base);
      }
    }
    var recent := rows[start..];
    var first := if recent == [] then None else Some(recent[0].seqNo);
    if recent != [] && Increasing(rows) { CountedOrShown(rows, start, through); }
    if Increasing(rows) && uncompressed == CountPending(rows, through) {
      forall i | start <= i < |rows| - 5
        ensures Pending(rows[i], through)
      {
        LastArePending(rows, through, i);
      }
    }
    view := ChannelView(recent, |rows| - |recent|, CountBefore(rows, through, first));
  }

  /** With no more than forty rows pending, and few enough characters, every pending row is shown. */
  lemma AllPendingShown(rows: seq<Row>, through: int, start: nat)
    requires Increasing(rows) && start <= Back(|rows|, RECENT_LIMIT)
    requires CountPending(rows, through) <= UNCOMPRESSED_LIMIT
    requires forall s | 0 <= s <= Back(|rows|, RECENT_LIMIT) ::
               MayStart(rows, CountPending(rows, through), s) <==> start <= s
    requires Characters(rows[Back(|rows|, RowLimit(CountPending(rows, through)))..Back(|rows|, RECENT_LIMIT)])
             <= PENDING_CHARACTER_LIMIT
    ensures forall i | 0 <= i < start :: !Pending(rows[i], through)
  {
    var n := CountPending(rows, through);
    assert MayStart(rows, n, Back(|rows|, RowLimit(n)));
    forall i | 0 <= i < start
      ensures !Pending(rows[i], through)
    {
      if Pending(rows[i], through) { PendingFrom(rows, through, i); }
    }
  }

  /** Behind a pending row everything is pending. */
  lemma {:induction false} PendingFrom(rows: seq<Row>, through: int, i: nat)
    requires Increasing(rows) && i < |rows| && Pending(rows[i], through)
    ensures CountPending(rows, through) >= |rows| - i
    decreases i, |rows|
  {
    if i > 0 {
      PendingFrom(rows[1..], through, i - 1);
    } else if |rows| > 1 {
      assert Pending(rows[1..][0], through);
      PendingFrom(rows[1..], through, 0);
    }
  }
}
