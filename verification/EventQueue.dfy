/** The event heap, refined to the multiset of its entries. */
module EventQueues {
  import opened Common

  datatype Kind = UserInput | Handoff | Progress | Observation | Deadline | OtherKind

  datatype Event = Event(kind: Kind, ts: real, seqno: nat, payload: nat)

  datatype Entry = Entry(event: Event, rank: nat)

  /** A deadline yields to everything else of its instant. */
  function Ranked(event: Event): Entry {
    Entry(event, if event.kind.Deadline? then 1 else 0)
  }

  predicate Less(a: Entry, b: Entry) {
    || a.event.ts < b.event.ts
    || (a.event.ts == b.event.ts
        && (a.rank < b.rank || (a.rank == b.rank && a.event.seqno < b.event.seqno)))
  }

  /**
   * The order without ranks: an earlier time first; at one time a deadline after everything else; and among
   * events of one time that are both deadlines, or both not, the one that was posted first.
   */
  predicate Precedes(a: Event, b: Event) {
    || a.ts < b.ts
    || (a.ts == b.ts && !a.kind.Deadline? && b.kind.Deadline?)
    || (a.ts == b.ts && (a.kind.Deadline? <==> b.kind.Deadline?) && a.seqno < b.seqno)
  }

  /** The least entry of a queue is the event that precedes every other one in it. */
  lemma LeastPrecedes(first: Event, m: multiset<Entry>, last: nat)
    requires Numbered(m, last) && IsLeast(Ranked(first), m)
    ensures forall e | e in m && e.event != first :: Precedes(first, e.event)
  {
    forall e | e in m && e.event != first
      ensures Precedes(first, e.event)
    {
      assert !Clash(Ranked(first), e) && Ordered(Ranked(first), e);
    }
  }

  /** `compareEntries(a, b) <= 0`. */
  predicate Ordered(a: Entry, b: Entry) {
    !Less(b, a)
  }

  predicate IsLeast(e: Entry, m: multiset<Entry>) {
    e in m && forall x | x in m :: Ordered(e, x)
  }

  /** Sequence numbers tell entries apart. */
  ghost predicate Numbered(m: multiset<Entry>, last: nat) {
    && (forall e | e in m :: m[e] == 1 && e.event.seqno <= last && e == Ranked(e.event))
    && (forall e, f {:trigger Clash(e, f)} | e in m && f in m :: !Clash(e, f))
  }

  predicate Clash(e: Entry, f: Entry) {
    e != f && e.event.seqno == f.event.seqno
  }

  lemma NumberedWithout(m: multiset<Entry>, e: Entry, last: nat)
    requires Numbered(m, last) && e in m
    ensures Numbered(m - multiset{e}, last)
  {
  }

  lemma NumberedWith(m: multiset<Entry>, e: Entry, last: nat)
    requires Numbered(m, last) && e.event.seqno == last + 1 && e == Ranked(e.event)
    ensures Numbered(m + multiset{e}, last + 1)
  {
  }

  // ---------- Heaps ----------

  function Parent(i: int): int
    requires i > 0
  {
    (i - 1) / 2
  }

  /** Every parent at or after `from` is ordered before its children. */
  ghost predicate HeapFrom(h: seq<Entry>, from: int) {
    forall i | 0 < i < |h| && Parent(i) >= from :: Ordered(h[Parent(i)], h[i])
  }

  lemma {:induction false} RootIsLeast(h: seq<Entry>, i: nat)
    requires HeapFrom(h, 0) && i < |h|
    ensures Ordered(h[0], h[i])
  {
    if i > 0 {
      RootIsLeast(h, Parent(i));
    }
  }

  function Swap(h: seq<Entry>, i: int, j: int): (r: seq<Entry>)
    requires 0 <= i < |h| && 0 <= j < |h|
  {
    h[i := h[j]][j := h[i]]
  }

  lemma SwapPermutes(h: seq<Entry>, i: int, j: int)
    requires 0 <= i < |h| && 0 <= j < |h|
    ensures multiset(Swap(h, i, j)) == multiset(h)
  {
  }

  lemma OrderIsTotal(a: Entry, b: Entry, c: Entry)
    ensures Ordered(a, b) || Ordered(b, a)
    ensures Ordered(a, b) && Ordered(b, c) ==> Ordered(a, c)
  {
  }

  /** A heap except that the entry at `c`, whose children respect its parent, may belong higher up. */
  ghost predicate Rising(h: seq<Entry>, c: nat) {
    && c < |h|
    && (forall i | 0 < i < |h| && i != c :: Ordered(h[Parent(i)], h[i]))
    && (c > 0 ==> forall i | 0 < i < |h| && Parent(i) == c :: Ordered(h[Parent(c)], h[i]))
  }

  lemma RiseOneLevel(h: seq<Entry>, c: nat)
    requires 0 < c && Rising(h, c) && !Ordered(h[Parent(c)], h[c])
    ensures Rising(Swap(h, Parent(c), c), Parent(c))
  {
    var p := Parent(c);
    var r := Swap(h, p, c);
    forall i | 0 < i < |r| && i != p
      ensures Ordered(r[Parent(i)], r[i])
    {
      if Parent(i) == p && i != c { OrderIsTotal(h[c], h[p], h[i]); }
    }
    if p > 0 {
      forall i | 0 < i < |r| && Parent(i) == p
        ensures Ordered(r[Parent(p)], r[i])
      {
        if i != c { OrderIsTotal(h[Parent(p)], h[p], h[i]); }
      }
    }
  }

  /** A heap from `from` on except that the entry at `p` may belong lower down. */
  ghost predicate Sinking(h: seq<Entry>, p: nat, from: nat) {
    && from <= p < |h|
    && (forall i | 0 < i < |h| && Parent(i) >= from && Parent(i) != p :: Ordered(h[Parent(i)], h[i]))
    && (p > 0 && Parent(p) >= from ==> forall i | 0 < i < |h| && Parent(i) == p :: Ordered(h[Parent(p)], h[i]))
  }

  /** `c` is a least one among `p` and its children. */
  predicate LeastOfThree(h: seq<Entry>, p: nat, c: nat) {
    && p < |h| && c < |h| && (c == p || c == 2 * p + 1 || c == 2 * p + 2)
    && Ordered(h[c], h[p])
    && (2 * p + 1 < |h| ==> Ordered(h[c], h[2 * p + 1]))
    && (2 * p + 2 < |h| ==> Ordered(h[c], h[2 * p + 2]))
  }

  function Smallest(h: seq<Entry>, parent: nat): (c: nat)
    requires parent < |h|
    ensures LeastOfThree(h, parent, c)
  {
    var left, right := parent * 2 + 1, parent * 2 + 2;
    var lower := if left < |h| && Less(h[left], h[parent]) then left else parent;
    if right < |h| && Less(h[right], h[lower]) then right else lower
  }

  lemma SinkOneLevel(h: seq<Entry>, p: nat, c: nat, from: nat)
    requires Sinking(h, p, from) && LeastOfThree(h, p, c) && c != p
    ensures Sinking(Swap(h, p, c), c, from)
  {
    var r := Swap(h, p, c);
    forall i | 0 < i < |r| && Parent(i) >= from && Parent(i) != c
      ensures Ordered(r[Parent(i)], r[i])
    {
      if Parent(i) == p { assert i == 2 * p + 1 || i == 2 * p + 2; }
    }
  }

  lemma SinkStops(h: seq<Entry>, p: nat, from: nat)
    requires Sinking(h, p, from) && LeastOfThree(h, p, p)
    ensures HeapFrom(h, from)
  {
    assert forall i | 0 < i < |h| && Parent(i) == p :: i == 2 * p + 1 || i == 2 * p + 2;
  }

  /** The last entry in the first one's place is unordered only at the root. */
  lemma LastSinksFromRoot(before: seq<Entry>)
    requires |before| > 1 && HeapFrom(before, 0)
    ensures Sinking(before[..|before| - 1][0 := before[|before| - 1]], 0, 0)
  {
    var after := before[..|before| - 1][0 := before[|before| - 1]];
    forall i | 0 < i < |after| && Parent(i) != 0
      ensures Ordered(after[Parent(i)], after[i])
    {
      assert Ordered(before[Parent(i)], before[i]);
    }
  }

  /** The last entry in the first one's place leaves the contents less the first. */
  lemma LastReplacesFirst(before: seq<Entry>)
    requires |before| > 1
    ensures multiset(before[..|before| - 1][0 := before[|before| - 1]]) == multiset(before) - multiset{before[0]}
  {
    var n := |before| - 1;
    var first, middle, last := before[0], before[1..n], before[n];
    assert multiset(before) == multiset{first} + multiset(middle) + multiset{last} by {
      assert before == [first] + middle + [last];
    }
    assert multiset(before[..n][0 := last]) == multiset{last} + multiset(middle) by {
      assert before[..n][0 := last] == [last] + middle;
    }
  }

  function Kept(h: seq<Entry>, remove: Event -> bool): seq<Entry> {
    if h == [] then [] else (if remove(h[0].event) then [] else [h[0]]) + Kept(h[1..], remove)
  }

  lemma CountFirst(s: seq<Entry>, e: Entry)
    requires s != []
    ensures multiset(s)[e] == (if s[0] == e then 1 else 0) + multiset(s[1..])[e]
  {
    assert s == [s[0]] + s[1..];
  }

  lemma {:induction false} KeptFilters(h: seq<Entry>, remove: Event -> bool, e: Entry)
    ensures multiset(Kept(h, remove))[e] == if remove(e.event) then 0 else multiset(h)[e]
    ensures |Kept(h, remove)| <= |h| && (|Kept(h, remove)| == |h| ==> Kept(h, remove) == h)
  {
    if h != [] {
      KeptFilters(h[1..], remove, e);
      CountFirst(h, e);
      if !remove(h[0].event) {
        CountFirst(Kept(h, remove), e);
        assert Kept(h, remove)[1..] == Kept(h[1..], remove);
      }
    }
  }

  class EventQueue {
    var heap: seq<Entry>
    var sequence: nat

    ghost function Contents(): multiset<Entry>
      reads this
    {
      multiset(heap)
    }

    ghost predicate Valid()
      reads this
    {
      HeapFrom(heap, 0) && Numbered(Contents(), sequence)
    }

    constructor ()
      ensures Valid() && Contents() == multiset{} && sequence == 0
    {
      heap, sequence := [], 0;
    }

    /** A new event gets the next sequence number and joins the contents; nothing else changes. */
    method Push(kind: Kind, payload: nat, at: real) returns (event: Event)
      requires Valid()
      modifies this
      ensures Valid() && sequence == old(sequence) + 1
      ensures event == Event(kind, at, sequence, payload)
      ensures Contents() == old(Contents()) + multiset{Ranked(event)} && |heap| == |old(heap)| + 1
    {
      sequence := sequence + 1;
      event := Event(kind, at, sequence, payload);
      var entry := Ranked(event);
      Joined(heap, entry);
      NumberedWith(Contents(), entry, sequence - 1);
      heap := heap + [entry];
      SiftUp(|heap| - 1);
    }

    /** The least entry leaves exactly when it is due. */
    method PopReady(now: real) returns (popped: Option<Event>)
      requires Valid()
      modifies this`heap
      ensures Valid()
      ensures popped.None? ==> heap == old(heap) && forall e | e in Contents() :: e.event.ts > now
      ensures popped.Some? ==>
                && IsLeast(Ranked(popped.value), old(Contents())) && popped.value.ts <= now
                && Contents() == old(Contents()) - multiset{Ranked(popped.value)} && |heap| == |old(heap)| - 1
                && forall e | e in old(Contents()) && e.event != popped.value :: Precedes(popped.value, e.event)
    {
      if heap == [] { return None; }
      LeastIsFirst();
      var first := heap[0];
      if first.event.ts > now { return None; }
      assert first in Contents();
      LeastPrecedes(first.event, Contents(), sequence);
      NumberedWithout(Contents(), first, sequence);
      TakeFirst();
      return Some(first.event);
    }

    /** The last entry takes the first one's place and sinks. */
    method TakeFirst()
      requires HeapFrom(heap, 0) && heap != []
      modifies this`heap
      ensures HeapFrom(heap, 0) && Contents() == old(Contents()) - multiset{old(heap)[0]} && |heap| == |old(heap)| - 1
    {
      ghost var before := heap;
      var last := heap[|heap| - 1];
      heap := heap[..|heap| - 1];
      if heap != [] {
        LastSinksFromRoot(before);
        LastReplacesFirst(before);
        heap := heap[0 := last];
        SiftDown(0, 0);
      } else {
        assert before == [last];
      }
    }

    lemma LeastIsFirst()
      requires Valid() && heap != []
      ensures IsLeast(heap[0], Contents())
    {
      forall e | e in Contents()
        ensures Ordered(heap[0], e)
      {
        var i :| 0 <= i < |heap| && heap[i] == e;
        RootIsLeast(heap, i);
      }
    }

    function NextTimestamp(): Option<real>
      reads this
    {
      if heap == [] then None else Some(heap[0].event.ts)
    }

    /** Exactly the entries whose event is not removed stay; the sequence counter goes on. */
    method RemoveWhere(remove: Event -> bool)
      requires Valid()
      modifies this`heap
      ensures Valid()
      ensures forall e :: Contents()[e] == if remove(e.event) then 0 else old(Contents())[e]
    {
      var retained := Kept(heap, remove);
      forall e: Entry
        ensures multiset(retained)[e] == if remove(e.event) then 0 else multiset(heap)[e]
        ensures |retained| == |heap| ==> retained == heap
      {
        KeptFilters(heap, remove, e);
      }
      if |retained| == |heap| { return; }
      heap := retained;
      var index := |heap| / 2 - 1;
      while index >= 0
        invariant -1 <= index < |heap| && |heap| == |retained|
        invariant multiset(heap) == multiset(retained) && HeapFrom(heap, index + 1)
      {
        SiftDown(index, index);
        index := index - 1;
      }
    }

    method SiftUp(index: nat)
      requires Rising(heap, index)
      modifies this`heap
      ensures multiset(heap) == old(multiset(heap)) && |heap| == |old(heap)| && HeapFrom(heap, 0)
    {
      var child: nat := index;
      while child > 0
        invariant Rising(heap, child)
        invariant multiset(heap) == old(multiset(heap)) && |heap| == |old(heap)|
      {
        var parent := (child - 1) / 2;
        if Ordered(heap[parent], heap[child]) { return; }
        SwapPermutes(heap, parent, child);
        RiseOneLevel(heap, child);
        heap := Swap(heap, parent, child);
        child := parent;
      }
    }

    /** Sink the entry at `index` within the part of the heap whose parents are at or after `from`. */
    method SiftDown(index: nat, ghost from: nat)
      requires Sinking(heap, index, from)
      modifies this`heap
      ensures multiset(heap) == old(multiset(heap)) && |heap| == |old(heap)| && HeapFrom(heap, from)
    {
      var parent: nat := index;
      while true
        invariant Sinking(heap, parent, from)
        invariant multiset(heap) == old(multiset(heap)) && |heap| == |old(heap)|
        decreases |heap| - parent
      {
        var smallest := Smallest(heap, parent);
        if smallest == parent {
          SinkStops(heap, parent, from);
          return;
        }
        SwapPermutes(heap, parent, smallest);
        SinkOneLevel(heap, parent, smallest, from);
        heap := Swap(heap, parent, smallest);
        parent := smallest;
      }
    }

    lemma Joined(h: seq<Entry>, e: Entry)
      requires HeapFrom(h, 0)
      ensures Rising(h + [e], |h|) && multiset(h + [e]) == multiset(h) + multiset{e}
    {
    }
  }

  // ---------- Draining ----------

  /** `out` is what successive pops take out of `m`. */
  ghost predicate PoppedFrom(m: multiset<Entry>, out: seq<Entry>) {
    out == [] || (IsLeast(out[0], m) && PoppedFrom(m - multiset{out[0]}, out[1..]))
  }

  lemma {:induction false} PopsCameFrom(m: multiset<Entry>, out: seq<Entry>)
    requires PoppedFrom(m, out)
    ensures multiset(out) <= m
  {
    if out != [] {
      PopsCameFrom(m - multiset{out[0]}, out[1..]);
      assert out == [out[0]] + out[1..];
    }
  }

  /** One more least entry continues a drain. */
  lemma {:induction false} PopOneMore(m: multiset<Entry>, out: seq<Entry>, e: Entry)
    requires PoppedFrom(m, out) && IsLeast(e, m - multiset(out))
    ensures PoppedFrom(m, out + [e])
  {
    if out == [] {
      assert out + [e] == [e] && [e][1..] == [];
    } else {
      WithoutFirst(m, out);
      PopOneMore(m - multiset{out[0]}, out[1..], e);
      assert (out + [e])[1..] == out[1..] + [e];
    }
  }

  lemma WithoutFirst(m: multiset<Entry>, out: seq<Entry>)
    requires out != []
    ensures m - multiset(out) == m - multiset{out[0]} - multiset(out[1..])
  {
    assert out == [out[0]] + out[1..];
  }

  lemma WithoutLast(m: multiset<Entry>, out: seq<Entry>, e: Entry)
    ensures m - multiset(out + [e]) == m - multiset(out) - multiset{e}
  {
  }

  function Entries(events: seq<Event>): (r: seq<Entry>)
    ensures |r| == |events| && forall i | 0 <= i < |r| :: r[i].event == events[i]
  {
    seq(|events|, i requires 0 <= i < |events| => Ranked(events[i]))
  }

  /** A drain without pushes comes out in order. */
  lemma {:induction false} DrainIsSorted(m: multiset<Entry>, out: seq<Entry>, i: nat, j: nat)
    requires PoppedFrom(m, out) && i < j < |out|
    ensures Ordered(out[i], out[j])
  {
    if i > 0 {
      DrainIsSorted(m - multiset{out[0]}, out[1..], i - 1, j - 1);
    } else {
      PopsCameFrom(m, out);
      assert out[j] in multiset(out);
    }
  }

  /** The order of a drain depends on the contents alone, not on how the heap is laid out. */
  lemma {:induction false} DrainIsDetermined(m: multiset<Entry>, last: nat, a: seq<Entry>, b: seq<Entry>)
    requires Numbered(m, last) && PoppedFrom(m, a) && PoppedFrom(m, b) && |a| == |b|
    ensures a == b
  {
    if a != [] {
      assert !Clash(a[0], b[0]);
      DrainIsDetermined(m - multiset{a[0]}, last, a[1..], b[1..]);
      assert a == [a[0]] + a[1..] && b == [b[0]] + b[1..];
    }
  }

  /** `out` was drained from `m` up to now, and `left` is what is left. */
  ghost predicate Drained(m: multiset<Entry>, out: seq<Event>, left: multiset<Entry>, now: real) {
    && PoppedFrom(m, Entries(out)) && left == m - multiset(Entries(out))
    && forall i | 0 <= i < |out| :: out[i].ts <= now
  }

  lemma DrainOneMore(m: multiset<Entry>, out: seq<Event>, left: multiset<Entry>, now: real, event: Event)
    requires Drained(m, out, left, now) && IsLeast(Ranked(event), left) && event.ts <= now
    ensures Drained(m, out + [event], left - multiset{Ranked(event)}, now)
  {
    PopOneMore(m, Entries(out), Ranked(event));
    WithoutLast(m, Entries(out), Ranked(event));
    assert Entries(out + [event]) == Entries(out) + [Ranked(event)];
  }

  /** If all that came out is due and all that is left is not, then what came out is what is due. */
  lemma DrainIsComplete(m: multiset<Entry>, out: seq<Event>, left: multiset<Entry>, now: real)
    requires Drained(m, out, left, now) && forall e | e in left :: e.event.ts > now
    ensures forall e | e in m :: e in Entries(out) <==> e.event.ts <= now
    ensures forall i, j | 0 <= i < j < |out| :: Ordered(Ranked(out[i]), Ranked(out[j]))
  {
    forall i, j | 0 <= i < j < |out|
      ensures Ordered(Ranked(out[i]), Ranked(out[j]))
    {
      DrainIsSorted(m, Entries(out), i, j);
    }
    forall e | e in m && e !in Entries(out)
      ensures e in left
    {
      assert multiset(Entries(out))[e] == 0;
    }
  }

  /** Popping until nothing is due gives everything due, in order, and leaves everything later. */
  method PopAllReady(queue: EventQueue, now: real) returns (out: seq<Event>)
    requires queue.Valid()
    modifies queue`heap
    ensures queue.Valid() && queue.Contents() == old(queue.Contents()) - multiset(Entries(out))
    ensures PoppedFrom(old(queue.Contents()), Entries(out))
    ensures forall i, j | 0 <= i < j < |out| :: Ordered(Ranked(out[i]), Ranked(out[j]))
    ensures forall e | e in old(queue.Contents()) :: e in Entries(out) <==> e.event.ts <= now
  {
    ghost var before := queue.Contents();
    out := [];
    while true
      invariant queue.Valid() && Drained(before, out, queue.Contents(), now)
      decreases |queue.heap|
    {
      ghost var left := queue.Contents();
      var popped := queue.PopReady(now);
      if popped.None? { break; }
      DrainOneMore(before, out, left, now, popped.value);
      out := out + [popped.value];
    }
    DrainIsComplete(before, out, queue.Contents(), now);
  }
}
