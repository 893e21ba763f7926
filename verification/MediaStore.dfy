/** The image store: payloads in order of their last use, bounded by their bytes. */
module MediaStores {
  import opened Common

  const REF_ATTEMPTS := 16

  /** `media:` and an id of the factory. */
  datatype Ref = Media(id: string)

  datatype Entry = Entry(ref: Ref, mediaType: string, width: int, height: int, capturedAt: int, payload: seq<int>)

  datatype PutResult = Stored(entry: Entry) | EmptyPayload | PayloadTooLarge | BadSize | NoFreshRef

  function Total(entries: seq<Entry>): nat {
    if entries == [] then 0 else |entries[0].payload| + Total(entries[1..])
  }

  function Refs(entries: seq<Entry>): seq<Ref> {
    seq(|entries|, i requires 0 <= i < |entries| => entries[i].ref)
  }

  // ---------- What fits ----------

  /** What evicting the oldest until the rest fits into `room` leaves. */
  function Kept(entries: seq<Entry>, room: nat): seq<Entry> {
    if Total(entries) <= room then entries else Kept(entries[1..], room)
  }

  lemma {:induction false} TotalShrinks(entries: seq<Entry>, i: nat, j: nat)
    requires i <= j <= |entries|
    ensures Total(entries[j..]) <= Total(entries[i..])
    decreases j - i
  {
    if i < j {
      TotalShrinks(entries, i + 1, j);
      assert entries[i..][1..] == entries[i + 1..];
    }
  }

  /** Nothing is evicted that could have stayed: the newest entries fit exactly if they are among those kept. */
  lemma {:induction false} KeptIsLongest(entries: seq<Entry>, room: nat, i: nat)
    requires i <= |entries|
    ensures |Kept(entries, room)| <= |entries| && Kept(entries, room) == entries[|entries| - |Kept(entries, room)|..]
    ensures Total(entries[i..]) <= room <==> |entries| - |Kept(entries, room)| <= i
    decreases |entries|
  {
    if Total(entries) <= room {
      TotalShrinks(entries, 0, i);
    } else {
      KeptIsLongest(entries[1..], room, if i == 0 then 0 else i - 1);
      if i > 0 { assert entries[1..][i - 1..] == entries[i..]; }
    }
  }

  lemma {:induction false} TotalJoins(a: seq<Entry>, b: seq<Entry>)
    ensures Total(a + b) == Total(a) + Total(b)
  {
    if a == [] {
      assert a + b == b;
    } else {
      HeadFirst(a, b);
      TotalJoins(a[1..], b);
    }
  }

  // ---------- Order of use ----------

  function Without(refs: seq<Ref>, ref: Ref): seq<Ref> {
    if refs == [] then []
    else if refs[0] == ref then Without(refs[1..], ref)
    else [refs[0]] + Without(refs[1..], ref)
  }

  /** Every ref that was ever stored or read, once, in the order of its last use. */
  function Recent(uses: seq<Ref>): seq<Ref> {
    if uses == [] then [] else Without(Recent(uses[..|uses| - 1]), uses[|uses| - 1]) + [uses[|uses| - 1]]
  }

  lemma {:induction false} WithoutJoins(a: seq<Ref>, b: seq<Ref>, ref: Ref)
    ensures Without(a + b, ref) == Without(a, ref) + Without(b, ref)
  {
    if a == [] {
      assert a + b == b;
    } else {
      HeadFirst(a, b);
      WithoutJoins(a[1..], b, ref);
      Associates([a[0]], Without(a[1..], ref), Without(b, ref));
    }
  }

  lemma {:induction false} WithoutAbsent(refs: seq<Ref>, ref: Ref)
    requires ref !in refs
    ensures Without(refs, ref) == refs
  {
    if refs != [] {
      assert refs[0] != ref;
      WithoutAbsent(refs[1..], ref);
    }
  }

  lemma WithoutMiddle(a: seq<Ref>, ref: Ref, b: seq<Ref>)
    requires ref !in a && ref !in b
    ensures Without(a + ([ref] + b), ref) == a + b
  {
    WithoutJoins(a, [ref] + b, ref);
    WithoutAbsent(a, ref);
    WithoutAbsent(b, ref);
    assert Without([ref] + b, ref) == b by { assert ([ref] + b)[1..] == b; }
  }

  lemma RecentGrows(uses: seq<Ref>, ref: Ref)
    ensures Recent(uses + [ref]) == Without(Recent(uses), ref) + [ref]
  {
    assert (uses + [ref])[..|uses|] == uses;
  }

  ghost predicate Suffix(s: seq<Ref>, t: seq<Ref>) {
    |s| <= |t| && t[|t| - |s|..] == s
  }

  /** The entries are exactly the ones used last, however many of them there are. */
  ghost predicate MostRecent(entries: seq<Entry>, uses: seq<Ref>) {
    Suffix(Refs(entries), Recent(uses)) && DistinctRefs(entries)
  }

  lemma RefsJoin(a: seq<Entry>, b: seq<Entry>)
    ensures Refs(a + b) == Refs(a) + Refs(b)
  {
  }

  lemma EvictionKeepsRecent(entries: seq<Entry>, uses: seq<Ref>, minted: Ref)
    requires MostRecent(entries, uses) && entries != []
    ensures MostRecent(entries[1..], uses)
    ensures minted !in Refs(entries) ==> minted !in Refs(entries[1..])
  {
    assert Refs(entries[1..]) == Refs(entries)[1..];
  }

  lemma DistinctInsert(entries: seq<Entry>, e: Entry)
    requires DistinctRefs(entries) && e.ref !in Refs(entries)
    ensures DistinctRefs(entries + [e])
  {
    forall i | 0 <= i < |entries|
      ensures entries[i].ref != e.ref
    {
      assert Refs(entries)[i] == entries[i].ref;
    }
  }

  lemma InsertKeepsRecent(entries: seq<Entry>, uses: seq<Ref>, e: Entry)
    requires MostRecent(entries, uses) && e.ref !in Refs(entries)
    ensures MostRecent(entries + [e], uses + [e.ref])
  {
    var t, s := Recent(uses), Refs(entries);
    var a := t[..|t| - |s|];
    assert t == a + s;
    RecentGrows(uses, e.ref);
    WithoutJoins(a, s, e.ref);
    WithoutAbsent(s, e.ref);
    DistinctInsert(entries, e);
    RefsJoin(entries, [e]);
    assert Refs([e]) == [e.ref];
    Associates(Without(a, e.ref), s, [e.ref]);
  }

  function MovedBack(entries: seq<Entry>, i: nat): seq<Entry>
    requires i < |entries|
  {
    entries[..i] + entries[i + 1..] + [entries[i]]
  }

  lemma UseKeepsRecent(entries: seq<Entry>, uses: seq<Ref>, i: nat)
    requires MostRecent(entries, uses) && i < |entries|
    ensures MostRecent(MovedBack(entries, i), uses + [entries[i].ref])
  {
    var t, s, ref := Recent(uses), Refs(entries), entries[i].ref;
    var a := t[..|t| - |s|];
    assert t == a + s;
    RecentGrows(uses, ref);
    WithoutJoins(a, s, ref);
    UsedOnce(entries, i);
    assert s == s[..i] + ([ref] + s[i + 1..]);
    WithoutMiddle(s[..i], ref, s[i + 1..]);
    RefsMove(entries, i);
    Associates(Without(a, ref), s[..i] + s[i + 1..], [ref]);
    DistinctMove(entries, i);
  }

  ghost predicate DistinctRefs(entries: seq<Entry>) {
    forall i, j {:trigger entries[i].ref, entries[j].ref} | 0 <= i < j < |entries| :: entries[i].ref != entries[j].ref
  }

  lemma UsedOnce(entries: seq<Entry>, i: nat)
    requires DistinctRefs(entries) && i < |entries|
    ensures entries[i].ref !in Refs(entries)[..i] && entries[i].ref !in Refs(entries)[i + 1..]
  {
  }

  lemma RefsMove(entries: seq<Entry>, i: nat)
    requires i < |entries|
    ensures Refs(MovedBack(entries, i)) == Refs(entries)[..i] + Refs(entries)[i + 1..] + [entries[i].ref]
  {
  }

  lemma DistinctMove(entries: seq<Entry>, i: nat)
    requires DistinctRefs(entries) && i < |entries|
    ensures DistinctRefs(MovedBack(entries, i))
  {
    var m := MovedBack(entries, i);
    assert forall j | 0 <= j < |m| :: m[j] == entries[if j < i then j else if j < |m| - 1 then j + 1 else i];
  }

  lemma TotalRotates(a: seq<Entry>, e: seq<Entry>, b: seq<Entry>)
    ensures Total(a + (e + b)) == Total(a + b + e)
  {
    TotalJoins(a, e + b);
    TotalJoins(e, b);
    TotalJoins(a + b, e);
    TotalJoins(a, b);
  }

  lemma MoveKeepsTotal(entries: seq<Entry>, i: nat)
    requires i < |entries|
    ensures Total(MovedBack(entries, i)) == Total(entries)
  {
    SplitAt(entries, i);
    TotalRotates(entries[..i], [entries[i]], entries[i + 1..]);
  }

  lemma SplitAt(entries: seq<Entry>, i: nat)
    requires i < |entries|
    ensures entries == entries[..i] + ([entries[i]] + entries[i + 1..])
  {
  }

  // ---------- The store ----------

  function IndexOf(entries: seq<Entry>, ref: Ref): (i: nat)
    ensures i <= |entries| && (forall j | 0 <= j < i :: entries[j].ref != ref)
    ensures i < |entries| ==> entries[i].ref == ref
  {
    if entries == [] || entries[0].ref == ref then 0 else 1 + IndexOf(entries[1..], ref)
  }

  predicate Has(entries: seq<Entry>, ref: Ref) {
    IndexOf(entries, ref) < |entries|
  }

  lemma HasExactly(entries: seq<Entry>, ref: Ref)
    ensures Has(entries, ref) <==> ref in Refs(entries)
  {
    var i := IndexOf(entries, ref);
    if i < |entries| { assert Refs(entries)[i] == ref; }
  }

  /** The ids drawn from one number up to another name entries that are there. */
  ghost predicate AllTaken(entries: seq<Entry>, ids: nat -> string, first: nat, end: nat) {
    forall n: nat {:trigger ids(n)} | first <= n < end :: Has(entries, Media(ids(n)))
  }

  class MediaStore {
    const maxBytes: nat
    /** The insertion-ordered map of the entries. */
    var entries: seq<Entry>
    var totalBytes: int
    /** How many ids the factory has given so far. */
    var drawn: nat
    ghost var uses: seq<Ref>

    ghost predicate Valid()
      reads this
    {
      0 < maxBytes && totalBytes == Total(entries) <= maxBytes && MostRecent(entries, uses)
    }

    constructor (maxBytes: nat)
      requires maxBytes > 0
      ensures Valid() && this.maxBytes == maxBytes && entries == [] && uses == []
    {
      this.maxBytes := maxBytes;
      entries, totalBytes, drawn, uses := [], 0, 0, [];
    }

    /** At most sixteen ids are drawn; the first that is not taken is used. */
    method NewRef(ids: nat -> string) returns (ref: Option<Ref>)
      modifies this`drawn
      ensures old(drawn) < drawn <= old(drawn) + REF_ATTEMPTS
      ensures if ref.Some?
              then ref.value == Media(ids(drawn - 1)) && !Has(entries, ref.value)
                   && AllTaken(entries, ids, old(drawn), drawn - 1)
              else drawn == old(drawn) + REF_ATTEMPTS && AllTaken(entries, ids, old(drawn), drawn)
    {
      var attempt: nat := 0;
      while attempt < REF_ATTEMPTS
        invariant attempt <= REF_ATTEMPTS && drawn == old(drawn) + attempt
        invariant AllTaken(entries, ids, old(drawn), drawn)
      {
        var candidate := Media(ids(drawn));
        drawn := drawn + 1;
        if !Has(entries, candidate) { return Some(candidate); }
        attempt := attempt + 1;
      }
      return None;
    }

    /** Oldest first, until the new payload fits. */
    method Evict(size: nat, ghost minted: Ref)
      requires Valid() && size <= maxBytes && minted !in Refs(entries)
      modifies this`entries, this`totalBytes
      ensures Valid() && totalBytes + size <= maxBytes
      ensures entries == Kept(old(entries), maxBytes - size)
      ensures minted !in Refs(entries)
    {
      while |entries| > 0 && totalBytes + size > maxBytes
        invariant Valid() && Kept(entries, maxBytes - size) == Kept(old(entries), maxBytes - size)
        invariant minted !in Refs(entries)
        decreases |entries|
      {
        EvictionKeepsRecent(entries, uses, minted);
        totalBytes := totalBytes - |entries[0].payload|;
        entries := entries[1..];
      }
    }

    method Put(payload: seq<int>, mediaType: string, width: int, height: int, capturedAt: int, ids: nat -> string)
      returns (r: PutResult)
      requires Valid()
      modifies this`entries, this`totalBytes, this`drawn, this`uses
      ensures Valid()
      ensures r.EmptyPayload? <==> payload == []
      ensures r.PayloadTooLarge? <==> |payload| > maxBytes
      ensures r.BadSize? <==> 0 < |payload| <= maxBytes && (width <= 0 || height <= 0)
      ensures r.NoFreshRef? ==> AllTaken(old(entries), ids, old(drawn), old(drawn) + REF_ATTEMPTS)
      ensures !r.Stored? ==> entries == old(entries) && uses == old(uses)
      ensures r.Stored? ==>
        && r.entry == Entry(r.entry.ref, mediaType, width, height, capturedAt, payload)
        && !Has(old(entries), r.entry.ref) && old(drawn) < drawn <= old(drawn) + REF_ATTEMPTS
        && r.entry.ref == Media(ids(drawn - 1))
        && entries == Kept(old(entries), maxBytes - |payload|) + [r.entry]
        && uses == old(uses) + [r.entry.ref]
    {
      if |payload| == 0 { return EmptyPayload; }
      if |payload| > maxBytes { return PayloadTooLarge; }
      if width <= 0 || height <= 0 { return BadSize; }
      var ref := NewRef(ids);
      if ref.None? { return NoFreshRef; }
      var entry := Entry(ref.value, mediaType, width, height, capturedAt, payload);
      Store(entry);
      r := Stored(entry);
    }

    method Store(entry: Entry)
      requires Valid() && |entry.payload| <= maxBytes && !Has(entries, entry.ref)
      modifies this`entries, this`totalBytes, this`uses
      ensures Valid() && uses == old(uses) + [entry.ref]
      ensures entries == Kept(old(entries), maxBytes - |entry.payload|) + [entry]
    {
      HasExactly(entries, entry.ref);
      Evict(|entry.payload|, entry.ref);
      Append(entry);
    }

    method Append(entry: Entry)
      requires Valid() && totalBytes + |entry.payload| <= maxBytes && entry.ref !in Refs(entries)
      modifies this`entries, this`totalBytes, this`uses
      ensures Valid() && entries == old(entries) + [entry] && uses == old(uses) + [entry.ref]
    {
      InsertKeepsRecent(entries, uses, entry);
      TotalJoins(entries, [entry]);
      entries := entries + [entry];
      totalBytes := totalBytes + |entry.payload|;
      uses := uses + [entry.ref];
    }

    /** Reading an entry makes it the newest one and moves nothing else. */
    method Get(ref: Ref) returns (entry: Option<Entry>)
      requires Valid()
      modifies this`entries, this`uses
      ensures Valid()
      ensures entry.Some? <==> Has(old(entries), ref)
      ensures entry.None? ==> entries == old(entries) && uses == old(uses)
      ensures entry.Some? ==>
        var i := IndexOf(old(entries), ref);
        && entry.value == old(entries)[i] && entry.value.ref == ref
        && entries == MovedBack(old(entries), i) && uses == old(uses) + [ref]
    {
      var i := IndexOf(entries, ref);
      if i == |entries| { return None; }
      UseKeepsRecent(entries, uses, i);
      MoveKeepsTotal(entries, i);
      entry := Some(entries[i]);
      entries := entries[..i] + entries[i + 1..] + [entries[i]];
      uses := uses + [ref];
    }

    method Peek(ref: Ref) returns (entry: Option<Entry>)
      requires Valid()
      ensures entry.Some? <==> Has(entries, ref)
      ensures entry.Some? ==> entry.value in entries && entry.value.ref == ref
    {
      var i := IndexOf(entries, ref);
      if i == |entries| { return None; }
      return Some(entries[i]);
    }
  }

  /** A bound that is not positive makes no store. */
  method NewStore(maxBytes: int) returns (store: MediaStore?)
    ensures store == null <==> maxBytes <= 0
    ensures store != null ==> fresh(store) && store.Valid() && store.maxBytes == maxBytes && store.entries == []
  {
    if maxBytes <= 0 { return null; }
    store := new MediaStore(maxBytes);
  }
}
