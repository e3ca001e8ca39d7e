/** Iteration over an index in key order while its changes are still kept apart from its entries. */
module Iteration {
  import opened Options
  import opened ByteStrings
  import opened Changes
  import opened Forks

  ghost predicate Ascending<V>(s: seq<(Bytes, V)>) {
    forall i, j :: 0 <= i < j < |s| ==> Below(s[i].0, s[j].0)
  }

  function AsMap<V>(s: seq<(Bytes, V)>): map<Bytes, V> {
    if s == [] then map[] else AsMap(s[1..])[s[0].0 := s[0].1]
  }

  lemma {:induction false} KeyInStream<V>(s: seq<(Bytes, V)>, k: Bytes) returns (i: nat)
    requires k in AsMap(s)
    ensures i < |s| && s[i].0 == k
  {
    if k == s[0].0 {
      i := 0;
    } else {
      var j := KeyInStream(s[1..], k);
      i := j + 1;
    }
  }

  /** The first of a stream is followed by greater keys only. */
  lemma HeadIsLeast<V>(s: seq<(Bytes, V)>)
    requires Ascending(s) && s != []
    ensures Ascending(s[1..])
    ensures AsMap(s) == AsMap(s[1..])[s[0].0 := s[0].1]
    ensures forall k :: k in AsMap(s[1..]) ==> Below(s[0].0, k)
  {
    forall k | k in AsMap(s[1..]) ensures Below(s[0].0, k) {
      var i := KeyInStream(s[1..], k);
      assert s[i + 1].0 == k;
    }
  }

  // ---- What is left to be yielded

  function Rest(snapshot: seq<(Bytes, Bytes)>, changes: seq<(Bytes, Change)>): Index {
    Overlaid(AsMap(snapshot), ViewChanges(AsMap(changes), false, None))
  }

  /** `e` is the first of the entries `m`, and `m'` are the others. */
  ghost predicate Yields(m: Index, e: (Bytes, Bytes), m': Index) {
    && e.0 in m && m[e.0] == e.1
    && (forall k :: k in m && k != e.0 ==> Below(e.0, k))
    && m' == m - {e.0}
  }

  lemma YieldsOne(m: Index, e: (Bytes, Bytes), m1: Index, e': (Bytes, Bytes), m2: Index)
    requires Yields(m, e, m1) && Yields(m, e', m2)
    ensures e == e' && m1 == m2
  {
    BelowIsOrder();
  }

  datatype NextIterValue = Stored | Replaced | Inserted | Deleted | MissDeleted | Finished

  function StepValue(snapshot: seq<(Bytes, Bytes)>, changes: seq<(Bytes, Change)>): NextIterValue {
    if changes != [] then
      var (k, change) := changes[0];
      if snapshot != [] then
        var key := snapshot[0].0;
        match change {
          case Put(_) => if k == key then Replaced else if Below(k, key) then Inserted else Stored
          case Delete => if k == key then Deleted else if Below(k, key) then MissDeleted else Stored
        }
      else
        match change {
          case Put(_) => Inserted
          case Delete => MissDeleted
        }
    else
      if snapshot != [] then Stored else Finished
  }

  lemma StoredComesFirst(s: seq<(Bytes, Bytes)>, c: seq<(Bytes, Change)>)
    requires Ascending(s) && Ascending(c) && s != [] && (c == [] || Below(s[0].0, c[0].0))
    ensures Yields(Rest(s, c), s[0], Rest(s[1..], c))
  {
    hide AsMap, Below;
    BelowIsOrder();
    EmptyStreams();
    HeadIsLeast(s);
    if c != [] {
      HeadIsLeast(c);
    }
    assert s[0].0 !in AsMap(c);
  }

  lemma ChangeComesFirst(s: seq<(Bytes, Bytes)>, c: seq<(Bytes, Change)>)
    requires Ascending(s) && Ascending(c) && c != [] && (s == [] || Below(c[0].0, s[0].0))
    ensures match c[0].1
      case Put(v) => Yields(Rest(s, c), (c[0].0, v), Rest(s, c[1..]))
      case Delete => Rest(s, c) == Rest(s, c[1..])
  {
    hide AsMap, Below;
    BelowIsOrder();
    EmptyStreams();
    HeadIsLeast(c);
    if s != [] {
      HeadIsLeast(s);
    }
    assert c[0].0 !in AsMap(s);
  }

  lemma BothComeFirst(s: seq<(Bytes, Bytes)>, c: seq<(Bytes, Change)>)
    requires Ascending(s) && Ascending(c) && s != [] && c != [] && s[0].0 == c[0].0
    ensures match c[0].1
      case Put(v) => Yields(Rest(s, c), (c[0].0, v), Rest(s[1..], c[1..]))
      case Delete => Rest(s, c) == Rest(s[1..], c[1..])
  {
    hide AsMap, Below;
    BelowIsOrder();
    HeadIsLeast(s);
    HeadIsLeast(c);
  }

  /** What the next step does to what is left. */
  lemma StepIsRight(s: seq<(Bytes, Bytes)>, c: seq<(Bytes, Change)>)
    requires Ascending(s) && Ascending(c)
    ensures match StepValue(s, c)
      case Stored => s != [] && Yields(Rest(s, c), s[0], Rest(s[1..], c))
      case Replaced =>
        && s != [] && c != [] && c[0].1.Put?
        && Yields(Rest(s, c), (c[0].0, c[0].1.value), Rest(s[1..], c[1..]))
      case Inserted => c != [] && c[0].1.Put? && Yields(Rest(s, c), (c[0].0, c[0].1.value), Rest(s, c[1..]))
      case Deleted => s != [] && c != [] && Rest(s, c) == Rest(s[1..], c[1..])
      case MissDeleted => c != [] && Rest(s, c) == Rest(s, c[1..])
      case Finished => Rest(s, c) == map[]
  {
    hide Rest, Yields;
    if c == [] && s == [] {
      NothingLeft();
    } else if c == [] || (s != [] && s[0].0 != c[0].0 && !Below(c[0].0, s[0].0)) {
      if c != [] {
        BelowIsTotal(s[0].0, c[0].0);
      }
      StoredComesFirst(s, c);
    } else if s == [] || s[0].0 != c[0].0 {
      ChangeComesFirst(s, c);
    } else {
      BothComeFirst(s, c);
    }
  }

  lemma NothingLeft()
    ensures Rest([], []) == map[]
  {
  }

  lemma EmptyStreams()
    ensures AsMap<Bytes>([]) == map[] && AsMap<Change>([]) == map[]
  {
  }

  // ---- The iterators

  /** Merges the entries of a snapshot with changes to them. */
  class ForkIter {
    var snapshot: seq<(Bytes, Bytes)>
    var changes: Option<seq<(Bytes, Change)>>

    ghost function Changes(): seq<(Bytes, Change)>
      reads this
    {
      if changes.Some? then changes.value else []
    }

    ghost predicate Valid()
      reads this
    {
      Ascending(snapshot) && Ascending(Changes())
    }

    ghost function Left(): Index
      reads this
    {
      Rest(snapshot, Changes())
    }

    constructor (snapshot: seq<(Bytes, Bytes)>, changes: Option<seq<(Bytes, Change)>>)
      requires Ascending(snapshot) && (changes.Some? ==> Ascending(changes.value))
      ensures Valid() && Left() == Rest(snapshot, if changes.Some? then changes.value else [])
    {
      this.snapshot, this.changes := snapshot, changes;
    }

    method Step() returns (v: NextIterValue)
      ensures v == StepValue(snapshot, Changes())
    {
      if changes.Some? {
        v := StepValue(snapshot, changes.value);
      } else {
        v := if snapshot != [] then Stored else Finished;
      }
    }

    method SkipSnapshot()
      requires Valid() && snapshot != []
      modifies this`snapshot
      ensures Valid() && snapshot == old(snapshot)[1..]
    {
      snapshot := snapshot[1..];
    }

    method SkipChange()
      requires Valid() && Changes() != []
      modifies this`changes
      ensures Valid() && Changes() == old(Changes())[1..]
    {
      changes := Some(changes.value[1..]);
    }

    /** Yields the first of the entries left, skipping deleted ones. */
    method Next() returns (e: Option<(Bytes, Bytes)>)
      requires Valid()
      modifies this
      ensures Valid()
      ensures e.None? ==> old(Left()) == map[] && Left() == map[]
      ensures e.Some? ==> Yields(old(Left()), e.value, Left())
    {
      hide Ascending, Rest, Yields, StepValue;
      while true
        invariant Valid() && Left() == old(Left())
        decreases |Changes()|
      {
        StepIsRight(snapshot, Changes());
        var step := Step();
        match step {
          case Stored =>
            e := Some(snapshot[0]);
            SkipSnapshot();
            return;
          case Replaced =>
            SkipSnapshot();
            e := Some((changes.value[0].0, changes.value[0].1.value));
            SkipChange();
            return;
          case Inserted =>
            e := Some((changes.value[0].0, changes.value[0].1.value));
            SkipChange();
            return;
          case Deleted =>
            SkipChange();
            SkipSnapshot();
          case MissDeleted =>
            SkipChange();
          case Finished =>
            return None;
        }
      }
    }

    /** Shows the first of the entries left without taking it; deleted ones before it are skipped. */
    method Peek() returns (e: Option<(Bytes, Bytes)>)
      requires Valid()
      modifies this
      ensures Valid() && Left() == old(Left())
      ensures e.None? ==> Left() == map[]
      ensures e.Some? ==> Yields(Left(), e.value, Left() - {e.value.0})
    {
      hide Ascending, Rest, StepValue;
      while true
        invariant Valid() && Left() == old(Left())
        decreases |Changes()|
      {
        StepIsRight(snapshot, Changes());
        var step := Step();
        match step {
          case Stored =>
            return Some(snapshot[0]);
          case Replaced =>
            return Some((changes.value[0].0, changes.value[0].1.value));
          case Inserted =>
            return Some((changes.value[0].0, changes.value[0].1.value));
          case Deleted =>
            SkipChange();
            SkipSnapshot();
          case MissDeleted =>
            SkipChange();
          case Finished =>
            return None;
        }
      }
    }
  }

  /** Iterates over the changes of an index that was cleared. */
  class ChangesIter {
    var inner: seq<(Bytes, Change)>

    ghost predicate Valid()
      reads this
    {
      Ascending(inner)
    }

    ghost function Left(): Index
      reads this
    {
      Rest([], inner)
    }

    constructor (changes: seq<(Bytes, Change)>)
      requires Ascending(changes)
      ensures Valid() && Left() == Rest([], changes)
    {
      inner := changes;
    }

    method Next() returns (e: Option<(Bytes, Bytes)>)
      requires Valid()
      modifies this
      ensures Valid()
      ensures e.None? ==> old(Left()) == map[] && Left() == map[]
      ensures e.Some? ==> Yields(old(Left()), e.value, Left())
    {
      hide Rest, Yields;
      while true
        invariant Valid() && Left() == old(Left())
        decreases |inner|
      {
        StepIsRight([], inner);
        if inner == [] {
          return None;
        }
        var (key, change) := inner[0];
        inner := inner[1..];
        match change {
          case Put(value) =>
            return Some((key, value));
          case Delete =>
        }
      }
    }

    method Peek() returns (e: Option<(Bytes, Bytes)>)
      requires Valid()
      modifies this
      ensures Valid() && Left() == old(Left())
      ensures e.None? ==> Left() == map[]
      ensures e.Some? ==> Yields(Left(), e.value, Left() - {e.value.0})
    {
      hide Rest;
      while true
        invariant Valid() && Left() == old(Left())
        decreases |inner|
      {
        StepIsRight([], inner);
        if inner == [] {
          return None;
        }
        match inner[0].1 {
          case Put(value) =>
            return Some((inner[0].0, value));
          case Delete =>
            inner := inner[1..];
        }
      }
    }
  }

  // ---- Whole iterations

  /** The entries from a key on. */
  function FromKey<V>(m: map<Bytes, V>, from: Bytes): map<Bytes, V> {
    map k | k in m && !Below(k, from) :: m[k]
  }

  /** `from` itself and the keys after it; from the empty key on, all. */
  lemma FromKeyIs<V>(m: map<Bytes, V>, from: Bytes)
    ensures forall k :: k in FromKey(m, from) <==> k in m && (k == from || Below(from, k))
    ensures forall k :: k in FromKey(m, from) ==> FromKey(m, from)[k] == m[k]
    ensures from == [] ==> FromKey(m, from) == m
  {
    hide Below;
    BelowIsOrder();
    if from == [] {
      NothingBelowEmpty();
    }
  }

  lemma NothingBelowEmpty()
    ensures forall k :: !Below(k, [])
  {
  }

  /** An ascending stream has exactly the entries of its map. */
  lemma {:induction false} StreamIsMap<V>(s: seq<(Bytes, V)>, e: (Bytes, V))
    requires Ascending(s)
    ensures e in s <==> e.0 in AsMap(s) && AsMap(s)[e.0] == e.1
  {
    if s != [] {
      HeadIsLeast(s);
      StreamIsMap(s[1..], e);
      BelowIsOrder();
      assert s == [s[0]] + s[1..];
    }
  }

  lemma {:induction false} AsMapAppend<V>(s: seq<(Bytes, V)>, e: (Bytes, V))
    ensures AsMap(s + [e]).Keys == AsMap(s).Keys + {e.0}
    ensures e.0 !in AsMap(s) ==> AsMap(s + [e]) == AsMap(s)[e.0 := e.1]
  {
    if s == [] {
    } else {
      AsMapAppend(s[1..], e);
      assert (s + [e])[1..] == s[1..] + [e];
    }
  }

  /** Appending an entry after all others. */
  lemma AppendAscending<V>(s: seq<(Bytes, V)>, e: (Bytes, V))
    requires Ascending(s) && forall k :: k in AsMap(s) ==> Below(k, e.0)
    ensures Ascending(s + [e]) && AsMap(s + [e]) == AsMap(s)[e.0 := e.1]
  {
    BelowIsOrder();
    AsMapAppend(s, e);
    forall i | 0 <= i < |s| ensures s[i].0 in AsMap(s) {
      EntryInMap(s, i);
    }
  }

  lemma {:induction false} EntryInMap<V>(s: seq<(Bytes, V)>, i: nat)
    requires i < |s|
    ensures s[i].0 in AsMap(s)
  {
    if i > 0 {
      EntryInMap(s[1..], i - 1);
    }
  }

  /** Either iterator. */
  datatype BytesIter = Merging(merging: ForkIter) | ChangesOnly(changes: ChangesIter) {

    function Object(): object {
      match this
      case Merging(it) => it
      case ChangesOnly(it) => it
    }

    ghost predicate Valid()
      reads Object()
    {
      match this
      case Merging(it) => it.Valid()
      case ChangesOnly(it) => it.Valid()
    }

    ghost function Left(): Index
      reads Object()
    {
      match this
      case Merging(it) => it.Left()
      case ChangesOnly(it) => it.Left()
    }

    method Next() returns (e: Option<(Bytes, Bytes)>)
      requires Valid()
      modifies Object()
      ensures Valid()
      ensures e.None? ==> old(Left()) == map[] && Left() == map[]
      ensures e.Some? ==> Yields(old(Left()), e.value, Left())
    {
      match this
      case Merging(it) => e := it.Next();
      case ChangesOnly(it) => e := it.Next();
    }
  }

  /** Repeated `Next` yields exactly the entries left, in ascending order. */
  method Drain(it: BytesIter) returns (out: seq<(Bytes, Bytes)>)
    requires it.Valid()
    modifies it.Object()
    ensures Ascending(out) && AsMap(out) == old(it.Left())
    ensures forall e :: e in out <==> e.0 in old(it.Left()) && old(it.Left())[e.0] == e.1
  {
    hide Rest, Ascending, AsMap, Below;
    out := [];
    EmptyStreams();
    NothingYet();
    ghost var all := it.Left();
    var e := it.Next();
    ghost var left := all;
    while e.Some?
      invariant it.Valid() && Ascending(out)
      invariant Split(all, AsMap(out), left)
      invariant e.None? ==> left == map[]
      invariant e.Some? ==> Yields(left, e.value, it.Left())
      decreases |left|
    {
      SplitMore(all, out, left, e.value, it.Left());
      out := out + [e.value];
      left := it.Left();
      e := it.Next();
    }
    forall x ensures x in out <==> x.0 in AsMap(out) && AsMap(out)[x.0] == x.1 {
      StreamIsMap(out, x);
    }
  }

  /** `m` is made up of entries already yielded and later ones left. */
  ghost predicate Split(m: Index, done: Index, left: Index) {
    && m == done + left
    && forall k, k' :: k in done && k' in left ==> Below(k, k')
  }

  lemma NothingYet()
    ensures Ascending<Bytes>([]) && forall m :: Split(m, map[], m)
  {
    forall m: Index ensures Split(m, map[], m) {
      assert map[] + m == m;
    }
  }

  lemma SplitMore(m: Index, out: seq<(Bytes, Bytes)>, left: Index, e: (Bytes, Bytes), left': Index)
    requires Ascending(out) && Split(m, AsMap(out), left) && Yields(left, e, left')
    ensures Ascending(out + [e]) && Split(m, AsMap(out + [e]), left') && |left'| < |left|
  {
    hide AsMap, Ascending, Below;
    AppendAscending(out, e);
    SplitOff(m, AsMap(out), left, e, left');
    assert left.Keys == left'.Keys + {e.0};
    assert |left'| == |left'.Keys| && |left| == |left.Keys|;
  }

  lemma SplitOff(m: Index, done: Index, left: Index, e: (Bytes, Bytes), left': Index)
    requires Split(m, done, left) && Yields(left, e, left')
    ensures Split(m, done[e.0 := e.1], left')
  {
    hide Below;
    BelowIsOrder();
    assert done[e.0 := e.1] + left' == done + left;
  }

  // ---- Iterators over patches and forks

  /** The entries of an ordered map from a key on, in order. */
  method Range<V>(m: map<Bytes, V>, from: Bytes) returns (s: seq<(Bytes, V)>)
    ensures Ascending(s) && AsMap(s) == FromKey(m, from)
  {
    hide Ascending, AsMap, Below;
    s := [];
    var rest := set k | k in m && !Below(k, from);
    ghost var all := rest;
    StartRange<V>();
    while rest != {}
      invariant rest <= all && Ascending(s)
      invariant AsMap(s).Keys == all - rest
      invariant forall k :: k in AsMap(s) ==> AsMap(s)[k] == m[k]
      invariant forall k, k' :: k in AsMap(s) && k' in rest ==> Below(k, k')
      decreases rest
    {
      var k := Least(rest);
      AppendAscending(s, (k, m[k]));
      s := s + [(k, m[k])];
      rest := rest - {k};
    }
    assert AsMap(s) == FromKey(m, from);
  }

  lemma StartRange<V>()
    ensures Ascending<V>([]) && AsMap<V>([]) == map[]
  {
  }

  method Least(keys: set<Bytes>) returns (least: Bytes)
    requires keys != {}
    ensures least in keys && forall k :: k in keys && k != least ==> Below(least, k)
  {
    hide Below;
    BelowIsOrder();
    least :| least in keys;
    var rest := keys - {least};
    while rest != {}
      invariant least in keys && rest <= keys
      invariant forall k :: k in keys - rest && k != least ==> Below(least, k)
      decreases rest
    {
      var k :| k in rest;
      if Below(k, least) {
        least := k;
      }
      rest := rest - {k};
    }
  }

  lemma FromKeyOverlaid(m: Index, c: ViewChanges, from: Bytes)
    ensures Overlaid(if c.cleared then map[] else FromKey(m, from), ViewChanges(FromKey(c.data, from), false, None))
         == FromKey(Overlaid(m, c), from)
  {
    hide Below;
  }

  /** The iterator over changes on top of a stream of entries. */
  method Over(entries: seq<(Bytes, Bytes)>, changes: Option<ViewChanges>, ghost m: Index, from: Bytes)
    returns (it: BytesIter)
    requires Ascending(entries) && AsMap(entries) == FromKey(m, from)
    ensures it.Valid() && fresh(it.Object())
    ensures it.Left() == FromKey(Overlaid(m, if changes.Some? then changes.value else NO_CHANGES), from)
  {
    hide Ascending, AsMap, Overlaid, FromKey;
    ghost var c := if changes.Some? then changes.value else NO_CHANGES;
    FromKeyOverlaid(m, c, from);
    EmptyStreams();
    var stream := None;
    if changes.Some? {
      var range := Range(changes.value.data, from);
      stream := Some(range);
      if changes.value.cleared {
        var over := new ChangesIter(range);
        return ChangesOnly(over);
      }
    } else {
      NothingFrom(from);
    }
    var merged := new ForkIter(entries, stream);
    return Merging(merged);
  }

  lemma NothingFrom(from: Bytes)
    ensures FromKey<Change>(map[], from) == map[] && Ascending<Change>([])
  {
  }

  /** Iterates over an index of a patch from a key on. */
  method IterPatch(p: Patch, a: Address, from: Bytes) returns (it: BytesIter)
    ensures it.Valid() && fresh(it.Object()) && it.Left() == FromKey(p.At(a), from)
    ensures forall k :: k in it.Left() <==> k in p.At(a) && (k == from || Below(from, k))
    ensures from == [] ==> it.Left() == p.At(a)
  {
    hide Below, Overlaid, FromKey, Ascending, AsMap;
    FromKeyIs(p.At(a), from);
    var entries := Range(Entries(p.snapshot, a), from);
    it := Over(entries, if a in p.changes then Some(p.changes[a]) else None, Entries(p.snapshot, a), from);
  }

  /** Iterates over a borrowed index of a fork from a key on. */
  method IterFork(f: Fork, a: Address, b: nat, from: Bytes) returns (it: BytesIter)
    requires f.Valid() && Live(f.cells, a, b)
    ensures it.Valid() && fresh(it.Object()) && it.Left() == FromKey(f.Model().now[a], from)
    ensures forall k :: k in it.Left() <==> k in f.Model().now[a] && (k == from || Below(from, k))
    ensures from == [] ==> it.Left() == f.Model().now[a]
  {
    hide PlainOf, CellsOk, Overlaid, FromKey, Ascending, AsMap, Below;
    FromKeyIs(f.Model().now[a], from);
    BorrowShows(f.patch, f.cells, f.written, a, b);
    var under := IterPatch(f.patch, a, from);
    var entries := Drain(under);
    it := Over(entries, Some(f.cells[a].borrows[b].changes), f.patch.At(a), from);
  }
}
