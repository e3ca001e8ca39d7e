/** Changes to the entries of an index, kept apart from the entries themselves, and how layers of them compose. */
module Changes {
  import opened Options
  import opened ByteStrings

  /** An index, as resolved to a column family and an id within it. */
  datatype Address = Address(name: string, id: Option<nat>)

  type Index = map<Bytes, Bytes>

  /** The entries of all indexes; an index that is not listed is empty. */
  type Store = map<Address, Index>

  function Entries(s: Store, a: Address): Index { if a in s then s[a] else map[] }

  function Lookup(m: Index, k: Bytes): Option<Bytes> { if k in m then Some(m[k]) else None }

  /** A store has the entries that were stored in it, and an empty one has none. */
  lemma StoredEntries(s: Store, a: Address, m: Index, a': Address, k: Bytes)
    ensures Entries(s[a := m], a) == m && (a' != a ==> Entries(s[a := m], a') == Entries(s, a'))
    ensures Lookup(Entries(map[], a), k) == None
  {
  }

  datatype Change = Put(value: Bytes) | Delete

  /** What is to be done to an index: forget its entries, if `cleared`, and then make the changes in `data`. */
  datatype ViewChanges = ViewChanges(data: map<Bytes, Change>, cleared: bool, namespace: Option<string>) {

    /** What the changes alone say of a key; `None` if they leave it to the layer below. */
    function Get(k: Bytes): (r: Option<Option<Bytes>>)
      ensures forall m :: Lookup(Overlaid(m, this), k) == if r.Some? then r.value else Lookup(m, k)
    {
      if k in data then
        match data[k] {
          case Put(v) => Some(Some(v))
          case Delete => Some(None)
        }
      else if cleared then
        Some(None)
      else
        None
    }

    function Contains(k: Bytes): (r: Option<bool>)
      ensures forall m :: (k in Overlaid(m, this)) == if r.Some? then r.value else k in m
    {
      if k in data then
        match data[k] {
          case Put(_) => Some(true)
          case Delete => Some(false)
        }
      else if cleared then
        Some(false)
      else
        None
    }
  }

  const NO_CHANGES := ViewChanges(map[], false, None)

  /** The entries of an index once the changes are made. */
  function Overlaid(m: Index, c: ViewChanges): Index {
    var kept := if c.cleared then map[] else m;
    map k | k in kept.Keys + c.data.Keys && (if k in c.data then c.data[k].Put? else true) ::
      if k in c.data then c.data[k].value else kept[k]
  }

  type Layer = map<Address, ViewChanges>

  function ChangesAt(l: Layer, a: Address): ViewChanges { if a in l then l[a] else NO_CHANGES }

  /** Newer changes on top of older ones. */
  function Joined(older: ViewChanges, newer: ViewChanges): ViewChanges {
    if newer.cleared then newer else older.(data := older.data + newer.data)
  }

  /** Making the joined changes is making the older ones and then the newer ones. */
  lemma JoinedComposes(m: Index, older: ViewChanges, newer: ViewChanges)
    ensures Overlaid(m, Joined(older, newer)) == Overlaid(Overlaid(m, older), newer)
  {
    var both, twice := Overlaid(m, Joined(older, newer)), Overlaid(Overlaid(m, older), newer);
    forall k ensures k in both <==> k in twice {
    }
  }

  lemma NoChangesOverlaid(m: Index)
    ensures Overlaid(m, NO_CHANGES) == m
  {
  }

  // ---- Patches

  /** Changes on top of a snapshot of the database. */
  datatype Patch = Patch(snapshot: Store, changes: Layer, aggregated: map<Address, string>) {

    function At(a: Address): Index { Overlaid(Entries(snapshot, a), ChangesAt(changes, a)) }

    function Get(a: Address, k: Bytes): (r: Option<Bytes>)
      ensures r == Lookup(At(a), k)
    {
      var got := if a in changes then changes[a].Get(k) else None;
      if got.Some? then got.value else Lookup(Entries(snapshot, a), k)
    }

    function Contains(a: Address, k: Bytes): (r: bool)
      ensures r == (k in At(a))
    {
      var got := if a in changes then changes[a].Contains(k) else None;
      if got.Some? then got.value else k in Entries(snapshot, a)
    }
  }
}
