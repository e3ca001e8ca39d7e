/** Merging patches into a database, and patches that undo a merge. */
module Backups {
  import opened ByteStrings
  import opened Changes

  function MergedStore(s: Store, l: Layer): Store {
    map a | a in s.Keys + l.Keys :: Overlaid(Entries(s, a), ChangesAt(l, a))
  }

  lemma MergedEntries(s: Store, l: Layer, a: Address)
    ensures Entries(MergedStore(s, l), a) == Overlaid(Entries(s, a), ChangesAt(l, a))
  {
    NoChangesOverlaid(Entries(s, a));
  }

  /** A database into which a patch is merged shows what the patch showed. */
  lemma MergeMakesPatch(p: Patch, a: Address)
    ensures Entries(MergedStore(p.snapshot, p.changes), a) == p.At(a)
  {
    MergedEntries(p.snapshot, p.changes, a);
  }

  /** The same entries in every index. */
  ghost predicate Same(s: Store, s': Store) { forall a :: Entries(s, a) == Entries(s', a) }

  /** What restores the entries `m` of an index after the changes `c`: all that they change or that clearing removes. */
  function BackupChange(m: Index, c: ViewChanges): ViewChanges {
    ViewChanges(map k | k in c.data.Keys + (if c.cleared then m.Keys else {}) :: if k in m then Put(m[k]) else Delete,
                false, c.namespace)
  }

  function BackupOf(s: Store, l: Layer): Layer { map a | a in l :: BackupChange(Entries(s, a), l[a]) }

  lemma BackupUndoesChange(m: Index, c: ViewChanges)
    ensures Overlaid(Overlaid(m, c), BackupChange(m, c)) == m
  {
    var back := Overlaid(Overlaid(m, c), BackupChange(m, c));
    forall k ensures k in back <==> k in m {
    }
  }

  /** The reverse change touches only what was changed or cleared, and clears nothing itself. */
  lemma BackupTouches(m: Index, c: ViewChanges, k: Bytes)
    ensures !BackupChange(m, c).cleared
    ensures k in BackupChange(m, c).data <==> k in c.data || (c.cleared && k in m)
  {
  }

  /** Merging the backup of a merge restores every index, also when a store with the same entries is used. */
  lemma BackupRestores(s: Store, l: Layer, merged: Store)
    requires Same(merged, MergedStore(s, l))
    ensures Same(MergedStore(merged, BackupOf(s, l)), s)
  {
    forall a ensures Entries(MergedStore(merged, BackupOf(s, l)), a) == Entries(s, a) {
      var m := Entries(s, a);
      MergedEntries(merged, BackupOf(s, l), a);
      MergedEntries(s, l, a);
      if a in l {
        BackupUndoesChange(m, l[a]);
      } else {
        NoChangesOverlaid(m);
      }
    }
  }

  // ---- Stacks of merges

  function After(s: Store, merges: seq<Layer>): Store {
    if merges == [] then s else MergedStore(After(s, merges[..|merges| - 1]), merges[|merges| - 1])
  }

  /** The store once the merges were made and the backups of all but the first `i` of them applied, the latest first. */
  function Undone(s: Store, merges: seq<Layer>, i: nat): Store
    requires i <= |merges|
    decreases |merges| - i
  {
    if i == |merges| then After(s, merges)
    else MergedStore(Undone(s, merges, i + 1), BackupOf(After(s, merges[..i]), merges[i]))
  }

  /** Applying the backups of a stack of merges in reverse order restores each earlier state. */
  lemma {:induction false} BackupsRestoreInReverse(s: Store, merges: seq<Layer>, i: nat)
    requires i <= |merges|
    ensures Same(Undone(s, merges, i), After(s, merges[..i]))
    decreases |merges| - i
  {
    if i == |merges| {
      assert merges[..i] == merges;
    } else {
      BackupsRestoreInReverse(s, merges, i + 1);
      assert merges[..i + 1][..i] == merges[..i];
      BackupRestores(After(s, merges[..i]), merges[i], Undone(s, merges, i + 1));
    }
  }

  lemma StartMerge(m: Index, c: ViewChanges)
    ensures Overlaid(m, c.(data := map[])) == if c.cleared then map[] else m
  {
  }

  lemma MergeOne(m: Index, c: ViewChanges, k: Bytes, change: Change)
    ensures Overlaid(m, c.(data := c.data[k := change])) ==
      match change {
        case Put(v) => Overlaid(m, c)[k := v]
        case Delete => Overlaid(m, c) - {k}
      }
  {
  }

  class Database {
    var store: Store

    constructor ()
      ensures store == map[]
    {
      store := map[];
    }

    /** Makes the changes of a patch, index by index. */
    method Merge(patch: Patch)
      modifies this
      ensures store == MergedStore(old(store), patch.changes)
    {
      var rest := patch.changes.Keys;
      while rest != {}
        invariant rest <= patch.changes.Keys
        invariant store.Keys == old(store).Keys + (patch.changes.Keys - rest)
        invariant forall a :: a in store ==>
          store[a] == if a in patch.changes && a !in rest then Overlaid(Entries(old(store), a), patch.changes[a])
                      else old(store)[a]
        decreases rest
      {
        var a :| a in rest;
        var collection := MergeView(Entries(store, a), patch.changes[a]);
        store := store[a := collection];
        rest := rest - {a};
      }
      forall a | a in store && a !in patch.changes ensures store[a] == Overlaid(old(store)[a], NO_CHANGES) {
        NoChangesOverlaid(store[a]);
      }
    }

    static method MergeView(m: Index, changes: ViewChanges) returns (collection: Index)
      ensures collection == Overlaid(m, changes)
    {
      hide Overlaid;
      collection := if changes.cleared then map[] else m;
      StartMerge(m, changes);
      ghost var done: map<Bytes, Change> := map[];
      var rest := changes.data.Keys;
      while rest != {}
        invariant rest <= changes.data.Keys && done.Keys == changes.data.Keys - rest
        invariant forall k :: k in done ==> done[k] == changes.data[k]
        invariant collection == Overlaid(m, changes.(data := done))
        decreases rest
      {
        var k :| k in rest;
        MergeOne(m, changes.(data := done), k, changes.data[k]);
        done := done[k := changes.data[k]];
        match changes.data[k] {
          case Put(value) => collection := collection[k := value];
          case Delete => collection := collection - {k};
        }
        rest := rest - {k};
      }
      assert done == changes.data;
    }

    /** Merges a patch and returns one that reverses it. */
    method MergeWithBackup(patch: Patch) returns (backup: Patch)
      modifies this
      ensures store == MergedStore(old(store), patch.changes)
      ensures backup == Patch(store, BackupOf(old(store), patch.changes), patch.aggregated)
      ensures Same(MergedStore(store, backup.changes), old(store))
    {
      hide Overlaid, MergedStore, BackupChange;
      var snapshot := store;
      var revChanges: Layer := map[];
      var rest := patch.changes.Keys;
      while rest != {}
        invariant store == snapshot
        invariant rest <= patch.changes.Keys && revChanges.Keys == patch.changes.Keys - rest
        invariant forall a :: a in revChanges ==> revChanges[a] == BackupChange(Entries(snapshot, a), patch.changes[a])
        decreases rest
      {
        var a :| a in rest;
        var changes := BackupView(Entries(snapshot, a), patch.changes[a]);
        revChanges := revChanges[a := changes];
        rest := rest - {a};
      }
      assert revChanges == BackupOf(snapshot, patch.changes);
      Merge(patch);
      BackupRestores(snapshot, patch.changes, store);
      return Patch(store, revChanges, patch.aggregated);
    }

    static method BackupView(m: Index, changes: ViewChanges) returns (backup: ViewChanges)
      ensures backup == BackupChange(m, changes)
    {
      var data := changes.data;
      var rest := data.Keys;
      while rest != {}
        invariant rest <= data.Keys == changes.data.Keys
        invariant forall k :: k in data && k !in rest ==> data[k] == if k in m then Put(m[k]) else Delete
        decreases rest
      {
        var k :| k in rest;
        data := data[k := match Lookup(m, k) { case Some(v) => Put(v) case None => Delete }];
        rest := rest - {k};
      }
      if changes.cleared {
        rest := m.Keys;
        while rest != {}
          invariant rest <= m.Keys && data.Keys == changes.data.Keys + (m.Keys - rest)
          invariant forall k :: k in data ==> data[k] == if k in m then Put(m[k]) else Delete
          decreases rest
        {
          var k :| k in rest;
          data := data[k := Put(m[k])];
          rest := rest - {k};
        }
      }
      return ViewChanges(data, false, changes.namespace);
    }
  }
}
