/**
 A fork of the database: uncommitted changes (the working patch) over flushed ones (the patch) over a snapshot, with
 indexes borrowed exclusively for writing or shared for reading, as checked at run time.
 */
module Forks {
  import opened Options
  import opened ByteStrings
  import opened Changes

  /** A live borrow of the changes of one index. */
  datatype Borrow = Exclusive(changes: ViewChanges) | Shared(changes: ViewChanges)

  /**
   The place of one index in the working patch: its changes, unless taken by an exclusive borrow; how many pointers
   there are to them, the cell's own included; and the live borrows.
   */
  datatype Cell = Cell(changes: Option<ViewChanges>, strong: nat, borrows: map<nat, Borrow>)

  const NEW_CELL := Cell(Some(NO_CHANGES), 1, map[])

  /** What a fork is to its user: the entries of every index, and those to which a rollback returns. */
  datatype Plain = Plain(now: imap<Address, Index>, saved: imap<Address, Index>)

  datatype Op =
    | PutOp(address: Address, key: Bytes, value: Bytes)
    | RemoveOp(address: Address, key: Bytes)
    | ClearOp(address: Address)
    | FlushOp
    | RollbackOp

  ghost predicate Total(m: imap<Address, Index>) { forall a :: a in m }

  ghost function Step(p: Plain, op: Op): (p': Plain)
    requires Total(p.now) && Total(p.saved)
    ensures Total(p'.now) && Total(p'.saved)
  {
    match op
    case PutOp(a, k, v) => p.(now := p.now[a := p.now[a][k := v]])
    case RemoveOp(a, k) => p.(now := p.now[a := p.now[a] - {k}])
    case ClearOp(a) => p.(now := p.now[a := map[]])
    case FlushOp => p.(saved := p.now)
    case RollbackOp => p.(now := p.saved)
  }

  ghost function Steps(p: Plain, ops: seq<Op>): (p': Plain)
    requires Total(p.now) && Total(p.saved)
    ensures Total(p'.now) && Total(p'.saved)
  {
    if ops == [] then p else Step(Steps(p, ops[..|ops| - 1]), ops[|ops| - 1])
  }

  // ---- What is read after any operations

  /** Only the entry of the key `k` of the index `a` may differ. */
  ghost predicate OnlyAt(p: Plain, p': Plain, a: Address, k: Bytes)
    requires Total(p.now) && Total(p'.now)
  {
    && p'.saved == p.saved
    && (forall a' :: a' != a ==> p'.now[a'] == p.now[a'])
    && (forall k' :: k' != k ==> Lookup(p'.now[a], k') == Lookup(p.now[a], k'))
  }

  /** Only the index `a` may differ. */
  ghost predicate OnlyIn(p: Plain, p': Plain, a: Address)
    requires Total(p.now) && Total(p'.now)
  {
    p'.saved == p.saved && forall a' :: a' != a ==> p'.now[a'] == p.now[a']
  }

  lemma PutReads(p: Plain, a: Address, k: Bytes, v: Bytes)
    requires Total(p.now) && Total(p.saved)
    ensures var p' := Step(p, PutOp(a, k, v)); Lookup(p'.now[a], k) == Some(v) && OnlyAt(p, p', a, k)
  {
  }

  lemma RemoveReads(p: Plain, a: Address, k: Bytes)
    requires Total(p.now) && Total(p.saved)
    ensures var p' := Step(p, RemoveOp(a, k)); Lookup(p'.now[a], k) == None && OnlyAt(p, p', a, k)
  {
  }

  lemma ClearReads(p: Plain, a: Address)
    requires Total(p.now) && Total(p.saved)
    ensures var p' := Step(p, ClearOp(a)); (forall k :: Lookup(p'.now[a], k) == None) && OnlyIn(p, p', a)
  {
  }

  lemma CheckpointReads(p: Plain)
    requires Total(p.now) && Total(p.saved)
    ensures Step(p, FlushOp).now == p.now && Step(p, FlushOp).saved == p.now
    ensures Step(p, RollbackOp).now == p.saved && Step(p, RollbackOp).saved == p.saved
  {
  }

  /** The operation writes the entry: it puts or removes it, or clears its index. */
  predicate Writes(op: Op, a: Address, k: Bytes) {
    op == RemoveOp(a, k) || op == ClearOp(a) || (op.PutOp? && op.address == a && op.key == k)
  }

  /** What a write leaves in the entry. */
  function Written(op: Op): Option<Bytes> { if op.PutOp? then Some(op.value) else None }

  /** From `from` on, nothing writes the entry or rolls back. */
  ghost predicate Quiet(ops: seq<Op>, from: nat, a: Address, k: Bytes) {
    forall i :: from <= i < |ops| ==> !Writes(ops[i], a, k) && !ops[i].RollbackOp?
  }

  lemma StepReads(p: Plain, op: Op, a: Address, k: Bytes)
    requires Total(p.now) && Total(p.saved)
    ensures Writes(op, a, k) ==> Lookup(Step(p, op).now[a], k) == Written(op)
    ensures !Writes(op, a, k) && !op.RollbackOp? ==> Lookup(Step(p, op).now[a], k) == Lookup(p.now[a], k)
    ensures !op.FlushOp? ==> Step(p, op).saved == p.saved
  {
    hide Step;
    match op
    case PutOp(x, y, v) => PutReads(p, x, y, v);
    case RemoveOp(x, y) => RemoveReads(p, x, y);
    case ClearOp(x) => ClearReads(p, x);
    case FlushOp => CheckpointReads(p);
    case RollbackOp => CheckpointReads(p);
  }

  lemma {:induction false} QuietReads(p: Plain, ops: seq<Op>, from: nat, a: Address, k: Bytes)
    requires Total(p.now) && Total(p.saved) && from <= |ops| && Quiet(ops, from, a, k)
    ensures Lookup(Steps(p, ops).now[a], k) == Lookup(Steps(p, ops[..from]).now[a], k)
    decreases |ops|
  {
    if from == |ops| {
      assert ops[..from] == ops;
    } else {
      var init := ops[..|ops| - 1];
      assert init[..from] == ops[..from];
      QuietReads(p, init, from, a, k);
      StepReads(Steps(p, init), ops[|ops| - 1], a, k);
    }
  }

  /** The last write since the last rollback is what is read. */
  lemma LastWriteIsRead(p: Plain, ops: seq<Op>, i: nat, a: Address, k: Bytes)
    requires Total(p.now) && Total(p.saved) && i < |ops| && Writes(ops[i], a, k) && Quiet(ops, i + 1, a, k)
    ensures Lookup(Steps(p, ops).now[a], k) == Written(ops[i])
  {
    hide Steps, Step;
    QuietReads(p, ops, i + 1, a, k);
    StepsOne(p, ops, i);
    StepReads(Steps(p, ops[..i]), ops[i], a, k);
  }

  /** Without a write or a rollback, what was there before is read. */
  lemma UnwrittenIsRead(p: Plain, ops: seq<Op>, a: Address, k: Bytes)
    requires Total(p.now) && Total(p.saved) && Quiet(ops, 0, a, k)
    ensures Lookup(Steps(p, ops).now[a], k) == Lookup(p.now[a], k)
  {
    QuietReads(p, ops, 0, a, k);
  }

  lemma {:induction false} UnflushedIsSaved(p: Plain, ops: seq<Op>, from: nat)
    requires Total(p.now) && Total(p.saved) && from <= |ops|
    requires forall i :: from <= i < |ops| ==> !ops[i].FlushOp?
    ensures Steps(p, ops).saved == Steps(p, ops[..from]).saved
    decreases |ops|
  {
    if from == |ops| {
      assert ops[..from] == ops;
    } else {
      var init := ops[..|ops| - 1];
      assert init[..from] == ops[..from];
      UnflushedIsSaved(p, init, from);
      StepReads(Steps(p, init), ops[|ops| - 1], Address("", None), []);
    }
  }

  lemma StepsOne(p: Plain, ops: seq<Op>, i: nat)
    requires Total(p.now) && Total(p.saved) && i < |ops|
    ensures Steps(p, ops[..i + 1]) == Step(Steps(p, ops[..i]), ops[i])
  {
    assert ops[..i + 1][..i] == ops[..i];
  }

  lemma FlushedIsSaved(p: Plain, ops: seq<Op>, f: nat)
    requires Total(p.now) && Total(p.saved) && f < |ops| && ops[f].FlushOp?
    requires forall j :: f < j < |ops| ==> !ops[j].FlushOp?
    ensures Steps(p, ops).saved == Steps(p, ops[..f]).now
  {
    hide Steps, Step;
    UnflushedIsSaved(p, ops, f + 1);
    StepsOne(p, ops, f);
    CheckpointReads(Steps(p, ops[..f]));
  }

  /** After a rollback, and until the next write, what was there at the last flush before it is read. */
  lemma RollbackIsRead(p: Plain, ops: seq<Op>, f: nat, i: nat, a: Address, k: Bytes)
    requires Total(p.now) && Total(p.saved) && f < i < |ops| && ops[f].FlushOp? && ops[i].RollbackOp?
    requires (forall j :: f < j < i ==> !ops[j].FlushOp?) && Quiet(ops, i + 1, a, k)
    ensures Lookup(Steps(p, ops).now[a], k) == Lookup(Steps(p, ops[..f]).now[a], k)
  {
    hide Steps, Step;
    QuietReads(p, ops, i + 1, a, k);
    StepsOne(p, ops, i);
    CheckpointReads(Steps(p, ops[..i]));
    assert ops[..i][..f] == ops[..f];
    FlushedIsSaved(p, ops[..i], f);
  }

  /** The same without a flush before it: the first checkpoint is read. */
  lemma FirstCheckpointIsRead(p: Plain, ops: seq<Op>, i: nat, a: Address, k: Bytes)
    requires Total(p.now) && Total(p.saved) && i < |ops| && ops[i].RollbackOp?
    requires (forall j :: 0 <= j < i ==> !ops[j].FlushOp?) && Quiet(ops, i + 1, a, k)
    ensures Lookup(Steps(p, ops).now[a], k) == Lookup(p.saved[a], k)
  {
    hide Step;
    QuietReads(p, ops, i + 1, a, k);
    StepsOne(p, ops, i);
    CheckpointReads(Steps(p, ops[..i]));
    assert ops[..i][..0] == [];
    UnflushedIsSaved(p, ops[..i], 0);
  }

  lemma PutOverlaid(m: Index, c: ViewChanges, k: Bytes, v: Bytes)
    ensures Overlaid(m, c.(data := c.data[k := Put(v)])) == Overlaid(m, c)[k := v]
  {
  }

  lemma RemoveOverlaid(m: Index, c: ViewChanges, k: Bytes)
    ensures Overlaid(m, c.(data := c.data[k := Delete])) == Overlaid(m, c) - {k}
  {
  }

  lemma ClearOverlaid(m: Index, namespace: Option<string>)
    ensures Overlaid(m, ViewChanges(map[], true, namespace)) == map[]
  {
  }

  // ---- Borrows

  /**
   A cell is either empty, with one live exclusive borrow that has the written changes, or full of them, with shared
   borrows only.
   */
  ghost predicate CellOk(c: Cell, written: ViewChanges) {
    match c.changes
    case None => c.strong == 1 && exists b :: c.borrows == map[b := Exclusive(written)]
    case Some(changes) =>
      && changes == written
      && c.strong == 1 + |c.borrows|
      && forall b :: b in c.borrows ==> c.borrows[b] == Shared(written)
  }

  ghost predicate CellsOk(cells: map<Address, Cell>, written: Layer) {
    cells.Keys == written.Keys && forall a :: a in cells ==> CellOk(cells[a], written[a])
  }

  ghost predicate Live(cells: map<Address, Cell>, a: Address, b: nat) { a in cells && b in cells[a].borrows }

  lemma CellAt(cells: map<Address, Cell>, written: Layer, a: Address)
    requires CellsOk(cells, written) && a in cells
    ensures a in written && CellOk(cells[a], written[a])
  {
  }

  lemma CellSet(cells: map<Address, Cell>, written: Layer, a: Address, cell: Cell, c: ViewChanges)
    requires CellsOk(cells, written) && CellOk(cell, c)
    ensures CellsOk(cells[a := cell], written[a := c])
  {
  }

  ghost function PlainOf(patch: Patch, written: Layer): (p: Plain)
    ensures Total(p.now) && Total(p.saved)
  {
    Plain(imap a: Address :: Overlaid(patch.At(a), ChangesAt(written, a)), imap a: Address :: patch.At(a))
  }

  lemma PlainShows(patch: Patch, written: Layer)
    ensures forall a :: PlainOf(patch, written).saved[a] == patch.At(a)
  {
  }

  lemma SamePlain(patch: Patch, written: Layer, a: Address)
    ensures PlainOf(patch, written[a := ChangesAt(written, a)]) == PlainOf(patch, written)
  {
  }

  /** Writing changes of one index changes the entries of that index only. */
  lemma PlainWrite(patch: Patch, written: Layer, a: Address, c: ViewChanges)
    ensures PlainOf(patch, written).now[a] == Overlaid(patch.At(a), ChangesAt(written, a))
    ensures var p := PlainOf(patch, written);
      PlainOf(patch, written[a := c]) == p.(now := p.now[a := Overlaid(patch.At(a), c)])
  {
  }

  // ---- Merging the working patch

  /** The changes of one index after a flush; the namespace is kept apart. */
  function Merged(older: Layer, newer: Layer, a: Address): ViewChanges {
    Joined(ChangesAt(older, a), ChangesAt(newer, a).(namespace := None))
  }

  ghost predicate IsMerged(changes: Layer, older: Layer, newer: Layer, done: set<Address>) {
    && changes.Keys == older.Keys + done
    && forall a :: a in changes ==> changes[a] == if a in done then Merged(older, newer, a) else older[a]
  }

  ghost predicate IsAggregated(
    aggregated: map<Address, string>, older: map<Address, string>, newer: Layer, done: set<Address>)
  {
    forall a :: (if a in done && a in newer && newer[a].namespace.Some?
                 then a in aggregated && aggregated[a] == newer[a].namespace.value
                 else (a in aggregated <==> a in older) && (a in older ==> aggregated[a] == older[a]))
  }

  /** After a flush the namespaces of the written indexes are recorded, and no other record has changed. */
  lemma NamespacesRecorded(aggregated: map<Address, string>, older: map<Address, string>, written: Layer, a: Address)
    requires IsAggregated(aggregated, older, written, written.Keys)
    ensures a in written && written[a].namespace.Some? ==>
      a in aggregated && aggregated[a] == written[a].namespace.value
    ensures a !in written || written[a].namespace.None? ==>
      (a in aggregated <==> a in older) && (a in older ==> aggregated[a] == older[a])
  {
  }

  lemma MergeStarts(patch: Patch, newer: Layer)
    ensures IsMerged(patch.changes, patch.changes, newer, {})
    ensures IsAggregated(patch.aggregated, patch.aggregated, newer, {})
  {
  }

  /** After a flush the patch alone shows every index as it was. */
  lemma MergedShows(patch: Patch, patch': Patch, written: Layer)
    requires patch'.snapshot == patch.snapshot && IsMerged(patch'.changes, patch.changes, written, written.Keys)
    ensures PlainOf(patch', map[]) == Step(PlainOf(patch, written), FlushOp)
  {
    forall a ensures patch'.At(a) == Overlaid(patch.At(a), ChangesAt(written, a)) {
      var m := Entries(patch.snapshot, a);
      var newer := ChangesAt(written, a);
      JoinedComposes(m, ChangesAt(patch.changes, a), newer.(namespace := None));
      assert Overlaid(patch.At(a), newer.(namespace := None)) == Overlaid(patch.At(a), newer);
      NoChangesOverlaid(patch.At(a));
    }
    forall a ensures Overlaid(patch'.At(a), NO_CHANGES) == patch'.At(a) {
      NoChangesOverlaid(patch'.At(a));
    }
  }

  predicate Unborrowed(c: Cell) { c.changes.Some? && c.strong == 1 }

  predicate NoBorrows(cells: map<Address, Cell>) { forall a :: a in cells ==> cells[a].borrows == map[] }

  /** Once all borrows are dropped, every cell is full and has its only pointer to the changes. */
  lemma BorrowsAndCells(cells: map<Address, Cell>, written: Layer)
    requires CellsOk(cells, written)
    ensures NoBorrows(cells) <==> forall a :: a in cells ==> Unborrowed(cells[a])
    ensures forall a :: a in cells && Unborrowed(cells[a]) ==> cells[a].changes.value == written[a]
  {
    forall a | a in cells ensures Unborrowed(cells[a]) <==> cells[a].borrows == map[] {
      assert CellOk(cells[a], written[a]);
    }
  }

  /** A live borrow shows the index as it is now. */
  lemma BorrowShows(patch: Patch, cells: map<Address, Cell>, written: Layer, a: Address, b: nat)
    requires CellsOk(cells, written) && Live(cells, a, b)
    ensures PlainOf(patch, written).now[a] == Overlaid(patch.At(a), cells[a].borrows[b].changes)
  {
    CellAt(cells, written, a);
  }

  class Fork {
    var patch: Patch
    /** The working patch. */
    var cells: map<Address, Cell>
    /** The changes made to each index since the last flush, wherever they are now. */
    ghost var written: Layer

    ghost predicate Valid()
      reads this
    {
      CellsOk(cells, written)
    }

    ghost function Model(): (p: Plain)
      reads this
      ensures Total(p.now) && Total(p.saved)
    {
      PlainOf(patch, written)
    }

    constructor (patch: Patch)
      ensures Valid() && this.patch == patch && cells == map[]
      ensures Model().now == Model().saved && forall a :: Model().now[a] == patch.At(a)
    {
      this.patch := patch;
      cells, written := map[], map[];
      new;
      forall a ensures Model().now[a] == patch.At(a) {
        NoChangesOverlaid(patch.At(a));
      }
    }

    method Entry(a: Address)
      requires Valid()
      modifies this`cells, this`written
      ensures Valid() && Model() == old(Model())
      ensures cells == old(cells)[a := if a in old(cells) then old(cells[a]) else NEW_CELL]
      ensures written == old(written)[a := ChangesAt(old(written), a)] && a in written
    {
      hide PlainOf;
      SamePlain(patch, written, a);
      if a !in cells {
        cells := cells[a := NEW_CELL];
        written := written[a := NO_CHANGES];
      } else {
        assert written == written[a := ChangesAt(written, a)];
      }
    }

    /** Borrows an index exclusively; panics exactly if it is borrowed already. */
    method Changes(a: Address, b: nat) returns (ok: bool)
      requires Valid() && !Live(cells, a, b)
      modifies this
      ensures ok <==> (a in old(cells) ==> old(cells[a]).borrows == map[])
      ensures ok ==>
        && Valid() && Model() == old(Model())
        && cells == old(cells)[a := Cell(None, 1, map[b := Exclusive(ChangesAt(old(written), a))])]
        && written == old(written)[a := ChangesAt(old(written), a)]
    {
      hide PlainOf, CellsOk;
      Entry(a);
      var cell := cells[a];
      CellAt(cells, written, a);
      cells := cells[a := cell.(changes := None)];
      match cell.changes
      case None =>
        return false;
      case Some(changes) =>
        if cell.strong != 1 {
          return false;
        }
        CellSet(old(cells), old(written), a, Cell(None, 1, map[b := Exclusive(changes)]), changes);
        cells := cells[a := Cell(None, 1, cell.borrows[b := Exclusive(changes)])];
        assert cells == old(cells)[a := Cell(None, 1, map[b := Exclusive(changes)])];
        assert Valid();
        return true;
    }

    /** Borrows an index for reading; panics exactly if it is borrowed exclusively. */
    method ReadonlyChanges(a: Address, b: nat) returns (ok: bool)
      requires Valid() && !Live(cells, a, b)
      modifies this
      ensures ok <==>
        (a in old(cells) ==> forall b' :: b' in old(cells[a]).borrows ==> old(cells[a]).borrows[b'].Shared?)
      ensures ok ==>
        && Valid() && Model() == old(Model())
        && a in cells && b in cells[a].borrows && cells[a].borrows[b] == Shared(ChangesAt(old(written), a))
        && (a in old(cells) ==> cells[a].borrows == old(cells[a]).borrows[b := cells[a].borrows[b]])
        && cells == old(cells)[a := cells[a]]
        && written == old(written)[a := ChangesAt(old(written), a)]
    {
      hide PlainOf, CellsOk;
      Entry(a);
      var cell := cells[a];
      CellAt(cells, written, a);
      match cell.changes
      case None =>
        return false;
      case Some(changes) =>
        var cell' := cell.(strong := cell.strong + 1, borrows := cell.borrows[b := Shared(changes)]);
        CellSet(old(cells), old(written), a, cell', changes);
        cells := cells[a := cell'];
        assert cells == old(cells)[a := cell'];
        assert Valid();
        return true;
    }

    /** Ends a borrow. An exclusive one puts its changes back, and finds its cell there and empty. */
    method Drop(a: Address, b: nat)
      requires Valid() && Live(cells, a, b)
      modifies this`cells
      ensures Valid() && Model() == old(Model())
      ensures cells == old(cells)[a := cells[a]] && cells[a].borrows == old(cells[a]).borrows - {b}
    {
      hide PlainOf, CellsOk;
      var cell := cells[a];
      CellAt(cells, written, a);
      var rest := cell.borrows - {b};
      match cell.borrows[b] {
        case Exclusive(changes) =>
          assert cell.changes == None;
          assert rest == map[];
          cell := Cell(Some(changes), cell.strong, rest);
        case Shared(_) =>
          assert |rest| == |cell.borrows| - 1;
          cell := cell.(strong := cell.strong - 1, borrows := rest);
      }
      CellSet(cells, written, a, cell, written[a]);
      assert written == written[a := written[a]];
      cells := cells[a := cell];
    }

    // ---- Reading and writing through a borrow

    method GetBytes(a: Address, b: nat, k: Bytes) returns (r: Option<Bytes>)
      requires Valid() && Live(cells, a, b)
      ensures r == Lookup(Model().now[a], k)
    {
      hide PlainOf, CellsOk, Overlaid;
      BorrowShows(patch, cells, written, a, b);
      var got := cells[a].borrows[b].changes.Get(k);
      if got.Some? {
        return got.value;
      }
      return patch.Get(a, k);
    }

    method ContainsRawKey(a: Address, b: nat, k: Bytes) returns (r: bool)
      requires Valid() && Live(cells, a, b)
      ensures r == (k in Model().now[a])
    {
      hide PlainOf, CellsOk, Overlaid;
      BorrowShows(patch, cells, written, a, b);
      var got := cells[a].borrows[b].changes.Contains(k);
      if got.Some? {
        return got.value;
      }
      return patch.Contains(a, k);
    }

    /** An exclusive borrow is the only pointer to its changes, so they may be written. */
    method Write(a: Address, b: nat, changes: ViewChanges)
      requires Valid() && Live(cells, a, b) && cells[a].borrows[b].Exclusive?
      modifies this`cells, this`written
      ensures Valid()
      ensures cells == old(cells)[a := Cell(None, 1, map[b := Exclusive(changes)])]
      ensures written == old(written)[a := changes] && a in old(written)
      ensures old(cells[a]).borrows[b].changes == old(written)[a]
    {
      hide CellsOk;
      var cell := cells[a];
      CellAt(cells, written, a);
      assert cell.strong == 1;
      assert cell.borrows[b := Exclusive(changes)] == map[b := Exclusive(changes)];
      CellSet(cells, written, a, Cell(None, 1, map[b := Exclusive(changes)]), changes);
      cells := cells[a := cell.(borrows := cell.borrows[b := Exclusive(changes)])];
      written := written[a := changes];
    }

    method Put(a: Address, b: nat, k: Bytes, v: Bytes)
      requires Valid() && Live(cells, a, b) && cells[a].borrows[b].Exclusive?
      modifies this`cells, this`written
      ensures Valid() && Model() == Step(old(Model()), PutOp(a, k, v))
      ensures Lookup(Model().now[a], k) == Some(v) && OnlyAt(old(Model()), Model(), a, k)
      ensures Live(cells, a, b) && cells == old(cells)[a := cells[a]]
      ensures cells[a].borrows == map[b := cells[a].borrows[b]]
      ensures cells[a].borrows[b].Exclusive?
    {
      hide PlainOf, CellsOk, Overlaid, OnlyAt;
      var c := cells[a].borrows[b].changes;
      PutReads(Model(), a, k, v);
      PutOverlaid(patch.At(a), c, k, v);
      PlainWrite(patch, written, a, c.(data := c.data[k := Change.Put(v)]));
      Write(a, b, c.(data := c.data[k := Change.Put(v)]));
    }

    method Remove(a: Address, b: nat, k: Bytes)
      requires Valid() && Live(cells, a, b) && cells[a].borrows[b].Exclusive?
      modifies this`cells, this`written
      ensures Valid() && Model() == Step(old(Model()), RemoveOp(a, k))
      ensures Lookup(Model().now[a], k) == None && OnlyAt(old(Model()), Model(), a, k)
      ensures Live(cells, a, b) && cells == old(cells)[a := cells[a]]
      ensures cells[a].borrows == map[b := cells[a].borrows[b]]
      ensures cells[a].borrows[b].Exclusive?
    {
      hide PlainOf, CellsOk, Overlaid, OnlyAt;
      var c := cells[a].borrows[b].changes;
      RemoveReads(Model(), a, k);
      RemoveOverlaid(patch.At(a), c, k);
      PlainWrite(patch, written, a, c.(data := c.data[k := Delete]));
      Write(a, b, c.(data := c.data[k := Delete]));
    }

    method Clear(a: Address, b: nat)
      requires Valid() && Live(cells, a, b) && cells[a].borrows[b].Exclusive?
      modifies this`cells, this`written
      ensures Valid() && Model() == Step(old(Model()), ClearOp(a))
      ensures (forall k :: Lookup(Model().now[a], k) == None) && OnlyIn(old(Model()), Model(), a)
      ensures Live(cells, a, b) && cells == old(cells)[a := cells[a]]
      ensures cells[a].borrows == map[b := cells[a].borrows[b]]
      ensures cells[a].borrows[b].Exclusive?
    {
      hide PlainOf, CellsOk, Overlaid, OnlyIn;
      var c := cells[a].borrows[b].changes;
      ClearReads(Model(), a);
      ClearOverlaid(patch.At(a), c.namespace);
      PlainWrite(patch, written, a, c.(data := map[], cleared := true));
      Write(a, b, c.(data := map[], cleared := true));
    }

    // ---- Checkpoints

    /** Merges a working patch into the patch; panics exactly if some of its changes are still borrowed. */
    method MergeInto(working: map<Address, Cell>, ghost changes: Layer)
      returns (ok: bool)
      requires changes.Keys == working.Keys
      requires forall a :: a in working && Unborrowed(working[a]) ==> working[a].changes.value == changes[a]
      modifies this`patch
      ensures ok <==> forall a :: a in working ==> Unborrowed(working[a])
      ensures ok ==>
        && patch.snapshot == old(patch).snapshot
        && IsMerged(patch.changes, old(patch).changes, changes, working.Keys)
        && IsAggregated(patch.aggregated, old(patch).aggregated, changes, working.Keys)
    {
      hide IsMerged, IsAggregated;
      MergeStarts(patch, changes);
      var rest := working.Keys;
      assert working.Keys - rest == {};
      while rest != {}
        invariant rest <= working.Keys
        invariant forall a :: a in working.Keys - rest ==> Unborrowed(working[a])
        invariant patch.snapshot == old(patch).snapshot
        invariant IsMerged(patch.changes, old(patch).changes, changes, working.Keys - rest)
        invariant IsAggregated(patch.aggregated, old(patch).aggregated, changes, working.Keys - rest)
        decreases rest
      {
        var a :| a in rest;
        var cell := working[a];
        if cell.changes.None? {
          return false;
        }
        if cell.strong != 1 {
          return false;
        }
        MergeChanges(a, cell.changes.value, changes, working.Keys - rest, old(patch));
        assert working.Keys - (rest - {a}) == (working.Keys - rest) + {a};
        rest := rest - {a};
      }
      assert working.Keys - rest == working.Keys;
      return true;
    }

    method MergeChanges(a: Address, c: ViewChanges, ghost changes: Layer, ghost done: set<Address>, ghost patch0: Patch)
      requires a in changes && changes[a] == c && a !in done
      requires IsMerged(patch.changes, patch0.changes, changes, done)
      requires IsAggregated(patch.aggregated, patch0.aggregated, changes, done)
      modifies this`patch
      ensures patch.snapshot == old(patch).snapshot
      ensures IsMerged(patch.changes, patch0.changes, changes, done + {a})
      ensures IsAggregated(patch.aggregated, patch0.aggregated, changes, done + {a})
    {
      var aggregated := if c.namespace.Some? then patch.aggregated[a := c.namespace.value] else patch.aggregated;
      var newer := c.(namespace := None);
      var older := if a in patch.changes then patch.changes[a] else NO_CHANGES;
      var joined := if newer.cleared then newer else older.(data := older.data + newer.data);
      patch := patch.(changes := patch.changes[a := joined], aggregated := aggregated);
    }

    /** Makes all changes so far final; panics exactly if some index is borrowed. */
    method Flush() returns (ok: bool)
      requires Valid()
      modifies this
      ensures ok <==> NoBorrows(old(cells))
      ensures ok ==> Valid() && cells == map[] && Model() == Step(old(Model()), FlushOp)
      ensures ok ==> Model().now == old(Model()).now && Model().saved == old(Model()).now
      ensures ok ==> IsAggregated(patch.aggregated, old(patch).aggregated, old(written), old(written).Keys)
    {
      hide PlainOf, IsMerged, IsAggregated;
      var working := cells;
      ghost var changes := written;
      BorrowsAndCells(working, changes);
      cells, written := map[], map[];
      ok := MergeInto(working, changes);
      if ok {
        MergedShows(old(patch), patch, changes);
      }
    }

    /** Forgets all changes since the last flush. The borrow checker makes sure that no index is borrowed then. */
    method Rollback()
      requires Valid() && NoBorrows(cells)
      modifies this`cells, this`written
      ensures Valid() && cells == map[] && Model() == Step(old(Model()), RollbackOp)
      ensures Model().now == old(Model()).saved && Model().saved == old(Model()).saved
    {
      cells, written := map[], map[];
      assert Model().now == Model().saved by {
        forall a ensures Model().now[a] == Model().saved[a] {
          NoChangesOverlaid(patch.At(a));
        }
      }
    }

    /** The patch of a fork shows every index as the fork did. */
    method IntoPatch() returns (p: Option<Patch>)
      requires Valid()
      modifies this
      ensures p.Some? <==> NoBorrows(old(cells))
      ensures p.Some? ==> forall a :: p.value.At(a) == old(Model()).now[a]
    {
      hide PlainOf;
      var ok := Flush();
      if !ok {
        return None;
      }
      PlainShows(patch, written);
      return Some(patch);
    }

    /**
     Any sequence of operations on any indexes, each write through a borrow of its own, does to the fork what it does to
     a plain map with a checkpoint; nothing panics.
     */
    method Perform(ops: seq<Op>)
      requires Valid() && NoBorrows(cells)
      modifies this
      ensures Valid() && NoBorrows(cells) && Model() == Steps(old(Model()), ops)
    {
      hide PlainOf, CellsOk, Step;
      var i := 0;
      while i < |ops|
        invariant 0 <= i <= |ops|
        invariant Valid() && NoBorrows(cells) && Model() == Steps(old(Model()), ops[..i])
      {
        assert ops[..i + 1][..i] == ops[..i];
        PerformOne(ops[i]);
        i := i + 1;
      }
      assert ops[..i] == ops;
    }

    method PerformOne(op: Op)
      requires Valid() && NoBorrows(cells)
      modifies this
      ensures Valid() && NoBorrows(cells) && Model() == Step(old(Model()), op)
    {
      hide PlainOf, CellsOk, Step;
      match op {
        case FlushOp =>
          var ok := Flush();
        case RollbackOp =>
          Rollback();
        case PutOp(a, k, v) =>
          var borrowed := Changes(a, 0);
          Put(a, 0, k, v);
          Drop(a, 0);
        case RemoveOp(a, k) =>
          var borrowed := Changes(a, 0);
          Remove(a, 0, k);
          Drop(a, 0);
        case ClearOp(a) =>
          var borrowed := Changes(a, 0);
          Clear(a, 0);
          Drop(a, 0);
      }
    }
  }
}
