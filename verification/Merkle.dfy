/** Hashes of Merkelized lists, for any hash function to 32 bytes. */
module Merkle {
  import opened ByteStrings
  import opened Division

  const HASH_SIZE := 32

  function Zeros(n: nat): (b: Bytes)
    ensures |b| == n
  {
    if n == 0 then [] else [0] + Zeros(n - 1)
  }

  type Hash = h: Bytes | |h| == HASH_SIZE witness Zeros(HASH_SIZE)

  type HashFunction = Bytes -> Hash

  const ZERO_HASH: Hash := Zeros(HASH_SIZE)

  // Prefixes that keep the hashed objects of different kinds apart.
  const BLOB: byte := 0
  const LIST_BRANCH_NODE: byte := 1
  const LIST_NODE: byte := 2

  // ---- What is hashed

  function Leaf(value: Bytes): Bytes { [BLOB] + value }

  function Branch(left: Hash, right: Hash): Bytes { [LIST_BRANCH_NODE] + left + right }

  function SingleBranch(child: Hash): Bytes { [LIST_BRANCH_NODE] + child }

  function LittleEndian(v: nat, w: nat): (b: Bytes)
    ensures |b| == w
  {
    if w == 0 then [] else [(v % 256) as byte] + LittleEndian(v / 256, w - 1)
  }

  const LENGTH_SIZE := 8
  const LENGTHS := 0x1_0000_0000_0000_0000

  function ListNode(len: nat, root: Hash): Bytes { [LIST_NODE] + LittleEndian(len, LENGTH_SIZE) + root }

  // ---- The tree, level by level

  /** The parent of the nodes `2 * i` and, unless it is missing, `2 * i + 1` of a level. */
  function Parent(level: seq<Hash>, i: nat): Bytes
    requires 2 * i < |level|
  {
    if 2 * i + 1 < |level| then Branch(level[2 * i], level[2 * i + 1]) else SingleBranch(level[2 * i])
  }

  function Parents(level: seq<Hash>): seq<Bytes> {
    seq((|level| + 1) / 2, i requires 0 <= i < (|level| + 1) / 2 => Parent(level, i))
  }

  function HashAll(h: HashFunction, inputs: seq<Bytes>): (hashes: seq<Hash>)
    ensures |hashes| == |inputs|
  {
    seq(|inputs|, i requires 0 <= i < |inputs| => h(inputs[i]))
  }

  function Up(h: HashFunction, level: seq<Hash>): seq<Hash> { HashAll(h, Parents(level)) }

  function Root(h: HashFunction, level: seq<Hash>): Hash
    requires level != []
    decreases |level|
  {
    if |level| == 1 then level[0] else Root(h, Up(h, level))
  }

  function Leaves(values: seq<Bytes>): seq<Bytes> { seq(|values|, i requires 0 <= i < |values| => Leaf(values[i])) }

  function RootOf(h: HashFunction, values: seq<Bytes>): Hash {
    if values == [] then ZERO_HASH else Root(h, HashAll(h, Leaves(values)))
  }

  function HashList(h: HashFunction, values: seq<Bytes>): Hash { h(ListNode(|values|, RootOf(h, values))) }

  // ---- The layout of what is hashed

  /** A value after the byte 0; one or two hashes after the byte 1; a length and a hash after the byte 2. */
  lemma Layout(value: Bytes, left: Hash, right: Hash, len: nat)
    ensures Leaf(value)[0] == 0 && Leaf(value)[1..] == value
    ensures SingleBranch(left)[0] == 1 && SingleBranch(left)[1..] == left
    ensures Branch(left, right)[0] == 1 && Branch(left, right)[1..33] == left && Branch(left, right)[33..] == right
    ensures ListNode(len, left)[0] == 2 && |ListNode(len, left)| == 41 && ListNode(len, left)[9..] == left
    ensures forall i: nat :: i < 8 ==> ListNode(len, left)[1 + i] as nat == len / Base(i) % 256
  {
    forall i: nat | i < 8 ensures ListNode(len, left)[1 + i] as nat == len / Base(i) % 256 {
      assert ListNode(len, left)[1 + i] == LittleEndian(len, 8)[i];
      LittleEndianAt(len, 8, i);
    }
  }

  lemma {:induction false} LittleEndianAt(v: nat, w: nat, i: nat)
    requires i < w
    ensures LittleEndian(v, w)[i] as nat == v / Base(i) % 256
  {
    if i > 0 {
      LittleEndianAt(v / 256, w - 1, i - 1);
      DivideTwice(v, Base(i - 1));
    }
  }

  lemma DivideTwice(v: nat, m: nat)
    requires m > 0
    ensures v / 256 / m == v / (256 * m)
  {
    var q, r := v / 256 / m, v / 256 % m;
    var rest := 256 * r + v % 256;
    assert v / 256 == q * m + r;
    assert v == q * (256 * m) + rest by {
      assert q * (256 * m) == 256 * (q * m);
    }
    QuotientIs(v, q, 256 * m, rest);
  }

  /** Inputs of different kinds are different. */
  lemma KindsDiffer(value: Bytes, left: Hash, right: Hash, child: Hash, len: nat, root: Hash)
    ensures Leaf(value) != Branch(left, right) && Leaf(value) != SingleBranch(child)
    ensures Leaf(value) != ListNode(len, root)
    ensures Branch(left, right) != SingleBranch(child) && Branch(left, right) != ListNode(len, root)
    ensures SingleBranch(child) != ListNode(len, root)
  {
    Layout(value, left, right, len);
    Layout(value, child, right, len);
    Layout(value, root, right, len);
    assert |Branch(left, right)| != |SingleBranch(child)|;
  }

  /** The roots of lists of up to three values. */
  lemma SmallRoots(h: HashFunction, a: Bytes, b: Bytes, c: Bytes)
    ensures RootOf(h, []) == seq(32, i => 0 as byte)
    ensures RootOf(h, [a]) == h(Leaf(a))
    ensures RootOf(h, [a, b]) == h(Branch(h(Leaf(a)), h(Leaf(b))))
    ensures RootOf(h, [a, b, c]) == h(Branch(h(Branch(h(Leaf(a)), h(Leaf(b)))), h(SingleBranch(h(Leaf(c))))))
  {
    ZerosAre(HASH_SIZE);
    var two, three := [h(Leaf(a)), h(Leaf(b))], [h(Leaf(a)), h(Leaf(b)), h(Leaf(c))];
    assert HashAll(h, Leaves([a])) == [h(Leaf(a))];
    assert HashAll(h, Leaves([a, b])) == two && HashAll(h, Leaves([a, b, c])) == three;
    RootOfTwo(h, two[0], two[1]);
    var above := [h(Branch(three[0], three[1])), h(SingleBranch(three[2]))];
    UpAt(h, three);
    assert Up(h, three) == above;
    RootOfTwo(h, above[0], above[1]);
  }

  lemma RootOfTwo(h: HashFunction, left: Hash, right: Hash)
    ensures Root(h, [left, right]) == h(Branch(left, right))
  {
    UpAt(h, [left, right]);
    UpAt(h, [h(Branch(left, right))]);
    assert Up(h, [left, right]) == [h(Branch(left, right))];
  }

  lemma {:induction false} ZerosAre(n: nat)
    ensures Zeros(n) == seq(n, i => 0 as byte)
  {
    if n > 0 {
      ZerosAre(n - 1);
    }
  }

  // ---- Computing the root in place

  lemma UpAt(h: HashFunction, level: seq<Hash>)
    ensures |Up(h, level)| == |level| / 2 + |level| % 2
    ensures forall i :: 0 <= i < |Up(h, level)| ==> Up(h, level)[i] == h(Parent(level, i))
    ensures |level| > 1 ==> Root(h, level) == Root(h, Up(h, level))
    ensures |level| == 1 ==> Root(h, level) == level[0]
  {
  }

  /** While a level is replaced by the one above: the first `index / 2` nodes of that one are there. */
  ghost predicate Overwriting(h: HashFunction, hashes: seq<Hash>, level: seq<Hash>, index: nat) {
    && 0 <= index <= |level| + 1 && index % 2 == 0 && |level| <= |hashes|
    && |Up(h, level)| == |level| / 2 + |level| % 2
    && (forall i :: index <= i < |level| ==> hashes[i] == level[i])
    && (forall i :: 0 <= i < index / 2 ==> hashes[i] == Up(h, level)[i])
  }

  lemma OverwriteOne(h: HashFunction, hashes: seq<Hash>, level: seq<Hash>, index: nat)
    requires Overwriting(h, hashes, level, index) && index < |level|
    ensures Overwriting(h, hashes[index / 2 := h(Parent(level, index / 2))], level, index + 2)
  {
    hide Up;
    UpAt(h, level);
  }

  lemma Overwritten(h: HashFunction, hashes: seq<Hash>, level: seq<Hash>, index: nat)
    requires Overwriting(h, hashes, level, index) && index >= |level|
    ensures Overwriting(h, hashes, Up(h, level), 0)
  {
    UpAt(h, level);
    UpAt(h, Up(h, level));
  }

  /** Computes the root with one array, overwriting the level it still reads by the level above. */
  method RootHash(h: HashFunction, values: seq<Bytes>) returns (root: Hash)
    ensures root == RootOf(h, values)
  {
    hide Up, Root, Leaf, Branch, SingleBranch, Zeros;
    if values == [] {
      return ZERO_HASH;
    }
    var hashes := new Hash[|values|](i requires 0 <= i < |values| => h(Leaf(values[i])));
    ghost var level := HashAll(h, Leaves(values));
    assert hashes[..] == level;
    var end := hashes.Length;
    var index := 0;
    UpAt(h, level);
    while end > 1
      invariant index < end == |level| <= hashes.Length
      invariant Overwriting(h, hashes[..], level, index)
      invariant Root(h, level) == RootOf(h, values)
      decreases end, end - index
    {
      var first := hashes[index];
      var result := if index < end - 1 then h(Branch(first, hashes[index + 1])) else h(SingleBranch(first));
      assert result == h(Parent(level, index / 2));
      OverwriteOne(h, hashes[..], level, index);
      hashes[index / 2] := result;
      index := index + 2;
      if index >= end {
        Overwritten(h, hashes[..], level, index);
        UpAt(h, level);
        level := Up(h, level);
        index := 0;
        end := end / 2 + end % 2;
      }
    }
    UpAt(h, level);
    return hashes[0];
  }

  // ---- Binding

  /** All that is hashed above a level. */
  ghost function NodeInputs(h: HashFunction, level: seq<Hash>): set<Bytes>
    decreases |level|
  {
    if |level| <= 1 then {} else (set x | x in Parents(level)) + NodeInputs(h, Up(h, level))
  }

  /** All that is hashed for the root. */
  ghost function RootInputs(h: HashFunction, values: seq<Bytes>): set<Bytes> {
    (set x | x in Leaves(values)) + NodeInputs(h, HashAll(h, Leaves(values)))
  }

  /** All that is hashed for the hash of a list. */
  ghost function Inputs(h: HashFunction, values: seq<Bytes>): set<Bytes> {
    RootInputs(h, values) + {ListNode(|values|, RootOf(h, values))}
  }

  ghost predicate Collide(h: HashFunction, a: Bytes, b: Bytes) { a != b && h(a) == h(b) }

  lemma DifferAt<T>(xs: seq<T>, ys: seq<T>) returns (i: nat)
    requires |xs| == |ys| && xs != ys
    ensures i < |xs| && xs[i] != ys[i]
  {
    i :| i < |xs| && xs[i] != ys[i];
  }

  /** Lists of equal length with equal hashes are equal, or two of their elements collide. */
  lemma ElementsCollide(h: HashFunction, xs: seq<Bytes>, ys: seq<Bytes>) returns (a: Bytes, b: Bytes)
    requires |xs| == |ys| && xs != ys && HashAll(h, xs) == HashAll(h, ys)
    ensures a in xs && b in ys && Collide(h, a, b)
  {
    var i := DifferAt(xs, ys);
    assert HashAll(h, xs)[i] == HashAll(h, ys)[i];
    a, b := xs[i], ys[i];
  }

  lemma ParentsBind(xs: seq<Hash>, ys: seq<Hash>)
    requires |xs| == |ys| && xs != ys
    ensures Parents(xs) != Parents(ys)
  {
    var i := DifferAt(xs, ys);
    var p := i / 2;
    BranchesBind(xs, ys, p);
    assert Parents(xs)[p] != Parents(ys)[p];
  }

  lemma BranchesBind(xs: seq<Hash>, ys: seq<Hash>, p: nat)
    requires |xs| == |ys| && 2 * p < |xs|
    requires xs[2 * p] != ys[2 * p] || (2 * p + 1 < |xs| && xs[2 * p + 1] != ys[2 * p + 1])
    ensures Parent(xs, p) != Parent(ys, p)
  {
    var a, b := Parent(xs, p), Parent(ys, p);
    assert a[1..1 + HASH_SIZE] == xs[2 * p] && b[1..1 + HASH_SIZE] == ys[2 * p];
    if 2 * p + 1 < |xs| {
      assert a[1 + HASH_SIZE..] == xs[2 * p + 1] && b[1 + HASH_SIZE..] == ys[2 * p + 1];
    }
  }

  /** Different levels of equal length with the same root: two nodes above them collide. */
  lemma {:induction false} RootBinds(h: HashFunction, xs: seq<Hash>, ys: seq<Hash>) returns (a: Bytes, b: Bytes)
    requires |xs| == |ys| > 0 && xs != ys && Root(h, xs) == Root(h, ys)
    ensures a in NodeInputs(h, xs) && b in NodeInputs(h, ys) && Collide(h, a, b)
    decreases |xs|
  {
    if |xs| == 1 {
      assert false;
    }
    ParentsBind(xs, ys);
    if Up(h, xs) == Up(h, ys) {
      a, b := ElementsCollide(h, Parents(xs), Parents(ys));
    } else {
      a, b := RootBinds(h, Up(h, xs), Up(h, ys));
    }
  }

  // ---- Binding across lengths

  /** How many levels are above one of `n` nodes. */
  function Depth(n: nat): nat { if n <= 1 then 0 else 1 + Depth((n + 1) / 2) }

  /** The level `k` levels above. */
  function Above(h: HashFunction, level: seq<Hash>, k: nat): seq<Hash>
    decreases k
  {
    if k == 0 then level else Above(h, Up(h, level), k - 1)
  }

  lemma {:induction false} AboveOneMore(h: HashFunction, level: seq<Hash>, k: nat)
    ensures Above(h, level, k + 1) == Up(h, Above(h, level, k))
    decreases k
  {
    if k > 0 {
      AboveOneMore(h, Up(h, level), k - 1);
    }
  }

  /** Above a level are smaller levels, down to the root alone, and their parents are hashed. */
  lemma {:induction false} AboveIs(h: HashFunction, level: seq<Hash>, k: nat)
    requires level != [] && k <= Depth(|level|)
    ensures Above(h, level, k) != [] && Depth(|Above(h, level, k)|) == Depth(|level|) - k
    ensures k == Depth(|level|) ==> Above(h, level, k) == [Root(h, level)]
    ensures k < Depth(|level|) ==> forall x :: x in Parents(Above(h, level, k)) ==> x in NodeInputs(h, level)
    decreases k
  {
    if k > 0 {
      UpAt(h, level);
      AboveIs(h, Up(h, level), k - 1);
    }
  }

  lemma LengthsBind(xs: seq<Hash>, ys: seq<Hash>)
    requires |xs| < |ys|
    ensures Parents(xs) != Parents(ys)
  {
    if |Parents(xs)| == |Parents(ys)| {
      var i := |xs| / 2;
      assert |Parents(xs)[i]| < |Parents(ys)[i]|;
    }
  }

  /** The parents determine the level. */
  lemma ParentsDetermine(xs: seq<Hash>, ys: seq<Hash>)
    requires Parents(xs) == Parents(ys)
    ensures xs == ys
  {
    if |xs| < |ys| {
      LengthsBind(xs, ys);
    } else if |ys| < |xs| {
      LengthsBind(ys, xs);
    } else if xs != ys {
      ParentsBind(xs, ys);
    }
  }

  /** Of two trees with one root, the lower is the upper part of the higher, or two nodes collide. */
  lemma {:induction false} TreesMeet(h: HashFunction, xs: seq<Hash>, ys: seq<Hash>)
    returns (found: bool, a: Bytes, b: Bytes)
    requires xs != [] && ys != [] && Depth(|xs|) <= Depth(|ys|) && Root(h, xs) == Root(h, ys)
    ensures found ==> a in NodeInputs(h, xs) && b in NodeInputs(h, ys) && Collide(h, a, b)
    ensures !found ==> xs == Above(h, ys, Depth(|ys|) - Depth(|xs|))
    decreases |xs|
  {
    found, a, b := false, [], [];
    var k := Depth(|ys|) - Depth(|xs|);
    AboveIs(h, ys, k);
    if |xs| > 1 {
      UpAt(h, xs);
      UpAt(h, ys);
      found, a, b := TreesMeet(h, Up(h, xs), Up(h, ys));
      if !found {
        var zs := Above(h, ys, k);
        AboveOneMore(h, ys, k);
        if Parents(xs) == Parents(zs) {
          ParentsDetermine(xs, zs);
        } else {
          found := true;
          a, b := ElementsCollide(h, Parents(xs), Parents(zs));
        }
      }
    }
  }

  lemma LeafIsNoParent(value: Bytes, level: seq<Hash>, i: nat)
    requires 2 * i < |level|
    ensures Leaf(value) != Parent(level, i)
  {
    assert Parent(level, i)[0] == LIST_BRANCH_NODE;
  }

  lemma {:induction false} LowerRootBinds(h: HashFunction, xs: seq<Bytes>, ys: seq<Bytes>)
    returns (a: Bytes, b: Bytes)
    requires xs != [] && ys != [] && xs != ys && RootOf(h, xs) == RootOf(h, ys) && Depth(|xs|) <= Depth(|ys|)
    ensures a in RootInputs(h, xs) && b in RootInputs(h, ys) && Collide(h, a, b)
  {
    hide Up, Depth, NodeInputs, Root, Branch, SingleBranch;
    var low, high := HashAll(h, Leaves(xs)), HashAll(h, Leaves(ys));
    var found;
    found, a, b := TreesMeet(h, low, high);
    if !found {
      var k := Depth(|ys|) - Depth(|xs|);
      if k == 0 {
        assert low == high;
        LeavesBind(xs, ys);
        a, b := ElementsCollide(h, Leaves(xs), Leaves(ys));
      } else {
        var zs := Above(h, high, k - 1);
        AboveOneMore(h, high, k - 1);
        AboveIs(h, high, k - 1);
        UpAt(h, zs);
        a, b := Leaf(xs[0]), Parent(zs, 0);
        assert a == Leaves(xs)[0] && b == Parents(zs)[0] && low[0] == h(a);
        LeafIsNoParent(xs[0], zs, 0);
      }
    }
  }

  /** The root alone binds the values of nonempty lists, also of different lengths. */
  lemma RootOfBinds(h: HashFunction, xs: seq<Bytes>, ys: seq<Bytes>) returns (a: Bytes, b: Bytes)
    requires xs != [] && ys != [] && xs != ys && RootOf(h, xs) == RootOf(h, ys)
    ensures a in RootInputs(h, xs) && b in RootInputs(h, ys) && Collide(h, a, b)
  {
    if Depth(|xs|) <= Depth(|ys|) {
      a, b := LowerRootBinds(h, xs, ys);
    } else {
      b, a := LowerRootBinds(h, ys, xs);
    }
  }

  lemma {:induction false} LittleEndianBinds(v: nat, v': nat, w: nat)
    requires LittleEndian(v, w) == LittleEndian(v', w)
    ensures v % Base(w) == v' % Base(w)
  {
    if w > 0 {
      var b, b' := LittleEndian(v, w), LittleEndian(v', w);
      assert b[1..] == LittleEndian(v / 256, w - 1) && b'[1..] == LittleEndian(v' / 256, w - 1);
      assert b[0] == b'[0];
      LittleEndianBinds(v / 256, v' / 256, w - 1);
      SplitMod(v, Base(w - 1));
      SplitMod(v', Base(w - 1));
    }
  }

  lemma SplitMod(v: nat, m: nat)
    requires m > 0
    ensures v % (256 * m) == 256 * (v / 256 % m) + v % 256
  {
    var q, r := v / 256 / m, v / 256 % m;
    assert v / 256 == q * m + r;
    var rest := 256 * r + v % 256;
    assert v == q * (256 * m) + rest by {
      assert q * (256 * m) == 256 * (q * m);
    }
    RemainderIs(v, q, 256 * m, rest);
  }

  /**
   The hash of a list binds its elements and their order: two different lists with the same hash give two different byte
   strings, hashed for the one and the other list, with the same hash.
   */
  lemma HashListBinds(h: HashFunction, xs: seq<Bytes>, ys: seq<Bytes>) returns (a: Bytes, b: Bytes)
    requires |xs| < LENGTHS && |ys| < LENGTHS
    requires xs != ys && HashList(h, xs) == HashList(h, ys)
    ensures a in Inputs(h, xs) && b in Inputs(h, ys) && Collide(h, a, b)
  {
    a, b := ListNode(|xs|, RootOf(h, xs)), ListNode(|ys|, RootOf(h, ys));
    if a == b {
      ListNodeBinds(|xs|, RootOf(h, xs), |ys|, RootOf(h, ys));
      LeavesBind(xs, ys);
      if HashAll(h, Leaves(xs)) == HashAll(h, Leaves(ys)) {
        a, b := ElementsCollide(h, Leaves(xs), Leaves(ys));
      } else {
        a, b := RootBinds(h, HashAll(h, Leaves(xs)), HashAll(h, Leaves(ys)));
      }
    }
  }

  lemma LeavesBind(xs: seq<Bytes>, ys: seq<Bytes>)
    requires |xs| == |ys| && xs != ys
    ensures Leaves(xs) != Leaves(ys)
  {
    var i := DifferAt(xs, ys);
    assert Leaves(xs)[i][1..] == xs[i] && Leaves(ys)[i][1..] == ys[i];
  }

  lemma ListNodeBinds(n: nat, r: Hash, n': nat, r': Hash)
    requires n < LENGTHS && n' < LENGTHS && ListNode(n, r) == ListNode(n', r')
    ensures n == n' && r == r'
  {
    var a, b := ListNode(n, r), ListNode(n', r');
    assert a[1..1 + LENGTH_SIZE] == LittleEndian(n, LENGTH_SIZE);
    assert b[1..1 + LENGTH_SIZE] == LittleEndian(n', LENGTH_SIZE);
    assert a[1 + LENGTH_SIZE..] == r && b[1 + LENGTH_SIZE..] == r';
    LittleEndianBinds(n, n', LENGTH_SIZE);
    EightBytes();
  }

  lemma EightBytes()
    ensures Base(LENGTH_SIZE) == LENGTHS
  {
    assert Base(2) == 0x1_0000;
    assert Base(4) == 0x1_0000_0000;
    assert Base(6) == 0x1_0000_0000_0000;
  }

  function Encoded<T>(encode: T -> Bytes, values: seq<T>): seq<Bytes> {
    seq(|values|, i requires 0 <= i < |values| => encode(values[i]))
  }

  /** The same for lists of values whose encoding is injective. */
  lemma EncodedListBinds<T>(h: HashFunction, encode: T -> Bytes, xs: seq<T>, ys: seq<T>) returns (a: Bytes, b: Bytes)
    requires |xs| < LENGTHS && |ys| < LENGTHS
    requires forall x, y :: x in xs && y in ys && encode(x) == encode(y) ==> x == y
    requires xs != ys && HashList(h, Encoded(encode, xs)) == HashList(h, Encoded(encode, ys))
    ensures a in Inputs(h, Encoded(encode, xs)) && b in Inputs(h, Encoded(encode, ys)) && Collide(h, a, b)
  {
    if |xs| == |ys| {
      var i := DifferAt(xs, ys);
      assert Encoded(encode, xs)[i] == encode(xs[i]) && Encoded(encode, ys)[i] == encode(ys[i]);
    }
    a, b := HashListBinds(h, Encoded(encode, xs), Encoded(encode, ys));
  }
}
