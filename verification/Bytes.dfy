/** Byte strings and their lexicographic order, in which a proper prefix comes first. */
module ByteStrings {

  newtype byte = x: int | 0 <= x < 256

  type Bytes = seq<byte>

  predicate Below(a: Bytes, b: Bytes) {
    b != [] && (a == [] || a[0] < b[0] || (a[0] == b[0] && Below(a[1..], b[1..])))
  }

  lemma {:induction false} BelowIsStrict(a: Bytes, b: Bytes)
    requires Below(a, b)
    ensures !Below(b, a) && a != b
  {
    if a != [] && a[0] == b[0] {
      BelowIsStrict(a[1..], b[1..]);
    }
  }

  lemma {:induction false} BelowIsTotal(a: Bytes, b: Bytes)
    ensures Below(a, b) || a == b || Below(b, a)
  {
    if a != [] && b != [] && a[0] == b[0] {
      BelowIsTotal(a[1..], b[1..]);
      assert a == [a[0]] + a[1..] && b == [b[0]] + b[1..];
    }
  }

  lemma {:induction false} BelowIsTransitive(a: Bytes, b: Bytes, c: Bytes)
    requires Below(a, b) && Below(b, c)
    ensures Below(a, c)
  {
    if a != [] && a[0] == b[0] == c[0] {
      BelowIsTransitive(a[1..], b[1..], c[1..]);
    }
  }

  /** `Below` is a strict total order. */
  lemma BelowIsOrder()
    ensures forall a, b :: Below(a, b) ==> !Below(b, a) && a != b
    ensures forall a, b :: Below(a, b) || a == b || Below(b, a)
    ensures forall a, b, c :: Below(a, b) && Below(b, c) ==> Below(a, c)
  {
    forall a, b | Below(a, b) ensures !Below(b, a) && a != b {
      BelowIsStrict(a, b);
    }
    forall a, b ensures Below(a, b) || a == b || Below(b, a) {
      BelowIsTotal(a, b);
    }
    forall a, b, c | Below(a, b) && Below(b, c) ensures Below(a, c) {
      BelowIsTransitive(a, b, c);
    }
  }

  /** The first byte in which two strings differ decides, and a proper prefix comes first. */
  lemma {:induction false} BelowIsLexicographic(p: Bytes, x: byte, y: byte, s: Bytes, t: Bytes)
    ensures Below(p, p + [x] + s)
    ensures x < y ==> Below(p + [x] + s, p + [y] + t)
  {
    if p != [] {
      BelowIsLexicographic(p[1..], x, y, s, t);
      assert (p + [x] + s)[1..] == p[1..] + [x] + s && (p + [y] + t)[1..] == p[1..] + [y] + t;
    }
  }

  /** The number of values of a width in bytes. */
  function Base(w: nat): nat
    ensures Base(w) > 0 && (w > 0 ==> Base(w) % 2 == 0)
  {
    if w == 0 then 1 else 256 * Base(w - 1)
  }
}
