/** Keys of an index as byte strings whose lexicographic order is the order of the keys. */
module Keys {
  import opened ByteStrings
  import opened Division

  // ---- Unsigned integers of any width, big-endian

  function BigEndian(v: nat, w: nat): (b: Bytes)
    requires v < Base(w)
    ensures |b| == w
  {
    if w == 0 then [] else BigEndian(v / 256, w - 1) + [(v % 256) as byte]
  }

  function ReadUnsigned(b: Bytes): (v: nat)
    ensures v < Base(|b|)
  {
    if b == [] then 0 else 256 * ReadUnsigned(b[..|b| - 1]) + b[|b| - 1] as nat
  }

  lemma {:induction false} UnsignedRoundTrip(v: nat, w: nat)
    requires v < Base(w)
    ensures ReadUnsigned(BigEndian(v, w)) == v
  {
    if w > 0 {
      UnsignedRoundTrip(v / 256, w - 1);
      var b := BigEndian(v, w);
      assert b[..w - 1] == BigEndian(v / 256, w - 1);
    }
  }

  lemma {:induction false} BelowConcat(x: Bytes, y: Bytes, u: Bytes, v: Bytes)
    requires |x| == |y|
    ensures Below(x + u, y + v) <==> Below(x, y) || (x == y && Below(u, v))
  {
    if x == [] {
      assert x + u == u && y + v == v;
    } else {
      assert (x + u)[1..] == x[1..] + u && (y + v)[1..] == y[1..] + v;
      assert x == y <==> x[0] == y[0] && x[1..] == y[1..] by {
        assert x == [x[0]] + x[1..] && y == [y[0]] + y[1..];
      }
      BelowConcat(x[1..], y[1..], u, v);
    }
  }

  lemma {:induction false} UnsignedOrder(a: nat, b: nat, w: nat)
    requires a < Base(w) && b < Base(w)
    ensures Below(BigEndian(a, w), BigEndian(b, w)) <==> a < b
    decreases w
  {
    if w > 0 {
      UnsignedOrder(a / 256, b / 256, w - 1);
      UnsignedOrder(b / 256, a / 256, w - 1);
      var x, y := BigEndian(a / 256, w - 1), BigEndian(b / 256, w - 1);
      var u, v := [(a % 256) as byte], [(b % 256) as byte];
      BelowConcat(x, y, u, v);
      if x == y {
        UnsignedRoundTrip(a / 256, w - 1);
        UnsignedRoundTrip(b / 256, w - 1);
      }
      assert Below(u, v) <==> a % 256 < b % 256;
    }
  }

  // ---- Signed integers, offset to unsigned ones

  function Half(w: nat): nat { Base(w) / 2 }

  predicate Fits(x: int, w: nat) { -(Half(w) as int) <= x < Half(w) }

  /** Two's complement addition. */
  function WrappingAdd(x: int, y: int, w: nat): int { (x + y + Half(w)) % Base(w) - Half(w) }

  function AsUnsigned(x: int, w: nat): (v: nat)
    ensures v < Base(w)
  {
    x % Base(w)
  }

  function AsSigned(v: nat, w: nat): int { if v < Half(w) then v else v - Base(w) }

  function ToOffset(x: int, w: nat): (v: nat)
    ensures v < Base(w)
  {
    AsUnsigned(WrappingAdd(x, -(Half(w) as int), w), w)
  }

  function FromOffset(v: nat, w: nat): int { AsSigned(AsUnsigned(v - Half(w), w), w) }

  lemma ModIs(x: int, m: nat)
    requires m > 0 && -(m as int) <= x < m
    ensures x % m == if x >= 0 then x else x + m
  {
    if x >= 0 {
      RemainderIs(x, 0, m, x);
    } else {
      RemainderIs(x, -1, m, x + m);
    }
  }

  /** The wrapping sum with the least value, reinterpreted as unsigned, is the value plus half the range. */
  lemma OffsetAddsHalf(x: int, w: nat)
    requires w > 0 && Fits(x, w)
    ensures ToOffset(x, w) == x + Half(w)
    ensures FromOffset(x + Half(w), w) == x
  {
    var half: int := Half(w);
    var base: int := Base(w);
    assert base == 2 * half;
    ModIs(x, base);
    assert WrappingAdd(x, -half, w) == x % base - half;
    ModIs(x % base - half, base);
  }

  function SignedKey(x: int, w: nat): Bytes { BigEndian(ToOffset(x, w), w) }

  function ReadSigned(b: Bytes): int { FromOffset(ReadUnsigned(b), |b|) }

  lemma SignedRoundTrip(x: int, w: nat)
    requires w > 0 && Fits(x, w)
    ensures ReadSigned(SignedKey(x, w)) == x
  {
    OffsetAddsHalf(x, w);
    UnsignedRoundTrip(ToOffset(x, w), w);
  }

  lemma SignedOrder(x: int, y: int, w: nat)
    requires w > 0 && Fits(x, w) && Fits(y, w)
    ensures Below(SignedKey(x, w), SignedKey(y, w)) <==> x < y
  {
    OffsetAddsHalf(x, w);
    OffsetAddsHalf(y, w);
    UnsignedOrder(ToOffset(x, w), ToOffset(y, w), w);
  }

  // ---- Dates

  const SECONDS_SIZE := 8
  const NANOS_SIZE := 4

  /** Seconds since 1970-01-01 00:00:00 UTC, negative before, and nanoseconds. */
  datatype DateTime = DateTime(secs: int, nanos: nat) {
    predicate Valid() { Fits(secs, SECONDS_SIZE) && nanos < Base(NANOS_SIZE) }
  }

  function DateKey(t: DateTime): Bytes
    requires t.Valid()
  {
    SignedKey(t.secs, SECONDS_SIZE) + BigEndian(t.nanos, NANOS_SIZE)
  }

  function ReadDate(b: Bytes): DateTime
    requires |b| == SECONDS_SIZE + NANOS_SIZE
  {
    DateTime(ReadSigned(b[..SECONDS_SIZE]), ReadUnsigned(b[SECONDS_SIZE..]))
  }

  /** Seconds of 64 bits and nanoseconds of 32 bits, in a key of 12 bytes. */
  lemma DateBounds(t: DateTime)
    ensures t.Valid() <==> -0x8000_0000_0000_0000 <= t.secs < 0x8000_0000_0000_0000 && t.nanos < 0x1_0000_0000
    ensures t.Valid() ==> |DateKey(t)| == 12
  {
    assert Base(2) == 0x1_0000;
    assert Base(4) == 0x1_0000_0000;
    assert Base(6) == 0x1_0000_0000_0000;
    assert Base(8) == 0x1_0000_0000_0000_0000;
  }

  lemma DateRoundTrip(t: DateTime)
    requires t.Valid()
    ensures ReadDate(DateKey(t)) == t
  {
    hide Base, BigEndian, ReadUnsigned, ToOffset, FromOffset;
    SignedRoundTrip(t.secs, SECONDS_SIZE);
    UnsignedRoundTrip(t.nanos, NANOS_SIZE);
    var b := DateKey(t);
    assert b[..SECONDS_SIZE] == SignedKey(t.secs, SECONDS_SIZE) && b[SECONDS_SIZE..] == BigEndian(t.nanos, NANOS_SIZE);
  }

  /** Date keys are ordered by seconds first and nanoseconds second. */
  lemma DateOrder(s: DateTime, t: DateTime)
    requires s.Valid() && t.Valid()
    ensures Below(DateKey(s), DateKey(t)) <==> s.secs < t.secs || (s.secs == t.secs && s.nanos < t.nanos)
  {
    hide Base, BigEndian, ReadUnsigned, ToOffset, FromOffset, Below;
    BelowConcat(SignedKey(s.secs, SECONDS_SIZE), SignedKey(t.secs, SECONDS_SIZE),
                BigEndian(s.nanos, NANOS_SIZE), BigEndian(t.nanos, NANOS_SIZE));
    SignedOrder(s.secs, t.secs, SECONDS_SIZE);
    UnsignedOrder(s.nanos, t.nanos, NANOS_SIZE);
    SignedRoundTrip(s.secs, SECONDS_SIZE);
    SignedRoundTrip(t.secs, SECONDS_SIZE);
  }

  // ---- Writing into a buffer

  /** Writes an unsigned integer at an offset of a buffer, the least significant byte last. */
  method WriteUnsigned(v: nat, w: nat, buffer: array<byte>, from: nat)
    requires v < Base(w) && from + w <= buffer.Length
    modifies buffer
    ensures buffer[..] == old(buffer[..from]) + BigEndian(v, w) + old(buffer[from + w..])
  {
    var rest: nat := v;
    var i := w;
    while i > 0
      invariant 0 <= i <= w && rest < Base(i)
      invariant buffer[..from] == old(buffer[..from]) && buffer[from + w..] == old(buffer[from + w..])
      invariant BigEndian(rest, i) + buffer[from + i..from + w] == BigEndian(v, w)
    {
      i := i - 1;
      ghost var tail := buffer[from + i + 1..from + w];
      buffer[from + i] := (rest % 256) as byte;
      assert buffer[from + i..from + w] == [(rest % 256) as byte] + tail;
      rest := rest / 256;
    }
    assert buffer[..] == buffer[..from] + buffer[from..from + w] + buffer[from + w..];
  }

  method WriteDate(t: DateTime, buffer: array<byte>) returns (size: nat)
    requires t.Valid() && buffer.Length == SECONDS_SIZE + NANOS_SIZE
    modifies buffer
    ensures buffer[..] == DateKey(t) && size == buffer.Length
  {
    hide Base, BigEndian, ToOffset;
    WriteUnsigned(ToOffset(t.secs, SECONDS_SIZE), SECONDS_SIZE, buffer, 0);
    assert buffer[..SECONDS_SIZE] == SignedKey(t.secs, SECONDS_SIZE);
    WriteUnsigned(t.nanos, NANOS_SIZE, buffer, SECONDS_SIZE);
    return SECONDS_SIZE + NANOS_SIZE;
  }
}
