/** Quotients and remainders. */
module Division {

  lemma RemainderIs(v: int, q: int, m: nat, r: nat)
    requires v == q * m + r && r < m
    ensures v % m == r
  {
    var q', r' := v / m, v % m;
    assert (q - q') * m == r' - r;
    NoMultiple(q - q', m, r' - r);
  }

  lemma QuotientIs(v: int, q: int, m: nat, r: nat)
    requires v == q * m + r && r < m
    ensures v / m == q
  {
    RemainderIs(v, q, m, r);
    var q' := v / m;
    assert (q - q') * m == 0;
    if q != q' {
      Times(q - q', m);
    }
  }

  lemma Times(d: int, m: nat)
    requires d != 0 && m > 0
    ensures d * m != 0
  {
  }

  lemma NoMultiple(d: int, m: nat, r: int)
    requires d * m == r && -(m as int) < r < m
    ensures r == 0
  {
  }
}
