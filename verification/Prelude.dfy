/** The optional value and the result type every other module uses. */
module Prelude {
  datatype Option<+T> = None | Some(value: T)

  datatype Result<+T, +E> = Ok(value: T) | Err(error: E)

  function Max(a: int, b: int): int {
    if a < b then b else a
  }

  function Min(a: int, b: int): int {
    if a < b then a else b
  }
}

/** Facts about division by a positive divisor that the solver needs to be told. */
module Quotients {
  lemma TimesMonotone(a: int, b: int, r: int)
    requires r >= 0 && a <= b
    ensures r * a <= r * b
  {
    assert r * (b - a) >= 0;
    assert r * b - r * a == r * (b - a);
  }

  lemma Division(x: int, r: int)
    requires r >= 1
    ensures r * (x / r) <= x < r * (x / r) + r
  {
  }

  lemma QuotientIs(x: int, r: int, q: int)
    requires r >= 1 && r * q <= x < r * q + r
    ensures x / r == q
  {
    Division(x, r);
    if x / r > q {
      TimesMonotone(q + 1, x / r, r);
    } else if x / r < q {
      TimesMonotone(x / r + 1, q, r);
    }
  }

  lemma QuotientMonotone(x: int, y: int, r: int)
    requires r >= 1 && x <= y
    ensures x / r <= y / r
  {
    Division(x, r);
    Division(y, r);
    if x / r > y / r {
      TimesMonotone(y / r + 1, x / r, r);
    }
  }

  lemma OneDivisorLess(x: int, r: int)
    requires r >= 1
    ensures (x - r) / r == x / r - 1
  {
    Division(x, r);
    assert r * (x / r - 1) == r * (x / r) - r;
    QuotientIs(x - r, r, x / r - 1);
  }
}

/** Facts about sets and sequences that the solver needs to be told. */
module Collections {
  lemma {:induction false} SubsetSize<T>(a: set<T>, b: set<T>)
    requires a <= b
    ensures |a| <= |b| && (a != b ==> |a| < |b|)
  {
    if a != {} {
      var x :| x in a;
      SubsetSize(a - {x}, b - {x});
    }
  }

  lemma Regroup<T>(a: seq<T>, b: seq<T>, c: seq<T>)
    ensures a + b + c == a + (b + c)
  {
  }
}
