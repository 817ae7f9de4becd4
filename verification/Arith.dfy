/** The arithmetic of rates.  Products, quotients and remainders of two numbers
    that are both unknown are defined by repetition, so that everything built on
    them stays linear; the lemmas named ...Is say that they are what they should be. */
module Arith {

  /** a * b. */
  function Times(a: nat, b: nat): nat {
    if a == 0 then 0 else b + Times(a - 1, b)
  }

  /** a / b. */
  function Div(a: nat, b: nat): nat
    requires b > 0
  {
    if a < b then 0 else 1 + Div(a - b, b)
  }

  /** a % b: what is left of `a` in a word that holds `b` values. */
  function Wrap(a: nat, b: nat): (r: nat)
    requires b > 0
    ensures r < b && r <= a
  {
    if a < b then a else Wrap(a - b, b)
  }

  lemma {:induction false} TimesIs(a: nat, b: nat)
    ensures Times(a, b) == a * b
  {
    if a > 0 {
      TimesIs(a - 1, b);
      assert a * b == (a - 1) * b + b;
    }
  }

  lemma {:induction false} TimesLeIs(a: nat, b: nat, c: nat, d: nat)
    requires Times(a, b) <= Times(c, d)
    ensures a * b <= c * d
  {
    TimesIs(a, b);
    TimesIs(c, d);
  }

  lemma {:induction false} TimesComm(a: nat, b: nat)
    ensures Times(a, b) == Times(b, a)
  {
    TimesIs(a, b);
    TimesIs(b, a);
  }

  lemma {:induction false} TimesSum(a: nat, b: nat, c: nat)
    ensures Times(a + b, c) == Times(a, c) + Times(b, c)
  {
    if a > 0 { TimesSum(a - 1, b, c); }
  }

  lemma {:induction false} TimesLe(a: nat, b: nat, c: nat)
    requires a <= b
    ensures Times(a, c) <= Times(b, c)
  {
    TimesSum(a, b - a, c);
  }

  lemma {:induction false} DivBounds(a: nat, b: nat)
    requires b > 0
    ensures Times(Div(a, b), b) <= a < Times(Div(a, b), b) + b
  {
    if a >= b { DivBounds(a - b, b); }
  }

  /** Division rounds down: it is the largest quotient that fits. */
  lemma {:induction false} DivGe(a: nat, b: nat, k: nat)
    requires b > 0 && Times(k, b) <= a
    ensures k <= Div(a, b)
  {
    DivBounds(a, b);
    if k > Div(a, b) {
      TimesLe(Div(a, b) + 1, k, b);
    }
  }

  lemma {:induction false} DivLe(a: nat, b: nat, c: nat)
    requires b > 0 && a <= c
    ensures Div(a, b) <= Div(c, b)
  {
    DivBounds(a, b);
    DivGe(c, b, Div(a, b));
  }

  /** Rounding down twice loses at most one. */
  lemma {:induction false} DivSum(a: nat, b: nat, c: nat)
    requires c > 0
    ensures Div(a + b, c) <= Div(a, c) + Div(b, c) + 1
  {
    var q := Div(a, c) + Div(b, c) + 1;
    DivBounds(a, c);
    DivBounds(b, c);
    DivBounds(a + b, c);
    TimesSum(Div(a, c), Div(b, c), c);
    TimesSum(Div(a, c) + Div(b, c), 2, c);
    assert Times(2, c) == c + Times(1, c) && Times(1, c) == c + Times(0, c);
    if Div(a + b, c) > q { TimesLe(q + 1, Div(a + b, c), c); }
  }

  lemma {:induction false} WrapSum(a: nat, b: nat, c: nat)
    requires c > 0
    ensures Wrap(a + b, c) <= Wrap(a, c) + b
  {
    if a >= c { WrapSum(a - c, b, c); }
  }

  lemma {:induction false} DivIs(a: nat, b: nat)
    requires b > 0
    ensures Div(a, b) == a / b
  {
    var q, r := Div(a, b), a / b;
    TimesIs(q, b);
    TimesIs(r, b);
    TimesIs(r + 1, b);
    assert a == r * b + a % b;
    assert (r + 1) * b == r * b + b;
    DivGe(a, b, r);
    DivBounds(a, b);
    if q > r { TimesLe(r + 1, q, b); }
  }

  lemma {:induction false} DivShift(j: nat, c: nat, b: nat)
    requires b > 0
    ensures Div(Times(j, b) + c, b) == j + Div(c, b) && Wrap(Times(j, b) + c, b) == Wrap(c, b)
  {
    if j > 0 { DivShift(j - 1, c, b); }
  }

  lemma {:induction false} DivWrap(a: nat, b: nat)
    requires b > 0
    ensures a == Times(Div(a, b), b) + Wrap(a, b)
  {
    if a >= b { DivWrap(a - b, b); }
  }

  lemma {:induction false} WrapIs(a: nat, b: nat)
    requires b > 0
    ensures Wrap(a, b) == a - Times(Div(a, b), b) == a % b
  {
    if a >= b { WrapIs(a - b, b); }
    DivIs(a, b);
    TimesIs(Div(a, b), b);
  }
}
