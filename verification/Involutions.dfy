/** The algebra behind a cipher whose layers are their own inverses: a matrix over a
    vector space, the transposition of a square, and rounds made of them. */
module Involutions {

  datatype Vec<+T> = Vec(a: T, b: T, c: T, d: T)

  // ----- a cipher built from involutions

  /** The nonlinear layer with its transposition, the diffusion layer, and key addition. */
  datatype Cipher<!W> = Cipher(g: W -> W, theta: W -> W, add: (W, W) -> W)

  ghost predicate Lawful<W(!new)>(c: Cipher<W>) {
    && (forall a :: c.g(c.g(a)) == a)
    && (forall a :: c.theta(c.theta(a)) == a)
    && (forall a, b :: c.theta(c.add(a, b)) == c.add(c.theta(a), c.theta(b)))
    && (forall a, b :: c.add(c.add(a, b), b) == a)
  }

  /** The state after the first key addition and `r` full rounds. */
  function Rounds<W>(c: Cipher<W>, keys: seq<W>, a: W, r: nat): W
    requires r < |keys|
  {
    if r == 0 then c.add(a, keys[0]) else c.add(c.theta(c.g(Rounds(c, keys, a, r - 1))), keys[r])
  }

  /** The last round has no diffusion. */
  function Crypt<W>(c: Cipher<W>, keys: seq<W>, a: W): W
    requires |keys| >= 2
  {
    c.add(c.g(Rounds(c, keys, a, |keys| - 2)), keys[|keys| - 1])
  }

  /** `d` holds the keys in reverse order, diffused except for the first and the last. */
  ghost predicate Reverses<W(!new)>(c: Cipher<W>, keys: seq<W>, d: seq<W>) {
    && |d| == |keys| >= 2
    && d[0] == keys[|keys| - 1] && d[|keys| - 1] == keys[0]
    && forall i, j :: 0 < i < |keys| - 1 && j == |keys| - 1 - i ==> d[i] == c.theta(keys[j])
  }

  lemma {:induction false} MeetOnce<W(!new)>(c: Cipher<W>, p: W, k: W)
    requires Lawful(c)
    ensures c.add(c.theta(c.g(c.g(c.add(c.theta(p), k)))), c.theta(k)) == p
  {
    var s := c.add(c.theta(p), k);
    assert c.g(c.g(s)) == s;
    assert c.theta(s) == c.add(c.theta(c.theta(p)), c.theta(k));
    assert c.add(c.add(p, c.theta(k)), c.theta(k)) == p;
  }

  /** Decryption meets the states of encryption in reverse. */
  lemma {:induction false} RoundsMeet<W(!new)>(c: Cipher<W>, keys: seq<W>, d: seq<W>, a: W, r: nat)
    requires Lawful(c) && Reverses(c, keys, d) && r < |keys| - 1
    ensures Rounds(c, d, Crypt(c, keys, a), r) == c.g(Rounds(c, keys, a, |keys| - 2 - r))
  {
    var n := |keys| - 1;
    if r > 0 {
      RoundsMeet(c, keys, d, a, r - 1);
      assert d[r] == c.theta(keys[n - r]);
      MeetOnce(c, c.g(Rounds(c, keys, a, n - r - 1)), keys[n - r]);
    }
  }

  /** The same routine with the reversed keys undoes it. */
  lemma {:induction false} CryptInverse<W(!new)>(c: Cipher<W>, keys: seq<W>, d: seq<W>, a: W)
    requires Lawful(c) && Reverses(c, keys, d)
    ensures Crypt(c, d, Crypt(c, keys, a)) == a
  {
    RoundsMeet(c, keys, d, a, |keys| - 2);
  }

  // ----- the diffusion matrix

  /** Addition, and multiplication by the four entries of the matrix. */
  datatype Space<!B> = Space(add: (B, B) -> B, zero: B, times: (nat, B) -> B)

  /** Which entry stands in row `i`, column `j`: the exclusive or of the two. */
  function Entry(i: nat, j: nat): (k: nat)
    requires i < 4 && j < 4
    ensures k < 4
  {
    if i == j then 0 else if i + j == 1 || i + j == 5 then 1 else if i + j == 3 then 3 else 2
  }

  function Sum<B>(s: Space<B>, v: Vec<B>): B {
    s.add(s.add(v.a, v.b), s.add(v.c, v.d))
  }

  function Plus<B>(s: Space<B>, u: Vec<B>, v: Vec<B>): Vec<B> {
    Vec(s.add(u.a, v.a), s.add(u.b, v.b), s.add(u.c, v.c), s.add(u.d, v.d))
  }

  /** The products of row `i` with the elements of `v`. */
  function Products<B>(s: Space<B>, i: nat, v: Vec<B>): Vec<B>
    requires i < 4
  {
    Vec(s.times(Entry(i, 0), v.a), s.times(Entry(i, 1), v.b), s.times(Entry(i, 2), v.c), s.times(Entry(i, 3), v.d))
  }

  /** The matrix times `v`. */
  function Diffuse<B>(s: Space<B>, v: Vec<B>): Vec<B> {
    Vec(Sum(s, Products(s, 0, v)), Sum(s, Products(s, 1, v)), Sum(s, Products(s, 2, v)), Sum(s, Products(s, 3, v)))
  }

  /** Column `j` of the matrix times `x`. */
  function Column<B>(s: Space<B>, j: nat, x: B): Vec<B>
    requires j < 4
  {
    Vec(s.times(Entry(0, j), x), s.times(Entry(1, j), x), s.times(Entry(2, j), x), s.times(Entry(3, j), x))
  }

  /** Names the places where four sums may be regrouped. */
  predicate Regroup<B>(a: B, b: B, c: B, d: B) {
    true
  }

  /** The laws of the space; the last says that the matrix is its own inverse. */
  ghost predicate LawfulSpace<B(!new)>(s: Space<B>) {
    && (forall a, b, c, d {:trigger Regroup(a, b, c, d)} ::
          s.add(s.add(a, b), s.add(c, d)) == s.add(s.add(a, c), s.add(b, d)))
    && (forall x :: s.add(x, s.zero) == x && s.add(s.zero, x) == x)
    && (forall x, y :: s.add(s.add(x, y), y) == x)
    && (forall k, x, y :: k < 4 ==> s.times(k, s.add(x, y)) == s.add(s.times(k, x), s.times(k, y)))
    && (forall i, j, x {:trigger Products(s, i, Column(s, j, x))} :: i < 4 && j < 4 ==>
          Sum(s, Products(s, i, Column(s, j, x))) == if i == j then x else s.zero)
  }

  lemma {:induction false} SumPlus<B(!new)>(s: Space<B>, u: Vec<B>, v: Vec<B>)
    requires LawfulSpace(s)
    ensures Sum(s, Plus(s, u, v)) == s.add(Sum(s, u), Sum(s, v))
  {
    assert Regroup(u.a, v.a, u.b, v.b) && Regroup(u.c, v.c, u.d, v.d);
    assert Regroup(s.add(u.a, u.b), s.add(v.a, v.b), s.add(u.c, u.d), s.add(v.c, v.d));
  }

  lemma {:induction false} ProductsPlus<B(!new)>(s: Space<B>, i: nat, u: Vec<B>, v: Vec<B>)
    requires LawfulSpace(s) && i < 4
    ensures Products(s, i, Plus(s, u, v)) == Plus(s, Products(s, i, u), Products(s, i, v))
  {
  }

  /** Diffusion respects addition. */
  lemma {:induction false} DiffusePlus<B(!new)>(s: Space<B>, u: Vec<B>, v: Vec<B>)
    requires LawfulSpace(s)
    ensures Diffuse(s, Plus(s, u, v)) == Plus(s, Diffuse(s, u), Diffuse(s, v))
  {
    DiffusePlusAt(s, 0, u, v);
    DiffusePlusAt(s, 1, u, v);
    DiffusePlusAt(s, 2, u, v);
    DiffusePlusAt(s, 3, u, v);
  }

  lemma {:induction false} DiffusePlusAt<B(!new)>(s: Space<B>, i: nat, u: Vec<B>, v: Vec<B>)
    requires LawfulSpace(s) && i < 4
    ensures Sum(s, Products(s, i, Plus(s, u, v))) == s.add(Sum(s, Products(s, i, u)), Sum(s, Products(s, i, v)))
  {
    ProductsPlus(s, i, u, v);
    SumPlus(s, Products(s, i, u), Products(s, i, v));
  }

  function Scaled<B>(s: Space<B>, k: nat, v: Vec<B>): Vec<B> {
    Vec(s.times(k, v.a), s.times(k, v.b), s.times(k, v.c), s.times(k, v.d))
  }

  lemma {:induction false} TimesSum<B(!new)>(s: Space<B>, k: nat, v: Vec<B>)
    requires LawfulSpace(s) && k < 4
    ensures s.times(k, Sum(s, v)) == Sum(s, Scaled(s, k, v))
  {
  }

  /** Four sums can be added row by row or column by column. */
  lemma {:induction false} SumOfSums<B(!new)>(s: Space<B>, p: Vec<B>, q: Vec<B>, r: Vec<B>, t: Vec<B>)
    requires LawfulSpace(s)
    ensures Sum(s, Vec(Sum(s, p), Sum(s, q), Sum(s, r), Sum(s, t)))
         == Sum(s, Vec(Sum(s, Vec(p.a, q.a, r.a, t.a)), Sum(s, Vec(p.b, q.b, r.b, t.b)),
                       Sum(s, Vec(p.c, q.c, r.c, t.c)), Sum(s, Vec(p.d, q.d, r.d, t.d))))
  {
    SumPlus(s, p, q);
    SumPlus(s, r, t);
    SumPlus(s, Plus(s, p, q), Plus(s, r, t));
  }

  /** Row `i` of the matrix times the product of the matrix and `v`, regrouped by the elements of `v`. */
  lemma {:induction false} DiffuseTwiceAt<B(!new)>(s: Space<B>, i: nat, v: Vec<B>)
    requires LawfulSpace(s) && i < 4
    ensures Sum(s, Products(s, i, Diffuse(s, v)))
         == Sum(s, Vec(Sum(s, Products(s, i, Column(s, 0, v.a))), Sum(s, Products(s, i, Column(s, 1, v.b))),
                       Sum(s, Products(s, i, Column(s, 2, v.c))), Sum(s, Products(s, i, Column(s, 3, v.d)))))
  {
    TimesSum(s, Entry(i, 0), Products(s, 0, v));
    TimesSum(s, Entry(i, 1), Products(s, 1, v));
    TimesSum(s, Entry(i, 2), Products(s, 2, v));
    TimesSum(s, Entry(i, 3), Products(s, 3, v));
    SumOfSums(s, Scaled(s, Entry(i, 0), Products(s, 0, v)), Scaled(s, Entry(i, 1), Products(s, 1, v)),
              Scaled(s, Entry(i, 2), Products(s, 2, v)), Scaled(s, Entry(i, 3), Products(s, 3, v)));
  }

  /** Diffusion is an involution. */
  lemma {:induction false} DiffuseInvolution<B(!new)>(s: Space<B>, v: Vec<B>)
    requires LawfulSpace(s)
    ensures Diffuse(s, Diffuse(s, v)) == v
  {
    DiffuseTwiceAt(s, 0, v);
    DiffuseTwiceAt(s, 1, v);
    DiffuseTwiceAt(s, 2, v);
    DiffuseTwiceAt(s, 3, v);
  }

  // ----- the Hadamard matrix had(1, 2, 4, 6)

  /** Addition in which every element is its own negative, and multiplication by two. */
  datatype Base<!B> = Base(add: (B, B) -> B, zero: B, twice: B -> B)

  ghost predicate Regroups<B(!new)>(f: Base<B>) {
    forall a, b, c, d {:trigger Regroup(a, b, c, d)} ::
      f.add(f.add(a, b), f.add(c, d)) == f.add(f.add(a, c), f.add(b, d))
  }

  /** Names the places where two summands may be swapped or cancelled. */
  predicate Swap<B>(a: B, b: B) {
    true
  }

  ghost predicate Cancels<B(!new)>(f: Base<B>) {
    forall x, y {:trigger Swap(x, y)} ::
      && f.add(x, y) == f.add(y, x)
      && f.add(f.add(x, y), y) == x
      && (x == y ==> f.add(x, y) == f.zero)
      && (y == f.zero ==> f.add(x, y) == x)
  }

  /** Names the places where a sum may be doubled. */
  predicate Double<B>(a: B, b: B) {
    true
  }

  ghost predicate Doubles<B(!new)>(f: Base<B>) {
    forall x, y {:trigger Double(x, y)} :: f.twice(f.add(x, y)) == f.add(f.twice(x), f.twice(y))
  }

  ghost predicate LawfulBase<B(!new)>(f: Base<B>) {
    Regroups(f) && Cancels(f) && Doubles(f)
  }

  /** Multiplication by 1, 2, 4 and 6. */
  function Multiple<B>(f: Base<B>, k: nat, x: B): B {
    if k == 0 then x
    else if k == 1 then f.twice(x)
    else if k == 2 then f.twice(f.twice(x))
    else f.add(f.twice(f.twice(x)), f.twice(x))
  }

  function Hadamard<B>(f: Base<B>): Space<B> {
    Space(f.add, f.zero, (k: nat, x: B) => Multiple(f, k, x))
  }

  lemma {:induction false} MultiplePlus<B(!new)>(f: Base<B>, k: nat, x: B, y: B)
    requires LawfulBase(f)
    ensures Multiple(f, k, f.add(x, y)) == f.add(Multiple(f, k, x), Multiple(f, k, y))
  {
    assert Double(x, y) && Double(f.twice(x), f.twice(y));
    assert Regroup(f.twice(f.twice(x)), f.twice(f.twice(y)), f.twice(x), f.twice(y));
  }

  /** Six times six is sixteen plus four. */
  lemma {:induction false} SixSquared<B(!new)>(f: Base<B>, x: B)
    requires LawfulBase(f)
    ensures Multiple(f, 3, Multiple(f, 3, x)) == f.add(f.twice(f.twice(f.twice(f.twice(x)))), f.twice(f.twice(x)))
  {
    var y := f.twice(x);
    var z := f.twice(y);
    var t, u := f.twice(z), f.twice(f.twice(z));
    assert Double(z, y) && Double(t, z);
    assert Multiple(f, 3, Multiple(f, 3, x)) == f.add(f.add(u, t), f.add(t, z));
    assert Swap(t, z) && Regroup(u, t, z, t) && Swap(t, t) && Swap(f.add(u, z), f.zero);
  }

  /** The products of two entries other than one. */
  lemma {:induction false} TwoEntries<B(!new)>(f: Base<B>, x: B)
    requires LawfulBase(f)
    ensures var y := f.twice(x);
            var z := f.twice(y);
            var t, u := f.twice(z), f.twice(f.twice(z));
            && Multiple(f, 1, Multiple(f, 1, x)) == z && Multiple(f, 2, Multiple(f, 2, x)) == u
            && Multiple(f, 3, Multiple(f, 3, x)) == f.add(u, z)
            && Multiple(f, 1, Multiple(f, 2, x)) == t && Multiple(f, 2, Multiple(f, 1, x)) == t
            && Multiple(f, 1, Multiple(f, 3, x)) == f.add(t, z) && Multiple(f, 3, Multiple(f, 1, x)) == f.add(t, z)
            && Multiple(f, 2, Multiple(f, 3, x)) == f.add(u, t) && Multiple(f, 3, Multiple(f, 2, x)) == f.add(u, t)
  {
    SixSquared(f, x);
    var y := f.twice(x);
    var z := f.twice(y);
    assert Double(z, y) && Double(f.twice(z), z);
  }

  /** Sums of four in which everything or all but one element cancels. */
  lemma {:induction false} FourCancel<B(!new)>(f: Base<B>, x: B, a: B, b: B)
    requires LawfulBase(f)
    ensures f.add(f.add(a, a), f.add(b, b)) == f.zero
    ensures f.add(f.add(a, b), f.add(a, b)) == f.zero
    ensures f.add(f.add(a, b), f.add(b, a)) == f.zero
    ensures f.add(f.add(x, a), f.add(b, f.add(b, a))) == x && f.add(f.add(a, x), f.add(f.add(b, a), b)) == x
    ensures f.add(f.add(b, f.add(b, a)), f.add(x, a)) == x && f.add(f.add(f.add(b, a), b), f.add(a, x)) == x
  {
    assert Swap(a, a) && Swap(b, b) && Swap(f.zero, f.zero);
    assert Swap(a, b) && Swap(f.add(a, b), f.add(a, b));
    assert Swap(b, f.add(b, a)) && Swap(x, a) && Swap(a, f.add(x, a));
  }

  /** The matrix is its own inverse. */
  lemma {:induction false} HadamardInverse<B(!new)>(f: Base<B>, i: nat, j: nat, x: B)
    requires LawfulBase(f) && i < 4 && j < 4
    ensures Sum(Hadamard(f), Products(Hadamard(f), i, Column(Hadamard(f), j, x))) == if i == j then x else f.zero
  {
    var y := f.twice(x);
    var z := f.twice(y);
    var t, u := f.twice(z), f.twice(f.twice(z));
    TwoEntries(f, x);
    FourCancel(f, x, z, u);
    FourCancel(f, x, y, f.add(u, t));
    FourCancel(f, x, f.add(u, t), y);
    FourCancel(f, x, z, f.add(t, z));
    FourCancel(f, x, f.add(t, z), z);
    FourCancel(f, x, f.add(z, y), t);
    FourCancel(f, x, t, f.add(z, y));
  }

  lemma {:induction false} HadamardLawful<B(!new)>(f: Base<B>)
    requires LawfulBase(f)
    ensures LawfulSpace(Hadamard(f))
  {
    var s := Hadamard(f);
    forall a, b, c, d ensures s.add(s.add(a, b), s.add(c, d)) == s.add(s.add(a, c), s.add(b, d)) {
      assert Regroup(a, b, c, d);
    }
    forall x ensures s.add(s.zero, x) == x && s.add(x, s.zero) == x {
      assert Swap(x, s.zero);
    }
    forall x, y ensures s.add(s.add(x, y), y) == x {
      assert Swap(x, y);
    }
    forall k: nat, x, y | k < 4 ensures s.times(k, s.add(x, y)) == s.add(s.times(k, x), s.times(k, y)) {
      MultiplePlus(f, k, x, y);
    }
    forall i: nat, j: nat, x | i < 4 && j < 4
      ensures Sum(s, Products(s, i, Column(s, j, x))) == if i == j then x else s.zero
    {
      HadamardInverse(f, i, j, x);
    }
  }

  /** The matrix times `v` is the sum of its columns, each times an element of `v`. */
  lemma {:induction false} DiffuseColumns<B>(s: Space<B>, v: Vec<B>)
    ensures Diffuse(s, v) == Plus(s, Plus(s, Column(s, 0, v.a), Column(s, 1, v.b)),
                                     Plus(s, Column(s, 2, v.c), Column(s, 3, v.d)))
  {
  }

  lemma {:induction false} FiveColumns<B>(s: Space<B>, v: Vec<B>, p: Vec<B>, q: Vec<B>, r: Vec<B>, t: Vec<B>, k: Vec<B>, five: Vec<B>)
    requires p == Column(s, 0, v.a) && q == Column(s, 1, v.b) && r == Column(s, 2, v.c) && t == Column(s, 3, v.d)
    requires five == Plus(s, Plus(s, Plus(s, p, q), Plus(s, r, t)), k)
    ensures five == Plus(s, Diffuse(s, v), k)
  {
    DiffuseColumns(s, v);
  }

  // ----- squares

  type Square<B> = Vec<Vec<B>>

  function Transposed<B>(q: Square<B>): Square<B> {
    Vec(Vec(q.a.a, q.b.a, q.c.a, q.d.a), Vec(q.a.b, q.b.b, q.c.b, q.d.b),
        Vec(q.a.c, q.b.c, q.c.c, q.d.c), Vec(q.a.d, q.b.d, q.c.d, q.d.d))
  }

  function Map<B>(f: B -> B, v: Vec<B>): Vec<B> {
    Vec(f(v.a), f(v.b), f(v.c), f(v.d))
  }

  /** Every element substituted, then the square transposed. */
  function Substituted<B>(f: B -> B, q: Square<B>): Square<B> {
    Transposed(Vec(Map(f, q.a), Map(f, q.b), Map(f, q.c), Map(f, q.d)))
  }

  function DiffuseRows<B>(s: Space<B>, q: Square<B>): Square<B> {
    Vec(Diffuse(s, q.a), Diffuse(s, q.b), Diffuse(s, q.c), Diffuse(s, q.d))
  }

  function AddRows<B>(s: Space<B>, q: Square<B>, r: Square<B>): Square<B> {
    Vec(Plus(s, q.a, r.a), Plus(s, q.b, r.b), Plus(s, q.c, r.c), Plus(s, q.d, r.d))
  }

  /** Substitution, transposition and diffusion on squares. */
  function SquareCipher<B>(s: Space<B>, f: B -> B): Cipher<Square<B>> {
    Cipher((q: Square<B>) => Substituted(f, q), (q: Square<B>) => DiffuseRows(s, q),
           (q: Square<B>, r: Square<B>) => AddRows(s, q, r))
  }

  /** If the substitution is an involution and the matrix its own inverse, the cipher is lawful. */
  lemma {:induction false} SquareCipherLawful<B(!new)>(s: Space<B>, f: B -> B)
    requires LawfulSpace(s) && forall x :: f(f(x)) == x
    ensures Lawful(SquareCipher(s, f))
  {
    forall q: Square<B> ensures DiffuseRows(s, DiffuseRows(s, q)) == q {
      DiffuseInvolution(s, q.a);
      DiffuseInvolution(s, q.b);
      DiffuseInvolution(s, q.c);
      DiffuseInvolution(s, q.d);
    }
    forall q: Square<B>, r: Square<B>
      ensures DiffuseRows(s, AddRows(s, q, r)) == AddRows(s, DiffuseRows(s, q), DiffuseRows(s, r))
    {
      DiffusePlus(s, q.a, r.a);
      DiffusePlus(s, q.b, r.b);
      DiffusePlus(s, q.c, r.c);
      DiffusePlus(s, q.d, r.d);
    }
    forall q: Square<B>, r: Square<B> ensures AddRows(s, AddRows(s, q, r), r) == q {
    }
  }

  // ----- polynomials

  /** A polynomial at the point `m`, from the constant coefficient up, by Horner's rule. */
  function Horner<B>(add: (B, B) -> B, m: B -> B, xs: seq<B>): B
    requires xs != []
  {
    if |xs| == 1 then xs[0] else add(xs[0], m(Horner(add, m, xs[1..])))
  }

  function Power<B>(m: B -> B, k: nat, x: B): B {
    if k == 0 then x else m(Power(m, k - 1, x))
  }

  /** The sum of the coefficients, each times a power of `m`, starting with the `k`-th. */
  function PowerSum<B>(add: (B, B) -> B, m: B -> B, xs: seq<B>, k: nat): B
    requires xs != []
  {
    if |xs| == 1 then Power(m, k, xs[0]) else add(Power(m, k, xs[0]), PowerSum(add, m, xs[1..], k + 1))
  }

  ghost predicate Additive<B(!new)>(add: (B, B) -> B, m: B -> B) {
    forall x, y :: m(add(x, y)) == add(m(x), m(y))
  }

  lemma {:induction false} NextPower<B(!new)>(add: (B, B) -> B, m: B -> B, xs: seq<B>, k: nat)
    requires Additive(add, m) && xs != []
    ensures m(PowerSum(add, m, xs, k)) == PowerSum(add, m, xs, k + 1)
    decreases |xs|
  {
    if |xs| > 1 { NextPower(add, m, xs[1..], k + 1); }
  }

  /** Horner's rule computes the sum of powers: a row of a Vandermonde matrix times the coefficients. */
  lemma {:induction false} HornerIsPowerSum<B(!new)>(add: (B, B) -> B, m: B -> B, xs: seq<B>)
    requires Additive(add, m) && xs != []
    ensures Horner(add, m, xs) == PowerSum(add, m, xs, 0)
  {
    if |xs| > 1 {
      HornerIsPowerSum(add, m, xs[1..]);
      NextPower(add, m, xs[1..], 0);
    }
  }
}
