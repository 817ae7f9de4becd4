/** The Anubis key schedule: round keys by Vandermonde selection from an evolving key
    state, and the reversed, diffused schedule for decryption. */
module AnubisKey {
  import opened Anubis
  import opened AnubisCipher
  import opened AnubisTables
  import opened Involutions

  // ----- selection of a round key

  /** The polynomial with coefficients `xs` at the points 1, 2, 6 and 8. */
  function KeyRow(xs: seq<bv8>): Vec<bv8>
    requires xs != []
  {
    Vec(Horner(Xor, (x: bv8) => x, xs), Horner(Xor, Mul2, xs), Horner(Xor, Mul6, xs), Horner(Xor, Mul8, xs))
  }

  function MapBytes<B>(s: B -> B, bs: seq<B>): (r: seq<B>)
    ensures |r| == |bs|
  {
    seq(|bs|, i requires 0 <= i < |bs| => s(bs[i]))
  }

  lemma {:induction false} MapTail<B>(s: B -> B, bs: seq<B>)
    requires bs != []
    ensures MapBytes(s, bs[1..]) == MapBytes(s, bs)[1..]
  {
  }

  /** The bytes of T5, each multiplied by its own point. */
  function Spread(t: Tables, k: bv32): bv32 {
    Masked(t.t5(B0(k)), t.t5(B1(k)), t.t5(B2(k)), t.t5(B3(k)))
  }

  lemma {:induction false} SpreadIs(t: Tables, k: bv32)
    requires HoldsMultiples(t.t5) == true
    ensures Bytes(Spread(t, k)) == Vec(B0(k), Mul2(B1(k)), Mul6(B2(k)), Mul8(B3(k)))
  {
    MaskedBytes(t.t5(B0(k)), t.t5(B1(k)), t.t5(B2(k)), t.t5(B3(k)));
    assert Bytes(t.t5(B0(k))).a == B0(k) && Bytes(t.t5(B1(k))).b == Mul2(B1(k));
    assert Bytes(t.t5(B2(k))).c == Mul6(B2(k)) && Bytes(t.t5(B3(k))).d == Mul8(B3(k));
  }

  /** One word of a round key, from one byte of every word of the key state. */
  function KeyWord(t: Tables, bs: seq<bv8>): bv32
    requires bs != []
  {
    if |bs| == 1 then t.t4(bs[0]) else XorWord(t.t4(bs[0]), Spread(t, KeyWord(t, bs[1..])))
  }

  lemma {:induction false} KeyWordStep(t: Tables, b: bv8, k: bv32)
    requires HoldsCopies(t.t4, t.s) == HoldsMultiples(t.t5) == true
    ensures Bytes(XorWord(t.t4(b), Spread(t, k)))
         == Vec(Xor(t.s(b), B0(k)), Xor(t.s(b), Mul2(B1(k))), Xor(t.s(b), Mul6(B2(k))), Xor(t.s(b), Mul8(B3(k))))
  {
    SpreadIs(t, k);
    BytesXor(t.t4(b), Spread(t, k));
  }

  lemma {:induction false} CopiesAt(t: Tables, b: bv8)
    requires HoldsCopies(t.t4, t.s) == true
    ensures Bytes(t.t4(b)) == Vec(t.s(b), t.s(b), t.s(b), t.s(b))
  {
  }

  lemma {:induction false} KeyRowStep(xs: seq<bv8>)
    requires xs != []
    ensures |xs| == 1 ==> KeyRow(xs) == Vec(xs[0], xs[0], xs[0], xs[0])
    ensures |xs| > 1 ==> var r := KeyRow(xs[1..]);
                         KeyRow(xs) == Vec(Xor(xs[0], r.a), Xor(xs[0], Mul2(r.b)), Xor(xs[0], Mul6(r.c)),
                                           Xor(xs[0], Mul8(r.d)))
  {
    if |xs| > 1 {
      assert Horner(Xor, (x: bv8) => x, xs) == Xor(xs[0], Horner(Xor, (x: bv8) => x, xs[1..]));
      assert Horner(Xor, Mul2, xs) == Xor(xs[0], Mul2(Horner(Xor, Mul2, xs[1..])));
      assert Horner(Xor, Mul6, xs) == Xor(xs[0], Mul6(Horner(Xor, Mul6, xs[1..])));
      assert Horner(Xor, Mul8, xs) == Xor(xs[0], Mul8(Horner(Xor, Mul8, xs[1..])));
    }
  }

  lemma {:induction false} KeyWordMore(t: Tables, b: bv8, k: bv32, xs: seq<bv8>)
    requires HoldsCopies(t.t4, t.s) == HoldsMultiples(t.t5) == true
    requires |xs| > 1 && xs[0] == t.s(b) && Bytes(k) == KeyRow(xs[1..])
    ensures Bytes(XorWord(t.t4(b), Spread(t, k))) == KeyRow(xs)
  {
    KeyRowStep(xs);
    KeyWordStep(t, b, k);
  }

  /** Horner's rule on words computes the four polynomials at once. */
  lemma {:induction false} KeyWordIs(t: Tables, bs: seq<bv8>)
    requires HoldsCopies(t.t4, t.s) == HoldsMultiples(t.t5) == true && bs != []
    ensures Bytes(KeyWord(t, bs)) == KeyRow(MapBytes(t.s, bs))
  {
    var xs := MapBytes(t.s, bs);
    assert xs[0] == t.s(bs[0]);
    if |bs| == 1 {
      CopiesAt(t, bs[0]);
      KeyRowStep(xs);
    } else {
      KeyWordIs(t, bs[1..]);
      MapTail(t.s, bs);
      KeyWordMore(t, bs[0], KeyWord(t, bs[1..]), xs);
    }
  }

  lemma {:induction false} MulIsMultiple(x: bv8)
    ensures Mul4(x) == Multiple(BYTES, 2, x) && Mul6(x) == Multiple(BYTES, 3, x)
  {
  }

  lemma {:induction false} Mul4Xor(x: bv8, y: bv8)
    ensures Mul4(Xor(x, y)) == Xor(Mul4(x), Mul4(y))
  {
    BytesLawful();
    MultiplePlus(BYTES, 2, x, y);
    MulIsMultiple(x);
    MulIsMultiple(y);
    MulIsMultiple(Xor(x, y));
  }

  lemma {:induction false} Mul6Xor(x: bv8, y: bv8)
    ensures Mul6(Xor(x, y)) == Xor(Mul6(x), Mul6(y))
  {
    BytesLawful();
    MultiplePlus(BYTES, 3, x, y);
    MulIsMultiple(x);
    MulIsMultiple(y);
    MulIsMultiple(Xor(x, y));
  }

  lemma {:induction false} Mul8Xor(x: bv8, y: bv8)
    ensures Mul8(Xor(x, y)) == Xor(Mul8(x), Mul8(y))
  {
    Mul4Xor(x, y);
    Mul2Xor(Mul4(x), Mul4(y));
  }

  lemma {:induction false} Mul2Additive()
    ensures Additive(Xor, Mul2)
  {
    forall x: bv8, y: bv8 ensures Mul2(Xor(x, y)) == Xor(Mul2(x), Mul2(y)) {
      Mul2Xor(x, y);
    }
  }

  lemma {:induction false} Mul6Additive()
    ensures Additive(Xor, Mul6)
  {
    forall x: bv8, y: bv8 ensures Mul6(Xor(x, y)) == Xor(Mul6(x), Mul6(y)) {
      Mul6Xor(x, y);
    }
  }

  lemma {:induction false} Mul8Additive()
    ensures Additive(Xor, Mul8)
  {
    forall x: bv8, y: bv8 ensures Mul8(Xor(x, y)) == Xor(Mul8(x), Mul8(y)) {
      Mul8Xor(x, y);
    }
  }

  /** A row of a round key is the coefficients times the Vandermonde matrix of 1, 2, 6 and 8. */
  lemma {:induction false} KeyRowIsVandermonde(xs: seq<bv8>)
    requires xs != []
    ensures KeyRow(xs) == Vec(PowerSum(Xor, (x: bv8) => x, xs, 0), PowerSum(Xor, Mul2, xs, 0),
                              PowerSum(Xor, Mul6, xs, 0), PowerSum(Xor, Mul8, xs, 0))
  {
    Mul2Additive();
    Mul6Additive();
    Mul8Additive();
    HornerIsPowerSum(Xor, (x: bv8) => x, xs);
    HornerIsPowerSum(Xor, Mul2, xs);
    HornerIsPowerSum(Xor, Mul6, xs);
    HornerIsPowerSum(Xor, Mul8, xs);
  }

  /** The same byte of every word. */
  function ColumnOf(b: bv32 -> bv8, kappa: seq<bv32>): (r: seq<bv8>)
    ensures |r| == |kappa|
  {
    seq(|kappa|, i requires 0 <= i < |kappa| => b(kappa[i]))
  }

  /** The round key selected from a key state. */
  function SelectedKey(s: bv8 -> bv8, kappa: seq<bv32>): Square<bv8>
    requires kappa != []
  {
    Vec(KeyRow(MapBytes(s, ColumnOf(B0, kappa))), KeyRow(MapBytes(s, ColumnOf(B1, kappa))),
        KeyRow(MapBytes(s, ColumnOf(B2, kappa))), KeyRow(MapBytes(s, ColumnOf(B3, kappa))))
  }

  /** The loop that computes one word of a round key. */
  method SelectWord(t: Tables, bs: seq<bv8>) returns (k: bv32)
    requires bs != []
    ensures k == KeyWord(t, bs)
  {
    var i := |bs| - 1;
    k := t.t4(bs[i]);
    assert bs[i..] == [bs[i]];
    while i > 0
      invariant 0 <= i < |bs| && k == KeyWord(t, bs[i..])
    {
      i := i - 1;
      assert bs[i..][1..] == bs[i + 1..];
      k := XorWord(t.t4(bs[i]), Spread(t, k));
    }
    assert bs[0..] == bs;
  }

  /** The four words of a round key. */
  function SelectedWords(t: Tables, kappa: seq<bv32>): Words
    requires kappa != []
  {
    Vec(KeyWord(t, ColumnOf(B0, kappa)), KeyWord(t, ColumnOf(B1, kappa)),
        KeyWord(t, ColumnOf(B2, kappa)), KeyWord(t, ColumnOf(B3, kappa)))
  }

  lemma {:induction false} SelectedWordsAre(t: Tables, kappa: seq<bv32>)
    requires HoldsCopies(t.t4, t.s) == HoldsMultiples(t.t5) == true && kappa != []
    ensures Unpack(SelectedWords(t, kappa)) == SelectedKey(t.s, kappa)
  {
    KeyWordIs(t, ColumnOf(B0, kappa));
    KeyWordIs(t, ColumnOf(B1, kappa));
    KeyWordIs(t, ColumnOf(B2, kappa));
    KeyWordIs(t, ColumnOf(B3, kappa));
  }

  method SelectKey(t: Tables, kappa: seq<bv32>) returns (k: Words)
    requires kappa != []
    ensures k == SelectedWords(t, kappa)
  {
    var k0 := SelectWord(t, ColumnOf(B0, kappa));
    var k1 := SelectWord(t, ColumnOf(B1, kappa));
    var k2 := SelectWord(t, ColumnOf(B2, kappa));
    var k3 := SelectWord(t, ColumnOf(B3, kappa));
    k := Vec(k0, k1, k2, k3);
  }

  // ----- evolution of the key state

  /** `k` places before `i`, cyclically. */
  function Back(i: nat, k: nat, n: nat): (j: nat)
    requires i < n && k <= n
    ensures j < n
  {
    if i >= k then i - k else i - k + n
  }

  /** Word `i` of the next key state: substituted, shifted cyclically, diffused; the
      round constant goes to the first word. */
  function EvolvedWord(t: Tables, kappa: seq<bv32>, i: nat, c: bv32): bv32
    requires |kappa| >= 4 && i < |kappa|
  {
    var n := |kappa|;
    RoundWord(t, B0(kappa[i]), B1(kappa[Back(i, 1, n)]), B2(kappa[Back(i, 2, n)]), B3(kappa[Back(i, 3, n)]), c)
  }

  function Evolved(t: Tables, kappa: seq<bv32>, c: bv32): (r: seq<bv32>)
    requires |kappa| >= 4
    ensures |r| == |kappa|
  {
    seq(|kappa|, i requires 0 <= i < |kappa| => EvolvedWord(t, kappa, i, if i == 0 then c else 0))
  }

  /** What evolution does to the bytes: the diffusion matrix again. */
  lemma {:induction false} EvolvedWordIs(t: Tables, kappa: seq<bv32>, i: nat, c: bv32)
    requires ColumnsHold(t) && |kappa| >= 4 && i < |kappa|
    ensures var n := |kappa|;
            Bytes(EvolvedWord(t, kappa, i, c))
            == Plus(ROWS, Diffuse(ROWS, Vec(t.s(B0(kappa[i])), t.s(B1(kappa[Back(i, 1, n)])),
                                            t.s(B2(kappa[Back(i, 2, n)])), t.s(B3(kappa[Back(i, 3, n)])))), Bytes(c))
  {
    var n := |kappa|;
    RoundWordIs(t, B0(kappa[i]), B1(kappa[Back(i, 1, n)]), B2(kappa[Back(i, 2, n)]), B3(kappa[Back(i, 3, n)]), c);
  }

  lemma {:induction false} XorZero(x: bv32, k: bv32)
    ensures XorWord(XorWord(x, 0), k) == XorWord(x, k)
  {
  }

  lemma {:induction false} AddedZero(a: bv32, b: bv32, c: bv32, d: bv32, k: bv32)
    ensures XorWord(Added(a, b, c, d, 0), k) == Added(a, b, c, d, k)
  {
    XorZero(Four(a, b, c, d), k);
  }

  /** The round constant is added to the first word. */
  lemma {:induction false} FirstEvolved(t: Tables, kappa: seq<bv32>, c: bv32)
    requires |kappa| >= 4
    ensures XorWord(EvolvedWord(t, kappa, 0, 0), c) == EvolvedWord(t, kappa, 0, c)
  {
    var n := |kappa|;
    AddedZero(t.t0(B0(kappa[0])), t.t1(B1(kappa[Back(0, 1, n)])), t.t2(B2(kappa[Back(0, 2, n)])),
              t.t3(B3(kappa[Back(0, 3, n)])), c);
  }

  /** The loop that computes the next key state. */
  method Evolve(t: Tables, kappa: seq<bv32>, c: bv32) returns (next: seq<bv32>)
    requires |kappa| >= 4
    ensures next == Evolved(t, kappa, c)
  {
    var n := |kappa|;
    next := [];
    for i := 0 to n
      invariant |next| == i && forall k :: 0 <= k < i ==> next[k] == EvolvedWord(t, kappa, k, 0)
    {
      var j := if i > 0 then i - 1 else n - 1;
      var k := if j > 0 then j - 1 else n - 1;
      var l := if k > 0 then k - 1 else n - 1;
      next := next + [Added(t.t0(B0(kappa[i])), t.t1(B1(kappa[j])), t.t2(B2(kappa[k])), t.t3(B3(kappa[l])), 0)];
    }
    FirstEvolved(t, kappa, c);
    next := next[0 := XorWord(next[0], c)];
    assert forall k :: 0 < k < n ==> next[k] == Evolved(t, kappa, c)[k];
  }

  // ----- the schedules

  predicate LegalLength(n: nat) {
    n == 16 || n == 20 || n == 24 || n == 28 || n == 32 || n == 36 || n == 40
  }

  /** 128 to 320 bits, in steps of 32. */
  lemma {:induction false} LegalLengths(n: nat)
    ensures LegalLength(n) <==> 16 <= n <= 40 && n % 4 == 0
  {
  }

  /** The key mapped to words. */
  function KeyWords(key: seq<bv8>): (r: seq<bv32>)
    requires LegalLength(|key|)
    ensures |r| == |key| / 4
  {
    seq(|key| / 4, i requires 0 <= i < |key| / 4 => LoadWord(key, 4 * i))
  }

  /** The key state `i` rounds after it was `kappa` in round `r`. */
  function KappaAfter(t: Tables, kappa: seq<bv32>, r: nat, i: nat): (k: seq<bv32>)
    requires |kappa| >= 4 && r + i <= |rc|
    ensures |k| == |kappa|
    decreases i
  {
    if i == 0 then kappa else KappaAfter(t, Evolved(t, kappa, rc[r]), r + 1, i - 1)
  }

  /** The round keys K^r to K^R, the key state in round `r` being `kappa`. */
  function RoundKeys(t: Tables, kappa: seq<bv32>, r: nat, R: nat): (k: seq<Words>)
    requires |kappa| >= 4 && r <= R <= |rc|
    ensures |k| == R - r + 1
    decreases R - r
  {
    [SelectedWords(t, kappa)] + if r == R then [] else RoundKeys(t, Evolved(t, kappa, rc[r]), r + 1, R)
  }

  /** K^0 to K^R of a key of N words, R = 8 + N. */
  function KeySchedule(t: Tables, kappa: seq<bv32>): (r: seq<Words>)
    requires 4 <= |kappa| <= 10
    ensures |r| == |kappa| + 9
  {
    RoundKeys(t, kappa, 0, 8 + |kappa|)
  }

  /** Each round key is selected from the key state of its round. */
  lemma {:induction false} RoundKeysAt(t: Tables, kappa: seq<bv32>, r: nat, R: nat, i: nat)
    requires |kappa| >= 4 && r + i <= R <= |rc|
    ensures RoundKeys(t, kappa, r, R)[i] == SelectedWords(t, KappaAfter(t, kappa, r, i))
    decreases i
  {
    if i > 0 {
      var next := Evolved(t, kappa, rc[r]);
      assert RoundKeys(t, kappa, r, R)[i] == RoundKeys(t, next, r + 1, R)[i - 1];
      RoundKeysAt(t, next, r + 1, R, i - 1);
    }
  }

  /** One word of the inverse schedule: the S-box is looked up and undone. */
  function InverseWord(t: Tables, v: bv32): bv32 {
    RoundWord(t, B3(t.t4(B0(v))), B3(t.t4(B1(v))), B3(t.t4(B2(v))), B3(t.t4(B3(v))), 0)
  }

  lemma {:induction false} LastCopy(t: Tables, b: bv8)
    requires HoldsCopies(t.t4, t.s) == true
    ensures B3(t.t4(b)) == t.s(b)
  {
    assert Bytes(t.t4(b)).d == t.s(b);
  }

  lemma {:induction false} AddNothing(v: Vec<bv8>)
    ensures Plus(ROWS, v, Bytes(0)) == v
  {
  }

  lemma {:induction false} InverseWordIs(t: Tables, v: bv32)
    requires TablesHold(t) == true
    ensures Bytes(InverseWord(t, v)) == Diffuse(ROWS, Bytes(v))
  {
    LastCopy(t, B0(v));
    LastCopy(t, B1(v));
    LastCopy(t, B2(v));
    LastCopy(t, B3(v));
    RoundWordIs(t, B3(t.t4(B0(v))), B3(t.t4(B1(v))), B3(t.t4(B2(v))), B3(t.t4(B3(v))), 0);
    AddNothing(Diffuse(ROWS, Bytes(v)));
  }

  function InverseKey(t: Tables, k: Words): Words {
    Vec(InverseWord(t, k.a), InverseWord(t, k.b), InverseWord(t, k.c), InverseWord(t, k.d))
  }

  /** The key of the inverse schedule is the diffused key. */
  ghost predicate InvertsKey(c: Cipher<Square<bv8>>, t: Tables, k: Words) {
    Unpack(InverseKey(t, k)) == c.theta(Unpack(k))
  }

  lemma {:induction false} InverseKeyIs(t: Tables, k: Words)
    requires TablesHold(t) == true
    ensures InvertsKey(CipherOf(t), t, k) == true
  {
    InverseWordIs(t, k.a);
    InverseWordIs(t, k.b);
    InverseWordIs(t, k.c);
    InverseWordIs(t, k.d);
  }

  /** The loops that fill ctx->E. */
  method ExpandKey(t: Tables, kappa0: seq<bv32>) returns (keys: seq<Words>)
    requires 4 <= |kappa0| <= 10
    ensures keys == KeySchedule(t, kappa0)
  {
    var R, r, kappa := 8 + |kappa0|, 0, kappa0;
    keys := [];
    while r < R
      invariant r <= R && |kappa| == |kappa0|
      invariant KeySchedule(t, kappa0) == keys + RoundKeys(t, kappa, r, R)
    {
      var k := SelectKey(t, kappa);
      keys := keys + [k];
      kappa := Evolve(t, kappa, rc[r]);
      r := r + 1;
    }
    var k := SelectKey(t, kappa);
    keys := keys + [k];
  }

  /** The table lookups of the inverse schedule diffuse a key as cipher `c` does. */
  ghost predicate Inverts(c: Cipher<Square<bv8>>, t: Tables) {
    forall k :: InvertsKey(c, t, k)
  }

  lemma {:induction false} TablesInvert(t: Tables)
    requires TablesHold(t) == true
    ensures Inverts(CipherOf(t), t) == true
  {
    var c := CipherOf(t);
    forall k ensures InvertsKey(c, t, k) == true {
      InverseKeyIs(t, k);
    }
  }

  /** The round keys of decryption: those of encryption in reverse, all but the outer
      two through the inverse of the linear layer. */
  function InverseSchedule(t: Tables, keys: seq<Words>): seq<Words> {
    var n := |keys|;
    seq(n, i requires 0 <= i < n => if 0 < i < n - 1 then InverseKey(t, keys[n - 1 - i]) else keys[n - 1 - i])
  }

  lemma {:induction false} ScheduleReverses(c: Cipher<Square<bv8>>, t: Tables, keys: seq<Words>)
    requires Inverts(c, t) && |keys| >= 2
    ensures Reverses(c, UnpackAll(keys), UnpackAll(InverseSchedule(t, keys)))
  {
    var R, d := |keys| - 1, InverseSchedule(t, keys);
    forall i, j | 0 < i < R && j == R - i ensures Unpack(d[i]) == c.theta(Unpack(keys[j])) {
      assert InvertsKey(c, t, keys[j]);
    }
  }

  /** The loops that fill ctx->D. */
  method InvertKeys(t: Tables, keys: seq<Words>) returns (d: seq<Words>)
    requires |keys| >= 2
    ensures d == InverseSchedule(t, keys)
  {
    var R := |keys| - 1;
    d := [keys[R]];
    for r := 1 to R
      invariant d == InverseSchedule(t, keys)[..r]
    {
      d := d + [InverseKey(t, keys[R - r])];
    }
    d := d + [keys[0]];
  }
}
