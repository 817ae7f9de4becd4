/** The Anubis block cipher: one routine encrypts and decrypts, because each layer of a
    round is its own inverse. */
module Anubis {
  import opened AnubisTables
  import opened Involutions

  // ----- bytes

  function Xor(a: bv8, b: bv8): bv8 {
    a ^ b
  }

  const BYTES: Base<bv8> := Base(Xor, 0, Mul2)

  lemma {:induction false} Mul2Xor(a: bv8, b: bv8)
    ensures Mul2(Xor(a, b)) == Xor(Mul2(a), Mul2(b))
  {
  }

  lemma {:induction false} XorAssociates(a: bv8, b: bv8, c: bv8)
    ensures Xor(Xor(a, b), c) == Xor(a, Xor(b, c))
  {
  }

  lemma {:induction false} XorRegroup(a: bv8, b: bv8, c: bv8, d: bv8)
    ensures Xor(Xor(a, b), Xor(c, d)) == Xor(Xor(a, c), Xor(b, d))
  {
    XorAssociates(a, b, Xor(c, d));
    XorAssociates(b, c, d);
    XorLaws(b, c);
    XorAssociates(c, b, d);
    XorAssociates(a, c, Xor(b, d));
  }

  lemma {:induction false} XorLaws(a: bv8, b: bv8)
    ensures Xor(a, b) == Xor(b, a) && Xor(Xor(a, b), b) == a
    ensures (a == b ==> Xor(a, b) == 0) && (b == 0 ==> Xor(a, b) == a)
  {
  }

  lemma {:induction false} BytesRegroup()
    ensures Regroups(BYTES)
  {
    forall a: bv8, b: bv8, c: bv8, d: bv8
      ensures BYTES.add(BYTES.add(a, b), BYTES.add(c, d)) == BYTES.add(BYTES.add(a, c), BYTES.add(b, d))
    {
      XorRegroup(a, b, c, d);
    }
  }

  lemma {:induction false} BytesCancel()
    ensures Cancels(BYTES)
  {
    forall a: bv8, b: bv8
      ensures BYTES.add(a, b) == BYTES.add(b, a) && BYTES.add(BYTES.add(a, b), b) == a
      ensures a == b ==> BYTES.add(a, b) == BYTES.zero
      ensures b == BYTES.zero ==> BYTES.add(a, b) == a
    {
      XorLaws(a, b);
    }
  }

  lemma {:induction false} BytesDouble()
    ensures Doubles(BYTES)
  {
    forall a: bv8, b: bv8 ensures BYTES.twice(BYTES.add(a, b)) == BYTES.add(BYTES.twice(a), BYTES.twice(b)) {
      Mul2Xor(a, b);
    }
  }

  lemma {:induction false} BytesLawful()
    ensures LawfulBase(BYTES)
  {
    BytesRegroup();
    BytesCancel();
    BytesDouble();
  }

  const ROWS: Space<bv8> := Hadamard(BYTES)

  // ----- words and their bytes

  function Bytes(w: bv32): Vec<bv8> {
    Vec(B0(w), B1(w), B2(w), B3(w))
  }

  lemma {:induction false} PackedBytes(a: bv8, b: bv8, c: bv8, d: bv8)
    ensures B0(Pack(a, b, c, d)) == a && B1(Pack(a, b, c, d)) == b
    ensures B2(Pack(a, b, c, d)) == c && B3(Pack(a, b, c, d)) == d
  {
  }

  function XorWord(u: bv32, v: bv32): bv32 {
    u ^ v
  }

  lemma {:induction false} BytesXor(u: bv32, v: bv32)
    ensures Bytes(XorWord(u, v)) == Plus(ROWS, Bytes(u), Bytes(v))
  {
  }

  /** Each byte from another word. */
  function Masked(a: bv32, b: bv32, c: bv32, d: bv32): bv32 {
    (a & 0xff000000) ^ (b & 0x00ff0000) ^ (c & 0x0000ff00) ^ (d & 0x000000ff)
  }

  lemma {:induction false} MaskedBytes(a: bv32, b: bv32, c: bv32, d: bv32)
    ensures Bytes(Masked(a, b, c, d)) == Vec(B0(a), B1(b), B2(c), B3(d))
  {
  }

  // ----- the tables

  /** T0 to T5, and the S-box they are made of. */
  datatype Tables = Tables(t0: bv8 -> bv32, t1: bv8 -> bv32, t2: bv8 -> bv32, t3: bv8 -> bv32,
                           t4: bv8 -> bv32, t5: bv8 -> bv32, s: bv8 -> bv8)

  const TABLES := Tables(T0, T1, T2, T3, T4, T5, S)

  /** The table holds column `j` of the matrix times the S-box. */
  ghost predicate HoldsColumn(t: bv8 -> bv32, s: bv8 -> bv8, j: nat)
    requires j < 4
  {
    forall x :: Bytes(t(x)) == Column(ROWS, j, s(x))
  }

  ghost predicate ColumnsHold(t: Tables) {
    HoldsColumn(t.t0, t.s, 0) && HoldsColumn(t.t1, t.s, 1) && HoldsColumn(t.t2, t.s, 2) && HoldsColumn(t.t3, t.s, 3)
  }

  ghost predicate SboxHolds(s: bv8 -> bv8) {
    forall x :: s(s(x)) == x
  }

  ghost predicate HoldsCopies(t: bv8 -> bv32, s: bv8 -> bv8) {
    forall x :: Bytes(t(x)) == Vec(s(x), s(x), s(x), s(x))
  }

  ghost predicate HoldsMultiples(t: bv8 -> bv32) {
    forall x :: Bytes(t(x)) == Vec(x, Mul2(x), Mul6(x), Mul8(x))
  }

  ghost predicate TablesHold(t: Tables) {
    ColumnsHold(t) && SboxHolds(t.s) && HoldsCopies(t.t4, t.s) && HoldsMultiples(t.t5)
  }

  lemma {:induction false} ColumnsAre(x: bv8)
    ensures Column(ROWS, 0, x) == Vec(x, Mul2(x), Mul4(x), Mul6(x))
    ensures Column(ROWS, 1, x) == Vec(Mul2(x), x, Mul6(x), Mul4(x))
    ensures Column(ROWS, 2, x) == Vec(Mul4(x), Mul6(x), x, Mul2(x))
    ensures Column(ROWS, 3, x) == Vec(Mul6(x), Mul4(x), Mul2(x), x)
  {
  }

  lemma {:induction false} T0Right()
    ensures HoldsColumn(T0, S, 0)
  {
    forall x: bv8 ensures Bytes(T0(x)) == Column(ROWS, 0, S(x)) {
      T0Holds(x);
      ColumnsAre(S(x));
      PackedBytes(S(x), Mul2(S(x)), Mul4(S(x)), Mul6(S(x)));
    }
  }

  lemma {:induction false} T1Right()
    ensures HoldsColumn(T1, S, 1)
  {
    forall x: bv8 ensures Bytes(T1(x)) == Column(ROWS, 1, S(x)) {
      T1Holds(x);
      ColumnsAre(S(x));
      PackedBytes(Mul2(S(x)), S(x), Mul6(S(x)), Mul4(S(x)));
    }
  }

  lemma {:induction false} T2Right()
    ensures HoldsColumn(T2, S, 2)
  {
    forall x: bv8 ensures Bytes(T2(x)) == Column(ROWS, 2, S(x)) {
      T2Holds(x);
      ColumnsAre(S(x));
      PackedBytes(Mul4(S(x)), Mul6(S(x)), S(x), Mul2(S(x)));
    }
  }

  lemma {:induction false} T3Right()
    ensures HoldsColumn(T3, S, 3)
  {
    forall x: bv8 ensures Bytes(T3(x)) == Column(ROWS, 3, S(x)) {
      T3Holds(x);
      ColumnsAre(S(x));
      PackedBytes(Mul6(S(x)), Mul4(S(x)), Mul2(S(x)), S(x));
    }
  }

  lemma {:induction false} T4Right()
    ensures HoldsCopies(T4, S)
  {
    forall x: bv8 ensures Bytes(T4(x)) == Vec(S(x), S(x), S(x), S(x)) {
      T4Holds(x);
      PackedBytes(S(x), S(x), S(x), S(x));
    }
  }

  lemma {:induction false} T5Right()
    ensures HoldsMultiples(T5)
  {
    forall x: bv8 ensures Bytes(T5(x)) == Vec(x, Mul2(x), Mul6(x), Mul8(x)) {
      T5Holds(x);
      PackedBytes(x, Mul2(x), Mul6(x), Mul8(x));
    }
  }

  lemma {:induction false} SboxRight()
    ensures SboxHolds(S)
  {
    forall x: bv8 ensures S(S(x)) == x {
      SboxInvolution(x);
    }
  }

  /** T0 to T3 are the columns of the diffusion matrix times the S-box, T4 is four copies of
      it, T5 the multiples for the key schedule, and the S-box is its own inverse. */
  lemma {:induction false} TablesAreRight()
    ensures TablesHold(TABLES)
  {
    T0Right();
    T1Right();
    T2Right();
    T3Right();
    T4Right();
    T5Right();
    SboxRight();
  }
}
