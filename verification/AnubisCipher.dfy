/** anubis_setkey and anubis_crypt on 32-bit words, and what they compute on bytes. */
module AnubisCipher {
  import opened Anubis
  import opened AnubisTables
  import opened Involutions

  /** A state or a round key: four words. */
  type Words = Vec<bv32>

  function Unpack(w: Words): Square<bv8> {
    Vec(Bytes(w.a), Bytes(w.b), Bytes(w.c), Bytes(w.d))
  }

  function CipherOf(t: Tables): Cipher<Square<bv8>> {
    SquareCipher(ROWS, t.s)
  }

  lemma {:induction false} CipherLawful(t: Tables)
    requires SboxHolds(t.s)
    ensures Lawful(CipherOf(t))
  {
    BytesLawful();
    HadamardLawful(BYTES);
    SquareCipherLawful(ROWS, t.s);
  }

  // ----- the rounds, by table lookup

  function Four(a: bv32, b: bv32, c: bv32, d: bv32): bv32 {
    a ^ b ^ c ^ d
  }

  function Added(a: bv32, b: bv32, c: bv32, d: bv32, k: bv32): bv32 {
    XorWord(Four(a, b, c, d), k)
  }

  /** One word of a full round. */
  function RoundWord(t: Tables, w: bv8, x: bv8, y: bv8, z: bv8, k: bv32): bv32 {
    Added(t.t0(w), t.t1(x), t.t2(y), t.t3(z), k)
  }

  /** One word of the last round. */
  function LastWord(t: Tables, w: bv8, x: bv8, y: bv8, z: bv8, k: bv32): bv32 {
    XorWord(Masked(t.t0(w), t.t1(x), t.t2(y), t.t3(z)), k)
  }

  lemma {:induction false} FourB0(a: bv32, b: bv32, c: bv32, d: bv32)
    ensures B0(Four(a, b, c, d)) == Xor(Xor(B0(a), B0(b)), Xor(B0(c), B0(d)))
  {
  }

  lemma {:induction false} FourB1(a: bv32, b: bv32, c: bv32, d: bv32)
    ensures B1(Four(a, b, c, d)) == Xor(Xor(B1(a), B1(b)), Xor(B1(c), B1(d)))
  {
  }

  lemma {:induction false} FourB2(a: bv32, b: bv32, c: bv32, d: bv32)
    ensures B2(Four(a, b, c, d)) == Xor(Xor(B2(a), B2(b)), Xor(B2(c), B2(d)))
  {
  }

  lemma {:induction false} FourB3(a: bv32, b: bv32, c: bv32, d: bv32)
    ensures B3(Four(a, b, c, d)) == Xor(Xor(B3(a), B3(b)), Xor(B3(c), B3(d)))
  {
  }

  /** The bytes of five words added up. */
  lemma {:induction false} FiveBytes(a: bv32, b: bv32, c: bv32, d: bv32, k: bv32)
    ensures Bytes(Added(a, b, c, d, k))
         == Plus(ROWS, Plus(ROWS, Plus(ROWS, Bytes(a), Bytes(b)), Plus(ROWS, Bytes(c), Bytes(d))), Bytes(k))
  {
    FourB0(a, b, c, d);
    FourB1(a, b, c, d);
    FourB2(a, b, c, d);
    FourB3(a, b, c, d);
    BytesXor(Four(a, b, c, d), k);
  }

  lemma {:induction false} AddColumns(v: Vec<bv8>, a: bv32, b: bv32, c: bv32, d: bv32, k: bv32)
    requires Bytes(a) == Column(ROWS, 0, v.a) && Bytes(b) == Column(ROWS, 1, v.b)
    requires Bytes(c) == Column(ROWS, 2, v.c) && Bytes(d) == Column(ROWS, 3, v.d)
    ensures Bytes(Added(a, b, c, d, k)) == Plus(ROWS, Diffuse(ROWS, v), Bytes(k))
  {
    FiveBytes(a, b, c, d, k);
    FiveColumns(ROWS, v, Bytes(a), Bytes(b), Bytes(c), Bytes(d), Bytes(k), Bytes(Added(a, b, c, d, k)));
  }

  lemma {:induction false} RoundWordIs(t: Tables, w: bv8, x: bv8, y: bv8, z: bv8, k: bv32)
    requires ColumnsHold(t)
    ensures Bytes(RoundWord(t, w, x, y, z, k))
         == Plus(ROWS, Diffuse(ROWS, Vec(t.s(w), t.s(x), t.s(y), t.s(z))), Bytes(k))
  {
    AddColumns(Vec(t.s(w), t.s(x), t.s(y), t.s(z)), t.t0(w), t.t1(x), t.t2(y), t.t3(z), k);
  }

  lemma {:induction false} LastWordIs(t: Tables, w: bv8, x: bv8, y: bv8, z: bv8, k: bv32)
    requires ColumnsHold(t)
    ensures Bytes(LastWord(t, w, x, y, z, k)) == Plus(ROWS, Vec(t.s(w), t.s(x), t.s(y), t.s(z)), Bytes(k))
  {
    MaskedBytes(t.t0(w), t.t1(x), t.t2(y), t.t3(z));
    Diagonals(t, w, x, y, z);
    BytesXor(Masked(t.t0(w), t.t1(x), t.t2(y), t.t3(z)), k);
  }

  lemma {:induction false} Diagonals(t: Tables, w: bv8, x: bv8, y: bv8, z: bv8)
    requires ColumnsHold(t)
    ensures B0(t.t0(w)) == t.s(w) && B1(t.t1(x)) == t.s(x) && B2(t.t2(y)) == t.s(y) && B3(t.t3(z)) == t.s(z)
  {
    ColumnsAre(t.s(w));
    ColumnsAre(t.s(x));
    ColumnsAre(t.s(y));
    ColumnsAre(t.s(z));
    assert Bytes(t.t0(w)).a == t.s(w) && Bytes(t.t1(x)).b == t.s(x);
    assert Bytes(t.t2(y)).c == t.s(y) && Bytes(t.t3(z)).d == t.s(z);
  }

  function FullRound(t: Tables, q: Words, k: Words): Words {
    Vec(RoundWord(t, B0(q.a), B0(q.b), B0(q.c), B0(q.d), k.a),
        RoundWord(t, B1(q.a), B1(q.b), B1(q.c), B1(q.d), k.b),
        RoundWord(t, B2(q.a), B2(q.b), B2(q.c), B2(q.d), k.c),
        RoundWord(t, B3(q.a), B3(q.b), B3(q.c), B3(q.d), k.d))
  }

  function LastRound(t: Tables, q: Words, k: Words): Words {
    Vec(LastWord(t, B0(q.a), B0(q.b), B0(q.c), B0(q.d), k.a),
        LastWord(t, B1(q.a), B1(q.b), B1(q.c), B1(q.d), k.b),
        LastWord(t, B2(q.a), B2(q.b), B2(q.c), B2(q.d), k.c),
        LastWord(t, B3(q.a), B3(q.b), B3(q.c), B3(q.d), k.d))
  }

  /** A round by table lookup is substitution, transposition, diffusion and key addition. */
  lemma {:induction false} FullRoundIs(t: Tables, q: Words, k: Words)
    requires ColumnsHold(t)
    ensures var c := CipherOf(t);
            Unpack(FullRound(t, q, k)) == c.add(c.theta(c.g(Unpack(q))), Unpack(k))
  {
    RoundWordIs(t, B0(q.a), B0(q.b), B0(q.c), B0(q.d), k.a);
    RoundWordIs(t, B1(q.a), B1(q.b), B1(q.c), B1(q.d), k.b);
    RoundWordIs(t, B2(q.a), B2(q.b), B2(q.c), B2(q.d), k.c);
    RoundWordIs(t, B3(q.a), B3(q.b), B3(q.c), B3(q.d), k.d);
  }

  lemma {:induction false} LastRoundIs(t: Tables, q: Words, k: Words)
    requires ColumnsHold(t)
    ensures var c := CipherOf(t);
            Unpack(LastRound(t, q, k)) == c.add(c.g(Unpack(q)), Unpack(k))
  {
    LastWordIs(t, B0(q.a), B0(q.b), B0(q.c), B0(q.d), k.a);
    LastWordIs(t, B1(q.a), B1(q.b), B1(q.c), B1(q.d), k.b);
    LastWordIs(t, B2(q.a), B2(q.b), B2(q.c), B2(q.d), k.c);
    LastWordIs(t, B3(q.a), B3(q.b), B3(q.c), B3(q.d), k.d);
  }

  // ----- blocks

  function LoadSquare(b: seq<bv8>): Square<bv8>
    requires |b| == 16
  {
    Vec(Vec(b[0], b[1], b[2], b[3]), Vec(b[4], b[5], b[6], b[7]),
        Vec(b[8], b[9], b[10], b[11]), Vec(b[12], b[13], b[14], b[15]))
  }

  function StoreRow(v: Vec<bv8>): seq<bv8> {
    [v.a, v.b, v.c, v.d]
  }

  function StoreSquare(q: Square<bv8>): (b: seq<bv8>)
    ensures |b| == 16
  {
    StoreRow(q.a) + StoreRow(q.b) + StoreRow(q.c) + StoreRow(q.d)
  }

  lemma {:induction false} LoadStore(q: Square<bv8>)
    ensures LoadSquare(StoreSquare(q)) == q
  {
  }

  lemma {:induction false} StoreLoad(b: seq<bv8>)
    requires |b| == 16
    ensures StoreSquare(LoadSquare(b)) == b
  {
  }

  /** be32_to_cpu of the four bytes from `i`. */
  function LoadWord(b: seq<bv8>, i: nat): bv32
    requires i + 4 <= |b|
  {
    Pack(b[i], b[i + 1], b[i + 2], b[i + 3])
  }

  lemma {:induction false} LoadWordIs(b: seq<bv8>, i: nat)
    requires i + 4 <= |b|
    ensures Bytes(LoadWord(b, i)) == Vec(b[i], b[i + 1], b[i + 2], b[i + 3])
  {
    PackedBytes(b[i], b[i + 1], b[i + 2], b[i + 3]);
  }

  function XorWords(u: Words, v: Words): Words {
    Vec(XorWord(u.a, v.a), XorWord(u.b, v.b), XorWord(u.c, v.c), XorWord(u.d, v.d))
  }

  lemma {:induction false} XorWordsIs(t: Tables, u: Words, v: Words)
    ensures Unpack(XorWords(u, v)) == CipherOf(t).add(Unpack(u), Unpack(v))
  {
    BytesXor(u.a, v.a);
    BytesXor(u.b, v.b);
    BytesXor(u.c, v.c);
    BytesXor(u.d, v.d);
  }

  function UnpackAll(keys: seq<Words>): (r: seq<Square<bv8>>)
    ensures |r| == |keys|
  {
    seq(|keys|, i requires 0 <= i < |keys| => Unpack(keys[i]))
  }

  /** The rounds on words are those of cipher `c` on what `u` unpacks the words to. */
  ghost predicate Implements<S>(c: Cipher<S>, u: Words -> S, t: Tables) {
    && (forall q, k {:trigger XorWords(q, k)} :: u(XorWords(q, k)) == c.add(u(q), u(k)))
    && (forall q, k {:trigger FullRound(t, q, k)} :: u(FullRound(t, q, k)) == c.add(c.theta(c.g(u(q))), u(k)))
    && (forall q, k {:trigger LastRound(t, q, k)} :: u(LastRound(t, q, k)) == c.add(c.g(u(q)), u(k)))
  }

  lemma {:induction false} TablesImplement(t: Tables)
    requires ColumnsHold(t)
    ensures Implements(CipherOf(t), Unpack, t)
  {
    var c := CipherOf(t);
    forall q, k ensures Unpack(XorWords(q, k)) == c.add(Unpack(q), Unpack(k)) {
      XorWordsIs(t, q, k);
    }
    forall q, k ensures Unpack(FullRound(t, q, k)) == c.add(c.theta(c.g(Unpack(q))), Unpack(k)) {
      FullRoundIs(t, q, k);
    }
    forall q, k ensures Unpack(LastRound(t, q, k)) == c.add(c.g(Unpack(q)), Unpack(k)) {
      LastRoundIs(t, q, k);
    }
  }

  /** The block mapped to words. */
  method LoadBlock(src: seq<bv8>) returns (block: Words)
    requires |src| == 16
    ensures Unpack(block) == LoadSquare(src)
  {
    block := Vec(LoadWord(src, 0), LoadWord(src, 4), LoadWord(src, 8), LoadWord(src, 12));
    LoadWordIs(src, 0);
    LoadWordIs(src, 4);
    LoadWordIs(src, 8);
    LoadWordIs(src, 12);
  }

  method AddKey<S>(ghost c: Cipher<S>, ghost u: Words -> S, t: Tables, block: Words, k: Words) returns (state: Words)
    requires Implements(c, u, t)
    ensures u(state) == c.add(u(block), u(k))
  {
    state := XorWords(block, k);
  }

  method DoRound<S>(ghost c: Cipher<S>, ghost u: Words -> S, t: Tables, state: Words, k: Words) returns (inter: Words)
    requires Implements(c, u, t)
    ensures u(inter) == c.add(c.theta(c.g(u(state))), u(k))
  {
    inter := FullRound(t, state, k);
  }

  method DoLastRound<S>(ghost c: Cipher<S>, ghost u: Words -> S, t: Tables, state: Words, k: Words)
    returns (inter: Words)
    requires Implements(c, u, t)
    ensures u(inter) == c.add(c.g(u(state)), u(k))
  {
    inter := LastRound(t, state, k);
  }

  /** anubis_crypt on words; `ks` are the unpacked keys. */
  method CryptWords<S>(ghost c: Cipher<S>, ghost u: Words -> S, t: Tables, keys: seq<Words>, ghost ks: seq<S>,
                       block: Words)
    returns (inter: Words)
    requires Implements(c, u, t)
    requires |keys| == |ks| >= 2 && forall i :: 0 <= i < |keys| ==> ks[i] == u(keys[i])
    ensures u(inter) == Crypt(c, ks, u(block))
  {
    var state := AddKey(c, u, t, block, keys[0]);
    var R, r := |keys| - 1, 1;
    while r < R
      invariant 1 <= r <= R && u(state) == Rounds(c, ks, u(block), r - 1)
    {
      state := DoRound(c, u, t, state, keys[r]);
      r := r + 1;
    }
    inter := DoLastRound(c, u, t, state, keys[R]);
  }

  /** anubis_crypt. */
  method CryptBlock(ghost c: Cipher<Square<bv8>>, t: Tables, keys: seq<Words>, src: seq<bv8>) returns (dst: seq<bv8>)
    requires Implements(c, Unpack, t) && |keys| >= 2 && |src| == 16
    ensures dst == StoreSquare(Crypt(c, UnpackAll(keys), LoadSquare(src)))
  {
    var block := LoadBlock(src);
    var inter := CryptWords(c, Unpack, t, keys, UnpackAll(keys), block);
    dst := StoreSquare(Unpack(inter));
  }
}
