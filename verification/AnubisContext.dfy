/** A keyed Anubis transform. */
module AnubisContext {
  import opened Anubis
  import opened AnubisCipher
  import opened AnubisKey
  import opened Involutions

  /** For every lawful cipher, the reversed keys take a block back. */
  lemma {:induction false} BlockInverse(c: Cipher<Square<bv8>>, keys: seq<Square<bv8>>, d: seq<Square<bv8>>, block: seq<bv8>)
    requires Lawful(c) && Reverses(c, keys, d) && |block| == 16
    ensures StoreSquare(Crypt(c, d, LoadSquare(StoreSquare(Crypt(c, keys, LoadSquare(block)))))) == block
  {
    LoadStore(Crypt(c, keys, LoadSquare(block)));
    CryptInverse(c, keys, d, LoadSquare(block));
    StoreLoad(block);
  }

  lemma {:induction false} TablesLawful()
    ensures TablesHold(TABLES) && Lawful(CipherOf(TABLES))
  {
    TablesAreRight();
    CipherLawful(TABLES);
  }

  /** For every key of a legal length and every block, decryption undoes encryption. */
  lemma {:induction false} DecryptUndoesEncrypt(key: seq<bv8>, block: seq<bv8>)
    requires LegalLength(|key|) && |block| == 16
    ensures var c, e := CipherOf(TABLES), KeySchedule(TABLES, KeyWords(key));
            var d := InverseSchedule(TABLES, e);
            StoreSquare(Crypt(c, UnpackAll(d), LoadSquare(StoreSquare(Crypt(c, UnpackAll(e), LoadSquare(block))))))
            == block
  {
    var c, e := CipherOf(TABLES), KeySchedule(TABLES, KeyWords(key));
    TablesLawful();
    TablesInvert(TABLES);
    ScheduleReverses(c, TABLES, e);
    BlockInverse(c, UnpackAll(e), UnpackAll(InverseSchedule(TABLES, e)), block);
  }

  /** The loop that maps the key to words. */
  method LoadKey(key: seq<bv8>) returns (kappa: seq<bv32>)
    requires LegalLength(|key|)
    ensures kappa == KeyWords(key)
  {
    kappa := [];
    for i := 0 to |key| / 4
      invariant |kappa| == i && forall k :: 0 <= k < i ==> kappa[k] == LoadWord(key, 4 * k)
    {
      kappa := kappa + [LoadWord(key, 4 * i)];
    }
  }

  method EncryptionKeys(t: Tables, key: seq<bv8>) returns (e: seq<Words>)
    requires LegalLength(|key|)
    ensures e == KeySchedule(t, KeyWords(key))
  {
    var kappa := LoadKey(key);
    e := ExpandKey(t, kappa);
  }

  /** struct anubis_ctx, with the tables it is used with. */
  class Context {
    const t: Tables
    var keyLen: nat
    var R: nat
    var E: seq<Words>
    var D: seq<Words>

    constructor (t: Tables)
      ensures this.t == t
    {
      this.t := t;
      keyLen, R, E, D := 0, 0, [], [];
    }

    /** A key has been set. */
    ghost predicate Ready(c: Cipher<Square<bv8>>)
      reads this
    {
      Implements(c, Unpack, t) && Inverts(c, t) && Reverses(c, UnpackAll(E), UnpackAll(D))
    }

    /** anubis_setkey: a key of an illegal length is refused and changes nothing. */
    method SetKey(ghost c: Cipher<Square<bv8>>, key: seq<bv8>) returns (ok: bool)
      requires Implements(c, Unpack, t) && Inverts(c, t)
      modifies this
      ensures ok == LegalLength(|key|)
      ensures !ok ==> E == old(E) && D == old(D) && R == old(R) && keyLen == old(keyLen)
      ensures ok ==> && keyLen == 8 * |key| && R == 8 + |key| / 4
                     && E == KeySchedule(t, KeyWords(key)) && D == InverseSchedule(t, E)
                     && Ready(c)
    {
      if !LegalLength(|key|) { return false; }
      var e := EncryptionKeys(t, key);
      var d := InvertKeys(t, e);
      ScheduleReverses(c, t, e);
      keyLen, R, E, D := |key| * 8, 8 + |key| / 4, e, d;
      ok := true;
    }

    method Encrypt(ghost c: Cipher<Square<bv8>>, src: seq<bv8>) returns (dst: seq<bv8>)
      requires Ready(c) && |src| == 16
      ensures dst == StoreSquare(Crypt(c, UnpackAll(E), LoadSquare(src)))
    {
      dst := CryptBlock(c, t, E, src);
    }

    method Decrypt(ghost c: Cipher<Square<bv8>>, src: seq<bv8>) returns (dst: seq<bv8>)
      requires Ready(c) && |src| == 16
      ensures dst == StoreSquare(Crypt(c, UnpackAll(D), LoadSquare(src)))
    {
      dst := CryptBlock(c, t, D, src);
    }
  }

  /** Set a key, encrypt, decrypt: the block is back. */
  method RoundTrip(key: seq<bv8>, block: seq<bv8>) returns (ok: bool, back: seq<bv8>)
    requires |block| == 16
    ensures ok == (16 <= |key| <= 40 && |key| % 4 == 0)
    ensures ok ==> back == block
  {
    ghost var c := CipherOf(TABLES);
    LegalLengths(|key|);
    TablesLawful();
    TablesImplement(TABLES);
    TablesInvert(TABLES);
    var ctx := new Context(TABLES);
    ok := ctx.SetKey(c, key);
    if !ok { return ok, []; }
    var cipher := ctx.Encrypt(c, block);
    BlockInverse(c, UnpackAll(ctx.E), UnpackAll(ctx.D), block);
    back := ctx.Decrypt(c, cipher);
  }
}
