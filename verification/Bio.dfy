/** Bios and the memory they describe. */
module Bio {
  /** A bio_vec: `len` bytes of a page. */
  datatype Vec = Vec(page: nat, offset: nat, len: nat)

  /** A bio.  `vecs` are the vectors from bi_idx to bi_vcnt. */
  datatype Bio = Bio(
    id: nat,
    vecs: seq<Vec>,
    size: nat,            // bi_size
    uptodate: bool,       // BIO_UPTODATE
    segs: nat,            // bi_phys_segments
    segValid: bool,       // BIO_SEG_VALID
    frontSize: nat,       // bi_seg_front_size
    backSize: nat)        // bi_seg_back_size

  function Bytes(vs: seq<Vec>): nat {
    if vs == [] then 0 else vs[0].len + Bytes(vs[1..])
  }

  function Size(bios: seq<Bio>): nat {
    if bios == [] then 0 else bios[0].size + Size(bios[1..])
  }

  function Vecs(bios: seq<Bio>): seq<Vec> {
    if bios == [] then [] else bios[0].vecs + Vecs(bios[1..])
  }

  /** bi_size counts the bytes that are left, and no vector is empty. */
  ghost predicate WellFormed(b: Bio) {
    b.size == Bytes(b.vecs) && forall i :: 0 <= i < |b.vecs| ==> b.vecs[i].len > 0
  }

  ghost predicate AllWellFormed(bios: seq<Bio>) {
    forall i :: 0 <= i < |bios| ==> WellFormed(bios[i])
  }

  lemma {:induction false} BytesConcat(a: seq<Vec>, b: seq<Vec>)
    ensures Bytes(a + b) == Bytes(a) + Bytes(b)
  {
    if a == [] {
      assert a + b == b;
    } else {
      BytesConcat(a[1..], b);
      assert (a + b)[1..] == a[1..] + b;
    }
  }

  lemma {:induction false} VecsConcat(a: seq<Bio>, b: seq<Bio>)
    ensures Vecs(a + b) == Vecs(a) + Vecs(b)
  {
    if a == [] {
      assert a + b == b;
    } else {
      VecsConcat(a[1..], b);
      calc {
        Vecs(a + b);
        { assert (a + b)[1..] == a[1..] + b; }
        a[0].vecs + (Vecs(a[1..]) + Vecs(b));
        Vecs(a) + Vecs(b);
      }
    }
  }

  lemma {:induction false} SizeConcat(a: seq<Bio>, b: seq<Bio>)
    ensures Size(a + b) == Size(a) + Size(b)
  {
    if a == [] {
      assert a + b == b;
    } else {
      SizeConcat(a[1..], b);
      assert (a + b)[1..] == a[1..] + b;
    }
  }

  lemma {:induction false} SizeIsBytes(bios: seq<Bio>)
    requires AllWellFormed(bios)
    ensures Size(bios) == Bytes(Vecs(bios))
  {
    if bios != [] {
      SizeIsBytes(bios[1..]);
      BytesConcat(bios[0].vecs, Vecs(bios[1..]));
    }
  }
}
