/** blk_update_request: retiring the first bytes of a request's chain of bios. */
module PartialCompletion {
  import opened Bio
  import opened Lists

  /** A byte of memory, named by page and offset. */
  datatype Byte = Byte(page: nat, offset: nat)

  /** A call of bio_endio. */
  datatype Ending = Ending(id: nat, ok: bool)

  function VecStream(v: Vec): (s: seq<Byte>)
    ensures |s| == v.len && forall i :: 0 <= i < |s| ==> s[i] == Byte(v.page, v.offset + i)
  {
    seq(v.len, (i: nat) => Byte(v.page, v.offset + i))
  }

  /** The bytes a list of vectors stands for, in transfer order. */
  function Stream(vs: seq<Vec>): seq<Byte> {
    if vs == [] then [] else VecStream(vs[0]) + Stream(vs[1..])
  }

  function ChainStream(bios: seq<Bio>): seq<Byte> {
    Stream(Vecs(bios))
  }

  function DropVecs(vs: seq<Vec>, n: nat): seq<Vec> {
    if n == 0 || vs == [] then vs
    else if n >= vs[0].len then DropVecs(vs[1..], n - vs[0].len)
    else [vs[0].(offset := vs[0].offset + n, len := vs[0].len - n)] + vs[1..]
  }

  function Trim(b: Bio, n: nat, ok: bool): Bio {
    if n == 0 then b
    else b.(vecs := DropVecs(b.vecs, n), size := if n <= b.size then b.size - n else 0, uptodate := b.uptodate && ok)
  }

  /** A bio with data, or a discard, which has a size and no vectors. */
  ghost predicate Legal(b: Bio) {
    b.vecs == [] || WellFormed(b)
  }

  ghost predicate AllLegal(bios: seq<Bio>) {
    forall i :: 0 <= i < |bios| ==> Legal(bios[i])
  }

  /** The chain that is left once `n` bytes have been retired.  A discard is retired as a
      whole or not at all. */
  function Retire(bios: seq<Bio>, n: nat, ok: bool): seq<Bio> {
    if bios == [] then []
    else if n == bios[0].size then bios[1..]
    else if n > bios[0].size then Retire(bios[1..], n - bios[0].size, ok)
    else if bios[0].vecs == [] then bios
    else [Trim(bios[0], n, ok)] + bios[1..]
  }

  /** The bios that are ended on the way, with the outcome each reports. */
  function Endings(bios: seq<Bio>, n: nat, ok: bool): seq<Ending> {
    if bios == [] || n < bios[0].size then []
    else
      [Ending(bios[0].id, ok && bios[0].uptodate)]
      + (if n == bios[0].size then [] else Endings(bios[1..], n - bios[0].size, ok))
  }

  /** A completion reported by the driver. */
  datatype Call = Call(bytes: nat, ok: bool)

  function Total(calls: seq<Call>): nat {
    if calls == [] then 0 else calls[0].bytes + Total(calls[1..])
  }

  /** No completion that changed the chain reported an error. */
  ghost predicate Clean(bios: seq<Bio>, calls: seq<Call>)
    decreases |calls|
  {
    calls == [] || bios == []
    || (&& (calls[0].ok || (calls[0].bytes == 0 && bios[0].size > 0))
        && Clean(Retire(bios, calls[0].bytes, calls[0].ok), calls[1..]))
  }

  lemma {:induction false} PassOne(vs: seq<Vec>, k: nat)
    requires k < |vs|
    ensures Bytes(vs[..k + 1]) == Bytes(vs[..k]) + vs[k].len
  {
    assert vs[..k + 1] == vs[..k] + [vs[k]];
    BytesConcat(vs[..k], [vs[k]]);
  }

  lemma {:induction false} PassedNotAll(vs: seq<Vec>, k: nat)
    requires k <= |vs| && Bytes(vs[..k]) < Bytes(vs)
    ensures k < |vs|
  {
    assert vs[..|vs|] == vs;
  }

  /** Dropping up to the middle of vector `k` leaves its rest and what follows. */
  lemma {:induction false} DropVecsAt(vs: seq<Vec>, k: nat, m: nat)
    requires k < |vs| && m < vs[k].len && Bytes(vs[..k]) + m > 0
    requires forall i :: 0 <= i < |vs| ==> vs[i].len > 0
    ensures Bytes(vs[..k]) + m < Bytes(vs)
    ensures DropVecs(vs, Bytes(vs[..k]) + m) == [vs[k].(offset := vs[k].offset + m, len := vs[k].len - m)] + vs[k + 1..]
    ensures Bytes(DropVecs(vs, Bytes(vs[..k]) + m)) == Bytes(vs) - Bytes(vs[..k]) - m
  {
    if k > 0 {
      assert vs[..k] == [vs[0]] + vs[1..][..k - 1];
      if k == 1 && m == 0 {
        assert vs[1..] == [vs[1]] + vs[2..];
      } else {
        DropVecsAt(vs[1..], k - 1, m);
      }
    }
  }

  /** The state of the loop of blk_update_request: `bioBytes` bytes of the first
      bio are passed, `next` whole vectors, and `left` bytes are still to go;
      what it has ended and what it will end add up to `all`, and it will leave
      the chain `rest`. */
  ghost predicate Scanning(bios: seq<Bio>, left: nat, bioBytes: nat, next: nat, ok: bool,
                           gone: seq<Ending>, rest: seq<Bio>, all: seq<Ending>)
  {
    && AllLegal(bios)
    && if bios == [] then bioBytes == 0 && next == 0 && rest == [] && gone == all
       else
         && next <= |bios[0].vecs| && bioBytes == Bytes(bios[0].vecs[..next])
         && (next > 0 ==> bioBytes + left < bios[0].size)
         && Retire(bios, bioBytes + left, ok) == rest
         && gone + Endings(bios, bioBytes + left, ok) == all
  }

  /** Where the loop may stop: the chain it leaves is the one it promised, once
      the `bioBytes` bytes passed in the first bio are taken off it. */
  ghost predicate Stopped(bios: seq<Bio>, left: nat, bioBytes: nat, next: nat, ok: bool, rest: seq<Bio>) {
    && AllLegal(bios)
    && if bios == [] || bioBytes == 0 then bioBytes == 0 && rest == bios
       else
         && next < |bios[0].vecs| && left < bios[0].vecs[next].len
         && bioBytes == Bytes(bios[0].vecs[..next]) + left < bios[0].size
         && rest == [Trim(bios[0], bioBytes, ok)] + bios[1..]
  }

  lemma {:induction false} FreshScan(bios: seq<Bio>, left: nat, ok: bool, gone: seq<Ending>, rest: seq<Bio>,
                                     all: seq<Ending>)
    requires AllLegal(bios) && Retire(bios, left, ok) == rest && gone + Endings(bios, left, ok) == all
    ensures Scanning(bios, left, 0, 0, ok, gone, rest, all) == true
  {
    if bios != [] { assert bios[0].vecs[..0] == []; }
  }

  lemma {:induction false} EndWhole(bios: seq<Bio>, left: nat, ok: bool, gone: seq<Ending>)
    requires bios != [] && left >= bios[0].size
    ensures left == bios[0].size ==> Retire(bios, left, ok) == bios[1..]
    ensures left > bios[0].size ==> Retire(bios, left, ok) == Retire(bios[1..], left - bios[0].size, ok)
    ensures var gone' := gone + [Ending(bios[0].id, ok && bios[0].uptodate)];
            gone + Endings(bios, left, ok)
            == gone' + if left == bios[0].size then [] else Endings(bios[1..], left - bios[0].size, ok)
  {
  }

  /** A whole bio is ended and the scan goes on behind it, or stops there. */
  lemma {:induction false} ScanWhole(bios: seq<Bio>, left: nat, next: nat, bioBytes: nat, ok: bool,
                  gone: seq<Ending>, rest: seq<Bio>, all: seq<Ending>)
    requires Scanning(bios, left, bioBytes, next, ok, gone, rest, all) == true && bios != [] && left >= bios[0].size
    ensures var gone' := gone + [Ending(bios[0].id, ok && bios[0].uptodate)];
            if bios[1..] != [] && left == bios[0].size then
              Stopped(bios[1..], 0, 0, 0, ok, rest) == true && gone' == all
            else
              Scanning(bios[1..], left - bios[0].size, 0, 0, ok, gone', rest, all) == true
  {
    assert next == 0 && bios[0].vecs[..0] == [];
    EndWhole(bios, left, ok, gone);
    var e := Ending(bios[0].id, ok && bios[0].uptodate);
    if bios[1..] == [] || left > bios[0].size {
      FreshScan(bios[1..], left - bios[0].size, ok, gone + [e], rest, all);
    }
  }

  /** Inside a bio with data there is always a vector to look at; passing it keeps the
      scan.  In a discard there is none, and the scan stops. */
  lemma {:induction false} ScanVec(bios: seq<Bio>, left: nat, next: nat, bioBytes: nat, ok: bool,
                gone: seq<Ending>, rest: seq<Bio>, all: seq<Ending>)
    requires Scanning(bios, left, bioBytes, next, ok, gone, rest, all) == true && bios != [] && left < bios[0].size
    ensures next < |bios[0].vecs| <==> bios[0].vecs != []
    ensures if bios[0].vecs == [] then
              Stopped(bios, left, bioBytes, next, ok, rest) == true && gone == all
            else
              var len := bios[0].vecs[next].len;
              if len > left then
                Stopped(bios, left, bioBytes + left, next, ok, rest) == true && gone == all
              else
                && Scanning(bios, left - len, bioBytes + len, next + 1, ok, gone, rest, all) == true
                && (len == left ==> Stopped(bios, 0, bioBytes + len, next + 1, ok, rest) == true && gone == all)
  {
    if bios[0].vecs == [] { return; }
    var vs := bios[0].vecs;
    assert vs[..0] == [];
    PassedNotAll(vs, next);
    PassOne(vs, next);
    if left >= vs[next].len { PassedNotAll(vs, next + 1); }
  }

  /** The loop of blk_update_request over the chain `bios`.  It ends whole bios,
      and passes whole vectors of the next one without touching it.  When it
      stops, `bioBytes` bytes of the first bio left are done: `next` vectors and
      `left` bytes more. */
  method Pass(bios: seq<Bio>, ok: bool, nrBytes: nat)
    returns (chain: seq<Bio>, gone: seq<Ending>, left: nat, total: nat, bioBytes: nat, next: nat)
    requires AllLegal(bios)
    ensures Stopped(chain, left, bioBytes, next, ok, Retire(bios, nrBytes, ok)) == true
    ensures gone == Endings(bios, nrBytes, ok)
    ensures total + Size(chain) == bioBytes + Size(bios)
  {
    FreshScan(bios, nrBytes, ok, [], Retire(bios, nrBytes, ok), Endings(bios, nrBytes, ok));
    chain, gone, left, total, bioBytes, next := Scan(bios, ok, nrBytes, Retire(bios, nrBytes, ok), Endings(bios, nrBytes, ok));
  }

  method Scan(bios: seq<Bio>, ok: bool, nrBytes: nat, ghost rest: seq<Bio>, ghost all: seq<Ending>)
    returns (chain: seq<Bio>, gone: seq<Ending>, left: nat, total: nat, bioBytes: nat, next: nat)
    requires Scanning(bios, nrBytes, 0, 0, ok, [], rest, all) == true
    ensures Stopped(chain, left, bioBytes, next, ok, rest) == true && gone == all
    ensures total + Size(chain) == bioBytes + Size(bios)
  {
    chain, gone, left, total, bioBytes, next := bios, [], nrBytes, 0, 0, 0;
    while chain != []
      invariant Scanning(chain, left, bioBytes, next, ok, gone, rest, all) == true
      invariant total + Size(chain) == bioBytes + Size(bios)
      decreases |chain|, if chain == [] then 0 else |chain[0].vecs| - next
    {
      var b := chain[0];
      if left >= b.size {
        ScanWhole(chain, left, next, bioBytes, ok, gone, rest, all);
        chain, gone := chain[1..], gone + [Ending(b.id, ok && b.uptodate)];
        next, bioBytes := 0, 0;
        total, left := total + b.size, left - b.size;
      } else {
        ScanVec(chain, left, next, bioBytes, ok, gone, rest, all);
        // "bio idx >= vcnt": only a discard gets here
        if next >= |b.vecs| {
          break;
        }
        var nbytes := b.vecs[next].len;
        if nbytes > left {
          bioBytes, total := bioBytes + left, total + left;
          break;
        }
        next, bioBytes := next + 1, bioBytes + nbytes;
        total, left := total + nbytes, left - nbytes;
      }
      if chain != [] && left <= 0 {
        break;
      }
    }
  }

  /** The bio in which the loop stopped, brought up to date. */
  lemma {:induction false} StoppedTrim(chain: seq<Bio>, left: nat, bioBytes: nat, next: nat, ok: bool, rest: seq<Bio>)
    requires Stopped(chain, left, bioBytes, next, ok, rest) == true && bioBytes > 0
    ensures var b := chain[0];
            var v := b.vecs[next];
            var t := b.(vecs := [v.(offset := v.offset + left, len := v.len - left)] + b.vecs[next + 1..],
                        size := b.size - bioBytes, uptodate := b.uptodate && ok);
            rest == [t] + chain[1..]
  {
    DropVecsAt(chain[0].vecs, next, left);
  }

  lemma {:induction false} StoppedRest(chain: seq<Bio>, left: nat, bioBytes: nat, next: nat, ok: bool, rest: seq<Bio>)
    requires Stopped(chain, left, bioBytes, next, ok, rest) == true
    ensures AllLegal(rest) && Size(rest) + bioBytes == Size(chain)
    ensures |rest| == |chain| && (bioBytes == 0 ==> rest == chain)
    ensures rest != [] && rest[0].vecs != [] ==> rest[0].vecs[0].len <= Size(rest)
  {
    if bioBytes > 0 {
      DropVecsAt(chain[0].vecs, next, left);
    }
  }

  /** Past the first bio, retiring leaves the chain alone. */
  lemma {:induction false} RetireLast(bios: seq<Bio>, n: nat, ok: bool)
    ensures var r := Retire(bios, n, ok);
            |r| <= |bios| && (|r| > 1 ==> r[|r| - 1] == bios[|bios| - 1])
  {
    if bios != [] && n > bios[0].size { RetireLast(bios[1..], n - bios[0].size, ok); }
  }

  /** A bio with nothing left: bi_size is zero, so its vectors are not looked at again. */
  function Spent(b: Bio, ok: bool): Bio {
    b.(vecs := [], size := 0, uptodate := b.uptodate && ok)
  }

  class Request {
    var bio: seq<Bio>
    var biotail: Bio             // the last bio, also once `bio` has passed it
    var dataLen: nat
    var flushSeq: bool           // REQ_FLUSH_SEQ
    ghost var ended: seq<Ending>

    ghost predicate Valid()
      reads this
    {
      && AllLegal(bio) && dataLen == Size(bio)
      && if bio == [] then biotail.size == 0 && biotail.vecs == [] else biotail == bio[|bio| - 1]
    }

    /** blk_update_request.  The last bio is also reached by `biotail`. */
    method Update(ok: bool, nrBytes: nat) returns (more: bool)
      requires Valid()
      modifies this`bio, this`biotail, this`dataLen, this`ended
      ensures Valid()
      ensures bio == Retire(old(bio), nrBytes, ok)
      ensures bio == [] ==> biotail == if old(bio) == [] then old(biotail) else Spent(old(biotail), ok)
      ensures ended == old(ended) + if flushSeq then [] else Endings(old(bio), nrBytes, ok)
      ensures more <==> bio != []
    {
      if bio == [] {
        return false;
      }
      RetireLast(bio, nrBytes, ok);
      more := UpdateChain(ok, nrBytes);
      if !more {
        biotail := Spent(biotail, ok);
      } else if |bio| == 1 {
        biotail := bio[0];
      }
    }

    method UpdateChain(ok: bool, nrBytes: nat) returns (more: bool)
      requires AllLegal(bio) && dataLen == Size(bio) && bio != []
      modifies this`bio, this`dataLen, this`ended
      ensures AllLegal(bio) && dataLen == Size(bio)
      ensures bio == Retire(old(bio), nrBytes, ok)
      ensures ended == old(ended) + if flushSeq then [] else Endings(old(bio), nrBytes, ok)
      ensures more <==> bio != []
    {
      var chain, gone, left, total, bioBytes, next := Pass(bio, ok, nrBytes);
      bio := chain;
      ended := ended + if flushSeq then [] else gone;
      more := Settle(ok, left, total, bioBytes, next, Retire(old(bio), nrBytes, ok));
    }

    /** What blk_update_request does behind its loop; `rest` is the chain it should leave. */
    method Settle(ok: bool, left: nat, total: nat, bioBytes: nat, next: nat, ghost rest: seq<Bio>) returns (more: bool)
      requires Stopped(bio, left, bioBytes, next, ok, rest) == true && total + Size(bio) == bioBytes + dataLen
      modifies this`bio, this`dataLen
      ensures AllLegal(bio) && dataLen == Size(bio) && bio == rest
      ensures more <==> bio != []
    {
      StoppedRest(bio, left, bioBytes, next, ok, rest);
      if bio == [] {
        dataLen := 0;
        return false;
      }
      if bioBytes > 0 {
        StoppedTrim(bio, left, bioBytes, next, ok, rest);
        var b, v := bio[0], bio[0].vecs[next];
        b := b.(vecs := [v.(offset := v.offset + left, len := v.len - left)] + b.vecs[next + 1..],
                size := b.size - bioBytes, uptodate := b.uptodate && ok);
        bio := [b] + bio[1..];
      }
      dataLen := dataLen - total;
      // the "request botched" branch cannot be taken
      assert bio[0].vecs != [] ==> bio[0].vecs[0].len <= dataLen;
      return true;
    }

    /** blk_flush_restore_request. */
    method Restore()
      requires Valid() && |bio| <= 1
      modifies this`bio, this`flushSeq
      ensures Valid() && bio == [old(biotail)] && !flushSeq
    {
      assert if bio == [] then Size([biotail]) == 0 else bio == [biotail];
      bio, flushSeq := [biotail], false;
    }

    /** The completions `calls` of the data of a sequenced request. */
    method CompleteData(calls: seq<Call>)
      requires Valid() && flushSeq && |bio| == 1 && WellFormed(bio[0])
      requires calls == [] || Total(calls) >= dataLen
      modifies this`bio, this`biotail, this`dataLen, this`ended
      ensures Valid() && ended == old(ended) && biotail.id == old(bio)[0].id
      ensures if calls == [] then bio == old(bio) else bio == []
      ensures biotail.uptodate == (old(bio)[0].uptodate && Clean(old(bio), calls))
    {
      for i := 0 to |calls|
        invariant Valid() && ended == old(ended) && biotail.id == old(bio)[0].id
        invariant |bio| <= 1 && AllWellFormed(bio) && (i == 0 ==> bio == old(bio)) && (i > 0 && bio != [] ==> dataLen > 0)
        invariant bio != [] && calls != [] ==> Total(calls[i..]) >= dataLen
        invariant (biotail.uptodate && Clean(bio, calls[i..])) == (old(bio)[0].uptodate && Clean(old(bio), calls))
      {
        assert calls[i..][1..] == calls[i + 1..];
        ghost var was := bio;
        if was != [] { assert was == [was[0]] && Size(was) == was[0].size + Size([]); }
        RetireWellFormed(was, calls[i].bytes, calls[i].ok);
        var more := Update(calls[i].ok, calls[i].bytes);
      }
    }

    /** The life of a sequenced request of one bio: its data may complete, in however many
        pieces; then the request is restored and ended with what it has left.  The bio is
        ended exactly once. */
    method EndSequence(calls: seq<Call>, ok: bool)
      requires Valid() && flushSeq && |bio| == 1 && WellFormed(bio[0])
      requires calls == [] || Total(calls) >= dataLen
      modifies this
      ensures Valid() && bio == [] && !flushSeq
      ensures ended == old(ended) + [Ending(old(bio)[0].id, ok && old(bio)[0].uptodate && Clean(old(bio), calls))]
    {
      CompleteData(calls);
      Restore();
      assert bio == [biotail] && Size(bio) == biotail.size + Size([]);
      var more := Update(ok, dataLen);
    }
  }

  // ----- what retiring means  // ----- what retiring means

  function Min(a: nat, b: nat): nat {
    if a < b then a else b
  }

  lemma {:induction false} StreamConcat(a: seq<Vec>, b: seq<Vec>)
    ensures Stream(a + b) == Stream(a) + Stream(b)
  {
    if a == [] {
      assert a + b == b;
    } else {
      StreamConcat(a[1..], b);
      calc {
        Stream(a + b);
        { assert (a + b)[1..] == a[1..] + b; }
        VecStream(a[0]) + (Stream(a[1..]) + Stream(b));
        Stream(a) + Stream(b);
      }
    }
  }

  lemma {:induction false} StreamLength(vs: seq<Vec>)
    ensures |Stream(vs)| == Bytes(vs)
  {
    if vs != [] { StreamLength(vs[1..]); }
  }

  lemma {:induction false} CutVecStream(v: Vec, rest: seq<Vec>, n: nat)
    requires n < v.len
    ensures var w := v.(offset := v.offset + n, len := v.len - n);
            Stream([w] + rest) == (VecStream(v) + Stream(rest))[n..] && Bytes([w] + rest) == v.len - n + Bytes(rest)
  {
    var w := v.(offset := v.offset + n, len := v.len - n);
    assert VecStream(w) == VecStream(v)[n..];
    assert ([w] + rest)[1..] == rest;
    DropConcat(VecStream(v), Stream(rest), n);
  }

  lemma {:induction false} DropVecsLeft(vs: seq<Vec>, n: nat)
    requires n <= Bytes(vs) && forall i :: 0 <= i < |vs| ==> vs[i].len > 0
    ensures Bytes(DropVecs(vs, n)) == Bytes(vs) - n
    ensures forall i :: 0 <= i < |DropVecs(vs, n)| ==> DropVecs(vs, n)[i].len > 0
  {
    if n > 0 {
      if n >= vs[0].len {
        DropVecsLeft(vs[1..], n - vs[0].len);
      } else {
        CutVecStream(vs[0], vs[1..], n);
      }
    }
  }

  lemma {:induction false} DropVecsStream(vs: seq<Vec>, n: nat)
    requires n <= Bytes(vs)
    ensures |Stream(vs)| == Bytes(vs) && Stream(DropVecs(vs, n)) == Stream(vs)[n..]
  {
    StreamLength(vs);
    if n > 0 {
      if n >= vs[0].len {
        DropVecsStream(vs[1..], n - vs[0].len);
        DropConcat(VecStream(vs[0]), Stream(vs[1..]), n);
      } else {
        CutVecStream(vs[0], vs[1..], n);
      }
    }
  }

  /** The stream of a chain is that of its first bio and then the others'. */
  lemma {:induction false} ChainStreamHead(b: Bio, rest: seq<Bio>)
    requires WellFormed(b) && AllWellFormed(rest)
    ensures AllWellFormed([b] + rest) && Size([b] + rest) == b.size + Size(rest)
    ensures ChainStream([b] + rest) == Stream(b.vecs) + ChainStream(rest)
    ensures |Stream(b.vecs)| == b.size && |ChainStream(rest)| == Size(rest)
  {
    assert ([b] + rest)[1..] == rest;
    StreamConcat(b.vecs, Vecs(rest));
    StreamLength(b.vecs);
    StreamLength(Vecs(rest));
    SizeIsBytes(rest);
  }

  lemma {:induction false} TrimKeeps(b: Bio, n: nat, ok: bool)
    requires WellFormed(b) && n < b.size
    ensures WellFormed(Trim(b, n, ok)) && Trim(b, n, ok).size == b.size - n
    ensures |Stream(b.vecs)| == b.size && Stream(Trim(b, n, ok).vecs) == Stream(b.vecs)[n..]
  {
    DropVecsLeft(b.vecs, n);
    DropVecsStream(b.vecs, n);
  }

  lemma {:induction false} RetireWellFormed(bios: seq<Bio>, n: nat, ok: bool)
    requires AllWellFormed(bios)
    ensures AllWellFormed(Retire(bios, n, ok))
    ensures Size(Retire(bios, n, ok)) == Size(bios) - Min(n, Size(bios))
  {
    if bios != [] {
      if n > bios[0].size {
        RetireWellFormed(bios[1..], n - bios[0].size, ok);
      } else if n < bios[0].size {
        TrimKeeps(bios[0], n, ok);
        assert ([Trim(bios[0], n, ok)] + bios[1..])[1..] == bios[1..];
      }
    }
  }

  /** The `n` bytes end inside a discard. */
  predicate InDiscard(bios: seq<Bio>, n: nat) {
    bios != []
    && if n > bios[0].size then InDiscard(bios[1..], n - bios[0].size)
       else 0 < n < bios[0].size && bios[0].vecs == []
  }

  /** All `n` bytes are taken off the request, as far as it has so many, if and only if
      they do not end inside a discard. */
  lemma {:induction false} RetiredExactly(bios: seq<Bio>, n: nat, ok: bool)
    requires AllLegal(bios)
    ensures AllLegal(Retire(bios, n, ok))
    ensures Size(Retire(bios, n, ok)) == Size(bios) - Min(n, Size(bios)) <==> !InDiscard(bios, n)
  {
    if bios != [] {
      if n > bios[0].size {
        RetiredExactly(bios[1..], n - bios[0].size, ok);
      } else if n < bios[0].size && bios[0].vecs != [] {
        TrimKeeps(bios[0], n, ok);
        assert ([Trim(bios[0], n, ok)] + bios[1..])[1..] == bios[1..];
      }
    }
  }

  /** Half of a discard of 1024 bytes is reported, and none of it is retired. */
  lemma {:induction false} DiscardKeepsBytes()
    ensures var b := Bio(0, [], 1024, true, 0, false, 0, 0);
            AllLegal([b]) && InDiscard([b], 512) && Retire([b], 512, true) == [b]
  {
  }

  lemma {:induction false} TrimStream(b: Bio, rest: seq<Bio>, n: nat, ok: bool)
    requires WellFormed(b) && AllWellFormed(rest) && n < b.size
    ensures n <= |ChainStream([b] + rest)|
    ensures ChainStream([Trim(b, n, ok)] + rest) == ChainStream([b] + rest)[n..]
  {
    ChainStreamHead(b, rest);
    TrimKeeps(b, n, ok);
    ChainStreamHead(Trim(b, n, ok), rest);
    DropConcat(Stream(b.vecs), ChainStream(rest), n);
  }

  lemma {:induction false} RetireWhole(b: Bio, rest: seq<Bio>, m: nat)
    requires WellFormed(b) && AllWellFormed(rest) && m <= Size(rest)
    ensures |ChainStream([b] + rest)| == b.size + Size(rest)
    ensures m <= |ChainStream(rest)| && ChainStream([b] + rest)[b.size + m..] == ChainStream(rest)[m..]
  {
    ChainStreamHead(b, rest);
    DropConcat(Stream(b.vecs), ChainStream(rest), b.size + m);
  }

  /** Retiring `n` bytes drops exactly the first `n` bytes of the stream (all of
      it, if it is shorter). */
  lemma {:induction false} RetireStream(bios: seq<Bio>, n: nat, ok: bool)
    requires AllWellFormed(bios)
    ensures |ChainStream(bios)| == Size(bios)
    ensures ChainStream(Retire(bios, n, ok)) == ChainStream(bios)[Min(n, Size(bios))..]
  {
    if bios != [] {
      var b, rest := bios[0], bios[1..];
      assert bios == [b] + rest;
      if n < b.size {
        RetireWhole(b, rest, 0);
        TrimStream(b, rest, n, ok);
      } else if n == b.size {
        RetireWhole(b, rest, 0);
      } else {
        RetireStream(rest, n - b.size, ok);
        RetireWhole(b, rest, Min(n - b.size, Size(rest)));
      }
    }
  }

  /** A request of non-empty bios is done exactly when all its bytes are. */
  lemma {:induction false} RetireAll(bios: seq<Bio>, n: nat, ok: bool)
    requires AllWellFormed(bios) && forall i :: 0 <= i < |bios| ==> bios[i].size > 0
    ensures Retire(bios, n, ok) == [] <==> n >= Size(bios)
    ensures forall i :: 0 <= i < |Retire(bios, n, ok)| ==> Retire(bios, n, ok)[i].size > 0
  {
    if bios != [] && n > bios[0].size {
      RetireAll(bios[1..], n - bios[0].size, ok);
    } else if bios != [] && n < bios[0].size {
      assert Trim(bios[0], n, ok).size > 0;
    } else if |bios| > 1 {
      assert bios[1..][0].size > 0;
    }
  }

  function Ids(bios: seq<Bio>): seq<nat> {
    if bios == [] then [] else [bios[0].id] + Ids(bios[1..])
  }

  function EndedIds(es: seq<Ending>): seq<nat> {
    if es == [] then [] else [es[0].id] + EndedIds(es[1..])
  }

  lemma {:induction false} EndedIdsConcat(a: seq<Ending>, b: seq<Ending>)
    ensures EndedIds(a + b) == EndedIds(a) + EndedIds(b)
  {
    if a == [] {
      assert a + b == b;
    } else {
      EndedIdsConcat(a[1..], b);
      assert (a + b)[1..] == a[1..] + b;
    }
  }

  /** The bios ended and the bios left are the chain: each ends once, in order. */
  lemma {:induction false} EndingsInOrder(bios: seq<Bio>, n: nat, ok: bool)
    ensures EndedIds(Endings(bios, n, ok)) + Ids(Retire(bios, n, ok)) == Ids(bios)
  {
    if bios != [] {
      var e := Ending(bios[0].id, ok && bios[0].uptodate);
      if n > bios[0].size {
        EndingsInOrder(bios[1..], n - bios[0].size, ok);
        assert ([e] + Endings(bios[1..], n - bios[0].size, ok))[1..] == Endings(bios[1..], n - bios[0].size, ok);
      } else if n < bios[0].size {
        assert ([Trim(bios[0], n, ok)] + bios[1..])[1..] == bios[1..];
      }
    }
  }

  function AfterCalls(bios: seq<Bio>, calls: seq<Call>): seq<Bio>
    decreases |calls|
  {
    if calls == [] then bios else AfterCalls(Retire(bios, calls[0].bytes, calls[0].ok), calls[1..])
  }

  function AllEndings(bios: seq<Bio>, calls: seq<Call>): seq<Ending>
    decreases |calls|
  {
    if calls == [] then []
    else Endings(bios, calls[0].bytes, calls[0].ok)
         + AllEndings(Retire(bios, calls[0].bytes, calls[0].ok), calls[1..])
  }

  /** Dropping `m` bytes and then `n`, as far as there are so many, drops `m + n`. */
  lemma {:induction false} DropsAddUp<T>(s: seq<T>, r: seq<T>, a: nat, b: nat, m: nat, n: nat)
    requires |s| == a && |r| == b && r == s[Min(m, a)..]
    ensures r[Min(n, b)..] == s[Min(m + n, a)..]
  {
  }

  lemma {:induction false} OneCall(bios: seq<Bio>, c: Call, r: seq<Bio>)
    requires AllWellFormed(bios) && r == Retire(bios, c.bytes, c.ok)
    ensures AllWellFormed(r) && |ChainStream(bios)| == Size(bios)
    ensures Size(r) == Size(bios) - Min(c.bytes, Size(bios)) && ChainStream(r) == ChainStream(bios)[Min(c.bytes, Size(bios))..]
  {
    RetireStream(bios, c.bytes, c.ok);
    RetireWellFormed(bios, c.bytes, c.ok);
  }

  /** Any sequence of completions amounts to dropping the sum of their bytes. */
  lemma {:induction false} CallsDropTheSum(bios: seq<Bio>, calls: seq<Call>)
    requires AllWellFormed(bios)
    ensures |ChainStream(bios)| == Size(bios)
    ensures ChainStream(AfterCalls(bios, calls)) == ChainStream(bios)[Min(Total(calls), Size(bios))..]
    decreases |calls|
  {
    if calls == [] {
      RetireStream(bios, 0, true);
    } else {
      var r := Retire(bios, calls[0].bytes, calls[0].ok);
      OneCall(bios, calls[0], r);
      CallsDropTheSum(r, calls[1..]);
      DropsAddUp(ChainStream(bios), ChainStream(r), Size(bios), Size(r), calls[0].bytes, Total(calls[1..]));
    }
  }

  /** Over any sequence of completions every bio is ended at most once, in order. */
  lemma {:induction false} CallsEndInOrder(bios: seq<Bio>, calls: seq<Call>)
    ensures EndedIds(AllEndings(bios, calls)) + Ids(AfterCalls(bios, calls)) == Ids(bios)
    decreases |calls|
  {
    if calls != [] {
      var c := calls[0];
      var r := Retire(bios, c.bytes, c.ok);
      EndingsInOrder(bios, c.bytes, c.ok);
      CallsEndInOrder(r, calls[1..]);
      EndedIdsConcat(Endings(bios, c.bytes, c.ok), AllEndings(r, calls[1..]));
    }
  }
}
