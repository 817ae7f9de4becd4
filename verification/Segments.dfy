/** Physical segments: the greedy scatterlist mapping of blk_rq_map_sg and the
    cheap count that merges keep up to date instead of mapping. */
module Segments {
  import opened Bio
  import opened Options
  import opened PartialCompletion

  /** Queue limits.  `joins` is BIOVEC_PHYS_MERGEABLE and BIOVEC_SEG_BOUNDARY on
      two adjacent vectors, `high` says that a vector's page may be bounced. */
  datatype Limits = Limits(
    cluster: bool,
    maxSegSize: nat,
    maxSegs: nat,
    maxSectors: nat,
    joins: (Vec, Vec) -> bool,
    high: Vec -> bool)

  // ----- partitions into segments

  function Last<T>(s: seq<T>): T
    requires s != []
  {
    s[|s| - 1]
  }

  function Flat(p: seq<seq<Vec>>): seq<Vec> {
    if p == [] then [] else p[0] + Flat(p[1..])
  }

  /** May vector `v` be added to the segment `cur`?  With `bounce`, high pages
      stay alone. */
  predicate Extends(q: Limits, cur: seq<Vec>, v: Vec, bounce: bool)
    requires cur != []
  {
    && !(bounce && (q.high(v) || q.high(Last(cur))))
    && q.cluster
    && Bytes(cur) + v.len <= q.maxSegSize
    && q.joins(Last(cur), v)
  }

  /** A scatterlist entry the device accepts: one vector, or several that are
      pairwise adjacent and together within the limit. */
  ghost predicate Segment(q: Limits, s: seq<Vec>) {
    && s != []
    && (|s| > 1 ==> q.cluster && Bytes(s) <= q.maxSegSize)
    && forall i, j :: 0 <= i && j == i + 1 < |s| ==> q.joins(s[i], s[j])
  }

  ghost predicate Partition(q: Limits, p: seq<seq<Vec>>, vs: seq<Vec>) {
    Flat(p) == vs && forall i :: 0 <= i < |p| ==> Segment(q, p[i])
  }

  /** The greedy mapping: stay in the current segment as long as allowed. */
  function MapFrom(q: Limits, cur: seq<Vec>, rest: seq<Vec>, bounce: bool): seq<seq<Vec>>
    requires cur != []
    decreases |rest|
  {
    if rest == [] then [cur]
    else if Extends(q, cur, rest[0], bounce) then MapFrom(q, cur + [rest[0]], rest[1..], bounce)
    else [cur] + MapFrom(q, [rest[0]], rest[1..], bounce)
  }

  function Greedy(q: Limits, vs: seq<Vec>, bounce: bool): seq<seq<Vec>> {
    if vs == [] then [] else MapFrom(q, [vs[0]], vs[1..], bounce)
  }

  lemma {:induction false} MapFromPartition(q: Limits, cur: seq<Vec>, rest: seq<Vec>, bounce: bool)
    requires Segment(q, cur)
    ensures Partition(q, MapFrom(q, cur, rest, bounce), cur + rest)
    decreases |rest|
  {
    if rest == [] {
      assert Flat([cur]) == cur;
    } else if Extends(q, cur, rest[0], bounce) {
      BytesConcat(cur, [rest[0]]);
      MapFromPartition(q, cur + [rest[0]], rest[1..], bounce);
      assert cur + rest == (cur + [rest[0]]) + rest[1..];
    } else {
      MapFromPartition(q, [rest[0]], rest[1..], bounce);
      var m := MapFrom(q, [rest[0]], rest[1..], bounce);
      assert ([cur] + m)[1..] == m;
      assert rest == [rest[0]] + rest[1..];
    }
  }

  lemma {:induction false} GreedyPartition(q: Limits, vs: seq<Vec>, bounce: bool)
    ensures Partition(q, Greedy(q, vs, bounce), vs)
  {
    if vs != [] {
      MapFromPartition(q, [vs[0]], vs[1..], bounce);
      assert [vs[0]] + vs[1..] == vs;
    }
  }

  /** A page that may be bounced is counted as a segment of its own. */
  ghost predicate HighAlone(q: Limits, s: seq<Vec>) {
    |s| > 1 ==> forall i :: 0 <= i < |s| ==> !q.high(s[i])
  }

  lemma {:induction false} MapFromHigh(q: Limits, cur: seq<Vec>, rest: seq<Vec>)
    requires cur != [] && HighAlone(q, cur)
    ensures forall i :: 0 <= i < |MapFrom(q, cur, rest, true)| ==> HighAlone(q, MapFrom(q, cur, rest, true)[i])
    decreases |rest|
  {
    if rest != [] && Extends(q, cur, rest[0], true) {
      MapFromHigh(q, cur + [rest[0]], rest[1..]);
    } else if rest != [] {
      MapFromHigh(q, [rest[0]], rest[1..]);
    }
  }

  lemma {:induction false} GreedyHigh(q: Limits, vs: seq<Vec>)
    ensures forall i :: 0 <= i < |Greedy(q, vs, true)| ==> HighAlone(q, Greedy(q, vs, true)[i])
  {
    if vs != [] { MapFromHigh(q, [vs[0]], vs[1..]); }
  }

  // ----- the greedy mapping is the shortest

  /** A longer current segment never stays open where a suffix of it closes. */
  lemma {:induction false} SuffixExtends(q: Limits, a: seq<Vec>, b: seq<Vec>, v: Vec)
    requires b != [] && Extends(q, a + b, v, false)
    ensures Extends(q, b, v, false)
  {
    BytesConcat(a, b);
  }

  /** Starting in a suffix `b` of the current segment costs no more entries... */
  lemma {:induction false} SuffixNoWorse(q: Limits, a: seq<Vec>, b: seq<Vec>, rest: seq<Vec>)
    requires b != []
    ensures |MapFrom(q, b, rest, false)| <= |MapFrom(q, a + b, rest, false)|
    decreases |rest|, 0
  {
    if rest != [] {
      var w, r := rest[0], rest[1..];
      if Extends(q, a + b, w, false) {
        SuffixExtends(q, a, b, w);
        SuffixNoWorse(q, a, b + [w], r);
        assert a + (b + [w]) == a + b + [w];
      } else if Extends(q, b, w, false) {
        SuffixOneBetter(q, b, [w], r);
      }
    }
  }

  /** ...and saves at most one. */
  lemma {:induction false} SuffixOneBetter(q: Limits, a: seq<Vec>, b: seq<Vec>, rest: seq<Vec>)
    requires b != []
    ensures |MapFrom(q, a + b, rest, false)| <= 1 + |MapFrom(q, b, rest, false)|
    decreases |rest|, 1
  {
    if rest != [] {
      var w, r := rest[0], rest[1..];
      if Extends(q, a + b, w, false) {
        SuffixExtends(q, a, b, w);
        SuffixOneBetter(q, a, b + [w], r);
        assert a + (b + [w]) == a + b + [w];
      } else if Extends(q, b, w, false) {
        SuffixNoWorse(q, b, [w], r);
      }
    }
  }

  /** `cur` is open, `head` is what is left of its segment in another partition,
      and `p` the rest of that partition. */
  lemma {:induction false} GreedyFrom(q: Limits, cur: seq<Vec>, head: seq<Vec>, p: seq<seq<Vec>>)
    requires cur != [] && Segment(q, cur + head)
    requires forall i :: 0 <= i < |p| ==> Segment(q, p[i])
    ensures |MapFrom(q, cur, head + Flat(p), false)| <= 1 + |p|
    decreases |head + Flat(p)|
  {
    var rest := head + Flat(p);
    if head != [] {
      BytesConcat(cur + [head[0]], head[1..]);
      BytesConcat(cur, [head[0]]);
      assert cur + head == cur + [head[0]] + head[1..];
      assert q.joins((cur + head)[|cur| - 1], (cur + head)[|cur|]);
      assert Extends(q, cur, head[0], false);
      assert rest[1..] == head[1..] + Flat(p);
      GreedyFrom(q, cur + [head[0]], head[1..], p);
    } else if p != [] {
      var s := p[0];
      assert rest == [s[0]] + (s[1..] + Flat(p[1..]));
      assert rest[0] == s[0] && rest[1..] == s[1..] + Flat(p[1..]);
      assert [s[0]] + s[1..] == s;
      GreedyFrom(q, [s[0]], s[1..], p[1..]);
      if Extends(q, cur, s[0], false) {
        SuffixOneBetter(q, cur, [s[0]], rest[1..]);
      }
    } else {
      assert rest == [];
    }
  }

  /** No partition of the vectors into segments is shorter than the greedy one. */
  lemma {:induction false} GreedyShortest(q: Limits, vs: seq<Vec>, p: seq<seq<Vec>>)
    requires Partition(q, p, vs)
    ensures |Greedy(q, vs, false)| <= |p|
  {
    if p != [] {
      var s := p[0];
      assert [s[0]] + s[1..] == s;
      GreedyFrom(q, [s[0]], s[1..], p[1..]);
      assert vs == [s[0]] + (s[1..] + Flat(p[1..]));
      assert vs[1..] == s[1..] + Flat(p[1..]);
    }
  }

  // ----- the count a request carries

  function Max(a: nat, b: nat): nat {
    if a < b then b else a
  }

  ghost predicate AllData(bios: seq<Bio>) {
    AllWellFormed(bios) && forall i :: 0 <= i < |bios| ==> bios[i].vecs != []
  }

  /** `nr` is the length of some partition of the request's vectors, whose first
      and last segments the cached sizes bound. */
  ghost predicate Counted(q: Limits, bios: seq<Bio>, nr: nat, p: seq<seq<Vec>>) {
    && bios != [] && AllData(bios)
    && Partition(q, p, Vecs(bios)) && |p| == nr > 0
    && Bytes(p[0]) <= bios[0].frontSize
    && Bytes(Last(p)) <= Last(bios).backSize
  }

  /** `vs` can be cut into `nr` segments, the first within `front` bytes and the
      last within `back`. */
  ghost predicate Cuts(q: Limits, vs: seq<Vec>, nr: nat, front: nat, back: nat)
    decreases nr, 1
  {
    if nr <= 1 then
      nr == 1 && Segment(q, vs) && Bytes(vs) <= front && Bytes(vs) <= back
    else
      exists k :: 0 < k < |vs| && CutAt(q, vs, k, nr, front, back)
  }

  /** The first cut is at `k`. */
  ghost predicate CutAt(q: Limits, vs: seq<Vec>, k: nat, nr: nat, front: nat, back: nat)
    requires nr > 0 && k <= |vs|
    decreases nr, 0
  {
    Segment(q, vs[..k]) && Bytes(vs[..k]) <= front && Cuts(q, vs[k..], nr - 1, Bytes(vs[k..]), back)
  }

  ghost predicate Sound(q: Limits, bios: seq<Bio>, nr: nat) {
    bios != [] && AllData(bios) && Cuts(q, Vecs(bios), nr, bios[0].frontSize, Last(bios).backSize)
  }

  lemma {:induction false} PartitionCuts(q: Limits, p: seq<seq<Vec>>, front: nat, back: nat)
    requires p != [] && (forall i :: 0 <= i < |p| ==> Segment(q, p[i]))
    requires Bytes(p[0]) <= front && Bytes(Last(p)) <= back
    ensures Cuts(q, Flat(p), |p|, front, back)
  {
    var vs := Flat(p);
    if |p| == 1 {
      assert vs == p[0];
    } else {
      var t := p[1..];
      var k := |p[0]|;
      assert vs[..k] == p[0] && vs[k..] == Flat(t);
      assert Flat(t) == t[0] + Flat(t[1..]) && t[0] == p[1];
      BytesConcat(t[0], Flat(t[1..]));
      PartitionCuts(q, t, Bytes(Flat(t)), back);
      assert CutAt(q, vs, k, |p|, front, back);
    }
  }

  lemma {:induction false} PartitionGrows(q: Limits, vs: seq<Vec>, k: nat, t: seq<seq<Vec>>)
    requires k <= |vs| && Segment(q, vs[..k]) && t != [] && Partition(q, t, vs[k..])
    ensures Partition(q, [vs[..k]] + t, vs) && Last([vs[..k]] + t) == Last(t)
  {
    var p := [vs[..k]] + t;
    assert p[1..] == t && vs[..k] + vs[k..] == vs;
    forall i | 0 <= i < |p| ensures Segment(q, p[i]) {
      if i > 0 { assert p[i] == t[i - 1]; }
    }
  }

  lemma {:induction false} CutsPartition(q: Limits, vs: seq<Vec>, nr: nat, front: nat, back: nat) returns (p: seq<seq<Vec>>)
    requires Cuts(q, vs, nr, front, back)
    ensures Partition(q, p, vs) && |p| == nr > 0 && Bytes(p[0]) <= front && Bytes(Last(p)) <= back
  {
    if nr == 1 {
      p := [vs];
      assert Flat(p) == vs;
    } else {
      var k :| 0 < k < |vs| && CutAt(q, vs, k, nr, front, back);
      var t := CutsPartition(q, vs[k..], nr - 1, Bytes(vs[k..]), back);
      PartitionGrows(q, vs, k, t);
      p := [vs[..k]] + t;
    }
  }

  lemma {:induction false} Witness(q: Limits, bios: seq<Bio>, nr: nat) returns (p: seq<seq<Vec>>)
    requires Sound(q, bios, nr)
    ensures Counted(q, bios, nr, p)
  {
    p := CutsPartition(q, Vecs(bios), nr, bios[0].frontSize, Last(bios).backSize);
  }

  lemma {:induction false} CountedSound(q: Limits, bios: seq<Bio>, nr: nat, p: seq<seq<Vec>>)
    requires Counted(q, bios, nr, p)
    ensures Sound(q, bios, nr)
  {
    PartitionCuts(q, p, bios[0].frontSize, Last(bios).backSize);
  }

  /** A sound count is enough for the mapping. */
  lemma {:induction false} MapFits(q: Limits, bios: seq<Bio>, nr: nat)
    requires Sound(q, bios, nr)
    ensures |Greedy(q, Vecs(bios), false)| <= nr
  {
    var p := Witness(q, bios, nr);
    GreedyShortest(q, Vecs(bios), p);
  }

  /** Caches may only grow. */
  ghost predicate Raised(a: seq<Bio>, b: seq<Bio>) {
    && |a| == |b|
    && forall i :: 0 <= i < |a| ==>
         && b[i].vecs == a[i].vecs && b[i].size == a[i].size
         && b[i].frontSize >= a[i].frontSize && b[i].backSize >= a[i].backSize
  }

  lemma {:induction false} RaisedVecs(a: seq<Bio>, b: seq<Bio>)
    requires Raised(a, b)
    ensures Vecs(a) == Vecs(b)
  {
    if a != [] { RaisedVecs(a[1..], b[1..]); }
  }

  lemma {:induction false} RaisedSound(q: Limits, a: seq<Bio>, b: seq<Bio>, nr: nat)
    requires Raised(a, b) && Sound(q, a, nr)
    ensures Sound(q, b, nr) == true
  {
    var p := Witness(q, a, nr);
    RaisedVecs(a, b);
    assert AllWellFormed(b) by {
      forall i | 0 <= i < |b| ensures WellFormed(b[i]) { assert WellFormed(a[i]); }
    }
    CountedSound(q, b, nr, p);
  }

  // ----- counting by scanning

  function RecalcCount(q: Limits, bios: seq<Bio>): nat {
    |Greedy(q, Vecs(bios), true)|
  }

  /** __blk_recalc_rq_segments raises the caches of the first and last bio. */
  function Recached(q: Limits, bios: seq<Bio>): seq<Bio> {
    var g := Greedy(q, Vecs(bios), true);
    if bios == [] || g == [] then bios
    else
      var a := bios[0 := bios[0].(frontSize := Max(bios[0].frontSize, Bytes(g[0])))];
      a[|a| - 1 := Last(a).(backSize := Max(Last(a).backSize, Bytes(Last(g))))]
  }

  lemma {:induction false} MapFromNonEmpty(q: Limits, cur: seq<Vec>, rest: seq<Vec>, bounce: bool)
    requires cur != []
    ensures MapFrom(q, cur, rest, bounce) != []
    decreases |rest|
  {
    if rest != [] && Extends(q, cur, rest[0], bounce) {
      MapFromNonEmpty(q, cur + [rest[0]], rest[1..], bounce);
    }
  }

  lemma {:induction false} RecalcSound(q: Limits, bios: seq<Bio>)
    requires bios != [] && AllData(bios)
    ensures Raised(bios, Recached(q, bios)) && Sound(q, Recached(q, bios), RecalcCount(q, bios))
  {
    var vs := Vecs(bios);
    assert vs != [];
    var g := Greedy(q, vs, true);
    MapFromNonEmpty(q, [vs[0]], vs[1..], true);
    GreedyPartition(q, vs, true);
    var b := Recached(q, bios);
    RaisedVecs(bios, b);
    assert AllData(b) by {
      forall i | 0 <= i < |b| ensures WellFormed(b[i]) { assert WellFormed(bios[i]); }
    }
    CountedSound(q, b, |g|, g);
  }

  /** blk_recount_segments. */
  function Recount(q: Limits, b: Bio): Bio {
    Recached(q, [b])[0].(segs := RecalcCount(q, [b]), segValid := true)
  }

  /** bio_phys_segments: the cached count when it is valid, a recount otherwise. */
  function Prepared(q: Limits, b: Bio): Bio {
    if b.segValid then b else Recount(q, b)
  }

  /** A bio as submitted: its cached count, if marked valid, is sound. */
  ghost predicate BioOk(q: Limits, b: Bio) {
    AllData([b]) && (b.segValid ==> Sound(q, [b], b.segs))
  }

  lemma {:induction false} PreparedSound(q: Limits, b: Bio)
    requires BioOk(q, b) == true
    ensures Sound(q, [Prepared(q, b)], Prepared(q, b).segs) == true
  {
    if !b.segValid {
      RecalcSound(q, [b]);
      RaisedSound(q, Recached(q, [b]), [Recount(q, b)], RecalcCount(q, [b]));
    }
  }

  // ----- merges

  datatype Req = Req(bios: seq<Bio>, nr: nat)

  function Sectors(bytes: nat): nat {
    bytes / 512
  }

  /** blk_rq_bio_prep. */
  function FromBio(q: Limits, b: Bio): Req {
    Req([Prepared(q, b)], Prepared(q, b).segs)
  }

  /** ll_back_merge_fn and bio_attempt_back_merge; a refusal may leave caches
      filled in.  `ok` is the verdict of the integrity code. */
  function BackMerge(q: Limits, r: Req, b: Bio, ok: bool): (Req, bool)
    requires r.bios != []
  {
    if Sectors(Size(r.bios)) + Sectors(b.size) > q.maxSectors then (r, false)
    else
      var n := |r.bios| - 1;
      var bios := r.bios[n := Prepared(q, r.bios[n])];
      var b' := Prepared(q, b);
      if r.nr + b'.segs > q.maxSegs || !ok then (Req(bios, r.nr), false)
      else (Req(bios + [b'], r.nr + b'.segs), true)
  }

  /** ll_front_merge_fn and bio_attempt_front_merge. */
  function FrontMerge(q: Limits, r: Req, b: Bio, ok: bool): (Req, bool)
    requires r.bios != []
  {
    if Sectors(Size(r.bios)) + Sectors(b.size) > q.maxSectors then (r, false)
    else
      var bios := r.bios[0 := Prepared(q, r.bios[0])];
      var b' := Prepared(q, b);
      if r.nr + b'.segs > q.maxSegs || !ok then (Req(bios, r.nr), false)
      else (Req([b'] + bios, r.nr + b'.segs), true)
  }

  /** blk_phys_contig_segment on the bios that would meet. */
  predicate Contiguous(q: Limits, bio: Bio, nxt: Bio)
    requires bio.vecs != [] && nxt.vecs != []
  {
    q.cluster && bio.backSize + nxt.frontSize <= q.maxSegSize && q.joins(Last(bio.vecs), nxt.vecs[0])
  }

  /** ll_merge_requests_fn: the two requests as it leaves them, and the total
      count.  Note that the caches change even if the merge is then refused. */
  function Meet(q: Limits, r: Req, n: Req): (Req, Req, nat)
    requires r.bios != [] && n.bios != [] && Last(r.bios).vecs != [] && n.bios[0].vecs != [] && r.nr > 0
  {
    var seg := Last(r.bios).backSize + n.bios[0].frontSize;
    if Contiguous(q, Last(r.bios), n.bios[0]) then
      (if r.nr == 1 then r.(bios := r.bios[0 := r.bios[0].(frontSize := seg)]) else r,
       if n.nr == 1 then n.(bios := n.bios[|n.bios| - 1 := Last(n.bios).(backSize := seg)]) else n,
       r.nr + n.nr - 1)
    else (r, n, r.nr + n.nr)
  }

  /** attempt_merge: the merged request, or the two left apart. */
  function MergeReqs(q: Limits, r: Req, n: Req, ok: bool): (Req, Req, bool)
    requires r.bios != [] && n.bios != [] && Last(r.bios).vecs != [] && n.bios[0].vecs != [] && r.nr > 0
  {
    if Sectors(Size(r.bios)) + Sectors(Size(n.bios)) > q.maxSectors then (r, n, false)
    else
      var (r', n', total) := Meet(q, r, n);
      if total > q.maxSegs || !ok then (r', n', false)
      else (Req(r'.bios + n'.bios, total), n', true)
  }

  lemma {:induction false} FlatConcat(a: seq<seq<Vec>>, b: seq<seq<Vec>>)
    ensures Flat(a + b) == Flat(a) + Flat(b)
  {
    if a == [] {
      assert a + b == b;
    } else {
      FlatConcat(a[1..], b);
      calc {
        Flat(a + b);
        { assert (a + b)[1..] == a[1..] + b; }
        a[0] + (Flat(a[1..]) + Flat(b));
        Flat(a) + Flat(b);
      }
    }
  }

  lemma {:induction false} FlatLast(p: seq<seq<Vec>>)
    requires p != [] && Last(p) != []
    ensures Flat(p) != [] && Last(Flat(p)) == Last(Last(p))
  {
    if |p| > 1 { FlatLast(p[1..]); }
  }

  lemma {:induction false} VecsLast(bios: seq<Bio>)
    requires bios != [] && Last(bios).vecs != []
    ensures Vecs(bios) != [] && Last(Vecs(bios)) == Last(Last(bios).vecs)
  {
    if |bios| > 1 { VecsLast(bios[1..]); }
  }

  /** The vectors at either end of a partition are those at either end of the chain. */
  lemma {:induction false} PartitionEnds(q: Limits, bios: seq<Bio>, nr: nat, p: seq<seq<Vec>>)
    requires Counted(q, bios, nr, p)
    ensures p[0] != [] && p[0][0] == bios[0].vecs[0]
    ensures Last(p) != [] && Last(Last(p)) == Last(Last(bios).vecs)
  {
    assert Segment(q, Last(p)) && Segment(q, p[0]);
    FlatLast(p);
    VecsLast(bios);
    assert Vecs(bios)[0] == bios[0].vecs[0] && Flat(p)[0] == p[0][0];
  }

  lemma {:induction false} AllDataConcat(a: seq<Bio>, b: seq<Bio>)
    requires AllData(a) && AllData(b)
    ensures AllData(a + b)
  {
  }

  lemma {:induction false} ConcatPartitions(q: Limits, p: seq<seq<Vec>>, vs: seq<Vec>, o: seq<seq<Vec>>, ws: seq<Vec>)
    requires Partition(q, p, vs) && Partition(q, o, ws)
    ensures Partition(q, p + o, vs + ws)
  {
    FlatConcat(p, o);
  }

  /** Counts add up when nothing joins. */
  lemma {:induction false} ConcatSound(q: Limits, a: seq<Bio>, m: nat, b: seq<Bio>, n: nat)
    requires Sound(q, a, m) == true && Sound(q, b, n) == true
    ensures Sound(q, a + b, m + n) == true
  {
    var p := Witness(q, a, m);
    var o := Witness(q, b, n);
    VecsConcat(a, b);
    ConcatPartitions(q, p, Vecs(a), o, Vecs(b));
    AllDataConcat(a, b);
    CountedSound(q, a + b, m + n, p + o);
  }

  /** Two segments that meet contiguously and fit together make one. */
  lemma {:induction false} JoinSegments(q: Limits, s: seq<Vec>, t: seq<Vec>)
    requires Segment(q, s) && Segment(q, t) && q.cluster && q.joins(Last(s), t[0])
    requires Bytes(s) + Bytes(t) <= q.maxSegSize
    ensures Segment(q, s + t) && Bytes(s + t) == Bytes(s) + Bytes(t)
  {
    BytesConcat(s, t);
  }

  lemma {:induction false} FlatJoined(a: seq<seq<Vec>>, s: seq<Vec>, t: seq<Vec>, b: seq<seq<Vec>>)
    ensures Flat(a + [s + t] + b) == Flat(a + [s]) + Flat([t] + b)
  {
    FlatConcat(a + [s + t], b);
    FlatConcat(a, [s + t]);
    FlatConcat(a, [s]);
    assert Flat([s + t]) == s + t && Flat([s]) == s;
    assert ([t] + b)[1..] == b;
    assert Flat(a) + (s + t) + Flat(b) == Flat(a) + s + (t + Flat(b));
  }

  /** Joining the last segment of one partition to the first of another. */
  lemma {:induction false} JoinPartitions(q: Limits, p: seq<seq<Vec>>, vs: seq<Vec>, o: seq<seq<Vec>>, ws: seq<Vec>)
    requires Partition(q, p, vs) && Partition(q, o, ws) && p != [] && o != []
    requires Segment(q, Last(p) + o[0])
    ensures Partition(q, p[..|p| - 1] + [Last(p) + o[0]] + o[1..], vs + ws)
  {
    var k := |p| - 1;
    assert p == p[..k] + [Last(p)] && o == [o[0]] + o[1..];
    FlatJoined(p[..k], Last(p), o[0], o[1..]);
    var w := p[..k] + [Last(p) + o[0]] + o[1..];
    forall i | 0 <= i < |w| ensures Segment(q, w[i]) {
      if i < k { assert w[i] == p[i]; } else if i > k { assert w[i] == o[i - k]; }
    }
  }

  lemma {:induction false} RenewedVecs(a: seq<Bio>, i: nat, b: Bio)
    requires i < |a| && AllData(a) && b.vecs == a[i].vecs && b.size == a[i].size
    ensures Vecs(a[i := b]) == Vecs(a) && AllData(a[i := b])
  {
    var c := a[i := b];
    assert a == a[..i] + [a[i]] + a[i + 1..] && c == a[..i] + [b] + a[i + 1..];
    VecsConcat(a[..i] + [a[i]], a[i + 1..]);
    VecsConcat(a[..i], [a[i]]);
    VecsConcat(a[..i] + [b], a[i + 1..]);
    VecsConcat(a[..i], [b]);
    assert Vecs([a[i]]) == Vecs([b]);
    assert WellFormed(a[i]);
  }

  /** The sizes that ll_merge_requests_fn caches are right for either request alone. */
  lemma {:induction false} MeetCaches(q: Limits, r: Req, n: Req, p: seq<seq<Vec>>, o: seq<seq<Vec>>)
    requires Counted(q, r.bios, r.nr, p) && Counted(q, n.bios, n.nr, o)
    ensures var (r', n', _) := Meet(q, r, n);
            && Counted(q, r'.bios, r'.nr, p) == true && Counted(q, n'.bios, n'.nr, o) == true
            && Vecs(r'.bios) == Vecs(r.bios) && Vecs(n'.bios) == Vecs(n.bios)
  {
    MeetFirst(q, r, n, p);
    MeetSecond(q, r, n, o);
  }

  lemma {:induction false} MeetFirst(q: Limits, r: Req, n: Req, p: seq<seq<Vec>>)
    requires Counted(q, r.bios, r.nr, p) && n.bios != [] && n.bios[0].vecs != []
    ensures var r' := Meet(q, r, n).0; Counted(q, r'.bios, r'.nr, p) == true && Vecs(r'.bios) == Vecs(r.bios)
  {
    if r.nr == 1 { FrontRenewed(q, r, Last(r.bios).backSize + n.bios[0].frontSize, p); }
  }

  lemma {:induction false} MeetSecond(q: Limits, r: Req, n: Req, o: seq<seq<Vec>>)
    requires Counted(q, n.bios, n.nr, o) && r.bios != [] && Last(r.bios).vecs != [] && r.nr > 0
    ensures var n' := Meet(q, r, n).1; Counted(q, n'.bios, n'.nr, o) == true && Vecs(n'.bios) == Vecs(n.bios)
  {
    if n.nr == 1 { BackRenewed(q, n, Last(r.bios).backSize + n.bios[0].frontSize, o); }
  }

  lemma {:induction false} FrontRenewed(q: Limits, r: Req, seg: nat, p: seq<seq<Vec>>)
    requires Counted(q, r.bios, r.nr, p) && r.nr == 1 && seg >= Last(r.bios).backSize
    ensures var bios := r.bios[0 := r.bios[0].(frontSize := seg)];
            Counted(q, bios, r.nr, p) == true && Vecs(bios) == Vecs(r.bios)
  {
    RenewedVecs(r.bios, 0, r.bios[0].(frontSize := seg));
  }

  lemma {:induction false} BackRenewed(q: Limits, n: Req, seg: nat, o: seq<seq<Vec>>)
    requires Counted(q, n.bios, n.nr, o) && n.nr == 1 && seg >= n.bios[0].frontSize
    ensures var bios := n.bios[|n.bios| - 1 := Last(n.bios).(backSize := seg)];
            Counted(q, bios, n.nr, o) == true && Vecs(bios) == Vecs(n.bios)
  {
    var k := |n.bios| - 1;
    RenewedVecs(n.bios, k, n.bios[k].(backSize := seg));
  }

  lemma {:induction false} ContiguousSegment(q: Limits, r: Req, n: Req, p: seq<seq<Vec>>, o: seq<seq<Vec>>)
    requires Counted(q, r.bios, r.nr, p) && Counted(q, n.bios, n.nr, o)
    requires Contiguous(q, Last(r.bios), n.bios[0])
    ensures Segment(q, Last(p) + o[0]) && Bytes(Last(p) + o[0]) == Bytes(Last(p)) + Bytes(o[0])
  {
    PartitionEnds(q, r.bios, r.nr, p);
    PartitionEnds(q, n.bios, n.nr, o);
    JoinSegments(q, Last(p), o[0]);
  }

  /** The "minus one" is justified: the joined segment is a segment. */
  lemma {:induction false} MeetJoined(q: Limits, r: Req, n: Req, p: seq<seq<Vec>>, o: seq<seq<Vec>>)
    requires Counted(q, r.bios, r.nr, p) && Counted(q, n.bios, n.nr, o)
    requires Contiguous(q, Last(r.bios), n.bios[0])
    ensures var (r', n', total) := Meet(q, r, n); Sound(q, r'.bios + n'.bios, total)
  {
    MeetCaches(q, r, n, p, o);
    ContiguousSegment(q, r, n, p, o);
    JoinPartitions(q, p, Vecs(r.bios), o, Vecs(n.bios));
    var (r', n', total) := Meet(q, r, n);
    VecsConcat(r'.bios, n'.bios);
    AllDataConcat(r'.bios, n'.bios);
    var w := p[..|p| - 1] + [Last(p) + o[0]] + o[1..];
    assert w[0] == if r.nr == 1 then Last(p) + o[0] else p[0];
    assert Last(w) == if n.nr == 1 then Last(p) + o[0] else Last(o);
    CountedSound(q, r'.bios + n'.bios, total, w);
  }

  /** Whether or not the merge is then made, every count in sight stays sound. */
  lemma {:induction false} MeetSound(q: Limits, r: Req, n: Req)
    requires Sound(q, r.bios, r.nr) && Sound(q, n.bios, n.nr)
    ensures Last(r.bios).vecs != [] && n.bios[0].vecs != [] && r.nr > 0
    ensures var (r', n', total) := Meet(q, r, n);
            && Sound(q, r'.bios, r'.nr) && Sound(q, n'.bios, n'.nr)
            && Sound(q, r'.bios + n'.bios, total)
  {
    var p := Witness(q, r.bios, r.nr);
    var o := Witness(q, n.bios, n.nr);
    MeetCaches(q, r, n, p, o);
    var (r', n', _) := Meet(q, r, n);
    CountedSound(q, r'.bios, r'.nr, p);
    CountedSound(q, n'.bios, n'.nr, o);
    if Contiguous(q, Last(r.bios), n.bios[0]) {
      MeetJoined(q, r, n, p, o);
    } else {
      ConcatSound(q, r.bios, r.nr, n.bios, n.nr);
    }
  }

  // ----- every history

  /** How a request came to be: bios merged at either end, requests merged, bytes
      retired.  `ok` is the verdict of the integrity code, and after a refused
      merge `keepNext` says which of the two requests is followed. */
  datatype History =
    | Fresh(bio: Bio)
    | Back(h: History, bio: Bio, ok: bool)
    | Front(h: History, bio: Bio, ok: bool)
    | Join(h: History, next: History, ok: bool, keepNext: bool)
    | Done(h: History, bytes: nat, ok: bool)

  ghost predicate Submitted(q: Limits, h: History) {
    match h
    case Fresh(b) => BioOk(q, b)
    case Back(g, b, _) => Submitted(q, g) && BioOk(q, b)
    case Front(g, b, _) => Submitted(q, g) && BioOk(q, b)
    case Join(g, n, _, _) => Submitted(q, g) && Submitted(q, n)
    case Done(g, _, _) => Submitted(q, g)
  }

  /** The tail of blk_update_request: what is left is counted afresh. */
  function Recounted(q: Limits, bios: seq<Bio>): Req {
    Req(Recached(q, bios), RecalcCount(q, bios))
  }

  lemma {:induction false} PreparedRaised(q: Limits, bios: seq<Bio>, i: nat)
    requires AllData(bios) == true && i < |bios|
    ensures Raised(bios, bios[i := Prepared(q, bios[i])]) == true
  {
    if !bios[i].segValid {
      assert WellFormed(bios[i]);
      RecalcSound(q, [bios[i]]);
    }
  }

  lemma {:induction false} PreparedInPlace(q: Limits, r: Req, i: nat, bios: seq<Bio>)
    requires Sound(q, r.bios, r.nr) == true && i < |r.bios| && bios == r.bios[i := Prepared(q, r.bios[i])]
    ensures Sound(q, bios, r.nr) == true
  {
    HasBios(q, r);
    PreparedRaised(q, r.bios, i);
    RaisedSound(q, r.bios, bios, r.nr);
  }

  lemma {:induction false} HasBios(q: Limits, r: Req)
    requires Sound(q, r.bios, r.nr) == true
    ensures r.bios != [] && AllData(r.bios) == true
  {
  }

  /** A request as it was, or brought up to date, or with one more bio. */
  lemma {:induction false} MergedSound(q: Limits, r: Req, bios: seq<Bio>, b: Bio, r': Req)
    requires Sound(q, r.bios, r.nr) == true && Sound(q, bios, r.nr) == true && Sound(q, [b], b.segs) == true
    requires r' != r && r' != Req(bios, r.nr) ==>
               r' == Req(bios + [b], r.nr + b.segs) || r' == Req([b] + bios, r.nr + b.segs)
    ensures Sound(q, r'.bios, r'.nr) == true
  {
    if r' == r || r' == Req(bios, r.nr) { return; }
    if r' == Req(bios + [b], r.nr + b.segs) {
      ConcatSound(q, bios, r.nr, [b], b.segs);
    } else {
      ConcatSound(q, [b], b.segs, bios, r.nr);
    }
  }

  lemma {:induction false} BackMergeSound(q: Limits, r: Req, b: Bio, ok: bool)
    requires Sound(q, r.bios, r.nr) == true && BioOk(q, b) == true
    ensures r.bios != []
    ensures var r' := BackMerge(q, r, b, ok).0; Sound(q, r'.bios, r'.nr) == true
  {
    HasBios(q, r);
    var n := |r.bios| - 1;
    var bios := r.bios[n := Prepared(q, r.bios[n])];
    PreparedInPlace(q, r, n, bios);
    PreparedSound(q, b);
    MergedSound(q, r, bios, Prepared(q, b), BackMerge(q, r, b, ok).0);
  }

  lemma {:induction false} FrontMergeSound(q: Limits, r: Req, b: Bio, ok: bool)
    requires Sound(q, r.bios, r.nr) == true && BioOk(q, b) == true
    ensures r.bios != []
    ensures var r' := FrontMerge(q, r, b, ok).0; Sound(q, r'.bios, r'.nr) == true
  {
    HasBios(q, r);
    var bios := r.bios[0 := Prepared(q, r.bios[0])];
    PreparedInPlace(q, r, 0, bios);
    PreparedSound(q, b);
    MergedSound(q, r, bios, Prepared(q, b), FrontMerge(q, r, b, ok).0);
  }

  lemma {:induction false} MergeReqsSound(q: Limits, r: Req, n: Req, ok: bool)
    requires Sound(q, r.bios, r.nr) && Sound(q, n.bios, n.nr)
    ensures r.bios != [] && n.bios != [] && Last(r.bios).vecs != [] && n.bios[0].vecs != [] && r.nr > 0
    ensures var (r', n', merged) := MergeReqs(q, r, n, ok);
            Sound(q, r'.bios, r'.nr) && Sound(q, n'.bios, n'.nr)
  {
    MeetSound(q, r, n);
  }

  lemma {:induction false} RetireData(bios: seq<Bio>, n: nat, ok: bool)
    requires AllData(bios)
    ensures AllData(Retire(bios, n, ok))
  {
    forall i | 0 <= i < |bios| ensures bios[i].size > 0 {
      assert WellFormed(bios[i]) && bios[i].vecs[0].len > 0;
    }
    RetireWellFormed(bios, n, ok);
    RetireAll(bios, n, ok);
  }

  lemma {:induction false} DoneSound(q: Limits, r: Req, n: nat, ok: bool)
    requires Sound(q, r.bios, r.nr)
    ensures var left := Retire(r.bios, n, ok);
            left != [] ==> Sound(q, Recounted(q, left).bios, Recounted(q, left).nr)
  {
    RetireData(r.bios, n, ok);
    if Retire(r.bios, n, ok) != [] { RecalcSound(q, Retire(r.bios, n, ok)); }
  }

  /** The request a history leads to; None once all of it has completed.  Its
      count is sound, whatever the history. */
  ghost function Build(q: Limits, h: History): (r: Option<Req>)
    requires Submitted(q, h)
    ensures r.Some? ==> Sound(q, r.value.bios, r.value.nr)
  {
    match h
    case Fresh(b) =>
      PreparedSound(q, b);
      Some(FromBio(q, b))
    case Back(g, b, ok) =>
      var r := Build(q, g);
      if r.None? then None else BackMergeSound(q, r.value, b, ok); Some(BackMerge(q, r.value, b, ok).0)
    case Front(g, b, ok) =>
      var r := Build(q, g);
      if r.None? then None else FrontMergeSound(q, r.value, b, ok); Some(FrontMerge(q, r.value, b, ok).0)
    case Join(g, m, ok, keepNext) =>
      var r, n := Build(q, g), Build(q, m);
      if r.None? || n.None? then None
      else
        MergeReqsSound(q, r.value, n.value, ok);
        var (r', n', merged) := MergeReqs(q, r.value, n.value, ok);
        Some(if !merged && keepNext then n' else r')
    case Done(g, n, ok) =>
      var r := Build(q, g);
      if r.None? then None
      else
        DoneSound(q, r.value, n, ok);
        var left := Retire(r.value.bios, n, ok);
        if left == [] then None else Some(Recounted(q, left))
  }

  /** For every history, blk_rq_map_sg emits at most nr_phys_segments entries and
      they cover all the request's vectors in order. */
  lemma {:induction false} EveryHistoryFits(q: Limits, h: History)
    requires Submitted(q, h) && Build(q, h).Some?
    ensures var r := Build(q, h).value;
            && |Greedy(q, Vecs(r.bios), false)| <= r.nr
            && Partition(q, Greedy(q, Vecs(r.bios), false), Vecs(r.bios))
  {
    var r := Build(q, h).value;
    MapFits(q, r.bios, r.nr);
    GreedyPartition(q, Vecs(r.bios), false);
  }

  // ----- the loops

  /** A scatterlist entry. */
  datatype Entry = Entry(page: nat, offset: nat, length: nat)

  function EntryOf(s: seq<Vec>): Entry
    requires s != []
  {
    Entry(s[0].page, s[0].offset, Bytes(s))
  }

  /** A loop over the vectors of `all` has closed the segments `closed`, is in
      the segment `cur` and still has `rest` to see. */
  ghost predicate InLoop(q: Limits, all: seq<Vec>, bounce: bool, closed: seq<seq<Vec>>, cur: seq<Vec>, rest: seq<Vec>) {
    if cur == [] then closed == [] && rest == all
    else Greedy(q, all, bounce) == closed + MapFrom(q, cur, rest, bounce)
  }

  lemma {:induction false} LoopTurn(q: Limits, all: seq<Vec>, bounce: bool, closed: seq<seq<Vec>>, cur: seq<Vec>, rest: seq<Vec>)
    requires InLoop(q, all, bounce, closed, cur, rest) && rest != []
    ensures cur != [] && Extends(q, cur, rest[0], bounce) ==>
              InLoop(q, all, bounce, closed, cur + [rest[0]], rest[1..]) && Bytes(cur + [rest[0]]) == Bytes(cur) + rest[0].len
    ensures cur != [] && !Extends(q, cur, rest[0], bounce) ==>
              InLoop(q, all, bounce, closed + [cur], [rest[0]], rest[1..])
    ensures cur == [] ==> InLoop(q, all, bounce, [], [rest[0]], rest[1..])
  {
    if cur != [] && Extends(q, cur, rest[0], bounce) {
      BytesConcat(cur, [rest[0]]);
    } else if cur != [] {
      assert closed + ([cur] + MapFrom(q, [rest[0]], rest[1..], bounce))
          == closed + [cur] + MapFrom(q, [rest[0]], rest[1..], bounce);
    }
  }

  ghost predicate Entries(sg: seq<Entry>, p: seq<seq<Vec>>) {
    |sg| == |p| && forall i :: 0 <= i < |p| ==> p[i] != [] && sg[i] == EntryOf(p[i])
  }

  lemma {:induction false} EntriesGrow(sg: seq<Entry>, closed: seq<seq<Vec>>, cur: seq<Vec>, v: Vec)
    requires Entries(sg, closed + [cur])
    ensures sg != [] && Last(sg).length == Bytes(cur)
    ensures Entries(sg[|sg| - 1 := Last(sg).(length := Bytes(cur) + v.len)], closed + [cur + [v]])
    ensures Entries(sg + [Entry(v.page, v.offset, v.len)], closed + [cur] + [[v]])
  {
    var p := closed + [cur];
    assert p[|closed|] == cur;
    BytesConcat(cur, [v]);
    assert forall i :: 0 <= i < |closed| ==> closed[i] == p[i];
    var e := sg[|sg| - 1 := Last(sg).(length := Bytes(cur) + v.len)];
    var c := closed + [cur + [v]];
    forall i | 0 <= i < |c| ensures c[i] != [] && e[i] == EntryOf(c[i]) {
      if i < |closed| { assert c[i] == p[i]; }
    }
    var f, d := sg + [Entry(v.page, v.offset, v.len)], closed + [cur] + [[v]];
    forall i | 0 <= i < |d| ensures d[i] != [] && f[i] == EntryOf(d[i]) {
      if i < |p| { assert d[i] == p[i]; }
    }
  }

  /** What a nested loop over bios and vectors has still to see. */
  ghost function Remaining(bios: seq<Bio>, i: nat, j: nat): seq<Vec>
    requires i < |bios| && j <= |bios[i].vecs|
  {
    bios[i].vecs[j..] + Vecs(bios[i + 1..])
  }

  lemma {:induction false} RemainingSteps(bios: seq<Bio>, i: nat)
    requires i < |bios|
    ensures Remaining(bios, i, 0) == Vecs(bios[i..])
    ensures Remaining(bios, i, |bios[i].vecs|) == Vecs(bios[i + 1..])
    ensures forall j: nat :: j < |bios[i].vecs| ==>
              Remaining(bios, i, j) == [bios[i].vecs[j]] + Remaining(bios, i, j + 1)
  {
  }

  /** The variables of the mapping loop, in terms of the segments it has made. */
  ghost predicate Mapping(q: Limits, all: seq<Vec>, closed: seq<seq<Vec>>, cur: seq<Vec>, rest: seq<Vec>,
                          sg: seq<Entry>, prev: Vec)
  {
    && InLoop(q, all, false, closed, cur, rest)
    && if cur == [] then sg == [] else Entries(sg, closed + [cur]) && prev == Last(cur)
  }

  /** The test of the mapping loop is the one the greedy mapping makes, and either
      branch keeps the entries those of the segments. */
  lemma {:induction false} MapTurn(q: Limits, all: seq<Vec>, closed: seq<seq<Vec>>, cur: seq<Vec>, rest: seq<Vec>,
                                   sg: seq<Entry>, prev: Vec)
    requires Mapping(q, all, closed, cur, rest, sg, prev) == true && rest != []
    ensures var v := rest[0];
            if sg != [] && q.cluster && Last(sg).length + v.len <= q.maxSegSize && q.joins(prev, v) then
              Mapping(q, all, closed, cur + [v], rest[1..],
                      sg[|sg| - 1 := Last(sg).(length := Last(sg).length + v.len)], v) == true
            else
              Mapping(q, all, if cur == [] then [] else closed + [cur], [v], rest[1..],
                      sg + [Entry(v.page, v.offset, v.len)], v) == true
  {
    var v := rest[0];
    LoopTurn(q, all, false, closed, cur, rest);
    if cur != [] {
      EntriesGrow(sg, closed, cur, v);
    } else {
      assert [v][1..] == [] && Bytes([v]) == v.len;
    }
  }

  lemma {:induction false} MapEnd(q: Limits, all: seq<Vec>, closed: seq<seq<Vec>>, cur: seq<Vec>, sg: seq<Entry>,
                                  prev: Vec)
    requires Mapping(q, all, closed, cur, [], sg, prev)
    ensures Entries(sg, Greedy(q, all, false))
  {
  }

  /** blk_rq_map_sg, without padding and drain. */
  method MapSg(q: Limits, bios: seq<Bio>) returns (sg: seq<Entry>)
    ensures Entries(sg, Greedy(q, Vecs(bios), false))
  {
    sg := [];
    var prev := Vec(0, 0, 0);
    ghost var all, closed: seq<seq<Vec>>, cur: seq<Vec> := Vecs(bios), [], [];
    var i := 0;
    assert bios[0..] == bios;
    while i < |bios|
      invariant 0 <= i <= |bios| && Mapping(q, all, closed, cur, Vecs(bios[i..]), sg, prev) == true
    {
      var j := 0;
      RemainingSteps(bios, i);
      while j < |bios[i].vecs|
        invariant 0 <= j <= |bios[i].vecs|
        invariant Mapping(q, all, closed, cur, Remaining(bios, i, j), sg, prev) == true
      {
        var v := bios[i].vecs[j];
        MapTurn(q, all, closed, cur, Remaining(bios, i, j), sg, prev);
        if sg != [] && q.cluster && sg[|sg| - 1].length + v.len <= q.maxSegSize && q.joins(prev, v) {
          sg := sg[|sg| - 1 := sg[|sg| - 1].(length := sg[|sg| - 1].length + v.len)];
          cur := cur + [v];
        } else {
          sg := sg + [Entry(v.page, v.offset, v.len)];
          closed, cur := if cur == [] then [] else closed + [cur], [v];
        }
        prev := v;
        j := j + 1;
      }
      i := i + 1;
    }
    MapEnd(q, all, closed, cur, sg, prev);
  }

  /** The variables of the counting loop, in terms of the segments it has made. */
  ghost predicate Tally(q: Limits, closed: seq<seq<Vec>>, cur: seq<Vec>, nr: nat, segSize: nat, prev: Vec,
                        highPrev: bool, front: nat, front0: nat)
  {
    if cur == [] then closed == [] && nr == 0 && segSize == 0 && highPrev && front == front0
    else
      && nr == |closed| + 1 && segSize == Bytes(cur) && prev == Last(cur) && highPrev == q.high(prev)
      && front == if closed == [] then front0 else Max(front0, Bytes(closed[0]))
  }

  ghost predicate Counting(q: Limits, all: seq<Vec>, closed: seq<seq<Vec>>, cur: seq<Vec>, rest: seq<Vec>, nr: nat,
                           segSize: nat, prev: Vec, highPrev: bool, front: nat, front0: nat)
  {
    InLoop(q, all, true, closed, cur, rest) && Tally(q, closed, cur, nr, segSize, prev, highPrev, front, front0)
  }

  lemma {:induction false} TallyTurn(q: Limits, closed: seq<seq<Vec>>, cur: seq<Vec>, nr: nat, segSize: nat, prev: Vec,
                  highPrev: bool, front: nat, front0: nat, v: Vec)
    requires Tally(q, closed, cur, nr, segSize, prev, highPrev, front, front0)
    ensures (!q.high(v) && !highPrev && q.cluster && segSize + v.len <= q.maxSegSize && q.joins(prev, v))
            <==> (cur != [] && Extends(q, cur, v, true))
    ensures cur != [] && Extends(q, cur, v, true) ==>
              Tally(q, closed, cur + [v], nr, segSize + v.len, v, highPrev, front, front0)
    ensures Tally(q, if cur == [] then [] else closed + [cur], [v], nr + 1, v.len, v, q.high(v),
                  if nr == 1 && segSize > front then segSize else front, front0)
  {
    BytesConcat(cur, [v]);
    assert [v][1..] == [] && Bytes([v]) == v.len;
  }

  /** The test of the counting loop is the one the greedy mapping makes, and
      either branch keeps the tally. */
  lemma {:induction false} CountTurn(q: Limits, all: seq<Vec>, closed: seq<seq<Vec>>, cur: seq<Vec>, rest: seq<Vec>,
                                     nr: nat, segSize: nat, prev: Vec, highPrev: bool, front: nat, front0: nat)
    requires Counting(q, all, closed, cur, rest, nr, segSize, prev, highPrev, front, front0) == true && rest != []
    ensures var v := rest[0];
            if !q.high(v) && !highPrev && q.cluster && segSize + v.len <= q.maxSegSize && q.joins(prev, v) then
              Counting(q, all, closed, cur + [v], rest[1..], nr, segSize + v.len, v, highPrev, front, front0) == true
            else
              Counting(q, all, if cur == [] then [] else closed + [cur], [v], rest[1..], nr + 1, v.len, v, q.high(v),
                       if nr == 1 && segSize > front then segSize else front, front0) == true
  {
    LoopTurn(q, all, true, closed, cur, rest);
    TallyTurn(q, closed, cur, nr, segSize, prev, highPrev, front, front0, rest[0]);
  }

  /** The end of the counting loop: one more segment is open. */
  lemma {:induction false} TallyEnd(q: Limits, bios: seq<Bio>, closed: seq<seq<Vec>>, cur: seq<Vec>, nr: nat, segSize: nat, prev: Vec,
                 highPrev: bool, front: nat)
    requires bios != []
    requires Counting(q, Vecs(bios), closed, cur, [], nr, segSize, prev, highPrev, front, bios[0].frontSize) == true
    ensures nr == RecalcCount(q, bios)
    ensures var a := bios[0 := bios[0].(frontSize := if nr == 1 && segSize > front then segSize else front)];
            Recached(q, bios) == a[|a| - 1 := Last(a).(backSize := Max(Last(a).backSize, segSize))]
  {
    if cur != [] {
      assert Greedy(q, Vecs(bios), true) == closed + [cur];
    }
  }

  /** __blk_recalc_rq_segments. */
  method RecalcSegments(q: Limits, bios: seq<Bio>) returns (nr: nat, cached: seq<Bio>)
    ensures nr == RecalcCount(q, bios) && cached == Recached(q, bios)
  {
    if bios == [] {
      return 0, [];
    }
    nr := 0;
    var segSize: nat, front: nat, prev, highPrev := 0, bios[0].frontSize, Vec(0, 0, 0), true;
    ghost var all, front0, closed: seq<seq<Vec>>, cur: seq<Vec> := Vecs(bios), front, [], [];
    var i := 0;
    assert bios[0..] == bios;
    while i < |bios|
      invariant 0 <= i <= |bios|
      invariant Counting(q, all, closed, cur, Vecs(bios[i..]), nr, segSize, prev, highPrev, front, front0) == true
    {
      var j := 0;
      RemainingSteps(bios, i);
      while j < |bios[i].vecs|
        invariant 0 <= j <= |bios[i].vecs|
        invariant Counting(q, all, closed, cur, Remaining(bios, i, j), nr, segSize, prev, highPrev, front, front0) == true
      {
        var v := bios[i].vecs[j];
        CountTurn(q, all, closed, cur, Remaining(bios, i, j), nr, segSize, prev, highPrev, front, front0);
        var high := q.high(v);
        if !high && !highPrev && q.cluster && segSize + v.len <= q.maxSegSize && q.joins(prev, v) {
          segSize := segSize + v.len;
          prev := v;
          cur := cur + [v];
        } else {
          if nr == 1 && segSize > front {
            front := segSize;
          }
          nr := nr + 1;
          segSize, prev, highPrev := v.len, v, high;
          closed, cur := if cur == [] then [] else closed + [cur], [v];
        }
        j := j + 1;
      }
      i := i + 1;
    }
    assert bios[i..] == [];
    TallyEnd(q, bios, closed, cur, nr, segSize, prev, highPrev, front);
    if nr == 1 && segSize > front {
      front := segSize;
    }
    cached := bios[0 := bios[0].(frontSize := front)];
    var b := |cached| - 1;
    if segSize > cached[b].backSize {
      cached := cached[b := cached[b].(backSize := segSize)];
    }
  }
}
