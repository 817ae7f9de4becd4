/** What merging does to the data of a request: which merges are made, and which bios and
    bytes, in which order, the request then stands for. */
module MergeContents {
  import opened Bio
  import opened Options
  import opened PartialCompletion
  import opened Segments

  /** The same bios, up to what is cached in them about segments. */
  ghost predicate Same(a: seq<Bio>, b: seq<Bio>) {
    && |a| == |b|
    && forall i :: 0 <= i < |a| ==>
         a[i].id == b[i].id && a[i].vecs == b[i].vecs && a[i].size == b[i].size && a[i].uptodate == b[i].uptodate
  }

  lemma {:induction false} SameContents(a: seq<Bio>, b: seq<Bio>)
    requires Same(a, b)
    ensures Vecs(a) == Vecs(b) && Size(a) == Size(b) && Ids(a) == Ids(b)
  {
    if a != [] { SameContents(a[1..], b[1..]); }
  }

  /** bio_phys_segments. */
  function SegsOf(q: Limits, b: Bio): nat {
    if b.segValid then b.segs else |Greedy(q, b.vecs, true)|
  }

  lemma {:induction false} PreparedIs(q: Limits, b: Bio)
    ensures Same([Prepared(q, b)], [b])
    ensures Prepared(q, b).segValid && Prepared(q, b).segs == SegsOf(q, b)
  {
    assert [b][1..] == [] && Vecs([b]) == b.vecs + Vecs([b][1..]) == b.vecs;
  }

  lemma {:induction false} PreparedSame(q: Limits, bios: seq<Bio>, i: nat)
    requires i < |bios|
    ensures Same(bios[i := Prepared(q, bios[i])], bios)
  {
    PreparedIs(q, bios[i]);
    assert Same([Prepared(q, bios[i])], [bios[i]]) && [bios[i]][0] == bios[i];
  }

  // ----- one merge

  /** A request made of one bio. */
  lemma {:induction false} FreshExact(q: Limits, b: Bio)
    ensures Same(FromBio(q, b).bios, [b]) && FromBio(q, b).nr == SegsOf(q, b)
  {
    PreparedIs(q, b);
  }

  /** A bio is merged at the back exactly when size and segments fit and the integrity code
      agrees; it is then the last of the request, and nothing else changes. */
  lemma {:induction false} BackMergeExact(q: Limits, r: Req, b: Bio, ok: bool)
    requires r.bios != []
    ensures var (r', merged) := BackMerge(q, r, b, ok);
            && (merged <==> Size(r.bios) / 512 + b.size / 512 <= q.maxSectors && r.nr + SegsOf(q, b) <= q.maxSegs && ok)
            && (merged ==> Same(r'.bios, r.bios + [b]) && r'.nr == r.nr + SegsOf(q, b))
            && (!merged ==> Same(r'.bios, r.bios) && r'.nr == r.nr)
  {
    PreparedIs(q, b);
    PreparedSame(q, r.bios, |r.bios| - 1);
  }

  lemma {:induction false} FrontMergeExact(q: Limits, r: Req, b: Bio, ok: bool)
    requires r.bios != []
    ensures var (r', merged) := FrontMerge(q, r, b, ok);
            && (merged <==> Size(r.bios) / 512 + b.size / 512 <= q.maxSectors && r.nr + SegsOf(q, b) <= q.maxSegs && ok)
            && (merged ==> Same(r'.bios, [b] + r.bios) && r'.nr == r.nr + SegsOf(q, b))
            && (!merged ==> Same(r'.bios, r.bios) && r'.nr == r.nr)
  {
    PreparedIs(q, b);
    PreparedSame(q, r.bios, 0);
  }

  /** Two requests are merged exactly when size and segments fit, where the segments that
      meet count as one if they may, and the integrity code agrees. */
  lemma {:induction false} MergeReqsExact(q: Limits, r: Req, n: Req, ok: bool)
    requires r.bios != [] && n.bios != [] && Last(r.bios).vecs != [] && n.bios[0].vecs != [] && r.nr > 0
    ensures var (r', n', merged) := MergeReqs(q, r, n, ok);
            var a, b := Last(r.bios), n.bios[0];
            var one := q.cluster && a.backSize + b.frontSize <= q.maxSegSize && q.joins(Last(a.vecs), b.vecs[0]);
            var total := r.nr + n.nr - if one then 1 else 0;
            && (merged <==> Size(r.bios) / 512 + Size(n.bios) / 512 <= q.maxSectors && total <= q.maxSegs && ok)
            && (merged ==> Same(r'.bios, r.bios + n.bios) && r'.nr == total)
            && (!merged ==> Same(r'.bios, r.bios) && r'.nr == r.nr && Same(n'.bios, n.bios) && n'.nr == n.nr)
  {
    var (r', n', total) := Meet(q, r, n);
    assert Same(r'.bios, r.bios) && Same(n'.bios, n.bios);
  }

  // ----- histories

  /** The bytes that the request a history leads to should stand for: what was merged, in
      order, less the bytes that were retired in front. */
  ghost function Expected(q: Limits, h: History): seq<Byte>
    requires Submitted(q, h)
  {
    match h
    case Fresh(b) => Stream(b.vecs)
    case Back(g, b, ok) =>
      var r := Build(q, g);
      if r.Some? && BackMerge(q, r.value, b, ok).1 then Expected(q, g) + Stream(b.vecs) else Expected(q, g)
    case Front(g, b, ok) =>
      var r := Build(q, g);
      if r.Some? && FrontMerge(q, r.value, b, ok).1 then Stream(b.vecs) + Expected(q, g) else Expected(q, g)
    case Join(g, m, ok, keepNext) =>
      var r, n := Build(q, g), Build(q, m);
      if r.None? || n.None? then []
      else
        MergeReqsSound(q, r.value, n.value, ok);
        if MergeReqs(q, r.value, n.value, ok).2 then Expected(q, g) + Expected(q, m)
        else if keepNext then Expected(q, m)
        else Expected(q, g)
    case Done(g, n, _) => Expected(q, g)[Min(n, |Expected(q, g)|)..]
  }

  /** The request holds these bytes; there is none exactly when none are left. */
  ghost predicate Contains(r: Option<Req>, s: seq<Byte>) {
    if r.None? then s == [] else s != [] && ChainStream(r.value.bios) == s
  }

  lemma {:induction false} SoundNonEmpty(q: Limits, r: Req)
    requires Sound(q, r.bios, r.nr)
    ensures ChainStream(r.bios) != []
  {
    var b := r.bios[0];
    assert WellFormed(b) && b.vecs != [] && b.vecs[0].len > 0;
    assert Vecs(r.bios)[0] == b.vecs[0];
    assert |VecStream(b.vecs[0])| > 0;
  }

  lemma {:induction false} SameStream(a: seq<Bio>, b: seq<Bio>)
    requires Same(a, b)
    ensures ChainStream(a) == ChainStream(b)
  {
    SameContents(a, b);
  }

  lemma {:induction false} StreamOfConcat(a: seq<Bio>, b: seq<Bio>)
    ensures ChainStream(a + b) == ChainStream(a) + ChainStream(b)
  {
    VecsConcat(a, b);
    StreamConcat(Vecs(a), Vecs(b));
  }

  lemma {:induction false} StreamOfOne(b: Bio)
    ensures ChainStream([b]) == Stream(b.vecs)
  {
    assert [b][1..] == [] && Vecs([b]) == b.vecs + Vecs([b][1..]) == b.vecs;
  }

  lemma {:induction false} BackContains(q: Limits, r: Req, b: Bio, ok: bool)
    requires Sound(q, r.bios, r.nr) && BioOk(q, b) && r.bios != []
    ensures var (r', merged) := BackMerge(q, r, b, ok);
            ChainStream(r'.bios) == if merged then ChainStream(r.bios) + Stream(b.vecs) else ChainStream(r.bios)
  {
    BackMergeExact(q, r, b, ok);
    var (r', merged) := BackMerge(q, r, b, ok);
    SameStream(r'.bios, if merged then r.bios + [b] else r.bios);
    StreamOfConcat(r.bios, [b]);
    StreamOfOne(b);
  }

  lemma {:induction false} FrontContains(q: Limits, r: Req, b: Bio, ok: bool)
    requires Sound(q, r.bios, r.nr) && BioOk(q, b) && r.bios != []
    ensures var (r', merged) := FrontMerge(q, r, b, ok);
            ChainStream(r'.bios) == if merged then Stream(b.vecs) + ChainStream(r.bios) else ChainStream(r.bios)
  {
    FrontMergeExact(q, r, b, ok);
    var (r', merged) := FrontMerge(q, r, b, ok);
    SameStream(r'.bios, if merged then [b] + r.bios else r.bios);
    StreamOfConcat([b], r.bios);
    StreamOfOne(b);
  }

  lemma {:induction false} JoinContains(q: Limits, r: Req, n: Req, ok: bool)
    requires Sound(q, r.bios, r.nr) && Sound(q, n.bios, n.nr)
    ensures r.bios != [] && n.bios != [] && Last(r.bios).vecs != [] && n.bios[0].vecs != [] && r.nr > 0
    ensures var (r', n', merged) := MergeReqs(q, r, n, ok);
            && (merged ==> ChainStream(r'.bios) == ChainStream(r.bios) + ChainStream(n.bios))
            && (!merged ==> ChainStream(r'.bios) == ChainStream(r.bios) && ChainStream(n'.bios) == ChainStream(n.bios))
  {
    MergeReqsSound(q, r, n, ok);
    MergeReqsExact(q, r, n, ok);
    var (r', n', merged) := MergeReqs(q, r, n, ok);
    StreamOfConcat(r.bios, n.bios);
    SameStream(r'.bios, if merged then r.bios + n.bios else r.bios);
    if !merged { SameStream(n'.bios, n.bios); }
  }

  lemma {:induction false} DoneContains(q: Limits, r: Req, n: nat, ok: bool)
    requires Sound(q, r.bios, r.nr)
    ensures var s, left := ChainStream(r.bios), Retire(r.bios, n, ok);
            && (left == [] ==> s[Min(n, |s|)..] == [])
            && (left != [] ==> ChainStream(Recounted(q, left).bios) == s[Min(n, |s|)..])
  {
    RetireStream(r.bios, n, ok);
    var left := Retire(r.bios, n, ok);
    if left != [] {
      RetireData(r.bios, n, ok);
      RecalcSound(q, left);
      RaisedVecs(left, Recached(q, left));
    }
  }

  /** For every history, the request stands for exactly the bytes of the bios it took, in
      order, less those retired; once none are left there is no request. */
  lemma {:induction false} EveryHistoryContains(q: Limits, h: History)
    requires Submitted(q, h)
    ensures Contains(Build(q, h), Expected(q, h)) == true
  {
    if Build(q, h).Some? { SoundNonEmpty(q, Build(q, h).value); }
    match h
    case Fresh(b) =>
      PreparedIs(q, b);
      SameStream([Prepared(q, b)], [b]);
      StreamOfOne(b);
    case Back(g, b, ok) =>
      EveryHistoryContains(q, g);
      if Build(q, g).Some? { BackContains(q, Build(q, g).value, b, ok); }
    case Front(g, b, ok) =>
      EveryHistoryContains(q, g);
      if Build(q, g).Some? { FrontContains(q, Build(q, g).value, b, ok); }
    case Join(g, m, ok, _) =>
      EveryHistoryContains(q, g);
      EveryHistoryContains(q, m);
      if Build(q, g).Some? && Build(q, m).Some? { JoinContains(q, Build(q, g).value, Build(q, m).value, ok); }
    case Done(g, n, ok) =>
      EveryHistoryContains(q, g);
      if Build(q, g).Some? { DoneContains(q, Build(q, g).value, n, ok); }
  }
}
