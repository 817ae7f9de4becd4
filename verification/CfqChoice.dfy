/** Which request CFQ serves next (cfq_choose_req, cfq_find_next_rq). Sector
    numbers are taken below 2^64 - 2^32, so that adding back_max does not wrap. */
module CfqChoice {
  import opened Arith
  import opened Options

  datatype Rq = Rq(sync: bool, meta: bool, pos: nat)

  /** cfq_back_max in KiB and cfq_back_penalty, both unsigned int. */
  datatype Tuning = Tuning(backMaxKb: nat, penalty: nat)

  /** back_max in sectors: the doubling is done in 32 bits. */
  function BackMax(t: Tuning): nat {
    (t.backMaxKb * 2) % 0x1_0000_0000
  }

  /** Behind the head, and further than a backward seek may go. */
  predicate Wraps(t: Tuning, last: nat, pos: nat) {
    pos < last && pos + BackMax(t) < last
  }

  /** The cost of a seek that does not wrap; backwards it is penalised. */
  function Distance(t: Tuning, last: nat, pos: nat): nat {
    if pos >= last then pos - last else Times(last - pos, t.penalty)
  }

  /** cfq_choose_req. */
  function ChooseReq(t: Tuning, rq1: Option<Rq>, rq2: Option<Rq>, last: nat): Option<Rq> {
    if rq1.None? || rq1 == rq2 then rq2
    else if rq2.None? then rq1
    else if rq1.value.sync != rq2.value.sync then if rq1.value.sync then rq1 else rq2
    else if rq1.value.meta != rq2.value.meta then if rq1.value.meta then rq1 else rq2
    else
      var s1, s2 := rq1.value.pos, rq2.value.pos;
      var wrap1, wrap2 := Wraps(t, last, s1), Wraps(t, last, s2);
      if !wrap1 && !wrap2 then
        var d1, d2 := Distance(t, last, s1), Distance(t, last, s2);
        if d1 < d2 then rq1 else if d2 < d1 then rq2 else if s1 >= s2 then rq1 else rq2
      else if wrap2 && !wrap1 then rq1
      else if wrap1 && !wrap2 then rq2
      else if s1 <= s2 then rq1 else rq2
  }

  // ----- the order behind the choice

  /** What a request costs, most important first. */
  function Key(t: Tuning, last: nat, r: Rq): seq<int> {
    var wraps, pos: int := Wraps(t, last, r.pos), r.pos;
    [if r.sync then 0 else 1, if r.meta then 0 else 1,
     if wraps then 1 else 0, if wraps then pos else Distance(t, last, r.pos), if wraps then 0 else -pos]
  }

  /** Lexicographic order. */
  predicate Less(a: seq<int>, b: seq<int>)
    requires |a| == |b|
  {
    a != [] && (a[0] < b[0] || (a[0] == b[0] && Less(a[1..], b[1..])))
  }

  predicate Before(t: Tuning, last: nat, a: Rq, b: Rq) {
    Less(Key(t, last, a), Key(t, last, b))
  }

  lemma {:induction false} LessOrder(a: seq<int>, b: seq<int>, c: seq<int>)
    requires |a| == |b| == |c|
    ensures !Less(a, a)
    ensures Less(a, b) && Less(b, c) ==> Less(a, c)
    ensures a == b || Less(a, b) || Less(b, a)
  {
    if a == [] {
      assert b == [];
    } else {
      LessOrder(a[1..], b[1..], c[1..]);
      assert a == [a[0]] + a[1..] && b == [b[0]] + b[1..];
    }
  }

  /** A strict total order on requests at distinct positions. */
  lemma {:induction false} BeforeOrder(t: Tuning, last: nat, a: Rq, b: Rq, c: Rq)
    ensures !Before(t, last, a, a)
    ensures Before(t, last, a, b) && Before(t, last, b, c) ==> Before(t, last, a, c)
    ensures a.pos != b.pos ==> Before(t, last, a, b) || Before(t, last, b, a)
  {
    var ka, kb := Key(t, last, a), Key(t, last, b);
    LessOrder(ka, kb, Key(t, last, c));
    if ka == kb {
      assert ka[2] == kb[2] && ka[3] == kb[3] && ka[4] == kb[4];
    }
  }

  /** Less on keys, spelled out. */
  lemma {:induction false} LessKeys(a: seq<int>, b: seq<int>)
    requires |a| == |b| == 5
    ensures Less(a, b) <==>
      || a[0] < b[0] || (a[0] == b[0] && a[1] < b[1])
      || (a[0] == b[0] && a[1] == b[1]
          && (a[2] < b[2] || (a[2] == b[2] && (a[3] < b[3] || (a[3] == b[3] && a[4] < b[4])))))
  {
    assert Less(a[1..], b[1..]) <==> a[1] < b[1] || (a[1] == b[1] && Less(a[2..], b[2..])) by {
      assert a[1..][1..] == a[2..] && b[1..][1..] == b[2..];
    }
    assert Less(a[2..], b[2..]) <==> a[2] < b[2] || (a[2] == b[2] && Less(a[3..], b[3..])) by {
      assert a[2..][1..] == a[3..] && b[2..][1..] == b[3..];
    }
    assert Less(a[3..], b[3..]) <==> a[3] < b[3] || (a[3] == b[3] && Less(a[4..], b[4..])) by {
      assert a[3..][1..] == a[4..] && b[3..][1..] == b[4..];
    }
    assert Less(a[4..], b[4..]) <==> a[4] < b[4] by {
      assert a[4..][1..] == [] && b[4..][1..] == [];
    }
  }

  /** cfq_choose_req returns the smaller of two requests. */
  lemma {:induction false} ChoosesTheSmaller(t: Tuning, last: nat, a: Rq, b: Rq)
    requires a.pos != b.pos
    ensures ChooseReq(t, Some(a), Some(b), last) == Some(if Before(t, last, a, b) then a else b)
  {
    LessKeys(Key(t, last, a), Key(t, last, b));
  }

  /** The choice in terms of the head: a sync request before others, then a meta one; else the
      nearer of two ahead, and of two behind that a backward seek reaches; a request ahead
      before one behind, unless a seek back is allowed and cheaper by more than its penalty; and
      of two that are out of reach behind, the one that is furthest back. */
  lemma {:induction false} SeekChoice(t: Tuning, last: nat, a: Rq, b: Rq)
    requires a.pos < b.pos
    ensures ChooseReq(t, Some(a), Some(b), last) == ChooseReq(t, Some(b), Some(a), last)
    ensures a.sync != b.sync ==> ChooseReq(t, Some(a), Some(b), last) == Some(if a.sync then a else b)
    ensures a.sync == b.sync && a.meta != b.meta ==> ChooseReq(t, Some(a), Some(b), last) == Some(if a.meta then a else b)
    ensures a.sync == b.sync && a.meta == b.meta ==>
              var back := 2 * t.backMaxKb % 0x1_0000_0000;
              ChooseReq(t, Some(a), Some(b), last)
              == Some(if a.pos >= last then a
                      else if b.pos >= last then
                        if last - a.pos <= back && (last - a.pos) * t.penalty < b.pos - last then a else b
                      else if last - b.pos <= back then b
                      else a)
  {
    if a.pos < last {
      TimesIs(last - a.pos, t.penalty);
      if b.pos < last { TimesLe(last - b.pos, last - a.pos, t.penalty); }
    }
  }

  // ----- the choice among neighbours

  /** cfqq->sort_list: requests in order of position, no two at one position. */
  ghost predicate SortList(s: seq<Rq>) {
    forall i, j :: 0 <= i < j < |s| ==> s[i].pos < s[j].pos
  }

  /** cfq_find_next_rq: looks only at the neighbours of request `i`, the first
      request standing in for the next of the last. */
  function FindNext(t: Tuning, s: seq<Rq>, i: nat): Option<Rq>
    requires i < |s|
  {
    var prev := if i > 0 then Some(s[i - 1]) else None;
    var next := if i + 1 < |s| then Some(s[i + 1]) else if s[0] != s[i] then Some(s[0]) else None;
    ChooseReq(t, next, prev, s[i].pos)
  }

  /** No other request of the list comes before `r`. */
  ghost predicate Best(t: Tuning, s: seq<Rq>, i: nat, r: Rq)
    requires i < |s|
  {
    && (exists k :: 0 <= k < |s| && k != i && s[k] == r)
    && forall k :: 0 <= k < |s| && k != i && s[k] != r ==> Before(t, s[i].pos, r, s[k])
  }

  ghost predicate SameClass(s: seq<Rq>) {
    forall i, j :: 0 <= i < |s| && 0 <= j < |s| ==> s[i].sync == s[j].sync && s[i].meta == s[j].meta
  }

  lemma {:induction false} BehindOrder(t: Tuning, last: nat, a: Rq, b: Rq)
    requires a.sync == b.sync && a.meta == b.meta && b.pos < a.pos < last
    ensures Before(t, last, a, b) <==> !Wraps(t, last, a.pos)
    ensures Before(t, last, b, a) <==> Wraps(t, last, a.pos)
  {
    LessKeys(Key(t, last, a), Key(t, last, b));
    LessKeys(Key(t, last, b), Key(t, last, a));
    TimesLe(last - a.pos, last - b.pos, t.penalty);
  }

  lemma {:induction false} AheadOrder(t: Tuning, last: nat, a: Rq, b: Rq)
    requires a.sync == b.sync && a.meta == b.meta && last < a.pos < b.pos
    ensures Before(t, last, a, b)
  {
    LessKeys(Key(t, last, a), Key(t, last, b));
  }

  lemma {:induction false} AheadOfWrapped(t: Tuning, last: nat, a: Rq, b: Rq)
    requires a.sync == b.sync && a.meta == b.meta && last < a.pos && Wraps(t, last, b.pos)
    ensures Before(t, last, a, b)
  {
    LessKeys(Key(t, last, a), Key(t, last, b));
  }

  /** What cfq_choose_req looks at first: sync, then meta. */
  function Rank(r: Rq): nat {
    (if r.sync then 2 else 0) + if r.meta then 1 else 0
  }

  lemma {:induction false} RankFirst(t: Tuning, last: nat, a: Rq, b: Rq)
    requires Rank(a) > Rank(b)
    ensures Before(t, last, a, b) && !Before(t, last, b, a)
  {
    LessKeys(Key(t, last, a), Key(t, last, b));
    LessKeys(Key(t, last, b), Key(t, last, a));
  }

  /** One request ahead of the head and one behind it. */
  lemma {:induction false} AheadOrBehind(t: Tuning, last: nat, a: Rq, b: Rq)
    requires Rank(a) == Rank(b) && b.pos < last < a.pos
    ensures Before(t, last, a, b) <==> Wraps(t, last, b.pos) || a.pos - last <= Times(last - b.pos, t.penalty)
    ensures Before(t, last, b, a) <==> !Wraps(t, last, b.pos) && Times(last - b.pos, t.penalty) < a.pos - last
  {
    LessKeys(Key(t, last, a), Key(t, last, b));
    LessKeys(Key(t, last, b), Key(t, last, a));
  }

  /** The next request of `i`, the first one for the last. */
  function NextOf(s: seq<Rq>, i: nat): (n: nat)
    requires i < |s|
    ensures n < |s|
  {
    if i + 1 < |s| then i + 1 else 0
  }

  /** The neighbour of the higher rank. */
  function Leader(s: seq<Rq>, i: nat): (w: nat)
    requires i < |s|
    ensures w < |s|
  {
    if i > 0 && Rank(s[i - 1]) > Rank(s[NextOf(s, i)]) then i - 1 else NextOf(s, i)
  }

  /** The leader is cheaper than request `k` of its rank: as the next request, if the seek
      back to `k` wraps or is no shorter; as the previous one, if it does not wrap and is
      shorter than a seek ahead to `k`; as the first one, if `k` wraps too. */
  ghost predicate NearerThan(t: Tuning, s: seq<Rq>, i: nat, k: nat)
    requires SortList(s) && i < |s| && k < |s|
  {
    var w, last := Leader(s, i), s[i].pos;
    if w > i then
      k < i ==> Wraps(t, last, s[k].pos) || s[w].pos - last <= Times(last - s[k].pos, t.penalty)
    else if w == i - 1 then
      && (k < w ==> !Wraps(t, last, s[w].pos))
      && (k > i ==> !Wraps(t, last, s[w].pos) && Times(last - s[w].pos, t.penalty) < s[k].pos - last)
    else
      w < k < i ==> Wraps(t, last, s[k].pos)
  }

  ghost predicate LeaderNearest(t: Tuning, s: seq<Rq>, i: nat)
    requires SortList(s) && i < |s|
  {
    forall k :: 0 <= k < |s| && k != i && k != Leader(s, i) && Rank(s[k]) == Rank(s[Leader(s, i)]) ==>
      NearerThan(t, s, i, k)
  }

  /** When the two neighbours of `i` are enough to look at. */
  ghost predicate NeighboursSuffice(t: Tuning, s: seq<Rq>, i: nat)
    requires SortList(s) && i < |s|
  {
    && (forall k :: 0 <= k < |s| && k != i ==> Rank(s[k]) <= Rank(s[Leader(s, i)]))
    && ((i > 0 && Rank(s[i - 1]) == Rank(s[NextOf(s, i)])) || LeaderNearest(t, s, i))
  }

  /** Neighbours of one rank beat every other request of that rank. */
  lemma {:induction false} NeighbourBeats(t: Tuning, s: seq<Rq>, i: nat, k: nat)
    requires SortList(s) && 0 < i < |s| && k < |s| && k != i
    requires Rank(s[i - 1]) == Rank(s[NextOf(s, i)]) == Rank(s[k])
    ensures FindNext(t, s, i).Some?
    ensures s[k] == FindNext(t, s, i).value || Before(t, s[i].pos, FindNext(t, s, i).value, s[k])
  {
    var last, n := s[i].pos, NextOf(s, i);
    if n != i - 1 {
      ChoosesTheSmaller(t, last, s[n], s[i - 1]);
      BeforeOrder(t, last, s[n], s[i - 1], s[k]);
      BeforeOrder(t, last, s[i - 1], s[n], s[k]);
    }
    if k > i + 1 {
      AheadOrder(t, last, s[i + 1], s[k]);
    } else if k < i {
      if i + 1 < |s| && Wraps(t, last, s[k].pos) { AheadOfWrapped(t, last, s[i + 1], s[k]); }
      if k < i - 1 { BehindOrder(t, last, s[i - 1], s[k]); }
      if n == 0 && 0 < k { BehindOrder(t, last, s[k], s[0]); }
    }
  }

  /** What is found when the neighbours differ in rank, or there is only one. */
  lemma {:induction false} LeaderFound(t: Tuning, s: seq<Rq>, i: nat)
    requires SortList(s) && i < |s| && |s| > 1 && (i > 0 ==> Rank(s[i - 1]) != Rank(s[NextOf(s, i)]))
    ensures Leader(s, i) != i && FindNext(t, s, i) == Some(s[Leader(s, i)])
  {
    if i > 0 {
      var n := NextOf(s, i);
      ChoosesTheSmaller(t, s[i].pos, s[n], s[i - 1]);
      if Rank(s[n]) > Rank(s[i - 1]) {
        RankFirst(t, s[i].pos, s[n], s[i - 1]);
      } else {
        RankFirst(t, s[i].pos, s[i - 1], s[n]);
      }
    }
  }

  lemma {:induction false} NearerIsBefore(t: Tuning, s: seq<Rq>, i: nat, k: nat)
    requires SortList(s) && i < |s| && k < |s| && k != i && Leader(s, i) != i && k != Leader(s, i)
    requires Rank(s[k]) == Rank(s[Leader(s, i)])
    ensures Before(t, s[i].pos, s[Leader(s, i)], s[k]) <==> NearerThan(t, s, i, k)
  {
    var w, last := Leader(s, i), s[i].pos;
    if w > i {
      if k > i { AheadOrder(t, last, s[w], s[k]); } else { AheadOrBehind(t, last, s[w], s[k]); }
    } else if k > i {
      AheadOrBehind(t, last, s[k], s[w]);
    } else if k < w {
      BehindOrder(t, last, s[w], s[k]);
    } else {
      BehindOrder(t, last, s[k], s[w]);
    }
  }

  /** When the leader is found, it is best exactly if no request outranks it and those of
      its rank are farther. */
  lemma {:induction false} LeaderBest(t: Tuning, s: seq<Rq>, i: nat)
    requires SortList(s) && i < |s| && Leader(s, i) != i
    ensures Best(t, s, i, s[Leader(s, i)])
       <==> (forall k :: 0 <= k < |s| && k != i ==> Rank(s[k]) <= Rank(s[Leader(s, i)])) && LeaderNearest(t, s, i)
  {
    var w, last := Leader(s, i), s[i].pos;
    forall k | 0 <= k < |s| && k != i && k != w
      ensures Before(t, last, s[w], s[k])
         <==> Rank(s[k]) <= Rank(s[w]) && (Rank(s[k]) == Rank(s[w]) ==> NearerThan(t, s, i, k))
      ensures s[k] != s[w]
    {
      if Rank(s[k]) == Rank(s[w]) {
        NearerIsBefore(t, s, i, k);
      } else if Rank(s[k]) < Rank(s[w]) {
        RankFirst(t, last, s[w], s[k]);
      } else {
        RankFirst(t, last, s[k], s[w]);
      }
    }
  }

  /** With neighbours of one rank, the better of them is best exactly if no request
      outranks them. */
  lemma {:induction false} PairBest(t: Tuning, s: seq<Rq>, i: nat)
    requires SortList(s) && 0 < i < |s| && Rank(s[i - 1]) == Rank(s[NextOf(s, i)])
    ensures FindNext(t, s, i).Some?
    ensures Best(t, s, i, FindNext(t, s, i).value)
       <==> forall k :: 0 <= k < |s| && k != i ==> Rank(s[k]) <= Rank(s[i - 1])
  {
    var r, last := FindNext(t, s, i), s[i].pos;
    NeighbourBeats(t, s, i, i - 1);
    NeighbourBeats(t, s, i, NextOf(s, i));
    assert r == Some(s[i - 1]) || r == Some(s[NextOf(s, i)]);
    forall k | 0 <= k < |s| && k != i
      ensures Rank(s[k]) <= Rank(s[i - 1]) <==> s[k] == r.value || Before(t, last, r.value, s[k])
    {
      if Rank(s[k]) == Rank(s[i - 1]) {
        NeighbourBeats(t, s, i, k);
      } else if Rank(s[k]) < Rank(s[i - 1]) {
        RankFirst(t, last, r.value, s[k]);
      } else {
        RankFirst(t, last, s[k], r.value);
      }
    }
  }

  /** Neighbour choice equals global choice exactly when the neighbours suffice. */
  lemma {:induction false} NeighboursExact(t: Tuning, s: seq<Rq>, i: nat)
    requires SortList(s) && i < |s|
    ensures |s| == 1 <==> FindNext(t, s, i).None?
    ensures |s| > 1 ==> (Best(t, s, i, FindNext(t, s, i).value) <==> NeighboursSuffice(t, s, i))
  {
    if |s| > 1 {
      if i > 0 && Rank(s[i - 1]) == Rank(s[NextOf(s, i)]) {
        PairBest(t, s, i);
      } else {
        LeaderFound(t, s, i);
        LeaderBest(t, s, i);
      }
    }
  }

  /** Requests that share their flags are always enough. */
  lemma {:induction false} NeighbourIsBest(t: Tuning, s: seq<Rq>, i: nat)
    requires SortList(s) && SameClass(s) && i < |s|
    ensures |s| == 1 <==> FindNext(t, s, i).None?
    ensures |s| > 1 ==> NeighboursSuffice(t, s, i) && Best(t, s, i, FindNext(t, s, i).value)
  {
    NeighboursExact(t, s, i);
  }

  /** The best request is unique. */
  lemma {:induction false} BestIsUnique(t: Tuning, s: seq<Rq>, i: nat, a: Rq, b: Rq)
    requires SortList(s) && i < |s| && Best(t, s, i, a) && Best(t, s, i, b)
    ensures a == b
  {
    BeforeOrder(t, s[i].pos, a, b, a);
  }

  /** With mixed flags the neighbours do not suffice: a sync request two places
      ahead is better than both. */
  lemma {:induction false} NeighboursMissSync(t: Tuning)
    ensures exists s: seq<Rq> :: SortList(s) && |s| == 4
              && FindNext(t, s, 1).Some? && !Best(t, s, 1, FindNext(t, s, 1).value)
  {
    var s := [Rq(false, false, 0), Rq(false, false, 1), Rq(false, false, 2), Rq(true, false, 3)];
    var r := ChooseReq(t, Some(s[2]), Some(s[0]), 1);
    LessKeys(Key(t, 1, s[0]), Key(t, 1, s[3]));
    LessKeys(Key(t, 1, s[2]), Key(t, 1, s[3]));
    assert FindNext(t, s, 1) == r;
    assert s[3] != r.value && !Before(t, s[1].pos, r.value, s[3]);
    assert SortList(s) && |s| == 4;
  }

  /** A penalised distance fits in a 64-bit sector_t. */
  lemma {:induction false} DistanceFits(t: Tuning, last: nat, pos: nat)
    requires t.penalty < 0x1_0000_0000 && pos < last && !Wraps(t, last, pos)
    ensures Distance(t, last, pos) < 0x1_0000_0000_0000_0000
  {
    TimesLe(last - pos, 0x1_0000_0000, t.penalty);
    TimesIs(0x1_0000_0000, t.penalty);
  }
}
