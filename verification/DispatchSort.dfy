/** The dispatch list of a queue: elv_dispatch_sort keeps it in one-way elevator
    order while blk_peek_request moves the boundary the order starts from. */
module DispatchSort {
  import opened Lists
  import opened Options

  type Id = nat

  /** `barrier` is REQ_SOFTBARRIER. */
  datatype Rq = Rq(id: Id, pos: nat, sectors: nat, write: bool, discard: bool, barrier: bool, started: bool) {
    /** rq_end_sector. */
    function End(): nat {
      pos + sectors
    }

    /** A request that nothing may be sorted past. */
    predicate Stop() {
      barrier || started
    }
  }

  /** queue_head, end_sector and boundary_rq. */
  datatype Queue = Queue(list: seq<Rq>, end: nat, boundary: Option<Id>)

  // ----- the one-way order

  /** A head that starts at `b` and sweeps upwards, then starts over, meets `p` no later than `q`. */
  predicate Precedes(b: nat, p: nat, q: nat) {
    if p >= b then q < b || p <= q else q < b && p <= q
  }

  /** From position `m` on, the list is in the order of such a sweep. */
  ghost predicate OneWay(b: nat, l: seq<Rq>, m: nat) {
    forall i, j :: m <= i < j < |l| ==> Precedes(b, l[i].pos, l[j].pos)
  }

  /** The part after the last stop begins at `m`. */
  ghost predicate StartsAt(l: seq<Rq>, m: nat) {
    m <= |l| && (forall i :: m <= i < |l| ==> !l[i].Stop()) && (m > 0 ==> l[m - 1].Stop())
  }

  lemma {:induction false} StopBefore(l: seq<Rq>, m: nat, n: nat)
    requires StartsAt(l, m) && 0 < n <= |l| && l[n - 1].Stop()
    ensures n <= m
  {
  }

  lemma {:induction false} StartUnique(l: seq<Rq>, m: nat, n: nat)
    requires StartsAt(l, m) && StartsAt(l, n)
    ensures m == n
  {
    if n > 0 { StopBefore(l, m, n); }
    if m > 0 { StopBefore(l, n, m); }
  }

  /** The part after the last barrier or started request is in order. */
  ghost predicate InOrder(q: Queue) {
    forall m: nat :: StartsAt(q.list, m) ==> OneWay(q.end, q.list, m)
  }

  // ----- the operations

  /** The backward scan of elv_dispatch_sort goes on past `e`. */
  predicate Passes(b: nat, rq: Rq, e: Rq) {
    && rq.discard == e.discard && rq.write == e.write && !e.Stop()
    && if rq.pos >= b then e.pos < b || rq.pos < e.pos else e.pos < b && rq.pos < e.pos
  }

  function SortPos(l: seq<Rq>, b: nat, rq: Rq): (k: nat)
    ensures k <= |l|
  {
    if l == [] || !Passes(b, rq, l[|l| - 1]) then |l| else SortPos(l[..|l| - 1], b, rq)
  }

  lemma {:induction false} SortPosIs(l: seq<Rq>, b: nat, rq: Rq)
    ensures var k := SortPos(l, b, rq);
            (forall i :: k <= i < |l| ==> Passes(b, rq, l[i])) && (k > 0 ==> !Passes(b, rq, l[k - 1]))
  {
    if l != [] && Passes(b, rq, l[|l| - 1]) { SortPosIs(l[..|l| - 1], b, rq); }
  }

  /** elv_dispatch_sort. */
  function Sort(q: Queue, rq: Rq): Queue {
    q.(list := InsertAt(q.list, SortPos(q.list, q.end, rq), rq))
  }

  /** elv_dispatch_add_tail: unsorted, and the boundary moves to the request. */
  function AddTail(q: Queue, rq: Rq): Queue {
    Queue(q.list + [rq], rq.End(), Some(rq.id))
  }

  /** How a scheduler hands a request over when it is drained. */
  datatype Move = BySort(rq: Rq) | ByTail(rq: Rq)

  function Moved(q: Queue, mv: Move): Queue {
    match mv
    case BySort(rq) => Sort(q, rq)
    case ByTail(rq) => AddTail(q, rq)
  }

  /** elv_drain_elevator, when the scheduler holds these requests. */
  function Drained(q: Queue, ms: seq<Move>): Queue
    decreases |ms|
  {
    if ms == [] then q else Drained(Moved(q, ms[0]), ms[1..])
  }

  /** A barrier moves the boundary before it is on the list. */
  function Marked(q: Queue, rq: Rq, fs: bool): Queue {
    if MovesBoundary(rq, fs) then q.(end := rq.End(), boundary := Some(rq.id)) else q
  }

  /** __elv_add_request at the back: a request that is a barrier moves the boundary, then the
      scheduler is drained, and then the request goes to the tail and becomes a barrier.
      `fs` is REQ_TYPE_FS. */
  function AddBack(q: Queue, rq: Rq, fs: bool, ms: seq<Move>): Queue {
    var d := Drained(Marked(q, rq, fs), ms);
    d.(list := d.list + [rq.(barrier := true)])
  }

  predicate MovesBoundary(rq: Rq, fs: bool) {
    rq.barrier && (fs || rq.discard)
  }

  /** The start of blk_peek_request: the head is started and may move the boundary. */
  function Peek(q: Queue): Queue
    requires q.list != []
  {
    var rq := q.list[0];
    var q1 := q.(list := [rq.(started := true)] + q.list[1..]);
    if q.boundary.None? || q.boundary == Some(rq.id) then q1.(end := rq.End(), boundary := None) else q1
  }

  /** blk_dequeue_request. */
  function Dequeue(q: Queue): Queue
    requires q.list != []
  {
    q.(list := q.list[1..])
  }

  // ----- insertion

  lemma {:induction false} SortPosInSuffix(l: seq<Rq>, m: nat, b: nat, rq: Rq)
    requires StartsAt(l, m)
    ensures m <= SortPos(l, b, rq)
  {
    var k := SortPos(l, b, rq);
    SortPosIs(l, b, rq);
    assert k < m ==> Passes(b, rq, l[m - 1]);
  }

  /** `r` is `l` with `rq` at position `k`. */
  ghost predicate IsInsert(l: seq<Rq>, k: nat, rq: Rq, r: seq<Rq>) {
    && k <= |l| && |r| == |l| + 1 && r[k] == rq
    && (forall i :: 0 <= i < k ==> r[i] == l[i])
    && (forall i :: k < i < |r| ==> r[i] == l[i - 1])
  }

  lemma {:induction false} InsertIs(l: seq<Rq>, k: nat, rq: Rq)
    requires k <= |l|
    ensures IsInsert(l, k, rq, InsertAt(l, k, rq))
  {
  }

  lemma {:induction false} InsertOneWay(b: nat, l: seq<Rq>, m: nat, k: nat, rq: Rq, r: seq<Rq>)
    requires OneWay(b, l, m) && m <= k <= |l| && IsInsert(l, k, rq, r)
    requires k > m ==> Precedes(b, l[k - 1].pos, rq.pos)
    requires k < |l| ==> Precedes(b, rq.pos, l[k].pos)
    ensures OneWay(b, r, m)
  {
    forall i, j | m <= i < j < |r| ensures Precedes(b, r[i].pos, r[j].pos) {
      if i < k {
        assert r[i] == l[i];
        if j > k { assert r[j] == l[j - 1]; } else { assert i == k - 1 || Precedes(b, l[i].pos, l[k - 1].pos); }
      } else {
        assert r[j] == l[j - 1];
        if i > k { assert r[i] == l[i - 1]; } else { assert j - 1 == k || Precedes(b, l[k].pos, l[j - 1].pos); }
      }
    }
  }

  lemma {:induction false} ScanStops(b: nat, rq: Rq, e: Rq)
    requires rq.write == e.write && rq.discard == e.discard && !e.Stop()
    ensures Passes(b, rq, e) <==> !Precedes(b, e.pos, rq.pos)
    ensures Passes(b, rq, e) ==> Precedes(b, rq.pos, e.pos)
  {
  }

  // ----- what every step keeps

  /** The direction and discard class of the sorted requests of a run. */
  datatype Class = Class(write: bool, discard: bool)

  ghost predicate Apart(a: Rq, b: Rq) {
    a.id != b.id && (a.End() <= b.pos || b.End() <= a.pos)
  }

  /** Requests are not empty and do not overlap. */
  ghost predicate Spaced(l: seq<Rq>) {
    && (forall i :: 0 <= i < |l| ==> l[i].sectors >= 1)
    && forall i, j :: 0 <= i < j < |l| ==> Apart(l[i], l[j])
  }

  ghost predicate Fits(l: seq<Rq>, rq: Rq) {
    rq.sectors >= 1 && forall i :: 0 <= i < |l| ==> Apart(l[i], rq)
  }

  function IndexOf(l: seq<Rq>, id: Id): (i: nat)
    ensures i <= |l|
  {
    if l == [] || l[0].id == id then 0 else 1 + IndexOf(l[1..], id)
  }

  /** How many requests at the front can be peeked at without moving the end sector:
      those up to the boundary request or, without one, a head already peeked at. */
  function Still(q: Queue): (m: nat)
    ensures m <= |q.list|
  {
    match q.boundary
    case None => if q.list != [] && q.list[0].started then 1 else 0
    case Some(b) => if IndexOf(q.list, b) < |q.list| then IndexOf(q.list, b) + 1 else |q.list|
  }

  ghost predicate Holds(s: seq<Rq>, p: nat) {
    exists i :: 0 <= i < |s| && s[i].pos <= p < s[i].End()
  }

  /** Every sector between `a` and `b` belongs to one of the requests. */
  ghost predicate Bridged(a: nat, b: nat, s: seq<Rq>) {
    forall p: nat :: a <= p < b || b <= p < a ==> Holds(s, p)
  }

  /** When the requests are peeked at one by one, the end sector moves from `e` only over
      sectors that they hold themselves. */
  ghost predicate Gapless(e: nat, s: seq<Rq>)
    decreases |s|
  {
    s == [] || (Bridged(e, s[0].End(), s) && Gapless(s[0].End(), s[1..]))
  }

  /** `m` requests can be peeked at without moving the end sector; the last of them is
      where it is.  Those from `m` to `n`, up to the last stop, will move it, but only over
      sectors that they hold. */
  ghost predicate Bounded(q: Queue, m: nat, n: nat) {
    && m <= |q.list| && n <= |q.list|
    && (m >= 1 ==> q.end == q.list[m - 1].End())
    && (forall i :: m <= i < n ==> !q.list[i].started)
    && match q.boundary
       case None => m <= 1 && (m == 1 ==> q.list[0].started)
       case Some(b) => m >= 1 && q.list[m - 1].id == b && !q.list[m - 1].started
  }

  /** The requests after the last stop are of one class. */
  ghost predicate Classed(c: Class, l: seq<Rq>, m: nat) {
    forall i :: m <= i < |l| ==> l[i].write == c.write && l[i].discard == c.discard
  }

  /** The list is in order from position `m`, just behind the last stop. */
  ghost predicate Sorted(c: Class, q: Queue, m: nat) {
    StartsAt(q.list, m) && Spaced(q.list) && Classed(c, q.list, m) && OneWay(q.end, q.list, m)
  }

  ghost predicate Inv(c: Class, q: Queue, m: nat, n: nat) {
    Sorted(c, q, n) && Bounded(q, m, n) && Gapless(q.end, Movers(q.list, m, n))
  }

  /** The requests from `m` to `n`. */
  ghost function Movers(l: seq<Rq>, m: nat, n: nat): seq<Rq>
    requires m <= |l| && n <= |l|
  {
    if m <= n then l[m..n] else []
  }

  lemma {:induction false} IndexIs(l: seq<Rq>, i: nat)
    requires Spaced(l) && i < |l|
    ensures IndexOf(l, l[i].id) == i
  {
    if i > 0 {
      assert Apart(l[0], l[i]);
      assert Spaced(l[1..]) by {
        forall a, b | 0 <= a < b < |l[1..]| ensures Apart(l[1..][a], l[1..][b]) {
          assert Apart(l[a + 1], l[b + 1]);
        }
      }
      IndexIs(l[1..], i - 1);
    }
  }

  lemma {:induction false} StillIs(q: Queue, m: nat, n: nat)
    requires Spaced(q.list) && StartsAt(q.list, n) && Bounded(q, m, n)
    ensures Still(q) == m
  {
    if q.boundary.Some? { IndexIs(q.list, m - 1); }
  }

  lemma {:induction false} SpacedInsert(l: seq<Rq>, k: nat, rq: Rq, r: seq<Rq>)
    requires Spaced(l) && Fits(l, rq) && IsInsert(l, k, rq, r)
    ensures Spaced(r)
  {
    forall i, j | 0 <= i < j < |r| ensures Apart(r[i], r[j]) {
      if i < k {
        assert r[i] == l[i];
        if j > k { assert r[j] == l[j - 1]; }
      } else {
        assert r[j] == l[j - 1];
        if i > k { assert r[i] == l[i - 1]; }
      }
    }
  }

  lemma {:induction false} StartInsert(l: seq<Rq>, m: nat, k: nat, rq: Rq, r: seq<Rq>)
    requires StartsAt(l, m) && m <= k && !rq.Stop() && IsInsert(l, k, rq, r)
    ensures StartsAt(r, m) && (m > 0 ==> r[m - 1] == l[m - 1])
  {
  }

  /** The scan stops just where the request belongs. */
  lemma {:induction false} ScanPlaces(c: Class, q: Queue, m: nat, rq: Rq)
    requires StartsAt(q.list, m) && Classed(c, q.list, m) && rq.write == c.write && rq.discard == c.discard
    ensures var k := SortPos(q.list, q.end, rq);
            && m <= k
            && (k > m ==> Precedes(q.end, q.list[k - 1].pos, rq.pos))
            && (k < |q.list| ==> Precedes(q.end, rq.pos, q.list[k].pos))
  {
    var k := SortPos(q.list, q.end, rq);
    SortPosInSuffix(q.list, m, q.end, rq);
    SortPosIs(q.list, q.end, rq);
    if k > m { ScanStops(q.end, rq, q.list[k - 1]); }
    if k < |q.list| { ScanStops(q.end, rq, q.list[k]); }
  }

  /** elv_dispatch_sort keeps the order. */
  lemma {:induction false} SortKeepsOrder(c: Class, q: Queue, m: nat, rq: Rq)
    requires Sorted(c, q, m) && Fits(q.list, rq) && !rq.Stop() && rq.write == c.write && rq.discard == c.discard
    ensures Sorted(c, Sort(q, rq), m)
    ensures m > 0 ==> Sort(q, rq).list[m - 1] == q.list[m - 1]
  {
    var k, r := SortPos(q.list, q.end, rq), Sort(q, rq).list;
    ScanPlaces(c, q, m, rq);
    InsertIs(q.list, k, rq);
    StartInsert(q.list, m, k, rq, r);
    SpacedInsert(q.list, k, rq, r);
    InsertOneWay(q.end, q.list, m, k, rq, r);
  }

  /** Where a request that was at `m` is once another is inserted at `k`. */
  function Shifted(m: nat, k: nat): nat {
    if k < m then m + 1 else m
  }

  lemma {:induction false} SortBounded(q: Queue, m: nat, n: nat, rq: Rq)
    requires StartsAt(q.list, n) && Bounded(q, m, n) && !rq.Stop()
    ensures var k := SortPos(q.list, q.end, rq);
            && Bounded(Sort(q, rq), Shifted(m, k), n) == true
            && Movers(Sort(q, rq).list, Shifted(m, k), n) == Movers(q.list, m, n)
  {
    var k := SortPos(q.list, q.end, rq);
    SortPosInSuffix(q.list, n, q.end, rq);
    InsertIs(q.list, k, rq);
    InsertBounded(q, m, n, k, rq, Sort(q, rq).list);
    if m <= n { assert Sort(q, rq).list[m..n] == q.list[m..n]; }
  }

  lemma {:induction false} InsertBounded(q: Queue, m: nat, n: nat, k: nat, rq: Rq, r: seq<Rq>)
    requires StartsAt(q.list, n) && Bounded(q, m, n) && n <= k && IsInsert(q.list, k, rq, r) && !rq.Stop()
    ensures Bounded(q.(list := r), Shifted(m, k), n) == true
  {
  }

  lemma {:induction false} SortInv(c: Class, q: Queue, m: nat, n: nat, rq: Rq)
    requires Inv(c, q, m, n) == true && Fits(q.list, rq) == true && !rq.Stop() && rq.write == c.write && rq.discard == c.discard
    ensures Inv(c, Sort(q, rq), Shifted(m, SortPos(q.list, q.end, rq)), n) == true
  {
    SortKeepsOrder(c, q, n, rq);
    SortBounded(q, m, n, rq);
  }

  // ----- lists of several classes

  /** The requests at the end of the list that `rq` may be sorted past begin at `m`: of its
      direction and discard class, with no stop among them. */
  ghost predicate LikeFrom(l: seq<Rq>, rq: Rq, m: nat) {
    && m <= |l|
    && (forall i :: m <= i < |l| ==> !l[i].Stop() && l[i].write == rq.write && l[i].discard == rq.discard)
    && (m > 0 ==> l[m - 1].Stop() || l[m - 1].write != rq.write || l[m - 1].discard != rq.discard)
  }

  /** In any list, a request overtakes no stop and no request of another class, and finds its
      place in the one-way order of those of its own. */
  lemma {:induction false} MixedSort(q: Queue, m: nat, rq: Rq)
    requires LikeFrom(q.list, rq, m) && OneWay(q.end, q.list, m)
    ensures var r := Sort(q, rq);
            && |r.list| == |q.list| + 1 && r.list[..m] == q.list[..m] && OneWay(r.end, r.list, m)
            && r.end == q.end && r.boundary == q.boundary
            && exists k :: m <= k <= |q.list| && r.list == q.list[..k] + [rq] + q.list[k..]
  {
    var k := SortPos(q.list, q.end, rq);
    SortPosIs(q.list, q.end, rq);
    assert k >= m;
    InsertIs(q.list, k, rq);
    InsertOneWay(q.end, q.list, m, k, rq, Sort(q, rq).list);
    assert Sort(q, rq).list == q.list[..k] + [rq] + q.list[k..];
  }

  // ----- requests at the tail

  /** The requests behind the last stop are in the order that starts at `rq`'s end. */
  ghost predicate MayTail(q: Queue, rq: Rq) {
    InOrder(q.(end := rq.End()))
  }

  lemma {:induction false} TailStart(l: seq<Rq>, n: nat, rq: Rq)
    requires StartsAt(l, n) && !rq.Stop()
    ensures StartsAt(l + [rq], n)
  {
  }

  lemma {:induction false} SpacedTailed(l: seq<Rq>, rq: Rq)
    requires Spaced(l) && Fits(l, rq)
    ensures Spaced(l + [rq])
  {
    var r := l + [rq];
    forall i, j | 0 <= i < j < |r| ensures Apart(r[i], r[j]) {
      if j == |l| { assert Apart(l[i], rq); }
    }
  }

  /** From its own end, a request comes last. */
  lemma {:induction false} TailOneWay(l: seq<Rq>, n: nat, rq: Rq)
    requires Fits(l, rq) && n <= |l|
    ensures OneWay(rq.End(), l + [rq], n) <==> OneWay(rq.End(), l, n)
  {
    var r, b := l + [rq], rq.End();
    forall i | n <= i < |l| ensures Precedes(b, r[i].pos, rq.pos) {
      assert Apart(l[i], rq);
    }
    if OneWay(b, r, n) {
      forall i, j | n <= i < j < |l| ensures Precedes(b, l[i].pos, l[j].pos) {
        assert r[i] == l[i] && r[j] == l[j];
      }
    }
  }

  lemma {:induction false} MayTailIs(q: Queue, n: nat, rq: Rq)
    requires StartsAt(q.list, n)
    ensures MayTail(q, rq) <==> OneWay(rq.End(), q.list, n)
  {
    forall k: nat | StartsAt(q.list, k) ensures k == n {
      StartUnique(q.list, k, n);
    }
  }

  lemma {:induction false} TailInv(c: Class, q: Queue, m: nat, n: nat, rq: Rq)
    requires Inv(c, q, m, n) == true && Fits(q.list, rq) == true && !rq.Stop() && rq.write == c.write && rq.discard == c.discard
    requires MayTail(q, rq) == true
    ensures Inv(c, AddTail(q, rq), |q.list| + 1, n) == true
  {
    MayTailIs(q, n, rq);
    TailStart(q.list, n, rq);
    SpacedTailed(q.list, rq);
    TailOneWay(q.list, n, rq);
  }

  /** elv_dispatch_add_tail leaves the list in order exactly when the requests behind the last
      stop are already in the order that starts at the new boundary. */
  lemma {:induction false} TailExact(q: Queue, n: nat, rq: Rq)
    requires StartsAt(q.list, n) && Fits(q.list, rq) && !rq.Stop()
    ensures InOrder(AddTail(q, rq)) <==> MayTail(q, rq)
  {
    MayTailIs(q, n, rq);
    TailStart(q.list, n, rq);
    TailOneWay(q.list, n, rq);
    forall k: nat | StartsAt(q.list + [rq], k) ensures k == n {
      StartUnique(q.list + [rq], k, n);
    }
  }

  // ----- requests at the back

  lemma {:induction false} SpacedBack(l: seq<Rq>, rq: Rq)
    requires Spaced(l) && Fits(l, rq)
    ensures Spaced(l + [rq.(barrier := true)])
  {
    var r := l + [rq.(barrier := true)];
    forall i, j | 0 <= i < j < |r| ensures Apart(r[i], r[j]) {
      if j == |l| { assert Apart(l[i], rq); }
    }
  }

  /** May `rq` go to the back without moving the boundary? */
  ghost predicate MayFollow(q: Queue, rq: Rq) {
    Gapless(q.end, q.list[Still(q)..] + [rq.(barrier := true)])
  }

  /** Once the scheduler has been drained into `d`: the boundary is still at `rq`, or `rq` may
      follow without it. */
  ghost predicate MayJoin(d: Queue, rq: Rq) {
    d.boundary == Some(rq.id) || MayFollow(d, rq)
  }

  /** The drained requests and then `rq` find room on the list. */
  ghost predicate Room(q: Queue, rq: Rq, ms: seq<Move>)
    decreases |ms|
  {
    if ms == [] then Fits(q.list, rq)
    else Fits(q.list, ms[0].rq) && !ms[0].rq.Stop() && Room(Moved(q, ms[0]), rq, ms[1..])
  }

  /** While the scheduler is drained for `rq`: the boundary is bounded, or at `rq` itself. */
  ghost predicate Draining(q: Queue, rq: Rq, m: nat, n: nat) {
    && Spaced(q.list) && StartsAt(q.list, n)
    && (Bounded(q, m, n) || (q.boundary == Some(rq.id) && q.end == rq.End()))
  }

  lemma {:induction false} SortDraining(q: Queue, rq: Rq, m: nat, n: nat, x: Rq)
    requires Draining(q, rq, m, n) && Fits(q.list, x) && !x.Stop()
    ensures Draining(Sort(q, x), rq, Shifted(m, SortPos(q.list, q.end, x)), n)
  {
    var k := SortPos(q.list, q.end, x);
    SortPosInSuffix(q.list, n, q.end, x);
    InsertIs(q.list, k, x);
    StartInsert(q.list, n, k, x, Sort(q, x).list);
    SpacedInsert(q.list, k, x, Sort(q, x).list);
    if Bounded(q, m, n) { SortBounded(q, m, n, x); }
  }

  lemma {:induction false} TailDraining(q: Queue, rq: Rq, m: nat, n: nat, x: Rq)
    requires Draining(q, rq, m, n) && Fits(q.list, x) && !x.Stop()
    ensures Draining(AddTail(q, x), rq, |q.list| + 1, n)
  {
    TailStart(q.list, n, x);
    SpacedTailed(q.list, x);
  }

  lemma {:induction false} DrainedDraining(q: Queue, rq: Rq, m: nat, n: nat, ms: seq<Move>) returns (m': nat)
    requires Draining(q, rq, m, n) == true && Room(q, rq, ms)
    ensures Draining(Drained(q, ms), rq, m', n) == true && Fits(Drained(q, ms).list, rq) == true
    decreases |ms|
  {
    if ms == [] { return m; }
    match ms[0] {
      case BySort(x) =>
        SortDraining(q, rq, m, n, x);
        m' := Shifted(m, SortPos(q.list, q.end, x));
      case ByTail(x) =>
        TailDraining(q, rq, m, n, x);
        m' := |q.list| + 1;
    }
    m' := DrainedDraining(Moved(q, ms[0]), rq, m', n, ms[1..]);
  }

  /** The request of the boundary is on the list, so it is not one that still has to come. */
  lemma {:induction false} BoundaryListed(q: Queue, rq: Rq, m: nat, n: nat)
    requires Bounded(q, m, n) && Fits(q.list, rq)
    ensures q.boundary != Some(rq.id)
  {
    if q.boundary.Some? { assert Apart(q.list[m - 1], rq); }
  }

  /** A new stop at the back: nothing is behind it yet. */
  lemma {:induction false} BackBounded(d: Queue, rq: Rq, m: nat, n: nat)
    requires Draining(d, rq, m, n) && Fits(d.list, rq) && !rq.started
    ensures var r := d.(list := d.list + [rq.(barrier := true)]);
            && Spaced(r.list) && StartsAt(r.list, |r.list|)
            && if d.boundary == Some(rq.id) then Bounded(r, |r.list|, |r.list|)
               else Bounded(d, m, n) && Still(d) == m && Bounded(r, m, |r.list|)
                    && r.list[m..] == d.list[m..] + [rq.(barrier := true)]
  {
    SpacedBack(d.list, rq);
    var r := d.(list := d.list + [rq.(barrier := true)]);
    if Bounded(d, m, n) {
      BoundaryListed(d, rq, m, n);
      StillIs(d, m, n);
      assert r.list[m..] == d.list[m..] + [rq.(barrier := true)];
    }
  }

  lemma {:induction false} MarkedDraining(c: Class, q: Queue, m: nat, n: nat, rq: Rq, fs: bool)
    requires Inv(c, q, m, n)
    ensures Draining(Marked(q, rq, fs), rq, m, n) == true
  {
  }

  lemma {:induction false} JoinedInv(c: Class, d: Queue, m: nat, n: nat, rq: Rq)
    requires Draining(d, rq, m, n) == true && Fits(d.list, rq) == true && !rq.started && MayJoin(d, rq) == true
    ensures var r := d.(list := d.list + [rq.(barrier := true)]);
            Inv(c, r, if d.boundary == Some(rq.id) then |r.list| else m, |r.list|) == true
  {
    BackBounded(d, rq, m, n);
    var r := d.(list := d.list + [rq.(barrier := true)]);
    if d.boundary != Some(rq.id) { assert r.list[m..|r.list|] == r.list[m..]; }
  }

  lemma {:induction false} BackInv(c: Class, q: Queue, m: nat, n: nat, rq: Rq, fs: bool, ms: seq<Move>)
    returns (m': nat, n': nat)
    requires Inv(c, q, m, n) == true && !rq.started && Room(Marked(q, rq, fs), rq, ms)
    requires MayJoin(Drained(Marked(q, rq, fs), ms), rq) == true
    ensures Inv(c, AddBack(q, rq, fs, ms), m', n') == true
  {
    var d := Drained(Marked(q, rq, fs), ms);
    MarkedDraining(c, q, m, n, rq, fs);
    m' := DrainedDraining(Marked(q, rq, fs), rq, m, n, ms);
    JoinedInv(c, d, m', n, rq);
    n' := |d.list| + 1;
    if d.boundary == Some(rq.id) { m' := n'; }
  }

  /** Started, the head becomes the new start of the order: what comes after it
      in the old order comes after it in the new one. */
  lemma {:induction false} BoundaryMoves(b: nat, l: seq<Rq>)
    requires l != [] && OneWay(b, l, 0) && Spaced(l)
    ensures OneWay(l[0].End(), l, 1)
  {
    forall i, j | 1 <= i < j < |l| ensures Precedes(l[0].End(), l[i].pos, l[j].pos) {
      assert Precedes(b, l[0].pos, l[i].pos) && Precedes(b, l[0].pos, l[j].pos);
      assert Apart(l[0], l[i]) && Apart(l[0], l[j]);
    }
  }

  lemma {:induction false} PeekStart(q: Queue, m: nat)
    requires q.list != [] && StartsAt(q.list, m)
    ensures var r := Peek(q).list;
            |r| == |q.list| && (forall i :: 0 < i < |r| ==> r[i] == q.list[i])
            && StartsAt(r, if m == 0 then 1 else m)
  {
  }

  lemma {:induction false} PeekSpaced(q: Queue)
    requires q.list != [] && Spaced(q.list)
    ensures Spaced(Peek(q).list)
  {
    var r := Peek(q).list;
    forall i, j | 0 <= i < j < |r| ensures Apart(r[i], r[j]) {
      assert Apart(q.list[i], q.list[j]) && r[j] == q.list[j];
    }
  }

  /** If nothing starts between two boundaries, the two orders agree. */
  lemma {:induction false} SameOrder(a: nat, b: nat, l: seq<Rq>, m: nat)
    requires OneWay(a, l, m)
    requires forall i :: m <= i < |l| ==> !(a <= l[i].pos < b) && !(b <= l[i].pos < a)
    ensures OneWay(b, l, m)
  {
  }

  /** Requests behind those that hold the sectors in between start elsewhere. */
  lemma {:induction false} BridgedOrder(a: nat, b: nat, l: seq<Rq>, n: nat)
    requires n <= |l| && Spaced(l) && OneWay(a, l, n) && Bridged(a, b, l[..n])
    ensures OneWay(b, l, n)
  {
    forall i | n <= i < |l| ensures !(a <= l[i].pos < b) && !(b <= l[i].pos < a) {
      NotHeld(l, n, i);
    }
    SameOrder(a, b, l, n);
  }

  lemma {:induction false} NotHeld(l: seq<Rq>, n: nat, i: nat)
    requires n <= i < |l| && Spaced(l)
    ensures !Holds(l[..n], l[i].pos)
  {
    forall j | 0 <= j < n ensures !(l[..n][j].pos <= l[i].pos < l[..n][j].End()) {
      assert Apart(l[j], l[i]);
    }
  }

  lemma {:induction false} SameFrom(l: seq<Rq>, r: seq<Rq>, e: nat, n: nat, c: Class)
    requires |r| == |l| && n >= 1 && forall i :: 0 < i < |r| ==> r[i] == l[i]
    ensures OneWay(e, l, n) ==> OneWay(e, r, n)
    ensures Classed(c, l, n) ==> Classed(c, r, n)
  {
  }

  /** The head is peeked at for the first time and the end sector moves to it. */
  lemma {:induction false} PeekMoves(c: Class, q: Queue, n: nat)
    requires Inv(c, q, 0, n) == true && q.list != []
    ensures Inv(c, Peek(q), 1, if n == 0 then 1 else n) == true
  {
    var l, r, k := q.list, Peek(q).list, if n == 0 then 1 else n;
    PeekStart(q, n);
    PeekSpaced(q);
    assert !l[0].started;
    if n == 0 {
      BoundaryMoves(q.end, l);
      assert r[1..1] == [];
    } else {
      assert l[0..n] == l[..n] && l[..n][1..] == l[1..n];
      BridgedOrder(q.end, l[0].End(), l, n);
      assert r[1..n] == l[1..n];
    }
    SameFrom(l, r, l[0].End(), k, c);
  }

  lemma {:induction false} StaysBounded(q: Queue, m: nat, n: nat)
    requires Bounded(q, m, n) == true && Spaced(q.list) == true && m >= 1
    ensures Peek(q).end == q.end && Bounded(Peek(q), m, if n == 0 then 1 else n) == true
  {
    if m > 1 { assert Peek(q).list[m - 1] == q.list[m - 1] && Apart(q.list[0], q.list[m - 1]); }
  }

  lemma {:induction false} PeekStays(c: Class, q: Queue, m: nat, n: nat)
    requires Inv(c, q, m, n) == true && m >= 1
    ensures Inv(c, Peek(q), m, if n == 0 then 1 else n) == true
  {
    var k := if n == 0 then 1 else n;
    StaysBounded(q, m, n);
    StaysSorted(c, q, n);
    if m <= k { assert Peek(q).list[m..k] == q.list[m..k]; }
  }

  lemma {:induction false} StaysSorted(c: Class, q: Queue, n: nat)
    requires Sorted(c, q, n) == true && q.list != [] && Peek(q).end == q.end
    ensures Sorted(c, Peek(q), if n == 0 then 1 else n) == true
  {
    PeekStart(q, n);
    PeekSpaced(q);
    SameFrom(q.list, Peek(q).list, q.end, if n == 0 then 1 else n, c);
  }

  lemma {:induction false} DequeueSpaced(q: Queue)
    requires Spaced(q.list) && q.list != []
    ensures Spaced(Dequeue(q).list)
  {
    var l, r := q.list, Dequeue(q).list;
    forall i, j | 0 <= i < j < |r| ensures Apart(r[i], r[j]) {
      assert Apart(l[i + 1], l[j + 1]);
    }
  }

  lemma {:induction false} DequeueSorted(c: Class, q: Queue, n: nat)
    requires Sorted(c, q, n) == true && q.list != [] && n >= 1
    ensures Sorted(c, Dequeue(q), n - 1) == true
  {
    DequeueSpaced(q);
    var l, r := q.list, Dequeue(q).list;
    assert forall i :: 0 <= i < |r| ==> r[i] == l[i + 1];
  }

  lemma {:induction false} DequeueBounded(q: Queue, m: nat, n: nat)
    requires Bounded(q, m, n) == true && q.list != [] && q.list[0].started && n >= 1
    ensures m >= 1 && Bounded(Dequeue(q), m - 1, n - 1) == true
  {
  }

  lemma {:induction false} DequeueInv(c: Class, q: Queue, m: nat, n: nat)
    requires Inv(c, q, m, n) == true && q.list != [] && q.list[0].started
    ensures m >= 1 && n >= 1 && Inv(c, Dequeue(q), m - 1, n - 1) == true
  {
    assert StartsAt(q.list, n) && q.list[0].Stop();
    DequeueSorted(c, q, n);
    DequeueBounded(q, m, n);
    if m <= n { assert Dequeue(q).list[m - 1..n - 1] == q.list[m..n]; }
  }

  datatype Step =
    | DoSort(rq: Rq)
    | DoTail(rq: Rq)
    | DoBack(rq: Rq, fs: bool, ms: seq<Move>)
    | DoPeek
    | DoDequeue

  ghost predicate Enabled(c: Class, q: Queue, st: Step) {
    match st
    case DoSort(rq) => Fits(q.list, rq) && !rq.Stop() && rq.write == c.write && rq.discard == c.discard
    case DoTail(rq) => Fits(q.list, rq) && !rq.Stop() && rq.write == c.write && rq.discard == c.discard
    case DoBack(rq, fs, ms) => !rq.started && Room(Marked(q, rq, fs), rq, ms)
    case DoPeek => q.list != []
    case DoDequeue => q.list != [] && q.list[0].started
  }

  ghost function Next(q: Queue, st: Step): Queue
    requires (st.DoPeek? || st.DoDequeue?) ==> q.list != []
  {
    match st
    case DoSort(rq) => Sort(q, rq)
    case DoTail(rq) => AddTail(q, rq)
    case DoBack(rq, fs, ms) => AddBack(q, rq, fs, ms)
    case DoPeek => Peek(q)
    case DoDequeue => Dequeue(q)
  }

  /** A run, every step of which is enabled. */
  ghost predicate Run(c: Class, q: Queue, steps: seq<Step>)
    decreases |steps|
  {
    steps != [] ==> Enabled(c, q, steps[0]) && Run(c, Next(q, steps[0]), steps[1..])
  }

  ghost function Final(c: Class, q: Queue, steps: seq<Step>): Queue
    requires Run(c, q, steps)
    decreases |steps|
  {
    if steps == [] then q else Final(c, Next(q, steps[0]), steps[1..])
  }

  /** The step keeps the order: a request goes to the tail of a list that is in the order of
      its end, and to the back if it may join there. */
  ghost predicate Orderly(q: Queue, st: Step) {
    match st
    case DoTail(rq) => MayTail(q, rq)
    case DoBack(rq, fs, ms) => MayJoin(Drained(Marked(q, rq, fs), ms), rq)
    case _ => true
  }

  ghost predicate AllOrderly(c: Class, q: Queue, steps: seq<Step>)
    requires Run(c, q, steps)
    decreases |steps|
  {
    steps != [] ==> Orderly(q, steps[0]) && AllOrderly(c, Next(q, steps[0]), steps[1..])
  }

  lemma {:induction false} PeekInv(c: Class, q: Queue, m: nat, n: nat) returns (m': nat, n': nat)
    requires Inv(c, q, m, n) == true && q.list != []
    ensures Inv(c, Peek(q), m', n') == true
  {
    n' := if n == 0 then 1 else n;
    if m == 0 {
      PeekMoves(c, q, n);
      return 1, n';
    }
    PeekStays(c, q, m, n);
    return m, n';
  }

  lemma {:induction false} NextInv(c: Class, q: Queue, m: nat, n: nat, st: Step) returns (m': nat, n': nat)
    requires Inv(c, q, m, n) == true && Enabled(c, q, st) == true && Orderly(q, st) == true
    ensures Inv(c, Next(q, st), m', n') == true
  {
    match st {
      case DoSort(rq) =>
        SortInv(c, q, m, n, rq);
        return Shifted(m, SortPos(q.list, q.end, rq)), n;
      case DoTail(rq) =>
        TailInv(c, q, m, n, rq);
        return |q.list| + 1, n;
      case DoBack(rq, fs, ms) =>
        m', n' := BackInv(c, q, m, n, rq, fs, ms);
      case DoPeek =>
        m', n' := PeekInv(c, q, m, n);
      case DoDequeue =>
        DequeueInv(c, q, m, n);
        return m - 1, n - 1;
    }
  }

  lemma {:induction false} RunInv(c: Class, q: Queue, m: nat, n: nat, steps: seq<Step>) returns (m': nat, n': nat)
    requires Inv(c, q, m, n) == true && Run(c, q, steps) && AllOrderly(c, q, steps)
    ensures Inv(c, Final(c, q, steps), m', n') == true
    decreases |steps|
  {
    if steps == [] { return m, n; }
    m', n' := NextInv(c, q, m, n, steps[0]);
    m', n' := RunInv(c, Next(q, steps[0]), m', n', steps[1..]);
  }

  lemma {:induction false} InvInOrder(c: Class, q: Queue, m: nat, n: nat)
    requires Inv(c, q, m, n)
    ensures InOrder(q)
  {
    forall k: nat | StartsAt(q.list, k) ensures OneWay(q.end, q.list, k) {
      StartUnique(q.list, k, n);
    }
  }

  /** The order holds after every run in which each request sent to the tail or the back may
      go there. */
  lemma {:induction false} DispatchOrder(c: Class, end: nat, steps: seq<Step>)
    requires Run(c, Queue([], end, None), steps) && AllOrderly(c, Queue([], end, None), steps)
    ensures InOrder(Final(c, Queue([], end, None), steps))
  {
    var m, n := RunInv(c, Queue([], end, None), 0, 0, steps);
    InvInOrder(c, Final(c, Queue([], end, None), steps), m, n);
  }

  // ----- requests that may not go to the tail or the back

  ghost predicate Quiet(steps: seq<Step>) {
    forall i :: 0 <= i < |steps| ==> !steps[i].DoBack? && !steps[i].DoTail?
  }

  /** Whatever is sorted, peeked at and taken off from here on, the order holds. */
  ghost predicate Survives(c: Class, q: Queue) {
    forall steps: seq<Step> :: Run(c, q, steps) && Quiet(steps) ==> InOrder(Final(c, q, steps))
  }

  lemma {:induction false} QuietOrderly(c: Class, q: Queue, steps: seq<Step>)
    requires Run(c, q, steps) && Quiet(steps)
    ensures AllOrderly(c, q, steps)
    decreases |steps|
  {
    if steps != [] { QuietOrderly(c, Next(q, steps[0]), steps[1..]); }
  }

  lemma {:induction false} InvSurvives(c: Class, q: Queue, m: nat, n: nat)
    requires Inv(c, q, m, n) == true
    ensures Survives(c, q)
  {
    forall steps: seq<Step> | Run(c, q, steps) && Quiet(steps) ensures InOrder(Final(c, q, steps)) {
      QuietOrderly(c, q, steps);
      var m', n' := RunInv(c, q, m, n, steps);
      InvInOrder(c, Final(c, q, steps), m', n');
    }
  }

  /** A first step that leads to trouble. */
  lemma {:induction false} StepAhead(c: Class, q: Queue, st: Step)
    requires Enabled(c, q, st) && !st.DoBack? && !st.DoTail? && !Survives(c, Next(q, st))
    ensures !Survives(c, q)
  {
    var steps: seq<Step> :| Run(c, Next(q, st), steps) && Quiet(steps) && !InOrder(Final(c, Next(q, st), steps));
    var more := [st] + steps;
    assert more[1..] == steps;
    assert Run(c, q, more) && Quiet(more);
    assert Final(c, q, more) == Final(c, Next(q, st), steps);
  }

  lemma {:induction false} NowBroken(c: Class, q: Queue)
    requires !InOrder(q)
    ensures !Survives(c, q)
  {
    var steps: seq<Step> := [];
    assert Run(c, q, steps) && Quiet(steps) && Final(c, q, steps) == q;
  }

  function Plain(k: Class, id: Id, pos: nat): Rq {
    Rq(id, pos, 1, k.write, k.discard, false, false)
  }

  /** An id and a sector beyond all requests. */
  function Beyond(l: seq<Rq>): (r: (nat, nat))
    ensures forall i :: 0 <= i < |l| ==> l[i].id < r.0 && l[i].End() <= r.1
  {
    if l == [] then (0, 0)
    else
      var (a, b) := Beyond(l[1..]);
      assert forall i :: 0 < i < |l| ==> l[i] == l[1..][i - 1];
      (if l[0].id >= a then l[0].id + 1 else a, if l[0].End() >= b then l[0].End() else b)
  }

  /** Behind a stop, the first request sorted goes to the back, the second to the back or
      just before the first. */
  lemma {:induction false} TwoSorted(k: Class, q: Queue, x: Rq, y: Rq)
    requires q.list != [] && q.list[|q.list| - 1].Stop() && !x.Stop() && !y.Stop()
    requires x.write == y.write == k.write && x.discard == y.discard == k.discard
    ensures Sort(q, x).list == q.list + [x]
    ensures Sort(Sort(q, x), y).list == q.list + if Precedes(q.end, x.pos, y.pos) then [x, y] else [y, x]
  {
    var l := q.list;
    assert SortPos(l, q.end, x) == |l| && SortPos(l, q.end, y) == |l|;
    var l1 := l + [x];
    assert InsertAt(l, |l|, x) == l1;
    ScanStops(q.end, y, x);
    assert l1[..|l|] == l && l1[|l1| - 1] == x;
    if Precedes(q.end, x.pos, y.pos) {
      assert InsertAt(l1, |l1|, y) == l + [x, y];
    } else {
      assert InsertAt(l1, |l|, y) == l + [y, x];
    }
  }

  /** Two requests sorted behind a stop are out of order once the end sector has moved over
      the first of them. */
  lemma {:induction false} PairOutOfOrder(k: Class, q: Queue, x: Rq, y: Rq)
    requires q.list != [] && q.boundary.None? && q.list[|q.list| - 1].Stop()
    requires x == Plain(k, x.id, x.pos) && y == Plain(k, y.id, y.pos)
    requires Precedes(q.end, x.pos, y.pos) != Precedes(q.list[0].End(), x.pos, y.pos) && x.pos != y.pos
    ensures !InOrder(Peek(Sort(Sort(q, x), y)))
  {
    TwoSorted(k, q, x, y);
    var l, e := q.list, q.list[0].End();
    var t := Sort(Sort(q, x), y);
    var r := Peek(t).list;
    assert t.list[0] == l[0] && Peek(t).end == e;
    assert StartsAt(r, |l|) by {
      assert |r| == |l| + 2 && r[|l| - 1].Stop();
    }
    assert !Precedes(e, r[|l|].pos, r[|l| + 1].pos);
  }

  lemma {:induction false} TwoThenPeek(k: Class, q: Queue, x: Rq, y: Rq)
    requires Enabled(k, q, DoSort(x)) && Enabled(k, Sort(q, x), DoSort(y)) && Sort(Sort(q, x), y).list != []
    requires !InOrder(Peek(Sort(Sort(q, x), y)))
    ensures !Survives(k, q)
  {
    NowBroken(k, Peek(Sort(Sort(q, x), y)));
    StepAhead(k, Sort(Sort(q, x), y), DoPeek);
    StepAhead(k, Sort(q, x), DoSort(y));
    StepAhead(k, q, DoSort(x));
  }

  /** A sector that is passed over and that no request holds leaves room for two requests
      that the two boundaries order differently. */
  lemma {:induction false} GapPair(k: Class, l: seq<Rq>, a: nat, b: nat) returns (x: Rq, y: Rq)
    requires !Bridged(a, b, l)
    ensures x == Plain(k, x.id, x.pos) && y == Plain(k, y.id, y.pos)
    ensures Fits(l, x) && Fits(l + [x], y)
    ensures Precedes(a, x.pos, y.pos) != Precedes(b, x.pos, y.pos) && x.pos != y.pos
  {
    var p: nat :| (a <= p < b || b <= p < a) && !Holds(l, p);
    var (id, far) := Beyond(l);
    x, y := Plain(k, id, p), Plain(k, id + 1, far + a + b + p + 1);
    forall i | 0 <= i < |l| ensures Apart(l[i], x) {
      assert !(l[i].pos <= p < l[i].End());
    }
  }

  /** A sector that the end moves over and that no request holds: two requests that fit
      end up out of order. */
  lemma {:induction false} GapBreaks(k: Class, q: Queue)
    requires q.list != [] && q.boundary.None? && q.list[|q.list| - 1].Stop()
    requires !Bridged(q.end, q.list[0].End(), q.list)
    ensures !Survives(k, q)
  {
    var x, y := GapPair(k, q.list, q.end, q.list[0].End());
    TwoSorted(k, q, x, y);
    PairOutOfOrder(k, q, x, y);
    TwoThenPeek(k, q, x, y);
  }

  lemma {:induction false} TakeHead(k: Class, q: Queue)
    requires q.list != [] && !Survives(k, Dequeue(Peek(q)))
    ensures !Survives(k, q)
  {
    StepAhead(k, Peek(q), DoDequeue);
    StepAhead(k, q, DoPeek);
  }

  lemma {:induction false} SpacedTail(l: seq<Rq>)
    requires Spaced(l) && l != []
    ensures Spaced(l[1..])
  {
    forall i, j | 0 <= i < j < |l[1..]| ensures Apart(l[1..][i], l[1..][j]) {
      assert Apart(l[i + 1], l[j + 1]);
    }
  }

  /** The gap need not be at the head: the requests before it are peeked at and taken off. */
  lemma {:induction false} LaterGapBreaks(k: Class, q: Queue, m: nat)
    requires q.list != [] && q.list[|q.list| - 1].Stop() && Spaced(q.list) && Bounded(q, m, |q.list|)
    requires !Gapless(q.end, q.list[m..])
    ensures !Survives(k, q)
    decreases |q.list|
  {
    var l := q.list;
    assert m < |l|;
    if m == 0 && !Bridged(q.end, l[0].End(), l) {
      assert l[0..] == l;
      GapBreaks(k, q);
    } else {
      var r := Dequeue(Peek(q));
      assert r.list == l[1..];
      SpacedTail(l);
      if m == 0 {
        assert l[0..] == l && r.list[0..] == l[1..];
        LaterGapBreaks(k, r, 0);
      } else {
        assert r.list[m - 1..] == l[m..];
        if m > 1 { assert Apart(l[0], l[m - 1]); }
        LaterGapBreaks(k, r, m - 1);
      }
      TakeHead(k, q);
    }
  }

  lemma {:induction false} BackBreaks(k: Class, q: Queue, m: nat, n: nat, c: Rq, fs: bool, ms: seq<Move>)
    requires Inv(k, q, m, n) == true && !c.started && Room(Marked(q, c, fs), c, ms)
    requires !MayJoin(Drained(Marked(q, c, fs), ms), c)
    ensures !Survives(k, AddBack(q, c, fs, ms))
  {
    MarkedDraining(k, q, m, n, c, fs);
    var m' := DrainedDraining(Marked(q, c, fs), c, m, n, ms);
    BackBounded(Drained(Marked(q, c, fs), ms), c, m', n);
    LaterGapBreaks(k, AddBack(q, c, fs, ms), m');
  }

  /** In any queue that a run can lead to, an insertion at the back is safe exactly when the
      request may join: when the boundary is still at it once the scheduler is drained, or the
      end sector, on its way through the requests ahead and over this one, never passes a
      sector they do not hold. */
  lemma {:induction false} BackExact(k: Class, q: Queue, m: nat, n: nat, c: Rq, fs: bool, ms: seq<Move>)
    requires Inv(k, q, m, n) == true && !c.started && Room(Marked(q, c, fs), c, ms)
    ensures Survives(k, AddBack(q, c, fs, ms)) == MayJoin(Drained(Marked(q, c, fs), ms), c)
  {
    if MayJoin(Drained(Marked(q, c, fs), ms), c) {
      var m', n' := BackInv(k, q, m, n, c, fs, ms);
      InvSurvives(k, AddBack(q, c, fs, ms), m', n');
    } else {
      BackBreaks(k, q, m, n, c, fs, ms);
    }
  }

  /** A barrier may always join while the scheduler sorts what it is drained of. */
  lemma {:induction false} SortedDrainJoins(q: Queue, c: Rq, fs: bool, ms: seq<Move>)
    requires c.barrier && (fs || c.discard) && forall i :: 0 <= i < |ms| ==> ms[i].BySort?
    ensures MayJoin(Drained(Marked(q, c, fs), ms), c)
  {
    SortedDrainStays(Marked(q, c, fs), ms);
  }

  lemma {:induction false} SortedDrainStays(q: Queue, ms: seq<Move>)
    requires forall i :: 0 <= i < |ms| ==> ms[i].BySort?
    ensures Drained(q, ms).boundary == q.boundary && Drained(q, ms).end == q.end
    decreases |ms|
  {
    if ms != [] { SortedDrainStays(Moved(q, ms[0]), ms[1..]); }
  }

  /** In any queue that a run can lead to, a request may be sent to the tail exactly when the
      requests behind the last stop are in the order that starts at its end. */
  lemma {:induction false} TailSurvives(c: Class, q: Queue, m: nat, n: nat, rq: Rq)
    requires Inv(c, q, m, n) == true && Enabled(c, q, DoTail(rq))
    ensures Survives(c, AddTail(q, rq)) == MayTail(q, rq)
  {
    TailExact(q, n, rq);
    if MayTail(q, rq) {
      TailInv(c, q, m, n, rq);
      InvSurvives(c, AddTail(q, rq), |q.list| + 1, n);
    } else {
      NowBroken(c, AddTail(q, rq));
    }
  }

  lemma {:induction false} ThreeSteps(c: Class, q: Queue, st: seq<Step>, q1: Queue, q2: Queue)
    requires |st| == 3
    requires Enabled(c, q, st[0]) && q1 == Next(q, st[0]) && Enabled(c, q1, st[1]) && q2 == Next(q1, st[1])
    requires Enabled(c, q2, st[2])
    ensures Run(c, q, st) && Final(c, q, st) == Next(q2, st[2])
  {
    var s1 := st[1..];
    var s2 := s1[1..];
    var q3 := Next(q2, st[2]);
    assert s1[0] == st[1] && s2[0] == st[2] && s2[1..] == [];
    assert Run(c, q3, []) && Final(c, q3, []) == q3;
    assert Run(c, q2, s2) && Final(c, q2, s2) == q3;
    assert Run(c, q1, s1) && Final(c, q1, s1) == q3;
  }

  lemma {:induction false} SortedPair(a: Rq, b: Rq)
    requires a.pos < b.pos && !a.Stop() && !b.Stop()
    ensures Sort(Queue([], 0, None), a).list == [a]
    ensures Sort(Queue([a], 0, None), b).list == [a, b]
  {
    var l := [a];
    SortPosIs(l, 0, b);
    assert SortPos(l, 0, b) == 1 && InsertAt(l, 1, b) == [a, b];
    assert InsertAt([], 0, a) == [a];
  }

  /** Sorted at sectors 10 and 20, then one at 15 sent to the tail: the list is out of order. */
  lemma {:induction false} TailBreaksOrder()
    ensures var c := Class(false, false);
            var steps := [DoSort(Plain(c, 0, 10)), DoSort(Plain(c, 1, 20)), DoTail(Plain(c, 2, 15))];
            Run(c, Queue([], 0, None), steps) && !InOrder(Final(c, Queue([], 0, None), steps))
  {
    var c := Class(false, false);
    var a, b, x := Plain(c, 0, 10), Plain(c, 1, 20), Plain(c, 2, 15);
    SortedPair(a, b);
    ThreeSteps(c, Queue([], 0, None), [DoSort(a), DoSort(b), DoTail(x)], Queue([a], 0, None), Queue([a, b], 0, None));
    OutOfOrder(Queue([a, b], 0, None), x);
  }

  lemma {:induction false} OutOfOrder(q: Queue, x: Rq)
    requires |q.list| == 2 && q.list[0].pos < x.End() <= q.list[1].pos
    requires !q.list[0].Stop() && !q.list[1].Stop() && !x.Stop()
    ensures !InOrder(AddTail(q, x))
  {
    var r := AddTail(q, x);
    assert StartsAt(r.list, 0) && r.list[0] == q.list[0] && r.list[1] == q.list[1];
    assert !Precedes(r.end, r.list[0].pos, r.list[1].pos);
  }

  /** A barrier at sector 10 whose drain sends a request at 20 to the tail loses its boundary:
      the order does not survive. */
  lemma {:induction false} TailDrainBreaks(k: Class)
    ensures var q, rq := Queue([], 0, None), Plain(k, 0, 10).(barrier := true);
            !Survives(k, AddBack(q, rq, true, [ByTail(Plain(k, 1, 20))]))
  {
    var q, rq, x := Queue([], 0, None), Plain(k, 0, 10).(barrier := true), Plain(k, 1, 20);
    var ms := [ByTail(x)];
    var d := AddTail(Marked(q, rq, true), x);
    assert ms[1..] == [] && Drained(d, []) == d && Drained(Marked(q, rq, true), ms) == d;
    assert d.list == [x] && Still(d) == 1 && d.list[1..] + [rq] == [rq];
    assert !Holds([rq], 15) && !Bridged(d.end, rq.End(), [rq]);
    assert Inv(k, q, 0, 0) && Room(Marked(q, rq, true), rq, ms);
    BackExact(k, q, 0, 0, rq, true, ms);
  }

  /** Into an idle queue: exactly when the end sector already lies within the request. */
  lemma {:induction false} IdleMayFollow(end: nat, c: Rq)
    ensures MayFollow(Queue([], end, None), c) <==> c.pos <= end <= c.End()
  {
    var s := [c.(barrier := true)];
    assert Queue([], end, None).list[0..] + s == s && s[1..] == [];
    assert Gapless(end, s) <==> Bridged(end, c.End(), s);
    assert forall p: nat :: Holds(s, p) <==> s[0].pos <= p < s[0].End();
    if !(c.pos <= end <= c.End()) {
      assert !Holds(s, if end < c.pos then end else c.End());
    }
  }

  // ----- the list as it is updated in place

  class RequestQueue {
    var list: seq<Rq>
    var endSector: nat
    var boundaryRq: Option<Id>
    var nrSorted: nat

    ghost function Value(): Queue
      reads this
    {
      Queue(list, endSector, boundaryRq)
    }

    constructor ()
      ensures Value() == Queue([], 0, None) && nrSorted == 0
    {
      list, endSector, boundaryRq, nrSorted := [], 0, None, 0;
    }

    method DispatchSort(rq: Rq)
      requires nrSorted > 0
      modifies this
      ensures Value() == Sort(old(Value()), rq) && nrSorted == old(nrSorted) - 1
    {
      nrSorted := nrSorted - 1;
      var entry := |list|;
      assert list[..entry] == list;
      while entry > 0 && Passes(endSector, rq, list[entry - 1])
        invariant 0 <= entry <= |list| && SortPos(list[..entry], endSector, rq) == SortPos(list, endSector, rq)
      {
        assert list[..entry][..entry - 1] == list[..entry - 1];
        entry := entry - 1;
      }
      list := InsertAt(list, entry, rq);
    }

    /** elv_dispatch_add_tail: unsorted, and the boundary moves to the request. */
    method DispatchAddTail(rq: Rq)
      requires nrSorted > 0
      modifies this
      ensures Value() == AddTail(old(Value()), rq) && nrSorted == old(nrSorted) - 1
      ensures forall n: nat :: StartsAt(old(list), n) && Fits(old(list), rq) && !rq.Stop() ==>
                (InOrder(Value()) <==> MayTail(old(Value()), rq))
    {
      nrSorted := nrSorted - 1;
      ghost var q := Value();
      endSector, boundaryRq := rq.End(), Some(rq.id);
      list := list + [rq];
      forall n: nat | StartsAt(q.list, n) && Fits(q.list, rq) && !rq.Stop()
        ensures InOrder(AddTail(q, rq)) <==> MayTail(q, rq)
      {
        TailExact(q, n, rq);
      }
    }

    /** The drain hands over `ms`, by elv_dispatch_sort or elv_dispatch_add_tail. */
    method Drain(ms: seq<Move>)
      requires |ms| <= nrSorted
      modifies this
      ensures Value() == Drained(old(Value()), ms) && nrSorted == old(nrSorted) - |ms|
    {
      ghost var q := Value();
      var i := 0;
      assert ms[0..] == ms;
      while i < |ms|
        invariant i <= |ms| && nrSorted == old(nrSorted) - i
        invariant Drained(Value(), ms[i..]) == Drained(q, ms)
      {
        assert ms[i..][1..] == ms[i + 1..];
        match ms[i] {
          case BySort(rq) => DispatchSort(rq);
          case ByTail(rq) => DispatchAddTail(rq);
        }
        i := i + 1;
      }
    }

    method InsertBack(rq: Rq, fs: bool, ms: seq<Move>)
      requires |ms| <= nrSorted
      modifies this
      ensures Value() == AddBack(old(Value()), rq, fs, ms) && nrSorted == old(nrSorted) - |ms|
    {
      if rq.barrier && (fs || rq.discard) {
        endSector, boundaryRq := rq.End(), Some(rq.id);
      }
      Drain(ms);
      list := list + [rq.(barrier := true)];
    }

    method PeekRequest() returns (rq: Option<Rq>)
      modifies this
      ensures old(list) == [] ==> rq.None? && Value() == old(Value())
      ensures old(list) != [] ==>
                Value() == Peek(old(Value())) && list != [] && rq == Some(list[0]) && list[0].started
      ensures nrSorted == old(nrSorted)
    {
      if list == [] { return None; }
      list := [list[0].(started := true)] + list[1..];
      if boundaryRq.None? || boundaryRq == Some(list[0].id) {
        endSector, boundaryRq := list[0].End(), None;
      }
      rq := Some(list[0]);
    }
  }
}
