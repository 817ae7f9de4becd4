/** The deadline I/O scheduler. Each direction keeps its requests in a list sorted
    by sector and in a fifo sorted by deadline, and dispatches in batches. */
module Deadline {
  import opened Lists
  import opened Options

  type Id = nat

  datatype Rq = Rq(write: bool, pos: nat, sectors: nat, time: nat)

  /** sort_list, fifo_list and next_rq of one direction. */
  datatype Side = Side(sort: seq<Id>, fifo: seq<Id>, next: Option<Id>)

  /** deadline_data, q->nr_sorted and the dispatch queue. fifo_batch and writes_starved
      are int, starved is unsigned int. */
  datatype Data = Data(
    read: Side,
    write: Side,
    rqs: map<Id, Rq>,
    batching: nat,
    starved: nat,
    lastSector: nat,
    nrSorted: int,
    dispatched: seq<Id>)

  type Int32 = i: int | -0x8000_0000 <= i < 0x8000_0000

  datatype Tuning = Tuning(readExpire: nat, writeExpire: nat, fifoBatch: nat, writesStarved: Int32)

  function SideOf(d: Data, write: bool): Side {
    if write then d.write else d.read
  }

  function WithSide(d: Data, write: bool, s: Side): Data {
    if write then d.(write := s) else d.(read := s)
  }

  lemma {:induction false} WithSideIs(d: Data, w: bool, s: Side)
    ensures SideOf(WithSide(d, w, s), w) == s && SideOf(WithSide(d, w, s), !w) == SideOf(d, !w)
    ensures WithSide(d, w, s).rqs == d.rqs
  {
  }

  function Expire(t: Tuning, write: bool): nat {
    if write then t.writeExpire else t.readExpire
  }

  // ----- one direction

  /** elv_rb_find: the request at a sector. */
  function Find(sort: seq<Id>, rqs: map<Id, Rq>, pos: nat): (r: Option<Id>)
    requires forall x :: x in sort ==> x in rqs
    ensures r.Some? ==> r.value in sort && rqs[r.value].pos == pos
    ensures r.None? ==> forall x :: x in sort ==> rqs[x].pos != pos
  {
    if sort == [] then None
    else if rqs[sort[0]].pos == pos then Some(sort[0])
    else Find(sort[1..], rqs, pos)
  }

  /** elv_rb_add at a free sector. */
  function Insert(sort: seq<Id>, rqs: map<Id, Rq>, x: Id): (r: seq<Id>)
    requires x in rqs && forall y :: y in sort ==> y in rqs
    ensures forall y :: y in r <==> y == x || y in sort
  {
    if sort == [] || rqs[x].pos < rqs[sort[0]].pos then [x] + sort
    else [sort[0]] + Insert(sort[1..], rqs, x)
  }

  /** deadline_latter_request: the next in sector order. */
  function Latter(sort: seq<Id>, x: Id): (r: Option<Id>)
    ensures r.Some? ==> r.value in sort
  {
    if |sort| < 2 then None else if sort[0] == x then Some(sort[1]) else Latter(sort[1..], x)
  }

  /** deadline_remove_request. */
  function Remove(s: Side, x: Id): Side {
    Side(Without(s.sort, x), Without(s.fifo, x), if s.next == Some(x) then Latter(s.sort, x) else s.next)
  }

  /** In order of sector, no two at one sector. */
  ghost predicate Ascending(sort: seq<Id>, rqs: map<Id, Rq>)
    requires forall x :: x in sort ==> x in rqs
  {
    sort != [] ==> (forall y :: y in sort[1..] ==> rqs[sort[0]].pos < rqs[y].pos) && Ascending(sort[1..], rqs)
  }

  /** In order of deadline, none after `limit`. */
  ghost predicate Timely(fifo: seq<Id>, rqs: map<Id, Rq>, limit: nat)
    requires forall x :: x in fifo ==> x in rqs
  {
    fifo != [] ==>
      && rqs[fifo[0]].time <= limit
      && (forall y :: y in fifo[1..] ==> rqs[fifo[0]].time <= rqs[y].time)
      && Timely(fifo[1..], rqs, limit)
  }

  /** The sort list and the fifo hold the same requests, all of this direction, except
      that the requests in `off` are off the sort list. */
  ghost predicate Queued(s: Side, rqs: map<Id, Rq>, write: bool, off: set<Id>) {
    && Distinct(s.fifo)
    && (forall x :: x in s.sort <==> x in s.fifo && x !in off)
    && (forall x :: x in s.fifo ==> x in rqs && rqs[x].write == write)
  }

  ghost predicate SideOk(s: Side, rqs: map<Id, Rq>, write: bool, limit: nat, off: set<Id>) {
    && Queued(s, rqs, write, off)
    && Ascending(s.sort, rqs) && Timely(s.fifo, rqs, limit)
    && (s.next.Some? ==> s.next.value in s.fifo)
  }

  lemma {:induction false} AscendingDistinct(sort: seq<Id>, rqs: map<Id, Rq>)
    requires (forall x :: x in sort ==> x in rqs) && Ascending(sort, rqs)
    ensures Distinct(sort)
  {
    if sort != [] {
      AscendingDistinct(sort[1..], rqs);
      assert sort[0] !in sort[1..];
      assert sort == [sort[0]] + sort[1..];
    }
  }

  lemma {:induction false} WithoutAscending(sort: seq<Id>, rqs: map<Id, Rq>, x: Id)
    requires (forall y :: y in sort ==> y in rqs) && Ascending(sort, rqs)
    ensures Ascending(Without(sort, x), rqs)
  {
    if sort != [] { WithoutAscending(sort[1..], rqs, x); }
  }

  lemma {:induction false} WithoutTimely(fifo: seq<Id>, rqs: map<Id, Rq>, limit: nat, x: Id)
    requires (forall y :: y in fifo ==> y in rqs) && Timely(fifo, rqs, limit)
    ensures Timely(Without(fifo, x), rqs, limit)
  {
    if fifo != [] { WithoutTimely(fifo[1..], rqs, limit, x); }
  }

  lemma {:induction false} LatterOther(sort: seq<Id>, x: Id)
    requires Distinct(sort)
    ensures Latter(sort, x) != Some(x)
    ensures Latter(sort, x).Some? ==> Latter(sort, x).value in Without(sort, x)
  {
    if |sort| >= 2 && sort[0] != x { LatterOther(sort[1..], x); }
  }

  lemma {:induction false} RemoveOk(s: Side, rqs: map<Id, Rq>, write: bool, limit: nat, off: set<Id>, x: Id)
    requires SideOk(s, rqs, write, limit, off) == true
    ensures SideOk(Remove(s, x), rqs, write, limit, off)
  {
    AscendingDistinct(s.sort, rqs);
    DistinctWithout(s.fifo, x);
    WithoutAscending(s.sort, rqs, x);
    WithoutTimely(s.fifo, rqs, limit, x);
    LatterOther(s.sort, x);
  }

  lemma {:induction false} RemoveLength(s: Side, x: Id)
    requires Distinct(s.fifo) && x in s.fifo
    ensures |Remove(s, x).fifo| == |s.fifo| - 1
  {
    var i :| 0 <= i < |s.fifo| && s.fifo[i] == x;
    WithoutAt(s.fifo, i);
  }

  /** A request at a free sector keeps the order. */
  lemma {:induction false} InsertAscending(sort: seq<Id>, rqs: map<Id, Rq>, x: Id)
    requires x in rqs && (forall y :: y in sort ==> y in rqs) && Ascending(sort, rqs)
    requires forall y :: y in sort ==> rqs[y].pos != rqs[x].pos
    ensures Ascending(Insert(sort, rqs, x), rqs)
  {
    if sort != [] && rqs[x].pos >= rqs[sort[0]].pos {
      InsertAscending(sort[1..], rqs, x);
    } else if sort != [] {
      assert ([x] + sort)[1..] == sort;
    }
  }

  // ----- the two directions

  /** deadline_move_request: on to the dispatch queue, and the batch goes on from there. */
  function MoveRequest(d: Data, x: Id): Data
    requires x in d.rqs
  {
    var rq := d.rqs[x];
    var s := SideOf(d, rq.write);
    var d1 := d.(lastSector := rq.pos + rq.sectors, nrSorted := d.nrSorted - 1, dispatched := d.dispatched + [x]);
    var d2 := WithSide(d1, rq.write, Remove(s.(next := Latter(s.sort, x)), x));
    WithSide(d2, !rq.write, SideOf(d, !rq.write).(next := None))
  }

  /** The requests on the sort lists are known, each to its own direction. */
  ghost predicate Known(d: Data) {
    && (forall y :: y in d.read.sort ==> y in d.rqs && !d.rqs[y].write)
    && (forall y :: y in d.write.sort ==> y in d.rqs && d.rqs[y].write)
  }

  /** The loop of deadline_add_rq_rb: a request at the same sector is dispatched to make room. */
  function MakeRoom(d: Data, x: Id): (r: Data)
    requires x in d.rqs && Known(d)
    ensures r.rqs == d.rqs
  {
    var alias := Find(SideOf(d, d.rqs[x].write).sort, d.rqs, d.rqs[x].pos);
    if alias.Some? then MoveRequest(d, alias.value) else d
  }

  function Linked(s: Side, rqs: map<Id, Rq>, x: Id): Side
    requires x in rqs && forall y :: y in s.sort ==> y in rqs
  {
    s.(sort := Insert(s.sort, rqs, x))
  }

  /** __elv_add_request has counted and initialised the request. */
  function Counted(d: Data, x: Id, rq: Rq): Data {
    d.(rqs := d.rqs[x := rq], nrSorted := d.nrSorted + 1)
  }

  function NewRq(t: Tuning, write: bool, pos: nat, sectors: nat, now: nat): Rq {
    Rq(write, pos, sectors, now + Expire(t, write))
  }

  /** deadline_add_request. */
  function AddRequest(d: Data, x: Id, rq: Rq): Data
    requires Known(d) && x !in d.rqs
  {
    var d1 := MakeRoom(Counted(d, x, rq), x);
    var s := Linked(SideOf(d1, rq.write), d1.rqs, x);
    WithSide(d1, rq.write, s.(fifo := s.fifo + [x]))
  }

  function Grown(rq: Rq, sectors: nat): Rq
    requires sectors <= rq.pos
  {
    rq.(pos := rq.pos - sectors, sectors := rq.sectors + sectors)
  }

  /** A bio was put in front of request `x`, which is taken off the sort list. */
  function TakenOff(d: Data, x: Id, rq: Rq): Data {
    WithSide(d.(rqs := d.rqs[x := rq]), rq.write, SideOf(d, rq.write).(sort := Without(SideOf(d, rq.write).sort, x)))
  }

  /** deadline_merged_request after a front merge: the request is repositioned. */
  function FrontMerge(d: Data, x: Id, sectors: nat): Data
    requires Known(d) && x in d.rqs && sectors <= d.rqs[x].pos
  {
    var d1 := MakeRoom(TakenOff(d, x, Grown(d.rqs[x], sectors)), x);
    WithSide(d1, d.rqs[x].write, Linked(SideOf(d1, d.rqs[x].write), d1.rqs, x))
  }

  /** list_move of `x` to just behind `y`. */
  function MoveAfter(fifo: seq<Id>, x: Id, y: Id): seq<Id> {
    AddAfter(Without(fifo, x), x, y)
  }

  function AddAfter(fifo: seq<Id>, x: Id, y: Id): seq<Id> {
    if fifo == [] then [] else if fifo[0] == y then [y, x] + fifo[1..] else [fifo[0]] + AddAfter(fifo[1..], x, y)
  }

  /** `x` with the sectors of `y`, and its deadline if that is earlier. */
  function Swallowed(rqs: map<Id, Rq>, x: Id, y: Id): Rq
    requires x in rqs && y in rqs
  {
    rqs[x].(sectors := rqs[x].sectors + rqs[y].sectors,
            time := if rqs[y].time < rqs[x].time then rqs[y].time else rqs[x].time)
  }

  /** `x` moves behind `y` in the fifo if `y` has the earlier deadline. */
  function Advanced(s: Side, rqs: map<Id, Rq>, x: Id, y: Id): Side
    requires x in rqs && y in rqs
  {
    if rqs[y].time < rqs[x].time then s.(fifo := MoveAfter(s.fifo, x, y)) else s
  }

  /** `x` swallows `y`, and takes over its deadline and its place in the fifo if that is earlier. */
  function Swallow(d: Data, x: Id, y: Id): Data
    requires x in d.rqs && y in d.rqs
  {
    WithSide(d.(rqs := d.rqs[x := Swallowed(d.rqs, x, y)]),
             d.rqs[x].write, Advanced(SideOf(d, d.rqs[x].write), d.rqs, x, y))
  }

  function Drop(d: Data, y: Id): Data
    requires y in d.rqs
  {
    WithSide(d.(nrSorted := d.nrSorted - 1), d.rqs[y].write, Remove(SideOf(d, d.rqs[y].write), y))
  }

  /** deadline_merged_requests and elv_merge_requests. */
  function MergeRequests(d: Data, x: Id, y: Id): Data
    requires x in d.rqs && y in d.rqs
  {
    Drop(Swallow(d, x, y), y)
  }

  /** What deadline_dispatch_requests decides: which request, and whether it starts a batch. */
  datatype Choice = Nothing | Continue(x: Id) | NewBatch(x: Id, write: bool)

  /** dd->starved >= dd->writes_starved is compared as unsigned int. */
  function Threshold(t: Tuning): nat {
    if t.writesStarved >= 0 then t.writesStarved else t.writesStarved + 0x1_0000_0000
  }

  /** The first request of a new batch: the fifo head if it has expired or there is
      nothing to go on from. */
  function BatchStart(d: Data, write: bool, now: nat): (x: Id)
    requires SideOf(d, write).fifo != [] && SideOf(d, write).fifo[0] in d.rqs
  {
    var s := SideOf(d, write);
    if now > d.rqs[s.fifo[0]].time || s.next.None? then s.fifo[0] else s.next.value
  }

  function Choose(t: Tuning, d: Data, now: nat): Choice
    requires forall w: bool :: SideOf(d, w).fifo != [] ==> SideOf(d, w).fifo[0] in d.rqs
  {
    var rq := if d.write.next.Some? then d.write.next else d.read.next;
    if rq.Some? && d.batching < t.fifoBatch then Continue(rq.value)
    else if d.read.fifo != [] && !(d.write.fifo != [] && d.starved >= Threshold(t)) then
      NewBatch(BatchStart(d, false, now), false)
    else if d.write.fifo != [] then NewBatch(BatchStart(d, true, now), true)
    else Nothing
  }

  /** The counters after a choice; starved is an unsigned int. */
  function Accounted(d: Data, c: Choice): Data
    requires !c.Nothing?
  {
    if c.Continue? then d.(batching := d.batching + 1)
    else if c.write then d.(starved := 0, batching := 1)
    else d.(starved := if d.write.fifo != [] then (d.starved + 1) % 0x1_0000_0000 else d.starved, batching := 1)
  }

  /** deadline_dispatch_requests. */
  function Dispatch(t: Tuning, d: Data, now: nat): Data
    requires forall w: bool :: SideOf(d, w).fifo != [] ==> SideOf(d, w).fifo[0] in d.rqs
    requires Choose(t, d, now) != Nothing ==> Choose(t, d, now).x in d.rqs
  {
    var c := Choose(t, d, now);
    if c.Nothing? then d else MoveRequest(Accounted(d, c), c.x)
  }

  // ----- the structure

  /** Both directions, with `off` off the sort lists, and at most one next_rq. */
  ghost predicate Sides(t: Tuning, d: Data, now: nat, off: set<Id>) {
    && SideOk(d.read, d.rqs, false, now + t.readExpire, off)
    && SideOk(d.write, d.rqs, true, now + t.writeExpire, off)
    && (d.read.next.None? || d.write.next.None?)
  }

  lemma {:induction false} EitherSide(t: Tuning, d: Data, now: nat, off: set<Id>, w: bool)
    requires Sides(t, d, now, off) == true
    ensures SideOk(SideOf(d, w), d.rqs, w, now + Expire(t, w), off)
  {
    if w {
      assert SideOf(d, w) == d.write && now + Expire(t, w) == now + t.writeExpire;
    } else {
      assert SideOf(d, w) == d.read && now + Expire(t, w) == now + t.readExpire;
    }
  }

  lemma {:induction false} BothSides(t: Tuning, d: Data, now: nat, off: set<Id>, w: bool)
    requires SideOk(SideOf(d, w), d.rqs, w, now + Expire(t, w), off) == true
    requires SideOk(SideOf(d, !w), d.rqs, !w, now + Expire(t, !w), off) == true
    requires d.read.next.None? || d.write.next.None?
    ensures Sides(t, d, now, off) == true
  {
    if w {
      assert SideOf(d, w) == d.write && SideOf(d, !w) == d.read;
    } else {
      assert SideOf(d, w) == d.read && SideOf(d, !w) == d.write;
    }
  }

  /** nr_sorted counts the queued requests. */
  ghost predicate Inv(t: Tuning, d: Data, now: nat) {
    Sides(t, d, now, {}) && d.nrSorted == |d.read.fifo| + |d.write.fifo|
  }

  ghost function Uncounted(d: Data): int {
    d.nrSorted - |d.read.fifo| - |d.write.fifo|
  }

  lemma {:induction false} MovedSide(t: Tuning, d: Data, now: nat, off: set<Id>, x: Id)
    requires Sides(t, d, now, off) == true && x in d.rqs && x in SideOf(d, d.rqs[x].write).fifo
    ensures var w := d.rqs[x].write;
            SideOk(SideOf(MoveRequest(d, x), w), d.rqs, w, now + Expire(t, w), off) == true
  {
    var w := d.rqs[x].write;
    EitherSide(t, d, now, off, w);
    RemoveOk(SideOf(d, w).(next := Latter(SideOf(d, w).sort, x)), d.rqs, w, now + Expire(t, w), off, x);
  }

  lemma {:induction false} MovedOther(t: Tuning, d: Data, now: nat, off: set<Id>, x: Id)
    requires Sides(t, d, now, off) == true && x in d.rqs
    ensures var w := !d.rqs[x].write;
            SideOk(SideOf(MoveRequest(d, x), w), d.rqs, w, now + Expire(t, w), off) == true
  {
    EitherSide(t, d, now, off, !d.rqs[x].write);
  }

  lemma {:induction false} MoveRequestOk(t: Tuning, d: Data, now: nat, off: set<Id>, x: Id)
    requires Sides(t, d, now, off) == true && x in d.rqs && x in SideOf(d, d.rqs[x].write).fifo
    ensures Sides(t, MoveRequest(d, x), now, off) == true
  {
    MovedSide(t, d, now, off, x);
    MovedOther(t, d, now, off, x);
    BothSides(t, MoveRequest(d, x), now, off, d.rqs[x].write);
  }

  lemma {:induction false} MoveRequestCounts(t: Tuning, d: Data, now: nat, off: set<Id>, x: Id)
    requires Sides(t, d, now, off) == true && x in d.rqs && x in SideOf(d, d.rqs[x].write).fifo
    ensures Uncounted(MoveRequest(d, x)) == Uncounted(d)
    ensures |MoveRequest(d, x).read.fifo| + |MoveRequest(d, x).write.fifo| == |d.read.fifo| + |d.write.fifo| - 1
  {
    RemoveLength(SideOf(d, d.rqs[x].write), x);
  }

  lemma {:induction false} AscendingSame(sort: seq<Id>, a: map<Id, Rq>, b: map<Id, Rq>)
    requires forall y :: y in sort ==> y in a && y in b && a[y].pos == b[y].pos
    requires Ascending(sort, a)
    ensures Ascending(sort, b)
  {
    if sort != [] { AscendingSame(sort[1..], a, b); }
  }

  lemma {:induction false} TimelySame(fifo: seq<Id>, a: map<Id, Rq>, b: map<Id, Rq>, limit: nat)
    requires forall y :: y in fifo ==> y in a && y in b && a[y].time == b[y].time
    requires Timely(fifo, a, limit)
    ensures Timely(fifo, b, limit)
  {
    if fifo != [] { TimelySame(fifo[1..], a, b, limit); }
  }

  lemma {:induction false} TimelyLater(fifo: seq<Id>, rqs: map<Id, Rq>, limit: nat, later: nat)
    requires (forall y :: y in fifo ==> y in rqs) && Timely(fifo, rqs, limit) && limit <= later
    ensures Timely(fifo, rqs, later)
  {
    if fifo != [] { TimelyLater(fifo[1..], rqs, limit, later); }
  }

  lemma {:induction false} TimelyAppend(fifo: seq<Id>, rqs: map<Id, Rq>, limit: nat, x: Id)
    requires (forall y :: y in fifo ==> y in rqs) && Timely(fifo, rqs, limit) && x in rqs && rqs[x].time == limit
    ensures Timely(fifo + [x], rqs, limit)
    ensures forall y :: y in fifo ==> rqs[y].time <= limit
  {
    if fifo == [] {
      assert [x][1..] == [];
    } else {
      TimelyAppend(fifo[1..], rqs, limit, x);
      assert (fifo + [x])[1..] == fifo[1..] + [x];
    }
  }

  /** Nothing else is at the sector of an alias. */
  lemma {:induction false} AliasUnique(sort: seq<Id>, rqs: map<Id, Rq>, a: Id)
    requires (forall y :: y in sort ==> y in rqs) && Ascending(sort, rqs) && a in sort
    ensures forall y :: y in Without(sort, a) ==> rqs[y].pos != rqs[a].pos
  {
    if sort[0] == a {
      forall y | y in Without(sort, a) ensures rqs[y].pos != rqs[a].pos {
        assert y in sort && y != a;
      }
    } else {
      AliasUnique(sort[1..], rqs, a);
    }
  }

  /** The sector of `x` is left free for it. */
  lemma {:induction false} RoomMade(t: Tuning, d: Data, now: nat, off: set<Id>, x: Id)
    requires Sides(t, d, now, off) == true && x in d.rqs && Known(d)
    ensures Sides(t, MakeRoom(d, x), now, off) == true && Uncounted(MakeRoom(d, x)) == Uncounted(d)
    ensures var w := d.rqs[x].write;
            var s, s1 := SideOf(d, w), SideOf(MakeRoom(d, x), w);
            && Free(MakeRoom(d, x), x)
            && (x !in s.sort && x in s.fifo ==> x in s1.fifo)
            && (x !in s.fifo ==> x !in s1.fifo)
  {
    var w := d.rqs[x].write;
    var s := SideOf(d, w);
    var alias := Find(s.sort, d.rqs, d.rqs[x].pos);
    if alias.Some? {
      MoveRequestOk(t, d, now, off, alias.value);
      MoveRequestCounts(t, d, now, off, alias.value);
      AliasUnique(s.sort, d.rqs, alias.value);
    }
  }

  /** Side `w` changes, the other one does not. */
  lemma {:induction false} OneSide(t: Tuning, d: Data, now: nat, off: set<Id>, w: bool, s: Side)
    requires Sides(t, d, now, off) == true && forall x :: x in off ==> x in SideOf(d, w).fifo
    requires SideOk(s, d.rqs, w, now + Expire(t, w), {}) == true
    requires s.next == SideOf(d, w).next
    ensures Sides(t, WithSide(d, w, s), now, {}) == true
  {
    OtherSide(t, d, now, off, w);
    BothSides(t, WithSide(d, w, s), now, {}, w);
  }

  /** Requests of side `w` that are off the sort list say nothing about the other side. */
  lemma {:induction false} OtherSide(t: Tuning, d: Data, now: nat, off: set<Id>, w: bool)
    requires Sides(t, d, now, off) == true && forall x :: x in off ==> x in SideOf(d, w).fifo
    ensures SideOk(SideOf(d, !w), d.rqs, !w, now + Expire(t, !w), {}) == true
  {
    EitherSide(t, d, now, off, w);
    EitherSide(t, d, now, off, !w);
    assert Queued(SideOf(d, !w), d.rqs, !w, off);
    forall x | x in SideOf(d, w).fifo ensures x !in SideOf(d, !w).fifo {
      assert d.rqs[x].write == w;
    }
  }

  /** A request that was off the sort list goes back on it. */
  lemma {:induction false} InsertBack(s: Side, rqs: map<Id, Rq>, w: bool, limit: nat, x: Id)
    requires SideOk(s, rqs, w, limit, {x}) == true && x in s.fifo
    requires forall y :: y in s.sort ==> rqs[y].pos != rqs[x].pos
    ensures SideOk(Linked(s, rqs, x), rqs, w, limit, {})
  {
    InsertAscending(s.sort, rqs, x);
  }

  /** A new request goes on the sort list and on the fifo. */
  lemma {:induction false} InsertNew(s: Side, rqs: map<Id, Rq>, w: bool, limit: nat, x: Id)
    requires SideOk(s, rqs, w, limit, {}) == true && x !in s.fifo && x in rqs && rqs[x].write == w && rqs[x].time == limit
    requires forall y :: y in s.sort ==> rqs[y].pos != rqs[x].pos
    ensures SideOk(Linked(s, rqs, x).(fifo := s.fifo + [x]), rqs, w, limit, {})
  {
    InsertAscending(s.sort, rqs, x);
    TimelyAppend(s.fifo, rqs, limit, x);
  }

  lemma {:induction false} SidesKnown(t: Tuning, d: Data, now: nat, off: set<Id>)
    requires Sides(t, d, now, off) == true
    ensures Known(d)
  {
  }

  /** A request that is on neither list may change at will. */
  lemma {:induction false} ChangeElsewhere(s: Side, rqs: map<Id, Rq>, w: bool, limit: nat, x: Id, rq: Rq)
    requires SideOk(s, rqs, w, limit, {}) == true && x !in s.fifo
    ensures SideOk(s, rqs[x := rq], w, limit, {})
  {
    AscendingSame(s.sort, rqs, rqs[x := rq]);
    TimelySame(s.fifo, rqs, rqs[x := rq], limit);
  }

  /** A request off the sort list may change its sector. */
  lemma {:induction false} ChangeOff(s: Side, rqs: map<Id, Rq>, w: bool, limit: nat, x: Id, rq: Rq)
    requires SideOk(s, rqs, w, limit, {}) == true && x in s.fifo
    requires rq.write == rqs[x].write && rq.time == rqs[x].time
    ensures SideOk(s.(sort := Without(s.sort, x)), rqs[x := rq], w, limit, {x})
  {
    WithoutAscending(s.sort, rqs, x);
    AscendingSame(Without(s.sort, x), rqs, rqs[x := rq]);
    TimelySame(s.fifo, rqs, rqs[x := rq], limit);
  }

  lemma {:induction false} CountedSides(t: Tuning, d: Data, now: nat, x: Id, rq: Rq)
    requires Inv(t, d, now) == true && x !in d.rqs
    ensures Sides(t, Counted(d, x, rq), now, {}) == true && Uncounted(Counted(d, x, rq)) == 1
    ensures x !in SideOf(Counted(d, x, rq), rq.write).fifo
  {
    ChangeElsewhere(d.read, d.rqs, false, now + t.readExpire, x, rq);
    ChangeElsewhere(d.write, d.rqs, true, now + t.writeExpire, x, rq);
  }

  /** The sector of `x` is free. */
  ghost predicate Free(d: Data, x: Id)
    requires x in d.rqs
  {
    forall y :: y in SideOf(d, d.rqs[x].write).sort ==> y in d.rqs && d.rqs[y].pos != d.rqs[x].pos
  }

  lemma {:induction false} LinkedNew(t: Tuning, d: Data, x: Id, now: nat)
    requires x in d.rqs && Free(d, x) && d.rqs[x].time == now + Expire(t, d.rqs[x].write)
    requires Sides(t, d, now, {}) == true && x !in SideOf(d, d.rqs[x].write).fifo
    ensures var w := d.rqs[x].write;
            var s := SideOf(d, w);
            SideOk(Linked(s, d.rqs, x).(fifo := s.fifo + [x]), d.rqs, w, now + Expire(t, w), {}) == true
  {
    var w := d.rqs[x].write;
    EitherSide(t, d, now, {}, w);
    InsertNew(SideOf(d, w), d.rqs, w, now + Expire(t, w), x);
  }

  lemma {:induction false} LinkNew(t: Tuning, d: Data, x: Id, now: nat)
    requires x in d.rqs && Free(d, x) && d.rqs[x].time == now + Expire(t, d.rqs[x].write)
    requires Sides(t, d, now, {}) == true && x !in SideOf(d, d.rqs[x].write).fifo
    ensures var w := d.rqs[x].write;
            var s := Linked(SideOf(d, w), d.rqs, x);
            var n := WithSide(d, w, s.(fifo := s.fifo + [x]));
            Sides(t, n, now, {}) == true && Uncounted(n) == Uncounted(d) - 1
  {
    var w := d.rqs[x].write;
    LinkedNew(t, d, x, now);
    var s := Linked(SideOf(d, w), d.rqs, x);
    OneSide(t, d, now, {}, w, s.(fifo := s.fifo + [x]));
  }

  lemma {:induction false} LinkBack(t: Tuning, d: Data, x: Id, now: nat)
    requires x in d.rqs && Free(d, x)
    requires Sides(t, d, now, {x}) == true && x in SideOf(d, d.rqs[x].write).fifo
    ensures var w := d.rqs[x].write;
            var n := WithSide(d, w, Linked(SideOf(d, w), d.rqs, x));
            Sides(t, n, now, {}) == true && Uncounted(n) == Uncounted(d)
  {
    var w := d.rqs[x].write;
    EitherSide(t, d, now, {x}, w);
    InsertBack(SideOf(d, w), d.rqs, w, now + Expire(t, w), x);
    OneSide(t, d, now, {x}, w, Linked(SideOf(d, w), d.rqs, x));
  }

  lemma {:induction false} AddRequestInv(t: Tuning, d: Data, x: Id, rq: Rq, now: nat)
    requires Inv(t, d, now) == true && Known(d) && x !in d.rqs && rq.time == now + Expire(t, rq.write)
    ensures Inv(t, AddRequest(d, x, rq), now) == true
  {
    CountedSides(t, d, now, x, rq);
    RoomMade(t, Counted(d, x, rq), now, {}, x);
    LinkNew(t, MakeRoom(Counted(d, x, rq), x), x, now);
  }

  lemma {:induction false} TakenOffSide(t: Tuning, d: Data, now: nat, x: Id, rq: Rq)
    requires Sides(t, d, now, {}) == true && x in d.rqs && x in SideOf(d, rq.write).fifo
    requires rq.write == d.rqs[x].write && rq.time == d.rqs[x].time
    ensures SideOk(SideOf(TakenOff(d, x, rq), rq.write), d.rqs[x := rq], rq.write, now + Expire(t, rq.write), {x}) == true
  {
    var w := rq.write;
    EitherSide(t, d, now, {}, w);
    ChangeOff(SideOf(d, w), d.rqs, w, now + Expire(t, w), x, rq);
  }

  lemma {:induction false} TakenOffOther(t: Tuning, d: Data, now: nat, x: Id, rq: Rq)
    requires Sides(t, d, now, {}) == true && x in d.rqs && rq.write == d.rqs[x].write
    ensures SideOk(SideOf(TakenOff(d, x, rq), !rq.write), d.rqs[x := rq], !rq.write, now + Expire(t, !rq.write), {x}) == true
  {
    var o := SideOf(d, !rq.write);
    EitherSide(t, d, now, {}, !rq.write);
    assert x !in o.fifo;
    ChangeElsewhere(o, d.rqs, !rq.write, now + Expire(t, !rq.write), x, rq);
  }

  lemma {:induction false} TakenOffSides(t: Tuning, d: Data, now: nat, x: Id, rq: Rq)
    requires Inv(t, d, now) == true && x in d.rqs && x in SideOf(d, rq.write).fifo
    requires rq.write == d.rqs[x].write && rq.time == d.rqs[x].time
    ensures Sides(t, TakenOff(d, x, rq), now, {x}) == true && Uncounted(TakenOff(d, x, rq)) == 0
    ensures x in SideOf(TakenOff(d, x, rq), rq.write).fifo && x !in SideOf(TakenOff(d, x, rq), rq.write).sort
  {
    TakenOffSide(t, d, now, x, rq);
    TakenOffOther(t, d, now, x, rq);
    BothSides(t, TakenOff(d, x, rq), now, {x}, rq.write);
  }

  lemma {:induction false} FrontMergeInv(t: Tuning, d: Data, x: Id, sectors: nat, now: nat)
    requires Inv(t, d, now) == true && Known(d) && x in d.rqs && x in SideOf(d, d.rqs[x].write).fifo && sectors <= d.rqs[x].pos
    ensures Inv(t, FrontMerge(d, x, sectors), now) == true
  {
    var rq := Grown(d.rqs[x], sectors);
    TakenOffSides(t, d, now, x, rq);
    RoomMade(t, TakenOff(d, x, rq), now, {x}, x);
    LinkBack(t, MakeRoom(TakenOff(d, x, rq), x), x, now);
  }

  lemma {:induction false} AddAfterMembers(l: seq<Id>, x: Id, y: Id)
    requires Distinct(l) && x !in l && y in l
    ensures Distinct(AddAfter(l, x, y)) && |AddAfter(l, x, y)| == |l| + 1
    ensures forall z :: z in AddAfter(l, x, y) <==> z == x || z in l
  {
    DistinctTail(l);
    assert l == [l[0]] + l[1..];
    if l[0] != y {
      AddAfterMembers(l[1..], x, y);
      assert l[0] !in AddAfter(l[1..], x, y);
    } else {
      assert l[0] !in [x] + l[1..];
    }
  }

  lemma {:induction false} AddAfterTimely(l: seq<Id>, rqs: map<Id, Rq>, limit: nat, x: Id, y: Id)
    requires (forall z :: z in l ==> z in rqs) && x in rqs && Timely(l, rqs, limit)
    requires Distinct(l) && x !in l && y in l && rqs[x].time == rqs[y].time
    ensures (forall z :: z in AddAfter(l, x, y) ==> z in rqs) && Timely(AddAfter(l, x, y), rqs, limit)
  {
    AddAfterMembers(l, x, y);
    var r := AddAfter(l, x, y);
    if l[0] == y {
      assert r[1..] == [x] + l[1..] && r[1..][1..] == l[1..];
    } else {
      AddAfterTimely(l[1..], rqs, limit, x, y);
      AddAfterMembers(l[1..], x, y);
      assert r[1..] == AddAfter(l[1..], x, y);
    }
  }

  lemma {:induction false} WithoutLength(l: seq<Id>, x: Id)
    requires Distinct(l) && x in l
    ensures |Without(l, x)| == |l| - 1
  {
    var i :| 0 <= i < |l| && l[i] == x;
    WithoutAt(l, i);
  }

  /** The fifo after `x` has taken the place of `y`. */
  lemma {:induction false} MovedTimely(fifo: seq<Id>, rqs: map<Id, Rq>, limit: nat, x: Id, y: Id)
    requires (forall z :: z in fifo ==> z in rqs) && Timely(fifo, rqs, limit) && Distinct(fifo)
    requires x in fifo && y in fifo && x != y && rqs[y].time < rqs[x].time
    ensures var g := MoveAfter(fifo, x, y);
            && Distinct(g) && |g| == |fifo| && (forall z :: z in g <==> z in fifo)
            && Timely(g, rqs[x := Swallowed(rqs, x, y)], limit)
  {
    var l, after := Without(fifo, x), rqs[x := Swallowed(rqs, x, y)];
    DistinctWithout(fifo, x);
    WithoutLength(fifo, x);
    WithoutTimely(fifo, rqs, limit, x);
    TimelySame(l, rqs, after, limit);
    AddAfterMembers(l, x, y);
    AddAfterTimely(l, after, limit, x, y);
  }

  /** A fifo with the same requests in another order, and other deadlines. */
  lemma {:induction false} FifoChanged(s: Side, rqs: map<Id, Rq>, w: bool, limit: nat, g: seq<Id>, after: map<Id, Rq>)
    requires SideOk(s, rqs, w, limit, {}) == true
    requires Distinct(g) && (forall z :: z in g <==> z in s.fifo)
    requires forall z :: z in s.fifo ==> z in after && after[z].pos == rqs[z].pos && after[z].write == rqs[z].write
    requires Timely(g, after, limit)
    ensures SideOk(s.(fifo := g), after, w, limit, {})
  {
    AscendingSame(s.sort, rqs, after);
  }

  lemma {:induction false} AdvancedOk(s: Side, rqs: map<Id, Rq>, w: bool, limit: nat, x: Id, y: Id)
    requires SideOk(s, rqs, w, limit, {}) == true && x in s.fifo && y in s.fifo && x != y && x in rqs && y in rqs
    ensures SideOk(Advanced(s, rqs, x, y), rqs[x := Swallowed(rqs, x, y)], w, limit, {}) == true
    ensures |Advanced(s, rqs, x, y).fifo| == |s.fifo| && y in Advanced(s, rqs, x, y).fifo
  {
    var after := rqs[x := Swallowed(rqs, x, y)];
    if rqs[y].time < rqs[x].time {
      MovedTimely(s.fifo, rqs, limit, x, y);
      FifoChanged(s, rqs, w, limit, MoveAfter(s.fifo, x, y), after);
    } else {
      TimelySame(s.fifo, rqs, after, limit);
      FifoChanged(s, rqs, w, limit, s.fifo, after);
    }
  }

  /** One side and the request table change. */
  lemma {:induction false} Rebuilt(t: Tuning, d: Data, now: nat, w: bool, s: Side)
    requires SideOk(s, d.rqs, w, now + Expire(t, w), {}) == true
    requires SideOk(SideOf(d, !w), d.rqs, !w, now + Expire(t, !w), {}) == true
    requires s.next.None? || SideOf(d, !w).next.None?
    ensures Sides(t, WithSide(d, w, s), now, {}) == true
  {
    WithSideIs(d, w, s);
    BothSides(t, WithSide(d, w, s), now, {}, w);
  }

  lemma {:induction false} SwallowSide(t: Tuning, d: Data, x: Id, y: Id, now: nat)
    requires Sides(t, d, now, {}) == true && x in d.rqs && y in d.rqs && x != y
    requires x in SideOf(d, d.rqs[x].write).fifo && y in SideOf(d, d.rqs[x].write).fifo
    ensures var w := d.rqs[x].write;
            var n := Advanced(SideOf(d, w), d.rqs, x, y);
            && SideOk(n, d.rqs[x := Swallowed(d.rqs, x, y)], w, now + Expire(t, w), {}) == true
            && |n.fifo| == |SideOf(d, w).fifo| && y in n.fifo
  {
    var w := d.rqs[x].write;
    EitherSide(t, d, now, {}, w);
    AdvancedOk(SideOf(d, w), d.rqs, w, now + Expire(t, w), x, y);
  }

  lemma {:induction false} SwallowOther(t: Tuning, d: Data, x: Id, y: Id, now: nat)
    requires Sides(t, d, now, {}) == true && x in d.rqs && y in d.rqs
    ensures var w := !d.rqs[x].write;
            SideOk(SideOf(d, w), d.rqs[x := Swallowed(d.rqs, x, y)], w, now + Expire(t, w), {}) == true
  {
    var w := !d.rqs[x].write;
    EitherSide(t, d, now, {}, w);
    ChangeElsewhere(SideOf(d, w), d.rqs, w, now + Expire(t, w), x, Swallowed(d.rqs, x, y));
  }

  lemma {:induction false} SwallowSides(t: Tuning, d: Data, x: Id, y: Id, now: nat)
    requires x in d.rqs && y in d.rqs && (d.read.next.None? || d.write.next.None?)
    requires var w := d.rqs[x].write;
             && SideOk(Advanced(SideOf(d, w), d.rqs, x, y), d.rqs[x := Swallowed(d.rqs, x, y)], w, now + Expire(t, w), {}) == true
             && SideOk(SideOf(d, !w), d.rqs[x := Swallowed(d.rqs, x, y)], !w, now + Expire(t, !w), {}) == true
    ensures Sides(t, Swallow(d, x, y), now, {}) == true
  {
    var w := d.rqs[x].write;
    assert Advanced(SideOf(d, w), d.rqs, x, y).next == SideOf(d, w).next;
    Rebuilt(t, d.(rqs := d.rqs[x := Swallowed(d.rqs, x, y)]), now, w, Advanced(SideOf(d, w), d.rqs, x, y));
  }

  lemma {:induction false} SwallowCounts(t: Tuning, d: Data, x: Id, y: Id, now: nat)
    requires Sides(t, d, now, {}) == true && x in d.rqs && y in d.rqs && x != y
    requires x in SideOf(d, d.rqs[x].write).fifo && y in SideOf(d, d.rqs[x].write).fifo
    ensures Uncounted(Swallow(d, x, y)) == Uncounted(d)
    ensures y in Swallow(d, x, y).rqs && y in SideOf(Swallow(d, x, y), Swallow(d, x, y).rqs[y].write).fifo
  {
    SwallowSide(t, d, x, y, now);
    EitherSide(t, d, now, {}, d.rqs[x].write);
  }

  lemma {:induction false} DropSides(t: Tuning, d: Data, y: Id, now: nat)
    requires Sides(t, d, now, {}) == true && y in d.rqs && y in SideOf(d, d.rqs[y].write).fifo
    ensures Sides(t, Drop(d, y), now, {}) == true && Uncounted(Drop(d, y)) == Uncounted(d)
  {
    var w := d.rqs[y].write;
    EitherSide(t, d, now, {}, w);
    EitherSide(t, d, now, {}, !w);
    RemoveOk(SideOf(d, w), d.rqs, w, now + Expire(t, w), {}, y);
    RemoveLength(SideOf(d, w), y);
    Rebuilt(t, d.(nrSorted := d.nrSorted - 1), now, w, Remove(SideOf(d, w), y));
  }

  lemma {:induction false} MergeRequestsInv(t: Tuning, d: Data, x: Id, y: Id, now: nat)
    requires Inv(t, d, now) == true && x in d.rqs && y in d.rqs && x != y
    requires x in SideOf(d, d.rqs[x].write).fifo && y in SideOf(d, d.rqs[x].write).fifo
    ensures Inv(t, MergeRequests(d, x, y), now) == true
  {
    SwallowSide(t, d, x, y, now);
    SwallowOther(t, d, x, y, now);
    SwallowSides(t, d, x, y, now);
    SwallowCounts(t, d, x, y, now);
    DropSides(t, Swallow(d, x, y), y, now);
  }

  // ----- dispatch

  ghost predicate Heads(d: Data) {
    forall w: bool :: SideOf(d, w).fifo != [] ==> SideOf(d, w).fifo[0] in d.rqs
  }

  /** What is chosen is queued, in the direction of its batch, and something is chosen
      whenever anything is queued. */
  lemma {:induction false} ChoiceQueued(t: Tuning, d: Data, now: nat)
    requires Inv(t, d, now) == true
    ensures Heads(d)
    ensures Choose(t, d, now).Nothing? <==> d.read.fifo == [] && d.write.fifo == []
    ensures var c := Choose(t, d, now);
            !c.Nothing? ==> c.x in d.rqs && c.x in SideOf(d, d.rqs[c.x].write).fifo
                            && (c.NewBatch? ==> d.rqs[c.x].write == c.write)
  {
    assert d.read.fifo != [] ==> d.read.fifo[0] in d.read.fifo;
    assert d.write.fifo != [] ==> d.write.fifo[0] in d.write.fifo;
  }

  lemma {:induction false} DispatchInv(t: Tuning, d: Data, now: nat)
    requires Inv(t, d, now) == true && Heads(d) && (Choose(t, d, now).Nothing? || Choose(t, d, now).x in d.rqs)
    ensures Inv(t, Dispatch(t, d, now), now) == true
  {
    ChoiceQueued(t, d, now);
    var c := Choose(t, d, now);
    if !c.Nothing? {
      assert Sides(t, Accounted(d, c), now, {});
      MoveRequestOk(t, Accounted(d, c), now, {}, c.x);
      MoveRequestCounts(t, Accounted(d, c), now, {}, c.x);
    }
  }
}
