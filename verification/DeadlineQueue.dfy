/** deadline_data and the request queue's counters as they are updated in place. */
module DeadlineQueue {
  import D = Deadline
  import R = DeadlineRuns
  import opened Lists
  import opened Options

  type Id = D.Id

  /** A request at the sector of `x` is moved at most once: then the sector is free. */
  lemma {:induction false} OneAlias(d: D.Data, x: Id)
    requires x in d.rqs && D.Free(d, x)
    ensures forall y :: y in D.SideOf(d, d.rqs[x].write).sort ==> y in d.rqs
    ensures D.Find(D.SideOf(d, d.rqs[x].write).sort, d.rqs, d.rqs[x].pos).None?
  {
  }

  /** The descent goes past the request at `k`. */
  lemma {:induction false} LinkStep(sort: seq<Id>, rqs: map<Id, D.Rq>, x: Id, k: nat)
    requires x in rqs && (forall y :: y in sort ==> y in rqs) && k < |sort| && !(rqs[x].pos < rqs[sort[k]].pos)
    ensures sort[..k] + D.Insert(sort[k..], rqs, x) == sort[..k + 1] + D.Insert(sort[k + 1..], rqs, x)
  {
    var rest := D.Insert(sort[k + 1..], rqs, x);
    assert sort[k..][1..] == sort[k + 1..];
    assert D.Insert(sort[k..], rqs, x) == [sort[k]] + rest;
    assert sort[..k] + ([sort[k]] + rest) == (sort[..k] + [sort[k]]) + rest;
    assert sort[..k + 1] == sort[..k] + [sort[k]];
  }

  /** A queued request stays queued until it is dispatched. */
  lemma {:induction false} DispatchKeeps(t: D.Tuning, d: D.Data, now: nat, x: Id)
    requires D.Heads(d) && !D.Choose(t, d, now).Nothing? && D.Choose(t, d, now).x in d.rqs
    requires R.IsQueued(d, x)
    ensures var n := D.Dispatch(t, d, now);
            R.IsQueued(n, x) || x in n.dispatched
    ensures forall y :: y in d.dispatched ==> y in D.Dispatch(t, d, now).dispatched
  {
  }

  class DeadlineData {
    const tuning: D.Tuning
    var read: D.Side
    var write: D.Side
    var rqs: map<Id, D.Rq>
    var batching: nat
    var starved: nat
    var lastSector: nat
    var nrSorted: int
    var dispatched: seq<Id>

    ghost function Value(): D.Data
      reads this
    {
      D.Data(read, write, rqs, batching, starved, lastSector, nrSorted, dispatched)
    }

    ghost predicate Good(now: nat)
      reads this
    {
      D.Inv(tuning, Value(), now) && R.Callable(tuning, R.State(Value(), now))
    }

    constructor (t: D.Tuning)
      ensures tuning == t && dispatched == [] && forall now :: Good(now)
    {
      tuning := t;
      read, write := D.Side([], [], None), D.Side([], [], None);
      rqs, batching, starved, lastSector, nrSorted, dispatched := map[], 0, 0, 0, 0, [];
    }

    method MoveRequest(x: Id)
      requires x in rqs
      modifies this
      ensures Value() == D.MoveRequest(old(Value()), x)
    {
      var rq := rqs[x];
      var s := if rq.write then write else read;
      read, write := read.(next := None), write.(next := None);
      s := s.(next := D.Latter(s.sort, x));
      lastSector := rq.pos + rq.sectors;
      s := D.Side(Without(s.sort, x), Without(s.fifo, x), if s.next == Some(x) then D.Latter(s.sort, x) else s.next);
      if rq.write { write := s; } else { read := s; }
      nrSorted := nrSorted - 1;
      dispatched := dispatched + [x];
    }

    /** The loop of deadline_add_rq_rb. */
    method MakeRoom(x: Id, now: nat, ghost off: set<Id>)
      requires x in rqs && D.Known(Value()) && D.Sides(tuning, Value(), now, off) == true
      modifies this
      ensures Value() == D.MakeRoom(old(Value()), x)
    {
      ghost var d := Value();
      var alias := D.Find(if rqs[x].write then write.sort else read.sort, rqs, rqs[x].pos);
      D.RoomMade(tuning, d, now, off, x);
      while alias.Some?
        invariant rqs == d.rqs
        invariant if alias.Some?
                  then Value() == d && alias == D.Find(D.SideOf(d, rqs[x].write).sort, rqs, rqs[x].pos)
                  else Value() == D.MakeRoom(d, x)
        decreases alias.Some?
      {
        MoveRequest(alias.value);
        assert Value() == D.MakeRoom(d, x);
        OneAlias(Value(), x);
        alias := D.Find(if rqs[x].write then write.sort else read.sort, rqs, rqs[x].pos);
      }
    }

    /** The descent of elv_rb_add. */
    static method Link(sort: seq<Id>, rqs: map<Id, D.Rq>, x: Id) returns (r: seq<Id>)
      requires x in rqs && forall y :: y in sort ==> y in rqs
      ensures r == D.Insert(sort, rqs, x)
    {
      var k := 0;
      while k < |sort| && !(rqs[x].pos < rqs[sort[k]].pos)
        invariant k <= |sort| && D.Insert(sort, rqs, x) == sort[..k] + D.Insert(sort[k..], rqs, x)
      {
        LinkStep(sort, rqs, x, k);
        k := k + 1;
      }
      assert D.Insert(sort[k..], rqs, x) == [x] + sort[k..];
      r := sort[..k] + ([x] + sort[k..]);
    }

    method SetSide(w: bool, s: D.Side)
      modifies this
      ensures Value() == D.WithSide(old(Value()), w, s)
    {
      if w { write := s; } else { read := s; }
    }

    /** deadline_add_rq_rb. */
    method AddRb(x: Id, now: nat, ghost off: set<Id>)
      requires x in rqs && D.Known(Value()) && D.Sides(tuning, Value(), now, off) == true
      modifies this
      ensures var d1 := D.MakeRoom(old(Value()), x);
              var s := D.SideOf(d1, old(rqs)[x].write);
              && (forall y :: y in s.sort ==> y in d1.rqs)
              && Value() == D.WithSide(d1, old(rqs)[x].write, D.Linked(s, d1.rqs, x))
    {
      D.RoomMade(tuning, Value(), now, off, x);
      OneAlias(D.MakeRoom(Value(), x), x);
      MakeRoom(x, now, off);
      var w := rqs[x].write;
      var s := if w then write else read;
      var sort := Link(s.sort, rqs, x);
      SetSide(w, s.(sort := sort));
    }

    method AddRequest(x: Id, w: bool, pos: nat, sectors: nat, now: nat)
      requires Good(now) == true && x !in rqs
      modifies this
      ensures Value() == D.AddRequest(old(Value()), x, D.NewRq(tuning, w, pos, sectors, now))
      ensures Good(now) == true
    {
      ghost var d, rq := Value(), D.NewRq(tuning, w, pos, sectors, now);
      D.CountedSides(tuning, d, now, x, rq);
      D.AddRequestInv(tuning, d, x, rq, now);
      R.GoodCallable(tuning, R.State(D.AddRequest(d, x, rq), now));
      nrSorted := nrSorted + 1;
      rqs := rqs[x := D.Rq(w, pos, sectors, now + D.Expire(tuning, w))];
      assert Value() == D.Counted(d, x, rq);
      AddRb(x, now, {});
      var s := if w then write else read;
      SetSide(w, s.(fifo := s.fifo + [x]));
    }

    /** The request grows to the front and leaves the sort list. */
    method TakeOff(x: Id, sectors: nat)
      requires x in rqs && sectors <= rqs[x].pos
      modifies this
      ensures Value() == D.TakenOff(old(Value()), x, D.Grown(old(rqs)[x], sectors))
    {
      var w := rqs[x].write;
      rqs := rqs[x := rqs[x].(pos := rqs[x].pos - sectors, sectors := rqs[x].sectors + sectors)];
      var s := if w then write else read;
      SetSide(w, s.(sort := Without(s.sort, x)));
    }

    /** deadline_merged_request, for a bio of `sectors` merged in front. */
    method FrontMerged(x: Id, sectors: nat, now: nat)
      requires Good(now) == true && R.IsQueued(Value(), x) && sectors <= rqs[x].pos
      modifies this
      ensures Value() == D.FrontMerge(old(Value()), x, sectors)
      ensures Good(now) == true
    {
      ghost var d, rq := Value(), D.Grown(rqs[x], sectors);
      D.TakenOffSides(tuning, d, now, x, rq);
      D.FrontMergeInv(tuning, d, x, sectors, now);
      R.GoodCallable(tuning, R.State(D.FrontMerge(d, x, sectors), now));
      TakeOff(x, sectors);
      AddRb(x, now, {x});
    }

    /** deadline_merged_requests: `y` is about to go. */
    method MergedRequests(x: Id, y: Id, ghost now: nat)
      requires Good(now) == true
      requires R.IsQueued(Value(), x) && R.IsQueued(Value(), y) && x != y && rqs[x].write == rqs[y].write
      modifies this
      ensures Value() == D.MergeRequests(old(Value()), x, y)
      ensures Good(now) == true
    {
      D.MergeRequestsInv(tuning, Value(), x, y, now);
      R.GoodCallable(tuning, R.State(D.MergeRequests(Value(), x, y), now));
      Absorb(x, y);
    }

    method Absorb(x: Id, y: Id)
      requires R.IsQueued(Value(), x) && R.IsQueued(Value(), y) && x != y && rqs[x].write == rqs[y].write
      modifies this
      ensures Value() == D.MergeRequests(old(Value()), x, y)
    {
      ghost var d := Value();
      var w := rqs[x].write;
      var s := if w then write else read;
      if rqs[y].time < rqs[x].time { s := s.(fifo := D.MoveAfter(s.fifo, x, y)); }
      rqs := rqs[x := D.Swallowed(rqs, x, y)];
      SetSide(w, s);
      assert Value() == D.Swallow(d, x, y);
      nrSorted := nrSorted - 1;
      SetSide(w, D.Remove(s, y));
    }

    /** The first half of deadline_dispatch_requests: which request to dispatch. */
    method Select(now: nat) returns (c: D.Choice)
      requires D.Heads(Value())
      ensures c == D.Choose(tuning, Value(), now)
    {
      var rq := if write.next.Some? then write.next else read.next;
      if rq.Some? && batching < tuning.fifoBatch { return D.Continue(rq.value); }
      var w := true;
      if read.fifo != [] {
        w := write.fifo != [] && starved >= D.Threshold(tuning);
      } else if write.fifo == [] {
        return D.Nothing;
      }
      var s := if w then write else read;
      assert s == D.SideOf(Value(), w);
      var x := if now > rqs[s.fifo[0]].time || s.next.None? then s.fifo[0] else s.next.value;
      c := D.NewBatch(x, w);
    }

    /** deadline_dispatch_requests: whether a request was dispatched. */
    method DispatchRequests(now: nat) returns (more: bool)
      requires Good(now) == true
      modifies this
      ensures Value() == D.Dispatch(tuning, old(Value()), now)
      ensures more == !D.Choose(tuning, old(Value()), now).Nothing?
      ensures Good(now) == true
    {
      D.DispatchInv(tuning, Value(), now);
      R.GoodCallable(tuning, R.State(D.Dispatch(tuning, Value(), now), now));
      more := Serve(now);
    }

    /** Its second half: the counters, and the move to the dispatch list. */
    method Serve(now: nat) returns (more: bool)
      requires R.Callable(tuning, R.State(Value(), now))
      modifies this
      ensures Value() == D.Dispatch(tuning, old(Value()), now)
      ensures more == !D.Choose(tuning, old(Value()), now).Nothing?
    {
      var c := Select(now);
      match c {
        case Nothing => return false;
        case Continue(_) => batching := batching + 1;
        case NewBatch(_, w) =>
          batching := 1;
          if w {
            starved := 0;
          } else if write.fifo != [] {
            starved := (starved + 1) % 0x1_0000_0000;
          }
      }
      MoveRequest(c.x);
      more := true;
    }

    /** elv_drain_elevator: everything queued is dispatched, and nr_sorted is zero. */
    method Drain(now: nat)
      requires Good(now) == true
      modifies this
      ensures Good(now) == true && nrSorted == 0 && read.fifo == [] && write.fifo == []
      ensures forall x :: old(R.IsQueued(Value(), x)) || x in old(dispatched) ==> x in dispatched
    {
      ghost var d := Value();
      var more := true;
      while more
        invariant Good(now) == true
        invariant !more ==> read.fifo == [] && write.fifo == []
        invariant forall x :: R.IsQueued(d, x) || x in d.dispatched ==> R.IsQueued(Value(), x) || x in dispatched
        decreases more, |read.fifo| + |write.fifo|
      {
        ghost var b := Value();
        D.ChoiceQueued(tuning, b, now);
        more := DispatchRequests(now);
        if more {
          D.MoveRequestCounts(tuning, D.Accounted(b, D.Choose(tuning, b, now)), now, {}, D.Choose(tuning, b, now).x);
          forall x | R.IsQueued(b, x) || x in b.dispatched ensures R.IsQueued(Value(), x) || x in dispatched {
            if R.IsQueued(b, x) { DispatchKeeps(tuning, b, now, x); }
          }
        }
      }
    }
  }
}
