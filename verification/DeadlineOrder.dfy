/** The order in which the deadline scheduler serves: upwards within a batch, on from there
    in the next batch unless a deadline has expired, and reads before writes until these
    have been passed over often enough. */
module DeadlineOrder {
  import opened Lists
  import opened Options
  import opened Deadline
  import opened DeadlineRuns

  /** `r` is the request of least sector above `pos`, or there is none. */
  ghost predicate LeastAbove(sort: seq<Id>, rqs: map<Id, Rq>, pos: nat, r: Option<Id>)
    requires forall y :: y in sort ==> y in rqs
  {
    if r.None? then forall y :: y in sort ==> rqs[y].pos <= pos
    else && r.value in sort && rqs[r.value].pos > pos
         && forall y :: y in sort && rqs[y].pos > pos ==> rqs[r.value].pos <= rqs[y].pos
  }

  /** deadline_latter_request. */
  lemma {:induction false} LatterIsLeast(sort: seq<Id>, rqs: map<Id, Rq>, x: Id)
    requires (forall y :: y in sort ==> y in rqs) && Ascending(sort, rqs) && x in sort
    ensures LeastAbove(sort, rqs, rqs[x].pos, Latter(sort, x))
  {
    assert sort == [sort[0]] + sort[1..];
    if sort[0] == x {
      if |sort| >= 2 { assert sort[1..] == [sort[1]] + sort[1..][1..] && sort[1..][0] == sort[1]; }
    } else {
      LatterIsLeast(sort[1..], rqs, x);
    }
  }

  /** The request itself is not above its sector: it can be taken away. */
  lemma {:induction false} LeastWithout(sort: seq<Id>, rqs: map<Id, Rq>, x: Id, r: Option<Id>)
    requires (forall y :: y in sort ==> y in rqs) && x in rqs && LeastAbove(sort, rqs, rqs[x].pos, r)
    ensures (forall y :: y in Without(sort, x) ==> y in rqs) && LeastAbove(Without(sort, x), rqs, rqs[x].pos, r)
  {
    WithoutMembers(sort, x);
  }

  lemma {:induction false} WithoutMembers(s: seq<Id>, x: Id)
    ensures forall y :: y in Without(s, x) <==> y in s && y != x
  {
    if s != [] { WithoutMembers(s[1..], x); }
  }

  // ----- the request after the one served

  /** Where the scheduler stands after serving `x`: the next request of its direction is the
      one of least sector above, and the other direction has none. */
  ghost predicate OnFrom(d: Data, x: Id) {
    && x in d.rqs
    && var w := d.rqs[x].write;
       && (forall y :: y in SideOf(d, w).sort ==> y in d.rqs)
       && LeastAbove(SideOf(d, w).sort, d.rqs, d.rqs[x].pos, SideOf(d, w).next)
       && SideOf(d, !w).next.None?
  }

  lemma {:induction false} MovedOnFrom(t: Tuning, d: Data, now: nat, x: Id)
    requires Sides(t, d, now, {}) == true && x in d.rqs && x in SideOf(d, d.rqs[x].write).fifo
    ensures OnFrom(MoveRequest(d, x), x) == true
  {
    var w := d.rqs[x].write;
    var s := SideOf(d, w);
    EitherSide(t, d, now, {}, w);
    LatterIsLeast(s.sort, d.rqs, x);
    AscendingDistinct(s.sort, d.rqs);
    LatterOther(s.sort, x);
    LeastWithout(s.sort, d.rqs, x, Latter(s.sort, x));
    MovedSides(d, x);
  }

  lemma {:induction false} MovedSides(d: Data, x: Id)
    requires x in d.rqs
    ensures var w := d.rqs[x].write;
            var e := MoveRequest(d, x);
            && e.rqs == d.rqs && SideOf(e, !w).next.None? && SideOf(e, w).sort == Without(SideOf(d, w).sort, x)
            && (Latter(SideOf(d, w).sort, x) != Some(x) ==> SideOf(e, w).next == Latter(SideOf(d, w).sort, x))
            && SideOf(e, w).fifo == Without(SideOf(d, w).fifo, x) && SideOf(e, !w).fifo == SideOf(d, !w).fifo
            && e.batching == d.batching && e.starved == d.starved && e.dispatched == d.dispatched + [x]
            && e.lastSector == d.rqs[x].pos + d.rqs[x].sectors
  {
  }

  /** Serving leaves the scheduler there, with the batch one longer or begun. */
  lemma {:induction false} ServedOnFrom(t: Tuning, s: State)
    requires Good(t, s) && Callable(t, s) && !Choose(t, s.d, s.now).Nothing?
    ensures OnFrom(Next(t, s, Serve).d, Choose(t, s.d, s.now).x) == true
  {
    var c := Choose(t, s.d, s.now);
    ChoiceQueued(t, s.d, s.now);
    assert Sides(t, Accounted(s.d, c), s.now, {});
    MovedOnFrom(t, Accounted(s.d, c), s.now, c.x);
  }

  // ----- runs of serving

  /** The run only serves, while time goes by. */
  ghost predicate Serving(steps: seq<Step>) {
    forall i :: 0 <= i < |steps| ==> steps[i].Tick? || steps[i].Serve?
  }

  ghost predicate Runs(t: Tuning, s: State, steps: seq<Step>)
    requires Good(t, s)
    decreases |steps|
  {
    GoodCallable(t, s);
    steps != [] ==>
      && Enabled(t, s, steps[0])
      && (NextGood(t, s, steps[0]); Runs(t, Next(t, s, steps[0]), steps[1..]))
  }

  ghost function Final(t: Tuning, s: State, steps: seq<Step>): (f: State)
    requires Good(t, s) && Runs(t, s, steps)
    ensures Good(t, f)
    decreases |steps|
  {
    if steps == [] then s
    else GoodCallable(t, s); NextGood(t, s, steps[0]); Final(t, Next(t, s, steps[0]), steps[1..])
  }

  /** The request served last in a run, if any. */
  ghost function LastServed(t: Tuning, s: State, steps: seq<Step>, last: Option<Id>): Option<Id>
    requires Good(t, s) && Runs(t, s, steps)
    decreases |steps|
  {
    if steps == [] then last
    else
      GoodCallable(t, s);
      NextGood(t, s, steps[0]);
      var c := Choose(t, s.d, s.now);
      LastServed(t, Next(t, s, steps[0]), steps[1..], if steps[0].Serve? && !c.Nothing? then Some(c.x) else last)
  }

  lemma {:induction false} StepOnFrom(t: Tuning, s: State, st: Step, last: Option<Id>)
    requires Good(t, s) && Callable(t, s) && (st.Tick? || st.Serve?)
    requires last.Some? ==> OnFrom(s.d, last.value) == true
    ensures var c := Choose(t, s.d, s.now);
            var l := if st.Serve? && !c.Nothing? then Some(c.x) else last;
            l.Some? ==> OnFrom(Next(t, s, st).d, l.value) == true
  {
    if st.Serve? && !Choose(t, s.d, s.now).Nothing? { ServedOnFrom(t, s); }
  }

  lemma {:induction false} RunOnFrom(t: Tuning, s: State, steps: seq<Step>, last: Option<Id>)
    requires Good(t, s) && Runs(t, s, steps) && Serving(steps)
    requires last.Some? ==> OnFrom(s.d, last.value) == true
    ensures var l := LastServed(t, s, steps, last); l.Some? ==> OnFrom(Final(t, s, steps).d, l.value) == true
    decreases |steps|
  {
    if steps != [] {
      GoodCallable(t, s);
      NextGood(t, s, steps[0]);
      StepOnFrom(t, s, steps[0], last);
      var c := Choose(t, s.d, s.now);
      RunOnFrom(t, Next(t, s, steps[0]), steps[1..], if steps[0].Serve? && !c.Nothing? then Some(c.x) else last);
    }
  }

  /** The choice of a scheduler that stands behind `x`. */
  lemma {:induction false} ChoiceBehind(t: Tuning, s: State, x: Id)
    requires Good(t, s) && Callable(t, s) && OnFrom(s.d, x) == true
    ensures var c, w := Choose(t, s.d, s.now), s.d.rqs[x].write;
            var sort := SideOf(s.d, w).sort;
            && (forall y :: y in sort ==> y in s.d.rqs)
            && (c.Continue? <==> s.d.batching < t.fifoBatch && exists y :: y in sort && s.d.rqs[y].pos > s.d.rqs[x].pos)
            && (c.Continue? ==> LeastAbove(sort, s.d.rqs, s.d.rqs[x].pos, Some(c.x)))
  {
  }

  /** Over every run that only serves: the batch goes on exactly while it is short enough and
      something is left above the request served last, and then with the one of least sector
      there. */
  lemma {:induction false} BatchAscends(t: Tuning, s: State, steps: seq<Step>, x: Id)
    requires Good(t, s) && Runs(t, s, steps) && Serving(steps) && LastServed(t, s, steps, None) == Some(x)
    ensures var f := Final(t, s, steps);
            && Callable(t, f) && x in f.d.rqs
            && var c, sort := Choose(t, f.d, f.now), SideOf(f.d, f.d.rqs[x].write).sort;
               && (forall y :: y in sort ==> y in f.d.rqs)
               && (c.Continue? <==> f.d.batching < t.fifoBatch && exists y :: y in sort && f.d.rqs[y].pos > f.d.rqs[x].pos)
               && (c.Continue? ==> LeastAbove(sort, f.d.rqs, f.d.rqs[x].pos, Some(c.x)))
  {
    RunOnFrom(t, s, steps, None);
    var f := Final(t, s, steps);
    GoodCallable(t, f);
    ChoiceBehind(t, f, x);
  }

  /** A new batch goes on from the request served last, if it is of the same direction, none
      of its deadlines has expired and there is something above; and otherwise starts with the
      earliest deadline. */
  lemma {:induction false} BatchGoesOn(t: Tuning, s: State, x: Id)
    requires Good(t, s) && Callable(t, s) && OnFrom(s.d, x) == true && Choose(t, s.d, s.now).NewBatch?
    ensures var c := Choose(t, s.d, s.now);
            var side := SideOf(s.d, c.write);
            && (forall y :: y in side.fifo ==> y in s.d.rqs) && (forall y :: y in side.sort ==> y in s.d.rqs)
            && if c.write == s.d.rqs[x].write
                  && (forall y :: y in side.fifo ==> s.now <= s.d.rqs[y].time)
                  && (exists y :: y in side.sort && s.d.rqs[y].pos > s.d.rqs[x].pos)
               then LeastAbove(side.sort, s.d.rqs, s.d.rqs[x].pos, Some(c.x))
               else forall y :: y in side.fifo ==> s.d.rqs[c.x].time <= s.d.rqs[y].time
  {
    var c := Choose(t, s.d, s.now);
    var side := SideOf(s.d, c.write);
    EitherSide(t, s.d, s.now, {}, c.write);
    assert side.fifo != [] && side.fifo[0] in side.fifo;
    forall y | y in side.fifo ensures s.d.rqs[side.fifo[0]].time <= s.d.rqs[y].time {
      HeadIsEarliest(side.fifo, s.d.rqs, s.now + Expire(t, c.write), y);
    }
  }

  // ----- reads before writes

  /** How many read batches have been started past waiting writes since the last write batch. */
  ghost function PassedOver(t: Tuning, s: State, steps: seq<Step>, n: nat): nat
    requires Good(t, s) && Runs(t, s, steps)
    decreases |steps|
  {
    if steps == [] then n
    else
      GoodCallable(t, s);
      NextGood(t, s, steps[0]);
      PassedOver(t, Next(t, s, steps[0]), steps[1..], PassedBy(t, s, steps[0], n))
  }

  /** A write batch starts the count again, and a read batch adds to it if writes wait. */
  ghost function PassedBy(t: Tuning, s: State, st: Step, n: nat): nat
    requires Callable(t, s)
  {
    var c := Choose(t, s.d, s.now);
    if !st.Serve? || !c.NewBatch? then n
    else if c.write then 0
    else if s.d.write.fifo != [] then n + 1
    else n
  }

  lemma {:induction false} OneMoreInWord(a: nat, n: nat)
    requires a == n % 0x1_0000_0000
    ensures (a + 1) % 0x1_0000_0000 == (n + 1) % 0x1_0000_0000
  {
  }

  lemma {:induction false} ServeStarved(t: Tuning, d: Data, now: nat)
    requires Heads(d) && !Choose(t, d, now).Nothing? && Choose(t, d, now).x in d.rqs
    ensures var c := Choose(t, d, now);
            Dispatch(t, d, now).starved == if c.Continue? then d.starved
                                           else if c.write then 0
                                           else if d.write.fifo != [] then (d.starved + 1) % 0x1_0000_0000
                                           else d.starved
  {
    DispatchCounters(t, d, now);
  }

  lemma {:induction false} StepStarved(t: Tuning, s: State, st: Step, n: nat)
    requires Good(t, s) && Callable(t, s) && Enabled(t, s, st) && s.d.starved == n % 0x1_0000_0000
    ensures Next(t, s, st).d.starved == PassedBy(t, s, st, n) % 0x1_0000_0000
  {
    match st
    case Tick =>
    case Add(x, write, pos, sectors) => AddKeepsCounters(s.d, x, NewRq(t, write, pos, sectors, s.now));
    case Front(x, sectors) => FrontKeepsCounters(s.d, x, sectors);
    case Merge(x, y) => MergeKeepsCounters(s.d, x, y);
    case Serve =>
      if !Choose(t, s.d, s.now).Nothing? {
        ServeStarved(t, s.d, s.now);
        OneMoreInWord(s.d.starved, n);
      }
  }

  lemma {:induction false} RunStarved(t: Tuning, s: State, steps: seq<Step>, n: nat)
    requires Good(t, s) && Runs(t, s, steps) && s.d.starved == n % 0x1_0000_0000
    ensures Final(t, s, steps).d.starved == PassedOver(t, s, steps, n) % 0x1_0000_0000
    decreases |steps|
  {
    if steps != [] {
      GoodCallable(t, s);
      NextGood(t, s, steps[0]);
      StepStarved(t, s, steps[0], n);
      RunStarved(t, Next(t, s, steps[0]), steps[1..], PassedBy(t, s, steps[0], n));
    }
  }

  /** Over every run: where reads and writes both wait, a new batch is one of writes exactly
      when writes have been passed over writes_starved times (in 32 bits) since their last. */
  lemma {:induction false} ReadsFirst(t: Tuning, s: State, steps: seq<Step>)
    requires Good(t, s) && Runs(t, s, steps) && s.d.starved == 0
    ensures var f := Final(t, s, steps);
            && Callable(t, f)
            && var c := Choose(t, f.d, f.now);
               c.NewBatch? && f.d.read.fifo != [] && f.d.write.fifo != [] ==>
                 (c.write <==> PassedOver(t, s, steps, 0) % 0x1_0000_0000 >= t.writesStarved % 0x1_0000_0000)
  {
    RunStarved(t, s, steps, 0);
    GoodCallable(t, Final(t, s, steps));
  }
}
