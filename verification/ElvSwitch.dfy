/** Request allocation racing with a change of I/O scheduler. Allocation reserves
    under the queue lock and calls the scheduler's set_request without it; a switch
    raises QUEUE_FLAG_ELVSWITCH, waits for the requests with scheduler data to go,
    and exchanges the elevator. Every step below is one atomic section. */
module ElvSwitch {
  import opened Options

  type Rid = nat
  type Eid = nat

  /** In progress until set_request has run; `Failed` until the reservation is undone. */
  datatype Phase = InProgress | Live | Failed

  /** `priv` is REQ_ELVPRIV, or will be; `setBy` is the elevator whose data it holds;
      `sorted` is REQ_SORTED, and `held` says that the elevator has it queued. */
  datatype Rq = Rq(sync: bool, priv: bool, phase: Phase, setBy: Option<Eid>, sorted: bool, held: bool)

  /** Where elevator_switch stands. */
  datatype Switch =
    | Idle
    | Quiescing(e: Eid)              // waiting for elvpriv to drop to zero
    | Attached(prev: Eid, e: Eid)     // the new elevator is in place
    | Refused(prev: Eid, e: Eid)      // registration failed and the new elevator has exited
    | Ending                         // about to lower the flag

  datatype State = State(
    elevator: Eid,
    exited: set<Eid>,                // elevators that elevator_exit has torn down
    elvswitch: bool,                 // QUEUE_FLAG_ELVSWITCH
    elvpriv: int,
    syncCount: int,
    asyncCount: int,
    rqs: map<Rid, Rq>,
    switch: Switch)

  datatype Step =
    | Reserve(r: Rid, sync: bool, init: bool)  // the locked part of get_request; `init` is blk_rq_should_init_elevator
    | SetRequest(r: Rid)                       // blk_alloc_request succeeds
    | SetFails(r: Rid)                         // blk_alloc_request fails
    | Undo(r: Rid)                             // freed_request after the failure
    | Add(r: Rid)                              // __elv_add_request, ELEVATOR_INSERT_SORT
    | Merge                                    // elv_merge looks for a request to merge with
    | Dispatch(o: Option<Rid>)                 // elevator_dispatch_fn, which may let a request go
    | Drain                                    // elv_drain_elevator, as in ELEVATOR_INSERT_BACK
    | Put(r: Rid)                              // __blk_put_request, last reference
    | Start(e: Eid)                            // elv_quiesce_start raises the flag and drains
    | Attach                                   // elvpriv is zero: elevator_attach
    | Registered                               // old elevator exits
    | RegisterFails                            // new elevator exits
    | Reattach                                 // old elevator back in place
    | End                                      // the flag is lowered

  function Reserved(s: State, r: Rid, sync: bool, init: bool): State {
    var priv := init && !s.elvswitch;
    s.(rqs := s.rqs[r := Rq(sync, priv, InProgress, None, false, false)],
       elvpriv := if priv then s.elvpriv + 1 else s.elvpriv,
       syncCount := if sync then s.syncCount + 1 else s.syncCount,
       asyncCount := if sync then s.asyncCount else s.asyncCount + 1)
  }

  /** freed_request. */
  function Freed(s: State, r: Rid): State
    requires r in s.rqs
  {
    var rq := s.rqs[r];
    s.(rqs := s.rqs - {r},
       elvpriv := if rq.priv then s.elvpriv - 1 else s.elvpriv,
       syncCount := if rq.sync then s.syncCount - 1 else s.syncCount,
       asyncCount := if rq.sync then s.asyncCount else s.asyncCount - 1)
  }

  /** Every request has left the elevator. */
  function Drained(rqs: map<Rid, Rq>): map<Rid, Rq> {
    map r | r in rqs :: rqs[r].(held := false)
  }

  predicate Enabled(s: State, st: Step) {
    match st
    case Reserve(r, _, _) => r !in s.rqs
    case SetRequest(r) => r in s.rqs && s.rqs[r].phase.InProgress?
    case SetFails(r) => r in s.rqs && s.rqs[r].phase.InProgress?
    case Undo(r) => r in s.rqs && s.rqs[r].phase.Failed?
    case Add(r) => r in s.rqs && s.rqs[r].phase.Live? && s.rqs[r].priv
    case Merge => true
    case Dispatch(o) => o.Some? ==> o.value in s.rqs && s.rqs[o.value].held
    case Drain => true
    case Put(r) => r in s.rqs && s.rqs[r].phase.Live? && !s.rqs[r].held
    case Start(e) => s.switch.Idle? && e != s.elevator && e !in s.exited
    case Attach => s.switch.Quiescing? && s.elvpriv == 0
    case Registered => s.switch.Attached?
    case RegisterFails => s.switch.Attached?
    case Reattach => s.switch.Refused?
    case End => s.switch.Ending?
  }

  function Next(s: State, st: Step): State
    requires Enabled(s, st)
  {
    match st
    case Reserve(r, sync, init) => Reserved(s, r, sync, init)
    case SetRequest(r) =>
      var rq := s.rqs[r];
      s.(rqs := s.rqs[r := rq.(phase := Live, setBy := if rq.priv then Some(s.elevator) else None)])
    case SetFails(r) => s.(rqs := s.rqs[r := s.rqs[r].(phase := Failed)])
    case Undo(r) => Freed(s, r)
    case Add(r) => s.(rqs := s.rqs[r := s.rqs[r].(sorted := true, held := true)])
    case Merge => s
    case Dispatch(o) => if o.None? then s else s.(rqs := s.rqs[o.value := s.rqs[o.value].(held := false)])
    case Drain => s.(rqs := Drained(s.rqs))
    case Put(r) => Freed(s, r)
    case Start(e) => s.(elvswitch := true, switch := Quiescing(e), rqs := Drained(s.rqs))
    case Attach => s.(elevator := s.switch.e, switch := Attached(s.elevator, s.switch.e))
    case Registered => s.(exited := s.exited + {s.switch.prev}, switch := Ending)
    case RegisterFails => s.(exited := s.exited + {s.switch.e}, switch := Refused(s.switch.prev, s.switch.e))
    case Reattach => s.(elevator := s.switch.prev, switch := Ending)
    case End => s.(elvswitch := false, switch := Idle)
  }

  // ----- the counters

  ghost function Privs(rqs: map<Rid, Rq>): set<Rid> {
    set r | r in rqs && rqs[r].priv
  }

  ghost function OfKind(rqs: map<Rid, Rq>, sync: bool): set<Rid> {
    set r | r in rqs && rqs[r].sync == sync
  }

  /** Each counter is the number of requests that it counts, live or in progress. */
  ghost predicate Counted(s: State) {
    && s.elvpriv == |Privs(s.rqs)|
    && s.syncCount == |OfKind(s.rqs, true)| && s.asyncCount == |OfKind(s.rqs, false)|
  }

  lemma {:induction false} PrivsGrow(rqs: map<Rid, Rq>, r: Rid, rq: Rq)
    requires r !in rqs
    ensures |Privs(rqs[r := rq])| == |Privs(rqs)| + if rq.priv then 1 else 0
  {
    assert Privs(rqs[r := rq]) == Privs(rqs) + if rq.priv then {r} else {};
  }

  lemma {:induction false} KindsGrow(rqs: map<Rid, Rq>, r: Rid, rq: Rq)
    requires r !in rqs
    ensures |OfKind(rqs[r := rq], rq.sync)| == |OfKind(rqs, rq.sync)| + 1
    ensures OfKind(rqs[r := rq], !rq.sync) == OfKind(rqs, !rq.sync)
  {
    assert OfKind(rqs[r := rq], rq.sync) == OfKind(rqs, rq.sync) + {r};
  }

  lemma {:induction false} ReservedCounted(s: State, r: Rid, sync: bool, init: bool)
    requires Counted(s) && r !in s.rqs
    ensures Counted(Reserved(s, r, sync, init))
  {
    PrivsGrow(s.rqs, r, Reserved(s, r, sync, init).rqs[r]);
    KindsGrow(s.rqs, r, Reserved(s, r, sync, init).rqs[r]);
  }

  lemma {:induction false} SetsFreed(rqs: map<Rid, Rq>, r: Rid)
    ensures Privs(rqs - {r}) == Privs(rqs) - {r}
    ensures forall sync :: OfKind(rqs - {r}, sync) == OfKind(rqs, sync) - {r}
  {
  }

  lemma {:induction false} FreedCounted(s: State, r: Rid)
    requires Counted(s) && r in s.rqs
    ensures Counted(Freed(s, r))
  {
    SetsFreed(s.rqs, r);
    var rq := s.rqs[r];
    assert r in Privs(s.rqs) <==> rq.priv;
    assert r in OfKind(s.rqs, rq.sync) && r !in OfKind(s.rqs, !rq.sync);
    assert |Privs(s.rqs) - {r}| == if rq.priv then |Privs(s.rqs)| - 1 else |Privs(s.rqs)|;
    assert |OfKind(s.rqs, rq.sync) - {r}| == |OfKind(s.rqs, rq.sync)| - 1;
    assert OfKind(s.rqs, !rq.sync) - {r} == OfKind(s.rqs, !rq.sync);
  }

  lemma {:induction false} ChangedCounted(s: State, r: Rid, rq: Rq)
    requires Counted(s) && r in s.rqs && rq.priv == s.rqs[r].priv && rq.sync == s.rqs[r].sync
    ensures Counted(s.(rqs := s.rqs[r := rq]))
  {
    var rqs := s.rqs[r := rq];
    assert Privs(rqs) == Privs(s.rqs);
    assert OfKind(rqs, true) == OfKind(s.rqs, true) && OfKind(rqs, false) == OfKind(s.rqs, false);
  }

  lemma {:induction false} DrainedCounted(s: State)
    requires Counted(s)
    ensures Counted(s.(rqs := Drained(s.rqs)))
  {
    assert Privs(Drained(s.rqs)) == Privs(s.rqs);
    assert OfKind(Drained(s.rqs), true) == OfKind(s.rqs, true) && OfKind(Drained(s.rqs), false) == OfKind(s.rqs, false);
  }

  lemma {:induction false} NextCounted(s: State, st: Step)
    requires Counted(s) && Enabled(s, st)
    ensures Counted(Next(s, st))
  {
    match st
    case Reserve(r, sync, init) => ReservedCounted(s, r, sync, init);
    case SetRequest(r) =>
      ChangedCounted(s, r, s.rqs[r].(phase := Live, setBy := if s.rqs[r].priv then Some(s.elevator) else None));
    case SetFails(r) => ChangedCounted(s, r, s.rqs[r].(phase := Failed));
    case Undo(r) => FreedCounted(s, r);
    case Add(r) => ChangedCounted(s, r, s.rqs[r].(sorted := true, held := true));
    case Dispatch(o) => if o.Some? { ChangedCounted(s, o.value, s.rqs[o.value].(held := false)); }
    case Drain => DrainedCounted(s);
    case Start(_) => DrainedCounted(s);
    case Put(r) => FreedCounted(s, r);
    case _ =>
  }

  // ----- ownership

  /** No scheduler data is left, and none can be reserved. */
  ghost predicate Quiet(s: State) {
    s.elvswitch && forall r :: r in s.rqs ==> !s.rqs[r].priv
  }

  ghost predicate SwitchOk(s: State) {
    match s.switch
    case Idle => !s.elvswitch && s.elevator !in s.exited
    case Quiescing(e) => s.elvswitch && s.elevator !in s.exited && e !in s.exited && e != s.elevator
    case Attached(prev, e) => Quiet(s) && s.elevator == e && prev !in s.exited && e !in s.exited && prev != e
    case Refused(prev, e) => Quiet(s) && prev !in s.exited && s.elevator == e && e in s.exited
    case Ending => Quiet(s) && s.elevator !in s.exited
  }

  /** A live request with scheduler data has it from the current elevator. */
  ghost predicate Owned(s: State) {
    forall r :: r in s.rqs && s.rqs[r].phase.Live? && s.rqs[r].priv ==> s.rqs[r].setBy == Some(s.elevator)
  }

  /** Only requests with scheduler data were sorted, and only those are queued. */
  ghost predicate SortedHavePriv(s: State) {
    forall r :: r in s.rqs ==>
      && (s.rqs[r].sorted ==> s.rqs[r].priv && s.rqs[r].phase.Live?)
      && (s.rqs[r].held ==> s.rqs[r].sorted) && (s.rqs[r].setBy.Some? ==> s.rqs[r].priv)
  }

  ghost predicate Inv(s: State) {
    Counted(s) && SwitchOk(s) && Owned(s) && SortedHavePriv(s)
  }

  lemma {:induction false} NextInv(s: State, st: Step)
    requires Inv(s) && Enabled(s, st)
    ensures Inv(Next(s, st))
  {
    NextCounted(s, st);
    if st.Attach? {
      forall r | r in s.rqs ensures !s.rqs[r].priv {
        assert r in Privs(s.rqs) <==> s.rqs[r].priv;
      }
    }
  }

  // ----- runs

  ghost predicate Initial(s: State) {
    && s.switch.Idle? && !s.elvswitch && s.elevator !in s.exited
    && s.rqs == map[] && s.elvpriv == 0 && s.syncCount == 0 && s.asyncCount == 0
  }

  ghost predicate Run(s: State, steps: seq<Step>)
    decreases |steps|
  {
    steps != [] ==> Enabled(s, steps[0]) && Run(Next(s, steps[0]), steps[1..])
  }

  ghost function Final(s: State, steps: seq<Step>): State
    requires Run(s, steps)
    decreases |steps|
  {
    if steps == [] then s else Final(Next(s, steps[0]), steps[1..])
  }

  lemma {:induction false} RunInv(s: State, steps: seq<Step>)
    requires Inv(s) && Run(s, steps)
    ensures Inv(Final(s, steps))
    decreases |steps|
  {
    if steps != [] {
      NextInv(s, steps[0]);
      RunInv(Next(s, steps[0]), steps[1..]);
    }
  }

  /** A step that hands the request's scheduler data to the current elevator. */
  ghost predicate Touches(s: State, st: Step)
    requires Enabled(s, st)
  {
    match st
    case Add(_) => true
    case Dispatch(o) => o.Some?
    case Put(r) => s.rqs[r].priv || s.rqs[r].sorted
    case _ => false
  }

  /** The request in question. */
  ghost function Touched(st: Step): Rid
    requires st.Add? || st.Put? || (st.Dispatch? && st.o.Some?)
  {
    match st
    case Add(r) => r
    case Put(r) => r
    case Dispatch(o) => o.value
  }

  /** However allocations, completions and switches interleave, elvpriv is the number
      of requests with scheduler data, and an elevator only ever sees its own. */
  lemma {:induction false} ElevatorSeesItsOwn(s: State, steps: seq<Step>, st: Step)
    requires Initial(s) && Run(s, steps) && Enabled(Final(s, steps), st)
    ensures var f := Final(s, steps);
            && f.elvpriv == |Privs(f.rqs)|
            && (Touches(f, st) ==> f.rqs[Touched(st)].setBy == Some(f.elevator) && f.elevator !in f.exited)
  {
    assert Privs(s.rqs) == {} && OfKind(s.rqs, true) == {} && OfKind(s.rqs, false) == {};
    RunInv(s, steps);
  }

  /** A step that calls the elevator in place, whatever the flag says: get_request asks
      it whether to go on, elv_merge for a request, and dispatch and drain for more. */
  predicate Asks(st: Step) {
    st.Reserve? || st.Merge? || st.Dispatch? || st.Drain?
  }

  /** In every run the elevator in place has exited exactly between the failed registration
      and the reattachment.  Then no step hands it a request, no reservation is made for
      it and it lets none go; but steps still call it, and only then one that has exited. */
  lemma {:induction false} ExitedExactly(s: State, steps: seq<Step>, st: Step)
    requires Initial(s) && Run(s, steps) && Enabled(Final(s, steps), st)
    ensures var f := Final(s, steps);
            && (f.elevator in f.exited <==> f.switch.Refused?)
            && (f.switch.Refused? ==> !Touches(f, st) && (st.Reserve? ==> !Next(f, st).rqs[st.r].priv))
  {
    assert Privs(s.rqs) == {} && OfKind(s.rqs, true) == {} && OfKind(s.rqs, false) == {};
    RunInv(s, steps);
  }

  /** An elevator is taken away, or exits, with no request of the queue left in it: from
      the exchange to the lowering of the flag nothing is queued in any elevator. */
  lemma {:induction false} NothingLeftBehind(s: State, steps: seq<Step>, r: Rid)
    requires Initial(s) && Run(s, steps) && r in Final(s, steps).rqs
    ensures var f := Final(s, steps);
            !f.switch.Idle? && !f.switch.Quiescing? ==> !f.rqs[r].held && f.rqs[r].setBy.None?
  {
    assert Privs(s.rqs) == {} && OfKind(s.rqs, true) == {} && OfKind(s.rqs, false) == {};
    RunInv(s, steps);
  }

  /** That moment is reached by every switch that is refused, and any of these calls can
      come then. */
  lemma {:induction false} AskedAfterExit(s: State, e: Eid, st: Step)
    requires Inv(s) && s.switch == Quiescing(e) && s.elvpriv == 0 && Asks(st) && Enabled(s, st)
    ensures Run(s, [Attach, RegisterFails])
    ensures var f := Final(s, [Attach, RegisterFails]);
            f.elevator in f.exited && Enabled(f, st)
  {
    var a := Next(s, Attach);
    var b := Next(a, RegisterFails);
    assert Run(b, []) && [RegisterFails][1..] == [] && [Attach, RegisterFails][1..] == [RegisterFails];
    assert Run(a, [RegisterFails]) && Final(a, [RegisterFails]) == b;
  }

  /** A refused switch ends with the elevator it started from; one that is not ends with the new one. */
  lemma {:induction false} SwitchOutcome(s: State, e: Eid)
    requires Inv(s) && s.switch == Quiescing(e) && s.elvpriv == 0
    ensures Run(s, [Attach, RegisterFails, Reattach, End]) && Run(s, [Attach, Registered, End])
    ensures var f := Final(s, [Attach, RegisterFails, Reattach, End]);
            f.elevator == s.elevator && f.exited == s.exited + {e} && !f.elvswitch && f.rqs == s.rqs
    ensures var f := Final(s, [Attach, Registered, End]);
            f.elevator == e && f.exited == s.exited + {s.elevator} && !f.elvswitch && f.rqs == s.rqs
  {
    var a := Next(s, Attach);
    var b := Next(a, RegisterFails);
    var c := Next(b, Reattach);
    assert Run(Next(c, End), []);
    assert Run(c, [End]);
    assert [Reattach, End][1..] == [End];
    assert Run(b, [Reattach, End]) && Final(b, [Reattach, End]) == Final(c, [End]);
    assert [RegisterFails, Reattach, End][1..] == [Reattach, End];
    assert Run(a, [RegisterFails, Reattach, End]);
    assert [Attach, RegisterFails, Reattach, End][1..] == [RegisterFails, Reattach, End];
    var d := Next(a, Registered);
    assert Run(Next(d, End), []);
    assert Run(d, [End]);
    assert [Registered, End][1..] == [End];
    assert Run(a, [Registered, End]);
    assert [Attach, Registered, End][1..] == [Registered, End];
  }

  // ----- the sections as they update the queue in place

  class RequestQueue {
    var elevator: Eid
    var exited: set<Eid>
    var elvswitch: bool
    var elvpriv: int
    var syncCount: int
    var asyncCount: int
    var rqs: map<Rid, Rq>
    var switch: Switch

    ghost function Value(): State
      reads this
    {
      State(elevator, exited, elvswitch, elvpriv, syncCount, asyncCount, rqs, switch)
    }

    constructor (e: Eid)
      ensures Initial(Value()) && elevator == e && Inv(Value())
    {
      elevator, exited, elvswitch, elvpriv, syncCount, asyncCount := e, {}, false, 0, 0, 0;
      rqs, switch := map[], Idle;
      new;
      assert Privs(rqs) == {} && OfKind(rqs, true) == {} && OfKind(rqs, false) == {};
    }

    /** The locked part of get_request. */
    method GetRequest(r: Rid, sync: bool, init: bool) returns (priv: bool)
      requires Inv(Value()) && r !in rqs
      modifies this
      ensures Value() == Next(old(Value()), Reserve(r, sync, init)) && Inv(Value()) == true
      ensures priv == (init && !elvswitch)
    {
      NextInv(Value(), Reserve(r, sync, init));
      if sync { syncCount := syncCount + 1; } else { asyncCount := asyncCount + 1; }
      priv := false;
      if init {
        priv := !elvswitch;
        if priv { elvpriv := elvpriv + 1; }
      }
      rqs := rqs[r := Rq(sync, priv, InProgress, None, false, false)];
    }

    /** The unlocked part: blk_alloc_request calls whichever elevator is in place. */
    method AllocRequest(r: Rid, ok: bool)
      requires Inv(Value()) && r in rqs && rqs[r].phase.InProgress?
      modifies this
      ensures Value() == Next(old(Value()), if ok then SetRequest(r) else SetFails(r)) && Inv(Value()) == true
    {
      NextInv(Value(), if ok then SetRequest(r) else SetFails(r));
      if ok {
        rqs := rqs[r := rqs[r].(phase := Live, setBy := if rqs[r].priv then Some(elevator) else None)];
      } else {
        rqs := rqs[r := rqs[r].(phase := Failed)];
      }
    }

    method FreedRequest(r: Rid)
      requires Inv(Value()) && r in rqs && !rqs[r].phase.InProgress? && !rqs[r].held
      modifies this
      ensures Value() == Freed(old(Value()), r) && Inv(Value()) == true
    {
      NextInv(Value(), if rqs[r].phase.Live? then Put(r) else Undo(r));
      if rqs[r].sync { syncCount := syncCount - 1; } else { asyncCount := asyncCount - 1; }
      if rqs[r].priv { elvpriv := elvpriv - 1; }
      rqs := rqs - {r};
    }

    /** elv_drain_elevator: the elevator lets requests go, one at a time, while it has any. */
    method DrainElevator()
      modifies this`rqs
      ensures rqs == Drained(old(rqs))
    {
      ghost var was := rqs;
      var held := set r | r in rqs && rqs[r].held;
      while held != {}
        invariant held <= was.Keys && rqs.Keys == was.Keys
        invariant forall r :: r in was ==> rqs[r] == if r in held then was[r] else was[r].(held := false)
        decreases held
      {
        var r :| r in held;
        rqs := rqs[r := rqs[r].(held := false)];
        held := held - {r};
      }
      assert rqs == Drained(was);
    }

    /** elv_quiesce_start up to its wait. */
    method QuiesceStart(e: Eid)
      requires Inv(Value()) && Enabled(Value(), Start(e))
      modifies this
      ensures Value() == Next(old(Value()), Start(e)) && Inv(Value()) == true
    {
      NextInv(Value(), Start(e));
      elvswitch, switch := true, Quiescing(e);
      DrainElevator();
    }

    /** One turn of the wait in elv_quiesce_start: the switch goes on only if elvpriv is
        zero, and otherwise drains again. */
    method TryAttach() returns (done: bool)
      requires Inv(Value()) && switch.Quiescing?
      modifies this
      ensures done == (old(elvpriv) == 0)
      ensures Value() == Next(old(Value()), if done then Attach else Drain) && Inv(Value()) == true
    {
      NextInv(Value(), if elvpriv == 0 then Attach else Drain);
      if elvpriv != 0 {
        DrainElevator();
        return false;
      }
      elevator, switch := switch.e, Attached(elevator, switch.e);
      done := true;
    }

    method Finish(registered: bool)
      requires Inv(Value()) && switch.Attached?
      modifies this
      ensures !elvswitch && switch.Idle? && Inv(Value()) == true
      ensures elevator == if registered then old(elevator) else old(switch.prev)
      ensures elevator !in exited && rqs == old(rqs) && elvpriv == old(elvpriv)
    {
      ghost var s := Value();
      if registered {
        NextInv(s, Registered);
        NextInv(Next(s, Registered), End);
        exited := exited + {switch.prev};
      } else {
        NextInv(s, RegisterFails);
        NextInv(Next(s, RegisterFails), Reattach);
        NextInv(Next(Next(s, RegisterFails), Reattach), End);
        exited := exited + {elevator};
        elevator := switch.prev;
      }
      elvswitch, switch := false, Idle;
      assert Value() == if registered then Next(Next(s, Registered), End)
                        else Next(Next(Next(s, RegisterFails), Reattach), End);
    }
  }
}
