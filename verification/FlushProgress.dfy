/** The sequencer cannot go on for ever: without new requests, fetches and completions use
    up a potential, and when it is gone everything has ended. */
module FlushProgress {
  import opened Flush
  import opened Jiffies
  import opened Lists

  /** Steps of its sequence that a request has still before it. */
  function Rem(m: Mask): nat {
    (if m.pre then 0 else 1) + (if m.data then 0 else 1) + if m.post then 0 else 1
  }

  /** Each step may queue the request's data and a flush, and each of these is fetched and
      completed. */
  function Weight(list: seq<Id>, mask: map<Id, Mask>): nat {
    if list == [] then 0
    else (if list[0] in mask then 4 * Rem(mask[list[0]]) else 0) + Weight(list[1..], mask)
  }

  function Waiting(s: State): nat
    requires Shape(s)
  {
    Weight(s.fq[0], s.mask) + Weight(s.fq[1], s.mask) + Weight(s.data, s.mask)
  }

  function Potential(s: State): nat
    requires Shape(s)
  {
    2 * |s.head| + |s.driver| + Waiting(s)
  }

  lemma {:induction false} WeightOther(list: seq<Id>, a: map<Id, Mask>, b: map<Id, Mask>, x: Id)
    requires x !in list && forall y :: y != x ==> (y in a <==> y in b) && (y in a ==> a[y] == b[y])
    ensures Weight(list, a) == Weight(list, b)
  {
    if list != [] { WeightOther(list[1..], a, b, x); }
  }

  lemma {:induction false} WeightWithout(list: seq<Id>, mask: map<Id, Mask>, x: Id)
    requires Distinct(list) && x in mask
    ensures Weight(Without(list, x), mask - {x}) + (if x in list then 4 * Rem(mask[x]) else 0) == Weight(list, mask)
  {
    if list != [] {
      DistinctTail(list);
      if list[0] == x {
        WithoutAbsent(list[1..], x);
        WeightOther(list[1..], mask, mask - {x}, x);
      } else {
        WeightWithout(list[1..], mask, x);
        assert Without(list, x)[1..] == Without(list[1..], x);
      }
    }
  }

  lemma {:induction false} WeightAppend(list: seq<Id>, mask: map<Id, Mask>, x: Id)
    requires x in mask
    ensures Weight(list + [x], mask) == Weight(list, mask) + 4 * Rem(mask[x])
  {
    if list != [] {
      WeightAppend(list[1..], mask, x);
      assert (list + [x])[1..] == list[1..] + [x];
    } else {
      assert ([] + [x])[1..] == [];
    }
  }

  /** A request on the lists is on one of them. */
  lemma {:induction false} OnOneList(s: State, x: Id)
    requires Shape(s) && Placed(s) && x in s.mask
    ensures (if x in s.fq[0] then 1 else 0) + (if x in s.fq[1] then 1 else 0) + (if x in s.data then 1 else 0) == 1
  {
    assert OnQueues(s, x) <==> x in s.fq[0] || x in s.fq[1];
  }

  lemma {:induction false} LiftWeight(s: State, id: Id)
    requires Shape(s) && Placed(s) && id in s.mask
    ensures Waiting(Lift(s, id)) + 4 * Rem(s.mask[id]) == Waiting(s)
  {
    OnOneList(s, id);
    WeightWithout(s.fq[0], s.mask, id);
    WeightWithout(s.fq[1], s.mask, id);
    WeightWithout(s.data, s.mask, id);
  }

  lemma {:induction false} AttachWeight(s: State, id: Id, m: Mask, ok: bool, since: nat)
    requires Shape(s) && id !in s.fq[0] && id !in s.fq[1] && id !in s.data
    ensures Potential(Attach(s, id, m, ok, since)) <= Potential(s) + 4 * Rem(m) + 2
  {
    var mask := s.mask[id := m];
    WeightOther(s.fq[0], s.mask, mask, id);
    WeightOther(s.fq[1], s.mask, mask, id);
    WeightOther(s.data, s.mask, mask, id);
    WeightAppend(s.fq[s.pending], mask, id);
    WeightAppend(s.data, mask, id);
  }

  lemma {:induction false} KickPotential(s: State, now: nat)
    requires Shape(s)
    ensures Potential(Kick(s, now)) <= Potential(s) + 2
  {
  }

  /** A step of a sequence pays for all that it sets off. */
  lemma {:induction false} CompleteSeqPotential(s: State, id: Id, done: Mask, ok: bool, now: nat)
    requires Shape(s) && Placed(s) && id in s.mask && Rem(Union(s.mask[id], done)) < Rem(s.mask[id])
    ensures Potential(CompleteSeq(s, id, done, ok, now)) <= Potential(s)
  {
    var m, u := Union(s.mask[id], done), Lift(s, id);
    LiftWeight(s, id);
    AttachWeight(u, id, m, ok, if s.fq[s.pending] == [] then now else s.since);
    KickPotential(Advance(s, id, m, ok, now), now);
  }

  lemma {:induction false} PushAllPotential(s: State, r: nat, i: nat, j: nat, ok: bool, now: nat)
    requires Mid(s, r, i, j, ok) == true
    ensures Potential(PushAll(s, s.fq[r], ok, now)) <= Potential(s)
    decreases |s.fq[r]|
  {
    if s.fq[r] != [] {
      var x := s.fq[r][0];
      assert OnQueues(s, x);
      PushOne(s, r, i, j, ok, x, now);
      CompleteSeqPotential(s, x, Only(CurSeq(s.mask[x])), ok, now);
      PushAllPotential(CompleteSeq(s, x, Only(CurSeq(s.mask[x])), ok, now), r, i, j, ok, now);
    }
  }

  lemma {:induction false} EndFlushPotential(s: State, ok: bool, now: nat)
    requires Inv(s) == true && FlushRq in s.driver
    ensures s.issued > 0 && Potential(EndFlush(s, ok, now)) < Potential(s)
  {
    AccountedMid(s, ok);
    PushAllPotential(FlushAccounted(s, ok), s.running, s.issueAt, |s.log|, ok, now);
    assert s.driver == (s.driver - {FlushRq}) + {FlushRq};
  }

  lemma {:induction false} DataOnce(s: State, id: Id)
    requires Inv(s) == true && Rq(id) in s.driver && id in s.mask
    ensures Rem(Union(s.mask[id], Only(Data))) < Rem(s.mask[id])
  {
    assert Owned(s, Rq(id)) && id in s.data;
  }

  lemma {:induction false} EndDataPotential(s: State, id: Id, ok: bool, now: nat)
    requires Inv(s) == true && Rq(id) in s.driver
    ensures Potential(EndData(s, id, ok, now)) < Potential(s)
  {
    assert s.driver == (s.driver - {Rq(id)}) + {Rq(id)};
    var s1 := s.(driver := s.driver - {Rq(id)}, log := s.log + [DataDone(id, ok)], wait := s.wait[id := |s.log|]);
    if id in s.mask {
      DataOnce(s, id);
      SamePlaces(s, s1);
      CompleteSeqPotential(s1, id, Only(Data), ok, now);
    }
  }

  lemma {:induction false} SamePlaces(s: State, t: State)
    requires Inv(s) == true && Shape(t) && t.fq == s.fq && t.data == s.data && t.mask == s.mask
    ensures Placed(t)
  {
    forall x ensures OnQueues(t, x) <==> OnQueues(s, x) {
    }
  }

  /** Fetches and completions use up the potential; holding the queue costs nothing. */
  lemma {:induction false} NextPotential(s: State, t: Timed)
    requires Inv(s) == true && Enabled(s, t.act) && !t.act.InsertRq?
    ensures Potential(Next(s, t)) + (if t.act.HoldQueue? then 0 else 1) <= Potential(s)
  {
    match t.act
    case FetchRq =>
    case HoldQueue =>
    case DataEnd(id, ok) => EndDataPotential(s, id, ok, t.now);
    case FlushEnd(ok) => EndFlushPotential(s, ok, t.now);
  }

  // ----- runs without new requests

  ghost predicate NoInserts(more: seq<Timed>) {
    forall i :: 0 <= i < |more| ==> !more[i].act.InsertRq?
  }

  /** The fetches and completions of a run. */
  function Work(more: seq<Timed>): nat {
    if more == [] then 0 else (if more[0].act.HoldQueue? then 0 else 1) + Work(more[1..])
  }

  lemma {:induction false} RunsDown(s: State, more: seq<Timed>, t: State)
    requires Inv(s) == true && Leads(s, more, t) && NoInserts(more)
    ensures Inv(t) == true && Work(more) + Potential(t) <= Potential(s)
    decreases |more|
  {
    if more != [] {
      NextPotential(s, more[0]);
      NextInv(s, more[0]);
      RunsDown(Next(s, more[0]), more[1..], t);
    }
  }

  /** Until all is quiet there is something to fetch or to complete. */
  lemma {:induction false} NeverStuck(s: State) returns (a: Action)
    requires Inv(s) == true && (s.head != [] || s.driver != {})
    ensures Enabled(s, a) && !a.InsertRq? && !a.HoldQueue?
  {
    if s.head != [] { return FetchRq; }
    var it :| it in s.driver;
    match it
    case Rq(id) => a := DataEnd(id, true);
    case FlushRq =>
      assert Owned(s, FlushRq);
      a := FlushEnd(true);
  }

  lemma {:induction false} ReachesOne(run: seq<Timed>, s: State, a: Timed)
    requires Reaches(run, s) && Shape(s) && Enabled(s, a.act)
    ensures Reaches(run + [a], Next(s, a))
  {
    var r := run + [a];
    assert r[..|r| - 1] == run && r[|r| - 1] == a;
  }

  lemma {:induction false} LeadsOne(s: State, more: seq<Timed>, t: State) returns (n: State)
    requires Leads(s, more, t) && more != []
    ensures Shape(s) && Enabled(s, more[0].act) && n == Next(s, more[0]) && Leads(n, more[1..], t)
  {
    n := Next(s, more[0]);
  }

  lemma {:induction false} AppendFirst<T>(run: seq<T>, more: seq<T>)
    ensures more == [] ==> run + more == run
    ensures more != [] ==> run + [more[0]] + more[1..] == run + more
  {
  }

  lemma {:induction false} ReachesLeads(run: seq<Timed>, s: State, more: seq<Timed>, t: State)
    requires Reaches(run, s) && Leads(s, more, t)
    ensures Reaches(run + more, t)
    decreases |more|
  {
    AppendFirst(run, more);
    if more != [] {
      var n := LeadsOne(s, more, t);
      ReachesOne(run, s, more[0]);
      ReachesLeads(run + [more[0]], n, more[1..], t);
    }
  }

  lemma {:induction false} WorkedOut(s: State, more: seq<Timed>, t: State)
    requires Inv(s) == true && Leads(s, more, t) && NoInserts(more) && Work(more) >= Potential(s)
    ensures t.head == [] && t.driver == {}
  {
    RunsDown(s, more, t);
  }

  /** From any reachable state, as many fetches and completions as its potential, in any
      order, end every request that was ever inserted, exactly once. */
  lemma {:induction false} AllEndInTime(run: seq<Timed>, s: State, more: seq<Timed>, t: State, x: Id) returns (k: nat)
    requires Reaches(run, s) && Shape(s) && Leads(s, more, t) && NoInserts(more) && Work(more) >= Potential(s)
    requires x in t.birth
    ensures EndsAt(t.log, k, x) && forall j :: EndsAt(t.log, j, x) ==> j == k
  {
    ReachableInv(run, s);
    WorkedOut(s, more, t);
    ReachesLeads(run, s, more, t);
    k := EveryRequestEnds(run + more, t, x);
  }

  // ----- when a flush is issued

  /** Each time a request moves on, a flush is issued exactly if none is out, someone waits for
      one, and no data is in flight or the first of them has waited for five seconds; and the
      waiting counts from the moment the list was empty. */
  lemma {:induction false} FlushDeferred(s: State, id: Id, done: Mask, ok: bool, now: nat)
    requires Shape(s) && id in s.mask
    ensures var t := CompleteSeq(s, id, done, ok, now);
            && (t.issued == s.issued || t.issued == s.issued + 1)
            && (t.issued > s.issued <==> s.pending == s.running && t.fq[s.pending] != []
                                         && (t.data == [] || now >= t.since + 5 * HZ))
            && (t.issued > s.issued <==> t.pending != s.pending)
            && t.since == if t.fq[s.pending] != [] && s.fq[s.pending] == [] then now else s.since
  {
    AdvanceSince(s, id, Union(s.mask[id], done), ok, now);
    KickIssues(Advance(s, id, Union(s.mask[id], done), ok, now), now);
  }

  lemma {:induction false} AdvanceSince(s: State, id: Id, m: Mask, ok: bool, now: nat)
    requires Shape(s)
    ensures var u := Advance(s, id, m, ok, now);
            && u.issued == s.issued && u.pending == s.pending && u.running == s.running
            && u.since == if u.fq[s.pending] != [] && s.fq[s.pending] == [] then now else s.since
  {
    if s.fq[s.pending] == [] { assert Lift(s, id).fq[s.pending] == []; }
  }

  lemma {:induction false} KickIssues(u: State, now: nat)
    requires Shape(u)
    ensures var t := Kick(u, now);
            && t.fq == u.fq && t.data == u.data && t.since == u.since
            && if u.pending == u.running && u.fq[u.pending] != [] && (u.data == [] || now >= u.since + 5 * HZ)
               then t.issued == u.issued + 1 && t.pending == 1 - u.pending
               else t.issued == u.issued && t.pending == u.pending
  {
  }
}
