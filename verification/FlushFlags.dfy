/** What FLUSH and FUA promise, in terms of the flags that a request was submitted with, its
    data and the capabilities of the device; the policy that the sequencer works by is not
    mentioned. */
module FlushFlags {
  import opened Flush

  /** `run` submits the request `id` with the flags `rq` to a device that can do `dev`. */
  ghost predicate Submitted(run: seq<Timed>, id: Id, dev: Flags, rq: Flags, hasData: bool) {
    exists i :: 0 <= i < |run| && run[i].act == InsertRq(id, dev, rq, hasData)
  }

  /** The request inserted at `a` of the history `h` may be reported as done: a flush issued
      after its insertion if it asks for one, its data, and behind its data another flush if
      the device cannot write through. */
  ghost predicate Promised(h: seq<Event>, a: nat, id: Id, dev: Flags, rq: Flags, hasData: bool) {
    && (rq.flush ==> Covered(h, a))
    && (hasData ==> exists d: nat :: a < d && DataDoneAt(h, d, id) && (rq.fua && !dev.fua ==> Covered(h, d)))
  }

  // ----- the policy that stands behind a submission

  ghost predicate Logged(s: State, id: Id, dev: Flags, rq: Flags, hasData: bool) {
    && id in s.birth && s.birth[id] < |s.log| && s.log[s.birth[id]] == Inserted(id, Policy(dev, rq, hasData))
    && (rq.fua ==> hasData)
  }

  lemma {:induction false} InsertLogged(s: State, id: Id, dev: Flags, rq: Flags, hasData: bool, now: nat)
    requires Shape(s) && (rq.fua ==> hasData)
    ensures Logged(Insert(s, id, dev, rq, hasData, now), id, dev, rq, hasData) == true
  {
    var p := Policy(dev, rq, hasData);
    var s1 := Arrived(s, id, p);
    InsertBirth(s, id, dev, rq, hasData, now);
    assert s1.log[|s.log|] == Inserted(id, p);
    if !(p.data && !p.pre && !p.post) {
      var s2 := s1.(mask := s.mask[id := Mask(false, false, false)]);
      var t := CompleteSeq(s2, id, Complement(p), true, now);
      CompleteSeqLog(s2, id, Complement(p), true, now);
      assert t.log[|s.log|] == t.log[..|s1.log|][|s.log|];
    }
  }

  lemma {:induction false} NextLogged(s: State, t: Timed, id: Id, dev: Flags, rq: Flags, hasData: bool)
    requires Shape(s) && Enabled(s, t.act)
    requires t.act == InsertRq(id, dev, rq, hasData) || Logged(s, id, dev, rq, hasData) == true
    ensures Logged(Next(s, t), id, dev, rq, hasData) == true
  {
    if t.act == InsertRq(id, dev, rq, hasData) {
      InsertLogged(s, id, dev, rq, hasData, t.now);
    } else {
      NextBirth(s, t);
      NextLog(s, t);
      assert Next(s, t).log[s.birth[id]] == Next(s, t).log[..|s.log|][s.birth[id]];
    }
  }

  lemma {:induction false} SubmittedBefore(run: seq<Timed>, id: Id, dev: Flags, rq: Flags, hasData: bool)
    requires Submitted(run, id, dev, rq, hasData)
    ensures run != []
    ensures var n := |run| - 1;
            run[n].act == InsertRq(id, dev, rq, hasData) || Submitted(run[..n], id, dev, rq, hasData) == true
  {
    var i :| 0 <= i < |run| && run[i].act == InsertRq(id, dev, rq, hasData);
    if i < |run| - 1 { assert run[..|run| - 1][i] == run[i]; }
  }

  lemma {:induction false} SubmittedLogged(run: seq<Timed>, s: State, id: Id, dev: Flags, rq: Flags, hasData: bool)
    requires Reaches(run, s) && Submitted(run, id, dev, rq, hasData) == true
    ensures Logged(s, id, dev, rq, hasData) == true
  {
    SubmittedBefore(run, id, dev, rq, hasData);
    var n := |run| - 1;
    var b :| Reaches(run[..n], b) && Shape(b) && Enabled(b, run[n].act) && s == Next(b, run[n]);
    if run[n].act != InsertRq(id, dev, rq, hasData) {
      SubmittedLogged(run[..n], b, id, dev, rq, hasData);
    }
    NextLogged(b, run[n], id, dev, rq, hasData);
  }

  lemma {:induction false} FirstBirth(log: seq<Event>, b: nat, id: Id)
    requires Durable(log) && BornAt(log, b, id)
    ensures forall a: nat :: a < b ==> !BornAt(log, a, id)
  {
    DurableAt(log, b);
    forall a: nat | a < b ensures !BornAt(log, a, id) {
      assert log[..b][a] == log[a] && !BornAt(log[..b], a, id);
    }
  }

  /** A request is inserted once. */
  lemma {:induction false} BornOnce(log: seq<Event>, a: nat, b: nat, id: Id)
    requires Durable(log) && BornAt(log, a, id) && BornAt(log, b, id)
    ensures a == b
  {
    FirstBirth(log, a, id);
    FirstBirth(log, b, id);
  }

  // ----- no less than was asked for

  lemma {:induction false} EndedComplete(log: seq<Event>, k: nat, a: nat, id: Id)
    requires Durable(log) && k < |log| && log[k] == Ended(id, true) && BornAt(log, a, id)
    ensures BornAt(log[..k], a, id) && Complete(log[..k], a, id)
  {
    DurableAt(log, k);
    var h := log[..k];
    var b: nat :| BornAt(h, b, id) && Complete(h, b, id);
    BornOnce(log, a, b, id);
  }

  /** On a device with a write-back cache, a request is reported as done only when all that
      was promised has happened before. */
  lemma {:induction false} EndsAsPromised(run: seq<Timed>, s: State, id: Id, dev: Flags, rq: Flags, hasData: bool,
                                          k: nat) returns (a: nat)
    requires Reaches(run, s) && Submitted(run, id, dev, rq, hasData) && dev.flush
    requires k < |s.log| && s.log[k] == Ended(id, true)
    ensures a < k && BornAt(s.log, a, id) && Promised(s.log[..k], a, id, dev, rq, hasData)
  {
    ReachableInv(run, s);
    SubmittedLogged(run, s, id, dev, rq, hasData);
    a := s.birth[id];
    EndedComplete(s.log, k, a, id);
    assert s.log[..k][a] == s.log[a];
  }

  lemma {:induction false} QueuedCovered(log: seq<Event>, k: nat, a: nat, id: Id)
    requires Durable(log) && k < |log| && log[k] == DataQueued(id) && BornAt(log, a, id)
    ensures a < k && log[a].policy.data && (log[a].policy.pre ==> Covered(log[..k], a))
  {
    DurableAt(log, k);
    var h := log[..k];
    var b: nat :| BornAt(h, b, id) && h[b].policy.data && (h[b].policy.pre ==> Covered(h, b));
    BornOnce(log, a, b, id);
  }

  /** Data is queued only where there is any, and behind the flush it was to wait for. */
  lemma {:induction false} QueuedAsPromised(run: seq<Timed>, s: State, id: Id, dev: Flags, rq: Flags, hasData: bool,
                                            k: nat) returns (a: nat)
    requires Reaches(run, s) && Submitted(run, id, dev, rq, hasData)
    requires k < |s.log| && s.log[k] == DataQueued(id)
    ensures a < k && BornAt(s.log, a, id) && dev.flush && hasData && (rq.flush ==> Covered(s.log[..k], a))
  {
    ReachableInv(run, s);
    SubmittedLogged(run, s, id, dev, rq, hasData);
    a := s.birth[id];
    QueuedCovered(s.log, k, a, id);
  }

  lemma {:induction false} OwnedPolicy(s: State, x: Id)
    requires Inv(s) == true && Owned(s, Rq(x))
    ensures x in s.birth && BornAt(s.log, s.birth[x], x)
    ensures var p := s.log[s.birth[x]].policy;
            p.data && (p.pre ==> Covered(s.log, s.birth[x])) && (x in s.mask ==> s.mask[x].pre && !s.mask[x].data)
            && (x in s.mask ==> (s.mask[x].post <==> !p.post)) && (x !in s.mask ==> !p.post)
  {
    if x in s.mask {
      assert Progress(s, x) && x in s.data;
    }
  }

  /** In every reachable state: a request is with the dispatch list or the driver only if
      it has data, and if it asks for a flush only behind one issued after its insertion. */
  lemma {:induction false} DispatchedAsPromised(run: seq<Timed>, s: State, id: Id, dev: Flags, rq: Flags, hasData: bool)
    returns (a: nat)
    requires Reaches(run, s) && Submitted(run, id, dev, rq, hasData) && Owned(s, Rq(id))
    ensures BornAt(s.log, a, id) && dev.flush && hasData && (rq.flush ==> Covered(s.log, a))
  {
    ReachableInv(run, s);
    SubmittedLogged(run, s, id, dev, rq, hasData);
    OwnedPolicy(s, id);
    a := s.birth[id];
  }

  // ----- no more than was asked for

  lemma {:induction false} SequencedEntry(s: State, id: Id, p: Mask, now: nat)
    requires Shape(s) && !(p.data && !p.pre && !p.post)
    ensures var t := CompleteSeq(Arrived(s, id, p).(mask := s.mask[id := Mask(false, false, false)]), id, Complement(p), true, now);
            && (p.pre ==> id in t.mask && !t.mask[id].pre)
            && (!p.pre && p.data ==> Rq(id) in t.head)
  {
  }

  /** Data that need not wait for a flush is dispatched at once, and no other is. */
  lemma {:induction false} DispatchedAtOnce(s: State, id: Id, dev: Flags, rq: Flags, hasData: bool, now: nat)
    requires Inv(s) == true && id !in s.birth && (rq.fua ==> hasData) && dev.flush
    ensures Owned(Insert(s, id, dev, rq, hasData, now), Rq(id)) <==> hasData && !rq.flush
  {
    var t := Insert(s, id, dev, rq, hasData, now);
    var p := Policy(dev, rq, hasData);
    InsertInv(s, id, dev, rq, hasData, now);
    if p.data && !p.pre && !p.post {
      assert Rq(id) in s.head + [Rq(id)];
    } else {
      SequencedEntry(s, id, p, now);
      InsertLogged(s, id, dev, rq, hasData, now);
      if Owned(t, Rq(id)) { OwnedPolicy(t, id); }
    }
  }

  lemma {:induction false} DataEndIs(s: State, id: Id, now: nat)
    requires Inv(s) == true && Rq(id) in s.driver
    ensures Ended(id, true) in EndData(s, id, true, now).log <==> id !in s.mask || s.mask[id].post
  {
    var s1 := s.(driver := s.driver - {Rq(id)}, log := s.log + [DataDone(id, true)], wait := s.wait[id := |s.log|]);
    NotEndedYet(s, id);
    OwnedPolicy(s, id);
    if id in s.mask {
      DataStep(s1, id, now);
    } else {
      assert EndData(s, id, true, now).log[|s.log| + 1] == Ended(id, true);
    }
  }

  lemma {:induction false} NotEndedYet(s: State, id: Id)
    requires Inv(s) == true && Owned(s, Rq(id))
    ensures Ended(id, true) !in s.log
  {
    forall k | 0 <= k < |s.log| ensures s.log[k] != Ended(id, true) {
      assert Consistent(s, s.log[k]);
    }
  }

  lemma {:induction false} DataStep(s: State, id: Id, now: nat)
    requires Shape(s) && id in s.mask && s.mask[id].pre && Ended(id, true) !in s.log
    ensures Ended(id, true) in CompleteSeq(s, id, Only(Data), true, now).log <==> s.mask[id].post
  {
    var m := Union(s.mask[id], Only(Data));
    var t := Advance(s, id, m, true, now);
    assert s.mask[id].post ==> t.log[|s.log|] == Ended(id, true);
    assert forall e :: e in Kick(t, now).log ==> e in t.log || e.FlushIssued?;
    assert s.mask[id].post ==> Kick(t, now).log[|s.log|] == Ended(id, true);
  }

  /** When its data has been written, a request is done at once unless it asks for FUA
      and the device cannot do it. */
  lemma {:induction false} EndsWithItsData(run: seq<Timed>, s: State, id: Id, dev: Flags, rq: Flags, hasData: bool, now: nat)
    requires Reaches(run, s) && Submitted(run, id, dev, rq, hasData) && Rq(id) in s.driver
    ensures Ended(id, true) in EndData(s, id, true, now).log <==> !(rq.fua && !dev.fua)
  {
    ReachableInv(run, s);
    SubmittedLogged(run, s, id, dev, rq, hasData);
    OwnedPolicy(s, id);
    DataEndIs(s, id, now);
  }
}
