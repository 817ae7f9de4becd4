/** The FLUSH/FUA sequencer: a double-buffered protocol in which one shared
    flush serves a whole queue of requests.  States are values here; every
    section under the queue lock is one step.  `log` is the history that the
    durability claims are about. */
module Flush {
  import opened Jiffies
  import opened Lists

  type Id = nat

  /** Which steps of a sequence exist (a policy) or are over (`flush.seq`). */
  datatype Mask = Mask(pre: bool, data: bool, post: bool)

  datatype Step = Preflush | Data | Postflush | Done

  /** Device capability, or the REQ_FLUSH and REQ_FUA bits of a request. */
  datatype Flags = Flags(flush: bool, fua: bool)

  function Policy(dev: Flags, rq: Flags, hasData: bool): (p: Mask) {
    if dev.flush then Mask(rq.flush, hasData, !dev.fua && rq.fua) else Mask(false, false, false)
  }

  function CurSeq(m: Mask): Step {
    if !m.pre then Preflush else if !m.data then Data else if !m.post then Postflush else Done
  }

  function Only(st: Step): Mask {
    Mask(st.Preflush?, st.Data?, st.Postflush?)
  }

  function Complement(m: Mask): Mask {
    Mask(!m.pre, !m.data, !m.post)
  }

  function Union(m: Mask, n: Mask): Mask {
    Mask(m.pre || n.pre, m.data || n.data, m.post || n.post)
  }

  datatype Event =
    | Inserted(id: Id, policy: Mask)
    | FlushIssued(n: nat)
    | FlushDone(n: nat, ok: bool)
    | DataQueued(id: Id)
    | DataDone(id: Id, ok: bool)
    | Ended(id: Id, ok: bool)
    | QueueRun

  /** An entry of the dispatch list: a request, or the queue's own flush_rq. */
  datatype Item = Rq(id: Id) | FlushRq

  datatype State = State(
    fq: seq<seq<Id>>,       // flush_queue[2]
    pending: nat,           // flush_pending_idx
    running: nat,           // flush_running_idx
    data: seq<Id>,          // flush_data_in_flight
    head: seq<Item>,        // queue_head
    driver: set<Item>,      // taken off queue_head by the driver
    mask: map<Id, Mask>,    // flush.seq of every request marked REQ_FLUSH_SEQ
    since: nat,             // flush_pending_since
    delayed: bool,          // flush_queue_delayed
    issued: nat,            // history: flushes issued so far
    issueAt: nat,           // history: where the last of them is in the log
    birth: map<Id, nat>,    // history: where each request was inserted
    wait: map<Id, nat>,     // history: where it began to wait for its current step
    log: seq<Event>)

  const FLUSH_PENDING_TIMEOUT: nat := 5 * HZ

  const Initial := State([[], []], 0, 0, [], [], {}, map[], 0, false, 0, 0, map[], map[], [])

  // ----- the operations

  predicate MayKick(s: State, now: nat)
    requires Shape(s)
  {
    && s.pending == s.running
    && s.fq[s.pending] != []
    && !(s.data != [] && now < s.since + FLUSH_PENDING_TIMEOUT)
  }

  function Kick(s: State, now: nat): (t: State)
    requires Shape(s)
    ensures Shape(t)
  {
    if MayKick(s, now) then
      s.(pending := 1 - s.pending, head := s.head + [FlushRq], issued := s.issued + 1,
         issueAt := |s.log|, log := s.log + [FlushIssued(s.issued)])
    else s
  }

  /** The request leaves whatever flush list it is on. */
  function Lift(s: State, id: Id): (t: State)
    requires Shape(s)
    ensures Shape(t)
  {
    s.(fq := [Without(s.fq[0], id), Without(s.fq[1], id)], data := Without(s.data, id), mask := s.mask - {id})
  }

  /** The request enters the step that follows the completed steps `m`. */
  function Attach(s: State, id: Id, m: Mask, ok: bool, since: nat): (t: State)
    requires Shape(s)
    ensures Shape(t)
  {
    match if ok then CurSeq(m) else Done
    case Preflush | Postflush =>
      s.(mask := s.mask[id := m], since := since, fq := s.fq[s.pending := s.fq[s.pending] + [id]])
    case Data =>
      s.(mask := s.mask[id := m], data := s.data + [id], head := [Rq(id)] + s.head, log := s.log + [DataQueued(id)])
    case Done =>
      s.(log := s.log + [Ended(id, ok)])
  }

  function Advance(s: State, id: Id, m: Mask, ok: bool, now: nat): (t: State)
    requires Shape(s)
    ensures Shape(t)
  {
    Attach(Lift(s, id), id, m, ok, if s.fq[s.pending] == [] then now else s.since)
  }

  /** blk_flush_complete_seq: record `done`, move the request on, consider a flush. */
  function CompleteSeq(s: State, id: Id, done: Mask, ok: bool, now: nat): (t: State)
    requires Shape(s) && id in s.mask
    ensures Shape(t)
  {
    Kick(Advance(s, id, Union(s.mask[id], done), ok, now), now)
  }

  /** What blk_flush_complete_seq returns: was anything added to queue_head? */
  function Queued(s: State, id: Id, done: Mask, ok: bool, now: nat): bool
    requires Shape(s) && id in s.mask
  {
    var seq' := Union(s.mask[id], done);
    MayKick(Advance(s, id, seq', ok, now), now) || (ok && CurSeq(seq').Data?)
  }

  predicate Shape(s: State) {
    |s.fq| == 2 && 0 <= s.pending < 2 && 0 <= s.running < 2
  }

  /** The state in which a new request takes its first step. */
  function Arrived(s: State, id: Id, p: Mask): State {
    s.(birth := s.birth[id := |s.log|], wait := s.wait[id := |s.log|], log := s.log + [Inserted(id, p)])
  }

  /** blk_insert_flush. */
  function Insert(s: State, id: Id, dev: Flags, rq: Flags, hasData: bool, now: nat): State
    requires Shape(s)
  {
    var p := Policy(dev, rq, hasData);
    var s1 := Arrived(s, id, p);
    if p.data && !p.pre && !p.post then
      s1.(head := s.head + [Rq(id)])
    else
      CompleteSeq(s1.(mask := s.mask[id := Mask(false, false, false)]), id, Complement(p), true, now)
  }

  function RunQueueIf(s: State, b: bool): State {
    if b then s.(log := s.log + [QueueRun]) else s
  }

  /** Completion of the DATA of a request: flush_data_end_io when the request is
      sequenced, the ordinary end of its bio otherwise. */
  function EndData(s: State, id: Id, ok: bool, now: nat): State
    requires Shape(s)
  {
    var s1 := s.(driver := s.driver - {Rq(id)}, log := s.log + [DataDone(id, ok)], wait := s.wait[id := |s.log|]);
    if id in s.mask then
      RunQueueIf(CompleteSeq(s1, id, Only(Data), ok, now), Queued(s1, id, Only(Data), ok, now))
    else
      s1.(log := s1.log + [Ended(id, ok)])
  }

  /** The loop of flush_end_io over the requests `todo` that the flush served. */
  function PushAll(s: State, todo: seq<Id>, ok: bool, now: nat): (t: State)
    requires Shape(s)
    ensures Shape(t)
    decreases |todo|
  {
    if todo == [] || todo[0] !in s.mask then s
    else PushAll(CompleteSeq(s, todo[0], Only(CurSeq(s.mask[todo[0]])), ok, now), todo[1..], ok, now)
  }

  function PushQueued(s: State, todo: seq<Id>, ok: bool, now: nat): bool
    requires Shape(s)
    decreases |todo|
  {
    if todo == [] || todo[0] !in s.mask then false
    else
      var done := Only(CurSeq(s.mask[todo[0]]));
      Queued(s, todo[0], done, ok, now)
      || PushQueued(CompleteSeq(s, todo[0], done, ok, now), todo[1..], ok, now)
  }

  function FlushAccounted(s: State, ok: bool): State
    requires Shape(s) && s.issued > 0
  {
    s.(running := 1 - s.running, driver := s.driver - {FlushRq}, log := s.log + [FlushDone(s.issued - 1, ok)])
  }

  /** flush_end_io. */
  function EndFlush(s: State, ok: bool, now: nat): State
    requires Shape(s) && s.issued > 0
  {
    var s1 := FlushAccounted(s, ok);
    var todo := s.fq[s.running];
    RunQueueIf(PushAll(s1, todo, ok, now).(delayed := false), PushQueued(s1, todo, ok, now) || s.delayed)
  }

  /** The driver takes the first entry of the dispatch list. */
  function Fetch(s: State): State
    requires s.head != []
  {
    s.(head := s.head[1..], driver := s.driver + {s.head[0]})
  }

  /** __elv_next_request, when a flush that cannot be queued behind holds the queue. */
  function Hold(s: State): State {
    s.(delayed := true)
  }

  // ----- runs

  datatype Action =
    | InsertRq(id: Id, dev: Flags, rq: Flags, hasData: bool)
    | FetchRq
    | HoldQueue
    | DataEnd(id: Id, ok: bool)
    | FlushEnd(ok: bool)

  datatype Timed = At(now: nat, act: Action)

  /** A FUA request carries data; a request is inserted once and completes only
      after the driver has taken it. */
  predicate Enabled(s: State, a: Action) {
    match a
    case InsertRq(id, dev, rq, hasData) => id !in s.birth && (rq.fua ==> hasData)
    case FetchRq => s.head != []
    case HoldQueue => s.head == [] && s.pending != s.running
    case DataEnd(id, _) => Rq(id) in s.driver
    case FlushEnd(_) => FlushRq in s.driver && s.issued > 0
  }

  function Next(s: State, t: Timed): State
    requires Shape(s) && Enabled(s, t.act)
  {
    match t.act
    case InsertRq(id, dev, rq, hasData) => Insert(s, id, dev, rq, hasData, t.now)
    case FetchRq => Fetch(s)
    case HoldQueue => Hold(s)
    case DataEnd(id, ok) => EndData(s, id, ok, t.now)
    case FlushEnd(ok) => EndFlush(s, ok, t.now)
  }

  /** `run` leads from the initial state to `s`. */
  ghost predicate Reaches(run: seq<Timed>, s: State) {
    if run == [] then s == Initial
    else exists b :: Reaches(run[..|run| - 1], b) && Shape(b) && Enabled(b, run[|run| - 1].act)
                     && s == Next(b, run[|run| - 1])
  }

  // ----- what a log must show

  /** Some flush was issued after position `lo` and has completed without error. */
  ghost predicate Covered(log: seq<Event>, lo: nat) {
    exists i, j :: lo < i < j < |log| && log[i].FlushIssued? && log[j] == FlushDone(log[i].n, true)
  }

  ghost predicate BornAt(log: seq<Event>, a: nat, id: Id) {
    a < |log| && log[a].Inserted? && log[a].id == id
  }

  ghost predicate DataDoneAt(log: seq<Event>, d: nat, id: Id) {
    d < |log| && log[d] == DataDone(id, true)
  }

  /** Everything the policy of the request born at `a` asks for has happened:
      the preflush was issued after its insertion, its data is written, and the
      postflush was issued after its data. */
  ghost predicate Complete(log: seq<Event>, a: nat, id: Id)
    requires BornAt(log, a, id)
  {
    && (log[a].policy.pre ==> Covered(log, a))
    && (log[a].policy.data ==>
          exists d: nat :: a < d && DataDoneAt(log, d, id) && (log[a].policy.post ==> Covered(log, d)))
  }

  /** May `e` follow the history `h`? */
  ghost predicate Justified(h: seq<Event>, e: Event) {
    match e
    case Inserted(id, p) => (forall a :: 0 <= a < |h| ==> !BornAt(h, a, id)) && (p.post ==> p.data)
    case FlushIssued(n) =>
      FlushIssued(n) !in h && (n > 0 ==> FlushDone(n - 1, true) in h || FlushDone(n - 1, false) in h)
    case FlushDone(n, _) =>
      FlushIssued(n) in h && FlushDone(n, true) !in h && FlushDone(n, false) !in h
    case DataQueued(id) =>
      && DataQueued(id) !in h
      && exists a: nat :: BornAt(h, a, id) && h[a].policy.data && (h[a].policy.pre ==> Covered(h, a))
    case DataDone(id, _) => DataDone(id, true) !in h && DataDone(id, false) !in h
    case Ended(id, ok) =>
      && Ended(id, true) !in h && Ended(id, false) !in h
      && (ok ==> exists a: nat :: BornAt(h, a, id) && Complete(h, a, id))
    case QueueRun => true
  }

  ghost predicate Durable(log: seq<Event>) {
    log == [] || (Durable(log[..|log| - 1]) && Justified(log[..|log| - 1], log[|log| - 1]))
  }

  lemma {:induction false} DurableAppend(log: seq<Event>, e: Event)
    requires Durable(log) && Justified(log, e)
    ensures Durable(log + [e])
  {
    assert (log + [e])[..|log|] == log;
  }

  // ----- the invariant

  ghost predicate Owned(s: State, it: Item) {
    it in s.head || it in s.driver
  }

  ghost predicate OnQueues(s: State, x: Id)
    requires Shape(s)
  {
    x in s.fq[0] || x in s.fq[1]
  }

  /** Each sequenced request is on exactly one list, the one its step dictates. */
  ghost predicate Placed(s: State)
    requires Shape(s)
  {
    && Distinct(s.fq[0]) && Distinct(s.fq[1]) && Distinct(s.data)
    && (forall x :: x in s.fq[0] ==> x !in s.fq[1])
    && (forall x :: x in s.mask <==> OnQueues(s, x) || x in s.data)
    && (forall x :: OnQueues(s, x) ==> CurSeq(s.mask[x]).Preflush? || CurSeq(s.mask[x]).Postflush?)
    && (forall x :: x in s.data ==> CurSeq(s.mask[x]).Data?)
  }

  /** A sequenced request is with the dispatch list or the driver exactly while
      its DATA is in flight, and flush_rq exactly while the indices differ. */
  ghost predicate Dispatched(s: State) {
    && Distinct(s.head)
    && (forall it :: it in s.head ==> it !in s.driver)
    && (forall x :: x in s.mask ==> (Owned(s, Rq(x)) <==> x in s.data))
    && (forall x :: Owned(s, Rq(x)) ==> x in s.birth)
    && (Owned(s, FlushRq) <==> s.pending != s.running)
  }

  /** What an event of the past means for the present. */
  ghost predicate Consistent(s: State, e: Event) {
    match e
    case Inserted(id, p) => id in s.birth
    case FlushIssued(n) => n < s.issued
    case FlushDone(n, _) => n < s.issued && (s.pending != s.running ==> n + 1 < s.issued)
    case DataQueued(id) => id in s.birth && (id in s.mask ==> id in s.data || s.mask[id].data)
    case DataDone(id, _) => id in s.birth && !Owned(s, Rq(id)) && (id in s.mask ==> s.mask[id].data)
    case Ended(id, _) => id in s.birth && id !in s.mask && !Owned(s, Rq(id))
    case QueueRun => true
  }

  ghost predicate Outstanding(s: State) {
    if s.pending != s.running then
      s.issued > 0 && s.issueAt < |s.log| && s.log[s.issueAt] == FlushIssued(s.issued - 1)
    else
      s.issued > 0 ==> FlushDone(s.issued - 1, true) in s.log || FlushDone(s.issued - 1, false) in s.log
  }

  /** How far a sequenced request has come, and what the log shows for it. */
  ghost predicate Progress(s: State, x: Id)
    requires x in s.mask
  {
    && x in s.birth && x in s.wait && s.birth[x] <= s.wait[x] < |s.log|
    && BornAt(s.log, s.birth[x], x)
    && var p := s.log[s.birth[x]].policy;
       var m := s.mask[x];
       && (p.post ==> p.data)
       && (p.post || p.pre)
       && (!p.pre ==> m.pre) && (!p.data ==> m.data) && (!p.post <==> m.post)
       && (p.pre && m.pre ==> Covered(s.log, s.birth[x]))
       && (p.data && m.data && m.pre ==> s.birth[x] < s.wait[x] && DataDoneAt(s.log, s.wait[x], x))
       && (m.data ==> m.pre || !p.data)
  }

  /** The log agrees with the present state. */
  ghost predicate History(s: State) {
    && (forall k :: 0 <= k < |s.log| ==> Consistent(s, s.log[k]))
    && Outstanding(s)
  }

  ghost predicate Progressing(s: State) {
    && (forall x :: x in s.mask ==> Progress(s, x))
    && (forall x :: x in s.birth ==> BornAt(s.log, s.birth[x], x))
    && (forall x :: x in s.birth && Owned(s, Rq(x)) && x !in s.mask ==>
          s.log[s.birth[x]].policy == Mask(false, true, false))
  }

  ghost predicate Core(s: State) {
    Shape(s) && Placed(s) && Dispatched(s) && History(s) && Progressing(s) && Durable(s.log)
  }

  ghost predicate WaitedBefore(s: State, list: seq<Id>, at: nat) {
    forall x :: x in list ==> x in s.wait && s.wait[x] < at
  }

  /** A list is being flushed exactly while the indices differ, and everyone on it was
      waiting before that flush was issued. */
  ghost predicate Flowing(s: State) {
    && Shape(s)
    && (s.delayed ==> s.pending != s.running)
    && if s.pending != s.running then
         s.fq[s.running] != [] && WaitedBefore(s, s.fq[s.running], s.issueAt)
       else
         s.fq[1 - s.pending] == []
  }

  /** After any consideration of a flush, nobody waits when neither a flush nor data is
      in flight. */
  ghost predicate Considered(s: State)
    requires Shape(s)
  {
    s.pending == s.running && s.fq[s.pending] != [] ==> s.data != []
  }

  /** The invariant between steps. */
  ghost predicate Inv(s: State) {
    Core(s) && Flowing(s) && Considered(s)
  }

  /** Inside the loop of flush_end_io, which walks `fq[r]`: the flush issued at
      `i` completed at `j`, and the next flush may already have been issued. */
  ghost predicate Walking(s: State, r: nat, i: nat, j: nat, ok: bool) {
    && Shape(s) && r < 2 && s.running == 1 - r
    && i < j < |s.log| && s.log[i].FlushIssued? && s.log[j] == FlushDone(s.log[i].n, ok)
    && WaitedBefore(s, s.fq[r], i)
    && (s.pending != s.running ==> s.fq[1 - r] != [] && WaitedBefore(s, s.fq[1 - r], s.issueAt))
  }

  ghost predicate Mid(s: State, r: nat, i: nat, j: nat, ok: bool) {
    Core(s) && Walking(s, r, i, j, ok)
  }

  lemma {:induction false} CoveredAppend(log: seq<Event>, e: Event, lo: nat)
    requires Covered(log, lo)
    ensures Covered(log + [e], lo)
  {
    var i, j :| lo < i < j < |log| && log[i].FlushIssued? && log[j] == FlushDone(log[i].n, true);
    var l := log + [e];
    assert l[i] == log[i] && l[j] == log[j];
  }

  /** Progress only depends on the request's own entries and survives new events. */
  lemma {:induction false} ProgressAppend(s: State, t: State, x: Id)
    requires x in s.mask && Progress(s, x)
    requires x in t.mask && t.mask[x] == s.mask[x]
    requires x in t.birth && t.birth[x] == s.birth[x] && x in t.wait && t.wait[x] == s.wait[x]
    requires t.log == s.log || (|t.log| == |s.log| + 1 && t.log == s.log + [t.log[|s.log|]])
    ensures Progress(t, x)
  {
    var p := s.log[s.birth[x]].policy;
    if t.log != s.log && p.pre && s.mask[x].pre {
      CoveredAppend(s.log, t.log[|s.log|], s.birth[x]);
    }
  }

  lemma {:induction false} KickPlaced(s: State, now: nat)
    requires Shape(s) && Placed(s) && Dispatched(s) && MayKick(s, now)
    ensures Placed(Kick(s, now)) && Dispatched(Kick(s, now))
  {
  }

  lemma {:induction false} KickHistory(s: State, now: nat)
    requires Shape(s) && History(s) && MayKick(s, now)
    ensures History(Kick(s, now))
  {
  }

  lemma {:induction false} KickProgressing(s: State, now: nat)
    requires Shape(s) && Progressing(s) && MayKick(s, now)
    ensures Progressing(Kick(s, now))
  {
    var t := Kick(s, now);
    forall x | x in t.mask ensures Progress(t, x) {
      ProgressAppend(s, t, x);
    }
  }

  lemma {:induction false} KickCore(s: State, now: nat)
    requires Core(s) == true
    ensures Core(Kick(s, now)) == true
  {
    if MayKick(s, now) {
      KickPlaced(s, now);
      KickHistory(s, now);
      KickProgressing(s, now);
      assert Justified(s.log, FlushIssued(s.issued));
      DurableAppend(s.log, FlushIssued(s.issued));
    }
  }

  // ----- a request enters its next step

  /** `id` is on no list and not with the driver. */
  ghost predicate Loose(s: State, id: Id) {
    id !in s.mask && !Owned(s, Rq(id)) && id in s.birth
  }

  lemma {:induction false} AttachPlaced(s: State, id: Id, m: Mask, ok: bool, since: nat)
    requires Shape(s) && Placed(s) && Loose(s, id)
    ensures Placed(Attach(s, id, m, ok, since))
  {
    assert !OnQueues(s, id) && id !in s.data;
  }

  lemma {:induction false} AttachDispatched(s: State, id: Id, m: Mask, ok: bool, since: nat)
    requires Shape(s) && Dispatched(s) && Loose(s, id) && id !in s.data
    ensures Dispatched(Attach(s, id, m, ok, since))
  {
  }

  /** What the log must allow for the step that `id` enters. */
  ghost predicate MayEnter(s: State, id: Id, m: Mask, ok: bool)
    requires Shape(s)
  {
    match if ok then CurSeq(m) else Done
    case Preflush | Postflush =>
      Progress(s.(mask := s.mask[id := m]), id)
      && (DataQueued(id) in s.log || DataDone(id, true) in s.log || DataDone(id, false) in s.log ==> m.data)
      && Ended(id, true) !in s.log && Ended(id, false) !in s.log
    case Data =>
      Progress(s.(mask := s.mask[id := m]), id) && Justified(s.log, DataQueued(id))
      && DataDone(id, true) !in s.log && DataDone(id, false) !in s.log
      && Ended(id, true) !in s.log && Ended(id, false) !in s.log
    case Done => Justified(s.log, Ended(id, ok))
  }

  lemma {:induction false} AttachHistory(s: State, id: Id, m: Mask, ok: bool, since: nat)
    requires Shape(s) && History(s) && Loose(s, id) && MayEnter(s, id, m, ok)
    ensures History(Attach(s, id, m, ok, since))
  {
  }

  lemma {:induction false} AttachProgressing(s: State, id: Id, m: Mask, ok: bool, since: nat)
    requires Shape(s) && Progressing(s) && Loose(s, id) && MayEnter(s, id, m, ok)
    ensures Progressing(Attach(s, id, m, ok, since))
  {
    var t := Attach(s, id, m, ok, since);
    forall x | x in t.mask ensures Progress(t, x) {
      ProgressAppend(s.(mask := s.mask[id := m]), t, x);
    }
  }

  lemma {:induction false} AttachCore(s: State, id: Id, m: Mask, ok: bool, since: nat)
    requires Core(s) == true && Loose(s, id) && MayEnter(s, id, m, ok) == true
    ensures Core(Attach(s, id, m, ok, since)) == true
  {
    AttachPlaced(s, id, m, ok, since);
    AttachDispatched(s, id, m, ok, since);
    AttachHistory(s, id, m, ok, since);
    AttachProgressing(s, id, m, ok, since);
    if !ok || CurSeq(m).Done? {
      DurableAppend(s.log, Ended(id, ok));
    } else if CurSeq(m).Data? {
      DurableAppend(s.log, DataQueued(id));
    }
  }

  // ----- a request leaves its flush list

  lemma {:induction false} LiftPlaced(s: State, id: Id)
    requires Shape(s) && Placed(s)
    ensures Shape(Lift(s, id)) && Placed(Lift(s, id))
  {
    DistinctWithout(s.fq[0], id);
    DistinctWithout(s.fq[1], id);
    DistinctWithout(s.data, id);
  }

  lemma {:induction false} LiftDispatched(s: State, id: Id)
    requires Shape(s) && Dispatched(s) && id !in s.data && !Owned(s, Rq(id))
    ensures Dispatched(Lift(s, id))
  {
    WithoutAbsent(s.data, id);
  }

  lemma {:induction false} LiftHistory(s: State, id: Id)
    requires Shape(s) && History(s) && id !in s.data
    ensures History(Lift(s, id))
  {
    WithoutAbsent(s.data, id);
    assert Lift(s, id).log == s.log;
  }

  lemma {:induction false} LiftCore(s: State, id: Id)
    requires Core(s) == true && OnQueues(s, id)
    ensures Core(Lift(s, id)) == true && Loose(Lift(s, id), id)
  {
    var t := Lift(s, id);
    assert id in s.mask && id !in s.data;
    LiftPlaced(s, id);
    LiftDispatched(s, id);
    LiftHistory(s, id);
    forall x | x in t.mask ensures Progress(t, x) {
      ProgressAppend(s, t, x);
    }
  }

  /** Completion of DATA takes the request from the driver and off the data list. */
  function DataLifted(s: State, id: Id, ok: bool): State
    requires Shape(s)
  {
    Lift(s.(driver := s.driver - {Rq(id)}, log := s.log + [DataDone(id, ok)], wait := s.wait[id := |s.log|]), id)
  }

  lemma {:induction false} DataLiftedHistory(s: State, id: Id, ok: bool)
    requires Shape(s) && Placed(s) && Dispatched(s) && History(s) && Rq(id) in s.driver
    ensures Dispatched(DataLifted(s, id, ok)) && History(DataLifted(s, id, ok))
    ensures Loose(DataLifted(s, id, ok), id)
    ensures Justified(s.log, DataDone(id, ok))
  {
    var t := DataLifted(s, id, ok);
    assert t.log[..|s.log|] == s.log;
    assert Owned(s, Rq(id));
  }

  lemma {:induction false} DataLiftedProgressing(s: State, id: Id, ok: bool)
    requires Shape(s) && Dispatched(s) && Progressing(s) && Rq(id) in s.driver
    ensures Progressing(DataLifted(s, id, ok))
  {
    var t := DataLifted(s, id, ok);
    forall x | x in t.mask ensures Progress(t, x) {
      ProgressAppend(s, t, x);
    }
  }

  lemma {:induction false} DataLiftedCore(s: State, id: Id, ok: bool)
    requires Core(s) && Rq(id) in s.driver
    ensures Core(DataLifted(s, id, ok)) && Loose(DataLifted(s, id, ok), id)
  {
    LiftPlaced(s, id);
    DataLiftedHistory(s, id, ok);
    DataLiftedProgressing(s, id, ok);
    DurableAppend(s.log, DataDone(id, ok));
  }

  // ----- the loop of flush_end_io

  /** The log shows a flush for everyone on the list that the flush served. */
  lemma {:induction false} ServedCovered(s: State, r: nat, i: nat, j: nat, x: Id)
    requires Mid(s, r, i, j, true) == true && x in s.fq[r]
    ensures x in s.mask && x in s.wait && Covered(s.log, s.wait[x]) && Covered(s.log, s.birth[x])
  {
    assert OnQueues(s, x) && Progress(s, x);
  }

  lemma {:induction false} NotEnded(s: State, x: Id)
    requires History(s) && x in s.mask
    ensures Ended(x, true) !in s.log && Ended(x, false) !in s.log
  {
    forall k | 0 <= k < |s.log| ensures !(s.log[k].Ended? && s.log[k].id == x) {
      assert Consistent(s, s.log[k]);
    }
  }

  lemma {:induction false} NotWritten(s: State, x: Id)
    requires History(s) && x in s.mask && x !in s.data && !s.mask[x].data
    ensures DataQueued(x) !in s.log && DataDone(x, true) !in s.log && DataDone(x, false) !in s.log
  {
    forall k | 0 <= k < |s.log|
      ensures s.log[k] != DataQueued(x) && !(s.log[k].DataDone? && s.log[k].id == x)
    {
      assert Consistent(s, s.log[k]);
    }
  }

  lemma {:induction false} ServedToData(s: State, x: Id, m: Mask)
    requires Shape(s) && History(s) && x in s.mask && x !in s.data && Progress(s, x) && Covered(s.log, s.birth[x])
    requires CurSeq(s.mask[x]).Preflush? && m == Union(s.mask[x], Only(Preflush)) && CurSeq(m).Data?
    ensures MayEnter(Lift(s, x), x, m, true) == true
  {
    NotEnded(s, x);
    NotWritten(s, x);
    assert BornAt(s.log, s.birth[x], x);
  }

  lemma {:induction false} ServedToEnd(s: State, x: Id)
    requires Shape(s) && History(s) && x in s.mask && Progress(s, x)
    requires Covered(s.log, s.wait[x]) && Covered(s.log, s.birth[x])
    requires var c := CurSeq(s.mask[x]); (c.Preflush? || c.Postflush?) && CurSeq(Union(s.mask[x], Only(c))).Done?
    ensures Justified(s.log, Ended(x, true)) == true
  {
    NotEnded(s, x);
    assert BornAt(s.log, s.birth[x], x) && Complete(s.log, s.birth[x], x);
  }

  /** What a served request may do next. */
  lemma {:induction false} ServedMayEnter(s: State, x: Id, ok: bool)
    requires Shape(s) && Placed(s) && History(s) && OnQueues(s, x) && Progress(s, x)
    requires ok ==> Covered(s.log, s.wait[x]) && Covered(s.log, s.birth[x])
    ensures MayEnter(Lift(s, x), x, Union(s.mask[x], Only(CurSeq(s.mask[x]))), ok) == true
    ensures ok ==> CurSeq(Union(s.mask[x], Only(CurSeq(s.mask[x])))).Data?
                   || CurSeq(Union(s.mask[x], Only(CurSeq(s.mask[x])))).Done?
  {
    var m := Union(s.mask[x], Only(CurSeq(s.mask[x])));
    if !ok {
      NotEnded(s, x);
    } else if CurSeq(m).Done? {
      ServedToEnd(s, x);
    } else {
      ServedToData(s, x, m);
    }
  }

  lemma {:induction false} CompleteSeqCore(s: State, id: Id, done: Mask, ok: bool, now: nat)
    requires Shape(s) && id in s.mask
    requires Core(Lift(s, id)) == true && Loose(Lift(s, id), id)
    requires MayEnter(Lift(s, id), id, Union(s.mask[id], done), ok) == true
    ensures Core(CompleteSeq(s, id, done, ok, now)) == true
  {
    var since := if s.fq[s.pending] == [] then now else s.since;
    AttachCore(Lift(s, id), id, Union(s.mask[id], done), ok, since);
    KickCore(Advance(s, id, Union(s.mask[id], done), ok, now), now);
  }

  /** `t` is `s` after the first request of `fq[r]` has moved on: it left that
      list, nobody joined the other one, and at most one flush was issued. */
  ghost predicate Pushed(s: State, t: State, r: nat)
    requires Shape(s) && Shape(t) && r < 2 && s.fq[r] != []
  {
    && t.fq[r] == s.fq[r][1..] && t.fq[1 - r] == s.fq[1 - r]
    && t.wait == s.wait && t.running == s.running
    && |s.log| <= |t.log| && t.log[..|s.log|] == s.log
    && ((t.pending == s.pending && t.issueAt == s.issueAt)
        || (s.pending == s.running && t.pending == 1 - s.pending && s.fq[s.pending] != [] && |s.log| <= t.issueAt))
  }

  lemma {:induction false} AdvanceFrame(s: State, r: nat, x: Id, m: Mask, ok: bool, now: nat)
    requires Shape(s) && r < 2 && Distinct(s.fq[r]) && s.fq[r] != [] && x == s.fq[r][0] && x !in s.fq[1 - r]
    requires ok ==> CurSeq(m).Data? || CurSeq(m).Done?
    ensures var u := Advance(s, x, m, ok, now);
            && u.fq[r] == s.fq[r][1..] && u.fq[1 - r] == s.fq[1 - r]
            && u.wait == s.wait && u.running == s.running && u.pending == s.pending && u.issueAt == s.issueAt
            && |s.log| <= |u.log| && u.log[..|s.log|] == s.log
  {
    WithoutAt(s.fq[r], 0);
    WithoutAbsent(s.fq[1 - r], x);
  }

  lemma {:induction false} KickPushed(s: State, u: State, r: nat, now: nat)
    requires Shape(s) && Shape(u) && r < 2 && s.fq[r] != [] && s.running == 1 - r
    requires u.fq[r] == s.fq[r][1..] && u.fq[1 - r] == s.fq[1 - r]
    requires u.wait == s.wait && u.running == s.running && u.pending == s.pending && u.issueAt == s.issueAt
    requires |s.log| <= |u.log| && u.log[..|s.log|] == s.log
    ensures Pushed(s, Kick(u, now), r) && Considered(Kick(u, now))
  {
  }

  lemma {:induction false} PushFrame(s: State, r: nat, x: Id, ok: bool, now: nat)
    requires Core(s) == true && r < 2 && s.fq[r] != [] && x == s.fq[r][0]
    requires x in s.mask && s.running == 1 - r
    requires var c := CurSeq(Union(s.mask[x], Only(CurSeq(s.mask[x])))); ok ==> c.Data? || c.Done?
    ensures var t := CompleteSeq(s, x, Only(CurSeq(s.mask[x])), ok, now);
            Pushed(s, t, r) && Considered(t)
  {
    assert x in s.fq[r] && x !in s.fq[1 - r];
    var m := Union(s.mask[x], Only(CurSeq(s.mask[x])));
    AdvanceFrame(s, r, x, m, ok, now);
    KickPushed(s, Advance(s, x, m, ok, now), r, now);
  }

  lemma {:induction false} WalkingKept(s: State, t: State, r: nat, i: nat, j: nat, ok: bool)
    requires Walking(s, r, i, j, ok) == true && Shape(t) && s.fq[r] != [] && Pushed(s, t, r)
    requires forall x :: x in s.fq[1 - r] ==> x in s.wait && s.wait[x] < |s.log|
    ensures Walking(t, r, i, j, ok) == true
  {
    assert t.log[i] == t.log[..|s.log|][i] && t.log[j] == t.log[..|s.log|][j];
    assert forall x :: x in t.fq[r] ==> x in s.fq[r];
  }

  lemma {:induction false} PushCore(s: State, x: Id, ok: bool, now: nat)
    requires Core(s) == true && OnQueues(s, x) && x in s.mask && Progress(s, x)
    requires ok ==> Covered(s.log, s.wait[x]) && Covered(s.log, s.birth[x])
    ensures Core(CompleteSeq(s, x, Only(CurSeq(s.mask[x])), ok, now)) == true
    ensures var c := CurSeq(Union(s.mask[x], Only(CurSeq(s.mask[x])))); ok ==> c.Data? || c.Done?
  {
    ServedMayEnter(s, x, ok);
    LiftCore(s, x);
    CompleteSeqCore(s, x, Only(CurSeq(s.mask[x])), ok, now);
  }

  lemma {:induction false} WaitsInLog(s: State, r: nat)
    requires Core(s) == true && r < 2
    ensures forall x :: x in s.fq[r] ==> x in s.mask && x in s.wait && s.wait[x] < |s.log|
  {
    forall x | x in s.fq[r] ensures x in s.mask && x in s.wait && s.wait[x] < |s.log| {
      assert OnQueues(s, x) && Progress(s, x);
    }
  }

  /** One turn of the loop keeps the loop invariant, whether or not the turn
      itself issues the next flush and flips the pending index. */
  lemma {:induction false} PushOne(s: State, r: nat, i: nat, j: nat, ok: bool, x: Id, now: nat)
    requires Mid(s, r, i, j, ok) == true && s.fq[r] != [] && x == s.fq[r][0]
    ensures x in s.mask
    ensures var t := CompleteSeq(s, x, Only(CurSeq(s.mask[x])), ok, now);
            Mid(t, r, i, j, ok) == true && Pushed(s, t, r) && Considered(t)
  {
    assert OnQueues(s, x) && Progress(s, x);
    if ok { ServedCovered(s, r, i, j, x); }
    PushCore(s, x, ok, now);
    PushFrame(s, r, x, ok, now);
    WaitsInLog(s, 1 - r);
    WalkingKept(s, CompleteSeq(s, x, Only(CurSeq(s.mask[x])), ok, now), r, i, j, ok);
  }

  lemma {:induction false} PushAllMid(s: State, r: nat, i: nat, j: nat, ok: bool, now: nat)
    requires Mid(s, r, i, j, ok) == true && (s.fq[r] != [] || Considered(s))
    ensures var t := PushAll(s, s.fq[r], ok, now);
            Mid(t, r, i, j, ok) == true && t.fq[r] == [] && Considered(t)
    decreases |s.fq[r]|
  {
    if s.fq[r] != [] {
      var x := s.fq[r][0];
      PushOne(s, r, i, j, ok, x, now);
      var t := CompleteSeq(s, x, Only(CurSeq(s.mask[x])), ok, now);
      PushAllMid(t, r, i, j, ok, now);
    }
  }

  lemma {:induction false} RunHistory(s: State)
    requires History(s) && Dispatched(s)
    ensures History(RunQueueIf(s, true)) && Dispatched(RunQueueIf(s, true))
  {
  }

  lemma {:induction false} RunProgressing(s: State)
    requires Progressing(s)
    ensures Progressing(RunQueueIf(s, true))
  {
    var t := RunQueueIf(s, true);
    forall x | x in t.mask ensures Progress(t, x) {
      ProgressAppend(s, t, x);
    }
  }

  lemma {:induction false} RunKeeps(s: State, b: bool)
    requires Core(s)
    ensures Core(RunQueueIf(s, b))
  {
    if b {
      RunHistory(s);
      RunProgressing(s);
      DurableAppend(s.log, QueueRun);
    }
  }

  lemma {:induction false} UndelayedCore(s: State)
    requires Core(s)
    ensures Core(s.(delayed := false))
  {
    var t := s.(delayed := false);
    forall x | x in t.mask ensures Progress(t, x) {
      ProgressAppend(s, t, x);
    }
  }

  lemma {:induction false} WalkedFlowing(s: State, r: nat, i: nat, j: nat, ok: bool, b: bool)
    requires Walking(s, r, i, j, ok) && s.fq[r] == [] && Considered(s)
    ensures var t := RunQueueIf(s.(delayed := false), b); Flowing(t) == true && Considered(t)
  {
  }

  lemma {:induction false} WalkedInv(s: State, r: nat, i: nat, j: nat, ok: bool, b: bool)
    requires Mid(s, r, i, j, ok) == true && s.fq[r] == [] && Considered(s)
    ensures Inv(RunQueueIf(s.(delayed := false), b)) == true
  {
    UndelayedCore(s);
    RunKeeps(s.(delayed := false), b);
    WalkedFlowing(s, r, i, j, ok, b);
  }

  lemma {:induction false} AccountedHistory(s: State, ok: bool)
    requires Shape(s) && Dispatched(s) && History(s) && FlushRq in s.driver
    ensures s.issued > 0 && Dispatched(FlushAccounted(s, ok)) && History(FlushAccounted(s, ok))
    ensures Justified(s.log, FlushDone(s.issued - 1, ok))
  {
    assert Owned(s, FlushRq);
    var t := FlushAccounted(s, ok);
    assert t.log[|s.log|] == FlushDone(s.issued - 1, ok);
    assert s.log[s.issueAt] == FlushIssued(s.issued - 1);
  }

  lemma {:induction false} AccountedCore(s: State, ok: bool)
    requires Core(s) && FlushRq in s.driver
    ensures s.issued > 0 && Core(FlushAccounted(s, ok))
  {
    AccountedHistory(s, ok);
    var t := FlushAccounted(s, ok);
    forall x | x in t.mask ensures Progress(t, x) {
      ProgressAppend(s, t, x);
    }
    DurableAppend(s.log, FlushDone(s.issued - 1, ok));
  }

  /** The flush that has just completed served exactly the list it was issued for. */
  lemma {:induction false} AccountedMid(s: State, ok: bool)
    requires Inv(s) == true && FlushRq in s.driver
    ensures s.issued > 0 && Mid(FlushAccounted(s, ok), s.running, s.issueAt, |s.log|, ok) == true
  {
    AccountedCore(s, ok);
    assert Owned(s, FlushRq);
  }

  /** flush_end_io serves everyone it should and leaves a settled queue. */
  lemma {:induction false} EndFlushInv(s: State, ok: bool, now: nat)
    requires Inv(s) == true && FlushRq in s.driver
    ensures s.issued > 0 && Inv(EndFlush(s, ok, now)) == true
    ensures EndFlush(s, ok, now).fq[s.running] == []
  {
    AccountedMid(s, ok);
    var s1 := FlushAccounted(s, ok);
    var r := s.running;
    assert Owned(s, FlushRq);
    PushAllMid(s1, r, s.issueAt, |s.log|, ok, now);
    var t := PushAll(s1, s.fq[r], ok, now);
    WalkedInv(t, r, s.issueAt, |s.log|, ok, PushQueued(s1, s.fq[r], ok, now) || s.delayed);
  }

  // ----- insertion, completion of data, and whole runs

  /** The invariant between steps, save that a flush has not yet been considered. */
  ghost predicate Unsettled(s: State) {
    Core(s) && Flowing(s)
  }

  lemma {:induction false} KickFlowing(s: State, now: nat)
    requires Flowing(s) && forall x :: x in s.fq[s.pending] ==> x in s.wait && s.wait[x] < |s.log|
    ensures Flowing(Kick(s, now)) == true && Considered(Kick(s, now))
  {
  }

  lemma {:induction false} KickInv(s: State, now: nat)
    requires Unsettled(s) == true
    ensures Inv(Kick(s, now)) == true
  {
    KickCore(s, now);
    WaitsInLog(s, s.pending);
    KickFlowing(s, now);
  }

  lemma {:induction false} RunInv(s: State, b: bool)
    requires Inv(s) == true
    ensures Inv(RunQueueIf(s, b)) == true
  {
    RunKeeps(s, b);
  }

  /** The log shows that the data of the request is written. */
  lemma {:induction false} WrittenProgress(s: State, id: Id, m: Mask)
    requires Shape(s) && id in s.mask && Progress(s, id) && CurSeq(s.mask[id]).Data? && m == Union(s.mask[id], Only(Data))
    ensures var t := DataLifted(s, id, true); Progress(t.(mask := t.mask[id := m]), id)
  {
    var t := DataLifted(s, id, true);
    var a := s.birth[id];
    assert BornAt(t.log, a, id) && t.log[a] == s.log[a];
    if s.log[a].policy.pre { CoveredAppend(s.log, DataDone(id, true), a); }
    assert DataDoneAt(t.log, |s.log|, id);
  }

  lemma {:induction false} WrittenComplete(s: State, id: Id)
    requires Shape(s) && id in s.mask && Progress(s, id) && CurSeq(s.mask[id]).Data? && s.mask[id].post
    ensures var l := s.log + [DataDone(id, true)]; BornAt(l, s.birth[id], id) && Complete(l, s.birth[id], id)
  {
    var a, l := s.birth[id], s.log + [DataDone(id, true)];
    assert l[a] == s.log[a];
    if s.log[a].policy.pre { CoveredAppend(s.log, DataDone(id, true), a); }
    assert DataDoneAt(l, |s.log|, id);
  }

  /** What the completion of its DATA entitles a request to. */
  lemma {:induction false} WrittenMayEnter(s: State, id: Id, ok: bool)
    requires Shape(s) && Placed(s) && History(s) && id in s.data && id in s.mask && Progress(s, id)
    ensures MayEnter(DataLifted(s, id, ok), id, Union(s.mask[id], Only(Data)), ok) == true
    ensures var c := CurSeq(Union(s.mask[id], Only(Data))); c.Postflush? || c.Done?
  {
    NotEnded(s, id);
    var l := s.log + [DataDone(id, ok)];
    assert forall e :: e in l <==> e in s.log || e == DataDone(id, ok);
    if ok {
      if s.mask[id].post {
        WrittenComplete(s, id);
      } else {
        WrittenProgress(s, id, Union(s.mask[id], Only(Data)));
      }
    }
  }

  lemma {:induction false} AttachFlowing(s: State, id: Id, m: Mask, ok: bool, since: nat)
    requires Flowing(s)
    ensures Flowing(Attach(s, id, m, ok, since)) == true
  {
  }

  lemma {:induction false} AttachUnsettled(s: State, id: Id, m: Mask, ok: bool, since: nat)
    requires Unsettled(s) == true && Loose(s, id) && MayEnter(s, id, m, ok) == true
    ensures Unsettled(Attach(s, id, m, ok, since)) == true
  {
    AttachCore(s, id, m, ok, since);
    AttachFlowing(s, id, m, ok, since);
  }

  lemma {:induction false} DataLiftedFlowing(s: State, id: Id, ok: bool)
    requires Flowing(s) && id !in s.fq[0] && id !in s.fq[1]
    ensures Flowing(DataLifted(s, id, ok)) == true && DataLifted(s, id, ok).fq == s.fq
  {
    WithoutAbsent(s.fq[0], id);
    WithoutAbsent(s.fq[1], id);
    assert DataLifted(s, id, ok).fq == s.fq;
  }

  lemma {:induction false} NotOnQueues(s: State, id: Id)
    requires Shape(s) && Placed(s) && Dispatched(s) && Rq(id) in s.driver
    ensures id !in s.fq[0] && id !in s.fq[1]
  {
    assert Owned(s, Rq(id));
    assert OnQueues(s, id) <==> id in s.fq[0] || id in s.fq[1];
  }

  lemma {:induction false} DataLiftedUnsettled(s: State, id: Id, ok: bool)
    requires Inv(s) == true && Rq(id) in s.driver
    ensures Unsettled(DataLifted(s, id, ok)) == true && Loose(DataLifted(s, id, ok), id)
    ensures DataLifted(s, id, ok).fq == s.fq
  {
    NotOnQueues(s, id);
    DataLiftedFlowing(s, id, ok);
    DataLiftedCore(s, id, ok);
  }

  lemma {:induction false} EndSequencedInv(s: State, id: Id, ok: bool, now: nat)
    requires Inv(s) == true && Rq(id) in s.driver && id in s.mask
    ensures Inv(EndData(s, id, ok, now)) == true
  {
    DataLiftedUnsettled(s, id, ok);
    assert Owned(s, Rq(id)) && Progress(s, id);
    WrittenMayEnter(s, id, ok);
    var o, m := DataLifted(s, id, ok), Union(s.mask[id], Only(Data));
    var since := if s.fq[s.pending] == [] then now else s.since;
    AttachUnsettled(o, id, m, ok, since);
    KickInv(Attach(o, id, m, ok, since), now);
    var s1 := s.(driver := s.driver - {Rq(id)}, log := s.log + [DataDone(id, ok)], wait := s.wait[id := |s.log|]);
    RunInv(Kick(Attach(o, id, m, ok, since), now), Queued(s1, id, Only(Data), ok, now));
  }

  lemma {:induction false} PlainMayEnter(s: State, id: Id, ok: bool)
    requires Core(s) && Rq(id) in s.driver && id !in s.mask
    ensures MayEnter(DataLifted(s, id, ok), id, Mask(true, true, true), ok) == true
  {
    var o := DataLifted(s, id, ok);
    assert Owned(s, Rq(id));
    if ok {
      assert DataDoneAt(o.log, |s.log|, id);
      assert BornAt(o.log, s.birth[id], id) && o.log[s.birth[id]] == s.log[s.birth[id]];
    }
  }

  lemma {:induction false} EndPlainIs(s: State, id: Id, ok: bool, now: nat)
    requires Shape(s) && Placed(s) && id !in s.mask
    ensures EndData(s, id, ok, now) == Attach(DataLifted(s, id, ok), id, Mask(true, true, true), ok, s.since)
  {
    assert !OnQueues(s, id) && id !in s.data;
    WithoutAbsent(s.fq[0], id);
    WithoutAbsent(s.fq[1], id);
    WithoutAbsent(s.data, id);
    assert s.mask - {id} == s.mask;
    assert DataLifted(s, id, ok).fq == s.fq;
  }

  lemma {:induction false} SettledInv(s: State)
    requires Unsettled(s) == true && Considered(s)
    ensures Inv(s) == true
  {
  }

  /** A request that needs no flush is ended by the completion of its data. */
  lemma {:induction false} EndPlainInv(s: State, id: Id, ok: bool, now: nat)
    requires Inv(s) == true && Rq(id) in s.driver && id !in s.mask
    ensures Inv(EndData(s, id, ok, now)) == true
  {
    DataLiftedUnsettled(s, id, ok);
    PlainMayEnter(s, id, ok);
    AttachUnsettled(DataLifted(s, id, ok), id, Mask(true, true, true), ok, s.since);
    EndPlainIs(s, id, ok, now);
    WithoutAbsent(s.data, id);
    SettledInv(EndData(s, id, ok, now));
  }

  // ----- insertion

  lemma {:induction false} ArrivedHistory(s: State, id: Id, p: Mask)
    requires Shape(s) && Placed(s) && Dispatched(s) && History(s) && Progressing(s) && id !in s.birth && (p.post ==> p.data)
    ensures Dispatched(Arrived(s, id, p)) && History(Arrived(s, id, p))
    ensures Justified(s.log, Inserted(id, p))
    ensures Loose(Arrived(s, id, p), id)
  {
    var t := Arrived(s, id, p);
    assert t.log[|s.log|] == Inserted(id, p);
    assert id !in s.mask by { assert id in s.mask ==> Progress(s, id); }
  }

  lemma {:induction false} ArrivedProgressing(s: State, id: Id, p: Mask)
    requires Shape(s) && Dispatched(s) && Progressing(s) && id !in s.birth
    ensures Progressing(Arrived(s, id, p))
  {
    var t := Arrived(s, id, p);
    forall x | x in t.mask ensures Progress(t, x) {
      assert Progress(s, x);
      ProgressAppend(s, t, x);
    }
  }

  lemma {:induction false} ArrivedDurable(s: State, id: Id, p: Mask)
    requires Shape(s) && Placed(s) && Dispatched(s) && History(s) && Progressing(s) && Durable(s.log)
    requires id !in s.birth && (p.post ==> p.data)
    ensures Durable(Arrived(s, id, p).log)
  {
    ArrivedHistory(s, id, p);
    DurableAppend(s.log, Inserted(id, p));
  }

  lemma {:induction false} ArrivedCore(s: State, id: Id, p: Mask)
    requires Core(s) && id !in s.birth && (p.post ==> p.data)
    ensures Core(Arrived(s, id, p)) && Loose(Arrived(s, id, p), id)
  {
    ArrivedHistory(s, id, p);
    ArrivedProgressing(s, id, p);
    ArrivedDurable(s, id, p);
  }

  lemma {:induction false} ArrivedFlowing(s: State, id: Id, p: Mask)
    requires Flowing(s) && id !in s.fq[s.running]
    ensures Flowing(Arrived(s, id, p)) == true
  {
  }

  lemma {:induction false} ArrivedUnsettled(s: State, id: Id, p: Mask)
    requires Inv(s) == true && id !in s.birth && (p.post ==> p.data)
    ensures Unsettled(Arrived(s, id, p)) == true && Loose(Arrived(s, id, p), id)
  {
    ArrivedCore(s, id, p);
    forall x | x in s.fq[s.running] ensures x in s.birth {
      assert OnQueues(s, x) && Progress(s, x);
    }
    ArrivedFlowing(s, id, p);
  }

  lemma {:induction false} ArrivedMayEnter(s: State, id: Id, p: Mask)
    requires Core(s) && id !in s.birth && (p.post ==> p.data) && !(p.data && !p.pre && !p.post)
    ensures MayEnter(Arrived(s, id, p), id, Complement(p), true) == true
  {
    ArrivedUnseen(s, id, p);
    UnseenMayEnter(Arrived(s, id, p), id, p);
  }

  /** Nothing but its arrival has happened to `id`. */
  ghost predicate Unseen(h: seq<Event>, id: Id) {
    && DataQueued(id) !in h && DataDone(id, true) !in h && DataDone(id, false) !in h
    && Ended(id, true) !in h && Ended(id, false) !in h
  }

  lemma {:induction false} ArrivedUnseen(s: State, id: Id, p: Mask)
    requires Core(s) && id !in s.birth
    ensures Unseen(Arrived(s, id, p).log, id)
  {
    assert forall e :: e in Arrived(s, id, p).log ==> e in s.log || e == Inserted(id, p);
  }

  lemma {:induction false} UnseenMayEnter(t: State, id: Id, p: Mask)
    requires Shape(t) && id in t.birth && id in t.wait && |t.log| > 0 && Unseen(t.log, id)
    requires t.birth[id] == t.wait[id] == |t.log| - 1 && t.log[|t.log| - 1] == Inserted(id, p)
    requires (p.post ==> p.data) && !(p.data && !p.pre && !p.post)
    ensures MayEnter(t, id, Complement(p), true) == true
  {
    assert BornAt(t.log, |t.log| - 1, id) && t.log[|t.log| - 1].policy == p;
  }

  lemma {:induction false} LiftFresh(s: State, id: Id)
    requires Shape(s) && Placed(s) && id !in s.mask
    ensures Lift(s.(mask := s.mask[id := Mask(false, false, false)]), id) == s
  {
    assert !OnQueues(s, id) && id !in s.data;
    WithoutAbsent(s.fq[0], id);
    WithoutAbsent(s.fq[1], id);
    WithoutAbsent(s.data, id);
    assert s.mask[id := Mask(false, false, false)] - {id} == s.mask;
  }

  lemma {:induction false} InsertSequencedInv(s: State, id: Id, p: Mask, now: nat)
    requires Inv(s) == true && id !in s.birth && (p.post ==> p.data) && !(p.data && !p.pre && !p.post)
    ensures Inv(CompleteSeq(Arrived(s, id, p).(mask := s.mask[id := Mask(false, false, false)]), id, Complement(p), true, now)) == true
  {
    ArrivedUnsettled(s, id, p);
    ArrivedMayEnter(s, id, p);
    var t := Arrived(s, id, p);
    var s1 := t.(mask := s.mask[id := Mask(false, false, false)]);
    var since := if s.fq[s.pending] == [] then now else s.since;
    LiftFresh(t, id);
    AttachUnsettled(t, id, Complement(p), true, since);
    KickInv(Attach(t, id, Complement(p), true, since), now);
  }

  lemma {:induction false} InsertPlainCore(s: State, id: Id)
    requires Core(s) == true && Loose(s, id) && s.log[s.birth[id]].policy == Mask(false, true, false)
    requires forall e :: e in s.log ==> e != Ended(id, true) && e != Ended(id, false)
                                        && e != DataDone(id, true) && e != DataDone(id, false)
    ensures Core(s.(head := s.head + [Rq(id)])) == true
  {
    var t := s.(head := s.head + [Rq(id)]);
    forall k | 0 <= k < |t.log| ensures Consistent(t, t.log[k]) {
      assert s.log[k] in s.log;
    }
    forall x | x in t.mask ensures Progress(t, x) {
      ProgressAppend(s, t, x);
    }
  }

  lemma {:induction false} NothingLogged(s: State, id: Id)
    requires History(s) && id !in s.birth
    ensures forall e :: e in s.log ==> e != Ended(id, true) && e != Ended(id, false)
                                        && e != DataDone(id, true) && e != DataDone(id, false)
  {
    forall k | 0 <= k < |s.log| ensures !((s.log[k].Ended? || s.log[k].DataDone?) && s.log[k].id == id) {
      assert Consistent(s, s.log[k]);
    }
  }

  lemma {:induction false} PlainFlowing(s: State, id: Id)
    requires Flowing(s)
    ensures Flowing(s.(head := s.head + [Rq(id)])) == true
  {
  }

  lemma {:induction false} InsertPlainInv(s: State, id: Id)
    requires Inv(s) == true && id !in s.birth
    ensures var t := Arrived(s, id, Mask(false, true, false)); Inv(t.(head := t.head + [Rq(id)])) == true
  {
    var p := Mask(false, true, false);
    ArrivedUnsettled(s, id, p);
    var t := Arrived(s, id, p);
    NothingLogged(s, id);
    InsertPlainCore(t, id);
    PlainFlowing(t, id);
  }

  lemma {:induction false} InsertInv(s: State, id: Id, dev: Flags, rq: Flags, hasData: bool, now: nat)
    requires Inv(s) == true && id !in s.birth && (rq.fua ==> hasData)
    ensures Inv(Insert(s, id, dev, rq, hasData, now)) == true
  {
    var p := Policy(dev, rq, hasData);
    if p.data && !p.pre && !p.post {
      assert p == Mask(false, true, false);
      InsertPlainInv(s, id);
    } else {
      InsertSequencedInv(s, id, p, now);
    }
  }

  lemma {:induction false} FetchInv(s: State)
    requires Inv(s) == true && s.head != []
    ensures Inv(Fetch(s)) == true
  {
    var t := Fetch(s);
    assert forall it :: Owned(t, it) <==> Owned(s, it);
    forall x | x in t.mask ensures Progress(t, x) {
      ProgressAppend(s, t, x);
    }
  }

  lemma {:induction false} HoldInv(s: State)
    requires Inv(s) == true && s.pending != s.running
    ensures Inv(Hold(s)) == true
  {
    var t := Hold(s);
    forall x | x in t.mask ensures Progress(t, x) {
      ProgressAppend(s, t, x);
    }
  }

  lemma {:induction false} NextInv(s: State, t: Timed)
    requires Inv(s) == true && Enabled(s, t.act)
    ensures Inv(Next(s, t)) == true
  {
    match t.act
    case InsertRq(id, dev, rq, hasData) => InsertInv(s, id, dev, rq, hasData, t.now);
    case FetchRq => FetchInv(s);
    case HoldQueue => HoldInv(s);
    case DataEnd(id, ok) =>
      if id in s.mask { EndSequencedInv(s, id, ok, t.now); } else { EndPlainInv(s, id, ok, t.now); }
    case FlushEnd(ok) => EndFlushInv(s, ok, t.now);
  }

  /** Safety over whole runs: the invariant holds in every reachable state. */
  lemma {:induction false} ReachableInv(run: seq<Timed>, s: State)
    requires Reaches(run, s)
    ensures Inv(s) == true
  {
    if run != [] {
      var b :| Reaches(run[..|run| - 1], b) && Shape(b) && Enabled(b, run[|run| - 1].act)
               && s == Next(b, run[|run| - 1]);
      ReachableInv(run[..|run| - 1], b);
      NextInv(b, run[|run| - 1]);
    }
  }

  // ----- what the invariant gives a client

  lemma {:induction false} DurableAt(log: seq<Event>, k: nat)
    requires Durable(log) && k < |log|
    ensures Justified(log[..k], log[k])
  {
    if k < |log| - 1 {
      DurableAt(log[..|log| - 1], k);
      assert log[..|log| - 1][..k] == log[..k];
    }
  }

  /** Durability over every run: DATA is queued only behind a preflush issued
      after insertion, a request ends well only once everything its policy asks
      for has happened, each request ends at most once, and flushes are issued
      one at a time. */
  lemma {:induction false} Durability(run: seq<Timed>, s: State, k: nat)
    requires Reaches(run, s) && k < |s.log|
    ensures Justified(s.log[..k], s.log[k])
  {
    ReachableInv(run, s);
    DurableAt(s.log, k);
  }

  lemma {:induction false} InFlight(s: State, x: Id)
    requires Shape(s) && Placed(s) && Dispatched(s) && Flowing(s) && Considered(s) && x in s.mask
    ensures Owned(s, FlushRq) || (s.data != [] && Owned(s, Rq(s.data[0])))
    ensures Owned(s, FlushRq) <==> s.pending != s.running
    ensures s.delayed ==> Owned(s, FlushRq)
  {
    if s.pending == s.running {
      assert OnQueues(s, x) || x in s.data;
      assert s.data != [] && s.data[0] in s.data;
    }
  }

  lemma {:induction false} InFlightInv(s: State, x: Id)
    requires Inv(s) == true && x in s.mask
    ensures Owned(s, FlushRq) || (s.data != [] && Owned(s, Rq(s.data[0])))
    ensures Owned(s, FlushRq) <==> s.pending != s.running
    ensures s.delayed ==> Owned(s, FlushRq)
  {
    InFlight(s, x);
  }

  /** No request is stuck: while one is sequenced, data or a flush is in flight;
      flush_rq is out exactly while the indices differ, and a held queue always
      has the flush that will restart it. */
  lemma {:induction false} NoStall(run: seq<Timed>, s: State, x: Id)
    requires Reaches(run, s) && x in s.mask
    ensures Owned(s, FlushRq) || (s.data != [] && Owned(s, Rq(s.data[0])))
    ensures Owned(s, FlushRq) <==> s.pending != s.running
    ensures s.delayed ==> Owned(s, FlushRq)
  {
    ReachableInv(run, s);
    InFlightInv(s, x);
  }

  // ----- no request is lost

  ghost predicate HasEnded(log: seq<Event>, x: Id) {
    Ended(x, true) in log || Ended(x, false) in log
  }

  /** The request is in sequence, with the dispatch list or the driver, or over. */
  ghost predicate Kept(s: State, x: Id) {
    x in s.mask || Owned(s, Rq(x)) || HasEnded(s.log, x)
  }

  lemma {:induction false} KickKeeps(s: State, now: nat, x: Id)
    requires Shape(s) && Kept(s, x)
    ensures Kept(Kick(s, now), x)
  {
  }

  lemma {:induction false} AdvanceKeeps(s: State, id: Id, m: Mask, ok: bool, now: nat, x: Id)
    requires Shape(s) && (x == id || Kept(s, x))
    ensures Kept(Advance(s, id, m, ok, now), x)
  {
    var u := Lift(s, id);
    var t := Advance(s, id, m, ok, now);
    assert x != id ==> Kept(u, x);
    assert |u.log| < |t.log| ==> t.log == u.log + [t.log[|u.log|]] && t.log[|u.log|] in t.log;
    assert forall e :: e in u.log ==> e in t.log;
  }

  lemma {:induction false} CompleteSeqKeeps(s: State, id: Id, done: Mask, ok: bool, now: nat, x: Id)
    requires Shape(s) && id in s.mask && Kept(s, x)
    ensures Kept(CompleteSeq(s, id, done, ok, now), x)
  {
    AdvanceKeeps(s, id, Union(s.mask[id], done), ok, now, x);
    KickKeeps(Advance(s, id, Union(s.mask[id], done), ok, now), now, x);
  }

  lemma {:induction false} PushAllKeeps(s: State, todo: seq<Id>, ok: bool, now: nat, x: Id)
    requires Shape(s) && Kept(s, x)
    ensures Kept(PushAll(s, todo, ok, now), x)
    decreases |todo|
  {
    if todo != [] && todo[0] in s.mask {
      var done := Only(CurSeq(s.mask[todo[0]]));
      CompleteSeqKeeps(s, todo[0], done, ok, now, x);
      PushAllKeeps(CompleteSeq(s, todo[0], done, ok, now), todo[1..], ok, now, x);
    }
  }

  lemma {:induction false} RunQueueKeeps(s: State, b: bool, x: Id)
    requires Kept(s, x)
    ensures Kept(RunQueueIf(s, b), x)
  {
  }

  lemma {:induction false} EndFlushKeeps(s: State, ok: bool, now: nat, x: Id)
    requires Shape(s) && s.issued > 0 && Kept(s, x)
    ensures Kept(EndFlush(s, ok, now), x)
  {
    var s1, todo := FlushAccounted(s, ok), s.fq[s.running];
    PushAllKeeps(s1, todo, ok, now, x);
    var t := PushAll(s1, todo, ok, now);
    assert Kept(t.(delayed := false), x);
    RunQueueKeeps(t.(delayed := false), PushQueued(s1, todo, ok, now) || s.delayed, x);
  }

  lemma {:induction false} EndDataKeeps(s: State, id: Id, ok: bool, now: nat, x: Id)
    requires Shape(s) && Kept(s, x)
    ensures Kept(EndData(s, id, ok, now), x)
  {
    var s1 := s.(driver := s.driver - {Rq(id)}, log := s.log + [DataDone(id, ok)], wait := s.wait[id := |s.log|]);
    if id in s.mask {
      assert Kept(s1, x);
      CompleteSeqKeeps(s1, id, Only(Data), ok, now, x);
      RunQueueKeeps(CompleteSeq(s1, id, Only(Data), ok, now), Queued(s1, id, Only(Data), ok, now), x);
    } else if x == id {
      assert EndData(s, id, ok, now).log[|s.log| + 1] == Ended(id, ok);
    }
  }

  lemma {:induction false} InsertKeeps(s: State, id: Id, dev: Flags, rq: Flags, hasData: bool, now: nat, x: Id)
    requires Shape(s) && (x == id || Kept(s, x))
    ensures Kept(Insert(s, id, dev, rq, hasData, now), x)
  {
    var p := Policy(dev, rq, hasData);
    if p.data && !p.pre && !p.post {
      assert x == id ==> Rq(id) in s.head + [Rq(id)];
    } else {
      var s1 := Arrived(s, id, p).(mask := s.mask[id := Mask(false, false, false)]);
      assert Kept(s1, x);
      CompleteSeqKeeps(s1, id, Complement(p), true, now, x);
    }
  }

  lemma {:induction false} NextKeeps(s: State, t: Timed, x: Id)
    requires Shape(s) && Enabled(s, t.act) && Kept(s, x)
    ensures Kept(Next(s, t), x)
  {
    match t.act
    case InsertRq(id, dev, rq, hasData) => InsertKeeps(s, id, dev, rq, hasData, t.now, x);
    case FetchRq => assert Owned(s, Rq(x)) ==> Owned(Fetch(s), Rq(x));
    case HoldQueue =>
    case DataEnd(id, ok) => EndDataKeeps(s, id, ok, t.now, x);
    case FlushEnd(ok) => EndFlushKeeps(s, ok, t.now, x);
  }

  lemma {:induction false} CompleteSeqBirth(s: State, id: Id, done: Mask, ok: bool, now: nat)
    requires Shape(s) && id in s.mask
    ensures CompleteSeq(s, id, done, ok, now).birth == s.birth
  {
  }

  lemma {:induction false} PushAllBirth(s: State, todo: seq<Id>, ok: bool, now: nat)
    requires Shape(s)
    ensures PushAll(s, todo, ok, now).birth == s.birth
    decreases |todo|
  {
    if todo != [] && todo[0] in s.mask {
      CompleteSeqBirth(s, todo[0], Only(CurSeq(s.mask[todo[0]])), ok, now);
      PushAllBirth(CompleteSeq(s, todo[0], Only(CurSeq(s.mask[todo[0]])), ok, now), todo[1..], ok, now);
    }
  }

  lemma {:induction false} EndDataBirth(s: State, id: Id, ok: bool, now: nat)
    requires Shape(s)
    ensures EndData(s, id, ok, now).birth == s.birth
  {
    if id in s.mask {
      var s1 := s.(driver := s.driver - {Rq(id)}, log := s.log + [DataDone(id, ok)], wait := s.wait[id := |s.log|]);
      CompleteSeqBirth(s1, id, Only(Data), ok, now);
    }
  }

  lemma {:induction false} InsertBirth(s: State, id: Id, dev: Flags, rq: Flags, hasData: bool, now: nat)
    requires Shape(s)
    ensures Insert(s, id, dev, rq, hasData, now).birth == s.birth[id := |s.log|]
  {
  }

  lemma {:induction false} NextBirth(s: State, t: Timed)
    requires Shape(s) && Enabled(s, t.act)
    ensures Next(s, t).birth == if t.act.InsertRq? then s.birth[t.act.id := |s.log|] else s.birth
  {
    match t.act
    case InsertRq(id, dev, rq, hasData) => InsertBirth(s, id, dev, rq, hasData, t.now);
    case FetchRq =>
    case HoldQueue =>
    case DataEnd(id, ok) => EndDataBirth(s, id, ok, t.now);
    case FlushEnd(ok) => PushAllBirth(FlushAccounted(s, ok), s.fq[s.running], ok, t.now);
  }

  /** In every reachable state, every request ever inserted is accounted for. */
  lemma {:induction false} NoneLost(run: seq<Timed>, s: State, x: Id)
    requires Reaches(run, s) && x in s.birth
    ensures Kept(s, x)
  {
    if run != [] {
      var t := run[|run| - 1];
      var b :| Reaches(run[..|run| - 1], b) && Shape(b) && Enabled(b, t.act) && s == Next(b, t);
      NextBirth(b, t);
      if x in b.birth {
        NoneLost(run[..|run| - 1], b, x);
        NextKeeps(b, t, x);
      } else {
        InsertKeeps(b, x, t.act.dev, t.act.rq, t.act.hasData, t.now, x);
      }
    }
  }

  ghost predicate EndsAt(log: seq<Event>, k: nat, x: Id) {
    k < |log| && log[k].Ended? && log[k].id == x
  }

  lemma {:induction false} FirstEnd(log: seq<Event>, k: nat, x: Id)
    requires Durable(log) && EndsAt(log, k, x)
    ensures forall j: nat :: j < k ==> !EndsAt(log, j, x)
  {
    DurableAt(log, k);
    forall j: nat | j < k ensures !EndsAt(log, j, x) {
      assert log[..k][j] == log[j];
    }
  }

  lemma {:induction false} UniqueEnd(log: seq<Event>, x: Id) returns (k: nat)
    requires Durable(log) && HasEnded(log, x)
    ensures EndsAt(log, k, x) && forall j :: EndsAt(log, j, x) ==> j == k
  {
    var ok := Ended(x, true) in log;
    var i :| 0 <= i < |log| && log[i] == Ended(x, ok);
    k := i;
    assert EndsAt(log, k, x) == true;
    FirstEnd(log, k, x);
    forall j | EndsAt(log, j, x) ensures j == k {
      FirstEnd(log, j, x);
    }
  }

  lemma {:induction false} SomethingOut(s: State, x: Id)
    requires Inv(s) == true && x in s.mask
    ensures s.head != [] || s.driver != {}
  {
    InFlightInv(s, x);
  }

  lemma {:induction false} QuietEnded(s: State, x: Id)
    requires Inv(s) == true && Kept(s, x) && s.head == [] && s.driver == {}
    ensures HasEnded(s.log, x) && Durable(s.log)
  {
    if x in s.mask { SomethingOut(s, x); }
  }

  /** Once the dispatch list is empty and the driver has nothing left, every request
      that was ever inserted has been ended, exactly once. */
  lemma {:induction false} EveryRequestEnds(run: seq<Timed>, s: State, x: Id) returns (k: nat)
    requires Reaches(run, s) && x in s.birth && s.head == [] && s.driver == {}
    ensures EndsAt(s.log, k, x) && forall j :: EndsAt(s.log, j, x) ==> j == k
  {
    ReachableInv(run, s);
    NoneLost(run, s, x);
    QuietEnded(s, x);
    k := UniqueEnd(s.log, x);
  }

  // ----- a held queue

  ghost predicate Leads(s: State, more: seq<Timed>, t: State)
    decreases |more|
  {
    if more == [] then t == s
    else Shape(s) && Enabled(s, more[0].act) && Leads(Next(s, more[0]), more[1..], t)
  }

  ghost predicate Extended(a: seq<Event>, b: seq<Event>) {
    |a| <= |b| && b[..|a|] == a
  }

  lemma {:induction false} CompleteSeqLog(s: State, id: Id, done: Mask, ok: bool, now: nat)
    requires Shape(s) && id in s.mask
    ensures Extended(s.log, CompleteSeq(s, id, done, ok, now).log)
  {
  }

  lemma {:induction false} PushAllLog(s: State, todo: seq<Id>, ok: bool, now: nat)
    requires Shape(s)
    ensures Extended(s.log, PushAll(s, todo, ok, now).log)
    decreases |todo|
  {
    if todo != [] && todo[0] in s.mask {
      var done := Only(CurSeq(s.mask[todo[0]]));
      CompleteSeqLog(s, todo[0], done, ok, now);
      PushAllLog(CompleteSeq(s, todo[0], done, ok, now), todo[1..], ok, now);
    }
  }

  lemma {:induction false} InsertLog(s: State, id: Id, dev: Flags, rq: Flags, hasData: bool, now: nat)
    requires Shape(s)
    ensures Extended(s.log, Insert(s, id, dev, rq, hasData, now).log)
    ensures Insert(s, id, dev, rq, hasData, now).delayed == s.delayed
  {
    var p := Policy(dev, rq, hasData);
    if !(p.data && !p.pre && !p.post) {
      CompleteSeqLog(Arrived(s, id, p).(mask := s.mask[id := Mask(false, false, false)]), id, Complement(p), true, now);
    }
  }

  lemma {:induction false} EndDataLog(s: State, id: Id, ok: bool, now: nat)
    requires Shape(s)
    ensures Extended(s.log, EndData(s, id, ok, now).log) && EndData(s, id, ok, now).delayed == s.delayed
  {
    if id in s.mask {
      var s1 := s.(driver := s.driver - {Rq(id)}, log := s.log + [DataDone(id, ok)], wait := s.wait[id := |s.log|]);
      CompleteSeqLog(s1, id, Only(Data), ok, now);
    }
  }

  lemma {:induction false} EndFlushLog(s: State, ok: bool, now: nat)
    requires Shape(s) && s.issued > 0
    ensures Extended(s.log, EndFlush(s, ok, now).log)
    ensures s.delayed ==> var l := EndFlush(s, ok, now).log; |l| > |s.log| && l[|l| - 1] == QueueRun
  {
    PushAllLog(FlushAccounted(s, ok), s.fq[s.running], ok, now);
  }

  lemma {:induction false} NextLog(s: State, t: Timed)
    requires Shape(s) && Enabled(s, t.act)
    ensures Extended(s.log, Next(s, t).log)
    ensures !t.act.FlushEnd? && s.delayed ==> Next(s, t).delayed
  {
    match t.act
    case InsertRq(id, dev, rq, hasData) => InsertLog(s, id, dev, rq, hasData, t.now);
    case FetchRq =>
    case HoldQueue =>
    case DataEnd(id, ok) => EndDataLog(s, id, ok, t.now);
    case FlushEnd(ok) => EndFlushLog(s, ok, t.now);
  }

  lemma {:induction false} LeadsLog(s: State, more: seq<Timed>, t: State)
    requires Leads(s, more, t)
    ensures Extended(s.log, t.log)
    decreases |more|
  {
    if more != [] {
      NextLog(s, more[0]);
      LeadsLog(Next(s, more[0]), more[1..], t);
      assert t.log[..|s.log|] == t.log[..|Next(s, more[0]).log|][..|s.log|];
    }
  }

  /** A queue held back during a flush stays held until a flush ends, and is then run
      again, whatever else happens meanwhile. */
  lemma {:induction false} HeldQueueRestarted(s: State, more: seq<Timed>, t: State)
    requires Leads(s, more, t) && s.delayed
    ensures if forall i :: 0 <= i < |more| ==> !more[i].act.FlushEnd? then t.delayed
            else exists k :: |s.log| <= k < |t.log| && t.log[k] == QueueRun
    decreases |more|
  {
    if more != [] {
      var n := Next(s, more[0]);
      NextLog(s, more[0]);
      LeadsLog(n, more[1..], t);
      if more[0].act.FlushEnd? {
        EndFlushLog(s, more[0].act.ok, more[0].now);
        assert t.log[|n.log| - 1] == t.log[..|n.log|][|n.log| - 1] == QueueRun;
      } else {
        HeldQueueRestarted(n, more[1..], t);
        assert (forall i :: 0 <= i < |more| ==> !more[i].act.FlushEnd?)
          <==> (forall i :: 0 <= i < |more[1..]| ==> !more[1..][i].act.FlushEnd?) by {
          assert forall i :: 0 < i < |more| ==> more[i] == more[1..][i - 1];
        }
      }
    }
  }

  /** A request is ended at once, its data never queued, exactly when the queue
      it is inserted on has no write-back cache; a caller must therefore strip
      FLUSH and FUA from data requests for such a queue beforehand. */
  lemma {:induction false} EndedUnwritten(s: State, id: Id, dev: Flags, rq: Flags, hasData: bool, now: nat)
    requires Inv(s) == true && id !in s.birth && (rq.fua ==> hasData) && (rq.flush || rq.fua)
    ensures Ended(id, true) in Insert(s, id, dev, rq, hasData, now).log <==> !dev.flush
    ensures !dev.flush ==> DataQueued(id) !in Insert(s, id, dev, rq, hasData, now).log
                           && !Owned(Insert(s, id, dev, rq, hasData, now), Rq(id))
  {
    NeverSeen(s, id);
    if dev.flush {
      CacheKeeps(s, id, dev, rq, hasData, now);
    } else {
      NoCacheEnds(s, id, dev, rq, hasData, now);
    }
  }

  lemma {:induction false} CacheKeeps(s: State, id: Id, dev: Flags, rq: Flags, hasData: bool, now: nat)
    requires Shape(s) && dev.flush && (rq.fua ==> hasData) && (rq.flush || rq.fua) && Ended(id, true) !in s.log
    ensures Ended(id, true) !in Insert(s, id, dev, rq, hasData, now).log
  {
  }

  lemma {:induction false} NoCacheEnds(s: State, id: Id, dev: Flags, rq: Flags, hasData: bool, now: nat)
    requires Inv(s) == true && id !in s.birth && !dev.flush
    ensures Ended(id, true) in Insert(s, id, dev, rq, hasData, now).log
    ensures DataQueued(id) !in Insert(s, id, dev, rq, hasData, now).log
    ensures !Owned(Insert(s, id, dev, rq, hasData, now), Rq(id))
  {
    var t := Insert(s, id, dev, rq, hasData, now);
    NeverSeen(s, id);
    InsertEnds(s, id, Mask(false, false, false), now);
    assert t.log[|s.log| + 1] == t.log[..|s.log| + 2][|s.log| + 1] == Ended(id, true);
    forall k | 0 <= k < |t.log| ensures t.log[k] != DataQueued(id) {
      if k < |s.log| + 2 { assert t.log[k] == t.log[..|s.log| + 2][k]; }
      if k < |s.log| { assert t.log[k] == s.log[k]; }
    }
  }

  lemma {:induction false} NeverSeen(s: State, id: Id)
    requires Inv(s) == true && id !in s.birth
    ensures Ended(id, true) !in s.log && DataQueued(id) !in s.log && !Owned(s, Rq(id))
  {
    forall k | 0 <= k < |s.log| ensures s.log[k] != Ended(id, true) && s.log[k] != DataQueued(id) {
      assert Consistent(s, s.log[k]);
    }
  }

  /** A request with no step to take is ended where it is inserted. */
  lemma {:induction false} InsertEnds(s: State, id: Id, p: Mask, now: nat)
    requires Inv(s) == true && id !in s.birth && p == Mask(false, false, false)
    ensures var t := CompleteSeq(Arrived(s, id, p).(mask := s.mask[id := p]), id, Complement(p), true, now);
            && |t.log| >= |s.log| + 2 && t.log[..|s.log| + 2] == s.log + [Inserted(id, p), Ended(id, true)]
            && (forall k :: |s.log| + 2 <= k < |t.log| ==> t.log[k].FlushIssued?)
            && (forall it :: Owned(t, it) ==> Owned(s, it) || it == FlushRq)
  {
  }

  /** A data request for an idle queue without a cache: ended, and never written. */
  lemma {:induction false} EndedUnwrittenInstance()
    ensures Insert(Initial, 0, Flags(false, false), Flags(true, false), true, 0).log
         == [Inserted(0, Mask(false, false, false)), Ended(0, true)]
  {
    var p := Mask(false, false, false);
    var s := Arrived(Initial, 0, p).(mask := map[0 := p]);
    assert Without<Id>([], 0) == [];
    assert Lift(s, 0).fq == [[], []];
  }

  /** elv_abort_queue's first step, blk_abort_flushes: every sequenced request
      becomes an ordinary one; those waiting for a flush join the dispatch list. */
  function AllRq(list: seq<Id>): seq<Item> {
    if list == [] then [] else [Rq(list[0])] + AllRq(list[1..])
  }

  function Abort(s: State): State
    requires Shape(s)
  {
    s.(fq := [[], []], data := [], mask := map[], head := s.head + AllRq(s.fq[0]) + AllRq(s.fq[1]))
  }

  lemma {:induction false} AllRqMember(list: seq<Id>, x: Id)
    ensures Rq(x) in AllRq(list) <==> x in list
    ensures FlushRq !in AllRq(list)
  {
    if list != [] { AllRqMember(list[1..], x); }
  }

  lemma {:induction false} AllRqDistinct(list: seq<Id>)
    requires Distinct(list)
    ensures Distinct(AllRq(list))
  {
    if list != [] {
      AllRqDistinct(list[1..]);
      AllRqMember(list[1..], list[0]);
      DistinctConcat([Rq(list[0])], AllRq(list[1..]));
    }
  }

  /** Abortion loses no request and duplicates none. */
  lemma {:induction false} AbortConserves(s: State)
    requires Shape(s) && Placed(s) && Dispatched(s)
    ensures forall x :: x in s.mask ==> Owned(Abort(s), Rq(x))
    ensures forall it :: Owned(s, it) ==> Owned(Abort(s), it)
    ensures Distinct(Abort(s).head) && forall it :: it in Abort(s).head ==> it !in s.driver
  {
    var a, b := AllRq(s.fq[0]), AllRq(s.fq[1]);
    assert Abort(s).head == s.head + a + b;
    forall x ensures Rq(x) in a <==> x in s.fq[0] { AllRqMember(s.fq[0], x); }
    forall x ensures Rq(x) in b <==> x in s.fq[1] { AllRqMember(s.fq[1], x); }
    AllRqMember(s.fq[0], 0);
    AllRqMember(s.fq[1], 0);
    AllRqDistinct(s.fq[0]);
    AllRqDistinct(s.fq[1]);
    forall it | it in a ensures it !in s.head && it !in s.driver && it !in b {
      assert it.id in s.fq[0] && OnQueues(s, it.id) && !Owned(s, it);
    }
    forall it | it in b ensures it !in s.head && it !in s.driver {
      assert it.id in s.fq[1] && OnQueues(s, it.id) && !Owned(s, it);
    }
    DistinctConcat(s.head, a);
    DistinctConcat(s.head + a, b);
  }

  // ----- what the update in place relies on

  /** The BUG_ONs of blk_flush_complete_seq do not fire. */
  ghost predicate MayComplete(s: State, id: Id, done: Mask) {
    && id in s.mask
    && !(s.mask[id].pre && done.pre) && !(s.mask[id].data && done.data) && !(s.mask[id].post && done.post)
    && Rq(id) !in s.head
  }

  /** Walking the live list `fq[r]` by its first entry visits what was on it. */
  ghost predicate Walkable(s: State, r: nat, ok: bool, now: nat)
    requires Shape(s) && r < 2
    decreases |s.fq[r]|
  {
    s.fq[r] != [] ==>
      var x := s.fq[r][0];
      && x in s.mask && MayComplete(s, x, Only(CurSeq(s.mask[x])))
      && var t := CompleteSeq(s, x, Only(CurSeq(s.mask[x])), ok, now);
         t.fq[r] == s.fq[r][1..] && Walkable(t, r, ok, now)
  }

  lemma {:induction false} ServedMayComplete(s: State, x: Id)
    requires Shape(s) && Placed(s) && Dispatched(s) && OnQueues(s, x)
    ensures x in s.mask && MayComplete(s, x, Only(CurSeq(s.mask[x])))
  {
    assert !Owned(s, Rq(x));
  }

  lemma {:induction false} WalkStep(s: State, r: nat, ok: bool, now: nat)
    requires Shape(s) && r < 2 && Walkable(s, r, ok, now) && s.fq[r] != []
    ensures var x := s.fq[r][0];
            var t := CompleteSeq(s, x, Only(CurSeq(s.mask[x])), ok, now);
            && Shape(t) && t.fq[r] == s.fq[r][1..] && Walkable(t, r, ok, now)
            && PushAll(s, s.fq[r], ok, now) == PushAll(t, t.fq[r], ok, now)
            && PushQueued(s, s.fq[r], ok, now)
               == (Queued(s, x, Only(CurSeq(s.mask[x])), ok, now) || PushQueued(t, t.fq[r], ok, now))
  {
  }

  lemma {:induction false} WalkOne(s: State, r: nat, i: nat, j: nat, ok: bool, now: nat)
    requires Mid(s, r, i, j, ok) == true && s.fq[r] != []
    ensures var x := s.fq[r][0];
            && x in s.mask && MayComplete(s, x, Only(CurSeq(s.mask[x])))
            && var t := CompleteSeq(s, x, Only(CurSeq(s.mask[x])), ok, now);
               t.fq[r] == s.fq[r][1..] && Mid(t, r, i, j, ok) == true
  {
    ServedMayComplete(s, s.fq[r][0]);
    PushOne(s, r, i, j, ok, s.fq[r][0], now);
  }

  lemma {:induction false} MidWalkable(s: State, r: nat, i: nat, j: nat, ok: bool, now: nat)
    requires Mid(s, r, i, j, ok) == true
    ensures Walkable(s, r, ok, now)
    decreases |s.fq[r]|
  {
    if s.fq[r] != [] {
      WalkOne(s, r, i, j, ok, now);
      MidWalkable(CompleteSeq(s, s.fq[r][0], Only(CurSeq(s.mask[s.fq[r][0]])), ok, now), r, i, j, ok, now);
    }
  }

  lemma {:induction false} EndFlushWalkable(s: State, ok: bool, now: nat)
    requires Inv(s) == true && FlushRq in s.driver
    ensures s.issued > 0 && Walkable(FlushAccounted(s, ok), s.running, ok, now)
  {
    AccountedMid(s, ok);
    MidWalkable(FlushAccounted(s, ok), s.running, s.issueAt, |s.log|, ok, now);
  }

  lemma {:induction false} EndDataReady(s: State, id: Id)
    requires Inv(s) == true && Rq(id) in s.driver
    ensures Rq(id) !in s.head && (id in s.mask ==> MayComplete(s, id, Only(Data)))
  {
    assert Owned(s, Rq(id));
  }

  lemma {:induction false} InsertReady(s: State, id: Id)
    requires Inv(s) == true && id !in s.birth
    ensures Rq(id) !in s.head
  {
    assert Owned(s, Rq(id)) ==> id in s.birth;
  }
}
