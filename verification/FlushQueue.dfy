/** The flush fields of a request queue and the functions that update them in
    place.  Each method is proved to do what the step of module Flush says. */
module FlushQueue {
  import opened Lists
  import opened Flush

  class FlushQueue {
    var flushQueue: seq<seq<Id>>
    var pendingIdx: nat
    var runningIdx: nat
    var dataInFlight: seq<Id>
    var queueHead: seq<Item>
    var mask: map<Id, Mask>
    var pendingSince: nat
    var delayed: bool
    ghost var driver: set<Item>
    ghost var issued: nat
    ghost var issueAt: nat
    ghost var birth: map<Id, nat>
    ghost var wait: map<Id, nat>
    ghost var log: seq<Event>

    ghost function Value(): State
      reads this
    {
      State(flushQueue, pendingIdx, runningIdx, dataInFlight, queueHead, driver, mask, pendingSince, delayed,
            issued, issueAt, birth, wait, log)
    }

    constructor ()
      ensures Value() == Initial && Inv(Value()) == true
    {
      flushQueue, pendingIdx, runningIdx, dataInFlight, queueHead := [[], []], 0, 0, [], [];
      mask, pendingSince, delayed := map[], 0, false;
      driver, issued, issueAt, birth, wait, log := {}, 0, 0, map[], map[], [];
    }

    /** blk_kick_flush. */
    method KickFlush(now: nat) returns (kicked: bool)
      requires Shape(Value())
      modifies this
      ensures Value() == Kick(old(Value()), now)
      ensures kicked == MayKick(old(Value()), now)
    {
      if pendingIdx != runningIdx || flushQueue[pendingIdx] == [] {
        return false;
      }
      if dataInFlight != [] && now < pendingSince + FLUSH_PENDING_TIMEOUT {
        return false;
      }
      pendingIdx := 1 - pendingIdx;
      queueHead := queueHead + [FlushRq];
      issueAt, log, issued := |log|, log + [FlushIssued(issued)], issued + 1;
      return true;
    }

    /** The request leaves its list: list_move_tail and list_del_init both begin by
        unlinking it. */
    method Unlink(id: Id)
      requires Shape(Value())
      modifies this`flushQueue, this`dataInFlight, this`mask
      ensures Value() == Lift(old(Value()), id)
    {
      flushQueue := [Without(flushQueue[0], id), Without(flushQueue[1], id)];
      dataInFlight := Without(dataInFlight, id);
      mask := mask - {id};
    }

    /** The switch of blk_flush_complete_seq. */
    method Enter(id: Id, m: Mask, ok: bool, empty: bool, now: nat) returns (queued: bool)
      requires Shape(Value())
      modifies this`flushQueue, this`dataInFlight, this`mask, this`pendingSince, this`queueHead, this`log
      ensures Value() == Attach(old(Value()), id, m, ok, if empty then now else old(pendingSince))
      ensures queued == (ok && CurSeq(m).Data?)
    {
      var step := if ok then CurSeq(m) else Done;
      queued := false;
      if step.Preflush? || step.Postflush? {
        if empty {
          pendingSince := now;
        }
        flushQueue := flushQueue[pendingIdx := flushQueue[pendingIdx] + [id]];
        mask := mask[id := m];
      } else if step.Data? {
        dataInFlight := dataInFlight + [id];
        queueHead := [Rq(id)] + queueHead;
        mask := mask[id := m];
        log := log + [DataQueued(id)];
        queued := true;
      } else {
        log := log + [Ended(id, ok)];
      }
    }

    /** blk_flush_complete_seq.  Its two BUG_ONs are obligations of the callers. */
    method CompleteSeq(id: Id, done: Mask, ok: bool, now: nat) returns (queued: bool)
      requires Shape(Value()) && MayComplete(Value(), id, done)
      modifies this
      ensures Value() == Flush.CompleteSeq(old(Value()), id, done, ok, now)
      ensures queued == Queued(old(Value()), id, done, ok, now)
    {
      var m := Union(mask[id], done);
      var empty := flushQueue[pendingIdx] == [];
      Unlink(id);
      queued := Enter(id, m, ok, empty, now);
      assert Value() == Advance(old(Value()), id, m, ok, now);
      var kicked := KickFlush(now);
      queued := kicked || queued;
    }

    /** The loop of flush_end_io over the live list `flushQueue[r]`, with a saved
        successor, while each turn may issue the next flush and flip pendingIdx. */
    method PushRunning(r: nat, ok: bool, now: nat) returns (queued: bool)
      requires Shape(Value()) && r < 2 && Walkable(Value(), r, ok, now)
      modifies this
      ensures Value() == PushAll(old(Value()), old(flushQueue)[r], ok, now)
      ensures queued == PushQueued(old(Value()), old(flushQueue)[r], ok, now)
    {
      queued := false;
      var more := flushQueue[r] != [];
      var rq := if more then flushQueue[r][0] else 0;
      while more
        invariant Shape(Value()) && Walkable(Value(), r, ok, now)
        invariant more <==> flushQueue[r] != []
        invariant more ==> rq == flushQueue[r][0]
        invariant PushAll(Value(), flushQueue[r], ok, now) == PushAll(old(Value()), old(flushQueue)[r], ok, now)
        invariant (queued || PushQueued(Value(), flushQueue[r], ok, now))
                  == PushQueued(old(Value()), old(flushQueue)[r], ok, now)
        decreases |flushQueue[r]|
      {
        var n := if |flushQueue[r]| > 1 then flushQueue[r][1] else 0;
        var last := |flushQueue[r]| == 1;
        WalkStep(Value(), r, ok, now);
        var q := CompleteSeq(rq, Only(CurSeq(mask[rq])), ok, now);
        queued := queued || q;
        more, rq := !last, n;
      }
    }

    /** flush_end_io: it serves exactly the requests that were on the running
        list at the start, each once and in order. */
    method EndFlush(ok: bool, now: nat)
      requires Inv(Value()) == true && FlushRq in driver
      modifies this
      ensures old(issued) > 0 && Value() == Flush.EndFlush(old(Value()), ok, now)
      ensures Inv(Value()) == true
    {
      EndFlushWalkable(Value(), ok, now);
      EndFlushInv(Value(), ok, now);
      ServeFlush(ok, now);
    }

    /** Its body; that the walk is safe is all that it relies on. */
    method ServeFlush(ok: bool, now: nat)
      requires Shape(Value()) && issued > 0 && Walkable(FlushAccounted(Value(), ok), runningIdx, ok, now)
      modifies this
      ensures Value() == Flush.EndFlush(old(Value()), ok, now)
    {
      var r := runningIdx;
      runningIdx := 1 - runningIdx;
      driver := driver - {FlushRq};
      log := log + [FlushDone(issued - 1, ok)];
      assert Value() == FlushAccounted(old(Value()), ok);
      var wasDelayed := delayed;
      var queued := PushRunning(r, ok, now);
      delayed := false;
      if queued || wasDelayed {
        log := log + [QueueRun];
      }
    }

    /** flush_data_end_io, or the ordinary completion of an unsequenced request. */
    method EndData(id: Id, ok: bool, now: nat)
      requires Inv(Value()) == true && Rq(id) in driver
      modifies this
      ensures Value() == Flush.EndData(old(Value()), id, ok, now)
      ensures Inv(Value()) == true
    {
      EndDataReady(Value(), id);
      NextInv(Value(), At(now, DataEnd(id, ok)));
      MoveOn(id, ok, now);
    }

    method MoveOn(id: Id, ok: bool, now: nat)
      requires Shape(Value()) && (id in mask ==> MayComplete(Value(), id, Only(Data)))
      modifies this
      ensures Value() == Flush.EndData(old(Value()), id, ok, now)
    {
      driver := driver - {Rq(id)};
      wait, log := wait[id := |log|], log + [DataDone(id, ok)];
      if id in mask {
        var queued := CompleteSeq(id, Only(Data), ok, now);
        if queued {
          log := log + [QueueRun];
        }
      } else {
        log := log + [Ended(id, ok)];
      }
    }

    /** blk_insert_flush. */
    method InsertFlush(id: Id, dev: Flags, rq: Flags, hasData: bool, now: nat)
      requires Inv(Value()) == true && id !in birth && (rq.fua ==> hasData)
      modifies this
      ensures Value() == Insert(old(Value()), id, dev, rq, hasData, now)
      ensures Inv(Value()) == true
    {
      InsertReady(Value(), id);
      InsertInv(Value(), id, dev, rq, hasData, now);
      Begin(id, dev, rq, hasData, now);
    }

    method Begin(id: Id, dev: Flags, rq: Flags, hasData: bool, now: nat)
      requires Shape(Value()) && Rq(id) !in queueHead
      modifies this
      ensures Value() == Insert(old(Value()), id, dev, rq, hasData, now)
    {
      var p := Policy(dev, rq, hasData);
      birth, wait, log := birth[id := |log|], wait[id := |log|], log + [Inserted(id, p)];
      if p.data && !(p.pre || p.post) {
        queueHead := queueHead + [Rq(id)];
        return;
      }
      mask := mask[id := Mask(false, false, false)];
      var _ := CompleteSeq(id, Complement(p), true, now);
    }

    /** The inner loop of blk_abort_flushes. */
    method GiveAway(i: nat)
      requires Shape(Value()) && i < 2
      modifies this
      ensures flushQueue == old(flushQueue)[i := []] && queueHead == old(queueHead) + AllRq(old(flushQueue)[i])
      ensures Value() == old(Value()).(fq := flushQueue, head := queueHead, mask := mask)
      ensures forall x :: x in mask <==> x in old(mask) && x !in old(flushQueue)[i]
    {
      while flushQueue[i] != []
        invariant |flushQueue| == 2 && flushQueue[1 - i] == old(flushQueue)[1 - i]
        invariant Value() == old(Value()).(fq := flushQueue, head := queueHead, mask := mask)
        invariant queueHead + AllRq(flushQueue[i]) == old(queueHead) + AllRq(old(flushQueue)[i])
        invariant forall x :: x in mask && x !in flushQueue[i] <==> x in old(mask) && x !in old(flushQueue)[i]
        decreases |flushQueue[i]|
      {
        var rq := flushQueue[i][0];
        assert forall x :: x in flushQueue[i] <==> x == rq || x in flushQueue[i][1..];
        mask := mask - {rq};
        flushQueue := flushQueue[i := flushQueue[i][1..]];
        queueHead := queueHead + [Rq(rq)];
      }
      assert flushQueue == old(flushQueue)[i := []];
    }

    /** blk_abort_flushes gives every list away. */
    method AbortFlushes()
      requires Inv(Value()) == true
      modifies this
      ensures Value() == Abort(old(Value()))
    {
      EmptyLists();
    }

    method EmptyLists()
      requires Shape(Value())
      requires forall x :: x in mask ==> OnQueues(Value(), x) || x in dataInFlight
      modifies this
      ensures Value() == Abort(old(Value()))
    {
      ghost var s := Value();
      while dataInFlight != []
        invariant Value() == s.(data := dataInFlight, mask := mask)
        invariant forall x :: x in mask ==> OnQueues(s, x) || x in dataInFlight
        decreases |dataInFlight|
      {
        mask := mask - {dataInFlight[0]};
        dataInFlight := dataInFlight[1..];
      }
      GiveAway(0);
      GiveAway(1);
      assert forall x :: x !in mask;
      assert mask == map[];
      assert flushQueue == [[], []];
    }
  }
}
