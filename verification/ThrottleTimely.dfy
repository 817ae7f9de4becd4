/** When does a refused bio go?  The wait of its group, the slice it waits in and the next
    look at it, put together. */
module ThrottleTimely {
  import opened Arith
  import opened Jiffies
  import opened Throttle
  import opened ThrottleDispatch
  import opened ThrottleWait

  /** A refused bio: its slice has begun, and lasts until the wait is over. */
  lemma {:induction false} SliceLasts(d: Dir, now: nat, size: nat)
    requires Sane(d) && !MayDispatch(d, now, size).ok
    ensures var v := MayDispatch(d, now, size);
            && Sane(v.dir) && !NoRule(v.dir) && v.dir.start <= now
            && v.dir.end >= now + v.wait && v.dir.end >= now + SLICE
  {
    MaySane(d, now, size);
  }

  /** It failed one of the tests, and its wait is that of the first it failed. */
  lemma {:induction false} WaitIs(d: Dir, now: nat, size: nat)
    requires Sane(d) && !MayDispatch(d, now, size).ok
    ensures var v := MayDispatch(d, now, size);
            && v.dir.start <= now && Sane(v.dir)
            && if WithinBps(v.dir, now, size) then !WithinIops(v.dir, now) && v.wait == IopsWait(v.dir, now)
               else v.wait == BpsWait(v.dir, now, size)
  {
    MaySane(d, now, size);
  }

  /** Within a slice, a look makes both tests and nothing more. */
  lemma {:induction false} LookWithin(e: Dir, later: nat, size: nat)
    requires Sane(e) && !NoRule(e) && e.start <= later <= e.end
    ensures MayDispatch(e, later, size).ok <==> WithinBps(e, later, size) && WithinIops(e, later)
  {
  }

  /** The bio fits in a slice that has only begun. */
  predicate FitsFresh(d: Dir, size: nat) {
    Times(size, HZ) <= Wrap(Times(d.bps, SLICE), U64) && HZ <= Times(d.iops, SLICE)
  }

  lemma {:induction false} FreshIos(iops: nat)
    requires iops < U32
    ensures Times(iops, SLICE) < U64
  {
    TimesLe(iops, U32, SLICE);
    TimesIs(U32, SLICE);
  }

  /** A look after the slice has ended starts a new one. */
  lemma {:induction false} LookBeyond(e: Dir, later: nat, size: nat)
    requires Sane(e) && !NoRule(e) && e.start <= e.end < later && size < U32
    ensures MayDispatch(e, later, size).ok <==> FitsFresh(e, size)
  {
    var n := NewSlice(e, later);
    RoundSlice();
    FreshIos(e.iops);
    DivAtLeast(Wrap(Times(e.bps, SLICE), U64), HZ, size);
    DivAtLeast(Times(e.iops, SLICE), HZ, 1);
    assert Times(1, HZ) == HZ + Times(0, HZ);
    assert WithinBps(n, later, size) <==> Times(size, HZ) <= Wrap(Times(e.bps, SLICE), U64);
    assert WithinIops(n, later) <==> HZ <= Times(e.iops, SLICE);
  }

  /** The products of the test that refused the bio fit, now and later. */
  ghost predicate NoWrap(e: Dir, now: nat, later: nat, size: nat)
    requires e.start <= now <= later
  {
    if WithinBps(e, now, size) then IopsNoWrap(e, now) && IopsNoWrap(e, later)
    else BpsNoWrap(e, now, size) && BpsNoWrap(e, later, size)
  }

  /** The wait is over; one jiffy more, if it was for too many bytes. */
  ghost predicate WaitOver(v: Verdict, now: nat, later: nat, size: nat) {
    v.dir.start <= now && now + v.wait <= later && (WithinBps(v.dir, now, size) || now + v.wait < later)
  }

  /** Whether a bio goes that was refused at `now` in the slice `e` and has waited until `later`:
      in the same slice, if it is within the limit that did not refuse it; in a later one,
      if it fits. */
  ghost predicate Goes(e: Dir, now: nat, later: nat, size: nat)
    requires e.start <= now <= later
  {
    if later > e.end then FitsFresh(e, size)
    else if WithinBps(e, now, size) then WithinBps(e, later, size)
    else WithinIops(e, later)
  }

  /** A bio refused at `now` and looked at again once its wait is over (one jiffy more, if
      it was too many bytes): in the same slice it has met the limit that refused it, and
      goes if and only if it is within the other; after the slice has ended it goes if and
      only if it fits in a fresh one. */
  lemma {:induction false} LookAgain(d: Dir, now: nat, size: nat, later: nat)
    requires Sane(d) && size < U32 && !MayDispatch(d, now, size).ok
    requires var v := MayDispatch(d, now, size); WaitOver(v, now, later, size) && NoWrap(v.dir, now, later, size)
    ensures var e := MayDispatch(d, now, size).dir;
            Sane(e) && (MayDispatch(e, later, size).ok <==> Goes(e, now, later, size))
  {
    SliceLasts(d, now, size);
    WaitIs(d, now, size);
    var e := MayDispatch(d, now, size).dir;
    if later > e.end {
      LookBeyond(e, later, size);
    } else {
      LookWithin(e, later, size);
      if WithinBps(e, now, size) {
        IopsWaitSound(e, now, later);
      } else {
        BpsWaitSound(e, now, later, size);
      }
    }
  }

  // ----- no third wait

  lemma {:induction false} RoundedGrows(d: Dir, now: nat, later: nat)
    requires d.start <= now <= later
    ensures Rounded(d, now) <= Rounded(d, later)
  {
    var x := if now == d.start then SLICE else now - d.start;
    var y := if later == d.start then SLICE else later - d.start;
    if x <= y {
      DivLe(x + SLICE - 1, SLICE, y + SLICE - 1);
      TimesLe(Div(x + SLICE - 1, SLICE), Div(y + SLICE - 1, SLICE), SLICE);
    } else {
      RoundSlice();
      RoundedFirst(d, later);
    }
  }

  /** What is within the byte limit stays so in the slice. */
  lemma {:induction false} BpsStaysWithin(d: Dir, now: nat, later: nat, size: nat)
    requires Sane(d) && d.start <= now <= later && WithinBps(d, now, size)
    requires BpsNoWrap(d, now, size) && BpsNoWrap(d, later, size)
    ensures WithinBps(d, later, size)
  {
    BpsTestIs(d, now, size);
    BpsTestIs(d, later, size);
    RoundedGrows(d, now, later);
    TimesComm(d.bps, Rounded(d, now));
    TimesComm(d.bps, Rounded(d, later));
    TimesLe(Rounded(d, now), Rounded(d, later), d.bps);
    DivLe(Times(d.bps, Rounded(d, now)), HZ, Times(d.bps, Rounded(d, later)));
  }

  /** A bio that is within the byte limit waits once: looked at again in its slice when
      that wait is over, it goes. */
  lemma {:induction false} LastWait(d: Dir, now: nat, size: nat, later: nat)
    requires Sane(d) && size < U32 && !MayDispatch(d, now, size).ok
    requires var v := MayDispatch(d, now, size);
             && v.dir.start <= now && WithinBps(v.dir, now, size) && now + v.wait <= later <= v.dir.end
             && NoWrap(v.dir, now, later, size) && BpsNoWrap(v.dir, now, size) && BpsNoWrap(v.dir, later, size)
    ensures Sane(MayDispatch(d, now, size).dir) && MayDispatch(MayDispatch(d, now, size).dir, later, size).ok
  {
    var e := MayDispatch(d, now, size).dir;
    LookAgain(d, now, size, later);
    BpsStaysWithin(e, now, later, size);
  }

  /** A look one jiffy after the wait can be too late: the slice has ended, and the bio,
      which is too large for a fresh one, is refused again. */
  lemma {:induction false} LateLookStartsOver()
    ensures var d, size := Dir(1024 * HZ, U32 - 1, 0, 0, 0, SLICE), 512 * (4 * SLICE + 1);
            && Sane(d) && !MayDispatch(d, 0, size).ok
            && Sane(MayDispatch(d, 0, size).dir)
            && !MayDispatch(MayDispatch(d, 0, size).dir, MayDispatch(d, 0, size).wait + 1, size).ok
  {
    var d, size := Dir(1024 * HZ, U32 - 1, 0, 0, 0, SLICE), 512 * (4 * SLICE + 1);
    OneShortAnyIops(U32 - 1);
    RoundSlice();
    var v := MayDispatch(d, 0, size);
    assert v.wait == 2 * SLICE && v.dir.end == 2 * SLICE;
    LookBeyond(v.dir, 2 * SLICE + 1, size);
    SmallProducts();
    TimesLe(1024 * SLICE + 1, size, HZ);
  }

  // ----- groups

  /** A group that was rescheduled at `now`, with a head refused in direction `rw`: it is due
      when the wait of that head is over, and a round of dispatch then that stays below the
      quantum lets the head go. */
  lemma {:induction false} HeadLetGo(t: Group, now: nat, groups: map<Gid, Group>, bl: seq<Sent>, list: seq<Gid>, g: Gid,
                                     rw: nat, later: nat)
    requires GroupOk(t) && rw < 2 && t.queue[rw] != [] && !HeadVerdict(t, rw, now).ok
    requires g in groups && groups[g] == Rescheduled(t, now) && g in list && AllDueWent(groups, bl, list, later)
    requires var v, size := HeadVerdict(t, rw, now), t.queue[rw][0].size;
             WaitOver(v, now, later, size) && NoWrap(v.dir, now, later, size) && Goes(v.dir, now, later, size)
    ensures Rescheduled(t, now).disptime <= later && Of(bl, g, rw) != []
  {
    var size := t.queue[rw][0].size;
    var u := Rescheduled(t, now);
    DispatchTime(t, now);
    HeadSize(t.queue[rw]);
    LookAgain(t.dir[rw], now, size, later);
    assert u.dir[rw] == HeadVerdict(t, rw, now).dir && u.queue[rw] == t.queue[rw];
    assert HeadVerdict(u, rw, later).ok;
    DueWent(groups, bl, list, later, g);
  }

  lemma {:induction false} HeadSize(q: seq<Bio>)
    requires SizesOk(q) && q != []
    ensures q[0].size < U32
  {
  }

  lemma {:induction false} DueWent(before: map<Gid, Group>, bl: seq<Sent>, list: seq<Gid>, now: nat, g: Gid)
    requires AllDueWent(before, bl, list, now) && g in list
    ensures DueAt(before, bl, g, now) == true
  {
    if list[0] != g { DueWent(before, bl, list[1..], now, g); }
  }
}
