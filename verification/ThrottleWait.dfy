/** How good are the waiting times that a refused bio is given?  They are used
    as a group's dispatch time, and say when the test is worth repeating in the
    same slice. */
module ThrottleWait {
  import opened Arith
  import opened Jiffies
  import opened Throttle

  /** The products that the iops code forms fit in their 32 and 64 bits. */
  ghost predicate IopsNoWrap(d: Dir, now: nat)
    requires d.start <= now
  {
    Times(d.ioDisp + 1, HZ) < U32 && Times(d.iops, Rounded(d, now)) < U64
  }

  ghost predicate BpsNoWrap(d: Dir, now: nat, size: nat)
    requires d.start <= now
  {
    && d.bytesDisp + size < U64
    && Times(d.bps, Rounded(d, now)) < U64
    && Times(d.bytesDisp + size, HZ) < U64
  }

  lemma {:induction false} RoundedGe(d: Dir, now: nat)
    requires d.start <= now
    ensures Rounded(d, now) >= now - d.start
  {
  }

  lemma {:induction false} IoCountFits(d: Dir)
    requires Times(d.ioDisp + 1, HZ) < U32
    ensures d.ioDisp + 1 < U32
  {
    TimesComm(d.ioDisp + 1, HZ);
    TimesLe(1, HZ, d.ioDisp + 1);
  }

  /** Once (ioDisp + 1) * HZ / iops + 1 jiffies of the slice are over, the iops
      test passes. */
  lemma {:induction false} IopsDue(d: Dir, now: nat)
    requires Sane(d) && d.start <= now && IopsNoWrap(d, now)
    requires now - d.start >= Div(Times(d.ioDisp + 1, HZ), d.iops) + 1
    ensures WithinIops(d, now)
  {
    var x := Times(d.ioDisp + 1, HZ);
    var w := Div(x, d.iops) + 1;
    RoundedGe(d, now);
    DivBounds(x, d.iops);
    TimesLe(w, Rounded(d, now), d.iops);
    TimesComm(d.iops, Rounded(d, now));
    DivGe(Times(d.iops, Rounded(d, now)), HZ, d.ioDisp + 1);
    IoCountFits(d);
  }

  lemma {:induction false} IopsWaitIs(d: Dir, now: nat)
    requires Sane(d) && d.start <= now && IopsNoWrap(d, now)
    ensures var w := Div(Times(d.ioDisp + 1, HZ), d.iops) + 1;
            IopsWait(d, now) == if w > now - d.start then w - (now - d.start) else 1
  {
    IoCountFits(d);
  }

  /** A bio refused by the iops test with wait `w` passes it at any later time
      from now + w on, and the fallback "wait one jiffy" is never used. */
  lemma {:induction false} IopsWaitSound(d: Dir, now: nat, later: nat)
    requires Sane(d) && d.start <= now <= later && IopsNoWrap(d, now) && IopsNoWrap(d, later)
    requires !WithinIops(d, now) && later >= now + IopsWait(d, now)
    ensures WithinIops(d, later)
    ensures IopsWait(d, now) == Div(Times(d.ioDisp + 1, HZ), d.iops) + 1 - (now - d.start)
  {
    IopsWaitIs(d, now);
    if Div(Times(d.ioDisp + 1, HZ), d.iops) + 1 <= now - d.start {
      IopsDue(d, now);
    } else {
      IopsDue(d, later);
    }
  }

  // ----- when the iops wait is right

  /** Where the counter of a refused bio can stand: just above one slice's allowance. */
  lemma {:induction false} PeakProduct(d: Dir)
    requires BelowPeak(d)
    ensures Times(d.ioDisp + 1, HZ) <= Times(d.iops, SLICE) + 2 * HZ
  {
    var q := Div(Times(d.iops, SLICE), HZ);
    DivBounds(Times(d.iops, SLICE), HZ);
    TimesLe(d.ioDisp + 1, q + 2, HZ);
    TimesSum(q, 2, HZ);
    assert Times(2, HZ) == HZ + Times(1, HZ) && Times(1, HZ) == HZ + Times(0, HZ);
  }

  /** The test itself. */
  lemma {:induction false} IopsTestWrapped(d: Dir, now: nat)
    requires Sane(d) && BelowPeak(d) && d.start <= now
    ensures WithinIops(d, now) <==> Times(d.ioDisp + 1, HZ) <= Wrap(Times(d.iops, Rounded(d, now)), U64)
  {
    PeakFits(d.iops);
    DivAtLeast(Wrap(Times(d.iops, Rounded(d, now)), U64), HZ, d.ioDisp + 1);
  }

  /** The same, as long as its product fits in 64 bits. */
  lemma {:induction false} IopsTestIs(d: Dir, now: nat)
    requires Sane(d) && BelowPeak(d) && d.start <= now && Times(d.iops, Rounded(d, now)) < U64
    ensures WithinIops(d, now) <==> Times(d.ioDisp + 1, HZ) <= Times(d.iops, Rounded(d, now))
  {
    IopsTestWrapped(d, now);
  }

  /** `k` slices of time are worth at least the first, and a refusal shows that no more
      than a few slices have passed. */
  lemma {:induction false} SlicesWorth(iops: nat, r: nat, s: nat)
    requires r <= s
    ensures Times(iops, r) <= Times(iops, s) && Times(iops, s) == Times(iops, r) + Times(iops, s - r)
  {
    TimesComm(iops, r);
    TimesComm(iops, s);
    TimesComm(iops, s - r);
    TimesSum(r, s - r, iops);
  }

  /** The wait, when the 32-bit product wraps, ends within the first slice. */
  lemma {:induction false} WrappedWaitIsShort(d: Dir)
    requires Sane(d) && BelowPeak(d) && Times(d.ioDisp + 1, HZ) >= U32
    ensures Div(Wrap(Times(Wrap(d.ioDisp + 1, U32), HZ), U32), d.iops) + 1 <= SLICE
  {
    PeakFits(d.iops);
    PeakProduct(d);
    var x := Wrap(Times(d.ioDisp + 1, HZ), U32);
    assert x <= Times(d.ioDisp + 1, HZ) - U32;
    var q := Div(x, d.iops);
    DivBounds(x, d.iops);
    TimesComm(d.iops, SLICE);
    if q >= SLICE { TimesLe(SLICE, q, d.iops); }
  }

  lemma {:induction false} RoundedFirst(d: Dir, now: nat)
    requires d.start <= now
    ensures now <= d.start + SLICE ==> Rounded(d, now) == SLICE
    ensures now > d.start + SLICE ==> Rounded(d, now) >= 2 * SLICE
    ensures now == d.start + SLICE + 1 ==> Rounded(d, now) == 2 * SLICE
  {
    var x := if now == d.start then SLICE else now - d.start;
    assert Times(1, SLICE) == SLICE + Times(0, SLICE) && Times(2, SLICE) == SLICE + Times(1, SLICE);
    var k := Div(x + SLICE - 1, SLICE);
    RoundUpBounds(x);
    if k >= 2 { TimesLe(2, k, SLICE); }
    if k >= 3 { TimesLe(3, k, SLICE); assert Times(3, SLICE) == SLICE + Times(2, SLICE); }
  }

  /** A refused bio whose product wraps was refused in its first slice, and would pass
      in its second. */
  lemma {:induction false} WrappedRefusal(d: Dir, now: nat)
    requires Sane(d) && BelowPeak(d) && d.start <= now && Times(d.iops, Rounded(d, now)) < U64
    requires !WithinIops(d, now) && Times(d.ioDisp + 1, HZ) >= U32
    ensures now <= d.start + SLICE
    ensures Times(d.ioDisp + 1, HZ) <= Times(d.iops, 2 * SLICE) < U64
  {
    IopsTestIs(d, now);
    PeakProduct(d);
    SlicesWorth(d.iops, SLICE, 2 * SLICE);
    assert Times(d.iops, 2 * SLICE) == 2 * Times(d.iops, SLICE);
    TimesComm(d.iops, SLICE);
    TimesComm(U32, SLICE);
    TimesLe(d.iops, U32, SLICE);
    TimesLe(SLICE, 100, U32);
    TimesIs(100, U32);
    RoundedFirst(d, now);
    if now > d.start + SLICE { SlicesWorth(d.iops, 2 * SLICE, Rounded(d, now)); }
  }

  lemma {:induction false} FirstSlicesDiffer(d: Dir, now: nat)
    requires Sane(d) && BelowPeak(d) && d.start <= now && Times(d.iops, Rounded(d, now)) < U64
    requires !WithinIops(d, now) && Times(d.ioDisp + 1, HZ) >= U32
    ensures WithinIops(d, now + IopsWait(d, now)) <==> now - d.start >= SLICE
  {
    var later := now + IopsWait(d, now);
    WrappedWaitIsShort(d);
    WrappedRefusal(d, now);
    RoundedFirst(d, now);
    RoundedFirst(d, later);
    if now - d.start >= SLICE {
      assert later == d.start + SLICE + 1;
      IopsTestIs(d, later);
    } else {
      assert later <= d.start + SLICE;
    }
  }

  /** When a refused bio is told to wait and its counter is within the 32-bit range of the
      estimate, the product of the repeated test still fits. */
  lemma {:induction false} LaterFits(d: Dir, now: nat)
    requires Sane(d) && BelowPeak(d) && d.start <= now && Times(d.iops, Rounded(d, now)) < U64
    requires !WithinIops(d, now) && Times(d.ioDisp + 1, HZ) < U32
    ensures Times(d.iops, Rounded(d, now + IopsWait(d, now))) < U64
  {
    var x, e := Times(d.ioDisp + 1, HZ), now - d.start;
    var q, later := Div(x, d.iops), now + IopsWait(d, now);
    IoCountFits(d);
    if later == now + 1 {
      IopsTestIs(d, now);
      RoundedGe(d, now);
      SlicesWorth(d.iops, e, Rounded(d, now));
    } else {
      assert later == d.start + q + 1;
      DivBounds(x, d.iops);
      TimesComm(d.iops, q);
    }
    ElapsedFits(d, later);
  }

  lemma {:induction false} ElapsedFits(d: Dir, later: nat)
    requires d.iops < U32 && d.start < later && Times(d.iops, later - d.start - 1) < U32
    ensures Times(d.iops, Rounded(d, later)) < U64
  {
    var r := later - d.start - 1;
    RoundedLe(d, later);
    SlicesWorth(d.iops, Rounded(d, later), r + 1 + SLICE);
    SlicesWorth(d.iops, r, r + 1 + SLICE);
    TimesComm(d.iops, 1 + SLICE);
    TimesLe(1 + SLICE, 101, d.iops);
    TimesIs(101, d.iops);
  }

  /** In a slice so old that the product of the test wraps, the wait is one jiffy. */
  lemma {:induction false} OldSliceWait(d: Dir, now: nat)
    requires Sane(d) && d.start <= now && Times(d.iops, Rounded(d, now)) >= U64
    ensures IopsWait(d, now) == 1 && now > d.start
  {
    var y, e := Wrap(Times(Wrap(d.ioDisp + 1, U32), HZ), U32), now - d.start;
    var q := Div(y, d.iops);
    DivBounds(y, d.iops);
    if e <= q + 1 {
      TimesComm(d.iops, q);
      RoundedLe(d, now);
      SlicesWorth(d.iops, Rounded(d, now), q + 1 + SLICE);
      SlicesWorth(d.iops, q, q + 1 + SLICE);
      TimesComm(d.iops, 1 + SLICE);
      TimesLe(1 + SLICE, 101, d.iops);
      TimesIs(101, d.iops);
    }
  }

  lemma {:induction false} RoundUpPart(c: nat)
    requires 0 < c <= SLICE
    ensures RoundUp(c) == SLICE
  {
    assert Div(c + SLICE - 1, SLICE) == 1 + Div(c - 1, SLICE) && Div(c - 1, SLICE) == 0;
    assert Times(1, SLICE) == SLICE + Times(0, SLICE);
  }

  /** One jiffy on, the rounded time has moved exactly at the end of a slice. */
  lemma {:induction false} OneJiffyOn(d: Dir, now: nat)
    requires d.start < now
    ensures if Wrap(now - d.start, SLICE) == 0 then Rounded(d, now + 1) == now - d.start + SLICE
            else Rounded(d, now + 1) == Rounded(d, now)
  {
    var e := now - d.start;
    var j, c := Div(e, SLICE), Wrap(e, SLICE);
    DivWrap(e, SLICE);
    RoundUpShift(j, c);
    RoundUpShift(j, c + 1);
    RoundUpPart(c + 1);
    if c > 0 { RoundUpPart(c); }
  }

  /** What the announced wait hangs on: the 32-bit product of the estimate, unless the first
      slice is over; and in a slice so old that the 64-bit product of the test wraps, whether
      the next jiffy begins a slice that allows enough. */
  ghost predicate WaitIsRight(d: Dir, now: nat)
    requires d.start <= now
  {
    if Times(d.iops, Rounded(d, now)) < U64 then
      Times(d.ioDisp + 1, HZ) < U32 || now - d.start >= SLICE
    else
      && Wrap(now - d.start, SLICE) == 0
      && Times(d.ioDisp + 1, HZ) <= Wrap(Times(d.iops, now - d.start + SLICE), U64)
  }

  lemma {:induction false} OldSliceExact(d: Dir, now: nat)
    requires Sane(d) && BelowPeak(d) && d.start <= now && Times(d.iops, Rounded(d, now)) >= U64
    requires !WithinIops(d, now)
    ensures WithinIops(d, now + IopsWait(d, now)) <==> WaitIsRight(d, now)
  {
    OldSliceWait(d, now);
    OneJiffyOn(d, now);
    IopsTestWrapped(d, now);
    IopsTestWrapped(d, now + 1);
  }

  /** The announced wait, exactly: when it is over the bio passes if and only if the wait
      is right. */
  lemma {:induction false} IopsWaitExact(d: Dir, now: nat)
    requires Sane(d) && BelowPeak(d) && d.start <= now && !WithinIops(d, now)
    ensures WithinIops(d, now + IopsWait(d, now)) <==> WaitIsRight(d, now)
  {
    if Times(d.iops, Rounded(d, now)) >= U64 {
      OldSliceExact(d, now);
    } else if Times(d.ioDisp + 1, HZ) < U32 {
      LaterFits(d, now);
      IopsWaitSound(d, now, now + IopsWait(d, now));
    } else {
      FirstSlicesDiffer(d, now);
    }
  }

  /** The same at any time of any run from a fresh slice: `r` is the slice that the test is
      made in. */
  lemma {:induction false} IopsWaitInRuns(d: Dir, t0: nat, es: seq<Event>, now: nat)
    requires Sane(d) && (d.bps != U64 - 1 || d.iops != U32 - 1) && d == NewSlice(d, t0)
    requires Timely(es, t0) && LastTime(es, t0) <= now
    ensures var r := Renewed(Run(Books(d, 0, 0), es).dir, now);
            && r.start <= now && r.iops > 0
            && (!WithinIops(r, now) ==> (WithinIops(r, now + IopsWait(r, now)) <==> WaitIsRight(r, now)))
  {
    FreshPaid(d.iops, t0);
    RunIos(Books(d, 0, 0), es, t0, t0);
    RunSane(Books(d, 0, 0), es);
    var r := Renewed(Run(Books(d, 0, 0), es).dir, now);
    if !WithinIops(r, now) {
      IopsWaitExact(r, now);
    }
  }

  /** The product of the test fits in any slice younger than 2^32 jiffies. */
  lemma {:induction false} YoungSliceFits(d: Dir, now: nat)
    requires Sane(d) && d.start <= now && now - d.start + SLICE < U32
    ensures Times(d.iops, Rounded(d, now)) < U64
  {
    RoundedLe(d, now);
    TimesLe(d.iops, U32, Rounded(d, now));
    TimesComm(U32, Rounded(d, now));
    TimesLe(Rounded(d, now), U32 - 1, U32);
    TimesIs(U32 - 1, U32);
  }

  // ----- a run in which it is wrong

  /** No bps limit, and `iops` as an iops limit, after `k` bios of 512 bytes in the first
      jiffy of a slice. */
  function Busy(iops: nat, k: nat): Dir {
    Dir(U64 - 1, iops, 512 * k, k, 0, SLICE)
  }

  function Burst(k: nat): (es: seq<Event>)
    ensures |es| == k
  {
    if k == 0 then [] else [Event(0, 512, true)] + Burst(k - 1)
  }

  lemma {:induction false} BurstTimely(k: nat)
    ensures Timely(Burst(k), 0)
  {
    if k > 0 { BurstTimely(k - 1); }
  }

  lemma {:induction false} AllOnes(s: nat)
    requires 0 < s < U64
    ensures Times(s, U64 - 1) == Times(s - 1, U64) + (U64 - s)
  {
    if s > 1 {
      AllOnes(s - 1);
    } else {
      assert Times(1, U64 - 1) == U64 - 1 + Times(0, U64 - 1);
    }
  }

  /** The limit that stands for "none" allows almost 2^64 bytes in HZ slices. */
  lemma {:induction false} UnlimitedSlice(s: nat)
    requires 0 < s < U64
    ensures Wrap(Times(U64 - 1, s), U64) == U64 - s
  {
    TimesComm(U64 - 1, s);
    AllOnes(s);
    DivShift(s - 1, U64 - s, U64);
  }

  lemma {:induction false} FreeBytes(iops: nat, k: nat)
    requires k < U32
    ensures WithinBps(Busy(iops, k), 0, 512)
  {
    RoundSlice();
    UnlimitedSlice(SLICE);
    TimesComm(512 * (k + 1), HZ);
    TimesLe(HZ, 1000, 512 * (k + 1));
    TimesIs(1000, 512 * (k + 1));
    DivGe(U64 - SLICE, HZ, 512 * (k + 1));
  }

  lemma {:induction false} BusySent(iops: nat, k: nat, bytes: nat, ios: nat)
    requires 0 < iops < U32 - 1 && k + 1 < U32 && k < Div(Times(iops, SLICE), HZ) && Times(iops, SLICE) < U64
    ensures Sane(Busy(iops, k))
    ensures Step(Books(Busy(iops, k), bytes, ios), Event(0, 512, true))
         == Books(Busy(iops, k + 1), bytes + 512, ios + 1)
  {
    FreeBytes(iops, k);
    RoundSlice();
    assert Div(0, SLICE) == 0;
  }

  lemma {:induction false} RunFirst(b: Books, e: Event, es: seq<Event>)
    requires Sane(b.dir)
    ensures Sane(Step(b, e).dir) && Run(b, [e] + es) == Run(Step(b, e), es)
  {
    StepSane(b, e);
    assert ([e] + es)[1..] == es;
  }

  lemma {:induction false} BurstStep(iops: nat, k: nat, n: nat, bytes: nat, ios: nat)
    requires 0 < iops < U32 - 1 && k + 1 < U32 && k < Div(Times(iops, SLICE), HZ) && Times(iops, SLICE) < U64 && n > 0
    ensures Sane(Busy(iops, k)) && Sane(Busy(iops, k + 1))
    ensures Run(Books(Busy(iops, k), bytes, ios), Burst(n))
         == Run(Books(Busy(iops, k + 1), bytes + 512, ios + 1), Burst(n - 1))
  {
    BusySent(iops, k, bytes, ios);
    RunFirst(Books(Busy(iops, k), bytes, ios), Event(0, 512, true), Burst(n - 1));
  }

  lemma {:induction false} BurstLeads(iops: nat, k: nat, n: nat, bytes: nat, ios: nat)
    requires 0 < iops < U32 - 1 && k + n < U32 && k + n <= Div(Times(iops, SLICE), HZ) && Times(iops, SLICE) < U64
    ensures Sane(Busy(iops, k)) && Run(Books(Busy(iops, k), bytes, ios), Burst(n)).dir == Busy(iops, k + n)
    decreases n
  {
    if n > 0 {
      BurstStep(iops, k, n, bytes, ios);
      BurstLeads(iops, k + 1, n - 1, bytes + 512, ios + 1);
    }
  }

  /** From a fresh slice, a burst of bios within the limit, then one that is refused: it
      comes back when its wait is over, and is refused again. */
  lemma {:induction false} IopsWaitWraps()
    ensures var d := Busy(U32 - 2, 0);
            var es := Burst(Div(Times(U32 - 2, SLICE), HZ));
            && Sane(d) && !NoRule(d) && d == NewSlice(d, 0) && Timely(es, 0)
            && var b := Run(Books(d, 0, 0), es);
               Sane(b.dir)
               && var v := MayDispatch(b.dir, 0, 512);
                  Sane(v.dir) && !v.ok && !MayDispatch(v.dir, v.wait, 512).ok
  {
    var iops, k := U32 - 2, Div(Times(U32 - 2, SLICE), HZ);
    HalfAtMost(iops);
    TimesComm(iops, SLICE);
    TimesLe(SLICE, 100, iops);
    TimesIs(100, iops);
    BurstLeads(iops, 0, k, 0, 0);
    BurstTimely(k);
    FullRefused(iops, k);
  }

  lemma {:induction false} FullRefused(iops: nat, k: nat)
    requires iops == U32 - 2 && k == Div(Times(iops, SLICE), HZ) && k + 1 < U32 && Times(iops, SLICE) < U64
    ensures Sane(Busy(iops, k))
    ensures var v := MayDispatch(Busy(iops, k), 0, 512);
            Sane(v.dir) && !v.ok && !MayDispatch(v.dir, v.wait, 512).ok
  {
    var d := Busy(iops, k);
    FreeBytes(iops, k);
    RoundSlice();
    BigProduct(iops, k);
    IopsWaitExact(d, 0);
    var v := MayDispatch(d, 0, 512);
    assert v.wait == IopsWait(d, 0);
    SameTest(d, v.dir.end, v.wait, 512);
  }

  lemma {:induction false} BigProduct(iops: nat, k: nat)
    requires iops == U32 - 2 && k == Div(Times(iops, SLICE), HZ)
    ensures Times(k + 1, HZ) >= U32
  {
    DivBounds(Times(iops, SLICE), HZ);
    TimesSum(k, 1, HZ);
    assert Times(1, HZ) == HZ + Times(0, HZ);
    TimesComm(iops, SLICE);
    TimesLe(2, SLICE, iops);
    TimesIs(2, iops);
  }

  /** The end of a slice that is not over plays no part in the test. */
  lemma {:induction false} SameTest(d: Dir, end: nat, now: nat, size: nat)
    requires Sane(d) && !NoRule(d) && d.start <= now <= end && !WithinIops(d, now)
    ensures !MayDispatch(d.(end := end), now, size).ok
  {
  }

  // ----- bytes

  lemma {:induction false} BpsTestIs(d: Dir, now: nat, size: nat)
    requires Sane(d) && d.start <= now && BpsNoWrap(d, now, size)
    ensures BytesAllowed(d, now) == Div(Times(d.bps, Rounded(d, now)), HZ)
    ensures WithinBps(d, now, size) <==> d.bytesDisp + size <= BytesAllowed(d, now)
  {
  }

  lemma {:induction false} BpsWaitAtLeast(d: Dir, now: nat, size: nat)
    requires Sane(d) && d.start <= now && BpsNoWrap(d, now, size) && !WithinBps(d, now, size)
    ensures d.bytesDisp + size > BytesAllowed(d, now)
    ensures var q := Div(Times(d.bytesDisp + size - BytesAllowed(d, now), HZ), d.bps);
            BpsWait(d, now, size) == (if q == 0 then 1 else q) + (Rounded(d, now) - (now - d.start))
  {
    BpsTestIs(d, now, size);
    TimesLe(d.bytesDisp + size - BytesAllowed(d, now), d.bytesDisp + size, HZ);
  }

  /** Time for the missing bytes, rounded up, makes up for them. */
  lemma {:induction false} BytesDue(bps: nat, r: nat, want: nat, r': nat)
    requires bps > 0 && want >= Div(Times(bps, r), HZ)
    requires r' >= r + (Div(Times(want - Div(Times(bps, r), HZ), HZ), bps) + 1)
    ensures want <= Div(Times(bps, r'), HZ)
  {
    var allowed := Div(Times(bps, r), HZ);
    var extra := want - allowed;
    var q := Div(Times(extra, HZ), bps);
    TimesComm(bps, r);
    TimesComm(bps, r');
    DivBounds(Times(bps, r), HZ);
    DivBounds(Times(extra, HZ), bps);
    TimesLe(r + (q + 1), r', bps);
    TimesSum(r, q + 1, bps);
    TimesSum(allowed, extra, HZ);
    DivGe(Times(bps, r'), HZ, want);
  }

  /** A bio refused by the bps test with wait `w` passes it at any later time
      from now + w + 1 on. */
  lemma {:induction false} BpsWaitSound(d: Dir, now: nat, later: nat, size: nat)
    requires Sane(d) && d.start <= now <= later && BpsNoWrap(d, now, size) && BpsNoWrap(d, later, size)
    requires !WithinBps(d, now, size) && later >= now + BpsWait(d, now, size) + 1
    ensures WithinBps(d, later, size)
  {
    BpsTestIs(d, now, size);
    BpsWaitAtLeast(d, now, size);
    BpsTestIs(d, later, size);
    RoundedGe(d, later);
    BytesDue(d.bps, Rounded(d, now), d.bytesDisp + size, Rounded(d, later));
  }

  /** The extra jiffy is needed: this bio is refused again when its wait is over. */
  lemma {:induction false} BpsWaitOneShort()
    ensures var d, size := Dir(1024 * HZ, 1, 0, 0, 0, SLICE), 512 * (4 * SLICE + 1);
            && Sane(d) && d == NewSlice(d, 0) && BpsNoWrap(d, 0, size) && !WithinBps(d, 0, size)
            && !WithinBps(d, BpsWait(d, 0, size), size)
  {
    var d, size := Dir(1024 * HZ, 1, 0, 0, 0, SLICE), 512 * (4 * SLICE + 1);
    OneShortAnyIops(1);
    RoundSlice();
    SmallProducts();
    DivExact(2048 * SLICE);
    BpsTestIs(d, 2 * SLICE, size);
  }

  lemma {:induction false} OneShortAnyIops(iops: nat)
    requires 0 < iops < U32
    ensures var d, size := Dir(1024 * HZ, iops, 0, 0, 0, SLICE), 512 * (4 * SLICE + 1);
            BpsNoWrap(d, 0, size) && !WithinBps(d, 0, size) && BpsWait(d, 0, size) == 2 * SLICE
  {
    var d, size := Dir(1024 * HZ, iops, 0, 0, 0, SLICE), 512 * (4 * SLICE + 1);
    RoundSlice();
    SmallProducts();
    DivExact(1024 * SLICE);
    DivHalf(SLICE);
    BpsTestIs(d, 0, size);
    BpsWaitAtLeast(d, 0, size);
  }

  // ----- when the bps wait is right

  lemma {:induction false} RoundUpShift(j: nat, m: nat)
    ensures RoundUp(Times(j, SLICE) + m) == Times(j, SLICE) + RoundUp(m)
  {
    DivShift(j, m + SLICE - 1, SLICE);
    TimesSum(j, Div(m + SLICE - 1, SLICE), SLICE);
  }

  /** Rounding up stays put exactly at the whole slices. */
  lemma {:induction false} RoundUpFixed(m: nat)
    ensures RoundUp(m) == m <==> Wrap(m, SLICE) == 0
  {
    DivWrap(m, SLICE);
    DivShift(Div(m, SLICE), SLICE - 1, SLICE);
    DivShift(Div(m + SLICE - 1, SLICE), 0, SLICE);
    if Wrap(m, SLICE) == 0 { assert Div(SLICE - 1, SLICE) == 0; }
  }

  /** The elapsed time that is tested when the wait is over. */
  lemma {:induction false} RoundedLater(d: Dir, now: nat, m: nat)
    requires d.start <= now && m > 0
    ensures var later := now + m + (Rounded(d, now) - (now - d.start));
            Rounded(d, later) == Rounded(d, now) + RoundUp(m)
  {
    var x := if now == d.start then SLICE else now - d.start;
    RoundUpShift(Div(x + SLICE - 1, SLICE), m);
  }

  /** With `q` more jiffies, a whole number of slices, the test passes exactly when the
      division of the wait dropped no more than that of the allowance did. */
  lemma {:induction false} WholeSlices(bps: nat, r: nat, want: nat)
    requires bps > 0 && want >= Div(Times(bps, r), HZ)
    ensures var extra := want - Div(Times(bps, r), HZ);
            var q := Div(Times(extra, HZ), bps);
            want <= Div(Times(bps, r + q), HZ) <==> Wrap(Times(extra, HZ), bps) <= Wrap(Times(bps, r), HZ)
  {
    var extra := want - Div(Times(bps, r), HZ);
    var q := Div(Times(extra, HZ), bps);
    WantProduct(bps, r, want);
    LaterProduct(bps, r, q);
    DivAtLeast(Times(bps, r + q), HZ, want);
  }

  lemma {:induction false} WantProduct(bps: nat, r: nat, want: nat)
    requires bps > 0 && want >= Div(Times(bps, r), HZ)
    ensures var x := Times(want - Div(Times(bps, r), HZ), HZ);
            Times(want, HZ) + Wrap(Times(bps, r), HZ) == Times(bps, r) + Times(Div(x, bps), bps) + Wrap(x, bps)
  {
    var allowed := Div(Times(bps, r), HZ);
    DivWrap(Times(bps, r), HZ);
    DivWrap(Times(want - allowed, HZ), bps);
    TimesSum(allowed, want - allowed, HZ);
  }

  lemma {:induction false} LaterProduct(bps: nat, r: nat, q: nat)
    ensures Times(bps, r + q) == Times(bps, r) + Times(q, bps)
  {
    TimesComm(bps, r + q);
    TimesComm(bps, r);
    TimesSum(r, q, bps);
  }

  lemma {:induction false} DivAtLeast(a: nat, b: nat, k: nat)
    requires b > 0
    ensures k <= Div(a, b) <==> Times(k, b) <= a
  {
    DivBounds(a, b);
    if k <= Div(a, b) { TimesLe(k, Div(a, b), b); } else { TimesLe(Div(a, b) + 1, k, b); }
  }

  lemma {:induction false} PassesAfter(bps: nat, r: nat, want: nat)
    requires bps > 0 && want >= Div(Times(bps, r), HZ)
    ensures var x := Times(want - Div(Times(bps, r), HZ), HZ);
            var q := Div(x, bps);
            want <= Div(Times(bps, r + RoundUp(if q == 0 then 1 else q)), HZ)
            <==> q == 0 || Wrap(q, SLICE) != 0 || Wrap(x, bps) <= Wrap(Times(bps, r), HZ)
  {
    var q := Div(Times(want - Div(Times(bps, r), HZ), HZ), bps);
    RoundUpFixed(q);
    if q == 0 || Wrap(q, SLICE) != 0 {
      BytesDue(bps, r, want, r + RoundUp(if q == 0 then 1 else q));
    } else {
      WholeSlices(bps, r, want);
    }
  }

  lemma {:induction false} RoundedThen(d: Dir, now: nat, size: nat)
    requires Sane(d) && d.start <= now && BpsNoWrap(d, now, size) && !WithinBps(d, now, size)
    ensures d.bytesDisp + size > BytesAllowed(d, now)
    ensures var q := Div(Times(d.bytesDisp + size - BytesAllowed(d, now), HZ), d.bps);
            Rounded(d, now + BpsWait(d, now, size)) == Rounded(d, now) + RoundUp(if q == 0 then 1 else q)
  {
    BpsWaitAtLeast(d, now, size);
    var q := Div(Times(d.bytesDisp + size - BytesAllowed(d, now), HZ), d.bps);
    RoundedLater(d, now, if q == 0 then 1 else q);
  }

  /** The announced wait, exactly: when it is over the bio passes, unless the quotient
      is a whole number of slices and its remainder more than the allowance dropped. */
  lemma {:induction false} BpsWaitExact(d: Dir, now: nat, size: nat)
    requires Sane(d) && d.start <= now && BpsNoWrap(d, now, size) && !WithinBps(d, now, size)
    requires BpsNoWrap(d, now + BpsWait(d, now, size), size)
    ensures d.bytesDisp + size > BytesAllowed(d, now)
    ensures var x := Times(d.bytesDisp + size - BytesAllowed(d, now), HZ);
            WithinBps(d, now + BpsWait(d, now, size), size)
            <==> Div(x, d.bps) == 0 || Wrap(Div(x, d.bps), SLICE) != 0
                 || Wrap(x, d.bps) <= Wrap(Times(d.bps, Rounded(d, now)), HZ)
  {
    RoundedThen(d, now, size);
    BpsTestIs(d, now, size);
    BpsTestIs(d, now + BpsWait(d, now, size), size);
    PassesAfter(d.bps, Rounded(d, now), d.bytesDisp + size);
  }

  lemma {:induction false} Regrouped(k: nat, a: nat, b: nat)
    ensures Times(k * a, b) == Times(k * b, a)
  {
    TimesIs(k * a, b);
    TimesIs(k * b, a);
  }

  lemma {:induction false} SmallFits(a: nat)
    requires a <= 512 * 401
    ensures Times(a, HZ) < U64
  {
    TimesLe(a, 512 * 401, HZ);
    TimesIs(512 * 401, HZ);
  }

  lemma {:induction false} SmallProducts()
    ensures Times(1024 * HZ, SLICE) == Times(1024 * SLICE, HZ) < U64
    ensures Times(1024 * HZ, 2 * SLICE) == Times(2048 * SLICE, HZ) < U64
    ensures Times(512 * (4 * SLICE + 1), HZ) < U64
  {
    Regrouped(1024, HZ, SLICE);
    Regrouped(1024, HZ, 2 * SLICE);
    SmallFits(1024 * SLICE);
    SmallFits(2048 * SLICE);
    SmallFits(512 * (4 * SLICE + 1));
  }

  lemma {:induction false} DivExact(k: nat)
    ensures Div(Times(k, HZ), HZ) == k
  {
    var a := Times(k, HZ);
    DivBounds(a, HZ);
    DivGe(a, HZ, k);
    if Div(a, HZ) > k { TimesLe(k + 1, Div(a, HZ), HZ); }
  }

  lemma {:induction false} DivHalf(k: nat)
    ensures Div(Times(512 * (2 * k + 1), HZ), 1024 * HZ) == k
  {
    var a, b := Times(512 * (2 * k + 1), HZ), 1024 * HZ;
    TimesIs(512 * (2 * k + 1), HZ);
    TimesIs(k, b);
    TimesIs(k + 1, b);
    assert 512 * (2 * k + 1) * HZ == k * b + 512 * HZ && (k + 1) * b == k * b + b;
    DivAtLeast(a, b, k);
    DivAtLeast(a, b, k + 1);
  }
}
