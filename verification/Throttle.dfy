/** The token bucket of I/O throttling: one direction of one group.  Times are
    jiffies that do not wrap; the 32- and 64-bit arithmetic on bytes and bios is
    written out. */
module Throttle {
  import opened Arith
  import opened Jiffies

  const U32: nat := 0x1_0000_0000
  const U64: nat := 0x1_0000_0000_0000_0000

  /** throtl_slice. */
  const SLICE: nat := HZ / 10

  datatype Dir = Dir(
    bps: nat,          // U64 - 1 stands for "no limit"
    iops: nat,         // U32 - 1 stands for "no limit"
    bytesDisp: nat,
    ioDisp: nat,
    start: nat,        // slice_start
    end: nat)          // slice_end

  ghost predicate Sane(d: Dir) {
    0 < d.bps < U64 && 0 < d.iops < U32 && d.bytesDisp < U64 && d.ioDisp < U32
  }

  /** roundup(x, throtl_slice). */
  function RoundUp(x: nat): (r: nat)
    ensures x <= r < x + SLICE
  {
    RoundUpBounds(x);
    Times(Div(x + SLICE - 1, SLICE), SLICE)
  }

  lemma {:induction false} RoundUpBounds(x: nat)
    ensures x <= Times(Div(x + SLICE - 1, SLICE), SLICE) < x + SLICE
  {
    DivBounds(x + SLICE - 1, SLICE);
  }

  // ----- slices

  predicate Used(d: Dir, now: nat) {
    !(d.start <= now <= d.end)
  }

  function NewSlice(d: Dir, now: nat): Dir {
    d.(bytesDisp := 0, ioDisp := 0, start := now, end := now + SLICE)
  }

  /** The elapsed time of the slice, rounded up to whole slice intervals. */
  function Rounded(d: Dir, now: nat): nat
    requires d.start <= now
  {
    RoundUp(if now == d.start then SLICE else now - d.start)
  }

  // ----- the two tests

  function BytesAllowed(d: Dir, now: nat): nat
    requires d.start <= now
  {
    Div(Wrap(Times(d.bps, Rounded(d, now)), U64), HZ)
  }

  predicate WithinBps(d: Dir, now: nat, size: nat)
    requires d.start <= now
  {
    Wrap(d.bytesDisp + size, U64) <= BytesAllowed(d, now)
  }

  /** Jiffies until `extra` more bytes are allowed, at least one. */
  function ExtraWait(extra: nat, bps: nat): nat
    requires bps > 0
  {
    var w := Div(Wrap(Times(extra, HZ), U64), bps);
    if w == 0 then 1 else w
  }

  function BpsWait(d: Dir, now: nat, size: nat): nat
    requires d.start <= now && d.bps > 0 && !WithinBps(d, now, size)
  {
    ExtraWait(Wrap(d.bytesDisp + size, U64) - BytesAllowed(d, now), d.bps) + (Rounded(d, now) - (now - d.start))
  }

  function IoAllowed(d: Dir, now: nat): nat
    requires d.start <= now
  {
    var tmp := Div(Wrap(Times(d.iops, Rounded(d, now)), U64), HZ);
    if tmp > U32 - 1 then U32 - 1 else tmp
  }

  predicate WithinIops(d: Dir, now: nat)
    requires d.start <= now
  {
    Wrap(d.ioDisp + 1, U32) <= IoAllowed(d, now)
  }

  function IopsWait(d: Dir, now: nat): nat
    requires d.start <= now && d.iops > 0
  {
    var w := Div(Wrap(Times(Wrap(d.ioDisp + 1, U32), HZ), U32), d.iops) + 1;
    if w > now - d.start then w - (now - d.start) else 1
  }

  // ----- dispatch

  predicate NoRule(d: Dir) {
    d.bps == U64 - 1 && d.iops == U32 - 1
  }

  /** The slice that is current once tg_may_dispatch has looked at it. */
  function Renewed(d: Dir, now: nat): Dir {
    if Used(d, now) then NewSlice(d, now)
    else if d.end < now + SLICE then d.(end := RoundUp(now + SLICE))
    else d
  }

  datatype Verdict = Verdict(dir: Dir, ok: bool, wait: nat)

  /** tg_may_dispatch. */
  function MayDispatch(d: Dir, now: nat, size: nat): Verdict
    requires Sane(d)
  {
    if NoRule(d) then Verdict(d, true, 0)
    else
      var r := Renewed(d, now);
      if WithinBps(r, now, size) && WithinIops(r, now) then Verdict(r, true, 0)
      else
        var w := if WithinBps(r, now, size) then IopsWait(r, now) else BpsWait(r, now, size);
        Verdict(if r.end < now + w then r.(end := RoundUp(now + w)) else r, false, w)
  }

  /** throtl_charge_bio. */
  function Charge(d: Dir, size: nat): Dir {
    d.(bytesDisp := Wrap(d.bytesDisp + size, U64), ioDisp := Wrap(d.ioDisp + 1, U32))
  }

  function Less(a: nat, b: nat): nat {
    if a >= b then a - b else 0
  }

  /** throtl_trim_slice. */
  function Trim(d: Dir, now: nat): Dir {
    if Used(d, now) then d
    else
      var e := d.(end := RoundUp(now + SLICE));
      var nr := Div(now - d.start, SLICE);
      var bytesTrim := Div(Wrap(Times(d.bps, Times(SLICE, nr)), U64), HZ);
      var ioTrim := Div(Wrap(Times(d.iops, Times(SLICE, nr)), U64), HZ);
      if nr == 0 || (bytesTrim == 0 && ioTrim == 0) then e
      else e.(bytesDisp := Less(d.bytesDisp, bytesTrim), ioDisp := Less(d.ioDisp, ioTrim), start := d.start + Times(SLICE, nr))
  }

  // ----- what has been dispatched is paid for by time

  /** `total` units have been dispatched since `t0` at a limit of `rate` per
      second.  All but the last `disp` are paid for by the time before the
      current slice, and even those do not run ahead by more than one slice. */
  ghost predicate Paid(rate: nat, total: nat, disp: nat, start: nat, end: nat, t0: nat, last: nat) {
    && disp <= total
    && t0 <= start <= last && start <= end
    && Times(total - disp, HZ) <= Times(start - t0, rate)
    && Times(total, HZ) <= Times(end - t0, rate)
    && Times(total, HZ) <= Times(last + SLICE - t0, rate)
  }

  /** A slice that is over paid for everything dispatched in it. */
  lemma {:induction false} PaidRestart(rate: nat, total: nat, disp: nat, start: nat, end: nat, t0: nat, last: nat, now: nat)
    requires Paid(rate, total, disp, start, end, t0, last) && end < now && last <= now
    ensures Paid(rate, total, 0, now, now + SLICE, t0, now)
  {
    TimesLe(end - t0, now - t0, rate);
    TimesLe(end - t0, now + SLICE - t0, rate);
  }

  lemma {:induction false} PaidLater(rate: nat, total: nat, disp: nat, start: nat, end: nat, t0: nat, last: nat, end': nat, now: nat)
    requires Paid(rate, total, disp, start, end, t0, last) && end <= end' && last <= now
    ensures Paid(rate, total, disp, start, end', t0, now)
  {
    TimesLe(end - t0, end' - t0, rate);
    TimesLe(last + SLICE - t0, now + SLICE - t0, rate);
  }

  /** Dispatching `x` more within the allowance of the rounded slice. */
  lemma {:induction false} PaidCharge(rate: nat, total: nat, disp: nat, start: nat, end: nat, t0: nat, now: nat, x: nat, rnd: nat)
    requires Paid(rate, total, disp, start, end, t0, now)
    requires Times(disp + x, HZ) <= Times(rnd, rate) && start + rnd <= now + SLICE <= end
    ensures Paid(rate, total + x, disp + x, start, end, t0, now)
  {
    TimesSum(total - disp, disp + x, HZ);
    assert total - disp + (disp + x) == total + x && total + x - (disp + x) == total - disp;
    TimesSum(start - t0, rnd, rate);
    TimesLe(start - t0 + rnd, now + SLICE - t0, rate);
    TimesLe(now + SLICE - t0, end - t0, rate);
  }

  /** Trimming forgives no more than the time it consumes. */
  lemma {:induction false} PaidTrim(rate: nat, total: nat, disp: nat, start: nat, end: nat, t0: nat, now: nat, y: nat, span: nat, end': nat)
    requires Paid(rate, total, disp, start, end, t0, now)
    requires y <= disp && Times(y, HZ) <= Times(span, rate) && start + span <= now && now + SLICE <= end'
    ensures Paid(rate, total, disp - y, start + span, end', t0, now)
  {
    TimesSum(total - disp, y, HZ);
    assert total - disp + y == total - (disp - y);
    TimesSum(start - t0, span, rate);
    assert start - t0 + span == start + span - t0;
    TimesLe(now + SLICE - t0, end' - t0, rate);
  }

  /** The arithmetic of either test: rounding, wrap-around and the cap can only
      lower an allowance. */
  lemma {:induction false} AllowanceFits(rate: nat, rnd: nat, n: nat)
    requires n <= Div(Wrap(Times(rate, rnd), U64), HZ)
    ensures Times(n, HZ) <= Times(rnd, rate) && Times(n, HZ) < U64
  {
    TimesComm(rate, rnd);
    DivBounds(Wrap(Times(rate, rnd), U64), HZ);
    TimesLe(n, Div(Wrap(Times(rate, rnd), U64), HZ), HZ);
  }

  lemma {:induction false} ForgivenFits(rate: nat, span: nat, disp: nat)
    ensures var y := disp - Less(disp, Div(Wrap(Times(rate, span), U64), HZ));
            0 <= y <= disp && Times(y, HZ) <= Times(span, rate)
  {
    AllowanceFits(rate, span, disp - Less(disp, Div(Wrap(Times(rate, span), U64), HZ)));
  }

  ghost predicate BytesPaid(d: Dir, total: nat, t0: nat, last: nat) {
    Paid(d.bps, total, d.bytesDisp, d.start, d.end, t0, last) && Times(d.bytesDisp, HZ) < U64
  }

  ghost predicate IosPaid(d: Dir, total: nat, t0: nat, last: nat) {
    Paid(d.iops, total, d.ioDisp, d.start, d.end, t0, last)
  }

  lemma {:induction false} RenewedPaid(d: Dir, rate: nat, total: nat, disp: nat, t0: nat, last: nat, now: nat)
    requires Paid(rate, total, disp, d.start, d.end, t0, last) && last <= now
    ensures var r := Renewed(d, now);
            && Paid(rate, total, if Used(d, now) then 0 else disp, r.start, r.end, t0, now)
            && now + SLICE <= r.end
  {
    if Used(d, now) {
      PaidRestart(rate, total, disp, d.start, d.end, t0, last, now);
    } else {
      PaidLater(rate, total, disp, d.start, d.end, t0, last, Renewed(d, now).end, now);
    }
  }

  /** A look at the slice keeps the books, whatever the verdict. */
  lemma {:induction false} MayPaid(d: Dir, rate: nat, total: nat, disp: nat, t0: nat, last: nat, now: nat, size: nat)
    requires Sane(d) && !NoRule(d) && Paid(rate, total, disp, d.start, d.end, t0, last) && last <= now
    ensures var v := MayDispatch(d, now, size).dir;
            && Paid(rate, total, if Used(d, now) then 0 else disp, v.start, v.end, t0, now)
            && now + SLICE <= v.end && v.start <= now
  {
    RenewedPaid(d, rate, total, disp, t0, last, now);
    var r := Renewed(d, now);
    PaidLater(rate, total, if Used(d, now) then 0 else disp, r.start, r.end, t0, now, MayDispatch(d, now, size).dir.end, now);
  }

  /** The byte counter never wraps. */
  lemma {:induction false} BytesDontWrap(d: Dir, size: nat)
    requires Times(d.bytesDisp, HZ) < U64 && size < U32
    ensures Wrap(d.bytesDisp + size, U64) == d.bytesDisp + size
  {
    TimesComm(d.bytesDisp, HZ);
    TimesLe(2, HZ, d.bytesDisp);
    assert Times(2, d.bytesDisp) == d.bytesDisp + (d.bytesDisp + Times(0, d.bytesDisp));
  }

  lemma {:induction false} RoundSlice()
    ensures RoundUp(1) == SLICE && RoundUp(SLICE) == SLICE && RoundUp(2 * SLICE) == 2 * SLICE
  {
    assert Div(SLICE - 1, SLICE) == 0;
    assert Div(2 * SLICE - 1, SLICE) == 1 + Div(SLICE - 1, SLICE);
    assert Div(3 * SLICE - 1, SLICE) == 1 + Div(2 * SLICE - 1, SLICE);
    assert Div(SLICE, SLICE) == 1 + Div(0, SLICE);
    assert Times(1, SLICE) == SLICE + Times(0, SLICE) && Times(2, SLICE) == SLICE + Times(1, SLICE);
  }

  lemma {:induction false} RoundedLe(d: Dir, now: nat)
    requires d.start <= now
    ensures d.start + Rounded(d, now) <= now + SLICE
  {
    RoundSlice();
  }

  /** What it means to pass the tests. */
  lemma {:induction false} BpsTestFits(d: Dir, now: nat, size: nat)
    requires Times(d.bytesDisp, HZ) < U64 && size < U32 && d.start <= now && WithinBps(d, now, size)
    ensures Times(d.bytesDisp + size, HZ) <= Times(Rounded(d, now), d.bps) && Times(d.bytesDisp + size, HZ) < U64
  {
    BytesDontWrap(d, size);
    AllowanceFits(d.bps, Rounded(d, now), d.bytesDisp + size);
  }

  lemma {:induction false} IopsTestFits(d: Dir, now: nat)
    requires d.ioDisp + 1 < U32 && d.start <= now && WithinIops(d, now)
    ensures Times(d.ioDisp + 1, HZ) <= Times(Rounded(d, now), d.iops)
  {
    AllowanceFits(d.iops, Rounded(d, now), d.ioDisp + 1);
  }

  lemma {:induction false} ChargeBytes(d: Dir, bytes: nat, t0: nat, now: nat, size: nat)
    requires BytesPaid(d, bytes, t0, now) && now + SLICE <= d.end && d.start <= now
    requires size < U32 && WithinBps(d, now, size)
    ensures BytesPaid(Charge(d, size), bytes + size, t0, now)
  {
    BpsTestFits(d, now, size);
    BytesDontWrap(d, size);
    RoundedLe(d, now);
    PaidCharge(d.bps, bytes, d.bytesDisp, d.start, d.end, t0, now, size, Rounded(d, now));
  }

  lemma {:induction false} ChargeIos(d: Dir, ios: nat, t0: nat, now: nat, size: nat)
    requires IosPaid(d, ios, t0, now) && now + SLICE <= d.end && d.start <= now
    requires d.ioDisp + 1 < U32 && WithinIops(d, now)
    ensures IosPaid(Charge(d, size), ios + 1, t0, now)
  {
    IopsTestFits(d, now);
    RoundedLe(d, now);
    PaidCharge(d.iops, ios, d.ioDisp, d.start, d.end, t0, now, 1, Rounded(d, now));
  }

  lemma {:induction false} TrimPaid(d: Dir, rate: nat, total: nat, disp: nat, t0: nat, now: nat)
    requires Paid(rate, total, disp, d.start, d.end, t0, now)
    ensures !Used(d, now) ==>
              var nr := Div(now - d.start, SLICE);
              && Paid(rate, total, Less(disp, Div(Wrap(Times(rate, Times(SLICE, nr)), U64), HZ)), d.start + Times(SLICE, nr), RoundUp(now + SLICE), t0, now)
              && Paid(rate, total, disp, d.start, RoundUp(now + SLICE), t0, now)
  {
    if !Used(d, now) {
      var span := Times(SLICE, Div(now - d.start, SLICE));
      TimesComm(SLICE, Div(now - d.start, SLICE));
      DivBounds(now - d.start, SLICE);
      ForgivenFits(rate, span, disp);
      var y := disp - Less(disp, Div(Wrap(Times(rate, span), U64), HZ));
      PaidTrim(rate, total, disp, d.start, d.end, t0, now, y, span, RoundUp(now + SLICE));
      PaidTrim(rate, total, disp, d.start, d.end, t0, now, 0, 0, RoundUp(now + SLICE));
    }
  }

  /** Trim rounding never creates credit. */
  lemma {:induction false} TrimBytes(d: Dir, bytes: nat, t0: nat, now: nat)
    requires BytesPaid(d, bytes, t0, now)
    ensures BytesPaid(Trim(d, now), bytes, t0, now)
  {
    TrimPaid(d, d.bps, bytes, d.bytesDisp, t0, now);
    TimesLe(Trim(d, now).bytesDisp, d.bytesDisp, HZ);
  }

  lemma {:induction false} TrimIos(d: Dir, ios: nat, t0: nat, now: nat)
    requires IosPaid(d, ios, t0, now)
    ensures IosPaid(Trim(d, now), ios, t0, now)
  {
    TrimPaid(d, d.iops, ios, d.ioDisp, t0, now);
  }

  // ----- whole runs

  /** A look at the first bio at time `now`; with `send` it is dispatched if the
      limits allow.  blk_throtl_bio and tg_dispatch_one_bio send,
      tg_update_disptime only looks. */
  datatype Event = Event(now: nat, size: nat, send: bool)

  datatype Books = Books(dir: Dir, bytes: nat, ios: nat)

  function Step(b: Books, e: Event): Books
    requires Sane(b.dir)
  {
    var v := MayDispatch(b.dir, e.now, e.size);
    if v.ok && e.send then Books(Trim(Charge(v.dir, e.size), e.now), b.bytes + e.size, b.ios + 1)
    else b.(dir := v.dir)
  }

  lemma {:induction false} StepSane(b: Books, e: Event)
    requires Sane(b.dir)
    ensures Sane(Step(b, e).dir) && Step(b, e).dir.bps == b.dir.bps && Step(b, e).dir.iops == b.dir.iops
  {
  }

  function Run(b: Books, es: seq<Event>): Books
    requires Sane(b.dir)
    decreases |es|
  {
    if es == [] then b else StepSane(b, es[0]); Run(Step(b, es[0]), es[1..])
  }

  lemma {:induction false} RunSane(b: Books, es: seq<Event>)
    requires Sane(b.dir)
    ensures Sane(Run(b, es).dir)
    decreases |es|
  {
    if es != [] {
      StepSane(b, es[0]);
      RunSane(Step(b, es[0]), es[1..]);
    }
  }

  /** Times do not go back, and sizes are those of bios. */
  predicate Timely(es: seq<Event>, last: nat)
    decreases |es|
  {
    es == [] || (last <= es[0].now && es[0].size < U32 && Timely(es[1..], es[0].now))
  }

  function LastTime(es: seq<Event>, last: nat): nat {
    if es == [] then last else es[|es| - 1].now
  }

  /** Dispatching a bio that passed keeps the books. */
  lemma {:induction false} SendBytes(d: Dir, bytes: nat, t0: nat, now: nat, size: nat)
    requires BytesPaid(d, bytes, t0, now) && now + SLICE <= d.end && d.start <= now
    requires size < U32 && WithinBps(d, now, size)
    ensures BytesPaid(Trim(Charge(d, size), now), bytes + size, t0, now)
  {
    ChargeBytes(d, bytes, t0, now, size);
    TrimBytes(Charge(d, size), bytes + size, t0, now);
  }

  lemma {:induction false} SendIos(d: Dir, ios: nat, t0: nat, now: nat, size: nat)
    requires IosPaid(d, ios, t0, now) && now + SLICE <= d.end && d.start <= now
    requires d.ioDisp + 1 < U32 && WithinIops(d, now)
    ensures IosPaid(Trim(Charge(d, size), now), ios + 1, t0, now)
  {
    ChargeIos(d, ios, t0, now, size);
    TrimIos(Charge(d, size), ios + 1, t0, now);
  }

  /** The verdict's direction: the limits stay, a fresh slice has dispatched nothing,
      and a bio that may go is within both limits. */
  lemma {:induction false} VerdictIs(d: Dir, now: nat, size: nat)
    requires Sane(d) && !NoRule(d) && (d.start <= now || Used(d, now))
    ensures var v := MayDispatch(d, now, size);
            && v.dir.bps == d.bps && v.dir.iops == d.iops && v.dir.start <= now
            && v.dir.bytesDisp == (if Used(d, now) then 0 else d.bytesDisp)
            && v.dir.ioDisp == (if Used(d, now) then 0 else d.ioDisp)
            && (v.ok ==> WithinBps(v.dir, now, size) && WithinIops(v.dir, now))
  {
  }

  lemma {:induction false} StepBytes(b: Books, e: Event, t0: nat, last: nat)
    requires Sane(b.dir) && !NoRule(b.dir) && last <= e.now && e.size < U32
    requires BytesPaid(b.dir, b.bytes, t0, last)
    ensures BytesPaid(Step(b, e).dir, Step(b, e).bytes, t0, e.now)
  {
    MayPaid(b.dir, b.dir.bps, b.bytes, b.dir.bytesDisp, t0, last, e.now, e.size);
    VerdictIs(b.dir, e.now, e.size);
    var v := MayDispatch(b.dir, e.now, e.size);
    assert BytesPaid(v.dir, b.bytes, t0, e.now);
    if v.ok && e.send {
      SendBytes(v.dir, b.bytes, t0, e.now, e.size);
    }
  }

  // ----- the bio counter never wraps

  /** What the counter can reach: one slice's allowance and one more. */
  function IoPeak(iops: nat): nat {
    Div(Times(iops, SLICE), HZ) + 1
  }

  ghost predicate BelowPeak(d: Dir) {
    d.ioDisp <= IoPeak(d.iops)
  }

  /** A slice is less than half a second. */
  lemma {:induction false} HalfAtMost(iops: nat)
    ensures 2 * Div(Times(iops, SLICE), HZ) <= iops
  {
    var q := Div(Times(iops, SLICE), HZ);
    DivBounds(Times(iops, SLICE), HZ);
    TimesSum(q, q, HZ);
    TimesComm(iops, SLICE);
    TimesSum(SLICE, SLICE, iops);
    TimesLe(SLICE + SLICE, HZ, iops);
    TimesComm(HZ, iops);
    assert Times(iops + 1, HZ) == HZ + Times(iops, HZ);
    if 2 * q > iops { TimesLe(iops + 1, q + q, HZ); }
  }

  lemma {:induction false} PeakFits(iops: nat)
    requires iops < U32
    ensures IoPeak(iops) + 1 < U32
  {
    HalfAtMost(iops);
  }

  /** The rounded time is the whole slices elapsed, or one more. */
  lemma {:induction false} RoundedIs(d: Dir, now: nat)
    requires d.start <= now
    ensures var nr := Div(now - d.start, SLICE);
            Rounded(d, now) == Times(nr, SLICE) || Rounded(d, now) == Times(nr, SLICE) + SLICE
  {
    var nr := Div(now - d.start, SLICE);
    var x := if now == d.start then SLICE else now - d.start;
    var k := Div(x + SLICE - 1, SLICE);
    DivBounds(now - d.start, SLICE);
    DivBounds(x + SLICE - 1, SLICE);
    TimesSum(nr, 1, SLICE);
    TimesSum(nr, 2, SLICE);
    assert Times(1, SLICE) == SLICE + Times(0, SLICE) && Times(2, SLICE) == SLICE + Times(1, SLICE);
    if k < nr { TimesLe(k + 1, nr, SLICE); TimesSum(k, 1, SLICE); }
    if k > nr + 1 { TimesLe(nr + 2, k, SLICE); }
  }

  /** What the test lets through and what trimming takes off again differ by no more
      than one slice's allowance and one. */
  lemma {:induction false} AllowedLessTrim(d: Dir, now: nat)
    requires d.start <= now
    ensures var span := Times(SLICE, Div(now - d.start, SLICE));
            Div(Wrap(Times(d.iops, Rounded(d, now)), U64), HZ)
            <= Div(Wrap(Times(d.iops, span), U64), HZ) + IoPeak(d.iops)
  {
    var nr := Div(now - d.start, SLICE);
    RoundedIs(d, now);
    TimesComm(SLICE, nr);
    OneMoreSlice(d.iops, Times(SLICE, nr));
  }

  lemma {:induction false} OneMoreSlice(iops: nat, span: nat)
    ensures Div(Wrap(Times(iops, span + SLICE), U64), HZ) <= Div(Wrap(Times(iops, span), U64), HZ) + IoPeak(iops)
  {
    var a, b := Times(iops, span), Times(iops, SLICE);
    TimesComm(iops, span);
    TimesComm(iops, span + SLICE);
    TimesComm(iops, SLICE);
    TimesSum(span, SLICE, iops);
    WrapSum(a, b, U64);
    DivLe(Wrap(a + b, U64), HZ, Wrap(a, U64) + b);
    DivSum(Wrap(a, U64), b, HZ);
  }

  lemma {:induction false} SendBelowPeak(d: Dir, now: nat, size: nat)
    requires Sane(d) && BelowPeak(d) && d.start <= now <= d.end && WithinIops(d, now)
    ensures BelowPeak(Trim(Charge(d, size), now))
  {
    AllowedLessTrim(d, now);
    PeakFits(d.iops);
    if Div(now - d.start, SLICE) == 0 { ZeroSpan(d.iops); }
  }

  lemma {:induction false} ZeroSpan(iops: nat)
    ensures Times(SLICE, 0) == 0 && Times(iops, 0) == 0
  {
    TimesComm(SLICE, 0);
    TimesComm(iops, 0);
  }

  lemma {:induction false} StepBelowPeak(b: Books, e: Event)
    requires Sane(b.dir) && !NoRule(b.dir) && BelowPeak(b.dir) && b.dir.start <= e.now
    ensures BelowPeak(Step(b, e).dir)
  {
    VerdictIs(b.dir, e.now, e.size);
    var v := MayDispatch(b.dir, e.now, e.size);
    if v.ok && e.send {
      SendBelowPeak(v.dir, e.now, e.size);
    }
  }

  lemma {:induction false} StepIos(b: Books, e: Event, t0: nat, last: nat)
    requires Sane(b.dir) && !NoRule(b.dir) && last <= e.now
    requires IosPaid(b.dir, b.ios, t0, last) && BelowPeak(b.dir)
    ensures IosPaid(Step(b, e).dir, Step(b, e).ios, t0, e.now)
  {
    MayPaid(b.dir, b.dir.iops, b.ios, b.dir.ioDisp, t0, last, e.now, e.size);
    VerdictIs(b.dir, e.now, e.size);
    var v := MayDispatch(b.dir, e.now, e.size);
    assert IosPaid(v.dir, b.ios, t0, e.now);
    PeakFits(b.dir.iops);
    if v.ok && e.send {
      SendIos(v.dir, b.ios, t0, e.now, e.size);
    }
  }

  lemma {:induction false} RunBytes(b: Books, es: seq<Event>, t0: nat, last: nat)
    requires Sane(b.dir) && !NoRule(b.dir) && Timely(es, last) && BytesPaid(b.dir, b.bytes, t0, last)
    ensures BytesPaid(Run(b, es).dir, Run(b, es).bytes, t0, LastTime(es, last))
    ensures Run(b, es).dir.bps == b.dir.bps
    decreases |es|
  {
    if es != [] {
      StepBytes(b, es[0], t0, last);
      StepSane(b, es[0]);
      RunBytes(Step(b, es[0]), es[1..], t0, es[0].now);
    }
  }

  lemma {:induction false} RunIos(b: Books, es: seq<Event>, t0: nat, last: nat)
    requires Sane(b.dir) && !NoRule(b.dir) && Timely(es, last)
    requires IosPaid(b.dir, b.ios, t0, last) && BelowPeak(b.dir)
    ensures IosPaid(Run(b, es).dir, Run(b, es).ios, t0, LastTime(es, last)) && BelowPeak(Run(b, es).dir)
    ensures Run(b, es).dir.iops == b.dir.iops
    decreases |es|
  {
    if es != [] {
      StepIos(b, es[0], t0, last);
      StepBelowPeak(b, es[0]);
      StepSane(b, es[0]);
      RunIos(Step(b, es[0]), es[1..], t0, es[0].now);
    }
  }

  lemma {:induction false} FreshPaid(rate: nat, t0: nat)
    ensures Paid(rate, 0, 0, t0, t0 + SLICE, t0, t0)
  {
    assert Times(0, HZ) == 0;
  }

  /** The rate bound over whole runs: whatever happened since the first slice
      began at `t0`, the bytes dispatched never exceed the limit over the time
      elapsed plus one slice. */
  lemma {:induction false} ByteRate(d: Dir, t0: nat, es: seq<Event>)
    requires Sane(d) && (d.bps != U64 - 1 || d.iops != U32 - 1) && d == NewSlice(d, t0) && Timely(es, t0)
    ensures Run(Books(d, 0, 0), es).bytes * HZ <= (LastTime(es, t0) + SLICE - t0) * d.bps
  {
    FreshPaid(d.bps, t0);
    RunBytes(Books(d, 0, 0), es, t0, t0);
    TimesLeIs(Run(Books(d, 0, 0), es).bytes, HZ, LastTime(es, t0) + SLICE - t0, d.bps);
  }

  /** The same for bios. */
  lemma {:induction false} IoRate(d: Dir, t0: nat, es: seq<Event>)
    requires Sane(d) && (d.bps != U64 - 1 || d.iops != U32 - 1) && d == NewSlice(d, t0) && Timely(es, t0)
    ensures Run(Books(d, 0, 0), es).ios * HZ <= (LastTime(es, t0) + SLICE - t0) * d.iops
  {
    FreshPaid(d.iops, t0);
    RunIos(Books(d, 0, 0), es, t0, t0);
    TimesLeIs(Run(Books(d, 0, 0), es).ios, HZ, LastTime(es, t0) + SLICE - t0, d.iops);
  }

  /** In no run does the 32-bit bio counter wrap, however long the run is: a slice is
      trimmed before it gets near. */
  lemma {:induction false} CounterNeverWraps(d: Dir, t0: nat, es: seq<Event>)
    requires Sane(d) && (d.bps != U64 - 1 || d.iops != U32 - 1) && d == NewSlice(d, t0) && Timely(es, t0)
    ensures Run(Books(d, 0, 0), es).dir.ioDisp <= d.iops * SLICE / HZ + 1 < U32 - 1
  {
    FreshPaid(d.iops, t0);
    RunIos(Books(d, 0, 0), es, t0, t0);
    TimesIs(d.iops, SLICE);
    DivIs(d.iops * SLICE, HZ);
    PeakFits(d.iops);
  }
}
