/** Trimming takes no credit away: the counters of a slice that is in use stay within one
    slice's allowance, what is taken off them is worth the time taken off the slice, and a
    direction that has been idle starts afresh. */
module ThrottleCredit {
  import opened Arith
  import opened Jiffies
  import opened Throttle

  // ----- the byte counter

  /** One slice's allowance and one more. */
  ghost predicate BytesBelowPeak(d: Dir) {
    d.bytesDisp <= IoPeak(d.bps)
  }

  lemma {:induction false} BytesLessTrim(d: Dir, now: nat)
    requires d.start <= now
    ensures var span := Times(SLICE, Div(now - d.start, SLICE));
            BytesAllowed(d, now) <= Div(Wrap(Times(d.bps, span), U64), HZ) + IoPeak(d.bps)
  {
    var nr := Div(now - d.start, SLICE);
    RoundedIs(d, now);
    TimesComm(SLICE, nr);
    OneMoreSlice(d.bps, Times(SLICE, nr));
  }

  /** What the test lets through and trimming takes off differ by no more than one slice's
      allowance and one, for bytes as for bios. */
  lemma {:induction false} SendBytesBelowPeak(d: Dir, now: nat, size: nat)
    requires BytesBelowPeak(d) && d.start <= now <= d.end && WithinBps(d, now, size)
    ensures BytesBelowPeak(Trim(Charge(d, size), now))
  {
    BytesLessTrim(d, now);
    if Div(now - d.start, SLICE) == 0 { ZeroSpan(d.bps); }
  }

  lemma {:induction false} StepBytesBelowPeak(b: Books, e: Event)
    requires Sane(b.dir) && !NoRule(b.dir) && BytesBelowPeak(b.dir) && b.dir.start <= e.now
    ensures BytesBelowPeak(Step(b, e).dir)
  {
    VerdictIs(b.dir, e.now, e.size);
    var v := MayDispatch(b.dir, e.now, e.size);
    if v.ok && e.send {
      SendBytesBelowPeak(v.dir, e.now, e.size);
    }
  }

  lemma {:induction false} RunBytesBelowPeak(b: Books, es: seq<Event>, t0: nat, last: nat)
    requires Sane(b.dir) && !NoRule(b.dir) && Timely(es, last) && BytesPaid(b.dir, b.bytes, t0, last)
    requires BytesBelowPeak(b.dir)
    ensures BytesBelowPeak(Run(b, es).dir) && Run(b, es).dir.bps == b.dir.bps
    decreases |es|
  {
    if es != [] {
      StepBytes(b, es[0], t0, last);
      StepBytesBelowPeak(b, es[0]);
      StepSane(b, es[0]);
      RunBytesBelowPeak(Step(b, es[0]), es[1..], t0, es[0].now);
    }
  }

  /** In no run does the byte counter exceed one slice's allowance plus one, however long
      the run is. */
  lemma {:induction false} ByteCounterPeak(d: Dir, t0: nat, es: seq<Event>)
    requires Sane(d) && (d.bps != U64 - 1 || d.iops != U32 - 1) && d == NewSlice(d, t0) && Timely(es, t0)
    ensures Run(Books(d, 0, 0), es).dir.bytesDisp <= d.bps * SLICE / HZ + 1
  {
    FreshPaid(d.bps, t0);
    RunBytesBelowPeak(Books(d, 0, 0), es, t0, t0);
    TimesIs(d.bps, SLICE);
    DivIs(d.bps * SLICE, HZ);
  }

  // ----- what is taken off

  /** Taking `disp - left` off the counter for `span` jiffies of time at `rate` gives full
      value: to within one unit, unless nothing is left to take off. */
  ghost predicate FullValue(rate: nat, span: nat, disp: nat, left: nat) {
    left <= disp && (left == 0 || Times(disp - left + 1, HZ) > Times(span, rate))
  }

  lemma {:induction false} ForgivenExact(rate: nat, span: nat, disp: nat)
    ensures var left := Less(disp, Div(Wrap(Times(rate, span), U64), HZ));
            FullValue(rate, span, disp, left) <==> left == 0 || Times(rate, span) < U64
  {
    var p := Times(rate, span);
    var y := Div(Wrap(p, U64), HZ);
    TimesComm(rate, span);
    DivBounds(Wrap(p, U64), HZ);
    WrapDown(p);
    TimesSum(y, 1, HZ);
    assert Times(1, HZ) == HZ + Times(0, HZ);
  }

  lemma {:induction false} WrapDown(p: nat)
    ensures if p < U64 then Wrap(p, U64) == p else Wrap(p, U64) <= p - U64
  {
  }

  lemma {:induction false} TrimMoves(d: Dir, now: nat)
    requires !Used(d, now)
    ensures var e, span := Trim(d, now), Times(SLICE, Div(now - d.start, SLICE));
            && (e.start == d.start || e.start == d.start + span)
            && (e.start == d.start ==> e.bytesDisp == d.bytesDisp && e.ioDisp == d.ioDisp)
            && (e.start != d.start ==>
                  && e.bytesDisp == Less(d.bytesDisp, Div(Wrap(Times(d.bps, span), U64), HZ))
                  && e.ioDisp == Less(d.ioDisp, Div(Wrap(Times(d.iops, span), U64), HZ)))
  {
  }

  lemma {:induction false} NoSpan(rate: nat, disp: nat)
    ensures FullValue(rate, 0, disp, disp) && Times(rate, 0) == 0
  {
    TimesComm(rate, 0);
    assert Times(1, HZ) == HZ + Times(0, HZ);
  }

  /** Trimming gives full value, for bytes and for bios, if and only if the counter is used up
      or the product of the limit and the time taken off fits in 64 bits. */
  lemma {:induction false} TrimExact(d: Dir, now: nat)
    requires !Used(d, now)
    ensures var e := Trim(d, now);
            && d.start <= e.start <= now
            && (FullValue(d.bps, e.start - d.start, d.bytesDisp, e.bytesDisp)
                <==> e.bytesDisp == 0 || Times(d.bps, e.start - d.start) < U64)
            && (FullValue(d.iops, e.start - d.start, d.ioDisp, e.ioDisp)
                <==> e.ioDisp == 0 || Times(d.iops, e.start - d.start) < U64)
  {
    var span := Times(SLICE, Div(now - d.start, SLICE));
    TimesComm(SLICE, Div(now - d.start, SLICE));
    DivBounds(now - d.start, SLICE);
    TrimMoves(d, now);
    NoSpan(d.bps, d.bytesDisp);
    NoSpan(d.iops, d.ioDisp);
    ForgivenExact(d.bps, span, d.bytesDisp);
    ForgivenExact(d.iops, span, d.ioDisp);
  }

  lemma {:induction false} WholeWords(k: nat, u: nat)
    requires u > 0
    ensures Wrap(Times(k, u), u) == 0
  {
    if k > 0 { WholeWords(k - 1, u); }
  }

  lemma {:induction false} HalfWords(k: nat, h: nat)
    requires h > 0
    ensures Wrap(Times(h, k + k), h + h) == 0
  {
    TimesComm(h, k + k);
    TimesTwice(k, h);
    WholeWords(k, h + h);
  }

  lemma {:induction false} AtLeastOnce(k: nat, h: nat)
    requires k > 0
    ensures Times(k, h) >= h
  {
    assert Times(k, h) == h + Times(k - 1, h);
  }

  /** A limit of 2^63 bytes a second: two slices of time are taken off, and no byte. */
  lemma {:induction false} TrimWraps()
    ensures var d := Dir(U64 / 2, HZ, 1, 0, 0, 2 * SLICE);
            var e := Trim(d, 2 * SLICE);
            e.start == 2 * SLICE && e.bytesDisp == 1 && !FullValue(d.bps, 2 * SLICE, 1, e.bytesDisp)
  {
    TwoSlices();
    HalfWord();
    SomeIos();
    assert Times(1, HZ) == HZ + Times(0, HZ);
    assert Div(0, HZ) == 0;
  }

  lemma {:induction false} TwoSlices()
    ensures Div(2 * SLICE, SLICE) == 2 && Times(SLICE, 2) == 2 * SLICE
  {
    assert Div(2 * SLICE, SLICE) == 1 + Div(SLICE, SLICE) && Div(SLICE, SLICE) == 1 + Div(0, SLICE);
    TimesIs(SLICE, 2);
  }

  lemma {:induction false} HalfWord()
    ensures Wrap(Times(U64 / 2, 2 * SLICE), U64) == 0 && Times(2 * SLICE, U64 / 2) > HZ
  {
    HalfWords(SLICE, U64 / 2);
    AtLeastOnce(2 * SLICE, U64 / 2);
  }

  lemma {:induction false} TimesTwice(a: nat, b: nat)
    ensures Times(a + a, b) == Times(a, b + b)
  {
    if a > 0 {
      TimesTwice(a - 1, b);
      assert Times(a + a, b) == b + Times(a + a - 1, b) && Times(a + a - 1, b) == b + Times(a - 1 + (a - 1), b);
    }
  }

  lemma {:induction false} SomeIos()
    ensures Div(Wrap(Times(HZ, 2 * SLICE), U64), HZ) > 0
  {
    TimesIs(HZ, 2 * SLICE);
    TimesIs(1000, 200);
    TimesComm(HZ, 2 * SLICE);
    TimesLe(1, 2 * SLICE, HZ);
    TimesLe(2 * SLICE, 200, HZ);
    TimesIs(200, HZ);
    assert Times(1, HZ) == HZ + Times(0, HZ);
    DivGe(Times(HZ, 2 * SLICE), HZ, 1);
  }

  // ----- idle directions and directions without limits

  /** Without limits every bio goes, and no books are kept. */
  lemma {:induction false} Unlimited(b: Books, es: seq<Event>)
    requires Sane(b.dir) && b.dir.bps == U64 - 1 && b.dir.iops == U32 - 1 && forall i :: 0 <= i < |es| ==> es[i].send
    ensures Run(b, es).ios == b.ios + |es|
    decreases |es|
  {
    if es != [] {
      StepSane(b, es[0]);
      Unlimited(Step(b, es[0]), es[1..]);
    }
  }

  /** A dispatch leaves the slice with one to two slices of time to go. */
  lemma {:induction false} TrimEnds(d: Dir, now: nat)
    requires !Used(d, now)
    ensures now + SLICE <= Trim(d, now).end < now + 2 * SLICE
  {
  }

  /** When nothing is looked at for two slices after a dispatch, the next look starts a new
      slice: nothing that was dispatched before counts any more. */
  lemma {:induction false} IdleStartsAfresh(d: Dir, now: nat, later: nat, size: nat)
    requires Sane(d) && !NoRule(d) && !Used(d, now) && later >= now + 2 * SLICE
    ensures Sane(Trim(d, now))
    ensures var v := MayDispatch(Trim(d, now), later, size).dir;
            v.start == later && v.bytesDisp == 0 && v.ioDisp == 0
  {
    TrimEnds(d, now);
  }
}
