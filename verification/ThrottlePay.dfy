/** What the bookkeeping of one direction guarantees, step by step: whatever was paid for
    before a step is paid for after it, with what the step let go. */
module ThrottlePay {
  import opened Arith
  import opened Jiffies
  import opened Throttle

  /** `bytes` and `ios` have been dispatched since `t0`, the last at `last`, within the limits. */
  ghost predicate Paying(d: Dir, bytes: nat, ios: nat, t0: nat, last: nat) {
    && Sane(d)
    && (NoRule(d) || (BytesPaid(d, bytes, t0, last) && IosPaid(d, ios, t0, last) && BelowPeak(d)))
  }

  /** From `d` to `e` at time `now`, letting `bytes` and `ios` go. */
  ghost predicate PaysFor(d: Dir, e: Dir, bytes: nat, ios: nat, now: nat) {
    && e.bps == d.bps && e.iops == d.iops
    && forall b: nat, i: nat, t0: nat, last: nat {:trigger Paying(d, b, i, t0, last)} ::
         Paying(d, b, i, t0, last) && last <= now ==> Paying(e, b + bytes, i + ios, t0, now)
  }

  /** One event of a run. */
  lemma {:induction false} StepPays(d: Dir, now: nat, size: nat, send: bool)
    requires Sane(d) && size < U32
    ensures var s := Step(Books(d, 0, 0), Event(now, size, send));
            PaysFor(d, s.dir, s.bytes, s.ios, now) == true && Sane(s.dir)
  {
    var s := Step(Books(d, 0, 0), Event(now, size, send));
    StepSane(Books(d, 0, 0), Event(now, size, send));
    EachPays(d, now, size, send, s.dir, s.bytes, s.ios);
  }

  lemma {:induction false} EachPays(d: Dir, now: nat, size: nat, send: bool, e: Dir, bytes: nat, ios: nat)
    requires Sane(d) && size < U32 && Step(Books(d, 0, 0), Event(now, size, send)) == Books(e, bytes, ios)
    ensures forall b: nat, i: nat, t0: nat, last: nat {:trigger Paying(d, b, i, t0, last)} ::
              Paying(d, b, i, t0, last) && last <= now ==> Paying(e, b + bytes, i + ios, t0, now)
  {
    forall b: nat, i: nat, t0: nat, last: nat | Paying(d, b, i, t0, last) == true && last <= now
      ensures Paying(e, b + bytes, i + ios, t0, now) == true
    {
      OnePays(d, now, size, send, b, i, t0, last);
    }
  }

  lemma {:induction false} OnePays(d: Dir, now: nat, size: nat, send: bool, b: nat, i: nat, t0: nat, last: nat)
    requires Sane(d) && size < U32 && Paying(d, b, i, t0, last) == true && last <= now
    ensures var s := Step(Books(d, 0, 0), Event(now, size, send));
            Paying(s.dir, b + s.bytes, i + s.ios, t0, now) == true
  {
    StepSane(Books(d, 0, 0), Event(now, size, send));
    if !NoRule(d) {
      StepPaying(Books(d, b, i), Event(now, size, send), t0, last);
    }
  }

  lemma {:induction false} StepPaying(b: Books, e: Event, t0: nat, last: nat)
    requires Paying(b.dir, b.bytes, b.ios, t0, last) && !NoRule(b.dir) && last <= e.now && e.size < U32
    ensures var s, z := Step(b, e), Step(Books(b.dir, 0, 0), e);
            && s == Books(z.dir, b.bytes + z.bytes, b.ios + z.ios)
            && Paying(s.dir, s.bytes, s.ios, t0, e.now) == true
  {
    StepSane(b, e);
    StepBytes(b, e, t0, last);
    StepIos(b, e, t0, last);
    StepBelowPeak(b, e);
  }

  lemma {:induction false} PaysSelf(d: Dir, now: nat)
    ensures PaysFor(d, d, 0, 0, now) == true
  {
    forall b: nat, i: nat, t0: nat, last: nat | Paying(d, b, i, t0, last) && last <= now
      ensures Paying(d, b, i, t0, now) == true
    {
      if !NoRule(d) {
        PaidLater(d.bps, b, d.bytesDisp, d.start, d.end, t0, last, d.end, now);
        PaidLater(d.iops, i, d.ioDisp, d.start, d.end, t0, last, d.end, now);
      }
    }
  }

  lemma {:induction false} PaysThen(d: Dir, e: Dir, f: Dir, b: nat, i: nat, c: nat, j: nat, now: nat)
    requires PaysFor(d, e, b, i, now) == true && PaysFor(e, f, c, j, now) == true
    ensures PaysFor(d, f, b + c, i + j, now) == true
  {
    forall x: nat, y: nat, t0: nat, last: nat | Paying(d, x, y, t0, last) && last <= now
      ensures Paying(f, x + (b + c), y + (i + j), t0, now) == true
    {
      assert Paying(e, x + b, y + i, t0, now);
      assert x + b + c == x + (b + c) && y + i + j == y + (i + j);
    }
  }

  /** A slice that has just begun owes nothing. */
  lemma {:induction false} FreshPaying(d: Dir, t0: nat)
    requires Sane(d) && d == NewSlice(d, t0)
    ensures Paying(d, 0, 0, t0, t0) == true
  {
    FreshPaid(d.bps, t0);
    FreshPaid(d.iops, t0);
  }

  /** The bound that paying for everything amounts to. */
  lemma {:induction false} PayingBound(d: Dir, bytes: nat, ios: nat, t0: nat, last: nat)
    requires Paying(d, bytes, ios, t0, last) && !NoRule(d)
    ensures t0 <= last
    ensures bytes * HZ <= (last + SLICE - t0) * d.bps && ios * HZ <= (last + SLICE - t0) * d.iops
  {
    TimesLeIs(bytes, HZ, last + SLICE - t0, d.bps);
    TimesLeIs(ios, HZ, last + SLICE - t0, d.iops);
  }
}
