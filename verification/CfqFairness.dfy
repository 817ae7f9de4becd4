/** Fairness between CFQ's groups, over every run in which groups are picked by
    cfq_get_next_cfqg only. */
module CfqFairness {
  import opened Arith
  import opened CfqGroups
  import opened Options

  /** The group tree and the group being served. */
  datatype State = State(t: Tree, serving: Option<Id>)

  datatype Step =
    | Pick                           // cfq_choose_cfqg
    | Serve(charge: nat)             // the slice of the serving group expires
    | Join(g: Id)                    // a queue of the group becomes busy
    | Leave(g: Id)                   // a queue of the group has no more requests
    | Reweigh(g: Id, w: Weight)      // a new weight is asked for

  ghost predicate Inv(s: State) {
    && Valid(s.t)
    && (s.serving.Some? ==> s.serving.value in s.t.order)
    && (s.serving.Some? ==> forall h :: h in s.t.order ==>
          s.t.groups[s.serving.value].vdisktime <= s.t.groups[h].vdisktime)
  }

  ghost predicate Enabled(s: State, st: Step) {
    match st
    case Pick => true
    case Serve(_) => s.serving.Some?
    case Join(g) => g in s.t.groups
    case Leave(g) => g in s.t.groups && s.t.groups[g].nrCfqq >= 1
    case Reweigh(g, _) => g in s.t.groups
  }

  ghost function Next(s: State, st: Step): State
    requires Inv(s) && Enabled(s, st)
  {
    match st
    case Pick => State(GetNextGroup(s.t).1, GetNextGroup(s.t).0)
    case Serve(charge) => State(GroupServed(s.t, s.serving.value, charge), None)
    case Join(g) => s.(t := NotifyQueueAdd(s.t, g))
    case Leave(g) =>
      var t := NotifyQueueDel(s.t, g);
      State(t, if s.serving == Some(g) && g !in t.order then None else s.serving)
    case Reweigh(g, w) => s.(t := Changed(s.t, g, s.t.groups[g].(pending := Some(w))))
  }

  lemma {:induction false} NextValid(s: State, st: Step)
    requires Inv(s) && Enabled(s, st)
    ensures Valid(Next(s, st).t)
  {
    match st
    case Pick => GetNextGroupValid(s.t);
    case Serve(charge) => GroupServedValid(s.t, s.serving.value, charge);
    case Join(g) => NotifyQueueAddValid(s.t, g);
    case Leave(g) => NotifyQueueDelValid(s.t, g);
    case Reweigh(g, w) => ChangedSorted(s.t, g, s.t.groups[g].(pending := Some(w)));
  }

  /** How far a group on the tree before and after moves. */
  ghost function Moved(s: State, st: Step, g: Id): nat
    requires g in s.t.groups
  {
    if st.Serve? && s.serving == Some(g) then ScaleSlice(st.charge, s.t.groups[g].weight) else 0
  }

  lemma {:induction false} NextMoves(s: State, st: Step, g: Id)
    requires Inv(s) && Enabled(s, st) && g in s.t.order && g in Next(s, st).t.order
    ensures g in Next(s, st).t.groups
    ensures Next(s, st).t.groups[g].vdisktime == s.t.groups[g].vdisktime + Moved(s, st, g)
  {
  }

  /** A newcomer goes behind every group on the tree. */
  lemma {:induction false} NewcomerIsLast(t: Tree, g: Id)
    requires Valid(t) && g in t.groups && g !in t.order
    ensures forall h :: h in t.order ==> t.groups[h].vdisktime <= Joined(t, g).vdisktime
    ensures g in NotifyQueueAdd(t, g).groups
    ensures NotifyQueueAdd(t, g).groups[g].vdisktime == Joined(t, g).vdisktime
  {
    forall h | h in t.order ensures t.groups[h].vdisktime <= Joined(t, g).vdisktime {
      var i :| 0 <= i < |t.order| && t.order[i] == h;
      assert i == |t.order| - 1 || i < |t.order| - 1;
    }
  }

  lemma {:induction false} JoinKeepsServing(s: State, g: Id)
    requires Inv(s) && g in s.t.groups
    ensures Inv(Next(s, Join(g)))
  {
    var n := Next(s, Join(g));
    NextValid(s, Join(g));
    if s.serving.Some? {
      forall h | h in n.t.order
        ensures n.t.groups[s.serving.value].vdisktime <= n.t.groups[h].vdisktime
      {
        NextMoves(s, Join(g), s.serving.value);
        if h in s.t.order { NextMoves(s, Join(g), h); } else { NewcomerIsLast(s.t, g); }
      }
    }
  }

  /** The serving group has the least virtual time until it is served. */
  lemma {:induction false} NextInv(s: State, st: Step)
    requires Inv(s) && Enabled(s, st)
    ensures Inv(Next(s, st))
  {
    NextValid(s, st);
    match st
    case Pick => GetNextGroupValid(s.t);
    case Serve(charge) =>
    case Join(g) => JoinKeepsServing(s, g);
    case Leave(g) =>
    case Reweigh(g, w) =>
  }

  // ----- runs

  /** A run in which `a` and `b` stay on the tree with fixed weights, and no
      charge exceeds `maxCharge`. */
  ghost predicate Run(s: State, steps: seq<Step>, a: Id, b: Id, maxCharge: nat)
    requires Inv(s)
    decreases |steps|
  {
    && OnTree(s, a) && OnTree(s, b)
    && (steps != [] ==>
          && Enabled(s, steps[0])
          && (steps[0].Serve? ==> steps[0].charge <= maxCharge)
          && (NextInv(s, steps[0]); Run(Next(s, steps[0]), steps[1..], a, b, maxCharge)))
  }

  /** On the tree, and no new weight asked for. */
  ghost predicate OnTree(s: State, g: Id) {
    g in s.t.order && g in s.t.groups && s.t.groups[g].pending.None?
  }

  ghost function Final(s: State, steps: seq<Step>, a: Id, b: Id, maxCharge: nat): State
    requires Inv(s) && Run(s, steps, a, b, maxCharge)
    decreases |steps|
  {
    if steps == [] then s
    else NextInv(s, steps[0]); Final(Next(s, steps[0]), steps[1..], a, b, maxCharge)
  }

  /** The virtual time that group `g` is charged in a run. */
  ghost function Service(s: State, steps: seq<Step>, a: Id, b: Id, maxCharge: nat, g: Id): nat
    requires Inv(s) && Run(s, steps, a, b, maxCharge) && (g == a || g == b)
    decreases |steps|
  {
    if steps == [] then 0
    else
      NextInv(s, steps[0]);
      Moved(s, steps[0], g) + Service(Next(s, steps[0]), steps[1..], a, b, maxCharge, g)
  }

  ghost function Gap(s: State, a: Id, b: Id): nat
    requires a in s.t.groups && b in s.t.groups
  {
    var va, vb := s.t.groups[a].vdisktime, s.t.groups[b].vdisktime;
    if va <= vb then vb - va else va - vb
  }

  lemma {:induction false} ScaleMonotone(c: nat, d: nat, w: Weight)
    requires c <= d
    ensures ScaleSlice(c, w) <= ScaleSlice(d, w)
  {
    DivBounds(c * CFQ_SERVICE_SCALE * BLKIO_WEIGHT_DEFAULT, w);
    DivGe(d * CFQ_SERVICE_SCALE * BLKIO_WEIGHT_DEFAULT, w, ScaleSlice(c, w));
  }

  lemma {:induction false} WeightKept(s: State, st: Step, g: Id)
    requires Inv(s) && Enabled(s, st) && OnTree(s, g) && OnTree(Next(s, st), g)
    ensures Next(s, st).t.groups[g].weight == s.t.groups[g].weight
  {
  }

  /** One step does not take the two groups further apart than the bound. */
  lemma {:induction false} StepFair(s: State, st: Step, a: Id, b: Id, maxCharge: nat, bound: nat)
    requires Inv(s) && Enabled(s, st) && OnTree(s, a) && OnTree(s, b)
    requires OnTree(Next(s, st), a) && OnTree(Next(s, st), b)
    requires st.Serve? ==> st.charge <= maxCharge
    requires ScaleSlice(maxCharge, s.t.groups[a].weight) <= bound
    requires ScaleSlice(maxCharge, s.t.groups[b].weight) <= bound
    requires Gap(s, a, b) <= bound
    ensures Gap(Next(s, st), a, b) <= bound
  {
    NextMoves(s, st, a);
    NextMoves(s, st, b);
    if st.Serve? {
      ScaleMonotone(st.charge, maxCharge, s.t.groups[a].weight);
      ScaleMonotone(st.charge, maxCharge, s.t.groups[b].weight);
    }
  }

  lemma {:induction false} RunFair(s: State, steps: seq<Step>, a: Id, b: Id, maxCharge: nat, bound: nat)
    requires Inv(s) && Run(s, steps, a, b, maxCharge)
    requires ScaleSlice(maxCharge, s.t.groups[a].weight) <= bound
    requires ScaleSlice(maxCharge, s.t.groups[b].weight) <= bound
    requires Gap(s, a, b) <= bound
    ensures var f := Final(s, steps, a, b, maxCharge);
            OnTree(f, a) && OnTree(f, b) && Gap(f, a, b) <= bound
    decreases |steps|
  {
    if steps != [] {
      var n := Next(s, steps[0]);
      NextInv(s, steps[0]);
      StepFair(s, steps[0], a, b, maxCharge, bound);
      WeightKept(s, steps[0], a);
      WeightKept(s, steps[0], b);
      RunFair(n, steps[1..], a, b, maxCharge, bound);
    }
  }

  function Max(x: nat, y: nat): nat {
    if x >= y then x else y
  }

  /** Two groups on the tree throughout differ by at most the larger of their
      first gap and one maximal scaled charge. */
  lemma {:induction false} GroupFairness(s: State, steps: seq<Step>, a: Id, b: Id, maxCharge: nat)
    requires Inv(s) && Run(s, steps, a, b, maxCharge)
    ensures var f := Final(s, steps, a, b, maxCharge);
            && OnTree(f, a) && OnTree(f, b)
            && Gap(f, a, b) <= Max(Gap(s, a, b), Max(ScaleSlice(maxCharge, s.t.groups[a].weight),
                                                     ScaleSlice(maxCharge, s.t.groups[b].weight)))
  {
    RunFair(s, steps, a, b, maxCharge,
            Max(Gap(s, a, b), Max(ScaleSlice(maxCharge, s.t.groups[a].weight),
                                  ScaleSlice(maxCharge, s.t.groups[b].weight))));
  }

  lemma {:induction false} ServiceIsAdvance(s: State, steps: seq<Step>, a: Id, b: Id, maxCharge: nat, g: Id)
    requires Inv(s) && Run(s, steps, a, b, maxCharge) && (g == a || g == b)
    ensures var f := Final(s, steps, a, b, maxCharge);
            g in f.t.groups
            && f.t.groups[g].vdisktime == s.t.groups[g].vdisktime + Service(s, steps, a, b, maxCharge, g)
    decreases |steps|
  {
    if steps != [] {
      NextInv(s, steps[0]);
      NextMoves(s, steps[0], g);
      ServiceIsAdvance(Next(s, steps[0]), steps[1..], a, b, maxCharge, g);
    }
  }

  /** Weighted service received over any run differs by at most twice that. */
  lemma {:induction false} ServiceFairness(s: State, steps: seq<Step>, a: Id, b: Id, maxCharge: nat)
    requires Inv(s) && Run(s, steps, a, b, maxCharge)
    ensures var bound := Gap(s, a, b) + Max(Gap(s, a, b), Max(ScaleSlice(maxCharge, s.t.groups[a].weight),
                                                              ScaleSlice(maxCharge, s.t.groups[b].weight)));
            && Service(s, steps, a, b, maxCharge, a) <= Service(s, steps, a, b, maxCharge, b) + bound
            && Service(s, steps, a, b, maxCharge, b) <= Service(s, steps, a, b, maxCharge, a) + bound
  {
    GroupFairness(s, steps, a, b, maxCharge);
    ServiceIsAdvance(s, steps, a, b, maxCharge, a);
    ServiceIsAdvance(s, steps, a, b, maxCharge, b);
  }

  // ----- shares of time

  const SCALE: nat := CFQ_SERVICE_SCALE * BLKIO_WEIGHT_DEFAULT

  /** The time that group `g` is charged in a run, unscaled. */
  ghost function Time(s: State, steps: seq<Step>, a: Id, b: Id, maxCharge: nat, g: Id): nat
    requires Inv(s) && Run(s, steps, a, b, maxCharge)
    decreases |steps|
  {
    if steps == [] then 0
    else
      NextInv(s, steps[0]);
      (if steps[0].Serve? && s.serving == Some(g) then steps[0].charge else 0)
      + Time(Next(s, steps[0]), steps[1..], a, b, maxCharge, g)
  }

  /** How often it is charged. */
  ghost function Turns(s: State, steps: seq<Step>, a: Id, b: Id, maxCharge: nat, g: Id): nat
    requires Inv(s) && Run(s, steps, a, b, maxCharge)
    decreases |steps|
  {
    if steps == [] then 0
    else
      NextInv(s, steps[0]);
      (if steps[0].Serve? && s.serving == Some(g) then 1 else 0)
      + Turns(Next(s, steps[0]), steps[1..], a, b, maxCharge, g)
  }

  lemma {:induction false} ScaleBounds(c: nat, w: Weight)
    ensures w * ScaleSlice(c, w) <= SCALE * c < w * (ScaleSlice(c, w) + 1)
  {
    DivBounds(c * CFQ_SERVICE_SCALE * BLKIO_WEIGHT_DEFAULT, w);
    TimesIs(ScaleSlice(c, w), w);
    TimesIs(ScaleSlice(c, w) + 1, w);
  }

  /** `x` is the time `c` over the weight `w`, but for less than one unit in each of `n` turns. */
  ghost predicate Scaled(w: nat, x: nat, c: nat, n: nat) {
    w * x <= SCALE * c <= w * (x + n)
  }

  lemma {:induction false} ScaledAddUp(w: nat, x: nat, c: nat, n: nat, y: nat, d: nat, m: nat)
    requires Scaled(w, x, c, n) && Scaled(w, y, d, m)
    ensures Scaled(w, x + y, c + d, n + m) == true
  {
  }

  lemma {:induction false} StepScaled(s: State, st: Step, g: Id)
    requires g in s.t.groups
    ensures var mine := st.Serve? && s.serving == Some(g);
            Scaled(s.t.groups[g].weight, Moved(s, st, g), if mine then st.charge else 0, if mine then 1 else 0) == true
  {
    if st.Serve? && s.serving == Some(g) { ScaleBounds(st.charge, s.t.groups[g].weight); }
  }

  /** The scaled service is the time over the weight, but for less than one unit a turn. */
  lemma {:induction false} ServiceIsTime(s: State, steps: seq<Step>, a: Id, b: Id, maxCharge: nat, g: Id)
    requires Inv(s) && Run(s, steps, a, b, maxCharge) && (g == a || g == b)
    ensures Scaled(s.t.groups[g].weight, Service(s, steps, a, b, maxCharge, g), Time(s, steps, a, b, maxCharge, g),
                   Turns(s, steps, a, b, maxCharge, g)) == true
    decreases |steps|
  {
    if steps == [] {
      ScaledNothing(s.t.groups[g].weight);
    } else {
      var n, w := Next(s, steps[0]), s.t.groups[g].weight;
      NextInv(s, steps[0]);
      WeightKept(s, steps[0], g);
      ServiceIsTime(n, steps[1..], a, b, maxCharge, g);
      StepScaled(s, steps[0], g);
      var mine := steps[0].Serve? && s.serving == Some(g);
      var x, c, k := Moved(s, steps[0], g), if mine then steps[0].charge else 0, if mine then 1 else 0;
      ScaledGrows(w, x, c, k, Service(n, steps[1..], a, b, maxCharge, g), Time(n, steps[1..], a, b, maxCharge, g),
                  Turns(n, steps[1..], a, b, maxCharge, g), Service(s, steps, a, b, maxCharge, g),
                  Time(s, steps, a, b, maxCharge, g), Turns(s, steps, a, b, maxCharge, g));
    }
  }

  lemma {:induction false} ScaledNothing(w: nat)
    ensures Scaled(w, 0, 0, 0) == true
  {
  }

  lemma {:induction false} ScaledGrows(w: nat, x: nat, c: nat, n: nat, y: nat, d: nat, m: nat, z: nat, e: nat, k: nat)
    requires Scaled(w, x, c, n) == true && Scaled(w, y, d, m) == true && z == x + y && e == c + d && k == n + m
    ensures Scaled(w, z, e, k) == true
  {
    ScaledAddUp(w, x, c, n, y, d, m);
  }

  lemma {:induction false} CrossWeights(v: nat, w: nat, x: nat, y: nat, c: nat, d: nat, n: nat, bound: nat)
    requires SCALE * c <= v * (x + n) && w * y <= SCALE * d && x <= y + bound
    ensures SCALE * (c * w) <= SCALE * (d * v) + v * w * (bound + n)
  {
    Grows(SCALE * c, v * (x + n), w);
    Grows(w * y, SCALE * d, v);
    Grows(x + n, y + bound + n, v * w);
    assert SCALE * c * w == SCALE * (c * w) && SCALE * d * v == SCALE * (d * v);
    assert v * (x + n) * w == (x + n) * (v * w) && w * y * v == y * (v * w);
  }

  lemma {:induction false} Grows(p: nat, q: nat, k: nat)
    requires p <= q
    ensures p * k <= q * k
  {
  }

  /** Time is shared by weight: over any run, the time of one group over its weight exceeds
      that of the other by no more than a bound that does not grow with the run, and the
      rounding of one unit a turn. */
  lemma {:induction false} TimeByWeight(s: State, steps: seq<Step>, a: Id, b: Id, maxCharge: nat)
    requires Inv(s) && Run(s, steps, a, b, maxCharge)
    ensures var v, w := s.t.groups[a].weight, s.t.groups[b].weight;
            var bound := Gap(s, a, b) + Max(Gap(s, a, b), Max(ScaleSlice(maxCharge, v), ScaleSlice(maxCharge, w)));
            SCALE * (Time(s, steps, a, b, maxCharge, a) * w)
            <= SCALE * (Time(s, steps, a, b, maxCharge, b) * v) + v * w * (bound + Turns(s, steps, a, b, maxCharge, a))
  {
    var v, w := s.t.groups[a].weight, s.t.groups[b].weight;
    var bound := Gap(s, a, b) + Max(Gap(s, a, b), Max(ScaleSlice(maxCharge, v), ScaleSlice(maxCharge, w)));
    ServiceFairness(s, steps, a, b, maxCharge);
    ServiceIsTime(s, steps, a, b, maxCharge, a);
    ServiceIsTime(s, steps, a, b, maxCharge, b);
    CrossWeights(v, w, Service(s, steps, a, b, maxCharge, a), Service(s, steps, a, b, maxCharge, b),
                 Time(s, steps, a, b, maxCharge, a), Time(s, steps, a, b, maxCharge, b),
                 Turns(s, steps, a, b, maxCharge, a), bound);
  }

  /** The 64-bit product in cfq_scale_slice does not overflow for an unsigned int charge. */
  lemma {:induction false} ScaleFits(charge: nat, w: Weight)
    requires charge < 0x1_0000_0000
    ensures charge * CFQ_SERVICE_SCALE * BLKIO_WEIGHT_DEFAULT < 0x1_0000_0000_0000_0000
    ensures ScaleSlice(charge, w) == charge * 4096 * 500 / w
  {
    DivIs(charge * CFQ_SERVICE_SCALE * BLKIO_WEIGHT_DEFAULT, w);
  }
}
