/** Dispatching throttled bios: the groups of a queue, the service tree that
    orders them by dispatch time, and the loops that drain them. */
module ThrottleDispatch {
  import opened Jiffies
  import opened Lists
  import opened Options
  import opened Throttle
  import opened ThrottlePay

  type Gid = nat

  const READ: nat := 0
  const WRITE: nat := 1

  const GRP_QUANTUM: nat := 8       // throtl_grp_quantum
  const QUANTUM: nat := 32          // throtl_quantum
  const ULONG_MAX: nat := U64 - 1

  datatype Bio = Bio(id: nat, size: nat)

  /** A throtl_grp; nr_queued[rw] is the length of bio_lists[rw]. */
  datatype Group = Group(queue: seq<seq<Bio>>, dir: seq<Dir>, disptime: nat)

  /** A bio on the list of dispatched ones, with where it came from. */
  datatype Sent = Sent(g: Gid, rw: nat, bio: Bio)

  ghost predicate SizesOk(q: seq<Bio>) {
    q == [] || (q[0].size < U32 && SizesOk(q[1..]))
  }

  ghost predicate GroupOk(t: Group) {
    && |t.queue| == 2 && |t.dir| == 2
    && Sane(t.dir[0]) && Sane(t.dir[1])
    && SizesOk(t.queue[0]) && SizesOk(t.queue[1])
  }

  predicate Busy(t: Group)
    requires |t.queue| == 2
  {
    t.queue[0] != [] || t.queue[1] != []
  }

  // ----- the service tree, as the sequence of its nodes in order

  ghost predicate Sorted(groups: map<Gid, Group>, tree: seq<Gid>) {
    && Distinct(tree)
    && (forall i :: 0 <= i < |tree| ==> tree[i] in groups)
    && forall i, j :: 0 <= i < j < |tree| ==> groups[tree[i]].disptime <= groups[tree[j]].disptime
  }

  /** Where tg_service_tree_add links a node with this key: behind its equals. */
  function Place(groups: map<Gid, Group>, tree: seq<Gid>, key: nat): (k: nat)
    ensures k <= |tree|
    ensures forall i :: 0 <= i < k ==> tree[i] !in groups || groups[tree[i]].disptime <= key
    ensures k < |tree| ==> tree[k] in groups && groups[tree[k]].disptime > key
  {
    if tree == [] || (tree[0] in groups && groups[tree[0]].disptime > key) then 0
    else 1 + Place(groups, tree[1..], key)
  }

  lemma {:induction false} InsertSorted(groups: map<Gid, Group>, tree: seq<Gid>, g: Gid)
    requires Sorted(groups, tree) && g in groups && g !in tree
    ensures Sorted(groups, InsertAt(tree, Place(groups, tree, groups[g].disptime), g))
  {
    var k := Place(groups, tree, groups[g].disptime);
    var t := InsertAt(tree, k, g);
    InsertMembers(tree, k, g);
    forall i, j | 0 <= i < j < |t| ensures groups[t[i]].disptime <= groups[t[j]].disptime {
      if k < j && i <= k { assert k == j - 1 || groups[tree[k]].disptime <= groups[tree[j - 1]].disptime; }
    }
  }

  lemma {:induction false} RemoveSorted(groups: map<Gid, Group>, tree: seq<Gid>, g: Gid)
    requires Sorted(groups, tree)
    ensures Sorted(groups, Without(tree, g))
  {
    if g in tree {
      var i :| 0 <= i < |tree| && tree[i] == g;
      DistinctWithout(tree, g);
      WithoutAt(tree, i);
      CutSorted(groups, tree, i, Without(tree, g));
    } else {
      WithoutAbsent(tree, g);
    }
  }

  lemma {:induction false} CutSorted(groups: map<Gid, Group>, tree: seq<Gid>, i: nat, t: seq<Gid>)
    requires Sorted(groups, tree) && i < |tree| && t == tree[..i] + tree[i + 1..] && Distinct(t)
    ensures Sorted(groups, t)
  {
    assert forall a :: 0 <= a < |t| ==> t[a] == tree[if a < i then a else a + 1];
  }

  /** Changing a group that is off the tree does not disturb it. */
  lemma {:induction false} UpdateSorted(groups: map<Gid, Group>, tree: seq<Gid>, g: Gid, t: Group)
    requires Sorted(groups, tree) && (g !in tree || (g in groups && t.disptime == groups[g].disptime))
    ensures Sorted(groups[g := t], tree)
  {
  }

  /** How many groups of the tree are due at `now`. */
  function Due(groups: map<Gid, Group>, tree: seq<Gid>, now: nat): nat {
    if tree == [] then 0
    else (if tree[0] in groups && groups[tree[0]].disptime <= now then 1 else 0) + Due(groups, tree[1..], now)
  }

  lemma {:induction false} DueInsert(groups: map<Gid, Group>, tree: seq<Gid>, k: nat, g: Gid, now: nat)
    requires k <= |tree| && g in groups
    ensures Due(groups, InsertAt(tree, k, g), now) == Due(groups, tree, now) + if groups[g].disptime <= now then 1 else 0
  {
    var t := InsertAt(tree, k, g);
    if k == 0 {
      assert t[1..] == tree;
    } else {
      DueInsert(groups, tree[1..], k - 1, g, now);
      assert t == tree[..k] + [g] + tree[k..];
      assert t[1..] == InsertAt(tree[1..], k - 1, g);
    }
  }

  lemma {:induction false} DueUpdate(groups: map<Gid, Group>, tree: seq<Gid>, g: Gid, t: Group, now: nat)
    requires g !in tree
    ensures Due(groups[g := t], tree, now) == Due(groups, tree, now)
  {
    if tree != [] { DueUpdate(groups, tree[1..], g, t, now); }
  }

  // ----- queued bios

  /** Bios queued in direction `rw` over the groups of `list`. */
  function Queued(groups: map<Gid, Group>, list: seq<Gid>, rw: nat): nat {
    if list == [] then 0
    else (if list[0] in groups && rw < |groups[list[0]].queue| then |groups[list[0]].queue[rw]| else 0)
         + Queued(groups, list[1..], rw)
  }

  lemma {:induction false} QueuedUpdate(groups: map<Gid, Group>, list: seq<Gid>, g: Gid, t: Group, rw: nat)
    requires Distinct(list) && g in groups && rw < |groups[g].queue| && rw < |t.queue|
    ensures Queued(groups[g := t], list, rw)
            == Queued(groups, list, rw) + if g in list then |t.queue[rw]| - |groups[g].queue[rw]| else 0
  {
    if list != [] { QueuedUpdate(groups, list[1..], g, t, rw); }
  }

  lemma {:induction false} QueuedSome(groups: map<Gid, Group>, list: seq<Gid>, rw: nat)
    requires Queued(groups, list, rw) > 0
    ensures exists g :: g in list && g in groups && rw < |groups[g].queue| && groups[g].queue[rw] != []
  {
    if !(list[0] in groups && rw < |groups[list[0]].queue| && groups[list[0]].queue[rw] != []) {
      QueuedSome(groups, list[1..], rw);
    }
  }

  /** The bios of one queue among those sent, in order. */
  function Of(bl: seq<Sent>, g: Gid, rw: nat): seq<Bio> {
    if bl == [] then []
    else (if bl[0].g == g && bl[0].rw == rw then [bl[0].bio] else []) + Of(bl[1..], g, rw)
  }

  lemma {:induction false} OfConcat(a: seq<Sent>, b: seq<Sent>, g: Gid, rw: nat)
    ensures Of(a + b, g, rw) == Of(a, g, rw) + Of(b, g, rw)
  {
    if a == [] {
      assert a + b == b;
    } else {
      OfConcat(a[1..], b, g, rw);
      assert (a + b)[1..] == a[1..] + b && (a + b)[0] == a[0];
      var h := if a[0].g == g && a[0].rw == rw then [a[0].bio] else [];
      assert h + (Of(a[1..], g, rw) + Of(b, g, rw)) == h + Of(a[1..], g, rw) + Of(b, g, rw);
    }
  }

  // ----- what one group does in a round

  /** tg_dispatch_one_bio, once the head of the queue may go. */
  function SendOne(t: Group, rw: nat, d: Dir, now: nat): Group
    requires GroupOk(t) && rw < 2 && t.queue[rw] != []
  {
    t.(queue := t.queue[rw := t.queue[rw][1..]], dir := t.dir[rw := Trim(Charge(d, t.queue[rw][0].size), now)])
  }

  datatype Drained = Drained(group: Group, bios: seq<Bio>)

  /** One of the two loops of throtl_dispatch_tg: at most `max` bios, in order,
      as long as the limits allow. */
  function Drain(t: Group, rw: nat, max: nat, now: nat): Drained
    requires GroupOk(t) && rw < 2
    decreases max
  {
    if max == 0 || t.queue[rw] == [] then Drained(t, [])
    else
      var v := MayDispatch(t.dir[rw], now, t.queue[rw][0].size);
      if !v.ok then MaySane(t.dir[rw], now, t.queue[rw][0].size); Drained(t.(dir := t.dir[rw := v.dir]), [])
      else
        SendOneOk(t, rw, now);
        var r := Drain(SendOne(t, rw, v.dir, now), rw, max - 1, now);
        r.(bios := [t.queue[rw][0]] + r.bios)
  }

  lemma {:induction false} MaySane(d: Dir, now: nat, size: nat)
    requires Sane(d)
    ensures Sane(MayDispatch(d, now, size).dir)
  {
  }

  lemma {:induction false} SendOneOk(t: Group, rw: nat, now: nat)
    requires GroupOk(t) && rw < 2 && t.queue[rw] != []
    ensures GroupOk(SendOne(t, rw, MayDispatch(t.dir[rw], now, t.queue[rw][0].size).dir, now))
  {
    MaySane(t.dir[rw], now, t.queue[rw][0].size);
  }

  /** A refusal stands: asked again at the same jiffy, the answer is the same,
      the slice does not change any more, and the wait is at least a jiffy. */
  ghost predicate Refused(d: Dir, now: nat, size: nat)
    requires Sane(d)
  {
    var v := MayDispatch(d, now, size);
    !v.ok && v.dir == d && v.wait >= 1
  }

  lemma {:induction false} RefusalStands(d: Dir, now: nat, size: nat)
    requires Sane(d) && !MayDispatch(d, now, size).ok
    ensures Sane(MayDispatch(d, now, size).dir) && Refused(MayDispatch(d, now, size).dir, now, size)
  {
    MaySane(d, now, size);
    var r := Renewed(d, now);
    var v := MayDispatch(d, now, size);
    assert Renewed(v.dir, now) == v.dir;
    assert WithinBps(v.dir, now, size) == WithinBps(r, now, size);
    assert WithinIops(v.dir, now) == WithinIops(r, now);
  }

  /** What draining does to a group. */
  ghost predicate DrainedTo(t: Group, rw: nat, max: nat, now: nat, r: Drained)
    requires GroupOk(t) && rw < 2
  {
    var u := r.group;
    && GroupOk(u) && u.disptime == t.disptime
    && u.queue[1 - rw] == t.queue[1 - rw] && u.dir[1 - rw] == t.dir[1 - rw]
    && t.queue[rw] == r.bios + u.queue[rw] && |r.bios| <= max
    && (|r.bios| < max && u.queue[rw] != [] ==> Refused(u.dir[rw], now, u.queue[rw][0].size))
  }

  /** A bio is let go, and the rest is drained. */
  lemma {:induction false} SentThenDrained(t: Group, d: Dir, rw: nat, max: nat, now: nat, r: Drained)
    requires GroupOk(t) && rw < 2 && t.queue[rw] != [] && max > 0
    requires GroupOk(SendOne(t, rw, d, now)) && DrainedTo(SendOne(t, rw, d, now), rw, max - 1, now, r) == true
    ensures DrainedTo(t, rw, max, now, r.(bios := [t.queue[rw][0]] + r.bios)) == true
  {
  }

  lemma {:induction false} RefusedDrained(t: Group, rw: nat, max: nat, now: nat)
    requires GroupOk(t) && rw < 2 && t.queue[rw] != []
    requires !MayDispatch(t.dir[rw], now, t.queue[rw][0].size).ok
    ensures var d := MayDispatch(t.dir[rw], now, t.queue[rw][0].size).dir;
            DrainedTo(t, rw, max, now, Drained(t.(dir := t.dir[rw := d]), [])) == true
  {
    RefusalStands(t.dir[rw], now, t.queue[rw][0].size);
  }

  lemma {:induction false} DrainSpec(t: Group, rw: nat, max: nat, now: nat)
    requires GroupOk(t) && rw < 2
    ensures DrainedTo(t, rw, max, now, Drain(t, rw, max, now)) == true
    decreases max
  {
    if max > 0 && t.queue[rw] != [] {
      var v := MayDispatch(t.dir[rw], now, t.queue[rw][0].size);
      if !v.ok {
        RefusedDrained(t, rw, max, now);
      } else {
        SendOneOk(t, rw, now);
        var u := SendOne(t, rw, v.dir, now);
        DrainSpec(u, rw, max - 1, now);
        SentThenDrained(t, v.dir, rw, max, now, Drain(u, rw, max - 1, now));
      }
    }
  }

  const MAX_READS: nat := GRP_QUANTUM * 3 / 4
  const MAX_WRITES: nat := GRP_QUANTUM - MAX_READS

  /** The wait of one direction for tg_update_disptime. */
  function WaitOf(t: Group, rw: nat, now: nat): nat
    requires GroupOk(t) && rw < 2
  {
    if t.queue[rw] == [] then ULONG_MAX else MayDispatch(t.dir[rw], now, t.queue[rw][0].size).wait
  }

  function Looked(t: Group, rw: nat, now: nat): Group
    requires GroupOk(t) && rw < 2
  {
    if t.queue[rw] == [] then t
    else t.(dir := t.dir[rw := MayDispatch(t.dir[rw], now, t.queue[rw][0].size).dir])
  }

  lemma {:induction false} LookedOk(t: Group, rw: nat, now: nat)
    requires GroupOk(t) && rw < 2
    ensures GroupOk(Looked(t, rw, now)) && Looked(t, rw, now).queue == t.queue
  {
    if t.queue[rw] != [] { MaySane(t.dir[rw], now, t.queue[rw][0].size); }
  }

  /** tg_update_disptime, apart from the tree. */
  function Rescheduled(t: Group, now: nat): Group
    requires GroupOk(t)
  {
    var a := Looked(t, READ, now);
    LookedOk(t, READ, now);
    var b := Looked(a, WRITE, now);
    var r, w := WaitOf(t, READ, now), WaitOf(a, WRITE, now);
    b.(disptime := now + if r < w then r else w)
  }

  /** The verdict on the head of a queue. */
  function HeadVerdict(t: Group, rw: nat, now: nat): Verdict
    requires GroupOk(t) && rw < 2 && t.queue[rw] != []
  {
    MayDispatch(t.dir[rw], now, t.queue[rw][0].size)
  }

  /** The dispatch time of a busy group: no head waits longer than it is told to, and the time
      is that of one of them, or ULONG_MAX away.  Each direction has been looked at, and
      nothing else has changed. */
  lemma {:induction false} DispatchTime(t: Group, now: nat)
    requires GroupOk(t) && Busy(t)
    ensures var u := Rescheduled(t, now);
            && GroupOk(u) && u.queue == t.queue
            && (forall rw: nat :: rw < 2 ==>
                  u.dir[rw] == if t.queue[rw] == [] then t.dir[rw] else HeadVerdict(t, rw, now).dir)
            && (forall rw: nat :: rw < 2 && t.queue[rw] != [] ==> u.disptime <= now + HeadVerdict(t, rw, now).wait)
            && (exists rw: nat :: rw < 2 && t.queue[rw] != []
                  && (u.disptime == now + HeadVerdict(t, rw, now).wait || u.disptime == now + ULONG_MAX))
  {
    RescheduledOk(t, now);
    var r, w := WaitOf(t, READ, now), WaitOf(t, WRITE, now);
    assert t.queue[READ] != [] ==> r == HeadVerdict(t, READ, now).wait;
    assert t.queue[WRITE] != [] ==> w == HeadVerdict(t, WRITE, now).wait;
    var rw := if t.queue[READ] == [] then WRITE else if t.queue[WRITE] == [] then READ else if r < w then READ else WRITE;
    assert rw < 2 && t.queue[rw] != []
        && (Rescheduled(t, now).disptime == now + HeadVerdict(t, rw, now).wait
            || Rescheduled(t, now).disptime == now + ULONG_MAX);
  }

  /** A group that got nothing out is not due again at this jiffy. */
  lemma {:induction false} NotDueAgain(t: Group, now: nat)
    requires GroupOk(t) && Busy(t)
    requires forall rw :: 0 <= rw < 2 && t.queue[rw] != [] ==> Refused(t.dir[rw], now, t.queue[rw][0].size)
    ensures Rescheduled(t, now).disptime > now
  {
  }

  /** Both loops of throtl_dispatch_tg. */
  function Round(t: Group, now: nat): (Drained, Drained)
    requires GroupOk(t)
  {
    var a := Drain(t, READ, MAX_READS, now);
    DrainSpec(t, READ, MAX_READS, now);
    (a, Drain(a.group, WRITE, MAX_WRITES, now))
  }

  /** Reads get six of the eight bios of a round and writes two; a direction that sends fewer
      has no more, or a head that is refused. */
  lemma {:induction false} RoundShares(t: Group, now: nat)
    requires GroupOk(t)
    ensures var (a, b) := Round(t, now);
            var u := b.group;
            && GroupOk(u)
            && |a.bios| <= 6 && |b.bios| <= 2
            && (|a.bios| < 6 && u.queue[READ] != [] ==> Refused(u.dir[READ], now, u.queue[READ][0].size))
            && (|b.bios| < 2 && u.queue[WRITE] != [] ==> Refused(u.dir[WRITE], now, u.queue[WRITE][0].size))
  {
    DrainSpec(t, READ, MAX_READS, now);
    DrainSpec(Drain(t, READ, MAX_READS, now).group, WRITE, MAX_WRITES, now);
  }

  lemma {:induction false} RoundSpec(t: Group, now: nat)
    requires GroupOk(t)
    ensures var (a, b) := Round(t, now);
            var u := b.group;
            && GroupOk(u)
            && t.queue[0] == a.bios + u.queue[0] && t.queue[1] == b.bios + u.queue[1]
            && |a.bios| + |b.bios| <= GRP_QUANTUM
            && (|a.bios| + |b.bios| == 0 && Busy(u) ==> Rescheduled(u, now).disptime > now)
  {
    RoundShares(t, now);
    DrainSpec(t, READ, MAX_READS, now);
    var (a, b) := Round(t, now);
    DrainSpec(a.group, WRITE, MAX_WRITES, now);
    var u := b.group;
    if |a.bios| + |b.bios| == 0 && Busy(u) {
      NotDueAgain(u, now);
    }
  }

  /** Each head that may go has gone. */
  ghost predicate HeadsWent(t: Group, rs: seq<Bio>, ws: seq<Bio>, now: nat)
    requires GroupOk(t)
  {
    && (t.queue[READ] != [] && HeadVerdict(t, READ, now).ok ==> rs != [])
    && (t.queue[WRITE] != [] && HeadVerdict(t, WRITE, now).ok ==> ws != [])
  }

  lemma {:induction false} DrainTakes(t: Group, rw: nat, max: nat, now: nat)
    requires GroupOk(t) && rw < 2 && max > 0 && t.queue[rw] != [] && HeadVerdict(t, rw, now).ok
    ensures Drain(t, rw, max, now).bios != []
  {
  }

  lemma {:induction false} RoundTakes(t: Group, now: nat)
    requires GroupOk(t)
    ensures HeadsWent(t, Round(t, now).0.bios, Round(t, now).1.bios, now) == true
  {
    DrainSpec(t, READ, MAX_READS, now);
    var a := Drain(t, READ, MAX_READS, now).group;
    if t.queue[READ] != [] && HeadVerdict(t, READ, now).ok { DrainTakes(t, READ, MAX_READS, now); }
    if t.queue[WRITE] != [] && HeadVerdict(t, WRITE, now).ok {
      assert HeadVerdict(a, WRITE, now) == HeadVerdict(t, WRITE, now);
      DrainTakes(a, WRITE, MAX_WRITES, now);
    }
  }

  lemma {:induction false} RescheduledOk(t: Group, now: nat)
    requires GroupOk(t)
    ensures GroupOk(Rescheduled(t, now)) && Rescheduled(t, now).queue == t.queue
  {
    LookedOk(t, READ, now);
    LookedOk(Looked(t, READ, now), WRITE, now);
  }

  function SentBy(g: Gid, rw: nat, bios: seq<Bio>): (r: seq<Sent>)
    ensures |r| == |bios|
  {
    if bios == [] then [] else [Sent(g, rw, bios[0])] + SentBy(g, rw, bios[1..])
  }

  lemma {:induction false} OfSentBy(g: Gid, rw: nat, bios: seq<Bio>, h: Gid, rw': nat)
    ensures Of(SentBy(g, rw, bios), h, rw') == if h == g && rw == rw' then bios else []
  {
    if bios != [] {
      OfSentBy(g, rw, bios[1..], h, rw');
      assert SentBy(g, rw, bios)[1..] == SentBy(g, rw, bios[1..]);
    }
  }

  ghost predicate AllOk(groups: map<Gid, Group>, list: seq<Gid>) {
    list == [] || (list[0] in groups && GroupOk(groups[list[0]]) && AllOk(groups, list[1..]))
  }

  lemma {:induction false} OkAt(groups: map<Gid, Group>, list: seq<Gid>, g: Gid)
    requires AllOk(groups, list) && g in list
    ensures g in groups && GroupOk(groups[g])
  {
    if list[0] != g { OkAt(groups, list[1..], g); }
  }

  lemma {:induction false} OkUpdate(groups: map<Gid, Group>, list: seq<Gid>, g: Gid, t: Group)
    requires AllOk(groups, list) && GroupOk(t)
    ensures AllOk(groups[g := t], list)
  {
    if list != [] { OkUpdate(groups, list[1..], g, t); }
  }

  /** Every queue of `list` is what it was, minus the bios sent, which were its first. */
  ghost predicate Kept(before: map<Gid, Group>, groups: map<Gid, Group>, bl: seq<Sent>, list: seq<Gid>) {
    list == [] || (KeptAt(before, groups, bl, list[0]) && Kept(before, groups, bl, list[1..]))
  }

  ghost predicate KeptAt(before: map<Gid, Group>, groups: map<Gid, Group>, bl: seq<Sent>, g: Gid) {
    && g in before && g in groups && |before[g].queue| == 2 && |groups[g].queue| == 2
    && before[g].queue[READ] == Of(bl, g, READ) + groups[g].queue[READ]
    && before[g].queue[WRITE] == Of(bl, g, WRITE) + groups[g].queue[WRITE]
  }

  lemma {:induction false} KeptStart(groups: map<Gid, Group>, list: seq<Gid>)
    requires AllOk(groups, list)
    ensures Kept(groups, groups, [], list)
  {
    if list != [] { KeptStart(groups, list[1..]); }
  }

  lemma {:induction false} KeptTransitive(a: map<Gid, Group>, b: map<Gid, Group>, c: map<Gid, Group>,
                                          l: seq<Sent>, m: seq<Sent>, list: seq<Gid>)
    requires Kept(a, b, l, list) && Kept(b, c, m, list)
    ensures Kept(a, c, l + m, list)
  {
    if list != [] {
      var g := list[0];
      OfConcat(l, m, g, READ);
      OfConcat(l, m, g, WRITE);
      assert Of(l, g, READ) + (Of(m, g, READ) + c[g].queue[READ]) == Of(l, g, READ) + Of(m, g, READ) + c[g].queue[READ];
      assert Of(l, g, WRITE) + (Of(m, g, WRITE) + c[g].queue[WRITE]) == Of(l, g, WRITE) + Of(m, g, WRITE) + c[g].queue[WRITE];
      KeptTransitive(a, b, c, l, m, list[1..]);
    }
  }

  lemma {:induction false} SentOf(g: Gid, rs: seq<Bio>, ws: seq<Bio>, h: Gid)
    ensures var bl := SentBy(g, READ, rs) + SentBy(g, WRITE, ws);
            && Of(bl, h, READ) == (if h == g then rs else [])
            && Of(bl, h, WRITE) == (if h == g then ws else [])
  {
    var a, b := SentBy(g, READ, rs), SentBy(g, WRITE, ws);
    OfConcat(a, b, h, READ);
    OfConcat(a, b, h, WRITE);
    OfSentBy(g, READ, rs, h, READ);
    OfSentBy(g, READ, rs, h, WRITE);
    OfSentBy(g, WRITE, ws, h, READ);
    OfSentBy(g, WRITE, ws, h, WRITE);
  }

  /** One group gives up the first bios of its queues. */
  lemma {:induction false} ServeKept(groups: map<Gid, Group>, g: Gid, t: Group, rs: seq<Bio>, ws: seq<Bio>, list: seq<Gid>)
    requires AllOk(groups, list) && g in groups && GroupOk(groups[g]) && GroupOk(t)
    requires groups[g].queue[0] == rs + t.queue[0] && groups[g].queue[1] == ws + t.queue[1]
    ensures Kept(groups, groups[g := t], SentBy(g, READ, rs) + SentBy(g, WRITE, ws), list)
  {
    if list != [] {
      var h := list[0];
      SentOf(g, rs, ws, h);
      assert [] + groups[h].queue[READ] == groups[h].queue[READ] && [] + groups[h].queue[WRITE] == groups[h].queue[WRITE];
      ServeKept(groups, g, t, rs, ws, list[1..]);
    }
  }

  function Appended(t: Group, rw: nat, bio: Bio): Group
    requires GroupOk(t) && rw < 2
  {
    t.(queue := t.queue[rw := t.queue[rw] + [bio]])
  }

  lemma {:induction false} SizesAppend(q: seq<Bio>, bio: Bio)
    requires SizesOk(q) && bio.size < U32
    ensures SizesOk(q + [bio])
  {
    if q != [] {
      SizesAppend(q[1..], bio);
      assert (q + [bio])[1..] == q[1..] + [bio];
    } else {
      assert (q + [bio])[1..] == [];
    }
  }

  /** A group that has queued a bio, with a new dispatch time if it was to have one. */
  ghost predicate Waits(was: Group, t: Group, rw: nat, bio: Bio, update: bool, now: nat) {
    && GroupOk(was) && rw < 2
    && var a := Appended(was, rw, bio);
       GroupOk(a) && t == if update then Rescheduled(a, now) else a
  }

  /** The group is due when the wait of this head is over, at the latest. */
  ghost predicate HeadPromised(t: Group, rw: nat, now: nat) {
    GroupOk(t) && rw < 2 && t.queue[rw] != [] && t.disptime <= now + HeadVerdict(t, rw, now).wait
  }

  lemma {:induction false} SameVerdict(d: Dir, now: nat, size: nat)
    requires Sane(d)
    ensures var v := MayDispatch(d, now, size);
            Sane(v.dir) && MayDispatch(v.dir, now, size) == v
  {
    MaySane(d, now, size);
    var r, v := Renewed(d, now), MayDispatch(d, now, size);
    if !NoRule(d) {
      assert Renewed(v.dir, now) == v.dir;
      assert WithinBps(v.dir, now, size) == WithinBps(r, now, size) && WithinIops(v.dir, now) == WithinIops(r, now);
    }
  }

  lemma {:induction false} WaitsPromised(was: Group, t: Group, rw: nat, bio: Bio, now: nat)
    requires Waits(was, t, rw, bio, true, now) == true
    ensures HeadPromised(t, rw, now) == true
  {
    var a := Appended(was, rw, bio);
    DispatchTime(a, now);
    SameVerdict(a.dir[rw], now, a.queue[rw][0].size);
    assert HeadVerdict(t, rw, now) == HeadVerdict(a, rw, now);
  }

  lemma {:induction false} AppendedOk(t: Group, rw: nat, bio: Bio)
    requires GroupOk(t) && rw < 2 && bio.size < U32
    ensures GroupOk(Appended(t, rw, bio)) && Busy(Appended(t, rw, bio))
  {
    SizesAppend(t.queue[rw], bio);
  }

  // ----- what is let go is paid for

  function Total(bios: seq<Bio>): nat {
    if bios == [] then 0 else bios[0].size + Total(bios[1..])
  }

  lemma {:induction false} TotalConcat(a: seq<Bio>, b: seq<Bio>)
    ensures Total(a + b) == Total(a) + Total(b)
  {
    if a == [] {
      assert a + b == b;
    } else {
      TotalConcat(a[1..], b);
      assert (a + b)[1..] == a[1..] + b;
    }
  }

  lemma {:induction false} MayPays(d: Dir, now: nat, size: nat)
    requires Sane(d) && size < U32
    ensures var v := MayDispatch(d, now, size);
            && (!v.ok ==> PaysFor(d, v.dir, 0, 0, now) == true)
            && (v.ok ==> PaysFor(d, Trim(Charge(v.dir, size), now), size, 1, now) == true)
  {
    StepPays(d, now, size, true);
  }

  lemma {:induction false} LookPays(d: Dir, now: nat, size: nat)
    requires Sane(d) && size < U32
    ensures PaysFor(d, MayDispatch(d, now, size).dir, 0, 0, now) == true
  {
    StepPays(d, now, size, false);
  }

  lemma {:induction false} DrainOne(d: Dir, e: Dir, head: Bio, r: Drained, rw: nat, now: nat)
    requires rw < 2 && |r.group.dir| == 2 && PaysFor(d, e, head.size, 1, now) == true
    requires PaysFor(e, r.group.dir[rw], Total(r.bios), |r.bios|, now) == true
    ensures PaysFor(d, r.group.dir[rw], Total([head] + r.bios), |[head] + r.bios|, now) == true
  {
    PaysThen(d, e, r.group.dir[rw], head.size, 1, Total(r.bios), |r.bios|, now);
    assert ([head] + r.bios)[1..] == r.bios;
  }

  /** The bios of one direction that a drain lets go. */
  lemma {:induction false} DrainPays(t: Group, rw: nat, max: nat, now: nat)
    requires GroupOk(t) && rw < 2
    ensures var r := Drain(t, rw, max, now);
            |r.group.dir| == 2 && PaysFor(t.dir[rw], r.group.dir[rw], Total(r.bios), |r.bios|, now) == true
    decreases max
  {
    if max == 0 || t.queue[rw] == [] {
      PaysSelf(t.dir[rw], now);
    } else {
      var head := t.queue[rw][0];
      var v := MayDispatch(t.dir[rw], now, head.size);
      MayPays(t.dir[rw], now, head.size);
      if v.ok {
        SendOneOk(t, rw, now);
        var u := SendOne(t, rw, v.dir, now);
        DrainPays(u, rw, max - 1, now);
        DrainOne(t.dir[rw], u.dir[rw], head, Drain(u, rw, max - 1, now), rw, now);
      }
    }
  }

  /** A group lets `rs` and `ws` go. */
  ghost predicate GroupPays(t: Group, u: Group, rs: seq<Bio>, ws: seq<Bio>, now: nat) {
    && |t.dir| == 2 && |u.dir| == 2
    && PaysFor(t.dir[READ], u.dir[READ], Total(rs), |rs|, now)
    && PaysFor(t.dir[WRITE], u.dir[WRITE], Total(ws), |ws|, now)
  }

  lemma {:induction false} GroupPaysSelf(t: Group, now: nat)
    requires |t.dir| == 2
    ensures GroupPays(t, t, [], [], now) == true
  {
    PaysSelf(t.dir[READ], now);
    PaysSelf(t.dir[WRITE], now);
  }

  lemma {:induction false} GroupPaysThen(t: Group, u: Group, v: Group, rs: seq<Bio>, ws: seq<Bio>,
                                         rs': seq<Bio>, ws': seq<Bio>, now: nat)
    requires GroupPays(t, u, rs, ws, now) == true && GroupPays(u, v, rs', ws', now) == true
    ensures GroupPays(t, v, rs + rs', ws + ws', now) == true
  {
    TotalConcat(rs, rs');
    TotalConcat(ws, ws');
    PaysThen(t.dir[READ], u.dir[READ], v.dir[READ], Total(rs), |rs|, Total(rs'), |rs'|, now);
    PaysThen(t.dir[WRITE], u.dir[WRITE], v.dir[WRITE], Total(ws), |ws|, Total(ws'), |ws'|, now);
  }

  lemma {:induction false} RoundPays(t: Group, now: nat)
    requires GroupOk(t)
    ensures var (a, b) := Round(t, now); GroupPays(t, b.group, a.bios, b.bios, now) == true
  {
    var (a, b) := Round(t, now);
    DrainSpec(t, READ, MAX_READS, now);
    DrainSpec(a.group, WRITE, MAX_WRITES, now);
    DrainPays(t, READ, MAX_READS, now);
    DrainPays(a.group, WRITE, MAX_WRITES, now);
  }

  lemma {:induction false} LookedPays(t: Group, rw: nat, now: nat)
    requires GroupOk(t) && rw < 2
    ensures GroupPays(t, Looked(t, rw, now), [], [], now) == true
  {
    GroupPaysSelf(t, now);
    if t.queue[rw] != [] { LookPays(t.dir[rw], now, t.queue[rw][0].size); }
  }

  lemma {:induction false} RescheduledPays(t: Group, now: nat)
    requires GroupOk(t)
    ensures GroupPays(t, Rescheduled(t, now), [], [], now) == true
  {
    var a := Looked(t, READ, now);
    LookedOk(t, READ, now);
    LookedPays(t, READ, now);
    LookedPays(a, WRITE, now);
    GroupPaysThen(t, a, Looked(a, WRITE, now), [], [], [], [], now);
    SameDirs(t, Looked(a, WRITE, now), Rescheduled(t, now), now);
  }

  lemma {:induction false} SameDirs(t: Group, u: Group, v: Group, now: nat)
    requires GroupPays(t, u, [] + [], [] + [], now) == true && v.dir == u.dir
    ensures GroupPays(t, v, [], [], now) == true
  {
  }

  /** Every group of `list` lets go what is sent of it, at time `now`. */
  ghost predicate AllPaid(before: map<Gid, Group>, groups: map<Gid, Group>, bl: seq<Sent>, list: seq<Gid>, now: nat) {
    list == [] || (PaidAt(before, groups, bl, list[0], now) && AllPaid(before, groups, bl, list[1..], now))
  }

  ghost predicate PaidAt(before: map<Gid, Group>, groups: map<Gid, Group>, bl: seq<Sent>, g: Gid, now: nat) {
    g in before && g in groups && GroupPays(before[g], groups[g], Of(bl, g, READ), Of(bl, g, WRITE), now)
  }

  lemma {:induction false} PaidStart(groups: map<Gid, Group>, list: seq<Gid>, now: nat)
    requires AllOk(groups, list)
    ensures AllPaid(groups, groups, [], list, now)
  {
    if list != [] {
      GroupPaysSelf(groups[list[0]], now);
      PaidStart(groups, list[1..], now);
    }
  }

  lemma {:induction false} PaidTransitive(a: map<Gid, Group>, b: map<Gid, Group>, c: map<Gid, Group>,
                                          l: seq<Sent>, m: seq<Sent>, list: seq<Gid>, now: nat)
    requires AllPaid(a, b, l, list, now) && AllPaid(b, c, m, list, now)
    ensures AllPaid(a, c, l + m, list, now)
  {
    if list != [] {
      var g := list[0];
      OfConcat(l, m, g, READ);
      OfConcat(l, m, g, WRITE);
      GroupPaysThen(a[g], b[g], c[g], Of(l, g, READ), Of(l, g, WRITE), Of(m, g, READ), Of(m, g, WRITE), now);
      PaidTransitive(a, b, c, l, m, list[1..], now);
    }
  }

  lemma {:induction false} ServePaid(groups: map<Gid, Group>, g: Gid, t: Group, rs: seq<Bio>, ws: seq<Bio>,
                                     list: seq<Gid>, now: nat)
    requires AllOk(groups, list) && g in groups && GroupPays(groups[g], t, rs, ws, now) == true
    ensures AllPaid(groups, groups[g := t], SentBy(g, READ, rs) + SentBy(g, WRITE, ws), list, now)
  {
    if list != [] {
      var h := list[0];
      SentOf(g, rs, ws, h);
      if h != g { GroupPaysSelf(groups[h], now); }
      ServePaid(groups, g, t, rs, ws, list[1..], now);
    }
  }

  lemma {:induction false} PaidFor(before: map<Gid, Group>, groups: map<Gid, Group>, bl: seq<Sent>, list: seq<Gid>,
                                   now: nat, g: Gid)
    requires AllPaid(before, groups, bl, list, now) && g in list
    ensures PaidAt(before, groups, bl, g, now) == true
  {
    if list[0] != g { PaidFor(before, groups, bl, list[1..], now, g); }
  }

  // ----- the rate over whole histories

  /** A call of blk_throtl_bio, or of throtl_select_dispatch. */
  datatype Call = Submit(now: nat, g: Gid, rw: nat, bio: Bio) | Select(now: nat)

  /** Times do not go back, and bios are submitted to groups of the queue. */
  predicate InOrder(calls: seq<Call>, list: seq<Gid>, t0: nat)
    decreases |calls|
  {
    calls == []
    || (t0 <= calls[0].now && (calls[0].Submit? ==> calls[0].g in list && calls[0].rw < 2 && calls[0].bio.size < U32)
        && InOrder(calls[1..], list, calls[0].now))
  }

  /** What a call let go. */
  datatype Act = Act(now: nat, sent: seq<Sent>)

  function LastAct(acts: seq<Act>, t0: nat): nat {
    if acts == [] then t0 else acts[|acts| - 1].now
  }

  /** `gs` are the groups before, between and after the acts, which all pay. */
  ghost predicate History(gs: seq<map<Gid, Group>>, acts: seq<Act>, list: seq<Gid>, t0: nat) {
    && |gs| == |acts| + 1
    && (acts != [] ==>
          var n := |acts| - 1;
          && History(gs[..n + 1], acts[..n], list, t0) && LastAct(acts[..n], t0) <= acts[n].now
          && AllPaid(gs[n], gs[n + 1], acts[n].sent, list, acts[n].now))
  }

  lemma {:induction false} HistoryGrows(gs: seq<map<Gid, Group>>, acts: seq<Act>, list: seq<Gid>, t0: nat,
                                        m: map<Gid, Group>, a: Act)
    requires History(gs, acts, list, t0) && LastAct(acts, t0) <= a.now
    requires AllPaid(gs[|acts|], m, a.sent, list, a.now)
    ensures History(gs + [m], acts + [a], list, t0)
  {
    assert (gs + [m])[..|gs|] == gs && (acts + [a])[..|acts|] == acts;
  }

  function AllSent(acts: seq<Act>): seq<Sent> {
    if acts == [] then [] else AllSent(acts[..|acts| - 1]) + acts[|acts| - 1].sent
  }

  /** The bytes and bios that one direction of one group let go. */
  function BytesOf(acts: seq<Act>, g: Gid, rw: nat): nat {
    Total(Of(AllSent(acts), g, rw))
  }

  function IosOf(acts: seq<Act>, g: Gid, rw: nat): nat {
    |Of(AllSent(acts), g, rw)|
  }

  lemma {:induction false} OneMoreAct(acts: seq<Act>, g: Gid, rw: nat)
    requires acts != []
    ensures var a, rest := acts[|acts| - 1], acts[..|acts| - 1];
            && BytesOf(acts, g, rw) == BytesOf(rest, g, rw) + Total(Of(a.sent, g, rw))
            && IosOf(acts, g, rw) == IosOf(rest, g, rw) + |Of(a.sent, g, rw)|
  {
    var a, rest := acts[|acts| - 1], acts[..|acts| - 1];
    OfConcat(AllSent(rest), a.sent, g, rw);
    TotalConcat(Of(AllSent(rest), g, rw), Of(a.sent, g, rw));
  }

  /** The groups `m` follow on `d` in one direction of one group. */
  ghost predicate PaysUp(d: Dir, m: map<Gid, Group>, g: Gid, rw: nat, bytes: nat, ios: nat, t0: nat, last: nat) {
    && g in m && rw < |m[g].dir| == 2
    && m[g].dir[rw].bps == d.bps && m[g].dir[rw].iops == d.iops
    && Paying(m[g].dir[rw], bytes, ios, t0, last)
  }

  lemma {:induction false} ActPaysUp(d: Dir, m: map<Gid, Group>, m': map<Gid, Group>, a: Act, list: seq<Gid>,
                                     g: Gid, rw: nat, bytes: nat, ios: nat, t0: nat, last: nat)
    requires PaysUp(d, m, g, rw, bytes, ios, t0, last) && g in list && last <= a.now
    requires AllPaid(m, m', a.sent, list, a.now)
    ensures PaysUp(d, m', g, rw, bytes + Total(Of(a.sent, g, rw)), ios + |Of(a.sent, g, rw)|, t0, a.now) == true
  {
    PaidFor(m, m', a.sent, list, a.now, g);
  }

  lemma {:induction false} HistoryPaid(gs: seq<map<Gid, Group>>, acts: seq<Act>, list: seq<Gid>, g: Gid, rw: nat,
                                       d: Dir, t0: nat)
    requires History(gs, acts, list, t0) && g in list && PaysUp(d, gs[0], g, rw, 0, 0, t0, t0)
    ensures PaysUp(d, gs[|acts|], g, rw, BytesOf(acts, g, rw), IosOf(acts, g, rw), t0, LastAct(acts, t0)) == true
    decreases |acts|
  {
    if acts != [] {
      var n := |acts| - 1;
      HistoryPaid(gs[..n + 1], acts[..n], list, g, rw, d, t0);
      OneMoreAct(acts, g, rw);
      ActPaysUp(d, gs[n], gs[n + 1], acts[n], list, g, rw, BytesOf(acts[..n], g, rw), IosOf(acts[..n], g, rw), t0,
                LastAct(acts[..n], t0));
    }
  }

  /** A direction with a limit, at the start of its first slice. */
  ghost predicate Fresh(groups: map<Gid, Group>, g: Gid, rw: nat, t0: nat) {
    && g in groups && rw < |groups[g].dir| == 2
    && var d := groups[g].dir[rw]; Sane(d) && (d.bps != U64 - 1 || d.iops != U32 - 1) && d == NewSlice(d, t0)
  }

  /** What a direction let go up to `last` is within both limits. */
  ghost predicate WithinRate(groups: map<Gid, Group>, g: Gid, rw: nat, acts: seq<Act>, t0: nat)
    requires g in groups && rw < |groups[g].dir|
  {
    var d, t := groups[g].dir[rw], LastAct(acts, t0);
    && BytesOf(acts, g, rw) * HZ <= (t + SLICE - t0) * d.bps
    && IosOf(acts, g, rw) * HZ <= (t + SLICE - t0) * d.iops
  }

  /** The rate bound for each direction of each group. */
  lemma {:induction false} GroupRate(gs: seq<map<Gid, Group>>, acts: seq<Act>, list: seq<Gid>, g: Gid, rw: nat, t0: nat)
    requires History(gs, acts, list, t0) && g in list && Fresh(gs[0], g, rw, t0)
    ensures WithinRate(gs[0], g, rw, acts, t0)
  {
    var d := gs[0][g].dir[rw];
    FreshPaying(d, t0);
    HistoryPaid(gs, acts, list, g, rw, d, t0);
    PayingBound(gs[|acts|][g].dir[rw], BytesOf(acts, g, rw), IosOf(acts, g, rw), t0, LastAct(acts, t0));
  }

  lemma {:induction false} AllRates(gs: seq<map<Gid, Group>>, acts: seq<Act>, list: seq<Gid>, t0: nat)
    requires History(gs, acts, list, t0)
    ensures forall g, rw: nat :: g in list && Fresh(gs[0], g, rw, t0) ==> WithinRate(gs[0], g, rw, acts, t0)
  {
    forall g, rw: nat | g in list && Fresh(gs[0], g, rw, t0) ensures WithinRate(gs[0], g, rw, acts, t0) {
      GroupRate(gs, acts, list, g, rw, t0);
    }
  }

  // ----- nothing is lost or reordered

  /** The bio that a call brings. */
  function Brought(c: Call): seq<Sent> {
    match c
    case Submit(_, g, rw, bio) => [Sent(g, rw, bio)]
    case Select(_) => []
  }

  function AllBrought(calls: seq<Call>): seq<Sent> {
    if calls == [] then [] else AllBrought(calls[..|calls| - 1]) + Brought(calls[|calls| - 1])
  }

  /** In every queue of `list`: what was there and was brought is what was sent and is there,
      in that order. */
  ghost predicate Flowed(before: map<Gid, Group>, groups: map<Gid, Group>, ins: seq<Sent>, outs: seq<Sent>, list: seq<Gid>) {
    list == [] || (FlowedAt(before, groups, ins, outs, list[0]) && Flowed(before, groups, ins, outs, list[1..]))
  }

  ghost predicate FlowedAt(before: map<Gid, Group>, groups: map<Gid, Group>, ins: seq<Sent>, outs: seq<Sent>, g: Gid) {
    && g in before && g in groups && |before[g].queue| == 2 && |groups[g].queue| == 2
    && before[g].queue[READ] + Of(ins, g, READ) == Of(outs, g, READ) + groups[g].queue[READ]
    && before[g].queue[WRITE] + Of(ins, g, WRITE) == Of(outs, g, WRITE) + groups[g].queue[WRITE]
  }

  lemma {:induction false} KeptFlows(a: map<Gid, Group>, b: map<Gid, Group>, l: seq<Sent>, list: seq<Gid>)
    requires Kept(a, b, l, list)
    ensures Flowed(a, b, [], l, list)
  {
    if list != [] {
      var g := list[0];
      assert a[g].queue[READ] + [] == a[g].queue[READ] && a[g].queue[WRITE] + [] == a[g].queue[WRITE];
      KeptFlows(a, b, l, list[1..]);
    }
  }

  /** Two flows of one queue make one. */
  lemma {:induction false} FlowsJoin<T>(x: seq<T>, y: seq<T>, z: seq<T>, i: seq<T>, o: seq<T>, i': seq<T>, o': seq<T>)
    requires x + i == o + y && y + i' == o' + z
    ensures x + (i + i') == (o + o') + z
  {
    calc {
      x + (i + i');
      (x + i) + i';
      (o + y) + i';
      o + (y + i');
      o + (o' + z);
      (o + o') + z;
    }
  }

  lemma {:induction false} FlowedThen(a: map<Gid, Group>, b: map<Gid, Group>, c: map<Gid, Group>, i: seq<Sent>,
                                      o: seq<Sent>, i': seq<Sent>, o': seq<Sent>, list: seq<Gid>)
    requires Flowed(a, b, i, o, list) && Flowed(b, c, i', o', list)
    ensures Flowed(a, c, i + i', o + o', list)
  {
    if list != [] {
      FlowedThenAt(a, b, c, i, o, i', o', list[0]);
      FlowedThen(a, b, c, i, o, i', o', list[1..]);
    }
  }

  lemma {:induction false} FlowedThenAt(a: map<Gid, Group>, b: map<Gid, Group>, c: map<Gid, Group>, i: seq<Sent>,
                                        o: seq<Sent>, i': seq<Sent>, o': seq<Sent>, g: Gid)
    requires FlowedAt(a, b, i, o, g) && FlowedAt(b, c, i', o', g)
    ensures FlowedAt(a, c, i + i', o + o', g) == true
  {
    OfConcat(i, i', g, READ);
    OfConcat(i, i', g, WRITE);
    OfConcat(o, o', g, READ);
    OfConcat(o, o', g, WRITE);
    FlowsJoin(a[g].queue[READ], b[g].queue[READ], c[g].queue[READ], Of(i, g, READ), Of(o, g, READ), Of(i', g, READ),
              Of(o', g, READ));
    FlowsJoin(a[g].queue[WRITE], b[g].queue[WRITE], c[g].queue[WRITE], Of(i, g, WRITE), Of(o, g, WRITE),
              Of(i', g, WRITE), Of(o', g, WRITE));
  }

  /** A bio that passes finds its queue empty; one that does not goes to its end. */
  lemma {:induction false} SubmitFlows(groups: map<Gid, Group>, g: Gid, t: Group, rw: nat, bio: Bio, pass: bool,
                                       list: seq<Gid>)
    requires AllOk(groups, list) && g in groups && GroupOk(groups[g]) && rw < 2
    requires pass ==> groups[g].queue[rw] == []
    requires t.queue == if pass then groups[g].queue else Appended(groups[g], rw, bio).queue
    ensures Flowed(groups, groups[g := t], [Sent(g, rw, bio)], if pass then [Sent(g, rw, bio)] else [], list)
  {
    if list != [] {
      var h := list[0];
      SubmitFlowsAt(groups, g, t, rw, bio, pass, h);
      SubmitFlows(groups, g, t, rw, bio, pass, list[1..]);
    }
  }

  lemma {:induction false} SubmitFlowsAt(groups: map<Gid, Group>, g: Gid, t: Group, rw: nat, bio: Bio, pass: bool, h: Gid)
    requires h in groups && GroupOk(groups[h]) && g in groups && GroupOk(groups[g]) && rw < 2
    requires pass ==> groups[g].queue[rw] == []
    requires t.queue == if pass then groups[g].queue else Appended(groups[g], rw, bio).queue
    ensures FlowedAt(groups, groups[g := t], [Sent(g, rw, bio)], if pass then [Sent(g, rw, bio)] else [], h) == true
  {
    var one := [Sent(g, rw, bio)];
    assert one[1..] == [];
    assert Of(one, h, READ) == (if h == g && rw == READ then [bio] else []) + Of([], h, READ);
    assert Of(one, h, WRITE) == (if h == g && rw == WRITE then [bio] else []) + Of([], h, WRITE);
  }

  lemma {:induction false} FlowedStart(groups: map<Gid, Group>, list: seq<Gid>)
    requires AllOk(groups, list)
    ensures Flowed(groups, groups, [], [], list)
  {
    KeptStart(groups, list);
    KeptFlows(groups, groups, [], list);
  }

  lemma {:induction false} FlowsGrow(a: map<Gid, Group>, b: map<Gid, Group>, c: map<Gid, Group>, calls: seq<Call>, i: nat,
                                     acts: seq<Act>, act: Act, list: seq<Gid>)
    requires i < |calls| && Flowed(a, b, AllBrought(calls[..i]), AllSent(acts), list)
    requires Flowed(b, c, Brought(calls[i]), act.sent, list)
    ensures Flowed(a, c, AllBrought(calls[..i + 1]), AllSent(acts + [act]), list)
  {
    FlowedThen(a, b, c, AllBrought(calls[..i]), AllSent(acts), Brought(calls[i]), act.sent, list);
    assert calls[..i + 1][..i] == calls[..i] && (acts + [act])[..|acts|] == acts;
  }

  function Clocks(acts: seq<Act>): seq<nat> {
    if acts == [] then [] else Clocks(acts[..|acts| - 1]) + [acts[|acts| - 1].now]
  }

  function CallClocks(calls: seq<Call>): seq<nat> {
    if calls == [] then [] else CallClocks(calls[..|calls| - 1]) + [calls[|calls| - 1].now]
  }

  lemma {:induction false} ClocksGrow(acts: seq<Act>, a: Act, calls: seq<Call>, i: nat)
    requires i < |calls| && a.now == calls[i].now && Clocks(acts) == CallClocks(calls[..i])
    ensures Clocks(acts + [a]) == CallClocks(calls[..i + 1])
  {
    assert (acts + [a])[..|acts|] == acts && calls[..i + 1][..i] == calls[..i];
  }

  lemma {:induction false} NextCall(calls: seq<Call>, i: nat, list: seq<Gid>, last: nat)
    requires i < |calls| && InOrder(calls[i..], list, last)
    ensures var c := calls[i];
            && last <= c.now && (c.Submit? ==> c.g in list && c.rw < 2 && c.bio.size < U32)
            && InOrder(calls[i + 1..], list, c.now)
  {
    assert calls[i..][0] == calls[i] && calls[i..][1..] == calls[i + 1..];
  }

  /** `i` of the calls have been made, from `before` to `groups`. */
  ghost predicate Ran(before: map<Gid, Group>, groups: map<Gid, Group>, calls: seq<Call>, i: nat, acts: seq<Act>,
                      gs: seq<map<Gid, Group>>, list: seq<Gid>, t0: nat)
  {
    && i <= |calls| && Clocks(acts) == CallClocks(calls[..i]) && InOrder(calls[i..], list, LastAct(acts, t0))
    && History(gs, acts, list, t0) && gs[0] == before && gs[|acts|] == groups
    && Flowed(before, groups, AllBrought(calls[..i]), AllSent(acts), list)
  }

  lemma {:induction false} RanStart(groups: map<Gid, Group>, calls: seq<Call>, list: seq<Gid>, t0: nat)
    requires AllOk(groups, list) && InOrder(calls, list, t0)
    ensures Ran(groups, groups, calls, 0, [], [groups], list, t0) == true
  {
    assert calls[0..] == calls && calls[..0] == [];
    FlowedStart(groups, list);
  }

  lemma {:induction false} RanNext(before: map<Gid, Group>, groups: map<Gid, Group>, calls: seq<Call>, i: nat,
                                   acts: seq<Act>, gs: seq<map<Gid, Group>>, list: seq<Gid>, t0: nat)
    requires Ran(before, groups, calls, i, acts, gs, list, t0) == true && i < |calls|
    ensures var c := calls[i];
            && LastAct(acts, t0) <= c.now && (c.Submit? ==> c.g in list && c.rw < 2 && c.bio.size < U32)
            && InOrder(calls[i + 1..], list, c.now)
  {
    NextCall(calls, i, list, LastAct(acts, t0));
  }

  lemma {:induction false} RanStep(before: map<Gid, Group>, mid: map<Gid, Group>, groups: map<Gid, Group>,
                                   calls: seq<Call>, i: nat, acts: seq<Act>, gs: seq<map<Gid, Group>>, act: Act,
                                   list: seq<Gid>, t0: nat)
    requires Ran(before, mid, calls, i, acts, gs, list, t0) == true && i < |calls| && act.now == calls[i].now
    requires AllPaid(mid, groups, act.sent, list, act.now) && Flowed(mid, groups, Brought(calls[i]), act.sent, list)
    ensures Ran(before, groups, calls, i + 1, acts + [act], gs + [groups], list, t0) == true
  {
    RanNext(before, mid, calls, i, acts, gs, list, t0);
    HistoryGrows(gs, acts, list, t0, groups, act);
    ClocksGrow(acts, act, calls, i);
    FlowsGrow(before, mid, groups, calls, i, acts, act, list);
  }

  lemma {:induction false} RanEnd(before: map<Gid, Group>, groups: map<Gid, Group>, calls: seq<Call>,
                                  acts: seq<Act>, gs: seq<map<Gid, Group>>, list: seq<Gid>, t0: nat)
    requires Ran(before, groups, calls, |calls|, acts, gs, list, t0) == true
    ensures Clocks(acts) == CallClocks(calls) && Flowed(before, groups, AllBrought(calls), AllSent(acts), list)
    ensures forall g, rw: nat :: g in list && Fresh(before, g, rw, t0) ==> WithinRate(before, g, rw, acts, t0)
  {
    assert calls[..|calls|] == calls;
    AllRates(gs, acts, list, t0);
  }

  // ----- every group that is due is served

  ghost predicate AttendedAt(before: map<Gid, Group>, groups: map<Gid, Group>, bl: seq<Sent>, g: Gid, now: nat) {
    && g in before && g in groups && GroupOk(before[g])
    && (groups[g] == before[g] || HeadsWent(before[g], Of(bl, g, READ), Of(bl, g, WRITE), now))
  }

  /** A group is as it was, or each of its heads that might go has gone. */
  ghost predicate Attended(before: map<Gid, Group>, groups: map<Gid, Group>, bl: seq<Sent>, list: seq<Gid>, now: nat) {
    list == [] || (AttendedAt(before, groups, bl, list[0], now) && Attended(before, groups, bl, list[1..], now))
  }

  lemma {:induction false} AttendedStart(groups: map<Gid, Group>, list: seq<Gid>, now: nat)
    requires AllOk(groups, list)
    ensures Attended(groups, groups, [], list, now)
  {
    if list != [] { AttendedStart(groups, list[1..], now); }
  }

  lemma {:induction false} AttendedTransitive(a: map<Gid, Group>, b: map<Gid, Group>, c: map<Gid, Group>,
                                              l: seq<Sent>, m: seq<Sent>, list: seq<Gid>, now: nat)
    requires Attended(a, b, l, list, now) && Attended(b, c, m, list, now)
    ensures Attended(a, c, l + m, list, now)
  {
    if list != [] {
      OfConcat(l, m, list[0], READ);
      OfConcat(l, m, list[0], WRITE);
      AttendedTransitive(a, b, c, l, m, list[1..], now);
    }
  }

  lemma {:induction false} ServeAttended(groups: map<Gid, Group>, g: Gid, t: Group, rs: seq<Bio>, ws: seq<Bio>,
                                         list: seq<Gid>, now: nat)
    requires AllOk(groups, list) && g in groups && GroupOk(groups[g]) && HeadsWent(groups[g], rs, ws, now) == true
    ensures Attended(groups, groups[g := t], SentBy(g, READ, rs) + SentBy(g, WRITE, ws), list, now)
  {
    if list != [] {
      SentOf(g, rs, ws, list[0]);
      ServeAttended(groups, g, t, rs, ws, list[1..], now);
    }
  }

  ghost predicate DueAt(before: map<Gid, Group>, bl: seq<Sent>, g: Gid, now: nat) {
    && g in before && GroupOk(before[g])
    && (Busy(before[g]) && before[g].disptime <= now ==> HeadsWent(before[g], Of(bl, g, READ), Of(bl, g, WRITE), now))
  }

  /** Each head that might go has gone, of every group that was due. */
  ghost predicate AllDueWent(before: map<Gid, Group>, bl: seq<Sent>, list: seq<Gid>, now: nat) {
    list == [] || (DueAt(before, bl, list[0], now) && AllDueWent(before, bl, list[1..], now))
  }

  lemma {:induction false} NoneDue(groups: map<Gid, Group>, tree: seq<Gid>, g: Gid, now: nat)
    requires Sorted(groups, tree) && (tree == [] || groups[tree[0]].disptime > now) && g in tree
    ensures g in groups && groups[g].disptime > now
  {
    var i :| 0 <= i < |tree| && tree[i] == g;
  }

  /** Once nothing on the tree is due, every group that was has been served. */
  lemma {:induction false} AttendedDue(before: map<Gid, Group>, groups: map<Gid, Group>, tree: seq<Gid>, bl: seq<Sent>,
                                       list: seq<Gid>, now: nat)
    requires Attended(before, groups, bl, list, now) && Sorted(groups, tree) && BusyOnTree(groups, tree, list)
    requires tree == [] || groups[tree[0]].disptime > now
    ensures AllDueWent(before, bl, list, now)
  {
    if list != [] {
      var g := list[0];
      if groups[g] == before[g] && Busy(before[g]) { NoneDue(groups, tree, g, now); }
      AttendedDue(before, groups, tree, bl, list[1..], now);
    }
  }

  /** What a round of dispatch promises of the bios `bl` it let go: each queue gave up its
      first ones, they are paid for, and no group was served in vain. */
  ghost predicate Dispatched(before: map<Gid, Group>, groups: map<Gid, Group>, bl: seq<Sent>, list: seq<Gid>, now: nat) {
    Kept(before, groups, bl, list) && AllPaid(before, groups, bl, list, now) && Attended(before, groups, bl, list, now)
  }

  lemma {:induction false} DispatchedStart(groups: map<Gid, Group>, list: seq<Gid>, now: nat)
    requires AllOk(groups, list)
    ensures Dispatched(groups, groups, [], list, now) == true
  {
    KeptStart(groups, list);
    PaidStart(groups, list, now);
    AttendedStart(groups, list, now);
  }

  lemma {:induction false} DispatchedNext(a: map<Gid, Group>, b: map<Gid, Group>, c: map<Gid, Group>,
                                          l: seq<Sent>, m: seq<Sent>, list: seq<Gid>, now: nat)
    requires Dispatched(a, b, l, list, now) == true && Dispatched(b, c, m, list, now) == true
    ensures Dispatched(a, c, l + m, list, now) == true
  {
    KeptTransitive(a, b, c, l, m, list);
    PaidTransitive(a, b, c, l, m, list, now);
    AttendedTransitive(a, b, c, l, m, list, now);
  }

  // ----- the queue's throttle data

  ghost predicate TreeOk(groups: map<Gid, Group>, tree: seq<Gid>, left: Option<Gid>, count: nat) {
    && Sorted(groups, tree)
    && count == |tree|
    && (left.Some? ==> tree != [] && left.value == tree[0])
  }

  ghost predicate QueuesOk(groups: map<Gid, Group>, list: seq<Gid>, nr: seq<nat>) {
    && Distinct(list)
    && (forall g :: g in list <==> g in groups)
    && AllOk(groups, list)
    && |nr| == 2 && nr[0] == Queued(groups, list, 0) && nr[1] == Queued(groups, list, 1)
  }

  /** A group is on the tree exactly when it has queued bios. */
  ghost predicate BusyOnTree(groups: map<Gid, Group>, tree: seq<Gid>, list: seq<Gid>) {
    list == []
    || (list[0] in groups && |groups[list[0]].queue| == 2 && (list[0] in tree <==> Busy(groups[list[0]]))
        && BusyOnTree(groups, tree, list[1..]))
  }

  lemma {:induction false} BusyAt(groups: map<Gid, Group>, tree: seq<Gid>, list: seq<Gid>, g: Gid)
    requires BusyOnTree(groups, tree, list) && g in list
    ensures g in groups && |groups[g].queue| == 2 && (g in tree <==> Busy(groups[g]))
  {
    if list[0] != g { BusyAt(groups, tree, list[1..], g); }
  }

  /** Only `g` has changed, and it is on the new tree exactly if it is busy. */
  lemma {:induction false} BusyUpdate(groups: map<Gid, Group>, tree: seq<Gid>, list: seq<Gid>, g: Gid, t: Group, tree': seq<Gid>)
    requires BusyOnTree(groups, tree, list) && |t.queue| == 2
    requires (forall x :: x != g ==> (x in tree <==> x in tree')) && (g in tree' <==> Busy(t))
    ensures BusyOnTree(groups[g := t], tree', list)
  {
    if list != [] { BusyUpdate(groups, tree, list[1..], g, t, tree'); }
  }

  /** Replacing the bios of one group. */
  lemma {:induction false} QueuesUpdate(groups: map<Gid, Group>, list: seq<Gid>, nr: seq<nat>, g: Gid, t: Group)
    requires QueuesOk(groups, list, nr) == true && g in groups && GroupOk(t)
    ensures GroupOk(groups[g])
    ensures nr[0] + |t.queue[0]| >= |groups[g].queue[0]| && nr[1] + |t.queue[1]| >= |groups[g].queue[1]|
    ensures QueuesOk(groups[g := t], list,
                     [nr[0] + |t.queue[0]| - |groups[g].queue[0]|, nr[1] + |t.queue[1]| - |groups[g].queue[1]|])
  {
    OkAt(groups, list, g);
    OkUpdate(groups, list, g, t);
    QueuedUpdate(groups, list, g, t, 0);
    QueuedUpdate(groups, list, g, t, 1);
  }

  lemma {:induction false} QueuesSame(groups: map<Gid, Group>, list: seq<Gid>, nr: seq<nat>, g: Gid, t: Group)
    requires QueuesOk(groups, list, nr) == true && g in groups && GroupOk(t) && t.queue == groups[g].queue
    ensures QueuesOk(groups[g := t], list, nr)
  {
    QueuesUpdate(groups, list, nr, g, t);
    assert nr == [nr[0], nr[1]];
  }

  /** The groups and the tree after one turn of throtl_select_dispatch for `g`,
      the head of the tree, when the rest of the tree is `trunk`. */
  ghost function Served(groups: map<Gid, Group>, trunk: seq<Gid>, g: Gid, now: nat): (map<Gid, Group>, seq<Gid>)
    requires g in groups && GroupOk(groups[g])
  {
    RoundSpec(groups[g], now);
    var t := Round(groups[g], now).1.group;
    if Busy(t) then
      var m := groups[g := Rescheduled(t, now)];
      (m, InsertAt(trunk, Place(m, trunk, m[g].disptime), g))
    else (groups[g := t], trunk)
  }

  lemma {:induction false} ServedBusy(groups: map<Gid, Group>, tree: seq<Gid>, list: seq<Gid>, g: Gid, now: nat)
    requires Distinct(tree) && BusyOnTree(groups, tree, list) && tree != [] && g == tree[0] && g in groups && GroupOk(groups[g])
    ensures var (m, t) := Served(groups, tree[1..], g, now); BusyOnTree(m, t, list)
  {
    var trunk := tree[1..];
    var (m, t) := Served(groups, trunk, g, now);
    RoundSpec(groups[g], now);
    var u := Round(groups[g], now).1.group;
    RescheduledOk(u, now);
    assert forall x :: x in trunk <==> x in tree && x != g;
    if Busy(u) {
      InsertMembers(trunk, Place(m, trunk, m[g].disptime), g);
    }
    BusyUpdate(groups, tree, list, g, m[g], t);
  }

  lemma {:induction false} ServedDue(groups: map<Gid, Group>, tree: seq<Gid>, g: Gid, now: nat)
    requires Sorted(groups, tree) && tree != [] && g == tree[0] && GroupOk(groups[g]) && groups[g].disptime <= now
    ensures var (m, t) := Served(groups, tree[1..], g, now);
            var (a, b) := Round(groups[g], now);
            |a.bios| + |b.bios| == 0 ==> Due(m, t, now) < Due(groups, tree, now)
  {
    var trunk := tree[1..];
    var (m, t) := Served(groups, trunk, g, now);
    RoundSpec(groups[g], now);
    DueUpdate(groups, trunk, g, m[g], now);
    if Busy(Round(groups[g], now).1.group) {
      DueInsert(m, trunk, Place(m, trunk, m[g].disptime), g, now);
    }
  }

  lemma {:induction false} ServedOk(groups: map<Gid, Group>, list: seq<Gid>, tree: seq<Gid>, g: Gid, now: nat)
    requires Sorted(groups, tree) && AllOk(groups, list) && BusyOnTree(groups, tree, list)
    requires tree != [] && g == tree[0] && g in list && groups[g].disptime <= now
    ensures g in groups && GroupOk(groups[g])
    ensures var (m, t) := Served(groups, tree[1..], g, now);
            var (a, b) := Round(groups[g], now);
            && BusyOnTree(m, t, list)
            && Dispatched(groups, m, SentBy(g, READ, a.bios) + SentBy(g, WRITE, b.bios), list, now) == true
            && |a.bios| + |b.bios| <= GRP_QUANTUM
            && (|a.bios| + |b.bios| == 0 ==> Due(m, t, now) < Due(groups, tree, now))
  {
    OkAt(groups, list, g);
    ServedBusy(groups, tree, list, g, now);
    ServedDue(groups, tree, g, now);
    RoundSpec(groups[g], now);
    var (a, b) := Round(groups[g], now);
    RescheduledOk(b.group, now);
    ServeKept(groups, g, Served(groups, tree[1..], g, now).0[g], a.bios, b.bios, list);
    ServedPays(groups, tree[1..], g, now);
    ServePaid(groups, g, Served(groups, tree[1..], g, now).0[g], a.bios, b.bios, list, now);
    RoundTakes(groups[g], now);
    ServeAttended(groups, g, Served(groups, tree[1..], g, now).0[g], a.bios, b.bios, list, now);
  }

  lemma {:induction false} ServedPays(groups: map<Gid, Group>, trunk: seq<Gid>, g: Gid, now: nat)
    requires g in groups && GroupOk(groups[g])
    ensures var (m, _) := Served(groups, trunk, g, now);
            var (a, b) := Round(groups[g], now);
            m == groups[g := m[g]] && GroupPays(groups[g], m[g], a.bios, b.bios, now) == true
  {
    var (a, b) := Round(groups[g], now);
    RoundSpec(groups[g], now);
    RoundPays(groups[g], now);
    if Busy(b.group) {
      RescheduledPays(b.group, now);
      GroupPaysThen(groups[g], b.group, Rescheduled(b.group, now), a.bios, b.bios, [], [], now);
      assert a.bios + [] == a.bios && b.bios + [] == b.bios;
    }
  }

  /** While bios are queued the tree is not empty: the BUG_ON of
      throtl_schedule_next_dispatch cannot fire. */
  lemma {:induction false} QueuedOnTree(groups: map<Gid, Group>, list: seq<Gid>, tree: seq<Gid>, nr: seq<nat>)
    requires QueuesOk(groups, list, nr) == true && BusyOnTree(groups, tree, list) && nr[0] + nr[1] > 0
    ensures tree != []
  {
    var rw := if nr[0] > 0 then 0 else 1;
    QueuedSome(groups, list, rw);
    var g :| g in list && g in groups && rw < |groups[g].queue| && groups[g].queue[rw] != [];
    BusyAt(groups, tree, list, g);
  }

  /** One loop of throtl_dispatch_tg: pop, charge and trim while allowed. */
  method DrainLoop(t0: Group, rw: nat, max: nat, now: nat) returns (t: Group, bios: seq<Bio>)
    requires GroupOk(t0) && rw < 2 && max > 0
    ensures Drained(t, bios) == Drain(t0, rw, max, now)
  {
    t, bios := t0, [];
    while t.queue[rw] != []
      invariant GroupOk(t) && |bios| < max
      invariant var r := Drain(t, rw, max - |bios|, now);
                Drain(t0, rw, max, now) == Drained(r.group, bios + r.bios)
      decreases |t.queue[rw]|
    {
      var head := t.queue[rw][0];
      var v := MayDispatch(t.dir[rw], now, head.size);
      if !v.ok {
        t := t.(dir := t.dir[rw := v.dir]);
        break;
      }
      SendOneOk(t, rw, now);
      t := SendOne(t, rw, v.dir, now);
      ghost var rest := Drain(t, rw, max - |bios| - 1, now);
      assert bios + ([head] + rest.bios) == bios + [head] + rest.bios;
      bios := bios + [head];
      if |bios| >= max {
        break;
      }
    }
  }

  /** Groups with these limits and slices, and empty queues. */
  function Idle(limits: map<Gid, seq<Dir>>): map<Gid, Group> {
    map g | g in limits :: Group([[], []], limits[g], 0)
  }

  lemma {:induction false} IdleOk(limits: map<Gid, seq<Dir>>, list: seq<Gid>)
    requires forall g :: g in list ==> g in limits
    requires forall g :: g in limits ==> |limits[g]| == 2 && Sane(limits[g][0]) && Sane(limits[g][1])
    ensures AllOk(Idle(limits), list) && BusyOnTree(Idle(limits), [], list)
    ensures Queued(Idle(limits), list, 0) == 0 && Queued(Idle(limits), list, 1) == 0
  {
    if list != [] { IdleOk(limits, list[1..]); }
  }

  /** What goes when a bio passes, or does not. */
  function Passed(pass: bool, bio: Bio): seq<Bio> {
    if pass then [bio] else []
  }

  lemma {:induction false} TryPays(t: Group, rw: nat, bio: Bio, now: nat)
    requires GroupOk(t) && rw < 2 && bio.size < U32
    ensures var v := MayDispatch(t.dir[rw], now, bio.size);
            var u := t.(dir := t.dir[rw := if v.ok then Trim(Charge(v.dir, bio.size), now) else v.dir]);
            GroupPays(t, u, Passed(v.ok && rw == READ, bio), Passed(v.ok && rw == WRITE, bio), now) == true
  {
    MayPays(t.dir[rw], now, bio.size);
    PaysSelf(t.dir[1 - rw], now);
    assert Total([bio]) == bio.size + Total([]);
  }

  lemma {:induction false} AppendedPays(t: Group, rw: nat, bio: Bio, now: nat)
    requires GroupOk(t) && rw < 2 && bio.size < U32
    ensures var u := Appended(t, rw, bio);
            GroupPays(t, u, [], [], now) == true && GroupOk(u) && GroupPays(t, Rescheduled(u, now), [], [], now) == true
            && Rescheduled(u, now).queue == u.queue
  {
    var u := Appended(t, rw, bio);
    AppendedOk(t, rw, bio);
    GroupPaysSelf(t, now);
    RescheduledPays(u, now);
    RescheduledOk(u, now);
    GroupPaysThen(t, u, Rescheduled(u, now), [], [], [], [], now);
    SameDirs(t, Rescheduled(u, now), Rescheduled(u, now), now);
  }

  lemma {:induction false} OnTree(groups: map<Gid, Group>, trunk: seq<Gid>, g: Gid)
    requires g in groups
    ensures var t := if g in trunk then trunk else InsertAt(trunk, Place(groups, trunk, groups[g].disptime), g);
            forall x :: x in t <==> x == g || x in trunk
  {
    if g !in trunk { InsertMembers(trunk, Place(groups, trunk, groups[g].disptime), g); }
  }

  lemma {:induction false} OnePaid(groups: map<Gid, Group>, g: Gid, t: Group, pass: bool, rw: nat, bio: Bio,
                                   list: seq<Gid>, now: nat)
    requires AllOk(groups, list) && g in groups && rw < 2
    requires GroupPays(groups[g], t, Passed(pass && rw == READ, bio), Passed(pass && rw == WRITE, bio), now) == true
    ensures AllPaid(groups, groups[g := t], if pass then [Sent(g, rw, bio)] else [], list, now)
  {
    var rs, ws := Passed(pass && rw == READ, bio), Passed(pass && rw == WRITE, bio);
    ServePaid(groups, g, t, rs, ws, list, now);
    assert SentBy(g, READ, rs) + SentBy(g, WRITE, ws) == if pass then [Sent(g, rw, bio)] else [];
  }

  class ThrotlData {
    var groups: map<Gid, Group>
    var list: seq<Gid>             // tg_list
    var tree: seq<Gid>             // tg_service_tree.rb; being on it is the flag on_rr
    var left: Option<Gid>          // tg_service_tree.left
    var count: nat                 // tg_service_tree.count
    var nrQueued: seq<nat>         // nr_queued[2]

    /** A queue with one group for each of the limits, and nothing queued. */
    constructor (limits: map<Gid, seq<Dir>>, ids: seq<Gid>)
      requires Distinct(ids) && (forall g :: g in ids <==> g in limits)
      requires forall g :: g in limits ==> |limits[g]| == 2 && Sane(limits[g][0]) && Sane(limits[g][1])
      ensures Valid() == true && list == ids && tree == [] && nrQueued == [0, 0]
      ensures groups == Idle(limits)
    {
      groups, list, tree, left, count := Idle(limits), ids, [], None, 0;
      nrQueued := [0, 0];
      IdleOk(limits, ids);
    }

    ghost predicate Valid()
      reads this
    {
      TreeOk(groups, tree, left, count) && QueuesOk(groups, list, nrQueued) && BusyOnTree(groups, tree, list)
    }

    /** throtl_rb_first. */
    method RbFirst() returns (g: Option<Gid>)
      requires Valid() == true
      modifies this`left
      ensures Valid() == true
      ensures g == if tree == [] then None else Some(tree[0])
    {
      if count == 0 {
        return None;
      }
      if left.None? {
        left := Some(tree[0]);
      }
      return left;
    }

    /** throtl_enqueue_tg. */
    method Enqueue(g: Gid)
      requires TreeOk(groups, tree, left, count) == true && g in groups
      modifies this`tree, this`left, this`count
      ensures TreeOk(groups, tree, left, count) == true
      ensures tree == if g in old(tree) then old(tree) else InsertAt(old(tree), Place(groups, old(tree), groups[g].disptime), g)
    {
      if g !in tree {
        InsertSorted(groups, tree, g);
        var k := Place(groups, tree, groups[g].disptime);
        InsertMembers(tree, k, g);
        if k == 0 {
          left := Some(g);
        }
        tree := InsertAt(tree, k, g);
        count := count + 1;
      }
    }

    /** throtl_dequeue_tg. */
    method Dequeue(g: Gid)
      requires TreeOk(groups, tree, left, count) == true
      modifies this`tree, this`left, this`count
      ensures TreeOk(groups, tree, left, count) == true
      ensures tree == Without(old(tree), g)
    {
      if g in tree {
        RemoveSorted(groups, tree, g);
        ghost var i :| 0 <= i < |tree| && tree[i] == g;
        WithoutAt(tree, i);
        if left == Some(g) {
          left := None;
        }
        tree := Without(tree, g);
        count := count - 1;
      } else {
        WithoutAbsent(tree, g);
      }
    }

    /** throtl_dispatch_tg: both loops, three quarters of the quantum for reads. */
    method DispatchTg(g: Gid, now: nat) returns (rs: seq<Bio>, ws: seq<Bio>)
      requires g in groups && QueuesOk(groups, list, nrQueued) == true
      modifies this`groups, this`nrQueued
      ensures GroupOk(old(groups[g]))
      ensures var (a, b) := Round(old(groups[g]), now);
              rs == a.bios && ws == b.bios && groups == old(groups)[g := b.group]
      ensures QueuesOk(groups, list, nrQueued) == true
      ensures nrQueued[0] + |rs| == old(nrQueued[0]) && nrQueued[1] + |ws| == old(nrQueued[1])
    {
      OkAt(groups, list, g);
      RoundSpec(groups[g], now);
      DrainSpec(groups[g], READ, MAX_READS, now);
      var t: Group;
      t, rs := DrainLoop(groups[g], READ, MAX_READS, now);
      t, ws := DrainLoop(t, WRITE, MAX_WRITES, now);
      QueuesUpdate(groups, list, nrQueued, g, t);
      groups := groups[g := t];
      nrQueued := [nrQueued[0] - |rs|, nrQueued[1] - |ws|];
    }

    /** tg_update_disptime. */
    method UpdateDisptime(g: Gid, now: nat)
      requires g in groups && TreeOk(groups, tree, left, count) == true && QueuesOk(groups, list, nrQueued) == true
      modifies this`groups, this`tree, this`left, this`count
      ensures GroupOk(old(groups[g])) && groups == old(groups)[g := Rescheduled(old(groups[g]), now)]
      ensures tree == InsertAt(Without(old(tree), g), Place(groups, Without(old(tree), g), groups[g].disptime), g)
      ensures TreeOk(groups, tree, left, count) == true && QueuesOk(groups, list, nrQueued) == true
    {
      OkAt(groups, list, g);
      var t := Rescheduled(groups[g], now);
      RescheduledOk(groups[g], now);
      QueuesSame(groups, list, nrQueued, g, t);
      Dequeue(g);
      UpdateSorted(groups, tree, g, t);
      groups := groups[g := t];
      Enqueue(g);
    }

    /** One turn of throtl_select_dispatch, for the first group of the tree. */
    method ServeFirst(g: Gid, now: nat) returns (rs: seq<Bio>, ws: seq<Bio>)
      requires TreeOk(groups, tree, left, count) == true && QueuesOk(groups, list, nrQueued) == true && tree != [] && g == tree[0]
      modifies this
      ensures list == old(list)
      ensures TreeOk(groups, tree, left, count) == true && QueuesOk(groups, list, nrQueued) == true
      ensures GroupOk(old(groups[g]))
      ensures groups == Served(old(groups), old(tree)[1..], g, now).0
      ensures tree == Served(old(groups), old(tree)[1..], g, now).1
      ensures rs == Round(old(groups[g]), now).0.bios && ws == Round(old(groups[g]), now).1.bios
      ensures nrQueued[0] + nrQueued[1] + |rs| + |ws| == old(nrQueued[0] + nrQueued[1])
    {
      ghost var was, trunk := groups, tree[1..];
      WithoutAt(tree, 0);
      Dequeue(g);
      assert tree == trunk;
      OkAt(groups, list, g);
      RoundSpec(was[g], now);
      UpdateSorted(was, trunk, g, Round(was[g], now).1.group);
      rs, ws := DispatchTg(g, now);
      if Busy(groups[g]) {
        ghost var t := groups[g];
        WithoutAbsent(trunk, g);
        UpdateDisptime(g, now);
        UpdateTwice(was, g, t, groups[g]);
      }
    }

    /** A turn sends bios, or leaves one group less that is due. */
    method Turn(g: Gid, now: nat) returns (sent: seq<Sent>)
      requires Valid() == true && tree != [] && g == tree[0] && groups[g].disptime <= now
      modifies this
      ensures Valid() == true && list == old(list)
      ensures |sent| <= GRP_QUANTUM && Dispatched(old(groups), groups, sent, list, now) == true
      ensures nrQueued[0] + nrQueued[1] + |sent| == old(nrQueued[0] + nrQueued[1])
      ensures sent == [] ==> Due(groups, tree, now) < Due(old(groups), old(tree), now)
    {
      ServedOk(groups, list, tree, g, now);
      var rs, ws := ServeFirst(g, now);
      sent := SentBy(g, READ, rs) + SentBy(g, WRITE, ws);
    }

    /** throtl_select_dispatch at a fixed jiffy: it terminates, stays within the
        quantum, keeps every queue in order, and below the quantum lets go each head
        that may go of every group that is due. */
    method SelectDispatch(now: nat) returns (nr: nat, bl: seq<Sent>)
      requires Valid() == true
      modifies this
      ensures Valid() == true && list == old(list)
      ensures nr == |bl| <= 39
      ensures Kept(old(groups), groups, bl, list) && AllPaid(old(groups), groups, bl, list, now)
      ensures nr < 32 ==> (tree == [] || groups[tree[0]].disptime > now) && AllDueWent(old(groups), bl, list, now)
    {
      nr, bl := DispatchAll(now);
      if nr < 32 { AttendedDue(old(groups), groups, tree, bl, list, now); }
    }

    method DispatchAll(now: nat) returns (nr: nat, bl: seq<Sent>)
      requires Valid() == true
      modifies this
      ensures Valid() == true && list == old(list)
      ensures nr == |bl| <= QUANTUM + GRP_QUANTUM - 1
      ensures Dispatched(old(groups), groups, bl, list, now) == true
      ensures nr < QUANTUM ==> tree == [] || groups[tree[0]].disptime > now
    {
      nr, bl := 0, [];
      DispatchedStart(groups, list, now);
      var more := true;
      ghost var total, due := nrQueued[0] + nrQueued[1], Due(groups, tree, now);
      while more
        invariant Valid() == true
        invariant list == old(list)
        invariant nr == |bl| && nr <= QUANTUM + (if more then 0 else GRP_QUANTUM) - 1
        invariant Dispatched(old(groups), groups, bl, list, now) == true
        invariant !more && nr < QUANTUM ==> tree == [] || groups[tree[0]].disptime > now
        invariant total == nrQueued[0] + nrQueued[1] && due == Due(groups, tree, now)
        decreases total, due, more
      {
        var first := RbFirst();
        if first.None? || now < groups[first.value].disptime {
          more := false;
        } else {
          var g := first.value;
          ghost var mid := groups;
          var sent := Turn(g, now);
          total, due := total - |sent|, Due(groups, tree, now);
          DispatchedNext(old(groups), mid, groups, bl, sent, list, now);
          bl := bl + sent;
          nr := nr + |sent|;
          more := nr < QUANTUM;
        }
      }
    }

    /** throtl_add_bio_tg. */
    method AddBio(g: Gid, rw: nat, bio: Bio)
      requires g in groups && rw < 2 && bio.size < U32
      requires TreeOk(groups, tree, left, count) == true && QueuesOk(groups, list, nrQueued) == true
      modifies this
      ensures list == old(list) && GroupOk(old(groups[g])) && groups == old(groups)[g := Appended(old(groups[g]), rw, bio)]
      ensures tree == if g in old(tree) then old(tree) else InsertAt(old(tree), Place(groups, old(tree), groups[g].disptime), g)
      ensures TreeOk(groups, tree, left, count) == true && QueuesOk(groups, list, nrQueued) == true
    {
      OkAt(groups, list, g);
      var t := Appended(groups[g], rw, bio);
      AppendedOk(groups[g], rw, bio);
      QueuesUpdate(groups, list, nrQueued, g, t);
      UpdateSorted(groups, tree, g, t);
      groups := groups[g := t];
      nrQueued := nrQueued[rw := nrQueued[rw] + 1];
      Enqueue(g);
    }

    /** The attempt of blk_throtl_bio to let a bio pass at once. */
    method TryPass(g: Gid, rw: nat, bio: Bio, now: nat) returns (pass: bool)
      requires Valid() == true && g in groups && rw < 2 && bio.size < U32
      modifies this`groups
      ensures Valid() == true
      ensures GroupOk(old(groups[g])) && pass == MayDispatch(old(groups[g]).dir[rw], now, bio.size).ok
      ensures groups == old(groups)[g := groups[g]] && g in groups && groups[g].queue == old(groups[g]).queue
      ensures AllPaid(old(groups), groups, if pass then [Sent(g, rw, bio)] else [], list, now)
    {
      OkAt(groups, list, g);
      BusyAt(groups, tree, list, g);
      TryPays(groups[g], rw, bio, now);
      var t := groups[g];
      var v := MayDispatch(t.dir[rw], now, bio.size);
      MaySane(t.dir[rw], now, bio.size);
      t := t.(dir := t.dir[rw := if v.ok then Trim(Charge(v.dir, bio.size), now) else v.dir]);
      QueuesSame(groups, list, nrQueued, g, t);
      UpdateSorted(groups, tree, g, t);
      BusyUpdate(groups, tree, list, g, t, tree);
      OnePaid(groups, g, t, v.ok, rw, bio, list, now);
      groups := groups[g := t];
      pass := v.ok;
    }

    /** blk_throtl_bio queues a bio; the group's dispatch time is worked out anew
        if the bio is the first of its direction. */
    method QueueBio(g: Gid, rw: nat, bio: Bio, update: bool, now: nat)
      requires Valid() == true && g in groups && rw < 2 && bio.size < U32
      modifies this
      ensures Valid() == true && list == old(list)
      ensures groups == old(groups)[g := groups[g]] && g in groups && GroupOk(old(groups[g]))
      ensures groups[g].queue == Appended(old(groups[g]), rw, bio).queue
      ensures Waits(old(groups[g]), groups[g], rw, bio, update, now) == true
      ensures AllPaid(old(groups), groups, [], list, now)
    {
      ghost var was, trunk := groups, tree;
      OkAt(groups, list, g);
      AppendedPays(groups[g], rw, bio, now);
      AppendedOk(groups[g], rw, bio);
      AddBio(g, rw, bio);
      OnTree(groups, trunk, g);
      if update {
        Update(was, g, now);
      }
      BusyUpdate(was, trunk, list, g, groups[g], tree);
      OnePaid(was, g, groups[g], false, rw, bio, list, now);
    }

    /** The update of a group that is on the tree, after `was` has changed in it only. */
    method Update(ghost was: map<Gid, Group>, g: Gid, now: nat)
      requires g in groups && g in tree && TreeOk(groups, tree, left, count) == true && QueuesOk(groups, list, nrQueued) == true
      requires groups == was[g := groups[g]]
      modifies this`groups, this`tree, this`left, this`count
      ensures GroupOk(old(groups[g])) && groups == was[g := Rescheduled(old(groups[g]), now)]
      ensures forall x :: x in tree <==> x in old(tree)
      ensures TreeOk(groups, tree, left, count) == true && QueuesOk(groups, list, nrQueued) == true
    {
      ghost var t, mid := groups[g], Without(tree, g);
      UpdateDisptime(g, now);
      InsertMembers(mid, Place(groups, mid, groups[g].disptime), g);
      UpdateTwice(was, g, t, groups[g]);
    }

    /** The part of blk_throtl_bio under the queue lock.  A bio passes only if
        nothing is queued in its direction and it is within the limits. */
    method ThrottleBio(g: Gid, rw: nat, bio: Bio, now: nat) returns (pass: bool)
      requires Valid() == true && g in groups && rw < 2 && bio.size < U32
      modifies this
      ensures Valid() == true && list == old(list)
      ensures AllPaid(old(groups), groups, if pass then [Sent(g, rw, bio)] else [], list, now)
      ensures GroupOk(old(groups[g]))
      ensures pass <==> old(groups[g]).queue[rw] == [] && MayDispatch(old(groups[g]).dir[rw], now, bio.size).ok
      ensures groups == old(groups)[g := groups[g]] && g in groups
      ensures groups[g].queue == if pass then old(groups[g]).queue else Appended(old(groups[g]), rw, bio).queue
      ensures !pass && old(groups[g]).queue[rw] == [] ==> HeadPromised(groups[g], rw, now) == true
    {
      OkAt(groups, list, g);
      var update := groups[g].queue[rw] == [];
      ghost var was := groups;
      if update {
        pass := TryPass(g, rw, bio, now);
        if pass {
          return;
        }
      } else {
        PaidStart(was, list, now);
      }
      QueueAfter(was, g, rw, bio, update, now);
      pass := false;
    }

    /** A bio is queued after `was` has changed in `g` only, and has let nothing go. */
    method QueueAfter(ghost was: map<Gid, Group>, g: Gid, rw: nat, bio: Bio, update: bool, now: nat)
      requires Valid() == true && g in groups && rw < 2 && bio.size < U32
      requires groups == was[g := groups[g]] && AllPaid(was, groups, [], list, now)
      modifies this
      ensures Valid() == true && list == old(list)
      ensures groups == was[g := groups[g]] && AllPaid(was, groups, [], list, now)
      ensures g in groups && GroupOk(old(groups[g])) && groups[g].queue == Appended(old(groups[g]), rw, bio).queue
      ensures update ==> HeadPromised(groups[g], rw, now) == true
    {
      ghost var mid := groups;
      QueueBio(g, rw, bio, update, now);
      PaidTransitive(was, mid, groups, [], [], list, now);
      if update { WaitsPromised(mid[g], groups[g], rw, bio, now); }
    }

    /** One call, and what it let go. */
    method Perform(c: Call) returns (sent: seq<Sent>)
      requires Valid() == true && (c.Submit? ==> c.g in list && c.rw < 2 && c.bio.size < U32)
      modifies this
      ensures Valid() == true && list == old(list)
      ensures AllPaid(old(groups), groups, sent, list, c.now)
      ensures Flowed(old(groups), groups, Brought(c), sent, list)
    {
      ghost var was := groups;
      match c {
        case Submit(now, g, rw, bio) =>
          OkAt(groups, list, g);
          var pass := ThrottleBio(g, rw, bio, now);
          sent := if pass then [Sent(g, rw, bio)] else [];
          SubmitFlows(was, g, groups[g], rw, bio, pass, list);
        case Select(now) =>
          var _, bl := SelectDispatch(now);
          sent := bl;
          KeptFlows(was, groups, bl, list);
      }
    }

    /** Call after call. */
    method PerformEach(calls: seq<Call>, t0: nat) returns (acts: seq<Act>, ghost gs: seq<map<Gid, Group>>)
      requires Valid() == true && InOrder(calls, list, t0)
      modifies this
      ensures Valid() == true && list == old(list)
      ensures Ran(old(groups), groups, calls, |calls|, acts, gs, list, t0) == true
    {
      acts, gs := [], [groups];
      ghost var before := groups;
      RanStart(groups, calls, list, t0);
      var i := 0;
      while i < |calls|
        invariant i <= |calls| && list == old(list) && Valid() == true
        invariant Ran(before, groups, calls, i, acts, gs, list, t0) == true
      {
        var act := PerformNext(before, calls, i, acts, gs, t0);
        gs, acts := gs + [groups], acts + [act];
        i := i + 1;
      }
    }

    method PerformNext(ghost before: map<Gid, Group>, calls: seq<Call>, i: nat, ghost acts: seq<Act>,
                       ghost gs: seq<map<Gid, Group>>, ghost t0: nat) returns (act: Act)
      requires Valid() == true && i < |calls| && Ran(before, groups, calls, i, acts, gs, list, t0) == true
      modifies this
      ensures Valid() == true && list == old(list)
      ensures Ran(before, groups, calls, i + 1, acts + [act], gs + [groups], list, t0) == true
    {
      ghost var mid := groups;
      RanNext(before, mid, calls, i, acts, gs, list, t0);
      var sent := Perform(calls[i]);
      act := Act(calls[i].now, sent);
      RanStep(before, mid, groups, calls, i, acts, gs, act, list, t0);
    }

    /** Any sequence of calls since `t0`: every queue gives up its bios and those submitted in
        order, and what each direction of each group that began its first slice then has let
        go is within its limits over the time elapsed, plus one slice. */
    method PerformAll(calls: seq<Call>, t0: nat) returns (acts: seq<Act>)
      requires Valid() == true && InOrder(calls, list, t0)
      modifies this
      ensures Valid() == true && list == old(list) && Clocks(acts) == CallClocks(calls)
      ensures Flowed(old(groups), groups, AllBrought(calls), AllSent(acts), list)
      ensures forall g, rw: nat :: g in list && Fresh(old(groups), g, rw, t0) ==> WithinRate(old(groups), g, rw, acts, t0)
    {
      ghost var gs;
      acts, gs := PerformEach(calls, t0);
      RanEnd(old(groups), groups, calls, acts, gs, list, t0);
    }
  }
}
