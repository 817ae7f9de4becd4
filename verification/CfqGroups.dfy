/** The service tree of CFQ's groups. Groups are ordered by virtual disk time,
    which advances by the time used, scaled by the inverse of the weight.
    vdisktime is taken without 64-bit wrap-around, so the key order is its order. */
module CfqGroups {
  import opened Arith
  import opened Jiffies
  import opened Lists
  import opened Options

  type Id = nat

  /** BLKIO_WEIGHT_MIN to BLKIO_WEIGHT_MAX. */
  type Weight = n: nat | 10 <= n <= 1000 witness 500

  const BLKIO_WEIGHT_DEFAULT := 500
  const CFQ_SERVICE_SCALE := 4096          // 1 << CFQ_SERVICE_SHIFT
  const CFQ_IDLE_DELAY: nat := HZ / 5

  /** cfq_scale_slice. */
  function ScaleSlice(charge: nat, w: Weight): nat {
    Div(charge * CFQ_SERVICE_SCALE * BLKIO_WEIGHT_DEFAULT, w)
  }

  /** `pending` is the new weight of a group that needs an update. */
  datatype Group = Group(vdisktime: nat, weight: Weight, pending: Option<Weight>, nrCfqq: nat)

  /** The tree in order, with its cached first node. */
  datatype Tree = Tree(order: seq<Id>, groups: map<Id, Group>, left: Option<Id>, min: nat, total: int)

  ghost predicate Known(t: Tree) {
    forall g :: g in t.order ==> g in t.groups
  }

  /** Where a key goes: after every key that is not greater. */
  function Rank(order: seq<Id>, groups: map<Id, Group>, v: nat): (k: nat)
    requires forall g :: g in order ==> g in groups
    ensures k <= |order|
  {
    if order == [] || v < groups[order[0]].vdisktime then 0 else 1 + Rank(order[1..], groups, v)
  }

  /** cfq_update_group_weight. */
  function Reweighed(g: Group): Group {
    if g.pending.Some? then g.(weight := g.pending.value, pending := None) else g
  }

  /** cfq_group_service_tree_add. */
  function ServiceTreeAdd(t: Tree, g: Id): Tree
    requires Known(t) && g in t.groups && g !in t.order
  {
    var u := Reweighed(t.groups[g]);
    var groups := t.groups[g := u];
    var k := Rank(t.order, groups, u.vdisktime);
    t.(groups := groups, order := InsertAt(t.order, k, g),
       left := if k == 0 then Some(g) else t.left, total := t.total + u.weight)
  }

  /** cfq_group_service_tree_del: the weight is taken off in any case. */
  function ServiceTreeDel(t: Tree, g: Id): Tree
    requires g in t.groups
  {
    t.(total := t.total - t.groups[g].weight, order := Without(t.order, g),
       left := if g in t.order && t.left == Some(g) then None else t.left)
  }

  function Changed(t: Tree, g: Id, u: Group): Tree {
    t.(groups := t.groups[g := u])
  }

  /** One more queue; a group that was off the tree goes behind the last one. */
  function Joined(t: Tree, g: Id): Group
    requires Known(t) && g in t.groups
  {
    var u := t.groups[g].(nrCfqq := t.groups[g].nrCfqq + 1);
    if g in t.order then u
    else if t.order == [] then u.(vdisktime := t.min)
    else u.(vdisktime := t.groups[t.order[|t.order| - 1]].vdisktime + CFQ_IDLE_DELAY)
  }

  /** cfq_group_notify_queue_add. */
  function NotifyQueueAdd(t: Tree, g: Id): Tree
    requires Known(t) && g in t.groups
  {
    if g in t.order then Changed(t, g, Joined(t, g)) else ServiceTreeAdd(Changed(t, g, Joined(t, g)), g)
  }

  function Left(u: Group): Group
    requires u.nrCfqq >= 1
  {
    u.(nrCfqq := u.nrCfqq - 1)
  }

  /** cfq_group_notify_queue_del. */
  function NotifyQueueDel(t: Tree, g: Id): Tree
    requires g in t.groups && t.groups[g].nrCfqq >= 1
  {
    var t1 := Changed(t, g, Left(t.groups[g]));
    if t1.groups[g].nrCfqq > 0 then t1 else ServiceTreeDel(t1, g)
  }

  function Charged(u: Group, charge: nat): Group {
    u.(vdisktime := u.vdisktime + ScaleSlice(charge, u.weight))
  }

  /** cfq_group_served: off the tree, charged, and on again. */
  function GroupServed(t: Tree, g: Id, charge: nat): Tree
    requires Known(t) && g in t.groups
  {
    ServiceTreeAdd(Changed(ServiceTreeDel(t, g), g, Charged(t.groups[g], charge)), g)
  }

  /** cfq_get_next_cfqg: the cached or true first group, and the tree with the
      cache filled and min_vdisktime raised. */
  function GetNextGroup(t: Tree): (r: (Option<Id>, Tree))
    requires Known(t) && (t.left.Some? ==> t.left.value in t.groups)
  {
    if t.order == [] then (None, t)
    else
      var g := if t.left.Some? then t.left.value else t.order[0];
      var v := t.groups[g].vdisktime;
      (Some(g), t.(left := Some(g), min := if v > t.min then v else t.min))
  }

  // ----- what every operation keeps

  ghost predicate Ordered(order: seq<Id>, groups: map<Id, Group>)
    requires forall g :: g in order ==> g in groups
  {
    forall i, j :: 0 <= i < j < |order| ==> groups[order[i]].vdisktime <= groups[order[j]].vdisktime
  }

  function Weights(order: seq<Id>, groups: map<Id, Group>): nat
    requires forall g :: g in order ==> g in groups
  {
    if order == [] then 0 else groups[order[0]].weight + Weights(order[1..], groups)
  }

  /** Everything but the queue counts. */
  ghost predicate Sorted(t: Tree) {
    && Known(t) && Distinct(t.order) && Ordered(t.order, t.groups)
    && t.total == Weights(t.order, t.groups)
    && (t.left.Some? ==> t.order != [] && t.left == Some(t.order[0]))
    && (forall g :: g in t.order ==> t.min <= t.groups[g].vdisktime)
  }

  /** A group is on the tree exactly when it has queues. */
  ghost predicate Counted(t: Tree) {
    forall g :: g in t.groups ==> (g in t.order <==> t.groups[g].nrCfqq > 0)
  }

  ghost predicate Valid(t: Tree) {
    Sorted(t) && Counted(t)
  }

  lemma {:induction false} RankOrders(order: seq<Id>, groups: map<Id, Group>, v: nat)
    requires (forall g :: g in order ==> g in groups) && Ordered(order, groups)
    ensures forall i :: 0 <= i < Rank(order, groups, v) ==> groups[order[i]].vdisktime <= v
    ensures forall i :: Rank(order, groups, v) <= i < |order| ==> v < groups[order[i]].vdisktime
  {
    if order != [] && v >= groups[order[0]].vdisktime {
      RankOrders(order[1..], groups, v);
      assert forall i :: 0 < i < |order| ==> order[i] == order[1..][i - 1];
    }
  }

  lemma {:induction false} WeightsInsert(order: seq<Id>, groups: map<Id, Group>, k: nat, g: Id)
    requires (forall h :: h in order ==> h in groups) && g in groups && k <= |order|
    ensures Weights(InsertAt(order, k, g), groups) == Weights(order, groups) + groups[g].weight
  {
    var r := InsertAt(order, k, g);
    if k == 0 {
      assert r[1..] == order;
    } else {
      WeightsInsert(order[1..], groups, k - 1, g);
      assert r[1..] == InsertAt(order[1..], k - 1, g);
    }
  }

  lemma {:induction false} WeightsSame(order: seq<Id>, a: map<Id, Group>, b: map<Id, Group>)
    requires forall h :: h in order ==> h in a && h in b && a[h].weight == b[h].weight
    ensures Weights(order, a) == Weights(order, b)
  {
    if order != [] { WeightsSame(order[1..], a, b); }
  }

  lemma {:induction false} WeightsWithout(order: seq<Id>, groups: map<Id, Group>, g: Id)
    requires (forall h :: h in order ==> h in groups) && g in order && Distinct(order)
    ensures Weights(Without(order, g), groups) == Weights(order, groups) - groups[g].weight
  {
    if order[0] == g {
      WithoutAbsent(order[1..], g);
    } else {
      WeightsWithout(order[1..], groups, g);
      assert Without(order, g)[1..] == Without(order[1..], g);
    }
  }

  lemma {:induction false} InsertBetween(order: seq<Id>, groups: map<Id, Group>, g: Id, k: nat, r: seq<Id>)
    requires (forall h :: h in r ==> h in groups) && k <= |order| && |r| == |order| + 1 && r[k] == g
    requires forall i :: 0 <= i < k ==> r[i] == order[i] && order[i] in groups
    requires forall i :: k < i < |r| ==> r[i] == order[i - 1] && order[i - 1] in groups
    requires (forall h :: h in order ==> h in groups) && Ordered(order, groups)
    requires forall i :: 0 <= i < k ==> groups[order[i]].vdisktime <= groups[g].vdisktime
    requires forall i :: k <= i < |order| ==> groups[g].vdisktime <= groups[order[i]].vdisktime
    ensures Ordered(r, groups)
  {
    forall i, j | 0 <= i < j < |r| ensures groups[r[i]].vdisktime <= groups[r[j]].vdisktime {
      if i != k && j != k {
        var a, b := if i < k then i else i - 1, if j < k then j else j - 1;
        assert r[i] == order[a] && r[j] == order[b];
      }
    }
  }

  lemma {:induction false} InsertOrdered(order: seq<Id>, groups: map<Id, Group>, g: Id)
    requires (forall h :: h in order ==> h in groups) && g in groups && Ordered(order, groups)
    ensures forall h :: h in InsertAt(order, Rank(order, groups, groups[g].vdisktime), g) ==> h in groups
    ensures Ordered(InsertAt(order, Rank(order, groups, groups[g].vdisktime), g), groups) == true
  {
    var k := Rank(order, groups, groups[g].vdisktime);
    RankOrders(order, groups, groups[g].vdisktime);
    InsertMembers(order, k, g);
    InsertBetween(order, groups, g, k, InsertAt(order, k, g));
  }

  lemma {:induction false} AddOrdered(t: Tree, g: Id)
    requires Known(t) && Ordered(t.order, t.groups) && g in t.groups && g !in t.order
    ensures Known(ServiceTreeAdd(t, g))
    ensures Ordered(ServiceTreeAdd(t, g).order, ServiceTreeAdd(t, g).groups)
  {
    var groups := t.groups[g := Reweighed(t.groups[g])];
    assert forall h :: h in t.order ==> groups[h] == t.groups[h];
    InsertOrdered(t.order, groups, g);
  }

  lemma {:induction false} AddWeighs(t: Tree, g: Id)
    requires Known(t) && g in t.groups && g !in t.order && t.total == Weights(t.order, t.groups)
    ensures Known(ServiceTreeAdd(t, g))
    ensures ServiceTreeAdd(t, g).total == Weights(ServiceTreeAdd(t, g).order, ServiceTreeAdd(t, g).groups)
  {
    var u := ServiceTreeAdd(t, g);
    var k := Rank(t.order, u.groups, t.groups[g].vdisktime);
    InsertMembers(t.order, k, g);
    WeightsSame(t.order, t.groups, u.groups);
    WeightsInsert(t.order, u.groups, k, g);
  }

  lemma {:induction false} AddSorted(t: Tree, g: Id)
    requires Sorted(t) && g in t.groups && g !in t.order && t.min <= t.groups[g].vdisktime
    ensures Sorted(ServiceTreeAdd(t, g))
    ensures forall h :: h in ServiceTreeAdd(t, g).order <==> h == g || h in t.order
  {
    AddOrdered(t, g);
    AddWeighs(t, g);
    InsertMembers(t.order, Rank(t.order, t.groups[g := Reweighed(t.groups[g])], t.groups[g].vdisktime), g);
  }

  lemma {:induction false} WithoutOrdered(order: seq<Id>, groups: map<Id, Group>, g: Id)
    requires (forall h :: h in order ==> h in groups) && Ordered(order, groups)
    ensures Ordered(Without(order, g), groups)
  {
    if order != [] {
      WithoutOrdered(order[1..], groups, g);
      var r := Without(order[1..], g);
      forall i | 0 <= i < |r| ensures groups[order[0]].vdisktime <= groups[r[i]].vdisktime {
        assert r[i] in order[1..];
      }
    }
  }

  lemma {:induction false} DelSorted(t: Tree, g: Id)
    requires Sorted(t) && g in t.order
    ensures Sorted(ServiceTreeDel(t, g))
  {
    DistinctWithout(t.order, g);
    WeightsWithout(t.order, t.groups, g);
    WithoutOrdered(t.order, t.groups, g);
  }

  /** Changing a group off the tree does not disturb the tree. */
  lemma {:induction false} ChangedSorted(t: Tree, g: Id, u: Group)
    requires Sorted(t) && g in t.groups
    requires g !in t.order || (u.vdisktime == t.groups[g].vdisktime && u.weight == t.groups[g].weight)
    ensures Sorted(Changed(t, g, u))
  {
    WeightsSame(t.order, t.groups, t.groups[g := u]);
  }

  /** A changed group goes back on the tree. */
  lemma {:induction false} ReAddValid(t: Tree, g: Id, u: Group)
    requires Sorted(t) && g in t.groups && g !in t.order && t.min <= u.vdisktime && u.nrCfqq > 0
    requires forall h :: h in t.groups && h != g ==> (h in t.order <==> t.groups[h].nrCfqq > 0)
    ensures Valid(ServiceTreeAdd(Changed(t, g, u), g))
  {
    ChangedSorted(t, g, u);
    AddSorted(Changed(t, g, u), g);
  }

  /** The group tree through a queue joining a group... */
  lemma {:induction false} NotifyQueueAddValid(t: Tree, g: Id)
    requires Valid(t) && g in t.groups
    ensures Valid(NotifyQueueAdd(t, g))
  {
    if g in t.order {
      ChangedSorted(t, g, Joined(t, g));
    } else {
      assert t.order != [] ==> t.order[|t.order| - 1] in t.order;
      ReAddValid(t, g, Joined(t, g));
    }
  }

  /** ...leaving it... */
  lemma {:induction false} NotifyQueueDelValid(t: Tree, g: Id)
    requires Valid(t) && g in t.groups && t.groups[g].nrCfqq >= 1
    ensures Valid(NotifyQueueDel(t, g))
  {
    ChangedSorted(t, g, Left(t.groups[g]));
    DelSorted(Changed(t, g, Left(t.groups[g])), g);
  }

  /** A group that comes onto the tree goes last, behind all by an idle delay, or takes up the
      time the tree has come to if it is alone; a new weight takes effect then. */
  lemma {:induction false} NewcomerLast(t: Tree, g: Id)
    requires Valid(t) && g in t.groups && g !in t.order
    ensures var r := NotifyQueueAdd(t, g);
            && r.order == t.order + [g] && r.min == t.min && g in r.groups && r.groups == t.groups[g := r.groups[g]]
            && (forall h :: h in t.order ==> t.groups[h].vdisktime + HZ / 5 <= r.groups[g].vdisktime)
            && (t.order != [] ==> exists h :: h in t.order && t.groups[h].vdisktime + HZ / 5 == r.groups[g].vdisktime)
            && (t.order == [] ==> r.groups[g].vdisktime == t.min)
            && r.groups[g].nrCfqq == t.groups[g].nrCfqq + 1
            && r.groups[g].pending.None?
            && r.groups[g].weight == if t.groups[g].pending.Some? then t.groups[g].pending.value else t.groups[g].weight
  {
    var u := Reweighed(Joined(t, g));
    if t.order != [] { LastOf(t); }
    RankLast(t.order, t.groups, u.vdisktime);
    RankElsewhere(t.order, t.groups, g, u, u.vdisktime);
    assert InsertAt(t.order, |t.order|, g) == t.order + [g];
    assert t.groups[g := Joined(t, g)][g := u] == t.groups[g := u];
  }

  lemma {:induction false} LastOf(t: Tree)
    requires Sorted(t) && t.order != []
    ensures var z := t.order[|t.order| - 1];
            z in t.order && forall h :: h in t.order ==> t.groups[h].vdisktime <= t.groups[z].vdisktime
  {
    forall h | h in t.order ensures t.groups[h].vdisktime <= t.groups[t.order[|t.order| - 1]].vdisktime {
      var i :| 0 <= i < |t.order| && t.order[i] == h;
    }
  }

  lemma {:induction false} RankLast(order: seq<Id>, groups: map<Id, Group>, v: nat)
    requires (forall h :: h in order ==> h in groups && groups[h].vdisktime <= v)
    ensures Rank(order, groups, v) == |order|
  {
    if order != [] { RankLast(order[1..], groups, v); }
  }

  lemma {:induction false} RankElsewhere(order: seq<Id>, groups: map<Id, Group>, g: Id, u: Group, v: nat)
    requires (forall h :: h in order ==> h in groups) && g !in order
    ensures Rank(order, groups[g := u], v) == Rank(order, groups, v)
  {
    if order != [] { RankElsewhere(order[1..], groups, g, u, v); }
  }

  /** ...the group being charged... */
  lemma {:induction false} GroupServedValid(t: Tree, g: Id, charge: nat)
    requires Valid(t) && g in t.order
    ensures Valid(GroupServed(t, g, charge))
  {
    DelSorted(t, g);
    ReAddValid(ServiceTreeDel(t, g), g, Charged(t.groups[g], charge));
  }

  /** ...and a group being picked, which has the least virtual time. */
  lemma {:induction false} GetNextGroupValid(t: Tree)
    requires Valid(t)
    ensures GetNextGroup(t).0.None? <==> t.order == []
    ensures t.order != [] ==> GetNextGroup(t).0 == Some(t.order[0])
    ensures t.order != [] ==> GetNextGroup(t).1.min == t.groups[t.order[0]].vdisktime
    ensures forall h :: h in t.order ==> t.groups[t.order[0]].vdisktime <= t.groups[h].vdisktime
    ensures Valid(GetNextGroup(t).1) && t.min <= GetNextGroup(t).1.min
  {
    forall h | h in t.order ensures t.groups[t.order[0]].vdisktime <= t.groups[h].vdisktime {
      var i :| 0 <= i < |t.order| && t.order[i] == h;
    }
  }

  // ----- the tree as it is updated in place

  class GroupTree {
    var order: seq<Id>
    var groups: map<Id, Group>
    var left: Option<Id>
    var minVdisktime: nat
    var totalWeight: int

    ghost function Value(): Tree
      reads this
    {
      Tree(order, groups, left, minVdisktime, totalWeight)
    }

    constructor (groups: map<Id, Group>)
      requires forall g :: g in groups ==> groups[g].nrCfqq == 0
      ensures Value() == Tree([], groups, None, 0, 0) && Valid(Value())
    {
      this.order, this.groups, left, minVdisktime, totalWeight := [], groups, None, 0, 0;
    }

    /** The descent that finds the place of a key. */
    static method Descend(order: seq<Id>, groups: map<Id, Group>, key: nat) returns (k: nat)
      requires forall g :: g in order ==> g in groups
      ensures k == Rank(order, groups, key)
    {
      k := 0;
      while k < |order| && !(key < groups[order[k]].vdisktime)
        invariant k <= |order| && Rank(order, groups, key) == k + Rank(order[k..], groups, key)
      {
        assert order[k..][1..] == order[k + 1..];
        k := k + 1;
      }
    }

    method Add(g: Id)
      requires Known(Value()) && g in groups && g !in order
      modifies this
      ensures Value() == ServiceTreeAdd(old(Value()), g)
    {
      groups := groups[g := Reweighed(groups[g])];
      var k := Descend(order, groups, groups[g].vdisktime);
      if k == 0 { left := Some(g); }
      order := InsertAt(order, k, g);
      totalWeight := totalWeight + groups[g].weight;
    }

    method Del(g: Id)
      requires g in groups
      modifies this
      ensures Value() == ServiceTreeDel(old(Value()), g)
      ensures old(Sorted(Value()) && g in order) ==> Sorted(Value())
    {
      if Sorted(Value()) && g in order { DelSorted(Value(), g); }
      totalWeight := totalWeight - groups[g].weight;
      if g in order {
        if left == Some(g) { left := None; }
        order := Without(order, g);
      } else {
        WithoutAbsent(order, g);
      }
    }

    method QueueAdded(g: Id)
      requires Valid(Value()) && g in groups
      modifies this
      ensures Value() == NotifyQueueAdd(old(Value()), g) && Valid(Value()) == true
    {
      NotifyQueueAddValid(Value(), g);
      Enter(g);
    }

    method Enter(g: Id)
      requires Known(Value()) && g in groups
      modifies this
      ensures Value() == NotifyQueueAdd(old(Value()), g)
    {
      ghost var t := Value();
      var u := groups[g].(nrCfqq := groups[g].nrCfqq + 1);
      if g in order {
        groups := groups[g := u];
        return;
      }
      if order != [] {
        u := u.(vdisktime := groups[order[|order| - 1]].vdisktime + CFQ_IDLE_DELAY);
      } else {
        u := u.(vdisktime := minVdisktime);
      }
      assert u == Joined(t, g);
      groups := groups[g := u];
      assert Value() == Changed(t, g, Joined(t, g));
      Add(g);
    }

    method QueueRemoved(g: Id)
      requires Valid(Value()) && g in groups && groups[g].nrCfqq >= 1
      modifies this
      ensures Value() == NotifyQueueDel(old(Value()), g) && Valid(Value()) == true
    {
      NotifyQueueDelValid(Value(), g);
      groups := groups[g := groups[g].(nrCfqq := groups[g].nrCfqq - 1)];
      if groups[g].nrCfqq > 0 { return; }
      Del(g);
    }

    method Served(g: Id, charge: nat)
      requires Valid(Value()) && g in order
      modifies this
      ensures Value() == GroupServed(old(Value()), g, charge) && Valid(Value()) == true
    {
      ghost var t := Value();
      GroupServedValid(t, g, charge);
      Del(g);
      groups := groups[g := Charged(groups[g], charge)];
      assert Value() == Changed(ServiceTreeDel(t, g), g, Charged(t.groups[g], charge));
      Add(g);
    }

    method GetNext() returns (g: Option<Id>)
      requires Valid(Value())
      modifies this
      ensures (g, Value()) == GetNextGroup(old(Value())) && Valid(Value()) == true
    {
      GetNextGroupValid(Value());
      if order == [] { return None; }
      if left.None? { left := Some(order[0]); }
      g := left;
      if groups[left.value].vdisktime > minVdisktime { minVdisktime := groups[left.value].vdisktime; }
    }
  }
}
