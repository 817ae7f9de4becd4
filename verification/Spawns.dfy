/** crypto_remove_spawns: when an algorithm goes away or is superseded, the
    instances built on it are removed, except those the new algorithm needs.
    Instances form a forest; each has one spawn, which sits on the cra_users
    list of the algorithm it is built on, so a spawn is named by its instance. */
module Spawns {
  import opened Lists
  import opened Options

  type Id = nat

  /** The forest before the walk, and what the walk is asked to do. */
  datatype Job = Job(
    inst: set<Id>,                 // the instances whose spawn has its algorithm
    gone: set<Id>,                 // those that an earlier removal took it from
    parent: map<Id, Id>,           // spawn->alg of each
    depth: map<Id, nat>,
    users: map<Id, seq<Id>>,       // cra_users
    alg: Id,
    nalg: Option<Id>,              // the new algorithm, if any
    hits: set<Id>)                 // spawns of alg that match the new type

  /** A forest: every list holds the spawns on its algorithm, once each. */
  ghost predicate Grown(j: Job) {
    && j.parent.Keys == j.inst && j.inst <= j.depth.Keys && j.inst !! j.gone
    && (forall x, p {:trigger j.depth[x], j.depth[p]} ::
          x in j.inst && p in j.inst && j.parent[x] == p ==> j.depth[p] < j.depth[x])
    && j.inst <= j.users.Keys
    && (forall x {:trigger j.parent[x]} :: x in j.inst ==> j.parent[x] in j.users)
    && (forall a :: a in j.users ==> Distinct(j.users[a]))
    && (forall a, x {:trigger x in j.users[a]} :: a in j.users ==>
          (x in j.users[a] <==> x in j.inst && j.parent[x] == a))
  }

  ghost predicate WellFormed(j: Job) {
    && Grown(j)
    && j.alg in j.users
    && (forall x :: x in j.hits ==> x in j.inst && j.parent[x] == j.alg)
  }

  ghost predicate IsNew(j: Job, x: Id) {
    j.nalg == Some(x)
  }

  /** `x` hangs below a matching spawn of alg, and not below the new algorithm. */
  ghost predicate InWalk(j: Job, x: Id)
    requires WellFormed(j)
    decreases if x in j.depth then j.depth[x] else 0
  {
    && x in j.inst
    && if j.parent[x] == j.alg then x in j.hits
       else j.parent[x] in j.inst && !IsNew(j, j.parent[x]) && InWalk(j, j.parent[x])
  }

  /** `x` is `y` or one of its ancestors below alg. */
  ghost predicate Above(j: Job, x: Id, y: Id)
    requires WellFormed(j)
    decreases if y in j.depth then j.depth[y] else 0
  {
    x == y || (y in j.inst && j.parent[y] != j.alg && j.parent[y] in j.inst && Above(j, x, j.parent[y]))
  }

  /** `x` leads from alg to the new algorithm. */
  ghost predicate OnPath(j: Job, x: Id)
    requires WellFormed(j)
  {
    j.nalg.Some? && InWalk(j, j.nalg.value) && Above(j, x, j.nalg.value)
  }

  /** The instances that must go. */
  ghost predicate Doomed(j: Job, x: Id)
    requires WellFormed(j)
  {
    InWalk(j, x) && !OnPath(j, x)
  }

  lemma {:induction false} AboveInWalk(j: Job, x: Id, y: Id)
    requires WellFormed(j) && InWalk(j, y) && Above(j, x, y)
    ensures InWalk(j, x) && (x != y ==> !IsNew(j, x))
    decreases if y in j.depth then j.depth[y] else 0
  {
    if x != y { AboveInWalk(j, x, j.parent[y]); }
  }

  lemma {:induction false} AboveParent(j: Job, x: Id, y: Id)
    requires WellFormed(j) && InWalk(j, x) && j.parent[x] != j.alg && Above(j, x, y)
    ensures Above(j, j.parent[x], y)
    decreases if y in j.depth then j.depth[y] else 0
  {
    if x != y { AboveParent(j, x, j.parent[y]); }
  }

  /** Below alg, the path goes on upwards... */
  lemma {:induction false} PathUp(j: Job, x: Id)
    requires WellFormed(j) && x in j.inst && OnPath(j, x) && j.parent[x] != j.alg
    ensures InWalk(j, x) && OnPath(j, j.parent[x])
  {
    AboveInWalk(j, x, j.nalg.value);
    AboveParent(j, x, j.nalg.value);
  }

  /** Nothing below the new algorithm is touched. */
  lemma {:induction false} BelowNewSpared(j: Job, x: Id)
    requires WellFormed(j) && j.nalg.Some? && x != j.nalg.value && Above(j, j.nalg.value, x)
    ensures !InWalk(j, x) && !Doomed(j, x)
  {
    if InWalk(j, x) { AboveInWalk(j, j.nalg.value, x); }
  }

  lemma {:induction false} ChildAbove(j: Job, x: Id, y: Id) returns (c: Id)
    requires WellFormed(j) && x != y && Above(j, x, y)
    ensures c in j.inst && j.parent[c] == x && Above(j, c, y)
    decreases if y in j.depth then j.depth[y] else 0
  {
    if j.parent[y] == x { c := y; } else { c := ChildAbove(j, x, j.parent[y]); }
  }

  /** ...and downwards to the new algorithm. */
  lemma {:induction false} PathDown(j: Job, x: Id) returns (c: Id)
    requires WellFormed(j) && OnPath(j, x) && !IsNew(j, x)
    ensures c in j.inst && j.parent[c] == x && OnPath(j, c)
  {
    c := ChildAbove(j, x, j.nalg.value);
  }

  // ----- the walk

  datatype Walk = Walk(
    users: map<Id, seq<Id>>,        // the cra_users lists
    on: map<Id, Option<Id>>,        // spawn->alg
    top: seq<Id>,
    stack: seq<Id>,
    secondary: seq<Id>)

  /** The list that `spawns` points to. */
  function Current(w: Walk): seq<Id>
    requires w.stack != [] ==> w.stack[0] in w.users
  {
    if w.stack == [] then w.top else w.users[w.stack[0]]
  }

  /** One turn of the inner loop: the first spawn of the current list goes on the
      stack, and loses its algorithm unless it is the new one. */
  function Push(nalg: Option<Id>, w: Walk): Walk
    requires w.stack != [] ==> w.stack[0] in w.users
    requires Current(w) != []
  {
    var x := Current(w)[0];
    var v := if w.stack == [] then w.(top := w.top[1..]) else w.(users := w.users[w.stack[0] := Current(w)[1..]]);
    v.(stack := [x] + w.stack, on := if nalg == Some(x) then w.on else w.on[x := None])
  }

  /** crypto_more_spawns on a non-empty stack: the top spawn is finished, and if
      it still has its algorithm then the one below gets its own back. */
  function Pop(alg: Id, w: Walk): Walk
    requires w.stack != [] && w.stack[0] in w.on && (|w.stack| > 1 ==> w.stack[1] in w.on)
  {
    var s := w.stack[0];
    w.(on := if |w.stack| > 1 && w.on[s].Some? && w.on[w.stack[1]].None?
             then w.on[w.stack[1] := Some(if |w.stack| == 2 then alg else w.stack[2])] else w.on,
       stack := w.stack[1..],
       secondary := [s] + w.secondary)
  }

  ghost predicate Seen(w: Walk, x: Id) {
    x in w.stack || x in w.secondary
  }

  /** The stack is a chain of spawns, each on the one below, the last on alg. */
  ghost predicate Chain(j: Job, w: Walk)
    requires WellFormed(j)
  {
    && Distinct(w.stack) && Distinct(w.secondary)
    && (forall x :: x in w.stack ==> x !in w.secondary)
    && (forall i :: 0 <= i < |w.stack| ==> InWalk(j, w.stack[i]))
    && (forall x :: x in w.secondary ==> InWalk(j, x))
    && (forall i, k :: 0 <= i && k == i + 1 < |w.stack| ==> j.parent[w.stack[i]] == w.stack[k])
    && (w.stack != [] ==> j.parent[w.stack[|w.stack| - 1]] == j.alg)
    && (forall i :: 0 < i < |w.stack| ==> !IsNew(j, w.stack[i]))
  }

  /** What has been seen was reached from alg through what has been seen. */
  ghost predicate Rooted(j: Job, w: Walk)
    requires WellFormed(j)
  {
    forall x, p {:trigger Seen(w, x), Seen(w, p)} ::
      x in j.inst && Seen(w, x) && j.parent[x] == p && p != j.alg ==> Seen(w, p)
  }

  /** Every list holds what it held, minus what has been seen. */
  ghost predicate Listed(j: Job, w: Walk)
    requires WellFormed(j)
  {
    && w.users.Keys == j.users.Keys
    && (forall a :: a in w.users ==> Distinct(w.users[a]))
    && Distinct(w.top)
    && (forall x :: x in w.top <==> x in j.hits && !Seen(w, x))
    && (forall a, x {:trigger x in w.users[a]} :: a in w.users ==>
          (x in w.users[a] <==> x in j.inst && j.parent[x] == a && x !in j.hits && !Seen(w, x)))
  }

  /** A list with no spawn in the walk is exactly as it was. */
  ghost predicate Untouched(j: Job, users: map<Id, seq<Id>>)
    requires WellFormed(j)
  {
    forall a :: a in j.users && a in users && (forall x :: x in j.users[a] ==> !InWalk(j, x)) ==>
      users[a] == j.users[a]
  }

  /** A finished spawn has no users left, unless it is the new algorithm. */
  ghost predicate Finished(j: Job, w: Walk) {
    forall x :: x in w.secondary && !IsNew(j, x) ==> x in w.users && w.users[x] == []
  }

  /** A path below `x` has been finished. */
  ghost predicate PathDone(j: Job, w: Walk, x: Id)
    requires WellFormed(j)
  {
    exists c :: c in w.secondary && OnPath(j, c) && c in j.parent && j.parent[c] == x
  }

  /** What spawn->alg must be: unseen spawns keep theirs, finished ones have it
      exactly on the path, and a spawn on the stack has it back once its part
      of the path is finished. */
  ghost function Expected(j: Job, w: Walk, x: Id): Option<Id>
    requires WellFormed(j) && x in j.inst
  {
    if !Seen(w, x)
       || (if x in w.secondary then OnPath(j, x) else IsNew(j, x) || PathDone(j, w, x))
    then Some(j.parent[x]) else None
  }

  ghost predicate Attached(j: Job, w: Walk)
    requires WellFormed(j)
  {
    && w.on.Keys == j.inst + j.gone
    && (forall x :: x in j.gone ==> w.on[x].None?)
    && (forall x :: x in j.inst ==> w.on[x] == Expected(j, w, x))
  }

  ghost predicate Inv(j: Job, w: Walk) {
    WellFormed(j) && Chain(j, w) && Rooted(j, w) && Listed(j, w) && Untouched(j, w.users)
    && Finished(j, w) && Attached(j, w)
  }

  /** The BUG_ON in the inner loop: the walk never comes back to alg. */
  lemma {:induction false} WalkAvoidsAlg(j: Job, x: Id)
    requires WellFormed(j) && InWalk(j, x)
    ensures x != j.alg
    ensures j.alg in j.inst ==> j.depth[j.alg] < j.depth[x]
    decreases j.depth[x]
  {
    if j.parent[x] != j.alg { WalkAvoidsAlg(j, j.parent[x]); }
  }

  ghost predicate CanPush(j: Job, w: Walk) {
    Inv(j, w) && (w.stack == [] || !IsNew(j, w.stack[0])) && Current(w) != []
  }

  /** The spawn about to be pushed is a new one, reached from the stack. */
  ghost predicate Fresh(j: Job, w: Walk) {
    && WellFormed(j)
    && (w.stack != [] ==> w.stack[0] in w.users && !IsNew(j, w.stack[0]) && w.stack[0] != j.alg)
    && Current(w) != []
    && var x := Current(w)[0];
       x in j.inst && InWalk(j, x) && !Seen(w, x)
       && j.parent[x] == if w.stack == [] then j.alg else w.stack[0]
  }

  lemma {:induction false} PushedIsFresh(j: Job, w: Walk)
    requires CanPush(j, w)
    ensures Fresh(j, w)
  {
    var x := Current(w)[0];
    assert x in Current(w);
    if w.stack != [] { WalkAvoidsAlg(j, w.stack[0]); }
  }

  lemma {:induction false} PushSeen(nalg: Option<Id>, w: Walk)
    requires w.stack != [] ==> w.stack[0] in w.users
    requires Current(w) != []
    ensures forall y :: Seen(Push(nalg, w), y) <==> y == Current(w)[0] || Seen(w, y)
  {
  }

  lemma {:induction false} PushChain(j: Job, w: Walk)
    requires Fresh(j, w) && Chain(j, w)
    ensures Chain(j, Push(j.nalg, w))
  {
  }

  lemma {:induction false} PushRooted(j: Job, w: Walk)
    requires Fresh(j, w) && Rooted(j, w)
    ensures Rooted(j, Push(j.nalg, w))
  {
    PushSeen(j.nalg, w);
    var v := Push(j.nalg, w);
    forall y | y in j.inst && Seen(v, y) && j.parent[y] != j.alg ensures Seen(v, j.parent[y]) {
      if y == Current(w)[0] {
        assert Seen(w, w.stack[0]);
      } else {
        assert Seen(w, y) && (Seen(w, j.parent[y]) || true);
      }
    }
  }

  lemma {:induction false} PushListed(j: Job, w: Walk)
    requires Fresh(j, w) && Listed(j, w)
    ensures Listed(j, Push(j.nalg, w))
  {
    PushSeen(j.nalg, w);
    DistinctTail(Current(w));
    var v := Push(j.nalg, w);
    var x := Current(w)[0];
    forall a, y | a in v.users
      ensures y in v.users[a] <==> y in j.inst && j.parent[y] == a && y !in j.hits && !Seen(v, y)
    {
      assert y in w.users[a] <==> y in j.inst && j.parent[y] == a && y !in j.hits && !Seen(w, y);
      assert v.users[a] == if w.stack != [] && a == w.stack[0] then w.users[a][1..] else w.users[a];
    }
  }

  lemma {:induction false} PushUntouched(j: Job, w: Walk)
    requires Fresh(j, w) && Untouched(j, w.users) && j.users.Keys == w.users.Keys
    ensures Untouched(j, Push(j.nalg, w).users)
  {
    if w.stack != [] {
      assert Current(w)[0] in j.users[w.stack[0]];
    }
  }

  lemma {:induction false} PushFinished(j: Job, w: Walk)
    requires Fresh(j, w) && Finished(j, w)
    ensures Finished(j, Push(j.nalg, w))
  {
  }

  lemma {:induction false} PushAttached(j: Job, w: Walk)
    requires Fresh(j, w) && Rooted(j, w) && Attached(j, w)
    ensures Attached(j, Push(j.nalg, w))
  {
    PushSeen(j.nalg, w);
    var v := Push(j.nalg, w);
    var x := Current(w)[0];
    WalkAvoidsAlg(j, x);
    assert !PathDone(j, w, x) by {
      forall c | c in w.secondary && c in j.parent ensures j.parent[c] != x {
        assert Seen(w, c) && !Seen(w, x);
      }
    }
    forall y | y in j.inst ensures v.on[y] == Expected(j, v, y) {
      assert PathDone(j, v, y) == PathDone(j, w, y);
      assert w.on[y] == Expected(j, w, y);
    }
  }

  lemma {:induction false} PushInv(j: Job, w: Walk)
    requires CanPush(j, w) == true
    ensures Inv(j, Push(j.nalg, w)) == true
  {
    PushedIsFresh(j, w);
    PushChain(j, w);
    PushRooted(j, w);
    PushListed(j, w);
    PushUntouched(j, w);
    PushFinished(j, w);
    PushAttached(j, w);
  }

  ghost predicate CanPop(j: Job, w: Walk) {
    Inv(j, w) && w.stack != [] && (IsNew(j, w.stack[0]) || Current(w) == [])
  }

  lemma {:induction false} NotBelowTop(j: Job, w: Walk, c: Id)
    requires WellFormed(j) && Chain(j, w) && w.stack != [] && w.stack[0] != j.alg
    requires c in j.inst && j.parent[c] == w.stack[0]
    ensures c !in w.stack
  {
    forall i | 0 <= i < |w.stack| ensures w.stack[i] != c {
      assert i + 1 == |w.stack| || j.parent[w.stack[i]] == w.stack[i + 1];
    }
  }

  /** When a spawn is finished, it is attached exactly if it leads to the new algorithm. */
  lemma {:induction false} TopOnPath(j: Job, w: Walk)
    requires CanPop(j, w)
    ensures OnPath(j, w.stack[0]) <==> IsNew(j, w.stack[0]) || PathDone(j, w, w.stack[0])
  {
    var s := w.stack[0];
    WalkAvoidsAlg(j, s);
    if PathDone(j, w, s) {
      var c :| c in w.secondary && OnPath(j, c) && c in j.parent && j.parent[c] == s;
      PathUp(j, c);
    }
    if OnPath(j, s) && !IsNew(j, s) {
      var c := PathDown(j, s);
      assert c !in w.users[s];
      NotBelowTop(j, w, c);
    }
  }

  lemma {:induction false} PopSeen(alg: Id, w: Walk)
    requires w.stack != [] && w.stack[0] in w.on && (|w.stack| > 1 ==> w.stack[1] in w.on)
    ensures forall y :: Seen(Pop(alg, w), y) <==> Seen(w, y)
  {
    assert w.stack == [w.stack[0]] + w.stack[1..];
  }

  ghost predicate Popping(j: Job, w: Walk) {
    WellFormed(j) && Chain(j, w) && w.stack != [] && w.on.Keys == j.inst + j.gone
  }

  lemma {:induction false} PopChain(j: Job, w: Walk)
    requires Popping(j, w)
    ensures Chain(j, Pop(j.alg, w))
  {
    DistinctTail(w.stack);
    var v := Pop(j.alg, w);
    assert w.stack[0] !in w.secondary;
    assert forall i :: 0 <= i < |v.stack| ==> v.stack[i] == w.stack[i + 1];
    forall i, k | 0 <= i && k == i + 1 < |v.stack| ensures j.parent[v.stack[i]] == v.stack[k] {
      assert j.parent[w.stack[i + 1]] == w.stack[k + 1];
    }
    forall x | x in v.stack ensures x !in v.secondary {
    }
  }

  lemma {:induction false} PopListed(j: Job, w: Walk)
    requires Popping(j, w) && Listed(j, w) && Rooted(j, w)
    ensures Listed(j, Pop(j.alg, w)) && Rooted(j, Pop(j.alg, w))
  {
    PopSeen(j.alg, w);
  }

  lemma {:induction false} PopPathDone(j: Job, w: Walk, x: Id)
    requires Popping(j, w)
    ensures PathDone(j, Pop(j.alg, w), x)
       <==> PathDone(j, w, x) || (OnPath(j, w.stack[0]) && j.parent[w.stack[0]] == x)
  {
    if PathDone(j, w, x) {
      var c :| c in w.secondary && OnPath(j, c) && c in j.parent && j.parent[c] == x;
      assert c in Pop(j.alg, w).secondary;
    }
    assert w.stack[0] in Pop(j.alg, w).secondary;
  }

  lemma {:induction false} PopFinished(j: Job, w: Walk)
    requires Popping(j, w) && Finished(j, w)
    requires IsNew(j, w.stack[0]) || (w.stack[0] in w.users && w.users[w.stack[0]] == [])
    ensures Finished(j, Pop(j.alg, w))
  {
  }

  lemma {:induction false} PopAttachedTop(j: Job, w: Walk)
    requires Popping(j, w)
    requires w.on[w.stack[0]] == Expected(j, w, w.stack[0])
    requires OnPath(j, w.stack[0]) <==> IsNew(j, w.stack[0]) || PathDone(j, w, w.stack[0])
    ensures Pop(j.alg, w).on[w.stack[0]] == Expected(j, Pop(j.alg, w), w.stack[0])
  {
    assert w.stack[0] in w.stack && w.stack[0] in Pop(j.alg, w).secondary;
  }

  lemma {:induction false} PopAttachedSecond(j: Job, w: Walk)
    requires Popping(j, w) && |w.stack| > 1
    requires w.on[w.stack[0]] == Expected(j, w, w.stack[0]) && w.on[w.stack[1]] == Expected(j, w, w.stack[1])
    requires OnPath(j, w.stack[0]) <==> IsNew(j, w.stack[0]) || PathDone(j, w, w.stack[0])
    ensures Pop(j.alg, w).on[w.stack[1]] == Expected(j, Pop(j.alg, w), w.stack[1])
  {
    var x := w.stack[1];
    PopPathDone(j, w, x);
    assert w.stack[0] in w.stack && x in w.stack && x in w.stack[1..];
    assert j.parent[w.stack[0]] == x && j.parent[x] == if |w.stack| == 2 then j.alg else w.stack[2];
  }

  lemma {:induction false} PopAttachedRest(j: Job, w: Walk, x: Id)
    requires Popping(j, w) && x in j.inst && x != w.stack[0] && (|w.stack| > 1 ==> x != w.stack[1])
    requires w.on[x] == Expected(j, w, x)
    ensures Pop(j.alg, w).on[x] == Expected(j, Pop(j.alg, w), x)
  {
    PopSeen(j.alg, w);
    PopPathDone(j, w, x);
    assert w.stack == [w.stack[0]] + w.stack[1..];
    assert |w.stack| > 1 ==> j.parent[w.stack[0]] == w.stack[1];
  }

  lemma {:induction false} PopAttachedAt(j: Job, w: Walk, x: Id)
    requires Popping(j, w) && x in j.inst
    requires forall y :: y in w.stack ==> w.on[y] == Expected(j, w, y)
    requires w.on[x] == Expected(j, w, x)
    requires OnPath(j, w.stack[0]) <==> IsNew(j, w.stack[0]) || PathDone(j, w, w.stack[0])
    ensures Pop(j.alg, w).on[x] == Expected(j, Pop(j.alg, w), x)
  {
    assert w.stack[0] in w.stack;
    if x == w.stack[0] {
      PopAttachedTop(j, w);
    } else if |w.stack| > 1 && x == w.stack[1] {
      PopAttachedSecond(j, w);
    } else {
      PopAttachedRest(j, w, x);
    }
  }

  lemma {:induction false} PopKeys(j: Job, w: Walk)
    requires Popping(j, w) && forall x :: x in j.gone ==> w.on[x].None?
    ensures Pop(j.alg, w).on.Keys == j.inst + j.gone && forall x :: x in j.gone ==> Pop(j.alg, w).on[x].None?
  {
    if |w.stack| > 1 { assert w.stack[1] in j.inst; }
  }

  lemma {:induction false} PopAttached(j: Job, w: Walk)
    requires Popping(j, w) && Attached(j, w)
    requires OnPath(j, w.stack[0]) <==> IsNew(j, w.stack[0]) || PathDone(j, w, w.stack[0])
    ensures Attached(j, Pop(j.alg, w))
  {
    PopKeys(j, w);
    forall x | x in j.inst ensures Pop(j.alg, w).on[x] == Expected(j, Pop(j.alg, w), x) {
      PopAttachedAt(j, w, x);
    }
  }

  lemma {:induction false} PopInv(j: Job, w: Walk)
    requires CanPop(j, w) == true
    ensures Inv(j, Pop(j.alg, w)) == true
  {
    TopOnPath(j, w);
    PopChain(j, w);
    PopListed(j, w);
    PopFinished(j, w);
    PopAttached(j, w);
  }

  /** When stack and top are empty, every spawn in the walk has been finished. */
  lemma {:induction false} AllFinished(j: Job, w: Walk, x: Id)
    requires Inv(j, w) && w.stack == [] && w.top == [] && InWalk(j, x)
    ensures x in w.secondary
    decreases j.depth[x]
  {
    if j.parent[x] == j.alg {
      assert x !in w.top;
    } else {
      AllFinished(j, w, j.parent[x]);
      assert x !in w.users[j.parent[x]];
    }
  }

  ghost function Todo(j: Job, w: Walk): set<Id> {
    set x | x in j.inst && !Seen(w, x)
  }

  /** The spawns next to be looked at are known. */
  ghost predicate Handy(w: Walk) {
    w.stack != [] ==>
      w.stack[0] in w.users && w.stack[0] in w.on && (|w.stack| > 1 ==> w.stack[1] in w.on)
  }

  lemma {:induction false} InvHandy(j: Job, w: Walk)
    requires Inv(j, w) == true
    ensures Handy(w)
  {
  }

  lemma {:induction false} PushStep(j: Job, w: Walk)
    requires Inv(j, w) == true && Handy(w) && (w.stack == [] || !IsNew(j, w.stack[0])) && Current(w) != []
    ensures Current(w)[0] != j.alg
    ensures Inv(j, Push(j.nalg, w)) == true && Handy(Push(j.nalg, w)) && Todo(j, Push(j.nalg, w)) < Todo(j, w)
  {
    PushedIsFresh(j, w);
    WalkAvoidsAlg(j, Current(w)[0]);
    PushInv(j, w);
    PushSeen(j.nalg, w);
    assert Current(w)[0] in Todo(j, w);
    InvHandy(j, Push(j.nalg, w));
  }

  lemma {:induction false} PopStep(j: Job, w: Walk)
    requires Inv(j, w) == true && Handy(w) && w.stack != [] && (IsNew(j, w.stack[0]) || Current(w) == [])
    ensures Inv(j, Pop(j.alg, w)) == true && Handy(Pop(j.alg, w)) && Todo(j, Pop(j.alg, w)) == Todo(j, w)
    ensures w.stack[1..] != [] ==> !IsNew(j, w.stack[1])
  {
    PopInv(j, w);
    PopTodo(j, w);
    InvHandy(j, Pop(j.alg, w));
  }

  lemma {:induction false} PopTodo(j: Job, w: Walk)
    requires Handy(w) && w.stack != []
    ensures Todo(j, Pop(j.alg, w)) == Todo(j, w)
  {
    PopSeen(j.alg, w);
  }

  /** The inner loop: down to a spawn without users, or to the new algorithm. */
  method Descend(ghost j: Job, nalg: Option<Id>, w0: Walk) returns (w: Walk)
    requires Inv(j, w0) == true && Handy(w0) && j.nalg == nalg && (w0.stack == [] || !IsNew(j, w0.stack[0]))
    ensures Inv(j, w) == true && Handy(w) && (w == w0 || Todo(j, w) < Todo(j, w0))
    ensures (w.stack != [] && IsNew(j, w.stack[0])) || Current(w) == []
  {
    w := w0;
    while |Current(w)| > 0
      invariant Inv(j, w) == true && Handy(w)
      invariant w.stack == [] || !IsNew(j, w.stack[0])
      invariant w == w0 || Todo(j, w) < Todo(j, w0)
      decreases Todo(j, w)
    {
      var x := Current(w)[0];
      PushStep(j, w);
      assert x != j.alg;
      w := Push(nalg, w);
      if nalg == Some(x) { return; }
    }
  }

  /** One turn of the outer loop: down, then one spawn is finished. */
  method Turn(ghost j: Job, alg: Id, nalg: Option<Id>, w0: Walk) returns (w: Walk, more: bool)
    requires Inv(j, w0) == true && Handy(w0) && j.alg == alg && j.nalg == nalg
    requires w0.stack == [] || !IsNew(j, w0.stack[0])
    ensures Inv(j, w) == true && Handy(w)
    ensures if more
            then (w.stack == [] || !IsNew(j, w.stack[0]))
                 && (Todo(j, w) < Todo(j, w0) || (Todo(j, w) == Todo(j, w0) && |w.stack| < |w0.stack|))
            else w.stack == [] && w.top == []
  {
    w := Descend(j, nalg, w0);
    if w.stack == [] { return w, false; }
    PopStep(j, w);
    w := Pop(alg, w);
    more := true;
  }

  /** The outer loop of the walk. */
  method WalkSpawns(ghost j: Job, alg: Id, nalg: Option<Id>, w0: Walk) returns (w: Walk)
    requires Inv(j, w0) == true && w0.stack == [] && j.alg == alg && j.nalg == nalg
    ensures Inv(j, w) == true && w.stack == [] && w.top == []
  {
    w := w0;
    var more := true;
    while more
      invariant Inv(j, w) == true && Handy(w)
      invariant if more then w.stack == [] || !IsNew(j, w.stack[0]) else w.stack == [] && w.top == []
      decreases more, Todo(j, w), |w.stack|
    {
      w, more := Turn(j, alg, nalg, w);
    }
  }

  // ----- the final sweep over the finished spawns

  /** Every list holds its spawns that survive, minus the ones still to be swept. */
  ghost predicate Swept(j: Job, left: seq<Id>, users: map<Id, seq<Id>>)
    requires WellFormed(j)
  {
    && users.Keys == j.users.Keys
    && (forall a :: a in users ==> Distinct(users[a]))
    && (forall a, x {:trigger x in users[a]} :: a in users ==>
          (x in users[a] <==> x in j.inst && j.parent[x] == a && !Doomed(j, x) && x !in left))
  }

  lemma {:induction false} SweepStarts(j: Job, w: Walk)
    requires Inv(j, w) && w.stack == [] && w.top == []
    ensures Swept(j, w.secondary, w.users)
    ensures forall x :: x in w.secondary <==> InWalk(j, x)
    ensures forall x :: x in w.secondary ==>
              x in w.on && w.on[x] == if Doomed(j, x) then None else Some(j.parent[x])
  {
    forall x ensures x in w.secondary <==> InWalk(j, x) {
      if InWalk(j, x) { AllFinished(j, w, x); }
    }
    forall x | x in w.secondary
      ensures x in w.on && w.on[x] == if Doomed(j, x) then None else Some(j.parent[x])
    {
      assert w.on[x] == Expected(j, w, x);
    }
    forall a, x | a in w.users
      ensures x in w.users[a] <==> x in j.inst && j.parent[x] == a && !Doomed(j, x) && x !in w.secondary
    {
    }
  }

  /** A surviving spawn goes back to the front of its list. */
  lemma {:induction false} SweepBack(j: Job, left: seq<Id>, users: map<Id, seq<Id>>)
    requires WellFormed(j) && Distinct(left) && left != [] && Swept(j, left, users)
    requires InWalk(j, left[0]) && !Doomed(j, left[0])
    ensures var p := j.parent[left[0]];
            p in users && Swept(j, left[1..], users[p := [left[0]] + users[p]])
  {
    var x := left[0];
    var p := j.parent[x];
    DistinctTail(left);
    assert x !in users[p];
    var us := users[p := [x] + users[p]];
    forall a, y | a in us
      ensures y in us[a] <==> y in j.inst && j.parent[y] == a && !Doomed(j, y) && y !in left[1..]
    {
      assert y in users[a] <==> y in j.inst && j.parent[y] == a && !Doomed(j, y) && y !in left;
    }
  }

  /** A doomed spawn's instance has no users left: the BUG_ON cannot fire. */
  lemma {:induction false} SweepDead(j: Job, left: seq<Id>, users: map<Id, seq<Id>>)
    requires WellFormed(j) && Distinct(left) && left != [] && Swept(j, left, users) && Doomed(j, left[0])
    ensures left[0] in users && users[left[0]] == []
    ensures Swept(j, left[1..], users)
  {
    var x := left[0];
    DistinctTail(left);
    if users[x] != [] {
      var c := users[x][0];
      assert c in users[x];
      WalkAvoidsAlg(j, x);
      if OnPath(j, c) { PathUp(j, c); }
      assert false;
    }
    forall a, y | a in users
      ensures y in users[a] <==> y in j.inst && j.parent[y] == a && !Doomed(j, y) && y !in left[1..]
    {
      assert y in users[a] <==> y in j.inst && j.parent[y] == a && !Doomed(j, y) && y !in left;
    }
  }

  /** CRYPTO_ALG_DEAD flags, the template's instance lists, and the caller's list. */
  datatype Marks = Marks(dead: set<Id>, hashed: set<Id>, removed: seq<Id>)

  /** crypto_remove_spawn; `refs` are the instances whose template can be referenced. */
  function RemoveSpawn(m: Marks, refs: set<Id>, x: Id): Marks {
    if x in m.dead then m
    else if x !in m.hashed || x !in refs then m.(dead := m.dead + {x})
    else Marks(m.dead + {x}, m.hashed - {x}, [x] + m.removed)
  }

  ghost predicate Removes(j: Job, m: Marks, refs: set<Id>, x: Id)
    requires WellFormed(j)
  {
    Doomed(j, x) && x !in m.dead && x in m.hashed && x in refs
  }

  ghost predicate Marked(j: Job, m0: Marks, refs: set<Id>, left: seq<Id>, m: Marks)
    requires WellFormed(j)
  {
    && (forall x :: x in m.dead <==> x in m0.dead || (Doomed(j, x) && x !in left))
    && (forall x :: x in m.hashed <==> x in m0.hashed && !(Removes(j, m0, refs, x) && x !in left))
    && (forall x :: x in m.removed <==> x in m0.removed || (Removes(j, m0, refs, x) && x !in left))
  }

  lemma {:induction false} MarkBack(j: Job, m0: Marks, refs: set<Id>, left: seq<Id>, m: Marks)
    requires WellFormed(j) && Distinct(left) && left != [] && Marked(j, m0, refs, left, m)
    requires !Doomed(j, left[0])
    ensures Marked(j, m0, refs, left[1..], m)
  {
    DistinctTail(left);
  }

  lemma {:induction false} MarkDead(j: Job, m0: Marks, refs: set<Id>, left: seq<Id>, m: Marks)
    requires WellFormed(j) && Distinct(left) && left != [] && Marked(j, m0, refs, left, m)
    requires Doomed(j, left[0])
    ensures Marked(j, m0, refs, left[1..], RemoveSpawn(m, refs, left[0]))
  {
    DistinctTail(left);
  }

  /** The finished spawns, each with its algorithm or without one. */
  ghost predicate Sorted(j: Job, on: map<Id, Option<Id>>, left: seq<Id>)
    requires WellFormed(j)
  {
    && Distinct(left)
    && forall x :: x in left ==> InWalk(j, x) && x in on && on[x] == if Doomed(j, x) then None else Some(j.parent[x])
  }

  /** The sweep after which `left` remains to be done. */
  ghost predicate Sweeping(j: Job, on: map<Id, Option<Id>>, m0: Marks, refs: set<Id>,
                           left: seq<Id>, users: map<Id, seq<Id>>, m: Marks)
  {
    WellFormed(j) && Sorted(j, on, left) && Swept(j, left, users) && Untouched(j, users)
    && Marked(j, m0, refs, left, m)
  }

  lemma {:induction false} SweepingBack(j: Job, on: map<Id, Option<Id>>, m0: Marks, refs: set<Id>,
                     left: seq<Id>, users: map<Id, seq<Id>>, m: Marks)
    requires Sweeping(j, on, m0, refs, left, users, m) && left != [] && left[0] in on && on[left[0]].Some?
    ensures var p := on[left[0]].value;
            p in users && Sweeping(j, on, m0, refs, left[1..], users[p := [left[0]] + users[p]], m)
  {
    DistinctTail(left);
    SweepBack(j, left, users);
    MarkBack(j, m0, refs, left, m);
    assert left[0] in j.users[j.parent[left[0]]];
  }

  lemma {:induction false} SweepingDead(j: Job, on: map<Id, Option<Id>>, m0: Marks, refs: set<Id>,
                     left: seq<Id>, users: map<Id, seq<Id>>, m: Marks)
    requires Sweeping(j, on, m0, refs, left, users, m) && left != [] && left[0] in on && on[left[0]].None?
    ensures left[0] in users && users[left[0]] == []
    ensures Sweeping(j, on, m0, refs, left[1..], users, RemoveSpawn(m, refs, left[0]))
  {
    DistinctTail(left);
    SweepDead(j, left, users);
    MarkDead(j, m0, refs, left, m);
  }

  /** The last loop of crypto_remove_spawns. */
  method Sweep(ghost j: Job, on: map<Id, Option<Id>>, secondary: seq<Id>, users0: map<Id, seq<Id>>, m0: Marks, refs: set<Id>)
    returns (users: map<Id, seq<Id>>, m: Marks)
    requires Sweeping(j, on, m0, refs, secondary, users0, m0)
    ensures Sweeping(j, on, m0, refs, [], users, m) == true
  {
    var left := secondary;
    users, m := users0, m0;
    while left != []
      invariant Sweeping(j, on, m0, refs, left, users, m) == true
    {
      var x := left[0];
      assert x in left;
      if on[x].Some? {
        SweepingBack(j, on, m0, refs, left, users, m);
        users := users[on[x].value := [x] + users[on[x].value]];
      } else {
        SweepingDead(j, on, m0, refs, left, users, m);
        m := RemoveSpawn(m, refs, x);
        assert users[x] == [];
      }
      left := left[1..];
    }
  }

  // ----- the whole of crypto_remove_spawns

  /** The two types agree in the bits that the spawn's mask selects. */
  predicate Matches(flags: bv32, newType: bv32, mask: bv32) {
    flags & mask == newType & mask
  }

  lemma {:induction false} NoneDiffer(flags: bv32, newType: bv32, mask: bv32)
    ensures (flags ^ newType) & mask == 0 <==> Matches(flags, newType, mask)
  {
    MaskOver(flags, newType, mask);
    XorZero(flags & mask, newType & mask);
  }

  lemma {:induction false} MaskOver(a: bv32, b: bv32, m: bv32)
    ensures (a ^ b) & m == (a & m) ^ (b & m)
  {
  }

  lemma {:induction false} XorZero(a: bv32, b: bv32)
    ensures a ^ b == 0 <==> a == b
  {
  }

  /** The first loop: matching spawns move to the front of `top`, the others stay. */
  method Pick(list: seq<Id>, flags: bv32, newType: bv32, mask: map<Id, bv32>) returns (rest: seq<Id>, top: seq<Id>)
    requires Distinct(list) && forall x :: x in list ==> x in mask
    ensures Distinct(rest) && Distinct(top)
    ensures forall x :: x in top <==> x in list && Matches(flags, newType, mask[x])
    ensures forall x :: x in rest <==> x in list && x !in top
    ensures top == [] ==> rest == list
  {
    rest, top := [], [];
    for i := 0 to |list|
      invariant Distinct(rest) && Distinct(top)
      invariant forall x :: x in top <==> x in list[..i] && Matches(flags, newType, mask[x])
      invariant forall x :: x in rest <==> x in list[..i] && x !in top
      invariant top == [] ==> rest == list[..i]
    {
      assert list[..i + 1] == list[..i] + [list[i]];
      NoneDiffer(flags, newType, mask[list[i]]);
      if (flags ^ newType) & mask[list[i]] == 0 {
        top := [list[i]] + top;
      } else {
        rest := rest + [list[i]];
      }
    }
    assert list[..|list|] == list;
  }

  /** What crypto_remove_spawns is to leave behind. */
  ghost predicate Removed(j: Job, m0: Marks, refs: set<Id>, users: map<Id, seq<Id>>, on: map<Id, Option<Id>>, m: Marks) {
    && WellFormed(j)
    && Swept(j, [], users) && Untouched(j, users) && Marked(j, m0, refs, [], m)
    && on.Keys == j.inst + j.gone
    && (forall x :: x in j.gone ==> on[x].None?)
    && (forall x :: x in j.inst ==> on[x] == if Doomed(j, x) then None else Some(j.parent[x]))
  }

  /** The job starts from these lists and spawns. */
  ghost predicate Describes(j: Job, users: map<Id, seq<Id>>, on: map<Id, Option<Id>>) {
    && j.users == users && j.parent.Keys == j.inst
    && on.Keys == j.inst + j.gone
    && (forall x :: x in j.gone ==> on[x].None?)
    && (forall x :: x in j.inst ==> on[x] == Some(j.parent[x]))
  }

  function Start(users: map<Id, seq<Id>>, on: map<Id, Option<Id>>, alg: Id, rest: seq<Id>, top: seq<Id>): Walk {
    Walk(users[alg := rest], on, top, [], [])
  }

  ghost predicate Picked(j: Job, rest: seq<Id>, top: seq<Id>)
    requires WellFormed(j)
  {
    && Distinct(rest) && Distinct(top)
    && (forall x :: x in top <==> x in j.hits)
    && (forall x :: x in rest <==> x in j.users[j.alg] && x !in top)
    && (top == [] ==> rest == j.users[j.alg])
  }

  lemma {:induction false} StartListed(j: Job, on: map<Id, Option<Id>>, rest: seq<Id>, top: seq<Id>)
    requires WellFormed(j) && Picked(j, rest, top)
    ensures Listed(j, Start(j.users, on, j.alg, rest, top))
  {
    var w := Start(j.users, on, j.alg, rest, top);
    forall a, x | a in w.users
      ensures x in w.users[a] <==> x in j.inst && j.parent[x] == a && x !in j.hits && !Seen(w, x)
    {
      assert x in j.users[a] <==> x in j.inst && j.parent[x] == a;
    }
  }

  lemma {:induction false} StartUntouched(j: Job, on: map<Id, Option<Id>>, rest: seq<Id>, top: seq<Id>)
    requires WellFormed(j) && Picked(j, rest, top)
    ensures Untouched(j, Start(j.users, on, j.alg, rest, top).users)
  {
    if top != [] {
      assert top[0] in top && InWalk(j, top[0]) && top[0] in j.users[j.alg];
    }
  }

  lemma {:induction false} WalkStarts(j: Job, on: map<Id, Option<Id>>, rest: seq<Id>, top: seq<Id>)
    requires WellFormed(j) && Picked(j, rest, top) && Describes(j, j.users, on)
    ensures Inv(j, Start(j.users, on, j.alg, rest, top))
  {
    StartListed(j, on, rest, top);
    StartUntouched(j, on, rest, top);
  }

  lemma {:induction false} WalkEnds(j: Job, w: Walk, m0: Marks, refs: set<Id>)
    requires Inv(j, w) && w.stack == [] && w.top == []
    ensures Sweeping(j, w.on, m0, refs, w.secondary, w.users, m0)
    ensures w.on.Keys == j.inst + j.gone && forall x :: x in j.gone ==> w.on[x].None?
    ensures forall x :: x in j.inst ==> w.on[x] == if Doomed(j, x) then None else Some(j.parent[x])
  {
    SweepStarts(j, w);
    forall x | x in j.inst ensures w.on[x] == if Doomed(j, x) then None else Some(j.parent[x]) {
      assert w.on[x] == Expected(j, w, x);
    }
  }

  method WalkAndSweep(ghost j: Job, alg: Id, nalg: Option<Id>, w0: Walk, m0: Marks, refs: set<Id>)
    returns (users: map<Id, seq<Id>>, on: map<Id, Option<Id>>, m: Marks)
    requires Inv(j, w0) == true && w0.stack == [] && j.alg == alg && j.nalg == nalg
    ensures Removed(j, m0, refs, users, on, m) == true
  {
    var w := WalkSpawns(j, alg, nalg, w0);
    WalkEnds(j, w, m0, refs);
    users, m := Sweep(j, w.on, w.secondary, w.users, m0, refs);
    on := w.on;
  }

  /** The spawns that match the new type leave the list for `top`. */
  method Begin(ghost j: Job, users: map<Id, seq<Id>>, on: map<Id, Option<Id>>,
               alg: Id, flags: bv32, newType: bv32, mask: map<Id, bv32>)
    returns (w: Walk)
    requires WellFormed(j) == true && Describes(j, users, on) == true && j.alg == alg && j.inst <= mask.Keys
    requires forall x :: x in j.hits <==> x in users[alg] && x in mask && Matches(flags, newType, mask[x])
    ensures Inv(j, w) == true && w.stack == []
  {
    assert forall x :: x in users[alg] ==> x in j.inst;
    var rest, top := Pick(users[alg], flags, newType, mask);
    WalkStarts(j, on, rest, top);
    w := Start(users, on, alg, rest, top);
  }

  // ----- one removal after another

  /** The lists, the spawns and the marks between removals. */
  datatype Reg = Reg(users: map<Id, seq<Id>>, on: map<Id, Option<Id>>, marks: Marks)

  /** The removal that `j` asks for leads from `a` to `b`. */
  ghost predicate Removal(a: Reg, j: Job, refs: set<Id>, b: Reg) {
    WellFormed(j) && Describes(j, a.users, a.on) && Removed(j, a.marks, refs, b.users, b.on, b.marks)
  }

  lemma {:induction false} SurvivorsAre(a: Reg, j: Job, refs: set<Id>, b: Reg, k: Job)
    requires Removal(a, j, refs, b) == true && Describes(k, b.users, b.on)
    ensures forall x :: x in k.inst <==> x in j.inst && !Doomed(j, x)
    ensures forall x :: x in k.inst ==> k.parent[x] == j.parent[x]
  {
    forall x ensures x in k.inst <==> x in j.inst && !Doomed(j, x) {
      assert x in b.on <==> x in j.inst || x in j.gone;
    }
  }

  lemma {:induction false} SurvivorLists(j: Job, k: Job)
    requires WellFormed(j) && Swept(j, [], k.users) && k.parent.Keys == k.inst
    requires forall x :: x in k.inst <==> x in j.inst && !Doomed(j, x)
    requires forall x :: x in k.inst ==> k.parent[x] == j.parent[x]
    ensures forall a, x {:trigger x in k.users[a]} :: a in k.users ==>
              (x in k.users[a] <==> x in k.inst && k.parent[x] == a)
    ensures forall x {:trigger k.parent[x]} :: x in k.inst ==> k.parent[x] in k.users
  {
    forall a, x | a in k.users ensures x in k.users[a] <==> x in k.inst && k.parent[x] == a {
    }
    forall x | x in k.inst ensures k.parent[x] in k.users {
      assert j.parent[x] in j.users;
    }
  }

  lemma {:induction false} SurvivorDepths(j: Job, k: Job)
    requires Grown(j) && k.parent.Keys == k.inst && k.inst <= j.inst && k.depth == j.depth
    requires forall x :: x in k.inst ==> k.parent[x] == j.parent[x]
    ensures forall x, p {:trigger k.depth[x], k.depth[p]} ::
              x in k.inst && p in k.inst && k.parent[x] == p ==> k.depth[p] < k.depth[x]
  {
    forall x, p | x in k.inst && p in k.inst && k.parent[x] == p ensures k.depth[p] < k.depth[x] {
      assert j.depth[p] < j.depth[x];
    }
  }

  /** What a removal leaves is a forest again, so the next removal can be made in it. */
  lemma {:induction false} RemovalGrown(a: Reg, j: Job, refs: set<Id>, b: Reg, k: Job)
    requires Removal(a, j, refs, b) == true && Describes(k, b.users, b.on) && k.depth == j.depth && k.inst !! k.gone
    ensures Grown(k) == true
  {
    SurvivorsAre(a, j, refs, b, k);
    SurvivorLists(j, k);
    SurvivorDepths(j, k);
  }

  /** The forest that the spawns make up, with nothing to be removed from it. */
  ghost function ForestOf(r: Reg, depth: map<Id, nat>): Job {
    Job(set x | x in r.on && r.on[x].Some?, set x | x in r.on && r.on[x].None?,
        map x | x in r.on && r.on[x].Some? :: r.on[x].value, depth, r.users, 0, None, {})
  }

  lemma {:induction false} ForestWellFormed(r: Reg, depth: map<Id, nat>, alg: Id, nalg: Option<Id>, hits: set<Id>)
    requires Grown(ForestOf(r, depth)) == true && alg in r.users && forall x :: x in hits ==> x in r.users[alg]
    ensures var j := ForestOf(r, depth).(alg := alg, nalg := nalg, hits := hits);
            WellFormed(j) == true && Describes(j, r.users, r.on) == true
  {
    var j := ForestOf(r, depth);
    assert forall x :: x in j.inst ==> r.on[x] == Some(j.parent[x]);
  }

  lemma {:induction false} RemovalForest(a: Reg, j: Job, refs: set<Id>, b: Reg, depth: map<Id, nat>)
    requires Removal(a, j, refs, b) == true && j.depth == depth
    ensures Grown(ForestOf(b, depth)) == true && b.on.Keys == a.on.Keys
  {
    var k := ForestOf(b, depth);
    assert Describes(k, b.users, b.on);
    RemovalGrown(a, j, refs, b, k);
  }

  /** A run of removals, each in the forest that the one before it left. */
  ghost predicate Removals(regs: seq<Reg>, jobs: seq<Job>, refs: seq<set<Id>>) {
    && |regs| == |jobs| + 1 && |refs| == |jobs|
    && forall i, k :: 0 <= i < |jobs| && k == i + 1 ==> Removal(regs[i], jobs[i], refs[i], regs[k])
  }

  ghost predicate DoomedBy(jobs: seq<Job>, i: nat, x: Id) {
    i < |jobs| && WellFormed(jobs[i]) && Doomed(jobs[i], x)
  }

  lemma {:induction false} RemovalAt(regs: seq<Reg>, jobs: seq<Job>, refs: seq<set<Id>>, i: nat)
    requires Removals(regs, jobs, refs) == true && i < |jobs|
    ensures Removal(regs[i], jobs[i], refs[i], regs[i + 1]) == true
  {
  }

  lemma {:induction false} RemovalOf(a: Reg, j: Job, refs: set<Id>, b: Reg, x: Id)
    requires Removal(a, j, refs, b) == true && x in a.on
    ensures Doomed(j, x) ==> a.on[x].Some?
    ensures x in b.on && b.on[x] == if Doomed(j, x) then None else a.on[x]
    ensures x in b.marks.dead <==> x in a.marks.dead || Doomed(j, x)
  {
    assert x in j.inst || x in j.gone;
  }

  lemma {:induction false} StepOf(regs: seq<Reg>, jobs: seq<Job>, refs: seq<set<Id>>, x: Id, n: nat)
    requires Removals(regs, jobs, refs) == true && n < |jobs| && x in regs[n].on
    ensures DoomedBy(jobs, n, x) ==> regs[n].on[x].Some?
    ensures x in regs[n + 1].on && regs[n + 1].on[x] == if DoomedBy(jobs, n, x) then None else regs[n].on[x]
    ensures x in regs[n + 1].marks.dead <==> x in regs[n].marks.dead || DoomedBy(jobs, n, x)
  {
    RemovalAt(regs, jobs, refs, n);
    RemovalOf(regs[n], jobs[n], refs[n], regs[n + 1], x);
  }

  ghost predicate DoomedBefore(jobs: seq<Job>, n: nat, x: Id) {
    n > 0 && (DoomedBy(jobs, n - 1, x) || DoomedBefore(jobs, n - 1, x))
  }

  lemma {:induction false} DoomedBeforeIs(jobs: seq<Job>, n: nat, x: Id)
    ensures DoomedBefore(jobs, n, x) <==> exists i: nat :: i < n && DoomedBy(jobs, i, x)
  {
    if n > 0 { DoomedBeforeIs(jobs, n - 1, x); }
  }

  /** The history of one instance through `n` removals. */
  lemma {:induction false} HistoryOf(regs: seq<Reg>, jobs: seq<Job>, refs: seq<set<Id>>, x: Id, n: nat)
    requires Removals(regs, jobs, refs) == true && n <= |jobs| && x in regs[0].on
    ensures x in regs[n].on
    ensures regs[n].on[x] == if DoomedBefore(jobs, n, x) then None else regs[0].on[x]
    ensures x in regs[n].marks.dead <==> x in regs[0].marks.dead || DoomedBefore(jobs, n, x)
  {
    if n > 0 {
      HistoryOf(regs, jobs, refs, x, n - 1);
      StepOf(regs, jobs, refs, x, n - 1);
    }
  }

  /** Over any sequence of removals: an instance is doomed at most once; it keeps the
      algorithm it was built on exactly as long as it has not been; and the dead are those
      that were dead and those that were doomed. */
  lemma {:induction false} RemovalsExact(regs: seq<Reg>, jobs: seq<Job>, refs: seq<set<Id>>, x: Id)
    requires Removals(regs, jobs, refs) && x in regs[0].on
    ensures x in regs[|jobs|].on
    ensures regs[|jobs|].on[x] == if exists i :: DoomedBy(jobs, i, x) then None else regs[0].on[x]
    ensures x in regs[|jobs|].marks.dead <==> x in regs[0].marks.dead || exists i :: DoomedBy(jobs, i, x)
    ensures forall i, k :: DoomedBy(jobs, i, x) && DoomedBy(jobs, k, x) ==> i == k
  {
    HistoryOf(regs, jobs, refs, x, |jobs|);
    DoomedBeforeIs(jobs, |jobs|, x);
    forall i, k | DoomedBy(jobs, i, x) && DoomedBy(jobs, k, x) ensures i == k {
      DoomedFirst(regs, jobs, refs, x, i, k);
      DoomedFirst(regs, jobs, refs, x, k, i);
    }
  }

  lemma {:induction false} DoomedFirst(regs: seq<Reg>, jobs: seq<Job>, refs: seq<set<Id>>, x: Id, i: nat, k: nat)
    requires Removals(regs, jobs, refs) && x in regs[0].on && DoomedBy(jobs, i, x) && DoomedBy(jobs, k, x)
    ensures i >= k
  {
    HistoryOf(regs, jobs, refs, x, k);
    DoomedBeforeIs(jobs, k, x);
    StepOf(regs, jobs, refs, x, k);
  }

  class Registry {
    const flags: map<Id, bv32>       // cra_flags
    const mask: map<Id, bv32>        // spawn->mask
    var users: map<Id, seq<Id>>
    var on: map<Id, Option<Id>>
    var marks: Marks

    constructor (flags: map<Id, bv32>, mask: map<Id, bv32>, users: map<Id, seq<Id>>, on: map<Id, Option<Id>>, marks: Marks)
      ensures this.flags == flags && this.mask == mask && this.users == users && this.on == on && this.marks == marks
    {
      this.flags, this.mask, this.users, this.on, this.marks := flags, mask, users, on, marks;
    }

    ghost function Value(): Reg
      reads this
    {
      Reg(users, on, marks)
    }

    /** The spawns of `alg` that the new algorithm's type matches. */
    ghost function Hits(alg: Id, nalg: Option<Id>): set<Id>
      reads this
    {
      set x | alg in users && x in users[alg] && x in mask && alg in flags
              && (nalg.Some? ==> nalg.value in flags)
              && Matches(flags[alg], flags[if nalg.Some? then nalg.value else alg], mask[x])
    }

    ghost function Forest(alg: Id, nalg: Option<Id>, depth: map<Id, nat>): Job
      reads this
    {
      ForestOf(Value(), depth).(alg := alg, nalg := nalg, hits := Hits(alg, nalg))
    }

    ghost predicate Valid(depth: map<Id, nat>)
      reads this
    {
      on.Keys <= mask.Keys && Grown(ForestOf(Value(), depth))
    }

    /** Exactly the doomed instances die; every other spawn is back on the list of
        the algorithm it is built on, and what is left is a forest again. */
    method RemoveSpawns(alg: Id, nalg: Option<Id>, refs: set<Id>, ghost depth: map<Id, nat>)
      requires Valid(depth) == true && alg in users && alg in flags && (nalg.Some? ==> nalg.value in flags)
      modifies this
      ensures Removal(old(Value()), old(Forest(alg, nalg, depth)), refs, Value()) == true
      ensures Valid(depth) == true
    {
      ghost var a, j := Value(), Forest(alg, nalg, depth);
      ForestWellFormed(a, depth, alg, nalg, Hits(alg, nalg));
      var newType := flags[if nalg.Some? then nalg.value else alg];
      var w := Begin(j, users, on, alg, flags[alg], newType, mask);
      users, on, marks := WalkAndSweep(j, alg, nalg, w, marks, refs);
      RemovalForest(a, j, refs, Value(), depth);
    }
  }
}
