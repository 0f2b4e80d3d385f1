/** The stable topological sort of a subgraph's children and its cycle fallback (pkg/op/helpers.go:344-408). */
module Kahn {

  datatype Unit = Unit(id: string, tag: int)

  datatype Edge = Edge(from: string, to: string)

  // ----- Sequences -----

  predicate NoDup<T(==)>(s: seq<T>) {
    forall i, j :: 0 <= i < j < |s| ==> s[i] != s[j]
  }

  function Elems<T>(s: seq<T>): set<T> {
    set x | x in s
  }

  function Times<T(==)>(s: seq<T>, x: T): nat {
    if s == [] then 0 else (if s[0] == x then 1 else 0) + Times(s[1..], x)
  }

  lemma {:induction false} TimesIn<T>(s: seq<T>, x: T)
    ensures Times(s, x) > 0 <==> x in s
    decreases |s|
  {
    if s != [] {
      TimesIn(s[1..], x);
    }
  }

  lemma {:induction false} TimesPush<T>(s: seq<T>, y: T, x: T)
    ensures Times(s + [y], x) == Times(s, x) + (if y == x then 1 else 0)
    decreases |s|
  {
    if s == [] {
    } else {
      assert (s + [y])[1..] == s[1..] + [y];
      TimesPush(s[1..], y, x);
    }
  }

  /** A sequence longer than the set it draws from repeats an element. */
  lemma {:induction false} Pigeonhole<T>(s: seq<T>, from: set<T>)
    requires Elems(s) <= from && |s| > |from|
    ensures !NoDup(s)
    decreases |s|
  {
    var x := s[0];
    if x in s[1..] {
      var j :| 0 <= j < |s[1..]| && s[1..][j] == x;
      assert s[j + 1] == s[0];
    } else {
      assert Elems(s[1..]) <= from - {x} by {
        forall y | y in s[1..] ensures y in from - {x} {
          assert y in Elems(s);
        }
      }
      assert x in Elems(s);
      Pigeonhole(s[1..], from - {x});
      var i, j :| 0 <= i < j < |s[1..]| && s[1..][i] == s[1..][j];
      assert s[i + 1] == s[j + 1];
    }
  }

  lemma {:induction false} CountOnce<T>(s: seq<T>, x: T)
    requires NoDup(s)
    ensures multiset(s)[x] == if x in s then 1 else 0
    decreases |s|
  {
    if s != [] {
      var n := |s| - 1;
      assert s == s[..n] + [s[n]];
      CountOnce(s[..n], x);
    }
  }

  lemma SameElements<T>(a: seq<T>, b: seq<T>)
    requires NoDup(a) && NoDup(b) && Elems(a) == Elems(b)
    ensures multiset(a) == multiset(b)
  {
    forall x ensures multiset(a)[x] == multiset(b)[x] {
      CountOnce(a, x);
      CountOnce(b, x);
      assert x in a <==> x in Elems(a);
      assert x in b <==> x in Elems(b);
    }
  }

  // ----- The graph -----

  function Ids(units: seq<Unit>): (r: seq<string>)
    ensures |r| == |units| && forall i :: 0 <= i < |r| ==> r[i] == units[i].id
  {
    if units == [] then [] else Ids(units[..|units|-1]) + [units[|units|-1].id]
  }

  /** The edges between known units, in order. */
  function Known(ids: set<string>, edges: seq<Edge>): seq<Edge> {
    if edges == [] then []
    else
      var e := edges[|edges|-1];
      Known(ids, edges[..|edges|-1]) + (if e.from in ids && e.to in ids then [e] else [])
  }

  lemma {:induction false} KnownIs(ids: set<string>, edges: seq<Edge>)
    ensures forall e :: e in Known(ids, edges) <==> e in edges && e.from in ids && e.to in ids
    decreases |edges|
  {
    if edges != [] {
      KnownIs(ids, edges[..|edges|-1]);
    }
  }

  /** How many edges lead into `x` from units not done. */
  function Into(es: seq<Edge>, x: string, done: set<string>): nat {
    if es == [] then 0
    else
      var e := es[|es|-1];
      Into(es[..|es|-1], x, done) + (if e.to == x && e.from !in done then 1 else 0)
  }

  lemma {:induction false} IntoZero(es: seq<Edge>, x: string, done: set<string>)
    ensures Into(es, x, done) == 0 <==> forall e :: e in es && e.to == x ==> e.from in done
    decreases |es|
  {
    if es != [] {
      var n := |es| - 1;
      IntoZero(es[..n], x, done);
      assert es == es[..n] + [es[n]];
    }
  }

  /** The targets of a unit's edges, in order. */
  function Targets(es: seq<Edge>, from: string): seq<string> {
    if es == [] then []
    else
      var e := es[|es|-1];
      Targets(es[..|es|-1], from) + (if e.from == from then [e.to] else [])
  }

  lemma {:induction false} TargetsIs(es: seq<Edge>, from: string, to: string)
    ensures to in Targets(es, from) <==> Edge(from, to) in es
    decreases |es|
  {
    if es != [] {
      TargetsIs(es[..|es|-1], from, to);
    }
  }

  /** Finishing `id` takes its edges out of every count. */
  lemma {:induction false} IntoDone(es: seq<Edge>, x: string, done: set<string>, id: string)
    requires id !in done
    ensures Into(es, x, done) == Into(es, x, done + {id}) + Times(Targets(es, id), x)
    decreases |es|
  {
    if es != [] {
      var n := |es| - 1;
      IntoDone(es[..n], x, done, id);
      if es[n].from == id {
        TimesPush(Targets(es[..n], id), es[n].to, x);
      } else {
        assert Targets(es, id) == Targets(es[..n], id) + [];
        assert Targets(es[..n], id) + [] == Targets(es[..n], id);
      }
    }
  }

  // ----- First in, first out -----

  /** Units of which the last incoming edge goes away while `targets` are counted down, `done` being finished. */
  function Freed(es: seq<Edge>, done: set<string>, targets: seq<string>): seq<string> {
    if targets == [] then []
    else
      (if targets[0] !in targets[1..] && Into(es, targets[0], done) == 0 then [targets[0]] else [])
      + Freed(es, done, targets[1..])
  }

  lemma {:induction false} FreedIs(es: seq<Edge>, done: set<string>, targets: seq<string>)
    ensures forall x :: x in Freed(es, done, targets) <==> x in targets && Into(es, x, done) == 0
    ensures NoDup(Freed(es, done, targets))
    decreases |targets|
  {
    if targets != [] {
      FreedIs(es, done, targets[1..]);
      assert targets == [targets[0]] + targets[1..];
    }
  }

  /** The sort's invariant; `es` are the edges between known units. */
  ghost predicate Inv(ids: seq<string>, es: seq<Edge>, queue: seq<string>, sorted: seq<string>) {
    && NoDup(sorted + queue)
    && (forall x :: x in sorted + queue ==> x in ids)
    && (forall x :: x in ids ==> (x in sorted + queue <==> Into(es, x, Elems(sorted)) == 0))
    && (forall e :: e in es ==> e.from in ids && e.to in ids)
    && SourcesFirst(es, sorted)
  }

  /** Every edge into the prefix has its source earlier. */
  ghost predicate SourcesFirst(es: seq<Edge>, sorted: seq<string>) {
    forall k, e :: 0 <= k < |sorted| && e in es && e.to == sorted[k] ==> e.from in sorted[..k]
  }

  lemma StepKeepsOrder(ids: seq<string>, es: seq<Edge>, queue: seq<string>, sorted: seq<string>)
    requires Inv(ids, es, queue, sorted) && queue != []
    ensures SourcesFirst(es, sorted + [queue[0]])
  {
    var id := queue[0];
    assert (sorted + queue)[|sorted|] == id;
    IntoZero(es, id, Elems(sorted));
    forall k, e | 0 <= k < |sorted + [id]| && e in es && e.to == (sorted + [id])[k]
      ensures e.from in (sorted + [id])[..k]
    {
      assert (sorted + [id])[..k] == sorted[..k];
      if k == |sorted| {
        assert e.from in Elems(sorted);
        assert sorted[..k] == sorted;
      }
    }
  }

  lemma {:induction false} StepKeepsInv(ids: seq<string>, es: seq<Edge>, queue: seq<string>, sorted: seq<string>)
    requires Inv(ids, es, queue, sorted) && queue != []
    ensures var id := queue[0];
            Inv(ids, es, queue[1..] + Freed(es, Elems(sorted) + {id}, Targets(es, id)), sorted + [id])
  {
    var id := queue[0];
    var done := Elems(sorted);
    assert (sorted + queue)[|sorted|] == id;
    assert forall i :: 0 <= i < |sorted| ==> (sorted + queue)[i] == sorted[i];
    assert Elems(sorted + [id]) == done + {id};
    var freed := Freed(es, done + {id}, Targets(es, id));
    FreedIs(es, done + {id}, Targets(es, id));
    StepKeepsOrder(ids, es, queue, sorted);
    assert (sorted + [id]) + (queue[1..] + freed) == (sorted + queue) + freed;
    forall x ensures x in freed ==> x in ids && x !in sorted + queue {
      TargetsIs(es, id, x);
      IntoDone(es, x, done, id);
      TimesIn(Targets(es, id), x);
    }
    forall x | x in ids ensures x in (sorted + queue) + freed <==> Into(es, x, done + {id}) == 0 {
      IntoDone(es, x, done, id);
      TimesIn(Targets(es, id), x);
    }
    NoDupConcat(sorted + queue, freed);
  }

  lemma NoDupConcat<T>(a: seq<T>, b: seq<T>)
    requires NoDup(a) && NoDup(b) && forall x :: x in b ==> x !in a
    ensures NoDup(a + b)
  {
    forall i, j | 0 <= i < j < |a + b| ensures (a + b)[i] != (a + b)[j] {
      if i < |a| <= j {
        assert b[j - |a|] in b;
      }
    }
  }

  lemma NoDupShort<T>(s: seq<T>, ids: seq<T>)
    requires NoDup(s) && NoDup(ids) && forall x :: x in s ==> x in ids
    ensures |s| <= |ids|
  {
    if |s| > |ids| {
      assert Elems(s) <= Elems(ids);
      ElemsSmall(ids);
      Pigeonhole(s, Elems(ids));
    }
  }

  lemma {:induction false} ElemsSmall<T>(s: seq<T>)
    ensures |Elems(s)| <= |s|
    decreases |s|
  {
    if s != [] {
      ElemsSmall(s[1..]);
      assert Elems(s) == {s[0]} + Elems(s[1..]);
    }
  }

  /** The unit waits for another. */
  ghost predicate HasSource(es: seq<Edge>, x: string) {
    exists e :: e in es && e.to == x
  }

  /** The queue run dry: the sortable prefix. */
  ghost function Drain(ids: seq<string>, es: seq<Edge>, queue: seq<string>, sorted: seq<string>): (r: seq<string>)
    requires NoDup(ids) && Inv(ids, es, queue, sorted)
    ensures sorted + queue <= r && Inv(ids, es, [], r)
    decreases |ids| - |sorted|
  {
    assert sorted + [] == sorted;
    if queue == [] then sorted
    else
      var id := queue[0];
      var freed := Freed(es, Elems(sorted) + {id}, Targets(es, id));
      StepKeepsInv(ids, es, queue, sorted);
      NoDupShort(sorted + queue, ids);
      assert (sorted + [id]) + (queue[1..] + freed) == (sorted + queue) + freed;
      Drain(ids, es, queue[1..] + freed, sorted + [id])
  }

  /** Whatever joins the queue later waited for something. */
  lemma {:induction false} DrainWaits(ids: seq<string>, es: seq<Edge>, queue: seq<string>, sorted: seq<string>, k: nat)
    requires NoDup(ids) && Inv(ids, es, queue, sorted)
    requires |sorted| + |queue| <= k < |Drain(ids, es, queue, sorted)|
    ensures HasSource(es, Drain(ids, es, queue, sorted)[k])
    decreases |ids| - |sorted|
  {
    hide Inv, HasSource;
    if queue == [] {
      assert false;
    } else {
      var id := queue[0];
      var freed := Freed(es, Elems(sorted) + {id}, Targets(es, id));
      StepKeepsInv(ids, es, queue, sorted);
      QueueShort(ids, es, queue, sorted);
      var r := Drain(ids, es, queue[1..] + freed, sorted + [id]);
      assert Drain(ids, es, queue, sorted) == r;
      var joined := (sorted + [id]) + (queue[1..] + freed);
      if k < |joined| {
        var j := k - |sorted| - |queue|;
        assert joined[k] == freed[j];
        FreedIsTarget(es, Elems(sorted) + {id}, id, j);
        assert r[k] == freed[j];
      } else {
        DrainWaits(ids, es, queue[1..] + freed, sorted + [id], k);
      }
    }
  }

  lemma QueueShort(ids: seq<string>, es: seq<Edge>, queue: seq<string>, sorted: seq<string>)
    requires NoDup(ids) && Inv(ids, es, queue, sorted)
    ensures |sorted| + |queue| <= |ids|
  {
    NoDupShort(sorted + queue, ids);
  }

  lemma FreedIsTarget(es: seq<Edge>, done: set<string>, id: string, k: nat)
    requires k < |Freed(es, done, Targets(es, id))|
    ensures HasSource(es, Freed(es, done, Targets(es, id))[k])
  {
    var x := Freed(es, done, Targets(es, id))[k];
    FreedIs(es, done, Targets(es, id));
    TargetsIs(es, id, x);
    assert Edge(id, x) in es;
  }

  // ----- The whole sort -----

  /** The units that wait for nothing, in input order. */
  function Roots(ids: seq<string>, es: seq<Edge>): seq<string> {
    if ids == [] then []
    else
      var x := ids[|ids|-1];
      Roots(ids[..|ids|-1], es) + (if Into(es, x, {}) == 0 then [x] else [])
  }

  lemma {:induction false} RootsAre(ids: seq<string>, es: seq<Edge>)
    ensures forall x :: x in Roots(ids, es) <==> x in ids && Into(es, x, {}) == 0
    ensures NoDup(ids) ==> NoDup(Roots(ids, es))
    decreases |ids|
  {
    if ids != [] {
      var n := |ids| - 1;
      RootsAre(ids[..n], es);
      assert ids == ids[..n] + [ids[n]];
      if NoDup(ids) {
        assert forall x :: x in ids[..n] ==> x != ids[n];
        NoDupConcat(Roots(ids[..n], es), if Into(es, ids[n], {}) == 0 then [ids[n]] else []);
      }
    }
  }

  lemma StartInv(ids: seq<string>, edges: seq<Edge>)
    requires NoDup(ids)
    ensures var es := Known(Elems(ids), edges); Inv(ids, es, Roots(ids, es), [])
  {
    var es := Known(Elems(ids), edges);
    KnownIs(Elems(ids), edges);
    RootsAre(ids, es);
    assert [] + Roots(ids, es) == Roots(ids, es);
    assert Elems<string>([]) == {};
  }

  ghost function Prefix(ids: seq<string>, edges: seq<Edge>): seq<string>
    requires NoDup(ids)
  {
    var es := Known(Elems(ids), edges);
    StartInv(ids, edges);
    Drain(ids, es, Roots(ids, es), [])
  }

  /** What is left, in input order. */
  function Left(ids: seq<string>, prefix: seq<string>): seq<string> {
    if ids == [] then []
    else
      var x := ids[|ids|-1];
      Left(ids[..|ids|-1], prefix) + (if x in prefix then [] else [x])
  }

  lemma {:induction false} LeftIs(ids: seq<string>, prefix: seq<string>)
    ensures forall x :: x in Left(ids, prefix) <==> x in ids && x !in prefix
    ensures NoDup(ids) ==> NoDup(Left(ids, prefix))
    decreases |ids|
  {
    if ids != [] {
      var n := |ids| - 1;
      LeftIs(ids[..n], prefix);
      assert ids == ids[..n] + [ids[n]];
      if NoDup(ids) {
        assert forall x :: x in ids[..n] ==> x != ids[n];
        NoDupConcat(Left(ids[..n], prefix), if ids[n] in prefix then [] else [ids[n]]);
      }
    }
  }

  /** The order of the result, as ids. */
  ghost function Order(ids: seq<string>, edges: seq<Edge>): seq<string>
    requires NoDup(ids)
  {
    Prefix(ids, edges) + Left(ids, Prefix(ids, edges))
  }

  lemma OrderHolds(ids: seq<string>, edges: seq<Edge>)
    requires NoDup(ids)
    ensures NoDup(Order(ids, edges)) && Elems(Order(ids, edges)) == Elems(ids)
    ensures |Order(ids, edges)| == |ids|
  {
    var p := Prefix(ids, edges);
    StartInv(ids, edges);
    assert p + [] == p;
    LeftIs(ids, p);
    NoDupConcat(p, Left(ids, p));
    SameElements(Order(ids, edges), ids);
    assert |multiset(ids)| == |ids|;
  }

  // ----- Cycles -----

  /** A walk along the edges. */
  ghost predicate Walk(es: seq<Edge>, p: seq<string>) {
    forall i :: 0 <= i < |p| - 1 ==> Edge(p[i], p[i + 1]) in es
  }

  /** A cycle at `x` or upstream of it: a walk that ends in `x` and meets some unit twice. */
  ghost predicate CycleReaches(es: seq<Edge>, x: string) {
    exists p :: p != [] && p[|p|-1] == x && Walk(es, p) && !NoDup(p)
  }

  function Position(sorted: seq<string>, x: string): nat
    requires x in sorted
  {
    if sorted[0] == x then 0 else 1 + Position(sorted[1..], x)
  }

  lemma {:induction false} PositionIs(sorted: seq<string>, x: string)
    requires x in sorted
    ensures Position(sorted, x) < |sorted| && sorted[Position(sorted, x)] == x
    ensures forall k :: 0 <= k < |sorted| && sorted[k] == x ==> Position(sorted, x) <= k
    decreases |sorted|
  {
    if sorted[0] != x {
      PositionIs(sorted[1..], x);
    }
  }

  lemma WalkPrefix(es: seq<Edge>, p: seq<string>, n: nat)
    requires Walk(es, p) && n <= |p|
    ensures Walk(es, p[..n])
  {
    forall i | 0 <= i < n - 1 ensures Edge(p[..n][i], p[..n][i + 1]) in es {
      assert Edge(p[i], p[i + 1]) in es;
    }
  }

  /** A walk into the prefix stays in it and climbs strictly. */
  lemma {:induction false} WalkClimbs(es: seq<Edge>, sorted: seq<string>, p: seq<string>, i: nat)
    requires SourcesFirst(es, sorted) && Walk(es, p) && i < |p| && p[|p|-1] in sorted
    ensures p[i] in sorted
    ensures i < |p| - 1 ==> Position(sorted, p[i]) < Position(sorted, p[|p|-1])
    decreases |p|
  {
    hide SourcesFirst;
    var n := |p| - 1;
    if i < n {
      assert Edge(p[n - 1], p[n - 1 + 1]) in es;
      SourceBefore(es, sorted, p[n - 1], p[n]);
      var q := p[..n];
      WalkPrefix(es, p, n);
      WalkClimbs(es, sorted, q, i);
      assert q[i] == p[i];
    }
  }

  lemma SourceBefore(es: seq<Edge>, sorted: seq<string>, from: string, to: string)
    requires SourcesFirst(es, sorted) && Edge(from, to) in es && to in sorted
    ensures from in sorted && Position(sorted, from) < Position(sorted, to)
  {
    PositionIs(sorted, to);
    var m := Position(sorted, to);
    assert from in sorted[..m];
    var k :| 0 <= k < m && sorted[..m][k] == from;
    assert sorted[k] == from;
    PositionIs(sorted, from);
  }

  /** So it meets no unit twice. */
  lemma WalkNoDup(es: seq<Edge>, sorted: seq<string>, p: seq<string>)
    requires SourcesFirst(es, sorted) && Walk(es, p) && p != [] && p[|p|-1] in sorted
    ensures NoDup(p)
  {
    hide SourcesFirst;
    forall i, j | 0 <= i < j < |p| ensures p[i] != p[j] {
      WalkClimbs(es, sorted, p, j);
      var q := p[..j + 1];
      WalkPrefix(es, p, j + 1);
      WalkClimbs(es, sorted, q, i);
      assert q[i] == p[i] && q[|q|-1] == p[j];
    }
  }

  /** A unit that was not sorted waits for another one that was not. */
  lemma Waits(ids: seq<string>, es: seq<Edge>, sorted: seq<string>, x: string) returns (from: string)
    requires Inv(ids, es, [], sorted) && x in ids && x !in sorted
    ensures from in ids && from !in sorted && Edge(from, x) in es
  {
    assert sorted + [] == sorted;
    IntoZero(es, x, Elems(sorted));
    var e :| e in es && e.to == x && e.from !in Elems(sorted);
    from := e.from;
    assert e == Edge(from, x);
  }

  /** So walks into it are as long as one likes. */
  lemma {:induction false} LongWalk(ids: seq<string>, es: seq<Edge>, sorted: seq<string>, x: string, n: nat)
    returns (p: seq<string>)
    requires Inv(ids, es, [], sorted) && x in ids && x !in sorted
    ensures |p| == n + 1 && p[n] == x && Walk(es, p) && Elems(p) <= Elems(ids)
    decreases n
  {
    if n == 0 {
      p := [x];
    } else {
      var from := Waits(ids, es, sorted, x);
      var q := LongWalk(ids, es, sorted, from, n - 1);
      p := q + [x];
      forall i | 0 <= i < |p| - 1 ensures Edge(p[i], p[i + 1]) in es {
        if i < n - 1 {
          assert Edge(q[i], q[i + 1]) in es;
        }
      }
      forall y | y in p ensures y in ids {
        assert y in q ==> y in Elems(q);
      }
    }
  }

  /** The tail is exactly the units with a cycle at or upstream of them. */
  lemma TailExactly(ids: seq<string>, edges: seq<Edge>, x: string)
    requires NoDup(ids) && x in ids
    ensures x in Left(ids, Prefix(ids, edges)) <==> CycleReaches(Known(Elems(ids), edges), x)
  {
    var es := Known(Elems(ids), edges);
    var p := Prefix(ids, edges);
    StartInv(ids, edges);
    LeftIs(ids, p);
    assert p + [] == p;
    if x !in p {
      var walk := LongWalk(ids, es, p, x, |ids|);
      ElemsSmall(ids);
      Pigeonhole(walk, Elems(ids));
      assert walk[|walk|-1] == x;
    } else if CycleReaches(es, x) {
      var walk :| walk != [] && walk[|walk|-1] == x && Walk(es, walk) && !NoDup(walk);
      WalkNoDup(es, p, walk);
    }
  }

  ghost predicate Acyclic(es: seq<Edge>) {
    forall p :: Walk(es, p) ==> NoDup(p)
  }

  /** Everything is sorted if and only if the edges between the units have no cycle. */
  lemma AllSortedExactly(ids: seq<string>, edges: seq<Edge>)
    requires NoDup(ids)
    ensures Left(ids, Prefix(ids, edges)) == [] <==> Acyclic(Known(Elems(ids), edges))
  {
    hide Prefix, Known, Walk, NoDup, Left;
    var es := Known(Elems(ids), edges);
    var left := Left(ids, Prefix(ids, edges));
    LeftIs(ids, Prefix(ids, edges));
    if left != [] {
      assert left[0] in left;
      TailExactly(ids, edges, left[0]);
    } else {
      forall p | Walk(es, p) ensures NoDup(p) {
        WalkEndsWell(ids, edges, p);
      }
    }
  }

  lemma WalkEndsWell(ids: seq<string>, edges: seq<Edge>, p: seq<string>)
    requires NoDup(ids) && Left(ids, Prefix(ids, edges)) == [] && Walk(Known(Elems(ids), edges), p)
    ensures NoDup(p)
  {
    hide Prefix, Known, Left;
    if |p| > 1 {
      var n := |p| - 1;
      KnownIs(Elems(ids), edges);
      assert Edge(p[n - 1], p[n - 1 + 1]) in Known(Elems(ids), edges);
      TailExactly(ids, edges, p[n]);
    }
  }

  // ----- Sorting a sorted document -----

  /** Only the set of ids, the edges and the order of the roots matter to the queue. */
  lemma {:induction false} DrainSame(a: seq<string>, b: seq<string>, es: seq<Edge>, queue: seq<string>,
                                     sorted: seq<string>)
    requires NoDup(a) && NoDup(b) && Elems(a) == Elems(b) && |a| == |b|
    requires Inv(a, es, queue, sorted) && Inv(b, es, queue, sorted)
    ensures Drain(a, es, queue, sorted) == Drain(b, es, queue, sorted)
    decreases |a| - |sorted|
  {
    if queue != [] {
      var id := queue[0];
      StepKeepsInv(a, es, queue, sorted);
      StepKeepsInv(b, es, queue, sorted);
      NoDupShort(sorted + queue, a);
      DrainSame(a, b, es, queue[1..] + Freed(es, Elems(sorted) + {id}, Targets(es, id)), sorted + [id]);
    }
  }

  lemma {:induction false} RootsConcat(a: seq<string>, b: seq<string>, es: seq<Edge>)
    ensures Roots(a + b, es) == Roots(a, es) + Roots(b, es)
    decreases |b|
  {
    if b == [] {
      assert a + b == a;
    } else {
      var n := |b| - 1;
      assert (a + b)[..|a + b| - 1] == a + b[..n];
      RootsConcat(a, b[..n], es);
    }
  }

  lemma {:induction false} AllRoots(s: seq<string>, es: seq<Edge>, keep: bool)
    requires forall i :: 0 <= i < |s| ==> (Into(es, s[i], {}) == 0 <==> keep)
    ensures Roots(s, es) == if keep then s else []
    decreases |s|
  {
    hide Into;
    if s != [] {
      var n := |s| - 1;
      assert forall i :: 0 <= i < n ==> s[..n][i] == s[i];
      AllRoots(s[..n], es, keep);
      assert s == s[..n] + [s[n]];
    }
  }

  lemma {:induction false} LeftConcat(a: seq<string>, b: seq<string>, prefix: seq<string>)
    ensures Left(a + b, prefix) == Left(a, prefix) + Left(b, prefix)
    decreases |b|
  {
    if b == [] {
      assert a + b == a;
    } else {
      var n := |b| - 1;
      assert (a + b)[..|a + b| - 1] == a + b[..n];
      LeftConcat(a, b[..n], prefix);
    }
  }

  lemma {:induction false} LeftAll(s: seq<string>, prefix: seq<string>, inside: bool)
    requires forall i :: 0 <= i < |s| ==> (s[i] in prefix <==> inside)
    ensures Left(s, prefix) == if inside then [] else s
    decreases |s|
  {
    if s != [] {
      var n := |s| - 1;
      LeftAll(s[..n], prefix, inside);
      assert s == s[..n] + [s[n]];
    }
  }

  /** The prefix starts with the roots; every later unit waits for something. */
  lemma PrefixHolds(ids: seq<string>, edges: seq<Edge>)
    requires NoDup(ids)
    ensures var es, roots, p := Known(Elems(ids), edges), Roots(ids, Known(Elems(ids), edges)), Prefix(ids, edges);
            && roots <= p && NoDup(p)
            && forall k :: |roots| <= k < |p| ==> HasSource(es, p[k])
  {
    hide HasSource, Known;
    var es := Known(Elems(ids), edges);
    var roots, p := Roots(ids, es), Prefix(ids, edges);
    StartInv(ids, edges);
    assert [] + roots == roots && p + [] == p;
    forall k | |roots| <= k < |p| ensures HasSource(es, p[k]) {
      DrainWaits(ids, es, roots, [], k);
    }
  }

  /** The roots come first in the sorted order, and in the order they came. */
  lemma RootsStay(ids: seq<string>, edges: seq<Edge>)
    requires NoDup(ids)
    ensures var es := Known(Elems(ids), edges); Roots(Order(ids, edges), es) == Roots(ids, es)
  {
    hide Prefix, Known, Roots, Left, HasSource, Into, NoDup;
    var es := Known(Elems(ids), edges);
    var roots, p := Roots(ids, es), Prefix(ids, edges);
    var left := Left(ids, p);
    PrefixHolds(ids, edges);
    RootsAre(ids, es);
    LeftIs(ids, p);
    var later := p[|roots|..];
    assert p == roots + later;
    assert Order(ids, edges) == (roots + later) + left;
    forall i | 0 <= i < |later| ensures Into(es, later[i], {}) != 0 {
      Waiting(es, p[|roots| + i]);
    }
    forall i | 0 <= i < |left| ensures Into(es, left[i], {}) != 0 {
      assert left[i] in left;
      assert forall x :: x in roots ==> x in p;
    }
    AllRoots(roots, es, true);
    AllRoots(later, es, false);
    AllRoots(left, es, false);
    RootsConcat(roots, later, es);
    RootsConcat(roots + later, left, es);
  }

  lemma Waiting(es: seq<Edge>, x: string)
    requires HasSource(es, x)
    ensures Into(es, x, {}) != 0
  {
    IntoZero(es, x, {});
  }

  /** The same ids in the same root order give the same prefix. */
  lemma PrefixSame(a: seq<string>, b: seq<string>, edges: seq<Edge>)
    requires NoDup(a) && NoDup(b) && Elems(a) == Elems(b) && |a| == |b|
    requires var es := Known(Elems(a), edges); Roots(a, es) == Roots(b, es)
    ensures Prefix(a, edges) == Prefix(b, edges)
  {
    hide Inv, Known, Roots;
    StartInv(a, edges);
    StartInv(b, edges);
    DrainSame(a, b, Known(Elems(a), edges), Roots(a, Known(Elems(a), edges)), []);
  }

  /** A sorted document loads unchanged: sorting twice is sorting once. */
  lemma SortIsStable(ids: seq<string>, edges: seq<Edge>)
    requires NoDup(ids)
    ensures NoDup(Order(ids, edges)) && Order(Order(ids, edges), edges) == Order(ids, edges)
  {
    hide Prefix, Known, Roots, Left, NoDup;
    OrderHolds(ids, edges);
    var p := Prefix(ids, edges);
    var left := Left(ids, p);
    RootsStay(ids, edges);
    PrefixSame(ids, Order(ids, edges), edges);
    LeftIs(ids, p);
    LeftAll(p, p, true);
    forall i | 0 <= i < |left| ensures left[i] !in p {
      assert left[i] in left;
    }
    LeftAll(left, p, false);
    LeftConcat(p, left, p);
  }

  // ----- The sort as the source runs it -----

  lemma DistinctUnits(units: seq<Unit>)
    requires NoDup(Ids(units))
    ensures NoDup(units)
  {
    forall i, j | 0 <= i < j < |units| ensures units[i] != units[j] {
      assert Ids(units)[i] != Ids(units)[j];
    }
  }

  lemma SameUnit(units: seq<Unit>, u: Unit, v: Unit)
    requires NoDup(Ids(units)) && u in units && v in units && u.id == v.id
    ensures u == v
  {
    var i :| 0 <= i < |units| && units[i] == u;
    var j :| 0 <= j < |units| && units[j] == v;
    assert Ids(units)[i] == Ids(units)[j];
  }

  lemma IdsIn(units: seq<Unit>, u: Unit)
    requires u in units
    ensures u.id in Elems(Ids(units))
  {
    var i :| 0 <= i < |units| && units[i] == u;
    assert Ids(units)[i] == u.id;
  }

  lemma UnitOf(units: seq<Unit>, x: string) returns (u: Unit)
    requires x in Elems(Ids(units))
    ensures u in units && u.id == x
  {
    var i :| 0 <= i < |Ids(units)| && Ids(units)[i] == x;
    u := units[i];
  }

  lemma Covered(r: seq<Unit>, units: seq<Unit>, u: Unit)
    requires NoDup(Ids(units)) && Elems(Ids(r)) == Elems(Ids(units)) && u in units
    requires forall k :: 0 <= k < |r| ==> r[k] in units
    ensures u in r
  {
    hide NoDup, Ids, Elems;
    IdsIn(units, u);
    var v := UnitOf(r, u.id);
    SameUnit(units, u, v);
  }

  /** Units with distinct ids are determined by them. */
  lemma SameUnits(r: seq<Unit>, units: seq<Unit>)
    requires NoDup(Ids(units)) && NoDup(Ids(r)) && Elems(Ids(r)) == Elems(Ids(units))
    requires forall k :: 0 <= k < |r| ==> r[k] in units
    ensures multiset(r) == multiset(units)
  {
    hide NoDup, Ids, Elems;
    DistinctUnits(r);
    DistinctUnits(units);
    forall u | u in units ensures u in r {
      Covered(r, units, u);
    }
    SameElems(r, units);
    SameElements(r, units);
  }

  lemma SameElems<T>(a: seq<T>, b: seq<T>)
    requires forall x :: x in a <==> x in b
    ensures Elems(a) == Elems(b)
  {
  }

  /** Nothing to sort. */
  lemma OrderTrivial(ids: seq<string>, edges: seq<Edge>)
    requires NoDup(ids) && (edges == [] || |ids| <= 1)
    ensures Order(ids, edges) == ids
  {
    hide Prefix, Left, Roots;
    OrderHolds(ids, edges);
    var r := Order(ids, edges);
    if |ids| <= 1 {
      if |ids| == 1 {
        assert r[0] in Elems(r);
      }
    } else {
      PrefixHolds(ids, edges);
      AllRoots(ids, Known(Elems(ids), edges), true);
    }
  }

  lemma IdsPush(units: seq<Unit>, u: Unit)
    ensures Ids(units + [u]) == Ids(units) + [u.id]
  {
  }

  /** A target counted down: what one turn of the inner loop does to the counts and to the queue. */
  lemma FreedOne(es: seq<Edge>, done: set<string>, targets: seq<string>, j: nat)
    requires j < |targets|
    ensures var t := targets[j];
            Freed(es, done, targets[j..]) ==
              (if Into(es, t, done) + Times(targets[j + 1..], t) == 0 then [t] else []) +
                 Freed(es, done, targets[j + 1..])
    ensures forall x :: Times(targets[j..], x) == Times(targets[j + 1..], x) + (if x == targets[j] then 1 else 0)
  {
    assert targets[j..][1..] == targets[j + 1..] && targets[j..][0] == targets[j];
    TimesIn(targets[j + 1..], targets[j]);
  }

  /** The in-degree map is right when `done` are out of the way. */
  ghost predicate Counts(inDegree: map<string, int>, ids: seq<string>, es: seq<Edge>, done: set<string>) {
    forall x :: x in ids ==> x in inDegree && inDegree[x] == Into(es, x, done)
  }

  ghost predicate Adjacent(adj: map<string, seq<string>>, es: seq<Edge>) {
    forall x :: (if x in adj then adj[x] else []) == Targets(es, x)
  }

  /** The symbol table and the zeroed in-degrees. */
  method Index(units: seq<Unit>) returns (childMap: map<string, Unit>, inDegree: map<string, int>)
    requires NoDup(Ids(units))
    ensures childMap.Keys == Elems(Ids(units)) && inDegree.Keys == Elems(Ids(units))
    ensures forall x :: x in childMap ==> childMap[x] in units && childMap[x].id == x
    ensures forall x :: x in inDegree ==> inDegree[x] == 0
  {
    childMap, inDegree := map[], map[];
    var i := 0;
    while i < |units|
      invariant 0 <= i <= |units|
      invariant childMap.Keys == Elems(Ids(units)[..i]) && inDegree.Keys == Elems(Ids(units)[..i])
      invariant forall x :: x in childMap ==> childMap[x] in units && childMap[x].id == x
      invariant forall x :: x in inDegree ==> inDegree[x] == 0
    {
      assert Ids(units)[..i + 1] == Ids(units)[..i] + [units[i].id];
      childMap := childMap[units[i].id := units[i]];
      inDegree := inDegree[units[i].id := 0];
      i := i + 1;
    }
    assert Ids(units)[..i] == Ids(units);
  }

  /** The edges between known units, into the adjacency lists and the in-degrees. */
  method Connect(units: seq<Unit>, edges: seq<Edge>, childMap: map<string, Unit>, zero: map<string, int>)
    returns (inDegree: map<string, int>, adj: map<string, seq<string>>)
    requires childMap.Keys == Elems(Ids(units)) && zero.Keys == Elems(Ids(units))
    requires forall x :: x in zero ==> zero[x] == 0
    ensures Counts(inDegree, Ids(units), Known(Elems(Ids(units)), edges), {})
    ensures Adjacent(adj, Known(Elems(Ids(units)), edges))
  {
    hide Counts, Adjacent, Known, Ids;
    ghost var ids := Elems(Ids(units));
    inDegree, adj := zero, map[];
    NothingCounted(zero, Ids(units), ids, edges);
    var i := 0;
    while i < |edges|
      invariant 0 <= i <= |edges| && inDegree.Keys == ids
      invariant Counts(inDegree, Ids(units), Known(ids, edges[..i]), {})
      invariant Adjacent(adj, Known(ids, edges[..i]))
    {
      var edge := edges[i];
      ghost var es := Known(ids, edges[..i]);
      KnownPush(ids, edges, i);
      if edge.from in childMap && edge.to in childMap {
        ConnectOne(inDegree, adj, Ids(units), es, edge);
        adj := adj[edge.from := (if edge.from in adj then adj[edge.from] else []) + [edge.to]];
        inDegree := inDegree[edge.to := inDegree[edge.to] + 1];
      } else {
        assert es + [] == es;
      }
      i := i + 1;
    }
    assert edges[..i] == edges;
  }

  lemma KnownPush(ids: set<string>, edges: seq<Edge>, i: nat)
    requires i < |edges|
    ensures Known(ids, edges[..i + 1]) ==
            Known(ids, edges[..i]) + (if edges[i].from in ids && edges[i].to in ids then [edges[i]] else [])
  {
    assert edges[..i + 1][..i] == edges[..i];
  }

  lemma NothingCounted(zero: map<string, int>, ids: seq<string>, known: set<string>, edges: seq<Edge>)
    requires zero.Keys == Elems(ids) && forall x :: x in zero ==> zero[x] == 0
    ensures Counts(zero, ids, Known(known, edges[..0]), {}) && Adjacent(map[], Known(known, edges[..0]))
  {
    assert Known(known, edges[..0]) == [];
    assert forall x :: x in ids ==> x in Elems(ids);
  }

  lemma ConnectOne(inDegree: map<string, int>, adj: map<string, seq<string>>, ids: seq<string>, es: seq<Edge>, e: Edge)
    requires Counts(inDegree, ids, es, {}) && Adjacent(adj, es) && e.to in inDegree
    ensures Counts(inDegree[e.to := inDegree[e.to] + 1], ids, es + [e], {})
    ensures Adjacent(adj[e.from := (if e.from in adj then adj[e.from] else []) + [e.to]], es + [e])
  {
    assert (es + [e])[..|es|] == es;
    assert forall x :: Into(es + [e], x, {}) == Into(es, x, {}) + (if e.to == x then 1 else 0);
    var after := adj[e.from := (if e.from in adj then adj[e.from] else []) + [e.to]];
    forall x ensures (if x in after then after[x] else []) == Targets(es + [e], x) {
      assert (if x in adj then adj[x] else []) == Targets(es, x);
    }
  }

  /** The inner loop: `id` is finished, its targets are counted down and the freed ones join the queue. */
  method CountDown(before: map<string, int>, targets: seq<string>, rest: seq<string>, id: string,
                   ghost ids: seq<string>, ghost es: seq<Edge>, ghost order: seq<string>)
    returns (inDegree: map<string, int>, queue: seq<string>)
    requires id !in order && targets == Targets(es, id) && Counts(before, ids, es, Elems(order))
    requires forall e :: e in es ==> e.to in ids
    ensures queue == rest + Freed(es, Elems(order) + {id}, targets)
    ensures Counts(inDegree, ids, es, Elems(order + [id]))
  {
    hide Freed, Into, Targets, Counts, Remaining;
    ghost var done := Elems(order) + {id};
    inDegree, queue := before, rest;
    var j := 0;
    RemainingStart(before, ids, es, order, id);
    assert targets[0..] == targets;
    while j < |targets|
      invariant 0 <= j <= |targets|
      invariant Remaining(inDegree, ids, es, done, targets[j..])
      invariant queue + Freed(es, done, targets[j..]) == rest + Freed(es, done, targets)
    {
      var t := targets[j];
      TargetsIs(es, id, t);
      assert Edge(id, t) in es;
      FreedOne(es, done, targets, j);
      RemainingStep(inDegree, ids, es, done, targets, j);
      inDegree := inDegree[t := inDegree[t] - 1];
      if inDegree[t] == 0 {
        queue := queue + [t];
      }
      j := j + 1;
    }
    assert targets[j..] == [];
    RemainingEnd(inDegree, ids, es, order, id);
  }

  /** In the middle of the inner loop: `targets` are still to be counted down. */
  ghost predicate Remaining(inDegree: map<string, int>, ids: seq<string>, es: seq<Edge>, done: set<string>,
                            targets: seq<string>) {
    forall x :: x in ids ==> x in inDegree && inDegree[x] == Into(es, x, done) + Times(targets, x)
  }

  lemma RemainingStart(before: map<string, int>, ids: seq<string>, es: seq<Edge>, order: seq<string>, id: string)
    requires id !in order && Counts(before, ids, es, Elems(order))
    ensures Remaining(before, ids, es, Elems(order) + {id}, Targets(es, id))
  {
    forall x | x in ids
      ensures x in before && before[x] == Into(es, x, Elems(order) + {id}) + Times(Targets(es, id), x)
    {
      IntoDone(es, x, Elems(order), id);
    }
  }

  lemma RemainingStep(inDegree: map<string, int>, ids: seq<string>, es: seq<Edge>, done: set<string>,
                      targets: seq<string>, j: nat)
    requires j < |targets| && targets[j] in ids && Remaining(inDegree, ids, es, done, targets[j..])
    ensures var t := targets[j];
            && t in inDegree && inDegree[t] - 1 == Into(es, t, done) + Times(targets[j + 1..], t)
            && Remaining(inDegree[t := inDegree[t] - 1], ids, es, done, targets[j + 1..])
  {
    hide Freed, Into;
    FreedOne(es, done, targets, j);
  }

  lemma RemainingEnd(inDegree: map<string, int>, ids: seq<string>, es: seq<Edge>, order: seq<string>, id: string)
    requires Remaining(inDegree, ids, es, Elems(order) + {id}, [])
    ensures Counts(inDegree, ids, es, Elems(order + [id]))
    ensures Freed(es, Elems(order) + {id}, []) == []
  {
    assert Elems(order + [id]) == Elems(order) + {id};
  }

  lemma LeftNone(prefix: seq<string>)
    ensures Left([], prefix) == []
  {
  }

  lemma LeftPush(ids: seq<string>, prefix: seq<string>, i: nat)
    requires i < |ids|
    ensures Left(ids[..i + 1], prefix) == Left(ids[..i], prefix) + (if ids[i] in prefix then [] else [ids[i]])
  {
    assert ids[..i + 1][..i] == ids[..i];
  }

  /** The cycle fallback. */
  method AppendRest(units: seq<Unit>, prefix: seq<Unit>) returns (sorted: seq<Unit>)
    requires forall k :: 0 <= k < |prefix| ==> prefix[k] in units
    ensures Ids(sorted) == Ids(prefix) + Left(Ids(units), Ids(prefix))
    ensures forall k :: 0 <= k < |sorted| ==> sorted[k] in units
  {
    hide Ids, Left;
    var visited: set<string> := {};
    var i := 0;
    while i < |prefix|
      invariant 0 <= i <= |prefix| && visited == Elems(Ids(prefix)[..i])
    {
      assert Ids(prefix)[i] == prefix[i].id;
      assert Ids(prefix)[..i + 1] == Ids(prefix)[..i] + [prefix[i].id];
      visited := visited + {prefix[i].id};
      i := i + 1;
    }
    assert Ids(prefix)[..i] == Ids(prefix);
    sorted := prefix;
    LeftNone(Ids(prefix));
    i := 0;
    while i < |units|
      invariant 0 <= i <= |units|
      invariant Ids(sorted) == Ids(prefix) + Left(Ids(units)[..i], Ids(prefix))
      invariant forall k :: 0 <= k < |sorted| ==> sorted[k] in units
    {
      LeftPush(Ids(units), Ids(prefix), i);
      assert Ids(units)[i] == units[i].id;
      assert units[i].id in Ids(prefix) <==> units[i].id in Elems(Ids(prefix));
      if units[i].id !in visited {
        IdsPush(sorted, units[i]);
        sorted := sorted + [units[i]];
      }
      i := i + 1;
    }
    assert Ids(units)[..i] == Ids(units);
  }

  /** One turn of the queue. */
  lemma DrainTurn(ids: seq<string>, es: seq<Edge>, queue: seq<string>, order: seq<string>)
    requires NoDup(ids) && Inv(ids, es, queue, order) && queue != []
    ensures var id := queue[0];
            var next := queue[1..] + Freed(es, Elems(order) + {id}, Targets(es, id));
            && id in ids && id !in order && |order| < |ids|
            && Inv(ids, es, next, order + [id])
            && Drain(ids, es, queue, order) == Drain(ids, es, next, order + [id])
    ensures forall e :: e in es ==> e.to in ids
  {
    StepKeepsInv(ids, es, queue, order);
    QueueShort(ids, es, queue, order);
    assert (order + queue)[|order|] == queue[0];
    assert forall i :: 0 <= i < |order| ==> (order + queue)[i] == order[i];
  }

  lemma DrainStops(ids: seq<string>, es: seq<Edge>, order: seq<string>)
    requires NoDup(ids) && Inv(ids, es, [], order)
    ensures Drain(ids, es, [], order) == order
  {
  }

  /** The queue starts with the units that nothing leads into. */
  method Ready(units: seq<Unit>, inDegree: map<string, int>, ghost es: seq<Edge>) returns (queue: seq<string>)
    requires Counts(inDegree, Ids(units), es, {})
    ensures queue == Roots(Ids(units), es)
  {
    queue := [];
    var i := 0;
    while i < |units|
      invariant 0 <= i <= |units| && queue == Roots(Ids(units)[..i], es)
    {
      assert Ids(units)[..i + 1][..i] == Ids(units)[..i];
      assert units[i].id == Ids(units)[i];
      if inDegree[units[i].id] == 0 {
        queue := queue + [units[i].id];
      }
      i := i + 1;
    }
    assert Ids(units)[..i] == Ids(units);
  }

  /** topologicallySorted, with the source's maps and queue. */
  method TopologicallySorted(units: seq<Unit>, edges: seq<Edge>) returns (sorted: seq<Unit>)
    requires NoDup(Ids(units))
    ensures multiset(sorted) == multiset(units)
    ensures Ids(sorted) == Order(Ids(units), edges)
  {
    hide Inv, Drain, Counts, Known, Freed, Roots, Left, NoDup, Ids, Adjacent, Targets;
    ghost var ids := Ids(units);
    if |edges| == 0 || |units| <= 1 {
      OrderTrivial(ids, edges);
      return units;
    }
    var childMap, zero := Index(units);
    ghost var es := Known(Elems(ids), edges);
    var inDegree, adj := Connect(units, edges, childMap, zero);
    var queue := Ready(units, inDegree, es);
    StartInv(ids, edges);
    sorted := [];
    ghost var order: seq<string> := [];
    NoIds();
    while |queue| > 0
      invariant Inv(ids, es, queue, order) && Drain(ids, es, queue, order) == Prefix(ids, edges)
      invariant Ids(sorted) == order && forall k :: 0 <= k < |sorted| ==> sorted[k] in units
      invariant Counts(inDegree, ids, es, Elems(order))
      decreases |ids| - |order|
    {
      var id := queue[0];
      DrainTurn(ids, es, queue, order);
      AdjacentTo(adj, es, id);
      inDegree, queue := CountDown(inDegree, if id in adj then adj[id] else [], queue[1..], id, ids, es, order);
      IdsPush(sorted, childMap[id]);
      sorted := sorted + [childMap[id]];
      order := order + [id];
    }
    DrainStops(ids, es, order);
    OrderHolds(ids, edges);
    if |sorted| < |units| {
      sorted := AppendRest(units, sorted);
    } else {
      assert Left(ids, order) == [];
      assert order + [] == order;
    }
    SameUnits(sorted, units);
  }

  lemma NoIds()
    ensures Ids([]) == []
    ensures Elems<string>([]) == {}
  {
  }

  lemma AdjacentTo(adj: map<string, seq<string>>, es: seq<Edge>, id: string)
    requires Adjacent(adj, es)
    ensures (if id in adj then adj[id] else []) == Targets(es, id)
  {
  }

  // ----- Main results -----

  /**
   The sort of any units with distinct ids and any edges (repeated, looping on one unit, or with unknown ends): the
   result is a permutation; it is a prefix in which every edge's source comes earlier, then a tail; the tail holds
   exactly the units with a cycle at or upstream of them, in input order, and is empty exactly on acyclic edges.
   */
  lemma SortMeans(ids: seq<string>, edges: seq<Edge>)
    requires NoDup(ids)
    ensures var es := Known(Elems(ids), edges);
            var p := Prefix(ids, edges);
            var tail := Left(ids, p);
            && Order(ids, edges) == p + tail && multiset(p + tail) == multiset(ids)
            && SourcesFirst(es, p)
            && (forall x :: x in tail <==> x in ids && CycleReaches(es, x))
            && (tail == [] <==> Acyclic(es))
    ensures forall e :: e in Known(Elems(ids), edges) <==> e in edges && e.from in ids && e.to in ids
  {
    hide Prefix, NoDup, Acyclic, CycleReaches, Left;
    OrderHolds(ids, edges);
    SameElements(Order(ids, edges), ids);
    AllSortedExactly(ids, edges);
    PrefixInv(ids, edges);
    KnownIs(Elems(ids), edges);
    LeftIs(ids, Prefix(ids, edges));
    forall x | x in ids ensures x in Left(ids, Prefix(ids, edges)) <==> CycleReaches(Known(Elems(ids), edges), x) {
      TailExactly(ids, edges, x);
    }
  }

  lemma PrefixInv(ids: seq<string>, edges: seq<Edge>)
    requires NoDup(ids)
    ensures SourcesFirst(Known(Elems(ids), edges), Prefix(ids, edges))
  {
    StartInv(ids, edges);
  }

  // ----- Whose turn it is -----

  /** `y` occurs after the last `x`. */
  ghost predicate After<T>(s: seq<T>, x: T, y: T) {
    exists k :: 0 <= k < |s| && s[k] == y && forall m :: k <= m < |s| ==> s[m] != x
  }

  /** The last of what `x` waits for is `p[r]`, and -1 stands for nothing to wait for. */
  ghost predicate Released(es: seq<Edge>, p: seq<string>, x: string, r: int) {
    && -1 <= r < |p|
    && (forall e :: e in es && e.to == x ==> e.from in p[..r + 1])
    && (r >= 0 ==> Edge(p[r], x) in es)
  }

  /**
   `x` goes before `y`: it is released first, or by the same unit, whose last edge into `x` comes before one into `y`,
   or neither waits for anything and it is first in the document.
   */
  ghost predicate Precedes(ids: seq<string>, edges: seq<Edge>, p: seq<string>, x: string, r: int, y: string, s: int) {
    r < s || (r == s && if 0 <= r < |p| then After(edges, Edge(p[r], x), Edge(p[r], y)) else After(ids, x, y))
  }

  ghost predicate InTurn(ids: seq<string>, edges: seq<Edge>, es: seq<Edge>, p: seq<string>, x: string, y: string) {
    exists r, s :: Released(es, p, x, r) && Released(es, p, y, s) && Precedes(ids, edges, p, x, r, y, s)
  }

  lemma AfterPush<T>(s: seq<T>, z: T, x: T, y: T)
    ensures After(s + [z], x, y) <==> z != x && (z == y || After(s, x, y))
  {
    var t := s + [z];
    if z != x && z == y {
      assert t[|s|] == y;
    } else if z != x && After(s, x, y) {
      var k :| 0 <= k < |s| && s[k] == y && forall m :: k <= m < |s| ==> s[m] != x;
      assert t[k] == y;
    }
    if After(t, x, y) {
      var k :| 0 <= k < |t| && t[k] == y && forall m :: k <= m < |t| ==> t[m] != x;
      assert t[|s|] != x;
      if k < |s| {
        assert s[k] == y;
        assert forall m :: k <= m < |s| ==> s[m] == t[m];
      }
    }
  }

  /** Leaving out the edges between unknown units keeps the order of the others. */
  lemma {:induction false} AfterKnown(ids: set<string>, edges: seq<Edge>, a: Edge, b: Edge)
    requires a.from in ids && a.to in ids && b.from in ids && b.to in ids
    ensures After(Known(ids, edges), a, b) <==> After(edges, a, b)
    decreases |edges|
  {
    hide After;
    if edges == [] {
      AfterNone(a, b);
    } else {
      var n := |edges| - 1;
      AfterKnown(ids, edges[..n], a, b);
      assert edges == edges[..n] + [edges[n]];
      AfterPush(edges[..n], edges[n], a, b);
      AfterPush(Known(ids, edges[..n]), edges[n], a, b);
      assert Known(ids, edges[..n]) + [] == Known(ids, edges[..n]);
    }
  }

  lemma AfterNone<T>(x: T, y: T)
    ensures !After([], x, y)
  {
  }

  /** A unit's targets keep the order of its edges. */
  lemma {:induction false} AfterTargets(es: seq<Edge>, from: string, x: string, y: string)
    ensures After(Targets(es, from), x, y) <==> After(es, Edge(from, x), Edge(from, y))
    decreases |es|
  {
    hide After;
    if es == [] {
      AfterNone(x, y);
      AfterNone(Edge(from, x), Edge(from, y));
    } else {
      var n := |es| - 1;
      AfterTargets(es[..n], from, x, y);
      assert es == es[..n] + [es[n]];
      AfterPush(es[..n], es[n], Edge(from, x), Edge(from, y));
      AfterPush(Targets(es[..n], from), es[n].to, x, y);
      assert Targets(es[..n], from) + [] == Targets(es[..n], from);
    }
  }

  lemma AfterDrop<T>(s: seq<T>, x: T, y: T)
    requires s != [] && After(s[1..], x, y)
    ensures After(s, x, y)
  {
    var k :| 0 <= k < |s[1..]| && s[1..][k] == y && forall m :: k <= m < |s[1..]| ==> s[1..][m] != x;
    assert s[k + 1] == y;
    forall m | k + 1 <= m < |s| ensures s[m] != x {
      assert s[m] == s[1..][m - 1];
    }
  }

  /** The freed units, in the order in which their last edges are counted down. */
  lemma {:induction false} FreedInOrder(es: seq<Edge>, done: set<string>, targets: seq<string>, i: nat, j: nat)
    requires i < j < |Freed(es, done, targets)|
    ensures var freed := Freed(es, done, targets); After(targets, freed[i], freed[j])
    decreases |targets|
  {
    hide Into;
    var rest := Freed(es, done, targets[1..]);
    var freed := Freed(es, done, targets);
    FreedIs(es, done, targets[1..]);
    if freed == rest {
      FreedInOrder(es, done, targets[1..], i, j);
      AfterDrop(targets, freed[i], freed[j]);
    } else {
      assert freed == [targets[0]] + rest;
      if i == 0 {
        assert freed[j] in rest;
        var k :| 0 <= k < |targets[1..]| && targets[1..][k] == freed[j];
        assert targets[k + 1] == freed[j];
        assert forall m :: k + 1 <= m < |targets| ==> targets[m] in targets[1..];
      } else {
        FreedInOrder(es, done, targets[1..], i - 1, j - 1);
        AfterDrop(targets, freed[i], freed[j]);
      }
    }
  }

  lemma {:induction false} RootsInOrder(ids: seq<string>, es: seq<Edge>, i: nat, j: nat)
    requires NoDup(ids) && i < j < |Roots(ids, es)|
    ensures After(ids, Roots(ids, es)[i], Roots(ids, es)[j])
    decreases |ids|
  {
    hide Into, After;
    var n := |ids| - 1;
    var before := Roots(ids[..n], es);
    assert ids == ids[..n] + [ids[n]];
    RootsAre(ids[..n], es);
    assert before[i] in before;
    AfterPush(ids[..n], ids[n], before[i], Roots(ids, es)[j]);
    if j < |before| {
      RootsInOrder(ids[..n], es, i, j);
    }
  }

  /** `x` was released before `p[n]` was sorted. */
  ghost predicate ReleasedBefore(es: seq<Edge>, p: seq<string>, x: string, n: nat) {
    exists r :: r < n && Released(es, p, x, r)
  }

  /** What is in the prefix or the queue was released by something in the prefix, and stands in order. */
  ghost predicate Ordered(ids: seq<string>, edges: seq<Edge>, es: seq<Edge>, sorted: seq<string>, queue: seq<string>) {
    var q := sorted + queue;
    && (forall k :: 0 <= k < |q| ==> ReleasedBefore(es, q, q[k], |sorted|))
    && forall i, j :: 0 <= i < j < |q| ==> InTurn(ids, edges, es, q, q[i], q[j])
  }

  lemma OrderedIs(ids: seq<string>, edges: seq<Edge>, es: seq<Edge>, sorted: seq<string>, queue: seq<string>,
                  q: seq<string>)
    requires q == sorted + queue
    requires forall k :: 0 <= k < |q| ==> ReleasedBefore(es, q, q[k], |sorted|)
    requires forall i, j :: 0 <= i < j < |q| ==> InTurn(ids, edges, es, q, q[i], q[j])
    ensures Ordered(ids, edges, es, sorted, queue)
  {
  }

  lemma StaysReleased(es: seq<Edge>, q: seq<string>, more: seq<string>, x: string, r: int)
    requires Released(es, q, x, r)
    ensures Released(es, q + more, x, r)
  {
    assert (q + more)[..r + 1] == q[..r + 1];
  }

  lemma StaysInTurn(ids: seq<string>, edges: seq<Edge>, es: seq<Edge>, q: seq<string>, more: seq<string>, x: string,
                    y: string)
    requires InTurn(ids, edges, es, q, x, y)
    ensures InTurn(ids, edges, es, q + more, x, y)
  {
    hide Released, After;
    var r, s :| Released(es, q, x, r) && Released(es, q, y, s) && Precedes(ids, edges, q, x, r, y, s);
    StaysReleased(es, q, more, x, r);
    StaysReleased(es, q, more, y, s);
    assert r < |q| by {
      ReleasedWithin(es, q, x, r);
    }
    assert Precedes(ids, edges, q + more, x, r, y, s);
  }

  lemma ReleasedWithin(es: seq<Edge>, q: seq<string>, x: string, r: int)
    requires Released(es, q, x, r)
    ensures -1 <= r < |q|
  {
  }

  /** A unit freed by `id` was released by it. */
  lemma FreedReleased(ids: seq<string>, es: seq<Edge>, queue: seq<string>, sorted: seq<string>, more: seq<string>,
                      x: string)
    requires Inv(ids, es, queue, sorted) && queue != []
    requires x in Freed(es, Elems(sorted) + {queue[0]}, Targets(es, queue[0]))
    ensures Released(es, (sorted + queue) + more, x, |sorted|)
  {
    var id, q := queue[0], (sorted + queue) + more;
    FreedIs(es, Elems(sorted) + {id}, Targets(es, id));
    TargetsIs(es, id, x);
    IntoZero(es, x, Elems(sorted) + {id});
    assert q[|sorted|] == id;
    assert q[..|sorted| + 1] == sorted + [id];
    forall e | e in es && e.to == x ensures e.from in q[..|sorted| + 1] {
      assert e.from in Elems(sorted) || e.from == id;
    }
  }

  /** Two units freed by `id` stand in the order of its edges. */
  lemma FreedInTurn(ids: seq<string>, edges: seq<Edge>, queue: seq<string>, sorted: seq<string>, i: nat, j: nat)
    requires var es := Known(Elems(ids), edges);
             Inv(ids, es, queue, sorted) && queue != [] &&
             i < j < |Freed(es, Elems(sorted) + {queue[0]}, Targets(es, queue[0]))|
    ensures var es := Known(Elems(ids), edges);
            var freed := Freed(es, Elems(sorted) + {queue[0]}, Targets(es, queue[0]));
            InTurn(ids, edges, es, (sorted + queue) + freed, freed[i], freed[j])
  {
    hide Inv, Released, After, Into, Freed, Targets, Known;
    var es, id := Known(Elems(ids), edges), queue[0];
    var freed := Freed(es, Elems(sorted) + {id}, Targets(es, id));
    var q := (sorted + queue) + freed;
    FreedReleased(ids, es, queue, sorted, freed, freed[i]);
    FreedReleased(ids, es, queue, sorted, freed, freed[j]);
    FreedInOrder(es, Elems(sorted) + {id}, Targets(es, id), i, j);
    AfterTargets(es, id, freed[i], freed[j]);
    assert q[|sorted|] == id;
    ReleasedEdge(es, q, freed[i], |sorted|);
    ReleasedEdge(es, q, freed[j], |sorted|);
    KnownIs(Elems(ids), edges);
    AfterKnown(Elems(ids), edges, Edge(id, freed[i]), Edge(id, freed[j]));
    assert Precedes(ids, edges, q, freed[i], |sorted|, freed[j], |sorted|);
  }

  lemma ReleasedEdge(es: seq<Edge>, q: seq<string>, x: string, r: nat)
    requires Released(es, q, x, r)
    ensures r < |q| && Edge(q[r], x) in es
  {
  }

  lemma StepOrdered(ids: seq<string>, edges: seq<Edge>, queue: seq<string>, sorted: seq<string>)
    requires var es := Known(Elems(ids), edges); Inv(ids, es, queue, sorted) && Ordered(ids, edges, es, sorted, queue)
    requires queue != []
    ensures var es, id := Known(Elems(ids), edges), queue[0];
            Ordered(ids, edges, es, sorted + [id], queue[1..] + Freed(es, Elems(sorted) + {id}, Targets(es, id)))
  {
    hide Inv, Released, After, Into, Freed, Targets, Known, InTurn, Precedes;
    var es, id := Known(Elems(ids), edges), queue[0];
    var freed := Freed(es, Elems(sorted) + {id}, Targets(es, id));
    var q := sorted + queue;
    assert (sorted + [id]) + (queue[1..] + freed) == q + freed;
    forall k | 0 <= k < |q + freed| ensures ReleasedBefore(es, q + freed, (q + freed)[k], |sorted + [id]|) {
      var r := StepReleased(ids, edges, queue, sorted, k);
    }
    forall i, j | 0 <= i < j < |q + freed| ensures InTurn(ids, edges, es, q + freed, (q + freed)[i], (q + freed)[j]) {
      if j < |q| {
        StaysInTurn(ids, edges, es, q, freed, q[i], q[j]);
      } else if i < |q| {
        var r := StepReleased(ids, edges, queue, sorted, i);
        FreedReleased(ids, es, queue, sorted, freed, freed[j - |q|]);
        EarlierInTurn(ids, edges, es, q + freed, q[i], r, freed[j - |q|], |sorted|);
      } else {
        FreedInTurn(ids, edges, queue, sorted, i - |q|, j - |q|);
      }
    }
    OrderedIs(ids, edges, es, sorted + [id], queue[1..] + freed, q + freed);
  }

  lemma StepReleased(ids: seq<string>, edges: seq<Edge>, queue: seq<string>, sorted: seq<string>, k: nat)
    returns (r: int)
    requires var es := Known(Elems(ids), edges); Inv(ids, es, queue, sorted) && Ordered(ids, edges, es, sorted, queue)
    requires var es := Known(Elems(ids), edges);
             queue != [] && k < |sorted| + |queue| + |Freed(es, Elems(sorted) + {queue[0]}, Targets(es, queue[0]))|
    ensures var es := Known(Elems(ids), edges);
            var q := (sorted + queue) + Freed(es, Elems(sorted) + {queue[0]}, Targets(es, queue[0]));
            Released(es, q, q[k], r) && r <= |sorted| && (k < |sorted + queue| ==> r < |sorted|)
  {
    hide Inv, Released, After, Into, Freed, Targets, Known, InTurn;
    var es, id := Known(Elems(ids), edges), queue[0];
    var freed := Freed(es, Elems(sorted) + {id}, Targets(es, id));
    var q := sorted + queue;
    if k < |q| {
      assert ReleasedBefore(es, q, q[k], |sorted|);
      r :| r < |sorted| && Released(es, q, q[k], r);
      StaysReleased(es, q, freed, q[k], r);
    } else {
      r := |sorted|;
      FreedReleased(ids, es, queue, sorted, freed, freed[k - |q|]);
    }
  }

  lemma EarlierInTurn(ids: seq<string>, edges: seq<Edge>, es: seq<Edge>, q: seq<string>, x: string, r: int, y: string,
                      s: int)
    requires Released(es, q, x, r) && Released(es, q, y, s) && r < s
    ensures InTurn(ids, edges, es, q, x, y)
  {
    assert Precedes(ids, edges, q, x, r, y, s);
  }

  lemma RootReleased(ids: seq<string>, es: seq<Edge>, k: nat)
    requires k < |Roots(ids, es)|
    ensures Released(es, Roots(ids, es), Roots(ids, es)[k], -1)
  {
    hide Into, Roots;
    RootsAre(ids, es);
    assert Roots(ids, es)[k] in Roots(ids, es);
    IntoZero(es, Roots(ids, es)[k], {});
  }

  lemma RootsInTurn(ids: seq<string>, edges: seq<Edge>, es: seq<Edge>, i: nat, j: nat)
    requires NoDup(ids) && i < j < |Roots(ids, es)|
    ensures var q := Roots(ids, es); InTurn(ids, edges, es, q, q[i], q[j])
  {
    hide After, Roots, Released;
    var q := Roots(ids, es);
    RootReleased(ids, es, i);
    RootReleased(ids, es, j);
    RootsInOrder(ids, es, i, j);
    assert Precedes(ids, edges, q, q[i], -1, q[j], -1);
  }

  lemma StartOrdered(ids: seq<string>, edges: seq<Edge>)
    requires NoDup(ids)
    ensures var es := Known(Elems(ids), edges); Ordered(ids, edges, es, [], Roots(ids, es))
  {
    hide Known, Roots, Released, InTurn;
    var es := Known(Elems(ids), edges);
    var q := Roots(ids, es);
    assert [] + q == q;
    forall k | 0 <= k < |q| ensures ReleasedBefore(es, q, q[k], 0) {
      RootReleased(ids, es, k);
    }
    forall i, j | 0 <= i < j < |q| ensures InTurn(ids, edges, es, q, q[i], q[j]) {
      RootsInTurn(ids, edges, es, i, j);
    }
    OrderedIs(ids, edges, es, [], q, q);
  }

  lemma {:induction false} DrainOrdered(ids: seq<string>, edges: seq<Edge>, queue: seq<string>, sorted: seq<string>)
    requires var es := Known(Elems(ids), edges);
             NoDup(ids) && Inv(ids, es, queue, sorted) && Ordered(ids, edges, es, sorted, queue)
    ensures var es := Known(Elems(ids), edges); Ordered(ids, edges, es, Drain(ids, es, queue, sorted), [])
    decreases |ids| - |sorted|
  {
    hide Inv, Ordered, Into, Known, NoDup;
    var es := Known(Elems(ids), edges);
    if queue != [] {
      DrainTurn(ids, es, queue, sorted);
      StepOrdered(ids, edges, queue, sorted);
      DrainOrdered(ids, edges, queue[1..] + Freed(es, Elems(sorted) + {queue[0]}, Targets(es, queue[0])),
                   sorted + [queue[0]]);
    }
  }

  /**
   The order of the prefix, completely: of two sorted units the one that is released first stands first; of two released
   by the same unit the one whose last edge from it comes first; of two that wait for nothing the one that comes first.
   */
  lemma SortsInTurn(ids: seq<string>, edges: seq<Edge>, i: nat, j: nat)
    requires NoDup(ids) && i < j < |Prefix(ids, edges)|
    ensures var p := Prefix(ids, edges); InTurn(ids, edges, Known(Elems(ids), edges), p, p[i], p[j])
    ensures forall e :: e in Known(Elems(ids), edges) <==> e in edges && e.from in ids && e.to in ids
  {
    hide InTurn, Known, Inv;
    StartInv(ids, edges);
    StartOrdered(ids, edges);
    var es, p := Known(Elems(ids), edges), Prefix(ids, edges);
    DrainOrdered(ids, edges, Roots(ids, es), []);
    assert p + [] == p;
    KnownIs(Elems(ids), edges);
  }

  /** validateEdgeCycles, run once every edge joins two children: the same count-down, compared with their number. */
  ghost predicate CyclesAccepted(ids: seq<string>, edges: seq<Edge>)
    requires NoDup(ids)
  {
    edges == [] || |ids| <= 1 || |Prefix(ids, edges)| == |ids|
  }

  /** It accepts exactly the acyclic subgraphs, and those with a single child whatever its edges. */
  lemma CyclesAcceptedExactly(ids: seq<string>, edges: seq<Edge>)
    requires NoDup(ids) && forall e :: e in edges ==> e.from in ids && e.to in ids
    ensures CyclesAccepted(ids, edges) <==> |ids| <= 1 || Acyclic(Known(Elems(ids), edges))
  {
    hide Prefix, Acyclic, Left, Known;
    OrderHolds(ids, edges);
    AllSortedExactly(ids, edges);
    if edges == [] {
      PrefixHolds(ids, edges);
      NoEdges(ids);
    }
  }

  lemma NoEdges(ids: seq<string>)
    ensures Acyclic(Known(Elems(ids), []))
  {
    forall p | Walk(Known(Elems(ids), []), p) ensures NoDup(p) {
      NoWalk(p);
    }
  }

  lemma NoWalk(p: seq<string>)
    ensures Walk([], p) ==> |p| <= 1
  {
    assert |p| > 1 ==> Edge(p[0], p[0 + 1]) !in [];
  }

  /** The single child that depends on itself is a cycle, and is accepted. */
  lemma LoopOnOneChildAccepted(x: string)
    ensures var loop := [Edge(x, x)]; CyclesAccepted([x], loop) && !Acyclic(Known(Elems([x]), loop))
  {
    var loop := [Edge(x, x)];
    KnownIs(Elems([x]), loop);
    assert Edge(x, x) in Known(Elems([x]), loop);
    var p := [x, x];
    assert Walk(Known(Elems([x]), loop), p) && p[0] == p[1];
  }
}
