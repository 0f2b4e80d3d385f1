/**
 What a dispatch is for, when nothing goes wrong: which value it returns, which actions run and in which order, and
 what it leaves on the stack.  And what a unit that succeeded gives when it is dispatched again on that stack: the same
 value, without running anything.
 */
module ExecutorCalm {
  import opened Options
  import opened RunStatus
  import opened Failure
  import opened Recovery
  import opened Executor
  import opened ExecutorStack

  // ----- The meaning of a tree -----

  /** A node means what its action returns; a scope its last unit, or the first that completes it, or nothing. */
  function Meaning(f: nat -> Value, u: Unit): Value {
    match u.body
    case Leaf(_) => f(u.id)
    case Scope(children) => MeaningOf(f, children, Nil)
  }

  function MeaningOf(f: nat -> Value, units: seq<Unit>, last: Value): Value {
    if units == [] then last
    else if Ends(units[0]) then Meaning(f, units[0])
    else MeaningOf(f, units[1..], Meaning(f, units[0]))
  }

  /** The unit is a node bound to flow.complete. */
  predicate Ends(u: Unit) {
    match u.body
    case Leaf(completes) => completes
    case Scope(_) => false
  }

  /** The nodes that run, in order. */
  function Runs(u: Unit): seq<nat> {
    match u.body
    case Leaf(_) => [u.id]
    case Scope(children) => RunsOf(children)
  }

  function RunsOf(units: seq<Unit>): seq<nat> {
    if units == [] then [] else Runs(units[0]) + if Ends(units[0]) then [] else RunsOf(units[1..])
  }

  /** The one entry a unit leaves: a node's receipt, or a scope's stack. */
  function Leaves(f: nat -> Value, undo: nat -> bool, u: Unit): Entry {
    match u.body
    case Leaf(_) => Receipt(u.id, true, f(u.id), undo(u.id))
    case Scope(children) => Nested(Stack(u.id, Meaning(f, u), false, LeavesOf(f, undo, children)))
  }

  function LeavesOf(f: nat -> Value, undo: nat -> bool, units: seq<Unit>): seq<Entry> {
    if units == [] then []
    else [Leaves(f, undo, units[0])] + if Ends(units[0]) then [] else LeavesOf(f, undo, units[1..])
  }

  /** Every unit is allowed an attempt. */
  predicate Tried(root: nat, u: Unit) {
    && (match u.retry
        case Some(n) => n >= 0
        case None => true)
    && (match u.body
        case Leaf(_) => true
        case Scope(children) => TriedAll(root, children))
  }

  predicate TriedAll(root: nat, units: seq<Unit>) {
    units != [] ==> Tried(root, units[0]) && TriedAll(root, units[1..])
  }

  // ----- Fair weather -----

  /** Nothing interferes, and every action succeeds without a flip, with its unit's value. */
  ghost predicate Fair(w: World, f: nat -> Value, undo: nat -> bool) {
    && (forall t: nat :: !w.cancelled(t) && w.command(t).None? && w.claims(t))
    && (forall x: nat, t: nat :: w.bound(x, t) && w.act(x, t) == Act([], undo(x), Returned(f(x))))
  }

  /** The stack knows nothing of the units. */
  ghost predicate Unknown(entries: seq<Entry>, ids: set<nat>) {
    forall x :: x in ids ==> About(entries, x) == []
  }

  lemma UnknownFinds(entries: seq<Entry>, x: nat)
    requires About(entries, x) == []
    ensures FindReceipt(entries, x).None? && FindNested(entries, x).None?
  {
    FindsAbout(entries, x);
  }

  /** What a dispatch in fair weather does, whatever the tree. */
  ghost predicate Sails(d: nat, f: nat -> Value, undo: nat -> bool, runs: seq<nat>, left: seq<Entry>, st: State,
                        t: State) {
    && t.entries == st.entries + left
    && t.condition == st.condition && t.reason == st.reason && t.phase == st.phase
    && t.journal == st.journal && t.pending == st.pending
    && st.log <= t.log && Actions(t.log[|st.log|..]) == Acting(d, undo, runs)
  }

  /** The calls of actions, at any depth. */
  function Actions(es: seq<Event>): seq<Event> {
    if es == [] then []
    else
      var e := es[|es|-1];
      Actions(es[..|es|-1]) + if e.Acted? then [e] else []
  }

  /** Each of the units acts once, and succeeds. */
  function Acting(d: nat, undo: nat -> bool, runs: seq<nat>): seq<Event> {
    if runs == [] then [] else [Acted(d, runs[0], true, undo(runs[0]))] + Acting(d, undo, runs[1..])
  }

  lemma {:induction false} ActingConcat(d: nat, undo: nat -> bool, a: seq<nat>, b: seq<nat>)
    ensures Acting(d, undo, a + b) == Acting(d, undo, a) + Acting(d, undo, b)
    decreases |a|
  {
    if a == [] {
      assert a + b == b;
    } else {
      assert (a + b)[1..] == a[1..] + b;
      ActingConcat(d, undo, a[1..], b);
    }
  }

  lemma {:induction false} ActionsConcat(a: seq<Event>, b: seq<Event>)
    ensures Actions(a + b) == Actions(a) + Actions(b)
    decreases |b|
  {
    if b == [] {
      assert a + b == a;
    } else {
      assert (a + b)[..|a + b| - 1] == a + b[..|b|-1];
      ActionsConcat(a, b[..|b|-1]);
    }
  }

  lemma ActionsOne(e: Event)
    ensures Actions([e]) == if e.Acted? then [e] else []
  {
    assert [e][..0] == [];
  }

  lemma SailsOn(d: nat, f: nat -> Value, undo: nat -> bool, r1: seq<nat>, l1: seq<Entry>, r2: seq<nat>, l2: seq<Entry>,
                a: State, b: State, c: State)
    requires Sails(d, f, undo, r1, l1, a, b) && Sails(d, f, undo, r2, l2, b, c)
    ensures Sails(d, f, undo, r1 + r2, l1 + l2, a, c)
  {
    assert c.log[|a.log|..] == b.log[|a.log|..] + c.log[|b.log|..];
    ActionsConcat(b.log[|a.log|..], c.log[|b.log|..]);
    ActingConcat(d, undo, r1, r2);
  }

  lemma {:induction false} DispatchedSails(w: World, d: nat, u: Unit, st: State, f: nat -> Value, undo: nat -> bool)
    requires Fair(w, f, undo) && Tried(w.root, u) && Distinct(u) && Unknown(st.entries, Ids(u))
    requires st.pending == Continue
    ensures var r := Dispatched(w, d, u, st);
            r.out == Ok(Meaning(f, u)) && Sails(d, f, undo, Runs(u), [Leaves(f, undo, u)], st, r.st)
    decreases u, 1
  {
    hide Fair, Execute, Sails, Unknown, Distinct, Retry, Resolve;
    var began := Log(st.(tick := st.tick + 1), [Began(d, u.id)]);
    ExecuteSails(w, d, u, began, f, undo);
    var r := Execute(w, d, u, began);
    BeganSails(d, f, undo, Runs(u), [Leaves(f, undo, u)], st, began, r.st, u.id);
    assert Dispatched(w, d, u, st) == Attempts(w, d, u, st, 0, Nothing);
    assert Tries(w, u) >= 1;
    SailsPending(d, f, undo, Runs(u), [Leaves(f, undo, u)], st, r.st);
  }

  lemma SailsPending(d: nat, f: nat -> Value, undo: nat -> bool, runs: seq<nat>, left: seq<Entry>, st: State, t: State)
    requires Sails(d, f, undo, runs, left, st, t)
    ensures t.pending == st.pending
  {
  }

  lemma BeganSails(d: nat, f: nat -> Value, undo: nat -> bool, runs: seq<nat>, left: seq<Entry>, st: State,
                   began: State, t: State, unit: nat)
    requires began == Log(st.(tick := st.tick + 1), [Began(d, unit)]) && Sails(d, f, undo, runs, left, began, t)
    ensures Sails(d, f, undo, runs, left, st, t)
  {
    assert t.log[|st.log|..] == [Began(d, unit)] + t.log[|began.log|..];
    ActionsConcat([Began(d, unit)], t.log[|began.log|..]);
    ActionsOne(Began(d, unit));
    assert [] + Acting(d, undo, runs) == Acting(d, undo, runs);
  }

  lemma {:induction false} ExecuteSails(w: World, d: nat, u: Unit, st: State, f: nat -> Value, undo: nat -> bool)
    requires Fair(w, f, undo) && Tried(w.root, u) && Distinct(u) && Unknown(st.entries, Ids(u))
    requires st.pending == Continue
    ensures var r := Execute(w, d, u, st);
            r.out == Ok(Meaning(f, u)) && Sails(d, f, undo, Runs(u), [Leaves(f, undo, u)], st, r.st)
    decreases u, 0
  {
    hide Fair, Walk, FindReceipt, FindNested, Transition, Sails, Leave;
    var t, s := st.tick, st.(tick := st.tick + 1);
    FairAt(w, f, undo, u.id, t);
    assert u.id in Ids(u);
    UnknownFinds(st.entries, u.id);
    match u.body
    case Leaf(_) =>
      assert Submit(w, s, u.id, []) == Submitted(true, s);
      var r := Execute(w, d, u, st);
      assert r == Node(w, d, t, u, s);
      NodeSails(d, u, f, undo, st, r.st);
    case Scope(children) =>
      var child := Child(s, []);
      WalkSails(w, d, children, Nil, child, f, undo);
      var walked := Walk(w, d, children, Nil, child);
      var r := Execute(w, d, u, st);
      assert r == Subgraph(w, d, t, u, s) == Leave(w, d, u.id, s, walked);
      ScopeSails(w, d, u, f, undo, st, walked, r);
  }

  lemma FairAt(w: World, f: nat -> Value, undo: nat -> bool, x: nat, t: nat)
    requires Fair(w, f, undo)
    ensures !w.cancelled(t) && w.command(t).None? && w.claims(t) && w.bound(x, t)
    ensures w.act(x, t) == Act([], undo(x), Returned(f(x)))
  {
  }

  lemma NodeSails(d: nat, u: Unit, f: nat -> Value, undo: nat -> bool, st: State, t: State)
    requires u.body.Leaf?
    requires t == Log(Push(st.(tick := st.tick + 1), Receipt(u.id, true, f(u.id), undo(u.id))),
                      [Acted(d, u.id, true, undo(u.id))])
    ensures Sails(d, f, undo, Runs(u), [Leaves(f, undo, u)], st, t)
  {
    assert t.log[|st.log|..] == [Acted(d, u.id, true, undo(u.id))];
    ActionsOne(Acted(d, u.id, true, undo(u.id)));
    assert [u.id][1..] == [];
  }

  lemma ScopeSails(w: World, d: nat, u: Unit, f: nat -> Value, undo: nat -> bool, st: State, walked: Result, r: Result)
    requires u.body.Scope? && walked.out == Ok(Meaning(f, u))
    requires var s := st.(tick := st.tick + 1);
             && r == Leave(w, d, u.id, s, walked)
             && Sails(d, f, undo, Runs(u), LeavesOf(f, undo, u.body.children), Child(s, []), walked.st)
    ensures r.out == Ok(Meaning(f, u)) && Sails(d, f, undo, Runs(u), [Leaves(f, undo, u)], st, r.st)
  {
    hide Undos, Transition, Meaning;
    var left := LeavesOf(f, undo, u.body.children);
    assert [] + left == left;
  }

  lemma {:induction false} WalkSails(w: World, d: nat, units: seq<Unit>, last: Value, st: State, f: nat -> Value,
                                     undo: nat -> bool)
    requires Fair(w, f, undo) && TriedAll(w.root, units) && AllDistinct(units) && Unknown(st.entries, AllIds(units))
    requires st.pending == Continue
    ensures var r := Walk(w, d, units, last, st);
            && r.out == Ok(MeaningOf(f, units, last))
            && Sails(d, f, undo, RunsOf(units), LeavesOf(f, undo, units), st, r.st)
    decreases units, 0
  {
    hide Fair, Dispatched, Sails, Unknown, Distinct, Meaning, Runs, Leaves;
    if units == [] {
      NothingSails(d, f, undo, st);
    } else {
      var u, rest := units[0], units[1..];
      UnknownPart(st.entries, Ids(u), AllIds(units));
      DispatchedSails(w, d, u, st, f, undo);
      var r := Dispatched(w, d, u, st);
      if Ends(u) {
        assert Runs(u) + [] == Runs(u) && [Leaves(f, undo, u)] + [] == [Leaves(f, undo, u)];
      } else {
        SailsPending(d, f, undo, Runs(u), [Leaves(f, undo, u)], st, r.st);
        StillUnknown(d, f, undo, u, st, r.st, AllIds(rest), AllIds(units));
        var value := Meaning(f, u);
        WalkSails(w, d, rest, value, r.st, f, undo);
        SailsOn(d, f, undo, Runs(u), [Leaves(f, undo, u)], RunsOf(rest), LeavesOf(f, undo, rest), st, r.st,
                Walk(w, d, rest, value, r.st).st);
      }
    }
  }

  lemma NothingSails(d: nat, f: nat -> Value, undo: nat -> bool, st: State)
    ensures Sails(d, f, undo, [], [], st, st)
  {
    assert st.entries + [] == st.entries;
  }

  lemma UnknownPart(entries: seq<Entry>, part: set<nat>, ids: set<nat>)
    requires Unknown(entries, ids) && part <= ids
    ensures Unknown(entries, part)
  {
  }

  lemma StillUnknown(d: nat, f: nat -> Value, undo: nat -> bool, u: Unit, st: State, t: State, rest: set<nat>,
                     ids: set<nat>)
    requires Sails(d, f, undo, Runs(u), [Leaves(f, undo, u)], st, t) && Unknown(st.entries, ids)
    requires rest <= ids && u.id !in rest
    ensures Unknown(t.entries, rest)
  {
    var e := Leaves(f, undo, u);
    forall x | x in rest ensures About(t.entries, x) == [] {
      AboutPush(st.entries, e, x);
    }
  }

  /**
   In fair weather a dispatch succeeds with the meaning of its tree, runs exactly the nodes up to what completes a
   scope, each once and in order, leaves exactly one entry for the unit, and moves no status.
   */
  lemma FairWeather(w: World, d: nat, u: Unit, st: State, f: nat -> Value, undo: nat -> bool)
    requires Fair(w, f, undo) && Tried(w.root, u) && Distinct(u)
    requires st.entries == [] && st.pending == Continue
    ensures var r := Dispatched(w, d, u, st);
            && r.out == Ok(Meaning(f, u)) && r.st.entries == [Leaves(f, undo, u)]
            && st.log <= r.st.log && Actions(r.st.log[|st.log|..]) == Acting(d, undo, Runs(u))
            && r.st.condition == st.condition && r.st.reason == st.reason && r.st.phase == st.phase
            && r.st.journal == st.journal && r.st.pending == st.pending
  {
    hide Fair, Dispatched, Distinct;
    DispatchedSails(w, d, u, st, f, undo);
    assert [] + [Leaves(f, undo, u)] == [Leaves(f, undo, u)];
  }

  // ----- Dispatched again -----

  /**
   A unit whose execution succeeded, executed again by any executor whose stack holds the unit's entries, in any world
   that does not stop it at its door: the same value, nothing runs, and nothing changes but the clock.
   */
  lemma ReplayIsExact(w: World, d: nat, u: Unit, st: State, w': World, d': nat, st': State)
    requires Execute(w, d, u, st).out.Ok?
    requires About(st'.entries, u.id) == About(Execute(w, d, u, st).st.entries, u.id)
    requires !w'.cancelled(st'.tick) && w'.command(st'.tick).None?
    ensures Execute(w', d', u, st') == Result(Execute(w, d, u, st).out, st'.(tick := st'.tick + 1))
  {
    hide Walk, Submit, FindReceipt, FindNested, Transition, Undos, Supersede, IsPaused, FrameworkFailure;
    var r := Execute(w, d, u, st);
    FindsAbout(st'.entries, u.id);
    FindsAbout(r.st.entries, u.id);
    if u.body.Leaf? {
      LeafSettles(w, d, u, st);
    } else {
      ScopeSettles(w, d, u, st);
    }
  }

  lemma LeafSettles(w: World, d: nat, u: Unit, st: State)
    requires u.body.Leaf? && Execute(w, d, u, st).out.Ok?
    ensures var r := Execute(w, d, u, st);
            var found := FindReceipt(r.st.entries, u.id);
            found.Some? && found.value.Receipt? && found.value.ok && found.value.result == r.out.value
  {
    hide Submit, Transition, FrameworkFailure;
    var s := st.(tick := st.tick + 1);
    SubmitGrew(w, s, u.id, w.act(u.id, st.tick).flips);
    var r := Execute(w, d, u, st);
    assert r == Node(w, d, st.tick, u, s);
    FrameworkFails(w, d, s, u.id);
    if r.st.entries != st.entries {
      assert r.st.entries[..|r.st.entries|-1] == st.entries;
    }
  }

  lemma FrameworkFails(w: World, d: nat, s: State, unit: nat)
    ensures !FrameworkFailure(w, d, s, unit).out.Ok?
  {
  }

  lemma ScopeSettles(w: World, d: nat, u: Unit, st: State)
    requires u.body.Scope? && Execute(w, d, u, st).out.Ok?
    ensures var r := Execute(w, d, u, st);
            var found := FindNested(r.st.entries, u.id);
            found.Some? && !found.value.failed && found.value.result == r.out.value
  {
    hide Walk, FrameworkFailure, Supersede, Undos, IsPaused, PolicyFor;
    var s := st.(tick := st.tick + 1);
    var r := Execute(w, d, u, st);
    assert r == Subgraph(w, d, st.tick, u, s);
    var prior := FindNested(st.entries, u.id);
    if prior.None? || prior.value.failed {
      var s1 := if prior.Some? then s.(entries := Supersede(s.entries, u.id)) else s;
      FrameworkFails(w, d, Log(s1, Dropped(d, prior)), u.id);
      assert r.st.entries[..|r.st.entries|-1] == s1.entries;
    }
  }
}
