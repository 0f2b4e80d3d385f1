/**
 The recovery stack (pkg/op/recovery_stack.go): the receipts of every dispatch, nested scopes as entries, unwound last
 entry first.  Stacks are values here; the parent pointer, used only to look results up, is not modelled.
 */
module Recovery {
  import opened Options
  import opened RunStatus

  /** A dispatch's result; only its truthiness is ever inspected. */
  datatype Value = Nil | Val(tag: int, truthy: bool)

  predicate IsTruthy(v: Value) { v.Val? && v.truthy }

  datatype Entry =
    | Bare                                                         // an audit receipt that was never committed
    | Receipt(unit: nat, ok: bool, result: Value, undo: bool)      // `undo`: it carries a compensator
    | Nested(stack: Stack)

  /** A stamped scope stack. */
  datatype Stack = Stack(unit: nat, result: Value, failed: bool, entries: seq<Entry>)

  /** receiptByUnitID: the latest receipt of the unit on this stack. */
  function FindReceipt(entries: seq<Entry>, unit: nat): Option<Entry> {
    if entries == [] then None
    else
      var last := entries[|entries|-1];
      if last.Receipt? && last.unit == unit then Some(last) else FindReceipt(entries[..|entries|-1], unit)
  }

  /** NestedStackByUnitID: the latest stamped scope of the unit on this stack. */
  function FindNested(entries: seq<Entry>, unit: nat): Option<Stack> {
    if entries == [] then None
    else
      var last := entries[|entries|-1];
      if last.Nested? && last.stack.unit == unit then Some(last.stack) else FindNested(entries[..|entries|-1], unit)
  }

  predicate Names(e: Entry, unit: nat) {
    (e.Receipt? && e.unit == unit) || (e.Nested? && e.stack.unit == unit)
  }

  /** supersede: drop the top-most entry of the unit. */
  function Supersede(entries: seq<Entry>, unit: nat): seq<Entry> {
    if entries == [] then []
    else
      var n := |entries| - 1;
      if Names(entries[n], unit) then entries[..n] else Supersede(entries[..n], unit) + [entries[n]]
  }

  /** The entries of one unit, in order. */
  function About(entries: seq<Entry>, unit: nat): seq<Entry> {
    if entries == [] then []
    else
      var init, last := entries[..|entries|-1], entries[|entries|-1];
      About(init, unit) + (if Names(last, unit) then [last] else [])
  }

  lemma AboutPush(entries: seq<Entry>, e: Entry, unit: nat)
    ensures About(entries + [e], unit) == About(entries, unit) + (if Names(e, unit) then [e] else [])
  {
    assert (entries + [e])[..|entries|] == entries;
  }

  /** Every look-up of a unit depends on that unit's entries only. */
  lemma {:induction false} FindsAbout(entries: seq<Entry>, unit: nat)
    ensures FindReceipt(entries, unit) == FindReceipt(About(entries, unit), unit)
    ensures FindNested(entries, unit) == FindNested(About(entries, unit), unit)
    decreases |entries|
  {
    if entries != [] {
      var init, last := entries[..|entries|-1], entries[|entries|-1];
      FindsAbout(init, unit);
      if Names(last, unit) {
        var about := About(entries, unit);
        assert about[..|about|-1] == About(init, unit) && about[|about|-1] == last;
      } else {
        assert About(entries, unit) == About(init, unit);
      }
    }
  }

  lemma {:induction false} AboutNames(entries: seq<Entry>, unit: nat)
    ensures forall i :: 0 <= i < |About(entries, unit)| ==> Names(About(entries, unit)[i], unit)
    decreases |entries|
  {
    if entries != [] {
      AboutNames(entries[..|entries|-1], unit);
    }
  }

  /** Superseding a unit drops its last entry and touches no other unit's. */
  lemma {:induction false} AboutSupersede(entries: seq<Entry>, unit: nat, other: nat)
    ensures About(Supersede(entries, unit), other) ==
            if unit == other && About(entries, unit) != []
            then About(entries, unit)[..|About(entries, unit)|-1] else About(entries, other)
    decreases |entries|
  {
    if entries != [] {
      var init, last := entries[..|entries|-1], entries[|entries|-1];
      if Names(last, unit) {
        if unit == other {
          assert About(entries, unit)[..|About(entries, unit)|-1] == About(init, unit);
        }
      } else {
        AboutSupersede(init, unit, other);
        AboutPush(Supersede(init, unit), last, other);
      }
    }
  }

  /** The look-ups find the latest entry: nothing after it is of the kind and the unit. */
  lemma {:induction false} FindsLatest(entries: seq<Entry>, unit: nat)
    ensures match FindReceipt(entries, unit)
            case None => forall i :: 0 <= i < |entries| ==> !(entries[i].Receipt? && entries[i].unit == unit)
            case Some(e) =>
              exists k: nat :: k < |entries| && entries[k] == e && e.Receipt? && e.unit == unit
                && forall i :: k < i < |entries| ==> !(entries[i].Receipt? && entries[i].unit == unit)
    decreases |entries|
  {
    if entries != [] {
      var n := |entries| - 1;
      FindsLatest(entries[..n], unit);
      assert forall i :: 0 <= i < n ==> entries[..n][i] == entries[i];
      if entries[n].Receipt? && entries[n].unit == unit {
        assert FindReceipt(entries, unit) == Some(entries[n]);
      }
    }
  }

  lemma {:induction false} NestsLatest(entries: seq<Entry>, unit: nat)
    ensures match FindNested(entries, unit)
            case None => forall i :: 0 <= i < |entries| ==> !(entries[i].Nested? && entries[i].stack.unit == unit)
            case Some(stack) =>
              exists k: nat :: k < |entries| && entries[k] == Nested(stack) && stack.unit == unit
                && forall i :: k < i < |entries| ==> !(entries[i].Nested? && entries[i].stack.unit == unit)
    decreases |entries|
  {
    if entries != [] {
      var n := |entries| - 1;
      NestsLatest(entries[..n], unit);
      assert forall i :: 0 <= i < n ==> entries[..n][i] == entries[i];
      if entries[n].Nested? && entries[n].stack.unit == unit {
        assert FindNested(entries, unit) == Some(entries[n].stack);
      }
    }
  }

  /** The latest entry of the unit, a receipt or a scope, is at `k`. */
  ghost predicate LatestAt(entries: seq<Entry>, unit: nat, k: nat) {
    k < |entries| && Names(entries[k], unit) && forall i :: k < i < |entries| ==> !Names(entries[i], unit)
  }

  /** Superseding takes out the latest entry of the unit and moves nothing else. */
  lemma {:induction false} SupersedesLatest(entries: seq<Entry>, unit: nat)
    ensures if Unnamed(entries, unit) then Supersede(entries, unit) == entries
            else exists k: nat :: LatestAt(entries, unit, k) && TakenOut(entries, k, Supersede(entries, unit))
    decreases |entries|
  {
    hide Names, LatestAt, Unnamed, TakenOut;
    if entries == [] {
      NothingNamed(unit);
    } else {
      var n := |entries| - 1;
      var init := entries[..n];
      UnnamedInit(entries, unit);
      if Names(entries[n], unit) {
        LatestIsLast(entries, unit);
      } else {
        SupersedesLatest(init, unit);
        if Unnamed(init, unit) {
          assert entries == init + [entries[n]];
        } else {
          var k: nat :| LatestAt(init, unit, k) && TakenOut(init, k, Supersede(init, unit));
          LatestStays(entries, unit, k, Supersede(init, unit));
        }
      }
    }
  }

  /** `rest` is `entries` without the one at `k`. */
  predicate TakenOut(entries: seq<Entry>, k: nat, rest: seq<Entry>) {
    k < |entries| && rest == entries[..k] + entries[k + 1..]
  }

  /** No entry is of the unit. */
  ghost predicate Unnamed(entries: seq<Entry>, unit: nat) {
    forall i :: 0 <= i < |entries| ==> !Names(entries[i], unit)
  }

  lemma NothingNamed(unit: nat)
    ensures Unnamed([], unit)
  {
  }

  lemma UnnamedInit(entries: seq<Entry>, unit: nat)
    requires entries != []
    ensures var n := |entries| - 1;
            Unnamed(entries, unit) <==> Unnamed(entries[..n], unit) && !Names(entries[n], unit)
  {
    hide Names;
    var n := |entries| - 1;
    assert forall i :: 0 <= i < n ==> entries[..n][i] == entries[i];
  }

  lemma LatestIsLast(entries: seq<Entry>, unit: nat)
    requires entries != [] && Names(entries[|entries|-1], unit)
    ensures LatestAt(entries, unit, |entries| - 1)
    ensures TakenOut(entries, |entries| - 1, entries[..|entries|-1])
  {
  }

  lemma LatestStays(entries: seq<Entry>, unit: nat, k: nat, rest: seq<Entry>)
    requires entries != [] && !Names(entries[|entries|-1], unit) && LatestAt(entries[..|entries|-1], unit, k)
    requires TakenOut(entries[..|entries|-1], k, rest)
    ensures LatestAt(entries, unit, k) && TakenOut(entries, k, rest + [entries[|entries|-1]])
  {
    hide Names;
    var init := entries[..|entries|-1];
    assert forall i :: 0 <= i < |init| ==> init[i] == entries[i];
    assert init[..k] == entries[..k] && entries[k + 1..] == init[k + 1..] + [entries[|entries|-1]];
  }

  // ----- The undoable receipts of a stack -----

  /** Units whose receipts carry a compensator, in the order an unwind reaches them. */
  function UndoOrder(entries: seq<Entry>): seq<nat>
    decreases entries
  {
    if entries == [] then [] else UndoOf(entries[|entries|-1]) + UndoOrder(entries[..|entries|-1])
  }

  function UndoOf(e: Entry): seq<nat>
    decreases e
  {
    match e
    case Bare => []
    case Receipt(unit, _, _, undo) => if undo then [unit] else []
    case Nested(stack) => UndoOrder(stack.entries)
  }

  /** The same receipts, counted. */
  function Undos(entries: seq<Entry>): multiset<nat> {
    multiset(UndoOrder(entries))
  }

  lemma UndosPush(entries: seq<Entry>, e: Entry)
    ensures Undos(entries + [e]) == Undos(entries) + multiset(UndoOf(e))
  {
    assert (entries + [e])[..|entries|] == entries;
  }

  /** When the top-most entry of the unit is a scope, superseding it removes exactly that scope's receipts. */
  lemma {:induction false} SupersedeRemoves(entries: seq<Entry>, unit: nat)
    requires About(entries, unit) != [] && About(entries, unit)[|About(entries, unit)|-1].Nested?
    ensures FindNested(entries, unit) == Some(About(entries, unit)[|About(entries, unit)|-1].stack)
    ensures Undos(entries) == Undos(Supersede(entries, unit)) + Undos(FindNested(entries, unit).value.entries)
    decreases |entries|
  {
    var n := |entries| - 1;
    assert entries == entries[..n] + [entries[n]];
    UndosPush(entries[..n], entries[n]);
    if !Names(entries[n], unit) {
      SupersedeRemoves(entries[..n], unit);
      UndosPush(Supersede(entries[..n], unit), entries[n]);
    }
  }

  // ----- Unwinding -----

  /** One compensation call and whether it succeeded. */
  datatype Call = Call(unit: nat, ok: bool)

  datatype Unwound = Unwound(ok: bool, entries: seq<Entry>, tick: nat, calls: seq<Call>)

  /**
   Unwind: every entry is attempted, last first; `undo` says which compensations succeed, one tick each.  A clean
   unwind clears the stack, a dirty one keeps its entries.
   */
  function Unwind(undo: nat -> bool, tick: nat, entries: seq<Entry>): (r: Unwound)
    decreases entries, 1
  {
    var r := Sweep(undo, tick, entries);
    if r.ok then r.(entries := []) else r
  }

  function Sweep(undo: nat -> bool, tick: nat, entries: seq<Entry>): (r: Unwound)
    decreases entries, 0
  {
    if entries == [] then Unwound(true, [], tick, [])
    else
      var n := |entries| - 1;
      var last := Compensate(undo, tick, entries[n]);
      var rest := Sweep(undo, last.tick, entries[..n]);
      Unwound(last.ok && rest.ok, rest.entries + last.entries, rest.tick, last.calls + rest.calls)
  }

  /** One entry; its `entries` field holds the entry as it stands afterwards. */
  function Compensate(undo: nat -> bool, tick: nat, e: Entry): (r: Unwound)
    ensures |r.entries| == 1
    decreases e, 0
  {
    match e
    case Bare => Unwound(true, [e], tick, [])
    case Receipt(unit, _, _, false) => Unwound(true, [e], tick, [])
    case Receipt(unit, _, _, true) => Unwound(undo(tick), [e], tick + 1, [Call(unit, undo(tick))])
    case Nested(stack) =>
      var r := Unwind(undo, tick, stack.entries);
      r.(entries := [Nested(stack.(entries := r.entries))])
  }

  function Units(calls: seq<Call>): seq<nat> {
    if calls == [] then [] else [calls[0].unit] + Units(calls[1..])
  }

  predicate AllOk(calls: seq<Call>) {
    forall i :: 0 <= i < |calls| ==> calls[i].ok
  }

  /** Each call is recorded as it went. */
  predicate Tells(undo: nat -> bool, tick: nat, calls: seq<Call>) {
    forall i :: 0 <= i < |calls| ==> calls[i].ok == undo(tick + i)
  }

  lemma {:induction false} UnitsConcat(a: seq<Call>, b: seq<Call>)
    ensures Units(a + b) == Units(a) + Units(b)
    decreases |a|
  {
    if a == [] {
      assert a + b == b;
    } else {
      assert (a + b)[1..] == a[1..] + b;
      UnitsConcat(a[1..], b);
    }
  }

  /**
   An unwind calls every compensator on the tree exactly once, last pushed first, whatever fails on the way, and is
   clean exactly when every call succeeded; a clean one leaves nothing to undo.
   */
  lemma {:induction false} UnwindCallsEverything(undo: nat -> bool, tick: nat, entries: seq<Entry>)
    ensures var r := Unwind(undo, tick, entries);
            && Units(r.calls) == UndoOrder(entries)
            && r.ok == AllOk(r.calls)
            && r.tick == tick + |r.calls| && Tells(undo, tick, r.calls)
            && (r.ok ==> r.entries == [])
    decreases entries, 1
  {
    SweepCallsEverything(undo, tick, entries);
  }

  lemma {:induction false} SweepCallsEverything(undo: nat -> bool, tick: nat, entries: seq<Entry>)
    ensures var r := Sweep(undo, tick, entries);
            && Units(r.calls) == UndoOrder(entries) && r.ok == AllOk(r.calls)
            && r.tick == tick + |r.calls| && Tells(undo, tick, r.calls)
    decreases entries, 0
  {
    hide Tells, AllOk;
    if entries != [] {
      var n := |entries| - 1;
      CompensateCalls(undo, tick, entries[n]);
      var last := Compensate(undo, tick, entries[n]);
      SweepCallsEverything(undo, last.tick, entries[..n]);
      var rest := Sweep(undo, last.tick, entries[..n]);
      UnitsConcat(last.calls, rest.calls);
      CallsConcat(undo, tick, last.calls, rest.calls);
    } else {
      NoCalls(undo, tick);
    }
  }

  lemma NoCalls(undo: nat -> bool, tick: nat)
    ensures Tells(undo, tick, []) && AllOk([])
  {
  }

  lemma CallsConcat(undo: nat -> bool, tick: nat, a: seq<Call>, b: seq<Call>)
    requires Tells(undo, tick, a) && Tells(undo, tick + |a|, b)
    ensures Tells(undo, tick, a + b) && (AllOk(a + b) <==> AllOk(a) && AllOk(b))
  {
    var calls := a + b;
    assert forall i :: 0 <= i < |a| ==> calls[i] == a[i];
    assert forall i :: 0 <= i < |b| ==> calls[|a| + i] == b[i];
  }

  lemma {:induction false} CompensateCalls(undo: nat -> bool, tick: nat, e: Entry)
    ensures var r := Compensate(undo, tick, e);
            && Units(r.calls) == UndoOf(e) && r.ok == AllOk(r.calls)
            && r.tick == tick + |r.calls| && Tells(undo, tick, r.calls)
    decreases e, 0
  {
    match e
    case Nested(stack) => UnwindCallsEverything(undo, tick, stack.entries);
    case Receipt(unit, _, _, true) =>
      assert Units([Call(unit, undo(tick))]) == [unit] + Units([]);
    case _ =>
  }

  function Failures(calls: seq<Call>): multiset<nat> {
    if calls == [] then multiset{}
    else (if calls[0].ok then multiset{} else multiset{calls[0].unit}) + Failures(calls[1..])
  }

  lemma {:induction false} FailuresConcat(a: seq<Call>, b: seq<Call>)
    ensures Failures(a + b) == Failures(a) + Failures(b)
    decreases |a|
  {
    if a == [] {
      assert a + b == b;
    } else {
      assert (a + b)[1..] == a[1..] + b;
      FailuresConcat(a[1..], b);
    }
  }

  lemma {:induction false} CleanHasNoFailures(calls: seq<Call>)
    requires AllOk(calls)
    ensures Failures(calls) == multiset{}
    decreases |calls|
  {
    if calls != [] {
      CleanHasNoFailures(calls[1..]);
    }
  }

  /**
   A dirty unwind keeps a complete journal: every receipt whose compensation failed is still on the stack, so a
   resumed unwind calls it again, and nothing that was not there before has appeared.
   */
  lemma {:induction false} FailuresAreRetained(undo: nat -> bool, tick: nat, entries: seq<Entry>)
    ensures var r := Unwind(undo, tick, entries); Failures(r.calls) <= Undos(r.entries) <= Undos(entries)
    decreases entries, 1
  {
    SweepRetains(undo, tick, entries);
    SweepCallsEverything(undo, tick, entries);
    var r := Sweep(undo, tick, entries);
    if r.ok {
      CleanHasNoFailures(r.calls);
    }
  }

  lemma RetainsJoin(kept: seq<Entry>, last: Entry, entries: seq<Entry>, e: Entry, rest: seq<Call>, calls: seq<Call>)
    requires Failures(rest) <= Undos(kept) <= Undos(entries)
    requires Failures(calls) <= multiset(UndoOf(last)) <= multiset(UndoOf(e))
    ensures Failures(calls + rest) <= Undos(kept + [last]) <= Undos(entries + [e])
  {
    FailuresConcat(calls, rest);
    UndosPush(kept, last);
    UndosPush(entries, e);
  }

  lemma {:induction false} SweepRetains(undo: nat -> bool, tick: nat, entries: seq<Entry>)
    ensures var r := Sweep(undo, tick, entries); Failures(r.calls) <= Undos(r.entries) <= Undos(entries)
    decreases entries, 0
  {
    if entries != [] {
      var n := |entries| - 1;
      var last := Compensate(undo, tick, entries[n]);
      CompensateRetains(undo, tick, entries[n]);
      SweepRetains(undo, last.tick, entries[..n]);
      SweepRetainsOneMore(undo, tick, entries);
    }
  }

  lemma SweepRetainsOneMore(undo: nat -> bool, tick: nat, entries: seq<Entry>)
    requires entries != []
    requires var last := Compensate(undo, tick, entries[|entries|-1]);
             Failures(last.calls) <= multiset(UndoOf(last.entries[0])) <= multiset(UndoOf(entries[|entries|-1]))
    requires var last := Compensate(undo, tick, entries[|entries|-1]);
             var rest := Sweep(undo, last.tick, entries[..|entries|-1]);
             Failures(rest.calls) <= Undos(rest.entries) <= Undos(entries[..|entries|-1])
    ensures var r := Sweep(undo, tick, entries); Failures(r.calls) <= Undos(r.entries) <= Undos(entries)
  {
    hide Undos, UndoOf, Failures, Compensate;
    var n := |entries| - 1;
    var last := Compensate(undo, tick, entries[n]);
    var rest := Sweep(undo, last.tick, entries[..n]);
    assert last.entries == [last.entries[0]] && entries == entries[..n] + [entries[n]];
    RetainsJoin(rest.entries, last.entries[0], entries[..n], entries[n], rest.calls, last.calls);
  }

  lemma {:induction false} CompensateRetains(undo: nat -> bool, tick: nat, e: Entry)
    ensures var r := Compensate(undo, tick, e);
            Failures(r.calls) <= multiset(UndoOf(r.entries[0])) <= multiset(UndoOf(e))
    decreases e, 0
  {
    match e
    case Nested(stack) => FailuresAreRetained(undo, tick, stack.entries);
    case Receipt(unit, _, _, true) =>
      assert Failures([Call(unit, undo(tick))]) <= multiset{unit};
    case _ =>
  }

  // ----- The journal of a dirty unwind -----

  /** What a dirty unwind leaves of each entry: itself; of a scope possibly without its entries. */
  ghost predicate Kept(before: seq<Entry>, after: seq<Entry>)
    decreases before
  {
    |after| == |before| && forall i :: 0 <= i < |before| ==> KeptEntry(before[i], after[i])
  }

  ghost predicate KeptEntry(before: Entry, after: Entry)
    decreases before
  {
    match before
    case Nested(stack) =>
      && after.Nested? && after.stack.(entries := stack.entries) == stack
      && (after.stack.entries == [] || Kept(stack.entries, after.stack.entries))
    case _ => after == before
  }

  /** A dirty unwind keeps every entry in its place; only scopes that were undone cleanly lose theirs. */
  lemma {:induction false} DirtyKeeps(undo: nat -> bool, tick: nat, entries: seq<Entry>)
    ensures var r := Unwind(undo, tick, entries); !r.ok ==> Kept(entries, r.entries)
    decreases entries, 1
  {
    SweepKeeps(undo, tick, entries);
  }

  lemma {:induction false} SweepKeeps(undo: nat -> bool, tick: nat, entries: seq<Entry>)
    ensures Kept(entries, Sweep(undo, tick, entries).entries)
    decreases entries, 0
  {
    if entries != [] {
      var n := |entries| - 1;
      var last := Compensate(undo, tick, entries[n]);
      CompensateKeeps(undo, tick, entries[n]);
      SweepKeeps(undo, last.tick, entries[..n]);
      var rest := Sweep(undo, last.tick, entries[..n]);
      assert forall i :: 0 <= i < n ==> entries[..n][i] == entries[i];
      assert forall i :: 0 <= i < n ==> (rest.entries + last.entries)[i] == rest.entries[i];
    }
  }

  /** A scope loses its entries exactly when everything in it was undone. */
  lemma {:induction false} CompensateKeeps(undo: nat -> bool, tick: nat, e: Entry)
    ensures var r := Compensate(undo, tick, e);
            && KeptEntry(e, r.entries[0])
            && (e.Nested? && e.stack.entries != [] ==> (r.entries[0].stack.entries == [] <==> AllOk(r.calls)))
    decreases e, 0
  {
    match e
    case Nested(stack) =>
      UnwindCallsEverything(undo, tick, stack.entries);
      DirtyKeeps(undo, tick, stack.entries);
    case _ =>
  }
}
