/** Everything a dispatch logs is at its own handler depth or deeper. */
module ExecutorDepth {
  import opened Executor
  import opened ExecutorHalts

  lemma {:induction false} WithinMeans(es: seq<Event>, d: nat)
    requires Sum(es, d).within
    ensures forall i :: 0 <= i < |es| ==> es[i].depth >= d
    decreases |es|
  {
    if es != [] {
      WithinMeans(es[..|es|-1], d);
    }
  }

  lemma ExecuteDeep(w: World, d: nat, u: Unit, st: State, i: nat)
    requires |st.log| <= i < |Execute(w, d, u, st).st.log|
    ensures Execute(w, d, u, st).st.log[i].depth >= d
  {
    ExecuteTells(w, d, u, st);
    var es := Execute(w, d, u, st).st.log[|st.log|..];
    WithinMeans(es, d);
    assert Execute(w, d, u, st).st.log[i] == es[i - |st.log|];
  }
}
