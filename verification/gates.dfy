/** The runs of the controller take the steps of the system of Konfigurations. */
module Gates {
  import opened Json
  import opened Cluster
  import opened Controller
  import opened Runs
  import opened Dependencies

  /** What a request would see. */
  function View(s: System): map<Ref, Stored> {
    map k | k in s :: s[k].stored
  }

  /** The run checks the dependencies of `k`. */
  predicate RunOf(g: Graph, k: Ref, r: Run) {
    r.dependencies.ns == k.ns && r.dependencies.deps == DependenciesOf(g, k)
  }

  /** A run of which the n-th request sees the state `seen[n]`, wherever in the
      course of the system that is, finds its gate open exactly when each
      request is a step of the system. */
  lemma PassingIsStepwise(g: Graph, k: Ref, r: Run, seen: seq<System>)
    requires RunOf(g, k, r) && |seen| == |r.dependencies.deps|
    requires forall n :: 0 <= n < |seen| ==>
               && r.dependencies.views(n) == View(seen[n])
               && k in seen[n] && seen[n][k].phase == Checking(n)
    ensures Open(r.dependencies) <==>
              forall n :: 0 <= n < |seen| ==> StepOf(g, seen[n], k, seen[n][k].(phase := Checking(n + 1)))
  {
    forall n | 0 <= n < |seen|
      ensures StepOf(g, seen[n], k, seen[n][k].(phase := Checking(n + 1))) <==> FoundReady(r.dependencies, n)
    {
      var d := Resolved(k.ns, DependenciesOf(g, k)[n]);
      assert AvailableIn(View(seen[n]), d) <==> ReadyNow(seen[n], d);
    }
  }

  /** It starts and ends the check by steps of the system. */
  lemma GoingThroughIsAStep(g: Graph, k: Ref, r: Run, s: System)
    requires RunOf(g, k, r) && k in s
    ensures s[k].phase.Idle? ==> StepOf(g, s, k, s[k].(phase := Checking(0)))
    ensures s[k].phase == Checking(|r.dependencies.deps|) ==> StepOf(g, s, k, s[k].(phase := Passed))
    ensures StepOf(g, s, k, s[k].(phase := Idle))
  {
  }

  /** Every status patch of a legal run, sent past the gate if the run finds it
      open, is a step of the system. */
  lemma ReportIsAStep(g: Graph, k: Ref, c: Config, r: Run, w: World, t: Trace, n: nat, s: System)
    requires RunOf(g, k, r) && ValidRun(r) && LegalRun(c, r, w, t) && n < |All(t)| && All(t)[n].Save?
    requires k in s && (r.source.Fetched? && Open(r.dependencies) ==> s[k].phase.Passed?)
    ensures StepOf(g, s, k, s[k].(stored := s[k].stored.(status := All(t)[n].status)))
  {
    hide LegalReconciliation, Open;
    if All(t)[n].status.ready == Some(IsTrue) {
      ReadyOnlyPastTheGate(c, r, w, t, n);
    }
  }

  /** A ready status is a step of the system only past the gate: each dependency
      was ready in the state that the run saw. */
  lemma ReadyRunSawItsDependencies(g: Graph, k: Ref, c: Config, r: Run, w: World, t: Trace, n: nat,
                                   seen: seq<System>, m: nat)
    requires RunOf(g, k, r) && ValidRun(r) && LegalRun(c, r, w, t) && n < |All(t)|
    requires All(t)[n].Save? && All(t)[n].status.ready == Some(IsTrue)
    requires |seen| == |r.dependencies.deps| && m < |seen| && r.dependencies.views(m) == View(seen[m])
    ensures k in g
    ensures var dep, s := g[k][m], seen[m];
            var d := Ref(if dep.ns == "" then k.ns else dep.ns, dep.name);
            && d in s && s[d].stored.status.ready == Some(IsTrue)
            && s[d].stored.status.observedGeneration == s[d].stored.generation
  {
    hide LegalRun;
    ReadyOnlyPastTheGate(c, r, w, t, n);
    OpenExactly(r.dependencies);
    assert FoundReady(r.dependencies, m);
  }
}
