/** The gate between Konfigurations: a run goes ahead when all dependencies
    are ready, as far as their persisted status tells. */
module Dependencies {
  import opened Json
  import opened Cluster

  datatype Ref = Ref(ns: string, name: string)

  /** A Konfiguration as the server stores it. */
  datatype Stored = Stored(generation: int, status: Status)

  predicate HasConditions(s: Status) {
    s.ready.Some? || s.healthy.Some?
  }

  /** Ready at its current generation. */
  predicate Available(k: Stored) {
    k.status.observedGeneration == k.generation && k.status.ready == Some(IsTrue)
  }

  /** A dependency without a namespace lives in that of the dependent. */
  function Resolved(ns: string, dep: Ref): Ref {
    if dep.ns == "" then Ref(ns, dep.name) else dep
  }

  predicate AvailableIn(view: map<Ref, Stored>, d: Ref) {
    d in view && Available(view[d])
  }

  /** What a run has to check: the n-th request sees `views(n)`; a
      Konfiguration absent from it could not be got. */
  datatype Gate = Gate(ns: string, deps: seq<Ref>, views: nat -> map<Ref, Stored>)

  predicate FoundReady(g: Gate, n: nat)
    requires n < |g.deps|
  {
    AvailableIn(g.views(n), Resolved(g.ns, g.deps[n]))
  }

  predicate Open(g: Gate) {
    forall n :: 0 <= n < |g.deps| ==> FoundReady(g, n)
  }

  /** The gate is open exactly when each Konfiguration named, by a bare name one
      next to the dependent, was there, ready, and at its current generation. */
  lemma OpenExactly(g: Gate)
    ensures Open(g) <==>
              forall n :: 0 <= n < |g.deps| ==>
                var dep, view := g.deps[n], g.views(n);
                var d := if dep.ns == "" then Ref(g.ns, dep.name) else dep;
                && d in view && view[d].status.ready == Some(IsTrue)
                && view[d].status.observedGeneration == view[d].generation
  {
    forall n | 0 <= n < |g.deps|
      ensures FoundReady(g, n) <==>
                var dep, view := g.deps[n], g.views(n);
                var d := if dep.ns == "" then Ref(g.ns, dep.name) else dep;
                && d in view && view[d].status.ready == Some(IsTrue)
                && view[d].status.observedGeneration == view[d].generation
    {
    }
  }

  /** `checkDependencies`. The result is the first dependency, by position, that
      is not ready. */
  method CheckDependencies(g: Gate) returns (blocked: Option<nat>)
    ensures blocked.None? <==> Open(g)
    ensures blocked.None? <==>
              forall n :: 0 <= n < |g.deps| ==>
                var dep, view := g.deps[n], g.views(n);
                var d := if dep.ns == "" then Ref(g.ns, dep.name) else dep;
                && d in view && view[d].status.ready == Some(IsTrue)
                && view[d].status.observedGeneration == view[d].generation
    ensures blocked.Some? ==>
              && blocked.value < |g.deps| && !FoundReady(g, blocked.value)
              && forall n :: 0 <= n < blocked.value ==> FoundReady(g, n)
  {
    OpenExactly(g);
    if |g.deps| == 0 {
      return None;
    }
    for i := 0 to |g.deps|
      invariant forall n :: 0 <= n < i ==> FoundReady(g, n)
    {
      var dep := g.deps[i];
      if dep.ns == "" {
        dep := dep.(ns := g.ns);
      }
      var view := g.views(i);
      assert FoundReady(g, i) <==> AvailableIn(view, dep);
      if dep !in view {
        return Some(i);
      }
      var k := view[dep];
      if !HasConditions(k.status) || k.generation != k.status.observedGeneration {
        return Some(i);
      }
      if k.status.ready != Some(IsTrue) {
        return Some(i);
      }
    }
    return None;
  }

  // --------------------------------------------- many Konfigurations, step by step

  /** Where the run of a Konfiguration is: `Checking(n)` has found the first n
      dependencies ready. */
  datatype Phase = Idle | Checking(checked: nat) | Passed

  datatype Actor = Actor(stored: Stored, phase: Phase)

  type System = map<Ref, Actor>

  /** The dependencies of every Konfiguration. */
  type Graph = map<Ref, seq<Ref>>

  function DependenciesOf(g: Graph, k: Ref): seq<Ref> {
    if k in g then g[k] else []
  }

  predicate ReadyNow(s: System, k: Ref) {
    k in s && Available(s[k].stored)
  }

  /** One step of the run of `k`: a request of its check, a status patch, or
      its end, by a failure or a crash. Ready is only reported past the check;
      the spec, and so the generation, stays. */
  predicate StepOf(g: Graph, s: System, k: Ref, a: Actor) {
    k in s && a.stored.generation == s[k].stored.generation &&
    var before := s[k];
    var deps := DependenciesOf(g, k);
    if a.stored == before.stored then
      a.phase == before.phase ||
      match a.phase
      case Idle => true
      case Checking(n) =>
        n == 0 || (before.phase == Checking(n - 1) && n <= |deps| && ReadyNow(s, Resolved(k.ns, deps[n - 1])))
      case Passed => before.phase.Passed? || before.phase == Checking(|deps|)
    else
      a.phase == before.phase && (a.stored.status.ready == Some(IsTrue) ==> before.phase.Passed?)
  }

  ghost predicate Next(g: Graph, s: System, s': System) {
    exists k :: k in s' && s' == s[k := s'[k]] && StepOf(g, s, k, s'[k])
  }

  ghost predicate Behaviour(g: Graph, states: seq<System>) {
    && states != []
    && (forall k :: k in states[0] ==> states[0][k].phase.Idle? && states[0][k].stored.status.ready != Some(IsTrue))
    && forall i :: 0 <= i < |states| - 1 ==> Next(g, states[i], states[i + 1])
  }

  /** `d` has been ready before step `i`. */
  ghost predicate WasReady(states: seq<System>, i: nat, d: Ref)
    requires i <= |states|
  {
    exists j :: 0 <= j < i && ReadyNow(states[j], d)
  }

  /** What step `i` knows of the first `n` dependencies of `k`. */
  ghost predicate WereReady(g: Graph, states: seq<System>, i: nat, k: Ref, n: nat)
    requires i <= |states|
  {
    n <= |DependenciesOf(g, k)| &&
    forall m :: 0 <= m < n ==> WasReady(states, i, Resolved(k.ns, DependenciesOf(g, k)[m]))
  }

  /** What a Konfiguration has checked, all of it once it passed or is ready. */
  ghost predicate Vouched(g: Graph, states: seq<System>, i: nat, k: Ref)
    requires i < |states|
  {
    k in states[i] ==>
      && (states[i][k].phase.Checking? ==> WereReady(g, states, i, k, states[i][k].phase.checked))
      && (states[i][k].phase.Passed? ==> WereReady(g, states, i, k, |DependenciesOf(g, k)|))
      && (states[i][k].stored.status.ready == Some(IsTrue) ==> WereReady(g, states, i, k, |DependenciesOf(g, k)|))
  }

  lemma WereReadyLater(g: Graph, states: seq<System>, i: nat, k: Ref, n: nat)
    requires i < |states| && WereReady(g, states, i, k, n)
    ensures WereReady(g, states, i + 1, k, n)
  {
    forall m | 0 <= m < n ensures WasReady(states, i + 1, Resolved(k.ns, DependenciesOf(g, k)[m])) {
      assert WasReady(states, i, Resolved(k.ns, DependenciesOf(g, k)[m]));
    }
  }

  /** Finding one more dependency ready. */
  lemma OneMoreReady(g: Graph, states: seq<System>, i: nat, k: Ref, n: nat)
    requires i < |states| && WereReady(g, states, i, k, n) && n < |DependenciesOf(g, k)|
    requires ReadyNow(states[i], Resolved(k.ns, DependenciesOf(g, k)[n]))
    ensures WereReady(g, states, i + 1, k, n + 1)
  {
    WereReadyLater(g, states, i, k, n);
  }

  lemma NoneChecked(g: Graph, states: seq<System>, i: nat, k: Ref)
    requires i <= |states|
    ensures WereReady(g, states, i, k, 0)
  {
  }

  lemma StepsExist(g: Graph, s: System, k: Ref, a: Actor)
    requires StepOf(g, s, k, a)
    ensures k in s
  {
  }

  lemma StepVouches(g: Graph, states: seq<System>, i: nat, k: Ref)
    requires i + 1 < |states| && Vouched(g, states, i, k) && k in states[i]
    requires k in states[i + 1] && StepOf(g, states[i], k, states[i + 1][k])
    ensures Vouched(g, states, i + 1, k)
  {
    hide WereReady, ReadyNow;
    var before, after, all := states[i][k], states[i + 1][k], |DependenciesOf(g, k)|;
    if WereReady(g, states, i, k, all) {
      WereReadyLater(g, states, i, k, all);
    }
    if before.phase.Checking? {
      WereReadyLater(g, states, i, k, before.phase.checked);
    }
    if after.phase.Checking? && after.stored == before.stored && after.phase != before.phase {
      if after.phase.checked == 0 {
        NoneChecked(g, states, i + 1, k);
      } else {
        OneMoreReady(g, states, i, k, after.phase.checked - 1);
      }
    }
  }

  lemma {:induction false} AlwaysVouched(g: Graph, states: seq<System>, i: nat, k: Ref)
    requires Behaviour(g, states) && i < |states|
    ensures Vouched(g, states, i, k)
    decreases i
  {
    hide WereReady, StepOf;
    if i > 0 {
      AlwaysVouched(g, states, i - 1, k);
      var s, s' := states[i - 1], states[i];
      assert Next(g, states[i - 1], states[i - 1 + 1]);
      var j :| j in s' && s' == s[j := s'[j]] && StepOf(g, s, j, s'[j]);
      StepsExist(g, s, j, s'[j]);
      if k in s' {
        if j == k {
          StepVouches(g, states, i - 1, k);
        } else {
          Unmoved(g, states, i - 1, k);
        }
      }
    }
  }

  lemma Unmoved(g: Graph, states: seq<System>, i: nat, k: Ref)
    requires i + 1 < |states| && Vouched(g, states, i, k)
    requires k in states[i] && k in states[i + 1] && states[i + 1][k] == states[i][k]
    ensures Vouched(g, states, i + 1, k)
  {
    hide WereReady;
    var all := |DependenciesOf(g, k)|;
    if WereReady(g, states, i, k, all) {
      WereReadyLater(g, states, i, k, all);
    }
    if states[i][k].phase.Checking? {
      WereReadyLater(g, states, i, k, states[i][k].phase.checked);
    }
  }

  /** A Konfiguration is ready only after each dependency has been. */
  lemma ReadyAfterDependency(g: Graph, states: seq<System>, i: nat, k: Ref, m: nat)
    requires Behaviour(g, states) && i < |states| && ReadyNow(states[i], k) && m < |DependenciesOf(g, k)|
    ensures WasReady(states, i, Resolved(k.ns, DependenciesOf(g, k)[m]))
  {
    AlwaysVouched(g, states, i, k);
  }

  ghost predicate DependsOn(g: Graph, k: Ref, d: Ref) {
    exists m :: 0 <= m < |DependenciesOf(g, k)| && Resolved(k.ns, DependenciesOf(g, k)[m]) == d
  }

  /** A Konfiguration depends on those it names, and, by a bare name, on those
      next to it; on no others. */
  lemma DependsOnExactly(g: Graph, k: Ref, d: Ref)
    ensures DependsOn(g, k, d) <==>
              k in g && exists dep :: dep in g[k] && d == Ref(if dep.ns == "" then k.ns else dep.ns, dep.name)
  {
    if DependsOn(g, k, d) {
      var m :| 0 <= m < |DependenciesOf(g, k)| && Resolved(k.ns, DependenciesOf(g, k)[m]) == d;
      assert DependenciesOf(g, k)[m] in g[k];
    }
    if k in g {
      forall dep | dep in g[k] && Resolved(k.ns, dep) == d ensures DependsOn(g, k, d) {
        var m :| 0 <= m < |g[k]| && g[k][m] == dep;
        assert Resolved(k.ns, DependenciesOf(g, k)[m]) == d;
      }
    }
  }

  /** Each of a chain depends on the next. */
  ghost predicate Chain(g: Graph, path: seq<Ref>) {
    path != [] && forall i :: 0 <= i < |path| - 1 ==> DependsOn(g, path[i], path[i + 1])
  }

  lemma ShorterChain(g: Graph, path: seq<Ref>)
    requires Chain(g, path) && |path| > 1
    ensures Chain(g, path[1..])
  {
    forall i | 0 <= i < |path[1..]| - 1 ensures DependsOn(g, path[1..][i], path[1..][i + 1]) {
      assert DependsOn(g, path[i + 1], path[i + 1 + 1]);
    }
  }

  /** A Konfiguration is ready only after all it depends on, directly or not,
      has been: each link of the chain at least one step earlier. */
  lemma {:induction false} ReadyAfterAllDependencies(g: Graph, states: seq<System>, i: nat, path: seq<Ref>)
    returns (j: nat)
    requires Behaviour(g, states) && i < |states| && Chain(g, path) && ReadyNow(states[i], path[0])
    ensures j + |path| - 1 <= i && ReadyNow(states[j], path[|path| - 1])
    decreases path
  {
    j := i;
    if |path| > 1 {
      assert DependsOn(g, path[0], path[0 + 1]);
      var m :| 0 <= m < |DependenciesOf(g, path[0])| && Resolved(path[0].ns, DependenciesOf(g, path[0])[m]) == path[1];
      ReadyAfterDependency(g, states, i, path[0], m);
      var before :| 0 <= before < i && ReadyNow(states[before], path[1]);
      ShorterChain(g, path);
      j := ReadyAfterAllDependencies(g, states, before, path[1..]);
    }
  }

  /** No Konfiguration on a cycle of dependencies ever becomes ready. */
  lemma {:induction false} CyclesNeverReady(g: Graph, states: seq<System>, i: nat, path: seq<Ref>)
    requires Behaviour(g, states) && i < |states|
    requires Chain(g, path) && |path| > 1 && path[0] == path[|path| - 1]
    ensures !ReadyNow(states[i], path[0])
    decreases i
  {
    if ReadyNow(states[i], path[0]) {
      var j := ReadyAfterAllDependencies(g, states, i, path);
      CyclesNeverReady(g, states, j, path);
    }
  }
}
