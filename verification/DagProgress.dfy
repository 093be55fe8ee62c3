/**
  That a snapshot can always be completed: whatever has happened in the graph of a worker, its operators can go on
  until every one of them has passed on every marker of the root.
*/
module DagProgress {
  import opened Basics
  import opened OperatorIo
  import opened Alignment
  import opened Dag

  // Messages waiting at an input.
  function Waiting(input: InputState): nat {
    Sum(seq(|input.edges|, i requires 0 <= i < |input.edges| => |input.edges[i].queue|))
  }

  lemma WaitingUpdate(input: InputState, i: nat, u: Upstream)
    requires i < |input.edges|
    ensures Waiting(input.(edges := input.edges[i := u])) == Waiting(input) - |input.edges[i].queue| + |u.queue|
  {
    var xs := seq(|input.edges|, j requires 0 <= j < |input.edges| => |input.edges[j].queue|);
    var input1 := input.(edges := input.edges[i := u]);
    SumUpdate(xs, i, |u.queue|);
    assert seq(|input1.edges|, j requires 0 <= j < |input1.edges| => |input1.edges[j].queue|) == xs[i := |u.queue|];
  }

  // An input at which something waits on every edge gets on.
  lemma RecvGetsOn(input: InputState)
    requires input.edges != [] && forall i :: 0 <= i < |input.edges| ==> input.edges[i].queue != []
    ensures var (input1, r) := Recv(input);
            r.Aligned? || r == Mixed || Waiting(input1) < Waiting(input)
  {
    FirstReadyIs(input.edges);
    var i := FirstReady(input.edges);
    if i < |input.edges| {
      var u := Recv(input).0.edges[i];
      WaitingUpdate(input, i, u);
      assert Recv(input).0.edges == input.(edges := input.edges[i := u]).edges;
    }
  }

  // Sending nothing changes nothing.
  lemma NothingSent(g: Graph, inputs: seq<InputState>, u: nat)
    ensures SendFrom(g, inputs, u, Others([])) == inputs
  {
    forall v | 0 <= v < |inputs| ensures SendOn(g, u, Others([]), v, inputs[v]) == inputs[v] {
      var edges := SendOn(g, u, Others([]), v, inputs[v]).edges;
      forall i | 0 <= i < |edges| ensures edges[i] == inputs[v].edges[i] {
        assert inputs[v].edges[i].queue + [] == inputs[v].edges[i].queue;
      }
      assert edges == inputs[v].edges;
    }
  }

  // The node has passed on every marker of the root.
  predicate Through(s: State, v: nat) {
    v < |s.emitted| && s.emitted[v] == |s.script|
  }

  ghost predicate ThroughTo(s: State, m: nat) {
    forall v :: 0 <= v < m ==> Through(s, v)
  }

  function Missing(s: State, v: nat): int
    requires v < |s.emitted|
  {
    |s.script| - s.emitted[v]
  }

  function ToAlign(s: State, v: nat): nat
    requires v < |s.holding|
  {
    if s.holding[v].None? then 1 else 0
  }

  lemma OneMore(g: Graph, steps: seq<Step>, step: Step)
    ensures Run(g, steps + [step]) == Apply(g, Run(g, steps), step)
  {
    assert (steps + [step])[..|steps|] == steps;
  }

  // Whatever an operator waits for, once those ahead of it are through, is in its queues.
  lemma HasMarkers(g: Graph, s: State, v: nat)
    requires Inv(g, s) && v < |g.sources| && ThroughTo(s, v) && s.holding[v] == None && s.emitted[v] < |s.script|
    ensures forall i :: 0 <= i < |s.inputs[v].edges| ==> s.inputs[v].edges[i].queue != []
  {
    forall i | 0 <= i < |s.inputs[v].edges| ensures s.inputs[v].edges[i].queue != [] {
      assert EdgeOk(g, s, v, i);
      assert Through(s, g.sources[v][i]);
      assert s.inputs[v].edges[i].queue == [] ==> Markers(s.inputs[v].edges[i].queue) == [];
    }
  }

  predicate Nearer(s: State, t: State, v: nat)
    requires v < |s.emitted| == |s.holding| == |s.inputs| && |t.emitted| == |t.holding| == |t.inputs| == |s.inputs|
  {
    && t.script == s.script
    && (|| Missing(t, v) < Missing(s, v)
        || (Missing(t, v) == Missing(s, v) && ToAlign(t, v) < ToAlign(s, v))
        || (Missing(t, v) == Missing(s, v) && ToAlign(t, v) == ToAlign(s, v)
            && Waiting(t.inputs[v]) < Waiting(s.inputs[v])))
  }

  // One step of v brings it nearer, and leaves all others through that are.
  lemma NextStep(g: Graph, s: State, v: nat) returns (step: Step)
    requires Inv(g, s) && 0 < v < |g.sources| && g.sources[v] != [] && ThroughTo(s, v) && !Through(s, v)
    ensures var t := Apply(g, s, step);
            && |t.emitted| == |t.holding| == |t.inputs| == |g.sources| && Nearer(s, t, v) && ThroughTo(t, v)
  {
    assert NodeOk(s, v);
    if s.holding[v].Some? {
      step := Forward(v);
    } else {
      step := Work(v, []);
      HasMarkers(g, s, v);
      NeverMixed(g, s, v);
      RecvGetsOn(s.inputs[v]);
      NothingSent(g, s.inputs[v := Recv(s.inputs[v]).0], v);
    }
    var t := Apply(g, s, step);
    assert forall u :: 0 <= u < v ==> Through(s, u) && t.emitted[u] == s.emitted[u];
  }

  lemma PassOn(g: Graph, steps: seq<Step>, v: nat) returns (all: seq<Step>)
    requires ValidGraph(g) && 0 < v < |g.sources| && g.sources[v] != [] && ThroughTo(Run(g, steps), v)
    ensures steps <= all && ThroughTo(Run(g, all), v + 1) && Run(g, all).script == Run(g, steps).script
  {
    all := steps;
    RunInv(g, all);
    while !Through(Run(g, all), v)
      invariant steps <= all && Inv(g, Run(g, all)) && ThroughTo(Run(g, all), v)
      invariant Run(g, all).script == Run(g, steps).script
      decreases Missing(Run(g, all), v), ToAlign(Run(g, all), v), Waiting(Run(g, all).inputs[v])
    {
      assert NodeOk(Run(g, all), v);
      var step := NextStep(g, Run(g, all), v);
      OneMore(g, all, step);
      all := all + [step];
      RunInv(g, all);
      assert NodeOk(Run(g, all), v);
    }
  }

  /** From every state every run leads to there is a way on, without anything new from the root, at whose end the
      barriers it has sent are counted once: every operator has passed on each. */
  lemma SnapshotCanComplete(g: Graph, steps: seq<Step>) returns (all: seq<Step>)
    requires ValidGraph(g) && forall v :: 0 <= v < |g.sources| ==> Fed(g, v)
    ensures steps <= all && Run(g, all).script == Run(g, steps).script
    ensures var s := Run(g, all);
            && |s.inputs| == |s.emitted| == |s.holding| == |g.sources|
            && (forall v :: 0 <= v < |g.sources| ==> s.emitted[v] == |s.script|)
            && forall j :: 0 <= j < |s.script| ==> StrongCount(g, s, j) == 1
  {
    all := steps;
    RunInv(g, all);
    var v := 1;
    while v < |g.sources|
      invariant 1 <= v <= |g.sources| && steps <= all && ThroughTo(Run(g, all), v)
      invariant Run(g, all).script == Run(g, steps).script
    {
      assert Fed(g, v);
      all := PassOn(g, all, v);
      v := v + 1;
    }
    RunInv(g, all);
    var s := Run(g, all);
    forall u | 0 <= u < |g.sources| ensures s.emitted[u] == |s.script| {
      assert Through(s, u);
    }
    forall j | 0 <= j < |s.script| ensures StrongCount(g, s, j) == 1 {
      AllPassedCountOne(g, s, j);
    }
  }
}
