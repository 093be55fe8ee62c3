/**
  One worker's dataflow graph: operators connected by aligning inputs, fed with markers by the root.
  Node 0 is the root output; `sources[v]` lists the upstream node of every inbound edge of v.
*/
module Dag {
  import opened Basics
  import opened OperatorIo
  import opened Alignment

  datatype Graph = Graph(sources: seq<seq<nat>>)

  ghost predicate ValidGraph(g: Graph) {
    && g.sources != [] && g.sources[0] == []
    && forall v, i :: 0 <= v < |g.sources| && 0 <= i < |g.sources[v]| ==> g.sources[v][i] < v
  }

  /** `emitted[v]`: how many markers v has sent into its output. `holding[v]`: a marker v has taken
      from its input and not sent yet. `script`: the markers the root has sent, in order. */
  datatype State = State(inputs: seq<InputState>, emitted: seq<nat>, holding: seq<Option<Marker>>, script: seq<Marker>)

  datatype Step =
    | RootMarks(marker: Marker)                        // the worker injects a barrier or suspend marker
    | Work(v: nat, added: seq<seq<seq<Message>>>)      // v polls its input and may emit other messages
    | Forward(v: nat)                                  // v passes on the marker it holds

  function Init(g: Graph): State {
    State(seq(|g.sources|, v requires 0 <= v < |g.sources| =>
              InputState(seq(|g.sources[v]|, i => Upstream(None, [])), None)),
          seq(|g.sources|, v => 0), seq(|g.sources|, v => None), [])
  }

  function NoMarks(q: seq<Message>): seq<Message> {
    if q == [] then [] else NoMarks(q[..|q| - 1]) + (if q[|q| - 1].Mark? then [] else [q[|q| - 1]])
  }

  // Markers go to every edge, other messages wherever the operator likes.
  datatype Sending = Marked(marker: Marker) | Others(added: seq<seq<seq<Message>>>)

  function Sent(sending: Sending, v: nat, i: nat): seq<Message> {
    match sending
    case Marked(m) => [Mark(m)]
    case Others(added) => if v < |added| && i < |added[v]| then NoMarks(added[v][i]) else []
  }

  function SendOn(g: Graph, u: nat, sending: Sending, v: nat, input: InputState): InputState {
    input.(edges := seq(|input.edges|, i requires 0 <= i < |input.edges| =>
      if v < |g.sources| && i < |g.sources[v]| && g.sources[v][i] == u then
        input.edges[i].(queue := input.edges[i].queue + Sent(sending, v, i))
      else input.edges[i]))
  }

  // u sends on all its outbound edges.
  function SendFrom(g: Graph, inputs: seq<InputState>, u: nat, sending: Sending): (r: seq<InputState>)
    ensures |r| == |inputs|
  {
    seq(|inputs|, v requires 0 <= v < |inputs| => SendOn(g, u, sending, v, inputs[v]))
  }

  // A step that is not possible changes nothing.
  function Apply(g: Graph, s: State, step: Step): State {
    match step
    case RootMarks(m) =>
      if s.emitted == [] then s
      else s.(inputs := SendFrom(g, s.inputs, 0, Marked(m)),
              emitted := s.emitted[0 := s.emitted[0] + 1], script := s.script + [m])
    case Work(v, added) =>
      if 0 < v < |s.inputs| && v < |s.holding| && s.holding[v] == None then
        var (input, r) := Recv(s.inputs[v]);
        var inputs := SendFrom(g, s.inputs[v := input], v, Others(added));
        if r.Aligned? then s.(inputs := inputs, holding := s.holding[v := Some(r.marker)]) else s.(inputs := inputs)
      else s
    case Forward(v) =>
      if 0 < v < |s.holding| && v < |s.emitted| && s.holding[v].Some? then
        var m := s.holding[v].value;
        s.(inputs := SendFrom(g, s.inputs, v, Marked(m)),
           emitted := s.emitted[v := s.emitted[v] + 1], holding := s.holding[v := None])
      else s
  }

  function Run(g: Graph, steps: seq<Step>): State {
    if steps == [] then Init(g) else Apply(g, Run(g, steps[..|steps| - 1]), steps[|steps| - 1])
  }

  // ---------------------------------------------------------------- outputs

  predicate IsEdge(g: Graph, u: nat, v: nat, i: nat) {
    v < |g.sources| && i < |g.sources[v]| && g.sources[v][i] == u
  }

  // What the j-th queue of u's output feeds: every edge that starts at u, each once.
  ghost predicate Outbound(g: Graph, u: nat, edges: seq<(nat, nat)>) {
    && (forall j :: 0 <= j < |edges| ==> IsEdge(g, u, edges[j].0, edges[j].1))
    && (forall v: nat, i: nat :: IsEdge(g, u, v, i) ==> (v, i) in edges)
    && (forall j, k :: 0 <= j < k < |edges| ==> edges[j] != edges[k])
  }

  ghost predicate Wired(g: Graph, inputs: seq<InputState>) {
    |inputs| == |g.sources| && forall v :: 0 <= v < |inputs| ==> |inputs[v].edges| == |g.sources[v]|
  }

  // The queues of u's output are those of the inputs they are linked to.
  function Queues(g: Graph, inputs: seq<InputState>, u: nat, edges: seq<(nat, nat)>): seq<seq<Message>>
    requires Wired(g, inputs) && Outbound(g, u, edges)
  {
    seq(|edges|, j requires 0 <= j < |edges| => inputs[edges[j].0].edges[edges[j].1].queue)
  }

  /** What `Output::send` does with a marker is what happens here: all edges that start at u get it, whatever the
      flags, and no other edge does. */
  lemma MarkerIsSent(g: Graph, inputs: seq<InputState>, u: nat, edges: seq<(nat, nat)>, m: Marker, flags: seq<bool>)
    requires Wired(g, inputs) && Outbound(g, u, edges)
    ensures var t := SendFrom(g, inputs, u, Marked(m));
            && Wired(g, t)
            && Dispatch(Queues(g, inputs, u, edges), Mark(m), flags) == Queues(g, t, u, edges)
            && forall v, i :: 0 <= v < |t| && 0 <= i < |t[v].edges| && !IsEdge(g, u, v, i) ==> t[v].edges[i] == inputs[v].edges[i]
  {
  }

  datatype Send = Send(msg: Message, flags: seq<bool>)

  function DispatchAll(queues: seq<seq<Message>>, sends: seq<Send>): seq<seq<Message>> {
    if sends == [] then queues
    else
      var last := sends[|sends| - 1];
      Dispatch(DispatchAll(queues, sends[..|sends| - 1]), last.msg, last.flags)
  }

  // Of what is sent, what the j-th queue gets.
  function Chosen(sends: seq<Send>, j: nat): seq<Message> {
    if sends == [] then []
    else
      var last := sends[|sends| - 1];
      Chosen(sends[..|sends| - 1], j) +
      (if !last.msg.Plain? || (j < |last.flags| && last.flags[j]) then [last.msg] else [])
  }

  ghost predicate Unmarked(sends: seq<Send>) {
    forall i :: 0 <= i < |sends| ==> !sends[i].msg.Mark?
  }

  lemma {:induction false} DispatchAllIs(queues: seq<seq<Message>>, sends: seq<Send>)
    ensures |DispatchAll(queues, sends)| == |queues|
    ensures forall j :: 0 <= j < |queues| ==> DispatchAll(queues, sends)[j] == queues[j] + Chosen(sends, j)
  {
    if sends != [] {
      DispatchAllIs(queues, sends[..|sends| - 1]);
    }
  }

  lemma {:induction false} ChosenUnmarked(sends: seq<Send>, j: nat)
    requires Unmarked(sends)
    ensures NoMarks(Chosen(sends, j)) == Chosen(sends, j)
  {
    if sends != [] {
      var before := Chosen(sends[..|sends| - 1], j);
      ChosenUnmarked(sends[..|sends| - 1], j);
      if Chosen(sends, j) != before {
        assert Chosen(sends, j)[..|before|] == before;
      }
    }
  }

  ghost function IndexOf(edges: seq<(nat, nat)>, v: nat, i: nat): (j: nat)
    requires (v, i) in edges
    ensures j < |edges| && edges[j] == (v, i)
  {
    var j :| 0 <= j < |edges| && edges[j] == (v, i); j
  }

  ghost function Added(g: Graph, u: nat, edges: seq<(nat, nat)>, sends: seq<Send>): seq<seq<seq<Message>>>
    requires Outbound(g, u, edges)
  {
    seq(|g.sources|, v requires 0 <= v < |g.sources| =>
      seq(|g.sources[v]|, i requires 0 <= i < |g.sources[v]| =>
        if IsEdge(g, u, v, i) then Chosen(sends, IndexOf(edges, v, i)) else []))
  }

  // Whatever else an operator sends in one turn, with whatever flags, is one of the turns considered here.
  lemma OthersAreSent(g: Graph, inputs: seq<InputState>, u: nat, edges: seq<(nat, nat)>, sends: seq<Send>)
    requires Wired(g, inputs) && Outbound(g, u, edges) && Unmarked(sends)
    ensures var t := SendFrom(g, inputs, u, Others(Added(g, u, edges, sends)));
            Wired(g, t) && DispatchAll(Queues(g, inputs, u, edges), sends) == Queues(g, t, u, edges)
  {
    var t := SendFrom(g, inputs, u, Others(Added(g, u, edges, sends)));
    DispatchAllIs(Queues(g, inputs, u, edges), sends);
    forall j | 0 <= j < |edges|
      ensures Queues(g, t, u, edges)[j] == Queues(g, inputs, u, edges)[j] + Chosen(sends, j)
    {
      var (v, i) := edges[j];
      assert IndexOf(edges, v, i) == j;
      ChosenUnmarked(sends, j);
    }
  }

  // ---------------------------------------------------------------- invariant

  function Markers(q: seq<Message>): seq<Marker> {
    if q == [] then []
    else Markers(q[..|q| - 1]) + (if q[|q| - 1].Mark? then [q[|q| - 1].marker] else [])
  }

  // How many markers v has taken from each of its edges.
  function Consumed(s: State, v: nat): nat
    requires v < |s.emitted| && v < |s.holding|
  {
    s.emitted[v] + (if s.holding[v].Some? then 1 else 0)
  }

  ghost predicate Sized(g: Graph, s: State) {
    && |s.inputs| == |s.emitted| == |s.holding| == |g.sources|
    && forall v :: 0 <= v < |g.sources| ==> |s.inputs[v].edges| == |g.sources[v]|
  }

  // The markers waiting on an edge from u to v are those u has sent and v has not taken yet.
  ghost predicate EdgeOk(g: Graph, s: State, v: nat, i: nat)
    requires Sized(g, s) && v < |g.sources| && i < |g.sources[v]| && g.sources[v][i] < |g.sources|
  {
    var u := g.sources[v][i];
    && Consumed(s, v) <= s.emitted[u] <= |s.script|
    && Markers(s.inputs[v].edges[i].queue) == s.script[Consumed(s, v)..s.emitted[u]]
  }

  ghost predicate NodeOk(s: State, v: nat)
    requires v < |s.emitted| && v < |s.holding|
  {
    && s.emitted[v] <= |s.script|
    && (s.holding[v].Some? ==> s.emitted[v] < |s.script| && s.holding[v].value == s.script[s.emitted[v]])
  }

  ghost predicate Inv(g: Graph, s: State) {
    && ValidGraph(g) && Sized(g, s)
    && s.emitted[0] == |s.script| && s.holding[0] == None
    && (forall v :: 0 <= v < |g.sources| ==> NodeOk(s, v))
    && forall v, i :: 0 <= v < |g.sources| && 0 <= i < |g.sources[v]| ==> EdgeOk(g, s, v, i)
  }

  lemma {:induction false} MarkersConcat(p: seq<Message>, q: seq<Message>)
    ensures Markers(p + q) == Markers(p) + Markers(q)
  {
    if q == [] {
      assert p + q == p;
    } else {
      MarkersConcat(p, q[..|q| - 1]);
      assert (p + q)[..|p + q| - 1] == p + q[..|q| - 1];
    }
  }

  lemma {:induction false} NoMarksHasNone(q: seq<Message>)
    ensures Markers(NoMarks(q)) == []
  {
    if q != [] {
      NoMarksHasNone(q[..|q| - 1]);
      MarkersConcat(NoMarks(q[..|q| - 1]), if q[|q| - 1].Mark? then [] else [q[|q| - 1]]);
    }
  }

  lemma MarkersHead(q: seq<Message>)
    requires q != []
    ensures Markers(q) == (if q[0].Mark? then [q[0].marker] else []) + Markers(q[1..])
  {
    assert q == [q[0]] + q[1..];
    MarkersConcat([q[0]], q[1..]);
    assert [q[0]][..0] == [];
  }

  // Polling takes the head marker off every edge, or no marker at all.
  lemma PollMarkers(input: InputState, i: nat)
    requires i < |input.edges|
    ensures var (input1, r) := Recv(input);
            && |input1.edges| == |input.edges|
            && Markers(input.edges[i].queue) ==
                 (if r.Aligned? then [r.marker] else []) + Markers(input1.edges[i].queue)
  {
    FirstReadyIs(input.edges);
    if input.edges[i].queue != [] {
      MarkersHead(input.edges[i].queue);
    }
  }

  // All edges of an operator wait for the same marker.
  lemma NeverMixed(g: Graph, s: State, v: nat)
    requires Inv(g, s) && v < |g.sources| && s.holding[v] == None
    ensures Recv(s.inputs[v]).1 != Mixed
    ensures Recv(s.inputs[v]).1.Aligned? ==>
              && s.emitted[v] < |s.script| && Recv(s.inputs[v]).1.marker == s.script[s.emitted[v]]
              && forall i :: 0 <= i < |g.sources[v]| ==> s.emitted[v] < s.emitted[g.sources[v][i]]
  {
    var edges := s.inputs[v].edges;
    FirstReadyIs(edges);
    forall i | 0 <= i < |edges| && edges[i].queue != [] && edges[i].queue[0].Mark?
      ensures s.emitted[v] < s.emitted[g.sources[v][i]] && s.emitted[v] < |s.script|
      ensures edges[i].queue[0].marker == s.script[s.emitted[v]]
    {
      assert EdgeOk(g, s, v, i);
      MarkersHead(edges[i].queue);
    }
    if edges != [] && (forall i :: 0 <= i < |edges| ==> edges[i].queue != []) && FirstReady(edges) == |edges| {
      var m := s.script[s.emitted[v]];
      assert forall i :: 0 <= i < |edges| ==> edges[i].queue[0] == Mark(m);
      assert forall i :: 0 <= i < |edges| ==> HeadIs(edges[i], m);
    }
  }

  // ---------------------------------------------------------------- steps

  lemma SentMarkers(sending: Sending, v: nat, i: nat)
    ensures Markers(Sent(sending, v, i)) == if sending.Marked? then [sending.marker] else []
  {
    match sending
    case Marked(m) => assert [Mark(m)][..0] == [];
    case Others(added) => if v < |added| && i < |added[v]| { NoMarksHasNone(added[v][i]); }
  }

  // What a node sends reaches an edge exactly if it starts there.
  lemma EdgeReceives(g: Graph, inputs: seq<InputState>, u: nat, sending: Sending, v: nat, i: nat)
    requires v < |inputs| && v < |g.sources| && i < |g.sources[v]| && |inputs[v].edges| == |g.sources[v]|
    ensures Markers(SendFrom(g, inputs, u, sending)[v].edges[i].queue) ==
              Markers(inputs[v].edges[i].queue) +
              (if g.sources[v][i] == u && sending.Marked? then [sending.marker] else [])
  {
    var q := inputs[v].edges[i].queue;
    SentMarkers(sending, v, i);
    MarkersConcat(q, Sent(sending, v, i));
    assert SendFrom(g, inputs, u, sending)[v].edges[i].queue == if g.sources[v][i] == u then q + Sent(sending, v, i) else q;
  }

  lemma RootMarksKeeps(g: Graph, s: State, m: Marker)
    requires Inv(g, s)
    ensures Inv(g, Apply(g, s, RootMarks(m)))
  {
    var t := Apply(g, s, RootMarks(m));
    forall v | 0 <= v < |g.sources| ensures NodeOk(t, v) {
      assert NodeOk(s, v);
    }
    forall v, i | 0 <= v < |g.sources| && 0 <= i < |g.sources[v]| ensures EdgeOk(g, t, v, i) {
      assert EdgeOk(g, s, v, i);
      EdgeReceives(g, s.inputs, 0, Marked(m), v, i);
      var u := g.sources[v][i];
      assert Consumed(t, v) == Consumed(s, v);
      assert t.script[Consumed(s, v)..t.emitted[u]] ==
             s.script[Consumed(s, v)..s.emitted[u]] + (if u == 0 then [m] else []);
    }
  }

  lemma ForwardKeeps(g: Graph, s: State, v: nat)
    requires Inv(g, s)
    ensures Inv(g, Apply(g, s, Forward(v)))
  {
    var t := Apply(g, s, Forward(v));
    if 0 < v < |s.holding| && s.holding[v].Some? {
      forall x | 0 <= x < |g.sources| ensures NodeOk(t, x) {
        assert NodeOk(s, x);
      }
      forall x, i | 0 <= x < |g.sources| && 0 <= i < |g.sources[x]| ensures EdgeOk(g, t, x, i) {
        assert EdgeOk(g, s, x, i) && NodeOk(s, v);
        EdgeReceives(g, s.inputs, v, Marked(s.holding[v].value), x, i);
      }
    }
  }

  lemma WorkKeeps(g: Graph, s: State, v: nat, added: seq<seq<seq<Message>>>)
    requires Inv(g, s)
    ensures Inv(g, Apply(g, s, Work(v, added)))
  {
    var t := Apply(g, s, Work(v, added));
    if 0 < v < |s.inputs| && s.holding[v] == None {
      NeverMixed(g, s, v);
      if |g.sources[v]| > 0 { PollMarkers(s.inputs[v], 0); } else { FirstReadyIs(s.inputs[v].edges); }
      forall x | 0 <= x < |g.sources| ensures NodeOk(t, x) {
        assert NodeOk(s, x);
      }
      forall x, i | 0 <= x < |g.sources| && 0 <= i < |g.sources[x]| ensures EdgeOk(g, t, x, i) {
        WorkEdge(g, s, v, added, x, i);
      }
    }
  }

  lemma WorkEdge(g: Graph, s: State, v: nat, added: seq<seq<seq<Message>>>, x: nat, i: nat)
    requires Inv(g, s) && 0 < v < |s.inputs| && s.holding[v] == None
    requires x < |g.sources| && i < |g.sources[x]|
    requires Sized(g, Apply(g, s, Work(v, added)))
    ensures EdgeOk(g, Apply(g, s, Work(v, added)), x, i)
  {
    NeverMixed(g, s, v);
    assert EdgeOk(g, s, x, i);
    if x == v {
      PollMarkers(s.inputs[v], i);
    }
    EdgeReceives(g, s.inputs[v := Recv(s.inputs[v]).0], v, Others(added), x, i);
  }

  // The invariant holds in every state any sequence of steps leads to.
  lemma {:induction false} RunInv(g: Graph, steps: seq<Step>)
    requires ValidGraph(g)
    ensures Inv(g, Run(g, steps))
  {
    if steps != [] {
      var s := Run(g, steps[..|steps| - 1]);
      RunInv(g, steps[..|steps| - 1]);
      match steps[|steps| - 1]
      case RootMarks(m) => RootMarksKeeps(g, s, m);
      case Work(v, added) => WorkKeeps(g, s, v, added);
      case Forward(v) => ForwardKeeps(g, s, v);
    }
  }

  // ---------------------------------------------------------------- theorems

  /** In no run does an operator ever see different markers at the heads of its edges. */
  lemma AlignmentNeverStuck(g: Graph, steps: seq<Step>, v: nat)
    requires ValidGraph(g) && v < |g.sources|
    ensures var s := Run(g, steps);
            && v < |s.inputs| && v < |s.holding|
            && (s.holding[v] == None ==> Recv(s.inputs[v]).1 != Mixed)
  {
    RunInv(g, steps);
    var s := Run(g, steps);
    if s.holding[v] == None {
      NeverMixed(g, s, v);
    }
  }

  // v gets the root's markers.
  predicate Fed(g: Graph, v: nat)
    decreases v
  {
    v == 0 || (v < |g.sources| && exists i :: 0 <= i < |g.sources[v]| && g.sources[v][i] < v && Fed(g, g.sources[v][i]))
  }

  // The places at which a copy of the root's j-th marker is alive: edges and operators.
  function OnEdges(g: Graph, s: State, j: nat): set<(nat, nat)>
    requires |s.inputs| == |s.emitted| == |s.holding|
  {
    set v: nat, i: nat | v < |s.inputs| && i < |s.inputs[v].edges|
                         && Consumed(s, v) <= j < Consumed(s, v) + |Markers(s.inputs[v].edges[i].queue)| :: (v, i)
  }

  function InOperators(s: State, j: nat): set<nat>
    requires |s.emitted| == |s.holding|
  {
    set v: nat | v < |s.emitted| && s.holding[v].Some? && s.emitted[v] == j
  }

  // `Barrier::strong_count` of the handle kept by `perform_snapshot`.
  function StrongCount(g: Graph, s: State, j: nat): nat
    requires |s.inputs| == |s.emitted| == |s.holding|
  {
    1 + |OnEdges(g, s, j)| + |InOperators(s, j)|
  }

  lemma {:induction false} CountOneReaches(g: Graph, s: State, j: nat, v: nat)
    requires Inv(g, s) && j < |s.script| && StrongCount(g, s, j) == 1
    requires v < |g.sources| && Fed(g, v)
    ensures j < s.emitted[v]
    decreases v
  {
    if v > 0 {
      var i :| 0 <= i < |g.sources[v]| && g.sources[v][i] < v && Fed(g, g.sources[v][i]);
      var u := g.sources[v][i];
      CountOneReaches(g, s, j, u);
      assert EdgeOk(g, s, v, i);
      assert (v, i) !in OnEdges(g, s, j);
      assert v !in InOperators(s, j);
    }
  }

  lemma AllPassedCountOne(g: Graph, s: State, j: nat)
    requires Inv(g, s) && forall v :: 0 <= v < |g.sources| ==> j < s.emitted[v]
    ensures StrongCount(g, s, j) == 1
  {
    forall v | 0 <= v < |s.inputs| ensures j < Consumed(s, v) {
    }
    assert OnEdges(g, s, j) == {};
    assert InOperators(s, j) == {};
  }

  /** The loop of `perform_snapshot` ends exactly when every operator has handled this barrier, which it
      does exactly once: `emitted` counts one per marker. */
  lemma SnapshotCompletion(g: Graph, steps: seq<Step>, j: nat)
    requires ValidGraph(g) && forall v :: 0 <= v < |g.sources| ==> Fed(g, v)
    ensures var s := Run(g, steps);
            && |s.inputs| == |s.emitted| == |s.holding| == |g.sources|
            && (j < |s.script| ==>
                 (StrongCount(g, s, j) == 1 <==> forall v :: 0 <= v < |g.sources| ==> j < s.emitted[v]))
  {
    RunInv(g, steps);
    var s := Run(g, steps);
    if j < |s.script| {
      if StrongCount(g, s, j) == 1 {
        forall v | 0 <= v < |g.sources| ensures j < s.emitted[v] {
          CountOneReaches(g, s, j, v);
        }
      }
      if forall v :: 0 <= v < |g.sources| ==> j < s.emitted[v] {
        AllPassedCountOne(g, s, j);
      }
    }
  }
}
