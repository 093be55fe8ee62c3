/**
  Edges between operators of one worker: `Output::send` and the aligning `Input::recv`.
*/
module OperatorIo {
  import opened Basics

  datatype Marker = Barrier | Suspend

  // Epochs carry a timestamp, markers have to be aligned, everything else is a plain message.
  datatype Message =
    | Plain(id: int, time: int)
    | Epoch(time: int)
    | Mark(marker: Marker)

  // One inbound edge: the largest-so-far epoch is not kept, only the most recent one.
  datatype Upstream = Upstream(epoch: Option<int>, queue: seq<Message>)

  datatype Received =
    | Nothing
    | Message(msg: Message, edge: nat)       // `edge`: where it came from, known to the model only
    | Aligned(marker: Marker)
    | Mixed                                  // the program's `unreachable!()`

  datatype InputState = InputState(edges: seq<Upstream>, frontier: Option<int>)

  predicate Ready(u: Upstream) {
    u.queue != [] && !u.queue[0].Mark?
  }

  predicate HeadIs(u: Upstream, m: Marker) {
    u.queue != [] && u.queue[0] == Mark(m)
  }

  function Epochs(edges: seq<Upstream>): seq<Option<int>> {
    seq(|edges|, i requires 0 <= i < |edges| => edges[i].epoch)
  }

  function FirstReady(edges: seq<Upstream>): nat {
    if edges == [] || Ready(edges[0]) then 0 else 1 + FirstReady(edges[1..])
  }

  lemma {:induction false} FirstReadyIs(edges: seq<Upstream>)
    ensures FirstReady(edges) <= |edges|
    ensures forall i :: 0 <= i < FirstReady(edges) ==> !Ready(edges[i])
    ensures FirstReady(edges) < |edges| ==> Ready(edges[FirstReady(edges)])
  {
    if edges != [] && !Ready(edges[0]) {
      FirstReadyIs(edges[1..]);
      forall i | 0 <= i < FirstReady(edges) ensures !Ready(edges[i]) {
        if i > 0 { assert edges[i] == edges[1..][i - 1]; }
      }
    }
  }

  function Drop(u: Upstream): Upstream
    requires u.queue != []
  {
    u.(queue := u.queue[1..])
  }

  // The markers at the heads of all edges are consumed together.
  function DropAll(edges: seq<Upstream>): seq<Upstream>
    requires forall j :: 0 <= j < |edges| ==> edges[j].queue != []
  {
    seq(|edges|, j requires 0 <= j < |edges| => Drop(edges[j]))
  }

  function Advance(frontier: Option<int>, epoch: Option<int>): Option<int> {
    if epoch.Some? && (frontier.None? || frontier.value < epoch.value) then epoch else frontier
  }

  // What one call of `recv` returns and leaves behind.
  function Recv(s: InputState): (InputState, Received) {
    var i := FirstReady(s.edges);
    if i < |s.edges| then
      FirstReadyIs(s.edges);
      var u := s.edges[i];
      match u.queue[0]
      case Epoch(t) =>
        var edges := s.edges[i := Upstream(Some(t), u.queue[1..])];
        var merged := Merge(Epochs(edges));
        (InputState(edges, Advance(s.frontier, merged)),
         if merged.Some? then Message(Epoch(merged.value), i) else Nothing)
      case m => (s.(edges := s.edges[i := Drop(u)]), Message(m, i))
    else if s.edges == [] || exists j :: 0 <= j < |s.edges| && s.edges[j].queue == [] then (s, Nothing)
    else if forall j :: 0 <= j < |s.edges| ==> HeadIs(s.edges[j], Barrier) then
      (s.(edges := DropAll(s.edges)), Aligned(Barrier))
    else if forall j :: 0 <= j < |s.edges| ==> HeadIs(s.edges[j], Suspend) then
      (s.(edges := DropAll(s.edges)), Aligned(Suspend))
    else (s, Mixed)
  }

  /** `Input`: the loops of the program over its receivers, updating them in place. */
  class Input {
    var edges: seq<Upstream>
    var frontier: Option<int>

    function View(): InputState
      reads this
    {
      InputState(edges, frontier)
    }

    // The left-most receiver that has something to deliver without alignment.
    method FindReady() returns (i: nat)
      ensures i == FirstReady(edges)
    {
      i := 0;
      while i < |edges| && !Ready(edges[i])
        invariant i <= |edges|
        invariant FirstReady(edges) == i + FirstReady(edges[i..])
      {
        assert edges[i..][1..] == edges[i + 1..];
        i := i + 1;
      }
    }

    method MergeEpochs() returns (merged: Option<int>)
      ensures merged == Merge(Epochs(edges))
    {
      if edges == [] { return None; }
      var i := |edges| - 1;
      merged := edges[i].epoch;
      assert Epochs(edges)[i..] == [edges[i].epoch];
      while i > 0
        invariant 0 <= i < |edges|
        invariant merged == Merge(Epochs(edges)[i..])
      {
        i := i - 1;
        assert Epochs(edges)[i..][1..] == Epochs(edges)[i + 1..];
        merged := if edges[i].epoch.Some? && merged.Some? then Some(Min(edges[i].epoch.value, merged.value)) else None;
      }
      assert Epochs(edges)[0..] == Epochs(edges);
    }

    method DropHeads()
      requires forall j :: 0 <= j < |edges| ==> edges[j].queue != []
      modifies this`edges
      ensures edges == DropAll(old(edges))
    {
      var j := 0;
      while j < |edges|
        invariant |edges| == |old(edges)| && 0 <= j <= |edges|
        invariant forall i :: 0 <= i < j ==> edges[i] == Drop(old(edges)[i])
        invariant forall i :: j <= i < |edges| ==> edges[i] == old(edges)[i]
      {
        edges := edges[j := Drop(edges[j])];
        j := j + 1;
      }
    }

    method Receive() returns (r: Received)
      modifies this
      ensures (View(), r) == Recv(old(View()))
    {
      FirstReadyIs(edges);
      var i := FindReady();
      if i < |edges| {
        var u := edges[i];
        var msg := u.queue[0];
        if msg.Epoch? {
          edges := edges[i := Upstream(Some(msg.time), u.queue[1..])];
          var merged := MergeEpochs();
          if merged.Some? && (frontier.None? || frontier.value < merged.value) {
            frontier := merged;
          }
          r := if merged.Some? then Message(Epoch(merged.value), i) else Nothing;
        } else {
          edges := edges[i := Drop(u)];
          r := Message(msg, i);
        }
      } else if edges == [] || exists j :: 0 <= j < |edges| && edges[j].queue == [] {
        r := Nothing;
      } else if forall j :: 0 <= j < |edges| ==> HeadIs(edges[j], Barrier) {
        DropHeads();
        r := Aligned(Barrier);
      } else if forall j :: 0 <= j < |edges| ==> HeadIs(edges[j], Suspend) {
        DropHeads();
        r := Aligned(Suspend);
      } else {
        r := Mixed;
      }
    }
  }

  // `Output::send`: a plain message goes to the edges its flags select, everything else to every edge.
  function Dispatch(queues: seq<seq<Message>>, msg: Message, flags: seq<bool>): seq<seq<Message>> {
    seq(|queues|, i requires 0 <= i < |queues| =>
      if !msg.Plain? || (i < |flags| && flags[i]) then queues[i] + [msg] else queues[i])
  }

  class Output {
    var queues: seq<seq<Message>>
    var frontier: Option<int>
    var suspended: bool

    // `flags` is what the output's partitioner says of a plain message.
    method Send(msg: Message, flags: seq<bool>)
      requires !suspended && |flags| == |queues|
      modifies this
      ensures queues == Dispatch(old(queues), msg, flags)
      ensures |queues| == |old(queues)|
      ensures !msg.Plain? ==> forall i :: 0 <= i < |queues| ==> queues[i] == old(queues)[i] + [msg]
      ensures msg.Plain? ==> forall i :: 0 <= i < |queues| ==>
                queues[i] == if flags[i] then old(queues)[i] + [msg] else old(queues)[i]
      ensures !msg.Epoch? ==> frontier == old(frontier)
      ensures msg.Epoch? ==> frontier.Some? && msg.time <= frontier.value
                             && (frontier.value == msg.time || frontier == old(frontier))
      ensures old(frontier).Some? ==> frontier.Some? && old(frontier).value <= frontier.value
      ensures suspended == (msg == Mark(Suspend))
    {
      if msg.Epoch? && (frontier.None? || frontier.value < msg.time) {
        frontier := Some(msg.time);
      }
      suspended := msg == Mark(Suspend);
      var i := 0;
      while i < |queues|
        invariant 0 <= i <= |queues| == |old(queues)|
        invariant forall j :: 0 <= j < i ==> queues[j] == Dispatch(old(queues), msg, flags)[j]
        invariant forall j :: i <= j < |queues| ==> queues[j] == old(queues)[j]
        modifies this`queues
      {
        if !msg.Plain? || flags[i] {
          queues := queues[i := queues[i] + [msg]];
        }
        i := i + 1;
      }
    }
  }
}
