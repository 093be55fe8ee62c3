/**
  What `Input::recv` guarantees for any number of edges and any interleaving of sending and receiving:
  markers are aligned, everything arrives once and in order, and the promise of epochs survives merging.
*/
module Alignment {
  import opened Basics
  import opened OperatorIo

  // `sent[i]`: everything ever put on edge i. `received`: the results of all calls of recv.
  datatype History = History(input: InputState, sent: seq<seq<Message>>, received: seq<Received>)

  datatype Event = Send(edge: nat, msg: Message) | Poll

  predicate CanHappen(h: History, e: Event) {
    e.Send? ==> e.edge < |h.input.edges| && e.edge < |h.sent|
  }

  function Happen(h: History, e: Event): History
    requires CanHappen(h, e)
  {
    match e
    case Send(i, msg) =>
      var u := h.input.edges[i];
      h.(input := h.input.(edges := h.input.edges[i := u.(queue := u.queue + [msg])]),
         sent := h.sent[i := h.sent[i] + [msg]])
    case Poll =>
      var (input, r) := Recv(h.input);
      h.(input := input, received := h.received + [r])
  }

  function Start(n: nat): History {
    History(InputState(seq(n, i => Upstream(None, [])), None), seq(n, i => []), [])
  }

  // A schedule: any sequence of sends on existing edges and polls.
  predicate Legal(n: nat, events: seq<Event>) {
    forall e :: e in events && e.Send? ==> e.edge < n
  }

  // The history a schedule leads to.
  function Replay(n: nat, events: seq<Event>): (h: History)
    requires Legal(n, events)
    ensures |h.sent| == |h.input.edges| == n
  {
    if events == [] then Start(n)
    else
      var last := |events| - 1;
      assert events[last] in events;
      Happen(Replay(n, events[..last]), events[last])
  }

  // ---------------------------------------------------------------- alignment

  // Epochs are merged, not delivered; everything else counts.
  function Clean(q: seq<Message>): seq<Message> {
    if q == [] then []
    else Clean(q[..|q| - 1]) + (if q[|q| - 1].Epoch? then [] else [q[|q| - 1]])
  }

  // What has been delivered from edge i; an aligned marker counts for every edge.
  function Delivered(received: seq<Received>, i: nat): seq<Message> {
    if received == [] then []
    else
      Delivered(received[..|received| - 1], i) + Part(received[|received| - 1], i)
  }

  // The contribution of one result of recv to edge i.
  function Part(r: Received, i: nat): seq<Message> {
    match r
    case Message(msg, edge) => if edge == i && !msg.Epoch? then [msg] else []
    case Aligned(marker) => [Mark(marker)]
    case _ => []
  }

  lemma CleanAppend(q: seq<Message>, m: Message)
    ensures Clean(q + [m]) == Clean(q) + (if m.Epoch? then [] else [m])
  {
    assert (q + [m])[..|q|] == q;
  }

  lemma {:induction false} CleanHead(q: seq<Message>)
    requires q != []
    ensures Clean(q) == (if q[0].Epoch? then [] else [q[0]]) + Clean(q[1..])
  {
    var last := |q| - 1;
    if last > 0 {
      CleanHead(q[..last]);
      assert q[..last][1..] == q[1..][..last - 1];
      assert q[1..][last - 1] == q[last];
    } else {
      assert q[..0] == [] && q[1..] == [];
    }
  }

  lemma DeliveredAppend(received: seq<Received>, r: Received, i: nat)
    ensures Delivered(received + [r], i) == Delivered(received, i) + Part(r, i)
  {
    assert (received + [r])[..|received|] == received;
  }

  // Delivered and still pending messages of an edge make up exactly what was sent on it, in order.
  ghost predicate InStep(h: History, i: nat)
    requires i < |h.sent| && i < |h.input.edges|
  {
    Delivered(h.received, i) + Clean(h.input.edges[i].queue) == Clean(h.sent[i])
  }

  ghost predicate AllInStep(n: nat, h: History) {
    && |h.sent| == |h.input.edges| == n
    && forall i :: 0 <= i < n ==> InStep(h, i)
  }

  // What one poll does to one edge: nothing, or its oldest message is consumed.
  lemma PollEdge(h: History, i: nat)
    requires i < |h.input.edges|
    ensures var (input, r) := Recv(h.input);
            var u := h.input.edges[i];
            && |input.edges| == |h.input.edges|
            && ((input.edges[i] == u && Part(r, i) == [])
                || (u.queue != [] && input.edges[i].queue == u.queue[1..]
                    && (if u.queue[0].Epoch? then Part(r, i) == [] && input.edges[i].epoch == Some(u.queue[0].time)
                        else Part(r, i) == [u.queue[0]] && input.edges[i].epoch == u.epoch)))
  {
    FirstReadyIs(h.input.edges);
  }

  lemma PollInStep(n: nat, h: History, i: nat)
    requires AllInStep(n, h) && i < n
    ensures |Happen(h, Poll).input.edges| == n && InStep(Happen(h, Poll), i)
  {
    var (input, r) := Recv(h.input);
    PollEdge(h, i);
    DeliveredAppend(h.received, r, i);
    assert InStep(h, i);
    var q, q1 := h.input.edges[i].queue, input.edges[i].queue;
    if input.edges[i] != h.input.edges[i] {
      CleanHead(q);
      Regroup(Delivered(h.received, i), Part(r, i), Clean(q1));
    }
  }

  lemma SendInStep(n: nat, h: History, e: Event)
    requires AllInStep(n, h) && e.Send? && CanHappen(h, e)
    ensures AllInStep(n, Happen(h, e))
  {
    var h1 := Happen(h, e);
    forall i | 0 <= i < n ensures InStep(h1, i) {
      assert InStep(h, i);
      if i == e.edge {
        CleanAppend(h.sent[i], e.msg);
        CleanAppend(h.input.edges[i].queue, e.msg);
      }
    }
  }

  // For every schedule: per edge, what recv delivered is a prefix of what was sent, marker by marker.
  lemma {:induction false} DeliveryIsFifo(n: nat, events: seq<Event>)
    requires Legal(n, events)
    ensures AllInStep(n, Replay(n, events))
  {
    if events != [] {
      var last := |events| - 1;
      var g := Replay(n, events[..last]);
      DeliveryIsFifo(n, events[..last]);
      if events[last].Poll? {
        forall i | 0 <= i < n ensures InStep(Happen(g, Poll), i) {
          PollInStep(n, g, i);
        }
      } else {
        SendInStep(n, g, events[last]);
      }
    }
  }

  // ---------------------------------------------------------------- the cut at a marker

  function Marks(q: seq<Message>): nat {
    if q == [] then 0 else Marks(q[..|q| - 1]) + (if q[|q| - 1].Mark? then 1 else 0)
  }

  function Alignments(received: seq<Received>): nat {
    if received == [] then 0
    else Alignments(received[..|received| - 1]) + (if received[|received| - 1].Aligned? then 1 else 0)
  }

  // Everything ahead of the k-th marker, counting from 0.
  function Ahead(q: seq<Message>, k: nat): seq<Message> {
    if q == [] then []
    else if q[0].Mark? then (if k == 0 then [] else [q[0]] + Ahead(q[1..], k - 1))
    else [q[0]] + Ahead(q[1..], k)
  }

  lemma {:induction false} AheadIs(p: seq<Message>, rest: seq<Message>, m: Marker, k: nat)
    requires Marks(p) == k
    ensures Ahead(p + [Mark(m)] + rest, k) == p
  {
    if p == [] {
      assert p + [Mark(m)] + rest == [Mark(m)] + rest;
    } else {
      MarksHead(p);
      assert (p + [Mark(m)] + rest)[1..] == p[1..] + [Mark(m)] + rest;
      AheadIs(p[1..], rest, m, Marks(p[1..]));
    }
  }

  lemma {:induction false} MarksHead(q: seq<Message>)
    requires q != []
    ensures Marks(q) == (if q[0].Mark? then 1 else 0) + Marks(q[1..])
  {
    var last := |q| - 1;
    if last > 0 {
      MarksHead(q[..last]);
      assert q[..last][1..] == q[1..][..last - 1];
    } else {
      assert q[..0] == [] && q[1..] == [];
    }
  }

  lemma MarksConcat(p: seq<Message>, q: seq<Message>)
    requires |q| <= 1
    ensures Marks(p + q) == Marks(p) + (if q != [] && q[0].Mark? then 1 else 0)
  {
    if q == [] { assert p + q == p; } else { assert (p + q)[..|p|] == p; }
  }

  // No marker is delivered except by alignment: all edges have had the same number of markers.
  ghost predicate OnlyAligned(received: seq<Received>) {
    forall t :: 0 <= t < |received| && received[t].Message? ==> !received[t].msg.Mark?
  }

  lemma {:induction false} SameMarks(received: seq<Received>, i: nat)
    requires OnlyAligned(received)
    ensures Marks(Delivered(received, i)) == Alignments(received)
  {
    if received != [] {
      var last := |received| - 1;
      SameMarks(received[..last], i);
      PartMarks(received[last], i);
      MarksConcat(Delivered(received[..last], i), Part(received[last], i));
    }
  }

  lemma PartMarks(r: Received, i: nat)
    requires r.Message? ==> !r.msg.Mark?
    ensures |Part(r, i)| <= 1 && (Part(r, i) != [] && Part(r, i)[0].Mark? <==> r.Aligned?)
  {
  }

  lemma {:induction false} ReceivesAligned(n: nat, events: seq<Event>)
    requires Legal(n, events)
    ensures OnlyAligned(Replay(n, events).received)
  {
    if events != [] {
      var last := |events| - 1;
      ReceivesAligned(n, events[..last]);
      FirstReadyIs(Replay(n, events[..last]).input.edges);
    }
  }

  lemma {:induction false} DeliveredPrefix(received: seq<Received>, t: nat, i: nat) returns (rest: seq<Message>)
    requires t <= |received|
    ensures Delivered(received, i) == Delivered(received[..t], i) + rest
  {
    if t == |received| {
      assert received[..t] == received;
      rest := [];
    } else {
      var last := |received| - 1;
      var r := DeliveredPrefix(received[..last], t, i);
      assert received[..last][..t] == received[..t];
      assert received == received[..last] + [received[last]];
      DeliveredAppend(received[..last], received[last], i);
      rest := r + Delivered(received, i)[|Delivered(received[..last], i)|..];
    }
  }

  /** When recv returns its k-th marker, the messages delivered from each edge until then are exactly
      those sent ahead of the k-th marker on that edge. */
  lemma CutAtMarker(n: nat, events: seq<Event>, t: nat, i: nat)
    requires Legal(n, events) && i < n
    requires t < |Replay(n, events).received| && Replay(n, events).received[t].Aligned?
    ensures var h := Replay(n, events);
            Delivered(h.received[..t], i) == Ahead(Clean(h.sent[i]), Alignments(h.received[..t]))
  {
    var h := Replay(n, events);
    DeliveryIsFifo(n, events);
    ReceivesAligned(n, events);
    SameMarks(h.received[..t], i);
    assert h.received[..t + 1] == h.received[..t] + [h.received[t]];
    DeliveredAppend(h.received[..t], h.received[t], i);
    var rest := DeliveredPrefix(h.received, t + 1, i);
    assert InStep(h, i);
    var p := Delivered(h.received[..t], i);
    var m := h.received[t].marker;
    Regroup(p + [Mark(m)], rest, Clean(h.input.edges[i].queue));
    AheadIs(p, rest + Clean(h.input.edges[i].queue), m, Alignments(h.received[..t]));
  }

  // ---------------------------------------------------------------- the promise of epochs

  // No plain message at or below an earlier epoch of the same edge.
  ghost predicate Promise(q: seq<Message>) {
    forall a, b :: 0 <= a < b < |q| && q[a].Epoch? && q[b].Plain? ==> q[a].time < q[b].time
  }

  ghost predicate MergedPromise(received: seq<Received>) {
    forall a, b :: 0 <= a < b < |received| && received[a].Message? && received[a].msg.Epoch?
                   && received[b].Message? && received[b].msg.Plain? ==>
      received[a].msg.time < received[b].msg.time
  }

  lemma MergedIsMin(edges: seq<Upstream>)
    ensures Merge(Epochs(edges)).Some? <==> edges != [] && forall i :: 0 <= i < |edges| ==> edges[i].epoch.Some?
    ensures Merge(Epochs(edges)).Some? ==> forall i :: 0 <= i < |edges| ==> Merge(Epochs(edges)).value <= edges[i].epoch.value
    ensures Merge(Epochs(edges)).Some? ==> exists i :: 0 <= i < |edges| && Merge(Epochs(edges)) == edges[i].epoch
  {
    MergeIsMin(Epochs(edges));
    assert forall i :: 0 <= i < |edges| ==> Epochs(edges)[i] == edges[i].epoch;
  }

  // How much of edge i has been consumed.
  function Consumed(h: History, i: nat): int
    requires i < |h.sent| && i < |h.input.edges|
  {
    |h.sent[i]| - |h.input.edges[i].queue|
  }

  // Every epoch emitted so far is backed by one consumed on each edge.
  ghost predicate Backed(h: History, n: nat) {
    && |h.sent| == |h.input.edges| == n
    && (forall i :: 0 <= i < n ==>
          && 0 <= Consumed(h, i) && h.sent[i][Consumed(h, i)..] == h.input.edges[i].queue
          && (h.input.edges[i].epoch.Some? ==> BackedBy(h, i, h.input.edges[i].epoch.value)))
    && (forall i, t :: 0 <= i < n && 0 <= t < |h.received| && h.received[t].Message? && h.received[t].msg.Epoch? ==>
          BackedBy(h, i, h.received[t].msg.time))
  }

  ghost predicate BackedBy(h: History, i: nat, e: int)
    requires i < |h.sent| && i < |h.input.edges|
  {
    exists a :: 0 <= a < Consumed(h, i) && a < |h.sent[i]| && h.sent[i][a].Epoch? && e <= h.sent[i][a].time
  }

  lemma BackedByGrows(h: History, h1: History, i: nat, e: int)
    requires i < |h.sent| && i < |h.input.edges| && i < |h1.sent| && i < |h1.input.edges|
    requires BackedBy(h, i, e) && h.sent[i] <= h1.sent[i] && Consumed(h, i) <= Consumed(h1, i)
    ensures BackedBy(h1, i, e)
  {
    var a :| 0 <= a < Consumed(h, i) && a < |h.sent[i]| && h.sent[i][a].Epoch? && e <= h.sent[i][a].time;
    assert h1.sent[i][a] == h.sent[i][a];
  }

  lemma SendBacked(n: nat, h: History, e: Event)
    requires Backed(h, n) && e.Send? && CanHappen(h, e)
    ensures Backed(Happen(h, e), n)
  {
    var h1 := Happen(h, e);
    forall i, x | 0 <= i < n && BackedBy(h, i, x) ensures BackedBy(h1, i, x) {
      BackedByGrows(h, h1, i, x);
    }
    forall i | 0 <= i < n ensures h1.sent[i][Consumed(h1, i)..] == h1.input.edges[i].queue {
      assert h.sent[i][Consumed(h, i)..] == h.input.edges[i].queue;
    }
  }

  lemma PollConsumes(n: nat, h: History, i: nat)
    requires Backed(h, n) && i < n
    ensures var h1 := Happen(h, Poll);
            && |h1.sent| == |h1.input.edges| == n && h1.sent == h.sent
            && 0 <= Consumed(h1, i) && h1.sent[i][Consumed(h1, i)..] == h1.input.edges[i].queue
            && Consumed(h, i) <= Consumed(h1, i)
            && (h1.input.edges[i].epoch.Some? ==> BackedBy(h1, i, h1.input.edges[i].epoch.value))
  {
    var h1 := Happen(h, Poll);
    PollEdge(h, i);
    var a := Consumed(h, i);
    assert h.sent[i][a..] == h.input.edges[i].queue;
    if h1.input.edges[i] != h.input.edges[i] {
      assert h1.sent[i][a] == h.input.edges[i].queue[0];
    }
    if h.input.edges[i].epoch.Some? {
      BackedByGrows(h, h1, i, h.input.edges[i].epoch.value);
    }
  }

  lemma PollBacked(n: nat, h: History)
    requires Backed(h, n)
    ensures Backed(Happen(h, Poll), n)
  {
    var h1 := Happen(h, Poll);
    var r := Recv(h.input).1;
    forall i | 0 <= i < n
      ensures 0 <= Consumed(h1, i) && h1.sent[i][Consumed(h1, i)..] == h1.input.edges[i].queue
      ensures Consumed(h, i) <= Consumed(h1, i)
      ensures h1.input.edges[i].epoch.Some? ==> BackedBy(h1, i, h1.input.edges[i].epoch.value)
    {
      PollConsumes(n, h, i);
    }
    forall i, t | 0 <= i < n && 0 <= t < |h1.received| && IsEpoch(h1.received[t])
      ensures BackedBy(h1, i, h1.received[t].msg.time)
    {
      if t < |h.received| {
        BackedByGrows(h, h1, i, h.received[t].msg.time);
      } else {
        EmitsMerged(h);
        assert BackedBy(h1, i, h1.input.edges[i].epoch.value);
      }
    }
  }

  // An emitted epoch is the minimum over all edges.
  lemma EmitsMerged(h: History)
    ensures var (input, r) := Recv(h.input);
            IsEpoch(r) ==> Merge(Epochs(input.edges)) == Some(r.msg.time)
                           && forall i :: 0 <= i < |input.edges| ==>
                                input.edges[i].epoch.Some? && r.msg.time <= input.edges[i].epoch.value
  {
    FirstReadyIs(h.input.edges);
    MergedIsMin(Recv(h.input).0.edges);
  }

  /** If no edge delivers data at or below an earlier epoch of its own, the merged stream does not either. */
  lemma {:induction false} PromiseSurvivesMerging(n: nat, events: seq<Event>)
    requires Legal(n, events) && forall i :: 0 <= i < n ==> Promise(Replay(n, events).sent[i])
    ensures Backed(Replay(n, events), n) && MergedPromise(Replay(n, events).received)
  {
    if events != [] {
      var last := |events| - 1;
      var e := events[last];
      var g := Replay(n, events[..last]);
      var h := Replay(n, events);
      forall i | 0 <= i < n ensures Promise(g.sent[i]) {
        assert Promise(h.sent[i]);
        assert g.sent[i] <= h.sent[i];
      }
      PromiseSurvivesMerging(n, events[..last]);
      if e.Poll? {
        PollBacked(n, g);
        PollPromise(n, g);
      } else {
        SendBacked(n, g, e);
      }
    }
  }

  lemma PollPromise(n: nat, h: History)
    requires Backed(h, n) && MergedPromise(h.received) && forall i :: 0 <= i < |h.sent| ==> Promise(h.sent[i])
    ensures MergedPromise(Happen(h, Poll).received)
  {
    var (input, r) := Recv(h.input);
    var received := Happen(h, Poll).received;
    FirstReadyIs(h.input.edges);
    if r.Message? && r.msg.Plain? {
      var i := r.edge;
      var b := Consumed(h, i);
      assert h.sent[i][b..] == h.input.edges[i].queue;
      assert h.sent[i][b] == r.msg;
      forall t | 0 <= t < |h.received| && h.received[t].Message? && h.received[t].msg.Epoch?
        ensures h.received[t].msg.time < r.msg.time
      {
        assert BackedBy(h, i, h.received[t].msg.time);
        var a :| 0 <= a < b && a < |h.sent[i]| && h.sent[i][a].Epoch? && h.received[t].msg.time <= h.sent[i][a].time;
        assert Promise(h.sent[i]);
      }
    }
  }

  // ---------------------------------------------------------------- monotone epochs and the frontier

  predicate IsEpoch(r: Received) {
    r.Message? && r.msg.Epoch?
  }

  // None as long as no epoch has been emitted, the largest one afterwards.
  ghost predicate IsLargest(received: seq<Received>, frontier: Option<int>) {
    && (frontier.None? ==> forall t :: 0 <= t < |received| ==> !IsEpoch(received[t]))
    && (frontier.Some? ==>
         && (exists t :: 0 <= t < |received| && IsEpoch(received[t]) && received[t].msg.time == frontier.value)
         && (forall t :: 0 <= t < |received| && IsEpoch(received[t]) ==> received[t].msg.time <= frontier.value))
  }

  // The frontier of an input is always the largest epoch it has emitted.
  lemma {:induction false} FrontierIsLargest(n: nat, events: seq<Event>)
    requires Legal(n, events)
    ensures IsLargest(Replay(n, events).received, Replay(n, events).input.frontier)
  {
    if events != [] {
      var last := |events| - 1;
      var g := Replay(n, events[..last]);
      FrontierIsLargest(n, events[..last]);
      if events[last].Poll? {
        PollFrontier(g);
      }
    }
  }

  lemma PollFrontier(h: History)
    requires IsLargest(h.received, h.input.frontier)
    ensures IsLargest(Happen(h, Poll).received, Happen(h, Poll).input.frontier)
  {
    var received := Happen(h, Poll).received;
    FirstReadyIs(h.input.edges);
    assert forall t :: 0 <= t < |h.received| ==> received[t] == h.received[t];
    assert received[|h.received|] == Recv(h.input).1;
  }

  ghost predicate Monotone(q: seq<Message>) {
    forall a, b :: 0 <= a < b < |q| && q[a].Epoch? && q[b].Epoch? ==> q[a].time <= q[b].time
  }

  ghost predicate EmitsMonotone(received: seq<Received>) {
    forall a, b :: 0 <= a < b < |received| && IsEpoch(received[a]) && IsEpoch(received[b]) ==>
      received[a].msg.time <= received[b].msg.time
  }

  // Pending epochs of an edge rise and are not below its current one.
  ghost predicate EdgeRising(u: Upstream) {
    && Monotone(u.queue)
    && forall b :: 0 <= b < |u.queue| && u.epoch.Some? && u.queue[b].Epoch? ==> u.epoch.value <= u.queue[b].time
  }

  // No emitted epoch is above the merged one.
  ghost predicate Rising(h: History) {
    && (forall i :: 0 <= i < |h.input.edges| ==> EdgeRising(h.input.edges[i]))
    && (forall t :: 0 <= t < |h.received| && IsEpoch(h.received[t]) ==>
          Merge(Epochs(h.input.edges)).Some? && h.received[t].msg.time <= Merge(Epochs(h.input.edges)).value)
  }

  lemma PollEdgeRising(h: History, i: nat)
    requires i < |h.input.edges| && EdgeRising(h.input.edges[i])
    ensures var input := Recv(h.input).0;
            && |input.edges| == |h.input.edges| && EdgeRising(input.edges[i])
            && (h.input.edges[i].epoch.Some? ==>
                  input.edges[i].epoch.Some? && h.input.edges[i].epoch.value <= input.edges[i].epoch.value)
  {
    PollEdge(h, i);
    var q, q1 := h.input.edges[i].queue, Recv(h.input).0.edges[i].queue;
    if q1 != q {
      assert forall b :: 0 <= b < |q1| ==> q1[b] == q[b + 1];
    }
  }

  lemma MergeRises(edges: seq<Upstream>, edges1: seq<Upstream>)
    requires |edges| == |edges1|
    requires forall i :: 0 <= i < |edges| && edges[i].epoch.Some? ==>
               edges1[i].epoch.Some? && edges[i].epoch.value <= edges1[i].epoch.value
    ensures Merge(Epochs(edges)).Some? ==> Merge(Epochs(edges1)).Some? && Merge(Epochs(edges)).value <= Merge(Epochs(edges1)).value
  {
    MergedIsMin(edges);
    MergedIsMin(edges1);
  }

  lemma PollRising(h: History)
    requires Rising(h) && EmitsMonotone(h.received)
    ensures Rising(Happen(h, Poll)) && EmitsMonotone(Happen(h, Poll).received)
  {
    var (input, r) := Recv(h.input);
    if |h.input.edges| > 0 { PollEdge(h, 0); } else { FirstReadyIs(h.input.edges); }
    forall i | 0 <= i < |h.input.edges|
      ensures EdgeRising(input.edges[i])
      ensures h.input.edges[i].epoch.Some? ==>
                input.edges[i].epoch.Some? && h.input.edges[i].epoch.value <= input.edges[i].epoch.value
    {
      PollEdgeRising(h, i);
    }
    MergeRises(h.input.edges, input.edges);
    EmitsMerged(h);
  }

  lemma SendRising(n: nat, h: History, e: Event)
    requires Backed(h, n) && Rising(h) && e.Send? && CanHappen(h, e)
    requires forall i :: 0 <= i < n ==> Monotone(Happen(h, e).sent[i])
    ensures Rising(Happen(h, e))
  {
    var h1 := Happen(h, e);
    var i := e.edge;
    var u, u1 := h.input.edges[i], h1.input.edges[i];
    var c := Consumed(h, i);
    assert h.sent[i][c..] == u.queue && h1.sent[i][c..] == u1.queue;
    assert forall b :: 0 <= b < |u1.queue| ==> u1.queue[b] == h1.sent[i][c + b];
    assert Monotone(h1.sent[i]) && EdgeRising(u);
    forall b | 0 <= b < |u1.queue| && u1.epoch.Some? && u1.queue[b].Epoch? ensures u1.epoch.value <= u1.queue[b].time {
      var a :| 0 <= a < c && a < |h.sent[i]| && h.sent[i][a].Epoch? && u.epoch.value <= h.sent[i][a].time;
      assert h1.sent[i][a] == h.sent[i][a];
    }
    assert EdgeRising(u1);
    MergeSame(h.input.edges, h1.input.edges);
  }

  lemma MergeSame(edges: seq<Upstream>, edges1: seq<Upstream>)
    requires |edges| == |edges1| && forall i :: 0 <= i < |edges| ==> edges[i].epoch == edges1[i].epoch
    ensures Merge(Epochs(edges)) == Merge(Epochs(edges1))
  {
    assert Epochs(edges) == Epochs(edges1);
  }

  /** With monotone epochs on every edge the emitted epochs never decrease. */
  lemma {:induction false} EpochsNeverDecrease(n: nat, events: seq<Event>)
    requires Legal(n, events) && forall i :: 0 <= i < n ==> Monotone(Replay(n, events).sent[i])
    ensures Backed(Replay(n, events), n) && Rising(Replay(n, events)) && EmitsMonotone(Replay(n, events).received)
  {
    if events != [] {
      var last := |events| - 1;
      var e := events[last];
      var g := Replay(n, events[..last]);
      var h := Replay(n, events);
      forall i | 0 <= i < n ensures Monotone(g.sent[i]) {
        assert Monotone(h.sent[i]);
        assert g.sent[i] <= h.sent[i];
      }
      EpochsNeverDecrease(n, events[..last]);
      if e.Poll? {
        PollBacked(n, g);
        PollRising(g);
      } else {
        SendBacked(n, g, e);
        SendRising(n, g, e);
      }
    }
  }
}
