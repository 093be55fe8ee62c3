/**
  That nothing waits without a reason: what one call of `Input::recv` takes and returns, in terms of what was
  put on the edges, in every run.
*/
module AlignmentProgress {
  import opened Basics
  import opened OperatorIo
  import opened Alignment

  function Latest(q: seq<Message>): Option<int> {
    if q == [] then None
    else if q[|q| - 1].Epoch? then Some(q[|q| - 1].time) else Latest(q[..|q| - 1])
  }

  function LastReturned(received: seq<Received>): Option<int> {
    if received == [] then None
    else if IsEpoch(received[|received| - 1]) then Some(received[|received| - 1].msg.time)
    else LastReturned(received[..|received| - 1])
  }

  // ---------------------------------------------------------------- invariant

  // The queue is what has not been taken yet; the epoch of an edge is the last one taken from it.
  ghost predicate EdgeKept(h: History, i: nat)
    requires i < |h.sent| && i < |h.input.edges|
  {
    && 0 <= Consumed(h, i)
    && h.sent[i][Consumed(h, i)..] == h.input.edges[i].queue
    && h.input.edges[i].epoch == Latest(h.sent[i][..Consumed(h, i)])
  }

  ghost predicate Kept(n: nat, h: History) {
    && |h.sent| == |h.input.edges| == n
    && (forall i :: 0 <= i < n ==> EdgeKept(h, i))
    && LastReturned(h.received) == Merge(Epochs(h.input.edges))
  }

  lemma LatestNext(q: seq<Message>, c: nat)
    requires c < |q|
    ensures Latest(q[..c + 1]) == if q[c].Epoch? then Some(q[c].time) else Latest(q[..c])
  {
    assert q[..c + 1][..c] == q[..c];
  }

  lemma SendEdge(h: History, e: Event, i: nat)
    requires e.Send? && CanHappen(h, e) && i < |h.sent| == |h.input.edges| && EdgeKept(h, i)
    ensures EdgeKept(Happen(h, e), i)
  {
    var h1 := Happen(h, e);
    var c := Consumed(h, i);
    assert Consumed(h1, i) == c && h1.sent[i][..c] == h.sent[i][..c];
    if i == e.edge {
      assert h1.sent[i][c..] == h.sent[i][c..] + [e.msg];
    }
  }

  lemma PollEdgeKept(h: History, i: nat)
    requires i < |h.sent| == |h.input.edges| && EdgeKept(h, i)
    ensures |Happen(h, Poll).input.edges| == |h.input.edges| && EdgeKept(Happen(h, Poll), i)
  {
    PollEdge(h, i);
    var h1 := Happen(h, Poll);
    var c := Consumed(h, i);
    if h1.input.edges[i] != h.input.edges[i] {
      assert h.sent[i][c] == h.input.edges[i].queue[0];
      LatestNext(h.sent[i], c);
      assert h.sent[i][c + 1..] == h.input.edges[i].queue[1..];
    }
  }

  // An epoch is merged and returned; without one nothing changes.
  lemma PollReturned(h: History)
    requires LastReturned(h.received) == Merge(Epochs(h.input.edges))
    ensures var h1 := Happen(h, Poll);
            LastReturned(h1.received) == Merge(Epochs(h1.input.edges))
  {
    var h1 := Happen(h, Poll);
    FirstReadyIs(h.input.edges);
    var r := Recv(h.input).1;
    assert h1.received[..|h.received|] == h.received;
    assert LastReturned(h1.received) == if IsEpoch(r) then Some(r.msg.time) else LastReturned(h.received);
    var i := FirstReady(h.input.edges);
    if i < |h.input.edges| && h.input.edges[i].queue[0].Epoch? {
      MergedIsMin(h.input.edges);
      MergedIsMin(h1.input.edges);
    } else {
      assert Epochs(h1.input.edges) == Epochs(h.input.edges);
    }
  }

  lemma {:induction false} RunKept(n: nat, events: seq<Event>)
    requires Legal(n, events)
    ensures Kept(n, Replay(n, events))
  {
    if events == [] {
      MergedIsMin(Start(n).input.edges);
    } else {
      var last := |events| - 1;
      var g := Replay(n, events[..last]);
      RunKept(n, events[..last]);
      StepKept(n, g, events[last]);
    }
  }

  lemma StepKept(n: nat, h: History, e: Event)
    requires Kept(n, h) && CanHappen(h, e)
    ensures Kept(n, Happen(h, e))
  {
    var h1 := Happen(h, e);
    if e.Poll? {
      if n > 0 { PollEdge(h, 0); } else { FirstReadyIs(h.input.edges); }
      forall i | 0 <= i < n ensures EdgeKept(h1, i) { PollEdgeKept(h, i); }
      PollReturned(h);
    } else {
      forall i | 0 <= i < n ensures EdgeKept(h1, i) { SendEdge(h, e, i); }
      assert Epochs(h1.input.edges) == Epochs(h.input.edges);
    }
  }

  // ---------------------------------------------------------------- theorems

  // What is to be taken next from edge i, of everything that was put on it.
  function Next(h: History, i: nat): Option<Message>
    requires i < |h.sent| && i < |h.input.edges| && Consumed(h, i) >= 0
  {
    if Consumed(h, i) < |h.sent[i]| then Some(h.sent[i][Consumed(h, i)]) else None
  }

  // There is nothing, or a marker has to wait for the other edges.
  predicate Blocked(h: History, i: nat)
    requires i < |h.sent| && i < |h.input.edges| && Consumed(h, i) >= 0
  {
    Next(h, i).None? || Next(h, i).value.Mark?
  }

  ghost predicate Sized(n: nat, h: History) {
    |h.sent| == |h.input.edges| == n && forall i :: 0 <= i < n ==> Consumed(h, i) >= 0
  }

  // The last epoch taken from edge i.
  function LastTaken(h: History, i: nat): Option<int>
    requires i < |h.sent| && i < |h.input.edges| && Consumed(h, i) >= 0
  {
    Latest(h.sent[i][..Consumed(h, i)])
  }

  // The epoch that holds for all edges: the lowest of the last ones taken from each, if each has had one.
  ghost predicate Lowest(n: nat, h: History, e: Option<int>)
    requires Sized(n, h)
  {
    && (e.Some? <==> n > 0 && forall i :: 0 <= i < n ==> LastTaken(h, i).Some?)
    && (e.Some? ==>
         && (forall i :: 0 <= i < n ==> e.value <= LastTaken(h, i).value)
         && (exists i :: 0 <= i < n && LastTaken(h, i) == e))
  }

  // Exactly one message is taken, from the first edge that has one ready; an epoch returns the lowest.
  ghost predicate TakesOne(n: nat, h: History, h1: History, i: nat)
    requires Sized(n, h) && Sized(n, h1) && i < n && !Blocked(h, i) && |h1.received| > 0
  {
    var r := h1.received[|h1.received| - 1];
    && (forall j :: 0 <= j < i ==> Blocked(h, j))
    && (forall j :: 0 <= j < n ==> Consumed(h1, j) == Consumed(h, j) + (if j == i then 1 else 0))
    && (Next(h, i).value.Plain? ==> r == Message(Next(h, i).value, i))
    && (Next(h, i).value.Epoch? ==>
         exists e: Option<int> :: Lowest(n, h1, e) && r == (if e.Some? then Message(Epoch(e.value), i) else Nothing))
  }

  // The same marker is taken from all edges and returned once.
  ghost predicate TakesAll(n: nat, h: History, h1: History, m: Marker)
    requires Sized(n, h) && Sized(n, h1) && |h1.received| > 0
  {
    && (forall j :: 0 <= j < n ==> Consumed(h1, j) == Consumed(h, j) + 1)
    && h1.received[|h1.received| - 1] == Aligned(m)
  }

  ghost predicate AllWaitFor(n: nat, h: History, m: Marker)
    requires Sized(n, h)
  {
    n > 0 && forall j :: 0 <= j < n ==> Next(h, j) == Some(Mark(m))
  }

  lemma NextIsHead(h: History, i: nat)
    requires i < |h.sent| == |h.input.edges| && EdgeKept(h, i)
    ensures Next(h, i) == if h.input.edges[i].queue == [] then None else Some(h.input.edges[i].queue[0])
  {
  }

  lemma MergedIsLowest(n: nat, h: History)
    requires Kept(n, h)
    ensures Sized(n, h) && Lowest(n, h, Merge(Epochs(h.input.edges)))
  {
    forall i | 0 <= i < n ensures Consumed(h, i) >= 0 && LastTaken(h, i) == h.input.edges[i].epoch {
      assert EdgeKept(h, i);
    }
    MergedIsMin(h.input.edges);
  }

  /** In every run the last epoch that was returned is the lowest of the last epochs taken from each edge. */
  lemma ReturnsTheLowest(n: nat, events: seq<Event>)
    requires Legal(n, events)
    ensures Sized(n, Replay(n, events))
    ensures Lowest(n, Replay(n, events), LastReturned(Replay(n, events).received))
  {
    RunKept(n, events);
    MergedIsLowest(n, Replay(n, events));
  }

  lemma TakesFirst(n: nat, h: History)
    requires Kept(n, h) && FirstReady(h.input.edges) < n
    ensures Kept(n, Happen(h, Poll)) && Sized(n, h) && Sized(n, Happen(h, Poll))
    ensures !Blocked(h, FirstReady(h.input.edges)) && TakesOne(n, h, Happen(h, Poll), FirstReady(h.input.edges))
  {
    StepKept(n, h, Poll);
    var h1 := Happen(h, Poll);
    var i := FirstReady(h.input.edges);
    FirstReadyIs(h.input.edges);
    MergedIsLowest(n, h);
    MergedIsLowest(n, h1);
    forall j | 0 <= j <= i ensures Next(h, j) == if h.input.edges[j].queue == [] then None else Some(h.input.edges[j].queue[0]) {
      NextIsHead(h, j);
    }
    if Next(h, i).value.Epoch? {
      var e := Merge(Epochs(h1.input.edges));
      assert Lowest(n, h1, e) && h1.received[|h.received|] == (if e.Some? then Message(Epoch(e.value), i) else Nothing);
    }
  }

  lemma TakesMarkers(n: nat, h: History, m: Marker)
    requires Kept(n, h) && Sized(n, h) && AllWaitFor(n, h, m)
    ensures Kept(n, Happen(h, Poll)) && Sized(n, Happen(h, Poll)) && TakesAll(n, h, Happen(h, Poll), m)
  {
    StepKept(n, h, Poll);
    FirstReadyIs(h.input.edges);
    forall j | 0 <= j < n ensures HeadIs(h.input.edges[j], m) {
      NextIsHead(h, j);
    }
    MergedIsLowest(n, Happen(h, Poll));
    assert !HeadIs(h.input.edges[0], if m.Barrier? then Suspend else Barrier);
  }

  lemma TakesNothing(n: nat, h: History)
    requires Kept(n, h) && Sized(n, h) && FirstReady(h.input.edges) == n && forall m :: !AllWaitFor(n, h, m)
    ensures Recv(h.input).0 == h.input
    ensures Recv(h.input).1 == if n > 0 && forall j :: 0 <= j < n ==> Next(h, j).Some? then Mixed else Nothing
  {
    forall j | 0 <= j < n
      ensures Next(h, j) == if h.input.edges[j].queue == [] then None else Some(h.input.edges[j].queue[0])
    {
      NextIsHead(h, j);
    }
    FirstReadyIs(h.input.edges);
    assert !AllWaitFor(n, h, Barrier) && !AllWaitFor(n, h, Suspend);
    assert n > 0 && (forall j :: 0 <= j < n ==> h.input.edges[j].queue != []) ==>
             !(forall j :: 0 <= j < n ==> HeadIs(h.input.edges[j], Barrier))
             && !(forall j :: 0 <= j < n ==> HeadIs(h.input.edges[j], Suspend));
  }

  /** What a call of recv does, in every run. If an edge has something other than a marker next, exactly that is
      taken and returned, an epoch as the lowest of all edges; if all edges have the same marker next, it is taken
      from all and returned once; otherwise nothing is taken. */
  lemma PollTakes(n: nat, events: seq<Event>)
    requires Legal(n, events)
    ensures var h := Replay(n, events);
            var h1 := Happen(h, Poll);
            && Sized(n, h) && Sized(n, h1) && |h1.received| == |h.received| + 1
            && if exists i :: 0 <= i < n && !Blocked(h, i) then
                 exists i :: 0 <= i < n && !Blocked(h, i) && TakesOne(n, h, h1, i)
               else if exists m :: AllWaitFor(n, h, m) then
                 exists m :: AllWaitFor(n, h, m) && TakesAll(n, h, h1, m)
               else
                 && h1.input == h.input
                 && h1.received[|h.received|] == if n > 0 && forall j :: 0 <= j < n ==> Next(h, j).Some? then Mixed else Nothing
  {
    var h := Replay(n, events);
    RunKept(n, events);
    StepKept(n, h, Poll);
    MergedIsLowest(n, h);
    MergedIsLowest(n, Happen(h, Poll));
    FirstReadyIs(h.input.edges);
    forall j | 0 <= j < n
      ensures Next(h, j) == if h.input.edges[j].queue == [] then None else Some(h.input.edges[j].queue[0])
    {
      NextIsHead(h, j);
    }
    if FirstReady(h.input.edges) < n {
      TakesFirst(n, h);
    } else {
      assert forall i :: 0 <= i < n ==> Blocked(h, i);
      if m :| AllWaitFor(n, h, m) {
        TakesMarkers(n, h, m);
      } else {
        TakesNothing(n, h);
      }
    }
  }
}
