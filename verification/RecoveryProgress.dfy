/**
  That records and snapshots get through: from every state of every life a worker can go on until a record at any
  later position has been processed and any snapshot has been completed.
*/
module RecoveryProgress {
  import opened Basics
  import opened StatefulOp
  import opened Pipeline
  import opened Handover
  import opened Recovery

  // ---------------------------------------------------------------- emptying the queues

  function Works(works: seq<nat>): seq<Pipeline.Step> {
    seq(|works|, i requires 0 <= i < |works| => Pipeline.Step.Work(works[i]))
  }

  ghost predicate EmptyTo(p: Pipe, m: nat) {
    forall i :: 0 <= i < m && i < |p.queues| ==> p.queues[i] == []
  }

  lemma OneMore(ops: seq<Operator>, init: seq<States>, steps: seq<Pipeline.Step>, works: seq<nat>, i: nat)
    requires |init| == |ops|
    ensures Pipeline.Run(ops, init, steps + Works(works + [i])) ==
              Pipeline.Apply(ops, Pipeline.Run(ops, init, steps + Works(works)), Pipeline.Step.Work(i))
  {
    WorksAppend(steps, works, i);
    RunAppend(ops, init, steps + Works(works), Pipeline.Step.Work(i));
  }

  lemma WorksAppend(steps: seq<Pipeline.Step>, works: seq<nat>, i: nat)
    ensures steps + Works(works + [i]) == steps + Works(works) + [Pipeline.Step.Work(i)]
  {
  }

  lemma RunAppend(ops: seq<Operator>, init: seq<States>, steps: seq<Pipeline.Step>, step: Pipeline.Step)
    requires |init| == |ops|
    ensures Pipeline.Run(ops, init, steps + [step]) == Pipeline.Apply(ops, Pipeline.Run(ops, init, steps), step)
  {
    assert (steps + [step])[..|steps|] == steps;
  }

  // The operator at position i works off its queue.
  lemma DrainOne(ops: seq<Operator>, init: seq<States>, steps: seq<Pipeline.Step>, works: seq<nat>, i: nat)
    returns (more: seq<nat>)
    requires |init| == |ops| && i < |ops| && EmptyTo(Pipeline.Run(ops, init, steps + Works(works)), i)
    ensures EmptyTo(Pipeline.Run(ops, init, steps + Works(more)), i + 1)
  {
    more := works;
    while Pipeline.Run(ops, init, steps + Works(more)).queues[i] != []
      invariant EmptyTo(Pipeline.Run(ops, init, steps + Works(more)), i)
      decreases |Pipeline.Run(ops, init, steps + Works(more)).queues[i]|
    {
      OneMore(ops, init, steps, more, i);
      assert CanWork(ops, Pipeline.Run(ops, init, steps + Works(more)), i);
      more := more + [i];
    }
  }

  lemma Drain(ops: seq<Operator>, init: seq<States>, steps: seq<Pipeline.Step>) returns (works: seq<nat>)
    requires |init| == |ops|
    ensures Drained(Pipeline.Run(ops, init, steps + Works(works)))
  {
    works := [];
    var i := 0;
    while i < |ops|
      invariant 0 <= i <= |ops| && EmptyTo(Pipeline.Run(ops, init, steps + Works(works)), i)
    {
      works := DrainOne(ops, init, steps, works, i);
      i := i + 1;
    }
  }

  // ---------------------------------------------------------------- one life goes on

  function Events(works: seq<nat>): seq<Event> {
    seq(|works|, i requires 0 <= i < |works| => Event.Work(works[i]))
  }

  function Polls(n: nat): seq<Event> {
    seq(n, i => Poll)
  }

  lemma {:induction false} LiveWorks(s: Setup, start: Start, events: seq<Event>, works: seq<nat>)
    ensures var sys := Live(s, start, events);
            Live(s, start, events + Events(works)) == System(sys.pos, sys.steps + Works(works))
  {
    if works == [] {
      assert events + Events(works) == events;
      assert Live(s, start, events).steps + Works([]) == Live(s, start, events).steps;
    } else {
      var last := |works| - 1;
      LiveWorks(s, start, events, works[..last]);
      assert events + Events(works) == events + Events(works[..last]) + [Event.Work(works[last])];
      LiveAppend(s, start, events + Events(works[..last]), Event.Work(works[last]));
      assert Works(works) == Works(works[..last]) + [Pipeline.Step.Work(works[last])];
      Regroup(Live(s, start, events).steps, Works(works[..last]), [Pipeline.Step.Work(works[last])]);
    }
  }

  lemma LiveAppend(s: Setup, start: Start, events: seq<Event>, e: Event)
    ensures Live(s, start, events + [e]) == Happen(s, Live(s, start, events), e)
  {
    assert (events + [e])[..|events|] == events;
  }

  // The source reads on as long as there is something.
  lemma {:induction false} PollsRead(s: Setup, start: Start, events: seq<Event>, n: nat)
    requires var pos := Live(s, start, events).pos; forall p :: pos <= p < pos + n ==> s.script(p).Some?
    ensures Live(s, start, events + Polls(n)).pos == Live(s, start, events).pos + n
  {
    if n == 0 {
      assert events + Polls(0) == events;
    } else {
      PollsRead(s, start, events, n - 1);
      assert events + Polls(n) == events + Polls(n - 1) + [Poll];
      LiveAppend(s, start, events + Polls(n - 1), Poll);
    }
  }

  /** Nothing is ever in the way of processing: after any number of crashes, and whatever has happened since, the
      worker can go on to a moment at which nothing is on its way and every record ahead of any position that can
      be read has been handled, each once. */
  lemma RecordsGetThrough(s: Setup, lives: seq<Life>, events: seq<Event>, pos: nat) returns (all: seq<Event>)
    requires Valid(s) && Live(s, StartAfter(s, lives), events).pos <= pos
    requires forall p :: Live(s, StartAfter(s, lives), events).pos <= p < pos ==> s.script(p).Some?
    ensures events <= all && Live(s, StartAfter(s, lives), all).pos == pos
    ensures Drained(PipeOf(s, StartAfter(s, lives), all))
    ensures PipeOf(s, StartAfter(s, lives), all).states == Ideal(s, pos)
  {
    var start := StartAfter(s, lives);
    var n := pos - Live(s, start, events).pos;
    PollsRead(s, start, events, n);
    var read := events + Polls(n);
    var works := Drain(s.ops, start.states, Live(s, start, read).steps);
    LiveWorks(s, start, read, works);
    all := read + Events(works);
    ExactlyOnce(s, lives, all);
  }

  // A barrier among the messages is one among their frames.
  lemma {:induction false} FrameOfBarrier(msgs: seq<Message>, version: nat)
    ensures Message.Barrier(version, map[]) in Frames(msgs) <==>
              exists k :: 0 <= k < |msgs| && msgs[k].Barrier? && msgs[k].version == version
  {
    if msgs != [] {
      FrameOfBarrier(msgs[..|msgs| - 1], version);
      var last := msgs[|msgs| - 1];
      if last.Barrier? && last.version == version {
        assert Frame(last)[0] == Message.Barrier(version, map[]);
      }
      if k :| 0 <= k < |msgs| - 1 && msgs[k].Barrier? && msgs[k].version == version {
        assert msgs[..|msgs| - 1][k] == msgs[k];
      }
    }
  }

  /** A snapshot that is asked for can be completed: the barrier leaves the last operator, and a restart from it
      starts where an uninterrupted run would be. */
  lemma SnapshotGetsThrough(s: Setup, lives: seq<Life>, events: seq<Event>, version: nat)
    returns (all: seq<Event>, k: nat)
    requires Valid(s)
    ensures events + [Snapshot(version)] <= all
    ensures var start := StartAfter(s, lives);
            var out := PipeOf(s, start, all).out;
            && k < |out| && out[k].Barrier? && out[k].version == version
            && Sound(s, Load(s, out[k].saved)) && Load(s, out[k].saved).pos >= start.pos
  {
    var start := StartAfter(s, lives);
    var asked := events + [Snapshot(version)];
    var works := Drain(s.ops, start.states, Live(s, start, asked).steps);
    LiveWorks(s, start, asked, works);
    all := asked + Events(works);
    var before, steps := Live(s, start, events), Live(s, start, all).steps;
    var barrier := Message.Barrier(version, map[s.source := map[Part := before.pos]]);
    LiveAppend(s, start, events, Snapshot(version));
    assert steps == before.steps + [Feed(barrier)] + Works(works);
    FedHas(before.steps, barrier, works);
    FrameOfBarrier(Fed(steps), version);
    DrainedIsRunChain(s.ops, start.states, steps);
    ChainPasses(s.ops, start.states, Fed(steps));
    var out := PipeOf(s, start, all).out;
    FrameOfBarrier(out, version);
    k :| 0 <= k < |out| && out[k].Barrier? && out[k].version == version;
    RestartsAreSound(s, lives);
    SnapshotIsIdeal(s, start, all, k);
  }

  lemma {:induction false} FedHas(steps: seq<Pipeline.Step>, msg: Message, works: seq<nat>)
    ensures Fed(steps + [Feed(msg)] + Works(works)) == Fed(steps) + [msg]
    ensures exists k :: 0 <= k < |Fed(steps + [Feed(msg)] + Works(works))| && Fed(steps + [Feed(msg)] + Works(works))[k] == msg
  {
    var all := steps + [Feed(msg)] + Works(works);
    if works == [] {
      assert all == steps + [Feed(msg)];
      FedAppend(steps, Feed(msg));
    } else {
      FedHas(steps, msg, works[..|works| - 1]);
      assert all == steps + [Feed(msg)] + Works(works[..|works| - 1]) + [Pipeline.Step.Work(works[|works| - 1])];
      FedAppend(steps + [Feed(msg)] + Works(works[..|works| - 1]), Pipeline.Step.Work(works[|works| - 1]));
      assert Fed(steps) + [msg] + [] == Fed(steps) + [msg];
    }
    assert (Fed(steps) + [msg])[|Fed(steps)|] == msg;
  }
}
