/**
  Exactly-once processing on one worker: a source with one partition, and behind it a chain of stateful
  operators, that crash and restart from snapshots.
*/
module Recovery {
  import opened Basics
  import opened StatefulOp
  import opened Pipeline
  import opened Handover

  // What the source finds at each position; None as long as there is nothing. Reading is repeatable.
  type Script = nat -> Option<Record>

  datatype Setup = Setup(script: Script, source: OperatorId, ops: seq<Operator>)

  ghost predicate Valid(s: Setup) {
    DistinctIds(s.ops) && forall i :: 0 <= i < |s.ops| ==> s.ops[i].id != s.source
  }

  // The only partition's key.
  const Part: Key := 0

  datatype Event =
    | Poll
    | Snapshot(version: nat)     // a barrier reaches the source, which persists its position
    | Work(i: nat)

  datatype Start = Start(pos: nat, states: seq<States>)

  // `steps`: what the pipe behind the source has been through.
  datatype System = System(pos: nat, steps: seq<Pipeline.Step>)

  function Polled(s: Setup, pos: nat): seq<Message> {
    match s.script(pos)
    case Some(rec) => [Data(rec)]
    case None => []
  }

  function Happen(s: Setup, sys: System, e: Event): System {
    match e
    case Poll =>
      if s.script(sys.pos).Some? then System(sys.pos + 1, sys.steps + [Feed(Data(s.script(sys.pos).value))])
      else sys
    case Snapshot(version) =>
      sys.(steps := sys.steps + [Feed(Barrier(version, map[s.source := map[Part := sys.pos]]))])
    case Work(i) => sys.(steps := sys.steps + [Step.Work(i)])
  }

  // One life of the worker, from a start to a crash.
  function Live(s: Setup, start: Start, events: seq<Event>): System {
    if events == [] then System(start.pos, [])
    else Happen(s, Live(s, start, events[..|events| - 1]), events[|events| - 1])
  }

  function PipeOf(s: Setup, start: Start, events: seq<Event>): Pipe
    requires |start.states| == |s.ops|
  {
    Pipeline.Run(s.ops, start.states, Live(s, start, events).steps)
  }

  // `load_state().unwrap_or_default()` of every operator
  function Load(s: Setup, saved: map<OperatorId, States>): Start {
    var pos := Lookup(Lookup(saved, s.source).GetOr(map[]), Part).GetOr(0);
    Start(if pos < 0 then 0 else pos,
          seq(|s.ops|, i requires 0 <= i < |s.ops| => Lookup(saved, s.ops[i].id).GetOr(map[])))
  }

  function Fresh(s: Setup): Start {
    Start(0, seq(|s.ops|, i => map[]))
  }

  // ---------------------------------------------------------------- the uninterrupted run

  // All records from one position up to another.
  function Range(s: Setup, from: nat, until: nat): seq<Message> {
    if until <= from then [] else Range(s, from, until - 1) + Polled(s, until - 1)
  }

  // The states after exactly the records ahead of a position, without barrier, crash or queue.
  function Ideal(s: Setup, pos: nat): (states: seq<States>)
    ensures |states| == |s.ops|
  {
    RunChain(s.ops, Fresh(s).states, Range(s, 0, pos)).0
  }

  lemma {:induction false} RangeSplit(s: Setup, from: nat, mid: nat, until: nat)
    requires from <= mid <= until
    ensures Range(s, from, until) == Range(s, from, mid) + Range(s, mid, until)
    decreases until
  {
    if mid < until {
      RangeSplit(s, from, mid, until - 1);
      Regroup(Range(s, from, mid), Range(s, mid, until - 1), Polled(s, until - 1));
    }
  }

  lemma IdealContinues(s: Setup, from: nat, until: nat)
    requires from <= until
    ensures RunChain(s.ops, Ideal(s, from), Range(s, from, until)).0 == Ideal(s, until)
  {
    RangeSplit(s, 0, from, until);
    RunChainConcat(s.ops, Fresh(s).states, Range(s, 0, from), Range(s, from, until));
  }

  // ---------------------------------------------------------------- barriers pass through

  function WithoutBarriers(msgs: seq<Message>): seq<Message> {
    if msgs == [] then []
    else WithoutBarriers(msgs[..|msgs| - 1]) + (if msgs[|msgs| - 1].Barrier? then [] else [msgs[|msgs| - 1]])
  }

  lemma {:induction false} WithoutBarriersConcat(xs: seq<Message>, ys: seq<Message>)
    ensures WithoutBarriers(xs + ys) == WithoutBarriers(xs) + WithoutBarriers(ys)
  {
    if ys == [] {
      assert xs + ys == xs;
    } else {
      WithoutBarriersConcat(xs, ys[..|ys| - 1]);
      assert (xs + ys)[..|xs + ys| - 1] == xs + ys[..|ys| - 1];
    }
  }

  ghost predicate Plain(msgs: seq<Message>) {
    forall i :: 0 <= i < |msgs| ==> msgs[i].Data? || msgs[i].Barrier?
  }

  ghost predicate OnlyData(msgs: seq<Message>) {
    forall i :: 0 <= i < |msgs| ==> msgs[i].Data?
  }

  lemma {:induction false} OnlyDataHasNoBarriers(msgs: seq<Message>)
    requires OnlyData(msgs)
    ensures WithoutBarriers(msgs) == msgs
  {
    if msgs != [] {
      OnlyDataHasNoBarriers(msgs[..|msgs| - 1]);
    }
  }

  // An operator's states and records do not depend on barriers in its input.
  lemma {:induction false} OpIgnoresBarriers(op: Operator, states: States, msgs: seq<Message>)
    requires Plain(msgs)
    ensures var (after, sent) := RunOp(op, states, msgs);
            Plain(sent) && RunOp(op, states, WithoutBarriers(msgs)) == (after, WithoutBarriers(sent))
  {
    if msgs != [] {
      var last := |msgs| - 1;
      OpIgnoresBarriers(op, states, msgs[..last]);
      var (before, sent) := RunOp(op, states, msgs[..last]);
      var (after, more) := StatefulOp.Step(op, before, msgs[last]);
      WithoutBarriersConcat(sent, more);
      if msgs[last].Barrier? {
        assert more[..0] == [];
        assert WithoutBarriers(more) == [];
        assert WithoutBarriers(sent) + [] == WithoutBarriers(sent);
        assert WithoutBarriers(msgs[..last]) + [] == WithoutBarriers(msgs[..last]);
      } else {
        assert OnlyData(more);
        OnlyDataHasNoBarriers(more);
        RunOpConcat(op, states, WithoutBarriers(msgs[..last]), [msgs[last]]);
        RunOne(op, before, msgs[last]);
      }
    }
  }

  lemma {:induction false} ChainIgnoresBarriers(ops: seq<Operator>, all: seq<States>, msgs: seq<Message>)
    requires |all| == |ops| && Plain(msgs)
    ensures RunChain(ops, all, WithoutBarriers(msgs)).0 == RunChain(ops, all, msgs).0
  {
    if ops != [] {
      OpIgnoresBarriers(ops[0], all[0], msgs);
      ChainIgnoresBarriers(ops[1..], all[1..], RunOp(ops[0], all[0], msgs).1);
    }
  }

  function Saved(ops: seq<Operator>, all: seq<States>, saved: map<OperatorId, States>): map<OperatorId, States>
    requires |all| == |ops|
  {
    if ops == [] then saved else Saved(ops[1..], all[1..], saved[ops[0].id := all[0]])
  }

  lemma {:induction false} SavedElsewhere(ops: seq<Operator>, all: seq<States>, saved: map<OperatorId, States>, id: OperatorId)
    requires |all| == |ops| && forall i :: 0 <= i < |ops| ==> ops[i].id != id
    ensures Lookup(Saved(ops, all, saved), id) == Lookup(saved, id)
  {
    if ops != [] {
      assert ops[0].id != id;
      SavedElsewhere(ops[1..], all[1..], saved[ops[0].id := all[0]], id);
    }
  }

  lemma {:induction false} SavedIs(ops: seq<Operator>, all: seq<States>, saved: map<OperatorId, States>, i: nat)
    requires |all| == |ops| && DistinctIds(ops) && i < |ops|
    ensures Lookup(Saved(ops, all, saved), ops[i].id) == Some(all[i])
  {
    if i == 0 {
      SavedElsewhere(ops[1..], all[1..], saved[ops[0].id := all[0]], ops[0].id);
    } else {
      SavedIs(ops[1..], all[1..], saved[ops[0].id := all[0]], i - 1);
    }
  }

  // A barrier collects every operator's states as they are when it passes.
  lemma {:induction false} BarrierPasses(ops: seq<Operator>, all: seq<States>, version: nat, saved: map<OperatorId, States>)
    requires |all| == |ops|
    ensures RunChain(ops, all, [Barrier(version, saved)]) == (all, [Barrier(version, Saved(ops, all, saved))])
  {
    if ops == [] {
      assert all == [];
    } else {
      RunOne(ops[0], all[0], Barrier(version, saved));
      BarrierPasses(ops[1..], all[1..], version, saved[ops[0].id := all[0]]);
      assert [all[0]] + all[1..] == all;
    }
  }

  lemma {:induction false} OpSendsData(op: Operator, states: States, msgs: seq<Message>)
    requires OnlyData(msgs)
    ensures OnlyData(RunOp(op, states, msgs).1)
  {
    if msgs != [] {
      OpSendsData(op, states, msgs[..|msgs| - 1]);
    }
  }

  lemma {:induction false} ChainSendsData(ops: seq<Operator>, all: seq<States>, msgs: seq<Message>)
    requires |all| == |ops| && OnlyData(msgs)
    ensures OnlyData(RunChain(ops, all, msgs).1)
  {
    if ops != [] {
      OpSendsData(ops[0], all[0], msgs);
      ChainSendsData(ops[1..], all[1..], RunOp(ops[0], all[0], msgs).1);
    }
  }

  // A barrier that leaves the chain is one that entered it, and what left ahead of it entered ahead of it.
  lemma {:induction false} BarrierOrigin(ops: seq<Operator>, all: seq<States>, msgs: seq<Message>, k: nat) returns (j: nat)
    requires |all| == |ops| && Plain(msgs)
    requires k < |RunChain(ops, all, msgs).1| && RunChain(ops, all, msgs).1[k].Barrier?
    ensures j < |msgs| && msgs[j].Barrier?
    ensures RunChain(ops, all, msgs).1[k] ==
              Barrier(msgs[j].version, Saved(ops, RunChain(ops, all, msgs[..j]).0, msgs[j].saved))
  {
    j := 0;
    if msgs == [] {
      NoInput(ops, all);
    } else {
      var last := |msgs| - 1;
      assert msgs == msgs[..last] + [msgs[last]];
      RunChainConcat(ops, all, msgs[..last], [msgs[last]]);
      var (mid, sent) := RunChain(ops, all, msgs[..last]);
      if k < |sent| {
        j := BarrierOrigin(ops, all, msgs[..last], k);
        assert msgs[..last][..j] == msgs[..j];
      } else if msgs[last].Barrier? {
        BarrierPasses(ops, mid, msgs[last].version, msgs[last].saved);
        j := last;
      } else {
        ChainSendsData(ops, mid, [msgs[last]]);
      }
    }
  }

  // ---------------------------------------------------------------- one life

  // What the source has sent: all records up to its position, and each barrier behind the records ahead
  // of the position it carries.
  ghost predicate Faithful(s: Setup, from: nat, pos: nat, fed: seq<Message>) {
    && from <= pos && Plain(fed) && WithoutBarriers(fed) == Range(s, from, pos)
    && forall j :: 0 <= j < |fed| && fed[j].Barrier? ==> Positioned(s, from, fed, j)
  }

  ghost predicate Positioned(s: Setup, from: nat, fed: seq<Message>, j: nat)
    requires j < |fed| && fed[j].Barrier?
  {
    var states := Lookup(fed[j].saved, s.source).GetOr(map[]);
    && fed[j].saved.Keys == {s.source}
    && Part in states && from <= states[Part]
    && WithoutBarriers(fed[..j]) == Range(s, from, states[Part])
  }

  lemma FaithfulAppend(s: Setup, from: nat, pos: nat, fed: seq<Message>, msg: Message)
    requires Faithful(s, from, pos, fed)
    requires msg == Barrier(if msg.Barrier? then msg.version else 0, map[s.source := map[Part := pos]])
             || (s.script(pos).Some? && msg == Data(s.script(pos).value))
    ensures Faithful(s, from, if msg.Barrier? then pos else pos + 1, fed + [msg])
  {
    var fed1 := fed + [msg];
    assert fed1[..|fed|] == fed;
    forall j | 0 <= j < |fed1| && fed1[j].Barrier? ensures Positioned(s, from, fed1, j) {
      if j < |fed| {
        assert Positioned(s, from, fed, j);
        assert fed1[..j] == fed[..j];
      }
    }
  }

  lemma HappenFaithful(s: Setup, from: nat, sys: System, e: Event)
    requires Faithful(s, from, sys.pos, Fed(sys.steps))
    ensures Faithful(s, from, Happen(s, sys, e).pos, Fed(Happen(s, sys, e).steps))
  {
    match e
    case Poll =>
      if s.script(sys.pos).Some? {
        FedAppend(sys.steps, Feed(Data(s.script(sys.pos).value)));
        FaithfulAppend(s, from, sys.pos, Fed(sys.steps), Data(s.script(sys.pos).value));
      }
    case Snapshot(version) =>
      var msg := Barrier(version, map[s.source := map[Part := sys.pos]]);
      FedAppend(sys.steps, Feed(msg));
      FaithfulAppend(s, from, sys.pos, Fed(sys.steps), msg);
    case Work(i) =>
      FedAppend(sys.steps, Step.Work(i));
      assert Fed(sys.steps) + [] == Fed(sys.steps);
  }

  lemma {:induction false} SourceIsFaithful(s: Setup, start: Start, events: seq<Event>)
    ensures Faithful(s, start.pos, Live(s, start, events).pos, Fed(Live(s, start, events).steps))
  {
    if events != [] {
      SourceIsFaithful(s, start, events[..|events| - 1]);
      HappenFaithful(s, start.pos, Live(s, start, events[..|events| - 1]), events[|events| - 1]);
    }
  }

  lemma FedAppend(steps: seq<Pipeline.Step>, step: Pipeline.Step)
    ensures Fed(steps + [step]) == Fed(steps) + (if step.Feed? then [step.msg] else [])
  {
    assert (steps + [step])[..|steps|] == steps;
  }

  // A start an uninterrupted run would pass.
  ghost predicate Sound(s: Setup, start: Start) {
    |start.states| == |s.ops| && start.states == Ideal(s, start.pos)
  }

  lemma FreshIsSound(s: Setup)
    ensures Sound(s, Fresh(s))
  {
    NoInput(s.ops, Fresh(s).states);
  }

  // The chain after a part of the source's output, barriers included, is where the ideal run is.
  lemma AfterIsIdeal(s: Setup, start: Start, fed: seq<Message>, pos: nat)
    requires Sound(s, start) && Plain(fed) && start.pos <= pos && WithoutBarriers(fed) == Range(s, start.pos, pos)
    ensures RunChain(s.ops, start.states, fed).0 == Ideal(s, pos)
  {
    ChainIgnoresBarriers(s.ops, start.states, fed);
    IdealContinues(s, start.pos, pos);
  }

  /** A completed snapshot is consistent: for every schedule, the states a barrier has collected when it leaves
      the chain are those after exactly the records polled ahead of the position saved with it. */
  lemma SnapshotIsIdeal(s: Setup, start: Start, events: seq<Event>, k: nat)
    requires Valid(s) && Sound(s, start)
    requires k < |PipeOf(s, start, events).out| && PipeOf(s, start, events).out[k].Barrier?
    ensures var saved := PipeOf(s, start, events).out[k].saved;
            && s.source in saved && Part in saved[s.source] && saved[s.source][Part] >= start.pos
            && (forall i :: 0 <= i < |s.ops| ==>
                  Lookup(saved, s.ops[i].id) == Some(Ideal(s, saved[s.source][Part])[i]))
            && Load(s, saved) == Start(saved[s.source][Part], Ideal(s, saved[s.source][Part]))
  {
    var fed := Fed(Live(s, start, events).steps);
    SourceIsFaithful(s, start, events);
    OutputIsPrefix(s.ops, start.states, Live(s, start, events).steps);
    var j := BarrierOrigin(s.ops, start.states, fed, k);
    assert Positioned(s, start.pos, fed, j);
    var pos := fed[j].saved[s.source][Part];
    AfterIsIdeal(s, start, fed[..j], pos);
    SavedElsewhere(s.ops, Ideal(s, pos), fed[j].saved, s.source);
    forall i | 0 <= i < |s.ops|
      ensures Lookup(Saved(s.ops, Ideal(s, pos), fed[j].saved), s.ops[i].id) == Some(Ideal(s, pos)[i])
    {
      SavedIs(s.ops, Ideal(s, pos), fed[j].saved, i);
    }
  }

  // ---------------------------------------------------------------- many lives

  // A life, and which message of its output is the last completed snapshot. If there is none in this life
  // the next one starts where this one did.
  datatype Life = Life(events: seq<Event>, snapshot: nat)

  function Restart(s: Setup, start: Start, life: Life): (next: Start)
    requires |start.states| == |s.ops|
    ensures |next.states| == |s.ops|
  {
    var out := PipeOf(s, start, life.events).out;
    if life.snapshot < |out| && out[life.snapshot].Barrier? then Load(s, out[life.snapshot].saved) else start
  }

  function StartAfter(s: Setup, lives: seq<Life>): (start: Start)
    ensures |start.states| == |s.ops|
  {
    if lives == [] then Fresh(s) else Restart(s, StartAfter(s, lives[..|lives| - 1]), lives[|lives| - 1])
  }

  lemma {:induction false} RestartsAreSound(s: Setup, lives: seq<Life>)
    requires Valid(s)
    ensures Sound(s, StartAfter(s, lives))
  {
    if lives == [] {
      FreshIsSound(s);
    } else {
      var start := StartAfter(s, lives[..|lives| - 1]);
      var life := lives[|lives| - 1];
      RestartsAreSound(s, lives[..|lives| - 1]);
      var out := PipeOf(s, start, life.events).out;
      if life.snapshot < |out| && out[life.snapshot].Barrier? {
        SnapshotIsIdeal(s, start, life.events, life.snapshot);
      }
    }
  }

  /** Exactly once: after any number of crashes at any time and restarts from completed snapshots, whenever
      nothing is on its way every operator's states are those of a run that never took a snapshot, never
      crashed and handled every record up to the source's position once. */
  lemma ExactlyOnce(s: Setup, lives: seq<Life>, events: seq<Event>)
    requires Valid(s) && Drained(PipeOf(s, StartAfter(s, lives), events))
    ensures var start := StartAfter(s, lives);
            PipeOf(s, start, events).states == Ideal(s, Live(s, start, events).pos)
  {
    var start := StartAfter(s, lives);
    RestartsAreSound(s, lives);
    SourceIsFaithful(s, start, events);
    DrainedIsRunChain(s.ops, start.states, Live(s, start, events).steps);
    AfterIsIdeal(s, start, Fed(Live(s, start, events).steps), Live(s, start, events).pos);
  }
}
