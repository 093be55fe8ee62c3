/**
  A chain of operators connected by FIFO queues, scheduled in any order: the order makes no difference.
*/
module Pipeline {
  import opened Basics
  import opened StatefulOp

  // `queues[i]` is the input of operator i; `out` is what has left the last one.
  datatype Pipe = Pipe(states: seq<States>, queues: seq<seq<Message>>, out: seq<Message>)

  datatype Step = Feed(msg: Message) | Work(i: nat)

  // Puts messages at the input of operator i, or behind the last one.
  function Push(p: Pipe, i: nat, msgs: seq<Message>): Pipe {
    if i < |p.queues| then p.(queues := p.queues[i := p.queues[i] + msgs]) else p.(out := p.out + msgs)
  }

  predicate CanWork(ops: seq<Operator>, p: Pipe, i: nat) {
    i < |ops| == |p.states| == |p.queues| && |p.queues[i]| > 0
  }

  // A step that is not possible changes nothing.
  function Apply(ops: seq<Operator>, p: Pipe, step: Step): Pipe {
    match step
    case Feed(msg) => Push(p, 0, [msg])
    case Work(i) =>
      if CanWork(ops, p, i) then
        var (states, sent) := StatefulOp.Step(ops[i], p.states[i], p.queues[i][0]);
        Push(p.(states := p.states[i := states], queues := p.queues[i := p.queues[i][1..]]), i + 1, sent)
      else p
  }

  function Run(ops: seq<Operator>, init: seq<States>, steps: seq<Step>): (p: Pipe)
    requires |init| == |ops|
    ensures |p.states| == |p.queues| == |ops|
  {
    if steps == [] then Pipe(init, seq(|ops|, i => []), [])
    else Apply(ops, Run(ops, init, steps[..|steps| - 1]), steps[|steps| - 1])
  }

  function Fed(steps: seq<Step>): seq<Message> {
    if steps == [] then []
    else Fed(steps[..|steps| - 1]) + (if steps[|steps| - 1].Feed? then [steps[|steps| - 1].msg] else [])
  }

  // Everything on its way is processed, operator by operator, behind it `input`.
  function Flush(ops: seq<Operator>, all: seq<States>, queues: seq<seq<Message>>, input: seq<Message>)
    : (r: (seq<States>, seq<Message>))
    requires |all| == |queues| == |ops|
    ensures |r.0| == |ops|
  {
    if ops == [] then ([], input)
    else
      var (states, sent) := RunOp(ops[0], all[0], queues[0] + input);
      var (rest, out) := Flush(ops[1..], all[1..], queues[1..], sent);
      ([states] + rest, out)
  }

  lemma {:induction false} FlushThenRun(ops: seq<Operator>, all: seq<States>, queues: seq<seq<Message>>,
                                        a: seq<Message>, b: seq<Message>)
    requires |all| == |queues| == |ops|
    ensures var (mid, out) := Flush(ops, all, queues, a);
            var (end, more) := RunChain(ops, mid, b);
            Flush(ops, all, queues, a + b) == (end, out + more)
  {
    if ops != [] {
      Regroup(queues[0], a, b);
      RunOpConcat(ops[0], all[0], queues[0] + a, b);
      var (states, sent) := RunOp(ops[0], all[0], queues[0] + a);
      var (_, more) := RunOp(ops[0], states, b);
      FlushThenRun(ops[1..], all[1..], queues[1..], sent, more);
      assert Flush(ops, all, queues, a).0[1..] == Flush(ops[1..], all[1..], queues[1..], sent).0;
    }
  }

  // Input that is in the first queue already.
  lemma FlushQueued(ops: seq<Operator>, all: seq<States>, queues: seq<seq<Message>>, a: seq<Message>, b: seq<Message>)
    requires |all| == |queues| == |ops| && ops != []
    ensures Flush(ops, all, queues[0 := queues[0] + a], b) == Flush(ops, all, queues, a + b)
  {
    Regroup(queues[0], a, b);
    assert queues[0 := queues[0] + a][1..] == queues[1..];
  }

  // Working off one message early does not change where everything ends.
  lemma {:induction false} WorkKeepsFlush(ops: seq<Operator>, p: Pipe, i: nat, input: seq<Message>)
    requires CanWork(ops, p, i)
    ensures var p1 := Apply(ops, p, Work(i));
            && |p1.states| == |p1.queues| == |ops|
            && p.out <= p1.out
            && var (end, rest) := Flush(ops, p1.states, p1.queues, input);
            Flush(ops, p.states, p.queues, input) == (end, p1.out[|p.out|..] + rest)
  {
    var p1 := Apply(ops, p, Work(i));
    var (states, sent) := RunOp(ops[0], p.states[0], p.queues[0] + input);
    if i == 0 {
      WorkFirst(ops, p, input);
    } else {
      var q := Pipe(p.states[1..], p.queues[1..], p.out);
      var q1 := Apply(ops[1..], q, Work(i - 1));
      WorkKeepsFlush(ops[1..], q, i - 1, sent);
      assert q1.states == p1.states[1..];
      assert q1.queues == p1.queues[1..];
    }
  }

  lemma WorkFirst(ops: seq<Operator>, p: Pipe, input: seq<Message>)
    requires CanWork(ops, p, 0)
    ensures var p1 := Apply(ops, p, Work(0));
            && |p1.states| == |p1.queues| == |ops|
            && p.out <= p1.out
            && var (end, rest) := Flush(ops, p1.states, p1.queues, input);
            Flush(ops, p.states, p.queues, input) == (end, p1.out[|p.out|..] + rest)
  {
    var p1 := Apply(ops, p, Work(0));
    var head, tail := p.queues[0][0], p.queues[0][1..];
    var (mid, sent) := StatefulOp.Step(ops[0], p.states[0], head);
    assert p.queues[0] + input == [head] + (tail + input);
    RunOpConcat(ops[0], p.states[0], [head], tail + input);
    RunOne(ops[0], p.states[0], head);
    var (states, more) := RunOp(ops[0], mid, tail + input);
    assert p1.states[1..] == p.states[1..];
    if |ops| > 1 {
      FlushQueued(ops[1..], p.states[1..], p.queues[1..], sent, more);
      assert p1.queues[1..] == p.queues[1..][0 := p.queues[1..][0] + sent];
      assert p1.out[|p.out|..] == [];
      var rest := Flush(ops, p1.states, p1.queues, input).1;
      assert [] + rest == rest;
    } else {
      assert p1.queues[1..] == p.queues[1..];
    }
  }

  // Finishing what is on its way gives what the chain makes of all that was fed.
  ghost predicate OnCourse(ops: seq<Operator>, init: seq<States>, p: Pipe, fed: seq<Message>)
    requires |init| == |ops|
  {
    && |p.states| == |p.queues| == |ops|
    && var (end, rest) := Flush(ops, p.states, p.queues, []);
    RunChain(ops, init, fed) == (end, p.out + rest)
  }

  lemma StartOnCourse(ops: seq<Operator>, init: seq<States>)
    requires |init| == |ops|
    ensures OnCourse(ops, init, Run(ops, init, []), [])
  {
    NothingToFlush(ops, init, Run(ops, init, []).queues);
    NoInput(ops, init);
    assert Run(ops, init, []).out + [] == [];
  }

  lemma WorkOnCourse(ops: seq<Operator>, init: seq<States>, p: Pipe, fed: seq<Message>, i: nat)
    requires |init| == |ops| && OnCourse(ops, init, p, fed)
    ensures OnCourse(ops, init, Apply(ops, p, Work(i)), fed)
  {
    if CanWork(ops, p, i) {
      WorkKeepsFlush(ops, p, i, []);
      var p1 := Apply(ops, p, Work(i));
      var rest := Flush(ops, p1.states, p1.queues, []).1;
      Regroup(p.out, p1.out[|p.out|..], rest);
      assert p.out + p1.out[|p.out|..] == p1.out;
    }
  }

  lemma FeedOnCourse(ops: seq<Operator>, init: seq<States>, p: Pipe, fed: seq<Message>, msg: Message)
    requires |init| == |ops| && OnCourse(ops, init, p, fed)
    ensures OnCourse(ops, init, Apply(ops, p, Feed(msg)), fed + [msg])
  {
    RunChainConcat(ops, init, fed, [msg]);
    FlushThenRun(ops, p.states, p.queues, [], [msg]);
    assert [] + [msg] == [msg] && [msg] + [] == [msg];
    var (mid, rest) := Flush(ops, p.states, p.queues, []);
    Regroup(p.out, rest, RunChain(ops, mid, [msg]).1);
    if ops != [] {
      FlushQueued(ops, p.states, p.queues, [msg], []);
    } else {
      assert Apply(ops, p, Feed(msg)).out + [] == p.out + [msg];
      assert p.out + rest == p.out;
    }
  }

  /** Whatever the schedule: finishing what is on its way gives what the chain makes of its whole input. */
  lemma {:induction false} ScheduleIrrelevant(ops: seq<Operator>, init: seq<States>, steps: seq<Step>)
    requires |init| == |ops|
    ensures OnCourse(ops, init, Run(ops, init, steps), Fed(steps))
  {
    if steps == [] {
      StartOnCourse(ops, init);
    } else {
      var p, fed := Run(ops, init, steps[..|steps| - 1]), Fed(steps[..|steps| - 1]);
      ScheduleIrrelevant(ops, init, steps[..|steps| - 1]);
      match steps[|steps| - 1]
      case Feed(msg) => FeedOnCourse(ops, init, p, fed, msg);
      case Work(i) =>
        WorkOnCourse(ops, init, p, fed, i);
        assert fed + [] == fed;
    }
  }

  lemma {:induction false} NothingToFlush(ops: seq<Operator>, all: seq<States>, queues: seq<seq<Message>>)
    requires |all| == |queues| == |ops| && forall i :: 0 <= i < |ops| ==> queues[i] == []
    ensures Flush(ops, all, queues, []) == (all, [])
  {
    if ops == [] {
      assert all == [];
    } else {
      NothingToFlush(ops[1..], all[1..], queues[1..]);
      assert queues[0] + [] == [];
      assert [all[0]] + all[1..] == all;
    }
  }

  ghost predicate Drained(p: Pipe) {
    forall i :: 0 <= i < |p.queues| ==> p.queues[i] == []
  }

  // Once nothing is on its way, states and output are those of the streams.
  lemma DrainedIsRunChain(ops: seq<Operator>, init: seq<States>, steps: seq<Step>)
    requires |init| == |ops| && Drained(Run(ops, init, steps))
    ensures var p := Run(ops, init, steps);
            RunChain(ops, init, Fed(steps)) == (p.states, p.out)
  {
    ScheduleIrrelevant(ops, init, steps);
    var p := Run(ops, init, steps);
    NothingToFlush(ops, p.states, p.queues);
    assert p.out + [] == p.out;
  }

  // At any time the output is a beginning of what it will be.
  lemma OutputIsPrefix(ops: seq<Operator>, init: seq<States>, steps: seq<Step>)
    requires |init| == |ops|
    ensures Run(ops, init, steps).out <= RunChain(ops, init, Fed(steps)).1
  {
    ScheduleIrrelevant(ops, init, steps);
  }
}
