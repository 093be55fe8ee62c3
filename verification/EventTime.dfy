/**
  Generating epochs from the timestamps of a stream, and splitting off what is late.
*/
module EventTime {
  import opened Basics

  datatype Input = Data(id: int, time: int) | Epoch(time: int) | Other(id: int)

  datatype Output = OnTime(id: int, time: int) | Late(id: int, time: int) | NewEpoch(time: int) | Forward(id: int)

  // The user's function for proposing epochs. It may keep state, so it sees all that came before; the last
  // input is the current one.
  type Generator = (seq<Input>, Option<int>) -> Option<int>

  // `handle_maybe_late_msg`
  function Classify(previous: Option<int>, id: int, time: int): Output {
    if previous.Some? && time <= previous.value then Late(id, time) else OnTime(id, time)
  }

  function Step(gen: Generator, seen: seq<Input>, previous: Option<int>, input: Input): (Option<int>, seq<Output>) {
    match input
    case Data(id, time) =>
      var proposed := gen(seen + [input], previous);
      if proposed.Some? && (previous.None? || proposed.value > previous.value) then
        (proposed, [Classify(previous, id, time), NewEpoch(proposed.value)])
      else (previous, [Classify(previous, id, time)])
    case Epoch(e) =>
      if previous.None? || previous.value < e then (Some(e), [NewEpoch(e)]) else (previous, [])
    case Other(id) => (previous, [Forward(id)])
  }

  /** The operator as it runs. `seen` stands for whatever the user's function remembers. */
  class EpochGenerator {
    const gen: Generator
    var seen: seq<Input>
    var previous: Option<int>

    constructor (gen: Generator, persisted: Option<int>)
      ensures this.gen == gen && seen == [] && previous == persisted
    {
      this.gen, seen, previous := gen, [], persisted;
    }

    method Handle(input: Input) returns (sent: seq<Output>)
      modifies this
      ensures (previous, sent) == Step(gen, old(seen), old(previous), input) && seen == old(seen) + [input]
    {
      sent := [];
      seen := seen + [input];
      match input
      case Data(id, time) =>
        var proposed := gen(seen, previous);
        sent := [Classify(previous, id, time)];
        match (proposed, previous) {
          case (None, _) =>
          case (Some(x), None) =>
            sent := sent + [NewEpoch(x)];
            previous := Some(x);
          case (Some(x), Some(y)) =>
            if x > y {
              sent := sent + [NewEpoch(x)];
              previous := Some(x);
            }
        }
        assert sent == Step(gen, old(seen), old(previous), input).1;
      case Epoch(e) =>
        if previous.None? || previous.value < e {
          previous := Some(e);
          sent := [NewEpoch(e)];
        }
      case Other(id) =>
        sent := [Forward(id)];
    }
  }

  function Run(gen: Generator, start: Option<int>, inputs: seq<Input>): (Option<int>, seq<Output>) {
    if inputs == [] then (start, [])
    else
      var (previous, sent) := Run(gen, start, inputs[..|inputs| - 1]);
      var (now, more) := Step(gen, inputs[..|inputs| - 1], previous, inputs[|inputs| - 1]);
      (now, sent + more)
  }

  // ---------------------------------------------------------------- any generator

  // Epochs strictly increase from `start` on; a record is on time exactly if it is above every epoch so far.
  ghost predicate Sound(start: Option<int>, outs: seq<Output>) {
    && (forall i :: 0 <= i < |outs| && start.Some? ==>
          match outs[i]
          case NewEpoch(e) => start.value < e
          case OnTime(_, t) => start.value < t
          case _ => true)
    && (forall i, j :: 0 <= i < j < |outs| && outs[i].NewEpoch? ==>
          match outs[j]
          case NewEpoch(e) => outs[i].time < e
          case OnTime(_, t) => outs[i].time < t
          case _ => true)
    && (forall j :: 0 <= j < |outs| && outs[j].Late? ==> Overtaken(start, outs[..j], outs[j].time))
  }

  // Some epoch is at or above t.
  ghost predicate Overtaken(start: Option<int>, outs: seq<Output>, t: int) {
    (start.Some? && t <= start.value) || exists i :: 0 <= i < |outs| && outs[i].NewEpoch? && t <= outs[i].time
  }

  // The last epoch is what the operator remembers.
  ghost predicate Remembers(start: Option<int>, outs: seq<Output>, previous: Option<int>) {
    && (forall i :: 0 <= i < |outs| && outs[i].NewEpoch? ==> previous.Some? && outs[i].time <= previous.value)
    && (start.Some? ==> previous.Some? && start.value <= previous.value)
    && (previous.Some? ==> previous == start || exists i :: 0 <= i < |outs| && outs[i] == NewEpoch(previous.value))
  }

  lemma SoundAppend(start: Option<int>, outs: seq<Output>, previous: Option<int>, out: Output)
    requires Sound(start, outs) && Remembers(start, outs, previous)
    requires match out
             case OnTime(_, t) => previous.None? || previous.value < t
             case Late(_, t) => previous.Some? && t <= previous.value
             case NewEpoch(e) => previous.None? || previous.value < e
             case Forward(_) => true
    ensures Sound(start, outs + [out])
    ensures Remembers(start, outs + [out], if out.NewEpoch? then Some(out.time) else previous)
  {
    var outs1 := outs + [out];
    forall j | 0 <= j < |outs1| && outs1[j].Late? ensures Overtaken(start, outs1[..j], outs1[j].time) {
      assert outs1[..j] == outs[..j];
    }
    assert outs1[|outs|] == out;
    if previous.Some? && previous != start && !out.NewEpoch? {
      var i :| 0 <= i < |outs| && outs[i] == NewEpoch(previous.value);
      assert outs1[i] == NewEpoch(previous.value);
    }
  }

  /** For every generator and every input: emitted epochs strictly increase, on-time records are above every
      epoch emitted before them, late ones are not. */
  lemma {:induction false} EpochsAreSound(gen: Generator, start: Option<int>, inputs: seq<Input>)
    ensures var (previous, outs) := Run(gen, start, inputs);
            Sound(start, outs) && Remembers(start, outs, previous)
  {
    if inputs != [] {
      var last := |inputs| - 1;
      EpochsAreSound(gen, start, inputs[..last]);
      var (previous, outs) := Run(gen, start, inputs[..last]);
      var (now, more) := Step(gen, inputs[..last], previous, inputs[last]);
      if |more| > 0 {
        SoundAppend(start, outs, previous, more[0]);
        assert |more| == 1 ==> outs + more == outs + [more[0]];
      } else {
        assert outs + more == outs;
      }
      if |more| > 1 {
        SoundAppend(start, outs + [more[0]], previous, more[1]);
        assert outs + more == outs + [more[0]] + [more[1]];
      }
    }
  }

  // A record, or another message that is only forwarded.
  datatype Passed = Stamped(id: int, time: int) | Plain(id: int)

  function Entered(inputs: seq<Input>): seq<Passed> {
    if inputs == [] then []
    else
      Entered(inputs[..|inputs| - 1]) + EnteredOne(inputs[|inputs| - 1])
  }

  function EnteredOne(input: Input): seq<Passed> {
    match input
    case Data(id, time) => [Stamped(id, time)]
    case Epoch(_) => []
    case Other(id) => [Plain(id)]
  }

  // What leaves in both output streams except epochs, in the order in which it was sent.
  function Sent(outs: seq<Output>): seq<Passed> {
    if outs == [] then []
    else
      Sent(outs[..|outs| - 1]) +
      (match outs[|outs| - 1]
       case OnTime(id, time) => [Stamped(id, time)]
       case Late(id, time) => [Stamped(id, time)]
       case NewEpoch(_) => []
       case Forward(id) => [Plain(id)])
  }

  lemma {:induction false} SentConcat(outs: seq<Output>, more: seq<Output>)
    ensures Sent(outs + more) == Sent(outs) + Sent(more)
  {
    if more == [] {
      assert outs + more == outs;
    } else {
      SentConcat(outs, more[..|more| - 1]);
      assert (outs + more)[..|outs + more| - 1] == outs + more[..|more| - 1];
    }
  }

  lemma SentStep(gen: Generator, seen: seq<Input>, previous: Option<int>, input: Input)
    ensures Sent(Step(gen, seen, previous, input).1) == EnteredOne(input)
  {
    var more := Step(gen, seen, previous, input).1;
    if |more| > 0 {
      assert more[..1] == [more[0]] && more[..1][..0] == [];
      assert more[..0] == [];
      assert Sent(more[..1]) == EnteredOne(input);
    }
  }

  /** On-time and late records and all other messages together are those of the input, each once and in order. */
  lemma {:induction false} SplitLosesNothing(gen: Generator, start: Option<int>, inputs: seq<Input>)
    ensures Sent(Run(gen, start, inputs).1) == Entered(inputs)
  {
    if inputs != [] {
      var last := |inputs| - 1;
      SplitLosesNothing(gen, start, inputs[..last]);
      var (previous, outs) := Run(gen, start, inputs[..last]);
      SentConcat(outs, Step(gen, inputs[..last], previous, inputs[last]).1);
      SentStep(gen, inputs[..last], previous, inputs[last]);
    }
  }

  // ---------------------------------------------------------------- limit_out_of_orderness

  function Limit(bound: int): Generator {
    (seen: seq<Input>, last: Option<int>) =>
      if seen == [] || !seen[|seen| - 1].Data? then None
      else
        var epoch := seen[|seen| - 1].time - bound;
        if last.Some? && epoch <= last.value then None else Some(epoch)
  }

  // What each input alone would allow as the epoch.
  function Marks(bound: int, inputs: seq<Input>): seq<int> {
    if inputs == [] then []
    else
      Marks(bound, inputs[..|inputs| - 1]) +
      (match inputs[|inputs| - 1]
       case Data(_, t) => [t - bound]
       case Epoch(e) => [e]
       case Other(_) => [])
  }

  ghost predicate IsHighest(marks: seq<int>, start: Option<int>, h: Option<int>) {
    && (h.None? <==> marks == [] && start.None?)
    && (start.Some? ==> h.Some? && start.value <= h.value)
    && (h.Some? ==> (h == start || h.value in marks) && forall i :: 0 <= i < |marks| ==> marks[i] <= h.value)
  }

  lemma {:induction false} LimitIsHighest(bound: int, start: Option<int>, inputs: seq<Input>)
    ensures IsHighest(Marks(bound, inputs), start, Run(Limit(bound), start, inputs).0)
  {
    if inputs != [] {
      LimitIsHighest(bound, start, inputs[..|inputs| - 1]);
    }
  }

  // t is not above a mark.
  ghost predicate NotAbove(marks: seq<int>, start: Option<int>, t: int) {
    (start.Some? && t <= start.value) || exists i :: 0 <= i < |marks| && t <= marks[i]
  }

  /** A record is late exactly if its time is at or below the largest earlier time minus the bound or the
      largest earlier epoch. */
  lemma LateIff(bound: int, start: Option<int>, inputs: seq<Input>, id: int, t: int)
    ensures var (previous, outs) := Run(Limit(bound), start, inputs);
            var more := Step(Limit(bound), inputs, previous, Data(id, t)).1;
            && Run(Limit(bound), start, inputs + [Data(id, t)]).1 == outs + more
            && more != []
            && more[0] == (if NotAbove(Marks(bound, inputs), start, t) then Late(id, t) else OnTime(id, t))
  {
    assert (inputs + [Data(id, t)])[..|inputs|] == inputs;
    LimitIsHighest(bound, start, inputs);
    var marks := Marks(bound, inputs);
    var previous := Run(Limit(bound), start, inputs).0;
    if NotAbove(marks, start, t) {
      assert previous.Some? && t <= previous.value;
    } else if previous.Some? && previous != start {
      var i :| 0 <= i < |marks| && marks[i] == previous.value;
    }
  }

  ghost predicate StrictlyIncreasing(outs: seq<Output>) {
    forall i, j :: 0 <= i < j < |outs| && outs[i].OnTime? && outs[j].OnTime? ==> outs[i].time < outs[j].time
  }

  // With no tolerance, what is remembered is at or above every record so far.
  ghost predicate Covers(outs: seq<Output>, previous: Option<int>) {
    forall i :: 0 <= i < |outs| && (outs[i].OnTime? || outs[i].Late?) ==> previous.Some? && outs[i].time <= previous.value
  }

  lemma {:induction false} NoToleranceSorts(bound: int, start: Option<int>, inputs: seq<Input>)
    requires bound <= 0
    ensures var (previous, outs) := Run(Limit(bound), start, inputs);
            StrictlyIncreasing(outs) && Covers(outs, previous)
  {
    if inputs != [] {
      NoToleranceSorts(bound, start, inputs[..|inputs| - 1]);
    }
  }

  /** On-time records are in strictly increasing order for all inputs exactly if the bound is not positive. */
  lemma SortsIff(bound: int)
    ensures (forall start, inputs :: StrictlyIncreasing(Run(Limit(bound), start, inputs).1)) <==> bound <= 0
  {
    if bound <= 0 {
      forall start, inputs ensures StrictlyIncreasing(Run(Limit(bound), start, inputs).1) {
        NoToleranceSorts(bound, start, inputs);
      }
    } else {
      TwoAlike(bound);
    }
  }

  // Two records at the same time are both on time.
  lemma TwoAlike(bound: int)
    requires bound > 0
    ensures !StrictlyIncreasing(Run(Limit(bound), None, [Data(0, 0), Data(1, 0)]).1)
  {
    var inputs := [Data(0, 0), Data(1, 0)];
    assert inputs[..1] == [Data(0, 0)];
    var outs := [OnTime(0, 0), NewEpoch(-bound), OnTime(1, 0)];
    var first := [Data(0, 0)];
    assert first[..|first| - 1] == [];
    assert Run(Limit(bound), None, []) == (None, []);
    assert [] + [Data(0, 0)] == [Data(0, 0)];
    assert Step(Limit(bound), [], None, Data(0, 0)) == (Some(-bound), [OnTime(0, 0), NewEpoch(-bound)]);
    var sent := [OnTime(0, 0), NewEpoch(-bound)];
    assert [] + sent == sent;
    assert Run(Limit(bound), None, first) == (Some(-bound), [OnTime(0, 0), NewEpoch(-bound)]);
    assert Run(Limit(bound), None, inputs).1 == outs;
    assert outs[0].OnTime? && outs[2].OnTime?;
  }
}
