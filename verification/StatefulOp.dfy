/**
  The stateful operator: a map from key to state, updated by the messages of its input.
*/
module StatefulOp {
  import opened Basics

  type OperatorId = nat
  type States = map<Key, KeyState>

  // Of the shared collections a message carries its content so far. Epochs, suspend markers and rescale
  // messages are only forwarded.
  datatype Message =
    | Data(rec: Record)
    | Interrogate(tester: Key -> bool, found: set<Key>)
    | Collect(key: Key, collection: map<OperatorId, KeyState>)
    | Acquire(key: Key, collection: map<OperatorId, KeyState>)
    | Barrier(version: nat, saved: map<OperatorId, States>)
    | Other(id: int)

  // `StatefulLogic::on_data`: the new state, if it is to be kept, and what is sent on.
  type Logic = (Record, KeyState) -> (Option<KeyState>, seq<Record>)

  const DefaultState: KeyState := 0

  datatype Operator = Operator(id: OperatorId, logic: Logic)

  function Emit(recs: seq<Record>): seq<Message> {
    seq(|recs|, i requires 0 <= i < |recs| => Data(recs[i]))
  }

  function Step(op: Operator, states: States, msg: Message): (States, seq<Message>) {
    match msg
    case Data(rec) =>
      var (kept, sent) := op.logic(rec, Lookup(states, rec.key).GetOr(DefaultState));
      (match kept case Some(n) => states[rec.key := n] case None => states - {rec.key}, Emit(sent))
    case Interrogate(tester, found) =>
      (states, [Interrogate(tester, found + set k | k in states && tester(k))])
    case Collect(key, collection) =>
      (states - {key},
       [Collect(key, if key in states then collection[op.id := states[key]] else collection)])
    case Acquire(key, collection) =>
      (if op.id in collection then states[key := collection[op.id]] else states,
       [Acquire(key, collection - {op.id})])
    case Barrier(version, saved) =>
      (states, [Barrier(version, saved[op.id := states])])
    case Other(_) => (states, [msg])
  }

  /** The operator as it runs. */
  class StatefulOperator {
    const id: OperatorId
    const logic: Logic
    var states: States

    function Spec(): Operator {
      Operator(id, logic)
    }

    // Starts from what was persisted for this operator, if anything.
    constructor (id: OperatorId, logic: Logic, persisted: Option<States>)
      ensures Spec() == Operator(id, logic) && states == persisted.GetOr(map[])
    {
      this.id, this.logic := id, logic;
      states := persisted.GetOr(map[]);
    }

    // IndexMap::swap_remove
    method Take(key: Key) returns (state: Option<KeyState>)
      modifies this`states
      ensures state == Lookup(old(states), key) && states == old(states) - {key}
    {
      state := Lookup(states, key);
      states := states - {key};
    }

    method Handle(msg: Message) returns (sent: seq<Message>)
      modifies this`states
      ensures (states, sent) == Step(Spec(), old(states), msg)
    {
      match msg
      case Data(rec) =>
        var state := Take(rec.key);
        var (kept, recs) := logic(rec, state.GetOr(DefaultState));
        if kept.Some? {
          states := states[rec.key := kept.value];
        }
        assert states == Step(Spec(), old(states), msg).0;
        sent := Emit(recs);
      case Interrogate(tester, found) =>
        var held := set k | k in states && tester(k);
        sent := [Interrogate(tester, found + held)];
      case Collect(key, collection) =>
        var state := Take(key);
        sent := [Collect(key, if state.Some? then collection[id := state.value] else collection)];
      case Acquire(key, collection) =>
        if id in collection {
          states := states[key := collection[id]];
        }
        sent := [Acquire(key, collection - {id})];
      case Barrier(version, saved) =>
        sent := [Barrier(version, saved[id := states])];
      case Other(_) =>
        sent := [msg];
    }
  }

  // ---------------------------------------------------------------- streams

  // What an operator makes of all its input.
  function RunOp(op: Operator, states: States, msgs: seq<Message>): (States, seq<Message>) {
    if msgs == [] then (states, [])
    else
      var (before, sent) := RunOp(op, states, msgs[..|msgs| - 1]);
      var (after, more) := Step(op, before, msgs[|msgs| - 1]);
      (after, sent + more)
  }

  // Each operator's output is the input of the next.
  function RunChain(ops: seq<Operator>, all: seq<States>, msgs: seq<Message>): (r: (seq<States>, seq<Message>))
    requires |all| == |ops|
    ensures |r.0| == |ops|
  {
    if ops == [] then ([], msgs)
    else
      var (states, sent) := RunOp(ops[0], all[0], msgs);
      var (rest, out) := RunChain(ops[1..], all[1..], sent);
      ([states] + rest, out)
  }

  lemma {:induction false} RunOpConcat(op: Operator, states: States, xs: seq<Message>, ys: seq<Message>)
    ensures var (mid, sent) := RunOp(op, states, xs);
            var (end, more) := RunOp(op, mid, ys);
            RunOp(op, states, xs + ys) == (end, sent + more)
  {
    if ys == [] {
      assert xs + ys == xs;
      assert RunOp(op, states, xs).1 + [] == RunOp(op, states, xs).1;
    } else {
      RunOpConcat(op, states, xs, ys[..|ys| - 1]);
      assert (xs + ys)[..|xs + ys| - 1] == xs + ys[..|ys| - 1];
      var (mid, sent) := RunOp(op, states, xs);
      var (before, more) := RunOp(op, mid, ys[..|ys| - 1]);
      Regroup(sent, more, Step(op, before, ys[|ys| - 1]).1);
    }
  }

  // A stream may be cut anywhere.
  lemma {:induction false} RunChainConcat(ops: seq<Operator>, all: seq<States>, xs: seq<Message>, ys: seq<Message>)
    requires |all| == |ops|
    ensures var (mid, sent) := RunChain(ops, all, xs);
            var (end, more) := RunChain(ops, mid, ys);
            RunChain(ops, all, xs + ys) == (end, sent + more)
  {
    if ops != [] {
      RunOpConcat(ops[0], all[0], xs, ys);
      var (states, sent) := RunOp(ops[0], all[0], xs);
      var (_, more) := RunOp(ops[0], states, ys);
      RunChainConcat(ops[1..], all[1..], sent, more);
      assert RunChain(ops, all, xs).0[1..] == RunChain(ops[1..], all[1..], sent).0;
    }
  }

  lemma RunOne(op: Operator, states: States, msg: Message)
    ensures RunOp(op, states, [msg]) == Step(op, states, msg)
  {
    assert [msg][..0] == [];
    assert [] + Step(op, states, msg).1 == Step(op, states, msg).1;
  }

  lemma {:induction false} NoInput(ops: seq<Operator>, all: seq<States>)
    requires |all| == |ops|
    ensures RunChain(ops, all, []) == (all, [])
  {
    if ops == [] {
      assert all == [];
    } else {
      NoInput(ops[1..], all[1..]);
      assert [all[0]] + all[1..] == all;
    }
  }

  // ---------------------------------------------------------------- control messages

  // What a message is, whatever it has collected on its way; nothing for a record.
  function Frame(m: Message): seq<Message> {
    match m
    case Data(_) => []
    case Interrogate(tester, _) => [Interrogate(tester, {})]
    case Collect(key, _) => [Collect(key, map[])]
    case Acquire(key, _) => [Acquire(key, map[])]
    case Barrier(version, _) => [Barrier(version, map[])]
    case Other(id) => [Other(id)]
  }

  function Frames(msgs: seq<Message>): seq<Message> {
    if msgs == [] then [] else Frames(msgs[..|msgs| - 1]) + Frame(msgs[|msgs| - 1])
  }

  lemma {:induction false} FramesConcat(xs: seq<Message>, ys: seq<Message>)
    ensures Frames(xs + ys) == Frames(xs) + Frames(ys)
  {
    if ys == [] {
      assert xs + ys == xs;
    } else {
      FramesConcat(xs, ys[..|ys| - 1]);
      assert (xs + ys)[..|xs + ys| - 1] == xs + ys[..|ys| - 1];
      Regroup(Frames(xs), Frames(ys[..|ys| - 1]), Frame(ys[|ys| - 1]));
    }
  }

  lemma {:induction false} NoFrames(recs: seq<Record>)
    ensures Frames(Emit(recs)) == []
  {
    if recs != [] {
      NoFrames(recs[..|recs| - 1]);
      assert Emit(recs)[..|recs| - 1] == Emit(recs[..|recs| - 1]);
    }
  }

  lemma FramesOne(m: Message)
    ensures Frames([m]) == Frame(m)
  {
    assert [m][..0] == [];
  }

  lemma {:induction false} OperatorPasses(op: Operator, states: States, msgs: seq<Message>)
    ensures Frames(RunOp(op, states, msgs).1) == Frames(msgs)
  {
    if msgs != [] {
      var last := msgs[|msgs| - 1];
      OperatorPasses(op, states, msgs[..|msgs| - 1]);
      var (before, sent) := RunOp(op, states, msgs[..|msgs| - 1]);
      FramesConcat(sent, Step(op, before, last).1);
      StepPasses(op, before, last);
    }
  }

  lemma StepPasses(op: Operator, states: States, m: Message)
    ensures Frames(Step(op, states, m).1) == Frame(m)
  {
    if m.Data? {
      NoFrames(op.logic(m.rec, Lookup(states, m.rec.key).GetOr(DefaultState)).1);
    } else {
      FramesOne(Step(op, states, m).1[0]);
    }
  }

  /** Every epoch, suspend marker, rescale message, barrier, Interrogate, Collect and Acquire that enters a chain
      leaves it, once and in its order, and no other. */
  lemma {:induction false} ChainPasses(ops: seq<Operator>, all: seq<States>, msgs: seq<Message>)
    requires |all| == |ops|
    ensures Frames(RunChain(ops, all, msgs).1) == Frames(msgs)
  {
    if ops != [] {
      OperatorPasses(ops[0], all[0], msgs);
      ChainPasses(ops[1..], all[1..], RunOp(ops[0], all[0], msgs).1);
    }
  }

  // A control message alone leaves a chain alone; most change no state.
  lemma {:induction false} ControlAlone(ops: seq<Operator>, all: seq<States>, m: Message)
    requires |all| == |ops| && !m.Data?
    ensures var (after, one) := RunChain(ops, all, [m]);
            && |one| == 1 && Frame(one[0]) == Frame(m) && !one[0].Data?
            && (m.Other? ==> one == [m])
            && (!m.Collect? && !m.Acquire? ==> after == all)
  {
    if ops != [] {
      RunOne(ops[0], all[0], m);
      var (states, sent) := Step(ops[0], all[0], m);
      assert sent == [sent[0]];
      ControlAlone(ops[1..], all[1..], sent[0]);
      assert [all[0]] + all[1..] == all;
    }
  }

  /** It keeps its place: what leaves ahead of it is what the chain makes of the messages ahead of it, what
      leaves behind it comes from those behind it. Epochs, suspend markers and rescale messages leave as they
      are; of all control messages only Collect and Acquire change a state. */
  lemma ControlKeepsPlace(ops: seq<Operator>, all: seq<States>, xs: seq<Message>, m: Message, ys: seq<Message>)
    requires |all| == |ops| && !m.Data?
    ensures var (mid, sent) := RunChain(ops, all, xs);
            var (after, one) := RunChain(ops, mid, [m]);
            var (end, more) := RunChain(ops, after, ys);
            && RunChain(ops, all, xs + [m] + ys) == (end, sent + one + more)
            && |one| == 1 && Frame(one[0]) == Frame(m)
            && (m.Other? ==> one == [m])
            && (!m.Collect? && !m.Acquire? ==> after == mid)
  {
    RunChainConcat(ops, all, xs, [m]);
    RunChainConcat(ops, all, xs + [m], ys);
    ControlAlone(ops, RunChain(ops, all, xs).0, m);
  }

  // ---------------------------------------------------------------- one key

  // Records of a keyed stream keep their key.
  ghost predicate KeepsKey(op: Operator) {
    forall rec, state, i :: 0 <= i < |op.logic(rec, state).1| ==> op.logic(rec, state).1[i].key == rec.key
  }

  ghost predicate KeepKeys(ops: seq<Operator>) {
    forall i :: 0 <= i < |ops| ==> KeepsKey(ops[i])
  }

  // Neither collects nor acquires the key.
  ghost predicate Undisturbed(msgs: seq<Message>, key: Key) {
    forall m :: m in msgs && (m.Collect? || m.Acquire?) ==> m.key != key
  }

  function RecordsOf(msgs: seq<Message>, key: Key): seq<Record> {
    if msgs == [] then []
    else
      var m := msgs[|msgs| - 1];
      RecordsOf(msgs[..|msgs| - 1], key) + (if m.Data? && m.rec.key == key then [m.rec] else [])
  }

  /** The simple thing: fold the logic over the records of a single key. */
  function FoldOp(op: Operator, state: Option<KeyState>, recs: seq<Record>): (Option<KeyState>, seq<Record>) {
    if recs == [] then (state, [])
    else
      var (before, sent) := FoldOp(op, state, recs[..|recs| - 1]);
      var (after, more) := op.logic(recs[|recs| - 1], before.GetOr(DefaultState));
      (after, sent + more)
  }

  function FoldChain(ops: seq<Operator>, states: seq<Option<KeyState>>, recs: seq<Record>)
    : (r: (seq<Option<KeyState>>, seq<Record>))
    requires |states| == |ops|
    ensures |r.0| == |ops|
  {
    if ops == [] then ([], recs)
    else
      var (state, sent) := FoldOp(ops[0], states[0], recs);
      var (rest, out) := FoldChain(ops[1..], states[1..], sent);
      ([state] + rest, out)
  }

  function StatesOf(all: seq<States>, key: Key): seq<Option<KeyState>> {
    seq(|all|, i requires 0 <= i < |all| => Lookup(all[i], key))
  }

  lemma {:induction false} RecordsOfConcat(xs: seq<Message>, ys: seq<Message>, key: Key)
    ensures RecordsOf(xs + ys, key) == RecordsOf(xs, key) + RecordsOf(ys, key)
  {
    if ys == [] {
      assert xs + ys == xs;
    } else {
      RecordsOfConcat(xs, ys[..|ys| - 1], key);
      assert (xs + ys)[..|xs + ys| - 1] == xs + ys[..|ys| - 1];
    }
  }

  lemma RecordsOfOne(m: Message, key: Key)
    ensures RecordsOf([m], key) == if m.Data? && m.rec.key == key then [m.rec] else []
    ensures RecordsOf([], key) == []
  {
    assert [m][..0] == [];
  }

  lemma {:induction false} RecordsOfEmit(recs: seq<Record>, key: Key, of: Key)
    requires forall i :: 0 <= i < |recs| ==> recs[i].key == of
    ensures RecordsOf(Emit(recs), key) == if key == of then recs else []
  {
    if recs != [] {
      RecordsOfEmit(recs[..|recs| - 1], key, of);
      assert Emit(recs)[..|recs| - 1] == Emit(recs[..|recs| - 1]);
    }
  }

  lemma StepIsFold(op: Operator, states: States, msg: Message, key: Key)
    requires KeepsKey(op) && Undisturbed([msg], key)
    ensures var (after, sent) := Step(op, states, msg);
            && Undisturbed(sent, key)
            && (Lookup(after, key), RecordsOf(sent, key)) == FoldOp(op, Lookup(states, key), RecordsOf([msg], key))
  {
    assert msg in [msg];
    RecordsOfOne(msg, key);
    var (after, sent) := Step(op, states, msg);
    match msg
    case Data(rec) =>
      var state := Lookup(states, rec.key).GetOr(DefaultState);
      var recs := op.logic(rec, state).1;
      assert forall i :: 0 <= i < |recs| ==> op.logic(rec, state).1[i].key == rec.key;
      RecordsOfEmit(recs, key, rec.key);
      assert [rec][..0] == [];
      if rec.key == key {
        assert FoldOp(op, Lookup(states, key), []) == (Lookup(states, key), []);
        assert [] + recs == recs;
      }
    case _ =>
      RecordsOfOne(sent[0], key);
  }

  lemma {:induction false} FoldOpConcat(op: Operator, state: Option<KeyState>, xs: seq<Record>, ys: seq<Record>)
    ensures var (mid, sent) := FoldOp(op, state, xs);
            var (end, more) := FoldOp(op, mid, ys);
            FoldOp(op, state, xs + ys) == (end, sent + more)
  {
    if ys == [] {
      assert xs + ys == xs;
      assert FoldOp(op, state, xs).1 + [] == FoldOp(op, state, xs).1;
    } else {
      FoldOpConcat(op, state, xs, ys[..|ys| - 1]);
      assert (xs + ys)[..|xs + ys| - 1] == xs + ys[..|ys| - 1];
      var (mid, sent) := FoldOp(op, state, xs);
      var (before, more) := FoldOp(op, mid, ys[..|ys| - 1]);
      Regroup(sent, more, op.logic(ys[|ys| - 1], before.GetOr(DefaultState)).1);
    }
  }

  // A stateful operator is, for each key, the fold over the records of that key.
  lemma {:induction false} OperatorIsFold(op: Operator, states: States, msgs: seq<Message>, key: Key)
    requires KeepsKey(op) && Undisturbed(msgs, key)
    ensures var (after, sent) := RunOp(op, states, msgs);
            && Undisturbed(sent, key)
            && (Lookup(after, key), RecordsOf(sent, key)) == FoldOp(op, Lookup(states, key), RecordsOf(msgs, key))
  {
    if msgs != [] {
      var last := |msgs| - 1;
      OperatorIsFold(op, states, msgs[..last], key);
      var (before, sent) := RunOp(op, states, msgs[..last]);
      StepIsFold(op, before, msgs[last], key);
      RecordsOfConcat(sent, Step(op, before, msgs[last]).1, key);
      RecordsOfOne(msgs[last], key);
      FoldOpConcat(op, Lookup(states, key), RecordsOf(msgs[..last], key), RecordsOf([msgs[last]], key));
    }
  }

  /** The same for a chain of operators, whatever else passes through it. */
  lemma {:induction false} ChainIsFold(ops: seq<Operator>, all: seq<States>, msgs: seq<Message>, key: Key)
    requires |all| == |ops| && KeepKeys(ops) && Undisturbed(msgs, key)
    ensures var (after, out) := RunChain(ops, all, msgs);
            && Undisturbed(out, key)
            && (StatesOf(after, key), RecordsOf(out, key)) == FoldChain(ops, StatesOf(all, key), RecordsOf(msgs, key))
  {
    if ops == [] {
      assert StatesOf(all, key) == [];
    } else {
      OperatorIsFold(ops[0], all[0], msgs, key);
      var (states, sent) := RunOp(ops[0], all[0], msgs);
      ChainIsFold(ops[1..], all[1..], sent, key);
      assert StatesOf(all, key)[1..] == StatesOf(all[1..], key);
      assert StatesOf([states] + RunChain(ops[1..], all[1..], sent).0, key) ==
             [Lookup(states, key)] + StatesOf(RunChain(ops[1..], all[1..], sent).0, key);
    }
  }

  lemma {:induction false} FoldChainConcat(ops: seq<Operator>, states: seq<Option<KeyState>>, xs: seq<Record>, ys: seq<Record>)
    requires |states| == |ops|
    ensures var (mid, sent) := FoldChain(ops, states, xs);
            var (end, more) := FoldChain(ops, mid, ys);
            FoldChain(ops, states, xs + ys) == (end, sent + more)
  {
    if ops != [] {
      FoldOpConcat(ops[0], states[0], xs, ys);
      var (state, sent) := FoldOp(ops[0], states[0], xs);
      var (_, more) := FoldOp(ops[0], state, ys);
      FoldChainConcat(ops[1..], states[1..], sent, more);
      assert FoldChain(ops, states, xs).0[1..] == FoldChain(ops[1..], states[1..], sent).0;
    }
  }
}
