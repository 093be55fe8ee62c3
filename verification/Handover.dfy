/**
  Moving one key between two workers that run the same chain of stateful operators.
*/
module Handover {
  import opened Basics
  import opened StatefulOp

  // Operator ids are checked to be unique when a worker is built.
  predicate DistinctIds(ops: seq<Operator>) {
    forall i, j :: 0 <= i < j < |ops| ==> ops[i].id != ops[j].id
  }

  predicate NoneOf(ops: seq<Operator>, ids: set<OperatorId>) {
    forall i :: 0 <= i < |ops| ==> ops[i].id !in ids
  }

  // ---------------------------------------------------------------- interrogate

  /** An interrogation that leaves the chain has found exactly the keys to move with state in any operator,
      whatever was still on its way when it was sent: the chain is FIFO. */
  lemma {:induction false} InterrogationFindsAll(ops: seq<Operator>, all: seq<States>, tester: Key -> bool, found: set<Key>)
    requires |all| == |ops|
    ensures var (after, out) := RunChain(ops, all, [Interrogate(tester, found)]);
            && after == all && |out| == 1 && out[0].Interrogate? && out[0].tester == tester
            && forall k :: k in out[0].found <==> k in found || (tester(k) && exists i :: 0 <= i < |all| && k in all[i])
  {
    if ops != [] {
      RunOne(ops[0], all[0], Interrogate(tester, found));
      var held := found + set k | k in all[0] && tester(k);
      InterrogationFindsAll(ops[1..], all[1..], tester, held);
      var out := RunChain(ops, all, [Interrogate(tester, found)]).1;
      forall k ensures k in out[0].found <==> k in found || (tester(k) && exists i :: 0 <= i < |all| && k in all[i]) {
        if k in out[0].found && k !in held {
          var i :| 0 <= i < |all[1..]| && k in all[1..][i];
          assert k in all[i + 1];
        }
        if i :| 0 <= i < |all| && k in all[i] {
          if i > 0 { assert k in all[1..][i - 1]; }
        }
      }
    }
  }

  // ---------------------------------------------------------------- collect

  function Without(all: seq<States>, key: Key): seq<States> {
    seq(|all|, i requires 0 <= i < |all| => all[i] - {key})
  }

  // Exactly the states the operators hold for the key, each under its operator's id.
  ghost predicate Holds(ops: seq<Operator>, all: seq<States>, key: Key, collection: map<OperatorId, KeyState>)
    requires |all| == |ops|
  {
    forall i :: 0 <= i < |ops| ==> Lookup(collection, ops[i].id) == Lookup(all[i], key)
  }

  function Collected(ops: seq<Operator>, all: seq<States>, key: Key, c: map<OperatorId, KeyState>): map<OperatorId, KeyState>
    requires |all| == |ops|
  {
    if ops == [] then c
    else Collected(ops[1..], all[1..], key, if key in all[0] then c[ops[0].id := all[0][key]] else c)
  }

  lemma {:induction false} CollectedOthers(ops: seq<Operator>, all: seq<States>, key: Key, c: map<OperatorId, KeyState>, id: OperatorId)
    requires |all| == |ops| && forall i :: 0 <= i < |ops| ==> ops[i].id != id
    ensures Lookup(Collected(ops, all, key, c), id) == Lookup(c, id)
  {
    if ops != [] {
      assert ops[0].id != id;
      CollectedOthers(ops[1..], all[1..], key, if key in all[0] then c[ops[0].id := all[0][key]] else c, id);
    }
  }

  lemma {:induction false} CollectedIs(ops: seq<Operator>, all: seq<States>, key: Key, c: map<OperatorId, KeyState>, i: nat)
    requires |all| == |ops| && DistinctIds(ops) && NoneOf(ops, c.Keys) && i < |ops|
    ensures Lookup(Collected(ops, all, key, c), ops[i].id) == Lookup(all[i], key)
  {
    var c1 := if key in all[0] then c[ops[0].id := all[0][key]] else c;
    if i == 0 {
      assert ops[0].id !in c;
      CollectedOthers(ops[1..], all[1..], key, c1, ops[0].id);
    } else {
      CollectedIs(ops[1..], all[1..], key, c1, i - 1);
    }
  }

  lemma {:induction false} CollectPasses(ops: seq<Operator>, all: seq<States>, key: Key, c: map<OperatorId, KeyState>)
    requires |all| == |ops|
    ensures RunChain(ops, all, [Collect(key, c)]) == (Without(all, key), [Collect(key, Collected(ops, all, key, c))])
  {
    if ops != [] {
      RunOne(ops[0], all[0], Collect(key, c));
      CollectPasses(ops[1..], all[1..], key, if key in all[0] then c[ops[0].id := all[0][key]] else c);
      assert Without(all, key) == [all[0] - {key}] + Without(all[1..], key);
    } else {
      assert Without(all, key) == [];
    }
  }

  lemma CollectTakesAll(ops: seq<Operator>, all: seq<States>, key: Key)
    requires |all| == |ops| && DistinctIds(ops)
    ensures var (after, out) := RunChain(ops, all, [Collect(key, map[])]);
            && after == Without(all, key)
            && |out| == 1 && out[0].Collect? && out[0].key == key
            && Holds(ops, all, key, out[0].collection)
  {
    CollectPasses(ops, all, key, map[]);
    forall i | 0 <= i < |ops| ensures Lookup(Collected(ops, all, key, map[]), ops[i].id) == Lookup(all[i], key) {
      CollectedIs(ops, all, key, map[], i);
    }
  }

  // ---------------------------------------------------------------- acquire

  function Taking(ops: seq<Operator>, all: seq<States>, key: Key, c: map<OperatorId, KeyState>): seq<States>
    requires |all| == |ops|
  {
    seq(|ops|, i requires 0 <= i < |ops| => if ops[i].id in c then all[i][key := c[ops[i].id]] else all[i])
  }

  lemma {:induction false} AcquireDelivers(ops: seq<Operator>, all: seq<States>, key: Key, c: map<OperatorId, KeyState>)
    requires |all| == |ops| && DistinctIds(ops)
    ensures var (after, out) := RunChain(ops, all, [Acquire(key, c)]);
            && after == Taking(ops, all, key, c)
            && |out| == 1 && out[0].Acquire? && out[0].key == key
  {
    if ops != [] {
      RunOne(ops[0], all[0], Acquire(key, c));
      AcquireDelivers(ops[1..], all[1..], key, c - {ops[0].id});
      var after := RunChain(ops, all, [Acquire(key, c)]).0;
      forall i | 0 <= i < |ops| ensures after[i] == Taking(ops, all, key, c)[i] {
        if i > 0 {
          assert after[i] == Taking(ops[1..], all[1..], key, c - {ops[0].id})[i - 1];
          assert ops[1..][i - 1] == ops[i];
        }
      }
    }
  }

  // ---------------------------------------------------------------- the whole move

  // The worker that gives the key up.
  function GiveUp(ops: seq<Operator>, all: seq<States>, xs: seq<Message>, key: Key): (r: (seq<States>, seq<Message>))
    requires |all| == |ops|
    ensures |r.0| == |ops|
  {
    RunChain(ops, all, xs + [Collect(key, map[])])
  }

  // The worker that takes it over.
  function TakeOver(ops: seq<Operator>, all: seq<States>, key: Key, c: map<OperatorId, KeyState>, ys: seq<Message>)
    : (r: (seq<States>, seq<Message>))
    requires |all| == |ops|
    ensures |r.0| == |ops|
  {
    RunChain(ops, all, [Acquire(key, c)] + ys)
  }

  lemma GivingUp(ops: seq<Operator>, all: seq<States>, xs: seq<Message>, key: Key)
    requires |all| == |ops| && DistinctIds(ops)
    ensures var (mid, sent) := RunChain(ops, all, xs);
            var (after, out) := GiveUp(ops, all, xs, key);
            && after == Without(mid, key)
            && |out| == |sent| + 1 && out[..|sent|] == sent
            && out[|sent|].Collect? && out[|sent|].key == key
            && Holds(ops, mid, key, out[|sent|].collection)
  {
    RunChainConcat(ops, all, xs, [Collect(key, map[])]);
    CollectTakesAll(ops, RunChain(ops, all, xs).0, key);
  }

  /** The state for the key is, in every operator, what one worker would have computed from all records; so is
      the output of the two workers together. The old worker holds nothing for the key afterwards. */
  lemma HandoverIsInvisible(ops: seq<Operator>, from: seq<States>, to: seq<States>, xs: seq<Message>, ys: seq<Message>, key: Key)
    requires |from| == |to| == |ops| && DistinctIds(ops) && KeepKeys(ops)
    requires Undisturbed(xs, key) && Undisturbed(ys, key)
    requires forall i :: 0 <= i < |to| ==> key !in to[i]
    ensures var (left, out) := GiveUp(ops, from, xs, key);
            && out != [] && out[|out| - 1].Collect?
            && var (taken, more) := TakeOver(ops, to, key, out[|out| - 1].collection, ys);
            && (StatesOf(taken, key), RecordsOf(out + more, key)) ==
                 FoldChain(ops, StatesOf(from, key), RecordsOf(xs + ys, key))
            && forall i :: 0 <= i < |left| ==> key !in left[i]
  {
    GivingUp(ops, from, xs, key);
    var (mid, sent) := RunChain(ops, from, xs);
    var (left, out) := GiveUp(ops, from, xs, key);
    var c := out[|sent|].collection;
    ChainIsFold(ops, from, xs, key);
    TakingOver(ops, mid, to, key, c, ys);
    var (_, more) := TakeOver(ops, to, key, c, ys);
    FoldChainConcat(ops, StatesOf(from, key), RecordsOf(xs, key), RecordsOf(ys, key));
    RecordsOfConcat(xs, ys, key);
    RecordsJoined(out, sent, more, key);
  }

  // From the collected states on, the new worker goes on as the old one would have.
  lemma TakingOver(ops: seq<Operator>, mid: seq<States>, to: seq<States>, key: Key, c: map<OperatorId, KeyState>, ys: seq<Message>)
    requires |mid| == |to| == |ops| && DistinctIds(ops) && KeepKeys(ops)
    requires Undisturbed(ys, key) && Holds(ops, mid, key, c)
    requires forall i :: 0 <= i < |to| ==> key !in to[i]
    ensures var (taken, more) := TakeOver(ops, to, key, c, ys);
            (StatesOf(taken, key), RecordsOf(more, key)) == FoldChain(ops, StatesOf(mid, key), RecordsOf(ys, key))
  {
    AcquireRestores(ops, mid, to, key, c);
    var (start, first) := RunChain(ops, to, [Acquire(key, c)]);
    RunChainConcat(ops, to, [Acquire(key, c)], ys);
    ChainIsFold(ops, start, ys, key);
    RecordsBehind(first, RunChain(ops, start, ys).1, key);
  }

  lemma AcquireRestores(ops: seq<Operator>, mid: seq<States>, to: seq<States>, key: Key, c: map<OperatorId, KeyState>)
    requires |mid| == |to| == |ops| && DistinctIds(ops) && Holds(ops, mid, key, c)
    requires forall i :: 0 <= i < |to| ==> key !in to[i]
    ensures var (start, first) := RunChain(ops, to, [Acquire(key, c)]);
            StatesOf(start, key) == StatesOf(mid, key) && |first| == 1 && !first[0].Data?
  {
    AcquireDelivers(ops, to, key, c);
    var start := Taking(ops, to, key, c);
    forall i | 0 <= i < |ops| ensures Lookup(start[i], key) == Lookup(mid[i], key) {
      assert Lookup(c, ops[i].id) == Lookup(mid[i], key);
    }
  }

  lemma RecordsBehind(first: seq<Message>, more: seq<Message>, key: Key)
    requires |first| == 1 && !first[0].Data?
    ensures RecordsOf(first + more, key) == RecordsOf(more, key)
  {
    RecordsOfConcat(first, more, key);
    assert first == [first[0]];
    RecordsOfOne(first[0], key);
  }

  lemma RecordsAhead(out: seq<Message>, key: Key)
    requires out != [] && !out[|out| - 1].Data?
    ensures RecordsOf(out, key) == RecordsOf(out[..|out| - 1], key)
  {
  }

  // What both workers send for the key; the collect carries no record.
  lemma RecordsJoined(out: seq<Message>, sent: seq<Message>, more: seq<Message>, key: Key)
    requires out != [] && out[..|out| - 1] == sent && !out[|out| - 1].Data?
    ensures RecordsOf(out + more, key) == RecordsOf(sent, key) + RecordsOf(more, key)
  {
    RecordsAhead(out, key);
    RecordsOfConcat(out, more, key);
  }

  lemma UndisturbedAround(xs: seq<Message>, m: Message, ys: seq<Message>, key: Key)
    requires Undisturbed(xs, key) && Undisturbed(ys, key) && ((m.Collect? || m.Acquire?) ==> m.key != key)
    ensures Undisturbed(xs + [m] + ys, key)
  {
  }

  // A key does not notice a control message about another one.
  lemma Unnoticed(ops: seq<Operator>, all: seq<States>, xs: seq<Message>, m: Message, ys: seq<Message>, key: Key)
    requires |all| == |ops| && KeepKeys(ops)
    requires Undisturbed(xs, key) && Undisturbed(ys, key) && !m.Data? && ((m.Collect? || m.Acquire?) ==> m.key != key)
    ensures var (after, out) := RunChain(ops, all, xs + [m] + ys);
            (StatesOf(after, key), RecordsOf(out, key)) == FoldChain(ops, StatesOf(all, key), RecordsOf(xs + ys, key))
  {
    UndisturbedAround(xs, m, ys, key);
    RecordsAround(xs, m, ys, key);
    ChainIsFold(ops, all, xs + [m] + ys, key);
  }

  lemma RecordsAround(xs: seq<Message>, m: Message, ys: seq<Message>, key: Key)
    requires !m.Data?
    ensures RecordsOf(xs + [m] + ys, key) == RecordsOf(xs + ys, key) == RecordsOf(xs, key) + RecordsOf(ys, key)
  {
    RecordsOfConcat(xs + [m], ys, key);
    RecordsOfConcat(xs, [m], key);
    RecordsOfOne(m, key);
    RecordsOfConcat(xs, ys, key);
  }

  /** All other keys are untouched on the old worker: each is still the fold over its own records. */
  lemma GiveUpLeavesOthers(ops: seq<Operator>, from: seq<States>, xs: seq<Message>, key: Key, other: Key)
    requires |from| == |ops| && KeepKeys(ops) && other != key && Undisturbed(xs, other)
    ensures var (left, out) := GiveUp(ops, from, xs, key);
            (StatesOf(left, other), RecordsOf(out, other)) == FoldChain(ops, StatesOf(from, other), RecordsOf(xs, other))
  {
    Unnoticed(ops, from, xs, Collect(key, map[]), [], other);
    assert xs + [Collect(key, map[])] + [] == xs + [Collect(key, map[])] && xs + [] == xs;
  }

  /** And on the new one, whatever the collection holds. */
  lemma TakeOverLeavesOthers(ops: seq<Operator>, to: seq<States>, key: Key, c: map<OperatorId, KeyState>, ys: seq<Message>, other: Key)
    requires |to| == |ops| && KeepKeys(ops) && other != key && Undisturbed(ys, other)
    ensures var (taken, more) := TakeOver(ops, to, key, c, ys);
            (StatesOf(taken, other), RecordsOf(more, other)) == FoldChain(ops, StatesOf(to, other), RecordsOf(ys, other))
  {
    Unnoticed(ops, to, [], Acquire(key, c), ys, other);
    assert [] + [Acquire(key, c)] + ys == [Acquire(key, c)] + ys && [] + ys == ys;
  }

  /** When the receiver already holds state for the key: an operator that has discarded its state leaves
      nothing in the collection, so what the receiver held survives. Taking over is exact if and only if the
      receiver holds nothing that was not collected. */
  lemma TakesOverIff(ops: seq<Operator>, from: seq<States>, to: seq<States>, key: Key)
    requires |from| == |to| == |ops| && DistinctIds(ops)
    ensures var out := GiveUp(ops, from, [], key).1;
            && out != [] && out[|out| - 1].Collect?
            && (StatesOf(TakeOver(ops, to, key, out[|out| - 1].collection, []).0, key) == StatesOf(from, key)
                <==> forall i :: 0 <= i < |ops| && key in to[i] ==> key in from[i])
  {
    GivingUp(ops, from, [], key);
    var (mid, sent) := RunChain(ops, from, []);
    NoInput(ops, from);
    var c := GiveUp(ops, from, [], key).1[|sent|].collection;
    AcquireDelivers(ops, to, key, c);
    assert [Acquire(key, c)] + [] == [Acquire(key, c)];
    var taken := TakeOver(ops, to, key, c, []).0;
    forall i | 0 <= i < |ops|
      ensures Lookup(taken[i], key) == if key in from[i] then Lookup(from[i], key) else Lookup(to[i], key) {
      assert Lookup(c, ops[i].id) == Lookup(from[i], key);
    }
    if StatesOf(taken, key) == StatesOf(from, key) {
      forall i | 0 <= i < |ops| ensures key in to[i] ==> key in from[i] {
        assert StatesOf(taken, key)[i] == StatesOf(from, key)[i];
      }
    }
  }
}
