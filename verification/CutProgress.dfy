/**
  That barriers get through: when a held barrier is passed on, and what has come out once nothing more can
  happen. Stated over runs, by counting barriers.
*/
module CutProgress {
  import opened Basics
  import opened ConsistentCut

  // How many barriers of x worker w has read so far.
  function BarriersRead(s: seq<Node>, w: Worker, x: Worker): int
    requires x < |s| && w < |s[x].out|
  {
    Barriers(s[x].entered) - Barriers(s[x].out[w])
  }

  // One barrier more has come from the local upstream, and from every other worker, than has gone downstream.
  predicate BarrierDue(s: seq<Node>, w: Worker)
    requires w < |s| && forall x :: 0 <= x < |s| ==> w < |s[x].out|
  {
    && Barriers(s[w].entered) == Barriers(s[w].output) + 1
    && forall x :: 0 <= x < |s| && x != w ==> BarriersRead(s, w, x) == Barriers(s[w].output) + 1
  }

  lemma Shaped(owner: Owner, n: nat, steps: seq<Step>)
    ensures var s := Run(owner, n, steps);
            |s| == n && forall x :: 0 <= x < n ==> |s[x].out| == |s[x].barred| == |s[x].frontiers| == n
  {
    RunInv(owner, n, steps);
    assert forall x :: 0 <= x < n ==> NodeOk(n, x, Run(owner, n, steps)[x]);
  }

  lemma BarredIs(owner: Owner, n: nat, s: seq<Node>, w: Worker, x: Worker)
    requires Inv(owner, n, s) && w < n && x < n && x != w
    ensures w < |s[x].out| && x < |s[w].barred|
    ensures BarriersRead(s, w, x) == Barriers(s[w].output) + (if s[w].barred[x] then 1 else 0)
  {
    assert NodeOk(n, w, s[w]) && NodeOk(n, x, s[x]) && ChannelOk(owner, x, s[x], w, s[w]);
  }

  /** The barrier a worker holds is passed on if and only if it has read the same barrier of every other worker;
      then its upstream and all other workers may speak again. Otherwise nothing happens. */
  lemma EmitsIff(owner: Owner, n: nat, steps: seq<Step>, w: Worker)
    requires w < n
    ensures var s := Run(owner, n, steps);
            var t := Apply(owner, s, TryEmit(w));
            && |s| == n && (forall x :: 0 <= x < n ==> |s[x].out| == n)
            && if BarrierDue(s, w) then
                 && |t| == n && (forall x :: 0 <= x < n && x != w ==> t[x] == s[x])
                 && t[w].output == s[w].output + [Barrier]
                 && !t[w].localBarrier && t[w].barred == seq(n, x => false)
                 && t[w].out == s[w].out && t[w].entered == s[w].entered && t[w].frontiers == s[w].frontiers
               else t == s
  {
    var s := Run(owner, n, steps);
    RunInv(owner, n, steps);
    Shaped(owner, n, steps);
    assert NodeOk(n, w, s[w]);
    forall x | 0 <= x < n && x != w
      ensures BarriersRead(s, w, x) == Barriers(s[w].output) + (if s[w].barred[x] then 1 else 0)
    {
      BarredIs(owner, n, s, w, x);
    }
    if !BarrierDue(s, w) {
      assert Apply(owner, s, TryEmit(w)) == s;
    }
  }

  // What the local upstream delivers, as it is remembered.
  function Tagged(item: Item, w: Worker, cut: nat): Item {
    if item.Data? then Data(item.key, item.time, w, cut) else item
  }

  /** A worker listens to its upstream exactly when it holds no barrier. A record goes to its owner and nowhere
      else, everything else to all other workers. */
  lemma EntersIff(owner: Owner, n: nat, steps: seq<Step>, w: Worker, item: Item, y: Worker)
    requires w < n && y < n && y != w
    ensures |Run(owner, n, steps)| == n
    ensures var s := Run(owner, n, steps);
            var t := Apply(owner, s, Enter(w, item));
            var tagged := Tagged(item, w, Barriers(s[w].entered));
            && |t| == n && |s[w].out| == |t[w].out| == n
            && if Barriers(s[w].entered) == Barriers(s[w].output) then
                 && t[w].entered == s[w].entered + [tagged]
                 && t[w].out[y] == s[w].out[y] + (if item.Data? && owner(item.key) != y then [] else [tagged])
                 && (item.Data? ==> t[w].output == s[w].output + (if owner(item.key) == w then [tagged] else []))
                 && (item.Barrier? ==> t[w].output == s[w].output)
                 && t[y] == s[y]
               else t == s
  {
    RunInv(owner, n, steps);
    Shaped(owner, n, steps);
    var s := Run(owner, n, steps);
    assert NodeOk(n, w, s[w]);
    if Barriers(s[w].entered) != Barriers(s[w].output) {
      assert Apply(owner, s, Enter(w, item)) == s;
    }
  }

  /** A worker reads from another one exactly when it has not read a barrier of it that it still has to pass on.
      Records that arrive go downstream. */
  lemma ReceivesIff(owner: Owner, n: nat, steps: seq<Step>, w: Worker, x: Worker)
    requires w < n && x < n && x != w
    ensures var s := Run(owner, n, steps);
            var t := Apply(owner, s, Receive(w, x));
            && |s| == |t| == n && |s[x].out| == |t[x].out| == n
            && if s[x].out[w] != [] && BarriersRead(s, w, x) == Barriers(s[w].output) then
                 && t[x] == s[x].(out := s[x].out[w := s[x].out[w][1..]])
                 && (s[x].out[w][0].Data? ==> t[w].output == s[w].output + [s[x].out[w][0]])
                 && (s[x].out[w][0].Barrier? ==> t[w].output == s[w].output)
               else t == s
  {
    RunInv(owner, n, steps);
    Shaped(owner, n, steps);
    var s := Run(owner, n, steps);
    BarredIs(owner, n, s, w, x);
    assert ChannelOk(owner, x, s[x], w, s[w]);
  }

  // ---------------------------------------------------------------- until nothing more can happen

  // Neither a packet can be received nor a barrier passed on.
  ghost predicate Quiet(owner: Owner, s: seq<Node>) {
    && (forall w :: 0 <= w < |s| ==> Apply(owner, s, TryEmit(w)) == s)
    && (forall w, x :: 0 <= w < |s| && 0 <= x < |s| ==> Apply(owner, s, Receive(w, x)) == s)
  }

  function Waiting(nd: Node): nat {
    Sum(seq(|nd.out|, y requires 0 <= y < |nd.out| => |nd.out[y]|)) + (if nd.localBarrier then 1 else 0)
  }

  function AllWaiting(s: seq<Node>): nat {
    Sum(seq(|s|, x requires 0 <= x < |s| => Waiting(s[x])))
  }

  lemma AllWaitingUpdate(s: seq<Node>, x: Worker, nd: Node)
    requires x < |s|
    ensures AllWaiting(s[x := nd]) == AllWaiting(s) - Waiting(s[x]) + Waiting(nd)
  {
    var xs := seq(|s|, z requires 0 <= z < |s| => Waiting(s[z]));
    var s1 := s[x := nd];
    SumUpdate(xs, x, Waiting(nd));
    assert seq(|s1|, z requires 0 <= z < |s1| => Waiting(s1[z])) == xs[x := Waiting(nd)];
  }

  lemma WaitingPopped(nd: Node, w: Worker)
    requires w < |nd.out| && nd.out[w] != []
    ensures Waiting(nd.(out := nd.out[w := nd.out[w][1..]])) == Waiting(nd) - 1
  {
    var xs := seq(|nd.out|, y requires 0 <= y < |nd.out| => |nd.out[y]|);
    var nd1 := nd.(out := nd.out[w := nd.out[w][1..]]);
    SumUpdate(xs, w, |nd.out[w]| - 1);
    assert seq(|nd1.out|, y requires 0 <= y < |nd1.out| => |nd1.out[y]|) == xs[w := |nd.out[w]| - 1];
  }

  lemma ReceiveShrinks(owner: Owner, n: nat, s: seq<Node>, w: Worker, x: Worker)
    requires Inv(owner, n, s) && CanReceive(s, w, x)
    ensures AllWaiting(Apply(owner, s, Receive(w, x))) < AllWaiting(s)
  {
    assert ChannelOk(owner, x, s[x], w, s[w]) && NodeOk(n, w, s[w]);
    var popped := s[x].(out := s[x].out[w := s[x].out[w][1..]]);
    WaitingPopped(s[x], w);
    AllWaitingUpdate(s, x, popped);
    AllWaitingUpdate(s[x := popped], w, ReceiveNode(owner, s[w], w, x, s[x].out[w][0]));
  }

  lemma EmitShrinks(owner: Owner, s: seq<Node>, w: Worker)
    requires w < |s| && Apply(owner, s, TryEmit(w)) != s
    ensures AllWaiting(Apply(owner, s, TryEmit(w))) < AllWaiting(s)
  {
    AllWaitingUpdate(s, w, TryEmitNode(s[w], w));
  }

  lemma OneMore(owner: Owner, n: nat, steps: seq<Step>, step: Step)
    ensures Run(owner, n, steps + [step]) == Apply(owner, Run(owner, n, steps), step)
  {
    assert (steps + [step])[..|steps|] == steps;
  }

  lemma MoreToDo(owner: Owner, n: nat, s: seq<Node>) returns (step: Step)
    requires Inv(owner, n, s) && !Quiet(owner, s)
    ensures !step.Enter? && AllWaiting(Apply(owner, s, step)) < AllWaiting(s)
  {
    if w: nat :| w < |s| && Apply(owner, s, TryEmit(w)) != s {
      step := TryEmit(w);
      EmitShrinks(owner, s, w);
    } else {
      var w: nat, x: nat :| w < |s| && x < |s| && Apply(owner, s, Receive(w, x)) != s;
      step := Receive(w, x);
      ReceiveShrinks(owner, n, s, w, x);
    }
  }

  // Without anything new from upstream every run comes to rest.
  lemma Settles(owner: Owner, n: nat, steps: seq<Step>) returns (all: seq<Step>)
    ensures steps <= all && forall i :: |steps| <= i < |all| ==> !all[i].Enter?
    ensures Quiet(owner, Run(owner, n, all))
  {
    all := steps;
    while !Quiet(owner, Run(owner, n, all))
      invariant steps <= all && forall i :: |steps| <= i < |all| ==> !all[i].Enter?
      decreases AllWaiting(Run(owner, n, all))
    {
      RunInv(owner, n, all);
      var step := MoreToDo(owner, n, Run(owner, n, all));
      OneMore(owner, n, all, step);
      all := all + [step];
    }
  }

  // A barrier is held only because somebody else's upstream has delivered fewer of them.
  lemma HeldFor(owner: Owner, n: nat, s: seq<Node>, w: Worker)
    requires Inv(owner, n, s) && Quiet(owner, s) && w < n
    ensures exists x :: 0 <= x < n && Barriers(s[x].entered) == Barriers(s[w].output)
  {
    assert NodeOk(n, w, s[w]);
    if s[w].localBarrier {
      assert Apply(owner, s, TryEmit(w))[w] == s[w];
      var x :| 0 <= x < n && x != w && !s[w].barred[x];
      EmptyUnlessBarred(owner, n, s, w, x);
      BarredIs(owner, n, s, w, x);
    } else {
      assert Barriers(s[w].entered) == Barriers(s[w].output);
    }
  }

  lemma EmptyUnlessBarred(owner: Owner, n: nat, s: seq<Node>, w: Worker, x: Worker)
    requires Inv(owner, n, s) && Quiet(owner, s) && w < n && x < n && x != w
    ensures w < |s[x].out| && x < |s[w].barred| && (s[x].out[w] == [] || s[w].barred[x])
  {
    assert NodeOk(n, w, s[w]) && NodeOk(n, x, s[x]);
    if CanReceive(s, w, x) {
      ReceiveShrinks(owner, n, s, w, x);
    }
  }

  /** When nothing more can happen, every worker has emitted as many barriers as the fewest that any upstream has
      delivered; and of every worker that is not ahead of that, all records meant for it, in their order. */
  lemma QuietEmits(owner: Owner, n: nat, steps: seq<Step>, w: Worker)
    requires w < n && Quiet(owner, Run(owner, n, steps))
    ensures var s := Run(owner, n, steps);
            && |s| == n
            && (forall x :: 0 <= x < n ==> Barriers(s[w].output) <= Barriers(s[x].entered))
            && (exists x :: 0 <= x < n && Barriers(s[x].entered) == Barriers(s[w].output))
            && (forall x :: 0 <= x < n && Barriers(s[x].entered) == Barriers(s[w].output) ==>
                  Records(owner, s[w].output, x, w) == Records(owner, s[x].entered, x, w))
  {
    var s := Run(owner, n, steps);
    RunInv(owner, n, steps);
    HeldFor(owner, n, s, w);
    forall x | 0 <= x < n
      ensures Barriers(s[w].output) <= Barriers(s[x].entered)
      ensures Barriers(s[x].entered) == Barriers(s[w].output) ==>
                Records(owner, s[w].output, x, w) == Records(owner, s[x].entered, x, w)
    {
      assert NodeOk(n, w, s[w]) && NodeOk(n, x, s[x]);
      if x != w {
        BarredIs(owner, n, s, w, x);
        EmptyUnlessBarred(owner, n, s, w, x);
        assert ChannelOk(owner, x, s[x], w, s[w]);
        assert Records(owner, s[w].output, x, w) + [] == Records(owner, s[w].output, x, w);
      }
    }
  }
}
