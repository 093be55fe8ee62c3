/**
  What the distributor's merged epochs promise to its downstream: if no worker's upstream delivers a record
  at or below an earlier epoch of its own, neither does any distributor; and epochs that arrive in order
  leave in order. Outside of a rescale, for any interleaving.
*/
module EpochPromise {
  import opened Basics
  import opened ConsistentCut

  ghost predicate Promise(q: seq<Item>) {
    forall i, j :: 0 <= i < j < |q| && q[i].Epoch? && q[j].Data? ==> q[i].time < q[j].time
  }

  // No record of q is at or below e.
  ghost predicate Above(q: seq<Item>, e: int) {
    forall i :: 0 <= i < |q| && q[i].Data? ==> e < q[i].time
  }

  // q has an epoch of at least e.
  ghost predicate Reached(q: seq<Item>, e: int) {
    exists i :: 0 <= i < |q| && q[i].Epoch? && e <= q[i].time
  }

  ghost predicate EpochsReached(q: seq<Item>, entered: seq<Item>) {
    forall i :: 0 <= i < |q| && q[i].Epoch? ==> Reached(entered, q[i].time)
  }

  // Epochs of q, emitted downstream, hold back nothing that is still to come on this channel.
  ghost predicate EpochsBelow(output: seq<Item>, q: seq<Item>) {
    forall i :: 0 <= i < |output| && output[i].Epoch? ==> Above(q, output[i].time)
  }

  lemma ReachedGrows(q: seq<Item>, item: Item, e: int)
    ensures Reached(q, e) ==> Reached(q + [item], e)
    ensures item.Epoch? && e <= item.time ==> Reached(q + [item], e)
  {
    if Reached(q, e) {
      var i :| 0 <= i < |q| && q[i].Epoch? && e <= q[i].time;
      assert (q + [item])[i] == q[i];
    }
    assert (q + [item])[|q|] == item;
  }

  lemma ReachedHoldsBack(q: seq<Item>, item: Item, e: int)
    requires Promise(q + [item]) && item.Data? && Reached(q, e)
    ensures e < item.time
  {
    var i :| 0 <= i < |q| && q[i].Epoch? && e <= q[i].time;
    assert (q + [item])[i] == q[i] && (q + [item])[|q|] == item;
  }

  lemma PromisePrefix(p: seq<Item>, q: seq<Item>)
    requires p <= q && Promise(q)
    ensures Promise(p)
  {
  }

  // ---------------------------------------------------------------- invariant

  ghost predicate Linked(x: Worker, ndx: Node, w: Worker, ndw: Node)
    requires w < |ndx.out| && x < |ndw.frontiers|
  {
    var q := if x == w then [] else ndx.out[w];
    && Promise(q)
    && EpochsReached(q, ndx.entered)
    && EpochsReached(ndw.output, ndx.entered)
    && EpochsBelow(ndw.output, q)
    && (ndw.frontiers[x].Some? ==> Reached(ndx.entered, ndw.frontiers[x].value) && Above(q, ndw.frontiers[x].value))
  }

  ghost predicate Sized(n: nat, s: seq<Node>) {
    |s| == n && forall w :: 0 <= w < n ==> |s[w].out| == |s[w].frontiers| == |s[w].barred| == n
  }

  ghost predicate Kept(n: nat, s: seq<Node>) {
    && Sized(n, s)
    && (forall w :: 0 <= w < n ==> Promise(s[w].output))
    && (forall x, w :: 0 <= x < n && 0 <= w < n ==> Linked(x, s[x], w, s[w]))
  }

  ghost predicate Promised(n: nat, s: seq<Node>) {
    |s| == n && forall w :: 0 <= w < n ==> Promise(s[w].entered)
  }

  // ---------------------------------------------------------------- single changes

  // The record was sent on or, at its own worker, emitted.
  lemma LinkedData(x: Worker, ndx: Node, ndx1: Node, w: Worker, ndw: Node, ndw1: Node, item: Item)
    requires w < |ndx.out| && x < |ndw.frontiers| && Linked(x, ndx, w, ndw)
    requires w < |ndx1.out| && x < |ndw1.frontiers| && item.Data?
    requires ndw1.frontiers == ndw.frontiers && (ndw1.output == ndw.output || ndw1.output == ndw.output + [item])
    requires ndx1.entered == ndx.entered || ndx1.entered == ndx.entered + [item]
    requires ndx1.out[w] == ndx.out[w]
             || (ndx1.out[w] == ndx.out[w] + [item] && ndx1.entered == ndx.entered + [item] && Promise(ndx1.entered))
    ensures Linked(x, ndx1, w, ndw1)
  {
    var q, q1 := if x == w then [] else ndx.out[w], if x == w then [] else ndx1.out[w];
    LinkedItems(q, q1, ndx.entered, ndx1.entered, ndw.output, ndw.frontiers[x], item);
    assert EpochsReached(ndw1.output, ndx1.entered) && EpochsBelow(ndw1.output, q1);
  }

  lemma LinkedItems(q: seq<Item>, q1: seq<Item>, entered: seq<Item>, entered1: seq<Item>, output: seq<Item>,
                    frontier: Option<int>, item: Item)
    requires item.Data? && Promise(q) && EpochsReached(q, entered) && EpochsReached(output, entered) && EpochsBelow(output, q)
    requires frontier.Some? ==> Reached(entered, frontier.value) && Above(q, frontier.value)
    requires entered1 == entered || entered1 == entered + [item]
    requires q1 == q || (q1 == q + [item] && entered1 == entered + [item] && Promise(entered1))
    ensures Promise(q1) && EpochsReached(q1, entered1) && EpochsReached(output, entered1) && EpochsBelow(output, q1)
    ensures frontier.Some? ==> Reached(entered1, frontier.value) && Above(q1, frontier.value)
  {
    forall e | Reached(entered, e) ensures Reached(entered1, e) && (q1 != q ==> e < item.time) {
      ReachedGrows(entered, item, e);
      if q1 != q { ReachedHoldsBack(entered, item, e); }
    }
  }

  // An epoch or a barrier is sent to everyone.
  lemma LinkedEpoch(x: Worker, ndx: Node, ndx1: Node, w: Worker, ndw: Node, item: Item)
    requires w < |ndx.out| && x < |ndw.frontiers| && Linked(x, ndx, w, ndw)
    requires w < |ndx1.out| && !item.Data?
    requires ndx1.entered == ndx.entered + [item]
    requires ndx1.out[w] == if x == w then ndx.out[w] else ndx.out[w] + [item]
    ensures Linked(x, ndx1, w, ndw)
  {
    var q := if x == w then [] else ndx.out[w];
    LinkedMarker(q, if x == w then [] else q + [item], ndx.entered, ndw.output, ndw.frontiers[x], item);
  }

  lemma LinkedMarker(q: seq<Item>, q1: seq<Item>, entered: seq<Item>, output: seq<Item>, frontier: Option<int>, item: Item)
    requires !item.Data? && Promise(q) && EpochsReached(q, entered) && EpochsReached(output, entered) && EpochsBelow(output, q)
    requires frontier.Some? ==> Reached(entered, frontier.value) && Above(q, frontier.value)
    requires q1 == q || q1 == q + [item]
    ensures Promise(q1) && EpochsReached(q1, entered + [item]) && EpochsReached(output, entered + [item]) && EpochsBelow(output, q1)
    ensures frontier.Some? ==> Reached(entered + [item], frontier.value) && Above(q1, frontier.value)
  {
    forall e | Reached(entered, e) ensures Reached(entered + [item], e) {
      ReachedGrows(entered, item, e);
    }
    if item.Epoch? { ReachedGrows(entered, item, item.time); }
  }

  // A frontier moves: the merged epoch is at or below every frontier.
  lemma LinkedMerge(z: Worker, ndz: Node, w: Worker, ndw: Node, x: Worker, time: int)
    requires w < |ndz.out| && z < |ndw.frontiers| && x < |ndw.frontiers|
    requires Linked(z, ndz, w, ndw)
    requires z == x ==> Reached(ndz.entered, time) && (x != w ==> Above(ndz.out[w], time))
    ensures Linked(z, ndz, w, HandleEpoch(ndw, x, time))
  {
    var ndw1 := HandleEpoch(ndw, x, time);
    MergeIsMin(ndw1.frontiers);
    if ndw1.output != ndw.output {
      var f := ndw1.frontiers[z].value;
      assert Reached(ndz.entered, f) && (z != w ==> Above(ndz.out[w], f));
    }
  }

  lemma LinkedTail(x: Worker, ndx: Node, w: Worker, ndw: Node)
    requires w < |ndx.out| && x < |ndw.frontiers| && Linked(x, ndx, w, ndw) && x != w && ndx.out[w] != []
    ensures Linked(x, ndx.(out := ndx.out[w := ndx.out[w][1..]]), w, ndw)
    ensures ndx.out[w][0].Epoch? ==> Reached(ndx.entered, ndx.out[w][0].time) && Above(ndx.out[w][1..], ndx.out[w][0].time)
    ensures ndx.out[w][0].Data? ==> forall i :: 0 <= i < |ndw.output| && ndw.output[i].Epoch? ==> ndw.output[i].time < ndx.out[w][0].time
  {
  }

  // ---------------------------------------------------------------- steps

  lemma EnterKeeps(owner: Owner, n: nat, s: seq<Node>, w: Worker, item: Item)
    requires Kept(n, s) && w < n
    requires Promised(n, Apply(owner, s, Enter(w, item)))
    ensures Kept(n, Apply(owner, s, Enter(w, item)))
  {
    var t := Apply(owner, s, Enter(w, item));
    if s[w].localBarrier {
      assert t == s;
    } else {
      forall x, y | 0 <= x < n && 0 <= y < n ensures Linked(x, t[x], y, t[y]) {
        EnterLinked(owner, n, s, w, item, x, y);
      }
      EnterOutput(owner, n, s, w, item);
    }
  }

  lemma EnterLinked(owner: Owner, n: nat, s: seq<Node>, w: Worker, item: Item, x: Worker, y: Worker)
    requires Kept(n, s) && w < n && x < n && y < n && !s[w].localBarrier
    requires Promised(n, Apply(owner, s, Enter(w, item)))
    ensures Sized(n, Apply(owner, s, Enter(w, item)))
    ensures Linked(x, Apply(owner, s, Enter(w, item))[x], y, Apply(owner, s, Enter(w, item))[y])
  {
    var t := Apply(owner, s, Enter(w, item));
    assert Linked(x, s[x], y, s[y]) && Promise(t[w].entered);
    EnteredLinked(owner, x, s[x], y, s[y], w, s[w], item);
  }

  lemma EnteredLinked(owner: Owner, x: Worker, ndx: Node, y: Worker, ndy: Node, w: Worker, nd: Node, item: Item)
    requires (x == w ==> ndx == nd) && (y == w ==> ndy == nd) && !nd.localBarrier
    requires |ndx.out| == |ndy.out| == |nd.out| == |ndy.frontiers| == |nd.frontiers|
    requires x < |nd.out| && y < |nd.out| && w < |nd.out| && Linked(x, ndx, y, ndy)
    requires Promise(EnterNode(owner, nd, w, item).entered)
    ensures var nd1 := EnterNode(owner, nd, w, item);
            && |nd1.out| == |nd.out| == |nd1.frontiers|
            && Linked(x, if x == w then nd1 else ndx, y, if y == w then nd1 else ndy)
  {
    var nd1 := EnterNode(owner, nd, w, item);
    match item
    case Data(key, time, _, _) =>
      LinkedData(x, ndx, if x == w then nd1 else ndx, y, ndy, if y == w then nd1 else ndy, Data(key, time, w, nd.taken));
    case Epoch(time) =>
      EpochLinked(x, ndx, y, ndy, w, nd, time);
    case Barrier =>
      if x == w {
        LinkedEpoch(x, nd, nd1, y, ndy, item);
      }
  }

  // The local upstream of w delivers an epoch.
  lemma EpochLinked(x: Worker, ndx: Node, y: Worker, ndy: Node, w: Worker, nd: Node, time: int)
    requires (x == w ==> ndx == nd) && (y == w ==> ndy == nd)
    requires |ndx.out| == |ndy.out| == |nd.out| == |ndy.frontiers| == |nd.frontiers|
    requires x < |nd.out| && y < |nd.out| && w < |nd.out| && Linked(x, ndx, y, ndy)
    ensures var nd1 := HandleEpoch(SendToOthers(nd.(entered := nd.entered + [Epoch(time)]), w, Epoch(time)), w, time);
            Linked(x, if x == w then nd1 else ndx, y, if y == w then nd1 else ndy)
  {
    var nd1 := SendToOthers(nd.(entered := nd.entered + [Epoch(time)]), w, Epoch(time));
    ReachedGrows(nd.entered, Epoch(time), time);
    if x == w {
      LinkedEpoch(x, ndx, nd1, y, ndy, Epoch(time));
      if y == w {
        LinkedMerge(x, nd1, y, nd1, w, time);
      }
    } else if y == w {
      LinkedMerge(x, ndx, y, nd1, w, time);
    }
  }

  lemma EnterOutput(owner: Owner, n: nat, s: seq<Node>, w: Worker, item: Item)
    requires Kept(n, s) && w < n && !s[w].localBarrier
    requires Promised(n, Apply(owner, s, Enter(w, item)))
    ensures Promise(Apply(owner, s, Enter(w, item))[w].output)
  {
    var nd1 := Apply(owner, s, Enter(w, item))[w];
    assert Linked(w, s[w], w, s[w]);
    if item.Data? {
      forall e | Reached(s[w].entered, e) ensures e < item.time {
        ReachedHoldsBack(s[w].entered, Data(item.key, item.time, w, s[w].taken), e);
      }
    }
  }

  lemma ReceiveKeeps(owner: Owner, n: nat, s: seq<Node>, w: Worker, x: Worker)
    requires Kept(n, s) && CanReceive(s, w, x) && ForOwner(owner, s[x].out[w][0], w)
    ensures Kept(n, Apply(owner, s, Receive(w, x)))
  {
    var t := Apply(owner, s, Receive(w, x));
    forall a | 0 <= a < n ensures |t[a].out| == |t[a].frontiers| == |t[a].barred| == n && Promise(t[a].output) {
      ReceiveOutput(owner, n, s, w, x, a);
    }
    forall a, b | 0 <= a < n && 0 <= b < n ensures Linked(a, t[a], b, t[b]) {
      ReceiveLinked(owner, n, s, w, x, a, b);
    }
  }

  lemma ReceiveOutput(owner: Owner, n: nat, s: seq<Node>, w: Worker, x: Worker, a: Worker)
    requires Kept(n, s) && CanReceive(s, w, x) && ForOwner(owner, s[x].out[w][0], w) && a < n
    ensures var t := Apply(owner, s, Receive(w, x));
            && |t| == n && |t[a].out| == |t[a].frontiers| == |t[a].barred| == n && Promise(t[a].output)
  {
    ReceiveIs(owner, n, s, w, x, a);
    assert Promise(s[a].output);
    if a == w {
      assert Linked(x, s[x], w, s[w]);
      LinkedTail(x, s[x], w, s[w]);
      ReceivedOutput(x, s[w], s[x].out[w][0]);
    }
  }

  lemma ReceivedOutput(x: Worker, nd: Node, item: Item)
    requires Promise(nd.output) && x < |nd.frontiers|
    requires item.Data? ==> forall i :: 0 <= i < |nd.output| && nd.output[i].Epoch? ==> nd.output[i].time < item.time
    ensures item.Data? ==> Promise(nd.output + [item])
    ensures item.Epoch? ==> Promise(HandleEpoch(nd, x, item.time).output)
  {
  }

  predicate ForOwner(owner: Owner, item: Item, w: Worker) {
    item.Data? ==> owner(item.key) == w
  }

  // A record that arrives is for its receiver.
  lemma ArrivesAtOwner(owner: Owner, n: nat, s: seq<Node>, w: Worker, x: Worker)
    requires ConsistentCut.Inv(owner, n, s) && CanReceive(s, w, x)
    ensures ForOwner(owner, s[x].out[w][0], w)
  {
    assert ChannelOk(owner, x, s[x], w, s[w]);
  }

  lemma ReceiveIs(owner: Owner, n: nat, s: seq<Node>, w: Worker, x: Worker, a: Worker)
    requires Sized(n, s) && CanReceive(s, w, x) && ForOwner(owner, s[x].out[w][0], w) && a < n
    ensures var t := Apply(owner, s, Receive(w, x));
            var item := s[x].out[w][0];
            && |t| == n && |t[a].out| == |t[a].frontiers| == |t[a].barred| == n
            && t[a] == if a == x then s[x].(out := s[x].out[w := s[x].out[w][1..]])
                       else if a != w then s[a]
                       else match item
                            case Data(_, _, _, _) => s[w].(output := s[w].output + [item])
                            case Epoch(time) => HandleEpoch(s[w], x, time)
                            case Barrier => s[w].(barred := s[w].barred[x := true])
  {
  }

  lemma ReceiveLinked(owner: Owner, n: nat, s: seq<Node>, w: Worker, x: Worker, a: Worker, b: Worker)
    requires Kept(n, s) && CanReceive(s, w, x) && ForOwner(owner, s[x].out[w][0], w) && a < n && b < n
    ensures var t := Apply(owner, s, Receive(w, x));
            |t| == n && b < |t[a].out| && a < |t[b].frontiers| && Linked(a, t[a], b, t[b])
  {
    ReceiveIs(owner, n, s, w, x, a);
    ReceiveIs(owner, n, s, w, x, b);
    var t := Apply(owner, s, Receive(w, x));
    var item := s[x].out[w][0];
    assert Linked(a, s[a], b, s[b]) && Linked(x, s[x], w, s[w]);
    if b == w {
      LinkedReceive(n, a, s[a], t[a], x, s[x], w, s[w], t[w]);
    }
  }

  // The receiver's side of every link into it.
  lemma LinkedReceive(n: nat, a: Worker, nda: Node, nda1: Node, x: Worker, ndx: Node, w: Worker, ndw: Node, ndw1: Node)
    requires a < n && x < n && w < n && x != w
    requires |nda.out| == |ndx.out| == |ndw.frontiers| == n && ndx.out[w] != []
    requires Linked(a, nda, w, ndw) && Linked(x, ndx, w, ndw)
    requires a == x ==> nda == ndx && nda1 == ndx.(out := ndx.out[w := ndx.out[w][1..]])
    requires a != x && a != w ==> nda1 == nda
    requires a == w ==> nda1.entered == nda.entered && nda1.out == nda.out
    requires var item := ndx.out[w][0];
             match item
             case Data(_, _, _, _) => ndw1 == ndw.(output := ndw.output + [item])
             case Epoch(time) => ndw1 == HandleEpoch(ndw, x, time)
             case Barrier => ndw1.output == ndw.output && ndw1.frontiers == ndw.frontiers
    ensures w < |nda1.out| && a < |ndw1.frontiers| && Linked(a, nda1, w, ndw1)
  {
    LinkedTail(x, ndx, w, ndw);
    assert Linked(a, nda1, w, ndw);
    if ndx.out[w][0].Epoch? {
      LinkedMerge(a, nda1, w, ndw, x, ndx.out[w][0].time);
    }
  }

  lemma TryEmitKeeps(n: nat, s: seq<Node>, owner: Owner, w: Worker)
    requires Kept(n, s) && w < n
    ensures Kept(n, Apply(owner, s, TryEmit(w)))
  {
    var t := Apply(owner, s, TryEmit(w));
    forall x | 0 <= x < n ensures Promise(t[x].output) {
      assert Promise(s[x].output);
    }
    forall x, y | 0 <= x < n && 0 <= y < n ensures Linked(x, t[x], y, t[y]) {
      assert Linked(x, s[x], y, s[y]);
      EmitLinked(x, s[x], t[x], y, s[y], t[y]);
    }
  }

  lemma EmitLinked(x: Worker, ndx: Node, ndx1: Node, y: Worker, ndy: Node, ndy1: Node)
    requires y < |ndx.out| && x < |ndy.frontiers| && Linked(x, ndx, y, ndy)
    requires ndx1.out == ndx.out && ndx1.entered == ndx.entered && ndy1.frontiers == ndy.frontiers
    requires ndy1.output == ndy.output || ndy1.output == ndy.output + [Barrier]
    ensures Linked(x, ndx1, y, ndy1)
  {
  }

  // Nothing that has entered is forgotten.
  lemma EnteredGrows(owner: Owner, s: seq<Node>, step: Step, w: Worker)
    requires w < |s|
    ensures |Apply(owner, s, step)| == |s| && s[w].entered <= Apply(owner, s, step)[w].entered
  {
  }

  lemma {:induction false} RunKept(owner: Owner, n: nat, steps: seq<Step>)
    requires Promised(n, Run(owner, n, steps))
    ensures Kept(n, Run(owner, n, steps))
  {
    if steps != [] {
      var s := Run(owner, n, steps[..|steps| - 1]);
      ConsistentCut.RunInv(owner, n, steps[..|steps| - 1]);
      forall w | 0 <= w < n ensures Promise(s[w].entered) {
        EnteredGrows(owner, s, steps[|steps| - 1], w);
        PromisePrefix(s[w].entered, Run(owner, n, steps)[w].entered);
      }
      RunKept(owner, n, steps[..|steps| - 1]);
      match steps[|steps| - 1]
      case Enter(w, item) => if w < n { EnterKeeps(owner, n, s, w, item); }
      case Receive(w, x) => if CanReceive(s, w, x) { ArrivesAtOwner(owner, n, s, w, x); ReceiveKeeps(owner, n, s, w, x); }
      case TryEmit(w) => if w < n { TryEmitKeeps(n, s, owner, w); }
    }
  }

  /** If every upstream keeps its promise, so does every distributor's output. */
  lemma PromiseSurvivesDistribution(owner: Owner, n: nat, steps: seq<Step>, w: Worker)
    requires Promised(n, Run(owner, n, steps)) && w < n
    ensures Promise(Run(owner, n, steps)[w].output)
  {
    RunKept(owner, n, steps);
  }

  // ---------------------------------------------------------------- order

  ghost predicate InOrder(q: seq<Item>) {
    forall i, j :: 0 <= i < j < |q| && q[i].Epoch? && q[j].Epoch? ==> q[i].time <= q[j].time
  }

  ghost predicate NotBelow(q: seq<Item>, e: int) {
    forall i :: 0 <= i < |q| && q[i].Epoch? ==> e <= q[i].time
  }

  ghost predicate NotAbove(output: seq<Item>, frontier: Option<int>) {
    forall i :: 0 <= i < |output| && output[i].Epoch? ==> frontier.Some? && output[i].time <= frontier.value
  }

  ghost predicate Rising(x: Worker, ndx: Node, w: Worker, ndw: Node)
    requires w < |ndx.out| && x < |ndw.frontiers|
  {
    var q := if x == w then [] else ndx.out[w];
    && InOrder(q)
    && EpochsReached(q, ndx.entered)
    && NotAbove(ndw.output, ndw.frontiers[x])
    && (ndw.frontiers[x].Some? ==> Reached(ndx.entered, ndw.frontiers[x].value) && NotBelow(q, ndw.frontiers[x].value))
  }

  ghost predicate Ordered(n: nat, s: seq<Node>) {
    && Sized(n, s)
    && (forall w :: 0 <= w < n ==> InOrder(s[w].output))
    && (forall x, w :: 0 <= x < n && 0 <= w < n ==> Rising(x, s[x], w, s[w]))
  }

  ghost predicate UpstreamsOrdered(n: nat, s: seq<Node>) {
    |s| == n && forall w :: 0 <= w < n ==> InOrder(s[w].entered)
  }

  lemma ReachedIsNotAbove(q: seq<Item>, item: Item, e: int)
    requires InOrder(q + [item]) && item.Epoch? && Reached(q, e)
    ensures e <= item.time
  {
    var i :| 0 <= i < |q| && q[i].Epoch? && e <= q[i].time;
    assert (q + [item])[i] == q[i] && (q + [item])[|q|] == item;
  }

  // x's upstream delivers an item; it may be sent to w.
  lemma RisingSend(x: Worker, ndx: Node, ndx1: Node, w: Worker, ndw: Node, item: Item)
    requires w < |ndx.out| && x < |ndw.frontiers| && Rising(x, ndx, w, ndw)
    requires w < |ndx1.out| && ndx1.entered == ndx.entered + [item] && InOrder(ndx1.entered)
    requires x == w || ndx1.out[w] == ndx.out[w] || ndx1.out[w] == ndx.out[w] + [item]
    ensures Rising(x, ndx1, w, ndw)
  {
    if x == w {
      SendInOrder([], [], ndx.entered, item, ndw.frontiers[x]);
    } else {
      SendInOrder(ndx.out[w], ndx1.out[w], ndx.entered, item, ndw.frontiers[x]);
    }
  }

  lemma SendInOrder(q: seq<Item>, q1: seq<Item>, entered: seq<Item>, item: Item, frontier: Option<int>)
    requires InOrder(q) && EpochsReached(q, entered) && (q1 == q || q1 == q + [item])
    requires frontier.Some? ==> Reached(entered, frontier.value) && NotBelow(q, frontier.value)
    requires InOrder(entered + [item])
    ensures InOrder(q1) && EpochsReached(q1, entered + [item])
    ensures frontier.Some? ==> Reached(entered + [item], frontier.value) && NotBelow(q1, frontier.value)
  {
    if item.Epoch? { ReachedGrows(entered, item, item.time); }
    forall e | Reached(entered, e) ensures Reached(entered + [item], e) && (item.Epoch? ==> e <= item.time) {
      ReachedGrows(entered, item, e);
      if item.Epoch? { ReachedIsNotAbove(entered, item, e); }
    }
  }

  lemma RisingMerge(z: Worker, ndz: Node, w: Worker, ndw: Node, x: Worker, time: int)
    requires w < |ndz.out| && z < |ndw.frontiers| && x < |ndw.frontiers|
    requires Rising(z, ndz, w, ndw)
    requires z == x ==>
               Reached(ndz.entered, time) && (x != w ==> NotBelow(ndz.out[w], time))
               && (ndw.frontiers[x].Some? ==> ndw.frontiers[x].value <= time)
    ensures Rising(z, ndz, w, HandleEpoch(ndw, x, time))
  {
    MergeIsMin(HandleEpoch(ndw, x, time).frontiers);
  }

  // The merged epoch is not below any emitted before.
  lemma MergeInOrder(ndw: Node, x: Worker, time: int)
    requires x < |ndw.frontiers| && InOrder(ndw.output)
    requires forall z :: 0 <= z < |ndw.frontiers| ==> NotAbove(ndw.output, ndw.frontiers[z])
    requires ndw.frontiers[x].Some? ==> ndw.frontiers[x].value <= time
    ensures InOrder(HandleEpoch(ndw, x, time).output)
  {
    var frontiers := ndw.frontiers[x := Some(time)];
    MergeIsMin(frontiers);
    if Merge(frontiers).Some? {
      var z :| 0 <= z < |frontiers| && Merge(frontiers) == frontiers[z];
      assert NotAbove(ndw.output, ndw.frontiers[z]);
    }
  }

  lemma EnterRising(owner: Owner, n: nat, s: seq<Node>, w: Worker, item: Item, x: Worker, y: Worker)
    requires Ordered(n, s) && w < n && x < n && y < n && !s[w].localBarrier
    requires UpstreamsOrdered(n, Apply(owner, s, Enter(w, item)))
    ensures Sized(n, Apply(owner, s, Enter(w, item)))
    ensures Rising(x, Apply(owner, s, Enter(w, item))[x], y, Apply(owner, s, Enter(w, item))[y])
  {
    var t := Apply(owner, s, Enter(w, item));
    assert Rising(x, s[x], y, s[y]) && Rising(w, s[w], w, s[w]) && InOrder(t[w].entered);
    EnteredRising(owner, x, s[x], y, s[y], w, s[w], item);
  }

  lemma EnteredRising(owner: Owner, x: Worker, ndx: Node, y: Worker, ndy: Node, w: Worker, nd: Node, item: Item)
    requires (x == w ==> ndx == nd) && (y == w ==> ndy == nd) && !nd.localBarrier
    requires |ndx.out| == |ndy.out| == |nd.out| == |ndy.frontiers| == |nd.frontiers|
    requires x < |nd.out| && y < |nd.out| && w < |nd.out| && Rising(x, ndx, y, ndy) && Rising(w, nd, w, nd)
    requires InOrder(EnterNode(owner, nd, w, item).entered)
    ensures var nd1 := EnterNode(owner, nd, w, item);
            && |nd1.out| == |nd.out| == |nd1.frontiers|
            && Rising(x, if x == w then nd1 else ndx, y, if y == w then nd1 else ndy)
  {
    var nd1 := EnterNode(owner, nd, w, item);
    match item
    case Data(key, time, _, _) =>
      if x == w { RisingSend(x, nd, nd1, y, ndy, Data(key, time, w, nd.taken)); }
    case Epoch(time) => EpochRising(x, ndx, y, ndy, w, nd, time);
    case Barrier =>
      if x == w { RisingSend(x, nd, nd1, y, ndy, item); }
  }

  lemma EpochRising(x: Worker, ndx: Node, y: Worker, ndy: Node, w: Worker, nd: Node, time: int)
    requires (x == w ==> ndx == nd) && (y == w ==> ndy == nd)
    requires |ndx.out| == |ndy.out| == |nd.out| == |ndy.frontiers| == |nd.frontiers|
    requires x < |nd.out| && y < |nd.out| && w < |nd.out| && Rising(x, ndx, y, ndy) && Rising(w, nd, w, nd)
    requires InOrder(nd.entered + [Epoch(time)])
    ensures var nd1 := HandleEpoch(SendToOthers(nd.(entered := nd.entered + [Epoch(time)]), w, Epoch(time)), w, time);
            Rising(x, if x == w then nd1 else ndx, y, if y == w then nd1 else ndy)
  {
    var nd1 := SendToOthers(nd.(entered := nd.entered + [Epoch(time)]), w, Epoch(time));
    if x == w { RisingSend(x, ndx, nd1, y, ndy, Epoch(time)); }
    if y == w {
      ReachedGrows(nd.entered, Epoch(time), time);
      if nd.frontiers[w].Some? { ReachedIsNotAbove(nd.entered, Epoch(time), nd.frontiers[w].value); }
      RisingMerge(x, if x == w then nd1 else ndx, w, nd1, w, time);
    }
  }

  lemma EnterOrder(owner: Owner, n: nat, s: seq<Node>, w: Worker, item: Item)
    requires Ordered(n, s) && w < n && !s[w].localBarrier
    requires UpstreamsOrdered(n, Apply(owner, s, Enter(w, item)))
    ensures InOrder(Apply(owner, s, Enter(w, item))[w].output)
  {
    if item.Epoch? {
      var nd1 := SendToOthers(s[w].(entered := s[w].entered + [item]), w, item);
      forall z | 0 <= z < n ensures NotAbove(nd1.output, nd1.frontiers[z]) {
        assert Rising(z, s[z], w, s[w]);
      }
      assert Rising(w, s[w], w, s[w]);
      if s[w].frontiers[w].Some? { ReachedIsNotAbove(s[w].entered, item, s[w].frontiers[w].value); }
      MergeInOrder(nd1, w, item.time);
    }
  }

  lemma ReceiveRising(owner: Owner, n: nat, s: seq<Node>, w: Worker, x: Worker, a: Worker, b: Worker)
    requires Ordered(n, s) && CanReceive(s, w, x) && ForOwner(owner, s[x].out[w][0], w) && a < n && b < n
    ensures var t := Apply(owner, s, Receive(w, x));
            |t| == n && b < |t[a].out| && a < |t[b].frontiers| && Rising(a, t[a], b, t[b])
  {
    ReceiveIs(owner, n, s, w, x, a);
    ReceiveIs(owner, n, s, w, x, b);
    var t := Apply(owner, s, Receive(w, x));
    assert Rising(a, s[a], b, s[b]) && Rising(x, s[x], w, s[w]);
    if b == w {
      RisingReceive(n, a, s[a], t[a], x, s[x], w, s[w], t[w]);
    }
  }

  lemma RisingReceive(n: nat, a: Worker, nda: Node, nda1: Node, x: Worker, ndx: Node, w: Worker, ndw: Node, ndw1: Node)
    requires a < n && x < n && w < n && x != w
    requires |nda.out| == |ndx.out| == |ndw.frontiers| == n && ndx.out[w] != []
    requires Rising(a, nda, w, ndw) && Rising(x, ndx, w, ndw)
    requires a == x ==> nda == ndx && nda1 == ndx.(out := ndx.out[w := ndx.out[w][1..]])
    requires a != x && a != w ==> nda1 == nda
    requires a == w ==> nda1.entered == nda.entered && nda1.out == nda.out
    requires var item := ndx.out[w][0];
             match item
             case Data(_, _, _, _) => ndw1 == ndw.(output := ndw.output + [item])
             case Epoch(time) => ndw1 == HandleEpoch(ndw, x, time)
             case Barrier => ndw1.output == ndw.output && ndw1.frontiers == ndw.frontiers
    ensures w < |nda1.out| && a < |ndw1.frontiers| && Rising(a, nda1, w, ndw1)
  {
    assert Rising(a, nda1, w, ndw);
    if ndx.out[w][0].Epoch? {
      RisingMerge(a, nda1, w, ndw, x, ndx.out[w][0].time);
    }
  }

  lemma ReceiveOrder(owner: Owner, n: nat, s: seq<Node>, w: Worker, x: Worker, a: Worker)
    requires Ordered(n, s) && CanReceive(s, w, x) && ForOwner(owner, s[x].out[w][0], w) && a < n
    ensures var t := Apply(owner, s, Receive(w, x));
            && |t| == n && |t[a].out| == |t[a].frontiers| == |t[a].barred| == n && InOrder(t[a].output)
  {
    ReceiveIs(owner, n, s, w, x, a);
    assert Rising(x, s[x], w, s[w]) && InOrder(s[a].output);
    if a == w && s[x].out[w][0].Epoch? {
      forall z | 0 <= z < n ensures NotAbove(s[w].output, s[w].frontiers[z]) {
        assert Rising(z, s[z], w, s[w]);
      }
      MergeInOrder(s[w], x, s[x].out[w][0].time);
    }
  }

  lemma EnterKeepsOrder(owner: Owner, n: nat, s: seq<Node>, w: Worker, item: Item)
    requires Ordered(n, s) && UpstreamsOrdered(n, Apply(owner, s, Enter(w, item))) && w < n
    ensures Ordered(n, Apply(owner, s, Enter(w, item)))
  {
    var t := Apply(owner, s, Enter(w, item));
    if s[w].localBarrier {
      assert t == s;
    } else {
      forall x, y | 0 <= x < n && 0 <= y < n ensures Rising(x, t[x], y, t[y]) {
        EnterRising(owner, n, s, w, item, x, y);
      }
      EnterOrder(owner, n, s, w, item);
    }
  }

  lemma ReceiveKeepsOrder(owner: Owner, n: nat, s: seq<Node>, w: Worker, x: Worker)
    requires Ordered(n, s) && CanReceive(s, w, x) && ForOwner(owner, s[x].out[w][0], w)
    ensures Ordered(n, Apply(owner, s, Receive(w, x)))
  {
    var t := Apply(owner, s, Receive(w, x));
    forall a | 0 <= a < n ensures |t[a].out| == |t[a].frontiers| == |t[a].barred| == n && InOrder(t[a].output) {
      ReceiveOrder(owner, n, s, w, x, a);
    }
    forall a, b | 0 <= a < n && 0 <= b < n ensures Rising(a, t[a], b, t[b]) {
      ReceiveRising(owner, n, s, w, x, a, b);
    }
  }

  lemma TryEmitKeepsOrder(owner: Owner, n: nat, s: seq<Node>, w: Worker)
    requires Ordered(n, s) && w < n
    ensures Ordered(n, Apply(owner, s, TryEmit(w)))
  {
    var t := Apply(owner, s, TryEmit(w));
    forall x, y | 0 <= x < n && 0 <= y < n ensures Rising(x, t[x], y, t[y]) {
      assert Rising(x, s[x], y, s[y]);
    }
  }

  lemma {:induction false} RunOrdered(owner: Owner, n: nat, steps: seq<Step>)
    requires UpstreamsOrdered(n, Run(owner, n, steps))
    ensures Ordered(n, Run(owner, n, steps))
  {
    if steps != [] {
      var s := Run(owner, n, steps[..|steps| - 1]);
      ConsistentCut.RunInv(owner, n, steps[..|steps| - 1]);
      forall w | 0 <= w < n ensures InOrder(s[w].entered) {
        EnteredGrows(owner, s, steps[|steps| - 1], w);
        assert s[w].entered <= Run(owner, n, steps)[w].entered && InOrder(Run(owner, n, steps)[w].entered);
      }
      RunOrdered(owner, n, steps[..|steps| - 1]);
      match steps[|steps| - 1]
      case Enter(w, item) => if w < n { EnterKeepsOrder(owner, n, s, w, item); }
      case Receive(w, x) => if CanReceive(s, w, x) { ArrivesAtOwner(owner, n, s, w, x); ReceiveKeepsOrder(owner, n, s, w, x); }
      case TryEmit(w) => if w < n { TryEmitKeepsOrder(owner, n, s, w); }
    }
  }

  /** If every upstream's epochs never decrease, neither do those of any distributor's output. */
  lemma OrderSurvivesDistribution(owner: Owner, n: nat, steps: seq<Step>, w: Worker)
    requires UpstreamsOrdered(n, Run(owner, n, steps)) && w < n
    ensures InOrder(Run(owner, n, steps)[w].output)
  {
    RunOrdered(owner, n, steps);
  }
}
