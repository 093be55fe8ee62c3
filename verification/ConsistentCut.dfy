/**
  Barriers and epochs across workers while every distributor's router is Normal on one worker set and
  nobody suspends: n distributors, one FIFO channel per ordered pair, any interleaving.
*/
module ConsistentCut {
  import opened Basics

  /** `from` and `cut` are bookkeeping: where the record entered and how many barriers the distributor
      there had taken from its local upstream by then. */
  datatype Item =
    | Data(key: Key, time: int, from: Worker, cut: nat)
    | Epoch(time: int)
    | Barrier

  datatype Node = Node(
    taken: nat,                         // local barriers taken so far
    localBarrier: bool,                 // `local_barrier.is_some()`
    barred: seq<bool>,                  // `is_barred` of every remote
    frontiers: seq<Option<int>>,        // `frontier` of every remote; the local one at the own index
    out: seq<seq<Item>>,
    entered: seq<Item>,                 // everything received from the local upstream
    output: seq<Item>)                  // everything sent downstream

  type Owner = Key -> Worker

  datatype Step =
    | Enter(w: Worker, item: Item)
    | Receive(w: Worker, x: Worker)
    | TryEmit(w: Worker)

  // ---------------------------------------------------------------- handlers

  function Post(nd: Node, me: Worker, y: Worker, item: Item): Node {
    if y == me then nd.(output := nd.output + [item])
    else if y < |nd.out| then nd.(out := nd.out[y := nd.out[y] + [item]])
    else nd
  }

  function SendToOthers(nd: Node, me: Worker, item: Item): Node {
    nd.(out := seq(|nd.out|, y requires 0 <= y < |nd.out| => if y == me then nd.out[y] else nd.out[y] + [item]))
  }

  function HandleEpoch(nd: Node, x: Worker, time: int): Node {
    if x < |nd.frontiers| then
      var frontiers := nd.frontiers[x := Some(time)];
      var merged := Merge(frontiers);
      nd.(frontiers := frontiers,
          output := if merged.Some? then nd.output + [Epoch(merged.value)] else nd.output)
    else nd
  }

  function EnterNode(owner: Owner, nd: Node, me: Worker, item: Item): Node {
    if nd.localBarrier then nd
    else
      match item
      case Data(key, time, _, _) =>
        var tagged := Data(key, time, me, nd.taken);
        Post(nd.(entered := nd.entered + [tagged]), me, owner(key), tagged)
      case Epoch(time) =>
        HandleEpoch(SendToOthers(nd.(entered := nd.entered + [item]), me, item), me, time)
      case Barrier =>
        SendToOthers(nd.(entered := nd.entered + [item], taken := nd.taken + 1, localBarrier := true), me, item)
  }

  function ReceiveNode(owner: Owner, nd: Node, me: Worker, x: Worker, item: Item): Node {
    match item
    case Data(key, _, _, _) => Post(nd, me, owner(key), item)
    case Epoch(time) => HandleEpoch(nd, x, time)
    case Barrier => if x < |nd.barred| then nd.(barred := nd.barred[x := true]) else nd
  }

  predicate AllBarred(nd: Node, me: Worker) {
    forall x :: 0 <= x < |nd.barred| && x != me ==> nd.barred[x]
  }

  function TryEmitNode(nd: Node, me: Worker): Node {
    if nd.localBarrier && AllBarred(nd, me) then
      nd.(localBarrier := false, barred := seq(|nd.barred|, x => false), output := nd.output + [Barrier])
    else nd
  }

  /** The distributor's fields, updated in place; `entered` and `taken` are bookkeeping. */
  class Aligner {
    const owner: Owner
    const me: Worker
    var localBarrier: bool
    var barred: seq<bool>
    var frontiers: seq<Option<int>>
    var out: seq<seq<Item>>
    var output: seq<Item>
    var entered: seq<Item>
    var taken: nat

    function View(): Node
      reads this
    {
      Node(taken, localBarrier, barred, frontiers, out, entered, output)
    }

    constructor (owner: Owner, me: Worker, n: nat)
      ensures View() == Node(0, false, seq(n, x => false), seq(n, x => None), seq(n, y => []), [], [])
    {
      this.owner, this.me := owner, me;
      localBarrier := false;
      barred, frontiers, out := seq(n, x => false), seq(n, x => None), seq(n, y => []);
      output, entered, taken := [], [], 0;
    }

    method SendAll(item: Item)
      modifies this`out
      ensures View() == SendToOthers(old(View()), me, item)
    {
      var y := 0;
      while y < |out|
        invariant 0 <= y <= |out| == |old(out)|
        invariant forall z :: 0 <= z < y ==> out[z] == if z == me then old(out)[z] else old(out)[z] + [item]
        invariant forall z :: y <= z < |out| ==> out[z] == old(out)[z]
      {
        if y != me {
          out := out[y := out[y] + [item]];
        }
        y := y + 1;
      }
      assert out == SendToOthers(old(View()), me, item).out;
    }

    method SendTo(y: Worker, item: Item)
      modifies this`out, this`output
      ensures View() == Post(old(View()), me, y, item)
    {
      if y == me {
        output := output + [item];
      } else if y < |out| {
        out := out[y := out[y] + [item]];
      }
    }

    method MergeTimestamps() returns (merged: Option<int>)
      ensures merged == Merge(frontiers)
    {
      if frontiers == [] { return None; }
      var i := |frontiers| - 1;
      merged := frontiers[i];
      assert frontiers[i..] == [frontiers[i]];
      while i > 0
        invariant 0 <= i < |frontiers|
        invariant merged == Merge(frontiers[i..])
      {
        i := i - 1;
        assert frontiers[i..][1..] == frontiers[i + 1..];
        merged := if frontiers[i].Some? && merged.Some? then Some(Min(frontiers[i].value, merged.value)) else None;
      }
      assert frontiers[0..] == frontiers;
    }

    method NoteEpoch(x: Worker, time: int)
      modifies this`frontiers, this`output
      ensures View() == HandleEpoch(old(View()), x, time)
    {
      if x < |frontiers| {
        frontiers := frontiers[x := Some(time)];
        var merged := MergeTimestamps();
        if merged.Some? {
          output := output + [Epoch(merged.value)];
        }
      }
    }

    // A message of the local upstream; none is taken while a barrier is held.
    method HandleLocal(item: Item)
      modifies this
      ensures View() == EnterNode(owner, old(View()), me, item)
    {
      if localBarrier { return; }
      match item
      case Data(key, time, _, _) =>
        entered := entered + [Data(key, time, me, taken)];
        SendTo(owner(key), Data(key, time, me, taken));
      case Epoch(time) =>
        entered := entered + [item];
        SendAll(item);
        NoteEpoch(me, time);
      case Barrier =>
        entered := entered + [item];
        taken := taken + 1;
        localBarrier := true;
        SendAll(item);
    }

    method HandleRemote(x: Worker, item: Item)
      modifies this
      ensures View() == ReceiveNode(owner, old(View()), me, x, item)
    {
      match item
      case Data(key, _, _, _) => SendTo(owner(key), item);
      case Epoch(time) => NoteEpoch(x, time);
      case Barrier =>
        if x < |barred| {
          barred := barred[x := true];
        }
    }

    // Passes the local barrier on once every remote has sent its own, and lets all of them speak again.
    method TryEmitBarrier()
      modifies this`localBarrier, this`barred, this`output
      ensures View() == TryEmitNode(old(View()), me)
    {
      if localBarrier && AllBarred(View(), me) {
        localBarrier := false;
        output := output + [Barrier];
        var x := 0;
        while x < |barred|
          invariant 0 <= x <= |barred| == |old(barred)|
          invariant forall z :: 0 <= z < x ==> !barred[z]
          modifies this`barred
        {
          barred := barred[x := false];
          x := x + 1;
        }
        assert barred == TryEmitNode(old(View()), me).barred;
      }
    }
  }

  // ---------------------------------------------------------------- runs

  function Init(n: nat): seq<Node> {
    seq(n, w => Node(0, false, seq(n, x => false), seq(n, x => None), seq(n, y => []), [], []))
  }

  predicate CanReceive(s: seq<Node>, w: Worker, x: Worker) {
    && w < |s| && x < |s| && w != x
    && x < |s[w].barred| && !s[w].barred[x]
    && w < |s[x].out| && s[x].out[w] != []
  }

  // A step that is not possible changes nothing.
  function Apply(owner: Owner, s: seq<Node>, step: Step): seq<Node> {
    match step
    case Enter(w, item) => if w < |s| then s[w := EnterNode(owner, s[w], w, item)] else s
    case Receive(w, x) =>
      if CanReceive(s, w, x) then
        s[x := s[x].(out := s[x].out[w := s[x].out[w][1..]])]
         [w := ReceiveNode(owner, s[w], w, x, s[x].out[w][0])]
      else s
    case TryEmit(w) => if w < |s| then s[w := TryEmitNode(s[w], w)] else s
  }

  function Run(owner: Owner, n: nat, steps: seq<Step>): seq<Node> {
    if steps == [] then Init(n)
    else Apply(owner, Run(owner, n, steps[..|steps| - 1]), steps[|steps| - 1])
  }

  // ---------------------------------------------------------------- counting

  function Barriers(q: seq<Item>): nat {
    if q == [] then 0 else Barriers(q[..|q| - 1]) + (if q[|q| - 1].Barrier? then 1 else 0)
  }

  lemma BarriersAppend(q: seq<Item>, item: Item)
    ensures Barriers(q + [item]) == Barriers(q) + (if item.Barrier? then 1 else 0)
  {
    assert (q + [item])[..|q|] == q;
  }

  lemma {:induction false} BarriersHead(q: seq<Item>)
    requires q != []
    ensures Barriers(q) == Barriers(q[1..]) + (if q[0].Barrier? then 1 else 0)
  {
    var last := |q| - 1;
    if last > 0 {
      BarriersHead(q[..last]);
      assert q[..last][1..] == q[1..][..last - 1];
    } else {
      assert q[..0] == [] && q[1..] == [];
    }
  }

  // Every record carries the number of barriers ahead of it, starting at `base`.
  ghost predicate Cut(q: seq<Item>, base: nat) {
    forall i :: 0 <= i < |q| && q[i].Data? ==> q[i].cut == base + Barriers(q[..i])
  }

  lemma CutAppend(q: seq<Item>, base: nat, item: Item)
    requires Cut(q, base) && (item.Data? ==> item.cut == base + Barriers(q))
    ensures Cut(q + [item], base)
  {
    forall i | 0 <= i < |q + [item]| && (q + [item])[i].Data? ensures (q + [item])[i].cut == base + Barriers((q + [item])[..i]) {
      if i < |q| {
        assert (q + [item])[..i] == q[..i];
      } else {
        assert (q + [item])[..i] == q;
      }
    }
  }

  lemma CutTail(q: seq<Item>, base: nat)
    requires q != [] && Cut(q, base)
    ensures Cut(q[1..], base + (if q[0].Barrier? then 1 else 0))
  {
    forall i | 0 <= i < |q[1..]| && q[1..][i].Data?
      ensures q[1..][i].cut == base + (if q[0].Barrier? then 1 else 0) + Barriers(q[1..][..i])
    {
      assert q[i + 1].cut == base + Barriers(q[..i + 1]);
      BarriersHead(q[..i + 1]);
      assert q[..i + 1][1..] == q[1..][..i];
    }
  }

  // ---------------------------------------------------------------- invariant

  ghost predicate NodeOk(n: nat, w: Worker, nd: Node) {
    && |nd.barred| == |nd.frontiers| == |nd.out| == n
    && nd.taken == Barriers(nd.output) + (if nd.localBarrier then 1 else 0)
    && nd.taken == Barriers(nd.entered)
    && Cut(nd.output, 0)
    && Cut(nd.entered, 0)
  }

  // Barriers w has taken from x.
  function Base(nd: Node, x: Worker): nat
    requires x < |nd.barred|
  {
    Barriers(nd.output) + (if nd.barred[x] then 1 else 0)
  }

  // Records of q that entered at x and belong to w, in order.
  function Records(owner: Owner, q: seq<Item>, x: Worker, w: Worker): seq<Item> {
    if q == [] then []
    else
      var item := q[|q| - 1];
      Records(owner, q[..|q| - 1], x, w) +
      (if item.Data? && item.from == x && owner(item.key) == w then [item] else [])
  }

  lemma RecordsAppend(owner: Owner, q: seq<Item>, item: Item, x: Worker, w: Worker)
    ensures Records(owner, q + [item], x, w) ==
              Records(owner, q, x, w) + (if item.Data? && item.from == x && owner(item.key) == w then [item] else [])
  {
    assert (q + [item])[..|q|] == q;
  }

  lemma {:induction false} RecordsHead(owner: Owner, q: seq<Item>, x: Worker, w: Worker)
    requires q != []
    ensures Records(owner, q, x, w) ==
              (if q[0].Data? && q[0].from == x && owner(q[0].key) == w then [q[0]] else []) + Records(owner, q[1..], x, w)
  {
    var last := |q| - 1;
    if last > 0 {
      RecordsHead(owner, q[..last], x, w);
      assert q[..last][1..] == q[1..][..last - 1];
      assert q[1..][last - 1] == q[last];
    } else {
      assert q[..0] == [] && q[1..] == [];
    }
  }

  // What w got from x and what is still in the channel is everything that entered at x for w.
  ghost predicate ChannelOk(owner: Owner, x: Worker, ndx: Node, w: Worker, ndw: Node)
    requires w < |ndx.out| && x < |ndw.barred|
  {
    var q := ndx.out[w];
    && ndx.taken == Base(ndw, x) + Barriers(q)
    && Cut(q, Base(ndw, x))
    && (forall i :: 0 <= i < |q| && q[i].Data? ==> q[i].from == x && owner(q[i].key) == w)
    && Records(owner, ndw.output, x, w) + Records(owner, q, x, w) == Records(owner, ndx.entered, x, w)
  }

  ghost predicate Inv(owner: Owner, n: nat, s: seq<Node>) {
    && |s| == n
    && (forall w :: 0 <= w < n ==> NodeOk(n, w, s[w]))
    && (forall w :: 0 <= w < n ==> Records(owner, s[w].output, w, w) == Records(owner, s[w].entered, w, w))
    && (forall x, w :: 0 <= x < n && 0 <= w < n && x != w ==> ChannelOk(owner, x, s[x], w, s[w]))
  }

  lemma InitInv(owner: Owner, n: nat)
    ensures Inv(owner, n, Init(n))
  {
  }

  // ---------------------------------------------------------------- one item more

  // The last item of a sequence as the invariant sees it.
  lemma Append(owner: Owner, q: seq<Item>, base: nat, item: Item)
    requires Cut(q, base) && (item.Data? ==> item.cut == base + Barriers(q))
    ensures Cut(q + [item], base)
    ensures Barriers(q + [item]) == Barriers(q) + (if item.Barrier? then 1 else 0)
    ensures forall x, w :: Records(owner, q + [item], x, w) ==
              Records(owner, q, x, w) + (if item.Data? && item.from == x && owner(item.key) == w then [item] else [])
  {
    CutAppend(q, base, item);
    BarriersAppend(q, item);
    forall x, w ensures Records(owner, q + [item], x, w) ==
              Records(owner, q, x, w) + (if item.Data? && item.from == x && owner(item.key) == w then [item] else []) {
      RecordsAppend(owner, q, item, x, w);
    }
  }

  // An item is put on the channel from x to w.
  lemma ChannelAppend(owner: Owner, x: Worker, ndx: Node, ndx1: Node, w: Worker, ndw: Node, item: Item)
    requires w < |ndx.out| && x < |ndw.barred| && ChannelOk(owner, x, ndx, w, ndw)
    requires w < |ndx1.out| && ndx1.out[w] == ndx.out[w] + [item] && ndx1.entered == ndx.entered + [item]
    requires Cut(ndx.entered, 0)
    requires ndx1.taken == ndx.taken + (if item.Barrier? then 1 else 0)
    requires item.Data? ==> item.from == x && owner(item.key) == w && item.cut == ndx.taken
    requires item.Data? ==> item.cut == Barriers(ndx.entered)
    ensures ChannelOk(owner, x, ndx1, w, ndw)
  {
    Append(owner, ndx.out[w], Base(ndw, x), item);
    Append(owner, ndx.entered, 0, item);
    if item.Data? {
      Regroup(Records(owner, ndw.output, x, w), Records(owner, ndx.out[w], x, w), [item]);
    }
  }

  // x's upstream delivers something that does not concern w, or x's own output changes.
  lemma ChannelSame(owner: Owner, x: Worker, ndx: Node, ndx1: Node, w: Worker, ndw: Node, ndw1: Node)
    requires w < |ndx.out| && x < |ndw.barred| && ChannelOk(owner, x, ndx, w, ndw)
    requires w < |ndx1.out| && x < |ndw1.barred|
    requires ndx1.out[w] == ndx.out[w] && ndx1.taken == ndx.taken
    requires Records(owner, ndx1.entered, x, w) == Records(owner, ndx.entered, x, w)
    requires Base(ndw1, x) == Base(ndw, x)
    requires Records(owner, ndw1.output, x, w) == Records(owner, ndw.output, x, w)
    ensures ChannelOk(owner, x, ndx1, w, ndw1)
  {
  }

  // ---------------------------------------------------------------- steps

  // The effect of handling an epoch on what the invariant of barriers looks at.
  lemma EpochEffect(owner: Owner, n: nat, w: Worker, nd: Node, x: Worker, time: int)
    requires NodeOk(n, w, nd)
    ensures var nd1 := HandleEpoch(nd, x, time);
            && NodeOk(n, w, nd1) && nd1.taken == nd.taken && nd1.out == nd.out && nd1.entered == nd.entered
            && nd1.barred == nd.barred && nd1.localBarrier == nd.localBarrier
            && Barriers(nd1.output) == Barriers(nd.output)
            && forall a, b :: Records(owner, nd1.output, a, b) == Records(owner, nd.output, a, b)
  {
    var nd1 := HandleEpoch(nd, x, time);
    if nd1.output != nd.output {
      Append(owner, nd.output, 0, nd1.output[|nd.output|]);
    }
  }

  lemma EnterDataNode(owner: Owner, n: nat, nd: Node, w: Worker, item: Item)
    requires NodeOk(n, w, nd) && item.Data? && !nd.localBarrier
    ensures var nd1 := EnterNode(owner, nd, w, item);
            && NodeOk(n, w, nd1)
            && nd1.taken == nd.taken && nd1.barred == nd.barred
            && Barriers(nd1.output) == Barriers(nd.output)
  {
    var tagged := Data(item.key, item.time, w, nd.taken);
    CutAppend(nd.entered, 0, tagged);
    BarriersAppend(nd.entered, tagged);
    if owner(item.key) == w {
      CutAppend(nd.output, 0, tagged);
      BarriersAppend(nd.output, tagged);
    }
  }

  lemma EnterDataRecords(owner: Owner, n: nat, nd: Node, w: Worker, item: Item, a: Worker, b: Worker)
    requires |nd.out| == n && item.Data? && !nd.localBarrier
    ensures var tagged := Data(item.key, item.time, w, nd.taken);
            var nd1 := EnterNode(owner, nd, w, item);
            && nd1.entered == nd.entered + [tagged]
            && |nd1.out| == n
            && (forall y :: 0 <= y < n && y != w ==>
                  nd1.out[y] == if y == owner(item.key) then nd.out[y] + [tagged] else nd.out[y])
            && Records(owner, nd1.output, a, b) ==
                  Records(owner, nd.output, a, b) + (if a == w && b == w && owner(item.key) == w then [tagged] else [])
            && Records(owner, nd1.entered, a, b) ==
                  Records(owner, nd.entered, a, b) + (if a == w && b == owner(item.key) then [tagged] else [])
  {
    var tagged := Data(item.key, item.time, w, nd.taken);
    RecordsAppend(owner, nd.entered, tagged, a, b);
    RecordsAppend(owner, nd.output, tagged, a, b);
  }

  lemma EnterDataPair(owner: Owner, n: nat, s: seq<Node>, w: Worker, item: Item, x: Worker, y: Worker)
    requires Inv(owner, n, s) && w < n && item.Data? && !s[w].localBarrier
    requires x < n && y < n && x != y
    requires |s[x].out| == |s[y].barred| == n
    requires |Apply(owner, s, Enter(w, item))| == n
    requires |Apply(owner, s, Enter(w, item))[x].out| == |Apply(owner, s, Enter(w, item))[y].barred| == n
    ensures var t := Apply(owner, s, Enter(w, item)); ChannelOk(owner, x, t[x], y, t[y])
  {
    var t := Apply(owner, s, Enter(w, item));
    assert NodeOk(n, w, s[w]);
    EnterDataNode(owner, n, s[w], w, item);
    EnterDataRecords(owner, n, s[w], w, item, x, y);
    assert ChannelOk(owner, x, s[x], y, s[y]);
    if x == w && y == owner(item.key) {
      ChannelAppend(owner, w, s[w], t[w], y, s[y], Data(item.key, item.time, w, s[w].taken));
    } else {
      ChannelSame(owner, x, s[x], t[x], y, s[y], t[y]);
    }
  }

  lemma EnterDataKeeps(owner: Owner, n: nat, s: seq<Node>, w: Worker, item: Item)
    requires Inv(owner, n, s) && w < n && item.Data? && !s[w].localBarrier
    ensures Inv(owner, n, Apply(owner, s, Enter(w, item)))
  {
    var t := Apply(owner, s, Enter(w, item));
    forall x | 0 <= x < n ensures NodeOk(n, x, t[x]) && Records(owner, t[x].output, x, x) == Records(owner, t[x].entered, x, x) {
      assert NodeOk(n, x, s[x]) && Records(owner, s[x].output, x, x) == Records(owner, s[x].entered, x, x);
      if x == w {
        EnterDataNode(owner, n, s[w], w, item);
        EnterDataRecords(owner, n, s[w], w, item, w, w);
      }
    }
    forall x, y | 0 <= x < n && 0 <= y < n && x != y ensures ChannelOk(owner, x, t[x], y, t[y]) {
      assert NodeOk(n, x, s[x]) && NodeOk(n, y, s[y]) && NodeOk(n, x, t[x]) && NodeOk(n, y, t[y]);
      EnterDataPair(owner, n, s, w, item, x, y);
    }
  }

  lemma EnterEpochNode(owner: Owner, n: nat, nd: Node, w: Worker, time: int)
    requires NodeOk(n, w, nd) && !nd.localBarrier
    ensures var nd1 := EnterNode(owner, nd, w, Epoch(time));
            && NodeOk(n, w, nd1)
            && nd1.taken == nd.taken && nd1.barred == nd.barred && nd1.entered == nd.entered + [Epoch(time)]
            && Barriers(nd1.output) == Barriers(nd.output)
            && (forall y :: 0 <= y < n && y != w ==> nd1.out[y] == nd.out[y] + [Epoch(time)])
            && (forall a, b :: Records(owner, nd1.output, a, b) == Records(owner, nd.output, a, b))
            && (forall a, b :: Records(owner, nd1.entered, a, b) == Records(owner, nd.entered, a, b))
  {
    var nd1 := SendToOthers(nd.(entered := nd.entered + [Epoch(time)]), w, Epoch(time));
    Append(owner, nd.entered, 0, Epoch(time));
    assert NodeOk(n, w, nd1);
    EpochEffect(owner, n, w, nd1, w, time);
  }

  lemma EnterEpochKeeps(owner: Owner, n: nat, s: seq<Node>, w: Worker, item: Item)
    requires Inv(owner, n, s) && w < n && item.Epoch? && !s[w].localBarrier
    ensures Inv(owner, n, Apply(owner, s, Enter(w, item)))
  {
    var t := Apply(owner, s, Enter(w, item));
    assert NodeOk(n, w, s[w]);
    EnterEpochNode(owner, n, s[w], w, item.time);
    assert t == s[w := EnterNode(owner, s[w], w, item)];
    forall x, y | 0 <= x < n && 0 <= y < n && x != y ensures ChannelOk(owner, x, t[x], y, t[y]) {
      assert NodeOk(n, x, s[x]) && NodeOk(n, y, s[y]) && ChannelOk(owner, x, s[x], y, s[y]);
      if x == w {
        ChannelAppend(owner, w, s[w], t[w], y, s[y], item);
      } else {
        ChannelSame(owner, x, s[x], t[x], y, s[y], t[y]);
      }
    }
  }

  lemma EnterBarrierKeeps(owner: Owner, n: nat, s: seq<Node>, w: Worker)
    requires Inv(owner, n, s) && w < n && !s[w].localBarrier
    ensures Inv(owner, n, Apply(owner, s, Enter(w, Barrier)))
  {
    var nd := s[w];
    var t := Apply(owner, s, Enter(w, Barrier));
    assert NodeOk(n, w, nd);
    Append(owner, nd.entered, 0, Barrier);
    forall x, y | 0 <= x < n && 0 <= y < n && x != y ensures ChannelOk(owner, x, t[x], y, t[y]) {
      assert ChannelOk(owner, x, s[x], y, s[y]);
      if x == w {
        ChannelAppend(owner, w, nd, t[w], y, s[y], Barrier);
      } else {
        ChannelSame(owner, x, s[x], t[x], y, s[y], t[y]);
      }
    }
  }

  lemma TryEmitKeeps(owner: Owner, n: nat, s: seq<Node>, w: Worker)
    requires Inv(owner, n, s) && w < n
    ensures Inv(owner, n, Apply(owner, s, TryEmit(w)))
  {
    var nd := s[w];
    var t := Apply(owner, s, TryEmit(w));
    assert NodeOk(n, w, nd);
    if nd.localBarrier && AllBarred(nd, w) {
      Append(owner, nd.output, 0, Barrier);
      forall x, y | 0 <= x < n && 0 <= y < n && x != y ensures ChannelOk(owner, x, t[x], y, t[y]) {
        assert ChannelOk(owner, x, s[x], y, s[y]);
        ChannelSame(owner, x, s[x], t[x], y, s[y], t[y]);
      }
    } else {
      assert t == s;
    }
  }

  // What receiving an item of x does to the receiver w; `q` is the channel.
  lemma ReceiveEffect(owner: Owner, n: nat, w: Worker, nd: Node, x: Worker, item: Item)
    requires NodeOk(n, w, nd) && x < n && x != w && !nd.barred[x]
    requires item.Data? ==> item.from == x && owner(item.key) == w && item.cut == Barriers(nd.output)
    ensures var nd1 := ReceiveNode(owner, nd, w, x, item);
            && NodeOk(n, w, nd1)
            && nd1.taken == nd.taken && nd1.entered == nd.entered && nd1.out == nd.out
            && Barriers(nd1.output) == Barriers(nd.output)
            && (forall z :: 0 <= z < n ==> nd1.barred[z] == (nd.barred[z] || (z == x && item.Barrier?)))
            && (forall a, b :: Records(owner, nd1.output, a, b) ==
                  Records(owner, nd.output, a, b) + (if a == x && b == w && item.Data? then [item] else []))
  {
    match item
    case Data(_, _, _, _) => Append(owner, nd.output, 0, item);
    case Epoch(time) => EpochEffect(owner, n, w, nd, x, time);
    case Barrier =>
  }

  // The channel that is read from.
  lemma ReceiveChannel(owner: Owner, n: nat, x: Worker, ndx: Node, w: Worker, ndw: Node)
    requires NodeOk(n, w, ndw) && NodeOk(n, x, ndx) && x < n && w < n && x != w && !ndw.barred[x]
    requires ChannelOk(owner, x, ndx, w, ndw) && ndx.out[w] != []
    ensures var item := ndx.out[w][0];
            && (item.Data? ==> item.from == x && owner(item.key) == w && item.cut == Barriers(ndw.output))
            && var ndw1 := ReceiveNode(owner, ndw, w, x, item);
            |ndw1.barred| == n && ChannelOk(owner, x, ndx.(out := ndx.out[w := ndx.out[w][1..]]), w, ndw1)
  {
    var q := ndx.out[w];
    var item := q[0];
    assert q[..0] == [];
    assert item.Data? ==> item.from == x && owner(item.key) == w && item.cut == Barriers(ndw.output);
    ReceiveEffect(owner, n, w, ndw, x, item);
    CutTail(q, Base(ndw, x));
    BarriersHead(q);
    RecordsHead(owner, q, x, w);
    Regroup(Records(owner, ndw.output, x, w), if item.Data? then [item] else [], Records(owner, q[1..], x, w));
  }

  // Only the two workers involved change.
  lemma ReceivesAt(owner: Owner, s: seq<Node>, w: Worker, x: Worker, a: Worker)
    requires CanReceive(s, w, x) && a < |s|
    ensures var t := Apply(owner, s, Receive(w, x));
            && |t| == |s|
            && t[a] == if a == w then ReceiveNode(owner, s[w], w, x, s[x].out[w][0])
                       else if a == x then s[x].(out := s[x].out[w := s[x].out[w][1..]]) else s[a]
  {
  }

  lemma ReceivePair(owner: Owner, n: nat, s: seq<Node>, w: Worker, x: Worker, a: Worker, b: Worker)
    requires Inv(owner, n, s) && CanReceive(s, w, x) && a < n && b < n && a != b
    ensures var t := Apply(owner, s, Receive(w, x));
            |t| == n && b < |t[a].out| && a < |t[b].barred| && ChannelOk(owner, a, t[a], b, t[b])
  {
    assert NodeOk(n, w, s[w]) && NodeOk(n, x, s[x]) && NodeOk(n, a, s[a]) && NodeOk(n, b, s[b]);
    assert ChannelOk(owner, x, s[x], w, s[w]) && ChannelOk(owner, a, s[a], b, s[b]);
    ReceivesAt(owner, s, w, x, a);
    ReceivesAt(owner, s, w, x, b);
    ReceiveBetween(owner, n, a, s[a], b, s[b], w, s[w], x, s[x]);
  }

  lemma ReceiveBetween(owner: Owner, n: nat, a: Worker, nda: Node, b: Worker, ndb: Node, w: Worker, ndw: Node, x: Worker, ndx: Node)
    requires a < n && b < n && a != b && w < n && x < n && w != x
    requires NodeOk(n, w, ndw) && NodeOk(n, x, ndx) && NodeOk(n, a, nda) && NodeOk(n, b, ndb)
    requires (a == w ==> nda == ndw) && (a == x ==> nda == ndx) && (b == w ==> ndb == ndw) && (b == x ==> ndb == ndx)
    requires ChannelOk(owner, x, ndx, w, ndw) && ChannelOk(owner, a, nda, b, ndb) && ndx.out[w] != [] && !ndw.barred[x]
    ensures var ndw1 := ReceiveNode(owner, ndw, w, x, ndx.out[w][0]);
            var ndx1 := ndx.(out := ndx.out[w := ndx.out[w][1..]]);
            var nda1 := if a == w then ndw1 else if a == x then ndx1 else nda;
            var ndb1 := if b == w then ndw1 else if b == x then ndx1 else ndb;
            b < |nda1.out| && a < |ndb1.barred| && ChannelOk(owner, a, nda1, b, ndb1)
  {
    var ndw1 := ReceiveNode(owner, ndw, w, x, ndx.out[w][0]);
    var ndx1 := ndx.(out := ndx.out[w := ndx.out[w][1..]]);
    ReceiveChannel(owner, n, x, ndx, w, ndw);
    if !(a == x && b == w) {
      ReceiveEffect(owner, n, w, ndw, x, ndx.out[w][0]);
      ChannelSame(owner, a, nda, if a == w then ndw1 else if a == x then ndx1 else nda,
                  b, ndb, if b == w then ndw1 else if b == x then ndx1 else ndb);
    }
  }

  lemma ReceiveNodes(owner: Owner, n: nat, s: seq<Node>, w: Worker, x: Worker, z: Worker)
    requires Inv(owner, n, s) && CanReceive(s, w, x) && z < n
    ensures var t := Apply(owner, s, Receive(w, x));
            |t| == n && NodeOk(n, z, t[z]) && Records(owner, t[z].output, z, z) == Records(owner, t[z].entered, z, z)
  {
    assert NodeOk(n, w, s[w]) && NodeOk(n, x, s[x]) && ChannelOk(owner, x, s[x], w, s[w]);
    assert NodeOk(n, z, s[z]) && Records(owner, s[z].output, z, z) == Records(owner, s[z].entered, z, z);
    ReceiveChannel(owner, n, x, s[x], w, s[w]);
    ReceiveEffect(owner, n, w, s[w], x, s[x].out[w][0]);
  }

  lemma ReceiveKeeps(owner: Owner, n: nat, s: seq<Node>, w: Worker, x: Worker)
    requires Inv(owner, n, s) && CanReceive(s, w, x)
    ensures Inv(owner, n, Apply(owner, s, Receive(w, x)))
  {
    var t := Apply(owner, s, Receive(w, x));
    forall z | 0 <= z < n ensures NodeOk(n, z, t[z]) && Records(owner, t[z].output, z, z) == Records(owner, t[z].entered, z, z) {
      ReceiveNodes(owner, n, s, w, x, z);
    }
    forall a, b | 0 <= a < n && 0 <= b < n && a != b ensures ChannelOk(owner, a, t[a], b, t[b]) {
      ReceivePair(owner, n, s, w, x, a, b);
    }
  }

  lemma {:induction false} RunInv(owner: Owner, n: nat, steps: seq<Step>)
    ensures Inv(owner, n, Run(owner, n, steps))
  {
    if steps == [] {
      InitInv(owner, n);
    } else {
      var s := Run(owner, n, steps[..|steps| - 1]);
      RunInv(owner, n, steps[..|steps| - 1]);
      match steps[|steps| - 1]
      case Enter(w, item) =>
        if w < n && !s[w].localBarrier {
          match item
          case Data(_, _, _, _) => EnterDataKeeps(owner, n, s, w, item);
          case Epoch(_) => EnterEpochKeeps(owner, n, s, w, item);
          case Barrier => EnterBarrierKeeps(owner, n, s, w);
        } else {
          assert Apply(owner, s, Enter(w, item)) == s;
        }
      case Receive(w, x) => if CanReceive(s, w, x) { ReceiveKeeps(owner, n, s, w, x); }
      case TryEmit(w) => if w < n { TryEmitKeeps(owner, n, s, w); }
    }
  }

  // ---------------------------------------------------------------- the cut

  // Everything ahead of the k-th barrier; all of it if there is none.
  function Until(q: seq<Item>, k: nat): seq<Item> {
    if q == [] then []
    else
      var last := |q| - 1;
      Until(q[..last], k) + (if Barriers(q[..last]) < k || (Barriers(q[..last]) == k && !q[last].Barrier?) then [q[last]] else [])
  }

  // Records entered before the k-th barrier of their upstream, counting from 0.
  function Earlier(q: seq<Item>, k: nat): seq<Item> {
    if q == [] then []
    else Earlier(q[..|q| - 1], k) + (if q[|q| - 1].Data? && q[|q| - 1].cut <= k then [q[|q| - 1]] else [])
  }

  lemma {:induction false} EarlierConcat(p: seq<Item>, q: seq<Item>, k: nat)
    ensures Earlier(p + q, k) == Earlier(p, k) + Earlier(q, k)
  {
    if q == [] {
      assert p + q == p;
    } else {
      EarlierConcat(p, q[..|q| - 1], k);
      assert (p + q)[..|p + q| - 1] == p + q[..|q| - 1];
    }
  }

  lemma {:induction false} EarlierNone(owner: Owner, q: seq<Item>, k: nat, x: Worker, w: Worker)
    requires forall i :: 0 <= i < |q| && q[i].Data? ==> q[i].cut > k
    ensures Earlier(Records(owner, q, x, w), k) == []
  {
    if q != [] {
      EarlierNone(owner, q[..|q| - 1], k, x, w);
      EarlierConcat(Records(owner, q[..|q| - 1], x, w),
                    Records(owner, q, x, w)[|Records(owner, q[..|q| - 1], x, w)|..], k);
    }
  }

  // In a sequence that carries its cuts, position and cut agree.
  lemma {:induction false} EarlierIsUntil(owner: Owner, q: seq<Item>, k: nat, x: Worker, w: Worker)
    requires Cut(q, 0)
    ensures Earlier(Records(owner, q, x, w), k) == Records(owner, Until(q, k), x, w)
  {
    if q != [] {
      var last := |q| - 1;
      assert Cut(q[..last], 0) by {
        forall i | 0 <= i < last && q[..last][i].Data? ensures q[..last][i].cut == Barriers(q[..last][..i]) {
          assert q[..last][..i] == q[..i];
        }
      }
      EarlierIsUntil(owner, q[..last], k, x, w);
      var item := q[last];
      var mine := item.Data? && item.from == x && owner(item.key) == w;
      assert item.Data? ==> item.cut == Barriers(q[..last]);
      EarlierConcat(Records(owner, q[..last], x, w), if mine then [item] else [], k);
      EarlierOne(item, k);
      if Until(q, k) != Until(q[..last], k) {
        RecordsAppend(owner, Until(q[..last], k), item, x, w);
      }
    }
  }

  lemma EarlierOne(item: Item, k: nat)
    ensures Earlier([item], k) == if item.Data? && item.cut <= k then [item] else []
    ensures Earlier([], k) == []
  {
    assert [item][..0] == [];
  }

  /** Consistent cut: once w has emitted its k-th barrier, what it had emitted before that barrier of the
      records that entered at x is exactly what entered at x for w before x's k-th local barrier, in order. */
  lemma CutIsConsistent(owner: Owner, n: nat, steps: seq<Step>, x: Worker, w: Worker, k: nat)
    requires x < n && w < n && |Run(owner, n, steps)| == n
    requires k < Barriers(Run(owner, n, steps)[w].output)
    ensures var s := Run(owner, n, steps);
            Records(owner, Until(s[w].output, k), x, w) == Records(owner, Until(s[x].entered, k), x, w)
  {
    RunInv(owner, n, steps);
    var s := Run(owner, n, steps);
    assert NodeOk(n, w, s[w]) && NodeOk(n, x, s[x]);
    EarlierIsUntil(owner, s[w].output, k, x, w);
    EarlierIsUntil(owner, s[x].entered, k, x, w);
    if x != w {
      assert ChannelOk(owner, x, s[x], w, s[w]);
      EarlierNone(owner, s[x].out[w], k, x, w);
      EarlierConcat(Records(owner, s[w].output, x, w), Records(owner, s[x].out[w], x, w), k);
    }
  }

  // No channel content belongs to a snapshot the receiver has completed.
  lemma ChannelsHoldNothingOfTheCut(owner: Owner, n: nat, steps: seq<Step>, x: Worker, w: Worker, i: nat)
    requires x < n && w < n && x != w && |Run(owner, n, steps)| == n
    requires w < |Run(owner, n, steps)[x].out| && i < |Run(owner, n, steps)[x].out[w]|
    ensures var s := Run(owner, n, steps);
            s[x].out[w][i].Data? ==> s[x].out[w][i].cut >= Barriers(s[w].output)
  {
    RunInv(owner, n, steps);
    assert ChannelOk(owner, x, Run(owner, n, steps)[x], w, Run(owner, n, steps)[w]);
  }
}
