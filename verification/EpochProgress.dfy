/**
  That epochs get through: a distributor has always sent the lowest of the epochs it has last read from each
  worker, its own upstream included, and sends one whenever it reads one.
*/
module EpochProgress {
  import opened Basics
  import opened ConsistentCut

  function Times(q: seq<Item>): seq<int> {
    if q == [] then [] else Times(q[..|q| - 1]) + (if q[|q| - 1].Epoch? then [q[|q| - 1].time] else [])
  }

  function Latest(times: seq<int>): Option<int> {
    if times == [] then None else Some(times[|times| - 1])
  }

  // What of x is still on its way to w.
  function Ahead(ndx: Node, x: Worker, w: Worker): seq<int>
    requires w < |ndx.out|
  {
    if x == w then [] else Times(ndx.out[w])
  }

  lemma {:induction false} TimesConcat(p: seq<Item>, q: seq<Item>)
    ensures Times(p + q) == Times(p) + Times(q)
  {
    if q == [] {
      assert p + q == p;
    } else {
      TimesConcat(p, q[..|q| - 1]);
      assert (p + q)[..|p + q| - 1] == p + q[..|q| - 1];
    }
  }

  lemma TimesAppend(q: seq<Item>, item: Item)
    ensures Times(q + [item]) == Times(q) + (if item.Epoch? then [item.time] else [])
  {
    assert (q + [item])[..|q|] == q;
  }

  lemma TimesHead(q: seq<Item>)
    requires q != []
    ensures Times(q) == (if q[0].Epoch? then [q[0].time] else []) + Times(q[1..])
  {
    assert q == [q[0]] + q[1..];
    TimesConcat([q[0]], q[1..]);
    assert [q[0]][..0] == [];
  }

  // ---------------------------------------------------------------- invariant

  // w has read a beginning of the epochs that x's upstream has delivered, and remembers the last one.
  ghost predicate LinkOk(x: Worker, ndx: Node, w: Worker, ndw: Node, read: seq<int>)
    requires w < |ndx.out| && x < |ndw.frontiers|
  {
    Times(ndx.entered) == read + Ahead(ndx, x, w) && ndw.frontiers[x] == Latest(read)
  }

  function Read(ndx: Node, x: Worker, w: Worker): seq<int>
    requires w < |ndx.out| && |Ahead(ndx, x, w)| <= |Times(ndx.entered)|
  {
    Times(ndx.entered)[..|Times(ndx.entered)| - |Ahead(ndx, x, w)|]
  }

  ghost predicate Linked(x: Worker, ndx: Node, w: Worker, ndw: Node)
    requires w < |ndx.out| && x < |ndw.frontiers|
  {
    |Ahead(ndx, x, w)| <= |Times(ndx.entered)| && LinkOk(x, ndx, w, ndw, Read(ndx, x, w))
  }

  ghost predicate SentMerged(nd: Node) {
    Latest(Times(nd.output)) == Merge(nd.frontiers)
  }

  ghost predicate Fits(n: nat, s: seq<Node>) {
    |s| == n && forall w :: 0 <= w < n ==> |s[w].out| == |s[w].frontiers| == n
  }

  ghost predicate AllMerged(s: seq<Node>) {
    forall w :: 0 <= w < |s| ==> SentMerged(s[w])
  }

  ghost predicate AllLinked(n: nat, s: seq<Node>)
    requires Fits(n, s)
  {
    forall x, w :: 0 <= x < n && 0 <= w < n ==> Linked(x, s[x], w, s[w])
  }

  ghost predicate Kept(n: nat, s: seq<Node>) {
    Fits(n, s) && AllMerged(s) && AllLinked(n, s)
  }

  lemma LinkedFrom(x: Worker, ndx: Node, w: Worker, ndw: Node, read: seq<int>)
    requires w < |ndx.out| && x < |ndw.frontiers| && LinkOk(x, ndx, w, ndw, read)
    ensures Linked(x, ndx, w, ndw) && Read(ndx, x, w) == read
  {
    assert (read + Ahead(ndx, x, w))[..|read|] == read;
  }

  lemma LinkedSame(x: Worker, ndx: Node, ndx1: Node, w: Worker, ndw: Node, ndw1: Node)
    requires w < |ndx.out| && x < |ndw.frontiers| && w < |ndx1.out| && x < |ndw1.frontiers| && Linked(x, ndx, w, ndw)
    requires ndx1.entered == ndx.entered && ndw1.frontiers[x] == ndw.frontiers[x] && (x != w ==> ndx1.out[w] == ndx.out[w])
    ensures Linked(x, ndx1, w, ndw1) && Read(ndx1, x, w) == Read(ndx, x, w) == Read(ndx, x, w) + []
  {
  }

  // From s to t, w reads `more` of the epochs of x and nothing of the others.
  ghost predicate Grown(s: seq<Node>, t: seq<Node>, w: Worker, x: Worker, more: seq<int>, y: Worker) {
    && y < |s| && y < |t| && w < |s[y].out| && w < |t[y].out|
    && |Ahead(s[y], y, w)| <= |Times(s[y].entered)| && |Ahead(t[y], y, w)| <= |Times(t[y].entered)|
    && Read(t[y], y, w) == Read(s[y], y, w) + (if y == x then more else [])
  }

  function TimeOf(item: Item): seq<int> {
    if item.Epoch? then [item.time] else []
  }

  // ---------------------------------------------------------------- taking an epoch

  lemma MergeStarts(frontiers: seq<Option<int>>, x: nat, time: int)
    requires x < |frontiers| && Merge(frontiers).Some?
    ensures Merge(frontiers[x := Some(time)]).Some?
  {
    MergeIsMin(frontiers);
    MergeIsMin(frontiers[x := Some(time)]);
  }

  lemma EpochSends(nd: Node, x: Worker, time: int)
    requires x < |nd.frontiers| && SentMerged(nd)
    ensures var nd1 := HandleEpoch(nd, x, time);
            && SentMerged(nd1) && nd1.frontiers == nd.frontiers[x := Some(time)]
            && nd1.out == nd.out && nd1.entered == nd.entered
  {
    var nd1 := HandleEpoch(nd, x, time);
    if nd1.output != nd.output {
      TimesAppend(nd.output, Epoch(Merge(nd1.frontiers).value));
    } else if Merge(nd.frontiers).Some? {
      MergeStarts(nd.frontiers, x, time);
    }
  }

  lemma StaysMerged(nd: Node, nd1: Node)
    requires SentMerged(nd) && nd1.frontiers == nd.frontiers
    requires nd1.output == nd.output || exists item: Item :: !item.Epoch? && nd1.output == nd.output + [item]
    ensures SentMerged(nd1) && Times(nd1.output) == Times(nd.output)
  {
    if nd1.output != nd.output {
      var item: Item :| !item.Epoch? && nd1.output == nd.output + [item];
      TimesAppend(nd.output, item);
    }
  }

  // ---------------------------------------------------------------- the local upstream

  // What has entered at a is also on its way to b, unless it is a record; and b has heard nothing new.
  lemma EnteredLinked(a: Worker, nda: Node, nda1: Node, b: Worker, ndb: Node, ndb1: Node, item: Item)
    requires a != b && b < |nda.out| && b < |nda1.out| && a < |ndb.frontiers| && a < |ndb1.frontiers|
    requires Linked(a, nda, b, ndb) && ndb1.frontiers[a] == ndb.frontiers[a]
    requires nda1.entered == nda.entered + [item]
    requires nda1.out[b] == nda.out[b] + [item] || (!item.Epoch? && nda1.out[b] == nda.out[b])
    ensures Linked(a, nda1, b, ndb1) && Read(nda1, a, b) == Read(nda, a, b)
  {
    TimesAppend(nda.entered, item);
    TimesAppend(nda.out[b], item);
    var read, more := Read(nda, a, b), if item.Epoch? then [item.time] else [];
    Regroup(read, Times(nda.out[b]), more);
    assert Times(nda.out[b]) + [] == Times(nda.out[b]);
    LinkedFrom(a, nda1, b, ndb1, read);
  }

  // What a worker's own upstream delivers it has read at once.
  lemma EnteredOwn(w: Worker, nd: Node, nd1: Node, item: Item)
    requires w < |nd.out| && w < |nd1.out| && w < |nd.frontiers| && w < |nd1.frontiers|
    requires Linked(w, nd, w, nd) && nd1.entered == nd.entered + [item]
    requires nd1.frontiers[w] == if item.Epoch? then Some(item.time) else nd.frontiers[w]
    ensures Linked(w, nd1, w, nd1)
    ensures Read(nd1, w, w) == Read(nd, w, w) + (if item.Epoch? then [item.time] else [])
  {
    TimesAppend(nd.entered, item);
    assert Times(nd1.entered) + [] == Times(nd1.entered);
    LinkedFrom(w, nd1, w, nd1, Times(nd1.entered));
  }

  lemma EnterPair(owner: Owner, a: Worker, nda: Node, b: Worker, ndb: Node, w: Worker, nd: Node, item: Item)
    requires !nd.localBarrier && SentMerged(nd) && w < |nd.frontiers| == |nd.out| && b < |nda.out| && a < |ndb.frontiers|
    requires (a == w ==> nda == nd) && (b == w ==> ndb == nd) && b < |nd.out| && a < |nd.out| && Linked(a, nda, b, ndb)
    ensures var nd1 := EnterNode(owner, nd, w, item);
            var nda1 := if a == w then nd1 else nda;
            var ndb1 := if b == w then nd1 else ndb;
            && b < |nda1.out| && a < |ndb1.frontiers| && Linked(a, nda1, b, ndb1)
            && Read(nda1, a, b) == Read(nda, a, b) + (if a == b == w && item.Epoch? then [item.time] else [])
  {
    var nd1 := EnterNode(owner, nd, w, item);
    var tagged := if item.Data? then Data(item.key, item.time, w, nd.taken) else item;
    EnterMerged(owner, nd, w, item);
    if a == w && b == w {
      EnteredOwn(w, nd, nd1, tagged);
    } else if a == w {
      EnteredLinked(w, nd, nd1, b, ndb, ndb, tagged);
    } else if b == w {
      LinkedSame(a, nda, nda, w, nd, nd1);
    }
  }

  lemma EnterLink(owner: Owner, n: nat, s: seq<Node>, w: Worker, item: Item, a: Worker, b: Worker)
    requires Fits(n, s) && w < n && !s[w].localBarrier && SentMerged(s[w])
    requires a < n && b < n && Linked(a, s[a], b, s[b])
    ensures var t := Apply(owner, s, Enter(w, item));
            Fits(n, t) && Linked(a, t[a], b, t[b]) && (b == w ==> Grown(s, t, w, w, TimeOf(item), a))
  {
    EnterMerged(owner, s[w], w, item);
    EnterPair(owner, a, s[a], b, s[b], w, s[w], item);
  }

  lemma EnterLinks(owner: Owner, n: nat, s: seq<Node>, w: Worker, item: Item)
    requires Fits(n, s) && AllLinked(n, s) && w < n && !s[w].localBarrier && SentMerged(s[w])
    ensures var t := Apply(owner, s, Enter(w, item));
            Fits(n, t) && AllLinked(n, t)
  {
    var t := Apply(owner, s, Enter(w, item));
    EnterMerged(owner, s[w], w, item);
    forall a, b | 0 <= a < n && 0 <= b < n ensures Linked(a, t[a], b, t[b]) {
      EnterLink(owner, n, s, w, item, a, b);
    }
  }

  lemma EnterKeeps(owner: Owner, n: nat, s: seq<Node>, w: Worker, item: Item)
    requires Kept(n, s) && w < n && !s[w].localBarrier
    ensures Kept(n, Apply(owner, s, Enter(w, item)))
  {
    EnterMerged(owner, s[w], w, item);
    EnterLinks(owner, n, s, w, item);
  }

  lemma EnterMerged(owner: Owner, nd: Node, w: Worker, item: Item)
    requires SentMerged(nd) && !nd.localBarrier && w < |nd.frontiers| == |nd.out|
    ensures var nd1 := EnterNode(owner, nd, w, item);
            && SentMerged(nd1) && |nd1.out| == |nd1.frontiers| == |nd.out|
            && nd1.frontiers == (if item.Epoch? then nd.frontiers[w := Some(item.time)] else nd.frontiers)
            && nd1.entered == nd.entered + [if item.Data? then Data(item.key, item.time, w, nd.taken) else item]
  {
    var nd1 := EnterNode(owner, nd, w, item);
    match item
    case Data(_, _, _, _) => StaysMerged(nd, nd1);
    case Epoch(time) => EpochSends(SendToOthers(nd.(entered := nd.entered + [item]), w, item), w, time);
    case Barrier => StaysMerged(nd, nd1);
  }

  // ---------------------------------------------------------------- other workers

  // The next item from x: an epoch is read, other items change nothing here.
  lemma ReceivedLinked(x: Worker, ndx: Node, w: Worker, ndw: Node, ndw1: Node)
    requires x != w && w < |ndx.out| && ndx.out[w] != [] && x < |ndw.frontiers| && x < |ndw1.frontiers|
    requires Linked(x, ndx, w, ndw)
    requires var item := ndx.out[w][0];
             ndw1.frontiers[x] == if item.Epoch? then Some(item.time) else ndw.frontiers[x]
    ensures var ndx1 := ndx.(out := ndx.out[w := ndx.out[w][1..]]);
            && Linked(x, ndx1, w, ndw1)
            && Read(ndx1, x, w) == Read(ndx, x, w) + (if ndx.out[w][0].Epoch? then [ndx.out[w][0].time] else [])
  {
    var ndx1 := ndx.(out := ndx.out[w := ndx.out[w][1..]]);
    var read, more := Read(ndx, x, w), if ndx.out[w][0].Epoch? then [ndx.out[w][0].time] else [];
    TimesHead(ndx.out[w]);
    Regroup(read, more, Times(ndx1.out[w]));
    LinkedFrom(x, ndx1, w, ndw1, read + more);
  }

  lemma ReceiveMerged(owner: Owner, nd: Node, w: Worker, x: Worker, item: Item)
    requires SentMerged(nd) && x < |nd.frontiers| && (item.Data? ==> owner(item.key) == w)
    ensures var nd1 := ReceiveNode(owner, nd, w, x, item);
            && SentMerged(nd1) && nd1.out == nd.out && nd1.entered == nd.entered
            && nd1.frontiers == if item.Epoch? then nd.frontiers[x := Some(item.time)] else nd.frontiers
  {
    match item
    case Data(_, _, _, _) => StaysMerged(nd, ReceiveNode(owner, nd, w, x, item));
    case Epoch(time) => EpochSends(nd, x, time);
    case Barrier =>
  }

  lemma ReceivePair(owner: Owner, a: Worker, nda: Node, b: Worker, ndb: Node, w: Worker, nd: Node, x: Worker, ndx: Node)
    requires x != w && w < |ndx.out| && ndx.out[w] != [] && SentMerged(nd) && x < |nd.frontiers|
    requires ndx.out[w][0].Data? ==> owner(ndx.out[w][0].key) == w
    requires (a == w ==> nda == nd) && (b == w ==> ndb == nd) && (a == x ==> nda == ndx) && (b == x ==> ndb == ndx)
    requires b < |nda.out| && a < |ndb.frontiers| && Linked(a, nda, b, ndb)
    ensures var nd1 := ReceiveNode(owner, nd, w, x, ndx.out[w][0]);
            var ndx1 := ndx.(out := ndx.out[w := ndx.out[w][1..]]);
            var nda1 := if a == w then nd1 else if a == x then ndx1 else nda;
            var ndb1 := if b == w then nd1 else if b == x then ndx1 else ndb;
            && b < |nda1.out| && a < |ndb1.frontiers| && Linked(a, nda1, b, ndb1)
            && Read(nda1, a, b) ==
               Read(nda, a, b) + (if a == x && b == w && ndx.out[w][0].Epoch? then [ndx.out[w][0].time] else [])
  {
    var nd1 := ReceiveNode(owner, nd, w, x, ndx.out[w][0]);
    var ndx1 := ndx.(out := ndx.out[w := ndx.out[w][1..]]);
    ReceiveMerged(owner, nd, w, x, ndx.out[w][0]);
    if a == x && b == w {
      ReceivedLinked(x, ndx, w, nd, nd1);
    } else {
      LinkedSame(a, nda, if a == w then nd1 else if a == x then ndx1 else nda,
                 b, ndb, if b == w then nd1 else if b == x then ndx1 else ndb);
    }
  }

  lemma ReceiveFits(owner: Owner, n: nat, s: seq<Node>, w: Worker, x: Worker, a: Worker)
    requires Fits(n, s) && CanReceive(s, w, x) && SentMerged(s[w]) && a < n
    requires s[x].out[w][0].Data? ==> owner(s[x].out[w][0].key) == w
    ensures var t := Apply(owner, s, Receive(w, x));
            && |t| == n && |t[a].out| == |t[a].frontiers| == n
            && t[a] == if a == w then ReceiveNode(owner, s[w], w, x, s[x].out[w][0])
                       else if a == x then s[x].(out := s[x].out[w := s[x].out[w][1..]]) else s[a]
  {
    ReceivesAt(owner, s, w, x, a);
    ReceiveMerged(owner, s[w], w, x, s[x].out[w][0]);
  }

  lemma ReceiveLink(owner: Owner, n: nat, s: seq<Node>, w: Worker, x: Worker, a: Worker, b: Worker)
    requires Fits(n, s) && CanReceive(s, w, x) && SentMerged(s[w])
    requires s[x].out[w][0].Data? ==> owner(s[x].out[w][0].key) == w
    requires a < n && b < n && Linked(a, s[a], b, s[b])
    ensures var t := Apply(owner, s, Receive(w, x));
            && |t| == n && b < |t[a].out| && a < |t[b].frontiers|
            && Linked(a, t[a], b, t[b]) && (b == w ==> Grown(s, t, w, x, TimeOf(s[x].out[w][0]), a))
  {
    ReceiveFits(owner, n, s, w, x, a);
    ReceiveFits(owner, n, s, w, x, b);
    ReceivePair(owner, a, s[a], b, s[b], w, s[w], x, s[x]);
  }

  lemma ReceiveLinks(owner: Owner, n: nat, s: seq<Node>, w: Worker, x: Worker)
    requires Fits(n, s) && AllLinked(n, s) && CanReceive(s, w, x) && SentMerged(s[w])
    requires s[x].out[w][0].Data? ==> owner(s[x].out[w][0].key) == w
    ensures Fits(n, Apply(owner, s, Receive(w, x))) && AllLinked(n, Apply(owner, s, Receive(w, x)))
  {
    var t := Apply(owner, s, Receive(w, x));
    forall a | 0 <= a < n ensures |t| == n && |t[a].out| == |t[a].frontiers| == n {
      ReceiveFits(owner, n, s, w, x, a);
    }
    forall a, b | 0 <= a < n && 0 <= b < n ensures Linked(a, t[a], b, t[b]) {
      ReceiveLink(owner, n, s, w, x, a, b);
    }
  }

  lemma ReceiveMerges(owner: Owner, n: nat, s: seq<Node>, w: Worker, x: Worker)
    requires Fits(n, s) && AllMerged(s) && CanReceive(s, w, x)
    requires s[x].out[w][0].Data? ==> owner(s[x].out[w][0].key) == w
    ensures AllMerged(Apply(owner, s, Receive(w, x)))
  {
    var t := Apply(owner, s, Receive(w, x));
    ReceiveMerged(owner, s[w], w, x, s[x].out[w][0]);
    forall a | 0 <= a < |t| ensures SentMerged(t[a]) {
      ReceiveFits(owner, n, s, w, x, a);
      assert SentMerged(s[a]);
    }
  }

  lemma ReceiveKeeps(owner: Owner, n: nat, s: seq<Node>, w: Worker, x: Worker)
    requires Kept(n, s) && CanReceive(s, w, x) && (s[x].out[w][0].Data? ==> owner(s[x].out[w][0].key) == w)
    ensures Kept(n, Apply(owner, s, Receive(w, x)))
  {
    ReceiveMerges(owner, n, s, w, x);
    ReceiveLinks(owner, n, s, w, x);
  }

  // ---------------------------------------------------------------- runs

  lemma InitKept(n: nat)
    ensures Kept(n, Init(n))
  {
    var s := Init(n);
    forall w | 0 <= w < n ensures SentMerged(s[w]) {
      MergeIsMin(s[w].frontiers);
    }
  }

  lemma TryEmitKeeps(owner: Owner, n: nat, s: seq<Node>, w: Worker)
    requires Kept(n, s) && w < n
    ensures Kept(n, Apply(owner, s, TryEmit(w)))
  {
    StaysMerged(s[w], TryEmitNode(s[w], w));
    TryEmitLinks(owner, n, s, w);
  }

  lemma TryEmitLinks(owner: Owner, n: nat, s: seq<Node>, w: Worker)
    requires Fits(n, s) && AllLinked(n, s) && w < n
    ensures Fits(n, Apply(owner, s, TryEmit(w))) && AllLinked(n, Apply(owner, s, TryEmit(w)))
  {
    var t := Apply(owner, s, TryEmit(w));
    forall a, b | 0 <= a < n && 0 <= b < n ensures Linked(a, t[a], b, t[b]) {
      assert Linked(a, s[a], b, s[b]);
      LinkedSame(a, s[a], t[a], b, s[b], t[b]);
    }
  }

  lemma ForItsReader(owner: Owner, n: nat, s: seq<Node>, w: Worker, x: Worker)
    requires Inv(owner, n, s) && CanReceive(s, w, x)
    ensures s[x].out[w][0].Data? ==> owner(s[x].out[w][0].key) == w
  {
    assert ChannelOk(owner, x, s[x], w, s[w]);
  }

  lemma {:induction false} RunKept(owner: Owner, n: nat, steps: seq<Step>)
    ensures Kept(n, Run(owner, n, steps))
  {
    if steps == [] {
      InitKept(n);
    } else {
      var s := Run(owner, n, steps[..|steps| - 1]);
      RunKept(owner, n, steps[..|steps| - 1]);
      RunInv(owner, n, steps[..|steps| - 1]);
      match steps[|steps| - 1]
      case Enter(w, item) =>
        if w < n && !s[w].localBarrier { EnterKeeps(owner, n, s, w, item); } else { assert Apply(owner, s, Enter(w, item)) == s; }
      case Receive(w, x) =>
        if CanReceive(s, w, x) {
          ForItsReader(owner, n, s, w, x);
          ReceiveKeeps(owner, n, s, w, x);
        }
      case TryEmit(w) => if w < n { TryEmitKeeps(owner, n, s, w); }
    }
  }

  // ---------------------------------------------------------------- theorems

  ghost predicate Sized(n: nat, s: seq<Node>, w: Worker) {
    |s| == n && w < n && forall x :: 0 <= x < n ==> w < |s[x].out| && |Ahead(s[x], x, w)| <= |Times(s[x].entered)|
  }

  // The last epoch w has read from x.
  function LastRead(s: seq<Node>, w: Worker, x: Worker): Option<int>
    requires x < |s| && w < |s[x].out| && |Ahead(s[x], x, w)| <= |Times(s[x].entered)|
  {
    Latest(Read(s[x], x, w))
  }

  // Of the last epochs w has read from each worker, the lowest; there is none before it has read one from each.
  ghost predicate Lowest(n: nat, s: seq<Node>, w: Worker, e: Option<int>)
    requires Sized(n, s, w)
  {
    && (e.Some? <==> forall x :: 0 <= x < n ==> LastRead(s, w, x).Some?)
    && (e.Some? ==>
         && (forall x :: 0 <= x < n ==> e.value <= LastRead(s, w, x).value)
         && (exists x :: 0 <= x < n && LastRead(s, w, x) == e))
  }

  lemma MergedIsLowest(n: nat, s: seq<Node>, w: Worker)
    requires Kept(n, s) && w < n
    ensures Sized(n, s, w) && Lowest(n, s, w, Merge(s[w].frontiers))
  {
    forall x | 0 <= x < n ensures Linked(x, s[x], w, s[w]) && s[w].frontiers[x] == LastRead(s, w, x) {
      assert Linked(x, s[x], w, s[w]);
    }
    MergeIsMin(s[w].frontiers);
  }

  /** In every run: the last epoch a distributor has sent downstream is the lowest of those it has last read from
      each worker; it has sent none exactly as long as it has not read one from each. */
  lemma SendsTheLowest(owner: Owner, n: nat, steps: seq<Step>, w: Worker)
    requires w < n
    ensures Sized(n, Run(owner, n, steps), w)
    ensures Lowest(n, Run(owner, n, steps), w, Latest(Times(Run(owner, n, steps)[w].output)))
  {
    RunKept(owner, n, steps);
    MergedIsLowest(n, Run(owner, n, steps), w);
  }

  // An epoch of x is the next thing w reads.
  predicate NextIsEpoch(s: seq<Node>, w: Worker, x: Worker, step: Step, time: int) {
    && w < |s|
    && if x == w then step == Enter(w, Epoch(time)) && !s[w].localBarrier
       else step == Receive(w, x) && CanReceive(s, w, x) && s[x].out[w][0] == Epoch(time)
  }

  // One epoch, if there is one to send.
  predicate Sends(nd: Node, nd1: Node, e: Option<int>) {
    nd1.output == nd.output + (if e.Some? then [Epoch(e.value)] else [])
  }

  /** With each epoch it reads, a distributor sends exactly one, the lowest, once it has read one from each. */
  lemma SendsOnEveryEpoch(owner: Owner, n: nat, steps: seq<Step>, w: Worker, x: Worker, step: Step, time: int)
    requires w < n && x < n && NextIsEpoch(Run(owner, n, steps), w, x, step, time)
    ensures var s := Run(owner, n, steps);
            var t := Apply(owner, s, step);
            && Sized(n, t, w)
            && (forall y :: 0 <= y < n ==> Grown(s, t, w, x, [time], y))
            && exists e: Option<int> :: Lowest(n, t, w, e) && Sends(s[w], t[w], e)
  {
    var s := Run(owner, n, steps);
    var t := Apply(owner, s, step);
    RunKept(owner, n, steps);
    assert (steps + [step])[..|steps|] == steps;
    RunKept(owner, n, steps + [step]);
    forall y | 0 <= y < n ensures Grown(s, t, w, x, [time], y) {
      ReadsOne(owner, n, s, w, x, step, time, y);
    }
    MergedIsLowest(n, t, w);
    SendsMerged(owner, s, w, x, step, time);
  }

  lemma ReadsOne(owner: Owner, n: nat, s: seq<Node>, w: Worker, x: Worker, step: Step, time: int, y: Worker)
    requires Fits(n, s) && x < n && y < n && NextIsEpoch(s, w, x, step, time)
    requires SentMerged(s[w]) && Linked(y, s[y], w, s[w])
    ensures Grown(s, Apply(owner, s, step), w, x, [time], y)
  {
    if x == w {
      EnterLink(owner, n, s, w, Epoch(time), y, w);
    } else {
      ReceiveLink(owner, n, s, w, x, y, w);
    }
  }

  lemma SendsMerged(owner: Owner, s: seq<Node>, w: Worker, x: Worker, step: Step, time: int)
    requires NextIsEpoch(s, w, x, step, time) && x < |s[w].frontiers|
    ensures var t := Apply(owner, s, step);
            |t| == |s| && Sends(s[w], t[w], Merge(t[w].frontiers))
  {
  }
}
