/**
  That a rescale gets to its end: what has to have been exchanged for a worker to be back to Normal, and that
  no run, whatever happened in it, is ever stuck on the way there.
*/
module Completion {
  import opened Basics
  import opened Router
  import opened Cluster
  import opened LocalInvariant
  import opened PairInvariant
  import opened Handshake

  // ---------------------------------------------------------------- nothing is lost

  // An upgrade is taken note of or under way, and so is the answer to it.
  ghost predicate Told(cfg: Config, x: Worker, ndx: Node, y: Worker, ndy: Node)
    requires y < |ndx.out| && x < |ndy.out|
  {
    && (Phase(ndx) >= 3 ==> SettledBy(cfg, ndy, x) || Upgrade(cfg.newVersion) in ndx.out[y])
    && (SettledBy(cfg, ndy, x) ==> Acked(cfg, ndx, y) || AckUpgrade(cfg.newVersion) in ndy.out[x])
  }

  ghost predicate AllTold(cfg: Config, s: Cluster) {
    && |s.nodes| == cfg.n
    && (forall w :: 0 <= w < cfg.n ==> |s.nodes[w].out| == cfg.n)
    && (forall x, y :: 0 <= x < cfg.n && 0 <= y < cfg.n && x != y ==> Told(cfg, x, s.nodes[x], y, s.nodes[y]))
  }

  // What a worker has asked its operators for is answered or still in their queue.
  predicate Asked(nd: Node) {
    && (nd.router.Interrogating? && nd.router.copies != 0 ==> DInterrogate in nd.down)
    && (nd.router.Collecting? && nd.router.current.Some? && nd.router.current.value.copies != 0 ==>
         DCollect(nd.router.current.value.key) in nd.down)
  }

  // A worker moves on: channels only grow, and whoever gets to the last phase has told everyone.
  ghost predicate Proceeds(cfg: Config, w: Worker, nd: Node, nd1: Node) {
    && |nd.out| == |nd1.out| == cfg.n
    && Advances(cfg, nd, nd1)
    && (forall y :: 0 <= y < cfg.n ==> nd.out[y] <= nd1.out[y])
    && (Phase(nd) < 3 <= Phase(nd1) ==> forall y :: 0 <= y < cfg.n && y != w ==> Upgrade(cfg.newVersion) in nd1.out[y])
  }

  lemma StaysIn(q: seq<Packet>, q1: seq<Packet>, p: Packet)
    requires q <= q1 && p in q
    ensures p in q1
  {
    var i :| 0 <= i < |q| && q[i] == p;
    assert q1[i] == p;
  }

  lemma ToldProceeds(cfg: Config, x: Worker, ndx: Node, ndx1: Node, y: Worker, ndy: Node, ndy1: Node)
    requires x < cfg.n && y < cfg.n && x != y && |ndx.out| == |ndy.out| == cfg.n && Told(cfg, x, ndx, y, ndy)
    requires ndx1 == ndx || Proceeds(cfg, x, ndx, ndx1)
    requires ndy1 == ndy || (Proceeds(cfg, y, ndy, ndy1) && HearsNothing(cfg, y, ndy, ndy1))
    ensures Told(cfg, x, ndx1, y, ndy1)
  {
    if Upgrade(cfg.newVersion) in ndx.out[y] { StaysIn(ndx.out[y], ndx1.out[y], Upgrade(cfg.newVersion)); }
    if AckUpgrade(cfg.newVersion) in ndy.out[x] { StaysIn(ndy.out[x], ndy1.out[x], AckUpgrade(cfg.newVersion)); }
  }

  lemma MoveTells(cfg: Config, s: Cluster, w: Worker, nd1: Node)
    requires AllTold(cfg, s) && w < cfg.n
    requires Proceeds(cfg, w, s.nodes[w], nd1) && HearsNothing(cfg, w, s.nodes[w], nd1)
    ensures AllTold(cfg, s.(nodes := s.nodes[w := nd1]))
  {
    var nodes := s.nodes[w := nd1];
    forall x, y | 0 <= x < cfg.n && 0 <= y < cfg.n && x != y ensures Told(cfg, x, nodes[x], y, nodes[y]) {
      assert Told(cfg, x, s.nodes[x], y, s.nodes[y]);
      ToldProceeds(cfg, x, s.nodes[x], nodes[x], y, s.nodes[y], nodes[y]);
    }
  }

  // ---------------------------------------------------------------- steps

  lemma DataProceeds(cfg: Config, w: Worker, nd: Node, rec: Record, hops: nat, version: Option<Version>, sender: Worker)
    requires ValidConfig(cfg) && Stage(cfg, w, nd) && Asked(nd)
    ensures var nd1 := HandleData(cfg.part, nd, rec, hops, version, w, sender);
            Proceeds(cfg, w, nd, nd1) && HearsNothing(cfg, w, nd, nd1) && Asked(nd1)
  {
    DataEffect(cfg, w, nd, rec, hops, version, sender);
    DataAsked(cfg, w, nd, rec, hops, version, sender);
  }

  lemma DataAsked(cfg: Config, w: Worker, nd: Node, rec: Record, hops: nat, version: Option<Version>, sender: Worker)
    requires Asked(nd)
    ensures Asked(HandleData(cfg.part, nd, rec, hops, version, w, sender))
  {
    assert nd.down <= HandleData(cfg.part, nd, rec, hops, version, w, sender).down;
  }

  lemma RescaleProceeds(cfg: Config, w: Worker, nd: Node)
    requires ValidConfig(cfg) && Stage(cfg, w, nd) && Asked(nd) && (!nd.rescaled || !nd.router.Normal?)
    ensures var nd1 := HandleRescale(nd, cfg.newWorkers, cfg.newVersion, w);
            Proceeds(cfg, w, nd, nd1) && HearsNothing(cfg, w, nd, nd1) && Asked(nd1)
  {
    RescaleStage(cfg, w, nd);
    var nd1 := HandleRescale(nd, cfg.newWorkers, cfg.newVersion, w);
    assert nd.router.Normal? ==> nd1.down[|nd.down|] == DInterrogate;
  }

  lemma OperatorProceeds(cfg: Config, w: Worker, nd: Node)
    requires Stage(cfg, w, nd) && Asked(nd) && nd.down != []
    ensures var nd1 := Operate(cfg.part, cfg.onData, cfg.default, nd);
            Proceeds(cfg, w, nd, nd1) && HearsNothing(cfg, w, nd, nd1) && Asked(nd1)
  {
    var nd1 := Operate(cfg.part, cfg.onData, cfg.default, nd);
    OperateStage(cfg, w, nd);
    assert HearsNothing(cfg, w, nd, nd1);
    OperatorAsked(cfg, nd);
  }

  lemma OperatorAsked(cfg: Config, nd: Node)
    requires Asked(nd) && nd.down != []
    ensures Asked(Operate(cfg.part, cfg.onData, cfg.default, nd))
  {
    var nd1 := Operate(cfg.part, cfg.onData, cfg.default, nd);
    assert nd.down == [nd.down[0]] + nd1.down;
    if nd1.router.Collecting? {
      assert nd1.router.current.Some? == nd.router.current.Some?;
    }
  }

  lemma ShipProceeds(cfg: Config, w: Worker, nd: Node)
    requires Stage(cfg, w, nd) && CanCollect(nd)
    ensures var nd1 := Ship(cfg.part, nd);
            && Proceeds(cfg, w, nd, nd1) && nd1.remotes == nd.remotes && Phase(nd1) == 2 && Asked(nd1)
            && nd1.router.Collecting? && nd1.router.whitelist == nd.router.whitelist && nd1.router.version == nd.router.version
  {
  }

  lemma StartProceeds(cfg: Config, w: Worker, nd: Node, pick: Key)
    requires |nd.out| == cfg.n && Asked(nd) && nd.router.Collecting?
    requires nd.router.whitelist != {} ==> pick in nd.router.whitelist
    ensures var nd1 := StartCollect(nd, pick);
            && nd1.out == nd.out && nd1.remotes == nd.remotes && nd1.router.Collecting? && Asked(nd1)
            && nd1.router.version == nd.router.version
  {
    var nd1 := StartCollect(nd, pick);
    assert nd1 != nd ==> nd1.down[|nd.down|] == DCollect(pick);
  }

  lemma FinishProceeds(cfg: Config, w: Worker, nd: Node)
    requires |nd.out| == cfg.n && Asked(nd) && nd.router.Collecting? && nd.router.version == cfg.newVersion
    requires forall y :: 0 <= y < cfg.n && y != w ==> y in nd.remotes
    ensures var nd1 := FinishCollect(nd);
            Proceeds(cfg, w, nd, nd1) && nd1.remotes == nd.remotes && Phase(nd1) <= 3 && Asked(nd1)
  {
    var nd1 := FinishCollect(nd);
    forall y | 0 <= y < cfg.n && y != w && nd1.router.Finished? ensures Upgrade(cfg.newVersion) in nd1.out[y] {
      assert nd1.out[y][|nd.out[y]|] == Upgrade(cfg.newVersion);
    }
  }

  lemma CollectProceeds(cfg: Config, w: Worker, nd: Node, pick: Key)
    requires Stage(cfg, w, nd) && Asked(nd) && nd.router.Collecting?
    requires nd.router.whitelist != {} ==> pick in nd.router.whitelist
    ensures var nd1 := LifecycleCollecting(cfg.part, nd, pick);
            Proceeds(cfg, w, nd, nd1) && HearsNothing(cfg, w, nd, nd1) && Asked(nd1)
  {
    var nd1 := if CanCollect(nd) then Ship(cfg.part, nd) else nd;
    if CanCollect(nd) { ShipProceeds(cfg, w, nd); }
    StartProceeds(cfg, w, nd1, pick);
    FinishProceeds(cfg, w, StartCollect(nd1, pick));
  }

  lemma LifecycleProceeds(cfg: Config, w: Worker, nd: Node, pick: Key)
    requires Stage(cfg, w, nd) && Asked(nd)
    requires nd.router.Collecting? && nd.router.whitelist != {} ==> pick in nd.router.whitelist
    ensures var nd1 := Lifecycle(cfg.part, nd, pick);
            Proceeds(cfg, w, nd, nd1) && HearsNothing(cfg, w, nd, nd1) && Asked(nd1)
  {
    if nd.router.Collecting? { CollectProceeds(cfg, w, nd, pick); }
  }

  // A packet that is neither an upgrade nor an answer leaves its channel.
  lemma PopTells(cfg: Config, s: Cluster, w: Worker, x: Worker)
    requires AllTold(cfg, s) && HasPacket(s, w, x)
    requires !s.nodes[x].out[w][0].Upgrade? && !s.nodes[x].out[w][0].AckUpgrade?
    ensures AllTold(cfg, s.(nodes := s.nodes[x := Popped(s.nodes[x], w)]))
  {
    var nodes := s.nodes[x := Popped(s.nodes[x], w)];
    var q := s.nodes[x].out[w];
    assert q == [q[0]] + q[1..];
    forall a, b | 0 <= a < cfg.n && 0 <= b < cfg.n && a != b ensures Told(cfg, a, nodes[a], b, nodes[b]) {
      assert Told(cfg, a, s.nodes[a], b, s.nodes[b]);
    }
  }

  lemma HearTells(cfg: Config, s: Cluster, w: Worker, x: Worker)
    requires AllTold(cfg, s) && HasPacket(s, w, x)
    requires s.nodes[x].out[w][0] == Upgrade(cfg.newVersion) || s.nodes[x].out[w][0] == AckUpgrade(cfg.newVersion)
    ensures AllTold(cfg, Apply(cfg, s, Receive(w, x)))
  {
    var p := s.nodes[x].out[w][0];
    var t := Apply(cfg, s, Receive(w, x));
    forall a, b | 0 <= a < cfg.n && 0 <= b < cfg.n && a != b ensures Told(cfg, a, t.nodes[a], b, t.nodes[b]) {
      assert Told(cfg, a, s.nodes[a], b, s.nodes[b]);
      HearPairTells(cfg, a, s.nodes[a], b, s.nodes[b], w, s.nodes[w], x, s.nodes[x]);
    }
  }

  lemma HearPairTells(cfg: Config, a: Worker, nda: Node, b: Worker, ndb: Node, w: Worker, nd: Node, x: Worker, ndx: Node)
    requires a < cfg.n && b < cfg.n && a != b && w < cfg.n && x < cfg.n && x != w && x in nd.remotes
    requires |nda.out| == |ndb.out| == |nd.out| == |ndx.out| == cfg.n && ndx.out[w] != []
    requires (a == w ==> nda == nd) && (b == w ==> ndb == nd) && (a == x ==> nda == ndx) && (b == x ==> ndb == ndx)
    requires ndx.out[w][0] == Upgrade(cfg.newVersion) || ndx.out[w][0] == AckUpgrade(cfg.newVersion)
    requires Told(cfg, a, nda, b, ndb)
    ensures var nd1 := HandlePacket(cfg.part, nd, ndx.out[w][0], w, x);
            var nda1 := if a == w then nd1 else if a == x then Popped(ndx, w) else nda;
            var ndb1 := if b == w then nd1 else if b == x then Popped(ndx, w) else ndb;
            b < |nda1.out| && a < |ndb1.out| && Told(cfg, a, nda1, b, ndb1)
  {
    var q := ndx.out[w];
    var nd1 := HandlePacket(cfg.part, nd, q[0], w, x);
    assert q == [q[0]] + q[1..];
    HeardIs(cfg, w, nd, x, q[0]);
    assert Phase(Popped(ndx, w)) == Phase(ndx);
  }

  lemma HeardIs(cfg: Config, w: Worker, nd: Node, x: Worker, p: Packet)
    requires x in nd.remotes && x < |nd.out| && (p == Upgrade(cfg.newVersion) || p == AckUpgrade(cfg.newVersion))
    ensures var nd1 := HandlePacket(cfg.part, nd, p, w, x);
            && |nd1.out| == |nd.out| && Phase(nd1) == Phase(nd)
            && (forall y :: 0 <= y < |nd.out| ==> nd.out[y] <= nd1.out[y])
            && (forall y, m :: 0 <= y < |nd.out| && m in nd.out[y] ==> m in nd1.out[y])
            && (forall z :: SettledBy(cfg, nd1, z) <==> SettledBy(cfg, nd, z) || (z == x && p.Upgrade?))
            && (forall z :: Acked(cfg, nd1, z) <==> Acked(cfg, nd, z) || (z == x && p.AckUpgrade?))
            && (p.Upgrade? ==> AckUpgrade(cfg.newVersion) in nd1.out[x])
  {
    var nd1 := HandlePacket(cfg.part, nd, p, w, x);
    assert forall y :: 0 <= y < |nd.out| ==> nd1.out[y] == nd.out[y] + Reply(p, y, x);
    if p.Upgrade? { assert nd1.out[x][|nd.out[x]|] == AckUpgrade(cfg.newVersion); }
  }

  ghost predicate Going(cfg: Config, s: Cluster) {
    && AllAgree(cfg, s) && AllTold(cfg, s)
    && forall w :: 0 <= w < cfg.n ==> Asked(s.nodes[w])
  }

  // A record or state arrives.
  lemma LoadGoes(cfg: Config, s: Cluster, w: Worker, x: Worker)
    requires ValidConfig(cfg) && Going(cfg, s) && HasPacket(s, w, x)
    requires s.nodes[x].out[w][0].Data? || s.nodes[x].out[w][0].Acquire?
    ensures AllTold(cfg, Apply(cfg, s, Receive(w, x)))
  {
    var p := s.nodes[x].out[w][0];
    var t := s.(nodes := s.nodes[x := Popped(s.nodes[x], w)]);
    assert Calm(cfg, w, s.nodes[w]);
    PopTells(cfg, s, w, x);
    if p.Data? { DataProceeds(cfg, w, s.nodes[w], p.rec, p.hops, Some(p.version), x); }
    MoveTells(cfg, t, w, HandlePacket(cfg.part, s.nodes[w], p, w, x));
  }

  lemma PacketAsked(cfg: Config, w: Worker, nd: Node, p: Packet, x: Worker)
    requires Asked(nd) && x in nd.remotes && x < |nd.out|
    ensures Asked(HandlePacket(cfg.part, nd, p, w, x))
  {
    if p.Data? { DataAsked(cfg, w, nd, p.rec, p.hops, Some(p.version), x); }
    assert p.Acquire? ==> nd.down <= HandlePacket(cfg.part, nd, p, w, x).down;
  }

  lemma ReceiveGoes(cfg: Config, s: Cluster, w: Worker, x: Worker)
    requires ValidConfig(cfg) && Going(cfg, s) && HasPacket(s, w, x)
    ensures AllTold(cfg, Apply(cfg, s, Receive(w, x)))
    ensures forall z :: 0 <= z < cfg.n ==> Asked(Apply(cfg, s, Receive(w, x)).nodes[z])
  {
    var p := s.nodes[x].out[w][0];
    PacketAsked(cfg, w, s.nodes[w], p, x);
    if p.Data? || p.Acquire? {
      LoadGoes(cfg, s, w, x);
    } else {
      assert Calm(cfg, x, s.nodes[x]) && Signals(cfg, s.nodes[x], w) && Signal(cfg, s.nodes[x], w, p);
      HearTells(cfg, s, w, x);
    }
  }

  lemma StepGoes(cfg: Config, s: Cluster, step: Step)
    requires ValidConfig(cfg) && Going(cfg, s) && Possible(cfg, s, step)
    ensures Going(cfg, Apply(cfg, s, step))
  {
    StepAgrees(cfg, s, step);
    if !step.Receive? { assert Calm(cfg, step.w, s.nodes[step.w]); }
    match step
    case Inject(w, rec) =>
      DataProceeds(cfg, w, s.nodes[w], rec, 0, None, w);
      MoveTells(cfg, s, w, HandleData(cfg.part, s.nodes[w], rec, 0, None, w, w));
    case StartRescale(w) =>
      RescaleProceeds(cfg, w, s.nodes[w]);
      MoveTells(cfg, s, w, HandleRescale(s.nodes[w], cfg.newWorkers, cfg.newVersion, w));
    case RunLifecycle(w, pick) =>
      LifecycleProceeds(cfg, w, s.nodes[w], pick);
      MoveTells(cfg, s, w, Lifecycle(cfg.part, s.nodes[w], pick));
    case RunOperator(w) =>
      OperatorProceeds(cfg, w, s.nodes[w]);
      MoveTells(cfg, s, w, Operate(cfg.part, cfg.onData, cfg.default, s.nodes[w]));
    case Receive(w, x) => ReceiveGoes(cfg, s, w, x);
  }

  lemma {:induction false} RunGoes(cfg: Config, run: seq<Cluster>, i: nat)
    requires ValidConfig(cfg) && IsUngatedRun(cfg, run) && i < |run|
    ensures Going(cfg, run[i])
  {
    if i == 0 {
      InitAgrees(cfg, run[0]);
      InitTold(cfg, run[0]);
    } else {
      RunGoes(cfg, run, i - 1);
      assert UngatedNext(cfg, run[i - 1], run[i - 1 + 1]);
      var step :| Possible(cfg, run[i - 1], step) && run[i] == Apply(cfg, run[i - 1], step);
      StepGoes(cfg, run[i - 1], step);
    }
  }

  lemma InitTold(cfg: Config, s: Cluster)
    requires ValidConfig(cfg) && Init(cfg, s)
    ensures AllTold(cfg, s) && forall w :: 0 <= w < cfg.n ==> Asked(s.nodes[w])
  {
    forall w | 0 <= w < cfg.n ensures Asked(s.nodes[w]) && |s.nodes[w].out| == cfg.n && Phase(s.nodes[w]) == 0 {
      assert InitNode(cfg, w, s.nodes[w]);
    }
    forall x, y | 0 <= x < cfg.n && 0 <= y < cfg.n && x != y ensures Told(cfg, x, s.nodes[x], y, s.nodes[y]) {
      assert InitNode(cfg, x, s.nodes[x]) && InitNode(cfg, y, s.nodes[y]);
    }
  }

  // ---------------------------------------------------------------- back to Normal

  // x has finished collecting, and neither its upgrade nor the answer to w's is still to be taken by w; nor is
  // w's own upgrade still to be taken by x.
  predicate Exchanged(cfg: Config, s: Cluster, w: Worker, x: Worker)
    requires w < |s.nodes| && x < |s.nodes| && w < |s.nodes[x].out| && x < |s.nodes[w].out|
  {
    && Phase(s.nodes[x]) >= 3
    && Upgrade(cfg.newVersion) !in s.nodes[x].out[w]
    && AckUpgrade(cfg.newVersion) !in s.nodes[x].out[w]
    && Upgrade(cfg.newVersion) !in s.nodes[w].out[x]
  }

  // The connections a worker keeps.
  function Kept(remotes: map<Worker, Remote>, workers: seq<Worker>): map<Worker, Remote> {
    map x | x in remotes && x in workers :: remotes[x]
  }

  // What w remembers of the exchange with x.
  predicate Remembered(cfg: Config, nd: Node, x: Worker) {
    x in nd.remotes && nd.remotes[x].lastVersion == Some(cfg.newVersion) && nd.remotes[x].lastAck == Some(cfg.newVersion)
  }

  lemma ExchangedIs(cfg: Config, s: Cluster, w: Worker, x: Worker)
    requires Going(cfg, s) && w < cfg.n && x < cfg.n && w != x && Phase(s.nodes[w]) == 3
    ensures Exchanged(cfg, s, w, x) <==> Remembered(cfg, s.nodes[w], x)
  {
    assert Calm(cfg, w, s.nodes[w]);
    assert Told(cfg, x, s.nodes[x], w, s.nodes[w]) && Told(cfg, w, s.nodes[w], x, s.nodes[x]);
    assert Agree(cfg, x, s.nodes[x], w, s.nodes[w]) && Agree(cfg, w, s.nodes[w], x, s.nodes[x]);
  }

  ghost predicate BackToNormal(cfg: Config, w: Worker, nd: Node, nd1: Node) {
    && nd1.router == Normal(cfg.newWorkers, cfg.newVersion)
    && nd1.down == nd.down + [DRescale]
    && nd1.remotes == Kept(nd.remotes, cfg.newWorkers)
    && (forall x :: x in nd1.remotes <==> x in cfg.newWorkers && x != w)
    && nd1.out == nd.out && nd1.store == nd.store
  }

  lemma LastTurn(cfg: Config, w: Worker, nd: Node, pick: Key)
    requires ValidConfig(cfg) && Stage(cfg, w, nd) && Phase(nd) == 3
    ensures var nd1 := Lifecycle(cfg.part, nd, pick);
            if forall x :: 0 <= x < cfg.n && x != w ==> Remembered(cfg, nd, x) then BackToNormal(cfg, w, nd, nd1)
            else nd1 == nd
  {
    LeavingKept(cfg, w, nd);
    forall x | x in nd.remotes
      ensures Remembered(cfg, nd, x) <==> nd.remotes[x].lastVersion == Some(cfg.newVersion) && nd.remotes[x].lastAck == Some(cfg.newVersion)
    {
    }
  }

  /** A turn in the last phase: if upgrades and answers have been exchanged with every other worker, the worker
      is Normal on the new set with the new version, tells its operators and keeps exactly the connections to the
      new workers; if not, nothing happens. In every run, whatever the order of deliveries. */
  lemma NormalIff(cfg: Config, run: seq<Cluster>, i: nat, w: Worker, pick: Key)
    requires ValidConfig(cfg) && IsUngatedRun(cfg, run) && i < |run| && w < cfg.n
    requires |run[i].nodes| == cfg.n && Phase(run[i].nodes[w]) == 3
    ensures forall x :: 0 <= x < cfg.n ==> |run[i].nodes[x].out| == cfg.n
    ensures var nd := run[i].nodes[w];
            var nd1 := Lifecycle(cfg.part, nd, pick);
            if forall x :: 0 <= x < cfg.n && x != w ==> Exchanged(cfg, run[i], w, x) then BackToNormal(cfg, w, nd, nd1)
            else nd1 == nd
  {
    RunGoes(cfg, run, i);
    assert Calm(cfg, w, run[i].nodes[w]);
    forall x | 0 <= x < cfg.n && x != w ensures Exchanged(cfg, run[i], w, x) <==> Remembered(cfg, run[i].nodes[w], x) {
      ExchangedIs(cfg, run[i], w, x);
    }
    LastTurn(cfg, w, run[i].nodes[w], pick);
  }

  lemma LeavingKept(cfg: Config, w: Worker, nd: Node)
    requires ValidConfig(cfg) && Stage(cfg, w, nd) && Phase(nd) == 3
    ensures nd.remotes - Leaving(nd.router.oldWorkers, nd.router.newWorkers) == Kept(nd.remotes, cfg.newWorkers)
    ensures forall x :: x in Kept(nd.remotes, cfg.newWorkers) <==> x in cfg.newWorkers && x != w
  {
    forall x | x in nd.remotes ensures x in Leaving(nd.router.oldWorkers, nd.router.newWorkers) <==> x !in cfg.newWorkers {
      assert x in cfg.oldWorkers || x in cfg.newWorkers;
    }
  }
}
