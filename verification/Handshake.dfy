/**
  Upgrade and acknowledgement between distributors. Nothing here depends on keys, on when packets are
  delivered, or on which workers were built with the enlarged set: it holds in every run of everything the
  program allows.
*/
module Handshake {
  import opened Basics
  import opened Router
  import opened Cluster
  import opened LocalInvariant
  import opened PairInvariant

  // ---------------------------------------------------------------- invariant

  predicate Signal(cfg: Config, nd: Node, y: Worker, p: Packet) {
    match p
    case Data(_, _, _, _) => true
    case Acquire(_, _) => y in cfg.newWorkers
    case Upgrade(version) => version == cfg.newVersion && Phase(nd) >= 3
    case AckUpgrade(version) => version == cfg.newVersion
  }

  // `later` may follow `p` on a channel.
  predicate Follows(p: Packet, later: Packet) {
    match later
    case Data(_, _, _, _) => true
    case Acquire(_, _) => !p.Upgrade?
    case Upgrade(_) => !p.Upgrade?
    case AckUpgrade(_) => !p.AckUpgrade?
  }

  ghost predicate InSequence(q: seq<Packet>) {
    forall i, j :: 0 <= i < j < |q| ==> Follows(q[i], q[j])
  }

  ghost predicate Signals(cfg: Config, nd: Node, y: Worker)
    requires y < |nd.out|
  {
    InSequence(nd.out[y]) && forall i :: 0 <= i < |nd.out[y]| ==> Signal(cfg, nd, y, nd.out[y][i])
  }

  ghost predicate Calm(cfg: Config, w: Worker, nd: Node) {
    Stage(cfg, w, nd) && forall y :: 0 <= y < cfg.n && y != w ==> Signals(cfg, nd, y)
  }

  ghost predicate Agree(cfg: Config, x: Worker, ndx: Node, y: Worker, ndy: Node)
    requires y < |ndx.out|
  {
    HandshakeOk(cfg, x, ndx, y, ndy) && Quiet(cfg, x, ndx, y, ndy)
  }

  ghost predicate AllAgree(cfg: Config, s: Cluster) {
    && |s.nodes| == cfg.n
    && (forall w :: 0 <= w < cfg.n ==> Calm(cfg, w, s.nodes[w]))
    && (forall x, y :: 0 <= x < cfg.n && 0 <= y < cfg.n && x != y ==> Agree(cfg, x, s.nodes[x], y, s.nodes[y]))
  }

  lemma InitAgrees(cfg: Config, s: Cluster)
    requires ValidConfig(cfg) && Init(cfg, s)
    ensures AllAgree(cfg, s)
  {
    forall w | 0 <= w < cfg.n ensures Calm(cfg, w, s.nodes[w]) {
      assert InitNode(cfg, w, s.nodes[w]);
    }
    forall x, y | 0 <= x < cfg.n && 0 <= y < cfg.n && x != y ensures Agree(cfg, x, s.nodes[x], y, s.nodes[y]) {
      assert InitNode(cfg, x, s.nodes[x]) && InitNode(cfg, y, s.nodes[y]);
    }
  }

  // ---------------------------------------------------------------- moves of one worker

  predicate MayAdd(cfg: Config, nd: Node, nd1: Node, y: Worker, p: Packet) {
    match p
    case Data(_, _, _, _) => y in cfg.newWorkers || Phase(nd) < 3 || !SettledBy(cfg, nd, y)
    case Acquire(_, _) => Phase(nd) < 3
    case Upgrade(_) => Phase(nd) < 3
    case AckUpgrade(_) => SettledBy(cfg, nd1, y) && !SettledBy(cfg, nd, y)
  }

  // What was sent to y before, and then packets that may be sent.
  ghost predicate Adds(cfg: Config, nd: Node, nd1: Node, y: Worker, packets: seq<Packet>)
    requires y < |nd.out| && y < |nd1.out|
  {
    && nd1.out[y] == nd.out[y] + packets
    && (forall i :: 0 <= i < |packets| ==> MayAdd(cfg, nd, nd1, y, packets[i]))
    && (y !in cfg.newWorkers ==> |packets| <= 1)
  }

  ghost predicate Advances(cfg: Config, nd: Node, nd1: Node) {
    && Phase(nd) <= Phase(nd1)
    && (forall z :: SettledBy(cfg, nd, z) ==> SettledBy(cfg, nd1, z))
    && (forall z :: Acked(cfg, nd, z) ==> Acked(cfg, nd1, z))
  }

  ghost predicate HearsNothing(cfg: Config, w: Worker, nd: Node, nd1: Node) {
    forall z :: 0 <= z < cfg.n && z != w ==>
      (SettledBy(cfg, nd1, z) ==> SettledBy(cfg, nd, z)) && (Acked(cfg, nd1, z) ==> Acked(cfg, nd, z))
  }

  lemma SenderAgrees(cfg: Config, x: Worker, ndx: Node, ndx1: Node, packets: seq<Packet>, y: Worker, ndy: Node)
    requires y < |ndx.out| && y < |ndx1.out| && Signals(cfg, ndx, y) && Agree(cfg, x, ndx, y, ndy)
    requires Advances(cfg, ndx, ndx1) && Adds(cfg, ndx, ndx1, y, packets)
    ensures Agree(cfg, x, ndx1, y, ndy)
  {
    var q, q1 := ndx.out[y], ndx1.out[y];
    assert forall j :: 0 <= j < |q1| ==> q1[j] == if j < |q| then q[j] else packets[j - |q|];
    assert forall i :: 0 <= i < |q| ==> Signal(cfg, ndx, y, q[i]);
  }

  lemma ReceiverAgrees(cfg: Config, x: Worker, ndx: Node, y: Worker, ndy: Node, ndy1: Node)
    requires y < |ndx.out| && Agree(cfg, x, ndx, y, ndy)
    requires (SettledBy(cfg, ndy1, x) ==> SettledBy(cfg, ndy, x)) && (Acked(cfg, ndy1, x) ==> Acked(cfg, ndy, x))
    ensures Agree(cfg, x, ndx, y, ndy1)
  {
  }

  lemma MoveAgrees(cfg: Config, s: Cluster, w: Worker, nd1: Node)
    requires AllAgree(cfg, s) && w < cfg.n && Calm(cfg, w, nd1)
    requires Advances(cfg, s.nodes[w], nd1) && HearsNothing(cfg, w, s.nodes[w], nd1)
    requires forall y :: 0 <= y < cfg.n && y != w ==>
               s.nodes[w].out[y] <= nd1.out[y] && Adds(cfg, s.nodes[w], nd1, y, nd1.out[y][|s.nodes[w].out[y]|..])
    ensures AllAgree(cfg, s.(nodes := s.nodes[w := nd1]))
  {
    var nodes := s.nodes[w := nd1];
    forall x, y | 0 <= x < cfg.n && 0 <= y < cfg.n && x != y ensures Agree(cfg, x, nodes[x], y, nodes[y]) {
      assert Agree(cfg, x, s.nodes[x], y, s.nodes[y]);
      if x == w {
        assert Calm(cfg, w, s.nodes[w]);
        SenderAgrees(cfg, w, s.nodes[w], nd1, nd1.out[y][|s.nodes[w].out[y]|..], y, s.nodes[y]);
      } else if y == w {
        ReceiverAgrees(cfg, x, s.nodes[x], w, s.nodes[w], nd1);
      }
    }
  }

  // A worker that sends nothing and stays in its phase.
  lemma StillCalm(cfg: Config, w: Worker, nd: Node, nd1: Node)
    requires Calm(cfg, w, nd) && nd1.out == nd.out && Phase(nd1) >= Phase(nd) && Stage(cfg, w, nd1)
    ensures Calm(cfg, w, nd1)
  {
    forall y | 0 <= y < cfg.n && y != w ensures Signals(cfg, nd1, y) {
      assert Signals(cfg, nd, y);
      assert forall i :: 0 <= i < |nd.out[y]| ==> Signal(cfg, nd, y, nd.out[y][i]);
    }
  }

  lemma SequenceGrows(q: seq<Packet>, more: seq<Packet>)
    requires InSequence(q) && InSequence(more)
    requires forall i, j :: 0 <= i < |q| && 0 <= j < |more| ==> Follows(q[i], more[j])
    ensures InSequence(q + more)
  {
    forall i, j | 0 <= i < j < |q + more| ensures Follows((q + more)[i], (q + more)[j]) {
      if i < |q| && j >= |q| {
        assert Follows(q[i], more[j - |q|]);
      }
    }
  }

  // ---------------------------------------------------------------- records

  // Where a record is sent in the last phases: to a new worker, or to one that has not announced its upgrade.
  lemma DataEffect(cfg: Config, w: Worker, nd: Node, rec: Record, hops: nat, version: Option<Version>, sender: Worker)
    requires ValidConfig(cfg) && Stage(cfg, w, nd)
    ensures var nd1 := HandleData(cfg.part, nd, rec, hops, version, w, sender);
            && nd1.remotes == nd.remotes && Phase(nd1) == Phase(nd) && Stage(cfg, w, nd1)
            && (nd1.out == nd.out || exists t :: DataSent(cfg, w, nd, nd1, t))
  {
    var r := RouteMessage(cfg.part, nd.router, rec, hops, version, w, sender, nd.remotes);
    var nd1 := HandleData(cfg.part, nd, rec, hops, version, w, sender);
    assert New(cfg, rec.key) in cfg.newWorkers;
    if nd1.out != nd.out {
      assert DataSent(cfg, w, nd, nd1, r.target.value);
    }
  }

  ghost predicate DataSent(cfg: Config, w: Worker, nd: Node, nd1: Node, t: Worker) {
    && t < |nd.out| && t != w && (t in cfg.newWorkers || Phase(nd) < 3 || !SettledBy(cfg, nd, t))
    && exists p: Packet :: p.Data? && nd1.out == nd.out[t := nd.out[t] + [p]]
  }

  lemma DataAgrees(cfg: Config, s: Cluster, w: Worker, rec: Record, hops: nat, version: Option<Version>, sender: Worker)
    requires ValidConfig(cfg) && AllAgree(cfg, s) && w < cfg.n
    ensures AllAgree(cfg, s.(nodes := s.nodes[w := HandleData(cfg.part, s.nodes[w], rec, hops, version, w, sender)]))
  {
    var nd := s.nodes[w];
    var nd1 := HandleData(cfg.part, nd, rec, hops, version, w, sender);
    assert Calm(cfg, w, nd);
    DataEffect(cfg, w, nd, rec, hops, version, sender);
    if nd1.out == nd.out {
      StillCalm(cfg, w, nd, nd1);
    } else {
      var t :| DataSent(cfg, w, nd, nd1, t);
      DataCalm(cfg, w, nd, nd1, t);
    }
    MoveAgrees(cfg, s, w, nd1);
  }

  lemma DataCalm(cfg: Config, w: Worker, nd: Node, nd1: Node, t: Worker)
    requires Calm(cfg, w, nd) && Stage(cfg, w, nd1) && Phase(nd1) == Phase(nd) && DataSent(cfg, w, nd, nd1, t)
    ensures Calm(cfg, w, nd1)
  {
    var p: Packet :| p.Data? && nd1.out == nd.out[t := nd.out[t] + [p]];
    forall y | 0 <= y < cfg.n && y != w ensures Signals(cfg, nd1, y) {
      assert Signals(cfg, nd, y);
      assert forall i :: 0 <= i < |nd.out[y]| ==> Signal(cfg, nd, y, nd.out[y][i]);
      if y == t { SequenceGrows(nd.out[y], [p]); }
    }
  }

  // ---------------------------------------------------------------- lifecycle and rescale message

  lemma RescaleAgrees(cfg: Config, s: Cluster, w: Worker)
    requires ValidConfig(cfg) && AllAgree(cfg, s) && Possible(cfg, s, StartRescale(w))
    ensures AllAgree(cfg, Apply(cfg, s, StartRescale(w)))
  {
    var nd := s.nodes[w];
    var nd1 := HandleRescale(nd, cfg.newWorkers, cfg.newVersion, w);
    assert Calm(cfg, w, nd);
    RescaleStage(cfg, w, nd);
    StillCalm(cfg, w, nd, nd1);
    MoveAgrees(cfg, s, w, nd1);
  }

  lemma RescaleStage(cfg: Config, w: Worker, nd: Node)
    requires ValidConfig(cfg) && Stage(cfg, w, nd) && (!nd.rescaled || !nd.router.Normal?)
    ensures var nd1 := HandleRescale(nd, cfg.newWorkers, cfg.newVersion, w);
            Stage(cfg, w, nd1) && Advances(cfg, nd, nd1) && HearsNothing(cfg, w, nd, nd1)
  {
    var nd1 := HandleRescale(nd, cfg.newWorkers, cfg.newVersion, w);
    forall x | 0 <= x < cfg.n && x != w ensures x in nd1.remotes {
      assert x in cfg.oldWorkers || x in cfg.newWorkers;
    }
  }

  lemma ShipAgrees(cfg: Config, s: Cluster, w: Worker)
    requires ValidConfig(cfg) && AllAgree(cfg, s) && w < cfg.n && CanCollect(s.nodes[w])
    ensures AllAgree(cfg, s.(nodes := s.nodes[w := Ship(cfg.part, s.nodes[w])]))
  {
    var nd := s.nodes[w];
    var nd1 := Ship(cfg.part, nd);
    assert Calm(cfg, w, nd);
    ShipCalm(cfg, w, nd);
    MoveAgrees(cfg, s, w, nd1);
  }

  lemma ShipCalm(cfg: Config, w: Worker, nd: Node)
    requires ValidConfig(cfg) && Calm(cfg, w, nd) && CanCollect(nd)
    ensures var nd1 := Ship(cfg.part, nd);
            && Calm(cfg, w, nd1) && nd1.remotes == nd.remotes && Phase(nd1) == Phase(nd) == 2
            && forall y :: 0 <= y < cfg.n && y != w ==>
                 nd.out[y] <= nd1.out[y] && Adds(cfg, nd, nd1, y, nd1.out[y][|nd.out[y]|..])
  {
    var nd1 := Ship(cfg.part, nd);
    var c := nd.router.current.value;
    var packets := [Acquire(c.key, c.collection)] + Released(nd.router.buffered, nd.router.version);
    assert New(cfg, c.key) in cfg.newWorkers;
    forall y | 0 <= y < cfg.n && y != w
      ensures Signals(cfg, nd1, y) && nd.out[y] <= nd1.out[y] && Adds(cfg, nd, nd1, y, nd1.out[y][|nd.out[y]|..])
    {
      assert Signals(cfg, nd, y);
      assert forall i :: 0 <= i < |nd.out[y]| ==> Signal(cfg, nd, y, nd.out[y][i]) && !nd.out[y][i].Upgrade?;
      if nd1.out[y] != nd.out[y] {
        SequenceGrows(nd.out[y], packets);
      }
    }
  }

  lemma StartCollectAgrees(cfg: Config, s: Cluster, w: Worker, pick: Key)
    requires AllAgree(cfg, s) && w < cfg.n && s.nodes[w].router.Collecting?
    requires s.nodes[w].router.whitelist != {} ==> pick in s.nodes[w].router.whitelist
    ensures AllAgree(cfg, s.(nodes := s.nodes[w := StartCollect(s.nodes[w], pick)]))
  {
    assert Calm(cfg, w, s.nodes[w]);
    StillCalm(cfg, w, s.nodes[w], StartCollect(s.nodes[w], pick));
    MoveAgrees(cfg, s, w, StartCollect(s.nodes[w], pick));
  }

  lemma FinishCollectAgrees(cfg: Config, s: Cluster, w: Worker)
    requires AllAgree(cfg, s) && w < cfg.n && s.nodes[w].router.Collecting?
    ensures AllAgree(cfg, s.(nodes := s.nodes[w := FinishCollect(s.nodes[w])]))
  {
    assert Calm(cfg, w, s.nodes[w]);
    FinishCalm(cfg, w, s.nodes[w]);
    MoveAgrees(cfg, s, w, FinishCollect(s.nodes[w]));
  }

  lemma FinishCalm(cfg: Config, w: Worker, nd: Node)
    requires Calm(cfg, w, nd) && nd.router.Collecting?
    ensures var nd1 := FinishCollect(nd);
            && Calm(cfg, w, nd1) && nd1.remotes == nd.remotes && 2 <= Phase(nd1) <= 3
            && forall y :: 0 <= y < cfg.n && y != w ==>
                 nd.out[y] <= nd1.out[y] && Adds(cfg, nd, nd1, y, nd1.out[y][|nd.out[y]|..])
  {
    var nd1 := FinishCollect(nd);
    forall y | 0 <= y < cfg.n && y != w
      ensures Signals(cfg, nd1, y) && nd.out[y] <= nd1.out[y] && Adds(cfg, nd, nd1, y, nd1.out[y][|nd.out[y]|..])
    {
      assert Signals(cfg, nd, y);
      assert forall i :: 0 <= i < |nd.out[y]| ==> Signal(cfg, nd, y, nd.out[y][i]) && !nd.out[y][i].Upgrade?;
      if nd1 != nd {
        SequenceGrows(nd.out[y], [Upgrade(cfg.newVersion)]);
      }
    }
  }

  // Back to Normal: by then every other worker has been heard.
  lemma FinishedAgrees(cfg: Config, s: Cluster, w: Worker)
    requires ValidConfig(cfg) && AllAgree(cfg, s) && w < cfg.n && s.nodes[w].router.Finished?
    ensures AllAgree(cfg, s.(nodes := s.nodes[w := LifecycleFinished(s.nodes[w])]))
  {
    var nd := s.nodes[w];
    var nd1 := LifecycleFinished(nd);
    assert Calm(cfg, w, nd);
    StillCalm(cfg, w, nd, nd1);
    MoveAgrees(cfg, s, w, nd1);
  }

  lemma LifecycleAgrees(cfg: Config, s: Cluster, w: Worker, pick: Key)
    requires ValidConfig(cfg) && AllAgree(cfg, s) && Possible(cfg, s, RunLifecycle(w, pick))
    ensures AllAgree(cfg, Apply(cfg, s, RunLifecycle(w, pick)))
  {
    var nd := s.nodes[w];
    match nd.router
    case Normal(_, _) => assert s.nodes[w := nd] == s.nodes;
    case Interrogating(_, _, _, _, _, _) =>
      assert Calm(cfg, w, nd);
      StillCalm(cfg, w, nd, Lifecycle(cfg.part, nd, pick));
      MoveAgrees(cfg, s, w, Lifecycle(cfg.part, nd, pick));
    case Collecting(_, _, _, _, _, _) =>
      var nd1 := if CanCollect(nd) then Ship(cfg.part, nd) else nd;
      var s1 := s.(nodes := s.nodes[w := nd1]);
      if CanCollect(nd) { ShipAgrees(cfg, s, w); } else { assert s1.nodes == s.nodes; }
      CollectTurnAgrees(cfg, s1, w, pick);
      assert s1.nodes[w := LifecycleCollecting(cfg.part, nd, pick)] == s.nodes[w := LifecycleCollecting(cfg.part, nd, pick)];
    case Finished(_, _, _) => FinishedAgrees(cfg, s, w);
  }

  lemma CollectTurnAgrees(cfg: Config, s: Cluster, w: Worker, pick: Key)
    requires AllAgree(cfg, s) && w < cfg.n && s.nodes[w].router.Collecting?
    requires s.nodes[w].router.whitelist != {} ==> pick in s.nodes[w].router.whitelist
    ensures AllAgree(cfg, s.(nodes := s.nodes[w := FinishCollect(StartCollect(s.nodes[w], pick))]))
  {
    var nd1 := StartCollect(s.nodes[w], pick);
    var s1 := s.(nodes := s.nodes[w := nd1]);
    StartCollectAgrees(cfg, s, w, pick);
    FinishCollectAgrees(cfg, s1, w);
    assert s1.nodes[w := FinishCollect(nd1)] == s.nodes[w := FinishCollect(nd1)];
  }

  // ---------------------------------------------------------------- receiving

  lemma PopAgreesPair(cfg: Config, x: Worker, ndx: Node, y: Worker, ndy: Node)
    requires y < |ndx.out| && ndx.out[y] != [] && Agree(cfg, x, ndx, y, ndy)
    ensures Agree(cfg, x, Popped(ndx, y), y, ndy)
  {
    var q, q1 := ndx.out[y], Popped(ndx, y).out[y];
    assert forall i :: 0 <= i < |q1| ==> q1[i] == q[i + 1];
    QuietPopped(cfg, x, ndx, y, ndy);
  }

  lemma PopCalm(cfg: Config, x: Worker, ndx: Node, y: Worker)
    requires Calm(cfg, x, ndx) && y < cfg.n && ndx.out[y] != []
    ensures Calm(cfg, x, Popped(ndx, y))
  {
    var nd1 := Popped(ndx, y);
    forall z | 0 <= z < cfg.n && z != x ensures Signals(cfg, nd1, z) {
      assert Signals(cfg, ndx, z);
      var q, q1 := ndx.out[z], nd1.out[z];
      if z == y {
        assert forall i :: 0 <= i < |q1| ==> q1[i] == q[i + 1] && Signal(cfg, ndx, z, q[i + 1]);
        forall i, j | 0 <= i < j < |q1| ensures Follows(q1[i], q1[j]) {
          assert Follows(q[i + 1], q[j + 1]);
        }
      } else {
        assert forall i :: 0 <= i < |q| ==> Signal(cfg, ndx, z, q[i]);
      }
    }
  }

  lemma PopAgrees(cfg: Config, s: Cluster, w: Worker, x: Worker)
    requires AllAgree(cfg, s) && HasPacket(s, w, x)
    ensures AllAgree(cfg, s.(nodes := s.nodes[x := Popped(s.nodes[x], w)]))
  {
    var nodes := s.nodes[x := Popped(s.nodes[x], w)];
    PopCalm(cfg, x, s.nodes[x], w);
    forall a, b | 0 <= a < cfg.n && 0 <= b < cfg.n && a != b ensures Agree(cfg, a, nodes[a], b, nodes[b]) {
      assert Agree(cfg, a, s.nodes[a], b, s.nodes[b]);
      if a == x && b == w {
        PopAgreesPair(cfg, x, s.nodes[x], w, s.nodes[w]);
      } else if a == x {
        assert Calm(cfg, x, s.nodes[x]);
        SenderAgrees(cfg, x, s.nodes[x], nodes[x], [], b, s.nodes[b]);
      } else if b == x {
        ReceiverAgrees(cfg, a, s.nodes[a], x, s.nodes[x], nodes[x]);
      }
    }
  }

  // y takes note of x's upgrade or acknowledgement, which leaves the channel.
  lemma HearsAgrees(cfg: Config, x: Worker, ndx: Node, y: Worker, ndy: Node, ndy1: Node)
    requires y < |ndx.out| && ndx.out[y] != [] && Signals(cfg, ndx, y) && Agree(cfg, x, ndx, y, ndy)
    requires var p := ndx.out[y][0];
             || (p.Upgrade? && Acked(cfg, ndy1, x) == Acked(cfg, ndy, x))
             || (p.AckUpgrade? && SettledBy(cfg, ndy1, x) == SettledBy(cfg, ndy, x))
    ensures Agree(cfg, x, Popped(ndx, y), y, ndy1)
  {
    var q, q1 := ndx.out[y], Popped(ndx, y).out[y];
    assert forall i :: 0 <= i < |q1| ==> q1[i] == q[i + 1] && Follows(q[0], q[i + 1]);
    assert Signal(cfg, ndx, y, q[0]);
    assert forall z :: SettledBy(cfg, Popped(ndx, y), z) == SettledBy(cfg, ndx, z);
    HearsQuiet(cfg, x, ndx, y, ndy, ndy1);
  }

  lemma HearsQuiet(cfg: Config, x: Worker, ndx: Node, y: Worker, ndy: Node, ndy1: Node)
    requires y < |ndx.out| && ndx.out[y] != [] && Quiet(cfg, x, ndx, y, ndy)
    requires var p := ndx.out[y][0];
             || (p.Upgrade? && Acked(cfg, ndy1, x) == Acked(cfg, ndy, x))
             || (p.AckUpgrade? && SettledBy(cfg, ndy1, x) == SettledBy(cfg, ndy, x))
    ensures Quiet(cfg, x, Popped(ndx, y), y, ndy1)
  {
    var q, q1 := ndx.out[y], Popped(ndx, y).out[y];
    assert forall i :: 0 <= i < |q1| ==> q1[i] == q[i + 1];
    QuietPopped(cfg, x, ndx, y, ndy);
    if y !in cfg.newWorkers {
      forall l, i | q[0].Upgrade? && 0 <= l < i < |q1| && q1[l].AckUpgrade? ensures !q1[i].Data? {
        assert q[l + 1].AckUpgrade?;
      }
      forall j, i | q[0].AckUpgrade? && 0 <= j < i < |q1| && q1[j].Upgrade? ensures !q1[i].Data? {
        assert q[j + 1].Upgrade?;
      }
    }
  }

  function Reply(p: Packet, y: Worker, x: Worker): seq<Packet> {
    if p.Upgrade? && y == x then [AckUpgrade(p.version)] else []
  }

  // The receiver of an upgrade or an acknowledgement.
  lemma HearsEffect(cfg: Config, w: Worker, nd: Node, x: Worker, p: Packet)
    requires Calm(cfg, w, nd) && x in nd.remotes && x < cfg.n && x != w
    requires (p.Upgrade? && !SettledBy(cfg, nd, x)) || p.AckUpgrade?
    requires p.version == cfg.newVersion
    requires p.Upgrade? ==> forall i :: 0 <= i < |nd.out[x]| ==> !nd.out[x][i].AckUpgrade?
    ensures var nd1 := HandlePacket(cfg.part, nd, p, w, x);
            && Calm(cfg, w, nd1) && Advances(cfg, nd, nd1)
            && (forall z :: z != x ==> SettledBy(cfg, nd1, z) == SettledBy(cfg, nd, z) && Acked(cfg, nd1, z) == Acked(cfg, nd, z))
            && (p.Upgrade? ==> Acked(cfg, nd1, x) == Acked(cfg, nd, x))
            && (p.AckUpgrade? ==> SettledBy(cfg, nd1, x) == SettledBy(cfg, nd, x))
            && (p.Upgrade? ==> SettledBy(cfg, nd1, x))
            && (forall y :: 0 <= y < cfg.n && y != w ==> nd1.out[y] == nd.out[y] + Reply(p, y, x))
  {
    var nd1 := HandlePacket(cfg.part, nd, p, w, x);
    forall y | 0 <= y < cfg.n && y != w ensures Signals(cfg, nd1, y) {
      assert Signals(cfg, nd, y);
      assert forall i :: 0 <= i < |nd.out[y]| ==> Signal(cfg, nd, y, nd.out[y][i]);
      if p.Upgrade? && y == x { SequenceGrows(nd.out[y], [AckUpgrade(p.version)]); }
    }
  }

  lemma HearAgrees(cfg: Config, s: Cluster, w: Worker, x: Worker)
    requires AllAgree(cfg, s) && HasPacket(s, w, x)
    requires s.nodes[x].out[w][0].Upgrade? || s.nodes[x].out[w][0].AckUpgrade?
    ensures AllAgree(cfg, Apply(cfg, s, Receive(w, x)))
  {
    var p := s.nodes[x].out[w][0];
    var t := s.(nodes := s.nodes[x := Popped(s.nodes[x], w)]);
    PopAgrees(cfg, s, w, x);
    assert Calm(cfg, x, s.nodes[x]) && Calm(cfg, w, s.nodes[w]);
    assert Signals(cfg, s.nodes[x], w) && Signal(cfg, s.nodes[x], w, p);
    assert Agree(cfg, x, s.nodes[x], w, s.nodes[w]) && Agree(cfg, w, s.nodes[w], x, s.nodes[x]);
    HearsEffect(cfg, w, s.nodes[w], x, p);
    var nd1 := HandlePacket(cfg.part, s.nodes[w], p, w, x);
    var u := t.nodes[w := nd1];
    assert Apply(cfg, s, Receive(w, x)).nodes == u;
    forall a, b | 0 <= a < cfg.n && 0 <= b < cfg.n && a != b ensures Agree(cfg, a, u[a], b, u[b]) {
      assert Agree(cfg, a, t.nodes[a], b, t.nodes[b]) && Calm(cfg, a, t.nodes[a]);
      HearPair(cfg, a, t.nodes[a], b, t.nodes[b], w, s.nodes[w], x, s.nodes[x]);
    }
  }

  lemma HearPair(cfg: Config, a: Worker, nda: Node, b: Worker, ndb: Node, w: Worker, nd: Node, x: Worker, ndx: Node)
    requires a < cfg.n && b < cfg.n && a != b && w < cfg.n && x < cfg.n && x != w && x in nd.remotes
    requires Calm(cfg, w, nd) && Calm(cfg, x, ndx) && Calm(cfg, a, nda) && Agree(cfg, a, nda, b, ndb)
    requires ndx.out[w] != [] && Agree(cfg, x, ndx, w, nd)
    requires var p := ndx.out[w][0];
             && ((p.Upgrade? && !SettledBy(cfg, nd, x)) || p.AckUpgrade?) && p.version == cfg.newVersion
             && (p.Upgrade? ==> forall i :: 0 <= i < |nd.out[x]| ==> !nd.out[x][i].AckUpgrade?)
    requires (a == w ==> nda == nd) && (b == w ==> ndb == nd) && (a == x ==> nda == Popped(ndx, w))
    ensures var nd1 := HandlePacket(cfg.part, nd, ndx.out[w][0], w, x);
            var nda1 := if a == w then nd1 else nda;
            b < |nda1.out| && Agree(cfg, a, nda1, b, if b == w then nd1 else ndb)
  {
    var p := ndx.out[w][0];
    var nd1 := HandlePacket(cfg.part, nd, p, w, x);
    HearsEffect(cfg, w, nd, x, p);
    if a == w {
      SenderAgrees(cfg, w, nd, nd1, Reply(p, b, x), b, ndb);
    } else if a == x && b == w {
      assert Signals(cfg, ndx, w);
      HearsAgrees(cfg, x, ndx, w, nd, nd1);
    } else if b == w {
      ReceiverAgrees(cfg, a, nda, w, nd, nd1);
    }
  }

  lemma ReceiveAgrees(cfg: Config, s: Cluster, w: Worker, x: Worker)
    requires ValidConfig(cfg) && AllAgree(cfg, s) && HasPacket(s, w, x)
    ensures AllAgree(cfg, Apply(cfg, s, Receive(w, x)))
  {
    var p := s.nodes[x].out[w][0];
    var t := s.(nodes := s.nodes[x := Popped(s.nodes[x], w)]);
    match p
    case Data(rec, version, _, hops) =>
      PopAgrees(cfg, s, w, x);
      DataAgrees(cfg, t, w, rec, hops, Some(version), x);
    case Acquire(key, collection) =>
      PopAgrees(cfg, s, w, x);
      var nd1 := HandlePacket(cfg.part, s.nodes[w], p, w, x);
      assert Calm(cfg, w, s.nodes[w]);
      StillCalm(cfg, w, s.nodes[w], nd1);
      MoveAgrees(cfg, t, w, nd1);
    case _ => HearAgrees(cfg, s, w, x);
  }

  // ---------------------------------------------------------------- runs

  lemma OperatorAgrees(cfg: Config, s: Cluster, w: Worker)
    requires AllAgree(cfg, s) && Possible(cfg, s, RunOperator(w))
    ensures AllAgree(cfg, Apply(cfg, s, RunOperator(w)))
  {
    var nd1 := Operate(cfg.part, cfg.onData, cfg.default, s.nodes[w]);
    assert Calm(cfg, w, s.nodes[w]);
    OperateStage(cfg, w, s.nodes[w]);
    StillCalm(cfg, w, s.nodes[w], nd1);
    MoveAgrees(cfg, s, w, nd1);
    assert Apply(cfg, s, RunOperator(w)).nodes == s.nodes[w := nd1];
  }

  lemma OperateStage(cfg: Config, w: Worker, nd: Node)
    requires Stage(cfg, w, nd) && nd.down != []
    ensures var nd1 := Operate(cfg.part, cfg.onData, cfg.default, nd);
            Stage(cfg, w, nd1) && nd1.out == nd.out && nd1.remotes == nd.remotes && Phase(nd1) == Phase(nd)
  {
  }

  lemma StepAgrees(cfg: Config, s: Cluster, step: Step)
    requires ValidConfig(cfg) && AllAgree(cfg, s) && Possible(cfg, s, step)
    ensures AllAgree(cfg, Apply(cfg, s, step))
  {
    match step
    case Inject(w, rec) => DataAgrees(cfg, s, w, rec, 0, None, w);
    case StartRescale(w) => RescaleAgrees(cfg, s, w);
    case RunLifecycle(w, pick) => LifecycleAgrees(cfg, s, w, pick);
    case RunOperator(w) => OperatorAgrees(cfg, s, w);
    case Receive(w, x) => ReceiveAgrees(cfg, s, w, x);
  }

  lemma {:induction false} RunAgrees(cfg: Config, run: seq<Cluster>, i: nat)
    requires ValidConfig(cfg) && IsUngatedRun(cfg, run) && i < |run|
    ensures AllAgree(cfg, run[i])
  {
    if i == 0 {
      InitAgrees(cfg, run[0]);
    } else {
      RunAgrees(cfg, run, i - 1);
      assert UngatedNext(cfg, run[i - 1], run[i - 1 + 1]);
      var step :| Possible(cfg, run[i - 1], step) && run[i] == Apply(cfg, run[i - 1], step);
      StepAgrees(cfg, run[i - 1], step);
    }
  }

  // ---------------------------------------------------------------- theorems

  /** Nobody is back to Normal before every other worker has finished collecting. */
  lemma Quorum(cfg: Config, run: seq<Cluster>, i: nat, w: Worker, x: Worker)
    requires ValidConfig(cfg) && IsUngatedRun(cfg, run) && i < |run| && w < cfg.n && x < cfg.n && w != x
    ensures |run[i].nodes| == cfg.n
    ensures Phase(run[i].nodes[w]) == 4 ==> Phase(run[i].nodes[x]) >= 3
  {
    RunAgrees(cfg, run, i);
    assert Agree(cfg, x, run[i].nodes[x], w, run[i].nodes[w]);
  }

  /** From the moment a leaving worker is back to Normal no channel towards it holds data or state, in this
      state and in every later one. */
  lemma NothingForLeaving(cfg: Config, run: seq<Cluster>, i: nat, j: nat, w: Worker, x: Worker)
    requires ValidConfig(cfg) && IsUngatedRun(cfg, run) && i <= j < |run| && w < cfg.n && x < cfg.n && w != x
    requires |run[i].nodes| == cfg.n && Phase(run[i].nodes[w]) == 4 && w !in cfg.newWorkers
    ensures |run[j].nodes| == cfg.n && w < |run[j].nodes[x].out|
    ensures forall l :: 0 <= l < |run[j].nodes[x].out[w]| ==>
              !run[j].nodes[x].out[w][l].Data? && !run[j].nodes[x].out[w][l].Acquire?
  {
    RunAgrees(cfg, run, j);
    StaysNormal(cfg, run, i, j, w);
    assert Agree(cfg, x, run[j].nodes[x], w, run[j].nodes[w]);
  }

  lemma {:induction false} StaysNormal(cfg: Config, run: seq<Cluster>, i: nat, j: nat, w: Worker)
    requires ValidConfig(cfg) && IsUngatedRun(cfg, run) && i <= j < |run| && w < cfg.n
    requires |run[i].nodes| == cfg.n && Phase(run[i].nodes[w]) == 4
    ensures |run[j].nodes| == cfg.n && Phase(run[j].nodes[w]) == 4
  {
    if i < j {
      StaysNormal(cfg, run, i, j - 1, w);
      assert UngatedNext(cfg, run[j - 1], run[j - 1 + 1]);
      NextStaysNormal(cfg, run[j - 1], run[j], w);
    }
  }

  lemma NextStaysNormal(cfg: Config, s: Cluster, t: Cluster, w: Worker)
    requires UngatedNext(cfg, s, t) && w < |s.nodes| && Phase(s.nodes[w]) == 4
    ensures |t.nodes| == |s.nodes| && Phase(t.nodes[w]) == 4
  {
    var step :| Possible(cfg, s, step) && t == Apply(cfg, s, step);
    StepStaysNormal(cfg, s, step, w);
  }

  lemma StepStaysNormal(cfg: Config, s: Cluster, step: Step, w: Worker)
    requires Possible(cfg, s, step) && w < |s.nodes| && Phase(s.nodes[w]) == 4
    ensures |Apply(cfg, s, step).nodes| == |s.nodes| && Phase(Apply(cfg, s, step).nodes[w]) == 4
  {
  }
}
