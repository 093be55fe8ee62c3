/**
  The invariant of a rescaling cluster and its preservation by every step.
*/
module ClusterInvariant {
  import opened Basics
  import opened Router
  import opened Cluster
  import opened LocalInvariant
  import opened LocalSteps
  import opened PairInvariant

  ghost predicate Inv(cfg: Config, s: Cluster) {
    && |s.nodes| == cfg.n
    && (forall w :: 0 <= w < cfg.n ==> LocalInv(cfg, w, s.nodes[w]))
    && (forall x, y :: 0 <= x < cfg.n && 0 <= y < cfg.n && x != y ==> PairInv(cfg, x, s.nodes[x], y, s.nodes[y]))
  }

  lemma InitInv(cfg: Config, s: Cluster)
    requires ValidConfig(cfg) && Init(cfg, s)
    ensures Inv(cfg, s)
  {
    forall w | 0 <= w < cfg.n ensures LocalInv(cfg, w, s.nodes[w]) {
      InitLocal(cfg, w, s.nodes[w]);
    }
    forall x, y | 0 <= x < cfg.n && 0 <= y < cfg.n && x != y ensures PairInv(cfg, x, s.nodes[x], y, s.nodes[y]) {
      assert InitNode(cfg, x, s.nodes[x]) && InitNode(cfg, y, s.nodes[y]);
    }
  }

  // ---------------------------------------------------------------- moves of one worker

  // w only appends permitted packets to its channels.
  ghost predicate Appends(cfg: Config, w: Worker, nd: Node, nd1: Node) {
    && |nd.out| == |nd1.out| == cfg.n
    && Progresses(cfg, nd, nd1)
    && forall y :: 0 <= y < cfg.n && y != w ==>
         && |nd.out[y]| <= |nd1.out[y]|
         && nd1.out[y][..|nd.out[y]|] == nd.out[y]
         && (forall i :: |nd.out[y]| <= i < |nd1.out[y]| ==> MayAppend(cfg, nd, nd1, y, nd1.out[y][i]))
         && (y !in cfg.newWorkers ==> |nd1.out[y]| <= |nd.out[y]| + 1)
  }

  // Whatever w holds afterwards of a key of z has been handed over to it, and w hears nothing new of z.
  ghost predicate TakesFrom(cfg: Config, z: Worker, ndz: Node, w: Worker, nd: Node, nd1: Node)
    requires w < |ndz.out|
  {
    && (SettledBy(cfg, nd1, z) ==> SettledBy(cfg, nd, z))
    && (Acked(cfg, nd1, z) ==> Acked(cfg, nd, z))
    && Handover(cfg, z, ndz, w, nd1)
  }

  ghost predicate Takes(cfg: Config, s: Cluster, w: Worker, nd1: Node)
    requires w < |s.nodes| == cfg.n && forall x :: 0 <= x < cfg.n ==> |s.nodes[x].out| == cfg.n
  {
    forall z :: 0 <= z < cfg.n && z != w ==> TakesFrom(cfg, z, s.nodes[z], w, s.nodes[w], nd1)
  }

  lemma MoveKeeps(cfg: Config, s: Cluster, w: Worker, nd1: Node)
    requires Inv(cfg, s) && w < cfg.n
    requires LocalInv(cfg, w, nd1) && Appends(cfg, w, s.nodes[w], nd1) && Takes(cfg, s, w, nd1)
    ensures Inv(cfg, s.(nodes := s.nodes[w := nd1]))
  {
    var nodes := s.nodes[w := nd1];
    forall x, y | 0 <= x < cfg.n && 0 <= y < cfg.n && x != y ensures PairInv(cfg, x, nodes[x], y, nodes[y]) {
      if x == w {
        var q, q1 := s.nodes[w].out[y], nd1.out[y];
        assert q1 == q + q1[|q|..];
        SenderKeeps(cfg, w, s.nodes[w], nd1, q1[|q|..], y, s.nodes[y]);
      } else if y == w {
        assert TakesFrom(cfg, x, s.nodes[x], w, s.nodes[w], nd1);
        ReceiverKeeps(cfg, x, s.nodes[x], w, s.nodes[w], nd1);
      }
    }
  }

  // w holds nothing new and hears nothing new.
  lemma TakesNothing(cfg: Config, s: Cluster, w: Worker, nd1: Node)
    requires Inv(cfg, s) && w < cfg.n
    requires nd1.remotes == s.nodes[w].remotes && nd1.store == s.nodes[w].store
    requires Phase(nd1) == 4 ==> Phase(s.nodes[w]) == 4
    requires forall i, k :: 0 <= i < |nd1.down| && Concerns(nd1.down[i], k) ==>
               i < |s.nodes[w].down| && nd1.down[i] == s.nodes[w].down[i]
    ensures Takes(cfg, s, w, nd1)
  {
    forall z | 0 <= z < cfg.n && z != w ensures PairInv(cfg, z, s.nodes[z], w, s.nodes[w]) {
    }
  }

  // The effect of routing one record.
  lemma HandleDataEffect(cfg: Config, w: Worker, nd: Node, rec: Record, hops: nat, version: Option<Version>, sender: Worker)
    requires ValidConfig(cfg) && LocalInv(cfg, w, nd)
    requires Incoming(cfg, w, nd, sender, rec.key, hops)
    requires VersionOk(cfg, w, nd, sender, version)
    ensures var r := RouteMessage(cfg.part, nd.router, rec, hops, version, w, sender, nd.remotes);
            var nd1 := HandleData(cfg.part, nd, rec, hops, version, w, sender);
            && nd1.store == nd.store && nd1.remotes == nd.remotes && Phase(nd1) == Phase(nd)
            && (forall k :: GivenUp(nd1, k) == GivenUp(nd, k))
            && nd1.down == (if r.target == Some(w) then nd.down + [DData(rec)] else nd.down)
            && (r.target == None || r.target == Some(w) ==> nd1.out == nd.out)
            && (r.target.Some? && r.target.value != w ==>
                 var t := r.target.value;
                 && t < |nd.out| && nd1.out == nd.out[t := nd.out[t] + [Data(rec, nd.router.version, Phase(nd) >= 2, hops + 1)]]
                 && (t in cfg.newWorkers || Phase(nd) < 3 || !SettledBy(cfg, nd, t)))
  {
    RouteSound(cfg, w, nd, rec, hops, version, sender);
  }

  // A record is routed; `sender` is w itself for a record from the local upstream.
  lemma DataMoveKeeps(cfg: Config, s: Cluster, w: Worker, rec: Record, hops: nat, version: Option<Version>, sender: Worker)
    requires ValidConfig(cfg) && Inv(cfg, s) && w < cfg.n && sender < cfg.n
    requires Incoming(cfg, w, s.nodes[w], sender, rec.key, hops)
    requires VersionOk(cfg, w, s.nodes[w], sender, version)
    requires Arrives(cfg, w, rec.key) && sender == Old(cfg, rec.key) ==> HandedOver(s.nodes[sender], w, rec.key)
    ensures Inv(cfg, s.(nodes := s.nodes[w := HandleData(cfg.part, s.nodes[w], rec, hops, version, w, sender)]))
  {
    HandleDataKeeps(cfg, w, s.nodes[w], rec, hops, version, sender);
    DataAppends(cfg, w, s.nodes[w], rec, hops, version, sender);
    DataTakes(cfg, s, w, rec, hops, version, sender);
    MoveKeeps(cfg, s, w, HandleData(cfg.part, s.nodes[w], rec, hops, version, w, sender));
  }

  lemma DataTakes(cfg: Config, s: Cluster, w: Worker, rec: Record, hops: nat, version: Option<Version>, sender: Worker)
    requires ValidConfig(cfg) && Inv(cfg, s) && w < cfg.n && sender < cfg.n
    requires Incoming(cfg, w, s.nodes[w], sender, rec.key, hops)
    requires VersionOk(cfg, w, s.nodes[w], sender, version)
    requires Arrives(cfg, w, rec.key) && sender == Old(cfg, rec.key) ==> HandedOver(s.nodes[sender], w, rec.key)
    ensures Takes(cfg, s, w, HandleData(cfg.part, s.nodes[w], rec, hops, version, w, sender))
  {
    var nd1 := HandleData(cfg.part, s.nodes[w], rec, hops, version, w, sender);
    forall z | 0 <= z < cfg.n && z != w ensures TakesFrom(cfg, z, s.nodes[z], w, s.nodes[w], nd1) {
      assert PairInv(cfg, z, s.nodes[z], w, s.nodes[w]);
      DataTakesFrom(cfg, z, s.nodes[z], w, s.nodes[w], rec, hops, version, sender);
    }
  }

  lemma DataTakesFrom(cfg: Config, z: Worker, ndz: Node, w: Worker, nd: Node, rec: Record, hops: nat,
                      version: Option<Version>, sender: Worker)
    requires ValidConfig(cfg) && LocalInv(cfg, w, nd) && w < cfg.n && w < |ndz.out| && PairInv(cfg, z, ndz, w, nd)
    requires Incoming(cfg, w, nd, sender, rec.key, hops)
    requires VersionOk(cfg, w, nd, sender, version)
    requires Arrives(cfg, w, rec.key) && sender == Old(cfg, rec.key) && sender == z ==> HandedOver(ndz, w, rec.key)
    ensures TakesFrom(cfg, z, ndz, w, nd, HandleData(cfg.part, nd, rec, hops, version, w, sender))
  {
    HandleDataEffect(cfg, w, nd, rec, hops, version, sender);
    var r := RouteMessage(cfg.part, nd.router, rec, hops, version, w, sender, nd.remotes);
    var nd1 := HandleData(cfg.part, nd, rec, hops, version, w, sender);
    if r.target == Some(w) && PassesTo(cfg, z, w, rec.key) && z != w {
      RouteSound(cfg, w, nd, rec, hops, version, sender);
      assert HandedOver(ndz, w, rec.key) by {
        assert sender == z || SettledBy(cfg, nd, z);
      }
    }
    assert forall i :: 0 <= i < |nd1.down| ==> nd1.down[i] == if i < |nd.down| then nd.down[i] else DData(rec);
  }

  lemma DataAppends(cfg: Config, w: Worker, nd: Node, rec: Record, hops: nat, version: Option<Version>, sender: Worker)
    requires ValidConfig(cfg) && LocalInv(cfg, w, nd)
    requires Incoming(cfg, w, nd, sender, rec.key, hops)
    requires VersionOk(cfg, w, nd, sender, version)
    ensures Appends(cfg, w, nd, HandleData(cfg.part, nd, rec, hops, version, w, sender))
  {
    HandleDataEffect(cfg, w, nd, rec, hops, version, sender);
  }

  // ---------------------------------------------------------------- steps that receive nothing

  lemma InjectKeeps(cfg: Config, s: Cluster, w: Worker, rec: Record)
    requires ValidConfig(cfg) && Inv(cfg, s) && w < cfg.n
    ensures Inv(cfg, Apply(cfg, s, Inject(w, rec)))
  {
    DataMoveKeeps(cfg, s, w, rec, 0, None, w);
    assert Inv(cfg, s.(nodes := s.nodes[w := HandleData(cfg.part, s.nodes[w], rec, 0, None, w, w)]));
  }

  lemma StartRescaleKeeps(cfg: Config, s: Cluster, w: Worker)
    requires ValidConfig(cfg) && Inv(cfg, s) && Possible(cfg, s, StartRescale(w))
    ensures Inv(cfg, Apply(cfg, s, StartRescale(w)))
  {
    var nd := s.nodes[w];
    var nd1 := HandleRescale(nd, cfg.newWorkers, cfg.newVersion, w);
    HandleRescaleKeeps(cfg, w, nd);
    if nd.rescaled {
      assert s.nodes[w := nd1] == s.nodes;
    } else {
      forall z | 0 <= z < cfg.n && z != w ensures TakesFrom(cfg, z, s.nodes[z], w, nd, nd1) {
        assert PairInv(cfg, z, s.nodes[z], w, nd);
        RescaleTakesFrom(cfg, z, s.nodes[z], w, nd);
      }
      MoveKeeps(cfg, s, w, nd1);
    }
  }

  lemma RescaleTakesFrom(cfg: Config, z: Worker, ndz: Node, w: Worker, nd: Node)
    requires w < |ndz.out| && PairInv(cfg, z, ndz, w, nd) && nd.router.Normal? && !nd.rescaled
    ensures TakesFrom(cfg, z, ndz, w, nd, HandleRescale(nd, cfg.newWorkers, cfg.newVersion, w))
  {
    var nd1 := HandleRescale(nd, cfg.newWorkers, cfg.newVersion, w);
    assert forall i :: 0 <= i < |nd1.down| ==> nd1.down[i] == if i < |nd.down| then nd.down[i] else DInterrogate;
  }

  lemma ShipMoveKeeps(cfg: Config, s: Cluster, w: Worker)
    requires ValidConfig(cfg) && Inv(cfg, s) && w < cfg.n && CanCollect(s.nodes[w])
    ensures Inv(cfg, s.(nodes := s.nodes[w := Ship(cfg.part, s.nodes[w])]))
  {
    var nd := s.nodes[w];
    var nd1 := Ship(cfg.part, nd);
    ShipKeeps(cfg, w, nd);
    var c := nd.router.current.value;
    assert IsCurrent(nd.router, c.key) && New(cfg, c.key) in cfg.newWorkers;
    assert forall k :: GivenUp(nd, k) ==> GivenUp(nd1, k);
    TakesNothing(cfg, s, w, nd1);
    MoveKeeps(cfg, s, w, nd1);
  }

  lemma StartCollectMoveKeeps(cfg: Config, s: Cluster, w: Worker, pick: Key)
    requires Inv(cfg, s) && w < cfg.n && s.nodes[w].router.Collecting?
    requires s.nodes[w].router.whitelist != {} ==> pick in s.nodes[w].router.whitelist
    ensures Inv(cfg, s.(nodes := s.nodes[w := StartCollect(s.nodes[w], pick)]))
  {
    var nd := s.nodes[w];
    var nd1 := StartCollect(nd, pick);
    StartCollectKeeps(cfg, w, nd, pick);
    assert forall k :: GivenUp(nd1, k) == GivenUp(nd, k);
    TakesNothing(cfg, s, w, nd1);
    MoveKeeps(cfg, s, w, nd1);
  }

  lemma FinishCollectMoveKeeps(cfg: Config, s: Cluster, w: Worker)
    requires Inv(cfg, s) && w < cfg.n && s.nodes[w].router.Collecting?
    ensures Inv(cfg, s.(nodes := s.nodes[w := FinishCollect(s.nodes[w])]))
  {
    var nd := s.nodes[w];
    var nd1 := FinishCollect(nd);
    FinishCollectKeeps(cfg, w, nd);
    TakesNothing(cfg, s, w, nd1);
    MoveKeeps(cfg, s, w, nd1);
  }

  lemma LifecycleFinishedMoveKeeps(cfg: Config, s: Cluster, w: Worker)
    requires ValidConfig(cfg) && Inv(cfg, s) && w < cfg.n && s.nodes[w].router.Finished?
    ensures Inv(cfg, s.(nodes := s.nodes[w := LifecycleFinished(s.nodes[w])]))
  {
    var nd := s.nodes[w];
    var nd1 := LifecycleFinished(nd);
    LifecycleFinishedKeeps(cfg, w, nd);
    if nd1 != nd {
      assert forall i, k :: 0 <= i < |nd1.down| && Concerns(nd1.down[i], k) ==> i < |nd.down| && nd1.down[i] == nd.down[i];
      forall z | 0 <= z < cfg.n && z != w
        ensures SettledBy(cfg, nd, z) && Acked(cfg, nd, z)
        ensures PairInv(cfg, z, s.nodes[z], w, nd)
      {
        assert z in nd.remotes;
      }
      MoveKeeps(cfg, s, w, nd1);
    } else {
      assert s.nodes[w := nd1] == s.nodes;
    }
  }

  lemma BeginCollectingMoveKeeps(cfg: Config, s: Cluster, w: Worker, pick: Key)
    requires Inv(cfg, s) && w < cfg.n && s.nodes[w].router.Interrogating? && s.nodes[w].router.copies == 0
    ensures Inv(cfg, s.(nodes := s.nodes[w := Lifecycle(cfg.part, s.nodes[w], pick)]))
  {
    var nd := s.nodes[w];
    var nd1 := Lifecycle(cfg.part, nd, pick);
    StartCollectPhaseKeeps(cfg, w, nd, pick);
    TakesNothing(cfg, s, w, nd1);
    MoveKeeps(cfg, s, w, nd1);
  }

  lemma LifecycleMoveKeeps(cfg: Config, s: Cluster, w: Worker, pick: Key)
    requires ValidConfig(cfg) && Inv(cfg, s) && Possible(cfg, s, RunLifecycle(w, pick))
    ensures Inv(cfg, Apply(cfg, s, RunLifecycle(w, pick)))
  {
    var nd := s.nodes[w];
    match nd.router
    case Normal(_, _) => assert s.nodes[w := nd] == s.nodes;
    case Interrogating(_, _, _, _, copies, _) =>
      if copies == 0 {
        BeginCollectingMoveKeeps(cfg, s, w, pick);
      } else {
        assert s.nodes[w := nd] == s.nodes;
      }
    case Collecting(_, _, _, _, _, _) =>
      var s1 := s;
      if CanCollect(nd) {
        ShipKeeps(cfg, w, nd);
        ShipMoveKeeps(cfg, s, w);
        s1 := s.(nodes := s.nodes[w := Ship(cfg.part, nd)]);
      }
      StartCollectMoveKeeps(cfg, s1, w, pick);
      var s2 := s1.(nodes := s1.nodes[w := StartCollect(s1.nodes[w], pick)]);
      FinishCollectMoveKeeps(cfg, s2, w);
      assert Apply(cfg, s, RunLifecycle(w, pick)).nodes == s2.nodes[w := FinishCollect(s2.nodes[w])];
    case Finished(_, _, _) => LifecycleFinishedMoveKeeps(cfg, s, w);
  }

  lemma OperatorKeeps(cfg: Config, s: Cluster, w: Worker)
    requires ValidConfig(cfg) && Inv(cfg, s) && Possible(cfg, s, RunOperator(w))
    ensures Inv(cfg, Apply(cfg, s, RunOperator(w)))
  {
    var nd := s.nodes[w];
    var nd1 := Operate(cfg.part, cfg.onData, cfg.default, nd);
    OperateKeeps(cfg, w, nd);
    assert DownOk(cfg, w, nd, nd.down[0]);
    assert forall k :: GivenUp(nd1, k) == GivenUp(nd, k);
    forall z | 0 <= z < cfg.n && z != w ensures TakesFrom(cfg, z, s.nodes[z], w, nd, nd1) {
      assert PairInv(cfg, z, s.nodes[z], w, nd);
      OperatorTakesFrom(cfg, z, s.nodes[z], w, nd);
    }
    MoveKeeps(cfg, s, w, nd1);
    assert Inv(cfg, s.(nodes := s.nodes[w := nd1]));
  }

  lemma OperatorTakesFrom(cfg: Config, z: Worker, ndz: Node, w: Worker, nd: Node)
    requires LocalInv(cfg, w, nd) && w < |ndz.out| && PairInv(cfg, z, ndz, w, nd) && nd.down != []
    ensures TakesFrom(cfg, z, ndz, w, nd, Operate(cfg.part, cfg.onData, cfg.default, nd))
  {
    var nd1 := Operate(cfg.part, cfg.onData, cfg.default, nd);
    assert forall i :: 0 <= i < |nd1.down| ==> nd1.down[i] == nd.down[i + 1];
    forall k | k in nd1.store ensures k in nd.store || Concerns(nd.down[0], k) {
    }
  }

  // ---------------------------------------------------------------- steps that receive a packet

  function AfterPop(s: Cluster, w: Worker, x: Worker): Cluster
    requires HasPacket(s, w, x)
  {
    s.(nodes := s.nodes[x := Popped(s.nodes[x], w)])
  }

  lemma PopKeepsInv(cfg: Config, s: Cluster, w: Worker, x: Worker)
    requires Inv(cfg, s) && HasPacket(s, w, x)
    ensures Inv(cfg, AfterPop(s, w, x))
  {
    var t := AfterPop(s, w, x);
    PopKeeps(cfg, x, s.nodes[x], w);
    forall a, b | 0 <= a < cfg.n && 0 <= b < cfg.n && a != b ensures PairInv(cfg, a, t.nodes[a], b, t.nodes[b]) {
      assert PairInv(cfg, a, s.nodes[a], b, s.nodes[b]);
      PopPair(cfg, a, s.nodes[a], b, s.nodes[b], w, x, s.nodes[x]);
    }
  }

  lemma PopPair(cfg: Config, a: Worker, nda: Node, b: Worker, ndb: Node, w: Worker, x: Worker, ndx: Node)
    requires x < cfg.n && w < cfg.n && b < cfg.n && a != b && LocalInv(cfg, x, ndx) && ndx.out[w] != []
    requires |nda.out| == cfg.n && PairInv(cfg, a, nda, b, ndb)
    requires (a == x ==> nda == ndx) && (b == x ==> ndb == ndx)
    ensures PairInv(cfg, a, if a == x then Popped(ndx, w) else nda, b, if b == x then Popped(ndx, w) else ndb)
  {
    if a == x && b == w {
      PopPairKeeps(cfg, x, ndx, w, ndb);
    } else if a == x {
      assert Progresses(cfg, ndx, Popped(ndx, w));
      SenderKeeps(cfg, x, ndx, Popped(ndx, w), [], b, ndb);
    } else if b == x {
      ReceiverKeeps(cfg, a, nda, x, ndx, Popped(ndx, w));
    }
  }

  lemma ReceiveDataKeeps(cfg: Config, s: Cluster, w: Worker, x: Worker)
    requires ValidConfig(cfg) && Inv(cfg, s) && Enabled(cfg, s, Receive(w, x)) && s.nodes[x].out[w][0].Data?
    ensures Inv(cfg, Apply(cfg, s, Receive(w, x)))
  {
    var p := s.nodes[x].out[w][0];
    var t := AfterPop(s, w, x);
    PopKeepsInv(cfg, s, w, x);
    assert SentOk(cfg, x, s.nodes[x], w, p);
    PopPairKeeps(cfg, x, s.nodes[x], w, s.nodes[w]);
    DataMoveKeeps(cfg, t, w, p.rec, p.hops, Some(p.version), x);
  }

  lemma ReceiveAcquireKeeps(cfg: Config, s: Cluster, w: Worker, x: Worker)
    requires ValidConfig(cfg) && Inv(cfg, s) && Enabled(cfg, s, Receive(w, x)) && s.nodes[x].out[w][0].Acquire?
    ensures Inv(cfg, Apply(cfg, s, Receive(w, x)))
  {
    var p := s.nodes[x].out[w][0];
    var t := AfterPop(s, w, x);
    PopKeepsInv(cfg, s, w, x);
    assert PairInv(cfg, x, s.nodes[x], w, s.nodes[w]);
    AcquireArrives(cfg, x, s.nodes[x], w, s.nodes[w]);
    AcquireMoveKeeps(cfg, t, w, x, p.key, p.collection);
  }

  lemma AcquireMoveKeeps(cfg: Config, s: Cluster, w: Worker, x: Worker, key: Key, collection: Option<KeyState>)
    requires ValidConfig(cfg) && Inv(cfg, s) && w < cfg.n && x < cfg.n && x != w
    requires Departs(cfg, x, key) && Arrives(cfg, w, key) && Phase(s.nodes[w]) >= 2
    requires Safe(cfg, key) ==> key !in s.nodes[w].store
    requires forall i :: 0 <= i < |s.nodes[w].down| ==> Before(cfg, w, s.nodes[w], s.nodes[w].down[i], DAcquire(key, collection))
    requires HandedOver(s.nodes[x], w, key)
    ensures Inv(cfg, s.(nodes := s.nodes[w := s.nodes[w].(down := s.nodes[w].down + [DAcquire(key, collection)])]))
  {
    var nd := s.nodes[w];
    HandleAcquireKeeps(cfg, w, nd, key, collection);
    var nd1 := nd.(down := nd.down + [DAcquire(key, collection)]);
    assert forall k :: GivenUp(nd1, k) == GivenUp(nd, k);
    forall z | 0 <= z < cfg.n && z != w ensures TakesFrom(cfg, z, s.nodes[z], w, nd, nd1) {
      assert PairInv(cfg, z, s.nodes[z], w, nd);
    }
    MoveKeeps(cfg, s, w, nd1);
  }

  // An Acquire that arrives is the only one of its key, and the receiver has nothing of the key.
  lemma AcquireArrives(cfg: Config, x: Worker, ndx: Node, w: Worker, nd: Node)
    requires ValidConfig(cfg) && LocalInv(cfg, x, ndx) && LocalInv(cfg, w, nd) && PairInv(cfg, x, ndx, w, nd) && x != w
    requires ndx.out[w] != [] && ndx.out[w][0].Acquire? && Gate(ndx.out[w][0], nd)
    ensures var key := ndx.out[w][0].key;
            && Departs(cfg, x, key) && Arrives(cfg, w, key) && Phase(nd) >= 2 && (Safe(cfg, key) ==> key !in nd.store)
            && (forall i :: 0 <= i < |nd.down| ==> Before(cfg, w, nd, nd.down[i], DAcquire(key, ndx.out[w][0].collection)))
            && HandedOver(Popped(ndx, w), w, key)
  {
    var p := ndx.out[w][0];
    assert SentOk(cfg, x, ndx, w, p);
    assert !HandedOver(ndx, w, p.key) by {
      assert IsAcquire(ndx.out[w][0], p.key);
    }
    assert forall i :: 0 <= i < |nd.down| && Safe(cfg, p.key) ==> !Concerns(nd.down[i], p.key);
    PopPairKeeps(cfg, x, ndx, w, nd);
  }

  lemma ReceiveUpgradeKeeps(cfg: Config, s: Cluster, w: Worker, x: Worker)
    requires ValidConfig(cfg) && Inv(cfg, s) && Enabled(cfg, s, Receive(w, x)) && s.nodes[x].out[w][0].Upgrade?
    ensures Inv(cfg, Apply(cfg, s, Receive(w, x)))
  {
    var p := s.nodes[x].out[w][0];
    var t := AfterPop(s, w, x);
    PopKeepsInv(cfg, s, w, x);
    assert PairInv(cfg, x, s.nodes[x], w, s.nodes[w]);
    UpgradeArrives(cfg, x, s.nodes[x], w, s.nodes[w]);
    UpgradeMoveKeeps(cfg, t, w, x, s.nodes[x], p.version);
  }

  lemma UpgradeMoveKeeps(cfg: Config, s: Cluster, w: Worker, x: Worker, ndx: Node, version: Version)
    requires ValidConfig(cfg) && Inv(cfg, s) && w < cfg.n && x < cfg.n && x != w && x in s.nodes[w].remotes
    requires version == cfg.newVersion && !SettledBy(cfg, s.nodes[w], x)
    requires |ndx.out| == cfg.n && ndx.out[w] != [] && ndx.out[w][0] == Upgrade(version) && s.nodes[x] == Popped(ndx, w)
    requires PairInv(cfg, x, ndx, w, s.nodes[w]) && LocalInv(cfg, x, ndx) && Phase(ndx) >= 3
    ensures Inv(cfg, s.(nodes := s.nodes[w := HandlePacket(cfg.part, s.nodes[w], Upgrade(version), w, x)]))
  {
    var nd := s.nodes[w];
    HandleUpgradeKeeps(cfg, w, nd, x, version);
    var nodes := s.nodes[w := HandlePacket(cfg.part, nd, Upgrade(version), w, x)];
    forall a, b | 0 <= a < cfg.n && 0 <= b < cfg.n && a != b ensures PairInv(cfg, a, nodes[a], b, nodes[b]) {
      assert PairInv(cfg, a, s.nodes[a], b, s.nodes[b]);
      UpgradePair(cfg, a, ndx, s.nodes[a], b, s.nodes[b], w, nd, x, version);
    }
  }

  lemma UpgradeArrives(cfg: Config, x: Worker, ndx: Node, w: Worker, nd: Node)
    requires LocalInv(cfg, x, ndx) && x != w && w < cfg.n && PairInv(cfg, x, ndx, w, nd)
    requires ndx.out[w] != [] && ndx.out[w][0].Upgrade?
    ensures ndx.out[w][0].version == cfg.newVersion && Phase(ndx) >= 3 && !SettledBy(cfg, nd, x)
  {
    assert SentOk(cfg, x, ndx, w, ndx.out[w][0]);
  }

  lemma UpgradePair(cfg: Config, a: Worker, ndx: Node, nda: Node, b: Worker, ndb: Node, w: Worker, nd: Node, x: Worker, version: Version)
    requires LocalInv(cfg, w, nd) && x in nd.remotes && x < cfg.n && w < cfg.n && b < cfg.n && a != b && x != w
    requires version == cfg.newVersion && !SettledBy(cfg, nd, x)
    requires |nda.out| == |ndx.out| == cfg.n && PairInv(cfg, a, nda, b, ndb)
    requires a == w ==> nda == nd
    requires b == w ==> ndb == nd
    requires PairInv(cfg, x, ndx, w, nd) && LocalInv(cfg, x, ndx) && Phase(ndx) >= 3
    requires ndx.out[w] != [] && ndx.out[w][0] == Upgrade(version) && (a == x ==> nda == Popped(ndx, w))
    ensures var nd1 := HandlePacket(cfg.part, nd, Upgrade(version), w, x);
            var nda1 := if a == w then nd1 else nda;
            && b < |nda1.out| && PairInv(cfg, a, nda1, b, if b == w then nd1 else ndb)
  {
    var nd1 := HandlePacket(cfg.part, nd, Upgrade(version), w, x);
    UpgradeProgresses(cfg, w, nd, x, version);
    if a == w {
      SenderKeeps(cfg, w, nd, nd1, if b == x then [AckUpgrade(version)] else [], b, ndb);
    } else if a == x && b == w {
      UpgradePairKeeps(cfg, x, ndx, w, nd, nd1);
    } else if b == w {
      ReceiverKeeps(cfg, a, nda, w, nd, nd1);
    }
  }

  lemma UpgradeProgresses(cfg: Config, w: Worker, nd: Node, x: Worker, version: Version)
    requires LocalInv(cfg, w, nd) && x in nd.remotes && version == cfg.newVersion
    ensures var nd1 := HandlePacket(cfg.part, nd, Upgrade(version), w, x);
            && Progresses(cfg, nd, nd1) && SettledBy(cfg, nd1, x)
            && nd1.store == nd.store && nd1.down == nd.down
            && (forall z :: Acked(cfg, nd1, z) == Acked(cfg, nd, z))
            && (forall z :: z != x ==> SettledBy(cfg, nd1, z) == SettledBy(cfg, nd, z))
            && nd1.out == nd.out[x := nd.out[x] + [AckUpgrade(version)]]
  {
    var nd1 := HandlePacket(cfg.part, nd, Upgrade(version), w, x);
    assert forall k :: GivenUp(nd1, k) == GivenUp(nd, k);
  }

  lemma ReceiveAckKeeps(cfg: Config, s: Cluster, w: Worker, x: Worker)
    requires ValidConfig(cfg) && Inv(cfg, s) && Enabled(cfg, s, Receive(w, x)) && s.nodes[x].out[w][0].AckUpgrade?
    ensures Inv(cfg, Apply(cfg, s, Receive(w, x)))
  {
    var p := s.nodes[x].out[w][0];
    var t := AfterPop(s, w, x);
    PopKeepsInv(cfg, s, w, x);
    assert PairInv(cfg, x, s.nodes[x], w, s.nodes[w]);
    assert SentOk(cfg, x, s.nodes[x], w, p);
    AckMoveKeeps(cfg, t, w, x, s.nodes[x], p.version);
  }

  lemma AckMoveKeeps(cfg: Config, s: Cluster, w: Worker, x: Worker, ndx: Node, version: Version)
    requires ValidConfig(cfg) && Inv(cfg, s) && w < cfg.n && x < cfg.n && x != w && x in s.nodes[w].remotes
    requires version == cfg.newVersion
    requires |ndx.out| == cfg.n && ndx.out[w] != [] && ndx.out[w][0] == AckUpgrade(version) && s.nodes[x] == Popped(ndx, w)
    requires PairInv(cfg, x, ndx, w, s.nodes[w]) && LocalInv(cfg, x, ndx)
    ensures Inv(cfg, s.(nodes := s.nodes[w := HandlePacket(cfg.part, s.nodes[w], AckUpgrade(version), w, x)]))
  {
    var nd := s.nodes[w];
    RemotesKeep(cfg, w, nd, x, nd.remotes[x].(lastAck := Some(version)));
    var nodes := s.nodes[w := HandlePacket(cfg.part, nd, AckUpgrade(version), w, x)];
    forall a, b | 0 <= a < cfg.n && 0 <= b < cfg.n && a != b ensures PairInv(cfg, a, nodes[a], b, nodes[b]) {
      assert PairInv(cfg, a, s.nodes[a], b, s.nodes[b]);
      AckPair(cfg, a, ndx, s.nodes[a], b, s.nodes[b], w, nd, x, version);
    }
  }

  lemma AckPair(cfg: Config, a: Worker, ndx: Node, nda: Node, b: Worker, ndb: Node, w: Worker, nd: Node, x: Worker, version: Version)
    requires LocalInv(cfg, w, nd) && x in nd.remotes && x < cfg.n && w < cfg.n && b < cfg.n && a != b && x != w
    requires version == cfg.newVersion
    requires |nda.out| == |ndx.out| == cfg.n && PairInv(cfg, a, nda, b, ndb)
    requires a == w ==> nda == nd
    requires b == w ==> ndb == nd
    requires PairInv(cfg, x, ndx, w, nd) && LocalInv(cfg, x, ndx)
    requires ndx.out[w] != [] && ndx.out[w][0] == AckUpgrade(version) && (a == x ==> nda == Popped(ndx, w))
    ensures var nd1 := HandlePacket(cfg.part, nd, AckUpgrade(version), w, x);
            var nda1 := if a == w then nd1 else nda;
            && b < |nda1.out| && PairInv(cfg, a, nda1, b, if b == w then nd1 else ndb)
  {
    var nd1 := HandlePacket(cfg.part, nd, AckUpgrade(version), w, x);
    assert forall k :: GivenUp(nd1, k) == GivenUp(nd, k);
    assert Progresses(cfg, nd, nd1);
    if a == w {
      SenderKeeps(cfg, w, nd, nd1, [], b, ndb);
    } else if a == x && b == w {
      AckPairKeeps(cfg, x, ndx, w, nd, nd1);
    } else if b == w {
      ReceiverKeeps(cfg, a, nda, w, nd, nd1);
    }
  }

  // ---------------------------------------------------------------- all steps

  lemma StepKeeps(cfg: Config, s: Cluster, step: Step)
    requires ValidConfig(cfg) && Inv(cfg, s) && Enabled(cfg, s, step)
    ensures Inv(cfg, Apply(cfg, s, step))
  {
    match step
    case Inject(w, rec) => InjectKeeps(cfg, s, w, rec);
    case StartRescale(w) => StartRescaleKeeps(cfg, s, w);
    case RunLifecycle(w, pick) => LifecycleMoveKeeps(cfg, s, w, pick);
    case RunOperator(w) => OperatorKeeps(cfg, s, w);
    case Receive(w, x) =>
      match s.nodes[x].out[w][0]
      case Data(_, _, _, _) => ReceiveDataKeeps(cfg, s, w, x);
      case Acquire(_, _) => ReceiveAcquireKeeps(cfg, s, w, x);
      case Upgrade(_) => ReceiveUpgradeKeeps(cfg, s, w, x);
      case AckUpgrade(_) => ReceiveAckKeeps(cfg, s, w, x);
  }

  lemma {:induction false} RunInv(cfg: Config, run: seq<Cluster>, i: nat)
    requires ValidConfig(cfg) && IsRun(cfg, run) && i < |run|
    ensures Inv(cfg, run[i])
  {
    if i == 0 {
      InitInv(cfg, run[0]);
    } else {
      RunInv(cfg, run, i - 1);
      assert Next(cfg, run[i - 1], run[i - 1 + 1]);
      var step :| Enabled(cfg, run[i - 1], step) && run[i] == Apply(cfg, run[i - 1], step);
      StepKeeps(cfg, run[i - 1], step);
    }
  }
}
