/**
  Every handler of a worker keeps the worker's local invariant.
*/
module LocalSteps {
  import opened Basics
  import opened Router
  import opened Cluster
  import opened LocalInvariant

  // ---------------------------------------------------------------- data

  lemma ShareKeeps(cfg: Config, w: Worker, nd: Node, keys: set<Key>)
    requires LocalInv(cfg, w, nd) && nd.router.Interrogating?
    requires forall k :: k in keys ==> Departs(cfg, w, k)
    ensures LocalInv(cfg, w, nd.(router := nd.router.(shared := nd.router.shared + keys)))
  {
    var nd1 := nd.(router := nd.router.(shared := nd.router.shared + keys));
    assert forall p, z :: SentOk(cfg, w, nd1, z, p) == SentOk(cfg, w, nd, z, p);
    assert forall k :: MayHold(cfg, w, nd1, k) == MayHold(cfg, w, nd, k);
    assert forall e :: DownOk(cfg, w, nd1, e) == DownOk(cfg, w, nd, e);
    assert forall e, f :: Before(cfg, w, nd, e, f) ==> Before(cfg, w, nd1, e, f);
  }

  lemma BufferKeeps(cfg: Config, w: Worker, nd: Node, b: Buffered)
    requires LocalInv(cfg, w, nd) && nd.router.Collecting? && IsCurrent(nd.router, b.rec.key) && b.hops <= 2
    ensures LocalInv(cfg, w, nd.(router := nd.router.(buffered := nd.router.buffered + [b])))
  {
    var nd1 := nd.(router := nd.router.(buffered := nd.router.buffered + [b]));
    assert forall p, z :: SentOk(cfg, w, nd1, z, p) == SentOk(cfg, w, nd, z, p);
    assert forall k :: MayHold(cfg, w, nd1, k) == MayHold(cfg, w, nd, k);
    assert forall e :: DownOk(cfg, w, nd1, e) == DownOk(cfg, w, nd, e);
    assert forall e, f :: Before(cfg, w, nd1, e, f) == Before(cfg, w, nd, e, f);
  }

  lemma HandleDataKeeps(cfg: Config, w: Worker, nd: Node, rec: Record, hops: nat, version: Option<Version>, sender: Worker)
    requires ValidConfig(cfg) && LocalInv(cfg, w, nd)
    requires Incoming(cfg, w, nd, sender, rec.key, hops)
    requires VersionOk(cfg, w, nd, sender, version)
    ensures LocalInv(cfg, w, HandleData(cfg.part, nd, rec, hops, version, w, sender))
  {
    RoutedKeeps(cfg, w, nd, rec, hops, version, sender);
    var r := RouteMessage(cfg.part, nd.router, rec, hops, version, w, sender, nd.remotes);
    var nd1 := nd.(router := r.router);
    if r.target.Some? {
      RoutedSendKeeps(cfg, w, nd, nd1, rec, hops, version, sender, r.target.value);
    }
  }

  // The router's part: the record is noted, buffered or just looked at.
  lemma RoutedKeeps(cfg: Config, w: Worker, nd: Node, rec: Record, hops: nat, version: Option<Version>, sender: Worker)
    requires ValidConfig(cfg) && LocalInv(cfg, w, nd)
    requires Incoming(cfg, w, nd, sender, rec.key, hops)
    requires VersionOk(cfg, w, nd, sender, version)
    ensures var r := RouteMessage(cfg.part, nd.router, rec, hops, version, w, sender, nd.remotes);
            LocalInv(cfg, w, nd.(router := r.router))
  {
    RouteSound(cfg, w, nd, rec, hops, version, sender);
    var r := RouteMessage(cfg.part, nd.router, rec, hops, version, w, sender, nd.remotes);
    if r.target == None {
      BufferKeeps(cfg, w, nd, Buffered(rec, hops));
    } else if nd.router.Interrogating? && Departs(cfg, w, rec.key) {
      ShareKeeps(cfg, w, nd, {rec.key});
    } else {
      assert nd.(router := r.router) == nd;
    }
  }

  lemma RoutedSendKeeps(cfg: Config, w: Worker, nd: Node, nd1: Node, rec: Record, hops: nat, version: Option<Version>,
                        sender: Worker, t: Worker)
    requires ValidConfig(cfg) && LocalInv(cfg, w, nd) && LocalInv(cfg, w, nd1)
    requires Incoming(cfg, w, nd, sender, rec.key, hops)
    requires VersionOk(cfg, w, nd, sender, version)
    requires var r := RouteMessage(cfg.part, nd.router, rec, hops, version, w, sender, nd.remotes);
             r.target == Some(t) && nd1 == nd.(router := r.router)
    ensures LocalInv(cfg, w, SendData(nd1, rec, hops, w, t))
  {
    RouteSound(cfg, w, nd, rec, hops, version, sender);
    if t == w {
      assert MayHold(cfg, w, nd1, rec.key) == MayHold(cfg, w, nd, rec.key);
      DeliverKeeps(cfg, w, nd1, DData(rec));
    } else {
      PushKeeps(cfg, w, nd1, t, [Data(rec, nd1.router.version, Phase(nd1) >= 2, hops + 1)]);
    }
  }

  // ---------------------------------------------------------------- control packets

  lemma HandleAcquireKeeps(cfg: Config, w: Worker, nd: Node, key: Key, collection: Option<KeyState>)
    requires LocalInv(cfg, w, nd)
    requires Arrives(cfg, w, key) && Phase(nd) >= 2 && (Safe(cfg, key) ==> key !in nd.store)
    requires forall i :: 0 <= i < |nd.down| ==> Before(cfg, w, nd, nd.down[i], DAcquire(key, collection))
    ensures LocalInv(cfg, w, nd.(down := nd.down + [DAcquire(key, collection)]))
  {
    DeliverKeeps(cfg, w, nd, DAcquire(key, collection));
  }

  lemma RemotesKeep(cfg: Config, w: Worker, nd: Node, x: Worker, remote: Remote)
    requires LocalInv(cfg, w, nd) && x in nd.remotes
    ensures LocalInv(cfg, w, nd.(remotes := nd.remotes[x := remote]))
  {
    var nd1 := nd.(remotes := nd.remotes[x := remote]);
    assert forall p, z :: SentOk(cfg, w, nd1, z, p) == SentOk(cfg, w, nd, z, p);
    assert forall k :: MayHold(cfg, w, nd1, k) == MayHold(cfg, w, nd, k);
    assert forall e :: DownOk(cfg, w, nd1, e) == DownOk(cfg, w, nd, e);
    assert forall e, f :: Before(cfg, w, nd1, e, f) == Before(cfg, w, nd, e, f);
  }

  lemma HandleUpgradeKeeps(cfg: Config, w: Worker, nd: Node, x: Worker, version: Version)
    requires LocalInv(cfg, w, nd) && x in nd.remotes && version == cfg.newVersion
    requires forall i :: 0 <= i < |nd.out[x]| ==> !nd.out[x][i].AckUpgrade?
    ensures LocalInv(cfg, w, HandlePacket(cfg.part, nd, Upgrade(version), w, x))
  {
    var remote := nd.remotes[x].(lastVersion := Some(version));
    RemotesKeep(cfg, w, nd, x, remote);
    PushKeeps(cfg, w, nd.(remotes := nd.remotes[x := remote]), x, [AckUpgrade(version)]);
  }

  lemma HandleRescaleKeeps(cfg: Config, w: Worker, nd: Node)
    requires ValidConfig(cfg) && LocalInv(cfg, w, nd)
    requires !nd.rescaled || !nd.router.Normal?
    ensures LocalInv(cfg, w, HandleRescale(nd, cfg.newWorkers, cfg.newVersion, w))
    ensures nd.rescaled ==> HandleRescale(nd, cfg.newWorkers, cfg.newVersion, w) == nd
  {
    var nd1 := HandleRescale(nd, cfg.newWorkers, cfg.newVersion, w);
    if nd.rescaled {
      assert nd1.remotes == nd.remotes;
    } else {
      assert forall p, z :: SentOk(cfg, w, nd, z, p) ==> SentOk(cfg, w, nd1, z, p);
      RescaleKeepsPossession(cfg, w, nd);
      forall x | 0 <= x < cfg.n && x != w ensures x in nd1.remotes {
        assert x in cfg.oldWorkers || x in cfg.newWorkers;
      }
    }
  }

  lemma RescaleKeepsPossession(cfg: Config, w: Worker, nd: Node)
    requires Possession(cfg, w, nd) && nd.router.Normal? && !nd.rescaled
    ensures Possession(cfg, w, HandleRescale(nd, cfg.newWorkers, cfg.newVersion, w))
  {
    var nd1 := HandleRescale(nd, cfg.newWorkers, cfg.newVersion, w);
    assert forall k :: MayHold(cfg, w, nd, k) ==> MayHold(cfg, w, nd1, k);
    assert forall i :: 0 <= i < |nd.down| ==> DownOk(cfg, w, nd, nd.down[i]) && !nd.down[i].DInterrogate?;
    forall i, j | 0 <= i < j < |nd1.down| ensures Before(cfg, w, nd1, nd1.down[i], nd1.down[j]) {
      if j < |nd.down| {
        assert Before(cfg, w, nd, nd.down[i], nd.down[j]);
      }
    }
  }

  // ---------------------------------------------------------------- lifecycle

  lemma StartCollectPhaseKeeps(cfg: Config, w: Worker, nd: Node, pick: Key)
    requires LocalInv(cfg, w, nd) && nd.router.Interrogating? && nd.router.copies == 0
    ensures LocalInv(cfg, w, Lifecycle(cfg.part, nd, pick))
    ensures forall k :: Departs(cfg, w, k)
                        && (k in nd.store || exists i :: 0 <= i < |nd.down| && nd.down[i].DData? && nd.down[i].rec.key == k) ==>
              k in Lifecycle(cfg.part, nd, pick).router.whitelist
  {
    var nd1 := Lifecycle(cfg.part, nd, pick);
    forall k | k in nd.store ensures MayHold(cfg, w, nd1, k) {
      assert MayHold(cfg, w, nd, k);
    }
    forall i | 0 <= i < |nd.down| ensures DownOk(cfg, w, nd1, nd.down[i]) {
      assert DownOk(cfg, w, nd, nd.down[i]);
    }
    assert forall i, j :: 0 <= i < j < |nd.down| ==> Before(cfg, w, nd, nd.down[i], nd.down[j]);
    assert forall p, z :: SentOk(cfg, w, nd, z, p) ==> SentOk(cfg, w, nd1, z, p);
  }

  lemma ShipKeeps(cfg: Config, w: Worker, nd: Node)
    requires ValidConfig(cfg) && LocalInv(cfg, w, nd) && CanCollect(nd)
    ensures LocalInv(cfg, w, Ship(cfg.part, nd))
    ensures Ship(cfg.part, nd).router.Collecting? && Ship(cfg.part, nd).router.current.None?
  {
    var c := nd.router.current.value;
    var y := New(cfg, c.key);
    assert IsCurrent(nd.router, c.key) && Departs(cfg, w, c.key) && y in cfg.newWorkers;
    var packets := [Acquire(c.key, c.collection)] + Released(nd.router.buffered, nd.router.version);
    var nd1 := nd.(router := nd.router.(current := None, buffered := []));
    assert LocalInv(cfg, w, nd1) by { ReleaseKeeps(cfg, w, nd); }
    forall i | 0 <= i < |packets| ensures SentOk(cfg, w, nd1, y, packets[i]) {
      if i > 0 {
        assert IsCurrent(nd.router, nd.router.buffered[i - 1].rec.key);
      }
    }
    forall i, j | 0 <= i < |nd.out[y]| && 0 <= j < |packets| ensures InOrder(nd.out[y][i], packets[j]) {
      assert SentOk(cfg, w, nd, y, nd.out[y][i]);
    }
    PushKeeps(cfg, w, nd1, y, packets);
    assert nd1.out == nd.out && y in nd1.remotes;
  }

  // The router lets go of the collected key.
  lemma ReleaseKeeps(cfg: Config, w: Worker, nd: Node)
    requires LocalInv(cfg, w, nd) && CanCollect(nd)
    ensures LocalInv(cfg, w, nd.(router := nd.router.(current := None, buffered := [])))
  {
    var nd1 := nd.(router := nd.router.(current := None, buffered := []));
    var c := nd.router.current.value.key;
    assert forall p, z :: SentOk(cfg, w, nd, z, p) ==> SentOk(cfg, w, nd1, z, p);
    forall k | k in nd.store ensures MayHold(cfg, w, nd1, k) {
      assert MayHold(cfg, w, nd, k) && k != c;
    }
    forall i | 0 <= i < |nd.down| ensures DownOk(cfg, w, nd1, nd.down[i]) {
      assert DownOk(cfg, w, nd, nd.down[i]);
    }
    assert forall e, f :: Before(cfg, w, nd1, e, f) == Before(cfg, w, nd, e, f);
  }

  lemma StartCollectKeeps(cfg: Config, w: Worker, nd: Node, pick: Key)
    requires LocalInv(cfg, w, nd) && nd.router.Collecting? && (nd.router.whitelist != {} ==> pick in nd.router.whitelist)
    ensures LocalInv(cfg, w, StartCollect(nd, pick))
  {
    if nd.router.current.None? && nd.router.whitelist != {} {
      var nd1 := nd.(router := nd.router.(current := Some(InCollection(pick, None, 1)),
                                          whitelist := nd.router.whitelist - {pick}));
      assert forall k :: GivenUp(nd1, k) == GivenUp(nd, k);
      assert forall p, z :: SentOk(cfg, w, nd1, z, p) == SentOk(cfg, w, nd, z, p);
      assert forall k :: MayHold(cfg, w, nd1, k) == MayHold(cfg, w, nd, k);
      assert forall e :: DownOk(cfg, w, nd, e) ==> DownOk(cfg, w, nd1, e) && !e.DCollect?;
      assert forall e, f :: Before(cfg, w, nd1, e, f) == Before(cfg, w, nd, e, f);
      assert LocalInv(cfg, w, nd1);
      DeliverKeeps(cfg, w, nd1, DCollect(pick));
    }
  }

  lemma FinishCollectKeeps(cfg: Config, w: Worker, nd: Node)
    requires LocalInv(cfg, w, nd) && nd.router.Collecting?
    ensures LocalInv(cfg, w, FinishCollect(nd))
  {
    if nd.router.current.None? && nd.router.whitelist == {} {
      var nd1 := FinishCollect(nd);
      assert forall k :: GivenUp(nd1, k) && GivenUp(nd, k);
      assert forall p, z :: SentOk(cfg, w, nd, z, p) ==> SentOk(cfg, w, nd1, z, p) && !p.Upgrade?;
      assert forall k :: MayHold(cfg, w, nd1, k) == MayHold(cfg, w, nd, k);
      assert forall e :: DownOk(cfg, w, nd, e) ==> DownOk(cfg, w, nd1, e);
      assert forall e, f :: Before(cfg, w, nd1, e, f) == Before(cfg, w, nd, e, f);
      forall y | 0 <= y < |nd1.out|
        ensures forall i :: 0 <= i < |nd1.out[y]| ==> SentOk(cfg, w, nd1, y, nd1.out[y][i])
        ensures Ordered(nd1.out[y])
      {
        assert forall i :: 0 <= i < |nd.out[y]| ==> SentOk(cfg, w, nd, y, nd.out[y][i]);
        OrderedConcat(nd.out[y], [Upgrade(nd.router.version)]);
      }
    }
  }

  lemma LifecycleFinishedKeeps(cfg: Config, w: Worker, nd: Node)
    requires ValidConfig(cfg) && LocalInv(cfg, w, nd) && nd.router.Finished?
    ensures LocalInv(cfg, w, LifecycleFinished(nd))
  {
    var nd1 := LifecycleFinished(nd);
    if nd1 != nd {
      assert forall p, z :: SentOk(cfg, w, nd1, z, p) == SentOk(cfg, w, nd, z, p);
      assert forall k :: MayHold(cfg, w, nd1, k) == MayHold(cfg, w, nd, k);
      assert forall e :: DownOk(cfg, w, nd, e) ==> DownOk(cfg, w, nd1, e);
      assert forall e, f :: Before(cfg, w, nd1, e, f) == Before(cfg, w, nd, e, f);
    }
  }

  // ---------------------------------------------------------------- operator

  lemma OperateDataKeeps(cfg: Config, w: Worker, nd: Node)
    requires LocalInv(cfg, w, nd) && nd.down != [] && nd.down[0].DData?
    ensures LocalInv(cfg, w, Operate(cfg.part, cfg.onData, cfg.default, nd))
  {
    var nd1 := Operate(cfg.part, cfg.onData, cfg.default, nd);
    var k := nd.down[0].rec.key;
    assert forall p, z :: SentOk(cfg, w, nd1, z, p) == SentOk(cfg, w, nd, z, p);
    assert DownOk(cfg, w, nd, nd.down[0]);
    assert forall j :: 0 <= j < |nd1.down| ==> Before(cfg, w, nd, nd.down[0], nd.down[j + 1]) && nd1.down[j] == nd.down[j + 1];
    assert forall e, f :: Before(cfg, w, nd1, e, f) == Before(cfg, w, nd, e, f);
    assert forall i :: 0 <= i < |nd1.down| ==> DownOk(cfg, w, nd, nd1.down[i]);
  }

  lemma OperateInterrogateKeeps(cfg: Config, w: Worker, nd: Node)
    requires ValidConfig(cfg) && LocalInv(cfg, w, nd) && nd.down != [] && nd.down[0].DInterrogate?
    ensures LocalInv(cfg, w, Operate(cfg.part, cfg.onData, cfg.default, nd))
  {
    var nd1 := Operate(cfg.part, cfg.onData, cfg.default, nd);
    assert DownOk(cfg, w, nd, nd.down[0]);
    var found := set k | k in nd.store && Moved(cfg.part, nd.router, k);
    forall k | k in found ensures Departs(cfg, w, k) {
      assert MayHold(cfg, w, nd, k);
    }
    assert forall k :: k in nd.store && Departs(cfg, w, k) ==> k in found;
    assert forall p, z :: SentOk(cfg, w, nd1, z, p) == SentOk(cfg, w, nd, z, p);
    assert forall k :: MayHold(cfg, w, nd1, k) == MayHold(cfg, w, nd, k);
    forall i | 0 <= i < |nd1.down| ensures DownOk(cfg, w, nd1, nd1.down[i]) {
      assert DownOk(cfg, w, nd, nd.down[i + 1]) && Before(cfg, w, nd, nd.down[0], nd.down[i + 1]);
    }
    assert forall e, f :: Before(cfg, w, nd, e, f) ==> Before(cfg, w, nd1, e, f);
  }

  lemma OperateCollectKeeps(cfg: Config, w: Worker, nd: Node)
    requires LocalInv(cfg, w, nd) && nd.down != [] && nd.down[0].DCollect?
    ensures LocalInv(cfg, w, Operate(cfg.part, cfg.onData, cfg.default, nd))
  {
    var nd1 := Operate(cfg.part, cfg.onData, cfg.default, nd);
    assert DownOk(cfg, w, nd, nd.down[0]);
    assert forall k :: GivenUp(nd1, k) == GivenUp(nd, k);
    assert forall p, z :: SentOk(cfg, w, nd1, z, p) == SentOk(cfg, w, nd, z, p);
    assert forall k :: MayHold(cfg, w, nd1, k) == MayHold(cfg, w, nd, k);
    forall i | 0 <= i < |nd1.down| ensures DownOk(cfg, w, nd1, nd1.down[i]) {
      assert DownOk(cfg, w, nd, nd.down[i + 1]) && Before(cfg, w, nd, nd.down[0], nd.down[i + 1]);
    }
    assert forall j :: 0 <= j < |nd1.down| ==> Before(cfg, w, nd, nd.down[0], nd1.down[j]);
    assert forall e, f :: Before(cfg, w, nd1, e, f) == Before(cfg, w, nd, e, f);
  }

  lemma OperateAcquireKeeps(cfg: Config, w: Worker, nd: Node)
    requires LocalInv(cfg, w, nd) && nd.down != [] && (nd.down[0].DAcquire? || nd.down[0].DRescale?)
    ensures LocalInv(cfg, w, Operate(cfg.part, cfg.onData, cfg.default, nd))
  {
    var nd1 := Operate(cfg.part, cfg.onData, cfg.default, nd);
    assert DownOk(cfg, w, nd, nd.down[0]);
    assert CanCollect(nd) ==> IsCurrent(nd.router, nd.router.current.value.key);
    assert forall p, z :: SentOk(cfg, w, nd1, z, p) == SentOk(cfg, w, nd, z, p);
    OperateAcquirePossession(cfg, w, nd);
  }

  lemma OperateAcquirePossession(cfg: Config, w: Worker, nd: Node)
    requires Possession(cfg, w, nd) && nd.down != [] && (nd.down[0].DAcquire? || nd.down[0].DRescale?)
    ensures Possession(cfg, w, Operate(cfg.part, cfg.onData, cfg.default, nd))
  {
    var nd1 := Operate(cfg.part, cfg.onData, cfg.default, nd);
    assert DownOk(cfg, w, nd, nd.down[0]);
    assert forall k :: MayHold(cfg, w, nd1, k) == MayHold(cfg, w, nd, k);
    forall i | 0 <= i < |nd1.down| ensures DownOk(cfg, w, nd1, nd1.down[i]) {
      assert DownOk(cfg, w, nd, nd.down[i + 1]) && Before(cfg, w, nd, nd.down[0], nd.down[i + 1]);
    }
    assert forall e, f :: Before(cfg, w, nd1, e, f) == Before(cfg, w, nd, e, f);
  }

  lemma OperateKeeps(cfg: Config, w: Worker, nd: Node)
    requires ValidConfig(cfg) && LocalInv(cfg, w, nd) && nd.down != []
    ensures LocalInv(cfg, w, Operate(cfg.part, cfg.onData, cfg.default, nd))
  {
    match nd.down[0]
    case DData(_) => OperateDataKeeps(cfg, w, nd);
    case DInterrogate => OperateInterrogateKeeps(cfg, w, nd);
    case DCollect(_) => OperateCollectKeeps(cfg, w, nd);
    case _ => OperateAcquireKeeps(cfg, w, nd);
  }
}
