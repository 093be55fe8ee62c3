/**
  Rescaling is invisible to a keyed computation: at any moment, wherever the state of a key is, it is
  the fold of the operator's logic over all records of that key handled so far by any worker.
*/
module RescaleFold {
  import opened Basics
  import opened Router
  import opened Cluster
  import opened LocalInvariant
  import opened LocalSteps
  import opened PairInvariant
  import opened ClusterInvariant
  import opened RescaleSafety

  // The uninterrupted computation for one key, as if there was a single worker.
  function Fold(cfg: Config, start: Option<KeyState>, log: seq<Record>, k: Key): Option<KeyState> {
    if log == [] then start
    else
      var before := Fold(cfg, start, log[..|log| - 1], k);
      var rec := log[|log| - 1];
      if rec.key == k then cfg.onData(rec, if before.Some? then before.value else cfg.default) else before
  }

  lemma FoldExtend(cfg: Config, start: Option<KeyState>, log: seq<Record>, rec: Record, k: Key)
    ensures Fold(cfg, start, log + [rec], k) ==
              if rec.key == k then StepState(cfg.onData, cfg.default, Fold(cfg, start, log, k), rec)
              else Fold(cfg, start, log, k)
  {
    assert (log + [rec])[..|log|] == log;
  }

  // ---------------------------------------------------------------- where the state is

  // State kept or already collected by the old owner, before it gives k up.
  ghost predicate OldKeeps(cfg: Config, nd: Node, k: Key, v: Option<KeyState>) {
    !Moves(cfg, k) || !GivenUp(nd, k) ==>
      if CanCollect(nd) && IsCurrent(nd.router, k) then nd.router.current.value.collection == v
      else Lookup(nd.store, k) == v
  }

  predicate Installs(d: Down, k: Key) {
    d.DAcquire? && d.key == k
  }

  // State on its way from the old to the new owner.
  ghost predicate TransitCarries(q: seq<Packet>, k: Key, v: Option<KeyState>) {
    forall p :: p in q && IsAcquire(p, k) ==> p.collection == v
  }

  // State that reached the new owner but not its operators.
  ghost predicate QueueCarries(down: seq<Down>, k: Key, v: Option<KeyState>) {
    forall d :: d in down && Installs(d, k) ==> d.collection == v
  }

  // State installed at the new owner.
  ghost predicate NewKeeps(cfg: Config, giver: Node, y: Worker, nd: Node, k: Key, v: Option<KeyState>)
    requires y < |giver.out|
  {
    Moves(cfg, k) && HandedOver(giver, y, k) && (forall d :: d in nd.down ==> !Installs(d, k))
    ==> Lookup(nd.store, k) == v
  }

  /** Wherever the state of k currently is, it is v: kept or collected by the old owner, carried by an
      Acquire, or installed at the new owner. */
  ghost predicate StateIs(cfg: Config, s: Cluster, k: Key, v: Option<KeyState>) {
    var a, b := Old(cfg, k), New(cfg, k);
    && Safe(cfg, k) && a < |s.nodes| && b < |s.nodes| && b < |s.nodes[a].out|
    && OldKeeps(cfg, s.nodes[a], k, v)
    && TransitCarries(s.nodes[a].out[b], k, v)
    && QueueCarries(s.nodes[b].down, k, v)
    && NewKeeps(cfg, s.nodes[a], b, s.nodes[b], k, v)
  }

  ghost predicate Good(cfg: Config, s: Cluster) {
    ValidConfig(cfg) && Inv(cfg, s)
  }

  // ---------------------------------------------------------------- steps that leave k alone

  // What the location of k's state depends on at one worker.
  ghost predicate SameFor(cfg: Config, w: Worker, nd: Node, nd1: Node, k: Key) {
    && (Departs(cfg, w, k) ==> GivenUp(nd1, k) == GivenUp(nd, k))
    && Lookup(nd1.store, k) == Lookup(nd.store, k)
    && (CanCollect(nd1) && IsCurrent(nd1.router, k) <==> CanCollect(nd) && IsCurrent(nd.router, k))
    && (CanCollect(nd) && IsCurrent(nd.router, k) ==>
          nd1.router.current.value.collection == nd.router.current.value.collection)
    && (forall d :: Installs(d, k) ==> (d in nd.down <==> d in nd1.down))
    && |nd.out| == |nd1.out|
    && (forall y, p :: 0 <= y < |nd.out| && IsAcquire(p, k) ==> (p in nd.out[y] <==> p in nd1.out[y]))
  }

  ghost predicate Unaffected(cfg: Config, s: Cluster, t: Cluster, k: Key) {
    && |s.nodes| == |t.nodes| == cfg.n
    && forall w :: 0 <= w < cfg.n ==> SameFor(cfg, w, s.nodes[w], t.nodes[w], k)
  }

  // A step that changes none of these leaves the state of k where and as it is.
  lemma UnaffectedKeeps(cfg: Config, s: Cluster, t: Cluster, k: Key, v: Option<KeyState>)
    requires Good(cfg, s)
    requires StateIs(cfg, s, k, v)
    requires Unaffected(cfg, s, t, k)
    ensures StateIs(cfg, t, k, v)
  {
    var a, b := Old(cfg, k), New(cfg, k);
    assert SameFor(cfg, a, s.nodes[a], t.nodes[a], k) && SameFor(cfg, b, s.nodes[b], t.nodes[b], k);
    HandedOverIs(s.nodes[a], b, k);
    HandedOverIs(t.nodes[a], b, k);
  }

  lemma HandedOverIs(nd: Node, y: Worker, k: Key)
    requires y < |nd.out|
    ensures HandedOver(nd, y, k) <==> GivenUp(nd, k) && forall p :: p in nd.out[y] ==> !IsAcquire(p, k)
  {
  }

  lemma SameForPush(cfg: Config, w: Worker, nd: Node, y: Worker, added: seq<Packet>, k: Key)
    requires y < |nd.out| && forall p :: p in added ==> !IsAcquire(p, k)
    ensures SameFor(cfg, w, nd, Push(nd, y, added), k)
  {
  }

  lemma SameForPop(cfg: Config, w: Worker, nd: Node, y: Worker, k: Key)
    requires y < |nd.out| && nd.out[y] != [] && !IsAcquire(nd.out[y][0], k)
    ensures SameFor(cfg, w, nd, Popped(nd, y), k)
  {
    assert nd.out[y] == [nd.out[y][0]] + nd.out[y][1..];
  }

  lemma SameForHandleData(cfg: Config, w: Worker, nd: Node, rec: Record, hops: nat, version: Option<Version>, sender: Worker, k: Key)
    requires ValidConfig(cfg) && LocalInv(cfg, w, nd)
    requires Incoming(cfg, w, nd, sender, rec.key, hops)
    requires VersionOk(cfg, w, nd, sender, version)
    ensures SameFor(cfg, w, nd, HandleData(cfg.part, nd, rec, hops, version, w, sender), k)
  {
    HandleDataEffect(cfg, w, nd, rec, hops, version, sender);
    RouteSound(cfg, w, nd, rec, hops, version, sender);
  }

  lemma SameForRescale(cfg: Config, w: Worker, nd: Node, k: Key)
    requires LocalInv(cfg, w, nd) && (!nd.rescaled || !nd.router.Normal?)
    ensures SameFor(cfg, w, nd, HandleRescale(nd, cfg.newWorkers, cfg.newVersion, w), k)
  {
  }

  // One worker moves and k's state is not concerned.
  lemma MoveUnaffected(cfg: Config, s: Cluster, w: Worker, nd1: Node, k: Key, v: Option<KeyState>)
    requires Good(cfg, s) && w < cfg.n && SameFor(cfg, w, s.nodes[w], nd1, k)
    requires StateIs(cfg, s, k, v)
    ensures StateIs(cfg, s.(nodes := s.nodes[w := nd1]), k, v)
  {
    var t := s.(nodes := s.nodes[w := nd1]);
    forall x | 0 <= x < cfg.n ensures SameFor(cfg, x, s.nodes[x], t.nodes[x], k) {
    }
    UnaffectedKeeps(cfg, s, t, k, v);
  }

  // ---------------------------------------------------------------- lifecycle

  lemma BeginCollectingState(cfg: Config, s: Cluster, w: Worker, pick: Key, k: Key, v: Option<KeyState>)
    requires Good(cfg, s) && w < cfg.n && StateIs(cfg, s, k, v)
    requires s.nodes[w].router.Interrogating? && s.nodes[w].router.copies == 0
    ensures StateIs(cfg, s.(nodes := s.nodes[w := Lifecycle(cfg.part, s.nodes[w], pick)]), k, v)
  {
    var nd := s.nodes[w];
    var nd1 := Lifecycle(cfg.part, nd, pick);
    if Departs(cfg, w, k) && k !in nd.router.shared {
      // k has no state here and none arrived at its new owner yet
      var b := New(cfg, k);
      assert LocalInv(cfg, w, nd);
      OwnersExist(cfg, k);
      assert PairInv(cfg, w, nd, b, s.nodes[b]);
      assert k !in nd.store && k !in s.nodes[b].store;
    } else {
      MoveUnaffected(cfg, s, w, nd1, k, v);
    }
  }

  lemma ShipState(cfg: Config, s: Cluster, w: Worker, k: Key, v: Option<KeyState>)
    requires Good(cfg, s) && w < cfg.n && CanCollect(s.nodes[w]) && StateIs(cfg, s, k, v)
    ensures StateIs(cfg, s.(nodes := s.nodes[w := Ship(cfg.part, s.nodes[w])]), k, v)
  {
    if s.nodes[w].router.current.value.key == k {
      ShipThisState(cfg, s, w, k, v);
    } else {
      ShipEffect(cfg, w, s.nodes[w]);
      ShipOtherState(cfg, w, s.nodes[w], k);
      MoveUnaffected(cfg, s, w, Ship(cfg.part, s.nodes[w]), k, v);
    }
  }

  // What is handed over and to whom.
  lemma ShipEffect(cfg: Config, w: Worker, nd: Node)
    requires ValidConfig(cfg) && LocalInv(cfg, w, nd) && CanCollect(nd)
    ensures var nd1 := Ship(cfg.part, nd);
            var c := nd.router.current.value;
            var y := New(cfg, c.key);
            && y < cfg.n && Departs(cfg, w, c.key) && y < |nd.out| && c.key !in nd.store
            && nd1.out == nd.out[y := nd.out[y] + ([Acquire(c.key, c.collection)] + Released(nd.router.buffered, nd.router.version))]
            && nd1.router == nd.router.(current := None, buffered := [])
            && nd1.store == nd.store && nd1.down == nd.down
            && GivenUp(nd1, c.key)
  {
    OwnersExist(cfg, nd.router.current.value.key);
    assert IsCurrent(nd.router, nd.router.current.value.key);
  }

  lemma ShipOtherState(cfg: Config, w: Worker, nd: Node, k: Key)
    requires ValidConfig(cfg) && LocalInv(cfg, w, nd) && CanCollect(nd) && nd.router.current.value.key != k
    ensures SameFor(cfg, w, nd, Ship(cfg.part, nd), k)
  {
    ShipEffect(cfg, w, nd);
    var c := nd.router.current.value;
    var packets := [Acquire(c.key, c.collection)] + Released(nd.router.buffered, nd.router.version);
    assert forall p :: p in packets ==> !IsAcquire(p, k);
  }

  lemma ShipThisState(cfg: Config, s: Cluster, w: Worker, k: Key, v: Option<KeyState>)
    requires Good(cfg, s) && w < cfg.n && CanCollect(s.nodes[w]) && StateIs(cfg, s, k, v)
    requires s.nodes[w].router.current.value.key == k
    ensures StateIs(cfg, s.(nodes := s.nodes[w := Ship(cfg.part, s.nodes[w])]), k, v)
  {
    var nd := s.nodes[w];
    var nd1 := Ship(cfg.part, nd);
    var c := nd.router.current.value;
    ShipEffect(cfg, w, nd);
    var y := New(cfg, k);
    var packets := [Acquire(c.key, c.collection)] + Released(nd.router.buffered, nd.router.version);
    assert packets[0] in nd1.out[y] && IsAcquire(packets[0], k);
    assert !HandedOver(nd1, y, k);
    assert forall p :: p in nd.out[y] ==> SentOk(cfg, w, nd, y, p);
  }

  // Starting the next collection or finishing moves no state.
  lemma SameForNext(cfg: Config, w: Worker, nd: Node, pick: Key, k: Key)
    requires LocalInv(cfg, w, nd) && nd.router.Collecting? && (nd.router.whitelist != {} ==> pick in nd.router.whitelist)
    ensures SameFor(cfg, w, nd, FinishCollect(StartCollect(nd, pick)), k)
  {
    var nd1 := StartCollect(nd, pick);
    assert SameFor(cfg, w, nd, nd1, k);
    assert SameFor(cfg, w, nd1, FinishCollect(nd1), k);
  }

  lemma CollectingState(cfg: Config, s: Cluster, w: Worker, pick: Key, k: Key, v: Option<KeyState>)
    requires Good(cfg, s) && StateIs(cfg, s, k, v) && Possible(cfg, s, RunLifecycle(w, pick))
    requires s.nodes[w].router.Collecting?
    ensures StateIs(cfg, Apply(cfg, s, RunLifecycle(w, pick)), k, v)
  {
    var nd := s.nodes[w];
    if CanCollect(nd) {
      ShipMoveKeeps(cfg, s, w);
      ShipState(cfg, s, w, k, v);
      ShippedState(cfg, s, s.(nodes := s.nodes[w := Ship(cfg.part, nd)]), w, pick, k, v);
    } else {
      AfterShipping(cfg, s, w, pick, k, v);
    }
  }

  lemma ShippedState(cfg: Config, s: Cluster, t: Cluster, w: Worker, pick: Key, k: Key, v: Option<KeyState>)
    requires w < |s.nodes| == cfg.n && CanCollect(s.nodes[w]) && t == s.(nodes := s.nodes[w := Ship(cfg.part, s.nodes[w])])
    requires Good(cfg, t) && StateIs(cfg, t, k, v)
    requires s.nodes[w].router.whitelist != {} ==> pick in s.nodes[w].router.whitelist
    ensures StateIs(cfg, s.(nodes := s.nodes[w := LifecycleCollecting(cfg.part, s.nodes[w], pick)]), k, v)
  {
    var nd := s.nodes[w];
    AfterShipping(cfg, t, w, pick, k, v);
    assert t.nodes[w := LifecycleCollecting(cfg.part, nd, pick)] == s.nodes[w := LifecycleCollecting(cfg.part, nd, pick)];
  }

  lemma AfterShipping(cfg: Config, s: Cluster, w: Worker, pick: Key, k: Key, v: Option<KeyState>)
    requires Good(cfg, s) && StateIs(cfg, s, k, v) && w < cfg.n && s.nodes[w].router.Collecting?
    requires s.nodes[w].router.whitelist != {} ==> pick in s.nodes[w].router.whitelist
    ensures StateIs(cfg, s.(nodes := s.nodes[w := FinishCollect(StartCollect(s.nodes[w], pick))]), k, v)
  {
    SameForNext(cfg, w, s.nodes[w], pick, k);
    MoveUnaffected(cfg, s, w, FinishCollect(StartCollect(s.nodes[w], pick)), k, v);
  }

  lemma LifecycleState(cfg: Config, s: Cluster, w: Worker, pick: Key, k: Key, v: Option<KeyState>)
    requires Good(cfg, s) && StateIs(cfg, s, k, v) && Possible(cfg, s, RunLifecycle(w, pick))
    ensures StateIs(cfg, Apply(cfg, s, RunLifecycle(w, pick)), k, v)
  {
    var nd := s.nodes[w];
    if nd.router.Collecting? {
      CollectingState(cfg, s, w, pick, k, v);
    } else if nd.router.Interrogating? && nd.router.copies == 0 {
      BeginCollectingState(cfg, s, w, pick, k, v);
      assert Apply(cfg, s, RunLifecycle(w, pick)) == s.(nodes := s.nodes[w := Lifecycle(cfg.part, nd, pick)]);
    } else {
      var nd1 := Lifecycle(cfg.part, nd, pick);
      assert SameFor(cfg, w, nd, nd1, k);
      MoveUnaffected(cfg, s, w, nd1, k, v);
      assert Apply(cfg, s, RunLifecycle(w, pick)) == s.(nodes := s.nodes[w := nd1]);
    }
  }

  // ---------------------------------------------------------------- receiving

  // Receiving anything but the Acquire of k does not concern k's state at the receiver ...
  lemma SameForReceive(cfg: Config, s: Cluster, w: Worker, x: Worker, k: Key)
    requires Good(cfg, s) && Enabled(cfg, s, Receive(w, x)) && !IsAcquire(s.nodes[x].out[w][0], k)
    ensures SameFor(cfg, w, s.nodes[w], HandlePacket(cfg.part, s.nodes[w], s.nodes[x].out[w][0], w, x), k)
  {
    var nd, p := s.nodes[w], s.nodes[x].out[w][0];
    assert LocalInv(cfg, x, s.nodes[x]);
    assert SentOk(cfg, x, s.nodes[x], w, p);
    if p.Data? {
      SameForHandleData(cfg, w, nd, p.rec, p.hops, Some(p.version), x, k);
    } else if p.Upgrade? {
      var nd1 := nd.(remotes := nd.remotes[x := nd.remotes[x].(lastVersion := Some(p.version))]);
      SameForPush(cfg, w, nd1, x, [AckUpgrade(p.version)], k);
    }
  }

  // ... nor at the sender.
  lemma ReceiveState(cfg: Config, s: Cluster, w: Worker, x: Worker, k: Key, v: Option<KeyState>)
    requires Good(cfg, s) && StateIs(cfg, s, k, v) && Enabled(cfg, s, Receive(w, x))
    ensures StateIs(cfg, Apply(cfg, s, Receive(w, x)), k, v)
  {
    if IsAcquire(s.nodes[x].out[w][0], k) {
      ReceiveAcquireState(cfg, s, w, x, k, v);
    } else {
      SameForReceive(cfg, s, w, x, k);
      SameForPop(cfg, x, s.nodes[x], w, k);
      PopKeepsInv(cfg, s, w, x);
      MoveUnaffected(cfg, s, x, Popped(s.nodes[x], w), k, v);
      MoveUnaffected(cfg, AfterPop(s, w, x), w, HandlePacket(cfg.part, s.nodes[w], s.nodes[x].out[w][0], w, x), k, v);
    }
  }

  // The Acquire of k moves from the channel into the queue of the new owner's operators.
  lemma ReceiveAcquireState(cfg: Config, s: Cluster, w: Worker, x: Worker, k: Key, v: Option<KeyState>)
    requires Good(cfg, s) && StateIs(cfg, s, k, v) && Enabled(cfg, s, Receive(w, x))
    requires IsAcquire(s.nodes[x].out[w][0], k)
    ensures StateIs(cfg, Apply(cfg, s, Receive(w, x)), k, v)
  {
    var p := s.nodes[x].out[w][0];
    var u := Apply(cfg, s, Receive(w, x));
    assert LocalInv(cfg, x, s.nodes[x]);
    assert SentOk(cfg, x, s.nodes[x], w, p);
    assert p in s.nodes[x].out[w];
    var q := s.nodes[x].out[w][1..];
    assert u.nodes[x] == Popped(s.nodes[x], w) && u.nodes[x].out[w] == q;
    assert forall r :: r in q ==> r in s.nodes[x].out[w];
    assert u.nodes[w].down == s.nodes[w].down + [DAcquire(k, p.collection)];
    assert DAcquire(k, p.collection) in u.nodes[w].down && Installs(DAcquire(k, p.collection), k);
  }

  // ---------------------------------------------------------------- operator

  // A record of k is about to be handled: the state it meets is the current one.
  lemma OwnerMeetsState(cfg: Config, s: Cluster, w: Worker, k: Key, v: Option<KeyState>)
    requires Good(cfg, s) && StateIs(cfg, s, k, v) && w < cfg.n && s.nodes[w].down != []
    requires s.nodes[w].down[0].DData? && s.nodes[w].down[0].rec.key == k
    ensures Lookup(s.nodes[w].store, k) == v
    ensures w == Owner(cfg, s, k)
    ensures Arrives(cfg, w, k) ==> HandedOver(s.nodes[Old(cfg, k)], w, k)
    ensures !(CanCollect(s.nodes[w]) && IsCurrent(s.nodes[w].router, k))
    ensures Arrives(cfg, w, k) ==> forall d :: d in s.nodes[w].down ==> !Installs(d, k)
  {
    var nd := s.nodes[w];
    assert LocalInv(cfg, w, nd);
    assert Concerns(nd.down[0], k) && Holds(nd, k);
    HolderIsOwner(cfg, s, w, k);
    if Arrives(cfg, w, k) {
      forall d | d in nd.down ensures !Installs(d, k) {
        var j :| 0 <= j < |nd.down| && nd.down[j] == d;
        assert j > 0 ==> Before(cfg, w, nd, nd.down[0], nd.down[j]);
      }
    }
  }

  // The operator of the owner updates the state, and no other place has one.
  lemma OperateDataState(cfg: Config, s: Cluster, w: Worker, k: Key, v: Option<KeyState>)
    requires Good(cfg, s) && StateIs(cfg, s, k, v) && Possible(cfg, s, RunOperator(w))
    requires s.nodes[w].down[0].DData? && s.nodes[w].down[0].rec.key == k
    ensures StateIs(cfg, Apply(cfg, s, RunOperator(w)), k,
                    StepState(cfg.onData, cfg.default, v, s.nodes[w].down[0].rec))
  {
    var nd := s.nodes[w];
    var a, b := Old(cfg, k), New(cfg, k);
    var v1 := StepState(cfg.onData, cfg.default, v, nd.down[0].rec);
    OwnerMeetsState(cfg, s, w, k, v);
    var nd1 := Operate(cfg.part, cfg.onData, cfg.default, nd);
    var t := s.nodes[w := nd1];
    assert Apply(cfg, s, RunOperator(w)).nodes == t;
    assert nd.down == [nd.down[0]] + nd1.down;
    assert nd1.out == nd.out && GivenUp(nd1, k) == GivenUp(nd, k) && Lookup(nd1.store, k) == v1;
    HandedOverIs(s.nodes[a], b, k);
    HandedOverIs(t[a], b, k);
    if !Moves(cfg, k) {
      StationaryAlone(cfg, s, k);
    } else if w == a {
      OldAlone(cfg, s, k);
    }
  }

  // No state of a key that stays is ever in transit or queued.
  lemma StationaryAlone(cfg: Config, s: Cluster, k: Key)
    requires Good(cfg, s) && !Moves(cfg, k) && Old(cfg, k) < |s.nodes|
    ensures forall y, p :: 0 <= y < |s.nodes[Old(cfg, k)].out| && p in s.nodes[Old(cfg, k)].out[y] ==> !IsAcquire(p, k)
    ensures forall d :: d in s.nodes[Old(cfg, k)].down ==> !Installs(d, k)
  {
    var a := Old(cfg, k);
    assert LocalInv(cfg, a, s.nodes[a]);
    forall y, p | 0 <= y < |s.nodes[a].out| && p in s.nodes[a].out[y] ensures !IsAcquire(p, k) {
      assert SentOk(cfg, a, s.nodes[a], y, p);
    }
    forall d | d in s.nodes[a].down ensures !Installs(d, k) {
      assert DownOk(cfg, a, s.nodes[a], d);
    }
  }

  // While the old owner has not given k up, nothing of k is in transit or queued at the new owner.
  ghost predicate NothingAhead(cfg: Config, s: Cluster, k: Key)
    requires Old(cfg, k) < |s.nodes| && New(cfg, k) < |s.nodes| && New(cfg, k) < |s.nodes[Old(cfg, k)].out|
  {
    && (forall p :: p in s.nodes[Old(cfg, k)].out[New(cfg, k)] ==> !IsAcquire(p, k))
    && (forall d :: d in s.nodes[New(cfg, k)].down ==> !Installs(d, k))
  }

  lemma OldAlone(cfg: Config, s: Cluster, k: Key)
    requires Good(cfg, s) && Safe(cfg, k) && Moves(cfg, k)
    requires Old(cfg, k) < |s.nodes| && New(cfg, k) < |s.nodes| && New(cfg, k) < |s.nodes[Old(cfg, k)].out|
    requires !GivenUp(s.nodes[Old(cfg, k)], k)
    ensures NothingAhead(cfg, s, k)
  {
    var a, b := Old(cfg, k), New(cfg, k);
    assert LocalInv(cfg, a, s.nodes[a]);
    assert PairInv(cfg, a, s.nodes[a], b, s.nodes[b]);
    assert forall p :: p in s.nodes[a].out[b] ==> SentOk(cfg, a, s.nodes[a], b, p);
    forall d | d in s.nodes[b].down ensures !Installs(d, k) {
      var i :| 0 <= i < |s.nodes[b].down| && s.nodes[b].down[i] == d;
      assert Concerns(d, k) ==> HandedOver(s.nodes[a], b, k);
    }
  }

  lemma OperateCollectState(cfg: Config, s: Cluster, w: Worker, k: Key, v: Option<KeyState>)
    requires Good(cfg, s) && StateIs(cfg, s, k, v) && Possible(cfg, s, RunOperator(w))
    requires s.nodes[w].down[0] == DCollect(k)
    ensures StateIs(cfg, Apply(cfg, s, RunOperator(w)), k, v)
  {
    var nd := s.nodes[w];
    assert LocalInv(cfg, w, nd);
    assert DownOk(cfg, w, nd, nd.down[0]);
    var nd1 := Operate(cfg.part, cfg.onData, cfg.default, nd);
    assert nd1.router.current.value.collection == Lookup(nd.store, k);
    assert !GivenUp(nd, k) && !GivenUp(nd1, k);
  }

  // Queued state is installed; it is the only one and overwrites nothing.
  lemma OperateAcquireState(cfg: Config, s: Cluster, w: Worker, k: Key, v: Option<KeyState>)
    requires Good(cfg, s) && StateIs(cfg, s, k, v) && Possible(cfg, s, RunOperator(w))
    requires Installs(s.nodes[w].down[0], k)
    ensures StateIs(cfg, Apply(cfg, s, RunOperator(w)), k, v)
  {
    var nd := s.nodes[w];
    assert LocalInv(cfg, w, nd);
    assert DownOk(cfg, w, nd, nd.down[0]);
    assert nd.down[0] in nd.down;
    var nd1 := Operate(cfg.part, cfg.onData, cfg.default, nd);
    assert nd.down == [nd.down[0]] + nd1.down;
    assert Lookup(nd1.store, k) == v;
  }

  lemma SameForOperate(cfg: Config, w: Worker, nd: Node, k: Key)
    requires LocalInv(cfg, w, nd) && nd.down != []
    requires !Concerns(nd.down[0], k) && nd.down[0] != DCollect(k)
    ensures SameFor(cfg, w, nd, Operate(cfg.part, cfg.onData, cfg.default, nd), k)
  {
    assert DownOk(cfg, w, nd, nd.down[0]);
    assert nd.down == [nd.down[0]] + nd.down[1..];
  }

  lemma OperateState(cfg: Config, s: Cluster, w: Worker, k: Key, v: Option<KeyState>)
    requires Good(cfg, s) && StateIs(cfg, s, k, v) && Possible(cfg, s, RunOperator(w))
    ensures var d := s.nodes[w].down[0];
            StateIs(cfg, Apply(cfg, s, RunOperator(w)), k,
                    if d.DData? && d.rec.key == k then StepState(cfg.onData, cfg.default, v, d.rec) else v)
  {
    var d := s.nodes[w].down[0];
    if d.DData? && d.rec.key == k {
      OperateDataState(cfg, s, w, k, v);
    } else if d == DCollect(k) {
      OperateCollectState(cfg, s, w, k, v);
    } else if Installs(d, k) {
      OperateAcquireState(cfg, s, w, k, v);
    } else {
      SameForOperate(cfg, w, s.nodes[w], k);
      MoveUnaffected(cfg, s, w, Operate(cfg.part, cfg.onData, cfg.default, s.nodes[w]), k, v);
    }
  }

  // ---------------------------------------------------------------- the theorem

  lemma StepKeepsState(cfg: Config, s: Cluster, step: Step, start: Option<KeyState>, k: Key)
    requires Good(cfg, s) && Enabled(cfg, s, step)
    requires StateIs(cfg, s, k, Fold(cfg, start, s.log, k))
    ensures StateIs(cfg, Apply(cfg, s, step), k, Fold(cfg, start, Apply(cfg, s, step).log, k))
  {
    var v := Fold(cfg, start, s.log, k);
    match step
    case Inject(w, rec) =>
      SameForHandleData(cfg, w, s.nodes[w], rec, 0, None, w, k);
      MoveUnaffected(cfg, s, w, HandleData(cfg.part, s.nodes[w], rec, 0, None, w, w), k, v);
    case StartRescale(w) =>
      SameForRescale(cfg, w, s.nodes[w], k);
      MoveUnaffected(cfg, s, w, HandleRescale(s.nodes[w], cfg.newWorkers, cfg.newVersion, w), k, v);
    case RunLifecycle(w, pick) => LifecycleState(cfg, s, w, pick, k, v);
    case Receive(w, x) => ReceiveState(cfg, s, w, x, k, v);
    case RunOperator(w) =>
      OperateState(cfg, s, w, k, v);
      var d := s.nodes[w].down[0];
      if d.DData? { FoldExtend(cfg, start, s.log, d.rec, k); }
  }

  // The state of k at the beginning of a run.
  function StartState(cfg: Config, run: seq<Cluster>, k: Key): Option<KeyState>
    requires run != [] && Old(cfg, k) < |run[0].nodes|
  {
    Lookup(run[0].nodes[Old(cfg, k)].store, k)
  }

  // In every reachable state the state of every key, wherever it is, is the uninterrupted fold.
  lemma {:induction false} RescaleIsInvisible(cfg: Config, run: seq<Cluster>, i: nat, k: Key)
    requires ValidConfig(cfg) && Safe(cfg, k) && IsRun(cfg, run) && i < |run|
    ensures Old(cfg, k) < |run[0].nodes|
    ensures StateIs(cfg, run[i], k, Fold(cfg, StartState(cfg, run, k), run[i].log, k))
  {
    OwnersExist(cfg, k);
    if i == 0 {
      InitInv(cfg, run[0]);
      assert InitNode(cfg, Old(cfg, k), run[0].nodes[Old(cfg, k)]) && InitNode(cfg, New(cfg, k), run[0].nodes[New(cfg, k)]);
    } else {
      RescaleIsInvisible(cfg, run, i - 1, k);
      RunInv(cfg, run, i - 1);
      assert Next(cfg, run[i - 1], run[i - 1 + 1]);
      var step :| Enabled(cfg, run[i - 1], step) && run[i] == Apply(cfg, run[i - 1], step);
      StepKeepsState(cfg, run[i - 1], step, StartState(cfg, run, k), k);
    }
  }

  /** Once the old owner is back to Normal and nothing is queued any more, the new owner's operators
      have exactly the state of the uninterrupted computation and nobody else has any. */
  lemma RescaleCompletes(cfg: Config, run: seq<Cluster>, i: nat, k: Key, w: Worker)
    requires ValidConfig(cfg) && Safe(cfg, k) && IsRun(cfg, run) && i < |run| && w < cfg.n
    requires |run[i].nodes| == cfg.n
    requires forall x :: 0 <= x < cfg.n ==> Phase(run[i].nodes[x]) == 4 && run[i].nodes[x].down == []
    ensures New(cfg, k) < cfg.n && Old(cfg, k) < |run[0].nodes|
    ensures Lookup(run[i].nodes[w].store, k) ==
              if w == New(cfg, k) then Fold(cfg, StartState(cfg, run, k), run[i].log, k) else None
  {
    OwnersExist(cfg, k);
    RescaleIsInvisible(cfg, run, i, k);
    RunInv(cfg, run, i);
    var a, b := Old(cfg, k), New(cfg, k);
    var s := run[i];
    if a != b {
      assert PairInv(cfg, a, s.nodes[a], b, s.nodes[b]);
      assert HandedOver(s.nodes[a], b, k);
    }
    if k in s.nodes[w].store {
      assert Holds(s.nodes[w], k);
      HolderIsOwner(cfg, s, w, k);
    }
  }
}
