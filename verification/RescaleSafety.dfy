/**
  What a rescale guarantees over all runs: one owner per key, complete and sound whitelists, bounded
  forwarding, and leaving workers that keep nothing.
*/
module RescaleSafety {
  import opened Basics
  import opened Router
  import opened Cluster
  import opened LocalInvariant
  import opened LocalSteps
  import opened PairInvariant
  import opened ClusterInvariant
  import opened Handshake

  // ---------------------------------------------------------------- single owner

  // The worker has state of k, is collecting it, or has something of k queued for its operators.
  ghost predicate Holds(nd: Node, k: Key) {
    || k in nd.store
    || IsCurrent(nd.router, k)
    || exists i :: 0 <= i < |nd.down| && Concerns(nd.down[i], k)
  }

  ghost predicate InTransit(s: Cluster, x: Worker, y: Worker, j: nat, k: Key) {
    x < |s.nodes| && y < |s.nodes[x].out| && j < |s.nodes[x].out[y]| && IsAcquire(s.nodes[x].out[y][j], k)
  }

  /** At most one place has k: one worker, or one Acquire on its way from the old to the new owner.
      Queued state is installed before any later record of k is handled and overwrites nothing. */
  ghost predicate SingleOwner(cfg: Config, s: Cluster, k: Key) {
    && (forall w :: 0 <= w < |s.nodes| && Holds(s.nodes[w], k) ==> w == Old(cfg, k) || w == New(cfg, k))
    && (forall v, w :: 0 <= v < |s.nodes| && 0 <= w < |s.nodes| && Holds(s.nodes[v], k) && Holds(s.nodes[w], k) ==> v == w)
    && (forall x, y, j :: InTransit(s, x, y, j, k) ==>
          && x == Old(cfg, k) && y == New(cfg, k)
          && (forall w :: 0 <= w < |s.nodes| ==> !Holds(s.nodes[w], k))
          && (forall x', y', j' :: InTransit(s, x', y', j', k) ==> x' == x && y' == y && j' == j))
    && (forall w, i, j :: 0 <= w < |s.nodes| && 0 <= i < j < |s.nodes[w].down|
                          && s.nodes[w].down[j].DAcquire? && s.nodes[w].down[j].key == k ==>
          !Concerns(s.nodes[w].down[i], k) && k !in s.nodes[w].store)
  }

  // Who owns k at this moment: the old owner until it gives k up.
  function Owner(cfg: Config, s: Cluster, k: Key): Worker
    requires Old(cfg, k) < |s.nodes|
  {
    if Moves(cfg, k) && GivenUp(s.nodes[Old(cfg, k)], k) then New(cfg, k) else Old(cfg, k)
  }

  lemma OwnersExist(cfg: Config, k: Key)
    requires ValidConfig(cfg)
    ensures Old(cfg, k) < cfg.n && New(cfg, k) < cfg.n
  {
    assert Old(cfg, k) in cfg.oldWorkers && New(cfg, k) in cfg.newWorkers;
  }

  lemma HoldsMayHold(cfg: Config, w: Worker, nd: Node, k: Key)
    requires LocalInv(cfg, w, nd) && Holds(nd, k)
    ensures MayHold(cfg, w, nd, k)
  {
    if i :| 0 <= i < |nd.down| && Concerns(nd.down[i], k) {
      assert DownOk(cfg, w, nd, nd.down[i]);
    }
  }

  // Whoever holds k owns it; the new owner holds it only once nothing of it is in transit.
  lemma HolderIsOwner(cfg: Config, s: Cluster, w: Worker, k: Key)
    requires ValidConfig(cfg) && Inv(cfg, s) && Safe(cfg, k) && w < cfg.n && Holds(s.nodes[w], k)
    ensures Old(cfg, k) < cfg.n && w == Owner(cfg, s, k)
    ensures Arrives(cfg, w, k) ==> HandedOver(s.nodes[Old(cfg, k)], w, k)
  {
    OwnersExist(cfg, k);
    HoldsMayHold(cfg, w, s.nodes[w], k);
    if Arrives(cfg, w, k) {
      var a := Old(cfg, k);
      assert PairInv(cfg, a, s.nodes[a], w, s.nodes[w]) && PassesTo(cfg, a, w, k);
      assert !IsCurrent(s.nodes[w].router, k) by {
        assert LocalInv(cfg, w, s.nodes[w]);
      }
    }
  }

  lemma TransitAlone(cfg: Config, s: Cluster, x: Worker, y: Worker, j: nat, w: Worker, k: Key)
    requires ValidConfig(cfg) && Inv(cfg, s) && Safe(cfg, k) && x < cfg.n && w < cfg.n && InTransit(s, x, y, j, k)
    ensures x == Old(cfg, k) && y == New(cfg, k) && !Holds(s.nodes[w], k)
  {
    assert SentOk(cfg, x, s.nodes[x], y, s.nodes[x].out[y][j]);
    if Holds(s.nodes[w], k) {
      HolderIsOwner(cfg, s, w, k);
    }
  }

  lemma InvSingleOwner(cfg: Config, s: Cluster, k: Key)
    requires ValidConfig(cfg) && Inv(cfg, s) && Safe(cfg, k)
    ensures SingleOwner(cfg, s, k)
  {
    forall w | 0 <= w < cfg.n && Holds(s.nodes[w], k) ensures w == Old(cfg, k) || w == New(cfg, k) {
      HoldsMayHold(cfg, w, s.nodes[w], k);
    }
    forall v, w | 0 <= v < cfg.n && 0 <= w < cfg.n && Holds(s.nodes[v], k) && Holds(s.nodes[w], k) ensures v == w {
      HolderIsOwner(cfg, s, v, k);
      HolderIsOwner(cfg, s, w, k);
    }
    forall x: Worker, y: Worker, j: nat | InTransit(s, x, y, j, k)
      ensures x == Old(cfg, k) && y == New(cfg, k)
      ensures forall w :: 0 <= w < cfg.n ==> !Holds(s.nodes[w], k)
      ensures forall x', y', j' :: InTransit(s, x', y', j', k) ==> x' == x && y' == y && j' == j
    {
      TransitAlone(cfg, s, x, y, j, x, k);
      forall w | 0 <= w < cfg.n ensures !Holds(s.nodes[w], k) {
        TransitAlone(cfg, s, x, y, j, w, k);
      }
      forall x': Worker, y': Worker, j': nat | InTransit(s, x', y', j', k) ensures x' == x && y' == y && j' == j {
        TransitAlone(cfg, s, x', y', j', x, k);
        var q := s.nodes[x].out[y];
        assert Ordered(q);
        assert j < j' ==> InOrder(q[j], q[j']);
        assert j' < j ==> InOrder(q[j'], q[j]);
      }
    }
    forall w, i, j | 0 <= w < cfg.n && 0 <= i < j < |s.nodes[w].down|
                     && s.nodes[w].down[j].DAcquire? && s.nodes[w].down[j].key == k
      ensures !Concerns(s.nodes[w].down[i], k) && k !in s.nodes[w].store
    {
      assert DownOk(cfg, w, s.nodes[w], s.nodes[w].down[j]);
      assert Before(cfg, w, s.nodes[w], s.nodes[w].down[i], s.nodes[w].down[j]);
    }
  }

  ghost predicate AlwaysSingleOwner(cfg: Config, k: Key) {
    forall run, i :: IsRun(cfg, run) && 0 <= i < |run| ==> SingleOwner(cfg, run[i], k)
  }

  /** A key has a single owner in all runs exactly if it does not move to a worker that was built with the
      enlarged worker set, whatever becomes of other keys. */
  lemma SingleOwnerIff(cfg: Config, k: Key)
    requires ValidConfig(cfg)
    ensures AlwaysSingleOwner(cfg, k) <==> New(cfg, k) !in cfg.late
  {
    if New(cfg, k) !in cfg.late {
      forall run, i | IsRun(cfg, run) && 0 <= i < |run| ensures SingleOwner(cfg, run[i], k) {
        RunInv(cfg, run, i);
        InvSingleOwner(cfg, run[i], k);
      }
    } else {
      var run := TwoOwners(cfg, k);
      assert !SingleOwner(cfg, run[2], k);
    }
  }

  // ---------------------------------------------------------------- how it fails otherwise

  // A connection to every other worker.
  function Others(n: nat, w: Worker): (m: map<Worker, Remote>)
    ensures forall x: Worker :: x in m <==> x < n && x != w
    ensures forall x: Worker :: x in m ==> m[x] == Remote(None, None)
  {
    if n == 0 then map[]
    else if n - 1 == w then Others(n - 1, w)
    else Others(n - 1, w)[n - 1 := Remote(None, None)]
  }

  function EmptyNode(cfg: Config, w: Worker): Node {
    Node(Normal(StartSet(cfg, w), StartVersion(cfg, w)),
         Others(cfg.n, w),
         seq(cfg.n, i => []), [], map[], false, false)
  }

  function EmptyCluster(cfg: Config): Cluster {
    Cluster(seq(cfg.n, w requires 0 <= w < cfg.n => EmptyNode(cfg, w)), [], [])
  }

  lemma EmptyIsInit(cfg: Config)
    requires ValidConfig(cfg)
    ensures Init(cfg, EmptyCluster(cfg))
  {
    forall w | 0 <= w < cfg.n ensures InitNode(cfg, w, EmptyNode(cfg, w)) {
      forall x | x in StartSet(cfg, w) && x != w ensures x in EmptyNode(cfg, w).remotes {
        assert x in cfg.oldWorkers || x in cfg.newWorkers;
      }
    }
  }

  // A key whose new owner already starts with the new set: one record each at the old and the new
  // owner, and both keep the key.
  lemma TwoOwners(cfg: Config, k: Key) returns (run: seq<Cluster>)
    requires ValidConfig(cfg) && New(cfg, k) in cfg.late
    ensures IsRun(cfg, run) && |run| == 3
    ensures !SingleOwner(cfg, run[2], k)
  {
    EmptyIsInit(cfg);
    var a, b := Old(cfg, k), New(cfg, k);
    assert a in cfg.oldWorkers && b in cfg.newWorkers;
    var rec := Record(k, 0);
    var s0 := EmptyCluster(cfg);
    var s1 := Apply(cfg, s0, Inject(a, rec));
    var s2 := Apply(cfg, s1, Inject(b, rec));
    run := [s0, s1, s2];
    assert Enabled(cfg, s0, Inject(a, rec)) && Enabled(cfg, s1, Inject(b, rec));
    assert Next(cfg, s0, s1) && Next(cfg, s1, s2);
    assert s2.nodes[a].down == [DData(rec)] && s2.nodes[b].down == [DData(rec)];
    assert Concerns(s2.nodes[a].down[0], k) && Concerns(s2.nodes[b].down[0], k);
    assert Holds(s2.nodes[a], k) && Holds(s2.nodes[b], k);
  }

  // ---------------------------------------------------------------- whitelist

  /** When a worker turns from interrogating to collecting, its whitelist holds every departing key it
      has state of or records queued for, and nothing but departing keys, whose new owners are all connected. */
  lemma WhitelistExact(cfg: Config, run: seq<Cluster>, i: nat, w: Worker, pick: Key, k: Key)
    requires ValidConfig(cfg) && IsRun(cfg, run) && i < |run| && w < cfg.n
    requires |run[i].nodes| == cfg.n && run[i].nodes[w].router.Interrogating?
    requires Lifecycle(cfg.part, run[i].nodes[w], pick).router.Collecting?
    ensures var nd1 := Lifecycle(cfg.part, run[i].nodes[w], pick);
            && (Departs(cfg, w, k) && Holds(run[i].nodes[w], k) ==> k in nd1.router.whitelist)
            && (k in nd1.router.whitelist ==> Departs(cfg, w, k) && New(cfg, k) in nd1.remotes)
  {
    RunInv(cfg, run, i);
    var nd := run[i].nodes[w];
    assert LocalInv(cfg, w, nd);
    assert New(cfg, k) in cfg.newWorkers;
    if Departs(cfg, w, k) && Holds(nd, k) && k !in nd.store {
      var j :| 0 <= j < |nd.down| && Concerns(nd.down[j], k);
      assert DownOk(cfg, w, nd, nd.down[j]);
    }
  }

  // No worker ever misses a connection it needs: every routed record and every Acquire has a target.
  lemma NeverPanics(cfg: Config, run: seq<Cluster>, i: nat, w: Worker)
    requires ValidConfig(cfg) && IsRun(cfg, run) && i < |run| && w < cfg.n
    ensures w < |run[i].nodes| && !run[i].nodes[w].panicked
  {
    RunInv(cfg, run, i);
    assert LocalInv(cfg, w, run[i].nodes[w]);
  }

  // ---------------------------------------------------------------- forwarding

  /** A record travels at most three times over the network, including its release from a buffer.
      A record whose key stays where it is travels at most once and is never buffered. */
  lemma BoundedForwarding(cfg: Config, run: seq<Cluster>, i: nat, x: Worker)
    requires ValidConfig(cfg) && IsRun(cfg, run) && i < |run| && x < cfg.n
    ensures x < |run[i].nodes|
    ensures var nd := run[i].nodes[x];
            && (forall y, j :: 0 <= y < |nd.out| && 0 <= j < |nd.out[y]| && nd.out[y][j].Data? ==>
                  && nd.out[y][j].hops <= 3
                  && (!Moves(cfg, nd.out[y][j].rec.key) ==> nd.out[y][j].hops <= 1 && y == Old(cfg, nd.out[y][j].rec.key)))
            && (nd.router.Collecting? ==> forall j :: 0 <= j < |nd.router.buffered| ==>
                  Departs(cfg, x, nd.router.buffered[j].rec.key) && nd.router.buffered[j].hops <= 2)
  {
    RunInv(cfg, run, i);
    var nd := run[i].nodes[x];
    assert LocalInv(cfg, x, nd);
    forall y, j | 0 <= y < |nd.out| && 0 <= j < |nd.out[y]| && nd.out[y][j].Data?
      ensures nd.out[y][j].hops <= 3
      ensures !Moves(cfg, nd.out[y][j].rec.key) ==> nd.out[y][j].hops <= 1 && y == Old(cfg, nd.out[y][j].rec.key)
    {
      assert SentOk(cfg, x, nd, y, nd.out[y][j]);
    }
  }

  // ---------------------------------------------------------------- leaving

  /** From the moment a leaving worker is back to Normal it holds none of the keys, in this state and in every
      later one. */
  lemma LeavingHoldsNothing(cfg: Config, run: seq<Cluster>, i: nat, j: nat, w: Worker, k: Key)
    requires ValidConfig(cfg) && IsRun(cfg, run) && i <= j < |run| && w < cfg.n
    requires |run[i].nodes| == cfg.n && Phase(run[i].nodes[w]) == 4 && w !in cfg.newWorkers
    ensures |run[j].nodes| == cfg.n && !Holds(run[j].nodes[w], k)
  {
    RunInv(cfg, run, j);
    RunIsUngated(cfg, run);
    StaysNormal(cfg, run, i, j, w);
    assert New(cfg, k) in cfg.newWorkers;
    if Holds(run[j].nodes[w], k) {
      HoldsMayHold(cfg, w, run[j].nodes[w], k);
    }
  }
}
