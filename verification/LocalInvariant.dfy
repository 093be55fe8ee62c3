/**
  What every worker of a rescaling cluster keeps on its own: the shape of its router and remotes,
  soundness and completeness of the whitelist, who may hold a key, and which packets it may have sent.
*/
module LocalInvariant {
  import opened Basics
  import opened Router
  import opened Cluster

  // The keys for which the protocol is safe: their new owner was not built with the enlarged set.
  predicate Safe(cfg: Config, k: Key) {
    New(cfg, k) !in cfg.late
  }

  // Worker w gives k up in this rescale.
  predicate Departs(cfg: Config, w: Worker, k: Key) {
    Old(cfg, k) == w && New(cfg, k) != w
  }

  // Worker w is given k in this rescale.
  predicate Arrives(cfg: Config, w: Worker, k: Key) {
    New(cfg, k) == w && Old(cfg, k) != w
  }

  // The worker no longer keeps k back: the whitelist is final and k is neither on it nor being collected.
  predicate GivenUp(nd: Node, k: Key) {
    || Phase(nd) >= 3
    || (nd.router.Collecting? && k !in nd.router.whitelist && !IsCurrent(nd.router, k))
  }

  // ---------------------------------------------------------------- shape

  // What the router and the connections look like in each phase.
  ghost predicate Stage(cfg: Config, w: Worker, nd: Node) {
    && w < cfg.n && |nd.out| == cfg.n
    && (forall x :: x in nd.remotes ==> x < cfg.n && x != w)
    && (Phase(nd) == 0 ==>
         && nd.router == Normal(StartSet(cfg, w), StartVersion(cfg, w))
         && forall x :: x in StartSet(cfg, w) && x != w ==> x in nd.remotes)
    && (nd.rescaled <==> Phase(nd) >= 1)
    && (1 <= Phase(nd) <= 3 ==> forall x :: 0 <= x < cfg.n && x != w ==> x in nd.remotes)
    && (Phase(nd) == 1 ==>
         && nd.router.version == StartVersion(cfg, w) && nd.router.oldWorkers == StartSet(cfg, w)
         && nd.router.newWorkers == cfg.newWorkers && nd.router.trigger == cfg.newVersion)
    && (2 <= Phase(nd) <= 3 ==>
         && nd.router.version == cfg.newVersion && nd.router.oldWorkers == StartSet(cfg, w)
         && nd.router.newWorkers == cfg.newWorkers)
    && (Phase(nd) == 4 ==>
         && nd.router == Normal(cfg.newWorkers, cfg.newVersion)
         && (forall x :: x in cfg.newWorkers && x != w ==> x in nd.remotes))
  }

  ghost predicate Shape(cfg: Config, w: Worker, nd: Node) {
    Stage(cfg, w, nd) && nd.out[w] == [] && !nd.panicked
  }

  // ---------------------------------------------------------------- whitelist

  // Only keys that leave this worker are whitelisted or collected.
  ghost predicate Sound(cfg: Config, w: Worker, nd: Node) {
    && (nd.router.Interrogating? ==> forall k :: k in nd.router.shared ==> Departs(cfg, w, k))
    && (nd.router.Collecting? ==> forall k :: k in nd.router.whitelist || IsCurrent(nd.router, k) ==> Departs(cfg, w, k))
    && (nd.router.Collecting? ==> forall k :: k in nd.router.whitelist ==> !IsCurrent(nd.router, k))
  }

  // ---------------------------------------------------------------- possession

  // w may hold state of k or have records of k queued for its operators.
  predicate MayHold(cfg: Config, w: Worker, nd: Node, k: Key) {
    || (Old(cfg, k) == w && New(cfg, k) == w)
    || (Departs(cfg, w, k) && !GivenUp(nd, k))
    || (Arrives(cfg, w, k) && (Phase(nd) >= 2 || w in cfg.late))
  }

  predicate DownOk(cfg: Config, w: Worker, nd: Node, d: Down) {
    match d
    case DData(rec) => MayHold(cfg, w, nd, rec.key)
    case DInterrogate => nd.router.Interrogating? && nd.router.copies == 1
    case DCollect(key) => IsCurrent(nd.router, key) && nd.router.current.value.copies == 1
    case DAcquire(key, _) => Arrives(cfg, w, key) && Phase(nd) >= 2 && (Safe(cfg, key) ==> key !in nd.store)
    case DRescale => true
  }

  // `later` may follow `d` in the queue of the operators.
  predicate Before(cfg: Config, w: Worker, nd: Node, d: Down, later: Down) {
    match later
    case DData(rec) =>
      && !(d.DCollect? && d.key == rec.key)
      && (d.DInterrogate? && nd.router.Interrogating? && Departs(cfg, w, rec.key) ==> rec.key in nd.router.shared)
    case DInterrogate => !d.DInterrogate?
    case DCollect(_) => !d.DCollect?
    case DAcquire(key, _) => Safe(cfg, key) ==> !(d.DData? && d.rec.key == key) && !(d.DAcquire? && d.key == key)
    case DRescale => true
  }

  ghost predicate Possession(cfg: Config, w: Worker, nd: Node) {
    && (forall k :: k in nd.store ==> MayHold(cfg, w, nd, k))
    && (forall i :: 0 <= i < |nd.down| ==> DownOk(cfg, w, nd, nd.down[i]))
    && (forall i, j :: 0 <= i < j < |nd.down| ==> Before(cfg, w, nd, nd.down[i], nd.down[j]))
  }

  // ---------------------------------------------------------------- interrogation and collection

  // Once the interrogation is over every departing key with state or queued records has been reported.
  ghost predicate Reported(cfg: Config, w: Worker, nd: Node) {
    nd.router.Interrogating? && nd.router.copies == 0 ==>
      && (forall k :: k in nd.store && Departs(cfg, w, k) ==> k in nd.router.shared)
      && (forall i :: 0 <= i < |nd.down| && nd.down[i].DData? && Departs(cfg, w, nd.down[i].rec.key) ==>
            nd.down[i].rec.key in nd.router.shared)
  }

  // Once a key is collected neither its state nor records of it are left downstream.
  ghost predicate Collected(nd: Node) {
    CanCollect(nd) ==>
      && nd.router.current.value.key !in nd.store
      && (forall i :: 0 <= i < |nd.down| && nd.down[i].DData? ==> nd.down[i].rec.key != nd.router.current.value.key)
  }

  ghost predicate BufferOk(nd: Node) {
    nd.router.Collecting? ==>
      && (nd.router.buffered != [] ==> nd.router.current.Some?)
      && (forall i :: 0 <= i < |nd.router.buffered| ==>
            && IsCurrent(nd.router, nd.router.buffered[i].rec.key)
            && nd.router.buffered[i].hops <= 2)
  }

  // ---------------------------------------------------------------- sent packets

  // A record of k sent by w to y, having been sent `hops` times.
  predicate MaySend(cfg: Config, w: Worker, y: Worker, k: Key, hops: nat) {
    && y != w && (y == Old(cfg, k) || y == New(cfg, k))
    && hops <= 3
    && (!Moves(cfg, k) ==> hops <= 1)
    && (Moves(cfg, k) && w != Old(cfg, k) ==> hops <= 2)
    && (w != Old(cfg, k) && w != New(cfg, k) ==> hops <= 1)
  }

  predicate SentOk(cfg: Config, w: Worker, nd: Node, y: Worker, p: Packet) {
    match p
    case Data(rec, version, past, hops) =>
      && MaySend(cfg, w, y, rec.key, hops)
      && version <= cfg.newVersion && (!past ==> version <= cfg.startVersion)
      && (Departs(cfg, w, rec.key) ==> past && GivenUp(nd, rec.key))
    case Acquire(key, _) => Departs(cfg, w, key) && y == New(cfg, key) && GivenUp(nd, key)
    case Upgrade(version) => version == cfg.newVersion && Phase(nd) >= 3
    case AckUpgrade(version) => version == cfg.newVersion
  }

  // `later` may follow `p` on a channel.
  predicate InOrder(p: Packet, later: Packet) {
    match later
    case Data(_, _, _, _) => true
    case Acquire(key, _) =>
      && !(p.Data? && p.rec.key == key) && !(p.Acquire? && p.key == key) && !p.Upgrade?
    case Upgrade(_) => !p.Upgrade?
    case AckUpgrade(_) => !p.AckUpgrade?
  }

  ghost predicate Ordered(q: seq<Packet>) {
    forall i, j :: 0 <= i < j < |q| ==> InOrder(q[i], q[j])
  }

  ghost predicate Sent(cfg: Config, w: Worker, nd: Node) {
    forall y :: 0 <= y < |nd.out| ==>
      && (forall i :: 0 <= i < |nd.out[y]| ==> SentOk(cfg, w, nd, y, nd.out[y][i]))
      && Ordered(nd.out[y])
  }

  ghost predicate LocalInv(cfg: Config, w: Worker, nd: Node) {
    && Shape(cfg, w, nd)
    && Sound(cfg, w, nd)
    && Possession(cfg, w, nd)
    && Reported(cfg, w, nd)
    && Collected(nd)
    && BufferOk(nd)
    && Sent(cfg, w, nd)
  }

  lemma InitLocal(cfg: Config, w: Worker, nd: Node)
    requires ValidConfig(cfg) && w < cfg.n && InitNode(cfg, w, nd)
    ensures LocalInv(cfg, w, nd)
  {
    forall k | k in nd.store ensures MayHold(cfg, w, nd, k) {
      assert Old(cfg, k) == w;
    }
  }

  // ---------------------------------------------------------------- building blocks

  // nd and nd1 agree on everything the invariant of sent packets looks at, except for out[y].
  lemma PushKeeps(cfg: Config, w: Worker, nd: Node, y: Worker, packets: seq<Packet>)
    requires LocalInv(cfg, w, nd) && y < cfg.n && y != w
    requires forall i :: 0 <= i < |packets| ==> SentOk(cfg, w, nd, y, packets[i])
    requires Ordered(packets)
    requires forall i, j :: 0 <= i < |nd.out[y]| && 0 <= j < |packets| ==> InOrder(nd.out[y][i], packets[j])
    ensures LocalInv(cfg, w, Push(nd, y, packets))
  {
    var nd1 := Push(nd, y, packets);
    assert forall p, z :: SentOk(cfg, w, nd1, z, p) == SentOk(cfg, w, nd, z, p);
    assert forall k :: MayHold(cfg, w, nd1, k) == MayHold(cfg, w, nd, k);
    OrderedConcat(nd.out[y], packets);
  }

  lemma OrderedConcat(q: seq<Packet>, r: seq<Packet>)
    requires Ordered(q) && Ordered(r)
    requires forall i, j :: 0 <= i < |q| && 0 <= j < |r| ==> InOrder(q[i], r[j])
    ensures Ordered(q + r)
  {
    forall i, j | 0 <= i < j < |q + r| ensures InOrder((q + r)[i], (q + r)[j]) {
      if i < |q| && j >= |q| {
        assert InOrder(q[i], r[j - |q|]);
      }
    }
  }

  // Messages added to the queue of the operators.
  lemma DeliverKeeps(cfg: Config, w: Worker, nd: Node, d: Down)
    requires LocalInv(cfg, w, nd)
    requires DownOk(cfg, w, nd, d) && forall i :: 0 <= i < |nd.down| ==> Before(cfg, w, nd, nd.down[i], d)
    requires d.DData? && nd.router.Interrogating? && Departs(cfg, w, d.rec.key) ==> d.rec.key in nd.router.shared
    requires d.DData? && CanCollect(nd) ==> d.rec.key != nd.router.current.value.key
    ensures LocalInv(cfg, w, nd.(down := nd.down + [d]))
  {
    var nd1 := nd.(down := nd.down + [d]);
    assert forall p, z :: SentOk(cfg, w, nd1, z, p) == SentOk(cfg, w, nd, z, p);
    assert forall k :: MayHold(cfg, w, nd1, k) == MayHold(cfg, w, nd, k);
    assert forall e :: DownOk(cfg, w, nd1, e) == DownOk(cfg, w, nd, e);
    assert forall e, f :: Before(cfg, w, nd1, e, f) == Before(cfg, w, nd, e, f);
  }

  lemma PopKeeps(cfg: Config, w: Worker, nd: Node, y: Worker)
    requires LocalInv(cfg, w, nd) && y < cfg.n && nd.out[y] != []
    ensures LocalInv(cfg, w, Popped(nd, y))
  {
    var nd1 := Popped(nd, y);
    assert forall p, z :: SentOk(cfg, w, nd1, z, p) == SentOk(cfg, w, nd, z, p);
    assert forall k :: MayHold(cfg, w, nd1, k) == MayHold(cfg, w, nd, k);
    assert forall e :: DownOk(cfg, w, nd1, e) == DownOk(cfg, w, nd, e);
    assert forall e, f :: Before(cfg, w, nd1, e, f) == Before(cfg, w, nd, e, f);
  }

  // ---------------------------------------------------------------- routing

  // What a worker knows about a record it has to route: where it came from and how often it was sent.
  predicate Incoming(cfg: Config, w: Worker, nd: Node, sender: Worker, k: Key, hops: nat) {
    || (sender == w && hops == 0)
    || (MaySend(cfg, sender, w, k, hops) && (Departs(cfg, sender, k) ==> Phase(nd) >= 2))
  }

  // Only workers built with the enlarged set may be sent a version above their own.
  predicate VersionOk(cfg: Config, w: Worker, nd: Node, sender: Worker, version: Option<Version>) {
    version.Some? ==> version.value <= nd.router.version || (w in cfg.late && sender != w)
  }

  // x has told y that it is done, or y has stopped asking.
  predicate SettledBy(cfg: Config, y: Node, x: Worker) {
    || Phase(y) == 4
    || (x in y.remotes && y.remotes[x].lastVersion == Some(cfg.newVersion))
  }

  // Where a record goes, per router. The central case distinction of the protocol.
  lemma RouteSound(cfg: Config, w: Worker, nd: Node, rec: Record, hops: nat, version: Option<Version>, sender: Worker)
    requires ValidConfig(cfg) && Shape(cfg, w, nd) && Sound(cfg, w, nd)
    requires Incoming(cfg, w, nd, sender, rec.key, hops)
    requires VersionOk(cfg, w, nd, sender, version)
    ensures var r := RouteMessage(cfg.part, nd.router, rec, hops, version, w, sender, nd.remotes);
            var nd1 := nd.(router := r.router);
            match r.target
            case None =>
              && nd.router.Collecting? && IsCurrent(nd.router, rec.key) && Departs(cfg, w, rec.key) && hops <= 2
              && r.router == nd.router.(buffered := nd.router.buffered + [Buffered(rec, hops)])
            case Some(t) =>
              && r.router == (if nd.router.Interrogating? && Departs(cfg, w, rec.key)
                              then nd.router.(shared := nd.router.shared + {rec.key}) else nd.router)
              && (t == w ==>
                   && MayHold(cfg, w, nd, rec.key) && !IsCurrent(nd.router, rec.key)
                   && (Arrives(cfg, w, rec.key) && Safe(cfg, rec.key) ==>
                        sender == Old(cfg, rec.key) || SettledBy(cfg, nd, Old(cfg, rec.key))))
              && (t != w ==>
                   && t < cfg.n && t in nd.remotes
                   && MaySend(cfg, w, t, rec.key, hops + 1)
                   && (Departs(cfg, w, rec.key) ==> GivenUp(nd, rec.key) && Phase(nd) >= 2)
                   && (Arrives(cfg, w, rec.key) ==>
                        !SettledBy(cfg, nd, Old(cfg, rec.key)) || Phase(nd) < 3)
                   && (t !in cfg.newWorkers && Phase(nd) >= 3 ==> !SettledBy(cfg, nd, t)))
  {
    var k := rec.key;
    assert Old(cfg, k) in cfg.oldWorkers && New(cfg, k) in cfg.newWorkers;
    assert Old(cfg, k) !in cfg.late;
  }
}
