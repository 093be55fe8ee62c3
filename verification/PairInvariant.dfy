/**
  What holds between two workers of a rescaling cluster: x and everything it still has to hand to y.
*/
module PairInvariant {
  import opened Basics
  import opened Router
  import opened Cluster
  import opened LocalInvariant
  import opened LocalSteps

  predicate IsAcquire(p: Packet, k: Key) {
    p.Acquire? && p.key == k
  }

  // x gave k up and y does not have to wait for an Acquire of k any more.
  ghost predicate HandedOver(x: Node, y: Worker, k: Key)
    requires y < |x.out|
  {
    && GivenUp(x, k)
    && forall j :: 0 <= j < |x.out[y]| ==> !IsAcquire(x.out[y][j], k)
  }

  predicate Concerns(d: Down, k: Key) {
    (d.DData? && d.rec.key == k) || (d.DAcquire? && d.key == k)
  }

  predicate Acked(cfg: Config, y: Node, x: Worker) {
    || Phase(y) == 4
    || (x in y.remotes && y.remotes[x].lastAck == Some(cfg.newVersion))
  }

  // k is to be handed over by x to y, which starts on the old set.
  predicate PassesTo(cfg: Config, x: Worker, y: Worker, k: Key) {
    Departs(cfg, x, k) && New(cfg, k) == y && Safe(cfg, k)
  }

  // Whatever y holds of a key that x passes to it has been handed over.
  ghost predicate Handover(cfg: Config, x: Worker, ndx: Node, y: Worker, ndy: Node)
    requires y < |ndx.out|
  {
    && (forall k :: k in ndy.store && PassesTo(cfg, x, y, k) ==> HandedOver(ndx, y, k))
    && (forall i, k :: 0 <= i < |ndy.down| && Concerns(ndy.down[i], k) && PassesTo(cfg, x, y, k) ==>
          HandedOver(ndx, y, k))
  }

  // The upgrade and acknowledgement handshake.
  ghost predicate HandshakeOk(cfg: Config, x: Worker, ndx: Node, y: Worker, ndy: Node)
    requires y < |ndx.out|
  {
    && (SettledBy(cfg, ndy, x) ==> Phase(ndx) >= 3)
    && (Acked(cfg, ndy, x) ==> SettledBy(cfg, ndx, y))
    && (forall j :: 0 <= j < |ndx.out[y]| ==>
         && (SettledBy(cfg, ndy, x) ==> !ndx.out[y][j].Acquire? && !ndx.out[y][j].Upgrade?)
         && (Acked(cfg, ndy, x) ==> !ndx.out[y][j].AckUpgrade?)
         && (ndx.out[y][j].AckUpgrade? ==> SettledBy(cfg, ndx, y)))
  }

  // No data follows both the upgrade and the acknowledgement on a channel to a leaving worker.
  ghost predicate Quiet(cfg: Config, x: Worker, ndx: Node, y: Worker, ndy: Node)
    requires y < |ndx.out|
  {
    var q := ndx.out[y];
    y !in cfg.newWorkers ==>
      && (SettledBy(cfg, ndy, x) && Acked(cfg, ndy, x) ==> forall i :: 0 <= i < |q| ==> !q[i].Data?)
      && (SettledBy(cfg, ndy, x) ==> forall l, i :: 0 <= l < i < |q| && q[l].AckUpgrade? ==> !q[i].Data?)
      && (Acked(cfg, ndy, x) ==> forall j, i :: 0 <= j < i < |q| && q[j].Upgrade? ==> !q[i].Data?)
      && (forall j, l, i :: 0 <= j < i < |q| && 0 <= l < i && q[j].Upgrade? && q[l].AckUpgrade? ==> !q[i].Data?)
  }

  ghost predicate PairInv(cfg: Config, x: Worker, ndx: Node, y: Worker, ndy: Node)
    requires y < |ndx.out|
  {
    && Handover(cfg, x, ndx, y, ndy)
    && HandshakeOk(cfg, x, ndx, y, ndy)
    && Quiet(cfg, x, ndx, y, ndy)
  }

  // ---------------------------------------------------------------- the sender moves

  // Once reached, these never become false again.
  ghost predicate Progresses(cfg: Config, nd: Node, nd1: Node) {
    && Phase(nd) <= Phase(nd1)
    && (forall k :: GivenUp(nd, k) ==> GivenUp(nd1, k))
    && (forall z :: SettledBy(cfg, nd, z) ==> SettledBy(cfg, nd1, z))
    && (forall z :: Acked(cfg, nd, z) ==> Acked(cfg, nd1, z))
  }

  // x may append p to its channel to y.
  ghost predicate MayAppend(cfg: Config, ndx: Node, ndx1: Node, y: Worker, p: Packet) {
    match p
    case Data(_, _, _, _) => y in cfg.newWorkers || Phase(ndx) < 3 || !SettledBy(cfg, ndx, y)
    case Acquire(key, _) => Phase(ndx) < 3 && !GivenUp(ndx, key)
    case Upgrade(_) => Phase(ndx) < 3
    case AckUpgrade(_) => SettledBy(cfg, ndx1, y) && !SettledBy(cfg, ndx, y)
  }

  lemma SenderKeeps(cfg: Config, x: Worker, ndx: Node, ndx1: Node, packets: seq<Packet>, y: Worker, ndy: Node)
    requires LocalInv(cfg, x, ndx) && y < cfg.n && |ndx1.out| == cfg.n
    requires PairInv(cfg, x, ndx, y, ndy)
    requires Progresses(cfg, ndx, ndx1)
    requires ndx1.out[y] == ndx.out[y] + packets
    requires forall i :: 0 <= i < |packets| ==> MayAppend(cfg, ndx, ndx1, y, packets[i])
    requires y !in cfg.newWorkers ==> |packets| <= 1
    ensures PairInv(cfg, x, ndx1, y, ndy)
  {
    var q, q1 := ndx.out[y], ndx1.out[y];
    assert forall i :: 0 <= i < |q| ==> SentOk(cfg, x, ndx, y, q[i]);
    assert forall j :: 0 <= j < |q1| ==> q1[j] == if j < |q| then q[j] else packets[j - |q|];
    forall k | HandedOver(ndx, y, k) ensures HandedOver(ndx1, y, k) {
    }
  }

  // ---------------------------------------------------------------- the receiver moves

  lemma ReceiverKeeps(cfg: Config, x: Worker, ndx: Node, y: Worker, ndy: Node, ndy1: Node)
    requires y < |ndx.out| && PairInv(cfg, x, ndx, y, ndy)
    requires SettledBy(cfg, ndy1, x) ==> SettledBy(cfg, ndy, x)
    requires Acked(cfg, ndy1, x) ==> Acked(cfg, ndy, x)
    requires forall k :: k in ndy1.store && PassesTo(cfg, x, y, k) ==> HandedOver(ndx, y, k)
    requires forall i, k :: 0 <= i < |ndy1.down| && Concerns(ndy1.down[i], k) && PassesTo(cfg, x, y, k) ==>
               HandedOver(ndx, y, k)
    ensures PairInv(cfg, x, ndx, y, ndy1)
  {
  }

  // The oldest packet is taken off the channel.
  lemma PopPairKeeps(cfg: Config, x: Worker, ndx: Node, y: Worker, ndy: Node)
    requires LocalInv(cfg, x, ndx) && y < cfg.n && ndx.out[y] != []
    requires PairInv(cfg, x, ndx, y, ndy)
    ensures PairInv(cfg, x, Popped(ndx, y), y, ndy)
    ensures forall k :: HandedOver(ndx, y, k) ==> HandedOver(Popped(ndx, y), y, k)
    ensures forall k :: ndx.out[y][0].Acquire? && ndx.out[y][0].key == k ==> HandedOver(Popped(ndx, y), y, k)
    ensures forall k :: ndx.out[y][0].Data? && ndx.out[y][0].rec.key == k && GivenUp(ndx, k) ==>
              HandedOver(Popped(ndx, y), y, k)
  {
    var q, q1 := ndx.out[y], Popped(ndx, y).out[y];
    assert forall i :: 0 <= i < |q1| ==> q1[i] == q[i + 1];
    assert forall i :: 0 <= i < |q1| ==> InOrder(q[0], q1[i]);
    assert SentOk(cfg, x, ndx, y, q[0]);
    assert Progresses(cfg, ndx, Popped(ndx, y));
    QuietPopped(cfg, x, ndx, y, ndy);
  }

  lemma QuietPopped(cfg: Config, x: Worker, ndx: Node, y: Worker, ndy: Node)
    requires y < |ndx.out| && ndx.out[y] != [] && Quiet(cfg, x, ndx, y, ndy)
    ensures Quiet(cfg, x, Popped(ndx, y), y, ndy)
  {
    var q, q1 := ndx.out[y], Popped(ndx, y).out[y];
    assert forall i :: 0 <= i < |q1| ==> q1[i] == q[i + 1];
    if y !in cfg.newWorkers {
      forall j, l, i | 0 <= j < i < |q1| && 0 <= l < i && q1[j].Upgrade? && q1[l].AckUpgrade? ensures !q1[i].Data? {
        assert q[j + 1].Upgrade? && q[l + 1].AckUpgrade?;
      }
      forall l, i | SettledBy(cfg, ndy, x) && 0 <= l < i < |q1| && q1[l].AckUpgrade? ensures !q1[i].Data? {
        assert q[l + 1].AckUpgrade?;
      }
      forall j, i | Acked(cfg, ndy, x) && 0 <= j < i < |q1| && q1[j].Upgrade? ensures !q1[i].Data? {
        assert q[j + 1].Upgrade?;
      }
    }
  }

  // y takes note of x's upgrade.
  lemma UpgradePairKeeps(cfg: Config, x: Worker, ndx: Node, y: Worker, ndy: Node, ndy1: Node)
    requires LocalInv(cfg, x, ndx) && y < cfg.n && ndx.out[y] != [] && ndx.out[y][0].Upgrade?
    requires PairInv(cfg, x, ndx, y, ndy)
    requires ndy1.store == ndy.store && ndy1.down == ndy.down
    requires Acked(cfg, ndy1, x) == Acked(cfg, ndy, x)
    ensures PairInv(cfg, x, Popped(ndx, y), y, ndy1)
  {
    var q, q1 := ndx.out[y], Popped(ndx, y).out[y];
    PopPairKeeps(cfg, x, ndx, y, ndy);
    assert SentOk(cfg, x, ndx, y, q[0]);
    assert forall i :: 0 <= i < |q1| ==> q1[i] == q[i + 1] && InOrder(q[0], q1[i]);
    if y !in cfg.newWorkers {
      forall l, i | 0 <= l < i < |q1| && q1[l].AckUpgrade? ensures !q1[i].Data? {
        assert q[0].Upgrade? && q[l + 1].AckUpgrade?;
      }
    }
  }

  // y takes note of x's acknowledgement.
  lemma AckPairKeeps(cfg: Config, x: Worker, ndx: Node, y: Worker, ndy: Node, ndy1: Node)
    requires LocalInv(cfg, x, ndx) && y < cfg.n && ndx.out[y] != [] && ndx.out[y][0].AckUpgrade?
    requires PairInv(cfg, x, ndx, y, ndy)
    requires ndy1.store == ndy.store && ndy1.down == ndy.down
    requires SettledBy(cfg, ndy1, x) == SettledBy(cfg, ndy, x)
    ensures PairInv(cfg, x, Popped(ndx, y), y, ndy1)
  {
    var q, q1 := ndx.out[y], Popped(ndx, y).out[y];
    PopPairKeeps(cfg, x, ndx, y, ndy);
    assert forall i :: 0 <= i < |q1| ==> q1[i] == q[i + 1] && InOrder(q[0], q1[i]);
    assert forall z :: SettledBy(cfg, Popped(ndx, y), z) == SettledBy(cfg, ndx, z);
    if y !in cfg.newWorkers {
      forall j, i | 0 <= j < i < |q1| && q1[j].Upgrade? ensures !q1[i].Data? {
        assert q[0].AckUpgrade? && q[j + 1].Upgrade?;
      }
    }
  }
}
