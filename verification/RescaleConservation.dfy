/**
  No record is lost or duplicated by a rescale: at every moment the records that entered the cluster
  are exactly those handled by operators, queued for operators, in a channel, or in a router's buffer.
  This needs none of the assumptions about the environment; only a program that has stopped with a panic
  loses records.
*/
module RescaleConservation {
  import opened Basics
  import opened Router
  import opened Cluster
  import opened ClusterInvariant
  import opened RescaleSafety

  // ---------------------------------------------------------------- sums over sequences

  // How often r occurs in all of s, where f counts its occurrences in one element.
  function Sum<T>(s: seq<T>, f: (T, Record) -> nat, r: Record): nat {
    if s == [] then 0 else f(s[0], r) + Sum(s[1..], f, r)
  }

  lemma {:induction false} SumConcat<T>(s: seq<T>, t: seq<T>, f: (T, Record) -> nat, r: Record)
    ensures Sum(s + t, f, r) == Sum(s, f, r) + Sum(t, f, r)
  {
    if s == [] {
      assert s + t == t;
    } else {
      assert (s + t)[1..] == s[1..] + t;
      SumConcat(s[1..], t, f, r);
    }
  }

  lemma SumOne<T>(x: T, f: (T, Record) -> nat, r: Record)
    ensures Sum([x], f, r) == f(x, r)
  {
    assert [x][1..] == [];
  }

  lemma SumUpdate<T>(s: seq<T>, i: nat, x: T, f: (T, Record) -> nat, r: Record)
    requires i < |s|
    ensures Sum(s[i := x], f, r) + f(s[i], r) == Sum(s, f, r) + f(x, r)
  {
    assert s == s[..i] + [s[i]] + s[i + 1..];
    assert s[i := x] == s[..i] + [x] + s[i + 1..];
    SumConcat(s[..i] + [s[i]], s[i + 1..], f, r);
    SumConcat(s[..i], [s[i]], f, r);
    SumConcat(s[..i] + [x], s[i + 1..], f, r);
    SumConcat(s[..i], [x], f, r);
    SumOne(s[i], f, r);
    SumOne(x, f, r);
  }

  lemma {:induction false} SumSame<T>(s: seq<T>, t: seq<T>, f: (T, Record) -> nat, r: Record)
    requires |s| == |t| && forall i :: 0 <= i < |s| ==> f(s[i], r) == f(t[i], r)
    ensures Sum(s, f, r) == Sum(t, f, r)
  {
    if s != [] {
      SumSame(s[1..], t[1..], f, r);
    }
  }

  lemma {:induction false} SumNone<T>(s: seq<T>, f: (T, Record) -> nat, r: Record)
    requires forall i :: 0 <= i < |s| ==> f(s[i], r) == 0
    ensures Sum(s, f, r) == 0
  {
    if s != [] {
      SumNone(s[1..], f, r);
    }
  }

  // ---------------------------------------------------------------- records at one worker

  function PacketRecords(p: Packet, r: Record): nat {
    if p.Data? && p.rec == r then 1 else 0
  }

  function DownRecords(d: Down, r: Record): nat {
    if d.DData? && d.rec == r then 1 else 0
  }

  function BufferRecords(b: Buffered, r: Record): nat {
    if b.rec == r then 1 else 0
  }

  function ChannelRecords(q: seq<Packet>, r: Record): nat {
    Sum(q, PacketRecords, r)
  }

  function Queued(nd: Node, r: Record): nat {
    Sum(nd.down, DownRecords, r)
  }

  function InChannels(nd: Node, r: Record): nat {
    Sum(nd.out, ChannelRecords, r)
  }

  function InBuffer(router: Router, r: Record): nat {
    if router.Collecting? then Sum(router.buffered, BufferRecords, r) else 0
  }

  function At(nd: Node, r: Record): nat {
    Queued(nd, r) + InChannels(nd, r) + InBuffer(nd.router, r)
  }

  // For every record: handled + queued + travelling + buffered occurrences are those that entered.
  ghost predicate Conserved(s: Cluster) {
    forall r :: multiset(s.injected)[r] == multiset(s.log)[r] + Sum(s.nodes, At, r)
  }

  // ---------------------------------------------------------------- effects

  lemma PushRecords(nd: Node, y: Worker, packets: seq<Packet>, r: Record)
    requires y < |nd.out|
    ensures InChannels(Push(nd, y, packets), r) == InChannels(nd, r) + ChannelRecords(packets, r)
  {
    SumUpdate(nd.out, y, nd.out[y] + packets, ChannelRecords, r);
    SumConcat(nd.out[y], packets, PacketRecords, r);
  }

  lemma PopRecords(nd: Node, y: Worker, r: Record)
    requires y < |nd.out| && nd.out[y] != []
    ensures At(nd, r) == At(Popped(nd, y), r) + PacketRecords(nd.out[y][0], r)
  {
    SumUpdate(nd.out, y, nd.out[y][1..], ChannelRecords, r);
  }

  lemma DeliverRecords(nd: Node, d: Down, r: Record)
    ensures Queued(nd.(down := nd.down + [d]), r) == Queued(nd, r) + DownRecords(d, r)
  {
    SumConcat(nd.down, [d], DownRecords, r);
    SumOne(d, DownRecords, r);
  }

  lemma HandleDataRecords(cfg: Config, w: Worker, nd: Node, rec: Record, hops: nat, version: Option<Version>, sender: Worker, r: Record)
    requires !HandleData(cfg.part, nd, rec, hops, version, w, sender).panicked
    ensures At(HandleData(cfg.part, nd, rec, hops, version, w, sender), r) == At(nd, r) + (if rec == r then 1 else 0)
  {
    var route := RouteMessage(cfg.part, nd.router, rec, hops, version, w, sender, nd.remotes);
    var nd1 := nd.(router := route.router);
    match route.target
    case None =>
      SumConcat(nd.router.buffered, [Buffered(rec, hops)], BufferRecords, r);
      SumOne(Buffered(rec, hops), BufferRecords, r);
    case Some(t) =>
      if t == w {
        DeliverRecords(nd1, DData(rec), r);
      } else {
        var p := Data(rec, nd1.router.version, Phase(nd1) >= 2, hops + 1);
        PushRecords(nd1, t, [p], r);
        SumOne(p, PacketRecords, r);
      }
  }

  lemma HandlePacketRecords(cfg: Config, w: Worker, nd: Node, x: Worker, p: Packet, r: Record)
    requires x in nd.remotes && x < |nd.out| && !HandlePacket(cfg.part, nd, p, w, x).panicked
    ensures At(HandlePacket(cfg.part, nd, p, w, x), r) == At(nd, r) + PacketRecords(p, r)
  {
    match p
    case Data(rec, version, _, hops) => HandleDataRecords(cfg, w, nd, rec, hops, Some(version), x, r);
    case Acquire(key, collection) => DeliverRecords(nd, DAcquire(key, collection), r);
    case Upgrade(version) =>
      var nd1 := nd.(remotes := nd.remotes[x := nd.remotes[x].(lastVersion := Some(version))]);
      PushRecords(nd1, x, [AckUpgrade(version)], r);
      SumOne(AckUpgrade(version), PacketRecords, r);
    case AckUpgrade(_) =>
  }

  lemma {:induction false} ReleasedRecords(buffered: seq<Buffered>, version: Version, r: Record)
    ensures Sum(Released(buffered, version), PacketRecords, r) == Sum(buffered, BufferRecords, r)
  {
    if buffered != [] {
      assert Released(buffered, version)[1..] == Released(buffered[1..], version);
      ReleasedRecords(buffered[1..], version, r);
    }
  }

  lemma ShipRecords(cfg: Config, nd: Node, r: Record)
    requires CanCollect(nd) && !Ship(cfg.part, nd).panicked
    ensures At(Ship(cfg.part, nd), r) == At(nd, r)
  {
    var c := nd.router.current.value;
    var nd1 := nd.(router := nd.router.(current := None, buffered := []));
    var released := Released(nd.router.buffered, nd.router.version);
    PushRecords(nd1, cfg.part(c.key, nd.router.newWorkers), [Acquire(c.key, c.collection)] + released, r);
    SumConcat([Acquire(c.key, c.collection)], released, PacketRecords, r);
    SumOne(Acquire(c.key, c.collection), PacketRecords, r);
    ReleasedRecords(nd.router.buffered, nd.router.version, r);
  }

  lemma BroadcastRecords(nd: Node, p: Packet, r: Record)
    requires !p.Data?
    ensures InChannels(Broadcast(nd, p), r) == InChannels(nd, r)
  {
    var nd1 := Broadcast(nd, p);
    forall y | 0 <= y < |nd.out| ensures ChannelRecords(nd1.out[y], r) == ChannelRecords(nd.out[y], r) {
      SumConcat(nd.out[y], [p], PacketRecords, r);
      SumOne(p, PacketRecords, r);
    }
    SumSame(nd1.out, nd.out, ChannelRecords, r);
  }

  // Only records of the key being collected are buffered, so without a collection there are none.
  predicate Tidy(nd: Node) {
    nd.router.Collecting? ==>
      forall j :: 0 <= j < |nd.router.buffered| ==> IsCurrent(nd.router, nd.router.buffered[j].rec.key)
  }

  // Finishing drops the collect router; its buffer is empty by then.
  lemma NextRecords(nd: Node, pick: Key, r: Record)
    requires Tidy(nd) && nd.router.Collecting? && (nd.router.whitelist != {} ==> pick in nd.router.whitelist)
    ensures At(FinishCollect(StartCollect(nd, pick)), r) == At(nd, r)
    ensures Tidy(FinishCollect(StartCollect(nd, pick)))
  {
    var nd1 := StartCollect(nd, pick);
    DeliverRecords(nd, DCollect(pick), r);
    assert nd.router.buffered != [] ==> IsCurrent(nd.router, nd.router.buffered[0].rec.key);
    assert At(nd1, r) == At(nd, r);
    if nd1.router.current.None? && nd1.router.whitelist == {} {
      BroadcastRecords(nd1, Upgrade(nd1.router.version), r);
    }
  }

  lemma LifecycleRecords(cfg: Config, nd: Node, pick: Key, r: Record)
    requires Tidy(nd)
    requires nd.router.Collecting? && nd.router.whitelist != {} ==> pick in nd.router.whitelist
    requires !Lifecycle(cfg.part, nd, pick).panicked
    ensures At(Lifecycle(cfg.part, nd, pick), r) == At(nd, r) && Tidy(Lifecycle(cfg.part, nd, pick))
  {
    match nd.router
    case Normal(_, _) =>
    case Interrogating(_, _, _, _, _, _) =>
    case Collecting(_, _, _, _, _, _) =>
      if CanCollect(nd) {
        ShipRecords(cfg, nd, r);
        NextRecords(Ship(cfg.part, nd), pick, r);
      } else {
        NextRecords(nd, pick, r);
      }
    case Finished(_, _, _) => DeliverRecords(nd, DRescale, r);
  }

  lemma OperateRecords(cfg: Config, nd: Node, r: Record)
    requires nd.down != []
    ensures At(nd, r) == At(Operate(cfg.part, cfg.onData, cfg.default, nd), r) + DownRecords(nd.down[0], r)
  {
    var nd1 := Operate(cfg.part, cfg.onData, cfg.default, nd);
    assert nd1.out == nd.out && nd1.down == nd.down[1..];
    assert InBuffer(nd1.router, r) == InBuffer(nd.router, r);
  }

  // ---------------------------------------------------------------- steps

  function Total(s: Cluster, r: Record): nat {
    Sum(s.nodes, At, r)
  }

  lemma MoveRecords(s: Cluster, w: Worker, nd1: Node, r: Record)
    requires w < |s.nodes|
    ensures Total(s.(nodes := s.nodes[w := nd1]), r) == Total(s, r) + At(nd1, r) - At(s.nodes[w], r)
  {
    SumUpdate(s.nodes, w, nd1, At, r);
  }

  // No worker has hit an `expect`.
  predicate Unbroken(s: Cluster) {
    forall w :: 0 <= w < |s.nodes| ==> !s.nodes[w].panicked
  }

  ghost predicate AllTidy(s: Cluster) {
    forall w :: 0 <= w < |s.nodes| ==> Tidy(s.nodes[w])
  }

  // A panic is final.
  lemma StaysBroken(cfg: Config, s: Cluster, step: Step)
    requires Possible(cfg, s, step) && Unbroken(Apply(cfg, s, step))
    ensures Unbroken(s)
  {
    var t := Apply(cfg, s, step);
    forall w | 0 <= w < |s.nodes| ensures !s.nodes[w].panicked {
      assert !t.nodes[w].panicked;
      NodeStaysBroken(cfg, s, step, w);
    }
  }

  lemma NodeStaysBroken(cfg: Config, s: Cluster, step: Step, w: Worker)
    requires Possible(cfg, s, step) && w < |s.nodes|
    ensures |Apply(cfg, s, step).nodes| == |s.nodes| && (s.nodes[w].panicked ==> Apply(cfg, s, step).nodes[w].panicked)
  {
  }

  lemma ReceiveConserves(cfg: Config, s: Cluster, w: Worker, x: Worker, r: Record)
    requires Possible(cfg, s, Receive(w, x)) && !Apply(cfg, s, Receive(w, x)).nodes[w].panicked
    ensures Total(Apply(cfg, s, Receive(w, x)), r) == Total(s, r)
  {
    var p := s.nodes[x].out[w][0];
    var t := s.(nodes := s.nodes[x := Popped(s.nodes[x], w)]);
    PopRecords(s.nodes[x], w, r);
    MoveRecords(s, x, Popped(s.nodes[x], w), r);
    HandlePacketRecords(cfg, w, s.nodes[w], x, p, r);
    MoveRecords(t, w, HandlePacket(cfg.part, s.nodes[w], p, w, x), r);
  }

  // Only records that enter or are handled change the number of records under way.
  lemma StepTotal(cfg: Config, s: Cluster, step: Step, r: Record)
    requires AllTidy(s) && Possible(cfg, s, step) && Unbroken(Apply(cfg, s, step))
    ensures Total(Apply(cfg, s, step), r) ==
              Total(s, r) + (if step.Inject? && step.rec == r then 1 else 0)
                          - (if step.RunOperator? then DownRecords(s.nodes[step.w].down[0], r) else 0)
  {
    var t := Apply(cfg, s, step);
    assert !t.nodes[step.w].panicked;
    match step
    case Inject(w, rec) =>
      HandleDataRecords(cfg, w, s.nodes[w], rec, 0, None, w, r);
      MoveRecords(s, w, HandleData(cfg.part, s.nodes[w], rec, 0, None, w, w), r);
    case StartRescale(w) =>
      var nd := s.nodes[w];
      DeliverRecords(nd, DInterrogate, r);
      MoveRecords(s, w, HandleRescale(nd, cfg.newWorkers, cfg.newVersion, w), r);
    case RunLifecycle(w, pick) =>
      LifecycleRecords(cfg, s.nodes[w], pick, r);
      MoveRecords(s, w, Lifecycle(cfg.part, s.nodes[w], pick), r);
    case Receive(w, x) => ReceiveConserves(cfg, s, w, x, r);
    case RunOperator(w) =>
      OperateRecords(cfg, s.nodes[w], r);
      MoveRecords(s, w, Operate(cfg.part, cfg.onData, cfg.default, s.nodes[w]), r);
  }

  lemma StepTidy(cfg: Config, s: Cluster, step: Step)
    requires AllTidy(s) && Possible(cfg, s, step) && Unbroken(Apply(cfg, s, step))
    ensures AllTidy(Apply(cfg, s, step))
  {
    var t := Apply(cfg, s, step);
    assert !t.nodes[step.w].panicked;
    forall w | 0 <= w < |t.nodes| ensures Tidy(t.nodes[w]) {
      NodeTidy(cfg, s, step, w);
    }
  }

  lemma NodeTidy(cfg: Config, s: Cluster, step: Step, w: Worker)
    requires w < |s.nodes| && Tidy(s.nodes[w]) && Possible(cfg, s, step) && !Apply(cfg, s, step).nodes[w].panicked
    ensures Tidy(Apply(cfg, s, step).nodes[w])
  {
    if step.RunLifecycle? && step.w == w {
      LifecycleRecords(cfg, s.nodes[w], step.pick, Record(0, 0));
    }
  }

  lemma StepConserves(cfg: Config, s: Cluster, step: Step)
    requires AllTidy(s) && Conserved(s) && Possible(cfg, s, step) && Unbroken(Apply(cfg, s, step))
    ensures Conserved(Apply(cfg, s, step))
  {
    var t := Apply(cfg, s, step);
    forall r ensures multiset(t.injected)[r] == multiset(t.log)[r] + Sum(t.nodes, At, r) {
      StepTotal(cfg, s, step, r);
      assert Total(s, r) == Sum(s.nodes, At, r) && Total(t, r) == Sum(t.nodes, At, r);
    }
  }

  lemma InitConserved(cfg: Config, s: Cluster)
    requires Init(cfg, s)
    ensures Conserved(s) && AllTidy(s)
  {
    forall r ensures Sum(s.nodes, At, r) == 0 {
      forall w | 0 <= w < |s.nodes| ensures At(s.nodes[w], r) == 0 {
        assert InitNode(cfg, w, s.nodes[w]);
        SumNone(s.nodes[w].out, ChannelRecords, r);
      }
      SumNone(s.nodes, At, r);
    }
    forall w | 0 <= w < |s.nodes| ensures Tidy(s.nodes[w]) {
      assert InitNode(cfg, w, s.nodes[w]);
    }
  }

  /** In every run of everything the program allows, for any configuration, and as long as no worker has
      panicked: nothing is lost or duplicated, and buffered records all belong to the key being collected. */
  lemma {:induction false} RescaleConserves(cfg: Config, run: seq<Cluster>, i: nat)
    requires IsUngatedRun(cfg, run) && i < |run| && Unbroken(run[i])
    ensures Conserved(run[i]) && AllTidy(run[i])
  {
    if i == 0 {
      InitConserved(cfg, run[0]);
    } else {
      assert UngatedNext(cfg, run[i - 1], run[i - 1 + 1]);
      var step :| Possible(cfg, run[i - 1], step) && run[i] == Apply(cfg, run[i - 1], step);
      StaysBroken(cfg, run[i - 1], step);
      RescaleConserves(cfg, run, i - 1);
      StepTidy(cfg, run[i - 1], step);
      StepConserves(cfg, run[i - 1], step);
    }
  }

  // Without a collection in progress the buffer is empty, with one it has records of that key only.
  lemma BufferIsForCurrent(cfg: Config, run: seq<Cluster>, i: nat, w: Worker)
    requires IsUngatedRun(cfg, run) && i < |run| && Unbroken(run[i]) && w < |run[i].nodes|
    ensures var r := run[i].nodes[w].router;
            r.Collecting? ==>
              && (r.current.None? ==> r.buffered == [])
              && (forall j :: 0 <= j < |r.buffered| ==> r.current.Some? && r.buffered[j].rec.key == r.current.value.key)
  {
    RescaleConserves(cfg, run, i);
    var r := run[i].nodes[w].router;
    assert Tidy(run[i].nodes[w]);
    assert r.Collecting? && r.buffered != [] ==> IsCurrent(r, r.buffered[0].rec.key);
    assert r.Collecting? ==> forall j :: 0 <= j < |r.buffered| ==> IsCurrent(r, r.buffered[j].rec.key);
  }

  /** When packets are delivered in time no worker panics, so every rescale of every valid configuration,
      scale-ups included, conserves all records in every state. */
  lemma GatedConserves(cfg: Config, run: seq<Cluster>, i: nat)
    requires ValidConfig(cfg) && IsRun(cfg, run) && i < |run|
    ensures Conserved(run[i]) && AllTidy(run[i])
  {
    RunIsUngated(cfg, run);
    RunInv(cfg, run, i);
    forall w | 0 <= w < |run[i].nodes| ensures !run[i].nodes[w].panicked {
      NeverPanics(cfg, run, i, w);
    }
    RescaleConserves(cfg, run, i);
  }
}
