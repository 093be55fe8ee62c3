/**
  No rescale is ever stuck: whatever has happened in a run, there is a way on from it at whose end every
  worker is Normal on the new set.
*/
module RescaleEnds {
  import opened Basics
  import opened Router
  import opened Cluster
  import opened LocalInvariant
  import opened Handshake
  import opened Completion
  import ClusterInvariant

  function Last(run: seq<Cluster>): Cluster
    requires run != []
  {
    run[|run| - 1]
  }

  // run1 goes on from where run ends.
  ghost predicate GoesOn(cfg: Config, run: seq<Cluster>, run1: seq<Cluster>) {
    IsRun(cfg, run) && IsRun(cfg, run1) && run <= run1
  }

  lemma OneMore(cfg: Config, run: seq<Cluster>, step: Step) returns (run1: seq<Cluster>)
    requires IsRun(cfg, run) && Enabled(cfg, Last(run), step)
    ensures GoesOn(cfg, run, run1) && Last(run1) == Apply(cfg, Last(run), step)
  {
    run1 := run + [Apply(cfg, Last(run), step)];
    forall i | 0 <= i < |run1| - 1 ensures Next(cfg, run1[i], run1[i + 1]) {
      if i < |run| - 1 {
        assert Next(cfg, run[i], run[i + 1]);
      }
    }
  }

  lemma LastGoes(cfg: Config, run: seq<Cluster>)
    requires ValidConfig(cfg) && IsRun(cfg, run)
    ensures Going(cfg, Last(run))
    ensures forall w :: 0 <= w < cfg.n ==> Stage(cfg, w, Last(run).nodes[w])
  {
    RunIsUngated(cfg, run);
    RunGoes(cfg, run, |run| - 1);
    forall w | 0 <= w < cfg.n ensures Stage(cfg, w, Last(run).nodes[w]) {
      assert Calm(cfg, w, Last(run).nodes[w]);
    }
  }

  // ---------------------------------------------------------------- one worker up to its last phase

  function Listed(nd: Node): nat {
    if nd.router.Collecting? then |nd.router.whitelist| else 0
  }

  predicate Closer(nd: Node, nd1: Node) {
    || Phase(nd1) > Phase(nd)
    || (Phase(nd1) == Phase(nd) && Listed(nd1) < Listed(nd))
    || (Phase(nd1) == Phase(nd) && Listed(nd1) == Listed(nd) && |nd1.down| < |nd.down|)
  }

  // Only w moves, and w waits for nobody.
  lemma OwnStep(cfg: Config, s: Cluster, w: Worker) returns (step: Step)
    requires ValidConfig(cfg) && Going(cfg, s) && w < cfg.n && Stage(cfg, w, s.nodes[w]) && Phase(s.nodes[w]) < 3
    ensures Enabled(cfg, s, step)
    ensures var t := Apply(cfg, s, step);
            |t.nodes| == cfg.n && t.nodes == s.nodes[w := t.nodes[w]] && Closer(s.nodes[w], t.nodes[w])
  {
    var nd := s.nodes[w];
    if nd.router.Normal? {
      step := StartRescale(w);
    } else if nd.router.Interrogating? {
      step := if nd.router.copies == 0 then RunLifecycle(w, 0) else RunOperator(w);
    } else if nd.router.current.Some? && nd.router.current.value.copies != 0 {
      step := RunOperator(w);
    } else {
      var pick :| nd.router.whitelist != {} ==> pick in nd.router.whitelist;
      step := RunLifecycle(w, pick);
      CollectingCloser(cfg, nd, pick);
    }
  }

  lemma CollectingCloser(cfg: Config, nd: Node, pick: Key)
    requires nd.router.Collecting? && (nd.router.whitelist != {} ==> pick in nd.router.whitelist)
    requires nd.router.current.Some? ==> CanCollect(nd)
    requires nd.rescaled
    ensures Closer(nd, Lifecycle(cfg.part, nd, pick))
  {
  }

  lemma ToLastPhase(cfg: Config, run: seq<Cluster>, w: Worker) returns (run1: seq<Cluster>)
    requires ValidConfig(cfg) && IsRun(cfg, run) && w < cfg.n && |Last(run).nodes| == cfg.n
    ensures GoesOn(cfg, run, run1) && |Last(run1).nodes| == cfg.n && Phase(Last(run1).nodes[w]) >= 3
    ensures forall x :: 0 <= x < cfg.n && x != w ==> Last(run1).nodes[x] == Last(run).nodes[x]
    decreases 4 - Phase(Last(run).nodes[w]), Listed(Last(run).nodes[w]), |Last(run).nodes[w].down|
  {
    run1 := run;
    if Phase(Last(run).nodes[w]) < 3 {
      LastGoes(cfg, run);
      var step := OwnStep(cfg, Last(run), w);
      var run2 := OneMore(cfg, run, step);
      run1 := ToLastPhase(cfg, run2, w);
    }
  }

  lemma AllToLastPhase(cfg: Config, run: seq<Cluster>, m: nat) returns (run1: seq<Cluster>)
    requires ValidConfig(cfg) && IsRun(cfg, run) && m <= cfg.n
    ensures GoesOn(cfg, run, run1) && |Last(run1).nodes| == cfg.n
    ensures forall w :: 0 <= w < m ==> Phase(Last(run1).nodes[w]) >= 3
  {
    if m == 0 {
      run1 := run;
      LastGoes(cfg, run);
    } else {
      var run2 := AllToLastPhase(cfg, run, m - 1);
      run1 := ToLastPhase(cfg, run2, m - 1);
    }
  }

  // ---------------------------------------------------------------- emptying the channels

  // A record may be sent on until it has travelled three times; an upgrade is answered.
  function Weight(p: Packet): nat {
    match p
    case Data(_, _, _, hops) => if hops < 4 then 4 - hops else 0
    case Acquire(_, _) => 1
    case Upgrade(_) => 2
    case AckUpgrade(_) => 1
  }

  function Queued(q: seq<Packet>): nat {
    if q == [] then 0 else Queued(q[..|q| - 1]) + Weight(q[|q| - 1])
  }

  function Sending(nd: Node): nat {
    Sum(seq(|nd.out|, y requires 0 <= y < |nd.out| => Queued(nd.out[y])))
  }

  function UnderWay(nodes: seq<Node>): nat {
    Sum(seq(|nodes|, x requires 0 <= x < |nodes| => Sending(nodes[x])))
  }

  lemma {:induction false} QueuedHead(q: seq<Packet>)
    requires q != []
    ensures Queued(q) == Weight(q[0]) + Queued(q[1..])
  {
    var last := |q| - 1;
    if last > 0 {
      QueuedHead(q[..last]);
      assert q[..last][1..] == q[1..][..last - 1];
    } else {
      assert q[..0] == [] && q[1..] == [];
    }
  }

  lemma SendingUpdate(nd: Node, y: Worker, q: seq<Packet>)
    requires y < |nd.out|
    ensures Sending(nd.(out := nd.out[y := q])) == Sending(nd) - Queued(nd.out[y]) + Queued(q)
  {
    var xs := seq(|nd.out|, z requires 0 <= z < |nd.out| => Queued(nd.out[z]));
    var nd1 := nd.(out := nd.out[y := q]);
    SumUpdate(xs, y, Queued(q));
    assert seq(|nd1.out|, z requires 0 <= z < |nd1.out| => Queued(nd1.out[z])) == xs[y := Queued(q)];
  }

  lemma UnderWayUpdate(nodes: seq<Node>, x: Worker, nd: Node)
    requires x < |nodes|
    ensures UnderWay(nodes[x := nd]) == UnderWay(nodes) - Sending(nodes[x]) + Sending(nd)
  {
    var xs := seq(|nodes|, z requires 0 <= z < |nodes| => Sending(nodes[z]));
    var nodes1 := nodes[x := nd];
    SumUpdate(xs, x, Sending(nd));
    assert seq(|nodes1|, z requires 0 <= z < |nodes1| => Sending(nodes1[z])) == xs[x := Sending(nd)];
  }

  // Nothing, or one packet that weighs less.
  ghost predicate Lighter(nd: Node, nd1: Node, p: Packet) {
    || nd1.out == nd.out
    || exists t: Worker, p1: Packet ::
         t < |nd.out| && Weight(p1) < Weight(p) && nd1.out == nd.out[t := nd.out[t] + [p1]]
  }

  lemma LighterSends(nd: Node, nd1: Node, p: Packet)
    requires Lighter(nd, nd1, p) && Weight(p) > 0
    ensures Sending(nd1) < Sending(nd) + Weight(p)
  {
    if nd1.out == nd.out {
      assert Sending(nd1) == Sending(nd);
    } else {
      var t: Worker, p1: Packet :|
        t < |nd.out| && Weight(p1) < Weight(p) && nd1.out == nd.out[t := nd.out[t] + [p1]];
      SendingUpdate(nd, t, nd.out[t] + [p1]);
      assert (nd.out[t] + [p1])[..|nd.out[t]|] == nd.out[t];
      assert Sending(nd1) == Sending(nd.(out := nd.out[t := nd.out[t] + [p1]]));
    }
  }

  lemma TakenIsLighter(cfg: Config, w: Worker, nd: Node, p: Packet, x: Worker)
    requires Stage(cfg, w, nd) && Phase(nd) == 3 && x in nd.remotes && x < cfg.n
    requires p.Data? ==> p.hops <= 3
    ensures var nd1 := HandlePacket(cfg.part, nd, p, w, x);
            Lighter(nd, nd1, p) && Phase(nd1) == 3
  {
    var nd1 := HandlePacket(cfg.part, nd, p, w, x);
    match p
    case Data(rec, version, _, hops) =>
      var t := RouteMessage(cfg.part, nd.router, rec, hops, Some(version), w, x, nd.remotes).target.value;
      if nd1.out != nd.out {
        var p1 := Data(rec, nd.router.version, true, hops + 1);
        assert Weight(p1) < Weight(p) && nd1.out == nd.out[t := nd.out[t] + [p1]];
      }
    case Upgrade(version) =>
      assert Weight(AckUpgrade(version)) < Weight(p) && nd1.out == nd.out[x := nd.out[x] + [AckUpgrade(version)]];
    case _ =>
  }

  ghost predicate AllFinished(cfg: Config, s: Cluster) {
    |s.nodes| == cfg.n && forall w :: 0 <= w < cfg.n ==> Phase(s.nodes[w]) >= 3
  }

  lemma Deliver(cfg: Config, run: seq<Cluster>, w: Worker, x: Worker) returns (run1: seq<Cluster>)
    requires ValidConfig(cfg) && IsRun(cfg, run) && AllFinished(cfg, Last(run)) && w < cfg.n && x < cfg.n && x != w
    requires Phase(Last(run).nodes[w]) == 3 && w < |Last(run).nodes[x].out| && Last(run).nodes[x].out[w] != []
    ensures GoesOn(cfg, run, run1) && AllFinished(cfg, Last(run1))
    ensures UnderWay(Last(run1).nodes) < UnderWay(Last(run).nodes)
  {
    var s := Last(run);
    LastGoes(cfg, run);
    HopsBounded(cfg, run, w, x);
    TakenIsLighter(cfg, w, s.nodes[w], s.nodes[x].out[w][0], x);
    Weighs(cfg, s, w, x);
    run1 := OneMore(cfg, run, Receive(w, x));
  }

  lemma HopsBounded(cfg: Config, run: seq<Cluster>, w: Worker, x: Worker)
    requires ValidConfig(cfg) && IsRun(cfg, run) && |Last(run).nodes| == cfg.n && x < cfg.n && w < |Last(run).nodes[x].out|
    requires Last(run).nodes[x].out[w] != []
    ensures Last(run).nodes[x].out[w][0].Data? ==> Last(run).nodes[x].out[w][0].hops <= 3
  {
    ClusterInvariant.RunInv(cfg, run, |run| - 1);
    var nd := Last(run).nodes[x];
    assert LocalInv(cfg, x, nd) && SentOk(cfg, x, nd, w, nd.out[w][0]);
  }

  lemma Weighs(cfg: Config, s: Cluster, w: Worker, x: Worker)
    requires HasPacket(s, w, x) && Weight(s.nodes[x].out[w][0]) > 0
    requires Lighter(s.nodes[w], HandlePacket(cfg.part, s.nodes[w], s.nodes[x].out[w][0], w, x), s.nodes[x].out[w][0])
    ensures UnderWay(Apply(cfg, s, Receive(w, x)).nodes) < UnderWay(s.nodes)
  {
    var q := s.nodes[x].out[w];
    var nd1 := HandlePacket(cfg.part, s.nodes[w], q[0], w, x);
    var popped := s.nodes[x := Popped(s.nodes[x], w)];
    SendingUpdate(s.nodes[x], w, q[1..]);
    QueuedHead(q);
    UnderWayUpdate(s.nodes, x, Popped(s.nodes[x], w));
    LighterSends(s.nodes[w], nd1, q[0]);
    UnderWayUpdate(popped, w, nd1);
  }

  // Whoever is in the last phase has taken everything that was sent to it.
  predicate Emptied(s: Cluster) {
    forall w, x :: 0 <= w < |s.nodes| && 0 <= x < |s.nodes| && x != w && Phase(s.nodes[w]) == 3 && w < |s.nodes[x].out| ==>
      s.nodes[x].out[w] == []
  }

  lemma Empty(cfg: Config, run: seq<Cluster>) returns (run1: seq<Cluster>)
    requires ValidConfig(cfg) && IsRun(cfg, run) && AllFinished(cfg, Last(run))
    ensures GoesOn(cfg, run, run1) && AllFinished(cfg, Last(run1)) && Emptied(Last(run1))
    decreases UnderWay(Last(run).nodes)
  {
    var s := Last(run);
    run1 := run;
    if !Emptied(s) {
      var w: nat, x: nat :| w < |s.nodes| && x < |s.nodes| && x != w && Phase(s.nodes[w]) == 3
                            && w < |s.nodes[x].out| && s.nodes[x].out[w] != [];
      var run2 := Deliver(cfg, run, w, x);
      run1 := Empty(cfg, run2);
    }
  }

  // ---------------------------------------------------------------- the end

  lemma TurnNormal(cfg: Config, run: seq<Cluster>, w: Worker) returns (run1: seq<Cluster>)
    requires ValidConfig(cfg) && IsRun(cfg, run) && AllFinished(cfg, Last(run)) && Emptied(Last(run)) && w < cfg.n
    ensures GoesOn(cfg, run, run1) && AllFinished(cfg, Last(run1)) && Emptied(Last(run1))
    ensures Phase(Last(run1).nodes[w]) == 4
    ensures forall x :: 0 <= x < cfg.n && x != w ==> Last(run1).nodes[x] == Last(run).nodes[x]
  {
    var s := Last(run);
    run1 := run;
    if Phase(s.nodes[w]) == 3 {
      LastGoes(cfg, run);
      RunIsUngated(cfg, run);
      forall x | 0 <= x < cfg.n && x != w ensures w < |s.nodes[x].out| && x < |s.nodes[w].out| && Exchanged(cfg, s, w, x) {
        assert Agree(cfg, w, s.nodes[w], x, s.nodes[x]);
      }
      NormalIff(cfg, run, |run| - 1, w, 0);
      run1 := OneMore(cfg, run, RunLifecycle(w, 0));
    }
  }

  lemma AllNormal(cfg: Config, run: seq<Cluster>, m: nat) returns (run1: seq<Cluster>)
    requires ValidConfig(cfg) && IsRun(cfg, run) && AllFinished(cfg, Last(run)) && Emptied(Last(run)) && m <= cfg.n
    ensures GoesOn(cfg, run, run1) && AllFinished(cfg, Last(run1)) && Emptied(Last(run1))
    ensures forall w :: 0 <= w < m ==> Phase(Last(run1).nodes[w]) == 4
  {
    if m == 0 {
      run1 := run;
    } else {
      var run2 := AllNormal(cfg, run, m - 1);
      run1 := TurnNormal(cfg, run2, m - 1);
    }
  }

  /** From every state of every run the rescale can be completed: what has happened goes on to a state in which
      every worker is Normal on the new set with the new version. */
  lemma NeverStuck(cfg: Config, run: seq<Cluster>) returns (run1: seq<Cluster>)
    requires ValidConfig(cfg) && IsRun(cfg, run)
    ensures IsRun(cfg, run1) && run <= run1
    ensures |Last(run1).nodes| == cfg.n
    ensures forall w :: 0 <= w < cfg.n ==> Last(run1).nodes[w].router == Normal(cfg.newWorkers, cfg.newVersion)
  {
    var run2 := AllToLastPhase(cfg, run, cfg.n);
    var run3 := Empty(cfg, run2);
    run1 := AllNormal(cfg, run3, cfg.n);
    LastGoes(cfg, run1);
  }
}
