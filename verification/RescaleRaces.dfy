/**
  What goes wrong in a rescale when packets are delivered to workers that are not ready for them.
*/
module RescaleRaces {
  import opened Basics
  import opened Router
  import opened Cluster
  import opened LocalInvariant
  import opened PairInvariant
  import opened RescaleSafety

  // A worker without keys rushes ahead into the collect phase.
  lemma RushAhead(cfg: Config, c: Worker) returns (run: seq<Cluster>)
    requires ValidConfig(cfg) && c < cfg.n
    ensures IsUngatedRun(cfg, run) && |run| == 4
    ensures |run[3].nodes| == cfg.n
    ensures forall w :: 0 <= w < cfg.n && w != c ==> run[3].nodes[w] == EmptyNode(cfg, w)
    ensures var nd := run[3].nodes[c];
            && nd.router == Collecting(cfg.newVersion, {}, StartSet(cfg, c), cfg.newWorkers, [], None)
            && nd.remotes == Others(cfg.n, c) && nd.out == EmptyNode(cfg, c).out && nd.rescaled
  {
    EmptyIsInit(cfg);
    var s0 := EmptyCluster(cfg);
    var s1 := Apply(cfg, s0, StartRescale(c));
    assert s1.nodes[c].remotes == Others(cfg.n, c);
    var s2 := Apply(cfg, s1, RunOperator(c));
    assert s2.nodes[c].router.shared == {};
    var s3 := Apply(cfg, s2, RunLifecycle(c, 0));
    run := [s0, s1, s2, s3];
    assert UngatedNext(cfg, s0, s1) by { assert Possible(cfg, s0, StartRescale(c)); }
    assert UngatedNext(cfg, s1, s2) by { assert Possible(cfg, s1, RunOperator(c)); }
    assert UngatedNext(cfg, s2, s3) by { assert Possible(cfg, s2, RunLifecycle(c, 0)); }
  }

  /** Without the gate the protocol is unsafe as soon as the new version is larger: some third worker c
      that is already collecting routes a record of k to the new owner, which is still Normal and
      keeps the record because of its newer version, while the old owner handles k as well. */
  lemma UngatedTwoOwners(cfg: Config, k: Key, c: Worker) returns (run: seq<Cluster>)
    requires ValidConfig(cfg) && Moves(cfg, k) && cfg.startVersion < cfg.newVersion
    requires c < cfg.n && c != Old(cfg, k) && c != New(cfg, k)
    ensures IsUngatedRun(cfg, run) && run != []
    ensures !SingleOwner(cfg, run[|run| - 1], k)
  {
    var ahead := RushAhead(cfg, c);
    var s4, s5, s6 := ThirdParty(cfg, ahead[3], k, c);
    run := ahead + [s4, s5, s6];
    forall i | 0 <= i < |run| - 1 ensures UngatedNext(cfg, run[i], run[i + 1]) {
      if i < 3 {
        assert UngatedNext(cfg, ahead[i], ahead[i + 1]);
      }
    }
    assert Holds(s6.nodes[Old(cfg, k)], k) && Holds(s6.nodes[New(cfg, k)], k);
  }

  // c sends a record of k to the new owner, and another one enters at the old owner.
  lemma ThirdParty(cfg: Config, s: Cluster, k: Key, c: Worker) returns (s1: Cluster, s2: Cluster, s3: Cluster)
    requires ValidConfig(cfg) && Moves(cfg, k) && cfg.startVersion < cfg.newVersion
    requires c < cfg.n == |s.nodes| && c != Old(cfg, k) && c != New(cfg, k)
    requires forall w :: 0 <= w < cfg.n && w != c ==> s.nodes[w] == EmptyNode(cfg, w)
    requires var nd := s.nodes[c];
             && nd.router == Collecting(cfg.newVersion, {}, StartSet(cfg, c), cfg.newWorkers, [], None)
             && nd.remotes == Others(cfg.n, c) && nd.out == EmptyNode(cfg, c).out && nd.rescaled
    ensures UngatedNext(cfg, s, s1) && UngatedNext(cfg, s1, s2) && UngatedNext(cfg, s2, s3)
    ensures Old(cfg, k) < cfg.n && New(cfg, k) < cfg.n && |s3.nodes| == cfg.n
    ensures Holds(s3.nodes[Old(cfg, k)], k) && Holds(s3.nodes[New(cfg, k)], k)
  {
    OwnersExist(cfg, k);
    var a, b := Old(cfg, k), New(cfg, k);
    var rec := Record(k, 0);
    assert StartSet(cfg, a) == cfg.oldWorkers by { assert a in cfg.oldWorkers; }
    assert Possible(cfg, s, Inject(c, rec));
    s1 := Apply(cfg, s, Inject(c, rec));
    assert s1.nodes[c].out[b] == [Data(rec, cfg.newVersion, true, 1)];
    assert Possible(cfg, s1, Receive(b, c));
    s2 := Apply(cfg, s1, Receive(b, c));
    assert s2.nodes[b].down == [DData(rec)] && s2.nodes[a] == EmptyNode(cfg, a);
    assert Possible(cfg, s2, Inject(a, rec));
    s3 := Apply(cfg, s2, Inject(a, rec));
    assert s3.nodes[a].down == [DData(rec)] && s3.nodes[b].down == [DData(rec)];
    assert Concerns(s3.nodes[a].down[0], k) && Concerns(s3.nodes[b].down[0], k);
  }

  // A worker that still is Normal on the old set and has nothing but the state of one key.
  function Keeper(cfg: Config, w: Worker, out: seq<seq<Packet>>, k: Key, v: KeyState): Node {
    Node(Normal(cfg.oldWorkers, cfg.startVersion), Others(cfg.n, w), out, [], map[k := v], false, false)
  }

  // After it has been told to rescale, interrogated its operators, and later collected the key.
  function Shared(cfg: Config, nd: Node, k: Key): Node {
    nd.(router := Interrogating(cfg.startVersion, cfg.oldWorkers, cfg.newWorkers, {k}, 0, cfg.newVersion), rescaled := true)
  }

  function Gathered(cfg: Config, nd: Node, k: Key, v: KeyState): Node {
    nd.(router := Collecting(cfg.newVersion, {}, cfg.oldWorkers, cfg.newWorkers, [], Some(InCollection(k, Some(v), 0))),
        store := map[], rescaled := true)
  }

  lemma KeeperInterrogates(cfg: Config, w: Worker, out: seq<seq<Packet>>, k: Key, v: KeyState)
    requires ValidConfig(cfg) && w < cfg.n && Moves(cfg, k)
    ensures var nd := Keeper(cfg, w, out, k, v);
            var nd1 := HandleRescale(nd, cfg.newWorkers, cfg.newVersion, w);
            nd1.down == [DInterrogate] && Operate(cfg.part, cfg.onData, cfg.default, nd1) == Shared(cfg, nd, k)
  {
    var nd := Keeper(cfg, w, out, k, v);
    var nd1 := HandleRescale(nd, cfg.newWorkers, cfg.newVersion, w);
    assert nd1.remotes == nd.remotes && nd1.down == [DInterrogate] && nd1.down[1..] == [];
    var nd2 := Operate(cfg.part, cfg.onData, cfg.default, nd1);
    assert forall x :: x in nd2.router.shared <==> x == k;
    assert nd2.router.shared == {k};
  }

  lemma KeeperCollects(cfg: Config, w: Worker, out: seq<seq<Packet>>, k: Key, v: KeyState)
    ensures var nd := Keeper(cfg, w, out, k, v);
            var nd1 := Lifecycle(cfg.part, Shared(cfg, nd, k), k);
            && nd1.router == Collecting(cfg.newVersion, {k}, cfg.oldWorkers, cfg.newWorkers, [], None)
            && var nd2 := Lifecycle(cfg.part, nd1, k);
            nd2.down == [DCollect(k)] && Operate(cfg.part, cfg.onData, cfg.default, nd2) == Gathered(cfg, nd, k, v)
  {
    var nd := Keeper(cfg, w, out, k, v);
    var nd1 := Lifecycle(cfg.part, Shared(cfg, nd, k), k);
    var nd2 := StartCollect(nd1, k);
    assert nd2.router.whitelist == {} && FinishCollect(nd2) == nd2;
    assert map[k := v] - {k} == map[];
  }

  // The six steps in a cluster; the other workers stay as they are.
  lemma KeeperGivesUp(cfg: Config, s: Cluster, w: Worker, k: Key, v: KeyState) returns (run: seq<Cluster>)
    requires ValidConfig(cfg) && w < cfg.n == |s.nodes| && Moves(cfg, k)
    requires s.nodes[w] == Keeper(cfg, w, s.nodes[w].out, k, v)
    ensures |run| > 1 && run[0] == s && Linked(cfg, run)
    ensures run[|run| - 1].nodes == s.nodes[w := Lifecycle(cfg.part, Gathered(cfg, s.nodes[w], k, v), k)]
  {
    var nd := s.nodes[w];
    var last := Lifecycle(cfg.part, Gathered(cfg, nd, k, v), k);
    var p := KeeperTold(cfg, s, w, k, v);
    var q := KeeperGathers(cfg, p[|p| - 1], w, nd, k, v);
    var r := KeeperHandsOver(cfg, q[|q| - 1], w, nd, k, v, last);
    LinkedJoin(cfg, p, q);
    LinkedJoin(cfg, p + q[1..], r);
    run := p + q[1..] + r[1..];
    assert run[|run| - 1] == r[|r| - 1];
    assert r[|r| - 1].nodes == s.nodes[w := last];
  }

  lemma KeeperTold(cfg: Config, s: Cluster, w: Worker, k: Key, v: KeyState) returns (run: seq<Cluster>)
    requires ValidConfig(cfg) && w < cfg.n == |s.nodes| && Moves(cfg, k)
    requires s.nodes[w] == Keeper(cfg, w, s.nodes[w].out, k, v)
    ensures |run| > 1 && run[0] == s && Linked(cfg, run)
    ensures run[|run| - 1].nodes == s.nodes[w := Shared(cfg, s.nodes[w], k)]
  {
    KeeperInterrogates(cfg, w, s.nodes[w].out, k, v);
    var s1 := Move(cfg, s, StartRescale(w), HandleRescale(s.nodes[w], cfg.newWorkers, cfg.newVersion, w));
    var s2 := Move(cfg, s1, RunOperator(w), Shared(cfg, s.nodes[w], k));
    run := [s, s1, s2];
  }

  lemma KeeperGathers(cfg: Config, s: Cluster, w: Worker, nd: Node, k: Key, v: KeyState) returns (run: seq<Cluster>)
    requires w < |s.nodes| && nd == Keeper(cfg, w, nd.out, k, v) && s.nodes[w] == Shared(cfg, nd, k)
    ensures |run| > 1 && run[0] == s && Linked(cfg, run)
    ensures run[|run| - 1].nodes == s.nodes[w := Gathered(cfg, nd, k, v)]
  {
    KeeperCollects(cfg, w, nd.out, k, v);
    var nd1 := Lifecycle(cfg.part, Shared(cfg, nd, k), k);
    var s1 := Move(cfg, s, RunLifecycle(w, k), nd1);
    var s2 := Move(cfg, s1, RunLifecycle(w, k), Lifecycle(cfg.part, nd1, k));
    var s3 := Move(cfg, s2, RunOperator(w), Gathered(cfg, nd, k, v));
    run := [s, s1, s2, s3];
  }

  lemma KeeperHandsOver(cfg: Config, s: Cluster, w: Worker, nd: Node, k: Key, v: KeyState, last: Node) returns (run: seq<Cluster>)
    requires w < |s.nodes| && s.nodes[w] == Gathered(cfg, nd, k, v)
    requires last == Lifecycle(cfg.part, Gathered(cfg, nd, k, v), k)
    ensures |run| > 1 && run[0] == s && Linked(cfg, run)
    ensures run[|run| - 1].nodes == s.nodes[w := last]
  {
    var t := Move(cfg, s, RunLifecycle(w, k), last);
    run := [s, t];
  }

  // What a worker becomes by a step of its own.
  function After(cfg: Config, nd: Node, step: Step): Node
    requires step.RunOperator? ==> nd.down != []
    requires step.RunLifecycle? && nd.router.Collecting? && nd.router.whitelist != {} ==> step.pick in nd.router.whitelist
  {
    match step
    case StartRescale(w) => HandleRescale(nd, cfg.newWorkers, cfg.newVersion, w)
    case RunOperator(_) => Operate(cfg.part, cfg.onData, cfg.default, nd)
    case RunLifecycle(_, pick) => Lifecycle(cfg.part, nd, pick)
    case _ => nd
  }

  lemma Move(cfg: Config, s: Cluster, step: Step, nd: Node) returns (t: Cluster)
    requires (step.StartRescale? || step.RunOperator? || step.RunLifecycle?) && Possible(cfg, s, step)
    requires nd == After(cfg, s.nodes[step.w], step)
    ensures UngatedNext(cfg, s, t) && t.nodes == s.nodes[step.w := nd]
  {
    t := Apply(cfg, s, step);
  }

  ghost predicate Linked(cfg: Config, run: seq<Cluster>) {
    forall i :: 0 <= i < |run| - 1 ==> UngatedNext(cfg, run[i], run[i + 1])
  }

  lemma LinkedConcat(cfg: Config, p: seq<Cluster>, q: seq<Cluster>)
    requires p != [] && q != [] && Linked(cfg, p) && Linked(cfg, q) && UngatedNext(cfg, p[|p| - 1], q[0])
    ensures Linked(cfg, p + q)
  {
    var run := p + q;
    forall i | 0 <= i < |run| - 1 ensures UngatedNext(cfg, run[i], run[i + 1]) {
      if i < |p| - 1 {
        assert UngatedNext(cfg, p[i], p[i + 1]);
      } else if i >= |p| {
        assert UngatedNext(cfg, q[i - |p|], q[i - |p| + 1]);
      }
    }
  }

  lemma LinkedJoin(cfg: Config, p: seq<Cluster>, q: seq<Cluster>)
    requires p != [] && |q| > 1 && Linked(cfg, p) && Linked(cfg, q) && p[|p| - 1] == q[0]
    ensures Linked(cfg, p + q[1..])
  {
    assert UngatedNext(cfg, q[0], q[0 + 1]);
    forall i | 0 <= i < |q[1..]| - 1 ensures UngatedNext(cfg, q[1..][i], q[1..][i + 1]) {
      assert UngatedNext(cfg, q[i + 1], q[i + 1 + 1]);
    }
    LinkedConcat(cfg, p, q[1..]);
  }

  // The new owner installs the state although nobody has told it of the rescale.
  lemma EarlyAcquire(cfg: Config, k: Key) returns (run: seq<Cluster>)
    requires ValidConfig(cfg) && Moves(cfg, k) && New(cfg, k) !in cfg.late
    ensures run != [] && Init(cfg, run[0]) && Linked(cfg, run)
    ensures var b := New(cfg, k);
            var s := run[|run| - 1];
            b < cfg.n == |s.nodes| && s.nodes[b] == Keeper(cfg, b, s.nodes[b].out, k, 0)
  {
    OwnersExist(cfg, k);
    var first := EarlyHandover(cfg, k);
    var t1, t2 := Arrival(cfg, first[|first| - 1], Old(cfg, k), k);
    LinkedConcat(cfg, first, [t1]);
    LinkedConcat(cfg, first + [t1], [t2]);
    run := first + [t1] + [t2];
  }

  lemma EarlyHandover(cfg: Config, k: Key) returns (run: seq<Cluster>)
    requires ValidConfig(cfg) && Moves(cfg, k) && Old(cfg, k) < cfg.n && New(cfg, k) < cfg.n
    ensures run != [] && Init(cfg, run[0]) && Linked(cfg, run) && |run[|run| - 1].nodes| == cfg.n
    ensures var a, b := Old(cfg, k), New(cfg, k);
            var t := run[|run| - 1];
            && t.nodes[b] == EmptyNode(cfg, b)
            && b < |t.nodes[a].out| && t.nodes[a].out[b] != [] && t.nodes[a].out[b][0] == Acquire(k, Some(0))
  {
    var a := Old(cfg, k);
    assert a !in cfg.late by { assert a in cfg.oldWorkers; }
    var empty := EmptyCluster(cfg);
    var s := empty.(nodes := empty.nodes[a := Keeper(cfg, a, EmptyNode(cfg, a).out, k, 0)]);
    KeeperInit(cfg, k);
    run := KeeperGivesUp(cfg, s, a, k, 0);
    KeeperSends(cfg, EmptyNode(cfg, a).out, k, 0);
  }

  lemma Arrival(cfg: Config, s: Cluster, a: Worker, k: Key) returns (t1: Cluster, t2: Cluster)
    requires ValidConfig(cfg) && Moves(cfg, k) && New(cfg, k) !in cfg.late && a == Old(cfg, k)
    requires a < cfg.n == |s.nodes| && New(cfg, k) < cfg.n && New(cfg, k) < |s.nodes[a].out|
    requires s.nodes[a].out[New(cfg, k)] != [] && s.nodes[a].out[New(cfg, k)][0] == Acquire(k, Some(0))
    requires s.nodes[New(cfg, k)] == EmptyNode(cfg, New(cfg, k))
    ensures UngatedNext(cfg, s, t1) && UngatedNext(cfg, t1, t2)
    ensures var b := New(cfg, k); |t2.nodes| == cfg.n && t2.nodes[b] == Keeper(cfg, b, t2.nodes[b].out, k, 0)
  {
    var b := New(cfg, k);
    assert Possible(cfg, s, Receive(b, a));
    t1 := Apply(cfg, s, Receive(b, a));
    assert t1.nodes[b] == EmptyNode(cfg, b).(down := [DAcquire(k, Some(0))]);
    t2 := Move(cfg, t1, RunOperator(b), Operate(cfg.part, cfg.onData, cfg.default, t1.nodes[b]));
    assert t1.nodes[b].down[1..] == [] && map[][k := 0] == map[k := 0];
  }

  /** With any versions, equal ones included: state handed over before its receiver interrogates is put on the
      receiver's own whitelist, and the receiver stops with a panic when it tries to send it to itself. */
  lemma EarlyAcquirePanics(cfg: Config, k: Key) returns (run: seq<Cluster>)
    requires ValidConfig(cfg) && Moves(cfg, k) && New(cfg, k) !in cfg.late
    ensures IsUngatedRun(cfg, run) && run != []
    ensures New(cfg, k) < |run[|run| - 1].nodes| && run[|run| - 1].nodes[New(cfg, k)].panicked
  {
    var b := New(cfg, k);
    var first := EarlyAcquire(cfg, k);
    var s := first[|first| - 1];
    var last := KeeperGivesUp(cfg, s, b, k, 0);
    KeeperPanics(cfg, s.nodes[b].out, k, 0);
    LinkedJoin(cfg, first, last);
    run := first + last[1..];
  }

  lemma KeeperInit(cfg: Config, k: Key)
    requires ValidConfig(cfg) && Old(cfg, k) < cfg.n && Old(cfg, k) !in cfg.late
    ensures var a := Old(cfg, k);
            var empty := EmptyCluster(cfg);
            Init(cfg, empty.(nodes := empty.nodes[a := Keeper(cfg, a, EmptyNode(cfg, a).out, k, 0)]))
  {
    EmptyIsInit(cfg);
    var a := Old(cfg, k);
    var nd := Keeper(cfg, a, EmptyNode(cfg, a).out, k, 0);
    forall w | 0 <= w < cfg.n ensures InitNode(cfg, w, if w == a then nd else EmptyNode(cfg, w)) {
      assert InitNode(cfg, w, EmptyCluster(cfg).nodes[w]);
    }
  }

  // The old owner's last turn.
  lemma KeeperSends(cfg: Config, out: seq<seq<Packet>>, k: Key, v: KeyState)
    requires ValidConfig(cfg) && |out| == cfg.n && Moves(cfg, k) && New(cfg, k) < cfg.n
    ensures var a, b := Old(cfg, k), New(cfg, k);
            var nd1 := Lifecycle(cfg.part, Gathered(cfg, Keeper(cfg, a, out, k, v), k, v), k);
            nd1.out == Broadcast(Push(Keeper(cfg, a, out, k, v), b, [Acquire(k, Some(v))]), Upgrade(cfg.newVersion)).out
  {
    var a, b := Old(cfg, k), New(cfg, k);
    var nd := Gathered(cfg, Keeper(cfg, a, out, k, v), k, v);
    assert [Acquire(k, Some(v))] + Released([], cfg.newVersion) == [Acquire(k, Some(v))];
    var nd1 := Ship(cfg.part, nd);
    assert nd1.out == Push(Keeper(cfg, a, out, k, v), b, [Acquire(k, Some(v))]).out;
    assert StartCollect(nd1, k) == nd1;
  }

  // The new owner's last turn.
  lemma KeeperPanics(cfg: Config, out: seq<seq<Packet>>, k: Key, v: KeyState)
    ensures var b := New(cfg, k);
            Lifecycle(cfg.part, Gathered(cfg, Keeper(cfg, b, out, k, v), k, v), k).panicked
  {
    var b := New(cfg, k);
    var nd := Gathered(cfg, Keeper(cfg, b, out, k, v), k, v);
    assert b !in nd.remotes;
    assert Ship(cfg.part, nd).panicked;
  }
}
