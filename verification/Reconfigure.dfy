/**
  When `perform_reconfig` returns. Copies of the rescale message flow through a worker's dataflow graph. Each
  distributor in it is a router state machine of its own: it keeps a copy exactly while it is not Normal, ignores
  those that reach it meanwhile, and passes one on when it returns to Normal.
*/
module Reconfigure {
  import opened Basics
  import opened Router
  import opened Dag

  // The worker and the change it is told of. `distributors`: which nodes of the graph are distributors.
  datatype Job = Job(me: Worker, part: Partitioner, onData: (Record, KeyState) -> Option<KeyState>, default: KeyState,
                     newWorkers: seq<Worker>, version: Version, distributors: set<nat>)

  // `waiting[v][i]`: copies on inbound edge i of node v. `routers[v]`: the distributor at v, if there is one.
  datatype Spread = Spread(waiting: seq<seq<nat>>, routers: seq<Node>, handled: seq<bool>, passed: seq<bool>)

  // What may happen at a distributor besides the message: everything its own loop does.
  datatype Event =
    | Arrive(rec: Record, hops: nat, msgVersion: Option<Version>, sender: Worker)
    | Receive(packet: Packet, sender: Worker)
    | Operator
    | Turn(pick: Key)

  datatype Move =
    | RootSends
    | Take(v: nat, i: nat)
    | Local(v: nat, event: Event)

  function Start(g: Graph, routers: seq<Node>): Spread {
    var n := |g.sources|;
    Spread(seq(n, v requires 0 <= v < n => seq(|g.sources[v]|, i => 0)), routers, seq(n, v => false), seq(n, v => false))
  }

  // u sends one copy on each of its outbound edges.
  function Sends(g: Graph, s: Spread, u: nat): Spread {
    if u < |s.passed| then
      s.(waiting := seq(|s.waiting|, v requires 0 <= v < |s.waiting| =>
           seq(|s.waiting[v]|, i requires 0 <= i < |s.waiting[v]| =>
             if v < |g.sources| && i < |g.sources[v]| && g.sources[v][i] == u then s.waiting[v][i] + 1 else s.waiting[v][i])),
         passed := s.passed[u := true])
    else s
  }

  predicate CanTake(s: Spread, v: nat, i: nat) {
    0 < v < |s.waiting| && v < |s.routers| == |s.handled| && i < |s.waiting[v]| && s.waiting[v][i] > 0
  }

  function Handle(job: Job, nd: Node, e: Event): Node {
    match e
    case Arrive(rec, hops, version, sender) => HandleData(job.part, nd, rec, hops, version, job.me, sender)
    case Receive(packet, sender) =>
      if sender in nd.remotes && sender < |nd.out| then HandlePacket(job.part, nd, packet, job.me, sender) else nd
    case Operator => if nd.down != [] then Operate(job.part, job.onData, job.default, nd) else nd
    case Turn(pick) =>
      if nd.router.Collecting? && nd.router.whitelist != {} && pick !in nd.router.whitelist then nd
      else Lifecycle(job.part, nd, pick)
  }

  // A step that is not possible changes nothing.
  function Apply(g: Graph, job: Job, s: Spread, m: Move): Spread {
    match m
    case RootSends => Sends(g, s, 0)
    case Take(v, i) =>
      if CanTake(s, v, i) then
        var t := s.(waiting := s.waiting[v := s.waiting[v][i := s.waiting[v][i] - 1]], handled := s.handled[v := true]);
        if v in job.distributors then
          t.(routers := s.routers[v := HandleRescale(s.routers[v], job.newWorkers, job.version, job.me)])
        else Sends(g, t, v)
      else s
    case Local(v, e) =>
      if 0 < v < |s.routers| && v in job.distributors then
        var nd := Handle(job, s.routers[v], e);
        var t := s.(routers := s.routers[v := nd]);
        if s.routers[v].router.Finished? && nd.router.Normal? then Sends(g, t, v) else t
      else s
  }

  function Run(g: Graph, job: Job, routers: seq<Node>, moves: seq<Move>): Spread {
    if moves == [] then Start(g, routers) else Apply(g, job, Run(g, job, routers, moves[..|moves| - 1]), moves[|moves| - 1])
  }

  // ---------------------------------------------------------------- counting copies

  function Sum(q: seq<nat>): nat {
    if q == [] then 0 else q[0] + Sum(q[1..])
  }

  function SumAll(q: seq<seq<nat>>): nat {
    if q == [] then 0 else Sum(q[0]) + SumAll(q[1..])
  }

  // Routers that hold a copy: all that are not Normal.
  function Held(q: seq<Node>): nat {
    if q == [] then 0 else (if q[0].router.Normal? then 0 else 1) + Held(q[1..])
  }

  // `strong_count` of the message kept by `perform_reconfig`
  function StrongCount(s: Spread): nat {
    1 + SumAll(s.waiting) + Held(s.routers)
  }

  lemma {:induction false} SumZero(q: seq<nat>, i: nat)
    requires Sum(q) == 0 && i < |q|
    ensures q[i] == 0
  {
    if i > 0 { SumZero(q[1..], i - 1); }
  }

  lemma {:induction false} SumAllZero(q: seq<seq<nat>>, v: nat, i: nat)
    requires SumAll(q) == 0 && v < |q| && i < |q[v]|
    ensures q[v][i] == 0
  {
    if v > 0 { SumAllZero(q[1..], v - 1, i); } else { SumZero(q[0], i); }
  }

  lemma {:induction false} HeldZero(q: seq<Node>, v: nat)
    requires Held(q) == 0 && v < |q|
    ensures q[v].router.Normal?
  {
    if v > 0 { HeldZero(q[1..], v - 1); }
  }

  // ---------------------------------------------------------------- one distributor

  // It is on the way to the new set, or, once told and back to Normal, there.
  predicate OnTheWay(job: Job, nd: Node) {
    match nd.router
    case Normal(workers, version) => nd.rescaled ==> workers == job.newWorkers && version == job.version
    case Interrogating(_, _, newWorkers, _, _, trigger) => nd.rescaled && newWorkers == job.newWorkers && trigger == job.version
    case Collecting(version, _, _, newWorkers, _, _) => nd.rescaled && newWorkers == job.newWorkers && version == job.version
    case Finished(version, _, newWorkers) => nd.rescaled && newWorkers == job.newWorkers && version == job.version
  }

  lemma ToldIsOnTheWay(job: Job, nd: Node)
    requires OnTheWay(job, nd)
    ensures var nd1 := HandleRescale(nd, job.newWorkers, job.version, job.me);
            OnTheWay(job, nd1) && nd1.rescaled && !nd1.router.Normal?
  {
  }

  // `nd1` follows `nd` without a new rescale message.
  predicate Moves(job: Job, nd: Node, nd1: Node) {
    && OnTheWay(job, nd1) && nd1.rescaled == nd.rescaled
    && (nd.router.Normal? ==> nd1.router.Normal?)
    && (!nd.router.Normal? && nd1.router.Normal? ==> nd.router.Finished?)
  }

  lemma RecordIsOnTheWay(job: Job, nd: Node, rec: Record, hops: nat, version: Option<Version>, sender: Worker)
    requires OnTheWay(job, nd)
    ensures Moves(job, nd, HandleData(job.part, nd, rec, hops, version, job.me, sender))
  {
  }

  lemma TurnIsOnTheWay(job: Job, nd: Node, pick: Key)
    requires OnTheWay(job, nd) && (nd.router.Collecting? && nd.router.whitelist != {} ==> pick in nd.router.whitelist)
    ensures Moves(job, nd, Lifecycle(job.part, nd, pick))
  {
  }

  lemma LocalIsOnTheWay(job: Job, nd: Node, e: Event)
    requires OnTheWay(job, nd)
    ensures Moves(job, nd, Handle(job, nd, e))
  {
    match e
    case Arrive(rec, hops, version, sender) => RecordIsOnTheWay(job, nd, rec, hops, version, sender);
    case Receive(packet, sender) =>
      if packet.Data? { RecordIsOnTheWay(job, nd, packet.rec, packet.hops, Some(packet.version), sender); }
    case Turn(pick) =>
      if !(nd.router.Collecting? && nd.router.whitelist != {} && pick !in nd.router.whitelist) { TurnIsOnTheWay(job, nd, pick); }
    case Operator =>
  }

  // ---------------------------------------------------------------- invariant

  ghost predicate Sized(g: Graph, s: Spread) {
    && |s.waiting| == |s.routers| == |s.handled| == |s.passed| == |g.sources|
    && forall v :: 0 <= v < |g.sources| ==> |s.waiting[v]| == |g.sources[v]|
  }

  // What u has passed on waits at v or has been handled there.
  ghost predicate Arrived(g: Graph, s: Spread, v: nat, i: nat)
    requires Sized(g, s) && v < |g.sources| && i < |g.sources[v]|
  {
    var u := g.sources[v][i];
    u < |g.sources| && s.passed[u] ==> s.waiting[v][i] > 0 || s.handled[v]
  }

  ghost predicate AllArrived(g: Graph, s: Spread)
    requires Sized(g, s)
  {
    forall v, i :: 0 <= v < |g.sources| && 0 <= i < |g.sources[v]| ==> Arrived(g, s, v, i)
  }

  // A distributor that has been told has passed the message on or is not Normal yet; others pass it on at once.
  ghost predicate AtNode(job: Job, s: Spread, v: nat)
    requires v < |s.routers| && v < |s.handled| && v < |s.passed|
  {
    if v in job.distributors then
      && OnTheWay(job, s.routers[v]) && s.routers[v].rescaled == s.handled[v]
      && (s.handled[v] ==> s.passed[v] || !s.routers[v].router.Normal?)
    else s.routers[v].router.Normal? && (s.handled[v] ==> s.passed[v])
  }

  ghost predicate Inv(g: Graph, job: Job, s: Spread) {
    && Sized(g, s) && AllArrived(g, s)
    && forall v :: 0 < v < |g.sources| ==> AtNode(job, s, v)
  }

  // All routers start Normal and have not heard of the change.
  ghost predicate Fresh(g: Graph, routers: seq<Node>) {
    |routers| == |g.sources| && forall v :: 0 <= v < |routers| ==> routers[v].router.Normal? && !routers[v].rescaled
  }

  // Sending keeps what was true of every edge and makes it true of the sender's.
  lemma SendsArrives(g: Graph, s: Spread, u: nat)
    requires Sized(g, s) && u < |g.sources|
    requires forall v, i :: 0 <= v < |g.sources| && 0 <= i < |g.sources[v]| ==> Arrived(g, s, v, i) || g.sources[v][i] == u
    ensures Sized(g, Sends(g, s, u)) && AllArrived(g, Sends(g, s, u))
  {
    var t := Sends(g, s, u);
    forall v, i | 0 <= v < |g.sources| && 0 <= i < |g.sources[v]| ensures Arrived(g, t, v, i) {
      assert Arrived(g, s, v, i) || g.sources[v][i] == u;
      assert t.waiting[v][i] == if g.sources[v][i] == u then s.waiting[v][i] + 1 else s.waiting[v][i];
    }
  }

  lemma TakeKeeps(g: Graph, job: Job, s: Spread, v: nat, i: nat)
    requires Inv(g, job, s) && CanTake(s, v, i)
    ensures Inv(g, job, Apply(g, job, s, Take(v, i)))
  {
    var t := s.(waiting := s.waiting[v := s.waiting[v][i := s.waiting[v][i] - 1]], handled := s.handled[v := true]);
    assert AtNode(job, s, v);
    forall x, j | 0 <= x < |g.sources| && 0 <= j < |g.sources[x]| ensures Arrived(g, t, x, j) {
      assert Arrived(g, s, x, j);
    }
    if v in job.distributors {
      ToldIsOnTheWay(job, s.routers[v]);
      var t1 := t.(routers := s.routers[v := HandleRescale(s.routers[v], job.newWorkers, job.version, job.me)]);
      forall x, j | 0 <= x < |g.sources| && 0 <= j < |g.sources[x]| ensures Arrived(g, t1, x, j) {
        assert Arrived(g, t, x, j);
      }
    } else {
      SendsArrives(g, t, v);
    }
    NodesKeep(job, s, Apply(g, job, s, Take(v, i)), v);
  }

  // Only one node changes.
  lemma NodesKeep(job: Job, s: Spread, t: Spread, v: nat)
    requires |s.routers| == |s.handled| == |s.passed| == |t.routers| == |t.handled| == |t.passed| && v < |s.routers|
    requires forall x :: 0 < x < |s.routers| ==> AtNode(job, s, x)
    requires forall x :: 0 <= x < |s.routers| && x != v ==>
               t.routers[x] == s.routers[x] && t.handled[x] == s.handled[x] && t.passed[x] == s.passed[x]
    requires v > 0 ==> AtNode(job, t, v)
    ensures forall x :: 0 < x < |t.routers| ==> AtNode(job, t, x)
  {
    forall x | 0 < x < |t.routers| ensures AtNode(job, t, x) {
      assert AtNode(job, s, x);
    }
  }

  lemma LocalKeeps(g: Graph, job: Job, s: Spread, v: nat, e: Event)
    requires Inv(g, job, s) && 0 < v < |g.sources| && v in job.distributors
    ensures Inv(g, job, Apply(g, job, s, Local(v, e)))
  {
    assert AtNode(job, s, v);
    LocalIsOnTheWay(job, s.routers[v], e);
    var t := s.(routers := s.routers[v := Handle(job, s.routers[v], e)]);
    forall x, j | 0 <= x < |g.sources| && 0 <= j < |g.sources[x]| ensures Arrived(g, t, x, j) {
      assert Arrived(g, s, x, j);
    }
    SendsArrives(g, t, v);
    NodesKeep(job, s, Apply(g, job, s, Local(v, e)), v);
  }

  lemma RootKeeps(g: Graph, job: Job, s: Spread)
    requires ValidGraph(g) && Inv(g, job, s)
    ensures Inv(g, job, Sends(g, s, 0))
  {
    SendsArrives(g, s, 0);
    NodesKeep(job, s, Sends(g, s, 0), 0);
  }

  lemma {:induction false} RunInv(g: Graph, job: Job, routers: seq<Node>, moves: seq<Move>)
    requires ValidGraph(g) && Fresh(g, routers)
    ensures Inv(g, job, Run(g, job, routers, moves))
  {
    if moves != [] {
      var s := Run(g, job, routers, moves[..|moves| - 1]);
      RunInv(g, job, routers, moves[..|moves| - 1]);
      match moves[|moves| - 1]
      case RootSends => RootKeeps(g, job, s);
      case Take(v, i) => if CanTake(s, v, i) { TakeKeeps(g, job, s, v, i); }
      case Local(v, e) => if 0 < v < |g.sources| && v in job.distributors { LocalKeeps(g, job, s, v, e); }
    }
  }

  lemma StaysPassed(g: Graph, job: Job, s: Spread, m: Move, u: nat)
    requires u < |s.passed|
    ensures |Apply(g, job, s, m).passed| == |s.passed| && (s.passed[u] ==> Apply(g, job, s, m).passed[u])
  {
  }

  lemma {:induction false} RootHasSent(g: Graph, job: Job, routers: seq<Node>, moves: seq<Move>)
    requires ValidGraph(g) && Fresh(g, routers) && RootSends in moves
    ensures var s := Run(g, job, routers, moves); |s.passed| > 0 && s.passed[0]
  {
    var before, last := moves[..|moves| - 1], moves[|moves| - 1];
    RunInv(g, job, routers, before);
    if last != RootSends {
      assert moves == before + [last];
      RootHasSent(g, job, routers, before);
      StaysPassed(g, job, Run(g, job, routers, before), last, 0);
    }
  }

  lemma {:induction false} CountOnePasses(g: Graph, job: Job, s: Spread, v: nat)
    requires ValidGraph(g) && Inv(g, job, s) && s.passed[0] && StrongCount(s) == 1
    requires v < |g.sources| && Fed(g, v)
    ensures s.passed[v] && (v > 0 ==> s.handled[v])
    decreases v
  {
    if v > 0 {
      var i :| 0 <= i < |g.sources[v]| && g.sources[v][i] < v && Fed(g, g.sources[v][i]);
      CountOnePasses(g, job, s, g.sources[v][i]);
      assert Arrived(g, s, v, i) && AtNode(job, s, v);
      SumAllZero(s.waiting, v, i);
      HeldZero(s.routers, v);
    }
  }

  /** `perform_reconfig` returns only when every distributor the root can reach has been told, has been through all
      phases and is Normal on the new set with the new version, in any graph, also where streams split and join,
      and whatever else happens at the distributors; every other operator has passed the message on. */
  lemma ReconfigureReturns(g: Graph, job: Job, routers: seq<Node>, moves: seq<Move>, v: nat)
    requires ValidGraph(g) && Fresh(g, routers) && RootSends in moves
    requires StrongCount(Run(g, job, routers, moves)) == 1
    requires 0 < v < |g.sources| && Fed(g, v)
    ensures var s := Run(g, job, routers, moves);
            && |s.passed| == |s.routers| == |g.sources| && s.passed[v]
            && (v in job.distributors ==> s.routers[v].rescaled && s.routers[v].router == Normal(job.newWorkers, job.version))
  {
    RunInv(g, job, routers, moves);
    RootHasSent(g, job, routers, moves);
    var s := Run(g, job, routers, moves);
    CountOnePasses(g, job, s, v);
    HeldZero(s.routers, v);
    assert AtNode(job, s, v);
  }

  /** A distributor passes the message on only when it returns to Normal, never earlier. */
  lemma PassesWhenNormal(g: Graph, job: Job, routers: seq<Node>, moves: seq<Move>, m: Move, v: nat)
    requires ValidGraph(g) && Fresh(g, routers) && 0 < v < |g.sources| && v in job.distributors
    requires var s := Run(g, job, routers, moves); v < |s.passed| && !s.passed[v]
    ensures var t := Apply(g, job, Run(g, job, routers, moves), m);
            && |t.passed| == |t.routers| == |g.sources|
            && (t.passed[v] ==> t.routers[v].router == Normal(job.newWorkers, job.version))
  {
    RunInv(g, job, routers, moves);
    var s := Run(g, job, routers, moves);
    assert AtNode(job, s, v);
    if m.Local? && m.v == v { LocalIsOnTheWay(job, s.routers[v], m.event); }
  }
}
