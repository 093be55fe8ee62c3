/**
  A rescale of a whole cluster as a step system: n workers, one FIFO channel per ordered pair of
  workers, data entering anywhere at any time, and the rescale message reaching the workers in
  any order. Every handler of Router.dfy is one atomic step.

  Environment: channels are reliable and FIFO and only one rescale is under way. A packet sent by a
  worker past Interrogate is received only by workers past Interrogate (`Gate`). Workers in `late`
  are built with the already enlarged worker set, as `perform_reconfig_all` does on a scale-up; all
  others start with the old set.
*/
module Cluster {
  import opened Basics
  import opened Router

  datatype Config = Config(n: nat, part: Partitioner, oldWorkers: seq<Worker>, newWorkers: seq<Worker>,
                           late: set<Worker>, startVersion: Version, lateVersion: Version, newVersion: Version,
                           onData: (Record, KeyState) -> Option<KeyState>, default: KeyState)

  // `log`: all records handled by operators so far, in that order. `injected`: all records that entered.
  datatype Cluster = Cluster(nodes: seq<Node>, log: seq<Record>, injected: seq<Record>)

  // F and F' of the rescale protocol
  function Old(cfg: Config, k: Key): Worker { cfg.part(k, cfg.oldWorkers) }
  function New(cfg: Config, k: Key): Worker { cfg.part(k, cfg.newWorkers) }

  predicate Moves(cfg: Config, k: Key) { Old(cfg, k) != New(cfg, k) }

  function StartSet(cfg: Config, w: Worker): seq<Worker> {
    if w in cfg.late then cfg.newWorkers else cfg.oldWorkers
  }

  function StartVersion(cfg: Config, w: Worker): Version {
    if w in cfg.late then cfg.lateVersion else cfg.startVersion
  }

  ghost predicate ValidConfig(cfg: Config) {
    && (forall w :: w in cfg.oldWorkers || w in cfg.newWorkers <==> w < cfg.n)
    && (forall w :: w in cfg.late ==> w in cfg.newWorkers && w !in cfg.oldWorkers)
    && (cfg.late != {} ==> forall w :: w in cfg.oldWorkers ==> w in cfg.newWorkers)
    && cfg.lateVersion <= cfg.startVersion <= cfg.newVersion
    && (forall k :: Old(cfg, k) in cfg.oldWorkers)
    && (forall k :: New(cfg, k) in cfg.newWorkers)
  }

  ghost predicate InitNode(cfg: Config, w: Worker, nd: Node) {
    && nd.router == Normal(StartSet(cfg, w), StartVersion(cfg, w))
    && nd.out == seq(cfg.n, i => [])
    && nd.down == []
    && !nd.rescaled && !nd.panicked
    && (forall k :: k in nd.store ==> Old(cfg, k) == w)
    && (forall x :: x in nd.remotes ==> x < cfg.n && x != w)
    && (forall x :: x in StartSet(cfg, w) && x != w ==> x in nd.remotes)
    && (forall x :: x in nd.remotes ==>
         nd.remotes[x].lastVersion != Some(cfg.newVersion) && nd.remotes[x].lastAck != Some(cfg.newVersion))
  }

  ghost predicate Init(cfg: Config, s: Cluster) {
    && |s.nodes| == cfg.n
    && s.log == [] && s.injected == []
    && forall w :: 0 <= w < cfg.n ==> InitNode(cfg, w, s.nodes[w])
  }

  datatype Step =
    | Inject(w: Worker, rec: Record)       // a record arrives from the local upstream
    | Receive(w: Worker, sender: Worker)   // w takes the oldest packet off its channel from sender
    | StartRescale(w: Worker)              // the rescale message arrives
    | RunLifecycle(w: Worker, pick: Key)
    | RunOperator(w: Worker)

  predicate PastInterrogate(packet: Packet) {
    match packet
    case Data(_, _, past, _) => past
    case _ => true
  }

  predicate Gate(packet: Packet, nd: Node) {
    PastInterrogate(packet) ==> Phase(nd) >= 2
  }

  predicate HasPacket(s: Cluster, w: Worker, sender: Worker) {
    && w < |s.nodes| && sender < |s.nodes| && w != sender
    && sender in s.nodes[w].remotes
    && sender < |s.nodes[w].out|
    && w < |s.nodes[sender].out|
    && s.nodes[sender].out[w] != []
  }

  // Everything the program itself lets happen, without the environment assumption on delivery.
  predicate Possible(cfg: Config, s: Cluster, step: Step) {
    match step
    case Inject(w, _) => w < |s.nodes|
    case Receive(w, sender) => HasPacket(s, w, sender)
    case StartRescale(w) => w < |s.nodes| && (!s.nodes[w].rescaled || !s.nodes[w].router.Normal?)
    case RunLifecycle(w, pick) =>
      && w < |s.nodes|
      && (s.nodes[w].router.Collecting? && s.nodes[w].router.whitelist != {} ==> pick in s.nodes[w].router.whitelist)
    case RunOperator(w) => w < |s.nodes| && s.nodes[w].down != []
  }

  predicate Enabled(cfg: Config, s: Cluster, step: Step) {
    && Possible(cfg, s, step)
    && (step.Receive? ==> Gate(s.nodes[step.sender].out[step.w][0], s.nodes[step.w]))
  }

  function Popped(nd: Node, w: Worker): Node
    requires w < |nd.out| && nd.out[w] != []
  {
    nd.(out := nd.out[w := nd.out[w][1..]])
  }

  function Apply(cfg: Config, s: Cluster, step: Step): Cluster
    requires Possible(cfg, s, step)
  {
    match step
    case Inject(w, rec) =>
      s.(nodes := s.nodes[w := HandleData(cfg.part, s.nodes[w], rec, 0, None, w, w)],
         injected := s.injected + [rec])
    case Receive(w, sender) =>
      var packet := s.nodes[sender].out[w][0];
      s.(nodes := s.nodes[sender := Popped(s.nodes[sender], w)]
                         [w := HandlePacket(cfg.part, s.nodes[w], packet, w, sender)])
    case StartRescale(w) =>
      s.(nodes := s.nodes[w := HandleRescale(s.nodes[w], cfg.newWorkers, cfg.newVersion, w)])
    case RunLifecycle(w, pick) =>
      s.(nodes := s.nodes[w := Lifecycle(cfg.part, s.nodes[w], pick)])
    case RunOperator(w) =>
      s.(nodes := s.nodes[w := Operate(cfg.part, cfg.onData, cfg.default, s.nodes[w])],
         log := match s.nodes[w].down[0]
                case DData(rec) => s.log + [rec]
                case _ => s.log)
  }

  // A run: the first state is initial and every other one follows by an enabled step.
  ghost predicate IsRun(cfg: Config, run: seq<Cluster>) {
    && run != []
    && Init(cfg, run[0])
    && forall i :: 0 <= i < |run| - 1 ==> Next(cfg, run[i], run[i + 1])
  }

  ghost predicate Next(cfg: Config, s: Cluster, t: Cluster) {
    exists step :: Enabled(cfg, s, step) && t == Apply(cfg, s, step)
  }

  // A run of everything the program allows, with no assumption on when packets are delivered.
  ghost predicate IsUngatedRun(cfg: Config, run: seq<Cluster>) {
    && run != []
    && Init(cfg, run[0])
    && forall i :: 0 <= i < |run| - 1 ==> UngatedNext(cfg, run[i], run[i + 1])
  }

  ghost predicate UngatedNext(cfg: Config, s: Cluster, t: Cluster) {
    exists step :: Possible(cfg, s, step) && t == Apply(cfg, s, step)
  }

  // Every run is one of these.
  lemma RunIsUngated(cfg: Config, run: seq<Cluster>)
    requires IsRun(cfg, run)
    ensures IsUngatedRun(cfg, run)
  {
    forall i | 0 <= i < |run| - 1 ensures UngatedNext(cfg, run[i], run[i + 1]) {
      assert Next(cfg, run[i], run[i + 1]);
      var step :| Enabled(cfg, run[i], step) && run[i + 1] == Apply(cfg, run[i], step);
      assert Possible(cfg, run[i], step);
    }
  }
}
