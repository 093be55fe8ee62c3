/**
  The part of a `Distributor` that takes part in a rescale: the router state machine
  Normal -> Interrogate -> Collect -> Finished -> Normal, the connected remotes and what is
  sent downstream and over the network.

  Everything here is a function of the worker-local state (`Node`). The class in Distributor.dfy
  performs the same transitions in place, and Cluster.dfy composes them into runs of n workers.
*/
module Router {
  import opened Basics

  // `WorkerPartitioner`: selects one member of an ordered set of workers.
  type Partitioner = (Key, seq<Worker>) -> Worker

  /** Messages between distributors.
      `past` (was the sender past Interrogate?) and `hops` (how often has the record been sent
      over the network?) are bookkeeping of the model: no transition depends on them. */
  datatype Packet =
    | Data(rec: Record, version: Version, past: bool, hops: nat)
    | Acquire(key: Key, collection: Option<KeyState>)
    | Upgrade(version: Version)
    | AckUpgrade(version: Version)

  // Messages from the distributor to the operators downstream of it on the same worker.
  datatype Down =
    | DData(rec: Record)
    | DInterrogate
    | DCollect(key: Key)
    | DAcquire(key: Key, collection: Option<KeyState>)
    | DRescale

  datatype Remote = Remote(lastVersion: Option<Version>, lastAck: Option<Version>)

  datatype Buffered = Buffered(rec: Record, hops: nat)

  // `copies` counts the clones of the shared message that are still alive downstream.
  datatype InCollection = InCollection(key: Key, collection: Option<KeyState>, copies: nat)

  datatype Router =
    | Normal(workers: seq<Worker>, version: Version)
    | Interrogating(version: Version, oldWorkers: seq<Worker>, newWorkers: seq<Worker>,
                    shared: set<Key>, copies: nat, trigger: Version)
    | Collecting(version: Version, whitelist: set<Key>, oldWorkers: seq<Worker>, newWorkers: seq<Worker>,
                 buffered: seq<Buffered>, current: Option<InCollection>)
    | Finished(version: Version, oldWorkers: seq<Worker>, newWorkers: seq<Worker>)

  /** State of one worker: its distributor and the stateful operator behind it.
      `out[y]` holds what was sent to worker y and not received yet, oldest first.
      `panicked` is set where the program would hit an `expect`. */
  datatype Node = Node(router: Router, remotes: map<Worker, Remote>, out: seq<seq<Packet>>,
                       down: seq<Down>, store: map<Key, KeyState>, rescaled: bool, panicked: bool)

  // 0 Normal on the starting set, 1 Interrogate, 2 Collect, 3 Finished, 4 Normal on the new set
  function Phase(nd: Node): nat {
    match nd.router
    case Normal(_, _) => if nd.rescaled then 4 else 0
    case Interrogating(_, _, _, _, _, _) => 1
    case Collecting(_, _, _, _, _, _) => 2
    case Finished(_, _, _) => 3
  }

  predicate IsCurrent(r: Router, k: Key) {
    r.Collecting? && r.current.Some? && r.current.value.key == k
  }

  // ---------------------------------------------------------------- routing

  datatype Routing = Routing(router: Router, target: Option<Worker>)

  function RouteInterrogating(part: Partitioner, r: Router, k: Key, me: Worker): Routing
    requires r.Interrogating?
  {
    var oldTarget := part(k, r.oldWorkers);
    var newTarget := part(k, r.newWorkers);
    if oldTarget == me && newTarget != me then
      Routing(r.(shared := r.shared + {k}), Some(me))
    else if oldTarget == me then Routing(r, Some(me))
    else Routing(r, Some(oldTarget))
  }

  function RouteCollecting(part: Partitioner, r: Router, rec: Record, hops: nat, me: Worker, sender: Worker): Routing
    requires r.Collecting?
  {
    var newTarget := part(rec.key, r.newWorkers);
    if newTarget != me then
      if rec.key in r.whitelist then Routing(r, Some(me))
      else if IsCurrent(r, rec.key) then
        Routing(r.(buffered := r.buffered + [Buffered(rec, hops)]), None)
      else Routing(r, Some(newTarget))
    else
      var oldTarget := part(rec.key, r.oldWorkers);
      Routing(r, Some(if oldTarget == sender then me else oldTarget))
  }

  function RouteFinished(part: Partitioner, r: Router, k: Key, me: Worker, sender: Worker,
                         remotes: map<Worker, Remote>): Worker
    requires r.Finished?
  {
    var newTarget := part(k, r.newWorkers);
    if newTarget == me then
      var oldTarget := part(k, r.oldWorkers);
      if oldTarget == newTarget then newTarget
      else if oldTarget == sender then me
      else if oldTarget in remotes && remotes[oldTarget].lastVersion == Some(r.version) then newTarget
      else oldTarget
    else newTarget
  }

  // `target == None`: the record was put into the router's buffer.
  function RouteMessage(part: Partitioner, r: Router, rec: Record, hops: nat, msgVersion: Option<Version>,
                        me: Worker, sender: Worker, remotes: map<Worker, Remote>): Routing
  {
    if msgVersion.Some? && msgVersion.value > r.version then Routing(r, Some(me))
    else
      match r
      case Normal(workers, _) => Routing(r, Some(part(rec.key, workers)))
      case Interrogating(_, _, _, _, _, _) => RouteInterrogating(part, r, rec.key, me)
      case Collecting(_, _, _, _, _, _) => RouteCollecting(part, r, rec, hops, me, sender)
      case Finished(_, _, _) => Routing(r, Some(RouteFinished(part, r, rec.key, me, sender, remotes)))
  }

  // ---------------------------------------------------------------- sending

  function Push(nd: Node, target: Worker, packets: seq<Packet>): Node
    requires target < |nd.out|
  {
    nd.(out := nd.out[target := nd.out[target] + packets])
  }

  function SendData(nd: Node, rec: Record, hops: nat, me: Worker, target: Worker): Node {
    if target == me then nd.(down := nd.down + [DData(rec)])
    else if target in nd.remotes && target < |nd.out| then
      Push(nd, target, [Data(rec, nd.router.version, Phase(nd) >= 2, hops + 1)])
    else nd.(panicked := true)
  }

  // `broadcast`: one copy for every connected remote.
  function Broadcast(nd: Node, packet: Packet): Node {
    nd.(out := seq(|nd.out|, y requires 0 <= y < |nd.out| =>
      if y in nd.remotes then nd.out[y] + [packet] else nd.out[y]))
  }

  // ---------------------------------------------------------------- distributor handlers

  function HandleData(part: Partitioner, nd: Node, rec: Record, hops: nat, msgVersion: Option<Version>,
                      me: Worker, sender: Worker): Node
  {
    var r := RouteMessage(part, nd.router, rec, hops, msgVersion, me, sender, nd.remotes);
    var nd1 := nd.(router := r.router);
    match r.target
    case None => nd1
    case Some(target) => SendData(nd1, rec, hops, me, target)
  }

  function HandlePacket(part: Partitioner, nd: Node, packet: Packet, me: Worker, sender: Worker): Node
    requires sender in nd.remotes && sender < |nd.out|
  {
    match packet
    case Data(rec, version, _, hops) => HandleData(part, nd, rec, hops, Some(version), me, sender)
    case Acquire(key, collection) => nd.(down := nd.down + [DAcquire(key, collection)])
    case Upgrade(version) =>
      var nd1 := nd.(remotes := nd.remotes[sender := nd.remotes[sender].(lastVersion := Some(version))]);
      Push(nd1, sender, [AckUpgrade(version)])
    case AckUpgrade(version) =>
      nd.(remotes := nd.remotes[sender := nd.remotes[sender].(lastAck := Some(version))])
  }

  function WithNewRemotes(remotes: map<Worker, Remote>, newWorkers: seq<Worker>, me: Worker): map<Worker, Remote> {
    (map w | w in newWorkers && w != me :: Remote(None, None)) + remotes
  }

  function HandleRescale(nd: Node, newWorkers: seq<Worker>, trigger: Version, me: Worker): Node {
    var nd1 := nd.(remotes := WithNewRemotes(nd.remotes, newWorkers, me), rescaled := true);
    match nd.router
    case Normal(workers, version) =>
      nd1.(router := Interrogating(version, workers, newWorkers, {}, 1, trigger),
           down := nd.down + [DInterrogate])
    case _ => nd1
  }

  // ---------------------------------------------------------------- lifecycle

  // Takes the next key off the whitelist, if any, and sends a Collect for it downstream.
  function StartCollect(nd: Node, pick: Key): Node
    requires nd.router.Collecting? && (nd.router.whitelist != {} ==> pick in nd.router.whitelist)
  {
    if nd.router.current.None? && nd.router.whitelist != {} then
      nd.(router := nd.router.(current := Some(InCollection(pick, None, 1)),
                               whitelist := nd.router.whitelist - {pick}),
          down := nd.down + [DCollect(pick)])
    else nd
  }

  function Released(buffered: seq<Buffered>, version: Version): seq<Packet> {
    seq(|buffered|, i requires 0 <= i < |buffered| =>
      Data(buffered[i].rec, version, true, buffered[i].hops + 1))
  }

  // Hands the collected state to its new owner, followed by the records buffered meanwhile.
  function Ship(part: Partitioner, nd: Node): Node
    requires nd.router.Collecting? && nd.router.current.Some?
  {
    var c := nd.router.current.value;
    var target := part(c.key, nd.router.newWorkers);
    var nd1 := nd.(router := nd.router.(current := None, buffered := []));
    if target in nd.remotes && target < |nd.out| then
      Push(nd1, target, [Acquire(c.key, c.collection)] + Released(nd.router.buffered, nd.router.version))
    else nd1.(panicked := true)
  }

  function FinishCollect(nd: Node): Node
    requires nd.router.Collecting?
  {
    if nd.router.current.None? && nd.router.whitelist == {} then
      var nd1 := Broadcast(nd, Upgrade(nd.router.version));
      nd1.(router := Finished(nd.router.version, nd.router.oldWorkers, nd.router.newWorkers))
    else nd
  }

  predicate CanCollect(nd: Node) {
    nd.router.Collecting? && nd.router.current.Some? && nd.router.current.value.copies == 0
  }

  function LifecycleCollecting(part: Partitioner, nd: Node, pick: Key): Node
    requires nd.router.Collecting? && (nd.router.whitelist != {} ==> pick in nd.router.whitelist)
  {
    FinishCollect(StartCollect(if CanCollect(nd) then Ship(part, nd) else nd, pick))
  }

  predicate AllUpgraded(remotes: map<Worker, Remote>, version: Version) {
    forall w :: w in remotes ==>
      remotes[w].lastVersion == Some(version) && remotes[w].lastAck == Some(version)
  }

  function Leaving(oldWorkers: seq<Worker>, newWorkers: seq<Worker>): set<Worker> {
    set w | w in oldWorkers && w !in newWorkers
  }

  function LifecycleFinished(nd: Node): Node
    requires nd.router.Finished?
  {
    var r := nd.router;
    if AllUpgraded(nd.remotes, r.version) then
      nd.(router := Normal(r.newWorkers, r.version),
          remotes := nd.remotes - Leaving(r.oldWorkers, r.newWorkers),
          down := nd.down + [DRescale])
    else nd
  }

  function Lifecycle(part: Partitioner, nd: Node, pick: Key): Node
    requires nd.router.Collecting? && nd.router.whitelist != {} ==> pick in nd.router.whitelist
  {
    match nd.router
    case Normal(_, _) => nd
    case Interrogating(_, oldWorkers, newWorkers, shared, copies, trigger) =>
      if copies == 0 then
        nd.(router := Collecting(trigger, shared, oldWorkers, newWorkers, [], None))
      else nd
    case Collecting(_, _, _, _, _, _) => LifecycleCollecting(part, nd, pick)
    case Finished(_, _, _) => LifecycleFinished(nd)
  }

  // ---------------------------------------------------------------- the operator behind the distributor

  // One call of the operator's logic; a missing state is replaced by the default one.
  function StepState(onData: (Record, KeyState) -> Option<KeyState>, default: KeyState,
                     state: Option<KeyState>, rec: Record): Option<KeyState>
  {
    onData(rec, state.GetOr(default))
  }

  function Store(store: map<Key, KeyState>, k: Key, state: Option<KeyState>): map<Key, KeyState> {
    match state
    case Some(s) => store[k := s]
    case None => store - {k}
  }

  predicate Moved(part: Partitioner, r: Router, k: Key)
    requires r.Interrogating?
  {
    part(k, r.oldWorkers) != part(k, r.newWorkers)
  }

  // The operator handles the oldest message of its input queue.
  function Operate(part: Partitioner, onData: (Record, KeyState) -> Option<KeyState>, default: KeyState,
                   nd: Node): Node
    requires nd.down != []
  {
    var rest := nd.(down := nd.down[1..]);
    match nd.down[0]
    case DData(rec) =>
      rest.(store := Store(nd.store, rec.key, StepState(onData, default, Lookup(nd.store, rec.key), rec)))
    case DInterrogate =>
      if nd.router.Interrogating? then
        var found := set k | k in nd.store && Moved(part, nd.router, k);
        rest.(router := nd.router.(shared := nd.router.shared + found, copies := 0))
      else rest
    case DCollect(key) =>
      if IsCurrent(nd.router, key) then
        rest.(router := nd.router.(current := Some(InCollection(key, Lookup(nd.store, key), 0))),
              store := nd.store - {key})
      else rest.(store := nd.store - {key})
    case DAcquire(key, collection) =>
      if collection.Some? then rest.(store := nd.store[key := collection.value]) else rest
    case DRescale => rest
  }
}
