/**
  The collect phase of one worker from its whitelist to the announcement of the upgrade, whatever arrives
  meanwhile: what it sends, in which order, and that it ends.
*/
module RescaleProgress {
  import opened Basics
  import opened Router

  // The worker and what stays the same during the phase.
  datatype Site = Site(me: Worker, part: Partitioner, onData: (Record, KeyState) -> Option<KeyState>, default: KeyState)

  // A key that has been handed over, its state, and the records that arrived while it was being collected.
  datatype Handed = Handed(key: Key, collection: Option<KeyState>, records: seq<Record>)

  // `waiting`: the records that have arrived for the key being collected.
  datatype Trace = Trace(nd: Node, waiting: seq<Record>, done: seq<Handed>)

  datatype Event =
    | Arrive(rec: Record, hops: nat, version: Option<Version>, sender: Worker)
    | Control(packet: Packet, sender: Worker)
    | Operator
    | Turn(pick: Key)

  predicate CanHappen(nd: Node, e: Event) {
    && nd.router.Collecting?
    && match e
       case Arrive(_, _, _, _) => true
       case Control(packet, sender) => !packet.Data? && sender in nd.remotes && sender < |nd.out|
       case Operator => nd.down != []
       case Turn(pick) => nd.router.whitelist != {} ==> pick in nd.router.whitelist
  }

  // A record of the key being collected, unless its sender is known to be ahead.
  predicate HeldBack(c: Site, r: Router, k: Key, version: Option<Version>) {
    IsCurrent(r, k) && c.part(k, r.newWorkers) != c.me && k !in r.whitelist && !(version.Some? && version.value > r.version)
  }

  function Happen(c: Site, t: Trace, e: Event): Trace {
    if !CanHappen(t.nd, e) then t
    else
      match e
      case Arrive(rec, hops, version, sender) =>
        Trace(HandleData(c.part, t.nd, rec, hops, version, c.me, sender),
              if HeldBack(c, t.nd.router, rec.key, version) then t.waiting + [rec] else t.waiting, t.done)
      case Control(packet, sender) => t.(nd := HandlePacket(c.part, t.nd, packet, c.me, sender))
      case Operator => t.(nd := Operate(c.part, c.onData, c.default, t.nd))
      case Turn(pick) =>
        var nd := Lifecycle(c.part, t.nd, pick);
        if CanCollect(t.nd) then
          var current := t.nd.router.current.value;
          Trace(nd, [], t.done + [Handed(current.key, current.collection, t.waiting)])
        else t.(nd := nd)
  }

  function Play(c: Site, start: Node, events: seq<Event>): Trace {
    if events == [] then Trace(start, [], [])
    else Happen(c, Play(c, start, events[..|events| - 1]), events[|events| - 1])
  }

  // A worker that has just turned to collecting.
  ghost predicate Begins(c: Site, nd: Node) {
    && nd.router.Collecting? && nd.router.buffered == [] && nd.router.current == None && !nd.panicked
    && forall k :: k in nd.router.whitelist ==>
         c.part(k, nd.router.newWorkers) in nd.remotes && c.part(k, nd.router.newWorkers) < |nd.out|
  }

  // ---------------------------------------------------------------- counting

  function Count(q: seq<Packet>, p: Packet -> bool): nat {
    if q == [] then 0 else Count(q[..|q| - 1], p) + (if p(q[|q| - 1]) then 1 else 0)
  }

  function AcquireOf(k: Key): Packet -> bool {
    (p: Packet) => p.Acquire? && p.key == k
  }

  function IsUpgrade(): Packet -> bool {
    (p: Packet) => p.Upgrade?
  }

  lemma {:induction false} CountConcat(q: seq<Packet>, more: seq<Packet>, p: Packet -> bool)
    ensures Count(q + more, p) == Count(q, p) + Count(more, p)
  {
    if more == [] {
      assert q + more == q;
    } else {
      CountConcat(q, more[..|more| - 1], p);
      assert (q + more)[..|q + more| - 1] == q + more[..|more| - 1];
    }
  }

  lemma {:induction false} CountNone(q: seq<Packet>, p: Packet -> bool)
    requires forall i :: 0 <= i < |q| ==> !p(q[i])
    ensures Count(q, p) == 0
  {
    if q != [] { CountNone(q[..|q| - 1], p); }
  }

  // ---------------------------------------------------------------- invariant

  predicate Payload(records: seq<Record>, buffered: seq<Buffered>) {
    |records| == |buffered| && forall i :: 0 <= i < |records| ==> buffered[i].rec == records[i]
  }

  // From position p on: the Acquire and, directly behind it, the records in the order of their arrival,
  // under the new version.
  ghost predicate Block(q: seq<Packet>, p: nat, h: Handed, version: Version) {
    && p + |h.records| < |q|
    && q[p] == Acquire(h.key, h.collection)
    && forall j :: p < j <= p + |h.records| ==> q[j].Data? && q[j].rec == h.records[j - p - 1] && q[j].version == version
  }

  function Target(c: Site, start: Node, k: Key): Worker
    requires start.router.Collecting?
  {
    c.part(k, start.router.newWorkers)
  }

  ghost predicate Delivered(c: Site, start: Node, nd: Node, h: Handed)
    requires start.router.Collecting?
  {
    Target(c, start, h.key) < |nd.out| && exists p :: 0 <= p && Block(nd.out[Target(c, start, h.key)], p, h, start.router.version)
  }

  function DoneKeys(done: seq<Handed>): seq<Key> {
    seq(|done|, i requires 0 <= i < |done| => done[i].key)
  }

  function Listed(r: Router): set<Key> {
    if r.Collecting? then r.whitelist else {}
  }

  function Current(r: Router): set<Key> {
    if r.Collecting? && r.current.Some? then {r.current.value.key} else {}
  }

  // Each key of the whitelist is in exactly one place: still listed, being collected, or handed over.
  ghost predicate Partition(start: Node, t: Trace) {
    var listed, current := Listed(t.nd.router), Current(t.nd.router);
    && (forall k :: k in Listed(start.router) <==> k in listed || k in current || k in DoneKeys(t.done))
    && (forall k :: k in listed ==> k !in current && k !in DoneKeys(t.done))
    && (forall k :: k in current ==> k !in DoneKeys(t.done))
    && (forall i, j :: 0 <= i < j < |t.done| ==> t.done[i].key != t.done[j].key)
  }

  ghost predicate Kept(start: Node, nd: Node)
    requires start.router.Collecting?
  {
    && |nd.out| == |start.out| && nd.remotes.Keys == start.remotes.Keys
    && (nd.router.Collecting? || nd.router.Finished?)
    && nd.router.newWorkers == start.router.newWorkers && nd.router.version == start.router.version
    && (nd.router.Collecting? && nd.router.buffered != [] ==> nd.router.current.Some?)
  }

  ghost predicate Counted(c: Site, start: Node, t: Trace, y: Worker, k: Key)
    requires start.router.Collecting? && y < |start.out| && |t.nd.out| == |start.out|
  {
    Count(t.nd.out[y], AcquireOf(k)) == Count(start.out[y], AcquireOf(k)) +
      (if y == Target(c, start, k) && k in DoneKeys(t.done) then 1 else 0)
  }

  // The upgrade is announced once, behind everything else, and only when all keys are handed over.
  ghost predicate Announced(start: Node, nd: Node)
    requires start.router.Collecting? && |nd.out| == |start.out|
  {
    forall y :: 0 <= y < |start.out| ==>
      if nd.router.Finished? && y in start.remotes then
        && nd.out[y] != [] && nd.out[y][|nd.out[y]| - 1] == Upgrade(start.router.version)
        && Count(nd.out[y], IsUpgrade()) == Count(start.out[y], IsUpgrade()) + 1
      else Count(nd.out[y], IsUpgrade()) == Count(start.out[y], IsUpgrade())
  }

  ghost predicate Inv(c: Site, start: Node, t: Trace)
    requires start.router.Collecting?
  {
    && Kept(start, t.nd)
    && Announced(start, t.nd)
    && (t.nd.router.Collecting? ==> Payload(t.waiting, t.nd.router.buffered))
    && Partition(start, t)
    && (forall i :: 0 <= i < |t.done| ==> Delivered(c, start, t.nd, t.done[i]))
    && (forall y, k :: 0 <= y < |start.out| ==> Counted(c, start, t, y, k))
  }

  lemma BeginsInv(c: Site, start: Node)
    requires Begins(c, start)
    ensures Inv(c, start, Trace(start, [], []))
  {
  }

  // ---------------------------------------------------------------- steps

  // Nothing but other packets has been added.
  ghost predicate Quiet(a: seq<seq<Packet>>, b: seq<seq<Packet>>) {
    && |a| == |b|
    && forall y :: 0 <= y < |a| ==> a[y] <= b[y] && forall i :: |a[y]| <= i < |b[y]| ==> !b[y][i].Acquire?
  }

  ghost predicate NoUpgrade(a: seq<seq<Packet>>, b: seq<seq<Packet>>) {
    && |a| == |b|
    && forall y :: 0 <= y < |a| ==> a[y] <= b[y] && forall i :: |a[y]| <= i < |b[y]| ==> !b[y][i].Upgrade?
  }

  lemma CountSame(a: seq<Packet>, b: seq<Packet>, p: Packet -> bool)
    requires a <= b && forall i :: |a| <= i < |b| ==> !p(b[i])
    ensures Count(b, p) == Count(a, p)
  {
    CountConcat(a, b[|a|..], p);
    CountNone(b[|a|..], p);
    assert a + b[|a|..] == b;
  }

  lemma DeliveredStays(c: Site, start: Node, nd: Node, nd1: Node, h: Handed)
    requires start.router.Collecting? && Delivered(c, start, nd, h) && |nd.out| == |nd1.out|
    requires nd.out[Target(c, start, h.key)] <= nd1.out[Target(c, start, h.key)]
    ensures Delivered(c, start, nd1, h)
  {
    var y := Target(c, start, h.key);
    var p :| 0 <= p && Block(nd.out[y], p, h, start.router.version);
    assert Block(nd1.out[y], p, h, start.router.version);
  }

  // A step that hands nothing over.
  lemma QuietKeeps(c: Site, start: Node, t: Trace, t1: Trace)
    requires start.router.Collecting? && Inv(c, start, t) && t1.done == t.done && Quiet(t.nd.out, t1.nd.out)
    requires Kept(start, t1.nd) && Partition(start, t1) && Announced(start, t1.nd)
    requires t1.nd.router.Collecting? ==> Payload(t1.waiting, t1.nd.router.buffered)
    ensures Inv(c, start, t1)
  {
    forall i | 0 <= i < |t1.done| ensures Delivered(c, start, t1.nd, t1.done[i]) {
      DeliveredStays(c, start, t.nd, t1.nd, t1.done[i]);
    }
    forall y, k | 0 <= y < |start.out| ensures Counted(c, start, t1, y, k) {
      assert Counted(c, start, t, y, k);
      CountSame(t.nd.out[y], t1.nd.out[y], AcquireOf(k));
    }
  }

  lemma AnnouncedStays(start: Node, nd: Node, nd1: Node)
    requires start.router.Collecting? && |nd.out| == |start.out| && Announced(start, nd)
    requires nd.router.Collecting? && nd1.router.Collecting? && NoUpgrade(nd.out, nd1.out)
    ensures Announced(start, nd1)
  {
    forall y | 0 <= y < |start.out| ensures Count(nd1.out[y], IsUpgrade()) == Count(start.out[y], IsUpgrade()) {
      CountSame(nd.out[y], nd1.out[y], IsUpgrade());
    }
  }

  // What handling a record does to the router and the channels.
  lemma ArriveEffect(c: Site, nd: Node, rec: Record, hops: nat, version: Option<Version>, sender: Worker)
    requires nd.router.Collecting?
    ensures var nd1 := HandleData(c.part, nd, rec, hops, version, c.me, sender);
            && Quiet(nd.out, nd1.out) && NoUpgrade(nd.out, nd1.out) && nd1.remotes == nd.remotes
            && nd1.router == if HeldBack(c, nd.router, rec.key, version)
                             then nd.router.(buffered := nd.router.buffered + [Buffered(rec, hops)]) else nd.router
  {
    var r := RouteMessage(c.part, nd.router, rec, hops, version, c.me, sender, nd.remotes);
    if r.target.Some? {
      SendEffect(nd.(router := r.router), rec, hops, c.me, r.target.value);
    }
  }

  lemma SendEffect(nd: Node, rec: Record, hops: nat, me: Worker, target: Worker)
    ensures var nd1 := SendData(nd, rec, hops, me, target);
            Quiet(nd.out, nd1.out) && NoUpgrade(nd.out, nd1.out) && nd1.remotes == nd.remotes && nd1.router == nd.router
  {
  }

  lemma ArriveKeeps(c: Site, start: Node, t: Trace, rec: Record, hops: nat, version: Option<Version>, sender: Worker)
    requires start.router.Collecting? && Inv(c, start, t) && t.nd.router.Collecting?
    ensures Inv(c, start, Happen(c, t, Arrive(rec, hops, version, sender)))
  {
    var t1 := Happen(c, t, Arrive(rec, hops, version, sender));
    ArriveEffect(c, t.nd, rec, hops, version, sender);
    AnnouncedStays(start, t.nd, t1.nd);
    QuietKeeps(c, start, t, t1);
  }

  lemma ControlEffect(c: Site, nd: Node, packet: Packet, sender: Worker)
    requires CanHappen(nd, Control(packet, sender))
    ensures var nd1 := HandlePacket(c.part, nd, packet, c.me, sender);
            && Quiet(nd.out, nd1.out) && NoUpgrade(nd.out, nd1.out)
            && nd1.router == nd.router && nd1.remotes.Keys == nd.remotes.Keys
  {
  }

  lemma ControlKeeps(c: Site, start: Node, t: Trace, packet: Packet, sender: Worker)
    requires start.router.Collecting? && Inv(c, start, t) && CanHappen(t.nd, Control(packet, sender))
    ensures Inv(c, start, Happen(c, t, Control(packet, sender)))
  {
    var t1 := t.(nd := HandlePacket(c.part, t.nd, packet, c.me, sender));
    ControlEffect(c, t.nd, packet, sender);
    AnnouncedStays(start, t.nd, t1.nd);
    PartitionStays(start, t, t1);
    QuietKeeps(c, start, t, t1);
  }

  lemma OperatorKeeps(c: Site, start: Node, t: Trace)
    requires start.router.Collecting? && Inv(c, start, t) && CanHappen(t.nd, Operator)
    ensures Inv(c, start, Happen(c, t, Operator))
  {
    var t1 := Happen(c, t, Operator);
    assert t1.nd.out == t.nd.out && t1.nd.remotes == t.nd.remotes;
    assert t1.nd.router.Collecting? && Current(t1.nd.router) == Current(t.nd.router);
    assert Listed(t1.nd.router) == Listed(t.nd.router) && t1.nd.router.buffered == t.nd.router.buffered;
    AnnouncedStays(start, t.nd, t1.nd);
    PartitionStays(start, t, t1);
    QuietKeeps(c, start, t, t1);
  }

  lemma PartitionStays(start: Node, t: Trace, t1: Trace)
    requires Partition(start, t) && t1.done == t.done
    requires Listed(t1.nd.router) == Listed(t.nd.router) && Current(t1.nd.router) == Current(t.nd.router)
    ensures Partition(start, t1)
  {
  }

  // The hand-over alone.
  function Shipped(c: Site, t: Trace): Trace
    requires CanCollect(t.nd)
  {
    var current := t.nd.router.current.value;
    Trace(Ship(c.part, t.nd), [], t.done + [Handed(current.key, current.collection, t.waiting)])
  }

  lemma ShipEffect(c: Site, start: Node, t: Trace)
    requires Begins(c, start) && Inv(c, start, t) && CanCollect(t.nd)
    ensures var current := t.nd.router.current.value;
            var y := Target(c, start, current.key);
            var h := Handed(current.key, current.collection, t.waiting);
            var nd1 := Ship(c.part, t.nd);
            && y < |start.out|
            && nd1.out == t.nd.out[y := t.nd.out[y] + ([Acquire(h.key, h.collection)]
                                                       + Released(t.nd.router.buffered, t.nd.router.version))]
            && Block(nd1.out[y], |t.nd.out[y]|, h, start.router.version)
            && nd1.router == t.nd.router.(current := None, buffered := []) && nd1.remotes == t.nd.remotes
  {
    assert t.nd.router.current.value.key in Current(t.nd.router);
  }

  lemma ShipCount(q: seq<Packet>, h: Handed, buffered: seq<Buffered>, version: Version, k: Key)
    ensures var q1 := q + ([Acquire(h.key, h.collection)] + Released(buffered, version));
            && Count(q1, AcquireOf(k)) == Count(q, AcquireOf(k)) + (if k == h.key then 1 else 0)
            && Count(q1, IsUpgrade()) == Count(q, IsUpgrade())
  {
    var a, r := [Acquire(h.key, h.collection)], Released(buffered, version);
    CountConcat(q, a + r, AcquireOf(k));
    CountConcat(a, r, AcquireOf(k));
    CountNone(r, AcquireOf(k));
    assert a[..0] == [];
    CountConcat(q, a + r, IsUpgrade());
    CountNone(a + r, IsUpgrade());
  }

  lemma ShipKeeps(c: Site, start: Node, t: Trace)
    requires Begins(c, start) && Inv(c, start, t) && CanCollect(t.nd)
    ensures Inv(c, start, Shipped(c, t))
  {
    var t1 := Shipped(c, t);
    var h := t1.done[|t.done|];
    ShipEffect(c, start, t);
    forall i | 0 <= i < |t1.done| ensures Delivered(c, start, t1.nd, t1.done[i]) {
      if i < |t.done| {
        DeliveredStays(c, start, t.nd, t1.nd, t.done[i]);
      }
    }
    ShipPartition(c, start, t);
    forall y, k | 0 <= y < |start.out| ensures Counted(c, start, t1, y, k) {
      ShipCounted(c, start, t, y, k);
    }
    forall y | 0 <= y < |start.out| ensures Count(t1.nd.out[y], IsUpgrade()) == Count(start.out[y], IsUpgrade()) {
      ShipCount(t.nd.out[y], h, t.nd.router.buffered, t.nd.router.version, h.key);
    }
  }

  lemma ShipPartition(c: Site, start: Node, t: Trace)
    requires Begins(c, start) && Inv(c, start, t) && CanCollect(t.nd)
    ensures Shipped(c, t).nd.router.Collecting? && Partition(start, Shipped(c, t))
  {
    ShipEffect(c, start, t);
    var t1 := Shipped(c, t);
    var h := t1.done[|t.done|];
    assert DoneKeys(t1.done) == DoneKeys(t.done) + [h.key];
    assert Current(t.nd.router) == {h.key};
    assert h.key !in DoneKeys(t.done);
    forall i | 0 <= i < |t.done| ensures t.done[i].key != h.key {
      assert DoneKeys(t.done)[i] == t.done[i].key;
    }
  }

  lemma ShipCounted(c: Site, start: Node, t: Trace, y: Worker, k: Key)
    requires Begins(c, start) && Inv(c, start, t) && CanCollect(t.nd) && y < |start.out|
    ensures |Shipped(c, t).nd.out| == |start.out| && Counted(c, start, Shipped(c, t), y, k)
  {
    ShipEffect(c, start, t);
    var t1 := Shipped(c, t);
    var h := t1.done[|t.done|];
    assert DoneKeys(t1.done) == DoneKeys(t.done) + [h.key];
    assert h.key in Current(t.nd.router);
    assert Counted(c, start, t, y, k);
    ShipCount(t.nd.out[y], h, t.nd.router.buffered, t.nd.router.version, k);
  }

  lemma StartKeeps(c: Site, start: Node, t: Trace, pick: Key)
    requires start.router.Collecting? && Inv(c, start, t) && t.nd.router.Collecting?
    requires t.nd.router.whitelist != {} ==> pick in t.nd.router.whitelist
    ensures Inv(c, start, t.(nd := StartCollect(t.nd, pick)))
  {
    var t1 := t.(nd := StartCollect(t.nd, pick));
    AnnouncedStays(start, t.nd, t1.nd);
    QuietKeeps(c, start, t, t1);
  }

  lemma FinishKeeps(c: Site, start: Node, t: Trace)
    requires start.router.Collecting? && Inv(c, start, t) && t.nd.router.Collecting?
    ensures Inv(c, start, t.(nd := FinishCollect(t.nd)))
  {
    var t1 := t.(nd := FinishCollect(t.nd));
    if t1.nd != t.nd {
      forall y | 0 <= y < |start.out| && y in t.nd.remotes
        ensures Count(t1.nd.out[y], IsUpgrade()) == Count(start.out[y], IsUpgrade()) + 1
      {
        CountConcat(t.nd.out[y], [Upgrade(start.router.version)], IsUpgrade());
        assert [Upgrade(start.router.version)][..0] == [];
      }
      QuietKeeps(c, start, t, t1);
    }
  }

  lemma TurnKeeps(c: Site, start: Node, t: Trace, pick: Key)
    requires Begins(c, start) && Inv(c, start, t) && CanHappen(t.nd, Turn(pick))
    ensures Inv(c, start, Happen(c, t, Turn(pick)))
  {
    var t1 := if CanCollect(t.nd) then Shipped(c, t) else t;
    if CanCollect(t.nd) {
      ShipKeeps(c, start, t);
      ShipEffect(c, start, t);
    }
    StartKeeps(c, start, t1, pick);
    FinishKeeps(c, start, t1.(nd := StartCollect(t1.nd, pick)));
  }

  lemma {:induction false} PlayInv(c: Site, start: Node, events: seq<Event>)
    requires Begins(c, start)
    ensures Inv(c, start, Play(c, start, events))
  {
    if events == [] {
      BeginsInv(c, start);
    } else {
      var t := Play(c, start, events[..|events| - 1]);
      PlayInv(c, start, events[..|events| - 1]);
      var e := events[|events| - 1];
      if CanHappen(t.nd, e) {
        match e
        case Arrive(rec, hops, version, sender) => ArriveKeeps(c, start, t, rec, hops, version, sender);
        case Control(packet, sender) => ControlKeeps(c, start, t, packet, sender);
        case Operator => OperatorKeeps(c, start, t);
        case Turn(pick) => TurnKeeps(c, start, t, pick);
      }
    }
  }

  // ---------------------------------------------------------------- theorems

  /** Trace law. Every key handed over so far is one of the whitelist, comes once, and lies in the channel to its
      new owner as one Acquire directly followed by the records that arrived for it, oldest first, all of them under
      the new version. */
  lemma HandedOverInOrder(c: Site, start: Node, events: seq<Event>, i: nat)
    requires Begins(c, start) && i < |Play(c, start, events).done|
    ensures var t := Play(c, start, events);
            var h := t.done[i];
            var y := Target(c, start, h.key);
            && h.key in start.router.whitelist
            && (forall j :: 0 <= j < |t.done| && j != i ==> t.done[j].key != h.key)
            && y < |start.out| == |t.nd.out|
            && (exists p :: 0 <= p && Block(t.nd.out[y], p, h, start.router.version))
            && Count(t.nd.out[y], AcquireOf(h.key)) == Count(start.out[y], AcquireOf(h.key)) + 1
  {
    PlayInv(c, start, events);
    var t := Play(c, start, events);
    assert DoneKeys(t.done)[i] == t.done[i].key;
    assert Delivered(c, start, t.nd, t.done[i]);
    assert Counted(c, start, t, Target(c, start, t.done[i].key), t.done[i].key);
  }

  /** When the worker has finished, exactly the whitelisted keys have been handed over, and each channel ends
      with the only Upgrade of this phase. */
  lemma FinishedMeansAll(c: Site, start: Node, events: seq<Event>)
    requires Begins(c, start) && Play(c, start, events).nd.router.Finished?
    ensures var t := Play(c, start, events);
            && (forall k :: k in start.router.whitelist <==> k in DoneKeys(t.done))
            && |t.nd.out| == |start.out|
            && forall y :: 0 <= y < |start.out| && y in start.remotes ==>
                 && t.nd.out[y] != [] && t.nd.out[y][|t.nd.out[y]| - 1] == Upgrade(start.router.version)
                 && Count(t.nd.out[y], IsUpgrade()) == Count(start.out[y], IsUpgrade()) + 1
  {
    PlayInv(c, start, events);
  }

  // ---------------------------------------------------------------- termination

  // Collections still to be completed, counting the one in progress.
  function Open(r: Router): nat {
    if r.Collecting? then |r.whitelist| + (if r.current.Some? then 1 else 0) else 0
  }

  lemma TurnCountsDown(c: Site, t: Trace, pick: Key)
    requires CanHappen(t.nd, Turn(pick))
    ensures var t1 := Happen(c, t, Turn(pick));
            && |t1.done| == |t.done| + (if CanCollect(t.nd) then 1 else 0)
            && Open(t1.nd.router) == Open(t.nd.router) - (|t1.done| - |t.done|)
  {
    var nd := if CanCollect(t.nd) then Ship(c.part, t.nd) else t.nd;
    assert Open(StartCollect(nd, pick).router) == Open(nd.router);
    assert Open(FinishCollect(StartCollect(nd, pick)).router) == Open(nd.router);
  }

  // Each completed collection brings the end closer by one; nothing moves it away.
  lemma OpenCountsDown(c: Site, t: Trace, e: Event)
    requires CanHappen(t.nd, e)
    ensures var t1 := Happen(c, t, e);
            Open(t1.nd.router) == Open(t.nd.router) - (|t1.done| - |t.done|)
  {
    match e
    case Arrive(rec, hops, version, sender) => ArriveEffect(c, t.nd, rec, hops, version, sender);
    case Turn(pick) => TurnCountsDown(c, t, pick);
    case _ =>
  }

  // ---------------------------------------------------------------- fairness

  function PlayOn(c: Site, t: Trace, events: seq<Event>): Trace
    decreases |events|
  {
    if events == [] then t else PlayOn(c, Happen(c, t, events[0]), events[1..])
  }

  function Operators(events: seq<Event>): nat {
    if events == [] then 0 else (if events[0].Operator? then 1 else 0) + Operators(events[1..])
  }

  // A stretch of the schedule in which the operators get as far as what is queued for them at its beginning,
  // and then the router has a turn. Records and control packets may arrive at any time.
  ghost predicate Fair(c: Site, t: Trace, events: seq<Event>) {
    exists i :: 0 <= i < |events| && FairAt(c, t, events, i)
  }

  predicate FairAt(c: Site, t: Trace, events: seq<Event>, i: nat)
    requires i < |events|
  {
    var mid := PlayOn(c, t, events[..i]);
    && Operators(events[..i]) >= |t.nd.down|
    && events[i].Turn? && (mid.nd.router.Collecting? ==> CanHappen(mid.nd, events[i]))
  }

  function PlayAll(c: Site, t: Trace, rounds: seq<seq<Event>>): Trace
    decreases |rounds|
  {
    if rounds == [] then t else PlayAll(c, PlayOn(c, t, rounds[0]), rounds[1..])
  }

  ghost predicate AllFair(c: Site, t: Trace, rounds: seq<seq<Event>>)
    decreases |rounds|
  {
    rounds == [] || (Fair(c, t, rounds[0]) && AllFair(c, PlayOn(c, t, rounds[0]), rounds[1..]))
  }

  // The collection in progress has been answered, or its Collect is among the next m messages for the operators.
  predicate Due(nd: Node, m: nat) {
    nd.router.Collecting? && nd.router.current.Some? && nd.router.current.value.copies != 0 ==>
      exists i :: 0 <= i < |nd.down| && i < m && nd.down[i] == DCollect(nd.router.current.value.key)
  }

  // How far it is to the end: the keys that have not been started, and one for the rest.
  function Rank(nd: Node): nat {
    if nd.router.Collecting? then |nd.router.whitelist| + 1 else 0
  }

  // Nothing has been started or completed in between.
  predicate Steady(nd: Node, nd1: Node) {
    && nd.router.Collecting? && nd1.router.Collecting? && nd1.router.whitelist == nd.router.whitelist
    && nd1.router.current.Some? == nd.router.current.Some?
  }

  lemma {:induction false} PlayOnConcat(c: Site, t: Trace, xs: seq<Event>, ys: seq<Event>)
    ensures PlayOn(c, t, xs + ys) == PlayOn(c, PlayOn(c, t, xs), ys)
    decreases |xs|
  {
    if xs == [] {
      assert xs + ys == ys;
    } else {
      assert (xs + ys)[1..] == xs[1..] + ys;
      PlayOnConcat(c, Happen(c, t, xs[0]), xs[1..], ys);
    }
  }

  // After the event, one message fewer has to be handled if it was an operator's turn.
  function Horizon(e: Event, m: nat): nat {
    if e.Operator? && m > 0 then m - 1 else m
  }

  // One event: records and control packets change nothing here, an operator takes the oldest message.
  lemma EventEffect(c: Site, t: Trace, e: Event, m: nat)
    requires t.nd.router.Collecting? && Due(t.nd, m) && !e.Turn?
    ensures var t1 := Happen(c, t, e);
            Steady(t.nd, t1.nd) && Due(t1.nd, Horizon(e, m))
  {
    var t1 := Happen(c, t, e);
    match e
    case Arrive(rec, hops, version, sender) =>
      ArriveEffect(c, t.nd, rec, hops, version, sender);
      assert t.nd.down <= t1.nd.down;
    case Control(packet, sender) => assert t.nd.down <= t1.nd.down;
    case Operator => OperatorEffect(c, t, m);
  }

  lemma OperatorEffect(c: Site, t: Trace, m: nat)
    requires t.nd.router.Collecting? && Due(t.nd, m)
    ensures var t1 := Happen(c, t, Operator);
            Steady(t.nd, t1.nd) && Due(t1.nd, Horizon(Operator, m))
  {
    var t1 := Happen(c, t, Operator);
    if t.nd.down != [] && t1.nd.router.current.Some? && t1.nd.router.current.value.copies != 0 {
      var i :| 0 <= i < |t.nd.down| && i < m && t.nd.down[i] == DCollect(t.nd.router.current.value.key);
      assert i > 0 && t1.nd.down[i - 1] == t.nd.down[i];
    }
  }

  // A turn: nothing, as long as the collection in progress is not answered; otherwise one step closer to the end.
  lemma TurnEffect(c: Site, t: Trace, pick: Key, m: nat)
    requires CanHappen(t.nd, Turn(pick)) && Due(t.nd, m)
    ensures var t1 := Happen(c, t, Turn(pick));
            if t.nd.router.current.Some? && !CanCollect(t.nd) then t1.nd == t.nd
            else Rank(t1.nd) < Rank(t.nd) && Due(t1.nd, |t1.nd.down|)
  {
    var nd := if CanCollect(t.nd) then Ship(c.part, t.nd) else t.nd;
    var nd1 := StartCollect(nd, pick);
    if !(t.nd.router.current.Some? && !CanCollect(t.nd)) && nd.router.whitelist != {} {
      assert nd1.down[|nd.down|] == DCollect(pick);
    }
  }

  // Due at any horizon at all is due within the queue.
  lemma DueInQueue(nd: Node, m: nat)
    requires Due(nd, m)
    ensures Due(nd, |nd.down|)
  {
  }

  // The end comes no less close, whatever happens, and a Collect that has been sent stays in the queue until it
  // is answered.
  lemma {:induction false} NeverFurther(c: Site, t: Trace, events: seq<Event>)
    requires Due(t.nd, |t.nd.down|)
    ensures var t1 := PlayOn(c, t, events);
            Rank(t1.nd) <= Rank(t.nd) && Due(t1.nd, |t1.nd.down|)
    decreases |events|
  {
    if events != [] {
      var t1 := Happen(c, t, events[0]);
      if CanHappen(t.nd, events[0]) {
        match events[0]
        case Turn(pick) => TurnEffect(c, t, pick, |t.nd.down|);
        case _ =>
          EventEffect(c, t, events[0], |t.nd.down|);
          DueInQueue(t1.nd, Horizon(events[0], |t.nd.down|));
      }
      NeverFurther(c, t1, events[1..]);
    }
  }

  // When the operators have got that far, the collection in progress is answered, or the end is closer anyhow.
  lemma {:induction false} OperatorsAnswer(c: Site, t: Trace, events: seq<Event>, m: nat)
    requires t.nd.router.Collecting? && Due(t.nd, m) && Operators(events) >= m
    ensures var t1 := PlayOn(c, t, events);
            && Due(t1.nd, |t1.nd.down|)
            && (Rank(t1.nd) < Rank(t.nd) || (Steady(t.nd, t1.nd) && Due(t1.nd, 0)))
    decreases |events|
  {
    if events == [] {
      DueInQueue(t.nd, m);
    } else {
      var e := events[0];
      var t1 := Happen(c, t, e);
      match e
      case Turn(pick) =>
        if CanHappen(t.nd, e) && (t.nd.router.current.None? || CanCollect(t.nd)) {
          TurnEffect(c, t, pick, m);
          NeverFurther(c, t1, events[1..]);
        } else {
          if CanHappen(t.nd, e) { TurnEffect(c, t, pick, m); }
          OperatorsAnswer(c, t1, events[1..], m);
        }
      case _ =>
        EventEffect(c, t, e, m);
        OperatorsAnswer(c, t1, events[1..], Horizon(e, m));
    }
  }

  // A fair stretch brings the end closer.
  lemma FairAdvances(c: Site, t: Trace, events: seq<Event>)
    requires t.nd.router.Collecting? && Due(t.nd, |t.nd.down|) && Fair(c, t, events)
    ensures var t1 := PlayOn(c, t, events);
            Rank(t1.nd) < Rank(t.nd) && Due(t1.nd, |t1.nd.down|)
  {
    var i :| 0 <= i < |events| && FairAt(c, t, events, i);
    var first, e, last := events[..i], events[i], events[i + 1..];
    OperatorsAnswer(c, t, first, |t.nd.down|);
    var mid := PlayOn(c, t, first);
    var next := Happen(c, mid, e);
    if mid.nd.router.Collecting? {
      TurnEffect(c, mid, e.pick, |mid.nd.down|);
    }
    assert Rank(next.nd) < Rank(t.nd) && Due(next.nd, |next.nd.down|);
    NeverFurther(c, next, last);
    PlayOnAround(c, t, events, i);
  }

  lemma PlayOnAround(c: Site, t: Trace, events: seq<Event>, i: nat)
    requires i < |events|
    ensures PlayOn(c, t, events) == PlayOn(c, Happen(c, PlayOn(c, t, events[..i]), events[i]), events[i + 1..])
  {
    var rest := events[i..];
    assert events == events[..i] + rest && rest[0] == events[i] && rest[1..] == events[i + 1..];
    PlayOnConcat(c, t, events[..i], rest);
  }

  /** Collection ends in every schedule, whatever arrives meanwhile and whichever keys are picked: after one fair
      stretch more than there are keys on the whitelist. */
  lemma {:induction false} CollectionEnds(c: Site, t: Trace, rounds: seq<seq<Event>>)
    requires (t.nd.router.Collecting? || t.nd.router.Finished?) && Due(t.nd, |t.nd.down|)
    requires AllFair(c, t, rounds) && |rounds| >= Rank(t.nd)
    ensures PlayAll(c, t, rounds).nd.router.Finished?
    decreases |rounds|
  {
    if rounds != [] {
      var t1 := PlayOn(c, t, rounds[0]);
      StaysInPhase(c, t, rounds[0]);
      if t.nd.router.Collecting? {
        FairAdvances(c, t, rounds[0]);
      }
      CollectionEnds(c, t1, rounds[1..]);
    }
  }

  lemma {:induction false} StaysInPhase(c: Site, t: Trace, events: seq<Event>)
    requires t.nd.router.Collecting? || t.nd.router.Finished?
    ensures var t1 := PlayOn(c, t, events);
            && (t1.nd.router.Collecting? || t1.nd.router.Finished?) && (t.nd.router.Finished? ==> t1 == t)
    decreases |events|
  {
    if events != [] {
      var t1 := Happen(c, t, events[0]);
      if CanHappen(t.nd, events[0]) && events[0].Arrive? {
        var e := events[0];
        ArriveEffect(c, t.nd, e.rec, e.hops, e.version, e.sender);
      }
      StaysInPhase(c, t1, events[1..]);
    }
  }
}
