/**
  The distributor as the program runs it: objects updated in place. Every method is specified by the
  function of Router.dfy of the same name, so all results about clusters are about these methods.
*/
module Distributor {
  import opened Basics
  import opened Router

  // The distributor's output and the clients of its remotes.
  class Links {
    var out: seq<seq<Packet>>
    var down: seq<Down>

    constructor (n: nat)
      ensures out == seq(n, i => []) && down == []
    {
      out := seq(n, i => []);
      down := [];
    }

    method Emit(d: Down)
      modifies this`down
      ensures down == old(down) + [d]
    {
      down := down + [d];
    }

    method Send(target: Worker, packet: Packet)
      requires target < |out|
      modifies this`out
      ensures out == old(out)[target := old(out)[target] + [packet]]
    {
      out := out[target := out[target] + [packet]];
    }

    // `runtime::communication::broadcast`
    method SendAll(remotes: map<Worker, Remote>, packet: Packet)
      modifies this`out
      ensures |out| == |old(out)|
      ensures forall y :: 0 <= y < |out| ==> out[y] == if y in remotes then old(out)[y] + [packet] else old(out)[y]
    {
      var y := 0;
      while y < |out|
        invariant |out| == |old(out)| && 0 <= y <= |out|
        invariant forall z :: 0 <= z < y ==> out[z] == if z in remotes then old(out)[z] + [packet] else old(out)[z]
        invariant forall z :: y <= z < |out| ==> out[z] == old(out)[z]
      {
        if y in remotes {
          Send(y, packet);
        }
        y := y + 1;
      }
    }
  }

  predicate Distinct(s: seq<Key>) {
    forall i, j :: 0 <= i < j < |s| ==> s[i] != s[j]
  }

  function Keys(s: seq<Key>): set<Key> {
    set k | k in s
  }

  /** Hands over one key after the other. Keys are taken off the end of the whitelist. */
  class CollectRouter {
    const version: Version
    const oldWorkers: seq<Worker>
    const newWorkers: seq<Worker>
    var whitelist: seq<Key>
    var buffered: seq<Buffered>
    var current: Option<InCollection>

    ghost predicate Valid()
      reads this
    {
      Distinct(whitelist)
    }

    function View(): Router
      reads this
    {
      Collecting(version, Keys(whitelist), oldWorkers, newWorkers, buffered, current)
    }

    constructor (keys: seq<Key>, oldWorkers: seq<Worker>, newWorkers: seq<Worker>, trigger: Version)
      requires Distinct(keys)
      ensures Valid()
      ensures View() == Collecting(trigger, Keys(keys), oldWorkers, newWorkers, [], None)
    {
      version := trigger;
      whitelist := keys;
      this.oldWorkers := oldWorkers;
      this.newWorkers := newWorkers;
      buffered := [];
      current := None;
    }

    method RouteMessage(part: Partitioner, rec: Record, hops: nat, me: Worker, sender: Worker)
      returns (target: Option<Worker>)
      requires Valid()
      modifies this`buffered
      ensures Valid()
      ensures Routing(View(), target) == RouteCollecting(part, old(View()), rec, hops, me, sender)
    {
      var newTarget := part(rec.key, newWorkers);
      var inWhitelist := rec.key in whitelist;
      var toBeBuffered := current.Some? && current.value.key == rec.key;
      if newTarget != me {
        if inWhitelist {
          return Some(me);
        } else if toBeBuffered {
          buffered := buffered + [Buffered(rec, hops)];
          return None;
        } else {
          return Some(newTarget);
        }
      }
      var oldTarget := part(rec.key, oldWorkers);
      if oldTarget == sender {
        return Some(me);
      }
      return Some(oldTarget);
    }

    // The key the next collection will be about.
    function NextKey(): Key
      reads this
    {
      if whitelist == [] then 0 else whitelist[|whitelist| - 1]
    }

    method SetAndEmitCollect(links: Links)
      requires Valid()
      modifies this`current, this`whitelist, links`down
      ensures Valid()
      ensures old(current.Some? || whitelist == []) ==>
                current == old(current) && whitelist == old(whitelist) && links.down == old(links.down)
      ensures old(current.None? && whitelist != []) ==>
                && current == Some(InCollection(old(NextKey()), None, 1))
                && Keys(whitelist) == old(Keys(whitelist)) - {old(NextKey())}
                && |whitelist| == |old(whitelist)| - 1
                && links.down == old(links.down) + [DCollect(old(NextKey()))]
    {
      if current.None? && whitelist != [] {
        var last := |whitelist| - 1;
        var key := whitelist[last];
        assert whitelist == whitelist[..last] + [key];
        whitelist := whitelist[..last];
        current := Some(InCollection(key, None, 1));
        links.Emit(DCollect(key));
      }
    }

    // Sends the collected state and then, oldest first, the records buffered meanwhile.
    method HandOver(part: Partitioner, links: Links, remotes: map<Worker, Remote>) returns (ok: bool)
      requires Valid() && current.Some?
      modifies this`current, this`buffered, links`out
      ensures Valid() && current == None && buffered == []
      ensures var c := old(current).value;
              var target := part(c.key, newWorkers);
              && ok == (target in remotes && target < |old(links.out)|)
              && links.out == if ok then old(links.out)[target := old(links.out)[target] +
                                  ([Acquire(c.key, c.collection)] + Released(old(buffered), version))]
                              else old(links.out)
    {
      var c := current.value;
      var target := part(c.key, newWorkers);
      current := None;
      ok := target in remotes && target < |links.out|;
      if ok {
        links.Send(target, Acquire(c.key, c.collection));
        ghost var q := links.out[target];
        var i := 0;
        assert q + Released(buffered[..0], version) == q;
        while i < |buffered|
          invariant 0 <= i <= |buffered| && buffered == old(buffered)
          invariant current == None && target < |links.out|
          invariant links.out == old(links.out)[target := q + Released(buffered[..i], version)]
        {
          links.Send(target, Data(buffered[i].rec, version, true, buffered[i].hops + 1));
          assert Released(buffered[..i + 1], version) ==
                 Released(buffered[..i], version) + [Data(buffered[i].rec, version, true, buffered[i].hops + 1)];
          assert links.out[target] == q + Released(buffered[..i + 1], version);
          i := i + 1;
        }
        assert buffered[..i] == buffered;
        assert links.out[target] == old(links.out)[target] + ([Acquire(c.key, c.collection)] + Released(buffered, version));
      }
      buffered := [];
    }

    // Hands over if the collection in progress has been answered.
    method TryHandOver(part: Partitioner, links: Links, remotes: map<Worker, Remote>, ghost nd: Node) returns (ok: bool)
      requires Valid()
      requires nd.router == View() && nd.remotes == remotes && nd.out == links.out && nd.down == links.down
      modifies this`current, this`buffered, links`out
      ensures Valid()
      ensures (if CanCollect(nd) then Ship(part, nd) else nd) ==
                nd.(router := View(), out := links.out, panicked := nd.panicked || !ok)
    {
      ok := true;
      if current.Some? && current.value.copies == 0 {
        ok := HandOver(part, links, remotes);
      }
    }

    // `done`: everything has been handed over and the upgrade announced. `nd` is the worker's state.
    method Lifecycle(part: Partitioner, links: Links, remotes: map<Worker, Remote>, ghost nd: Node)
      returns (done: bool, ok: bool)
      requires Valid()
      requires nd.router == View() && nd.remotes == remotes && nd.out == links.out && nd.down == links.down
      modifies this, links
      ensures Valid()
      ensures LifecycleCollecting(part, nd, old(NextKey())) ==
                nd.(router := if done then Finished(version, oldWorkers, newWorkers) else View(),
                    out := links.out, down := links.down, panicked := nd.panicked || !ok)
    {
      WhitelistEmpty(whitelist);
      ghost var nd1 := if CanCollect(nd) then Ship(part, nd) else nd;
      ok := TryHandOver(part, links, remotes, nd);
      SetAndEmitCollect(links);
      WhitelistEmpty(whitelist);
      ghost var nd2 := StartCollect(nd1, old(NextKey()));
      assert nd2 == nd1.(router := View(), down := links.down);
      done := current.None? && whitelist == [];
      if done {
        links.SendAll(remotes, Upgrade(version));
        assert links.out == Broadcast(nd2, Upgrade(version)).out;
      }
    }

    lemma WhitelistEmpty(keys: seq<Key>)
      ensures Keys(keys) == {} <==> keys == []
      ensures keys != [] ==> keys[|keys| - 1] in Keys(keys)
    {
      if keys != [] {
        assert keys[|keys| - 1] in Keys(keys);
      }
    }
  }

  // `MessageRouter`: while collecting the router is an object of its own.
  datatype RouterState = Plain(router: Router) | Collect(collect: CollectRouter)

  class Distributor {
    var state: RouterState
    var remotes: map<Worker, Remote>
    const links: Links
    const part: Partitioner
    const me: Worker
    var rescaled: bool
    var panicked: bool

    ghost predicate Valid()
      reads this, links, if state.Collect? then {state.collect} else {}
    {
      match state
      case Plain(router) => !router.Collecting?
      case Collect(collect) => collect.Valid()
    }

    function RouterView(): Router
      reads this, if state.Collect? then {state.collect} else {}
    {
      match state
      case Plain(router) => router
      case Collect(collect) => collect.View()
    }

    // The worker-local state; the store belongs to the operators downstream.
    function View(): Node
      reads this, links, if state.Collect? then {state.collect} else {}
    {
      Node(RouterView(), remotes, links.out, links.down, map[], rescaled, panicked)
    }

    constructor (part: Partitioner, me: Worker, workers: seq<Worker>, version: Version,
                 remotes: map<Worker, Remote>, n: nat)
      ensures Valid()
      ensures View() == Node(Normal(workers, version), remotes, seq(n, i => []), [], map[], false, false)
    {
      state := Plain(Normal(workers, version));
      this.remotes := remotes;
      links := new Links(n);
      this.part := part;
      this.me := me;
      rescaled := false;
      panicked := false;
    }

    // Routes a record that came from `sender` and passes it on; None is a record from the local upstream.
    method HandleRecord(rec: Record, hops: nat, msgVersion: Option<Version>, sender: Worker)
      requires Valid()
      modifies this, links, if state.Collect? then {state.collect} else {}
      ensures Valid() && View() == HandleData(part, old(View()), rec, hops, msgVersion, me, sender)
      ensures state.Collect? ==> state == old(state)
    {
      var target: Option<Worker>;
      var version := match state case Plain(r) => r.version case Collect(c) => c.version;
      if msgVersion.Some? && msgVersion.value > version {
        target := Some(me);
      } else {
        match state
        case Plain(router) =>
          var routing := RouteMessage(part, router, rec, hops, None, me, sender, remotes);
          state := Plain(routing.router);
          target := routing.target;
        case Collect(collect) =>
          target := collect.RouteMessage(part, rec, hops, me, sender);
      }
      if target.Some? {
        if target.value == me {
          links.Emit(DData(rec));
        } else if target.value in remotes && target.value < |links.out| {
          var past := state.Collect? || state.router.Finished? || (state.router.Normal? && rescaled);
          links.Send(target.value, Data(rec, version, past, hops + 1));
        } else {
          panicked := true;
        }
      }
    }

    method HandleRemote(packet: Packet, sender: Worker)
      requires Valid() && sender in remotes && sender < |links.out|
      modifies this, links, if state.Collect? then {state.collect} else {}
      ensures Valid() && View() == HandlePacket(part, old(View()), packet, me, sender)
    {
      match packet
      case Data(rec, version, _, hops) => HandleRecord(rec, hops, Some(version), sender);
      case Acquire(key, collection) => links.Emit(DAcquire(key, collection));
      case Upgrade(version) =>
        remotes := remotes[sender := remotes[sender].(lastVersion := Some(version))];
        links.Send(sender, AckUpgrade(version));
      case AckUpgrade(version) =>
        remotes := remotes[sender := remotes[sender].(lastAck := Some(version))];
    }

    method ConnectTo(newWorkers: seq<Worker>)
      modifies this`remotes
      ensures remotes == WithNewRemotes(old(remotes), newWorkers, me)
    {
      var i := 0;
      while i < |newWorkers|
        invariant 0 <= i <= |newWorkers|
        invariant remotes == WithNewRemotes(old(remotes), newWorkers[..i], me)
      {
        var wid := newWorkers[i];
        if wid !in remotes && wid != me {
          remotes := remotes[wid := Remote(None, None)];
        }
        OneMoreRemote(old(remotes), newWorkers, i);
        i := i + 1;
      }
      assert newWorkers[..i] == newWorkers;
    }

    lemma OneMoreRemote(remotes: map<Worker, Remote>, newWorkers: seq<Worker>, i: nat)
      requires i < |newWorkers|
      ensures var m := WithNewRemotes(remotes, newWorkers[..i], me);
              var wid := newWorkers[i];
              WithNewRemotes(remotes, newWorkers[..i + 1], me) ==
                if wid !in m && wid != me then m[wid := Remote(None, None)] else m
    {
      assert newWorkers[..i + 1] == newWorkers[..i] + [newWorkers[i]];
    }

    // Connects to the workers that are new, then starts interrogating unless a rescale is under way.
    method HandleRescaleMessage(newWorkers: seq<Worker>, trigger: Version)
      requires Valid()
      modifies this, links
      ensures Valid() && View() == HandleRescale(old(View()), newWorkers, trigger, me)
    {
      ConnectTo(newWorkers);
      rescaled := true;
      if state.Plain? && state.router.Normal? {
        links.Emit(DInterrogate);
        state := Plain(Interrogating(state.router.version, state.router.workers, newWorkers, {}, 1, trigger));
      }
    }
  
    // A fresh whitelist from the keys found by the interrogation, in some order.
    method InSomeOrder(keys: set<Key>) returns (s: seq<Key>)
      ensures Distinct(s) && Keys(s) == keys
    {
      s := [];
      var rest := keys;
      while rest != {}
        invariant rest <= keys && Distinct(s) && Keys(s) == keys - rest
        decreases rest
      {
        var k :| k in rest;
        assert k !in Keys(s) && Keys(s + [k]) == Keys(s) + {k};
        s := s + [k];
        rest := rest - {k};
      }
    }

    // One turn of the router's own work. `pick` is the key whose collection is started, if any.
    method RunLifecycle() returns (ghost pick: Key)
      requires Valid()
      modifies this, links, if state.Collect? then {state.collect} else {}
      ensures Valid()
      ensures old(View()).router.Collecting? && old(View()).router.whitelist != {} ==> pick in old(View()).router.whitelist
      ensures View() == Lifecycle(part, old(View()), pick)
    {
      pick := 0;
      match state
      case Collect(collect) =>
        pick := collect.NextKey();
        collect.WhitelistEmpty(collect.whitelist);
        var done, ok := collect.Lifecycle(part, links, remotes, View());
        panicked := panicked || !ok;
        if done {
          state := Plain(Finished(collect.version, collect.oldWorkers, collect.newWorkers));
        }
      case Plain(router) =>
        match router
        case Interrogating(_, oldWorkers, newWorkers, shared, copies, trigger) =>
          if copies == 0 {
            var keys := InSomeOrder(shared);
            var collect := new CollectRouter(keys, oldWorkers, newWorkers, trigger);
            state := RouterState.Collect(collect);
          }
        case Finished(version, oldWorkers, newWorkers) =>
          if AllUpgraded(remotes, version) {
            DropLeaving(oldWorkers, newWorkers);
            links.Emit(DRescale);
            state := Plain(Normal(newWorkers, version));
          }
        case _ =>
    }

    method DropLeaving(oldWorkers: seq<Worker>, newWorkers: seq<Worker>)
      modifies this`remotes
      ensures remotes == old(remotes) - Leaving(oldWorkers, newWorkers)
    {
      var i := 0;
      while i < |oldWorkers|
        invariant 0 <= i <= |oldWorkers|
        invariant remotes == old(remotes) - Leaving(oldWorkers[..i], newWorkers)
      {
        var wid := oldWorkers[i];
        if wid !in newWorkers {
          remotes := remotes - {wid};
        }
        assert oldWorkers[..i + 1] == oldWorkers[..i] + [wid];
        i := i + 1;
      }
      assert oldWorkers[..i] == oldWorkers;
    }
  }
}
