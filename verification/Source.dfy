/**
  The operator that polls a source's partitions, which move between workers like any keyed state.
*/
module Source {
  import opened Basics

  // A partition and how far it has been read.
  datatype Partition = Partition(key: Key, pos: nat)

  datatype Sent = Data(key: Key, value: int, time: int) | MaxEpoch

  // What a partition yields at a position, if there is anything, and whether it is finished there.
  datatype Script = Script(read: (Key, nat) -> Option<(int, int)>, finished: (Key, nat) -> bool)

  function Next(script: Script, p: Partition): Partition {
    if script.read(p.key, p.pos).Some? then p.(pos := p.pos + 1) else p
  }

  function Yield(script: Script, p: Partition): seq<Sent> {
    match script.read(p.key, p.pos)
    case Some((value, time)) => [Data(p.key, value, time)]
    case None => []
  }

  // Every partition is polled once, in order.
  function Poll(script: Script, ps: seq<Partition>): (r: (seq<Partition>, seq<Sent>))
    ensures |r.0| == |ps|
  {
    if ps == [] then ([], [])
    else
      var (rest, sent) := Poll(script, ps[..|ps| - 1]);
      var p := ps[|ps| - 1];
      (rest + [Next(script, p)], sent + Yield(script, p))
  }

  // Finished partitions are noted after having been polled.
  function Note(script: Script, ps: seq<Partition>, all: map<Key, bool>): map<Key, bool> {
    if ps == [] then all
    else
      var p := Next(script, ps[|ps| - 1]);
      var noted := Note(script, ps[..|ps| - 1], all);
      if script.finished(p.key, p.pos) then noted[p.key := true] else noted
  }

  lemma {:induction false} NoteKeeps(script: Script, ps: seq<Partition>, all: map<Key, bool>)
    ensures all.Keys <= Note(script, ps, all).Keys
  {
    if ps != [] { NoteKeeps(script, ps[..|ps| - 1], all); }
  }

  function Heard(all: map<Key, bool>, finished: seq<Key>): map<Key, bool> {
    if finished == [] then all else Heard(all, finished[..|finished| - 1])[finished[|finished| - 1] := true]
  }

  predicate AllDone(all: map<Key, bool>) {
    forall k :: k in all ==> all[k]
  }

  function Find(ps: seq<Partition>, key: Key): nat {
    if ps == [] || ps[0].key == key then 0 else 1 + Find(ps[1..], key)
  }

  lemma {:induction false} FindIs(ps: seq<Partition>, key: Key)
    ensures Find(ps, key) <= |ps|
    ensures forall i :: 0 <= i < Find(ps, key) ==> ps[i].key != key
    ensures Find(ps, key) < |ps| ==> ps[Find(ps, key)].key == key
  {
    if ps != [] && ps[0].key != key {
      FindIs(ps[1..], key);
      forall i | 0 <= i < Find(ps, key) ensures ps[i].key != key {
        if i > 0 { assert ps[i] == ps[1..][i - 1]; }
      }
    }
  }

  // `swap_remove`: the last partition takes the place of the removed one.
  function SwapRemove(ps: seq<Partition>, key: Key): seq<Partition> {
    FindIs(ps, key);
    var i := Find(ps, key);
    if i == |ps| then ps else ps[i := ps[|ps| - 1]][..|ps| - 1]
  }

  // No other partition has the key of the one at position i.
  predicate Only(ps: seq<Partition>, i: nat)
    requires i < |ps|
  {
    forall j :: 0 <= j < |ps| && j != i ==> ps[j].key != ps[i].key
  }

  predicate Distinct(ps: seq<Partition>) {
    forall i :: 0 <= i < |ps| ==> Only(ps, i)
  }

  lemma AddDistinct(ps: seq<Partition>, p: Partition)
    requires Distinct(ps) && forall i :: 0 <= i < |ps| ==> ps[i].key != p.key
    ensures Distinct(ps + [p])
  {
    forall i | 0 <= i < |ps + [p]| ensures Only(ps + [p], i) {
      if i < |ps| { assert Only(ps, i); }
    }
  }

  lemma RemoveDistinct(ps: seq<Partition>, key: Key)
    requires Distinct(ps)
    ensures Distinct(SwapRemove(ps, key))
  {
    FindIs(ps, key);
    var gone := Find(ps, key);
    var rest := SwapRemove(ps, key);
    forall i | 0 <= i < |rest| ensures Only(rest, i) {
      assert Only(ps, if i == gone then |ps| - 1 else i);
    }
  }

  // Exactly the partition asked for is gone.
  lemma RemovesOne(ps: seq<Partition>, key: Key, p: Partition)
    requires Distinct(ps)
    ensures p in SwapRemove(ps, key) <==> p in ps && p.key != key
  {
    FindIs(ps, key);
    var gone := Find(ps, key);
    var rest := SwapRemove(ps, key);
    if gone < |ps| { assert Only(ps, gone); }
    if p in ps && p.key != key {
      var i :| 0 <= i < |ps| && ps[i] == p;
      if gone < |ps| { assert rest[if i == |ps| - 1 then gone else i] == p; }
    }
  }

  // Worker ids are 64 bits wide; this is the complement of one.
  const Top := 0xFFFF_FFFF_FFFF_FFFF

  /** The clients after a rescale as the program computes them: it creates one where the complement of the new
      worker's id is its own id. */
  function Clients(clients: set<Worker>, newWorkers: seq<Worker>, me: Worker): set<Worker> {
    (set w | w in clients && w in newWorkers) + (set w | w in newWorkers && Top - w == me)
  }

  class SourceOperator {
    const script: Script
    const me: Worker
    var partitions: seq<Partition>
    var all: map<Key, bool>
    var maxSent: bool
    var clients: set<Worker>

    ghost predicate Valid()
      reads this
    {
      Distinct(partitions)
    }

    constructor (script: Script, me: Worker, parts: seq<Key>, persisted: seq<Partition>, clients: set<Worker>)
      requires Distinct(persisted)
      ensures Valid() && partitions == persisted && !maxSent && this.clients == clients
      ensures all == (map k | k in parts :: false) && this.script == script && this.me == me
    {
      this.script, this.me := script, me;
      partitions, maxSent := persisted, false;
      all := map k | k in parts :: false;
      this.clients := clients;
    }

    method PollAll() returns (sent: seq<Sent>)
      requires forall i :: 0 <= i < |partitions| ==> partitions[i].key in all
      modifies this`partitions, this`all
      ensures (partitions, sent) == Poll(script, old(partitions))
      ensures all == Note(script, old(partitions), old(all))
    {
      sent := [];
      var i := 0;
      ghost var was := partitions;
      while i < |partitions|
        invariant 0 <= i <= |partitions| == |was|
        invariant partitions == Poll(script, was[..i]).0 + was[i..]
        invariant sent == Poll(script, was[..i]).1
        invariant all == Note(script, was[..i], old(all))
      {
        PollStep(script, was, i, old(all));
        var p := partitions[i];
        assert p == was[i];
        Advance(Poll(script, was[..i]).0, was, i, Next(script, p));
        sent := sent + Yield(script, p);
        partitions := partitions[i := Next(script, p)];
        if script.finished(p.key, partitions[i].pos) {
          all := all[p.key := true];
        }
        i := i + 1;
      }
      assert was[..i] == was && was[i..] == [];
      assert Poll(script, was).0 + [] == Poll(script, was).0;
    }

    static lemma Advance(ready: seq<Partition>, was: seq<Partition>, i: nat, p: Partition)
      requires |ready| == i < |was|
      ensures (ready + was[i..])[i := p] == (ready + [p]) + was[i + 1..]
    {
    }

    static lemma PollStep(script: Script, was: seq<Partition>, i: nat, all: map<Key, bool>)
      requires i < |was|
      ensures var (ready, sent) := Poll(script, was[..i]);
              Poll(script, was[..i + 1]) == (ready + [Next(script, was[i])], sent + Yield(script, was[i]))
      ensures var p := Next(script, was[i]);
              var noted := Note(script, was[..i], all);
              Note(script, was[..i + 1], all) == if script.finished(p.key, p.pos) then noted[p.key := true] else noted
    {
      assert was[..i + 1][..i] == was[..i];
    }

    method Hear(heard: seq<Key>)
      requires forall k :: k in heard ==> k in all
      modifies this`all
      ensures all == Heard(old(all), heard)
    {
      var j := 0;
      while j < |heard|
        invariant 0 <= j <= |heard|
        invariant all == Heard(old(all), heard[..j])
      {
        assert heard[..j + 1][..j] == heard[..j];
        all := all[heard[j] := true];
        j := j + 1;
      }
      assert heard[..j] == heard;
    }

    // Polls, notes what has finished here or, according to `heard`, elsewhere, and ends time once.
    method OnSchedule(heard: seq<Key>) returns (sent: seq<Sent>)
      requires Valid() && forall i :: 0 <= i < |partitions| ==> partitions[i].key in all
      requires forall k :: k in heard ==> k in all
      modifies this`partitions, this`all, this`maxSent
      ensures Valid()
      ensures partitions == Poll(script, old(partitions)).0
      ensures all == Heard(Note(script, old(partitions), old(all)), heard)
      ensures maxSent == (old(maxSent) || AllDone(all))
      ensures sent == Poll(script, old(partitions)).1 + (if !old(maxSent) && AllDone(all) then [MaxEpoch] else [])
      ensures |partitions| == |old(partitions)|
      ensures forall i :: 0 <= i < |partitions| ==> Polled(script, old(partitions)[i], partitions[i], sent)
      ensures all.Keys == old(all).Keys
      ensures forall k :: k in all ==>
                (all[k] <==> old(all)[k] || k in heard
                             || exists p :: p in partitions && p.key == k && script.finished(k, p.pos))
      ensures MaxEpoch in sent <==> !old(maxSent) && forall k :: k in all ==> all[k]
    {
      PollDistinct(script, partitions);
      ScheduleIs(script, partitions, all, heard, maxSent);
      sent := PollAll();
      NoteKeeps(script, old(partitions), old(all));
      Hear(heard);
      if !maxSent && AllDone(all) {
        maxSent := true;
        sent := sent + [MaxEpoch];
      } else {
        assert sent + [] == sent;
      }
    }

    // A partition is assigned to this worker.
    method OnData(key: Key)
      requires Valid()
      modifies this`partitions
      ensures Valid()
      ensures partitions == if Find(old(partitions), key) < |old(partitions)| then old(partitions)
                            else old(partitions) + [Partition(key, 0)]
    {
      FindIs(partitions, key);
      if Find(partitions, key) == |partitions| {
        AddDistinct(partitions, Partition(key, 0));
        partitions := partitions + [Partition(key, 0)];
      }
    }

    method OnCollect(key: Key) returns (state: Option<nat>)
      requires Valid()
      modifies this`partitions
      ensures Valid() && partitions == SwapRemove(old(partitions), key)
      ensures state.None? <==> forall i :: 0 <= i < |old(partitions)| ==> old(partitions)[i].key != key
      ensures state.Some? ==> Partition(key, state.value) in old(partitions)
    {
      FindIs(partitions, key);
      var i := Find(partitions, key);
      if i == |partitions| {
        state := None;
      } else {
        state := Some(partitions[i].pos);
        RemoveDistinct(partitions, key);
        partitions := SwapRemove(partitions, key);
      }
    }

    // A partition that is moved here goes on where it was left.
    method OnAcquire(key: Key, pos: nat)
      requires Valid()
      modifies this`partitions
      ensures Valid() && Find(old(partitions), key) <= |old(partitions)|
      ensures var i := Find(old(partitions), key);
              partitions == if i < |old(partitions)| then old(partitions)[i := Partition(key, pos)]
                            else old(partitions) + [Partition(key, pos)]
    {
      FindIs(partitions, key);
      var i := Find(partitions, key);
      if i == |partitions| {
        AddDistinct(partitions, Partition(key, pos));
        partitions := partitions + [Partition(key, pos)];
      } else {
        ghost var was := partitions;
        partitions := partitions[i := Partition(key, pos)];
        forall j | 0 <= j < |partitions| ensures Only(partitions, j) {
          assert Only(was, j);
        }
      }
    }

    method OnRescale(newWorkers: seq<Worker>)
      modifies this`clients
      ensures clients == Clients(old(clients), newWorkers, me)
    {
      clients := set w | w in clients && w in newWorkers;
      var i := 0;
      while i < |newWorkers|
        invariant 0 <= i <= |newWorkers|
        invariant clients == (set w | w in old(clients) && w in newWorkers) + (set w | w in newWorkers[..i] && Top - w == me)
      {
        assert newWorkers[..i + 1] == newWorkers[..i] + [newWorkers[i]];
        if newWorkers[i] !in clients && Top - newWorkers[i] == me {
          clients := clients + {newWorkers[i]};
        }
        i := i + 1;
      }
      assert newWorkers[..i] == newWorkers;
    }
  }

  // ---------------------------------------------------------------- rescaling

  /** After a rescale the operator can reach every other worker if and only if every worker that was added has
      the complement of this worker's id. */
  lemma ReachesAllIff(clients: set<Worker>, newWorkers: seq<Worker>, me: Worker)
    ensures (forall w :: w in newWorkers && w != me ==> w in Clients(clients, newWorkers, me)) <==>
            (forall w :: w in newWorkers && w != me && w !in clients ==> Top - w == me)
  {
    if forall w :: w in newWorkers && w != me ==> w in Clients(clients, newWorkers, me) {
      forall w | w in newWorkers && w != me && w !in clients ensures Top - w == me {
        assert w in Clients(clients, newWorkers, me);
      }
    }
  }

  // With ids below 2^63 no worker that was added is ever reached.
  lemma NoneIsAdded(clients: set<Worker>, newWorkers: seq<Worker>, me: Worker)
    requires me < 0x8000_0000_0000_0000 && forall w :: w in newWorkers ==> w < 0x8000_0000_0000_0000
    ensures Clients(clients, newWorkers, me) == set w | w in clients && w in newWorkers
  {
    assert forall w :: w in newWorkers ==> Top - w != me;
  }

  // From one worker to two: the first does not reach the second.
  lemma FirstMissesSecond()
    ensures Clients({}, [0, 1], 0) == {}
  {
    NoneIsAdded({}, [0, 1], 0);
  }

  // The notes after a number of schedulings; `heard[i]` is what has been heard from others before the i-th.
  function Noted(script: Script, ps: seq<Partition>, all: map<Key, bool>, heard: seq<seq<Key>>): map<Key, bool> {
    if heard == [] then all
    else
      var mid := Noted(script, ps, all, heard[..|heard| - 1]);
      Heard(Note(script, Rounds(script, ps, |heard| - 1).0, mid), heard[|heard| - 1])
  }

  // What `me` says reaches w only if it is a client.
  function Reaches(clients: set<Worker>, w: Worker, finished: seq<seq<Key>>): seq<seq<Key>> {
    seq(|finished|, i requires 0 <= i < |finished| => if w in clients then finished[i] else [])
  }

  lemma {:induction false} NoteElsewhere(script: Script, ps: seq<Partition>, all: map<Key, bool>, k: Key)
    requires k in all && forall i :: 0 <= i < |ps| ==> ps[i].key != k
    ensures k in Note(script, ps, all) && Note(script, ps, all)[k] == all[k]
  {
    if ps != [] { NoteElsewhere(script, ps[..|ps| - 1], all, k); }
  }

  lemma {:induction false} HeardElsewhere(all: map<Key, bool>, finished: seq<Key>, k: Key)
    requires k in all && k !in finished
    ensures k in Heard(all, finished) && Heard(all, finished)[k] == all[k]
  {
    if finished != [] { HeardElsewhere(all, finished[..|finished| - 1], k); }
  }

  lemma {:induction false} RoundsKeepKeys(script: Script, ps: seq<Partition>, n: nat)
    ensures |Rounds(script, ps, n).0| == |ps| && forall i :: 0 <= i < |ps| ==> Rounds(script, ps, n).0[i].key == ps[i].key
  {
    if n > 0 {
      RoundsKeepKeys(script, ps, n - 1);
      PollKeeps(script, Rounds(script, ps, n - 1).0);
    }
  }

  lemma {:induction false} NeverNoted(script: Script, ps: seq<Partition>, all: map<Key, bool>, heard: seq<seq<Key>>, k: Key)
    requires k in all && !all[k] && (forall i :: 0 <= i < |ps| ==> ps[i].key != k)
    requires forall i :: 0 <= i < |heard| ==> k !in heard[i]
    ensures k in Noted(script, ps, all, heard) && !Noted(script, ps, all, heard)[k]
  {
    if heard != [] {
      NeverNoted(script, ps, all, heard[..|heard| - 1], k);
      var mid := Rounds(script, ps, |heard| - 1).0;
      RoundsKeepKeys(script, ps, |heard| - 1);
      NoteElsewhere(script, mid, Noted(script, ps, all, heard[..|heard| - 1]), k);
      HeardElsewhere(Note(script, mid, Noted(script, ps, all, heard[..|heard| - 1])), heard[|heard| - 1], k);
    }
  }

  /** So a worker that was added never learns that a partition of `me` has finished, and never ends time: however
      often it is scheduled, and whatever `me` announces. */
  lemma AddedWorkerNeverEnds(script: Script, clients: set<Worker>, newWorkers: seq<Worker>, me: Worker, w: Worker,
                             ps: seq<Partition>, all: map<Key, bool>, k: Key, finished: seq<seq<Key>>)
    requires w in newWorkers && w !in clients && Top - w != me
    requires k in all && !all[k] && forall i :: 0 <= i < |ps| ==> ps[i].key != k
    ensures !AllDone(Noted(script, ps, all, Reaches(Clients(clients, newWorkers, me), w, finished)))
  {
    NeverNoted(script, ps, all, Reaches(Clients(clients, newWorkers, me), w, finished), k);
  }

  // ---------------------------------------------------------------- one scheduling

  lemma {:induction false} NotedKeys(script: Script, ps: seq<Partition>, all: map<Key, bool>)
    requires forall i :: 0 <= i < |ps| ==> ps[i].key in all
    ensures Note(script, ps, all).Keys == all.Keys
  {
    if ps != [] {
      NotedKeys(script, ps[..|ps| - 1], all);
      assert Next(script, ps[|ps| - 1]).key == ps[|ps| - 1].key;
    }
  }

  lemma {:induction false} HeardKeys(all: map<Key, bool>, finished: seq<Key>)
    requires forall j :: 0 <= j < |finished| ==> finished[j] in all
    ensures Heard(all, finished).Keys == all.Keys
  {
    if finished != [] { HeardKeys(all, finished[..|finished| - 1]); }
  }

  lemma {:induction false} NoteIs(script: Script, ps: seq<Partition>, all: map<Key, bool>, k: Key)
    requires k in all && forall i :: 0 <= i < |ps| ==> ps[i].key in all
    ensures k in Note(script, ps, all)
    ensures Note(script, ps, all)[k] <==>
              all[k] || exists p :: p in Poll(script, ps).0 && p.key == k && script.finished(k, p.pos)
  {
    if ps != [] {
      var last := |ps| - 1;
      NoteIs(script, ps[..last], all, k);
      var p := Next(script, ps[last]);
      assert p.key == ps[last].key;
      assert forall q :: q in Poll(script, ps).0 <==> q in Poll(script, ps[..last]).0 || q == p;
    }
  }

  lemma {:induction false} HeardIs(all: map<Key, bool>, finished: seq<Key>, k: Key)
    requires k in all && forall j :: 0 <= j < |finished| ==> finished[j] in all
    ensures k in Heard(all, finished)
    ensures Heard(all, finished)[k] <==> all[k] || k in finished
  {
    if finished != [] {
      var last := |finished| - 1;
      HeardIs(all, finished[..last], k);
      assert finished == finished[..last] + [finished[last]];
    }
  }

  lemma {:induction false} PollSendsData(script: Script, ps: seq<Partition>)
    ensures MaxEpoch !in Poll(script, ps).1
  {
    if ps != [] { PollSendsData(script, ps[..|ps| - 1]); }
  }

  // What is known to be finished after a scheduling, and when the largest epoch is sent.
  lemma ScheduleIs(script: Script, ps: seq<Partition>, all: map<Key, bool>, heard: seq<Key>, ended: bool)
    requires Distinct(ps) && (forall i :: 0 <= i < |ps| ==> ps[i].key in all) && forall k :: k in heard ==> k in all
    ensures var (ps1, sent) := Poll(script, ps);
            var all1 := Heard(Note(script, ps, all), heard);
            var out := sent + (if !ended && AllDone(all1) then [MaxEpoch] else []);
            && (forall i :: 0 <= i < |ps| ==> Polled(script, ps[i], ps1[i], out))
            && all1.Keys == all.Keys
            && (forall k :: k in all ==>
                  (all1[k] <==> all[k] || k in heard || exists p :: p in ps1 && p.key == k && script.finished(k, p.pos)))
            && (MaxEpoch in out <==> !ended && AllDone(all1))
  {
    var (ps1, sent) := Poll(script, ps);
    var all1 := Heard(Note(script, ps, all), heard);
    var last := if !ended && AllDone(all1) then [MaxEpoch] else [];
    forall i | 0 <= i < |ps| ensures Polled(script, ps[i], ps1[i], sent + last) {
      assert Only(ps, i);
      PolledEach(script, ps, i);
      OfConcat(sent, last, ps[i].key);
      assert last != [] ==> last[..0] == [];
    }
    PollSendsData(script, ps);
    ScheduleNotes(script, ps, all, heard);
  }

  lemma ScheduleNotes(script: Script, ps: seq<Partition>, all: map<Key, bool>, heard: seq<Key>)
    requires (forall i :: 0 <= i < |ps| ==> ps[i].key in all) && forall k :: k in heard ==> k in all
    ensures var ps1 := Poll(script, ps).0;
            var all1 := Heard(Note(script, ps, all), heard);
            && all1.Keys == all.Keys
            && (forall k :: k in all ==>
                  (all1[k] <==> all[k] || k in heard || exists p :: p in ps1 && p.key == k && script.finished(k, p.pos)))
  {
    var noted := Note(script, ps, all);
    NotedKeys(script, ps, all);
    HeardKeys(noted, heard);
    forall k | k in all
      ensures k in Heard(noted, heard)
      ensures Heard(noted, heard)[k] <==>
                all[k] || k in heard || exists p :: p in Poll(script, ps).0 && p.key == k && script.finished(k, p.pos)
    {
      NoteIs(script, ps, all, k);
      HeardIs(noted, heard, k);
    }
  }

  // ---------------------------------------------------------------- reading a partition

  lemma {:induction false} PollKeeps(script: Script, ps: seq<Partition>)
    ensures forall i :: 0 <= i < |ps| ==> Poll(script, ps).0[i] == Next(script, ps[i])
  {
    if ps != [] { PollKeeps(script, ps[..|ps| - 1]); }
  }

  lemma PollDistinct(script: Script, ps: seq<Partition>)
    requires Distinct(ps)
    ensures Distinct(Poll(script, ps).0)
  {
    PollKeeps(script, ps);
    forall i | 0 <= i < |ps| ensures Only(Poll(script, ps).0, i) {
      assert Only(ps, i);
    }
  }

  function Of(sent: seq<Sent>, key: Key): (r: seq<Sent>)
    ensures forall j :: 0 <= j < |r| ==> r[j].Data? && r[j].key == key
  {
    if sent == [] then []
    else
      var last := sent[|sent| - 1];
      Of(sent[..|sent| - 1], key) + (if last.Data? && last.key == key then [last] else [])
  }

  lemma {:induction false} OfConcat(a: seq<Sent>, b: seq<Sent>, key: Key)
    ensures Of(a + b, key) == Of(a, key) + Of(b, key)
  {
    if b == [] {
      assert a + b == a;
    } else {
      OfConcat(a, b[..|b| - 1], key);
      assert (a + b)[..|a + b| - 1] == a + b[..|b| - 1];
    }
  }

  lemma OfYield(script: Script, p: Partition, key: Key)
    ensures Of(Yield(script, p), key) == if p.key == key then Yield(script, p) else []
  {
    if Yield(script, p) != [] { assert Yield(script, p)[..0] == []; }
  }

  // One round of polling yields, for a partition, what it has at its position.
  lemma {:induction false} PollOf(script: Script, ps: seq<Partition>, i: nat)
    requires i < |ps| && Only(ps, i)
    ensures Of(Poll(script, ps).1, ps[i].key) == Yield(script, ps[i])
  {
    var last := |ps| - 1;
    OfConcat(Poll(script, ps[..last]).1, Yield(script, ps[last]), ps[i].key);
    OfYield(script, ps[last], ps[i].key);
    if i < last {
      assert Only(ps[..last], i);
      PollOf(script, ps[..last], i);
    } else {
      PollElsewhere(script, ps[..last], ps[last].key);
    }
  }

  // One scheduling of a partition, in terms of the partition itself.
  ghost predicate Polled(script: Script, p: Partition, p1: Partition, sent: seq<Sent>) {
    match script.read(p.key, p.pos)
    case Some((value, time)) => p1 == Partition(p.key, p.pos + 1) && Of(sent, p.key) == [Data(p.key, value, time)]
    case None => p1 == p && Of(sent, p.key) == []
  }

  lemma {:induction false} PollElsewhere(script: Script, ps: seq<Partition>, key: Key)
    requires forall i :: 0 <= i < |ps| ==> ps[i].key != key
    ensures Of(Poll(script, ps).1, key) == []
  {
    if ps != [] {
      var last := |ps| - 1;
      PollElsewhere(script, ps[..last], key);
      OfConcat(Poll(script, ps[..last]).1, Yield(script, ps[last]), key);
      OfYield(script, ps[last], key);
    }
  }

  lemma PolledEach(script: Script, ps: seq<Partition>, i: nat)
    requires i < |ps| && Only(ps, i)
    ensures Polled(script, ps[i], Poll(script, ps).0[i], Poll(script, ps).1)
  {
    PollOf(script, ps, i);
    PollKeeps(script, ps);
  }

  function Rounds(script: Script, ps: seq<Partition>, n: nat): (seq<Partition>, seq<Sent>) {
    if n == 0 then (ps, [])
    else
      var (mid, sent) := Rounds(script, ps, n - 1);
      var (end, more) := Poll(script, mid);
      (end, sent + more)
  }

  // What was sent for p is, one by one, what the partition has from there on.
  ghost predicate ReadUpTo(script: Script, p: Partition, end: Partition, sent: seq<Sent>) {
    && end.key == p.key && end.pos == p.pos + |Of(sent, p.key)|
    && forall j :: 0 <= j < |Of(sent, p.key)| ==>
         script.read(p.key, p.pos + j) == Some((Of(sent, p.key)[j].value, Of(sent, p.key)[j].time))
  }

  predicate HasItem(script: Script, p: Partition, j: nat) {
    script.read(p.key, p.pos + j).Some?
  }

  // The next n positions have something to read.
  ghost predicate Readable(script: Script, p: Partition, n: nat) {
    forall j :: 0 <= j < n ==> HasItem(script, p, j)
  }

  lemma ReadOn(script: Script, p: Partition, mid: Partition, sent: seq<Sent>, end: Partition, more: seq<Sent>)
    requires ReadUpTo(script, p, mid, sent) && ReadUpTo(script, mid, end, more)
    ensures ReadUpTo(script, p, end, sent + more)
  {
    OfConcat(sent, more, p.key);
    forall j | 0 <= j < |Of(sent + more, p.key)|
      ensures script.read(p.key, p.pos + j) == Some((Of(sent + more, p.key)[j].value, Of(sent + more, p.key)[j].time))
    {
      if j >= |Of(sent, p.key)| {
        assert p.pos + j == mid.pos + (j - |Of(sent, p.key)|);
      }
    }
  }

  lemma PolledIsRead(script: Script, p: Partition, p1: Partition, sent: seq<Sent>)
    requires Polled(script, p, p1, sent)
    ensures ReadUpTo(script, p, p1, sent)
    ensures script.read(p.key, p.pos).Some? ==> p1.pos == p.pos + 1
  {
  }

  lemma RoundReads(script: Script, ps: seq<Partition>, i: nat)
    requires i < |ps| && Only(ps, i)
    ensures var (end, sent) := Poll(script, ps);
            && Only(end, i) && ReadUpTo(script, ps[i], end[i], sent)
            && (HasItem(script, ps[i], 0) ==> end[i].pos == ps[i].pos + 1)
  {
    PollKeeps(script, ps);
    PolledEach(script, ps, i);
    PolledIsRead(script, ps[i], Poll(script, ps).0[i], Poll(script, ps).1);
    assert forall j :: 0 <= j < |ps| ==> Poll(script, ps).0[j].key == ps[j].key;
  }

  /** Each scheduling reads one position further as long as there is something to read. */
  lemma {:induction false} RoundsRead(script: Script, ps: seq<Partition>, n: nat, i: nat)
    requires i < |ps| && Only(ps, i)
    ensures var (end, sent) := Rounds(script, ps, n);
            && |end| == |ps| && Only(end, i) && ReadUpTo(script, ps[i], end[i], sent)
            && (Readable(script, ps[i], n) ==> end[i].pos == ps[i].pos + n)
  {
    if n > 0 {
      RoundsRead(script, ps, n - 1, i);
      var (mid, sent) := Rounds(script, ps, n - 1);
      RoundReads(script, mid, i);
      ReadOn(script, ps[i], mid[i], sent, Poll(script, mid).0[i], Poll(script, mid).1);
      if Readable(script, ps[i], n) {
        assert HasItem(script, ps[i], n - 1);
        assert Readable(script, ps[i], n - 1);
      }
    }
  }

  /** A partition that moves is read without gap or repetition: what the old worker reads until it gives the
      partition up and what the new one reads from then on are one stretch of its contents. */
  lemma MoveContinues(script: Script, before: seq<Partition>, n: nat, i: nat, after: seq<Partition>, m: nat)
    requires i < |before| && Only(before, i)
    requires forall j :: 0 <= j < |after| ==> after[j].key != before[i].key
    ensures var (left, sent) := Rounds(script, before, n);
            && |left| == |before|
            && var (end, more) := Rounds(script, after + [left[i]], m);
            && |end| == |after| + 1 && ReadUpTo(script, before[i], end[|after|], sent + more)
            && (Readable(script, before[i], n + m) ==> end[|after|].pos == before[i].pos + n + m)
  {
    RoundsRead(script, before, n, i);
    var (left, sent) := Rounds(script, before, n);
    var ps := after + [left[i]];
    assert Only(ps, |after|);
    RoundsRead(script, ps, m, |after|);
    var (end, more) := Rounds(script, ps, m);
    ReadOn(script, before[i], left[i], sent, end[|after|], more);
    if Readable(script, before[i], n + m) {
      assert Readable(script, before[i], n);
      forall j: nat | j < m ensures HasItem(script, left[i], j) {
        assert HasItem(script, before[i], n + j);
      }
    }
  }

  // ---------------------------------------------------------------- the end of time

  // Whether the largest epoch has been sent after a number of schedulings, and everything that has been sent.
  function Scheduled(script: Script, ps: seq<Partition>, all: map<Key, bool>, heard: seq<seq<Key>>): (bool, seq<Sent>) {
    if heard == [] then (false, [])
    else
      var (ended, sent) := Scheduled(script, ps, all, heard[..|heard| - 1]);
      var polled := Poll(script, Rounds(script, ps, |heard| - 1).0).1;
      var done := AllDone(Noted(script, ps, all, heard));
      (ended || done, sent + polled + (if !ended && done then [MaxEpoch] else []))
  }

  predicate DoneAfter(script: Script, ps: seq<Partition>, all: map<Key, bool>, heard: seq<seq<Key>>, i: nat)
    requires i <= |heard|
  {
    var noted := Noted(script, ps, all, heard[..i]);
    forall k :: k in noted ==> noted[k]
  }

  // After some scheduling every partition was known to have finished.
  ghost predicate EverDone(script: Script, ps: seq<Partition>, all: map<Key, bool>, heard: seq<seq<Key>>) {
    exists i :: 0 < i <= |heard| && DoneAfter(script, ps, all, heard, i)
  }

  lemma EverDoneStep(script: Script, ps: seq<Partition>, all: map<Key, bool>, heard: seq<seq<Key>>)
    requires heard != []
    ensures EverDone(script, ps, all, heard) <==>
              EverDone(script, ps, all, heard[..|heard| - 1]) || AllDone(Noted(script, ps, all, heard))
  {
    var last := |heard| - 1;
    assert heard[..|heard|] == heard;
    forall i | 0 < i <= last ensures DoneAfter(script, ps, all, heard[..last], i) == DoneAfter(script, ps, all, heard, i) {
      assert heard[..last][..i] == heard[..i];
    }
    assert DoneAfter(script, ps, all, heard, |heard|) == AllDone(Noted(script, ps, all, heard));
  }

  /** However often the source is scheduled, it ends time at most once, and it does so as soon as every partition
      is known to have finished, here or, by what others have announced, elsewhere. */
  lemma {:induction false} EndsTimeOnce(script: Script, ps: seq<Partition>, all: map<Key, bool>, heard: seq<seq<Key>>)
    ensures var (ended, sent) := Scheduled(script, ps, all, heard);
            && (ended <==> EverDone(script, ps, all, heard))
            && multiset(sent)[MaxEpoch] == (if EverDone(script, ps, all, heard) then 1 else 0)
  {
    if heard != [] {
      EndsTimeOnce(script, ps, all, heard[..|heard| - 1]);
      EverDoneStep(script, ps, all, heard);
      PollSendsData(script, Rounds(script, ps, |heard| - 1).0);
    }
  }
}
