/**
  The coordinator's view of its workers, and conditions that are evaluated on every change of it.
*/
module WatchMap {
  import opened Basics

  datatype Phase = Unknown | BuildComplete | Running | Snapshotting | Reconfiguring | Suspended | Completed

  datatype WorkerState = WorkerState(phase: Phase, snapshotVersion: Option<nat>)

  const DefaultState := WorkerState(Unknown, None)

  datatype Condition = All(phase: Phase) | One(worker: Worker, phase: Phase)

  predicate Holds(c: Condition, store: map<Worker, WorkerState>) {
    match c
    case All(phase) => forall w :: w in store ==> store[w].phase == phase
    case One(w, phase) => w in store && store[w].phase == phase
  }

  // `waiting`: the conditions registered and not yet fired.
  datatype Watch = Watch(store: map<Worker, WorkerState>, waiting: seq<Condition>)

  // What is kept and what fires, each in the order of registration.
  function Unsatisfied(waiting: seq<Condition>, store: map<Worker, WorkerState>): seq<Condition> {
    if waiting == [] then []
    else
      Unsatisfied(waiting[..|waiting| - 1], store) +
      (if Holds(waiting[|waiting| - 1], store) then [] else [waiting[|waiting| - 1]])
  }

  function Satisfied(waiting: seq<Condition>, store: map<Worker, WorkerState>): seq<Condition> {
    if waiting == [] then []
    else
      Satisfied(waiting[..|waiting| - 1], store) +
      (if Holds(waiting[|waiting| - 1], store) then [waiting[|waiting| - 1]] else [])
  }

  // Every change replaces the store and drops the conditions that hold of the new one.
  function Change(w: Watch, store: map<Worker, WorkerState>): Watch {
    Watch(store, Unsatisfied(w.waiting, store))
  }

  // After a change exactly the conditions that do not hold are still waiting.
  lemma {:induction false} StillWaitingIff(waiting: seq<Condition>, store: map<Worker, WorkerState>, c: Condition)
    ensures c in Unsatisfied(waiting, store) <==> c in waiting && !Holds(c, store)
    ensures c in Satisfied(waiting, store) <==> c in waiting && Holds(c, store)
  {
    if waiting != [] {
      var last := |waiting| - 1;
      StillWaitingIff(waiting[..last], store, c);
      assert waiting == waiting[..last] + [waiting[last]];
    }
  }

  // No notification is lost or duplicated by a change.
  lemma {:induction false} FiredOrWaiting(waiting: seq<Condition>, store: map<Worker, WorkerState>)
    ensures multiset(waiting) == multiset(Unsatisfied(waiting, store)) + multiset(Satisfied(waiting, store))
  {
    if waiting != [] {
      var last := |waiting| - 1;
      FiredOrWaiting(waiting[..last], store);
      OneOfTwo(waiting[..last], waiting[last], Unsatisfied(waiting[..last], store), Satisfied(waiting[..last], store));
      assert waiting == waiting[..last] + [waiting[last]];
      if Holds(waiting[last], store) {
        assert Unsatisfied(waiting, store) == Unsatisfied(waiting[..last], store);
      } else {
        assert Satisfied(waiting, store) == Satisfied(waiting[..last], store);
      }
    }
  }

  lemma OneOfTwo(all: seq<Condition>, c: Condition, xs: seq<Condition>, ys: seq<Condition>)
    requires multiset(all) == multiset(xs) + multiset(ys)
    ensures multiset(all + [c]) == multiset(xs + [c]) + multiset(ys)
    ensures multiset(all + [c]) == multiset(xs) + multiset(ys + [c])
  {
  }

  /** The map itself. A condition is not evaluated when it is registered, only on changes. */
  class WatchMapInner {
    var store: map<Worker, WorkerState>
    var waiting: seq<Condition>
    var fired: seq<Condition>            // notifications completed so far, oldest first

    function View(): Watch
      reads this
    {
      Watch(store, waiting)
    }

    constructor (store: map<Worker, WorkerState>)
      ensures View() == Watch(store, []) && fired == []
    {
      this.store, waiting, fired := store, [], [];
    }

    method FireNotifications()
      modifies this`waiting, this`fired
      ensures waiting == Unsatisfied(old(waiting), store)
      ensures fired == old(fired) + Satisfied(old(waiting), store)
    {
      var drained := waiting;
      waiting := [];
      var i := 0;
      while i < |drained|
        invariant 0 <= i <= |drained|
        invariant waiting == Unsatisfied(drained[..i], store)
        invariant fired == old(fired) + Satisfied(drained[..i], store)
      {
        assert drained[..i + 1][..i] == drained[..i];
        if Holds(drained[i], store) {
          fired := fired + [drained[i]];
        } else {
          waiting := waiting + [drained[i]];
        }
        i := i + 1;
      }
      assert drained[..i] == drained;
    }

    method Insert(key: Worker, value: WorkerState) returns (previous: Option<WorkerState>)
      modifies this
      ensures previous == Lookup(old(store), key)
      ensures View() == Change(old(View()), old(store)[key := value])
      ensures fired == old(fired) + Satisfied(old(waiting), store)
    {
      previous := Lookup(store, key);
      store := store[key := value];
      FireNotifications();
    }

    method Notify(condition: Condition)
      modifies this`waiting
      ensures View() == Watch(old(store), old(waiting) + [condition])
    {
      waiting := waiting + [condition];
    }

    method Remove(key: Worker) returns (value: Option<WorkerState>)
      modifies this
      ensures value == Lookup(old(store), key)
      ensures View() == Change(old(View()), old(store) - {key})
      ensures fired == old(fired) + Satisfied(old(waiting), store)
    {
      value := Lookup(store, key);
      store := store - {key};
      FireNotifications();
    }

    method ApplyOrDefault(key: Worker, func: WorkerState -> WorkerState)
      modifies this
      ensures View() == Change(old(View()), old(store)[key := func(Lookup(old(store), key).GetOr(DefaultState))])
      ensures fired == old(fired) + Satisfied(old(waiting), store)
    {
      var value := func(Lookup(store, key).GetOr(DefaultState));
      store := store[key := value];
      FireNotifications();
    }
  }
}
