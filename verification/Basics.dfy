// Small vocabulary shared by all modules.
module Basics {
  datatype Option<+T> = None | Some(value: T) {
    function GetOr(default: T): T {
      match this
      case Some(v) => v
      case None => default
    }
  }

  type Worker = nat
  type Key = nat
  type Version = nat

  // The state one operator keeps for one key.
  type KeyState = int

  // A keyed data message without its timestamp.
  datatype Record = Record(key: Key, value: int)

  function Lookup<K, V>(m: map<K, V>, k: K): Option<V> {
    if k in m then Some(m[k]) else None
  }

  function Min(a: int, b: int): int {
    if a < b then a else b
  }

  // Concatenation is associative.
  lemma Regroup<T>(a: seq<T>, b: seq<T>, c: seq<T>)
    ensures a + (b + c) == (a + b) + c
  {
  }

  function Sum(xs: seq<nat>): nat {
    if xs == [] then 0 else Sum(xs[..|xs| - 1]) + xs[|xs| - 1]
  }

  lemma {:induction false} SumUpdate(xs: seq<nat>, i: nat, v: nat)
    requires i < |xs|
    ensures Sum(xs[i := v]) == Sum(xs) - xs[i] + v
  {
    var last := |xs| - 1;
    if i < last {
      SumUpdate(xs[..last], i, v);
      assert xs[i := v][..last] == xs[..last][i := v];
    } else {
      assert xs[i := v][..last] == xs[..last];
    }
  }

  // `merge_timestamps`: None as soon as one is missing, the minimum otherwise.
  function Merge(frontiers: seq<Option<int>>): Option<int> {
    if frontiers == [] then None
    else if |frontiers| == 1 then frontiers[0]
    else
      match (frontiers[0], Merge(frontiers[1..]))
      case (Some(a), Some(b)) => Some(Min(a, b))
      case _ => None
  }

  lemma {:induction false} MergeIsMin(frontiers: seq<Option<int>>)
    ensures Merge(frontiers).Some? ==>
              forall i :: 0 <= i < |frontiers| ==> frontiers[i].Some? && Merge(frontiers).value <= frontiers[i].value
    ensures Merge(frontiers).Some? ==> exists i :: 0 <= i < |frontiers| && Merge(frontiers) == frontiers[i]
    ensures frontiers != [] && (forall i :: 0 <= i < |frontiers| ==> frontiers[i].Some?) ==> Merge(frontiers).Some?
  {
    if |frontiers| > 1 {
      MergeIsMin(frontiers[1..]);
      assert forall i :: 1 <= i < |frontiers| ==> frontiers[i] == frontiers[1..][i - 1];
      assert forall i :: 0 <= i < |frontiers| - 1 ==> frontiers[1..][i] == frontiers[i + 1];
    }
  }
}
