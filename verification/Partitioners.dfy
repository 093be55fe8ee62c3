/**
  Choosing a worker for a key.
*/
module Partitioners {
  import opened Basics
  import opened Router

  // The hash of a key followed by a worker; any function will do.
  type Hash = (Key, Worker) -> nat

  // `max_by_key`: of several largest the last one. None is the program's panic on an empty set.
  function RendezvousSelect(hash: Hash, key: Key, options: seq<Worker>): Option<Worker> {
    if options == [] then None
    else
      var last := options[|options| - 1];
      match RendezvousSelect(hash, key, options[..|options| - 1])
      case None => Some(last)
      case Some(best) => Some(if hash(key, last) >= hash(key, best) then last else best)
  }

  function IndexSelect(i: nat, options: seq<Worker>): Option<Worker> {
    if options == [] then None else Some(options[i % |options|])
  }

  // The keys go round the options in their order.
  lemma IndexGoesRound(i: nat, options: seq<Worker>)
    requires options != []
    ensures i < |options| ==> IndexSelect(i, options) == Some(options[i])
    ensures IndexSelect(i + |options|, options) == IndexSelect(i, options)
  {
    WrapsAround(i, |options|);
  }

  lemma WrapsAround(i: nat, n: nat)
    requires n > 0
    ensures (i + n) % n == i % n && (i < n ==> i % n == i)
  {
    var d, r, d1, r1 := i / n, i % n, (i + n) / n, (i + n) % n;
    SmallMultiple(d1 - d - 1, n, r - r1) by {
      assert i == n * d + r && i + n == n * d1 + r1;
      assert n * (d1 - d - 1) == n * d1 - n * d - n;
    }
  }

  lemma SmallMultiple(z: int, n: int, x: int)
    requires 0 < n && n * z == x && -n < x < n
    ensures x == 0
  {
    if z > 0 { AtLeast(z, n); }
    if z < 0 { AtLeast(-z, n); }
  }

  lemma {:induction false} AtLeast(z: nat, n: nat)
    requires z > 0
    ensures n * z >= n
  {
    if z > 1 { AtLeast(z - 1, n); }
  }

  // The option at position i has the largest hash, and none behind it has the same.
  ghost predicate Wins(hash: Hash, key: Key, options: seq<Worker>, i: nat) {
    && i < |options|
    && (forall j :: 0 <= j < |options| ==> hash(key, options[j]) <= hash(key, options[i]))
    && (forall j :: i < j < |options| ==> hash(key, options[j]) < hash(key, options[i]))
  }

  lemma {:induction false} SelectsTheWinner(hash: Hash, key: Key, options: seq<Worker>)
    ensures match RendezvousSelect(hash, key, options)
            case None => options == []
            case Some(w) => exists i: nat :: Wins(hash, key, options, i) && options[i] == w
  {
    if options != [] {
      var last := |options| - 1;
      SelectsTheWinner(hash, key, options[..last]);
      if last == 0 {
        assert Wins(hash, key, options, 0);
      } else {
        var best := RendezvousSelect(hash, key, options[..last]).value;
        var i: nat :| Wins(hash, key, options[..last], i) && options[..last][i] == best;
        WinsNext(hash, key, options, i);
      }
    }
  }

  lemma WinsNext(hash: Hash, key: Key, options: seq<Worker>, i: nat)
    requires |options| > 1 && Wins(hash, key, options[..|options| - 1], i)
    ensures var last := |options| - 1;
            Wins(hash, key, options, if hash(key, options[last]) >= hash(key, options[i]) then last else i)
  {
    var rest := options[..|options| - 1];
    assert forall j :: 0 <= j < |rest| ==> rest[j] == options[j];
  }

  // Both partitioners choose one of the options, unless there are none.
  lemma SelectsAMember(hash: Hash, key: Key, options: seq<Worker>)
    ensures RendezvousSelect(hash, key, options).None? <==> options == []
    ensures IndexSelect(key, options).None? <==> options == []
    ensures options != [] ==> RendezvousSelect(hash, key, options).value in options && IndexSelect(key, options).value in options
  {
    SelectsTheWinner(hash, key, options);
  }

  // The options that are kept, in the same order.
  function Keep(options: seq<Worker>, kept: set<Worker>): seq<Worker> {
    if options == [] then []
    else
      var last := options[|options| - 1];
      Keep(options[..|options| - 1], kept) + (if last in kept then [last] else [])
  }

  lemma {:induction false} KeepMembers(options: seq<Worker>, kept: set<Worker>, w: Worker)
    ensures w in Keep(options, kept) <==> w in options && w in kept
  {
    if options != [] {
      KeepMembers(options[..|options| - 1], kept, w);
      assert options == options[..|options| - 1] + [options[|options| - 1]];
    }
  }

  // The largest hash among fewer options is no larger.
  lemma {:induction false} FewerIsSmaller(hash: Hash, key: Key, options: seq<Worker>, kept: set<Worker>)
    ensures RendezvousSelect(hash, key, Keep(options, kept)).Some? ==>
              && RendezvousSelect(hash, key, options).Some?
              && hash(key, RendezvousSelect(hash, key, Keep(options, kept)).value) <=
                 hash(key, RendezvousSelect(hash, key, options).value)
  {
    if options != [] {
      FewerIsSmaller(hash, key, options[..|options| - 1], kept);
      var rest := Keep(options[..|options| - 1], kept);
      if options[|options| - 1] in kept {
        assert Keep(options, kept)[..|rest|] == rest;
      } else {
        assert Keep(options, kept) == rest;
      }
    }
  }

  /** Minimal shuffling, for any hash, ties included: of a set of workers and a part of it in the same order,
      the key's owner is the same if and only if the larger set's choice is in the part. */
  lemma {:induction false} SameOwnerIff(hash: Hash, key: Key, options: seq<Worker>, kept: set<Worker>)
    ensures var large := RendezvousSelect(hash, key, options);
            var small := RendezvousSelect(hash, key, Keep(options, kept));
            options != [] ==> (small == large <==> large.value in kept)
  {
    if options != [] {
      var last := options[|options| - 1];
      var rest := Keep(options[..|options| - 1], kept);
      SameOwnerIff(hash, key, options[..|options| - 1], kept);
      FewerIsSmaller(hash, key, options[..|options| - 1], kept);
      SelectsAMember(hash, key, options);
      SelectsAMember(hash, key, Keep(options, kept));
      if last in kept {
        assert Keep(options, kept)[..|rest|] == rest;
      } else {
        assert Keep(options, kept) == rest;
      }
      forall w ensures w in Keep(options, kept) ==> w in kept {
        KeepMembers(options, kept, w);
      }
    }
  }

  /** When workers are added, a key that moves moves to one of them; when workers are removed, a key that moves
      was on one of them. */
  lemma MovesOnlyToAdded(hash: Hash, key: Key, before: seq<Worker>, after: seq<Worker>, added: set<Worker>)
    requires before != [] && before == Keep(after, (set w | w in after) - added)
    ensures RendezvousSelect(hash, key, after) != RendezvousSelect(hash, key, before) <==>
              RendezvousSelect(hash, key, after).Some? && RendezvousSelect(hash, key, after).value in added
  {
    var kept := (set w | w in after) - added;
    SameOwnerIff(hash, key, after, kept);
    SelectsAMember(hash, key, after);
  }

  lemma OneOption(hash: Hash, key: Key, a: Worker)
    ensures RendezvousSelect(hash, key, [a]) == Some(a)
  {
    SelectsAMember(hash, key, [a]);
  }

  // The order matters: with two equal hashes, swapping two workers moves a key although the set is the same.
  lemma OrderMatters(hash: Hash, key: Key, a: Worker, b: Worker)
    requires a != b && hash(key, a) == hash(key, b)
    ensures RendezvousSelect(hash, key, [a, b]) != RendezvousSelect(hash, key, [b, a])
  {
    var xs, ys := [a, b], [b, a];
    assert xs[..|xs| - 1] == [a] && ys[..|ys| - 1] == [b];
    OneOption(hash, key, a);
    OneOption(hash, key, b);
  }
}
