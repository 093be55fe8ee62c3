/**
  Workers that leave and come back. The last message of a worker that has left may still be unread when the
  worker is added again; when it is read then, it takes the new worker off the watch list. This module shows
  exactly when adding workers may lead to a commit that is not complete.
*/
module LateRemoval {
  import opened Basics
  import opened WatchMap
  import opened Coordinator
  import opened CoordinatorRounds

  // ---------------------------------------------------------------- a snapshot without one worker

  function Except(n: nat, u: Worker): (ws: seq<Worker>)
    ensures forall w: Worker :: w in ws <==> w < n && w != u
  {
    if n == 0 then [] else Except(n - 1, u) + (if n - 1 == u then [] else [n - 1])
  }

  lemma {:induction false} ExceptIsDistinct(n: nat, u: Worker)
    ensures Distinct(Except(n, u))
  {
    if n > 0 {
      ExceptIsDistinct(n - 1, u);
      var rest := Except(n - 1, u);
      assert forall i :: 0 <= i < |rest| ==> rest[i] in rest;
    }
  }

  function SnapshotSteps(n: nat, u: Worker): seq<Step> {
    (Round(Below(n)) + [Proceed]) + Round(Except(n, u)) + [ReadStale(u)] + [Proceed]
  }

  lemma AsksForSnapshot(s: System, n: nat)
    requires Ready(s, n)
    ensures var t := Apply(s, RequestSnapshot);
            var v := NextVersion(s.snapshotVersion);
            && Told(t, n, Begin(TakeSnapshot(v)), Below(n)) && t.pc == SnapshotBegun(v)
            && t.watch.waiting == [All(Snapshotting)] && Quietly(s, t) && t.stale == s.stale
  {
    var t := Apply(s, RequestSnapshot);
    var v := NextVersion(s.snapshotVersion);
    forall w | w in Below(n) ensures w < n && Before(t, Begin(TakeSnapshot(v)), w) {
      assert Free(s, w);
    }
  }

  // Everyone but u completes the snapshot; then u is taken off the watch list.
  lemma LosesOne(s: System, n: nat, v: nat, u: Worker)
    requires Told(s, n, End(TakeSnapshot(v)), Below(n)) && s.pc == SnapshotRunning(v) && s.watch.waiting == [All(Running)]
    requires u < n && u in s.stale
    ensures var t := Apply(Run(s, Round(Except(n, u))), ReadStale(u));
            && t.pc == SnapshotRunning(v) && t.watch.waiting == [] && t.active == s.active && t.commits == s.commits
            && u in t.procs && u in s.procs && t.procs[u] == s.procs[u]
  {
    ExceptIsDistinct(n, u);
    var ws := Except(n, u);
    forall w | w in ws ensures Before(s, End(TakeSnapshot(v)), w) {
      assert w in Below(n);
    }
    RoundEffect(s, End(TakeSnapshot(v)), ws);
    var mid := Run(s, Round(ws));
    assert u in Below(n) && Before(s, End(TakeSnapshot(v)), u) && u !in ws;
    RestRuns(s, mid, n, v, u);
    StaleFires(mid, u, ReadStale(u));
  }

  lemma RestRuns(s: System, mid: System, n: nat, v: nat, u: Worker)
    requires Peopled(s, n) && OnlyWorkers(s, mid, Except(n, u)) && Went(s, mid, End(TakeSnapshot(v)), Except(n, u))
    requires s.watch.waiting == [All(Running)]
    ensures forall w :: w in mid.watch.store && w != u ==> mid.watch.store[w].phase == Running
    ensures forall c :: c in mid.watch.waiting ==> c == All(Running)
  {
    forall w | w in mid.watch.store && w != u ensures mid.watch.store[w].phase == Running {
      assert w in Except(n, u) && WentOne(s, mid, End(TakeSnapshot(v)), w);
    }
  }

  lemma StaleFires(s: System, u: Worker, step: Step)
    requires step == ReadStale(u) && u in s.stale
    requires forall w :: w in s.watch.store && w != u ==> s.watch.store[w].phase == Running
    requires forall c :: c in s.watch.waiting ==> c == All(Running)
    ensures var t := Apply(s, step);
            && t.watch.waiting == [] && t.pc == s.pc && t.active == s.active && t.commits == s.commits && t.procs == s.procs
  {
    var store := s.watch.store - {u};
    assert Holds(All(Running), store);
    forall c ensures c !in Unsatisfied(s.watch.waiting, store) {
      StillWaitingIff(s.watch.waiting, store, c);
    }
    NoneWaiting(Unsatisfied(s.watch.waiting, store));
  }

  lemma CommitsTooEarly(s: System, v: nat, u: Worker, step: Step)
    requires step.Proceed? && s.pc == SnapshotRunning(v) && s.watch.waiting == [] && u in s.active
    requires u in s.procs && v !in s.procs[u].taken
    ensures var t := Apply(s, step); t.commits != [] && !Complete(t.commits[|t.commits| - 1])
  {
    ProceedIs(s, step);
    var t := Continue(s);
    var c := t.commits[|s.commits|];
    assert c.active == s.active && u !in c.complete;
  }

  lemma SnapshotStepsIs(s: System, n: nat, u: Worker)
    ensures var mid := Run(s, Round(Below(n)) + [Proceed]);
            Run(s, SnapshotSteps(n, u)) == Apply(Apply(Run(mid, Round(Except(n, u))), ReadStale(u)), Proceed)
  {
    var a, b := Round(Below(n)) + [Proceed], Round(Except(n, u));
    RunFour(s, a, b, [ReadStale(u)], [Proceed]);
    RunOne(Run(Run(s, a), b), ReadStale(u));
    RunOne(Apply(Run(Run(s, a), b), ReadStale(u)), Proceed);
  }

  /** If the former connection of an active worker has not been read to the end, a snapshot can be committed that
      this worker has not taken. */
  lemma SnapshotWithoutOne(s: System, n: nat, u: Worker)
    requires Ready(s, n) && u < n && u in s.stale && u in s.procs && NextVersion(s.snapshotVersion) !in s.procs[u].taken
    ensures var t := Run(Apply(s, RequestSnapshot), SnapshotSteps(n, u));
            t.commits != [] && !Complete(t.commits[|t.commits| - 1])
  {
    AsksForSnapshot(s, n);
    SnapshotGoesOn(Apply(s, RequestSnapshot), n, NextVersion(s.snapshotVersion), u);
  }

  lemma SnapshotGoesOn(s: System, n: nat, v: nat, u: Worker)
    requires Told(s, n, Begin(TakeSnapshot(v)), Below(n)) && s.pc == SnapshotBegun(v)
    requires s.watch.waiting == [All(Snapshotting)] && u < n && u in s.stale && u in s.procs && v !in s.procs[u].taken
    ensures var t := Run(s, SnapshotSteps(n, u)); t.commits != [] && !Complete(t.commits[|t.commits| - 1])
  {
    SnapshotStepsIs(s, n, u);
    BeginAll(s, n, TakeSnapshot(v));
    var mid := Run(s, Round(Below(n)) + [Proceed]);
    LosesOne(mid, n, v, u);
    CommitsTooEarly(Apply(Run(mid, Round(Except(n, u))), ReadStale(u)), v, u, Proceed);
  }

  // ---------------------------------------------------------------- exactly when adding workers is safe

  ghost predicate AllComplete(s: System) {
    forall c :: c in s.commits ==> Complete(c)
  }

  /** All that may follow this request without another unclean one commits complete versions only. */
  ghost predicate SafeToScale(s: System, desired: nat) {
    forall more :: Clean(Apply(s, RequestScale(desired)), more) ==> AllComplete(Run(Apply(s, RequestScale(desired)), more))
  }

  predicate Reconnects(s: System, desired: nat) {
    exists w :: w in Fresh(s.active, desired) && w in s.stale
  }

  ghost predicate SomeoneDone(s: System) {
    exists w :: w in s.active && w in s.procs && s.procs[w].doing == Done
  }

  // A worker that has finished takes no part in a change of the number of workers, which therefore never ends.
  ghost predicate Stuck(s: System, w: Worker) {
    && w in s.procs && s.procs[w].doing == Done
    && (s.procs[w].messages == [] || s.procs[w].messages == [ExecutionComplete])
    && w in s.watch.store && (s.watch.store[w].phase == Running || s.watch.store[w].phase == Completed)
    && w !in s.stale
    && match s.pc
       case Building(added, after) => after.Some? && w !in added
       case Starting(added, after) => after.Some? && w !in added
       case ReconfigureBegun(_, _) => All(Reconfiguring) in s.watch.waiting
       case _ => false
  }

  lemma StuckInbound(s: System, w: Worker, x: Worker, step: Step)
    requires Stuck(s, w) && (step == Inbound(x) || step == ReadStale(x))
    ensures Stuck(Apply(s, step), w) && Apply(s, step).commits == s.commits
  {
    var t := Apply(s, step);
    if t != s {
      StillWaitingIff(s.watch.waiting, t.watch.store, All(Reconfiguring));
    }
  }

  lemma StuckStays(s: System, w: Worker, step: Step)
    requires Stuck(s, w)
    ensures Stuck(Apply(s, step), w) && Apply(s, step).commits == s.commits
  {
    match step
    case Inbound(x) => StuckInbound(s, w, x, step);
    case ReadStale(x) => StuckInbound(s, w, x, step);
    case Proceed => if s.watch.waiting == [] { ProceedIs(s, step); }
    case _ =>
  }

  lemma {:induction false} StuckForever(s: System, w: Worker, more: seq<Step>)
    requires Stuck(s, w)
    ensures Stuck(Run(s, more), w) && Run(s, more).commits == s.commits
  {
    if more != [] {
      StuckForever(s, w, more[..|more| - 1]);
      StuckStays(Run(s, more[..|more| - 1]), w, more[|more| - 1]);
    }
  }

  lemma ScaleSticks(s: System, w: Worker, step: Step)
    requires Inv(s) && s.pc == Idle && step.RequestScale? && step.desired != |s.active|
    requires w in s.active && s.procs[w].doing == Done
    ensures Stuck(Apply(s, step), w) && Apply(s, step).commits == s.commits
  {
    assert Fits(s, w);
    AddedIs(s.active, step.desired, w);
    ConnectsTo(s, step);
    ConnectOld(s, Fresh(s.active, step.desired), Some(step.desired), w);
  }

  // Whoever is not done has nothing to do between requests.
  lemma IdleIsReady(s: System)
    requires Inv(s) && s.pc == Idle && Initial(s.active) && !SomeoneDone(s)
    ensures Ready(s, |s.active|)
  {
    forall w | w in s.active ensures Free(s, w) {
      assert Fits(s, w);
    }
  }

  // The requests of a script are all requests for snapshots.
  lemma NoScaleIsClean(s: System, more: seq<Step>)
    requires NoScale(more)
    ensures Clean(s, more)
  {
  }

  lemma ScriptHasNoScale(added: seq<Worker>, m: nat, n: nat, u: Worker)
    ensures NoScale(ScaleRest(added, m) + ([RequestSnapshot] + SnapshotSteps(n, u)))
  {
    RoundHasNoScale(added);
    RoundHasNoScale(Below(m));
    RoundHasNoScale(Below(n));
    RoundHasNoScale(Except(n, u));
  }

  lemma SnapshotBreaks(s: System, n: nat, u: Worker)
    requires Ready(s, n) && u < n && u in s.stale && u in s.procs && NextVersion(s.snapshotVersion) !in s.procs[u].taken
    ensures !AllComplete(Run(s, [RequestSnapshot] + SnapshotSteps(n, u)))
  {
    SnapshotWithoutOne(s, n, u);
    RunOn(s, [RequestSnapshot], SnapshotSteps(n, u));
    RunOne(s, RequestSnapshot);
    var end := Run(Apply(s, RequestSnapshot), SnapshotSteps(n, u));
    assert end.commits[|end.commits| - 1] in end.commits;
  }

  lemma ScaledBreaks(s: System, t: System, n: nat, d: nat, u: Worker)
    requires Scaled(s, t, n, d) && u in s.stale && n <= u < d
    ensures !AllComplete(Run(t, [RequestSnapshot] + SnapshotSteps(d, u)))
  {
    SnapshotBreaks(t, d, u);
  }

  /** The run in which it goes wrong: the request is carried out, a snapshot is taken, and meanwhile the old
      message of a worker that has come back is read. */
  lemma UncleanBreaks(s: System, desired: nat, u: Worker) returns (more: seq<Step>)
    requires Ready(s, |s.active|) && desired != |s.active| && u in Fresh(s.active, desired) && u in s.stale
    ensures NoScale(more) && !AllComplete(Run(Apply(s, RequestScale(desired)), more))
  {
    var n, added := |s.active|, Fresh(s.active, desired);
    AddedIs(s.active, desired, u);
    var rest, last := ScaleRest(added, Larger(n, desired)), [RequestSnapshot] + SnapshotSteps(desired, u);
    more := rest + last;
    ScriptHasNoScale(added, Larger(n, desired), desired, u);
    ConnectsTo(s, RequestScale(desired));
    ScaleEffect(s, n, desired, added);
    var s0 := Connect(s, added, Some(desired));
    ScaledBreaks(s, Run(s0, rest), n, desired, u);
    RunOn(s0, rest, last);
  }

  /** In every state between operations that any clean run leads to, a request for another number of workers is
      safe if and only if none of the workers it adds still has an unread message from an earlier time, or a
      worker has completed its execution, in which case the request never ends and nothing is committed. */
  lemma SafeToScaleIff(n: nat, sv: Option<nat>, cv: Option<nat>, steps: seq<Step>, desired: nat)
    requires Clean(Init(n, sv, cv), steps)
    requires var s := Run(Init(n, sv, cv), steps); s.pc == Idle && desired != |s.active|
    ensures var s := Run(Init(n, sv, cv), steps);
            SafeToScale(s, desired) <==> !Reconnects(s, desired) || SomeoneDone(s)
  {
    var init := Init(n, sv, cv);
    var s := Run(init, steps);
    RunKeepsInv(n, sv, cv, steps);
    RunInitial(n, sv, cv, steps);
    CommitsAreComplete(n, sv, cv, steps);
    if SomeoneDone(s) {
      var w :| w in s.active && w in s.procs && s.procs[w].doing == Done;
      ScaleSticks(s, w, RequestScale(desired));
      forall more ensures AllComplete(Run(Apply(s, RequestScale(desired)), more)) {
        StuckForever(Apply(s, RequestScale(desired)), w, more);
      }
    } else if Reconnects(s, desired) {
      IdleIsReady(s);
      var u :| u in Fresh(s.active, desired) && u in s.stale;
      var more := UncleanBreaks(s, desired, u);
      NoScaleIsClean(Apply(s, RequestScale(desired)), more);
    } else {
      forall more | Clean(Apply(s, RequestScale(desired)), more)
        ensures AllComplete(Run(Apply(s, RequestScale(desired)), more))
      {
        CleanGoesOn(n, sv, cv, steps, desired, more);
      }
    }
  }

  lemma CleanGoesOn(n: nat, sv: Option<nat>, cv: Option<nat>, steps: seq<Step>, desired: nat, more: seq<Step>)
    requires Clean(Init(n, sv, cv), steps) && !Reconnects(Run(Init(n, sv, cv), steps), desired)
    requires Clean(Apply(Run(Init(n, sv, cv), steps), RequestScale(desired)), more)
    ensures AllComplete(Run(Apply(Run(Init(n, sv, cv), steps), RequestScale(desired)), more))
  {
    var init := Init(n, sv, cv);
    var s := Run(init, steps);
    var step := RequestScale(desired);
    assert CleanStep(s, step) by {
      forall w | w in s.stale ensures w in s.active || w >= desired {
        AddedIs(s.active, desired, w);
      }
    }
    RunOne(s, step);
    assert Clean(s, [step]) by { assert [step][..0] == []; }
    CleanConcat(init, steps, [step]);
    RunOn(init, steps, [step]);
    CleanConcat(init, steps + [step], more);
    RunOn(init, steps + [step], more);
    CommitsAreComplete(n, sv, cv, steps + [step] + more);
  }

  /** This does happen: a coordinator that starts from nothing, is scaled to two workers, to one and to two
      again, and then takes a snapshot, can commit it although the second worker has not taken part. */
  lemma CommitWithoutAWorker() returns (steps: seq<Step>)
    ensures !AllComplete(Run(Init(0, None, None), steps))
  {
    var boot := [Proceed, Proceed];
    var s0 := Run(Init(0, None, None), boot);
    StartsFromNothing();
    var a := ScaleRest(Fresh(Set(0), 2), 2);
    var s1 := ScaledRun(s0, 0, 2, a);
    var b := ScaleRest(Fresh(Set(2), 1), 2);
    var s2 := ScaledRun(s1, 2, 1, b);
    AddedIs(Set(1), 2, 1);
    var c := UncleanBreaks(s2, 2, 1);
    var x, y := [RequestScale(2)] + a, [RequestScale(1)] + b;
    steps := boot + x + y + ([RequestScale(2)] + c);
    RunFour(Init(0, None, None), boot, x, y, [RequestScale(2)] + c);
    RunOn(s2, [RequestScale(2)], c);
    RunOne(s2, RequestScale(2));
  }

  lemma StartsFromNothing()
    ensures Ready(Run(Init(0, None, None), [Proceed, Proceed]), 0) && Run(Init(0, None, None), [Proceed, Proceed]).stale == {}
  {
    var s := Init(0, None, None);
    assert [Proceed, Proceed] == [Proceed] + [Proceed];
    RunOn(s, [Proceed], [Proceed]);
    RunOne(s, Proceed);
    RunOne(Apply(s, Proceed), Proceed);
    NobodyStarts(s, Proceed);
  }

  lemma NobodyStarts(s: System, step: Step)
    requires s == Init(0, None, None) && step.Proceed?
    ensures Ready(Apply(Apply(s, step), step), 0) && Apply(Apply(s, step), step).stale == {}
  {
    assert Fresh({}, 0) == [] && Each([], BuildComplete) == [] && Each([], Running) == [];
    ProceedIs(s, step);
    ProceedIs(Apply(s, step), step);
    var t := Apply(Apply(s, step), step);
    assert t.active == {} && t.procs.Keys == {} && t.watch.store.Keys == {};
  }

  lemma ScaledRun(s: System, n: nat, d: nat, rest: seq<Step>) returns (t: System)
    requires Ready(s, n) && d != n && d > 0 && rest == ScaleRest(Fresh(Set(n), d), Larger(n, d))
    ensures t == Run(s, [RequestScale(d)] + rest) && Scaled(s, t, n, d)
  {
    RunOn(s, [RequestScale(d)], rest);
    RunOne(s, RequestScale(d));
    ConnectsTo(s, RequestScale(d));
    ScaleEffect(s, n, d, Fresh(Set(n), d));
    t := Run(Connect(s, Fresh(Set(n), d), Some(d)), rest);
  }
}
