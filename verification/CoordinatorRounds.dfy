/**
  Runs of the coordinator in which all workers take their turns: how a request for another number of workers
  is carried out from beginning to end.
*/
module CoordinatorRounds {
  import opened Basics
  import opened WatchMap
  import opened Coordinator

  // ---------------------------------------------------------------- runs

  lemma {:induction false} RunOn(init: System, xs: seq<Step>, ys: seq<Step>)
    ensures Run(init, xs + ys) == Run(Run(init, xs), ys)
  {
    if ys == [] {
      assert xs + ys == xs;
    } else {
      RunOn(init, xs, ys[..|ys| - 1]);
      assert (xs + ys)[..|xs + ys| - 1] == xs + ys[..|ys| - 1];
    }
  }

  lemma RunOne(s: System, step: Step)
    ensures Run(s, [step]) == Apply(s, step)
  {
    assert [step][..0] == [];
  }

  lemma CleanConcat(init: System, xs: seq<Step>, ys: seq<Step>)
    requires Clean(init, xs) && Clean(Run(init, xs), ys)
    ensures Clean(init, xs + ys)
  {
    forall i | 0 <= i < |xs + ys| ensures CleanStep(Run(init, (xs + ys)[..i]), (xs + ys)[i]) {
      if i < |xs| {
        assert (xs + ys)[..i] == xs[..i];
      } else {
        assert (xs + ys)[..i] == xs + ys[..i - |xs|];
        RunOn(init, xs, ys[..i - |xs|]);
      }
    }
  }

  predicate NoScale(steps: seq<Step>) {
    forall i :: 0 <= i < |steps| ==> !steps[i].RequestScale?
  }

  // ---------------------------------------------------------------- the active workers are 0..n

  function Below(n: nat): (ws: seq<Worker>)
    ensures |ws| == n
    ensures forall w: Worker :: w in ws <==> w < n
    ensures forall i :: 0 <= i < n ==> ws[i] == i
  {
    if n == 0 then [] else Below(n - 1) + [n - 1]
  }

  function Set(n: nat): (ws: set<Worker>)
    ensures |ws| == n
    ensures forall w: Worker :: w in ws <==> w < n
  {
    if n == 0 then {} else Set(n - 1) + {n - 1}
  }

  predicate Initial(active: set<Worker>) {
    active == Set(|active|)
  }

  lemma AddedInitial(active: set<Worker>, desired: nat)
    requires Initial(active)
    ensures Initial(active + set w | w in Fresh(active, desired))
    ensures (active + set w | w in Fresh(active, desired)) == Set(if desired < |active| then |active| else desired)
  {
    var m := if desired < |active| then |active| else desired;
    var all := active + set w | w in Fresh(active, desired);
    forall w: Worker ensures w in all <==> w in Set(m) {
      AddedIs(active, desired, w);
    }
    assert all == Set(m);
  }

  lemma RemovedInitial(active: set<Worker>, desired: nat)
    requires Initial(active)
    ensures var gone := set w | w in active && w >= desired;
            Initial(active - gone) && active - gone == Set(if desired < |active| then desired else |active|)
  {
    var gone := set w | w in active && w >= desired;
    var m := if desired < |active| then desired else |active|;
    assert active - gone == Set(m);
  }

  // Which steps change the set of active workers.
  lemma ActiveAfter(s: System, step: Step)
    ensures var t := Apply(s, step);
            || t.active == s.active
            || (step.RequestScale? && t.active == s.active + set w | w in Fresh(s.active, step.desired))
            || (s.pc.ReconfigureRunning? && t.active == s.active - set w | w in s.active && w >= s.pc.desired)
  {
  }

  lemma StepInitial(s: System, step: Step)
    requires Initial(s.active)
    ensures Initial(Apply(s, step).active)
  {
    ActiveAfter(s, step);
    if step.RequestScale? { AddedInitial(s.active, step.desired); }
    if s.pc.ReconfigureRunning? { RemovedInitial(s.active, s.pc.desired); }
  }

  lemma {:induction false} RunInitial(n: nat, sv: Option<nat>, cv: Option<nat>, steps: seq<Step>)
    ensures Initial(Run(Init(n, sv, cv), steps).active)
  {
    if steps == [] {
      AddedInitial({}, n);
    } else {
      RunInitial(n, sv, cv, steps[..|steps| - 1]);
      StepInitial(Run(Init(n, sv, cv), steps[..|steps| - 1]), steps[|steps| - 1]);
    }
  }

  // ---------------------------------------------------------------- one turn of one worker

  // What workers are told to do and what they say about it.
  datatype Leg = Build | Start | Begin(kind: Kind) | End(kind: Kind)

  function DoingBefore(leg: Leg): Doing {
    match leg
    case Build => Connecting
    case Start => Built
    case Begin(_) => Executing
    case End(kind) => Busy(kind)
  }

  function CommandsBefore(leg: Leg): seq<Command> {
    match leg
    case Build => [StartBuild]
    case Start => [StartExecution]
    case Begin(kind) => [Order(kind)]
    case End(_) => []
  }

  function PhaseBefore(leg: Leg): Phase {
    match leg
    case Build => Unknown
    case Start => BuildComplete
    case Begin(_) => Running
    case End(kind) => BusyPhase(kind)
  }

  function DoingAfter(leg: Leg, w: Worker): Doing {
    match leg
    case Build => Built
    case Start => Executing
    case Begin(kind) => Busy(kind)
    case End(kind) => if Leaves(kind, w) then Done else Executing
  }

  function MessagesAfter(leg: Leg, w: Worker): seq<Message> {
    if leg.End? && Leaves(leg.kind, w) then [Removed] else []
  }

  function PhaseAfter(leg: Leg): Phase {
    match leg
    case Build => BuildComplete
    case Start => Running
    case Begin(kind) => BusyPhase(kind)
    case End(_) => Running
  }

  function Taken(leg: Leg): set<nat> {
    if leg.End? && leg.kind.TakeSnapshot? then {leg.kind.version} else {}
  }

  predicate Before(s: System, leg: Leg, w: Worker) {
    && w in s.procs && s.procs[w].doing == DoingBefore(leg) && s.procs[w].commands == CommandsBefore(leg)
    && s.procs[w].messages == []
    && w in s.watch.store && s.watch.store[w].phase == PhaseBefore(leg)
  }

  predicate After(s: System, leg: Leg, w: Worker) {
    && w in s.procs && s.procs[w].doing == DoingAfter(leg, w) && s.procs[w].commands == []
    && s.procs[w].messages == MessagesAfter(leg, w)
    && w in s.watch.store && s.watch.store[w].phase == PhaseAfter(leg)
  }

  // Nothing but workers in ws and the conditions waiting may differ.
  ghost predicate OnlyWorkers(s: System, t: System, ws: seq<Worker>) {
    && t.pc == s.pc && t.active == s.active && t.stale == s.stale && t.commits == s.commits
    && t.snapshotVersion == s.snapshotVersion && t.configVersion == s.configVersion
    && t.procs.Keys == s.procs.Keys && t.watch.store.Keys == s.watch.store.Keys
    && (forall x :: x in s.procs && x !in ws ==> t.procs[x] == s.procs[x])
    && (forall x :: x in s.watch.store && x !in ws ==> t.watch.store[x] == s.watch.store[x])
    && (forall c :: c in t.watch.waiting ==> c in s.watch.waiting)
  }

  function Turn(w: Worker): seq<Step> {
    [Act(w, false), Inbound(w)]
  }

  lemma TurnIs(s: System, w: Worker)
    ensures Run(s, Turn(w)) == Apply(Apply(s, Act(w, false)), Inbound(w))
  {
    assert Turn(w) == [Act(w, false)] + [Inbound(w)];
    RunOn(s, [Act(w, false)], [Inbound(w)]);
    RunOne(s, Act(w, false));
    RunOne(Apply(s, Act(w, false)), Inbound(w));
  }

  // What the worker does and says.
  lemma TurnWorker(leg: Leg, w: Worker, p: Proc, state: WorkerState)
    requires p.doing == DoingBefore(leg) && p.commands == CommandsBefore(leg) && p.messages == []
    ensures var p1 := Behave(p, w, false);
            && p1.doing == DoingAfter(leg, w) && p1.commands == [] && p1.taken == p.taken + Taken(leg)
            && p1.messages != [] && p1.messages[1..] == MessagesAfter(leg, w)
            && NewState(p1.messages[0], state).Some? && NewState(p1.messages[0], state).value.phase == PhaseAfter(leg)
  {
  }

  lemma TurnEffect(s: System, leg: Leg, w: Worker)
    requires Before(s, leg, w)
    ensures var t := Run(s, Turn(w));
            && OnlyWorkers(s, t, [w]) && After(t, leg, w) && t.procs[w].taken == s.procs[w].taken + Taken(leg)
            && t.watch.waiting == Unsatisfied(s.watch.waiting, t.watch.store)
  {
    TurnIs(s, w);
    TurnWorker(leg, w, s.procs[w], s.watch.store[w]);
    var p := Behave(s.procs[w], w, false);
    var mid := Apply(s, Act(w, false));
    assert mid == s.(procs := s.procs[w := p]);
    TurnRead(mid, w);
    var t := Apply(mid, Inbound(w));
    forall c ensures c in t.watch.waiting ==> c in s.watch.waiting {
      StillWaitingIff(s.watch.waiting, t.watch.store, c);
    }
  }

  lemma TurnRead(s: System, w: Worker)
    requires w in s.procs && s.procs[w].messages != [] && w in s.watch.store
    requires NewState(s.procs[w].messages[0], s.watch.store[w]).Some?
    ensures var t := Apply(s, Inbound(w));
            var store := s.watch.store[w := NewState(s.procs[w].messages[0], s.watch.store[w]).value];
            t == s.(procs := s.procs[w := s.procs[w].(messages := s.procs[w].messages[1..])],
                    watch := Watch(store, Unsatisfied(s.watch.waiting, store)))
  {
  }

  // ---------------------------------------------------------------- a round of turns

  function Round(ws: seq<Worker>): seq<Step> {
    if ws == [] then [] else Round(ws[..|ws| - 1]) + Turn(ws[|ws| - 1])
  }

  predicate Distinct(ws: seq<Worker>) {
    forall i, j :: 0 <= i < j < |ws| ==> ws[i] != ws[j]
  }

  lemma {:induction false} RoundHasNoScale(ws: seq<Worker>)
    ensures NoScale(Round(ws))
  {
    if ws != [] { RoundHasNoScale(ws[..|ws| - 1]); }
  }

  // Every worker has had its turn.
  ghost predicate Went(s: System, t: System, leg: Leg, ws: seq<Worker>) {
    forall w :: w in ws ==> WentOne(s, t, leg, w)
  }

  predicate WentOne(s: System, t: System, leg: Leg, w: Worker) {
    After(t, leg, w) && w in s.procs && t.procs[w].taken == s.procs[w].taken + Taken(leg)
  }

  // The conditions that concern only one of them have fired, and none that holds is waiting.
  ghost predicate Heard(t: System, leg: Leg, ws: seq<Worker>) {
    && (forall w :: w in ws ==> One(w, PhaseAfter(leg)) !in t.watch.waiting)
    && (ws != [] ==> forall c :: c in t.watch.waiting ==> !Holds(c, t.watch.store))
  }

  ghost predicate AllBefore(s: System, leg: Leg, ws: seq<Worker>) {
    forall w :: w in ws ==> Before(s, leg, w)
  }

  lemma {:induction false} RoundEffect(s: System, leg: Leg, ws: seq<Worker>)
    requires Distinct(ws) && AllBefore(s, leg, ws)
    ensures var t := Run(s, Round(ws)); OnlyWorkers(s, t, ws) && Went(s, t, leg, ws) && Heard(t, leg, ws)
  {
    if ws != [] {
      var rest, w := ws[..|ws| - 1], ws[|ws| - 1];
      LastIsNew(s, leg, ws);
      RoundEffect(s, leg, rest);
      RunOn(s, Round(rest), Turn(w));
      RoundStep(s, Run(s, Round(rest)), leg, rest, w);
    }
  }

  lemma LastIsNew(s: System, leg: Leg, ws: seq<Worker>)
    requires ws != [] && Distinct(ws) && AllBefore(s, leg, ws)
    ensures var rest, w := ws[..|ws| - 1], ws[|ws| - 1];
            Distinct(rest) && AllBefore(s, leg, rest) && w !in rest && Before(s, leg, w) && ws == rest + [w]
  {
    assert ws[|ws| - 1] in ws;
  }

  lemma RoundStep(s: System, mid: System, leg: Leg, rest: seq<Worker>, w: Worker)
    requires OnlyWorkers(s, mid, rest) && Went(s, mid, leg, rest) && Heard(mid, leg, rest)
    requires w !in rest && Before(s, leg, w)
    ensures var t := Run(mid, Turn(w));
            OnlyWorkers(s, t, rest + [w]) && Went(s, t, leg, rest + [w]) && Heard(t, leg, rest + [w])
  {
    var t := Run(mid, Turn(w));
    BeforeStays(s, mid, leg, rest, w);
    TurnEffect(mid, leg, w);
    OnlyBoth(s, mid, t, rest, w);
    WentBoth(s, mid, t, leg, rest, w);
    HeardBoth(mid, t, leg, rest, w);
  }

  lemma OnlyBoth(s: System, mid: System, t: System, rest: seq<Worker>, w: Worker)
    requires OnlyWorkers(s, mid, rest) && OnlyWorkers(mid, t, [w])
    ensures OnlyWorkers(s, t, rest + [w])
  {
  }

  lemma WentBoth(s: System, mid: System, t: System, leg: Leg, rest: seq<Worker>, w: Worker)
    requires OnlyWorkers(mid, t, [w]) && Went(s, mid, leg, rest) && w !in rest
    requires OnlyWorkers(s, mid, rest) && w in s.procs && w in mid.procs && WentOne(mid, t, leg, w)
    ensures Went(s, t, leg, rest + [w])
  {
    forall x | x in rest + [w] ensures WentOne(s, t, leg, x) {
      if x != w { WentStays(s, mid, t, leg, x, w); }
    }
  }

  lemma WentStays(s: System, mid: System, t: System, leg: Leg, x: Worker, w: Worker)
    requires WentOne(s, mid, leg, x) && OnlyWorkers(mid, t, [w]) && x != w
    ensures WentOne(s, t, leg, x)
  {
    assert x !in [w];
  }

  lemma HeardBoth(mid: System, t: System, leg: Leg, rest: seq<Worker>, w: Worker)
    requires Heard(mid, leg, rest) && After(t, leg, w)
    requires t.watch.waiting == Unsatisfied(mid.watch.waiting, t.watch.store)
    ensures Heard(t, leg, rest + [w])
  {
    forall c ensures c in t.watch.waiting ==> c in mid.watch.waiting && !Holds(c, t.watch.store) {
      StillWaitingIff(mid.watch.waiting, t.watch.store, c);
    }
    assert Holds(One(w, PhaseAfter(leg)), t.watch.store);
  }

  lemma BeforeStays(s: System, t: System, leg: Leg, ws: seq<Worker>, w: Worker)
    requires OnlyWorkers(s, t, ws) && w !in ws && Before(s, leg, w)
    ensures Before(t, leg, w)
  {
  }

  // ---------------------------------------------------------------- stages of a request

  // Nothing to do and nothing unread.
  predicate Free(s: System, w: Worker) {
    && w in s.procs && s.procs[w].doing == Executing && s.procs[w].commands == [] && s.procs[w].messages == []
    && w in s.watch.store && s.watch.store[w].phase == Running
  }

  ghost predicate Peopled(s: System, m: nat) {
    s.active == Set(m) && s.procs.Keys == s.active && s.watch.store.Keys == s.active
  }

  ghost predicate Ready(s: System, n: nat) {
    Peopled(s, n) && s.pc == Idle && s.watch.waiting == [] && forall w: Worker :: w < n ==> Free(s, w)
  }

  // The workers in ws are about to have their turn.
  ghost predicate Told(s: System, m: nat, leg: Leg, ws: seq<Worker>) {
    && Peopled(s, m) && Distinct(ws) && (forall w :: w in ws ==> w < m && Before(s, leg, w))
    && (forall w: Worker :: w < m && w !in ws ==> Free(s, w))
  }

  // They have had it, and all conditions have fired.
  ghost predicate Answered(s: System, m: nat, leg: Leg, ws: seq<Worker>) {
    && Peopled(s, m) && s.watch.waiting == [] && (forall w :: w in ws ==> After(s, leg, w))
    && (forall w: Worker :: w < m && w !in ws ==> Free(s, w))
  }

  // Neither commits nor snapshots.
  ghost predicate Quietly(s: System, t: System) {
    && t.commits == s.commits && t.snapshotVersion == s.snapshotVersion
    && forall w :: w in s.procs && w in t.procs ==> t.procs[w].taken == s.procs[w].taken
  }

  // Conditions that one round satisfies.
  ghost predicate Satisfiable(waiting: seq<Condition>, m: nat, leg: Leg, ws: seq<Worker>) {
    forall c :: c in waiting ==>
      || (c.One? && c.worker in ws && c.phase == PhaseAfter(leg))
      || (c == All(PhaseAfter(leg)) && ws != [] && forall w: Worker :: w < m ==> w in ws)
  }

  lemma RoundAnswers(s: System, m: nat, leg: Leg, ws: seq<Worker>)
    requires Told(s, m, leg, ws) && Satisfiable(s.watch.waiting, m, leg, ws)
    ensures var t := Run(s, Round(ws));
            && Answered(t, m, leg, ws) && t.pc == s.pc && t.stale == s.stale && t.configVersion == s.configVersion
            && t.commits == s.commits && t.snapshotVersion == s.snapshotVersion
            && (forall w :: w in ws ==> w in s.procs && t.procs[w].taken == s.procs[w].taken + Taken(leg))
            && (forall w :: w in s.procs && w !in ws ==> t.procs[w] == s.procs[w])
            && (Taken(leg) == {} ==> Quietly(s, t))
  {
    RoundEffect(s, leg, ws);
    var t := Run(s, Round(ws));
    RoundTaken(s, t, leg, ws);
    RoundFree(s, t, m, leg, ws);
    RoundFires(s, t, m, leg, ws);
  }

  lemma RoundTaken(s: System, t: System, leg: Leg, ws: seq<Worker>)
    requires OnlyWorkers(s, t, ws) && Went(s, t, leg, ws)
    ensures forall w :: w in ws ==> w in s.procs && w in t.procs && t.procs[w].taken == s.procs[w].taken + Taken(leg)
    ensures Taken(leg) == {} ==> Quietly(s, t)
  {
    forall w | w in ws ensures w in s.procs && w in t.procs && t.procs[w].taken == s.procs[w].taken + Taken(leg) {
      assert WentOne(s, t, leg, w);
    }
    assert forall w :: w in s.procs ==> s.procs[w].taken + {} == s.procs[w].taken;
  }

  lemma RoundFree(s: System, t: System, m: nat, leg: Leg, ws: seq<Worker>)
    requires OnlyWorkers(s, t, ws) && Went(s, t, leg, ws) && Told(s, m, leg, ws)
    ensures Peopled(t, m) && (forall w :: w in ws ==> After(t, leg, w)) && forall w: Worker :: w < m && w !in ws ==> Free(t, w)
  {
    forall w | w in ws ensures After(t, leg, w) {
      assert WentOne(s, t, leg, w);
    }
    forall w: Worker | w < m && w !in ws ensures Free(t, w) {
      assert Free(s, w);
    }
  }

  lemma RoundFires(s: System, t: System, m: nat, leg: Leg, ws: seq<Worker>)
    requires OnlyWorkers(s, t, ws) && Heard(t, leg, ws) && Satisfiable(s.watch.waiting, m, leg, ws)
    requires Peopled(t, m) && forall w :: w in ws ==> After(t, leg, w)
    ensures t.watch.waiting == []
  {
    if ws != [] && forall w: Worker :: w < m ==> w in ws { AllAnswer(t, m, leg, ws); }
    forall c ensures c !in t.watch.waiting {
      assert c in t.watch.waiting ==> c in s.watch.waiting;
    }
    NoneWaiting(t.watch.waiting);
  }

  lemma NoneWaiting(waiting: seq<Condition>)
    ensures (forall c :: c !in waiting) ==> waiting == []
  {
    if waiting != [] { assert waiting[0] in waiting; }
  }

  lemma AllAnswer(t: System, m: nat, leg: Leg, ws: seq<Worker>)
    requires Peopled(t, m) && (forall w :: w in ws ==> After(t, leg, w)) && forall w: Worker :: w < m ==> w in ws
    ensures Holds(All(PhaseAfter(leg)), t.watch.store)
  {
    forall w | w in t.watch.store ensures t.watch.store[w].phase == PhaseAfter(leg) {
      assert w in ws && After(t, leg, w);
    }
  }

  lemma {:induction false} FreshIsDistinct(active: set<Worker>, desired: nat)
    ensures Distinct(Fresh(active, desired))
  {
    if desired > 0 {
      FreshIsDistinct(active, desired - 1);
      var rest := Fresh(active, desired - 1);
      forall w | w in rest ensures w < desired - 1 {
        AddedIs(active, desired - 1, w);
      }
      assert forall i :: 0 <= i < |rest| ==> rest[i] in rest;
    }
  }

  function Larger(n: nat, d: nat): nat {
    if n < d then d else n
  }

  // The request has been taken up: the workers that are missing are about to be built.
  ghost predicate TakenUp(s: System, t: System, n: nat, d: nat, added: seq<Worker>) {
    && t.pc == Building(added, Some(d)) && t.watch.waiting == Each(added, BuildComplete)
    && Told(t, Larger(n, d), Build, added) && Quietly(s, t) && t.stale == s.stale
    && (forall w :: w in added ==> w < d && t.procs[w].taken == {})
    && (forall w: Worker :: n <= w < d ==> w in added)
  }

  lemma Connects(s: System, n: nat, d: nat, added: seq<Worker>)
    requires Ready(s, n) && d != n && added == Fresh(Set(n), d)
    ensures TakenUp(s, Connect(s, added, Some(d)), n, d, added)
  {
    FreshIsDistinct(Set(n), d);
    forall w: Worker ensures w in added <==> n <= w < d {
      AddedIs(Set(n), d, w);
    }
    ConnectTells(s, n, d, added);
  }

  lemma ConnectTells(s: System, n: nat, d: nat, added: seq<Worker>)
    requires Ready(s, n) && Distinct(added) && forall w: Worker :: w in added <==> n <= w < d
    ensures var t := Connect(s, added, Some(d));
            Told(t, Larger(n, d), Build, added) && Quietly(s, t) && forall w :: w in added ==> t.procs[w].taken == {}
  {
    var t := Connect(s, added, Some(d));
    ConnectPeople(s, n, d, added);
    forall w | w in added ensures w < Larger(n, d) && Before(t, Build, w) && t.procs[w].taken == {} {
      ConnectNew(s, added, Some(d), w);
    }
    forall w | w in s.procs ensures w !in added && w in t.procs && t.procs[w] == s.procs[w] {
      ConnectOld(s, added, Some(d), w);
    }
    forall w: Worker | w < Larger(n, d) && w !in added ensures Free(t, w) {
      assert Free(s, w);
      ConnectOld(s, added, Some(d), w);
    }
  }

  lemma ConnectPeople(s: System, n: nat, d: nat, added: seq<Worker>)
    requires Peopled(s, n) && forall w: Worker :: w in added <==> n <= w < d
    ensures Peopled(Connect(s, added, Some(d)), Larger(n, d))
  {
    var all := Set(Larger(n, d));
    assert forall w: Worker :: w in all <==> w in s.active || w in added;
    ConnectKeys(s, added, Some(d), all);
  }

  lemma ConnectKeys(s: System, added: seq<Worker>, after: Option<nat>, all: set<Worker>)
    requires s.procs.Keys == s.active && s.watch.store.Keys == s.active
    requires forall w: Worker :: w in all <==> w in s.active || w in added
    ensures var t := Connect(s, added, after); t.active == all && t.procs.Keys == all && t.watch.store.Keys == all
  {
    assert Connected(s.procs, added).Keys == all;
    assert Watched(s.watch.store, added).Keys == all;
    assert s.active + (set w | w in added) == all;
  }

  lemma ConnectNew(s: System, added: seq<Worker>, after: Option<nat>, w: Worker)
    requires w in added
    ensures var t := Connect(s, added, after); Before(t, Build, w) && t.procs[w].taken == {}
  {
  }

  lemma ConnectOld(s: System, added: seq<Worker>, after: Option<nat>, w: Worker)
    requires w !in added && w in s.procs && w in s.watch.store
    ensures var t := Connect(s, added, after);
            w in t.procs && w in t.watch.store && t.procs[w] == s.procs[w] && t.watch.store[w] == s.watch.store[w]
  {
  }

  lemma ConnectsTo(s: System, step: Step)
    requires s.pc == Idle && step.RequestScale? && step.desired != |s.active|
    ensures Apply(s, step) == Connect(s, Fresh(s.active, step.desired), Some(step.desired))
  {
  }

  lemma AllSatisfiable(m: nat, leg: Leg)
    requires m > 0
    ensures Satisfiable([All(PhaseAfter(leg))], m, leg, Below(m))
  {
  }

  lemma EachSatisfiable(ws: seq<Worker>, m: nat, leg: Leg)
    ensures Satisfiable(Each(ws, PhaseAfter(leg)), m, leg, ws)
  {
  }

  // ---------------------------------------------------------------- from stage to stage

  lemma ProceedIs(s: System, step: Step)
    requires step.Proceed? && s.watch.waiting == []
    ensures Apply(s, step) == Continue(s)
  {
  }

  // All that were built are told to start.
  lemma StartsBuilt(s: System, m: nat, added: seq<Worker>, d: nat)
    requires Answered(s, m, Build, added) && s.pc == Building(added, Some(d)) && Distinct(added) && forall w :: w in added ==> w < m
    ensures var t := Continue(s);
            && Told(t, m, Start, added) && t.pc == Starting(added, Some(d)) && t.watch.waiting == Each(added, Running)
            && Quietly(s, t) && t.stale == s.stale
  {
    var t := Continue(s);
    assert t.procs == TellThese(s.procs, added, StartExecution);
    StartsTold(s, t, m, added);
  }

  lemma StartsTold(s: System, t: System, m: nat, added: seq<Worker>)
    requires Answered(s, m, Build, added) && Distinct(added) && forall w :: w in added ==> w < m
    requires t.procs == TellThese(s.procs, added, StartExecution) && t.watch.store == s.watch.store && t.active == s.active
    requires t.commits == s.commits && t.snapshotVersion == s.snapshotVersion
    ensures Told(t, m, Start, added) && Quietly(s, t)
  {
    forall w | w in added ensures Before(t, Start, w) {
      assert After(s, Build, w);
      TellTheseOne(s.procs, added, StartExecution, w);
    }
    forall w: Worker | w < m && w !in added ensures Free(t, w) {
      assert Free(s, w);
      TellTheseOne(s.procs, added, StartExecution, w);
    }
    forall w | w in s.procs ensures w in t.procs && t.procs[w].taken == s.procs[w].taken {
      TellTheseOne(s.procs, added, StartExecution, w);
    }
  }

  lemma TellTheseOne(procs: map<Worker, Proc>, added: seq<Worker>, c: Command, w: Worker)
    requires w in procs
    ensures var m := TellThese(procs, added, c); w in m && m[w] == if w in added then Tell(procs[w], c) else procs[w]
  {
  }

  // All workers are told to reconfigure.
  lemma TellsReconfigure(s: System, m: nat, added: seq<Worker>, d: nat)
    requires Answered(s, m, Start, added) && s.pc == Starting(added, Some(d)) && forall w :: w in added ==> w < m
    ensures var t := Continue(s);
            var v := NextVersion(s.configVersion);
            && Told(t, m, Begin(ChangeWorkers(d, v)), Below(m)) && t.pc == ReconfigureBegun(d, v)
            && t.watch.waiting == [All(Reconfiguring)] && Quietly(s, t) && t.stale == s.stale
  {
    var t := Continue(s);
    var kind := ChangeWorkers(d, NextVersion(s.configVersion));
    assert t.procs == TellAll(s, Order(kind));
    forall w: Worker | w < m ensures Free(s, w) {
      assert if w in added then After(s, Start, w) else Free(s, w);
    }
    TellsAll(s, t, m, kind);
  }

  lemma TellsAll(s: System, t: System, m: nat, kind: Kind)
    requires Peopled(s, m) && forall w: Worker :: w < m ==> Free(s, w)
    requires t.procs == TellAll(s, Order(kind)) && t.watch.store == s.watch.store && t.active == s.active
    requires t.commits == s.commits && t.snapshotVersion == s.snapshotVersion
    ensures Told(t, m, Begin(kind), Below(m)) && Quietly(s, t)
  {
    forall w | w in Below(m) ensures w < m && Before(t, Begin(kind), w) {
      assert Free(s, w);
    }
  }

  function PcBegun(kind: Kind): Pc {
    match kind case TakeSnapshot(v) => SnapshotBegun(v) case ChangeWorkers(d, v) => ReconfigureBegun(d, v)
  }

  function PcRunning(kind: Kind): Pc {
    match kind case TakeSnapshot(v) => SnapshotRunning(v) case ChangeWorkers(d, v) => ReconfigureRunning(d, v)
  }

  // Half of a round of all workers is over.
  lemma HalfWay(s: System, m: nat, kind: Kind)
    requires Answered(s, m, Begin(kind), Below(m))
    requires s.pc == PcBegun(kind)
    ensures var t := Continue(s);
            && Told(t, m, End(kind), Below(m)) && t.watch.waiting == [All(Running)]
            && t.pc == PcRunning(kind)
            && Quietly(s, t) && t.stale == s.stale
  {
    var t := Continue(s);
    forall w | w in Below(m) ensures w < m && Before(t, End(kind), w) {
      assert After(s, Begin(kind), w);
    }
  }

  function Gone(active: set<Worker>, d: nat): set<Worker> {
    set w | w in active && w >= d
  }

  lemma GoneIs(m: nat, d: nat)
    requires d <= m
    ensures Set(m) - Gone(Set(m), d) == Set(d) && forall w: Worker :: w in Gone(Set(m), d) <==> d <= w < m
  {
  }

  lemma LetsGoIs(s: System, m: nat, d: nat, v: nat)
    requires s.pc == ReconfigureRunning(d, v) && Peopled(s, m) && 0 < d <= m
    ensures var t := Continue(s);
            && t.pc == Idle && Peopled(t, d) && t.watch.waiting == s.watch.waiting && Quietly(s, t)
            && (forall w: Worker :: w < d ==> t.procs[w] == s.procs[w] && t.watch.store[w] == s.watch.store[w])
  {
    LetsGoFields(s, d, v);
    LetsGoRemain(s, Continue(s), m, d);
  }

  // Those below d remain.
  lemma LetsGoRemain(s: System, t: System, m: nat, d: nat)
    requires Peopled(s, m) && 0 < d <= m
    requires var gone := Gone(s.active, d);
             && t.active == s.active - gone && t.procs == s.procs - gone && t.watch.store == s.watch.store - gone
             && t.commits == s.commits && t.snapshotVersion == s.snapshotVersion
    ensures Peopled(t, d) && Quietly(s, t) && !(s.active <= Gone(s.active, d))
    ensures forall w: Worker :: w < d ==> t.procs[w] == s.procs[w] && t.watch.store[w] == s.watch.store[w]
  {
    GoneIs(m, d);
    assert 0 in s.active && 0 !in Gone(s.active, d);
    assert t.procs.Keys == s.procs.Keys - Gone(s.active, d) && t.watch.store.Keys == s.watch.store.Keys - Gone(s.active, d);
  }

  lemma LetsGoFields(s: System, d: nat, v: nat)
    requires s.pc == ReconfigureRunning(d, v)
    ensures var t := Continue(s);
            var gone := Gone(s.active, d);
            && t.active == s.active - gone && t.procs == s.procs - gone && t.watch.store == s.watch.store - gone
            && t.watch.waiting == s.watch.waiting && t.commits == s.commits && t.snapshotVersion == s.snapshotVersion
            && t.pc == if s.active <= gone then Stopped else Idle
  {
  }

  lemma LetsGoStale(s: System, m: nat, d: nat, v: nat)
    requires s.pc == ReconfigureRunning(d, v) && Peopled(s, m) && 0 < d <= m
    requires forall w: Worker :: d <= w < m ==> w in s.procs && s.procs[w].messages == [Removed]
    ensures forall w: Worker :: w in Continue(s).stale <==> w in s.stale || d <= w < m
  {
    GoneIs(m, d);
    forall w: Worker ensures w in Continue(s).stale <==> w in s.stale || d <= w < m {
      if d <= w < m {
        assert Removed in s.procs[w].messages && w in s.active;
      }
    }
  }

  // Those that leave are let go; their last message is not read.
  lemma LetsGo(s: System, m: nat, d: nat, v: nat)
    requires Answered(s, m, End(ChangeWorkers(d, v)), Below(m)) && s.pc == ReconfigureRunning(d, v) && 0 < d <= m
    ensures var t := Continue(s);
            && Ready(t, d) && Quietly(s, t)
            && (forall w: Worker :: w in t.stale <==> w in s.stale || d <= w < m)
  {
    LetsGoIs(s, m, d, v);
    forall w: Worker | d <= w < m ensures w in s.procs && s.procs[w].messages == [Removed] {
      assert w in Below(m) && After(s, End(ChangeWorkers(d, v)), w);
    }
    LetsGoStale(s, m, d, v);
    forall w: Worker | w < d ensures Free(Continue(s), w) {
      assert w in Below(m) && After(s, End(ChangeWorkers(d, v)), w);
    }
  }

  // ---------------------------------------------------------------- a whole request

  // What follows the request: the new workers are built and started, then all m are reconfigured.
  function ScaleRest(added: seq<Worker>, m: nat): seq<Step> {
    (Round(added) + [Proceed]) + (Round(added) + [Proceed]) + (Round(Below(m)) + [Proceed]) + (Round(Below(m)) + [Proceed])
  }

  // A round and the step that follows it.
  lemma RoundProceed(s: System, ws: seq<Worker>)
    requires Run(s, Round(ws)).watch.waiting == []
    ensures Run(s, Round(ws) + [Proceed]) == Continue(Run(s, Round(ws)))
  {
    RunOn(s, Round(ws), [Proceed]);
    RunOne(Run(s, Round(ws)), Proceed);
    ProceedIs(Run(s, Round(ws)), Proceed);
  }

  lemma RunFour(s: System, a: seq<Step>, b: seq<Step>, c: seq<Step>, d: seq<Step>)
    ensures Run(s, a + b + c + d) == Run(Run(Run(Run(s, a), b), c), d)
  {
    RunOn(s, a + b + c, d);
    RunOn(s, a + b, c);
    RunOn(s, a, b);
  }

  lemma ScaleRestIs(s: System, added: seq<Worker>, m: nat)
    ensures var s1 := Run(s, Round(added) + [Proceed]);
            var s2 := Run(s1, Round(added) + [Proceed]);
            var s3 := Run(s2, Round(Below(m)) + [Proceed]);
            Run(s, ScaleRest(added, m)) == Run(s3, Round(Below(m)) + [Proceed])
  {
    RunFour(s, Round(added) + [Proceed], Round(added) + [Proceed], Round(Below(m)) + [Proceed], Round(Below(m)) + [Proceed]);
  }

  lemma QuietBoth(s: System, mid: System, t: System)
    requires Quietly(s, mid) && Quietly(mid, t) && t.procs.Keys <= mid.procs.Keys
    ensures Quietly(s, t)
  {
  }

  lemma BuildAll(s: System, m: nat, added: seq<Worker>, d: nat)
    requires Told(s, m, Build, added) && s.pc == Building(added, Some(d)) && s.watch.waiting == Each(added, BuildComplete)
    ensures var t := Run(s, Round(added) + [Proceed]);
            && Told(t, m, Start, added) && t.pc == Starting(added, Some(d)) && t.watch.waiting == Each(added, Running)
            && Quietly(s, t) && t.stale == s.stale
  {
    EachSatisfiable(added, m, Build);
    RoundAnswers(s, m, Build, added);
    RoundProceed(s, added);
    StartsBuilt(Run(s, Round(added)), m, added, d);
    QuietBoth(s, Run(s, Round(added)), Run(s, Round(added) + [Proceed]));
  }

  lemma StartAll(s: System, m: nat, added: seq<Worker>, d: nat) returns (v: nat)
    requires Told(s, m, Start, added) && s.pc == Starting(added, Some(d)) && s.watch.waiting == Each(added, Running)
    ensures var t := Run(s, Round(added) + [Proceed]);
            && Told(t, m, Begin(ChangeWorkers(d, v)), Below(m)) && t.pc == ReconfigureBegun(d, v)
            && t.watch.waiting == [All(Reconfiguring)] && Quietly(s, t) && t.stale == s.stale
  {
    EachSatisfiable(added, m, Start);
    RoundAnswers(s, m, Start, added);
    RoundProceed(s, added);
    TellsReconfigure(Run(s, Round(added)), m, added, d);
    v := NextVersion(Run(s, Round(added)).configVersion);
    QuietBoth(s, Run(s, Round(added)), Run(s, Round(added) + [Proceed]));
  }

  lemma BeginAll(s: System, m: nat, kind: Kind)
    requires m > 0 && Told(s, m, Begin(kind), Below(m)) && s.watch.waiting == [All(BusyPhase(kind))]
    requires s.pc == PcBegun(kind)
    ensures var t := Run(s, Round(Below(m)) + [Proceed]);
            && Told(t, m, End(kind), Below(m)) && t.watch.waiting == [All(Running)]
            && t.pc == PcRunning(kind) && Quietly(s, t) && t.stale == s.stale
  {
    BeginRound(s, m, kind);
    RoundProceed(s, Below(m));
    var mid := Run(s, Round(Below(m)));
    HalfWay(mid, m, kind);
    QuietBoth(s, mid, Continue(mid));
  }

  lemma BeginRound(s: System, m: nat, kind: Kind)
    requires m > 0 && Told(s, m, Begin(kind), Below(m)) && s.watch.waiting == [All(BusyPhase(kind))]
    ensures var t := Run(s, Round(Below(m)));
            Answered(t, m, Begin(kind), Below(m)) && t.pc == s.pc && t.stale == s.stale && Quietly(s, t)
  {
    AllSatisfiable(m, Begin(kind));
    RoundAnswers(s, m, Begin(kind), Below(m));
  }

  lemma EndRound(s: System, m: nat, d: nat, v: nat)
    requires m > 0 && Told(s, m, End(ChangeWorkers(d, v)), Below(m)) && s.watch.waiting == [All(Running)]
    ensures var t := Run(s, Round(Below(m)));
            Answered(t, m, End(ChangeWorkers(d, v)), Below(m)) && t.pc == s.pc && t.stale == s.stale && Quietly(s, t)
  {
    AllSatisfiable(m, End(ChangeWorkers(d, v)));
    RoundAnswers(s, m, End(ChangeWorkers(d, v)), Below(m));
  }

  lemma EndAll(s: System, m: nat, d: nat, v: nat)
    requires Told(s, m, End(ChangeWorkers(d, v)), Below(m)) && s.pc == ReconfigureRunning(d, v) && 0 < d <= m
    requires s.watch.waiting == [All(Running)]
    ensures var t := Run(s, Round(Below(m)) + [Proceed]);
            && Ready(t, d) && Quietly(s, t) && (forall w: Worker :: w in t.stale <==> w in s.stale || d <= w < m)
  {
    EndRound(s, m, d, v);
    RoundProceed(s, Below(m));
    var mid := Run(s, Round(Below(m)));
    LetsGo(mid, m, d, v);
    QuietBoth(s, mid, Continue(mid));
  }

  /** From a state in which everyone is free, a change of the number of workers can be carried out. The last
      message of each worker that leaves remains unread. */
  lemma ScaleEffect(s: System, n: nat, d: nat, added: seq<Worker>)
    requires Ready(s, n) && d != n && d > 0 && added == Fresh(Set(n), d)
    ensures Scaled(s, Run(Connect(s, added, Some(d)), ScaleRest(added, Larger(n, d))), n, d)
  {
    Connects(s, n, d, added);
    ScaleFrom(s, Connect(s, added, Some(d)), n, d, added);
  }

  // There are d workers now, all free, and the last messages of those that have left are unread.
  ghost predicate Scaled(s: System, t: System, n: nat, d: nat) {
    && Ready(t, d) && t.commits == s.commits && t.snapshotVersion == s.snapshotVersion
    && (forall w: Worker :: w in t.stale <==> w in s.stale || d <= w < n)
    && (forall w: Worker :: n <= w < d ==> w in t.procs && t.procs[w].taken == {})
  }

  lemma ScaleFrom(s: System, s0: System, n: nat, d: nat, added: seq<Worker>)
    requires TakenUp(s, s0, n, d, added) && d > 0
    ensures Scaled(s, Run(s0, ScaleRest(added, Larger(n, d))), n, d)
  {
    ScaleGoesOn(s0, added, Larger(n, d), d);
  }

  lemma ScaleGoesOn(s: System, added: seq<Worker>, m: nat, d: nat)
    requires s.pc == Building(added, Some(d)) && s.watch.waiting == Each(added, BuildComplete)
    requires Told(s, m, Build, added) && (forall w :: w in added ==> w < d && s.procs[w].taken == {}) && 0 < d <= m
    ensures var t := Run(s, ScaleRest(added, m));
            && Ready(t, d) && Quietly(s, t)
            && (forall w: Worker :: w in t.stale <==> w in s.stale || d <= w < m)
            && (forall w: Worker :: w in added ==> w in t.procs && t.procs[w].taken == {})
  {
    ScaleRestIs(s, added, m);
    BuildAll(s, m, added, d);
    Changes(s, Run(s, Round(added) + [Proceed]), m, added, d);
  }

  lemma Changes(s0: System, s: System, m: nat, added: seq<Worker>, d: nat)
    requires Told(s, m, Start, added) && s.pc == Starting(added, Some(d)) && s.watch.waiting == Each(added, Running)
    requires 0 < d <= m && Quietly(s0, s) && s.stale == s0.stale
    ensures var s2 := Run(s, Round(added) + [Proceed]);
            var t := Run(Run(s2, Round(Below(m)) + [Proceed]), Round(Below(m)) + [Proceed]);
            && Ready(t, d) && Quietly(s0, t) && (forall w: Worker :: w in t.stale <==> w in s0.stale || d <= w < m)
  {
    var v := StartAll(s, m, added, d);
    var s2 := Run(s, Round(added) + [Proceed]);
    BeginAll(s2, m, ChangeWorkers(d, v));
    var s3 := Run(s2, Round(Below(m)) + [Proceed]);
    EndAll(s3, m, d, v);
    var t := Run(s3, Round(Below(m)) + [Proceed]);
    QuietBoth(s0, s, s2);
    QuietBoth(s0, s2, s3);
    QuietBoth(s0, s3, t);
  }
}
