/**
  The coordinator, its workers and everything between them: snapshots are committed and the cluster is
  rescaled, one request at a time, over FIFO channels that may be read in any order.

  Telling the workers something and registering the condition to wait for is one step here. In the program
  messages may be read in between, so that a condition fires at a later change or not at all; as the
  coordinator may go on at any time after a condition has fired, every run of the program is one of the model.
*/
module Coordinator {
  import opened Basics
  import opened WatchMap

  datatype Command =
    | StartBuild
    | StartExecution
    | Snapshot(version: nat)
    | Reconfigure(desired: nat, version: nat)      // the new workers are 0..desired

  datatype Message =
    | BuildDone
    | ExecutionStarted
    | SnapshotStarted
    | SnapshotComplete(version: nat)
    | ReconfigurationStarted
    | ReconfigureComplete(version: nat)
    | ExecutionComplete
    | Removed

  datatype Doing = Connecting | Built | Executing | Taking(version: nat) | Changing(desired: nat, version: nat) | Done

  // A worker and its two channels; `taken`: the versions it has a complete snapshot of.
  datatype Proc = Proc(doing: Doing, commands: seq<Command>, messages: seq<Message>, taken: set<nat>)

  datatype Pc =
    | Idle
    | Stopped                           // no workers are left
    | Building(added: seq<Worker>, after: Option<nat>)
    | Starting(added: seq<Worker>, after: Option<nat>)
    | SnapshotBegun(version: nat)
    | SnapshotRunning(version: nat)
    | ReconfigureBegun(desired: nat, version: nat)
    | ReconfigureRunning(desired: nat, version: nat)

  // A commit, with the workers active then, those watched, and those that had the snapshot.
  datatype Commit = Commit(version: nat, active: set<Worker>, watched: set<Worker>, complete: set<Worker>)

  // `stale`: former connections on which a Removed has not been read yet.
  datatype System = System(
    watch: Watch,
    active: set<Worker>,
    procs: map<Worker, Proc>,
    stale: set<Worker>,
    pc: Pc,
    snapshotVersion: Option<nat>,
    configVersion: Option<nat>,
    commits: seq<Commit>)

  datatype Step =
    | Act(w: Worker, finish: bool)      // the worker goes on; `finish`: its execution is complete
    | Inbound(w: Worker)                // the coordinator's task for w reads a message
    | ReadStale(w: Worker)              // the task of a former connection does
    | Proceed                           // all conditions awaited have fired
    | RequestSnapshot
    | RequestScale(desired: nat)

  // ---------------------------------------------------------------- worker

  function Say(p: Proc, doing: Doing, messages: seq<Message>): Proc {
    p.(doing := doing, messages := p.messages + messages)
  }

  // `Worker::execute`, one communication at a time
  function Behave(p: Proc, w: Worker, finish: bool): Proc {
    match p.doing
    case Connecting =>
      if p.commands != [] && p.commands[0].StartBuild? then Say(p.(commands := p.commands[1..]), Built, [BuildDone]) else p
    case Built =>
      if p.commands != [] && p.commands[0].StartExecution? then
        Say(p.(commands := p.commands[1..]), Executing, [ExecutionStarted])
      else p
    case Executing =>
      if finish then Say(p, Done, [ExecutionComplete])
      else if p.commands == [] then p
      else
        (match p.commands[0]
         case Snapshot(v) => Say(p.(commands := p.commands[1..]), Taking(v), [SnapshotStarted])
         case Reconfigure(desired, v) => Say(p.(commands := p.commands[1..]), Changing(desired, v), [ReconfigurationStarted])
         case _ => p)
    case Taking(v) => Say(p.(taken := p.taken + {v}), Executing, [SnapshotComplete(v)])
    case Changing(desired, v) =>
      if w < desired then Say(p, Executing, [ReconfigureComplete(v)])
      else Say(p, Done, [ReconfigureComplete(v), Removed])
    case Done => p
  }

  // ---------------------------------------------------------------- coordinator

  // `worker_comm_inbound`; None removes the worker
  function NewState(msg: Message, state: WorkerState): Option<WorkerState> {
    match msg
    case BuildDone => Some(state.(phase := BuildComplete))
    case ExecutionStarted => Some(state.(phase := Running))
    case SnapshotStarted => Some(state.(phase := Snapshotting))
    case SnapshotComplete(v) => Some(WorkerState(Running, Some(v)))
    case ReconfigurationStarted => Some(state.(phase := Reconfiguring))
    case ReconfigureComplete(_) => Some(state.(phase := Running))
    case ExecutionComplete => Some(state.(phase := Completed))
    case Removed => None
  }

  function Updated(store: map<Worker, WorkerState>, w: Worker, msg: Message): map<Worker, WorkerState> {
    match NewState(msg, Lookup(store, w).GetOr(DefaultState))
    case Some(state) => store[w := state]
    case None => store - {w}
  }

  // The workers of 0..desired that are not active yet.
  function Fresh(active: set<Worker>, desired: nat): seq<Worker> {
    if desired == 0 then []
    else Fresh(active, desired - 1) + (if desired - 1 in active then [] else [desired - 1])
  }

  function Each(workers: seq<Worker>, phase: Phase): seq<Condition> {
    seq(|workers|, i requires 0 <= i < |workers| => One(workers[i], phase))
  }

  function Tell(p: Proc, c: Command): Proc {
    p.(commands := p.commands + [c])
  }

  function TellAll(s: System, c: Command): map<Worker, Proc> {
    map w | w in s.procs :: Tell(s.procs[w], c)
  }

  const NewProc := Proc(Connecting, [StartBuild], [], {})

  function NextVersion(version: Option<nat>): nat {
    match version case Some(v) => v + 1 case None => 0
  }

  // New workers, each with an entry of its own.
  function Connected(procs: map<Worker, Proc>, added: seq<Worker>): (m: map<Worker, Proc>)
    ensures forall w :: w in m <==> w in procs || w in added
    ensures forall w :: w in m ==> m[w] == if w in added then NewProc else procs[w]
  {
    if added == [] then procs else Connected(procs, added[..|added| - 1])[added[|added| - 1] := NewProc]
  }

  function Watched(store: map<Worker, WorkerState>, added: seq<Worker>): (m: map<Worker, WorkerState>)
    ensures forall w :: w in m <==> w in store || w in added
    ensures forall w :: w in m ==> m[w] == if w in added then DefaultState else store[w]
  {
    if added == [] then store else Watched(store, added[..|added| - 1])[added[|added| - 1] := DefaultState]
  }

  function TellThese(procs: map<Worker, Proc>, added: seq<Worker>, c: Command): (m: map<Worker, Proc>)
    ensures m.Keys == procs.Keys
    ensures forall w :: w in m ==> m[w] == if w in added then Tell(procs[w], c) else procs[w]
  {
    if added == [] then procs
    else
      var m, w := TellThese(procs, added[..|added| - 1], c), added[|added| - 1];
      if w in procs then m[w := Tell(procs[w], c)] else m
  }

  // `setup_comm` and `start_build` of the workers that are not there yet
  function Connect(s: System, added: seq<Worker>, after: Option<nat>): System {
    s.(watch := Watch(Watched(s.watch.store, added), Each(added, BuildComplete)),
       active := s.active + (set w | w in added),
       procs := Connected(s.procs, added),
       pc := Building(added, after))
  }

  function Continue(s: System): System {
    match s.pc
    case Idle => s
    case Stopped => s
    case Building(added, after) =>
      s.(procs := TellThese(s.procs, added, StartExecution),
         watch := s.watch.(waiting := Each(added, Running)),
         pc := Starting(added, after))
    case Starting(_, None) => s.(pc := Idle)
    case Starting(_, Some(desired)) =>
      var v := NextVersion(s.configVersion);
      s.(procs := TellAll(s, Reconfigure(desired, v)),
         watch := s.watch.(waiting := [All(Reconfiguring)]),
         pc := ReconfigureBegun(desired, v))
    case SnapshotBegun(v) => s.(watch := s.watch.(waiting := [All(Running)]), pc := SnapshotRunning(v))
    case SnapshotRunning(v) =>
      s.(commits := s.commits + [Commit(v, s.active,
                                        s.watch.store.Keys,
                                        (set w | w in s.procs && v in s.procs[w].taken))],
         snapshotVersion := Some(v),
         pc := Idle)
    case ReconfigureBegun(desired, v) =>
      s.(watch := s.watch.(waiting := [All(Running)]), pc := ReconfigureRunning(desired, v))
    case ReconfigureRunning(desired, v) =>
      var gone := set w | w in s.active && w >= desired;
      s.(watch := Watch(s.watch.store - gone, s.watch.waiting),
         active := s.active - gone,
         procs := s.procs - gone,
         stale := s.stale + (set w | w in gone && w in s.procs && Removed in s.procs[w].messages),
         configVersion := Some(v),
         pc := if s.active <= gone then Stopped else Idle)
  }

  // A step that is not possible changes nothing.
  function Apply(s: System, step: Step): System {
    match step
    case Act(w, finish) => if w in s.procs then s.(procs := s.procs[w := Behave(s.procs[w], w, finish)]) else s
    case Inbound(w) =>
      if w in s.procs && s.procs[w].messages != [] then
        var p := s.procs[w];
        s.(watch := Change(s.watch, Updated(s.watch.store, w, p.messages[0])),
           procs := s.procs[w := p.(messages := p.messages[1..])])
      else s
    case ReadStale(w) =>
      if w in s.stale then s.(watch := Change(s.watch, s.watch.store - {w}), stale := s.stale - {w}) else s
    case Proceed => if s.watch.waiting == [] then Continue(s) else s
    case RequestSnapshot =>
      if s.pc == Idle then
        var v := NextVersion(s.snapshotVersion);
        s.(procs := TellAll(s, Snapshot(v)), watch := s.watch.(waiting := [All(Snapshotting)]), pc := SnapshotBegun(v))
      else s
    case RequestScale(desired) =>
      if s.pc != Idle then s
      else if desired != |s.active| then Connect(s, Fresh(s.active, desired), Some(desired))
      else if s.active == {} then s.(pc := Stopped)
      else s
  }

  // A coordinator that starts with n workers, possibly from an earlier snapshot.
  function Init(n: nat, snapshotVersion: Option<nat>, configVersion: Option<nat>): System {
    Connect(System(Watch(map[], []), {}, map[], {}, Idle, snapshotVersion, configVersion, []), Fresh({}, n), None)
  }

  function Run(init: System, steps: seq<Step>): System {
    if steps == [] then init else Apply(Run(init, steps[..|steps| - 1]), steps[|steps| - 1])
  }

  // A worker is added again only once its former connection has been read to the end.
  predicate CleanStep(s: System, step: Step) {
    step.RequestScale? && s.pc == Idle ==> forall w :: w in s.stale ==> w in s.active || w >= step.desired
  }

  predicate Clean(init: System, steps: seq<Step>) {
    forall i :: 0 <= i < |steps| ==> CleanStep(Run(init, steps[..i]), steps[i])
  }

  // ---------------------------------------------------------------- one worker

  datatype Kind = TakeSnapshot(version: nat) | ChangeWorkers(desired: nat, version: nat)

  function Order(kind: Kind): Command {
    match kind case TakeSnapshot(v) => Snapshot(v) case ChangeWorkers(desired, v) => Reconfigure(desired, v)
  }

  function Begun(kind: Kind): Message {
    match kind case TakeSnapshot(_) => SnapshotStarted case ChangeWorkers(_, _) => ReconfigurationStarted
  }

  function Ended(kind: Kind): Message {
    match kind case TakeSnapshot(v) => SnapshotComplete(v) case ChangeWorkers(_, v) => ReconfigureComplete(v)
  }

  function Busy(kind: Kind): Doing {
    match kind case TakeSnapshot(v) => Taking(v) case ChangeWorkers(desired, v) => Changing(desired, v)
  }

  function BusyPhase(kind: Kind): Phase {
    match kind case TakeSnapshot(_) => Snapshotting case ChangeWorkers(_, _) => Reconfiguring
  }

  predicate Leaves(kind: Kind, w: Worker) {
    kind.ChangeWorkers? && w >= kind.desired
  }

  // What a worker that has nothing to do may still have in its channel.
  predicate Rest(leaves: bool, doing: Doing, messages: seq<Message>) {
    if leaves then doing == Done && messages == [Removed]
    else (doing == Executing && messages == []) || (doing == Done && messages == [ExecutionComplete])
  }

  predicate AtRest(st: Option<WorkerState>, p: Proc) {
    && st.Some?
    && ((Rest(false, p.doing, p.messages) && st.value.phase == Running)
        || (p.doing == Done && p.messages == [] && st.value.phase == Completed))
  }

  predicate HasTaken(kind: Kind, p: Proc) {
    kind.TakeSnapshot? ==> kind.version in p.taken
  }

  // The worker has not started, or the coordinator has not read that it has.
  predicate DueFor(kind: Kind, w: Worker, st: Option<WorkerState>, p: Proc) {
    || (p.commands == [Order(kind)] && AtRest(st, p))
    || (&& p.commands == [] && st.Some? && st.value.phase == Running && p.messages != [] && p.messages[0] == Begun(kind)
        && ((p.doing == Busy(kind) && |p.messages| == 1)
            || (|p.messages| >= 2 && p.messages[1] == Ended(kind) && Rest(Leaves(kind, w), p.doing, p.messages[2..])
                && HasTaken(kind, p))))
  }

  predicate BusyWith(kind: Kind, w: Worker, st: Option<WorkerState>, p: Proc) {
    && p.commands == [] && st.Some? && st.value.phase == BusyPhase(kind)
    && ((p.doing == Busy(kind) && p.messages == [])
        || (p.messages != [] && p.messages[0] == Ended(kind) && Rest(Leaves(kind, w), p.doing, p.messages[1..])
            && HasTaken(kind, p)))
  }

  predicate OverWith(kind: Kind, w: Worker, st: Option<WorkerState>, p: Proc) {
    && p.commands == [] && HasTaken(kind, p)
    && (kind.TakeSnapshot? ==> st.Some? && st.value.snapshotVersion == Some(kind.version))
    && ((st.Some? && st.value.phase == Running && Rest(Leaves(kind, w), p.doing, p.messages))
        || (p.doing == Done && p.messages == []
            && if Leaves(kind, w) then st.None? else st.Some? && st.value.phase == Completed))
  }

  predicate Passing(kind: Kind, w: Worker, st: Option<WorkerState>, p: Proc) {
    BusyWith(kind, w, st, p) || OverWith(kind, w, st, p)
  }

  predicate ToBuild(st: Option<WorkerState>, p: Proc) {
    && st.Some? && st.value.phase == Unknown
    && ((p.doing == Connecting && p.commands == [StartBuild] && p.messages == [])
        || (p.doing == Built && p.commands == [] && p.messages == [BuildDone]))
  }

  predicate IsBuilt(st: Option<WorkerState>, p: Proc) {
    st.Some? && st.value.phase == BuildComplete && p.doing == Built && p.commands == [] && p.messages == []
  }

  predicate ToStart(st: Option<WorkerState>, p: Proc) {
    && st.Some? && st.value.phase == BuildComplete
    && ((p.doing == Built && p.commands == [StartExecution] && p.messages == [])
        || (p.commands == [] && p.messages != [] && p.messages[0] == ExecutionStarted && Rest(false, p.doing, p.messages[1..])))
  }

  predicate Resting(st: Option<WorkerState>, p: Proc) {
    p.commands == [] && AtRest(st, p)
  }

  // What can be said about an active worker; `fired`: the condition that concerns it has.
  predicate Fine(pc: Pc, fired: bool, w: Worker, st: Option<WorkerState>, p: Proc) {
    match pc
    case Idle => Resting(st, p)
    case Stopped => Resting(st, p)
    case Building(added, _) =>
      if w in added then IsBuilt(st, p) || (!fired && ToBuild(st, p)) else Resting(st, p)
    case Starting(added, _) =>
      if w in added then Resting(st, p) || (!fired && ToStart(st, p)) else Resting(st, p)
    case SnapshotBegun(v) => Passing(TakeSnapshot(v), w, st, p) || (!fired && DueFor(TakeSnapshot(v), w, st, p))
    case SnapshotRunning(v) => OverWith(TakeSnapshot(v), w, st, p) || (!fired && BusyWith(TakeSnapshot(v), w, st, p))
    case ReconfigureBegun(desired, v) =>
      Passing(ChangeWorkers(desired, v), w, st, p) || (!fired && DueFor(ChangeWorkers(desired, v), w, st, p))
    case ReconfigureRunning(desired, v) =>
      OverWith(ChangeWorkers(desired, v), w, st, p) || (!fired && BusyWith(ChangeWorkers(desired, v), w, st, p))
  }

  function Goal(pc: Pc, w: Worker): Condition {
    match pc
    case Idle => All(Running)
    case Building(_, _) => One(w, BuildComplete)
    case Starting(_, _) => One(w, Running)
    case SnapshotBegun(_) => All(Snapshotting)
    case ReconfigureBegun(_, _) => All(Reconfiguring)
    case _ => All(Running)
  }

  // A condition that holds says how far the worker is.
  lemma Lift(pc: Pc, w: Worker, store: map<Worker, WorkerState>, p: Proc)
    requires Fine(pc, false, w, Lookup(store, w), p) && Holds(Goal(pc, w), store)
    ensures Fine(pc, true, w, Lookup(store, w), p)
  {
  }

  lemma BehaveInRound(kind: Kind, w: Worker, st: Option<WorkerState>, p: Proc, finish: bool)
    ensures OverWith(kind, w, st, p) ==> OverWith(kind, w, st, Behave(p, w, finish))
    ensures BusyWith(kind, w, st, p) ==> BusyWith(kind, w, st, Behave(p, w, finish))
    ensures DueFor(kind, w, st, p) ==> DueFor(kind, w, st, Behave(p, w, finish))
  {
  }

  lemma BehaveKeeps(pc: Pc, fired: bool, w: Worker, st: Option<WorkerState>, p: Proc, finish: bool)
    requires Fine(pc, fired, w, st, p)
    ensures Fine(pc, fired, w, st, Behave(p, w, finish))
  {
    match pc
    case SnapshotBegun(v) => BehaveInRound(TakeSnapshot(v), w, st, p, finish);
    case SnapshotRunning(v) => BehaveInRound(TakeSnapshot(v), w, st, p, finish);
    case ReconfigureBegun(desired, v) => BehaveInRound(ChangeWorkers(desired, v), w, st, p, finish);
    case ReconfigureRunning(desired, v) => BehaveInRound(ChangeWorkers(desired, v), w, st, p, finish);
    case _ =>
  }

  lemma InboundKeeps(pc: Pc, fired: bool, w: Worker, store: map<Worker, WorkerState>, p: Proc)
    requires Fine(pc, fired, w, Lookup(store, w), p) && p.messages != []
    ensures Fine(pc, fired, w, Lookup(Updated(store, w, p.messages[0]), w), p.(messages := p.messages[1..]))
  {
  }

  // ---------------------------------------------------------------- all workers

  ghost predicate Fits(s: System, w: Worker)
    requires w in s.procs
  {
    Fine(s.pc, Goal(s.pc, w) !in s.watch.waiting, w, Lookup(s.watch.store, w), s.procs[w])
  }

  ghost predicate Inv(s: System) {
    && s.procs.Keys == s.active
    && s.watch.store.Keys <= s.active
    && s.stale !! s.active
    && (s.pc == Idle ==> s.watch.waiting == [])
    && (forall w :: w in s.active ==> Fits(s, w))
  }

  // After a change of the store, each worker still fits if it would have without conditions firing.
  lemma ChangeFits(pc: Pc, waiting: seq<Condition>, w: Worker, store: map<Worker, WorkerState>, p: Proc)
    requires Fine(pc, Goal(pc, w) !in waiting, w, Lookup(store, w), p)
    ensures Fine(pc, Goal(pc, w) !in Unsatisfied(waiting, store), w, Lookup(store, w), p)
  {
    StillWaitingIff(waiting, store, Goal(pc, w));
    if Goal(pc, w) in waiting && Holds(Goal(pc, w), store) {
      Lift(pc, w, store, p);
    }
  }

  lemma InboundInv(s: System, w: Worker)
    requires Inv(s) && w in s.procs && s.procs[w].messages != []
    ensures Inv(Apply(s, Inbound(w)))
  {
    var t := Apply(s, Inbound(w));
    assert t.watch.waiting == Unsatisfied(s.watch.waiting, t.watch.store);
    forall x | x in s.active ensures Fits(t, x) {
      assert Fits(s, x);
      if x == w {
        InboundKeeps(s.pc, Goal(s.pc, w) !in s.watch.waiting, w, s.watch.store, s.procs[w]);
      } else {
        assert Lookup(t.watch.store, x) == Lookup(s.watch.store, x);
      }
      ChangeFits(s.pc, s.watch.waiting, x, t.watch.store, t.procs[x]);
    }
  }

  lemma ReadStaleInv(s: System, w: Worker)
    requires Inv(s) && w in s.stale
    ensures Inv(Apply(s, ReadStale(w)))
  {
    var t := Apply(s, ReadStale(w));
    assert t.watch.store == s.watch.store;
    forall x | x in s.active ensures Fits(t, x) {
      assert Fits(s, x);
      ChangeFits(s.pc, s.watch.waiting, x, t.watch.store, t.procs[x]);
    }
  }

  lemma {:induction false} EachIs(workers: seq<Worker>, phase: Phase, w: Worker)
    ensures One(w, phase) in Each(workers, phase) <==> w in workers
  {
    if w in workers {
      var i :| 0 <= i < |workers| && workers[i] == w;
      assert Each(workers, phase)[i] == One(w, phase);
    }
  }

  lemma {:induction false} AddedIs(active: set<Worker>, desired: nat, w: Worker)
    ensures w in Fresh(active, desired) <==> w < desired && w !in active
  {
    if desired > 0 { AddedIs(active, desired - 1, w); }
  }

  lemma ConnectInv(s: System, added: seq<Worker>, after: Option<nat>)
    requires Inv(s) && s.pc == Idle
    requires forall w :: w in added ==> w !in s.active && w !in s.stale
    ensures Inv(Connect(s, added, after))
  {
    var t := Connect(s, added, after);
    forall w | w in t.active ensures Fits(t, w) {
      EachIs(added, BuildComplete, w);
      if w in s.active { assert Fits(s, w); }
    }
  }

  lemma ContinueFits(s: System, w: Worker)
    requires Inv(s) && s.watch.waiting == [] && w in s.active && w in Continue(s).active
    ensures w in Continue(s).procs && Fits(Continue(s), w)
  {
    assert Fits(s, w);
    match s.pc
    case Building(added, _) => EachIs(added, Running, w);
    case _ =>
  }

  lemma ContinueInv(s: System)
    requires Inv(s) && s.watch.waiting == []
    ensures Inv(Continue(s))
  {
    var t := Continue(s);
    forall w | w in t.active ensures w in t.procs && Fits(t, w) {
      ContinueFits(s, w);
    }
  }

  lemma RequestInv(s: System, step: Step)
    requires Inv(s) && CleanStep(s, step) && (step.RequestSnapshot? || step.RequestScale?)
    ensures Inv(Apply(s, step))
  {
    var t := Apply(s, step);
    match step
    case RequestSnapshot =>
      forall w | w in t.active ensures Fits(t, w) {
        assert Fits(s, w);
      }
    case RequestScale(desired) =>
      if s.pc == Idle && desired != |s.active| {
        forall w | w in Fresh(s.active, desired) ensures w !in s.active && w !in s.stale {
          AddedIs(s.active, desired, w);
        }
        ConnectInv(s, Fresh(s.active, desired), Some(desired));
      }
  }

  lemma StepInv(s: System, step: Step)
    requires Inv(s) && CleanStep(s, step)
    ensures Inv(Apply(s, step))
  {
    match step
    case Act(w, finish) =>
      var t := Apply(s, step);
      forall x | x in t.active ensures Fits(t, x) {
        assert Fits(s, x);
        if x == w { BehaveKeeps(s.pc, Goal(s.pc, w) !in s.watch.waiting, w, Lookup(s.watch.store, w), s.procs[w], finish); }
      }
    case Inbound(w) => if w in s.procs && s.procs[w].messages != [] { InboundInv(s, w); }
    case ReadStale(w) => if w in s.stale { ReadStaleInv(s, w); }
    case Proceed => if s.watch.waiting == [] { ContinueInv(s); }
    case _ => RequestInv(s, step);
  }

  lemma {:induction false} RunKeepsInv(n: nat, snapshotVersion: Option<nat>, configVersion: Option<nat>, steps: seq<Step>)
    requires Clean(Init(n, snapshotVersion, configVersion), steps)
    ensures Inv(Run(Init(n, snapshotVersion, configVersion), steps))
  {
    var init := Init(n, snapshotVersion, configVersion);
    if steps == [] {
      ConnectInv(System(Watch(map[], []), {}, map[], {}, Idle, snapshotVersion, configVersion, []), Fresh({}, n), None);
    } else {
      var last := |steps| - 1;
      assert Clean(init, steps[..last]) by {
        forall i | 0 <= i < last ensures CleanStep(Run(init, steps[..last][..i]), steps[..last][i]) {
          assert steps[..last][..i] == steps[..i];
        }
      }
      RunKeepsInv(n, snapshotVersion, configVersion, steps[..last]);
      StepInv(Run(init, steps[..last]), steps[last]);
    }
  }

  // ---------------------------------------------------------------- theorems

  /** Between operations the coordinator watches exactly the active workers. */
  lemma WatchedAreActive(n: nat, snapshotVersion: Option<nat>, configVersion: Option<nat>, steps: seq<Step>)
    requires Clean(Init(n, snapshotVersion, configVersion), steps)
    ensures var s := Run(Init(n, snapshotVersion, configVersion), steps);
            s.pc == Idle ==> s.watch.store.Keys == s.active
  {
    RunKeepsInv(n, snapshotVersion, configVersion, steps);
    var s := Run(Init(n, snapshotVersion, configVersion), steps);
    forall w | w in s.active && s.pc == Idle ensures w in s.watch.store {
      assert Fits(s, w);
    }
  }

  // A commit that is due: every active worker's completion has been read, and the worker does have the snapshot.
  lemma CommitDue(s: System)
    requires Inv(s) && s.pc.SnapshotRunning? && s.watch.waiting == []
    ensures s.watch.store.Keys == s.active
    ensures forall w :: w in s.active ==>
              && w in s.watch.store && s.watch.store[w].snapshotVersion == Some(s.pc.version)
              && w in s.procs && s.pc.version in s.procs[w].taken
  {
    forall w | w in s.active
      ensures w in s.watch.store && s.watch.store[w].snapshotVersion == Some(s.pc.version)
      ensures w in s.procs && s.pc.version in s.procs[w].taken
    {
      assert Fits(s, w);
    }
  }

  /** Whatever the order in which messages are read: when a commit is due, every active worker is watched, its
      SnapshotComplete of this very version has been read, and it does have the snapshot. */
  lemma CommitIsSafe(n: nat, snapshotVersion: Option<nat>, configVersion: Option<nat>, steps: seq<Step>)
    requires Clean(Init(n, snapshotVersion, configVersion), steps)
    requires Run(Init(n, snapshotVersion, configVersion), steps).pc.SnapshotRunning?
    requires Run(Init(n, snapshotVersion, configVersion), steps).watch.waiting == []
    ensures var s := Run(Init(n, snapshotVersion, configVersion), steps);
            && s.watch.store.Keys == s.active
            && forall w :: w in s.active ==>
                 && w in s.watch.store && s.watch.store[w].snapshotVersion == Some(s.pc.version)
                 && w in s.procs && s.pc.version in s.procs[w].taken
  {
    RunKeepsInv(n, snapshotVersion, configVersion, steps);
    CommitDue(Run(Init(n, snapshotVersion, configVersion), steps));
  }

  ghost predicate Complete(c: Commit) {
    c.complete == c.watched == c.active
  }

  /** So every version ever committed is complete on all workers that were active then. */
  lemma {:induction false} CommitsAreComplete(n: nat, snapshotVersion: Option<nat>, configVersion: Option<nat>, steps: seq<Step>)
    requires Clean(Init(n, snapshotVersion, configVersion), steps)
    ensures forall c :: c in Run(Init(n, snapshotVersion, configVersion), steps).commits ==> Complete(c)
  {
    var init := Init(n, snapshotVersion, configVersion);
    if steps != [] {
      var last := |steps| - 1;
      assert Clean(init, steps[..last]) by {
        forall i | 0 <= i < last ensures CleanStep(Run(init, steps[..last][..i]), steps[..last][i]) {
          assert steps[..last][..i] == steps[..i];
        }
      }
      CommitsAreComplete(n, snapshotVersion, configVersion, steps[..last]);
      RunKeepsInv(n, snapshotVersion, configVersion, steps[..last]);
      NewCommitIsComplete(Run(init, steps[..last]), steps[last]);
    }
  }

  lemma NewCommitIsComplete(s: System, step: Step)
    requires Inv(s)
    ensures forall c :: c in Apply(s, step).commits ==> c in s.commits || Complete(c)
  {
    if step.Proceed? && s.pc.SnapshotRunning? && s.watch.waiting == [] {
      CommitDue(s);
    }
  }

  ghost predicate Numbered(s: System, first: Option<nat>) {
    && s.snapshotVersion == (if s.commits == [] then first else Some(s.commits[|s.commits| - 1].version))
    && (s.pc.SnapshotBegun? || s.pc.SnapshotRunning? ==> s.pc.version == NextVersion(s.snapshotVersion))
    && (s.commits != [] ==> s.commits[0].version == if first.None? then 0 else first.value + 1)
    && (forall i :: 0 < i < |s.commits| ==> s.commits[i].version == s.commits[i - 1].version + 1)
  }

  // Only the end of a snapshot commits.
  lemma NothingCommitted(s: System, step: Step)
    requires !(step.Proceed? && s.pc.SnapshotRunning? && s.watch.waiting == [])
    ensures var t := Apply(s, step);
            && t.commits == s.commits && t.snapshotVersion == s.snapshotVersion
            && (t.pc.SnapshotBegun? ==> t.pc == s.pc || t.pc.version == NextVersion(s.snapshotVersion))
            && (t.pc.SnapshotRunning? ==> t.pc == s.pc || (s.pc.SnapshotBegun? && t.pc.version == s.pc.version))
  {
  }

  lemma NumberedStep(s: System, step: Step, first: Option<nat>)
    requires Numbered(s, first)
    ensures Numbered(Apply(s, step), first)
  {
    if step.Proceed? && s.pc.SnapshotRunning? && s.watch.waiting == [] {
      var t := Apply(s, step);
      assert t.commits[..|s.commits|] == s.commits;
      assert t.commits[|s.commits|].version == NextVersion(s.snapshotVersion);
    } else {
      NothingCommitted(s, step);
    }
  }

  // Versions are committed without gap or repetition, following the one the job was resumed from.
  lemma {:induction false} CommitsAreNumbered(n: nat, snapshotVersion: Option<nat>, configVersion: Option<nat>, steps: seq<Step>)
    ensures Numbered(Run(Init(n, snapshotVersion, configVersion), steps), snapshotVersion)
  {
    if steps != [] {
      CommitsAreNumbered(n, snapshotVersion, configVersion, steps[..|steps| - 1]);
      NumberedStep(Run(Init(n, snapshotVersion, configVersion), steps[..|steps| - 1]), steps[|steps| - 1], snapshotVersion);
    }
  }

  // The versions of all changes of the workers that were carried out.
  function Changes(init: System, steps: seq<Step>): seq<nat> {
    if steps == [] then []
    else
      var s, step := Run(init, steps[..|steps| - 1]), steps[|steps| - 1];
      Changes(init, steps[..|steps| - 1]) +
      (if step.Proceed? && s.pc.ReconfigureRunning? && s.watch.waiting == [] then [s.pc.version] else [])
  }

  ghost predicate ChangesNumbered(s: System, changes: seq<nat>, first: Option<nat>) {
    && (forall i :: 0 <= i < |changes| ==> changes[i] == i + (if first.None? then 0 else first.value + 1))
    && s.configVersion == (if changes == [] then first else Some(changes[|changes| - 1]))
    && (s.pc.ReconfigureBegun? || s.pc.ReconfigureRunning? ==> s.pc.version == NextVersion(s.configVersion))
  }

  lemma ChangesNumberedStep(s: System, step: Step, changes: seq<nat>, first: Option<nat>)
    requires ChangesNumbered(s, changes, first)
    ensures var more := if step.Proceed? && s.pc.ReconfigureRunning? && s.watch.waiting == [] then [s.pc.version] else [];
            ChangesNumbered(Apply(s, step), changes + more, first)
  {
    if step.Proceed? && s.pc.ReconfigureRunning? && s.watch.waiting == [] {
      assert (changes + [s.pc.version])[|changes|] == s.pc.version;
    } else {
      assert changes + [] == changes;
      NothingChanged(s, step);
    }
  }

  // Only the end of a change sets its version.
  lemma NothingChanged(s: System, step: Step)
    requires !(step.Proceed? && s.pc.ReconfigureRunning? && s.watch.waiting == [])
    ensures var t := Apply(s, step);
            && t.configVersion == s.configVersion
            && (t.pc.ReconfigureBegun? ==> t.pc == s.pc || t.pc.version == NextVersion(s.configVersion))
            && (t.pc.ReconfigureRunning? ==> t.pc == s.pc || (s.pc.ReconfigureBegun? && t.pc.version == s.pc.version))
  {
  }

  // So are the versions of changes: they tell newer from older traffic between workers.
  lemma {:induction false} ChangesAreNumbered(n: nat, snapshotVersion: Option<nat>, configVersion: Option<nat>, steps: seq<Step>)
    ensures var init := Init(n, snapshotVersion, configVersion);
            ChangesNumbered(Run(init, steps), Changes(init, steps), configVersion)
  {
    if steps != [] {
      var init := Init(n, snapshotVersion, configVersion);
      var before := steps[..|steps| - 1];
      ChangesAreNumbered(n, snapshotVersion, configVersion, before);
      ChangesNumberedStep(Run(init, before), steps[|steps| - 1], Changes(init, before), configVersion);
    }
  }
}
