/**
 What one undisturbed run achieves, under Gardener's own rules and with the wrapper, for every object: which operation
 it is, what the object is afterwards, and what the seed of a shoot holds.
 */
module LifecycleRuns {
  import opened Wrappers
  import opened ApiServer
  import opened Lifecycle
  import opened LifecycleCalls
  import opened LifecycleDeletion
  import ShootActuator
  import ShootDecisions

  /** The same object but for its version. */
  predicate Like(a: Logging, b: Logging) {
    a.(version := 0) == b.(version := 0)
  }

  predicate IsLike(logging: Option<Logging>, o: Logging) {
    logging.Some? && Like(logging.value, o)
  }

  predicate Gone(o: Logging) {
    o.deleting && o.finalizers == {}
  }

  predicate BecomesLike(logging: Option<Logging>, o: Logging) {
    if Gone(o) then logging.None? else IsLike(logging, o)
  }

  function WithStatus(o: Logging, kind: OperationType, state: OperationState): Logging {
    o.(lastOperation := Some(LastOperation(kind, state)))
  }

  function WithFinalizer(o: Logging): Logging {
    o.(finalizers := o.finalizers + {"extensions.gardener.cloud/logging"})
  }

  /** What the seed of a shoot holds after an operation with a configuration. */
  ghost predicate Settled(s: System, setUp: bool, config: ShootActuator.Config) {
    s.seed ||
    if setUp then
      && ShootDecisions.Present(s.objects, s.namespace) == ShootDecisions.Expected(config.(namespace := s.namespace))
      && (ShootDecisions.NodeLoggingConfigured(config.(namespace := s.namespace)) ==>
            ShootActuator.ControlPlaneKeys(s.namespace) <= s.objects.Keys)
    else s.objects.Keys !! ShootActuator.StackKeys(s.namespace)
  }

  /** The object while the operation is under way. */
  function Prepared(o: Logging, path: Path): Logging {
    if SetsUp(path) then WithFinalizer(o) else o
  }

  /** The object once success is written. */
  function Succeeding(o: Logging, path: Path): Logging {
    WithStatus(Prepared(o, path), RecordedType(path), Succeeded)
  }

  /** The object at the end. */
  function Final(o: Logging, path: Path): Logging {
    var n := Succeeding(o, path);
    match path
    case ReconcilePath(_) => n
    case RestorePath => n.(operation := NoOperation)
    case DeletePath => n.(finalizers := n.finalizers - {"extensions.gardener.cloud/logging"})
    case MigratePath => n.(finalizers := {}, operation := NoOperation)
  }

  predicate Current(s: System, local: Logging, o: Logging) {
    s.logging == Some(local) && Like(local, o)
  }

  /** Where an undisturbed run of the operation on the object stands. */
  ghost predicate OnPlan(s: System, o: Logging, path: Path, config: ShootActuator.Config) {
    match s.phase
    case Adding(p, local) => p == path && SetsUp(path) && Current(s, local, o)
    case Announcing(p, local) => p == path && Current(s, local, Prepared(o, path))
    case Acting(p, local) =>
      p == path && Current(s, local, WithStatus(Prepared(o, path), RecordedType(path), Processing))
    case Reporting(p, local, acted) =>
      && p == path && acted && Current(s, local, WithStatus(Prepared(o, path), RecordedType(path), Processing))
      && Settled(s, SetsUp(path), config)
    case Releasing(p, local) =>
      p == path && !SetsUp(path) && Current(s, local, Succeeding(o, path)) && Settled(s, false, config)
    case Unannotating(p, local) =>
      && p == path && Settled(s, SetsUp(path), config)
      && (path == RestorePath ==> Current(s, local, Succeeding(o, path)))
      && (path != RestorePath ==>
            path == MigratePath &&
            if o.deleting then s.logging.None?
            else Current(s, local, Succeeding(o, path).(finalizers := {})))
    case _ => false
  }

  /** The operation can be one on the object. */
  predicate Fits(o: Logging, path: Path) {
    && Alive(o)
    && (SetsUp(path) ==> !o.deleting)
    && (path == DeletePath ==> o.deleting && FINALIZER in o.finalizers)
  }

  /** The run is over as planned; only the migration of an object that thereby goes away returns an error. */
  ghost predicate Over(s: System, o: Logging, path: Path, config: ShootActuator.Config) {
    && s.phase.Idle? && BecomesLike(s.logging, Final(o, path)) && Settled(s, SetsUp(path), config)
    && s.history != [] && (s.history[|s.history| - 1].ok <==> !(path == MigratePath && o.deleting))
  }

  lemma AddOnPlan(s: System, t: Turn, o: Logging, path: Path, config: ShootActuator.Config)
    requires OnPlan(s, o, path, config) && Fits(o, path) && Quiet(s, t) && s.phase.Adding?
    ensures OnPlan(Call(GARDENER_RULES, s, t), o, path, config)
  {
  }

  lemma AnnounceOnPlan(s: System, t: Turn, o: Logging, path: Path, config: ShootActuator.Config)
    requires OnPlan(s, o, path, config) && Fits(o, path) && Quiet(s, t) && s.phase.Announcing?
    ensures OnPlan(Call(GARDENER_RULES, s, t), o, path, config)
  {
    hide Settled;
  }

  lemma PerformOnPlan(s: System, t: Turn, o: Logging, path: Path)
    requires OnPlan(s, o, path, t.config) && Fits(o, path) && Quiet(s, t) && s.phase.Acting?
    ensures OnPlan(Next(GARDENER_RULES, s, t), o, path, t.config)
  {
    var local := s.phase.local;
    ActorsCall(GARDENER_RULES, s, t);
    PerformKeeps(s, t);
    hide Next, Act;
    if !s.seed {
      if SetsUp(path) {
        SetUpLeavesExpected(GARDENER_RULES, s, t);
      } else {
        TakeDownLeavesNothing(GARDENER_RULES, s, t);
      }
    }
    hide ShootDecisions.Present, ShootDecisions.Expected, ShootDecisions.NodeLoggingConfigured;
    hide ShootActuator.ControlPlaneKeys, ShootActuator.StackKeys;
  }

  lemma PerformKeeps(s: System, t: Turn)
    requires s.phase.Acting? && t.env == Keep
    ensures
      var next := Next(GARDENER_RULES, s, t);
      next.logging == s.logging && next.seed == s.seed && next.namespace == s.namespace
  {
    hide Act;
  }

  lemma ReportResult(s: System, t: Turn, path: Path, local: Logging, now: Logging)
    requires s.phase == Reporting(path, local, true) && s.logging == Some(now) && Alive(now) && t.outcome == Done
    ensures
      var next := Call(GARDENER_RULES, s, t);
      var n := now.(lastOperation := Some(LastOperation(RecordedType(path), Succeeded)), version := s.clock);
      && next.logging == Some(n) && next.objects == s.objects && next.seed == s.seed && next.namespace == s.namespace
      && next.phase == LaterPhase(path, n)
      && (next.phase.Idle? ==> next.history != [] && next.history[|next.history| - 1].ok)
  {
    StatusIsStored(now, s.clock, local, t.outcome, LastOperation(RecordedType(path), Succeeded));
    hide PatchStatus, RecordedType, LaterPhase;
  }

  lemma ReportOnPlan(s: System, t: Turn, o: Logging, path: Path, config: ShootActuator.Config)
    requires OnPlan(s, o, path, config) && Fits(o, path) && Quiet(s, t) && s.phase.Reporting?
    ensures
      var next := Call(GARDENER_RULES, s, t);
      OnPlan(next, o, path, config) || Over(next, o, path, config)
  {
    ReportResult(s, t, path, s.phase.local, s.phase.local);
    hide Call;
    assert Settled(Call(GARDENER_RULES, s, t), SetsUp(path), config);
    hide Settled, RecordedType;
  }

  lemma ReleaseOnDelete(s: System, t: Turn, o: Logging, config: ShootActuator.Config)
    requires OnPlan(s, o, DeletePath, config) && Fits(o, DeletePath) && Quiet(s, t) && s.phase.Releasing?
    ensures Over(Call(GARDENER_RULES, s, t), o, DeletePath, config)
  {
    assert Settled(Call(GARDENER_RULES, s, t), false, config);
    hide Settled;
  }

  lemma ReleaseOnMigrate(s: System, t: Turn, o: Logging, config: ShootActuator.Config)
    requires OnPlan(s, o, MigratePath, config) && Fits(o, MigratePath) && Quiet(s, t) && s.phase.Releasing?
    ensures OnPlan(Call(GARDENER_RULES, s, t), o, MigratePath, config)
  {
    AllAreReleased(s.phase.local, s.clock, t.outcome);
    assert Settled(Call(GARDENER_RULES, s, t), false, config);
    hide Settled, RemoveAllFinalizers;
  }

  lemma ReleaseOnPlan(s: System, t: Turn, o: Logging, path: Path, config: ShootActuator.Config)
    requires OnPlan(s, o, path, config) && Fits(o, path) && Quiet(s, t) && s.phase.Releasing?
    ensures
      var next := Call(GARDENER_RULES, s, t);
      OnPlan(next, o, path, config) || Over(next, o, path, config)
  {
    assert path == DeletePath || path == MigratePath;
    hide OnPlan, Over, Fits, Quiet, Call;
    if path == DeletePath {
      ReleaseOnDelete(s, t, o, config);
    } else {
      ReleaseOnMigrate(s, t, o, config);
    }
  }

  lemma UnannotateOnPlan(s: System, t: Turn, o: Logging, path: Path, config: ShootActuator.Config)
    requires OnPlan(s, o, path, config) && Fits(o, path) && Quiet(s, t) && s.phase.Unannotating?
    ensures Over(Call(GARDENER_RULES, s, t), o, path, config)
  {
    assert Settled(Call(GARDENER_RULES, s, t), SetsUp(path), config);
    hide Settled;
  }

  lemma QuietIsCall(s: System, t: Turn)
    requires Quiet(s, t)
    ensures Next(GARDENER_RULES, s, t) == Call(GARDENER_RULES, s, t)
  {
    hide Call;
  }

  lemma StepOnPlan(s: System, t: Turn, o: Logging, path: Path)
    requires OnPlan(s, o, path, t.config) && Fits(o, path) && Quiet(s, t)
    ensures
      var next := Next(GARDENER_RULES, s, t);
      (OnPlan(next, o, path, t.config) && !next.phase.Idle?) || Over(next, o, path, t.config)
  {
    assert !s.phase.Idle? && !s.phase.Clearing? && !s.phase.Ready? && !s.phase.Fetched?;
    NotIdle(Next(GARDENER_RULES, s, t), o, path, t.config);
    QuietIsCall(s, t);
    hide Next, Call, OnPlan, Over, Fits, Quiet;
    match s.phase {
      case Adding(_, _) => AddOnPlan(s, t, o, path, t.config);
      case Announcing(_, _) => AnnounceOnPlan(s, t, o, path, t.config);
      case Acting(_, _) => PerformOnPlan(s, t, o, path);
      case Reporting(_, _, _) => ReportOnPlan(s, t, o, path, t.config);
      case Releasing(_, _) => ReleaseOnPlan(s, t, o, path, t.config);
      case Unannotating(_, _) => UnannotateOnPlan(s, t, o, path, t.config);
    }
  }

  lemma NotIdle(s: System, o: Logging, path: Path, config: ShootActuator.Config)
    ensures OnPlan(s, o, path, config) ==> !s.phase.Idle?
  {
  }

  /** All turns have the configuration. */
  ghost predicate Configured(turns: seq<Turn>, config: ShootActuator.Config) {
    forall t :: t in turns ==> t.config == config
  }

  /** An undisturbed run that is on its plan ends as planned. */
  lemma {:induction false} RunOnPlan(s: System, turns: seq<Turn>, o: Logging, path: Path, config: ShootActuator.Config)
    requires OnPlan(s, o, path, config) && Fits(o, path)
    requires Clean(s, turns) && OneRun(s, turns) && Configured(turns, config)
    ensures Over(NextAll(GARDENER_RULES, s, turns), o, path, config)
    decreases |turns|
  {
    var next := Next(GARDENER_RULES, s, turns[0]);
    assert turns[0] in turns;
    StepOnPlan(s, turns[0], o, path);
    assert Configured(turns[1..], config);
    if next.phase.Idle? {
      assert turns[1..] == [] && !OnPlan(next, o, path, config);
    } else {
      assert !Over(next, o, path, config);
      RunOnPlan(next, turns[1..], o, path, config);
    }
  }

  // From the request to the dispatch

  /** The run is over and has left the object as it was. */
  ghost predicate LeftAlone(s: System, o: Logging, before: System) {
    && s.phase.Idle? && IsLike(s.logging, o) && s.objects == before.objects
    && s.history != [] && s.history[|s.history| - 1].ok
  }

  /** A deletion without the finalizer is no operation. */
  predicate NoOp(o: Logging, path: Path) {
    path == DeletePath && FINALIZER !in o.finalizers
  }

  ghost predicate RunResult(r: System, o: Logging, before: System, config: ShootActuator.Config) {
    match Dispatch(GARDENER_RULES, o)
    case None => LeftAlone(r, o, before)
    case Some(path) => if NoOp(o, path) then LeftAlone(r, o, before) else Over(r, o, path, config)
  }

  lemma DispatchIgnoresVersion(a: Logging, b: Logging)
    requires Like(a, b)
    ensures Dispatch(GARDENER_RULES, a) == Dispatch(GARDENER_RULES, b)
  {
  }

  lemma DispatchFits(o: Logging)
    requires Alive(o) && Dispatch(GARDENER_RULES, o).Some?
    ensures
      var path := Dispatch(GARDENER_RULES, o).value;
      !NoOp(o, path) ==> Fits(o, path)
  {
  }

  lemma DecideOnPlan(s: System, t: Turn, o: Logging)
    requires s.phase.Fetched? && Current(s, s.phase.local, o) && Quiet(s, t)
    ensures
      var next := Call(GARDENER_RULES, s, t);
      match Dispatch(GARDENER_RULES, o)
      case None => LeftAlone(next, o, s)
      case Some(path) =>
        if NoOp(o, path) then LeftAlone(next, o, s) else OnPlan(next, o, path, t.config) && !next.phase.Idle?
  {
    DispatchIgnoresVersion(s.phase.local, o);
    hide Dispatch, Settled;
  }

  lemma FetchedRun(s: System, turns: seq<Turn>, o: Logging, config: ShootActuator.Config)
    requires s.phase.Fetched? && Current(s, s.phase.local, o) && Alive(o)
    requires Clean(s, turns) && OneRun(s, turns) && Configured(turns, config)
    ensures RunResult(NextAll(GARDENER_RULES, s, turns), o, s, config)
  {
    var (t, rest) := (turns[0], turns[1..]);
    var next := Next(GARDENER_RULES, s, t);
    assert t in turns && Configured(rest, config);
    QuietIsCall(s, t);
    DecideOnPlan(s, t, o);
    if next.phase.Idle? {
      assert rest == [] && NextAll(GARDENER_RULES, next, rest) == next;
    } else {
      DispatchFits(o);
      assert Dispatch(GARDENER_RULES, o).Some?;
      RunOnPlan(next, rest, o, Dispatch(GARDENER_RULES, o).value, config);
    }
    hide Next, Dispatch, OnPlan, Over, LeftAlone, Current, Alive, Fits, NoOp, Quiet, Configured;
  }

  /** The object as the reconciler sees it: the wrapper takes a request for reconciliation away. */
  function Seen(o: Logging): Logging {
    if o.operation == ReconcileOperation then o.(operation := NoOperation) else o
  }

  ghost predicate Opening(s: System, o: Logging, before: System) {
    && IsLike(s.logging, Seen(o)) && s.objects == before.objects && s.seed == before.seed
    && s.namespace == before.namespace && !s.phase.Idle?
    && match s.phase
       case Ready => true
       case Fetched(local) => s.logging == Some(local)
       case _ => false
  }

  lemma ScreenOpens(s: System, t: Turn, o: Logging)
    requires s.phase.Idle? && s.logging == Some(o) && Alive(o) && Quiet(s, t)
    ensures
      var next := Call(GARDENER_RULES, s, t);
      if Waiting(o) then LeftAlone(next, o, s)
      else if o.operation == ReconcileOperation then
        next == s.(phase := Clearing(o))
      else Opening(next, o, s) && next.phase.Ready?
  {
  }

  lemma ClearOpens(s: System, t: Turn, o: Logging)
    requires s.phase == Clearing(o) && s.logging == Some(o) && Alive(o) && Quiet(s, t)
    requires o.operation == ReconcileOperation
    ensures Opening(Call(GARDENER_RULES, s, t), o, s) && Call(GARDENER_RULES, s, t).phase.Ready?
  {
  }

  lemma FetchOpens(s: System, t: Turn, o: Logging, before: System)
    requires s.phase.Ready? && Opening(s, o, before) && Quiet(s, t)
    ensures Opening(Call(GARDENER_RULES, s, t), o, before) && Call(GARDENER_RULES, s, t).phase.Fetched?
  {
  }

  /** A turn that does not end the run leaves the rest of it. */
  lemma TailRun(s: System, turns: seq<Turn>, config: ShootActuator.Config)
    requires Clean(s, turns) && OneRun(s, turns) && Configured(turns, config)
    ensures turns != [] && Quiet(s, turns[0]) && turns[0].config == config
    ensures Next(GARDENER_RULES, s, turns[0]) == Call(GARDENER_RULES, s, turns[0])
    ensures
      var next := Call(GARDENER_RULES, s, turns[0]);
      && NextAll(GARDENER_RULES, s, turns) == NextAll(GARDENER_RULES, next, turns[1..])
      && (next.phase.Idle? ==> NextAll(GARDENER_RULES, s, turns) == next)
      && (!next.phase.Idle? ==>
            Clean(next, turns[1..]) && OneRun(next, turns[1..]) && Configured(turns[1..], config))
  {
    assert turns[0] in turns;
    QuietIsCall(s, turns[0]);
    hide Next, Call, Quiet;
    assert Call(GARDENER_RULES, s, turns[0]).phase.Idle? ==> turns[1..] == [];
  }

  lemma ReadyRun(s: System, turns: seq<Turn>, o: Logging, before: System, config: ShootActuator.Config)
    requires s.phase.Ready? && Opening(s, o, before) && Alive(o)
    requires Clean(s, turns) && OneRun(s, turns) && Configured(turns, config)
    ensures RunResult(NextAll(GARDENER_RULES, s, turns), Seen(o), before, config)
  {
    TailRun(s, turns, config);
    FetchOpens(s, turns[0], o, before);
    var next := Call(GARDENER_RULES, s, turns[0]);
    hide Call, Quiet, Clean, OneRun, NextAll, Configured;
    FetchedRun(next, turns[1..], Seen(o), config);
    ResultFrom(NextAll(GARDENER_RULES, s, turns), Seen(o), next, before, config);
  }

  lemma ResultFrom(r: System, o: Logging, s: System, before: System, config: ShootActuator.Config)
    requires RunResult(r, o, s, config) && s.objects == before.objects
    ensures RunResult(r, o, before, config)
  {
    hide Dispatch, Over;
  }

  /**
   An undisturbed run on an object: one that waits for state is left alone; any other is treated as the dispatch says
   for what the reconciler sees.
   */
  lemma UndisturbedRun(s: System, turns: seq<Turn>, o: Logging, config: ShootActuator.Config)
    requires s.phase.Idle? && s.logging == Some(o) && Alive(o)
    requires Clean(s, turns) && OneRun(s, turns) && Configured(turns, config)
    ensures
      var r := NextAll(GARDENER_RULES, s, turns);
      if Waiting(o) then LeftAlone(r, o, s) else RunResult(r, Seen(o), s, config)
  {
    TailRun(s, turns, config);
    ScreenOpens(s, turns[0], o);
    var (next, rest) := (Call(GARDENER_RULES, s, turns[0]), turns[1..]);
    hide Call, Quiet, Clean, OneRun, NextAll, Configured, RunResult;
    if !Waiting(o) {
      if o.operation == ReconcileOperation {
        TailRun(next, rest, config);
        ClearOpens(next, rest[0], o);
        ReadyRun(Call(GARDENER_RULES, next, rest[0]), rest[1..], o, next, config);
        assert RunResult(NextAll(GARDENER_RULES, s, turns), Seen(o), next, config);
        ResultFrom(NextAll(GARDENER_RULES, s, turns), Seen(o), next, s, config);
      } else {
        ReadyRun(next, rest, o, s, config);
      }
    }
  }
}
