/**
 The outcome of one undisturbed run, spelled out for the five kinds of object there are: to set up, to restore, to
 delete, to migrate, and to leave alone.
 */
module LifecycleOutcomes {
  import opened Wrappers
  import opened ApiServer
  import opened Lifecycle
  import opened LifecycleCalls
  import opened LifecycleRuns
  import LifecycleDeletion
  import LifecycleSafety
  import ShootActuator
  import ShootDecisions

  /** The turns are one run on the object, without interference or failure. */
  ghost predicate Undisturbed(s: System, turns: seq<Turn>, o: Logging, config: ShootActuator.Config) {
    && s.phase.Idle? && s.logging == Some(o) && Alive(o)
    && LifecycleDeletion.Clean(s, turns) && LifecycleDeletion.OneRun(s, turns) && Configured(turns, config)
  }

  function After(s: System, turns: seq<Turn>): System {
    NextAll(GARDENER_RULES, s, turns)
  }

  ghost predicate ReturnsOk(r: System) {
    r.phase.Idle? && r.history != [] && r.history[|r.history| - 1].ok
  }

  predicate Last(o: Logging, kind: OperationType, succeeded: bool) {
    && o.lastOperation.Some? && o.lastOperation.value.kind == kind
    && (o.lastOperation.value.state == Succeeded <==> succeeded)
  }

  /** Nothing asks for a migration or a restoration, now or from an operation that did not come to its end. */
  predicate ToSetUp(o: Logging) {
    && !o.deleting && o.operation != WaitForState && o.operation != MigrateOperation && o.operation != RestoreOperation
    && (o.lastOperation.Some? ==>
          && o.lastOperation.value.kind != Migrate
          && (o.lastOperation.value.kind == Restore ==> o.lastOperation.value.state == Succeeded))
  }

  predicate ToRestore(o: Logging) {
    && !o.deleting && o.operation != WaitForState && o.operation != MigrateOperation
    && (o.operation == RestoreOperation || Last(o, Restore, false))
  }

  predicate ToDelete(o: Logging) {
    && o.deleting && o.operation != WaitForState && o.operation != MigrateOperation
    && !Last(o, Migrate, true) && "extensions.gardener.cloud/logging" in o.finalizers
  }

  predicate ToMigrate(o: Logging) {
    || o.operation == MigrateOperation
    || (!o.deleting && o.operation != WaitForState && o.operation != RestoreOperation && Last(o, Migrate, false))
  }

  predicate ToLeave(o: Logging) {
    || o.operation == WaitForState
    || (o.operation != MigrateOperation && Last(o, Migrate, true) && (o.deleting || o.operation != RestoreOperation))
    || (o.operation != MigrateOperation && o.deleting && "extensions.gardener.cloud/logging" !in o.finalizers)
  }

  function Ones(o: Logging): nat {
    (if ToSetUp(o) then 1 else 0) + (if ToRestore(o) then 1 else 0) + (if ToDelete(o) then 1 else 0) +
    (if ToMigrate(o) then 1 else 0) + (if ToLeave(o) then 1 else 0)
  }

  /** Every object is of exactly one of these kinds. */
  lemma FiveKinds(o: Logging)
    ensures Ones(o) == 1
  {
  }

  /** With `NoOperation` for a request to reconcile, which the wrapper takes away. */
  function AnnotationSeen(o: Logging): Annotation {
    if o.operation == ReconcileOperation then NoOperation else o.operation
  }

  lemma DispatchOf(o: Logging)
    requires o.operation != WaitForState
    ensures
      var d := Dispatch(GARDENER_RULES, Seen(o));
      && (ToSetUp(o) ==> d == Some(ReconcilePath(
            if o.lastOperation.None? || Last(o, Create, false) then Create else OperationType.Reconcile)))
      && (ToRestore(o) ==> d == Some(RestorePath))
      && (ToDelete(o) ==> d == Some(DeletePath))
      && (ToMigrate(o) ==> d == Some(MigratePath))
      && (ToLeave(o) ==> d == None || (d == Some(DeletePath) && NoOp(Seen(o), DeletePath)))
  {
  }

  /** The object has our finalizer too, and the status of a success. */
  predicate IsSetUp(n: Option<Logging>, o: Logging, kind: OperationType, operation: Annotation) {
    && n.Some? && !n.value.deleting
    && n.value.finalizers == o.finalizers + {"extensions.gardener.cloud/logging"}
    && n.value.lastOperation == Some(LastOperation(kind, Succeeded)) && n.value.operation == operation
  }

  /** A reconciliation adds the finalizer, reports success as a creation or reconciliation, and sets the stack up. */
  lemma SetUpRun(s: System, turns: seq<Turn>, o: Logging, config: ShootActuator.Config)
    requires Undisturbed(s, turns, o, config) && ToSetUp(o)
    ensures
      var r := After(s, turns);
      && ReturnsOk(r) && Settled(r, true, config)
      && IsSetUp(r.logging, o,
                 if o.lastOperation.None? || Last(o, Create, false) then Create else OperationType.Reconcile,
                 AnnotationSeen(o))
  {
    UndisturbedRun(s, turns, o, config);
    DispatchOf(o);
    hide Settled, Dispatch, NextAll, LifecycleDeletion.Clean, LifecycleDeletion.OneRun, Configured;
  }

  /** A restoration adds the finalizer, reports its success, takes the annotation away, and sets the stack up. */
  lemma RestoreRun(s: System, turns: seq<Turn>, o: Logging, config: ShootActuator.Config)
    requires Undisturbed(s, turns, o, config) && ToRestore(o)
    ensures
      var r := After(s, turns);
      ReturnsOk(r) && Settled(r, true, config) && IsSetUp(r.logging, o, Restore, NoOperation)
  {
    UndisturbedRun(s, turns, o, config);
    DispatchOf(o);
    hide Settled, Dispatch, NextAll, LifecycleDeletion.Clean, LifecycleDeletion.OneRun, Configured;
  }

  /** A deletion takes the stack down and our finalizer away; the object is gone when there was no other. */
  lemma DeleteRun(s: System, turns: seq<Turn>, o: Logging, config: ShootActuator.Config)
    requires Undisturbed(s, turns, o, config) && ToDelete(o)
    ensures
      var r := After(s, turns);
      && ReturnsOk(r) && Settled(r, false, config)
      && (r.logging.None? <==> o.finalizers == {"extensions.gardener.cloud/logging"})
      && (r.logging.Some? ==>
            && r.logging.value.deleting
            && r.logging.value.finalizers == o.finalizers - {"extensions.gardener.cloud/logging"}
            && r.logging.value.lastOperation == Some(LastOperation(Delete, Succeeded))
            && r.logging.value.operation == AnnotationSeen(o))
  {
    UndisturbedRun(s, turns, o, config);
    DispatchOf(o);
    LastFinalizer(o.finalizers);
    hide Settled, Dispatch, NextAll, LifecycleDeletion.Clean, LifecycleDeletion.OneRun, Configured;
  }

  lemma LastFinalizer(finalizers: set<string>)
    ensures FINALIZER in finalizers ==> (finalizers - {FINALIZER} == {} <==> finalizers == {FINALIZER})
  {
    if FINALIZER in finalizers && finalizers - {FINALIZER} == {} {
      forall f | f in finalizers ensures f == FINALIZER {
        assert f != FINALIZER ==> f in finalizers - {FINALIZER};
      }
    }
  }

  /**
   A migration takes the stack down, and all finalizers and the annotation away. Where the object was marked for
   deletion it is gone before the annotation can be, and the run returns an error.
   */
  lemma MigrateRun(s: System, turns: seq<Turn>, o: Logging, config: ShootActuator.Config)
    requires Undisturbed(s, turns, o, config) && ToMigrate(o)
    ensures
      var r := After(s, turns);
      && r.phase.Idle? && Settled(r, false, config) && (ReturnsOk(r) <==> !o.deleting)
      && (r.logging.None? <==> o.deleting)
      && (r.logging.Some? ==>
            && r.logging.value.finalizers == {} && r.logging.value.operation == NoOperation
            && !r.logging.value.deleting
            && r.logging.value.lastOperation == Some(LastOperation(Migrate, Succeeded)))
  {
    UndisturbedRun(s, turns, o, config);
    DispatchOf(o);
    hide Settled, Dispatch, NextAll, LifecycleDeletion.Clean, LifecycleDeletion.OneRun, Configured;
  }

  /** Any other object keeps its finalizers and its status, and the seed its objects. */
  lemma LeaveRun(s: System, turns: seq<Turn>, o: Logging, config: ShootActuator.Config)
    requires Undisturbed(s, turns, o, config) && ToLeave(o)
    ensures
      var r := After(s, turns);
      && ReturnsOk(r) && r.objects == s.objects && r.logging.Some?
      && r.logging.value == o.(operation := AnnotationSeen(o), version := r.logging.value.version)
  {
    UndisturbedRun(s, turns, o, config);
    if o.operation != WaitForState {
      DispatchOf(o);
    }
    hide Settled, Dispatch, NextAll, LifecycleDeletion.Clean, LifecycleDeletion.OneRun, Configured;
  }

  lemma MissingWhenReady(s: System, turns: seq<Turn>)
    requires s.phase.Ready? && s.logging == None
    requires LifecycleDeletion.Clean(s, turns) && LifecycleDeletion.OneRun(s, turns)
    ensures After(s, turns) == End(s, true)
  {
    var (next, rest) := (Next(GARDENER_RULES, s, turns[0]), turns[1..]);
    assert next == End(s, true) && rest == [];
    assert NextAll(GARDENER_RULES, next, rest) == next;
  }

  /** Without the object there is nothing to do. */
  lemma MissingRun(s: System, turns: seq<Turn>)
    requires s.phase.Idle? && s.logging == None
    requires LifecycleDeletion.Clean(s, turns) && LifecycleDeletion.OneRun(s, turns)
    ensures
      var r := After(s, turns);
      ReturnsOk(r) && r.logging == None && r.objects == s.objects
  {
    assert Next(GARDENER_RULES, s, turns[0]) == s.(phase := Ready);
    MissingWhenReady(s.(phase := Ready), turns[1..]);
  }

  // Such runs exist

  function QuietTurn(config: ShootActuator.Config): Turn {
    Turn(Keep, Done, config, _ => Fate(Done, "", map[]), true)
  }

  lemma ActSucceeds(s: System, path: Path, config: ShootActuator.Config)
    requires ShootActuator.Usable(config.(namespace := s.namespace))
    ensures Act(s, path, QuietTurn(config)).1
  {
    var (t, c) := (QuietTurn(config), config.(namespace := s.namespace));
    ShootDecisions.ReconcileNeverGivesUp(c);
    ShootDecisions.DeleteNeverGivesUp(c);
    ShootDecisions.NoFailure(ShootActuator.ReconcileSteps(c), s.objects, t.script, 0);
    ShootDecisions.NoFailure(ShootActuator.DeleteSteps(c), s.objects, t.script, 0);
    hide Run, ShootActuator.ReconcileSteps, ShootActuator.DeleteSteps;
  }

  /** The number of calls there can still be. */
  function CallsLeft(phase: Phase): nat {
    match phase
    case Idle => 0
    case Clearing(_) => 9
    case Ready => 8
    case Fetched(_) => 7
    case Adding(_, _) => 6
    case Announcing(_, _) => 5
    case Acting(_, _) => 4
    case Reporting(_, _, _) => 3
    case Releasing(_, _) => 2
    case Unannotating(_, _) => 1
  }

  lemma CallsRunOut(s: System, t: Turn)
    requires !s.phase.Idle?
    ensures CallsLeft(Call(GARDENER_RULES, s, t).phase) < CallsLeft(s.phase)
  {
    hide Dispatch, Act, AddFinalizers, PatchStatus, RemoveFinalizers, RemoveAllFinalizers, RemoveAnnotation;
  }

  lemma QuietTurnIsQuiet(s: System, config: ShootActuator.Config)
    requires ShootActuator.Usable(config.(namespace := s.namespace))
    ensures LifecycleDeletion.Quiet(s, QuietTurn(config))
  {
    if s.phase.Acting? {
      ActSucceeds(s, s.phase.path, config);
    }
    hide Act;
  }

  lemma {:induction false} RestOfRun(s: System, config: ShootActuator.Config) returns (turns: seq<Turn>)
    requires !s.phase.Idle? && ShootActuator.Usable(config.(namespace := s.namespace))
    ensures LifecycleDeletion.Clean(s, turns) && LifecycleDeletion.OneRun(s, turns) && Configured(turns, config)
    decreases CallsLeft(s.phase)
  {
    var q := QuietTurn(config);
    QuietTurnIsQuiet(s, config);
    QuietIsCall(s, q);
    CallsRunOut(s, q);
    var next := Next(GARDENER_RULES, s, q);
    LifecycleSafety.NextInPlace(GARDENER_RULES, s, q);
    hide Next, Call, LifecycleDeletion.Quiet;
    if next.phase.Idle? {
      turns := [q];
      assert turns[1..] == [];
    } else {
      var rest := RestOfRun(next, config);
      turns := [q] + rest;
      assert turns[0] == q && turns[1..] == rest;
    }
  }

  /** From every idle state there is an undisturbed run, with any configuration that has an image. */
  lemma UndisturbedRunExists(s: System, o: Logging, config: ShootActuator.Config) returns (turns: seq<Turn>)
    requires s.phase.Idle? && s.logging == Some(o) && Alive(o)
    requires s.namespace != "" && config.eventLoggerImage != ""
    ensures Undisturbed(s, turns, o, config)
  {
    var q := QuietTurn(config);
    QuietTurnIsQuiet(s, config);
    var next := Next(GARDENER_RULES, s, q);
    LifecycleSafety.NextInPlace(GARDENER_RULES, s, q);
    hide Next, LifecycleDeletion.Quiet;
    if next.phase.Idle? {
      turns := [q];
      assert turns[1..] == [];
    } else {
      var rest := RestOfRun(next, config);
      turns := [q] + rest;
      assert turns[0] == q && turns[1..] == rest;
    }
    assert Configured(turns, config);
    assert LifecycleDeletion.OneRun(s, turns);
    assert LifecycleDeletion.Clean(s, turns);
  }

  // In every reachable state an object that is being deleted has a finalizer left

  predicate AliveIn(s: System) {
    s.logging.Some? ==> Alive(s.logging.value)
  }

  lemma CallKeepsAlive(rules: Rules, s: System, t: Turn)
    requires AliveIn(s)
    ensures AliveIn(Call(rules, s, t))
  {
    if s.logging.None? {
      CallCreatesNothing(rules, s, t);
    } else {
      hide Act, Dispatch;
      match s.phase {
        case Idle =>
        case Clearing(_) =>
        case Ready =>
        case Fetched(_) =>
        case Adding(_, _) =>
        case Announcing(_, _) =>
        case Acting(_, _) =>
        case Reporting(_, _, _) =>
        case Releasing(_, _) =>
        case Unannotating(_, _) =>
      }
    }
  }

  lemma {:induction false} ReachableIsAlive(rules: Rules, s: System, turns: seq<Turn>)
    requires AliveIn(s)
    ensures AliveIn(NextAll(rules, s, turns))
    decreases |turns|
  {
    if turns != [] {
      InterfereKeepsAlive(s, turns[0].env);
      CallKeepsAlive(rules, Interfere(s, turns[0].env), turns[0]);
      ReachableIsAlive(rules, Next(rules, s, turns[0]), turns[1..]);
    }
  }

  lemma InterfereKeepsAlive(s: System, env: Env)
    requires AliveIn(s)
    ensures AliveIn(Interfere(s, env))
  {
  }
}
