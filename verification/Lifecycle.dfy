/**
 The reconciliation of one Logging object, as a machine that makes one API call at a time. Between any two calls
 other clients may create, change or delete the object; any call may be rejected, or take effect and still report an
 error. What the machine decides from is the copy of the object that the last call returned.
 */
module Lifecycle {
  import opened Wrappers
  import opened ApiServer
  import ShootActuator

  const FINALIZER := "extensions.gardener.cloud/logging"

  // The Logging object

  datatype OperationType = Create | Reconcile | Delete | Migrate | Restore

  datatype OperationState = Processing | Succeeded | Error

  datatype LastOperation = LastOperation(kind: OperationType, state: OperationState)

  /** The value of the annotation `gardener.cloud/operation`. */
  datatype Annotation =
    | NoOperation
    | ReconcileOperation
    | MigrateOperation
    | RestoreOperation
    | WaitForState
    | OtherOperation

  datatype Logging = Logging(
    finalizers: set<string>,
    deleting: bool,
    operation: Annotation,
    lastOperation: Option<LastOperation>,
    version: nat)

  /** What an operation is taken to be, and whether it is skipped: library code, left open. */
  datatype Rules = Rules(operationType: Logging -> OperationType, skip: (OperationType, Logging) -> bool)

  /** `ComputeOperationType` */
  function ComputeOperationType(o: Logging): OperationType {
    if o.operation == MigrateOperation then Migrate
    else if o.deleting then Delete
    else if o.operation == RestoreOperation then Restore
    else
      match o.lastOperation
      case None => Create
      case Some(last) =>
        if last.kind == Create && last.state != Succeeded then Create
        else if last.kind == Migrate && last.state != Succeeded then Migrate
        else if last.kind == Restore && last.state != Succeeded then Restore
        else Reconcile
  }

  /** `ShouldSkipOperation` */
  predicate ShouldSkipOperation(operation: OperationType, o: Logging) {
    operation != Migrate && operation != Restore && o.lastOperation == Some(LastOperation(Migrate, Succeeded))
  }

  const GARDENER_RULES := Rules(ComputeOperationType, ShouldSkipOperation)

  /** The four operations, with the type that a reconciliation records. */
  datatype Path = ReconcilePath(kind: OperationType) | DeletePath | MigratePath | RestorePath

  /** The dispatch in `Reconcile`; nothing when the operation is skipped. */
  function Dispatch(rules: Rules, o: Logging): Option<Path> {
    var operation := rules.operationType(o);
    if rules.skip(operation, o) then None
    else if operation == Migrate then Some(MigratePath)
    else if o.deleting then Some(DeletePath)
    else if operation == Restore then Some(RestorePath)
    else Some(ReconcilePath(operation))
  }

  /** The operation type in the status while the operation runs and when it succeeds. */
  function RecordedType(path: Path): OperationType {
    match path
    case ReconcilePath(kind) => kind
    case DeletePath => Delete
    case MigratePath => Migrate
    case RestorePath => Restore
  }

  /** The operation type in the status when the actuator fails: restoring records a deletion. */
  function RecordedOnError(path: Path): OperationType {
    if path == RestorePath then Delete else RecordedType(path)
  }

  /** The operation sets the stack up, rather than taking it down. */
  predicate SetsUp(path: Path) {
    path.ReconcilePath? || path.RestorePath?
  }

  // The machine

  /** Which call comes next, and the copy of the object it starts from. */
  datatype Phase =
    | Idle
    | Clearing(local: Logging)
    | Ready
    | Fetched(local: Logging)
    | Adding(path: Path, local: Logging)
    | Announcing(path: Path, local: Logging)
    | Acting(path: Path, local: Logging)
    | Reporting(path: Path, local: Logging, acted: bool)
    | Releasing(path: Path, local: Logging)
    | Unannotating(path: Path, local: Logging)

  /** What a run shows to the outside. */
  datatype Event =
    | Status(kind: OperationType, state: OperationState, written: bool) // a status write: whether it was confirmed
    | Acted(seed: bool, path: Path, ok: bool) // a call of the seed's or the shoot's actuator
    | Released                                // the removal of the finalizer or of all finalizers
    | SkippedDelete                           // a deletion without finalizer

  /** A run that is over: what it showed, and whether the reconciler returned no error, so that nothing is retried. */
  datatype Finished = Finished(events: seq<Event>, ok: bool)

  datatype System = System(
    namespace: string,
    seed: bool,
    logging: Option<Logging>,
    clock: nat,
    phase: Phase,
    dirty: bool,
    objects: Objects,
    run: seq<Event>,
    history: seq<Finished>)

  datatype Env = Keep | Change(logging: Option<Logging>)

  /** What happens around one call: another client's change before it, its outcome, and the actuator's inputs. */
  datatype Turn = Turn(
    env: Env,
    outcome: Outcome,
    config: ShootActuator.Config,
    script: nat -> Fate,
    seedOk: bool)

  predicate HasFinalizer(logging: Option<Logging>) {
    logging.Some? && FINALIZER in logging.value.finalizers
  }

  /**
   What other clients may do: anything but remove our finalizer, undo a deletion or write the status. An object
   without our finalizer may also go away or be replaced.
   */
  predicate Allowed(before: Option<Logging>, after: Option<Logging>) {
    match after
    case None => !HasFinalizer(before)
    case Some(n) =>
      || (!HasFinalizer(before) && !n.deleting && n.lastOperation == None)
      || (before.Some? &&
          (HasFinalizer(before) ==> HasFinalizer(after)) &&
          (before.value.deleting ==> n.deleting) && (n.deleting ==> n.finalizers != {}) &&
          n.lastOperation == before.value.lastOperation)
  }

  function Interfere(s: System, env: Env): System {
    if env.Change? && Allowed(s.logging, env.logging) then
      match env.logging
      case None => s.(logging := None)
      case Some(n) => s.(logging := Some(n.(version := s.clock)), clock := s.clock + 1)
    else s
  }

  /** An object that is being deleted goes away with its last finalizer. */
  function Stored(o: Logging): Option<Logging> {
    if o.deleting && o.finalizers == {} then None else Some(o)
  }

  datatype Reply = Reply(logging: Option<Logging>, clock: nat, ok: bool, local: Logging)

  /** A patch that turns the object into `changed`: it fails when there is no object. */
  function Patch(logging: Option<Logging>, clock: nat, local: Logging, outcome: Outcome, changed: Logging): Reply {
    if logging.None? || outcome.Rejected? then Reply(logging, clock, false, local)
    else Reply(Stored(changed.(version := clock)), clock + 1, outcome.Done?, changed.(version := clock))
  }

  predicate Locked(logging: Option<Logging>, local: Logging) {
    logging.Some? && logging.value.version == local.version
  }

  /** `AddFinalizers`, with optimistic locking. */
  function AddFinalizers(logging: Option<Logging>, clock: nat, local: Logging, outcome: Outcome): Reply {
    if !Locked(logging, local) then Reply(logging, clock, false, local)
    else Patch(logging, clock, local, outcome, logging.value.(finalizers := logging.value.finalizers + {FINALIZER}))
  }

  /** The status writes. */
  function PatchStatus(logging: Option<Logging>, clock: nat, local: Logging, outcome: Outcome, last: LastOperation)
    : Reply
  {
    if logging.None? then Reply(logging, clock, false, local)
    else Patch(logging, clock, local, outcome, logging.value.(lastOperation := Some(last)))
  }

  /** `RemoveFinalizers`, with optimistic locking; an object that is gone is no error. */
  function RemoveFinalizers(logging: Option<Logging>, clock: nat, local: Logging, outcome: Outcome): Reply {
    if logging.None? then Reply(logging, clock, outcome.Done?, local)
    else if !Locked(logging, local) then Reply(logging, clock, false, local)
    else Patch(logging, clock, local, outcome, logging.value.(finalizers := logging.value.finalizers - {FINALIZER}))
  }

  /** `RemoveAllFinalizers`, without locking: the patch is empty when the copy has no finalizers. */
  function RemoveAllFinalizers(logging: Option<Logging>, clock: nat, local: Logging, outcome: Outcome): Reply {
    if logging.None? then Reply(logging, clock, outcome.Done?, local)
    else if local.finalizers == {} then Reply(logging, clock, outcome.Done?, logging.value)
    else Patch(logging, clock, local, outcome, logging.value.(finalizers := {}))
  }

  /** `RemoveAnnotation`, without locking: the patch is empty when the copy has no such annotation. */
  function RemoveAnnotation(logging: Option<Logging>, clock: nat, local: Logging, outcome: Outcome): Reply {
    if logging.None? then Reply(logging, clock, false, local)
    else if local.operation == NoOperation then Reply(logging, clock, outcome.Done?, logging.value)
    else Patch(logging, clock, local, outcome, logging.value.(operation := NoOperation))
  }

  /** The actuators: the seed's changes no component object; the shoot's runs its steps in this namespace. */
  function Act(s: System, path: Path, t: Turn): (Objects, bool) {
    if s.seed then (s.objects, t.seedOk)
    else
      var c := t.config.(namespace := s.namespace);
      var steps := if SetsUp(path) then ShootActuator.ReconcileSteps(c) else ShootActuator.DeleteSteps(c);
      var r := Run(steps, s.objects, t.script, 0);
      (r.objects, r.ok)
  }

  function Replied(s: System, reply: Reply): System {
    s.(logging := reply.logging, clock := reply.clock)
  }

  function Log(s: System, event: Event): System {
    s.(run := s.run + [event])
  }

  /** The run ends, with success or with an error. */
  function End(s: System, ok: bool): System {
    s.(phase := Idle, run := [], history := s.history + [Finished(s.run, ok)])
  }

  /** The first call of an operation; a deletion without finalizer makes none. */
  function FirstPhase(path: Path, local: Logging): Phase {
    if path.MigratePath? || FINALIZER in local.finalizers then Announcing(path, local)
    else if path.DeletePath? then Idle
    else Adding(path, local)
  }

  function Enter(s: System, path: Path, local: Logging): System {
    var first := FirstPhase(path, local);
    if first.Idle? then End(Log(s, SkippedDelete), true) else s.(phase := first)
  }

  /** What follows a successful report of success. */
  function LaterPhase(path: Path, local: Logging): Phase {
    match path
    case ReconcilePath(_) => Idle
    case DeletePath => if FINALIZER in local.finalizers then Releasing(path, local) else Idle
    case MigratePath => Releasing(path, local)
    case RestorePath => Unannotating(path, local)
  }

  function Reported(s: System, path: Path, local: Logging): System {
    var later := LaterPhase(path, local);
    if later.Idle? then End(s, true) else s.(phase := later)
  }

  /** The wrapper around the reconciler reads the object first: one that waits for state is left alone. */
  function Screen(s: System, t: Turn): System {
    if !t.outcome.Done? then End(s, false)
    else if s.logging.None? then s.(phase := Ready)
    else
      match s.logging.value.operation
      case WaitForState => End(s, true)
      case ReconcileOperation => s.(phase := Clearing(s.logging.value))
      case _ => s.(phase := Ready)
  }

  /** The wrapper takes the annotation for reconciliation away. */
  function Clear(s: System, t: Turn, local: Logging): System {
    var r := RemoveAnnotation(s.logging, s.clock, local, t.outcome);
    if r.ok then Replied(s, r).(phase := Ready) else End(Replied(s, r), false)
  }

  function Fetch(s: System, t: Turn): System {
    if !t.outcome.Done? then End(s, false)
    else if s.logging.None? then End(s, true)
    else s.(phase := Fetched(s.logging.value))
  }

  /** Reading the cluster, which only a shoot's object needs, and the dispatch. */
  function Decide(rules: Rules, s: System, t: Turn, local: Logging): System {
    if !s.seed && !t.outcome.Done? then End(s, false)
    else
      match Dispatch(rules, local)
      case None => End(s, true)
      case Some(path) => Enter(s, path, local)
  }

  function Add(s: System, t: Turn, path: Path, local: Logging): System {
    var r := AddFinalizers(s.logging, s.clock, local, t.outcome);
    if r.ok then Replied(s, r).(phase := Announcing(path, r.local)) else End(Replied(s, r), false)
  }

  function Announce(s: System, t: Turn, path: Path, local: Logging): System {
    var last := LastOperation(RecordedType(path), Processing);
    var r := PatchStatus(s.logging, s.clock, local, t.outcome, last);
    var next := Log(Replied(s, r), Status(last.kind, last.state, r.ok));
    if r.ok then next.(phase := Acting(path, r.local)) else End(next, false)
  }

  function Perform(s: System, t: Turn, path: Path, local: Logging): System {
    var (objects, ok) := Act(s, path, t);
    Log(s, Acted(s.seed, path, ok)).(
      objects := objects,
      dirty := if SetsUp(path) then true else if ok then false else s.dirty,
      phase := Reporting(path, local, ok))
  }

  function Report(s: System, t: Turn, path: Path, local: Logging, acted: bool): System {
    var last := if acted then LastOperation(RecordedType(path), Succeeded)
                else LastOperation(RecordedOnError(path), Error);
    var r := PatchStatus(s.logging, s.clock, local, t.outcome, last);
    var next := Log(Replied(s, r), Status(last.kind, last.state, r.ok));
    if acted && r.ok then Reported(next, path, r.local) else End(next, false)
  }

  function Release(s: System, t: Turn, path: Path, local: Logging): System {
    var r := if path.MigratePath? then RemoveAllFinalizers(s.logging, s.clock, local, t.outcome)
             else RemoveFinalizers(s.logging, s.clock, local, t.outcome);
    var next := Log(Replied(s, r), Released);
    if r.ok && path.MigratePath? then next.(phase := Unannotating(path, r.local)) else End(next, r.ok)
  }

  function Unannotate(s: System, t: Turn, local: Logging): System {
    var r := RemoveAnnotation(s.logging, s.clock, local, t.outcome);
    End(Replied(s, r), r.ok)
  }

  function Call(rules: Rules, s: System, t: Turn): System {
    match s.phase
    case Idle => Screen(s, t)
    case Clearing(local) => Clear(s, t, local)
    case Ready => Fetch(s, t)
    case Fetched(local) => Decide(rules, s, t, local)
    case Adding(path, local) => Add(s, t, path, local)
    case Announcing(path, local) => Announce(s, t, path, local)
    case Acting(path, local) => Perform(s, t, path, local)
    case Reporting(path, local, acted) => Report(s, t, path, local, acted)
    case Releasing(path, local) => Release(s, t, path, local)
    case Unannotating(_, local) => Unannotate(s, t, local)
  }

  /** Another client's change, then the next call. */
  function Next(rules: Rules, s: System, t: Turn): System {
    Call(rules, Interfere(s, t.env), t)
  }

  function NextAll(rules: Rules, s: System, turns: seq<Turn>): System
    decreases |turns|
  {
    if turns == [] then s else NextAll(rules, Next(rules, s, turns[0]), turns[1..])
  }

  /** A cluster without the object and without any object of the stack. */
  predicate Initial(s: System) {
    && s.logging == None && s.phase == Idle && !s.dirty
    && s.objects.Keys !! ShootActuator.StackKeys(s.namespace)
    && s.run == [] && s.history == []
  }

  lemma {:induction false} NextAllAppend(rules: Rules, s: System, a: seq<Turn>, b: seq<Turn>)
    ensures NextAll(rules, s, a + b) == NextAll(rules, NextAll(rules, s, a), b)
    decreases |a|
  {
    if a == [] {
      assert a + b == b;
    } else {
      NextAllAppend(rules, Next(rules, s, a[0]), a[1..], b);
      assert (a + b)[0] == a[0] && (a + b)[1..] == a[1..] + b;
    }
  }

  // The next step, phase by phase: another client's change does not change the phase

  lemma NextScreen(rules: Rules, s: System, t: Turn)
    requires s.phase.Idle?
    ensures Next(rules, s, t) == Screen(Interfere(s, t.env), t)
  {
  }

  lemma NextClear(rules: Rules, s: System, t: Turn, local: Logging)
    requires s.phase == Clearing(local)
    ensures Next(rules, s, t) == Clear(Interfere(s, t.env), t, local)
  {
  }

  lemma NextFetch(rules: Rules, s: System, t: Turn)
    requires s.phase.Ready?
    ensures Next(rules, s, t) == Fetch(Interfere(s, t.env), t)
  {
  }

  lemma NextDecide(rules: Rules, s: System, t: Turn, local: Logging)
    requires s.phase == Fetched(local)
    ensures Next(rules, s, t) == Decide(rules, Interfere(s, t.env), t, local)
  {
  }

  lemma NextAdd(rules: Rules, s: System, t: Turn, path: Path, local: Logging)
    requires s.phase == Adding(path, local)
    ensures Next(rules, s, t) == Add(Interfere(s, t.env), t, path, local)
  {
  }

  lemma NextAnnounce(rules: Rules, s: System, t: Turn, path: Path, local: Logging)
    requires s.phase == Announcing(path, local)
    ensures Next(rules, s, t) == Announce(Interfere(s, t.env), t, path, local)
  {
  }

  lemma NextPerform(rules: Rules, s: System, t: Turn, path: Path, local: Logging)
    requires s.phase == Acting(path, local)
    ensures Next(rules, s, t) == Perform(Interfere(s, t.env), t, path, local)
  {
  }

  lemma NextReport(rules: Rules, s: System, t: Turn, path: Path, local: Logging, acted: bool)
    requires s.phase == Reporting(path, local, acted)
    ensures Next(rules, s, t) == Report(Interfere(s, t.env), t, path, local, acted)
  {
  }

  lemma NextRelease(rules: Rules, s: System, t: Turn, path: Path, local: Logging)
    requires s.phase == Releasing(path, local)
    ensures Next(rules, s, t) == Release(Interfere(s, t.env), t, path, local)
  {
  }

  lemma NextUnannotate(rules: Rules, s: System, t: Turn, path: Path, local: Logging)
    requires s.phase == Unannotating(path, local)
    ensures Next(rules, s, t) == Unannotate(Interfere(s, t.env), t, local)
  {
  }
}
