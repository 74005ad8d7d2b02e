/** Whether retrying gets an object that is marked for deletion rid of the finalizer, under Gardener's own rules. */
module LifecycleDeletion {
  import opened Wrappers
  import opened ApiServer
  import opened Lifecycle
  import ShootActuator

  predicate ForMigration(o: Logging) {
    o.operation == MigrateOperation
  }

  /** The last operation was a migration that succeeded, but the object is not annotated for migration any more. */
  predicate Abandoned(o: Logging) {
    !ForMigration(o) && o.lastOperation == Some(LastOperation(Migrate, Succeeded))
  }

  /** The object is annotated so that the wrapper leaves it alone. */
  predicate Waiting(o: Logging) {
    o.operation == WaitForState
  }

  /** The objects that no run takes down. */
  predicate Stuck(o: Logging) {
    Waiting(o) || Abandoned(o)
  }

  predicate MarkedForDeletion(s: System) {
    HasFinalizer(s.logging) && s.logging.value.deleting
  }

  predicate Deletable(s: System) {
    MarkedForDeletion(s) && !Stuck(s.logging.value)
  }

  predicate SameRequest(a: Logging, b: Logging) {
    (ForMigration(a) <==> ForMigration(b)) && (Waiting(a) <==> Waiting(b))
  }

  /** The other client, whatever else it does, neither asks for a migration or for waiting nor takes that back. */
  predicate LeavesAnnotation(s: System, env: Env) {
    env.Change? && env.logging.Some? && s.logging.Some? ==> SameRequest(env.logging.value, s.logging.value)
  }

  ghost predicate AnnotationKept(s: System, turns: seq<Turn>)
    decreases |turns|
  {
    turns == [] ||
    (LeavesAnnotation(s, turns[0].env) && AnnotationKept(Next(GARDENER_RULES, s, turns[0]), turns[1..]))
  }

  /** At some point during these turns the object does not carry the finalizer. */
  ghost predicate RemovedDuring(s: System, turns: seq<Turn>)
    decreases |turns|
  {
    !HasFinalizer(s.logging) || (turns != [] && RemovedDuring(Next(GARDENER_RULES, s, turns[0]), turns[1..]))
  }

  /** These turns are one run: from idle until the next time the machine is idle. */
  ghost predicate OneRun(s: System, turns: seq<Turn>)
    decreases |turns|
  {
    && turns != []
    && var next := Next(GARDENER_RULES, s, turns[0]);
       if next.phase.Idle? then |turns| == 1 else OneRun(next, turns[1..])
  }

  /** No other client interferes, no call fails and neither does the actuator. */
  predicate Quiet(s: System, t: Turn) {
    t.env == Keep && t.outcome.Done? && (s.phase.Acting? ==> Act(s, s.phase.path, t).1)
  }

  ghost predicate Clean(s: System, turns: seq<Turn>)
    decreases |turns|
  {
    turns == [] || (Quiet(s, turns[0]) && Clean(Next(GARDENER_RULES, s, turns[0]), turns[1..]))
  }

  /** How a deletable object is taken down. */
  function WayDown(o: Logging): Path {
    if ForMigration(o) then MigratePath else DeletePath
  }

  predicate OnItsWay(s: System) {
    && Deletable(s)
    && match s.phase
       case Idle => true
       case Clearing(_) => !ForMigration(s.logging.value)
       case Ready => true
       case Fetched(local) =>
         && FINALIZER in local.finalizers && local.deleting
         && (ForMigration(local) <==> ForMigration(s.logging.value))
         && local.lastOperation == s.logging.value.lastOperation
       case Adding(_, _) => false
       case Announcing(path, _) => path == WayDown(s.logging.value)
       case Acting(path, _) => path == WayDown(s.logging.value)
       case Reporting(path, _, _) => path == WayDown(s.logging.value)
       case Releasing(path, local) => path == WayDown(s.logging.value) && FINALIZER in local.finalizers
       case Unannotating(_, _) => false
  }

  lemma InterfereOnItsWay(s: System, env: Env)
    requires OnItsWay(s) && LeavesAnnotation(s, env)
    ensures OnItsWay(Interfere(s, env))
  {
  }

  lemma DecisionOnItsWay(s: System, t: Turn)
    requires OnItsWay(s) && s.phase.Fetched?
    ensures OnItsWay(Call(GARDENER_RULES, s, t))
  {
    assert Dispatch(GARDENER_RULES, s.phase.local) == Some(WayDown(s.phase.local));
  }

  /** Whatever fails, a deletable object stays deletable until the finalizer is gone. */
  lemma CallOnItsWay(s: System, t: Turn)
    requires OnItsWay(s)
    ensures var next := Call(GARDENER_RULES, s, t); OnItsWay(next) || !HasFinalizer(next.logging)
  {
    match s.phase {
      case Idle =>
      case Clearing(_) =>
      case Ready =>
      case Fetched(_) => DecisionOnItsWay(s, t);
      case Announcing(_, _) =>
      case Acting(_, _) =>
      case Reporting(_, _, _) =>
      case Releasing(_, _) =>
    }
  }

  lemma NextOnItsWay(s: System, t: Turn)
    requires OnItsWay(s) && LeavesAnnotation(s, t.env)
    ensures var next := Next(GARDENER_RULES, s, t); OnItsWay(next) || !HasFinalizer(next.logging)
  {
    InterfereOnItsWay(s, t.env);
    CallOnItsWay(Interfere(s, t.env), t);
  }

  /** After a whole run, whatever happened in it, the finalizer is gone or the object is still deletable. */
  lemma {:induction false} RunKeepsDeletable(s: System, turns: seq<Turn>)
    requires OnItsWay(s) && AnnotationKept(s, turns) && OneRun(s, turns)
    ensures
      var r := NextAll(GARDENER_RULES, s, turns);
      RemovedDuring(s, turns) || (Deletable(r) && r.phase.Idle?)
    decreases |turns|
  {
    var next := Next(GARDENER_RULES, s, turns[0]);
    NextOnItsWay(s, turns[0]);
    if next.phase.Idle? {
      assert turns[1..] == [];
    } else if OnItsWay(next) {
      RunKeepsDeletable(next, turns[1..]);
    }
  }

  /** In a clean run the copy is always the object itself. */
  predicate InStep(s: System) {
    && OnItsWay(s)
    && match s.phase
       case Clearing(local) => s.logging == Some(local)
       case Fetched(local) => s.logging == Some(local)
       case Announcing(_, local) => s.logging == Some(local)
       case Acting(_, local) => s.logging == Some(local)
       case Reporting(_, local, acted) => s.logging == Some(local) && acted
       case Releasing(_, local) => s.logging == Some(local)
       case _ => true
  }

  lemma QuietDecision(s: System, t: Turn)
    requires InStep(s) && Quiet(s, t) && s.phase.Fetched?
    ensures var next := Call(GARDENER_RULES, s, t); InStep(next) && !next.phase.Idle?
  {
    assert Dispatch(GARDENER_RULES, s.phase.local) == Some(WayDown(s.phase.local));
  }

  lemma QuietCall(s: System, t: Turn)
    requires InStep(s) && Quiet(s, t)
    ensures
      var next := Call(GARDENER_RULES, s, t);
      !HasFinalizer(next.logging) || (InStep(next) && !next.phase.Idle?)
  {
    match s.phase {
      case Idle =>
      case Clearing(_) =>
      case Ready =>
      case Fetched(_) => QuietDecision(s, t);
      case Announcing(_, _) =>
      case Acting(_, _) =>
      case Reporting(_, _, _) =>
      case Releasing(_, _) =>
    }
  }

  lemma QuietStep(s: System, t: Turn)
    requires InStep(s) && Quiet(s, t)
    ensures
      var next := Next(GARDENER_RULES, s, t);
      !HasFinalizer(next.logging) || (InStep(next) && !next.phase.Idle?)
  {
    QuietCall(s, t);
    hide Call, InStep;
  }

  /** A clean run removes the finalizer of a deletable object. */
  lemma {:induction false} CleanRunRemoves(s: System, turns: seq<Turn>)
    requires InStep(s) && Clean(s, turns) && OneRun(s, turns)
    ensures RemovedDuring(s, turns)
    decreases |turns|
  {
    var next := Next(GARDENER_RULES, s, turns[0]);
    QuietStep(s, turns[0]);
    if HasFinalizer(next.logging) {
      CleanRunRemoves(next, turns[1..]);
    }
  }

  // Several runs

  ghost predicate Runs(s: System, runs: seq<seq<Turn>>)
    decreases |runs|
  {
    runs == [] ||
    (OneRun(s, runs[0]) && AnnotationKept(s, runs[0]) && Runs(NextAll(GARDENER_RULES, s, runs[0]), runs[1..]))
  }

  /** How many of the runs are not clean. */
  ghost function Hit(s: System, runs: seq<seq<Turn>>): nat
    decreases |runs|
  {
    if runs == [] then 0
    else (if Clean(s, runs[0]) then 0 else 1) + Hit(NextAll(GARDENER_RULES, s, runs[0]), runs[1..])
  }

  ghost predicate RemovedDuringRuns(s: System, runs: seq<seq<Turn>>)
    decreases |runs|
  {
    runs != [] && (RemovedDuring(s, runs[0]) || RemovedDuringRuns(NextAll(GARDENER_RULES, s, runs[0]), runs[1..]))
  }

  /**
   Retrying converges: when failures or other clients hit at most `n` runs, the finalizer of a deletable object is
   removed within `n + 1` runs.
   */
  lemma {:induction false} RetriedDeletionConverges(s: System, runs: seq<seq<Turn>>, n: nat)
    requires Deletable(s) && s.phase.Idle? && Runs(s, runs)
    requires |runs| == n + 1 && Hit(s, runs) <= n
    ensures RemovedDuringRuns(s, runs)
    decreases n
  {
    if Clean(s, runs[0]) {
      CleanRunRemoves(s, runs[0]);
    } else {
      RunKeepsDeletable(s, runs[0]);
      if !RemovedDuring(s, runs[0]) {
        RetriedDeletionConverges(NextAll(GARDENER_RULES, s, runs[0]), runs[1..], n - 1);
      }
    }
  }

  // The objects that retrying never gets rid of

  /** An object that waits is left alone by the wrapper; one that is abandoned gets as far as the dispatch. */
  predicate GivenUp(s: System) {
    && MarkedForDeletion(s)
    && match s.phase
       case Idle => Stuck(s.logging.value)
       case Clearing(_) => Abandoned(s.logging.value)
       case Ready => Abandoned(s.logging.value)
       case Fetched(local) => Abandoned(s.logging.value) && local.deleting && Abandoned(local)
       case _ => false
  }

  lemma StuckCall(s: System, t: Turn)
    requires GivenUp(s)
    ensures GivenUp(Call(GARDENER_RULES, s, t))
  {
    if s.phase.Fetched? {
      assert Dispatch(GARDENER_RULES, s.phase.local) == None;
    }
  }

  lemma StuckStep(s: System, t: Turn)
    requires GivenUp(s) && LeavesAnnotation(s, t.env)
    ensures GivenUp(Next(GARDENER_RULES, s, t))
  {
    StuckCall(Interfere(s, t.env), t);
    hide Call;
  }

  /** A stuck object that is marked for deletion keeps the finalizer for ever, with or without failures. */
  lemma {:induction false} StuckForEver(s: System, turns: seq<Turn>)
    requires GivenUp(s) && AnnotationKept(s, turns)
    ensures GivenUp(NextAll(GARDENER_RULES, s, turns)) && !RemovedDuring(s, turns)
    decreases |turns|
  {
    if turns != [] {
      StuckStep(s, turns[0]);
      StuckForEver(Next(GARDENER_RULES, s, turns[0]), turns[1..]);
    }
  }

  lemma {:induction false} CleanKeepsAnnotation(s: System, turns: seq<Turn>)
    requires Clean(s, turns)
    ensures AnnotationKept(s, turns)
    decreases |turns|
  {
    if turns != [] {
      CleanKeepsAnnotation(Next(GARDENER_RULES, s, turns[0]), turns[1..]);
    }
  }

  /** A clean run removes the finalizer of an object marked for deletion exactly when the object is not stuck. */
  lemma CleanRunRemovesIff(s: System, turns: seq<Turn>)
    requires MarkedForDeletion(s) && s.phase.Idle? && OneRun(s, turns) && Clean(s, turns)
    ensures RemovedDuring(s, turns) <==> !Stuck(s.logging.value)
  {
    if Stuck(s.logging.value) {
      CleanKeepsAnnotation(s, turns);
      StuckForEver(s, turns);
    } else {
      CleanRunRemoves(s, turns);
    }
  }

  // Such objects exist

  function AnyConfig(): ShootActuator.Config {
    ShootActuator.Config("", "", map[], [], None, false)
  }

  function TurnOf(env: Env, outcome: Outcome): Turn {
    Turn(env, outcome, AnyConfig(), _ => Fate(Done, "", map[]), true)
  }

  function Undisturbed(): Turn {
    TurnOf(Keep, Done)
  }

  /** One turn more. */
  lemma Then(s: System, turns: seq<Turn>, t: Turn) returns (more: seq<Turn>)
    ensures NextAll(GARDENER_RULES, s, more) == Next(GARDENER_RULES, NextAll(GARDENER_RULES, s, turns), t)
  {
    more := turns + [t];
    NextAllAppend(GARDENER_RULES, s, turns, [t]);
    assert [t][1..] == [];
  }

  function Created(version: nat): Logging {
    Logging({}, false, NoOperation, None, version)
  }

  /** A change by another client before a call that fails. */
  lemma Changed(s: System, changed: Logging)
    requires s.phase.Idle? && Allowed(s.logging, Some(changed))
    ensures
      var r := Next(GARDENER_RULES, s, TurnOf(Change(Some(changed)), Rejected));
      r.phase.Idle? && r.seed == s.seed && r.logging == Some(changed.(version := s.clock))
  {
  }

  /** A quiet run up to the dispatch. */
  lemma QuietFetch(s: System)
    requires s.phase.Idle? && s.logging.Some?
    requires !Waiting(s.logging.value) && s.logging.value.operation != ReconcileOperation
    ensures Next(GARDENER_RULES, Next(GARDENER_RULES, s, Undisturbed()), Undisturbed()) ==
      s.(phase := Fetched(s.logging.value))
  {
  }

  /** The quiet dispatch and addition of the finalizer for a new object, and a status write that is rejected. */
  lemma RefusedRun(s: System)
    requires s.seed && s.phase.Fetched? && s.logging == Some(s.phase.local)
    requires s.phase.local == Created(s.phase.local.version)
    ensures
      var s1 := Next(GARDENER_RULES, s, Undisturbed());
      var r := Next(GARDENER_RULES, Next(GARDENER_RULES, s1, Undisturbed()), TurnOf(Keep, Rejected));
      && r.seed && r.phase.Idle? && r.logging.Some?
      && r.logging.value == Created(r.logging.value.version).(finalizers := {FINALIZER})
  {
    var s1 := Next(GARDENER_RULES, s, Undisturbed());
    assert s1.phase == Adding(ReconcilePath(Create), s.phase.local);
    assert Next(GARDENER_RULES, s1, Undisturbed()).phase.Announcing?;
  }

  /** Another client creates the object; the first run adds the finalizer and cannot write the status. */
  lemma FirstRun(s: System) returns (turns: seq<Turn>)
    requires Initial(s) && s.seed
    ensures
      var r := NextAll(GARDENER_RULES, s, turns);
      && r.seed && r.phase.Idle? && r.logging.Some?
      && r.logging.value == Created(r.logging.value.version).(finalizers := {FINALIZER})
  {
    Changed(s, Created(0));
    turns := Then(s, [], TurnOf(Change(Some(Created(0))), Rejected));
    hide Next, Initial, Undisturbed, TurnOf;
    var created := NextAll(GARDENER_RULES, s, turns);
    QuietFetch(created);
    turns := Then(s, turns, Undisturbed());
    turns := Then(s, turns, Undisturbed());
    RefusedRun(created.(phase := Fetched(created.logging.value)));
    turns := Then(s, turns, Undisturbed());
    turns := Then(s, turns, Undisturbed());
    turns := Then(s, turns, TurnOf(Keep, Rejected));
  }

  /** The quiet middle of a migration: dispatch, Processing, the actuator, Success. */
  lemma QuietMigration(s: System)
    requires s.seed && s.phase.Fetched? && s.logging == Some(s.phase.local) && ForMigration(s.phase.local)
    requires !s.phase.local.deleting && HasFinalizer(s.logging)
    ensures
      var s2 := Next(GARDENER_RULES, Next(GARDENER_RULES, s, Undisturbed()), Undisturbed());
      var r := Next(GARDENER_RULES, Next(GARDENER_RULES, s2, Undisturbed()), Undisturbed());
      && r.phase.Releasing? && r.phase.path == MigratePath && HasFinalizer(r.logging)
      && r.logging.value.lastOperation == Some(LastOperation(Migrate, Succeeded))
  {
    var s1 := Next(GARDENER_RULES, s, Undisturbed());
    assert s1.phase == Announcing(MigratePath, s.phase.local);
    var s2 := Next(GARDENER_RULES, s1, Undisturbed());
    assert s2.phase.Acting?;
    assert Next(GARDENER_RULES, s2, Undisturbed()).phase.Reporting?;
  }

  /** A quiet run on a seed's object that is annotated for migration, up to the removal of the finalizers. */
  lemma MigrationUpToRelease(s: System) returns (turns: seq<Turn>)
    requires s.seed && s.phase.Idle? && s.logging.Some? && ForMigration(s.logging.value)
    requires !s.logging.value.deleting && HasFinalizer(s.logging)
    ensures
      var r := NextAll(GARDENER_RULES, s, turns);
      && r.phase.Releasing? && r.phase.path == MigratePath && HasFinalizer(r.logging)
      && r.logging.value.lastOperation == Some(LastOperation(Migrate, Succeeded))
  {
    QuietFetch(s);
    QuietMigration(s.(phase := Fetched(s.logging.value)));
    hide Next, Undisturbed;
    turns := Then(s, [], Undisturbed());
    turns := Then(s, turns, Undisturbed());
    turns := Then(s, turns, Undisturbed());
    turns := Then(s, turns, Undisturbed());
    turns := Then(s, turns, Undisturbed());
    turns := Then(s, turns, Undisturbed());
  }

  /** The removal of the finalizers after a migration is rejected. */
  lemma RefusedRelease(s: System)
    requires s.phase.Releasing? && s.phase.path == MigratePath && HasFinalizer(s.logging)
    ensures var r := Next(GARDENER_RULES, s, TurnOf(Keep, Rejected)); r.phase.Idle? && r.logging == s.logging
  {
  }

  /**
   An abandoned object that is marked for deletion comes about, starting without any object: the removal of the
   finalizers after a migration is rejected once, and the annotation is overwritten before the retry.
   */
  lemma AbandonedIsReachable(s: System) returns (turns: seq<Turn>)
    requires Initial(s) && s.seed
    ensures
      var r := NextAll(GARDENER_RULES, s, turns);
      GivenUp(r) && Abandoned(r.logging.value) && !Waiting(r.logging.value)
  {
    turns := FirstRun(s);
    var created := NextAll(GARDENER_RULES, s, turns);
    var annotated := created.logging.value.(operation := MigrateOperation);
    Changed(created, annotated);
    turns := Then(s, turns, TurnOf(Change(Some(annotated)), Rejected));
    var migrating := NextAll(GARDENER_RULES, s, turns);
    hide Next, NextAll, TurnOf;
    var more := MigrationUpToRelease(migrating);
    NextAllAppend(GARDENER_RULES, s, turns, more);
    var releasing := NextAll(GARDENER_RULES, migrating, more);
    RefusedRelease(releasing);
    turns := Then(s, turns + more, TurnOf(Keep, Rejected));
    var migrated := NextAll(GARDENER_RULES, s, turns);
    var overwritten := migrated.logging.value.(operation := OtherOperation, deleting := true);
    Changed(migrated, overwritten);
    turns := Then(s, turns, TurnOf(Change(Some(overwritten)), Rejected));
  }
}
