/** What single calls of the machine do to the cluster and to the object, and what they leave alone. */
module LifecycleCalls {
  import opened Wrappers
  import opened ApiServer
  import opened Components
  import opened Lifecycle
  import ShootActuator
  import ShootDecisions

  // The actuator's call

  lemma SetUpIsReconcile(s: System, path: Path, t: Turn)
    requires !s.seed && (path.ReconcilePath? || path == RestorePath)
    ensures
      var r := Run(ShootActuator.ReconcileSteps(t.config.(namespace := s.namespace)), s.objects, t.script, 0);
      Act(s, path, t) == (r.objects, r.ok)
  {
    hide Run, ShootActuator.ReconcileSteps, ShootActuator.DeleteSteps;
  }

  lemma TakeDownIsDelete(s: System, path: Path, t: Turn)
    requires !s.seed && (path == DeletePath || path == MigratePath)
    ensures
      var r := Run(ShootActuator.DeleteSteps(t.config.(namespace := s.namespace)), s.objects, t.script, 0);
      Act(s, path, t) == (r.objects, r.ok)
  {
    hide Run, ShootActuator.ReconcileSteps, ShootActuator.DeleteSteps;
  }

  lemma ActIgnoresTheObject(s: System, env: Env, path: Path, t: Turn)
    ensures Act(Interfere(s, env), path, t) == Act(s, path, t)
  {
    hide Run, ShootActuator.ReconcileSteps, ShootActuator.DeleteSteps, Allowed;
  }

  lemma PerformResult(s: System, t: Turn, path: Path, local: Logging)
    ensures
      var next := Perform(s, t, path, local);
      (next.objects, next.phase) == (Act(s, path, t).0, Reporting(path, local, Act(s, path, t).1))
  {
    hide Act;
  }

  lemma ActorsCall(rules: Rules, s: System, t: Turn)
    requires s.phase.Acting?
    ensures
      var (objects, ok) := Act(s, s.phase.path, t);
      Next(rules, s, t).objects == objects && Next(rules, s, t).phase == Reporting(s.phase.path, s.phase.local, ok)
  {
    NextPerform(rules, s, t, s.phase.path, s.phase.local);
    ActIgnoresTheObject(s, t.env, s.phase.path, t);
    PerformResult(Interfere(s, t.env), t, s.phase.path, s.phase.local);
    hide Act, Perform, Next, Interfere;
  }

  /**
   When a shoot's actuator returns without error to a reconciliation or a restoration, the seed holds just the objects
   of the two components that the configuration asks for, and with node logging on what carries promtail.
   */
  lemma SetUpLeavesExpected(rules: Rules, s: System, t: Turn)
    requires !s.seed && s.phase.Acting? && (s.phase.path.ReconcilePath? || s.phase.path == RestorePath)
    requires Next(rules, s, t).phase == Reporting(s.phase.path, s.phase.local, true)
    ensures
      var (c, r) := (t.config.(namespace := s.namespace), Next(rules, s, t).objects);
      && ShootDecisions.Present(r, s.namespace) == ShootDecisions.Expected(c)
      && (ShootDecisions.NodeLoggingConfigured(c) ==> ShootActuator.ControlPlaneKeys(s.namespace) <= r.Keys)
  {
    var c := t.config.(namespace := s.namespace);
    ActorsCall(rules, s, t);
    SetUpIsReconcile(s, s.phase.path, t);
    hide Next, Act;
    ShootDecisions.ReconcilePresents(c, s.objects, t.script, 0);
    ShootDecisions.GatesDecide(c, s.objects, t.script, 0);
    hide Run, ShootActuator.ReconcileSteps, EventLoggerKeys, ProxyKeys, ShootActuator.ControlPlaneKeys;
    hide ShootDecisions.Present, ShootDecisions.Expected, ShootDecisions.NodeLoggingConfigured;
  }

  /** When it returns without error to a deletion or a migration, the seed holds nothing of the stack. */
  lemma TakeDownLeavesNothing(rules: Rules, s: System, t: Turn)
    requires !s.seed && s.phase.Acting? && (s.phase.path == DeletePath || s.phase.path == MigratePath)
    requires Next(rules, s, t).phase == Reporting(s.phase.path, s.phase.local, true)
    ensures Next(rules, s, t).objects.Keys !! ShootActuator.StackKeys(s.namespace)
  {
    var c := t.config.(namespace := s.namespace);
    ActorsCall(rules, s, t);
    TakeDownIsDelete(s, s.phase.path, t);
    hide Next, Act;
    ShootDecisions.DeleteDecides(c, s.objects, t.script, 0);
    hide Run, ShootActuator.DeleteSteps, ShootActuator.StackKeys;
  }

  lemma CallKeepsObjects(rules: Rules, s: System, t: Turn)
    requires !s.phase.Acting?
    ensures Call(rules, s, t).objects == s.objects
  {
    hide AddFinalizers, PatchStatus, RemoveFinalizers, RemoveAllFinalizers, RemoveAnnotation, Dispatch;
    match s.phase {
      case Idle =>
      case Clearing(_) =>
      case Ready =>
      case Fetched(_) =>
      case Adding(_, _) =>
      case Announcing(_, _) =>
      case Reporting(_, _, _) =>
      case Releasing(_, _) =>
      case Unannotating(_, _) =>
    }
  }

  /** No other call changes an object of the seed, nor does the seed's actuator change one of a shoot's. */
  lemma OnlyTheActuatorChangesObjects(rules: Rules, s: System, t: Turn)
    requires s.seed || !s.phase.Acting?
    ensures Next(rules, s, t).objects == s.objects
  {
    if s.phase.Acting? {
      ActorsCall(rules, s, t);
    } else {
      CallKeepsObjects(rules, Interfere(s, t.env), t);
    }
    hide Call, Allowed;
  }

  // The calls on the object

  /** The call that removes all finalizers. */
  predicate ReleasesAll(s: System) {
    s.phase.Releasing? && s.phase.path == MigratePath
  }

  ghost predicate FinalizersChangeLittle(s: System, before: Logging, after: Logging) {
    && (forall f :: f != FINALIZER && !ReleasesAll(s) ==> (f in before.finalizers <==> f in after.finalizers))
    && (FINALIZER in after.finalizers ==> FINALIZER in before.finalizers || s.phase.Adding?)
    && (FINALIZER in before.finalizers ==> FINALIZER in after.finalizers || s.phase.Releasing?)
  }

  ghost predicate RestChangesLittle(s: System, before: Logging, after: Logging) {
    && after.deleting == before.deleting
    && (after.operation == before.operation ||
        (after.operation == NoOperation && (s.phase.Clearing? || s.phase.Unannotating?)))
    && (after.lastOperation == before.lastOperation || s.phase.Announcing? || s.phase.Reporting?)
  }

  /**
   What a call of ours may change of the object: finalizers of others go only when all go, at the end of a migration;
   ours comes only in the call that adds it and goes only in one that releases it; the annotation is only ever taken
   away, by the wrapper or at the end of a migration or restoration; and the status changes only in the calls that
   write it. We never mark the object for deletion nor take that back, and it vanishes only with its last finalizer.
   */
  ghost predicate ChangesLittle(s: System, before: Logging, after: Option<Logging>) {
    match after
    case None => before.deleting && s.phase.Releasing? && (ReleasesAll(s) || before.finalizers <= {FINALIZER})
    case Some(n) => FinalizersChangeLittle(s, before, n) && RestChangesLittle(s, before, n)
  }

  predicate Alive(o: Logging) {
    o.deleting ==> o.finalizers != {}
  }

  lemma FinalizerCallsChangeLittle(rules: Rules, s: System, t: Turn)
    requires s.logging.Some? && Alive(s.logging.value) && (s.phase.Adding? || s.phase.Releasing?)
    ensures ChangesLittle(s, s.logging.value, Call(rules, s, t).logging)
  {
    var (o, path, local) := (s.logging.value, s.phase.path, s.phase.local);
    var r := if s.phase.Adding? then AddFinalizers(s.logging, s.clock, local, t.outcome)
             else if path.MigratePath? then RemoveAllFinalizers(s.logging, s.clock, local, t.outcome)
             else RemoveFinalizers(s.logging, s.clock, local, t.outcome);
    assert Call(rules, s, t).logging == r.logging;
    assert ChangesLittle(s, o, r.logging);
  }

  lemma StatusCallsChangeLittle(rules: Rules, s: System, t: Turn)
    requires s.logging.Some? && Alive(s.logging.value) && (s.phase.Announcing? || s.phase.Reporting?)
    ensures ChangesLittle(s, s.logging.value, Call(rules, s, t).logging)
  {
  }

  lemma OtherCallsChangeLittle(rules: Rules, s: System, t: Turn)
    requires s.logging.Some? && Alive(s.logging.value)
    requires !s.phase.Adding? && !s.phase.Releasing? && !s.phase.Announcing? && !s.phase.Reporting?
    ensures ChangesLittle(s, s.logging.value, Call(rules, s, t).logging)
  {
    hide Act;
    match s.phase {
      case Idle =>
      case Clearing(_) =>
      case Ready =>
      case Fetched(_) =>
      case Acting(_, _) =>
      case Unannotating(_, _) =>
    }
  }

  lemma CallChangesLittle(rules: Rules, s: System, t: Turn)
    requires s.logging.Some? && Alive(s.logging.value)
    ensures ChangesLittle(s, s.logging.value, Call(rules, s, t).logging)
  {
    hide Call, ChangesLittle, Alive;
    if s.phase.Adding? || s.phase.Releasing? {
      FinalizerCallsChangeLittle(rules, s, t);
    } else if s.phase.Announcing? || s.phase.Reporting? {
      StatusCallsChangeLittle(rules, s, t);
    } else {
      OtherCallsChangeLittle(rules, s, t);
    }
  }

  /** No call creates the object. */
  lemma CallCreatesNothing(rules: Rules, s: System, t: Turn)
    requires s.logging.None?
    ensures Call(rules, s, t).logging.None?
  {
    match s.phase {
      case Idle =>
      case Clearing(_) =>
      case Ready =>
      case Fetched(_) =>
      case Adding(_, _) =>
      case Announcing(_, _) =>
      case Acting(_, _) =>
      case Reporting(_, _, _) =>
      case Releasing(_, _) =>
      case Unannotating(_, _) =>
    }
  }

  /** Adding and removing the finalizer are locked: with a copy of another version they fail and change nothing. */
  lemma StaleCopyIsRefused(o: Logging, clock: nat, local: Logging, outcome: Outcome)
    requires o.version != local.version
    ensures AddFinalizers(Some(o), clock, local, outcome) == Reply(Some(o), clock, false, local)
    ensures RemoveFinalizers(Some(o), clock, local, outcome) == Reply(Some(o), clock, false, local)
  {
  }

  /**
   With the current copy they take effect unless the call is rejected, also when it reports an error; and every write
   gives the object a version it never had.
   */
  lemma FreshCopyIsTaken(o: Logging, clock: nat, outcome: Outcome)
    requires outcome != Rejected
    ensures
      var r := AddFinalizers(Some(o), clock, o, outcome);
      && r.ok == (outcome == Done)
      && r.logging == Some(o.(finalizers := o.finalizers + {"extensions.gardener.cloud/logging"}, version := clock))
    ensures
      var r := RemoveFinalizers(Some(o), clock, o, outcome);
      var n := o.(finalizers := o.finalizers - {"extensions.gardener.cloud/logging"}, version := clock);
      r.ok == (outcome == Done) && r.logging == if n.deleting && n.finalizers == {} then None else Some(n)
  {
  }

  /** Removing all finalizers: the object goes with them if it is being deleted, and is no error when it is gone. */
  lemma AllAreReleased(o: Logging, clock: nat, outcome: Outcome)
    requires Alive(o) && outcome != Rejected
    ensures
      var r := RemoveAllFinalizers(Some(o), clock, o, outcome);
      && r.ok == (outcome == Done) && r.local == o.(finalizers := {}, version := r.local.version)
      && r.logging == if o.deleting then None else Some(r.local)
  {
  }

  /** On an object that is gone only the removals of finalizers succeed. */
  lemma MissingObject(clock: nat, local: Logging, last: LastOperation)
    ensures RemoveFinalizers(None, clock, local, Done).ok && RemoveAllFinalizers(None, clock, local, Done).ok
    ensures !AddFinalizers(None, clock, local, Done).ok && !RemoveAnnotation(None, clock, local, Done).ok
    ensures !PatchStatus(None, clock, local, Done, last).ok
  {
  }

  /** A status write that was lost on the way back is stored all the same; one that is rejected is not. */
  lemma StatusIsStored(o: Logging, clock: nat, local: Logging, outcome: Outcome, last: LastOperation)
    requires o.deleting ==> o.finalizers != {}
    ensures
      var r := PatchStatus(Some(o), clock, local, outcome, last);
      && r.ok == (outcome == Done)
      && r.logging == Some(if outcome == Rejected then o else o.(lastOperation := Some(last), version := clock))
      && (r.ok ==> r.local == r.logging.value)
  {
  }

  // What is left to other clients

  /** Other clients may create the object, annotate it, mark it for deletion, and add finalizers of their own. */
  lemma OtherClientsMay(o: Logging, operation: Annotation, finalizer: string)
    ensures Allowed(None, Some(o.(deleting := false, lastOperation := None)))
    ensures Allowed(Some(o), Some(o.(operation := operation))) <==> !(o.deleting && o.finalizers == {})
    ensures o.finalizers != {} ==> Allowed(Some(o), Some(o.(deleting := true)))
    ensures o.finalizers != {} ==> Allowed(Some(o), Some(o.(finalizers := o.finalizers + {finalizer})))
    ensures "extensions.gardener.cloud/logging" !in o.finalizers ==> Allowed(Some(o), None)
  {
  }

  /** They may take their own finalizers away, while one is left. */
  lemma OtherClientsMayFinish(o: Logging, finalizer: string)
    requires finalizer != "extensions.gardener.cloud/logging" && o.finalizers - {finalizer} != {}
    ensures Allowed(Some(o), Some(o.(finalizers := o.finalizers - {finalizer})))
  {
  }
}
