/** What holds in every reachable state of the machine, whatever other clients do and whichever calls fail. */
module LifecycleSafety {
  import opened Wrappers
  import opened ApiServer
  import opened Lifecycle
  import ShootActuator
  import ShootDecisions

  /** The copy is of a version already written, and as good as the object while the version is the same. */
  predicate Copied(s: System, local: Logging) {
    && local.version < s.clock
    && (Locked(s.logging, local) ==> s.logging == Some(local))
    && (FINALIZER in local.finalizers ==> HasFinalizer(s.logging))
  }

  // The runs there are

  function Begun(path: Path): seq<Event> {
    [Status(RecordedType(path), Processing, true)]
  }

  function ActedRun(seed: bool, path: Path, ok: bool): seq<Event> {
    Begun(path) + [Acted(seed, path, ok)]
  }

  function SucceededRun(seed: bool, path: Path): seq<Event> {
    ActedRun(seed, path, true) + [Status(RecordedType(path), Succeeded, true)]
  }

  /** Runs that end with an error: nothing was written, or the actuator failed, or its success could not be written. */
  ghost predicate FailedRun(seed: bool, path: Path, run: seq<Event>) {
    || run == [Status(RecordedType(path), Processing, false)]
    || (exists written :: run == ActedRun(seed, path, false) + [Status(RecordedOnError(path), Error, written)])
    || run == ActedRun(seed, path, true) + [Status(RecordedType(path), Succeeded, false)]
  }

  /** The events of a run, and whether the reconciler returned no error. */
  ghost predicate CompleteRun(seed: bool, run: seq<Event>, ok: bool) {
    || run == [] || run == [SkippedDelete]
    || exists path :: (!ok && FailedRun(seed, path, run)) || run == SucceededRun(seed, path)
                      || (!SetsUp(path) && run == SucceededRun(seed, path) + [Released])
  }

  ghost predicate CompleteRuns(seed: bool, history: seq<Finished>) {
    forall run :: run in history ==> CompleteRun(seed, run.events, run.ok)
  }

  /** The object's status shows the operation; only a migration may run on an object without finalizer. */
  predicate Shows(s: System, path: Path) {
    path.MigratePath? ||
    (HasFinalizer(s.logging) && s.logging.value.lastOperation == Some(LastOperation(RecordedType(path), Processing)))
  }

  predicate PhaseHolds(s: System) {
    match s.phase
    case Idle => s.run == []
    case Clearing(local) => s.run == [] && local.version < s.clock
    case Ready => s.run == []
    case Fetched(local) => s.run == [] && Copied(s, local) && (FINALIZER !in local.finalizers ==> !s.dirty)
    case Adding(path, local) => s.run == [] && Copied(s, local) && SetsUp(path)
    case Announcing(path, local) => s.run == [] && Copied(s, local) && (path.MigratePath? || HasFinalizer(s.logging))
    case Acting(path, local) => s.run == Begun(path) && Copied(s, local) && Shows(s, path)
    case Reporting(path, local, acted) =>
      && s.run == ActedRun(s.seed, path, acted) && Copied(s, local) && Shows(s, path)
      && (acted && !SetsUp(path) ==> !s.dirty)
    case Releasing(path, local) => s.run == SucceededRun(s.seed, path) && Copied(s, local) && !SetsUp(path) && !s.dirty
    case Unannotating(path, local) =>
      if SetsUp(path) then s.run == SucceededRun(s.seed, path)
      else s.run == SucceededRun(s.seed, path) + [Released]
  }

  /** Nothing of the stack can be left without the finalizer. */
  predicate Guarded(s: System) {
    s.dirty ==> HasFinalizer(s.logging)
  }

  /** The components' objects are there only between a set-up that began and a take-down that succeeded. */
  predicate Tidy(s: System) {
    (s.dirty && !s.seed) || s.objects.Keys !! ShootActuator.StackKeys(s.namespace)
  }

  predicate Fresh(s: System) {
    s.logging.Some? ==> s.logging.value.version < s.clock
  }

  ghost predicate Inv(s: System) {
    && Guarded(s) && Tidy(s) && Fresh(s) && PhaseHolds(s)
    && CompleteRuns(s.seed, s.history)
  }

  lemma InterfereKeeps(s: System, env: Env)
    requires Inv(s)
    ensures Inv(Interfere(s, env))
  {
  }

  lemma EndKeeps(s: System, ok: bool)
    requires Guarded(s) && Tidy(s) && Fresh(s) && CompleteRun(s.seed, s.run, ok) && CompleteRuns(s.seed, s.history)
    ensures Inv(End(s, ok))
  {
    var last := Finished(s.run, ok);
    assert forall run :: run in s.history + [last] <==> run in s.history || run == last;
  }

  lemma ScreenKeeps(rules: Rules, s: System, t: Turn)
    requires Inv(s) && s.phase.Idle?
    ensures Inv(Call(rules, s, t))
  {
    EndKeeps(s, true);
    EndKeeps(s, false);
  }

  lemma ClearKeeps(rules: Rules, s: System, t: Turn)
    requires Inv(s) && s.phase.Clearing?
    ensures Inv(Call(rules, s, t))
  {
    EndKeeps(Replied(s, RemoveAnnotation(s.logging, s.clock, s.phase.local, t.outcome)), false);
  }

  lemma FetchKeeps(rules: Rules, s: System, t: Turn)
    requires Inv(s) && s.phase.Ready?
    ensures Inv(Call(rules, s, t))
  {
    EndKeeps(s, true);
    EndKeeps(s, false);
  }

  lemma DecideKeeps(rules: Rules, s: System, t: Turn)
    requires Inv(s) && s.phase.Fetched?
    ensures Inv(Call(rules, s, t))
  {
    EndKeeps(s, true);
    EndKeeps(s, false);
    EndKeeps(Log(s, SkippedDelete), true);
  }

  lemma AddKeeps(rules: Rules, s: System, t: Turn)
    requires Inv(s) && s.phase.Adding?
    ensures Inv(Call(rules, s, t))
  {
    EndKeeps(Replied(s, AddFinalizers(s.logging, s.clock, s.phase.local, t.outcome)), false);
  }

  lemma AnnounceKeeps(rules: Rules, s: System, t: Turn)
    requires Inv(s) && s.phase.Announcing?
    ensures Inv(Call(rules, s, t))
  {
    var path := s.phase.path;
    var last := LastOperation(RecordedType(path), Processing);
    var r := PatchStatus(s.logging, s.clock, s.phase.local, t.outcome, last);
    var next := Log(Replied(s, r), Status(last.kind, last.state, r.ok));
    assert next.run == [Status(RecordedType(path), Processing, r.ok)];
    if !r.ok {
      assert FailedRun(s.seed, path, next.run);
      EndKeeps(next, false);
    }
  }

  lemma ActKeeps(rules: Rules, s: System, t: Turn)
    requires Inv(s) && s.phase.Acting?
    ensures Inv(Call(rules, s, t))
  {
    var path := s.phase.path;
    if !s.seed && !SetsUp(path) {
      var c := t.config.(namespace := s.namespace);
      if Act(s, path, t).1 {
        ShootDecisions.DeleteDecides(c, s.objects, t.script, 0);
      } else if !s.dirty {
        ShootDecisions.DeleteAddsNone(c, s.objects, t.script, 0);
      }
    }
  }

  lemma ReportKeeps(rules: Rules, s: System, t: Turn)
    requires Inv(s) && s.phase.Reporting?
    ensures Inv(Call(rules, s, t))
  {
    var (path, acted) := (s.phase.path, s.phase.acted);
    var last := if acted then LastOperation(RecordedType(path), Succeeded)
                else LastOperation(RecordedOnError(path), Error);
    var r := PatchStatus(s.logging, s.clock, s.phase.local, t.outcome, last);
    var next := Log(Replied(s, r), Status(last.kind, last.state, r.ok));
    assert next.run == ActedRun(s.seed, path, acted) + [Status(last.kind, last.state, r.ok)];
    if acted && r.ok {
      ReportedKeeps(next, path, r.local);
    } else {
      assert FailedRun(s.seed, path, next.run);
      EndKeeps(next, false);
    }
  }

  lemma ReportedKeeps(s: System, path: Path, local: Logging)
    requires Guarded(s) && Tidy(s) && Fresh(s) && s.run == SucceededRun(s.seed, path) && Copied(s, local)
    requires !SetsUp(path) ==> !s.dirty
    requires CompleteRuns(s.seed, s.history)
    ensures Inv(Reported(s, path, local))
  {
    EndKeeps(s, true);
  }

  lemma ReleaseKeeps(rules: Rules, s: System, t: Turn)
    requires Inv(s) && s.phase.Releasing?
    ensures Inv(Call(rules, s, t))
  {
    var (path, local) := (s.phase.path, s.phase.local);
    var r := if path.MigratePath? then RemoveAllFinalizers(s.logging, s.clock, local, t.outcome)
             else RemoveFinalizers(s.logging, s.clock, local, t.outcome);
    var next := Log(Replied(s, r), Released);
    assert next.run == SucceededRun(s.seed, path) + [Released];
    EndKeeps(next, r.ok);
  }

  lemma UnannotateKeeps(rules: Rules, s: System, t: Turn)
    requires Inv(s) && s.phase.Unannotating?
    ensures Inv(Call(rules, s, t))
  {
    var r := RemoveAnnotation(s.logging, s.clock, s.phase.local, t.outcome);
    EndKeeps(Replied(s, r), r.ok);
  }

  lemma StepKeeps(rules: Rules, s: System, t: Turn)
    requires Inv(s)
    ensures Inv(Next(rules, s, t))
  {
    InterfereKeeps(s, t.env);
    var next := Interfere(s, t.env);
    match next.phase {
      case Idle => ScreenKeeps(rules, next, t);
      case Clearing(_) => ClearKeeps(rules, next, t);
      case Ready => FetchKeeps(rules, next, t);
      case Fetched(_) => DecideKeeps(rules, next, t);
      case Adding(_, _) => AddKeeps(rules, next, t);
      case Announcing(_, _) => AnnounceKeeps(rules, next, t);
      case Acting(_, _) => ActKeeps(rules, next, t);
      case Reporting(_, _, _) => ReportKeeps(rules, next, t);
      case Releasing(_, _) => ReleaseKeeps(rules, next, t);
      case Unannotating(_, _) => UnannotateKeeps(rules, next, t);
    }
  }

  lemma {:induction false} StepsKeep(rules: Rules, s: System, turns: seq<Turn>)
    requires Inv(s)
    ensures Inv(NextAll(rules, s, turns))
    decreases |turns|
  {
    if turns != [] {
      StepKeeps(rules, s, turns[0]);
      StepsKeep(rules, Next(rules, s, turns[0]), turns[1..]);
    }
  }

  lemma InitialHolds(s: System)
    requires Initial(s)
    ensures Inv(s)
  {
  }

  /**
   In every reachable state: if the actuator has begun to set the stack up and has not succeeded in taking it down
   since, the Logging object exists and carries the finalizer. And while it does not, the seed holds no object of the
   shoot's two components.
   */
  lemma FinalizerGuardsTheStack(rules: Rules, s: System, turns: seq<Turn>)
    requires Initial(s)
    ensures
      var r := NextAll(rules, s, turns);
      && (r.dirty ==> HasFinalizer(r.logging))
      && (!HasFinalizer(r.logging) ==> r.objects.Keys !! ShootActuator.StackKeys(r.namespace))
  {
    InitialHolds(s);
    StepsKeep(rules, s, turns);
    NamespaceConstant(rules, s, turns);
  }

  lemma NextInPlace(rules: Rules, s: System, t: Turn)
    ensures Next(rules, s, t).namespace == s.namespace && Next(rules, s, t).seed == s.seed
  {
    var next := Interfere(s, t.env);
    match next.phase {
      case Idle =>
      case Clearing(_) =>
      case Ready =>
      case Fetched(_) =>
      case Adding(_, _) =>
      case Announcing(_, _) =>
      case Acting(_, _) =>
      case Reporting(_, _, _) =>
      case Releasing(_, _) =>
      case Unannotating(_, _) =>
    }
  }

  lemma {:induction false} NamespaceConstant(rules: Rules, s: System, turns: seq<Turn>)
    ensures NextAll(rules, s, turns).namespace == s.namespace && NextAll(rules, s, turns).seed == s.seed
    decreases |turns|
  {
    if turns != [] {
      NextInPlace(rules, s, turns[0]);
      NamespaceConstant(rules, Next(rules, s, turns[0]), turns[1..]);
    }
  }

  /** A deletion that does nothing because its copy has no finalizer has nothing to do, even if the copy is old. */
  lemma SkippedDeleteIsHarmless(rules: Rules, s: System, turns: seq<Turn>)
    requires Initial(s)
    ensures
      var r := NextAll(rules, s, turns);
      r.phase.Fetched? && FINALIZER !in r.phase.local.finalizers ==>
        !r.dirty && r.objects.Keys !! ShootActuator.StackKeys(r.namespace)
  {
    InitialHolds(s);
    StepsKeep(rules, s, turns);
  }

  /**
   The finalizer leaves the object in one way only: by the call that releases it, in a run that takes the stack down,
   after the actuator succeeded in that run.
   */
  lemma OnlyWayOut(rules: Rules, s: System, turns: seq<Turn>, t: Turn)
    requires Initial(s)
    requires HasFinalizer(NextAll(rules, s, turns).logging)
    requires !HasFinalizer(Next(rules, NextAll(rules, s, turns), t).logging)
    ensures
      var before := NextAll(rules, s, turns);
      && before.phase.Releasing? && !SetsUp(before.phase.path)
      && Acted(s.seed, before.phase.path, true) in before.run
  {
    InitialHolds(s);
    StepsKeep(rules, s, turns);
    NamespaceConstant(rules, s, turns);
    var before := NextAll(rules, s, turns);
    var middle := Interfere(before, t.env);
    InterfereKeeps(before, t.env);
    assert HasFinalizer(middle.logging);
    if before.phase.Releasing? {
      var path := before.phase.path;
      assert ActedRun(s.seed, path, true)[1] == Acted(s.seed, path, true);
      assert SucceededRun(s.seed, path)[1] == Acted(s.seed, path, true);
    } else {
      KeepsFinalizer(rules, middle, t);
    }
  }

  lemma KeepsFinalizer(rules: Rules, s: System, t: Turn)
    requires HasFinalizer(s.logging) && !s.phase.Releasing?
    ensures HasFinalizer(Call(rules, s, t).logging)
  {
    match s.phase {
      case Idle =>
      case Clearing(local) => assert HasFinalizer(RemoveAnnotation(s.logging, s.clock, local, t.outcome).logging);
      case Ready =>
      case Fetched(_) =>
      case Adding(_, local) => assert HasFinalizer(AddFinalizers(s.logging, s.clock, local, t.outcome).logging);
      case Announcing(_, _) =>
      case Acting(_, _) =>
      case Reporting(_, _, _) =>
      case Unannotating(_, local) =>
        assert HasFinalizer(RemoveAnnotation(s.logging, s.clock, local, t.outcome).logging);
    }
  }

  // The protocol of the status

  predicate IsStatus(e: Event, state: OperationState) {
    e.Status? && e.state == state
  }

  /** A status that the API server confirmed. */
  predicate IsWritten(e: Event, state: OperationState) {
    IsStatus(e, state) && e.written
  }

  /** The operation type of the last status write: the operation's own, but for the error of a restoration. */
  function LastType(begun: Event, acted: Event): OperationType
    requires begun.Status? && acted.Acted?
  {
    if acted.path == RestorePath && !acted.ok then Delete else begun.kind
  }

  /**
   The status writes of a run are Processing, then at most one of Error and Success. The actuator is called at most
   once, and only after Processing was written. Success is attempted only after the actuator returned no error, Error
   only after it returned one. Finalizers are released only after the success of taking the stack down was written.
   All writes name the type of the operation, except that a failed restoration ends as a deletion. And the reconciler
   returns no error only if the run had nothing to do or Success was written.
   */
  ghost predicate Protocol(run: seq<Event>, ok: bool) {
    && (forall i :: 0 <= i < |run| && IsStatus(run[i], Processing) ==> i == 0)
    && (forall i :: 0 <= i < |run| && run[i].Acted? ==>
          i == 1 && run[0] == Status(RecordedType(run[1].path), Processing, true))
    && (forall i :: 0 <= i < |run| && IsStatus(run[i], Succeeded) ==>
          i == 2 && run[1].Acted? && run[1].ok && run[2].kind == LastType(run[0], run[1]))
    && (forall i :: 0 <= i < |run| && IsStatus(run[i], Error) ==>
          i == 2 && run[1].Acted? && !run[1].ok && run[2].kind == LastType(run[0], run[1]))
    && (forall i :: 0 <= i < |run| && run[i] == Released ==>
          i == 3 && IsWritten(run[2], Succeeded) && run[1].Acted? && !SetsUp(run[1].path))
    && (|run| > 1 ==> run[1].Acted? && |run| > 2)
    && (ok ==> run == [] || run == [SkippedDelete] || (|run| > 2 && IsWritten(run[2], Succeeded)))
  }

  /** The run follows the protocol and calls only the actuator of the object's type. */
  ghost predicate Follows(seed: bool, run: seq<Event>, ok: bool) {
    Protocol(run, ok) && forall i :: 0 <= i < |run| && run[i].Acted? ==> run[i].seed == seed
  }

  lemma ShortRunFollows(seed: bool, path: Path, ok: bool)
    ensures Follows(seed, [], ok) && Follows(seed, [SkippedDelete], ok)
    ensures Follows(seed, [Status(RecordedType(path), Processing, false)], false)
  {
  }

  lemma ErrorRunFollows(seed: bool, path: Path, written: bool)
    ensures Follows(seed, ActedRun(seed, path, false) + [Status(RecordedOnError(path), Error, written)], false)
  {
    var run := ActedRun(seed, path, false) + [Status(RecordedOnError(path), Error, written)];
    assert run == [ Status(RecordedType(path), Processing, true), Acted(seed, path, false),
                    Status(RecordedOnError(path), Error, written) ];
  }

  lemma UnreportedRunFollows(seed: bool, path: Path)
    ensures Follows(seed, ActedRun(seed, path, true) + [Status(RecordedType(path), Succeeded, false)], false)
  {
    var run := ActedRun(seed, path, true) + [Status(RecordedType(path), Succeeded, false)];
    assert run == [ Status(RecordedType(path), Processing, true), Acted(seed, path, true),
                    Status(RecordedType(path), Succeeded, false) ];
  }

  lemma FailedRunFollows(seed: bool, path: Path, run: seq<Event>)
    requires FailedRun(seed, path, run)
    ensures Follows(seed, run, false)
  {
    hide Follows;
    ShortRunFollows(seed, path, false);
    ErrorRunFollows(seed, path, true);
    ErrorRunFollows(seed, path, false);
    UnreportedRunFollows(seed, path);
  }

  lemma SucceededRunFollows(seed: bool, path: Path, ok: bool)
    ensures Follows(seed, SucceededRun(seed, path), ok)
    ensures !SetsUp(path) ==> Follows(seed, SucceededRun(seed, path) + [Released], ok)
  {
    var run := SucceededRun(seed, path);
    assert run == [ Status(RecordedType(path), Processing, true), Acted(seed, path, true),
                    Status(RecordedType(path), Succeeded, true) ];
  }

  lemma CompleteRunsFollow(seed: bool, run: seq<Event>, ok: bool)
    requires CompleteRun(seed, run, ok)
    ensures Follows(seed, run, ok)
  {
    hide Follows, FailedRun;
    ShortRunFollows(seed, MigratePath, ok);
    if run != [] && run != [SkippedDelete] {
      var path :| (!ok && FailedRun(seed, path, run)) || run == SucceededRun(seed, path)
                  || (!SetsUp(path) && run == SucceededRun(seed, path) + [Released]);
      if !ok && FailedRun(seed, path, run) {
        FailedRunFollows(seed, path, run);
      }
      SucceededRunFollows(seed, path, ok);
    }
  }

  /** Every run there ever was follows the protocol, and calls the actuator of the object's type. */
  lemma EveryRunFollowsTheProtocol(rules: Rules, s: System, turns: seq<Turn>, run: Finished)
    requires Initial(s) && run in NextAll(rules, s, turns).history
    ensures Follows(s.seed, run.events, run.ok)
  {
    InitialHolds(s);
    StepsKeep(rules, s, turns);
    NamespaceConstant(rules, s, turns);
    CompleteRunsFollow(s.seed, run.events, run.ok);
  }

  /**
   In every reachable state in which the actuator is called, other than for a migration, the object carries the
   finalizer and its stored status says Processing for this operation.
   */
  lemma ActuatorRunsWhileProcessing(rules: Rules, s: System, turns: seq<Turn>, env: Env)
    requires Initial(s)
    ensures
      var r := Interfere(NextAll(rules, s, turns), env);
      r.phase.Acting? && !r.phase.path.MigratePath? ==>
        && HasFinalizer(r.logging)
        && r.logging.value.lastOperation == Some(LastOperation(RecordedType(r.phase.path), Processing))
  {
    InitialHolds(s);
    StepsKeep(rules, s, turns);
    InterfereKeeps(NextAll(rules, s, turns), env);
  }
}
