/**
 The reconciler's methods, call by call, against an API server that other clients use too. Whatever they and the
 failures do, the server is always in the state that the machine of `Lifecycle` reaches with the same turns.
 */
module Reconciler {
  import opened Wrappers
  import opened ApiServer
  import opened Lifecycle
  import LifecycleSafety
  import ShootActuator

  /** The API server of a namespace with its Logging object, and the turns to come. */
  class ControlPlane {
    const namespace: string
    const seed: bool
    const oracle: nat -> Turn
    var logging: Option<Logging>
    var clock: nat
    var objects: Objects
    var turns: nat

    ghost const start: System
    ghost var machine: System

    /** The machine is where the turns so far have led it, and the server shows the same. */
    ghost predicate Valid()
      reads this
    {
      && Initial(start) && machine == NextAll(GARDENER_RULES, start, Played(oracle, turns))
      && machine.namespace == namespace && machine.seed == seed
      && machine.logging == logging && machine.clock == clock && machine.objects == objects
    }

    constructor (namespace: string, seed: bool, objects: Objects, oracle: nat -> Turn)
      requires objects.Keys !! ShootActuator.StackKeys(namespace)
      ensures Valid() && machine.phase.Idle? && turns == 0
      ensures start == System(namespace, seed, None, 0, Idle, false, objects, [], [])
    {
      this.namespace, this.seed, this.oracle, this.objects := namespace, seed, oracle, objects;
      logging, clock, turns := None, 0, 0;
      start := System(namespace, seed, None, 0, Idle, false, objects, [], []);
      machine := System(namespace, seed, None, 0, Idle, false, objects, [], []);
    }

    /** Another client's change, before a call. */
    method OtherClient(env: Env)
      requires machine.logging == logging && machine.clock == clock
      modifies `logging, `clock
      ensures Interfere(machine, env) == machine.(logging := logging, clock := clock)
    {
      if env.Change? && Allowed(logging, env.logging) {
        match env.logging {
          case None => logging := None;
          case Some(n) =>
            logging := Some(n.(version := clock));
            clock := clock + 1;
        }
      }
    }

    /** The API server's answer to a write. */
    method Answer(reply: Reply)
      modifies `logging, `clock
      ensures logging == reply.logging && clock == reply.clock
    {
      logging, clock := reply.logging, reply.clock;
    }

    /** The machine has made the same step. */
    ghost method Advance(before: System)
      requires Initial(start) && before == NextAll(GARDENER_RULES, start, Played(oracle, turns))
      requires var next := Next(GARDENER_RULES, before, oracle(turns));
        && next.namespace == namespace && next.seed == seed
        && next.logging == logging && next.clock == clock && next.objects == objects
      modifies `machine
      ensures machine == Next(GARDENER_RULES, before, oracle(turns))
      ensures machine == NextAll(GARDENER_RULES, start, Played(oracle, turns + 1))
    {
      machine := Next(GARDENER_RULES, before, oracle(turns));
      PlayedMore(GARDENER_RULES, start, oracle, turns);
    }

    /** The wrapper's read. */
    method Screen() returns (ok: bool, found: Option<Logging>)
      requires Valid() && machine.phase.Idle?
      modifies this
      ensures Valid() && turns == old(turns) + 1
      ensures |machine.history| == |old(machine.history)| + if machine.phase.Idle? then 1 else 0
      ensures machine.phase.Idle? ==> machine.history[|old(machine.history)|].ok == ok
      ensures machine.phase ==
        if !ok || (found.Some? && found.value.operation == WaitForState) then Idle
        else if found.Some? && found.value.operation == ReconcileOperation then Clearing(found.value)
        else Ready
    {
      hide NextAll, Next, Interfere;
      var t := oracle(turns);
      NextScreen(GARDENER_RULES, machine, t);
      OtherClient(t.env);
      ok, found := t.outcome.Done?, logging;
      Advance(machine);
      turns := turns + 1;
    }

    /** The wrapper's patch, which takes the annotation away. */
    method ClearAnnotation(local: Logging) returns (ok: bool)
      requires Valid() && machine.phase == Clearing(local)
      modifies this
      ensures Valid() && turns == old(turns) + 1 && RunsGrow(old(machine), machine, ok)
      ensures machine.phase == if ok then Ready else Idle
    {
      hide NextAll, Next, Interfere;
      var t := oracle(turns);
      NextClear(GARDENER_RULES, machine, t, local);
      OtherClient(t.env);
      var reply := Lifecycle.RemoveAnnotation(logging, clock, local, t.outcome);
      Answer(reply);
      ok := reply.ok;
      Advance(machine);
      turns := turns + 1;
    }

    method Get() returns (ok: bool, found: Option<Logging>)
      requires Valid() && machine.phase.Ready?
      modifies this
      ensures Valid() && turns == old(turns) + 1 && RunsGrow(old(machine), machine, ok)
      ensures machine.phase == if ok && found.Some? then Fetched(found.value) else Idle
    {
      hide NextAll, Next, Interfere;
      var t := oracle(turns);
      NextFetch(GARDENER_RULES, machine, t);
      OtherClient(t.env);
      ok, found := t.outcome.Done?, logging;
      Advance(machine);
      turns := turns + 1;
    }

    /** `GetCluster`; for the seed's object there is no call, but time passes all the same. */
    method GetCluster(ghost local: Logging) returns (ok: bool)
      requires Valid() && machine.phase == Fetched(local)
      modifies this
      ensures Valid() && turns == old(turns) + 1 && RunsGrow(old(machine), machine, ok)
      ensures seed ==> ok
      ensures machine.phase ==
        if !ok || Dispatch(GARDENER_RULES, local).None? then Idle
        else FirstPhase(Dispatch(GARDENER_RULES, local).value, local)
    {
      hide NextAll, Next, Interfere;
      var t := oracle(turns);
      NextDecide(GARDENER_RULES, machine, t, local);
      OtherClient(t.env);
      DecideResult(Interfere(machine, t.env), t, local);
      hide Decide, Dispatch, FirstPhase;
      ok := seed || t.outcome.Done?;
      Advance(machine);
      turns := turns + 1;
    }

    method AddFinalizers(ghost path: Path, local: Logging) returns (ok: bool, updated: Logging)
      requires Valid() && machine.phase == Adding(path, local)
      modifies this
      ensures Valid() && turns == old(turns) + 1 && RunsGrow(old(machine), machine, ok)
      ensures machine.phase == if ok then Announcing(path, updated) else Idle
    {
      hide NextAll, Next, Interfere;
      var t := oracle(turns);
      NextAdd(GARDENER_RULES, machine, t, path, local);
      OtherClient(t.env);
      var reply := Lifecycle.AddFinalizers(logging, clock, local, t.outcome);
      Answer(reply);
      ok, updated := reply.ok, reply.local;
      Advance(machine);
      turns := turns + 1;
    }

    /** `ProcessingCustom` */
    method StatusProcessing(kind: OperationType, local: Logging, ghost path: Path) returns (ok: bool, updated: Logging)
      requires Valid() && machine.phase == Announcing(path, local) && kind == RecordedType(path)
      modifies this
      ensures Valid() && turns == old(turns) + 1 && RunsGrow(old(machine), machine, ok)
      ensures machine.phase == if ok then Acting(path, updated) else Idle
    {
      hide NextAll, Next, Interfere;
      var t := oracle(turns);
      NextAnnounce(GARDENER_RULES, machine, t, path, local);
      OtherClient(t.env);
      var reply := PatchStatus(logging, clock, local, t.outcome, LastOperation(kind, Processing));
      Answer(reply);
      ok, updated := reply.ok, reply.local;
      Advance(machine);
      turns := turns + 1;
    }

    /** `SuccessCustom` */
    method StatusSuccess(kind: OperationType, local: Logging, ghost path: Path) returns (ok: bool, updated: Logging)
      requires Valid() && machine.phase == Reporting(path, local, true) && kind == RecordedType(path)
      modifies this
      ensures Valid() && turns == old(turns) + 1 && RunsGrow(old(machine), machine, ok)
      ensures machine.phase == if ok then LaterPhase(path, updated) else Idle
    {
      hide NextAll, Next, Interfere;
      var t := oracle(turns);
      NextReport(GARDENER_RULES, machine, t, path, local, true);
      OtherClient(t.env);
      ReportResult(Interfere(machine, t.env), t, path, local);
      hide Report, LaterPhase, PatchStatus;
      var reply := PatchStatus(logging, clock, local, t.outcome, LastOperation(kind, Succeeded));
      Answer(reply);
      ok, updated := reply.ok, reply.local;
      Advance(machine);
      turns := turns + 1;
    }

    /** `ErrorCustom`, whose own error is ignored. */
    method StatusError(kind: OperationType, local: Logging, ghost path: Path)
      requires Valid() && machine.phase == Reporting(path, local, false) && kind == RecordedOnError(path)
      modifies this
      ensures Valid() && turns == old(turns) + 1 && RunsGrow(old(machine), machine, false)
      ensures machine.phase == Idle
    {
      hide NextAll, Next, Interfere;
      var t := oracle(turns);
      NextReport(GARDENER_RULES, machine, t, path, local, false);
      OtherClient(t.env);
      var reply := PatchStatus(logging, clock, local, t.outcome, LastOperation(kind, Error));
      Answer(reply);
      Advance(machine);
      turns := turns + 1;
    }

    /** The seed's actuator. */
    method SeedAct(ghost path: Path, ghost local: Logging) returns (ok: bool)
      requires Valid() && seed && machine.phase == Acting(path, local)
      modifies this
      ensures Valid() && turns == old(turns) + 1 && RunsGrow(old(machine), machine, ok)
      ensures machine.phase == Reporting(path, local, ok)
    {
      hide NextAll, Next, Interfere;
      var t := oracle(turns);
      NextPerform(GARDENER_RULES, machine, t, path, local);
      OtherClient(t.env);
      ok := t.seedOk;
      Advance(machine);
      turns := turns + 1;
    }

    /** The shoot's actuator: restoring is reconciling, migrating is deleting. */
    method CallShootActuator(path: Path, t: Turn) returns (ok: bool)
      requires !seed && machine.namespace == namespace && machine.seed == seed && machine.objects == objects
      modifies `objects
      ensures (objects, ok) == Lifecycle.Act(machine, path, t)
    {
      var cluster := new Cluster(objects, t.script);
      var actuator := new ShootActuator.ShootActuator(cluster);
      var c := t.config.(namespace := namespace);
      if SetsUp(path) {
        ok := actuator.Reconcile(c);
      } else {
        ok := actuator.Delete(c);
      }
      objects := cluster.objects;
    }

    /** The shoot's actuator is called. */
    method ShootAct(path: Path, ghost local: Logging) returns (ok: bool)
      requires Valid() && !seed && machine.phase == Acting(path, local)
      modifies this
      ensures Valid() && turns == old(turns) + 1 && RunsGrow(old(machine), machine, ok)
      ensures machine.phase == Reporting(path, local, ok)
    {
      hide NextAll, Next, Interfere, Run;
      var t := oracle(turns);
      NextPerform(GARDENER_RULES, machine, t, path, local);
      OtherClient(t.env);
      ok := CallShootActuator(path, t);
      Advance(machine);
      turns := turns + 1;
    }

    method RemoveFinalizers(local: Logging) returns (ok: bool)
      requires Valid() && machine.phase == Releasing(DeletePath, local)
      modifies this
      ensures Valid() && turns == old(turns) + 1 && RunsGrow(old(machine), machine, ok)
      ensures machine.phase == Idle
    {
      hide NextAll, Next, Interfere;
      var t := oracle(turns);
      NextRelease(GARDENER_RULES, machine, t, DeletePath, local);
      OtherClient(t.env);
      var reply := Lifecycle.RemoveFinalizers(logging, clock, local, t.outcome);
      Answer(reply);
      ok := reply.ok;
      Advance(machine);
      turns := turns + 1;
    }

    method RemoveAllFinalizers(local: Logging) returns (ok: bool, updated: Logging)
      requires Valid() && machine.phase == Releasing(MigratePath, local)
      modifies this
      ensures Valid() && turns == old(turns) + 1 && RunsGrow(old(machine), machine, ok)
      ensures machine.phase == if ok then Unannotating(MigratePath, updated) else Idle
    {
      hide NextAll, Next, Interfere;
      var t := oracle(turns);
      NextRelease(GARDENER_RULES, machine, t, MigratePath, local);
      OtherClient(t.env);
      var reply := Lifecycle.RemoveAllFinalizers(logging, clock, local, t.outcome);
      Answer(reply);
      ok, updated := reply.ok, reply.local;
      Advance(machine);
      turns := turns + 1;
    }

    method RemoveAnnotation(ghost path: Path, local: Logging) returns (ok: bool)
      requires Valid() && machine.phase == Unannotating(path, local)
      modifies this
      ensures Valid() && turns == old(turns) + 1 && RunsGrow(old(machine), machine, ok)
      ensures machine.phase == Idle
    {
      hide NextAll, Next, Interfere;
      var t := oracle(turns);
      NextUnannotate(GARDENER_RULES, machine, t, path, local);
      OtherClient(t.env);
      var reply := Lifecycle.RemoveAnnotation(logging, clock, local, t.outcome);
      Answer(reply);
      ok := reply.ok;
      Advance(machine);
      turns := turns + 1;
    }
  }

  /** A run ends, and is recorded with what the reconciler returns, when the machine becomes idle. */
  ghost predicate RunsGrow(before: System, after: System, ok: bool) {
    var ends := after.phase.Idle? && !before.phase.Idle?;
    |after.history| == |before.history| + (if ends then 1 else 0) && (ends ==> after.history[|before.history|].ok == ok)
  }

  lemma DecideResult(s: System, t: Turn, local: Logging)
    requires s.phase == Fetched(local)
    ensures
      var next := Decide(GARDENER_RULES, s, t, local);
      var ok := s.seed || t.outcome.Done?;
      && next.namespace == s.namespace && next.seed == s.seed
      && next.logging == s.logging && next.clock == s.clock && next.objects == s.objects
      && RunsGrow(s, next, ok)
      && next.phase ==
         if !ok || Dispatch(GARDENER_RULES, local).None? then Idle
         else FirstPhase(Dispatch(GARDENER_RULES, local).value, local)
  {
  }

  lemma ReportResult(s: System, t: Turn, path: Path, local: Logging)
    requires s.phase == Reporting(path, local, true)
    ensures
      var next := Report(s, t, path, local, true);
      var reply := PatchStatus(s.logging, s.clock, local, t.outcome, LastOperation(RecordedType(path), Succeeded));
      && next.namespace == s.namespace && next.seed == s.seed
      && next.logging == reply.logging && next.clock == reply.clock && next.objects == s.objects
      && RunsGrow(s, next, reply.ok)
      && next.phase == if reply.ok then LaterPhase(path, reply.local) else Idle
  {
  }

  /** The first `n` turns. */
  ghost function Played(oracle: nat -> Turn, n: nat): seq<Turn> {
    seq(n, i requires 0 <= i < n => oracle(i))
  }

  lemma PlayedMore(rules: Rules, s: System, oracle: nat -> Turn, n: nat)
    ensures NextAll(rules, s, Played(oracle, n + 1)) == Next(rules, NextAll(rules, s, Played(oracle, n)), oracle(n))
  {
    assert Played(oracle, n + 1) == Played(oracle, n) + [oracle(n)];
    NextAllAppend(rules, s, Played(oracle, n), [oracle(n)]);
    assert [oracle(n)][1..] == [];
  }

  /** One worker. Every method starts with the machine at its first call and ends with it idle. */
  class Reconciler {
    const server: ControlPlane

    constructor (server: ControlPlane)
      ensures this.server == server
    {
      this.server := server;
    }

    /** The dispatch. */
    method Reconcile() returns (ok: bool)
      requires server.Valid() && server.machine.phase.Ready?
      modifies server
      ensures server.Valid() && server.machine.phase.Idle? && RunsGrow(old(server.machine), server.machine, ok)
    {
      hide ControlPlane.Valid;
      var found;
      ok, found := server.Get();
      if !ok {
        return;
      }
      if found.None? {
        return;
      }
      var logging := found.value;
      ok := server.GetCluster(logging);
      if !ok {
        return;
      }
      var operationType := ComputeOperationType(logging);
      if ShouldSkipOperation(operationType, logging) {
        return;
      }
      if operationType == Migrate {
        ok := MigrateLogging(logging);
      } else if logging.deleting {
        ok := DeleteLogging(logging);
      } else if operationType == Restore {
        ok := RestoreLogging(logging);
      } else {
        ok := ReconcileLogging(operationType, logging);
      }
    }

    /** The call of the actuator that the object's type asks for, and the report of its error. */
    method Act(path: Path, errorKind: OperationType, local: Logging) returns (ok: bool)
      requires server.Valid() && server.machine.phase == Acting(path, local) && errorKind == RecordedOnError(path)
      modifies server
      ensures server.Valid() && RunsGrow(old(server.machine), server.machine, ok)
      ensures server.machine.phase == if ok then Reporting(path, local, true) else Idle
    {
      if server.seed {
        ok := server.SeedAct(path, local);
      } else {
        ok := server.ShootAct(path, local);
      }
      if !ok {
        server.StatusError(errorKind, local, path);
      }
    }

    /** `reconcile` */
    method ReconcileLogging(operationType: OperationType, copy: Logging) returns (ok: bool)
      requires server.Valid()
      requires server.machine.phase == FirstPhase(ReconcilePath(operationType), copy)
      modifies server
      ensures server.Valid() && server.machine.phase.Idle? && RunsGrow(old(server.machine), server.machine, ok)
    {
      hide ControlPlane.Valid;
      ghost var path := ReconcilePath(operationType);
      var logging := copy;
      if FINALIZER !in logging.finalizers {
        ok, logging := server.AddFinalizers(path, logging);
        if !ok {
          return;
        }
      }
      ok, logging := server.StatusProcessing(operationType, logging, path);
      if !ok {
        return;
      }
      ok := Act(ReconcilePath(operationType), operationType, logging);
      if !ok {
        return;
      }
      ok, logging := server.StatusSuccess(operationType, logging, path);
    }

    /** `delete` */
    method DeleteLogging(copy: Logging) returns (ok: bool)
      requires server.Valid()
      requires server.machine.phase == FirstPhase(DeletePath, copy)
      modifies server
      ensures FINALIZER !in copy.finalizers ==> ok && server.machine == old(server.machine)
      ensures server.Valid() && server.machine.phase.Idle? && RunsGrow(old(server.machine), server.machine, ok)
    {
      hide ControlPlane.Valid;
      if FINALIZER !in copy.finalizers {
        return true;
      }
      var logging;
      ok, logging := server.StatusProcessing(Delete, copy, DeletePath);
      if !ok {
        return;
      }
      ok := Act(DeletePath, Delete, logging);
      if !ok {
        return;
      }
      ok, logging := server.StatusSuccess(Delete, logging, DeletePath);
      if !ok {
        return;
      }
      if FINALIZER in logging.finalizers {
        ok := server.RemoveFinalizers(logging);
      }
    }

    /** `migrate` */
    method MigrateLogging(copy: Logging) returns (ok: bool)
      requires server.Valid() && server.machine.phase == Announcing(MigratePath, copy)
      modifies server
      ensures server.Valid() && server.machine.phase.Idle? && RunsGrow(old(server.machine), server.machine, ok)
    {
      hide ControlPlane.Valid;
      var logging;
      ok, logging := server.StatusProcessing(Migrate, copy, MigratePath);
      if !ok {
        return;
      }
      ok := Act(MigratePath, Migrate, logging);
      if !ok {
        return;
      }
      ok, logging := server.StatusSuccess(Migrate, logging, MigratePath);
      if !ok {
        return;
      }
      ok, logging := server.RemoveAllFinalizers(logging);
      if !ok {
        return;
      }
      ok := server.RemoveAnnotation(MigratePath, logging);
    }

    /** `restore`: an error of the actuator is recorded as one of a deletion. */
    method RestoreLogging(copy: Logging) returns (ok: bool)
      requires server.Valid()
      requires server.machine.phase == FirstPhase(RestorePath, copy)
      modifies server
      ensures server.Valid() && server.machine.phase.Idle? && RunsGrow(old(server.machine), server.machine, ok)
    {
      hide ControlPlane.Valid;
      var logging := copy;
      if FINALIZER !in logging.finalizers {
        ok, logging := server.AddFinalizers(RestorePath, logging);
        if !ok {
          return;
        }
      }
      ok, logging := server.StatusProcessing(Restore, logging, RestorePath);
      if !ok {
        return;
      }
      ok := Act(RestorePath, Delete, logging);
      if !ok {
        return;
      }
      ok, logging := server.StatusSuccess(Restore, logging, RestorePath);
      if !ok {
        return;
      }
      ok := server.RemoveAnnotation(RestorePath, logging);
    }
  }

  /** What the controller calls: it heeds the operation annotation, and then calls the reconciler. */
  class OperationAnnotationWrapper {
    const server: ControlPlane
    const reconciler: Reconciler

    constructor (server: ControlPlane)
      ensures this.server == server && reconciler.server == server && fresh(reconciler)
    {
      this.server := server;
      this.reconciler := new Reconciler(server);
    }

    /** One run, from idle to idle. */
    method Reconcile() returns (ok: bool)
      requires reconciler.server == server && server.Valid() && server.machine.phase.Idle?
      modifies server
      ensures server.Valid() && server.machine.phase.Idle?
      ensures |server.machine.history| == |old(server.machine.history)| + 1
      ensures server.machine.history[|old(server.machine.history)|].ok == ok
    {
      var found;
      ok, found := server.Screen();
      if !ok {
        return;
      }
      if found.Some? {
        if found.value.operation == WaitForState {
          return;
        }
        if found.value.operation == ReconcileOperation {
          ok := server.ClearAnnotation(found.value);
          if !ok {
            return;
          }
        }
      }
      ok := reconciler.Reconcile();
    }

    /**
     Any number of requests, one after the other: the finalizer guards the stack throughout, and where the object
     does not carry it, no object of the stack is left in the seed.
     */
    method Work(requests: nat)
      requires reconciler.server == server && server.Valid() && server.machine.phase.Idle?
      modifies server
      ensures server.Valid() && server.machine.phase.Idle?
      ensures |server.machine.history| == |old(server.machine.history)| + requests
      ensures server.machine.dirty ==> HasFinalizer(server.logging)
      ensures !HasFinalizer(server.logging) ==> server.objects.Keys !! ShootActuator.StackKeys(server.namespace)
    {
      var i := 0;
      while i < requests
        invariant 0 <= i <= requests && server.Valid() && server.machine.phase.Idle?
        invariant |server.machine.history| == |old(server.machine.history)| + i
      {
        var _ := Reconcile();
        i := i + 1;
      }
      LifecycleSafety.FinalizerGuardsTheStack(GARDENER_RULES, server.start, Played(server.oracle, server.turns));
    }
  }
}
