/**
 Deletion that only begins. Gardener's resource manager holds a managed resource back with a finalizer, so deleting it
 marks it, and it goes when its controller lets it go. What the other modules call absent is here absent or going:
 this module says what of their results holds for the objects that are there to stay.
 */
module Termination {
  import opened ApiServer
  import opened Components
  import opened ShootActuator
  import opened ShootDecisions

  /** The objects, and which of them are being deleted. */
  datatype Marked = Marked(objects: Objects, going: set<Key>)

  /** Which objects carry a finalizer, and which of those that are going are let go before a call. */
  datatype Pace = Pace(lingers: Key -> bool, gone: nat -> set<Key>)

  /** The objects that are not being deleted. */
  function Living(m: Marked): Objects {
    m.objects - m.going
  }

  function LetGo(m: Marked, gone: set<Key>): Marked {
    Marked(m.objects - m.going * gone, m.going - gone)
  }

  /** Writing an object that is going does not bring it back; deleting one with a finalizer marks it. */
  function Effect(step: Step, m: Marked, lingers: Key -> bool, fate: Fate): Marked {
    match step
    case Put(_) => m.(objects := Applied(step, m.objects, fate))
    case Remove(key) =>
      if key in m.objects && lingers(key) then m.(going := m.going + {key})
      else Marked(m.objects - {key}, m.going - {key})
    case Compute => m
    case Fail => m
    case Foreign(spared) => Marked(Applied(step, m.objects, fate), m.going * spared)
  }

  function SlowStep(step: Step, m: Marked, pace: Pace, fate: Fate, calls: nat): Marked {
    var next := LetGo(m, pace.gone(calls));
    if fate.outcome.Rejected? then next else Effect(step, next, pace.lingers, fate)
  }

  datatype Slow = Slow(state: Marked, calls: nat, ok: bool)

  /** The steps in order, up to the first error. */
  function RunSlow(steps: seq<Step>, m: Marked, pace: Pace, script: nat -> Fate, calls: nat): Slow {
    if steps == [] then Slow(m, calls, true)
    else
      var next := SlowStep(steps[0], m, pace, script(calls), calls);
      if script(calls).outcome.Done? && !steps[0].Fail? then RunSlow(steps[1..], next, pace, script, calls + 1)
      else Slow(next, calls + 1, false)
  }

  lemma {:induction false} RunSlowAppend(a: seq<Step>, b: seq<Step>,
                                         m: Marked, pace: Pace, script: nat -> Fate, calls: nat)
    ensures
      var r := RunSlow(a, m, pace, script, calls);
      RunSlow(a + b, m, pace, script, calls) == if r.ok then RunSlow(b, r.state, pace, script, r.calls) else r
  {
    if a == [] {
      assert a + b == b;
    } else {
      var next := SlowStep(a[0], m, pace, script(calls), calls);
      if script(calls).outcome.Done? && !a[0].Fail? {
        RunSlowAppend(a[1..], b, next, pace, script, calls + 1);
      }
      assert (a + b)[0] == a[0] && (a + b)[1..] == a[1..] + b;
    }
  }

  /** Without finalizers, and with nothing going, this is the immediate deletion of `ApiServer`. */
  lemma {:induction false} ImmediateIsRun(steps: seq<Step>, objects: Objects,
                                          pace: Pace, script: nat -> Fate, calls: nat)
    requires forall key :: !pace.lingers(key)
    ensures
      var r := RunSlow(steps, Marked(objects, {}), pace, script, calls);
      r.state.going == {} && Result(r.state.objects, r.calls, r.ok) == Run(steps, objects, script, calls)
  {
    if steps != [] {
      var next := SlowStep(steps[0], Marked(objects, {}), pace, script(calls), calls);
      assert next == Marked(RunStep(steps[0], objects, script(calls)).0, {});
      if script(calls).outcome.Done? && !steps[0].Fail? {
        ImmediateIsRun(steps[1..], next.objects, pace, script, calls + 1);
      }
    }
  }

  // What does not depend on the pace

  ghost predicate PutsNothing(steps: seq<Step>) {
    forall step :: step in steps ==> !step.Put?
  }

  lemma StepLiving(step: Step, m: Marked, pace: Pace, fate: Fate, calls: nat)
    requires !step.Put?
    ensures Living(SlowStep(step, m, pace, fate, calls)) == RunStep(step, Living(m), fate).0
  {
    assert Living(LetGo(m, pace.gone(calls))) == Living(m);
  }

  /** Without writes, what lives is what the immediate deletion would leave. */
  lemma {:induction false} PutsNothingSimulates(steps: seq<Step>,
                                                m: Marked, pace: Pace, script: nat -> Fate, calls: nat)
    requires PutsNothing(steps)
    ensures
      var r := RunSlow(steps, m, pace, script, calls);
      Result(Living(r.state), r.calls, r.ok) == Run(steps, Living(m), script, calls)
  {
    if steps != [] {
      assert steps[0] in steps;
      StepLiving(steps[0], m, pace, script(calls), calls);
      if script(calls).outcome.Done? && !steps[0].Fail? {
        PutsNothingSimulates(steps[1..], SlowStep(steps[0], m, pace, script(calls), calls), pace, script, calls + 1);
      }
    }
  }

  /** The key was let go before one of the calls. */
  ghost predicate WasLetGo(pace: Pace, key: Key, from: nat, to: nat) {
    exists n: nat :: from <= n < to && key in pace.gone(n)
  }

  lemma FirstCall(pace: Pace, key: Key, from: nat, to: nat)
    requires from < to
    ensures WasLetGo(pace, key, from, to) <==> key in pace.gone(from) || WasLetGo(pace, key, from + 1, to)
  {
  }

  lemma LastCall(pace: Pace, key: Key, from: nat, to: nat)
    requires from <= to
    ensures WasLetGo(pace, key, from, to + 1) <==> WasLetGo(pace, key, from, to) || key in pace.gone(to)
  {
  }

  lemma SpareStep(step: Step, m: Marked, pace: Pace, fate: Fate, calls: nat, key: Key)
    requires Spares(step, key)
    ensures
      var next := SlowStep(step, m, pace, fate, calls);
      SameAt(Living(next), Living(m), key) && (key in next.going <==> key in m.going && key !in pace.gone(calls))
  {
  }

  /** A key that every step spares lives as before, and is going as before unless it was let go. */
  lemma {:induction false} SlowSpares(steps: seq<Step>,
                                      m: Marked, pace: Pace, script: nat -> Fate, calls: nat, key: Key)
    requires forall step :: step in steps ==> Spares(step, key)
    ensures
      var r := RunSlow(steps, m, pace, script, calls);
      && SameAt(Living(r.state), Living(m), key)
      && calls <= r.calls && (r.ok ==> r.calls == calls + |steps|)
      && (key in r.state.going <==> key in m.going && !WasLetGo(pace, key, calls, r.calls))
  {
    if steps != [] {
      assert steps[0] in steps;
      var next := SlowStep(steps[0], m, pace, script(calls), calls);
      SpareStep(steps[0], m, pace, script(calls), calls, key);
      if script(calls).outcome.Done? && !steps[0].Fail? {
        SlowSpares(steps[1..], next, pace, script, calls + 1, key);
      }
      FirstCall(pace, key, calls, RunSlow(steps, m, pace, script, calls).calls);
    }
  }

  /**
   A destroy that succeeds undoes a deploy that an error stopped anywhere, at any pace: of the destroyed keys none
   lives, and every other object lives as it did before the deploy.
   */
  lemma DestroyUndoesSlowly(deploy: seq<Step>, destroy: seq<Step>,
                            m: Marked, pace: Pace, script: nat -> Fate, calls: nat)
    requires OnlyPuts(deploy) && OnlyRemoves(destroy) && PutKeys(deploy) <= RemoveKeys(destroy)
    ensures
      var deployed := RunSlow(deploy, m, pace, script, calls);
      var destroyed := RunSlow(destroy, deployed.state, pace, script, deployed.calls);
      destroyed.ok ==> Living(destroyed.state) == Living(m) - RemoveKeys(destroy)
  {
    var deployed := RunSlow(deploy, m, pace, script, calls);
    forall key | key !in RemoveKeys(destroy) ensures SameAt(Living(deployed.state), Living(m), key) {
      PutsSpare(deploy, {key});
      SlowSpares(deploy, m, pace, script, calls, key);
    }
    PutsNothingSimulates(destroy, deployed.state, pace, script, deployed.calls);
    RemovesEffect(destroy, Living(deployed.state), script, deployed.calls);
  }

  lemma PutsNothingAppend(a: seq<Step>, b: seq<Step>)
    ensures PutsNothing(a + b) <==> PutsNothing(a) && PutsNothing(b)
  {
    assert forall step :: step in a + b <==> step in a || step in b;
  }

  lemma DeleteRestPutsNothing(c: Config)
    ensures PutsNothing(DeleteRest(c))
  {
    ManagedResourceRemoves(c.namespace, CONTROL_PLANE_RESOURCE);
    var foreign := Foreign(StackKeys(c.namespace));
    assert PutsNothing([foreign, foreign, foreign]) && PutsNothing([Compute]);
    PutsNothingAppend(DeleteManagedResource(c.namespace, CONTROL_PLANE_RESOURCE), [Compute]);
    PutsNothingAppend([foreign, foreign, foreign],
                      DeleteManagedResource(c.namespace, CONTROL_PLANE_RESOURCE) + [Compute]);
    hide StackKeys, DeleteManagedResource;
  }

  lemma DeletePartsPutNothing(c: Config)
    ensures PutsNothing(EventLoggerDestroy(c.namespace)) && PutsNothing(ProxyDestroy(c.namespace))
    ensures PutsNothing(DeleteRest(c)) && PutsNothing([Compute]) && PutsNothing([Compute] + [Fail])
  {
    EventLoggerRemoves(c.namespace);
    ProxyRemoves(c.namespace);
    DeleteRestPutsNothing(c);
    hide EventLoggerDestroy, ProxyDestroy, DeleteRest;
  }

  lemma DeletePutsNothing(c: Config)
    ensures PutsNothing(DeleteSteps(c))
  {
    DeletePartsPutNothing(c);
    PutsNothingAppend(ProxyDestroy(c.namespace), DeleteRest(c));
    PutsNothingAppend(EventLoggerDestroy(c.namespace), ProxyDestroy(c.namespace) + DeleteRest(c));
    PutsNothingAppend([Compute], EventLoggerDestroy(c.namespace) + (ProxyDestroy(c.namespace) + DeleteRest(c)));
    hide EventLoggerDestroy, ProxyDestroy, DeleteRest, PutsNothing;
  }

  /** After a deletion of the shoot's stack that succeeds, at any pace, no object of it lives. */
  lemma DeleteDecidesSlowly(c: Config, m: Marked, pace: Pace, script: nat -> Fate, calls: nat)
    requires RunSlow(DeleteSteps(c), m, pace, script, calls).ok
    ensures Living(RunSlow(DeleteSteps(c), m, pace, script, calls).state).Keys !! StackKeys(c.namespace)
  {
    DeletePutsNothing(c);
    PutsNothingSimulates(DeleteSteps(c), m, pace, script, calls);
    DeleteDecides(c, Living(m), script, calls);
  }

  // What does

  /** Step `n` is the only one that writes or deletes the key. */
  ghost predicate OnlyAt(steps: seq<Step>, n: nat, key: Key) {
    n < |steps| && forall i :: 0 <= i < |steps| && i != n ==> Spares(steps[i], key)
  }

  lemma OnlyAtSplit(steps: seq<Step>, n: nat, key: Key)
    requires OnlyAt(steps, n, key)
    ensures steps == steps[..n] + ([steps[n]] + steps[n + 1..])
    ensures forall step :: step in steps[..n] || step in steps[n + 1..] ==> Spares(step, key)
  {
  }

  /**
   When a list of steps succeeds, a key that it writes once lives exactly when it was not being deleted at the start,
   or was let go before the call that writes it.
   */
  lemma LivesIff(steps: seq<Step>, n: nat, key: Key, m: Marked, pace: Pace, script: nat -> Fate, calls: nat)
    requires OnlyAt(steps, n, key) && steps[n] == Put(key) && RunSlow(steps, m, pace, script, calls).ok
    ensures key in Living(RunSlow(steps, m, pace, script, calls).state) <==>
      key !in m.going || WasLetGo(pace, key, calls, calls + n + 1)
  {
    OnlyAtSplit(steps, n, key);
    var before, after := steps[..n], steps[n + 1..];
    RunSlowAppend(before, [steps[n]] + after, m, pace, script, calls);
    var r := RunSlow(before, m, pace, script, calls);
    RunSlowAppend([steps[n]], after, r.state, pace, script, r.calls);
    var w := RunSlow([steps[n]], r.state, pace, script, r.calls);
    assert [steps[n]][1..] == [];
    SlowSpares(before, m, pace, script, calls, key);
    SlowSpares(after, w.state, pace, script, w.calls, key);
    LastCall(pace, key, calls, calls + n);
  }

  lemma OnlyAtWithin(a: seq<Step>, b: seq<Step>, c: seq<Step>, n: nat, key: Key)
    requires OnlyAt(b, n, key) && SparesAll(a, {key}) && SparesAll(c, {key})
    ensures OnlyAt(a + (b + c), |a| + n, key) && (a + (b + c))[|a| + n] == b[n]
  {
    var all := a + (b + c);
    forall i | 0 <= i < |all| && i != |a| + n ensures Spares(all[i], key) {
      assert all[i] == if i < |a| then a[i] else if i < |a| + |b| then b[i - |a|] else c[i - |a| - |b|];
    }
  }

  /** No key is written or deleted twice. */
  ghost predicate NoRepeat(part: seq<Step>) {
    forall i, j :: 0 <= i < |part| && 0 <= j < |part| && i != j && (part[i].Put? || part[i].Remove?) ==>
      Spares(part[j], part[i].key)
  }

  lemma EventLoggerRepeatsNothing(ns: string)
    ensures NoRepeat(EventLoggerDeploy(ns))
  {
    AccessSecretName(EVENT_LOGGER, ns);
    assert forall t :: ("shoot-access-" + t)[0] == 's';
    assert forall t :: ("managedresource-" + t)[0] == 'm';
  }

  lemma ProxyRepeatsNothing(ns: string)
    ensures NoRepeat(ProxyDeploy(ns))
  {
    AccessSecretName(PROXY, ns);
    AccessSecretName(PROMTAIL, ns);
    assert PROXY[0] != PROMTAIL[0];
    AppendDiffers("shoot-access-", PROXY, PROMTAIL);
    assert forall t :: ("shoot-access-" + t)[0] == 's';
    assert forall t :: ("managedresource-" + t)[0] == 'm';
  }

  lemma PutOnlyAt(part: seq<Step>, key: Key) returns (n: nat)
    requires NoRepeat(part) && key in PutKeys(part)
    ensures OnlyAt(part, n, key) && part[n] == Put(key)
  {
    n :| 0 <= n < |part| && part[n] == Put(key);
  }

  /** The key is written once between steps that spare it. */
  lemma PutDecidesSlowly(before: seq<Step>, part: seq<Step>, after: seq<Step>, key: Key,
                         m: Marked, pace: Pace, script: nat -> Fate, calls: nat) returns (n: nat)
    requires NoRepeat(part) && key in PutKeys(part) && SparesAll(before, {key}) && SparesAll(after, {key})
    requires RunSlow(before + (part + after), m, pace, script, calls).ok
    ensures n < |before + (part + after)| && (before + (part + after))[n] == Put(key)
    ensures key in Living(RunSlow(before + (part + after), m, pace, script, calls).state) <==>
      key !in m.going || WasLetGo(pace, key, calls, calls + n + 1)
  {
    var k := PutOnlyAt(part, key);
    OnlyAtWithin(before, part, after, k, key);
    n := |before| + k;
    LivesIff(before + (part + after), n, key, m, pace, script, calls);
  }

  /** The key is deleted, and spared afterwards. */
  lemma RemoveDecidesSlowly(before: seq<Step>, part: seq<Step>, after: seq<Step>, key: Key,
                            m: Marked, pace: Pace, script: nat -> Fate, calls: nat)
    requires OnlyRemoves(part) && key in RemoveKeys(part) && SparesAll(after, {key})
    requires RunSlow(before + (part + after), m, pace, script, calls).ok
    ensures key !in Living(RunSlow(before + (part + after), m, pace, script, calls).state)
  {
    RunSlowAppend(before, part + after, m, pace, script, calls);
    var r := RunSlow(before, m, pace, script, calls);
    RunSlowAppend(part, after, r.state, pace, script, r.calls);
    PutsNothingSimulates(part, r.state, pace, script, r.calls);
    RemovesEffect(part, Living(r.state), script, r.calls);
    var s := RunSlow(part, r.state, pace, script, r.calls);
    SlowSpares(after, s.state, pace, script, s.calls, key);
  }

  lemma UnusableFailsSlowly(m: Marked, pace: Pace, script: nat -> Fate, calls: nat)
    ensures !RunSlow([Compute] + [Fail], m, pace, script, calls).ok
  {
    RunSlowAppend([Compute], [Fail], m, pace, script, calls);
  }

  /** Where a key of a component is decided: the steps before and after do not touch it. */
  lemma ComponentStep(c: Config, key: Key) returns (before: seq<Step>, part: seq<Step>, after: seq<Step>)
    requires Usable(c) && key in ComponentKeys(c.namespace)
    ensures ReconcileSteps(c) == before + (part + after) && SparesAll(before, {key}) && SparesAll(after, {key})
    ensures key in Expected(c) ==> NoRepeat(part) && key in PutKeys(part)
    ensures key !in Expected(c) ==> OnlyRemoves(part) && key in RemoveKeys(part)
  {
    StepsDecide(c);
    RestSpares(c);
    EventLoggerRepeatsNothing(c.namespace);
    ProxyRepeatsNothing(c.namespace);
    ComponentsAreDisjoint(c.namespace);
    EventLoggerSparesProxy(c);
    var (e, p, rest) := (EventLoggerStep(c), ProxyStep(c), RestSteps(c));
    hide EventLoggerDeploy, EventLoggerDestroy, ProxyDeploy, ProxyDestroy, RestSteps, EventLoggerKeys, ProxyKeys;
    if key in EventLoggerKeys(c.namespace) {
      before, part, after := [Compute], e, p + rest;
      SparesAppend(p, rest, {key});
    } else {
      before, part, after := [Compute] + e, p, rest;
      SparesAppend([Compute], e, {key});
      assert [Compute] + (e + (p + rest)) == [Compute] + e + (p + rest);
    }
  }

  lemma EventLoggerSparesProxy(c: Config)
    ensures SparesAll(EventLoggerStep(c), ProxyKeys(c.namespace))
  {
    StepsDecide(c);
    ComponentsAreDisjoint(c.namespace);
    if EventLoggingEnabled(c) {
      PutsSpare(EventLoggerStep(c), ProxyKeys(c.namespace));
    } else {
      RemovesSpare(EventLoggerStep(c), ProxyKeys(c.namespace));
    }
  }

  /**
   After a reconciliation that succeeds, at any pace, an object of a component lives exactly when its gate is on, and
   it was not still being deleted when it was written.
   */
  lemma ReconcileDecidesSlowly(c: Config, key: Key, m: Marked, pace: Pace, script: nat -> Fate, calls: nat)
    returns (n: nat)
    requires key in ComponentKeys(c.namespace) && RunSlow(ReconcileSteps(c), m, pace, script, calls).ok
    ensures key in Expected(c) ==> n < |ReconcileSteps(c)| && ReconcileSteps(c)[n] == Put(key)
    ensures key in Living(RunSlow(ReconcileSteps(c), m, pace, script, calls).state) <==>
      key in Expected(c) && (key !in m.going || WasLetGo(pace, key, calls, calls + n + 1))
  {
    UnusableFailsSlowly(m, pace, script, calls);
    var before, part, after := ComponentStep(c, key);
    hide Expected, ReconcileSteps, ComponentKeys, RunSlow;
    if key in Expected(c) {
      n := PutDecidesSlowly(before, part, after, key, m, pace, script, calls);
    } else {
      n := 0;
      RemoveDecidesSlowly(before, part, after, key, m, pace, script, calls);
    }
  }
}
