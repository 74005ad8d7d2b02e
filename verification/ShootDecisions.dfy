/** What remains in the seed after calls of the shoot actuator, whatever they were and however they ended. */
module ShootDecisions {
  import opened ApiServer
  import opened Components
  import opened ShootActuator

  // What a run decides

  ghost predicate SparesAll(steps: seq<Step>, keys: set<Key>) {
    forall step, key :: step in steps && key in keys ==> Spares(step, key)
  }

  lemma SparesAppend(a: seq<Step>, b: seq<Step>, keys: set<Key>)
    ensures SparesAll(a + b, keys) <==> SparesAll(a, keys) && SparesAll(b, keys)
  {
    assert forall step :: step in a + b <==> step in a || step in b;
  }

  /** All of the keys are there, or none of them. */
  ghost predicate AllOrNone(objects: Objects, keys: set<Key>, all: bool) {
    if all then keys <= objects.Keys else keys !! objects.Keys
  }

  /** Deploying a component puts all of its keys, destroying it removes all of them; `deploy` says which. */
  ghost predicate Decides(part: seq<Step>, keys: set<Key>, deploy: bool) {
    if deploy then OnlyPuts(part) && PutKeys(part) == keys else OnlyRemoves(part) && RemoveKeys(part) == keys
  }

  /** A part that decides about the keys, followed by steps that spare them. */
  lemma PartDecides(before: seq<Step>, part: seq<Step>, after: seq<Step>, keys: set<Key>, deploy: bool,
                    objects: Objects, script: nat -> Fate, calls: nat)
    requires Decides(part, keys, deploy) && SparesAll(after, keys)
    requires Run(before + (part + after), objects, script, calls).ok
    ensures AllOrNone(Run(before + (part + after), objects, script, calls).objects, keys, deploy)
  {
    RunAppend(before, part + after, objects, script, calls);
    var r := Run(before, objects, script, calls);
    RunAppend(part, after, r.objects, script, r.calls);
    var s := Run(part, r.objects, script, r.calls);
    if deploy {
      PutsEffect(part, r.objects, script, r.calls);
    } else {
      RemovesEffect(part, r.objects, script, r.calls);
    }
    forall key | key in keys ensures SameAt(Run(after, s.objects, script, s.calls).objects, s.objects, key) {
      RunSpares(after, s.objects, script, s.calls, key);
    }
  }

  lemma PutsSpare(steps: seq<Step>, keys: set<Key>)
    requires OnlyPuts(steps) && PutKeys(steps) !! keys
    ensures SparesAll(steps, keys)
  {
    forall step, key | step in steps && key in keys ensures Spares(step, key) {
      assert step.Put? ==> step.key in PutKeys(steps);
    }
  }

  lemma RemovesSpare(steps: seq<Step>, keys: set<Key>)
    requires OnlyRemoves(steps) && RemoveKeys(steps) !! keys
    ensures SparesAll(steps, keys)
  {
    forall step, key | step in steps && key in keys ensures Spares(step, key) {
      assert step.key in RemoveKeys(steps);
    }
  }

  lemma ControlPlaneIsForeign(ns: string)
    ensures ControlPlaneKeys(ns) !! ComponentKeys(ns)
  {
    AccessSecretName(EVENT_LOGGER, ns);
    AccessSecretName(PROXY, ns);
    AccessSecretName(PROMTAIL, ns);
    assert CONTROL_PLANE_RESOURCE[0] != EVENT_LOGGER_RESOURCE[0] && CONTROL_PLANE_RESOURCE[0] != PROXY_RESOURCE[0];
    AppendDiffers("managedresource-", CONTROL_PLANE_RESOURCE, EVENT_LOGGER_RESOURCE);
    AppendDiffers("managedresource-", CONTROL_PLANE_RESOURCE, PROXY_RESOURCE);
    assert forall s :: ("shoot-access-" + s)[0] == 's';
    assert forall s :: ("managedresource-" + s)[0] == 'm';
  }

  lemma ControlPlaneSpares(c: Config)
    ensures SparesAll(CreateManagedResource(c.namespace, CONTROL_PLANE_RESOURCE) + AfterResources(c),
                      ComponentKeys(c.namespace))
  {
    var resource := CreateManagedResource(c.namespace, CONTROL_PLANE_RESOURCE);
    ControlPlaneIsForeign(c.namespace);
    forall step, key | step in resource && key in ComponentKeys(c.namespace) ensures Spares(step, key) {
      assert step.key in ControlPlaneKeys(c.namespace);
    }
    SparesAppend(resource, AfterResources(c), ComponentKeys(c.namespace));
  }

  predicate ComponentKind(kind: Kind) {
    && !kind.IngressV1beta1? && !kind.Ingress? && !kind.NetworkPolicy?
    && !kind.ConfigMap? && !kind.MutatingWebhookConfiguration?
  }

  lemma ComponentKinds(ns: string)
    ensures forall key :: key in StackKeys(ns) ==> ComponentKind(key.kind)
  {
  }

  lemma LeftOverKinds(ns: string)
    ensures forall step :: step in Removes(LeftOverKeys(ns)) ==> step.Remove? && !ComponentKind(step.key.kind)
  {
    RemovesKeys(LeftOverKeys(ns));
    assert forall key :: key in LeftOverKeys(ns) ==> !ComponentKind(key.kind);
  }

  lemma LeftOversSpare(c: Config)
    ensures SparesAll([Remove(WEBHOOK)] + Removes(LeftOverKeys(c.namespace)), StackKeys(c.namespace))
  {
    ComponentKinds(c.namespace);
    LeftOverKinds(c.namespace);
    var (removes, keys) := (Removes(LeftOverKeys(c.namespace)), StackKeys(c.namespace));
    forall step, key | step in removes && key in keys ensures Spares(step, key) {
      assert !ComponentKind(step.key.kind) && ComponentKind(key.kind);
    }
    SparesAppend([Remove(WEBHOOK)], removes, keys);
  }

  /** Nothing that follows the two components touches their objects. */
  lemma RestSpares(c: Config)
    ensures SparesAll(RestSteps(c), ComponentKeys(c.namespace))
  {
    if NodeLoggingEnabled(c) {
      ControlPlaneSpares(c);
      assert SparesAll(PrepareChart(c), ComponentKeys(c.namespace));
      SparesAppend(PrepareChart(c), CreateManagedResource(c.namespace, CONTROL_PLANE_RESOURCE) + AfterResources(c),
                   ComponentKeys(c.namespace));
    } else {
      LeftOversSpare(c);
    }
  }

  lemma DeleteRestSpares(c: Config)
    ensures SparesAll(DeleteRest(c), ComponentKeys(c.namespace))
  {
    var keys, foreign := ComponentKeys(c.namespace), Foreign(StackKeys(c.namespace));
    var resource := DeleteManagedResource(c.namespace, CONTROL_PLANE_RESOURCE);
    ManagedResourceRemoves(c.namespace, CONTROL_PLANE_RESOURCE);
    ControlPlaneIsForeign(c.namespace);
    RemovesSpare(resource, keys);
    SparesAppend(resource, [Compute], keys);
    SparesAppend([foreign, foreign, foreign], resource + [Compute], keys);
  }

  lemma StepsDecide(c: Config)
    ensures Decides(EventLoggerStep(c), EventLoggerKeys(c.namespace), EventLoggingEnabled(c))
    ensures Decides(ProxyStep(c), ProxyKeys(c.namespace), NodeLoggingEnabled(c))
    ensures SparesAll(ProxyStep(c), EventLoggerKeys(c.namespace))
    ensures SparesAll(ProxyDestroy(c.namespace), EventLoggerKeys(c.namespace))
  {
    EventLoggerPuts(c.namespace);
    EventLoggerRemoves(c.namespace);
    ProxyPuts(c.namespace);
    ProxyRemoves(c.namespace);
    ComponentsAreDisjoint(c.namespace);
    RemovesSpare(ProxyDestroy(c.namespace), EventLoggerKeys(c.namespace));
    if NodeLoggingEnabled(c) {
      PutsSpare(ProxyDeploy(c.namespace), EventLoggerKeys(c.namespace));
    }
  }

  /** Two parts that decide about disjoint keys, with steps around them that spare what was decided. */
  lemma TwoPartsDecide(first: seq<Step>, second: seq<Step>, rest: seq<Step>, keys1: set<Key>, keys2: set<Key>,
                       deploy1: bool, deploy2: bool, objects: Objects, script: nat -> Fate, calls: nat)
    requires Decides(first, keys1, deploy1) && Decides(second, keys2, deploy2)
    requires SparesAll(second, keys1) && SparesAll(rest, keys1 + keys2)
    requires Run([Compute] + (first + (second + rest)), objects, script, calls).ok
    ensures
      var r := Run([Compute] + (first + (second + rest)), objects, script, calls).objects;
      AllOrNone(r, keys1, deploy1) && AllOrNone(r, keys2, deploy2)
  {
    assert SparesAll(rest, keys1) && SparesAll(rest, keys2);
    SparesAppend(second, rest, keys1);
    PartDecides([Compute], first, second + rest, keys1, deploy1, objects, script, calls);
    assert [Compute] + (first + (second + rest)) == [Compute] + first + (second + rest);
    PartDecides([Compute] + first, second, rest, keys2, deploy2, objects, script, calls);
  }

  /** A run fails on a configuration that no component can be created for. */
  lemma UnusableFails(objects: Objects, script: nat -> Fate, calls: nat)
    ensures !Run([Compute] + [Fail], objects, script, calls).ok
  {
    RunAppend([Compute], [Fail], objects, script, calls);
    var r := Run([Compute], objects, script, calls);
    assert !RunStep(Fail, r.objects, script(r.calls)).1;
  }

  /**
   After a reconciliation that succeeds, from whatever state and whatever happened before, each component's objects
   are all there or none is, as its gate says.
   */
  lemma ReconcileDecides(c: Config, objects: Objects, script: nat -> Fate, calls: nat)
    requires Run(ReconcileSteps(c), objects, script, calls).ok
    ensures
      var r := Run(ReconcileSteps(c), objects, script, calls).objects;
      && AllOrNone(r, EventLoggerKeys(c.namespace), EventLoggingEnabled(c))
      && AllOrNone(r, ProxyKeys(c.namespace), NodeLoggingEnabled(c))
  {
    UnusableFails(objects, script, calls);
    StepsDecide(c);
    RestSpares(c);
    TwoPartsDecide(EventLoggerStep(c), ProxyStep(c), RestSteps(c), EventLoggerKeys(c.namespace), ProxyKeys(c.namespace),
                   EventLoggingEnabled(c), NodeLoggingEnabled(c), objects, script, calls);
  }

  /** After a deletion that succeeds, no object of either component is left. */
  lemma ComponentsDeleted(c: Config, objects: Objects, script: nat -> Fate, calls: nat)
    requires Run(DeleteSteps(c), objects, script, calls).ok
    ensures Run(DeleteSteps(c), objects, script, calls).objects.Keys !! ComponentKeys(c.namespace)
  {
    UnusableFails(objects, script, calls);
    StepsDecide(c);
    DeleteRestSpares(c);
    EventLoggerRemoves(c.namespace);
    ProxyRemoves(c.namespace);
    TwoPartsDecide(EventLoggerDestroy(c.namespace), ProxyDestroy(c.namespace), DeleteRest(c),
                   EventLoggerKeys(c.namespace), ProxyKeys(c.namespace), false, false, objects, script, calls);
  }

  // The third managed resource

  /** The two steps in front neither write nor delete the objects that carry promtail's units and files. */
  lemma ComponentStepsSpareControlPlane(c: Config)
    ensures SparesAll(EventLoggerStep(c), ControlPlaneKeys(c.namespace))
    ensures SparesAll(ProxyStep(c), ControlPlaneKeys(c.namespace))
  {
    var keys := ControlPlaneKeys(c.namespace);
    ControlPlaneIsForeign(c.namespace);
    StepsDecide(c);
    if EventLoggingEnabled(c) {
      PutsSpare(EventLoggerStep(c), keys);
    } else {
      RemovesSpare(EventLoggerStep(c), keys);
    }
    if NodeLoggingEnabled(c) {
      PutsSpare(ProxyStep(c), keys);
    } else {
      RemovesSpare(ProxyStep(c), keys);
    }
  }

  /**
   With node logging off, a reconciliation leaves what carries promtail's units and files as it was, whether or not
   it succeeds: the disabled mode is never rendered.
   */
  lemma NodeLoggingOffKeepsPromtail(c: Config, objects: Objects, script: nat -> Fate, calls: nat, key: Key)
    requires !NodeLoggingEnabled(c) && key in ControlPlaneKeys(c.namespace)
    ensures SameAt(Run(ReconcileSteps(c), objects, script, calls).objects, objects, key)
  {
    var keys := ControlPlaneKeys(c.namespace);
    ComponentStepsSpareControlPlane(c);
    LeftOversSpare(c);
    assert SparesAll(RestSteps(c), keys);
    SparesAppend(ProxyStep(c), RestSteps(c), keys);
    SparesAppend(EventLoggerStep(c), ProxyStep(c) + RestSteps(c), keys);
    SparesAppend([Compute], EventLoggerStep(c) + (ProxyStep(c) + RestSteps(c)), keys);
    assert SparesAll([Compute] + [Fail], keys);
    RunSpares(ReconcileSteps(c), objects, script, calls, key);
  }

  /** The objects that carry promtail, spelled out. */
  lemma ControlPlaneObjects(ns: string)
    ensures ControlPlaneKeys(ns) ==
      { Key(ManagedResource, ns, "extension-logging-controlplane"),
        Key(Secret, ns, "managedresource-" + "extension-logging-controlplane") }
  {
  }

  lemma ControlPlanePuts(ns: string)
    ensures Decides(CreateManagedResource(ns, CONTROL_PLANE_RESOURCE), ControlPlaneKeys(ns), true)
  {
    var resource := CreateManagedResource(ns, CONTROL_PLANE_RESOURCE);
    assert resource[0] in resource && resource[1] in resource;
  }

  lemma ControlPlaneRemoves(ns: string)
    ensures Decides(DeleteManagedResource(ns, CONTROL_PLANE_RESOURCE), ControlPlaneKeys(ns), false)
  {
    ManagedResourceRemoves(ns, CONTROL_PLANE_RESOURCE);
  }

  lemma Regrouped(a: seq<Step>, b: seq<Step>, c: seq<Step>, d: seq<Step>, e: seq<Step>)
    ensures [Compute] + (a + (b + (c + (d + e)))) == [Compute] + a + b + c + (d + e)
  {
  }

  /** With node logging on, a reconciliation that succeeds leaves both objects there. */
  lemma NodeLoggingOnPutsPromtail(c: Config, objects: Objects, script: nat -> Fate, calls: nat)
    requires NodeLoggingEnabled(c) && Run(ReconcileSteps(c), objects, script, calls).ok
    ensures ControlPlaneKeys(c.namespace) <= Run(ReconcileSteps(c), objects, script, calls).objects.Keys
  {
    UnusableFails(objects, script, calls);
    ControlPlanePuts(c.namespace);
    AfterResourcesSpares(c);
    var resource, after := CreateManagedResource(c.namespace, CONTROL_PLANE_RESOURCE), AfterResources(c);
    Regrouped(EventLoggerStep(c), ProxyStep(c), PrepareChart(c), resource, after);
    hide EventLoggerStep, ProxyStep, PrepareChart, CreateManagedResource, AfterResources, ControlPlaneKeys;
    hide SparesAll, Decides, Run, NodeLoggingEnabled;
    PartDecides([Compute] + EventLoggerStep(c) + ProxyStep(c) + PrepareChart(c), resource, after,
                ControlPlaneKeys(c.namespace), true, objects, script, calls);
  }

  lemma AfterResourcesSpares(c: Config)
    ensures SparesAll(AfterResources(c), ControlPlaneKeys(c.namespace))
  {
  }

  /** A deletion that succeeds leaves neither. */
  lemma ControlPlaneDeleted(c: Config, objects: Objects, script: nat -> Fate, calls: nat)
    requires Run(DeleteSteps(c), objects, script, calls).ok
    ensures Run(DeleteSteps(c), objects, script, calls).objects.Keys !! ControlPlaneKeys(c.namespace)
  {
    UnusableFails(objects, script, calls);
    var ns, foreign := c.namespace, Foreign(StackKeys(c.namespace));
    ControlPlaneRemoves(ns);
    var resource := DeleteManagedResource(ns, CONTROL_PLANE_RESOURCE);
    assert SparesAll([Compute], ControlPlaneKeys(ns));
    Regrouped(EventLoggerDestroy(ns), ProxyDestroy(ns), [foreign, foreign, foreign], resource, [Compute]);
    hide EventLoggerDestroy, ProxyDestroy, DeleteManagedResource, ControlPlaneKeys, StackKeys, SparesAll, Run;
    PartDecides([Compute] + EventLoggerDestroy(ns) + ProxyDestroy(ns) + [foreign, foreign, foreign],
                resource, [Compute], ControlPlaneKeys(ns), false, objects, script, calls);
  }

  // Deletions

  /** After a deletion that succeeds, no object of the stack is left: neither component's, nor what carries promtail. */
  lemma DeleteDecides(c: Config, objects: Objects, script: nat -> Fate, calls: nat)
    requires Run(DeleteSteps(c), objects, script, calls).ok
    ensures Run(DeleteSteps(c), objects, script, calls).objects.Keys !! StackKeys(c.namespace)
  {
    ComponentsDeleted(c, objects, script, calls);
    ControlPlaneDeleted(c, objects, script, calls);
  }

  /** The step creates none of the keys. */
  predicate AddsNone(step: Step, keys: set<Key>) {
    match step
    case Put(key) => key !in keys
    case Remove(_) => true
    case Compute => true
    case Fail => true
    case Foreign(spared) => keys <= spared
  }

  lemma {:induction false} NoneAdded(steps: seq<Step>, keys: set<Key>,
                                     objects: Objects, script: nat -> Fate, calls: nat)
    requires NoneAdds(steps, keys)
    requires objects.Keys !! keys
    ensures Run(steps, objects, script, calls).objects.Keys !! keys
    decreases |steps|
  {
    if steps != [] {
      assert steps[0] in steps && NoneAdds(steps[1..], keys);
      var (next, ok) := RunStep(steps[0], objects, script(calls));
      assert next.Keys !! keys;
      if ok {
        NoneAdded(steps[1..], keys, next, script, calls + 1);
      }
    }
  }

  ghost predicate NoneAdds(steps: seq<Step>, keys: set<Key>) {
    forall step :: step in steps ==> AddsNone(step, keys)
  }

  lemma NoneAddsAppend(a: seq<Step>, b: seq<Step>, keys: set<Key>)
    ensures NoneAdds(a + b, keys) <==> NoneAdds(a, keys) && NoneAdds(b, keys)
  {
    assert forall step :: step in a + b <==> step in a || step in b;
  }

  lemma RemovesAddNone(steps: seq<Step>, keys: set<Key>)
    requires OnlyRemoves(steps)
    ensures NoneAdds(steps, keys)
  {
  }

  lemma DeleteRestAddsNone(c: Config)
    ensures NoneAdds(DeleteRest(c), StackKeys(c.namespace))
  {
    ManagedResourceRemoves(c.namespace, CONTROL_PLANE_RESOURCE);
  }

  lemma DeleteStepsAddNone(c: Config)
    ensures NoneAdds(DeleteSteps(c), StackKeys(c.namespace))
  {
    var (ns, keys) := (c.namespace, StackKeys(c.namespace));
    EventLoggerRemoves(ns);
    ProxyRemoves(ns);
    RemovesAddNone(EventLoggerDestroy(ns), keys);
    RemovesAddNone(ProxyDestroy(ns), keys);
    DeleteRestAddsNone(c);
    assert NoneAdds([Compute], keys) && NoneAdds([Fail], keys);
    NoneAddsAppend(ProxyDestroy(ns), DeleteRest(c), keys);
    NoneAddsAppend(EventLoggerDestroy(ns), ProxyDestroy(ns) + DeleteRest(c), keys);
    NoneAddsAppend([Compute], EventLoggerDestroy(ns) + (ProxyDestroy(ns) + DeleteRest(c)), keys);
    NoneAddsAppend([Compute], [Fail], keys);
    hide EventLoggerDestroy, ProxyDestroy, DeleteRest, StackKeys, NoneAdds;
  }

  /** A deletion, whether or not it succeeds, leaves no object of the stack where there was none. */
  lemma DeleteAddsNone(c: Config, objects: Objects, script: nat -> Fate, calls: nat)
    requires objects.Keys !! StackKeys(c.namespace)
    ensures Run(DeleteSteps(c), objects, script, calls).objects.Keys !! StackKeys(c.namespace)
  {
    DeleteStepsAddNone(c);
    NoneAdded(DeleteSteps(c), StackKeys(c.namespace), objects, script, calls);
  }

  // Histories

  datatype Call = ReconcileCall(c: Config) | DeleteCall(c: Config)

  function StepsOf(call: Call): seq<Step> {
    match call
    case ReconcileCall(c) => ReconcileSteps(c)
    case DeleteCall(c) => DeleteSteps(c)
  }

  /** One call after the other, each whether or not the ones before it succeeded; `ok` is the last one's. */
  function History(history: seq<Call>, objects: Objects, script: nat -> Fate, calls: nat): Result {
    if history == [] then Result(objects, calls, true)
    else
      var r := Run(StepsOf(history[0]), objects, script, calls);
      if |history| == 1 then r else History(history[1..], r.objects, script, r.calls)
  }

  /** A component's objects that are there. */
  function Present(objects: Objects, ns: string): set<Key> {
    objects.Keys * ComponentKeys(ns)
  }

  function Expected(c: Config): set<Key> {
    (if EventLoggingEnabled(c) then EventLoggerKeys(c.namespace) else {}) +
    (if NodeLoggingEnabled(c) then ProxyKeys(c.namespace) else {})
  }

  /** After a reconciliation that succeeds, the components' objects are the expected ones. */
  lemma ReconcilePresents(c: Config, objects: Objects, script: nat -> Fate, calls: nat)
    requires Run(ReconcileSteps(c), objects, script, calls).ok
    ensures Present(Run(ReconcileSteps(c), objects, script, calls).objects, c.namespace) == Expected(c)
  {
    ReconcileDecides(c, objects, script, calls);
    hide Run, ReconcileSteps, EventLoggerKeys, ProxyKeys;
  }

  /**
   Once a reconciliation succeeds, the components' objects depend on its configuration alone: not on the calls before
   it, their configurations, the errors that stopped them or the state they started from. For the third managed
   resource of the actuator, the one that carries promtail, this is not so: see `HistoryMattersForPromtail`.
   */
  lemma {:induction false} HistoryDoesNotMatter(history: seq<Call>, c: Config,
                                                objects: Objects, script: nat -> Fate, calls: nat)
    requires History(history + [ReconcileCall(c)], objects, script, calls).ok
    ensures Present(History(history + [ReconcileCall(c)], objects, script, calls).objects, c.namespace) == Expected(c)
    decreases |history|
  {
    var all := history + [ReconcileCall(c)];
    if history == [] {
      assert all[0] == ReconcileCall(c) && |all| == 1;
      ReconcilePresents(c, objects, script, calls);
    } else {
      var r := Run(StepsOf(history[0]), objects, script, calls);
      assert all[1..] == history[1..] + [ReconcileCall(c)] && all[0] == history[0];
      HistoryDoesNotMatter(history[1..], c, r.objects, script, r.calls);
    }
  }

  // The order of the components

  /** Other keys are touched only once the first part has decided about its own. */
  lemma FirstBeforeRest(before: seq<Step>, first: seq<Step>, rest: seq<Step>, keys: set<Key>, deploy: bool,
                        others: set<Key>, objects: Objects, script: nat -> Fate, calls: nat)
    requires Decides(first, keys, deploy) && SparesAll(rest, keys)
    requires SparesAll(before, others) && SparesAll(first, others)
    ensures
      var r := Run(before + (first + rest), objects, script, calls).objects;
      AllOrNone(r, keys, deploy) || forall key :: key in others ==> SameAt(r, objects, key)
  {
    RunAppend(before, first + rest, objects, script, calls);
    var r1 := Run(before, objects, script, calls);
    RunAppend(first, rest, r1.objects, script, r1.calls);
    var r2 := Run(first, r1.objects, script, r1.calls);
    if r1.ok && r2.ok {
      if deploy {
        PutsEffect(first, r1.objects, script, r1.calls);
      } else {
        RemovesEffect(first, r1.objects, script, r1.calls);
      }
      forall key | key in keys ensures SameAt(Run(rest, r2.objects, script, r2.calls).objects, r2.objects, key) {
        RunSpares(rest, r2.objects, script, r2.calls, key);
      }
    } else {
      var all := before + (first + rest);
      forall key | key in others ensures SameAt(Run(all, objects, script, calls).objects, objects, key) {
        RunSpares(before, objects, script, calls, key);
        RunSpares(first, r1.objects, script, r1.calls, key);
      }
    }
  }

  lemma EventLoggerSparesOthers(c: Config)
    ensures SparesAll(EventLoggerStep(c), ProxyKeys(c.namespace) + ControlPlaneKeys(c.namespace))
  {
    var others := ProxyKeys(c.namespace) + ControlPlaneKeys(c.namespace);
    StepsDecide(c);
    ComponentsAreDisjoint(c.namespace);
    ControlPlaneIsForeign(c.namespace);
    hide EventLoggerKeys, ProxyKeys, ControlPlaneKeys, EventLoggerDeploy, EventLoggerDestroy;
    if EventLoggingEnabled(c) {
      PutsSpare(EventLoggerStep(c), others);
    } else {
      RemovesSpare(EventLoggerStep(c), others);
    }
  }

  /**
   A reconciliation, whether or not it succeeds, touches the proxy and what carries promtail only once the event
   logger's objects are as its gate says, and the latter only once the proxy's are, too.
   */
  lemma ReconcileInOrder(c: Config, objects: Objects, script: nat -> Fate, calls: nat)
    ensures
      var (r, ns) := (Run(ReconcileSteps(c), objects, script, calls).objects, c.namespace);
      && (AllOrNone(r, EventLoggerKeys(ns), EventLoggingEnabled(c)) ||
          forall key :: key in ProxyKeys(ns) + ControlPlaneKeys(ns) ==> SameAt(r, objects, key))
      && (AllOrNone(r, ProxyKeys(ns), NodeLoggingEnabled(c)) ||
          forall key :: key in ControlPlaneKeys(ns) ==> SameAt(r, objects, key))
  {
    var (ns, e, p, rest) := (c.namespace, EventLoggerStep(c), ProxyStep(c), RestSteps(c));
    var others := ProxyKeys(ns) + ControlPlaneKeys(ns);
    StepsDecide(c);
    RestSpares(c);
    EventLoggerSparesOthers(c);
    ComponentStepsSpareControlPlane(c);
    assert SparesAll([Compute] + [Fail], others) && SparesAll([Compute], others);
    hide EventLoggerStep, ProxyStep, RestSteps, EventLoggerKeys, ProxyKeys, ControlPlaneKeys, Decides, Run, AllOrNone;
    if Usable(c) {
      SparesAppend(p, rest, EventLoggerKeys(ns));
      FirstBeforeRest([Compute], e, p + rest, EventLoggerKeys(ns), EventLoggingEnabled(c), others,
                      objects, script, calls);
      SparesAppend([Compute], e, ControlPlaneKeys(ns));
      assert [Compute] + (e + (p + rest)) == [Compute] + e + (p + rest);
      FirstBeforeRest([Compute] + e, p, rest, ProxyKeys(ns), NodeLoggingEnabled(c), ControlPlaneKeys(ns),
                      objects, script, calls);
    } else {
      forall key | key in others ensures SameAt(Run([Compute] + [Fail], objects, script, calls).objects, objects, key) {
        RunSpares([Compute] + [Fail], objects, script, calls, key);
      }
    }
  }

  // The decisions on the configuration itself

  ghost predicate NodeLoggingConfigured(c: Config) {
    && c.purpose.Some? && "shootNodeLoggingEnabled" in c.featureGates && c.featureGates["shootNodeLoggingEnabled"]
    && exists i :: 0 <= i < |c.shootPurposesWithNodeLogging| && c.shootPurposesWithNodeLogging[i] == c.purpose.value
  }

  /** What is expected, by the configuration's own map and list: a missing gate is off. */
  lemma ExpectedByGates(c: Config)
    ensures Expected(c) ==
      (if "eventLoggingEnabled" in c.featureGates && c.featureGates["eventLoggingEnabled"]
       then EventLoggerKeys(c.namespace) else {}) +
      (if NodeLoggingConfigured(c) then ProxyKeys(c.namespace) else {})
  {
  }

  /**
   After a reconciliation that succeeds: the event logger's objects are all there when its gate is mapped to true, and
   none is when it is missing or mapped to false; the proxy's likewise by its gate, the purpose and the list of
   purposes; and what carries promtail is there when the proxy's are.
   */
  lemma GatesDecide(c: Config, objects: Objects, script: nat -> Fate, calls: nat)
    requires Run(ReconcileSteps(c), objects, script, calls).ok
    ensures
      var r := Run(ReconcileSteps(c), objects, script, calls).objects;
      && ("eventLoggingEnabled" in c.featureGates && c.featureGates["eventLoggingEnabled"] ==>
            EventLoggerKeys(c.namespace) <= r.Keys)
      && ("eventLoggingEnabled" !in c.featureGates || !c.featureGates["eventLoggingEnabled"] ==>
            EventLoggerKeys(c.namespace) !! r.Keys)
      && (NodeLoggingConfigured(c) ==> ProxyKeys(c.namespace) <= r.Keys && ControlPlaneKeys(c.namespace) <= r.Keys)
      && (!NodeLoggingConfigured(c) ==> ProxyKeys(c.namespace) !! r.Keys)
  {
    ReconcileDecides(c, objects, script, calls);
    if NodeLoggingEnabled(c) {
      NodeLoggingOnPutsPromtail(c, objects, script, calls);
    }
    hide Run, ReconcileSteps, EventLoggerKeys, ProxyKeys, ControlPlaneKeys;
  }

  /** A reconciliation cannot succeed without a namespace and an image. */
  lemma ReconcileNeedsNames(c: Config, objects: Objects, script: nat -> Fate, calls: nat)
    ensures c.namespace == "" || c.eventLoggerImage == "" ==> !Run(ReconcileSteps(c), objects, script, calls).ok
    ensures c.namespace == "" || c.eventLoggerImage == "" ==> !Run(DeleteSteps(c), objects, script, calls).ok
  {
    UnusableFails(objects, script, calls);
  }

  /** Objects of earlier versions that a reconciliation with node logging off clears away. */
  function LeftOvers(ns: string): set<Key> {
    { Key(IngressV1beta1, ns, "loki"), Key(Ingress, ns, "loki"),
      Key(NetworkPolicy, ns, "allow-from-prometheus-to-loki-telegraf"), Key(ConfigMap, ns, "telegraf-config"),
      Key(MutatingWebhookConfiguration, "", "gardener-extension-logging") }
  }

  /** After a reconciliation with node logging off that succeeds, none of them is there. */
  lemma LeftOversCleared(c: Config, objects: Objects, script: nat -> Fate, calls: nat)
    requires !NodeLoggingConfigured(c) && Run(ReconcileSteps(c), objects, script, calls).ok
    ensures Run(ReconcileSteps(c), objects, script, calls).objects.Keys !! LeftOvers(c.namespace)
  {
    UnusableFails(objects, script, calls);
    LeftOverRemoves(c.namespace);
    var rest := [Remove(WEBHOOK)] + Removes(LeftOverKeys(c.namespace));
    assert RestSteps(c) == rest && SparesAll([], LeftOvers(c.namespace));
    LastPart(EventLoggerStep(c), ProxyStep(c), rest);
    hide EventLoggerStep, ProxyStep, RestSteps, Removes, LeftOvers, Run, SparesAll, Decides;
    PartDecides([Compute] + EventLoggerStep(c) + ProxyStep(c), rest, [], LeftOvers(c.namespace), false,
                objects, script, calls);
  }

  lemma LastPart(a: seq<Step>, b: seq<Step>, c: seq<Step>)
    ensures [Compute] + (a + (b + c)) == [Compute] + a + b + (c + [])
  {
  }

  lemma LeftOverRemoves(ns: string)
    ensures Decides([Remove(WEBHOOK)] + Removes(LeftOverKeys(ns)), LeftOvers(ns), false)
  {
    RemovesKeys(LeftOverKeys(ns));
    var first := [Remove(WEBHOOK)];
    assert first[0] in first;
    assert RemoveKeys(first) == {WEBHOOK};
    StepsOfAppend(first, Removes(LeftOverKeys(ns)));
  }

  // What history does decide

  lemma {:induction false} NoFailure(steps: seq<Step>, objects: Objects, script: nat -> Fate, calls: nat)
    requires forall i :: script(i).outcome.Done?
    requires Fail !in steps
    ensures Run(steps, objects, script, calls).ok
    decreases |steps|
  {
    if steps != [] {
      assert steps[0] in steps;
      NoFailure(steps[1..], RunStep(steps[0], objects, script(calls)).0, script, calls + 1);
    }
  }

  lemma ChartNeverGivesUp(c: Config)
    ensures Fail !in PrepareChart(c) && Fail !in AfterResources(c)
    ensures Fail !in CreateManagedResource(c.namespace, CONTROL_PLANE_RESOURCE)
  {
  }

  lemma RestNeverGivesUp(c: Config)
    ensures Fail !in RestSteps(c)
  {
    RemovesKeys(LeftOverKeys(c.namespace));
    ChartNeverGivesUp(c);
    hide PrepareChart, AfterResources, CreateManagedResource, Removes;
  }

  lemma ReconcileNeverGivesUp(c: Config)
    requires Usable(c)
    ensures Fail !in ReconcileSteps(c)
  {
    StepsDecide(c);
    RestNeverGivesUp(c);
    hide EventLoggerStep, ProxyStep, RestSteps;
  }

  lemma DeleteRestNeverGivesUp(c: Config)
    ensures Fail !in DeleteRest(c)
  {
    ManagedResourceRemoves(c.namespace, CONTROL_PLANE_RESOURCE);
    hide DeleteManagedResource, StackKeys;
  }

  lemma DeleteNeverGivesUp(c: Config)
    requires Usable(c)
    ensures Fail !in DeleteSteps(c)
  {
    EventLoggerRemoves(c.namespace);
    ProxyRemoves(c.namespace);
    DeleteRestNeverGivesUp(c);
    hide EventLoggerDestroy, ProxyDestroy, DeleteRest;
  }

  /**
   For the managed resource that carries promtail the history does matter: after the same last reconciliation, with
   node logging off, it is there if node logging was on before, and not there if it never was.
   */
  lemma HistoryMattersForPromtail(on: Config, off: Config, objects: Objects, script: nat -> Fate, calls: nat)
    requires Usable(on) && Usable(off) && on.namespace == off.namespace
    requires NodeLoggingEnabled(on) && !NodeLoggingEnabled(off)
    requires objects.Keys !! ControlPlaneKeys(off.namespace) && forall i :: script(i).outcome.Done?
    ensures
      var switched := History([ReconcileCall(on), ReconcileCall(off)], objects, script, calls);
      var never := History([ReconcileCall(off)], objects, script, calls);
      && switched.ok && ControlPlaneKeys(off.namespace) <= switched.objects.Keys
      && never.ok && ControlPlaneKeys(off.namespace) !! never.objects.Keys
  {
    ReconcileNeverGivesUp(on);
    ReconcileNeverGivesUp(off);
    var first := Run(ReconcileSteps(on), objects, script, calls);
    NoFailure(ReconcileSteps(on), objects, script, calls);
    NoFailure(ReconcileSteps(off), first.objects, script, first.calls);
    NoFailure(ReconcileSteps(off), objects, script, calls);
    NodeLoggingOnPutsPromtail(on, objects, script, calls);
    forall key | key in ControlPlaneKeys(off.namespace)
      ensures SameAt(Run(ReconcileSteps(off), first.objects, script, first.calls).objects, first.objects, key)
      ensures SameAt(Run(ReconcileSteps(off), objects, script, calls).objects, objects, key)
    {
      NodeLoggingOffKeepsPromtail(off, first.objects, script, first.calls, key);
      NodeLoggingOffKeepsPromtail(off, objects, script, calls, key);
    }
    assert [ReconcileCall(on), ReconcileCall(off)][1..] == [ReconcileCall(off)];
  }
}
