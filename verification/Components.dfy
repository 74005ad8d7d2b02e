/** The keys of the seed-side objects that both control-plane components own, and Gardener's names for them. */
module Components {
  import opened ApiServer

  /** `gutil.NewShootAccessSecret` */
  function ShootAccessSecret(name: string, namespace: string): Key {
    var prefix := "shoot-access-";
    Key(Secret, namespace, if prefix <= name then name else prefix + name)
  }

  /** `managedresources.CreateForShoot` and `CreateForSeed`: the secret first, then the managed resource. */
  function CreateManagedResource(namespace: string, name: string): seq<Step> {
    [Put(Key(Secret, namespace, "managedresource-" + name)), Put(Key(ManagedResource, namespace, name))]
  }

  /** `managedresources.DeleteForShoot` and `DeleteForSeed`: the managed resource first, then its secret. */
  function DeleteManagedResource(namespace: string, name: string): seq<Step> {
    Removes([Key(ManagedResource, namespace, name), Key(Secret, namespace, "managedresource-" + name)])
  }

  /** `deployManagedResource` */
  method DeployManagedResource(cluster: Cluster, namespace: string, name: string) returns (ok: bool)
    modifies cluster
    ensures cluster.After(ok) ==
      Run(CreateManagedResource(namespace, name), old(cluster.objects), cluster.script, old(cluster.calls))
  {
    var secret := Key(Secret, namespace, "managedresource-" + name);
    var resource := Key(ManagedResource, namespace, name);
    assert [Put(secret), Put(resource)] == [Put(secret)] + [Put(resource)];
    RunAppend([Put(secret)], [Put(resource)], cluster.objects, cluster.script, cluster.calls);
    ok := cluster.Call(Put(secret));
    if !ok {
      return;
    }
    ok := cluster.Call(Put(resource));
  }

  /** `Delete` */
  method DestroyManagedResource(cluster: Cluster, namespace: string, name: string) returns (ok: bool)
    modifies cluster
    ensures cluster.After(ok) ==
      Run(DeleteManagedResource(namespace, name), old(cluster.objects), cluster.script, old(cluster.calls))
  {
    ok := cluster.DeleteObjects([ Key(ManagedResource, namespace, name),
                                  Key(Secret, namespace, "managedresource-" + name) ]);
  }

  const EVENT_LOGGER := "event-logger"
  const EVENT_LOGGER_VPA := "event-logger-vpa"
  const EVENT_LOGGER_RESOURCE := "shoot-event-logger"

  function EventLoggerDeploy(ns: string): seq<Step> {
    ReconcileRBACForShoot(ns) + (ReconcileRBACForSeed(ns) + [Put(EventLoggerDeployment(ns)), Put(EventLoggerVPA(ns))])
  }

  function ReconcileRBACForShoot(ns: string): seq<Step> {
    [Put(ShootAccessSecret(EVENT_LOGGER, ns)), Compute] + CreateManagedResource(ns, EVENT_LOGGER_RESOURCE)
  }

  function ReconcileRBACForSeed(ns: string): seq<Step> {
    [Put(EventLoggerServiceAccount(ns)), Put(EventLoggerRole(ns)), Put(EventLoggerRoleBinding(ns))]
  }

  function EventLoggerServiceAccount(ns: string): Key { Key(ServiceAccount, ns, EVENT_LOGGER) }
  function EventLoggerRole(ns: string): Key { Key(Role, ns, EVENT_LOGGER) }
  function EventLoggerRoleBinding(ns: string): Key { Key(RoleBinding, ns, EVENT_LOGGER) }
  function EventLoggerDeployment(ns: string): Key { Key(Deployment, ns, EVENT_LOGGER) }
  function EventLoggerVPA(ns: string): Key { Key(VerticalPodAutoscaler, ns, EVENT_LOGGER_VPA) }

  function EventLoggerDestroy(ns: string): seq<Step> {
    DeleteRBACForShoot(ns) +
    Removes([ EventLoggerServiceAccount(ns), EventLoggerRole(ns), EventLoggerRoleBinding(ns), EventLoggerVPA(ns),
              EventLoggerDeployment(ns) ])
  }

  function DeleteRBACForShoot(ns: string): seq<Step> {
    DeleteManagedResource(ns, EVENT_LOGGER_RESOURCE) + Removes([ShootAccessSecret(EVENT_LOGGER, ns)])
  }

  const PROXY := "kube-rbac-proxy"
  const PROMTAIL := "promtail"
  const PROXY_RESOURCE := "shoot-node-logging"

  function ProxyDeploy(ns: string): seq<Step> {
    [Put(ShootAccessSecret(PROXY, ns)), Put(ShootAccessSecret(PROMTAIL, ns)), Compute] +
    CreateManagedResource(ns, PROXY_RESOURCE)
  }

  function ProxyDestroy(ns: string): seq<Step> {
    DeleteManagedResource(ns, PROXY_RESOURCE) + Removes([ShootAccessSecret(PROXY, ns), ShootAccessSecret(PROMTAIL, ns)])
  }

  function ManagedResourceKeys(ns: string, name: string): set<Key> {
    {Key(ManagedResource, ns, name), Key(Secret, ns, "managedresource-" + name)}
  }

  /** The objects the event logger may have in the seed. */
  function EventLoggerKeys(ns: string): set<Key> {
    ManagedResourceKeys(ns, EVENT_LOGGER_RESOURCE) + {ShootAccessSecret(EVENT_LOGGER, ns)} +
    { EventLoggerServiceAccount(ns), EventLoggerRole(ns), EventLoggerRoleBinding(ns), EventLoggerDeployment(ns),
      EventLoggerVPA(ns) }
  }

  /** The objects the proxy may have in the seed. */
  function ProxyKeys(ns: string): set<Key> {
    ManagedResourceKeys(ns, PROXY_RESOURCE) + {ShootAccessSecret(PROXY, ns), ShootAccessSecret(PROMTAIL, ns)}
  }

  lemma StepsOfAppend(a: seq<Step>, b: seq<Step>)
    ensures PutKeys(a + b) == PutKeys(a) + PutKeys(b)
    ensures RemoveKeys(a + b) == RemoveKeys(a) + RemoveKeys(b)
    ensures OnlyPuts(a + b) <==> OnlyPuts(a) && OnlyPuts(b)
    ensures OnlyRemoves(a + b) <==> OnlyRemoves(a) && OnlyRemoves(b)
  {
    assert forall step :: step in a + b <==> step in a || step in b;
  }

  lemma ManagedResourceRemoves(ns: string, name: string)
    ensures OnlyRemoves(DeleteManagedResource(ns, name))
    ensures RemoveKeys(DeleteManagedResource(ns, name)) == ManagedResourceKeys(ns, name)
  {
    RemovesKeys([Key(ManagedResource, ns, name), Key(Secret, ns, "managedresource-" + name)]);
  }

  lemma EventLoggerRemoves(ns: string)
    ensures OnlyRemoves(EventLoggerDestroy(ns)) && RemoveKeys(EventLoggerDestroy(ns)) == EventLoggerKeys(ns)
  {
    var secret := [ShootAccessSecret(EVENT_LOGGER, ns)];
    var own := [ EventLoggerServiceAccount(ns), EventLoggerRole(ns), EventLoggerRoleBinding(ns), EventLoggerVPA(ns),
                 EventLoggerDeployment(ns) ];
    ManagedResourceRemoves(ns, EVENT_LOGGER_RESOURCE);
    RemovesKeys(secret);
    RemovesKeys(own);
    hide DeleteManagedResource, Removes;
    StepsOfAppend(DeleteManagedResource(ns, EVENT_LOGGER_RESOURCE), Removes(secret));
    StepsOfAppend(DeleteManagedResource(ns, EVENT_LOGGER_RESOURCE) + Removes(secret), Removes(own));
  }

  lemma EventLoggerPuts(ns: string)
    ensures OnlyPuts(EventLoggerDeploy(ns)) && PutKeys(EventLoggerDeploy(ns)) == EventLoggerKeys(ns)
  {
    var mr := CreateManagedResource(ns, EVENT_LOGGER_RESOURCE);
    var secret := [Put(ShootAccessSecret(EVENT_LOGGER, ns)), Compute];
    var last := [Put(EventLoggerDeployment(ns)), Put(EventLoggerVPA(ns))];
    assert PutKeys(mr) == ManagedResourceKeys(ns, EVENT_LOGGER_RESOURCE) by {
      assert mr[0] in mr && mr[1] in mr;
    }
    assert PutKeys(secret) == {ShootAccessSecret(EVENT_LOGGER, ns)} by {
      assert secret[0] in secret;
    }
    assert PutKeys(last) == {EventLoggerDeployment(ns), EventLoggerVPA(ns)} by {
      assert last[0] in last && last[1] in last;
    }
    var rbac := ReconcileRBACForSeed(ns);
    assert PutKeys(rbac) == {EventLoggerServiceAccount(ns), EventLoggerRole(ns), EventLoggerRoleBinding(ns)} by {
      assert rbac[0] in rbac && rbac[1] in rbac && rbac[2] in rbac;
    }
    StepsOfAppend(secret, mr);
    StepsOfAppend(rbac, last);
    StepsOfAppend(secret + mr, rbac + last);
  }

  lemma ProxyPuts(ns: string)
    ensures OnlyPuts(ProxyDeploy(ns)) && PutKeys(ProxyDeploy(ns)) == ProxyKeys(ns)
  {
    var mr := CreateManagedResource(ns, PROXY_RESOURCE);
    var secrets := [Put(ShootAccessSecret(PROXY, ns)), Put(ShootAccessSecret(PROMTAIL, ns)), Compute];
    assert PutKeys(mr) == ManagedResourceKeys(ns, PROXY_RESOURCE) by {
      assert mr[0] in mr && mr[1] in mr;
    }
    assert PutKeys(secrets) == {ShootAccessSecret(PROXY, ns), ShootAccessSecret(PROMTAIL, ns)} by {
      assert secrets[0] in secrets && secrets[1] in secrets;
    }
    StepsOfAppend(secrets, mr);
  }

  lemma ProxyRemoves(ns: string)
    ensures OnlyRemoves(ProxyDestroy(ns)) && RemoveKeys(ProxyDestroy(ns)) == ProxyKeys(ns)
  {
    var secrets := [ShootAccessSecret(PROXY, ns), ShootAccessSecret(PROMTAIL, ns)];
    ManagedResourceRemoves(ns, PROXY_RESOURCE);
    RemovesKeys(secrets);
    StepsOfAppend(DeleteManagedResource(ns, PROXY_RESOURCE), Removes(secrets));
  }

  /** The objects of the event logger, spelled out. */
  lemma EventLoggerObjects(ns: string)
    ensures EventLoggerKeys(ns) ==
      { Key(Secret, ns, "shoot-access-" + "event-logger"), Key(Secret, ns, "managedresource-" + "shoot-event-logger"),
        Key(ManagedResource, ns, "shoot-event-logger"), Key(ServiceAccount, ns, "event-logger"),
        Key(Role, ns, "event-logger"), Key(RoleBinding, ns, "event-logger"), Key(Deployment, ns, "event-logger"),
        Key(VerticalPodAutoscaler, ns, "event-logger-vpa") }
  {
    AccessSecretName(EVENT_LOGGER, ns);
  }

  /** The objects of the proxy, spelled out. */
  lemma ProxyObjects(ns: string)
    ensures ProxyKeys(ns) ==
      { Key(Secret, ns, "shoot-access-" + "kube-rbac-proxy"), Key(Secret, ns, "shoot-access-" + "promtail"),
        Key(Secret, ns, "managedresource-" + "shoot-node-logging"), Key(ManagedResource, ns, "shoot-node-logging") }
  {
    AccessSecretName(PROXY, ns);
    AccessSecretName(PROMTAIL, ns);
  }

  lemma AppendDiffers(prefix: string, a: string, b: string)
    requires a != b
    ensures prefix + a != prefix + b
  {
    assert (prefix + a)[|prefix|..] == a && (prefix + b)[|prefix|..] == b;
  }

  lemma AccessSecretName(name: string, ns: string)
    requires name == EVENT_LOGGER || name == PROXY || name == PROMTAIL
    ensures ShootAccessSecret(name, ns) == Key(Secret, ns, "shoot-access-" + name)
  {
    assert name[0] != 's';
  }

  /** The two components share no object. */
  lemma ComponentsAreDisjoint(ns: string)
    ensures EventLoggerKeys(ns) !! ProxyKeys(ns)
  {
    AccessSecretName(EVENT_LOGGER, ns);
    AccessSecretName(PROXY, ns);
    AccessSecretName(PROMTAIL, ns);
    assert EVENT_LOGGER_RESOURCE[6] != PROXY_RESOURCE[6];
    assert EVENT_LOGGER[0] != PROXY[0] && EVENT_LOGGER[0] != PROMTAIL[0];
    AppendDiffers("managedresource-", EVENT_LOGGER_RESOURCE, PROXY_RESOURCE);
    AppendDiffers("shoot-access-", EVENT_LOGGER, PROXY);
    AppendDiffers("shoot-access-", EVENT_LOGGER, PROMTAIL);
    assert forall s :: ("shoot-access-" + s)[0] == 's';
    assert forall s :: ("managedresource-" + s)[0] == 'm';
  }

  /** A successful destroy of the event logger undoes any deploy before it, however that one ended. */
  lemma EventLoggerDestroyUndoesDeploy(ns: string, objects: Objects, script: nat -> Fate, calls: nat)
    ensures
      var deployed := Run(EventLoggerDeploy(ns), objects, script, calls);
      var destroyed := Run(EventLoggerDestroy(ns), deployed.objects, script, deployed.calls);
      destroyed.ok ==> destroyed.objects == objects - EventLoggerKeys(ns)
  {
    EventLoggerPuts(ns);
    EventLoggerRemoves(ns);
    DestroyUndoes(EventLoggerDeploy(ns), EventLoggerDestroy(ns), objects, script, calls);
  }

  /** The same for the proxy. */
  lemma ProxyDestroyUndoesDeploy(ns: string, objects: Objects, script: nat -> Fate, calls: nat)
    ensures
      var deployed := Run(ProxyDeploy(ns), objects, script, calls);
      var destroyed := Run(ProxyDestroy(ns), deployed.objects, script, deployed.calls);
      destroyed.ok ==> destroyed.objects == objects - ProxyKeys(ns)
  {
    ProxyPuts(ns);
    ProxyRemoves(ns);
    DestroyUndoes(ProxyDeploy(ns), ProxyDestroy(ns), objects, script, calls);
  }

  // Managed resources never lack their secret

  function ResourceKey(ns: string, name: string): Key {
    Key(ManagedResource, ns, name)
  }

  function SecretKey(ns: string, name: string): Key {
    Key(Secret, ns, "managedresource-" + name)
  }

  /** Where the managed resource is, its secret is. */
  predicate Backed(objects: Objects, ns: string, name: string) {
    ResourceKey(ns, name) in objects ==> SecretKey(ns, name) in objects
  }

  lemma PairKeepsBacked(first: Step, second: Step, ns: string, name: string,
                        objects: Objects, script: nat -> Fate, calls: nat)
    requires || (first == Put(SecretKey(ns, name)) && second == Put(ResourceKey(ns, name)))
             || (first == Remove(ResourceKey(ns, name)) && second == Remove(SecretKey(ns, name)))
    requires Backed(objects, ns, name)
    ensures Backed(Run([first] + [second], objects, script, calls).objects, ns, name)
  {
    RunAppend([first], [second], objects, script, calls);
    OneCall(first, objects, script, calls);
    var r := Run([first], objects, script, calls);
    OneCall(second, r.objects, script, r.calls);
    RunStops([first], objects, script, calls);
    RunStops([second], r.objects, script, r.calls);
  }

  ghost predicate SparesPair(steps: seq<Step>, ns: string, name: string) {
    forall step :: step in steps ==> Spares(step, ResourceKey(ns, name)) && Spares(step, SecretKey(ns, name))
  }

  lemma SparingKeepsBacked(steps: seq<Step>, ns: string, name: string,
                           objects: Objects, script: nat -> Fate, calls: nat)
    requires SparesPair(steps, ns, name) && Backed(objects, ns, name)
    ensures Backed(Run(steps, objects, script, calls).objects, ns, name)
  {
    RunSpares(steps, objects, script, calls, ResourceKey(ns, name));
    RunSpares(steps, objects, script, calls, SecretKey(ns, name));
  }

  /** Around the one place that creates or deletes the two, no error can leave the one without the other. */
  lemma KeepsBacked(before: seq<Step>, first: Step, second: Step, after: seq<Step>, ns: string, name: string,
                    objects: Objects, script: nat -> Fate, calls: nat)
    requires || (first == Put(SecretKey(ns, name)) && second == Put(ResourceKey(ns, name)))
             || (first == Remove(ResourceKey(ns, name)) && second == Remove(SecretKey(ns, name)))
    requires SparesPair(before, ns, name) && SparesPair(after, ns, name) && Backed(objects, ns, name)
    ensures Backed(Run(before + (([first] + [second]) + after), objects, script, calls).objects, ns, name)
  {
    SparingKeepsBacked(before, ns, name, objects, script, calls);
    RunAppend(before, ([first] + [second]) + after, objects, script, calls);
    var r := Run(before, objects, script, calls);
    PairKeepsBacked(first, second, ns, name, r.objects, script, r.calls);
    RunAppend([first] + [second], after, r.objects, script, r.calls);
    var q := Run([first] + [second], r.objects, script, r.calls);
    SparingKeepsBacked(after, ns, name, q.objects, script, q.calls);
  }

  lemma DeleteIsPair(ns: string, name: string)
    ensures DeleteManagedResource(ns, name) == [Remove(ResourceKey(ns, name))] + [Remove(SecretKey(ns, name))]
  {
    var keys := [ResourceKey(ns, name), SecretKey(ns, name)];
    assert keys[1..] == [SecretKey(ns, name)] && keys[1..][1..] == [];
    assert Removes(keys) == [Remove(keys[0])] + Removes(keys[1..]);
    assert Removes(keys[1..]) == [Remove(keys[1])] + Removes(keys[1..][1..]);
  }

  lemma EventLoggerDeployBacked(ns: string, objects: Objects, script: nat -> Fate, calls: nat)
    requires Backed(objects, ns, EVENT_LOGGER_RESOURCE)
    ensures Backed(Run(EventLoggerDeploy(ns), objects, script, calls).objects, ns, EVENT_LOGGER_RESOURCE)
  {
    var name := EVENT_LOGGER_RESOURCE;
    AccessSecretName(EVENT_LOGGER, ns);
    assert ("shoot-access-" + EVENT_LOGGER)[0] == 's' && ("managedresource-" + name)[0] == 'm';
    var before := [Put(ShootAccessSecret(EVENT_LOGGER, ns)), Compute];
    var after := ReconcileRBACForSeed(ns) + [Put(EventLoggerDeployment(ns)), Put(EventLoggerVPA(ns))];
    assert SparesPair(before, ns, name) && SparesPair(after, ns, name);
    var (first, second) := (Put(SecretKey(ns, name)), Put(ResourceKey(ns, name)));
    assert EventLoggerDeploy(ns) == before + (([first] + [second]) + after);
    hide Backed, SparesPair, Run;
    KeepsBacked(before, first, second, after, ns, name, objects, script, calls);
  }

  lemma EventLoggerDestroyBacked(ns: string, objects: Objects, script: nat -> Fate, calls: nat)
    requires Backed(objects, ns, EVENT_LOGGER_RESOURCE)
    ensures Backed(Run(EventLoggerDestroy(ns), objects, script, calls).objects, ns, EVENT_LOGGER_RESOURCE)
  {
    var name := EVENT_LOGGER_RESOURCE;
    AccessSecretName(EVENT_LOGGER, ns);
    assert ("shoot-access-" + EVENT_LOGGER)[0] == 's' && ("managedresource-" + name)[0] == 'm';
    var (own, others) := ([ShootAccessSecret(EVENT_LOGGER, ns)],
                          [ EventLoggerServiceAccount(ns), EventLoggerRole(ns), EventLoggerRoleBinding(ns),
                            EventLoggerVPA(ns), EventLoggerDeployment(ns) ]);
    RemovesKeys(own);
    RemovesKeys(others);
    var last := Removes(own) + Removes(others);
    assert SparesPair(last, ns, name) && SparesPair([], ns, name);
    DeleteIsPair(ns, name);
    var (first, second) := (Remove(ResourceKey(ns, name)), Remove(SecretKey(ns, name)));
    hide Backed, SparesPair, Run, Removes, DeleteManagedResource;
    assert EventLoggerDestroy(ns) == [] + (([first] + [second]) + last);
    KeepsBacked([], first, second, last, ns, name, objects, script, calls);
  }

  /** Whatever cuts the event logger's deploy or destroy, its managed resource does not lack its secret. */
  lemma EventLoggerStaysBacked(ns: string, objects: Objects, script: nat -> Fate, calls: nat)
    requires Backed(objects, ns, "shoot-event-logger")
    ensures Backed(Run(EventLoggerDeploy(ns), objects, script, calls).objects, ns, "shoot-event-logger")
    ensures Backed(Run(EventLoggerDestroy(ns), objects, script, calls).objects, ns, "shoot-event-logger")
  {
    EventLoggerDeployBacked(ns, objects, script, calls);
    EventLoggerDestroyBacked(ns, objects, script, calls);
  }

  /** The same for the proxy. */
  lemma ProxyStaysBacked(ns: string, objects: Objects, script: nat -> Fate, calls: nat)
    requires Backed(objects, ns, "shoot-node-logging")
    ensures Backed(Run(ProxyDeploy(ns), objects, script, calls).objects, ns, "shoot-node-logging")
    ensures Backed(Run(ProxyDestroy(ns), objects, script, calls).objects, ns, "shoot-node-logging")
  {
    var name := "shoot-node-logging";
    AccessSecretName(PROXY, ns);
    AccessSecretName(PROMTAIL, ns);
    assert forall t :: ("shoot-access-" + t)[0] == 's';
    assert ("managedresource-" + name)[0] == 'm';
    var before := [Put(ShootAccessSecret(PROXY, ns)), Put(ShootAccessSecret(PROMTAIL, ns)), Compute];
    var pair := [Put(SecretKey(ns, name))] + [Put(ResourceKey(ns, name))];
    assert ProxyDeploy(ns) == before + (pair + []);
    KeepsBacked(before, Put(SecretKey(ns, name)), Put(ResourceKey(ns, name)), [], ns, name, objects, script, calls);
    var last := Removes([ShootAccessSecret(PROXY, ns), ShootAccessSecret(PROMTAIL, ns)]);
    RemovesKeys([ShootAccessSecret(PROXY, ns), ShootAccessSecret(PROMTAIL, ns)]);
    DeleteIsPair(ns, name);
    var gone := [Remove(ResourceKey(ns, name))] + [Remove(SecretKey(ns, name))];
    assert ProxyDestroy(ns) == [] + (gone + last);
    KeepsBacked([], Remove(ResourceKey(ns, name)), Remove(SecretKey(ns, name)), last, ns, name, objects, script, calls);
  }
}
