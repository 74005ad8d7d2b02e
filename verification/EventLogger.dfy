/** The component that runs the event logger for a shoot. */
module EventLogger {
  import opened ApiServer
  import opened Components
  import opened Wrappers

  /** `New`: an error without a client, a namespace or an image. */
  method New(cluster: Cluster?, namespace: string, image: string) returns (r: Option<EventLogger>)
    ensures r.None? <==> cluster == null || namespace == "" || image == ""
    ensures r.Some? ==> r.value.cluster == cluster && r.value.namespace == namespace
  {
    if cluster == null {
      return None;
    }
    if namespace == "" {
      return None;
    }
    if image == "" {
      return None;
    }
    var l := new EventLogger(cluster, namespace);
    r := Some(l);
  }

  class EventLogger {
    const cluster: Cluster
    const namespace: string

    constructor (cluster: Cluster, namespace: string)
      ensures this.cluster == cluster && this.namespace == namespace
    {
      this.cluster, this.namespace := cluster, namespace;
    }

    method Deploy() returns (ok: bool)
      modifies cluster
      ensures cluster.After(ok) ==
        Run(EventLoggerDeploy(namespace), old(cluster.objects), cluster.script, old(cluster.calls))
      ensures ok ==> EventLoggerKeys(namespace) <= cluster.objects.Keys
      ensures forall key :: key !in EventLoggerKeys(namespace) ==> SameAt(cluster.objects, old(cluster.objects), key)
    {
      ghost var (before, at, script) := (cluster.objects, cluster.calls, cluster.script);
      EventLoggerPuts(namespace);
      PutsEffect(EventLoggerDeploy(namespace), before, script, at);
      RunAppend(Components.ReconcileRBACForShoot(namespace),
                Components.ReconcileRBACForSeed(namespace) +
                [Put(EventLoggerDeployment(namespace)), Put(EventLoggerVPA(namespace))],
                before, script, at);
      ok := ReconcileRBACForShoot();
      if !ok {
        return;
      }
      ghost var (deployment, vpa) := (Put(EventLoggerDeployment(namespace)), Put(EventLoggerVPA(namespace)));
      assert [deployment, vpa] == [deployment] + [vpa];
      RunAppend(Components.ReconcileRBACForSeed(namespace), [deployment] + [vpa],
                cluster.objects, script, cluster.calls);
      ok := ReconcileRBACForSeed();
      if !ok {
        return;
      }
      RunAppend([deployment], [vpa], cluster.objects, script, cluster.calls);
      ok := cluster.Call(Put(EventLoggerDeployment(namespace)));
      if !ok {
        return;
      }
      ok := cluster.Call(Put(EventLoggerVPA(namespace)));
    }

    method ReconcileRBACForShoot() returns (ok: bool)
      modifies cluster
      ensures cluster.After(ok) ==
        Run(Components.ReconcileRBACForShoot(namespace), old(cluster.objects), cluster.script, old(cluster.calls))
    {
      ghost var script := cluster.script;
      ghost var mr := CreateManagedResource(namespace, EVENT_LOGGER_RESOURCE);
      RunAppend([Put(ShootAccessSecret(EVENT_LOGGER, namespace))], [Compute] + mr,
                cluster.objects, script, cluster.calls);
      assert [Put(ShootAccessSecret(EVENT_LOGGER, namespace)), Compute] + mr ==
        [Put(ShootAccessSecret(EVENT_LOGGER, namespace))] + ([Compute] + mr);
      ok := cluster.Call(Put(ShootAccessSecret(EVENT_LOGGER, namespace)));
      if !ok {
        return;
      }
      RunAppend([Compute], mr, cluster.objects, script, cluster.calls);
      ok := cluster.Call(Compute);
      if !ok {
        return;
      }
      ok := DeployManagedResource(cluster, namespace, EVENT_LOGGER_RESOURCE);
    }

    method ReconcileRBACForSeed() returns (ok: bool)
      modifies cluster
      ensures cluster.After(ok) ==
        Run(Components.ReconcileRBACForSeed(namespace), old(cluster.objects), cluster.script, old(cluster.calls))
    {
      ghost var script := cluster.script;
      ghost var (account, role, binding) := (Put(EventLoggerServiceAccount(namespace)), Put(EventLoggerRole(namespace)),
                                             Put(EventLoggerRoleBinding(namespace)));
      assert [account, role, binding] == [account] + ([role] + [binding]);
      RunAppend([account], [role] + [binding], cluster.objects, script, cluster.calls);
      ok := cluster.Call(Put(EventLoggerServiceAccount(namespace)));
      if !ok {
        return;
      }
      RunAppend([role], [binding], cluster.objects, script, cluster.calls);
      ok := cluster.Call(Put(EventLoggerRole(namespace)));
      if !ok {
        return;
      }
      ok := cluster.Call(Put(EventLoggerRoleBinding(namespace)));
    }

    method Destroy() returns (ok: bool)
      modifies cluster
      ensures cluster.After(ok) ==
        Run(EventLoggerDestroy(namespace), old(cluster.objects), cluster.script, old(cluster.calls))
      ensures ok ==> cluster.objects == old(cluster.objects) - EventLoggerKeys(namespace)
      ensures forall key :: key !in EventLoggerKeys(namespace) ==> SameAt(cluster.objects, old(cluster.objects), key)
    {
      ghost var (before, at, script) := (cluster.objects, cluster.calls, cluster.script);
      EventLoggerRemoves(namespace);
      RemovesEffect(EventLoggerDestroy(namespace), before, script, at);
      ghost var own := [ EventLoggerServiceAccount(namespace), EventLoggerRole(namespace),
                         EventLoggerRoleBinding(namespace),
                         EventLoggerVPA(namespace), EventLoggerDeployment(namespace) ];
      RunAppend(Components.DeleteRBACForShoot(namespace), Removes(own), before, script, at);
      ok := DeleteRBACForShoot();
      if !ok {
        return;
      }
      ok := cluster.DeleteObjects([ EventLoggerServiceAccount(namespace), EventLoggerRole(namespace),
                                    EventLoggerRoleBinding(namespace), EventLoggerVPA(namespace),
                                    EventLoggerDeployment(namespace) ]);
    }

    method DeleteRBACForShoot() returns (ok: bool)
      modifies cluster
      ensures cluster.After(ok) ==
        Run(Components.DeleteRBACForShoot(namespace), old(cluster.objects), cluster.script, old(cluster.calls))
    {
      RunAppend(DeleteManagedResource(namespace, EVENT_LOGGER_RESOURCE),
                Removes([ShootAccessSecret(EVENT_LOGGER, namespace)]), cluster.objects, cluster.script, cluster.calls);
      ok := DestroyManagedResource(cluster, namespace, EVENT_LOGGER_RESOURCE);
      if !ok {
        return;
      }
      ok := cluster.DeleteObjects([ShootAccessSecret(EVENT_LOGGER, namespace)]);
    }
  }
}
