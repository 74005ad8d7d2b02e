/** The component that lets promtail on the shoot's nodes reach the control plane. */
module KubeRbacProxy {
  import opened ApiServer
  import opened Components
  import opened Wrappers

  /** `New`: an error without a client or a namespace. */
  method New(cluster: Cluster?, namespace: string) returns (r: Option<KubeRbacProxy>)
    ensures r.None? <==> cluster == null || namespace == ""
    ensures r.Some? ==> r.value.cluster == cluster && r.value.namespace == namespace
  {
    if cluster == null {
      return None;
    }
    if namespace == "" {
      return None;
    }
    var k := new KubeRbacProxy(cluster, namespace);
    r := Some(k);
  }

  class KubeRbacProxy {
    const cluster: Cluster
    const namespace: string

    constructor (cluster: Cluster, namespace: string)
      ensures this.cluster == cluster && this.namespace == namespace
    {
      this.cluster, this.namespace := cluster, namespace;
    }

    method Deploy() returns (ok: bool)
      modifies cluster
      ensures cluster.After(ok) == Run(ProxyDeploy(namespace), old(cluster.objects), cluster.script, old(cluster.calls))
      ensures ok ==> ProxyKeys(namespace) <= cluster.objects.Keys
      ensures forall key :: key !in ProxyKeys(namespace) ==> SameAt(cluster.objects, old(cluster.objects), key)
    {
      ghost var script := cluster.script;
      ProxyPuts(namespace);
      PutsEffect(ProxyDeploy(namespace), cluster.objects, script, cluster.calls);
      ghost var proxy := Put(ShootAccessSecret(PROXY, namespace));
      ghost var promtail := Put(ShootAccessSecret(PROMTAIL, namespace));
      ghost var resource := CreateManagedResource(namespace, PROXY_RESOURCE);
      assert ProxyDeploy(namespace) == [proxy] + ([promtail] + ([Compute] + resource));
      RunAppend([proxy], [promtail] + ([Compute] + resource), cluster.objects, script, cluster.calls);
      ok := cluster.Call(Put(ShootAccessSecret(PROXY, namespace)));
      if !ok {
        return;
      }
      RunAppend([promtail], [Compute] + resource, cluster.objects, script, cluster.calls);
      ok := cluster.Call(Put(ShootAccessSecret(PROMTAIL, namespace)));
      if !ok {
        return;
      }
      RunAppend([Compute], resource, cluster.objects, script, cluster.calls);
      ok := cluster.Call(Compute);
      if !ok {
        return;
      }
      ok := DeployManagedResource(cluster, namespace, PROXY_RESOURCE);
    }

    method Destroy() returns (ok: bool)
      modifies cluster
      ensures cluster.After(ok) ==
        Run(ProxyDestroy(namespace), old(cluster.objects), cluster.script, old(cluster.calls))
      ensures ok ==> cluster.objects == old(cluster.objects) - ProxyKeys(namespace)
      ensures forall key :: key !in ProxyKeys(namespace) ==> SameAt(cluster.objects, old(cluster.objects), key)
    {
      ProxyRemoves(namespace);
      RemovesEffect(ProxyDestroy(namespace), cluster.objects, cluster.script, cluster.calls);
      RunAppend(DeleteManagedResource(namespace, PROXY_RESOURCE),
                Removes([ShootAccessSecret(PROXY, namespace), ShootAccessSecret(PROMTAIL, namespace)]),
                cluster.objects, cluster.script, cluster.calls);
      ok := DestroyManagedResource(cluster, namespace, PROXY_RESOURCE);
      if !ok {
        return;
      }
      ok := cluster.DeleteObjects([ShootAccessSecret(PROXY, namespace), ShootAccessSecret(PROMTAIL, namespace)]);
    }
  }
}
