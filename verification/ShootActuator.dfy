/** The shoot actuator: which component is deployed or destroyed, call by call. */
module ShootActuator {
  import opened ApiServer
  import opened Components
  import opened Wrappers
  import EventLogger
  import KubeRbacProxy

  /** What a call of the actuator reads from its configuration, the cluster and the Logging object. */
  datatype Config = Config(
    namespace: string,
    eventLoggerImage: string,
    featureGates: map<string, bool>,
    shootPurposesWithNodeLogging: seq<string>,
    purpose: Option<string>,
    hvpaEnabled: bool)

  function Gate(gates: map<string, bool>, name: string): bool {
    name in gates && gates[name]
  }

  predicate EventLoggingEnabled(c: Config) {
    Gate(c.featureGates, "eventLoggingEnabled")
  }

  predicate NodeLoggingEnabled(c: Config) {
    && c.purpose.Some?
    && Gate(c.featureGates, "shootNodeLoggingEnabled")
    && c.purpose.value in c.shootPurposesWithNodeLogging
  }

  /** `isShootEventLoggerEnabled` */
  method IsShootEventLoggerEnabled(c: Config) returns (enabled: bool)
    ensures enabled <==> EventLoggingEnabled(c)
  {
    enabled := Gate(c.featureGates, "eventLoggingEnabled");
  }

  /** `isShootNodeLoggingEnabled` */
  method IsShootNodeLoggingEnabled(c: Config) returns (enabled: bool)
    ensures enabled <==> NodeLoggingEnabled(c)
  {
    if c.purpose.None? || !Gate(c.featureGates, "shootNodeLoggingEnabled") {
      return false;
    }
    var allowed := c.shootPurposesWithNodeLogging;
    for i := 0 to |allowed|
      invariant c.purpose.value !in allowed[..i]
    {
      if c.purpose.value == allowed[i] {
        return true;
      }
    }
    return false;
  }

  // The address of the shoot's API server

  datatype Address = Address(name: string, url: string)

  /** The index of the last address with the name, or -1. */
  function LastNamed(addresses: seq<Address>, name: string): (i: int)
    ensures -1 <= i < |addresses|
    ensures i >= 0 ==> addresses[i].name == name
    ensures forall j :: i < j < |addresses| ==> addresses[j].name != name
  {
    if addresses == [] then -1
    else if addresses[|addresses| - 1].name == name then |addresses| - 1
    else LastNamed(addresses[..|addresses| - 1], name)
  }

  predicate Lacks(addresses: seq<Address>, name: string) {
    forall i :: 0 <= i < |addresses| ==> addresses[i].name != name
  }

  predicate IsLastNamed(addresses: seq<Address>, name: string, i: int) {
    0 <= i < |addresses| && addresses[i].name == name && forall j :: i < j < |addresses| ==> addresses[j].name != name
  }

  /** The last internal address, else the last external one, else the last one, else none. */
  function PreferredURL(addresses: seq<Address>): string {
    if LastNamed(addresses, "internal") >= 0 then addresses[LastNamed(addresses, "internal")].url
    else if LastNamed(addresses, "external") >= 0 then addresses[LastNamed(addresses, "external")].url
    else if addresses != [] then addresses[|addresses| - 1].url
    else ""
  }

  /** The loop over the advertised addresses. */
  method ApiServerURL(addresses: seq<Address>) returns (apiServerURL: string)
    ensures apiServerURL == PreferredURL(addresses)
    ensures forall i :: IsLastNamed(addresses, "internal", i) ==> apiServerURL == addresses[i].url
    ensures forall i :: Lacks(addresses, "internal") && IsLastNamed(addresses, "external", i) ==>
      apiServerURL == addresses[i].url
    ensures Lacks(addresses, "internal") && Lacks(addresses, "external") && addresses != [] ==>
      apiServerURL == addresses[|addresses| - 1].url
    ensures addresses == [] ==> apiServerURL == ""
  {
    apiServerURL := "";
    var foundInternal, foundExternal := false, false;
    var i := 0;
    while i < |addresses|
      invariant 0 <= i <= |addresses|
      invariant foundInternal <==> LastNamed(addresses[..i], "internal") >= 0
      invariant !foundInternal ==> (foundExternal <==> LastNamed(addresses[..i], "external") >= 0)
      invariant apiServerURL == PreferredURL(addresses[..i])
    {
      var address := addresses[i];
      assert addresses[..i + 1][..i] == addresses[..i];
      if address.name == "internal" {
        apiServerURL := address.url;
        foundInternal := true;
      } else if address.name == "external" && !foundInternal {
        apiServerURL := address.url;
        foundExternal := true;
      } else if !foundInternal && !foundExternal {
        apiServerURL := address.url;
      }
      i := i + 1;
    }
    assert addresses[..i] == addresses;
  }

  // The steps of the actuator

  const CONTROL_PLANE_RESOURCE := "extension-logging-controlplane"

  /** The objects of both components. */
  function ComponentKeys(ns: string): set<Key> {
    EventLoggerKeys(ns) + ProxyKeys(ns)
  }

  /** The managed resource that carries promtail's units and files to the webhook, and its secret. */
  function ControlPlaneKeys(ns: string): set<Key> {
    ManagedResourceKeys(ns, CONTROL_PLANE_RESOURCE)
  }

  /** The objects that code outside this model leaves alone. */
  function StackKeys(ns: string): set<Key> {
    ComponentKeys(ns) + ControlPlaneKeys(ns)
  }

  function EventLoggerStep(c: Config): seq<Step> {
    if EventLoggingEnabled(c) then EventLoggerDeploy(c.namespace) else EventLoggerDestroy(c.namespace)
  }

  function ProxyStep(c: Config): seq<Step> {
    if NodeLoggingEnabled(c) then ProxyDeploy(c.namespace) else ProxyDestroy(c.namespace)
  }

  /** Ingress class, secrets manager, TLS and CA secrets, promtail image and resources, cleanup, resources, chart. */
  function PrepareChart(c: Config): seq<Step> {
    var foreign := Foreign(StackKeys(c.namespace));
    [Compute, foreign, foreign, Compute, Compute, Compute, Compute, foreign] +
    ((if c.hvpaEnabled then [Compute] else []) + [foreign, Compute])
  }

  /** Waiting for health, listing the operating system configs, patching them. */
  function AfterResources(c: Config): seq<Step> {
    [Compute, Compute, Foreign(StackKeys(c.namespace))]
  }

  function LeftOverKeys(ns: string): seq<Key> {
    [ Key(IngressV1beta1, ns, "loki"),
      Key(Ingress, ns, "loki"),
      Key(NetworkPolicy, ns, "allow-from-prometheus-to-loki-telegraf"),
      Key(ConfigMap, ns, "telegraf-config") ]
  }

  const WEBHOOK := Key(MutatingWebhookConfiguration, "", "gardener-extension-logging")

  function RestSteps(c: Config): seq<Step> {
    if NodeLoggingEnabled(c) then
      PrepareChart(c) + (CreateManagedResource(c.namespace, CONTROL_PLANE_RESOURCE) + AfterResources(c))
    else
      [Remove(WEBHOOK)] + Removes(LeftOverKeys(c.namespace))
  }

  /** Neither component can be created without a namespace or an image. */
  predicate Usable(c: Config) {
    c.namespace != "" && c.eventLoggerImage != ""
  }

  function ReconcileSteps(c: Config): seq<Step> {
    if !Usable(c) then [Compute] + [Fail]
    else [Compute] + (EventLoggerStep(c) + (ProxyStep(c) + RestSteps(c)))
  }

  function DeleteRest(c: Config): seq<Step> {
    var foreign := Foreign(StackKeys(c.namespace));
    [foreign, foreign, foreign] + (DeleteManagedResource(c.namespace, CONTROL_PLANE_RESOURCE) + [Compute])
  }

  function DeleteSteps(c: Config): seq<Step> {
    if !Usable(c) then [Compute] + [Fail]
    else [Compute] + (EventLoggerDestroy(c.namespace) + (ProxyDestroy(c.namespace) + DeleteRest(c)))
  }

  /** The actuator: both methods stop at the first error. */
  class ShootActuator {
    const cluster: Cluster

    constructor (cluster: Cluster)
      ensures this.cluster == cluster
    {
      this.cluster := cluster;
    }

    method Reconcile(c: Config) returns (ok: bool)
      modifies cluster
      ensures cluster.After(ok) == Run(ReconcileSteps(c), old(cluster.objects), cluster.script, old(cluster.calls))
    {
      ghost var script := cluster.script;
      RunAppend([Compute], if Usable(c) then EventLoggerStep(c) + (ProxyStep(c) + RestSteps(c)) else [Fail],
                cluster.objects, script, cluster.calls);
      ok := cluster.Call(Compute);
      if !ok {
        return;
      }
      var eventLogger := EventLogger.New(cluster, c.namespace, c.eventLoggerImage);
      var shootRBACProxy := KubeRbacProxy.New(cluster, c.namespace);
      if eventLogger.None? || shootRBACProxy.None? {
        ok := cluster.Call(Fail);
        return;
      }
      RunAppend(EventLoggerStep(c), ProxyStep(c) + RestSteps(c), cluster.objects, script, cluster.calls);
      var eventLogging := IsShootEventLoggerEnabled(c);
      if eventLogging {
        ok := eventLogger.value.Deploy();
      } else {
        ok := eventLogger.value.Destroy();
      }
      if !ok {
        return;
      }
      RunAppend(ProxyStep(c), RestSteps(c), cluster.objects, script, cluster.calls);
      var nodeLogging := IsShootNodeLoggingEnabled(c);
      if nodeLogging {
        ok := shootRBACProxy.value.Deploy();
        if !ok {
          return;
        }
        RunAppend(PrepareChart(c), CreateManagedResource(c.namespace, CONTROL_PLANE_RESOURCE) + AfterResources(c),
                  cluster.objects, script, cluster.calls);
        ok := cluster.CallAll(PrepareChart(c));
        if !ok {
          return;
        }
        RunAppend(CreateManagedResource(c.namespace, CONTROL_PLANE_RESOURCE), AfterResources(c),
                  cluster.objects, script, cluster.calls);
        ok := DeployManagedResource(cluster, c.namespace, CONTROL_PLANE_RESOURCE);
        if !ok {
          return;
        }
        ok := cluster.CallAll(AfterResources(c));
      } else {
        ok := shootRBACProxy.value.Destroy();
        if !ok {
          return;
        }
        RunAppend([Remove(WEBHOOK)], Removes(LeftOverKeys(c.namespace)), cluster.objects, script, cluster.calls);
        ok := cluster.Call(Remove(WEBHOOK));
        if !ok {
          return;
        }
        ok := cluster.DeleteObjects(LeftOverKeys(c.namespace));
      }
    }

    method Delete(c: Config) returns (ok: bool)
      modifies cluster
      ensures cluster.After(ok) == Run(DeleteSteps(c), old(cluster.objects), cluster.script, old(cluster.calls))
    {
      ghost var script := cluster.script;
      ghost var rest := EventLoggerDestroy(c.namespace) + (ProxyDestroy(c.namespace) + DeleteRest(c));
      RunAppend([Compute], if Usable(c) then rest else [Fail], cluster.objects, script, cluster.calls);
      ok := cluster.Call(Compute);
      if !ok {
        return;
      }
      var eventLogger := EventLogger.New(cluster, c.namespace, c.eventLoggerImage);
      if eventLogger.None? {
        ok := cluster.Call(Fail);
        return;
      }
      RunAppend(EventLoggerDestroy(c.namespace), ProxyDestroy(c.namespace) + DeleteRest(c),
                cluster.objects, script, cluster.calls);
      ok := eventLogger.value.Destroy();
      if !ok {
        return;
      }
      var shootRBACProxy := KubeRbacProxy.New(cluster, c.namespace);
      RunAppend(ProxyDestroy(c.namespace), DeleteRest(c), cluster.objects, script, cluster.calls);
      ok := shootRBACProxy.value.Destroy();
      if !ok {
        return;
      }
      var foreign := Foreign(StackKeys(c.namespace));
      ghost var last := DeleteManagedResource(c.namespace, CONTROL_PLANE_RESOURCE) + [Compute];
      RunAppend([foreign, foreign, foreign], last, cluster.objects, script, cluster.calls);
      ok := cluster.CallAll([foreign, foreign, foreign]);
      if !ok {
        return;
      }
      RunAppend(DeleteManagedResource(c.namespace, CONTROL_PLANE_RESOURCE), [Compute],
                cluster.objects, script, cluster.calls);
      ok := DestroyManagedResource(cluster, c.namespace, CONTROL_PLANE_RESOURCE);
      if !ok {
        return;
      }
      ok := cluster.Call(Compute);
    }
  }
}
