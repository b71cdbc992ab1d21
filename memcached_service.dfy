/**
 * The syncer of a site's memcached Service
 * (pkg/controller/site/internal/sync/memcached_service.go): a headless
 * service whose selector points at the memcached stateful set, with exactly
 * two ports. The selector of a service that already exists cannot change.
 */
module MemcachedService {
  import opened Wrappers
  import opened Labels
  import opened KubeService
  import InternalSite

  const MemcachedPort: int := 11211
  const MemcachedExporterPort: int := 9150

  /**
   * The port list the syncer leaves: the first port is named `memcached`
   * on 11211 and the second `prometheus` on 9150; every other field comes
   * from an existing two-port list, or is zero.
   */
  function Ports(ports: seq<ServicePort>): (r: seq<ServicePort>)
    ensures |r| == 2
    ensures r[0].name == "memcached" && r[0].port == MemcachedPort
    ensures r[1].name == "prometheus" && r[1].port == MemcachedExporterPort
    ensures forall i :: 0 <= i < 2 ==>
      r[i].protocol == TwoPorts(ports)[i].protocol && r[i].targetPort == TwoPorts(ports)[i].targetPort &&
      r[i].nodePort == TwoPorts(ports)[i].nodePort
  {
    var base := TwoPorts(ports);
    [base[0].(name := "memcached", port := MemcachedPort), base[1].(name := "prometheus", port := MemcachedExporterPort)]
  }

  /** A second run leaves the ports as the first one left them. */
  lemma PortsIdempotent(ports: seq<ServicePort>)
    ensures Ports(Ports(ports)) == Ports(ports)
  {
  }

  /** The selector a created service may not lose: the component labels of the memcached stateful set. */
  function SelectorLabels(siteName: string, siteLabels: LabelSet): LabelSet
  {
    InternalSite.ComponentLabels(siteName, siteLabels, InternalSite.MemcachedStatefulSet)
  }

  /**
   * The syncer's closure. The labels and the cluster IP are written first;
   * a created service whose selector differs then fails with the
   * immutability error and keeps its selector and ports; otherwise the
   * selector becomes the stateful set's labels and the ports the two
   * memcached ports.
   */
  method Sync(out: Service, siteName: string, siteLabels: LabelSet, controllerLabels: LabelSet)
    returns (err: Option<string>)
    modifies out
    ensures out.created == old(out.created)
    ensures out.labels ==
      Relabel(old(out.labels), InternalSite.ComponentLabels(siteName, siteLabels, InternalSite.MemcachedService), controllerLabels)
    ensures out.clusterIP == "None"
    ensures err.Some? <==> old(out.created) && old(out.selector) != SelectorLabels(siteName, siteLabels)
    ensures err.Some? ==> err.value == SelectorImmutable && out.selector == old(out.selector) && out.ports == old(out.ports)
    ensures err.None? ==> out.selector == SelectorLabels(siteName, siteLabels) && out.ports == Ports(old(out.ports))
  {
    var objLabels := InternalSite.ComponentLabels(siteName, siteLabels, InternalSite.MemcachedService);
    out.labels := Relabel(out.labels, objLabels, controllerLabels);
    out.clusterIP := "None";
    var blocked := SyncSelector(out, SelectorLabels(siteName, siteLabels));
    if blocked {
      return Some(SelectorImmutable);
    }
    if |out.ports| != 2 {
      out.ports := [ZeroPort, ZeroPort];
    }
    out.ports := out.ports[0 := out.ports[0].(name := "memcached", port := MemcachedPort)];
    out.ports := out.ports[1 := out.ports[1].(name := "prometheus", port := MemcachedExporterPort)];
    return None;
  }
}
