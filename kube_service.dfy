/**
 * The part of a Kubernetes `corev1.Service` the syncers write: labels,
 * cluster IP, selector and ports, and whether the object already exists
 * in the cluster (a non-zero creation timestamp). The selector of an
 * existing service cannot change, and every service syncer refuses with the
 * same message.
 */
module KubeService {
  import opened Labels

  const SelectorImmutable: string := "service selector is immutable"

  /** `intstr.IntOrString`: a port number or a port name. */
  datatype IntOrString = Int(intVal: int) | Str(strVal: string)

  /** A service port: the fields the syncers write, and the fields they leave to Kubernetes. */
  datatype ServicePort = ServicePort(name: string, protocol: string, port: int, targetPort: IntOrString, nodePort: int)

  /** A port as `make` allocates it: every field at its zero value. */
  const ZeroPort: ServicePort := ServicePort("", "", 0, Int(0), 0)

  class Service {
    var created: bool
    var labels: LabelSet
    var clusterIP: string
    var selector: LabelSet
    var ports: seq<ServicePort>

    constructor (created: bool, labels: LabelSet, clusterIP: string, selector: LabelSet, ports: seq<ServicePort>)
      ensures this.created == created && this.labels == labels && this.clusterIP == clusterIP
      ensures this.selector == selector && this.ports == ports
    {
      this.created := created;
      this.labels := labels;
      this.clusterIP := clusterIP;
      this.selector := selector;
      this.ports := ports;
    }
  }

  /** The list the two-port syncers start from: a list of two is kept, any other is replaced by two zero ports. */
  function TwoPorts(ports: seq<ServicePort>): (r: seq<ServicePort>)
    ensures |r| == 2
    ensures |ports| == 2 ==> r == ports
    ensures |ports| != 2 ==> r == [ZeroPort, ZeroPort]
  {
    if |ports| != 2 then [ZeroPort, ZeroPort] else ports
  }

  /**
   * The selector step every service syncer shares: a selector that differs
   * from `wanted` is replaced on a service not yet created, and blocks the
   * sync on one that exists, which then keeps its selector.
   */
  method SyncSelector(out: Service, wanted: LabelSet) returns (blocked: bool)
    modifies out
    ensures blocked <==> old(out.created) && old(out.selector) != wanted
    ensures blocked ==> out.selector == old(out.selector)
    ensures !blocked ==> out.selector == wanted
    ensures out.created == old(out.created) && out.labels == old(out.labels)
    ensures out.clusterIP == old(out.clusterIP) && out.ports == old(out.ports)
  {
    blocked := false;
    if wanted != out.selector {
      if !out.created {
        out.selector := wanted;
      } else {
        blocked := true;
      }
    }
  }
}
