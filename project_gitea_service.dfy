/**
 * The project controller's syncer of the Gitea Service
 * (pkg/controller/project/internal/sync/gitea_service.go): its labels are
 * replaced by the Gitea pod labels, its selector cannot change once it
 * exists, and it has exactly two ports, http 80 and ssh 22, forwarded to
 * Gitea's own ports (pkg/controller/project/internal/sync/gitea_config.go).
 * The helpers that build the pod labels and the selector labels are not
 * part of this model: their results are the parameters `podLabels` and
 * `giteaLabels`.
 */
module ProjectGiteaService {
  import opened Wrappers
  import opened Labels
  import opened KubeService

  const GiteaHTTPPort: int := 8080
  const GiteaSSHPort: int := 22

  /**
   * The port list a Gitea service syncer leaves: http on 80 forwarded to
   * `httpTarget` and ssh on 22 forwarded to `sshTarget`; protocol and node
   * port come from an existing two-port list, or are zero.
   */
  function GiteaPorts(ports: seq<ServicePort>, httpTarget: int, sshTarget: int): (r: seq<ServicePort>)
    ensures |r| == 2
    ensures r[0].name == "http" && r[0].port == 80 && r[0].targetPort == Int(httpTarget)
    ensures r[1].name == "ssh" && r[1].port == 22 && r[1].targetPort == Int(sshTarget)
    ensures forall i :: 0 <= i < 2 ==>
      r[i].protocol == TwoPorts(ports)[i].protocol && r[i].nodePort == TwoPorts(ports)[i].nodePort
  {
    var base := TwoPorts(ports);
    [base[0].(name := "http", port := 80, targetPort := Int(httpTarget)),
     base[1].(name := "ssh", port := 22, targetPort := Int(sshTarget))]
  }

  /** A second run leaves the ports as the first one left them. */
  lemma GiteaPortsIdempotent(ports: seq<ServicePort>, httpTarget: int, sshTarget: int)
    ensures GiteaPorts(GiteaPorts(ports, httpTarget, sshTarget), httpTarget, sshTarget) == GiteaPorts(ports, httpTarget, sshTarget)
  {
  }

  /** The two ports the service exposes are distinct, as Kubernetes requires of a service's ports. */
  lemma GiteaPortsDistinct(ports: seq<ServicePort>)
    ensures GiteaPorts(ports, GiteaHTTPPort, GiteaSSHPort)[0].port != GiteaPorts(ports, GiteaHTTPPort, GiteaSSHPort)[1].port
    ensures GiteaPorts(ports, GiteaHTTPPort, GiteaSSHPort)[0].name != GiteaPorts(ports, GiteaHTTPPort, GiteaSSHPort)[1].name
  {
  }

  /**
   * The syncer's closure: the labels are replaced; a created service whose
   * selector differs fails and keeps its selector and ports; otherwise the
   * selector is the Gitea labels and the ports the two Gitea ports.
   */
  method Sync(out: Service, podLabels: LabelSet, giteaLabels: LabelSet) returns (err: Option<string>)
    modifies out
    ensures out.created == old(out.created) && out.clusterIP == old(out.clusterIP)
    ensures out.labels == podLabels
    ensures err.Some? <==> old(out.created) && old(out.selector) != giteaLabels
    ensures err.Some? ==> err.value == SelectorImmutable && out.selector == old(out.selector) && out.ports == old(out.ports)
    ensures err.None? ==> out.selector == giteaLabels && out.ports == GiteaPorts(old(out.ports), GiteaHTTPPort, GiteaSSHPort)
  {
    out.labels := podLabels;
    var blocked := SyncSelector(out, giteaLabels);
    if blocked {
      return Some(SelectorImmutable);
    }
    if |out.ports| != 2 {
      out.ports := [ZeroPort, ZeroPort];
    }
    out.ports := out.ports[0 := out.ports[0].(name := "http", port := 80, targetPort := Int(GiteaHTTPPort))];
    out.ports := out.ports[1 := out.ports[1].(name := "ssh", port := 22, targetPort := Int(GiteaSSHPort))];
    return None;
  }
}
