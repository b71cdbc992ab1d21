/**
 * The project-namespace controller's syncer of the Gitea Service
 * (pkg/controller/projectns/internal/sync/gitea_service.go): the same
 * two-port service, with the labels merged rather than replaced. The Gitea
 * components of the project namespace and the Gitea port numbers of that
 * package are not part of this model: the component labels and the two
 * target ports are parameters.
 */
module ProjectNsGiteaService {
  import opened Wrappers
  import opened Labels
  import opened KubeService
  import ProjectGiteaService

  /**
   * The syncer's closure: the labels are merged; a created service whose
   * selector differs from the Gitea deployment's labels fails and keeps its
   * selector and ports; otherwise the selector is those labels and the
   * ports the two Gitea ports.
   */
  method Sync(out: Service, serviceLabels: LabelSet, deploymentLabels: LabelSet, controllerLabels: LabelSet,
              httpTarget: int, sshTarget: int)
    returns (err: Option<string>)
    modifies out
    ensures out.created == old(out.created) && out.clusterIP == old(out.clusterIP)
    ensures out.labels == Relabel(old(out.labels), serviceLabels, controllerLabels)
    ensures err.Some? <==> old(out.created) && old(out.selector) != deploymentLabels
    ensures err.Some? ==> err.value == SelectorImmutable && out.selector == old(out.selector) && out.ports == old(out.ports)
    ensures err.None? ==>
      out.selector == deploymentLabels && out.ports == ProjectGiteaService.GiteaPorts(old(out.ports), httpTarget, sshTarget)
  {
    out.labels := Relabel(out.labels, serviceLabels, controllerLabels);
    var blocked := SyncSelector(out, deploymentLabels);
    if blocked {
      return Some(SelectorImmutable);
    }
    if |out.ports| != 2 {
      out.ports := [ZeroPort, ZeroPort];
    }
    out.ports := out.ports[0 := out.ports[0].(name := "http", port := 80, targetPort := Int(httpTarget))];
    out.ports := out.ports[1 := out.ports[1].(name := "ssh", port := 22, targetPort := Int(sshTarget))];
    return None;
  }
}
