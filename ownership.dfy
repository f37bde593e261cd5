/**
 * The ownership filter (isManagedGateway in internal/gateway/controller/gateway.go),
 * shared by the reconcile loop and the event mappers.
 */
module Ownership {
  import opened Wrappers
  import opened Kube

  /** The controller's identity and its optional restriction to one GatewayClass name ("" means any). */
  datatype ControllerConfig = ControllerConfig(controllerName: string, gatewayClassName: string)

  /**
   * isManagedGateway: the Gateway's class is fetched by name; a missing class
   * means unmanaged, any other read error is returned; the class's controller
   * name must be ours, and a non-empty class-name restriction must match.
   */
  function IsManagedGateway(gw: Gateway, cluster: Cluster, cfg: ControllerConfig): (r: Result<bool, string>)
    ensures r.Err? <==> cluster.classReadFails
    ensures r == Ok(true) <==>
      && !cluster.classReadFails
      && gw.className in cluster.classes
      && cluster.classes[gw.className].controllerName == cfg.controllerName
      && (cfg.gatewayClassName == "" || cluster.classes[gw.className].name == cfg.gatewayClassName)
  {
    if cluster.classReadFails then Err("failed to get GatewayClass " + gw.className)
    else if gw.className !in cluster.classes then Ok(false)
    else
      var gwClass := cluster.classes[gw.className];
      if gwClass.controllerName != cfg.controllerName then Ok(false)
      else if cfg.gatewayClassName != "" && gwClass.name != cfg.gatewayClassName then Ok(false)
      else Ok(true)
  }
}
