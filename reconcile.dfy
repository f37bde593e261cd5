/**
 * The Gateway reconcile loop (Reconcile, cleanup and setGatewayStatusCondition
 * in internal/gateway/controller/gateway.go).  One pass reads the cluster
 * snapshot, asks the collaborators (the load-balancer and TLS managers, the
 * API server's patch calls), and records every call it makes as an action.
 * ReconcileSpec is the pass as a value; GatewayReconciler.Reconcile performs
 * it on a fetched Gateway object, updating the object's finalizers and
 * conditions in place.
 */
module Reconciler {
  import opened Wrappers
  import opened Text
  import opened Kube
  import opened GatewayTypes
  import opened Config
  import opened Ownership
  import opened Topology
  import opened TopologyBuild
  import opened TlsResolver

  /** The fields of the provider's load balancer that reconcile reads. */
  datatype LbStatus = LbStatus(status: string, externalAddresses: seq<string>)

  /** What each collaborator answers during one pass; None means the call succeeded. */
  datatype Collaborators = Collaborators(
    gatewayGet: Option<string>,
    deleteLB: Option<string>,
    metaPatch: Option<string>,
    statusPatch: Option<string>,
    ensureTLS: Result<map<string, string>, string>,
    ensureLB: Result<LbStatus, string>)

  /** A call made to a collaborator. */
  datatype Action =
    | DeleteLB(selector: string)
    | PatchMeta(finalizers: seq<string>)
    | PatchStatus(conditions: seq<Condition>, addresses: seq<string>)
    | EnsureTLS(tlsInfo: map<string, TLSConfigInfo>)
    | EnsureLB(info: GatewayInfo, certIds: map<string, string>)
    | Event(eventType: string, reason: string, message: string)

  datatype ReconcileResult = ReconcileResult(requeueAfterSeconds: int, err: Option<string>)

  const Done: ReconcileResult := ReconcileResult(0, None)
  const RequeueSoon: ReconcileResult := ReconcileResult(10, None)

  function ResultOf(err: Option<string>): ReconcileResult {
    ReconcileResult(0, err)
  }

  /** A pass: the calls made, in order, and what Reconcile returns. */
  datatype Run = Run(actions: seq<Action>, result: ReconcileResult)

  // ------------------------------------------------------ library helpers

  /** meta.FindStatusCondition: the first condition of the type. */
  function FindCondition(conds: seq<Condition>, condType: string): (r: Option<Condition>)
    ensures r.Some? ==> r.value in conds && r.value.condType == condType
    ensures r.None? ==> forall k :: 0 <= k < |conds| ==> conds[k].condType != condType
  {
    if conds == [] then None
    else if conds[0].condType == condType then Some(conds[0])
    else
      assert forall k :: 1 <= k < |conds| ==> conds[k] == conds[1..][k - 1];
      FindCondition(conds[1..], condType)
  }

  /** meta.SetStatusCondition: the first condition of the type is replaced, else the condition is appended. */
  function SetCondition(conds: seq<Condition>, c: Condition): (r: seq<Condition>)
    ensures FindCondition(conds, c.condType).None? ==> r == conds + [c]
    ensures FindCondition(conds, c.condType).Some? ==> |r| == |conds|
    ensures FindCondition(r, c.condType) == Some(c)
    ensures forall t :: t != c.condType ==> FindCondition(r, t) == FindCondition(conds, t)
  {
    if conds == [] then [c]
    else if conds[0].condType == c.condType then [c] + conds[1..]
    else
      var rest := SetCondition(conds[1..], c);
      assert ([conds[0]] + rest)[1..] == rest;
      [conds[0]] + rest
  }

  /** controllerutil.RemoveFinalizer: every occurrence goes, the rest stay in order. */
  function RemoveFinalizer(fs: seq<string>, f: string): (r: seq<string>)
    ensures f !in r
    ensures forall x :: x != f ==> (x in r <==> x in fs)
    ensures |r| <= |fs|
  {
    if fs == [] then []
    else (if fs[0] == f then [] else [fs[0]]) + RemoveFinalizer(fs[1..], f)
  }

  // --------------------------------------------------------- the pass

  function LabelSelector(gw: Gateway): string {
    GwLabelId + "=" + gw.uid
  }

  function Cond(gw: Gateway, condType: string, status: string, reason: string, message: string): Condition {
    Condition(condType, status, reason, message, gw.generation)
  }

  /** cleanup: delete the load balancer by label, then drop the finalizer with a metadata patch. */
  datatype CleanupRun = CleanupRun(actions: seq<Action>, finalizers: seq<string>, err: Option<string>)

  function CleanupSpec(gw: Gateway, finalizers: seq<string>, c: Collaborators): CleanupRun {
    if c.deleteLB.Some? then CleanupRun([DeleteLB(LabelSelector(gw))], finalizers, c.deleteLB)
    else
      var fs := RemoveFinalizer(finalizers, GwFinalizer);
      CleanupRun([DeleteLB(LabelSelector(gw)), PatchMeta(fs)], fs, c.metaPatch)
  }

  const LbWaitMessage: string := "Load balancer created, waiting for status=Active"

  function Prepend(actions: seq<Action>, run: Run): Run {
    Run(actions + run.actions, run.result)
  }

  /** The Programmed=True write with the load balancer's addresses, then the Synced event. */
  function ProgramSpec(gw: Gateway, conds: seq<Condition>, lb: LbStatus, c: Collaborators): Run {
    var programmed :=
      [PatchStatus(SetCondition(conds, Cond(gw, "Programmed", "True", "Programmed", "Successfully programmed")), lb.externalAddresses)];
    if c.statusPatch.Some? then Run(programmed, ResultOf(c.statusPatch))
    else Run(programmed + [Event("Normal", "Synced", "Successfully synced")], Done)
  }

  /** A Programmed=False write and its warning event, then a requeue after ten seconds. */
  function NotProgrammedSpec(gw: Gateway, conds: seq<Condition>, reason: string, message: string): Run {
    Run([PatchStatus(SetCondition(conds, Cond(gw, "Programmed", "False", reason, message)), gw.addresses),
         Event("Warning", reason, message)], RequeueSoon)
  }

  /** From EnsureLB on. */
  function LbSpec(gw: Gateway, conds: seq<Condition>, info: GatewayInfo, certIds: map<string, string>, c: Collaborators): Run {
    Prepend([EnsureLB(info, certIds)],
      match c.ensureLB
      case Err(m) => NotProgrammedSpec(gw, conds, "SyncFailed", m)
      case Ok(lb) =>
        if ToLower(lb.status) != LbActiveStatus then NotProgrammedSpec(gw, conds, "Created", LbWaitMessage)
        else ProgramSpec(gw, conds, lb, c))
  }

  /** From the Accepted=True write on: EnsureTLS, EnsureLB, then the Programmed condition. */
  function SyncSpec(gw: Gateway, conds: seq<Condition>, tlsInfo: map<string, TLSConfigInfo>, info: GatewayInfo, c: Collaborators): Run {
    var accepted := SetCondition(conds, Cond(gw, "Accepted", "True", "Accepted", "Gateway is valid and accepted"));
    Prepend([PatchStatus(accepted, gw.addresses), EnsureTLS(tlsInfo)],
      match c.ensureTLS
      case Err(m) => NotProgrammedSpec(gw, accepted, "SyncTLSFailed", m)
      case Ok(certIds) => LbSpec(gw, accepted, info, certIds, c))
  }

  /** The TLS pass, then the topology pass, given their results; a failure of either writes Accepted=False and ends the pass. */
  function ValidateSpec(gw: Gateway, tls: Result<map<string, TLSConfigInfo>, TlsFailure>, built: Result<GatewayInfo, BuildError>, c: Collaborators): Run {
    match tls
    case Err(e) =>
      Run([Event("Warning", "InvalidTLS", e.Message()),
           PatchStatus(SetCondition(gw.conditions, Cond(gw, "Accepted", "False", "InvalidTLS", e.Message())), gw.addresses)], Done)
    case Ok(tlsInfo) =>
      match built
      case Err(e) =>
        Run([Event("Warning", "InvalidGateway", e.Message()),
             PatchStatus(SetCondition(gw.conditions, Cond(gw, "Accepted", "False", "InvalidGateway", e.Message())), gw.addresses)], Done)
      case Ok(info) => SyncSpec(gw, gw.conditions, tlsInfo, info, c)
  }

  /** A Gateway this controller no longer owns: cleanup, then Programmed=False with reason NoLongerManaged. */
  function UnmanagedSpec(cfg: ControllerConfig, gw: Gateway, c: Collaborators): Run {
    var cl := CleanupSpec(gw, gw.finalizers, c);
    if cl.err.Some? then Run(cl.actions, ResultOf(cl.err))
    else
      var conds := SetCondition(gw.conditions,
        Cond(gw, "Programmed", "False", "NoLongerManaged", "Gateway is no longer managed by " + cfg.controllerName));
      Run(cl.actions + [PatchStatus(conds, gw.addresses)], ResultOf(c.statusPatch))
  }

  /** A Gateway this controller owns: the finalizer is added when absent, then the Gateway is validated. */
  function ManagedSpec(gw: Gateway, tls: Result<map<string, TLSConfigInfo>, TlsFailure>, built: Result<GatewayInfo, BuildError>, c: Collaborators): Run {
    if GwFinalizer !in gw.finalizers then
      var fs := gw.finalizers + [GwFinalizer];
      if c.metaPatch.Some? then Run([PatchMeta(fs)], ResultOf(c.metaPatch))
      else Prepend([PatchMeta(fs)], ValidateSpec(gw, tls, built, c))
    else ValidateSpec(gw, tls, built, c)
  }

  /** Reconcile of the Gateway with the given key. */
  function ReconcileSpec(cfg: ControllerConfig, cluster: Cluster, key: NsName, c: Collaborators): Run {
    if c.gatewayGet.Some? then Run([], ResultOf(c.gatewayGet))
    else match GetGateway(cluster.gateways, key)
      case None => Run([], Done)
      case Some(gw) =>
        if gw.deleting && GwFinalizer in gw.finalizers then
          var cl := CleanupSpec(gw, gw.finalizers, c);
          Run(cl.actions, ResultOf(cl.err))
        else match IsManagedGateway(gw, cluster, cfg)
          case Err(m) => Run([], ResultOf(Some(m)))
          case Ok(managed) =>
            if !managed then UnmanagedSpec(cfg, gw, c) else ManagedSpec(gw, BuildTLSSpec(gw, cluster), BuildSpec(gw, cluster), c)
  }

  lemma ConcatAssoc(a: seq<Action>, b: seq<Action>, c: seq<Action>)
    ensures (a + b) + c == a + (b + c)
  {
  }

  // ------------------------------------------------------ the objects

  /** The fetched Gateway as Reconcile holds it: its spec fixed, its finalizers and status changed in place. */
  class GatewayObject {
    const gateway: Gateway
    var finalizers: seq<string>
    var conditions: seq<Condition>
    var addresses: seq<string>

    constructor (gw: Gateway)
      ensures gateway == gw && finalizers == gw.finalizers && conditions == gw.conditions && addresses == gw.addresses
    {
      gateway := gw;
      finalizers := gw.finalizers;
      conditions := gw.conditions;
      addresses := gw.addresses;
    }
  }

  /** The reconciler: its configuration and the record of the calls it has made. */
  class GatewayReconciler {
    const config: ControllerConfig
    var actions: seq<Action>

    constructor (cfg: ControllerConfig)
      ensures config == cfg && actions == []
    {
      config := cfg;
      actions := [];
    }

    /** cleanup: DeleteLB by label; on success the finalizer is removed and the metadata patched. */
    method Cleanup(gw: GatewayObject, c: Collaborators) returns (err: Option<string>)
      modifies this, gw
      ensures var cl := CleanupSpec(gw.gateway, old(gw.finalizers), c);
        actions == old(actions) + cl.actions && gw.finalizers == cl.finalizers && err == cl.err
      ensures gw.conditions == old(gw.conditions) && gw.addresses == old(gw.addresses)
    {
      actions := actions + [DeleteLB(GwLabelId + "=" + gw.gateway.uid)];
      if c.deleteLB.Some? {
        return c.deleteLB;
      }
      gw.finalizers := RemoveFinalizer(gw.finalizers, GwFinalizer);
      actions := actions + [PatchMeta(gw.finalizers)];
      return c.metaPatch;
    }

    /** setGatewayStatusCondition: upsert the condition, then patch the status. */
    method SetGatewayStatusCondition(gw: GatewayObject, condType: string, reason: string, message: string, status: string, c: Collaborators)
      returns (err: Option<string>)
      modifies this, gw
      ensures gw.conditions == SetCondition(old(gw.conditions), Cond(gw.gateway, condType, status, reason, message))
      ensures actions == old(actions) + [PatchStatus(gw.conditions, gw.addresses)]
      ensures gw.finalizers == old(gw.finalizers) && gw.addresses == old(gw.addresses) && err == c.statusPatch
    {
      gw.conditions := SetCondition(gw.conditions, Condition(condType, status, reason, message, gw.gateway.generation));
      actions := actions + [PatchStatus(gw.conditions, gw.addresses)];
      return c.statusPatch;
    }

    method RecordEvent(eventType: string, reason: string, message: string)
      modifies this
      ensures actions == old(actions) + [Event(eventType, reason, message)]
    {
      actions := actions + [Event(eventType, reason, message)];
    }

    /** The Programmed=True write, carrying the load balancer's external addresses. */
    method Program(gw: GatewayObject, lb: LbStatus, c: Collaborators) returns (res: ReconcileResult)
      modifies this, gw
      ensures var run := ProgramSpec(gw.gateway, old(gw.conditions), lb, c);
        actions == old(actions) + run.actions && res == run.result
    {
      var addresses: seq<string> := [];
      var i := 0;
      while i < |lb.externalAddresses|
        invariant 0 <= i <= |lb.externalAddresses|
        invariant addresses == lb.externalAddresses[..i]
      {
        addresses := addresses + [lb.externalAddresses[i]];
        i := i + 1;
      }
      assert lb.externalAddresses[..i] == lb.externalAddresses;
      gw.addresses := addresses;
      gw.conditions := SetCondition(gw.conditions, Condition("Programmed", "True", "Programmed", "Successfully programmed", gw.gateway.generation));
      actions := actions + [PatchStatus(gw.conditions, gw.addresses)];
      if c.statusPatch.Some? {
        return ReconcileResult(0, c.statusPatch);
      }
      RecordEvent("Normal", "Synced", "Successfully synced");
      return ReconcileResult(0, None);
    }

    /** A Programmed=False write and its event; the pass asks to be requeued in ten seconds. */
    method NotProgrammed(gw: GatewayObject, reason: string, message: string, c: Collaborators) returns (res: ReconcileResult)
      modifies this, gw
      requires gw.addresses == gw.gateway.addresses
      ensures var run := NotProgrammedSpec(gw.gateway, old(gw.conditions), reason, message);
        actions == old(actions) + run.actions && res == run.result
    {
      var _ := SetGatewayStatusCondition(gw, "Programmed", reason, message, "False", c);
      RecordEvent("Warning", reason, message);
      return ReconcileResult(10, None);
    }

    /** EnsureLB and what follows from its answer. */
    method SyncLb(gw: GatewayObject, info: GatewayInfo, certIds: map<string, string>, c: Collaborators) returns (res: ReconcileResult)
      modifies this, gw
      requires gw.addresses == gw.gateway.addresses
      ensures var run := LbSpec(gw.gateway, old(gw.conditions), info, certIds, c);
        actions == old(actions) + run.actions && res == run.result
    {
      actions := actions + [EnsureLB(info, certIds)];
      if c.ensureLB.Err? {
        res := NotProgrammed(gw, "SyncFailed", c.ensureLB.error, c);
        return;
      }
      var lb := c.ensureLB.value;
      if ToLower(lb.status) != LbActiveStatus {
        res := NotProgrammed(gw, "Created", "Load balancer created, waiting for status=Active", c);
        return;
      }
      res := Program(gw, lb, c);
    }

    /** The sync half of Reconcile, after both builds succeeded. */
    method Sync(gw: GatewayObject, tlsInfo: map<string, TLSConfigInfo>, info: GatewayInfo, c: Collaborators) returns (res: ReconcileResult)
      modifies this, gw
      requires gw.addresses == gw.gateway.addresses
      ensures var run := SyncSpec(gw.gateway, old(gw.conditions), tlsInfo, info, c);
        actions == old(actions) + run.actions && res == run.result
    {
      ghost var start := actions;
      ghost var spec := SyncSpec(gw.gateway, gw.conditions, tlsInfo, info, c);
      var _ := SetGatewayStatusCondition(gw, "Accepted", "Accepted", "Gateway is valid and accepted", "True", c);
      actions := actions + [EnsureTLS(tlsInfo)];
      ghost var head := [PatchStatus(gw.conditions, gw.addresses), EnsureTLS(tlsInfo)];
      assert actions == start + head;
      ghost var tail: Run;
      if c.ensureTLS.Err? {
        tail := NotProgrammedSpec(gw.gateway, gw.conditions, "SyncTLSFailed", c.ensureTLS.error);
        res := NotProgrammed(gw, "SyncTLSFailed", c.ensureTLS.error, c);
      } else {
        tail := LbSpec(gw.gateway, gw.conditions, info, c.ensureTLS.value, c);
        res := SyncLb(gw, info, c.ensureTLS.value, c);
      }
      assert spec == Prepend(head, tail);
      ConcatAssoc(start, head, tail.actions);
    }

    /** The validation half of Reconcile: buildTLSInfo, then buildGatewayInfo, then Sync. */
    method Validate(gw: GatewayObject, cluster: Cluster, c: Collaborators,
                    ghost tls: Result<map<string, TLSConfigInfo>, TlsFailure>, ghost built: Result<GatewayInfo, BuildError>)
      returns (res: ReconcileResult)
      modifies this, gw
      requires gw.conditions == gw.gateway.conditions && gw.addresses == gw.gateway.addresses
      requires tls == BuildTLSSpec(gw.gateway, cluster) && built == BuildSpec(gw.gateway, cluster)
      ensures var run := ValidateSpec(gw.gateway, tls, built, c);
        actions == old(actions) + run.actions && res == run.result
    {
      var tlsInfo := BuildTLSInfo(gw.gateway, cluster);
      if tlsInfo.Err? {
        RecordEvent("Warning", "InvalidTLS", tlsInfo.error.Message());
        var _ := SetGatewayStatusCondition(gw, "Accepted", "InvalidTLS", tlsInfo.error.Message(), "False", c);
        return ReconcileResult(0, None);
      }
      var gwInfo := BuildGatewayInfo(gw.gateway, cluster);
      if gwInfo.Err? {
        RecordEvent("Warning", "InvalidGateway", gwInfo.error.Message());
        var _ := SetGatewayStatusCondition(gw, "Accepted", "InvalidGateway", gwInfo.error.Message(), "False", c);
        return ReconcileResult(0, None);
      }
      res := Sync(gw, tlsInfo.value, gwInfo.value, c);
    }

    /** The unmanaged branch of Reconcile. */
    method ReleaseGateway(gw: GatewayObject, c: Collaborators) returns (res: ReconcileResult)
      modifies this, gw
      requires gw.finalizers == gw.gateway.finalizers && gw.conditions == gw.gateway.conditions
      requires gw.addresses == gw.gateway.addresses
      ensures var run := UnmanagedSpec(config, gw.gateway, c);
        actions == old(actions) + run.actions && res == run.result
    {
      var err := Cleanup(gw, c);
      if err.Some? {
        return ReconcileResult(0, err);
      }
      err := SetGatewayStatusCondition(gw, "Programmed", "NoLongerManaged",
        "Gateway is no longer managed by " + config.controllerName, "False", c);
      return ReconcileResult(0, err);
    }

    /** controllerutil.AddFinalizer followed by the metadata patch. */
    method AddFinalizer(gw: GatewayObject, c: Collaborators) returns (err: Option<string>)
      modifies this, gw
      ensures gw.finalizers == old(gw.finalizers) + [GwFinalizer]
      ensures actions == old(actions) + [PatchMeta(gw.finalizers)] && err == c.metaPatch
      ensures gw.conditions == old(gw.conditions) && gw.addresses == old(gw.addresses)
    {
      gw.finalizers := gw.finalizers + [GwFinalizer];
      actions := actions + [PatchMeta(gw.finalizers)];
      return c.metaPatch;
    }

    /** The managed branch when the finalizer is missing: add it, then validate unless the patch failed. */
    method FinalizeAndValidate(gw: GatewayObject, cluster: Cluster, c: Collaborators,
                               ghost tls: Result<map<string, TLSConfigInfo>, TlsFailure>, ghost built: Result<GatewayInfo, BuildError>)
      returns (res: ReconcileResult)
      modifies this, gw
      requires gw.finalizers == gw.gateway.finalizers && gw.conditions == gw.gateway.conditions
      requires gw.addresses == gw.gateway.addresses && GwFinalizer !in gw.finalizers
      requires tls == BuildTLSSpec(gw.gateway, cluster) && built == BuildSpec(gw.gateway, cluster)
      ensures var run := ManagedSpec(gw.gateway, tls, built, c);
        actions == old(actions) + run.actions && res == run.result
    {
      var err := AddFinalizer(gw, c);
      if err.Some? {
        return ReconcileResult(0, err);
      }
      res := Validate(gw, cluster, c, tls, built);
      ConcatAssoc(old(actions), [PatchMeta(gw.gateway.finalizers + [GwFinalizer])], ValidateSpec(gw.gateway, tls, built, c).actions);
    }

    /** The managed branch of Reconcile: add the finalizer when absent, then validate. */
    method Manage(gw: GatewayObject, cluster: Cluster, c: Collaborators,
                  ghost tls: Result<map<string, TLSConfigInfo>, TlsFailure>, ghost built: Result<GatewayInfo, BuildError>)
      returns (res: ReconcileResult)
      modifies this, gw
      requires gw.finalizers == gw.gateway.finalizers && gw.conditions == gw.gateway.conditions
      requires gw.addresses == gw.gateway.addresses
      requires tls == BuildTLSSpec(gw.gateway, cluster) && built == BuildSpec(gw.gateway, cluster)
      ensures var run := ManagedSpec(gw.gateway, tls, built, c);
        actions == old(actions) + run.actions && res == run.result
    {
      if GwFinalizer !in gw.finalizers {
        res := FinalizeAndValidate(gw, cluster, c, tls, built);
      } else {
        res := Validate(gw, cluster, c, tls, built);
      }
    }

    /** Reconcile: fetch, deletion cleanup, ownership, finalizer, validation, sync. */
    method Reconcile(cluster: Cluster, key: NsName, c: Collaborators) returns (res: ReconcileResult)
      modifies this
      ensures var run := ReconcileSpec(config, cluster, key, c);
        actions == old(actions) + run.actions && res == run.result
    {
      if c.gatewayGet.Some? {
        return ReconcileResult(0, c.gatewayGet);
      }
      var fetched := GetGateway(cluster.gateways, key);
      if fetched.None? {
        return ReconcileResult(0, None);
      }
      var gw := new GatewayObject(fetched.value);
      if gw.gateway.deleting && GwFinalizer in gw.finalizers {
        var err := Cleanup(gw, c);
        return ReconcileResult(0, err);
      }
      var managed := IsManagedGateway(gw.gateway, cluster, config);
      if managed.Err? {
        return ReconcileResult(0, Some(managed.error));
      }
      if !managed.value {
        res := ReleaseGateway(gw, c);
      } else {
        res := Manage(gw, cluster, c, BuildTLSSpec(gw.gateway, cluster), BuildSpec(gw.gateway, cluster));
      }
    }
  }
}
