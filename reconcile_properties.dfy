/**
 * What one Reconcile pass promises: the order of the passes (cleanup,
 * ownership, finalizer, validation, TLS sync, LB sync, status), which
 * collaborator calls each branch makes, and when the pass asks to be
 * requeued.
 */
module ReconcileProperties {
  import opened Wrappers
  import opened Text
  import opened Kube
  import opened GatewayTypes
  import opened Config
  import opened Ownership
  import opened Topology
  import opened TlsResolver
  import opened Reconciler

  /** The kind of a recorded call, forgetting its arguments. */
  datatype Kind = KDeleteLB | KPatchMeta | KPatchStatus | KEnsureTLS | KEnsureLB | KEvent

  function KindOf(a: Action): Kind {
    match a
    case DeleteLB(_) => KDeleteLB
    case PatchMeta(_) => KPatchMeta
    case PatchStatus(_, _) => KPatchStatus
    case EnsureTLS(_) => KEnsureTLS
    case EnsureLB(_, _) => KEnsureLB
    case Event(_, _, _) => KEvent
  }

  /** Some call in the trace is of this kind. */
  predicate Issues(actions: seq<Action>, kind: Kind) {
    exists k :: 0 <= k < |actions| && KindOf(actions[k]) == kind
  }

  lemma IssuesConcat(a: seq<Action>, b: seq<Action>, kind: Kind)
    ensures Issues(a + b, kind) <==> Issues(a, kind) || Issues(b, kind)
  {
    if Issues(a + b, kind) {
      var k :| 0 <= k < |a + b| && KindOf((a + b)[k]) == kind;
      if k < |a| {
        assert KindOf(a[k]) == kind;
      } else {
        assert KindOf(b[k - |a|]) == kind;
      }
    }
    if Issues(a, kind) {
      var k :| 0 <= k < |a| && KindOf(a[k]) == kind;
      assert (a + b)[k] == a[k];
    }
    if Issues(b, kind) {
      var k :| 0 <= k < |b| && KindOf(b[k]) == kind;
      assert (a + b)[|a| + k] == b[k];
    }
  }

  /** No call in the trace reaches the load-balancer or certificate provider. */
  predicate NoProviderCall(actions: seq<Action>) {
    !Issues(actions, KDeleteLB) && !Issues(actions, KEnsureTLS) && !Issues(actions, KEnsureLB)
  }

  /** The trace only writes status and records events. */
  predicate StatusOnly(actions: seq<Action>) {
    forall k :: 0 <= k < |actions| ==> actions[k].PatchStatus? || actions[k].Event?
  }

  lemma StatusOnlyFacts(actions: seq<Action>)
    requires StatusOnly(actions)
    ensures NoProviderCall(actions) && !Issues(actions, KPatchMeta)
  {
  }

  lemma IssuesOne(x: Action, kind: Kind)
    ensures Issues([x], kind) <==> KindOf(x) == kind
  {
    assert [x][0] == x;
  }

  lemma IssuesPair(x: Action, y: Action, kind: Kind)
    ensures Issues([x, y], kind) <==> KindOf(x) == kind || KindOf(y) == kind
  {
    assert [x, y][0] == x && [x, y][1] == y;
  }

  const AcceptedCondition: string := "Gateway is valid and accepted"

  // ------------------------------------------------------------ stages

  predicate Fetched(cluster: Cluster, key: NsName, c: Collaborators, gw: Gateway) {
    c.gatewayGet.None? && GetGateway(cluster.gateways, key) == Some(gw)
  }

  predicate BeingDeleted(gw: Gateway) {
    gw.deleting && GwFinalizer in gw.finalizers
  }

  /** The pass gets past the finalizer step for this Gateway. */
  predicate ReachesValidation(cfg: ControllerConfig, cluster: Cluster, key: NsName, c: Collaborators, gw: Gateway) {
    Fetched(cluster, key, c, gw) && !BeingDeleted(gw) && IsManagedGateway(gw, cluster, cfg) == Ok(true)
    && (GwFinalizer in gw.finalizers || c.metaPatch.None?)
  }

  /** Both builds succeed, so the pass talks to the providers. */
  predicate ReachesSync(cfg: ControllerConfig, cluster: Cluster, key: NsName, c: Collaborators, gw: Gateway) {
    ReachesValidation(cfg, cluster, key, c, gw) && BuildTLSSpec(gw, cluster).Ok? && BuildSpec(gw, cluster).Ok?
  }

  /** The provider answers that leave the Gateway not yet programmed. */
  predicate SyncTrouble(c: Collaborators) {
    c.ensureTLS.Err? || c.ensureLB.Err? || ToLower(c.ensureLB.value.status) != LbActiveStatus
  }

  // -------------------------------------------------- condition helpers

  lemma SetConditionTwice(conds: seq<Condition>, a: Condition, b: Condition)
    requires a.condType != b.condType
    ensures FindCondition(SetCondition(SetCondition(conds, a), b), a.condType) == Some(a)
    ensures FindCondition(SetCondition(SetCondition(conds, a), b), b.condType) == Some(b)
  {
  }

  /** Removing a finalizer the list does not hold changes nothing. */
  lemma {:induction false} RemoveAbsentFinalizer(fs: seq<string>, f: string)
    requires f !in fs
    ensures RemoveFinalizer(fs, f) == fs
  {
    if fs != [] {
      RemoveAbsentFinalizer(fs[1..], f);
      assert fs == [fs[0]] + fs[1..];
    }
  }

  /** Adding the finalizer and then removing it gives back a list without it. */
  lemma AddThenRemoveFinalizer(fs: seq<string>, f: string)
    requires f !in fs
    ensures RemoveFinalizer(fs + [f], f) == fs
  {
    RemoveFinalizerAppend(fs, f);
    RemoveAbsentFinalizer(fs, f);
  }

  lemma {:induction false} RemoveFinalizerAppend(fs: seq<string>, f: string)
    ensures RemoveFinalizer(fs + [f], f) == RemoveFinalizer(fs, f)
  {
    if fs == [] {
      assert [f][1..] == [];
    } else {
      assert (fs + [f])[1..] == fs[1..] + [f];
      RemoveFinalizerAppend(fs[1..], f);
    }
  }

  // ------------------------------------------------- the sync passes

  lemma NotProgrammedFacts(gw: Gateway, conds: seq<Condition>, reason: string, message: string)
    ensures var run := NotProgrammedSpec(gw, conds, reason, message);
      StatusOnly(run.actions) && run.result == RequeueSoon
      && |run.actions| == 2 && run.actions[0].PatchStatus? && run.actions[1] == Event("Warning", reason, message)
      && FindCondition(run.actions[0].conditions, "Programmed") == Some(Condition("Programmed", "False", reason, message, gw.generation))
      && (forall t :: t != "Programmed" ==> FindCondition(run.actions[0].conditions, t) == FindCondition(conds, t))
  {
  }

  lemma ProgramFacts(gw: Gateway, conds: seq<Condition>, lb: LbStatus, c: Collaborators)
    ensures var run := ProgramSpec(gw, conds, lb, c);
      StatusOnly(run.actions) && |run.actions| >= 1 && run.actions[0].PatchStatus?
      && run.actions[0].addresses == lb.externalAddresses
      && FindCondition(run.actions[0].conditions, "Programmed") == Some(Condition("Programmed", "True", "Programmed", "Successfully programmed", gw.generation))
      && (forall t :: t != "Programmed" ==> FindCondition(run.actions[0].conditions, t) == FindCondition(conds, t))
      && run.result == ReconcileResult(0, c.statusPatch)
      && (run.actions[|run.actions| - 1] == Event("Normal", "Synced", "Successfully synced") <==> c.statusPatch.None?)
  {
  }

  /** The answer to EnsureLB: a failure or a load balancer that is not active asks for a requeue. */
  lemma LbFacts(gw: Gateway, conds: seq<Condition>, info: GatewayInfo, certIds: map<string, string>, c: Collaborators)
    ensures var run := LbSpec(gw, conds, info, certIds, c);
      |run.actions| >= 2 && run.actions[0] == EnsureLB(info, certIds)
      && (forall k :: 1 <= k < |run.actions| ==> run.actions[k].PatchStatus? || run.actions[k].Event?)
      && (run.result.requeueAfterSeconds == 10 <==> c.ensureLB.Err? || ToLower(c.ensureLB.value.status) != LbActiveStatus)
      && (run.result.requeueAfterSeconds == 0 <==> !(c.ensureLB.Err? || ToLower(c.ensureLB.value.status) != LbActiveStatus))
      && (run.result.requeueAfterSeconds == 10 ==> run.result.err.None?)
  {
    match c.ensureLB
    case Err(m) => NotProgrammedFacts(gw, conds, "SyncFailed", m);
    case Ok(lb) =>
      if ToLower(lb.status) != LbActiveStatus {
        NotProgrammedFacts(gw, conds, "Created", LbWaitMessage);
      } else {
        ProgramFacts(gw, conds, lb, c);
      }
  }

  /** From EnsureLB on, no other provider call is made and the finalizer is not touched. */
  lemma LbCalls(gw: Gateway, conds: seq<Condition>, info: GatewayInfo, certIds: map<string, string>, c: Collaborators)
    ensures var run := LbSpec(gw, conds, info, certIds, c);
      !Issues(run.actions, KDeleteLB) && !Issues(run.actions, KPatchMeta) && !Issues(run.actions, KEnsureTLS)
  {
    var inner :=
      if c.ensureLB.Err? then NotProgrammedSpec(gw, conds, "SyncFailed", c.ensureLB.error)
      else if ToLower(c.ensureLB.value.status) != LbActiveStatus then NotProgrammedSpec(gw, conds, "Created", LbWaitMessage)
      else ProgramSpec(gw, conds, c.ensureLB.value, c);
    assert LbSpec(gw, conds, info, certIds, c) == Prepend([EnsureLB(info, certIds)], inner);
    if c.ensureLB.Err? {
      NotProgrammedFacts(gw, conds, "SyncFailed", c.ensureLB.error);
    } else if ToLower(c.ensureLB.value.status) != LbActiveStatus {
      NotProgrammedFacts(gw, conds, "Created", LbWaitMessage);
    } else {
      ProgramFacts(gw, conds, c.ensureLB.value, c);
    }
    StatusOnlyFacts(inner.actions);
    IssuesOne(EnsureLB(info, certIds), KDeleteLB);
    IssuesOne(EnsureLB(info, certIds), KPatchMeta);
    IssuesOne(EnsureLB(info, certIds), KEnsureTLS);
    IssuesConcat([EnsureLB(info, certIds)], inner.actions, KDeleteLB);
    IssuesConcat([EnsureLB(info, certIds)], inner.actions, KPatchMeta);
    IssuesConcat([EnsureLB(info, certIds)], inner.actions, KEnsureTLS);
  }

  /** The sync pass when EnsureTLS fails: no EnsureLB, SyncTLSFailed, requeue. */
  lemma SyncTlsFailedFacts(gw: Gateway, conds: seq<Condition>, tlsInfo: map<string, TLSConfigInfo>, info: GatewayInfo, c: Collaborators)
    requires c.ensureTLS.Err?
    ensures var run := SyncSpec(gw, conds, tlsInfo, info, c);
      |run.actions| >= 3 && run.actions[0].PatchStatus? && run.actions[1] == EnsureTLS(tlsInfo)
      && FindCondition(run.actions[0].conditions, "Accepted") == Some(Condition("Accepted", "True", "Accepted", AcceptedCondition, gw.generation))
      && (!Issues(run.actions, KDeleteLB) && !Issues(run.actions, KPatchMeta) && !Issues(run.actions, KEnsureLB))
      && run.result == RequeueSoon
  {
    var run := SyncSpec(gw, conds, tlsInfo, info, c);
    var accepted := SetCondition(conds, Condition("Accepted", "True", "Accepted", AcceptedCondition, gw.generation));
    var head := [PatchStatus(accepted, gw.addresses), EnsureTLS(tlsInfo)];
    var tail := NotProgrammedSpec(gw, accepted, "SyncTLSFailed", c.ensureTLS.error);
    NotProgrammedFacts(gw, accepted, "SyncTLSFailed", c.ensureTLS.error);
    StatusOnlyFacts(tail.actions);
    assert run.actions == head + tail.actions;
    IssuesPair(head[0], head[1], KDeleteLB);
    IssuesPair(head[0], head[1], KPatchMeta);
    IssuesPair(head[0], head[1], KEnsureLB);
    IssuesConcat(head, tail.actions, KDeleteLB);
    IssuesConcat(head, tail.actions, KPatchMeta);
    IssuesConcat(head, tail.actions, KEnsureLB);
  }

  /** The sync pass when EnsureTLS succeeds: EnsureLB with the returned certificate ids. */
  lemma SyncTlsOkShape(gw: Gateway, conds: seq<Condition>, tlsInfo: map<string, TLSConfigInfo>, info: GatewayInfo, c: Collaborators)
    requires c.ensureTLS.Ok?
    ensures var run := SyncSpec(gw, conds, tlsInfo, info, c);
      |run.actions| >= 3 && run.actions[0].PatchStatus? && run.actions[1] == EnsureTLS(tlsInfo)
      && FindCondition(run.actions[0].conditions, "Accepted") == Some(Condition("Accepted", "True", "Accepted", AcceptedCondition, gw.generation))
      && run.actions[2] == EnsureLB(info, c.ensureTLS.value)
      && (forall k :: 3 <= k < |run.actions| ==> run.actions[k].PatchStatus? || run.actions[k].Event?)
  {
    var accepted := SetCondition(conds, Condition("Accepted", "True", "Accepted", AcceptedCondition, gw.generation));
    LbFacts(gw, accepted, info, c.ensureTLS.value, c);
  }

  /** Once EnsureTLS succeeded the only provider call is the one EnsureLB, and the finalizer is not touched. */
  lemma SyncTlsOkCalls(gw: Gateway, conds: seq<Condition>, tlsInfo: map<string, TLSConfigInfo>, info: GatewayInfo, c: Collaborators)
    requires c.ensureTLS.Ok?
    ensures var run := SyncSpec(gw, conds, tlsInfo, info, c);
      !Issues(run.actions, KDeleteLB) && !Issues(run.actions, KPatchMeta) && Issues(run.actions, KEnsureLB)
  {
    var run := SyncSpec(gw, conds, tlsInfo, info, c);
    var accepted := SetCondition(conds, Condition("Accepted", "True", "Accepted", AcceptedCondition, gw.generation));
    var head := [PatchStatus(accepted, gw.addresses), EnsureTLS(tlsInfo)];
    var tail := LbSpec(gw, accepted, info, c.ensureTLS.value, c);
    assert run.actions == head + tail.actions;
    LbCalls(gw, accepted, info, c.ensureTLS.value, c);
    IssuesPair(head[0], head[1], KDeleteLB);
    IssuesPair(head[0], head[1], KPatchMeta);
    IssuesConcat(head, tail.actions, KDeleteLB);
    IssuesConcat(head, tail.actions, KPatchMeta);
    SyncTlsOkShape(gw, conds, tlsInfo, info, c);
    assert KindOf(run.actions[2]) == KEnsureLB;
  }

  /** The requeue decision once EnsureTLS succeeded is the one LbSpec makes. */
  lemma SyncTlsOkRequeue(gw: Gateway, conds: seq<Condition>, tlsInfo: map<string, TLSConfigInfo>, info: GatewayInfo, c: Collaborators)
    requires c.ensureTLS.Ok?
    ensures var run := SyncSpec(gw, conds, tlsInfo, info, c);
      (run.result.requeueAfterSeconds == 10 <==> SyncTrouble(c))
      && (run.result.requeueAfterSeconds == 0 <==> !SyncTrouble(c))
      && (run.result.requeueAfterSeconds == 10 ==> run.result.err.None?)
  {
    var accepted := SetCondition(conds, Condition("Accepted", "True", "Accepted", AcceptedCondition, gw.generation));
    LbFacts(gw, accepted, info, c.ensureTLS.value, c);
  }

  /** The sync pass: Accepted=True first, then EnsureTLS, then EnsureLB only after TLS succeeded. */
  lemma SyncFacts(gw: Gateway, conds: seq<Condition>, tlsInfo: map<string, TLSConfigInfo>, info: GatewayInfo, c: Collaborators)
    ensures var run := SyncSpec(gw, conds, tlsInfo, info, c);
      |run.actions| >= 3 && run.actions[0].PatchStatus? && run.actions[1] == EnsureTLS(tlsInfo)
      && FindCondition(run.actions[0].conditions, "Accepted") == Some(Condition("Accepted", "True", "Accepted", AcceptedCondition, gw.generation))
      && (!Issues(run.actions, KDeleteLB) && !Issues(run.actions, KPatchMeta))
      && (Issues(run.actions, KEnsureLB) <==> c.ensureTLS.Ok?)
      && (c.ensureTLS.Ok? ==> run.actions[2] == EnsureLB(info, c.ensureTLS.value))
      && (run.result.requeueAfterSeconds == 10 <==> SyncTrouble(c))
      && (run.result.requeueAfterSeconds == 0 <==> !SyncTrouble(c))
      && (run.result.requeueAfterSeconds == 10 ==> run.result.err.None?)
  {
    if c.ensureTLS.Err? {
      SyncTlsFailedFacts(gw, conds, tlsInfo, info, c);
    } else {
      SyncTlsOkShape(gw, conds, tlsInfo, info, c);
      SyncTlsOkCalls(gw, conds, tlsInfo, info, c);
      SyncTlsOkRequeue(gw, conds, tlsInfo, info, c);
    }
  }

  /** A build failure writes Accepted=False with the failing pass as the reason and ends the pass. */
  lemma ValidateFailedFacts(gw: Gateway, tls: Result<map<string, TLSConfigInfo>, TlsFailure>, built: Result<GatewayInfo, BuildError>, c: Collaborators)
    requires tls.Err? || built.Err?
    ensures var run := ValidateSpec(gw, tls, built, c);
      |run.actions| == 2 && run.actions[0].Event? && run.actions[1].PatchStatus?
      && StatusOnly(run.actions) && run.result == Done
      && var accepted := FindCondition(run.actions[1].conditions, "Accepted");
         accepted.Some? && accepted.value.status == "False"
         && accepted.value.reason == (if tls.Err? then "InvalidTLS" else "InvalidGateway")
         && run.actions[0].message == accepted.value.message
  {
  }

  /** Validation: a build failure ends the pass before the providers; otherwise the sync pass runs. */
  lemma ValidateFacts(gw: Gateway, tls: Result<map<string, TLSConfigInfo>, TlsFailure>, built: Result<GatewayInfo, BuildError>, c: Collaborators)
    ensures var run := ValidateSpec(gw, tls, built, c);
      (!Issues(run.actions, KPatchMeta) && !Issues(run.actions, KDeleteLB)) && |run.actions| >= 2
      && (tls.Ok? && built.Ok? ==> run == SyncSpec(gw, gw.conditions, tls.value, built.value, c))
  {
    if tls.Ok? && built.Ok? {
      SyncFacts(gw, gw.conditions, tls.value, built.value, c);
    } else {
      ValidateFailedFacts(gw, tls, built, c);
      StatusOnlyFacts(ValidateSpec(gw, tls, built, c).actions);
    }
  }

  /** With the Gateway programmed, the fourth call of the sync pass is the Programmed=True write. */
  lemma SyncProgrammed(gw: Gateway, conds: seq<Condition>, tlsInfo: map<string, TLSConfigInfo>, info: GatewayInfo, c: Collaborators)
    requires !SyncTrouble(c)
    ensures var run := SyncSpec(gw, conds, tlsInfo, info, c);
      |run.actions| >= 4 && run.actions[3].PatchStatus?
      && run.actions[3].addresses == c.ensureLB.value.externalAddresses
      && FindCondition(run.actions[3].conditions, "Programmed") == Some(Condition("Programmed", "True", "Programmed", "Successfully programmed", gw.generation))
      && FindCondition(run.actions[3].conditions, "Accepted") == Some(Condition("Accepted", "True", "Accepted", AcceptedCondition, gw.generation))
      && run.result == ReconcileResult(0, c.statusPatch)
  {
    var accepted := SetCondition(conds, Condition("Accepted", "True", "Accepted", AcceptedCondition, gw.generation));
    var lb := c.ensureLB.value;
    ProgramFacts(gw, accepted, lb, c);
    var prog := ProgramSpec(gw, accepted, lb, c);
    var head := [PatchStatus(accepted, gw.addresses), EnsureTLS(tlsInfo)];
    var lbRun := LbSpec(gw, accepted, info, c.ensureTLS.value, c);
    assert lbRun.actions == [EnsureLB(info, c.ensureTLS.value)] + prog.actions;
    assert SyncSpec(gw, conds, tlsInfo, info, c).actions == head + lbRun.actions;
  }

  // -------------------------------------------------- the whole pass

  /** Indexing past a prefix. */
  lemma Shift(pre: seq<Action>, xs: seq<Action>, k: int)
    requires 0 <= k < |xs|
    ensures (pre + xs)[|pre| + k] == xs[k]
  {
  }

  /** A Get failure is returned; a Gateway that is not there ends the pass quietly. */
  lemma FetchFailureOrMissing(cfg: ControllerConfig, cluster: Cluster, key: NsName, c: Collaborators)
    requires c.gatewayGet.Some? || GetGateway(cluster.gateways, key).None?
    ensures var run := ReconcileSpec(cfg, cluster, key, c);
      run.actions == [] && run.result.requeueAfterSeconds == 0 && run.result.err == c.gatewayGet
  {
  }

  /** A Gateway being deleted with the finalizer present gets the cleanup and nothing else. */
  lemma DeletionRunsCleanupOnly(cfg: ControllerConfig, cluster: Cluster, key: NsName, c: Collaborators, gw: Gateway)
    requires Fetched(cluster, key, c, gw) && BeingDeleted(gw)
    ensures var run := ReconcileSpec(cfg, cluster, key, c);
      |run.actions| >= 1 && run.actions[0] == DeleteLB(GwLabelId + "=" + gw.uid)
      && (!Issues(run.actions, KPatchStatus) && !Issues(run.actions, KEnsureTLS) && !Issues(run.actions, KEnsureLB) && !Issues(run.actions, KEvent))
      && (|run.actions| == 2 <==> c.deleteLB.None?) && |run.actions| <= 2
      && (c.deleteLB.None? ==> run.actions[1].PatchMeta? && GwFinalizer !in run.actions[1].finalizers)
      && run.result.requeueAfterSeconds == 0
      && run.result.err == (if c.deleteLB.Some? then c.deleteLB else c.metaPatch)
  {
  }

  /** The release of a Gateway: DeleteLB, then the finalizer removal, then Programmed=False. */
  lemma UnmanagedFacts(cfg: ControllerConfig, gw: Gateway, c: Collaborators)
    ensures var run := UnmanagedSpec(cfg, gw, c);
      |run.actions| >= 1 && run.actions[0] == DeleteLB(GwLabelId + "=" + gw.uid)
      && (!Issues(run.actions, KEnsureTLS) && !Issues(run.actions, KEnsureLB)) && run.result.requeueAfterSeconds == 0
      && (c.deleteLB.None? && c.metaPatch.None? ==>
            |run.actions| == 3 && run.actions[1].PatchMeta? && GwFinalizer !in run.actions[1].finalizers
            && run.actions[2].PatchStatus?
            && FindCondition(run.actions[2].conditions, "Programmed")
               == Some(Condition("Programmed", "False", "NoLongerManaged", "Gateway is no longer managed by " + cfg.controllerName, gw.generation))
            && run.result.err == c.statusPatch)
  {
  }

  /** A Gateway whose class is missing or belongs to another controller is released. */
  lemma UnmanagedIsReleased(cfg: ControllerConfig, cluster: Cluster, key: NsName, c: Collaborators, gw: Gateway)
    requires Fetched(cluster, key, c, gw) && !BeingDeleted(gw) && IsManagedGateway(gw, cluster, cfg) == Ok(false)
    ensures var run := ReconcileSpec(cfg, cluster, key, c);
      |run.actions| >= 1 && run.actions[0] == DeleteLB(GwLabelId + "=" + gw.uid)
      && (!Issues(run.actions, KEnsureTLS) && !Issues(run.actions, KEnsureLB)) && run.result.requeueAfterSeconds == 0
      && (c.deleteLB.None? && c.metaPatch.None? ==>
            |run.actions| == 3 && run.actions[1].PatchMeta? && GwFinalizer !in run.actions[1].finalizers
            && run.actions[2].PatchStatus?
            && FindCondition(run.actions[2].conditions, "Programmed")
               == Some(Condition("Programmed", "False", "NoLongerManaged", "Gateway is no longer managed by " + cfg.controllerName, gw.generation))
            && run.result.err == c.statusPatch)
  {
    assert ReconcileSpec(cfg, cluster, key, c) == UnmanagedSpec(cfg, gw, c);
    UnmanagedFacts(cfg, gw, c);
  }

  /** A managed Gateway's pass is the finalizer patch, when needed, followed by validation. */
  lemma ManagedPass(cfg: ControllerConfig, cluster: Cluster, key: NsName, c: Collaborators, gw: Gateway)
    requires Fetched(cluster, key, c, gw) && !BeingDeleted(gw) && IsManagedGateway(gw, cluster, cfg) == Ok(true)
    ensures var run := ReconcileSpec(cfg, cluster, key, c);
      if GwFinalizer in gw.finalizers then run == ValidateSpec(gw, BuildTLSSpec(gw, cluster), BuildSpec(gw, cluster), c)
      else
        |run.actions| >= 1 && run.actions[0] == PatchMeta(gw.finalizers + [GwFinalizer])
        && (c.metaPatch.Some? ==> run == Run([run.actions[0]], ReconcileResult(0, c.metaPatch)))
        && (c.metaPatch.None? ==> run == Prepend([run.actions[0]], ValidateSpec(gw, BuildTLSSpec(gw, cluster), BuildSpec(gw, cluster), c)))
  {
    assert ReconcileSpec(cfg, cluster, key, c) == ManagedSpec(gw, BuildTLSSpec(gw, cluster), BuildSpec(gw, cluster), c);
  }

  /** The same run, seen from the validation stage on. */
  lemma ValidationPass(cfg: ControllerConfig, cluster: Cluster, key: NsName, c: Collaborators, gw: Gateway)
    requires ReachesValidation(cfg, cluster, key, c, gw)
    ensures var run := ReconcileSpec(cfg, cluster, key, c);
      var v := ValidateSpec(gw, BuildTLSSpec(gw, cluster), BuildSpec(gw, cluster), c);
      var pre := if GwFinalizer in gw.finalizers then [] else [PatchMeta(gw.finalizers + [GwFinalizer])];
      run.actions == pre + v.actions && run.result == v.result && NoProviderCall(pre)
  {
    ManagedPass(cfg, cluster, key, c, gw);
  }

  /** The finalizer goes on before any TLS work and only once; a failed patch ends the pass. */
  lemma FinalizerBeforeTls(cfg: ControllerConfig, cluster: Cluster, key: NsName, c: Collaborators, gw: Gateway)
    requires Fetched(cluster, key, c, gw) && !BeingDeleted(gw) && IsManagedGateway(gw, cluster, cfg) == Ok(true)
    requires GwFinalizer !in gw.finalizers
    ensures var run := ReconcileSpec(cfg, cluster, key, c);
      |run.actions| >= 1 && run.actions[0] == PatchMeta(gw.finalizers + [GwFinalizer])
      && !Issues(run.actions[1..], KPatchMeta)
      && (c.metaPatch.Some? ==> NoProviderCall(run.actions) && run.result.err == c.metaPatch)
  {
    ManagedPass(cfg, cluster, key, c, gw);
    var run := ReconcileSpec(cfg, cluster, key, c);
    if c.metaPatch.None? {
      ValidateFacts(gw, BuildTLSSpec(gw, cluster), BuildSpec(gw, cluster), c);
      assert run.actions[1..] == ValidateSpec(gw, BuildTLSSpec(gw, cluster), BuildSpec(gw, cluster), c).actions;
    }
  }

  /** A Gateway that already carries the finalizer is never patched for it again. */
  lemma NoFinalizerPatchWhenPresent(cfg: ControllerConfig, cluster: Cluster, key: NsName, c: Collaborators, gw: Gateway)
    requires Fetched(cluster, key, c, gw) && !BeingDeleted(gw) && IsManagedGateway(gw, cluster, cfg) == Ok(true)
    requires GwFinalizer in gw.finalizers
    ensures !Issues(ReconcileSpec(cfg, cluster, key, c).actions, KPatchMeta)
  {
    ManagedPass(cfg, cluster, key, c, gw);
    ValidateFacts(gw, BuildTLSSpec(gw, cluster), BuildSpec(gw, cluster), c);
  }

  /** A TLS or topology failure: Accepted=False, no provider call, no requeue. */
  lemma InvalidGatewayStopsBeforeProviders(cfg: ControllerConfig, cluster: Cluster, key: NsName, c: Collaborators, gw: Gateway)
    requires ReachesValidation(cfg, cluster, key, c, gw)
    requires BuildTLSSpec(gw, cluster).Err? || BuildSpec(gw, cluster).Err?
    ensures var run := ReconcileSpec(cfg, cluster, key, c);
      NoProviderCall(run.actions) && run.result == Done && |run.actions| >= 1
      && run.actions[|run.actions| - 1].PatchStatus?
      && var accepted := FindCondition(run.actions[|run.actions| - 1].conditions, "Accepted");
         accepted.Some? && accepted.value.status == "False"
         && accepted.value.reason == (if BuildTLSSpec(gw, cluster).Err? then "InvalidTLS" else "InvalidGateway")
  {
    ValidationPass(cfg, cluster, key, c, gw);
    var v := ValidateSpec(gw, BuildTLSSpec(gw, cluster), BuildSpec(gw, cluster), c);
    ValidateFailedFacts(gw, BuildTLSSpec(gw, cluster), BuildSpec(gw, cluster), c);
    StatusOnlyFacts(v.actions);
    var pre := if GwFinalizer in gw.finalizers then [] else [PatchMeta(gw.finalizers + [GwFinalizer])];
    IssuesConcat(pre, v.actions, KDeleteLB);
    IssuesConcat(pre, v.actions, KEnsureTLS);
    IssuesConcat(pre, v.actions, KEnsureLB);
    Shift(pre, v.actions, 1);
  }

  /** From the sync stage on, the pass is the finalizer patch, when needed, followed by the sync pass. */
  lemma SyncStage(cfg: ControllerConfig, cluster: Cluster, key: NsName, c: Collaborators, gw: Gateway)
    requires ReachesSync(cfg, cluster, key, c, gw)
    ensures var run := ReconcileSpec(cfg, cluster, key, c);
      var s := SyncSpec(gw, gw.conditions, BuildTLSSpec(gw, cluster).value, BuildSpec(gw, cluster).value, c);
      var pre := if GwFinalizer in gw.finalizers then [] else [PatchMeta(gw.finalizers + [GwFinalizer])];
      run.actions == pre + s.actions && run.result == s.result && NoProviderCall(pre) && |pre| == (if GwFinalizer in gw.finalizers then 0 else 1)
  {
    ValidationPass(cfg, cluster, key, c, gw);
  }

  /** In the sync stage: Accepted=True is written, then EnsureTLS with the TLS info. */
  lemma SyncOrder(cfg: ControllerConfig, cluster: Cluster, key: NsName, c: Collaborators, gw: Gateway)
    requires ReachesSync(cfg, cluster, key, c, gw)
    ensures var run := ReconcileSpec(cfg, cluster, key, c);
      var p := if GwFinalizer in gw.finalizers then 0 else 1;
      |run.actions| >= p + 3
      && run.actions[p].PatchStatus?
      && FindCondition(run.actions[p].conditions, "Accepted") == Some(Condition("Accepted", "True", "Accepted", AcceptedCondition, gw.generation))
      && run.actions[p + 1] == EnsureTLS(BuildTLSSpec(gw, cluster).value)
  {
    SyncStage(cfg, cluster, key, c, gw);
    var s := SyncSpec(gw, gw.conditions, BuildTLSSpec(gw, cluster).value, BuildSpec(gw, cluster).value, c);
    SyncFacts(gw, gw.conditions, BuildTLSSpec(gw, cluster).value, BuildSpec(gw, cluster).value, c);
    var pre := if GwFinalizer in gw.finalizers then [] else [PatchMeta(gw.finalizers + [GwFinalizer])];
    Shift(pre, s.actions, 0);
    Shift(pre, s.actions, 1);
  }

  /** In the sync stage EnsureLB is called only when EnsureTLS succeeded, right after it, with the built topology and the certificate ids EnsureTLS returned; no load balancer is deleted. */
  lemma SyncLbOrder(cfg: ControllerConfig, cluster: Cluster, key: NsName, c: Collaborators, gw: Gateway)
    requires ReachesSync(cfg, cluster, key, c, gw)
    ensures var run := ReconcileSpec(cfg, cluster, key, c);
      var p := if GwFinalizer in gw.finalizers then 0 else 1;
      (Issues(run.actions, KEnsureLB) <==> c.ensureTLS.Ok?)
      && (c.ensureTLS.Ok? ==> |run.actions| >= p + 3 && run.actions[p + 2] == EnsureLB(BuildSpec(gw, cluster).value, c.ensureTLS.value))
      && !Issues(run.actions, KDeleteLB)
  {
    SyncStage(cfg, cluster, key, c, gw);
    var s := SyncSpec(gw, gw.conditions, BuildTLSSpec(gw, cluster).value, BuildSpec(gw, cluster).value, c);
    SyncFacts(gw, gw.conditions, BuildTLSSpec(gw, cluster).value, BuildSpec(gw, cluster).value, c);
    var pre := if GwFinalizer in gw.finalizers then [] else [PatchMeta(gw.finalizers + [GwFinalizer])];
    IssuesConcat(pre, s.actions, KDeleteLB);
    IssuesConcat(pre, s.actions, KEnsureLB);
    if c.ensureTLS.Ok? {
      Shift(pre, s.actions, 2);
    }
  }

  /** The requeue decision of a pass that reached validation. */
  lemma ValidatedRequeue(cfg: ControllerConfig, cluster: Cluster, key: NsName, c: Collaborators, gw: Gateway)
    requires ReachesValidation(cfg, cluster, key, c, gw)
    ensures var run := ReconcileSpec(cfg, cluster, key, c);
      (run.result.requeueAfterSeconds == 10 <==> ReachesSync(cfg, cluster, key, c, gw) && SyncTrouble(c))
      && (run.result.requeueAfterSeconds == 0 || run.result.requeueAfterSeconds == 10)
      && (run.result.requeueAfterSeconds == 10 ==> run.result.err.None?)
  {
    ValidationPass(cfg, cluster, key, c, gw);
    var tls := BuildTLSSpec(gw, cluster);
    var built := BuildSpec(gw, cluster);
    ValidateFacts(gw, tls, built, c);
    if tls.Ok? && built.Ok? {
      SyncFacts(gw, gw.conditions, tls.value, built.value, c);
    }
  }

  /** A pass asks for a ten-second requeue exactly when it reached the providers and they did not leave the Gateway programmed; otherwise it asks for none. */
  lemma RequeueIff(cfg: ControllerConfig, cluster: Cluster, key: NsName, c: Collaborators)
    ensures var run := ReconcileSpec(cfg, cluster, key, c);
      (run.result.requeueAfterSeconds == 10 <==> (exists gw :: ReachesSync(cfg, cluster, key, c, gw)) && SyncTrouble(c))
      && (run.result.requeueAfterSeconds == 0 || run.result.requeueAfterSeconds == 10)
      && (run.result.requeueAfterSeconds == 10 ==> run.result.err.None?)
  {
    if c.gatewayGet.Some? || GetGateway(cluster.gateways, key).None? {
      assert forall gw :: !Fetched(cluster, key, c, gw);
    } else {
      var gw := GetGateway(cluster.gateways, key).value;
      assert forall g :: Fetched(cluster, key, c, g) ==> g == gw;
      if BeingDeleted(gw) {
        DeletionRunsCleanupOnly(cfg, cluster, key, c, gw);
      } else if IsManagedGateway(gw, cluster, cfg) == Ok(false) {
        UnmanagedIsReleased(cfg, cluster, key, c, gw);
      } else if IsManagedGateway(gw, cluster, cfg).Err? {
      } else if !ReachesValidation(cfg, cluster, key, c, gw) {
        ManagedPass(cfg, cluster, key, c, gw);
      } else {
        ValidatedRequeue(cfg, cluster, key, c, gw);
      }
    }
  }

  /** A pass that does not reach the sync stage never calls EnsureTLS. */
  lemma NoSyncNoEnsureTls(cfg: ControllerConfig, cluster: Cluster, key: NsName, c: Collaborators)
    requires forall gw :: !ReachesSync(cfg, cluster, key, c, gw)
    ensures !Issues(ReconcileSpec(cfg, cluster, key, c).actions, KEnsureTLS)
  {
    if c.gatewayGet.None? && GetGateway(cluster.gateways, key).Some? {
      var gw := GetGateway(cluster.gateways, key).value;
      assert Fetched(cluster, key, c, gw) && !ReachesSync(cfg, cluster, key, c, gw);
      if BeingDeleted(gw) {
        DeletionRunsCleanupOnly(cfg, cluster, key, c, gw);
      } else if IsManagedGateway(gw, cluster, cfg) == Ok(false) {
        UnmanagedIsReleased(cfg, cluster, key, c, gw);
      } else if IsManagedGateway(gw, cluster, cfg).Err? {
        assert ReconcileSpec(cfg, cluster, key, c).actions == [];
      } else if !ReachesValidation(cfg, cluster, key, c, gw) {
        FinalizerBeforeTls(cfg, cluster, key, c, gw);
      } else {
        InvalidGatewayStopsBeforeProviders(cfg, cluster, key, c, gw);
      }
    }
  }

  /** A reconcile that reaches the sync stage uploads the TLS material. */
  lemma SyncIssuesEnsureTls(cfg: ControllerConfig, cluster: Cluster, key: NsName, c: Collaborators, gw: Gateway)
    requires ReachesSync(cfg, cluster, key, c, gw)
    ensures Issues(ReconcileSpec(cfg, cluster, key, c).actions, KEnsureTLS)
  {
    SyncStage(cfg, cluster, key, c, gw);
    var s := SyncSpec(gw, gw.conditions, BuildTLSSpec(gw, cluster).value, BuildSpec(gw, cluster).value, c);
    SyncFacts(gw, gw.conditions, BuildTLSSpec(gw, cluster).value, BuildSpec(gw, cluster).value, c);
    var pre := if GwFinalizer in gw.finalizers then [] else [PatchMeta(gw.finalizers + [GwFinalizer])];
    assert KindOf(s.actions[1]) == KEnsureTLS;
    IssuesConcat(pre, s.actions, KEnsureTLS);
  }

  /** EnsureTLS is called exactly when the pass reaches the sync stage. */
  lemma EnsureTlsIff(cfg: ControllerConfig, cluster: Cluster, key: NsName, c: Collaborators)
    ensures Issues(ReconcileSpec(cfg, cluster, key, c).actions, KEnsureTLS)
        <==> (exists gw :: ReachesSync(cfg, cluster, key, c, gw))
  {
    if gw :| ReachesSync(cfg, cluster, key, c, gw) {
      SyncIssuesEnsureTls(cfg, cluster, key, c, gw);
    } else {
      NoSyncNoEnsureTls(cfg, cluster, key, c);
    }
  }

  /** An active load balancer: Programmed=True with its addresses, in order, Accepted=True kept, and the status patch's answer returned. */
  lemma ProgrammedOnActive(cfg: ControllerConfig, cluster: Cluster, key: NsName, c: Collaborators, gw: Gateway)
    requires ReachesSync(cfg, cluster, key, c, gw) && !SyncTrouble(c)
    ensures var run := ReconcileSpec(cfg, cluster, key, c);
      var p := if GwFinalizer in gw.finalizers then 0 else 1;
      |run.actions| >= p + 4 && run.actions[p + 3].PatchStatus?
      && run.actions[p + 3].addresses == c.ensureLB.value.externalAddresses
      && FindCondition(run.actions[p + 3].conditions, "Programmed") == Some(Condition("Programmed", "True", "Programmed", "Successfully programmed", gw.generation))
      && FindCondition(run.actions[p + 3].conditions, "Accepted") == Some(Condition("Accepted", "True", "Accepted", AcceptedCondition, gw.generation))
      && run.result == ReconcileResult(0, c.statusPatch)
  {
    SyncStage(cfg, cluster, key, c, gw);
    var s := SyncSpec(gw, gw.conditions, BuildTLSSpec(gw, cluster).value, BuildSpec(gw, cluster).value, c);
    SyncProgrammed(gw, gw.conditions, BuildTLSSpec(gw, cluster).value, BuildSpec(gw, cluster).value, c);
    var pre := if GwFinalizer in gw.finalizers then [] else [PatchMeta(gw.finalizers + [GwFinalizer])];
    Shift(pre, s.actions, 3);
  }
}
