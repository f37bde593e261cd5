/**
 * The load-balancer synchronizer (internal/service/lb/manager.go) against a
 * provider store of L7 load-balancer records.  The provider is a class whose
 * record list the create, update and delete calls change; which calls fail is
 * fixed when the store is built.
 */
module LbManager {
  import opened Wrappers
  import opened Text
  import opened Config
  import opened GatewayTypes
  import opened LbTranslate
  import opened ProviderApi

  /** A load-balancer record of the provider. */
  datatype LoadBalancer = LoadBalancer(
    id: string,
    lbType: string,
    status: string,
    labels: map<string, string>,
    externalAddresses: seq<string>,
    name: string,
    locationId: int,
    vhostZones: seq<VHostZone>,
    upstreamZones: seq<UpstreamZone>,
    sharedCluster: Option<bool>)

  /** The update input of an L7 load balancer; the optional Go fields the controller leaves nil are omitted. */
  datatype LbUpdate = LbUpdate(
    name: string,
    vhostZones: seq<VHostZone>,
    upstreamZones: seq<UpstreamZone>,
    clusterId: Option<string>,
    sharedCluster: Option<bool>)

  const L7Type: string := "l7"
  const MultipleLbError: string := "found more than one lb with same label"

  /** The label selector of a Gateway's load balancer. */
  function LabelSelector(uid: string): string {
    GwLabelId + "=" + uid
  }

  /** The provider's equality selector "key=value" on an L7 record. */
  predicate Selects(selector: string, lb: LoadBalancer) {
    lb.lbType == L7Type && LabelsMatch(selector, lb.labels)
  }

  /** The listing the collection call returns: the selected L7 records, in store order. */
  function Filter(bs: seq<LoadBalancer>, selector: string): (r: seq<LoadBalancer>)
    ensures |r| <= |bs|
    ensures forall lb :: lb in r <==> lb in bs && Selects(selector, lb)
    decreases |bs|
  {
    if bs == [] then []
    else
      assert forall lb :: lb in bs <==> lb == bs[0] || lb in bs[1..] by {
        assert bs == [bs[0]] + bs[1..];
      }
      (if Selects(selector, bs[0]) then [bs[0]] else []) + Filter(bs[1..], selector)
  }

  /** No selector picks out more than one record. */
  ghost predicate AtMostOneEach(bs: seq<LoadBalancer>) {
    forall s :: |Filter(bs, s)| <= 1
  }

  /** The record of a fresh load balancer. */
  function Created(n: nat, input: LbInput, status: string): (lb: LoadBalancer)
    ensures lb.labels == input.labels && lb.lbType == L7Type
  {
    LoadBalancer("lb-" + NatToString(n), L7Type, status, input.labels, [], input.name, input.locationId,
                 input.vhostZones, input.upstreamZones, None)
  }

  /** A record after an update: new name and zones, everything else as before. */
  function Applied(lb: LoadBalancer, u: LbUpdate): (r: LoadBalancer)
    ensures r.id == lb.id && r.lbType == lb.lbType && r.labels == lb.labels && r.status == lb.status
    ensures r.vhostZones == u.vhostZones && r.upstreamZones == u.upstreamZones && r.name == u.name
  {
    lb.(name := u.name, vhostZones := u.vhostZones, upstreamZones := u.upstreamZones, sharedCluster := u.sharedCluster)
  }

  /** The first index of a record with this id, or |bs| when there is none. */
  function IndexOfId(bs: seq<LoadBalancer>, id: string): (i: nat)
    ensures i <= |bs|
    ensures i < |bs| ==> bs[i].id == id
    ensures forall j :: 0 <= j < i ==> bs[j].id != id
    decreases |bs|
  {
    if bs == [] then 0 else if bs[0].id == id then 0 else 1 + IndexOfId(bs[1..], id)
  }

  /** The store without the records of this id. */
  function WithoutId(bs: seq<LoadBalancer>, id: string): seq<LoadBalancer>
    decreases |bs|
  {
    if bs == [] then [] else (if bs[0].id == id then [] else [bs[0]]) + WithoutId(bs[1..], id)
  }

  /** Deletion by id keeps exactly the records of other ids. */
  lemma {:induction false} WithoutIdMembers(bs: seq<LoadBalancer>, id: string)
    ensures forall lb :: lb in WithoutId(bs, id) <==> lb in bs && lb.id != id
    decreases |bs|
  {
    if bs != [] {
      WithoutIdMembers(bs[1..], id);
      assert forall lb :: lb in bs <==> lb == bs[0] || lb in bs[1..] by {
        assert bs == [bs[0]] + bs[1..];
      }
    }
  }

  /** The record EnsureLB hands back for a load balancer that is not active yet: its status only. */
  function StatusOnly(status: string): LoadBalancer {
    LoadBalancer("", "", status, map[], [], "", 0, [], [], None)
  }

  /** The update input built from a create input; without a cluster id the shared cluster is requested. */
  function UpdateOf(input: LbInput): (u: LbUpdate)
    ensures u.name == input.name && u.vhostZones == input.vhostZones && u.upstreamZones == input.upstreamZones
    ensures u.clusterId.None? ==> u.sharedCluster == Some(true)
  {
    var u := LbUpdate(input.name, input.vhostZones, input.upstreamZones, None, None);
    if u.clusterId.None? then u.(sharedCluster := Some(true)) else u
  }

  // ----- the decisions of EnsureLB and DeleteLB -----

  /** What EnsureLB does, given the listing and the translation it would compute. */
  datatype Plan = Fail(err: string) | Create(input: LbInput) | Wait(status: string) | Update(lb: LoadBalancer, update: LbUpdate)

  /** Whether EnsureLB translates the Gateway under this listing (no record, or one active record). */
  predicate Translates(listed: Result<seq<LoadBalancer>, ProviderError>) {
    listed.Ok? && (|listed.value| == 0 || (|listed.value| == 1 && EqualFold(listed.value[0].status, LbActiveStatus)))
  }

  function EnsurePlan(listed: Result<seq<LoadBalancer>, ProviderError>, tr: Translation): (p: Plan)
    requires tr.err.None? ==> tr.input.Some?
    ensures listed.Err? ==> p == Fail(listed.error.message)
    ensures listed.Ok? && |listed.value| > 1 ==> p == Fail(MultipleLbError)
    ensures p.Create? <==> listed.Ok? && |listed.value| == 0 && tr.err.None?
    ensures p.Create? ==> p.input == tr.input.value
    ensures p.Wait? <==> listed.Ok? && |listed.value| == 1 && !EqualFold(listed.value[0].status, LbActiveStatus)
    ensures p.Wait? ==> p.status == listed.value[0].status
    ensures p.Update? <==> Translates(listed) && |listed.value| == 1 && tr.err.None?
    ensures p.Update? ==> p.lb == listed.value[0] && p.update == UpdateOf(tr.input.value)
    ensures Translates(listed) && tr.err.Some? ==> p == Fail(tr.err.value)
  {
    match listed
    case Err(e) => Fail(e.message)
    case Ok(lbs) =>
      if |lbs| == 0 then
        (if tr.err.Some? then Fail(tr.err.value) else Create(tr.input.value))
      else if |lbs| > 1 then Fail(MultipleLbError)
      else if !EqualFold(lbs[0].status, LbActiveStatus) then Wait(lbs[0].status)
      else if tr.err.Some? then Fail(tr.err.value)
      else Update(lbs[0], UpdateOf(tr.input.value))
  }

  /** The step DeleteLB takes after listing: return an error (or none), or delete a record. */
  datatype DeleteStep = Return(err: Option<string>) | Remove(id: string) | IndexOutOfRange

  /** DeleteLB as written: an empty listing without error reaches lbs[0]. */
  function DeleteStepAsWritten(listed: Result<seq<LoadBalancer>, ProviderError>): DeleteStep {
    match listed
    case Err(NotFound(_)) => Return(None)
    case Err(Failure(m)) => Return(Some(m))
    case Ok(lbs) =>
      if |lbs| > 1 then Return(Some(MultipleLbError))
      else if |lbs| == 0 then IndexOutOfRange
      else Remove(lbs[0].id)
  }

  lemma DeleteStepAsWrittenPanicsOnEmptyListing()
    ensures DeleteStepAsWritten(Ok([])) == IndexOutOfRange
  {
  }

  /** DeleteLB with the empty listing treated like NotFound: nothing to delete, no error. */
  function DeleteStepOf(listed: Result<seq<LoadBalancer>, ProviderError>): (step: DeleteStep)
    ensures !step.IndexOutOfRange?
    ensures step.Remove? <==> listed.Ok? && |listed.value| == 1
    ensures step.Remove? ==> step.id == listed.value[0].id
    ensures listed.Err? ==> step == Return(if listed.error.NotFound? then None else Some(listed.error.message))
    ensures listed.Ok? && |listed.value| > 1 ==> step == Return(Some(MultipleLbError))
    ensures listed == Ok([]) ==> step == Return(None)
  {
    match listed
    case Err(NotFound(_)) => Return(None)
    case Err(Failure(m)) => Return(Some(m))
    case Ok(lbs) =>
      if |lbs| > 1 then Return(Some(MultipleLbError))
      else if |lbs| == 0 then Return(None)
      else Remove(lbs[0].id)
  }

  /** The corrected step agrees with the written one wherever the written one does not fail. */
  lemma DeleteStepAgrees(listed: Result<seq<LoadBalancer>, ProviderError>)
    requires !DeleteStepAsWritten(listed).IndexOutOfRange?
    ensures DeleteStepOf(listed) == DeleteStepAsWritten(listed)
  {
  }

  // ----- the provider store -----

  class Provider {
    var balancers: seq<LoadBalancer>
    var nextId: nat
    const listFailure: Option<ProviderError>
    const createFailure: Option<string>
    const updateFailure: Option<string>
    const deleteFailure: Option<ProviderError>
    /** The status the provider gives a load balancer it has just created. */
    const createdStatus: string

    constructor (bs: seq<LoadBalancer>, listFailure: Option<ProviderError>, createFailure: Option<string>,
                 updateFailure: Option<string>, deleteFailure: Option<ProviderError>, createdStatus: string)
      ensures balancers == bs && nextId == 0
      ensures this.listFailure == listFailure && this.createFailure == createFailure
      ensures this.updateFailure == updateFailure && this.deleteFailure == deleteFailure
      ensures this.createdStatus == createdStatus
    {
      balancers := bs;
      nextId := 0;
      this.listFailure := listFailure;
      this.createFailure := createFailure;
      this.updateFailure := updateFailure;
      this.deleteFailure := deleteFailure;
      this.createdStatus := createdStatus;
    }

    /** The L7 collection filtered by a label selector. */
    function Listed(selector: string): (r: Result<seq<LoadBalancer>, ProviderError>)
      reads this
      ensures listFailure.Some? <==> r.Err?
      ensures r.Ok? ==> forall lb :: lb in r.value <==> lb in balancers && Selects(selector, lb)
    {
      if listFailure.Some? then Err(listFailure.value) else Ok(Filter(balancers, selector))
    }

    method CreateL7(input: LbInput) returns (r: Result<LoadBalancer, string>)
      modifies this
      ensures createFailure.Some? ==> r == Err(createFailure.value) && balancers == old(balancers) && nextId == old(nextId)
      ensures createFailure.None? ==> r == Ok(Created(old(nextId), input, createdStatus))
      ensures createFailure.None? ==> balancers == old(balancers) + [r.value] && nextId == old(nextId) + 1
    {
      if createFailure.Some? {
        return Err(createFailure.value);
      }
      var lb := Created(nextId, input, createdStatus);
      balancers := balancers + [lb];
      nextId := nextId + 1;
      r := Ok(lb);
    }

    method UpdateL7(id: string, u: LbUpdate) returns (r: Result<LoadBalancer, string>)
      modifies this
      ensures nextId == old(nextId)
      ensures var i := IndexOfId(old(balancers), id);
        if updateFailure.Some? || i == |old(balancers)| then r.Err? && balancers == old(balancers)
        else r == Ok(Applied(old(balancers)[i], u)) && balancers == old(balancers)[i := r.value]
    {
      var i := IndexOfId(balancers, id);
      if updateFailure.Some? {
        return Err(updateFailure.value);
      }
      if i == |balancers| {
        return Err("load balancer " + id + " not found");
      }
      var lb := Applied(balancers[i], u);
      balancers := balancers[i := lb];
      r := Ok(lb);
    }

    method DeleteL7(id: string) returns (err: Option<ProviderError>)
      modifies this
      ensures nextId == old(nextId)
      ensures deleteFailure.Some? ==> err == deleteFailure && balancers == old(balancers)
      ensures deleteFailure.None? ==> err.None? && balancers == WithoutId(old(balancers), id)
    {
      if deleteFailure.Some? {
        return deleteFailure;
      }
      balancers := WithoutId(balancers, id);
      err := None;
    }
  }

  // ----- properties of the store operations -----

  lemma FilterAppend(bs: seq<LoadBalancer>, lb: LoadBalancer, s: string)
    ensures Filter(bs + [lb], s) == Filter(bs, s) + (if Selects(s, lb) then [lb] else [])
  {
    FilterConcat(bs, [lb], s);
    assert [lb][1..] == [];
  }

  /** Replacing a record by one that the same selectors pick keeps every listing's length. */
  lemma {:induction false} FilterReplace(bs: seq<LoadBalancer>, i: nat, lb: LoadBalancer, s: string)
    requires i < |bs|
    requires Selects(s, lb) <==> Selects(s, bs[i])
    ensures |Filter(bs[i := lb], s)| == |Filter(bs, s)|
    decreases |bs|
  {
    if i > 0 {
      FilterReplace(bs[1..], i - 1, lb, s);
      assert bs[i := lb][1..] == bs[1..][i - 1 := lb];
    } else {
      assert bs[i := lb][1..] == bs[1..];
    }
  }

  lemma {:induction false} FilterWithout(bs: seq<LoadBalancer>, id: string, s: string)
    ensures |Filter(WithoutId(bs, id), s)| <= |Filter(bs, s)|
    ensures Filter(WithoutId(bs, id), s) == WithoutId(Filter(bs, s), id)
    decreases |bs|
  {
    if bs != [] {
      FilterWithout(bs[1..], id, s);
      var head := if bs[0].id == id then [] else [bs[0]];
      FilterConcat(head, WithoutId(bs[1..], id), s);
      var fhead := if Selects(s, bs[0]) then [bs[0]] else [];
      WithoutIdConcat(fhead, Filter(bs[1..], s), id);
      WithoutIdShrinks(Filter(bs[1..], s), id);
    }
  }

  lemma {:induction false} FilterConcat(a: seq<LoadBalancer>, b: seq<LoadBalancer>, s: string)
    ensures Filter(a + b, s) == Filter(a, s) + Filter(b, s)
    decreases |a|
  {
    if a == [] {
      assert a + b == b;
    } else {
      FilterConcat(a[1..], b, s);
      assert (a + b)[0] == a[0];
      assert (a + b)[1..] == a[1..] + b;
    }
  }

  lemma {:induction false} WithoutIdConcat(a: seq<LoadBalancer>, b: seq<LoadBalancer>, id: string)
    ensures WithoutId(a + b, id) == WithoutId(a, id) + WithoutId(b, id)
    decreases |a|
  {
    if a == [] {
      assert a + b == b;
    } else {
      WithoutIdConcat(a[1..], b, id);
      var h := if a[0].id == id then [] else [a[0]];
      assert (a + b)[0] == a[0];
      assert (a + b)[1..] == a[1..] + b;
      assert WithoutId(a + b, id) == h + WithoutId(a[1..] + b, id);
      assert WithoutId(a, id) == h + WithoutId(a[1..], id);
      assert h + (WithoutId(a[1..], id) + WithoutId(b, id)) == (h + WithoutId(a[1..], id)) + WithoutId(b, id);
    }
  }

  lemma {:induction false} WithoutIdShrinks(bs: seq<LoadBalancer>, id: string)
    ensures |WithoutId(bs, id)| <= |bs|
    decreases |bs|
  {
    if bs != [] {
      WithoutIdShrinks(bs[1..], id);
    }
  }

  /** A fresh record labelled for a Gateway is picked out by that Gateway's selector and by no other. */
  lemma CreatedSelectedOnlyByItsGateway(n: nat, input: LbInput, status: string, uid: string, s: string)
    requires input.labels == map[GwLabelId := uid]
    ensures Selects(s, Created(n, input, status)) <==> s == LabelSelector(uid)
  {
    var lb := Created(n, input, status);
    if s == LabelSelector(uid) {
      assert GwLabelId in lb.labels;
    }
  }

  /** A successful translation puts on the record it creates: the Gateway's name and label. */
  lemma TranslatedInputLabels(info: GatewayInfo, tlsInfo: map<string, string>, loc: string, tr: Translation)
    requires Translated(info, tlsInfo, loc, tr) && tr.err.None?
    ensures tr.input.Some?
    ensures tr.input.value.labels == map[GwLabelId := info.uid]
    ensures tr.input.value.name == GetLoadBalancerName(info.uid)
  {
  }

  /** An unparsable location id fails EnsureLB before any provider write, so location 1 is never sent. */
  lemma BadLocationNeverReachesProvider(info: GatewayInfo, tlsInfo: map<string, string>, loc: string, tr: Translation,
                                        listed: Result<seq<LoadBalancer>, ProviderError>)
    requires Translated(info, tlsInfo, loc, tr) && Atoi(loc).None?
    ensures tr.err.Some?
    ensures Translates(listed) ==> EnsurePlan(listed, tr).Fail?
  {
  }

  // ----- the synchronizer -----

  class Manager {
    const provider: Provider

    constructor (p: Provider)
      ensures provider == p
    {
      provider := p;
    }

    /**
     * EnsureLB: list the Gateway's load balancers and create, wait for or
     * update the one it should have.  `tr` is the translation when the
     * listing calls for one; `loc` is the SC_LOCATION_ID value or its default.
     */
    method EnsureLB(info: GatewayInfo, hostCertMap: map<string, string>, loc: string)
      returns (r: Result<LoadBalancer, string>, ghost tr: Translation)
      modifies provider
      ensures Translates(old(provider.Listed(LabelSelector(info.uid)))) ==> Translated(info, hostCertMap, loc, tr)
      ensures tr.err.None? ==> tr.input.Some?
      ensures provider.nextId == old(provider.nextId) + (if r.Ok? && EnsurePlan(old(provider.Listed(LabelSelector(info.uid))), tr).Create? then 1 else 0)
      ensures var p := EnsurePlan(old(provider.Listed(LabelSelector(info.uid))), tr);
        && (p.Fail? ==> r == Err(p.err) && provider.balancers == old(provider.balancers))
        && (p.Wait? ==> r == Ok(StatusOnly(p.status)) && provider.balancers == old(provider.balancers))
        && (p.Create? && provider.createFailure.Some? ==>
              r == Err(provider.createFailure.value) && provider.balancers == old(provider.balancers))
        && (p.Create? && provider.createFailure.None? ==>
              r == Ok(Created(old(provider.nextId), p.input, provider.createdStatus))
              && provider.balancers == old(provider.balancers) + [r.value])
        && (p.Update? ==>
              var i := IndexOfId(old(provider.balancers), p.lb.id);
              i < |old(provider.balancers)|
              && (provider.updateFailure.Some? ==> r.Err? && provider.balancers == old(provider.balancers))
              && (provider.updateFailure.None? ==>
                    r == Ok(Applied(old(provider.balancers)[i], p.update))
                    && provider.balancers == old(provider.balancers)[i := r.value]))
      ensures old(AtMostOneEach(provider.balancers)) ==> AtMostOneEach(provider.balancers)
    {
      var selector := LabelSelector(info.uid);
      var listed := provider.Listed(selector);
      tr := Translation(None, Some(EmptyZonesError));
      if listed.Err? {
        r := Err(listed.error.message);
        return;
      }
      var lbs := listed.value;
      if |lbs| == 0 {
        var t := Translate(info, hostCertMap, loc);
        tr := t;
        if t.err.Some? {
          r := Err(t.err.value);
          return;
        }
        ghost var before := provider.balancers;
        r := provider.CreateL7(t.input.value);
        if r.Ok? {
          CreateKeepsAtMostOne(before, r.value, info.uid, t.input.value, old(provider.nextId), provider.createdStatus);
        }
        return;
      }
      if |lbs| > 1 {
        r := Err(MultipleLbError);
        return;
      }
      var lb := lbs[0];
      if !EqualFold(lb.status, LbActiveStatus) {
        r := Ok(StatusOnly(lb.status));
        return;
      }
      var t := Translate(info, hostCertMap, loc);
      tr := t;
      if t.err.Some? {
        r := Err(t.err.value);
        return;
      }
      var input := t.input.value;
      var update := LbUpdate(input.name, input.vhostZones, input.upstreamZones, None, None);
      if update.clusterId.None? {
        update := update.(sharedCluster := Some(true));
      }
      assert lb in provider.balancers;
      ghost var before := provider.balancers;
      ListedIsStored(before, lb.id);
      r := provider.UpdateL7(lb.id, update);
      if r.Ok? {
        UpdateKeepsAtMostOne(before, IndexOfId(before, lb.id), update);
      }
    }

    /**
     * DeleteLB: list by the selector and delete the only record.  An empty
     * listing returns without error (see DeleteStepAsWritten for the code as
     * written).
     */
    method DeleteLB(labelSelector: string) returns (err: Option<string>)
      modifies provider
      ensures provider.nextId == old(provider.nextId)
      ensures var step := DeleteStepOf(old(provider.Listed(labelSelector)));
        && (step.Return? ==> err == step.err && provider.balancers == old(provider.balancers))
        && (step.Remove? && provider.deleteFailure.Some? ==>
              err == Some(provider.deleteFailure.value.message) && provider.balancers == old(provider.balancers))
        && (step.Remove? && provider.deleteFailure.None? ==>
              err.None? && provider.balancers == WithoutId(old(provider.balancers), step.id)
              && (forall lb :: lb in provider.balancers <==> lb in old(provider.balancers) && lb.id != step.id)
              && Filter(provider.balancers, labelSelector) == [])
      ensures old(AtMostOneEach(provider.balancers)) ==> AtMostOneEach(provider.balancers)
    {
      var listed := provider.Listed(labelSelector);
      if listed.Err? {
        if listed.error.NotFound? {
          return None;
        }
        return Some(listed.error.message);
      }
      var lbs := listed.value;
      if |lbs| > 1 {
        return Some(MultipleLbError);
      }
      if |lbs| == 0 {
        return None;
      }
      ghost var before := provider.balancers;
      var e := provider.DeleteL7(lbs[0].id);
      if e.Some? {
        return Some(e.value.message);
      }
      err := None;
      WithoutIdMembers(before, lbs[0].id);
      DeleteEmptiesListing(before, labelSelector);
      DeleteKeepsAtMostOne(before, lbs[0].id);
    }
  }

  lemma ListedIsStored(bs: seq<LoadBalancer>, id: string)
    requires exists lb :: lb in bs && lb.id == id
    ensures IndexOfId(bs, id) < |bs|
  {
    var lb :| lb in bs && lb.id == id;
    var k :| 0 <= k < |bs| && bs[k] == lb;
  }

  /** Creating a record for a Gateway that had none keeps every selector at one record at most. */
  lemma CreateKeepsAtMostOne(bs: seq<LoadBalancer>, lb: LoadBalancer, uid: string, input: LbInput, n: nat, status: string)
    requires Filter(bs, LabelSelector(uid)) == []
    requires input.labels == map[GwLabelId := uid] && lb == Created(n, input, status)
    ensures AtMostOneEach(bs) ==> AtMostOneEach(bs + [lb])
  {
    if AtMostOneEach(bs) {
      forall s
        ensures |Filter(bs + [lb], s)| <= 1
      {
        FilterAppend(bs, lb, s);
        CreatedSelectedOnlyByItsGateway(n, input, status, uid, s);
      }
    }
  }

  lemma UpdateKeepsAtMostOne(bs: seq<LoadBalancer>, i: nat, u: LbUpdate)
    requires i < |bs|
    ensures AtMostOneEach(bs) ==> AtMostOneEach(bs[i := Applied(bs[i], u)])
  {
    var bs' := bs[i := Applied(bs[i], u)];
    if AtMostOneEach(bs) {
      forall s
        ensures |Filter(bs', s)| <= 1
      {
        FilterReplace(bs, i, Applied(bs[i], u), s);
        assert |Filter(bs, s)| <= 1;
      }
    }
  }

  lemma DeleteKeepsAtMostOne(bs: seq<LoadBalancer>, id: string)
    ensures AtMostOneEach(bs) ==> AtMostOneEach(WithoutId(bs, id))
  {
    if AtMostOneEach(bs) {
      forall s
        ensures |Filter(WithoutId(bs, id), s)| <= 1
      {
        FilterWithout(bs, id, s);
        assert |Filter(bs, s)| <= 1;
      }
    }
  }

  /** Deleting the only listed record leaves the selector with no record. */
  lemma DeleteEmptiesListing(bs: seq<LoadBalancer>, s: string)
    requires |Filter(bs, s)| == 1
    ensures Filter(WithoutId(bs, Filter(bs, s)[0].id), s) == []
  {
    var f := Filter(bs, s);
    FilterWithout(bs, f[0].id, s);
    assert f == [f[0]];
    assert WithoutId(f, f[0].id) == WithoutId([], f[0].id);
  }
}
