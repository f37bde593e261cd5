/**
 * The event mappers of internal/gateway/controller/handlers.go: an HTTPRoute,
 * Service or Secret change is turned into the keys of the managed Gateways it
 * affects.  Reference tests are pure; the mappers are loops over the cluster
 * snapshot, proved against fold specifications.
 */
module Mappers {
  import opened Wrappers
  import opened Text
  import opened Kube
  import opened Ownership
  import opened Matching

  // ----- getParentGatewayKeys ------------------------------------------------

  /** A parent reference whose kind and group are absent or the Gateway's. */
  predicate IsGatewayParent(ref: ParentRef) {
    (ref.kind.None? || ref.kind.value == "Gateway") && (ref.group.None? || ref.group.value == GatewayGroup)
  }

  /** "namespace/name" of a parent reference, the namespace defaulting to the route's. */
  function ParentKey(routeNS: string, ref: ParentRef): (key: string)
    ensures '/' in key
  {
    var ns := if ref.namespace.Some? then ref.namespace.value else routeNS;
    assert (ns + "/" + ref.name)[|ns|] == '/';
    ns + "/" + ref.name
  }

  /** The keys of the Gateway parents, in reference order. */
  function ParentKeys(refs: seq<ParentRef>, routeNS: string): (keys: seq<string>)
    ensures |keys| <= |refs|
    ensures forall k :: k in keys ==> '/' in k
    ensures forall k :: k in keys <==> exists i :: 0 <= i < |refs| && IsGatewayParent(refs[i]) && k == ParentKey(routeNS, refs[i])
  {
    if refs == [] then []
    else
      var rest := ParentKeys(refs[1..], routeNS);
      assert forall i :: 1 <= i < |refs| ==> refs[i] == refs[1..][i - 1];
      if IsGatewayParent(refs[0]) then [ParentKey(routeNS, refs[0])] + rest else rest
  }

  /** getParentGatewayKeys. */
  function GetParentGatewayKeys(route: HTTPRoute): seq<string> {
    ParentKeys(route.parentRefs, route.namespace)
  }

  /** The keys of a list of references are those of its two halves, one after the other. */
  lemma {:induction false} ParentKeysConcat(a: seq<ParentRef>, b: seq<ParentRef>, routeNS: string)
    ensures ParentKeys(a + b, routeNS) == ParentKeys(a, routeNS) + ParentKeys(b, routeNS)
  {
    if a == [] {
      assert a + b == b;
    } else {
      assert (a + b)[0] == a[0] && (a + b)[1..] == a[1..] + b;
      ParentKeysConcat(a[1..], b, routeNS);
    }
  }

  /** One reference gives its key exactly when it names a Gateway. */
  lemma ParentKeysOne(ref: ParentRef, routeNS: string)
    ensures ParentKeys([ref], routeNS) == if IsGatewayParent(ref) then [ParentKey(routeNS, ref)] else []
  {
    assert [ref][1..] == [];
  }

  /** A route attached to a Gateway lists that Gateway's key among its parent keys. */
  lemma AttachedGatewayIsParent(route: HTTPRoute, gw: Gateway)
    requires IsRouteAttachedToGateway(route, gw)
    ensures gw.namespace + "/" + gw.name in GetParentGatewayKeys(route)
  {
    var i :| 0 <= i < |route.parentRefs| && ParentRefTargets(route.parentRefs[i], route.namespace, gw);
    assert ParentKey(route.namespace, route.parentRefs[i]) == gw.namespace + "/" + gw.name;
  }

  // ----- cache.SplitMetaNamespaceKey -----------------------------------------

  /** "name" is a key without namespace, "ns/name" a namespaced one; more separators are an error. */
  function SplitMetaNamespaceKey(key: string): Result<NsName, string> {
    var parts := Split(key, '/');
    if |parts| == 1 then Ok(NsName("", parts[0]))
    else if |parts| == 2 then Ok(NsName(parts[0], parts[1]))
    else Err("unexpected key format: " + Quote(key))
  }

  /** Splitting the key of a namespace and a name without separators gives them back. */
  lemma SplitKeyOfJoin(ns: string, name: string)
    requires '/' !in ns && '/' !in name
    ensures SplitMetaNamespaceKey(ns + "/" + name) == Ok(NsName(ns, name))
  {
    assert Join([ns, name], '/') == ns + "/" + name;
    SplitJoin([ns, name], '/');
  }

  /** A key with a separator that splits is the namespace, the separator and the name. */
  lemma JoinOfSplitKey(key: string)
    requires '/' in key && SplitMetaNamespaceKey(key).Ok?
    ensures var n := SplitMetaNamespaceKey(key).value; key == n.namespace + "/" + n.name
  {
    var parts := Split(key, '/');
    assert |parts| >= 2;
    JoinSplit(key, '/');
    assert parts[1..][1..] == [];
  }

  /** A key with two separators is refused. */
  lemma SplitKeyRejectsTwoSeparators(a: string, b: string, c: string)
    requires '/' !in a && '/' !in b && '/' !in c
    ensures SplitMetaNamespaceKey(a + "/" + b + "/" + c).Err?
  {
    assert [a, b, c][1..] == [b, c] && [b, c][1..] == [c];
    assert Join([b, c], '/') == b + "/" + c;
    assert Join([a, b, c], '/') == a + "/" + (b + "/" + c);
    assert a + "/" + (b + "/" + c) == a + "/" + b + "/" + c;
    SplitJoin([a, b, c], '/');
  }

  // ----- routeReferencesService / gatewayReferencesSecret ------------------------

  /** A backend reference to the core Service: group empty or absent, same name, same namespace (defaulting to the route's). */
  predicate BackendRefers(ref: BackendRef, routeNS: string, svc: Service) {
    && (ref.group.None? || ref.group.value == "")
    && ref.name == svc.name
    && (if ref.namespace.Some? then ref.namespace.value else routeNS) == svc.namespace
  }

  function AnyBackendRefers(refs: seq<BackendRef>, routeNS: string, svc: Service): (r: bool)
    ensures r <==> exists j :: 0 <= j < |refs| && BackendRefers(refs[j], routeNS, svc)
  {
    if refs == [] then false
    else if BackendRefers(refs[0], routeNS, svc) then true
    else
      var rest := AnyBackendRefers(refs[1..], routeNS, svc);
      assert forall j :: 1 <= j < |refs| ==> refs[j] == refs[1..][j - 1];
      rest
  }

  function AnyRuleRefers(rules: seq<RouteRule>, routeNS: string, svc: Service): (r: bool)
    ensures r <==> exists i, j :: 0 <= i < |rules| && 0 <= j < |rules[i].backendRefs| && BackendRefers(rules[i].backendRefs[j], routeNS, svc)
  {
    if rules == [] then false
    else if AnyBackendRefers(rules[0].backendRefs, routeNS, svc) then true
    else
      var rest := AnyRuleRefers(rules[1..], routeNS, svc);
      assert forall i :: 1 <= i < |rules| ==> rules[i] == rules[1..][i - 1];
      rest
  }

  /** routeReferencesService: any backend reference of any rule, not only the first. */
  function RouteReferencesService(route: HTTPRoute, svc: Service): bool {
    AnyRuleRefers(route.rules, route.namespace, svc)
  }

  /** A certificate reference to the Secret: same name, same namespace (defaulting to the Gateway's); kind and group are not looked at. */
  predicate CertRefers(ref: CertRef, gwNS: string, secret: Secret) {
    ref.name == secret.name && (if ref.namespace.Some? then ref.namespace.value else gwNS) == secret.namespace
  }

  function AnyCertRefers(refs: seq<CertRef>, gwNS: string, secret: Secret): (r: bool)
    ensures r <==> exists j :: 0 <= j < |refs| && CertRefers(refs[j], gwNS, secret)
  {
    if refs == [] then false
    else if CertRefers(refs[0], gwNS, secret) then true
    else
      var rest := AnyCertRefers(refs[1..], gwNS, secret);
      assert forall j :: 1 <= j < |refs| ==> refs[j] == refs[1..][j - 1];
      rest
  }

  /** Listeners without a TLS block are skipped. */
  function AnyListenerRefers(ls: seq<Listener>, gwNS: string, secret: Secret): (r: bool)
    ensures r <==> exists i, j :: 0 <= i < |ls| && ls[i].tls.Some? && 0 <= j < |ls[i].tls.value.certificateRefs|
                                  && CertRefers(ls[i].tls.value.certificateRefs[j], gwNS, secret)
  {
    if ls == [] then false
    else if ls[0].tls.Some? && AnyCertRefers(ls[0].tls.value.certificateRefs, gwNS, secret) then true
    else
      var rest := AnyListenerRefers(ls[1..], gwNS, secret);
      assert forall i :: 1 <= i < |ls| ==> ls[i] == ls[1..][i - 1];
      rest
  }

  /** gatewayReferencesSecret. */
  function GatewayReferencesSecret(gw: Gateway, secret: Secret): bool {
    AnyListenerRefers(gw.listeners, gw.namespace, secret)
  }

  // ----- the Gateway a key names ----------------------------------------------

  /** The Gateway exists and this controller manages it (a failed ownership check counts as not managed). */
  predicate ResolvesToManaged(cfg: ControllerConfig, cluster: Cluster, n: NsName) {
    var gw := GetGateway(cluster.gateways, n);
    gw.Some? && IsManagedGateway(gw.value, cluster, cfg) == Ok(true)
  }

  /** A key that splits and names a managed Gateway. */
  predicate KeyQualifies(cfg: ControllerConfig, cluster: Cluster, key: string) {
    SplitMetaNamespaceKey(key).Ok? && ResolvesToManaged(cfg, cluster, SplitMetaNamespaceKey(key).value)
  }

  /** Some key of the list names this Gateway and qualifies. */
  predicate KeysYield(cfg: ControllerConfig, cluster: Cluster, keys: seq<string>, n: NsName) {
    exists j :: 0 <= j < |keys| && KeyQualifies(cfg, cluster, keys[j]) && SplitMetaNamespaceKey(keys[j]).value == n
  }

  lemma KeysYieldCons(cfg: ControllerConfig, cluster: Cluster, keys: seq<string>, n: NsName)
    requires keys != []
    ensures KeysYield(cfg, cluster, keys, n) <==>
      (KeyQualifies(cfg, cluster, keys[0]) && SplitMetaNamespaceKey(keys[0]).value == n) || KeysYield(cfg, cluster, keys[1..], n)
  {
    assert forall j :: 1 <= j < |keys| ==> keys[j] == keys[1..][j - 1];
    if KeysYield(cfg, cluster, keys[1..], n) {
      var j :| 0 <= j < |keys[1..]| && KeyQualifies(cfg, cluster, keys[1..][j]) && SplitMetaNamespaceKey(keys[1..][j]).value == n;
      assert keys[j + 1] == keys[1..][j];
    }
  }

  // ----- findGatewaysForHTTPRoute -----------------------------------------------

  /** One request per qualifying key, in key order. */
  function RouteRequests(cfg: ControllerConfig, cluster: Cluster, keys: seq<string>): seq<NsName> {
    if keys == [] then []
    else
      var rest := RouteRequests(cfg, cluster, keys[1..]);
      if KeyQualifies(cfg, cluster, keys[0]) then [SplitMetaNamespaceKey(keys[0]).value] + rest else rest
  }

  /** The Gateway a parent key requests: it splits, the Gateway exists, and this controller manages it. */
  method KeyRequest(cfg: ControllerConfig, cluster: Cluster, key: string) returns (r: Option<NsName>)
    ensures r.Some? <==> KeyQualifies(cfg, cluster, key)
    ensures r.Some? ==> r.value == SplitMetaNamespaceKey(key).value
  {
    match SplitMetaNamespaceKey(key) {
      case Err(_) =>
        return None;
      case Ok(n) =>
        var gw := GetGateway(cluster.gateways, n);
        if gw.Some? {
          var managed := IsManagedGateway(gw.value, cluster, cfg);
          if managed == Ok(true) {
            return Some(n);
          }
        }
        return None;
    }
  }

  method FindGatewaysForHTTPRoute(cfg: ControllerConfig, cluster: Cluster, route: HTTPRoute) returns (requests: seq<NsName>)
    ensures requests == RouteRequests(cfg, cluster, GetParentGatewayKeys(route))
  {
    var keys := GetParentGatewayKeys(route);
    requests := [];
    var i := 0;
    while i < |keys|
      invariant 0 <= i <= |keys|
      invariant requests + RouteRequests(cfg, cluster, keys[i..]) == RouteRequests(cfg, cluster, keys)
    {
      var req := KeyRequest(cfg, cluster, keys[i]);
      RouteRequestsAt(cfg, cluster, keys, i);
      if req.Some? {
        ghost var rest := RouteRequests(cfg, cluster, keys[i + 1..]);
        assert (requests + [req.value]) + rest == requests + ([req.value] + rest);
        requests := requests + [req.value];
      }
      i := i + 1;
    }
    assert keys[i..] == [];
  }

  /** One unrolling of the route's requests at key i. */
  lemma RouteRequestsAt(cfg: ControllerConfig, cluster: Cluster, keys: seq<string>, i: nat)
    requires i < |keys|
    ensures KeyQualifies(cfg, cluster, keys[i]) ==>
      RouteRequests(cfg, cluster, keys[i..]) == [SplitMetaNamespaceKey(keys[i]).value] + RouteRequests(cfg, cluster, keys[i + 1..])
    ensures !KeyQualifies(cfg, cluster, keys[i]) ==>
      RouteRequests(cfg, cluster, keys[i..]) == RouteRequests(cfg, cluster, keys[i + 1..])
  {
    assert keys[i..][0] == keys[i];
    assert keys[i..][1..] == keys[i + 1..];
  }

  /** The requests of a list of keys are those of its halves in order, so a key listed twice is requested twice. */
  lemma {:induction false} RouteRequestsConcat(cfg: ControllerConfig, cluster: Cluster, a: seq<string>, b: seq<string>)
    ensures RouteRequests(cfg, cluster, a + b) == RouteRequests(cfg, cluster, a) + RouteRequests(cfg, cluster, b)
  {
    if a == [] {
      assert a + b == b;
    } else {
      assert (a + b)[0] == a[0] && (a + b)[1..] == a[1..] + b;
      RouteRequestsConcat(cfg, cluster, a[1..], b);
    }
  }

  /** Exactly the Gateways named by a qualifying key are requested. */
  lemma {:induction false} RouteRequestsMembers(cfg: ControllerConfig, cluster: Cluster, keys: seq<string>, n: NsName)
    ensures n in RouteRequests(cfg, cluster, keys) <==> KeysYield(cfg, cluster, keys, n)
  {
    if keys != [] {
      RouteRequestsMembers(cfg, cluster, keys[1..], n);
      KeysYieldCons(cfg, cluster, keys, n);
    }
  }

  /** When every key names a managed Gateway, there is one request per parent key: nothing is dropped or merged. */
  lemma {:induction false} RouteRequestsAllManaged(cfg: ControllerConfig, cluster: Cluster, keys: seq<string>)
    requires forall i :: 0 <= i < |keys| ==> KeyQualifies(cfg, cluster, keys[i])
    ensures |RouteRequests(cfg, cluster, keys)| == |keys|
  {
    if keys != [] {
      assert forall i :: 1 <= i < |keys| ==> keys[1..][i - 1] == keys[i];
      RouteRequestsAllManaged(cfg, cluster, keys[1..]);
    }
  }

  // ----- findGatewaysForService ---------------------------------------------------

  /** The mapper's state: the requests so far and the processedGateways keys. */
  datatype Scan = Scan(requests: seq<NsName>, processed: set<string>)

  /** One parent key: skipped when already processed; otherwise requested and marked when it qualifies. */
  function KeyStep(cfg: ControllerConfig, cluster: Cluster, st: Scan, key: string): Scan {
    if key in st.processed then st
    else if KeyQualifies(cfg, cluster, key) then Scan(st.requests + [SplitMetaNamespaceKey(key).value], st.processed + {key})
    else st
  }

  function KeysFold(cfg: ControllerConfig, cluster: Cluster, st: Scan, keys: seq<string>): Scan
    decreases |keys|
  {
    if keys == [] then st else KeysFold(cfg, cluster, KeyStep(cfg, cluster, st, keys[0]), keys[1..])
  }

  /** Routes that do not reference the Service are skipped. */
  function RoutesFold(cfg: ControllerConfig, cluster: Cluster, svc: Service, st: Scan, routes: seq<HTTPRoute>): Scan
    decreases |routes|
  {
    if routes == [] then st
    else
      var next := if RouteReferencesService(routes[0], svc) then KeysFold(cfg, cluster, st, GetParentGatewayKeys(routes[0])) else st;
      RoutesFold(cfg, cluster, svc, next, routes[1..])
  }

  /** A List failure gives no requests. */
  function ServiceRequests(cfg: ControllerConfig, cluster: Cluster, svc: Service): seq<NsName> {
    if cluster.routeListFails then [] else RoutesFold(cfg, cluster, svc, Scan([], {}), cluster.routes).requests
  }

  method FindGatewaysForService(cfg: ControllerConfig, cluster: Cluster, svc: Service) returns (requests: seq<NsName>)
    ensures requests == ServiceRequests(cfg, cluster, svc)
  {
    if cluster.routeListFails {
      return [];
    }
    var routes := cluster.routes;
    requests := [];
    var processed: set<string> := {};
    var i := 0;
    while i < |routes|
      invariant 0 <= i <= |routes|
      invariant RoutesFold(cfg, cluster, svc, Scan(requests, processed), routes[i..]) == RoutesFold(cfg, cluster, svc, Scan([], {}), routes)
    {
      assert routes[i..][1..] == routes[i + 1..];
      var route := routes[i];
      if RouteReferencesService(route, svc) {
        ghost var start := Scan(requests, processed);
        var keys := GetParentGatewayKeys(route);
        var j := 0;
        while j < |keys|
          invariant 0 <= j <= |keys|
          invariant KeysFold(cfg, cluster, Scan(requests, processed), keys[j..]) == KeysFold(cfg, cluster, start, keys)
        {
          assert keys[j..][1..] == keys[j + 1..];
          var parent := keys[j];
          if parent !in processed {
            var req := KeyRequest(cfg, cluster, parent);
            if req.Some? {
              requests := requests + [req.value];
              processed := processed + {parent};
            }
          }
          j := j + 1;
        }
        assert keys[j..] == [];
      }
      i := i + 1;
    }
    assert routes[i..] == [];
  }

  /** The scan's invariant: no repeated request, every request's key is marked, every marked key is requested. */
  ghost predicate ScanInv(st: Scan) {
    && (forall a, b :: 0 <= a < b < |st.requests| ==> st.requests[a] != st.requests[b])
    && (forall a :: 0 <= a < |st.requests| ==> st.requests[a].namespace + "/" + st.requests[a].name in st.processed)
    && (forall k :: k in st.processed ==> KeyQualifiesSome(k) && SplitMetaNamespaceKey(k).value in st.requests)
  }

  predicate KeyQualifiesSome(k: string) {
    SplitMetaNamespaceKey(k).Ok?
  }

  /** One key keeps the invariant, and what it adds is the Gateway it names, if that qualifies and was not yet requested. */
  lemma KeyStepFacts(cfg: ControllerConfig, cluster: Cluster, st: Scan, key: string)
    requires ScanInv(st) && '/' in key
    ensures var r := KeyStep(cfg, cluster, st, key);
      && ScanInv(r) && st.processed <= r.processed
      && (forall n :: n in r.requests <==> n in st.requests || (KeyQualifies(cfg, cluster, key) && SplitMetaNamespaceKey(key).value == n))
  {
    if key in st.processed {
      assert SplitMetaNamespaceKey(key).value in st.requests;
    } else if KeyQualifies(cfg, cluster, key) {
      var n := SplitMetaNamespaceKey(key).value;
      JoinOfSplitKey(key);
      assert n !in st.requests;
      AppendFresh(st, key, n);
    }
  }

  /** Appending a Gateway not yet requested, and marking its key, keeps the invariant. */
  lemma AppendFresh(st: Scan, key: string, n: NsName)
    requires ScanInv(st) && SplitMetaNamespaceKey(key) == Ok(n) && key == n.namespace + "/" + n.name && n !in st.requests
    ensures ScanInv(Scan(st.requests + [n], st.processed + {key}))
  {
    var r := Scan(st.requests + [n], st.processed + {key});
    assert forall a :: 0 <= a < |st.requests| ==> r.requests[a] == st.requests[a];
    assert r.requests[|st.requests|] == n;
  }

  lemma {:induction false} KeysFoldFacts(cfg: ControllerConfig, cluster: Cluster, st: Scan, keys: seq<string>)
    requires ScanInv(st) && forall k :: k in keys ==> '/' in k
    ensures var r := KeysFold(cfg, cluster, st, keys);
      && ScanInv(r) && st.processed <= r.processed
      && (forall n :: n in r.requests <==> n in st.requests || KeysYield(cfg, cluster, keys, n))
    decreases |keys|
  {
    if keys != [] {
      var next := KeyStep(cfg, cluster, st, keys[0]);
      KeyStepFacts(cfg, cluster, st, keys[0]);
      assert forall k :: k in keys[1..] ==> k in keys;
      KeysFoldFacts(cfg, cluster, next, keys[1..]);
      var r := KeysFold(cfg, cluster, st, keys);
      forall n
        ensures n in r.requests <==> n in st.requests || KeysYield(cfg, cluster, keys, n)
      {
        KeysYieldCons(cfg, cluster, keys, n);
        if KeyQualifies(cfg, cluster, keys[0]) && SplitMetaNamespaceKey(keys[0]).value == n && keys[0] in st.processed {
          assert n in st.requests;
        }
      }
    }
  }

  /** The route yields this Gateway: it references the Service and one of its parent keys names it and qualifies. */
  predicate RouteYields(cfg: ControllerConfig, cluster: Cluster, svc: Service, route: HTTPRoute, n: NsName) {
    RouteReferencesService(route, svc) && KeysYield(cfg, cluster, GetParentGatewayKeys(route), n)
  }

  /** Some route among routes yields this Gateway. */
  predicate RoutesYield(cfg: ControllerConfig, cluster: Cluster, svc: Service, routes: seq<HTTPRoute>, n: NsName) {
    exists i :: 0 <= i < |routes| && RouteYields(cfg, cluster, svc, routes[i], n)
  }

  lemma RoutesYieldCons(cfg: ControllerConfig, cluster: Cluster, svc: Service, routes: seq<HTTPRoute>, n: NsName)
    requires routes != []
    ensures RoutesYield(cfg, cluster, svc, routes, n) <==>
      RouteYields(cfg, cluster, svc, routes[0], n) || RoutesYield(cfg, cluster, svc, routes[1..], n)
  {
    if RoutesYield(cfg, cluster, svc, routes, n) {
      var i :| 0 <= i < |routes| && RouteYields(cfg, cluster, svc, routes[i], n);
      if i > 0 {
        assert routes[1..][i - 1] == routes[i];
      }
    }
    if RoutesYield(cfg, cluster, svc, routes[1..], n) {
      var i :| 0 <= i < |routes[1..]| && RouteYields(cfg, cluster, svc, routes[1..][i], n);
      assert routes[i + 1] == routes[1..][i];
    }
  }

  lemma {:induction false} RoutesFoldFacts(cfg: ControllerConfig, cluster: Cluster, svc: Service, st: Scan, routes: seq<HTTPRoute>)
    requires ScanInv(st)
    ensures var r := RoutesFold(cfg, cluster, svc, st, routes);
      && ScanInv(r)
      && (forall n :: n in r.requests <==> n in st.requests || RoutesYield(cfg, cluster, svc, routes, n))
    decreases |routes|
  {
    if routes != [] {
      var refs := RouteReferencesService(routes[0], svc);
      var keys := GetParentGatewayKeys(routes[0]);
      var next := if refs then KeysFold(cfg, cluster, st, keys) else st;
      if refs {
        KeysFoldFacts(cfg, cluster, st, keys);
      }
      assert ScanInv(next) && forall n :: n in next.requests <==> n in st.requests || RouteYields(cfg, cluster, svc, routes[0], n);
      RoutesFoldFacts(cfg, cluster, svc, next, routes[1..]);
      var r := RoutesFold(cfg, cluster, svc, st, routes);
      assert r == RoutesFold(cfg, cluster, svc, next, routes[1..]);
      forall n
        ensures n in r.requests <==> n in st.requests || RoutesYield(cfg, cluster, svc, routes, n)
      {
        RoutesYieldCons(cfg, cluster, svc, routes, n);
      }
    }
  }

  /** findGatewaysForService requests each managed parent Gateway of the routes referencing the Service, once. */
  lemma ServiceRequestsFacts(cfg: ControllerConfig, cluster: Cluster, svc: Service)
    ensures var r := ServiceRequests(cfg, cluster, svc);
      && (forall a, b :: 0 <= a < b < |r| ==> r[a] != r[b])
      && (forall n :: n in r <==> !cluster.routeListFails && exists i :: 0 <= i < |cluster.routes| && RouteYields(cfg, cluster, svc, cluster.routes[i], n))
  {
    if !cluster.routeListFails {
      RoutesFoldFacts(cfg, cluster, svc, Scan([], {}), cluster.routes);
    }
  }

  // ----- findGatewaysForSecret ------------------------------------------------------

  /** List in one namespace, in list order. */
  function ListInNamespace(gws: seq<Gateway>, ns: string): (r: seq<Gateway>)
    ensures forall g :: g in r <==> g in gws && g.namespace == ns
  {
    if gws == [] then []
    else
      var rest := ListInNamespace(gws[1..], ns);
      assert forall g :: g in gws[1..] ==> g in gws;
      assert forall g :: g in gws ==> g == gws[0] || g in gws[1..];
      if gws[0].namespace == ns then [gws[0]] + rest else rest
  }

  /** A listed Gateway is requested when it references the Secret and is managed. */
  function SecretScan(cfg: ControllerConfig, cluster: Cluster, secret: Secret, gws: seq<Gateway>): seq<NsName> {
    if gws == [] then []
    else
      var rest := SecretScan(cfg, cluster, secret, gws[1..]);
      var gw := gws[0];
      if GatewayReferencesSecret(gw, secret) && IsManagedGateway(gw, cluster, cfg) == Ok(true) then [NsName(gw.namespace, gw.name)] + rest
      else rest
  }

  /** A List failure gives no requests. */
  function SecretRequests(cfg: ControllerConfig, cluster: Cluster, secret: Secret): seq<NsName> {
    if cluster.gatewayListFails then [] else SecretScan(cfg, cluster, secret, ListInNamespace(cluster.gateways, secret.namespace))
  }

  method FindGatewaysForSecret(cfg: ControllerConfig, cluster: Cluster, secret: Secret) returns (requests: seq<NsName>)
    ensures requests == SecretRequests(cfg, cluster, secret)
  {
    if cluster.gatewayListFails {
      return [];
    }
    var gateways := ListInNamespace(cluster.gateways, secret.namespace);
    requests := [];
    var i := 0;
    while i < |gateways|
      invariant 0 <= i <= |gateways|
      invariant requests + SecretScan(cfg, cluster, secret, gateways[i..]) == SecretScan(cfg, cluster, secret, gateways)
    {
      assert gateways[i..][1..] == gateways[i + 1..];
      var gw := gateways[i];
      if GatewayReferencesSecret(gw, secret) {
        var managed := IsManagedGateway(gw, cluster, cfg);
        if managed == Ok(true) {
          requests := requests + [NsName(gw.namespace, gw.name)];
        }
      }
      i := i + 1;
    }
    assert gateways[i..] == [];
  }

  lemma {:induction false} SecretScanMembers(cfg: ControllerConfig, cluster: Cluster, secret: Secret, gws: seq<Gateway>, n: NsName)
    ensures n in SecretScan(cfg, cluster, secret, gws) <==>
      exists gw :: gw in gws && GatewayReferencesSecret(gw, secret) && IsManagedGateway(gw, cluster, cfg) == Ok(true)
                   && n == NsName(gw.namespace, gw.name)
  {
    if gws != [] {
      SecretScanMembers(cfg, cluster, secret, gws[1..], n);
      assert forall g :: g in gws ==> g == gws[0] || g in gws[1..];
      assert forall g :: g in gws[1..] ==> g in gws;
    }
  }

  /** findGatewaysForSecret requests exactly the managed Gateways of the Secret's namespace that reference it. */
  lemma SecretRequestsFacts(cfg: ControllerConfig, cluster: Cluster, secret: Secret, n: NsName)
    ensures n in SecretRequests(cfg, cluster, secret) <==>
      !cluster.gatewayListFails
      && exists gw :: gw in cluster.gateways && gw.namespace == secret.namespace && GatewayReferencesSecret(gw, secret)
                      && IsManagedGateway(gw, cluster, cfg) == Ok(true) && n == NsName(gw.namespace, gw.name)
    ensures n in SecretRequests(cfg, cluster, secret) ==> n.namespace == secret.namespace
  {
    if !cluster.gatewayListFails {
      SecretScanMembers(cfg, cluster, secret, ListInNamespace(cluster.gateways, secret.namespace), n);
    }
  }
}
