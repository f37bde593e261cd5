/**
 * What buildGatewayInfo promises, proved about its specification in module
 * Topology: the validation failures, the per-hostname claim, the shape of
 * created and merged vhosts, and what every built vhost and path carries.
 */
module TopologyProperties {
  import opened Wrappers
  import opened Kube
  import opened GatewayTypes
  import opened Matching
  import opened Topology

  // ------------------------------------------------------------ listeners

  predicate NameSeen(ls: seq<Listener>, seen: set<string>) {
    exists i :: 0 <= i < |ls| && ls[i].name in seen
  }

  predicate RepeatedName(ls: seq<Listener>) {
    exists i, j :: 0 <= i < j < |ls| && ls[i].name == ls[j].name
  }

  /** The listener pass fails exactly on a name already seen or repeated. */
  lemma {:induction false} PrepareListenersFails(ls: seq<Listener>, seen: set<string>)
    ensures PrepareListeners(ls, seen).Err? <==> NameSeen(ls, seen) || RepeatedName(ls)
    decreases |ls|
  {
    if ls == [] {
    } else if ls[0].name in seen {
      assert NameSeen(ls, seen);
    } else {
      var seen' := seen + {ls[0].name};
      var tail := ls[1..];
      PrepareListenersFails(tail, seen');
      assert NameSeen(tail, seen') ==> NameSeen(ls, seen) || RepeatedName(ls) by {
        if NameSeen(tail, seen') {
          var i :| 0 <= i < |tail| && tail[i].name in seen';
          assert ls[i + 1] == tail[i];
          if tail[i].name in seen {
            assert NameSeen(ls, seen);
          } else {
            assert RepeatedName(ls);
          }
        }
      }
      assert RepeatedName(tail) ==> RepeatedName(ls) by {
        if RepeatedName(tail) {
          var i, j :| 0 <= i < j < |tail| && tail[i].name == tail[j].name;
          assert ls[i + 1] == tail[i] && ls[j + 1] == tail[j];
        }
      }
      assert NameSeen(ls, seen) ==> NameSeen(tail, seen') by {
        if NameSeen(ls, seen) {
          var i :| 0 <= i < |ls| && ls[i].name in seen;
          assert i > 0 && tail[i - 1] == ls[i];
        }
      }
      assert RepeatedName(ls) ==> NameSeen(tail, seen') || RepeatedName(tail) by {
        if RepeatedName(ls) {
          var i, j :| 0 <= i < j < |ls| && ls[i].name == ls[j].name;
          assert tail[j - 1] == ls[j];
          if i > 0 {
            assert tail[i - 1] == ls[i];
          }
        }
      }
    }
  }

  /** A successful listener pass maps every listener, in order. */
  lemma {:induction false} PrepareListenersMaps(ls: seq<Listener>, seen: set<string>)
    ensures PrepareListeners(ls, seen).Ok? ==>
      |PrepareListeners(ls, seen).value| == |ls| &&
      forall k :: 0 <= k < |ls| ==> PrepareListeners(ls, seen).value[k] == ToListenerInfo(ls[k])
    decreases |ls|
  {
    if ls != [] && ls[0].name !in seen {
      var tail := ls[1..];
      PrepareListenersMaps(tail, seen + {ls[0].name});
      assert forall k :: 1 <= k < |ls| ==> ls[k] == tail[k - 1];
    }
  }

  /** The listener pass fails exactly on a repeated name; otherwise it maps every listener, in order. */
  lemma PrepareListenersSpec(ls: seq<Listener>, seen: set<string>)
    ensures PrepareListeners(ls, seen).Err? <==> NameSeen(ls, seen) || RepeatedName(ls)
    ensures PrepareListeners(ls, seen).Ok? ==>
      |PrepareListeners(ls, seen).value| == |ls| &&
      forall k :: 0 <= k < |ls| ==> PrepareListeners(ls, seen).value[k] == ToListenerInfo(ls[k])
  {
    PrepareListenersFails(ls, seen);
    PrepareListenersMaps(ls, seen);
  }

  /** A repeated listener name fails the build (once the node list is read). */
  lemma BuildFailsOnDuplicateListener(gw: Gateway, cluster: Cluster)
    requires RepeatedName(gw.listeners)
    ensures BuildSpec(gw, cluster).Err?
    ensures !cluster.nodeListFails ==> BuildSpec(gw, cluster).error.DuplicateListener?
  {
    PrepareListenersSpec(gw.listeners, {});
    var r := PrepareListeners(gw.listeners, {});
    assert r.Err?;
    PrepareListenersFailsWithDuplicate(gw.listeners, {});
  }

  /** The only error the listener pass returns is a duplicate name. */
  lemma {:induction false} PrepareListenersFailsWithDuplicate(ls: seq<Listener>, seen: set<string>)
    ensures PrepareListeners(ls, seen).Err? ==> PrepareListeners(ls, seen).error.DuplicateListener?
    decreases |ls|
  {
    if ls != [] && ls[0].name !in seen {
      PrepareListenersFailsWithDuplicate(ls[1..], seen + {ls[0].name});
    }
  }

  // --------------------------------------------------- rejected routes

  /** An attached route that the route pass rejects whatever the state: bad hostnames or unreadable namespace. */
  predicate RejectedRoute(route: HTTPRoute, gw: Gateway, cluster: Cluster) {
    IsRouteAttachedToGateway(route, gw) &&
    (CheckRouteHostnames(route).Some? || route.namespace !in cluster.namespaceLabels)
  }

  /** A rejected route anywhere in the list fails the route loop. */
  lemma {:induction false} RoutesFoldFailsOnRejected(
    st: BuildState, routes: seq<HTTPRoute>, gw: Gateway, listeners: seq<ListenerInfo>, cluster: Cluster, nodeIps: seq<string>, k: nat)
    requires k < |routes| && RejectedRoute(routes[k], gw, cluster)
    ensures RoutesFold(st, routes, gw, listeners, cluster, nodeIps).Err?
    decreases k
  {
    if k == 0 {
      assert RouteStep(st, routes[0], gw, listeners, cluster, nodeIps).Err?;
    } else {
      match RouteStep(st, routes[0], gw, listeners, cluster, nodeIps)
      case Err(_) =>
      case Ok(st') =>
        assert routes[1..][k - 1] == routes[k];
        RoutesFoldFailsOnRejected(st', routes[1..], gw, listeners, cluster, nodeIps, k - 1);
    }
  }

  /** An attached route without hostnames, with an empty or wildcard hostname, or in an unreadable namespace fails the build. */
  lemma BuildFailsOnRejectedRoute(gw: Gateway, cluster: Cluster, k: nat)
    requires k < |cluster.routes| && RejectedRoute(cluster.routes[k], gw, cluster)
    ensures BuildSpec(gw, cluster).Err?
  {
    if !cluster.nodeListFails && PrepareListeners(gw.listeners, {}).Ok? && !cluster.routeListFails {
      RoutesFoldFailsOnRejected(EmptyState, cluster.routes, gw, PrepareListeners(gw.listeners, {}).value, cluster,
        NodeIpList(cluster.nodes), k);
    }
  }

  /** Exactly the routes not attached to this Gateway. */
  function AttachedOnly(routes: seq<HTTPRoute>, gw: Gateway): (r: seq<HTTPRoute>)
    ensures forall x :: x in r <==> x in routes && IsRouteAttachedToGateway(x, gw)
  {
    if routes == [] then []
    else (if IsRouteAttachedToGateway(routes[0], gw) then [routes[0]] else []) + AttachedOnly(routes[1..], gw)
  }

  /** Unattached routes contribute nothing: the route loop over only the attached ones gives the same outcome. */
  lemma {:induction false} RoutesFoldIgnoresUnattached(
    st: BuildState, routes: seq<HTTPRoute>, gw: Gateway, listeners: seq<ListenerInfo>, cluster: Cluster, nodeIps: seq<string>)
    ensures RoutesFold(st, routes, gw, listeners, cluster, nodeIps) == RoutesFold(st, AttachedOnly(routes, gw), gw, listeners, cluster, nodeIps)
    decreases |routes|
  {
    if routes != [] {
      var rest := AttachedOnly(routes[1..], gw);
      if IsRouteAttachedToGateway(routes[0], gw) {
        assert AttachedOnly(routes, gw) == [routes[0]] + rest;
        assert ([routes[0]] + rest)[1..] == rest;
        match RouteStep(st, routes[0], gw, listeners, cluster, nodeIps)
        case Err(_) =>
        case Ok(st') =>
          RoutesFoldIgnoresUnattached(st', routes[1..], gw, listeners, cluster, nodeIps);
      } else {
        assert AttachedOnly(routes, gw) == rest;
        RoutesFoldIgnoresUnattached(st, routes[1..], gw, listeners, cluster, nodeIps);
      }
    }
  }

  // ---------------------------------------------------- hostname steps

  /** A hostname that no listener serves only records the claim, whatever the route's rules would give. */
  lemma UnservedHostnameOnlyClaims(st: BuildState, host: string, sc: RouteScope)
    requires host !in st.claims || st.claims[host] == sc.route.name
    requires forall l :: l in sc.listeners ==> !ListenerCandidate(l, sc, host)
    ensures HostStep(st, host, sc) == Ok(BuildState(st.vhosts, st.claims[host := sc.route.name]))
  {
    NoCandidateNoMatch(sc.listeners, sc, host);
  }

  lemma {:induction false} NoCandidateNoMatch(ls: seq<ListenerInfo>, sc: RouteScope, host: string)
    requires forall l :: l in ls ==> !ListenerCandidate(l, sc, host)
    ensures MatchedListeners(ls, sc, host) == []
    decreases |ls|
  {
    if ls != [] {
      assert ls[0] in ls;
      assert forall l :: l in ls[1..] ==> l in ls;
      NoCandidateNoMatch(ls[1..], sc, host);
    }
  }

  /** The claim is keyed by the route's name only: a different name fails, the same name never conflicts. */
  lemma ClaimConflictByName(st: BuildState, host: string, sc: RouteScope)
    requires host in st.claims
    ensures HostStep(st, host, sc).Err? && HostStep(st, host, sc).error.DomainConflict? <==> st.claims[host] != sc.route.name
  {
    if st.claims[host] == sc.route.name {
      RulesPathsErrors(sc.route.rules, sc);
    }
  }

  /** Rule errors are backend errors, never claim conflicts. */
  lemma {:induction false} RulesPathsErrors(rules: seq<RouteRule>, sc: RouteScope)
    ensures RulesPaths(rules, sc).Err? ==> !RulesPaths(rules, sc).error.DomainConflict?
    decreases |rules|
  {
    if rules != [] {
      RulesPathsErrors(rules[1..], sc);
    }
  }

  /** Some listener the hostname passes through the three filters is HTTPS. */
  predicate ServedOverHttps(sc: RouteScope, host: string) {
    exists l :: l in sc.listeners && ListenerCandidate(l, sc, host) && l.protocol == "HTTPS"
  }

  /** A hostname's first vhost: SSL iff some candidate listener is HTTPS; its ports those of the candidates of that protocol; its paths the route's. */
  lemma NewVHostShape(st: BuildState, host: string, sc: RouteScope, st': BuildState)
    requires host !in st.vhosts
    requires HostStep(st, host, sc) == Ok(st')
    requires exists l :: l in sc.listeners && ListenerCandidate(l, sc, host)
    ensures host in st'.vhosts
    ensures st'.vhosts[host].host == host
    ensures st'.vhosts[host].ssl <==> ServedOverHttps(sc, host)
    ensures forall p :: p in st'.vhosts[host].ports <==>
      exists l :: l in sc.listeners && ListenerCandidate(l, sc, host) && l.port == p &&
        l.protocol == (if st'.vhosts[host].ssl then "HTTPS" else "HTTP")
    ensures RulesPaths(sc.route.rules, sc) == Ok(st'.vhosts[host].paths)
  {
    var m := MatchedListeners(sc.listeners, sc, host);
    MatchedListenersMembers(sc.listeners, sc, host);
    var l :| l in sc.listeners && ListenerCandidate(l, sc, host);
    assert l in m;
    HasHttpsMember(m);
    assert [] + RulesPaths(sc.route.rules, sc).value == RulesPaths(sc.route.rules, sc).value;
  }

  lemma HasHttpsMember(ls: seq<ListenerInfo>)
    ensures HasHttps(ls) <==> exists l :: l in ls && l.protocol == "HTTPS"
  {
    if exists l :: l in ls && l.protocol == "HTTPS" {
      var l :| l in ls && l.protocol == "HTTPS";
      var k :| 0 <= k < |ls| && ls[k] == l;
    }
  }

  /** Merged ports: the old ports first, then only ports not already present. */
  lemma MergePortsShape(existing: seq<int>, ports: seq<int>)
    ensures var merged := MergePorts(existing, ports);
      && |merged| >= |existing| && merged[..|existing|] == existing
      && (forall k :: |existing| <= k < |merged| ==> merged[k] !in existing)
      && (forall p :: p in merged <==> p in existing || p in ports)
  {
    var merged := MergePorts(existing, ports);
    var added := NewPorts(ports, existing);
    NewPortsMembers(ports, existing);
    forall k | |existing| <= k < |merged|
      ensures merged[k] !in existing
    {
      assert merged[k] == added[k - |existing|];
      assert added[k - |existing|] in added;
    }
  }

  /** Merging into an existing vhost keeps its ports and paths as prefixes, adds only absent ports, and SSL only turns on. */
  lemma MergedVHostShape(st: BuildState, host: string, sc: RouteScope, st': BuildState)
    requires host in st.vhosts
    requires HostStep(st, host, sc) == Ok(st')
    requires exists l :: l in sc.listeners && ListenerCandidate(l, sc, host)
    ensures host in st'.vhosts
    ensures var before, after := st.vhosts[host], st'.vhosts[host];
      && after.host == before.host
      && (after.ssl <==> before.ssl || ServedOverHttps(sc, host))
      && |after.ports| >= |before.ports| && after.ports[..|before.ports|] == before.ports
      && (forall k :: |before.ports| <= k < |after.ports| ==> after.ports[k] !in before.ports)
      && (forall p :: p in after.ports <==> (p in before.ports ||
            exists l :: l in sc.listeners && ListenerCandidate(l, sc, host) && l.port == p &&
              l.protocol == (if ServedOverHttps(sc, host) then "HTTPS" else "HTTP")))
      && |after.paths| >= |before.paths| && after.paths[..|before.paths|] == before.paths
      && RulesPaths(sc.route.rules, sc) == Ok(after.paths[|before.paths|..])
  {
    var m := MatchedListeners(sc.listeners, sc, host);
    MatchedListenersMembers(sc.listeners, sc, host);
    var l :| l in sc.listeners && ListenerCandidate(l, sc, host);
    assert l in m;
    HasHttpsMember(m);
    var before := st.vhosts[host];
    var ssl := HasHttps(m);
    assert ssl <==> ServedOverHttps(sc, host);
    var ports := PortsFor(m, ssl);
    var ps := RulesPaths(sc.route.rules, sc).value;
    var vh := UpsertVHost(st.vhosts, host, ssl, ports);
    assert st'.vhosts == st.vhosts[host := vh.(paths := vh.paths + ps)];
    var after := st'.vhosts[host];
    assert after == before.(ports := MergePorts(before.ports, ports), ssl := before.ssl || ssl, paths := before.paths + ps);
    MergePortsShape(before.ports, ports);
    assert after.paths[|before.paths|..] == ps;
  }

  // --------------------------------------------------------------- rules

  /** What a rule that yields paths resolved: its first backend's Service, the first port with the wanted number, a non-zero NodePort. */
  lemma RulePathsResolved(rule: RouteRule, sc: RouteScope)
    requires rule.backendRefs != [] && RulePaths(rule, sc).Ok?
    ensures var b := rule.backendRefs[0];
      var key := NsName(if b.namespace.Some? then b.namespace.value else sc.route.namespace, b.name);
      && (b.group.None? || b.group.value == "")
      && key in sc.cluster.services
      && var svc := sc.cluster.services[key];
         exists k :: 0 <= k < |svc.ports| && svc.ports[k].port == WantPort(b, svc) && svc.ports[k].nodePort != 0 &&
           (forall j :: 0 <= j < k ==> svc.ports[j].port != WantPort(b, svc)) &&
           RulePaths(rule, sc).value == PathInfos(RulePathStrings(rule), svc, svc.ports[k].nodePort, sc.nodeIps)
  {
  }

  /** Only the first backendRef of a rule matters. */
  lemma RuleUsesFirstBackendOnly(rule: RouteRule, sc: RouteScope)
    requires rule.backendRefs != []
    ensures RulePaths(rule, sc) == RulePaths(rule.(backendRefs := [rule.backendRefs[0]]), sc)
  {
  }

  /** Every path a rule loop yields carries the node IPs and a non-zero NodePort. */
  lemma {:induction false} RulesPathsCarry(rules: seq<RouteRule>, sc: RouteScope)
    requires RulesPaths(rules, sc).Ok?
    ensures forall p :: p in RulesPaths(rules, sc).value ==> p.nodeIps == sc.nodeIps && p.nodePort != 0
    decreases |rules|
  {
    if rules != [] {
      RulesPathsCarry(rules[1..], sc);
      if rules[0].backendRefs != [] {
        RulePathsResolved(rules[0], sc);
      }
    }
  }

  // ------------------------------------------------------ the route loop

  /** What holds of the building state throughout: vhosts keyed by their host, claimed, with well-formed paths. */
  predicate StateInvariant(st: BuildState, nodeIps: seq<string>) {
    && (forall h :: h in st.vhosts ==> h in st.claims && st.vhosts[h].host == h)
    && (forall h, p :: h in st.vhosts && p in st.vhosts[h].paths ==> p.nodeIps == nodeIps && p.nodePort != 0)
  }

  predicate ClaimsExtend(a: map<string, string>, b: map<string, string>) {
    forall h :: h in a ==> h in b && b[h] == a[h]
  }

  lemma HostStepFacts(st: BuildState, host: string, sc: RouteScope, st': BuildState)
    requires StateInvariant(st, sc.nodeIps)
    requires HostStep(st, host, sc) == Ok(st')
    ensures StateInvariant(st', sc.nodeIps)
    ensures ClaimsExtend(st.claims, st'.claims)
    ensures st'.claims == st.claims[host := sc.route.name]
  {
    var claims := st.claims[host := sc.route.name];
    assert ClaimsExtend(st.claims, claims);
    var m := MatchedListeners(sc.listeners, sc, host);
    if m == [] {
      assert st' == BuildState(st.vhosts, claims);
      StateInvariantClaims(st, claims, sc.nodeIps);
    } else {
      var ssl := HasHttps(m);
      var vh := UpsertVHost(st.vhosts, host, ssl, PortsFor(m, ssl));
      var ps := RulesPaths(sc.route.rules, sc).value;
      var vh' := vh.(paths := vh.paths + ps);
      assert st' == BuildState(st.vhosts[host := vh'], claims);
      RulesPathsCarry(sc.route.rules, sc);
      assert vh'.host == host;
      assert forall p :: p in vh'.paths ==> p in vh.paths || p in ps;
      StateInvariantPut(st, claims, host, vh', sc.nodeIps);
    }
  }

  /** Claiming more hostnames keeps the invariant. */
  lemma StateInvariantClaims(st: BuildState, claims: map<string, string>, nodeIps: seq<string>)
    requires StateInvariant(st, nodeIps) && ClaimsExtend(st.claims, claims)
    ensures StateInvariant(BuildState(st.vhosts, claims), nodeIps)
  {
  }

  /** Storing a claimed vhost keyed by its host, whose paths are well formed, keeps the invariant. */
  lemma StateInvariantPut(st: BuildState, claims: map<string, string>, host: string, vh: VHostInfo, nodeIps: seq<string>)
    requires StateInvariant(st, nodeIps) && ClaimsExtend(st.claims, claims) && host in claims
    requires vh.host == host
    requires forall p :: p in vh.paths ==> p.nodeIps == nodeIps && p.nodePort != 0
    ensures StateInvariant(BuildState(st.vhosts[host := vh], claims), nodeIps)
  {
  }

  lemma {:induction false} HostsFoldFacts(st: BuildState, hosts: seq<string>, sc: RouteScope, st': BuildState)
    requires StateInvariant(st, sc.nodeIps)
    requires HostsFold(st, hosts, sc) == Ok(st')
    ensures StateInvariant(st', sc.nodeIps)
    ensures ClaimsExtend(st.claims, st'.claims)
    ensures forall h :: h in hosts ==> h in st'.claims && st'.claims[h] == sc.route.name
    ensures forall h :: h in st'.claims ==> h in st.claims || h in hosts
    decreases |hosts|
  {
    if hosts != [] {
      var s1 := HostStep(st, hosts[0], sc).value;
      HostStepFacts(st, hosts[0], sc, s1);
      HostsFoldFacts(s1, hosts[1..], sc, st');
      assert forall h :: h in hosts ==> h == hosts[0] || h in hosts[1..];
    }
  }

  lemma RouteStepFacts(
    st: BuildState, route: HTTPRoute, gw: Gateway, listeners: seq<ListenerInfo>, cluster: Cluster, nodeIps: seq<string>, st': BuildState)
    requires StateInvariant(st, nodeIps)
    requires RouteStep(st, route, gw, listeners, cluster, nodeIps) == Ok(st')
    ensures StateInvariant(st', nodeIps)
    ensures ClaimsExtend(st.claims, st'.claims)
    ensures IsRouteAttachedToGateway(route, gw) ==>
      forall h :: h in route.hostnames ==> h in st'.claims && st'.claims[h] == route.name
    ensures forall h :: h in st'.claims ==> h in st.claims || (IsRouteAttachedToGateway(route, gw) && h in route.hostnames)
  {
    if IsRouteAttachedToGateway(route, gw) {
      HostsFoldFacts(st, route.hostnames, ScopeOf(gw, listeners, route, cluster, nodeIps), st');
    }
  }

  /** Some attached route among routes lists hostname h. */
  predicate HostOfAttached(h: string, routes: seq<HTTPRoute>, gw: Gateway) {
    exists k :: 0 <= k < |routes| && IsRouteAttachedToGateway(routes[k], gw) && h in routes[k].hostnames
  }

  lemma {:induction false} RoutesFoldFacts(
    st: BuildState, routes: seq<HTTPRoute>, gw: Gateway, listeners: seq<ListenerInfo>, cluster: Cluster, nodeIps: seq<string>, st': BuildState)
    requires StateInvariant(st, nodeIps)
    requires RoutesFold(st, routes, gw, listeners, cluster, nodeIps) == Ok(st')
    ensures StateInvariant(st', nodeIps)
    ensures ClaimsExtend(st.claims, st'.claims)
    ensures forall k, h :: 0 <= k < |routes| && IsRouteAttachedToGateway(routes[k], gw) && h in routes[k].hostnames ==>
      h in st'.claims && st'.claims[h] == routes[k].name
    ensures forall h :: h in st'.claims ==> h in st.claims || HostOfAttached(h, routes, gw)
    decreases |routes|
  {
    if routes != [] {
      var s1 := RouteStep(st, routes[0], gw, listeners, cluster, nodeIps).value;
      RouteStepFacts(st, routes[0], gw, listeners, cluster, nodeIps, s1);
      var tail := routes[1..];
      RoutesFoldFacts(s1, tail, gw, listeners, cluster, nodeIps, st');
      assert forall k :: 1 <= k < |routes| ==> routes[k] == tail[k - 1];
      forall h | h in st'.claims
        ensures h in st.claims || HostOfAttached(h, routes, gw)
      {
        if h !in s1.claims {
          var k :| 0 <= k < |tail| && IsRouteAttachedToGateway(tail[k], gw) && h in tail[k].hostnames;
          assert routes[k + 1] == tail[k];
        } else if h !in st.claims {
          assert IsRouteAttachedToGateway(routes[0], gw) && h in routes[0].hostnames;
        }
      }
    }
  }

  /** The route loop of a successful build, from the empty state. */
  function BuiltState(gw: Gateway, cluster: Cluster): BuildState
    requires BuildSpec(gw, cluster).Ok?
  {
    RoutesFold(EmptyState, cluster.routes, gw, PrepareListeners(gw.listeners, {}).value, cluster, NodeIpList(cluster.nodes)).value
  }

  lemma BuiltStateFacts(gw: Gateway, cluster: Cluster)
    requires BuildSpec(gw, cluster).Ok?
    ensures BuildSpec(gw, cluster) == Ok(GatewayInfo(gw.uid, gw.name, gw.namespace, BuiltState(gw, cluster).vhosts))
    ensures StateInvariant(BuiltState(gw, cluster), NodeIpList(cluster.nodes))
    ensures forall k, h :: 0 <= k < |cluster.routes| && IsRouteAttachedToGateway(cluster.routes[k], gw) && h in cluster.routes[k].hostnames ==>
      h in BuiltState(gw, cluster).claims && BuiltState(gw, cluster).claims[h] == cluster.routes[k].name
    ensures forall h :: h in BuiltState(gw, cluster).claims ==> HostOfAttached(h, cluster.routes, gw)
  {
    var listeners := PrepareListeners(gw.listeners, {}).value;
    var nodeIps := NodeIpList(cluster.nodes);
    var st := BuiltState(gw, cluster);
    assert RoutesFold(EmptyState, cluster.routes, gw, listeners, cluster, nodeIps) == Ok(st);
    assert StateInvariant(EmptyState, nodeIps) && EmptyState.claims == map[];
    RoutesFoldFacts(EmptyState, cluster.routes, gw, listeners, cluster, nodeIps, st);
  }

  /** Every vhost is keyed by its host, which some attached route lists, and every path carries the node IPs and a non-zero NodePort. */
  predicate ServedVHosts(vhosts: map<string, VHostInfo>, nodeIps: seq<string>, routes: seq<HTTPRoute>, gw: Gateway) {
    && (forall h :: h in vhosts ==> vhosts[h].host == h && HostOfAttached(h, routes, gw))
    && (forall h, p :: h in vhosts && p in vhosts[h].paths ==> p.nodeIps == nodeIps && p.nodePort != 0)
  }

  /** In a built Gateway every vhost is keyed by its host, which some attached route lists, and every path carries the node IPs and a non-zero NodePort. */
  lemma BuiltVHosts(gw: Gateway, cluster: Cluster)
    requires BuildSpec(gw, cluster).Ok?
    ensures var info := BuildSpec(gw, cluster).value;
      && info.uid == gw.uid && info.name == gw.name && info.ns == gw.namespace
      && ServedVHosts(info.vhosts, NodeIpList(cluster.nodes), cluster.routes, gw)
  {
    BuiltStateFacts(gw, cluster);
    var st := BuiltState(gw, cluster);
    VHostsOfState(st, NodeIpList(cluster.nodes), cluster.routes, gw);
    assert BuildSpec(gw, cluster).value.vhosts == st.vhosts;
  }

  lemma VHostsOfState(st: BuildState, nodeIps: seq<string>, routes: seq<HTTPRoute>, gw: Gateway)
    requires StateInvariant(st, nodeIps)
    requires forall h :: h in st.claims ==> HostOfAttached(h, routes, gw)
    ensures ServedVHosts(st.vhosts, nodeIps, routes, gw)
  {
  }

  /** No two attached routes with different names share a hostname in a built Gateway. */
  lemma BuiltHostnamesUniquePerName(gw: Gateway, cluster: Cluster, i: nat, j: nat, h: string)
    requires BuildSpec(gw, cluster).Ok?
    requires i < |cluster.routes| && j < |cluster.routes|
    requires IsRouteAttachedToGateway(cluster.routes[i], gw) && IsRouteAttachedToGateway(cluster.routes[j], gw)
    requires h in cluster.routes[i].hostnames && h in cluster.routes[j].hostnames
    ensures cluster.routes[i].name == cluster.routes[j].name
  {
    BuiltStateFacts(gw, cluster);
    var claims := BuiltState(gw, cluster).claims;
    assert claims[h] == cluster.routes[i].name;
    assert claims[h] == cluster.routes[j].name;
  }
}
