/**
 * The matching primitives of the Gateway controller
 * (internal/gateway/controller/helpers.go): wildcard host matching, the
 * namespace allow-policy of a listener, the route-to-gateway attachment test,
 * HTTPS listener validation and the joining of error messages.
 */
module Matching {
  import opened Wrappers
  import opened Text
  import opened Kube
  import opened GatewayTypes

  // ----- hostMatches -------------------------------------------------------

  /** A listener hostname of the form "*.suffix" with a non-empty suffix. */
  predicate IsWildcard(listenerHost: string) {
    HasPrefix(listenerHost, "*.") && |listenerHost| > 2
  }

  /** hostMatches: the empty listener host matches all, equal hosts match, "*.s" matches hosts ending in ".s". */
  function HostMatches(listenerHost: string, routeHost: string): bool {
    if listenerHost == "" then true
    else if listenerHost == routeHost then true
    else if IsWildcard(listenerHost) then HasSuffix(routeHost, listenerHost[1..])
    else false
  }

  /** A listener without hostname accepts every route host; every host matches itself. */
  lemma HostMatchesEmptyAndSelf(h: string)
    ensures HostMatches("", h)
    ensures HostMatches(h, h)
  {
  }

  /** "*.s" matches every host p + ".s", whatever the prefix p. */
  lemma WildcardMatchesSubdomains(s: string, p: string)
    requires s != ""
    ensures HostMatches("*." + s, p + "." + s)
  {
    var l := "*." + s;
    var h := p + "." + s;
    assert l[..2] == "*.";
    assert l[1..] == "." + s;
    assert h[|h| - |l[1..]|..] == "." + s;
  }

  /** A host matched by "*.s" is longer than s and ends in ".s", so the apex s itself is excluded. */
  lemma WildcardMatchesOnlySubdomains(s: string, h: string)
    requires s != "" && HostMatches("*." + s, h)
    ensures |h| > |s| && h[|h| - |s|..] == s && h[|h| - |s| - 1] == '.'
  {
    var l := "*." + s;
    assert l[..2] == "*.";
    if l != h {
      assert l[1..] == "." + s;
      var t := h[|h| - |s| - 1..];
      assert t == "." + s;
      assert t[0] == '.';
      assert t[1..] == s;
    } else {
      assert h[|h| - |s|..] == s;
    }
  }

  /** The apex of a wildcard listener host is not matched by it. */
  lemma WildcardExcludesApex(s: string)
    requires s != ""
    ensures !HostMatches("*." + s, s)
  {
    if HostMatches("*." + s, s) {
      WildcardMatchesOnlySubdomains(s, s);
    }
  }

  /** Any other pair of distinct hosts never matches. */
  lemma DistinctConcreteHostsDoNotMatch(l: string, h: string)
    requires l != "" && l != h && !IsWildcard(l)
    ensures !HostMatches(l, h)
  {
  }

  // ----- isRouteNamespaceAllowed ------------------------------------------

  /** A Go map read: a missing key reads as the empty string. */
  function LabelValue(labels: map<string, string>, key: string): string {
    if key in labels then labels[key] else ""
  }

  /** isRouteNamespaceAllowed: the listener's allowedRoutes policy applied to a route's namespace. */
  function IsRouteNamespaceAllowed(
    listener: ListenerInfo, listenerNS: string, routeNS: string, nsLabels: map<string, string>): bool
  {
    match listener.allowedFrom
    case "All" => true
    case "Same" => listenerNS == routeNS
    case "Selector" => forall k | k in listener.selector :: LabelValue(nsLabels, k) == listener.selector[k]
    case _ => listenerNS == routeNS
  }

  /** "All" admits every namespace; "Same" and any unknown policy admit only the listener's own namespace. */
  lemma NamespacePolicyAllSame(listener: ListenerInfo, listenerNS: string, routeNS: string, nsLabels: map<string, string>)
    ensures listener.allowedFrom == "All" ==> IsRouteNamespaceAllowed(listener, listenerNS, routeNS, nsLabels)
    ensures listener.allowedFrom != "All" && listener.allowedFrom != "Selector" ==>
      (IsRouteNamespaceAllowed(listener, listenerNS, routeNS, nsLabels) <==> listenerNS == routeNS)
  {
  }

  /**
   * "Selector" admits a namespace iff each selector pair is among its labels,
   * where a missing label reads as ""; an empty selector admits every namespace.
   */
  lemma NamespacePolicySelector(listener: ListenerInfo, listenerNS: string, routeNS: string, nsLabels: map<string, string>)
    requires listener.allowedFrom == "Selector"
    ensures IsRouteNamespaceAllowed(listener, listenerNS, routeNS, nsLabels) <==>
      forall k :: k in listener.selector ==>
        (if k in nsLabels then nsLabels[k] else "") == listener.selector[k]
    ensures listener.selector == map[] ==> IsRouteNamespaceAllowed(listener, listenerNS, routeNS, nsLabels)
    ensures listener.selector.Items <= nsLabels.Items ==> IsRouteNamespaceAllowed(listener, listenerNS, routeNS, nsLabels)
  {
    if listener.selector.Items <= nsLabels.Items {
      forall k | k in listener.selector
        ensures k in nsLabels && nsLabels[k] == listener.selector[k]
      {
        assert (k, listener.selector[k]) in listener.selector.Items;
      }
    }
  }

  // ----- isRouteAttachedToGateway -----------------------------------------

  /** One parent reference names the Gateway: kind and group absent or Gateway's, same name, same namespace. */
  predicate ParentRefTargets(ref: ParentRef, routeNS: string, gw: Gateway) {
    && (ref.kind.None? || ref.kind.value == "Gateway")
    && (ref.group.None? || ref.group.value == GatewayGroup)
    && ref.name == gw.name
    && (if ref.namespace.Some? then ref.namespace.value else routeNS) == gw.namespace
  }

  /** The early-return scan over parent references. */
  function AnyParentTargets(refs: seq<ParentRef>, routeNS: string, gw: Gateway): (r: bool)
    ensures r <==> exists i :: 0 <= i < |refs| && ParentRefTargets(refs[i], routeNS, gw)
  {
    if refs == [] then false
    else if ParentRefTargets(refs[0], routeNS, gw) then true
    else
      var rest := AnyParentTargets(refs[1..], routeNS, gw);
      assert forall i :: 1 <= i < |refs| ==> refs[i] == refs[1..][i - 1];
      rest
  }

  /** isRouteAttachedToGateway. */
  function IsRouteAttachedToGateway(route: HTTPRoute, gw: Gateway): bool {
    AnyParentTargets(route.parentRefs, route.namespace, gw)
  }

  // ----- validateHTTPSListener --------------------------------------------

  /** Go's %q for a plain string (escaping of special characters is not modelled). */
  function Quote(s: string): string {
    "\"" + s + "\""
  }

  datatype ListenerError = MissingHostname | MissingTLS(host: string) | NotTerminate(host: string) {
    function Message(): string {
      match this
      case MissingHostname => "hostname must be specified for HTTPS protocol"
      case MissingTLS(h) => "hostname=" + Quote(h) + ": missing TLS config"
      case NotTerminate(h) => "hostname=" + Quote(h) + ": TLS mode must be 'Terminate'"
    }
  }

  /** validateHTTPSListener: only HTTPS listeners are checked, in the order hostname, TLS block, mode. */
  function ValidateHTTPSListener(l: Listener): Option<ListenerError> {
    if l.protocol != "HTTPS" then None
    else if l.hostname.None? || l.hostname.value == "" then Some(MissingHostname)
    else if l.tls.None? then Some(MissingTLS(l.hostname.value))
    else if l.tls.value.mode != Some("Terminate") then Some(NotTerminate(l.hostname.value))
    else None
  }

  /** A listener passes iff it is not HTTPS, or it has a hostname, a TLS block and mode Terminate. */
  lemma ValidateHTTPSListenerAccepts(l: Listener)
    ensures ValidateHTTPSListener(l).None? <==>
      (l.protocol != "HTTPS" ||
       (l.hostname.Some? && l.hostname.value != "" && l.tls.Some? && l.tls.value.mode == Some("Terminate")))
  {
  }

  /** The first failing check decides the error: hostname before TLS block before mode. */
  lemma ValidateHTTPSListenerOrder(l: Listener)
    requires l.protocol == "HTTPS"
    ensures (l.hostname.None? || l.hostname == Some("")) ==> ValidateHTTPSListener(l) == Some(MissingHostname)
    ensures l.hostname.Some? && l.hostname.value != "" && l.tls.None? ==>
      ValidateHTTPSListener(l) == Some(MissingTLS(l.hostname.value))
    ensures l.hostname.Some? && l.hostname.value != "" && l.tls.Some? && l.tls.value.mode != Some("Terminate") ==>
      ValidateHTTPSListener(l) == Some(NotTerminate(l.hostname.value))
  {
  }

  // ----- joinErrors --------------------------------------------------------

  /** One bullet line of an aggregated error message. */
  function Bullet(msg: string): string {
    "- " + msg + "\n"
  }

  /** joinErrors: the strings.Builder fold, one bullet line per error in order. */
  function JoinErrors(errs: seq<string>): string {
    if errs == [] then "" else JoinErrors(errs[..|errs| - 1]) + Bullet(errs[|errs| - 1])
  }

  /** Joining distributes over concatenation of the error lists. */
  lemma {:induction false} JoinErrorsAppend(a: seq<string>, b: seq<string>)
    ensures JoinErrors(a + b) == JoinErrors(a) + JoinErrors(b)
    decreases |b|
  {
    if b == [] {
      assert a + b == a;
    } else {
      var b' := b[..|b| - 1];
      assert (a + b)[..|a + b| - 1] == a + b';
      assert (a + b)[|a + b| - 1] == b[|b| - 1];
      JoinErrorsAppend(a, b');
    }
  }

  /** The joined text is the bullets in order: each message sits between "- " and a newline. */
  lemma {:induction false} JoinErrorsAt(errs: seq<string>, i: nat)
    requires i < |errs|
    ensures JoinErrors(errs) == JoinErrors(errs[..i]) + Bullet(errs[i]) + JoinErrors(errs[i + 1..])
  {
    var upto, post := errs[..i + 1], errs[i + 1..];
    assert JoinErrors(upto) == JoinErrors(errs[..i]) + Bullet(errs[i]) by {
      assert upto[..|upto| - 1] == errs[..i];
      assert upto[|upto| - 1] == errs[i];
    }
    assert errs == upto + post;
    JoinErrorsAppend(upto, post);
  }

  /** The empty list gives the empty text, and only it does. */
  lemma JoinErrorsEmpty(errs: seq<string>)
    ensures JoinErrors(errs) == "" <==> errs == []
  {
    if errs != [] {
      assert |Bullet(errs[|errs| - 1])| >= 3;
    }
  }
}
