/**
 * Translation of a Gateway's topology into the provider's L7 load-balancer
 * input (internal/service/lb/helpers.go).  Hosts and upstream zones sit in Go
 * maps, so the order of the zone lists is not fixed; the contracts speak of
 * their members, never of their order.
 */
module LbTranslate {
  import opened Wrappers
  import opened Text
  import opened Kube
  import opened GatewayTypes
  import opened Config

  /** One upstream server: a node IP, the NodePort and the weight. */
  datatype Upstream = Upstream(ip: string, port: int, weight: int)

  /** A named pool of upstream servers. */
  datatype UpstreamZone = UpstreamZone(id: string, upstreams: seq<Upstream>)

  /** A path prefix routed to an upstream zone. */
  datatype LocationZone = LocationZone(location: string, upstreamId: string)

  /** A virtual host of the load balancer. */
  datatype VHostZone = VHostZone(
    id: string,
    domains: seq<string>,
    sslCertId: string,
    ssl: bool,
    ports: seq<int>,
    locationZones: seq<LocationZone>)

  /** The create input of an L7 load balancer. */
  datatype LbInput = LbInput(
    name: string,
    locationId: int,
    upstreamZones: seq<UpstreamZone>,
    vhostZones: seq<VHostZone>,
    labels: map<string, string>)

  /** What translateGatewayToLBInput returns: an optional input and an optional error, independently. */
  datatype Translation = Translation(input: Option<LbInput>, err: Option<string>)

  const EmptyZonesError: string := "vhost or upstream can't be empty, can't continue"
  const NameLimit: nat := 32

  /** Go's int32(n) conversion: two's-complement wrap-around to 32 bits. */
  function ToInt32(n: int): (r: int)
    ensures -0x8000_0000 <= r < 0x8000_0000
    ensures (r - n) % 0x1_0000_0000 == 0
    ensures -0x8000_0000 <= n < 0x8000_0000 ==> r == n
  {
    (n + 0x8000_0000) % 0x1_0000_0000 - 0x8000_0000
  }

  /** The deterministic upstream zone id of a path: "upstream-zone-<service>-<nodePort>". */
  function UpstreamId(p: PathInfo): string {
    "upstream-zone-" + p.service.name + "-" + IntToString(p.nodePort)
  }

  function VHostZoneId(host: string): string {
    "vhost-zone-" + host
  }

  /** The upstream servers of a path: one per node IP, on the NodePort, weight 1. */
  function MembersOf(ips: seq<string>, port: int): seq<Upstream> {
    seq(|ips|, k requires 0 <= k < |ips| => Upstream(ips[k], port, 1))
  }

  /** The upstream zone a path registers when its id is new. */
  function ZoneOf(p: PathInfo): (z: UpstreamZone)
    ensures z.id == UpstreamId(p)
  {
    UpstreamZone(UpstreamId(p), MembersOf(p.nodeIps, ToInt32(p.nodePort)))
  }

  /** The location zones of a vhost: one per path, in path order. */
  function LocationZonesOf(paths: seq<PathInfo>): seq<LocationZone> {
    seq(|paths|, k requires 0 <= k < |paths| => LocationZone(paths[k].path, UpstreamId(paths[k])))
  }

  /** The certificate id of a vhost: the resolved id when the vhost is TLS and one is known, else "". */
  function SslCertId(host: string, vh: VHostInfo, tlsInfo: map<string, string>): string {
    if vh.ssl && host in tlsInfo then tlsInfo[host] else ""
  }

  /** A vhost gets a zone only when it has ports and paths. */
  predicate Servable(vh: VHostInfo) {
    |vh.ports| > 0 && |vh.paths| > 0
  }

  function VHostZoneOf(host: string, vh: VHostInfo, tlsInfo: map<string, string>): (z: VHostZone)
    ensures z.domains == [host] && z.ssl == vh.ssl && z.ports == vh.ports
  {
    VHostZone(VHostZoneId(host), [host], SslCertId(host, vh, tlsInfo), vh.ssl, vh.ports, LocationZonesOf(vh.paths))
  }

  /**
   * Registration of a vhost's paths in the upstream map, in path order: an id
   * already present keeps its zone (the first path with an id defines it).
   */
  function Register(m: map<string, UpstreamZone>, paths: seq<PathInfo>): map<string, UpstreamZone>
    decreases |paths|
  {
    if paths == [] then m else Register(RegisterOne(m, paths[0]), paths[1..])
  }

  /** Registration of one path: a new id gets the path's zone, a known id is left alone. */
  function RegisterOne(m: map<string, UpstreamZone>, p: PathInfo): map<string, UpstreamZone> {
    if UpstreamId(p) in m then m else m[UpstreamId(p) := ZoneOf(p)]
  }

  /** Registering the paths from j on is registering path j, then the paths after it. */
  lemma RegisterAt(m: map<string, UpstreamZone>, paths: seq<PathInfo>, j: nat)
    requires j < |paths|
    ensures Register(m, paths[j..]) == Register(RegisterOne(m, paths[j]), paths[j + 1..])
  {
    assert paths[j..][0] == paths[j];
    assert paths[j..][1..] == paths[j + 1..];
  }

  /** Every zone of the map is stored under its own id. */
  ghost predicate KeyedById(m: map<string, UpstreamZone>) {
    forall id :: id in m ==> m[id].id == id
  }

  lemma RegisterFacts(m: map<string, UpstreamZone>, paths: seq<PathInfo>)
    ensures var r := Register(m, paths);
      && (forall id :: id in r <==> id in m || exists p :: p in paths && UpstreamId(p) == id)
      && (forall id :: id in m ==> r[id] == m[id])
      && (forall id :: id in r && id !in m ==> exists p :: p in paths && r[id] == ZoneOf(p))
      && (KeyedById(m) ==> KeyedById(r))
  {
    RegisterKeys(m, paths);
    forall id | id in m
      ensures Register(m, paths)[id] == m[id]
    {
      RegisterKeeps(m, paths, id);
    }
    RegisterNew(m, paths);
    RegisterKeyed(m, paths);
  }

  lemma {:induction false} RegisterKeys(m: map<string, UpstreamZone>, paths: seq<PathInfo>)
    ensures forall id :: id in Register(m, paths) <==> id in m || exists p :: p in paths && UpstreamId(p) == id
    decreases |paths|
  {
    if paths != [] {
      RegisterKeys(RegisterOne(m, paths[0]), paths[1..]);
      assert forall p :: p in paths <==> p == paths[0] || p in paths[1..] by {
        assert paths == [paths[0]] + paths[1..];
      }
    }
  }

  lemma {:induction false} RegisterNew(m: map<string, UpstreamZone>, paths: seq<PathInfo>)
    ensures forall id :: id in Register(m, paths) && id !in m ==> exists p :: p in paths && Register(m, paths)[id] == ZoneOf(p)
    decreases |paths|
  {
    if paths != [] {
      var m' := RegisterOne(m, paths[0]);
      RegisterNew(m', paths[1..]);
      forall id | id in Register(m, paths) && id !in m
        ensures exists p :: p in paths && Register(m, paths)[id] == ZoneOf(p)
      {
        if id in m' {
          RegisterKeeps(m', paths[1..], id);
          assert paths[0] in paths;
        } else {
          var p :| p in paths[1..] && Register(m', paths[1..])[id] == ZoneOf(p);
          assert p in paths;
        }
      }
    }
  }

  lemma {:induction false} RegisterKeyed(m: map<string, UpstreamZone>, paths: seq<PathInfo>)
    ensures KeyedById(m) ==> KeyedById(Register(m, paths))
    decreases |paths|
  {
    if paths != [] {
      RegisterKeyed(RegisterOne(m, paths[0]), paths[1..]);
    }
  }

  lemma {:induction false} RegisterKeeps(m: map<string, UpstreamZone>, paths: seq<PathInfo>, id: string)
    requires id in m
    ensures id in Register(m, paths) && Register(m, paths)[id] == m[id]
    decreases |paths|
  {
    if paths != [] {
      RegisterKeeps(RegisterOne(m, paths[0]), paths[1..], id);
    }
  }

  /** Within one vhost, the first path carrying an id is the one whose zone is registered. */
  lemma {:induction false} RegisterFirstWins(m: map<string, UpstreamZone>, paths: seq<PathInfo>, k: nat, id: string)
    requires k < |paths| && UpstreamId(paths[k]) == id && id !in m
    requires forall j :: 0 <= j < k ==> UpstreamId(paths[j]) != id
    ensures id in Register(m, paths)
    ensures Register(m, paths)[id] == ZoneOf(paths[k])
    decreases k
  {
    if k == 0 {
      RegisterFirstHere(m, paths, id);
    } else {
      RegisterSkipsHead(m, paths, id);
      assert paths[1..][k - 1] == paths[k];
      RegisterFirstWins(RegisterOne(m, paths[0]), paths[1..], k - 1, id);
    }
  }

  lemma RegisterFirstHere(m: map<string, UpstreamZone>, paths: seq<PathInfo>, id: string)
    requires paths != [] && UpstreamId(paths[0]) == id && id !in m
    ensures id in Register(m, paths) && Register(m, paths)[id] == ZoneOf(paths[0])
  {
    RegisterKeeps(RegisterOne(m, paths[0]), paths[1..], id);
  }

  lemma RegisterSkipsHead(m: map<string, UpstreamZone>, paths: seq<PathInfo>, id: string)
    requires paths != [] && UpstreamId(paths[0]) != id && id !in m
    ensures id !in RegisterOne(m, paths[0])
    ensures Register(m, paths) == Register(RegisterOne(m, paths[0]), paths[1..])
  {
  }

  /** The fallback location id: the parsed value, or 1 when the string is not an integer. */
  function LocationId(loc: string): (id: int)
    ensures Atoi(loc).Some? ==> id == Atoi(loc).value
    ensures Atoi(loc).None? ==> id == 1
  {
    match Atoi(loc)
    case Some(v) => v
    case None => 1
  }

  /**
   * The error strconv.Atoi reports for a string it cannot parse: a well-formed
   * numeral outside the 64-bit range is out of range, anything else is invalid
   * syntax.
   */
  function AtoiError(loc: string): string {
    "strconv.Atoi: parsing " + "\"" + loc + "\"" +
    (if DecimalSyntax(loc) then ": value out of range" else ": invalid syntax")
  }

  /** The first NameLimit characters of s. */
  function Cut(s: string): (r: string)
    ensures |r| == if |s| > NameLimit then NameLimit else |s|
    ensures r == s[..|r|]
  {
    if |s| > NameLimit then s[..NameLimit] else s
  }

  /**
   * getLoadBalancerName: "gw-" and the first 32 characters of "a" + uid with
   * every '-' removed.
   */
  function GetLoadBalancerName(uid: string): (name: string)
    ensures HasPrefix(name, "gw-")
    ensures 4 <= |name| <= 3 + NameLimit
    ensures '-' !in name[3..]
  {
    var stripped := RemoveAll("a" + uid, '-');
    assert 'a' in stripped;
    var cut := Cut(stripped);
    assert ("gw-" + cut)[3..] == cut;
    "gw-" + cut
  }

  lemma {:induction false} RemoveAllAbsent(s: string, c: char)
    requires c !in s
    ensures RemoveAll(s, c) == s
    decreases |s|
  {
    if s != [] {
      RemoveAllAbsent(s[1..], c);
      assert s == [s[0]] + s[1..];
    }
  }

  /** Removing the dashes of "a" + uid is "a" followed by uid without its dashes. */
  lemma RemoveAllAfterA(uid: string)
    ensures RemoveAll("a" + uid, '-') == "a" + RemoveAll(uid, '-')
  {
    assert ("a" + uid)[0] == 'a';
    assert ("a" + uid)[1..] == uid;
  }

  lemma GetLoadBalancerNameShort(uid: string)
    requires '-' !in uid && |uid| < NameLimit
    ensures GetLoadBalancerName(uid) == "gw-a" + uid
  {
    RemoveAllAfterA(uid);
    RemoveAllAbsent(uid, '-');
  }

  /** Two uids that differ only in their dashes name the same load balancer. */
  lemma GetLoadBalancerNameIgnoresDashes(u1: string, u2: string)
    requires RemoveAll(u1, '-') == RemoveAll(u2, '-')
    ensures GetLoadBalancerName(u1) == GetLoadBalancerName(u2)
  {
    RemoveAllAfterA(u1);
    RemoveAllAfterA(u2);
  }

  /** Two uids that agree on their first 31 dash-free characters name the same load balancer. */
  lemma GetLoadBalancerNameTruncates(u1: string, u2: string)
    requires |RemoveAll(u1, '-')| >= NameLimit - 1 && |RemoveAll(u2, '-')| >= NameLimit - 1
    requires RemoveAll(u1, '-')[..NameLimit - 1] == RemoveAll(u2, '-')[..NameLimit - 1]
    ensures GetLoadBalancerName(u1) == GetLoadBalancerName(u2)
  {
    RemoveAllAfterA(u1);
    RemoveAllAfterA(u2);
    var x1 := RemoveAll(u1, '-');
    var x2 := RemoveAll(u2, '-');
    assert Cut("a" + x1) == ("a" + x1)[..NameLimit] == "a" + x1[..NameLimit - 1];
    assert Cut("a" + x2) == ("a" + x2)[..NameLimit] == "a" + x2[..NameLimit - 1];
  }

  // ----- what a translation is, up to the order of the map iterations -----

  /** p is a path of one of the given hosts of the topology. */
  ghost predicate PathOf(info: GatewayInfo, hosts: set<string>, p: PathInfo) {
    exists h :: h in hosts && h in info.vhosts && p in info.vhosts[h].paths
  }

  ghost predicate HasServableHost(info: GatewayInfo) {
    exists h :: h in info.vhosts && Servable(info.vhosts[h])
  }

  /** The vhost zones are exactly those of the servable hosts among `hosts`, each once. */
  ghost predicate VHostZonesFor(info: GatewayInfo, tlsInfo: map<string, string>, hosts: set<string>, zs: seq<VHostZone>) {
    && (forall z :: z in zs <==>
          exists h :: h in hosts && h in info.vhosts && Servable(info.vhosts[h]) && z == VHostZoneOf(h, info.vhosts[h], tlsInfo))
    && (forall i, j :: 0 <= i < j < |zs| ==> zs[i].domains != zs[j].domains)
  }

  /** The upstream map covers exactly the ids of the paths of `hosts`, each zone that of such a path. */
  ghost predicate UpstreamsFor(info: GatewayInfo, hosts: set<string>, m: map<string, UpstreamZone>) {
    && KeyedById(m)
    && (forall id :: id in m <==> exists p :: PathOf(info, hosts, p) && UpstreamId(p) == id)
    && (forall id :: id in m ==> exists p :: PathOf(info, hosts, p) && m[id] == ZoneOf(p))
  }

  /** The upstream zones carry distinct ids, each the id of a path, each zone that of such a path. */
  ghost predicate UpstreamZonesFor(info: GatewayInfo, zs: seq<UpstreamZone>) {
    && (forall i, j :: 0 <= i < j < |zs| ==> zs[i].id != zs[j].id)
    && (forall z :: z in zs ==> exists p :: PathOf(info, info.vhosts.Keys, p) && z == ZoneOf(p))
    && (forall p :: PathOf(info, info.vhosts.Keys, p) ==> exists z :: z in zs && z.id == UpstreamId(p))
  }

  /** Every admissible outcome of translateGatewayToLBInput. */
  ghost predicate Translated(info: GatewayInfo, tlsInfo: map<string, string>, loc: string, t: Translation) {
    if !HasServableHost(info) then t == Translation(None, Some(EmptyZonesError))
    else
      && t.input.Some?
      && t.input.value.name == GetLoadBalancerName(info.uid)
      && t.input.value.locationId == LocationId(loc)
      && t.input.value.labels == map[GwLabelId := info.uid]
      && t.err == (if Atoi(loc).None? then Some(AtoiError(loc)) else None)
      && VHostZonesFor(info, tlsInfo, info.vhosts.Keys, t.input.value.vhostZones)
      && UpstreamZonesFor(info, t.input.value.upstreamZones)
  }

  /** The upstream servers of one path, appended node IP by node IP. */
  method UpstreamsOf(ips: seq<string>, port: int) returns (ups: seq<Upstream>)
    ensures ups == MembersOf(ips, port)
  {
    ups := [];
    var k := 0;
    while k < |ips|
      invariant 0 <= k <= |ips|
      invariant |ups| == k
      invariant forall i :: 0 <= i < k ==> ups[i] == Upstream(ips[i], port, 1)
    {
      ups := ups + [Upstream(ips[k], port, 1)];
      k := k + 1;
    }
  }

  /** Registration of one path: a new id gets the path's zone, a known id is left alone. */
  method RegisterPath(m: map<string, UpstreamZone>, p: PathInfo) returns (m': map<string, UpstreamZone>)
    ensures m' == RegisterOne(m, p)
  {
    var upstreamId := UpstreamId(p);
    m' := m;
    if upstreamId !in m {
      var ups := UpstreamsOf(p.nodeIps, ToInt32(p.nodePort));
      m' := m[upstreamId := UpstreamZone(upstreamId, ups)];
    }
  }

  /** The path loop of one vhost: its location zones in order, and the registration of its upstreams. */
  method VisitPaths(paths: seq<PathInfo>, m: map<string, UpstreamZone>)
    returns (locationZones: seq<LocationZone>, m': map<string, UpstreamZone>)
    ensures locationZones == LocationZonesOf(paths)
    ensures m' == Register(m, paths)
  {
    ghost var target := Register(m, paths);
    locationZones := [];
    m' := m;
    var j := 0;
    while j < |paths|
      invariant 0 <= j <= |paths|
      invariant locationZones == LocationZonesOf(paths[..j])
      invariant Register(m', paths[j..]) == target
    {
      var p := paths[j];
      var upstreamId := UpstreamId(p);
      LocationZonesSnoc(paths, j);
      locationZones := locationZones + [LocationZone(p.path, upstreamId)];
      RegisterAt(m', paths, j);
      m' := RegisterPath(m', p);
      j := j + 1;
    }
    assert paths[j..] == [];
    assert paths[..j] == paths;
  }

  lemma LocationZonesSnoc(paths: seq<PathInfo>, j: nat)
    requires j < |paths|
    ensures LocationZonesOf(paths[..j + 1]) == LocationZonesOf(paths[..j]) + [LocationZone(paths[j].path, UpstreamId(paths[j]))]
  {
  }

  /** The work of one vhost: its location zones, its zone if servable, and its upstream registrations. */
  method TranslateHost(host: string, vh: VHostInfo, tlsInfo: map<string, string>, m: map<string, UpstreamZone>)
    returns (zone: Option<VHostZone>, m': map<string, UpstreamZone>)
    ensures m' == Register(m, vh.paths)
    ensures zone == if Servable(vh) then Some(VHostZoneOf(host, vh, tlsInfo)) else None
  {
    var sslId := "";
    if vh.ssl && host in tlsInfo {
      sslId := tlsInfo[host];
    }
    var locationZones;
    locationZones, m' := VisitPaths(vh.paths, m);
    if |vh.ports| == 0 || |locationZones| == 0 {
      zone := None;
    } else {
      zone := Some(VHostZone(VHostZoneId(host), [host], sslId, vh.ssl, vh.ports, locationZones));
    }
  }

  /** Registering one more host's paths extends the upstream map to that host. */
  lemma UpstreamsStep(info: GatewayInfo, done: set<string>, host: string, m: map<string, UpstreamZone>)
    requires host in info.vhosts && host !in done
    requires UpstreamsFor(info, done, m)
    ensures UpstreamsFor(info, done + {host}, Register(m, info.vhosts[host].paths))
  {
    var paths := info.vhosts[host].paths;
    var r := Register(m, paths);
    RegisterFacts(m, paths);
    forall id | id in r
      ensures exists p :: PathOf(info, done + {host}, p) && UpstreamId(p) == id
      ensures exists p :: PathOf(info, done + {host}, p) && r[id] == ZoneOf(p)
    {
      if id in m {
        var p :| PathOf(info, done, p) && m[id] == ZoneOf(p);
        var h :| h in done && h in info.vhosts && p in info.vhosts[h].paths;
        assert PathOf(info, done + {host}, p);
      } else {
        var p :| p in paths && r[id] == ZoneOf(p);
        assert PathOf(info, done + {host}, p);
      }
    }
    forall id | exists p :: PathOf(info, done + {host}, p) && UpstreamId(p) == id
      ensures id in r
    {
      var p :| PathOf(info, done + {host}, p) && UpstreamId(p) == id;
      var h :| h in done + {host} && h in info.vhosts && p in info.vhosts[h].paths;
      if h != host {
        assert PathOf(info, done, p);
      }
    }
  }

  /** Adding one more host's optional zone extends the vhost zone list to that host. */
  lemma VHostZonesStep(info: GatewayInfo, tlsInfo: map<string, string>, done: set<string>, host: string,
                       zs: seq<VHostZone>, zone: Option<VHostZone>)
    requires host in info.vhosts && host !in done && done <= info.vhosts.Keys
    requires VHostZonesFor(info, tlsInfo, done, zs)
    requires zone == if Servable(info.vhosts[host]) then Some(VHostZoneOf(host, info.vhosts[host], tlsInfo)) else None
    ensures VHostZonesFor(info, tlsInfo, done + {host}, if zone.Some? then zs + [zone.value] else zs)
  {
    var zs' := if zone.Some? then zs + [zone.value] else zs;
    forall i | 0 <= i < |zs|
      ensures zs[i].domains != [host]
    {
      assert zs[i] in zs;
    }
    forall z | z in zs'
      ensures exists h :: h in done + {host} && h in info.vhosts && Servable(info.vhosts[h]) && z == VHostZoneOf(h, info.vhosts[h], tlsInfo)
    {
      if z in zs {
        var h :| h in done && h in info.vhosts && Servable(info.vhosts[h]) && z == VHostZoneOf(h, info.vhosts[h], tlsInfo);
        assert h in done + {host};
      } else {
        assert z == zone.value;
      }
    }
    forall z | exists h :: h in done + {host} && h in info.vhosts && Servable(info.vhosts[h]) && z == VHostZoneOf(h, info.vhosts[h], tlsInfo)
      ensures z in zs'
    {
      var h :| h in done + {host} && h in info.vhosts && Servable(info.vhosts[h]) && z == VHostZoneOf(h, info.vhosts[h], tlsInfo);
      if h != host {
        assert h in done;
      }
    }
    if zone.Some? {
      forall i, j | 0 <= i < j < |zs'|
        ensures zs'[i].domains != zs'[j].domains
      {
        if j == |zs| {
          assert zs'[i] == zs[i] && zs'[j] == zone.value;
        } else {
          assert zs'[i] == zs[i] && zs'[j] == zs[j];
        }
      }
    }
  }

  /** The upstream zones in the map's (unspecified) iteration order. */
  method CollectUpstreams(m: map<string, UpstreamZone>) returns (zs: seq<UpstreamZone>)
    requires KeyedById(m)
    ensures forall z :: z in zs <==> z.id in m && z == m[z.id]
    ensures forall i, j :: 0 <= i < j < |zs| ==> zs[i].id != zs[j].id
  {
    zs := [];
    var keys := m.Keys;
    while keys != {}
      invariant keys <= m.Keys
      invariant forall z :: z in zs <==> z.id in m.Keys - keys && z == m[z.id]
      invariant forall i, j :: 0 <= i < j < |zs| ==> zs[i].id != zs[j].id
      decreases |keys|
    {
      var id :| id in keys;
      forall i | 0 <= i < |zs|
        ensures zs[i].id != id
      {
        assert zs[i] in zs;
      }
      zs := zs + [m[id]];
      keys := keys - {id};
    }
  }

  /** translateGatewayToLBInput, with the SC_LOCATION_ID value (or its default "1") passed in as `loc`. */
  method Translate(info: GatewayInfo, tlsInfo: map<string, string>, loc: string) returns (t: Translation)
    ensures Translated(info, tlsInfo, loc, t)
  {
    var upstreamMap: map<string, UpstreamZone> := map[];
    var vhostZones: seq<VHostZone> := [];
    var remaining := info.vhosts.Keys;
    while remaining != {}
      invariant remaining <= info.vhosts.Keys
      invariant VHostZonesFor(info, tlsInfo, info.vhosts.Keys - remaining, vhostZones)
      invariant UpstreamsFor(info, info.vhosts.Keys - remaining, upstreamMap)
      decreases |remaining|
    {
      var host :| host in remaining;
      ghost var done := info.vhosts.Keys - remaining;
      var zone, m' := TranslateHost(host, info.vhosts[host], tlsInfo, upstreamMap);
      UpstreamsStep(info, done, host, upstreamMap);
      VHostZonesStep(info, tlsInfo, done, host, vhostZones, zone);
      upstreamMap := m';
      if zone.Some? {
        vhostZones := vhostZones + [zone.value];
      }
      remaining := remaining - {host};
      assert info.vhosts.Keys - remaining == done + {host};
    }
    assert info.vhosts.Keys - remaining == info.vhosts.Keys;
    var upstreamZones := CollectUpstreams(upstreamMap);
    UpstreamZonesOfMap(info, upstreamMap, upstreamZones);
    if |vhostZones| == 0 || |upstreamZones| == 0 {
      EmptyZonesMeansNoServableHost(info, tlsInfo, vhostZones, upstreamZones);
      return Translation(None, Some(EmptyZonesError));
    }
    assert vhostZones[0] in vhostZones;
    var locId := 1;
    var err: Option<string> := None;
    var parsed := Atoi(loc);
    if parsed.Some? {
      locId := parsed.value;
    } else {
      err := Some(AtoiError(loc));
    }
    var input := LbInput(GetLoadBalancerName(info.uid), locId, upstreamZones, vhostZones, map[GwLabelId := info.uid]);
    t := Translation(Some(input), err);
  }

  lemma UpstreamZonesOfMap(info: GatewayInfo, m: map<string, UpstreamZone>, zs: seq<UpstreamZone>)
    requires UpstreamsFor(info, info.vhosts.Keys, m)
    requires forall z :: z in zs <==> z.id in m && z == m[z.id]
    requires forall i, j :: 0 <= i < j < |zs| ==> zs[i].id != zs[j].id
    ensures UpstreamZonesFor(info, zs)
  {
    forall p | PathOf(info, info.vhosts.Keys, p)
      ensures exists z :: z in zs && z.id == UpstreamId(p)
    {
      var id := UpstreamId(p);
      assert id in m;
      assert m[id] in zs;
    }
  }

  lemma EmptyZonesMeansNoServableHost(info: GatewayInfo, tlsInfo: map<string, string>, vz: seq<VHostZone>, uz: seq<UpstreamZone>)
    requires VHostZonesFor(info, tlsInfo, info.vhosts.Keys, vz)
    requires UpstreamZonesFor(info, uz)
    requires |vz| == 0 || |uz| == 0
    ensures !HasServableHost(info)
  {
    if HasServableHost(info) {
      var h :| h in info.vhosts && Servable(info.vhosts[h]);
      if |vz| == 0 {
        VHostZoneListed(info, tlsInfo, vz, h);
      } else {
        var p := info.vhosts[h].paths[0];
        assert PathOf(info, info.vhosts.Keys, p);
      }
    }
  }

  lemma VHostZoneListed(info: GatewayInfo, tlsInfo: map<string, string>, vz: seq<VHostZone>, h: string)
    requires VHostZonesFor(info, tlsInfo, info.vhosts.Keys, vz)
    requires h in info.vhosts && Servable(info.vhosts[h])
    ensures VHostZoneOf(h, info.vhosts[h], tlsInfo) in vz
  {
  }

  // ----- properties of a translation -----

  /** A servable host's zone routes each of its paths, in order, to the upstream zone of that path. */
  lemma TranslatedRoutesEveryPath(info: GatewayInfo, tlsInfo: map<string, string>, loc: string, t: Translation, host: string)
    requires Translated(info, tlsInfo, loc, t)
    requires host in info.vhosts && Servable(info.vhosts[host])
    ensures t.input.Some?
    ensures exists z :: (z in t.input.value.vhostZones && z.id == "vhost-zone-" + host && z.domains == [host]
      && |z.locationZones| == |info.vhosts[host].paths|
      && (forall k :: 0 <= k < |z.locationZones| ==>
            z.locationZones[k].location == info.vhosts[host].paths[k].path
            && exists u :: u in t.input.value.upstreamZones && u.id == z.locationZones[k].upstreamId))
  {
    var vh := info.vhosts[host];
    assert HasServableHost(info);
    var input := t.input.value;
    var z := VHostZoneOf(host, vh, tlsInfo);
    VHostZoneListed(info, tlsInfo, input.vhostZones, host);
    forall k | 0 <= k < |z.locationZones|
      ensures exists u :: u in input.upstreamZones && u.id == z.locationZones[k].upstreamId
    {
      var p := vh.paths[k];
      assert PathOf(info, info.vhosts.Keys, p);
      assert z.locationZones[k].upstreamId == UpstreamId(p);
    }
    assert z in input.vhostZones && z.id == "vhost-zone-" + host && z.domains == [host];
  }

  /** A TLS vhost carries the resolved certificate id; a missing id is not an error but an empty id. */
  lemma TranslatedCertIds(info: GatewayInfo, tlsInfo: map<string, string>, loc: string, t: Translation, z: VHostZone)
    requires Translated(info, tlsInfo, loc, t) && t.input.Some?
    requires z in t.input.value.vhostZones
    ensures exists h :: (h in info.vhosts && z.domains == [h]
      && z.sslCertId == (if info.vhosts[h].ssl && h in tlsInfo then tlsInfo[h] else ""))
  {
  }

  /** Each upstream server of a translation is a node IP of a path, on that path's NodePort, with weight 1. */
  lemma TranslatedUpstreams(info: GatewayInfo, tlsInfo: map<string, string>, loc: string, t: Translation,
                            u: UpstreamZone, k: nat)
    requires Translated(info, tlsInfo, loc, t) && t.input.Some?
    requires u in t.input.value.upstreamZones && k < |u.upstreams|
    ensures exists p :: (PathOf(info, info.vhosts.Keys, p) && k < |p.nodeIps| && u.id == UpstreamId(p)
      && u.upstreams[k] == Upstream(p.nodeIps[k], ToInt32(p.nodePort), 1))
  {
  }

  /** An unparsable location still yields the input (location 1), together with the parse error. */
  lemma TranslatedBadLocation(info: GatewayInfo, tlsInfo: map<string, string>, loc: string, t: Translation)
    requires Translated(info, tlsInfo, loc, t) && HasServableHost(info) && Atoi(loc).None?
    ensures t.input.Some? && t.input.value.locationId == 1 && t.err == Some(AtoiError(loc))
  {
  }

  /**
   * A location id too large for 64 bits fails to parse although it is a
   * well-formed numeral, so its error is the out-of-range one.
   */
  lemma OutOfRangeLocation()
    ensures Atoi("99999999999999999999").None?
    ensures DecimalSyntax("99999999999999999999")
  {
    var s := "99999999999999999999";
    assert DecimalSyntax(s);
    DigitsValueLower(s);
    Pow10Of19();
  }
}
