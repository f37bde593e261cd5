/**
 * The TLS resolver (buildTLSInfo in internal/gateway/controller/gateway.go):
 * for every HTTPS listener, the hostname's certificate requirement (a
 * provider certificate id or a Secret), with listener problems collected and
 * reported together, and a failed Secret read returned at once.
 */
module TlsResolver {
  import opened Wrappers
  import opened Text
  import opened Kube
  import opened GatewayTypes
  import opened Matching

  /** The TLS option naming an existing provider certificate. */
  const TlsExternalIdKey: string := "sc-certmgr-cert-id"

  /** A certificateRef the resolver accepts: kind absent or Secret, group absent or core. */
  predicate IsSecretRef(ref: CertRef) {
    (ref.kind.None? || ref.kind.value == "Secret") && (ref.group.None? || ref.group.value == "")
  }

  /** The name of the first Secret ref, or "" when there is none. */
  function SecretRefName(refs: seq<CertRef>): (name: string)
    ensures name != "" ==> exists k :: 0 <= k < |refs| && IsSecretRef(refs[k]) && refs[k].name == name
    ensures (forall k :: 0 <= k < |refs| ==> !IsSecretRef(refs[k])) ==> name == ""
  {
    if refs == [] then ""
    else if IsSecretRef(refs[0]) then refs[0].name
    else
      assert forall k :: 1 <= k < |refs| ==> refs[k] == refs[1..][k - 1];
      SecretRefName(refs[1..])
  }

  /** How buildTLSInfo fails. */
  datatype TlsFailure = SecretGetFailed(namespace: string, name: string) | ValidationErrors(errs: seq<string>) {
    function Message(): string {
      match this
      case SecretGetFailed(ns, n) => "can't get secret " + ns + "/" + n
      case ValidationErrors(errs) => "validation errors:\n" + JoinErrors(errs)
    }
  }

  /** What one listener (at index i) contributes. */
  datatype ListenerOutcome =
    | Skipped
    | Problem(msg: string)
    | Resolved(host: string, info: TLSConfigInfo)
    | GetFails(namespace: string, name: string)

  function ListenerPrefix(i: int): string {
    "listener[" + IntToString(i) + "]: "
  }

  /** The body of the listener loop for listener i, as a value. */
  function OutcomeOf(i: int, l: Listener, gw: Gateway, cluster: Cluster): ListenerOutcome {
    if l.protocol != "HTTPS" then Skipped
    else match ValidateHTTPSListener(l)
      case Some(e) => Problem(ListenerPrefix(i) + e.Message())
      case None =>
        var hostname := l.hostname.value;
        var tls := l.tls.value;
        if TlsExternalIdKey in tls.options && tls.options[TlsExternalIdKey] != "" then
          Resolved(hostname, TLSConfigInfo(tls.options[TlsExternalIdKey], None))
        else
          var secretName := SecretRefName(tls.certificateRefs);
          if secretName == "" then Problem(ListenerPrefix(i) + "no valid refs found")
          else if NsName(gw.namespace, secretName) !in cluster.secrets then GetFails(gw.namespace, secretName)
          else Resolved(hostname, TLSConfigInfo("", Some(cluster.secrets[NsName(gw.namespace, secretName)])))
  }

  /** The outcomes of all listeners, by index. */
  function Outcomes(gw: Gateway, cluster: Cluster): (os: seq<ListenerOutcome>)
    ensures |os| == |gw.listeners|
    ensures forall j :: 0 <= j < |os| ==> os[j] == OutcomeOf(j, gw.listeners[j], gw, cluster)
  {
    seq(|gw.listeners|, j requires 0 <= j < |gw.listeners| => OutcomeOf(j, gw.listeners[j], gw, cluster))
  }

  /** The loop's state: the result map and the collected problems. */
  datatype TlsState = TlsState(result: map<string, TLSConfigInfo>, errs: seq<string>)

  /** The loop over the remaining outcomes: problems collect, hostnames resolve, a failed Secret read stops it. */
  function TlsFold(st: TlsState, os: seq<ListenerOutcome>): Result<TlsState, TlsFailure>
    decreases |os|
  {
    if os == [] then Ok(st)
    else match os[0]
      case Skipped => TlsFold(st, os[1..])
      case Problem(msg) => TlsFold(st.(errs := st.errs + [msg]), os[1..])
      case Resolved(host, info) => TlsFold(st.(result := st.result[host := info]), os[1..])
      case GetFails(ns, n) => Err(SecretGetFailed(ns, n))
  }

  const InitialTlsState: TlsState := TlsState(map[], [])

  /** buildTLSInfo as a whole. */
  function BuildTLSSpec(gw: Gateway, cluster: Cluster): Result<map<string, TLSConfigInfo>, TlsFailure> {
    match TlsFold(InitialTlsState, Outcomes(gw, cluster))
    case Err(e) => Err(e)
    case Ok(st) => if st.errs != [] then Err(ValidationErrors(st.errs)) else Ok(st.result)
  }

  /** The body of the listener loop for one listener. */
  method ResolveListener(i: int, listener: Listener, gw: Gateway, cluster: Cluster) returns (o: ListenerOutcome)
    ensures o == OutcomeOf(i, listener, gw, cluster)
  {
    if listener.protocol != "HTTPS" {
      return Skipped;
    }
    var invalid := ValidateHTTPSListener(listener);
    if invalid.Some? {
      return Problem(ListenerPrefix(i) + invalid.value.Message());
    }
    var hostname := listener.hostname.value;
    var tls := listener.tls.value;
    if TlsExternalIdKey in tls.options && tls.options[TlsExternalIdKey] != "" {
      return Resolved(hostname, TLSConfigInfo(tls.options[TlsExternalIdKey], None));
    }
    var secretName := "";
    var secretNS := gw.namespace;
    var refs := tls.certificateRefs;
    var j := 0;
    while j < |refs|
      invariant 0 <= j <= |refs|
      invariant SecretRefName(refs) == SecretRefName(refs[j..])
    {
      if IsSecretRef(refs[j]) {
        secretName := refs[j].name;
        break;
      }
      assert refs[j..][1..] == refs[j + 1..];
      j := j + 1;
    }
    if secretName == "" {
      return Problem(ListenerPrefix(i) + "no valid refs found");
    }
    if NsName(secretNS, secretName) !in cluster.secrets {
      return GetFails(secretNS, secretName);
    }
    return Resolved(hostname, TLSConfigInfo("", Some(cluster.secrets[NsName(secretNS, secretName)])));
  }

  /** buildTLSInfo: the listener loop filling result and errs, then the aggregated error. */
  method BuildTLSInfo(gw: Gateway, cluster: Cluster) returns (r: Result<map<string, TLSConfigInfo>, TlsFailure>)
    ensures r == BuildTLSSpec(gw, cluster)
  {
    var result: map<string, TLSConfigInfo> := map[];
    var errs: seq<string> := [];
    var ls := gw.listeners;
    ghost var os := Outcomes(gw, cluster);
    var i := 0;
    while i < |ls|
      invariant 0 <= i <= |ls|
      invariant TlsFold(InitialTlsState, os) == TlsFold(TlsState(result, errs), os[i..])
    {
      var outcome := ResolveListener(i, ls[i], gw, cluster);
      assert os[i..][0] == outcome && os[i..][1..] == os[i + 1..];
      match outcome {
        case Skipped =>
        case Problem(msg) =>
          errs := errs + [msg];
        case Resolved(hostname, info) =>
          result := result[hostname := info];
        case GetFails(ns, name) =>
          return Err(SecretGetFailed(ns, name));
      }
      i := i + 1;
    }
    assert os[i..] == [];
    if |errs| > 0 {
      return Err(ValidationErrors(errs));
    }
    return Ok(result);
  }

  // ------------------------------------------------------------ properties

  /** The problem messages among the outcomes, in order. */
  function Problems(os: seq<ListenerOutcome>): seq<string> {
    if os == [] then []
    else (match os[0] case Problem(m) => [m] case _ => []) + Problems(os[1..])
  }

  predicate SomeGetFails(os: seq<ListenerOutcome>) {
    exists j :: 0 <= j < |os| && os[j].GetFails?
  }

  /** The loop fails exactly when some Secret read fails, and then with that failure. */
  lemma {:induction false} TlsFoldFails(st: TlsState, os: seq<ListenerOutcome>)
    ensures TlsFold(st, os).Err? <==> SomeGetFails(os)
    ensures TlsFold(st, os).Err? ==> TlsFold(st, os).error.SecretGetFailed?
    decreases |os|
  {
    if os != [] && !os[0].GetFails? {
      var st1 := match os[0]
        case Problem(msg) => st.(errs := st.errs + [msg])
        case Resolved(host, info) => st.(result := st.result[host := info])
        case _ => st;
      assert TlsFold(st, os) == TlsFold(st1, os[1..]);
      TlsFoldFails(st1, os[1..]);
      if SomeGetFails(os) {
        var j :| 0 <= j < |os| && os[j].GetFails?;
        assert os[1..][j - 1] == os[j];
      }
      if SomeGetFails(os[1..]) {
        var j :| 0 <= j < |os[1..]| && os[1..][j].GetFails?;
        assert os[j + 1] == os[1..][j];
      }
    } else if os != [] {
      assert os[0].GetFails?;
    }
  }

  /** When the loop succeeds, the problems are appended in order. */
  lemma {:induction false} TlsFoldErrs(st: TlsState, os: seq<ListenerOutcome>)
    requires TlsFold(st, os).Ok?
    ensures TlsFold(st, os).value.errs == st.errs + Problems(os)
    decreases |os|
  {
    if os != [] {
      match os[0]
      case Skipped =>
        TlsFoldErrs(st, os[1..]);
      case Problem(msg) =>
        TlsFoldErrs(st.(errs := st.errs + [msg]), os[1..]);
      case Resolved(host, info) =>
        TlsFoldErrs(st.(result := st.result[host := info]), os[1..]);
      case GetFails(_, _) =>
    }
  }

  /** When the loop succeeds: every resolved hostname is a key, and every key was there before or was resolved to its value. */
  lemma {:induction false} TlsFoldKeys(st: TlsState, os: seq<ListenerOutcome>)
    requires TlsFold(st, os).Ok?
    ensures forall h :: h in st.result ==> h in TlsFold(st, os).value.result
    ensures forall o :: o in os && o.Resolved? ==> o.host in TlsFold(st, os).value.result
    ensures forall h :: h in TlsFold(st, os).value.result ==>
      var v := TlsFold(st, os).value.result[h];
      (h in st.result && v == st.result[h]) || Resolved(h, v) in os
    decreases |os|
  {
    if os != [] {
      var st1 := match os[0]
        case Problem(msg) => st.(errs := st.errs + [msg])
        case Resolved(host, info) => st.(result := st.result[host := info])
        case _ => st;
      assert TlsFold(st, os) == TlsFold(st1, os[1..]);
      TlsFoldKeys(st1, os[1..]);
      assert forall o :: o in os ==> o == os[0] || o in os[1..];
    }
  }

  /** An outcome Resolved comes from an HTTPS listener's hostname; an id option gives no Secret, a Secret ref no id. */
  lemma ResolvedShape(i: int, l: Listener, gw: Gateway, cluster: Cluster)
    requires OutcomeOf(i, l, gw, cluster).Resolved?
    ensures var o := OutcomeOf(i, l, gw, cluster);
      && l.protocol == "HTTPS" && l.hostname == Some(o.host) && l.tls.Some?
      && (TlsExternalIdKey in l.tls.value.options && l.tls.value.options[TlsExternalIdKey] != "" ==>
            o.info == TLSConfigInfo(l.tls.value.options[TlsExternalIdKey], None))
      && (o.info.secret.Some? ==>
            var n := SecretRefName(l.tls.value.certificateRefs);
            o.info.externalId == "" && n != "" && NsName(gw.namespace, n) in cluster.secrets &&
            o.info.secret.value == cluster.secrets[NsName(gw.namespace, n)])
  {
  }

  /** No outcome is a problem when the problem list is empty. */
  lemma {:induction false} NoProblems(os: seq<ListenerOutcome>)
    requires Problems(os) == []
    ensures forall o :: o in os ==> !o.Problem?
  {
    if os != [] {
      NoProblems(os[1..]);
      assert forall o :: o in os ==> o == os[0] || o in os[1..];
    }
  }

  /**
   * buildTLSInfo succeeds iff no Secret read fails and no listener has a
   * problem; then its keys are exactly the HTTPS listeners' hostnames.  A
   * Secret read failure wins over collected problems; otherwise the problems
   * are reported together, in listener order.
   */
  lemma BuildTLSInfoSpec(gw: Gateway, cluster: Cluster)
    ensures var os := Outcomes(gw, cluster);
      BuildTLSSpec(gw, cluster).Ok? <==> !SomeGetFails(os) && Problems(os) == []
    ensures SomeGetFails(Outcomes(gw, cluster)) ==>
      BuildTLSSpec(gw, cluster).Err? && BuildTLSSpec(gw, cluster).error.SecretGetFailed?
    ensures !SomeGetFails(Outcomes(gw, cluster)) && Problems(Outcomes(gw, cluster)) != [] ==>
      BuildTLSSpec(gw, cluster) == Err(ValidationErrors(Problems(Outcomes(gw, cluster))))
  {
    var os := Outcomes(gw, cluster);
    TlsFoldFails(InitialTlsState, os);
    if TlsFold(InitialTlsState, os).Ok? {
      TlsFoldErrs(InitialTlsState, os);
      assert [] + Problems(os) == Problems(os);
    }
  }

  /** A successful buildTLSInfo maps exactly the HTTPS listeners' hostnames. */
  lemma BuildTLSInfoKeys(gw: Gateway, cluster: Cluster)
    requires BuildTLSSpec(gw, cluster).Ok?
    ensures forall h :: h in BuildTLSSpec(gw, cluster).value <==>
      exists j :: 0 <= j < |gw.listeners| && gw.listeners[j].protocol == "HTTPS" && gw.listeners[j].hostname == Some(h)
  {
    var ls := gw.listeners;
    var os := Outcomes(gw, cluster);
    BuildTLSInfoSpec(gw, cluster);
    TlsFoldKeys(InitialTlsState, os);
    NoProblems(os);
    TlsFoldFails(InitialTlsState, os);
    var res := BuildTLSSpec(gw, cluster).value;
    forall h | h in res
      ensures exists j :: 0 <= j < |ls| && ls[j].protocol == "HTTPS" && ls[j].hostname == Some(h)
    {
      assert Resolved(h, res[h]) in os;
      var j :| 0 <= j < |os| && os[j] == Resolved(h, res[h]);
      ResolvedShape(j, ls[j], gw, cluster);
    }
    forall h | exists j :: 0 <= j < |ls| && ls[j].protocol == "HTTPS" && ls[j].hostname == Some(h)
      ensures h in res
    {
      var j :| 0 <= j < |ls| && ls[j].protocol == "HTTPS" && ls[j].hostname == Some(h);
      var o := os[j];
      assert o in os;
      HttpsOutcome(j, ls[j], gw, cluster);
    }
  }

  /** An HTTPS listener whose outcome is neither a problem nor a failed read resolves its own hostname. */
  lemma HttpsOutcome(i: int, l: Listener, gw: Gateway, cluster: Cluster)
    requires l.protocol == "HTTPS"
    requires !OutcomeOf(i, l, gw, cluster).Problem? && !OutcomeOf(i, l, gw, cluster).GetFails?
    ensures OutcomeOf(i, l, gw, cluster).Resolved? && l.hostname == Some(OutcomeOf(i, l, gw, cluster).host)
  {
    assert ValidateHTTPSListener(l).None?;
  }
}
