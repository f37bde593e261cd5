/**
 * The certificate synchronizer (internal/service/tls/manager.go): for every
 * TLS hostname of a Gateway it resolves a provider certificate id, either an
 * external id given on the listener or a custom certificate uploaded from a
 * Secret, reusing, renewing or creating that upload.  The provider's custom
 * certificate store is a class whose record list the update and create calls
 * change; which calls fail is fixed when the store is built.
 */
module TlsManager {
  import opened Wrappers
  import opened Config
  import opened Kube
  import opened GatewayTypes
  import opened ProviderApi
  import opened TlsMaterial
  import Matching

  const TlsCertKey := "tls.crt"
  const TlsPrivateKeyKey := "tls.key"
  const SecretCertPrefix := "gw-secret-"

  /** The label selector of the certificates uploaded for a Secret. */
  function SecretSelector(uid: string): string {
    SecretLabelId + "=" + uid
  }

  /** The key material sent with an update or a create. */
  datatype CertUpload = CertUpload(publicKey: string, privateKey: string, chainKey: Option<string>)

  /** The chain is sent only when it is there and not empty. */
  function ChainKeyOf(chain: Option<string>): (c: Option<string>)
    ensures c.Some? <==> chain.Some? && chain.value != ""
    ensures c.Some? ==> c == chain
  {
    if chain.Some? && chain.value != "" then chain else None
  }

  // ----- the store's records -----

  /** A custom certificate record is picked out by a selector when its labels match it. */
  predicate Labelled(selector: string, c: CustomCertificate) {
    LabelsMatch(selector, c.labels)
  }

  /** The collection call: the Sha1 views of the records a selector picks out, in store order. */
  function Listing(certs: seq<CustomCertificate>, selector: string): (r: seq<SslCertificate>)
    ensures |r| <= |certs|
    decreases |certs|
  {
    if certs == [] then []
    else
      (if Labelled(selector, certs[0]) then [CustomToSslCertificate(certs[0])] else []) +
      Listing(certs[1..], selector)
  }

  /** The first record with this id, or |certs|. */
  function IndexOfCertId(certs: seq<CustomCertificate>, id: string): (i: nat)
    ensures i <= |certs|
    ensures i < |certs| ==> certs[i].id == id
    ensures forall j :: 0 <= j < i ==> certs[j].id != id
    decreases |certs|
  {
    if certs == [] then 0 else if certs[0].id == id then 0 else 1 + IndexOfCertId(certs[1..], id)
  }

  /** The first record the selector picks out, or |certs|. */
  function FirstLabelled(certs: seq<CustomCertificate>, selector: string): (i: nat)
    ensures i <= |certs|
    ensures i < |certs| ==> Labelled(selector, certs[i])
    ensures forall j :: 0 <= j < i ==> !Labelled(selector, certs[j])
    decreases |certs|
  {
    if certs == [] then 0 else if Labelled(selector, certs[0]) then 0 else 1 + FirstLabelled(certs[1..], selector)
  }

  /** The first record the selector picks out whose fingerprint is fp, or |certs|. */
  function FirstCurrent(certs: seq<CustomCertificate>, selector: string, fp: string): (i: nat)
    ensures i <= |certs|
    ensures i < |certs| ==> Labelled(selector, certs[i]) && certs[i].sha1Fingerprint == fp
    ensures forall j :: 0 <= j < i ==> !(Labelled(selector, certs[j]) && certs[j].sha1Fingerprint == fp)
    decreases |certs|
  {
    if certs == [] then 0
    else if Labelled(selector, certs[0]) && certs[0].sha1Fingerprint == fp then 0
    else 1 + FirstCurrent(certs[1..], selector, fp)
  }

  ghost predicate DistinctIds(certs: seq<CustomCertificate>) {
    forall i, j :: 0 <= i < j < |certs| ==> certs[i].id != certs[j].id
  }

  /** An id longer than every id in the store. */
  function FreshId(certs: seq<CustomCertificate>): (id: string)
    ensures forall i :: 0 <= i < |certs| ==> |certs[i].id| < |id|
    decreases |certs|
  {
    if certs == [] then "cert-"
    else
      var rest := FreshId(certs[1..]);
      if |certs[0].id| < |rest| then rest else rest + seq(|certs[0].id| - |rest| + 1, _ => '0')
  }

  /** A record with new key material; the provider recomputes its fingerprint. */
  function Renewed(c: CustomCertificate, up: CertUpload, fingerprint: string): CustomCertificate {
    c.(publicKey := up.publicKey, privateKey := up.privateKey, chainKey := up.chainKey, sha1Fingerprint := fingerprint)
  }

  /** The record of a fresh upload; the provider's timestamps are left empty. */
  function Fresh(certs: seq<CustomCertificate>, name: string, labels: map<string, string>,
                 up: CertUpload, fingerprint: string): CustomCertificate {
    CustomCertificate(FreshId(certs), name, fingerprint, labels, "", "", "", up.publicKey, up.privateKey, up.chainKey)
  }

  /** Records are only ever added or changed in place: ids and labels stay where they were. */
  ghost predicate Persists(before: seq<CustomCertificate>, after: seq<CustomCertificate>) {
    |before| <= |after| &&
    forall i :: 0 <= i < |before| ==> after[i].id == before[i].id && after[i].labels == before[i].labels
  }

  /** A record carries the Secret label of one of these uids. */
  ghost predicate OwnedBy(c: CustomCertificate, uids: set<string>) {
    exists u :: u in uids && Labelled(SecretSelector(u), c)
  }

  /** Only records owned by these uids changed, and every new record is owned by one of them. */
  ghost predicate TouchesOnly(before: seq<CustomCertificate>, after: seq<CustomCertificate>, uids: set<string>) {
    Persists(before, after) &&
    (forall i :: 0 <= i < |before| && !OwnedBy(before[i], uids) ==> after[i] == before[i]) &&
    (forall i :: |before| <= i < |after| ==> OwnedBy(after[i], uids))
  }

  // ----- findCertificate and ensureCertificateForSecret, as decisions -----

  /** findCertificate on a listing: the record with this fingerprint, else the first one, else none. */
  function FindOf(listed: Result<seq<SslCertificate>, ProviderError>, fp: string): (r: Result<Option<SslCertificate>, ProviderError>)
    ensures listed.Err? ==> (r.Err? <==> !listed.error.NotFound?)
    ensures listed.Err? && r.Err? ==> r.error == listed.error
    ensures listed.Err? && r.Ok? ==> r.value.None?
    ensures listed.Ok? ==> r.Ok? && (r.value.None? <==> listed.value == [])
    ensures listed.Ok? && r.value.Some? ==> r.value.value in listed.value
    ensures listed.Ok? && (exists k :: 0 <= k < |listed.value| && listed.value[k].sha1Fingerprint == fp) ==>
      r.value.Some? && r.value.value.sha1Fingerprint == fp
  {
    match listed
    case Err(e) => if IgnoreNotFound(e).None? then Ok(None) else Err(e)
    case Ok(cs) =>
      var i := IndexOfFingerprint(cs, fp);
      if i < |cs| then Ok(Some(cs[i])) else if |cs| > 0 then Ok(Some(cs[0])) else Ok(None)
  }

  function IndexOfFingerprint(cs: seq<SslCertificate>, fp: string): (i: nat)
    ensures i <= |cs|
    ensures i < |cs| ==> cs[i].sha1Fingerprint == fp
    ensures forall j :: 0 <= j < i ==> cs[j].sha1Fingerprint != fp
    decreases |cs|
  {
    if cs == [] then 0 else if cs[0].sha1Fingerprint == fp then 0 else 1 + IndexOfFingerprint(cs[1..], fp)
  }

  /** What ensureCertificateForSecret does after looking. */
  datatype SecretPlan = Fail(err: ProviderError) | Reuse(cert: SslCertificate) | Renew(id: string) | CreateNew

  function SecretPlanOf(found: Result<Option<SslCertificate>, ProviderError>, fp: string): (p: SecretPlan)
    ensures p.Fail? <==> found.Err?
    ensures p.Reuse? <==> found.Ok? && found.value.Some? && found.value.value.sha1Fingerprint == fp
    ensures p.Reuse? ==> p.cert == found.value.value
    ensures p.Renew? <==> found.Ok? && found.value.Some? && found.value.value.sha1Fingerprint != fp && found.value.value.id != ""
    ensures p.Renew? ==> p.id == found.value.value.id
  {
    match found
    case Err(e) => Fail(e)
    case Ok(None) => CreateNew
    case Ok(Some(c)) =>
      if c.sha1Fingerprint == fp then Reuse(c)
      else if c.id != "" then Renew(c.id)
      else CreateNew
  }

  // ----- the provider store -----

  class CertStore {
    var certs: seq<CustomCertificate>
    /** The provider computes the fingerprint of what is uploaded with the same SHA-1 over the DER bytes. */
    const codec: Codec
    const getFailure: Option<ProviderError>
    const listFailure: Option<ProviderError>
    const updateFailure: Option<string>
    const createFailure: Option<string>

    constructor (cs: seq<CustomCertificate>, codec: Codec, getFailure: Option<ProviderError>,
                 listFailure: Option<ProviderError>, updateFailure: Option<string>, createFailure: Option<string>)
      ensures certs == cs && this.codec == codec && this.getFailure == getFailure
      ensures this.listFailure == listFailure && this.updateFailure == updateFailure
      ensures this.createFailure == createFailure
    {
      certs := cs;
      this.codec := codec;
      this.getFailure := getFailure;
      this.listFailure := listFailure;
      this.updateFailure := updateFailure;
      this.createFailure := createFailure;
    }

    /** The provider never gives two records the same id. */
    ghost predicate Valid()
      reads this
    {
      DistinctIds(certs)
    }

    function Fingerprint(publicKey: string): string {
      GetPemFingerprint(codec, publicKey)
    }

    /** GetCustom: the record with this id. */
    function GetCustom(id: string): (r: Result<CustomCertificate, ProviderError>)
      reads this
      ensures r.Ok? <==> getFailure.None? && IndexOfCertId(certs, id) < |certs|
      ensures r.Ok? ==> r.value == certs[IndexOfCertId(certs, id)] && r.value.id == id
    {
      if getFailure.Some? then Err(getFailure.value)
      else
        var i := IndexOfCertId(certs, id);
        if i < |certs| then Ok(certs[i]) else Err(NotFound("ssl certificate " + id + " not found"))
    }

    /** The custom certificates a label selector picks out. */
    function Collect(selector: string): (r: Result<seq<SslCertificate>, ProviderError>)
      reads this
      ensures r.Err? <==> listFailure.Some?
    {
      if listFailure.Some? then Err(listFailure.value) else Ok(Listing(certs, selector))
    }

    method UpdateCustom(id: string, up: CertUpload) returns (r: Result<CustomCertificate, string>)
      modifies this
      ensures var i := IndexOfCertId(old(certs), id);
        if updateFailure.Some? || i == |old(certs)| then r.Err? && certs == old(certs)
        else r == Ok(Renewed(old(certs)[i], up, Fingerprint(up.publicKey))) && certs == old(certs)[i := r.value]
    {
      var i := IndexOfCertId(certs, id);
      if updateFailure.Some? {
        return Err(updateFailure.value);
      }
      if i == |certs| {
        return Err("ssl certificate " + id + " not found");
      }
      var c := Renewed(certs[i], up, Fingerprint(up.publicKey));
      certs := certs[i := c];
      r := Ok(c);
    }

    method CreateCustom(name: string, labels: map<string, string>, up: CertUpload) returns (r: Result<CustomCertificate, string>)
      modifies this
      ensures createFailure.Some? ==> r == Err(createFailure.value) && certs == old(certs)
      ensures createFailure.None? ==> r == Ok(Fresh(old(certs), name, labels, up, Fingerprint(up.publicKey)))
      ensures createFailure.None? ==> certs == old(certs) + [r.value]
    {
      if createFailure.Some? {
        return Err(createFailure.value);
      }
      var c := Fresh(certs, name, labels, up, Fingerprint(up.publicKey));
      certs := certs + [c];
      r := Ok(c);
    }
  }

  // ----- per-host outcome -----

  /** The checks EnsureTLS makes of a Secret before it talks to the provider, in order. */
  function PrecheckError(codec: Codec, host: string, secret: Option<Secret>): (err: Option<string>)
    ensures err.None? <==>
      (secret.Some? && TlsCertKey in secret.value.data && TlsPrivateKeyKey in secret.value.data &&
       ValidateCertificate(codec, secret.value.data[TlsCertKey]).None?)
  {
    match secret
    case None => Some("no secret or ExternalID for host " + Matching.Quote(host))
    case Some(s) =>
      if TlsCertKey !in s.data then Some("secret for host " + Matching.Quote(host) + " has no tls.crt")
      else if TlsPrivateKeyKey !in s.data then Some("secret for host " + Matching.Quote(host) + " has no tls.key")
      else
        match ValidateCertificate(codec, s.data[TlsCertKey])
        case Some(e) => Some("invalid certificate for host " + Matching.Quote(host) + ": " + e)
        case None => None
  }

  function ExternalIdError(externalId: string, host: string, e: string): string {
    "provider certificate id " + Matching.Quote(externalId) + " for host " + Matching.Quote(host) + " not found: " + e
  }

  function FindOrCreateError(host: string, e: string): string {
    "findOrCreate tls for host " + Matching.Quote(host) + " failed: " + e
  }

  /** The uid of the Secret a hostname's certificate is uploaded from, if it is. */
  function SecretUids(info: TLSConfigInfo): set<string> {
    if info.externalId == "" && info.secret.Some? then {info.secret.value.uid} else {}
  }

  /** The uids of every Secret EnsureTLS may upload from. */
  function AllSecretUids(tlsInfo: map<string, TLSConfigInfo>): (uids: set<string>)
    ensures forall h :: h in tlsInfo ==> SecretUids(tlsInfo[h]) <= uids
  {
    set h, u | h in tlsInfo && u in SecretUids(tlsInfo[h]) :: u
  }

  /** The id returned for a hostname names a record of the store that serves it. */
  ghost predicate Resolved(certs: seq<CustomCertificate>, info: TLSConfigInfo, id: string) {
    (info.externalId != "" ==> id == info.externalId) &&
    exists i :: 0 <= i < |certs| && certs[i].id == id &&
      (info.externalId != "" || (info.secret.Some? && Labelled(SecretSelector(info.secret.value.uid), certs[i])))
  }

  /** The error a hostname can make EnsureTLS fail with. */
  ghost predicate HostError(codec: Codec, host: string, info: TLSConfigInfo, msg: string) {
    if info.externalId != "" then (exists e :: msg == ExternalIdError(info.externalId, host, e))
    else (PrecheckError(codec, host, info.secret) == Some(msg) ||
      (PrecheckError(codec, host, info.secret).None? && exists e :: msg == FindOrCreateError(host, e)))
  }

  /** The fingerprint EnsureTLS computes for a Secret: that of the primary block of its tls.crt. */
  function LeafFingerprint(codec: Codec, secret: Secret): string {
    if TlsCertKey !in secret.data then ""
    else
      match CertPartsOf(secret.data[TlsCertKey]).primary
      case Some(primary) => GetPemFingerprint(codec, primary)
      case None => ""
  }

  /** Some upload of the Secret already carries the fingerprint fp. */
  ghost predicate InSync(certs: seq<CustomCertificate>, uid: string, fp: string) {
    FirstCurrent(certs, SecretSelector(uid), fp) < |certs|
  }

  /** id names an upload of the Secret that carries fp. */
  ghost predicate Current(certs: seq<CustomCertificate>, uid: string, fp: string, id: string) {
    exists i :: 0 <= i < |certs| && certs[i].id == id && Labelled(SecretSelector(uid), certs[i]) && certs[i].sha1Fingerprint == fp
  }

  /** The id of the first upload of the Secret that carries fp. */
  function CurrentId(certs: seq<CustomCertificate>, uid: string, fp: string): string
    requires FirstCurrent(certs, SecretSelector(uid), fp) < |certs|
  {
    certs[FirstCurrent(certs, SecretSelector(uid), fp)].id
  }

  /** The hostname's certificate comes from a Secret rather than an external id. */
  predicate SecretBacked(info: TLSConfigInfo) {
    info.externalId == "" && info.secret.Some?
  }

  /** A Secret-backed hostname whose Secret's current material is already uploaded. */
  ghost predicate HostInSync(codec: Codec, certs: seq<CustomCertificate>, info: TLSConfigInfo) {
    SecretBacked(info) && InSync(certs, info.secret.value.uid, LeafFingerprint(codec, info.secret.value))
  }

  /** The id a Secret-backed hostname in sync resolves to. */
  function HostCurrentId(codec: Codec, certs: seq<CustomCertificate>, info: TLSConfigInfo): string
    requires SecretBacked(info)
    requires FirstCurrent(certs, SecretSelector(info.secret.value.uid), LeafFingerprint(codec, info.secret.value)) < |certs|
  {
    CurrentId(certs, info.secret.value.uid, LeafFingerprint(codec, info.secret.value))
  }

  /** Every Secret-backed hostname handled so far that was in sync got its current upload's id. */
  ghost predicate ReusedSoFar(codec: Codec, certs: seq<CustomCertificate>, tlsInfo: map<string, TLSConfigInfo>,
                              res: map<string, string>) {
    forall h :: h in res && h in tlsInfo && HostInSync(codec, certs, tlsInfo[h]) ==>
      res[h] == HostCurrentId(codec, certs, tlsInfo[h])
  }

  /** Every Secret-backed hostname of the map is in sync. */
  ghost predicate AllInSync(codec: Codec, certs: seq<CustomCertificate>, tlsInfo: map<string, TLSConfigInfo>) {
    forall h :: h in tlsInfo && SecretBacked(tlsInfo[h]) ==> HostInSync(codec, certs, tlsInfo[h])
  }

  class Manager {
    const store: CertStore
    /**
     * The controller's PEM, X.509 and SHA-1 routines: the same as the
     * provider's, so an upload is stored under the fingerprint the
     * controller computed for it.
     */
    const codec: Codec := store.codec

    constructor (store: CertStore)
      ensures this.store == store
    {
      this.store := store;
    }

    /** getByID: the provider record of an external id, as its Sha1 view. */
    function GetById(id: string): (r: Result<SslCertificate, ProviderError>)
      reads store
      ensures r.Ok? <==> store.GetCustom(id).Ok?
      ensures r.Ok? ==> r.value == CustomToSslCertificate(store.GetCustom(id).value) && r.value.id == id
    {
      match store.GetCustom(id)
      case Err(e) => Err(e)
      case Ok(c) => Ok(CustomToSslCertificate(c))
    }

    /** findCertificate: list the Secret's custom certificates and pick the one to use. */
    method FindCertificate(fp: string, uid: string) returns (r: Result<Option<SslCertificate>, ProviderError>)
      ensures r == FindOf(store.Collect(SecretSelector(uid)), fp)
    {
      var listed := store.Collect(SecretSelector(uid));
      if listed.Err? {
        var e := IgnoreNotFound(listed.error);
        if e.Some? {
          return Err(e.value);
        }
        return Ok(None);
      }
      var cs := listed.value;
      for k := 0 to |cs|
        invariant forall j :: 0 <= j < k ==> cs[j].sha1Fingerprint != fp
      {
        if cs[k].sha1Fingerprint == fp {
          assert IndexOfFingerprint(cs, fp) == k by {
            IndexOfFingerprintIs(cs, fp, k);
          }
          return Ok(Some(cs[k]));
        }
      }
      assert IndexOfFingerprint(cs, fp) == |cs| by {
        IndexOfFingerprintIs(cs, fp, |cs|);
      }
      if |cs| > 0 {
        return Ok(Some(cs[0]));
      }
      return Ok(None);
    }

    /** updateCertificateForSecret: new key material for an existing record. */
    method UpdateCertificateForSecret(id: string, cert: string, key: string, chain: Option<string>)
      returns (r: Result<SslCertificate, string>)
      modifies store
      ensures var i := IndexOfCertId(old(store.certs), id);
        if store.updateFailure.Some? || i == |old(store.certs)| then r.Err? && store.certs == old(store.certs)
        else
          var c := Renewed(old(store.certs)[i], CertUpload(cert, key, ChainKeyOf(chain)), store.Fingerprint(cert));
          r == Ok(CustomToSslCertificate(c)) && store.certs == old(store.certs)[i := c]
    {
      var out := store.UpdateCustom(id, CertUpload(cert, key, ChainKeyOf(chain)));
      if out.Err? {
        return Err(out.error);
      }
      r := Ok(CustomToSslCertificate(out.value));
    }

    /** createCertificateForSecret: a new record named and labelled after the Secret. */
    method CreateCertificateForSecret(uid: string, cert: string, key: string, chain: Option<string>)
      returns (r: Result<SslCertificate, string>)
      modifies store
      ensures var c := Fresh(old(store.certs), SecretCertPrefix + uid, map[SecretLabelId := uid],
                             CertUpload(cert, key, ChainKeyOf(chain)), store.Fingerprint(cert));
        if store.createFailure.Some? then r.Err? && store.certs == old(store.certs)
        else r == Ok(CustomToSslCertificate(c)) && store.certs == old(store.certs) + [c]
    {
      var out := store.CreateCustom(SecretCertPrefix + uid, map[SecretLabelId := uid], CertUpload(cert, key, ChainKeyOf(chain)));
      if out.Err? {
        return Err(out.error);
      }
      r := Ok(CustomToSslCertificate(out.value));
    }

    /** ensureCertificateForSecret: reuse the current upload, renew the first one, or create one. */
    method EnsureCertificateForSecret(fp: string, uid: string, cert: string, key: string, chain: Option<string>)
      returns (r: Result<SslCertificate, string>)
      modifies store
      ensures var p := SecretPlanOf(FindOf(old(store.Collect(SecretSelector(uid))), fp), fp);
        match p
        case Fail(e) => r == Err(e.message) && store.certs == old(store.certs)
        case Reuse(c) => r == Ok(c) && store.certs == old(store.certs)
        case Renew(id) =>
          var i := IndexOfCertId(old(store.certs), id);
          if store.updateFailure.Some? || i == |old(store.certs)| then r.Err? && store.certs == old(store.certs)
          else
            var c := Renewed(old(store.certs)[i], CertUpload(cert, key, ChainKeyOf(chain)), store.Fingerprint(cert));
            r == Ok(CustomToSslCertificate(c)) && store.certs == old(store.certs)[i := c]
        case CreateNew =>
          var c := Fresh(old(store.certs), SecretCertPrefix + uid, map[SecretLabelId := uid],
                         CertUpload(cert, key, ChainKeyOf(chain)), store.Fingerprint(cert));
          if store.createFailure.Some? then r.Err? && store.certs == old(store.certs)
          else r == Ok(CustomToSslCertificate(c)) && store.certs == old(store.certs) + [c]
    {
      var found := FindCertificate(fp, uid);
      if found.Err? {
        return Err(found.error.message);
      }
      if found.value.Some? && found.value.value.sha1Fingerprint == fp {
        return Ok(found.value.value);
      }
      if found.value.Some? && found.value.value.id != "" {
        r := UpdateCertificateForSecret(found.value.value.id, cert, key, chain);
        return;
      }
      r := CreateCertificateForSecret(uid, cert, key, chain);
    }

    /** One turn of the loop of EnsureTLS: the certificate id for one hostname. */
    method EnsureHost(host: string, info: TLSConfigInfo) returns (r: Result<string, string>)
      requires store.Valid()
      modifies store
      ensures store.Valid()
      ensures r.Ok? ==> Resolved(store.certs, info, r.value)
      ensures r.Ok? ==> info.externalId != "" || PrecheckError(codec, host, info.secret).None?
      ensures r.Ok? && SecretBacked(info) ==>
        Current(store.certs, info.secret.value.uid, LeafFingerprint(codec, info.secret.value), r.value)
      ensures r.Ok? && SecretBacked(info) && store.listFailure.None? ==>
        HostInSync(codec, store.certs, info) && r.value == HostCurrentId(codec, store.certs, info)
      ensures store.listFailure.None? && HostInSync(codec, old(store.certs), info) ==>
        store.certs == old(store.certs) &&
        (PrecheckError(codec, host, info.secret).None? ==> r == Ok(HostCurrentId(codec, old(store.certs), info)))
      ensures r.Err? ==> HostError(codec, host, info, r.error)
      ensures TouchesOnly(old(store.certs), store.certs, SecretUids(info))
      ensures info.externalId != "" ==> store.certs == old(store.certs) && (r.Ok? <==> old(GetById(info.externalId)).Ok?)
      ensures info.externalId == "" && PrecheckError(codec, host, info.secret).Some? ==>
        r == Err(PrecheckError(codec, host, info.secret).value) && store.certs == old(store.certs)
    {
      if info.externalId != "" {
        TouchesNothing(store.certs, SecretUids(info));
        var cert := GetById(info.externalId);
        if cert.Err? {
          return Err(ExternalIdError(info.externalId, host, cert.error.message));
        }
        ghost var i := IndexOfCertId(store.certs, info.externalId);
        assert store.certs[i].id == cert.value.id;
        return Ok(cert.value.id);
      }
      var secret := info.secret;
      if secret.None? {
        TouchesNothing(store.certs, SecretUids(info));
        return Err("no secret or ExternalID for host " + Matching.Quote(host));
      }
      assert SecretUids(info) == {secret.value.uid};
      r := EnsureSecretHost(host, secret.value);
      if r.Ok? {
        CurrentIsResolved(store.certs, info, LeafFingerprint(codec, secret.value), r.value);
      }
    }

    /**
     * One hostname handled twice with the same material: once the first turn
     * succeeds, the second writes nothing and returns the same id.
     */
    method EnsureHostTwice(host: string, info: TLSConfigInfo)
      returns (first: Result<string, string>, second: Result<string, string>, ghost afterFirst: seq<CustomCertificate>)
      requires store.Valid() && store.listFailure.None?
      modifies store
      ensures store.Valid()
      ensures first.Ok? ==> second == first && store.certs == afterFirst
    {
      first := EnsureHost(host, info);
      afterFirst := store.certs;
      second := EnsureHost(host, info);
    }

    /** The Secret branch of one turn of EnsureTLS. */
    method EnsureSecretHost(host: string, secret: Secret) returns (r: Result<string, string>)
      requires store.Valid()
      modifies store
      ensures store.Valid()
      ensures r.Ok? ==> Current(store.certs, secret.uid, LeafFingerprint(codec, secret), r.value)
      ensures r.Ok? && store.listFailure.None? ==>
        InSync(store.certs, secret.uid, LeafFingerprint(codec, secret)) &&
        r.value == CurrentId(store.certs, secret.uid, LeafFingerprint(codec, secret))
      ensures store.listFailure.None? && InSync(old(store.certs), secret.uid, LeafFingerprint(codec, secret)) ==>
        store.certs == old(store.certs) &&
        (PrecheckError(codec, host, Some(secret)).None? ==>
           r == Ok(CurrentId(old(store.certs), secret.uid, LeafFingerprint(codec, secret))))
      ensures r.Ok? ==> PrecheckError(codec, host, Some(secret)).None?
      ensures r.Err? ==> (PrecheckError(codec, host, Some(secret)) == Some(r.error) ||
        (PrecheckError(codec, host, Some(secret)).None? && exists e :: r.error == FindOrCreateError(host, e)))
      ensures TouchesOnly(old(store.certs), store.certs, {secret.uid})
      ensures PrecheckError(codec, host, Some(secret)).Some? ==>
        r == Err(PrecheckError(codec, host, Some(secret)).value) && store.certs == old(store.certs)
    {
      TouchesNothing(store.certs, {secret.uid});
      if TlsCertKey !in secret.data {
        return Err("secret for host " + Matching.Quote(host) + " has no tls.crt");
      }
      var certPem := secret.data[TlsCertKey];
      if TlsPrivateKeyKey !in secret.data {
        return Err("secret for host " + Matching.Quote(host) + " has no tls.key");
      }
      var keyPem := secret.data[TlsPrivateKeyKey];
      var invalid := ValidateCertificate(codec, certPem);
      if invalid.Some? {
        return Err("invalid certificate for host " + Matching.Quote(host) + ": " + invalid.value);
      }
      var parts := SplitCerts(certPem);
      ValidHasPrimary(codec, certPem);
      var primary := parts.primary.value;
      var fp := GetPemFingerprint(codec, primary);
      assert fp == LeafFingerprint(codec, secret);
      r := EnsureUpload(host, fp, secret.uid, primary, keyPem, parts.chain);
    }

    /**
     * ensureCertificateForSecret as EnsureTLS calls it, with its error
     * wrapped.  The id returned names an upload of the Secret carrying fp,
     * so a repeat call with the same material finds it and writes nothing.
     */
    method EnsureUpload(host: string, fp: string, uid: string, cert: string, key: string, chain: Option<string>)
      returns (r: Result<string, string>)
      requires store.Valid()
      requires fp == store.Fingerprint(cert)
      modifies store
      ensures store.Valid()
      ensures r.Ok? ==> Current(store.certs, uid, fp, r.value)
      ensures r.Ok? && store.listFailure.None? ==> InSync(store.certs, uid, fp) && r.value == CurrentId(store.certs, uid, fp)
      ensures store.listFailure.None? && InSync(old(store.certs), uid, fp) ==>
        store.certs == old(store.certs) && r == Ok(CurrentId(old(store.certs), uid, fp))
      ensures r.Err? ==> exists e :: r.error == FindOrCreateError(host, e)
      ensures TouchesOnly(old(store.certs), store.certs, {uid})
    {
      ghost var before := store.certs;
      ghost var sel := SecretSelector(uid);
      ghost var listed := store.Collect(sel);
      ghost var plan := SecretPlanOf(FindOf(listed, fp), fp);
      ghost var up := CertUpload(cert, key, ChainKeyOf(chain));
      if store.listFailure.None? && InSync(before, uid, fp) {
        ReuseWhenCurrent(before, uid, fp);
      }
      var certObj := EnsureCertificateForSecret(fp, uid, cert, key, chain);
      match plan {
        case Fail(_) => {
          TouchesNothing(before, {uid});
        }
        case Reuse(c) => {
          TouchesNothing(before, {uid});
          ReusedIsCurrent(before, uid, fp, c);
        }
        case Renew(id) => {
          if store.updateFailure.Some? || IndexOfCertId(before, id) == |before| {
            TouchesNothing(before, {uid});
          } else {
            RenewOutcome(before, uid, fp, id, up, fp);
            RenewedIsReused(before, uid, fp, id, up);
            ghost var i := IndexOfCertId(before, id);
            assert store.certs == before[i := Renewed(before[i], up, fp)];
            assert store.certs[i].id == certObj.value.id;
          }
        }
        case CreateNew => {
          if store.createFailure.Some? {
            TouchesNothing(before, {uid});
          } else {
            CreateOutcome(before, uid, up, fp);
            assert store.certs == before + [Fresh(before, SecretCertPrefix + uid, map[SecretLabelId := uid], up, fp)];
            assert store.certs[|before|].id == certObj.value.id;
            if store.listFailure.None? {
              CreatedIsReused(before, uid, fp, up);
            }
          }
        }
      }
      if certObj.Err? {
        return Err(FindOrCreateError(host, certObj.error));
      }
      r := Ok(certObj.value.id);
    }

    /**
     * EnsureTLS: a certificate id for every hostname, or the first error met.
     * Hostnames are visited in no particular order, and what was uploaded for
     * the earlier ones stays when a later one fails.  When the current
     * material of every Secret is already uploaded, nothing is written and
     * every Secret-backed hostname gets the id of that upload.
     */
    method EnsureTLS(tlsInfo: map<string, TLSConfigInfo>) returns (r: Result<map<string, string>, string>)
      requires store.Valid()
      modifies store
      ensures store.Valid()
      ensures r.Ok? ==> r.value.Keys == tlsInfo.Keys
      ensures r.Ok? ==> forall h :: h in tlsInfo ==> Resolved(store.certs, tlsInfo[h], r.value[h])
      ensures r.Ok? ==> forall h :: h in tlsInfo ==> tlsInfo[h].externalId != "" || PrecheckError(codec, h, tlsInfo[h].secret).None?
      ensures store.listFailure.None? && AllInSync(codec, old(store.certs), tlsInfo) ==>
        store.certs == old(store.certs) &&
        (r.Ok? ==> forall h :: h in tlsInfo && SecretBacked(tlsInfo[h]) ==>
           r.value[h] == HostCurrentId(codec, old(store.certs), tlsInfo[h]))
      ensures r.Err? ==> exists h :: h in tlsInfo && HostError(codec, h, tlsInfo[h], r.error)
      ensures TouchesOnly(old(store.certs), store.certs, AllSecretUids(tlsInfo))
    {
      var res: map<string, string> := map[];
      var remaining := tlsInfo.Keys;
      TouchesNothing(store.certs, AllSecretUids(tlsInfo));
      while remaining != {}
        invariant remaining <= tlsInfo.Keys
        invariant res.Keys == tlsInfo.Keys - remaining
        invariant store.Valid()
        invariant Progress(codec, tlsInfo, res, old(store.certs), store.certs)
        invariant store.listFailure.None? && AllInSync(codec, old(store.certs), tlsInfo) ==>
          store.certs == old(store.certs) && ReusedSoFar(codec, old(store.certs), tlsInfo, res)
        decreases remaining
      {
        var host :| host in remaining;
        ghost var before := store.certs;
        ghost var idle := store.listFailure.None? && AllInSync(codec, old(store.certs), tlsInfo);
        if idle && SecretBacked(tlsInfo[host]) {
          InSyncHost(codec, old(store.certs), tlsInfo, host);
        }
        var id := EnsureHost(host, tlsInfo[host]);
        if id.Err? {
          assert HostError(codec, host, tlsInfo[host], id.error);
          ProgressFails(codec, tlsInfo, res, old(store.certs), before, store.certs, host);
          return Err(id.error);
        }
        ProgressStep(codec, tlsInfo, res, old(store.certs), before, store.certs, host, id.value);
        if idle {
          assert before == old(store.certs);
          if HostInSync(codec, before, tlsInfo[host]) {
            assert PrecheckError(codec, host, tlsInfo[host].secret).None?;
            assert id.value == HostCurrentId(codec, before, tlsInfo[host]);
          }
          ReusedStep(codec, before, tlsInfo, res, host, id.value);
        }
        res := res[host := id.value];
        remaining := remaining - {host};
      }
      r := Ok(res);
      if store.listFailure.None? && AllInSync(codec, old(store.certs), tlsInfo) {
        ReusedAll(codec, old(store.certs), tlsInfo, res);
      }
    }
  }

  lemma IndexOfFingerprintIs(cs: seq<SslCertificate>, fp: string, k: nat)
    requires k <= |cs| && (forall j :: 0 <= j < k ==> cs[j].sha1Fingerprint != fp)
    requires k < |cs| ==> cs[k].sha1Fingerprint == fp
    ensures IndexOfFingerprint(cs, fp) == k
  {
  }

  // ----- the listing against the store -----

  /** The listing's first record with fp is the first selected record of the store with fp. */
  lemma {:induction false} ListingFingerprint(certs: seq<CustomCertificate>, sel: string, fp: string)
    ensures var l, i := Listing(certs, sel), FirstCurrent(certs, sel, fp);
      (i < |certs| ==> IndexOfFingerprint(l, fp) < |l| && l[IndexOfFingerprint(l, fp)] == CustomToSslCertificate(certs[i])) &&
      (i == |certs| ==> IndexOfFingerprint(l, fp) == |l|)
    decreases |certs|
  {
    if certs != [] {
      ListingFingerprint(certs[1..], sel, fp);
      var rest := Listing(certs[1..], sel);
      if Labelled(sel, certs[0]) {
        assert Listing(certs, sel) == [CustomToSslCertificate(certs[0])] + rest;
        assert (([CustomToSslCertificate(certs[0])] + rest)[1..]) == rest;
      } else {
        assert Listing(certs, sel) == rest;
      }
    }
  }

  /** The listing starts with the first selected record of the store. */
  lemma {:induction false} ListingHead(certs: seq<CustomCertificate>, sel: string)
    ensures var l, j := Listing(certs, sel), FirstLabelled(certs, sel);
      (|l| > 0 <==> j < |certs|) && (j < |certs| ==> l[0] == CustomToSslCertificate(certs[j]))
    decreases |certs|
  {
    if certs != [] {
      ListingHead(certs[1..], sel);
    }
  }

  lemma DistinctIdIndex(certs: seq<CustomCertificate>, j: nat)
    requires DistinctIds(certs) && j < |certs|
    ensures IndexOfCertId(certs, certs[j].id) == j
  {
  }

  /** A listed record with the right fingerprint is reused. */
  lemma ReuseWhenCurrent(certs: seq<CustomCertificate>, uid: string, fp: string)
    requires FirstCurrent(certs, SecretSelector(uid), fp) < |certs|
    ensures SecretPlanOf(FindOf(Ok(Listing(certs, SecretSelector(uid))), fp), fp) ==
      Reuse(CustomToSslCertificate(certs[FirstCurrent(certs, SecretSelector(uid), fp)]))
  {
    ListingFingerprint(certs, SecretSelector(uid), fp);
  }

  /** What is reused is the first upload of the Secret that carries fp. */
  lemma ReusedIsCurrent(certs: seq<CustomCertificate>, uid: string, fp: string, c: SslCertificate)
    requires SecretPlanOf(FindOf(Ok(Listing(certs, SecretSelector(uid))), fp), fp) == Reuse(c)
    ensures FirstCurrent(certs, SecretSelector(uid), fp) < |certs|
    ensures c == CustomToSslCertificate(certs[FirstCurrent(certs, SecretSelector(uid), fp)])
  {
    var sel := SecretSelector(uid);
    var l := Listing(certs, sel);
    ListingFingerprint(certs, sel, fp);
    assert IndexOfFingerprint(l, fp) < |l|;
  }

  /**
   * A renewal rewrites the first record the Secret's selector picks out, and
   * afterwards that record is the one a repeat call reuses.
   */
  lemma RenewedIsReused(certs: seq<CustomCertificate>, uid: string, fp: string, id: string, up: CertUpload)
    requires DistinctIds(certs)
    requires SecretPlanOf(FindOf(Ok(Listing(certs, SecretSelector(uid))), fp), fp) == Renew(id)
    ensures IndexOfCertId(certs, id) == FirstLabelled(certs, SecretSelector(uid)) < |certs|
    ensures var i := IndexOfCertId(certs, id); var c := Renewed(certs[i], up, fp);
      FirstCurrent(certs[i := c], SecretSelector(uid), fp) == i &&
      SecretPlanOf(FindOf(Ok(Listing(certs[i := c], SecretSelector(uid))), fp), fp) == Reuse(CustomToSslCertificate(c))
  {
    var sel := SecretSelector(uid);
    var l := Listing(certs, sel);
    ListingFingerprint(certs, sel, fp);
    ListingHead(certs, sel);
    var j := FirstLabelled(certs, sel);
    assert FirstCurrent(certs, sel, fp) == |certs|;
    assert IndexOfFingerprint(l, fp) == |l|;
    assert l[0].id == id;
    DistinctIdIndex(certs, j);
    var c := Renewed(certs[j], up, fp);
    var after := certs[j := c];
    assert Labelled(sel, c);
    FirstCurrentAt(after, sel, fp, j);
    ReuseWhenCurrent(after, uid, fp);
  }

  lemma FirstCurrentAt(certs: seq<CustomCertificate>, sel: string, fp: string, j: nat)
    requires j < |certs| && Labelled(sel, certs[j]) && certs[j].sha1Fingerprint == fp
    requires forall k :: 0 <= k < j ==> !(Labelled(sel, certs[k]) && certs[k].sha1Fingerprint == fp)
    ensures FirstCurrent(certs, sel, fp) == j
  {
  }

  /** When nothing was found to reuse or renew, the record created is the one a repeat call reuses. */
  lemma CreatedIsReused(certs: seq<CustomCertificate>, uid: string, fp: string, up: CertUpload)
    requires SecretPlanOf(FindOf(Ok(Listing(certs, SecretSelector(uid))), fp), fp) == CreateNew
    ensures var c := Fresh(certs, SecretCertPrefix + uid, map[SecretLabelId := uid], up, fp);
      FirstCurrent(certs + [c], SecretSelector(uid), fp) == |certs| &&
      SecretPlanOf(FindOf(Ok(Listing(certs + [c], SecretSelector(uid))), fp), fp) == Reuse(CustomToSslCertificate(c))
  {
    var sel := SecretSelector(uid);
    ListingFingerprint(certs, sel, fp);
    var c := Fresh(certs, SecretCertPrefix + uid, map[SecretLabelId := uid], up, fp);
    LabelMatches(SecretLabelId, uid, c.labels);
    var after := certs + [c];
    assert FirstCurrent(certs, sel, fp) == |certs|;
    FirstCurrentAt(after, sel, fp, |certs|);
    ReuseWhenCurrent(after, uid, fp);
  }

  // ----- what one hostname does to the store -----

  /** Every listed record is the view of a selected record of the store. */
  lemma {:induction false} ListingMember(certs: seq<CustomCertificate>, sel: string, v: SslCertificate)
    requires v in Listing(certs, sel)
    ensures exists i :: 0 <= i < |certs| && Labelled(sel, certs[i]) && CustomToSslCertificate(certs[i]) == v
    decreases |certs|
  {
    var rest := Listing(certs[1..], sel);
    if Labelled(sel, certs[0]) && v == CustomToSslCertificate(certs[0]) {
      assert Labelled(sel, certs[0]);
    } else {
      assert v in rest;
      ListingMember(certs[1..], sel, v);
      var i :| 0 <= i < |certs[1..]| && Labelled(sel, certs[1..][i]) && CustomToSslCertificate(certs[1..][i]) == v;
      assert certs[i + 1] == certs[1..][i];
    }
  }

  lemma FreshKeepsDistinct(certs: seq<CustomCertificate>, c: CustomCertificate)
    requires DistinctIds(certs) && c.id == FreshId(certs)
    ensures DistinctIds(certs + [c])
  {
    var after := certs + [c];
    forall i, j | 0 <= i < j < |after|
      ensures after[i].id != after[j].id
    {
      if j == |certs| {
        assert |after[i].id| < |c.id|;
      }
    }
  }

  lemma TouchesNothing(certs: seq<CustomCertificate>, uids: set<string>)
    ensures TouchesOnly(certs, certs, uids)
  {
  }

  /** A renewal rewrites a record of the Secret in place and keeps ids distinct. */
  lemma RenewOutcome(certs: seq<CustomCertificate>, uid: string, fp: string, id: string, up: CertUpload, f: string)
    requires DistinctIds(certs)
    requires SecretPlanOf(FindOf(Ok(Listing(certs, SecretSelector(uid))), fp), fp) == Renew(id)
    ensures var i := IndexOfCertId(certs, id);
      i < |certs| && Labelled(SecretSelector(uid), certs[i]) &&
      var after := certs[i := Renewed(certs[i], up, f)];
      DistinctIds(after) && TouchesOnly(certs, after, {uid})
  {
    RenewedIsReused(certs, uid, fp, id, up);
    var i := IndexOfCertId(certs, id);
    assert OwnedBy(certs[i], {uid});
  }

  /** A created record carries the Secret's label and a fresh id. */
  lemma CreateOutcome(certs: seq<CustomCertificate>, uid: string, up: CertUpload, f: string)
    requires DistinctIds(certs)
    ensures var c := Fresh(certs, SecretCertPrefix + uid, map[SecretLabelId := uid], up, f);
      Labelled(SecretSelector(uid), c) && DistinctIds(certs + [c]) && TouchesOnly(certs, certs + [c], {uid})
  {
    var c := Fresh(certs, SecretCertPrefix + uid, map[SecretLabelId := uid], up, f);
    LabelMatches(SecretLabelId, uid, c.labels);
    FreshKeepsDistinct(certs, c);
    assert OwnedBy(c, {uid});
  }

  /** An upload of the hostname's Secret resolves it. */
  lemma CurrentIsResolved(certs: seq<CustomCertificate>, info: TLSConfigInfo, fp: string, id: string)
    requires SecretBacked(info) && Current(certs, info.secret.value.uid, fp, id)
    ensures Resolved(certs, info, id)
  {
  }

  /** A later store that keeps ids and labels keeps every hostname resolved. */
  lemma ResolvedPersists(before: seq<CustomCertificate>, after: seq<CustomCertificate>, info: TLSConfigInfo, id: string)
    requires Resolved(before, info, id) && Persists(before, after)
    ensures Resolved(after, info, id)
  {
    var i :| 0 <= i < |before| && before[i].id == id &&
      (info.externalId != "" || (info.secret.Some? && Labelled(SecretSelector(info.secret.value.uid), before[i])));
    assert after[i].id == id && after[i].labels == before[i].labels;
  }

  lemma OwnedMono(c: CustomCertificate, more: set<string>, uids: set<string>)
    requires more <= uids
    ensures OwnedBy(c, more) ==> OwnedBy(c, uids)
  {
  }

  lemma TouchesOnlyTrans(a: seq<CustomCertificate>, b: seq<CustomCertificate>, c: seq<CustomCertificate>,
                         uids: set<string>, more: set<string>)
    requires TouchesOnly(a, b, uids) && TouchesOnly(b, c, more) && more <= uids
    ensures TouchesOnly(a, c, uids)
  {
    forall i | |a| <= i < |c|
      ensures OwnedBy(c[i], uids)
    {
      if i < |b| {
        assert OwnedBy(b[i], uids);
        var u :| u in uids && Labelled(SecretSelector(u), b[i]);
        assert c[i].labels == b[i].labels;
        assert Labelled(SecretSelector(u), c[i]);
      } else {
        assert OwnedBy(c[i], more);
        OwnedMono(c[i], more, uids);
      }
    }
    forall i | 0 <= i < |a| && !OwnedBy(a[i], uids)
      ensures c[i] == a[i]
    {
      assert b[i] == a[i];
      OwnedMono(b[i], more, uids);
    }
  }

  /** EnsureTLS part-way: every hostname done so far is resolved, and only their Secrets' records were touched. */
  ghost predicate Progress(codec: Codec, tlsInfo: map<string, TLSConfigInfo>, res: map<string, string>,
                           certs0: seq<CustomCertificate>, certs: seq<CustomCertificate>) {
    res.Keys <= tlsInfo.Keys &&
    (forall h :: h in res ==> Resolved(certs, tlsInfo[h], res[h])) &&
    (forall h :: h in res ==> tlsInfo[h].externalId != "" || PrecheckError(codec, h, tlsInfo[h].secret).None?) &&
    TouchesOnly(certs0, certs, AllSecretUids(tlsInfo))
  }

  /** One more hostname handled keeps EnsureTLS's progress. */
  lemma ProgressStep(codec: Codec, tlsInfo: map<string, TLSConfigInfo>, res: map<string, string>,
                     certs0: seq<CustomCertificate>, before: seq<CustomCertificate>, after: seq<CustomCertificate>,
                     host: string, id: string)
    requires Progress(codec, tlsInfo, res, certs0, before) && host in tlsInfo
    requires Resolved(after, tlsInfo[host], id)
    requires tlsInfo[host].externalId != "" || PrecheckError(codec, host, tlsInfo[host].secret).None?
    requires TouchesOnly(before, after, SecretUids(tlsInfo[host]))
    ensures Progress(codec, tlsInfo, res[host := id], certs0, after)
  {
    TouchesOnlyTrans(certs0, before, after, AllSecretUids(tlsInfo), SecretUids(tlsInfo[host]));
    forall h | h in res
      ensures Resolved(after, tlsInfo[h], res[h])
    {
      ResolvedPersists(before, after, tlsInfo[h], res[h]);
    }
  }

  lemma InSyncHost(codec: Codec, certs: seq<CustomCertificate>, tlsInfo: map<string, TLSConfigInfo>, host: string)
    requires AllInSync(codec, certs, tlsInfo) && host in tlsInfo && SecretBacked(tlsInfo[host])
    ensures HostInSync(codec, certs, tlsInfo[host])
  {
  }

  /** One more hostname handled with its current upload's id keeps ReusedSoFar. */
  lemma ReusedStep(codec: Codec, certs: seq<CustomCertificate>, tlsInfo: map<string, TLSConfigInfo>,
                   res: map<string, string>, host: string, id: string)
    requires ReusedSoFar(codec, certs, tlsInfo, res) && host in tlsInfo
    requires HostInSync(codec, certs, tlsInfo[host]) ==> id == HostCurrentId(codec, certs, tlsInfo[host])
    ensures ReusedSoFar(codec, certs, tlsInfo, res[host := id])
  {
  }

  /** When every hostname was in sync, every Secret-backed one got its current upload's id. */
  lemma ReusedAll(codec: Codec, certs: seq<CustomCertificate>, tlsInfo: map<string, TLSConfigInfo>,
                  res: map<string, string>)
    requires ReusedSoFar(codec, certs, tlsInfo, res) && AllInSync(codec, certs, tlsInfo) && res.Keys == tlsInfo.Keys
    ensures forall h :: h in tlsInfo && SecretBacked(tlsInfo[h]) ==> res[h] == HostCurrentId(codec, certs, tlsInfo[h])
  {
    forall h | h in tlsInfo && SecretBacked(tlsInfo[h])
      ensures res[h] == HostCurrentId(codec, certs, tlsInfo[h])
    {
      InSyncHost(codec, certs, tlsInfo, h);
    }
  }

  /** A hostname that fails still touched only its own Secret's records. */
  lemma ProgressFails(codec: Codec, tlsInfo: map<string, TLSConfigInfo>, res: map<string, string>,
                      certs0: seq<CustomCertificate>, before: seq<CustomCertificate>, after: seq<CustomCertificate>,
                      host: string)
    requires Progress(codec, tlsInfo, res, certs0, before) && host in tlsInfo
    requires TouchesOnly(before, after, SecretUids(tlsInfo[host]))
    ensures TouchesOnly(certs0, after, AllSecretUids(tlsInfo))
  {
    TouchesOnlyTrans(certs0, before, after, AllSecretUids(tlsInfo), SecretUids(tlsInfo[host]));
  }
}
