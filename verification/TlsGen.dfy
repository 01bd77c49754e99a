/** The `tls gen` command: key pairs generated in a workspace and stored as Kubernetes secrets, signed with a key pair
    that an earlier command stored. */
module TlsGen {
  import opened Certificates
  import opened Collections

  const ALGORITHM_KEY := "gruntwork.io/private-key-algorithm"
  const BASE_KEY := "gruntwork.io/filename-base"
  const SIGNED_BY_KEY := "gruntwork.io/signed-by"

  datatype Ref = Ref(namespace: string, name: string)

  datatype Secret = Secret(labels: map<string, string>, annotations: map<string, string>, data: map<string, Content>) {

    function Annotation(key: string): string {
      if key in annotations then annotations[key] else ""
    }

    function Data(key: string): Content {
      if key in data then data[key] else Other
    }

    function Certificate(): Content {
      Data(Annotation(BASE_KEY) + ".crt")
    }

    function PrivateKey(): Content {
      Data(Annotation(BASE_KEY) + ".pem")
    }

    function PublicKey(): Content {
      Data(Annotation(BASE_KEY) + ".pub")
    }
  }

  /** The text recorded about the signer. */
  function SignedByText(ref: Ref): string {
    "namespace=" + ref.namespace + ",name=" + ref.name
  }

  /** It names the signer, as namespaces have no comma. */
  lemma SignedByTextInjective(a: Ref, b: Ref)
    requires ',' !in a.namespace && ',' !in b.namespace && SignedByText(a) == SignedByText(b)
    ensures a == b
  {
    JoinedInjective("namespace=", ",name=", a, b);
  }

  lemma JoinedInjective(pre: string, sep: string, a: Ref, b: Ref)
    requires ',' !in a.namespace && ',' !in b.namespace && sep != "" && sep[0] == ','
    requires pre + a.namespace + sep + a.name == pre + b.namespace + sep + b.name
    ensures a == b
  {
    var s, t := a.namespace + (sep + a.name), b.namespace + (sep + b.name);
    assert pre + a.namespace + sep + a.name == pre + s && pre + b.namespace + sep + b.name == pre + t;
    assert s == (pre + s)[|pre|..] && t == (pre + t)[|pre|..];
    CommaAt(a.namespace, sep + a.name);
    CommaAt(b.namespace, sep + b.name);
    assert a.namespace == s[..|a.namespace|] && b.namespace == t[..|b.namespace|];
    assert a.name == s[|a.namespace| + |sep|..] && b.name == t[|b.namespace| + |sep|..];
  }

  function Comma(s: string): nat {
    if s == "" || s[0] == ',' then 0 else 1 + Comma(s[1..])
  }

  lemma {:induction false} CommaAt(pre: string, rest: string)
    requires ',' !in pre && rest != "" && rest[0] == ','
    ensures Comma(pre + rest) == |pre|
    decreases |pre|
  {
    if pre == "" {
      assert pre + rest == rest;
    } else {
      assert (pre + rest)[1..] == pre[1..] + rest;
      assert pre[0] in pre;
      CommaAt(pre[1..], rest);
    }
  }

  // ---- what the store looks like ----

  /** The certificate, private and public key under the recorded base belong together, and the recorded algorithm is
      that of the key. */
  ghost predicate Coherent(s: Secret) {
    && BASE_KEY in s.annotations && ALGORITHM_KEY in s.annotations
    && s.Certificate().CertificatePem? && s.PrivateKey().PrivatePem?
    && s.PrivateKey().key == s.Certificate().certificate.key
    && s.PublicKey() == PublicPem(s.PrivateKey().key)
    && KindOf(s.Annotation(ALGORITHM_KEY)) == Some(s.PrivateKey().key.kind)
    && '/' !in s.Annotation(BASE_KEY)
  }

  /** A secret, the name it was stored under and the secret that signed it, in the order of creation. */
  datatype Issue = Issue(ref: Ref, secret: Secret, signer: Option<Ref>)

  ghost predicate SelfSigned(s: Secret)
    requires Coherent(s)
  {
    var base, c := s.Annotation(BASE_KEY), s.Certificate().certificate;
    && c.issuer.None? && c.signedWith == c.key && c.isCA
    && s.data.Keys == {base + ".crt", base + ".pem", base + ".pub"}
  }

  /** What a secret signed with another one holds: a certificate created under the other's certificate with its private
      key, the record of it, and a copy of a CA certificate. */
  ghost predicate SignedUsing(s: Secret, signer: Secret, ref: Ref)
    requires Coherent(s) && Coherent(signer)
  {
    var base, c := s.Annotation(BASE_KEY), s.Certificate().certificate;
    && c.issuer == Some(signer.Certificate().certificate) && c.signedWith == signer.PrivateKey().key && !c.isCA
    && s.Annotation(SIGNED_BY_KEY) == SignedByText(ref)
    && s.data.Keys == {base + ".crt", base + ".pem", base + ".pub", "ca.crt"}
    && s.data["ca.crt"] == (if base == "ca" then s.Certificate() else signer.Certificate())
  }

  ghost predicate IssuedAs(issues: seq<Issue>, i: nat, j: nat)
    requires j < i < |issues| && Coherent(issues[i].secret)
  {
    && Coherent(issues[j].secret) && issues[i].signer == Some(issues[j].ref)
    && SignedUsing(issues[i].secret, issues[j].secret, issues[j].ref)
  }

  ghost predicate Genuine(issues: seq<Issue>, i: nat)
    requires i < |issues|
  {
    && Coherent(issues[i].secret)
    && (issues[i].signer.None? ==> SelfSigned(issues[i].secret))
    && (issues[i].signer.Some? ==> exists j :: 0 <= j < i && IssuedAs(issues, i, j))
  }

  ghost predicate Chain(issues: seq<Issue>) {
    && (forall i :: 0 <= i < |issues| ==> Genuine(issues, i))
    && (forall i, j :: 0 <= i < j < |issues| ==> issues[i].ref != issues[j].ref)
  }

  /** The store holds the issued secrets and nothing else. */
  ghost predicate Stores(secrets: map<Ref, Secret>, issues: seq<Issue>) {
    && (forall i :: 0 <= i < |issues| ==> issues[i].ref in secrets && secrets[issues[i].ref] == issues[i].secret)
    && (forall r :: r in secrets ==> exists i :: 0 <= i < |issues| && issues[i].ref == r)
  }

  /** A chain can be extended by any self-signed secret and by any signed with one of its secrets. */
  lemma ExtendChain(issues: seq<Issue>, issue: Issue)
    requires Chain(issues) && Coherent(issue.secret)
    requires forall i :: 0 <= i < |issues| ==> issues[i].ref != issue.ref
    requires match issue.signer
      case None => SelfSigned(issue.secret)
      case Some(r) => exists j ::
        && 0 <= j < |issues| && issues[j].ref == r && Coherent(issues[j].secret)
        && SignedUsing(issue.secret, issues[j].secret, r)
    ensures Chain(issues + [issue])
  {
    var all := issues + [issue];
    forall i | 0 <= i < |all| ensures Genuine(all, i) {
      if i < |issues| {
        assert Genuine(issues, i);
        if all[i].signer.Some? {
          var j :| 0 <= j < i && IssuedAs(issues, i, j);
          assert IssuedAs(all, i, j);
        }
      } else if issue.signer.Some? {
        var j :| 0 <= j < |issues| && issues[j].ref == issue.signer.value && Coherent(issues[j].secret)
          && SignedUsing(issue.secret, issues[j].secret, issue.signer.value);
        assert IssuedAs(all, i, j);
      }
    }
  }

  // ---- what follows for every sequence of commands ----

  /** Every stored certificate verifies along its chain, up to a self-signed CA certificate that is itself stored, in a
      secret that is at least as old. */
  lemma {:induction false} ChainsEndAtStoredCA(issues: seq<Issue>, i: nat)
    requires Chain(issues) && i < |issues|
    ensures Coherent(issues[i].secret) && Verifies(issues[i].secret.Certificate().certificate)
    ensures exists k :: 0 <= k <= i && IsRootOf(issues, k, issues[i].secret.Certificate().certificate)
  {
    assert Genuine(issues, i);
    if issues[i].signer.None? {
      assert IsRootOf(issues, i, issues[i].secret.Certificate().certificate);
    } else {
      var j :| 0 <= j < i && IssuedAs(issues, i, j);
      ChainsEndAtStoredCA(issues, j);
      var k :| 0 <= k <= j && IsRootOf(issues, k, issues[j].secret.Certificate().certificate);
      assert IsRootOf(issues, k, issues[i].secret.Certificate().certificate);
    }
  }

  ghost predicate IsRootOf(issues: seq<Issue>, k: nat, c: Certificate)
    requires k < |issues|
  {
    && issues[k].signer.None? && issues[k].secret.Certificate() == CertificatePem(Root(c)) && Root(c).isCA
    && Root(c).issuer.None? && Root(c).signedWith == Root(c).key
  }

  ghost predicate SignedByRoot(issues: seq<Issue>, i: nat)
    requires i < |issues|
  {
    exists j :: 0 <= j < i && issues[i].signer == Some(issues[j].ref) && issues[j].signer.None?
  }

  /** The command does not ask whether the secret it signs with holds a CA certificate. The certificates above a
      stored one are all those of CAs, as path validation demands, exactly if it is self-signed or was signed with a
      secret that is. */
  lemma IssuersAreCAsIff(issues: seq<Issue>, i: nat)
    requires Chain(issues) && i < |issues|
    ensures Coherent(issues[i].secret)
    ensures IssuersAreCAs(issues[i].secret.Certificate().certificate) <==>
      issues[i].signer.None? || SignedByRoot(issues, i)
  {
    assert Genuine(issues, i);
    if issues[i].signer.Some? {
      var j :| 0 <= j < i && IssuedAs(issues, i, j);
      assert Genuine(issues, j);
      if issues[j].signer.Some? {
        var k :| 0 <= k < j && IssuedAs(issues, j, k);
        assert !issues[j].secret.Certificate().certificate.isCA;
      }
    }
  }

  /** The ca.crt of a signed secret is the certificate of the secret that signed it unless the base name is "ca", in
      which case the new certificate took its place. */
  lemma CaCertificateIffOtherName(issues: seq<Issue>, i: nat, j: nat)
    requires Chain(issues) && j < i < |issues| && issues[i].signer == Some(issues[j].ref)
    ensures Coherent(issues[j].secret) && issues[j].secret.Certificate().CertificatePem?
    ensures "ca.crt" in issues[i].secret.data
    ensures issues[i].secret.data["ca.crt"] == issues[j].secret.Certificate() <==>
      issues[i].secret.Annotation(BASE_KEY) != "ca"
    ensures var c := issues[i].secret.Certificate();
      c.CertificatePem? && c.certificate.signedWith == issues[j].secret.PrivateKey().key
  {
    assert Genuine(issues, i) && Genuine(issues, j);
    var k :| 0 <= k < i && IssuedAs(issues, i, k);
    assert k == j;
    var c := issues[i].secret.Certificate().certificate;
    assert c.issuer.value != c by {
      NotItsOwnIssuer(c);
    }
  }

  lemma NotItsOwnIssuer(c: Certificate)
    requires c.issuer.Some?
    ensures c.issuer.value != c
    decreases c
  {
    if c.issuer.value == c {
      NotItsOwnIssuer(c.issuer.value);
    }
  }

  /** The record names the one secret that signed. */
  lemma RecordNamesSigner(issues: seq<Issue>, i: nat, j: nat)
    requires Chain(issues) && i < |issues| && j < |issues| && issues[i].signer.Some?
    requires forall k :: 0 <= k < |issues| ==> ',' !in issues[k].ref.namespace
    ensures issues[i].secret.Annotation(SIGNED_BY_KEY) == SignedByText(issues[j].ref) <==>
      issues[i].signer == Some(issues[j].ref)
  {
    assert Genuine(issues, i);
    var k :| 0 <= k < i && IssuedAs(issues, i, k);
    if issues[i].secret.Annotation(SIGNED_BY_KEY) == SignedByText(issues[j].ref) {
      SignedByTextInjective(issues[k].ref, issues[j].ref);
    }
  }

  // ---- the cluster ----

  class Cluster {
    var secrets: map<Ref, Secret>
    ghost var issues: seq<Issue>
    /** How many requests were answered with an error. */
    ghost var failures: nat

    ghost predicate Valid()
      reads this
    {
      Chain(issues) && Stores(secrets, issues)
    }

    constructor ()
      ensures Valid() && secrets == map[] && issues == [] && failures == 0
    {
      secrets, issues, failures := map[], [], 0;
    }

    method GetSecret(ref: Ref) returns (secret: Option<Secret>)
      modifies this`failures
      ensures secret.Some? ==> ref in secrets && secrets[ref] == secret.value
      ensures failures == old(failures) + if secret.Some? then 0 else 1
    {
      var ok: bool := *;
      secret := if ok && ref in secrets then Some(secrets[ref]) else None;
      failures := failures + if secret.Some? then 0 else 1;
    }

    /** CreateSecret: refused if the name is taken or a data key has a character no key may have. A request that was
        carried out may still be reported as failed. */
    method CreateSecret(ref: Ref, secret: Secret) returns (ok: bool)
      modifies this`secrets, this`failures
      ensures failures == old(failures) + if ok then 0 else 1
      ensures ok || secrets != old(secrets) ==>
        && ref !in old(secrets) && secrets == old(secrets)[ref := secret]
        && forall key :: key in secret.data ==> '/' !in key
    {
      var arrives, answers: bool := *, *;
      ok := false;
      if arrives && ref !in secrets && forall key :: key in secret.data ==> '/' !in key {
        secrets := secrets[ref := secret];
        ok := answers;
      }
      failures := failures + if ok then 0 else 1;
    }
  }

  /** AddToSecretFromFile. */
  method AddFromFile(workspace: Workspace, secret: Secret, key: string, path: string) returns (ok: bool, filled: Secret)
    modifies workspace`failures
    ensures workspace.failures >= old(workspace.failures)
    ensures !ok && workspace.failures == old(workspace.failures) ==> path !in workspace.files
    ensures ok ==> path in workspace.files && filled == secret.(data := secret.data[key := workspace.files[path]])
  {
    var content := workspace.Read(path);
    ok := content.Some?;
    filled := if ok then secret.(data := secret.data[key := content.value]) else secret;
  }

  /** StoreCertificateKeyPairAsKubernetesSecret. */
  method StoreAsSecret(cluster: Cluster, workspace: Workspace, ref: Ref, labels: map<string, string>,
                       annotations: map<string, string>,
                       base: string, path: KeyPairPath, caPath: Option<string>)
    returns (ok: bool, ghost stored: Secret)
    modifies cluster`secrets, cluster`failures, workspace`failures
    ensures workspace.failures >= old(workspace.failures) && cluster.failures >= old(cluster.failures)
    ensures !ok && workspace.failures == old(workspace.failures) && cluster.failures == old(cluster.failures) ==>
      || path.certificate !in workspace.files || path.privateKey !in workspace.files
      || path.publicKey !in workspace.files || (caPath.Some? && caPath.value !in workspace.files)
    ensures ok || cluster.secrets != old(cluster.secrets) ==>
      && ref !in old(cluster.secrets) && cluster.secrets == old(cluster.secrets)[ref := stored] && '/' !in base
      && var files := workspace.files;
         && path.certificate in files && path.privateKey in files && path.publicKey in files
         && (caPath.Some? ==> caPath.value in files)
         && var pair := map[base + ".crt" := files[path.certificate]][base + ".pem" := files[path.privateKey]]
                           [base + ".pub" := files[path.publicKey]];
            stored == Secret(labels, annotations, if caPath.Some? then pair["ca.crt" := files[caPath.value]] else pair)
  {
    NamesDiffer(base);
    var secret := Secret(labels, annotations, map[]);
    stored := secret;
    ok, secret := AddFromFile(workspace, secret, base + ".crt", path.certificate);
    if !ok {
      return;
    }
    ok, secret := AddFromFile(workspace, secret, base + ".pem", path.privateKey);
    if !ok {
      return;
    }
    ok, secret := AddFromFile(workspace, secret, base + ".pub", path.publicKey);
    if !ok {
      return;
    }
    if caPath.Some? {
      ok, secret := AddFromFile(workspace, secret, "ca.crt", caPath.value);
      if !ok {
        return;
      }
    }
    stored := secret;
    assert base + ".crt" in secret.data;
    ok := cluster.CreateSecret(ref, secret);
  }

  const CA_PATH := KeyPairPath("ca.crt", "ca.pem", "ca.pub")

  /** loadCAKeyPair: the signing secret's three files, under the base it recorded, written out under the name "ca". */
  method LoadCAKeyPair(cluster: Cluster, caRef: Ref, workspace: Workspace)
    returns (ok: bool, path: KeyPairPath, algorithm: string)
    modifies workspace, cluster`failures
    ensures workspace.failures >= old(workspace.failures) && cluster.failures >= old(cluster.failures)
    ensures !ok ==> workspace.failures > old(workspace.failures) || cluster.failures > old(cluster.failures)
    ensures ok ==>
      && caRef in cluster.secrets && path == CA_PATH
      && var ca := cluster.secrets[caRef];
         && algorithm == ca.Annotation(ALGORITHM_KEY)
         && workspace.files ==
            old(workspace.files)["ca.crt" := ca.Certificate()]["ca.pem" := ca.PrivateKey()]["ca.pub" := ca.PublicKey()]
  {
    path, algorithm := CA_PATH, "";
    var secret := cluster.GetSecret(caRef);
    if secret.None? {
      return false, path, algorithm;
    }
    var base := secret.value.Annotation(BASE_KEY);
    ok := workspace.Write(path.certificate, secret.value.Data(base + ".crt"));
    if !ok {
      return;
    }
    ok := workspace.Write(path.privateKey, secret.value.Data(base + ".pem"));
    if !ok {
      return;
    }
    ok := workspace.Write(path.publicKey, secret.value.Data(base + ".pub"));
    if !ok {
      return;
    }
    algorithm := secret.value.Annotation(ALGORITHM_KEY);
  }

  /** A certificate and a private key of the recorded kind are in the files to sign with. */
  ghost predicate CanSign(files: map<string, Content>, path: KeyPairPath, algorithm: string) {
    && path.certificate in files && files[path.certificate].CertificatePem?
    && path.privateKey in files && files[path.privateKey].PrivatePem?
    && KindOf(algorithm) == Some(files[path.privateKey].key.kind)
  }

  /** generateSignedTLSKeyPair. An error of loading the signing key is overwritten by the outcome of the generation,
      which then has no key to sign with. */
  method GenerateSignedKeyPair(workspace: Workspace, options: TlsOptions, caPath: KeyPairPath, caAlgorithm: string,
                               base: string,
                               dnsNames: seq<string>)
    returns (ok: bool, path: KeyPairPath, ghost key: Key, ghost certificate: Certificate)
    modifies workspace
    ensures workspace.failures >= old(workspace.failures)
    ensures !ok && workspace.failures == old(workspace.failures) ==>
      !options.Valid() || !CanSign(old(workspace.files), caPath, caAlgorithm)
    ensures '/' !in base ==> path == NamedPath(base)
    ensures ok ==> Requested(key, certificate, options, false, dnsNames) && certificate.dnsNames == dnsNames
    ensures ok ==>
      && caPath.certificate in old(workspace.files) && caPath.privateKey in old(workspace.files)
      && certificate.issuer.Some?
      && old(workspace.files[caPath.certificate]) == CertificatePem(certificate.issuer.value)
      && old(workspace.files[caPath.privateKey]) == PrivatePem(certificate.signedWith)
      && KindOf(caAlgorithm) == Some(certificate.signedWith.kind)
    ensures ok && '/' !in base ==>
      workspace.files == old(workspace.files)
        [base + ".crt" := CertificatePem(certificate)][base + ".pem" := PrivatePem(key)]
        [base + ".pub" := PublicPem(key)]
  {
    path := NamedPath(base);
    key, certificate := NO_KEY, NO_CERTIFICATE;
    var signing := workspace.LoadCertificate(caPath.certificate);
    if signing.None? {
      return false, path, key, certificate;
    }
    var kind := KindOf(caAlgorithm);
    if kind.None? {
      return false, path, key, certificate;
    }
    var signingKey := workspace.LoadPrivateKey(kind.value, caPath.privateKey);
    ok, path, key, certificate := GenerateKeyPair(workspace, options, base, false, dnsNames, signing, signingKey);
  }

  /** The annotations of the new secret: the given ones, with the command's own on top. */
  function Annotated(given: map<string, string>, signer: Option<Ref>, algorithm: string, base: string): map<string,
                     string> {
    (if signer.Some? then given[SIGNED_BY_KEY := SignedByText(signer.value)] else given)
      [ALGORITHM_KEY := algorithm][BASE_KEY := base]
  }

  /** The same without the function: the command's own keys, and every other key as given. */
  ghost predicate AnnotatedAs(annotations: map<string, string>, given: map<string, string>, signer: Option<Ref>,
                              algorithm: string, base: string)
  {
    var kind, file := "gruntwork.io/private-key-algorithm", "gruntwork.io/filename-base";
    var record := "gruntwork.io/signed-by";
    && kind in annotations && annotations[kind] == algorithm
    && file in annotations && annotations[file] == base
    && (signer.Some? ==>
          && record in annotations
          && annotations[record] == "namespace=" + signer.value.namespace + ",name=" + signer.value.name)
    && (forall key :: key != kind && key != file && (key != record || signer.None?) ==>
          && (key in annotations <==> key in given)
          && (key in given ==> annotations[key] == given[key]))
  }

  lemma AnnotatedMeans(given: map<string, string>, signer: Option<Ref>, algorithm: string, base: string)
    ensures AnnotatedAs(Annotated(given, signer, algorithm, base), given, signer, algorithm, base)
  {
    assert ALGORITHM_KEY[13] == 'p' && BASE_KEY[13] == 'f' && SIGNED_BY_KEY[13] == 's';
  }

  /** The files after a key pair was generated: its own three, and the loaded CA certificate unless the base is "ca". */
  lemma FilesWritten(before: map<string, Content>, after: map<string, Content>, base: string, key: Key,
                     certificate: Certificate)
    requires after ==
      before[base + ".crt" := CertificatePem(certificate)][base + ".pem" := PrivatePem(key)]
        [base + ".pub" := PublicPem(key)]
    ensures Holds(after, NamedPath(base), key, certificate)
    ensures "ca.crt" in before ==>
      "ca.crt" in after && after["ca.crt"] == if base == "ca" then CertificatePem(certificate) else before["ca.crt"]
  {
    NamesDiffer(base);
  }

  /** The secret made of the files of a key pair and, for a signed one, the CA certificate. */
  lemma StoredSecret(s: Secret, base: string, key: Key, certificate: Certificate, algorithm: string,
                     ca: Option<Content>)
    requires '/' !in base && KindOf(algorithm) == Some(key.kind) && certificate.key == key
    requires BASE_KEY in s.annotations && s.annotations[BASE_KEY] == base
    requires ALGORITHM_KEY in s.annotations && s.annotations[ALGORITHM_KEY] == algorithm
    requires ca.Some? && base == "ca" ==> ca.value == CertificatePem(certificate)
    requires var pair := map[base + ".crt" := CertificatePem(certificate)][base + ".pem" := PrivatePem(key)]
                            [base + ".pub" := PublicPem(key)];
      s.data == if ca.Some? then pair["ca.crt" := ca.value] else pair
    ensures Coherent(s) && s.Certificate() == CertificatePem(certificate) && s.PrivateKey() == PrivatePem(key)
    ensures s.data.Keys == {base + ".crt", base + ".pem", base + ".pub"} + (if ca.Some? then {"ca.crt"} else {})
    ensures ca.Some? ==> s.data["ca.crt"] == ca.value
  {
    NamesDiffer(base);
  }

  /** The secret holds, under the base it records, a certificate and a private key of the kind it records. */
  ghost predicate Signing(secrets: map<Ref, Secret>, ref: Ref) {
    && ref in secrets && secrets[ref].Certificate().CertificatePem? && secrets[ref].PrivateKey().PrivatePem?
    && KindOf(secrets[ref].Annotation(ALGORITHM_KEY)) == Some(secrets[ref].PrivateKey().key.kind)
  }

  /** Every secret the command stored does. */
  lemma StoredCanSign(secrets: map<Ref, Secret>, issues: seq<Issue>, ref: Ref)
    requires Chain(issues) && Stores(secrets, issues) && ref in secrets
    ensures Signing(secrets, ref)
  {
    var j := IssueOf(secrets, issues, ref);
    LoaderMatches(issues, j);
  }

  /** The first part of the command: a self-signed key pair, or one signed with the loaded one. */
  method ObtainKeyPair(cluster: Cluster, workspace: Workspace, caRef: Ref, genCA: bool, base: string,
                       options: TlsOptions, dnsNames: seq<string>)
    returns (ok: bool, path: KeyPairPath, caPath: Option<string>, ghost key: Key, ghost certificate: Certificate)
    modifies workspace, cluster`failures
    ensures workspace.failures >= old(workspace.failures) && cluster.failures >= old(cluster.failures)
    ensures !ok && workspace.failures == old(workspace.failures) && cluster.failures == old(cluster.failures) ==>
      !options.Valid() || (!genCA && caRef in cluster.secrets && !Signing(cluster.secrets, caRef))
    ensures caPath == if genCA then None else Some("ca.crt")
    ensures ok ==> Requested(key, certificate, options, genCA, if genCA then [] else dnsNames)
    ensures ok && !genCA ==> certificate.dnsNames == dnsNames
    ensures ok ==> KindOf(options.algorithm) == Some(key.kind)
    ensures ok && '/' !in base ==> path == NamedPath(base) && Holds(workspace.files, path, key, certificate)
    ensures ok && genCA ==> certificate.issuer.None? && certificate.signedWith == key
    ensures ok && !genCA ==>
      && caRef in cluster.secrets && certificate.issuer.Some?
      && var ca := cluster.secrets[caRef];
         && ca.Certificate() == CertificatePem(certificate.issuer.value)
         && ca.PrivateKey() == PrivatePem(certificate.signedWith)
         && ('/' !in base ==>
               && "ca.crt" in workspace.files
               && workspace.files["ca.crt"] == (if base == "ca" then CertificatePem(certificate) else ca.Certificate()))
  {
    if genCA {
      caPath := None;
      ghost var files := workspace.files;
      ok, path, key, certificate := GenerateKeyPair(workspace, options, base, true, [], None, None);
      if ok && '/' !in base {
        FilesWritten(files, workspace.files, base, key, certificate);
      }
      return;
    }
    caPath := Some(CA_PATH.certificate);
    var ca, algorithm;
    ok, ca, algorithm := LoadCAKeyPair(cluster, caRef, workspace);
    path, key, certificate := ca, NO_KEY, NO_CERTIFICATE;
    if !ok {
      return;
    }
    ghost var files := workspace.files;
    ok, path, key, certificate := GenerateSignedKeyPair(workspace, options, ca, algorithm, base, dnsNames);
    if ok && '/' !in base {
      FilesWritten(files, workspace.files, base, key, certificate);
    }
  }

  /** The secret's key and certificate are what was asked for. */
  ghost predicate Holding(s: Secret, options: TlsOptions, isCA: bool, dnsNames: seq<string>) {
    && s.Certificate().CertificatePem? && s.PrivateKey().PrivatePem?
    && s.Certificate().certificate.dnsNames == dnsNames
    && Requested(s.PrivateKey().key, s.Certificate().certificate, options, isCA, dnsNames)
  }

  /** GenerateAndStoreAsK8SSecret: whatever the command does, the store stays a chain; if it succeeds there is one new
      secret, issued as asked. */
  method GenerateAndStore(cluster: Cluster, ref: Ref, labels: map<string, string>, given: map<string, string>,
                          caRef: Ref, genCA: bool, base: string, options: TlsOptions, dnsNames: seq<string>)
    returns (ok: bool, ghost failures: nat)
    requires cluster.Valid()
    modifies cluster
    ensures cluster.Valid()
    ensures !ok ==> failures > 0 || cluster.failures > old(cluster.failures) || !options.Valid() || '/' in base
    ensures ok ==> cluster.secrets != old(cluster.secrets)
    ensures cluster.secrets == old(cluster.secrets) ==> cluster.issues == old(cluster.issues)
    ensures cluster.secrets != old(cluster.secrets) ==>
      && ref !in old(cluster.secrets) && options.Valid() && '/' !in base
      && |cluster.issues| == |old(cluster.issues)| + 1 && old(cluster.issues) <= cluster.issues
      && var issue := cluster.issues[|old(cluster.issues)|];
         && issue.ref == ref && issue.signer == (if genCA then None else Some(caRef))
         && issue.secret.labels == labels
         && AnnotatedAs(issue.secret.annotations, given, issue.signer, options.algorithm, base)
         && Holding(issue.secret, options, genCA, if genCA then [] else dnsNames)
         && cluster.secrets == old(cluster.secrets)[ref := issue.secret]
  {
    hide Coherent, Chain, Stores, SelfSigned, SignedUsing, SignedByText, KindOf, AnnotatedAs, Signing, Holds;
    var workspace := new Workspace();
    var path, caPath;
    ghost var key, certificate;
    ok, path, caPath, key, certificate := ObtainKeyPair(cluster, workspace, caRef, genCA, base, options, dnsNames);
    failures := workspace.failures;
    if !genCA && caRef in cluster.secrets {
      StoredCanSign(cluster.secrets, cluster.issues, caRef);
    }
    if !ok {
      return;
    }
    var signer := if genCA then None else Some(caRef);
    var annotations := given;
    if !genCA {
      annotations := annotations[SIGNED_BY_KEY := SignedByText(caRef)];
    }
    annotations := annotations[ALGORITHM_KEY := options.algorithm];
    annotations := annotations[BASE_KEY := base];
    ghost var stored;
    ghost var before := cluster.secrets;
    ok, stored := StoreAsSecret(cluster, workspace, ref, labels, annotations, base, path, caPath);
    failures := workspace.failures;
    AnnotatedMeans(given, signer, options.algorithm, base);
    if cluster.secrets != before {
      if genCA {
        StoredSecret(stored, base, key, certificate, options.algorithm, None);
        SelfSignedIssue(before, cluster.issues, Issue(ref, stored, signer));
      } else {
        StoredSecret(stored, base, key, certificate, options.algorithm, Some(workspace.files["ca.crt"]));
        SignedIssue(before, cluster.issues, Issue(ref, stored, signer), caRef);
      }
      cluster.issues := cluster.issues + [Issue(ref, stored, signer)];
    }
  }

  lemma SelfSignedIssue(secrets: map<Ref, Secret>, issues: seq<Issue>, issue: Issue)
    requires Chain(issues) && Stores(secrets, issues) && issue.ref !in secrets && issue.signer.None?
    requires Coherent(issue.secret)
    requires var base, c := issue.secret.Annotation(BASE_KEY), issue.secret.Certificate().certificate;
      && c.issuer.None? && c.signedWith == c.key && c.isCA
      && issue.secret.data.Keys == {base + ".crt", base + ".pem", base + ".pub"}
    ensures Chain(issues + [issue]) && Stores(secrets[issue.ref := issue.secret], issues + [issue])
  {
    hide Coherent;
    assert SelfSigned(issue.secret);
    ExtendChain(issues, issue);
    StoresOneMore(secrets, issues, issue);
  }

  lemma SignedIssue(secrets: map<Ref, Secret>, issues: seq<Issue>, issue: Issue, caRef: Ref)
    requires Chain(issues) && Stores(secrets, issues) && issue.ref !in secrets && issue.signer == Some(caRef)
    requires caRef in secrets
    requires Coherent(issue.secret)
    requires var base, c := issue.secret.Annotation(BASE_KEY), issue.secret.Certificate().certificate;
      && c.issuer.Some? && secrets[caRef].Certificate() == CertificatePem(c.issuer.value)
      && secrets[caRef].PrivateKey() == PrivatePem(c.signedWith) && !c.isCA
      && issue.secret.Annotation(SIGNED_BY_KEY) == SignedByText(caRef)
      && issue.secret.data.Keys == {base + ".crt", base + ".pem", base + ".pub", "ca.crt"}
      && issue.secret.data["ca.crt"] ==
         (if base == "ca" then issue.secret.Certificate() else secrets[caRef].Certificate())
    ensures Chain(issues + [issue]) && Stores(secrets[issue.ref := issue.secret], issues + [issue])
  {
    hide Coherent;
    var j := IssueOf(secrets, issues, caRef);
    assert Genuine(issues, j);
    assert SignedUsing(issue.secret, issues[j].secret, caRef);
    ExtendChain(issues, issue);
    StoresOneMore(secrets, issues, issue);
  }

  lemma IssueOf(secrets: map<Ref, Secret>, issues: seq<Issue>, ref: Ref) returns (j: nat)
    requires Stores(secrets, issues) && ref in secrets
    ensures j < |issues| && issues[j].ref == ref && issues[j].secret == secrets[ref]
  {
    j :| 0 <= j < |issues| && issues[j].ref == ref;
  }

  lemma StoresOneMore(secrets: map<Ref, Secret>, issues: seq<Issue>, issue: Issue)
    requires Stores(secrets, issues) && issue.ref !in secrets
    ensures Stores(secrets[issue.ref := issue.secret], issues + [issue])
  {
    var all, now := issues + [issue], secrets[issue.ref := issue.secret];
    forall r | r in now ensures exists i :: 0 <= i < |all| && all[i].ref == r {
      if r == issue.ref {
        assert all[|issues|].ref == r;
      } else {
        var i := IssueOf(secrets, issues, r);
        assert all[i].ref == r;
      }
    }
  }

  /** In a chain the recorded algorithm always selects the loader that can read the stored key, so that the loading
      error the command ignores does not occur for secrets it stored. */
  lemma LoaderMatches(issues: seq<Issue>, i: nat)
    requires Chain(issues) && i < |issues|
    ensures var s := issues[i].secret;
      && s.PrivateKey().PrivatePem? && KindOf(s.Annotation(ALGORITHM_KEY)) == Some(s.PrivateKey().key.kind)
      && s.PublicKey() == PublicPem(s.PrivateKey().key) && s.Certificate().CertificatePem?
      && s.Certificate().certificate.key == s.PrivateKey().key
  {
    assert Genuine(issues, i);
  }

  // ---- stores in which it shows ----

  /** A secret as the command makes it, of an RSA key. */
  function Made(base: string, key: Key, certificate: Certificate, signer: Option<Ref>, ca: Option<Content>): Secret {
    var pair := map[base + ".crt" := CertificatePem(certificate)][base + ".pem" := PrivatePem(key)]
                   [base + ".pub" := PublicPem(key)];
    Secret(map[], Annotated(map[], signer, RSA_ALGORITHM, base), if ca.Some? then pair["ca.crt" := ca.value] else pair)
  }

  const ROOT_REF := Ref("ns", "root")
  const LEAF_REF := Ref("ns", "leaf")
  const OTHER_REF := Ref("ns", "other")
  const ROOT_KEY := Key(Rsa, Bits(2048), 0)
  const LEAF_KEY := Key(Rsa, Bits(2048), 1)
  const OTHER_KEY := Key(Rsa, Bits(2048), 2)
  const ROOT := Certificate(ROOT_KEY, ROOT_KEY, None, true, [], "", 0)
  const LEAF := Certificate(LEAF_KEY, ROOT_KEY, Some(ROOT), false, [], "", 0)
  const OTHER := Certificate(OTHER_KEY, LEAF_KEY, Some(LEAF), false, [], "", 0)

  lemma MadeRoot() returns (issue: Issue)
    ensures issue == Issue(ROOT_REF, Made("ca", ROOT_KEY, ROOT, None, None), None)
    ensures Coherent(issue.secret) && issue.secret.Certificate() == CertificatePem(ROOT)
    ensures issue.secret.PrivateKey() == PrivatePem(ROOT_KEY) && Chain([issue])
  {
    var s := Made("ca", ROOT_KEY, ROOT, None, None);
    StoredSecret(s, "ca", ROOT_KEY, ROOT, RSA_ALGORITHM, None);
    issue := Issue(ROOT_REF, s, None);
    assert SelfSigned(s);
    ExtendChain([], issue);
    assert [] + [issue] == [issue];
  }

  /** One more secret, signed with the last of a chain. */
  lemma MadeSigned(issues: seq<Issue>, ref: Ref, base: string, key: Key, certificate: Certificate, ca: Content)
    returns (issue: Issue)
    requires Chain(issues) && issues != [] && forall i :: 0 <= i < |issues| ==> issues[i].ref != ref
    requires '/' !in base && key.kind == Rsa && certificate.key == key && !certificate.isCA
    requires Coherent(issues[|issues| - 1].secret)
    requires var signer := issues[|issues| - 1].secret;
      && certificate.issuer == Some(signer.Certificate().certificate)
      && certificate.signedWith == signer.PrivateKey().key
      && ca == if base == "ca" then CertificatePem(certificate) else signer.Certificate()
    ensures var last := Some(issues[|issues| - 1].ref);
      issue == Issue(ref, Made(base, key, certificate, last, Some(ca)), last)
    ensures Coherent(issue.secret) && issue.secret.Certificate() == CertificatePem(certificate)
    ensures issue.secret.PrivateKey() == PrivatePem(key) && issue.secret.Annotation(BASE_KEY) == base
    ensures Chain(issues + [issue])
  {
    hide Coherent, Chain;
    var signer := issues[|issues| - 1];
    var s := Made(base, key, certificate, Some(signer.ref), Some(ca));
    StoredSecret(s, base, key, certificate, RSA_ALGORITHM, Some(ca));
    issue := Issue(ref, s, Some(signer.ref));
    assert SignedUsing(s, signer.secret, signer.ref);
    ExtendChain(issues, issue);
  }

  /** A root, a key pair signed with it under the base name "ca", and one signed with that: the second has its own
      certificate as ca.crt, and the third hangs below a certificate that is no CA's. */
  lemma UnsoundStoreHappens() returns (issues: seq<Issue>)
    ensures Chain(issues) && |issues| == 3
    ensures issues[1].signer == Some(issues[0].ref) && issues[2].signer == Some(issues[1].ref)
    ensures issues[1].secret.Annotation(BASE_KEY) == "ca" && "ca.crt" in issues[1].secret.data
    ensures issues[1].secret.data["ca.crt"] != issues[0].secret.Certificate()
    ensures issues[2].secret.Certificate().CertificatePem? && !IssuersAreCAs(issues[2].secret.Certificate().certificate)
  {
    hide Coherent, Chain, Made;
    var root := MadeRoot();
    var leaf := MadeSigned([root], LEAF_REF, "ca", LEAF_KEY, LEAF, CertificatePem(LEAF));
    var other := MadeSigned([root] + [leaf], OTHER_REF, "tls", OTHER_KEY, OTHER, CertificatePem(LEAF));
    issues := [root] + [leaf] + [other];
    CaCertificateIffOtherName(issues, 1, 0);
  }
}
