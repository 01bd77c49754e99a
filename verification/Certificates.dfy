/** Key pairs and certificates as abstract values, and the temporary directory in which they are kept as PEM files. */
module Certificates {

  import opened Collections

  datatype Kind = Ecdsa | Rsa

  datatype Size = Curve(name: string) | Bits(count: int)

  /** A key pair; private and public half name the same pair. */
  datatype Key = Key(kind: Kind, size: Size, material: nat)

  /** An X.509 certificate: whose public key it holds, the private key it was signed with, and the issuing certificate
      it was created under, which is absent for a self-signed one; whom it is for, and for how long. */
  datatype Certificate = Certificate(
    key: Key,
    signedWith: Key,
    issuer: Option<Certificate>,
    isCA: bool,
    dnsNames: seq<string>,
    subject: string,
    validity: int)

  /** What decoding a file yields. */
  datatype Content = CertificatePem(certificate: Certificate) | PrivatePem(key: Key) | PublicPem(key: Key) | Other

  /** Every signature in the chain checks against the public key of the certificate above it, up to one that signed
      itself. */
  predicate Verifies(c: Certificate)
    decreases c
  {
    match c.issuer
    case None => c.signedWith == c.key
    case Some(above) => c.signedWith == above.key && Verifies(above)
  }

  /** Every certificate above this one is that of a CA. */
  predicate IssuersAreCAs(c: Certificate)
    decreases c
  {
    match c.issuer
    case None => true
    case Some(above) => above.isCA && IssuersAreCAs(above)
  }

  function Root(c: Certificate): Certificate
    decreases c
  {
    match c.issuer
    case None => c
    case Some(above) => Root(above)
  }

  const ECDSA_ALGORITHM := "ECDSA"
  const RSA_ALGORITHM := "RSA"
  const KNOWN_CURVES := ["P224", "P256", "P384", "P521"]
  const MINIMUM_RSA_BITS: int := 2048

  datatype TlsOptions = TlsOptions(algorithm: string, rsaBits: int, curve: string, subject: string, validity: int) {

    /** The same options for a kind of key. */
    function For(kind: Kind): TlsOptions {
      this.(algorithm := if kind.Ecdsa? then "ECDSA" else "RSA")
    }

    /** Whether Validate accepts the options. */
    predicate Valid() {
      || (algorithm == "ECDSA" && curve in ["P224", "P256", "P384", "P521"])
      || (algorithm == "RSA" && rsaBits >= 2048)
    }
  }

  /** The key and the certificate are what the options, the command and its DNS names ask for. */
  ghost predicate Requested(key: Key, certificate: Certificate, options: TlsOptions, isCA: bool,
                            dnsNames: seq<string>)
  {
    && options.Valid()
    && (options.algorithm == "ECDSA" ==> key.kind.Ecdsa? && key.size == Curve(options.curve))
    && (options.algorithm == "RSA" ==> key.kind.Rsa? && key.size == Bits(options.rsaBits))
    && certificate.key == key && certificate.isCA == isCA && certificate.dnsNames == dnsNames
    && certificate.subject == options.subject && certificate.validity == options.validity
  }

  /** The kind of key a recorded algorithm stands for. */
  function KindOf(algorithm: string): Option<Kind> {
    if algorithm == ECDSA_ALGORITHM then Some(Ecdsa) else if algorithm == RSA_ALGORITHM then Some(Rsa) else None
  }

  /** The workspace: a new temporary directory. Paths are relative to it. `failures` counts the calls that failed on
      this machine: writing, reading a file that is there, and generating keys and certificates. */
  class Workspace {
    var files: map<string, Content>
    ghost var failures: nat

    constructor ()
      ensures files == map[] && failures == 0
    {
      files, failures := map[], 0;
    }

    ghost method Note(ok: bool)
      modifies this`failures
      ensures failures == old(failures) + if ok then 0 else 1
    {
      failures := failures + if ok then 0 else 1;
    }

    /** filepath.Join: the name itself, unless it has separators, which may lead anywhere. */
    method Join(name: string) returns (path: string)
      ensures '/' !in name ==> path == name
    {
      path := *;
      if '/' !in name {
        path := name;
      }
    }

    method Write(path: string, content: Content) returns (ok: bool)
      modifies this
      ensures ok ==> files == old(files)[path := content]
      ensures !ok ==> files == old(files)
      ensures failures == old(failures) + if ok then 0 else 1
    {
      ok := *;
      Note(ok);
      if ok {
        files := files[path := content];
      }
    }

    method Read(path: string) returns (content: Option<Content>)
      modifies this`failures
      ensures content.Some? ==> path in files && content.value == files[path]
      ensures failures == old(failures) + if content.Some? || path !in files then 0 else 1
    {
      var ok: bool := *;
      Note(ok || path !in files);
      content := if ok && path in files then Some(files[path]) else None;
    }

    method LoadCertificate(path: string) returns (certificate: Option<Certificate>)
      modifies this`failures
      ensures failures >= old(failures)
      ensures certificate.None? && failures == old(failures) ==> path !in files || !files[path].CertificatePem?
      ensures certificate.Some? ==> path in files && files[path] == CertificatePem(certificate.value)
    {
      var content := Read(path);
      certificate := if content.Some? && content.value.CertificatePem? then Some(content.value.certificate) else None;
    }

    /** LoadECDSAPrivateKey and LoadRSAPrivateKey: each parses only its own kind of key. */
    method LoadPrivateKey(kind: Kind, path: string) returns (key: Option<Key>)
      modifies this`failures
      ensures failures >= old(failures)
      ensures key.None? && failures == old(failures) ==>
        path !in files || !files[path].PrivatePem? || files[path].key.kind != kind
      ensures key.Some? ==> path in files && files[path] == PrivatePem(key.value) && key.value.kind == kind
    {
      var content := Read(path);
      key := if content.Some? && content.value.PrivatePem? && content.value.key.kind == kind
        then Some(content.value.key)
        else None;
    }
  }

  /** CreateECDSAKeyPair and CreateRSAKeyPair: only for a known curve and a minimum of bits. */
  method CreateKeyPair(workspace: Workspace, kind: Kind, options: TlsOptions) returns (key: Option<Key>)
    modifies workspace`failures
    ensures workspace.failures >= old(workspace.failures)
    ensures key.None? && workspace.failures == old(workspace.failures) ==>
      !options.For(kind).Valid()
    ensures key.Some? ==>
      && options.For(kind).Valid()
      && key.value.kind == kind
      && key.value.size == (if kind.Ecdsa? then Curve(options.curve) else Bits(options.rsaBits))
  {
    if (kind.Ecdsa? && options.curve !in KNOWN_CURVES) || (kind.Rsa? && options.rsaBits < MINIMUM_RSA_BITS) {
      return None;
    }
    var ok: bool, material: nat := *, *;
    workspace.Note(ok);
    var size := match kind case Ecdsa => Curve(options.curve) case Rsa => Bits(options.rsaBits);
    key := if ok then Some(Key(kind, size, material)) else None;
  }

  /** CreateCertificateFromKeys: without an issuer the template is its own parent. A missing signing key makes it fail.
      */
  method CreateCertificateFromKeys(workspace: Workspace, options: TlsOptions, signedBy: Option<Certificate>, isCA: bool,
                                   dnsNames: seq<string>, publicKey: Key, privateKey: Option<Key>)
    returns (certificate: Option<Certificate>)
    modifies workspace`failures
    ensures workspace.failures >= old(workspace.failures)
    ensures certificate.None? && workspace.failures == old(workspace.failures) ==> privateKey.None?
    ensures certificate.Some? ==>
      && privateKey.Some?
      && certificate.value.key == publicKey && certificate.value.signedWith == privateKey.value
      && certificate.value.issuer == signedBy && certificate.value.isCA == isCA
      && certificate.value.dnsNames == dnsNames
      && certificate.value.subject == options.subject && certificate.value.validity == options.validity
  {
    var ok: bool := *;
    workspace.Note(ok);
    certificate := if ok && privateKey.Some?
      then Some(Certificate(publicKey, privateKey.value, signedBy, isCA, dnsNames, options.subject, options.validity))
      else None;
  }

  /** CreateECDSACertificateKeyPair and CreateRSACertificateKeyPair: the new key signs itself unless there is an issuer,
      whose key signs then. */
  method CreateCertificateKeyPair(workspace: Workspace, kind: Kind, options: TlsOptions, signedBy: Option<Certificate>,
                                  signedByKey: Option<Key>, isCA: bool, dnsNames: seq<string>)
    returns (pair: Option<(Key, Certificate)>)
    modifies workspace`failures
    ensures workspace.failures >= old(workspace.failures)
    ensures pair.None? && workspace.failures == old(workspace.failures) ==>
      !options.For(kind).Valid() || (signedBy.Some? && signedByKey.None?)
    ensures pair.Some? ==>
      && Requested(pair.value.0, pair.value.1, options.For(kind), isCA, dnsNames)
      && (signedBy.Some? ==> signedByKey.Some?)
      && pair.value.1.issuer == signedBy
      && pair.value.1.signedWith == (if signedBy.None? then pair.value.0 else signedByKey.value)
  {
    var key := CreateKeyPair(workspace, kind, options);
    if key.None? {
      return None;
    }
    var signingKey := key;
    if signedBy.Some? {
      signingKey := signedByKey;
    }
    var certificate := CreateCertificateFromKeys(workspace, options, signedBy, isCA, dnsNames, key.value, signingKey);
    pair := if certificate.Some? then Some((key.value, certificate.value)) else None;
  }

  /** What the ghost results are when there is no key pair. */
  const NO_KEY := Key(Rsa, Bits(0), 0)
  const NO_CERTIFICATE := Certificate(NO_KEY, NO_KEY, None, false, [], "", 0)

  datatype KeyPairPath = KeyPairPath(certificate: string, privateKey: string, publicKey: string)

  /** The three files of a key pair are in place. */
  ghost predicate Holds(files: map<string, Content>, path: KeyPairPath, key: Key, certificate: Certificate) {
    && path.certificate in files && files[path.certificate] == CertificatePem(certificate)
    && path.privateKey in files && files[path.privateKey] == PrivatePem(key)
    && path.publicKey in files && files[path.publicKey] == PublicPem(key)
  }

  function NamedPath(base: string): KeyPairPath {
    KeyPairPath(base + ".crt", base + ".pem", base + ".pub")
  }

  /** Whether the key pair hangs below this certificate and was signed with this key, or with its own. */
  ghost predicate Signed(key: Key, certificate: Certificate, signedBy: Option<Certificate>, signedByKey: Option<Key>) {
    && certificate.issuer == signedBy
    && (if signedBy.None? then certificate.signedWith == key else signedByKey == Some(certificate.signedWith))
  }

  lemma NamesDiffer(base: string)
    ensures base + ".crt" != base + ".pem" && base + ".crt" != base + ".pub" && base + ".pem" != base + ".pub"
    ensures base + ".crt" == "ca.crt" <==> base == "ca"
    ensures base + ".pem" != "ca.crt" && base + ".pub" != "ca.crt"
    ensures '/' !in base ==> '/' !in base + ".crt" && '/' !in base + ".pem" && '/' !in base + ".pub"
    ensures '/' in base ==> '/' in base + ".crt"
  {
    var n := |base|;
    assert (base + ".crt")[n + 1] == 'c' && (base + ".pem")[n + 1] == 'p' && (base + ".pub")[n + 1] == 'p';
    assert (base + ".pem")[n + 2] == 'e' && (base + ".pub")[n + 2] == 'u';
    if base + ".crt" == "ca.crt" {
      assert base == (base + ".crt")[..n] == "ca.crt"[..2];
    }
    assert (base + ".pem")[n + 3] == 'm' && (base + ".pub")[n + 3] == 'b' && "ca.crt"[|"ca.crt"| - 1] == 't';
  }

  /** GenerateAndStoreTLSCertificateKeyPair: a new key pair in three files named after the base. */
  method GenerateKeyPair(workspace: Workspace, options: TlsOptions, base: string, isCA: bool, dnsNames: seq<string>,
                         signedBy: Option<Certificate>, signedByKey: Option<Key>)
    returns (ok: bool, path: KeyPairPath, ghost key: Key, ghost certificate: Certificate)
    modifies workspace
    ensures workspace.failures >= old(workspace.failures)
    ensures !ok && workspace.failures == old(workspace.failures) ==>
      !options.Valid() || (signedBy.Some? && signedByKey.None?)
    ensures '/' !in base ==> path == NamedPath(base)
    ensures ok ==>
      Requested(key, certificate, options, isCA, dnsNames) && Signed(key, certificate, signedBy, signedByKey)
    ensures ok && '/' !in base ==>
      workspace.files == old(workspace.files)
        [base + ".crt" := CertificatePem(certificate)][base + ".pem" := PrivatePem(key)]
        [base + ".pub" := PublicPem(key)]
  {
    NamesDiffer(base);
    key, certificate := NO_KEY, NO_CERTIFICATE;
    var crt := workspace.Join(base + ".crt");
    var pem := workspace.Join(base + ".pem");
    var pub := workspace.Join(base + ".pub");
    path := KeyPairPath(crt, pem, pub);
    var kind := KindOf(options.algorithm);
    if kind.None? {
      return false, path, key, certificate;
    }
    var pair := CreateCertificateKeyPair(workspace, kind.value, options, signedBy, signedByKey, isCA, dnsNames);
    if pair.None? {
      return false, path, key, certificate;
    }
    key, certificate := pair.value.0, pair.value.1;
    ok := workspace.Write(crt, CertificatePem(pair.value.1));
    if !ok {
      return;
    }
    ok := workspace.Write(pem, PrivatePem(pair.value.0));
    if !ok {
      return;
    }
    ok := workspace.Write(pub, PublicPem(pair.value.0));
  }
}
