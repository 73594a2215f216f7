/** The certificate inventory on disk, and Generate, which completes it one write at
    a time. A write first empties its file, so a run may be cut before, inside and
    after every one. */
module Pki {
  import opened Wrappers

  // ----- Keys and certificates, abstractly -----

  /** A private key; its id stands for the public half. */
  datatype PrivateKey = PrivateKey(id: nat, rsa: bool)

  datatype Certificate = Certificate(
    commonName: string, altHost: string, server: bool, publicKey: nat, signer: nat,
    isCA: bool, basicConstraintsValid: bool, certSign: bool, notAfter: int)

  /** What parsing a file that is there comes to. */
  datatype File = Garbage | CertFile(cert: Certificate) | KeyFile(key: PrivateKey)

  datatype Artifact =
    | CA
    | EtcdServer | EtcdClient | APIServer | APIServerClient
    | CoreManager | CABPKManager | KCPManager | CAPDManager | HypervisorManager
    | CoreWebhook | CABPKWebhook | KCPWebhook | CAPDWebhook
    | Admin | HypervisorWebhook
    | ServiceAccount

  datatype Path = CertPath(artifact: Artifact) | KeyPath(artifact: Artifact)

  type Files = map<Path, File>

  /** The disk, the supply of fresh keys, and how many steps until the run is cut. */
  datatype Disk = Disk(files: Files, nextKey: nat, budget: nat)

  /** The lifetime of every certificate, in hours. */
  const CERT_VALIDITY: int := 24 * 3650

  /** The host part of the bind address, None when it does not parse; and whether the
      context was cancelled before the start. */
  datatype Config = Config(cancelled: bool, bindHost: Option<string>, webhookHost: string)

  datatype PkiError =
    | Cancelled | BadBindAddress | InvalidCA | IncompleteCA | NotIssued(artifact: Artifact) | WriteFailed(path: Path)

  datatype LeafSpec = LeafSpec(artifact: Artifact, commonName: string, server: bool, altHost: string)

  /** The common name of each artifact's certificate. */
  function CommonNameOf(a: Artifact): string {
    match a
    case CA => "capishim-ca"
    case EtcdServer => "etcd-server"
    case EtcdClient => "etcd-client"
    case APIServer => "capishim-apiserver"
    case APIServerClient => "capishim:apiserver-client"
    case CoreManager => "capishim:core-manager"
    case CABPKManager => "capishim:cabpk-manager"
    case KCPManager => "capishim:kcp-manager"
    case CAPDManager => "capishim:capd-manager"
    case HypervisorManager => "capishim:hypervisor-manager"
    case CoreWebhook => "capishim:core-webhook"
    case CABPKWebhook => "capishim:cabpk-webhook"
    case KCPWebhook => "capishim:kcp-webhook"
    case CAPDWebhook => "capishim:capd-webhook"
    case Admin => "capishim:admin"
    case HypervisorWebhook => "capishim:hypervisor-webhook"
    case ServiceAccount => "service-account-signing-key"
  }

  /** The leaves in the order Generate takes them. */
  const LEAF_ORDER: seq<Artifact> := [
    EtcdServer, EtcdClient, APIServer, APIServerClient,
    CoreManager, CABPKManager, KCPManager, CAPDManager, HypervisorManager,
    CoreWebhook, CABPKWebhook, KCPWebhook, CAPDWebhook,
    Admin, HypervisorWebhook]

  /** Serving certificates; the others are client certificates. */
  predicate Serves(a: Artifact) {
    a in {EtcdServer, APIServer, CoreWebhook, CABPKWebhook, KCPWebhook, CAPDWebhook, HypervisorWebhook}
  }

  /** The configured host that joins the loopback names of a serving certificate. */
  function AltHostOf(a: Artifact, bindHost: string, webhookHost: string): string {
    if a == APIServer then bindHost else if a == HypervisorWebhook then webhookHost else ""
  }

  function Leaf(a: Artifact, bindHost: string, webhookHost: string): LeafSpec {
    LeafSpec(a, CommonNameOf(a), Serves(a), AltHostOf(a, bindHost, webhookHost))
  }

  function Leaves(bindHost: string, webhookHost: string): seq<LeafSpec> {
    seq(|LEAF_ORDER|, i requires 0 <= i < |LEAF_ORDER| => Leaf(LEAF_ORDER[i], bindHost, webhookHost))
  }

  // ----- Reading -----

  function ReadCert(files: Files, p: Path): Option<Certificate> {
    if p in files && files[p].CertFile? then Some(files[p].cert) else None
  }

  function ReadKey(files: Files, p: Path): Option<PrivateKey> {
    if p in files && files[p].KeyFile? then Some(files[p].key) else None
  }

  /** validPair: both parse and belong together. Who signed is not asked. */
  predicate ValidPair(files: Files, a: Artifact) {
    var cert, key := ReadCert(files, CertPath(a)), ReadKey(files, KeyPath(a));
    cert.Some? && key.Some? && key.value.id == cert.value.publicKey
  }

  predicate ValidSAPair(files: Files) {
    ValidPair(files, ServiceAccount) && ReadKey(files, KeyPath(ServiceAccount)).value.rsa
  }

  /** An authority by sections 4.2.1.3 and 4.2.1.9 of RFC 5280. */
  predicate IsAuthority(c: Certificate) { c.isCA && c.basicConstraintsValid && c.certSign }

  function LoadCAPair(files: Files): Result<(Certificate, PrivateKey), PkiError> {
    var cert, key := ReadCert(files, CertPath(CA)), ReadKey(files, KeyPath(CA));
    if cert.None? || key.None? || key.value.id != cert.value.publicKey || !IsAuthority(cert.value)
    then Err(InvalidCA)
    else Ok((cert.value, key.value))
  }

  // ----- Issuing -----

  /** A name a certificate can carry: an IA5String, that is, ASCII. */
  predicate IsIA5(name: string) { forall c | c in name :: c as int < 0x80 }

  function NewCACert(key: PrivateKey, now: int): Certificate {
    Certificate(CommonNameOf(CA), "", false, key.id, key.id, true, true, true, now + CERT_VALIDITY)
  }

  function NewSignedCert(spec: LeafSpec, now: int, key: PrivateKey, caKey: PrivateKey): Certificate {
    Certificate(spec.commonName, spec.altHost, spec.server, key.id, caKey.id, false, true, false, now + CERT_VALIDITY)
  }

  function PublicKeyCert(key: PrivateKey, now: int): Certificate {
    Certificate(CommonNameOf(ServiceAccount), "", false, key.id, key.id, false, true, false, now + CERT_VALIDITY)
  }

  // ----- What the steps do to the disk -----

  /** Empty the file, fill it, set its mode: three steps, cut at the budget. */
  function WriteFile(d: Disk, p: Path, f: File): (Disk, bool) {
    if d.budget == 0 then (d, false)
    else if d.budget == 1 then (Disk(d.files[p := Garbage], d.nextKey, 0), false)
    else if d.budget == 2 then (Disk(d.files[p := f], d.nextKey, 0), false)
    else (Disk(d.files[p := f], d.nextKey, d.budget - 3), true)
  }

  function DrawKey(d: Disk, rsa: bool): (Disk, PrivateKey) {
    (d.(nextKey := d.nextKey + 1), PrivateKey(d.nextKey, rsa))
  }

  /** Two files one after the other, the second only after the first. */
  function WritePair(d: Disk, p: Path, f: File, q: Path, g: File): (Disk, Option<PkiError>) {
    var (d1, ok1) := WriteFile(d, p, f);
    if !ok1 then (d1, Some(WriteFailed(p)))
    else
      var (d2, ok2) := WriteFile(d1, q, g);
      (d2, if ok2 then None else Some(WriteFailed(q)))
  }

  function EnsureCA(d: Disk, now: int): (Disk, Result<(Certificate, PrivateKey), PkiError>) {
    if CertPath(CA) in d.files && KeyPath(CA) in d.files then (d, LoadCAPair(d.files))
    else if CertPath(CA) in d.files || KeyPath(CA) in d.files then (d, Err(IncompleteCA))
    else
      var (d0, key) := DrawKey(d, true);
      var cert := NewCACert(key, now);
      var (d1, e) := WritePair(d0, CertPath(CA), CertFile(cert), KeyPath(CA), KeyFile(key));
      (d1, if e.Some? then Err(e.value) else Ok((cert, key)))
  }

  function EnsureLeaf(d: Disk, spec: LeafSpec, caKey: PrivateKey, now: int): (Disk, Option<PkiError>) {
    if ValidPair(d.files, spec.artifact) then (d, None)
    else
      var (d0, key) := DrawKey(d, false);
      var cert := NewSignedCert(spec, now, key, caKey);
      if !IsIA5(spec.altHost) then (d0, Some(NotIssued(spec.artifact)))
      else WritePair(d0, CertPath(spec.artifact), CertFile(cert), KeyPath(spec.artifact), KeyFile(key))
  }

  function EnsureLeaves(d: Disk, specs: seq<LeafSpec>, caKey: PrivateKey, now: int): (Disk, Option<PkiError>)
    decreases |specs|
  {
    if specs == [] then (d, None)
    else
      var (d1, e) := EnsureLeaf(d, specs[0], caKey, now);
      if e.Some? then (d1, e) else EnsureLeaves(d1, specs[1..], caKey, now)
  }

  /** The service-account key goes first here, then the certificate that carries it. */
  function EnsureServiceAccountPair(d: Disk, now: int): (Disk, Option<PkiError>) {
    if ValidSAPair(d.files) then (d, None)
    else
      var (d0, key) := DrawKey(d, true);
      WritePair(d0, KeyPath(ServiceAccount), KeyFile(key), CertPath(ServiceAccount), CertFile(PublicKeyCert(key, now)))
  }

  /** One clock reading for the CA and the leaves, and one more for the service-account
      certificate. */
  datatype Clock = Clock(run: int, account: int)

  function GenerateFrom(d: Disk, cfg: Config, now: Clock): (Disk, Option<PkiError>) {
    if cfg.cancelled then (d, Some(Cancelled))
    else if cfg.bindHost.None? then (d, Some(BadBindAddress))
    else
      match EnsureCA(d, now.run)
      case (d1, Err(e)) => (d1, Some(e))
      case (d1, Ok((_, caKey))) =>
        var (d2, e) := EnsureLeaves(d1, Leaves(cfg.bindHost.value, cfg.webhookHost), caKey, now.run);
        if e.Some? then (d2, e) else EnsureServiceAccountPair(d2, now.account)
  }

  // ----- The program -----

  class StateDir {
    var files: Files
    var nextKey: nat
    var budget: nat

    constructor (d: Disk)
      ensures View() == d
    {
      files, nextKey, budget := d.files, d.nextKey, d.budget;
    }

    ghost function View(): Disk
      reads this
    {
      Disk(files, nextKey, budget)
    }

    method GenerateKey(rsa: bool) returns (key: PrivateKey)
      modifies this`nextKey
      ensures (View(), key) == DrawKey(old(View()), rsa)
    {
      key := PrivateKey(nextKey, rsa);
      nextKey := nextKey + 1;
    }

    method Write(p: Path, f: File) returns (ok: bool)
      modifies this`files, this`budget
      ensures (View(), ok) == WriteFile(old(View()), p, f)
    {
      if budget == 0 { return false; }
      files, budget := files[p := Garbage], budget - 1;
      if budget == 0 { return false; }
      files, budget := files[p := f], budget - 1;
      assert files == old(files)[p := f];
      if budget == 0 { return false; }
      budget := budget - 1;
      return true;
    }

    method EnsureCertificateAuthority(now: int) returns (r: Result<(Certificate, PrivateKey), PkiError>)
      modifies this
      ensures (View(), r) == EnsureCA(old(View()), now)
    {
      var certExists, keyExists := CertPath(CA) in files, KeyPath(CA) in files;
      if certExists && keyExists { return LoadCAPair(files); }
      if certExists || keyExists { return Err(IncompleteCA); }
      var key := GenerateKey(true);
      var cert := NewCACert(key, now);
      var ok := Write(CertPath(CA), CertFile(cert));
      if !ok { return Err(WriteFailed(CertPath(CA))); }
      ok := Write(KeyPath(CA), KeyFile(key));
      if !ok { return Err(WriteFailed(KeyPath(CA))); }
      return Ok((cert, key));
    }

    method EnsureOneLeaf(spec: LeafSpec, caKey: PrivateKey, now: int) returns (e: Option<PkiError>)
      modifies this
      ensures (View(), e) == EnsureLeaf(old(View()), spec, caKey, now)
    {
      if ValidPair(files, spec.artifact) { return None; }
      var key := GenerateKey(false);
      if !IsIA5(spec.altHost) { return Some(NotIssued(spec.artifact)); }
      var cert := NewSignedCert(spec, now, key, caKey);
      var ok := Write(CertPath(spec.artifact), CertFile(cert));
      if !ok { return Some(WriteFailed(CertPath(spec.artifact))); }
      ok := Write(KeyPath(spec.artifact), KeyFile(key));
      if !ok { return Some(WriteFailed(KeyPath(spec.artifact))); }
      return None;
    }

    method EnsureServiceAccount(now: int) returns (e: Option<PkiError>)
      modifies this
      ensures (View(), e) == EnsureServiceAccountPair(old(View()), now)
    {
      if ValidSAPair(files) { return None; }
      var key := GenerateKey(true);
      var ok := Write(KeyPath(ServiceAccount), KeyFile(key));
      if !ok { return Some(WriteFailed(KeyPath(ServiceAccount))); }
      ok := Write(CertPath(ServiceAccount), CertFile(PublicKeyCert(key, now)));
      if !ok { return Some(WriteFailed(CertPath(ServiceAccount))); }
      return None;
    }

    method Generate(cfg: Config, now: Clock) returns (e: Option<PkiError>)
      modifies this
      ensures (View(), e) == GenerateFrom(old(View()), cfg, now)
    {
      if cfg.cancelled { return Some(Cancelled); }
      if cfg.bindHost.None? { return Some(BadBindAddress); }
      var ca := EnsureCertificateAuthority(now.run);
      if ca.Err? { return Some(ca.error); }
      var leaves, caKey := Leaves(cfg.bindHost.value, cfg.webhookHost), ca.value.1;
      ghost var d1 := View();
      assert leaves[0..] == leaves;
      hide Leaves, EnsureLeaf, EnsureServiceAccountPair;
      for i := 0 to |leaves|
        invariant EnsureLeaves(d1, leaves, caKey, now.run) == EnsureLeaves(View(), leaves[i..], caKey, now.run)
      {
        assert leaves[i..][1..] == leaves[i + 1..];
        e := EnsureOneLeaf(leaves[i], caKey, now.run);
        if e.Some? { return; }
      }
      e := EnsureServiceAccount(now.account);
    }
  }
}
