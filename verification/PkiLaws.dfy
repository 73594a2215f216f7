/** What every history of Generate runs, cut anywhere, keeps: the trust anchor, the
    signer of every leaf, and the way back to a complete inventory. */
module PkiLaws {
  import opened Wrappers
  import opened Pki

  // ----- States of the trust anchor -----

  predicate CAAbsent(files: Files) { CertPath(CA) !in files && KeyPath(CA) !in files }

  predicate CAValid(files: Files) {
    CertPath(CA) in files && KeyPath(CA) in files && LoadCAPair(files).Ok?
  }

  /** Neither absent nor valid: half there, or not a pair, or no authority. */
  predicate CABroken(files: Files) { !CAAbsent(files) && !CAValid(files) }

  function CAKey(files: Files): nat
    requires CAValid(files)
  {
    LoadCAPair(files).value.1.id
  }

  predicate SameCA(a: Files, b: Files) {
    forall p | p in {CertPath(CA), KeyPath(CA)} :: (p in a <==> p in b) && (p in a ==> a[p] == b[p])
  }

  // ----- What is accepted, said of the files alone -----

  /** A certificate and a key, and the key is the certificate's. */
  predicate KeysMatch(files: Files, a: Artifact) {
    && CertPath(a) in files && files[CertPath(a)].CertFile? && KeyPath(a) in files && files[KeyPath(a)].KeyFile?
    && files[CertPath(a)].cert.publicKey == files[KeyPath(a)].key.id
  }

  lemma AcceptedExactly(files: Files, a: Artifact)
    ensures ValidPair(files, a) <==> KeysMatch(files, a)
    ensures KeysMatch(files, a) ==>
              ReadCert(files, CertPath(a)) == Some(files[CertPath(a)].cert) &&
              ReadKey(files, KeyPath(a)) == Some(files[KeyPath(a)].key)
  {}

  lemma AccountAcceptedExactly(files: Files)
    ensures ValidSAPair(files) <==> KeysMatch(files, ServiceAccount) && files[KeyPath(ServiceAccount)].key.rsa
  {}

  /** The anchor is a pair whose certificate is an authority's: a CA by its basic
      constraints, with the right to sign certificates. */
  lemma AnchorExactly(files: Files)
    ensures CAValid(files) <==>
            KeysMatch(files, CA) &&
            var c := files[CertPath(CA)].cert; c.isCA && c.basicConstraintsValid && c.certSign
    ensures CAValid(files) ==> CAKey(files) == files[KeyPath(CA)].key.id
  {}

  // ----- What is issued, written out -----

  /** The fifteen leaves, each with its name, its use and the host it is to name. */
  lemma InventoryExactly(bindHost: string, webhookHost: string)
    ensures Leaves(bindHost, webhookHost) == [
              LeafSpec(EtcdServer, "etcd-server", true, ""),
              LeafSpec(EtcdClient, "etcd-client", false, ""),
              LeafSpec(APIServer, "capishim-apiserver", true, bindHost),
              LeafSpec(APIServerClient, "capishim:apiserver-client", false, ""),
              LeafSpec(CoreManager, "capishim:core-manager", false, ""),
              LeafSpec(CABPKManager, "capishim:cabpk-manager", false, ""),
              LeafSpec(KCPManager, "capishim:kcp-manager", false, ""),
              LeafSpec(CAPDManager, "capishim:capd-manager", false, ""),
              LeafSpec(HypervisorManager, "capishim:hypervisor-manager", false, ""),
              LeafSpec(CoreWebhook, "capishim:core-webhook", true, ""),
              LeafSpec(CABPKWebhook, "capishim:cabpk-webhook", true, ""),
              LeafSpec(KCPWebhook, "capishim:kcp-webhook", true, ""),
              LeafSpec(CAPDWebhook, "capishim:capd-webhook", true, ""),
              LeafSpec(Admin, "capishim:admin", false, ""),
              LeafSpec(HypervisorWebhook, "capishim:hypervisor-webhook", true, webhookHost)]
  {}

  /** A CA made anew: an RSA pair, self-signed, valid for ten years of 365 days. */
  lemma NewCAExactly(d: Disk, now: int)
    requires CAAbsent(d.files) && EnsureCA(d, now).1.Ok?
    ensures var files := EnsureCA(d, now).0.files;
            && KeysMatch(files, CA) && files[KeyPath(CA)].key.rsa
            && var c := files[CertPath(CA)].cert;
               && c.commonName == "capishim-ca" && c.signer == c.publicKey && !c.server && c.altHost == ""
               && IsAuthority(c) && c.notAfter == now + 24 * 3650
  {}

  /** A service account pair made anew: an RSA key in a certificate that signs itself and
      nothing else. */
  lemma NewAccountExactly(d: Disk, now: int)
    requires !ValidSAPair(d.files) && EnsureServiceAccountPair(d, now).1.None?
    ensures var files := EnsureServiceAccountPair(d, now).0.files;
            && KeysMatch(files, ServiceAccount) && files[KeyPath(ServiceAccount)].key.rsa
            && var c := files[CertPath(ServiceAccount)].cert;
               && c.commonName == "service-account-signing-key" && c.signer == c.publicKey && !c.server
               && c.altHost == "" && !c.isCA && c.basicConstraintsValid && !c.certSign
               && c.notAfter == now + 24 * 3650
  {}

  // ----- Failures, and what they leave -----

  /** What stops a run before it issues anything, the disk being left as it is. */
  lemma RefusedOutright(d: Disk, cfg: Config, now: Clock)
    requires cfg.cancelled || cfg.bindHost.None? || CABroken(d.files)
    ensures GenerateFrom(d, cfg, now) ==
            (d, Some(if cfg.cancelled then PkiError.Cancelled
                     else if cfg.bindHost.None? then BadBindAddress
                     else if CertPath(CA) in d.files && KeyPath(CA) in d.files then InvalidCA
                     else IncompleteCA))
  {}

  /** A leaf fails for a host that no certificate can carry, or where the run is cut; until
      its certificate is whole its key is as it was; and otherwise the two match. */
  lemma LeafFailsExactly(d: Disk, spec: LeafSpec, caKey: PrivateKey, now: int)
    requires !KeysMatch(d.files, spec.artifact)
    ensures var (d1, e) := EnsureLeaf(d, spec, caKey, now);
            var cert, key := CertPath(spec.artifact), KeyPath(spec.artifact);
            if exists i | 0 <= i < |spec.altHost| :: spec.altHost[i] as int > 0x7F then
              e == Some(NotIssued(spec.artifact)) && d1.files == d.files
            else
              && e == (if d.budget < 3 then Some(WriteFailed(cert))
                       else if d.budget < 6 then Some(WriteFailed(key))
                       else None)
              && (d.budget <= 3 ==> d1.files - {cert} == d.files - {cert})
              && (d.budget >= 2 ==> cert in d1.files && d1.files[cert].CertFile?)
              && (e.None? ==> KeysMatch(d1.files, spec.artifact) && !d1.files[key].key.rsa)
  {
    AcceptedExactly(d.files, spec.artifact);
    assert IsIA5(spec.altHost) <==> !exists i | 0 <= i < |spec.altHost| :: spec.altHost[i] as int > 0x7F by {
      forall i | 0 <= i < |spec.altHost| ensures spec.altHost[i] in spec.altHost {}
    }
  }

  /** The service account fails only where the run is cut, and there the key comes first. */
  lemma AccountFailsExactly(d: Disk, now: int)
    requires !ValidSAPair(d.files)
    ensures var (d1, e) := EnsureServiceAccountPair(d, now);
            var cert, key := CertPath(ServiceAccount), KeyPath(ServiceAccount);
            && e == (if d.budget < 3 then Some(WriteFailed(key))
                     else if d.budget < 6 then Some(WriteFailed(cert))
                     else None)
            && (d.budget <= 3 ==> d1.files - {key} == d.files - {key})
            && (d.budget >= 2 ==> key in d1.files && d1.files[key].KeyFile?)
  {}

  // ----- Histories -----

  /** A run, cut after so many steps, or damage to a file: it is lost, or left in pieces. */
  datatype Event =
    | Generates(cfg: Config, now: Clock, budget: nat)
    | Damage(path: Path, lost: bool)

  /** Histories in which no damage befalls the CA pair. */
  predicate SpareCA(events: seq<Event>) { forall e | e in events && e.Damage? :: e.path.artifact != CA }

  function After(d: Disk, events: seq<Event>): Disk
    decreases |events|
  {
    if events == [] then d else After(Happens(d, events[0]), events[1..])
  }

  function Happens(d: Disk, e: Event): Disk {
    match e
    case Generates(cfg, now, budget) => GenerateFrom(d.(budget := budget), cfg, now).0
    case Damage(p, lost) =>
      if p !in d.files then d
      else if lost then d.(files := d.files - {p})
      else d.(files := d.files[p := Garbage])
  }

  // ----- Frames: what a step may touch -----

  /** Everything but the pair of artifact a is as it was. */
  predicate OnlyPair(before: Files, after: Files, a: Artifact) {
    (forall p | p in before && p.artifact != a :: p in after && after[p] == before[p]) &&
    (forall p | p in after && p.artifact != a :: p in before)
  }

  lemma LeafFrame(d: Disk, spec: LeafSpec, caKey: PrivateKey, now: int)
    ensures OnlyPair(d.files, EnsureLeaf(d, spec, caKey, now).0.files, spec.artifact)
  {}

  lemma {:induction false} LeavesKeepCA(d: Disk, specs: seq<LeafSpec>, caKey: PrivateKey, now: int)
    requires forall s | s in specs :: s.artifact != CA
    ensures SameCA(d.files, EnsureLeaves(d, specs, caKey, now).0.files)
    decreases |specs|
  {
    if specs != [] {
      LeafFrame(d, specs[0], caKey, now);
      LeavesKeepCA(EnsureLeaf(d, specs[0], caKey, now).0, specs[1..], caKey, now);
    }
  }

  lemma NoLeafIsCA(bindHost: string, webhookHost: string)
    ensures forall s | s in Leaves(bindHost, webhookHost) :: s.artifact != CA && s.artifact != ServiceAccount
  {}

  /** Every artifact but the CA and the service account is a leaf, and no other is. */
  lemma OrderIsLeaves()
    ensures forall i | 0 <= i < |LEAF_ORDER| :: LEAF_ORDER[i] != CA && LEAF_ORDER[i] != ServiceAccount
    ensures forall a: Artifact | a != CA && a != ServiceAccount :: a in LEAF_ORDER
  {}

  /** A complete CA pair is reused as it is. */
  lemma GenerateKeepsCA(d: Disk, cfg: Config, now: Clock)
    requires CAValid(d.files)
    ensures SameCA(d.files, GenerateFrom(d, cfg, now).0.files)
  {
    hide Leaves;
    if !cfg.cancelled && cfg.bindHost.Some? {
      var caKey := LoadCAPair(d.files).value.1;
      NoLeafIsCA(cfg.bindHost.value, cfg.webhookHost);
      LeavesKeepCA(d, Leaves(cfg.bindHost.value, cfg.webhookHost), caKey, now.run);
    }
  }

  /** Trust-anchor permanence: once a valid CA pair is on disk, no history of runs,
      cuts and damage to other files changes either of its files. */
  lemma {:induction false} TrustAnchorIsPermanent(d: Disk, events: seq<Event>)
    requires CAValid(d.files) && SpareCA(events)
    ensures SameCA(d.files, After(d, events).files)
    decreases |events|
  {
    if events != [] {
      assert events[0] in events && SpareCA(events[1..]);
      var d1 := Happens(d, events[0]);
      match events[0] {
        case Generates(cfg, now, budget) => GenerateKeepsCA(d.(budget := budget), cfg, now);
        case Damage(_, _) =>
      }
      TrustAnchorIsPermanent(d1, events[1..]);
    }
  }

  /** A CA that is there but broken is never repaired, replaced or built upon: every
      run refuses and leaves the disk as it is. */
  lemma BrokenCAIsRefused(d: Disk, cfg: Config, now: Clock)
    requires CABroken(d.files)
    ensures GenerateFrom(d, cfg, now).0 == d && GenerateFrom(d, cfg, now).1.Some?
  {}

  /** So it stays broken, whatever happens to the other files. */
  lemma {:induction false} BrokenCAIsForGood(d: Disk, events: seq<Event>)
    requires CABroken(d.files) && SpareCA(events)
    ensures CABroken(After(d, events).files)
    decreases |events|
  {
    if events != [] {
      assert events[0] in events && SpareCA(events[1..]);
      match events[0] {
        case Generates(cfg, now, budget) => BrokenCAIsRefused(d.(budget := budget), cfg, now);
        case Damage(_, _) =>
      }
      BrokenCAIsForGood(Happens(d, events[0]), events[1..]);
    }
  }

  // ----- The signer of every leaf -----

  predicate IsLeaf(a: Artifact) { a != CA && a != ServiceAccount }

  /** A leaf certificate on disk, whole or alone, is the anchor's and its own. */
  predicate FileSound(p: Path, f: File, caKey: nat) {
    p.CertPath? && IsLeaf(p.artifact) && f.CertFile? ==>
      f.cert.signer == caKey && f.cert.commonName == CommonNameOf(p.artifact) && f.cert.server == Serves(p.artifact) &&
      !IsAuthority(f.cert)
  }

  /** Every key on disk was drawn, and none is there twice. */
  predicate KeysDrawn(d: Disk) {
    (forall p | p in d.files && d.files[p].KeyFile? :: d.files[p].key.id < d.nextKey) &&
    (forall p, q | p in d.files && q in d.files && d.files[p].KeyFile? && d.files[q].KeyFile? && p != q ::
       d.files[p].key.id != d.files[q].key.id)
  }

  predicate Anchored(d: Disk) {
    CAValid(d.files) && KeysDrawn(d) && forall p | p in d.files :: FileSound(p, d.files[p], CAKey(d.files))
  }

  /** What every history from an empty directory keeps: with a valid CA everything on
      disk is anchored to it, and without one there is nothing else. */
  predicate Consistent(d: Disk) {
    Anchored(d) || (!CAValid(d.files) && KeysDrawn(d) && forall p | p in d.files :: p.artifact == CA)
  }

  /** A change of one file, not the CA's, to something sound. */
  lemma SoundChange(d: Disk, p: Path, f: File, budget: nat)
    requires Anchored(d) && p.artifact != CA && FileSound(p, f, CAKey(d.files))
    requires f.KeyFile? ==> f.key.id < d.nextKey
    requires f.KeyFile? ==> forall q | q in d.files && d.files[q].KeyFile? :: d.files[q].key.id != f.key.id
    ensures var d' := Disk(d.files[p := f], d.nextKey, budget); Anchored(d') && CAKey(d'.files) == CAKey(d.files)
  {
    hide CommonNameOf, Serves;
  }

  /** What a write may leave: the disk as it was, or the file emptied or filled. */
  lemma WriteLeaves(d: Disk, p: Path, f: File)
    ensures var d' := WriteFile(d, p, f).0;
            d' == d || d' == Disk(d.files[p := Garbage], d.nextKey, d'.budget) ||
            d' == Disk(d.files[p := f], d.nextKey, d'.budget)
  {}

  predicate OnlyPath(before: Files, after: Files, p: Path) {
    forall q | q in after && q != p :: q in before && after[q] == before[q]
  }

  /** A write of something sound to a path other than the CA's. */
  lemma SoundWrite(d: Disk, p: Path, f: File)
    requires Anchored(d) && p.artifact != CA && FileSound(p, f, CAKey(d.files))
    requires f.KeyFile? ==> f.key.id < d.nextKey
    requires f.KeyFile? ==> forall q | q in d.files && d.files[q].KeyFile? :: d.files[q].key.id != f.key.id
    ensures var d' := WriteFile(d, p, f).0;
            && Anchored(d') && CAKey(d'.files) == CAKey(d.files) && d'.nextKey == d.nextKey
            && OnlyPath(d.files, d'.files, p)
  {
    var d' := WriteFile(d, p, f).0;
    WriteLeaves(d, p, f);
    SoundChange(d, p, Garbage, d'.budget);
    SoundChange(d, p, f, d'.budget);
    hide Anchored, FileSound, WriteFile, CAKey;
  }

  lemma LeafStaysAnchored(d: Disk, spec: LeafSpec, caKey: PrivateKey, now: int)
    requires Anchored(d) && CAKey(d.files) == caKey.id
    requires IsLeaf(spec.artifact)
    requires spec.commonName == CommonNameOf(spec.artifact) && spec.server == Serves(spec.artifact)
    ensures var d' := EnsureLeaf(d, spec, caKey, now).0; Anchored(d') && CAKey(d'.files) == caKey.id
  {
    hide CommonNameOf, Serves;
    if !ValidPair(d.files, spec.artifact) {
      var (d0, key) := DrawKey(d, false);
      var (p, q) := (CertPath(spec.artifact), KeyPath(spec.artifact));
      var cert := CertFile(NewSignedCert(spec, now, key, caKey));
      assert Anchored(d0);
      SoundWrite(d0, p, cert);
      var (d1, ok) := WriteFile(d0, p, cert);
      if ok { SoundWrite(d1, q, KeyFile(key)); }
    }
  }

  lemma {:induction false} LeavesStayAnchored(d: Disk, specs: seq<LeafSpec>, caKey: PrivateKey, now: int)
    requires Anchored(d) && CAKey(d.files) == caKey.id
    requires forall s | s in specs ::
               IsLeaf(s.artifact) && s.commonName == CommonNameOf(s.artifact) && s.server == Serves(s.artifact)
    ensures var d' := EnsureLeaves(d, specs, caKey, now).0; Anchored(d') && CAKey(d'.files) == caKey.id
    decreases |specs|
  {
    if specs != [] {
      hide CommonNameOf, Serves, EnsureLeaf, Anchored;
      LeafStaysAnchored(d, specs[0], caKey, now);
      LeavesStayAnchored(EnsureLeaf(d, specs[0], caKey, now).0, specs[1..], caKey, now);
    }
  }

  lemma AccountStaysAnchored(d: Disk, now: int)
    requires Anchored(d)
    ensures Anchored(EnsureServiceAccountPair(d, now).0)
  {
    if !ValidSAPair(d.files) {
      var (d0, key) := DrawKey(d, true);
      var p, q := KeyPath(ServiceAccount), CertPath(ServiceAccount);
      assert Anchored(d0);
      SoundWrite(d0, p, KeyFile(key));
      var (d1, ok) := WriteFile(d0, p, KeyFile(key));
      if ok { SoundWrite(d1, q, CertFile(PublicKeyCert(key, now))); }
    }
  }

  lemma LeavesAreNamed(bindHost: string, webhookHost: string)
    ensures forall s | s in Leaves(bindHost, webhookHost) ::
              IsLeaf(s.artifact) && s.commonName == CommonNameOf(s.artifact) && s.server == Serves(s.artifact)
  {}

  /** A new CA, cut anywhere: nothing, something broken, or the anchor. */
  lemma FreshCA(d: Disk, now: int)
    requires CAAbsent(d.files) && KeysDrawn(d)
    ensures var (d1, r) := EnsureCA(d, now);
            && (d.budget == 0 <==> CAAbsent(d1.files)) && (d.budget >= 5 <==> CAValid(d1.files))
            && (r.Ok? <==> d.budget >= 6) && KeysDrawn(d1)
            && (r.Ok? ==> CAValid(d1.files) && r == LoadCAPair(d1.files) && d1.budget == d.budget - 6)
            && (forall p | p in d1.files && p.artifact != CA :: p in d.files && d1.files[p] == d.files[p])
            && (forall p | p in d.files :: p in d1.files && d1.files[p] == d.files[p])
  {}

  lemma GenerateStaysConsistent(d: Disk, cfg: Config, now: Clock)
    requires Consistent(d)
    ensures Consistent(GenerateFrom(d, cfg, now).0)
  {
    if cfg.cancelled || cfg.bindHost.None? { return; }
    if CABroken(d.files) { BrokenCAIsRefused(d, cfg, now); return; }
    if CAAbsent(d.files) { FreshCA(d, now.run); }
    var (d1, ca) := EnsureCA(d, now.run);
    if ca.Ok? {
      AnchoredAfterCA(d, now.run);
      var caKey, leaves := ca.value.1, Leaves(cfg.bindHost.value, cfg.webhookHost);
      LeavesAreNamed(cfg.bindHost.value, cfg.webhookHost);
      hide Leaves, CommonNameOf, Serves, EnsureLeaves, EnsureServiceAccountPair, EnsureCA;
      LeavesStayAnchored(d1, leaves, caKey, now.run);
      AccountStaysAnchored(EnsureLeaves(d1, leaves, caKey, now.run).0, now.account);
    }
  }

  lemma AnchoredAfterCA(d: Disk, now: int)
    requires Consistent(d) && EnsureCA(d, now).1.Ok?
    ensures var (d1, ca) := EnsureCA(d, now); Anchored(d1) && CAKey(d1.files) == ca.value.1.id
  {}

  lemma DamageStaysConsistent(d: Disk, p: Path, lost: bool)
    requires Consistent(d) && p.artifact != CA
    ensures Consistent(Happens(d, Damage(p, lost)))
  {}

  /** The invariant of every history that begins in an empty directory. */
  lemma {:induction false} EveryHistoryIsConsistent(d: Disk, events: seq<Event>)
    requires Consistent(d) && SpareCA(events)
    ensures Consistent(After(d, events))
    decreases |events|
  {
    if events != [] {
      hide Consistent;
      assert events[0] in events && SpareCA(events[1..]);
      match events[0] {
        case Generates(cfg, now, budget) =>
          BudgetIsNoMatter(d, budget);
          GenerateStaysConsistent(d.(budget := budget), cfg, now);
        case Damage(p, lost) => DamageStaysConsistent(d, p, lost);
      }
      EveryHistoryIsConsistent(Happens(d, events[0]), events[1..]);
    }
  }

  lemma BudgetIsNoMatter(d: Disk, budget: nat)
    requires Consistent(d)
    ensures Consistent(d.(budget := budget))
  {}

  /** Although a pair is accepted without a look at its issuer, every leaf pair that
      would be, in any state a history from an empty directory leads to that spares the
      CA, was signed by the CA on disk, bears its own name, and shares its key with no
      other artifact. */
  lemma AcceptedPairsAreAnchored(events: seq<Event>, budget: nat, a: Artifact)
    requires SpareCA(events) && IsLeaf(a) && ValidPair(After(Disk(map[], 0, budget), events).files, a)
    ensures var files := After(Disk(map[], 0, budget), events).files;
            var cert, key := ReadCert(files, CertPath(a)).value, ReadKey(files, KeyPath(a)).value;
            && CAValid(files) && cert.signer == CAKey(files) && cert.publicKey == key.id
            && cert.commonName == CommonNameOf(a) && cert.server == Serves(a) && !IsAuthority(cert)
            && (forall p | p in files && files[p].KeyFile? && p != KeyPath(a) :: files[p].key.id != key.id)
  {
    hide CommonNameOf, Serves;
    var d := Disk(map[], 0, budget);
    assert Consistent(d);
    EveryHistoryIsConsistent(d, events);
    assert CertPath(a) in After(d, events).files;
  }

  // ----- Whatever is lost, no key comes twice -----

  /** Every key on disk, and every key that signed something there, was drawn. */
  predicate Drawn(d: Disk) { forall p | p in d.files :: FileDrawn(d.files[p], d.nextKey) }

  predicate FileDrawn(f: File, nextKey: nat) {
    (f.KeyFile? ==> f.key.id < nextKey) && (f.CertFile? ==> f.cert.signer < nextKey)
  }

  lemma DrawnPair(d: Disk, p: Path, f: File, q: Path, g: File)
    requires Drawn(d) && FileDrawn(f, d.nextKey) && FileDrawn(g, d.nextKey)
    ensures Drawn(WritePair(d, p, f, q, g).0) && WritePair(d, p, f, q, g).0.nextKey == d.nextKey
  {
    WriteLeaves(d, p, f);
    var (d1, ok) := WriteFile(d, p, f);
    WriteLeaves(d1, q, g);
    hide WriteFile;
  }

  lemma StepsDraw(d: Disk, spec: LeafSpec, caKey: PrivateKey, now: int)
    requires Drawn(d)
    ensures caKey.id < d.nextKey ==>
              Drawn(EnsureLeaf(d, spec, caKey, now).0) && EnsureLeaf(d, spec, caKey, now).0.nextKey >= d.nextKey
    ensures Drawn(EnsureServiceAccountPair(d, now).0)
    ensures var (d1, ca) := EnsureCA(d, now); Drawn(d1) && (ca.Ok? ==> ca.value.1.id < d1.nextKey)
  {
    var (d0, key) := DrawKey(d, false);
    var (d0', key') := DrawKey(d, true);
    var (cert, account) := (NewSignedCert(spec, now, key, caKey), PublicKeyCert(key', now));
    assert Drawn(d0) && Drawn(d0');
    hide ValidPair, ValidSAPair, WritePair, FileDrawn;
    DrawnFiles(d, spec, caKey, now);
    if caKey.id < d.nextKey {
      DrawnPair(d0, CertPath(spec.artifact), CertFile(cert), KeyPath(spec.artifact), KeyFile(key));
    }
    DrawnPair(d0', KeyPath(ServiceAccount), KeyFile(key'), CertPath(ServiceAccount), CertFile(account));
    DrawnPair(d0', CertPath(CA), CertFile(NewCACert(key', now)), KeyPath(CA), KeyFile(key'));
    if LoadCAPair(d.files).Ok? { CAKeyIsDrawn(d); }
  }

  lemma DrawnFiles(d: Disk, spec: LeafSpec, caKey: PrivateKey, now: int)
    ensures var (key, n) := (PrivateKey(d.nextKey, false), d.nextKey + 1);
            FileDrawn(KeyFile(key), n) &&
            (caKey.id < n ==> FileDrawn(CertFile(NewSignedCert(spec, now, key, caKey)), n))
    ensures var (key, n) := (PrivateKey(d.nextKey, true), d.nextKey + 1);
            FileDrawn(KeyFile(key), n) && FileDrawn(CertFile(PublicKeyCert(key, now)), n) &&
            FileDrawn(CertFile(NewCACert(key, now)), n)
  {
    hide CommonNameOf;
  }

  lemma CAKeyIsDrawn(d: Disk)
    requires Drawn(d) && LoadCAPair(d.files).Ok?
    ensures LoadCAPair(d.files).value.1.id < d.nextKey
  {
    assert KeyPath(CA) in d.files && FileDrawn(d.files[KeyPath(CA)], d.nextKey);
  }

  lemma {:induction false} LeavesDraw(d: Disk, specs: seq<LeafSpec>, caKey: PrivateKey, now: int)
    requires Drawn(d) && caKey.id < d.nextKey
    ensures Drawn(EnsureLeaves(d, specs, caKey, now).0)
    decreases |specs|
  {
    if specs != [] {
      hide EnsureLeaf, Drawn;
      StepsDraw(d, specs[0], caKey, now);
      LeavesDraw(EnsureLeaf(d, specs[0], caKey, now).0, specs[1..], caKey, now);
    }
  }

  lemma GenerateDraws(d: Disk, cfg: Config, now: Clock)
    requires Drawn(d)
    ensures Drawn(GenerateFrom(d, cfg, now).0)
  {
    if cfg.cancelled || cfg.bindHost.None? { return; }
    var leaves := Leaves(cfg.bindHost.value, cfg.webhookHost);
    var (d1, ca) := EnsureCA(d, now.run);
    hide Leaves, Drawn, EnsureCA, EnsureLeaves, EnsureServiceAccountPair;
    StepsDraw(d, leaves[0], PrivateKey(0, false), now.run);
    if ca.Ok? {
      LeavesDraw(d1, leaves, ca.value.1, now.run);
      StepsDraw(EnsureLeaves(d1, leaves, ca.value.1, now.run).0, leaves[0], ca.value.1, now.account);
    }
  }

  /** So it stays in every history, damage to the CA included. */
  lemma {:induction false} EveryHistoryDraws(d: Disk, events: seq<Event>)
    requires Drawn(d)
    ensures Drawn(After(d, events))
    decreases |events|
  {
    if events != [] {
      match events[0] {
        case Generates(cfg, now, budget) => GenerateDraws(d.(budget := budget), cfg, now);
        case Damage(_, _) =>
      }
      EveryHistoryDraws(Happens(d, events[0]), events[1..]);
    }
  }
}
