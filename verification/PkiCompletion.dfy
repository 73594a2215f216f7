/** When Generate completes the inventory, when it has nothing to write, and from
    which cut there is no way back. */
module PkiCompletion {
  import opened Wrappers
  import opened Pki
  import opened PkiLaws

  predicate Complete(files: Files) {
    CAValid(files) && (forall a: Artifact | IsLeaf(a) :: ValidPair(files, a)) && ValidSAPair(files)
  }

  /** The whole inventory, said of the files alone: every certificate beside its own key,
      the first of them an authority's, and the service account's key an RSA key. */
  predicate InOrder(files: Files) {
    && KeysMatch(files, CA) && KeysMatch(files, ServiceAccount)
    && (forall a: Artifact | IsLeaf(a) :: KeysMatch(files, a))
    && files[KeyPath(ServiceAccount)].key.rsa
    && var ca := files[CertPath(CA)].cert; ca.isCA && ca.basicConstraintsValid && ca.certSign
  }

  lemma CompleteExactly(files: Files)
    ensures Complete(files) <==> InOrder(files)
  {
    AnchorExactly(files);
    AccountAcceptedExactly(files);
    forall a: Artifact ensures ValidPair(files, a) <==> KeysMatch(files, a) { AcceptedExactly(files, a); }
    hide CAValid, ValidPair, ValidSAPair, KeysMatch;
  }

  /** The steps of writing every pair there is. */
  const ALL_STEPS: nat := 6 * 17

  predicate Acceptable(cfg: Config) { !cfg.cancelled && cfg.bindHost.Some? }

  /** The hosts that certificates still to be issued shall bear can be put in them. */
  predicate Issuable(files: Files, cfg: Config)
    requires Acceptable(cfg)
  {
    (ValidPair(files, APIServer) || IsIA5(cfg.bindHost.value)) &&
    (ValidPair(files, HypervisorWebhook) || IsIA5(cfg.webhookHost))
  }

  /** A configuration whose hosts can be certified in any case. */
  predicate Certifiable(cfg: Config) { Acceptable(cfg) && IsIA5(cfg.bindHost.value) && IsIA5(cfg.webhookHost) }

  // ----- One leaf, all leaves -----

  /** Pairs that stood still stand, with the same certificates. */
  predicate PairsKept(before: Files, after: Files) {
    forall a: Artifact | ValidPair(before, a) ::
      ValidPair(after, a) && ReadCert(after, CertPath(a)) == ReadCert(before, CertPath(a))
  }

  predicate AllStand(files: Files, specs: seq<LeafSpec>) { forall s | s in specs :: ValidPair(files, s.artifact) }

  /** The pair of a was issued at the given time. */
  predicate IssuedAt(files: Files, a: Artifact, now: int) {
    ReadCert(files, CertPath(a)).Some? && ReadCert(files, CertPath(a)).value.notAfter == now + 24 * 3650
  }

  /** The pair was issued then, for this spec and by this signer, and is no authority's. */
  predicate IssuedFor(files: Files, spec: LeafSpec, signer: nat, now: int) {
    IssuedAt(files, spec.artifact, now) &&
    var c := ReadCert(files, CertPath(spec.artifact)).value;
    c.commonName == spec.commonName && c.altHost == spec.altHost && c.server == spec.server && c.signer == signer &&
    !c.isCA && c.basicConstraintsValid && !c.certSign
  }

  /** A leaf that stands is left alone; given the steps, any other comes to stand. */
  lemma LeafComes(d: Disk, spec: LeafSpec, caKey: PrivateKey, now: int)
    requires spec.artifact != CA
    ensures var (d1, e) := EnsureLeaf(d, spec, caKey, now);
            && PairsKept(d.files, d1.files)
            && (e.None? ==> ValidPair(d1.files, spec.artifact))
            && (d.budget >= 6 && IsIA5(spec.altHost) ==> e.None?) && (d.budget >= 6 ==> d1.budget >= d.budget - 6)
            && (e.None? ==> ValidPair(d.files, spec.artifact) || IsIA5(spec.altHost))
            && (if ValidPair(d.files, spec.artifact) then d1 == d && e.None?
                else (d.budget == 0 ==> e.Some?) &&
                     (ValidPair(d1.files, spec.artifact) ==> IssuedFor(d1.files, spec, caKey.id, now)))
  {
    if ValidPair(d.files, spec.artifact) {
      SamePairsKept(d.files);
      hide ValidPair, PairsKept;
    } else {
      LeafFrame(d, spec, caKey, now);
      LeafKeepsPairs(d.files, EnsureLeaf(d, spec, caKey, now).0.files, spec.artifact);
      hide PairsKept;
      NewLeaf(d, spec, caKey, now);
      hide ValidPair, WritePair, IssuedFor;
    }
  }

  /** A pair written anew, as far as the budget goes. */
  lemma NewLeaf(d: Disk, spec: LeafSpec, caKey: PrivateKey, now: int)
    requires !ValidPair(d.files, spec.artifact)
    ensures var (d1, e) := EnsureLeaf(d, spec, caKey, now);
            && (e.None? ==> ValidPair(d1.files, spec.artifact))
            && (d.budget >= 6 && IsIA5(spec.altHost) ==> e.None?) && (d.budget >= 6 ==> d1.budget >= d.budget - 6)
            && (e.None? ==> IsIA5(spec.altHost)) && (d.budget == 0 ==> e.Some?)
            && (ValidPair(d1.files, spec.artifact) ==> IssuedFor(d1.files, spec, caKey.id, now))
  {
    hide CommonNameOf;
  }

  lemma SamePairsKept(files: Files)
    ensures PairsKept(files, files)
  {}

  lemma LeafKeepsPairs(before: Files, after: Files, a: Artifact)
    requires OnlyPair(before, after, a)
    ensures !ValidPair(before, a) ==> PairsKept(before, after)
  {}

  lemma {:induction false} LeavesKeepPairs(d: Disk, specs: seq<LeafSpec>, caKey: PrivateKey, now: int)
    requires forall s | s in specs :: s.artifact != CA
    ensures PairsKept(d.files, EnsureLeaves(d, specs, caKey, now).0.files)
    decreases |specs|
  {
    if specs != [] {
      hide EnsureLeaf, ValidPair;
      LeafComes(d, specs[0], caKey, now);
      LeavesKeepPairs(EnsureLeaf(d, specs[0], caKey, now).0, specs[1..], caKey, now);
    }
  }

  /** Each leaf stands or can be issued. */
  predicate AllIssuable(files: Files, specs: seq<LeafSpec>) {
    forall s | s in specs :: ValidPair(files, s.artifact) || IsIA5(s.altHost)
  }

  /** One leaf an artifact. */
  predicate OneEach(specs: seq<LeafSpec>) {
    forall s, t | s in specs && t in specs && s.artifact == t.artifact :: s == t
  }

  lemma {:induction false} LeavesCome(d: Disk, specs: seq<LeafSpec>, caKey: PrivateKey, now: int)
    requires OneEach(specs) && forall s | s in specs :: s.artifact != CA
    ensures var (d1, e) := EnsureLeaves(d, specs, caKey, now);
            && (e.None? ==> AllStand(d1.files, specs) && AllIssuable(d.files, specs))
            && (d.budget >= 6 * |specs| && AllIssuable(d.files, specs) ==>
                  e.None? && d1.budget >= d.budget - 6 * |specs|)
            && (AllStand(d.files, specs) ==> d1 == d && e.None?)
            && (d.budget == 0 && e.None? ==> AllStand(d.files, specs))
    decreases |specs|
  {
    if specs != [] {
      hide EnsureLeaf, ValidPair, IsIA5;
      assert specs == [specs[0]] + specs[1..];
      assert OneEach(specs[1..]) && forall s | s in specs[1..] :: s in specs;
      LeafComes(d, specs[0], caKey, now);
      var (d1, e) := EnsureLeaf(d, specs[0], caKey, now);
      LeavesCome(d1, specs[1..], caKey, now);
      LeavesKeepPairs(d1, specs[1..], caKey, now);
      if e.None? { StillIssuable(d, d1, specs, caKey, now); }
    }
  }

  /** One step leaves the others as issuable as they were. */
  lemma StillIssuable(d: Disk, d1: Disk, specs: seq<LeafSpec>, caKey: PrivateKey, now: int)
    requires specs != [] && OneEach(specs) && EnsureLeaf(d, specs[0], caKey, now) == (d1, None)
    requires PairsKept(d.files, d1.files) && (ValidPair(d.files, specs[0].artifact) || IsIA5(specs[0].altHost))
    ensures AllIssuable(d.files, specs) <==> AllIssuable(d1.files, specs[1..])
  {
    hide EnsureLeaf, ValidPair, IsIA5;
    assert specs == [specs[0]] + specs[1..];
    forall s | s in specs[1..] && ValidPair(d1.files, s.artifact) && !ValidPair(d.files, s.artifact)
      ensures s == specs[0]
    {
      StandsByItsOwn(d, specs[0], caKey, now, s.artifact);
    }
  }

  /** A leaf that comes to stand was issued by this run, even if it fails later. */
  lemma {:induction false} LeavesAreIssued(d: Disk, specs: seq<LeafSpec>, caKey: PrivateKey, now: int, spec: LeafSpec)
    requires forall s | s in specs :: s.artifact != CA && (s.artifact == spec.artifact ==> s == spec)
    requires !ValidPair(d.files, spec.artifact) && ValidPair(EnsureLeaves(d, specs, caKey, now).0.files, spec.artifact)
    ensures IssuedFor(EnsureLeaves(d, specs, caKey, now).0.files, spec, caKey.id, now)
    decreases |specs|
  {
    hide EnsureLeaf, ValidPair, IssuedFor;
    if specs == [] { assert false; }
    assert specs == [specs[0]] + specs[1..];
    LeafComes(d, specs[0], caKey, now);
    var (d1, e) := EnsureLeaf(d, specs[0], caKey, now);
    if ValidPair(d1.files, spec.artifact) {
      StandsByItsOwn(d, specs[0], caKey, now, spec.artifact);
      if e.None? {
        LeavesKeepPairs(d1, specs[1..], caKey, now);
        SameIssue(d1.files, EnsureLeaves(d1, specs[1..], caKey, now).0.files, spec, caKey.id, now);
      }
    } else {
      LeavesAreIssued(d1, specs[1..], caKey, now, spec);
    }
  }

  /** Only its own step brings a pair to stand. */
  lemma StandsByItsOwn(d: Disk, spec: LeafSpec, caKey: PrivateKey, now: int, a: Artifact)
    requires !ValidPair(d.files, a) && ValidPair(EnsureLeaf(d, spec, caKey, now).0.files, a)
    ensures spec.artifact == a
  {
    hide CommonNameOf;
    LeafFrame(d, spec, caKey, now);
  }

  lemma SameIssue(before: Files, after: Files, spec: LeafSpec, signer: nat, now: int)
    requires PairsKept(before, after) && ValidPair(before, spec.artifact) && IssuedFor(before, spec, signer, now)
    ensures IssuedFor(after, spec, signer, now)
  {}

  /** The service-account pair, likewise; it touches no leaf and no CA. */
  lemma AccountComes(d: Disk, now: int)
    ensures var (d1, e) := EnsureServiceAccountPair(d, now);
            && OnlyPair(d.files, d1.files, ServiceAccount)
            && (e.None? ==> ValidSAPair(d1.files)) && (d.budget >= 6 ==> e.None?)
            && (if ValidSAPair(d.files) then d1 == d && e.None? else (d.budget == 0 ==> e.Some?))
  {}

  lemma LeavesCoverLeaves(bindHost: string, webhookHost: string, files: Files)
    ensures AllStand(files, Leaves(bindHost, webhookHost)) <==> forall a: Artifact | IsLeaf(a) :: ValidPair(files, a)
    ensures |Leaves(bindHost, webhookHost)| == 15
    ensures forall a: Artifact | IsLeaf(a) :: Leaf(a, bindHost, webhookHost) in Leaves(bindHost, webhookHost)
    ensures forall s | s in Leaves(bindHost, webhookHost) :: s == Leaf(s.artifact, bindHost, webhookHost)
  {
    OrderIsLeaves();
    hide CommonNameOf, ValidPair, Serves, AltHostOf;
    var leaves := Leaves(bindHost, webhookHost);
    assert |LEAF_ORDER| == 15;
    forall a: Artifact | IsLeaf(a) ensures Leaf(a, bindHost, webhookHost) in leaves {
      assert a in LEAF_ORDER;
      var i :| 0 <= i < |LEAF_ORDER| && LEAF_ORDER[i] == a;
      assert leaves[i] == Leaf(a, bindHost, webhookHost);
    }
    if AllStand(files, leaves) {
      forall a: Artifact | IsLeaf(a) ensures ValidPair(files, a) {
        assert Leaf(a, bindHost, webhookHost).artifact == a;
      }
    }
  }

  /** Of all leaves two bear a configured host. */
  lemma HostedLeaves(cfg: Config, files: Files)
    requires Acceptable(cfg)
    ensures var leaves := Leaves(cfg.bindHost.value, cfg.webhookHost);
            OneEach(leaves) && (AllIssuable(files, leaves) <==> Issuable(files, cfg))
  {
    var (bindHost, webhookHost) := (cfg.bindHost.value, cfg.webhookHost);
    var leaves := Leaves(bindHost, webhookHost);
    LeavesCoverLeaves(bindHost, webhookHost, files);
    hide CommonNameOf, ValidPair, Serves, Leaves, AllStand, IsIA5, AltHostOf, Leaf;
    forall s | s in leaves ensures ValidPair(files, s.artifact) || IsIA5(s.altHost) || !Issuable(files, cfg) {
      LeafIssuable(cfg, files, s.artifact);
    }
    if AllIssuable(files, leaves) {
      forall a | a == APIServer || a == HypervisorWebhook
        ensures ValidPair(files, a) || IsIA5(AltHostOf(a, bindHost, webhookHost))
      {
        LeafIssuable(cfg, files, a);
        assert Leaf(a, bindHost, webhookHost) in leaves;
      }
      LeafIssuable(cfg, files, APIServer);
    }
  }

  lemma LeafIssuable(cfg: Config, files: Files, a: Artifact)
    requires Acceptable(cfg)
    ensures var leaf := Leaf(a, cfg.bindHost.value, cfg.webhookHost);
            leaf.artifact == a && leaf.altHost == AltHostOf(a, cfg.bindHost.value, cfg.webhookHost)
    ensures Issuable(files, cfg) ==> ValidPair(files, a) || IsIA5(AltHostOf(a, cfg.bindHost.value, cfg.webhookHost))
    ensures AltHostOf(APIServer, cfg.bindHost.value, cfg.webhookHost) == cfg.bindHost.value
    ensures AltHostOf(HypervisorWebhook, cfg.bindHost.value, cfg.webhookHost) == cfg.webhookHost
  {
    hide CommonNameOf, ValidPair;
    assert IsIA5("");
  }

  // ----- Generate -----

  /** A CA step that succeeds leaves the anchor, spends at most six steps, and none if
      the anchor was there. */
  lemma AnchorComes(d: Disk, now: int)
    ensures var (d1, r) := EnsureCA(d, now);
            && (r.Ok? ==> CAValid(d1.files) && (d.budget >= 6 ==> d1.budget >= d.budget - 6))
            && (d.budget >= 6 ==> (r.Ok? <==> !CABroken(d.files)))
            && (CAValid(d.files) ==> d1 == d && r.Ok?)
            && (d.budget == 0 && r.Ok? ==> CAValid(d.files))
            && (forall a: Artifact | IsLeaf(a) :: ValidPair(d.files, a) <==> ValidPair(d1.files, a))
            && (CAAbsent(d.files) && r.Ok? ==> IssuedAt(d1.files, CA, now))
  {}

  /** Given the steps, Generate completes the inventory exactly when its configuration
      is acceptable, the CA is not broken and the hosts it has to certify are issuable; and
      whenever it reports success the inventory is complete. */
  lemma GenerateCompletes(d: Disk, cfg: Config, now: Clock)
    ensures var (d', e) := GenerateFrom(d, cfg, now);
            && (e.None? ==> Complete(d'.files) && InOrder(d'.files) && Acceptable(cfg) && Issuable(d.files, cfg))
            && (d.budget >= ALL_STEPS ==>
                  (e.None? <==> Acceptable(cfg) && !CABroken(d.files) && Issuable(d.files, cfg)))
  {
    if !Acceptable(cfg) { return; }
    AnchorComes(d, now.run);
    var (d1, ca) := EnsureCA(d, now.run);
    if ca.Err? { return; }
    var (bindHost, webhookHost) := (cfg.bindHost.value, cfg.webhookHost);
    var leaves, caKey := Leaves(bindHost, webhookHost), ca.value.1;
    var (d2, e2) := EnsureLeaves(d1, leaves, caKey, now.run);
    assert GenerateFrom(d, cfg, now) == if e2.Some? then (d2, e2) else EnsureServiceAccountPair(d2, now.account);
    NoLeafIsCA(bindHost, webhookHost);
    LeavesCoverLeaves(bindHost, webhookHost, d2.files);
    HostedLeaves(cfg, d1.files);
    assert Issuable(d1.files, cfg) <==> Issuable(d.files, cfg);
    hide *;
    LeavesCome(d1, leaves, caKey, now.run);
    LeavesKeepCA(d1, leaves, caKey, now.run);
    AccountComes(d2, now.account);
    OtherPairsStand(d2.files, EnsureServiceAccountPair(d2, now.account).0.files);
    SameCAIsValid(d1.files, d2.files);
    CompleteByParts(EnsureServiceAccountPair(d2, now.account).0.files);
    CompleteExactly(EnsureServiceAccountPair(d2, now.account).0.files);
    BudgetsAddUp(d.budget, d1.budget, d2.budget);
  }

  lemma CompleteByParts(files: Files)
    ensures Complete(files) <==>
            CAValid(files) && (forall a: Artifact | IsLeaf(a) :: ValidPair(files, a)) && ValidSAPair(files)
  {}

  lemma BudgetsAddUp(all: nat, afterCA: nat, afterLeaves: nat)
    ensures all >= ALL_STEPS && afterCA >= all - 6 ==> afterCA >= 6 * 15
    ensures all >= ALL_STEPS && afterCA >= all - 6 && afterLeaves >= afterCA - 6 * 15 ==> afterLeaves >= 6
  {}

  lemma SameCAIsValid(a: Files, b: Files)
    ensures SameCA(a, b) ==> (CAValid(a) <==> CAValid(b)) && (CAAbsent(a) <==> CAAbsent(b))
    ensures SameCA(a, b) && CAValid(a) ==> CAKey(a) == CAKey(b)
  {}

  lemma OtherPairsStand(before: Files, after: Files)
    requires OnlyPair(before, after, ServiceAccount)
    ensures CAValid(before) <==> CAValid(after)
    ensures forall a: Artifact | IsLeaf(a) :: ValidPair(before, a) <==> ValidPair(after, a)
  {}

  /** Generate has nothing to write exactly when the inventory is complete: only then
      does it succeed where not a single step is granted, as on a read-only mount, and
      then under any acceptable configuration and at any time. */
  lemma NothingToWriteExactly(d: Disk, cfg: Config, now: Clock)
    requires d.budget == 0
    ensures GenerateFrom(d, cfg, now).1.None? <==> Acceptable(cfg) && Complete(d.files)
    ensures Acceptable(cfg) && Complete(d.files) ==> GenerateFrom(d, cfg, now) == (d, None)
  {
    hide Leaves, EnsureLeaf, EnsureLeaves, EnsureServiceAccountPair, EnsureCA;
    hide ValidPair, ValidSAPair, CAValid, OnlyPair, OneEach, AllIssuable, Issuable;
    if !Acceptable(cfg) { return; }
    AnchorComes(d, now.run);
    var (d1, ca) := EnsureCA(d, now.run);
    if ca.Err? { return; }
    var (bindHost, webhookHost) := (cfg.bindHost.value, cfg.webhookHost);
    var leaves, caKey := Leaves(bindHost, webhookHost), ca.value.1;
    NoLeafIsCA(bindHost, webhookHost);
    HostedLeaves(cfg, d1.files);
    LeavesCome(d1, leaves, caKey, now.run);
    LeavesCoverLeaves(bindHost, webhookHost, d.files);
    AccountComes(d, now.account);
    assert CAValid(d.files) && d1 == d;
    var (d2, e2) := EnsureLeaves(d, leaves, caKey, now.run);
    assert GenerateFrom(d, cfg, now) == if e2.Some? then (d2, e2) else EnsureServiceAccountPair(d2, now.account);
    assert e2.None? <==> AllStand(d.files, leaves);
    assert e2.None? ==> d2 == d;
    assert EnsureServiceAccountPair(d, now.account).1.None? <==> ValidSAPair(d.files);
  }

  /** The second of two runs writes nothing. */
  lemma SecondRunWritesNothing(d: Disk, cfg: Config, now: Clock, cfg': Config, now': Clock)
    requires GenerateFrom(d, cfg, now).1.None? && Acceptable(cfg')
    ensures var d1 := GenerateFrom(d, cfg, now).0.(budget := 0); GenerateFrom(d1, cfg', now') == (d1, None)
  {
    GenerateCompletes(d, cfg, now);
    NothingToWriteExactly(GenerateFrom(d, cfg, now).0.(budget := 0), cfg', now');
  }

  // ----- Cuts -----

  /** A run that finds no CA, cut after so many steps. The first write empties ca.crt,
      the fifth step fills ca.key: between them the anchor is broken, before there is
      none, and from then on it is valid. */
  lemma CutDuringCreation(d: Disk, cfg: Config, now: Clock)
    requires CAAbsent(d.files) && KeysDrawn(d) && Acceptable(cfg)
    ensures var files := GenerateFrom(d, cfg, now).0.files;
            && (CAAbsent(files) <==> d.budget == 0)
            && (CABroken(files) <==> 1 <= d.budget <= 4)
            && (CAValid(files) <==> d.budget >= 5)
            && (1 <= d.budget <= 3 ==> CertPath(CA) in files && KeyPath(CA) !in files)
  {
    FreshCA(d, now.run);
    var (d1, ca) := EnsureCA(d, now.run);
    if ca.Ok? {
      var leaves := Leaves(cfg.bindHost.value, cfg.webhookHost);
      NoLeafIsCA(cfg.bindHost.value, cfg.webhookHost);
      LeavesKeepCA(d1, leaves, ca.value.1, now.run);
      var (d2, e) := EnsureLeaves(d1, leaves, ca.value.1, now.run);
      SameCAIsValid(d1.files, d2.files);
      AccountComes(d2, now.account);
      OtherPairsStand(d2.files, EnsureServiceAccountPair(d2, now.account).0.files);
    }
  }

  /** Which cuts can be made good: after the very first run, cut after so many steps, and
      any further history that spares the CA, a run with all its steps completes the
      inventory exactly when the cut did not fall between the emptying of ca.crt and the
      filling of ca.key, and the hosts it has to certify are issuable. (Where nothing was
      written, a further run would be the first.) */
  lemma RepairableExactly(cut: nat, cfg: Config, now: Clock, events: seq<Event>, cfg': Config, now': Clock, budget: nat)
    requires Acceptable(cfg) && Acceptable(cfg') && budget >= ALL_STEPS && SpareCA(events)
    requires cut == 0 ==> forall e | e in events :: e.Damage?
    ensures var d := After(GenerateFrom(Disk(map[], 0, cut), cfg, now).0, events).(budget := budget);
            GenerateFrom(d, cfg', now').1.None? <==> (cut == 0 || cut >= 5) && Issuable(d.files, cfg')
  {
    var d0 := Disk(map[], 0, cut);
    CutDuringCreation(d0, cfg, now);
    var d1 := GenerateFrom(d0, cfg, now).0;
    var d := After(d1, events).(budget := budget);
    hide GenerateFrom, After, CAValid;
    if cut == 0 {
      DamageSparesCA(d1, events);
    } else if cut < 5 {
      BrokenCAIsForGood(d1, events);
    } else {
      TrustAnchorIsPermanent(d1, events);
    }
    SameCAIsValid(d1.files, After(d1, events).files);
    GenerateCompletes(d, cfg', now');
  }

  lemma {:induction false} DamageSparesCA(d: Disk, events: seq<Event>)
    requires SpareCA(events) && forall e | e in events :: e.Damage?
    ensures SameCA(d.files, After(d, events).files)
    decreases |events|
  {
    if events != [] {
      assert events[0] in events;
      DamageSparesCA(Happens(d, events[0]), events[1..]);
    }
  }

  /** Once the anchor stands, no further cut matters: after any history that spares it, a
      run with all its steps completes the inventory if the hosts it has to certify are
      issuable, and only then. */
  lemma AnchoredHistoriesRecover(d: Disk, events: seq<Event>, cfg: Config, now: Clock, budget: nat)
    requires SpareCA(events) && CAValid(d.files) && Acceptable(cfg) && budget >= ALL_STEPS
    ensures var (d', e) := GenerateFrom(After(d, events).(budget := budget), cfg, now);
            && (e.None? <==> Issuable(After(d, events).files, cfg)) && (e.None? ==> Complete(d'.files))
            && SameCA(d.files, d'.files)
  {
    TrustAnchorIsPermanent(d, events);
    SameCAIsValid(d.files, After(d, events).files);
    var d1 := After(d, events).(budget := budget);
    GenerateCompletes(d1, cfg, now);
    GenerateKeepsCA(d1, cfg, now);
  }

  // ----- Lifetimes -----

  /** One clock for the whole run keeps no leaf from outliving a CA that was there
      before: a leaf the run brings to stand, whether or not it succeeds in the end, does
      so exactly when the CA is older than it. A run that creates the CA never issues one
      that does. The leaf is issued for the hosts configured now. */
  lemma IssuedLeafOutlivesCAExactly(d: Disk, cfg: Config, now: Clock, a: Artifact)
    requires IsLeaf(a) && !ValidPair(d.files, a) && ValidPair(GenerateFrom(d, cfg, now).0.files, a)
    ensures var files := GenerateFrom(d, cfg, now).0.files;
            && cfg.bindHost.Some? && ReadCert(files, CertPath(CA)).Some?
            && (ReadCert(files, CertPath(a)).value.notAfter > ReadCert(files, CertPath(CA)).value.notAfter <==>
                CAValid(d.files) && LoadCAPair(d.files).value.0.notAfter < now.run + 24 * 3650)
            && ReadCert(files, CertPath(a)).value.altHost == AltHostOf(a, cfg.bindHost.value, cfg.webhookHost)
  {
    if !Acceptable(cfg) || EnsureCA(d, now.run).1.Err? {
      NothingIssued(d, cfg, now, a);
      assert false;
    }
    var (bindHost, webhookHost) := (cfg.bindHost.value, cfg.webhookHost);
    var (d1, ca) := EnsureCA(d, now.run);
    AnchorComes(d, now.run);
    LeavesSettle(d, cfg, now, a);
    NoLeafIsCA(bindHost, webhookHost);
    LeavesCoverLeaves(bindHost, webhookHost, d.files);
    CertificateOfCA(d1.files, GenerateFrom(d, cfg, now).0.files);
    hide Leaves, EnsureLeaves, GenerateFrom, EnsureCA, CommonNameOf, AltHostOf, Serves;
    LeavesAreIssued(d1, Leaves(bindHost, webhookHost), ca.value.1, now.run, Leaf(a, bindHost, webhookHost));
  }

  lemma NothingIssued(d: Disk, cfg: Config, now: Clock, a: Artifact)
    requires !Acceptable(cfg) || EnsureCA(d, now.run).1.Err?
    requires IsLeaf(a)
    ensures ValidPair(GenerateFrom(d, cfg, now).0.files, a) <==> ValidPair(d.files, a)
  {
    AnchorComes(d, now.run);
    hide EnsureCA, ValidPair;
  }

  /** What the CA step and the leaves leave is what the run leaves of them. */
  lemma LeavesSettle(d: Disk, cfg: Config, now: Clock, a: Artifact)
    requires Acceptable(cfg) && EnsureCA(d, now.run).1.Ok? && IsLeaf(a)
    ensures var (d1, ca) := EnsureCA(d, now.run);
            var d2 := EnsureLeaves(d1, Leaves(cfg.bindHost.value, cfg.webhookHost), ca.value.1, now.run).0;
            var files := GenerateFrom(d, cfg, now).0.files;
            && SameCA(d1.files, files) && (ValidPair(files, a) <==> ValidPair(d2.files, a))
            && ReadCert(files, CertPath(a)) == ReadCert(d2.files, CertPath(a))
  {
    var (d1, ca) := EnsureCA(d, now.run);
    var leaves := Leaves(cfg.bindHost.value, cfg.webhookHost);
    NoLeafIsCA(cfg.bindHost.value, cfg.webhookHost);
    var (d2, e2) := EnsureLeaves(d1, leaves, ca.value.1, now.run);
    assert GenerateFrom(d, cfg, now).0 == if e2.Some? then d2 else EnsureServiceAccountPair(d2, now.account).0;
    hide *;
    AccountComes(d2, now.account);
    LeavesKeepCA(d1, leaves, ca.value.1, now.run);
    AccountSparesLeaf(d1.files, d2.files, EnsureServiceAccountPair(d2, now.account).0.files, a);
  }

  lemma AccountSparesLeaf(first: Files, before: Files, after: Files, a: Artifact)
    requires OnlyPair(before, after, ServiceAccount) && SameCA(first, before) && IsLeaf(a)
    ensures SameCA(first, after) && (ValidPair(after, a) <==> ValidPair(before, a))
    ensures ReadCert(after, CertPath(a)) == ReadCert(before, CertPath(a))
  {}

  lemma CertificateOfCA(before: Files, after: Files)
    requires SameCA(before, after)
    ensures ReadCert(before, CertPath(CA)) == ReadCert(after, CertPath(CA))
  {
    assert CertPath(CA) in {CertPath(CA), KeyPath(CA)};
  }

  /** The case in point: a leaf that was lost and is issued anew an hour later. */
  lemma ReissuedLeafOutlivesCA(cfg: Config, a: Artifact)
    requires Certifiable(cfg) && IsLeaf(a)
    ensures var events := [Generates(cfg, Clock(0, 0), ALL_STEPS), Damage(CertPath(a), true),
                           Generates(cfg, Clock(1, 1), ALL_STEPS)];
            var files := After(Disk(map[], 0, 0), events).files;
            && Complete(files)
            && ReadCert(files, CertPath(a)).value.notAfter > ReadCert(files, CertPath(CA)).value.notAfter
  {
    var d0 := Disk(map[], 0, ALL_STEPS);
    var d1 := GenerateFrom(d0, cfg, Clock(0, 0)).0;
    GenerateCompletes(d0, cfg, Clock(0, 0));
    CreatedAt(d0, cfg, Clock(0, 0));
    hide GenerateFrom, Complete, ValidPair, CAValid, LoadCAPair;
    ThreeEvents(d0, cfg, Damage(CertPath(a), true));
    ReissuedAfter(d1, cfg, a);
  }

  lemma ThreeEvents(d0: Disk, cfg: Config, e: Event)
    requires e.Damage? && d0.budget == ALL_STEPS
    ensures var events := [Generates(cfg, Clock(0, 0), ALL_STEPS), e, Generates(cfg, Clock(1, 1), ALL_STEPS)];
            After(d0.(budget := 0), events) ==
            GenerateFrom(Happens(GenerateFrom(d0, cfg, Clock(0, 0)).0, e).(budget := ALL_STEPS), cfg, Clock(1, 1)).0
  {
    hide GenerateFrom;
    var run, last := Generates(cfg, Clock(0, 0), ALL_STEPS), Generates(cfg, Clock(1, 1), ALL_STEPS);
    assert d0.(budget := 0).(budget := ALL_STEPS) == d0;
    assert [run, e, last][1..] == [e, last] && [e, last][1..] == [last] && [last][1..] == [];
    var d1 := Happens(d0.(budget := 0), run);
    var d2 := Happens(d1, e);
    assert After(d1, [e, last]) == After(d2, [last]) == After(Happens(d2, last), []);
  }

  lemma ReissuedAfter(d1: Disk, cfg: Config, a: Artifact)
    requires Certifiable(cfg) && IsLeaf(a) && Complete(d1.files) && IssuedAt(d1.files, CA, 0)
    ensures var d2 := Happens(d1, Damage(CertPath(a), true)).(budget := ALL_STEPS);
            var files := GenerateFrom(d2, cfg, Clock(1, 1)).0.files;
            && Complete(files)
            && ReadCert(files, CertPath(a)).value.notAfter > ReadCert(files, CertPath(CA)).value.notAfter
  {
    var d2 := Happens(d1, Damage(CertPath(a), true)).(budget := ALL_STEPS);
    SameCAIsValid(d1.files, d2.files);
    GenerateCompletes(d2, cfg, Clock(1, 1));
    assert !ValidPair(d2.files, a) && LoadCAPair(d2.files).value.0.notAfter == 24 * 3650;
    hide GenerateFrom;
    IssuedLeafOutlivesCAExactly(d2, cfg, Clock(1, 1), a);
  }

  /** A CA that a run creates is of that run's time. */
  lemma CreatedAt(d: Disk, cfg: Config, now: Clock)
    requires CAAbsent(d.files) && GenerateFrom(d, cfg, now).1.None?
    ensures IssuedAt(GenerateFrom(d, cfg, now).0.files, CA, now.run)
  {
    AnchorComes(d, now.run);
    LeavesSettle(d, cfg, now, Admin);
    CertificateOfCA(EnsureCA(d, now.run).0.files, GenerateFrom(d, cfg, now).0.files);
    hide EnsureCA, GenerateFrom;
  }

  // ----- Whom the external webhook server's certificate names -----

  const DEFAULT_WEBHOOK_HOST := "host.containers.internal"

  /** The hosts the serving certificate of the external webhook is good for. */
  function WebhookNames(c: Certificate): set<string> {
    {"localhost", DEFAULT_WEBHOOK_HOST, "127.0.0.1"} + if c.altHost == "" then {} else {c.altHost}
  }

  predicate NamesHost(files: Files, host: string) {
    var cert := ReadCert(files, CertPath(HypervisorWebhook));
    cert.Some? && host in WebhookNames(cert.value)
  }

  /** The pair that serves the external webhook, and the host it was issued for. */
  predicate IssuedForHost(files: Files, host: string) {
    ValidPair(files, HypervisorWebhook) && ReadCert(files, CertPath(HypervisorWebhook)).value.altHost == host
  }

  lemma IssuedForHostNames(files: Files, issued: string, host: string)
    requires IssuedForHost(files, issued)
    ensures NamesHost(files, host) <==>
            host in {"localhost", DEFAULT_WEBHOOK_HOST, "127.0.0.1"} || (host == issued && host != "")
  {}

  /** A configured webhook host joins the serving certificate exactly when the run issues
      it or found one that names it: after a run that succeeds the certificate names the
      host if and only if no pair was standing before, or the one that was already did. */
  lemma WebhookHostNamedExactly(d: Disk, cfg: Config, now: Clock)
    requires GenerateFrom(d, cfg, now).1.None? && cfg.webhookHost != ""
    ensures NamesHost(GenerateFrom(d, cfg, now).0.files, cfg.webhookHost) <==>
            ValidPair(d.files, HypervisorWebhook) ==> NamesHost(d.files, cfg.webhookHost)
  {
    if ValidPair(d.files, HypervisorWebhook) {
      StandingLeavesAreNeverReissued(d, cfg, now, HypervisorWebhook);
      hide GenerateFrom, ValidPair;
    } else {
      NewPairIsForHost(d, cfg, now);
      hide GenerateFrom, ValidPair, NamesHost, IssuedForHost;
      IssuedForHostNames(GenerateFrom(d, cfg, now).0.files, cfg.webhookHost, cfg.webhookHost);
    }
  }

  lemma NewPairIsForHost(d: Disk, cfg: Config, now: Clock)
    requires GenerateFrom(d, cfg, now).1.None? && !ValidPair(d.files, HypervisorWebhook)
    ensures IssuedForHost(GenerateFrom(d, cfg, now).0.files, cfg.webhookHost)
  {
    GenerateCompletes(d, cfg, now);
    hide GenerateFrom, ValidPair, CAValid, ValidSAPair;
    IssuedLeafOutlivesCAExactly(d, cfg, now, HypervisorWebhook);
    LeafIssuable(cfg, d.files, HypervisorWebhook);
  }

  /** The case in point: the host is changed after the first run. The next one succeeds and
      leaves the certificate to the old host. */
  lemma ChangedHostIsNotNamed(cfg: Config, host: string, now: Clock, now': Clock)
    requires Certifiable(cfg) && IsIA5(host) && host !in {"", "localhost", DEFAULT_WEBHOOK_HOST, "127.0.0.1"}
    requires host != cfg.webhookHost
    ensures var first := GenerateFrom(Disk(map[], 0, ALL_STEPS), cfg, now).0;
            var (d, e) := GenerateFrom(first.(budget := ALL_STEPS), cfg.(webhookHost := host), now');
            e.None? && Complete(d.files) && !NamesHost(d.files, host)
  {
    var d0 := Disk(map[], 0, ALL_STEPS);
    assert Issuable(d0.files, cfg) && !CABroken(d0.files) && !ValidPair(d0.files, HypervisorWebhook);
    GenerateCompletes(d0, cfg, now);
    NewPairIsForHost(d0, cfg, now);
    hide *;
    HostChangedAfter(GenerateFrom(d0, cfg, now).0.(budget := ALL_STEPS), cfg, host, now');
  }

  lemma HostChangedAfter(d1: Disk, cfg: Config, host: string, now: Clock)
    requires Certifiable(cfg) && Complete(d1.files) && d1.budget == ALL_STEPS && IsIA5(host)
    requires IssuedForHost(d1.files, cfg.webhookHost)
    requires host !in {"", "localhost", DEFAULT_WEBHOOK_HOST, "127.0.0.1"} && host != cfg.webhookHost
    ensures var (d, e) := GenerateFrom(d1, cfg.(webhookHost := host), now);
            e.None? && Complete(d.files) && !NamesHost(d.files, host)
  {
    var cfg' := cfg.(webhookHost := host);
    assert ValidPair(d1.files, APIServer) && ValidPair(d1.files, HypervisorWebhook);
    assert Issuable(d1.files, cfg') && !CABroken(d1.files);
    hide GenerateFrom, ValidPair, IsIA5, CABroken, NamesHost;
    GenerateCompletes(d1, cfg', now);
    IssuedForHostNames(d1.files, cfg.webhookHost, host);
    WebhookHostNamedExactly(d1, cfg', now);
  }

  // ----- Chaining to the CA -----

  /** Certificates of pairs that stand are never reissued, whoever signed them; so a changed
      bind or webhook host reaches no certificate that is already there. */
  lemma StandingLeavesAreNeverReissued(d: Disk, cfg: Config, now: Clock, a: Artifact)
    requires IsLeaf(a) && ValidPair(d.files, a)
    ensures var files := GenerateFrom(d, cfg, now).0.files;
            ValidPair(files, a) && ReadCert(files, CertPath(a)) == ReadCert(d.files, CertPath(a))
  {
    if !Acceptable(cfg) { return; }
    AnchorComes(d, now.run);
    var (d1, ca) := EnsureCA(d, now.run);
    CAFrame(d, now.run, a);
    if ca.Err? { return; }
    var leaves := Leaves(cfg.bindHost.value, cfg.webhookHost);
    NoLeafIsCA(cfg.bindHost.value, cfg.webhookHost);
    LeavesKeepPairs(d1, leaves, ca.value.1, now.run);
    AccountComes(EnsureLeaves(d1, leaves, ca.value.1, now.run).0, now.account);
  }

  lemma CAFrame(d: Disk, now: int, a: Artifact)
    requires a != CA
    ensures ReadCert(EnsureCA(d, now).0.files, CertPath(a)) == ReadCert(d.files, CertPath(a))
  {}

  /** Which leaves chain to the CA after a run that succeeds: those it issued, and of those
      it found standing the ones the CA it found had signed. A CA made by the run itself
      has signed none of these. */
  lemma LeavesChainExactly(d: Disk, cfg: Config, now: Clock, a: Artifact)
    requires Drawn(d) && IsLeaf(a) && GenerateFrom(d, cfg, now).1.None?
    ensures var files := GenerateFrom(d, cfg, now).0.files;
            && CAValid(files) && ValidPair(files, a)
            && (ReadCert(files, CertPath(a)).value.signer == CAKey(files) <==>
                ValidPair(d.files, a) ==>
                  CAValid(d.files) && ReadCert(d.files, CertPath(a)).value.signer == CAKey(d.files))
  {
    var files := GenerateFrom(d, cfg, now).0.files;
    GenerateCompletes(d, cfg, now);
    AnchorComes(d, now.run);
    var (bindHost, webhookHost) := (cfg.bindHost.value, cfg.webhookHost);
    var (d1, ca) := EnsureCA(d, now.run);
    CAComes(d, now.run);
    LeavesSettle(d, cfg, now, a);
    SameCAIsValid(d1.files, files);
    if ValidPair(d.files, a) {
      StandingLeavesAreNeverReissued(d, cfg, now, a);
      hide GenerateFrom, EnsureCA, LoadCAPair, ValidPair;
    } else {
      NoLeafIsCA(bindHost, webhookHost);
      LeavesCoverLeaves(bindHost, webhookHost, d.files);
      hide Leaves, EnsureLeaves, GenerateFrom, EnsureCA, CommonNameOf, AltHostOf, Serves, LoadCAPair;
      LeavesAreIssued(d1, Leaves(bindHost, webhookHost), ca.value.1, now.run, Leaf(a, bindHost, webhookHost));
    }
  }

  /** The CA a run goes on with: the one it found, or one whose key is new. */
  lemma CAComes(d: Disk, now: int)
    ensures var (d1, ca) := EnsureCA(d, now);
            ca.Ok? ==> CAValid(d1.files) && CAKey(d1.files) == ca.value.1.id &&
                       if CAValid(d.files) then d1 == d else CAKey(d1.files) == d.nextKey
  {}

  /** The case in point: both files of the CA are lost and the leaves are not. The next
      run succeeds, with a new CA that has signed none of them. */
  lemma LostCAUnchainsLeaves(cfg: Config, now: Clock, now': Clock, a: Artifact)
    requires Certifiable(cfg) && IsLeaf(a)
    ensures var events := [Generates(cfg, now, ALL_STEPS), Damage(CertPath(CA), true), Damage(KeyPath(CA), true)];
            var (d, e) := GenerateFrom(After(Disk(map[], 0, 0), events).(budget := ALL_STEPS), cfg, now');
            && e.None? && Complete(d.files) && ReadCert(d.files, CertPath(a)).value.signer != CAKey(d.files)
  {
    var d0 := Disk(map[], 0, ALL_STEPS);
    var d1 := GenerateFrom(d0, cfg, now).0;
    GenerateCompletes(d0, cfg, now);
    var run, cert, key := Generates(cfg, now, ALL_STEPS), Damage(CertPath(CA), true), Damage(KeyPath(CA), true);
    EveryHistoryDraws(Disk(map[], 0, 0), [run]);
    OneEvent(Disk(map[], 0, 0), run);
    assert Happens(Disk(map[], 0, 0), run) == d1;
    hide GenerateFrom, Complete;
    TwoMoreEvents(Disk(map[], 0, 0), run, cert, key);
    UnchainedAfter(d1, cfg, now', a);
  }

  lemma OneEvent(d: Disk, e: Event)
    ensures After(d, [e]) == Happens(d, e)
  {
    assert [e][1..] == [];
  }

  lemma TwoMoreEvents(d: Disk, e: Event, f: Event, g: Event)
    ensures After(d, [e, f, g]) == Happens(Happens(Happens(d, e), f), g)
  {
    assert [e, f, g][1..] == [f, g] && [f, g][1..] == [g];
    OneEvent(Happens(Happens(d, e), f), g);
  }

  lemma UnchainedAfter(d1: Disk, cfg: Config, now: Clock, a: Artifact)
    requires Acceptable(cfg) && IsLeaf(a) && Complete(d1.files) && Drawn(d1)
    ensures var d2 := Happens(Happens(d1, Damage(CertPath(CA), true)), Damage(KeyPath(CA), true)).(budget := ALL_STEPS);
            var (d, e) := GenerateFrom(d2, cfg, now);
            && e.None? && Complete(d.files) && ReadCert(d.files, CertPath(a)).value.signer != CAKey(d.files)
  {
    var d2 := Happens(Happens(d1, Damage(CertPath(CA), true)), Damage(KeyPath(CA), true)).(budget := ALL_STEPS);
    assert CAAbsent(d2.files) && ValidPair(d2.files, a) && Drawn(d2);
    assert ValidPair(d1.files, APIServer) && ValidPair(d1.files, HypervisorWebhook);
    assert Issuable(d2.files, cfg);
    hide ValidPair, Drawn, IsIA5;
    GenerateCompletes(d2, cfg, now);
    hide GenerateFrom, LoadCAPair;
    LeavesChainExactly(d2, cfg, now, a);
  }
}
