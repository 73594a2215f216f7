/** The setup subcommand whole: the certificate inventory first, then the batches, with
    the CA as it was left on disk. */
module Subcommand {
  import opened Wrappers
  import opened Objects
  import opened Manifests
  import opened ApiServer
  import opened Apply
  import opened Loading
  import opened Webhook
  import opened RewriteLaws
  import opened CrdWait
  import opened Setup
  import opened Convergence
  import opened Completion
  import opened Pki
  import opened PkiLaws
  import opened PkiCompletion

  /** What setup works on, given once: the manifests, the converter, and how a
      certificate is written out as PEM. */
  datatype Inputs = Inputs(files: seq<ManifestFile>, codec: Codec, pem: Certificate -> Bytes)

  /** What one invocation meets: its configuration and clock, whether the apiserver
      answers, whether the CRDs are found established, and whether ca.crt can be read. */
  datatype Invocation = Invocation(cfg: Config, now: Clock, answers: bool, waited: bool, readable: bool)

  datatype State = State(disk: Disk, world: World)

  function ReadCA(files: Files, pem: Certificate -> Bytes): Option<Bytes> {
    var cert := ReadCert(files, CertPath(CA));
    if cert.Some? then Some(pem(cert.value)) else None
  }

  /** The run against the apiserver, once the inventory is there. */
  function RunOf(i: Invocation, files: Files, pem: Certificate -> Bytes): Run {
    Run(i.waited, if i.readable then ReadCA(files, pem) else None, i.cfg.webhookHost)
  }

  function Invoke(s: State, inputs: Inputs, i: Invocation): (State, bool) {
    var (d, e) := GenerateFrom(s.disk, i.cfg, i.now);
    if e.Some? || !i.answers then (State(d, s.world), false)
    else
      var (w, done) := SetupRun(s.world, inputs.files, inputs.codec, RunOf(i, d.files, inputs.pem));
      (State(d, w), done)
  }

  // ----- Histories of the subcommand -----

  /** An invocation, cut after so many steps on the disk or so many calls, or damage. */
  datatype Happening =
    | Invoked(i: Invocation, steps: nat, calls: nat)
    | Damaged(path: Path, lost: bool)

  predicate SparesCA(history: seq<Happening>) { forall h | h in history && h.Damaged? :: h.path.artifact != CA }

  function Granted(s: State, steps: nat, calls: nat): State {
    State(s.disk.(budget := steps), s.world.(budget := calls))
  }

  function Next(s: State, inputs: Inputs, h: Happening): State {
    match h
    case Invoked(i, steps, calls) => Invoke(Granted(s, steps, calls), inputs, i).0
    case Damaged(p, lost) => s.(disk := Happens(s.disk, Damage(p, lost)))
  }

  function AfterHistory(s: State, inputs: Inputs, history: seq<Happening>): State
    decreases |history|
  {
    if history == [] then s else AfterHistory(Next(s, inputs, history[0]), inputs, history[1..])
  }

  /** What the disk and the store keep. */
  ghost predicate Safe(goal: Held, before: Held, s: State) {
    Consistent(s.disk) && Moves(goal, before, ContentsOf(s.world.store))
  }

  lemma NextIsSafe(s: State, inputs: Inputs, h: Happening, before: Held)
    requires Sound(inputs.files) && Faithful(inputs.codec) && SparesCA([h])
    requires Safe(GoalKeys(inputs.files), before, s)
    ensures Safe(GoalKeys(inputs.files), before, Next(s, inputs, h))
  {
    hide Sound, Faithful, GoalKeys, Moves, SetupRun, GenerateFrom, Consistent, ContentsOf;
    assert [h][0] == h;
    match h {
      case Invoked(i, steps, calls) =>
        var s0 := Granted(s, steps, calls);
        BudgetIsNoMatter(s.disk, steps);
        GenerateStaysConsistent(s0.disk, i.cfg, i.now);
        var run := RunOf(i, GenerateFrom(s0.disk, i.cfg, i.now).0.files, inputs.pem);
        RunMoves(s0.world, inputs.files, inputs.codec, run);
        var after := ContentsOf(SetupRun(s0.world, inputs.files, inputs.codec, run).0.store);
        MovesThrough(GoalKeys(inputs.files), before, ContentsOf(s0.world.store), after);
      case Damaged(p, lost) => DamageStaysConsistent(s.disk, p, lost);
    }
  }

  /** In every state a history of invocations and damage leads to that spares the CA, the
      disk is consistent, foreign keys in the store are as they were, and no managed
      binding has left its redirected roleRef. */
  lemma {:induction false} EveryHistoryIsSafe(s: State, inputs: Inputs, history: seq<Happening>, before: Held)
    requires Sound(inputs.files) && Faithful(inputs.codec) && SparesCA(history)
    requires Safe(GoalKeys(inputs.files), before, s)
    ensures Safe(GoalKeys(inputs.files), before, AfterHistory(s, inputs, history))
    decreases |history|
  {
    hide Sound, Faithful, GoalKeys, Safe, Next;
    if history != [] {
      assert history[0] in history && SparesCA([history[0]]) && SparesCA(history[1..]);
      NextIsSafe(s, inputs, history[0], before);
      EveryHistoryIsSafe(Next(s, inputs, history[0]), inputs, history[1..], before);
    }
  }

  // ----- Convergence of the whole -----

  /** An invocation nothing outside it stops, on the disk it meets. */
  predicate Unstopped(s: State, inputs: Inputs, i: Invocation)
    requires Sound(inputs.files)
  {
    && Acceptable(i.cfg) && Issuable(s.disk.files, i.cfg) && !CABroken(s.disk.files) && s.disk.budget >= ALL_STEPS
    && i.answers && i.readable
    && Unhindered(inputs.files, inputs.codec,
         Attempt(s.world.budget, RunOf(i, GenerateFrom(s.disk, i.cfg, i.now).0.files, inputs.pem)))
  }

  /** The anchor: the CA certificate on disk. */
  function Anchor(files: Files): Certificate
    requires CAValid(files)
  {
    LoadCAPair(files).value.0
  }

  lemma AnchorIsRead(files: Files, i: Invocation, pem: Certificate -> Bytes)
    requires CAValid(files) && i.readable
    ensures RunOf(i, files, pem) == Run(i.waited, Some(pem(Anchor(files))), i.cfg.webhookHost)
  {}

  lemma SignedByAnchor(d: Disk)
    requires Consistent(d) && Complete(d.files)
    ensures forall a: Artifact | IsLeaf(a) ::
              ReadCert(d.files, CertPath(a)).Some? && ReadCert(d.files, CertPath(a)).value.signer == CAKey(d.files)
  {
    hide CommonNameOf, Serves;
    forall a: Artifact | IsLeaf(a)
      ensures ReadCert(d.files, CertPath(a)).Some? && ReadCert(d.files, CertPath(a)).value.signer == CAKey(d.files)
    {
      assert ValidPair(d.files, a) && CertPath(a) in d.files;
    }
  }

  /** The anchor after the CA step: the one there was, or one that is made. */
  function AnchorAfter(d: Disk, now: int): Certificate {
    if CAValid(d.files) then Anchor(d.files) else NewCACert(PrivateKey(d.nextKey, true), now)
  }

  lemma AnchorComesOut(d: Disk, cfg: Config, now: Clock)
    requires GenerateFrom(d, cfg, now).1.None?
    ensures var files := GenerateFrom(d, cfg, now).0.files; CAValid(files) && Anchor(files) == AnchorAfter(d, now.run)
  {
    GenerateCompletes(d, cfg, now);
    AnchorMade(d, now.run);
    var (d1, files) := (EnsureCA(d, now.run).0, GenerateFrom(d, cfg, now).0.files);
    LeavesSettle(d, cfg, now, Admin);
    CertificateOfCA(d1.files, files);
    hide GenerateFrom, EnsureCA, Issuable;
  }

  lemma AnchorMade(d: Disk, now: int)
    ensures var (d1, ca) := EnsureCA(d, now); ca.Ok? ==> CAValid(d1.files) && Anchor(d1.files) == AnchorAfter(d, now)
  {
    AnchorComes(d, now);
  }

  /** All that an invocation needs to come to its end: an acceptable configuration, a CA
      that is not broken and hosts that can be certified where they have to be; an
      apiserver that answers, CRDs that come up and a CA that can be read; sound files of
      creatable objects; webhook carriers that go through with the anchor as their CA; and
      no managed binding in the store with a roleRef of another make. */
  ghost predicate CanComplete(s: State, inputs: Inputs, i: Invocation) {
    && Acceptable(i.cfg) && !CABroken(s.disk.files) && Issuable(s.disk.files, i.cfg)
    && i.answers && i.waited && i.readable
    && Sound(inputs.files) && (forall o | o in Prepared(inputs.files).value :: Creatable(o))
    && (forall c | c in Prepared(inputs.files).value && CarriesWebhooks(c) ::
          GoesThrough(c, inputs.codec, RewriteTarget(inputs.pem(AnchorAfter(s.disk, i.now.run)), i.cfg.webhookHost)))
    && RefsSafe(GoalKeys(inputs.files), ContentsOf(s.world.store))
  }

  /** The steps and calls an invocation may need. */
  predicate Provided(s: State, inputs: Inputs) {
    s.disk.budget >= ALL_STEPS &&
    (Prepared(inputs.files).Some? ==> s.world.budget >= 9 * |Prepared(inputs.files).value| + 3)
  }

  /** What setup's claim to converge comes to, certificates included. */
  lemma InvocationCompletesExactly(s: State, inputs: Inputs, i: Invocation)
    requires Faithful(inputs.codec) && Provided(s, inputs)
    ensures Invoke(s, inputs, i).1 <==> CanComplete(s, inputs, i)
  {
    var (d, e) := GenerateFrom(s.disk, i.cfg, i.now);
    GenerateCompletes(s.disk, i.cfg, i.now);
    if e.Some? { return; }
    AnchorComesOut(s.disk, i.cfg, i.now);
    var run := RunOf(i, d.files, inputs.pem);
    assert Invoke(s, inputs, i).1 <==> i.answers && SetupRun(s.world, inputs.files, inputs.codec, run).1;
    assert run.waited == i.waited && run.host == i.cfg.webhookHost && (run.ca.Some? ==> i.readable);
    if i.readable { AnchorIsRead(d.files, i, inputs.pem); }
    hide Acceptable, CABroken, Issuable, Sound, Prepared, Creatable, GoesThrough, RewriteTarget, RefsSafe, GoalKeys;
    hide ContentsOf, GenerateFrom, SetupRun, Invoke, RunOf, Complete, CarriesWebhooks, Faithful, CAValid, AnchorAfter;
    SetupCompletesExactly(s.world, inputs.files, inputs.codec, run);
  }

  /** An invocation that reports success, whatever it was granted, leaves the inventory in
      order, every certificate beside its own key, and the store the goal, for the CA on
      disk and the configured host, over what was there. */
  lemma SuccessIsTrue(s: State, inputs: Inputs, i: Invocation)
    requires Invoke(s, inputs, i).1
    ensures Sound(inputs.files)
    ensures var s' := Invoke(s, inputs, i).0;
            var files := s'.disk.files;
            && InOrder(files) && CAValid(files)
            && var run := Run(true, Some(inputs.pem(files[CertPath(CA)].cert)), i.cfg.webhookHost);
               && WebhookBatch(
                    Prepared(inputs.files).value, inputs.codec, RewriteTarget(run.ca.value, run.host)).Some?
               && AllApplied(WebhooksOf(inputs.files, inputs.codec, run))
               && ContentsOf(s'.world.store) ==
                    ContentsOf(s.world.store) + Goal(inputs.files, inputs.codec, run)
  {
    var (d, e) := GenerateFrom(s.disk, i.cfg, i.now);
    CompletedInvocation(s, inputs, i);
    GenerateCompletes(s.disk, i.cfg, i.now);
    var run := RunOf(i, d.files, inputs.pem);
    CompletedStore(s, inputs, i);
    AcceptedExactly(d.files, CA);
    assert CAValid(d.files) && ReadCA(d.files, inputs.pem) == Some(inputs.pem(d.files[CertPath(CA)].cert));
    assert run == Run(i.waited, if i.readable then ReadCA(d.files, inputs.pem) else None, i.cfg.webhookHost);
    hide *;
    SuccessMeansGoal(s.world, inputs.files, inputs.codec, run);
  }

  lemma CompletedStore(s: State, inputs: Inputs, i: Invocation)
    requires Invoke(s, inputs, i).1
    ensures var d := GenerateFrom(s.disk, i.cfg, i.now).0;
            var (w, done) := SetupRun(s.world, inputs.files, inputs.codec, RunOf(i, d.files, inputs.pem));
            done && Invoke(s, inputs, i).0.world == w
  {
    hide GenerateFrom, SetupRun, RunOf;
  }

  /** The subcommand up to its kubeconfigs: what it does to disk and store, and, given the
      steps and calls, exactly when it comes to its end. Whether the CRDs come up is told
      from what the watch shows. */
  method RunSetup(
    dir: StateDir, client: Client, inputs: Inputs, watch: Watch, timeout: int, cfg: Config, now: Clock,
    answers: bool, readable: bool)
    returns (done: bool)
    requires Sleeps(watch)
    modifies dir, client
    ensures var i := Invocation(cfg, now, answers, CRDsComeUp(watch, inputs.files, timeout), readable);
            var s := old(State(dir.View(), client.View()));
            && (State(dir.View(), client.View()), done) == Invoke(s, inputs, i)
            && (Faithful(inputs.codec) && Provided(s, inputs) ==> (done <==> CanComplete(s, inputs, i)))
  {
    hide GenerateFrom, SetupRun, CanComplete, Faithful, Provided, CRDsComeUp;
    ghost var i := Invocation(cfg, now, answers, CRDsComeUp(watch, inputs.files, timeout), readable);
    ghost var s := State(dir.View(), client.View());
    if Faithful(inputs.codec) && Provided(s, inputs) { InvocationCompletesExactly(s, inputs, i); }
    var e := dir.Generate(cfg, now);
    if e.Some? || !answers { return false; }
    var ca := if readable then ReadCA(dir.files, inputs.pem) else None;
    done := Setup.Setup(client, inputs.files, inputs.codec, watch, timeout, ca, cfg.webhookHost);
  }

  /** The state a completed invocation ends in: the inventory complete and anchored, and
      the store the goal, for that anchor and the configured host, over what it was. */
  ghost predicate Settled(before: Held, inputs: Inputs, i: Invocation, calls: nat, s: State)
    requires Sound(inputs.files)
  {
    && Complete(s.disk.files)
    && (forall a: Artifact | IsLeaf(a) :: ReadCert(s.disk.files, CertPath(a)).value.signer == CAKey(s.disk.files))
    && var run := Run(true, Some(inputs.pem(Anchor(s.disk.files))), i.cfg.webhookHost);
       && Unhindered(inputs.files, inputs.codec, Attempt(calls, run))
       && AllApplied(WebhooksOf(inputs.files, inputs.codec, run))
       && ContentsOf(s.world.store) == before + Goal(inputs.files, inputs.codec, run)
  }

  lemma DiskSettles(d: Disk, cfg: Config, now: Clock)
    requires Consistent(d) && Acceptable(cfg) && Issuable(d.files, cfg) && !CABroken(d.files)
    requires d.budget >= ALL_STEPS
    ensures var (d', e) := GenerateFrom(d, cfg, now);
            && e.None? && Complete(d'.files)
            && forall a: Artifact | IsLeaf(a) ::
                 var cert := ReadCert(d'.files, CertPath(a));
                 cert.Some? && cert.value.signer == CAKey(d'.files)
  {
    hide Consistent;
    GenerateCompletes(d, cfg, now);
    GenerateStaysConsistent(d, cfg, now);
    hide GenerateFrom, Complete, CABroken, Issuable;
    SignedByAnchor(GenerateFrom(d, cfg, now).0);
  }

  lemma StoreSettles(w: World, inputs: Inputs, run: Run, before: Held)
    requires Sound(inputs.files) && Faithful(inputs.codec)
    requires Unhindered(inputs.files, inputs.codec, Attempt(w.budget, run))
    requires RefsSafe(GoalKeys(inputs.files), before) && Moves(GoalKeys(inputs.files), before, ContentsOf(w.store))
    ensures AllApplied(WebhooksOf(inputs.files, inputs.codec, run))
    ensures var (w', done) := SetupRun(w, inputs.files, inputs.codec, run);
            done && ContentsOf(w'.store) == before + Goal(inputs.files, inputs.codec, run)
  {
    var a, goal := Attempt(w.budget, run), GoalKeys(inputs.files);
    hide Sound, Faithful, Unhindered, GoalKeys, Moves, RefsSafe, SetupRun, Goal, ContentsOf, WebhooksOf;
    MovesKeepRefs(goal, before, ContentsOf(w.store));
    UnhinderedRun(w, inputs.files, inputs.codec, a);
    WebhookBatchApplies(inputs.files, inputs.codec, a);
    OverrideForgets(goal, before, ContentsOf(w.store), Goal(inputs.files, inputs.codec, run));
  }

  lemma SettledByParts(before: Held, inputs: Inputs, i: Invocation, calls: nat, s: State)
    requires Sound(inputs.files) && Complete(s.disk.files) && CAValid(s.disk.files)
    requires forall a: Artifact | IsLeaf(a) ::
               var cert := ReadCert(s.disk.files, CertPath(a));
               cert.Some? && cert.value.signer == CAKey(s.disk.files)
    requires var run := Run(true, Some(inputs.pem(Anchor(s.disk.files))), i.cfg.webhookHost);
             && Unhindered(inputs.files, inputs.codec, Attempt(calls, run))
             && WebhookBatch(Prepared(inputs.files).value, inputs.codec, RewriteTarget(run.ca.value, run.host)).Some?
             && AllApplied(WebhooksOf(inputs.files, inputs.codec, run))
             && ContentsOf(s.world.store) == before + Goal(inputs.files, inputs.codec, run)
    ensures Settled(before, inputs, i, calls, s)
  {
    hide Sound, Unhindered, WebhooksOf, Goal, ContentsOf, Complete, ReadCert, CAKey;
  }

  lemma UnstoppedInvocation(s: State, inputs: Inputs, i: Invocation, before: Held)
    requires Sound(inputs.files) && Faithful(inputs.codec) && Unstopped(s, inputs, i)
    requires Safe(GoalKeys(inputs.files), before, s) && RefsSafe(GoalKeys(inputs.files), before)
    ensures var (s', done) := Invoke(s, inputs, i); done && Settled(before, inputs, i, s.world.budget, s')
  {
    var d := GenerateFrom(s.disk, i.cfg, i.now).0;
    DiskSettles(s.disk, i.cfg, i.now);
    var run := RunOf(i, d.files, inputs.pem);
    assert Unhindered(inputs.files, inputs.codec, Attempt(s.world.budget, run)) && i.waited && i.readable;
    assert CAValid(d.files);
    AnchorIsRead(d.files, i, inputs.pem);
    var (w', done) := SetupRun(s.world, inputs.files, inputs.codec, run);
    assert Invoke(s, inputs, i) == (State(d, w'), done);
    assert Moves(GoalKeys(inputs.files), before, ContentsOf(s.world.store));
    hide *;
    StoreSettles(s.world, inputs, run, before);
    SettledByParts(before, inputs, i, s.world.budget, Invoke(s, inputs, i).0);
  }

  /** Convergence of the whole subcommand. From an empty directory and a store without
      foreign roleRefs under managed keys, after any history of invocations, each cut on
      the disk or at any call, and of damage that spares the CA: one that nothing stops
      completes; it leaves the inventory complete, every leaf signed by the CA on disk,
      and the store as it was before it all overridden by the goal for that CA and the
      configured host. */
  lemma SubcommandConverges(
    w: World, inputs: Inputs, history: seq<Happening>, steps: nat, calls: nat, last: Invocation)
    requires Sound(inputs.files) && Faithful(inputs.codec) && SparesCA(history)
    requires RefsSafe(GoalKeys(inputs.files), ContentsOf(w.store))
    requires Unstopped(Granted(AfterHistory(State(Disk(map[], 0, 0), w), inputs, history), steps, calls), inputs, last)
    ensures var s := Granted(AfterHistory(State(Disk(map[], 0, 0), w), inputs, history), steps, calls);
            var (s', done) := Invoke(s, inputs, last);
            done && Settled(ContentsOf(w.store), inputs, last, calls, s')
  {
    var start := State(Disk(map[], 0, 0), w);
    var goal, before := GoalKeys(inputs.files), ContentsOf(w.store);
    StartsSafe(w, goal);
    hide *;
    EveryHistoryIsSafe(start, inputs, history, before);
    var s := AfterHistory(start, inputs, history);
    GrantedIsSafe(goal, before, s, steps, calls);
    UnstoppedInvocation(Granted(s, steps, calls), inputs, last, before);
  }

  lemma StartsSafe(w: World, goal: Held)
    ensures Safe(goal, ContentsOf(w.store), State(Disk(map[], 0, 0), w))
  {
    hide ContentsOf;
    Unmoved(goal, ContentsOf(w.store));
  }

  lemma GrantedIsSafe(goal: Held, before: Held, s: State, steps: nat, calls: nat)
    requires Safe(goal, before, s)
    ensures Safe(goal, before, Granted(s, steps, calls)) && Granted(s, steps, calls).world.budget == calls
  {
    hide Consistent, Moves, ContentsOf;
    BudgetIsNoMatter(s.disk, steps);
  }

  /** What lies in the store under the key of a webhook carrier, once settled: the carrier
      with rewritten clientConfigs, all with the anchor as their CA. */
  lemma StoredWebhooksCarryAnchor(before: Held, inputs: Inputs, i: Invocation, calls: nat, s: State, k: nat)
    requires Sound(inputs.files) && Faithful(inputs.codec) && Settled(before, inputs, i, calls, s)
    requires k < |Carriers(Prepared(inputs.files).value)|
    ensures var c := Carriers(Prepared(inputs.files).value)[k];
            StoredAsRewritten(c, inputs, i.cfg.webhookHost, Anchor(s.disk.files), ContentsOf(s.world.store))
  {
    var run := Run(true, Some(inputs.pem(Anchor(s.disk.files))), i.cfg.webhookHost);
    var a, t := Attempt(calls, run), RewriteTarget(run.ca.value, run.host);
    var kept, c := Prepared(inputs.files).value, Carriers(Prepared(inputs.files).value)[k];
    assert WebhookBatch(kept, inputs.codec, t).Some? && c in Carriers(kept);
    assert WebhooksOf(inputs.files, inputs.codec, run) == WebhookBatch(kept, inputs.codec, t).value;
    assert ContentsOf(s.world.store) == before + Goal(inputs.files, inputs.codec, run);
    hide *;
    TargetsCA(run.ca.value, run.host);
    WebhookBatchIsRewritten(kept, inputs.codec, t, k);
    GoalAtWebhook(inputs.files, inputs.codec, a, k);
    WebhooksKeepKeys(kept, inputs.codec, t, k);
    StoredByParts(c, inputs, i.cfg.webhookHost, Anchor(s.disk.files), ContentsOf(s.world.store));
  }

  /** The store holds the carrier under its own key, encoded from its typed form with the
      clientConfigs rewritten for this CA and host. */
  ghost predicate StoredAsRewritten(c: Object, inputs: Inputs, host: string, anchor: Certificate, held: Held) {
    && inputs.codec.decode(c).Some? && Applied(Kind(c))
    && var o := RewriteObject(inputs.codec.decode(c).value, RewriteTarget(inputs.pem(anchor), host)).0;
       && (forall cc | cc in Configs(o) :: cc.url.Some? && cc.caBundle == inputs.pem(anchor))
       && inputs.codec.encode(o).Some?
       && KeyOf(c) in held && held[KeyOf(c)] == Content(inputs.codec.encode(o).value)
  }

  lemma StoredByParts(c: Object, inputs: Inputs, host: string, anchor: Certificate, held: Held)
    requires inputs.codec.decode(c).Some? && Applied(Kind(c))
    requires var o := RewriteObject(inputs.codec.decode(c).value, RewriteTarget(inputs.pem(anchor), host)).0;
             && (forall cc | cc in Configs(o) :: cc.url.Some? && cc.caBundle == inputs.pem(anchor))
             && inputs.codec.encode(o).Some?
             && KeyOf(c) in held && held[KeyOf(c)] == Content(inputs.codec.encode(o).value)
    ensures StoredAsRewritten(c, inputs, host, anchor, held)
  {
    hide RewriteObject, RewriteTarget, Configs, Content, KeyOf, Applied;
  }

  lemma TargetsCA(caPEM: Bytes, host: string)
    ensures RewriteTarget(caPEM, host).caPEM == caPEM
  {}

  /** What makes the webhooks of a cluster work after an invocation that nothing stops:
      each carrier lies in the store with its clientConfigs pointed at loopback or the
      configured host and the CA on disk as their CA; that CA signed every certificate they
      are served with; and the external server's certificate names the configured host
      exactly if the invocation issued it or found one that did. */
  lemma WebhooksAndTheirServers(
    w: World, inputs: Inputs, history: seq<Happening>, steps: nat, calls: nat, last: Invocation)
    requires Sound(inputs.files) && Faithful(inputs.codec) && SparesCA(history)
    requires RefsSafe(GoalKeys(inputs.files), ContentsOf(w.store))
    requires Unstopped(Granted(AfterHistory(State(Disk(map[], 0, 0), w), inputs, history), steps, calls), inputs, last)
    ensures var s := Granted(AfterHistory(State(Disk(map[], 0, 0), w), inputs, history), steps, calls);
            var s' := Invoke(s, inputs, last).0;
            var files := s'.disk.files;
            && CAValid(files)
            && (forall k | 0 <= k < |Carriers(Prepared(inputs.files).value)| ::
                  StoredAsRewritten(
                    Carriers(Prepared(inputs.files).value)[k], inputs, last.cfg.webhookHost, Anchor(files),
                    ContentsOf(s'.world.store)))
            && (forall a | a in {CoreWebhook, CABPKWebhook, KCPWebhook, CAPDWebhook, HypervisorWebhook} ::
                  ValidPair(files, a) && ReadCert(files, CertPath(a)).value.signer == CAKey(files))
            && (last.cfg.webhookHost != "" ==>
                  (NamesHost(files, last.cfg.webhookHost) <==>
                   ValidPair(s.disk.files, HypervisorWebhook) ==> NamesHost(s.disk.files, last.cfg.webhookHost)))
  {
    var s := Granted(AfterHistory(State(Disk(map[], 0, 0), w), inputs, history), steps, calls);
    SubcommandConverges(w, inputs, history, steps, calls, last);
    var s' := Invoke(s, inputs, last).0;
    CompletedInvocation(s, inputs, last);
    ServersAreSigned(s'.disk.files);
    hide *;
    forall k | 0 <= k < |Carriers(Prepared(inputs.files).value)|
      ensures StoredAsRewritten(
                Carriers(Prepared(inputs.files).value)[k], inputs, last.cfg.webhookHost, Anchor(s'.disk.files),
                ContentsOf(s'.world.store))
    {
      StoredWebhooksCarryAnchor(ContentsOf(w.store), inputs, last, calls, s', k);
    }
    if last.cfg.webhookHost != "" { WebhookHostNamedExactly(s.disk, last.cfg, last.now); }
  }

  lemma CompletedInvocation(s: State, inputs: Inputs, i: Invocation)
    requires Invoke(s, inputs, i).1
    ensures GenerateFrom(s.disk, i.cfg, i.now).1.None?
    ensures Invoke(s, inputs, i).0.disk == GenerateFrom(s.disk, i.cfg, i.now).0
  {
    hide GenerateFrom, SetupRun;
  }

  lemma ServersAreSigned(files: Files)
    requires Complete(files)
    requires forall a: Artifact | IsLeaf(a) :: ReadCert(files, CertPath(a)).value.signer == CAKey(files)
    ensures CAValid(files)
    ensures forall a | a in {CoreWebhook, CABPKWebhook, KCPWebhook, CAPDWebhook, HypervisorWebhook} ::
              ValidPair(files, a) && ReadCert(files, CertPath(a)).value.signer == CAKey(files)
  {}

  /** And invoking it again, at any time and under any configuration that names the same
      host, writes no file, not even given a step to do so, and changes no content. */
  lemma SecondInvocationChangesNothing(
    before: Held, inputs: Inputs, i: Invocation, calls: nat, s: State, again: Invocation)
    requires Sound(inputs.files) && Faithful(inputs.codec) && Settled(before, inputs, i, calls, s)
    requires Acceptable(again.cfg) && again.cfg.webhookHost == i.cfg.webhookHost
    requires again.answers && again.waited && again.readable && RefsSafe(GoalKeys(inputs.files), before)
    ensures var (s', done) := Invoke(Granted(s, 0, calls), inputs, again);
            done && s'.disk == s.disk.(budget := 0) && ContentsOf(s'.world.store) == ContentsOf(s.world.store)
  {
    var s0 := Granted(s, 0, calls);
    NothingToWriteExactly(s0.disk, again.cfg, again.now);
    AnchorIsRead(s.disk.files, again, inputs.pem);
    var run := Run(true, Some(inputs.pem(Anchor(s.disk.files))), i.cfg.webhookHost);
    assert Invoke(s0, inputs, again).0 == State(s0.disk, SetupRun(s0.world, inputs.files, inputs.codec, run).0);
    assert Invoke(s0, inputs, again).1 == SetupRun(s0.world, inputs.files, inputs.codec, run).1;
    assert ContentsOf(s0.world.store) == before + Goal(inputs.files, inputs.codec, run);
    hide *;
    StoreStays(s0.world, inputs, Attempt(calls, run), before);
  }

  lemma StoreStays(w: World, inputs: Inputs, a: Attempt, before: Held)
    requires Sound(inputs.files) && Faithful(inputs.codec) && Unhindered(inputs.files, inputs.codec, a)
    requires RefsSafe(GoalKeys(inputs.files), before) && w.budget == a.budget
    requires AllApplied(WebhooksOf(inputs.files, inputs.codec, a.run))
    requires ContentsOf(w.store) == before + Goal(inputs.files, inputs.codec, a.run)
    ensures var (w', done) := SetupRun(w, inputs.files, inputs.codec, a.run);
            done && ContentsOf(w'.store) == ContentsOf(w.store)
  {
    var g := Goal(inputs.files, inputs.codec, a.run);
    hide *;
    GoalIsSafe(inputs, a, before);
    UnhinderedRun(w, inputs.files, inputs.codec, a);
    OverrideTwice(before, g);
  }

  lemma OverrideTwice(before: Held, g: Held)
    ensures before + g + g == before + g
  {}

  lemma GoalIsSafe(inputs: Inputs, a: Attempt, before: Held)
    requires Sound(inputs.files) && Faithful(inputs.codec) && Unhindered(inputs.files, inputs.codec, a)
    requires RefsSafe(GoalKeys(inputs.files), before)
    ensures AllApplied(WebhooksOf(inputs.files, inputs.codec, a.run))
    ensures RefsSafe(GoalKeys(inputs.files), before + Goal(inputs.files, inputs.codec, a.run))
  {
    WebhooksStay(Prepared(inputs.files).value, inputs.codec, RewriteTarget(a.run.ca.value, a.run.host));
    var qs := Requests(WebhooksOf(inputs.files, inputs.codec, a.run));
    OverlayStays(GoalKeys(inputs.files), qs);
    hide Sound, Faithful, Unhindered, GoalKeys, WebhooksOf;
  }
}
