/** Whose certificates the live permissions belong to: the holder of a manager's client
    certificate is the User the rewritten bindings name. */
module Identities {
  import opened Wrappers
  import opened Objects
  import opened Apply
  import opened ApiServer
  import opened RbacMeaning
  import opened Setup
  import opened Convergence
  import opened LivePermissions
  import opened Pki
  import opened PkiLaws
  import opened PkiCompletion
  import opened Subcommand

  /** The manager that serves each provider namespace. */
  function ManagerOf(namespace: string): Option<Artifact> {
    match namespace
    case "capi-system" => Some(CoreManager)
    case "capi-kubeadm-bootstrap-system" => Some(CABPKManager)
    case "capi-kubeadm-control-plane-system" => Some(KCPManager)
    case "capd-system" => Some(CAPDManager)
    case "hypervisor-system" => Some(HypervisorManager)
    case _ => None
  }

  /** The table names for each namespace the common name of its manager's certificate, and
      nobody for any other; a common name belongs to one artifact. */
  lemma TableNamesCertificates(namespace: string)
    ensures namespace in MANAGER_CN_BY_NAMESPACE <==> ManagerOf(namespace).Some?
    ensures ManagerOf(namespace).Some? ==>
              MANAGER_CN_BY_NAMESPACE[namespace] == CommonNameOf(ManagerOf(namespace).value)
  {}

  /** A common name belongs to one artifact. */
  lemma NamesTellApart(a: Artifact, b: Artifact)
    requires CommonNameOf(a) == CommonNameOf(b)
    ensures a == b
  {}

  lemma AdminIsCertified()
    ensures ADMIN_CN == CommonNameOf(Admin)
  {}

  lemma ManagersTellApart(namespace: string, other: string)
    requires ManagerOf(namespace).Some? && ManagerOf(other) == ManagerOf(namespace)
    ensures other == namespace
  {}

  /** Which certificate a manager's permissions come with: after any history and an
      invocation that nothing stops, the client certificate on disk of a provider
      namespace's manager, signed by the CA on disk, bears the User that may do what the
      namespace's ServiceAccounts might under aggregation, and beyond it only what the
      manifests or foreign bindings give that User themselves. */
  lemma ManagersActAsTheirAccounts(
    w: World, inputs: Inputs, history: seq<Happening>, steps: nat, calls: nat, last: Invocation,
    foreign: seq<Object>, live: seq<Object>, namespace: string, reach: Reach, rule: Value)
    requires Sound(inputs.files) && Faithful(inputs.codec) && SparesCA(history) && ManagerOf(namespace).Some?
    requires RefsSafe(GoalKeys(inputs.files), ContentsOf(w.store))
    requires AreForeign(foreign, ContentsOf(w.store), GoalKeys(inputs.files))
    requires Unstopped(Granted(AfterHistory(State(Disk(map[], 0, 0), w), inputs, history), steps, calls), inputs, last)
    requires var s := Granted(AfterHistory(State(Disk(map[], 0, 0), w), inputs, history), steps, calls);
             forall o :: o in live <==> o in ContentsOf(Invoke(s, inputs, last).0.world.store).Values
    requires var kept := Prepared(inputs.files).value;
             ShellsAreConcrete(foreign + kept, kept) && AccountsAreNamed(kept)
    ensures var s := Granted(AfterHistory(State(Disk(map[], 0, 0), w), inputs, history), steps, calls);
            var files := Invoke(s, inputs, last).0.disk.files;
            var kept := Prepared(inputs.files).value;
            var cluster := foreign + kept;
            && KeysMatch(files, CA) && KeysMatch(files, ManagerOf(namespace).value)
            && var cert := files[CertPath(ManagerOf(namespace).value)].cert;
               && cert.signer == files[KeyPath(CA)].key.id && !cert.server
               && (Permitted(live, false, User(cert.commonName), reach, rule) <==>
                   || (exists name :: PermittedBy(cluster, true, kept, Account(namespace, name), reach, rule))
                   || PermittedBy(cluster, true, kept, User(cert.commonName), reach, rule)
                   || PermittedBy(cluster, false, foreign, User(cert.commonName), reach, rule))
  {
    var s := Granted(AfterHistory(State(Disk(map[], 0, 0), w), inputs, history), steps, calls);
    var s', a := Invoke(s, inputs, last).0, ManagerOf(namespace).value;
    var u := CommonNameOf(a);
    ManagersAreLeaves(namespace);
    CertificatesAreNamed(w, inputs, history, steps, calls, last, a);
    LiveAfter(w, inputs, history, steps, calls, last, foreign, live, User(u), reach, rule);
    hide *;
    AccountsOfManager(foreign + Prepared(inputs.files).value, Prepared(inputs.files).value, namespace, reach, rule);
  }

  lemma ManagersAreLeaves(namespace: string)
    requires ManagerOf(namespace).Some?
    ensures IsLeaf(ManagerOf(namespace).value) && !Serves(ManagerOf(namespace).value)
    ensures ManagerOf(namespace).value != Admin
  {}

  /** What the table makes of a manager's common name: its namespace's accounts. */
  lemma AccountsOfManager(
    roles: seq<Object>, bindings: seq<Object>, namespace: string, reach: Reach, rule: Value)
    requires ManagerOf(namespace).Some?
    ensures var u := CommonNameOf(ManagerOf(namespace).value);
            && User(u) != User(ADMIN_CN)
            && (PermittedAsManager(roles, bindings, MANAGER_CN_BY_NAMESPACE, User(u), reach, rule) <==>
                || PermittedBy(roles, true, bindings, User(u), reach, rule)
                || exists name :: PermittedBy(roles, true, bindings, Account(namespace, name), reach, rule))
  {
    var u, cn := CommonNameOf(ManagerOf(namespace).value), MANAGER_CN_BY_NAMESPACE;
    AdminIsCertified();
    ManagersAreLeaves(namespace);
    if u == ADMIN_CN { NamesTellApart(ManagerOf(namespace).value, Admin); }
    forall ns ensures ns in cn && cn[ns] == u <==> ns == namespace {
      TableNamesCertificates(ns);
      TableNamesCertificates(namespace);
      if ns in cn && cn[ns] == u {
        NamesTellApart(ManagerOf(ns).value, ManagerOf(namespace).value);
        ManagersTellApart(namespace, ns);
      }
    }
    hide PermittedBy, CommonNameOf, ManagerOf, MANAGER_CN_BY_NAMESPACE;
  }

  /** The certificates an unstopped invocation leaves bear their names. */
  lemma CertificatesAreNamed(
    w: World, inputs: Inputs, history: seq<Happening>, steps: nat, calls: nat, last: Invocation, a: Artifact)
    requires Sound(inputs.files) && Faithful(inputs.codec) && SparesCA(history) && IsLeaf(a)
    requires RefsSafe(GoalKeys(inputs.files), ContentsOf(w.store))
    requires Unstopped(Granted(AfterHistory(State(Disk(map[], 0, 0), w), inputs, history), steps, calls), inputs, last)
    ensures var s := Granted(AfterHistory(State(Disk(map[], 0, 0), w), inputs, history), steps, calls);
            var files := Invoke(s, inputs, last).0.disk.files;
            && KeysMatch(files, CA) && KeysMatch(files, a)
            && var cert := files[CertPath(a)].cert;
               && cert.signer == files[KeyPath(CA)].key.id && cert.commonName == CommonNameOf(a)
               && cert.server == Serves(a)
  {
    var start := State(Disk(map[], 0, 0), w);
    var h := AfterHistory(start, inputs, history);
    var s := Granted(h, steps, calls);
    var goal, before := GoalKeys(inputs.files), ContentsOf(w.store);
    StartsSafe(w, goal);
    SubcommandConverges(w, inputs, history, steps, calls, last);
    CompletedInvocation(s, inputs, last);
    assert Complete(Invoke(s, inputs, last).0.disk.files);
    hide *;
    EveryHistoryIsSafe(start, inputs, history, before);
    GrantedIsSafe(goal, before, h, steps, calls);
    DiskStaysConsistent(goal, before, s, last.cfg, last.now);
    NamedInOrder(GenerateFrom(s.disk, last.cfg, last.now).0, a);
  }

  lemma DiskStaysConsistent(goal: Held, before: Held, s: State, cfg: Config, now: Clock)
    requires Safe(goal, before, s)
    ensures PkiLaws.Consistent(GenerateFrom(s.disk, cfg, now).0)
  {
    hide Moves, PkiLaws.Consistent, GenerateFrom;
    GenerateStaysConsistent(s.disk, cfg, now);
  }

  lemma NamedInOrder(d: Disk, a: Artifact)
    requires PkiLaws.Consistent(d) && Complete(d.files) && IsLeaf(a)
    ensures KeysMatch(d.files, CA) && KeysMatch(d.files, a)
    ensures var cert := d.files[CertPath(a)].cert;
            && cert.signer == d.files[KeyPath(CA)].key.id && cert.commonName == CommonNameOf(a)
            && cert.server == Serves(a)
  {
    hide CommonNameOf, Serves;
    AnchorExactly(d.files);
    AcceptedExactly(d.files, a);
    assert FileSound(CertPath(a), d.files[CertPath(a)], CAKey(d.files));
  }

  /** What the live store permits after an unstopped invocation. */
  lemma LiveAfter(
    w: World, inputs: Inputs, history: seq<Happening>, steps: nat, calls: nat, last: Invocation,
    foreign: seq<Object>, live: seq<Object>, who: Who, reach: Reach, rule: Value)
    requires Sound(inputs.files) && Faithful(inputs.codec) && SparesCA(history)
    requires RefsSafe(GoalKeys(inputs.files), ContentsOf(w.store))
    requires AreForeign(foreign, ContentsOf(w.store), GoalKeys(inputs.files))
    requires Unstopped(Granted(AfterHistory(State(Disk(map[], 0, 0), w), inputs, history), steps, calls), inputs, last)
    requires var s := Granted(AfterHistory(State(Disk(map[], 0, 0), w), inputs, history), steps, calls);
             forall o :: o in live <==> o in ContentsOf(Invoke(s, inputs, last).0.world.store).Values
    requires var kept := Prepared(inputs.files).value;
             ShellsAreConcrete(foreign + kept, kept) && AccountsAreNamed(kept)
    ensures var kept := Prepared(inputs.files).value;
            Permitted(live, false, who, reach, rule) <==>
            || PermittedBy(foreign + kept, false, foreign, who, reach, rule)
            || PermittedAsManager(foreign + kept, kept, MANAGER_CN_BY_NAMESPACE, who, reach, rule)
            || (who == User(ADMIN_CN) && reach == ClusterWide && OwnRule(foreign + kept, "cluster-admin", rule))
  {
    var s := Granted(AfterHistory(State(Disk(map[], 0, 0), w), inputs, history), steps, calls);
    SubcommandConverges(w, inputs, history, steps, calls, last);
    var s' := Invoke(s, inputs, last).0;
    var run := Run(true, Some(inputs.pem(Anchor(s'.disk.files))), last.cfg.webhookHost);
    assert Unhindered(inputs.files, inputs.codec, Attempt(calls, run));
    assert AllApplied(WebhooksOf(inputs.files, inputs.codec, run));
    assert ContentsOf(s'.world.store) == ContentsOf(w.store) + Goal(inputs.files, inputs.codec, run);
    hide *;
    GoalPermissions(
      inputs.files, inputs.codec, Attempt(calls, run), ContentsOf(w.store), foreign, live, who, reach, rule);
  }

  /** And the admin's client certificate bears the User that cluster-admin is bound to. */
  lemma AdminHoldsClusterAdmin(
    w: World, inputs: Inputs, history: seq<Happening>, steps: nat, calls: nat, last: Invocation,
    foreign: seq<Object>, live: seq<Object>, rule: Value)
    requires Sound(inputs.files) && Faithful(inputs.codec) && SparesCA(history)
    requires RefsSafe(GoalKeys(inputs.files), ContentsOf(w.store))
    requires AreForeign(foreign, ContentsOf(w.store), GoalKeys(inputs.files))
    requires Unstopped(Granted(AfterHistory(State(Disk(map[], 0, 0), w), inputs, history), steps, calls), inputs, last)
    requires var s := Granted(AfterHistory(State(Disk(map[], 0, 0), w), inputs, history), steps, calls);
             forall o :: o in live <==> o in ContentsOf(Invoke(s, inputs, last).0.world.store).Values
    requires var kept := Prepared(inputs.files).value;
             ShellsAreConcrete(foreign + kept, kept) && AccountsAreNamed(kept)
    requires OwnRule(foreign + Prepared(inputs.files).value, "cluster-admin", rule)
    ensures var s := Granted(AfterHistory(State(Disk(map[], 0, 0), w), inputs, history), steps, calls);
            var files := Invoke(s, inputs, last).0.disk.files;
            && KeysMatch(files, CA) && KeysMatch(files, Admin)
            && var cert := files[CertPath(Admin)].cert;
               && cert.signer == files[KeyPath(CA)].key.id && !cert.server
               && Permitted(live, false, User(cert.commonName), ClusterWide, rule)
  {
    AdminIsClient();
    hide *;
    CertificatesAreNamed(w, inputs, history, steps, calls, last, Admin);
    LiveAfter(w, inputs, history, steps, calls, last, foreign, live, User(ADMIN_CN), ClusterWide, rule);
  }

  lemma AdminIsClient()
    ensures IsLeaf(Admin) && !Serves(Admin) && ADMIN_CN == CommonNameOf(Admin)
  {
    AdminIsCertified();
  }
}
