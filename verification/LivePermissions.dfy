/** End to end: what the bindings in the live store permit after setup. */
module LivePermissions {
  import opened Wrappers
  import opened Objects
  import opened Manifests
  import opened ApiServer
  import opened Apply
  import opened ApplyLaws
  import opened Loading
  import opened Rbac
  import opened RbacMeaning
  import opened Setup
  import opened Convergence

  predicate IsRbac(o: Object) { IsBinding(o) || Kind(o) == CLUSTER_ROLE || Kind(o) == ROLE }

  // ----- Permissions do not depend on resourceVersions -----

  lemma ContentKeepsMeaning(o: Object)
    ensures var c := Content(o);
            && Kind(c) == Kind(o) && Name(c) == Name(o) && Namespace(c) == Namespace(o)
            && Rules(c) == Rules(o) && Subjects(c) == Subjects(o)
            && RefKind(c) == RefKind(o) && RefName(c) == RefName(o)
  {
    assert "kind"[0] == 'k' && "metadata"[0] == 'm' && "rules"[0] == 'r' && "roleRef"[0] == 'r' && "subjects"[0] == 's';
    assert "resourceVersion"[0] == 'r' && "name"[0] == 'n' && "namespace"[0] == 'n';
  }

  /** Every RBAC object of a is in b, resourceVersions aside. */
  ghost predicate Covers(b: seq<Object>, a: seq<Object>) {
    forall o | o in a && IsRbac(o) :: exists p | p in b :: Content(p) == Content(o)
  }

  lemma AlikeMeans(o: Object, p: Object)
    requires Content(p) == Content(o)
    ensures && Kind(p) == Kind(o) && Name(p) == Name(o) && Namespace(p) == Namespace(o) && Rules(p) == Rules(o)
            && Subjects(p) == Subjects(o) && RefKind(p) == RefKind(o) && RefName(p) == RefName(o)
  {
    ContentKeepsMeaning(o);
    ContentKeepsMeaning(p);
  }

  lemma RulesCovered(b: seq<Object>, a: seq<Object>, namespace: string, name: string, rule: Value)
    requires Covers(b, a)
    ensures OwnRule(a, name, rule) ==> OwnRule(b, name, rule)
    ensures RoleRule(a, namespace, name, rule) ==> RoleRule(b, namespace, name, rule)
  {
    hide Content, Kind, Name, Namespace, Rules;
    forall o | o in a && IsRbac(o)
      ensures exists p | p in b ::
                Kind(p) == Kind(o) && Name(p) == Name(o) && Namespace(p) == Namespace(o) && Rules(p) == Rules(o)
    {
      var p :| p in b && Content(p) == Content(o);
      AlikeMeans(o, p);
    }
  }

  lemma PermissionsCovered(b: seq<Object>, a: seq<Object>, who: Who, reach: Reach, rule: Value)
    requires Covers(b, a) && Permitted(a, false, who, reach, rule)
    ensures Permitted(b, false, who, reach, rule)
  {
    var o :| o in a && Binds(o, who) && Grants(a, false, o, reach, rule);
    var p :| p in b && Content(p) == Content(o);
    AlikeMeans(o, p);
    RulesCovered(b, a, Namespace(o), RefName(o), rule);
    hide Covers, Content, OwnRule, RoleRule, Kind, Namespace, RefName, RefKind, Subjects, IsRbac;
    assert Binds(p, who) && Grants(b, false, p, reach, rule);
  }

  // ----- The RBAC objects of the goal -----

  /** The RBAC objects of the goal are those of the second batch. */
  lemma GoalRbacObjects(files: seq<ManifestFile>, codec: Codec, a: Attempt, o: Object)
    requires Sound(files) && Faithful(codec) && Unhindered(files, codec, a) && IsRbac(o)
    ensures AllApplied(WebhooksOf(files, codec, a.run))
    ensures o in Goal(files, codec, a.run).Values ==>
              exists p | p in RbacBatch(Prepared(files).value).value :: Content(p) == o
    ensures o in RbacBatch(Prepared(files).value).value ==> Content(o) in Goal(files, codec, a.run).Values
  {
    WebhookBatchApplies(files, codec, a);
    var rbac, goal := RbacBatch(Prepared(files).value).value, Goal(files, codec, a.run);
    hide Sound, Faithful, Unhindered, RbacBatch, WebhooksOf, IsRbac, Goal, GoalKeys, Content;
    if k :| k in goal && goal[k] == o { RbacOnlyFromBatch(files, codec, a, k, o); }
    if j :| 0 <= j < |rbac| && rbac[j] == o { RbacFromBatch(files, codec, a, j); }
  }

  lemma RbacOnlyFromBatch(files: seq<ManifestFile>, codec: Codec, a: Attempt, k: Key, o: Object)
    requires Sound(files) && Faithful(codec) && Unhindered(files, codec, a) && IsRbac(o)
    requires AllApplied(WebhooksOf(files, codec, a.run))
    requires k in Goal(files, codec, a.run) && Goal(files, codec, a.run)[k] == o
    ensures exists p | p in RbacBatch(Prepared(files).value).value :: Content(p) == o
  {
    var rbac := RbacBatch(Prepared(files).value).value;
    WebhookBatchApplies(files, codec, a);
    AcceptedKeysDistinct(rbac);
    var qs := Requests(rbac);
    assert k in Overlay(qs);
    var j :| 0 <= j < |qs| && qs[j].key == k;
    RbacAtKey(files, codec, a, j, o);
  }

  lemma RbacFromBatch(files: seq<ManifestFile>, codec: Codec, a: Attempt, j: nat)
    requires Sound(files) && Faithful(codec) && Unhindered(files, codec, a)
    requires j < |RbacBatch(Prepared(files).value).value| && IsRbac(RbacBatch(Prepared(files).value).value[j])
    ensures AllApplied(WebhooksOf(files, codec, a.run))
    ensures Content(RbacBatch(Prepared(files).value).value[j]) in Goal(files, codec, a.run).Values
  {
    var o := RbacBatch(Prepared(files).value).value[j];
    GoalAtOther(files, codec, a, j);
    var webhooks, goal := WebhooksOf(files, codec, a.run), Goal(files, codec, a.run);
    hide *;
    forall p | p in webhooks ensures KeyOf(p) != KeyOf(o) { WebhookKeyIsNoRbacKey(files, codec, a, p, o); }
    assert goal[KeyOf(o)] == Content(o);
  }

  lemma WebhookKeyIsNoRbacKey(files: seq<ManifestFile>, codec: Codec, a: Attempt, p: Object, o: Object)
    requires Sound(files) && Faithful(codec) && Unhindered(files, codec, a)
    requires p in WebhooksOf(files, codec, a.run) && Applied(Kind(o)) && IsRbac(o)
    ensures Applied(Kind(p)) && !IsRbac(p) && KeyOf(p) != KeyOf(o)
  {
    var kept := Prepared(files).value;
    KeptAccepted(kept);
    WebhooksAccepted(kept, codec, RewriteTarget(a.run.ca.value, a.run.host));
    var c :| c in kept && SameIdentity(c, p) && CarriesWebhooks(c);
    CarriersAreNoRbac(c);
    KeysTellKindScopeName(p, o);
  }

  lemma CarriersAreNoRbac(o: Object)
    requires CarriesWebhooks(o)
    ensures !IsRbac(o)
  {}

  /** Under the key of an object of the second batch the goal holds an RBAC object
      only if it is that object. */
  lemma RbacAtKey(files: seq<ManifestFile>, codec: Codec, a: Attempt, j: nat, o: Object)
    requires Sound(files) && Faithful(codec) && Unhindered(files, codec, a) && IsRbac(o)
    requires j < |RbacBatch(Prepared(files).value).value|
    requires AllApplied(RbacBatch(Prepared(files).value).value) && AllApplied(WebhooksOf(files, codec, a.run))
    requires var k := KeyOf(RbacBatch(Prepared(files).value).value[j]);
             k in Goal(files, codec, a.run) && Goal(files, codec, a.run)[k] == o
    ensures o == Content(RbacBatch(Prepared(files).value).value[j])
  {
    var r, webhooks := RbacBatch(Prepared(files).value).value[j], WebhooksOf(files, codec, a.run);
    if p :| p in webhooks && KeyOf(p) == KeyOf(r) {
      var i :| 0 <= i < |webhooks| && webhooks[i] == p;
      GoalAtWebhook(files, codec, a, i);
      ContentKeepsMeaning(p);
      KindIsApplied(files, codec, a, p, o);
    } else {
      GoalAtOther(files, codec, a, j);
    }
  }

  /** No content of the third batch is of an RBAC kind. */
  lemma KindIsApplied(files: seq<ManifestFile>, codec: Codec, a: Attempt, p: Object, o: Object)
    requires Sound(files) && Faithful(codec) && Unhindered(files, codec, a)
    requires p in WebhooksOf(files, codec, a.run)
    ensures !IsRbac(p)
    ensures Kind(o) == Kind(p) ==> !IsRbac(o)
  {
    var kept := Prepared(files).value;
    KeptAccepted(kept);
    WebhooksAccepted(kept, codec, RewriteTarget(a.run.ca.value, a.run.host));
    var c :| c in kept && SameIdentity(c, p) && CarriesWebhooks(c);
    CarriersAreNoRbac(c);
  }

  // ----- The live store -----

  /** The objects of a store under keys setup does not manage. */
  ghost predicate AreForeign(foreign: seq<Object>, held: Held, goal: Held) {
    forall o :: o in foreign <==> exists k :: k in held && k !in goal && held[k] == o
  }

  lemma LiveObjects(held: Held, goal: Held, g: Held, foreign: seq<Object>, o: Object)
    requires AreForeign(foreign, held, goal) && g.Keys == goal.Keys
    ensures o in (held + g).Values <==> o in foreign || o in g.Values
  {
    var all := held + g;
    if o in foreign {
      var k :| k in held && k !in goal && held[k] == o;
      assert k in all && all[k] == o;
    }
    if k :| k in g && g[k] == o { assert k in all && all[k] == o; }
  }

  /** The live store and the foreign objects beside the second batch permit the same. */
  lemma LiveIsForeignAndBatch(
    files: seq<ManifestFile>, codec: Codec, a: Attempt, held: Held, foreign: seq<Object>, live: seq<Object>,
    who: Who, reach: Reach, rule: Value)
    requires Sound(files) && Faithful(codec) && Unhindered(files, codec, a)
    requires AreForeign(foreign, held, GoalKeys(files)) && AllApplied(WebhooksOf(files, codec, a.run))
    requires forall o :: o in live <==> o in (held + Goal(files, codec, a.run)).Values
    ensures Permitted(live, false, who, reach, rule) <==>
            Permitted(foreign + RbacBatch(Prepared(files).value).value, false, who, reach, rule)
  {
    var rbac, goal := RbacBatch(Prepared(files).value).value, Goal(files, codec, a.run);
    WebhookBatchApplies(files, codec, a);
    hide *;
    forall o | IsRbac(o)
      ensures o in goal.Values ==> exists p | p in rbac :: Content(p) == o
      ensures o in rbac ==> Content(o) in goal.Values
    {
      GoalRbacObjects(files, codec, a, o);
    }
    forall o ensures o in live <==> o in foreign || o in goal.Values {
      LiveObjects(held, GoalKeys(files), goal, foreign, o);
    }
    LiveIsCovered(live, foreign, rbac, goal.Values);
    var all := foreign + rbac;
    if Permitted(live, false, who, reach, rule) { PermissionsCovered(all, live, who, reach, rule); }
    if Permitted(all, false, who, reach, rule) { PermissionsCovered(live, all, who, reach, rule); }
  }

  lemma LiveIsCovered(live: seq<Object>, foreign: seq<Object>, rbac: seq<Object>, goal: set<Object>)
    requires forall o :: o in live <==> o in foreign || o in goal
    requires forall o | IsRbac(o) && o in goal :: exists p | p in rbac :: Content(p) == o
    requires forall o | IsRbac(o) && o in rbac :: Content(o) in goal
    ensures Covers(live, foreign + rbac) && Covers(foreign + rbac, live)
  {
    hide IsRbac, Content;
    var all := foreign + rbac;
    forall o ensures Content(Content(o)) == Content(o) { ContentTwice(o); }
    forall o | o in live && IsRbac(o) ensures exists p | p in all :: Content(p) == Content(o) {
      if o in foreign {
        assert o in all;
      } else {
        var p :| p in rbac && Content(p) == o;
        assert p in all;
      }
    }
    forall o | o in all && IsRbac(o) ensures exists p | p in live :: Content(p) == Content(o) {
      if o in foreign { assert o in live; } else { assert Content(o) in live; }
    }
  }

  lemma ContentTwice(o: Object)
    ensures Content(Content(o)) == Content(o)
  {
    if "metadata" in o && o["metadata"].Dict? {
      var meta := o["metadata"].fields - {"resourceVersion"};
      assert meta - {"resourceVersion"} == meta;
      assert Content(o)["metadata" := Dict(meta)] == Content(o);
    }
  }

  // ----- Who is permitted what in it -----

  /** The same roles lend bindings the same meaning. */
  lemma SameRolesGrant(
    before: seq<Object>, after: seq<Object>, bindings: seq<Object>, who: Who, reach: Reach, rule: Value)
    requires SameRoles(before, after)
    ensures PermittedBy(after, false, bindings, who, reach, rule) <==>
            PermittedBy(before, false, bindings, who, reach, rule)
  {
    forall namespace, name
      ensures OwnRule(after, name, rule) <==> OwnRule(before, name, rule)
      ensures RoleRule(after, namespace, name, rule) <==> RoleRule(before, namespace, name, rule)
    {
      SameOwnRules(before, after, namespace, name, rule);
    }
    hide SameRoles, OwnRule, RoleRule, Binds, Kind, RefKind, RefName, Namespace;
    forall b | b in bindings ensures Grants(after, false, b, reach, rule) <==> Grants(before, false, b, reach, rule) {}
  }

  lemma PermittedByParts(
    roles: seq<Object>, foreign: seq<Object>, out: seq<Object>, admin: Object, who: Who, reach: Reach, rule: Value)
    ensures PermittedBy(roles, false, foreign + (out + [admin]), who, reach, rule) <==>
            || PermittedBy(roles, false, foreign, who, reach, rule) || PermittedBy(roles, false, out, who, reach, rule)
            || (Binds(admin, who) && Grants(roles, false, admin, reach, rule))
  {
    hide Binds, Grants;
    assert forall b :: b in foreign + (out + [admin]) <==> b in foreign || b in out || b == admin;
  }

  lemma AdminIsABinding()
    ensures IsBinding(AdminClusterRoleBinding(ADMIN_CN))
  {}

  /** What setup makes of a cluster's permissions: with no aggregation controller about,
      the live store permits what the objects it found and does not manage permit, read
      beside the manifests' roles; what the manifests' bindings, aggregated in the same
      cluster, permit the ServiceAccounts each manager stands for and other Users and
      Groups; and cluster-admin to the admin. So it is from any store without foreign
      roleRefs under managed keys, after any history of cut runs and one that is not. */
  lemma LivePermissions(
    w: World, files: seq<ManifestFile>, codec: Codec, attempts: seq<Attempt>, last: Attempt,
    foreign: seq<Object>, live: seq<Object>, who: Who, reach: Reach, rule: Value)
    requires Sound(files) && Faithful(codec) && Unhindered(files, codec, last)
    requires RefsSafe(GoalKeys(files), ContentsOf(w.store))
    requires AreForeign(foreign, ContentsOf(w.store), GoalKeys(files))
    requires var before := AfterRuns(w, files, codec, attempts).(budget := last.budget);
             var (w', _) := SetupRun(before, files, codec, last.run);
             forall o :: o in live <==> o in ContentsOf(w'.store).Values
    requires var kept := Prepared(files).value; ShellsAreConcrete(foreign + kept, kept) && AccountsAreNamed(kept)
    ensures var kept := Prepared(files).value;
            Permitted(live, false, who, reach, rule) <==>
            || PermittedBy(foreign + kept, false, foreign, who, reach, rule)
            || PermittedAsManager(foreign + kept, kept, MANAGER_CN_BY_NAMESPACE, who, reach, rule)
            || (who == User(ADMIN_CN) && reach == ClusterWide && OwnRule(foreign + kept, "cluster-admin", rule))
  {
    SetupConverges(w, files, codec, attempts, last);
    hide *;
    GoalPermissions(files, codec, last, ContentsOf(w.store), foreign, live, who, reach, rule);
  }

  /** The same of any store that holds the goal over what was there. */
  lemma GoalPermissions(
    files: seq<ManifestFile>, codec: Codec, a: Attempt, held: Held, foreign: seq<Object>, live: seq<Object>,
    who: Who, reach: Reach, rule: Value)
    requires Sound(files) && Faithful(codec) && Unhindered(files, codec, a)
    requires AreForeign(foreign, held, GoalKeys(files)) && AllApplied(WebhooksOf(files, codec, a.run))
    requires forall o :: o in live <==> o in (held + Goal(files, codec, a.run)).Values
    requires var kept := Prepared(files).value; ShellsAreConcrete(foreign + kept, kept) && AccountsAreNamed(kept)
    ensures var kept := Prepared(files).value;
            Permitted(live, false, who, reach, rule) <==>
            || PermittedBy(foreign + kept, false, foreign, who, reach, rule)
            || PermittedAsManager(foreign + kept, kept, MANAGER_CN_BY_NAMESPACE, who, reach, rule)
            || (who == User(ADMIN_CN) && reach == ClusterWide && OwnRule(foreign + kept, "cluster-admin", rule))
  {
    var kept := Prepared(files).value;
    var out, admin := Rewritten(kept, MANAGER_CN_BY_NAMESPACE).value, AdminClusterRoleBinding(ADMIN_CN);
    assert RbacBatch(kept).value == out + [admin];
    hide *;
    LiveIsForeignAndBatch(files, codec, a, held, foreign, live, who, reach, rule);
    PermittedInCluster(foreign, kept, out, who, reach, rule);
  }

  lemma PermittedInCluster(
    foreign: seq<Object>, kept: seq<Object>, out: seq<Object>, who: Who, reach: Reach, rule: Value)
    requires Rewritten(kept, MANAGER_CN_BY_NAMESPACE) == Ok(out)
    requires ShellsAreConcrete(foreign + kept, kept) && AccountsAreNamed(kept)
    ensures Permitted(foreign + (out + [AdminClusterRoleBinding(ADMIN_CN)]), false, who, reach, rule) <==>
            || PermittedBy(foreign + kept, false, foreign, who, reach, rule)
            || PermittedAsManager(foreign + kept, kept, MANAGER_CN_BY_NAMESPACE, who, reach, rule)
            || (who == User(ADMIN_CN) && reach == ClusterWide && OwnRule(foreign + kept, "cluster-admin", rule))
  {
    var admin := AdminClusterRoleBinding(ADMIN_CN);
    var all, cluster := foreign + (out + [admin]), foreign + kept;
    RolesStay(foreign, kept, MANAGER_CN_BY_NAMESPACE);
    AdminIsABinding();
    assert SameRoles(cluster, all) && SameRoles(foreign + out, all) by {
      assert forall o :: o in all <==> o in foreign + out || o == admin;
    }
    assert Permitted(all, false, who, reach, rule) <==> PermittedBy(all, false, all, who, reach, rule);
    hide *;
    PermissionsPreserved(foreign, kept, MANAGER_CN_BY_NAMESPACE, who, reach, rule);
    SameRolesGrant(cluster, all, foreign, who, reach, rule);
    SameRolesGrant(foreign + out, all, out, who, reach, rule);
    SameOwnRules(cluster, all, "", "cluster-admin", rule);
    PermittedByParts(all, foreign, out, admin, who, reach, rule);
    AdminIsClusterAdmin(all, ADMIN_CN, who, reach, rule);
  }
}
