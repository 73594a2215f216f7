/** Setup over whole histories: wherever runs are cut, the store holds only what a
    later run may overwrite, bindings never leave their redirected roleRef, and one
    uninterrupted run brings every managed key to the same content. */
module Convergence {
  import opened Wrappers
  import opened Text
  import opened Objects
  import opened Manifests
  import opened ApiServer
  import opened Apply
  import opened ApplyLaws
  import opened Loading
  import opened LoadingLaws
  import opened Filters
  import opened Rbac
  import opened RbacMeaning
  import opened Webhook
  import opened RewriteLaws
  import opened Setup

  /** The converter keeps an object's identity, whatever became of its webhooks. */
  ghost predicate Faithful(codec: Codec) {
    forall o, t, t' ::
      codec.decode(o) == Some(t) && SameButConfigs(t, t') && codec.encode(t').Some? ==>
        SameIdentity(o, codec.encode(t').value)
  }

  // ----- The three batches share their keys -----

  lemma AcceptedBatch(objs: seq<Object>)
    ensures Refusal(objs).Done? <==> AllApplied(objs) && DistinctBy(ApplyKey, objs)
  {
    hide *;
    RefusalMeans(objs);
    DistinctKeysMeans(objs);
  }

  lemma DistinctKeysMeans(objs: seq<Object>)
    ensures DistinctBy(ApplyKey, objs) <==> forall i, j | 0 <= i < j < |objs| :: ApplyKey(objs[i]) != ApplyKey(objs[j])
  {
    hide ApplyKey;
  }

  /** Rewriting RBAC keeps every key, and what makes an object creatable. */
  lemma RbacKeeps(kept: seq<Object>, i: nat)
    requires RbacBatch(kept).Some? && i < |kept|
    ensures var r := RbacBatch(kept).value[i];
            SameIdentity(r, kept[i]) && (!IsBinding(kept[i]) ==> r == kept[i])
    ensures |RbacBatch(kept).value| == |kept| + 1
  {
    var out := Rewritten(kept, MANAGER_CN_BY_NAMESPACE).value;
    assert ObjectRewriter(MANAGER_CN_BY_NAMESPACE)(kept[i]) == Ok(out[i]);
    RewriteOneShape(kept[i], MANAGER_CN_BY_NAMESPACE);
    SameMetadata(kept[i], out[i]);
  }

  lemma SameKeys(a: Object, b: Object)
    requires SameIdentity(a, b)
    ensures ApplyKey(a) == ApplyKey(b) && (Applied(Kind(a)) <==> Applied(Kind(b)))
    ensures Applied(Kind(a)) ==> KeyOf(a) == KeyOf(b)
    ensures Creatable(a) <==> Creatable(b)
  {}

  /** If the second batch is accepted, so are the kept objects and any part of them. */
  lemma KeptAccepted(kept: seq<Object>)
    requires RbacBatch(kept).Some? && Refusal(RbacBatch(kept).value).Done?
    ensures AllApplied(kept) && DistinctBy(ApplyKey, kept) && AllApplied(RbacBatch(kept).value)
  {
    var rbac := RbacBatch(kept).value;
    AcceptedBatch(rbac);
    forall i | 0 <= i < |kept|
      ensures ApplyKey(rbac[i]) == ApplyKey(kept[i]) && Applied(Kind(kept[i])) && |rbac| == |kept| + 1
    {
      RbacKeeps(kept, i);
      SameKeys(rbac[i], kept[i]);
      assert rbac[i] in rbac;
    }
    hide ApplyKey, RbacBatch, Applied;
    forall i, j | 0 <= i < j < |kept| ensures ApplyKey(kept[i]) != ApplyKey(kept[j]) {
      assert ApplyKey(rbac[i]) != ApplyKey(rbac[j]);
    }
  }

  lemma PartAccepted(kept: seq<Object>, f: Object -> Option<Object>)
    requires AllApplied(kept) && DistinctBy(ApplyKey, kept)
    requires forall o | o in kept :: f(o).Some? ==> f(o).value == o
    ensures var part := FilterMap(f, kept);
            Refusal(part).Done? && AllApplied(part) && DistinctBy(ApplyKey, part) && |part| <= |kept| &&
            forall o | o in part :: o in kept && f(o) == Some(o)
  {
    FilterKeepsDistinct(ApplyKey, f, kept);
    AcceptedBatch(FilterMap(f, kept));
  }

  /** Each object of the third batch stands for the carrier it was rewritten from. */
  lemma WebhooksKeep(kept: seq<Object>, codec: Codec, t: Target)
    requires Faithful(codec) && WebhookBatch(kept, codec, t).Some?
    ensures var batch := WebhookBatch(kept, codec, t).value;
            |batch| == |Carriers(kept)| && forall i | 0 <= i < |batch| :: SameIdentity(Carriers(kept)[i], batch[i])
  {
    var carriers := Carriers(kept);
    var typed := MapAll(Decoder(codec), carriers).value;
    var rewritten := RewriteTyped(typed, t).value;
    var batch := MapAll(Encoder(codec), rewritten).value;
    hide Faithful, SameIdentity, SameButConfigs, RewriteObject, Carriers;
    forall i | 0 <= i < |batch| ensures SameIdentity(carriers[i], batch[i]) {
      assert Decoder(codec)(carriers[i]) == Ok(typed[i]);
      assert TypedRewriter(t)(typed[i]) == Ok(rewritten[i]);
      assert Encoder(codec)(rewritten[i]) == Ok(batch[i]);
      RewrittenSameButConfigs(typed[i], t);
      FaithfulAt(codec, carriers[i], typed[i], rewritten[i]);
    }
  }

  lemma WebhooksKeepKeys(kept: seq<Object>, codec: Codec, t: Target, k: nat)
    requires Faithful(codec) && WebhookBatch(kept, codec, t).Some? && k < |Carriers(kept)|
    requires k < |WebhookBatch(kept, codec, t).value| && Applied(Kind(WebhookBatch(kept, codec, t).value[k]))
    ensures Applied(Kind(Carriers(kept)[k])) && KeyOf(Carriers(kept)[k]) == KeyOf(WebhookBatch(kept, codec, t).value[k])
  {
    hide *;
    WebhooksKeep(kept, codec, t);
    SameKeys(Carriers(kept)[k], WebhookBatch(kept, codec, t).value[k]);
  }

  lemma FaithfulAt(codec: Codec, o: Object, t: TypedObject, t': TypedObject)
    requires Faithful(codec) && codec.decode(o) == Some(t) && SameButConfigs(t, t') && codec.encode(t').Some?
    ensures SameIdentity(o, codec.encode(t').value)
  {}

  lemma WebhooksAccepted(kept: seq<Object>, codec: Codec, t: Target)
    requires AllApplied(kept) && DistinctBy(ApplyKey, kept)
    requires Faithful(codec) && WebhookBatch(kept, codec, t).Some?
    ensures var batch := WebhookBatch(kept, codec, t).value;
            Refusal(batch).Done? && AllApplied(batch) && |batch| <= |kept| &&
            forall o | o in batch :: exists p | p in kept :: SameIdentity(p, o) && CarriesWebhooks(p)
  {
    WebhooksKeep(kept, codec, t);
    var carriers, batch := Carriers(kept), WebhookBatch(kept, codec, t).value;
    CarriersAccepted(kept);
    hide *;
    forall i | 0 <= i < |batch|
      ensures ApplyKey(batch[i]) == ApplyKey(carriers[i]) && Applied(Kind(batch[i]))
      ensures carriers[i] in kept && SameIdentity(carriers[i], batch[i]) && CarriesWebhooks(carriers[i])
    {
      assert carriers[i] in carriers;
      AppliedOf(carriers, carriers[i]);
      SameKeys(carriers[i], batch[i]);
    }
    BatchAccepted(carriers, batch);
  }

  lemma CarriersAccepted(kept: seq<Object>)
    requires AllApplied(kept) && DistinctBy(ApplyKey, kept)
    ensures AllApplied(Carriers(kept)) && DistinctBy(ApplyKey, Carriers(kept)) && |Carriers(kept)| <= |kept|
    ensures forall o | o in Carriers(kept) :: o in kept && CarriesWebhooks(o)
  {
    hide CarriesWebhooks, ApplyKey, Applied, Kind;
    forall o | o in kept ensures WebhookOne(o).Some? ==> WebhookOne(o).value == o {}
    PartAccepted(kept, WebhookOne);
  }

  lemma AppliedOf(objs: seq<Object>, o: Object)
    requires AllApplied(objs) && o in objs
    ensures Applied(Kind(o))
  {}

  /** A batch is accepted along with one whose keys it has. */
  lemma BatchAccepted(objs: seq<Object>, batch: seq<Object>)
    requires |batch| == |objs| && DistinctBy(ApplyKey, objs)
    requires forall i | 0 <= i < |batch| :: ApplyKey(batch[i]) == ApplyKey(objs[i]) && Applied(Kind(batch[i]))
    ensures Refusal(batch).Done? && AllApplied(batch)
  {
    hide ApplyKey, Applied, Kind, Refusal;
    assert forall i, j | 0 <= i < j < |batch| :: ApplyKey(objs[i]) != ApplyKey(objs[j]);
    AcceptedBatch(batch);
  }

  // ----- What any run, cut anywhere, may do to the store -----

  type Held = map<Key, Object>

  /** The second batch covers every key setup manages. */
  function Managed(rbac: seq<Object>): Held
    requires AllApplied(rbac)
  {
    Overlay(Requests(rbac))
  }

  /** Nothing is lost; a key that is not managed keeps its content; and a managed
      binding is as it was or carries its redirected roleRef. */
  ghost predicate Moves(goal: Held, before: Held, after: Held) {
    && (forall k :: k in before ==> k in after)
    && (forall k :: k !in goal ==> (k in after <==> k in before) && (k in before ==> after[k] == before[k]))
    && (forall k :: k in goal && k in after && IsBindingKey(k) ==>
          (k in before && after[k] == before[k]) || RoleRef(after[k]) == RoleRef(goal[k]))
  }

  /** Every managed binding in the store carries its redirected roleRef. */
  ghost predicate RefsSafe(goal: Held, held: Held) {
    forall k :: k in goal && k in held && IsBindingKey(k) ==> RoleRef(held[k]) == RoleRef(goal[k])
  }

  /** Requests that stay within what setup manages. */
  predicate Stays(goal: Held, qs: seq<Request>) {
    forall q | q in qs :: q.key in goal && (IsBindingKey(q.key) ==> RoleRef(q.body) == RoleRef(goal[q.key]))
  }

  lemma Unmoved(goal: Held, held: Held)
    ensures Moves(goal, held, held)
  {}

  lemma MovesThrough(goal: Held, a: Held, b: Held, c: Held)
    requires Moves(goal, a, b) && Moves(goal, b, c)
    ensures Moves(goal, a, c)
  {}

  lemma MovesKeepRefs(goal: Held, before: Held, after: Held)
    requires Moves(goal, before, after) && RefsSafe(goal, before)
    ensures RefsSafe(goal, after)
  {}

  lemma {:induction false} OverlayStays(goal: Held, qs: seq<Request>)
    requires Stays(goal, qs)
    ensures forall k | k in Overlay(qs) ::
              k in goal && (IsBindingKey(k) ==> RoleRef(Overlay(qs)[k]) == RoleRef(goal[k]))
  {
    if qs != [] {
      assert qs == [qs[0]] + qs[1..];
      SameRoleRef(qs[0].body, "");
      OverlayStays(goal, qs[1..]);
    }
  }

  /** A batch, wherever it stops. */
  lemma BatchMoves(goal: Held, w: World, qs: seq<Request>)
    requires Stays(goal, qs)
    ensures Moves(goal, ContentsOf(w.store), ContentsOf(ApplyAll(w, qs).0.store))
  {
    ApplyAllPrefix(w, qs);
    var part := qs[..Progress(w, qs)];
    assert forall q | q in part :: q in qs;
    OverlayStays(goal, part);
  }

  lemma RbacStays(rbac: seq<Object>)
    requires Refusal(rbac).Done?
    ensures AllApplied(rbac) && Stays(Managed(rbac), Requests(rbac))
  {
    AcceptedKeysDistinct(rbac);
    var qs := Requests(rbac);
    forall q | q in qs ensures q.key in Overlay(qs) && RoleRef(q.body) == RoleRef(Overlay(qs)[q.key]) {
      OverlayAt(qs, q);
      SameRoleRef(q.body, "");
    }
  }

  lemma KeptIsManaged(kept: seq<Object>, o: Object)
    requires RbacBatch(kept).Some? && Refusal(RbacBatch(kept).value).Done? && o in kept
    ensures AllApplied(RbacBatch(kept).value) && Applied(Kind(o)) && KeyOf(o) in Managed(RbacBatch(kept).value)
  {
    KeptAccepted(kept);
    var rbac := RbacBatch(kept).value;
    var i :| 0 <= i < |kept| && kept[i] == o;
    RbacKeeps(kept, i);
    SameKeys(rbac[i], o);
    assert Requests(rbac)[i] in Requests(rbac);
  }

  lemma UnboundStays(kept: seq<Object>)
    requires RbacBatch(kept).Some? && Refusal(RbacBatch(kept).value).Done?
    ensures Refusal(WithoutBindings(kept)).Done? && AllApplied(WithoutBindings(kept))
    ensures |WithoutBindings(kept)| <= |kept|
    ensures AllApplied(RbacBatch(kept).value)
    ensures Stays(Managed(RbacBatch(kept).value), Requests(WithoutBindings(kept)))
    ensures forall q | q in Requests(WithoutBindings(kept)) :: !IsBindingKey(q.key) && q.body in kept
  {
    KeptAccepted(kept);
    PartAccepted(kept, UnboundOne);
    var part := WithoutBindings(kept);
    forall q | q in Requests(part)
      ensures q.key in Managed(RbacBatch(kept).value) && !IsBindingKey(q.key) && q.body in kept
    {
      var i :| 0 <= i < |part| && Requests(part)[i] == q;
      assert part[i] in part && UnboundOne(part[i]) == Some(part[i]);
      KeptIsManaged(kept, part[i]);
      KeyKinds(part[i]);
    }
  }

  lemma WebhooksStay(kept: seq<Object>, codec: Codec, t: Target)
    requires RbacBatch(kept).Some? && Refusal(RbacBatch(kept).value).Done?
    requires Faithful(codec) && WebhookBatch(kept, codec, t).Some?
    ensures var batch := WebhookBatch(kept, codec, t).value;
            && Refusal(batch).Done? && AllApplied(batch) && |batch| <= |kept|
            && AllApplied(RbacBatch(kept).value) && Stays(Managed(RbacBatch(kept).value), Requests(batch))
            && (forall q | q in Requests(batch) ::
                  !IsBindingKey(q.key) && exists p | p in kept :: SameIdentity(p, q.body))
  {
    KeptAccepted(kept);
    WebhooksAccepted(kept, codec, t);
    var batch := WebhookBatch(kept, codec, t).value;
    forall q | q in Requests(batch)
      ensures q.key in Managed(RbacBatch(kept).value) && !IsBindingKey(q.key)
      ensures exists p | p in kept :: SameIdentity(p, q.body)
    {
      var i :| 0 <= i < |batch| && Requests(batch)[i] == q;
      assert batch[i] in batch;
      var p :| p in kept && SameIdentity(p, batch[i]) && CarriesWebhooks(p);
      SameKeys(p, batch[i]);
      KeptIsManaged(kept, p);
      CarriersAreNoBindings(p);
      KeyKinds(p);
    }
  }

  lemma CarriersAreNoBindings(o: Object)
    requires CarriesWebhooks(o)
    ensures !IsBinding(o)
  {}

  /** What makes the files a set setup can work with: they load, bindings can be
      rewritten, and no two objects, the admin binding included, share an identifier. */
  predicate Sound(files: seq<ManifestFile>) {
    Prepared(files).Some? && RbacBatch(Prepared(files).value).Some? &&
    Refusal(RbacBatch(Prepared(files).value).value).Done?
  }

  /** Sound, said of the files alone: they load and agree, every binding in them can be
      rewritten, no two kept objects of a cluster-scoped kind share a name, and none is
      a ClusterRoleBinding named as the admin's. */
  lemma SoundExactly(files: seq<ManifestFile>)
    requires forall d | d in Documents(files) :: NulFreeObject(d)
    ensures Sound(files) <==>
            && Loadable(files) && Agreeing(Documents(files))
            && var kept := Kept(Restricted(FirstOccurrences(Documents(files))));
               && (forall o | o in kept :: Rewritable(o, MANAGER_CN_BY_NAMESPACE))
               && (forall i, j | 0 <= i < j < |kept| :: !Clash(kept[i], kept[j]))
               && (forall o | o in kept :: !(Kind(o) == CLUSTER_ROLE_BINDING && Name(o) == "capishim-admin"))
  {
    if Prepared(files).Some? {
      var kept := Prepared(files).value;
      RewriteSucceedsExactly(kept, MANAGER_CN_BY_NAMESPACE);
      LoadedAreClean(files);
      if RbacBatch(kept).Some? { SecondBatchRefusedExactly(kept); }
      hide *;
    }
  }

  /** The second batch is refused exactly on a clash among the kept objects or with
      the admin binding. */
  lemma SecondBatchRefusedExactly(kept: seq<Object>)
    requires RbacBatch(kept).Some? && DistinctIds(kept)
    requires forall o | o in kept :: Keep(o) && NulFreeObject(o)
    ensures Refusal(RbacBatch(kept).value).Done? <==>
            && (forall i, j | 0 <= i < j < |kept| :: !Clash(kept[i], kept[j]))
            && (forall o | o in kept :: !(Kind(o) == CLUSTER_ROLE_BINDING && Name(o) == "capishim-admin"))
  {
    var rbac, n := RbacBatch(kept).value, |kept|;
    AdminIsLast(kept);
    forall i | 0 <= i < n
      ensures ApplyKey(rbac[i]) == ApplyKey(kept[i]) && Applied(Kind(rbac[i]))
      ensures ApplyKey(rbac[i]) == ApplyKey(rbac[n]) <==>
              Kind(kept[i]) == CLUSTER_ROLE_BINDING && Name(kept[i]) == "capishim-admin"
    {
      KeyInSecondBatch(kept, i);
    }
    AdminKey(map[]);
    hide *;
    RefusedOnlyOnClash(kept);
    AcceptedBatch(kept);
    AllKeptApply(kept);
    AcceptedBatch(rbac);
    OneMoreDistinct(ApplyKey, kept, rbac);
    AllAppliedAnd(rbac, n);
  }

  lemma AdminIsLast(kept: seq<Object>)
    requires RbacBatch(kept).Some?
    ensures |RbacBatch(kept).value| == |kept| + 1 && RbacBatch(kept).value[|kept|] == AdminClusterRoleBinding(ADMIN_CN)
  {}

  lemma AllAppliedAnd(objs: seq<Object>, n: nat)
    requires |objs| == n + 1 && Applied(Kind(objs[n])) && forall i | 0 <= i < n :: Applied(Kind(objs[i]))
    ensures AllApplied(objs)
  {
    hide Applied, Kind;
  }

  lemma KeyInSecondBatch(kept: seq<Object>, i: nat)
    requires RbacBatch(kept).Some? && i < |kept| && Keep(kept[i]) && NulFreeObject(kept[i])
    ensures |RbacBatch(kept).value| == |kept| + 1
    ensures var rbac := RbacBatch(kept).value;
            && ApplyKey(rbac[i]) == ApplyKey(kept[i]) && Applied(Kind(rbac[i]))
            && (ApplyKey(rbac[i]) == ApplyKey(rbac[|kept|]) <==>
                Kind(kept[i]) == CLUSTER_ROLE_BINDING && Name(kept[i]) == "capishim-admin")
  {
    hide *;
    AdminIsLast(kept);
    RbacKeeps(kept, i);
    SameKeys(RbacBatch(kept).value[i], kept[i]);
    KeptKindsApply(kept[i]);
    AdminKey(kept[i]);
  }

  lemma OneMoreDistinct<T, K>(key: T -> K, s: seq<T>, t: seq<T>)
    requires |t| == |s| + 1 && forall i | 0 <= i < |s| :: key(t[i]) == key(s[i])
    ensures DistinctBy(key, t) <==> DistinctBy(key, s) && forall i | 0 <= i < |s| :: key(t[i]) != key(t[|s|])
  {
    if DistinctBy(key, t) {
      forall i, j | 0 <= i < j < |s| ensures key(s[i]) != key(s[j]) { assert key(t[i]) != key(t[j]); }
    }
  }

  lemma AdminFields()
    ensures var admin := AdminClusterRoleBinding(ADMIN_CN);
            && Kind(admin) == CLUSTER_ROLE_BINDING && ApiVersion(admin) == "rbac.authorization.k8s.io/v1"
            && DictAt(admin, "metadata") == map["name" := Str("capishim-admin")]
  {}

  lemma AdminMetadata(meta: Object)
    requires meta == map["name" := Str("capishim-admin")]
    ensures StringAt(meta, "name") == "capishim-admin" && StringAt(meta, "namespace") == ""
  {}

  lemma AdminIsNulFree()
    ensures NulFree(CLUSTER_ROLE_BINDING) && NulFree("rbac.authorization.k8s.io/v1")
    ensures NulFree("capishim-admin") && NulFree("")
  {}

  lemma AdminKey(o: Object)
    ensures var admin := AdminClusterRoleBinding(ADMIN_CN);
            Applied(Kind(admin)) && NulFreeObject(admin) &&
            (NulFreeObject(o) ==>
               (ApplyKey(o) == ApplyKey(admin) <==> Kind(o) == CLUSTER_ROLE_BINDING && Name(o) == "capishim-admin"))
  {
    FieldNames();
    AdminFields();
    AdminMetadata(DictAt(AdminClusterRoleBinding(ADMIN_CN), "metadata"));
    AdminIsNulFree();
    NamespacedKinds(CLUSTER_ROLE_BINDING);
    hide AdminClusterRoleBinding, NulFree, ApplyKey, Kind, ApiVersion, StringAt, DictAt;
    if NulFreeObject(o) { SameApplyKey(o, AdminClusterRoleBinding(ADMIN_CN)); }
  }

  /** The contents of the second batch, one for every managed key. */
  function GoalKeys(files: seq<ManifestFile>): Held
    requires Sound(files)
  {
    var rbac := RbacBatch(Prepared(files).value).value;
    AcceptedBatch(rbac);
    Managed(rbac)
  }

  lemma WebhooksMove(w: World, kept: seq<Object>, codec: Codec, run: Run)
    requires RbacBatch(kept).Some? && Refusal(RbacBatch(kept).value).Done? && Faithful(codec) && run.ca.Some?
    ensures AllApplied(RbacBatch(kept).value)
    ensures var w' := SetupWebhooks(w, kept, codec, run).0;
            Moves(Managed(RbacBatch(kept).value), ContentsOf(w.store), ContentsOf(w'.store))
  {
    hide Managed, RbacBatch, WebhookBatch, Faithful, Stays, ContentsOf, Moves, ApplyAll, RewriteTarget;
    var t := RewriteTarget(run.ca.value, run.host);
    KeptAccepted(kept);
    Unmoved(Managed(RbacBatch(kept).value), ContentsOf(w.store));
    if WebhookBatch(kept, codec, t).Some? {
      WebhooksStay(kept, codec, t);
      BatchMoves(Managed(RbacBatch(kept).value), w, Requests(WebhookBatch(kept, codec, t).value));
    }
  }

  lemma RbacMoves(w: World, kept: seq<Object>, codec: Codec, run: Run)
    requires RbacBatch(kept).Some? && Refusal(RbacBatch(kept).value).Done? && Faithful(codec)
    ensures AllApplied(RbacBatch(kept).value)
    ensures Moves(
              Managed(RbacBatch(kept).value), ContentsOf(w.store), ContentsOf(SetupRbac(w, kept, codec, run).0.store))
  {
    hide Managed, RbacBatch, Faithful, Stays, ContentsOf, Moves, ApplyAll, SetupWebhooks;
    var rbac := RbacBatch(kept).value;
    RbacStays(rbac);
    var goal := Managed(rbac);
    BatchMoves(goal, w, Requests(rbac));
    var (w2, r2) := ApplyBatch(w, rbac);
    if r2.Done? && run.ca.Some? {
      WebhooksMove(w2, kept, codec, run);
      var after := ContentsOf(SetupWebhooks(w2, kept, codec, run).0.store);
      MovesThrough(goal, ContentsOf(w.store), ContentsOf(w2.store), after);
    }
  }

  /** One run, cut or failed anywhere or complete. */
  lemma RunMoves(w: World, files: seq<ManifestFile>, codec: Codec, run: Run)
    requires Sound(files) && Faithful(codec)
    ensures Moves(GoalKeys(files), ContentsOf(w.store), ContentsOf(SetupRun(w, files, codec, run).0.store))
  {
    hide Managed, Prepared, RbacBatch, Faithful, Stays, ContentsOf, Moves, ApplyAll, SetupRbac, WithoutBindings;
    var kept := Prepared(files).value;
    UnboundStays(kept);
    var goal := Managed(RbacBatch(kept).value);
    BatchMoves(goal, w, Requests(WithoutBindings(kept)));
    var (w1, r1) := ApplyBatch(w, WithoutBindings(kept));
    if r1.Done? && run.waited {
      RbacMoves(w1, kept, codec, run);
      var after := ContentsOf(SetupRbac(w1, kept, codec, run).0.store);
      MovesThrough(goal, ContentsOf(w.store), ContentsOf(w1.store), after);
    }
  }

  // ----- Histories -----

  /** One attempt at a run: it is cut after so many calls, if it gets that far. */
  datatype Attempt = Attempt(budget: nat, run: Run)

  function AfterRuns(w: World, files: seq<ManifestFile>, codec: Codec, attempts: seq<Attempt>): World
    decreases |attempts|
  {
    if attempts == [] then w
    else
      var a := attempts[0];
      AfterRuns(SetupRun(w.(budget := a.budget), files, codec, a.run).0, files, codec, attempts[1..])
  }

  /** In every state any history of runs leads to, complete or cut at any call, keys
      setup does not manage are as they were and no managed binding has left its
      redirected roleRef. */
  lemma {:induction false} EveryReachableStateIsSafe(
    w: World, files: seq<ManifestFile>, codec: Codec, attempts: seq<Attempt>)
    requires Sound(files) && Faithful(codec)
    ensures var goal, before := GoalKeys(files), ContentsOf(w.store);
            var after := ContentsOf(AfterRuns(w, files, codec, attempts).store);
            Moves(goal, before, after) && (RefsSafe(goal, before) ==> RefsSafe(goal, after))
    decreases |attempts|
  {
    hide Sound, Faithful, GoalKeys, Moves, RefsSafe, SetupRun, ContentsOf;
    var goal, before := GoalKeys(files), ContentsOf(w.store);
    if attempts == [] {
      Unmoved(goal, before);
    } else {
      var a := attempts[0];
      var w0 := w.(budget := a.budget);
      RunMoves(w0, files, codec, a.run);
      var w1 := SetupRun(w0, files, codec, a.run).0;
      EveryReachableStateIsSafe(w1, files, codec, attempts[1..]);
      var after := ContentsOf(AfterRuns(w, files, codec, attempts).store);
      MovesThrough(goal, before, ContentsOf(w1.store), after);
      if RefsSafe(goal, before) { MovesKeepRefs(goal, before, after); }
    }
  }

  // ----- The uninterrupted run -----

  /** A run that nothing outside setup stops: the CRDs come up, the CA can be read,
      the webhooks can be rewritten for this CA and host, every object is one the
      apiserver will create, and there are calls enough. */
  predicate Unhindered(files: seq<ManifestFile>, codec: Codec, a: Attempt)
    requires Sound(files)
  {
    var kept := Prepared(files).value;
    && a.run.waited && a.run.ca.Some?
    && WebhookBatch(kept, codec, RewriteTarget(a.run.ca.value, a.run.host)).Some?
    && (forall o | o in kept :: Creatable(o))
    && a.budget >= 9 * |kept| + 3
  }

  /** The third batch of an unhindered run. */
  function WebhooksOf(files: seq<ManifestFile>, codec: Codec, run: Run): seq<Object>
    requires Sound(files) && run.ca.Some?
    requires WebhookBatch(Prepared(files).value, codec, RewriteTarget(run.ca.value, run.host)).Some?
  {
    WebhookBatch(Prepared(files).value, codec, RewriteTarget(run.ca.value, run.host)).value
  }

  lemma CreatableAll(kept: seq<Object>)
    requires RbacBatch(kept).Some? && Refusal(RbacBatch(kept).value).Done?
    requires forall o | o in kept :: Creatable(o)
    ensures AllApplied(RbacBatch(kept).value)
    ensures forall q | q in Requests(RbacBatch(kept).value) :: Creatable(q.body)
  {
    KeptAccepted(kept);
    var rbac := RbacBatch(kept).value;
    forall i | 0 <= i < |rbac| ensures Creatable(rbac[i]) {
      if i < |kept| {
        RbacKeeps(kept, i);
        SameKeys(rbac[i], kept[i]);
      } else {
        AdminIsCreatable(kept);
      }
    }
  }

  lemma AdminIsCreatable(kept: seq<Object>)
    requires RbacBatch(kept).Some?
    ensures |RbacBatch(kept).value| == |kept| + 1 && Creatable(RbacBatch(kept).value[|kept|])
  {}

  /** The first batch of an unhindered run goes through whatever the store holds. */
  lemma FirstBatch(w: World, kept: seq<Object>)
    requires RbacBatch(kept).Some? && Refusal(RbacBatch(kept).value).Done?
    requires (forall o | o in kept :: Creatable(o)) && w.budget >= 9 * |kept| + 3
    ensures var b := WithoutBindings(kept);
            var (w1, r1) := ApplyBatch(w, b);
            && r1.Done? && w1.budget >= 6 * |kept| + 3 && AllApplied(b)
            && ContentsOf(w1.store) == ContentsOf(w.store) + Overlay(Requests(b))
  {
    UnboundStays(kept);
    var qs := Requests(WithoutBindings(kept));
    AcceptedKeysDistinct(WithoutBindings(kept));
    assert BatchFits(w.store, qs);
    ApplyAllSucceeds(w, qs);
    CallsSpent(w, qs);
    ApplyIsOverride(w, WithoutBindings(kept));
  }

  /** The second goes through exactly when no binding in the store has another roleRef. */
  lemma SecondBatch(w: World, kept: seq<Object>)
    requires RbacBatch(kept).Some? && Refusal(RbacBatch(kept).value).Done?
    requires (forall o | o in kept :: Creatable(o)) && w.budget >= 6 * |kept| + 3
    ensures var b := RbacBatch(kept).value;
            var (w2, r2) := ApplyBatch(w, b);
            && AllApplied(b) && (r2.Done? <==> RefsSafe(Managed(b), ContentsOf(w.store)))
            && (r2.Done? ==> w2.budget >= 3 * |kept| && ContentsOf(w2.store) == ContentsOf(w.store) + Managed(b))
  {
    var b := RbacBatch(kept).value;
    RbacStays(b);
    CreatableAll(kept);
    AdminIsCreatable(kept);
    AcceptedKeysDistinct(b);
    var qs := Requests(b);
    assert Managed(b) == Overlay(qs) && ApplyBatch(w, b) == ApplyAll(w, qs);
    hide *;
    FitsExactly(w, qs, Managed(b));
    ApplyAllSucceeds(w, qs);
    CallsSpent(w, qs);
    if ApplyBatch(w, b).1.Done? { ApplyIsOverride(w, b); }
  }

  /** Requests that cover their goal fit a store exactly when no binding in it has
      another roleRef. */
  lemma FitsExactly(w: World, qs: seq<Request>, goal: Held)
    requires Stays(goal, qs) && goal == Overlay(qs) && forall q | q in qs :: Creatable(q.body)
    ensures BatchFits(w.store, qs) <==> RefsSafe(goal, ContentsOf(w.store))
  {
    hide Creatable, RoleRef;
    assert forall k :: k in goal <==> exists q | q in qs :: q.key == k;
  }

  /** Why the first batch leaves bindings out: had it held them, a binding whose
      roleRef is redirected would exist under its old one, and the second batch would
      be refused for good, whatever calls it is given. */
  lemma BindingsInFirstBatchBlock(w: World, kept: seq<Object>, i: nat, budget: nat)
    requires RbacBatch(kept).Some? && Refusal(RbacBatch(kept).value).Done?
    requires ApplyBatch(w, kept).1.Done?
    requires i < |kept| && IsBinding(kept[i]) && RoleRef(RbacBatch(kept).value[i]) != RoleRef(kept[i])
    requires budget >= 6 * |kept| + 3
    ensures !ApplyBatch(ApplyBatch(w, kept).0.(budget := budget), RbacBatch(kept).value).1.Done?
  {
    var rbac, w1 := RbacBatch(kept).value, ApplyBatch(w, kept).0.(budget := budget);
    ApplyIsOverride(w, kept);
    var qs := Requests(kept);
    AcceptedAreCreatable(w, qs);
    forall o | o in kept ensures Creatable(o) {
      var j :| 0 <= j < |kept| && kept[j] == o;
      assert qs[j] in qs;
    }
    SecondBatch(w1, kept);
    RbacKeeps(kept, i);
    SameKeys(rbac[i], kept[i]);
    KeyKinds(kept[i]);
    assert qs[i] in qs && Requests(rbac)[i] in Requests(rbac);
    OverlayAt(qs, qs[i]);
    RbacStays(rbac);
    AcceptedKeysDistinct(rbac);
    OverlayAt(Requests(rbac), Requests(rbac)[i]);
    var k := KeyOf(kept[i]);
    SameRoleRef(kept[i], "");
    SameRoleRef(rbac[i], "");
    assert ContentsOf(w1.store)[k] == Content(kept[i]) && Managed(rbac)[k] == Content(rbac[i]);
  }

  lemma RefNameIsInRoleRef(a: Object, b: Object)
    requires RefName(a) != RefName(b)
    ensures RoleRef(a) != RoleRef(b)
  {}

  /** A ClusterRoleBinding to an aggregation shell is such a binding. */
  lemma ShellBindingBlocks(w: World, kept: seq<Object>, i: nat, prefix: string, budget: nat)
    requires RbacBatch(kept).Some? && Refusal(RbacBatch(kept).value).Done?
    requires ApplyBatch(w, kept).1.Done?
    requires i < |kept| && Kind(kept[i]) == "ClusterRoleBinding"
    requires RefName(kept[i]) == prefix + "-aggregated-manager-role"
    requires budget >= 6 * |kept| + 3
    ensures !ApplyBatch(ApplyBatch(w, kept).0.(budget := budget), RbacBatch(kept).value).1.Done?
  {
    var o, cn := kept[i], MANAGER_CN_BY_NAMESPACE;
    assert ObjectRewriter(cn)(o) == Ok(RbacBatch(kept).value[i]);
    assert IsBinding(o);
    RewriteOneShape(o, cn);
    RedirectedNameExactly(prefix, "");
    assert |prefix + "-aggregated-manager-role"| != |prefix + "-manager-role"|;
    hide *;
    RefNameIsInRoleRef(RbacBatch(kept).value[i], o);
    BindingsInFirstBatchBlock(w, kept, i, budget);
  }

  /** The third goes through whatever the store holds. */
  lemma ThirdBatch(w: World, kept: seq<Object>, codec: Codec, t: Target)
    requires RbacBatch(kept).Some? && Refusal(RbacBatch(kept).value).Done?
    requires Faithful(codec) && WebhookBatch(kept, codec, t).Some?
    requires (forall o | o in kept :: Creatable(o)) && w.budget >= 3 * |kept|
    ensures var b := WebhookBatch(kept, codec, t).value;
            var (w3, r3) := ApplyBatch(w, b);
            r3.Done? && AllApplied(b) && ContentsOf(w3.store) == ContentsOf(w.store) + Overlay(Requests(b))
  {
    var b := WebhookBatch(kept, codec, t).value;
    WebhooksStay(kept, codec, t);
    AcceptedKeysDistinct(b);
    var qs := Requests(b);
    forall q | q in qs ensures Fits(w.store, q) {
      var p :| p in kept && SameIdentity(p, q.body);
      SameKeys(p, q.body);
    }
    ApplyAllSucceeds(w, qs);
    ApplyIsOverride(w, b);
  }

  /** What setup is for: the managed keys with the contents they converge to, a
      function of the files, the CA and the host alone. */
  function Goal(files: seq<ManifestFile>, codec: Codec, run: Run): Held
    requires Sound(files) && run.ca.Some?
    requires WebhookBatch(Prepared(files).value, codec, RewriteTarget(run.ca.value, run.host)).Some?
    requires AllApplied(WebhooksOf(files, codec, run))
  {
    GoalKeys(files) + Overlay(Requests(WebhooksOf(files, codec, run)))
  }

  lemma WebhookBatchApplies(files: seq<ManifestFile>, codec: Codec, a: Attempt)
    requires Sound(files) && Faithful(codec) && Unhindered(files, codec, a)
    ensures AllApplied(WebhooksOf(files, codec, a.run))
    ensures Goal(files, codec, a.run).Keys == GoalKeys(files).Keys
  {
    WebhooksStay(Prepared(files).value, codec, RewriteTarget(a.run.ca.value, a.run.host));
    var batch := WebhooksOf(files, codec, a.run);
    OverlayStays(GoalKeys(files), Requests(batch));
  }

  lemma OverridesCollapse(held: Held, first: Held, second: Held, third: Held)
    requires first.Keys <= second.Keys
    ensures held + first + second + third == held + (second + third)
  {}

  /** The first batch leaves roleRefs as they were. */
  lemma UnhinderedFirstBatch(w: World, kept: seq<Object>, goal: Held)
    requires RbacBatch(kept).Some? && Refusal(RbacBatch(kept).value).Done?
    requires (forall o | o in kept :: Creatable(o)) && w.budget >= 9 * |kept| + 3
    requires AllApplied(RbacBatch(kept).value) && goal == Managed(RbacBatch(kept).value)
    ensures var b := WithoutBindings(kept);
            var (w1, r1) := ApplyBatch(w, b);
            && r1.Done? && w1.budget >= 6 * |kept| + 3 && AllApplied(b)
            && ContentsOf(w1.store) == ContentsOf(w.store) + Overlay(Requests(b))
            && Overlay(Requests(b)).Keys <= goal.Keys
            && (RefsSafe(goal, ContentsOf(w1.store)) <==> RefsSafe(goal, ContentsOf(w.store)))
  {
    hide *;
    FirstBatch(w, kept);
    UnboundStays(kept);
    OverlayStays(goal, Requests(WithoutBindings(kept)));
    NoBindingsNoChange(goal, ContentsOf(w.store), Requests(WithoutBindings(kept)));
  }

  /** From the second batch on. */
  lemma UnhinderedRbac(w: World, kept: seq<Object>, codec: Codec, run: Run)
    requires RbacBatch(kept).Some? && Refusal(RbacBatch(kept).value).Done?
    requires Faithful(codec) && run.ca.Some? && WebhookBatch(kept, codec, RewriteTarget(run.ca.value, run.host)).Some?
    requires (forall o | o in kept :: Creatable(o)) && w.budget >= 6 * |kept| + 3
    ensures AllApplied(RbacBatch(kept).value)
    ensures AllApplied(WebhookBatch(kept, codec, RewriteTarget(run.ca.value, run.host)).value)
    ensures var webhooks := WebhookBatch(kept, codec, RewriteTarget(run.ca.value, run.host)).value;
            var goal := Managed(RbacBatch(kept).value);
            var (w', done) := SetupRbac(w, kept, codec, run);
            && (done <==> RefsSafe(goal, ContentsOf(w.store)))
            && (done ==> ContentsOf(w'.store) == ContentsOf(w.store) + goal + Overlay(Requests(webhooks)))
  {
    hide ApplyBatch, RefsSafe, Managed, Overlay, ContentsOf, Faithful;
    hide WebhookBatch, RbacBatch, RewriteTarget, Creatable;
    WebhooksStay(kept, codec, RewriteTarget(run.ca.value, run.host));
    hide Stays, SameIdentity;
    SecondBatch(w, kept);
    var (w2, r2) := ApplyBatch(w, RbacBatch(kept).value);
    if r2.Done? { ThirdBatch(w2, kept, codec, RewriteTarget(run.ca.value, run.host)); }
  }

  /** An unhindered run comes to its end exactly when no managed binding in the store
      has a roleRef of another make, and then the store holds the goal. */
  lemma UnhinderedRun(w: World, files: seq<ManifestFile>, codec: Codec, a: Attempt)
    requires Sound(files) && Faithful(codec) && Unhindered(files, codec, a) && w.budget == a.budget
    ensures AllApplied(WebhooksOf(files, codec, a.run))
    ensures var (w', done) := SetupRun(w, files, codec, a.run);
            && (done <==> RefsSafe(GoalKeys(files), ContentsOf(w.store)))
            && (done ==> ContentsOf(w'.store) == ContentsOf(w.store) + Goal(files, codec, a.run))
  {
    var kept, goal, run := Prepared(files).value, GoalKeys(files), a.run;
    assert RbacBatch(kept).Some? && Refusal(RbacBatch(kept).value).Done? && run.ca.Some?;
    WebhookBatchApplies(files, codec, a);
    GoalByParts(files, codec, run);
    StepsOfRun(w, files, codec, run);
    var w1 := ApplyBatch(w, WithoutBindings(kept)).0;
    hide *;
    UnhinderedFirstBatch(w, kept, goal);
    UnhinderedRbac(w1, kept, codec, run);
    var third := Overlay(Requests(WebhooksOf(files, codec, run)));
    OverridesCollapse(ContentsOf(w.store), Overlay(Requests(WithoutBindings(kept))), goal, third);
  }

  lemma StepsOfRun(w: World, files: seq<ManifestFile>, codec: Codec, run: Run)
    requires Prepared(files).Some?
    ensures var (w1, r1) := ApplyBatch(w, WithoutBindings(Prepared(files).value));
            SetupRun(w, files, codec, run) ==
            if r1.Done? && run.waited then SetupRbac(w1, Prepared(files).value, codec, run) else (w1, false)
  {
    hide ApplyBatch, WithoutBindings, SetupRbac, Prepared;
  }

  lemma GoalByParts(files: seq<ManifestFile>, codec: Codec, run: Run)
    requires Sound(files) && run.ca.Some?
    requires WebhookBatch(Prepared(files).value, codec, RewriteTarget(run.ca.value, run.host)).Some?
    requires AllApplied(WebhooksOf(files, codec, run))
    ensures var webhooks := WebhookBatch(Prepared(files).value, codec, RewriteTarget(run.ca.value, run.host)).value;
            && WebhooksOf(files, codec, run) == webhooks && AllApplied(RbacBatch(Prepared(files).value).value)
            && GoalKeys(files) == Managed(RbacBatch(Prepared(files).value).value)
            && Goal(files, codec, run) == GoalKeys(files) + Overlay(Requests(webhooks))
  {
    AcceptedBatch(RbacBatch(Prepared(files).value).value);
    hide Prepared, RbacBatch, WebhookBatch, Managed, Overlay, Requests;
  }

  lemma NoBindingsNoChange(goal: Held, held: Held, qs: seq<Request>)
    requires forall q | q in qs :: !IsBindingKey(q.key)
    ensures RefsSafe(goal, held + Overlay(qs)) <==> RefsSafe(goal, held)
  {}

  lemma OverrideForgets(goal: Held, before: Held, middle: Held, g: Held)
    requires Moves(goal, before, middle) && g.Keys == goal.Keys
    ensures middle + g == before + g
  {}

  /** Convergence: from a store without foreign bindings under managed keys, and after
      any history of runs, each cut after any number of calls or failed for any
      reason, each with its own CA and host, one unhindered run completes and leaves
      the store as it was before it all, overridden by the goal. */
  lemma SetupConverges(w: World, files: seq<ManifestFile>, codec: Codec, attempts: seq<Attempt>, last: Attempt)
    requires Sound(files) && Faithful(codec) && Unhindered(files, codec, last)
    requires RefsSafe(GoalKeys(files), ContentsOf(w.store))
    ensures AllApplied(WebhooksOf(files, codec, last.run))
    ensures var before := AfterRuns(w, files, codec, attempts).(budget := last.budget);
            var (w', done) := SetupRun(before, files, codec, last.run);
            done && ContentsOf(w'.store) == ContentsOf(w.store) + Goal(files, codec, last.run)
  {
    assert last.run.ca.Some? &&
           WebhookBatch(Prepared(files).value, codec, RewriteTarget(last.run.ca.value, last.run.host)).Some?;
    hide Sound, Faithful, Unhindered, GoalKeys, Goal, SetupRun, AfterRuns, WebhooksOf, RefsSafe, Moves;
    var wh := AfterRuns(w, files, codec, attempts).(budget := last.budget);
    var goal, before, middle := GoalKeys(files), ContentsOf(w.store), ContentsOf(wh.store);
    EveryReachableStateIsSafe(w, files, codec, attempts);
    UnhinderedRun(wh, files, codec, last);
    WebhookBatchApplies(files, codec, last);
    OverrideForgets(goal, before, middle, Goal(files, codec, last.run));
  }

  /** Running setup again changes no content. */
  lemma SetupIsIdempotent(w: World, files: seq<ManifestFile>, codec: Codec, last: Attempt)
    requires Sound(files) && Faithful(codec) && Unhindered(files, codec, last) && w.budget == last.budget
    requires RefsSafe(GoalKeys(files), ContentsOf(w.store))
    ensures var (w1, _) := SetupRun(w, files, codec, last.run);
            var (w2, done) := SetupRun(w1.(budget := last.budget), files, codec, last.run);
            done && ContentsOf(w2.store) == ContentsOf(w1.store)
  {
    AfterOneRun(w, files, codec, last);
    hide *;
    SetupConverges(w, files, codec, [last], last);
    UnhinderedRun(w, files, codec, last);
  }

  lemma AfterOneRun(w: World, files: seq<ManifestFile>, codec: Codec, a: Attempt)
    requires w.budget == a.budget
    ensures AfterRuns(w, files, codec, [a]) == SetupRun(w, files, codec, a.run).0
  {
    hide SetupRun;
    assert w.(budget := a.budget) == w;
    var w1 := SetupRun(w, files, codec, a.run).0;
    assert AfterRuns(w, files, codec, [a]) == AfterRuns(w1, files, codec, [a][1..]);
  }

  /** What the goal says of the key of a webhook carrier: the carrier as rewritten. */
  lemma GoalAtWebhook(files: seq<ManifestFile>, codec: Codec, a: Attempt, i: nat)
    requires Sound(files) && Faithful(codec) && Unhindered(files, codec, a) && i < |WebhooksOf(files, codec, a.run)|
    ensures var webhooks := WebhooksOf(files, codec, a.run);
            && AllApplied(webhooks) && KeyOf(webhooks[i]) in Goal(files, codec, a.run)
            && Goal(files, codec, a.run)[KeyOf(webhooks[i])] == Content(webhooks[i])
  {
    var webhooks := WebhooksOf(files, codec, a.run);
    WebhooksStay(Prepared(files).value, codec, RewriteTarget(a.run.ca.value, a.run.host));
    AcceptedKeysDistinct(webhooks);
    hide Sound, Faithful, Unhindered, WebhooksOf, GoalKeys, Refusal;
    OverlayAt(Requests(webhooks), Requests(webhooks)[i]);
  }

  /** And of any other key: the object as the RBAC pass left it. */
  lemma GoalAtOther(files: seq<ManifestFile>, codec: Codec, a: Attempt, j: nat)
    requires Sound(files) && Faithful(codec) && Unhindered(files, codec, a)
    requires j < |RbacBatch(Prepared(files).value).value|
    ensures AllApplied(WebhooksOf(files, codec, a.run))
    ensures var o := RbacBatch(Prepared(files).value).value[j];
            && Applied(Kind(o)) && KeyOf(o) in Goal(files, codec, a.run)
            && ((forall p | p in WebhooksOf(files, codec, a.run) :: KeyOf(p) != KeyOf(o)) ==>
                  Goal(files, codec, a.run)[KeyOf(o)] == Content(o))
  {
    WebhookBatchApplies(files, codec, a);
    var rbac := RbacBatch(Prepared(files).value).value;
    AcceptedKeysDistinct(rbac);
    OverlayUnlessOverridden(Requests(rbac), Requests(WebhooksOf(files, codec, a.run)), j);
  }

  lemma OverlayUnlessOverridden(qs: seq<Request>, ws: seq<Request>, j: nat)
    requires DistinctKeys(qs) && j < |qs|
    ensures var both := Overlay(qs) + Overlay(ws);
            qs[j].key in both && ((forall w | w in ws :: w.key != qs[j].key) ==> both[qs[j].key] == Content(qs[j].body))
  {
    hide Content;
    OverlayAt(qs, qs[j]);
  }

  /** After the first batch every name on the wait list is there to be read. */
  lemma WaitListIsInTheStore(w: World, kept: seq<Object>, name: string)
    requires ApplyBatch(w, WithoutBindings(kept)).1.Done?
    requires name in CrdNames(kept)
    ensures Key(CustomResourceDefinitions, "", name) in ApplyBatch(w, WithoutBindings(kept)).0.store
  {
    WaitListIsComplete(kept);
    var o :| o in kept && Kind(o) == CRD && Name(o) == name;
    var b := WithoutBindings(kept);
    FilterMapMembers(UnboundOne, kept);
    CrdIsAddressed(o);
    assert UnboundOne(o) == Some(o) && o in b;
    ApplyIsOverride(w, b);
    var i :| 0 <= i < |b| && b[i] == o;
    assert Requests(b)[i] in Requests(b) && Requests(b)[i].key == KeyOf(o);
    assert KeyOf(o) in ContentsOf(ApplyBatch(w, b).0.store);
  }

  lemma CrdIsAddressed(o: Object)
    requires Kind(o) == CRD
    ensures !IsBinding(o) && Applied(Kind(o)) && KeyOf(o) == Key(CustomResourceDefinitions, "", Name(o))
  {}
}
