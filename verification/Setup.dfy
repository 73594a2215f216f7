/** The setup run: load, apply in three overlapping batches with a wait between,
    and stop at the first failure, wherever that is. */
module Setup {
  import opened Wrappers
  import opened Text
  import opened Objects
  import opened Manifests
  import opened ApiServer
  import opened Apply
  import opened ApplyLaws
  import opened Loading
  import opened LoadingLaws
  import opened Filters
  import opened Rbac
  import opened Webhook
  import opened CrdWait
  import opened RewriteLaws

  // ----- The component table, as far as setup consults it -----

  const ADMIN_CN := "capishim:admin"

  const HYPERVISOR_WEBHOOK_PORT: GoInt := 9443

  const MANAGER_CN_BY_NAMESPACE: map<string, string> := map[
    "capi-system" := "capishim:core-manager",
    "capi-kubeadm-bootstrap-system" := "capishim:cabpk-manager",
    "capi-kubeadm-control-plane-system" := "capishim:kcp-manager",
    "capd-system" := "capishim:capd-manager",
    "hypervisor-system" := "capishim:hypervisor-manager"]

  const WEBHOOK_PORTS_BY_NAMESPACE: map<string, GoInt> := map[
    "capi-system" := 9443,
    "capi-kubeadm-bootstrap-system" := 9444,
    "capi-kubeadm-control-plane-system" := 9445,
    "capd-system" := 9446,
    "hypervisor-system" := 9443]

  // ----- Typed and unstructured forms -----

  /** The converter between unstructured and typed objects, a library's. */
  datatype Codec = Codec(decode: Object -> Option<TypedObject>, encode: TypedObject -> Option<Object>)

  predicate CarriesWebhooks(o: Object) { Kind(o) == MUTATING || Kind(o) == VALIDATING || Kind(o) == CRD }

  function WebhookOne(o: Object): Option<Object> { if CarriesWebhooks(o) then Some(o) else None }

  function Decoder(c: Codec): Object -> Result<TypedObject, ()> {
    o => var t := c.decode(o); if t.Some? then Ok(t.value) else Err(())
  }

  function Encoder(c: Codec): TypedObject -> Result<Object, ()> {
    t => var o := c.encode(t); if o.Some? then Ok(o.value) else Err(())
  }

  function Carriers(kept: seq<Object>): seq<Object> { FilterMap(WebhookOne, kept) }

  // ----- The run -----

  /** The objects every batch derives from. */
  function Prepared(files: seq<ManifestFile>): Option<seq<Object>> {
    if Loadable(files) && Agreeing(Documents(files))
    then Some(Kept(Restricted(FirstOccurrences(Documents(files)))))
    else None
  }

  function RewriteTarget(caPEM: Bytes, host: string): Target {
    Target(WEBHOOK_PORTS_BY_NAMESPACE, caPEM, External(host, {HYPERVISOR_WEBHOOK_PORT}))
  }

  /** The second batch: the kept objects with bindings rewritten, and the admin's. */
  function RbacBatch(kept: seq<Object>): Option<seq<Object>> {
    match Rewritten(kept, MANAGER_CN_BY_NAMESPACE)
    case Err(_) => None
    case Ok(objs) => Some(objs + [AdminClusterRoleBinding(ADMIN_CN)])
  }

  /** The third batch: the webhook carriers, always rewritten from the kept objects. */
  function WebhookBatch(kept: seq<Object>, codec: Codec, t: Target): Option<seq<Object>> {
    match MapAll(Decoder(codec), Carriers(kept))
    case Err(_) => None
    case Ok(typed) =>
      match RewriteTyped(typed, t)
      case Err(_) => None
      case Ok(rewritten) =>
        match MapAll(Encoder(codec), rewritten)
        case Err(_) => None
        case Ok(objs) => Some(objs)
  }

  /** What one run meets: whether the CRDs were found established in time, the CA as
      read back from disk, and the external webhook host configured. */
  datatype Run = Run(waited: bool, ca: Option<Bytes>, host: string)

  /** A run from the given world, and whether it came to its end. */
  function SetupRun(w: World, files: seq<ManifestFile>, codec: Codec, run: Run): (World, bool) {
    match Prepared(files)
    case None => (w, false)
    case Some(kept) =>
      var (w1, r1) := ApplyBatch(w, WithoutBindings(kept));
      if !r1.Done? || !run.waited then (w1, false) else SetupRbac(w1, kept, codec, run)
  }

  function SetupRbac(w: World, kept: seq<Object>, codec: Codec, run: Run): (World, bool) {
    match RbacBatch(kept)
    case None => (w, false)
    case Some(rbac) =>
      var (w2, r2) := ApplyBatch(w, rbac);
      if !r2.Done? || run.ca.None? then (w2, false) else SetupWebhooks(w2, kept, codec, run)
  }

  function SetupWebhooks(w: World, kept: seq<Object>, codec: Codec, run: Run): (World, bool)
    requires run.ca.Some?
  {
    match WebhookBatch(kept, codec, RewriteTarget(run.ca.value, run.host))
    case None => (w, false)
    case Some(webhooks) =>
      var (w3, r3) := ApplyBatch(w, webhooks);
      (w3, r3.Done?)
  }

  // ----- The steps of a run -----

  method WebhookObjects(kept: seq<Unstructured>, codec: Codec) returns (r: Option<seq<RuntimeObject>>)
    ensures r.Some? <==> MapAll(Decoder(codec), Carriers(Contents(kept))).Ok?
    ensures r.Some? ==> Ok(Typed(r.value)) == MapAll(Decoder(codec), Carriers(Contents(kept)))
    ensures r.Some? ==> forall o | o in r.value :: fresh(o)
    ensures r.Some? ==> forall i, j | 0 <= i < j < |r.value| :: r.value[i] != r.value[j]
  {
    hide CarriesWebhooks, MapAll;
    ghost var all, f := Contents(kept), Decoder(codec);
    var out: seq<RuntimeObject> := [];
    for i := 0 to |kept|
      invariant forall o | o in out :: fresh(o)
      invariant forall i, j | 0 <= i < j < |out| :: out[i] != out[j]
      invariant MapAll(f, Carriers(all[..i])) == Ok(Typed(out))
    {
      FilterMapStep(WebhookOne, all, i);
      if CarriesWebhooks(kept[i].data) {
        ghost var was := Typed(out);
        MapAllAppend(f, Carriers(all[..i]), all[i]);
        var typed := codec.decode(kept[i].data);
        if typed.None? {
          CarrierFails(all, i, codec);
          return None;
        }
        var o := new RuntimeObject(typed.value);
        out := out + [o];
        assert Typed(out) == was + [typed.value];
      } else {
        assert Carriers(all[..i + 1]) == Carriers(all[..i]);
      }
    }
    assert all[..|kept|] == all;
    return Some(out);
  }

  lemma {:induction false} CarrierStays(all: seq<Object>, o: Object)
    requires o in all && CarriesWebhooks(o)
    ensures o in Carriers(all)
  {
    hide CarriesWebhooks;
    var n := |all| - 1;
    assert all == all[..n] + [all[n]];
    if o != all[n] { CarrierStays(all[..n], o); }
  }

  lemma CarrierFails(all: seq<Object>, i: nat, codec: Codec)
    requires i < |all| && CarriesWebhooks(all[i]) && codec.decode(all[i]).None?
    ensures MapAll(Decoder(codec), Carriers(all)).Err?
  {
    CarrierStays(all, all[i]);
  }

  method UnstructuredObjects(objs: seq<RuntimeObject>, codec: Codec) returns (r: Option<seq<Unstructured>>)
    ensures r.Some? <==> MapAll(Encoder(codec), Typed(objs)).Ok?
    ensures r.Some? ==> Ok(Contents(r.value)) == MapAll(Encoder(codec), Typed(objs))
    ensures r.Some? ==> forall o | o in r.value :: fresh(o)
  {
    hide MapAll;
    ghost var all, f := Typed(objs), Encoder(codec);
    var out: seq<Unstructured> := [];
    for i := 0 to |objs|
      invariant Typed(objs) == all
      invariant forall o | o in out :: fresh(o)
      invariant MapAll(f, all[..i]) == Ok(Contents(out))
    {
      MapAllStep(f, all, i);
      ghost var was := Contents(out);
      var encoded := codec.encode(objs[i].typed);
      if encoded.None? {
        MapAllFails(f, all, i + 1);
        return None;
      }
      var o := new Unstructured(encoded.value);
      out := out + [o];
      assert Contents(out) == was + [encoded.value];
    }
    assert all[..|objs|] == all;
    return Some(out);
  }

  /** RewriteAll over the fresh, distinct objects of a run. */
  method RewriteFresh(objs: seq<RuntimeObject>, t: Target) returns (e: Option<RewriteError>)
    requires forall i, j | 0 <= i < j < |objs| :: objs[i] != objs[j]
    modifies objs
    ensures match RewriteTyped(old(Typed(objs)), t)
            case Err(_) => e.Some?
            case Ok(rewritten) => e.None? && Typed(objs) == rewritten
  {
    ghost var was, heap := Typed(objs), Heap(objs);
    assert forall i | 0 <= i < |objs| :: objs[i] in objs && heap[objs[i]] == was[i];
    e := RewriteAll(objs, t);
    HeapIsPointwise(objs, heap, t);
    RewrittenPointwise(was, t);
    hide RewriteObject, RewriteTyped, RewriteHeap;
    assert forall i | 0 <= i < |objs| :: Heap(objs)[objs[i]] == Typed(objs)[i];
    if RewriteTyped(was, t).Ok? { assert Typed(objs) == RewriteTyped(was, t).value; }
  }

  lemma RewrittenPointwise(was: seq<TypedObject>, t: Target)
    ensures RewriteTyped(was, t).Ok? <==> forall i | 0 <= i < |was| :: RewriteObject(was[i], t).1.None?
    ensures RewriteTyped(was, t).Ok? ==> |RewriteTyped(was, t).value| == |was|
    ensures RewriteTyped(was, t).Ok? ==>
              forall i | 0 <= i < |was| :: RewriteTyped(was, t).value[i] == RewriteObject(was[i], t).0
  {}

  method ApplyWebhooks(client: Client, kept: seq<Unstructured>, codec: Codec, caPEM: Bytes, host: string)
    returns (done: bool)
    modifies client
    ensures (client.View(), done) ==
            SetupWebhooks(old(client.View()), old(Contents(kept)), codec, Run(true, Some(caPEM), host))
  {
    hide ApplyBatch, Carriers, MapAll, Decoder, Encoder, RewriteTarget;
    var objects := WebhookObjects(kept, codec);
    if objects.None? { return false; }
    assert forall o | o in objects.value :: fresh(o);
    assert forall i | 0 <= i < |objects.value| :: objects.value[i] in objects.value;
    var e := RewriteFresh(objects.value, RewriteTarget(caPEM, host));
    if e.Some? { return false; }
    var batch := UnstructuredObjects(objects.value, codec);
    if batch.None? { return false; }
    var r := Apply.Apply(client, batch.value);
    return r.Done?;
  }

  method ApplyRbac(client: Client, kept: seq<Unstructured>, codec: Codec, ca: Option<Bytes>, host: string)
    returns (done: bool)
    modifies client
    ensures (client.View(), done) == SetupRbac(old(client.View()), old(Contents(kept)), codec, Run(true, ca, host))
  {
    hide ApplyBatch, Rewritten, AdminClusterRoleBinding, SetupWebhooks;
    var rewritten := RewriteRBACSubjects(kept, MANAGER_CN_BY_NAMESPACE);
    if rewritten.Err? { return false; }
    var admin := new Unstructured(AdminClusterRoleBinding(ADMIN_CN));
    var batch := rewritten.value + [admin];
    assert Contents(batch) == Contents(rewritten.value) + [admin.data];
    var r := Apply.Apply(client, batch);
    if !r.Done? || ca.None? { return false; }
    done := ApplyWebhooks(client, kept, codec, ca.value, host);
  }

  /** A first batch that went through holds no CRD without a name. */
  lemma NoNamelessCRD(w: World, kept: seq<Object>)
    requires ApplyBatch(w, WithoutBindings(kept)).1.Done?
    ensures "" !in CrdNames(kept)
  {
    var b := WithoutBindings(kept);
    WaitListIsComplete(kept);
    UnboundExactly(kept);
    RefusalMeans(b);
    AcceptedAreCreatable(w, Requests(b));
    hide WithoutBindings, CrdNames, Refusal, Applied;
    forall o | o in kept && Kind(o) == CRD ensures Name(o) != "" {
      CRDIsNoBinding(o);
      var i :| 0 <= i < |b| && b[i] == o;
      assert Requests(b)[i] in Requests(b) && Requests(b)[i].body == o;
    }
  }

  lemma CRDIsNoBinding(o: Object)
    requires Kind(o) == CRD
    ensures Kind(o) != CLUSTER_ROLE_BINDING && Kind(o) != ROLE_BINDING
  {}

  /** Whether the CRDs of the files come up while the run waits for them. */
  ghost predicate CRDsComeUp(watch: Watch, files: seq<ManifestFile>, timeout: int) {
    Prepared(files).Some? && ComesUp(watch, CrdNames(Prepared(files).value), timeout)
  }

  /** The whole run against the apiserver: what it does to the store and whether it comes
      to its end, told from the files, what the watch shows, the CA and the host. */
  method Setup(
    client: Client, files: seq<ManifestFile>, codec: Codec, watch: Watch, timeout: int, ca: Option<Bytes>, host: string)
    returns (done: bool)
    requires Sleeps(watch)
    modifies client
    ensures (client.View(), done) ==
            SetupRun(old(client.View()), files, codec, Run(CRDsComeUp(watch, files, timeout), ca, host))
  {
    hide ApplyBatch, SetupRbac, FirstOccurrences, Restricted, Kept, WithoutBindings, CrdNames, Agreeing, ComesUp;
    ghost var was := client.View();
    var loaded := LoadDedupedObjects(files);
    if loaded.Err? { return false; }
    var restricted := RestrictCAPIVersionsToV1Beta2(loaded.value);
    var kept := KeepObjects(restricted);
    var unbound := WithoutRBACBindings(kept);
    var r := Apply.Apply(client, unbound);
    if !r.Done? { return false; }
    var names := CrdNamesFrom(kept);
    NoNamelessCRD(was, Prepared(files).value);
    var established, _ := WaitForCRDEstablished(watch, names, timeout);
    if established.Err? { return false; }
    done := ApplyRbac(client, kept, codec, ca, host);
  }
}
