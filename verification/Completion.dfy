/** When setup comes to its end, exactly, and what the third batch holds when it does. */
module Completion {
  import opened Wrappers
  import opened Text
  import opened Objects
  import opened Manifests
  import opened ApiServer
  import opened Apply
  import opened ApplyLaws
  import opened Loading
  import opened LoadingLaws
  import opened Filters
  import opened RbacMeaning
  import opened Urls
  import opened Webhook
  import opened WebhookLaws
  import opened RewriteLaws
  import opened Setup
  import opened Convergence

  // ----- What the third batch holds -----

  /** The third batch has one object for every kept webhook configuration and CRD. */
  lemma CarriersExactly(kept: seq<Object>)
    ensures forall o :: o in Carriers(kept) <==>
              o in kept && (Kind(o) == MUTATING || Kind(o) == VALIDATING || Kind(o) == CRD)
  {
    FilterMapMembers(WebhookOne, kept);
  }

  /** Each is encoded from its carrier's typed form with nothing but clientConfigs
      changed, and every one of those has a URL, the CA that was read, and, unless it
      named a service and a URL at once, no service any more. */
  lemma WebhookBatchIsRewritten(kept: seq<Object>, codec: Codec, t: Target, i: nat)
    requires WebhookBatch(kept, codec, t).Some? && i < |Carriers(kept)|
    ensures |WebhookBatch(kept, codec, t).value| == |Carriers(kept)|
    ensures codec.decode(Carriers(kept)[i]).Some?
    ensures var o := codec.decode(Carriers(kept)[i]).value;
            var o' := RewriteObject(o, t).0;
            && codec.encode(o') == Some(WebhookBatch(kept, codec, t).value[i]) && SameButConfigs(o, o')
            && (forall cc | cc in Configs(o') :: cc.caBundle == t.caPEM && cc.url.Some?)
            && ((forall cc | cc in Configs(o) :: OneTarget(cc)) ==> forall cc | cc in Configs(o') :: cc.service.None?)
  {
    var carriers := Carriers(kept);
    var typed := MapAll(Decoder(codec), carriers).value;
    var rewritten := RewriteTyped(typed, t).value;
    var batch := MapAll(Encoder(codec), rewritten).value;
    assert Decoder(codec)(carriers[i]) == Ok(typed[i]);
    assert TypedRewriter(t)(typed[i]) == Ok(rewritten[i]);
    assert Encoder(codec)(rewritten[i]) == Ok(batch[i]);
    hide Carriers, RewriteObject, SameButConfigs, Configs, MapAll;
    RewrittenSameButConfigs(typed[i], t);
    RewrittenConfigs(typed[i], t);
  }

  /** Of all URLs setup redirects those of a loopback name on the hypervisor manager's
      port, and keeps user, port, path, query and fragment as net/url prints them. */
  lemma SetupRedirectsOneTarget(caPEM: Bytes, host: string, url: string)
    ensures Redirection(url, RewriteTarget(caPEM, host).external).Some? <==>
            host != "" && exists scheme, user, name, port, rest ::
              IsExternalLoopback(url, {9443}, scheme, user, name, port, rest)
    ensures forall scheme, user, name, port, rest |
              IsExternalLoopback(url, {9443}, scheme, user, name, port, rest) && host != "" ::
              Redirection(url, RewriteTarget(caPEM, host).external) ==
                Some(Redirected(SpeltUserPart(user).value, host, port, SpeltRest(rest).value))
  {
    RedirectedExactly(url, RewriteTarget(caPEM, host).external);
  }

  /** Whatever host is configured, a URL on 127.0.0.1 and that port with a path of one
      slug, such as the one vendored for HypervisorCluster, goes to that host. */
  lemma AddressGoesToHost(caPEM: Bytes, host: string, slug: string)
    requires host != "" && IsSlug(slug)
    ensures Redirection("https://127.0.0.1:9443/" + slug, RewriteTarget(caPEM, host).external) ==
            Some("https://" + Encode(host, HostPart) + ":9443/" + slug)
    ensures (forall c | c in host :: IsUnreserved(c)) ==> Encode(host, HostPart) == host
    ensures IsSlug("mutate-infrastructure-" + "cluster-x-k8s-io-" + "v1alpha1-hypervisorcluster")
  {
    var external := RewriteTarget(caPEM, host).external;
    if forall c | c in host :: IsUnreserved(c) { UnreservedStands(host); }
    PortTexts();
    HypervisorTexts(Encode(host, HostPart), slug);
    VendoredPathIsSlug();
    hide Itoa, Redirection, Encode, IsUnreserved, IsSlug;
    AddressIsRedirected(9443, slug, external);
  }

  lemma HypervisorTexts(name: string, slug: string)
    ensures "https://127.0.0.1:9443/" + slug == "https://127.0.0.1:" + "9443" + "/" + slug
    ensures "https://" + name + ":9443/" + slug == "https://" + name + ":" + "9443" + "/" + slug
  {
    assert ":9443/" == ":" + "9443" + "/" && "https://127.0.0.1:9443/" == "https://127.0.0.1:" + "9443" + "/";
  }

  lemma VendoredPathIsSlug()
    ensures IsSlug("mutate-infrastructure-" + "cluster-x-k8s-io-" + "v1alpha1-hypervisorcluster")
  {
    FirstPartIsSlug();
    SecondPartIsSlug();
    LastPartIsSlug();
  }

  lemma FirstPartIsSlug()
    ensures IsSlug("mutate-infrastructure-")
  {}

  lemma SecondPartIsSlug()
    ensures IsSlug("cluster-x-k8s-io-")
  {}

  lemma LastPartIsSlug()
    ensures IsSlug("v1alpha1-hypervisorcluster")
  {}

  /** The port each provider's manager serves its webhooks on. */
  function Listener(namespace: string): Option<string> {
    if namespace == "capi-system" || namespace == "hypervisor-system" then Some("9443")
    else if namespace == "capi-kubeadm-bootstrap-system" then Some("9444")
    else if namespace == "capi-kubeadm-control-plane-system" then Some("9445")
    else if namespace == "capd-system" then Some("9446")
    else None
  }

  lemma PortTexts()
    ensures Itoa(9443) == "9443" && Itoa(9444) == "9444" && Itoa(9445) == "9445" && Itoa(9446) == "9446"
  {
    assert Decimal(9) == "9" && Decimal(94) == "94" && Decimal(944) == "944";
  }

  lemma ListenersOfTable(namespace: string)
    ensures Listener(namespace) ==
            if namespace in WEBHOOK_PORTS_BY_NAMESPACE then Some(Itoa(WEBHOOK_PORTS_BY_NAMESPACE[namespace])) else None
  {
    PortTexts();
    hide Itoa;
  }

  /** A service is given the URL its own manager listens on, under its path; and it is
      given one exactly when its namespace has a manager and there is a CA. */
  lemma ServiceGoesToItsManager(cc: ClientConfig, caPEM: Bytes, host: string)
    requires cc.service.Some? && !Redirects(cc, RewriteTarget(caPEM, host))
    ensures var r := RewriteConfig(cc, RewriteTarget(caPEM, host));
            var listener := Listener(cc.service.value.namespace);
            && (r.Ok? <==> caPEM != [] && listener.Some?)
            && (r.Ok? ==>
                  r.value == ClientConfig(Some("https://localhost:" + listener.value + PathText(cc.service.value.path)),
                                          None, caPEM))
  {
    ListenersOfTable(cc.service.value.namespace);
    hide WEBHOOK_PORTS_BY_NAMESPACE, Listener, Redirection, Itoa;
    ConfigOutcome(cc, RewriteTarget(caPEM, host));
  }

  /** What a second rewrite of setup's own output would change, were there one: the URLs
      of services in the two namespaces that share the hypervisor manager's port. */
  lemma SecondRewriteOfSetup(cc: ClientConfig, caPEM: Bytes, host: string)
    requires cc.service.Some? && PathIsRooted(cc.service.value.path)
    ensures SettlesAtOnce(cc, RewriteTarget(caPEM, host)) <==>
            || host == "" || cc.service.value.namespace !in {"capi-system", "hypervisor-system"}
            || SpeltRest(PathText(cc.service.value.path)).None?
            || (host == "localhost" && IsTidyRest(PathText(cc.service.value.path)))
  {
    PortsOfTable(cc.service.value.namespace);
    hide ServiceURL, SpeltRest, IsTidyRest, PathText, PathIsRooted;
  }

  lemma PortsOfTable(namespace: string)
    ensures (namespace in WEBHOOK_PORTS_BY_NAMESPACE &&
             WEBHOOK_PORTS_BY_NAMESPACE[namespace] == HYPERVISOR_WEBHOOK_PORT) <==>
            namespace in {"capi-system", "hypervisor-system"}
    ensures namespace in WEBHOOK_PORTS_BY_NAMESPACE ==> WEBHOOK_PORTS_BY_NAMESPACE[namespace] >= 0
  {
    assert |"capi-system"| == 11 && |"capi-kubeadm-bootstrap-system"| == 29 && |"capd-system"| == 11;
    assert |"capi-kubeadm-control-plane-system"| == 33 && |"hypervisor-system"| == 17;
    assert "capi-system"[3] == 'i' && "capd-system"[3] == 'd';
  }

  // ----- When there is a third batch -----

  /** A clientConfig that can be rewritten, given a CA: it has an external loopback URL,
      or a service in a mapped namespace, or no service and a URL. */
  predicate HasTarget(cc: ClientConfig, t: Target) {
    Redirects(cc, t) || if cc.service.Some? then cc.service.value.namespace in t.ports else cc.url.Some?
  }

  /** A carrier that makes it into the third batch. */
  predicate GoesThrough(c: Object, codec: Codec, t: Target) {
    codec.decode(c).Some? &&
    var o := codec.decode(c).value;
    && !o.Unsupported? && (forall cc | cc in Configs(o) :: t.caPEM != [] && HasTarget(cc, t))
    && codec.encode(RewriteObject(o, t).0).Some?
  }

  lemma GoesThroughStepwise(c: Object, codec: Codec, t: Target)
    ensures GoesThrough(c, codec, t) <==>
            && Decoder(codec)(c).Ok? && TypedRewriter(t)(Decoder(codec)(c).value).Ok?
            && Encoder(codec)(TypedRewriter(t)(Decoder(codec)(c).value).value).Ok?
  {
    if codec.decode(c).Some? {
      var o := codec.decode(c).value;
      ObjectOutcome(o, t);
      hide RewriteObject, RewriteConfig, Configs, Redirects;
      forall cc | cc in Configs(o) { ConfigOutcome(cc, t); }
    }
  }

  /** There is a third batch exactly when every carrier goes through. */
  lemma WebhookBatchExactly(kept: seq<Object>, codec: Codec, t: Target)
    ensures WebhookBatch(kept, codec, t).Some? <==>
            forall c | c in kept && CarriesWebhooks(c) :: GoesThrough(c, codec, t)
  {
    var carriers := Carriers(kept);
    CarriersExactly(kept);
    assert forall c :: c in carriers <==> c in kept && CarriesWebhooks(c);
    forall c | c in carriers
      ensures GoesThrough(c, codec, t) <==>
              && Decoder(codec)(c).Ok? && TypedRewriter(t)(Decoder(codec)(c).value).Ok?
              && Encoder(codec)(TypedRewriter(t)(Decoder(codec)(c).value).value).Ok?
    {
      GoesThroughStepwise(c, codec, t);
    }
    hide CarriesWebhooks, Carriers, GoesThrough;
    ThreeMaps(Decoder(codec), TypedRewriter(t), Encoder(codec), carriers);
  }

  /** Three maps, one after the other, succeed exactly when they do so on each element. */
  lemma ThreeMaps<A, B, C, E, F>(f: A -> Result<B, E>, g: B -> Result<B, F>, h: B -> Result<C, E>, s: seq<A>)
    ensures (MapAll(f, s).Ok? && MapAll(g, MapAll(f, s).value).Ok? &&
             MapAll(h, MapAll(g, MapAll(f, s).value).value).Ok?) <==>
            forall a | a in s :: f(a).Ok? && g(f(a).value).Ok? && h(g(f(a).value).value).Ok?
  {
    hide MapAll;
    if MapAll(f, s).Ok? {
      var bs := MapAll(f, s).value;
      assert forall i | 0 <= i < |s| :: f(s[i]) == Ok(bs[i]) && s[i] in s && bs[i] in bs;
      if MapAll(g, bs).Ok? {
        var cs := MapAll(g, bs).value;
        assert forall i | 0 <= i < |bs| :: g(bs[i]) == Ok(cs[i]) && cs[i] in cs;
      }
    }
  }

  // ----- When a run comes to its end -----

  /** A run that comes to its end shows that the files are sound and nothing hindered it. */
  lemma CompletedMeans(w: World, files: seq<ManifestFile>, codec: Codec, run: Run)
    requires SetupRun(w, files, codec, run).1
    ensures Sound(files) && run.waited && run.ca.Some?
    ensures WebhookBatch(Prepared(files).value, codec, RewriteTarget(run.ca.value, run.host)).Some?
    ensures forall o | o in Prepared(files).value :: Creatable(o)
  {
    var kept := Prepared(files).value;
    var rbac := RbacBatch(kept).value;
    var w1 := ApplyBatch(w, WithoutBindings(kept)).0;
    hide RbacBatch, WithoutBindings, WebhookBatch, RewriteTarget, Creatable, Refusal, ApplyAll;
    KeptAccepted(kept);
    AcceptedAreCreatable(w1, Requests(rbac));
    forall i | 0 <= i < |kept| ensures Creatable(kept[i]) {
      RbacKeeps(kept, i);
      SameKeys(rbac[i], kept[i]);
      assert Requests(rbac)[i] in Requests(rbac) && Requests(rbac)[i].body == rbac[i];
    }
  }

  /** What setup's claim to converge comes to. Given the calls it may need, a run comes to
      its end if and only if the files are sound, every kept object is one the apiserver
      will create, the CRDs come up and the CA can be read, every webhook carrier goes
      through, and no managed binding in the store has a roleRef of another make. */
  lemma SetupCompletesExactly(w: World, files: seq<ManifestFile>, codec: Codec, run: Run)
    requires Faithful(codec)
    requires Prepared(files).Some? ==> w.budget >= 9 * |Prepared(files).value| + 3
    ensures SetupRun(w, files, codec, run).1 <==>
            && Sound(files) && run.waited && run.ca.Some?
            && (forall o | o in Prepared(files).value :: Creatable(o))
            && (forall c | c in Prepared(files).value && CarriesWebhooks(c) ::
                  GoesThrough(c, codec, RewriteTarget(run.ca.value, run.host)))
            && RefsSafe(GoalKeys(files), ContentsOf(w.store))
  {
    hide RbacBatch, WebhookBatch, RewriteTarget, Creatable, Refusal, ApplyBatch, GoalKeys, RefsSafe, SetupRun;
    if SetupRun(w, files, codec, run).1 { CompletedMeans(w, files, codec, run); }
    if Sound(files) && run.ca.Some? {
      var a := Attempt(w.budget, run);
      WebhookBatchExactly(Prepared(files).value, codec, RewriteTarget(run.ca.value, run.host));
      if Unhindered(files, codec, a) { UnhinderedRun(w, files, codec, a); }
    }
  }

  // ----- What success means -----

  /** The second and third batch of a run that came to its end. */
  lemma RbacSuccess(w: World, kept: seq<Object>, codec: Codec, run: Run)
    requires RbacBatch(kept).Some? && SetupRbac(w, kept, codec, run).1
    ensures run.ca.Some? && WebhookBatch(kept, codec, RewriteTarget(run.ca.value, run.host)).Some?
    ensures var rbac := RbacBatch(kept).value;
            var webhooks := WebhookBatch(kept, codec, RewriteTarget(run.ca.value, run.host)).value;
            && AllApplied(rbac) && AllApplied(webhooks) && RefsSafe(Managed(rbac), ContentsOf(w.store))
            && ContentsOf(SetupRbac(w, kept, codec, run).0.store) ==
                 ContentsOf(w.store) + Managed(rbac) + Overlay(Requests(webhooks))
  {
    var rbac := RbacBatch(kept).value;
    var webhooks := WebhookBatch(kept, codec, RewriteTarget(run.ca.value, run.host)).value;
    var w2 := ApplyBatch(w, rbac).0;
    hide RbacBatch, WebhookBatch, RewriteTarget, ContentsOf, Overlay, RefsSafe;
    RbacFitted(w, rbac);
    ApplyIsOverride(w, rbac);
    ApplyIsOverride(w2, webhooks);
  }

  lemma RbacFitted(w: World, rbac: seq<Object>)
    requires ApplyBatch(w, rbac).1.Done?
    ensures AllApplied(rbac) && Managed(rbac) == Overlay(Requests(rbac))
    ensures RefsSafe(Managed(rbac), ContentsOf(w.store))
  {
    AcceptedKeysDistinct(rbac);
    var qs := Requests(rbac);
    assert ApplyBatch(w, rbac) == ApplyAll(w, qs);
    RbacStays(rbac);
    assert Managed(rbac) == Overlay(qs);
    hide *;
    AcceptedFit(w, qs);
    AcceptedAreCreatable(w, qs);
    FitsExactly(w, qs, Managed(rbac));
  }

  /** A run that reports success, however few calls it had, met what success needs and left
      the goal over what was there: no failure on the way is passed over. */
  lemma SuccessMeansGoal(w: World, files: seq<ManifestFile>, codec: Codec, run: Run)
    requires SetupRun(w, files, codec, run).1
    ensures Sound(files) && run.waited && run.ca.Some? && forall o | o in Prepared(files).value :: Creatable(o)
    ensures WebhookBatch(Prepared(files).value, codec, RewriteTarget(run.ca.value, run.host)).Some?
    ensures AllApplied(WebhooksOf(files, codec, run)) && RefsSafe(GoalKeys(files), ContentsOf(w.store))
    ensures ContentsOf(SetupRun(w, files, codec, run).0.store) ==
            ContentsOf(w.store) + Goal(files, codec, run)
  {
    CompletedMeans(w, files, codec, run);
    StepsOfRun(w, files, codec, run);
    var kept, goal := Prepared(files).value, GoalKeys(files);
    var unbound := WithoutBindings(kept);
    var w1 := ApplyBatch(w, unbound).0;
    assert RbacBatch(kept).Some? && Refusal(RbacBatch(kept).value).Done? && SetupRbac(w1, kept, codec, run).1;
    hide *;
    RbacSuccess(w1, kept, codec, run);
    GoalByParts(files, codec, run);
    ApplyIsOverride(w, unbound);
    UnboundStays(kept);
    OverlayStays(goal, Requests(unbound));
    NoBindingsNoChange(goal, ContentsOf(w.store), Requests(unbound));
    OverridesCollapse(ContentsOf(w.store), Overlay(Requests(unbound)), goal,
                      Overlay(Requests(WebhooksOf(files, codec, run))));
  }

  // ----- What the documents say -----

  /** What a clientConfig points at, as a document has it. */
  datatype ConfigTarget = ConfigTarget(url: Option<string>, service: Option<ServiceRef>)

  function TextAt(o: Object, field: string): Option<string> {
    if field in o && o[field].Str? then Some(o[field].text) else None
  }

  function NumberAt(o: Object, field: string): Option<int> {
    if field in o && o[field].Number? then Some(o[field].n) else None
  }

  function TargetOf(config: Object): ConfigTarget {
    var s := DictAt(config, "service");
    var service := ServiceRef(StringAt(s, "namespace"), StringAt(s, "name"), TextAt(s, "path"), NumberAt(s, "port"));
    ConfigTarget(
      TextAt(config, "url"), if "service" in config && config["service"].Dict? then Some(service) else None)
  }

  function ConfigTargetOf(webhook: Value): ConfigTarget {
    TargetOf(if webhook.Dict? then DictAt(webhook.fields, "clientConfig") else map[])
  }

  function ConversionOf(crd: Object): Object { DictAt(DictAt(DictAt(crd, "spec"), "conversion"), "webhook") }

  /** The targets of a webhook carrier's clientConfigs, in order. */
  function WrittenTargets(c: Object): seq<ConfigTarget> {
    if Kind(c) == CRD then
      var webhook := ConversionOf(c);
      if "clientConfig" in webhook && webhook["clientConfig"].Dict?
      then [TargetOf(webhook["clientConfig"].fields)]
      else []
    else if "webhooks" in c && c["webhooks"].List? then
      var items := c["webhooks"].items;
      seq(|items|, i requires 0 <= i < |items| => ConfigTargetOf(items[i]))
    else []
  }

  predicate Points(cc: ClientConfig, target: ConfigTarget) { cc.url == target.url && cc.service == target.service }

  /** The converter reads the targets that are written. */
  ghost predicate ReadsTargets(codec: Codec) {
    forall c | CarriesWebhooks(c) && codec.decode(c).Some? ::
      TargetsAgree(Configs(codec.decode(c).value), WrittenTargets(c))
  }

  predicate TargetsAgree(ccs: seq<ClientConfig>, targets: seq<ConfigTarget>) {
    |ccs| == |targets| && forall i | 0 <= i < |ccs| :: Points(ccs[i], targets[i])
  }

  /** A target that can be given a clientConfig that has it. */
  predicate CanBeGiven(target: ConfigTarget, t: Target) { HasTarget(ClientConfig(target.url, target.service, []), t) }

  /** What a carrier needs to go through, read off the document. */
  lemma GoesThroughAsWritten(c: Object, codec: Codec, t: Target)
    requires ReadsTargets(codec) && CarriesWebhooks(c)
    ensures GoesThrough(c, codec, t) <==>
            && codec.decode(c).Some? && !codec.decode(c).value.Unsupported?
            && (forall target | target in WrittenTargets(c) :: t.caPEM != [] && CanBeGiven(target, t))
            && codec.encode(RewriteObject(codec.decode(c).value, t).0).Some?
  {
    if codec.decode(c).Some? {
      var ccs, targets := Configs(codec.decode(c).value), WrittenTargets(c);
      assert TargetsAgree(ccs, targets);
      hide ReadsTargets, Configs, WrittenTargets, CarriesWebhooks, RewriteObject, Redirects;
      forall i | 0 <= i < |ccs| ensures HasTarget(ccs[i], t) <==> CanBeGiven(targets[i], t) {
        SamePoint(ccs[i], targets[i], t);
      }
      assert forall i | 0 <= i < |ccs| :: ccs[i] in ccs && targets[i] in targets;
    }
  }

  lemma SamePoint(cc: ClientConfig, target: ConfigTarget, t: Target)
    requires Points(cc, target)
    ensures HasTarget(cc, t) <==> CanBeGiven(target, t)
  {}

  /** A webhook served from a namespace outside the component table stops every run
      short of its end, whatever the store, the CA, the host and the calls it is given. */
  lemma UnmappedServiceStopsSetup(
    w: World, files: seq<ManifestFile>, codec: Codec, run: Run, c: Object, target: ConfigTarget)
    requires ReadsTargets(codec)
    requires Prepared(files).Some? && c in Prepared(files).value && CarriesWebhooks(c) && target in WrittenTargets(c)
    requires target.url.None? && target.service.Some?
    requires target.service.value.namespace !in WEBHOOK_PORTS_BY_NAMESPACE
    ensures !SetupRun(w, files, codec, run).1
  {
    hide Prepared, WebhookBatch, CarriesWebhooks, WrittenTargets, SetupRun, Sound;
    hide GoesThrough, RewriteTarget, ReadsTargets;
    if run.ca.Some? {
      var t := RewriteTarget(run.ca.value, run.host);
      WebhookBatchExactly(Prepared(files).value, codec, t);
      SetupPorts(run.ca.value, run.host);
      GoesThroughAsWritten(c, codec, t);
      UnmappedHasNoTarget(target, t);
    }
    if SetupRun(w, files, codec, run).1 { CompletedMeans(w, files, codec, run); }
  }

  lemma SetupPorts(caPEM: Bytes, host: string)
    ensures RewriteTarget(caPEM, host).ports == WEBHOOK_PORTS_BY_NAMESPACE
  {}

  lemma UnmappedHasNoTarget(target: ConfigTarget, t: Target)
    requires target.url.None? && target.service.Some? && target.service.value.namespace !in t.ports
    ensures !CanBeGiven(target, t)
  {}

  // ----- The vendored case: a webhook served from namespace "system" -----

  const UPGRADE_PLAN_PATH := "/mutate-controlplane-cluster-x-k8s-io-v1alpha1-hypervisorupgradeplan"

  function UpgradePlanService(): Object {
    map["name" := Str("webhook-service"), "namespace" := Str("system"), "path" := Str(UPGRADE_PLAN_PATH)]
  }

  /** The webhook as the hypervisor manifests have it. */
  function UpgradePlanWebhook(): Value {
    var rule := Dict(map[
      "apiGroups" := List([Str("controlplane.cluster.x-k8s.io")]),
      "apiVersions" := List([Str("v1alpha1")]),
      "operations" := List([Str("CREATE"), Str("UPDATE")]),
      "resources" := List([Str("hypervisorupgradeplans")])]);
    Dict(map[
      "admissionReviewVersions" := List([Str("v1")]),
      "clientConfig" := Dict(map["service" := Dict(UpgradePlanService())]),
      "failurePolicy" := Str("Fail"),
      "name" := Str("mhypervisorupgradeplan.kb.io"),
      "rules" := List([rule]),
      "sideEffects" := Str("None")])
  }

  lemma UpgradePlanTarget()
    ensures ConfigTargetOf(UpgradePlanWebhook()) ==
            ConfigTarget(None, Some(ServiceRef("system", "webhook-service", Some(UPGRADE_PLAN_PATH), None)))
  {
    UpgradePlanConfig();
    var config, service := DictAt(UpgradePlanWebhook().fields, "clientConfig"), UpgradePlanService();
    hide UpgradePlanWebhook;
    assert "url"[0] == 'u' && "service"[0] == 's' && "port" != "path";
    assert "name"[0] == 'n' && "namespace"[4] == 's' && "port"[0] == 'p';
    assert DictAt(config, "service") == service;
  }

  lemma UpgradePlanConfig()
    ensures UpgradePlanWebhook().Dict?
    ensures DictAt(UpgradePlanWebhook().fields, "clientConfig") == map["service" := Dict(UpgradePlanService())]
  {
    hide UpgradePlanService;
    assert "clientConfig"[0] == 'c';
  }

  /** The vendored hypervisor manifests stop setup: with that webhook among those of any
      kept object no run completes, whatever else the files hold. */
  lemma UpgradePlanWebhookStopsSetup(w: World, files: seq<ManifestFile>, codec: Codec, run: Run, c: Object)
    requires ReadsTargets(codec) && Prepared(files).Some? && c in Prepared(files).value && Kind(c) == MUTATING
    requires "webhooks" in c && c["webhooks"].List? && UpgradePlanWebhook() in c["webhooks"].items
    ensures !SetupRun(w, files, codec, run).1
  {
    var items := c["webhooks"].items;
    var i :| 0 <= i < |items| && items[i] == UpgradePlanWebhook();
    UpgradePlanTarget();
    WebhookGroup();
    assert WrittenTargets(c)[i] == ConfigTargetOf(items[i]) && WrittenTargets(c)[i] in WrittenTargets(c);
    SystemIsUnmapped();
    hide *;
    UnmappedServiceStopsSetup(w, files, codec, run, c, ConfigTargetOf(items[i]));
  }

  lemma SystemIsUnmapped()
    ensures "system" !in WEBHOOK_PORTS_BY_NAMESPACE
  {
    assert |"system"| == 6 && |"capi-system"| == 11 && |"capd-system"| == 11 && |"hypervisor-system"| == 17;
    assert |"capi-kubeadm-bootstrap-system"| == 29 && |"capi-kubeadm-control-plane-system"| == 33;
  }

  /** The vendored configuration, cut down to the webhook in question. */
  function HypervisorWebhooks(): Object {
    map["apiVersion" := Str("admissionregistration.k8s.io/v1"),
        "kind" := Str(MUTATING),
        "metadata" := Dict(map["name" := Str("mutating-webhook-configuration")]),
        "webhooks" := List([UpgradePlanWebhook()])]
  }

  lemma HypervisorFields()
    ensures var o := HypervisorWebhooks();
            && ApiVersion(o) == "admissionregistration.k8s.io/v1" && Kind(o) == MUTATING && Namespace(o) == ""
            && Name(o) == "mutating-webhook-configuration" && ResourceVersion(o) == ""
            && "webhooks" in o && o["webhooks"] == List([UpgradePlanWebhook()])
  {
    hide UpgradePlanWebhook;
    assert "apiVersion"[0] == 'a' && "kind"[0] == 'k' && "metadata"[0] == 'm' && "webhooks"[0] == 'w';
    assert "name" != "namespace" && "name" != "resourceVersion";
    assert DictAt(HypervisorWebhooks(), "metadata") == map["name" := Str("mutating-webhook-configuration")];
  }

  lemma WebhookKindIsKept(o: Object)
    requires Kind(o) == MUTATING && ApiVersion(o) == "admissionregistration.k8s.io/v1"
    ensures Keep(o) && CarriesWebhooks(o) && !IsBinding(o) && !InScope(o)
  {
    KeptExactly(o);
    WebhookGroup();
    hide Keep, ApiVersion, Kind, KeptGroup;
  }

  lemma WebhookGroup()
    ensures KeptGroup(MUTATING) == Some("admissionregistration.k8s.io")
    ensures "admissionregistration.k8s.io" + "/v1" == "admissionregistration.k8s.io/v1"
    ensures MUTATING != CRD && MUTATING != CLUSTER_ROLE_BINDING && MUTATING != ROLE_BINDING
  {}

  lemma HypervisorIsNulFree()
    ensures NulFreeObject(HypervisorWebhooks())
  {
    HypervisorFields();
    hide HypervisorWebhooks, ApiVersion, Kind, Name, Namespace;
  }

  /** One document that is kept is prepared as it is. */
  lemma PreparedAlone(path: string, doc: Object)
    requires Keep(doc) && !InScope(doc)
    ensures var files := [ManifestFile(path, Some([doc]))]; Prepared(files) == Some([doc]) && Documents(files) == [doc]
  {
    var files := [ManifestFile(path, Some([doc]))];
    OneDocument(path, doc);
    DedupeIdempotent([doc]);
    assert RestrictOne(doc) == Some(doc) && KeepOne(doc) == Some(doc);
    hide Keep, InScope, SameId, ObjectIdentity, FirstOccurrences, RestrictOne, KeepOne, Documents, FilterMap;
    FilterMapAlone(RestrictOne, doc);
    FilterMapAlone(KeepOne, doc);
  }

  lemma OneDocument(path: string, doc: Object)
    ensures var files := [ManifestFile(path, Some([doc]))]; Documents(files) == [doc] && Loadable(files)
  {
    var files := [ManifestFile(path, Some([doc]))];
    assert files[..0] == [] && Documents(files) == [] + [doc] == [doc];
  }

  lemma FilterMapAlone<A, B>(f: A -> Option<B>, a: A)
    requires f(a).Some?
    ensures FilterMap(f, [a]) == [f(a).value]
  {
    assert [a][..0] == [] && [] + [f(a).value] == [f(a).value];
  }

  /** A file of it is a sound set of manifests with nothing else amiss, and no run
      completes on it. */
  lemma VendoredHypervisorStopsSetup(w: World, path: string, codec: Codec, run: Run)
    requires ReadsTargets(codec)
    ensures var files := [ManifestFile(path, Some([HypervisorWebhooks()]))];
            && Sound(files) && (forall o | o in Prepared(files).value :: Creatable(o))
            && !SetupRun(w, files, codec, run).1
  {
    var doc := HypervisorWebhooks();
    HypervisorFields();
    WebhookKindIsKept(doc);
    HypervisorIsNulFree();
    AdmissionIsCreatable(doc);
    hide *;
    PreparedAlone(path, doc);
    UpgradePlanAlone(w, [ManifestFile(path, Some([doc]))], codec, run, doc);
  }

  lemma UpgradePlanAlone(w: World, files: seq<ManifestFile>, codec: Codec, run: Run, doc: Object)
    requires ReadsTargets(codec) && Prepared(files) == Some([doc]) && Documents(files) == [doc]
    requires NulFreeObject(doc) && !IsBinding(doc) && Creatable(doc) && Kind(doc) == MUTATING
    requires "webhooks" in doc && doc["webhooks"] == List([UpgradePlanWebhook()])
    ensures Sound(files) && (forall o | o in Prepared(files).value :: Creatable(o)) && !SetupRun(w, files, codec, run).1
  {
    hide *;
    OneIsSound(files, doc);
    assert doc["webhooks"].items[0] == UpgradePlanWebhook();
    UpgradePlanWebhookStopsSetup(w, files, codec, run, doc);
  }

  lemma AdmissionIsCreatable(o: Object)
    requires Kind(o) == MUTATING && Name(o) == "mutating-webhook-configuration" && ResourceVersion(o) == ""
    ensures Creatable(o)
  {
    hide Kind, Name, ResourceVersion;
  }

  lemma OneIsSound(files: seq<ManifestFile>, doc: Object)
    requires Prepared(files) == Some([doc]) && Documents(files) == [doc]
    requires NulFreeObject(doc) && !IsBinding(doc)
    ensures Sound(files)
  {
    OneIsRewritable(doc);
    OneAlone(files, doc);
    hide *;
    SoundExactly(files);
  }

  lemma OneIsRewritable(doc: Object)
    requires !IsBinding(doc)
    ensures Rewritable(doc, MANAGER_CN_BY_NAMESPACE) && Kind(doc) != CLUSTER_ROLE_BINDING
  {}

  lemma OneAlone(files: seq<ManifestFile>, doc: Object)
    requires Prepared(files) == Some([doc])
    ensures Loadable(files) && Agreeing(Documents(files))
    ensures Kept(Restricted(FirstOccurrences(Documents(files)))) == [doc]
  {
    hide Loadable, Agreeing, Kept, Restricted, FirstOccurrences, Documents;
  }

  // ----- That there are such converters -----

  function ConfigFor(target: ConfigTarget): ClientConfig { ClientConfig(target.url, target.service, []) }

  /** A converter that keeps the document beside the targets it reads in it. */
  function ReadingCodec(): Codec {
    Codec(ReadDocument, (t: TypedObject) => if t.Unsupported? then None else Some(t.rest))
  }

  function ReadDocument(o: Object): Option<TypedObject> {
    var targets := WrittenTargets(o);
    if Kind(o) == CRD then
      if targets == [] then Some(Definition(None, o))
      else
        var webhook := ConversionWebhook(Some(ConfigFor(targets[0])), map[]);
        Some(Definition(Some(Conversion("Webhook", Some(webhook))), o))
    else
      var webhooks := seq(|targets|, i requires 0 <= i < |targets| => Webhook("", ConfigFor(targets[i]), map[]));
      if Kind(o) == MUTATING then Some(Mutating(webhooks, o))
      else if Kind(o) == VALIDATING then Some(Validating(webhooks, o))
      else None
  }

  /** The two assumptions made of a converter are met together, by one that reads every
      carrier. */
  lemma ConvertersExist()
    ensures Faithful(ReadingCodec()) && ReadsTargets(ReadingCodec())
    ensures forall c | CarriesWebhooks(c) :: ReadingCodec().decode(c).Some?
  {
    hide WrittenTargets, Kind, Namespace, Name, ResourceVersion;
    forall c | CarriesWebhooks(c)
      ensures ReadDocument(c).Some? && TargetsAgree(Configs(ReadDocument(c).value), WrittenTargets(c))
    {
      DocumentIsRead(c);
    }
  }

  lemma DocumentIsRead(c: Object)
    requires CarriesWebhooks(c)
    ensures ReadDocument(c).Some? && TargetsAgree(Configs(ReadDocument(c).value), WrittenTargets(c))
  {
    OneConversion(c);
    hide WrittenTargets;
    if Kind(c) != CRD {
      var ws := ReadDocument(c).value.webhooks;
      assert forall i | 0 <= i < |ws| :: ConfigsOf(ws)[i] == ConfigFor(WrittenTargets(c)[i]);
    }
  }

  lemma OneConversion(c: Object)
    ensures Kind(c) == CRD ==> |WrittenTargets(c)| <= 1
  {}
}
