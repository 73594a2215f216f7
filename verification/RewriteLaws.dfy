/** RewriteAll on whole objects: exact success, exact result, and how many passes
    it takes to settle. */
module RewriteLaws {
  import opened Wrappers
  import opened Text
  import opened Urls
  import opened Webhook
  import opened WebhookLaws

  // ----- One clientConfig -----

  /** The URL is an external component's loopback URL. */
  predicate Redirects(cc: ClientConfig, t: Target) { cc.url.Some? && Redirection(cc.url.value, t.external).Some? }

  /** The three outcomes, the CA that every one needs, and what each one writes. */
  lemma ConfigOutcome(cc: ClientConfig, t: Target)
    ensures RewriteConfig(cc, t).Ok? <==>
            t.caPEM != [] &&
            (Redirects(cc, t) ||
             (if cc.service.Some? then cc.service.value.namespace in t.ports else cc.url.Some?))
    ensures RewriteConfig(cc, t).Err? ==>
              RewriteConfig(cc, t).error ==
                if Redirects(cc, t) then EmptyCA
                else if cc.service.Some? && cc.service.value.namespace !in t.ports then
                  UnknownNamespace(cc.service.value.namespace)
                else if cc.service.None? && cc.url.None? then NoServiceOrURL
                else EmptyCA
    ensures RewriteConfig(cc, t).Ok? ==>
              var r := RewriteConfig(cc, t).value;
              && r.caBundle == t.caPEM && r.url.Some?
              && (r.service.Some? <==> Redirects(cc, t) && cc.service.Some?)
              && (Redirects(cc, t) ==> r.url == Redirection(cc.url.value, t.external))
              && (!Redirects(cc, t) && cc.service.Some? ==>
                    r.url == Some("https://localhost:" + Itoa(t.ports[cc.service.value.namespace]) +
                                  PathText(cc.service.value.path)))
              && (!Redirects(cc, t) && cc.service.None? ==> r.url == cc.url)
  {}

  /** As the API has it: a clientConfig names a service or a URL, not both. */
  predicate OneTarget(cc: ClientConfig) { cc.url.None? || cc.service.None? }

  /** Whether the URL a service is given would be redirected by another pass, and
      elsewhere. With a path as the API has it, empty or from a slash on, it is a matter of
      the port, the escapes in the path and the host. */
  predicate ServiceStays(port: GoInt, path: Option<string>, external: External) {
    if PathIsRooted(path) then
      || external.host == "" || port < 0 || port !in external.ports || SpeltRest(PathText(path)).None?
      || (external.host == "localhost" && IsTidyRest(PathText(path)))
    else StaysPut(ServiceURL(port, path), external)
  }

  /** Once rewritten it stays as it is: the URL its service is given stays. */
  predicate SettlesAtOnce(cc: ClientConfig, t: Target) {
    cc.service.Some? && cc.service.value.namespace in t.ports ==>
      ServiceStays(t.ports[cc.service.value.namespace], cc.service.value.path, t.external)
  }

  lemma ServiceStaysPut(port: GoInt, path: Option<string>, external: External)
    ensures ServiceStays(port, path, external) <==> StaysPut(ServiceURL(port, path), external)
  {
    hide StaysPut, ServiceURL, SpeltRest, IsTidyRest, PathText;
    if PathIsRooted(path) { ServiceURLStaysExactly(port, path, external); }
  }

  /** A second pass changes nothing exactly then; a redirected URL it never changes. */
  lemma SecondPass(cc: ClientConfig, t: Target)
    requires RewriteConfig(cc, t).Ok? && OneTarget(cc)
    ensures var cc1 := RewriteConfig(cc, t).value;
            && OneTarget(cc1) && cc1.service.None? && RewriteConfig(cc1, t).Ok?
            && (RewriteConfig(cc1, t) == Ok(cc1) <==> SettlesAtOnce(cc, t))
  {
    var cc1 := RewriteConfig(cc, t).value;
    ConfigOutcome(cc, t);
    ConfigOutcome(cc1, t);
    hide Redirection, ServiceURL, IsLoopback, ServiceStays;
    if Redirects(cc, t) {
      RedirectionSettles(cc.url.value, t.external);
    } else if cc.service.Some? {
      var port, path := t.ports[cc.service.value.namespace], cc.service.value.path;
      ServiceURLText(port, path);
      ServiceStaysPut(port, path, t.external);
    }
  }

  /** Two passes settle, whatever the external host. */
  lemma ThirdPass(cc: ClientConfig, t: Target)
    requires RewriteConfig(cc, t).Ok? && OneTarget(cc)
    ensures var cc1 := RewriteConfig(cc, t).value;
            RewriteConfig(cc1, t).Ok? && RewriteConfig(RewriteConfig(cc1, t).value, t) == RewriteConfig(cc1, t)
  {
    SecondPass(cc, t);
    SecondPass(RewriteConfig(cc, t).value, t);
  }

  /** With both a service and an external loopback URL the service stays, and unless
      the external host is loopback too the next pass overwrites the redirected URL. */
  lemma BothTargetsConflict(cc: ClientConfig, t: Target)
    requires Redirects(cc, t) && cc.service.Some? && cc.service.value.namespace in t.ports && t.caPEM != []
    requires !IsLoopback(t.external.host)
    ensures RewriteConfig(cc, t).Ok? && RewriteConfig(cc, t).value.service == cc.service
    ensures var cc1 := RewriteConfig(cc, t).value;
            RewriteConfig(cc1, t).Ok? &&
            RewriteConfig(cc1, t).value.url ==
              Some(ServiceURL(t.ports[cc.service.value.namespace], cc.service.value.path))
  {
    hide Redirection, ServiceURL, IsLoopback;
    RedirectionSettles(cc.url.value, t.external);
  }

  /** The rewrite is not idempotent as such. In the component table core and the
      external hypervisor manager share port 9443, so a second pass sends core's own
      loopback URL to the hypervisor host. */
  lemma CoreIsRedirectedBySecondPass(path: Option<string>, host: string)
    requires PathIsRooted(path) && SpeltRest(PathText(path)).Some? && host != "" && host != "localhost"
    ensures var cc := ClientConfig(None, Some(ServiceRef("capi-system", "capi-webhook-service", path, None)), []);
            var t := Target(map["capi-system" := 9443], [1], External(host, {9443}));
            && RewriteConfig(cc, t).Ok? && RewriteConfig(cc, t).value.url == Some(ServiceURL(9443, path))
            && RewriteConfig(RewriteConfig(cc, t).value, t).Ok?
            && RewriteConfig(RewriteConfig(cc, t).value, t).value.url ==
                 Some(Redirected("", host, Itoa(9443), SpeltRest(PathText(path)).value))
            && RewriteConfig(RewriteConfig(cc, t).value, t) != RewriteConfig(cc, t)
  {
    hide Redirection, SpeltRest, IsTidyRest, Redirected, PathIsRooted, ServiceURL, PathText, Itoa;
    ServiceURLRedirection(9443, path, External(host, {9443}));
    ServiceURLStaysExactly(9443, path, External(host, {9443}));
  }

  // ----- Whole objects -----

  /** The clientConfigs of an object, in order. */
  function Configs(o: TypedObject): seq<ClientConfig> {
    match o
    case Mutating(ws, _) => ConfigsOf(ws)
    case Validating(ws, _) => ConfigsOf(ws)
    case Definition(Some(Conversion(_, Some(ConversionWebhook(Some(cc), _)))), _) => [cc]
    case _ => []
  }

  function ConfigsOf(ws: seq<Webhook>): (r: seq<ClientConfig>)
    ensures |r| == |ws|
  {
    seq(|ws|, i requires 0 <= i < |ws| => ws[i].clientConfig)
  }

  function WithConfigsOf(ws: seq<Webhook>, ccs: seq<ClientConfig>): seq<Webhook>
    requires |ws| == |ccs|
  {
    seq(|ws|, i requires 0 <= i < |ws| => ws[i].(clientConfig := ccs[i]))
  }

  /** The object with other clientConfigs and nothing else changed. */
  function WithConfigs(o: TypedObject, ccs: seq<ClientConfig>): TypedObject
    requires |ccs| == |Configs(o)|
  {
    match o
    case Mutating(ws, rest) => Mutating(WithConfigsOf(ws, ccs), rest)
    case Validating(ws, rest) => Validating(WithConfigsOf(ws, ccs), rest)
    case Definition(Some(Conversion(s, Some(ConversionWebhook(Some(cc), r)))), rest) =>
      Definition(Some(Conversion(s, Some(ConversionWebhook(Some(ccs[0]), r)))), rest)
    case _ => o
  }

  function ConfigRewriter(t: Target): ClientConfig -> Result<ClientConfig, RewriteError> {
    cc => RewriteConfig(cc, t)
  }

  predicate AllRewritable(ws: seq<Webhook>, t: Target) {
    forall i | 0 <= i < |ws| :: RewriteConfig(ws[i].clientConfig, t).Ok?
  }

  lemma {:induction false} WebhooksPointwise(ws: seq<Webhook>, t: Target)
    ensures RewriteWebhooks(ws, t).1.None? <==> AllRewritable(ws, t)
    ensures AllRewritable(ws, t) ==> forall i | 0 <= i < |ws| ::
              RewriteWebhooks(ws, t).0[i] == ws[i].(clientConfig := RewriteConfig(ws[i].clientConfig, t).value)
  {
    if ws != [] {
      hide RewriteConfig;
      var tail := ws[1..];
      WebhooksPointwise(tail, t);
      assert forall i | 0 <= i < |tail| :: tail[i] == ws[i + 1];
      assert AllRewritable(ws, t) <==> RewriteConfig(ws[0].clientConfig, t).Ok? && AllRewritable(tail, t) by {
        assert forall i | 0 < i < |ws| :: ws[i] == tail[i - 1];
      }
    }
  }

  lemma ConfigsRewritable(ws: seq<Webhook>, t: Target)
    ensures AllRewritable(ws, t) <==> forall cc | cc in ConfigsOf(ws) :: RewriteConfig(cc, t).Ok?
  {
    hide RewriteConfig;
    var ccs := ConfigsOf(ws);
    assert forall i | 0 <= i < |ws| :: ccs[i] == ws[i].clientConfig && ccs[i] in ccs;
  }

  /** One object: rewritten exactly when it is of a supported kind and each of its
      clientConfigs can be, and then those are all that changes. */
  lemma ObjectOutcome(o: TypedObject, t: Target)
    ensures RewriteObject(o, t).1.None? <==>
            !o.Unsupported? && forall cc | cc in Configs(o) :: RewriteConfig(cc, t).Ok?
    ensures RewriteObject(o, t).1.None? ==>
              var ccs := MapAll(ConfigRewriter(t), Configs(o));
              ccs.Ok? && RewriteObject(o, t).0 == WithConfigs(o, ccs.value)
  {
    hide RewriteConfig;
    if o.Mutating? || o.Validating? {
      WebhooksPointwise(o.webhooks, t);
      ConfigsRewritable(o.webhooks, t);
      if RewriteObject(o, t).1.None? {
        var ccs := MapAll(ConfigRewriter(t), Configs(o)).value;
        assert WithConfigsOf(o.webhooks, ccs) == RewriteWebhooks(o.webhooks, t).0;
      }
    } else if Configs(o) != [] {
      assert Configs(o)[0] in Configs(o);
    }
  }

  /** The clientConfig a rewrite fails at: those before it can be rewritten. */
  predicate StopsAtConfig(ccs: seq<ClientConfig>, t: Target, n: nat, e: RewriteError) {
    n < |ccs| && RewriteConfig(ccs[n], t) == Err(e) && forall i | 0 <= i < n :: RewriteConfig(ccs[i], t).Ok?
  }

  /** The clientConfigs with those before n rewritten, where they can be. */
  function RewrittenBefore(ccs: seq<ClientConfig>, t: Target, n: nat): (r: seq<ClientConfig>)
    ensures |r| == |ccs|
  {
    seq(|ccs|, i requires 0 <= i < |ccs| =>
      if i < n && RewriteConfig(ccs[i], t).Ok? then RewriteConfig(ccs[i], t).value else ccs[i])
  }

  lemma {:induction false} WebhooksFail(ws: seq<Webhook>, t: Target) returns (n: nat)
    requires RewriteWebhooks(ws, t).1.Some?
    ensures StopsAtConfig(ConfigsOf(ws), t, n, RewriteWebhooks(ws, t).1.value)
    ensures RewriteWebhooks(ws, t).0 == WithConfigsOf(ws, RewrittenBefore(ConfigsOf(ws), t, n))
  {
    hide RewriteConfig;
    if RewriteConfig(ws[0].clientConfig, t).Err? {
      n := 0;
      assert WithConfigsOf(ws, RewrittenBefore(ConfigsOf(ws), t, 0)) == ws;
    } else {
      hide StopsAtConfig, RewrittenBefore, WithConfigsOf, ConfigsOf;
      var m := WebhooksFail(ws[1..], t);
      n := m + 1;
      FailsOneLater(ws, t, m, RewriteWebhooks(ws, t).1.value);
    }
  }

  lemma FailsOneLater(ws: seq<Webhook>, t: Target, m: nat, e: RewriteError)
    requires ws != [] && RewriteConfig(ws[0].clientConfig, t).Ok?
    requires StopsAtConfig(ConfigsOf(ws[1..]), t, m, e)
    ensures StopsAtConfig(ConfigsOf(ws), t, m + 1, e)
    ensures WithConfigsOf(ws, RewrittenBefore(ConfigsOf(ws), t, m + 1)) ==
            [ws[0].(clientConfig := RewriteConfig(ws[0].clientConfig, t).value)] +
            WithConfigsOf(ws[1..], RewrittenBefore(ConfigsOf(ws[1..]), t, m))
  {
    hide RewriteConfig;
    var tail, ccs := ws[1..], ConfigsOf(ws);
    assert forall i | 0 < i < |ws| :: ccs[i] == ConfigsOf(tail)[i - 1] && ws[i] == tail[i - 1];
    assert forall i | 0 <= i < |tail| ::
        RewrittenBefore(ConfigsOf(tail), t, m)[i] == RewrittenBefore(ccs, t, m + 1)[i + 1];
  }

  /** An object that fails: its kind is not supported and it stays as it is, or one of its
      clientConfigs cannot be rewritten, those before it are, and nothing else changes. */
  lemma ObjectFailure(o: TypedObject, t: Target)
    requires RewriteObject(o, t).1.Some?
    ensures var (o', e) := RewriteObject(o, t);
            if o.Unsupported? then o' == o && e == Some(UnsupportedKind(o.goType))
            else
              exists n: nat ::
                StopsAtConfig(Configs(o), t, n, e.value) && o' == WithConfigs(o, RewrittenBefore(Configs(o), t, n))
  {
    hide RewriteConfig, StopsAtConfig, RewrittenBefore;
    if o.Mutating? || o.Validating? {
      var n := WebhooksFail(o.webhooks, t);
      assert StopsAtConfig(Configs(o), t, n, RewriteObject(o, t).1.value);
    } else if o.Definition? {
      ConversionFails(o, t);
    }
  }

  lemma ConversionFails(o: TypedObject, t: Target)
    requires o.Definition? && RewriteObject(o, t).1.Some?
    ensures RewriteObject(o, t).0 == o && StopsAtConfig(Configs(o), t, 0, RewriteObject(o, t).1.value)
    ensures o == WithConfigs(o, RewrittenBefore(Configs(o), t, 0))
  {
    hide RewriteConfig;
    assert RewrittenBefore(Configs(o), t, 0) == Configs(o);
    ConfigsReplaced(o, Configs(o));
  }

  /** RewriteAll succeeds exactly when every kind is supported and every clientConfig
      has a target it can be given: a mapped service, a URL, or an external loopback
      URL; and there is a CA if there is any clientConfig at all. */
  lemma SucceedsExactly(os: seq<TypedObject>, t: Target)
    ensures RewriteTyped(os, t).Ok? <==>
            forall o | o in os :: !o.Unsupported? && forall cc | cc in Configs(o) ::
              t.caPEM != [] &&
              (Redirects(cc, t) || (if cc.service.Some? then cc.service.value.namespace in t.ports else cc.url.Some?))
  {
    forall o | o in os
      ensures TypedRewriter(t)(o).Ok? <==>
              !o.Unsupported? && forall cc | cc in Configs(o) ::
                t.caPEM != [] &&
                (Redirects(cc, t) || (if cc.service.Some? then cc.service.value.namespace in t.ports else cc.url.Some?))
    {
      ObjectOutcome(o, t);
      forall cc | cc in Configs(o) { ConfigOutcome(cc, t); }
    }
  }

  lemma ConfigsReplaced(o: TypedObject, ccs: seq<ClientConfig>)
    requires |ccs| == |Configs(o)|
    ensures Configs(WithConfigs(o, ccs)) == ccs
    ensures WithConfigs(o, ccs) == o <==> ccs == Configs(o)
  {
    if o.Mutating? || o.Validating? {
      var ws := o.webhooks;
      assert ConfigsOf(WithConfigsOf(ws, ccs)) == ccs;
      assert WithConfigsOf(ws, ConfigsOf(ws)) == ws;
    } else {
      match o
      case Definition(Some(Conversion(strategy, Some(ConversionWebhook(Some(cc), r)))), rest) =>
        assert o == Definition(Some(Conversion(strategy, Some(ConversionWebhook(Some(cc), r)))), rest);
        assert ccs == [ccs[0]];
      case _ =>
    }
  }

  /** The second and third rewrite of a list of clientConfigs. */
  lemma ConfigListPasses(before: seq<ClientConfig>, t: Target)
    requires forall cc | cc in before :: OneTarget(cc) && RewriteConfig(cc, t).Ok?
    ensures var f := ConfigRewriter(t);
            var first := MapAll(f, before);
            && first.Ok? && (forall cc | cc in first.value :: RewriteConfig(cc, t).Ok?)
            && var second := MapAll(f, first.value);
            && second.Ok? && (forall cc | cc in second.value :: RewriteConfig(cc, t).Ok?)
            && (second.value == first.value <==> forall cc | cc in before :: SettlesAtOnce(cc, t))
            && MapAll(f, second.value) == Ok(second.value)
  {
    hide RewriteConfig, OneTarget, SettlesAtOnce, MapAll;
    var f := ConfigRewriter(t);
    var first := MapAll(f, before).value;
    forall i | 0 <= i < |first|
      ensures RewriteConfig(first[i], t).Ok?
      ensures RewriteConfig(first[i], t) == Ok(first[i]) <==> SettlesAtOnce(before[i], t)
      ensures RewriteConfig(RewriteConfig(first[i], t).value, t).Ok?
      ensures RewriteConfig(RewriteConfig(first[i], t).value, t) == RewriteConfig(first[i], t)
    {
      assert f(before[i]) == Ok(first[i]);
      SecondPass(before[i], t);
      SecondPass(first[i], t);
      ThirdPass(before[i], t);
    }
    var second := MapAll(f, first).value;
    assert forall i | 0 <= i < |first| :: f(first[i]) == Ok(second[i]) && f(second[i]) == Ok(second[i]);
    var third := MapAll(f, second).value;
    assert third == second;
  }

  /** How an object fares in a second and third pass. */
  lemma ObjectPasses(o: TypedObject, t: Target)
    requires RewriteObject(o, t).1.None?
    requires forall cc | cc in Configs(o) :: OneTarget(cc)
    ensures var o1 := RewriteObject(o, t).0;
            var (o2, e) := RewriteObject(o1, t);
            && e.None? && (o2 == o1 <==> forall cc | cc in Configs(o) :: SettlesAtOnce(cc, t))
            && RewriteObject(o2, t) == (o2, None)
  {
    hide RewriteObject, Configs, WithConfigs, RewriteConfig, OneTarget, SettlesAtOnce, MapAll;
    var f := ConfigRewriter(t);
    ObjectOutcome(o, t);
    ConfigListPasses(Configs(o), t);
    var first := MapAll(f, Configs(o)).value;
    var second := MapAll(f, first).value;
    ConfigsReplaced(o, first);
    var o1 := WithConfigs(o, first);
    StillSupported(o, first);
    ObjectOutcome(o1, t);
    ConfigsReplaced(o1, second);
    StillSupported(o1, second);
    ObjectOutcome(WithConfigs(o1, second), t);
    ConfigsReplaced(WithConfigs(o1, second), second);
  }

  lemma StillSupported(o: TypedObject, ccs: seq<ClientConfig>)
    requires |ccs| == |Configs(o)|
    ensures WithConfigs(o, ccs).Unsupported? <==> o.Unsupported?
  {}

  /** The claim of idempotence, exactly: of a successful rewrite a second pass
      changes nothing if and only if the URL of every service stays; and a third pass never
      changes anything. */
  lemma SettlesExactly(os: seq<TypedObject>, t: Target)
    requires RewriteTyped(os, t).Ok?
    requires forall o | o in os :: forall cc | cc in Configs(o) :: OneTarget(cc)
    ensures var first := RewriteTyped(os, t).value;
            var second := RewriteTyped(first, t);
            && second.Ok?
            && (second.value == first <==> forall o | o in os :: forall cc | cc in Configs(o) :: SettlesAtOnce(cc, t))
            && RewriteTyped(second.value, t) == second
  {
    hide RewriteObject, Configs, OneTarget, SettlesAtOnce, MapAll;
    var f := TypedRewriter(t);
    var first := RewriteTyped(os, t).value;
    forall i | 0 <= i < |os|
      ensures f(first[i]).Ok? && f(f(first[i]).value) == f(first[i])
      ensures f(first[i]) == Ok(first[i]) <==> forall cc | cc in Configs(os[i]) :: SettlesAtOnce(cc, t)
    {
      assert f(os[i]) == Ok(first[i]);
      ObjectPasses(os[i], t);
    }
    var second := RewriteTyped(first, t).value;
    assert forall i | 0 <= i < |os| :: f(first[i]) == Ok(second[i]) && f(second[i]) == Ok(second[i]);
    var third := RewriteTyped(second, t).value;
    assert third == second;
  }

  // ----- Routing -----

  /** A service URL determines the port and the path it was written from, so two
      service endpoints become one URL exactly when their namespaces share a port
      and their paths agree. */
  lemma ServiceURLsTellEndpoints(port: int, path: Option<string>, port': int, path': Option<string>)
    requires PathIsRooted(path) && PathIsRooted(path')
    ensures ServiceURL(port, path) == ServiceURL(port', path') <==> port == port' && PathText(path) == PathText(path')
  {
    var (n, n', p, p') := (Itoa(port), Itoa(port'), PathText(path), PathText(path'));
    var head := "https://localhost:";
    if ServiceURL(port, path) == ServiceURL(port', path') {
      assert n + p == ServiceURL(port, path)[|head|..] == ServiceURL(port', path')[|head|..] == n' + p';
      NumberIsPlain(port);
      NumberIsPlain(port');
      hide Itoa;
      SpanOf(n, p, DELIMITERS);
      SpanOf(n', p', DELIMITERS);
      assert n == (n + p)[..|n|] == (n' + p')[..|n'|] == n';
      assert p == (n + p)[|n|..] == (n' + p')[|n'|..] == p';
      ItoaInjective(port, port');
    }
  }

  /** Two service-form clientConfigs are given one URL exactly when their namespaces
      share a port, as core's and the hypervisor manager's do, and their paths agree. */
  lemma SharedPortConfusesEndpoints(cc: ClientConfig, cc': ClientConfig, t: Target)
    requires cc.url.None? && cc'.url.None? && cc.service.Some? && cc'.service.Some?
    requires PathIsRooted(cc.service.value.path) && PathIsRooted(cc'.service.value.path)
    requires RewriteConfig(cc, t).Ok? && RewriteConfig(cc', t).Ok?
    ensures RewriteConfig(cc, t).value.url == RewriteConfig(cc', t).value.url <==>
            && t.ports[cc.service.value.namespace] == t.ports[cc'.service.value.namespace]
            && PathText(cc.service.value.path) == PathText(cc'.service.value.path)
  {
    ConfigOutcome(cc, t);
    ConfigOutcome(cc', t);
    var (s, s') := (cc.service.value, cc'.service.value);
    ServiceURLsTellEndpoints(t.ports[s.namespace], s.path, t.ports[s'.namespace], s'.path);
  }

  // ----- From the heap to values -----

  /** RewriteAll over distinct pointers is the rewrite of the values behind them. */
  lemma {:induction false} HeapIsPointwise(objs: seq<RuntimeObject>, heap: map<RuntimeObject, TypedObject>, t: Target)
    requires forall o | o in objs :: o in heap
    requires forall i, j | 0 <= i < j < |objs| :: objs[i] != objs[j]
    ensures var (heap', e) := RewriteHeap(objs, heap, t);
            && heap'.Keys == heap.Keys
            && (forall o | o in heap && o !in objs :: heap'[o] == heap[o])
            && (e.None? <==> forall o | o in objs :: RewriteObject(heap[o], t).1.None?)
            && (e.None? ==> forall o | o in objs :: heap'[o] == RewriteObject(heap[o], t).0)
  {
    if objs != [] {
      hide RewriteObject;
      var o, rest := objs[0], objs[1..];
      assert objs == [o] + rest;
      HeapIsPointwise(rest, heap[o := RewriteObject(heap[o], t).0], t);
      assert o !in rest;
    }
  }

  /** Where it fails, the objects before are rewritten, the one it fails at as far as it
      goes, and no other is touched. */
  lemma {:induction false} HeapFailure(objs: seq<RuntimeObject>, heap: map<RuntimeObject, TypedObject>, t: Target)
    returns (n: nat)
    requires forall o | o in objs :: o in heap
    requires forall i, j | 0 <= i < j < |objs| :: objs[i] != objs[j]
    requires RewriteHeap(objs, heap, t).1.Some?
    ensures var (heap', e) := RewriteHeap(objs, heap, t);
            && heap'.Keys == heap.Keys && n < |objs| && RewriteObject(heap[objs[n]], t) == (heap'[objs[n]], e)
            && (forall i | 0 <= i < n :: RewriteObject(heap[objs[i]], t) == (heap'[objs[i]], None))
            && forall o | o in heap && o !in objs[..n + 1] :: heap'[o] == heap[o]
  {
    hide RewriteObject;
    var o, rest := objs[0], objs[1..];
    assert objs == [o] + rest;
    if RewriteObject(heap[o], t).1.Some? {
      n := 0;
      assert objs[..1] == [o];
    } else {
      var next := heap[o := RewriteObject(heap[o], t).0];
      assert RewriteHeap(objs, heap, t) == RewriteHeap(rest, next, t);
      hide RewriteHeap;
      var m := HeapFailure(rest, next, t);
      n := m + 1;
      assert objs[..n + 1] == [o] + rest[..n] && o !in rest[..n];
      assert forall i | 0 < i <= n :: objs[i] == rest[i - 1] && objs[i] != o;
    }
  }

  /** What a successful rewrite leaves of an object: the same but for clientConfigs. */
  predicate SameButConfigs(o: TypedObject, o': TypedObject) {
    |Configs(o)| == |Configs(o')| && o' == WithConfigs(o, Configs(o'))
  }

  lemma RewrittenSameButConfigs(o: TypedObject, t: Target)
    requires RewriteObject(o, t).1.None?
    ensures SameButConfigs(o, RewriteObject(o, t).0)
  {
    ObjectOutcome(o, t);
    ConfigsReplaced(o, MapAll(ConfigRewriter(t), Configs(o)).value);
  }

  /** The clientConfigs a rewritten object is left with. */
  lemma RewrittenConfigs(o: TypedObject, t: Target)
    requires RewriteObject(o, t).1.None?
    ensures var o' := RewriteObject(o, t).0;
            && (forall cc | cc in Configs(o') :: cc.caBundle == t.caPEM && cc.url.Some?)
            && ((forall cc | cc in Configs(o) :: OneTarget(cc)) ==> forall cc | cc in Configs(o') :: cc.service.None?)
  {
    ObjectOutcome(o, t);
    var before := Configs(o);
    var after := MapAll(ConfigRewriter(t), before).value;
    ConfigsReplaced(o, after);
    hide RewriteObject, Configs, RewriteConfig, Redirects, MapAll;
    forall i | 0 <= i < |after|
      ensures after[i].caBundle == t.caPEM && after[i].url.Some?
      ensures before[i] in before && (OneTarget(before[i]) ==> after[i].service.None?)
    {
      assert ConfigRewriter(t)(before[i]) == Ok(after[i]);
      ConfigOutcome(before[i], t);
      RedirectsHasURL(before[i], t);
    }
  }

  lemma RedirectsHasURL(cc: ClientConfig, t: Target)
    ensures Redirects(cc, t) ==> cc.url.Some?
  {}
}
