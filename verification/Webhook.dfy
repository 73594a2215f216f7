/** RewriteAll: webhook clientConfigs are pointed at loopback or, where a URL names
    an external component's loopback port, at the external host. */
module Webhook {
  import opened Wrappers
  import opened Text
  import opened Objects
  import opened Urls

  type Bytes = seq<bv8>

  datatype ServiceRef = ServiceRef(namespace: string, name: string, path: Option<string>, port: Option<int>)

  datatype ClientConfig = ClientConfig(url: Option<string>, service: Option<ServiceRef>, caBundle: Bytes)

  /** A webhook and everything about it that is not its clientConfig. */
  datatype Webhook = Webhook(name: string, clientConfig: ClientConfig, rest: Object)

  datatype ConversionWebhook = ConversionWebhook(clientConfig: Option<ClientConfig>, rest: Object)

  datatype Conversion = Conversion(strategy: string, webhook: Option<ConversionWebhook>)

  /** The typed objects RewriteAll may be handed; rest is all it never looks at. */
  datatype TypedObject =
    | Mutating(webhooks: seq<Webhook>, rest: Object)
    | Validating(webhooks: seq<Webhook>, rest: Object)
    | Definition(conversion: Option<Conversion>, rest: Object)
    | Unsupported(goType: string)

  datatype RewriteError =
    | EmptyCA
    | NoServiceOrURL
    | UnknownNamespace(namespace: string)
    | UnsupportedKind(goType: string)

  /** The external component: its host, "" when the option is off, and its ports. */
  datatype External = External(host: string, ports: set<int>)

  /** All that a rewrite depends on besides the objects. */
  datatype Target = Target(ports: map<string, GoInt>, caPEM: Bytes, external: External)

  // ----- URLs -----

  function LowerChar(c: char): char {
    if 'A' <= c <= 'Z' then (c as int - 'A' as int + 'a' as int) as char else c
  }

  /** A name in lower case, where the long s (U+017F, in UTF-8 these two bytes) is an s
      too: no other byte outside ASCII folds to a letter of the loopback names. */
  function Folded(s: string): string {
    if s == "" then ""
    else if |s| >= 2 && s[0] == '\U{C5}' && s[1] == '\U{BF}' then "s" + Folded(s[2..])
    else [LowerChar(s[0])] + Folded(s[1..])
  }

  /** isLoopbackAuthority, by Unicode case folding. */
  predicate IsLoopback(host: string) { Folded(host) == "127.0.0.1" || Folded(host) == "localhost" }

  function ServiceURL(port: int, path: Option<string>): string {
    "https://localhost:" + Itoa(port) + if path.Some? then path.value else ""
  }

  // ----- One clientConfig -----

  /** The URL an external loopback URL is redirected to; None leaves it alone. */
  function Redirection(url: string, external: External): Option<string> {
    if external.host == "" then None
    else
      match ParseURL(url)
      case None => None
      case Some(u) =>
        match Atoi(u.port)
        case None => None
        case Some(port) =>
          if port in external.ports && IsLoopback(u.host)
          then Some(Printed(u.(scheme := "https", host := external.host)))
          else None
  }

  /** rewriteLoopbackURL: the redirected URL, or None when there is none. */
  function RewriteLoopbackURL(url: Option<string>, t: Target): Result<Option<string>, RewriteError> {
    if url.None? || Redirection(url.value, t.external).None? then Ok(None)
    else if t.caPEM == [] then Err(EmptyCA)
    else Ok(Redirection(url.value, t.external))
  }

  /** portForClientConfig: a clientConfig without a service needs no port. */
  function PortFor(service: Option<ServiceRef>, ports: map<string, GoInt>): Result<int, RewriteError> {
    if service.None? then Ok(0)
    else if service.value.namespace !in ports then Err(UnknownNamespace(service.value.namespace))
    else Ok(ports[service.value.namespace])
  }

  function RewriteClientConfig(cc: ClientConfig, port: int, caPEM: Bytes): Result<ClientConfig, RewriteError> {
    if cc.service.Some? then
      if caPEM == [] then Err(EmptyCA)
      else Ok(ClientConfig(Some(ServiceURL(port, cc.service.value.path)), None, caPEM))
    else if cc.url.None? then Err(NoServiceOrURL)
    else if caPEM == [] then Err(EmptyCA)
    else Ok(cc.(caBundle := caPEM))
  }

  /** One clientConfig: a redirected loopback URL first, otherwise by namespace. */
  function RewriteConfig(cc: ClientConfig, t: Target): Result<ClientConfig, RewriteError> {
    match RewriteLoopbackURL(cc.url, t)
    case Err(e) => Err(e)
    case Ok(Some(url)) => Ok(cc.(url := Some(url), caBundle := t.caPEM))
    case Ok(None) =>
      match PortFor(cc.service, t.ports)
      case Err(e) => Err(e)
      case Ok(port) => RewriteClientConfig(cc, port, t.caPEM)
  }

  // ----- Whole objects: what they become, and what an error leaves behind -----

  function RewriteWebhooks(ws: seq<Webhook>, t: Target): (r: (seq<Webhook>, Option<RewriteError>))
    ensures |r.0| == |ws|
  {
    if ws == [] then ([], None)
    else
      match RewriteConfig(ws[0].clientConfig, t)
      case Err(e) => (ws, Some(e))
      case Ok(cc) =>
        var (tail, e) := RewriteWebhooks(ws[1..], t);
        ([ws[0].(clientConfig := cc)] + tail, e)
  }

  function RewriteObject(o: TypedObject, t: Target): (TypedObject, Option<RewriteError>) {
    match o
    case Mutating(ws, rest) => var (ws', e) := RewriteWebhooks(ws, t); (Mutating(ws', rest), e)
    case Validating(ws, rest) => var (ws', e) := RewriteWebhooks(ws, t); (Validating(ws', rest), e)
    case Definition(Some(Conversion(strategy, Some(ConversionWebhook(Some(cc), rest)))), _) =>
      (match RewriteConfig(cc, t)
       case Err(e) => (o, Some(e))
       case Ok(cc') => (o.(conversion := Some(Conversion(strategy, Some(ConversionWebhook(Some(cc'), rest))))), None))
    case Definition(_, _) => (o, None)
    case Unsupported(goType) => (o, Some(UnsupportedKind(goType)))
  }

  /** The same, as a value: an object rewritten, or the error it stops at. */
  function TypedRewriter(t: Target): TypedObject -> Result<TypedObject, RewriteError> {
    o => var (o', e) := RewriteObject(o, t); if e.Some? then Err(e.value) else Ok(o')
  }

  function RewriteTyped(os: seq<TypedObject>, t: Target): Result<seq<TypedObject>, RewriteError> {
    MapAll(TypedRewriter(t), os)
  }

  /** A typed object behind a pointer. */
  class RuntimeObject {
    var typed: TypedObject

    constructor (typed: TypedObject)
      ensures this.typed == typed
    {
      this.typed := typed;
    }
  }

  ghost function Typed(objs: seq<RuntimeObject>): (r: seq<TypedObject>)
    reads objs
    ensures |r| == |objs|
  {
    seq(|objs|, i requires 0 <= i < |objs| reads objs => objs[i].typed)
  }

  /** What every object behind objs holds. */
  ghost function Heap(objs: seq<RuntimeObject>): map<RuntimeObject, TypedObject>
    reads objs
  {
    map o | o in objs :: o.typed
  }

  /** The rewrite of every object in turn. A pointer may occur more than once, and an
      error leaves behind what was rewritten before it. */
  ghost function RewriteHeap(objs: seq<RuntimeObject>, heap: map<RuntimeObject, TypedObject>, t: Target)
    : (map<RuntimeObject, TypedObject>, Option<RewriteError>)
    requires forall o | o in objs :: o in heap
  {
    if objs == [] then (heap, None)
    else
      var (typed, e) := RewriteObject(heap[objs[0]], t);
      if e.Some? then (heap[objs[0] := typed], e) else RewriteHeap(objs[1..], heap[objs[0] := typed], t)
  }

  lemma WebhooksStep(ws: seq<Webhook>, i: nat, t: Target)
    requires i < |ws|
    ensures RewriteWebhooks(ws[i..], t) ==
            match RewriteConfig(ws[i].clientConfig, t)
            case Err(e) => (ws[i..], Some(e))
            case Ok(cc) =>
              var (tail, e) := RewriteWebhooks(ws[i + 1..], t);
              ([ws[i].(clientConfig := cc)] + tail, e)
  {}

  /** The whole rewrite, told from the webhooks done and those to come. */
  ghost predicate DoneSoFar(ws: seq<Webhook>, t: Target, done: seq<Webhook>, i: nat)
    requires i <= |ws|
  {
    var (tail, e) := RewriteWebhooks(ws[i..], t);
    |done| == i && RewriteWebhooks(ws, t) == (done + tail, e)
  }

  lemma OneMoreDone(ws: seq<Webhook>, t: Target, done: seq<Webhook>, i: nat)
    requires i < |ws| && DoneSoFar(ws, t, done, i)
    ensures |done| == i
    ensures match RewriteConfig(ws[i].clientConfig, t)
            case Err(e) => RewriteWebhooks(ws, t) == (done + ws[i..], Some(e))
            case Ok(cc) =>
              var w := ws[i].(clientConfig := cc);
              DoneSoFar(ws, t, done + [w], i + 1) && (done + ws[i..])[i := w] == done + [w] + ws[i + 1..]
  {
    WebhooksStep(ws, i, t);
    hide RewriteConfig, RewriteWebhooks;
    match RewriteConfig(ws[i].clientConfig, t)
    case Err(_) =>
    case Ok(cc) => InPlace(done, ws, i, ws[i].(clientConfig := cc), RewriteWebhooks(ws[i + 1..], t).0);
  }

  lemma NoneDone(ws: seq<Webhook>, t: Target)
    ensures DoneSoFar(ws, t, [], 0)
  {
    assert ws[0..] == ws && [] + RewriteWebhooks(ws, t).0 == RewriteWebhooks(ws, t).0;
  }

  lemma AllDone(ws: seq<Webhook>, t: Target, done: seq<Webhook>)
    requires DoneSoFar(ws, t, done, |ws|)
    ensures RewriteWebhooks(ws, t) == (done, None)
  {
    assert done + [] == done;
  }

  /** Both admission kinds: rewrites the webhooks of a configuration in place. */
  method RewriteByNamespace(o: RuntimeObject, t: Target) returns (e: Option<RewriteError>)
    requires o.typed.Mutating? || o.typed.Validating?
    modifies o
    ensures (o.typed, e) == RewriteObject(old(o.typed), t)
  {
    hide RewriteConfig, RewriteWebhooks, DoneSoFar;
    ghost var was := o.typed;
    var ws := o.typed.webhooks;
    ghost var done: seq<Webhook> := [];
    NoneDone(ws, t);
    for i := 0 to |ws|
      invariant o.typed == was.(webhooks := done + ws[i..]) && |done| == i
      invariant DoneSoFar(ws, t, done, i)
    {
      OneMoreDone(ws, t, done, i);
      var current := o.typed.webhooks;
      InPlace(done, ws, i, ws[i], []);
      match RewriteConfig(current[i].clientConfig, t) {
        case Err(error) => return Some(error);
        case Ok(cc) =>
          o.typed := o.typed.(webhooks := current[i := current[i].(clientConfig := cc)]);
          done := done + [ws[i].(clientConfig := cc)];
      }
    }
    AllDone(ws, t, done);
    assert done + ws[|ws|..] == done;
    return None;
  }

  /** The conversion webhook of a CRD, in place. */
  method RewriteCRDByNamespace(o: RuntimeObject, t: Target) returns (e: Option<RewriteError>)
    requires o.typed.Definition?
    modifies o
    ensures (o.typed, e) == RewriteObject(old(o.typed), t)
  {
    match o.typed.conversion {
      case Some(Conversion(strategy, Some(ConversionWebhook(Some(cc), rest)))) =>
        match RewriteConfig(cc, t) {
          case Err(error) => return Some(error);
          case Ok(cc') =>
            o.typed := o.typed.(conversion := Some(Conversion(strategy, Some(ConversionWebhook(Some(cc'), rest)))));
        }
      case _ =>
    }
    return None;
  }

  /** One object, by its kind. */
  method RewriteAny(o: RuntimeObject, t: Target) returns (e: Option<RewriteError>)
    modifies o
    ensures (o.typed, e) == RewriteObject(old(o.typed), t)
  {
    hide RewriteObject;
    match o.typed {
      case Unsupported(goType) =>
        UnsupportedStays(o.typed, t);
        return Some(UnsupportedKind(goType));
      case Definition(_, _) => e := RewriteCRDByNamespace(o, t);
      case _ => e := RewriteByNamespace(o, t);
    }
  }

  /** Every object in turn, to the first error. */
  method RewriteAll(objs: seq<RuntimeObject>, t: Target) returns (e: Option<RewriteError>)
    modifies objs
    ensures (Heap(objs), e) == RewriteHeap(objs, old(Heap(objs)), t)
  {
    hide RewriteObject;
    ghost var was := Heap(objs);
    assert objs[0..] == objs;
    for i := 0 to |objs|
      invariant RewriteHeap(objs, was, t) == RewriteHeap(objs[i..], Heap(objs), t)
    {
      assert objs[i..][1..] == objs[i + 1..];
      ghost var before := Heap(objs);
      e := RewriteAny(objs[i], t);
      assert Heap(objs) == before[objs[i] := objs[i].typed];
      if e.Some? { return; }
    }
    return None;
  }

  lemma UnsupportedStays(o: TypedObject, t: Target)
    requires o.Unsupported?
    ensures RewriteObject(o, t) == (o, Some(UnsupportedKind(o.goType)))
  {}
}
