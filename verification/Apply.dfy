/** Apply: create every object of a batch, or update it where it exists. */
module Apply {
  import opened Objects
  import opened Manifests
  import opened ApiServer

  datatype Outcome = Done | NotApplied(kind: string) | Duplicate(first: string) | Failed(status: Status)

  // ----- What Apply does -----

  /** The first reason to refuse a batch before any call is made. */
  function Refusal(objs: seq<Object>): Outcome
    decreases |objs|
  {
    if objs == [] then Done
    else
      var init, o := objs[..|objs| - 1], objs[|objs| - 1];
      var r := Refusal(init);
      if !r.Done? then r
      else if !Applied(Kind(o)) then NotApplied(Kind(o))
      else if exists p | p in init :: ApplyKey(p) == ApplyKey(o) then
        Duplicate(FirstWithKey(init, ApplyKey(o)))
      else Done
  }

  /** How the refusal names the object that came first. */
  function FirstWithKey(objs: seq<Object>, key: string): string {
    if objs == [] then ""
    else if ApplyKey(objs[0]) == key then Kind(objs[0]) + "/" + Name(objs[0])
    else FirstWithKey(objs[1..], key)
  }

  /** One object on its way to the apiserver, addressed by its key. */
  datatype Request = Request(key: Key, body: Object)

  predicate AllApplied(objs: seq<Object>) { forall o | o in objs :: Applied(Kind(o)) }

  function Requests(objs: seq<Object>): (r: seq<Request>)
    requires AllApplied(objs)
    ensures |r| == |objs|
    ensures forall i | 0 <= i < |objs| :: r[i] == Request(KeyOf(objs[i]), objs[i])
  {
    seq(|objs|, i requires 0 <= i < |objs| => Request(KeyOf(objs[i]), objs[i]))
  }

  function ApplyOne(w: World, q: Request): (World, Status) {
    var (w1, created) := CreateCall(w, q.key, q.body);
    if created != AlreadyExists then (w1, created)
    else
      var (w2, existing) := GetCall(w1, q.key);
      match existing
      case Err(s) => (w2, s)
      case Ok(version) => UpdateCall(w2, q.key, SetResourceVersion(q.body, version))
  }

  function ApplyAll(w: World, qs: seq<Request>): (World, Outcome)
    decreases |qs|
  {
    if qs == [] then (w, Done)
    else
      var (w1, s) := ApplyOne(w, qs[0]);
      if s != Accepted then (w1, Failed(s)) else ApplyAll(w1, qs[1..])
  }

  function ApplyBatch(w: World, objs: seq<Object>): (World, Outcome) {
    var r := Refusal(objs);
    if !r.Done? then (w, r) else RefusalMeans(objs); ApplyAll(w, Requests(objs))
  }

  /** A batch is accepted exactly when every kind is applied and no two objects
      share an identifier. */
  lemma {:induction false} RefusalMeans(objs: seq<Object>)
    ensures Refusal(objs).Done? <==>
            AllApplied(objs) && forall i, j | 0 <= i < j < |objs| :: ApplyKey(objs[i]) != ApplyKey(objs[j])
    decreases |objs|
  {
    if objs != [] {
      var n := |objs| - 1;
      var init := objs[..n];
      RefusalMeans(init);
      assert objs == init + [objs[n]];
      assert forall i | 0 <= i < n :: init[i] == objs[i];
    }
  }

  /** What a refusal names: the kind of the first object that is not applied, or, as kind
      and name, the first of the objects that share the earliest repeated identifier. */
  lemma {:induction false} RefusalNames(objs: seq<Object>)
    ensures match Refusal(objs)
            case Done => true
            case Failed(_) => false
            case NotApplied(kind) =>
              exists j | 0 <= j < |objs| :: Refusal(objs[..j]).Done? && kind == Kind(objs[j]) && !Applied(kind)
            case Duplicate(first) =>
              exists i, j | 0 <= i < j < |objs| ::
                Refusal(objs[..j]).Done? && ApplyKey(objs[i]) == ApplyKey(objs[j]) &&
                first == Kind(objs[i]) + "/" + Name(objs[i])
    decreases |objs|
  {
    if objs != [] {
      var n := |objs| - 1;
      var init := objs[..n];
      RefusalNames(init);
      assert forall j | 0 <= j <= n :: init[..j] == objs[..j];
      assert forall j | 0 <= j < n :: init[j] == objs[j];
      if exists p | p in init :: ApplyKey(p) == ApplyKey(objs[n]) { FirstIsNamed(init, ApplyKey(objs[n])); }
    }
  }

  lemma {:induction false} FirstIsNamed(objs: seq<Object>, key: string)
    requires exists p | p in objs :: ApplyKey(p) == key
    ensures exists i | 0 <= i < |objs| ::
              ApplyKey(objs[i]) == key && FirstWithKey(objs, key) == Kind(objs[i]) + "/" + Name(objs[i])
  {
    if ApplyKey(objs[0]) != key {
      assert objs == [objs[0]] + objs[1..];
      FirstIsNamed(objs[1..], key);
      var i :| 0 <= i < |objs[1..]| && ApplyKey(objs[1..][i]) == key &&
               FirstWithKey(objs[1..], key) == Kind(objs[1..][i]) + "/" + Name(objs[1..][i]);
      assert objs[i + 1] == objs[1..][i];
    }
  }

  lemma ApplyAllStep(w: World, qs: seq<Request>, i: nat)
    requires i < |qs|
    ensures ApplyAll(w, qs[i..]) ==
            var (w1, s) := ApplyOne(w, qs[i]);
            if s != Accepted then (w1, Failed(s)) else ApplyAll(w1, qs[i + 1..])
  {}

  /** The pass over the batch before any call. */
  method CheckIdentifiers(objs: seq<Unstructured>) returns (r: Outcome)
    ensures r == Refusal(Contents(objs))
  {
    hide Applied, ApplyKey, Kind, Name;
    ghost var all := Contents(objs);
    var seen: map<string, string> := map[];
    for i := 0 to |objs|
      invariant Refusal(all[..i]).Done?
      invariant forall key :: key in seen <==> exists p | p in all[..i] :: ApplyKey(p) == key
      invariant forall key | key in seen :: seen[key] == FirstWithKey(all[..i], key)
    {
      var obj := objs[i].data;
      assert all[..i + 1][..i] == all[..i] && all[..i + 1][i] == obj;
      RefusalExtends(all, i + 1);
      if !Applied(Kind(obj)) { return NotApplied(Kind(obj)); }
      var key := ApplyKey(obj);
      if key in seen { return Duplicate(seen[key]); }
      FirstWithKeyAppend(all[..i], obj);
      assert all[..i + 1] == all[..i] + [obj];
      seen := seen[key := Kind(obj) + "/" + Name(obj)];
    }
    assert all[..|objs|] == all;
    return Done;
  }

  /** Create, or adopt the existing object's resourceVersion and update. The
      bookkeeping goes into a copy, so the caller's object keeps its own. */
  method CreateOrUpdate(client: Client, caller: Unstructured) returns (s: Status)
    requires Applied(Kind(caller.data))
    modifies client
    ensures (client.View(), s) == ApplyOne(old(client.View()), Request(KeyOf(caller.data), caller.data))
  {
    var obj := new Unstructured(caller.data);
    var k := KeyOf(obj.data);
    s := client.Create(k, obj.data);
    if s == AlreadyExists {
      var existing := client.Get(k);
      match existing {
        case Err(e) => s := e;
        case Ok(version) =>
          obj.data := SetResourceVersion(obj.data, version);
          s := client.Update(k, obj.data);
      }
    }
  }

  /** A refused batch makes no call. */
  method Apply(client: Client, objs: seq<Unstructured>) returns (r: Outcome)
    modifies client
    ensures (client.View(), r) == ApplyBatch(old(client.View()), Contents(objs))
  {
    ghost var all, was := Contents(objs), client.View();
    r := CheckIdentifiers(objs);
    if r != Done { return; }
    RefusalMeans(all);
    ghost var qs := Requests(all);
    assert qs[0..] == qs;
    for i := 0 to |objs|
      invariant Contents(objs) == all
      invariant ApplyAll(was, qs) == ApplyAll(client.View(), qs[i..])
    {
      ApplyAllStep(client.View(), qs, i);
      assert objs[i].data == all[i];
      var s := CreateOrUpdate(client, objs[i]);
      if s != Accepted { return Failed(s); }
    }
    return Done;
  }

  /** Refusals come from the earliest offender: a longer batch only adds some. */
  lemma {:induction false} RefusalExtends(objs: seq<Object>, n: nat)
    requires n <= |objs|
    ensures !Refusal(objs[..n]).Done? ==> Refusal(objs) == Refusal(objs[..n])
    decreases |objs| - n
  {
    if n == |objs| {
      assert objs[..n] == objs;
    } else {
      RefusalExtends(objs, n + 1);
      assert objs[..n + 1][..n] == objs[..n];
    }
  }

  lemma {:induction false} FirstWithKeyAppend(objs: seq<Object>, o: Object)
    ensures forall key | (exists p | p in objs :: ApplyKey(p) == key) ::
              FirstWithKey(objs + [o], key) == FirstWithKey(objs, key)
    ensures (forall p | p in objs :: ApplyKey(p) != ApplyKey(o)) ==>
              FirstWithKey(objs + [o], ApplyKey(o)) == Kind(o) + "/" + Name(o)
  {
    if objs == [] {
      assert objs + [o] == [o];
    } else {
      FirstWithKeyAppend(objs[1..], o);
      assert (objs + [o])[1..] == objs[1..] + [o];
    }
  }
}
