/** RewriteRBACSubjects: ServiceAccount subjects become manager Users, and bindings
    to aggregation shells are redirected to the concrete manager roles. */
module Rbac {
  import opened Wrappers
  import opened Text
  import opened Objects
  import opened Manifests

  const SERVICE_ACCOUNT := "ServiceAccount"
  const USER := "User"
  const AGGREGATED_SUFFIX := "-aggregated-manager-role"
  const MANAGER_SUFFIX := "-manager-role"

  datatype RbacError =
    | NoNamespace
    | SubjectsNotAList
    | SubjectWithoutNamespace
    | UnmappedNamespace(namespace: string)

  function UserSubject(name: string): Value { Dict(map["kind" := Str(USER), "name" := Str(name)]) }

  predicate IsServiceAccount(subject: Value) {
    subject.Dict? && "kind" in subject.fields && subject.fields["kind"] == Str(SERVICE_ACCOUNT)
  }

  /** Anything but a ServiceAccount passes through. */
  function RewriteSubject(subject: Value, cnByNamespace: map<string, string>): Result<Value, RbacError> {
    if !IsServiceAccount(subject) then Ok(subject)
    else if "namespace" !in subject.fields || !subject.fields["namespace"].Str? then Err(SubjectWithoutNamespace)
    else
      var ns := subject.fields["namespace"].text;
      if ns !in cnByNamespace then Err(UnmappedNamespace(ns)) else Ok(UserSubject(cnByNamespace[ns]))
  }

  function SubjectRewriter(cnByNamespace: map<string, string>): Value -> Result<Value, RbacError> {
    subject => RewriteSubject(subject, cnByNamespace)
  }

  /** What rewriting makes of the subjects of a binding. */
  function RewriteSubjectsOf(o: Object, cnByNamespace: map<string, string>): Result<Object, RbacError> {
    if "subjects" !in o then Ok(o)
    else if !o["subjects"].List? then Err(SubjectsNotAList)
    else
      match MapAll(SubjectRewriter(cnByNamespace), o["subjects"].items)
      case Err(e) => Err(e)
      case Ok(items) => Ok(o["subjects" := List(items)])
  }

  /** The role a binding to an aggregation shell is redirected to. */
  function RedirectedName(name: string): string {
    match CutSuffix(name, AGGREGATED_SUFFIX)
    case None => name
    case Some(prefix) => prefix + MANAGER_SUFFIX
  }

  function RedirectRoleRef(o: Object): Object {
    var ref := DictAt(o, "roleRef");
    if "name" !in ref || !ref["name"].Str? then o
    else
      match CutSuffix(ref["name"].text, AGGREGATED_SUFFIX)
      case None => o
      case Some(prefix) => o["roleRef" := Dict(ref["name" := Str(prefix + MANAGER_SUFFIX)])]
  }

  function RewriteOne(o: Object, cnByNamespace: map<string, string>): Result<Object, RbacError> {
    if Kind(o) == CLUSTER_ROLE_BINDING then
      match RewriteSubjectsOf(o, cnByNamespace)
      case Err(e) => Err(e)
      case Ok(o') => Ok(RedirectRoleRef(o'))
    else if Kind(o) == ROLE_BINDING then
      if Namespace(o) == "" then Err(NoNamespace) else RewriteSubjectsOf(o, cnByNamespace)
    else Ok(o)
  }

  function ObjectRewriter(cnByNamespace: map<string, string>): Object -> Result<Object, RbacError> {
    o => RewriteOne(o, cnByNamespace)
  }

  function Rewritten(objs: seq<Object>, cnByNamespace: map<string, string>): Result<seq<Object>, RbacError> {
    MapAll(ObjectRewriter(cnByNamespace), objs)
  }

  /** The binding that makes the admin identity a cluster admin. */
  function AdminClusterRoleBinding(adminCN: string): Object {
    map[
      "apiVersion" := Str("rbac.authorization.k8s.io/v1"),
      "kind" := Str(CLUSTER_ROLE_BINDING),
      "metadata" := Dict(map["name" := Str("capishim-admin")]),
      "roleRef" := Dict(map[
        "apiGroup" := Str("rbac.authorization.k8s.io"),
        "kind" := Str(CLUSTER_ROLE),
        "name" := Str("cluster-admin")]),
      "subjects" := List([UserSubject(adminCN)])]
  }

  lemma SubjectsOverwritten(o: Object, before: Value, after: Value)
    ensures o["subjects" := before]["subjects" := after] == o["subjects" := after]
  {}

  /** The first subject that cannot be mapped. */
  predicate FailsAt(items: seq<Value>, cnByNamespace: map<string, string>, n: nat, e: RbacError) {
    n < |items| && RewriteSubject(items[n], cnByNamespace) == Err(e) &&
    MapAll(SubjectRewriter(cnByNamespace), items[..n]).Ok?
  }

  /** The subjects with those before n mapped. */
  function Partly(items: seq<Value>, cnByNamespace: map<string, string>, n: nat): seq<Value> {
    var mapped := MapAll(SubjectRewriter(cnByNamespace), if n <= |items| then items[..n] else items);
    if mapped.Ok? && n <= |items| then mapped.value + items[n..] else items
  }

  lemma PartlyDone(items: seq<Value>, cnByNamespace: map<string, string>, n: nat, e: RbacError)
    requires n < |items| && MapAll(SubjectRewriter(cnByNamespace), items[..n]).Ok?
    requires RewriteSubject(items[n], cnByNamespace) == Err(e)
    ensures FailsAt(items, cnByNamespace, n, e)
    ensures Partly(items, cnByNamespace, n) == MapAll(SubjectRewriter(cnByNamespace), items[..n]).value + items[n..]
  {}

  /** Replaces subjects one by one, in place, until one cannot be mapped. */
  method RewriteItems(binding: Unstructured, items: seq<Value>, cnByNamespace: map<string, string>)
    returns (r: Result<(), RbacError>)
    requires "subjects" in binding.data && binding.data["subjects"] == List(items)
    modifies binding
    ensures var mapped := MapAll(SubjectRewriter(cnByNamespace), items);
            if mapped.Err? then r == Err(mapped.error)
            else r == Ok(()) && binding.data == old(binding.data)["subjects" := List(mapped.value)]
    ensures r.Err? ==>
              exists n: nat :: FailsAt(items, cnByNamespace, n, r.error) &&
                binding.data == old(binding.data)["subjects" := List(Partly(items, cnByNamespace, n))]
  {
    hide *;
    ghost var was, f := binding.data, SubjectRewriter(cnByNamespace);
    var subjects := items;
    assert MapAll(f, items[..0]).value + items[0..] == items;
    for i := 0 to |items|
      invariant MapAll(f, items[..i]).Ok? && subjects == MapAll(f, items[..i]).value + items[i..]
      invariant binding.data == was["subjects" := List(subjects)]
    {
      ghost var done := MapAll(f, items[..i]).value;
      MapAllStep(f, items, i);
      InPlace(done, items, i, items[i], []);
      var subject := RewriteSubject(subjects[i], cnByNamespace);
      RewriterApplies(cnByNamespace, items[i]);
      if subject.Err? {
        MapAllFails(f, items, i + 1);
        PartlyDone(items, cnByNamespace, i, subject.error);
        return Err(subject.error);
      }
      InPlace(done, items, i, subject.value, []);
      SubjectsOverwritten(was, List(subjects), List(subjects[i := subject.value]));
      subjects := subjects[i := subject.value];
      binding.data := binding.data["subjects" := List(subjects)];
    }
    assert items[..|items|] == items && subjects == MapAll(f, items).value;
    return Ok(());
  }

  lemma RewriterApplies(cnByNamespace: map<string, string>, subject: Value)
    ensures SubjectRewriter(cnByNamespace)(subject) == RewriteSubject(subject, cnByNamespace)
  {}

  method RewriteSubjects(binding: Unstructured, cnByNamespace: map<string, string>) returns (r: Result<(), RbacError>)
    modifies binding
    ensures match RewriteSubjectsOf(old(binding.data), cnByNamespace)
            case Err(e) => r == Err(e)
            case Ok(o) => r == Ok(()) && binding.data == o
  {
    if "subjects" !in binding.data { return Ok(()); }
    if !binding.data["subjects"].List? { return Err(SubjectsNotAList); }
    r := RewriteItems(binding, binding.data["subjects"].items, cnByNamespace);
  }

  method RedirectAggregatedManagerRoleRef(binding: Unstructured)
    modifies binding
    ensures binding.data == RedirectRoleRef(old(binding.data))
  {
    if "roleRef" !in binding.data || !binding.data["roleRef"].Dict? { return; }
    var ref := binding.data["roleRef"].fields;
    if "name" !in ref || !ref["name"].Str? { return; }
    match CutSuffix(ref["name"].text, AGGREGATED_SUFFIX) {
      case None =>
      case Some(prefix) =>
        ref := ref["name" := Str(prefix + MANAGER_SUFFIX)];
        binding.data := binding.data["roleRef" := Dict(ref)];
    }
  }

  method RewriteCopy(copied: Unstructured, cnByNamespace: map<string, string>) returns (r: Result<(), RbacError>)
    modifies copied
    ensures match RewriteOne(old(copied.data), cnByNamespace)
            case Err(e) => r == Err(e)
            case Ok(o) => r == Ok(()) && copied.data == o
  {
    if Kind(copied.data) == CLUSTER_ROLE_BINDING {
      r := RewriteSubjects(copied, cnByNamespace);
      if r.Err? { return; }
      RedirectAggregatedManagerRoleRef(copied);
    } else if Kind(copied.data) == ROLE_BINDING {
      if Namespace(copied.data) == "" { return Err(NoNamespace); }
      r := RewriteSubjects(copied, cnByNamespace);
    } else {
      r := Ok(());
    }
  }

  /** One deep copy, rewritten. */
  method RewrittenCopy(obj: Unstructured, cnByNamespace: map<string, string>)
    returns (r: Result<Unstructured, RbacError>)
    ensures match ObjectRewriter(cnByNamespace)(obj.data)
            case Err(e) => r == Err(e)
            case Ok(o) => r.Ok? && fresh(r.value) && r.value.data == o
  {
    hide RewriteOne;
    var copied := new Unstructured(obj.data);
    var done := RewriteCopy(copied, cnByNamespace);
    r := if done.Err? then Err(done.error) else Ok(copied);
  }

  /** Works on deep copies throughout: no input object is touched or returned. */
  method RewriteRBACSubjects(objs: seq<Unstructured>, cnByNamespace: map<string, string>)
    returns (r: Result<seq<Unstructured>, RbacError>)
    ensures r.Ok? <==> Rewritten(Contents(objs), cnByNamespace).Ok?
    ensures r.Err? ==> r.error == Rewritten(Contents(objs), cnByNamespace).error
    ensures r.Ok? ==> Contents(r.value) == Rewritten(Contents(objs), cnByNamespace).value
    ensures r.Ok? ==> forall o | o in r.value :: fresh(o)
  {
    hide RewriteOne, MapAll, ObjectRewriter;
    ghost var all, f := Contents(objs), ObjectRewriter(cnByNamespace);
    var out: seq<Unstructured> := [];
    for i := 0 to |objs|
      invariant Contents(objs) == all
      invariant forall o | o in out :: fresh(o)
      invariant MapAll(f, all[..i]) == Ok(Contents(out))
    {
      MapAllStep(f, all, i);
      var copied := RewrittenCopy(objs[i], cnByNamespace);
      if copied.Err? {
        MapAllFails(f, all, i + 1);
        return Err(copied.error);
      }
      ContentsAppend(out, copied.value);
      out := out + [copied.value];
    }
    assert all[..|objs|] == all;
    return Ok(out);
  }

  lemma ContentsAppend(objs: seq<Unstructured>, o: Unstructured)
    ensures Contents(objs + [o]) == Contents(objs) + [o.data]
  {}
}
