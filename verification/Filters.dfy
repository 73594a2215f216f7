/** The passes between loading and applying: version restriction, the kept kinds,
    the split of bindings from the rest, and the CRD wait list. */
module Filters {
  import opened Wrappers
  import opened Objects
  import opened Manifests

  const SERVED_VERSION := "v1beta2"

  predicate ServedGroup(group: string) { group == "cluster.x-k8s.io" || group == "addons.cluster.x-k8s.io" }

  /** Maps each element or drops it, keeping the order. */
  function FilterMap<A, B>(f: A -> Option<B>, s: seq<A>): seq<B> {
    if s == [] then []
    else
      var r := f(s[|s| - 1]);
      FilterMap(f, s[..|s| - 1]) + if r.Some? then [r.value] else []
  }

  lemma FilterMapStep<A, B>(f: A -> Option<B>, s: seq<A>, n: nat)
    requires n < |s|
    ensures FilterMap(f, s[..n + 1]) == FilterMap(f, s[..n]) + if f(s[n]).Some? then [f(s[n]).value] else []
  {
    assert s[..n + 1][..n] == s[..n];
  }

  /** spec.group, or "" when it cannot be read. */
  function CrdSpecGroup(o: Object): string { StringAt(DictAt(o, "spec"), "group") }

  /** spec.versions, if it is a list. */
  function CrdVersions(o: Object): Option<seq<Value>> {
    var spec := DictAt(o, "spec");
    if "versions" in spec && spec["versions"].List? then Some(spec["versions"].items) else None
  }

  predicate NamesServedVersion(v: Value) { v.Dict? && StringAt(v.fields, "name") == SERVED_VERSION }

  /** The first entry that names the served version. */
  function ServedEntry(versions: seq<Value>): Option<Value> {
    if versions == [] then None
    else if NamesServedVersion(versions[0]) then Some(versions[0])
    else ServedEntry(versions[1..])
  }

  predicate InScope(o: Object) { Kind(o) == CRD && ServedGroup(CrdSpecGroup(o)) }

  /** What the restriction makes of one object. */
  function RestrictOne(o: Object): Option<Object> {
    if !InScope(o) || CrdVersions(o).None? then Some(o)
    else
      match ServedEntry(CrdVersions(o).value)
      case None => None
      case Some(entry) =>
        Some(o["spec" := Dict(DictAt(o, "spec")["versions" := List([entry])] - {"conversion"})])
  }

  function KeepOne(o: Object): Option<Object> { if Keep(o) then Some(o) else None }

  function UnboundOne(o: Object): Option<Object> { if IsBinding(o) then None else Some(o) }

  function Restricted(objs: seq<Object>): seq<Object> { FilterMap(RestrictOne, objs) }

  function Kept(objs: seq<Object>): seq<Object> { FilterMap(KeepOne, objs) }

  function WithoutBindings(objs: seq<Object>): seq<Object> { FilterMap(UnboundOne, objs) }

  /** The distinct names of the CRDs in objs, in first-seen order. */
  function CrdNames(objs: seq<Object>): seq<string> {
    if objs == [] then []
    else
      var names, last := CrdNames(objs[..|objs| - 1]), objs[|objs| - 1];
      if Kind(last) != CRD || Name(last) in names then names else names + [Name(last)]
  }

  /** Narrows one object: dropped, passed through as it is, or edited in a copy. */
  method RestrictObject(obj: Unstructured) returns (r: Option<Unstructured>)
    ensures r.Some? <==> RestrictOne(obj.data).Some?
    ensures r.Some? ==> (r.value == obj || fresh(r.value)) && RestrictOne(obj.data) == Some(r.value.data)
  {
    if Kind(obj.data) != CRD || !ServedGroup(CrdSpecGroup(obj.data)) { return Some(obj); }
    var versions := CrdVersions(obj.data);
    if versions.None? { return Some(obj); }
    var entry := ServedEntry(versions.value);
    if entry.None? { return None; }
    var restricted := new Unstructured(obj.data);
    var spec := DictAt(restricted.data, "spec");
    spec := spec["versions" := List([entry.value])];
    spec := spec - {"conversion"};
    restricted.data := restricted.data["spec" := Dict(spec)];
    return Some(restricted);
  }

  /** Edits a copy of each CRD it narrows; the input objects are read only. */
  method RestrictCAPIVersionsToV1Beta2(objs: seq<Unstructured>) returns (out: seq<Unstructured>)
    ensures Contents(out) == Restricted(Contents(objs))
    ensures forall o | o in out :: o in objs || fresh(o)
  {
    hide RestrictOne;
    ghost var all := Contents(objs);
    out := [];
    for i := 0 to |objs|
      invariant forall o | o in out :: o in objs || fresh(o)
      invariant Contents(out) == Restricted(all[..i])
    {
      ghost var was := Contents(out);
      FilterMapStep(RestrictOne, all, i);
      var r := RestrictObject(objs[i]);
      if r.None? { continue; }
      out := out + [r.value];
      assert Contents(out) == was + [r.value.data];
    }
    assert all[..|objs|] == all;
  }

  method KeepObjects(objs: seq<Unstructured>) returns (out: seq<Unstructured>)
    ensures Contents(out) == Kept(Contents(objs))
    ensures forall o | o in out :: o in objs
  {
    ghost var all := Contents(objs);
    out := [];
    for i := 0 to |objs|
      invariant forall o | o in out :: o in objs
      invariant Contents(out) == Kept(all[..i])
    {
      ghost var was := Contents(out);
      FilterMapStep(KeepOne, all, i);
      if Keep(objs[i].data) {
        out := out + [objs[i]];
        assert Contents(out) == was + [all[i]];
      }
    }
    assert all[..|objs|] == all;
  }

  method WithoutRBACBindings(objs: seq<Unstructured>) returns (out: seq<Unstructured>)
    ensures Contents(out) == WithoutBindings(Contents(objs))
    ensures forall o | o in out :: o in objs
  {
    ghost var all := Contents(objs);
    out := [];
    for i := 0 to |objs|
      invariant forall o | o in out :: o in objs
      invariant Contents(out) == WithoutBindings(all[..i])
    {
      ghost var was := Contents(out);
      FilterMapStep(UnboundOne, all, i);
      if IsBinding(objs[i].data) { continue; }
      out := out + [objs[i]];
      assert Contents(out) == was + [all[i]];
    }
    assert all[..|objs|] == all;
  }

  method CrdNamesFrom(objs: seq<Unstructured>) returns (names: seq<string>)
    ensures names == CrdNames(Contents(objs))
  {
    ghost var all := Contents(objs);
    var seen: set<string> := {};
    names := [];
    for i := 0 to |objs|
      invariant seen == set n | n in names
      invariant names == CrdNames(all[..i])
    {
      assert all[..i + 1][..i] == all[..i] && all[..i + 1][i] == objs[i].data;
      if Kind(objs[i].data) != CRD { continue; }
      var name := Name(objs[i].data);
      if name in seen { continue; }
      seen := seen + {name};
      names := names + [name];
    }
    assert all[..|objs|] == all;
  }
}
