/** What the loader and the filters promise: nothing but duplicates lost, the order
    of files irrelevant, and batches that Apply has no reason to refuse. */
module LoadingLaws {
  import opened Wrappers
  import opened Text
  import opened Objects
  import opened Manifests
  import opened Apply
  import opened Loading
  import opened Filters

  // ----- Dedupe -----

  /** No earlier element has the key of element i. */
  predicate IsFirst<T(==), K(==)>(key: T -> K, s: seq<T>, i: nat)
    requires i < |s|
  {
    !Seen(key, s[..i], s[i])
  }

  /** The positions at are those of the first occurrences, in increasing order. */
  ghost predicate FirstPositions<T, K>(key: T -> K, s: seq<T>, at: seq<nat>) {
    && (forall a, b | 0 <= a < b < |at| :: at[a] < at[b])
    && (forall i :: i in at <==> 0 <= i < |s| && IsFirst(key, s, i))
  }

  /** The elements of s at the given positions. */
  function Select<T>(s: seq<T>, at: seq<nat>): seq<T>
    requires forall i | i in at :: i < |s|
  {
    seq(|at|, a requires 0 <= a < |at| => assert at[a] in at; s[at[a]])
  }

  lemma FirstPositionsStep<T, K>(key: T -> K, s: seq<T>, at: seq<nat>, x: T)
    requires FirstPositions(key, s, at)
    ensures FirstPositions(key, s + [x], if Seen(key, s, x) then at else at + [|s|])
  {
    forall i | 0 <= i < |s| ensures IsFirst(key, s + [x], i) <==> IsFirst(key, s, i) {
      assert (s + [x])[..i] == s[..i];
    }
    assert (s + [x])[..|s|] == s;
    assert forall a | 0 <= a < |at| :: at[a] in at;
    assert forall i :: i in at + [|s|] <==> i in at || i == |s|;
  }

  /** The positions the loader keeps. */
  function FirstAt<T(==), K(==)>(key: T -> K, s: seq<T>): seq<nat> {
    if s == [] then []
    else
      var init, x := s[..|s| - 1], s[|s| - 1];
      if Seen(key, init, x) then FirstAt(key, init) else FirstAt(key, init) + [|init|]
  }

  lemma {:induction false} FirstAtAreFirst<T, K>(key: T -> K, s: seq<T>)
    ensures FirstPositions(key, s, FirstAt(key, s))
  {
    if s != [] {
      var init, x := s[..|s| - 1], s[|s| - 1];
      assert s == init + [x];
      FirstAtAreFirst(key, init);
      FirstPositionsStep(key, init, FirstAt(key, init), x);
    }
  }

  lemma SelectFromPrefix<T>(s: seq<T>, n: nat, at: seq<nat>)
    requires n <= |s| && forall i | i in at :: i < n
    ensures Select(s, at) == Select(s[..n], at)
  {
    forall a | 0 <= a < |at| ensures at[a] < n && s[at[a]] == s[..n][at[a]] { assert at[a] in at; }
  }

  /** The loader keeps exactly the elements at the positions of first occurrences, in
      their order. */
  lemma {:induction false} FirstByExactly<T, K>(key: T -> K, s: seq<T>)
    ensures FirstPositions(key, s, FirstAt(key, s)) && FirstBy(key, s) == Select(s, FirstAt(key, s))
  {
    FirstAtAreFirst(key, s);
    if s != [] {
      var init, x := s[..|s| - 1], s[|s| - 1];
      FirstByExactly(key, init);
      var at := FirstAt(key, init);
      hide FirstPositions, Seen;
      FirstPositionsInRange(key, init, at);
      SelectFromPrefix(s, |init|, at);
      if !Seen(key, init, x) { SelectLast(s, at, |init|); }
    }
  }

  lemma FirstPositionsInRange<T, K>(key: T -> K, s: seq<T>, at: seq<nat>)
    requires FirstPositions(key, s, at)
    ensures forall i | i in at :: i < |s|
  {}

  lemma SelectLast<T>(s: seq<T>, at: seq<nat>, last: nat)
    requires |s| == last + 1 && forall i | i in at :: i < last
    ensures forall i | i in at + [last] :: i < |s|
    ensures Select(s, at + [last]) == Select(s, at) + [s[last]]
  {}

  /** Of consistent documents every one is kept, once. */
  lemma {:induction false} NothingLost(docs: seq<Object>)
    requires Agreeing(docs)
    ensures forall d :: d in FirstOccurrences(docs) <==> d in docs
    ensures forall i, j | 0 <= i < j < |FirstOccurrences(docs)| ::
              !SameId(FirstOccurrences(docs)[i], FirstOccurrences(docs)[j])
  {
    if docs != [] {
      var init, last := docs[..|docs| - 1], docs[|docs| - 1];
      assert docs == init + [last];
      NothingLost(init);
      if Seen(ObjectIdentity, init, last) {
        var d :| d in init && SameId(d, last);
        assert d == last;
      }
    }
  }

  /** Loading is insensitive to the order of the files and of the documents in
      them: the same documents load or fail alike and yield the same objects. */
  lemma OrderOfFilesIrrelevant(files: seq<ManifestFile>, files': seq<ManifestFile>)
    requires Loadable(files) && Loadable(files')
    requires forall d :: d in Documents(files) <==> d in Documents(files')
    ensures Agreeing(Documents(files)) <==> Agreeing(Documents(files'))
    ensures Agreeing(Documents(files)) ==>
              forall d :: d in FirstOccurrences(Documents(files)) <==> d in FirstOccurrences(Documents(files'))
  {
    if Agreeing(Documents(files)) {
      NothingLost(Documents(files));
      NothingLost(Documents(files'));
    }
  }

  lemma {:induction false} DocumentsOfFiles(files: seq<ManifestFile>)
    ensures forall d :: d in Documents(files) <==> exists f | f in files :: f.docs.Some? && d in f.docs.value
  {
    if files != [] {
      var n := |files| - 1;
      DocumentsOfFiles(files[..n]);
      assert files == files[..n] + [files[n]];
      forall d ensures d in Documents(files) <==> exists f | f in files :: f.docs.Some? && d in f.docs.value {
        if d in Documents(files) && d !in Documents(files[..n]) { assert files[n] in files; }
      }
    }
  }

  /** In particular, permuting the files changes neither success nor objects. */
  lemma PermutedFiles(files: seq<ManifestFile>, files': seq<ManifestFile>)
    requires multiset(files) == multiset(files')
    ensures Loadable(files) && Agreeing(Documents(files)) <==> Loadable(files') && Agreeing(Documents(files'))
    ensures Loadable(files) && Agreeing(Documents(files)) ==>
              forall d :: d in FirstOccurrences(Documents(files)) <==> d in FirstOccurrences(Documents(files'))
  {
    assert forall f :: f in files <==> f in multiset(files);
    assert forall f :: f in files' <==> f in multiset(files');
    DocumentsOfFiles(files);
    DocumentsOfFiles(files');
    if Loadable(files) { OrderOfFilesIrrelevant(files, files'); }
  }

  /** Deduplicating what is already deduplicated changes nothing. */
  lemma {:induction false} DedupeIdempotent(objs: seq<Object>)
    requires forall i, j | 0 <= i < j < |objs| :: !SameId(objs[i], objs[j])
    ensures FirstOccurrences(objs) == objs
  {
    if objs != [] {
      var n := |objs| - 1;
      DedupeIdempotent(objs[..n]);
      assert objs == objs[..n] + [objs[n]];
      assert forall d | d in objs[..n] :: !SameId(d, objs[n]);
    }
  }

  // ----- Filters -----

  lemma {:induction false} FilterMapMembers<A, B>(f: A -> Option<B>, s: seq<A>)
    ensures forall b :: b in FilterMap(f, s) <==> exists a | a in s :: f(a) == Some(b)
  {
    if s != [] {
      var n := |s| - 1;
      FilterMapMembers(f, s[..n]);
      assert s == s[..n] + [s[n]];
      assert forall b :: (exists a | a in s :: f(a) == Some(b)) <==>
                         (exists a | a in s[..n] :: f(a) == Some(b)) || f(s[n]) == Some(b);
    }
  }

  lemma FilterMapAppend<A, B>(f: A -> Option<B>, s: seq<A>, a: A)
    ensures FilterMap(f, s + [a]) == FilterMap(f, s) + if f(a).Some? then [f(a).value] else []
  {}

  /** The order is kept: what comes of two lists put together is what comes of the first,
      and then of the second. */
  lemma {:induction false} FilterMapInOrder<A, B>(f: A -> Option<B>, s: seq<A>, t: seq<A>)
    ensures FilterMap(f, s + t) == FilterMap(f, s) + FilterMap(f, t)
    decreases |t|
  {
    if t == [] {
      assert s + t == s;
    } else {
      var (init, x) := (t[..|t| - 1], t[|t| - 1]);
      assert s + t == (s + init) + [x] && t == init + [x];
      FilterMapInOrder(f, s, init);
      FilterMapAppend(f, s + init, x);
      FilterMapAppend(f, init, x);
    }
  }

  /** Two filters run one after the other act as one. */
  lemma {:induction false} FilterMapCompose<A, B, C>(f: A -> Option<B>, g: B -> Option<C>, h: A -> Option<C>, s: seq<A>)
    requires forall a | a in s :: h(a) == if f(a).Some? then g(f(a).value) else None
    ensures FilterMap(g, FilterMap(f, s)) == FilterMap(h, s)
  {
    if s != [] {
      var init, x := s[..|s| - 1], s[|s| - 1];
      assert x in s;
      FilterMapCompose(f, g, h, init);
      assert init + [x] == s;
      FilterMapAppend(f, init, x);
      FilterMapAppend(h, init, x);
      hide FilterMap;
      if f(x).Some? {
        FilterMapAppend(g, FilterMap(f, init), f(x).value);
      } else {
        assert FilterMap(f, s) == FilterMap(f, init) && FilterMap(h, s) == FilterMap(h, init);
      }
    }
  }

  /** The entry served is the first one that names the served version. */
  lemma {:induction false} ServedEntryIsFirst(versions: seq<Value>)
    ensures match ServedEntry(versions)
            case None => forall v | v in versions :: !NamesServedVersion(v)
            case Some(entry) =>
              NamesServedVersion(entry) &&
              exists i | 0 <= i < |versions| ::
                versions[i] == entry && forall j | 0 <= j < i :: !NamesServedVersion(versions[j])
  {
    if versions != [] && !NamesServedVersion(versions[0]) {
      ServedEntryIsFirst(versions[1..]);
      assert versions == [versions[0]] + versions[1..];
      if ServedEntry(versions).Some? {
        var i :| 0 <= i < |versions[1..]| && versions[1..][i] == ServedEntry(versions).value &&
                 forall j | 0 <= j < i :: !NamesServedVersion(versions[1..][j]);
        assert versions[i + 1] == versions[1..][i];
        assert forall j | 0 < j < i + 1 :: versions[j] == versions[1..][j - 1];
      }
    }
  }

  /** A CRD of Cluster API's own groups, whose versions can be read. */
  predicate IsClusterAPICRD(o: Object) {
    var spec := DictAt(o, "spec");
    && Kind(o) == "CustomResourceDefinition" && "versions" in spec && spec["versions"].List?
    && (StringAt(spec, "group") == "cluster.x-k8s.io" || StringAt(spec, "group") == "addons.cluster.x-k8s.io")
  }

  /** An entry of its versions that is named v1beta2. */
  predicate IsV1Beta2(v: Value) { v.Dict? && "name" in v.fields && v.fields["name"] == Str("v1beta2") }

  /** What the restriction leaves of a CRD in scope: one version, the first that
      is served, and no conversion; nothing else about it changes. It is dropped
      exactly when it serves no such version, and any other object is untouched. */
  lemma RestrictionMeans(o: Object)
    ensures !IsClusterAPICRD(o) ==> RestrictOne(o) == Some(o)
    ensures IsClusterAPICRD(o) ==>
              var versions := DictAt(o, "spec")["versions"].items;
              match RestrictOne(o)
              case None => forall v | v in versions :: !IsV1Beta2(v)
              case Some(r) =>
                && (exists i | 0 <= i < |versions| ::
                      IsV1Beta2(versions[i]) && (forall j | 0 <= j < i :: !IsV1Beta2(versions[j])) &&
                      CrdVersions(r) == Some([versions[i]]))
                && "conversion" !in DictAt(r, "spec")
                && (forall field | field !in {"versions", "conversion"} ::
                      (field in DictAt(r, "spec") <==> field in DictAt(o, "spec")) &&
                      (field in DictAt(o, "spec") ==> DictAt(r, "spec")[field] == DictAt(o, "spec")[field]))
                && r - {"spec"} == o - {"spec"} && IsClusterAPICRD(r)
  {
    if IsClusterAPICRD(o) {
      ServedEntryIsFirst(CrdVersions(o).value);
      LiteralFields();
    }
  }

  lemma LiteralFields()
    ensures "kind" != "spec" && "apiVersion" != "spec" && "metadata" != "spec"
    ensures "versions" != "conversion" && "versions" != "group" && "conversion" != "group"
    ensures "kind" != "metadata" && "apiVersion" != "metadata"
  {}

  /** Restricting one object twice is restricting it once. */
  lemma RestrictOneTwice(o: Object)
    ensures RestrictOne(o).Some? ==> RestrictOne(RestrictOne(o).value) == RestrictOne(o)
    ensures RestrictOne(o).Some? ==>
              Kind(RestrictOne(o).value) == Kind(o) && ApiVersion(RestrictOne(o).value) == ApiVersion(o)
    ensures RestrictOne(o).Some? ==>
              Name(RestrictOne(o).value) == Name(o) && Namespace(RestrictOne(o).value) == Namespace(o) &&
              ResourceVersion(RestrictOne(o).value) == ResourceVersion(o)
  {
    LiteralFields();
    if InScope(o) && CrdVersions(o).Some? && RestrictOne(o).Some? {
      RestrictionMeans(o);
      ServedEntryIsFirst(CrdVersions(o).value);
      var entry := ServedEntry(CrdVersions(o).value).value;
      var r := RestrictOne(o).value;
      assert ServedEntry([entry]) == Some(entry);
      var spec := DictAt(r, "spec");
      assert spec["versions" := List([entry])] - {"conversion"} == spec;
      assert r["spec" := Dict(spec)] == r;
    }
  }

  function KeepThenRestrict(o: Object): Option<Object> { if Keep(o) then RestrictOne(o) else None }

  lemma KeepIgnoresRestriction(o: Object)
    ensures KeepThenRestrict(o) == if RestrictOne(o).Some? then KeepOne(RestrictOne(o).value) else None
  {
    RestrictOneTwice(o);
    if RestrictOne(o).Some? {
      assert GroupVersionKindOf(RestrictOne(o).value) == GroupVersionKindOf(o);
    }
  }

  /** The restriction is idempotent over its own output and commutes with the filter
      of kept kinds. */
  lemma RestrictionSettles(objs: seq<Object>)
    ensures Restricted(Restricted(objs)) == Restricted(objs)
    ensures Kept(Restricted(objs)) == Restricted(Kept(objs))
  {
    forall o | o in objs
      ensures RestrictOne(o).Some? ==> RestrictOne(RestrictOne(o).value) == RestrictOne(o)
      ensures KeepThenRestrict(o) == if RestrictOne(o).Some? then KeepOne(RestrictOne(o).value) else None
    {
      RestrictOneTwice(o);
      KeepIgnoresRestriction(o);
    }
    FilterMapCompose(RestrictOne, RestrictOne, RestrictOne, objs);
    FilterMapCompose(RestrictOne, KeepOne, KeepThenRestrict, objs);
    forall o | o in objs
      ensures KeepThenRestrict(o) == if KeepOne(o).Some? then RestrictOne(KeepOne(o).value) else None
    {}
    FilterMapCompose(KeepOne, RestrictOne, KeepThenRestrict, objs);
  }

  /** The first batch is every kept object but the bindings. */
  lemma UnboundExactly(objs: seq<Object>)
    ensures forall o :: o in WithoutBindings(objs) <==>
              o in objs && Kind(o) != CLUSTER_ROLE_BINDING && Kind(o) != ROLE_BINDING
  {
    FilterMapMembers(UnboundOne, objs);
  }

  /** The wait list names exactly the CRDs, each once, and in the order they are first seen:
      what comes later only adds to its end. */
  lemma {:induction false} WaitListIsComplete(objs: seq<Object>)
    ensures forall n :: n in CrdNames(objs) <==> exists o | o in objs :: Kind(o) == CRD && Name(o) == n
    ensures forall i, j | 0 <= i < j < |CrdNames(objs)| :: CrdNames(objs)[i] != CrdNames(objs)[j]
    ensures forall n | 0 <= n <= |objs| :: CrdNames(objs[..n]) <= CrdNames(objs)
  {
    if objs != [] {
      var n := |objs| - 1;
      WaitListIsComplete(objs[..n]);
      assert objs == objs[..n] + [objs[n]];
      var names := CrdNames(objs);
      assert objs[..|objs|] == objs && forall m | 0 <= m <= n :: objs[..n][..m] == objs[..m];
      forall name ensures name in names <==> exists o | o in objs :: Kind(o) == CRD && Name(o) == name {
        if name in names && name !in CrdNames(objs[..n]) { assert objs[n] in objs; }
      }
    }
  }

  // ----- Dedupe and Apply's refusal -----

  predicate DistinctBy<T, K(==)>(key: T -> K, s: seq<T>) {
    forall i, j | 0 <= i < j < |s| :: key(s[i]) != key(s[j])
  }

  /** A filter that leaves keys alone keeps distinct ones distinct. */
  lemma {:induction false} FilterKeepsDistinct<T, K>(key: T -> K, f: T -> Option<T>, s: seq<T>)
    requires DistinctBy(key, s)
    requires forall x | x in s :: f(x).Some? ==> key(f(x).value) == key(x)
    ensures DistinctBy(key, FilterMap(f, s))
    ensures |FilterMap(f, s)| <= |s|
    ensures forall y | y in FilterMap(f, s) :: exists x | x in s :: f(x) == Some(y)
  {
    if s != [] {
      var n := |s| - 1;
      assert s == s[..n] + [s[n]];
      FilterKeepsDistinct(key, f, s[..n]);
      var init := FilterMap(f, s[..n]);
      forall y | y in init && f(s[n]).Some? ensures key(y) != key(f(s[n]).value) {
        var x :| x in s[..n] && f(x) == Some(y);
        var j :| 0 <= j < n && s[j] == x;
        assert key(s[j]) != key(s[n]);
      }
    }
  }

  predicate DistinctIds(objs: seq<Object>) { DistinctBy(ObjectIdentity, objs) }

  predicate NulFreeObject(o: Object) {
    NulFree(ApiVersion(o)) && NulFree(Kind(o)) && NulFree(Namespace(o)) && NulFree(Name(o))
  }

  /** The filter fixes one apiVersion for every kind but Namespace, whose empty
      group may also be spelt with a leading slash. */
  lemma KeptKindsApply(o: Object)
    requires Keep(o)
    ensures Applied(Kind(o))
    ensures Kind(o) != NAMESPACE ==>
              var gvk := GroupVersionKindOf(o);
              ApiVersion(o) == gvk.group + "/" + gvk.version
  {}

  /** What the filter keeps, written out: each kind at v1 of its own group, a Namespace's
      empty group being spelt with or without the slash. */
  predicate IsKeptPair(kind: string, apiVersion: string) {
    || (kind == "Namespace" && (apiVersion == "v1" || apiVersion == "/v1"))
    || (kind == "CustomResourceDefinition" && apiVersion == "apiextensions.k8s.io/v1")
    || ((kind == "ClusterRole" || kind == "ClusterRoleBinding" || kind == "Role" || kind == "RoleBinding") &&
        apiVersion == "rbac.authorization.k8s.io/v1")
    || ((kind == "MutatingWebhookConfiguration" || kind == "ValidatingWebhookConfiguration") &&
        apiVersion == "admissionregistration.k8s.io/v1")
  }

  lemma KeptExactly(o: Object)
    ensures Keep(o) <==> IsKeptPair(Kind(o), ApiVersion(o))
  {
    KeptByGroup(o);
    hide Keep, Kind, ApiVersion;
    KeptGroupPairs(Kind(o), ApiVersion(o));
  }

  lemma KeptGroupPairs(kind: string, v: string)
    ensures IsKeptPair(kind, v) <==>
            match KeptGroup(kind)
            case None => false
            case Some(group) => v == group + "/v1" || (group == "" && v == "v1")
  {
    assert "" + "/v1" == "/v1" && "apiextensions.k8s.io" + "/v1" == "apiextensions.k8s.io/v1";
    assert "rbac.authorization.k8s.io" + "/v1" == "rbac.authorization.k8s.io/v1";
    assert "admissionregistration.k8s.io" + "/v1" == "admissionregistration.k8s.io/v1";
  }

  /** Where the client addresses each kind. */
  lemma AddressedExactly()
    ensures ResourceFor("Namespace") == Some(ResourceRef(Namespaces, false))
    ensures ResourceFor("CustomResourceDefinition") == Some(ResourceRef(CustomResourceDefinitions, false))
    ensures ResourceFor("ClusterRole") == Some(ResourceRef(ClusterRoles, false))
    ensures ResourceFor("ClusterRoleBinding") == Some(ResourceRef(ClusterRoleBindings, false))
    ensures ResourceFor("Role") == Some(ResourceRef(Roles, true))
    ensures ResourceFor("RoleBinding") == Some(ResourceRef(RoleBindings, true))
    ensures ResourceFor("MutatingWebhookConfiguration") == Some(ResourceRef(MutatingWebhookConfigurations, false))
    ensures ResourceFor("ValidatingWebhookConfiguration") == Some(ResourceRef(ValidatingWebhookConfigurations, false))
  {}

  /** The kinds that are applied are those the filter keeps under some apiVersion. */
  lemma AppliedExactly(kind: string)
    ensures Applied(kind) <==> exists apiVersion :: IsKeptPair(kind, apiVersion)
  {
    if Applied(kind) {
      var group := KeptGroup(kind).value;
      KeptGroupPairs(kind, group + "/v1");
    } else if apiVersion :| IsKeptPair(kind, apiVersion) {
      KeptGroupPairs(kind, apiVersion);
      hide IsKeptPair;
    }
  }

  lemma KeptByGroup(o: Object)
    ensures Keep(o) <==>
            var group := KeptGroup(Kind(o));
            group.Some? && (ApiVersion(o) == group.value + "/v1" || (group.value == "" && ApiVersion(o) == "v1"))
  {
    GroupsAreParsed(o);
    KeptGroupsHaveNoSlash(Kind(o));
    assert KeptGroup("").None?;
    hide GroupVersionKindOf, KeptGroup, ApiVersion, Kind, GroupOf;
    if KeptGroup(Kind(o)).Some? { GroupSlashVersion(ApiVersion(o), KeptGroup(Kind(o)).value); }
  }

  lemma KeptGroupsHaveNoSlash(kind: string)
    ensures KeptGroup(kind).Some? ==> '/' !in KeptGroup(kind).value
  {}

  lemma GroupsAreParsed(o: Object)
    ensures GroupVersionKindOf(o) ==
            match GroupOf(ApiVersion(o))
            case None => GroupVersionKind("", "", "")
            case Some((group, version)) => GroupVersionKind(group, version, Kind(o))
  {}

  function GroupOf(v: string): Option<(string, string)> {
    var slash := Span(v, {'/'});
    if v == "" || v == "/" then Some(("", ""))
    else if slash == |v| then Some(("", v))
    else if '/' in v[slash + 1..] then None
    else Some((v[..slash], v[slash + 1..]))
  }

  lemma GroupSlashVersion(v: string, group: string)
    requires '/' !in group
    ensures GroupOf(v) == Some((group, "v1")) <==> v == group + "/v1" || (group == "" && v == "v1")
  {
    hide Span;
    if v == group + "/v1" {
      SpanOf(group, "/v1", {'/'});
      assert v[..|group|] == group && v[|group| + 1..] == "v1";
    }
    if v == "v1" { assert "v1" + "" == v; SpanOf("v1", "", {'/'}); }
    var slash := Span(v, {'/'});
    if slash < |v| { assert v == v[..slash] + "/" + v[slash + 1..]; assert "/" + "v1" == "/v1"; }
  }

  lemma SameKindSameVersion(a: Object, b: Object)
    requires Keep(a) && Keep(b) && Kind(a) == Kind(b)
    ensures GroupVersionKindOf(a) == GroupVersionKindOf(b)
  {}

  lemma SameApplyKey(a: Object, b: Object)
    requires NulFreeObject(a) && NulFreeObject(b)
    ensures ApplyKey(a) == ApplyKey(b) <==> Scope(a) == Scope(b) && Kind(a) == Kind(b) && Name(a) == Name(b)
  {
    if ApplyKey(a) == ApplyKey(b) {
      var (p, q) := ([Scope(a), Kind(a), Name(a)], [Scope(b), Kind(b), Name(b)]);
      JoinInjective(p, q);
      assert p[0] == q[0] && p[1] == q[1] && p[2] == q[2];
    }
  }

  /** apiVersion, kind, namespace and name: what the loader tells documents apart by. */
  predicate SameFields(a: Object, b: Object) {
    ApiVersion(a) == ApiVersion(b) && Kind(a) == Kind(b) && Namespace(a) == Namespace(b) && Name(a) == Name(b)
  }

  lemma SameIdExactly(a: Object, b: Object)
    requires NulFreeObject(a) && NulFreeObject(b)
    ensures SameId(a, b) <==> SameFields(a, b)
  {
    if SameId(a, b) {
      var p := [ApiVersion(a), Kind(a), Namespace(a), Name(a)];
      var q := [ApiVersion(b), Kind(b), Namespace(b), Name(b)];
      JoinInjective(p, q);
      assert p[0] == q[0] && p[1] == q[1] && p[2] == q[2] && p[3] == q[3];
    }
  }

  /** The files load exactly when each can be read and no two documents, of one file or
      of two, agree in those four fields and differ elsewhere; and of those that agree in
      them exactly one is kept. */
  lemma LoadsExactly(files: seq<ManifestFile>)
    requires forall d | d in Documents(files) :: NulFreeObject(d)
    ensures Loadable(files) && Agreeing(Documents(files)) <==>
            && (forall f | f in files :: f.docs.Some?)
            && (forall f, g | f in files && g in files && f.docs.Some? && g.docs.Some? ::
                  forall a, b | a in f.docs.value && b in g.docs.value && SameFields(a, b) :: a == b)
    ensures Agreeing(Documents(files)) ==>
              var kept := FirstOccurrences(Documents(files));
              && (forall d :: d in kept <==> d in Documents(files))
              && (forall i, j | 0 <= i < j < |kept| :: !SameFields(kept[i], kept[j]))
  {
    var docs := Documents(files);
    forall a, b | a in docs && b in docs ensures SameId(a, b) <==> SameFields(a, b) { SameIdExactly(a, b); }
    hide SameId, SameFields, NulFreeObject, FirstOccurrences, Documents;
    DocumentsOfFiles(files);
    if Agreeing(docs) { NothingLost(docs); }
  }

  function RoleIn(namespace: string, name: string): Object {
    map["apiVersion" := Str("rbac.authorization.k8s.io/v1"), "kind" := Str("Role"),
        "metadata" := Dict(map["name" := Str(name), "namespace" := Str(namespace)])]
  }

  lemma RoleFields(namespace: string, name: string)
    ensures var o := RoleIn(namespace, name);
            ApiVersion(o) == "rbac.authorization.k8s.io/v1" && Kind(o) == "Role" && Name(o) == name &&
            Namespace(o) == namespace
  {
    LiteralFields();
    assert "namespace" != "name" && "kind" != "apiVersion";
    assert DictAt(RoleIn(namespace, name), "metadata") == map["name" := Str(name), "namespace" := Str(namespace)];
  }

  lemma RoleTextsAreNulFree()
    ensures NulFree("rbac.authorization.k8s.io/v1") && NulFree("Role")
  {}

  lemma RoleIsKept(namespace: string, name: string)
    ensures Keep(RoleIn(namespace, name))
  {
    RoleFields(namespace, name);
    KeptExactly(RoleIn(namespace, name));
    hide RoleIn, Keep, ApiVersion, Kind;
  }

  /** One Role in two namespaces is two objects for the loader and for Apply. */
  lemma RolesStandApart(a: string, b: string, name: string)
    requires a != b && NulFree(a) && NulFree(b) && NulFree(name)
    ensures var docs := [RoleIn(a, name), RoleIn(b, name)];
            && Agreeing(docs) && FirstOccurrences(docs) == docs
            && Keep(docs[0]) && Keep(docs[1]) && Refusal(docs).Done?
  {
    var docs := [RoleIn(a, name), RoleIn(b, name)];
    RoleFields(a, name);
    RoleFields(b, name);
    RoleTextsAreNulFree();
    RoleIsKept(a, name);
    RoleIsKept(b, name);
    hide RoleIn, Keep, ApiVersion, Kind, Name, Namespace, FirstOccurrences, Refusal, NulFree, ObjectIdentity;
    SameIdExactly(docs[0], docs[1]);
    DedupeIdempotent(docs);
    RefusedOnlyOnClash(docs);
  }

  /** The only kinds addressed by namespace. */
  lemma NamespacedKinds(kind: string)
    requires Applied(kind)
    ensures Namespaced(kind) <==> kind == ROLE || kind == ROLE_BINDING
  {}

  /** Two objects of one cluster-scoped kind under one name. */
  predicate Clash(a: Object, b: Object) {
    Kind(a) == Kind(b) && Name(a) == Name(b) && Kind(a) != ROLE && Kind(a) != ROLE_BINDING
  }

  /** After dedupe a batch of kept objects is refused exactly when two of them are
      of one cluster-scoped kind and name: dedupe settles every namespaced kind,
      although the two key functions differ. */
  lemma RefusedOnlyOnClash(objs: seq<Object>)
    requires DistinctIds(objs)
    requires forall o | o in objs :: Keep(o) && NulFreeObject(o)
    ensures Refusal(objs).Done? <==> forall i, j | 0 <= i < j < |objs| :: !Clash(objs[i], objs[j])
  {
    hide *;
    if Refusal(objs).Done? {
      forall i, j | 0 <= i < j < |objs| ensures !Clash(objs[i], objs[j]) {
        if Clash(objs[i], objs[j]) { ClashIsRefused(objs, i, j); }
      }
    } else {
      if forall i, j | 0 <= i < j < |objs| :: !Clash(objs[i], objs[j]) { NoClashIsAccepted(objs); }
    }
  }

  lemma ClashIsRefused(objs: seq<Object>, i: nat, j: nat)
    requires i < j < |objs| && Keep(objs[i]) && Keep(objs[j]) && Clash(objs[i], objs[j])
    requires NulFreeObject(objs[i]) && NulFreeObject(objs[j])
    ensures !Refusal(objs).Done?
  {
    SameApplyKey(objs[i], objs[j]);
    KeptKindsApply(objs[i]);
    NamespacedKinds(Kind(objs[i]));
    RefusalMeans(objs);
  }

  lemma NoClashIsAccepted(objs: seq<Object>)
    requires DistinctIds(objs)
    requires forall o | o in objs :: Keep(o) && NulFreeObject(o)
    requires forall i, j | 0 <= i < j < |objs| :: !Clash(objs[i], objs[j])
    ensures Refusal(objs).Done?
  {
    hide *;
    forall i, j | 0 <= i < j < |objs| ensures ApplyKey(objs[i]) != ApplyKey(objs[j]) {
      DistinctPair(objs, i, j);
      DistinctIdsClash(objs[i], objs[j]);
    }
    AllKeptApply(objs);
    RefusalMeans(objs);
  }

  lemma AllKeptApply(objs: seq<Object>)
    requires forall o | o in objs :: Keep(o)
    ensures AllApplied(objs)
  {}

  lemma DistinctPair(objs: seq<Object>, i: nat, j: nat)
    requires DistinctIds(objs) && i < j < |objs|
    ensures !SameId(objs[i], objs[j])
  {}

  lemma DistinctIdsClash(a: Object, b: Object)
    requires Keep(a) && NulFreeObject(a) && Keep(b) && NulFreeObject(b) && !SameId(a, b)
    ensures ApplyKey(a) == ApplyKey(b) <==> Clash(a, b)
  {
    SameApplyKey(a, b);
    KeptKindsApply(a);
    KeptKindsApply(b);
    NamespacedKinds(Kind(a));
    if Kind(a) == Kind(b) && Namespaced(Kind(a)) { SameKindSameVersion(a, b); }
  }

  function NamespaceSpelt(apiVersion: string, name: string): Object {
    map["apiVersion" := Str(apiVersion), "kind" := Str(NAMESPACE), "metadata" := Dict(map["name" := Str(name)])]
  }

  lemma NamespaceFields(apiVersion: string, name: string)
    ensures var o := NamespaceSpelt(apiVersion, name);
            ApiVersion(o) == apiVersion && Kind(o) == NAMESPACE && Name(o) == name && Namespace(o) == ""
  {
    assert "namespace" != "name";
    assert DictAt(NamespaceSpelt(apiVersion, name), "metadata") == map["name" := Str(name)];
  }

  lemma SpeltApart(name: string)
    ensures !SameId(NamespaceSpelt("v1", name), NamespaceSpelt("/v1", name))
    ensures ApplyKey(NamespaceSpelt("v1", name)) == ApplyKey(NamespaceSpelt("/v1", name))
  {
    NamespaceFields("v1", name);
    NamespaceFields("/v1", name);
    hide NamespaceSpelt, ApiVersion, Kind, Name, Namespace;
    assert ObjectIdentity(NamespaceSpelt("v1", name))[0] == 'v';
    assert ObjectIdentity(NamespaceSpelt("/v1", name))[0] == '/';
  }

  lemma BothSpellingsKept(name: string)
    ensures Keep(NamespaceSpelt("v1", name)) && Keep(NamespaceSpelt("/v1", name))
  {
    NamespaceFields("v1", name);
    NamespaceFields("/v1", name);
    KeptExactly(NamespaceSpelt("v1", name));
    KeptExactly(NamespaceSpelt("/v1", name));
    hide NamespaceSpelt, Keep, ApiVersion, Kind;
  }

  /** Such a clash passes dedupe: one namespace under both spellings of its apiVersion
      is two identities, and Apply refuses the batch. */
  lemma DedupeMissesTheSecondSpelling(name: string)
    ensures var docs := [NamespaceSpelt("v1", name), NamespaceSpelt("/v1", name)];
            && Agreeing(docs) && FirstOccurrences(docs) == docs
            && Keep(docs[0]) && Keep(docs[1]) && !Refusal(docs).Done?
  {
    var docs := [NamespaceSpelt("v1", name), NamespaceSpelt("/v1", name)];
    SpeltApart(name);
    BothSpellingsKept(name);
    hide NamespaceSpelt, Keep, ObjectIdentity, ApplyKey, FirstOccurrences, Refusal;
    DedupeIdempotent(docs);
    RefusalMeans(docs);
    assert ApplyKey(docs[0]) == ApplyKey(docs[1]);
  }

  /** From files to batch: what is loaded, restricted and kept. */
  lemma LoadedAreClean(files: seq<ManifestFile>)
    requires Agreeing(Documents(files))
    requires forall d | d in Documents(files) :: NulFreeObject(d)
    ensures var kept := Kept(Restricted(FirstOccurrences(Documents(files))));
            DistinctIds(kept) && forall o | o in kept :: Keep(o) && NulFreeObject(o)
  {
    var docs := Documents(files);
    NothingLost(docs);
    var loaded := FirstOccurrences(docs);
    forall o | o in loaded ensures RestrictOne(o).Some? ==> SameId(RestrictOne(o).value, o) { RestrictOneTwice(o); }
    FilterKeepsDistinct(ObjectIdentity, RestrictOne, loaded);
    var restricted := Restricted(loaded);
    FilterKeepsDistinct(ObjectIdentity, KeepOne, restricted);
    forall o | o in Kept(restricted) ensures Keep(o) && NulFreeObject(o) {
      assert o in restricted;
      var p :| p in loaded && RestrictOne(p) == Some(o);
      RestrictOneTwice(p);
    }
  }

  /** What the loader returns, restricted and filtered, is refused exactly when two
      kept objects clash. */
  lemma LoadedBatchRefusedOnlyOnClash(files: seq<ManifestFile>)
    requires Agreeing(Documents(files))
    requires forall d | d in Documents(files) :: NulFreeObject(d)
    ensures var kept := Kept(Restricted(FirstOccurrences(Documents(files))));
            Refusal(kept).Done? <==> forall i, j | 0 <= i < j < |kept| :: !Clash(kept[i], kept[j])
  {
    LoadedAreClean(files);
    RefusedOnlyOnClash(Kept(Restricted(FirstOccurrences(Documents(files)))));
  }
}
