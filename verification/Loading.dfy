/** Loading the provider manifests, and the filters between them and the batches. */
module Loading {
  import opened Wrappers
  import opened Objects
  import opened Manifests

  /** One manifest file: its documents, or None when it cannot be read or parsed. */
  datatype ManifestFile = ManifestFile(path: string, docs: Option<seq<Object>>)

  datatype LoadError =
    | Unloadable(path: string)
    | Drift(second: Object, firstPath: string, secondPath: string)

  predicate Loadable(files: seq<ManifestFile>) { forall f | f in files :: f.docs.Some? }

  /** Every document of every file, in load order. */
  function Documents(files: seq<ManifestFile>): seq<Object> {
    if files == [] then []
    else
      var last := files[|files| - 1].docs;
      Documents(files[..|files| - 1]) + if last.Some? then last.value else []
  }

  predicate SameId(a: Object, b: Object) { ObjectIdentity(a) == ObjectIdentity(b) }

  /** Documents that share an identity agree. */
  predicate Agreeing(docs: seq<Object>) {
    forall a, b | a in docs && b in docs && SameId(a, b) :: a == b
  }

  predicate Seen<T(==), K(==)>(key: T -> K, s: seq<T>, x: T) { exists y | y in s :: key(y) == key(x) }

  /** The first element under each key, in order. */
  function FirstBy<T(==), K(==)>(key: T -> K, s: seq<T>): seq<T> {
    if s == [] then []
    else
      var init, last := s[..|s| - 1], s[|s| - 1];
      if Seen(key, init, last) then FirstBy(key, init) else FirstBy(key, init) + [last]
  }

  /** The first document of each identity, in order. */
  function FirstOccurrences(docs: seq<Object>): seq<Object> { FirstBy(ObjectIdentity, docs) }

  /** Documents in file f that an error may name. */
  predicate Holds(files: seq<ManifestFile>, path: string, o: Object) {
    exists f | f in files :: f.path == path && f.docs.Some? && o in f.docs.value
  }

  lemma DocumentsStep(files: seq<ManifestFile>, n: nat)
    requires n < |files| && files[n].docs.Some?
    ensures Documents(files[..n + 1]) == Documents(files[..n]) + files[n].docs.value
  {
    assert files[..n + 1][..n] == files[..n];
  }

  lemma {:induction false} DocumentsPrefix(files: seq<ManifestFile>, n: nat)
    requires n <= |files|
    ensures forall d | d in Documents(files[..n]) :: d in Documents(files)
    decreases |files| - n
  {
    if n == |files| {
      assert files[..n] == files;
    } else {
      DocumentsPrefix(files, n + 1);
      assert files[..n + 1][..n] == files[..n];
    }
  }

  /** The loader's bookkeeping after the documents done: where each identity was
      first seen, and which file it came from. */
  ghost predicate Indexed(
    done: seq<Object>, objs: seq<Object>, sources: seq<string>, firstIdx: map<string, nat>, files: seq<ManifestFile>)
  {
    && objs == FirstOccurrences(done) && Agreeing(done)
    && |sources| == |objs|
    && (forall i | 0 <= i < |objs| :: objs[i] in done && Holds(files, sources[i], objs[i]))
    && (forall d | d in done :: ObjectIdentity(d) in firstIdx)
    && (forall id | id in firstIdx :: firstIdx[id] < |objs| && ObjectIdentity(objs[firstIdx[id]]) == id)
  }

  lemma IndexNew(
    done: seq<Object>, objs: seq<Object>, sources: seq<string>, firstIdx: map<string, nat>, files: seq<ManifestFile>,
    o: Object, path: string)
    requires Indexed(done, objs, sources, firstIdx, files)
    requires ObjectIdentity(o) !in firstIdx && Holds(files, path, o)
    ensures Indexed(done + [o], objs + [o], sources + [path], firstIdx[ObjectIdentity(o) := |objs|], files)
  {}

  lemma IndexOld(
    done: seq<Object>, objs: seq<Object>, sources: seq<string>, firstIdx: map<string, nat>, files: seq<ManifestFile>,
    o: Object)
    requires Indexed(done, objs, sources, firstIdx, files)
    requires ObjectIdentity(o) in firstIdx && objs[firstIdx[ObjectIdentity(o)]] == o
    ensures Indexed(done + [o], objs, sources, firstIdx, files)
  {}

  lemma StartsIndexed(files: seq<ManifestFile>)
    ensures Indexed(Documents(files[..0]), [], [], map[], files)
  {}

  lemma HoldsAt(files: seq<ManifestFile>, n: nat, o: Object)
    requires n < |files| && files[n].docs.Some? && o in files[n].docs.value
    ensures Holds(files, files[n].path, o)
  {}

  /** A document that differs from the one first seen under its identity. */
  lemma DriftFound(
    done: seq<Object>, objs: seq<Object>, sources: seq<string>, firstIdx: map<string, nat>, files: seq<ManifestFile>,
    o: Object, path: string)
    requires Indexed(done, objs, sources, firstIdx, files) && Holds(files, path, o)
    requires ObjectIdentity(o) in firstIdx && objs[firstIdx[ObjectIdentity(o)]] != o
    requires (forall d | d in done :: d in Documents(files)) && o in Documents(files)
    ensures !Agreeing(Documents(files))
    ensures var first := objs[firstIdx[ObjectIdentity(o)]];
            Holds(files, sources[firstIdx[ObjectIdentity(o)]], first) && SameId(first, o) && first != o
  {}

  /** The first file that cannot be read or parsed, with nothing amiss in those before it. */
  predicate FailsToLoad(files: seq<ManifestFile>, n: nat) {
    n < |files| && files[n].docs.None? && Loadable(files[..n]) && Agreeing(Documents(files[..n]))
  }

  /** The loop that grows objects, sources and index together. */
  method LoadDedupedObjects(files: seq<ManifestFile>) returns (r: Result<seq<Unstructured>, LoadError>)
    ensures r.Ok? <==> Loadable(files) && Agreeing(Documents(files))
    ensures r.Ok? ==> Contents(r.value) == FirstOccurrences(Documents(files)) && forall o | o in r.value :: fresh(o)
    ensures r.Err? && r.error.Unloadable? ==>
              exists n: nat :: FailsToLoad(files, n) && files[n].path == r.error.path
    ensures r.Err? && r.error.Drift? ==>
              Holds(files, r.error.secondPath, r.error.second) &&
              exists first ::
                Holds(files, r.error.firstPath, first) && SameId(first, r.error.second) && first != r.error.second
  {
    hide ObjectIdentity, FirstOccurrences, Holds, Documents, Agreeing, Seen, SameId;
    var objs: seq<Unstructured>, sources: seq<string>, firstIdx: map<string, nat> := [], [], map[];
    StartsIndexed(files);
    for n := 0 to |files|
      invariant Loadable(files[..n])
      invariant forall o | o in objs :: fresh(o)
      invariant Indexed(Documents(files[..n]), Contents(objs), sources, firstIdx, files)
    {
      if files[n].docs.None? {
        assert FailsToLoad(files, n);
        return Err(Unloadable(files[n].path));
      }
      var parsed := files[n].docs.value;
      ghost var before := Documents(files[..n]);
      DocumentsStep(files, n);
      DocumentsPrefix(files, n + 1);
      assert before + parsed[..0] == before;
      for i := 0 to |parsed|
        invariant forall o | o in objs :: fresh(o)
        invariant Indexed(before + parsed[..i], Contents(objs), sources, firstIdx, files)
      {
        ghost var done, was := before + parsed[..i], Contents(objs);
        assert before + parsed[..i + 1] == done + [parsed[i]];
        HoldsAt(files, n, parsed[i]);
        var id := ObjectIdentity(parsed[i]);
        if id !in firstIdx {
          IndexNew(done, was, sources, firstIdx, files, parsed[i], files[n].path);
          firstIdx := firstIdx[id := |objs|];
          var entry := new Unstructured(parsed[i]);
          objs, sources := objs + [entry], sources + [files[n].path];
          assert Contents(objs) == was + [parsed[i]];
        } else if objs[firstIdx[id]].data == parsed[i] {
          IndexOld(done, was, sources, firstIdx, files, parsed[i]);
        } else {
          DriftFound(done, was, sources, firstIdx, files, parsed[i], files[n].path);
          return Err(Drift(parsed[i], sources[firstIdx[id]], files[n].path));
        }
      }
      assert parsed[..|parsed|] == parsed;
    }
    assert files[..|files|] == files;
    return Ok(objs);
  }
}
