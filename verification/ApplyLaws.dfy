/** What Apply means for the contents of the store: a map override, cut to a
    prefix of the batch wherever a run is cut. */
module ApplyLaws {
  import opened Text
  import opened Objects
  import opened Manifests
  import opened ApiServer
  import opened Apply

  /** The contents a batch asks for, later requests winning. */
  function Overlay(qs: seq<Request>): (m: map<Key, Object>)
    ensures forall k :: k in m <==> exists q | q in qs :: q.key == k
  {
    if qs == [] then map[]
    else
      assert qs == [qs[0]] + qs[1..];
      map[qs[0].key := Content(qs[0].body)] + Overlay(qs[1..])
  }

  predicate DistinctKeys(qs: seq<Request>) {
    forall i, j | 0 <= i < j < |qs| :: qs[i].key != qs[j].key
  }

  /** With distinct keys the batch asks for each object's own content. */
  lemma {:induction false} OverlayAt(qs: seq<Request>, q: Request)
    requires DistinctKeys(qs) && q in qs
    ensures q.key in Overlay(qs) && Overlay(qs)[q.key] == Content(q.body)
  {
    hide Content;
    assert qs == [qs[0]] + qs[1..];
    if q == qs[0] {
      assert forall p | p in qs[1..] :: p.key != q.key;
    } else {
      OverlayAt(qs[1..], q);
    }
  }

  lemma SameRoleRef(o: Object, version: string)
    ensures RoleRef(SetResourceVersion(o, version)) == RoleRef(o) == RoleRef(Content(o))
  {}

  /** What a store must allow for a request to go through. */
  predicate Fits(store: Store, q: Request) { Creatable(q.body) && KeepsRoleRef(store, q.key, q.body) }

  /** One request: it overrides its key or changes nothing, and with three calls to
      spend it is accepted exactly when it fits. */
  lemma ApplyOneEffect(w: World, q: Request)
    ensures var (w1, s) := ApplyOne(w, q);
            && (s == Accepted ==>
                  Fits(w.store, q) && ContentsOf(w1.store) == ContentsOf(w.store)[q.key := Content(q.body)])
            && (s != Accepted ==> w1.store == w.store)
            && (w.budget >= 3 ==> w1.budget >= w.budget - 3 && (Fits(w.store, q) ==> s == Accepted))
  {
    if Creatable(q.body) && q.key in w.store {
      AdoptedVersion(q.body, w.store[q.key].version);
      SameRoleRef(q.body, w.store[q.key].version);
    }
  }

  /** What can be created, field by field. */
  lemma CreatableExactly(o: Object)
    requires Applied(Kind(o))
    ensures Creatable(o) <==>
            && Name(o) != "" && ResourceVersion(o) == ""
            && (Kind(o) == "Role" || Kind(o) == "RoleBinding" ==> Namespace(o) != "")
  {}

  /** The versions in a store were given by its writes. */
  predicate Numbered(w: World) {
    forall k | k in w.store :: exists n: nat :: n <= w.revision && w.store[k].version == Itoa(n)
  }

  lemma WritesAreNumbered(w: World, q: Request)
    requires Numbered(w)
    ensures Numbered(ApplyOne(w, q).0)
  {
    hide Creatable, KeepsRoleRef;
  }

  /** No lost updates: what was read before an accepted write to its key can no longer be
      used for an update, while without one it can, if the roleRef allows. */
  lemma StaleUpdateIsRefused(w: World, q: Request, o: Object)
    requires Numbered(w) && q.key in w.store && Name(o) != ""
    ensures var adopted := SetResourceVersion(o, w.store[q.key].version);
            var (w1, s) := ApplyOne(w, q);
            && (s == Accepted && w1.budget > 0 ==> UpdateCall(w1, q.key, adopted).1 == Conflict)
            && (w.budget > 0 ==> (UpdateCall(w, q.key, adopted).1 == Accepted <==> KeepsRoleRef(w.store, q.key, o)))
  {
    if ApplyOne(w, q).1 == Accepted { WriteRenews(w, q); }
    AdoptedVersion(o, w.store[q.key].version);
    SameRoleRef(o, w.store[q.key].version);
    hide ApplyOne, SetResourceVersion, RoleRef, ResourceVersion, KeepsRoleRef;
    KeepsByRoleRef(w.store, q.key, SetResourceVersion(o, w.store[q.key].version), o);
  }

  lemma WriteRenews(w: World, q: Request)
    requires Numbered(w) && q.key in w.store && ApplyOne(w, q).1 == Accepted
    ensures var w1 := ApplyOne(w, q).0;
            q.key in w1.store && w1.store[q.key].version != w.store[q.key].version
  {
    var n: nat :| n <= w.revision && w.store[q.key].version == Itoa(n);
    hide Creatable, KeepsRoleRef, Itoa, Content;
    if Itoa(w.revision + 1) == Itoa(n) { ItoaInjective(w.revision + 1, n); }
  }

  lemma KeepsByRoleRef(store: Store, k: Key, a: Object, b: Object)
    requires RoleRef(a) == RoleRef(b)
    ensures KeepsRoleRef(store, k, a) <==> KeepsRoleRef(store, k, b)
  {}

  /** How many requests of a batch were accepted before it stopped. */
  function Progress(w: World, qs: seq<Request>): (n: nat)
    ensures n <= |qs|
    decreases |qs|
  {
    if qs == [] then 0
    else
      var (w1, s) := ApplyOne(w, qs[0]);
      if s != Accepted then 0 else 1 + Progress(w1, qs[1..])
  }

  lemma OverrideOnTop<K, V>(m: map<K, V>, k: K, v: V, rest: map<K, V>)
    ensures m[k := v] + rest == m + (map[k := v] + rest)
  {}

  lemma OverlayStep(q: Request, qs: seq<Request>, n: nat)
    requires n <= |qs|
    ensures Overlay(([q] + qs)[..n + 1]) == map[q.key := Content(q.body)] + Overlay(qs[..n])
  {
    assert ([q] + qs)[..n + 1][1..] == qs[..n];
  }

  /** Wherever a batch stops, the store holds exactly a prefix of it. */
  lemma {:induction false} ApplyAllPrefix(w: World, qs: seq<Request>)
    ensures var (w1, r) := ApplyAll(w, qs);
            var n := Progress(w, qs);
            && (r.Done? <==> n == |qs|)
            && ContentsOf(w1.store) == ContentsOf(w.store) + Overlay(qs[..n])
    decreases |qs|
  {
    if qs != [] {
      var q, rest := qs[0], qs[1..];
      assert qs == [q] + rest;
      ApplyOneEffect(w, q);
      var (w1, s) := ApplyOne(w, q);
      if s == Accepted {
        ApplyAllPrefix(w1, rest);
        var n := Progress(w1, rest);
        OverlayStep(q, rest, n);
        OverrideOnTop(ContentsOf(w.store), q.key, Content(q.body), Overlay(rest[..n]));
      }
    }
  }

  /** Whether a key keeps its roleRef depends on the contents of the store alone. */
  lemma KeepsRoleRefByContents(s: Store, t: Store, k: Key, o: Object)
    requires k in ContentsOf(s) <==> k in ContentsOf(t)
    requires k in s ==> ContentsOf(s)[k] == ContentsOf(t)[k]
    ensures KeepsRoleRef(s, k, o) <==> KeepsRoleRef(t, k, o)
  {}

  predicate BatchFits(store: Store, qs: seq<Request>) { forall q | q in qs :: Fits(store, q) }

  /** A batch of distinct keys, given the calls it may need, goes through exactly
      when each request fits the store the batch started from. */
  lemma {:induction false} ApplyAllSucceeds(w: World, qs: seq<Request>)
    requires DistinctKeys(qs) && w.budget >= 3 * |qs|
    ensures ApplyAll(w, qs).1.Done? <==> BatchFits(w.store, qs)
    decreases |qs|
  {
    if qs != [] {
      assert qs == [qs[0]] + qs[1..];
      ApplyOneEffect(w, qs[0]);
      var (w1, s) := ApplyOne(w, qs[0]);
      if s == Accepted {
        ApplyAllSucceeds(w1, qs[1..]);
        forall q | q in qs[1..] ensures Fits(w.store, q) <==> Fits(w1.store, q) {
          KeepsRoleRefByContents(w.store, w1.store, q.key, q.body);
        }
      }
    }
  }

  /** A batch spends at most three calls a request. */
  lemma {:induction false} CallsSpent(w: World, qs: seq<Request>)
    requires w.budget >= 3 * |qs|
    ensures ApplyAll(w, qs).0.budget >= w.budget - 3 * |qs|
    decreases |qs|
  {
    if qs != [] {
      ApplyOneEffect(w, qs[0]);
      var (w1, s) := ApplyOne(w, qs[0]);
      if s == Accepted { CallsSpent(w1, qs[1..]); }
    }
  }

  /** Accepted batches have distinct keys. */
  lemma AcceptedKeysDistinct(objs: seq<Object>)
    requires Refusal(objs).Done?
    ensures AllApplied(objs) && DistinctKeys(Requests(objs))
  {
    RefusalMeans(objs);
    forall i, j | 0 <= i < j < |objs| ensures KeyOf(objs[i]) != KeyOf(objs[j]) {
      KeysTellKindScopeName(objs[i], objs[j]);
    }
  }

  /** A batch that went through leaves nothing to refuse: every request fits. */
  lemma AppliedFits(w: World, qs: seq<Request>)
    requires DistinctKeys(qs)
    requires forall q | q in qs :: Creatable(q.body)
    requires ContentsOf(w.store) == ContentsOf(w.store) + Overlay(qs)
    ensures BatchFits(w.store, qs)
  {
    forall q | q in qs ensures Fits(w.store, q) {
      OverlayAt(qs, q);
      SameRoleRef(q.body, "");
      assert ContentsOf(w.store)[q.key] == Content(q.body);
    }
  }

  lemma {:induction false} AcceptedAreCreatable(w: World, qs: seq<Request>)
    requires ApplyAll(w, qs).1.Done?
    ensures forall q | q in qs :: Creatable(q.body)
    decreases |qs|
  {
    if qs != [] {
      ApplyOneEffect(w, qs[0]);
      assert Fits(w.store, qs[0]) ==> Creatable(qs[0].body);
      hide ApplyOne, Creatable, Fits;
      AcceptedAreCreatable(ApplyOne(w, qs[0]).0, qs[1..]);
      forall q | q in qs && q != qs[0] ensures Creatable(q.body) { assert q in qs[1..]; }
    }
  }

  /** A batch that went through, whatever calls it was given, fitted the store it met. */
  lemma {:induction false} AcceptedFit(w: World, qs: seq<Request>)
    requires DistinctKeys(qs) && ApplyAll(w, qs).1.Done?
    ensures BatchFits(w.store, qs)
    decreases |qs|
  {
    if qs != [] {
      assert qs == [qs[0]] + qs[1..];
      ApplyOneEffect(w, qs[0]);
      var w1 := ApplyOne(w, qs[0]).0;
      AcceptedFit(w1, qs[1..]);
      forall q | q in qs[1..] ensures Fits(w.store, q) { KeepsRoleRefByContents(w.store, w1.store, q.key, q.body); }
    }
  }

  /** A batch that goes through overrides the store's contents with its own. */
  lemma ApplyIsOverride(w: World, objs: seq<Object>)
    requires ApplyBatch(w, objs).1.Done?
    ensures AllApplied(objs) && DistinctKeys(Requests(objs))
    ensures ContentsOf(ApplyBatch(w, objs).0.store) == ContentsOf(w.store) + Overlay(Requests(objs))
  {
    AcceptedKeysDistinct(objs);
    var qs := Requests(objs);
    assert qs[..|qs|] == qs;
    ApplyAllPrefix(w, qs);
  }

  /** It sets exactly its own keys, each to its object's own content. */
  lemma ApplySetsItsKeys(w: World, objs: seq<Object>, k: Key)
    requires ApplyBatch(w, objs).1.Done?
    ensures AllApplied(objs)
    ensures var m := ContentsOf(ApplyBatch(w, objs).0.store);
            if exists i :: 0 <= i < |objs| && KeyOf(objs[i]) == k
            then k in m && exists i :: 0 <= i < |objs| && KeyOf(objs[i]) == k && m[k] == Content(objs[i])
            else (k in m <==> k in w.store) && (k in m ==> m[k] == w.store[k].content)
  {
    ApplyIsOverride(w, objs);
    var qs := Requests(objs);
    if i :| 0 <= i < |objs| && KeyOf(objs[i]) == k {
      assert qs[i] in qs;
      OverlayAt(qs, qs[i]);
    } else {
      assert forall q | q in qs :: q.key != k;
    }
  }

  /** Applying it again, with the calls to do so, cannot fail and changes no content. */
  lemma ApplyTwice(w: World, objs: seq<Object>, budget: nat)
    requires ApplyBatch(w, objs).1.Done?
    requires budget >= 3 * |objs|
    ensures var (w1, _) := ApplyBatch(w, objs);
            var (w2, r) := ApplyBatch(w1.(budget := budget), objs);
            r.Done? && ContentsOf(w2.store) == ContentsOf(w1.store)
  {
    ApplyIsOverride(w, objs);
    var qs := Requests(objs);
    var again := ApplyBatch(w, objs).0.(budget := budget);
    AcceptedAreCreatable(w, qs);
    AppliedFits(again, qs);
    ApplyAllSucceeds(again, qs);
    ApplyIsOverride(again, objs);
  }
}
