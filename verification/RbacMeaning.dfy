/** What bindings mean, and that rewriting them keeps it: the permissions a
    cluster with the aggregation controller would give the ServiceAccounts of a
    provider are those the cluster without it gives the provider's manager. */
module RbacMeaning {
  import opened Wrappers
  import opened Text
  import opened Objects
  import opened Manifests
  import opened Rbac

  /** Those a binding may name. */
  datatype Who = User(name: string) | Group(name: string) | Account(namespace: string, name: string)

  datatype Reach = ClusterWide | Within(namespace: string)

  predicate Has(v: Value, field: string, text: string) {
    v.Dict? && field in v.fields && v.fields[field] == Str(text)
  }

  predicate Names(subject: Value, who: Who) {
    match who
    case User(n) => Has(subject, "kind", "User") && Has(subject, "name", n)
    case Group(n) => Has(subject, "kind", "Group") && Has(subject, "name", n)
    case Account(ns, n) =>
      Has(subject, "kind", "ServiceAccount") && Has(subject, "namespace", ns) && Has(subject, "name", n)
  }

  function Subjects(b: Object): seq<Value> {
    if "subjects" in b && b["subjects"].List? then b["subjects"].items else []
  }

  predicate Binds(b: Object, who: Who) { exists s | s in Subjects(b) :: Names(s, who) }

  function RefKind(b: Object): string { StringAt(DictAt(b, "roleRef"), "kind") }

  function RefName(b: Object): string { StringAt(DictAt(b, "roleRef"), "name") }

  function Rules(role: Object): seq<Value> {
    if "rules" in role && role["rules"].List? then role["rules"].items else []
  }

  /** A rule written in the ClusterRole itself. */
  predicate OwnRule(roles: seq<Object>, name: string, rule: Value) {
    exists r | r in roles :: Kind(r) == CLUSTER_ROLE && Name(r) == name && rule in Rules(r)
  }

  predicate RoleRule(roles: seq<Object>, namespace: string, name: string, rule: Value) {
    exists r | r in roles :: Kind(r) == ROLE && Namespace(r) == namespace && Name(r) == name && rule in Rules(r)
  }

  /** A role whose rules the aggregation controller fills in. */
  predicate Aggregates(r: Object) { "aggregationRule" in r && r["aggregationRule"] != Null }

  function Labels(r: Object): Object { DictAt(DictAt(r, "metadata"), "labels") }

  predicate Matches(selector: Value, labels: Object) {
    selector.Dict? && var wanted := DictAt(selector.fields, "matchLabels");
                      forall key | key in wanted :: key in labels && labels[key] == wanted[key]
  }

  /** The selectors of an aggregation rule that match the labels of a ClusterRole. */
  predicate Selects(shell: Object, role: Object) {
    var rule := DictAt(shell, "aggregationRule");
    Kind(role) == CLUSTER_ROLE && "clusterRoleSelectors" in rule && rule["clusterRoleSelectors"].List? &&
    exists sel | sel in rule["clusterRoleSelectors"].items :: Matches(sel, Labels(role))
  }

  /** A rule of a ClusterRole once the aggregation controller has filled in every
      role that aggregates from the roles it selects. */
  least predicate Aggregated(roles: seq<Object>, r: Object, rule: Value) {
    if !Aggregates(r) then rule in Rules(r)
    else exists s :: s in roles && Selects(r, s) && Aggregated(roles, s, rule)
  }

  ghost predicate AggregatedRule(roles: seq<Object>, name: string, rule: Value) {
    exists r | r in roles :: Kind(r) == CLUSTER_ROLE && Name(r) == name && Aggregated(roles, r, rule)
  }

  ghost predicate ClusterRule(roles: seq<Object>, aggregated: bool, name: string, rule: Value) {
    if aggregated then AggregatedRule(roles, name, rule) else OwnRule(roles, name, rule)
  }

  /** What one binding grants, among the given roles, to those it names. */
  ghost predicate Grants(roles: seq<Object>, aggregated: bool, b: Object, reach: Reach, rule: Value) {
    if Kind(b) == CLUSTER_ROLE_BINDING then
      reach == ClusterWide && RefKind(b) == CLUSTER_ROLE && ClusterRule(roles, aggregated, RefName(b), rule)
    else if Kind(b) == ROLE_BINDING then
      reach == Within(Namespace(b)) &&
      ((RefKind(b) == CLUSTER_ROLE && ClusterRule(roles, aggregated, RefName(b), rule)) ||
       (RefKind(b) == ROLE && RoleRule(roles, Namespace(b), RefName(b), rule)))
    else false
  }

  /** What the given bindings permit among the given roles. */
  ghost predicate PermittedBy(
    roles: seq<Object>, aggregated: bool, bindings: seq<Object>, who: Who, reach: Reach, rule: Value)
  {
    exists b :: b in bindings && Binds(b, who) && Grants(roles, aggregated, b, reach, rule)
  }

  /** Everything the bindings of a cluster permit. */
  ghost predicate Permitted(objs: seq<Object>, aggregated: bool, who: Who, reach: Reach, rule: Value) {
    PermittedBy(objs, aggregated, objs, who, reach, rule)
  }

  // ----- Aggregation, computed from the labels -----

  /** The roles that feed those seen, by selection from one to the next. */
  function Feeding(roles: seq<Object>, seen: set<Object>): set<Object>
    requires forall r | r in seen :: r in roles
    decreases (set r | r in roles) - seen
  {
    var more := set s | s in roles && exists r | r in seen :: Aggregates(r) && Selects(r, s);
    if more <= seen then seen
    else
      assert exists s :: s in more && s !in seen && s in roles;
      Feeding(roles, seen + more)
  }

  function Named(roles: seq<Object>, name: string): set<Object> {
    set r | r in roles && Kind(r) == CLUSTER_ROLE && Name(r) == name
  }

  /** The rules a role ends up with: those of the roles that feed it and are filled in
      by nothing. */
  function AggregatedRules(roles: seq<Object>, name: string): set<Value> {
    set r, rule | r in Feeding(roles, Named(roles, name)) && !Aggregates(r) && rule in Rules(r) :: rule
  }

  function OwnRules(roles: seq<Object>, name: string): set<Value> {
    set r, rule | r in Named(roles, name) && rule in Rules(r) :: rule
  }

  lemma {:induction false} FeedingIsClosed(roles: seq<Object>, seen: set<Object>)
    requires forall r | r in seen :: r in roles
    ensures var all := Feeding(roles, seen);
            seen <= all && forall r, s | r in all && Aggregates(r) && s in roles && Selects(r, s) :: s in all
    decreases (set r | r in roles) - seen
  {
    hide Aggregates, Selects;
    var more := set s | s in roles && exists r | r in seen :: Aggregates(r) && Selects(r, s);
    if !(more <= seen) { FeedingIsClosed(roles, seen + more); }
  }

  lemma {:induction false} FedBySeen(roles: seq<Object>, seen: set<Object>, source: Object, rule: Value)
    requires forall r | r in seen :: r in roles
    requires source in Feeding(roles, seen) && Aggregated(roles, source, rule)
    ensures exists r :: r in seen && Aggregated(roles, r, rule)
    decreases (set r | r in roles) - seen
  {
    hide Aggregates, Selects;
    var more := set s | s in roles && exists r | r in seen :: Aggregates(r) && Selects(r, s);
    if !(more <= seen) {
      FedBySeen(roles, seen + more, source, rule);
      var s :| s in seen + more && Aggregated(roles, s, rule);
      if s !in seen {
        var r :| r in seen && Aggregates(r) && Selects(r, s);
        assert Aggregated(roles, r, rule);
      }
    }
  }

  least lemma SourceIsFed(roles: seq<Object>, r: Object, rule: Value, all: set<Object>)
    requires Aggregated(roles, r, rule) && r in all
    requires forall p, s | p in all && Aggregates(p) && s in roles && Selects(p, s) :: s in all
    ensures exists s :: s in all && !Aggregates(s) && rule in Rules(s)
  {
    if Aggregates(r) {
      var s :| s in roles && Selects(r, s) && Aggregated#[_k - 1](roles, s, rule);
      SourceIsFed#[_k - 1](roles, s, rule, all);
    }
  }

  /** What the controller converges to is what the labels say. */
  lemma AggregationComputed(roles: seq<Object>, name: string, rule: Value)
    ensures AggregatedRule(roles, name, rule) <==> rule in AggregatedRules(roles, name)
  {
    var named := Named(roles, name);
    var all := Feeding(roles, named);
    FeedingIsClosed(roles, named);
    hide Aggregates, Selects, Feeding;
    if AggregatedRule(roles, name, rule) {
      var r :| r in roles && Kind(r) == CLUSTER_ROLE && Name(r) == name && Aggregated(roles, r, rule);
      SourceIsFed(roles, r, rule, all);
    }
    if rule in AggregatedRules(roles, name) {
      var s :| s in all && !Aggregates(s) && rule in Rules(s);
      assert Aggregated(roles, s, rule);
      FedBySeen(roles, named, s, rule);
    }
  }

  // ----- The condition under which redirecting is harmless -----

  /** What one name aggregates is what another has of its own: a finite check of labels
      and rules. */
  predicate SameRules(roles: seq<Object>, aggregatedName: string, ownName: string) {
    AggregatedRules(roles, aggregatedName) == OwnRules(roles, ownName)
  }

  lemma SameRulesMeans(roles: seq<Object>, aggregatedName: string, ownName: string)
    ensures SameRules(roles, aggregatedName, ownName) <==>
            forall rule :: AggregatedRule(roles, aggregatedName, rule) <==> OwnRule(roles, ownName, rule)
  {
    hide AggregatedRule, AggregatedRules;
    forall rule
      ensures AggregatedRule(roles, aggregatedName, rule) <==> rule in AggregatedRules(roles, aggregatedName)
      ensures OwnRule(roles, ownName, rule) <==> rule in OwnRules(roles, ownName)
    {
      AggregationComputed(roles, aggregatedName, rule);
    }
  }

  /** Every shell bound cluster-wide aggregates exactly the rules of its manager
      role, and every other role bound to is its own aggregate. */
  predicate ShellsAreConcrete(roles: seq<Object>, bindings: seq<Object>) {
    forall b | b in bindings :: Concrete(roles, b)
  }

  predicate Concrete(roles: seq<Object>, b: Object) {
    IsBinding(b) && RefKind(b) == CLUSTER_ROLE ==>
      SameRules(roles, RefName(b), if Kind(b) == CLUSTER_ROLE_BINDING then RedirectedName(RefName(b)) else RefName(b))
  }

  predicate AccountsAreNamed(objs: seq<Object>) {
    forall b | b in objs && IsBinding(b) :: forall s | s in Subjects(b) && IsServiceAccount(s) ::
      "name" in s.fields && s.fields["name"].Str?
  }

  // ----- One binding -----

  lemma FieldNames()
    ensures "roleRef" != "kind" && "roleRef" != "metadata" && "roleRef" != "subjects"
    ensures "subjects" != "kind" && "subjects" != "metadata" && "kind" != "name"
    ensures SERVICE_ACCOUNT != USER && SERVICE_ACCOUNT != "Group" && USER != "Group"
    ensures CLUSTER_ROLE != CLUSTER_ROLE_BINDING && CLUSTER_ROLE != ROLE_BINDING
    ensures ROLE != CLUSTER_ROLE_BINDING && ROLE != ROLE_BINDING && ROLE_BINDING != CLUSTER_ROLE_BINDING
  {}

  /** What becomes of one subject: a ServiceAccount's namespace is looked up, and the User
      found takes its place; anything else stays. */
  lemma SubjectExactly(s: Value, cn: map<string, string>)
    ensures RewriteSubject(s, cn) ==
            if !Has(s, "kind", "ServiceAccount") then Ok(s)
            else if "namespace" in s.fields && s.fields["namespace"].Str? then
              var ns := s.fields["namespace"].text;
              if ns in cn then Ok(Dict(map["kind" := Str("User"), "name" := Str(cn[ns])]))
              else Err(UnmappedNamespace(ns))
            else Err(SubjectWithoutNamespace)
  {}

  /** The names of roles that are redirected, and to which. */
  lemma RedirectedNameExactly(prefix: string, name: string)
    ensures RedirectedName(prefix + "-aggregated-manager-role") == prefix + "-manager-role"
    ensures (forall p :: name != p + "-aggregated-manager-role") ==> RedirectedName(name) == name
  {
    var n := prefix + "-aggregated-manager-role";
    if CutSuffix(n, "-aggregated-manager-role").Some? {
      var p := CutSuffix(n, "-aggregated-manager-role").value;
      assert |p| == |prefix| && p == n[..|p|] == prefix;
    }
  }

  /** Why a binding cannot be rewritten: the first thing amiss with it. */
  lemma RewriteErrorsExactly(o: Object, cn: map<string, string>)
    ensures RewriteOne(o, cn) == Err(NoNamespace) <==> Kind(o) == "RoleBinding" && Namespace(o) == ""
    ensures RewriteOne(o, cn) == Err(SubjectsNotAList) <==>
            IsBinding(o) && (Kind(o) == "RoleBinding" ==> Namespace(o) != "") &&
            "subjects" in o && !o["subjects"].List?
    ensures RewriteOne(o, cn).Err? && RewriteOne(o, cn).error !in {NoNamespace, SubjectsNotAList} ==>
              exists n | 0 <= n < |Subjects(o)| ::
                RewriteSubject(Subjects(o)[n], cn) == Err(RewriteOne(o, cn).error) &&
                forall i | 0 <= i < n :: RewriteSubject(Subjects(o)[i], cn).Ok?
  {
    FieldNames();
    var f := SubjectRewriter(cn);
    if MapAll(f, Subjects(o)).Err? {
      var n := MapAllFirstError(f, Subjects(o));
      assert forall i | 0 <= i < |Subjects(o)| :: f(Subjects(o)[i]) == RewriteSubject(Subjects(o)[i], cn);
    }
    hide MapAll, RedirectRoleRef;
  }

  /** Rewriting touches subjects and the name of a roleRef, nothing else. */
  lemma RewriteOneShape(o: Object, cn: map<string, string>)
    requires RewriteOne(o, cn).Ok?
    ensures var r := RewriteOne(o, cn).value;
            && Kind(r) == Kind(o) && r - {"subjects", "roleRef"} == o - {"subjects", "roleRef"}
            && RefKind(r) == RefKind(o) && DictAt(r, "roleRef") - {"name"} == DictAt(o, "roleRef") - {"name"}
            && RefName(r) == (if Kind(o) == CLUSTER_ROLE_BINDING then RedirectedName(RefName(o)) else RefName(o))
            && ("subjects" in r <==> "subjects" in o) && ("roleRef" in r <==> "roleRef" in o)
            && (!IsBinding(o) ==> r == o)
            && (IsBinding(o) ==>
                  MapAll(SubjectRewriter(cn), Subjects(o)) == Ok(Subjects(r)))
  {
    FieldNames();
    if IsBinding(o) {
      SubjectsShape(o, cn);
      RedirectShape(RewriteSubjectsOf(o, cn).value);
      hide RewriteSubjectsOf, RedirectRoleRef, RefKind, RefName, Subjects, RedirectedName;
    }
  }

  lemma SubjectsShape(o: Object, cn: map<string, string>)
    requires RewriteSubjectsOf(o, cn).Ok?
    ensures var r := RewriteSubjectsOf(o, cn).value;
            && r - {"subjects", "roleRef"} == o - {"subjects", "roleRef"} && Kind(r) == Kind(o)
            && DictAt(r, "roleRef") == DictAt(o, "roleRef")
            && ("subjects" in r <==> "subjects" in o) && ("roleRef" in r <==> "roleRef" in o)
            && MapAll(SubjectRewriter(cn), Subjects(o)) == Ok(Subjects(r))
  {
    FieldNames();
    var r := RewriteSubjectsOf(o, cn).value;
    assert DictAt(r, "roleRef") == DictAt(o, "roleRef");
  }

  lemma RedirectShape(o: Object)
    ensures var r := RedirectRoleRef(o);
            && r - {"roleRef"} == o - {"roleRef"} && RefKind(r) == RefKind(o)
            && DictAt(r, "roleRef") - {"name"} == DictAt(o, "roleRef") - {"name"}
            && ("subjects" in r <==> "subjects" in o) && ("roleRef" in r <==> "roleRef" in o)
            && RefName(r) == RedirectedName(RefName(o)) && Subjects(r) == Subjects(o)
  {}

  lemma SameMetadata(o: Object, r: Object)
    requires r - {"subjects", "roleRef"} == o - {"subjects", "roleRef"}
    ensures Name(r) == Name(o) && Namespace(r) == Namespace(o) && ResourceVersion(r) == ResourceVersion(o)
  {
    FieldNames();
    assert "metadata" in r <==> "metadata" in r - {"subjects", "roleRef"};
    assert "metadata" in o <==> "metadata" in o - {"subjects", "roleRef"};
    assert "metadata" in o ==> r["metadata"] == (r - {"subjects", "roleRef"})["metadata"] == o["metadata"];
  }

  // ----- Whom a binding names -----

  /** A ServiceAccount subject whose namespace belongs to manager u. */
  predicate ManagedBy(subject: Value, cn: map<string, string>, u: string) {
    IsServiceAccount(subject) && exists ns | ns in cn :: Has(subject, "namespace", ns) && cn[ns] == u
  }

  lemma SubjectAfter(s: Value, cn: map<string, string>, who: Who)
    requires RewriteSubject(s, cn).Ok?
    ensures var s' := RewriteSubject(s, cn).value;
            && !IsServiceAccount(s')
            && (who.User? ==> (Names(s', who) <==> Names(s, who) || ManagedBy(s, cn, who.name)))
            && (who.Group? ==> (Names(s', who) <==> Names(s, who)))
  {}

  lemma SubjectListsAgree(before: seq<Value>, after: seq<Value>, cn: map<string, string>, who: Who)
    requires |before| == |after|
    requires forall i | 0 <= i < |before| ::
               && !IsServiceAccount(after[i])
               && (who.User? ==>
                     (Names(after[i], who) <==> Names(before[i], who) || ManagedBy(before[i], cn, who.name)))
               && (who.Group? ==> (Names(after[i], who) <==> Names(before[i], who)))
    ensures forall s | s in after :: !IsServiceAccount(s)
    ensures who.User? ==>
              ((exists s | s in after :: Names(s, who)) <==>
               (exists s | s in before :: Names(s, who)) || exists s | s in before :: ManagedBy(s, cn, who.name))
    ensures who.Group? ==> ((exists s | s in after :: Names(s, who)) <==> (exists s | s in before :: Names(s, who)))
  {}

  lemma SubjectsAfter(o: Object, cn: map<string, string>, who: Who)
    requires RewriteOne(o, cn).Ok? && IsBinding(o)
    ensures var r := RewriteOne(o, cn).value;
            && (forall s | s in Subjects(r) :: !IsServiceAccount(s))
            && (who.User? ==>
                  (Binds(r, who) <==> Binds(o, who) || exists s | s in Subjects(o) :: ManagedBy(s, cn, who.name)))
            && (who.Group? ==> (Binds(r, who) <==> Binds(o, who)))
  {
    RewriteOneShape(o, cn);
    var before, after := Subjects(o), Subjects(RewriteOne(o, cn).value);
    forall i | 0 <= i < |before|
      ensures RewriteSubject(before[i], cn) == Ok(after[i])
      ensures !IsServiceAccount(after[i])
      ensures who.User? ==> (Names(after[i], who) <==> Names(before[i], who) || ManagedBy(before[i], cn, who.name))
      ensures who.Group? ==> (Names(after[i], who) <==> Names(before[i], who))
    {
      assert SubjectRewriter(cn)(before[i]) == Ok(after[i]);
      SubjectAfter(before[i], cn, who);
    }
    SubjectListsAgree(before, after, cn, who);
  }

  // ----- What a binding grants -----

  lemma RolesUntouched(objs: seq<Object>, cn: map<string, string>, r: Object)
    requires Rewritten(objs, cn).Ok? && !IsBinding(r)
    ensures r in Rewritten(objs, cn).value <==> r in objs
  {
    var out := Rewritten(objs, cn).value;
    forall i | 0 <= i < |objs| ensures (objs[i] == r ==> out[i] == r) && (out[i] == r ==> objs[i] == r) {
      assert ObjectRewriter(cn)(objs[i]) == Ok(out[i]);
      RewriteOneShape(objs[i], cn);
    }
  }

  /** The same objects in it but for bindings. */
  ghost predicate SameRoles(before: seq<Object>, after: seq<Object>) {
    forall r | !IsBinding(r) :: r in after <==> r in before
  }

  lemma RolesStay(others: seq<Object>, objs: seq<Object>, cn: map<string, string>)
    requires Rewritten(objs, cn).Ok?
    ensures SameRoles(others + objs, others + Rewritten(objs, cn).value)
  {
    hide Rewritten;
    forall r | !IsBinding(r) ensures r in Rewritten(objs, cn).value <==> r in objs { RolesUntouched(objs, cn, r); }
  }

  lemma SameOwnRules(before: seq<Object>, after: seq<Object>, namespace: string, name: string, rule: Value)
    requires SameRoles(before, after)
    ensures OwnRule(after, name, rule) <==> OwnRule(before, name, rule)
    ensures RoleRule(after, namespace, name, rule) <==> RoleRule(before, namespace, name, rule)
  {
    FieldNames();
    hide Kind, Name, Namespace, Rules;
  }

  /** A binding keeps its meaning: it grants without aggregation what it did with it. */
  ghost predicate KeepsMeaning(before: seq<Object>, after: seq<Object>, b: Object, b': Object) {
    forall reach, rule :: Grants(after, false, b', reach, rule) <==> Grants(before, true, b, reach, rule)
  }

  lemma MeaningByRoles(before: seq<Object>, after: seq<Object>, b: Object, b': Object)
    requires SameRoles(before, after)
    requires Kind(b') == Kind(b) && RefKind(b') == RefKind(b) && Namespace(b') == Namespace(b)
    requires RefName(b') == if Kind(b) == CLUSTER_ROLE_BINDING then RedirectedName(RefName(b)) else RefName(b)
    requires ROLE != CLUSTER_ROLE && ROLE_BINDING != CLUSTER_ROLE_BINDING
    ensures Concrete(before, b) <==> KeepsMeaning(before, after, b, b')
  {
    SameRulesMeans(before, RefName(b), RefName(b'));
    forall namespace, name, rule
      ensures OwnRule(after, name, rule) <==> OwnRule(before, name, rule)
      ensures RoleRule(after, namespace, name, rule) <==> RoleRule(before, namespace, name, rule)
    {
      SameOwnRules(before, after, namespace, name, rule);
    }
    hide Kind, RefKind, RefName, Namespace, RedirectedName, OwnRule, RoleRule, SameRules, AggregatedRule, SameRoles;
    if KeepsMeaning(before, after, b, b') && RefKind(b) == CLUSTER_ROLE && IsBinding(b) {
      forall rule ensures AggregatedRule(before, RefName(b), rule) <==> OwnRule(before, RefName(b'), rule) {
        RuleByMeaning(before, after, b, b', rule);
      }
    }
  }

  /** What a binding to a ClusterRole grants where it applies is the role's rules. */
  lemma RuleByMeaning(before: seq<Object>, after: seq<Object>, b: Object, b': Object, rule: Value)
    requires KeepsMeaning(before, after, b, b') && RefKind(b) == CLUSTER_ROLE != ROLE && IsBinding(b)
    requires Kind(b') == Kind(b) && RefKind(b') == RefKind(b) && Namespace(b') == Namespace(b)
    ensures AggregatedRule(before, RefName(b), rule) <==> OwnRule(after, RefName(b'), rule)
  {
    hide Kind, RefKind, RefName, Namespace, OwnRule, RoleRule, AggregatedRule;
    var reach := if Kind(b) == CLUSTER_ROLE_BINDING then ClusterWide else Within(Namespace(b));
    assert Grants(after, false, b', reach, rule) <==> Grants(before, true, b, reach, rule);
  }

  lemma MeaningOfOne(before: seq<Object>, after: seq<Object>, cn: map<string, string>, b: Object)
    requires SameRoles(before, after) && RewriteOne(b, cn).Ok? && IsBinding(b)
    ensures Concrete(before, b) <==> KeepsMeaning(before, after, b, RewriteOne(b, cn).value)
  {
    var b' := RewriteOne(b, cn).value;
    RewriteOneShape(b, cn);
    SameMetadata(b, b');
    FieldNames();
    hide *;
    MeaningByRoles(before, after, b, b');
  }

  /** Among whatever else a cluster holds, every binding keeps its meaning exactly when
      the roles they name are concrete: this is what redirecting relies on, no more and
      no less. */
  lemma RedirectingIsFaithfulExactly(others: seq<Object>, objs: seq<Object>, cn: map<string, string>)
    requires Rewritten(objs, cn).Ok?
    ensures var out := Rewritten(objs, cn).value;
            ShellsAreConcrete(others + objs, objs) <==>
            forall i | 0 <= i < |objs| :: KeepsMeaning(others + objs, others + out, objs[i], out[i])
  {
    var out := Rewritten(objs, cn).value;
    var before, after := others + objs, others + out;
    RolesStay(others, objs, cn);
    hide Concrete, KeepsMeaning, SameRoles, IsBinding, RewriteOne;
    forall i | 0 <= i < |objs| ensures Concrete(before, objs[i]) <==> KeepsMeaning(before, after, objs[i], out[i]) {
      assert ObjectRewriter(cn)(objs[i]) == Ok(out[i]);
      if IsBinding(objs[i]) {
        MeaningOfOne(before, after, cn, objs[i]);
      } else {
        NoBindingNoMeaning(before, after, cn, objs[i]);
      }
    }
  }

  lemma NoBindingNoMeaning(before: seq<Object>, after: seq<Object>, cn: map<string, string>, o: Object)
    requires !IsBinding(o) && RewriteOne(o, cn).Ok?
    ensures Concrete(before, o) && KeepsMeaning(before, after, o, RewriteOne(o, cn).value)
  {}

  // ----- Everyone's permissions -----

  /** Some ServiceAccount of a namespace managed by u is permitted. */
  ghost predicate AccountsPermitted(
    roles: seq<Object>, bindings: seq<Object>, cn: map<string, string>, u: string, reach: Reach, rule: Value)
  {
    exists ns, name :: ns in cn && cn[ns] == u && PermittedBy(roles, true, bindings, Account(ns, name), reach, rule)
  }

  lemma AccountsOf(objs: seq<Object>, cn: map<string, string>, b: Object, u: string)
    requires AccountsAreNamed(objs) && b in objs && IsBinding(b)
    ensures (exists s | s in Subjects(b) :: ManagedBy(s, cn, u)) <==>
            exists ns, name :: ns in cn && cn[ns] == u && Binds(b, Account(ns, name))
  {
    FieldNames();
    if s :| s in Subjects(b) && ManagedBy(s, cn, u) {
      var ns :| ns in cn && Has(s, "namespace", ns) && cn[ns] == u;
      assert Names(s, Account(ns, s.fields["name"].text));
      assert Binds(b, Account(ns, s.fields["name"].text));
    }
    if ns, name :| ns in cn && cn[ns] == u && Binds(b, Account(ns, name)) {
      var s :| s in Subjects(b) && Names(s, Account(ns, name));
      assert ManagedBy(s, cn, u);
    }
  }

  /** Whom a binding names once its ServiceAccounts act as their managers. */
  ghost predicate BindsAsManager(b: Object, cn: map<string, string>, who: Who) {
    match who
    case User(u) => Binds(b, who) || exists ns, name :: ns in cn && cn[ns] == u && Binds(b, Account(ns, name))
    case Group(_) => Binds(b, who)
    case Account(_, _) => false
  }

  /** Everything the bindings permit, aggregated, when they do. */
  ghost predicate PermittedAsManager(
    roles: seq<Object>, bindings: seq<Object>, cn: map<string, string>, who: Who, reach: Reach, rule: Value)
  {
    match who
    case User(u) =>
      PermittedBy(roles, true, bindings, who, reach, rule) || AccountsPermitted(roles, bindings, cn, u, reach, rule)
    case Group(_) => PermittedBy(roles, true, bindings, who, reach, rule)
    case Account(_, _) => false
  }

  lemma PermittedByBindings(
    roles: seq<Object>, bindings: seq<Object>, cn: map<string, string>, who: Who, reach: Reach, rule: Value)
    ensures PermittedAsManager(roles, bindings, cn, who, reach, rule) <==>
            exists b :: b in bindings && BindsAsManager(b, cn, who) && Grants(roles, true, b, reach, rule)
  {}

  lemma BindingAfter(
    before: seq<Object>, after: seq<Object>, objs: seq<Object>, cn: map<string, string>, out: seq<Object>, i: nat,
    who: Who, reach: Reach, rule: Value)
    requires Rewritten(objs, cn) == Ok(out) && |out| == |objs| && i < |objs| && AccountsAreNamed(objs)
    requires KeepsMeaning(before, after, objs[i], out[i])
    ensures Binds(out[i], who) && Grants(after, false, out[i], reach, rule) <==>
            BindsAsManager(objs[i], cn, who) && Grants(before, true, objs[i], reach, rule)
  {
    var (b, b') := (objs[i], out[i]);
    assert Grants(after, false, b', reach, rule) <==> Grants(before, true, b, reach, rule);
    assert ObjectRewriter(cn)(b) == Ok(b');
    if IsBinding(b) {
      SubjectsAfter(b, cn, who);
      hide RewriteOne, Grants, Subjects, IsServiceAccount, ManagedBy;
      if who.User? { AccountsOf(objs, cn, b, who.name); }
      if who.Account? { AccountsAreGone(b', who); }
    } else {
      assert !Grants(before, true, b, reach, rule);
    }
  }

  lemma AccountsAreGone(b: Object, who: Who)
    requires (forall s | s in Subjects(b) :: !IsServiceAccount(s)) && who.Account?
    ensures !Binds(b, who)
  {}

  lemma GrantedPairwise(
    before: seq<Object>, after: seq<Object>, objs: seq<Object>, cn: map<string, string>, out: seq<Object>,
    who: Who, reach: Reach, rule: Value)
    requires Rewritten(objs, cn) == Ok(out) && |out| == |objs| && AccountsAreNamed(objs)
    requires forall i | 0 <= i < |objs| :: KeepsMeaning(before, after, objs[i], out[i])
    ensures PermittedBy(after, false, out, who, reach, rule) <==>
            exists b :: b in objs && BindsAsManager(b, cn, who) && Grants(before, true, b, reach, rule)
  {
    hide Rewritten, Binds, BindsAsManager, Grants, KeepsMeaning, AccountsAreNamed;
    if b :| b in out && Binds(b, who) && Grants(after, false, b, reach, rule) {
      var i :| 0 <= i < |out| && out[i] == b;
      BindingAfter(before, after, objs, cn, out, i, who, reach, rule);
      assert objs[i] in objs;
    }
    if b :| b in objs && BindsAsManager(b, cn, who) && Grants(before, true, b, reach, rule) {
      var i :| 0 <= i < |objs| && objs[i] == b;
      BindingAfter(before, after, objs, cn, out, i, who, reach, rule);
      assert out[i] in out;
    }
  }

  /** The effect of rewriting on what anyone is permitted, among whatever else a cluster
      holds: a User gains exactly what the ServiceAccounts of the namespaces it manages
      had under aggregation, a Group keeps exactly what it had, and no ServiceAccount is
      named any more. */
  lemma PermissionsPreserved(
    others: seq<Object>, objs: seq<Object>, cn: map<string, string>, who: Who, reach: Reach, rule: Value)
    requires Rewritten(objs, cn).Ok?
    requires ShellsAreConcrete(others + objs, objs) && AccountsAreNamed(objs)
    ensures var out := Rewritten(objs, cn).value;
            PermittedBy(others + out, false, out, who, reach, rule) <==>
            PermittedAsManager(others + objs, objs, cn, who, reach, rule)
  {
    RedirectingIsFaithfulExactly(others, objs, cn);
    PermittedByBindings(others + objs, objs, cn, who, reach, rule);
    RewrittenLength(objs, cn);
    hide *;
    var out := Rewritten(objs, cn).value;
    GrantedPairwise(others + objs, others + out, objs, cn, out, who, reach, rule);
  }

  lemma RewrittenLength(objs: seq<Object>, cn: map<string, string>)
    requires Rewritten(objs, cn).Ok?
    ensures |Rewritten(objs, cn).value| == |objs|
  {}

  /** For an injective table and a manager no binding named before, the manager is
      permitted exactly what the ServiceAccounts of its namespace were. */
  lemma ManagerInheritsItsAccounts(
    others: seq<Object>, objs: seq<Object>, cn: map<string, string>, ns: string, reach: Reach, rule: Value)
    requires Rewritten(objs, cn).Ok?
    requires ShellsAreConcrete(others + objs, objs) && AccountsAreNamed(objs)
    requires ns in cn && forall other | other in cn && cn[other] == cn[ns] :: other == ns
    requires forall b | b in objs :: !Binds(b, User(cn[ns]))
    ensures var out := Rewritten(objs, cn).value;
            PermittedBy(others + out, false, out, User(cn[ns]), reach, rule) <==>
            exists name :: PermittedBy(others + objs, true, objs, Account(ns, name), reach, rule)
  {
    PermissionsPreserved(others, objs, cn, User(cn[ns]), reach, rule);
  }

  /** A binding whose subjects can all be rewritten; any other object can. */
  predicate Rewritable(b: Object, cn: map<string, string>) {
    IsBinding(b) ==>
      && (Kind(b) == ROLE_BINDING ==> Namespace(b) != "")
      && ("subjects" in b ==> b["subjects"].List?)
      && (forall s | s in Subjects(b) && IsServiceAccount(s) :: exists ns | ns in cn :: Has(s, "namespace", ns))
  }

  /** The rewrite succeeds exactly when every subject list is a list, every
      ServiceAccount sits in a mapped namespace, and every RoleBinding has one. */
  lemma RewriteSucceedsExactly(objs: seq<Object>, cn: map<string, string>)
    ensures Rewritten(objs, cn).Ok? <==>
            forall b | b in objs :: Rewritable(b, cn)
  {
    FieldNames();
    forall b | b in objs ensures RewriteOne(b, cn).Ok? <==> Rewritable(b, cn) {
      assert forall s | s in Subjects(b) :: SubjectRewriter(cn)(s) == RewriteSubject(s, cn);
      assert forall s | s in Subjects(b) ::
          RewriteSubject(s, cn).Ok? <==> (IsServiceAccount(s) ==> exists ns | ns in cn :: Has(s, "namespace", ns));
    }
    assert forall b | b in objs :: ObjectRewriter(cn)(b) == RewriteOne(b, cn);
  }

  /** The admin binding gives the admin, and no one else, what cluster-admin holds. */
  lemma AdminIsClusterAdmin(objs: seq<Object>, adminCN: string, who: Who, reach: Reach, rule: Value)
    ensures var admin := AdminClusterRoleBinding(adminCN);
            && (Binds(admin, who) <==> who == User(adminCN))
            && (Grants(objs, false, admin, reach, rule) <==>
                reach == ClusterWide && OwnRule(objs, "cluster-admin", rule))
            && StringAt(DictAt(admin, "roleRef"), "apiGroup") == "rbac.authorization.k8s.io"
  {
    AdminFields(adminCN);
    FieldNames();
    hide OwnRule, AdminClusterRoleBinding, Subjects, RefKind, RefName, Kind;
    assert UserSubject(adminCN) in Subjects(AdminClusterRoleBinding(adminCN));
  }

  lemma AdminFields(adminCN: string)
    ensures var admin := AdminClusterRoleBinding(adminCN);
            && Kind(admin) == CLUSTER_ROLE_BINDING && Subjects(admin) == [UserSubject(adminCN)]
            && RefKind(admin) == CLUSTER_ROLE && RefName(admin) == "cluster-admin"
            && StringAt(DictAt(admin, "roleRef"), "apiGroup") == "rbac.authorization.k8s.io"
  {
    assert "kind"[0] == 'k' && "apiVersion"[0] == 'a' && "roleRef"[0] == 'r' && "subjects"[0] == 's';
    assert "apiGroup"[0] == 'a' && "name"[0] == 'n' && "metadata"[0] == 'm';
    hide UserSubject;
  }
}
