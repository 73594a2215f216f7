/** When aggregation shells are concrete, read off their labels: as the providers ship
    them they are, and one more labelled role is enough to make them not. */
module Shells {
  import opened Wrappers
  import opened Text
  import opened Objects
  import opened Manifests
  import opened Rbac
  import opened RbacMeaning

  /** A ClusterRole no other shares the name of. */
  predicate OnlyOfItsName(roles: seq<Object>, r: Object) {
    r in roles && Kind(r) == CLUSTER_ROLE &&
    forall s | s in roles && Kind(s) == CLUSTER_ROLE && Name(s) == Name(r) :: s == r
  }

  /** A shell that selects roles with rules of their own is concrete exactly when the
      manager role has each rule of every role selected and no other. */
  lemma ShellExactly(roles: seq<Object>, shell: Object, manager: Object)
    requires OnlyOfItsName(roles, shell) && OnlyOfItsName(roles, manager) && Aggregates(shell)
    requires forall s | s in roles && Selects(shell, s) :: !Aggregates(s)
    ensures SameRules(roles, Name(shell), Name(manager)) <==>
            forall rule :: rule in Rules(manager) <==> exists s | s in roles :: Selects(shell, s) && rule in Rules(s)
  {
    SameRulesMeans(roles, Name(shell), Name(manager));
    hide SameRules, Selects, Aggregates, Rules;
    forall rule
      ensures OwnRule(roles, Name(manager), rule) <==> rule in Rules(manager)
      ensures AggregatedRule(roles, Name(shell), rule) <==>
              exists s | s in roles :: Selects(shell, s) && rule in Rules(s)
    {
      assert AggregatedRule(roles, Name(shell), rule) <==> Aggregated(roles, shell, rule);
      forall s | s in roles && Selects(shell, s) ensures Aggregated(roles, s, rule) <==> rule in Rules(s) {}
    }
  }

  /** As the providers ship them: the shell's selectors match the labels of the manager
      role and of no other ClusterRole. */
  lemma LabelledShellIsConcrete(roles: seq<Object>, shell: Object, manager: Object)
    requires OnlyOfItsName(roles, shell) && OnlyOfItsName(roles, manager)
    requires Aggregates(shell) && !Aggregates(manager)
    requires forall s | s in roles :: Selects(shell, s) <==> s == manager
    ensures SameRules(roles, Name(shell), Name(manager))
  {
    hide SameRules, Selects, Aggregates, Rules;
    ShellExactly(roles, shell, manager);
  }

  // Three roles and a binding for which redirecting changes what is granted.

  function LabelledRole(name: string, rules: seq<Value>): Object {
    map["kind" := Str(CLUSTER_ROLE),
        "metadata" := Dict(map["name" := Str(name), "labels" := Dict(map["aggregate" := Str("true")])]),
        "rules" := List(rules)]
  }

  function ByAggregate(): Value { Dict(map["matchLabels" := Dict(map["aggregate" := Str("true")])]) }

  function ShellRole(name: string): Object {
    map["kind" := Str(CLUSTER_ROLE),
        "metadata" := Dict(map["name" := Str(name)]),
        "aggregationRule" := Dict(map["clusterRoleSelectors" := List([ByAggregate()])])]
  }

  function BindingTo(role: string): Object {
    map["kind" := Str(CLUSTER_ROLE_BINDING),
        "metadata" := Dict(map["name" := Str("manager-rolebinding")]),
        "roleRef" := Dict(map["kind" := Str(CLUSTER_ROLE), "name" := Str(role)])]
  }

  lemma LabelledRoleFields(name: string, rules: seq<Value>)
    ensures var r := LabelledRole(name, rules);
            && Kind(r) == CLUSTER_ROLE && Name(r) == name && Rules(r) == rules && !Aggregates(r)
            && Labels(r) == map["aggregate" := Str("true")]
  {
    assert "kind"[0] == 'k' && "metadata"[0] == 'm' && "rules"[0] == 'r' && "aggregationRule"[0] == 'a';
    assert "name"[0] == 'n' && "labels"[0] == 'l';
    var meta := DictAt(LabelledRole(name, rules), "metadata");
    assert meta == map["name" := Str(name), "labels" := Dict(map["aggregate" := Str("true")])];
  }

  lemma ShellRoleFields(name: string)
    ensures var r := ShellRole(name); Kind(r) == CLUSTER_ROLE && Name(r) == name && Aggregates(r)
    ensures DictAt(ShellRole(name), "aggregationRule") == map["clusterRoleSelectors" := List([ByAggregate()])]
  {
    assert "kind"[0] == 'k' && "metadata"[0] == 'm' && "aggregationRule"[0] == 'a';
    assert DictAt(ShellRole(name), "metadata") == map["name" := Str(name)];
  }

  lemma ShellSelects(name: string, role: Object)
    ensures Selects(ShellRole(name), role) <==>
            Kind(role) == CLUSTER_ROLE && "aggregate" in Labels(role) && Labels(role)["aggregate"] == Str("true")
  {
    ShellRoleFields(name);
    assert DictAt(ByAggregate().fields, "matchLabels") == map["aggregate" := Str("true")];
    assert Matches(ByAggregate(), Labels(role)) <==>
           "aggregate" in Labels(role) && Labels(role)["aggregate"] == Str("true");
    assert [ByAggregate()][0] == ByAggregate();
    hide ShellRole, Matches, Labels, Kind;
  }

  lemma BindingToFields(role: string)
    ensures var b := BindingTo(role);
            && Kind(b) == CLUSTER_ROLE_BINDING && RefKind(b) == CLUSTER_ROLE && RefName(b) == role && "subjects" !in b
  {
    assert "kind"[0] == 'k' && "metadata"[0] == 'm' && "roleRef"[0] == 'r' && "subjects"[0] == 's' && "name"[0] == 'n';
    assert DictAt(BindingTo(role), "roleRef") == map["kind" := Str(CLUSTER_ROLE), "name" := Str(role)];
  }

  lemma ShellIsRedirected(prefix: string, cn: map<string, string>)
    ensures RedirectedName(prefix + AGGREGATED_SUFFIX) == prefix + MANAGER_SUFFIX
    ensures prefix + AGGREGATED_SUFFIX != prefix + MANAGER_SUFFIX
    ensures RewriteOne(BindingTo(prefix + AGGREGATED_SUFFIX), cn) == Ok(BindingTo(prefix + MANAGER_SUFFIX))
  {
    var (shell, manager) := (prefix + AGGREGATED_SUFFIX, prefix + MANAGER_SUFFIX);
    assert |shell| != |manager|;
    var cut := CutSuffix(shell, AGGREGATED_SUFFIX);
    assert cut.Some? && |cut.value| == |prefix| && cut.value == shell[..|prefix|] == prefix;
    BindingToFields(shell);
    assert "kind"[0] == 'k' && "roleRef"[0] == 'r' && "metadata"[0] == 'm';
    var ref := DictAt(BindingTo(shell), "roleRef");
    assert ref["name" := Str(manager)] == map["kind" := Str(CLUSTER_ROLE), "name" := Str(manager)];
    assert BindingTo(shell)["roleRef" := Dict(ref["name" := Str(manager)])] == BindingTo(manager);
    FieldNames();
  }

  lemma RolesPassThrough(r: Object, cn: map<string, string>)
    requires Kind(r) == CLUSTER_ROLE
    ensures RewriteOne(r, cn) == Ok(r)
  {
    FieldNames();
  }

  /** One more role under the label, with a rule the manager role lacks: redirected, the
      binding to the shell no longer grants it. */
  lemma SecondLabelledRoleLosesRule(prefix: string, extra: string, rule: Value, cn: map<string, string>)
    requires extra != prefix + MANAGER_SUFFIX
    ensures var (shell, manager) := (prefix + AGGREGATED_SUFFIX, prefix + MANAGER_SUFFIX);
            var objs := [BindingTo(shell), ShellRole(shell), LabelledRole(manager, []), LabelledRole(extra, [rule])];
            && Rewritten(objs, cn) == Ok(objs[0 := BindingTo(manager)]) && !ShellsAreConcrete(objs, objs)
            && Grants(objs, true, BindingTo(shell), ClusterWide, rule)
            && !Grants(objs[0 := BindingTo(manager)], false, BindingTo(manager), ClusterWide, rule)
  {
    var (shell, manager) := (prefix + AGGREGATED_SUFFIX, prefix + MANAGER_SUFFIX);
    var (b, s, m, e) := (BindingTo(shell), ShellRole(shell), LabelledRole(manager, []), LabelledRole(extra, [rule]));
    var objs, b' := [b, s, m, e], BindingTo(manager);
    ShellIsRedirected(prefix, cn);
    ShellRoleFields(shell);
    LabelledRoleFields(manager, []);
    LabelledRoleFields(extra, [rule]);
    ShellSelects(shell, e);
    BindingToFields(shell);
    BindingToFields(manager);
    FieldNames();
    forall r | r in {s, m, e} ensures RewriteOne(r, cn) == Ok(r) { RolesPassThrough(r, cn); }
    FourRewritten(b, b', s, m, e, cn);
    hide BindingTo, ShellRole, LabelledRole, Kind, Name, RefKind, RefName, Rules, Selects, RewriteOne, RedirectedName;
    LosesRule(b, b', s, m, e, rule);
  }

  lemma FourRewritten(b: Object, b': Object, s: Object, m: Object, e: Object, cn: map<string, string>)
    requires RewriteOne(b, cn) == Ok(b') && forall r | r in {s, m, e} :: RewriteOne(r, cn) == Ok(r)
    ensures Rewritten([b, s, m, e], cn) == Ok([b, s, m, e][0 := b'])
  {
    hide RewriteOne;
    var objs := [b, s, m, e];
    assert forall o | o in objs :: ObjectRewriter(cn)(o) == RewriteOne(o, cn);
    var out := Rewritten(objs, cn).value;
    assert forall i | 0 <= i < 4 :: ObjectRewriter(cn)(objs[i]) == Ok(out[i]);
    assert out == objs[0 := b'];
  }

  /** A shell s that selects e besides m, and a binding b to s, redirected to m as b'. */
  lemma LosesRule(b: Object, b': Object, s: Object, m: Object, e: Object, rule: Value)
    requires Kind(b) == Kind(b') == CLUSTER_ROLE_BINDING != CLUSTER_ROLE && RefKind(b) == RefKind(b') == CLUSTER_ROLE
    requires Kind(s) == Kind(m) == Kind(e) == CLUSTER_ROLE && RefName(b) == Name(s) && RefName(b') == Name(m)
    requires Name(s) != Name(m) && Name(e) != Name(m) && RedirectedName(Name(s)) == Name(m)
    requires Aggregates(s) && Selects(s, e) && !Aggregates(e) && Rules(m) == [] && Rules(e) == [rule]
    ensures var objs := [b, s, m, e];
            && !ShellsAreConcrete(objs, objs) && Grants(objs, true, b, ClusterWide, rule)
            && !Grants(objs[0 := b'], false, b', ClusterWide, rule)
  {
    var objs := [b, s, m, e];
    hide Kind, Name, RefKind, RefName, Rules, Selects, Aggregates, RedirectedName, SameRules;
    assert e in objs && s in objs && b in objs && Aggregated(objs, e, rule) && Aggregated(objs, s, rule);
    assert AggregatedRule(objs, Name(s), rule);
    forall other | other in objs || other in objs[0 := b'] ensures other in {b, b', s, m, e} {}
    assert !OwnRule(objs, Name(m), rule) && !OwnRule(objs[0 := b'], Name(m), rule);
    SameRulesMeans(objs, Name(s), Name(m));
    assert !Concrete(objs, b);
  }
}
