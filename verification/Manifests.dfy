/** The kinds setup applies, and the two keys it tells objects apart by. */
module Manifests {
  import opened Wrappers
  import opened Text
  import opened Objects

  const NAMESPACE := "Namespace"
  const CRD := "CustomResourceDefinition"
  const CLUSTER_ROLE := "ClusterRole"
  const CLUSTER_ROLE_BINDING := "ClusterRoleBinding"
  const ROLE := "Role"
  const ROLE_BINDING := "RoleBinding"
  const MUTATING := "MutatingWebhookConfiguration"
  const VALIDATING := "ValidatingWebhookConfiguration"

  datatype GroupVersionKind = GroupVersionKind(group: string, version: string, kind: string)

  /** The group, version and kind of an object. An apiVersion with more than one
      slash does not parse, and the kind is then lost with it. */
  function GroupVersionKindOf(o: Object): GroupVersionKind {
    var v := ApiVersion(o);
    var slash := Span(v, {'/'});
    if v == "" || v == "/" then GroupVersionKind("", "", Kind(o))
    else if slash == |v| then GroupVersionKind("", v, Kind(o))
    else if '/' in v[slash + 1..] then GroupVersionKind("", "", "")
    else GroupVersionKind(v[..slash], v[slash + 1..], Kind(o))
  }

  /** The API group each kept kind belongs to. */
  function KeptGroup(kind: string): Option<string> {
    if kind == NAMESPACE then Some("")
    else if kind == CRD then Some("apiextensions.k8s.io")
    else if kind == CLUSTER_ROLE || kind == CLUSTER_ROLE_BINDING || kind == ROLE || kind == ROLE_BINDING then
      Some("rbac.authorization.k8s.io")
    else if kind == MUTATING || kind == VALIDATING then Some("admissionregistration.k8s.io")
    else None
  }

  /** Keep: the eight applied kinds, each in its own group at version v1. */
  predicate Keep(o: Object) {
    var gvk := GroupVersionKindOf(o);
    KeptGroup(gvk.kind) == Some(gvk.group) && gvk.version == "v1"
  }

  /** The group-version-resource a client addresses. */
  datatype Resource =
    | Namespaces
    | CustomResourceDefinitions
    | ClusterRoles
    | ClusterRoleBindings
    | Roles
    | RoleBindings
    | MutatingWebhookConfigurations
    | ValidatingWebhookConfigurations

  /** Where the client sends a kind, and whether by namespace. */
  datatype ResourceRef = ResourceRef(resource: Resource, namespaced: bool)

  function ResourceFor(kind: string): Option<ResourceRef> {
    if kind == NAMESPACE then Some(ResourceRef(Namespaces, false))
    else if kind == CRD then Some(ResourceRef(CustomResourceDefinitions, false))
    else if kind == CLUSTER_ROLE then Some(ResourceRef(ClusterRoles, false))
    else if kind == CLUSTER_ROLE_BINDING then Some(ResourceRef(ClusterRoleBindings, false))
    else if kind == ROLE then Some(ResourceRef(Roles, true))
    else if kind == ROLE_BINDING then Some(ResourceRef(RoleBindings, true))
    else if kind == MUTATING then Some(ResourceRef(MutatingWebhookConfigurations, false))
    else if kind == VALIDATING then Some(ResourceRef(ValidatingWebhookConfigurations, false))
    else None
  }

  predicate Applied(kind: string) { ResourceFor(kind).Some? }

  predicate Namespaced(kind: string) { Applied(kind) && ResourceFor(kind).value.namespaced }

  /** The namespace an object is addressed in: cluster-scoped kinds have none. */
  function Scope(o: Object): string { if Namespaced(Kind(o)) then Namespace(o) else "" }

  /** The key Apply refuses duplicates by. */
  function ApplyKey(o: Object): string { Join([Scope(o), Kind(o), Name(o)]) }

  /** The key the loader removes duplicates by. */
  function ObjectIdentity(o: Object): string { Join([ApiVersion(o), Kind(o), Namespace(o), Name(o)]) }

  /** Where an applied object lives in the apiserver. */
  datatype Key = Key(resource: Resource, namespace: string, name: string)

  function KeyOf(o: Object): Key
    requires Applied(Kind(o))
  {
    Key(ResourceFor(Kind(o)).value.resource, Scope(o), Name(o))
  }

  predicate IsBinding(o: Object) { Kind(o) == CLUSTER_ROLE_BINDING || Kind(o) == ROLE_BINDING }

  /** The keys whose objects the apiserver holds to their first roleRef. */
  predicate IsBindingKey(k: Key) { k.resource.ClusterRoleBindings? || k.resource.RoleBindings? }

  lemma KeyKinds(o: Object)
    requires Applied(Kind(o))
    ensures IsBindingKey(KeyOf(o)) <==> IsBinding(o)
  {}

  /** Two objects share an apiserver key exactly when kind, scope and name agree. */
  lemma KeysTellKindScopeName(a: Object, b: Object)
    requires Applied(Kind(a)) && Applied(Kind(b))
    ensures KeyOf(a) == KeyOf(b) <==> Kind(a) == Kind(b) && Scope(a) == Scope(b) && Name(a) == Name(b)
  {}
}
