/** Kubernetes objects as the program handles them: decoded documents, read and
    edited through the accessors of the unstructured form. */
module Objects {

  /** One decoded YAML or JSON value. */
  datatype Value =
    | Null
    | Bool(flag: bool)
    | Number(n: int)
    | Str(text: string)
    | List(items: seq<Value>)
    | Dict(fields: map<string, Value>)

  type Object = map<string, Value>

  /** The unstructured form behind a pointer: the one thing edits go through. */
  class Unstructured {
    var data: Object

    constructor (data: Object)
      ensures this.data == data
    {
      this.data := data;
    }
  }

  /** The contents of a slice of objects. */
  ghost function Contents(objs: seq<Unstructured>): (r: seq<Object>)
    reads objs
    ensures |r| == |objs|
  {
    seq(|objs|, i requires 0 <= i < |objs| reads objs => objs[i].data)
  }

  /** A string field, or "" when it is absent or not a string. */
  function StringAt(o: Object, field: string): string {
    if field in o && o[field].Str? then o[field].text else ""
  }

  /** A nested object, or an empty one when it is absent or not an object. */
  function DictAt(o: Object, field: string): Object {
    if field in o && o[field].Dict? then o[field].fields else map[]
  }

  /** Whatever is read from a field is what is written there, and nothing else reads as it. */
  lemma FieldsExactly(o: Object, field: string, text: string, fields: map<string, Value>)
    ensures text != "" ==> (StringAt(o, field) == text <==> field in o && o[field] == Str(text))
    ensures fields != map[] ==> (DictAt(o, field) == fields <==> field in o && o[field] == Dict(fields))
  {}

  function ApiVersion(o: Object): string { StringAt(o, "apiVersion") }

  function Kind(o: Object): string { StringAt(o, "kind") }

  function Name(o: Object): string { StringAt(DictAt(o, "metadata"), "name") }

  function Namespace(o: Object): string { StringAt(DictAt(o, "metadata"), "namespace") }

  function ResourceVersion(o: Object): string { StringAt(DictAt(o, "metadata"), "resourceVersion") }

  /** SetResourceVersion: a metadata field that is not an object is left alone. */
  function SetResourceVersion(o: Object, version: string): Object {
    if "metadata" in o && !o["metadata"].Dict? then o
    else o["metadata" := Dict(DictAt(o, "metadata")["resourceVersion" := Str(version)])]
  }

  /** What an object says apart from its resourceVersion. */
  function Content(o: Object): Object {
    if "metadata" in o && o["metadata"].Dict?
    then o["metadata" := Dict(o["metadata"].fields - {"resourceVersion"})]
    else o
  }

  /** The identity an object has for the apiserver, and the version it carries. */
  predicate SameIdentity(a: Object, b: Object) {
    Kind(a) == Kind(b) && Namespace(a) == Namespace(b) && Name(a) == Name(b) &&
    ResourceVersion(a) == ResourceVersion(b)
  }

  /** The version is set wherever there is, or can be, metadata to set it in. */
  lemma VersionIsSet(o: Object, version: string)
    ensures !("metadata" in o ==> o["metadata"].Dict?) ==> SetResourceVersion(o, version) == o
    ensures ("metadata" in o ==> o["metadata"].Dict?) ==>
              var r := SetResourceVersion(o, version);
              && r - {"metadata"} == o - {"metadata"} && ResourceVersion(r) == version
              && DictAt(r, "metadata") - {"resourceVersion"} == DictAt(o, "metadata") - {"resourceVersion"}
  {}

  /** Adopting a resourceVersion changes nothing else about a named object. */
  lemma AdoptedVersion(o: Object, version: string)
    requires Name(o) != ""
    ensures ResourceVersion(SetResourceVersion(o, version)) == version
    ensures Content(SetResourceVersion(o, version)) == Content(o)
    ensures Kind(SetResourceVersion(o, version)) == Kind(o)
    ensures Name(SetResourceVersion(o, version)) == Name(o)
    ensures Namespace(SetResourceVersion(o, version)) == Namespace(o)
  {
    var meta := o["metadata"].fields;
    assert meta["resourceVersion" := Str(version)] - {"resourceVersion"} == meta - {"resourceVersion"};
  }
}
