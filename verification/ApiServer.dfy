/** The apiserver as its single writer sees it: a store of versioned objects,
    answering Create, Get and Update. A client may be cut off at any call, so
    the server answers only as many calls as its budget allows. */
module ApiServer {
  import opened Wrappers
  import opened Text
  import opened Objects
  import opened Manifests

  datatype Stored = Stored(content: Object, version: string)

  type Store = map<Key, Stored>

  datatype Status = Accepted | AlreadyExists | NotFound | Conflict | Invalid | Unreachable

  datatype World = World(store: Store, revision: nat, budget: nat)

  /** What lies in a store, resourceVersions aside. */
  function ContentsOf(store: Store): map<Key, Object> {
    map k | k in store :: store[k].content
  }

  function RoleRef(o: Object): Option<Value> {
    if "roleRef" in o then Some(o["roleRef"]) else None
  }

  /** An object the server will create: named, in a namespace if its kind has them, and
      carrying no resourceVersion. */
  predicate Creatable(o: Object) {
    Name(o) != "" && ResourceVersion(o) == "" && (Namespaced(Kind(o)) ==> Namespace(o) != "")
  }

  /** A binding may be updated only under the roleRef it was created with. */
  predicate KeepsRoleRef(store: Store, k: Key, o: Object) {
    k in store && IsBindingKey(k) ==> RoleRef(store[k].content) == RoleRef(o)
  }

  function Put(w: World, k: Key, o: Object): World {
    World(w.store[k := Stored(Content(o), Itoa(w.revision + 1))], w.revision + 1, w.budget)
  }

  function Called(w: World): World
    requires w.budget > 0
  {
    w.(budget := w.budget - 1)
  }

  function CreateCall(w: World, k: Key, o: Object): (World, Status) {
    if w.budget == 0 then (w, Unreachable)
    else if !Creatable(o) then (Called(w), Invalid)
    else if k in w.store then (Called(w), AlreadyExists)
    else (Put(Called(w), k, o), Accepted)
  }

  function GetCall(w: World, k: Key): (World, Result<string, Status>) {
    if w.budget == 0 then (w, Err(Unreachable))
    else if k !in w.store then (Called(w), Err(NotFound))
    else (Called(w), Ok(w.store[k].version))
  }

  function UpdateCall(w: World, k: Key, o: Object): (World, Status) {
    if w.budget == 0 then (w, Unreachable)
    else if k !in w.store then (Called(w), NotFound)
    else if ResourceVersion(o) != w.store[k].version then (Called(w), Conflict)
    else if !KeepsRoleRef(w.store, k, o) then (Called(w), Invalid)
    else (Put(Called(w), k, o), Accepted)
  }

  class Client {
    var store: Store
    var revision: nat
    var budget: nat

    constructor (w: World)
      ensures View() == w
    {
      store, revision, budget := w.store, w.revision, w.budget;
    }

    ghost function View(): World
      reads this
    {
      World(store, revision, budget)
    }

    method Create(k: Key, o: Object) returns (s: Status)
      modifies this
      ensures (View(), s) == CreateCall(old(View()), k, o)
    {
      if budget == 0 { return Unreachable; }
      budget := budget - 1;
      if !Creatable(o) { return Invalid; }
      if k in store { return AlreadyExists; }
      revision := revision + 1;
      store := store[k := Stored(Content(o), Itoa(revision))];
      return Accepted;
    }

    /** Reads an object; its resourceVersion is all that Apply makes use of. */
    method Get(k: Key) returns (r: Result<string, Status>)
      modifies this`budget
      ensures (View(), r) == GetCall(old(View()), k)
    {
      if budget == 0 { return Err(Unreachable); }
      budget := budget - 1;
      if k !in store { return Err(NotFound); }
      return Ok(store[k].version);
    }

    method Update(k: Key, o: Object) returns (s: Status)
      modifies this
      ensures (View(), s) == UpdateCall(old(View()), k, o)
    {
      if budget == 0 { return Unreachable; }
      budget := budget - 1;
      if k !in store { return NotFound; }
      if ResourceVersion(o) != store[k].version { return Conflict; }
      if !KeepsRoleRef(store, k, o) { return Invalid; }
      revision := revision + 1;
      store := store[k := Stored(Content(o), Itoa(revision))];
      return Accepted;
    }
  }
}
