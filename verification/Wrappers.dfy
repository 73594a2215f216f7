/** Failure-carrying results shared by every module. */
module Wrappers {
  datatype Option<+T> = None | Some(value: T)

  datatype Result<+T, +E> = Ok(value: T) | Err(error: E)

  /** The first error in order, or every element mapped. */
  function MapAll<A, B, E>(f: A -> Result<B, E>, s: seq<A>): (r: Result<seq<B>, E>)
    ensures r.Ok? <==> forall a | a in s :: f(a).Ok?
    ensures r.Ok? ==> |r.value| == |s| && forall i | 0 <= i < |s| :: f(s[i]) == Ok(r.value[i])
    ensures r.Err? ==> exists a | a in s :: f(a) == Err(r.error)
  {
    if s == [] then Ok([])
    else
      var init := MapAll(f, s[..|s| - 1]);
      assert s == s[..|s| - 1] + [s[|s| - 1]];
      if init.Err? then init
      else
        match f(s[|s| - 1])
        case Err(e) => Err(e)
        case Ok(b) => Ok(init.value + [b])
  }

  lemma MapAllStep<A, B, E>(f: A -> Result<B, E>, s: seq<A>, n: nat)
    requires n < |s| && MapAll(f, s[..n]).Ok?
    ensures MapAll(f, s[..n + 1]) == match f(s[n]) case Err(e) => Err(e) case Ok(b) => Ok(MapAll(f, s[..n]).value + [b])
  {
    assert s[..n + 1][..n] == s[..n];
  }

  lemma {:induction false} MapAllFails<A, B, E>(f: A -> Result<B, E>, s: seq<A>, n: nat)
    requires n <= |s| && MapAll(f, s[..n]).Err?
    ensures MapAll(f, s) == MapAll(f, s[..n])
    decreases |s| - n
  {
    if n == |s| {
      assert s[..n] == s;
    } else {
      assert s[..n + 1][..n] == s[..n];
      MapAllFails(f, s, n + 1);
    }
  }

  /** The error is the first one's. */
  lemma {:induction false} MapAllFirstError<A, B, E>(f: A -> Result<B, E>, s: seq<A>) returns (n: nat)
    requires MapAll(f, s).Err?
    ensures n < |s| && f(s[n]) == Err(MapAll(f, s).error) && forall i | 0 <= i < n :: f(s[i]).Ok?
  {
    n := |s| - 1;
    var init := s[..n];
    if MapAll(f, init).Err? { n := MapAllFirstError(f, init); }
    forall i | 0 <= i < n ensures f(s[i]).Ok? { assert s[i] == init[i] && init[i] in init; }
  }

  lemma MapAllAppend<A, B, E>(f: A -> Result<B, E>, s: seq<A>, a: A)
    requires MapAll(f, s).Ok?
    ensures MapAll(f, s + [a]) == match f(a) case Err(e) => Err(e) case Ok(b) => Ok(MapAll(f, s).value + [b])
  {}

  /** Overwriting the first element not yet done. */
  lemma InPlace<T>(done: seq<T>, s: seq<T>, i: nat, x: T, tail: seq<T>)
    requires i == |done| < |s|
    ensures (done + s[i..])[i] == s[i]
    ensures (done + s[i..])[i := x] == done + [x] + s[i + 1..]
    ensures done + ([x] + tail) == done + [x] + tail
  {}
}
