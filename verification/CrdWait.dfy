/** Waiting until every CustomResourceDefinition reports Established. */
module CrdWait {
  import opened Wrappers

  /** The delay between two passes, in nanoseconds. */
  const POLL_INTERVAL: int := 50_000_000

  datatype Condition = Condition(kind: string, status: string)

  /** What a waiting client meets: the conditions of a CRD as read in each pass, None
      when it cannot be read; the clock, first at the start and then after each pass;
      and whether the context is cancelled during the sleep after a pass. */
  datatype Watch = Watch(
    read: (nat, string) -> Option<seq<Condition>>,
    now: nat -> int,
    cancelled: nat -> bool)

  datatype WaitError = Unreadable(name: string) | NotEstablished(name: string) | Cancelled

  /** The clock does not go back, and a sleep takes at least the poll interval. */
  ghost predicate Sleeps(w: Watch) {
    w.now(0) <= w.now(1) && forall p: nat, q: nat | 1 <= p && q == p + 1 :: w.now(p) + POLL_INTERVAL <= w.now(q)
  }

  /** The Established condition with status True. */
  predicate Established(conditions: seq<Condition>) {
    exists c | c in conditions :: c.kind == "Established" && c.status == "True"
  }

  lemma EstablishedExactly(conditions: seq<Condition>)
    ensures Established(conditions) <==>
            exists i | 0 <= i < |conditions| :: conditions[i] == Condition("Established", "True")
  {
    if i :| 0 <= i < |conditions| && conditions[i] == Condition("Established", "True") {
      assert conditions[i] in conditions;
    }
  }

  predicate Ready(w: Watch, pass: nat, name: string) {
    w.read(pass, name).Some? && Established(w.read(pass, name).value)
  }

  /** The first CRD a pass finds not established, or cannot read: all before it are ready. */
  ghost predicate StopsAt(w: Watch, pass: nat, names: seq<string>, i: nat) {
    i < |names| && !Ready(w, pass, names[i]) && forall j | 0 <= j < i :: Ready(w, pass, names[j])
  }

  /** A pass after which the loop goes on: it stops at a CRD that could be read, there is
      time, and the context is not cancelled. */
  ghost predicate Retries(w: Watch, names: seq<string>, timeout: int, pass: nat) {
    (exists i: nat :: StopsAt(w, pass, names, i) && w.read(pass, names[i]).Some?) &&
    w.now(pass + 1) <= w.now(0) + timeout && !w.cancelled(pass)
  }

  ghost predicate AllReady(w: Watch, pass: nat, names: seq<string>) { forall n | n in names :: Ready(w, pass, n) }

  /** The wait comes to its good end in the given pass. */
  ghost predicate ComesUpIn(w: Watch, names: seq<string>, timeout: int, pass: nat) {
    AllReady(w, pass, names) && forall p | 0 <= p < pass :: Retries(w, names, timeout, p)
  }

  /** What the wait is for: in some pass every CRD is ready, and each pass before it only
      found some not established yet, in time. */
  ghost predicate ComesUp(w: Watch, names: seq<string>, timeout: int) {
    exists pass: nat :: ComesUpIn(w, names, timeout, pass)
  }

  lemma StopsOnce(w: Watch, pass: nat, names: seq<string>, i: nat, j: nat)
    requires StopsAt(w, pass, names, i) && StopsAt(w, pass, names, j)
    ensures i == j
  {}

  /** A pass that neither finds all ready nor goes on ends the wait for good. */
  lemma NeverComesUp(w: Watch, names: seq<string>, timeout: int, pass: nat)
    requires forall p | 0 <= p < pass :: Retries(w, names, timeout, p)
    requires !AllReady(w, pass, names) && !Retries(w, names, timeout, pass)
    ensures !ComesUp(w, names, timeout)
  {
    forall p | 0 <= p < pass ensures !AllReady(w, p, names) { RetriesUnready(w, names, timeout, p); }
    hide Retries, AllReady;
    forall q: nat ensures !ComesUpIn(w, names, timeout, q) {}
  }

  lemma RetriesUnready(w: Watch, names: seq<string>, timeout: int, pass: nat)
    requires Retries(w, names, timeout, pass)
    ensures !AllReady(w, pass, names)
  {
    var i: nat :| StopsAt(w, pass, names, i);
    assert names[i] in names;
  }

  /** One pass: the first name not established, "" when all are, or an error at the
      first that cannot be read. */
  method FirstUnestablishedCRD(w: Watch, pass: nat, names: seq<string>) returns (r: Result<string, WaitError>)
    ensures match r
            case Ok(name) =>
              (name == "" && forall n | n in names :: Ready(w, pass, n)) ||
              exists i: nat :: StopsAt(w, pass, names, i) && names[i] == name && w.read(pass, name).Some?
            case Err(e) =>
              e.Unreadable? && w.read(pass, e.name).None? &&
              exists i: nat :: StopsAt(w, pass, names, i) && names[i] == e.name
  {
    for i := 0 to |names|
      invariant forall j | 0 <= j < i :: Ready(w, pass, names[j])
    {
      var crd := w.read(pass, names[i]);
      if crd.None? || !Established(crd.value) {
        assert StopsAt(w, pass, names, i);
        return if crd.None? then Err(Unreadable(names[i])) else Ok(names[i]);
      }
    }
    return Ok("");
  }

  /** The polling loop. It succeeds exactly when the CRDs come up; a failure says why;
      and the passes are bounded by the timeout. An unnamed CRD would end the wait early,
      so the promise is for named ones. */
  method WaitForCRDEstablished(w: Watch, names: seq<string>, timeout: int)
    returns (r: Result<(), WaitError>, passes: nat)
    requires Sleeps(w)
    ensures names == [] <==> passes == 0
    ensures names == [] ==> r.Ok?
    ensures "" !in names ==> (r.Ok? <==> ComesUp(w, names, timeout))
    ensures "" !in names && passes > 0 ==>
              match r
              case Ok(_) => AllReady(w, passes - 1, names)
              case Err(Unreadable(n)) => n in names && w.read(passes - 1, n).None?
              case Err(NotEstablished(n)) =>
                n in names && !Ready(w, passes - 1, n) && w.now(passes) > w.now(0) + timeout
              case Err(Cancelled) => w.cancelled(passes - 1) && exists n | n in names :: !Ready(w, passes - 1, n)
    ensures "" !in names ==> forall p | 0 <= p < passes - 1 :: Retries(w, names, timeout, p)
    ensures timeout >= 0 ==> passes <= timeout / 50_000_000 + 2
    ensures timeout < 0 ==> passes <= 1
  {
    if names == [] {
      assert ComesUpIn(w, names, timeout, 0);
      return Ok(()), 0;
    }
    var deadline := w.now(0) + timeout;
    passes := 0;
    while true
      invariant w.now(passes + 1) >= w.now(0) + passes * POLL_INTERVAL
      invariant passes > 0 ==> (passes - 1) * POLL_INTERVAL <= timeout
      invariant "" !in names ==> forall p | 0 <= p < passes :: Retries(w, names, timeout, p)
      decreases deadline - w.now(passes + 1)
    {
      var pass := passes;
      passes := passes + 1;
      var unestablished := FirstUnestablishedCRD(w, pass, names);
      match unestablished {
        case Err(e) =>
          if "" !in names { UnreadableEnds(w, names, timeout, pass, e.name); }
          return Err(e), passes;
        case Ok(name) =>
          if name == "" {
            assert "" !in names ==> ComesUpIn(w, names, timeout, pass);
            return Ok(()), passes;
          }
          assert name in names && !Ready(w, pass, name);
          if w.now(passes) > deadline {
            if "" !in names { NeverComesUp(w, names, timeout, pass); }
            return Err(NotEstablished(name)), passes;
          }
          if w.cancelled(pass) {
            if "" !in names { NeverComesUp(w, names, timeout, pass); }
            return Err(Cancelled), passes;
          }
      }
      assert w.now(pass + 1) + POLL_INTERVAL <= w.now(pass + 2);
    }
  }

  lemma UnreadableEnds(w: Watch, names: seq<string>, timeout: int, pass: nat, name: string)
    requires forall p | 0 <= p < pass :: Retries(w, names, timeout, p)
    requires w.read(pass, name).None? && exists i: nat :: StopsAt(w, pass, names, i) && names[i] == name
    ensures !ComesUp(w, names, timeout)
  {
    var i: nat :| StopsAt(w, pass, names, i) && names[i] == name;
    forall j: nat | StopsAt(w, pass, names, j) ensures j == i { StopsOnce(w, pass, names, i, j); }
    assert !AllReady(w, pass, names) by { assert names[i] in names; }
    NeverComesUp(w, names, timeout, pass);
  }
}
