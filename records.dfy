/** The two loops every symbol writer runs: the record loop, which tokenises each shape
    record and hands it to a handler, and the unit loop over the uuids of a component.
    Both stop at the first exception; the unit loop also stops at an early `return`. */
module Records {
  import opened Wrappers
  import opened Text

  /** `[i for i in line.split("~") if i]`: the tag is the first token and the fields the rest. */
  function Tokens(line: string): (args: seq<string>)
    ensures forall k :: 0 <= k < |args| ==> args[k] != ""
    ensures forall t :: t in args <==> t in Split(line, "~") && t != ""
  {
    NonEmptyMembers(Split(line, "~"));
    NonEmpty(Split(line, "~"))
  }

  /** A left fold of `step` over `lines` that stops at the first exception. */
  function Replay<S>(step: (S, string) -> Result<S>, st: S, lines: seq<string>): Result<S>
    decreases |lines|
  {
    if |lines| == 0 then Ok(st)
    else
      var prev :- Replay(step, st, lines[..|lines| - 1]);
      step(prev, lines[|lines| - 1])
  }

  /** One more record: the step applied to the state after the records before it. */
  lemma ReplayNext<S>(step: (S, string) -> Result<S>, st: S, lines: seq<string>, i: nat)
    requires i < |lines| && Replay(step, st, lines[..i]).Ok?
    ensures Replay(step, st, lines[..i + 1]) == step(Replay(step, st, lines[..i]).value, lines[i])
  {
    assert lines[..i + 1][..i] == lines[..i];
  }

  /** An exception stops the fold: no later record changes the outcome. */
  lemma {:induction false} ReplayErrPersists<S>(step: (S, string) -> Result<S>, st: S, lines: seq<string>, m: nat)
    requires m <= |lines| && Replay(step, st, lines[..m]).Err?
    ensures Replay(step, st, lines) == Replay(step, st, lines[..m])
    decreases |lines| - m
  {
    if m < |lines| {
      assert lines[..|lines| - 1][..m] == lines[..m];
      ReplayErrPersists(step, st, lines[..|lines| - 1], m);
    } else {
      assert lines[..m] == lines;
    }
  }

  /** Records whose step leaves the state as it was can be dropped from the fold. */
  lemma {:induction false} ReplayInert<S>(step: (S, string) -> Result<S>, st: S, lines: seq<string>)
    requires forall k :: 0 <= k < |lines| ==> step(st, lines[k]) == Ok(st)
    ensures Replay(step, st, lines) == Ok(st)
    decreases |lines|
  {
    if |lines| > 0 {
      var n := |lines| - 1;
      ReplayInert(step, st, lines[..n]);
    }
  }

  /** Folding over two runs of records is folding over the first, then over the second from
      where the first left off. */
  lemma {:induction false} ReplayConcat<S>(step: (S, string) -> Result<S>, st: S, xs: seq<string>, ys: seq<string>)
    ensures Replay(step, st, xs + ys) ==
      match Replay(step, st, xs)
      case Err(m) => Err(m)
      case Ok(s) => Replay(step, s, ys)
    decreases |ys|
  {
    if |ys| == 0 {
      assert xs + ys == xs;
    } else {
      var n := |ys| - 1;
      ReplayConcat(step, st, xs, ys[..n]);
      assert (xs + ys)[..|xs + ys| - 1] == xs + ys[..n];
      assert (xs + ys)[|xs + ys| - 1] == ys[n];
    }
  }

  /** A record that every state steps to itself can be removed wherever it stands, and the
      records after it are still processed. */
  lemma ReplaySkips<S>(step: (S, string) -> Result<S>, st: S, xs: seq<string>, u: string, ys: seq<string>)
    requires forall s :: step(s, u) == Ok(s)
    ensures Replay(step, st, xs + [u] + ys) == Replay(step, st, xs + ys)
  {
    ReplayConcat(step, st, xs + [u], ys);
    ReplayConcat(step, st, xs, [u]);
    ReplayConcat(step, st, xs, ys);
    if Replay(step, st, xs).Ok? {
      var s := Replay(step, st, xs).value;
      assert Replay(step, s, [u]) == Ok(s) by {
        assert [u][..0] == [];
      }
    }
  }

  /** `Stopped` is an early `return ()` of the unit loop. */
  datatype Flow<A> = Running(acc: A) | Stopped

  /** A loop over rounds `0 .. k - 1` that stops at the first exception or early return. */
  function Iterate<A>(step: (A, nat) -> Result<Flow<A>>, start: A, k: nat): Result<Flow<A>> {
    if k == 0 then Ok(Running(start))
    else
      var prev :- Iterate(step, start, k - 1);
      match prev
      case Stopped => Ok(Stopped)
      case Running(acc) => step(acc, k - 1)
  }

  /** Once such a loop has raised or returned, later rounds do not matter. */
  lemma {:induction false} IterateHalts<A>(step: (A, nat) -> Result<Flow<A>>, start: A, m: nat, n: nat)
    requires m <= n
    requires !Iterate(step, start, m).Ok? || Iterate(step, start, m).value.Stopped?
    ensures Iterate(step, start, n) == Iterate(step, start, m)
    decreases n - m
  {
    if m < n {
      IterateHalts(step, start, m, n - 1);
    }
  }

  /** A loop still running after `k` rounds was running after each earlier round. */
  lemma IterateRunningBefore<A>(step: (A, nat) -> Result<Flow<A>>, start: A, k: nat)
    requires k > 0 && Iterate(step, start, k).Ok? && Iterate(step, start, k).value.Running?
    ensures Iterate(step, start, k - 1).Ok? && Iterate(step, start, k - 1).value.Running?
    ensures Iterate(step, start, k) == step(Iterate(step, start, k - 1).value.acc, k - 1)
  {
  }

  const NameError: string := "NameError: name is not defined"

  /** The first uuid sets the component name, and its own unit title gets `_0`. */
  function NameOf(name: string, title: string): string {
    if name == "" then title else name
  }

  function UnitTitle(name: string, title: string): string {
    if name == "" then title + "_0" else title
  }

  /** With two or more uuids, a uuid equal to the first is not drawn. */
  predicate Skipped(uuids: seq<string>, k: nat)
    requires k < |uuids|
  {
    |uuids| >= 2 && uuids[k] == uuids[0]
  }

  /** The uuids that are drawn among the first `k`: all of them for a single uuid, otherwise
      those different from the first. */
  function DrawnUnits(uuids: seq<string>, k: nat): nat
    requires k <= |uuids|
  {
    if k == 0 then 0
    else DrawnUnits(uuids, k - 1) + (if |uuids| >= 2 && uuids[k - 1] == uuids[0] then 0 else 1)
  }
}
