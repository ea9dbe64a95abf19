/**
 * What the zfs and zpool command builders share. A builder's command line
 * is the concatenation of the fragments its `Build` hands to
 * `appendCommand`. Its `Validate` evaluates a list of checks and records
 * the failures in the builder's error. `Execute` either refuses with that
 * error or runs the binary.
 *
 * Each builder has two defects, and both are modelled in their written and
 * their intended form:
 *  - `appendCommand` takes its `strings.Builder` by value. Every fragment is
 *    written into a copy, so the command line the builder ends up with is
 *    empty (`WriteByValue`); the intended line is `Concat`.
 *  - `Validate` wraps the current error with `errors.Wrapf`, which gives nil
 *    for a nil error. A builder whose error starts out nil therefore never
 *    records a failed check (`RecordedAsWritten`); the intended record is
 *    `Recorded`.
 */
module ZfsCommand {
  import opened Apis

  /** The fragments, joined in order. */
  function Concat(fragments: seq<string>): (line: string)
    ensures fragments == [] ==> line == ""
    ensures fragments != [] ==> |fragments[0]| <= |line| && line[..|fragments[0]|] == fragments[0]
  {
    if fragments == [] then "" else fragments[0] + Concat(fragments[1..])
  }

  lemma {:induction false} ConcatAppend(a: seq<string>, b: seq<string>)
    ensures Concat(a + b) == Concat(a) + Concat(b)
    decreases |a|
  {
    if a == [] {
      assert a + b == b;
    } else {
      assert (a + b)[1..] == a[1..] + b;
      ConcatAppend(a[1..], b);
    }
  }

  /** Appending one fragment to the line written so far. */
  lemma ConcatSnoc(a: seq<string>, s: string)
    ensures Concat(a + [s]) == Concat(a) + s
  {
    ConcatAppend(a, [s]);
    assert Concat([s]) == s + Concat([]);
  }

  /** The intended `appendCommand`, called once per fragment in order. */
  method AppendAll(c: string, fragments: seq<string>) returns (line: string)
    ensures line == c + Concat(fragments)
  {
    line := c;
    for i := 0 to |fragments|
      invariant line == c + Concat(fragments[..i])
    {
      ConcatSnoc(fragments[..i], fragments[i]);
      assert fragments[..i + 1] == fragments[..i] + [fragments[i]];
      line := line + fragments[i];
    }
    assert fragments[..|fragments|] == fragments;
  }

  /** `appendCommand` as written: the fragment goes to a copy of the
      builder, and the caller's builder keeps what it had. */
  function WriteByValue(c: string, fragments: seq<string>): (line: string)
    decreases |fragments|
  {
    if fragments == [] then c else WriteByValue(c, fragments[1..])
  }

  /** `appendCommand` as intended: the fragment is appended to the
      caller's builder. */
  function WriteByPointer(c: string, fragments: seq<string>): (line: string)
    decreases |fragments|
  {
    if fragments == [] then c else WriteByPointer(c + fragments[0], fragments[1..])
  }

  /** As written, no fragment ever reaches the builder. */
  lemma {:induction false} WriteByValueLosesFragments(c: string, fragments: seq<string>)
    ensures WriteByValue(c, fragments) == c
    decreases |fragments|
  {
    if fragments != [] {
      WriteByValueLosesFragments(c, fragments[1..]);
    }
  }

  /** As intended, the builder ends up holding every fragment in order. */
  lemma {:induction false} WriteByPointerConcatenates(c: string, fragments: seq<string>)
    ensures WriteByPointer(c, fragments) == c + Concat(fragments)
    decreases |fragments|
  {
    if fragments != [] {
      WriteByPointerConcatenates(c + fragments[0], fragments[1..]);
    }
  }

  /** The failed checks a builder's error reports, by position in its
      check list. */
  datatype Failure = ChecksFailed(checks: seq<nat>)

  /** The checks an error reports; none for a nil error. */
  function Reported(err: Option<Failure>): seq<nat> {
    if err.None? then [] else err.value.checks
  }

  /** The positions, from `i` on and in increasing order, of the checks
      that do not hold of `f`. */
  function Failing<F>(checks: seq<F -> bool>, f: F, i: nat): (failed: seq<nat>)
    requires i <= |checks|
    ensures forall k :: k in failed <==> i <= k < |checks| && !checks[k](f)
    ensures forall k :: 0 <= k < |failed| ==> i <= failed[k]
    ensures forall j, k :: 0 <= j < k < |failed| ==> failed[j] < failed[k]
    decreases |checks| - i
  {
    if i == |checks| then []
    else if checks[i](f) then Failing(checks, f, i + 1)
    else [i] + Failing(checks, f, i + 1)
  }

  /** The error after `Validate` records the failed checks, as intended:
      a nil error becomes one that reports them, and an existing error is
      extended. */
  function Recorded(err: Option<Failure>, failed: seq<nat>): (err': Option<Failure>)
    ensures err'.None? <==> err.None? && failed == []
    ensures Reported(err') == Reported(err) + failed
  {
    if failed == [] then err else Some(ChecksFailed(Reported(err) + failed))
  }

  /** The error after `Validate` as written: `errors.Wrapf` of a nil error
      is nil, so only an error that already exists is extended. */
  function RecordedAsWritten(err: Option<Failure>, failed: seq<nat>): (err': Option<Failure>)
    ensures err.None? ==> err' == None
    ensures err.Some? ==> err' == Recorded(err, failed)
  {
    match err
    case None => None
    case Some(_) => Recorded(err, failed)
  }

  lemma RecordedStep(err: Option<Failure>, i: nat, rest: seq<nat>)
    ensures Recorded(Recorded(err, [i]), rest) == Recorded(err, [i] + rest)
  {
    assert Reported(err) + [i] + rest == Reported(err) + ([i] + rest);
  }

  /** The loop of `Validate`, as intended: every check is evaluated, in
      order and without stopping at a failure, and every failure is
      recorded. */
  method ValidateChecks<F>(checks: seq<F -> bool>, f: F, err: Option<Failure>) returns (err': Option<Failure>)
    ensures err' == Recorded(err, Failing(checks, f, 0))
  {
    err' := err;
    for i := 0 to |checks|
      invariant Recorded(err', Failing(checks, f, i)) == Recorded(err, Failing(checks, f, 0))
    {
      if !checks[i](f) {
        RecordedStep(err', i, Failing(checks, f, i + 1));
        err' := Recorded(err', [i]);
      }
    }
  }

  /** The loop of `Validate` as written. */
  method ValidateChecksAsWritten<F>(checks: seq<F -> bool>, f: F, err: Option<Failure>) returns (err': Option<Failure>)
    ensures err' == RecordedAsWritten(err, Failing(checks, f, 0))
  {
    err' := err;
    for i := 0 to |checks|
      invariant RecordedAsWritten(err', Failing(checks, f, i)) == RecordedAsWritten(err, Failing(checks, f, 0))
    {
      if !checks[i](f) {
        if err'.Some? {
          RecordedStep(err', i, Failing(checks, f, i + 1));
        }
        err' := RecordedAsWritten(err', [i]);
      }
    }
  }

  /** A builder that starts with a nil error and one failing check: as
      written the failure is lost, as intended it is reported. */
  lemma FailedCheckIsLost<F>(checks: seq<F -> bool>, f: F)
    requires Failing(checks, f, 0) != []
    ensures RecordedAsWritten(None, Failing(checks, f, 0)) == None
    ensures Recorded(None, Failing(checks, f, 0)) == Some(ChecksFailed(Failing(checks, f, 0)))
  {
    assert [] + Failing(checks, f, 0) == Failing(checks, f, 0);
  }

  /** As intended, the error after `Validate` is nil exactly when it was
      nil before and every check holds. */
  lemma ValidatedNilIffAllPass<F>(checks: seq<F -> bool>, f: F, err: Option<Failure>)
    ensures Recorded(err, Failing(checks, f, 0)).None? <==>
      err.None? && forall k :: 0 <= k < |checks| ==> checks[k](f)
  {
    var failed := Failing(checks, f, 0);
    if failed != [] {
      assert failed[0] in failed;
    }
  }

  /** The program a builder runs. */
  datatype Binary = Zfs | Zpool

  /** What `Execute` does: refuse with the error of `Build`, or run the
      binary with the command line as its one argument. */
  datatype Execution = NotRun(failure: Failure) | Ran(binary: Binary, args: seq<string>)

  function ExecuteStep(binary: Binary, err: Option<Failure>, command: string): (e: Execution)
    ensures e.NotRun? <==> err.Some?
    ensures e.NotRun? ==> e.failure == err.value
    ensures e.Ran? ==> e.binary == binary && e.args == [command]
  {
    match err
    case Some(failure) => NotRun(failure)
    case None => Ran(binary, [command])
  }

  /** As intended, a builder whose error starts out nil runs its command
      exactly when every check holds. */
  lemma ExecuteRunsIffChecksPass<F>(binary: Binary, checks: seq<F -> bool>, f: F, command: string)
    ensures ExecuteStep(binary, Recorded(None, Failing(checks, f, 0)), command).Ran? <==>
      forall k :: 0 <= k < |checks| ==> checks[k](f)
  {
    ValidatedNilIffAllPass(checks, f, None);
  }

  /** As written, a builder whose error starts out nil runs its command
      whatever its checks say. */
  lemma ExecuteAsWrittenAlwaysRuns<F>(binary: Binary, checks: seq<F -> bool>, f: F, command: string)
    ensures ExecuteStep(binary, RecordedAsWritten(None, Failing(checks, f, 0)), command) == Ran(binary, [command])
  {
  }
}
