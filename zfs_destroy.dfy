/**
 * The `zfs destroy` builder (`VolumeDestroy`): the dataset or snapshot to
 * destroy and two flags. `Build` emits ` destroy `, then ` -n` for a dry
 * run, then ` -R ` for a recursive destroy, then the name, and `Execute`
 * hands the line to the zfs binary.
 */
module ZfsDestroy {
  import opened Apis
  import opened ZfsCommand

  const Operation := "destroy"

  /** What a check sees of the builder. */
  datatype Fields = Fields(dryRun: bool, recursive: bool, name: string, command: string)

  type PredicateFunc = Fields -> bool

  function IsDryRunSet(): (p: PredicateFunc)
    ensures forall f :: p(f) <==> f.dryRun
  {
    (f: Fields) => f.dryRun
  }

  function IsRecursiveSet(): (p: PredicateFunc)
    ensures forall f :: p(f) <==> f.recursive
  {
    (f: Fields) => f.recursive
  }

  function Flag(b: bool): nat { if b then 1 else 0 }

  /** The fragments `Build` hands to `appendCommand`: the operation, the
      dry-run flag, the recursive flag and the name, in that order, each
      flag present exactly when it is set. */
  function Fragments(f: Fields): (r: seq<string>)
    ensures |r| == 2 + Flag(f.dryRun) + Flag(f.recursive)
    ensures r[0] == " destroy " && r[|r| - 1] == f.name
    ensures f.dryRun ==> r[1] == " -n"
    ensures f.recursive ==> r[|r| - 2] == " -R "
  {
    [" " + Operation + " "]
    + (if IsDryRunSet()(f) then [" -n"] else [])
    + (if IsRecursiveSet()(f) then [" -R "] else [])
    + [f.name]
  }

  /** The command line as intended ends with the name. */
  lemma {:induction false} CommandEndsWithName(f: Fields)
    ensures var line := Concat(Fragments(f));
      |f.name| <= |line| && line[|line| - |f.name|..] == f.name
  {
    var r := Fragments(f);
    assert r == r[..|r| - 1] + [f.name];
    ConcatSnoc(r[..|r| - 1], f.name);
  }

  /** As written the built command line is empty; as intended it is not. */
  lemma BuildLosesCommand(f: Fields)
    ensures WriteByValue("", Fragments(f)) == ""
    ensures WriteByPointer("", Fragments(f)) == Concat(Fragments(f)) != ""
  {
    WriteByValueLosesFragments("", Fragments(f));
    WriteByPointerConcatenates("", Fragments(f));
    assert Concat(Fragments(f))[..9] == " destroy ";
  }

  /** The intended string builder at work: each fragment of `Build`
      appended in turn. */
  method WriteFragments(f: Fields) returns (c: string)
    ensures c == Concat(Fragments(f))
  {
    c := " " + Operation + " ";
    ghost var frags := [c];
    assert c == Concat(frags);
    if IsDryRunSet()(f) {
      ConcatSnoc(frags, " -n");
      c, frags := c + " -n", frags + [" -n"];
    }
    if IsRecursiveSet()(f) {
      ConcatSnoc(frags, " -R ");
      c, frags := c + " -R ", frags + [" -R "];
    }
    ConcatSnoc(frags, f.name);
    c, frags := c + f.name, frags + [f.name];
    assert frags == Fragments(f);
  }

  class VolumeDestroy {
    var dryRun: bool
    var recursive: bool
    var name: string
    var command: string
    var checks: seq<PredicateFunc>
    var err: Option<Failure>

    function View(): Fields
      reads this
    {
      Fields(dryRun, recursive, name, command)
    }

    /** `NewVolumeDestroy`: no flag, no name, no check, no error. */
    constructor ()
      ensures View() == Fields(false, false, "", "")
      ensures checks == [] && err == None
    {
      dryRun := false;
      recursive := false;
      name := "";
      command := "";
      checks := [];
      err := None;
    }

    method WithCheck(check: seq<PredicateFunc>)
      modifies this
      ensures checks == old(checks) + check
      ensures View() == old(View()) && err == old(err)
    {
      checks := checks + check;
    }

    method WithDryRun(dryRun: bool)
      modifies this
      ensures View() == old(View()).(dryRun := dryRun)
      ensures checks == old(checks) && err == old(err)
    {
      this.dryRun := dryRun;
    }

    method WithRecursive(recursive: bool)
      modifies this
      ensures View() == old(View()).(recursive := recursive)
      ensures checks == old(checks) && err == old(err)
    {
      this.recursive := recursive;
    }

    method WithName(name: string)
      modifies this
      ensures View() == old(View()).(name := name)
      ensures checks == old(checks) && err == old(err)
    {
      this.name := name;
    }

    method WithCommand(command: string)
      modifies this
      ensures View() == old(View()).(command := command)
      ensures checks == old(checks) && err == old(err)
    {
      this.command := command;
    }

    /** Evaluates every check, as intended: each failure is recorded. */
    method Validate()
      modifies this
      ensures View() == old(View()) && checks == old(checks)
      ensures err == Recorded(old(err), Failing(checks, View(), 0))
    {
      err := ValidateChecks(checks, View(), err);
    }

    /** Evaluates every check as written: a nil error stays nil. */
    method ValidateAsWritten()
      modifies this
      ensures View() == old(View()) && checks == old(checks)
      ensures err == RecordedAsWritten(old(err), Failing(checks, View(), 0))
    {
      err := ValidateChecksAsWritten(checks, View(), err);
    }

    /** Validates, then builds the command line from the fragments, as
        intended; returns the error. */
    method Build() returns (err': Option<Failure>)
      modifies this
      ensures command == Concat(Fragments(old(View())))
      ensures View() == old(View()).(command := command)
      ensures checks == old(checks)
      ensures err == Recorded(old(err), Failing(checks, old(View()), 0)) && err' == err
    {
      Validate();
      command := WriteFragments(View());
      err' := err;
    }

    /** `Build` as written: every fragment goes to a copy of the string
        builder, so the command line is empty. */
    method BuildAsWritten() returns (err': Option<Failure>)
      modifies this
      ensures command == ""
      ensures View() == old(View()).(command := "")
      ensures checks == old(checks)
      ensures err == RecordedAsWritten(old(err), Failing(checks, old(View()), 0)) && err' == err
    {
      ValidateAsWritten();
      var c := WriteByValue("", Fragments(View()));
      WriteByValueLosesFragments("", Fragments(View()));
      command := c;
      err' := err;
    }

    /** Builds, then refuses with the build error or runs zfs with the
        command line. */
    method Execute() returns (e: Execution)
      modifies this
      ensures e == ExecuteStep(Zfs, Recorded(old(err), Failing(old(checks), old(View()), 0)),
                               Concat(Fragments(old(View()))))
    {
      var err' := Build();
      if err'.Some? {
        return NotRun(err'.value);
      }
      e := Ran(Zfs, [command]);
    }

    /** `Execute` as written: it builds with `BuildAsWritten`, so a builder
        whose error starts out nil runs zfs with an empty command line
        whatever its checks say. */
    method ExecuteAsWritten() returns (e: Execution)
      modifies this
      ensures e == ExecuteStep(Zfs, RecordedAsWritten(old(err), Failing(old(checks), old(View()), 0)), "")
      ensures old(err) == None ==> e == Ran(Zfs, [""])
    {
      var err' := BuildAsWritten();
      if err'.Some? {
        return NotRun(err'.value);
      }
      e := Ran(Zfs, [command]);
    }
  }
}
