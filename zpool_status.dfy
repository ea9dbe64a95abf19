/**
 * The `zpool status` builder (`PoolStatus`): `Build` emits ` status ` and
 * the pool name, and `Execute` hands the line to the zpool binary.
 */
module ZpoolStatus {
  import opened Apis
  import opened ZfsCommand

  const Operation := "status"

  /** What a check sees of the builder. */
  datatype Fields = Fields(pool: string, command: string)

  type PredicateFunc = Fields -> bool

  /** The fragments `Build` hands to `appendCommand`. */
  function Fragments(f: Fields): (r: seq<string>)
    ensures |r| == 2 && r[1] == f.pool
  {
    [" " + Operation + " ", f.pool]
  }

  /** The command line as intended is exactly ` status ` followed by the
      pool name. */
  lemma CommandLine(f: Fields)
    ensures Concat(Fragments(f)) == " status " + f.pool
  {
    assert Fragments(f)[1..][1..] == [];
  }

  /** As written the built command line is empty; as intended it is not. */
  lemma BuildLosesCommand(f: Fields)
    ensures WriteByValue("", Fragments(f)) == ""
    ensures WriteByPointer("", Fragments(f)) == " status " + f.pool
  {
    WriteByValueLosesFragments("", Fragments(f));
    WriteByPointerConcatenates("", Fragments(f));
    CommandLine(f);
  }

  class PoolStatus {
    var pool: string
    var command: string
    var predicatelist: seq<PredicateFunc>
    var err: Option<Failure>

    function View(): Fields
      reads this
    {
      Fields(pool, command)
    }

    /** `NewPoolStatus`: no pool, no check, no error. */
    constructor ()
      ensures View() == Fields("", "")
      ensures predicatelist == [] && err == None
    {
      pool := "";
      command := "";
      predicatelist := [];
      err := None;
    }

    method WithCheck(preds: seq<PredicateFunc>)
      modifies this
      ensures predicatelist == old(predicatelist) + preds
      ensures View() == old(View()) && err == old(err)
    {
      predicatelist := predicatelist + preds;
    }

    method WithPool(pool: string)
      modifies this
      ensures View() == old(View()).(pool := pool)
      ensures predicatelist == old(predicatelist) && err == old(err)
    {
      this.pool := pool;
    }

    method WithCommand(command: string)
      modifies this
      ensures View() == old(View()).(command := command)
      ensures predicatelist == old(predicatelist) && err == old(err)
    {
      this.command := command;
    }

    /** Evaluates every check, as intended: each failure is recorded. */
    method Validate()
      modifies this
      ensures View() == old(View()) && predicatelist == old(predicatelist)
      ensures err == Recorded(old(err), Failing(predicatelist, View(), 0))
    {
      err := ValidateChecks(predicatelist, View(), err);
    }

    /** Evaluates every check as written: a nil error stays nil. */
    method ValidateAsWritten()
      modifies this
      ensures View() == old(View()) && predicatelist == old(predicatelist)
      ensures err == RecordedAsWritten(old(err), Failing(predicatelist, View(), 0))
    {
      err := ValidateChecksAsWritten(predicatelist, View(), err);
    }

    /** Validates, then builds ` status <pool>`, as intended; returns the
        error. */
    method Build() returns (err': Option<Failure>)
      modifies this
      ensures command == " status " + old(pool)
      ensures View() == old(View()).(command := command)
      ensures predicatelist == old(predicatelist)
      ensures err == Recorded(old(err), Failing(predicatelist, old(View()), 0)) && err' == err
    {
      Validate();
      command := AppendAll("", Fragments(View()));
      CommandLine(old(View()));
      err' := err;
    }

    /** `Build` as written: both fragments go to a copy of the string
        builder, so the command line is empty. */
    method BuildAsWritten() returns (err': Option<Failure>)
      modifies this
      ensures command == ""
      ensures View() == old(View()).(command := "")
      ensures predicatelist == old(predicatelist)
      ensures err == RecordedAsWritten(old(err), Failing(predicatelist, old(View()), 0)) && err' == err
    {
      ValidateAsWritten();
      var c := WriteByValue("", Fragments(View()));
      WriteByValueLosesFragments("", Fragments(View()));
      command := c;
      err' := err;
    }

    /** Builds, then refuses with the build error or runs zpool with the
        command line. */
    method Execute() returns (e: Execution)
      modifies this
      ensures e == ExecuteStep(Zpool, Recorded(old(err), Failing(old(predicatelist), old(View()), 0)),
                               " status " + old(pool))
    {
      var err' := Build();
      if err'.Some? {
        return NotRun(err'.value);
      }
      e := Ran(Zpool, [command]);
    }

    /** `Execute` as written: it builds with `BuildAsWritten`, so a builder
        whose error starts out nil runs zpool with an empty command line
        whatever its checks say. */
    method ExecuteAsWritten() returns (e: Execution)
      modifies this
      ensures e == ExecuteStep(Zpool, RecordedAsWritten(old(err), Failing(old(predicatelist), old(View()), 0)), "")
      ensures old(err) == None ==> e == Ran(Zpool, [""])
    {
      var err' := BuildAsWritten();
      if err'.Some? {
        return NotRun(err'.value);
      }
      e := Ran(Zpool, [command]);
    }
  }
}
