/**
 * The `zpool add` builder (`PoolExpansion`): the pool to expand, the vdevs
 * to add and the pool properties to set. `Build` emits ` add `, then one
 * ` -o key=value ` per property, then the pool, then one ` vdev ` per
 * vdev, and `Execute` hands the line to the zpool binary.
 */
module ZpoolAdd {
  import opened Apis
  import opened ZfsCommand

  const Operation := "add"

  /** What a check sees of the builder. */
  datatype Fields = Fields(vdevList: seq<string>, property: seq<string>, pool: string, command: string)

  type PredicateFunc = Fields -> bool

  function IsVdevListSet(): (p: PredicateFunc)
    ensures forall f :: p(f) <==> f.vdevList != []
  {
    (f: Fields) => |f.vdevList| != 0
  }

  function IsPropertySet(): (p: PredicateFunc)
    ensures forall f :: p(f) <==> f.property != []
  {
    (f: Fields) => |f.property| != 0
  }

  function IsPoolSet(): (p: PredicateFunc)
    ensures forall f :: p(f) <==> f.pool != ""
  {
    (f: Fields) => |f.pool| != 0
  }

  function IsCommandSet(): (p: PredicateFunc)
    ensures forall f :: p(f) <==> f.command != ""
  {
    (f: Fields) => |f.command| != 0
  }

  /** One ` -o key=value ` per property, in order. */
  function PropertyFlags(property: seq<string>): seq<string> {
    seq(|property|, k requires 0 <= k < |property| => " -o " + property[k] + " ")
  }

  /** One ` vdev ` per vdev, in order. */
  function VdevArgs(vdevList: seq<string>): seq<string> {
    seq(|vdevList|, k requires 0 <= k < |vdevList| => " " + vdevList[k] + " ")
  }

  /** The fragments `Build` hands to `appendCommand`: the operation first,
      every property before the pool, the pool before every vdev, and each
      list in the order it was given. */
  function Fragments(f: Fields): (r: seq<string>)
    ensures |r| == 2 + |f.property| + |f.vdevList|
    ensures r[0] == " add "
    ensures forall k :: 0 <= k < |f.property| ==> r[1 + k] == " -o " + f.property[k] + " "
    ensures r[1 + |f.property|] == f.pool
    ensures forall k :: 0 <= k < |f.vdevList| ==> r[2 + |f.property| + k] == " " + f.vdevList[k] + " "
  {
    [" " + Operation + " "] + (if IsPropertySet()(f) then PropertyFlags(f.property) else [])
    + [f.pool] + VdevArgs(f.vdevList)
  }

  /** The command line as intended: the operation and the property flags,
      then the pool, then the vdevs. */
  lemma {:induction false} CommandLineLayout(f: Fields)
    ensures var r := Fragments(f);
      var n := 1 + |f.property|;
      Concat(r) == Concat(r[..n]) + f.pool + Concat(r[n + 1..])
    ensures var head := Concat(Fragments(f)[..1 + |f.property|]);
      5 <= |head| && head[..5] == " add "
  {
    var r := Fragments(f);
    var n := 1 + |f.property|;
    assert r == r[..n] + r[n..];
    ConcatAppend(r[..n], r[n..]);
    assert r[n..] == [f.pool] + r[n + 1..];
    ConcatAppend([f.pool], r[n + 1..]);
    assert Concat([f.pool]) == f.pool + Concat([]);
    assert r[..n][0] == " add ";
  }

  /** As written the built command line is empty; as intended it is not. */
  lemma BuildLosesCommand(f: Fields)
    ensures WriteByValue("", Fragments(f)) == ""
    ensures WriteByPointer("", Fragments(f)) == Concat(Fragments(f)) != ""
  {
    WriteByValueLosesFragments("", Fragments(f));
    WriteByPointerConcatenates("", Fragments(f));
    assert Concat(Fragments(f))[..5] == " add ";
  }

  /** The intended string builder at work: each fragment of `Build`
      appended in turn. */
  method WriteFragments(f: Fields) returns (c: string)
    ensures c == Concat(Fragments(f))
  {
    var flags := if IsPropertySet()(f) then PropertyFlags(f.property) else [];
    c := " " + Operation + " ";
    assert c == Concat([" add "]);
    c := AppendAll(c, flags);
    ConcatAppend([" add "], flags);
    c := c + f.pool;
    ConcatSnoc([" add "] + flags, f.pool);
    c := AppendAll(c, VdevArgs(f.vdevList));
    ConcatAppend([" add "] + flags + [f.pool], VdevArgs(f.vdevList));
  }

  class PoolExpansion {
    var vdevList: seq<string>
    var property: seq<string>
    var pool: string
    var command: string
    var predicatelist: seq<PredicateFunc>
    var err: Option<Failure>

    function View(): Fields
      reads this
    {
      Fields(vdevList, property, pool, command)
    }

    /** `NewPoolExpansion`: every field empty, no check, no error. */
    constructor ()
      ensures View() == Fields([], [], "", "")
      ensures predicatelist == [] && err == None
    {
      vdevList := [];
      property := [];
      pool := "";
      command := "";
      predicatelist := [];
      err := None;
    }

    method WithCheck(preds: seq<PredicateFunc>)
      modifies this
      ensures predicatelist == old(predicatelist) + preds
      ensures View() == old(View()) && err == old(err)
    {
      predicatelist := predicatelist + preds;
    }

    /** Adds one vdev at the end; afterwards `IsVdevListSet` holds. */
    method WithVdevList(vdev: string)
      modifies this
      ensures View() == old(View()).(vdevList := old(vdevList) + [vdev])
      ensures IsVdevListSet()(View())
      ensures predicatelist == old(predicatelist) && err == old(err)
    {
      vdevList := vdevList + [vdev];
    }

    /** Adds the property `key=value` at the end. */
    method WithProperty(key: string, value: string)
      modifies this
      ensures View() == old(View()).(property := old(property) + [key + "=" + value])
      ensures IsPropertySet()(View())
      ensures predicatelist == old(predicatelist) && err == old(err)
    {
      property := property + [key + "=" + value];
    }

    method WithPool(pool: string)
      modifies this
      ensures View() == old(View()).(pool := pool)
      ensures predicatelist == old(predicatelist) && err == old(err)
    {
      this.pool := pool;
    }

    method WithCommand(command: string)
      modifies this
      ensures View() == old(View()).(command := command)
      ensures predicatelist == old(predicatelist) && err == old(err)
    {
      this.command := command;
    }

    /** Evaluates every check, as intended: each failure is recorded. */
    method Validate()
      modifies this
      ensures View() == old(View()) && predicatelist == old(predicatelist)
      ensures err == Recorded(old(err), Failing(predicatelist, View(), 0))
    {
      err := ValidateChecks(predicatelist, View(), err);
    }

    /** Evaluates every check as written: a nil error stays nil. */
    method ValidateAsWritten()
      modifies this
      ensures View() == old(View()) && predicatelist == old(predicatelist)
      ensures err == RecordedAsWritten(old(err), Failing(predicatelist, View(), 0))
    {
      err := ValidateChecksAsWritten(predicatelist, View(), err);
    }

    /** Validates, then builds the command line from the fragments, as
        intended; returns the error. */
    method Build() returns (err': Option<Failure>)
      modifies this
      ensures command == Concat(Fragments(old(View())))
      ensures View() == old(View()).(command := command)
      ensures predicatelist == old(predicatelist)
      ensures err == Recorded(old(err), Failing(predicatelist, old(View()), 0)) && err' == err
    {
      Validate();
      command := WriteFragments(View());
      err' := err;
    }

    /** `Build` as written: every fragment goes to a copy of the string
        builder, so the command line is empty. */
    method BuildAsWritten() returns (err': Option<Failure>)
      modifies this
      ensures command == ""
      ensures View() == old(View()).(command := "")
      ensures predicatelist == old(predicatelist)
      ensures err == RecordedAsWritten(old(err), Failing(predicatelist, old(View()), 0)) && err' == err
    {
      ValidateAsWritten();
      var c := WriteByValue("", Fragments(View()));
      WriteByValueLosesFragments("", Fragments(View()));
      command := c;
      err' := err;
    }

    /** Builds, then refuses with the build error or runs zpool with the
        command line. */
    method Execute() returns (e: Execution)
      modifies this
      ensures e == ExecuteStep(Zpool, Recorded(old(err), Failing(old(predicatelist), old(View()), 0)),
                               Concat(Fragments(old(View()))))
    {
      var err' := Build();
      if err'.Some? {
        return NotRun(err'.value);
      }
      e := Ran(Zpool, [command]);
    }

    /** `Execute` as written: it builds with `BuildAsWritten`, so a builder
        whose error starts out nil runs zpool with an empty command line
        whatever its checks say. */
    method ExecuteAsWritten() returns (e: Execution)
      modifies this
      ensures e == ExecuteStep(Zpool, RecordedAsWritten(old(err), Failing(old(predicatelist), old(View()), 0)), "")
      ensures old(err) == None ==> e == Ran(Zpool, [""])
    {
      var err' := BuildAsWritten();
      if err'.Some? {
        return NotRun(err'.value);
      }
      e := Ran(Zpool, [command]);
    }
  }
}
