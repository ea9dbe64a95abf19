/**
 * The zfs snapshot builder (`VolumeSnapshot`). One builder serves three
 * operations, chosen by its operation type:
 *  - `snapshot` takes a snapshot of a dataset, optionally recursive and
 *    with properties;
 *  - `send` streams it to a remote target through `nc`, optionally
 *    deduplicated and incremental from a last snapshot;
 *  - `receive` is its counterpart.
 * Any other operation type builds nothing. The dry-run and compression
 * flags are kept but never reach the command line.
 */
module ZfsSnapshot {
  import opened Apis
  import opened ZfsCommand

  const SnapOperation := "snapshot"
  const SendOperation := "send"
  const RecvOperation := "receive"

  /** What a check sees of the builder. */
  datatype Fields = Fields(
    property: seq<string>,
    snapshot: string,
    dataset: string,
    opType: string,
    target: string,
    lastSnapshot: string,
    recursive: bool,
    dedup: bool,
    dryRun: bool,
    enableCompression: bool,
    command: string)

  type PredicateFunc = Fields -> bool

  function IsDedupSet(): (p: PredicateFunc)
    ensures forall f :: p(f) <==> f.dedup
  {
    (f: Fields) => f.dedup
  }

  function IsLastSnapshotSet(): (p: PredicateFunc)
    ensures forall f :: p(f) <==> f.lastSnapshot != ""
  {
    (f: Fields) => |f.lastSnapshot| != 0
  }

  function IsRecursiveSet(): (p: PredicateFunc)
    ensures forall f :: p(f) <==> f.recursive
  {
    (f: Fields) => f.recursive
  }

  function IsPropertySet(): (p: PredicateFunc)
    ensures forall f :: p(f) <==> f.property != []
  {
    (f: Fields) => |f.property| != 0
  }

  function Flag(b: bool): nat { if b then 1 else 0 }

  /** ` dataset@snapshot `: the snapshot every operation names. */
  function SnapshotArg(f: Fields): string {
    " " + f.dataset + "@" + f.snapshot + " "
  }

  /** The pipe to the remote end. */
  function NcPipe(f: Fields): string {
    " | nc " + f.target
  }

  /** One ` -o key=value` per property, in order. */
  function PropertyFlags(property: seq<string>): seq<string> {
    seq(|property|, k requires 0 <= k < |property| => " -o " + property[k])
  }

  /** The fragments `Build` hands to `appendCommand`, by operation type. */
  function Fragments(f: Fields): (r: seq<string>)
    ensures r == [] <==> f.opType !in {SnapOperation, SendOperation, RecvOperation}
    ensures r != [] ==> r[0] == " " + f.opType + " "
    ensures f.opType == SnapOperation ==>
      && |r| == 2 + Flag(f.recursive) + |f.property|
      && r[|r| - 1] == SnapshotArg(f)
      && (f.recursive ==> r[1] == " -r ")
      && forall k :: 0 <= k < |f.property| ==> r[1 + Flag(f.recursive) + k] == " -o " + f.property[k]
    ensures f.opType == SendOperation ==>
      && |r| == 3 + Flag(f.dedup) + Flag(f.lastSnapshot != "")
      && r[|r| - 2] == SnapshotArg(f) && r[|r| - 1] == NcPipe(f)
      && (f.dedup ==> r[1] == " -D ")
      && (f.lastSnapshot != "" ==> r[|r| - 3] == " -i @" + f.lastSnapshot + " ")
    ensures f.opType == RecvOperation ==> |r| == 3 && r[1] == SnapshotArg(f) && r[2] == NcPipe(f)
  {
    if f.opType == SendOperation then SendFragments(f)
    else if f.opType == RecvOperation then RecvFragments(f)
    else if f.opType == SnapOperation then SnapFragments(f)
    else []
  }

  function SendFragments(f: Fields): seq<string> {
    [" " + SendOperation + " "] + DedupFlag(f) + IncrementalFlag(f) + [SnapshotArg(f), NcPipe(f)]
  }

  function DedupFlag(f: Fields): seq<string> {
    if IsDedupSet()(f) then [" -D "] else []
  }

  function IncrementalFlag(f: Fields): seq<string> {
    if IsLastSnapshotSet()(f) then [" -i @" + f.lastSnapshot + " "] else []
  }

  function RecvFragments(f: Fields): seq<string> {
    [" " + RecvOperation + " ", SnapshotArg(f), NcPipe(f)]
  }

  function SnapFragments(f: Fields): seq<string> {
    [" " + SnapOperation + " "]
    + (if IsRecursiveSet()(f) then [" -r "] else [])
    + (if IsPropertySet()(f) then PropertyFlags(f.property) else [])
    + [SnapshotArg(f)]
  }

  /** The dry-run and compression flags never change what is built. */
  lemma DryRunAndCompressionIgnored(f: Fields, dryRun: bool, enableCompression: bool)
    ensures Fragments(f.(dryRun := dryRun, enableCompression := enableCompression)) == Fragments(f)
  {
  }

  /** Send and receive name the same snapshot and pipe to the same target,
      so a send and the receive it feeds agree on both. */
  lemma SendAndReceiveAgree(f: Fields)
    requires f.opType == SendOperation
    ensures var s := Fragments(f);
      var r := Fragments(f.(opType := RecvOperation));
      s[|s| - 2..] == r[1..]
  {
  }

  /** As written the built command line is empty; as intended it is not
      for any of the three operations. */
  lemma BuildLosesCommand(f: Fields)
    ensures WriteByValue("", Fragments(f)) == ""
    ensures WriteByPointer("", Fragments(f)) == Concat(Fragments(f))
    ensures f.opType in {SnapOperation, SendOperation, RecvOperation} ==> Concat(Fragments(f)) != ""
  {
    WriteByValueLosesFragments("", Fragments(f));
    WriteByPointerConcatenates("", Fragments(f));
    if Fragments(f) != [] {
      assert |Fragments(f)[0]| >= 1;
    }
  }

  /** The intended string builder at work: the fragments of the chosen
      operation appended in turn. */
  method WriteFragments(f: Fields) returns (c: string)
    ensures c == Concat(Fragments(f))
  {
    if f.opType == SendOperation {
      c := WriteSend(f);
    } else if f.opType == RecvOperation {
      c := WriteRecv(f);
    } else if f.opType == SnapOperation {
      c := WriteSnap(f);
    } else {
      c := "";
    }
  }

  method WriteSend(f: Fields) returns (c: string)
    ensures c == Concat(SendFragments(f))
  {
    c := " " + SendOperation + " ";
    ghost var frags := [c];
    assert c == Concat(frags);
    if IsDedupSet()(f) {
      ConcatSnoc(frags, " -D ");
      c, frags := c + " -D ", frags + [" -D "];
    }
    assert frags == [" " + SendOperation + " "] + DedupFlag(f) && c == Concat(frags);
    if IsLastSnapshotSet()(f) {
      ConcatSnoc(frags, " -i @" + f.lastSnapshot + " ");
      c, frags := c + " -i @" + f.lastSnapshot + " ", frags + [" -i @" + f.lastSnapshot + " "];
    }
    assert frags == [" " + SendOperation + " "] + DedupFlag(f) + IncrementalFlag(f) && c == Concat(frags);
    ghost var head := frags;
    c := AppendAll(c, [SnapshotArg(f), NcPipe(f)]);
    ConcatAppend(head, [SnapshotArg(f), NcPipe(f)]);
  }

  method WriteRecv(f: Fields) returns (c: string)
    ensures c == Concat(RecvFragments(f))
  {
    c := " " + RecvOperation + " ";
    ghost var frags := [c];
    assert c == Concat(frags);
    ConcatSnoc(frags, SnapshotArg(f));
    c, frags := c + SnapshotArg(f), frags + [SnapshotArg(f)];
    ConcatSnoc(frags, NcPipe(f));
    c, frags := c + NcPipe(f), frags + [NcPipe(f)];
    assert frags == RecvFragments(f);
  }

  method WriteSnap(f: Fields) returns (c: string)
    ensures c == Concat(SnapFragments(f))
  {
    c := " " + SnapOperation + " ";
    ghost var frags := [c];
    assert c == Concat(frags);
    if IsRecursiveSet()(f) {
      ConcatSnoc(frags, " -r ");
      c, frags := c + " -r ", frags + [" -r "];
    }
    if IsPropertySet()(f) {
      c := AppendAll(c, PropertyFlags(f.property));
      ConcatAppend(frags, PropertyFlags(f.property));
      frags := frags + PropertyFlags(f.property);
    }
    ConcatSnoc(frags, SnapshotArg(f));
    c, frags := c + SnapshotArg(f), frags + [SnapshotArg(f)];
    assert frags == SnapFragments(f);
  }

  class VolumeSnapshot {
    var property: seq<string>
    var snapshot: string
    var dataset: string
    var opType: string
    var target: string
    var lastSnapshot: string
    var recursive: bool
    var dedup: bool
    var dryRun: bool
    var enableCompression: bool
    var command: string
    var predicatelist: seq<PredicateFunc>
    var err: Option<Failure>

    function View(): Fields
      reads this
    {
      Fields(property, snapshot, dataset, opType, target, lastSnapshot,
             recursive, dedup, dryRun, enableCompression, command)
    }

    /** `NewVolumeSnapshot`: every field empty, no check, no error. */
    constructor ()
      ensures View() == Fields([], "", "", "", "", "", false, false, false, false, "")
      ensures predicatelist == [] && err == None
    {
      property := [];
      snapshot := "";
      dataset := "";
      opType := "";
      target := "";
      lastSnapshot := "";
      recursive := false;
      dedup := false;
      dryRun := false;
      enableCompression := false;
      command := "";
      predicatelist := [];
      err := None;
    }

    method WithCheck(preds: seq<PredicateFunc>)
      modifies this
      ensures predicatelist == old(predicatelist) + preds
      ensures View() == old(View()) && err == old(err)
    {
      predicatelist := predicatelist + preds;
    }

    /** Adds the property `key=value` at the end. */
    method WithProperty(key: string, value: string)
      modifies this
      ensures View() == old(View()).(property := old(property) + [key + "=" + value])
      ensures IsPropertySet()(View())
      ensures predicatelist == old(predicatelist) && err == old(err)
    {
      property := property + [key + "=" + value];
    }

    method WithRecursive(recursive: bool)
      modifies this
      ensures View() == old(View()).(recursive := recursive)
      ensures predicatelist == old(predicatelist) && err == old(err)
    {
      this.recursive := recursive;
    }

    method WithSnapshot(snapshot: string)
      modifies this
      ensures View() == old(View()).(snapshot := snapshot)
      ensures predicatelist == old(predicatelist) && err == old(err)
    {
      this.snapshot := snapshot;
    }

    method WithDataset(dataset: string)
      modifies this
      ensures View() == old(View()).(dataset := dataset)
      ensures predicatelist == old(predicatelist) && err == old(err)
    {
      this.dataset := dataset;
    }

    method WithOpType(opType: string)
      modifies this
      ensures View() == old(View()).(opType := opType)
      ensures predicatelist == old(predicatelist) && err == old(err)
    {
      this.opType := opType;
    }

    method WithTarget(target: string)
      modifies this
      ensures View() == old(View()).(target := target)
      ensures predicatelist == old(predicatelist) && err == old(err)
    {
      this.target := target;
    }

    method WithDedup(dedup: bool)
      modifies this
      ensures View() == old(View()).(dedup := dedup)
      ensures predicatelist == old(predicatelist) && err == old(err)
    {
      this.dedup := dedup;
    }

    method WithLastSnapshot(lastSnapshot: string)
      modifies this
      ensures View() == old(View()).(lastSnapshot := lastSnapshot)
      ensures predicatelist == old(predicatelist) && err == old(err)
    {
      this.lastSnapshot := lastSnapshot;
    }

    method WithDryRun(dryRun: bool)
      modifies this
      ensures View() == old(View()).(dryRun := dryRun)
      ensures predicatelist == old(predicatelist) && err == old(err)
    {
      this.dryRun := dryRun;
    }

    method WithEnableCompression(enableCompression: bool)
      modifies this
      ensures View() == old(View()).(enableCompression := enableCompression)
      ensures predicatelist == old(predicatelist) && err == old(err)
    {
      this.enableCompression := enableCompression;
    }

    method WithCommand(command: string)
      modifies this
      ensures View() == old(View()).(command := command)
      ensures predicatelist == old(predicatelist) && err == old(err)
    {
      this.command := command;
    }

    /** Evaluates every check, as intended: each failure is recorded. */
    method Validate()
      modifies this
      ensures View() == old(View()) && predicatelist == old(predicatelist)
      ensures err == Recorded(old(err), Failing(predicatelist, View(), 0))
    {
      err := ValidateChecks(predicatelist, View(), err);
    }

    /** Evaluates every check as written: a nil error stays nil. */
    method ValidateAsWritten()
      modifies this
      ensures View() == old(View()) && predicatelist == old(predicatelist)
      ensures err == RecordedAsWritten(old(err), Failing(predicatelist, View(), 0))
    {
      err := ValidateChecksAsWritten(predicatelist, View(), err);
    }

    /** Validates, then builds the command line of the chosen operation,
        as intended; returns the error. */
    method Build() returns (err': Option<Failure>)
      modifies this
      ensures command == Concat(Fragments(old(View())))
      ensures View() == old(View()).(command := command)
      ensures predicatelist == old(predicatelist)
      ensures err == Recorded(old(err), Failing(predicatelist, old(View()), 0)) && err' == err
    {
      Validate();
      command := WriteFragments(View());
      err' := err;
    }

    /** `Build` as written: every fragment goes to a copy of the string
        builder, so the command line is empty. */
    method BuildAsWritten() returns (err': Option<Failure>)
      modifies this
      ensures command == ""
      ensures View() == old(View()).(command := "")
      ensures predicatelist == old(predicatelist)
      ensures err == RecordedAsWritten(old(err), Failing(predicatelist, old(View()), 0)) && err' == err
    {
      ValidateAsWritten();
      var c := WriteByValue("", Fragments(View()));
      WriteByValueLosesFragments("", Fragments(View()));
      command := c;
      err' := err;
    }

    /** Builds, then refuses with the build error or runs zfs with the
        command line. */
    method Execute() returns (e: Execution)
      modifies this
      ensures e == ExecuteStep(Zfs, Recorded(old(err), Failing(old(predicatelist), old(View()), 0)),
                               Concat(Fragments(old(View()))))
    {
      var err' := Build();
      if err'.Some? {
        return NotRun(err'.value);
      }
      e := Ran(Zfs, [command]);
    }

    /** `Execute` as written: it builds with `BuildAsWritten`, so a builder
        whose error starts out nil runs zfs with an empty command line
        whatever its checks say. */
    method ExecuteAsWritten() returns (e: Execution)
      modifies this
      ensures e == ExecuteStep(Zfs, RecordedAsWritten(old(err), Failing(old(predicatelist), old(View()), 0)), "")
      ensures old(err) == None ==> e == Ran(Zfs, [""])
    {
      var err' := BuildAsWritten();
      if err'.Some? {
        return NotRun(err'.value);
      }
      e := Ran(Zfs, [command]);
    }
  }
}
