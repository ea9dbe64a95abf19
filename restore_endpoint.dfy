/**
 * The restore endpoint of the API server.
 *
 * A POST validates the request and writes one Pending restore per replica
 * of the volume, each named after the restore and a fresh UUID and labelled
 * with the replica's pool; a restore already stored under that name is
 * re-initialised instead. A GET folds the restores of the namespace into
 * one status, probing the pool of every restore that is still running and
 * writing Failed back for those whose pool went down.
 *
 * The UUIDs the POST generates are the parameter `uuid` (the i-th call
 * returns `uuid(i)`); the namespace's restore list is an input.
 */
module RestoreEndpoint {
  import opened Apis
  import opened Store
  import opened Restore
  import RestorePredicates
  import BackupEndpoint

  // ---------------------------------------------------------------------
  // Creating the restores

  /** The labels of the restore for one replica: the replica's pool and
      volume, and the restore name. */
  function RestoreLabels(cvr: CStorVolumeReplica, restoreName: string): (m: Labels)
    ensures m.Keys == {PoolUUID, OpenEBSPV, OpenEBSRestore}
    ensures m[PoolUUID] == LabelOf(cvr.labels, PoolUUID) && m[OpenEBSPV] == LabelOf(cvr.labels, OpenEBSPV)
    ensures m[OpenEBSRestore] == restoreName
  {
    map[PoolUUID := LabelOf(cvr.labels, PoolUUID), OpenEBSPV := LabelOf(cvr.labels, OpenEBSPV),
        OpenEBSRestore := restoreName]
  }

  /** Where the restore for the replica that got UUID `id` is stored. */
  function ReplicaRestoreKey(namespace: string, restoreName: string, id: string): Key {
    Key(namespace, restoreName + "-" + id)
  }

  /** Distinct UUIDs give distinct restores. */
  lemma ReplicaRestoreKeysDiffer(namespace: string, restoreName: string, a: string, b: string)
    requires a != b
    ensures ReplicaRestoreKey(namespace, restoreName, a) != ReplicaRestoreKey(namespace, restoreName, b)
  {
    var x, y := restoreName + "-" + a, restoreName + "-" + b;
    assert x[|restoreName| + 1..] == a && y[|restoreName| + 1..] == b;
  }

  /** One pass of the loop of `createRestoreResource`: rename the restore
      with the fresh UUID and read that name; when the read fails (for any
      reason) create the restore as Pending with the replica's labels,
      otherwise re-initialise the stored one as Pending with the request's
      spec and the replica's labels. A failed write is a 500. The request
      object keeps the new name, and after a create the status and labels. */
  function RestoreForReplicaStep(w: World, r: Apis.CStorRestore, cvr: CStorVolumeReplica, id: string)
    : (res: (World, Apis.CStorRestore, Option<HttpError>))
    ensures res.1.spec == r.spec && res.1.namespace == r.namespace
    ensures res.0.backups == w.backups && res.0.completed == w.completed && res.0.transfers == w.transfers
  {
    var r0 := r.(name := ObjName(r, id));
    var (w1, g) := GetRestoreStep(w, Key(r0.namespace, r0.name));
    if g.Err? then
      var r1 := r0.(status := StatusPending, labels := RestoreLabels(cvr, r0.spec.restoreName));
      var (w2, c) := CreateRestoreStep(w1, r1);
      (w2, r1, if c.Err? then Some(CodedError(500, c.error)) else None)
    else
      var reinit := g.value.(status := StatusPending, spec := r0.spec, labels := RestoreLabels(cvr, r0.spec.restoreName));
      var (w2, u) := UpdateRestoreStep(w1, reinit);
      (w2, r0, if u.Err? then Some(CodedError(500, u.error)) else None)
  }

  /** The restore stored for a replica: Pending, with the request's spec and
      the replica's labels. */
  ghost predicate Placed(m: map<Key, Apis.CStorRestore>, namespace: string, spec: RestoreSpec, cvr: CStorVolumeReplica, id: string) {
    var k := ReplicaRestoreKey(namespace, spec.restoreName, id);
    && k in m && m[k].ObjKey() == k
    && m[k].status == StatusPending && m[k].spec == spec && m[k].labels == RestoreLabels(cvr, spec.restoreName)
  }

  /** On a store that accepts every call, one pass stores the restore for
      its replica and touches no other restore. */
  lemma RestoreForReplicaHealthy(w: World, r: Apis.CStorRestore, cvr: CStorVolumeReplica, id: string)
    requires WellKeyed(w) && Healthy(w)
    ensures var (w', _, err) := RestoreForReplicaStep(w, r, cvr, id);
      var k := ReplicaRestoreKey(r.namespace, r.spec.restoreName, id);
      && err == None && WellKeyed(w') && Healthy(w')
      && Placed(w'.restores, r.namespace, r.spec, cvr, id)
      && w'.restores.Keys == w.restores.Keys + {k}
      && (forall k' :: k' in w.restores && k' != k ==> w'.restores[k'] == w.restores[k'])
  {
    var k := ReplicaRestoreKey(r.namespace, r.spec.restoreName, id);
    StepsKeepWellKeyed(w);
    StepsKeepWellKeyed(Answered(w));
    if k in w.restores {
      assert w.restores[k].ObjKey() == k;
    }
  }

  /** The loop of `createRestoreResource` from replica `i` on; it stops at
      the first failed write. */
  function FanOutStep(w: World, r: Apis.CStorRestore, cvrs: seq<CStorVolumeReplica>, i: nat, uuid: nat -> string)
    : (res: (World, Apis.CStorRestore, Option<HttpError>))
    requires i <= |cvrs|
    decreases |cvrs| - i
    ensures res.1.spec == r.spec && res.1.namespace == r.namespace
    ensures res.0.backups == w.backups && res.0.completed == w.completed && res.0.transfers == w.transfers
  {
    if i == |cvrs| then (w, r, None)
    else
      var (w1, r1, err) := RestoreForReplicaStep(w, r, cvrs[i], uuid(i));
      if err.Some? then (w1, r1, err) else FanOutStep(w1, r1, cvrs, i + 1, uuid)
  }

  /** The UUIDs handed out from call `i` to call `n` are distinct. */
  predicate DistinctUUIDs(uuid: nat -> string, i: nat, n: nat) {
    forall a: nat, b: nat :: i <= a < b < n ==> uuid(a) != uuid(b)
  }

  /** Key `k` is where one of the calls `i` to `n` places its restore. */
  ghost predicate ClaimedKey(k: Key, namespace: string, restoreName: string, uuid: nat -> string, i: nat, n: nat) {
    exists j: nat :: i <= j < n && k == ReplicaRestoreKey(namespace, restoreName, uuid(j))
  }

  /** On a store that accepts every call, with distinct UUIDs, the loop
      stores a Pending restore for every replica and leaves every other
      restore as it was. */
  lemma {:induction false} FanOutHealthy(w: World, r: Apis.CStorRestore, cvrs: seq<CStorVolumeReplica>, i: nat, uuid: nat -> string)
    requires WellKeyed(w) && Healthy(w)
    requires i <= |cvrs|
    requires DistinctUUIDs(uuid, i, |cvrs|)
    decreases |cvrs| - i
    ensures var (w', _, err) := FanOutStep(w, r, cvrs, i, uuid);
      && err == None && WellKeyed(w') && Healthy(w')
      && (forall j :: i <= j < |cvrs| ==> Placed(w'.restores, r.namespace, r.spec, cvrs[j], uuid(j)))
      && w.restores.Keys <= w'.restores.Keys
      && (forall k :: k in w.restores && !ClaimedKey(k, r.namespace, r.spec.restoreName, uuid, i, |cvrs|) ==>
            w'.restores[k] == w.restores[k])
  {
    if i < |cvrs| {
      var ns, rn := r.namespace, r.spec.restoreName;
      var (w1, r1, _) := RestoreForReplicaStep(w, r, cvrs[i], uuid(i));
      RestoreForReplicaHealthy(w, r, cvrs[i], uuid(i));
      FanOutHealthy(w1, r1, cvrs, i + 1, uuid);
      var w' := FanOutStep(w1, r1, cvrs, i + 1, uuid).0;
      var ki := ReplicaRestoreKey(ns, rn, uuid(i));
      assert !ClaimedKey(ki, ns, rn, uuid, i + 1, |cvrs|) by {
        forall j: nat | i + 1 <= j < |cvrs|
          ensures ki != ReplicaRestoreKey(ns, rn, uuid(j))
        {
          ReplicaRestoreKeysDiffer(ns, rn, uuid(i), uuid(j));
        }
      }
      assert Placed(w'.restores, ns, r.spec, cvrs[i], uuid(i)) by {
        assert w'.restores[ki] == w1.restores[ki];
      }
      forall k | k in w.restores && !ClaimedKey(k, ns, rn, uuid, i, |cvrs|)
        ensures w'.restores[k] == w.restores[k]
      {
        assert k != ki;
        assert !ClaimedKey(k, ns, rn, uuid, i + 1, |cvrs|);
      }
    }
  }

  /** `createRestoreResource`: the replicas of the volume, then the loop. The
      client and list errors are 500s. */
  function CreateRestoreResourceStep(w: World, o: Orchestrator, r: Apis.CStorRestore, uuid: nat -> string)
    : (World, Apis.CStorRestore, Option<HttpError>)
  {
    if !o.clientOk then (w, r, Some(CodedError(500, ClientUnavailable)))
    else match o.replicas
      case None => (w, r, Some(CodedError(500, Quoted(ReplicaListFailed))))
      case Some(all) => FanOutStep(w, r, BackupEndpoint.VolumeReplicas(all, r.spec.volumeName), 0, uuid)
  }

  /** On a store that accepts every call, with distinct UUIDs, every replica
      of the volume gets its Pending restore; the jobs and the ledger stay. */
  lemma CreateRestoreResourceHealthy(w: World, o: Orchestrator, r: Apis.CStorRestore, uuid: nat -> string)
    requires WellKeyed(w) && Healthy(w)
    requires o.clientOk && o.replicas.Some?
    requires DistinctUUIDs(uuid, 0, |BackupEndpoint.VolumeReplicas(o.replicas.value, r.spec.volumeName)|)
    ensures var cvrs := BackupEndpoint.VolumeReplicas(o.replicas.value, r.spec.volumeName);
      var (w', _, err) := CreateRestoreResourceStep(w, o, r, uuid);
      && err == None
      && w'.backups == w.backups && w'.completed == w.completed
      && (forall j :: 0 <= j < |cvrs| ==> Placed(w'.restores, r.namespace, r.spec, cvrs[j], uuid(j)))
      && (forall j :: 0 <= j < |cvrs| ==> BackupEndpoint.ServesVolume(cvrs[j], r.spec.volumeName))
  {
    var cvrs := BackupEndpoint.VolumeReplicas(o.replicas.value, r.spec.volumeName);
    FanOutHealthy(w, r, cvrs, 0, uuid);
    assert forall j :: 0 <= j < |cvrs| ==> cvrs[j] in cvrs;
  }

  /** Without a client or a replica list nothing is written. */
  lemma CreateRestoreResourceRefusals(w: World, o: Orchestrator, r: Apis.CStorRestore, uuid: nat -> string)
    ensures !o.clientOk ==>
      CreateRestoreResourceStep(w, o, r, uuid) == (w, r, Some(CodedError(500, ClientUnavailable)))
    ensures o.clientOk && o.replicas.None? ==>
      CreateRestoreResourceStep(w, o, r, uuid) == (w, r, Some(CodedError(500, Quoted(ReplicaListFailed))))
    ensures o.clientOk && o.replicas.Some? ==>
      BackupEndpoint.VolumeReplicas(o.replicas.value, r.spec.volumeName) == [] ==>
      CreateRestoreResourceStep(w, o, r, uuid) == (w, r, None)
  {
  }

  /** One pass of the loop on the wrapper. */
  method RestoreForReplica(rst: Restore.CStorRestore, cvr: CStorVolumeReplica, id: string) returns (err: Option<HttpError>)
    modifies rst, rst.client
    ensures (rst.client.State(), rst.obj, err) == RestoreForReplicaStep(old(rst.client.State()), old(rst.obj), cvr, id)
  {
    rst.SetObjName(id);
    var g := rst.GetCR(rst.obj.name);
    if g.Err? {
      rst.SetStatus(StatusPending);
      rst.SetLabel(RestoreLabels(cvr, rst.obj.spec.restoreName));
      var c := rst.CreateCR(rst.obj);
      if c.Err? {
        return Some(CodedError(500, c.error));
      }
      return None;
    }
    var oldrst := new Restore.CStorRestore(g.value, rst.client);
    oldrst.SetStatus(StatusPending);
    oldrst.CopySpec(rst);
    oldrst.SetLabel(RestoreLabels(cvr, rst.obj.spec.restoreName));
    var u := rst.UpdateCR(oldrst.obj);
    if u.Err? {
      return Some(CodedError(500, u.error));
    }
    return None;
  }

  /** `createRestoreResource` on the wrapper of the request. */
  method CreateRestoreResource(o: Orchestrator, rst: Restore.CStorRestore, uuid: nat -> string) returns (err: Option<HttpError>)
    modifies rst, rst.client
    ensures (rst.client.State(), rst.obj, err) == CreateRestoreResourceStep(old(rst.client.State()), o, old(rst.obj), uuid)
  {
    if !o.clientOk {
      return Some(CodedError(500, ClientUnavailable));
    }
    if o.replicas.None? {
      return Some(CodedError(500, Quoted(ReplicaListFailed)));
    }
    var cvrs := BackupEndpoint.VolumeReplicas(o.replicas.value, rst.obj.spec.volumeName);
    assert cvrs == BackupEndpoint.VolumeReplicas(o.replicas.value, old(rst.obj).spec.volumeName);
    for i := 0 to |cvrs|
      invariant rst.obj.spec == old(rst.obj).spec
      invariant FanOutStep(rst.client.State(), rst.obj, cvrs, i, uuid)
             == FanOutStep(old(rst.client.State()), old(rst.obj), cvrs, 0, uuid)
    {
      err := RestoreForReplica(rst, cvrs[i], uuid(i));
      if err.Some? {
        return;
      }
    }
    return None;
  }

  // ---------------------------------------------------------------------
  // The status of a restore

  /** `getCVRRestoreStatus`: a restore that is neither Failed nor Done and
      whose pool cannot be probed counts as InProgress; one whose pool is
      down counts as Failed; otherwise its stored status counts. */
  function CVRRestoreStatus(o: Orchestrator, nr: Apis.CStorRestore): (st: string)
    ensures IsFailedStatus(nr) || IsDoneStatus(nr) ==> st == nr.status
    ensures st == nr.status || st == StatusInProgress || st == StatusFailed
  {
    if IsFailedStatus(nr) || IsDoneStatus(nr) then nr.status
    else
      var id := LabelOf(nr.labels, PoolUUID);
      var (nodeDown, nodeErr) := BackupEndpoint.PoolNodeDown(o, id);
      var (podDown, podErr) := BackupEndpoint.PoolPodDown(o, id);
      if nodeErr.Some? || podErr.Some? then StatusInProgress
      else if nodeDown || podDown then StatusFailed
      else nr.status
  }

  /** A listed restore that is written back: it counts as Failed and is
      not stored as Failed yet. */
  predicate NeedsWriteBack(o: Orchestrator, nr: Apis.CStorRestore) {
    CVRRestoreStatus(o, nr) == StatusFailed && nr.status != StatusFailed
  }

  /** One listed restore: its status, and the write-back of Failed when it
      needs one (a failed write is ignored). */
  function RecordStatusStep(w: World, o: Orchestrator, nr: Apis.CStorRestore): (res: (World, string))
    ensures res.1 == CVRRestoreStatus(o, nr)
    ensures !NeedsWriteBack(o, nr) ==> res.0 == w
  {
    var st := CVRRestoreStatus(o, nr);
    if st == StatusFailed && nr.status != st then (UpdateRestoreStep(w, nr.(status := st)).0, st)
    else (w, st)
  }

  /** Whatever the store answers, one listed restore changes at most its own
      record, and only to itself with status Failed; on a store that accepts
      every call, a stored restore that needs the write-back gets it. */
  lemma RecordStatusEffect(w: World, o: Orchestrator, nr: Apis.CStorRestore)
    requires WellKeyed(w)
    ensures var w' := RecordStatusStep(w, o, nr).0;
      && WellKeyed(w') && w'.backups == w.backups && w'.completed == w.completed && w'.transfers == w.transfers
      && w'.restores.Keys == w.restores.Keys
      && (forall k :: k in w.restores && k != nr.ObjKey() ==> w'.restores[k] == w.restores[k])
      && (nr.ObjKey() in w.restores ==>
            w'.restores[nr.ObjKey()] == w.restores[nr.ObjKey()] || w'.restores[nr.ObjKey()] == nr.(status := StatusFailed))
    ensures Healthy(w) ==> Healthy(RecordStatusStep(w, o, nr).0)
    ensures Healthy(w) && NeedsWriteBack(o, nr) && nr.ObjKey() in w.restores ==>
      RecordStatusStep(w, o, nr).0.restores[nr.ObjKey()] == nr.(status := StatusFailed)
  {
    if NeedsWriteBack(o, nr) {
      UpdateRestoreWrites(w, nr.(status := StatusFailed));
    }
  }

  /** The status each listed restore counts as. */
  function CVRStatuses(o: Orchestrator, items: seq<Apis.CStorRestore>): (sts: seq<string>)
    ensures |sts| == |items|
    ensures forall j :: 0 <= j < |items| ==> sts[j] == CVRRestoreStatus(o, items[j])
  {
    seq(|items|, j requires 0 <= j < |items| => CVRRestoreStatus(o, items[j]))
  }

  /** How the loop of `getRestoreStatus` folds one more restore's status into
      the answer. As written (`keepFailed` false) the new status replaces the
      answer: the test that was to keep an earlier Failed compares the new
      status with itself. As intended (`keepFailed` true) a Done restore
      leaves an earlier Failed answer standing. */
  function Combine(keepFailed: bool, acc: string, st: string): (r: string)
    ensures r == st || (keepFailed && r == StatusFailed && acc == StatusFailed && st == StatusDone)
  {
    if keepFailed && st == StatusDone && acc == StatusFailed then StatusFailed else st
  }

  /** The answer the loop computes from the statuses, from `i` on: it stops
      at the first InProgress. */
  function FoldStatuses(sts: seq<string>, i: nat, acc: string, keepFailed: bool): string
    requires i <= |sts|
    decreases |sts| - i
  {
    if i == |sts| then acc
    else
      var acc' := Combine(keepFailed, acc, sts[i]);
      if acc' == StatusInProgress then acc' else FoldStatuses(sts, i + 1, acc', keepFailed)
  }

  /** The loop of `getRestoreStatus` from restore `i` on, with the answer so
      far. The answer depends on the statuses alone, not on the store. */
  function StatusFold(w: World, o: Orchestrator, items: seq<Apis.CStorRestore>, i: nat, acc: string, keepFailed: bool)
    : (res: (World, string))
    requires i <= |items|
    decreases |items| - i
    ensures res.0.backups == w.backups && res.0.completed == w.completed && res.0.transfers == w.transfers
    ensures res.1 == FoldStatuses(CVRStatuses(o, items), i, acc, keepFailed)
  {
    if i == |items| then (w, acc)
    else
      var (w1, st) := RecordStatusStep(w, o, items[i]);
      var acc' := Combine(keepFailed, acc, st);
      if acc' == StatusInProgress then (w1, acc') else StatusFold(w1, o, items, i + 1, acc', keepFailed)
  }

  /** `getRestoreStatus` over the namespace's restores (None when the list
      cannot be built): the answer starts empty. */
  function GetRestoreStatusStep(w: World, o: Orchestrator, list: Option<seq<Apis.CStorRestore>>, keepFailed: bool)
    : (World, string, Option<Error>)
  {
    match list
    case None => (w, StatusEmpty, Some(Unavailable))
    case Some(items) =>
      var (w', st) := StatusFold(w, o, items, 0, StatusEmpty, keepFailed);
      (w', st, None)
  }

  /** Some status from `i` on is `status`. */
  predicate AnyIs(sts: seq<string>, i: nat, status: string) {
    exists j :: i <= j < |sts| && sts[j] == status
  }

  /** As written, the answer is InProgress when any restore counts as
      InProgress, and otherwise the status of the last restore listed (or
      the answer so far when none is left). */
  lemma {:induction false} FoldStatusesAsWritten(sts: seq<string>, i: nat, acc: string)
    requires i <= |sts|
    decreases |sts| - i
    ensures FoldStatuses(sts, i, acc, false) ==
      if AnyIs(sts, i, StatusInProgress) then StatusInProgress
      else if i == |sts| then acc
      else sts[|sts| - 1]
  {
    if i < |sts| && sts[i] != StatusInProgress {
      FoldStatusesAsWritten(sts, i + 1, sts[i]);
      assert AnyIs(sts, i, StatusInProgress) == AnyIs(sts, i + 1, StatusInProgress);
    }
  }

  /** Every status from `i` on is Done or Failed. */
  predicate AllSettled(sts: seq<string>, i: nat) {
    forall j :: i <= j < |sts| ==> sts[j] == StatusDone || sts[j] == StatusFailed
  }

  /** As intended, when every restore has settled, the answer is Failed
      exactly when one of them failed (or the answer was Failed already), and
      Done otherwise. */
  lemma {:induction false} FoldStatusesKeepsFailed(sts: seq<string>, i: nat, acc: string)
    requires i < |sts|
    requires AllSettled(sts, i)
    decreases |sts| - i
    ensures var st := FoldStatuses(sts, i, acc, true);
      && (st == StatusFailed <==> acc == StatusFailed || AnyIs(sts, i, StatusFailed))
      && (st == StatusDone <==> !(acc == StatusFailed || AnyIs(sts, i, StatusFailed)))
  {
    var acc' := Combine(true, acc, sts[i]);
    if i + 1 < |sts| {
      FoldStatusesKeepsFailed(sts, i + 1, acc');
      assert AnyIs(sts, i, StatusFailed) <==> sts[i] == StatusFailed || AnyIs(sts, i + 1, StatusFailed);
    } else {
      assert AnyIs(sts, i, StatusFailed) <==> sts[i] == StatusFailed;
    }
  }

  /** The GET as written answers InProgress when some restore of the
      namespace counts as InProgress, and otherwise the status of the last
      one listed. */
  lemma GetRestoreStatusAsWritten(w: World, o: Orchestrator, items: seq<Apis.CStorRestore>)
    ensures var (_, st, err) := GetRestoreStatusStep(w, o, Some(items), false);
      && err == None
      && st == if exists j :: 0 <= j < |items| && CVRRestoreStatus(o, items[j]) == StatusInProgress then StatusInProgress
               else if |items| == 0 then StatusEmpty
               else CVRRestoreStatus(o, items[|items| - 1])
  {
    FoldStatusesAsWritten(CVRStatuses(o, items), 0, StatusEmpty);
  }

  /** The GET with the intended fold: when every restore of the namespace has
      settled, it answers Done exactly when all of them are Done. */
  lemma GetRestoreStatusSettled(w: World, o: Orchestrator, items: seq<Apis.CStorRestore>)
    requires |items| > 0
    requires forall j :: 0 <= j < |items| ==> CVRRestoreStatus(o, items[j]) in {StatusDone, StatusFailed}
    ensures var (_, st, err) := GetRestoreStatusStep(w, o, Some(items), true);
      && err == None
      && (st == StatusDone <==> forall j :: 0 <= j < |items| ==> CVRRestoreStatus(o, items[j]) == StatusDone)
      && (st == StatusFailed <==> exists j :: 0 <= j < |items| && CVRRestoreStatus(o, items[j]) == StatusFailed)
  {
    var sts := CVRStatuses(o, items);
    FoldStatusesKeepsFailed(sts, 0, StatusEmpty);
    assert AnyIs(sts, 0, StatusFailed) <==> exists j :: 0 <= j < |items| && CVRRestoreStatus(o, items[j]) == StatusFailed;
  }

  /** Two settled restores, the first Failed and the second Done, are
      reported Done as written, and Failed as intended. */
  lemma FailedThenDone(w: World, o: Orchestrator, a: Apis.CStorRestore)
    ensures var items := [a.(status := StatusFailed), a.(status := StatusDone)];
      && GetRestoreStatusStep(w, o, Some(items), false).1 == StatusDone
      && GetRestoreStatusStep(w, o, Some(items), true).1 == StatusFailed
  {
    var items := [a.(status := StatusFailed), a.(status := StatusDone)];
    var sts := CVRStatuses(o, items);
    assert sts == [StatusFailed, StatusDone];
    assert FoldStatuses(sts, 2, StatusDone, false) == StatusDone;
    assert FoldStatuses(sts, 2, StatusFailed, true) == StatusFailed;
  }

  /** Some listed restore from `i` on has key `k`. */
  ghost predicate Listed(items: seq<Apis.CStorRestore>, i: nat, k: Key) {
    exists j :: i <= j < |items| && items[j].ObjKey() == k
  }

  /** Whatever the store answers, the status read writes nothing but listed
      restores with status Failed; the jobs, the ledger, the set of restores
      and the restores not listed stay. */
  lemma {:induction false} StatusFoldEffect(w: World, o: Orchestrator, items: seq<Apis.CStorRestore>, i: nat, acc: string, keepFailed: bool)
    requires WellKeyed(w)
    requires i <= |items|
    decreases |items| - i
    ensures var w' := StatusFold(w, o, items, i, acc, keepFailed).0;
      && WellKeyed(w')
      && w'.restores.Keys == w.restores.Keys
      && (forall k :: k in w.restores ==> w'.restores[k] == w.restores[k] || w'.restores[k].status == StatusFailed)
      && (forall k :: k in w.restores && !Listed(items, i, k) ==> w'.restores[k] == w.restores[k])
  {
    if i < |items| {
      var (w1, st) := RecordStatusStep(w, o, items[i]);
      RecordStatusEffect(w, o, items[i]);
      var acc' := Combine(keepFailed, acc, st);
      if acc' != StatusInProgress {
        StatusFoldEffect(w1, o, items, i + 1, acc', keepFailed);
        var w' := StatusFold(w1, o, items, i + 1, acc', keepFailed).0;
        forall k | k in w.restores
          ensures w'.restores[k] == w.restores[k] || w'.restores[k].status == StatusFailed
        {
          if w'.restores[k] != w1.restores[k] {
          } else if k == items[i].ObjKey() {
          }
        }
        forall k | k in w.restores && !Listed(items, i, k)
          ensures w'.restores[k] == w.restores[k]
        {
          assert items[i].ObjKey() != k;
          assert !Listed(items, i + 1, k);
        }
      }
    }
  }

  /** On a store that accepts every call, a stored restore that needs the
      write-back gets it, provided the loop reaches it (no earlier restore
      counts as InProgress) and no later listed restore has its key. */
  lemma {:induction false} StatusFoldWritesFailed(w: World, o: Orchestrator, items: seq<Apis.CStorRestore>, i: nat, acc: string, keepFailed: bool, j: nat)
    requires WellKeyed(w) && Healthy(w)
    requires i <= j < |items|
    requires forall l :: i <= l < j ==> CVRRestoreStatus(o, items[l]) != StatusInProgress
    requires !Listed(items, j + 1, items[j].ObjKey())
    requires items[j].ObjKey() in w.restores
    requires NeedsWriteBack(o, items[j])
    decreases |items| - i
    ensures var w' := StatusFold(w, o, items, i, acc, keepFailed).0;
      items[j].ObjKey() in w'.restores && w'.restores[items[j].ObjKey()] == items[j].(status := StatusFailed)
  {
    var (w1, st) := RecordStatusStep(w, o, items[i]);
    RecordStatusEffect(w, o, items[i]);
    var acc' := Combine(keepFailed, acc, st);
    if i == j {
      StatusFoldEffect(w1, o, items, i + 1, acc', keepFailed);
    } else {
      StatusFoldWritesFailed(w1, o, items, i + 1, acc', keepFailed, j);
    }
  }

  /** `getCVRRestoreStatus` on a listed restore. */
  method GetCVRRestoreStatus(o: Orchestrator, nr: Apis.CStorRestore) returns (st: string)
    ensures st == CVRRestoreStatus(o, nr)
  {
    if !IsFailedStatus(nr) && !IsDoneStatus(nr) {
      var nodeDown, nodeErr := BackupEndpoint.CheckIfPoolNodeDown(o, LabelOf(nr.labels, PoolUUID));
      var podDown, podErr := BackupEndpoint.CheckIfPoolPodDown(o, LabelOf(nr.labels, PoolUUID));
      if nodeErr.Some? || podErr.Some? {
        return StatusInProgress;
      }
      if nodeDown || podDown {
        return StatusFailed;
      }
    }
    return nr.status;
  }

  /** One pass of the loop of `getRestoreStatus`, on the store's client. */
  method RecordStatus(client: ApiServer, o: Orchestrator, item: Apis.CStorRestore) returns (st: string)
    modifies client
    ensures (client.State(), st) == RecordStatusStep(old(client.State()), o, item)
  {
    var nr := new Restore.CStorRestore(item, client);
    st := GetCVRRestoreStatus(o, nr.obj);
    if st == StatusFailed && nr.obj.status != st {
      nr.SetStatus(st);
      var _ := nr.UpdateCR(nr.obj);
    }
  }

  /** `getRestoreStatus` on the store's client: the fold as written when
      `keepFailed` is false, the intended one when it holds. */
  method GetRestoreStatus(client: ApiServer, o: Orchestrator, list: Option<seq<Apis.CStorRestore>>, keepFailed: bool)
    returns (status: string, err: Option<Error>)
    modifies client
    ensures (client.State(), status, err) == GetRestoreStatusStep(old(client.State()), o, list, keepFailed)
  {
    if list.None? {
      return StatusEmpty, Some(Unavailable);
    }
    var items := list.value;
    status := StatusEmpty;
    var i := 0;
    while i < |items|
      invariant 0 <= i <= |items|
      invariant StatusFold(client.State(), o, items, i, status, keepFailed)
             == StatusFold(old(client.State()), o, items, 0, StatusEmpty, keepFailed)
    {
      var st := RecordStatus(client, o, items[i]);
      status := Combine(keepFailed, status, st);
      if status == StatusInProgress {
        return status, None;
      }
      i := i + 1;
    }
    return status, None;
  }

  // ---------------------------------------------------------------------
  // The HTTP handlers

  /** The checks a restore create request must pass. */
  const CreateChecks: seq<RestorePredicates.PredicateFunc> := [
    RestorePredicates.IsRestoreNameSet(), RestorePredicates.IsVolumeNameSet(),
    RestorePredicates.IsNamespaceSet(), RestorePredicates.IsRestoreSrcSet()]

  /** The checks a restore get request must pass. */
  const GetChecks: seq<RestorePredicates.PredicateFunc> := [
    RestorePredicates.IsRestoreNameSet(), RestorePredicates.IsNamespaceSet(),
    RestorePredicates.IsVolumeNameSet()]

  /** The record builder accepts an object when every check holds for it. */
  predicate PassesChecks(checks: seq<RestorePredicates.PredicateFunc>, a: Apis.CStorRestore) {
    forall i :: 0 <= i < |checks| ==> checks[i](a)
  }

  /** A create request is accepted exactly when the restore name, the volume
      name, the namespace and the source are set. */
  lemma CreateChecksFields(a: Apis.CStorRestore)
    ensures PassesChecks(CreateChecks, a) <==>
      a.spec.restoreName != "" && a.spec.volumeName != "" && a.namespace != "" && a.spec.restoreSrc != ""
  {
    if PassesChecks(CreateChecks, a) {
      assert CreateChecks[0](a) && CreateChecks[1](a) && CreateChecks[2](a) && CreateChecks[3](a);
    }
  }

  /** A get request is accepted exactly when the restore name, the namespace
      and the volume name are set. */
  lemma GetChecksFields(a: Apis.CStorRestore)
    ensures PassesChecks(GetChecks, a) <==>
      a.spec.restoreName != "" && a.namespace != "" && a.spec.volumeName != ""
  {
    if PassesChecks(GetChecks, a) {
      assert GetChecks[0](a) && GetChecks[1](a) && GetChecks[2](a);
    }
  }

  /** The POST handler: a request that fails a check is a 400; otherwise
      `createRestoreResource`. */
  function CreateStep(w: World, o: Orchestrator, req: Apis.CStorRestore, uuid: nat -> string): (World, Option<HttpError>) {
    if !PassesChecks(CreateChecks, req) then (w, Some(CodedError(400, Quoted(InvalidRequest))))
    else
      var (w', _, err) := CreateRestoreResourceStep(w, o, req, uuid);
      (w', err)
  }

  /** The GET handler: a request that fails a check, or whose status cannot
      be read, is a 400; otherwise the folded status, folded as written when
      `keepFailed` is false and as intended when it holds. */
  function GetStep(w: World, o: Orchestrator, req: Apis.CStorRestore, list: Option<seq<Apis.CStorRestore>>, keepFailed: bool)
    : (World, HttpResult<string>)
  {
    if !PassesChecks(GetChecks, req) then (w, Refused(CodedError(400, Quoted(InvalidRequest))))
    else
      var (w', st, err) := GetRestoreStatusStep(w, o, list, keepFailed);
      if err.Some? then (w', Refused(CodedError(400, Quoted(err.value)))) else (w', Served(st))
  }

  /** A request that fails a check is refused with 400 and writes nothing. */
  lemma HandlersRefuseIncompleteRequests(w: World, o: Orchestrator, req: Apis.CStorRestore,
                                         uuid: nat -> string, list: Option<seq<Apis.CStorRestore>>)
    ensures req.spec.restoreName == "" || req.namespace == "" || req.spec.volumeName == "" ==>
      && CreateStep(w, o, req, uuid) == (w, Some(CodedError(400, Quoted(InvalidRequest))))
      && GetStep(w, o, req, list, false) == (w, Refused(CodedError(400, Quoted(InvalidRequest))))
      && GetStep(w, o, req, list, true) == (w, Refused(CodedError(400, Quoted(InvalidRequest))))
    ensures req.spec.restoreSrc == "" ==>
      CreateStep(w, o, req, uuid) == (w, Some(CodedError(400, Quoted(InvalidRequest))))
  {
    CreateChecksFields(req);
    GetChecksFields(req);
  }

  /** A complete GET whose namespace lists a Failed restore and then a Done
      one is answered Done as written, and Failed as intended. */
  lemma GetHandlerFailedThenDone(w: World, o: Orchestrator, req: Apis.CStorRestore, a: Apis.CStorRestore)
    requires req.spec.restoreName != "" && req.namespace != "" && req.spec.volumeName != ""
    ensures var list := Some([a.(status := StatusFailed), a.(status := StatusDone)]);
      && GetStep(w, o, req, list, false).1 == Served(StatusDone)
      && GetStep(w, o, req, list, true).1 == Served(StatusFailed)
  {
    GetChecksFields(req);
    FailedThenDone(w, o, a);
  }

  /** The POST handler on the store's client. */
  method Create(client: ApiServer, o: Orchestrator, req: Apis.CStorRestore, uuid: nat -> string) returns (err: Option<HttpError>)
    modifies client
    ensures (client.State(), err) == CreateStep(old(client.State()), o, req, uuid)
  {
    if !PassesChecks(CreateChecks, req) {
      return Some(CodedError(400, Quoted(InvalidRequest)));
    }
    var rst := new Restore.CStorRestore(req, client);
    err := CreateRestoreResource(o, rst, uuid);
  }

  /** The GET handler on the store's client, with the status fold as
      written when `keepFailed` is false. */
  method Get(client: ApiServer, o: Orchestrator, req: Apis.CStorRestore, list: Option<seq<Apis.CStorRestore>>, keepFailed: bool)
    returns (r: HttpResult<string>)
    modifies client
    ensures (client.State(), r) == GetStep(old(client.State()), o, req, list, keepFailed)
  {
    if !PassesChecks(GetChecks, req) {
      return Refused(CodedError(400, Quoted(InvalidRequest)));
    }
    var st, err := GetRestoreStatus(client, o, list, keepFailed);
    if err.Some? {
      return Refused(CodedError(400, Quoted(err.value)));
    }
    return Served(st);
  }
}
