/**
 * The backup job record and the completed-backup ledger.
 *
 * A job record is named `snapName-volumeName`; the ledger keeps one record
 * per `backupName-volumeName` whose `snapName` is the last snapshot sent
 * successfully and whose `prevSnapName` is the one before it.
 *
 * `CStorBackup` is the wrapper the controllers and endpoints hold: the API
 * object it wraps and the client it talks to the store with. The functions
 * ending in `Step` say what its store-facing methods do to a `World`.
 */
module Backup {
  import opened Apis
  import opened Store

  /** The job record's name for a snapshot of a volume. */
  function DeriveObjName(a: Apis.CStorBackup): (name: string)
    ensures |name| == |a.spec.snapName| + 1 + |a.spec.volumeName|
    ensures name[..|a.spec.snapName|] == a.spec.snapName
    ensures name[|a.spec.snapName|] == '-'
    ensures name[|a.spec.snapName| + 1..] == a.spec.volumeName
  {
    a.spec.snapName + "-" + a.spec.volumeName
  }

  /** The ledger record's name: one per backup schedule and volume. */
  function CompletedBackupName(a: Apis.CStorBackup): (name: string)
    ensures |name| == |a.spec.backupName| + 1 + |a.spec.volumeName|
    ensures name[..|a.spec.backupName|] == a.spec.backupName
    ensures name[|a.spec.backupName|] == '-'
    ensures name[|a.spec.backupName| + 1..] == a.spec.volumeName
  {
    a.spec.backupName + "-" + a.spec.volumeName
  }

  /** Where the ledger record of a job lives. */
  function LedgerKey(a: Apis.CStorBackup): Key {
    Key(a.namespace, CompletedBackupName(a))
  }

  /** Every snapshot of one schedule and volume shares a ledger record. */
  lemma LedgerKeyIgnoresSnapshot(a: Apis.CStorBackup, snap: string, prev: string)
    ensures LedgerKey(a.(spec := a.spec.(snapName := snap, prevSnapName := prev))) == LedgerKey(a)
  {
  }

  predicate IsPendingStatus(a: Apis.CStorBackup) { a.status == StatusPending }
  predicate IsInProgressStatus(a: Apis.CStorBackup) { a.status == StatusInProgress }
  predicate IsInitStatus(a: Apis.CStorBackup) { a.status == StatusInit }
  predicate IsDoneStatus(a: Apis.CStorBackup) { a.status == StatusDone }
  predicate IsFailedStatus(a: Apis.CStorBackup) { a.status == StatusFailed }
  predicate IsDestroyEvent(a: Apis.CStorBackup) { a.deleting }

  /** Number of the five status predicates that hold. */
  function StatusesHeld(a: Apis.CStorBackup): nat {
    (if IsPendingStatus(a) then 1 else 0) + (if IsInProgressStatus(a) then 1 else 0)
    + (if IsInitStatus(a) then 1 else 0) + (if IsDoneStatus(a) then 1 else 0)
    + (if IsFailedStatus(a) then 1 else 0)
  }

  /** The status strings are distinct, so a record is in at most one state,
      and in exactly one when its status is one of the five. */
  lemma AtMostOneStatus(a: Apis.CStorBackup)
    ensures StatusesHeld(a) <= 1
    ensures StatusesHeld(a) == 1 <==>
      a.status in {StatusPending, StatusInProgress, StatusInit, StatusDone, StatusFailed}
  {
  }

  /** An update that touched the status and nothing in the spec. */
  predicate IsOnlyStatusChange(old_: Apis.CStorBackup, new_: Apis.CStorBackup) {
    old_.spec == new_.spec && old_.status != new_.status
  }

  /** Whether this pool instance (with the given CStor ID from its
      environment) runs the job: the ID is compared with the object's UID. */
  predicate IsRightCStorPoolMgmt(cstorID: string, a: Apis.CStorBackup) {
    cstorID == a.uid
  }

  /** `isNotFound`: the error's cause is the store's not-found error. */
  predicate IsNotFound(e: Error) {
    Cause(e).NotFound?
  }

  /** What `GetLastTransferredSnapName` does: one read of the ledger record.
      A missing record means no snapshot was sent yet. */
  function LastTransferredSnapStep(w: World, a: Apis.CStorBackup): (res: (World, string, Option<Error>))
    ensures res.0 == Answered(w)
    ensures Accepts(w, 0) && LedgerKey(a) in w.completed ==>
      res.1 == w.completed[LedgerKey(a)].spec.snapName && res.2 == None
    ensures Accepts(w, 0) && LedgerKey(a) !in w.completed ==> res.1 == "" && res.2 == None
    ensures !Accepts(w, 0) ==> res.1 == "" && res.2 == Some(Unavailable)
  {
    var (w1, r) := GetCompletedStep(w, LedgerKey(a));
    match r
    case Ok(cb) => (w1, cb.spec.snapName, None)
    case Err(e) => if IsNotFound(e) then (w1, "", None) else (w1, "", Some(e))
  }

  /** The ledger's last snapshot for a job, "" when there is no record. */
  function LedgerLastSnap(w: World, a: Apis.CStorBackup): string {
    if LedgerKey(a) in w.completed then w.completed[LedgerKey(a)].spec.snapName else ""
  }

  /** The ledger record created for a job whose ledger read failed. */
  function FirstLedgerRecord(a: Apis.CStorBackup): CStorBackupCompleted {
    CStorBackupCompleted(
      CompletedBackupName(a), a.namespace, a.labels,
      BackupSpec(a.spec.backupName, a.spec.volumeName, a.spec.snapName, "", "", false, map[]))
  }

  /** The ledger record after a job's snapshot was sent: the last snapshot
      moves to `prevSnapName`. */
  function ShiftedLedgerRecord(cb: CStorBackupCompleted, a: Apis.CStorBackup): CStorBackupCompleted {
    cb.(spec := cb.spec.(prevSnapName := cb.spec.snapName, snapName := a.spec.snapName))
  }

  /** What `UpdateCompletedBackup` does. Any failure of the read, not only
      not-found, leads to a create. */
  function UpdateCompletedBackupStep(w: World, a: Apis.CStorBackup): (res: (World, Option<Error>))
    ensures res.0.backups == w.backups && res.0.restores == w.restores
    ensures res.0.transfers == w.transfers
    ensures res.1.Some? ==> res.0.completed == w.completed
    ensures res.0.replies == w.replies && res.0.answered == w.answered + 2
    ensures WellKeyed(w) ==> WellKeyed(res.0)
  {
    var (w1, r) := GetCompletedStep(w, LedgerKey(a));
    match r
    case Err(_) =>
      var (w2, c) := CreateCompletedStep(w1, FirstLedgerRecord(a));
      (w2, ErrorOf(c))
    case Ok(cb) =>
      var (w2, u) := UpdateCompletedStep(w1, ShiftedLedgerRecord(cb, a));
      (w2, ErrorOf(u))
  }

  /** The ledger update looks only at the ledger and at the store's replies. */
  lemma UpdateCompletedBackupLedgerOnly(w: World, v: World, a: Apis.CStorBackup)
    requires v.completed == w.completed && v.replies == w.replies && v.answered == w.answered
    ensures UpdateCompletedBackupStep(v, a).0.completed == UpdateCompletedBackupStep(w, a).0.completed
    ensures UpdateCompletedBackupStep(v, a).1 == UpdateCompletedBackupStep(w, a).1
  {
  }

  /** The ledger after a successful update, in terms of the ledger before. */
  lemma UpdateCompletedBackupEffect(w: World, a: Apis.CStorBackup)
    requires WellKeyed(w)
    requires UpdateCompletedBackupStep(w, a).1 == None
    ensures var k := LedgerKey(a);
      var w' := UpdateCompletedBackupStep(w, a).0;
      && WellKeyed(w')
      && w'.completed == w.completed[k := if k in w.completed
                                          then ShiftedLedgerRecord(w.completed[k], a)
                                          else FirstLedgerRecord(a)]
  {
    var k := LedgerKey(a);
    if Accepts(w, 0) && k in w.completed {
      assert w.completed[k].ObjKey() == k;
    }
  }

  /** After a successful ledger update, the next read of the ledger gives
      the job's snapshot. */
  lemma LedgerRoundTrip(w: World, a: Apis.CStorBackup)
    requires WellKeyed(w)
    requires UpdateCompletedBackupStep(w, a).1 == None
    requires Accepts(UpdateCompletedBackupStep(w, a).0, 0)
    ensures LastTransferredSnapStep(UpdateCompletedBackupStep(w, a).0, a).1 == a.spec.snapName
    ensures LastTransferredSnapStep(UpdateCompletedBackupStep(w, a).0, a).2 == None
  {
    UpdateCompletedBackupEffect(w, a);
  }

  /** Two successful ledger updates for the same schedule and volume leave the
      second snapshot as the last and the first as the previous one. */
  lemma LedgerTwoUpdates(w: World, a1: Apis.CStorBackup, a2: Apis.CStorBackup)
    requires WellKeyed(w)
    requires LedgerKey(a1) == LedgerKey(a2)
    requires UpdateCompletedBackupStep(w, a1).1 == None
    requires UpdateCompletedBackupStep(UpdateCompletedBackupStep(w, a1).0, a2).1 == None
    ensures var w2 := UpdateCompletedBackupStep(UpdateCompletedBackupStep(w, a1).0, a2).0;
      && LedgerKey(a2) in w2.completed
      && w2.completed[LedgerKey(a2)].spec.snapName == a2.spec.snapName
      && w2.completed[LedgerKey(a2)].spec.prevSnapName == a1.spec.snapName
  {
    UpdateCompletedBackupEffect(w, a1);
    UpdateCompletedBackupEffect(UpdateCompletedBackupStep(w, a1).0, a2);
  }

  /** When the ledger read is rejected although the record exists, the
      create fails with AlreadyExists and the ledger keeps its old record. */
  lemma UpdateCompletedBackupAfterFailedRead(w: World, a: Apis.CStorBackup)
    requires !Accepts(w, 0) && LedgerKey(a) in w.completed
    requires Accepts(w, 1)
    ensures UpdateCompletedBackupStep(w, a).1 == Some(AlreadyExists(LedgerKey(a)))
    ensures UpdateCompletedBackupStep(w, a).0.completed == w.completed
  {
  }

  /** What `SetPrevSnapNameFromLastBackup` does to the store and the object:
      on success `prevSnapName` becomes the ledger's last snapshot (or "" when
      there is no ledger record yet). */
  function SetPrevSnapNameFromLastBackupStep(w: World, a: Apis.CStorBackup): (res: (World, Apis.CStorBackup, Option<Error>))
    ensures res.0 == Answered(w)
    ensures res.2.Some? ==> res.1 == a
    ensures res.2.None? ==> res.1 == a.(spec := a.spec.(prevSnapName := res.1.spec.prevSnapName))
  {
    var (w1, snap, err) := LastTransferredSnapStep(w, a);
    if err.Some? then (w1, a, err) else (w1, a.(spec := a.spec.(prevSnapName := snap)), None)
  }

  /** The previous snapshot set on success is the ledger's last snapshot. */
  lemma SetPrevSnapNameFromLedger(w: World, a: Apis.CStorBackup)
    requires Accepts(w, 0)
    ensures var (_, a', err) := SetPrevSnapNameFromLastBackupStep(w, a);
      && err == None
      && a'.spec.prevSnapName == (if LedgerKey(a) in w.completed
                                  then w.completed[LedgerKey(a)].spec.snapName else "")
  {
  }

  /** What `UpdateCRStatus(name, status)` does: read the record `name` in the
      job's namespace, then write it back with the new status. */
  function UpdateCRStatusStep(w: World, namespace: string, name: string, status: string): (res: (World, Option<Error>))
    ensures res.0.completed == w.completed && res.0.restores == w.restores
    ensures res.0.transfers == w.transfers
    ensures res.1.None? ==> res.0.replies == w.replies && res.0.answered == w.answered + 2
  {
    var (w1, r) := GetBackupStep(w, Key(namespace, name));
    match r
    case Err(e) => (w1, Some(e))
    case Ok(ba) =>
      var (w2, u) := UpdateBackupStep(w1, ba.(status := status));
      (w2, ErrorOf(u))
  }

  /** A status write changes only the status of the named record; when it
      fails, nothing is written. */
  lemma UpdateCRStatusEffect(w: World, namespace: string, name: string, status: string)
    requires WellKeyed(w)
    ensures var k := Key(namespace, name);
      var (w', err) := UpdateCRStatusStep(w, namespace, name, status);
      && WellKeyed(w')
      && (err == None <==> Accepts(w, 0) && k in w.backups && Accepts(w, 1))
      && (err == None ==> w'.backups == w.backups[k := w.backups[k].(status := status)])
      && (err != None ==> w'.backups == w.backups)
  {
    var k := Key(namespace, name);
    if Accepts(w, 0) && k in w.backups {
      assert w.backups[k].ObjKey() == k;
    }
  }

  /** The job wrapper: the API object and the client of the store. */
  class CStorBackup {
    var obj: Apis.CStorBackup
    const client: ApiServer

    constructor (obj: Apis.CStorBackup, client: ApiServer)
      ensures this.obj == obj && this.client == client
    {
      this.obj := obj;
      this.client := client;
    }

    method SetStatus(status: string)
      modifies this
      ensures obj == old(obj).(status := status)
    {
      obj := obj.(status := status);
    }

    /** Replaces the whole label map. */
    method SetLabel(labels: Labels)
      modifies this
      ensures obj == old(obj).(labels := labels)
    {
      obj := obj.(labels := labels);
    }

    method SetPrevSnapName(prevSnapName: string)
      modifies this
      ensures obj == old(obj).(spec := old(obj).spec.(prevSnapName := prevSnapName))
    {
      obj := obj.(spec := obj.spec.(prevSnapName := prevSnapName));
    }

    /** Names the record after its snapshot and volume, as `DeriveObjName`. */
    method SetObjName()
      modifies this
      ensures obj == old(obj).(name := DeriveObjName(old(obj)))
    {
      obj := obj.(name := obj.spec.snapName + "-" + obj.spec.volumeName);
    }

    method GetLastTransferredSnapName() returns (snap: string, err: Option<Error>)
      modifies client
      ensures (client.State(), snap, err) == LastTransferredSnapStep(old(client.State()), obj)
    {
      var r := client.GetCompleted(Key(obj.namespace, obj.spec.backupName + "-" + obj.spec.volumeName));
      if r.Err? {
        if IsNotFound(r.error) {
          return "", None;
        }
        return "", Some(r.error);
      }
      return r.value.spec.snapName, None;
    }

    method UpdateCompletedBackup() returns (err: Option<Error>)
      modifies client
      ensures (client.State(), err) == UpdateCompletedBackupStep(old(client.State()), obj)
    {
      var name := obj.spec.backupName + "-" + obj.spec.volumeName;
      var r := client.GetCompleted(Key(obj.namespace, name));
      if r.Err? {
        var bk := CStorBackupCompleted(
          name, obj.namespace, obj.labels,
          BackupSpec(obj.spec.backupName, obj.spec.volumeName, obj.spec.snapName, "", "", false, map[]));
        var c := client.CreateCompleted(bk);
        if c.Err? {
          return Some(c.error);
        }
        return None;
      }
      var cb := r.value;
      cb := cb.(spec := cb.spec.(prevSnapName := cb.spec.snapName));
      cb := cb.(spec := cb.spec.(snapName := obj.spec.snapName));
      var u := client.UpdateCompleted(cb);
      err := ErrorOf(u);
    }

    method SetPrevSnapNameFromLastBackup() returns (err: Option<Error>)
      modifies this, client
      ensures (client.State(), obj, err) == SetPrevSnapNameFromLastBackupStep(old(client.State()), old(obj))
    {
      var lastsnap;
      lastsnap, err := GetLastTransferredSnapName();
      if err.Some? {
        return;
      }
      SetPrevSnapName(lastsnap);
    }

    /** The record `name` fetched from the job's namespace. */
    method GetCR(name: string) returns (r: Result<Apis.CStorBackup>)
      modifies client
      ensures (client.State(), r) == GetBackupStep(old(client.State()), Key(obj.namespace, name))
    {
      r := client.GetBackup(Key(obj.namespace, name));
    }

    method CreateCR(o: Apis.CStorBackup) returns (r: Result<Apis.CStorBackup>)
      modifies client
      ensures (client.State(), r) == CreateBackupStep(old(client.State()), o)
    {
      r := client.CreateBackup(o);
    }

    method UpdateCR(o: Apis.CStorBackup) returns (r: Result<Apis.CStorBackup>)
      modifies client
      ensures (client.State(), r) == UpdateBackupStep(old(client.State()), o)
    {
      r := client.UpdateBackup(o);
    }

    method UpdateCRStatus(name: string, status: string) returns (err: Option<Error>)
      modifies client
      ensures (client.State(), err) == UpdateCRStatusStep(old(client.State()), obj.namespace, name, status)
    {
      var r := client.GetBackup(Key(obj.namespace, name));
      if r.Err? {
        return Some(r.error);
      }
      var ba := r.value.(status := status);
      var u := client.UpdateBackup(ba);
      err := ErrorOf(u);
    }
  }
}
