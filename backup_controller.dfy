/**
 * The backup controller of a pool instance: the informer event handlers that
 * turn object changes into work-queue items, the worker step that drives a
 * job through its states (Pending -> Init on Add; Init -> InProgress ->
 * Done or Failed on Sync), and the startup pass that resolves jobs left over
 * from a previous run.
 *
 * The transfer itself is carried out by the storage engine; whether it
 * succeeds is an input (`transferOk`). The list the startup pass walks is an
 * input too (`None` when the list call fails).
 */
module BackupController {
  import opened Apis
  import opened Store
  import opened Backup

  /** An informer notification. */
  datatype Event =
    | Added(obj: Apis.CStorBackup)
    | Updated(oldObj: Apis.CStorBackup, newObj: Apis.CStorBackup)
    | Deleted(obj: Apis.CStorBackup)

  /** The operation an event asks for, if any. No event is filtered by
      ownership: every pool instance enqueues every backup. */
  function EventOperation(e: Event): (op: Option<QueueOperation>)
    ensures e.Deleted? ==> op == None
    ensures e.Added? ==> op == Some(QOpAdd)
    ensures e.Updated? ==> (op == None <==> e.newObj.resourceVersion == e.oldObj.resourceVersion)
    ensures e.Updated? && op.Some? ==> (op.value == QOpDestroy <==> e.newObj.deleting)
    ensures op.Some? ==> op.value in {QOpAdd, QOpSync, QOpDestroy}
  {
    match e
    case Added(_) => Some(QOpAdd)
    case Updated(o, n) =>
      if n.resourceVersion == o.resourceVersion then None
      else if IsDestroyEvent(n) then Some(QOpDestroy)
      else Some(QOpSync)
    case Deleted(_) => None
  }

  function EventObject(e: Event): Apis.CStorBackup {
    match e
    case Added(o) => o
    case Updated(_, n) => n
    case Deleted(o) => o
  }

  /** What an event puts on the queue. */
  function Enqueued(e: Event): (items: seq<QueueLoad>)
    ensures |items| <= 1
    ensures |items| == 1 <==> EventOperation(e).Some?
    ensures |items| == 1 ==> items[0].operation == EventOperation(e).value
  {
    match EventOperation(e)
    case None => []
    case Some(op) => [QueueLoad(MetaNamespaceKey(EventObject(e).namespace, EventObject(e).name), op)]
  }

  /** The key put on the queue leads the worker back to the object. */
  lemma EnqueuedKeyFindsObject(e: Event)
    requires EventOperation(e).Some?
    requires NoSlash(EventObject(e).namespace) && NoSlash(EventObject(e).name)
    ensures SplitMetaNamespaceKey(Enqueued(e)[0].key) == Ok((EventObject(e).namespace, EventObject(e).name))
  {
    SplitMetaNamespaceKeyRoundTrip(EventObject(e).namespace, EventObject(e).name);
  }

  /** What `getResource` does: a malformed key gives neither a record nor an
      error; otherwise the record is read from the store. */
  function GetResourceStep(w: World, key: string): (res: (World, Option<Apis.CStorBackup>, Option<Error>))
    ensures res.1.Some? ==> res.2.None?
    ensures SplitMetaNamespaceKey(key).Err? ==> res == (w, None, None)
    ensures SplitMetaNamespaceKey(key).Ok? ==> res.0 == Answered(w)
  {
    match SplitMetaNamespaceKey(key)
    case Err(_) => (w, None, None)
    case Ok((ns, name)) =>
      var (w1, r) := GetBackupStep(w, Key(ns, name));
      match r
      case Ok(b) => (w1, Some(b), None)
      case Err(e) => (w1, None, Some(e))
  }

  /** `handleOpsAdd`: Init for a Pending job, Invalid for any other. */
  function HandleOpsAddStep(w: World, b: Apis.CStorBackup): (World, Option<Error>) {
    UpdateCRStatusStep(w, b.namespace, b.name, if IsPendingStatus(b) then StatusInit else StatusInvalid)
  }

  /** `handleOpsSync`. Only an Init job is worked on, and only once its
      InProgress status is written. */
  function HandleOpsSyncStep(w: World, b: Apis.CStorBackup, transferOk: bool): (World, Option<Error>) {
    if !IsInitStatus(b) then (w, None)
    else
      var (w1, e1) := UpdateCRStatusStep(w, b.namespace, b.name, StatusInProgress);
      if e1.Some? then (w1, e1) else TransferAndRecordStep(w1, b, transferOk)
  }

  /** The rest of `handleOpsSync`, from the transfer on. A failure is
      recorded as Failed and the result is the error of that write alone; a
      success updates the ledger and records Done, and the result is the
      error of the Done write alone, whatever the ledger update returned. */
  function TransferAndRecordStep(w: World, b: Apis.CStorBackup, transferOk: bool): (World, Option<Error>) {
    var w1 := TransferStep(w, BackupTransfer(b.ObjKey()));
    if !transferOk then UpdateCRStatusStep(w1, b.namespace, b.name, StatusFailed)
    else RecordSuccessStep(w1, b)
  }

  function RecordSuccessStep(w: World, b: Apis.CStorBackup): (World, Option<Error>) {
    var (w1, _) := UpdateCompletedBackupStep(w, b);
    UpdateCRStatusStep(w1, b.namespace, b.name, StatusDone)
  }

  function HandleOpsStep(w: World, op: QueueOperation, b: Apis.CStorBackup, transferOk: bool): (World, Option<Error>) {
    match op
    case QOpAdd => HandleOpsAddStep(w, b)
    case QOpSync => HandleOpsSyncStep(w, b, transferOk)
    case _ => (w, None)
  }

  /** `processBackup`: one work-queue item. */
  function ProcessBackupStep(w: World, key: string, op: QueueOperation, transferOk: bool): (World, Option<Error>) {
    var (w1, b, e) := GetResourceStep(w, key);
    if e.Some? then (w1, Some(Wrapped(e.value)))
    else if b.None? then (w1, Some(NilResource(key)))
    else HandleOpsStep(w1, op, b.value, transferOk)
  }

  /** Destroy and unknown operations do nothing. */
  lemma HandleOpsOtherOps(w: World, op: QueueOperation, b: Apis.CStorBackup, transferOk: bool)
    requires op != QOpAdd && op != QOpSync
    ensures HandleOpsStep(w, op, b, transferOk) == (w, None)
  {
  }

  /** A malformed key is an error and touches nothing. */
  lemma ProcessBackupMalformedKey(w: World, key: string, op: QueueOperation, transferOk: bool)
    requires SplitMetaNamespaceKey(key).Err?
    ensures ProcessBackupStep(w, key, op, transferOk) == (w, Some(NilResource(key)))
  {
  }

  /** Add moves a stored job to Init when it is Pending and to Invalid
      otherwise; the store answers error exactly when a call is rejected. */
  lemma HandleOpsAddEffect(w: World, b: Apis.CStorBackup)
    requires WellKeyed(w)
    requires b.ObjKey() in w.backups
    ensures var (w', err) := HandleOpsAddStep(w, b);
      && WellKeyed(w')
      && (err == None <==> Accepts(w, 0) && Accepts(w, 1))
      && (err == None ==> w'.backups == w.backups[b.ObjKey() :=
            w.backups[b.ObjKey()].(status := if b.status == StatusPending then StatusInit else StatusInvalid)])
      && (err != None ==> w'.backups == w.backups)
      && w'.completed == w.completed && w'.transfers == w.transfers
  {
    UpdateCRStatusEffect(w, b.namespace, b.name,
      if IsPendingStatus(b) then StatusInit else StatusInvalid);
  }

  /** Sync on a job that is not Init does nothing. */
  lemma HandleOpsSyncNotInit(w: World, b: Apis.CStorBackup, transferOk: bool)
    requires b.status != StatusInit
    ensures HandleOpsSyncStep(w, b, transferOk) == (w, None)
  {
  }

  /** When the InProgress write fails, its error is returned and no transfer
      is started. */
  lemma HandleOpsSyncInProgressRejected(w: World, b: Apis.CStorBackup, transferOk: bool)
    requires WellKeyed(w)
    requires IsInitStatus(b)
    requires !(Accepts(w, 0) && Accepts(w, 1)) || b.ObjKey() !in w.backups
    ensures var (w', err) := HandleOpsSyncStep(w, b, transferOk);
      err.Some? && w'.transfers == w.transfers && w'.backups == w.backups && w'.completed == w.completed
  {
    UpdateCRStatusEffect(w, b.namespace, b.name, StatusInProgress);
  }

  /** A failed transfer is recorded as Failed, the ledger is untouched, and
      the result is nil exactly when the Failed write goes through. */
  lemma HandleOpsSyncTransferFailed(w: World, b: Apis.CStorBackup)
    requires WellKeyed(w)
    requires IsInitStatus(b) && b.ObjKey() in w.backups
    requires Accepts(w, 0) && Accepts(w, 1)
    ensures var (w', err) := HandleOpsSyncStep(w, b, false);
      && w'.transfers == w.transfers + [BackupTransfer(b.ObjKey())]
      && w'.completed == w.completed
      && (err == None <==> Accepts(w, 2) && Accepts(w, 3))
      && (err == None ==> w'.backups == w.backups[b.ObjKey() := w.backups[b.ObjKey()].(status := StatusFailed)])
      && (err != None ==> w'.backups == w.backups[b.ObjKey() := w.backups[b.ObjKey()].(status := StatusInProgress)])
  {
    var k := b.ObjKey();
    UpdateCRStatusEffect(w, b.namespace, b.name, StatusInProgress);
    var (w1, _) := UpdateCRStatusStep(w, b.namespace, b.name, StatusInProgress);
    var w2 := TransferStep(w1, BackupTransfer(k));
    assert Accepts(w2, 0) == Accepts(w, 2) && Accepts(w2, 1) == Accepts(w, 3);
    UpdateCRStatusEffect(w2, b.namespace, b.name, StatusFailed);
  }

  /** After the transfer: Done is written whenever its two calls go through,
      and the ledger is as the ledger update left it. */
  lemma RecordSuccessEffect(w: World, b: Apis.CStorBackup)
    requires WellKeyed(w) && b.ObjKey() in w.backups
    requires Accepts(w, 2) && Accepts(w, 3)
    ensures var (w', err) := RecordSuccessStep(w, b);
      && err == None && w'.transfers == w.transfers
      && w'.backups == w.backups[b.ObjKey() := w.backups[b.ObjKey()].(status := StatusDone)]
      && w'.completed == UpdateCompletedBackupStep(w, b).0.completed
  {
    var (w1, _) := UpdateCompletedBackupStep(w, b);
    assert Accepts(w1, 0) && Accepts(w1, 1);
    UpdateCRStatusEffect(w1, b.namespace, b.name, StatusDone);
  }

  /** A successful transfer records Done whenever the two Done calls go
      through, whatever happened to the ledger update in between; the ledger
      ends as the ledger update left it. */
  lemma HandleOpsSyncTransferSucceeded(w: World, b: Apis.CStorBackup)
    requires WellKeyed(w)
    requires IsInitStatus(b) && b.ObjKey() in w.backups
    requires Accepts(w, 0) && Accepts(w, 1)
    requires Accepts(w, 4) && Accepts(w, 5)
    ensures var (w', err) := HandleOpsSyncStep(w, b, true);
      && err == None
      && w'.transfers == w.transfers + [BackupTransfer(b.ObjKey())]
      && w'.backups == w.backups[b.ObjKey() := w.backups[b.ObjKey()].(status := StatusDone)]
      && w'.completed == UpdateCompletedBackupStep(w.(answered := w.answered + 2), b).0.completed
  {
    var k := b.ObjKey();
    UpdateCRStatusEffect(w, b.namespace, b.name, StatusInProgress);
    var (w1, _) := UpdateCRStatusStep(w, b.namespace, b.name, StatusInProgress);
    var w2 := TransferStep(w1, BackupTransfer(k));
    StepsKeepWellKeyed(w1);
    RecordSuccessEffect(w2, b);
    UpdateCompletedBackupLedgerOnly(w.(answered := w.answered + 2), w2, b);
  }

  /** `findLastBackupStat`: a job whose snapshot is the ledger's last one was
      sent; any other job, and any job whose ledger cannot be read, failed. */
  function FindLastBackupStatStep(w: World, a: Apis.CStorBackup): (res: (World, string, Option<Error>))
    ensures res.0 == Answered(w)
    ensures res.1 == StatusDone || res.1 == StatusFailed
    ensures res.1 == StatusDone <==> Accepts(w, 0) && LedgerLastSnap(w, a) == a.spec.snapName
    ensures res.2.Some? <==> !Accepts(w, 0)
  {
    var (w1, lastsnap, err) := LastTransferredSnapStep(w, a);
    if err.Some? then (w1, StatusFailed, err)
    else if lastsnap == a.spec.snapName then (w1, StatusDone, None)
    else (w1, StatusFailed, None)
  }

  /** What the startup pass does with one listed job: a Done job is left
      alone, an InProgress job gets the status the ledger gives it, and any
      other job is marked Failed. The listed object, with the new status, is
      written back; write errors are ignored. */
  function CleanupItemStep(w: World, bkp: Apis.CStorBackup): World {
    if bkp.status == StatusInProgress then
      var (w1, laststat, _) := FindLastBackupStatStep(w, bkp);
      UpdateBackupStep(w1, bkp.(status := laststat)).0
    else if bkp.status == StatusDone then w
    else UpdateBackupStep(w, bkp.(status := StatusFailed)).0
  }

  function CleanupStep(w: World, items: seq<Apis.CStorBackup>): World {
    if |items| == 0 then w
    else CleanupItemStep(CleanupStep(w, items[..|items| - 1]), items[|items| - 1])
  }

  /** `cleanupOldBackup`: nothing happens when the list cannot be built. */
  function CleanupOldBackupStep(w: World, list: Option<seq<Apis.CStorBackup>>): World {
    match list
    case None => w
    case Some(items) => CleanupStep(w, items)
  }

  /** The status the startup pass gives a listed job when every call goes
      through. */
  function CleanedStatus(w: World, bkp: Apis.CStorBackup): string {
    if bkp.status == StatusInProgress && LedgerLastSnap(w, bkp) == bkp.spec.snapName then StatusDone
    else StatusFailed
  }

  predicate DistinctKeys(items: seq<Apis.CStorBackup>) {
    forall i, j :: 0 <= i < j < |items| ==> items[i].ObjKey() != items[j].ObjKey()
  }

  /** One listed job, whatever the store answers: the ledger and the set of
      jobs stay, only that job's record may change, and only to the listed
      object with status Done or Failed; a Done job changes nothing. With every
      call accepted, an existing job gets the status `CleanedStatus` says. */
  lemma CleanupItemEffect(w: World, bkp: Apis.CStorBackup)
    requires WellKeyed(w)
    ensures var w' := CleanupItemStep(w, bkp);
      && WellKeyed(w')
      && w'.completed == w.completed && w'.restores == w.restores && w'.transfers == w.transfers
      && w'.backups.Keys == w.backups.Keys
      && (forall k :: k in w.backups && k != bkp.ObjKey() ==> w'.backups[k] == w.backups[k])
    ensures bkp.status == StatusDone ==> CleanupItemStep(w, bkp) == w
    ensures var w' := CleanupItemStep(w, bkp);
      bkp.ObjKey() in w.backups ==>
        || w'.backups[bkp.ObjKey()] == w.backups[bkp.ObjKey()]
        || w'.backups[bkp.ObjKey()] == bkp.(status := StatusDone)
        || w'.backups[bkp.ObjKey()] == bkp.(status := StatusFailed)
    ensures Healthy(w) ==> Healthy(CleanupItemStep(w, bkp))
    ensures Healthy(w) && bkp.status != StatusDone && bkp.ObjKey() in w.backups ==>
      CleanupItemStep(w, bkp).backups[bkp.ObjKey()] == bkp.(status := CleanedStatus(w, bkp))
  {
    if bkp.status == StatusInProgress {
      var (w1, laststat, _) := FindLastBackupStatStep(w, bkp);
      assert w1 == Answered(w);
      UpdateBackupWrites(w1, bkp.(status := laststat));
    } else if bkp.status != StatusDone {
      UpdateBackupWrites(w, bkp.(status := StatusFailed));
    }
  }

  /** The startup pass never touches the ledger or the set of jobs, leaves
      Done jobs and jobs it was not given as they are, and only ever writes
      Done or Failed. */
  lemma {:induction false} CleanupEffect(w: World, items: seq<Apis.CStorBackup>)
    requires WellKeyed(w)
    requires DistinctKeys(items)
    ensures var w' := CleanupStep(w, items);
      && WellKeyed(w')
      && w'.completed == w.completed && w'.restores == w.restores && w'.transfers == w.transfers
      && w'.backups.Keys == w.backups.Keys
      && (forall k :: k in w.backups ==>
            w'.backups[k] == w.backups[k] || w'.backups[k].status in {StatusDone, StatusFailed})
      && (forall k :: k in w.backups && (forall i :: 0 <= i < |items| ==> items[i].ObjKey() != k) ==>
            w'.backups[k] == w.backups[k])
      && (forall i :: 0 <= i < |items| && items[i].status == StatusDone && items[i].ObjKey() in w.backups ==>
            w'.backups[items[i].ObjKey()] == w.backups[items[i].ObjKey()])
  {
    if |items| > 0 {
      var init := items[..|items| - 1];
      var last := items[|items| - 1];
      assert forall i :: 0 <= i < |init| ==> init[i] == items[i];
      CleanupEffect(w, init);
      var wm := CleanupStep(w, init);
      CleanupItemEffect(wm, last);
      var w' := CleanupStep(w, items);
      forall i | 0 <= i < |items| && items[i].status == StatusDone && items[i].ObjKey() in w.backups
        ensures w'.backups[items[i].ObjKey()] == w.backups[items[i].ObjKey()]
      {
        if i < |items| - 1 {
          assert items[i].ObjKey() != last.ObjKey();
        } else {
          assert forall j :: 0 <= j < |init| ==> init[j].ObjKey() != last.ObjKey();
        }
      }
    }
  }

  /** With every call accepted, each listed job that exists and is not Done
      ends with the status the ledger gives it; the jobs not listed keep their
      records. */
  lemma {:induction false} CleanupHealthy(w: World, items: seq<Apis.CStorBackup>)
    requires WellKeyed(w) && Healthy(w)
    requires DistinctKeys(items)
    ensures var w' := CleanupStep(w, items);
      && Healthy(w') && WellKeyed(w') && w'.completed == w.completed
      && w'.backups.Keys == w.backups.Keys
      && (forall i :: 0 <= i < |items| && items[i].status != StatusDone && items[i].ObjKey() in w.backups ==>
            w'.backups[items[i].ObjKey()] == items[i].(status := CleanedStatus(w, items[i])))
      && (forall k :: k in w.backups && (forall i :: 0 <= i < |items| ==> items[i].ObjKey() != k) ==>
            w'.backups[k] == w.backups[k])
  {
    if |items| > 0 {
      var init := items[..|items| - 1];
      var last := items[|items| - 1];
      CleanupHealthy(w, init);
      var wm := CleanupStep(w, init);
      CleanupItemEffect(wm, last);
      var w' := CleanupStep(w, items);
      assert CleanedStatus(wm, last) == CleanedStatus(w, last);
      forall i | 0 <= i < |items| && items[i].status != StatusDone && items[i].ObjKey() in w.backups
        ensures w'.backups[items[i].ObjKey()] == items[i].(status := CleanedStatus(w, items[i]))
      {
        if i < |items| - 1 {
          assert init[i] == items[i];
        }
      }
      forall k | k in w.backups && (forall i :: 0 <= i < |items| ==> items[i].ObjKey() != k)
        ensures w'.backups[k] == w.backups[k]
      {
        assert forall i :: 0 <= i < |init| ==> init[i] == items[i];
        assert last.ObjKey() != k;
      }
    }
  }

  /** A Pending job that is added and then synced with a successful transfer
      ends Done, and the ledger then names its snapshot as the last one sent,
      when every call goes through. */
  lemma {:induction false} LifecycleSucceeds(w: World, b: Apis.CStorBackup)
    requires WellKeyed(w) && Healthy(w)
    requires NoSlash(b.namespace) && NoSlash(b.name)
    requires b.ObjKey() in w.backups && w.backups[b.ObjKey()].status == StatusPending
    ensures var key := MetaNamespaceKey(b.namespace, b.name);
      var (w1, e1) := ProcessBackupStep(w, key, QOpAdd, true);
      var (w2, e2) := ProcessBackupStep(w1, key, QOpSync, true);
      && e1 == None && e2 == None
      && w2.backups[b.ObjKey()].status == StatusDone
      && w2.transfers == w.transfers + [BackupTransfer(b.ObjKey())]
      && LastTransferredSnapStep(w2, w.backups[b.ObjKey()]) == (Answered(w2), w.backups[b.ObjKey()].spec.snapName, None)
  {
    var k := b.ObjKey();
    var key := MetaNamespaceKey(b.namespace, b.name);
    SplitMetaNamespaceKeyRoundTrip(b.namespace, b.name);
    var stored := w.backups[k];
    assert stored.ObjKey() == k;
    // Add: read the job, then write Init.
    var w0 := Answered(w);
    assert GetResourceStep(w, key) == (w0, Some(stored), None);
    StepsKeepWellKeyed(w);
    HandleOpsAddEffect(w0, stored);
    var (w1, e1) := ProcessBackupStep(w, key, QOpAdd, true);
    assert (w1, e1) == HandleOpsAddStep(w0, stored);
    assert Healthy(w1);
    var inited := stored.(status := StatusInit);
    assert w1.backups == w.backups[k := inited];
    // Sync: read the job, then InProgress, transfer, ledger, Done.
    var w1r := Answered(w1);
    assert GetResourceStep(w1, key) == (w1r, Some(inited), None);
    StepsKeepWellKeyed(w1);
    HandleOpsSyncTransferSucceeded(w1r, inited);
    var (w2, e2) := ProcessBackupStep(w1, key, QOpSync, true);
    assert (w2, e2) == HandleOpsSyncStep(w1r, inited, true);
    // The ledger update ran with every call accepted.
    var wl := w1r.(answered := w1r.answered + 2);
    assert Healthy(wl) && WellKeyed(wl);
    UpdateCompletedBackupEffect(wl, inited);
    assert LedgerKey(inited) == LedgerKey(stored);
    assert Healthy(w2);
  }

  /** `findLastBackupStat` of the controller. */
  method FindLastBackupStat(bkp: Backup.CStorBackup) returns (status: string, err: Option<Error>)
    modifies bkp.client
    ensures (bkp.client.State(), status, err) == FindLastBackupStatStep(old(bkp.client.State()), bkp.obj)
  {
    var lastsnap;
    lastsnap, err := bkp.GetLastTransferredSnapName();
    if err.Some? {
      return StatusFailed, err;
    }
    if lastsnap == bkp.obj.spec.snapName {
      return StatusDone, None;
    }
    return StatusFailed, None;
  }

  /** The controller of one pool instance: the store client, the work queue
      and the single `QueueLoad` all event handlers share. */
  class Controller {
    const client: ApiServer
    var queue: seq<QueueLoad>
    var q: QueueLoad

    constructor (client: ApiServer)
      ensures this.client == client && queue == [] && q == QueueLoad("", QOpOther(""))
    {
      this.client := client;
      queue := [];
      q := QueueLoad("", QOpOther(""));
    }

    /** Puts a copy of `load` carrying the job's key on the queue; the shared
        load keeps its old key. */
    method EnqueueBackup(bkp: Apis.CStorBackup, load: QueueLoad)
      modifies this
      ensures queue == old(queue) + [load.(key := MetaNamespaceKey(bkp.namespace, bkp.name))]
      ensures q == old(q)
    {
      var item := load.(key := MetaNamespaceKey(bkp.namespace, bkp.name));
      queue := queue + [item];
    }

    /** `cleanupOldBackup`. */
    method CleanupOldBackup(list: Option<seq<Apis.CStorBackup>>)
      modifies client
      ensures client.State() == CleanupOldBackupStep(old(client.State()), list)
    {
      if list.None? {
        return;
      }
      var items := list.value;
      for i := 0 to |items|
        invariant client.State() == CleanupStep(old(client.State()), items[..i])
      {
        assert items[..i + 1][..i] == items[..i];
        var bkp := new Backup.CStorBackup(items[i], client);
        if bkp.obj.status == StatusInProgress {
          var laststat, _ := FindLastBackupStat(bkp);
          bkp.SetStatus(laststat);
          var _ := bkp.UpdateCR(bkp.obj);
        } else if bkp.obj.status == StatusDone {
          continue;
        } else {
          bkp.SetStatus(StatusFailed);
          var _ := bkp.UpdateCR(bkp.obj);
        }
      }
      assert items[..|items|] == items;
    }

    /** `backupAddFunc`: every added job is queued for Add. */
    method BackupAddFunc(b: Apis.CStorBackup)
      modifies this
      ensures q == old(q).(operation := QOpAdd)
      ensures queue == old(queue) + Enqueued(Added(b))
    {
      q := q.(operation := QOpAdd);
      EnqueueBackup(b, q);
    }

    /** `backupUpdateFunc`: an update that did not change the resource version
        is dropped; otherwise the job is queued for Destroy when it is being
        deleted and for Sync when not. */
    method BackupUpdateFunc(oldb: Apis.CStorBackup, newb: Apis.CStorBackup)
      modifies this
      ensures queue == old(queue) + Enqueued(Updated(oldb, newb))
      ensures EventOperation(Updated(oldb, newb)).None? ==> q == old(q)
      ensures EventOperation(Updated(oldb, newb)).Some? ==>
        q == old(q).(operation := EventOperation(Updated(oldb, newb)).value)
    {
      if newb.resourceVersion == oldb.resourceVersion {
        return;
      }
      if IsDestroyEvent(newb) {
        q := q.(operation := QOpDestroy);
      } else {
        q := q.(operation := QOpSync);
      }
      EnqueueBackup(newb, q);
    }

    /** `backupDeleteFunc`: nothing is queued and nothing changes. */
    method BackupDeleteFunc(b: Apis.CStorBackup)
      ensures queue == old(queue) + Enqueued(Deleted(b))
    {
    }

    /** `getResource`. */
    method GetResource(key: string) returns (bkp: Backup.CStorBackup?, err: Option<Error>)
      modifies client
      ensures var (w', b, e) := GetResourceStep(old(client.State()), key);
        && client.State() == w' && err == e
        && (bkp == null <==> b.None?)
        && (bkp != null ==> fresh(bkp) && bkp.obj == b.value && bkp.client == client)
    {
      var r := SplitMetaNamespaceKey(key);
      if r.Err? {
        return null, None;
      }
      var (ns, name) := r.value;
      var g := client.GetBackup(Key(ns, name));
      if g.Err? {
        return null, Some(g.error);
      }
      bkp := new Backup.CStorBackup(g.value, client);
      err := None;
    }

    /** `handleOpsAdd`. */
    method HandleOpsAdd(bkp: Backup.CStorBackup) returns (err: Option<Error>)
      requires bkp.client == client
      modifies client
      ensures (client.State(), err) == HandleOpsAddStep(old(client.State()), bkp.obj)
    {
      var status := StatusInit;
      if !IsPendingStatus(bkp.obj) {
        status := StatusInvalid;
      }
      err := bkp.UpdateCRStatus(bkp.obj.name, status);
    }

    /** `handleOpsSync`; `transferOk` is the outcome of the transfer. */
    method HandleOpsSync(bkp: Backup.CStorBackup, transferOk: bool) returns (err: Option<Error>)
      requires bkp.client == client
      modifies client
      ensures (client.State(), err) == HandleOpsSyncStep(old(client.State()), bkp.obj, transferOk)
    {
      if !IsInitStatus(bkp.obj) {
        return None;
      }
      err := bkp.UpdateCRStatus(bkp.obj.name, StatusInProgress);
      if err.Some? {
        return;
      }
      ghost var w1 := client.State();
      client.StartTransfer(BackupTransfer(bkp.obj.ObjKey()));
      if !transferOk {
        // The result is that of the Failed write: the transfer's error is
        // shadowed.
        err := bkp.UpdateCRStatus(bkp.obj.name, StatusFailed);
        return;
      }
      ghost var w2 := client.State();
      var _ := bkp.UpdateCompletedBackup();
      err := bkp.UpdateCRStatus(bkp.obj.name, StatusDone);
      assert (client.State(), err) == RecordSuccessStep(w2, bkp.obj);
    }

    /** `handleOps`. */
    method HandleOps(op: QueueOperation, bkp: Backup.CStorBackup, transferOk: bool) returns (err: Option<Error>)
      requires bkp.client == client
      modifies client
      ensures (client.State(), err) == HandleOpsStep(old(client.State()), op, bkp.obj, transferOk)
    {
      match op
      case QOpAdd => err := HandleOpsAdd(bkp);
      case QOpSync => err := HandleOpsSync(bkp, transferOk);
      case _ => err := None;
    }

    /** `processBackup`: one work-queue item. */
    method ProcessBackup(key: string, op: QueueOperation, transferOk: bool) returns (err: Option<Error>)
      modifies client
      ensures (client.State(), err) == ProcessBackupStep(old(client.State()), key, op, transferOk)
    {
      var bkp, e := GetResource(key);
      if e.Some? {
        return Some(Wrapped(e.value));
      }
      if bkp == null {
        return Some(NilResource(key));
      }
      err := HandleOps(op, bkp, transferOk);
    }
  }
}
