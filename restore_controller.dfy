/**
 * The restore controller of a pool instance: the informer event handlers,
 * which queue only the restores of this pool instance, the worker step that
 * drives a restore through its states (Pending -> Init on Add; Init ->
 * InProgress -> Done or Failed on Sync), and the startup pass that fails
 * every restore left unfinished by a previous run.
 *
 * The pool instance's CStor ID (read from its environment) is the
 * controller's `cstorID`; whether the restore transfer succeeds is an input
 * (`transferOk`); the list the startup pass walks is an input (`None` when
 * the list call fails).
 */
module RestoreController {
  import opened Apis
  import opened Store
  import opened Restore

  /** An informer notification. */
  datatype Event =
    | Added(obj: Apis.CStorRestore)
    | Updated(oldObj: Apis.CStorRestore, newObj: Apis.CStorRestore)
    | Deleted(obj: Apis.CStorRestore)

  /** The operation an event asks for on the pool instance `cstorID`, if any:
      only restores labelled with that pool are queued, an update that leaves
      the status as it was is ignored, and a deletion queues nothing. */
  function EventOperation(cstorID: string, e: Event): (op: Option<QueueOperation>)
    ensures e.Deleted? ==> op == None
    ensures e.Added? ==> (op.Some? <==> IsRightCStorPoolMgmt(cstorID, e.obj))
    ensures e.Added? && op.Some? ==> op.value == QOpAdd
    ensures e.Updated? ==> (op.Some? <==>
      e.newObj.status != e.oldObj.status && IsRightCStorPoolMgmt(cstorID, e.newObj))
    ensures e.Updated? && op.Some? ==> (op.value == QOpDestroy <==> e.newObj.deleting)
    ensures op.Some? ==> op.value in {QOpAdd, QOpSync, QOpDestroy}
  {
    match e
    case Added(r) => if IsRightCStorPoolMgmt(cstorID, r) then Some(QOpAdd) else None
    case Updated(o, n) =>
      if n.status == o.status then None
      else if !IsRightCStorPoolMgmt(cstorID, n) then None
      else if IsDestroyEvent(n) then Some(QOpDestroy)
      else Some(QOpSync)
    case Deleted(_) => None
  }

  function EventObject(e: Event): Apis.CStorRestore {
    match e
    case Added(o) => o
    case Updated(_, n) => n
    case Deleted(o) => o
  }

  /** What an event puts on the queue. */
  function Enqueued(cstorID: string, e: Event): (items: seq<QueueLoad>)
    ensures |items| <= 1
    ensures |items| == 1 <==> EventOperation(cstorID, e).Some?
    ensures |items| == 1 ==>
      items[0] == QueueLoad(MetaNamespaceKey(EventObject(e).namespace, EventObject(e).name),
                            EventOperation(cstorID, e).value)
  {
    match EventOperation(cstorID, e)
    case None => []
    case Some(op) => [QueueLoad(MetaNamespaceKey(EventObject(e).namespace, EventObject(e).name), op)]
  }

  /** A restore of another pool instance is never queued, whatever the event. */
  lemma ForeignRestoreIgnored(cstorID: string, e: Event)
    requires !IsRightCStorPoolMgmt(cstorID, EventObject(e))
    ensures Enqueued(cstorID, e) == []
  {
  }

  /** An update that changes anything but the status is ignored. */
  lemma SameStatusIgnored(cstorID: string, o: Apis.CStorRestore, n: Apis.CStorRestore)
    requires n.status == o.status
    ensures Enqueued(cstorID, Updated(o, n)) == []
  {
  }

  /** What `getResource` does: a malformed key gives neither a record nor an
      error; otherwise the record is read from the store. */
  function GetResourceStep(w: World, key: string): (res: (World, Option<Apis.CStorRestore>, Option<Error>))
    ensures res.1.Some? ==> res.2.None?
    ensures SplitMetaNamespaceKey(key).Err? ==> res == (w, None, None)
    ensures SplitMetaNamespaceKey(key).Ok? ==> res.0 == Answered(w)
  {
    match SplitMetaNamespaceKey(key)
    case Err(_) => (w, None, None)
    case Ok((ns, name)) =>
      var (w1, r) := GetRestoreStep(w, Key(ns, name));
      match r
      case Ok(a) => (w1, Some(a), None)
      case Err(e) => (w1, None, Some(e))
  }

  /** `handleOpsAdd`: Init for a Pending restore, Invalid for any other; a
      write error comes back wrapped. */
  function HandleOpsAddStep(w: World, r: Apis.CStorRestore): (World, Option<Error>) {
    var (w1, e) := UpdateCRStatusStep(w, r.namespace, r.name, if IsPendingStatus(r) then StatusInit else StatusInvalid);
    (w1, if e.Some? then Some(Wrapped(e.value)) else None)
  }

  /** `handleOpsSync`. Only an Init restore is worked on, and only once its
      InProgress status is written. */
  function HandleOpsSyncStep(w: World, r: Apis.CStorRestore, transferOk: bool): (World, Option<Error>) {
    if !IsInitStatus(r) then (w, None)
    else
      var (w1, e1) := UpdateCRStatusStep(w, r.namespace, r.name, StatusInProgress);
      if e1.Some? then (w1, Some(Quoted(e1.value))) else TransferAndRecordStep(w1, r, transferOk)
  }

  /** The rest of `handleOpsSync`, from the transfer on. A failure is
      recorded as Failed and the result is nil whatever that write returned;
      a success is recorded as Done and a write error comes back quoted. */
  function TransferAndRecordStep(w: World, r: Apis.CStorRestore, transferOk: bool): (World, Option<Error>) {
    var w1 := TransferStep(w, RestoreTransfer(r.ObjKey()));
    if !transferOk then (UpdateCRStatusStep(w1, r.namespace, r.name, StatusFailed).0, None)
    else
      var (w2, e) := UpdateCRStatusStep(w1, r.namespace, r.name, StatusDone);
      (w2, if e.Some? then Some(Quoted(e.value)) else None)
  }

  /** `handleOps`: Destroy and unknown operations do nothing. */
  function HandleOpsStep(w: World, op: QueueOperation, r: Apis.CStorRestore, transferOk: bool): (World, Option<Error>) {
    match op
    case QOpAdd => HandleOpsAddStep(w, r)
    case QOpSync => HandleOpsSyncStep(w, r, transferOk)
    case _ => (w, None)
  }

  /** `handleOps` without a restore (the malformed-key case): Add and Sync
      dereference the missing restore and fail. */
  function HandleOpsNilStep(op: QueueOperation): Option<Error> {
    if op == QOpAdd || op == QOpSync then Some(NilPointer) else None
  }

  /** `processRestore`: one work-queue item. A read error is returned as it
      is; an error of the operation comes back wrapped. */
  function ProcessRestoreStep(w: World, key: string, op: QueueOperation, transferOk: bool): (World, Option<Error>) {
    var (w1, r, e) := GetResourceStep(w, key);
    if e.Some? then (w1, e)
    else if r.None? then (w1, HandleOpsNilStep(op))
    else
      var (w2, e2) := HandleOpsStep(w1, op, r.value, transferOk);
      (w2, if e2.Some? then Some(Wrapped(e2.value)) else None)
  }

  /** Destroy and unknown operations do nothing. */
  lemma HandleOpsOtherOps(w: World, op: QueueOperation, r: Apis.CStorRestore, transferOk: bool)
    requires op != QOpAdd && op != QOpSync
    ensures HandleOpsStep(w, op, r, transferOk) == (w, None)
  {
  }

  /** A malformed key stops Add and Sync and touches nothing. */
  lemma ProcessRestoreMalformedKey(w: World, key: string, op: QueueOperation, transferOk: bool)
    requires SplitMetaNamespaceKey(key).Err?
    ensures ProcessRestoreStep(w, key, op, transferOk) ==
      (w, if op == QOpAdd || op == QOpSync then Some(NilPointer) else None)
  {
  }

  /** Add moves a stored restore to Init when it is Pending and to Invalid
      otherwise; the error is the wrapped store error. */
  lemma HandleOpsAddEffect(w: World, r: Apis.CStorRestore)
    requires WellKeyed(w)
    requires r.ObjKey() in w.restores
    ensures var (w', err) := HandleOpsAddStep(w, r);
      && WellKeyed(w')
      && (err == None <==> Accepts(w, 0) && Accepts(w, 1))
      && (err.Some? ==> err.value.Wrapped?)
      && (err == None ==> w'.restores == w.restores[r.ObjKey() :=
            w.restores[r.ObjKey()].(status := if r.status == StatusPending then StatusInit else StatusInvalid)])
      && (err != None ==> w'.restores == w.restores)
      && w'.backups == w.backups && w'.transfers == w.transfers
  {
    UpdateCRStatusEffect(w, r.namespace, r.name, if IsPendingStatus(r) then StatusInit else StatusInvalid);
  }

  /** Sync on a restore that is not Init does nothing. */
  lemma HandleOpsSyncNotInit(w: World, r: Apis.CStorRestore, transferOk: bool)
    requires r.status != StatusInit
    ensures HandleOpsSyncStep(w, r, transferOk) == (w, None)
  {
  }

  /** When the InProgress write fails, the error is returned and no restore
      transfer is started. */
  lemma HandleOpsSyncInProgressRejected(w: World, r: Apis.CStorRestore, transferOk: bool)
    requires WellKeyed(w)
    requires IsInitStatus(r)
    requires !(Accepts(w, 0) && Accepts(w, 1)) || r.ObjKey() !in w.restores
    ensures var (w', err) := HandleOpsSyncStep(w, r, transferOk);
      err.Some? && err.value.Quoted? && w'.transfers == w.transfers && w'.restores == w.restores
  {
    UpdateCRStatusEffect(w, r.namespace, r.name, StatusInProgress);
  }

  /** A failed restore transfer gives nil whatever happens next; Failed is
      recorded exactly when its two calls go through. */
  lemma HandleOpsSyncTransferFailed(w: World, r: Apis.CStorRestore)
    requires WellKeyed(w)
    requires IsInitStatus(r) && r.ObjKey() in w.restores
    requires Accepts(w, 0) && Accepts(w, 1)
    ensures var (w', err) := HandleOpsSyncStep(w, r, false);
      && err == None
      && w'.transfers == w.transfers + [RestoreTransfer(r.ObjKey())]
      && w'.restores == w.restores[r.ObjKey() := w.restores[r.ObjKey()].(status :=
           if Accepts(w, 2) && Accepts(w, 3) then StatusFailed else StatusInProgress)]
  {
    UpdateCRStatusEffect(w, r.namespace, r.name, StatusInProgress);
    var (w1, _) := UpdateCRStatusStep(w, r.namespace, r.name, StatusInProgress);
    var w2 := TransferStep(w1, RestoreTransfer(r.ObjKey()));
    assert Accepts(w2, 0) == Accepts(w, 2) && Accepts(w2, 1) == Accepts(w, 3);
    UpdateCRStatusEffect(w2, r.namespace, r.name, StatusFailed);
  }

  /** A successful restore transfer is recorded as Done exactly when its two
      calls go through; otherwise the quoted error is returned. */
  lemma HandleOpsSyncTransferSucceeded(w: World, r: Apis.CStorRestore)
    requires WellKeyed(w)
    requires IsInitStatus(r) && r.ObjKey() in w.restores
    requires Accepts(w, 0) && Accepts(w, 1)
    ensures var (w', err) := HandleOpsSyncStep(w, r, true);
      && (err == None <==> Accepts(w, 2) && Accepts(w, 3))
      && (err.Some? ==> err.value.Quoted?)
      && w'.transfers == w.transfers + [RestoreTransfer(r.ObjKey())]
      && w'.restores == w.restores[r.ObjKey() := w.restores[r.ObjKey()].(status :=
           if err == None then StatusDone else StatusInProgress)]
  {
    UpdateCRStatusEffect(w, r.namespace, r.name, StatusInProgress);
    var (w1, _) := UpdateCRStatusStep(w, r.namespace, r.name, StatusInProgress);
    var w2 := TransferStep(w1, RestoreTransfer(r.ObjKey()));
    assert Accepts(w2, 0) == Accepts(w, 2) && Accepts(w2, 1) == Accepts(w, 3);
    UpdateCRStatusEffect(w2, r.namespace, r.name, StatusDone);
  }

  /** What the startup pass does with one listed restore: a Done restore is
      left alone and any other is written back as Failed, ignoring errors. */
  function CleanupItemStep(w: World, rst: Apis.CStorRestore): World {
    if rst.status == StatusDone then w
    else UpdateRestoreStep(w, rst.(status := StatusFailed)).0
  }

  function CleanupStep(w: World, items: seq<Apis.CStorRestore>): World {
    if |items| == 0 then w
    else CleanupItemStep(CleanupStep(w, items[..|items| - 1]), items[|items| - 1])
  }

  /** `cleanupOldRestore`: nothing happens when the list cannot be built. */
  function CleanupOldRestoreStep(w: World, list: Option<seq<Apis.CStorRestore>>): World {
    match list
    case None => w
    case Some(items) => CleanupStep(w, items)
  }

  predicate DistinctKeys(items: seq<Apis.CStorRestore>) {
    forall i, j :: 0 <= i < j < |items| ==> items[i].ObjKey() != items[j].ObjKey()
  }

  /** One listed restore: only its own record may change, and only to the
      listed object marked Failed; a Done restore changes nothing. */
  lemma CleanupItemEffect(w: World, rst: Apis.CStorRestore)
    requires WellKeyed(w)
    ensures var w' := CleanupItemStep(w, rst);
      && WellKeyed(w')
      && w'.backups == w.backups && w'.completed == w.completed && w'.transfers == w.transfers
      && w'.restores.Keys == w.restores.Keys
      && (forall k :: k in w.restores && k != rst.ObjKey() ==> w'.restores[k] == w.restores[k])
    ensures rst.status == StatusDone ==> CleanupItemStep(w, rst) == w
    ensures rst.ObjKey() in w.restores ==>
      || CleanupItemStep(w, rst).restores[rst.ObjKey()] == w.restores[rst.ObjKey()]
      || CleanupItemStep(w, rst).restores[rst.ObjKey()] == rst.(status := StatusFailed)
    ensures Healthy(w) ==> Healthy(CleanupItemStep(w, rst))
    ensures Healthy(w) && rst.status != StatusDone && rst.ObjKey() in w.restores ==>
      CleanupItemStep(w, rst).restores[rst.ObjKey()] == rst.(status := StatusFailed)
  {
    StepsKeepWellKeyed(w);
  }

  /** The startup pass leaves the jobs, the set of restores, the Done
      restores and the restores it was not given as they are, and writes
      nothing but Failed. */
  lemma {:induction false} CleanupEffect(w: World, items: seq<Apis.CStorRestore>)
    requires WellKeyed(w)
    requires DistinctKeys(items)
    ensures var w' := CleanupStep(w, items);
      && WellKeyed(w')
      && w'.backups == w.backups && w'.completed == w.completed && w'.transfers == w.transfers
      && w'.restores.Keys == w.restores.Keys
      && (forall k :: k in w.restores ==> w'.restores[k] == w.restores[k] || w'.restores[k].status == StatusFailed)
      && (forall k :: k in w.restores && (forall i :: 0 <= i < |items| ==> items[i].ObjKey() != k) ==>
            w'.restores[k] == w.restores[k])
      && (forall i :: 0 <= i < |items| && items[i].status == StatusDone && items[i].ObjKey() in w.restores ==>
            w'.restores[items[i].ObjKey()] == w.restores[items[i].ObjKey()])
  {
    if |items| > 0 {
      var init := items[..|items| - 1];
      var last := items[|items| - 1];
      assert forall i :: 0 <= i < |init| ==> init[i] == items[i];
      CleanupEffect(w, init);
      CleanupItemEffect(CleanupStep(w, init), last);
      var w' := CleanupStep(w, items);
      forall i | 0 <= i < |items| && items[i].status == StatusDone && items[i].ObjKey() in w.restores
        ensures w'.restores[items[i].ObjKey()] == w.restores[items[i].ObjKey()]
      {
        if i < |items| - 1 {
          assert items[i].ObjKey() != last.ObjKey();
        } else {
          assert forall j :: 0 <= j < |init| ==> init[j].ObjKey() != last.ObjKey();
        }
      }
    }
  }

  /** With every call accepted, each listed restore that exists and is not
      Done ends Failed. */
  lemma {:induction false} CleanupHealthy(w: World, items: seq<Apis.CStorRestore>)
    requires WellKeyed(w) && Healthy(w)
    requires DistinctKeys(items)
    ensures var w' := CleanupStep(w, items);
      && Healthy(w') && WellKeyed(w') && w'.restores.Keys == w.restores.Keys
      && (forall i :: 0 <= i < |items| && items[i].status != StatusDone && items[i].ObjKey() in w.restores ==>
            w'.restores[items[i].ObjKey()] == items[i].(status := StatusFailed))
  {
    if |items| > 0 {
      var init := items[..|items| - 1];
      var last := items[|items| - 1];
      CleanupHealthy(w, init);
      CleanupItemEffect(CleanupStep(w, init), last);
      var w' := CleanupStep(w, items);
      forall i | 0 <= i < |items| && items[i].status != StatusDone && items[i].ObjKey() in w.restores
        ensures w'.restores[items[i].ObjKey()] == items[i].(status := StatusFailed)
      {
        if i < |items| - 1 {
          assert init[i] == items[i];
          assert items[i].ObjKey() != last.ObjKey();
        }
      }
    }
  }

  /** The restore controller: the store client, the pool instance's CStor
      ID, the work queue and the single `QueueLoad` all event handlers share. */
  class Controller {
    const client: ApiServer
    const cstorID: string
    var queue: seq<QueueLoad>
    var q: QueueLoad

    constructor (client: ApiServer, cstorID: string)
      ensures this.client == client && this.cstorID == cstorID
      ensures queue == [] && q == QueueLoad("", QOpOther(""))
    {
      this.client := client;
      this.cstorID := cstorID;
      queue := [];
      q := QueueLoad("", QOpOther(""));
    }

    /** Puts a copy of `load` carrying the restore's key on the queue. */
    method EnqueueCStorRestore(rst: Apis.CStorRestore, load: QueueLoad)
      modifies this
      ensures queue == old(queue) + [load.(key := MetaNamespaceKey(rst.namespace, rst.name))]
      ensures q == old(q)
    {
      queue := queue + [load.(key := MetaNamespaceKey(rst.namespace, rst.name))];
    }

    /** `cleanupOldRestore`. */
    method CleanupOldRestore(list: Option<seq<Apis.CStorRestore>>)
      modifies client
      ensures client.State() == CleanupOldRestoreStep(old(client.State()), list)
    {
      if list.None? {
        return;
      }
      var items := list.value;
      for i := 0 to |items|
        invariant client.State() == CleanupStep(old(client.State()), items[..i])
      {
        assert items[..i + 1][..i] == items[..i];
        var rst := new Restore.CStorRestore(items[i], client);
        if rst.obj.status == StatusDone {
          continue;
        }
        rst.SetStatus(StatusFailed);
        var _ := rst.UpdateCR(rst.obj);
      }
      assert items[..|items|] == items;
    }

    /** `restoreAddFunc`. */
    method RestoreAddFunc(r: Apis.CStorRestore)
      modifies this
      ensures queue == old(queue) + Enqueued(cstorID, Added(r))
      ensures q == if IsRightCStorPoolMgmt(cstorID, r) then old(q).(operation := QOpAdd) else old(q)
    {
      if !IsRightCStorPoolMgmt(cstorID, r) {
        return;
      }
      q := q.(operation := QOpAdd);
      EnqueueCStorRestore(r, q);
    }

    /** `restoreUpdateFunc`. */
    method RestoreUpdateFunc(oldr: Apis.CStorRestore, newr: Apis.CStorRestore)
      modifies this
      ensures queue == old(queue) + Enqueued(cstorID, Updated(oldr, newr))
      ensures EventOperation(cstorID, Updated(oldr, newr)).None? ==> q == old(q)
      ensures EventOperation(cstorID, Updated(oldr, newr)).Some? ==>
        q == old(q).(operation := EventOperation(cstorID, Updated(oldr, newr)).value)
    {
      if newr.status == oldr.status {
        return;
      }
      if !IsRightCStorPoolMgmt(cstorID, newr) {
        return;
      }
      if IsDestroyEvent(newr) {
        q := q.(operation := QOpDestroy);
      } else {
        q := q.(operation := QOpSync);
      }
      EnqueueCStorRestore(newr, q);
    }

    /** `restoreDeleteFunc`: nothing is queued. */
    method RestoreDeleteFunc(r: Apis.CStorRestore)
      ensures queue == old(queue) + Enqueued(cstorID, Deleted(r))
    {
    }

    /** `getResource`. */
    method GetResource(key: string) returns (rst: Restore.CStorRestore?, err: Option<Error>)
      modifies client
      ensures var (w', r, e) := GetResourceStep(old(client.State()), key);
        && client.State() == w' && err == e
        && (rst == null <==> r.None?)
        && (rst != null ==> fresh(rst) && rst.obj == r.value && rst.client == client)
    {
      var s := SplitMetaNamespaceKey(key);
      if s.Err? {
        return null, None;
      }
      var (ns, name) := s.value;
      var g := client.GetRestore(Key(ns, name));
      if g.Err? {
        return null, Some(g.error);
      }
      rst := new Restore.CStorRestore(g.value, client);
      err := None;
    }

    /** `handleOpsAdd`. */
    method HandleOpsAdd(rst: Restore.CStorRestore) returns (err: Option<Error>)
      requires rst.client == client
      modifies client
      ensures (client.State(), err) == HandleOpsAddStep(old(client.State()), rst.obj)
    {
      var status := StatusInit;
      if !IsPendingStatus(rst.obj) {
        status := StatusInvalid;
      }
      err := rst.UpdateCRStatus(rst.obj.name, status);
      if err.Some? {
        err := Some(Wrapped(err.value));
      }
    }

    /** `handleOpsSync`; `transferOk` is the outcome of the restore transfer. */
    method HandleOpsSync(rst: Restore.CStorRestore, transferOk: bool) returns (err: Option<Error>)
      requires rst.client == client
      modifies client
      ensures (client.State(), err) == HandleOpsSyncStep(old(client.State()), rst.obj, transferOk)
    {
      var ret: Option<Error> := None;
      if !IsInitStatus(rst.obj) {
        return None;
      }
      err := rst.UpdateCRStatus(rst.obj.name, StatusInProgress);
      if err.Some? {
        return Some(Quoted(err.value));
      }
      client.StartTransfer(RestoreTransfer(rst.obj.ObjKey()));
      if !transferOk {
        // The wrapped errors are discarded and `ret` is never assigned.
        var _ := rst.UpdateCRStatus(rst.obj.name, StatusFailed);
        return ret;
      }
      err := rst.UpdateCRStatus(rst.obj.name, StatusDone);
      if err.Some? {
        return Some(Quoted(err.value));
      }
    }

    /** `handleOps`; `null` stands for the missing restore of a malformed key. */
    method HandleOps(op: QueueOperation, rst: Restore.CStorRestore?, transferOk: bool) returns (err: Option<Error>)
      requires rst != null ==> rst.client == client
      modifies client
      ensures rst == null ==> client.State() == old(client.State()) && err == HandleOpsNilStep(op)
      ensures rst != null ==> (client.State(), err) == HandleOpsStep(old(client.State()), op, rst.obj, transferOk)
    {
      match op
      case QOpAdd =>
        if rst == null {
          return Some(NilPointer);
        }
        err := HandleOpsAdd(rst);
      case QOpSync =>
        if rst == null {
          return Some(NilPointer);
        }
        err := HandleOpsSync(rst, transferOk);
      case _ => err := None;
    }

    /** `processRestore`: one work-queue item. */
    method ProcessRestore(key: string, op: QueueOperation, transferOk: bool) returns (err: Option<Error>)
      modifies client
      ensures (client.State(), err) == ProcessRestoreStep(old(client.State()), key, op, transferOk)
    {
      var rst, e := GetResource(key);
      if e.Some? {
        return e;
      }
      err := HandleOps(op, rst, transferOk);
      if rst != null && err.Some? {
        err := Some(Wrapped(err.value));
      }
    }
  }
}
