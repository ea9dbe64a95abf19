/**
 * The restore job record. One record is created per volume replica; it is
 * named `restoreName-<uuid>` and carries the pool UID of its replica as a
 * label, which is how a pool instance recognises its own restores.
 *
 * `CStorRestore` is the wrapper the controller and the endpoint hold: the API
 * object and the client of the store.
 */
module Restore {
  import opened Apis
  import opened Store

  /** Whether this pool instance (with the given CStor ID from its
      environment) runs the restore: the ID is compared with the pool-UID label. */
  predicate IsRightCStorPoolMgmt(cstorID: string, a: Apis.CStorRestore) {
    cstorID == LabelOf(a.labels, PoolUUID)
  }

  /** The record name for a restore, given the generated UUID. */
  function ObjName(a: Apis.CStorRestore, uuid: string): (name: string)
    ensures |name| == |a.spec.restoreName| + 1 + |uuid|
    ensures name[..|a.spec.restoreName| + 1] == a.spec.restoreName + "-"
    ensures name[|a.spec.restoreName| + 1..] == uuid
  {
    a.spec.restoreName + "-" + uuid
  }

  predicate IsPendingStatus(a: Apis.CStorRestore) { a.status == StatusPending }
  predicate IsInProgressStatus(a: Apis.CStorRestore) { a.status == StatusInProgress }
  predicate IsInitStatus(a: Apis.CStorRestore) { a.status == StatusInit }
  predicate IsDoneStatus(a: Apis.CStorRestore) { a.status == StatusDone }
  predicate IsFailedStatus(a: Apis.CStorRestore) { a.status == StatusFailed }
  predicate IsDestroyEvent(a: Apis.CStorRestore) { a.deleting }

  /** Number of the five status predicates that hold. */
  function StatusesHeld(a: Apis.CStorRestore): nat {
    (if IsPendingStatus(a) then 1 else 0) + (if IsInProgressStatus(a) then 1 else 0)
    + (if IsInitStatus(a) then 1 else 0) + (if IsDoneStatus(a) then 1 else 0)
    + (if IsFailedStatus(a) then 1 else 0)
  }

  /** A record is in at most one of the five states. */
  lemma AtMostOneStatus(a: Apis.CStorRestore)
    ensures StatusesHeld(a) <= 1
    ensures StatusesHeld(a) == 1 <==>
      a.status in {StatusPending, StatusInProgress, StatusInit, StatusDone, StatusFailed}
  {
  }

  /** An update that touched the status and nothing in the spec. */
  predicate IsOnlyStatusChange(old_: Apis.CStorRestore, new_: Apis.CStorRestore) {
    old_.spec == new_.spec && old_.status != new_.status
  }

  /** What `UpdateCRStatus(name, status)` does: read the record `name` in the
      restore's namespace, then write it back with the new status. */
  function UpdateCRStatusStep(w: World, namespace: string, name: string, status: string): (res: (World, Option<Error>))
    ensures res.0.backups == w.backups && res.0.completed == w.completed
    ensures res.0.transfers == w.transfers
    ensures res.1.None? ==> res.0.replies == w.replies && res.0.answered == w.answered + 2
  {
    var (w1, r) := GetRestoreStep(w, Key(namespace, name));
    match r
    case Err(e) => (w1, Some(e))
    case Ok(ra) =>
      var (w2, u) := UpdateRestoreStep(w1, ra.(status := status));
      (w2, ErrorOf(u))
  }

  /** A status write changes only the status of the named record; when it
      fails, nothing is written. */
  lemma UpdateCRStatusEffect(w: World, namespace: string, name: string, status: string)
    requires WellKeyed(w)
    ensures var k := Key(namespace, name);
      var (w', err) := UpdateCRStatusStep(w, namespace, name, status);
      && WellKeyed(w')
      && (err == None <==> Accepts(w, 0) && k in w.restores && Accepts(w, 1))
      && (err == None ==> w'.restores == w.restores[k := w.restores[k].(status := status)])
      && (err != None ==> w'.restores == w.restores)
  {
    var k := Key(namespace, name);
    if Accepts(w, 0) && k in w.restores {
      assert w.restores[k].ObjKey() == k;
    }
  }

  /** The restore wrapper: the API object and the client of the store. */
  class CStorRestore {
    var obj: Apis.CStorRestore
    const client: ApiServer

    constructor (obj: Apis.CStorRestore, client: ApiServer)
      ensures this.obj == obj && this.client == client
    {
      this.obj := obj;
      this.client := client;
    }

    method SetStatus(status: string)
      modifies this
      ensures obj == old(obj).(status := status)
    {
      obj := obj.(status := status);
    }

    /** Replaces the whole label map. */
    method SetLabel(labels: Labels)
      modifies this
      ensures obj == old(obj).(labels := labels)
    {
      obj := obj.(labels := labels);
    }

    /** Names the record `restoreName-uuid`; `uuid` is the freshly generated
        UUID. `RegenerateObjName` is this method. */
    method SetObjName(uuid: string)
      modifies this
      ensures obj == old(obj).(name := ObjName(old(obj), uuid))
    {
      obj := obj.(name := obj.spec.restoreName + "-" + uuid);
    }

    /** Takes over the spec of another restore; name, labels and status stay. */
    method CopySpec(newobj: CStorRestore)
      modifies this
      ensures obj == old(obj).(spec := old(newobj.obj).spec)
    {
      obj := obj.(spec := newobj.obj.spec);
    }

    /** The record `name` fetched from the restore's namespace. */
    method GetCR(name: string) returns (r: Result<Apis.CStorRestore>)
      modifies client
      ensures (client.State(), r) == GetRestoreStep(old(client.State()), Key(obj.namespace, name))
    {
      r := client.GetRestore(Key(obj.namespace, name));
    }

    method CreateCR(o: Apis.CStorRestore) returns (r: Result<Apis.CStorRestore>)
      modifies client
      ensures (client.State(), r) == CreateRestoreStep(old(client.State()), o)
    {
      r := client.CreateRestore(o);
    }

    method UpdateCR(o: Apis.CStorRestore) returns (r: Result<Apis.CStorRestore>)
      modifies client
      ensures (client.State(), r) == UpdateRestoreStep(old(client.State()), o)
    {
      r := client.UpdateRestore(o);
    }

    method UpdateCRStatus(name: string, status: string) returns (err: Option<Error>)
      modifies client
      ensures (client.State(), err) == UpdateCRStatusStep(old(client.State()), obj.namespace, name, status)
    {
      var r := client.GetRestore(Key(obj.namespace, name));
      if r.Err? {
        return Some(r.error);
      }
      var ra := r.value.(status := status);
      var u := client.UpdateRestore(ra);
      err := ErrorOf(u);
    }
  }
}
