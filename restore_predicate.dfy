/**
 * The checks a restore request is validated with: each is a predicate over
 * the restore record, handed to the record builder's `WithCheck`.
 */
module RestorePredicates {
  import Apis
  import Restore

  type PredicateFunc = Apis.CStorRestore -> bool

  function IsRestoreNameSet(): (p: PredicateFunc)
    ensures forall c :: p(c) <==> c.spec.restoreName != ""
  {
    (c: Apis.CStorRestore) => |c.spec.restoreName| != 0
  }

  function IsVolumeNameSet(): (p: PredicateFunc)
    ensures forall c :: p(c) <==> c.spec.volumeName != ""
  {
    (c: Apis.CStorRestore) => |c.spec.volumeName| != 0
  }

  function IsNamespaceSet(): (p: PredicateFunc)
    ensures forall c :: p(c) <==> c.namespace != ""
  {
    (c: Apis.CStorRestore) => |c.namespace| != 0
  }

  function IsRestoreSrcSet(): (p: PredicateFunc)
    ensures forall c :: p(c) <==> c.spec.restoreSrc != ""
  {
    (c: Apis.CStorRestore) => |c.spec.restoreSrc| != 0
  }

  function IsPendingStatus(): (p: PredicateFunc)
    ensures forall c :: p(c) <==> c.status == Apis.StatusPending
  {
    c => Restore.IsPendingStatus(c)
  }

  function IsInProgressStatus(): (p: PredicateFunc)
    ensures forall c :: p(c) <==> c.status == Apis.StatusInProgress
  {
    c => Restore.IsInProgressStatus(c)
  }

  function IsInitStatus(): (p: PredicateFunc)
    ensures forall c :: p(c) <==> c.status == Apis.StatusInit
  {
    c => Restore.IsInitStatus(c)
  }

  function IsDoneStatus(): (p: PredicateFunc)
    ensures forall c :: p(c) <==> c.status == Apis.StatusDone
  {
    c => Restore.IsDoneStatus(c)
  }

  function IsFailedStatus(): (p: PredicateFunc)
    ensures forall c :: p(c) <==> c.status == Apis.StatusFailed
  {
    c => Restore.IsFailedStatus(c)
  }

  function IsDestroyEvent(): (p: PredicateFunc)
    ensures forall c :: p(c) <==> c.deleting
  {
    c => Restore.IsDestroyEvent(c)
  }

  function IsOnlyStatusChange(newrst: Apis.CStorRestore): (p: PredicateFunc)
    ensures forall c :: p(c) <==> c.spec == newrst.spec && c.status != newrst.status
  {
    c => Restore.IsOnlyStatusChange(c, newrst)
  }
}
