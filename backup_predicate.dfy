/**
 * The checks a backup request is validated with: each is a predicate over the
 * job record, handed to the record builder's `WithCheck`.
 */
module BackupPredicates {
  import Apis
  import Backup

  type PredicateFunc = Apis.CStorBackup -> bool

  function IsBackupNameSet(): (p: PredicateFunc)
    ensures forall c :: p(c) <==> c.spec.backupName != ""
  {
    (c: Apis.CStorBackup) => |c.spec.backupName| != 0
  }

  function IsVolumeNameSet(): (p: PredicateFunc)
    ensures forall c :: p(c) <==> c.spec.volumeName != ""
  {
    (c: Apis.CStorBackup) => |c.spec.volumeName| != 0
  }

  function IsSnapNameSet(): (p: PredicateFunc)
    ensures forall c :: p(c) <==> c.spec.snapName != ""
  {
    (c: Apis.CStorBackup) => |c.spec.snapName| != 0
  }

  function IsPrevSnapNameSet(): (p: PredicateFunc)
    ensures forall c :: p(c) <==> c.spec.prevSnapName != ""
  {
    (c: Apis.CStorBackup) => |c.spec.prevSnapName| != 0
  }

  function IsNamespaceSet(): (p: PredicateFunc)
    ensures forall c :: p(c) <==> c.namespace != ""
  {
    (c: Apis.CStorBackup) => |c.namespace| != 0
  }

  function IsBackupDestSet(): (p: PredicateFunc)
    ensures forall c :: p(c) <==> c.spec.backupDest != ""
  {
    (c: Apis.CStorBackup) => |c.spec.backupDest| != 0
  }

  function IsPendingStatus(): (p: PredicateFunc)
    ensures forall c :: p(c) <==> c.status == Apis.StatusPending
  {
    c => Backup.IsPendingStatus(c)
  }

  function IsInProgressStatus(): (p: PredicateFunc)
    ensures forall c :: p(c) <==> c.status == Apis.StatusInProgress
  {
    c => Backup.IsInProgressStatus(c)
  }

  function IsInitStatus(): (p: PredicateFunc)
    ensures forall c :: p(c) <==> c.status == Apis.StatusInit
  {
    c => Backup.IsInitStatus(c)
  }

  function IsDoneStatus(): (p: PredicateFunc)
    ensures forall c :: p(c) <==> c.status == Apis.StatusDone
  {
    c => Backup.IsDoneStatus(c)
  }

  function IsFailedStatus(): (p: PredicateFunc)
    ensures forall c :: p(c) <==> c.status == Apis.StatusFailed
  {
    c => Backup.IsFailedStatus(c)
  }

  function IsDestroyEvent(): (p: PredicateFunc)
    ensures forall c :: p(c) <==> c.deleting
  {
    c => Backup.IsDestroyEvent(c)
  }

  function IsOnlyStatusChange(newbkp: Apis.CStorBackup): (p: PredicateFunc)
    ensures forall c :: p(c) <==> c.spec == newbkp.spec && c.status != newbkp.status
  {
    c => Backup.IsOnlyStatusChange(c, newbkp)
  }
}
