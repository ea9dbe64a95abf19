/**
 * The resource store the controllers and endpoints talk to, as a value.
 *
 * A `World` holds the CStorBackup, CStorBackupCompleted (ledger) and
 * CStorRestore objects by key, the API server's answers to the calls
 * (`replies`: one answer per Get, Create or Update, in call order; `true`
 * accepts the call, `false` rejects it as a transient failure; calls past the
 * end of the script are accepted), how many calls have been answered so far,
 * and the log of transfers handed to the storage engine.
 *
 * The `...Step` functions say what one call does to a World; the
 * `ApiServer` class holds the same state in fields, and each of its methods
 * makes exactly the matching step.
 */
module Store {
  import opened Apis

  /** A backup or restore transfer handed to the storage engine for a job. */
  datatype Transfer = BackupTransfer(job: Key) | RestoreTransfer(job: Key)

  datatype World = World(
    backups: map<Key, CStorBackup>,
    completed: map<Key, CStorBackupCompleted>,
    restores: map<Key, CStorRestore>,
    replies: seq<bool>,
    answered: nat,
    transfers: seq<Transfer>)

  /** Every stored object sits under its own key. */
  ghost predicate WellKeyed(w: World) {
    && (forall k :: k in w.backups ==> w.backups[k].ObjKey() == k)
    && (forall k :: k in w.completed ==> w.completed[k].ObjKey() == k)
    && (forall k :: k in w.restores ==> w.restores[k].ObjKey() == k)
  }

  /** Whether the n-th call from now is accepted. */
  predicate Accepts(w: World, n: nat) {
    w.answered + n >= |w.replies| || w.replies[w.answered + n]
  }

  /** The script is used up: every further call is accepted. */
  predicate Healthy(w: World) {
    |w.replies| <= w.answered
  }

  function Answered(w: World): (w': World)
    ensures w'.answered == w.answered + 1
    ensures w' == w.(answered := w'.answered)
  {
    w.(answered := w.answered + 1)
  }

  // What Get, Create and Update do to one map of objects.

  function Lookup<T>(m: map<Key, T>, accepted: bool, k: Key): (r: Result<T>)
    ensures r.Ok? <==> accepted && k in m
    ensures r.Ok? ==> r.value == m[k]
  {
    if !accepted then Err(Unavailable)
    else if k in m then Ok(m[k])
    else Err(NotFound(k))
  }

  function Insert<T>(m: map<Key, T>, accepted: bool, k: Key, v: T): (r: Result<map<Key, T>>)
    ensures r.Ok? <==> accepted && k !in m
    ensures r.Ok? ==> r.value == m[k := v]
  {
    if !accepted then Err(Unavailable)
    else if k in m then Err(AlreadyExists(k))
    else Ok(m[k := v])
  }

  function Replace<T>(m: map<Key, T>, accepted: bool, k: Key, v: T): (r: Result<map<Key, T>>)
    ensures r.Ok? <==> accepted && k in m
    ensures r.Ok? ==> r.value == m[k := v]
  {
    if !accepted then Err(Unavailable)
    else if k !in m then Err(NotFound(k))
    else Ok(m[k := v])
  }

  // One call to the API server, per kind of object.

  function GetBackupStep(w: World, k: Key): (World, Result<CStorBackup>) {
    (Answered(w), Lookup(w.backups, Accepts(w, 0), k))
  }

  function UpdateBackupStep(w: World, obj: CStorBackup): (World, Result<CStorBackup>) {
    match Replace(w.backups, Accepts(w, 0), obj.ObjKey(), obj)
    case Ok(m) => (Answered(w).(backups := m), Ok(obj))
    case Err(e) => (Answered(w), Err(e))
  }

  function CreateBackupStep(w: World, obj: CStorBackup): (World, Result<CStorBackup>) {
    match Insert(w.backups, Accepts(w, 0), obj.ObjKey(), obj)
    case Ok(m) => (Answered(w).(backups := m), Ok(obj))
    case Err(e) => (Answered(w), Err(e))
  }

  function GetCompletedStep(w: World, k: Key): (World, Result<CStorBackupCompleted>) {
    (Answered(w), Lookup(w.completed, Accepts(w, 0), k))
  }

  function CreateCompletedStep(w: World, obj: CStorBackupCompleted): (World, Result<CStorBackupCompleted>) {
    match Insert(w.completed, Accepts(w, 0), obj.ObjKey(), obj)
    case Ok(m) => (Answered(w).(completed := m), Ok(obj))
    case Err(e) => (Answered(w), Err(e))
  }

  function UpdateCompletedStep(w: World, obj: CStorBackupCompleted): (World, Result<CStorBackupCompleted>) {
    match Replace(w.completed, Accepts(w, 0), obj.ObjKey(), obj)
    case Ok(m) => (Answered(w).(completed := m), Ok(obj))
    case Err(e) => (Answered(w), Err(e))
  }

  function GetRestoreStep(w: World, k: Key): (World, Result<CStorRestore>) {
    (Answered(w), Lookup(w.restores, Accepts(w, 0), k))
  }

  function CreateRestoreStep(w: World, obj: CStorRestore): (World, Result<CStorRestore>) {
    match Insert(w.restores, Accepts(w, 0), obj.ObjKey(), obj)
    case Ok(m) => (Answered(w).(restores := m), Ok(obj))
    case Err(e) => (Answered(w), Err(e))
  }

  function UpdateRestoreStep(w: World, obj: CStorRestore): (World, Result<CStorRestore>) {
    match Replace(w.restores, Accepts(w, 0), obj.ObjKey(), obj)
    case Ok(m) => (Answered(w).(restores := m), Ok(obj))
    case Err(e) => (Answered(w), Err(e))
  }

  function TransferStep(w: World, t: Transfer): World {
    w.(transfers := w.transfers + [t])
  }

  /** No call of a step moves an object away from its own key. */
  lemma StepsKeepWellKeyed(w: World)
    requires WellKeyed(w)
    ensures forall k :: WellKeyed(GetBackupStep(w, k).0) && WellKeyed(GetCompletedStep(w, k).0)
    ensures forall k :: WellKeyed(GetRestoreStep(w, k).0)
    ensures forall o :: WellKeyed(CreateBackupStep(w, o).0) && WellKeyed(UpdateBackupStep(w, o).0)
    ensures forall o :: WellKeyed(CreateCompletedStep(w, o).0) && WellKeyed(UpdateCompletedStep(w, o).0)
    ensures forall o :: WellKeyed(CreateRestoreStep(w, o).0) && WellKeyed(UpdateRestoreStep(w, o).0)
    ensures forall t :: WellKeyed(TransferStep(w, t))
  {
  }

  /** An update of a job writes the object under its key when the call is
      accepted and the key exists, and changes nothing else. */
  lemma UpdateBackupWrites(w: World, o: CStorBackup)
    requires WellKeyed(w)
    ensures var (w', r) := UpdateBackupStep(w, o);
      && WellKeyed(w') && w'.answered == w.answered + 1 && w'.replies == w.replies
      && w'.completed == w.completed && w'.restores == w.restores && w'.transfers == w.transfers
      && (r.Ok? <==> Accepts(w, 0) && o.ObjKey() in w.backups)
      && w'.backups == (if r.Ok? then w.backups[o.ObjKey() := o] else w.backups)
  {
  }

  /** An update of a restore writes the object under its key when the call
      is accepted and the key exists, and changes nothing else. */
  lemma UpdateRestoreWrites(w: World, o: CStorRestore)
    requires WellKeyed(w)
    ensures var (w', r) := UpdateRestoreStep(w, o);
      && WellKeyed(w') && w'.answered == w.answered + 1 && w'.replies == w.replies
      && w'.backups == w.backups && w'.completed == w.completed && w'.transfers == w.transfers
      && (r.Ok? <==> Accepts(w, 0) && o.ObjKey() in w.restores)
      && w'.restores == (if r.Ok? then w.restores[o.ObjKey() := o] else w.restores)
  {
  }

  /** The error of a call, if any. */
  function ErrorOf<T>(r: Result<T>): Option<Error> {
    if r.Err? then Some(r.error) else None
  }

  /** The API server and the storage engine's transfer log, as mutable state. */
  class ApiServer {
    var backups: map<Key, CStorBackup>
    var completed: map<Key, CStorBackupCompleted>
    var restores: map<Key, CStorRestore>
    var replies: seq<bool>
    var answered: nat
    var transfers: seq<Transfer>

    function State(): World
      reads this
    {
      World(backups, completed, restores, replies, answered, transfers)
    }

    constructor (w: World)
      ensures State() == w
    {
      backups, completed, restores := w.backups, w.completed, w.restores;
      replies, answered, transfers := w.replies, w.answered, w.transfers;
    }

    method GetBackup(k: Key) returns (r: Result<CStorBackup>)
      modifies this
      ensures (State(), r) == GetBackupStep(old(State()), k)
    {
      r := Lookup(backups, Accepts(State(), 0), k);
      answered := answered + 1;
    }

    method CreateBackup(obj: CStorBackup) returns (r: Result<CStorBackup>)
      modifies this
      ensures (State(), r) == CreateBackupStep(old(State()), obj)
    {
      var m := Insert(backups, Accepts(State(), 0), obj.ObjKey(), obj);
      answered := answered + 1;
      if m.Ok? {
        backups := m.value;
        r := Ok(obj);
      } else {
        r := Err(m.error);
      }
    }

    method UpdateBackup(obj: CStorBackup) returns (r: Result<CStorBackup>)
      modifies this
      ensures (State(), r) == UpdateBackupStep(old(State()), obj)
    {
      var m := Replace(backups, Accepts(State(), 0), obj.ObjKey(), obj);
      answered := answered + 1;
      if m.Ok? {
        backups := m.value;
        r := Ok(obj);
      } else {
        r := Err(m.error);
      }
    }

    method GetCompleted(k: Key) returns (r: Result<CStorBackupCompleted>)
      modifies this
      ensures (State(), r) == GetCompletedStep(old(State()), k)
    {
      r := Lookup(completed, Accepts(State(), 0), k);
      answered := answered + 1;
    }

    method CreateCompleted(obj: CStorBackupCompleted) returns (r: Result<CStorBackupCompleted>)
      modifies this
      ensures (State(), r) == CreateCompletedStep(old(State()), obj)
    {
      var m := Insert(completed, Accepts(State(), 0), obj.ObjKey(), obj);
      answered := answered + 1;
      if m.Ok? {
        completed := m.value;
        r := Ok(obj);
      } else {
        r := Err(m.error);
      }
    }

    method UpdateCompleted(obj: CStorBackupCompleted) returns (r: Result<CStorBackupCompleted>)
      modifies this
      ensures (State(), r) == UpdateCompletedStep(old(State()), obj)
    {
      var m := Replace(completed, Accepts(State(), 0), obj.ObjKey(), obj);
      answered := answered + 1;
      if m.Ok? {
        completed := m.value;
        r := Ok(obj);
      } else {
        r := Err(m.error);
      }
    }

    method GetRestore(k: Key) returns (r: Result<CStorRestore>)
      modifies this
      ensures (State(), r) == GetRestoreStep(old(State()), k)
    {
      r := Lookup(restores, Accepts(State(), 0), k);
      answered := answered + 1;
    }

    method CreateRestore(obj: CStorRestore) returns (r: Result<CStorRestore>)
      modifies this
      ensures (State(), r) == CreateRestoreStep(old(State()), obj)
    {
      var m := Insert(restores, Accepts(State(), 0), obj.ObjKey(), obj);
      answered := answered + 1;
      if m.Ok? {
        restores := m.value;
        r := Ok(obj);
      } else {
        r := Err(m.error);
      }
    }

    method UpdateRestore(obj: CStorRestore) returns (r: Result<CStorRestore>)
      modifies this
      ensures (State(), r) == UpdateRestoreStep(old(State()), obj)
    {
      var m := Replace(restores, Accepts(State(), 0), obj.ObjKey(), obj);
      answered := answered + 1;
      if m.Ok? {
        restores := m.value;
        r := Ok(obj);
      } else {
        r := Err(m.error);
      }
    }

    /** Hand a transfer to the storage engine; whether it succeeds is the
        caller's input. */
    method StartTransfer(t: Transfer)
      modifies this
      ensures State() == TransferStep(old(State()), t)
    {
      transfers := transfers + [t];
    }
  }
}
