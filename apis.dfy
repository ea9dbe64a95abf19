/**
 * Shapes of the records the backup and restore subsystem reads and writes:
 * the CStorBackup / CStorBackupCompleted / CStorRestore custom resources, the
 * orchestrator's Pod, Node and CStorVolumeReplica objects as far as the
 * subsystem looks at them, queue items and the error values that flow
 * between the components.
 */
module Apis {

  datatype Option<+T> = None | Some(value: T)

  /** The errors that travel between the components. `Wrapped` is what
      `errors.Wrapf(err, ...)` builds (its cause is `err`); `Quoted` is what
      `errors.Errorf("...: %s", err.Error())` builds (a new error that only
      quotes `err`). */
  datatype Error =
    | NotFound(key: Key)          // the API server has no such object
    | AlreadyExists(key: Key)     // create of an object whose name is taken
    | Unavailable                 // the API server rejected or dropped the call
    | InvalidKey(queueKey: string)
    | NilResource(queueKey: string)
    | NilPointer                  // a Go nil-pointer dereference (a panic)
    | NoPod(cstorID: string)
    | NoOperatorNamespace
    | PodListFailed
    | NodeNameMissing
    | NodeNotFound(nodeName: string)
    | ClientUnavailable
    | NoHealthyReplica
    | ReplicaListFailed
    | IndexOutOfRange             // a Go index-out-of-range panic
    | ProbeFailed(nodeError: Option<Error>, podError: Option<Error>)
    | InvalidRequest              // a request field that must be set is empty
    | SnapshotFailed              // the volume snapshot could not be taken
    | Wrapped(cause: Error)
    | Quoted(cause: Error)

  datatype Result<+T> = Ok(value: T) | Err(error: Error)

  /** `errors.Cause`: the innermost error under the `Wrapped` layers. */
  function Cause(e: Error): (c: Error)
    ensures !c.Wrapped?
  {
    if e.Wrapped? then Cause(e.cause) else e
  }

  /** An object's identity in the store. */
  datatype Key = Key(namespace: string, name: string)

  type Labels = map<string, string>

  /** `m[k]` in Go: a missing key reads as the empty string. */
  function LabelOf(m: Labels, k: string): string {
    if k in m then m[k] else ""
  }

  // Label keys and names used by both endpoints (backup_endpoint_v1alpha1.go:44-62).
  const PoolUUID := "cstorpool.openebs.io/uid"
  const OpenEBSPV := "openebs.io/persistent-volume"
  const OpenEBSBackup := "openebs.io/backup"
  const OpenEBSRestore := "openebs.io/restore"
  const CStorPoolMgmtContainer := "cstor-pool-mgmt"
  const CStorIDEnv := "OPENEBS_IO_CSTOR_ID"

  // Status strings of CStorBackup and CStorRestore.
  const StatusEmpty := ""
  const StatusDone := "Done"
  const StatusFailed := "Failed"
  const StatusInit := "Init"
  const StatusPending := "Pending"
  const StatusInProgress := "InProgress"
  const StatusInvalid := "Invalid"

  datatype BackupSpec = BackupSpec(
    backupName: string,
    volumeName: string,
    snapName: string,
    prevSnapName: string,
    backupDest: string,
    asyncBackup: bool,
    cloudCred: map<string, string>)

  /** A CStorBackup resource. `deleting` stands for a non-nil deletion timestamp. */
  datatype CStorBackup = CStorBackup(
    name: string,
    namespace: string,
    uid: string,
    resourceVersion: string,
    labels: Labels,
    deleting: bool,
    spec: BackupSpec,
    status: string)
  {
    function ObjKey(): Key { Key(namespace, name) }
  }

  /** The completed-backup ledger record: its spec is a BackupSpec of which
      only backupName, volumeName, snapName and prevSnapName are filled. */
  datatype CStorBackupCompleted = CStorBackupCompleted(
    name: string,
    namespace: string,
    labels: Labels,
    spec: BackupSpec)
  {
    function ObjKey(): Key { Key(namespace, name) }
  }

  datatype RestoreSpec = RestoreSpec(
    restoreName: string,
    volumeName: string,
    restoreSrc: string)

  datatype CStorRestore = CStorRestore(
    name: string,
    namespace: string,
    resourceVersion: string,
    labels: Labels,
    deleting: bool,
    spec: RestoreSpec,
    status: string)
  {
    function ObjKey(): Key { Key(namespace, name) }
  }

  // The orchestrator's objects, reduced to the fields the health probes read.
  datatype EnvVar = EnvVar(name: string, value: string)
  datatype Container = Container(name: string, env: seq<EnvVar>)
  datatype ContainerStatus = ContainerStatus(name: string, ready: bool)
  datatype Pod = Pod(
    name: string,
    nodeName: string,
    containers: seq<Container>,
    containerStatuses: seq<ContainerStatus>)
  datatype NodeCondition = NodeCondition(condType: string, status: string)
  datatype Node = Node(name: string, conditions: seq<NodeCondition>)

  const NodeReady := "Ready"
  const ConditionTrue := "True"
  const CVRStatusOnline := "Healthy"

  datatype CStorVolumeReplica = CStorVolumeReplica(name: string, labels: Labels, phase: string)

  /** What the orchestrator answers: whether the in-cluster clients can be
      built, the operator namespace read from the environment, the pods
      labelled `app=cstor-pool` in it (None when the list call fails), the
      nodes by name, and all volume replicas of the cluster (None when the
      list call fails). */
  datatype Orchestrator = Orchestrator(
    clientOk: bool,
    operatorNamespace: string,
    pods: Option<seq<Pod>>,
    nodes: map<string, Node>,
    replicas: Option<seq<CStorVolumeReplica>>)

  datatype QueueOperation = QOpAdd | QOpSync | QOpDestroy | QOpOther(name: string)

  /** A work-queue item: the object key `namespace/name` and the operation. */
  datatype QueueLoad = QueueLoad(key: string, operation: QueueOperation)

  /** An HTTP error with its status code. */
  datatype HttpError = CodedError(code: int, cause: Error)

  /** What an HTTP handler answers: a body, or an error with its code. */
  datatype HttpResult<+T> = Served(value: T) | Refused(error: HttpError)

  /** `cache.MetaNamespaceKeyFunc`: `namespace/name`, or `name` alone when
      the namespace is empty. */
  function MetaNamespaceKey(namespace: string, name: string): string {
    if namespace == "" then name else namespace + "/" + name
  }

  /** Position of the first '/' in `s`, or |s| when there is none. */
  function SlashAt(s: string): (i: nat)
    ensures i <= |s|
    ensures forall j :: 0 <= j < i ==> s[j] != '/'
    ensures i < |s| ==> s[i] == '/'
  {
    if s == [] then 0 else if s[0] == '/' then 0 else 1 + SlashAt(s[1..])
  }

  predicate NoSlash(s: string) {
    forall j :: 0 <= j < |s| ==> s[j] != '/'
  }

  /** `cache.SplitMetaNamespaceKey`: a key without '/' is a bare name in the
      empty namespace, `ns/name` splits at its only '/', and a key with two
      or more '/' is malformed. */
  function SplitMetaNamespaceKey(key: string): (r: Result<(string, string)>)
    ensures r.Ok? <==> (SlashAt(key) == |key| || NoSlash(key[SlashAt(key) + 1..]))
    ensures r.Ok? && NoSlash(key) ==> r.value == ("", key)
    ensures r.Ok? ==> NoSlash(r.value.1) && NoSlash(r.value.0)
    ensures r.Err? ==> r.error == InvalidKey(key)
  {
    var i := SlashAt(key);
    if i == |key| then Ok(("", key))
    else if NoSlash(key[i + 1..]) then Ok((key[..i], key[i + 1..]))
    else Err(InvalidKey(key))
  }

  /** The key the event handlers enqueue splits back into the object's
      namespace and name, for names and namespaces without '/'. */
  lemma {:induction false} SplitMetaNamespaceKeyRoundTrip(namespace: string, name: string)
    requires NoSlash(namespace) && NoSlash(name)
    ensures SplitMetaNamespaceKey(MetaNamespaceKey(namespace, name)) == Ok((namespace, name))
  {
    var key := MetaNamespaceKey(namespace, name);
    if namespace == "" {
      SlashAtNone(name);
    } else {
      SlashAtFirst(namespace, name);
      assert key[|namespace|..] == "/" + name;
      assert key[|namespace| + 1..] == name;
      assert key[..|namespace|] == namespace;
    }
  }

  lemma {:induction false} SlashAtNone(s: string)
    requires NoSlash(s)
    ensures SlashAt(s) == |s|
  {
    if s != [] {
      SlashAtNone(s[1..]);
    }
  }

  lemma {:induction false} SlashAtFirst(a: string, b: string)
    requires NoSlash(a)
    ensures SlashAt(a + "/" + b) == |a|
  {
    if a != [] {
      assert (a + "/" + b)[1..] == a[1..] + "/" + b;
      SlashAtFirst(a[1..], b);
    }
  }
}
