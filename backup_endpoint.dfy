/**
 * The backup endpoint of the API server.
 *
 * A POST validates the request, takes the volume snapshot, picks a healthy
 * replica of the volume and writes a Pending job for the pool that hosts it.
 * A GET reads the job and, while it is neither Done nor Failed, asks the
 * orchestrator whether the pool's node and pool pod are still up; a job
 * whose pool went down is resolved from the completed-backup ledger.
 *
 * The orchestrator's answers (pods, nodes, replicas) are an `Orchestrator`
 * value; the job and ledger records live in the store's `World`.
 */
module BackupEndpoint {
  import opened Apis
  import opened Store
  import opened Backup
  import BackupPredicates

  // ---------------------------------------------------------------------
  // Finding the pool pod of a CStor ID

  /** Some variable of the environment carries the CStor ID. */
  predicate EnvHasCStorID(env: seq<EnvVar>, cstorID: string) {
    exists k :: 0 <= k < |env| && env[k].name == CStorIDEnv && env[k].value == cstorID
  }

  /** The pod's first container carries the CStor ID. */
  predicate PodCarries(p: Pod, cstorID: string) {
    |p.containers| > 0 && EnvHasCStorID(p.containers[0].env, cstorID)
  }

  /** The search looks at the pod and moves on. */
  predicate PodPassed(p: Pod, cstorID: string) {
    |p.containers| > 0 && !EnvHasCStorID(p.containers[0].env, cstorID)
  }

  /** The pod search of `findPodFromCStorID` from index `i` on: the first pod
      whose first container carries the ID. The search reads `Containers[0]`
      of every pod it visits, so a pod without containers ends it with an
      index-out-of-range panic. */
  function PodSearch(pods: seq<Pod>, cstorID: string, i: nat): (r: Result<nat>)
    requires i <= |pods|
    decreases |pods| - i
    ensures r.Ok? ==> i <= r.value < |pods| && PodCarries(pods[r.value], cstorID)
    ensures r.Ok? ==> forall j :: i <= j < r.value ==> PodPassed(pods[j], cstorID)
    ensures r == Err(NoPod(cstorID)) <==> forall j :: i <= j < |pods| ==> PodPassed(pods[j], cstorID)
    ensures r.Err? ==> r.error == NoPod(cstorID) || r.error == IndexOutOfRange
    ensures r == Err(IndexOutOfRange) ==>
      exists j :: i <= j < |pods| && |pods[j].containers| == 0
  {
    if i == |pods| then Err(NoPod(cstorID))
    else if |pods[i].containers| == 0 then Err(IndexOutOfRange)
    else if EnvHasCStorID(pods[i].containers[0].env, cstorID) then Ok(i)
    else PodSearch(pods, cstorID, i + 1)
  }

  /** `findPodFromCStorID`: the pool pod (among the pods labelled
      `app=cstor-pool` in the operator namespace) that carries the ID. */
  function PodOfCStorID(o: Orchestrator, cstorID: string): (r: Result<Pod>)
    ensures r.Ok? ==> o.operatorNamespace != "" && o.pods.Some?
    ensures r.Ok? ==> r.value in o.pods.value && PodCarries(r.value, cstorID)
    ensures r == Err(NoOperatorNamespace) <==> o.operatorNamespace == ""
    ensures r == Err(PodListFailed) <==> o.operatorNamespace != "" && o.pods.None?
    ensures r == Err(NoPod(cstorID)) <==>
      && o.operatorNamespace != "" && o.pods.Some?
      && forall p :: p in o.pods.value ==> PodPassed(p, cstorID)
  {
    if o.operatorNamespace == "" then Err(NoOperatorNamespace)
    else match o.pods
      case None => Err(PodListFailed)
      case Some(pods) =>
        var s := PodSearch(pods, cstorID, 0);
        assert (forall p :: p in pods ==> PodPassed(p, cstorID))
           <==> (forall j :: 0 <= j < |pods| ==> PodPassed(pods[j], cstorID));
        match s
        case Ok(k) => Ok(pods[k])
        case Err(e) => Err(e)
  }

  method FindPodFromCStorID(o: Orchestrator, cstorID: string) returns (r: Result<Pod>)
    ensures r == PodOfCStorID(o, cstorID)
  {
    if o.operatorNamespace == "" {
      return Err(NoOperatorNamespace);
    }
    if o.pods.None? {
      return Err(PodListFailed);
    }
    var pods := o.pods.value;
    var i := 0;
    while i < |pods|
      invariant 0 <= i <= |pods|
      invariant PodSearch(pods, cstorID, i) == PodSearch(pods, cstorID, 0)
    {
      var pod := pods[i];
      if |pod.containers| == 0 {
        return Err(IndexOutOfRange);
      }
      var env := pod.containers[0].env;
      for k := 0 to |env|
        invariant forall l :: 0 <= l < k ==> !(env[l].name == CStorIDEnv && env[l].value == cstorID)
      {
        if env[k].name == CStorIDEnv && env[k].value == cstorID {
          return Ok(pod);
        }
      }
      i := i + 1;
    }
    return Err(NoPod(cstorID));
  }

  // ---------------------------------------------------------------------
  // Node and pod probes

  /** Some condition of type Ready is not True. */
  predicate NodeNotReady(conds: seq<NodeCondition>) {
    exists k :: 0 <= k < |conds| && conds[k].condType == NodeReady && conds[k].status != ConditionTrue
  }

  /** `checkIfBKPPoolNodeDown` for the pool with this CStor ID: whether the
      pool's node is down, and the error that stopped the probe. A probe that
      could not finish reports the node as down. */
  function PoolNodeDown(o: Orchestrator, cstorID: string): (res: (bool, Option<Error>))
    ensures res.1.Some? ==> res.0
    ensures !o.clientOk ==> res == (true, Some(Quoted(ClientUnavailable)))
    ensures o.clientOk && PodOfCStorID(o, cstorID).Err? ==>
      res == (true, Some(Quoted(PodOfCStorID(o, cstorID).error)))
    ensures res.1 == None <==>
      && o.clientOk && PodOfCStorID(o, cstorID).Ok?
      && PodOfCStorID(o, cstorID).value.nodeName != ""
      && PodOfCStorID(o, cstorID).value.nodeName in o.nodes
    ensures res.1 == None ==>
      (res.0 <==> NodeNotReady(o.nodes[PodOfCStorID(o, cstorID).value.nodeName].conditions))
  {
    if !o.clientOk then (true, Some(Quoted(ClientUnavailable)))
    else match PodOfCStorID(o, cstorID)
      case Err(e) => (true, Some(Quoted(e)))
      case Ok(pod) =>
        if pod.nodeName == "" then (true, Some(NodeNameMissing))
        else if pod.nodeName !in o.nodes then (true, Some(Quoted(NodeNotFound(pod.nodeName))))
        else (NodeNotReady(o.nodes[pod.nodeName].conditions), None)
  }

  /** `checkIfBKPPoolNodeDown` on the pool-UID label of a job, and its twin
      `checkIfRSTPoolNodeDown` on that of a restore. */
  method CheckIfPoolNodeDown(o: Orchestrator, cstorID: string) returns (down: bool, err: Option<Error>)
    ensures (down, err) == PoolNodeDown(o, cstorID)
  {
    if !o.clientOk {
      return true, Some(Quoted(ClientUnavailable));
    }
    var r := FindPodFromCStorID(o, cstorID);
    if r.Err? {
      return true, Some(Quoted(r.error));
    }
    var pod := r.value;
    if pod.nodeName == "" {
      return true, Some(NodeNameMissing);
    }
    if pod.nodeName !in o.nodes {
      return true, Some(Quoted(NodeNotFound(pod.nodeName)));
    }
    var conds := o.nodes[pod.nodeName].conditions;
    for k := 0 to |conds|
      invariant forall l :: 0 <= l < k ==> !(conds[l].condType == NodeReady && conds[l].status != ConditionTrue)
    {
      if conds[k].condType == NodeReady && conds[k].status != ConditionTrue {
        return true, None;
      }
    }
    return false, None;
  }

  /** The first status from `i` on that belongs to the pool-management container. */
  function MgmtStatusSearch(st: seq<ContainerStatus>, i: nat): (r: Option<nat>)
    requires i <= |st|
    decreases |st| - i
    ensures r.Some? ==> i <= r.value < |st| && st[r.value].name == CStorPoolMgmtContainer
    ensures r.Some? ==> forall j :: i <= j < r.value ==> st[j].name != CStorPoolMgmtContainer
    ensures r.None? <==> forall j :: i <= j < |st| ==> st[j].name != CStorPoolMgmtContainer
  {
    if i == |st| then None
    else if st[i].name == CStorPoolMgmtContainer then Some(i)
    else MgmtStatusSearch(st, i + 1)
  }

  /** `checkIfBKPPoolPodDown`: the pool-management container of the pool pod
      is down when its first status says not ready, or when it has no status
      at all. A probe that could not finish reports the pod as down. */
  function PoolPodDown(o: Orchestrator, cstorID: string): (res: (bool, Option<Error>))
    ensures res.1.Some? ==> res.0
    ensures !o.clientOk ==> res == (true, Some(Quoted(ClientUnavailable)))
    ensures o.clientOk && PodOfCStorID(o, cstorID).Err? ==>
      res == (true, Some(Quoted(PodOfCStorID(o, cstorID).error)))
    ensures res.1 == None <==> o.clientOk && PodOfCStorID(o, cstorID).Ok?
    ensures res.1 == None ==>
      var st := PodOfCStorID(o, cstorID).value.containerStatuses;
      var m := MgmtStatusSearch(st, 0);
      res.0 <==> m.None? || !st[m.value].ready
  {
    if !o.clientOk then (true, Some(Quoted(ClientUnavailable)))
    else match PodOfCStorID(o, cstorID)
      case Err(e) => (true, Some(Quoted(e)))
      case Ok(pod) =>
        match MgmtStatusSearch(pod.containerStatuses, 0)
        case None => (true, None)
        case Some(k) => (!pod.containerStatuses[k].ready, None)
  }

  /** `checkIfBKPPoolPodDown` on the pool-UID label of a job, and its twin
      `checkIfRSTPoolPodDown` on that of a restore. */
  method CheckIfPoolPodDown(o: Orchestrator, cstorID: string) returns (down: bool, err: Option<Error>)
    ensures (down, err) == PoolPodDown(o, cstorID)
  {
    if !o.clientOk {
      return true, Some(Quoted(ClientUnavailable));
    }
    var r := FindPodFromCStorID(o, cstorID);
    if r.Err? {
      return true, Some(Quoted(r.error));
    }
    var st := r.value.containerStatuses;
    var i := 0;
    while i < |st|
      invariant 0 <= i <= |st|
      invariant MgmtStatusSearch(st, i) == MgmtStatusSearch(st, 0)
    {
      if st[i].name == CStorPoolMgmtContainer {
        return !st[i].ready, None;
      }
      i := i + 1;
    }
    return true, None;
  }

  // ---------------------------------------------------------------------
  // Choosing the replica to back up from

  /** The replica belongs to the volume (the `openebs.io/persistent-volume`
      label the list call selects on). */
  predicate ServesVolume(c: CStorVolumeReplica, volume: string) {
    LabelOf(c.labels, OpenEBSPV) == volume
  }

  predicate IsOnline(c: CStorVolumeReplica) {
    c.phase == CVRStatusOnline
  }

  /** The replicas the list call selects with the volume's label, in list
      order. */
  function VolumeReplicas(cvrs: seq<CStorVolumeReplica>, volume: string): (sel: seq<CStorVolumeReplica>)
    ensures forall c :: c in sel <==> c in cvrs && ServesVolume(c, volume)
    ensures |sel| <= |cvrs|
  {
    if |cvrs| == 0 then []
    else
      var rest := VolumeReplicas(cvrs[1..], volume);
      assert forall c :: c in cvrs <==> c == cvrs[0] || c in cvrs[1..];
      if ServesVolume(cvrs[0], volume) then [cvrs[0]] + rest else rest
  }

  /** The first replica of the volume from `i` on that is online. */
  function ReplicaSearch(cvrs: seq<CStorVolumeReplica>, volume: string, i: nat): (r: Option<nat>)
    requires i <= |cvrs|
    decreases |cvrs| - i
    ensures r.Some? ==> i <= r.value < |cvrs| && ServesVolume(cvrs[r.value], volume) && IsOnline(cvrs[r.value])
    ensures r.Some? ==> forall j :: i <= j < r.value ==> !(ServesVolume(cvrs[j], volume) && IsOnline(cvrs[j]))
    ensures r.None? <==> forall j :: i <= j < |cvrs| ==> !(ServesVolume(cvrs[j], volume) && IsOnline(cvrs[j]))
  {
    if i == |cvrs| then None
    else if ServesVolume(cvrs[i], volume) && IsOnline(cvrs[i]) then Some(i)
    else ReplicaSearch(cvrs, volume, i + 1)
  }

  /** `findHealthyCVR`: the first online replica of the volume. */
  function HealthyReplica(o: Orchestrator, volume: string): (r: Result<CStorVolumeReplica>)
    ensures r.Ok? ==> o.clientOk && o.replicas.Some? && r.value in o.replicas.value
    ensures r.Ok? ==> ServesVolume(r.value, volume) && IsOnline(r.value)
    ensures !o.clientOk ==> r == Err(ClientUnavailable)
    ensures o.clientOk && o.replicas.None? ==> r == Err(Quoted(ReplicaListFailed))
    ensures r == Err(NoHealthyReplica) <==>
      && o.clientOk && o.replicas.Some?
      && forall c :: c in o.replicas.value ==> !(ServesVolume(c, volume) && IsOnline(c))
  {
    if !o.clientOk then Err(ClientUnavailable)
    else match o.replicas
      case None => Err(Quoted(ReplicaListFailed))
      case Some(cvrs) =>
        var s := ReplicaSearch(cvrs, volume, 0);
        assert (forall c :: c in cvrs ==> !(ServesVolume(c, volume) && IsOnline(c)))
           <==> (forall j :: 0 <= j < |cvrs| ==> !(ServesVolume(cvrs[j], volume) && IsOnline(cvrs[j])));
        match s
        case Some(k) => Ok(cvrs[k])
        case None => Err(NoHealthyReplica)
  }

  method FindHealthyCVR(o: Orchestrator, volume: string) returns (r: Result<CStorVolumeReplica>)
    ensures r == HealthyReplica(o, volume)
  {
    if !o.clientOk {
      return Err(ClientUnavailable);
    }
    if o.replicas.None? {
      return Err(Quoted(ReplicaListFailed));
    }
    var cvrs := o.replicas.value;
    var i := 0;
    while i < |cvrs|
      invariant 0 <= i <= |cvrs|
      invariant ReplicaSearch(cvrs, volume, i) == ReplicaSearch(cvrs, volume, 0)
    {
      if LabelOf(cvrs[i].labels, OpenEBSPV) == volume && cvrs[i].phase == CVRStatusOnline {
        return Ok(cvrs[i]);
      }
      i := i + 1;
    }
    return Err(NoHealthyReplica);
  }

  // ---------------------------------------------------------------------
  // Reading a job

  /** The endpoint's `findLastBackupStat`: Done when the ledger's last
      snapshot is the job's snapshot, Failed otherwise, and Failed with the
      error when the ledger cannot be read. */
  function LastBackupStatStep(w: World, a: Apis.CStorBackup): (res: (World, string, Option<Error>))
    ensures res.0 == Answered(w)
    ensures res.1 == StatusDone || res.1 == StatusFailed
    ensures res.1 == StatusDone <==> Accepts(w, 0) && LedgerLastSnap(w, a) == a.spec.snapName
    ensures res.2 == (if Accepts(w, 0) then None else Some(Quoted(Unavailable)))
  {
    var (w1, lastsnap, err) := LastTransferredSnapStep(w, a);
    if err.Some? then (w1, StatusFailed, Some(Quoted(err.value)))
    else if lastsnap == a.spec.snapName then (w1, StatusDone, None)
    else (w1, StatusFailed, None)
  }

  /** A job the pool stopped working on: write it back with the status the
      ledger gives it (a failed write is ignored), then read it again. */
  function ResolveStalledStep(w: World, b: Apis.CStorBackup, nb: Apis.CStorBackup): (World, Result<Apis.CStorBackup>) {
    var (w1, laststat, _) := LastBackupStatStep(w, b);
    var (w2, _) := UpdateBackupStep(w1, nb.(status := laststat));
    var (w3, r) := GetBackupStep(w2, Key(b.namespace, b.name));
    if r.Err? then (w3, Err(Quoted(r.error))) else (w3, r)
  }

  /** `fetchUpdatedBackup`: the current record of job `b`; when it is still
      running on a pool whose node or pod is down, the status the ledger
      gives it. */
  function FetchUpdatedBackupStep(w: World, o: Orchestrator, b: Apis.CStorBackup): (World, Result<Apis.CStorBackup>) {
    var (w1, r) := GetBackupStep(w, Key(b.namespace, b.name));
    if r.Err? then (w1, Err(Quoted(r.error)))
    else
      var nb := r.value;
      if IsFailedStatus(nb) || IsDoneStatus(nb) then (w1, Ok(nb))
      else
        var id := LabelOf(b.labels, PoolUUID);
        var (nodeDown, nodeErr) := PoolNodeDown(o, id);
        var (podDown, podErr) := PoolPodDown(o, id);
        if nodeErr.Some? || podErr.Some? then (w1, Err(ProbeFailed(nodeErr, podErr)))
        else if nodeDown || podDown then ResolveStalledStep(w1, b, nb)
        else (w1, Ok(nb))
  }

  /** The pool of the job is down (both probes finished, one says down). */
  predicate PoolDown(o: Orchestrator, b: Apis.CStorBackup) {
    var id := LabelOf(b.labels, PoolUUID);
    && PoolNodeDown(o, id).1 == None && PoolPodDown(o, id).1 == None
    && (PoolNodeDown(o, id).0 || PoolPodDown(o, id).0)
  }

  /** The pool of the job is up (both probes finished, neither says down). */
  predicate PoolUp(o: Orchestrator, b: Apis.CStorBackup) {
    var id := LabelOf(b.labels, PoolUUID);
    PoolNodeDown(o, id) == (false, None) && PoolPodDown(o, id) == (false, None)
  }

  /** Only the status of the job's own record is written, if anything. */
  ghost predicate OnlyStatusOf(w: World, w': World, k: Key) {
    && WellKeyed(w')
    && w'.completed == w.completed && w'.restores == w.restores && w'.transfers == w.transfers
    && w'.backups.Keys == w.backups.Keys
    && (forall k' :: k' in w.backups && k' != k ==> w'.backups[k'] == w.backups[k'])
    && (k in w.backups ==> w'.backups[k] == w.backups[k].(status := w'.backups[k].status))
  }

  lemma ResolveStalledEffect(w: World, b: Apis.CStorBackup, nb: Apis.CStorBackup)
    requires WellKeyed(w)
    requires b.ObjKey() in w.backups && nb == w.backups[b.ObjKey()]
    ensures OnlyStatusOf(w, ResolveStalledStep(w, b, nb).0, b.ObjKey())
  {
    assert nb.ObjKey() == b.ObjKey();
    var (w1, laststat, _) := LastBackupStatStep(w, b);
    UpdateBackupWrites(w1, nb.(status := laststat));
    StepsKeepWellKeyed(UpdateBackupStep(w1, nb.(status := laststat)).0);
  }

  /** Whatever the store and the orchestrator answer, a read changes at most
      the job's own record, and only its status; the ledger, the restores,
      the transfer log and the set of jobs stay. */
  lemma FetchUpdatedBackupEffect(w: World, o: Orchestrator, b: Apis.CStorBackup)
    requires WellKeyed(w)
    ensures OnlyStatusOf(w, FetchUpdatedBackupStep(w, o, b).0, b.ObjKey())
  {
    var k := b.ObjKey();
    var (w1, r) := GetBackupStep(w, k);
    StepsKeepWellKeyed(w);
    if r.Ok? && !(IsFailedStatus(r.value) || IsDoneStatus(r.value)) && PoolDown(o, b) {
      ResolveStalledEffect(w1, b, r.value);
    }
  }

  /** A Done or Failed job is answered as stored, with no write. A read the
      store rejects is reported and nothing is written. */
  lemma FetchSettledJob(w: World, o: Orchestrator, b: Apis.CStorBackup)
    ensures var k := Key(b.namespace, b.name);
      var (w', r) := FetchUpdatedBackupStep(w, o, b);
      && (Accepts(w, 0) && k in w.backups && w.backups[k].status in {StatusDone, StatusFailed} ==>
            w' == Answered(w) && r == Ok(w.backups[k]))
      && (!Accepts(w, 0) ==> w' == Answered(w) && r == Err(Quoted(Unavailable)))
      && (Accepts(w, 0) && k !in w.backups ==> w' == Answered(w) && r == Err(Quoted(NotFound(k))))
  {
  }

  /** A running job whose pool cannot be probed: the probe errors are
      reported and nothing is written. */
  lemma FetchProbeFailure(w: World, o: Orchestrator, b: Apis.CStorBackup)
    requires Accepts(w, 0) && Key(b.namespace, b.name) in w.backups
    requires w.backups[Key(b.namespace, b.name)].status !in {StatusDone, StatusFailed}
    requires !o.clientOk || PodOfCStorID(o, LabelOf(b.labels, PoolUUID)).Err?
    ensures var (w', r) := FetchUpdatedBackupStep(w, o, b);
      && w' == Answered(w)
      && r.Err? && r.error.ProbeFailed?
      && r.error.nodeError.Some? && r.error.podError.Some?
  {
  }

  /** A running job on a pool that is up is answered as stored. */
  lemma FetchRunningJob(w: World, o: Orchestrator, b: Apis.CStorBackup)
    requires Accepts(w, 0) && Key(b.namespace, b.name) in w.backups
    requires w.backups[Key(b.namespace, b.name)].status !in {StatusDone, StatusFailed}
    requires PoolUp(o, b)
    ensures FetchUpdatedBackupStep(w, o, b) == (Answered(w), Ok(w.backups[Key(b.namespace, b.name)]))
  {
  }

  /** A running job on a pool that is down, on a store that accepts every
      call: the job is written back and answered with the status the ledger
      gives it, Done when the ledger's last snapshot is the job's own. */
  lemma FetchStalledJob(w: World, o: Orchestrator, b: Apis.CStorBackup)
    requires WellKeyed(w) && Healthy(w)
    requires Key(b.namespace, b.name) in w.backups
    requires w.backups[Key(b.namespace, b.name)].status !in {StatusDone, StatusFailed}
    requires PoolDown(o, b)
    ensures var k := Key(b.namespace, b.name);
      var st := if LedgerLastSnap(w, b) == b.spec.snapName then StatusDone else StatusFailed;
      var (w', r) := FetchUpdatedBackupStep(w, o, b);
      && r == Ok(w.backups[k].(status := st))
      && w'.backups == w.backups[k := w.backups[k].(status := st)]
  {
    var k := Key(b.namespace, b.name);
    assert w.backups[k].ObjKey() == k;
    var w1 := Answered(w);
    var (w2, laststat, _) := LastBackupStatStep(w1, b);
    assert laststat == if LedgerLastSnap(w, b) == b.spec.snapName then StatusDone else StatusFailed;
    UpdateBackupWrites(w2, w.backups[k].(status := laststat));
  }

  /** The endpoint's `findLastBackupStat` on the wrapper. */
  method FindLastBackupStat(bkp: Backup.CStorBackup) returns (status: string, err: Option<Error>)
    modifies bkp.client
    ensures (bkp.client.State(), status, err) == LastBackupStatStep(old(bkp.client.State()), bkp.obj)
  {
    var lastsnap, e := bkp.GetLastTransferredSnapName();
    if e.Some? {
      return StatusFailed, Some(Quoted(e.value));
    }
    if lastsnap == bkp.obj.spec.snapName {
      return StatusDone, None;
    }
    return StatusFailed, None;
  }

  /** `fetchUpdatedBackup` on the wrapper of the job. */
  method FetchUpdatedBackup(o: Orchestrator, b: Backup.CStorBackup) returns (r: Result<Apis.CStorBackup>)
    modifies b.client
    ensures (b.client.State(), r) == FetchUpdatedBackupStep(old(b.client.State()), o, b.obj)
  {
    var g := b.GetCR(b.obj.name);
    if g.Err? {
      return Err(Quoted(g.error));
    }
    var nb := g.value;
    if IsFailedStatus(nb) || IsDoneStatus(nb) {
      return Ok(nb);
    }
    var nodeDown, nodeErr := CheckIfPoolNodeDown(o, LabelOf(b.obj.labels, PoolUUID));
    var podDown, podErr := CheckIfPoolPodDown(o, LabelOf(b.obj.labels, PoolUUID));
    if nodeErr.Some? || podErr.Some? {
      return Err(ProbeFailed(nodeErr, podErr));
    }
    if nodeDown || podDown {
      var laststat, _ := FindLastBackupStat(b);
      var _ := b.UpdateCR(nb.(status := laststat));
      var lb := b.GetCR(b.obj.name);
      if lb.Err? {
        return Err(Quoted(lb.error));
      }
      return lb;
    }
    return Ok(nb);
  }

  // ---------------------------------------------------------------------
  // Scheduling a job

  /** The labels a scheduled job carries: the pool and volume of the chosen
      replica, and the schedule name. */
  function DeployLabels(cvr: CStorVolumeReplica, b: Apis.CStorBackup): (m: Labels)
    ensures m.Keys == {PoolUUID, OpenEBSPV, OpenEBSBackup}
    ensures m[PoolUUID] == LabelOf(cvr.labels, PoolUUID) && m[OpenEBSPV] == LabelOf(cvr.labels, OpenEBSPV)
    ensures m[OpenEBSBackup] == b.spec.backupName
  {
    map[PoolUUID := LabelOf(cvr.labels, PoolUUID), OpenEBSPV := LabelOf(cvr.labels, OpenEBSPV),
        OpenEBSBackup := b.spec.backupName]
  }

  /** How far `deployBackup` got: stopped with an error before the create,
      or through the create with its result. */
  datatype DeployOutcome = Stopped(err: Error) | Created(r: Result<Apis.CStorBackup>)

  /** The steps of `deployBackup` up to and including the create: pick a
      healthy replica, label the job for its pool, take the previous
      snapshot from the ledger, set Pending and create the record. */
  function DeployStepsStep(w: World, o: Orchestrator, b: Apis.CStorBackup): (res: (World, Apis.CStorBackup, DeployOutcome))
    ensures res.1.ObjKey() == b.ObjKey() && LedgerKey(res.1) == LedgerKey(b)
  {
    match HealthyReplica(o, b.spec.volumeName)
    case Err(e) => (w, b, Stopped(e))
    case Ok(cvr) =>
      var b1 := b.(labels := DeployLabels(cvr, b));
      var (w1, b2, err) := SetPrevSnapNameFromLastBackupStep(w, b1);
      if err.Some? then (w1, b2, Stopped(Quoted(err.value)))
      else
        var b3 := b2.(status := StatusPending);
        var (w2, r) := CreateBackupStep(w1, b3);
        (w2, b3, Created(r))
  }

  /** `deployBackup` as written: after the create it always formats an error
      from the create's result, so a successful create dereferences a nil
      error. */
  function DeployBackupAsWrittenStep(w: World, o: Orchestrator, b: Apis.CStorBackup): (res: (World, Apis.CStorBackup, Option<Error>))
    ensures res.2.Some?
  {
    var (w1, b1, out) := DeployStepsStep(w, o, b);
    match out
    case Stopped(e) => (w1, b1, Some(e))
    case Created(r) => (w1, b1, Some(if r.Err? then Quoted(r.error) else NilPointer))
  }

  /** `deployBackup` as intended: a successful create is a success. */
  function DeployBackupStep(w: World, o: Orchestrator, b: Apis.CStorBackup): (res: (World, Apis.CStorBackup, Option<Error>))
    ensures res.2 == None <==> DeployStepsStep(w, o, b).2 == Created(Ok(res.1))
  {
    var (w1, b1, out) := DeployStepsStep(w, o, b);
    match out
    case Stopped(e) => (w1, b1, Some(e))
    case Created(r) => (w1, b1, if r.Err? then Some(Quoted(r.error)) else None)
  }

  /** The Pending job `deployBackup` writes for the chosen replica, given the
      ledger's last snapshot. */
  function PendingJob(b: Apis.CStorBackup, cvr: CStorVolumeReplica, prev: string): Apis.CStorBackup {
    b.(labels := DeployLabels(cvr, b), status := StatusPending, spec := b.spec.(prevSnapName := prev))
  }

  /** On a store that accepts every call, a job under a free name is created
      as the Pending job for the chosen replica, with the ledger's last
      snapshot as its previous snapshot. */
  lemma DeployCreatesPendingJob(w: World, o: Orchestrator, b: Apis.CStorBackup)
    requires Healthy(w)
    requires HealthyReplica(o, b.spec.volumeName).Ok?
    requires b.ObjKey() !in w.backups
    ensures var cvr := HealthyReplica(o, b.spec.volumeName).value;
      var job := PendingJob(b, cvr, LedgerLastSnap(w, b));
      DeployStepsStep(w, o, b) == (Answered(Answered(w)).(backups := w.backups[b.ObjKey() := job]), job, Created(Ok(job)))
  {
    var cvr := HealthyReplica(o, b.spec.volumeName).value;
    var b1 := b.(labels := DeployLabels(cvr, b));
    assert LedgerKey(b1) == LedgerKey(b);
    SetPrevSnapNameFromLedger(w, b1);
  }

  /** The create went through, the job is stored, and yet `deployBackup` as
      written reports an error: the handler fails every request it served. */
  lemma DeployAsWrittenFailsAfterCreate(w: World, o: Orchestrator, b: Apis.CStorBackup)
    requires Healthy(w)
    requires HealthyReplica(o, b.spec.volumeName).Ok?
    requires b.ObjKey() !in w.backups
    ensures var (w', job, err) := DeployBackupAsWrittenStep(w, o, b);
      && b.ObjKey() in w'.backups && w'.backups[b.ObjKey()] == job && job.status == StatusPending
      && err == Some(NilPointer)
  {
    DeployCreatesPendingJob(w, o, b);
  }

  /** With the intended success path, the same call succeeds. */
  lemma DeploySucceedsAfterCreate(w: World, o: Orchestrator, b: Apis.CStorBackup)
    requires Healthy(w)
    requires HealthyReplica(o, b.spec.volumeName).Ok?
    requires b.ObjKey() !in w.backups
    ensures var (w', job, err) := DeployBackupStep(w, o, b);
      var cvr := HealthyReplica(o, b.spec.volumeName).value;
      && err == None
      && job == PendingJob(b, cvr, LedgerLastSnap(w, b))
      && w'.backups == w.backups[b.ObjKey() := job]
  {
    DeployCreatesPendingJob(w, o, b);
  }

  /** A job is never scheduled without a healthy replica, and a name that is
      taken is refused without touching the stored job. */
  lemma DeployRefusals(w: World, o: Orchestrator, b: Apis.CStorBackup)
    ensures HealthyReplica(o, b.spec.volumeName).Err? ==>
      DeployBackupStep(w, o, b) == (w, b, Some(HealthyReplica(o, b.spec.volumeName).error))
    ensures b.ObjKey() in w.backups ==>
      var (w', _, err) := DeployBackupStep(w, o, b);
      w'.backups == w.backups && err.Some?
  {
    if HealthyReplica(o, b.spec.volumeName).Ok? {
      var (w1, b1, out) := DeployStepsStep(w, o, b);
      assert b1.ObjKey() == b.ObjKey();
    }
  }

  /** `deployBackup` on the wrapper: as written when `asWritten` holds (a
      successful create still ends in the nil-error dereference), otherwise
      with the intended success path. */
  method DeployBackup(o: Orchestrator, b: Backup.CStorBackup, asWritten: bool) returns (err: Option<Error>)
    modifies b, b.client
    ensures (b.client.State(), b.obj, err) ==
      if asWritten then DeployBackupAsWrittenStep(old(b.client.State()), o, old(b.obj))
      else DeployBackupStep(old(b.client.State()), o, old(b.obj))
  {
    var cvr := FindHealthyCVR(o, b.obj.spec.volumeName);
    if cvr.Err? {
      return Some(cvr.error);
    }
    b.SetLabel(DeployLabels(cvr.value, b.obj));
    err := b.SetPrevSnapNameFromLastBackup();
    if err.Some? {
      return Some(Quoted(err.value));
    }
    b.SetStatus(StatusPending);
    var r := b.CreateCR(b.obj);
    if r.Err? {
      return Some(Quoted(r.error));
    }
    return if asWritten then Some(NilPointer) else None;
  }

  // ---------------------------------------------------------------------
  // The HTTP handlers

  /** The checks a backup create request must pass. */
  const CreateChecks: seq<BackupPredicates.PredicateFunc> := [
    BackupPredicates.IsBackupNameSet(), BackupPredicates.IsSnapNameSet(),
    BackupPredicates.IsBackupDestSet(), BackupPredicates.IsPrevSnapNameSet(),
    BackupPredicates.IsNamespaceSet(), BackupPredicates.IsVolumeNameSet()]

  /** The checks a backup get request must pass. */
  const GetChecks: seq<BackupPredicates.PredicateFunc> := [
    BackupPredicates.IsBackupNameSet(), BackupPredicates.IsNamespaceSet(),
    BackupPredicates.IsVolumeNameSet()]

  /** The record builder accepts an object when every check holds for it. */
  predicate PassesChecks(checks: seq<BackupPredicates.PredicateFunc>, a: Apis.CStorBackup) {
    forall i :: 0 <= i < |checks| ==> checks[i](a)
  }

  /** A create request is accepted exactly when the schedule name, the
      snapshot name, the destination, the previous snapshot name, the
      namespace and the volume name are all set. */
  lemma CreateChecksFields(a: Apis.CStorBackup)
    ensures PassesChecks(CreateChecks, a) <==>
      && a.spec.backupName != "" && a.spec.snapName != "" && a.spec.backupDest != ""
      && a.spec.prevSnapName != "" && a.namespace != "" && a.spec.volumeName != ""
  {
    if PassesChecks(CreateChecks, a) {
      assert CreateChecks[0](a) && CreateChecks[1](a) && CreateChecks[2](a);
      assert CreateChecks[3](a) && CreateChecks[4](a) && CreateChecks[5](a);
    }
  }

  /** A get request is accepted exactly when the schedule name, the
      namespace and the volume name are set. */
  lemma GetChecksFields(a: Apis.CStorBackup)
    ensures PassesChecks(GetChecks, a) <==>
      a.spec.backupName != "" && a.namespace != "" && a.spec.volumeName != ""
  {
    if PassesChecks(GetChecks, a) {
      assert GetChecks[0](a) && GetChecks[1](a) && GetChecks[2](a);
    }
  }

  /** The POST handler: validate, take the snapshot (`snapshotOk` is whether
      the volume's snapshot could be taken), deploy, with `deployBackup` as
      written when `asWritten` holds and as intended otherwise. Every failure
      is a 400. */
  function CreateStep(w: World, o: Orchestrator, req: Apis.CStorBackup, snapshotOk: bool, asWritten: bool): (World, Option<HttpError>) {
    if !PassesChecks(CreateChecks, req) then (w, Some(CodedError(400, Quoted(InvalidRequest))))
    else if !snapshotOk then (w, Some(CodedError(400, Quoted(SnapshotFailed))))
    else
      var (w1, _, err) := if asWritten then DeployBackupAsWrittenStep(w, o, req) else DeployBackupStep(w, o, req);
      if err.Some? then (w1, Some(CodedError(400, Quoted(err.value)))) else (w1, None)
  }

  /** A complete request whose snapshot was taken, for a free name and a
      volume with a healthy replica. */
  predicate SchedulableRequest(w: World, o: Orchestrator, req: Apis.CStorBackup, snapshotOk: bool) {
    && PassesChecks(CreateChecks, req) && snapshotOk
    && HealthyReplica(o, req.spec.volumeName).Ok? && req.ObjKey() !in w.backups
  }

  /** With the intended `deployBackup`: a request with a field missing, or
      whose snapshot failed, is refused with 400 before anything is written;
      a complete request on a store that accepts every call, for a free name
      and a volume with a healthy replica, is served and leaves its Pending
      job in the store. */
  lemma CreateHandlerEffect(w: World, o: Orchestrator, req: Apis.CStorBackup, snapshotOk: bool)
    requires Healthy(w)
    ensures !PassesChecks(CreateChecks, req) || !snapshotOk ==>
      var (w', err) := CreateStep(w, o, req, snapshotOk, false);
      w' == w && err.Some? && err.value.code == 400
    ensures SchedulableRequest(w, o, req, snapshotOk) ==>
      var (w', err) := CreateStep(w, o, req, snapshotOk, false);
      var cvr := HealthyReplica(o, req.spec.volumeName).value;
      err == None && w'.backups == w.backups[req.ObjKey() := PendingJob(req, cvr, LedgerLastSnap(w, req))]
  {
    if SchedulableRequest(w, o, req, snapshotOk) {
      DeploySucceedsAfterCreate(w, o, req);
    }
  }

  /** The POST handler as written: every request is refused. A malformed
      request or failed snapshot is refused before anything is written; a
      schedulable request on a store that accepts every call still stores
      its Pending job, and is then answered with a 400 for the nil-error
      dereference. */
  lemma CreateHandlerAsWritten(w: World, o: Orchestrator, req: Apis.CStorBackup, snapshotOk: bool)
    requires Healthy(w)
    ensures CreateStep(w, o, req, snapshotOk, true).1.Some?
    ensures !PassesChecks(CreateChecks, req) || !snapshotOk ==>
      CreateStep(w, o, req, snapshotOk, true) == CreateStep(w, o, req, snapshotOk, false)
    ensures SchedulableRequest(w, o, req, snapshotOk) ==>
      var (w', err) := CreateStep(w, o, req, snapshotOk, true);
      var cvr := HealthyReplica(o, req.spec.volumeName).value;
      && err == Some(CodedError(400, Quoted(NilPointer)))
      && w'.backups == w.backups[req.ObjKey() := PendingJob(req, cvr, LedgerLastSnap(w, req))]
  {
    if SchedulableRequest(w, o, req, snapshotOk) {
      DeployCreatesPendingJob(w, o, req);
    }
  }

  /** The GET handler: read the job named after the request's snapshot and
      volume, check it, and answer with its updated record. Every failure is
      a 400. */
  function GetStep(w: World, o: Orchestrator, req: Apis.CStorBackup): (World, HttpResult<Apis.CStorBackup>) {
    var (w1, r) := GetBackupStep(w, Key(req.namespace, DeriveObjName(req)));
    if r.Err? then (w1, Refused(CodedError(400, Quoted(r.error))))
    else if !PassesChecks(GetChecks, r.value) then (w1, Refused(CodedError(400, Quoted(InvalidRequest))))
    else
      var (w2, f) := FetchUpdatedBackupStep(w1, o, r.value);
      match f
      case Err(e) => (w2, Refused(CodedError(400, Quoted(e))))
      case Ok(nb) => (w2, Served(nb))
  }

  /** On a store that accepts every call, a GET for a Done or Failed job
      answers the stored job, and a GET for a job that does not exist is a
      400. */
  lemma GetHandlerAnswers(w: World, o: Orchestrator, req: Apis.CStorBackup)
    requires WellKeyed(w) && Healthy(w)
    ensures var k := Key(req.namespace, DeriveObjName(req));
      k !in w.backups ==> GetStep(w, o, req).1 == Refused(CodedError(400, Quoted(NotFound(k))))
    ensures var k := Key(req.namespace, DeriveObjName(req));
      k in w.backups && w.backups[k].status in {StatusDone, StatusFailed}
      && PassesChecks(GetChecks, w.backups[k]) ==>
        GetStep(w, o, req) == (Answered(Answered(w)), Served(w.backups[k]))
  {
    var k := Key(req.namespace, DeriveObjName(req));
    if k in w.backups {
      var b := w.backups[k];
      assert b.ObjKey() == k;
      FetchSettledJob(Answered(w), o, b);
    }
  }

  /** The POST handler on the store's client, with `deployBackup` as
      written when `asWritten` holds. */
  method Create(client: ApiServer, o: Orchestrator, req: Apis.CStorBackup, snapshotOk: bool, asWritten: bool)
    returns (err: Option<HttpError>)
    modifies client
    ensures (client.State(), err) == CreateStep(old(client.State()), o, req, snapshotOk, asWritten)
  {
    if !PassesChecks(CreateChecks, req) {
      return Some(CodedError(400, Quoted(InvalidRequest)));
    }
    if !snapshotOk {
      return Some(CodedError(400, Quoted(SnapshotFailed)));
    }
    var bkp := new Backup.CStorBackup(req, client);
    var e := DeployBackup(o, bkp, asWritten);
    if e.Some? {
      return Some(CodedError(400, Quoted(e.value)));
    }
    return None;
  }

  /** The GET handler on the store's client. */
  method Get(client: ApiServer, o: Orchestrator, req: Apis.CStorBackup) returns (r: HttpResult<Apis.CStorBackup>)
    modifies client
    ensures (client.State(), r) == GetStep(old(client.State()), o, req)
  {
    var g := client.GetBackup(Key(req.namespace, DeriveObjName(req)));
    if g.Err? {
      return Refused(CodedError(400, Quoted(g.error)));
    }
    if !PassesChecks(GetChecks, g.value) {
      return Refused(CodedError(400, Quoted(InvalidRequest)));
    }
    var bkp := new Backup.CStorBackup(g.value, client);
    var f := FetchUpdatedBackup(o, bkp);
    if f.Err? {
      return Refused(CodedError(400, Quoted(f.error)));
    }
    return Served(f.value);
  }
}
