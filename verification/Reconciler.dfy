/** The reconcile code in its own form: methods that read and write the cluster call by call,
    proved to do exactly what the state machine of module Rollout does, for every plan of
    failing and succeeding calls. */
module Reconciler {
  import opened Kube
  import opened UpdateJob
  import opened Rollout

  datatype PodRollout = PodRollout(replicas: int, updatedReplicas: int)

  /** CheckReplicaSetRollout: the rollout of the Deployment's current revision, read from the
      first listed ReplicaSet of that revision that its controller has seen. */
  method CheckReplicaSetRollout(current: Deployment, sets: seq<ReplicaSet>)
    returns (found: Option<ReplicaSet>, pods: PodRollout)
    ensures found == FindRollout(sets, current.revision)
    ensures found.Some? ==> pods == PodRollout(current.statusReplicas, found.value.availableReplicas)
    ensures found.Some? ==>
      found.value in sets && found.value.revision == current.revision && found.value.observedGeneration > 0
    ensures found.None? ==>
      forall i :: 0 <= i < |sets| && sets[i].revision == current.revision ==> sets[i].observedGeneration == 0
  {
    found := None;
    for i := 0 to |sets|
      invariant found.None?
      invariant forall k :: 0 <= k < i ==> !(sets[k].revision == current.revision && sets[k].observedGeneration > 0)
      invariant FindRollout(sets, current.revision) == FindRollout(sets[i..], current.revision)
    {
      if sets[i].revision == current.revision && sets[i].observedGeneration > 0 {
        found := Some(sets[i]);
        break;
      }
    }
    pods := if found.Some? then PodRollout(current.statusReplicas, found.value.availableReplicas) else PodRollout(0, 0);
  }

  /** CheckMattermostHealth after the rollout was read. Stable means that exactly the wanted pods
      exist and are available and the endpoint is there; Ready that some pod and the endpoint are. */
  method CheckMattermostHealth(m: Mattermost, pods: PodRollout, endpoint: bool) returns (status: Status, healthy: bool)
    ensures status == HealthStatus(m, pods.replicas, pods.updatedReplicas, endpoint)
    ensures status.state == Stable <==> healthy
    ensures healthy <==> endpoint && pods == PodRollout(WantedReplicas(m.spec), WantedReplicas(m.spec))
    ensures status.state == Ready <==> endpoint && !healthy && WantedReplicas(m.spec) > 0 && pods.updatedReplicas != 0
    ensures status.state != Unset && status.observedGeneration == m.generation
  {
    status := Unhealthy(m);
    status := status.(updatedReplicas := pods.updatedReplicas);
    status := status.(replicas := pods.replicas);
    var replicas := 1;
    if m.spec.replicas.Some? {
      replicas := m.spec.replicas.value;
    }
    if replicas > 0 && pods.updatedReplicas == 0 {
      return status, false;
    }
    status := status.(image := m.spec.image);
    status := status.(version := m.spec.version);
    if !endpoint {
      return status, false;
    }
    if replicas > 0 {
      status := status.(state := Ready);
    }
    if pods.updatedReplicas != replicas {
      return status, false;
    }
    if pods.replicas != replicas {
      return status, false;
    }
    status := status.(state := Stable);
    return status, true;
  }

  /** The main images of two container lists, or an error when a list has no main container. */
  method IsMainContainerImageSame(a: seq<Container>, b: seq<Container>) returns (same: Option<bool>)
    ensures same.None? <==> MainImage(a).None? || MainImage(b).None?
    ensures same.Some? ==> (same.value <==> MainImage(a) == MainImage(b))
  {
    var containerA := GetContainerByName(a, MATTERMOST_APP_CONTAINER);
    if containerA.None? {
      return None;
    }
    var containerB := GetContainerByName(b, MATTERMOST_APP_CONTAINER);
    if containerB.None? {
      return None;
    }
    return Some(containerA.value.image == containerB.value.image);
  }

  class MattermostReconciler {
    /** The stored objects. The `pc` of this value is kept Idle; the methods below pass it on. */
    var cluster: Cluster
    /** Number of calls made so far; `plan(calls)` decides the next one. */
    var calls: nat
    const plan: nat -> Outcome

    constructor (cluster: Cluster, plan: nat -> Outcome)
      requires cluster.pc.Idle?
      ensures this.cluster == cluster && this.plan == plan && calls == 0
    {
      this.cluster, this.plan, calls := cluster, plan, 0;
    }

    /** The state machine run to its end from where this reconcile stands. */
    ghost function Rest(pc: Pc): Cluster
      reads this
    {
      UntilIdle(cluster.(pc := pc), plan, calls)
    }

    /** The outcome of the next call. */
    method Call() returns (outcome: Outcome)
      modifies this`calls
      ensures calls == old(calls) + 1 && outcome == plan(old(calls))
    {
      outcome := plan(calls);
      calls := calls + 1;
    }

    /** updateStatus: returns false when the write is refused. */
    method UpdateStatus(m: Mattermost, status: Status) returns (ok: bool)
      modifies this
      ensures calls == old(calls) + 1
      ensures (cluster, ok) == WriteStatus(old(cluster), m, status, plan(old(calls)))
    {
      var outcome := Call();
      if m.status == status {
        return true;
      }
      if outcome.Failed? || cluster.mattermost.version != m.version {
        return false;
      }
      var stored := cluster.mattermost;
      cluster := cluster.(mattermost := stored.(status := status, version := m.version + 1));
      return true;
    }

    /** ResourceHelper.Update of the main Deployment, and the record of a gated image switch. */
    method UpdateDeployment(m: Mattermost, current: Deployment, gate: Option<Job>) returns (ok: bool)
      requires cluster.pc.Idle?
      modifies this
      ensures cluster.pc.Idle?
      ensures Rest(if gate.Some? then CleaningUp(m, ok) else if ok then CheckingRollout(m)
        else Failing(m, ReconcilingStatus(cluster.loaded, m)))
           == old(Rest(Updating(m, current, gate)))
    {
      hide MainImage, DesiredTemplate, Defaulted, ImageName;
      var outcome := Call();
      if Matches(current, m.spec) {
        return true;
      }
      if outcome.Failed? || cluster.deployment.None? || cluster.deployment.value.version != current.version {
        return false;
      }
      cluster := cluster.(deployment := Some(Replaced(current, m.spec, outcome.keepsRevision)));
      if gate.Some? {
        cluster := cluster.(switches := cluster.switches + [Switch(ImageName(m.spec), gate.value.uid)]);
      }
      return true;
    }

    method CleanupUpdateJob(m: Mattermost, updated: bool)
      requires cluster.pc.Idle?
      modifies this
      ensures cluster.pc.Idle?
      ensures Rest(if updated then CheckingRollout(m) else Failing(m, ReconcilingStatus(cluster.loaded, m)))
           == old(Rest(CleaningUp(m, updated)))
    {
      hide MainImage, DesiredTemplate, Defaulted, ImageName;
      var outcome := Call();
      if outcome.Failed? {
        cluster := cluster.(jobLeftBehind := true);
        return;
      }
      cluster := cluster.(job := None);
    }

    /** RestartMattermostUpdateJob: deletes the outdated Job and creates one for the new image. */
    method RestartUpdateJob(m: Mattermost)
      requires cluster.pc.Idle?
      modifies this
      ensures cluster.pc.Idle?
      ensures Rest(Failing(m, ReconcilingStatus(cluster.loaded, m))) == old(Rest(DeletingOldJob(m)))
    {
      hide MainImage, DesiredTemplate, Defaulted, ImageName, JobContainers;
      var outcome := Call();
      if outcome.Failed? {
        return;
      }
      cluster := cluster.(job := None);
      assert Rest(RelaunchingJob(m)) == old(Rest(DeletingOldJob(m)));
      outcome := Call();
      if outcome.Done? {
        cluster := CreateJob(cluster, m);
      }
    }

    /** checkUpdateJob: launches, restarts or inspects the update Job. A Job is returned once it is done;
        `failed` then says that one of its pods failed. */
    method CheckUpdateJob(m: Mattermost, current: Deployment) returns (job: Option<Job>, failed: bool)
      requires cluster.pc.Idle?
      modifies this
      ensures cluster.pc.Idle?
      ensures Rest(
          if job.None? then Failing(m, ReconcilingStatus(cluster.loaded, m))
          else if failed then CleaningUp(m, false)
          else Updating(m, current, job))
        == old(Rest(FetchingJob(m, current)))
      ensures job.Some? ==>
        cluster == old(cluster) && job == cluster.job && job.value.completed && (failed <==> job.value.failed > 0)
        && MainImage(job.value.containers).Some?
        && MainImage(job.value.containers) == MainImage(DesiredTemplate(m.spec).containers)
    {
      hide MainImage, DesiredTemplate, Defaulted, ImageName, JobContainers, Matches;
      DesiredTemplateHasMain(m.spec);
      var outcome := Call();
      if outcome.Failed? {
        return None, true;
      }
      if cluster.job.None? {
        assert Rest(LaunchingJob(m)) == old(Rest(FetchingJob(m, current)));
        outcome := Call();
        if outcome.Done? {
          cluster := CreateJob(cluster, m);
        }
        return None, outcome.Failed?;
      }
      job := cluster.job;
      var same := IsMainContainerImageSame(DesiredTemplate(m.spec).containers, job.value.containers);
      if same.None? {
        return None, true;
      }
      if !same.value {
        assert Rest(DeletingOldJob(m)) == old(Rest(FetchingJob(m, current)));
        RestartUpdateJob(m);
        return None, false;
      }
      if !job.value.completed {
        return None, false;
      }
      if job.value.failed > 0 {
        return job, true;
      }
      return job, false;
    }

    /** updateMattermostDeployment: true when the Deployment is as desired and its rollout can be checked. */
    method UpdateMattermostDeployment(m: Mattermost, current: Deployment) returns (ready: bool)
      requires cluster.pc.Idle?
      modifies this
      ensures cluster.pc.Idle?
      ensures Rest(if ready then CheckingRollout(m) else Failing(m, ReconcilingStatus(cluster.loaded, m)))
           == old(Rest(AfterRead(cluster.loaded, m, current)))
    {
      hide MainImage, DesiredTemplate, Defaulted, ImageName, Matches;
      DesiredTemplateHasMain(m.spec);
      var same := IsMainContainerImageSame(current.template.containers, DesiredTemplate(m.spec).containers);
      if same.None? {
        return false;
      }
      if same.value {
        ready := UpdateDeployment(m, current, None);
        return;
      }
      if m.spec.updateJobDisabled {
        ready := UpdateDeployment(m, current, None);
        return;
      }
      var job, failed := CheckUpdateJob(m, current);
      if job.None? {
        return false;
      }
      ready := false;
      if !failed {
        ready := UpdateDeployment(m, current, job);
      }
      CleanupUpdateJob(m, ready);
    }

    /** checkMattermostDeployment: creates a missing Deployment, reads it, and updates it. */
    method CheckMattermostDeployment(m: Mattermost) returns (ready: bool)
      requires cluster.pc.Idle?
      modifies this
      ensures cluster.pc.Idle?
      ensures Rest(if ready then CheckingRollout(m) else Failing(m, ReconcilingStatus(cluster.loaded, m)))
           == old(Rest(EnsuringDeployment(m)))
    {
      hide MainImage, DesiredTemplate, Defaulted, ImageName, Matches, AfterRead;
      var outcome := Call();
      if outcome.Failed? {
        return false;
      }
      if cluster.deployment.None? {
        cluster := cluster.(deployment := Some(NewDeployment(m.spec)));
      }
      assert Rest(GettingDeployment(m)) == old(Rest(EnsuringDeployment(m)));
      outcome := Call();
      if outcome.Failed? || cluster.deployment.None? {
        return false;
      }
      assert Rest(AfterRead(cluster.loaded, m, cluster.deployment.value)) == old(Rest(EnsuringDeployment(m)));
      ready := UpdateMattermostDeployment(m, cluster.deployment.value);
    }

    /** checkMattermostHealth with its reads; the evidence is what made it call the installation stable. */
    method CheckHealth(m: Mattermost) returns (status: Status, evidence: Option<Evidence>)
      requires cluster.pc.Idle?
      modifies this`calls
      ensures Rest(Publishing(m, status, evidence)) == old(Rest(CheckingRollout(m)))
      ensures evidence.Some? <==> status.state == Stable
    {
      hide MainImage, DesiredTemplate, Defaulted, ImageName, HealthStatus, FindRollout;
      var outcome := Call();
      if outcome.Failed? || cluster.deployment.None? {
        return Unhealthy(m), None;
      }
      var current := cluster.deployment.value;
      if current.generation != current.observedGeneration {
        return Unhealthy(m), None;
      }
      assert Rest(ListingReplicaSets(m, current)) == old(Rest(CheckingRollout(m)));
      outcome := Call();
      if outcome.Failed? {
        return Unhealthy(m), None;
      }
      var found, pods := CheckReplicaSetRollout(current, cluster.replicaSets);
      if found.None? {
        return Unhealthy(m), None;
      }
      assert Rest(CheckingEndpoint(m, current, found.value)) == old(Rest(CheckingRollout(m)));
      outcome := Call();
      var healthy;
      status, healthy := CheckMattermostHealth(m, pods, EndpointFound(m.spec.endpoint, outcome));
      evidence := if healthy then Some(Evidence(current, found.value)) else None;
    }

    /** updateStatusReconcilingAndLogError: a best-effort write that ends the reconcile. */
    method PublishReconciling(m: Mattermost, status: Status)
      requires cluster.pc.Idle?
      modifies this
      ensures cluster.pc.Idle? && cluster == old(Rest(Failing(m, status)))
    {
      hide MainImage, DesiredTemplate, Defaulted, ImageName;
      var _ := UpdateStatus(m, status);
      assert Rest(Idle) == old(Rest(Failing(m, status)));
    }

    /** The last status write of a reconcile. */
    method PublishHealth(m: Mattermost, status: Status, evidence: Option<Evidence>)
      requires cluster.pc.Idle?
      modifies this
      ensures cluster.pc.Idle? && cluster == old(Rest(Publishing(m, status, evidence)))
    {
      hide MainImage, DesiredTemplate, Defaulted, ImageName;
      var ok := UpdateStatus(m, status);
      if !ok && status.state == Stable {
        assert Rest(Failing(m, status.(state := Reconciling))) == old(Rest(Publishing(m, status, evidence)));
        PublishReconciling(m, status.(state := Reconciling));
      } else if ok && evidence.Some? {
        cluster := cluster.(evidence := evidence);
        assert Rest(Idle) == old(Rest(Publishing(m, status, evidence)));
      } else {
        assert Rest(Idle) == old(Rest(Publishing(m, status, evidence)));
      }
    }

    /** SetDefaults and the spec update; None when either fails. */
    method ApplyDefaults(m: Mattermost) returns (defaulted: Option<Mattermost>)
      requires cluster.pc.Idle?
      modifies this
      ensures cluster.pc.Idle?
      ensures Rest(if defaulted.Some? then CheckingDependencies(defaulted.value)
        else Failing(m, ReconcilingStatus(cluster.loaded, m)))
           == old(Rest(Defaulting(m)))
    {
      hide MainImage, DesiredTemplate, Defaulted, ImageName;
      var outcome := Call();
      if m.spec.refused {
        return None;
      }
      var spec := Defaulted(m.spec);
      if spec == m.spec {
        return Some(m);
      }
      if outcome.Failed? || cluster.mattermost.version != m.version {
        return None;
      }
      var stored := cluster.mattermost.(spec := spec, generation := m.generation + 1, version := m.version + 1);
      cluster := cluster.(mattermost := stored);
      return Some(stored);
    }

    /** Reconcile: what the state machine does from an idle worker, for every plan of outcomes. */
    method Reconcile()
      requires cluster.pc.Idle? && calls == 0
      modifies this
      ensures cluster == Rollout.Reconcile(old(cluster), plan)
    {
      hide MainImage, DesiredTemplate, Defaulted, ImageName, CallStep;
      var m := cluster.mattermost;
      cluster := cluster.(loaded := m.generation);
      if m.status.state == Unset {
        var marked := MarkNew(m);
        if marked.None? {
          return;
        }
        m := marked.value;
      }
      var defaulted := ApplyDefaults(m);
      if defaulted.None? {
        PublishReconciling(m, ReconcilingStatus(cluster.loaded, m));
        return;
      }
      m := defaulted.value;
      var checked := CheckDependencies(m);
      if !checked {
        PublishReconciling(m, ReconcilingStatus(cluster.loaded, m));
        return;
      }
      var ready := CheckMattermostDeployment(m);
      if !ready {
        PublishReconciling(m, ReconcilingStatus(cluster.loaded, m));
        return;
      }
      var status, evidence := CheckHealth(m);
      PublishHealth(m, status, evidence);
    }

    /** A resource without a state is marked Reconciling before anything else. */
    method MarkNew(m: Mattermost) returns (marked: Option<Mattermost>)
      requires cluster.pc.Idle?
      modifies this
      ensures cluster.pc.Idle?
      ensures Rest(if marked.Some? then Defaulting(marked.value) else Idle) == old(Rest(Loaded(m)))
    {
      hide MainImage, DesiredTemplate, Defaulted, ImageName;
      var status := ReconcilingStatus(cluster.loaded, m);
      var ok := UpdateStatus(m, status);
      if !ok {
        return None;
      }
      return Some(AfterStatus(m, status));
    }

    /** Database, file store, Service, RBAC and Ingress checks, reduced to whether they succeed. */
    method CheckDependencies(m: Mattermost) returns (ok: bool)
      requires cluster.pc.Idle?
      modifies this`calls
      ensures Rest(if ok then EnsuringDeployment(m) else Failing(m, ReconcilingStatus(cluster.loaded, m)))
           == old(Rest(CheckingDependencies(m)))
    {
      hide MainImage, DesiredTemplate, Defaulted, ImageName;
      var outcome := Call();
      ok := outcome.Done?;
    }
  }

  lemma DesiredTemplateHasMain(spec: Spec)
    ensures MainImage(DesiredTemplate(spec).containers).Some?
  {
  }
}
