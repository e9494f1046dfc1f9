/** Safety of the rollout over every run: no image switch without its finished Job, and no
    stale Stable status. */
module RolloutSafety {
  import opened Kube
  import opened Rollout
  import opened Sizes
  import opened UpdateJob

  // ---------- The invariant ----------

  /** A copy is at most as new as the stored object, and equal to it at the same version. */
  ghost predicate UpToDate(m: Mattermost, stored: Mattermost) {
    && m.version <= stored.version
    && (m.version == stored.version ==> m == stored)
    && m.generation <= stored.generation
    && (m.generation == stored.generation ==> m.spec == stored.spec)
    && m.status == stored.status
  }

  ghost predicate SnapshotOf(copy: Deployment, stored: Option<Deployment>) {
    && stored.Some?
    && copy.version <= stored.value.version
    && (copy.version == stored.value.version ==> copy == stored.value)
    && copy.generation <= stored.value.generation
    && (copy.generation == stored.value.generation ==> SameSpec(copy, stored.value))
  }

  ghost predicate SameSpec(a: Deployment, b: Deployment) {
    a.template == b.template && a.wanted == b.wanted
  }

  /** The worker's copy of the Deployment has the content of the live one. */
  ghost predicate WorkerCopy(current: Deployment, stored: Option<Deployment>) {
    && SnapshotOf(current, stored)
    && SameSpec(current, stored.value)
    && current.labels == stored.value.labels
    && current.generation == stored.value.generation
  }

  /** The live Deployment carries what the spec asks for. */
  ghost predicate Written(deployment: Option<Deployment>, spec: Spec) {
    deployment.Some? && Matches(deployment.value, spec)
  }

  ghost predicate VouchedFor(finished: set<Switch>, image: string, job: nat) {
    Switch(image, job) in finished
  }

  /** A read of a rolled-out Deployment together with its revision. */
  ghost predicate RolledOutRead(current: Deployment, stored: Option<Deployment>, sets: seq<ReplicaSet>,
      nextRevision: nat) {
    && WorkerCopy(current, stored)
    && current.generation == current.observedGeneration
    && stored.value.observedGeneration == stored.value.generation
    && RevisionRuns(sets, current.revision, current.template)
    && (current.revision.Some? ==> current.revision.value < nextRevision)
  }

  /** The reads that justify Stable for a spec. */
  ghost predicate Justifies(e: Evidence, spec: Spec) {
    && Matches(e.current, spec)
    && e.current.generation == e.current.observedGeneration
    && e.replicaSet.revision == e.current.revision
    && e.replicaSet.template == DesiredTemplate(spec)
    && e.replicaSet.observedGeneration > 0
    && e.replicaSet.availableReplicas == WantedReplicas(spec)
    && e.current.statusReplicas == WantedReplicas(spec)
    && Serves(spec.endpoint)
  }

  /** The status names the image and version of the spec and the wanted number of pods. */
  ghost predicate Reports(status: Status, spec: Spec) {
    && status.image == spec.image && status.version == spec.version
    && status.replicas == WantedReplicas(spec) && status.updatedReplicas == WantedReplicas(spec)
  }

  ghost predicate WorkerOk(c: Cluster) {
    match c.pc
    case Idle => true
    case Loaded(m) => UpToDate(m, c.mattermost) && c.loaded == m.generation && m.status.state == Unset
    case Defaulting(m) => UpToDate(m, c.mattermost)
    case CheckingDependencies(m) => Active(m, c.mattermost)
    case EnsuringDeployment(m) => Active(m, c.mattermost)
    case GettingDeployment(m) => Active(m, c.mattermost)
    case FetchingJob(m, current) =>
      && Active(m, c.mattermost) && WorkerCopy(current, c.deployment)
      && !m.spec.updateJobDisabled
      && MainImage(current.template.containers) != MainImage(DesiredTemplate(m.spec).containers)
    case LaunchingJob(m) => Active(m, c.mattermost) && !m.spec.updateJobDisabled
    case DeletingOldJob(m) => Active(m, c.mattermost) && !m.spec.updateJobDisabled
    case RelaunchingJob(m) => Active(m, c.mattermost) && !m.spec.updateJobDisabled
    case Updating(m, current, gate) =>
      && Active(m, c.mattermost) && WorkerCopy(current, c.deployment)
      && (gate.Some? ==> !m.spec.updateJobDisabled && VouchedFor(c.finished, ImageName(m.spec), gate.value.uid))
      && (gate.None? ==> NoJobNeeded(m.spec, current))
    case CleaningUp(m, updated) => Active(m, c.mattermost) && (updated ==> Written(c.deployment, m.spec))
    case CheckingRollout(m) => Active(m, c.mattermost) && Written(c.deployment, m.spec)
    case ListingReplicaSets(m, current) => Active(m, c.mattermost) && Written(c.deployment, m.spec) &&
        RolledOutRead(current, c.deployment, c.replicaSets, c.nextRevision)
    case CheckingEndpoint(m, current, rs) =>
      && Active(m, c.mattermost) && Written(c.deployment, m.spec) &&
        RolledOutRead(current, c.deployment, c.replicaSets, c.nextRevision)
      && rs.revision == current.revision && rs.template == current.template && rs.observedGeneration > 0
    case Publishing(m, status, evidence) =>
      && Active(m, c.mattermost)
      && status.observedGeneration == m.generation
      && (status.state == Stable <==> evidence.Some?)
      && (evidence.Some? ==>
            (Written(c.deployment, m.spec) && Justifies(evidence.value, m.spec) && Reports(status, m.spec) &&
               RolledOutRead(evidence.value.current, c.deployment, c.replicaSets, c.nextRevision)))
    case Failing(m, status) =>
      UpToDate(m, c.mattermost) && status.state == Reconciling && status.observedGeneration <= m.generation
  }

  ghost predicate NoJobNeeded(spec: Spec, current: Deployment) {
    spec.updateJobDisabled || MainImage(current.template.containers) == MainImage(DesiredTemplate(spec).containers)
  }

  /** The worker holds a defaulted copy. */
  ghost predicate Active(m: Mattermost, stored: Mattermost) {
    UpToDate(m, stored) && Defaulted(m.spec) == m.spec
  }

  ghost predicate ControllerOk(controller: Controller, stored: Option<Deployment>, sets: seq<ReplicaSet>,
      nextRevision: nat) {
    match controller
    case Waiting => true
    case Read(copy) => SnapshotOf(copy, stored)
    case Ensured(copy, revision) =>
      SnapshotOf(copy, stored) && revision < nextRevision && RevisionRuns(sets, Some(revision), copy.template)
    case Annotated(copy) =>
      && SnapshotOf(copy, stored)
      && copy.revision.Some? && copy.revision.value < nextRevision
      && RevisionRuns(sets, copy.revision, copy.template)
  }

  /** A published Stable for the current generation is not stale. */
  ghost predicate StableIsTrue(m: Mattermost, deployment: Option<Deployment>, sets: seq<ReplicaSet>,
      evidence: Option<Evidence>) {
    m.status.state == Stable && m.status.observedGeneration == m.generation ==>
      && Written(deployment, m.spec)
      && deployment.value.observedGeneration == deployment.value.generation
      && RevisionRuns(sets, deployment.value.revision, DesiredTemplate(m.spec))
      && evidence.Some? && Justifies(evidence.value, m.spec)
      && Reports(m.status, m.spec)
      && Defaulted(m.spec) == m.spec
  }

  /** A finished Job without failed pods is on record, and so is the Job of every gated switch. */
  ghost predicate JobsOk(job: Option<Job>, finished: set<Switch>, switches: seq<Switch>) {
    && (job.Some? && job.value.completed && job.value.failed == 0 && MainImage(job.value.containers).Some? ==>
          VouchedFor(finished, MainImage(job.value.containers).value, job.value.uid))
    && (forall i :: 0 <= i < |switches| ==> switches[i] in finished)
  }

  ghost predicate GenerationsOk(c: Cluster) {
    && c.mattermost.status.observedGeneration <= c.mattermost.generation
    && (!c.pc.Idle? ==>
          (c.loaded <= c.pc.m.generation && c.mattermost.status.observedGeneration <= c.pc.m.generation))
  }

  ghost predicate Inv(c: Cluster) {
    && WellNumbered(c.replicaSets, c.deployment, c.nextRevision)
    && GenerationsOk(c)
    && Traceable(c.replicaSets, c.deployment)
    && WorkerOk(c)
    && ControllerOk(c.controller, c.deployment, c.replicaSets, c.nextRevision)
    && JobsOk(c.job, c.finished, c.switches)
    && StableIsTrue(c.mattermost, c.deployment, c.replicaSets, c.evidence)
  }

  /** A second defaulting pass changes nothing, so it triggers no further spec update. */
  lemma DefaultedTwice(spec: Spec)
    ensures Defaulted(Defaulted(spec)) == Defaulted(spec)
    ensures Defaulted(spec).replicas.Some? && Defaulted(spec).refused == spec.refused &&
      Defaulted(spec).endpoint == spec.endpoint
  {
    EmptySizeIsInvalid();
    hide GetClusterSize;
  }

  lemma {:induction false} FindRolloutFinds(sets: seq<ReplicaSet>, revision: Option<nat>)
    ensures var found := FindRollout(sets, revision);
      found.Some? ==> found.value in sets && found.value.revision == revision && found.value.observedGeneration > 0
  {
    if sets != [] { FindRolloutFinds(sets[1..], revision); }
  }

  lemma DesiredImage(spec: Spec)
    ensures MainImage(DesiredTemplate(spec).containers) == Some(ImageName(spec))
  {
  }

  lemma KeepsIdle(c: Cluster, outcome: Outcome)
    requires Inv(c) && c.pc.Idle?
    ensures Inv(CallStep(c, outcome))
  {
  }

  lemma KeepsLoaded(c: Cluster, outcome: Outcome)
    requires Inv(c) && c.pc.Loaded?
    ensures Inv(CallStep(c, outcome))
  {
  }

  lemma KeepsDefaulting(c: Cluster, outcome: Outcome)
    requires Inv(c) && c.pc.Defaulting?
    ensures Inv(CallStep(c, outcome))
  {
    hide WellNumbered, Traceable, ControllerOk, JobsOk, Justifies, RevisionRuns, Written, ImageName, DesiredTemplate,
      MainImage;
    DefaultedTwice(c.pc.m.spec);
    DesiredImage(c.pc.m.spec);
  }

  lemma KeepsCheckingDependencies(c: Cluster, outcome: Outcome)
    requires Inv(c) && c.pc.CheckingDependencies?
    ensures Inv(CallStep(c, outcome))
  {
  }

  lemma KeepsEnsuringDeployment(c: Cluster, outcome: Outcome)
    requires Inv(c) && c.pc.EnsuringDeployment?
    ensures Inv(CallStep(c, outcome))
  {
    hide JobsOk, ImageName, MainImage, Defaulted, Justifies;
  }

  lemma KeepsGettingDeployment(c: Cluster, outcome: Outcome)
    requires Inv(c) && c.pc.GettingDeployment?
    ensures Inv(CallStep(c, outcome))
  {
    hide WellNumbered, Traceable, ControllerOk, JobsOk, StableIsTrue, ImageName, DesiredTemplate, MainImage, Defaulted;
    DefaultedTwice(c.pc.m.spec);
    DesiredImage(c.pc.m.spec);
  }

  lemma KeepsFetchingJob(c: Cluster, outcome: Outcome)
    requires Inv(c) && c.pc.FetchingJob?
    ensures Inv(CallStep(c, outcome))
  {
    hide WellNumbered, Traceable, ControllerOk, StableIsTrue, ImageName, DesiredTemplate, MainImage, Defaulted;
    DefaultedTwice(c.pc.m.spec);
    DesiredImage(c.pc.m.spec);
  }

  lemma KeepsLaunchingJob(c: Cluster, outcome: Outcome)
    requires Inv(c) && c.pc.LaunchingJob?
    ensures Inv(CallStep(c, outcome))
  {
    hide WellNumbered, Traceable, ControllerOk, StableIsTrue, Defaulted;
  }

  lemma KeepsDeletingOldJob(c: Cluster, outcome: Outcome)
    requires Inv(c) && c.pc.DeletingOldJob?
    ensures Inv(CallStep(c, outcome))
  {
  }

  lemma KeepsRelaunchingJob(c: Cluster, outcome: Outcome)
    requires Inv(c) && c.pc.RelaunchingJob?
    ensures Inv(CallStep(c, outcome))
  {
    hide WellNumbered, Traceable, ControllerOk, StableIsTrue, Defaulted;
  }

  lemma RecordSwitch(job: Option<Job>, finished: set<Switch>, switches: seq<Switch>, switch: Switch)
    requires JobsOk(job, finished, switches) && switch in finished
    ensures JobsOk(job, finished, switches + [switch])
  {
  }

  lemma ReplaceKeepsController(c: Cluster, spec: Spec, keepsRevision: bool)
    requires c.deployment.Some? && ControllerOk(c.controller, c.deployment, c.replicaSets, c.nextRevision)
    ensures ControllerOk(c.controller, Some(Replaced(c.deployment.value, spec, keepsRevision)), c.replicaSets,
      c.nextRevision)
  {
    hide DesiredTemplate, RevisionRuns;
  }

  lemma KeepsUpdating(c: Cluster, outcome: Outcome)
    requires Inv(c) && c.pc.Updating?
    ensures Inv(CallStep(c, outcome))
  {
    hide Justifies, DesiredTemplate, ImageName, MainImage, Defaulted, JobsOk, ControllerOk;
    if outcome.Done? { ReplaceKeepsController(c, c.pc.m.spec, outcome.keepsRevision); }
    if c.pc.gate.Some? {
      RecordSwitch(c.job, c.finished, c.switches, Switch(ImageName(c.pc.m.spec), c.pc.gate.value.uid));
    }
    DefaultedTwice(c.pc.m.spec);
    DesiredImage(c.pc.m.spec);
  }

  lemma KeepsCleaningUp(c: Cluster, outcome: Outcome)
    requires Inv(c) && c.pc.CleaningUp?
    ensures Inv(CallStep(c, outcome))
  {
  }

  lemma KeepsCheckingRollout(c: Cluster, outcome: Outcome)
    requires Inv(c) && c.pc.CheckingRollout?
    ensures Inv(CallStep(c, outcome))
  {
    hide ControllerOk, StableIsTrue, JobsOk, Defaulted, DesiredTemplate, Justifies;
  }

  lemma KeepsListingReplicaSets(c: Cluster, outcome: Outcome)
    requires Inv(c) && c.pc.ListingReplicaSets?
    ensures Inv(CallStep(c, outcome))
  {
    FindRolloutFinds(c.replicaSets, c.pc.current.revision);
  }

  lemma KeepsCheckingEndpoint(c: Cluster, outcome: Outcome)
    requires Inv(c) && c.pc.CheckingEndpoint?
    ensures Inv(CallStep(c, outcome))
  {
  }

  /** A written status that rests on evidence is true. */
  lemma PublishedIsTrue(c: Cluster, m: Mattermost)
    requires WorkerOk(c) && Traceable(c.replicaSets, c.deployment) && c.pc.Publishing? && c.pc.evidence.Some?
    requires m.status == c.pc.status && (m.generation == c.pc.m.generation ==> m.spec == c.pc.m.spec)
    ensures StableIsTrue(m, c.deployment, c.replicaSets, c.pc.evidence)
  {
    hide Justifies, DesiredTemplate, ImageName, MainImage, Defaulted;
  }

  lemma KeepsPublishing(c: Cluster, outcome: Outcome)
    requires Inv(c) && c.pc.Publishing?
    ensures Inv(CallStep(c, outcome))
  {
    hide WellNumbered, ControllerOk, JobsOk, Justifies, DesiredTemplate, ImageName, MainImage, Defaulted, RolledOutRead,
      Reports;
    if c.pc.evidence.Some? && CallStep(c, outcome).mattermost.status == c.pc.status {
      PublishedIsTrue(c, CallStep(c, outcome).mattermost);
    }
  }

  lemma KeepsFailing(c: Cluster, outcome: Outcome)
    requires Inv(c) && c.pc.Failing?
    ensures Inv(CallStep(c, outcome))
  {
  }

  lemma KeepsCrash(c: Cluster, e: Event)
    requires Inv(c) && e.Crash?
    ensures Inv(Step(c, e))
  {
  }

  lemma KeepsEditSpec(c: Cluster, e: Event)
    requires Inv(c) && e.EditSpec?
    ensures Inv(Step(c, e))
  {
    hide WellNumbered, Traceable, ControllerOk, JobsOk, Justifies, RevisionRuns, Written, ImageName, DesiredTemplate,
      MainImage, RolledOutRead, WorkerCopy, Defaulted, NoJobNeeded;
  }

  lemma KeepsJobProgress(c: Cluster, e: Event)
    requires Inv(c) && e.JobProgress?
    ensures Inv(Step(c, e))
  {
  }

  lemma KeepsForeignJob(c: Cluster, e: Event)
    requires Inv(c) && e.ForeignJob?
    ensures Inv(Step(c, e))
  {
    hide WellNumbered, Traceable, ControllerOk, StableIsTrue, Defaulted, Justifies, RevisionRuns;
  }

  lemma KeepsJobRemoved(c: Cluster, e: Event)
    requires Inv(c) && e.JobRemoved?
    ensures Inv(Step(c, e))
  {
  }

  /** Handing out a new revision leaves what earlier revisions run, and gives the new one the template. */
  lemma EnsureKeepsRevisions(c: Cluster, template: Template, revision: Option<nat>, runs: Template)
    requires WellNumbered(c.replicaSets, c.deployment, c.nextRevision)
    ensures var sets := EnsureReplicaSet(c, template);
      && WellNumbered(sets, c.deployment, c.nextRevision + 1)
      && RevisionRuns(sets, Some(c.nextRevision), template)
      && (revision != Some(c.nextRevision) && RevisionRuns(c.replicaSets, revision, runs) ==>
            RevisionRuns(sets, revision, runs))
  {
    var sets := EnsureReplicaSet(c, template);
    var i := IndexOfTemplate(c.replicaSets, template);
    assert forall k :: 0 <= k < |sets| && k != i ==> sets[k] == c.replicaSets[k];
  }

  /** A newest revision has one holder. */
  lemma NewestIsUnique(sets: seq<ReplicaSet>, i: nat)
    requires i < |sets| && IsNewest(sets, i)
    ensures RevisionRuns(sets, sets[i].revision, sets[i].template)
  {
  }

  lemma KeepsControllerRead(c: Cluster)
    requires Inv(c) && c.controller.Read?
    ensures Inv(StepController(c, true))
  {
    hide Justifies, Defaulted, DesiredTemplate, ImageName, MainImage, JobsOk, UpToDate, NoJobNeeded, RevisionRuns,
      EnsureReplicaSet, IndexOfTemplate;
    var template := c.controller.copy.template;
    var i := IndexOfTemplate(c.replicaSets, template);
    if i < |c.replicaSets| && IsNewest(c.replicaSets, i) {
      NewestIsUnique(c.replicaSets, i);
      return;
    }
    EnsureKeepsRevisions(c, template, None, template);
    assert c.deployment.Some?;
    var d := c.deployment.value;
    EnsureKeepsRevisions(c, template, d.revision, d.template);
    match c.pc
    case ListingReplicaSets(_, current) => EnsureKeepsRevisions(c, template, current.revision, current.template);
    case CheckingEndpoint(_, current, _) => EnsureKeepsRevisions(c, template, current.revision, current.template);
    case Publishing(_, _, Some(e)) => EnsureKeepsRevisions(c, template, e.current.revision, e.current.template);
    case _ =>
  }

  lemma KeepsControllerEnsured(c: Cluster, succeeds: bool)
    requires Inv(c) && c.controller.Ensured?
    ensures Inv(StepController(c, succeeds))
  {
    hide Justifies, Defaulted, DesiredTemplate, ImageName, MainImage, JobsOk, UpToDate, NoJobNeeded;
  }

  lemma KeepsControllerAnnotated(c: Cluster, succeeds: bool)
    requires Inv(c) && c.controller.Annotated?
    ensures Inv(StepController(c, succeeds))
  {
    hide Justifies, Defaulted, DesiredTemplate, ImageName, MainImage, JobsOk, UpToDate, NoJobNeeded;
  }

  lemma KeepsControllerStep(c: Cluster, e: Event)
    requires Inv(c) && e.ControllerStep?
    ensures Inv(Step(c, e))
  {
    hide Justifies, Defaulted, DesiredTemplate, ImageName, MainImage, JobsOk, UpToDate, NoJobNeeded;
    match c.controller
    case Waiting =>
    case Read(_) => if e.succeeds { KeepsControllerRead(c); }
    case Ensured(_, _) => KeepsControllerEnsured(c, e.succeeds);
    case Annotated(_) => KeepsControllerAnnotated(c, e.succeeds);
  }

  lemma KeepsReplicaSetStatus(c: Cluster, e: Event)
    requires Inv(c) && e.ReplicaSetStatus?
    ensures Inv(Step(c, e))
  {
    hide Justifies, Defaulted, DesiredTemplate, ImageName, MainImage, JobsOk, UpToDate, Matches, SnapshotOf, WorkerCopy,
      NoJobNeeded;
  }

  lemma KeepsReplicaSetPruned(c: Cluster, e: Event)
    requires Inv(c) && e.ReplicaSetPruned?
    ensures Inv(Step(c, e))
  {
    hide Justifies, Defaulted, DesiredTemplate, ImageName, MainImage, JobsOk, UpToDate, Matches, SnapshotOf, WorkerCopy,
      NoJobNeeded;
  }

  lemma KeepsDeploymentStatus(c: Cluster, e: Event)
    requires Inv(c) && e.DeploymentStatus?
    ensures Inv(Step(c, e))
  {
    hide Justifies, Defaulted, DesiredTemplate, ImageName, MainImage, JobsOk, UpToDate, RevisionRuns, NoJobNeeded;
  }

  lemma StepKeepsInv(c: Cluster, e: Event)
    requires Inv(c)
    ensures Inv(Step(c, e))
  {
    hide Inv;
    match e
    case Call(outcome) =>
      hide CallStep;
      match c.pc {
        case Idle => KeepsIdle(c, outcome);
        case Loaded(_) => KeepsLoaded(c, outcome);
        case Defaulting(_) => KeepsDefaulting(c, outcome);
        case CheckingDependencies(_) => KeepsCheckingDependencies(c, outcome);
        case EnsuringDeployment(_) => KeepsEnsuringDeployment(c, outcome);
        case GettingDeployment(_) => KeepsGettingDeployment(c, outcome);
        case FetchingJob(_, _) => KeepsFetchingJob(c, outcome);
        case LaunchingJob(_) => KeepsLaunchingJob(c, outcome);
        case DeletingOldJob(_) => KeepsDeletingOldJob(c, outcome);
        case RelaunchingJob(_) => KeepsRelaunchingJob(c, outcome);
        case Updating(_, _, _) => KeepsUpdating(c, outcome);
        case CleaningUp(_, _) => KeepsCleaningUp(c, outcome);
        case CheckingRollout(_) => KeepsCheckingRollout(c, outcome);
        case ListingReplicaSets(_, _) => KeepsListingReplicaSets(c, outcome);
        case CheckingEndpoint(_, _, _) => KeepsCheckingEndpoint(c, outcome);
        case Publishing(_, _, _) => KeepsPublishing(c, outcome);
        case Failing(_, _) => KeepsFailing(c, outcome);
      }
    case Crash => KeepsCrash(c, e);
    case EditSpec(_) => KeepsEditSpec(c, e);
    case JobProgress(_, _) => KeepsJobProgress(c, e);
    case JobRemoved => KeepsJobRemoved(c, e);
    case ForeignJob(_) => KeepsForeignJob(c, e);
    case ControllerStep(_) => KeepsControllerStep(c, e);
    case ReplicaSetStatus(_, _, _) => KeepsReplicaSetStatus(c, e);
    case ReplicaSetPruned(_) => KeepsReplicaSetPruned(c, e);
    case DeploymentStatus(_) => KeepsDeploymentStatus(c, e);
  }

  lemma {:induction false} RunKeepsInv(start: Cluster, events: seq<Event>)
    requires Init(start)
    ensures Inv(Run(start, events))
    decreases |events|
  {
    if events == [] {
    } else {
      RunKeepsInv(start, events[..|events| - 1]);
      StepKeepsInv(Run(start, events[..|events| - 1]), events[|events| - 1]);
    }
  }

  /** A reconcile without interference is one of the runs, whatever calls fail. */
  lemma {:induction false} UntilIdleKeepsInv(c: Cluster, plan: nat -> Outcome, n: nat)
    requires Inv(c)
    ensures Inv(UntilIdle(c, plan, n)) && UntilIdle(c, plan, n).pc.Idle?
    decreases CallsLeft(c.pc)
  {
    hide Inv, CallStep;
    if !c.pc.Idle? {
      CallMakesProgress(c, plan(n));
      StepKeepsInv(c, Call(plan(n)));
      UntilIdleKeepsInv(CallStep(c, plan(n)), plan, n + 1);
    }
  }

  lemma ReconcileKeepsInv(c: Cluster, plan: nat -> Outcome)
    requires Inv(c) && c.pc.Idle?
    ensures Inv(Reconcile(c, plan)) && Reconcile(c, plan).pc.Idle?
  {
    hide Inv, Load;
    StepKeepsInv(c, Call(plan(0)));
    UntilIdleKeepsInv(Load(c), plan, 0);
  }

  // ---------- What the health check read ----------

  ghost predicate HoldsDeployment(c: Cluster, d: Deployment) {
    c.pc.ListingReplicaSets? && c.pc.current == d
  }

  /** The worker or the last Stable status rests on these reads. */
  ghost predicate RestsOn(c: Cluster, e: Evidence) {
    || (c.pc.CheckingEndpoint? && e == Evidence(c.pc.current, c.pc.replicaSet))
    || (c.pc.Publishing? && c.pc.evidence == Some(e))
    || c.evidence == Some(e)
  }

  lemma StepReads(c: Cluster, e: Event, d: Deployment, evidence: Evidence)
    ensures HoldsDeployment(Step(c, e), d) ==> HoldsDeployment(c, d) || c.deployment == Some(d)
    ensures RestsOn(Step(c, e), evidence) ==>
      RestsOn(c, evidence) || (HoldsDeployment(c, evidence.current) && evidence.replicaSet in c.replicaSets)
  {
    hide DesiredTemplate, Defaulted, ImageName, MainImage, FindRollout, HealthStatus, JobContainers, EnsureReplicaSet,
      IndexOfTemplate, IsNewest, Matches, Replaced, Unhealthy, ReconcilingStatus, EndpointFound;
    if e.Call? {
      match c.pc
      case ListingReplicaSets(_, current) => FindRolloutFinds(c.replicaSets, current.revision);
      case _ =>
    }
  }

  /** The Deployment was stored at some moment of the run. */
  ghost predicate WasDeployed(start: Cluster, events: seq<Event>, d: Deployment) {
    exists j :: 0 <= j <= |events| && Run(start, events[..j]).deployment == Some(d)
  }

  /** The Deployment was stored at some moment of the run, and the ReplicaSet at the same or a later one. */
  ghost predicate WasRead(start: Cluster, events: seq<Event>, e: Evidence) {
    exists j, k :: 0 <= j <= k <= |events| && ReadAt(Run(start, events[..j]), Run(start, events[..k]), e)
  }

  ghost predicate ReadAt(first: Cluster, second: Cluster, e: Evidence) {
    first.deployment == Some(e.current) && e.replicaSet in second.replicaSets
  }

  lemma {:induction false} DeploymentWasStored(start: Cluster, events: seq<Event>, d: Deployment)
    requires Init(start) && HoldsDeployment(Run(start, events), d)
    ensures WasDeployed(start, events, d)
    decreases |events|
  {
    hide Step;
    var last := |events| - 1;
    var before := Run(start, events[..last]);
    StepReads(before, events[last], d, Evidence(d, ReplicaSet(d.template, None, 0, 0)));
    if HoldsDeployment(before, d) {
      DeploymentWasStored(start, events[..last], d);
      var j :| 0 <= j <= last && Run(start, events[..last][..j]).deployment == Some(d);
      assert events[..last][..j] == events[..j];
    }
  }

  /** Every read that a Stable status rests on was of stored objects. */
  lemma {:induction false} EvidenceWasRead(start: Cluster, events: seq<Event>, e: Evidence)
    requires Init(start) && RestsOn(Run(start, events), e)
    ensures WasRead(start, events, e)
    decreases |events|
  {
    hide Step, ReadAt;
    var last := |events| - 1;
    var before := Run(start, events[..last]);
    StepReads(before, events[last], e.current, e);
    if RestsOn(before, e) {
      EvidenceWasRead(start, events[..last], e);
      var j, k :| 0 <= j <= k <= last && ReadAt(Run(start, events[..last][..j]), Run(start, events[..last][..k]), e);
      assert events[..last][..j] == events[..j] && events[..last][..k] == events[..k];
    } else {
      DeploymentWasStored(start, events[..last], e.current);
      var j :| 0 <= j <= last && Run(start, events[..last][..j]).deployment == Some(e.current);
      assert events[..last][..j] == events[..j];
      assert ReadAt(Run(start, events[..j]), Run(start, events[..last]), e) by {
        ReadsAt(Run(start, events[..j]), before, e);
      }
    }
  }

  lemma ReadsAt(first: Cluster, second: Cluster, e: Evidence)
    requires first.deployment == Some(e.current) && e.replicaSet in second.replicaSets
    ensures ReadAt(first, second, e)
  {
  }

  // ---------- No stale Stable ----------

  /** In every run: while the status says Stable for the current generation, the live Deployment is
      the one generated from the spec, its generation was observed, every ReplicaSet of its current
      revision runs its template, and at an earlier moment such a ReplicaSet was stored with exactly the
      wanted number of available pods, at or after a moment when the Deployment that the health check read
      was stored with that many pods. */
  lemma {:induction false} NoStaleStable(start: Cluster, events: seq<Event>)
    requires Init(start)
    ensures var c := Run(start, events);
      var m := c.mattermost;
      m.status.state == Stable && m.status.observedGeneration == m.generation ==>
        && c.deployment.Some?
        && c.deployment.value.template == DesiredTemplate(m.spec)
        && c.deployment.value.wanted == m.spec.replicas
        && c.deployment.value.labels == m.spec.labels
        && c.deployment.value.observedGeneration == c.deployment.value.generation
        && (forall i :: 0 <= i < |c.replicaSets| && c.replicaSets[i].revision == c.deployment.value.revision ==>
              c.replicaSets[i].template == DesiredTemplate(m.spec))
        && c.evidence.Some? && WasRead(start, events, c.evidence.value)
        && c.evidence.value.current.template == DesiredTemplate(m.spec)
        && c.evidence.value.current.observedGeneration == c.evidence.value.current.generation
        && c.evidence.value.replicaSet.template == DesiredTemplate(m.spec)
        && c.evidence.value.replicaSet.revision == c.evidence.value.current.revision
        && c.evidence.value.replicaSet.availableReplicas == WantedReplicas(m.spec)
        && c.evidence.value.current.statusReplicas == WantedReplicas(m.spec)
        && m.status.image == m.spec.image && m.status.version == m.spec.version
        && m.status.replicas == WantedReplicas(m.spec) && m.status.updatedReplicas == WantedReplicas(m.spec)
        && Serves(m.spec.endpoint)
  {
    hide Defaulted, DesiredTemplate, ImageName, WorkerOk, ControllerOk, JobsOk, Run, WasRead, Serves;
    RunKeepsInv(start, events);
    var c := Run(start, events);
    if c.evidence.Some? {
      EvidenceWasRead(start, events, c.evidence.value);
    }
  }

  /** A negative replica count, which the resource accepts, is never reported as Stable. */
  lemma {:induction false} NegativeCountIsNeverStable(start: Cluster, events: seq<Event>)
    requires Init(start)
    ensures var m := Run(start, events).mattermost;
      WantedReplicas(m.spec) < 0 ==> !(m.status.state == Stable && m.status.observedGeneration == m.generation)
  {
    hide Run;
    NoStaleStable(start, events);
  }

  // ---------- Image switches ----------

  /** The update Job is finished, had no failed pod, and ran the image in its main container. */
  ghost predicate JobFinished(c: Cluster, image: string, uid: nat) {
    && c.job.Some? && c.job.value.uid == uid
    && c.job.value.completed && c.job.value.failed == 0
    && MainImage(c.job.value.containers) == Some(image)
  }

  /** Every Job on record was stored as finished at some point of the run. */
  lemma {:induction false} FinishedWasStored(start: Cluster, events: seq<Event>, s: Switch)
    requires Init(start) && s in Run(start, events).finished
    ensures exists k :: 0 <= k <= |events| && JobFinished(Run(start, events[..k]), s.image, s.job)
    decreases |events|
  {
    hide CallStep, MainImage, StepController, Edit;
    if events == [] {
      assert JobFinished(Run(start, events[..0]), s.image, s.job);
      return;
    }
    var last := |events| - 1;
    var before := Run(start, events[..last]);
    if s in before.finished {
      FinishedWasStored(start, events[..last], s);
      var k :| 0 <= k <= last && JobFinished(Run(start, events[..last][..k]), s.image, s.job);
      assert events[..last][..k] == events[..k];
    } else {
      CallKeepsFinished(before, events[last]);
      assert events[..|events|] == events;
    }
  }

  lemma CallKeepsFinished(c: Cluster, e: Event)
    ensures e.JobProgress? || Step(c, e).finished == c.finished
  {
    hide DesiredTemplate, Defaulted, ImageName, MainImage, FindRollout, HealthStatus, JobContainers;
  }

  /** A Deployment stays, and its main image becomes another one. */
  ghost predicate SwitchesImage(before: Option<Deployment>, after: Option<Deployment>) {
    && before.Some? && after.Some?
    && MainImage(before.value.template.containers) != MainImage(after.value.template.containers)
  }

  /** A step that changes the main image of an existing Deployment is the worker's update; unless the
      update Job is disabled, it is logged together with the Job that vouches for the new image. */
  lemma ImageChangeIsLogged(c: Cluster, e: Event)
    requires Inv(c)
    requires SwitchesImage(c.deployment, Step(c, e).deployment)
    ensures c.pc.Updating? && e.Call?
    ensures MainImage(Step(c, e).deployment.value.template.containers) == Some(ImageName(c.pc.m.spec))
    ensures c.pc.m.spec.updateJobDisabled ||
      (c.pc.gate.Some?
       && Step(c, e).switches == c.switches + [Switch(ImageName(c.pc.m.spec), c.pc.gate.value.uid)]
       && VouchedFor(c.finished, ImageName(c.pc.m.spec), c.pc.gate.value.uid))
  {
    hide DesiredTemplate, Defaulted, ImageName, MainImage, FindRollout, HealthStatus, JobContainers, Justifies,
      RevisionRuns, ControllerOk, JobsOk, StableIsTrue, Traceable, WellNumbered, GenerationsOk;
    if !c.pc.Idle? { DesiredImage(c.pc.m.spec); }
  }

  /** In every run: when the main image of an existing Deployment changes while the update Job is
      enabled, a Job with that image had finished before without a failed pod. */
  lemma {:induction false} ImageSwitchNeedsFinishedJob(start: Cluster, events: seq<Event>, e: Event)
    requires Init(start)
    ensures var c := Run(start, events);
      var after := Step(c, e).deployment;
      SwitchesImage(c.deployment, after) ==>
        && c.pc.Updating?
        && MainImage(after.value.template.containers) == Some(ImageName(c.pc.m.spec))
        && (c.pc.m.spec.updateJobDisabled ||
            exists k, uid :: 0 <= k <= |events| && JobFinished(Run(start, events[..k]), ImageName(c.pc.m.spec), uid))
  {
    hide Step, Inv, MainImage, ImageName;
    var c := Run(start, events);
    RunKeepsInv(start, events);
    if SwitchesImage(c.deployment, Step(c, e).deployment) {
      ImageChangeIsLogged(c, e);
      if !c.pc.m.spec.updateJobDisabled {
        FinishedWasStored(start, events, Switch(ImageName(c.pc.m.spec), c.pc.gate.value.uid));
      }
    }
  }

  // ---------- One Job per switch ----------

  ghost predicate Used(switches: seq<Switch>, uid: nat) {
    exists i :: 0 <= i < |switches| && switches[i].job == uid
  }

  ghost predicate DistinctJobs(switches: seq<Switch>) {
    forall i, j :: 0 <= i < j < |switches| ==> switches[i].job != switches[j].job
  }

  /** Uids are fresh, and unless a finished Job was left behind, no Job vouches twice. */
  ghost predicate Accounted(c: Cluster) {
    && (forall i :: 0 <= i < |c.switches| ==> c.switches[i].job < c.nextUid)
    && (c.job.Some? ==> c.job.value.uid < c.nextUid)
    && (c.pc.Updating? && c.pc.gate.Some? ==> c.pc.gate.value.uid < c.nextUid)
    && (!c.jobLeftBehind ==>
          && DistinctJobs(c.switches)
          && (c.job.Some? && !c.pc.CleaningUp? ==> !Used(c.switches, c.job.value.uid))
          && (c.pc.Updating? && c.pc.gate.Some? ==> !Used(c.switches, c.pc.gate.value.uid)))
  }

  lemma JobCallKeepsAccounts(c: Cluster, outcome: Outcome)
    requires Accounted(c)
    requires TouchesJobs(c.pc)
    ensures Accounted(CallStep(c, outcome))
  {
    hide DesiredTemplate, Defaulted, ImageName, MainImage, FindRollout, HealthStatus, JobContainers, EnsureReplicaSet,
      Matches, Replaced, Unhealthy, ReconcilingStatus;
  }

  ghost predicate TouchesJobs(pc: Pc) {
    pc.FetchingJob? || pc.LaunchingJob? || pc.DeletingOldJob? || pc.RelaunchingJob? || pc.Updating? || pc.CleaningUp?
  }

  ghost predicate SameJobs(c: Cluster, c': Cluster) {
    && c'.job == c.job && c'.switches == c.switches && c'.nextUid == c.nextUid && c'.jobLeftBehind == c.jobLeftBehind
    && (c'.pc.Updating? ==> c'.pc.gate.None?)
    && !c'.pc.CleaningUp?
  }

  ghost predicate PreparesDeployment(pc: Pc) {
    || pc.Idle? || pc.Loaded? || pc.Defaulting? || pc.CheckingDependencies? || pc.EnsuringDeployment?
    || pc.GettingDeployment?
  }

  lemma PreparingKeepsJobs(c: Cluster, outcome: Outcome)
    requires PreparesDeployment(c.pc)
    ensures SameJobs(c, CallStep(c, outcome))
  {
    hide DesiredTemplate, Defaulted, ImageName, MainImage, FindRollout, HealthStatus, Matches, Unhealthy,
      ReconcilingStatus;
  }

  lemma CheckingKeepsJobs(c: Cluster, outcome: Outcome)
    requires !TouchesJobs(c.pc) && !PreparesDeployment(c.pc)
    ensures SameJobs(c, CallStep(c, outcome))
  {
    hide DesiredTemplate, Defaulted, ImageName, MainImage, FindRollout, HealthStatus, Matches, Unhealthy,
      ReconcilingStatus;
  }

  lemma FreshIsUnused(c: Cluster)
    requires forall i :: 0 <= i < |c.switches| ==> c.switches[i].job < c.nextUid
    ensures !Used(c.switches, c.nextUid)
  {
  }

  lemma StepKeepsAccounts(c: Cluster, e: Event)
    requires Accounted(c)
    ensures Accounted(Step(c, e))
  {
    hide DesiredTemplate, Defaulted, ImageName, MainImage, FindRollout, HealthStatus, JobContainers, EnsureReplicaSet,
      Matches, Replaced, Unhealthy, ReconcilingStatus, Used, DistinctJobs, CallStep;
    FreshIsUnused(c);
    if e.Call? {
      if TouchesJobs(c.pc) {
        JobCallKeepsAccounts(c, e.outcome);
      } else {
        if PreparesDeployment(c.pc) { PreparingKeepsJobs(c, e.outcome); } else { CheckingKeepsJobs(c, e.outcome); }
      }
    }
  }

  lemma {:induction false} RunKeepsAccounts(start: Cluster, events: seq<Event>)
    requires Init(start)
    ensures Accounted(Run(start, events))
    decreases |events|
  {
    hide Step;
    if events == [] {
    } else {
      RunKeepsAccounts(start, events[..|events| - 1]);
      StepKeepsAccounts(Run(start, events[..|events| - 1]), events[|events| - 1]);
    }
  }

  /** In every run without a lost clean-up, each gated image switch uses up its own Job. */
  lemma {:induction false} EachSwitchUsesItsOwnJob(start: Cluster, events: seq<Event>)
    requires Init(start)
    ensures var c := Run(start, events);
      !c.jobLeftBehind ==>
        forall i, j :: 0 <= i < j < |c.switches| ==> c.switches[i].job != c.switches[j].job
  {
    RunKeepsAccounts(start, events);
  }

  lemma RunExtends(c: Cluster, events: seq<Event>, e: Event)
    ensures Run(c, events + [e]) == Step(Run(c, events), e)
  {
    hide Step;
    assert (events + [e])[..|events|] == events;
  }

  /** An update of the Deployment to a new image is due, and nothing stands in its way. */
  ghost predicate MayUpdate(c: Cluster) {
    var spec := c.mattermost.spec;
    && c.pc.Idle? && c.mattermost.status.state != Unset
    && !spec.refused && Defaulted(spec) == spec
    && c.deployment.Some? && MainImage(c.deployment.value.template.containers).Some?
    && MainImage(c.deployment.value.template.containers) != Some(ImageName(spec))
    && (!spec.updateJobDisabled ==>
          && c.job.Some? && c.job.value.completed && c.job.value.failed == 0
          && MainImage(c.job.value.containers) == Some(ImageName(spec)))
  }

  /** The Deployment is updated and the worker crashes right after that, before the clean-up of the Job. */
  ghost function CutShort(c: Cluster): Cluster
    requires MayUpdate(c)
  {
    var spec := c.mattermost.spec;
    c.(loaded := c.mattermost.generation,
       deployment := Some(Replaced(c.deployment.value, spec, true)),
       switches := if spec.updateJobDisabled then c.switches
         else c.switches + [Switch(ImageName(spec), c.job.value.uid)],
       jobLeftBehind := c.jobLeftBehind || !spec.updateJobDisabled)
  }

  /** The worker's next call is answered. */
  ghost function Next(c: Cluster): Cluster {
    CallStep(c, Done(true))
  }

  ghost function Nexts(c: Cluster, n: nat): Cluster {
    if n == 0 then c else Next(Nexts(c, n - 1))
  }

  lemma ReachesUpdate(c: Cluster)
    requires MayUpdate(c)
    ensures var m := c.mattermost;
      Nexts(c, 5) == c.(loaded := m.generation,
                        pc := if m.spec.updateJobDisabled then Updating(m, c.deployment.value, None)
                          else FetchingJob(m, c.deployment.value))
  {
    hide DesiredTemplate, Defaulted, ImageName, MainImage;
    var m := c.mattermost;
    DesiredImage(m.spec);
    assert Nexts(c, 1) == Next(Nexts(c, 0)) == c.(loaded := m.generation, pc := Defaulting(m));
    assert Nexts(c, 2) == Next(Nexts(c, 1)) == c.(loaded := m.generation, pc := CheckingDependencies(m));
    assert Nexts(c, 3) == Next(Nexts(c, 2)) == c.(loaded := m.generation, pc := EnsuringDeployment(m));
    assert Nexts(c, 4) == Next(Nexts(c, 3)) == c.(loaded := m.generation, pc := GettingDeployment(m));
    assert Nexts(c, 5) == Next(Nexts(c, 4));
  }

  lemma {:induction false} NextsAreEvents(start: Cluster, events: seq<Event>, n: nat) returns (longer: seq<Event>)
    ensures Run(start, longer) == Nexts(Run(start, events), n)
  {
    hide Step, Run, CallStep;
    longer := events;
    if n > 0 {
      longer := NextsAreEvents(start, events, n - 1);
      RunExtends(start, longer, Call(Done(true)));
      StepIsNext(Run(start, longer));
      longer := longer + [Call(Done(true))];
    }
  }

  lemma StepIsNext(c: Cluster)
    ensures Step(c, Call(Done(true))) == Next(c)
  {
    hide CallStep;
  }

  lemma CutsShort(c: Cluster) returns (n: nat)
    requires MayUpdate(c)
    ensures Step(Nexts(c, n), Crash) == CutShort(c)
  {
    ReachesUpdate(c);
    DesiredImage(c.mattermost.spec);
    hide DesiredTemplate, Defaulted, ImageName, MainImage;
    n := if c.mattermost.spec.updateJobDisabled then 6 else 7;
    assert Nexts(c, 6) == Next(Nexts(c, 5)) && Nexts(c, 7) == Next(Nexts(c, 6));
  }

  lemma RunsCutShort(start: Cluster, events: seq<Event>) returns (longer: seq<Event>)
    requires MayUpdate(Run(start, events))
    ensures Run(start, longer) == CutShort(Run(start, events))
  {
    hide Step, Run, MayUpdate, CutShort, Nexts;
    var n := CutsShort(Run(start, events));
    longer := NextsAreEvents(start, events, n);
    RunExtends(start, longer, Crash);
    longer := longer + [Crash];
  }

  /** The spec `back` switches to another image without a Job. */
  ghost predicate SwitchesBack(spec: Spec, back: Spec) {
    back.updateJobDisabled && !back.refused && Defaulted(back) == back && ImageName(back) != ImageName(spec)
  }

  lemma UpdateRunsTheImage(c: Cluster)
    requires MayUpdate(c)
    ensures MainImage(CutShort(c).deployment.value.template.containers) == Some(ImageName(c.mattermost.spec))
    ensures var c' := CutShort(c);
      && c'.pc.Idle? && c'.mattermost == c.mattermost && c'.job == c.job && c'.deployment.Some?
      && c'.switches == (if c.mattermost.spec.updateJobDisabled then c.switches
                         else c.switches + [Switch(ImageName(c.mattermost.spec), c.job.value.uid)])
      && (!c.mattermost.spec.updateJobDisabled || c.jobLeftBehind ==> c'.jobLeftBehind)
  {
    hide DesiredTemplate, Defaulted, ImageName, MainImage;
    DesiredImage(c.mattermost.spec);
  }

  /** When the clean-up is lost, the Job vouches for the same switch again after a switch back. */
  lemma {:induction false} JobVouchesAgain(start: Cluster, events: seq<Event>, back: Spec) returns (longer: seq<Event>)
    requires MayUpdate(Run(start, events)) && !Run(start, events).mattermost.spec.updateJobDisabled
    requires SwitchesBack(Run(start, events).mattermost.spec, back)
    ensures var c, spec := Run(start, events), Run(start, events).mattermost.spec;
      var switch := Switch(ImageName(spec), c.job.value.uid);
      Run(start, longer).switches == c.switches + [switch, switch] && Run(start, longer).jobLeftBehind
  {
    hide Run, CallStep, CutShort, Defaulted, ImageName, MainImage;
    var c := Run(start, events);
    UpdateRunsTheImage(c);
    longer := RunsCutShort(start, events);
    RunExtends(start, longer, EditSpec(back));
    longer := longer + [EditSpec(back)];
    UpdateRunsTheImage(Run(start, longer));
    longer := RunsCutShort(start, longer);
    RunExtends(start, longer, EditSpec(c.mattermost.spec));
    longer := longer + [EditSpec(c.mattermost.spec)];
    UpdateRunsTheImage(Run(start, longer));
    longer := RunsCutShort(start, longer);
  }

  ghost function RunningSpec(image: string, disabled: bool): Spec {
    Spec(image, "1", "", Some(1), false, NoEndpoint, disabled, [], "", "")
  }

  ghost function MarkedStart(): Cluster {
    var m := Mattermost(RunningSpec("b", false), 1, Status(Unset, 0, 0, 0, "", ""), 1);
    var job := Job(0, [Container(MATTERMOST_APP_CONTAINER, "b:1", [], None, None)], true, 0);
    Cluster(m, Some(NewDeployment(RunningSpec("a", false))), Some(job), [], Idle, 0, Waiting, 1, 0,
            {Switch("b:1", 0)}, [], false, None)
  }

  lemma RunningImage(image: string, disabled: bool)
    ensures var spec := RunningSpec(image, disabled);
      && ImageName(spec) == image + ":1" && MainImage(DesiredTemplate(spec).containers) == Some(image + ":1")
      && (image != "" ==> Defaulted(spec) == spec)
  {
    DesiredImage(RunningSpec(image, disabled));
    EmptySizeIsInvalid();
  }

  lemma MarkedStartRuns() returns (events: seq<Event>)
    ensures Init(MarkedStart())
    ensures var m := MarkedStart().mattermost;
      Run(MarkedStart(), events) ==
        MarkedStart().(loaded := 1, mattermost := m.(status := m.status.(state := Reconciling, observedGeneration := 1),
          version := 2))
  {
    assert FinishedJobs(MarkedStart().job) == {Switch("b:1", 0)};
    hide FinishedJobs;
    var start := MarkedStart();
    assert Nexts(start, 2) == Next(Next(start));
    events := NextsAreEvents(start, [], 2);
    assert Run(start, []) == start;
    RunExtends(start, events, Crash);
    events := events + [Crash];
    hide Run;
  }

  /** The restriction is needed: in this run the worker crashes before each clean-up, and one Job vouches for two
      switches. */
  lemma {:induction false} LostCleanUpLetsJobVouchTwice() returns (start: Cluster, events: seq<Event>)
    ensures Init(start)
    ensures var c := Run(start, events);
      c.jobLeftBehind && |c.switches| == 2 && c.switches[0].job == c.switches[1].job
  {
    start := MarkedStart();
    events := MarkedStartRuns();
    RunningImage("a", false);
    RunningImage("a", true);
    RunningImage("b", false);
    assert MainImage(start.job.value.containers) == Some("b:1");
    assert ("a" + ":1")[0] != ("b" + ":1")[0];
    assert "b" + ":1" == "b:1";
    hide Run, CallStep, MainImage, ImageName, DesiredTemplate, Defaulted;
    events := JobVouchesAgain(start, events, RunningSpec("a", true));
  }
}
