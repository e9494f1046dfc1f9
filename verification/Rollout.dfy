/** One Mattermost resource, its Deployment, its update Job and its ReplicaSets,
    as a state machine over single API calls.

    The operator's worker is a program counter that carries the local copies the
    code holds between two calls. An event is either the outcome of the worker's
    next call, or a move of the environment: a user edit, progress of the Job, a Job
    that somebody else creates under the one name that Jobs have, a
    step of the Deployment controller, a status change, or a crash. Every run is
    a sequence of events, so the theorems in RolloutSafety quantify over every
    interleaving. */
module Rollout {
  import opened Kube
  import opened LabelMaps
  import opened Sizes
  import opened UpdateJob
  import MattermostLabels

  /** The load balancer or the Ingress that leads to the installation, with the name of the resource and
      the labels of the spec that decide whether it is found. */
  datatype Endpoint = NoEndpoint | Endpoint(name: string, resourceLabels: Option<Labels>, extraLabels: Labels)

  /** The part of MattermostSpec that the rollout depends on. A spec is `refused` when SetDefaults reports
      an error. `pod` stands for every other input of the pod template, `labels` for the labels of the
      Deployment object. */
  datatype Spec = Spec(
    image: string,
    version: string,
    size: string,
    replicas: Option<int>,
    refused: bool,
    endpoint: Endpoint,
    updateJobDisabled: bool,
    sidecars: seq<Container>,
    pod: string,
    labels: string)

  datatype Status = Status(
    state: RunningState,
    observedGeneration: nat,
    replicas: int,
    updatedReplicas: int,
    image: string,
    version: string)

  datatype Mattermost = Mattermost(spec: Spec, generation: nat, status: Status, version: nat)

  datatype Template = Template(containers: seq<Container>, pod: string)

  datatype Deployment = Deployment(
    template: Template,
    wanted: Option<int>,
    labels: string,
    generation: nat,
    observedGeneration: nat,
    revision: Option<nat>,
    statusReplicas: nat,
    version: nat)

  datatype ReplicaSet = ReplicaSet(
    template: Template,
    revision: Option<nat>,
    observedGeneration: nat,
    availableReplicas: nat)

  datatype Job = Job(uid: nat, containers: seq<Container>, completed: bool, failed: nat)

  // ---------- What the operator wants ----------

  /** SetDefaults followed by SetReplicasAndResourcesFromSize. */
  function Defaulted(spec: Spec): Spec {
    var size := GetClusterSize(spec.size);
    spec.(image := OrElse(spec.image, DEFAULT_IMAGE),
          version := OrElse(spec.version, DEFAULT_VERSION),
          size := "",
          replicas :=
            if size.Some? then Some(size.value.app.replicas)
            else if spec.replicas.None? then Some(DefaultSize().app.replicas)
            else spec.replicas)
  }

  function ImageName(spec: Spec): string {
    ImageReference(spec.image, spec.version)
  }

  function DesiredTemplate(spec: Spec): Template {
    Template(
      [Container(MATTERMOST_APP_CONTAINER, ImageName(spec), [], Some("/api/v4/system/ping"),
        Some("/api/v4/system/ping"))]
        + spec.sidecars,
      spec.pod)
  }

  /** The replica count that the health check asks for. */
  function WantedReplicas(spec: Spec): int {
    if spec.replicas.Some? then spec.replicas.value else 1
  }

  /** The Deployment object carries exactly what is generated from the spec. */
  predicate Matches(d: Deployment, spec: Spec) {
    d.template == DesiredTemplate(spec) && d.wanted == spec.replicas && d.labels == spec.labels
  }

  // ---------- The health check ----------

  /** First listed ReplicaSet of the given revision that was seen by its controller. */
  function FindRollout(sets: seq<ReplicaSet>, revision: Option<nat>): Option<ReplicaSet> {
    if sets == [] then None
    else if sets[0].revision == revision && sets[0].observedGeneration > 0 then Some(sets[0])
    else FindRollout(sets[1..], revision)
  }

  function Unhealthy(m: Mattermost): Status {
    Status(Reconciling, m.generation, 0, 0, "", "")
  }

  /** Status computed from the Deployment and the ReplicaSet of its current revision. */
  function HealthStatus(m: Mattermost, replicas: int, available: int, endpoint: bool): Status {
    var wanted := WantedReplicas(m.spec);
    var counted := Status(Reconciling, m.generation, replicas, available, "", "");
    if wanted > 0 && available == 0 then counted
    else
      var named := counted.(image := m.spec.image, version := m.spec.version);
      if !endpoint then named
      else if available == wanted && replicas == wanted then named.(state := Stable)
      else if wanted > 0 then named.(state := Ready)
      else named
  }

  /** The load balancer's Service, or the Ingress, is looked for with the labels of the pods, while these
      objects carry the labels of other resources. */
  predicate IsLabelled(endpoint: Endpoint)
    requires endpoint.Endpoint?
  {
    Selects(
      MattermostLabels.Answer(endpoint.name, endpoint.resourceLabels, endpoint.extraLabels, MattermostLabels.PodQuery),
      MattermostLabels.Answer(endpoint.name, endpoint.resourceLabels, endpoint.extraLabels,
        MattermostLabels.ResourceQuery))
  }

  /** The endpoint can be found, or none is looked for. */
  predicate Serves(endpoint: Endpoint) {
    endpoint.Endpoint? ==> IsLabelled(endpoint)
  }

  predicate EndpointFound(endpoint: Endpoint, outcome: Outcome) {
    Serves(endpoint) && (endpoint.Endpoint? ==> outcome.Done?)
  }

  // ---------- States and events ----------

  /** Where the worker is between two calls, with the copies it holds. In `Updating`
      the gate is the Job that was found finished, or None when no Job is needed. */
  datatype Pc =
    | Idle
    | Loaded(m: Mattermost)
    | Defaulting(m: Mattermost)
    | CheckingDependencies(m: Mattermost)
    | EnsuringDeployment(m: Mattermost)
    | GettingDeployment(m: Mattermost)
    | FetchingJob(m: Mattermost, current: Deployment)
    | LaunchingJob(m: Mattermost)
    | DeletingOldJob(m: Mattermost)
    | RelaunchingJob(m: Mattermost)
    | Updating(m: Mattermost, current: Deployment, gate: Option<Job>)
    | CleaningUp(m: Mattermost, updated: bool)
    | CheckingRollout(m: Mattermost)
    | ListingReplicaSets(m: Mattermost, current: Deployment)
    | CheckingEndpoint(m: Mattermost, current: Deployment, replicaSet: ReplicaSet)
    | Publishing(m: Mattermost, status: Status, evidence: Option<Evidence>)
    | Failing(m: Mattermost, status: Status)

  /** What the health check read before it called the installation stable. */
  datatype Evidence = Evidence(current: Deployment, replicaSet: ReplicaSet)

  /** The Deployment controller, with the copy of the Deployment it works on. */
  datatype Controller =
    | Waiting
    | Read(copy: Deployment)
    | Ensured(copy: Deployment, revision: nat)
    | Annotated(copy: Deployment)

  /** One image switch that went through an update Job. */
  datatype Switch = Switch(image: string, job: nat)

  datatype Cluster = Cluster(
    mattermost: Mattermost,
    deployment: Option<Deployment>,
    job: Option<Job>,
    replicaSets: seq<ReplicaSet>,
    pc: Pc,
    loaded: nat,
    controller: Controller,
    nextUid: nat,
    nextRevision: nat,
    // History: Jobs that finished without a failed pod, gated image switches, whether a
    // finished Job was left behind, and the reads behind the last published Stable.
    finished: set<Switch>,
    switches: seq<Switch>,
    jobLeftBehind: bool,
    evidence: Option<Evidence>)

  /** Outcome of one API call. A failed call changes nothing. Whether the revision
      annotation survives a replacing update of the Deployment is left open. */
  datatype Outcome = Failed | Done(keepsRevision: bool)

  datatype Event =
    | Call(outcome: Outcome)
    | Crash
    | EditSpec(spec: Spec)
    | JobProgress(completed: bool, failed: nat)
    | JobRemoved
    | ForeignJob(containers: seq<Container>)
    | ControllerStep(succeeds: bool)
    | ReplicaSetStatus(index: nat, observedGeneration: nat, availableReplicas: nat)
    | ReplicaSetPruned(index: nat)
    | DeploymentStatus(replicas: nat)

  // ---------- Calls of the worker ----------

  /** Status().Update through updateStatus: nothing is sent when the status is unchanged,
      and a write on an outdated copy is refused. */
  function WriteStatus(c: Cluster, m: Mattermost, status: Status, outcome: Outcome): (Cluster, bool) {
    if m.status == status then (c, true)
    else if outcome.Done? && c.mattermost.version == m.version then
      (c.(mattermost := c.mattermost.(status := status, version := m.version + 1)), true)
    else (c, false)
  }

  function AfterStatus(m: Mattermost, status: Status): Mattermost {
    if m.status == status then m else m.(status := status, version := m.version + 1)
  }

  /** Status that the error and not-ready paths publish: the status copied at load time, marked
      Reconciling, with the generation of load time. */
  function ReconcilingStatus(loaded: nat, m: Mattermost): Status {
    m.status.(state := Reconciling, observedGeneration := loaded)
  }

  function NewJob(c: Cluster, m: Mattermost): Job {
    Job(c.nextUid, JobContainers(DesiredTemplate(m.spec).containers), false, 0)
  }

  function CreateJob(c: Cluster, m: Mattermost): Cluster {
    c.(job := Some(NewJob(c, m)), nextUid := c.nextUid + 1)
  }

  function NewDeployment(spec: Spec): Deployment {
    Deployment(DesiredTemplate(spec), spec.replicas, spec.labels, 1, 0, None, 0, 1)
  }

  /** A replacing update: the generation moves exactly when the spec differs. */
  function Replaced(d: Deployment, spec: Spec, keepsRevision: bool): Deployment {
    var sameSpec := d.template == DesiredTemplate(spec) && d.wanted == spec.replicas;
    d.(template := DesiredTemplate(spec),
       wanted := spec.replicas,
       labels := spec.labels,
       generation := if sameSpec then d.generation else d.generation + 1,
       revision := if keepsRevision then d.revision else None,
       version := d.version + 1)
  }

  function Load(c: Cluster): Cluster {
    var m := c.mattermost;
    c.(loaded := m.generation, pc := if m.status.state == Unset then Loaded(m) else Defaulting(m))
  }

  function MarkReconciling(c: Cluster, m: Mattermost, outcome: Outcome): Cluster {
    var (c', ok) := WriteStatus(c, m, ReconcilingStatus(c.loaded, m), outcome);
    c'.(pc := if ok then Defaulting(AfterStatus(m, ReconcilingStatus(c.loaded, m))) else Idle)
  }

  function SetDefaults(c: Cluster, m: Mattermost, outcome: Outcome): Cluster {
    if m.spec.refused then c.(pc := Failing(m, ReconcilingStatus(c.loaded, m)))
    else if Defaulted(m.spec) == m.spec then c.(pc := CheckingDependencies(m))
    else if outcome.Done? && c.mattermost.version == m.version then
      var m' := c.mattermost.(spec := Defaulted(m.spec),
                              generation := m.generation + 1,
                              version := m.version + 1);
      c.(mattermost := m', pc := CheckingDependencies(m'))
    else c.(pc := Failing(m, ReconcilingStatus(c.loaded, m)))
  }

  function EnsureDeployment(c: Cluster, m: Mattermost, outcome: Outcome): Cluster {
    if outcome.Failed? then c.(pc := Failing(m, ReconcilingStatus(c.loaded, m)))
    else if c.deployment.Some? then c.(pc := GettingDeployment(m))
    else c.(deployment := Some(NewDeployment(m.spec)), pc := GettingDeployment(m))
  }

  /** What follows the read of the Deployment: a new image is checked by a Job first. */
  function AfterRead(loaded: nat, m: Mattermost, current: Deployment): Pc {
    var image := MainImage(current.template.containers);
    if image.None? then Failing(m, ReconcilingStatus(loaded, m))
    else if image == MainImage(DesiredTemplate(m.spec).containers) || m.spec.updateJobDisabled
      then Updating(m, current, None)
    else FetchingJob(m, current)
  }

  function GetDeployment(c: Cluster, m: Mattermost, outcome: Outcome): Cluster {
    if outcome.Failed? || c.deployment.None? then c.(pc := Failing(m, ReconcilingStatus(c.loaded, m)))
    else c.(pc := AfterRead(c.loaded, m, c.deployment.value))
  }

  function FetchJob(c: Cluster, m: Mattermost, current: Deployment, outcome: Outcome): Cluster {
    if outcome.Failed? then c.(pc := Failing(m, ReconcilingStatus(c.loaded, m)))
    else if c.job.None? then c.(pc := LaunchingJob(m))
    else
      var job := c.job.value;
      var image := MainImage(job.containers);
      if image.None? then c.(pc := Failing(m, ReconcilingStatus(c.loaded, m)))
      else if image != MainImage(DesiredTemplate(m.spec).containers) then c.(pc := DeletingOldJob(m))
      else if !job.completed then c.(pc := Failing(m, ReconcilingStatus(c.loaded, m)))
      else if job.failed > 0 then c.(pc := CleaningUp(m, false))
      else c.(pc := Updating(m, current, Some(job)))
  }

  function LaunchJob(c: Cluster, m: Mattermost, outcome: Outcome): Cluster {
    if outcome.Failed? then c.(pc := Failing(m, ReconcilingStatus(c.loaded, m)))
    else if c.job.Some? then c.(pc := Failing(m, ReconcilingStatus(c.loaded, m)))
    else CreateJob(c, m).(pc := Failing(m, ReconcilingStatus(c.loaded, m)))
  }

  function DeleteOldJob(c: Cluster, m: Mattermost, outcome: Outcome): Cluster {
    if outcome.Failed? then c.(pc := Failing(m, ReconcilingStatus(c.loaded, m)))
    else c.(job := None, pc := RelaunchingJob(m))
  }

  function RelaunchJob(c: Cluster, m: Mattermost, outcome: Outcome): Cluster {
    if outcome.Failed? || c.job.Some? then c.(pc := Failing(m, ReconcilingStatus(c.loaded, m)))
    else CreateJob(c, m).(pc := Failing(m, ReconcilingStatus(c.loaded, m)))
  }

  /** ResourceHelper.Update: writes when the objects differ, and only on the version that was read. */
  function UpdateDeployment(c: Cluster, m: Mattermost, current: Deployment, gate: Option<Job>,
      outcome: Outcome): Cluster {
    var next := if gate.Some? then CleaningUp(m, true) else CheckingRollout(m);
    var failure := if gate.Some? then CleaningUp(m, false) else Failing(m, ReconcilingStatus(c.loaded, m));
    if Matches(current, m.spec) then c.(pc := next)
    else if outcome.Done? && c.deployment.Some? && c.deployment.value.version == current.version then
      c.(deployment := Some(Replaced(current, m.spec, outcome.keepsRevision)),
         switches := if gate.Some? then c.switches + [Switch(ImageName(m.spec), gate.value.uid)] else c.switches,
         pc := next)
    else c.(pc := failure)
  }

  function CleanUp(c: Cluster, m: Mattermost, updated: bool, outcome: Outcome): Cluster {
    var next := if updated then CheckingRollout(m) else Failing(m, ReconcilingStatus(c.loaded, m));
    if outcome.Failed? then c.(jobLeftBehind := true, pc := next)
    else c.(job := None, pc := next)
  }

  function CheckRollout(c: Cluster, m: Mattermost, outcome: Outcome): Cluster {
    if outcome.Failed? || c.deployment.None? ||
      c.deployment.value.generation != c.deployment.value.observedGeneration then
      c.(pc := Publishing(m, Unhealthy(m), None))
    else c.(pc := ListingReplicaSets(m, c.deployment.value))
  }

  function ListReplicaSets(c: Cluster, m: Mattermost, current: Deployment, outcome: Outcome): Cluster {
    var found := FindRollout(c.replicaSets, current.revision);
    if outcome.Failed? || found.None? then c.(pc := Publishing(m, Unhealthy(m), None))
    else c.(pc := CheckingEndpoint(m, current, found.value))
  }

  /** The load balancer or Ingress read, when there is one, and the resulting status. */
  function CheckEndpoint(c: Cluster, m: Mattermost, current: Deployment, replicaSet: ReplicaSet,
      outcome: Outcome): Cluster {
    var status := HealthStatus(m, current.statusReplicas, replicaSet.availableReplicas,
      EndpointFound(m.spec.endpoint, outcome));
    c.(pc := Publishing(m, status, if status.state == Stable then Some(Evidence(current, replicaSet)) else None))
  }

  function Publish(c: Cluster, m: Mattermost, status: Status, evidence: Option<Evidence>, outcome: Outcome): Cluster {
    var (c', ok) := WriteStatus(c, m, status, outcome);
    if ok && evidence.Some? then c'.(evidence := evidence, pc := Idle)
    else if !ok && status.state == Stable then c'.(pc := Failing(m, status.(state := Reconciling)))
    else c'.(pc := Idle)
  }

  /** Best-effort write of a Reconciling status. */
  function Fail(c: Cluster, m: Mattermost, status: Status, outcome: Outcome): Cluster {
    WriteStatus(c, m, status, outcome).0.(pc := Idle)
  }

  /** The worker's next API call. */
  function CallStep(c: Cluster, outcome: Outcome): Cluster {
    match c.pc
    case Idle => Load(c)
    case Loaded(m) => MarkReconciling(c, m, outcome)
    case Defaulting(m) => SetDefaults(c, m, outcome)
    case CheckingDependencies(m) =>
      c.(pc := if outcome.Done? then EnsuringDeployment(m) else Failing(m, ReconcilingStatus(c.loaded, m)))
    case EnsuringDeployment(m) => EnsureDeployment(c, m, outcome)
    case GettingDeployment(m) => GetDeployment(c, m, outcome)
    case FetchingJob(m, current) => FetchJob(c, m, current, outcome)
    case LaunchingJob(m) => LaunchJob(c, m, outcome)
    case DeletingOldJob(m) => DeleteOldJob(c, m, outcome)
    case RelaunchingJob(m) => RelaunchJob(c, m, outcome)
    case Updating(m, current, gate) => UpdateDeployment(c, m, current, gate, outcome)
    case CleaningUp(m, updated) => CleanUp(c, m, updated, outcome)
    case CheckingRollout(m) => CheckRollout(c, m, outcome)
    case ListingReplicaSets(m, current) => ListReplicaSets(c, m, current, outcome)
    case CheckingEndpoint(m, current, replicaSet) => CheckEndpoint(c, m, current, replicaSet, outcome)
    case Publishing(m, status, evidence) => Publish(c, m, status, evidence, outcome)
    case Failing(m, status) => Fail(c, m, status, outcome)
  }

  // ---------- Moves of the environment ----------

  function Edit(c: Cluster, spec: Spec): Cluster {
    if spec == c.mattermost.spec then c
    else c.(mattermost := c.mattermost.(spec := spec,
                                        generation := c.mattermost.generation + 1,
                                        version := c.mattermost.version + 1))
  }

  function ProgressJob(c: Cluster, completed: bool, failed: nat): Cluster {
    if c.job.None? || c.job.value.completed || failed < c.job.value.failed then c
    else
      var job := c.job.value.(completed := completed, failed := failed);
      var image := MainImage(job.containers);
      c.(job := Some(job),
         finished := if completed && failed == 0 && image.Some? then c.finished + {Switch(image.value, job.uid)}
           else c.finished)
  }

  /** Position of the ReplicaSet of a template, or the number of ReplicaSets. */
  function IndexOfTemplate(sets: seq<ReplicaSet>, template: Template): (i: nat)
    ensures i <= |sets|
    ensures i < |sets| ==> sets[i].template == template
  {
    if sets == [] || sets[0].template == template then 0 else 1 + IndexOfTemplate(sets[1..], template)
  }

  /** The ReplicaSet of the template gets the next revision, and is created when missing. */
  function EnsureReplicaSet(c: Cluster, template: Template): seq<ReplicaSet> {
    var i := IndexOfTemplate(c.replicaSets, template);
    if i < |c.replicaSets| then c.replicaSets[i := c.replicaSets[i].(revision := Some(c.nextRevision))]
    else c.replicaSets + [ReplicaSet(template, Some(c.nextRevision), 0, 0)]
  }

  /** The ReplicaSet at `i` has a later revision than every other one. */
  predicate IsNewest(sets: seq<ReplicaSet>, i: nat)
    requires i < |sets|
  {
    && sets[i].revision.Some?
    && forall k :: 0 <= k < |sets| && k != i && sets[k].revision.Some? ==>
      sets[k].revision.value < sets[i].revision.value
  }

  /** The Deployment controller reads a Deployment, ensures its ReplicaSet, writes the revision
      annotation, and records the observed generation. Its writes need an up-to-date copy. A ReplicaSet
      that has the newest revision already keeps it. */
  function StepController(c: Cluster, succeeds: bool): Cluster {
    var current := c.deployment;
    match c.controller
    case Waiting => if current.Some? then c.(controller := Read(current.value)) else c
    case Read(copy) =>
      var i := IndexOfTemplate(c.replicaSets, copy.template);
      if !succeeds then c.(controller := Waiting)
      else if i < |c.replicaSets| && IsNewest(c.replicaSets, i) then
        c.(controller := Ensured(copy, c.replicaSets[i].revision.value))
      else c.(replicaSets := EnsureReplicaSet(c, copy.template),
              nextRevision := c.nextRevision + 1,
              controller := Ensured(copy, c.nextRevision))
    case Ensured(copy, revision) =>
      if succeeds && current.Some? && current.value.version == copy.version then
        var d := current.value.(revision := Some(revision), version := copy.version + 1);
        c.(deployment := Some(d), controller := Annotated(d))
      else c.(controller := Waiting)
    case Annotated(copy) =>
      if succeeds && current.Some? && current.value.version == copy.version then
        c.(deployment := Some(current.value.(observedGeneration := copy.generation, version := copy.version + 1)),
           controller := Waiting)
      else c.(controller := Waiting)
  }

  function Step(c: Cluster, e: Event): Cluster {
    match e
    case Call(outcome) => CallStep(c, outcome)
    case Crash => c.(pc := Idle, jobLeftBehind := c.jobLeftBehind || c.pc.CleaningUp?)
    case EditSpec(spec) => Edit(c, spec)
    case JobProgress(completed, failed) => ProgressJob(c, completed, failed)
    case JobRemoved => c.(job := None)
    case ForeignJob(containers) =>
      if c.job.Some? then c
      else c.(job := Some(Job(c.nextUid, containers, false, 0)), nextUid := c.nextUid + 1)
    case ControllerStep(succeeds) => StepController(c, succeeds)
    case ReplicaSetStatus(i, observed, available) =>
      if i < |c.replicaSets| then
        var updated := c.replicaSets[i].(observedGeneration := observed, availableReplicas := available);
        c.(replicaSets := c.replicaSets[i := updated])
      else c
    case ReplicaSetPruned(i) =>
      if i < |c.replicaSets| then c.(replicaSets := c.replicaSets[..i] + c.replicaSets[i + 1..]) else c
    case DeploymentStatus(replicas) =>
      if c.deployment.Some? then
        var d := c.deployment.value;
        c.(deployment := Some(d.(statusReplicas := replicas, version := d.version + 1)))
      else c
  }

  function Run(c: Cluster, events: seq<Event>): Cluster
    decreases |events|
  {
    if events == [] then c else Step(Run(c, events[..|events| - 1]), events[|events| - 1])
  }

  // ---------- One reconcile without interference ----------

  /** Bound on the calls left before the worker is idle. */
  function CallsLeft(pc: Pc): nat {
    match pc
    case Idle => 0
    case Failing(_, _) => 1
    case Publishing(_, _, _) => 2
    case CheckingEndpoint(_, _, _) => 3
    case ListingReplicaSets(_, _) => 4
    case CheckingRollout(_) => 5
    case CleaningUp(_, _) => 6
    case Updating(_, _, _) => 7
    case RelaunchingJob(_) => 7
    case LaunchingJob(_) => 7
    case DeletingOldJob(_) => 8
    case FetchingJob(_, _) => 9
    case GettingDeployment(_) => 10
    case EnsuringDeployment(_) => 11
    case CheckingDependencies(_) => 12
    case Defaulting(_) => 13
    case Loaded(_) => 14
  }

  lemma CallMakesProgress(c: Cluster, outcome: Outcome)
    requires !c.pc.Idle?
    ensures CallsLeft(CallStep(c, outcome).pc) < CallsLeft(c.pc)
  {
    hide DesiredTemplate, Defaulted, ImageName, MainImage, FindRollout, HealthStatus, Matches, Unhealthy,
      ReconcilingStatus, JobContainers, Replaced;
    match c.pc
    case Loaded(_) =>
    case Defaulting(_) =>
    case GettingDeployment(_) =>
    case FetchingJob(_, _) =>
    case Updating(_, _, _) =>
    case Publishing(_, _, _) =>
    case _ =>
  }

  /** The worker runs on until it is idle; `plan(n)` is the outcome of its n-th call. */
  function UntilIdle(c: Cluster, plan: nat -> Outcome, n: nat): Cluster
    decreases CallsLeft(c.pc)
  {
    if c.pc.Idle? then c
    else
      CallMakesProgress(c, plan(n));
      UntilIdle(CallStep(c, plan(n)), plan, n + 1)
  }

  function Reconcile(c: Cluster, plan: nat -> Outcome): Cluster
    requires c.pc.Idle?
  {
    UntilIdle(Load(c), plan, 0)
  }

  /** The Job, if it finished without a failed pod. */
  function FinishedJobs(job: Option<Job>): set<Switch> {
    if job.Some? && job.value.completed && job.value.failed == 0 && MainImage(job.value.containers).Some? then
      {Switch(MainImage(job.value.containers).value, job.value.uid)}
    else {}
  }

  /** A new Mattermost resource in a namespace that may hold a Deployment left by an earlier owner,
      with its ReplicaSets, and an update Job in any state. */
  predicate Init(c: Cluster) {
    && c.pc == Idle
    && c.controller == Waiting
    && c.mattermost.status == Status(Unset, 0, 0, 0, "", "")
    && c.mattermost.generation > 0
    && (c.job.Some? ==> c.job.value.uid < c.nextUid)
    && c.finished == FinishedJobs(c.job)
    && c.switches == []
    && !c.jobLeftBehind
    && c.evidence.None?
    && WellNumbered(c.replicaSets, c.deployment, c.nextRevision)
    && Traceable(c.replicaSets, c.deployment)
  }

  /** Revisions are numbers already handed out. */
  predicate WellNumbered(sets: seq<ReplicaSet>, deployment: Option<Deployment>, nextRevision: nat) {
    && (forall i :: 0 <= i < |sets| ==> sets[i].revision.Some? && sets[i].revision.value < nextRevision)
    && (deployment.Some? && deployment.value.revision.Some? ==> deployment.value.revision.value < nextRevision)
    && (deployment.Some? ==> deployment.value.observedGeneration <= deployment.value.generation)
  }

  /** ReplicaSets of the given revision run the given template. */
  predicate RevisionRuns(sets: seq<ReplicaSet>, revision: Option<nat>, template: Template) {
    forall i :: 0 <= i < |sets| && sets[i].revision == revision ==> sets[i].template == template
  }

  /** Once the generation is observed, the revision annotation leads to the Deployment's own template. */
  predicate Traceable(sets: seq<ReplicaSet>, deployment: Option<Deployment>) {
    deployment.Some? && deployment.value.observedGeneration == deployment.value.generation ==>
      RevisionRuns(sets, deployment.value.revision, deployment.value.template)
  }
}
