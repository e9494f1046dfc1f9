/** The migration of a ClusterInstallation to a Mattermost resource, as a state machine over
    single API calls of repeated reconciles.

    Between two calls the world may change in every way: users, the garbage collector, pods and the
    controllers of other resources are one arbitrary move. */
module Migration {
  import opened Kube
  import opened LabelMaps
  import opened Conversion
  import V1alpha1
  import V1beta1

  // ---------- Objects ----------

  datatype Mattermost = Mattermost(spec: V1beta1.Spec, state: RunningState)

  /** `image` is that of the main container, and `template` stands for the rest of the pod template without
      its labels. */
  datatype Deployment = Deployment(
    labels: Labels,
    selector: Labels,
    podLabels: Labels,
    replicas: Option<int>,
    image: string,
    template: string,
    deleting: bool)

  datatype ReplicaSet = ReplicaSet(uid: nat, labels: Labels)

  datatype ConditionType = PodReady | OtherCondition

  datatype Condition = Condition(kind: ConditionType, holds: bool)

  datatype Pod = Pod(labels: Labels, running: bool, deleting: bool, containers: seq<Container>,
      conditions: seq<Condition>)

  datatype World = World(
    installation: Option<V1alpha1.Spec>,
    secrets: Secrets,
    mattermost: Option<Mattermost>,
    deployments: map<string, Deployment>,
    replicaSets: seq<ReplicaSet>,
    pods: seq<Pod>)

  // ---------- Reads ----------

  function WantedLabels(name: string, mm: V1beta1.Spec): Labels {
    NewLabels(name, OrEmpty(mm.resourceLabels))
  }

  /** MattermostLabels fills the default labels into the map of the spec, when there is one. */
  function Labelled(name: string, mm: V1beta1.Spec): V1beta1.Spec {
    if mm.resourceLabels.None? then mm else mm.(resourceLabels := Some(WantedLabels(name, mm)))
  }

  /** Names of the Deployments that a list by labels returns. */
  function Matching(deployments: map<string, Deployment>, labels: Labels): set<string> {
    set n | n in deployments && Selects(labels, deployments[n].labels)
  }

  /** The first PodReady condition decides. */
  predicate IsReady(conditions: seq<Condition>) {
    conditions != [] &&
    if conditions[0].kind.PodReady? then conditions[0].holds else IsReady(conditions[1..])
  }

  /** A selected pod that runs the image and is neither terminating nor unready. */
  predicate UpdatedPod(p: Pod, labels: Labels, image: string) {
    && Selects(labels, p.labels)
    && p.running && !p.deleting
    && MainImage(p.containers) == Some(image)
    && IsReady(p.conditions)
  }

  function CountUpdated(pods: seq<Pod>, labels: Labels, image: string): nat {
    if pods == [] then 0
    else CountUpdated(pods[..|pods| - 1], labels, image) + if UpdatedPod(pods[|pods| - 1], labels, image) then 1 else 0
  }

  predicate PodsAreReady(pods: seq<Pod>, name: string, mm: V1beta1.Spec) {
    CountUpdated(pods, WantedLabels(name, mm), ImageReference(mm.image, mm.version)) == WantedPods(mm)
  }

  function Selected(sets: seq<ReplicaSet>, labels: Labels): seq<nat> {
    if sets == [] then []
    else
      Selected(sets[..|sets| - 1], labels)
        + if Selects(labels, sets[|sets| - 1].labels) then [sets[|sets| - 1].uid] else []
  }

  /** recreateDeployment: the old spec under the new labels and the new selector. */
  function Relabelled(name: string, mm: V1beta1.Spec, replaced: Deployment): Deployment {
    Deployment(
      WantedLabels(name, mm), SelectorLabels(name), WantedLabels(name, mm), replaced.replicas, replaced.image,
        replaced.template, false)
  }

  // ---------- The machine ----------

  /** Where the worker is between two calls, with the copies it holds. */
  datatype Pc =
    | Idle
    | ReadingMattermost(ci: V1alpha1.Spec)
    | Converting(ci: V1alpha1.Spec)
    | ListingMigrated(ci: V1alpha1.Spec, mm: V1beta1.Spec)
    | GettingOld(ci: V1alpha1.Spec, mm: V1beta1.Spec)
    | DeletingOld(ci: V1alpha1.Spec, mm: V1beta1.Spec, replaced: Deployment)
    | AwaitingDeletion(ci: V1alpha1.Spec, mm: V1beta1.Spec, replaced: Deployment, polls: nat)
    | CreatingNew(ci: V1alpha1.Spec, mm: V1beta1.Spec, replaced: Deployment)
    | CheckingDeployment(ci: V1alpha1.Spec, mm: V1beta1.Spec)
    | CheckingPods(ci: V1alpha1.Spec, mm: V1beta1.Spec)
    | CreatingMattermost(ci: V1alpha1.Spec, mm: V1beta1.Spec)
    | ListingReplicaSets(ci: V1alpha1.Spec)
    | DeletingReplicaSets(ci: V1alpha1.Spec, todo: seq<nat>)
    | DeletingInstallation(ci: V1alpha1.Spec)

  datatype Cluster = Cluster(name: string, world: World, pc: Pc)

  /** `polls` is how often the worker looks for the deleted Deployment before it gives up. */
  datatype Event =
    | Call(ok: bool, polls: nat)
    | Crash
    | Move(world: World)

  predicate Migrates(ci: V1alpha1.Spec) {
    ci.migrate && V1alpha1.Convertible(ci)
  }

  /** Reads the ClusterInstallation; a migration is tried when it is asked for and possible. */
  function Load(c: Cluster): Cluster {
    if c.world.installation.Some? && Migrates(c.world.installation.value) then
      c.(pc := ReadingMattermost(c.world.installation.value))
    else c
  }

  function ReadMattermost(c: Cluster, ci: V1alpha1.Spec): Cluster {
    c.(pc :=
      if c.world.mattermost.None? then Converting(ci)
      else if c.world.mattermost.value.state == Stable then ListingReplicaSets(ci)
      else Idle)
  }

  function ConvertSpec(c: Cluster, ci: V1alpha1.Spec): Cluster {
    var mm := Convert(ci, c.world.secrets);
    c.(pc := if mm.None? then Idle else ListingMigrated(ci, mm.value))
  }

  /** isDeploymentMigrated counts the Deployments with the wanted labels. */
  function ListMigrated(c: Cluster, ci: V1alpha1.Spec, mm: V1beta1.Spec): Cluster {
    var labelled := Labelled(c.name, mm);
    c.(pc := if |Matching(c.world.deployments, WantedLabels(c.name, mm))| == 1 then CheckingDeployment(ci, labelled)
      else GettingOld(ci, labelled))
  }

  function GetOld(c: Cluster, ci: V1alpha1.Spec, mm: V1beta1.Spec): Cluster {
    c.(pc := if c.name in c.world.deployments then DeletingOld(ci, mm, c.world.deployments[c.name]) else Idle)
  }

  /** Deleting with orphan propagation marks the Deployment; it is gone when its finalizer is. */
  function DeleteOld(c: Cluster, ci: V1alpha1.Spec, mm: V1beta1.Spec, replaced: Deployment, polls: nat): Cluster {
    if c.name in c.world.deployments then
      var marked := c.world.deployments[c.name].(deleting := true);
      c.(world := c.world.(deployments := c.world.deployments[c.name := marked]),
        pc := AwaitingDeletion(ci, mm, replaced, polls))
    else c.(pc := Idle)
  }

  /** One poll of waitForDeploymentDeletion; a failed read is only logged. */
  function AwaitDeletion(c: Cluster, ci: V1alpha1.Spec, mm: V1beta1.Spec, replaced: Deployment, polls: nat,
      ok: bool): Cluster {
    c.(pc :=
      if ok && c.name !in c.world.deployments then CreatingNew(ci, mm, replaced)
      else if polls == 0 then Idle
      else AwaitingDeletion(ci, mm, replaced, polls - 1))
  }

  function CreateNew(c: Cluster, ci: V1alpha1.Spec, mm: V1beta1.Spec, replaced: Deployment): Cluster {
    if c.name in c.world.deployments then c.(pc := Idle)
    else
      c.(world := c.world.(deployments := c.world.deployments[c.name := Relabelled(c.name, mm, replaced)]),
        pc := CheckingDeployment(ci, mm))
  }

  /** isDeploymentReady: the Deployment is among the listed ones, then its pods are counted. */
  function CheckDeployment(c: Cluster, ci: V1alpha1.Spec, mm: V1beta1.Spec): Cluster {
    c.(pc := if c.name in Matching(c.world.deployments, WantedLabels(c.name, mm)) then CheckingPods(ci, mm) else Idle)
  }

  function CheckPods(c: Cluster, ci: V1alpha1.Spec, mm: V1beta1.Spec): Cluster {
    c.(pc := if PodsAreReady(c.world.pods, c.name, mm) then CreatingMattermost(ci, mm) else Idle)
  }

  /** The reconcile ends here: the resource that it had read does not exist, so it is not Stable. */
  function CreateMattermost(c: Cluster, mm: V1beta1.Spec): Cluster {
    if c.world.mattermost.Some? then c.(pc := Idle)
    else c.(world := c.world.(mattermost := Some(Mattermost(mm, Unset))), pc := Idle)
  }

  /** ClusterInstallationLabels of an installation without BlueGreen */
  function CleanupLabels(name: string, ci: V1alpha1.Spec): Labels {
    OldLabels(name, OrEmpty(ci.resourceLabels))
  }

  function ListReplicaSets(c: Cluster, ci: V1alpha1.Spec): Cluster {
    c.(pc := AfterReplicaSets(ci, Selected(c.world.replicaSets, CleanupLabels(c.name, ci))))
  }

  function AfterReplicaSets(ci: V1alpha1.Spec, todo: seq<nat>): Pc {
    if todo == [] then DeletingInstallation(ci) else DeletingReplicaSets(ci, todo)
  }

  predicate HasReplicaSet(sets: seq<ReplicaSet>, uid: nat) {
    exists i :: 0 <= i < |sets| && sets[i].uid == uid
  }

  function WithoutReplicaSet(sets: seq<ReplicaSet>, uid: nat): seq<ReplicaSet> {
    if sets == [] then []
    else WithoutReplicaSet(sets[..|sets| - 1], uid) + if sets[|sets| - 1].uid == uid then [] else [sets[|sets| - 1]]
  }

  function DeleteReplicaSet(c: Cluster, ci: V1alpha1.Spec, todo: seq<nat>): Cluster
    requires todo != []
  {
    if !HasReplicaSet(c.world.replicaSets, todo[0]) then c.(pc := Idle)
    else c.(world := c.world.(replicaSets := WithoutReplicaSet(c.world.replicaSets, todo[0])),
      pc := AfterReplicaSets(ci, todo[1..]))
  }

  function DeleteInstallation(c: Cluster): Cluster {
    c.(world := c.world.(installation := None), pc := Idle)
  }

  /** The worker's next call. A failed call ends the reconcile, except while polling. */
  function CallStep(c: Cluster, ok: bool, polls: nat): Cluster {
    if c.pc.AwaitingDeletion? then AwaitDeletion(c, c.pc.ci, c.pc.mm, c.pc.replaced, c.pc.polls, ok)
    else if !ok then c.(pc := Idle)
    else
      match c.pc
      case Idle => Load(c)
      case ReadingMattermost(ci) => ReadMattermost(c, ci)
      case Converting(ci) => ConvertSpec(c, ci)
      case ListingMigrated(ci, mm) => ListMigrated(c, ci, mm)
      case GettingOld(ci, mm) => GetOld(c, ci, mm)
      case DeletingOld(ci, mm, replaced) => DeleteOld(c, ci, mm, replaced, polls)
      case CreatingNew(ci, mm, replaced) => CreateNew(c, ci, mm, replaced)
      case CheckingDeployment(ci, mm) => CheckDeployment(c, ci, mm)
      case CheckingPods(ci, mm) => CheckPods(c, ci, mm)
      case CreatingMattermost(_, mm) => CreateMattermost(c, mm)
      case ListingReplicaSets(ci) => ListReplicaSets(c, ci)
      case DeletingReplicaSets(ci, todo) => if todo == [] then c.(pc := DeletingInstallation(ci))
        else DeleteReplicaSet(c, ci, todo)
      case DeletingInstallation(_) => DeleteInstallation(c)
  }

  function Step(c: Cluster, e: Event): Cluster {
    match e
    case Call(ok, polls) => CallStep(c, ok, polls)
    case Crash => c.(pc := Idle)
    case Move(world) => c.(world := world)
  }

  function Run(c: Cluster, events: seq<Event>): Cluster {
    if events == [] then c else Step(Run(c, events[..|events| - 1]), events[|events| - 1])
  }

  // ---------- One reconcile ----------

  /** What surrounds the n-th call: how the world moves before it, whether it succeeds, and the patience
      of a wait that it starts. */
  datatype Plan = Plan(moves: (nat, World) -> World, ok: nat -> bool, polls: nat -> nat)

  function Act(c: Cluster, plan: Plan, n: nat): Cluster {
    CallStep(c.(world := plan.moves(n, c.world)), plan.ok(n), plan.polls(n))
  }

  function Stage(pc: Pc): nat {
    match pc
    case Idle => 0
    case DeletingInstallation(_) => 1
    case DeletingReplicaSets(_, _) => 2
    case ListingReplicaSets(_) => 3
    case CreatingMattermost(_, _) => 4
    case CheckingPods(_, _) => 5
    case CheckingDeployment(_, _) => 6
    case CreatingNew(_, _, _) => 7
    case AwaitingDeletion(_, _, _, _) => 8
    case DeletingOld(_, _, _) => 9
    case GettingOld(_, _) => 10
    case ListingMigrated(_, _) => 11
    case Converting(_) => 12
    case ReadingMattermost(_) => 13
  }

  function Repeats(pc: Pc): nat {
    if pc.AwaitingDeletion? then pc.polls else if pc.DeletingReplicaSets? then |pc.todo| else 0
  }

  lemma CallMakesProgress(c: Cluster, ok: bool, polls: nat)
    requires !c.pc.Idle?
    ensures var next := CallStep(c, ok, polls).pc;
      Stage(next) < Stage(c.pc) || (Stage(next) == Stage(c.pc) && Repeats(next) < Repeats(c.pc))
  {
    hide Labelled, WantedLabels, Convert, PodsAreReady, Matching, Selected, WithoutReplicaSet, HasReplicaSet,
      CleanupLabels, Relabelled;
    match c.pc
    case AwaitingDeletion(_, _, _, _) =>
    case DeletingReplicaSets(_, _) =>
    case _ =>
  }

  /** The worker runs on until it is idle. */
  function UntilIdle(c: Cluster, plan: Plan, n: nat): Cluster
    decreases Stage(c.pc), Repeats(c.pc)
  {
    if c.pc.Idle? then c
    else
      CallMakesProgress(c.(world := plan.moves(n, c.world)), plan.ok(n), plan.polls(n));
      UntilIdle(Act(c, plan, n), plan, n + 1)
  }
}
