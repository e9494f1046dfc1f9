/** How the rollout machine's specs relate to the specs of the resource, and what the labels of the spec do
    to the rollout. */
module RolloutSpecs {
  import opened Kube
  import opened LabelMaps
  import opened Sizes
  import MattermostLabels
  import Rollout
  import V1beta1

  // ---------- Defaults ----------

  /** The rollout machine's view of a Mattermost spec. Extra labels, the switch of the update Job, sidecars, `pod`
      and `labels` are taken over as they are. */
  function View(name: string, mm: V1beta1.Spec, extraLabels: Labels, rest: Rollout.Spec): Rollout.Spec {
    rest.(
      image := mm.image,
      version := mm.version,
      size := mm.size,
      replicas := mm.replicas,
      refused := V1beta1.HostIsMissing(mm) || !V1beta1.VolumesAreAllowed(mm.volumes),
      endpoint :=
        if mm.useServiceLoadBalancer || V1beta1.IngressEnabled(mm)
          then Rollout.Endpoint(name, mm.resourceLabels, extraLabels)
        else Rollout.NoEndpoint)
  }

  /** The machine's defaults, and their error, are those of the resource. */
  lemma DefaultsAgree(name: string, mm: V1beta1.Spec, extraLabels: Labels, rest: Rollout.Spec)
    ensures V1beta1.Default(mm).None? <==> View(name, mm, extraLabels, rest).refused
    ensures V1beta1.Default(mm).Some? ==>
      View(name, V1beta1.Default(mm).value, extraLabels, rest) == Rollout.Defaulted(View(name, mm, extraLabels, rest))
  {
    hide V1beta1.StoreDefaults, V1beta1.DatabaseDefaults, V1beta1.StoreDefaultSized, V1beta1.DatabaseDefaultSized,
      GetClusterSize, OrElse, V1beta1.StoreOverridden, V1beta1.DatabaseOverridden, V1beta1.VolumesAreAllowed,
      DefaultSize;
  }

  // ---------- Labels and the endpoint ----------

  /** A load balancer or an Ingress leads to the installation, and an extra pod label is not among the labels
      of its object. */
  ghost predicate Unfindable(endpoint: Rollout.Endpoint) {
    && endpoint.Endpoint?
    && !MattermostLabels.AddsNothing(endpoint.name, OrEmpty(endpoint.resourceLabels), endpoint.extraLabels)
  }

  lemma UnfindableIff(endpoint: Rollout.Endpoint)
    ensures Unfindable(endpoint) <==> !Rollout.Serves(endpoint)
  {
    hide MattermostLabels.AddsNothing, MattermostLabels.Answer, Selects;
    if endpoint.Endpoint? {
      MattermostLabels.EndpointIsFoundIff(endpoint.name, endpoint.resourceLabels, endpoint.extraLabels);
    }
  }

  predicate NotServing(state: RunningState) {
    state == Unset || state == Reconciling
  }

  /** Neither the stored status nor one about to be written says Ready or Stable, and no spec can be served. */
  ghost predicate Withheld(c: Rollout.Cluster) {
    && NotServing(c.mattermost.status.state)
    && !Rollout.Serves(c.mattermost.spec.endpoint)
    && (!c.pc.Idle? ==> !Rollout.Serves(c.pc.m.spec.endpoint))
    && (c.pc.Publishing? ==> NotServing(c.pc.status.state))
    && (c.pc.Failing? ==> NotServing(c.pc.status.state))
  }

  lemma WithoutEndpoint(m: Rollout.Mattermost, replicas: int, available: int)
    ensures Rollout.HealthStatus(m, replicas, available, false).state == Reconciling
  {
  }

  lemma StatusCallWithholds(c: Rollout.Cluster, outcome: Rollout.Outcome)
    requires Withheld(c) && (c.pc.Publishing? || c.pc.Failing? || c.pc.Loaded?)
    ensures Withheld(Rollout.CallStep(c, outcome))
  {
    hide Rollout.Serves;
    match c.pc
    case Publishing(_, _, _) =>
    case Failing(_, _) =>
    case Loaded(_) =>
  }

  lemma CallWithholds(c: Rollout.Cluster, outcome: Rollout.Outcome)
    requires Withheld(c)
    ensures Withheld(Rollout.CallStep(c, outcome))
  {
    hide Rollout.DesiredTemplate, Rollout.ImageName, MainImage, Rollout.FindRollout, Rollout.Matches, Rollout.Replaced,
      Rollout.Serves, GetClusterSize, OrElse, Rollout.HealthStatus, Rollout.WriteStatus, Rollout.NewDeployment,
      Rollout.NewJob;
    match c.pc
    case Publishing(_, _, _) => StatusCallWithholds(c, outcome);
    case Failing(_, _) => StatusCallWithholds(c, outcome);
    case Loaded(_) => StatusCallWithholds(c, outcome);
    case CheckingEndpoint(m, current, replicaSet) =>
      WithoutEndpoint(m, current.statusReplicas, replicaSet.availableReplicas);
    case _ =>
  }

  lemma StepWithholds(c: Rollout.Cluster, e: Rollout.Event)
    requires Withheld(c)
    requires e.EditSpec? ==> !Rollout.Serves(e.spec.endpoint)
    ensures Withheld(Rollout.Step(c, e))
  {
    hide Rollout.CallStep, Rollout.EnsureReplicaSet, Rollout.IndexOfTemplate, Rollout.IsNewest, Rollout.Serves,
      MainImage;
    if e.Call? {
      CallWithholds(c, e.outcome);
    }
  }

  /** As long as the specs have an extra pod label that the resource labels do not have, no run of a new resource
      ever reports Ready or Stable: the health check finds neither Service nor Ingress. */
  lemma {:induction false} ExtraLabelsWithholdReady(start: Rollout.Cluster, events: seq<Rollout.Event>)
    requires Rollout.Init(start) && Unfindable(start.mattermost.spec.endpoint)
    requires forall e :: e in events && e.EditSpec? ==> Unfindable(e.spec.endpoint)
    ensures NotServing(Rollout.Run(start, events).mattermost.status.state)
  {
    RunWithholds(start, events);
  }

  lemma {:induction false} RunWithholds(start: Rollout.Cluster, events: seq<Rollout.Event>)
    requires Rollout.Init(start) && Unfindable(start.mattermost.spec.endpoint)
    requires forall e :: e in events && e.EditSpec? ==> Unfindable(e.spec.endpoint)
    ensures Withheld(Rollout.Run(start, events))
  {
    UnfindableIff(start.mattermost.spec.endpoint);
    hide Rollout.Step, Rollout.Serves, Unfindable;
    if events != [] {
      var front, last := events[..|events| - 1], events[|events| - 1];
      RunWithholds(start, front);
      if last.EditSpec? {
        UnfindableIff(last.spec.endpoint);
      }
      StepWithholds(Rollout.Run(start, front), last);
    }
  }
}
