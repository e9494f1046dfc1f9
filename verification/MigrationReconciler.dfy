/** The migration as the controller runs it, step by step, proved to be the state machine of Migration
    for every outcome of its calls and every move of the world between them. */
module MigrationReconciler {
  import opened Kube
  import opened LabelMaps
  import opened Conversion
  import opened Migration
  import V1alpha1
  import V1beta1

  // ---------- Health of pods ----------

  lemma {:induction false} FirstReadyDecides(conditions: seq<Condition>, i: nat)
    requires i <= |conditions|
    requires forall k :: 0 <= k < i ==> !conditions[k].kind.PodReady?
    ensures i == |conditions| ==> !IsReady(conditions)
    ensures i < |conditions| && conditions[i].kind.PodReady? ==> (IsReady(conditions) <==> conditions[i].holds)
  {
    if i > 0 {
      FirstReadyDecides(conditions[1..], i - 1);
    }
  }

  method IsPodReady(p: Pod) returns (ready: bool)
    ensures ready <==> IsReady(p.conditions)
  {
    for i := 0 to |p.conditions|
      invariant forall k :: 0 <= k < i ==> !p.conditions[k].kind.PodReady?
    {
      FirstReadyDecides(p.conditions, i);
      if p.conditions[i].kind.PodReady? {
        return p.conditions[i].holds;
      }
    }
    FirstReadyDecides(p.conditions, |p.conditions|);
    return false;
  }

  /** The pods that a list by labels returns. */
  function Listed(pods: seq<Pod>, labels: Labels): seq<Pod> {
    if pods == [] then []
    else
      Listed(pods[..|pods| - 1], labels)
        + if Selects(labels, pods[|pods| - 1].labels) then [pods[|pods| - 1]] else []
  }

  /** Counting over the listed pods is counting the selected ones. */
  lemma {:induction false} ListedPodsCount(pods: seq<Pod>, labels: Labels, image: string)
    ensures CountUpdated(Listed(pods, labels), labels, image) == CountUpdated(pods, labels, image)
    ensures forall p :: p in Listed(pods, labels) ==> Selects(labels, p.labels)
  {
    hide UpdatedPod, Selects;
    if pods != [] {
      var front, last := pods[..|pods| - 1], pods[|pods| - 1];
      ListedPodsCount(front, labels, image);
      assert !Selects(labels, last.labels) ==> !UpdatedPod(last, labels, image) by {
        UnselectedIsNotUpdated(last, labels, image);
      }
      if Selects(labels, last.labels) {
        assert (Listed(front, labels) + [last])[..|Listed(front, labels)|] == Listed(front, labels);
      } else {
        assert Listed(pods, labels) == Listed(front, labels);
      }
    }
  }

  lemma UnselectedIsNotUpdated(p: Pod, labels: Labels, image: string)
    ensures !Selects(labels, p.labels) ==> !UpdatedPod(p, labels, image)
  {}

  /** CheckPodsRollOut: how many pods a list by labels returns, and how many of them run the image and are ready. */
  method CheckPodsRollOut(pods: seq<Pod>, labels: Labels, desiredImage: string)
    returns (replicas: nat, updatedReplicas: nat)
    ensures replicas == |Listed(pods, labels)|
    ensures updatedReplicas == CountUpdated(pods, labels, desiredImage)
  {
    var items := Listed(pods, labels);
    replicas := |items|;
    updatedReplicas := 0;
    ListedPodsCount(pods, labels, desiredImage);
    hide Selects, IsReady;
    for i := 0 to |items|
      invariant updatedReplicas == CountUpdated(items[..i], labels, desiredImage)
    {
      assert items[..i + 1][..i] == items[..i];
      var pod := items[i];
      assert pod in items;
      if !pod.running || pod.deleting {
        continue;
      }
      var container := GetContainerByName(pod.containers, MATTERMOST_APP_CONTAINER);
      if container.None? {
        continue;
      }
      if container.value.image != desiredImage {
        continue;
      }
      var ready := IsPodReady(pod);
      if !ready {
        continue;
      }
      updatedReplicas := updatedReplicas + 1;
    }
    assert items[..|items|] == items;
  }

  // ---------- The controller ----------

  class ClusterInstallationReconciler {
    const name: string
    const plan: Plan
    var world: World
    /** Number of calls made so far. */
    var calls: nat

    constructor (name: string, plan: Plan, world: World)
      ensures this.name == name && this.plan == plan && this.world == world && calls == 0
    {
      this.name, this.plan, this.world, calls := name, plan, world, 0;
    }

    /** The state machine run to its end from where this reconcile stands. */
    ghost function Rest(pc: Pc): Cluster
      reads this
    {
      UntilIdle(Cluster(name, world, pc), plan, calls)
    }

    /** The world moves, then the next call is made. */
    method Call() returns (ok: bool)
      modifies this
      ensures calls == old(calls) + 1 && ok == plan.ok(old(calls)) && world == plan.moves(old(calls), old(world))
    {
      ok := plan.ok(calls);
      world := plan.moves(calls, world);
      calls := calls + 1;
    }

    method WaitForDeploymentDeletion(ci: V1alpha1.Spec, mm: V1beta1.Spec, replaced: Deployment, polls: nat)
      returns (gone: bool)
      modifies this
      ensures Rest(if gone then CreatingNew(ci, mm, replaced) else Idle) ==
        old(Rest(AwaitingDeletion(ci, mm, replaced, polls)))
    {
      hide Convert, WantedLabels, Labelled, Relabelled, PodsAreReady;
      var left := polls;
      while true
        invariant Rest(AwaitingDeletion(ci, mm, replaced, left)) == old(Rest(AwaitingDeletion(ci, mm, replaced, polls)))
        decreases left
      {
        var ok := Call();
        if ok && name !in world.deployments {
          return true;
        }
        if left == 0 {
          return false;
        }
        left := left - 1;
      }
    }

    method RecreateDeployment(ci: V1alpha1.Spec, mm: V1beta1.Spec) returns (done: bool)
      modifies this
      ensures Rest(if done then CheckingDeployment(ci, mm) else Idle) == old(Rest(GettingOld(ci, mm)))
    {
      hide Convert, Labelled, PodsAreReady, Relabelled;
      var ok := Call();
      if !ok || name !in world.deployments {
        return false;
      }
      var replaced := world.deployments[name];
      assert Rest(DeletingOld(ci, mm, replaced)) == old(Rest(GettingOld(ci, mm)));
      ok := Call();
      if !ok || name !in world.deployments {
        return false;
      }
      world := world.(deployments := world.deployments[name := world.deployments[name].(deleting := true)]);
      assert Rest(AwaitingDeletion(ci, mm, replaced, plan.polls(calls - 1))) == old(Rest(GettingOld(ci, mm)));
      var gone := WaitForDeploymentDeletion(ci, mm, replaced, plan.polls(calls - 1));
      if !gone {
        return false;
      }
      ok := Call();
      if !ok || name in world.deployments {
        return false;
      }
      world := world.(deployments := world.deployments[name := Relabelled(name, mm, replaced)]);
      return true;
    }

    /** Counts the Deployments with the wanted labels; asking for the labels fills them into the spec. */
    method IsDeploymentMigrated(ci: V1alpha1.Spec, mm: V1beta1.Spec)
      returns (migrated: Option<bool>, labelled: V1beta1.Spec)
      modifies this
      ensures labelled == Labelled(name, mm)
      ensures Rest(
          if migrated.None? then Idle
          else if migrated.value then CheckingDeployment(ci, labelled)
          else GettingOld(ci, labelled))
        == old(Rest(ListingMigrated(ci, mm)))
    {
      hide Convert, Labelled, WantedLabels, PodsAreReady, Relabelled;
      labelled := Labelled(name, mm);
      var ok := Call();
      if !ok {
        return None, labelled;
      }
      return Some(|Matching(world.deployments, WantedLabels(name, mm))| == 1), labelled;
    }

    method IsDeploymentReady(ci: V1alpha1.Spec, mm: V1beta1.Spec) returns (ready: Option<bool>)
      modifies this
      ensures Rest(if ready == Some(true) then CreatingMattermost(ci, mm) else Idle) ==
        old(Rest(CheckingDeployment(ci, mm)))
    {
      hide Convert, Labelled, WantedLabels, Relabelled, Matching, CountUpdated;
      var ok := Call();
      if !ok || name !in Matching(world.deployments, WantedLabels(name, mm)) {
        return None;
      }
      assert Rest(CheckingPods(ci, mm)) == old(Rest(CheckingDeployment(ci, mm)));
      ok := Call();
      if !ok {
        return None;
      }
      var _, updated := CheckPodsRollOut(world.pods, WantedLabels(name, mm), ImageReference(mm.image, mm.version));
      var replicas := 1;
      if mm.replicas.Some? {
        replicas := mm.replicas.value;
      }
      return Some(replicas == updated);
    }

    /** Every path ends the reconcile: a created resource is not Stable yet. */
    method InitializeMigration(ci: V1alpha1.Spec)
      modifies this
      ensures Rest(Idle) == old(Rest(Converting(ci)))
    {
      hide Convert, Labelled, WantedLabels, Relabelled, Matching, PodsAreReady;
      var ok := Call();
      var converted := Convert(ci, world.secrets);
      if !ok || converted.None? {
        return;
      }
      assert Rest(ListingMigrated(ci, converted.value)) == old(Rest(Converting(ci)));
      var migrated, mm := IsDeploymentMigrated(ci, converted.value);
      if migrated.None? {
        return;
      }
      if !migrated.value {
        var done := RecreateDeployment(ci, mm);
        if !done {
          return;
        }
      }
      var ready := IsDeploymentReady(ci, mm);
      if ready != Some(true) {
        return;
      }
      ok := Call();
      if ok && world.mattermost.None? {
        world := world.(mattermost := Some(Mattermost(mm, Unset)));
      }
    }

    method CleanupReplicaSets(ci: V1alpha1.Spec) returns (done: bool)
      modifies this
      ensures Rest(if done then DeletingInstallation(ci) else Idle) == old(Rest(ListingReplicaSets(ci)))
    {
      hide Convert, Labelled, WantedLabels, Relabelled, Matching, PodsAreReady, Selected, WithoutReplicaSet,
        HasReplicaSet, CleanupLabels, Load, ReadMattermost, ConvertSpec, ListMigrated, GetOld, DeleteOld, AwaitDeletion,
        CreateNew, CheckDeployment, CheckPods, CreateMattermost;
      var ok := Call();
      if !ok {
        return false;
      }
      var items := Selected(world.replicaSets, CleanupLabels(name, ci));
      for i := 0 to |items|
        invariant Rest(AfterReplicaSets(ci, items[i..])) == old(Rest(ListingReplicaSets(ci)))
      {
        assert items[i..][1..] == items[i + 1..];
        ok := Call();
        if !ok || !HasReplicaSet(world.replicaSets, items[i]) {
          return false;
        }
        world := world.(replicaSets := WithoutReplicaSet(world.replicaSets, items[i]));
      }
      return true;
    }

    method HandleMigration(ci: V1alpha1.Spec)
      modifies this
      ensures !V1alpha1.Convertible(ci) ==> world == old(world) && calls == old(calls)
      ensures V1alpha1.Convertible(ci) ==> Rest(Idle) == old(Rest(ReadingMattermost(ci)))
    {
      if !V1alpha1.Convertible(ci) {
        return;
      }
      hide Convert, Labelled, WantedLabels, Relabelled, Matching, PodsAreReady, Selected, CleanupLabels;
      var ok := Call();
      if !ok {
        return;
      }
      if world.mattermost.None? {
        assert Rest(Converting(ci)) == old(Rest(ReadingMattermost(ci)));
        InitializeMigration(ci);
        return;
      }
      if world.mattermost.value.state != Stable {
        return;
      }
      assert Rest(ListingReplicaSets(ci)) == old(Rest(ReadingMattermost(ci)));
      var done := CleanupReplicaSets(ci);
      if !done {
        return;
      }
      ok := Call();
      if ok {
        world := world.(installation := None);
      }
    }
  }

  /** What one reconcile of the controller does is a run of the machine, so all that holds of every run
      holds of it. */
  lemma {:induction false} ReconcileIsARun(c: Cluster, plan: Plan, n: nat) returns (events: seq<Event>)
    ensures Run(c, events) == UntilIdle(c, plan, n)
    decreases Stage(c.pc), Repeats(c.pc)
  {
    hide CallStep;
    if c.pc.Idle? {
      events := [];
    } else {
      var moved := c.(world := plan.moves(n, c.world));
      CallMakesProgress(moved, plan.ok(n), plan.polls(n));
      var rest := ReconcileIsARun(Act(c, plan, n), plan, n + 1);
      var first := [Move(moved.world), Call(plan.ok(n), plan.polls(n))];
      events := first + rest;
      RunJoins(c, first, rest);
      assert first[..1] == [Move(moved.world)] && [Move(moved.world)][..0] == [];
      assert Run(c, [Move(moved.world)]) == moved;
    }
  }

  lemma {:induction false} RunJoins(c: Cluster, first: seq<Event>, rest: seq<Event>)
    ensures Run(c, first + rest) == Run(Run(c, first), rest)
  {
    hide Step;
    if rest == [] {
      assert first + rest == first;
    } else {
      RunJoins(c, first, rest[..|rest| - 1]);
      assert (first + rest)[..|first + rest| - 1] == first + rest[..|rest| - 1];
    }
  }
}
