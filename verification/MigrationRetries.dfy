/** Retries of the migration: when a Deployment is replaced again, what is lost when a run stops between
    the delete and the create, and what the later controllers find. */
module MigrationRetries {
  import opened Kube
  import opened LabelMaps
  import opened Conversion
  import opened Migration
  import opened MigrationSafety
  import opened Sets
  import MattermostLabels
  import V1alpha1
  import V1beta1

  // ---------- An undisturbed attempt ----------

  /** The next `n` calls succeed and nothing else happens. */
  function Undisturbed(c: Cluster, n: nat, polls: nat): Cluster {
    if n == 0 then c else CallStep(Undisturbed(c, n - 1, polls), true, polls)
  }

  /** A migration of this installation starts over. */
  ghost predicate StartsOver(c: Cluster, ci: V1alpha1.Spec, mm: V1beta1.Spec) {
    && c.pc.Idle?
    && c.world.installation == Some(ci) && Migrates(ci)
    && c.world.mattermost.None?
    && Convert(ci, c.world.secrets) == Some(mm)
  }

  lemma FourCalls(c: Cluster, ci: V1alpha1.Spec, mm: V1beta1.Spec, polls: nat)
    requires StartsOver(c, ci, mm)
    ensures Undisturbed(c, 4, polls) == ListMigrated(c.(pc := ListingMigrated(ci, mm)), ci, mm)
  {
    hide Convert, ListMigrated;
    assert Undisturbed(c, 1, polls) == c.(pc := ReadingMattermost(ci));
    assert Undisturbed(c, 2, polls) == c.(pc := Converting(ci));
    assert Undisturbed(c, 3, polls) == c.(pc := ListingMigrated(ci, mm));
  }

  /** A retry deletes the installation's Deployment exactly when the number of Deployments with the wanted
      labels is not one. */
  lemma RetryReplacesIff(c: Cluster, ci: V1alpha1.Spec, mm: V1beta1.Spec, polls: nat)
    requires StartsOver(c, ci, mm)
    requires c.name in c.world.deployments && !c.world.deployments[c.name].deleting
    ensures var after := Undisturbed(c, 6, polls).world.deployments;
      && (|Matching(c.world.deployments, WantedLabels(c.name, mm))| == 1 ==> after == c.world.deployments)
      && (|Matching(c.world.deployments, WantedLabels(c.name, mm))| != 1 ==>
          after == c.world.deployments[c.name := c.world.deployments[c.name].(deleting := true)])
  {
    FourCalls(c, ci, mm, polls);
    var c4 := Undisturbed(c, 4, polls);
    var c5 := Undisturbed(c, 5, polls);
    assert Undisturbed(c, 6, polls) == CallStep(c5, true, polls);
    assert c5 == CallStep(c4, true, polls);
    hide Convert, Matching, WantedLabels, Labelled, PodsAreReady, Relabelled;
  }

  /** So a Deployment that carries the wanted labels is replaced once more exactly when another Deployment
      carries them, too. */
  lemma RelabelledIsReplacedIff(c: Cluster, ci: V1alpha1.Spec, mm: V1beta1.Spec, polls: nat)
    requires StartsOver(c, ci, mm)
    requires c.name in Matching(c.world.deployments, WantedLabels(c.name, mm)) && !c.world.deployments[c.name].deleting
    ensures Undisturbed(c, 6, polls).world.deployments != c.world.deployments <==>
      exists other :: other != c.name && other in Matching(c.world.deployments, WantedLabels(c.name, mm))
  {
    RetryReplacesIff(c, ci, mm, polls);
    hide Undisturbed, WantedLabels, Convert;
    var matching := Matching(c.world.deployments, WantedLabels(c.name, mm));
    var marked := c.world.deployments[c.name].(deleting := true);
    assert c.world.deployments[c.name := marked][c.name] != c.world.deployments[c.name];
    if other :| other != c.name && other in matching {
      assert {c.name, other} <= matching;
      CardinalityOfSubset({c.name, other}, matching);
    } else {
      assert matching == {c.name};
    }
  }

  /** When the delete is followed by its deletion and nothing goes wrong, the Deployment comes back with
      the wanted labels, and the attempt goes on to check it. */
  lemma ReplacementCompletes(c: Cluster, ci: V1alpha1.Spec, mm: V1beta1.Spec, replaced: Deployment, world: World,
      polls: nat)
    requires c.pc == AwaitingDeletion(ci, mm, replaced, polls)
    requires c.name !in world.deployments
    ensures Run(c, [Move(world), Call(true, polls), Call(true, polls)])
         == Cluster(c.name, world.(deployments := world.deployments[c.name := Relabelled(c.name, mm, replaced)]),
           CheckingDeployment(ci, mm))
  {
    var events := [Move(world), Call(true, polls), Call(true, polls)];
    assert events[..2] == [Move(world), Call(true, polls)] && events[..2][..1] == [Move(world)] &&
      [Move(world)][..0] == [];
    hide Convert, WantedLabels, Relabelled, PodsAreReady, Matching;
    assert Run(c, [Move(world)]) == c.(world := world);
    assert Run(c, events[..2]) == c.(world := world, pc := CreatingNew(ci, mm, replaced));
  }

  lemma CallsToCreation(c: Cluster, ci: V1alpha1.Spec, mm: V1beta1.Spec, polls: nat)
    requires c.pc == CheckingDeployment(ci, mm)
    requires c.world.mattermost.None? && c.name in Matching(c.world.deployments, WantedLabels(c.name, mm))
    requires c.world.installation.Some?
    ensures var after := CallStep(CallStep(CallStep(c, true, polls), true, polls), true, polls);
      after.world.mattermost.Some? <==> PodsAreReady(c.world.pods, c.name, mm)
  {
    hide Matching, WantedLabels, Labelled, PodsAreReady, ReadMattermost, ConvertSpec, GetOld, DeleteOld, AwaitDeletion,
      CreateNew, ListMigrated, ListReplicaSets, DeleteReplicaSet, DeleteInstallation;
    assert CallStep(c, true, polls) == c.(pc := CheckingPods(ci, mm));
  }

  /** An attempt that finds the Deployment relabelled creates the Mattermost resource exactly when its
      wanted pods are updated and ready. */
  lemma AttemptCreatesIff(c: Cluster, ci: V1alpha1.Spec, mm: V1beta1.Spec, polls: nat)
    requires StartsOver(c, ci, mm)
    requires Matching(c.world.deployments, WantedLabels(c.name, mm)) == {c.name}
    ensures Undisturbed(c, 7, polls).world.mattermost.Some? <==> PodsAreReady(c.world.pods, c.name, mm)
  {
    FourCalls(c, ci, mm, polls);
    WantedTwice(c.name, mm);
    LabelledOnlyLabels(c.name, mm);
    var labelled := Labelled(c.name, mm);
    assert PodsAreReady(c.world.pods, c.name, mm) == PodsAreReady(c.world.pods, c.name, labelled);
    var c4 := Undisturbed(c, 4, polls);
    assert c4 == c.(pc := CheckingDeployment(ci, labelled));
    hide CallStep, Convert, Matching, WantedLabels, Labelled, PodsAreReady, ListMigrated;
    CallsToCreation(c4, ci, labelled, polls);
    assert Undisturbed(c, 7, polls) == CallStep(CallStep(CallStep(c4, true, polls), true, polls), true, polls) by {
      assert Undisturbed(c, 5, polls) == CallStep(c4, true, polls);
      assert Undisturbed(c, 6, polls) == CallStep(Undisturbed(c, 5, polls), true, polls);
    }
  }

  // ---------- The gap ----------

  /** Neither the Deployment nor the Mattermost resource exists, and no worker holds a copy to recreate one. */
  ghost predicate Gap(c: Cluster) {
    && c.name !in c.world.deployments
    && c.world.mattermost.None?
    && !c.pc.AwaitingDeletion? && !c.pc.CreatingNew? && !c.pc.CheckingPods? && !c.pc.CreatingMattermost?
  }

  /** A crash, or a timeout, after the delete and before the create leads into the gap. */
  lemma StoppedReplacementLeavesGap(c: Cluster, world: World)
    requires c.pc.AwaitingDeletion?
    requires c.name !in world.deployments && world.mattermost.None?
    ensures Gap(Run(c, [Crash, Move(world)]))
    ensures c.pc.polls == 0 ==> Gap(Run(c, [Call(false, 0), Move(world)]))
  {
    assert [Crash, Move(world)][..1] == [Crash] && [Call(false, 0), Move(world)][..1] == [Call(false, 0)];
    assert [Crash][..0] == [] && [Call(false, 0)][..0] == [];
    assert Run(c, [Crash]) == c.(pc := Idle);
    assert Run(c, [Call(false, 0)]) == CallStep(c, false, 0);
  }

  /** World moves that bring back neither the Deployment nor the Mattermost resource. */
  ghost predicate BringsNothingBack(name: string, e: Event) {
    e.Move? ==> name !in e.world.deployments && e.world.mattermost.None?
  }

  lemma StepStaysInGap(c: Cluster, e: Event)
    requires Gap(c) && BringsNothingBack(c.name, e)
    ensures Gap(Step(c, e)) && Step(c, e).name == c.name
  {
    hide Convert, WantedLabels, Labelled, PodsAreReady, Relabelled, Selected, WithoutReplicaSet, HasReplicaSet,
      CleanupLabels;
    if e.Call? {
      match c.pc
      case CheckingDeployment(_, mm) => assert c.name !in Matching(c.world.deployments, WantedLabels(c.name, mm));
      case _ =>
    }
  }

  /** The operator never leaves the gap by itself: however often it retries, the old Deployment cannot be
      read any more, so neither it nor the Mattermost resource is created again. */
  lemma {:induction false} GapIsForever(c: Cluster, events: seq<Event>)
    requires Gap(c)
    requires forall e :: e in events ==> BringsNothingBack(c.name, e)
    ensures Gap(Run(c, events)) && Run(c, events).name == c.name
  {
    hide Step, Gap, BringsNothingBack;
    if events != [] {
      GapIsForever(c, events[..|events| - 1]);
      StepStaysInGap(Run(c, events[..|events| - 1]), events[|events| - 1]);
    }
  }

  // ---------- What later controllers find ----------

  /** The labels, selector and pod labels that GenerateDeployment of MattermostLabels makes for a spec without
      extra labels, as that of a converted installation is. */
  function Generated(name: string, mm: V1beta1.Spec, replicas: Option<int>, image: string,
      template: string): Deployment {
    var labels := MattermostLabels.Answer(name, mm.resourceLabels, map[], MattermostLabels.PodQuery);
    Deployment(labels, SelectorLabels(name), labels, replicas, image, template, false)
  }

  lemma GeneratedLabels(name: string, resourceLabels: Option<Labels>)
    ensures MattermostLabels.Answer(name, resourceLabels, map[], MattermostLabels.PodQuery) ==
      NewLabels(name, OrEmpty(resourceLabels))
  {}

  /** The first reconcile of the new resource wants the selector and the labels that the migration gave,
      so the immutable selector never has to change. */
  lemma FirstReconcileKeepsSelector(name: string, ci: V1alpha1.Spec, secrets: Secrets, replaced: Deployment)
    requires ConvertAndDefault(ci, secrets).Some?
    ensures var converted := Convert(ci, secrets).value;
      var created := Labelled(name, converted);
      var wanted := V1beta1.Default(created);
      && wanted.Some?
      && Generated(name, wanted.value, wanted.value.replicas, replaced.image, replaced.template)
         == Relabelled(name, converted, replaced).(replicas := wanted.value.replicas)
      && Selects(SelectorLabels(name), Relabelled(name, converted, replaced).podLabels)
  {
    var converted := Convert(ci, secrets).value;
    var created := Labelled(name, converted);
    DefaultKeepsLabels(created);
    WantedTwice(name, converted);
    GeneratedLabels(name, created.resourceLabels);
    hide V1beta1.Sized, V1beta1.WithDefaults, Convert, Labelled, MattermostLabels.Answer;
    assert V1beta1.HostIsMissing(created) == V1beta1.HostIsMissing(converted) &&
      created.volumes == converted.volumes by {
      assert created == converted.(resourceLabels := created.resourceLabels) by { LabelledOnlyLabels(name, converted); }
    }
    assert V1beta1.Default(created).value.resourceLabels == created.resourceLabels;
  }

  lemma LabelledOnlyLabels(name: string, mm: V1beta1.Spec)
    ensures Labelled(name, mm) == mm.(resourceLabels := Labelled(name, mm).resourceLabels)
  {}

  lemma DefaultKeepsLabels(mm: V1beta1.Spec)
    ensures V1beta1.Default(mm).Some? ==> V1beta1.Default(mm).value.resourceLabels == mm.resourceLabels
  {}

  /** Resource labels of the older resource come last. Its selector finds its own pods exactly when they
      override none of the selecting labels. */
  lemma OldSelectorFindsPodsIff(name: string, resourceLabels: Labels)
    ensures Selects(OldSelectorLabels(name), OldLabels(name, resourceLabels)) <==>
      forall k :: k in OldSelectorLabels(name) && k in resourceLabels ==>
        resourceLabels[k] == OldSelectorLabels(name)[k]
  {}

  /** The cleanup takes the ReplicaSets of the relabelled Deployment exactly when the user has put the older
      installation's labels on everything, and has not set the newer ones to something else. */
  lemma CleanupSparesNewReplicaSetsIff(name: string, resourceLabels: Labels)
    ensures !Selects(OldLabels(name, resourceLabels), NewLabels(name, resourceLabels)) <==>
      || OldClusterLabel !in resourceLabels
      || OldClusterResourceLabel !in resourceLabels
      || exists k :: k in SelectorLabels(name) && k in resourceLabels && resourceLabels[k] != SelectorLabels(name)[k]
  {
    var selector, labels := OldLabels(name, resourceLabels), NewLabels(name, resourceLabels);
    assert OldClusterLabel in selector && OldClusterResourceLabel in selector;
    if k :| k in SelectorLabels(name) && k in resourceLabels && resourceLabels[k] != SelectorLabels(name)[k] {
      assert k in selector && labels[k] != selector[k];
    }
  }
}
