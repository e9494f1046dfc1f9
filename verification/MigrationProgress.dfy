/** Progress of the migration: in a world that cooperates, every reconcile that follows settled pods brings it
    into a later phase, down to the deleted ClusterInstallation, exactly when the pods that the Deployment runs
    are those that the installation awaits. */
module MigrationProgress {
  import opened Kube
  import opened LabelMaps
  import opened Conversion
  import opened Migration
  import opened MigrationSafety
  import opened MigrationWait
  import V1alpha1
  import V1beta1

  /** One migration: the installation, its conversion under the given secrets, and its labels; the image and the
      number of pods of its Deployment, and how many of these pods get ready. */
  datatype Site = Site(
    ci: V1alpha1.Spec,
    mm: V1beta1.Spec,
    secrets: Secrets,
    labels: Labels,
    image: string,
    count: nat,
    ready: nat)

  /** The parts of a site belong together. */
  ghost predicate Fits(name: string, s: Site) {
    && Migrates(s.ci) && Convert(s.ci, s.secrets) == Some(s.mm)
    && s.labels == AwaitedLabels(name, s.ci)
    && s.ready <= s.count
  }

  lemma FittingLabels(name: string, s: Site)
    requires Fits(name, s)
    ensures s.labels == WantedLabels(name, s.mm) && NewLabels(name, OrEmpty(s.ci.resourceLabels)) == s.labels
  {
    ReadyForConverted([], name, s.ci, s.secrets);
    hide Convert, PodsAreReady, ReadyFor, V1alpha1.Convertible, WantedLabels, NewLabels;
  }

  // ---------- A world that cooperates ----------

  /** Deployments that are being deleted are gone. */
  function Collected(deployments: map<string, Deployment>): map<string, Deployment> {
    map n | n in deployments && !deployments[n].deleting :: deployments[n]
  }

  /** The selected pods are some or all of those that the relabelled Deployment asks for; without it there are none. */
  ghost predicate Made(name: string, deployments: map<string, Deployment>, pods: seq<Pod>, s: Site) {
    && MadeOf(pods, s.labels, s.image, s.count)
    && (!IsMigrated(name, deployments, s.labels) ==> forall p :: p in pods ==> !Selects(s.labels, p.labels))
  }

  /** Between two calls, deleted Deployments go away, and the pods of the Deployment move; once those that get
      ready are, they stay so. */
  ghost predicate Cooperative(before: World, after: World, name: string, s: Site) {
    && after == before.(deployments := Collected(before.deployments), pods := after.pods)
    && Made(name, after.deployments, after.pods, s)
    && (IsMigrated(name, before.deployments, s.labels) && HasReady(before.pods, s.labels, s.image, s.ready) ==>
          HasReady(after.pods, s.labels, s.image, s.ready))
  }

  /** The world cooperates, as long as no other Deployment carries the labels, and all calls succeed. */
  ghost predicate Cooperates(plan: Plan, name: string, s: Site) {
    && (forall n :: plan.ok(n))
    && (forall n, w: World :: Solo(name, w.deployments, s) ==> Cooperative(w, plan.moves(n, w), name, s))
  }

  /** No other Deployment carries the wanted labels, and the installation's own is as the site says. */
  ghost predicate Solo(name: string, deployments: map<string, Deployment>, s: Site) {
    && (forall n :: n in deployments && n != name ==> !Selects(s.labels, deployments[n].labels))
    && (name in deployments ==> deployments[name].image == s.image && deployments[name].replicas == Some(s.count))
  }

  ghost predicate DistinctUids(sets: seq<ReplicaSet>) {
    forall i, j :: 0 <= i < j < |sets| ==> sets[i].uid != sets[j].uid
  }

  /** What the rounds keep: the installation as it was read, its secrets, and its Deployment. */
  ghost predicate Base(c: Cluster, s: Site) {
    && (c.world.installation.Some? ==> c.world.installation == Some(s.ci))
    && c.world.secrets == s.secrets
    && Solo(c.name, c.world.deployments, s)
    && DistinctUids(c.world.replicaSets)
    && (ReplacesWith(c.pc) ==> c.pc.replaced.image == s.image && c.pc.replaced.replicas == Some(s.count))
  }

  /** The worker holds a copy of the Deployment that it replaces. */
  predicate ReplacesWith(pc: Pc) {
    pc.DeletingOld? || pc.AwaitingDeletion? || pc.CreatingNew?
  }

  lemma SoloMigratedIff(name: string, deployments: map<string, Deployment>, s: Site)
    requires Solo(name, deployments, s)
    ensures IsMigrated(name, deployments, s.labels) <==>
      name in deployments && Selects(s.labels, deployments[name].labels) && !deployments[name].deleting
    ensures name in deployments && !Selects(s.labels, deployments[name].labels) ==>
      Matching(deployments, s.labels) == {}
    ensures IsMigrated(name, deployments, s.labels) ==> |Matching(deployments, s.labels)| == 1
  {
    hide Selects;
    var matching := Matching(deployments, s.labels);
    if name in deployments && Selects(s.labels, deployments[name].labels) {
      assert matching == {name};
    }
    assert IsMigrated(name, deployments, s.labels) ==> matching == {name} && name in matching;
  }

  lemma CollectingIsTame(before: World, after: World, name: string, s: Site)
    requires Cooperative(before, after, name, s) && Solo(name, before.deployments, s)
    requires before.installation.Some? ==>
      NewLabels(name, OrEmpty(before.installation.value.resourceLabels)) == s.labels
    ensures Tame(before, after, name, s.labels) && Solo(name, after.deployments, s)
    ensures name in before.deployments && !before.deployments[name].deleting ==>
      name in after.deployments && after.deployments[name] == before.deployments[name]
    ensures name in after.deployments ==> name in before.deployments && !before.deployments[name].deleting
  {
    SoloMigratedIff(name, before.deployments, s);
    assert Solo(name, after.deployments, s);
    SoloMigratedIff(name, after.deployments, s);
    hide IsMigrated, NewLabels, Selects, Made, HasReady;
  }

  // ---------- Calls keep what the rounds keep ----------

  lemma {:induction false} RemovingKeepsDistinct(sets: seq<ReplicaSet>, uid: nat)
    requires DistinctUids(sets)
    ensures DistinctUids(WithoutReplicaSet(sets, uid))
    ensures forall s :: s in WithoutReplicaSet(sets, uid) <==> s in sets && s.uid != uid
  {
    if sets != [] {
      var front, last := sets[..|sets| - 1], sets[|sets| - 1];
      RemovingKeepsDistinct(front, uid);
      assert sets == front + [last];
      assert forall s :: s in front ==> s.uid != last.uid;
    }
  }

  lemma CallKeepsBase(c: Cluster, polls: nat, s: Site)
    requires Base(c, s)
    ensures Base(CallStep(c, true, polls), s)
    ensures CallStep(c, true, polls).name == c.name
  {
    hide PodsAreReady, Convert, Labelled, WantedLabels, Matching, Selected, WithoutReplicaSet, HasReplicaSet,
      CleanupLabels, Selects, V1alpha1.Convertible;
    match c.pc
    case DeletingReplicaSets(_, todo) =>
      if todo != [] {
        RemovingKeepsDistinct(c.world.replicaSets, todo[0]);
      }
    case GettingOld(_, _) =>
    case DeletingOld(_, _, _) =>
    case CreatingNew(_, _, _) =>
    case _ =>
  }

  /** The world moves cooperatively, and then the next call is made. */
  lemma Acts(c: Cluster, plan: Plan, n: nat, s: Site)
    requires Cooperates(plan, c.name, s) && !c.pc.Idle? && Base(c, s)
    requires c.world.installation.Some? ==>
      NewLabels(c.name, OrEmpty(c.world.installation.value.resourceLabels)) == s.labels
    ensures var moved := c.(world := plan.moves(n, c.world));
      && Cooperative(c.world, moved.world, c.name, s) && Base(moved, s) && Tame(c.world, moved.world, c.name, s.labels)
      && (IsMigrated(c.name, c.world.deployments, s.labels) <==> IsMigrated(c.name, moved.world.deployments, s.labels))
      && (c.name in c.world.deployments && !c.world.deployments[c.name].deleting ==>
            c.name in moved.world.deployments && moved.world.deployments[c.name] == c.world.deployments[c.name])
      && (c.name in moved.world.deployments ==> c.name in c.world.deployments && !c.world.deployments[c.name].deleting)
      && Act(c, plan, n) == CallStep(moved, true, plan.polls(n)) && Base(Act(c, plan, n), s) &&
        Act(c, plan, n).name == c.name
      && UntilIdle(c, plan, n) == UntilIdle(Act(c, plan, n), plan, n + 1)
  {
    assert plan.ok(n) && Cooperative(c.world, plan.moves(n, c.world), c.name, s);
    var moved := c.(world := plan.moves(n, c.world));
    CollectingIsTame(c.world, moved.world, c.name, s);
    assert Base(moved, s);
    CallKeepsBase(moved, plan.polls(n), s);
    hide CallStep, Cooperates, Solo, NewLabels, IsMigrated, Made, HasReady, DistinctUids, Collected;
  }

  /** From wherever the worker stands, the rest of the reconcile keeps the phase and the base. */
  lemma {:induction false} RestKeepsPhase(c: Cluster, plan: Plan, n: nat, s: Site)
    requires Cooperates(plan, c.name, s) && InPhase(c, s.labels) && Base(c, s)
    ensures var result := UntilIdle(c, plan, n);
      && result.pc.Idle? && result.name == c.name
      && InPhase(result, s.labels) && Base(result, s)
      && Phase(result, s.labels) >= Phase(c, s.labels)
    decreases Stage(c.pc), Repeats(c.pc)
  {
    hide CallStep, IsMigrated, NewLabels, WantedLabels, PodsAreReady, Tame, Cooperative, Cooperates, Base;
    if !c.pc.Idle? {
      Acts(c, plan, n, s);
      var moved := c.(world := plan.moves(n, c.world));
      CallMakesProgress(moved, plan.ok(n), plan.polls(n));
      TameKeepsPhase(c, moved.world, s.labels);
      CallKeepsPhase(moved, true, plan.polls(n), s.labels);
      RestKeepsPhase(Act(c, plan, n), plan, n + 1, s);
    }
  }

  // ---------- One reconcile in each phase ----------

  /** A migration that is under way, with an idle worker: the installation asks for it, and its Deployment is
      there and not being deleted, unless the Mattermost resource is there. */
  ghost predicate UnderWay(c: Cluster, s: Site) {
    && c.pc.Idle? && Fits(c.name, s) && Base(c, s)
    && (c.world.installation.Some? && c.world.mattermost.None? ==>
          c.name in c.world.deployments && !c.world.deployments[c.name].deleting)
  }

  lemma UnderWayIsInPhase(c: Cluster, s: Site)
    requires UnderWay(c, s)
    ensures InPhase(c, s.labels)
  {
    FittingLabels(c.name, s);
    hide Convert, NewLabels, WantedLabels, Solo, DistinctUids, Migrates, IsMigrated, AwaitedLabels;
  }

  /** Before a reconcile, so many pods of the Deployment as get ready are ready, and a created resource is Stable. */
  ghost predicate Settled(c: Cluster, s: Site) {
    && Made(c.name, c.world.deployments, c.world.pods, s)
    && (IsMigrated(c.name, c.world.deployments, s.labels) ==> HasReady(c.world.pods, s.labels, s.image, s.ready))
    && (c.world.mattermost.Some? ==> c.world.mattermost.value.state == Stable)
  }

  function Reconcile(c: Cluster, plan: Plan): Cluster
    requires c.pc.Idle?
  {
    UntilIdle(Load(c), plan, 0)
  }

  lemma Loads(c: Cluster, ci: V1alpha1.Spec)
    requires c.pc.Idle? && c.world.installation == Some(ci) && Migrates(ci)
    ensures Load(c) == c.(pc := ReadingMattermost(ci))
  {
  }

  /** Up to the list of the Deployments. */
  lemma ReachesListing(c: Cluster, plan: Plan, s: Site) returns (at: Cluster)
    requires Cooperates(plan, c.name, s) && UnderWay(c, s)
    requires c.world.installation.Some? && c.world.mattermost.None?
    ensures at.name == c.name && at.pc == ListingMigrated(s.ci, s.mm) && Base(at, s)
    ensures at.world.installation == Some(s.ci) && at.world.mattermost.None?
    ensures at.name in at.world.deployments && at.world.deployments[at.name] == c.world.deployments[c.name]
    ensures IsMigrated(c.name, c.world.deployments, s.labels) && HasReady(c.world.pods, s.labels, s.image, s.ready) ==>
      HasReady(at.world.pods, s.labels, s.image, s.ready)
    ensures Reconcile(c, plan) == UntilIdle(at, plan, 2)
  {
    FittingLabels(c.name, s);
    Loads(c, s.ci);
    hide Convert, PodsAreReady, WantedLabels, NewLabels, Matching, IsMigrated, Collected, Solo, DistinctUids, Tame,
      Made, HasReady, Load, Cooperates, Migrates, AwaitedLabels;
    var c0 := Load(c);
    Acts(c0, plan, 0, s);
    var c1 := Act(c0, plan, 0);
    assert c1.pc == Converting(s.ci);
    Acts(c1, plan, 1, s);
    at := Act(c1, plan, 1);
  }

  /** Phase 0: the Deployment is replaced. */
  lemma OldIsReplaced(at: Cluster, plan: Plan, s: Site) returns (made: Cluster)
    requires Cooperates(plan, at.name, s) && Fits(at.name, s) && at.pc == ListingMigrated(s.ci, s.mm) && Base(at, s)
    requires at.world.installation == Some(s.ci) && at.world.mattermost.None?
    requires at.name in at.world.deployments && !at.world.deployments[at.name].deleting
    requires !IsMigrated(at.name, at.world.deployments, s.labels)
    ensures made.name == at.name && made.pc == CheckingDeployment(s.ci, Labelled(at.name, s.mm)) && Base(made, s)
    ensures made.world.installation == Some(s.ci) && made.world.mattermost.None?
    ensures made.name in made.world.deployments && made.world.deployments[made.name].labels == s.labels
    ensures !made.world.deployments[made.name].deleting
    ensures UntilIdle(at, plan, 2) == UntilIdle(made, plan, 7)
  {
    FittingLabels(at.name, s);
    hide Convert, PodsAreReady, NewLabels, Matching, IsMigrated, Collected, Solo, DistinctUids, Selects, WantedLabels,
      Labelled, Made, HasReady, Tame, Cooperates, AwaitedLabels, Migrates;
    Acts(at, plan, 2, s);
    ListsNone(at.(world := plan.moves(2, at.world)), s);
    var c1 := Act(at, plan, 2);
    assert c1.pc == GettingOld(s.ci, Labelled(at.name, s.mm));
    Acts(c1, plan, 3, s);
    made := OldIsDeletedAndMade(Act(c1, plan, 3), plan, s);
  }

  lemma ListsNone(c: Cluster, s: Site)
    requires Solo(c.name, c.world.deployments, s) && !IsMigrated(c.name, c.world.deployments, s.labels)
    requires c.name in c.world.deployments && !c.world.deployments[c.name].deleting
    ensures |Matching(c.world.deployments, s.labels)| == 0
  {
    SoloMigratedIff(c.name, c.world.deployments, s);
    hide Selects, Matching, IsMigrated, Solo;
  }

  lemma OldIsDeletedAndMade(c: Cluster, plan: Plan, s: Site) returns (made: Cluster)
    requires Cooperates(plan, c.name, s) && Fits(c.name, s) && Base(c, s)
    requires c.pc.DeletingOld? && c.pc.ci == s.ci && c.pc.mm == Labelled(c.name, s.mm)
    requires c.world.installation == Some(s.ci) && c.world.mattermost.None?
    requires c.name in c.world.deployments && !c.world.deployments[c.name].deleting
    ensures made.name == c.name && made.pc == CheckingDeployment(s.ci, Labelled(c.name, s.mm)) && Base(made, s)
    ensures made.world.installation == Some(s.ci) && made.world.mattermost.None?
    ensures made.name in made.world.deployments && made.world.deployments[made.name].labels == s.labels
    ensures !made.world.deployments[made.name].deleting
    ensures UntilIdle(c, plan, 4) == UntilIdle(made, plan, 7)
  {
    FittingLabels(c.name, s);
    hide Convert, NewLabels, WantedLabels, Labelled, Base, Tame, Cooperative, Cooperates, AwaitedLabels, Migrates,
      CallStep, IsMigrated, UntilIdle;
    Acts(c, plan, 4, s);
    var c1 := Act(c, plan, 4);
    assert c1.pc.AwaitingDeletion? && c1.pc.ci == s.ci && c1.pc.mm == Labelled(c.name, s.mm)
      && c1.world.installation == Some(s.ci) && c1.world.mattermost.None?
      && c1.name in c1.world.deployments && c1.world.deployments[c1.name].deleting by { OldIsMarked(c, plan, s); }
    Acts(c1, plan, 5, s);
    var c2 := Act(c1, plan, 5);
    assert c2.pc.CreatingNew? && c2.pc.ci == s.ci && c2.pc.mm == Labelled(c.name, s.mm)
      && c2.world.installation == Some(s.ci) && c2.world.mattermost.None?
      && c2.name !in c2.world.deployments by { OldIsGone(c1, plan, s); }
    Acts(c2, plan, 6, s);
    made := Act(c2, plan, 6);
    NewIsMade(c2, plan, s);
  }

  lemma OldIsMarked(c: Cluster, plan: Plan, s: Site)
    requires c.pc.DeletingOld? && c.name in c.world.deployments && !c.world.deployments[c.name].deleting
    requires plan.ok(4) && Cooperative(c.world, plan.moves(4, c.world), c.name, s)
    ensures var next := Act(c, plan, 4);
      && next.pc.AwaitingDeletion? && next.pc.ci == c.pc.ci && next.pc.mm == c.pc.mm && next.name == c.name
      && next.world.installation == c.world.installation && next.world.mattermost == c.world.mattermost
      && c.name in next.world.deployments && next.world.deployments[c.name].deleting
  {
    hide Made, HasReady, IsMigrated;
  }

  lemma OldIsGone(c: Cluster, plan: Plan, s: Site)
    requires c.pc.AwaitingDeletion? && c.name in c.world.deployments && c.world.deployments[c.name].deleting
    requires plan.ok(5) && Cooperative(c.world, plan.moves(5, c.world), c.name, s)
    ensures var next := Act(c, plan, 5);
      && next.pc.CreatingNew? && next.pc.ci == c.pc.ci && next.pc.mm == c.pc.mm && next.name == c.name
      && next.world.installation == c.world.installation && next.world.mattermost == c.world.mattermost
      && c.name !in next.world.deployments
  {
    hide Made, HasReady, IsMigrated;
  }

  lemma NewIsMade(c: Cluster, plan: Plan, s: Site)
    requires c.pc.CreatingNew? && c.pc.mm == Labelled(c.name, s.mm) && c.name !in c.world.deployments
    requires s.labels == WantedLabels(c.name, s.mm)
    requires plan.ok(6) && Cooperative(c.world, plan.moves(6, c.world), c.name, s)
    ensures var next := Act(c, plan, 6);
      && next.pc == CheckingDeployment(c.pc.ci, c.pc.mm)
      && next.world.installation == c.world.installation && next.world.mattermost == c.world.mattermost
      && c.name in next.world.deployments && next.world.deployments[c.name].labels == s.labels
      && !next.world.deployments[c.name].deleting
  {
    WantedTwice(c.name, s.mm);
    hide Made, HasReady, IsMigrated, WantedLabels, Labelled;
  }

  /** Phase 1: the ready pods let the Mattermost resource be created. */
  lemma RelabelledIsCreated(at: Cluster, plan: Plan, s: Site)
    requires Cooperates(plan, at.name, s) && Fits(at.name, s) && at.pc == ListingMigrated(s.ci, s.mm) && Base(at, s)
    requires at.world.installation == Some(s.ci) && at.world.mattermost.None?
    requires IsMigrated(at.name, at.world.deployments, s.labels) && HasReady(at.world.pods, s.labels, s.image, s.ready)
    requires EndsWith(s.ci, s.image, s.ready)
    ensures UntilIdle(at, plan, 2).world.mattermost.Some?
    ensures UntilIdle(at, plan, 2).world.installation == Some(s.ci)
  {
    FittingLabels(at.name, s);
    hide Convert, NewLabels, Matching, IsMigrated, Collected, Solo, DistinctUids, Selects, WantedLabels, Labelled,
      PodsAreReady, Made, HasReady, Tame, Cooperates, AwaitedLabels, Migrates, EndsWith, ReadMattermost, ConvertSpec,
      GetOld, DeleteOld, AwaitDeletion, CreateNew, DeleteReplicaSet;
    Acts(at, plan, 2, s);
    ListsItself(at.(world := plan.moves(2, at.world)), s);
    ReadyIsCreated(Act(at, plan, 2), plan, s);
  }

  lemma ReadyIsCreated(c: Cluster, plan: Plan, s: Site)
    requires Cooperates(plan, c.name, s) && Fits(c.name, s) &&
      c.pc == CheckingDeployment(s.ci, Labelled(c.name, s.mm)) && Base(c, s)
    requires c.world.installation == Some(s.ci) && c.world.mattermost.None?
    requires IsMigrated(c.name, c.world.deployments, s.labels) && HasReady(c.world.pods, s.labels, s.image, s.ready)
    requires EndsWith(s.ci, s.image, s.ready)
    ensures UntilIdle(c, plan, 3).world.mattermost.Some?
    ensures UntilIdle(c, plan, 3).world.installation == Some(s.ci)
  {
    FittingLabels(c.name, s);
    WantedTwice(c.name, s.mm);
    hide Convert, NewLabels, Matching, IsMigrated, Collected, Solo, DistinctUids, Selects, WantedLabels, Labelled,
      PodsAreReady, Made, HasReady, Tame, Cooperates, AwaitedLabels, Migrates, EndsWith, ReadMattermost, ConvertSpec,
      ListMigrated, GetOld, DeleteOld, AwaitDeletion, CreateNew, DeleteReplicaSet;
    Acts(c, plan, 3, s);
    ListsItself(c.(world := plan.moves(3, c.world)), s);
    var c2 := Act(c, plan, 3);
    assert c2.pc == CheckingPods(s.ci, Labelled(c.name, s.mm));
    PodsAreCounted(c2, plan, s);
  }

  lemma PodsAreCounted(c: Cluster, plan: Plan, s: Site)
    requires Cooperates(plan, c.name, s) && Fits(c.name, s) &&
      c.pc == CheckingPods(s.ci, Labelled(c.name, s.mm)) && Base(c, s)
    requires c.world.installation == Some(s.ci) && c.world.mattermost.None?
    requires IsMigrated(c.name, c.world.deployments, s.labels) && HasReady(c.world.pods, s.labels, s.image, s.ready)
    requires EndsWith(s.ci, s.image, s.ready)
    ensures UntilIdle(c, plan, 4).world.mattermost.Some?
    ensures UntilIdle(c, plan, 4).world.installation == Some(s.ci)
  {
    FittingLabels(c.name, s);
    hide CallStep, Convert, NewLabels, IsMigrated, Collected, Solo, DistinctUids, WantedLabels, Labelled, PodsAreReady,
      Made, HasReady, Tame, Cooperates, AwaitedLabels, Migrates, EndsWith, Act;
    Acts(c, plan, 4, s);
    var moved := c.(world := plan.moves(4, c.world));
    PodsAreAwaited(moved.world.pods, c.name, s);
    ReadyPodsAreFound(moved, plan.polls(4));
    var c2 := Act(c, plan, 4);
    Acts(c2, plan, 5, s);
    ResourceIsCreated(c2.(world := plan.moves(5, c2.world)), plan.polls(5));
    var c3 := Act(c2, plan, 5);
    assert UntilIdle(c3, plan, 6) == c3;
  }

  lemma ReadyPodsAreFound(c: Cluster, polls: nat)
    requires c.pc.CheckingPods? && PodsAreReady(c.world.pods, c.name, c.pc.mm)
    ensures CallStep(c, true, polls) == c.(pc := CreatingMattermost(c.pc.ci, c.pc.mm))
  {
    hide PodsAreReady;
  }

  lemma ResourceIsCreated(c: Cluster, polls: nat)
    requires c.pc.CreatingMattermost? && c.world.mattermost.None?
    ensures var result := CallStep(c, true, polls);
      result.pc.Idle? && result.world.mattermost.Some? && result.world.installation == c.world.installation
  {
  }

  lemma PodsAreAwaited(pods: seq<Pod>, name: string, s: Site)
    requires Fits(name, s) && HasReady(pods, s.labels, s.image, s.ready)
    ensures PodsAreReady(pods, name, Labelled(name, s.mm)) <==> EndsWith(s.ci, s.image, s.ready)
  {
    ReadyForConverted(pods, name, s.ci, s.secrets);
    ReadyPodsEndIff(pods, name, s.ci, s.image, s.ready);
    hide Convert, PodsAreReady, ReadyFor, HasReady, EndsWith, AwaitedLabels, Labelled, Migrates;
  }

  lemma ListsItself(c: Cluster, s: Site)
    requires Solo(c.name, c.world.deployments, s) && IsMigrated(c.name, c.world.deployments, s.labels)
    ensures |Matching(c.world.deployments, s.labels)| == 1 && c.name in Matching(c.world.deployments, s.labels)
  {
    SoloMigratedIff(c.name, c.world.deployments, s);
    hide Selects, Solo;
  }

  // ---------- The last phase ----------

  ghost predicate AllThere(todo: seq<nat>, sets: seq<ReplicaSet>) {
    && (forall i :: 0 <= i < |todo| ==> HasReplicaSet(sets, todo[i]))
    && (forall i, j :: 0 <= i < j < |todo| ==> todo[i] != todo[j])
  }

  lemma {:induction false} SelectedAreThere(sets: seq<ReplicaSet>, labels: Labels)
    requires DistinctUids(sets)
    ensures AllThere(Selected(sets, labels), sets)
  {
    hide Selects;
    if sets != [] {
      var front, last := sets[..|sets| - 1], sets[|sets| - 1];
      SelectedAreThere(front, labels);
      var todo := Selected(front, labels);
      forall i | 0 <= i < |todo| ensures HasReplicaSet(sets, todo[i]) && todo[i] != last.uid {
        var k :| 0 <= k < |front| && front[k].uid == todo[i];
        assert sets[k] == front[k];
      }
      assert sets[|sets| - 1].uid == last.uid;
    }
  }

  lemma RemovingKeepsTheRest(todo: seq<nat>, sets: seq<ReplicaSet>)
    requires todo != [] && AllThere(todo, sets) && DistinctUids(sets)
    ensures AllThere(todo[1..], WithoutReplicaSet(sets, todo[0])) && DistinctUids(WithoutReplicaSet(sets, todo[0]))
  {
    RemovingKeepsDistinct(sets, todo[0]);
    hide WithoutReplicaSet, DistinctUids;
    var rest := WithoutReplicaSet(sets, todo[0]);
    forall i | 0 <= i < |todo[1..]| ensures HasReplicaSet(rest, todo[1..][i]) {
      var k :| 0 <= k < |sets| && sets[k].uid == todo[i + 1];
      assert sets[k] in sets && sets[k].uid != todo[0];
      var l :| 0 <= l < |rest| && rest[l] == sets[k];
    }
  }

  lemma FirstIsThere(todo: seq<nat>, sets: seq<ReplicaSet>)
    requires todo != [] && AllThere(todo, sets)
    ensures HasReplicaSet(sets, todo[0])
  {
  }

  /** The clean-up deletes what it listed, and then the installation. */
  lemma {:induction false} CleanUpEnds(c: Cluster, plan: Plan, n: nat, s: Site, todo: seq<nat>)
    requires Cooperates(plan, c.name, s) && c.pc == AfterReplicaSets(s.ci, todo)
    requires Solo(c.name, c.world.deployments, s)
    requires AllThere(todo, c.world.replicaSets) && DistinctUids(c.world.replicaSets)
    ensures UntilIdle(c, plan, n).world.installation.None? &&
      UntilIdle(c, plan, n).world.mattermost == c.world.mattermost
    decreases |todo|
  {
    assert plan.ok(n) && Cooperative(c.world, plan.moves(n, c.world), c.name, s);
    var moved := c.(world := plan.moves(n, c.world));
    assert Solo(c.name, moved.world.deployments, s);
    hide PodsAreReady, Collected, AllThere, DistinctUids, WithoutReplicaSet, HasReplicaSet, Load, ReadMattermost,
      ConvertSpec, ListMigrated, GetOld, DeleteOld, AwaitDeletion, CreateNew, CheckDeployment, CheckPods,
      CreateMattermost, ListReplicaSets, Solo, Made, HasReady, IsMigrated, Cooperates;
    var next := CallStep(moved, true, plan.polls(n));
    assert UntilIdle(c, plan, n) == UntilIdle(next, plan, n + 1);
    if todo == [] {
      assert UntilIdle(next, plan, n + 1) == next;
    } else {
      assert HasReplicaSet(moved.world.replicaSets, todo[0]) by { FirstIsThere(todo, c.world.replicaSets); }
      RemovingKeepsTheRest(todo, c.world.replicaSets);
      CleanUpEnds(next, plan, n + 1, s, todo[1..]);
    }
  }

  /** Phase 2: a Stable resource lets the clean-up run. */
  lemma StableIsCleanedUp(c: Cluster, plan: Plan, s: Site)
    requires Cooperates(plan, c.name, s) && UnderWay(c, s) && Settled(c, s)
    requires c.world.installation.Some? && c.world.mattermost.Some?
    ensures Reconcile(c, plan).world.installation.None? && Reconcile(c, plan).world.mattermost == c.world.mattermost
  {
    FittingLabels(c.name, s);
    Loads(c, s.ci);
    hide Convert, NewLabels, Matching, IsMigrated, Collected, Solo, DistinctUids, Selects, WantedLabels, PodsAreReady,
      Selected, AllThere, CleanupLabels, Load, Made, HasReady, Tame, Cooperates, AwaitedLabels, Migrates;
    var c0 := Load(c);
    Acts(c0, plan, 0, s);
    var c1 := Act(c0, plan, 0);
    assert c1.pc == ListingReplicaSets(s.ci);
    Acts(c1, plan, 1, s);
    var c2 := Act(c1, plan, 1);
    var todo := Selected(c2.world.replicaSets, CleanupLabels(c.name, s.ci));
    SelectedAreThere(c2.world.replicaSets, CleanupLabels(c.name, s.ci));
    CleanUpEnds(c2, plan, 2, s, todo);
  }

  // ---------- One round ----------

  lemma NothingToDo(c: Cluster, plan: Plan)
    requires c.pc.Idle? && c.world.installation.None?
    ensures Reconcile(c, plan) == c
  {
  }

  lemma SelectsItself(labels: Labels)
    ensures Selects(labels, labels)
  {
  }

  /** A reconcile keeps the migration under way, and replaces a Deployment that is not relabelled. */
  lemma ReconcileKeepsGoing(c: Cluster, plan: Plan, s: Site)
    requires Cooperates(plan, c.name, s) && UnderWay(c, s)
    ensures var result := Reconcile(c, plan);
      && result.name == c.name && UnderWay(result, s)
      && Phase(result, s.labels) >= Phase(c, s.labels)
      && Phase(result, s.labels) >= 1
  {
    UnderWayIsInPhase(c, s);
    var result := Reconcile(c, plan);
    if c.world.installation.None? {
      NothingToDo(c, plan);
    } else {
      Loads(c, s.ci);
      hide Convert, NewLabels, Matching, IsMigrated, Solo, DistinctUids, Selects, WantedLabels, UntilIdle, Cooperates,
        Migrates, Load, AwaitedLabels, Labelled;
      var c0 := Load(c);
      assert InPhase(c0, s.labels) && Base(c0, s) && Phase(c0, s.labels) == Phase(c, s.labels);
      RestKeepsPhase(c0, plan, 0, s);
      if Phase(c, s.labels) == 0 {
        var at := ReachesListing(c, plan, s);
        SoloMigratedIff(c.name, c.world.deployments, s);
        SoloMigratedIff(at.name, at.world.deployments, s);
        var made := OldIsReplaced(at, plan, s);
        SoloMigratedIff(made.name, made.world.deployments, s);
        SelectsItself(s.labels);
        MadeIsInPhase(made, s);
        RestKeepsPhase(made, plan, 7, s);
      }
      if result.world.installation.Some? && result.world.mattermost.None? {
        SoloMigratedIff(result.name, result.world.deployments, s);
      }
    }
  }

  lemma MadeIsInPhase(c: Cluster, s: Site)
    requires Fits(c.name, s) && c.pc == CheckingDeployment(s.ci, Labelled(c.name, s.mm))
    requires c.world.installation == Some(s.ci) && c.world.mattermost.None?
    requires IsMigrated(c.name, c.world.deployments, s.labels)
    ensures InPhase(c, s.labels) && Phase(c, s.labels) == 1
  {
    FittingLabels(c.name, s);
    WantedTwice(c.name, s.mm);
    hide Convert, NewLabels, IsMigrated, WantedLabels, Labelled, Migrates, AwaitedLabels;
  }

  /** A reconcile of a settled, cooperating world brings the migration into a later phase, when its ready pods
      are what is awaited. */
  lemma ReconcileRaisesPhase(c: Cluster, plan: Plan, s: Site)
    requires Cooperates(plan, c.name, s) && UnderWay(c, s) && Settled(c, s)
    requires EndsWith(s.ci, s.image, s.ready)
    ensures var result := Reconcile(c, plan);
      && result.name == c.name && UnderWay(result, s)
      && (Phase(result, s.labels) > Phase(c, s.labels) || Phase(result, s.labels) == 3)
  {
    ReconcileKeepsGoing(c, plan, s);
    hide Convert, NewLabels, Matching, IsMigrated, Solo, DistinctUids, Selects, WantedLabels, UntilIdle, Cooperates,
      Migrates, Load, AwaitedLabels, Labelled, Made, HasReady, EndsWith;
    if c.world.installation.Some? {
      if c.world.mattermost.Some? {
        StableIsCleanedUp(c, plan, s);
      } else if IsMigrated(c.name, c.world.deployments, s.labels) {
        var at := ReachesListing(c, plan, s);
        SoloMigratedIff(c.name, c.world.deployments, s);
        SoloMigratedIff(at.name, at.world.deployments, s);
        RelabelledIsCreated(at, plan, s);
      }
    }
  }

  // ---------- Rounds ----------

  datatype Round = Round(settled: World, plan: Plan)

  /** In every round the world settles, and then one reconcile runs. */
  function AfterRounds(c: Cluster, rounds: seq<Round>): Cluster {
    if rounds == [] then c
    else
      var before := AfterRounds(c, rounds[..|rounds| - 1]);
      var round := rounds[|rounds| - 1];
      if before.pc.Idle? then Reconcile(before.(world := round.settled), round.plan) else before
  }

  /** While it settles, the world leaves the stored objects alone, apart from pods and the state of the
      Mattermost resource. */
  ghost predicate Settles(before: Cluster, after: World, s: Site) {
    && after == before.world.(pods := after.pods, mattermost := after.mattermost)
    && (after.mattermost.Some? <==> before.world.mattermost.Some?)
    && (after.mattermost.Some? ==> after.mattermost.value.spec == before.world.mattermost.value.spec)
    && Settled(before.(world := after), s)
  }

  ghost predicate Steady(c: Cluster, rounds: seq<Round>, s: Site) {
    forall i :: 0 <= i < |rounds| ==>
      Settles(AfterRounds(c, rounds[..i]), rounds[i].settled, s) && Cooperates(rounds[i].plan, c.name, s)
  }

  lemma SettlingKeepsGoing(c: Cluster, after: World, s: Site)
    requires UnderWay(c, s) && Settles(c, after, s)
    ensures UnderWay(c.(world := after), s) && Settled(c.(world := after), s)
    ensures Phase(c.(world := after), s.labels) == Phase(c, s.labels)
  {
    hide Convert, NewLabels, IsMigrated, Solo, DistinctUids, WantedLabels, Settled, Migrates, AwaitedLabels;
  }

  lemma PhaseIsAtMostThree(c: Cluster, labels: Labels)
    ensures Phase(c, labels) <= 3
    ensures Phase(c, labels) == 3 <==> c.world.installation.None?
  {
  }

  lemma ShorterIsSteady(c: Cluster, rounds: seq<Round>, s: Site)
    requires rounds != [] && Steady(c, rounds, s)
    ensures Steady(c, rounds[..|rounds| - 1], s)
  {
    var n := |rounds| - 1;
    hide Settles, Cooperates, AfterRounds;
    assert forall i :: 0 <= i < n ==> rounds[..n][..i] == rounds[..i] && rounds[..n][i] == rounds[i];
  }

  lemma LastRound(c: Cluster, rounds: seq<Round>, s: Site)
    requires rounds != [] && Steady(c, rounds, s)
    ensures var n := |rounds| - 1;
      Settles(AfterRounds(c, rounds[..n]), rounds[n].settled, s) && Cooperates(rounds[n].plan, c.name, s)
  {
    hide Settles, Cooperates, AfterRounds;
  }

  lemma {:induction false} RoundsKeepGoing(c: Cluster, rounds: seq<Round>, s: Site)
    requires UnderWay(c, s) && Steady(c, rounds, s)
    ensures AfterRounds(c, rounds).name == c.name && UnderWay(AfterRounds(c, rounds), s)
    ensures EndsWith(s.ci, s.image, s.ready) ==>
      Phase(AfterRounds(c, rounds), s.labels) >= if |rounds| <= 3 then |rounds| else 3
  {
    hide Fits, Base, Settles, Cooperates, Phase, Reconcile, EndsWith, Steady;
    if rounds == [] {
      assert AfterRounds(c, rounds) == c;
    } else {
      var n := |rounds| - 1;
      ShorterIsSteady(c, rounds, s);
      LastRound(c, rounds, s);
      RoundsKeepGoing(c, rounds[..n], s);
      var before := AfterRounds(c, rounds[..n]);
      SettlingKeepsGoing(before, rounds[n].settled, s);
      ReconcileKeepsGoing(before.(world := rounds[n].settled), rounds[n].plan, s);
      PhaseIsAtMostThree(before, s.labels);
      if EndsWith(s.ci, s.image, s.ready) {
        ReconcileRaisesPhase(before.(world := rounds[n].settled), rounds[n].plan, s);
      }
    }
  }

  /** When the pods that get ready are those that the installation awaits, three rounds complete the migration:
      the Deployment is replaced, the Mattermost resource created, and the ClusterInstallation deleted. */
  lemma {:induction false} MigrationCompletesWithinThreeRounds(c: Cluster, rounds: seq<Round>, s: Site)
    requires UnderWay(c, s) && Steady(c, rounds, s) && |rounds| >= 3
    requires EndsWith(s.ci, s.image, s.ready)
    ensures AfterRounds(c, rounds).world.installation.None?
  {
    RoundsKeepGoing(c, rounds, s);
    PhaseIsAtMostThree(AfterRounds(c, rounds), s.labels);
  }

  // ---------- Rounds exist ----------

  function ReadyPods(n: nat, labels: Labels, image: string): seq<Pod> {
    if n == 0 then []
    else
      ReadyPods(n - 1, labels, image) +
      [Pod(labels, true, false, [Container(MATTERMOST_APP_CONTAINER, image, [], None, None)],
        [Condition(PodReady, true)])]
  }

  lemma {:induction false} ReadyPodsAreReady(n: nat, labels: Labels, image: string)
    ensures HasReady(ReadyPods(n, labels, image), labels, image, n)
  {
    if n > 0 {
      ReadyPodsAreReady(n - 1, labels, image);
      SelectsItself(labels);
      hide Selects;
      var pods := ReadyPods(n, labels, image);
      assert pods[..|pods| - 1] == ReadyPods(n - 1, labels, image);
      forall p | p in pods && Selects(labels, p.labels) ensures MainImage(p.containers) == Some(image) {
        assert p in ReadyPods(n - 1, labels, image) || p == pods[|pods| - 1];
      }
    }
  }

  /** The pods that get ready are ready at once. */
  ghost function PromptPods(name: string, deployments: map<string, Deployment>, s: Site): seq<Pod> {
    if IsMigrated(name, deployments, s.labels) then ReadyPods(s.ready, s.labels, s.image) else []
  }

  ghost function PromptMove(name: string, w: World, s: Site): World {
    w.(deployments := Collected(w.deployments), pods := PromptPods(name, Collected(w.deployments), s))
  }

  lemma PromptPodsAreMade(name: string, deployments: map<string, Deployment>, s: Site)
    requires s.ready <= s.count
    ensures Made(name, deployments, PromptPods(name, deployments, s), s)
    ensures IsMigrated(name, deployments, s.labels) ==>
      HasReady(PromptPods(name, deployments, s), s.labels, s.image, s.ready)
  {
    ReadyPodsAreReady(s.ready, s.labels, s.image);
    hide IsMigrated, ReadyPods;
  }

  lemma PromptMoveCooperates(name: string, w: World, s: Site)
    requires s.ready <= s.count && Solo(name, w.deployments, s)
    ensures Cooperative(w, PromptMove(name, w, s), name, s)
    ensures IsMigrated(name, w.deployments, s.labels) ==>
      HasReady(PromptMove(name, w, s).pods, s.labels, s.image, s.ready)
  {
    PromptPodsAreMade(name, Collected(w.deployments), s);
    SoloMigratedIff(name, w.deployments, s);
    assert Solo(name, Collected(w.deployments), s);
    SoloMigratedIff(name, Collected(w.deployments), s);
    hide IsMigrated, Made, HasReady, PromptPods, Selects;
  }

  lemma RoundExists(before: Cluster, s: Site) returns (round: Round)
    requires s.ready <= s.count
    ensures Settles(before, round.settled, s) && Cooperates(round.plan, before.name, s)
    ensures forall n, w :: round.plan.moves(n, w) == PromptMove(before.name, w, s)
  {
    var w := before.world;
    var stable := if w.mattermost.Some? then Some(w.mattermost.value.(state := Stable)) else None;
    PromptPodsAreMade(before.name, w.deployments, s);
    var plan := Plan((_: nat, w: World) => PromptMove(before.name, w, s), (_: nat) => true, (_: nat) => 0);
    round := Round(w.(pods := PromptPods(before.name, w.deployments, s), mattermost := stable), plan);
    hide IsMigrated, Made, HasReady, PromptPods, Cooperative, Solo, PromptMove;
    forall n, w: World | Solo(before.name, w.deployments, s) ensures Cooperative(w, plan.moves(n, w), before.name, s) {
      PromptMoveCooperates(before.name, w, s);
    }
  }

  // ---------- Rounds that complete nothing ----------

  /** Whenever the pods are looked at, they are not what is awaited. */
  ghost predicate Denies(plan: Plan, name: string, s: Site) {
    forall n, w: World :: Solo(name, w.deployments, s) && IsMigrated(name, w.deployments, s.labels) ==>
      !ReadyFor(plan.moves(n, w).pods, name, s.ci)
  }

  /** A reconcile that has neither created nor deleted anything but the Deployment, and is about to do neither. */
  ghost predicate Waiting(c: Cluster, s: Site) {
    && Base(c, s) && Fits(c.name, s)
    && c.world.installation == Some(s.ci) && c.world.mattermost.None?
    && (!c.pc.Idle? ==> c.pc.ci == s.ci)
    && !CleansUp(c.pc) && !c.pc.CreatingMattermost?
    && (HasMattermost(c.pc) ==> c.pc.mm == if c.pc.ListingMigrated? then s.mm else Labelled(c.name, s.mm))
    && (c.pc.CheckingPods? ==> IsMigrated(c.name, c.world.deployments, s.labels))
  }

  lemma CheckWaits(c: Cluster, s: Site)
    requires Waiting(c, s) && c.pc.CheckingDeployment?
    requires c.name in c.world.deployments ==> !c.world.deployments[c.name].deleting
    ensures Waiting(CheckDeployment(c, c.pc.ci, c.pc.mm), s)
  {
    FittingLabels(c.name, s);
    WantedTwice(c.name, s.mm);
    SoloMigratedIff(c.name, c.world.deployments, s);
    hide Convert, Labelled, Selects, Solo, DistinctUids, WantedLabels, NewLabels, AwaitedLabels, IsMigrated,
      V1alpha1.Convertible;
  }

  lemma ReplacingWaits(c: Cluster, polls: nat, s: Site)
    requires Waiting(c, s) && Replaces(c.pc) && Base(CallStep(c, true, polls), s)
    ensures Waiting(CallStep(c, true, polls), s)
  {
    hide PodsAreReady, Convert, Labelled, Relabelled, Base, Fits, WantedLabels, IsMigrated, Matching;
  }

  lemma CallWaits(c: Cluster, polls: nat, s: Site)
    requires Waiting(c, s) && Base(CallStep(c, true, polls), s)
    requires c.name in c.world.deployments && c.pc.CheckingDeployment? ==> !c.world.deployments[c.name].deleting
    requires c.pc.CheckingPods? ==> !PodsAreReady(c.world.pods, c.name, Labelled(c.name, s.mm))
    ensures Waiting(CallStep(c, true, polls), s)
  {
    if Replaces(c.pc) {
      ReplacingWaits(c, polls, s);
    } else if c.pc.CheckingDeployment? {
      CheckWaits(c, s);
    } else {
      assert Convert(s.ci, c.world.secrets) == Some(s.mm);
      hide PodsAreReady, Convert, Labelled, Relabelled, Selected, WithoutReplicaSet, HasReplicaSet, CleanupLabels,
        Selects, Matching, Base, Fits, WantedLabels, NewLabels, IsMigrated, V1alpha1.Convertible, CheckDeployment,
        GetOld, DeleteOld, AwaitDeletion, CreateNew;
    }
  }

  lemma ActWaits(c: Cluster, plan: Plan, n: nat, s: Site)
    requires Cooperates(plan, c.name, s) && Denies(plan, c.name, s) && Waiting(c, s) && !c.pc.Idle?
    ensures Waiting(Act(c, plan, n), s) && Act(c, plan, n).name == c.name
  {
    FittingLabels(c.name, s);
    Acts(c, plan, n, s);
    var moved := c.(world := plan.moves(n, c.world));
    if c.pc.CheckingPods? {
      assert !ReadyFor(moved.world.pods, c.name, s.ci);
      ReadyForConverted(moved.world.pods, c.name, s.ci, s.secrets);
    }
    hide CallStep, Cooperates, Denies, Solo, DistinctUids, IsMigrated, PodsAreReady, ReadyFor, Convert, Labelled, Made,
      HasReady, NewLabels, WantedLabels, AwaitedLabels, Tame, Collected, V1alpha1.Convertible;
    assert c.name in moved.world.deployments ==> !moved.world.deployments[c.name].deleting by {
      CollectedAreKept(c.world, moved.world, c.name, s);
    }
    CallWaits(moved, plan.polls(n), s);
  }

  lemma CollectedAreKept(before: World, after: World, name: string, s: Site)
    requires Cooperative(before, after, name, s)
    ensures name in after.deployments ==> !after.deployments[name].deleting
  {
    hide Made, HasReady, IsMigrated;
  }

  lemma {:induction false} RestWaits(c: Cluster, plan: Plan, n: nat, s: Site)
    requires Cooperates(plan, c.name, s) && Denies(plan, c.name, s) && Waiting(c, s)
    ensures Waiting(UntilIdle(c, plan, n), s) && UntilIdle(c, plan, n).pc.Idle? && UntilIdle(c, plan, n).name == c.name
    decreases Stage(c.pc), Repeats(c.pc)
  {
    hide CallStep, Cooperates, Denies, Waiting;
    if !c.pc.Idle? {
      ActWaits(c, plan, n, s);
      CallMakesProgress(c.(world := plan.moves(n, c.world)), plan.ok(n), plan.polls(n));
      RestWaits(Act(c, plan, n), plan, n + 1, s);
    }
  }

  /** One such round leaves the migration where it was, apart from the relabelled Deployment. */
  lemma RoundWaits(before: Cluster, round: Round, s: Site)
    requires UnderWay(before, s) && before.world.installation.Some? && before.world.mattermost.None?
    requires Settles(before, round.settled, s) && Cooperates(round.plan, before.name, s) &&
      Denies(round.plan, before.name, s)
    ensures var result := Reconcile(before.(world := round.settled), round.plan);
      result.world.installation.Some? && result.world.mattermost.None?
  {
    SettlingKeepsGoing(before, round.settled, s);
    var c := before.(world := round.settled);
    Loads(c, s.ci);
    hide Load, Cooperates, Denies, IsMigrated, Solo, DistinctUids, Convert, AwaitedLabels, Settled, Migrates, Labelled;
    RestWaits(Load(c), round.plan, 0, s);
  }

  /** In every round the pods are denied. */
  ghost predicate AllDeny(rounds: seq<Round>, name: string, s: Site) {
    forall i :: 0 <= i < |rounds| ==> Denies(rounds[i].plan, name, s)
  }

  lemma {:induction false} RoundsWait(c: Cluster, rounds: seq<Round>, s: Site)
    requires UnderWay(c, s) && c.world.installation.Some? && c.world.mattermost.None?
    requires Steady(c, rounds, s) && AllDeny(rounds, c.name, s)
    ensures AfterRounds(c, rounds).world.installation.Some? && AfterRounds(c, rounds).world.mattermost.None?
  {
    hide UnderWay, Settles, Cooperates, Denies, Reconcile, Steady;
    if rounds == [] {
      assert AfterRounds(c, rounds) == c;
    } else {
      var n := |rounds| - 1;
      ShorterIsSteady(c, rounds, s);
      LastRound(c, rounds, s);
      RoundsWait(c, rounds[..n], s);
      RoundsKeepGoing(c, rounds[..n], s);
      var before := AfterRounds(c, rounds[..n]);
      assert before.pc.Idle? by { UnderWayIsIdle(before, s); }
      RoundWaits(before, rounds[n], s);
    }
  }

  lemma UnderWayIsIdle(c: Cluster, s: Site)
    requires UnderWay(c, s)
    ensures c.pc.Idle?
  {
  }

  lemma PromptlyDenies(plan: Plan, name: string, s: Site)
    requires Fits(name, s) && !EndsWith(s.ci, s.image, s.ready)
    requires forall n, w :: plan.moves(n, w) == PromptMove(name, w, s)
    ensures Denies(plan, name, s)
  {
    hide IsMigrated, ReadyFor, HasReady, PromptMove, Solo, EndsWith, Migrates, Convert, AwaitedLabels, Cooperative;
    forall n, w: World | Solo(name, w.deployments, s) && IsMigrated(name, w.deployments, s.labels)
      ensures !ReadyFor(plan.moves(n, w).pods, name, s.ci)
    {
      PromptMoveCooperates(name, w, s);
      ReadyPodsEndIff(PromptMove(name, w, s).pods, name, s.ci, s.image, s.ready);
    }
  }

  /** Any number of rounds can follow; when the pods that get ready are not what is awaited, rounds that complete
      nothing. */
  lemma {:induction false} RoundsExist(c: Cluster, n: nat, s: Site) returns (rounds: seq<Round>)
    requires UnderWay(c, s)
    ensures |rounds| == n && Steady(c, rounds, s)
    ensures !EndsWith(s.ci, s.image, s.ready) ==> AllDeny(rounds, c.name, s)
  {
    rounds := [];
    if n > 0 {
      rounds := RoundsExist(c, n - 1, s);
      RoundsKeepGoing(c, rounds, s);
      hide Convert, Steady, Settles, Cooperates, AfterRounds, Base, EndsWith, Denies, Migrates, AwaitedLabels;
      var round := RoundExists(AfterRounds(c, rounds), s);
      if !EndsWith(s.ci, s.image, s.ready) {
        PromptlyDenies(round.plan, c.name, s);
      }
      SteadyExtends(c, rounds, round, s);
      rounds := rounds + [round];
    }
  }

  lemma SteadyExtends(c: Cluster, rounds: seq<Round>, round: Round, s: Site)
    requires Steady(c, rounds, s)
    requires Settles(AfterRounds(c, rounds), round.settled, s) && Cooperates(round.plan, c.name, s)
    ensures Steady(c, rounds + [round], s)
  {
    hide Settles, Cooperates, AfterRounds;
    var longer := rounds + [round];
    forall i | 0 <= i < |longer|
      ensures Settles(AfterRounds(c, longer[..i]), longer[i].settled, s) && Cooperates(longer[i].plan, c.name, s)
    {
      assert longer[..i] == rounds[..i];
      if i == |rounds| {
        assert rounds[..i] == rounds;
      }
    }
  }

  // ---------- When the migration completes ----------

  ghost predicate Completes(c: Cluster, rounds: seq<Round>) {
    AfterRounds(c, rounds).world.installation.None?
  }

  /** Three rounds complete the migration in every such schedule exactly when the pods that get ready are those that
      the edited installation awaits. */
  lemma {:induction false} MigrationCompletesIff(c: Cluster, s: Site)
    requires UnderWay(c, s) && c.world.installation.Some? && c.world.mattermost.None?
    ensures (forall rounds :: Steady(c, rounds, s) && |rounds| >= 3 ==> Completes(c, rounds)) <==>
      EndsWith(s.ci, s.image, s.ready)
  {
    hide UnderWay, Steady, AfterRounds, EndsWith, AllDeny;
    if EndsWith(s.ci, s.image, s.ready) {
      forall rounds | Steady(c, rounds, s) && |rounds| >= 3 ensures Completes(c, rounds) {
        MigrationCompletesWithinThreeRounds(c, rounds, s);
      }
    } else {
      var rounds := RoundsExist(c, 3, s);
      RoundsWait(c, rounds, s);
      assert !Completes(c, rounds);
    }
  }

  lemma CooperationDenies(plan: Plan, name: string, s: Site)
    requires Cooperates(plan, name, s) && Fits(name, s) && !CanEnd(s.ci, s.image, s.count)
    ensures Denies(plan, name, s)
  {
    hide IsMigrated, ReadyFor, HasReady, Solo, CanEnd, Migrates, Convert, AwaitedLabels, MadeOf;
    forall n, w: World | Solo(name, w.deployments, s) && IsMigrated(name, w.deployments, s.labels)
      ensures !ReadyFor(plan.moves(n, w).pods, name, s.ci)
    {
      PodsCannotEnd(plan.moves(n, w).pods, name, s.ci, s.image, s.count);
    }
  }

  /** With some number of its pods ready. */
  ghost predicate CompletesWith(c: Cluster, s: Site, ready: nat, rounds: seq<Round>) {
    ready <= s.count && Steady(c, rounds, s.(ready := ready)) && Completes(c, rounds)
  }

  lemma OtherReadiness(c: Cluster, s: Site, ready: nat)
    requires UnderWay(c, s) && ready <= s.count
    ensures UnderWay(c, s.(ready := ready))
  {
    hide Convert, AwaitedLabels, Migrates, DistinctUids;
  }

  /** Some schedule of a rollout completes the migration exactly when the installation awaits no more pods than the
      Deployment asks for, or no pods of another image. */
  lemma {:induction false} MigrationCanCompleteIff(c: Cluster, s: Site)
    requires UnderWay(c, s) && c.world.installation.Some? && c.world.mattermost.None?
    ensures (exists ready, rounds :: CompletesWith(c, s, ready, rounds)) <==> CanEnd(s.ci, s.image, s.count)
  {
    hide UnderWay, Steady, AfterRounds, EndsWith, CanEnd, AllDeny;
    CanEndIff(s.ci, s.image, s.count);
    if CanEnd(s.ci, s.image, s.count) {
      var ready :| 0 <= ready <= s.count && EndsWith(s.ci, s.image, ready);
      OtherReadiness(c, s, ready);
      var rounds := RoundsExist(c, 3, s.(ready := ready));
      MigrationCompletesWithinThreeRounds(c, rounds, s.(ready := ready));
      assert CompletesWith(c, s, ready, rounds);
    } else {
      forall ready, rounds ensures !CompletesWith(c, s, ready, rounds) {
        if CompletesWith(c, s, ready, rounds) {
          OtherReadiness(c, s, ready);
          SteadyRoundsDeny(c, rounds, s.(ready := ready));
          RoundsWait(c, rounds, s.(ready := ready));
        }
      }
    }
  }

  lemma SteadyRoundsDeny(c: Cluster, rounds: seq<Round>, s: Site)
    requires UnderWay(c, s) && Steady(c, rounds, s) && !CanEnd(s.ci, s.image, s.count)
    ensures AllDeny(rounds, c.name, s)
  {
    hide Settles, Cooperates, Denies, CanEnd, AfterRounds, Fits, Base;
    forall i | 0 <= i < |rounds| ensures Denies(rounds[i].plan, c.name, s) {
      CooperationDenies(rounds[i].plan, c.name, s);
    }
  }
}
