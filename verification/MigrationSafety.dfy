/** What every run of the migration keeps, whatever the world does between two calls. */
module MigrationSafety {
  import opened Kube
  import opened LabelMaps
  import opened Conversion
  import opened Migration
  import V1alpha1
  import V1beta1

  // ---------- What one reconcile has seen ----------

  /** Facts that the worker read during its reconcile. */
  datatype Fact =
    | NoMattermost
    | ConvertedTo(ci: V1alpha1.Spec, mm: V1beta1.Spec)
    | DeploymentListed(mm: V1beta1.Spec)
    | PodsCounted(mm: V1beta1.Spec)
    | MattermostStable

  ghost predicate Holds(c: Cluster, fact: Fact) {
    match fact
    case NoMattermost => c.world.mattermost.None?
    case ConvertedTo(ci, mm) =>
      var converted := Convert(ci, c.world.secrets);
      converted.Some? && (mm == converted.value || mm == Labelled(c.name, converted.value))
    case DeploymentListed(mm) =>
      c.name in c.world.deployments && Selects(WantedLabels(c.name, mm), c.world.deployments[c.name].labels)
    case PodsCounted(mm) => PodsAreReady(c.world.pods, c.name, mm)
    case MattermostStable => c.world.mattermost.Some? && c.world.mattermost.value.state == Stable
  }

  predicate CleansUp(pc: Pc) {
    pc.ListingReplicaSets? || pc.DeletingReplicaSets? || pc.DeletingInstallation?
  }

  predicate HasMattermost(pc: Pc) {
    !pc.Idle? && !pc.ReadingMattermost? && !pc.Converting? && !CleansUp(pc)
  }

  /** What the worker must have read to stand at `pc`. */
  ghost predicate Needs(name: string, pc: Pc, fact: Fact) {
    match fact
    case NoMattermost => !pc.Idle? && !pc.ReadingMattermost? && !CleansUp(pc)
    case ConvertedTo(ci, mm) =>
      HasMattermost(pc) && ci == pc.ci && (mm == pc.mm || (pc.ListingMigrated? && mm == Labelled(name, pc.mm)))
    case DeploymentListed(mm) => (pc.CheckingPods? || pc.CreatingMattermost?) && mm == pc.mm
    case PodsCounted(mm) => pc.CreatingMattermost? && mm == pc.mm
    case MattermostStable => CleansUp(pc)
  }

  /** Each call of a reconcile either keeps what the worker knew or reads it from the cluster. */
  lemma CallReadsWhatItNeeds(c: Cluster, ok: bool, polls: nat, fact: Fact)
    requires !c.pc.Idle? && Needs(c.name, CallStep(c, ok, polls).pc, fact)
    ensures Needs(c.name, c.pc, fact) || Holds(c, fact)
  {
    hide PodsAreReady, Convert, WantedLabels, Labelled, Relabelled, Selected, WithoutReplicaSet, HasReplicaSet,
      CleanupLabels, Selects;
    match c.pc
    case Converting(_) =>
    case ListingMigrated(_, _) =>
    case CheckingDeployment(_, _) =>
    case _ =>
  }

  /** The reconcile in progress started at `start`, by loading `ci`. */
  ghost predicate StartedAt(c: Cluster, events: seq<Event>, start: nat, ci: V1alpha1.Spec) {
    && start < |events|
    && Run(c, events[..start]).pc.Idle?
    && Run(c, events[..start]).world.installation == Some(ci)
    && Migrates(ci)
    && BusySince(c, events, start)
  }

  ghost predicate BusySince(c: Cluster, events: seq<Event>, start: nat) {
    forall k :: start < k <= |events| ==> !Run(c, events[..k]).pc.Idle?
  }

  /** The fact held at some moment since `start`. */
  ghost predicate Seen(c: Cluster, events: seq<Event>, start: nat, fact: Fact) {
    exists j :: start < j < |events| && Holds(Run(c, events[..j]), fact)
  }

  /** The first fact held at a moment since `start`, and the second at a later one. */
  ghost predicate SeenInOrder(c: Cluster, events: seq<Event>, start: nat, first: Fact, second: Fact) {
    exists j, k :: start < j < k < |events| && HeldAt(Run(c, events[..j]), Run(c, events[..k]), first, second)
  }

  ghost predicate HeldAt(one: Cluster, other: Cluster, first: Fact, second: Fact) {
    Holds(one, first) && Holds(other, second)
  }

  lemma SeenInOrderLater(c: Cluster, events: seq<Event>, start: nat, first: Fact, second: Fact)
    requires events != [] && SeenInOrder(c, events[..|events| - 1], start, first, second)
    ensures SeenInOrder(c, events, start, first, second)
  {
    var before := events[..|events| - 1];
    hide HeldAt, Run;
    var j, k :| start < j < k < |before| && HeldAt(Run(c, before[..j]), Run(c, before[..k]), first, second);
    assert before[..j] == events[..j] && before[..k] == events[..k];
  }

  lemma SeenThenNow(c: Cluster, events: seq<Event>, start: nat, first: Fact, second: Fact)
    requires events != [] && Seen(c, events[..|events| - 1], start, first)
    requires Holds(Run(c, events[..|events| - 1]), second)
    ensures SeenInOrder(c, events, start, first, second)
  {
    var before := events[..|events| - 1];
    hide Holds, Run;
    var j :| start < j < |before| && Holds(Run(c, before[..j]), first);
    assert before[..j] == events[..j];
    assert HeldAt(Run(c, events[..j]), Run(c, events[..|before|]), first, second);
  }

  lemma SeenLater(c: Cluster, events: seq<Event>, start: nat, fact: Fact)
    requires events != [] && Seen(c, events[..|events| - 1], start, fact)
    ensures Seen(c, events, start, fact)
  {
    var before := events[..|events| - 1];
    var j :| start < j < |before| && Holds(Run(c, before[..j]), fact);
    assert before[..j] == events[..j];
  }

  lemma {:induction false} StartedLater(c: Cluster, events: seq<Event>, start: nat, ci: V1alpha1.Spec)
    requires events != [] && StartedAt(c, events[..|events| - 1], start, ci)
    requires !Run(c, events).pc.Idle?
    ensures StartedAt(c, events, start, ci)
  {
    var before := events[..|events| - 1];
    assert forall k :: 0 <= k <= |before| ==> before[..k] == events[..k];
    assert events[..|events|] == events;
    hide Step, Holds, V1alpha1.Convertible;
    assert Run(c, events[..start]) == Run(c, before[..start]);
    forall k | start < k <= |events| ensures !Run(c, events[..k]).pc.Idle? {
      if k <= |before| {
        assert Run(c, events[..k]) == Run(c, before[..k]);
      }
    }
  }

  lemma {:induction false} NameStays(c: Cluster, events: seq<Event>)
    ensures Run(c, events).name == c.name
  {
    hide Labelled, Relabelled, WantedLabels, Convert, PodsAreReady, Matching, Selected, WithoutReplicaSet,
      HasReplicaSet, CleanupLabels;
    if events != [] {
      NameStays(c, events[..|events| - 1]);
    }
  }

  /** Wherever the worker stands, its reconcile has a start, and it saw since then all that it needs. */
  lemma {:induction false} WorkerIsJustified(c: Cluster, events: seq<Event>) returns (start: nat)
    requires c.pc.Idle?
    requires !Run(c, events).pc.Idle?
    ensures StartedAt(c, events, start, Run(c, events).pc.ci)
    ensures forall fact :: Needs(c.name, Run(c, events).pc, fact) ==> Seen(c, events, start, fact)
    ensures Run(c, events).pc.CreatingMattermost? ==>
      SeenInOrder(c, events, start, DeploymentListed(Run(c, events).pc.mm), PodsCounted(Run(c, events).pc.mm))
  {
    hide CallStep, Needs, Holds, Seen, SeenInOrder, StartedAt;
    var n := |events| - 1;
    var before := Run(c, events[..n]);
    NameStays(c, events[..n]);
    if before.pc.Idle? {
      start := n;
      JustLoaded(c, events);
    } else {
      start := WorkerIsJustified(c, events[..n]);
      var now := Run(c, events);
      assert now.pc.ci == before.pc.ci && forall fact :: Needs(c.name, now.pc, fact) ==>
        Needs(c.name, before.pc, fact) || (Holds(before, fact) && events[n].Call?) by {
        if events[n].Call? {
          assert now == CallStep(before, events[n].ok, events[n].polls);
          forall fact | Needs(c.name, now.pc, fact) ensures Needs(c.name, before.pc, fact) || Holds(before, fact) {
            CallReadsWhatItNeeds(before, events[n].ok, events[n].polls, fact);
          }
          KeepsCi(before, events[n].ok, events[n].polls);
        }
      }
      StartedLater(c, events, start, now.pc.ci);
      forall fact | Needs(c.name, now.pc, fact) ensures Seen(c, events, start, fact) {
        if Needs(c.name, before.pc, fact) {
          SeenLater(c, events, start, fact);
        } else {
          SeenNow(c, events, start, now.pc.ci, fact);
        }
      }
      if now.pc.CreatingMattermost? {
        DeploymentIsListedFirst(before, events[n]);
        var mm := now.pc.mm;
        if before.pc.CreatingMattermost? {
          SeenInOrderLater(c, events, start, DeploymentListed(mm), PodsCounted(mm));
        } else {
          assert Seen(c, events[..n], start, DeploymentListed(mm));
          SeenThenNow(c, events, start, DeploymentListed(mm), PodsCounted(mm));
        }
      }
    }
  }

  /** The worker comes to the creation only from the count of the pods, with the Deployment listed before. */
  lemma DeploymentIsListedFirst(c: Cluster, e: Event)
    requires !c.pc.Idle? && Step(c, e).pc.CreatingMattermost?
    ensures var mm := Step(c, e).pc.mm;
      if c.pc.CreatingMattermost? then c.pc.mm == mm
      else Needs(c.name, c.pc, DeploymentListed(mm)) && Holds(c, PodsCounted(mm))
  {
    hide PodsAreReady, Convert, WantedLabels, Labelled, Relabelled, Selected, WithoutReplicaSet, HasReplicaSet,
      CleanupLabels, Selects, Matching;
  }

  lemma KeepsCi(c: Cluster, ok: bool, polls: nat)
    requires !c.pc.Idle? && !CallStep(c, ok, polls).pc.Idle?
    ensures CallStep(c, ok, polls).pc.ci == c.pc.ci
  {
    hide PodsAreReady, Convert, WantedLabels, Labelled, Relabelled, Selected, WithoutReplicaSet, HasReplicaSet,
      CleanupLabels, Selects;
  }

  lemma SeenNow(c: Cluster, events: seq<Event>, start: nat, ci: V1alpha1.Spec, fact: Fact)
    requires events != [] && StartedAt(c, events[..|events| - 1], start, ci)
    requires Holds(Run(c, events[..|events| - 1]), fact)
    ensures Seen(c, events, start, fact)
  {
    hide Step, Holds;
    var n := |events| - 1;
    assert start < n;
    assert Holds(Run(c, events[..n]), fact);
  }

  lemma {:induction false} JustLoaded(c: Cluster, events: seq<Event>)
    requires events != [] && Run(c, events[..|events| - 1]).pc.Idle? && !Run(c, events).pc.Idle?
    ensures StartedAt(c, events, |events| - 1, Run(c, events).pc.ci)
    ensures Run(c, events).pc.ReadingMattermost?
    ensures forall fact :: !Needs(c.name, Run(c, events).pc, fact)
  {
    hide V1alpha1.Convertible;
    assert events[..|events|] == events;
  }

  // ---------- Safety over every run ----------

  /** The Mattermost resource is created only by a reconcile of a migrating installation without BlueGreen
      or Canary that found no such resource, converted what it had loaded, saw the relabelled Deployment, and
      at a later moment exactly its wanted pods updated and ready. */
  lemma MattermostCreatedAfterPodsWereReady(c: Cluster, events: seq<Event>, ok: bool, polls: nat)
    requires c.pc.Idle?
    requires Run(c, events).world.mattermost.None?
    requires CallStep(Run(c, events), ok, polls).world.mattermost.Some?
    ensures exists start, ci, mm ::
      && StartedAt(c, events, start, ci)
      && Seen(c, events, start, NoMattermost)
      && Seen(c, events, start, ConvertedTo(ci, mm))
      && SeenInOrder(c, events, start, DeploymentListed(mm), PodsCounted(mm))
      && CallStep(Run(c, events), ok, polls).world.mattermost == Some(Mattermost(mm, Unset))
  {
    var now := Run(c, events);
    OnlyCreatingMattermostAddsIt(now, ok, polls);
    var start := WorkerIsJustified(c, events);
    hide CallStep, StartedAt, Seen, SeenInOrder, Run;
    var ci, mm := now.pc.ci, now.pc.mm;
    assert Needs(c.name, now.pc, NoMattermost) && Needs(c.name, now.pc, ConvertedTo(ci, mm));
  }

  lemma OnlyCreatingMattermostAddsIt(c: Cluster, ok: bool, polls: nat)
    requires c.world.mattermost.None? && CallStep(c, ok, polls).world.mattermost.Some?
    ensures c.pc.CreatingMattermost? && CallStep(c, ok, polls).world.mattermost == Some(Mattermost(c.pc.mm, Unset))
  {
    hide PodsAreReady, Convert, WantedLabels, Labelled, Relabelled, Selected, WithoutReplicaSet, HasReplicaSet,
      CleanupLabels, Selects, Matching;
  }

  /** The ClusterInstallation is deleted only by a reconcile that read the Mattermost resource as Stable. */
  lemma InstallationDeletedAfterStable(c: Cluster, events: seq<Event>, ok: bool, polls: nat)
    requires c.pc.Idle?
    requires Run(c, events).world.installation.Some?
    requires CallStep(Run(c, events), ok, polls).world.installation.None?
    ensures exists start, ci :: StartedAt(c, events, start, ci) && Seen(c, events, start, MattermostStable)
  {
    var now := Run(c, events);
    OnlyDeletingInstallationRemovesIt(now, ok, polls);
    var start := WorkerIsJustified(c, events);
    hide CallStep, StartedAt, Seen, Run;
    assert Needs(c.name, now.pc, MattermostStable);
  }

  lemma OnlyDeletingInstallationRemovesIt(c: Cluster, ok: bool, polls: nat)
    requires c.world.installation.Some? && CallStep(c, ok, polls).world.installation.None?
    ensures c.pc.DeletingInstallation?
  {
    hide PodsAreReady, Convert, WantedLabels, Labelled, Relabelled, Selected, WithoutReplicaSet, HasReplicaSet,
      CleanupLabels, Selects, Matching;
  }

  lemma OnlyDeletingReplicaSetsRemovesThem(c: Cluster, ok: bool, polls: nat)
    requires CallStep(c, ok, polls).world.replicaSets != c.world.replicaSets
    ensures c.pc.DeletingReplicaSets?
  {
    hide PodsAreReady, Convert, WantedLabels, Labelled, Relabelled, Selected, WithoutReplicaSet, HasReplicaSet,
      CleanupLabels, Selects, Matching;
  }

  /** Old ReplicaSets go only once the Mattermost resource was read as Stable, too. */
  lemma {:induction false} ReplicaSetsDeletedAfterStable(c: Cluster, events: seq<Event>, ok: bool, polls: nat)
    requires c.pc.Idle?
    requires CallStep(Run(c, events), ok, polls).world.replicaSets != Run(c, events).world.replicaSets
    ensures exists start, ci :: StartedAt(c, events, start, ci) && Seen(c, events, start, MattermostStable)
  {
    var now := Run(c, events);
    OnlyDeletingReplicaSetsRemovesThem(now, ok, polls);
    var start := WorkerIsJustified(c, events);
    hide CallStep, StartedAt, Seen, Run;
    assert Needs(c.name, now.pc, MattermostStable);
  }

  /** No call creates or deletes anything unless its reconcile loaded an installation that migrates, with
      neither BlueGreen nor Canary. */
  lemma NothingIsTouchedUnlessConvertible(c: Cluster, events: seq<Event>, ok: bool, polls: nat)
    requires c.pc.Idle?
    requires CallStep(Run(c, events), ok, polls).world != Run(c, events).world
    ensures exists start, ci ::
      StartedAt(c, events, start, ci) && !ci.blueGreen.enable && !ci.canary.enable && ci.migrate
  {
    var now := Run(c, events);
    assert !now.pc.Idle?;
    var start := WorkerIsJustified(c, events);
  }

  // ---------- The order of the phases ----------

  /** The one Deployment with the wanted labels is the installation's own. */
  ghost predicate IsMigrated(name: string, deployments: map<string, Deployment>, labels: Labels) {
    Matching(deployments, labels) == {name} && !deployments[name].deleting
  }

  /** 0: old or no Deployment. 1: relabelled. 2: Mattermost resource created. 3: ClusterInstallation gone. */
  ghost function Phase(c: Cluster, labels: Labels): nat {
    if c.world.installation.None? then 3
    else if c.world.mattermost.Some? then 2
    else if IsMigrated(c.name, c.world.deployments, labels) then 1
    else 0
  }

  /** A world move that leaves the migration alone: the resources stay, the resource labels of the
      installation stay, and the set of Deployments that count as migrated stays. */
  ghost predicate Tame(before: World, after: World, name: string, labels: Labels) {
    && (before.installation.None? <==> after.installation.None?)
    && (after.installation.Some? ==> NewLabels(name, OrEmpty(after.installation.value.resourceLabels)) == labels)
    && (before.mattermost.Some? <==> after.mattermost.Some?)
    && (IsMigrated(name, before.deployments, labels) <==> IsMigrated(name, after.deployments, labels))
  }

  ghost predicate TameRun(c: Cluster, events: seq<Event>, labels: Labels) {
    forall k :: 0 <= k < |events| && events[k].Move? ==>
      Tame(Run(c, events[..k]).world, events[k].world, c.name, labels)
  }

  /** While the worker replaces the Deployment it is not migrated yet, and its copies carry the labels. */
  ghost predicate InPhase(c: Cluster, labels: Labels) {
    && (c.world.installation.Some? ==> NewLabels(c.name, OrEmpty(c.world.installation.value.resourceLabels)) == labels)
    && (!c.pc.Idle? ==> NewLabels(c.name, OrEmpty(c.pc.ci.resourceLabels)) == labels)
    && (HasMattermost(c.pc) ==> WantedLabels(c.name, c.pc.mm) == labels)
    && (CleansUp(c.pc) ==> c.world.mattermost.Some?)
    && (Replaces(c.pc) ==> !IsMigrated(c.name, c.world.deployments, labels))
  }

  predicate Replaces(pc: Pc) {
    pc.GettingOld? || pc.DeletingOld? || pc.AwaitingDeletion? || pc.CreatingNew?
  }

  lemma WantedTwice(name: string, mm: V1beta1.Spec)
    ensures WantedLabels(name, Labelled(name, mm)) == WantedLabels(name, mm)
  {}

  lemma ConvertKeepsLabels(ci: V1alpha1.Spec, secrets: Secrets)
    ensures Convert(ci, secrets).Some? ==> Convert(ci, secrets).value.resourceLabels == ci.resourceLabels
  {}

  lemma ListingStaysInPhase(c: Cluster, labels: Labels)
    requires InPhase(c, labels) && c.pc.ListingMigrated?
    ensures InPhase(ListMigrated(c, c.pc.ci, c.pc.mm), labels)
  {
    WantedTwice(c.name, c.pc.mm);
    hide Labelled, WantedLabels, Selects, NewLabels;
  }

  lemma CallStaysInPhase(c: Cluster, ok: bool, polls: nat, labels: Labels)
    requires InPhase(c, labels)
    ensures InPhase(CallStep(c, ok, polls), labels)
  {
    hide PodsAreReady, Convert, Relabelled, Selected, WithoutReplicaSet, HasReplicaSet, CleanupLabels, Selects,
      NewLabels, Labelled, ListMigrated, Matching, IsMigrated, WantedLabels;
    match c.pc
    case Converting(ci) =>
      ConvertKeepsLabels(ci, c.world.secrets);
      assert ok && Convert(ci, c.world.secrets).Some? ==>
        WantedLabels(c.name, Convert(ci, c.world.secrets).value) == labels by {
        WantedAfterConvert(c.name, ci, c.world.secrets);
      }
    case ListingMigrated(_, _) =>
      if ok {
        ListingStaysInPhase(c, labels);
      }
    case DeletingOld(_, _, _) =>
      if c.name in c.world.deployments {
        MarkingKeepsOut(c, labels);
      }
    case CreatingNew(_, _, _) =>
    case _ =>
  }

  lemma WantedAfterConvert(name: string, ci: V1alpha1.Spec, secrets: Secrets)
    ensures Convert(ci, secrets).Some? ==>
      WantedLabels(name, Convert(ci, secrets).value) == NewLabels(name, OrEmpty(ci.resourceLabels))
  {
    ConvertKeepsLabels(ci, secrets);
  }

  /** Every call keeps the order of the phases, and none touches the Deployments once they are migrated. */
  lemma CallKeepsPhase(c: Cluster, ok: bool, polls: nat, labels: Labels)
    requires InPhase(c, labels)
    ensures InPhase(CallStep(c, ok, polls), labels)
    ensures Phase(CallStep(c, ok, polls), labels) >= Phase(c, labels)
    ensures IsMigrated(c.name, c.world.deployments, labels) ==>
      CallStep(c, ok, polls).world.deployments == c.world.deployments
  {
    CallStaysInPhase(c, ok, polls, labels);
    hide PodsAreReady, Convert, Relabelled, Selected, WithoutReplicaSet, HasReplicaSet, CleanupLabels, Selects,
      NewLabels, Labelled, Matching, WantedLabels, IsMigrated;
    match c.pc
    case DeletingOld(_, _, _) =>
    case CreatingNew(_, _, _) =>
    case _ =>
  }

  lemma MarkingKeepsOut(c: Cluster, labels: Labels)
    requires c.name in c.world.deployments
    ensures var marked := c.world.deployments[c.name := c.world.deployments[c.name].(deleting := true)];
      !IsMigrated(c.name, marked, labels)
  {}

  /** In a run that the world leaves alone apart from failures, crashes and pods, the phases follow in order,
      and a Deployment that is migrated stays so: no retry deletes it again. */
  lemma {:induction false} PhaseNeverGoesBack(c: Cluster, events: seq<Event>, labels: Labels)
    requires c.pc.Idle? && InPhase(c, labels) && TameRun(c, events, labels)
    ensures InPhase(Run(c, events), labels)
    ensures Phase(Run(c, events), labels) >= Phase(c, labels)
    ensures IsMigrated(c.name, c.world.deployments, labels) ==>
      IsMigrated(c.name, Run(c, events).world.deployments, labels)
    ensures Run(c, events).name == c.name
  {
    hide CallStep, IsMigrated, NewLabels, WantedLabels, Tame, Run;
    if events == [] {
      assert Run(c, events) == c by { EmptyRun(c); }
    } else {
      var n := |events| - 1;
      var before := Run(c, events[..n]);
      assert TameRun(c, events[..n], labels) by {
        assert forall k :: 0 <= k < n ==> events[..n][..k] == events[..k];
      }
      PhaseNeverGoesBack(c, events[..n], labels);
      NameStays(c, events);
      assert Run(c, events) == Step(before, events[n]) by { LastStep(c, events); }
      match events[n]
      case Call(ok, polls) => CallKeepsPhase(before, ok, polls, labels);
      case Crash =>
      case Move(world) =>
        assert Tame(before.world, world, c.name, labels);
        TameKeepsPhase(before, world, labels);
    }
  }

  lemma EmptyRun(c: Cluster)
    ensures Run(c, []) == c
  {}

  lemma LastStep(c: Cluster, events: seq<Event>)
    requires events != []
    ensures Run(c, events) == Step(Run(c, events[..|events| - 1]), events[|events| - 1])
  {}

  lemma TameKeepsPhase(c: Cluster, world: World, labels: Labels)
    requires InPhase(c, labels) && Tame(c.world, world, c.name, labels)
    ensures InPhase(c.(world := world), labels)
    ensures Phase(c.(world := world), labels) >= Phase(c, labels)
    ensures IsMigrated(c.name, c.world.deployments, labels) ==> IsMigrated(c.name, world.deployments, labels)
  {
    hide IsMigrated, NewLabels, WantedLabels;
  }
}
