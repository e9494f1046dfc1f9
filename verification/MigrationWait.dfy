/** The wait of the migration for the pods of the relabelled Deployment, and whether it can end. */
module MigrationWait {
  import opened Kube
  import opened LabelMaps
  import opened Conversion
  import opened Migration
  import opened MigrationSafety
  import opened Sizes
  import V1alpha1
  import V1beta1

  // ---------- Pods of one Deployment ----------

  ghost predicate RunImage(pods: seq<Pod>, labels: Labels, image: string) {
    forall p :: p in pods && Selects(labels, p.labels) ==> MainImage(p.containers) == Some(image)
  }

  /** The selected pods come from a Deployment of this image that asks for so many pods: some of them are ready. */
  ghost predicate MadeOf(pods: seq<Pod>, labels: Labels, image: string, count: int) {
    RunImage(pods, labels, image) && CountUpdated(pods, labels, image) <= count
  }

  /** Exactly so many of its pods are ready. */
  ghost predicate HasReady(pods: seq<Pod>, labels: Labels, image: string, ready: int) {
    RunImage(pods, labels, image) && CountUpdated(pods, labels, image) == ready
  }

  lemma {:induction false} OtherImageCountsNone(pods: seq<Pod>, labels: Labels, image: string, other: string)
    requires image != other && RunImage(pods, labels, image)
    ensures CountUpdated(pods, labels, other) == 0
  {
    hide Selects, IsReady;
    if pods != [] {
      OtherImageCountsNone(pods[..|pods| - 1], labels, image, other);
      assert pods[|pods| - 1] in pods;
    }
  }

  // ---------- What is awaited ----------

  function AwaitedImage(ci: V1alpha1.Spec): string {
    ImageReference(ci.image, ci.version)
  }

  function AwaitedLabels(name: string, ci: V1alpha1.Spec): Labels {
    NewLabels(name, OrEmpty(ci.resourceLabels))
  }

  /** The wait is over. */
  predicate ReadyFor(pods: seq<Pod>, name: string, ci: V1alpha1.Spec) {
    CountUpdated(pods, AwaitedLabels(name, ci), AwaitedImage(ci)) == AwaitedPods(ci)
  }

  /** It is so for the converted spec, before and after the labels are filled into it, whatever the secrets. */
  lemma ReadyForConverted(pods: seq<Pod>, name: string, ci: V1alpha1.Spec, secrets: Secrets)
    requires Convert(ci, secrets).Some?
    ensures var mm := Convert(ci, secrets).value;
      && PodsAreReady(pods, name, mm) == ReadyFor(pods, name, ci)
      && PodsAreReady(pods, name, Labelled(name, mm)) == ReadyFor(pods, name, ci)
      && WantedLabels(name, mm) == AwaitedLabels(name, ci)
  {
    WantedTwice(name, Convert(ci, secrets).value);
    hide CountUpdated, NewLabels;
  }

  /** With so many ready pods of the image, the wait ends exactly for a spec that names the image and as many
      pods, or another image and no pods. */
  predicate EndsWith(ci: V1alpha1.Spec, image: string, ready: int) {
    AwaitedPods(ci) == if AwaitedImage(ci) == image then ready else 0
  }

  /** Some moment of the rollout can end it. */
  predicate CanEnd(ci: V1alpha1.Spec, image: string, count: int) {
    if AwaitedImage(ci) == image then AwaitedPods(ci) <= count else AwaitedPods(ci) == 0
  }

  lemma CanEndIff(ci: V1alpha1.Spec, image: string, count: int)
    requires count >= 0
    ensures CanEnd(ci, image, count) <==> exists ready :: 0 <= ready <= count && EndsWith(ci, image, ready)
  {
    hide ImageReference;
    if CanEnd(ci, image, count) {
      assert EndsWith(ci, image, if AwaitedImage(ci) == image then AwaitedPods(ci) else 0);
    }
  }

  lemma {:induction false} ReadyPodsEndIff(pods: seq<Pod>, name: string, ci: V1alpha1.Spec, image: string, ready: int)
    requires HasReady(pods, AwaitedLabels(name, ci), image, ready)
    ensures ReadyFor(pods, name, ci) <==> EndsWith(ci, image, ready)
  {
    hide CountUpdated, NewLabels, ImageReference, RunImage;
    if AwaitedImage(ci) != image {
      OtherImageCountsNone(pods, AwaitedLabels(name, ci), image, AwaitedImage(ci));
    }
  }

  lemma {:induction false} PodsCannotEnd(pods: seq<Pod>, name: string, ci: V1alpha1.Spec, image: string, count: int)
    requires MadeOf(pods, AwaitedLabels(name, ci), image, count) && !CanEnd(ci, image, count)
    ensures !ReadyFor(pods, name, ci)
  {
    hide CountUpdated, NewLabels, ImageReference, RunImage;
    if AwaitedImage(ci) != image {
      OtherImageCountsNone(pods, AwaitedLabels(name, ci), image, AwaitedImage(ci));
    }
  }

  // ---------- The stored spec and the edited spec ----------

  /** The migration starts before defaults are applied, and the Deployment runs what was stored before the edit
      that asked for it. With all of its pods ready, the wait ends exactly when the edited spec, as it stands,
      names the image that runs and as many pods, or another image and no pods. */
  lemma {:induction false} WaitEndsIff(name: string, stored: V1alpha1.Spec, ci: V1alpha1.Spec, secrets: Secrets,
      pods: seq<Pod>)
    requires V1alpha1.Default(name, stored) == Some(stored)
    requires Convert(ci, secrets).Some?
    requires HasReady(pods, AwaitedLabels(name, ci), AlphaWorkload(stored).image, AlphaWorkload(stored).pods)
    ensures PodsAreReady(pods, name, Convert(ci, secrets).value) <==>
      AwaitedPods(ci) == if AwaitedImage(ci) == AlphaWorkload(stored).image then AlphaWorkload(stored).pods else 0
  {
    ReadyForConverted(pods, name, ci, secrets);
    ReadyPodsEndIff(pods, name, ci, AlphaWorkload(stored).image, AlphaWorkload(stored).pods);
    hide V1alpha1.Default, Convert, PodsAreReady, ReadyFor, HasReady, AlphaWorkload, AwaitedImage;
  }

  /** An edit that only asks for the migration of a stored spec lets it end. */
  lemma {:induction false} StoredSpecAwaitsItsPods(name: string, stored: V1alpha1.Spec, secrets: Secrets,
      pods: seq<Pod>)
    requires V1alpha1.Default(name, stored) == Some(stored)
    requires Convert(stored.(migrate := true), secrets).Some?
    requires HasReady(pods, AwaitedLabels(name, stored), AlphaWorkload(stored).image, AlphaWorkload(stored).pods)
    ensures PodsAreReady(pods, name, Convert(stored.(migrate := true), secrets).value)
  {
    var ci := stored.(migrate := true);
    assert ci.replicas == stored.replicas && AwaitedImage(ci) == AlphaWorkload(stored).image;
    assert AwaitedLabels(name, ci) == AwaitedLabels(name, stored);
    StoredReplicasAreSet(name, stored);
    hide V1alpha1.Default, Convert, PodsAreReady, HasReady, AwaitedImage, AwaitedLabels;
    WaitEndsIff(name, stored, ci, secrets, pods);
  }

  lemma StoredReplicasAreSet(name: string, stored: V1alpha1.Spec)
    requires V1alpha1.Default(name, stored) == Some(stored)
    ensures stored.replicas != 0
  {
    var defaulted := V1alpha1.WithDefaults(name, stored);
    EmptySizeIsInvalid();
    SizesAreNeverUnset(DEFAULT_SIZE_NAME);
    if GetClusterSize(defaulted.size).Some? {
      SizesAreNeverUnset(defaulted.size);
    }
    hide V1alpha1.WithDefaults, GetClusterSize, DefaultSize, V1alpha1.MinioDefaultSized, V1alpha1.DatabaseDefaultSized;
  }

  // ---------- Runs that wait for ever ----------

  /** The world holds the installation, and does not create the Mattermost resource itself. */
  ghost predicate HoldsOnly(e: Event, ci: V1alpha1.Spec) {
    e.Move? ==> e.world.installation == Some(ci) && e.world.mattermost.None?
  }

  ghost predicate NeverReady(c: Cluster, events: seq<Event>, ci: V1alpha1.Spec) {
    forall k :: 0 <= k <= |events| ==> !ReadyFor(Run(c, events[..k]).world.pods, c.name, ci)
  }

  /** If the pods never are what is awaited, the Mattermost resource is never created and the installation
      stays, whatever calls are made, fail or are cut off by crashes. */
  lemma {:induction false} NothingIsCreated(c: Cluster, events: seq<Event>, ci: V1alpha1.Spec)
    requires c.pc.Idle? && c.world.installation == Some(ci) && c.world.mattermost.None?
    requires NeverReady(c, events, ci)
    requires forall e :: e in events ==> HoldsOnly(e, ci)
    ensures Run(c, events).world.mattermost.None? && Run(c, events).world.installation == Some(ci)
    decreases |events|
  {
    hide CallStep, ReadyFor, StartedAt, Seen, SeenInOrder, Run;
    if events == [] {
      assert Run(c, events) == c by { EmptyRun(c); }
    } else {
      var n := |events| - 1;
      forall k | 0 <= k <= n
        ensures Run(c, events[..k]).world.mattermost.None? && Run(c, events[..k]).world.installation == Some(ci)
      {
        assert NeverReady(c, events[..k], ci) by {
          assert forall i :: 0 <= i <= k ==> events[..k][..i] == events[..i];
        }
        NothingIsCreated(c, events[..k], ci);
      }
      var before := Run(c, events[..n]);
      assert Run(c, events) == Step(before, events[n]) by { LastStep(c, events); }
      assert events[n] in events;
      if events[n].Call? {
        assert HeldBack(c, events[..n], ci) && NeverReady(c, events[..n], ci) by {
          assert forall k :: 0 <= k <= n ==> events[..n][..k] == events[..k];
        }
        CallCreatesNoMattermost(c, events[..n], events[n].ok, events[n].polls, ci);
        CallDeletesNoInstallation(c, events[..n], events[n].ok, events[n].polls, ci);
      }
    }
  }

  lemma NothingWasCounted(c: Cluster, events: seq<Event>, start: nat, ci: V1alpha1.Spec, mm: V1beta1.Spec)
    requires NeverReady(c, events, ci)
    requires Seen(c, events, start, ConvertedTo(ci, mm))
    ensures !SeenInOrder(c, events, start, DeploymentListed(mm), PodsCounted(mm))
  {
    hide Run, ReadyFor, Convert, PodsAreReady, Labelled, WantedLabels;
    var i :| start < i < |events| && Holds(Run(c, events[..i]), ConvertedTo(ci, mm));
    NameStays(c, events[..i]);
    forall j, k | start < j < k < |events|
      ensures !HeldAt(Run(c, events[..j]), Run(c, events[..k]), DeploymentListed(mm), PodsCounted(mm))
    {
      NameStays(c, events[..k]);
      ReadyForConverted(Run(c, events[..k]).world.pods, c.name, ci, Run(c, events[..i]).world.secrets);
    }
  }

  /** At every moment the installation is there, and the Mattermost resource is not. */
  ghost predicate HeldBack(c: Cluster, events: seq<Event>, ci: V1alpha1.Spec) {
    forall k :: 0 <= k <= |events| ==>
      Run(c, events[..k]).world.mattermost.None? && Run(c, events[..k]).world.installation == Some(ci)
  }

  lemma CallCreatesNoMattermost(c: Cluster, events: seq<Event>, ok: bool, polls: nat, ci: V1alpha1.Spec)
    requires c.pc.Idle? && NeverReady(c, events, ci) && HeldBack(c, events, ci)
    ensures CallStep(Run(c, events), ok, polls).world.mattermost.None?
  {
    assert events[..|events|] == events;
    hide CallStep, Run, NeverReady, Seen, SeenInOrder, V1alpha1.Convertible;
    if CallStep(Run(c, events), ok, polls).world.mattermost.Some? {
      MattermostCreatedAfterPodsWereReady(c, events, ok, polls);
      var start, loaded, mm :| StartedAt(c, events, start, loaded) && Seen(c, events, start, ConvertedTo(loaded, mm))
        && SeenInOrder(c, events, start, DeploymentListed(mm), PodsCounted(mm));
      assert loaded == ci;
      NothingWasCounted(c, events, start, ci, mm);
    }
  }

  lemma NoStableSeen(c: Cluster, events: seq<Event>, ci: V1alpha1.Spec)
    requires HeldBack(c, events, ci)
    ensures forall start :: !Seen(c, events, start, MattermostStable)
  {
    hide Run;
  }

  lemma CallDeletesNoInstallation(c: Cluster, events: seq<Event>, ok: bool, polls: nat, ci: V1alpha1.Spec)
    requires c.pc.Idle? && HeldBack(c, events, ci)
    ensures CallStep(Run(c, events), ok, polls).world.installation == Some(ci)
  {
    assert events[..|events|] == events;
    assert Run(c, events).world.installation == Some(ci);
    CallKeepsInstallation(Run(c, events), ok, polls);
    NoStableSeen(c, events, ci);
    hide CallStep, Run, V1alpha1.Convertible, StartedAt, Seen, HeldBack;
    if CallStep(Run(c, events), ok, polls).world.installation.None? {
      InstallationDeletedAfterStable(c, events, ok, polls);
    }
  }

  lemma CallKeepsInstallation(c: Cluster, ok: bool, polls: nat)
    ensures var after := CallStep(c, ok, polls).world.installation; after == c.world.installation || after.None?
  {
    hide PodsAreReady, Convert, WantedLabels, Labelled, Relabelled, Selected, WithoutReplicaSet, HasReplicaSet,
      CleanupLabels, Selects, Matching;
  }

  /** The pods of a run come from a Deployment of this image and number of pods, with all of them ready at every
      moment, or some of them. */
  ghost predicate PodsOf(c: Cluster, events: seq<Event>, labels: Labels, image: string, count: int, all: bool) {
    forall k :: 0 <= k <= |events| ==>
      var pods := Run(c, events[..k]).world.pods;
      if all then HasReady(pods, labels, image, count) else MadeOf(pods, labels, image, count)
  }

  /** The migration waits for ever when no moment of the rollout can end the wait, and also when only another
      number of ready pods could and all of them stay ready. */
  lemma {:induction false} WaitsForEver(c: Cluster, events: seq<Event>, ci: V1alpha1.Spec, image: string, count: int,
      all: bool)
    requires c.pc.Idle? && c.world.installation == Some(ci) && c.world.mattermost.None?
    requires forall e :: e in events ==> HoldsOnly(e, ci)
    requires PodsOf(c, events, AwaitedLabels(c.name, ci), image, count, all)
    requires if all then !EndsWith(ci, image, count) else !CanEnd(ci, image, count)
    ensures Run(c, events).world.mattermost.None? && Run(c, events).world.installation == Some(ci)
  {
    hide Run, ReadyFor, EndsWith, CanEnd, HasReady, MadeOf, AwaitedLabels, HoldsOnly;
    forall k | 0 <= k <= |events| ensures !ReadyFor(Run(c, events[..k]).world.pods, c.name, ci) {
      var pods := Run(c, events[..k]).world.pods;
      if all {
        ReadyPodsEndIff(pods, c.name, ci, image, count);
      } else {
        PodsCannotEnd(pods, c.name, ci, image, count);
      }
    }
    NothingIsCreated(c, events, ci);
  }

  /** Three edits of a stored spec that ask for the migration and keep it waiting in every run: one pod more; no
      image; and, as long as all pods stay ready, no replica count where several pods run. */
  lemma {:induction false} EditsThatNeverEnd(c: Cluster, events: seq<Event>, stored: V1alpha1.Spec, ci: V1alpha1.Spec)
    requires V1alpha1.Default(c.name, stored) == Some(stored) && stored.replicas > 1
    requires
      || ci == stored.(migrate := true, replicas := stored.replicas + 1)
      || ci == stored.(migrate := true, replicas := 0)
      || ci == stored.(migrate := true, image := "")
    requires c.pc.Idle? && c.world.installation == Some(ci) && c.world.mattermost.None?
    requires forall e :: e in events ==> HoldsOnly(e, ci)
    requires PodsOf(c, events, AwaitedLabels(c.name, ci), AlphaWorkload(stored).image, AlphaWorkload(stored).pods,
      ci.replicas == 0)
    ensures Run(c, events).world.mattermost.None? && Run(c, events).world.installation == Some(ci)
  {
    StoredImageIsSet(c.name, stored);
    EmptyImageDiffers(stored.image, stored.version);
    hide V1alpha1.Default, ImageReference, PodsOf, Run, HoldsOnly, AwaitedLabels;
    WaitsForEver(c, events, ci, AlphaWorkload(stored).image, AlphaWorkload(stored).pods, ci.replicas == 0);
  }

  lemma StoredImageIsSet(name: string, stored: V1alpha1.Spec)
    requires V1alpha1.Default(name, stored) == Some(stored)
    ensures stored.image != ""
  {
    hide GetClusterSize, DefaultSize, V1alpha1.MinioDefaults, V1alpha1.DatabaseDefaults, V1alpha1.BlueGreenDefaults,
      V1alpha1.CanaryDefaults, V1alpha1.IsRefused;
  }

  lemma EmptyImageDiffers(image: string, version: string)
    requires image != ""
    ensures ImageReference("", version) != ImageReference(image, version)
  {
    assert |ImageReference(image, version)| == |image| + 1 + |version|;
    assert |ImageReference("", version)| == 1 + |version|;
  }
}
