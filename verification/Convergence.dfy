/** Convergence of the rollout: once the spec is left alone and calls succeed, each reconcile that
    follows settled Jobs and pods brings the installation closer to Stable. */
module Convergence {
  import opened Kube
  import opened UpdateJob
  import opened Rollout
  import opened RolloutSafety
  import opened Sizes

  // ---------- The measure ----------

  ghost function Target(c: Cluster): Spec {
    Defaulted(c.mattermost.spec)
  }

  ghost predicate IsStable(c: Cluster) {
    var m := c.mattermost;
    && m.status.state == Stable
    && m.status.observedGeneration == m.generation
    && Defaulted(m.spec) == m.spec
    && Written(c.deployment, m.spec)
  }

  /** The Deployment may be written without asking an update Job. */
  ghost predicate NeedsNoJob(c: Cluster) {
    c.deployment.None? || NoJobNeeded(Target(c), c.deployment.value)
  }

  /** 0: Stable. 1: Deployment written. 2: Deployment can be written, or the right Job runs.
      3: the Job is missing or wrong. 4: the right Job had a failed pod. */
  ghost function Rank(c: Cluster): nat {
    if IsStable(c) then 0
    else if Written(c.deployment, Target(c)) then 1
    else if NeedsNoJob(c) then 2
    else if c.job.None? || MainImage(c.job.value.containers) != Some(ImageName(Target(c))) then 3
    else if c.job.value.failed == 0 then 2
    else 4
  }

  /** The worker is idle, the Job is done, and the pods of the live Deployment are rolled out. */
  ghost predicate Settled(c: Cluster) {
    && c.pc.Idle?
    && (c.job.Some? ==> c.job.value.completed)
    && (c.deployment.Some? ==> RolledOut(c.deployment.value, c.replicaSets))
  }

  ghost predicate RolledOut(d: Deployment, sets: seq<ReplicaSet>) {
    var found := FindRollout(sets, d.revision);
    && d.generation == d.observedGeneration
    && found.Some?
    && (d.wanted.Some? ==> d.statusReplicas == d.wanted.value && found.value.availableReplicas == d.wanted.value)
  }

  /** Stored objects have a main container, and defaulting succeeds. */
  ghost predicate Sound(c: Cluster) {
    && !c.mattermost.spec.refused
    && (c.deployment.Some? ==> MainImage(c.deployment.value.template.containers).Some?)
    && (c.job.Some? ==> MainImage(c.job.value.containers).Some?)
  }

  ghost predicate Reliable(plan: nat -> Outcome) {
    forall n :: plan(n).Done?
  }

  // ---------- One reconcile, call by call ----------

  /** The worker ended a reconcile: its copy `m` is stored, apart from the status. */
  ghost predicate Ended(m: Mattermost, deployment: Option<Deployment>, job: Option<Job>, c: Cluster, result: Cluster) {
    && result.pc.Idle?
    && result.mattermost.spec == m.spec
    && result.mattermost.generation == m.generation
    && result.deployment == deployment
    && result.job == job
    && result.replicaSets == c.replicaSets
  }

  lemma FromFailing(c: Cluster, plan: nat -> Outcome, n: nat)
    requires Reliable(plan)
    requires c.pc.Failing? && c.mattermost == c.pc.m
    ensures Ended(c.pc.m, c.deployment, c.job, c, UntilIdle(c, plan, n))
  {
    hide DesiredTemplate, Defaulted, ImageName, MainImage;
    assert UntilIdle(CallStep(c, plan(n)), plan, n + 1) == CallStep(c, plan(n));
  }

  lemma FromPublishing(c: Cluster, plan: nat -> Outcome, n: nat)
    requires Reliable(plan)
    requires c.pc.Publishing? && c.mattermost == c.pc.m
    ensures Ended(c.pc.m, c.deployment, c.job, c, UntilIdle(c, plan, n))
    ensures UntilIdle(c, plan, n).mattermost.status == c.pc.status
    ensures c.pc.m.status == c.pc.status ==> UntilIdle(c, plan, n).mattermost == c.pc.m
  {
    hide DesiredTemplate, Defaulted, ImageName, MainImage;
    assert UntilIdle(CallStep(c, plan(n)), plan, n + 1) == CallStep(c, plan(n));
  }

  /** The status of an installation that has all the wanted pods. */
  ghost function FullHealth(m: Mattermost): Status {
    HealthStatus(m, WantedReplicas(m.spec), WantedReplicas(m.spec), true)
  }

  ghost predicate FullyRolledOut(d: Deployment, sets: seq<ReplicaSet>, spec: Spec) {
    Matches(d, spec) && RolledOut(d, sets) && Serves(spec.endpoint)
  }

  /** The health check publishes Stable for a rolled-out Deployment that was read as written. */
  lemma FromCheckingRollout(c: Cluster, plan: nat -> Outcome, n: nat)
    requires Reliable(plan)
    requires c.pc.CheckingRollout? && c.mattermost == c.pc.m
    requires c.pc.m.spec.replicas.Some? && Written(c.deployment, c.pc.m.spec)
    ensures Ended(c.pc.m, c.deployment, c.job, c, UntilIdle(c, plan, n))
    ensures RolledOut(c.deployment.value, c.replicaSets) && Serves(c.pc.m.spec.endpoint) ==>
      var m := UntilIdle(c, plan, n).mattermost;
      m.status == FullHealth(c.pc.m) && (m.status == c.pc.m.status ==> m == c.pc.m)
  {
    hide DesiredTemplate, Defaulted, ImageName, MainImage, Serves;
    var c1 := CallStep(c, plan(n));
    if c1.pc.Publishing? {
      FromPublishing(c1, plan, n + 1);
    } else {
      var c2 := CallStep(c1, plan(n + 1));
      if c2.pc.Publishing? {
        FromPublishing(c2, plan, n + 2);
      } else {
        var c3 := CallStep(c2, plan(n + 2));
        assert UntilIdle(c1, plan, n + 1) == UntilIdle(c3, plan, n + 3);
        FromPublishing(c3, plan, n + 3);
      }
    }
  }

  /** The update writes what is wanted, cleans up the Job that vouched for it, and checks the rollout. */
  lemma FromUpdating(c: Cluster, plan: nat -> Outcome, n: nat)
    requires Reliable(plan)
    requires c.pc.Updating? && c.mattermost == c.pc.m && c.deployment == Some(c.pc.current)
    requires c.pc.m.spec.replicas.Some?
    ensures var result := UntilIdle(c, plan, n);
      && Ended(c.pc.m, result.deployment, if c.pc.gate.Some? then None else c.job, c, result)
      && Written(result.deployment, c.pc.m.spec)
      && (Matches(c.pc.current, c.pc.m.spec) ==> result.deployment == c.deployment)
      && (FullyRolledOut(c.pc.current, c.replicaSets, c.pc.m.spec) ==>
            && result.mattermost.status == FullHealth(c.pc.m)
            && (result.mattermost.status == c.pc.m.status ==> result.mattermost == c.pc.m))
  {
    hide DesiredTemplate, Defaulted, ImageName, MainImage, HealthStatus, RolledOut, Serves;
    var c1 := CallStep(c, plan(n));
    if c1.pc.CleaningUp? {
      var c2 := CallStep(c1, plan(n + 1));
      FromCheckingRollout(c2, plan, n + 2);
    } else {
      FromCheckingRollout(c1, plan, n + 1);
    }
  }

  /** What a reconcile does to the Job and the Deployment once the new image needs a Job. */
  lemma FromFetchingJob(c: Cluster, plan: nat -> Outcome, n: nat)
    requires Reliable(plan)
    requires c.pc.FetchingJob? && c.mattermost == c.pc.m && c.deployment == Some(c.pc.current)
    requires c.pc.m.spec.replicas.Some?
    requires c.job.Some? ==> MainImage(c.job.value.containers).Some?
    ensures var result := UntilIdle(c, plan, n);
      var image := Some(ImageName(c.pc.m.spec));
      if c.job.None? || MainImage(c.job.value.containers) != image then
        && Ended(c.pc.m, c.deployment, result.job, c, result)
        && result.job.Some? && MainImage(result.job.value.containers) == image
        && !result.job.value.completed && result.job.value.failed == 0
      else if !c.job.value.completed then Ended(c.pc.m, c.deployment, c.job, c, result)
      else if c.job.value.failed > 0 then Ended(c.pc.m, c.deployment, None, c, result)
      else Ended(c.pc.m, result.deployment, None, c, result) && Written(result.deployment, c.pc.m.spec)
  {
    hide Defaulted, ImageName, MainImage, DesiredTemplate, HealthStatus, RolledOut, JobContainers;
    DesiredImage(c.pc.m.spec);
    JobRunsTheImage(DesiredTemplate(c.pc.m.spec).containers);
    var c1 := CallStep(c, plan(n));
    match c1.pc
    case Failing(_, _) => FromFailing(c1, plan, n + 1);
    case Updating(_, _, _) => FromUpdating(c1, plan, n + 1);
    case CleaningUp(_, _) => FromFailing(CallStep(c1, plan(n + 1)), plan, n + 2);
    case LaunchingJob(_) => FromFailing(CallStep(c1, plan(n + 1)), plan, n + 2);
    case DeletingOldJob(_) =>
      var c2 := CallStep(c1, plan(n + 1));
      assert UntilIdle(c1, plan, n + 1) == UntilIdle(CallStep(c2, plan(n + 2)), plan, n + 3);
      FromFailing(CallStep(c2, plan(n + 2)), plan, n + 3);
  }

  /** From the read of the Deployment on, for a defaulted copy that is the stored resource. */
  lemma FromGettingDeployment(c: Cluster, plan: nat -> Outcome, n: nat)
    requires Reliable(plan) && Sound(c)
    requires c.pc.GettingDeployment? && c.mattermost == c.pc.m && c.deployment.Some?
    requires c.pc.m.spec.replicas.Some?
    ensures var m := c.pc.m;
      var result := UntilIdle(c, plan, n);
      var image := Some(ImageName(m.spec));
      if NoJobNeeded(m.spec, c.deployment.value) then
        && Ended(m, result.deployment, c.job, c, result) && Written(result.deployment, m.spec)
        && (Matches(c.deployment.value, m.spec) ==> result.deployment == c.deployment)
        && (FullyRolledOut(c.deployment.value, c.replicaSets, m.spec) ==>
              && result.mattermost.status == FullHealth(m)
              && (result.mattermost.status == m.status ==> result.mattermost == m))
      else if c.job.None? || MainImage(c.job.value.containers) != image then
        && Ended(m, c.deployment, result.job, c, result)
        && result.job.Some? && MainImage(result.job.value.containers) == image
        && !result.job.value.completed && result.job.value.failed == 0
      else if !c.job.value.completed then Ended(m, c.deployment, c.job, c, result)
      else if c.job.value.failed > 0 then Ended(m, c.deployment, None, c, result)
      else Ended(m, result.deployment, None, c, result) && Written(result.deployment, m.spec)
  {
    hide Defaulted, ImageName, MainImage, DesiredTemplate, HealthStatus, RolledOut, Serves;
    var c1 := CallStep(c, plan(n));
    if c1.pc.Updating? {
      FromUpdating(c1, plan, n + 1);
    } else {
      FromFetchingJob(c1, plan, n + 1);
    }
  }

  lemma ReachesDefaulting(c: Cluster, plan: nat -> Outcome) returns (at: Cluster, n: nat)
    requires Reliable(plan) && c.pc.Idle?
    ensures at.pc.Defaulting? && at.mattermost == at.pc.m
    ensures at.mattermost.spec == c.mattermost.spec
    ensures c.mattermost.status.state != Unset ==> at.mattermost == c.mattermost
    ensures at.deployment == c.deployment && at.job == c.job && at.replicaSets == c.replicaSets
    ensures Reconcile(c, plan) == UntilIdle(at, plan, n)
  {
    at, n := Load(c), 0;
    if at.pc.Loaded? {
      assert UntilIdle(at, plan, n) == UntilIdle(CallStep(at, plan(n)), plan, n + 1);
      at, n := CallStep(at, plan(n)), n + 1;
    }
  }

  /** A reconcile reads the Deployment with a defaulted copy, having created a missing Deployment. */
  lemma ReachesDeployment(c: Cluster, plan: nat -> Outcome) returns (at: Cluster, n: nat)
    requires Reliable(plan) && Sound(c) && c.pc.Idle?
    ensures at.pc.GettingDeployment? && at.mattermost == at.pc.m
    ensures at.pc.m.spec == Target(c)
    ensures c.mattermost.spec == Target(c) && c.mattermost.status.state != Unset ==> at.mattermost == c.mattermost
    ensures at.deployment == if c.deployment.Some? then c.deployment else Some(NewDeployment(Target(c)))
    ensures at.job == c.job && at.replicaSets == c.replicaSets
    ensures Reconcile(c, plan) == UntilIdle(at, plan, n)
  {
    hide Defaulted, MainImage, DesiredTemplate, ImageName, Reconcile, FetchJob, LaunchJob, DeleteOldJob, RelaunchJob,
      UpdateDeployment, CleanUp, CheckRollout, ListReplicaSets, CheckEndpoint, Publish, Fail;
    at, n := ReachesDefaulting(c, plan);
    var c1 := CallStep(at, plan(n));
    assert UntilIdle(at, plan, n) == UntilIdle(c1, plan, n + 1);
    var c2 := CallStep(c1, plan(n + 1));
    assert UntilIdle(c1, plan, n + 1) == UntilIdle(c2, plan, n + 2);
    var c3 := CallStep(c2, plan(n + 2));
    assert UntilIdle(c2, plan, n + 2) == UntilIdle(c3, plan, n + 3);
    at, n := c3, n + 3;
  }

  /** A reconcile that finds settled Jobs and pods strictly lowers the rank, down to Stable, when the
      endpoint of the spec can be found. */
  lemma ReconcileLowersRank(c: Cluster, plan: nat -> Outcome)
    requires Reliable(plan) && Sound(c) && Settled(c) && Serves(c.mattermost.spec.endpoint)
    ensures var result := Reconcile(c, plan);
      && result.pc.Idle? && Sound(result)
      && result.mattermost.spec == Target(c)
      && (Rank(result) < Rank(c) || Rank(result) == 0)
  {
    hide Defaulted, ImageName, MainImage, DesiredTemplate, RolledOut, Serves;
    DefaultedTwice(c.mattermost.spec);
    DesiredImage(Target(c));
    var at, n := ReachesDeployment(c, plan);
    FromGettingDeployment(at, plan, n);
  }

  // ---------- Rounds of environment moves and reconciles ----------

  /** Moves of the Deployment controller and of the pods. */
  predicate Quiet(e: Event) {
    e.ControllerStep? || e.ReplicaSetStatus? || e.ReplicaSetPruned? || e.DeploymentStatus?
  }

  /** Moves of the cluster that leave the spec and the worker alone, with a Job that loses no further pod. */
  ghost predicate Polite(c: Cluster, e: Event) {
    Quiet(e) || (e.JobProgress? && (c.job.Some? ==> e.failed == c.job.value.failed))
  }

  ghost predicate PoliteRun(c: Cluster, moves: seq<Event>) {
    forall i :: 0 <= i < |moves| ==> Polite(Run(c, moves[..i]), moves[i])
  }

  lemma PoliteFront(c: Cluster, moves: seq<Event>)
    requires moves != [] && PoliteRun(c, moves)
    ensures PoliteRun(c, moves[..|moves| - 1]) && Polite(Run(c, moves[..|moves| - 1]), moves[|moves| - 1])
  {
    hide Polite, Run;
    assert forall i :: 0 <= i < |moves| - 1 ==> moves[..|moves| - 1][..i] == moves[..i];
  }

  lemma PoliteJoins(c: Cluster, first: seq<Event>, second: seq<Event>)
    requires PoliteRun(c, first) && PoliteRun(Run(c, first), second)
    ensures PoliteRun(c, first + second)
  {
    hide Polite, Run;
    var joined := first + second;
    forall i | 0 <= i < |joined| ensures Polite(Run(c, joined[..i]), joined[i]) {
      if i < |first| {
        assert joined[..i] == first[..i];
      } else {
        assert joined[..i] == first + second[..i - |first|];
        RunJoins(c, first, second[..i - |first|]);
      }
    }
  }

  /** Same resource and worker, same content of the Deployment, and the same Job with as many failed pods. */
  ghost predicate SameContents(c: Cluster, c': Cluster) {
    && c'.pc == c.pc && c'.mattermost == c.mattermost
    && c'.job.Some? == c.job.Some? && c'.deployment.Some? == c.deployment.Some?
    && (c.job.Some? ==> c'.job.value.containers == c.job.value.containers && c'.job.value.failed == c.job.value.failed)
    && (c.deployment.Some? ==>
          SameSpec(c.deployment.value, c'.deployment.value) && c'.deployment.value.labels == c.deployment.value.labels)
  }

  lemma PoliteMoveKeepsContents(c: Cluster, e: Event)
    requires Polite(c, e)
    ensures SameContents(c, Step(c, e))
  {
    hide MainImage, EnsureReplicaSet, IndexOfTemplate, IsNewest, CallStep, Edit;
  }

  lemma PoliteMoveKeepsRank(c: Cluster, e: Event)
    requires Polite(c, e) && Sound(c)
    ensures Rank(Step(c, e)) == Rank(c) && Sound(Step(c, e)) && Step(c, e).pc == c.pc &&
      Step(c, e).mattermost == c.mattermost
  {
    hide Defaulted, ImageName, MainImage, DesiredTemplate, Step;
    PoliteMoveKeepsContents(c, e);
  }

  lemma {:induction false} PoliteRunKeepsRank(c: Cluster, moves: seq<Event>)
    requires Sound(c) && PoliteRun(c, moves)
    ensures Rank(Run(c, moves)) == Rank(c) && Sound(Run(c, moves)) && Run(c, moves).pc == c.pc
    ensures Run(c, moves).mattermost == c.mattermost
    decreases |moves|
  {
    hide Step, Rank, Sound, PoliteRun, Polite;
    if moves != [] {
      PoliteFront(c, moves);
      PoliteRunKeepsRank(c, moves[..|moves| - 1]);
      PoliteMoveKeepsRank(Run(c, moves[..|moves| - 1]), moves[|moves| - 1]);
    }
  }

  datatype Round = Round(moves: seq<Event>, plan: nat -> Outcome)

  /** Each round lets the environment move and then runs one reconcile. */
  function AfterRounds(c: Cluster, rounds: seq<Round>): Cluster
    decreases |rounds|
  {
    if rounds == [] then c
    else
      var round := rounds[|rounds| - 1];
      var moved := Run(AfterRounds(c, rounds[..|rounds| - 1]), round.moves);
      if moved.pc.Idle? then Reconcile(moved, round.plan) else moved
  }

  /** In every round the environment settles the Job and the pods before the reconcile, whose calls succeed. */
  ghost predicate Steady(c: Cluster, rounds: seq<Round>) {
    forall i :: 0 <= i < |rounds| ==>
      && Reliable(rounds[i].plan)
      && PoliteRun(AfterRounds(c, rounds[..i]), rounds[i].moves)
      && Settled(Run(AfterRounds(c, rounds[..i]), rounds[i].moves))
  }

  lemma {:induction false} RoundsLowerRank(c: Cluster, rounds: seq<Round>)
    requires c.pc.Idle? && Sound(c) && Steady(c, rounds) && Serves(c.mattermost.spec.endpoint)
    ensures var result := AfterRounds(c, rounds);
      && result.pc.Idle? && Sound(result) && Serves(result.mattermost.spec.endpoint)
      && Rank(result) <= if |rounds| <= Rank(c) then Rank(c) - |rounds| else 0
    decreases |rounds|
  {
    hide Step, Rank, Sound, Settled, Reliable, PoliteRun, Reconcile, Serves, Defaulted;
    if rounds != [] {
      var last := |rounds| - 1;
      assert Steady(c, rounds[..last]) by {
        forall i | 0 <= i < last ensures rounds[..last][..i] == rounds[..i] && rounds[..last][i] == rounds[i] {}
      }
      RoundsLowerRank(c, rounds[..last]);
      var before := AfterRounds(c, rounds[..last]);
      PoliteRunKeepsRank(before, rounds[last].moves);
      DefaultedTwice(before.mattermost.spec);
      ReconcileLowersRank(Run(before, rounds[last].moves), rounds[last].plan);
    }
  }

  /** Once the spec is left alone, three rounds reach Stable if the stored Job has no failed pod,
      and four rounds reach it in any case. The spec asks for a number of pods that can exist, and for
      labels under which its endpoint is found; else Stable is never reached. */
  lemma {:induction false} StableWithinThreeRounds(c: Cluster, rounds: seq<Round>)
    requires c.pc.Idle? && Sound(c) && Steady(c, rounds)
    requires WantedReplicas(Target(c)) >= 0 && Serves(c.mattermost.spec.endpoint)
    requires |rounds| >= 3
    requires |rounds| == 3 ==> (c.job.Some? ==> c.job.value.failed == 0)
    ensures IsStable(AfterRounds(c, rounds))
  {
    hide IsStable, Written, NeedsNoJob, MainImage, Sound, Steady, AfterRounds, Defaulted, ImageName;
    RoundsLowerRank(c, rounds);
  }

  // ---------- The environment can settle ----------

  lemma {:induction false} FindRolloutAt(sets: seq<ReplicaSet>, revision: Option<nat>, i: nat)
    requires i < |sets| && sets[i].revision == revision && sets[i].observedGeneration > 0
    requires forall k :: 0 <= k < |sets| && k != i ==> sets[k].revision != revision
    ensures FindRollout(sets, revision) == Some(sets[i])
  {
    if i > 0 { FindRolloutAt(sets[1..], revision, i - 1); }
  }

  /** A waiting controller that is left alone observes the Deployment, and gives one ReplicaSet of its
      template a revision of its own. */
  lemma {:induction false} ControllerObserves(c: Cluster) returns (moves: seq<Event>, at: nat)
    requires c.controller == Waiting && c.deployment.Some?
    requires WellNumbered(c.replicaSets, c.deployment, c.nextRevision)
    ensures forall i :: 0 <= i < |moves| ==> Quiet(moves[i])
    ensures var result := Run(c, moves);
      && result.pc == c.pc && result.job == c.job
      && result.deployment.Some? && result.deployment.value.generation == result.deployment.value.observedGeneration
      && result.deployment.value.wanted == c.deployment.value.wanted
      && at < |result.replicaSets|
      && result.replicaSets[at].revision == result.deployment.value.revision
      && (forall k :: 0 <= k < |result.replicaSets| && k != at ==>
            result.replicaSets[k].revision != result.deployment.value.revision)
  {
    var step := ControllerStep(true);
    assert Run(c, []) == c;
    hide CallStep, Edit, ProgressJob, Run, EnsureReplicaSet, IndexOfTemplate, IsNewest;
    RunExtends(c, [], step);
    moves := [] + [step];
    assert Run(c, moves) == c.(controller := Read(c.deployment.value));
    at := ReplicaSetIsEnsured(Run(c, moves));
    RunExtends(c, moves, step);
    moves := moves + [step];
    RevisionIsAnnotated(Run(c, moves));
    hide Step;
    RunExtends(c, moves, step);
    moves := moves + [step];
    RunExtends(c, moves, step);
    moves := moves + [step];
  }

  lemma RevisionIsAnnotated(c: Cluster)
    requires c.controller.Ensured? && c.deployment == Some(c.controller.copy)
    ensures var d, step := c.controller.copy, ControllerStep(true);
      var annotated :=
        d.(revision := Some(c.controller.revision), observedGeneration := d.generation, version := d.version + 2);
      Step(Step(c, step), step) == c.(deployment := Some(annotated), controller := Waiting)
  {
    hide CallStep, Edit, ProgressJob, EnsureReplicaSet, IndexOfTemplate, IsNewest;
  }

  lemma ReplicaSetIsEnsured(c: Cluster) returns (at: nat)
    requires c.controller.Read? && WellNumbered(c.replicaSets, c.deployment, c.nextRevision)
    ensures var next := Step(c, ControllerStep(true));
      && next.controller.Ensured? && next.controller.copy == c.controller.copy
      && next == c.(replicaSets := next.replicaSets, nextRevision := next.nextRevision, controller := next.controller)
      && at < |next.replicaSets| && next.replicaSets[at].revision == Some(next.controller.revision)
      && forall k :: 0 <= k < |next.replicaSets| && k != at ==>
           next.replicaSets[k].revision != Some(next.controller.revision)
  {
    at := IndexOfTemplate(c.replicaSets, c.controller.copy.template);
    hide CallStep, Edit, ProgressJob;
  }

  /** Its pods become available and are counted. */
  lemma {:induction false} PodsBecomeAvailable(c: Cluster, at: nat) returns (moves: seq<Event>)
    requires c.deployment.Some? && c.deployment.value.generation == c.deployment.value.observedGeneration
    requires c.deployment.value.wanted.Some? ==> c.deployment.value.wanted.value >= 0
    requires at < |c.replicaSets| && c.replicaSets[at].revision == c.deployment.value.revision
    requires forall k :: 0 <= k < |c.replicaSets| && k != at ==>
      c.replicaSets[k].revision != c.deployment.value.revision
    ensures forall i :: 0 <= i < |moves| ==> Quiet(moves[i])
    ensures var result := Run(c, moves);
      && result.pc == c.pc && result.job == c.job
      && result.deployment.Some? && RolledOut(result.deployment.value, result.replicaSets)
  {
    hide CallStep, Edit, ProgressJob, StepController;
    var wanted := if c.deployment.value.wanted.Some? then c.deployment.value.wanted.value else 1;
    var counted, shown := ReplicaSetStatus(at, 1, wanted), DeploymentStatus(wanted);
    moves := [counted, shown];
    assert Run(c, [counted]) == Step(c, counted) by { RunExtends(c, [], counted); assert [] + [counted] == [counted]; }
    RunExtends(c, [counted], shown);
    assert [counted] + [shown] == moves;
    FindRolloutAt(Step(c, counted).replicaSets, c.deployment.value.revision, at);
  }

  /** The Job ends without losing a further pod, and the controller drops what it was doing. */
  lemma {:induction false} JobEnds(c: Cluster) returns (moves: seq<Event>)
    requires Inv(c) && c.pc.Idle?
    ensures PoliteRun(c, moves)
    ensures var result := Run(c, moves);
      && result.pc.Idle? && (result.job.Some? ==> result.job.value.completed)
      && result.controller == Waiting
      && WellNumbered(result.replicaSets, result.deployment, result.nextRevision)
      && result.deployment.Some? == c.deployment.Some?
      && (c.deployment.Some? ==> result.deployment.value.wanted == c.deployment.value.wanted)
  {
    hide MainImage, Defaulted, DesiredTemplate, ImageName, CallStep, EnsureReplicaSet, FindRollout, WellNumbered;
    var progress := JobProgress(true, if c.job.Some? then c.job.value.failed else 0);
    moves := [progress];
    RunExtends(c, [], progress);
    assert [] + [progress] == moves;
    assert moves[..0] == [] && Run(c, []) == c;
    var c1 := Run(c, moves);
    assert c1 == Step(c, progress);
    if !c1.controller.Waiting? {
      RunExtends(c, moves, ControllerStep(false));
      var longer := moves + [ControllerStep(false)];
      assert longer[..0] == [] && longer[..1] == moves;
      moves := longer;
    }
  }

  /** The Deployment asks for a number of pods that can exist. */
  ghost predicate Countable(deployment: Option<Deployment>) {
    deployment.Some? && deployment.value.wanted.Some? ==> deployment.value.wanted.value >= 0
  }

  lemma QuietIsPolite(c: Cluster, moves: seq<Event>)
    requires forall i :: 0 <= i < |moves| ==> Quiet(moves[i])
    ensures PoliteRun(c, moves)
  {
    hide Run, Quiet;
  }

  /** From every reachable idle state the environment can settle, unless the Deployment asks for a negative number
      of pods. */
  lemma {:induction false} CanSettle(c: Cluster) returns (moves: seq<Event>)
    requires Inv(c) && c.pc.Idle?
    requires Countable(c.deployment)
    ensures PoliteRun(c, moves)
    ensures Settled(Run(c, moves))
  {
    var prelude := JobEnds(c);
    hide RolledOut, Inv, Run, FindRollout, WellNumbered, PoliteRun, Quiet;
    var c1 := Run(c, prelude);
    if c1.deployment.None? {
      return prelude;
    }
    var observing, at := ControllerObserves(c1);
    RunJoins(c, prelude, observing);
    QuietIsPolite(c1, observing);
    PoliteJoins(c, prelude, observing);
    prelude := prelude + observing;
    var rest := PodsBecomeAvailable(Run(c, prelude), at);
    RunJoins(c, prelude, rest);
    QuietIsPolite(Run(c, prelude), rest);
    PoliteJoins(c, prelude, rest);
    moves := prelude + rest;
  }

  lemma {:induction false} RunJoins(c: Cluster, first: seq<Event>, second: seq<Event>)
    ensures Run(c, first + second) == Run(Run(c, first), second)
    decreases |second|
  {
    hide Step;
    if second == [] {
      assert first + second == first;
    } else {
      var last := |second| - 1;
      RunJoins(c, first, second[..last]);
      assert (first + second)[..|first + second| - 1] == first + second[..last];
    }
  }

  // ---------- Stable can be reached ----------

  lemma {:induction false} MovesKeepInv(c: Cluster, moves: seq<Event>)
    requires Inv(c)
    ensures Inv(Run(c, moves))
  {
    hide Inv, Step;
    if moves != [] {
      MovesKeepInv(c, moves[..|moves| - 1]);
      StepKeepsInv(Run(c, moves[..|moves| - 1]), moves[|moves| - 1]);
    }
  }

  /** A state from which the environment can settle, with a spec that can be served. */
  ghost predicate Promising(c: Cluster) {
    && c.pc.Idle? && Sound(c) && Serves(c.mattermost.spec.endpoint)
    && WantedReplicas(Target(c)) >= 0 && Countable(c.deployment)
  }

  lemma ReconcileStaysPromising(c: Cluster, plan: nat -> Outcome)
    requires Reliable(plan) && Promising(c) && Settled(c)
    ensures Promising(Reconcile(c, plan))
  {
    hide Defaulted, ImageName, MainImage, DesiredTemplate, RolledOut, HealthStatus, Serves;
    DefaultedTwice(c.mattermost.spec);
    DesiredImage(Target(c));
    ReconcileLowersRank(c, plan);
    var at, n := ReachesDeployment(c, plan);
    FromGettingDeployment(at, plan, n);
  }

  lemma {:induction false} PoliteMovesKeepWanted(c: Cluster, moves: seq<Event>)
    requires PoliteRun(c, moves)
    ensures c.deployment.Some? == Run(c, moves).deployment.Some?
    ensures c.deployment.Some? ==> Run(c, moves).deployment.value.wanted == c.deployment.value.wanted
  {
    hide Defaulted, ImageName, MainImage, DesiredTemplate, EnsureReplicaSet, CallStep, Edit, IndexOfTemplate, IsNewest,
      PoliteRun;
    if moves != [] {
      PoliteFront(c, moves);
      PoliteMovesKeepWanted(c, moves[..|moves| - 1]);
    }
  }

  /** Any number of settled rounds can follow. */
  lemma {:induction false} RoundsExist(c: Cluster, n: nat) returns (rounds: seq<Round>)
    requires Inv(c) && Promising(c)
    ensures |rounds| == n && Steady(c, rounds)
    ensures Inv(AfterRounds(c, rounds)) && Promising(AfterRounds(c, rounds))
  {
    hide Inv, Sound, Settled, Run, Reconcile, Serves, Defaulted, Countable, PoliteRun;
    rounds := [];
    if n > 0 {
      rounds := RoundsExist(c, n - 1);
      var before := AfterRounds(c, rounds);
      var moves := CanSettle(before);
      var plan := (_: nat) => Done(true);
      var moved := Run(before, moves);
      MovesKeepInv(before, moves);
      PoliteRunKeepsRank(before, moves);
      assert Promising(moved) by { MovesStayPromising(before, moves); }
      ReconcileStaysPromising(moved, plan);
      ReconcileKeepsInv(moved, plan);
      var longer := rounds + [Round(moves, plan)];
      assert longer[..n - 1] == rounds;
      assert forall i :: 0 <= i < n - 1 ==> longer[..i] == rounds[..i] && longer[i] == rounds[i];
      rounds := longer;
    }
  }

  lemma MovesStayPromising(c: Cluster, moves: seq<Event>)
    requires Promising(c) && PoliteRun(c, moves)
    requires Settled(Run(c, moves))
    ensures Promising(Run(c, moves))
  {
    hide Run, Sound, Serves, Defaulted, PoliteRun;
    PoliteRunKeepsRank(c, moves);
    PoliteMovesKeepWanted(c, moves);
  }

  /** So every reachable idle state whose spec can be served has a continuation of settled rounds that ends in Stable:
      the rounds of StableWithinThreeRounds exist. */
  lemma {:induction false} StableIsReachable(c: Cluster) returns (rounds: seq<Round>)
    requires Inv(c) && Promising(c)
    ensures |rounds| <= 4 && Steady(c, rounds) && IsStable(AfterRounds(c, rounds))
    ensures (c.job.Some? ==> c.job.value.failed == 0) ==> |rounds| == 3
  {
    hide Inv, Sound, Steady, AfterRounds, Serves, Defaulted, Countable, IsStable;
    if c.job.Some? && c.job.value.failed != 0 {
      rounds := RoundsExist(c, 4);
    } else {
      rounds := RoundsExist(c, 3);
    }
    StableWithinThreeRounds(c, rounds);
  }

  // ---------- What a single reconcile does ----------

  /** The gate, exactly: when the new image needs a Job, a reconcile touches the Deployment if and only if
      the stored Job runs that image, is completed, and has no failed pod. */
  lemma ReconcileSwitchesIff(c: Cluster, plan: nat -> Outcome)
    requires Reliable(plan) && Sound(c) && c.pc.Idle?
    requires !NeedsNoJob(c)
    ensures var result := Reconcile(c, plan);
      result.deployment != c.deployment <==>
        && c.job.Some? && MainImage(c.job.value.containers) == Some(ImageName(Target(c)))
        && c.job.value.completed && c.job.value.failed == 0
    ensures var result := Reconcile(c, plan);
      result.deployment != c.deployment ==> Written(result.deployment, Target(c)) && result.job.None?
  {
    hide Defaulted, ImageName, MainImage, DesiredTemplate, RolledOut, HealthStatus;
    DefaultedTwice(c.mattermost.spec);
    DesiredImage(Target(c));
    var at, n := ReachesDeployment(c, plan);
    FromGettingDeployment(at, plan, n);
  }

  /** A stable, settled installation is left exactly as it is. */
  lemma StableIsQuiet(c: Cluster, plan: nat -> Outcome)
    requires Reliable(plan) && Sound(c) && Settled(c) && IsStable(c)
    requires Inv(c)
    ensures var result := Reconcile(c, plan);
      result.mattermost == c.mattermost && result.deployment == c.deployment
      && result.job == c.job && result.replicaSets == c.replicaSets
  {
    hide Defaulted, ImageName, MainImage, DesiredTemplate, RolledOut, WorkerOk, ControllerOk, JobsOk, Serves,
      RevisionRuns, WellNumbered, Traceable;
    DefaultedTwice(c.mattermost.spec);
    DesiredImage(Target(c));
    var at, n := ReachesDeployment(c, plan);
    FromGettingDeployment(at, plan, n);
  }

  // ---------- A Job that never completes ----------

  /** The new image needs a Job, the Job runs that image, and it is not completed. */
  ghost predicate Blocked(c: Cluster) {
    && !NeedsNoJob(c)
    && c.job.Some? && MainImage(c.job.value.containers) == Some(ImageName(Target(c))) && !c.job.value.completed
  }

  /** One reconcile after an edit to an image that needs a Job, with no Job there, leads into this state. */
  lemma NewImageBlocks(c: Cluster, plan: nat -> Outcome)
    requires Reliable(plan) && Sound(c) && c.pc.Idle?
    requires !NeedsNoJob(c) && c.job.None?
    ensures Blocked(Reconcile(c, plan)) && Reconcile(c, plan).pc.Idle? && Sound(Reconcile(c, plan))
  {
    hide Defaulted, ImageName, MainImage, DesiredTemplate, RolledOut, HealthStatus, Serves;
    DefaultedTwice(c.mattermost.spec);
    DesiredImage(Target(c));
    var at, n := ReachesDeployment(c, plan);
    FromGettingDeployment(at, plan, n);
  }

  /** Such a state is reached from a new resource: its namespace holds a Deployment of an earlier owner with
      another image. */
  lemma {:induction false} SomeRunIsBlocked(image: string, other: string, plan: nat -> Outcome) returns (start: Cluster)
    requires Reliable(plan) && image != "" && other != "" && image + ":v" != other
    ensures Init(start) && Sound(start) && start.mattermost.spec.image == image
    ensures start.deployment.Some? && MainImage(start.deployment.value.template.containers) == Some(other)
    ensures Blocked(Reconcile(start, plan))
  {
    var spec := Spec(image, "v", "", Some(1), false, NoEndpoint, false, [], "", "");
    var m := Mattermost(spec, 1, Status(Unset, 0, 0, 0, "", ""), 0);
    var template := Template([Container(MATTERMOST_APP_CONTAINER, other, [], None, None)], "");
    var d := Deployment(template, Some(1), "", 1, 0, None, 0, 0);
    start := Cluster(m, Some(d), None, [], Idle, 0, Waiting, 0, 0, {}, [], false, None);
    EmptySizeIsInvalid();
    assert ImageName(Target(start)) == image + ":v" by {
      NotADigest();
      hide GetClusterSize;
    }
    DesiredImage(Target(start));
    assert !NeedsNoJob(start);
    NewImageBlocks(start, plan);
  }

  lemma NotADigest()
    ensures !("sha256:" <= "v")
  {
  }

  /** Everything but an edit of the spec, and the completion or the removal of the Job. It may lose pods, and others
      may try to create Jobs. */
  predicate LeavesJobUnfinished(e: Event) {
    !e.EditSpec? && !e.JobRemoved? && (e.JobProgress? ==> !e.completed)
  }

  /** The same Job, still not completed. */
  ghost predicate SameUnfinished(before: Option<Job>, after: Option<Job>) {
    && before.Some? && after.Some?
    && after.value.uid == before.value.uid && after.value.containers == before.value.containers
    && !after.value.completed
  }

  /** The blocked work, at every point of a reconcile: it gets no further than to the Job. */
  ghost predicate Held(c: Cluster, job: Option<Job>, template: Template, target: Spec) {
    && SameUnfinished(job, c.job)
    && MainImage(job.value.containers) == MainImage(DesiredTemplate(target).containers)
    && c.deployment.Some? && c.deployment.value.template == template
    && !target.updateJobDisabled
    && MainImage(template.containers) != MainImage(DesiredTemplate(target).containers)
    && Target(c) == target
    && WorkerHeld(c.pc, target)
  }

  ghost predicate WorkerHeld(pc: Pc, target: Spec) {
    match pc
    case Idle => true
    case Loaded(m) => Defaulted(m.spec) == target
    case Defaulting(m) => Defaulted(m.spec) == target
    case CheckingDependencies(m) => m.spec == target
    case EnsuringDeployment(m) => m.spec == target
    case GettingDeployment(m) => m.spec == target
    case FetchingJob(m, _) => m.spec == target
    case Failing(_, _) => true
    case _ => false
  }

  lemma CallStaysHeld(c: Cluster, outcome: Outcome, job: Option<Job>, template: Template, target: Spec)
    requires Held(c, job, template, target) && Defaulted(target) == target
    ensures Held(CallStep(c, outcome), job, template, target)
  {
    hide Defaulted, ImageName, MainImage, DesiredTemplate;
    match c.pc
    case Defaulting(_) =>
    case FetchingJob(_, _) =>
    case _ =>
  }

  lemma StepStaysHeld(c: Cluster, e: Event, job: Option<Job>, template: Template, target: Spec)
    requires Held(c, job, template, target) && Defaulted(target) == target && LeavesJobUnfinished(e)
    ensures Held(Step(c, e), job, template, target)
  {
    hide Defaulted, ImageName, MainImage, DesiredTemplate, EnsureReplicaSet, IndexOfTemplate, IsNewest, CallStep, Edit;
    if e.Call? {
      CallStaysHeld(c, e.outcome, job, template, target);
    }
  }

  lemma {:induction false} RunStaysHeld(c: Cluster, events: seq<Event>, job: Option<Job>, template: Template,
      target: Spec)
    requires Held(c, job, template, target) && Defaulted(target) == target
    requires forall e :: e in events ==> LeavesJobUnfinished(e)
    ensures Held(Run(c, events), job, template, target)
  {
    hide Step, Held, LeavesJobUnfinished, Defaulted;
    if events != [] {
      RunStaysHeld(c, events[..|events| - 1], job, template, target);
      StepStaysHeld(Run(c, events[..|events| - 1]), events[|events| - 1], job, template, target);
    }
  }

  /** Until the Job of the new image is completed, nothing that the operator does, with failing calls and crashes,
      and nothing that the Deployment controller, pods or other owners of Jobs do changes the pod template of the
      Deployment, replaces the Job or reaches Stable, however many pods the Job loses. */
  lemma {:induction false} UnfinishedJobBlocks(c: Cluster, events: seq<Event>)
    requires c.pc.Idle? && Blocked(c)
    requires forall e :: e in events ==> LeavesJobUnfinished(e)
    ensures var result := Run(c, events);
      && SameUnfinished(c.job, result.job)
      && result.deployment.Some? && result.deployment.value.template == c.deployment.value.template
      && Blocked(result) && !IsStable(result)
  {
    DefaultedTwice(c.mattermost.spec);
    DesiredImage(Target(c));
    assert Held(c, c.job, c.deployment.value.template, Target(c)) by {
      hide Defaulted, ImageName, MainImage, DesiredTemplate;
    }
    RunStaysHeld(c, events, c.job, c.deployment.value.template, Target(c));
    HeldIsBlocked(Run(c, events), c.job, c.deployment.value.template, Target(c));
  }

  lemma HeldIsBlocked(c: Cluster, job: Option<Job>, template: Template, target: Spec)
    requires Held(c, job, template, target)
    ensures Blocked(c) && !IsStable(c)
  {
    DesiredImage(target);
    hide Defaulted, ImageName, MainImage, DesiredTemplate;
  }

  /** What one reconcile does is a run of calls, so all that holds of every run holds of it. */
  lemma {:induction false} ReconcileIsARun(c: Cluster, plan: nat -> Outcome, n: nat) returns (events: seq<Event>)
    ensures Run(c, events) == UntilIdle(c, plan, n) && forall e :: e in events ==> e.Call?
    decreases CallsLeft(c.pc)
  {
    hide CallStep;
    events := [];
    if !c.pc.Idle? {
      CallMakesProgress(c, plan(n));
      var rest := ReconcileIsARun(CallStep(c, plan(n)), plan, n + 1);
      events := [Call(plan(n))] + rest;
      assert [Call(plan(n))][..0] == [];
      assert Run(c, [Call(plan(n))]) == CallStep(c, plan(n));
      RunJoins(c, [Call(plan(n))], rest);
    }
  }
}
