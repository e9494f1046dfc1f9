# Verification of the Mattermost operator

A Dafny model of the reconcile protocols of the Mattermost operator, and of the data transformations they
rely on. Protocols are state machines whose steps are single API calls of the operator and moves of everything
else; a run is any sequence of steps, so the theorems quantify over every interleaving, crash and failed call.
Beside each machine stands the controller's code in its own imperative form, proved to be the machine.

`dafny verify dfyconfig.toml` checks the project.

## What is modelled

- **Admission limiter** (`Limiter`): any number of workers share a counter behind a mutex, while statuses are
  written outside of it.
- **Rollout** (`Rollout`, `RolloutSafety`, `Convergence`, `Reconciler`, `RolloutSpecs`): one Mattermost resource,
  its Deployment, the update Job that gates a new image, the ReplicaSets and the Deployment controller, up to
  the published status.
- **Update Job** (`UpdateJob`, `UpdateJobTemplate`): the Job's template, edited in place in a deep copy.
- **Migration** (`Migration`, `MigrationSafety`, `MigrationWait`, `MigrationRetries`, `MigrationProgress`,
  `MigrationReconciler`): from a ClusterInstallation to a Mattermost resource, by deletes and creates of repeated
  reconciles. Between two calls the world is replaced by an arbitrary one.
- **Specs, sizes and conversion** (`Sizes`, `V1alpha1`, `V1beta1`, `Conversion`, `SizeHistory`): both resources,
  their defaults, and the translation.
- **Labels** (`LabelMaps`, `MattermostLabels`): label functions that write into a map they share with the spec.
- **Environment variables** (`EnvVars`), **Service** (`Service`), **access modes** (`AccessModes`), **body size**
  (`BodySize`).

## What the proofs found

- While as many installations as the limit allows stay unstable, no Stable or new one is reconciled, not even after
  an edit (`SaturationStarves`); installations that are blocked as in the next point stay unstable.
- A Job that runs out of retries never gets a completion time, so an image that fails its check blocks the
  installation until somebody deletes the Job or edits the spec (`UnfinishedJobBlocks`).
- With extra pod labels that the resource labels lack, the health check finds neither Service nor Ingress, and
  the installation never gets Ready (`EndpointIsFoundIff`, `ExtraLabelsWithholdReady`).
- `MattermostLabels` does depend on earlier calls, since it shares its map with the pod labels
  (`ResourceAnswerIgnoresHistoryIff`); the comments in the source say nothing of it.
- A run of the migration that stops between the delete and the create of the Deployment leaves a gap that no
  retry closes (`GapIsForever`). A second Deployment with the same labels makes every retry replace the
  relabelled one again (`RelabelledIsReplacedIff`).
- The migration compares the pods of the spec stored before with the edited spec, to which no defaults were
  applied. An edit that asks for the migration and, at once, for more pods than run, or for another image or none,
  keeps it waiting for ever, unless it asks for no pods together with the other image. A smaller number of pods is
  met only at a moment of the rollout at which just so many are ready; a count that is dropped stands for one
  (`WaitEndsIff`, `EditsThatNeverEnd`, `MigrationCompletesIff`, `MigrationCanCompleteIff`).
- The comparison of access modes is wrong for stored modes with a duplicate (`DuplicatesLetModesChange`), unless
  they name every mode that can be asked for (`ClaimComparisonIsTrustworthyIff`).
- A finished Job whose clean-up is lost may gate a second switch (`LostCleanUpLetsJobVouchTwice`).
- A changed extra label changes the immutable selector of the job server
  (`ExtraLabelChangesJobServerSelectorIff`).
- An empty body-size annotation makes the operator panic, and one that is no number before its unit means zero
  bytes (`PanicsIff`, `SizeIsZeroIff`, `ReadAsZeroIff`).
- A negative replica count is accepted and never gets Stable (`NegativeCountIsNeverStable`).

## Assumptions

- Reads are linearizable: the cached client is taken for the API server.
- A failed write changes nothing. An update compares and swaps on the resource version that was read.
- One resource is never processed by two workers at once.
- Only the operator writes the status of Mattermost resources.
- Patches of generated resources are off.
- The update Job has one name per namespace. Other resources of the namespace may create and remove it at any
  time, and one may be there from the start.
- Only the operator and the Deployment controller write the Deployment of a Mattermost resource, and nobody deletes
  it. In the migration the world may do anything to it.
- Revision numbers of a Deployment are never used twice. Whether the revision annotation survives an update
  of the Deployment is left open.
- The API server refuses access modes that it does not know, and `ReadWriteOncePod` beside another mode.
- The API server assigns cluster IPs that are neither empty nor `None`.
- In the rollout, `pod` stands for every input of the pod template other than image, replicas and sidecars,
  `labels` for the labels of the Deployment; checks of databases, file stores, licenses, roles, Services and
  Ingresses are one call that succeeds or fails.

## Model

| member | source | states |
|---|---|---|
| Limiter.LoadStaysBounded | controllers/mattermost/mattermost/controller.go:97-115 | For any number of workers and any interleaving of their steps with user creates, deletes, status writes outside the lock and operator restarts: the resources that are Reconciling, Ready or admitted are never more than the larger of the limit and their number at the start. |
| Limiter.CounterIsExact | controllers/mattermost/mattermost/controller.go:244-256 | In every run the counter is the number of workers between admission and decrement, is never negative, and is 0 when no worker runs. |
| Limiter.SingleWorkerComparesPlainCount | controllers/mattermost/mattermost/controller.go:229-239 | With one worker the admission test is a plain comparison of the count of stored unstable resources with the limit. The older controller compares a count in this way, too, but of Reconciling resources only. |
| Limiter.PlainCountIsNotEnough | controllers/mattermost/mattermost/controller.go:230-239 | A run of two workers in which the plain comparison alone would admit beyond the limit: the counter is needed. |
| Limiter.UndisturbedWorkerIsAdmittedIff | controllers/mattermost/mattermost/controller.go:219-242 | Whenever the lock is free, a worker that starts on a resource that is not unstable, and that nobody disturbs, is admitted if and only if the stored unstable resources and the admitted workers together are fewer than the limit. |
| Limiter.SaturationStopsAdmission | controllers/mattermost/mattermost/controller.go:219-242 | In every run, from a moment on at which no worker holds a list that would admit it: as long as at least the limit of resources stays unstable, nobody is admitted, so the admitted workers only get fewer. |
| Limiter.SaturationStarves | controllers/mattermost/mattermost/controller.go:97-115 | Meanwhile a resource that is Stable or new, and whose worker is not let in yet, stays stored as it was, or is deleted by its user: no reconcile gets to write its status, however many workers start on it. |
| Limiter.SaturatedStartAdmitsNobody | controllers/mattermost/mattermost/controller.go:219-242 | An operator that starts while at least the limit of resources is unstable admits no worker in any run for as long as they are that many; the counter stays 0. |
| Limiter.StepKeepsInv | controllers/mattermost/mattermost/controller.go:219-242 | Every single step keeps mutual exclusion, the exact counter, the load bound, and that a listing worker covers the load by its count plus the counter. |
| Limiter.CountReconcilingOrReady | controllers/mattermost/mattermost/controller.go:258-266 | The counting loop returns the number of stored resources in Reconciling or Ready. |
| Limiter.UnstableInstallationsRateLimiter.StartNonReconcilingProcessing | controllers/mattermost/mattermost/controller.go:219-242 | The method under the lock does exactly the list and decide steps of the machine, for a failed list, a refusal and an admission. |
| Limiter.UnstableInstallationsRateLimiter.DecrementProcessing | controllers/mattermost/mattermost/controller.go:252-256 | The deferred decrement is the decrement step of the machine. |
| RolloutSafety.NoStaleStable | controllers/mattermost/mattermost/controller.go:170-206 | In every run, whatever the placement of edits, crashes, failed calls and Deployment-controller steps: while the status says Stable for the current generation, the live Deployment is the one generated from the spec, its generation is observed, all ReplicaSets of its revision run its template, and at an earlier moment of the run such a ReplicaSet was stored with exactly the wanted available pods, at or after a moment when the Deployment, observed, was stored with that many pods. |
| RolloutSafety.EvidenceWasRead | pkg/mattermost/healthcheck/health_check.go:95-138 | Every Deployment and ReplicaSet that a Stable status rests on was stored at moments of the run, the ReplicaSet not before the Deployment. |
| RolloutSafety.NegativeCountIsNeverStable | controllers/mattermost/mattermost/health_check.go:48-93 | In every run a negative replica count, which the resource accepts, is never reported as Stable for its generation. |
| RolloutSafety.ImageSwitchNeedsFinishedJob | controllers/mattermost/mattermost/mattermost.go:402-451 | In every run, from any Job left behind and with Jobs that others create under the same name, the main image of an existing Deployment changes with the update Job enabled only if, at this or an earlier moment, a stored Job with that image was completed without a failed pod. |
| RolloutSafety.ImageChangeIsLogged | controllers/mattermost/mattermost/mattermost.go:442-448 | The only step that changes the main image of an existing Deployment is the operator's update; a gated one is recorded together with the Job that vouches for the image. |
| RolloutSafety.FinishedWasStored | controllers/mattermost/mattermost/mattermost.go:502-514 | A Job on record as finished was stored as completed with no failed pod, running that image, at some moment of the run. |
| RolloutSafety.EachSwitchUsesItsOwnJob | controllers/mattermost/mattermost/mattermost.go:437-440 | In every run without a lost clean-up, two gated image switches of the resource never rest on the same Job, whoever created the Jobs. |
| RolloutSafety.JobVouchesAgain | controllers/mattermost/mattermost/mattermost.go:437-440 | From every moment of a run at which a finished Job is about to gate a switch, crashes before each clean-up and a switch back with the update Job disabled lead to that Job gating the same switch twice. |
| RolloutSafety.LostCleanUpLetsJobVouchTwice | controllers/mattermost/mattermost/mattermost.go:437-440 | The restriction is needed: a run from a new resource in which the clean-up is lost and two gated switches rest on one Job. |
| RolloutSafety.StepKeepsInv | controllers/mattermost/mattermost/controller.go:82-208 | Every call of the worker and every move of the environment keeps the invariant behind the rollout theorems. |
| RolloutSafety.ReconcileKeepsInv | controllers/mattermost/mattermost/controller.go:82-208 | A whole reconcile keeps that invariant and ends, whichever of its calls fail. |
| RolloutSafety.EnsureKeepsRevisions | pkg/mattermost/healthcheck/health_check.go:116-124 | When the Deployment controller hands out a revision, earlier revisions keep their templates, so the revision annotation never leads the health check to another template. |
| RolloutSafety.NewestIsUnique | pkg/mattermost/healthcheck/health_check.go:116-124 | A ReplicaSet that keeps the newest revision is the only one with it. |
| RolloutSafety.FindRolloutFinds | pkg/mattermost/healthcheck/health_check.go:116-127 | The ReplicaSet that the health check picks is listed, carries the revision asked for, and was observed. |
| RolloutSafety.DesiredImage | pkg/mattermost/mattermost_v1beta.go:427-447 | The main container generated from a spec carries the spec's image, whatever sidecars the spec adds. |
| Convergence.ReconcileLowersRank | controllers/mattermost/mattermost/mattermost.go:417-516 | From a settled state a reconcile whose calls succeed strictly lowers the rank (Job missing or wrong, Job done, Deployment written, rollout observed), until it is 0, which is Stable; the spec must be one whose endpoint is found. |
| Convergence.PoliteMoveKeepsRank | controllers/mattermost/mattermost/controller.go:176-207 | Progress of Jobs that lose no further pod, of the Deployment controller and of pods never raises the rank. |
| Convergence.StableWithinThreeRounds | controllers/mattermost/mattermost/controller.go:176-207 | Once the spec is left alone, three reconciles, each after the environment has settled, reach Stable when the stored Job has no failed pod, and four in any case, for specs that ask for a number of pods that can exist and for labels under which the endpoint is found. `NegativeCountIsNeverStable` and `ExtraLabelsWithholdReady` are the other half. |
| Convergence.StableIsReachable | controllers/mattermost/mattermost/controller.go:170-206 | From every reachable idle state with such a spec, such rounds exist and end in Stable, also when the Job, running or completed, has lost a pod: it is launched anew. |
| Convergence.CanSettle | pkg/mattermost/healthcheck/health_check.go:95-138 | From every reachable idle state the environment has moves that settle it, unless the Deployment asks for a negative number of pods. |
| Convergence.ReconcileSwitchesIff | controllers/mattermost/mattermost/mattermost.go:454-517 | When a new image needs a Job, an undisturbed reconcile writes the Deployment if and only if the stored Job runs that image, is completed, and has no failed pod; then the Job is gone afterwards. |
| Convergence.StableIsQuiet | pkg/resources/create_resources.go:64-87 | A stable, settled installation is left exactly as it is: no spec, status, Deployment or Job is written. |
| Convergence.UnfinishedJobBlocks | controllers/mattermost/mattermost/mattermost.go:502-506 | A Job of the new image that never gets a completion time blocks the rollout: until the spec is edited or the Job is removed, no run, with failing calls, crashes, pods that the Job loses and other owners of Jobs, changes the pod template of the Deployment, replaces the Job or reaches Stable. |
| Convergence.ReconcileIsARun | controllers/mattermost/mattermost/controller.go:118-208 | What a whole reconcile does is a run of single calls, so what holds of all runs holds of it. |
| Convergence.NewImageBlocks | controllers/mattermost/mattermost/mattermost.go:465-477 | One reconcile after an edit to an image that needs a Job leads into that state. |
| Convergence.SomeRunIsBlocked | controllers/mattermost/mattermost/mattermost.go:465-477 | A new resource in a namespace with a Deployment of another image gets there in its first reconcile. |
| Rollout.CallMakesProgress | controllers/mattermost/mattermost/controller.go:82-208 | Every call brings a reconcile closer to its end. |
| Reconciler.MattermostReconciler.Reconcile | controllers/mattermost/mattermost/controller.go:118-208 | The reconcile in the controller's own form, with its early returns, is the run of the machine for every plan of call outcomes. |
| Reconciler.MattermostReconciler.UpdateMattermostDeployment | controllers/mattermost/mattermost/mattermost.go:402-451 | Same image, Job disabled, Job gate and deferred clean-up, proved to be the machine's steps. |
| Reconciler.MattermostReconciler.CheckUpdateJob | controllers/mattermost/mattermost/mattermost.go:454-517 | Launch, restart, still running, failed and finished Jobs, proved to be the machine's steps; a returned Job is completed and runs the wanted image. |
| Reconciler.MattermostReconciler.RestartUpdateJob | pkg/resources/update_job.go:40-60 | Deletes the outdated Job, then creates one for the new image; a failed delete creates nothing. |
| Reconciler.MattermostReconciler.CleanupUpdateJob | controllers/mattermost/mattermost/mattermost.go:520-528 | The best-effort delete after a Job is done. |
| Reconciler.MattermostReconciler.UpdateDeployment | pkg/resources/create_resources.go:64-87 | Writes exactly when the Deployment differs, and only on the version that was read. |
| Reconciler.MattermostReconciler.CheckMattermostDeployment | controllers/mattermost/mattermost/mattermost.go:306-358 | Create if missing, read back, then update, proved to be the machine's steps. |
| Reconciler.MattermostReconciler.CheckHealth | controllers/mattermost/mattermost/health_check.go:19-101 | The health check against the stored objects, an unobserved Deployment and a missing endpoint included, proved to be the machine's steps. |
| Reconciler.MattermostReconciler.UpdateStatus | controllers/mattermost/mattermost/utils.go:50-60 | Sends nothing for an unchanged status, and is refused on an outdated copy. |
| Reconciler.MattermostReconciler.ApplyDefaults | controllers/mattermost/mattermost/controller.go:130-156 | Defaults are stored when they change the spec; errors end in a Reconciling status. |
| Reconciler.CheckReplicaSetRollout | pkg/mattermost/healthcheck/health_check.go:108-137 | The loop with its break returns the counts of the first observed ReplicaSet of the Deployment's revision, or nothing when no ReplicaSet of that revision was observed. |
| Reconciler.CheckMattermostHealth | controllers/mattermost/mattermost/health_check.go:20-100 | The status built by successive assignments with early returns is the specified health status; it is healthy exactly when that is Stable. |
| Reconciler.IsMainContainerImageSame | controllers/mattermost/mattermost/mattermost.go:382-398 | An error exactly when a list has no main container; otherwise equality of the main images. |
| RolloutSpecs.DefaultsAgree | apis/mattermost/v1beta1/mattermost_utils.go:55-81 | The rollout machine's defaults, and their error, are those of the resource, for every spec. |
| RolloutSpecs.ExtraLabelsWithholdReady | controllers/mattermost/mattermost/health_check.go:30-76 | As long as the specs of a new resource with a load balancer or an Ingress have an extra pod label that the resource labels lack, no run ever reports Ready or Stable. |
| RolloutSpecs.UnfindableIff | controllers/mattermost/mattermost/health_check.go:30-76 | These are exactly the specs whose endpoint the health check cannot find. |
| Kube.GetContainerByName | apis/mattermost/v1beta1/mattermost_utils.go:227-234 | The search returns the first container of that name, and nothing exactly when there is none. |
| Kube.ContainerByNameAt | apis/mattermost/v1beta1/mattermost_utils.go:227-234 | The container at a position is the one found exactly when no earlier one has the name. |
| UpdateJobTemplate.Prepare | pkg/resources/update_job.go:76-137 | The Job gets a deep copy of the pod template: all containers in order with only the main one stripped, every init container but the first waiting one in order, restart never; the Deployment's containers are not touched, while the extra labels of the spec are shared and get the app label. |
| UpdateJobTemplate.RemoveContainer | pkg/mattermost/util.go:25-32 | Shifting in place removes exactly the first container of the name. |
| UpdateJobTemplate.FindContainer | pkg/mattermost/util.go:16-23 | The first position of the name, or not found when no container has it. |
| UpdateJobTemplate.WithoutFirst | pkg/mattermost/util.go:25-32 | What remains is the list without its first container of the name, in order, and the same list when there is none. |
| UpdateJobTemplate.StripMainContainer | pkg/resources/update_job.go:120-131 | The indexed loop strips probes and sets arguments of main containers only. |
| UpdateJobTemplate.JobMatchesItsDeployment | controllers/mattermost/mattermost/mattermost.go:479-489 | A Job prepared from a Deployment passes the image check against that Deployment, so it is not restarted without a spec change. |
| UpdateJobTemplate.JobPodsAreNotSelected | pkg/resources/update_job.go:94-95 | The pods of the Job are never selected by the Service or the Deployment, whatever extra labels users give them. |
| UpdateJob.JobRunsTheImage | pkg/resources/update_job.go:76-137 | The main image of the Job is the main image of the template. |
| Sizes.SizesAreNeverUnset | apis/mattermost/v1alpha1/clusterinstallation_sizes.go:357-369 | Every valid size gives each component at least one pod and some resources, so a value taken from a size is never mistaken for an unset one. |
| Sizes.EmptySizeIsInvalid | apis/mattermost/v1alpha1/clusterinstallation_sizes.go:407-414 | The empty size is no size, and the default size is the one named 5000users. |
| V1alpha1.ClusterInstallation.SetDefaults | apis/mattermost/v1alpha1/clusterinstallation_utils.go:52-77 | Assigning field by field gives the specified spec; an error exactly without a host or with a BlueGreen or a Canary that is refused, and what an error leaves behind. |
| V1alpha1.ClusterInstallation.SetBlueGreenDefaults | apis/mattermost/v1alpha1/clusterinstallation_utils.go:97-125 | The checks in their order, then names and hosts of both deployments; a refusal leaves the lowered production name. |
| V1alpha1.ClusterInstallation.SetCanaryDefaults | apis/mattermost/v1alpha1/clusterinstallation_utils.go:80-94 | The two checks, then the name. |
| V1alpha1.AcceptedBlueGreenIsNamed | apis/mattermost/v1alpha1/clusterinstallation_utils.go:97-125 | An accepted BlueGreen produces blue or green, both deployments are complete, and a second pass changes nothing. |
| V1alpha1.ClusterInstallation.SetReplicasAndResourcesFromSize | apis/mattermost/v1alpha1/clusterinstallation_sizes.go:420-436 | Valid, empty and invalid sizes: the spec is overridden or completed, the size is erased, and an invalid size is reported. |
| V1alpha1.ClusterInstallation.SetDefaultReplicasAndResources | apis/mattermost/v1alpha1/clusterinstallation_sizes.go:438-461 | Zero counts and empty resources get the default size, except the replicas of a database restored from a bucket. |
| V1alpha1.ClusterInstallation.OverrideReplicasAndResourcesFromSize | apis/mattermost/v1alpha1/clusterinstallation_sizes.go:463-472 | All six amounts come from the size, and the size is erased. |
| V1beta1.Mattermost.SetDefaults | apis/mattermost/v1beta1/mattermost_utils.go:55-81 | As for the older resource, with the host taken from either Ingress form or the load balancer controller, and with volumes checked last. |
| V1beta1.Mattermost.ValidateVolumes | apis/mattermost/v1beta1/mattermost_utils.go:87-103 | Refuses exactly the lists with a volume of another source. |
| V1beta1.Mattermost.SetReplicasAndResourcesFromSize | apis/mattermost/v1beta1/mattermost_sizes.go:18-34 | Valid, empty and invalid sizes of the newer resource: in each case every part that the operator runs is complete and the others are untouched. |
| V1beta1.DefaultSizedIsComplete | apis/mattermost/v1beta1/mattermost_sizes.go:36-48 | Completing keeps every count and all resources that are set, of the application, the database and the file store, and leaves nothing that the operator runs without amounts. |
| V1beta1.OverriddenIsComplete | apis/mattermost/v1beta1/mattermost_sizes.go:50-57 | So does overriding by a valid size. |
| V1beta1.Mattermost.SetDefaultReplicasAndResources | apis/mattermost/v1beta1/mattermost_sizes.go:36-48 | The size is erased, every part that the operator runs ends up with a replica count and resources, what the user has set stays, and external databases and unmanaged file stores stay as they are. |
| V1beta1.Mattermost.SetDatabaseDefaultSize | apis/mattermost/v1beta1/db_util.go:44-59 | The in-place code of the database: nothing for an external one, otherwise a missing part is created and completed. |
| V1beta1.Mattermost.SetStoreDefaultSize | apis/mattermost/v1beta1/file_store_util.go:59-74 | The in-place code of the file store. |
| V1beta1.Mattermost.SetDatabaseDefaults | apis/mattermost/v1beta1/db_util.go:11-42 | The in-place defaults of the database. |
| V1beta1.Mattermost.SetStoreDefaults | apis/mattermost/v1beta1/file_store_util.go:14-57 | The in-place defaults of the file store. |
| V1beta1.Mattermost.OverrideReplicasAndResourcesFromSize | apis/mattermost/v1beta1/mattermost_sizes.go:50-57 | The size is erased, every part that the operator runs has exactly the amounts of the size, and the others stay as they are. |
| V1beta1.DefaultIsIdempotent | controllers/mattermost/mattermost/controller.go:132-156 | A second defaulting pass changes nothing, so a stored spec is not written again. |
| V1beta1.DatabaseDefaultIsIdempotent | apis/mattermost/v1beta1/db_util.go:44-72 | The same for the database part, defaulted or overridden. |
| V1beta1.StoreDefaultIsIdempotent | apis/mattermost/v1beta1/file_store_util.go:59-87 | The same for the file store part. |
| SizeHistory.LastWriterWins | apis/mattermost/v1beta1/mattermost_sizes.go:12-57 | Over any history of size edits, manual edits and reconciles, the amounts of each component are those of the last batch that wrote: in it a valid size beats every other edit in whatever order, otherwise the last amounts stay, completed by the default size; the size itself is always consumed. |
| SizeHistory.AfterReconcile | apis/mattermost/v1beta1/mattermost_sizes.go:18-57 | One reconcile: the size is erased, and each component the operator runs gets the size's amounts or its completed own ones. |
| Conversion.EarlyDefaultsChangeNothing | controllers/mattermost/clusterinstallation/conversion.go:28-65 | For every convertible installation and every content of its database secret: defaulting the old resource before the conversion changes neither the errors nor the Mattermost spec stored after it, including sizes, external stores, negative and zero replicas. |
| Conversion.ConvertedDatabaseCommutes | controllers/mattermost/clusterinstallation/conversion.go:91-136 | The database part of that, with the secret missing, invalid, external or managed. |
| Conversion.StoreDefaultsCommute | controllers/mattermost/clusterinstallation/conversion.go:67-89 | The file store part. |
| Conversion.AppDefaultsCommute | controllers/mattermost/clusterinstallation/conversion.go:161-170 | The application part: replicas in two encodings of unset, and resources. |
| Conversion.MigrationKeepsTheWorkload | pkg/mattermost/mattermost.go:349-352 | The pods of the migrated Deployment are wanted as before: same number (with the clamp of negative counts), image, resources, environment, license, probes, host and scheduling, for every size and replica count. |
| MigrationSafety.MattermostCreatedAfterPodsWereReady | controllers/mattermost/clusterinstallation/migration.go:83-119 | In every run, whatever the world does between two calls: the Mattermost resource is created only by a reconcile of a migrating installation without BlueGreen or Canary which, since its start, found no such resource, converted what it had loaded, saw the relabelled Deployment, and at a later moment exactly the wanted number of updated ready pods. |
| MigrationSafety.InstallationDeletedAfterStable | controllers/mattermost/clusterinstallation/migration.go:60-76 | In every run the ClusterInstallation is deleted only by a reconcile that read the Mattermost resource of the same name as Stable. |
| MigrationSafety.ReplicaSetsDeletedAfterStable | controllers/mattermost/clusterinstallation/migration.go:68-72 | Old ReplicaSets are deleted only by such a reconcile, too. |
| MigrationSafety.NothingIsTouchedUnlessConvertible | controllers/mattermost/clusterinstallation/migration.go:27-36 | No call creates or deletes anything unless its reconcile loaded an installation that asks for the migration and has neither BlueGreen nor Canary. |
| MigrationSafety.WorkerIsJustified | controllers/mattermost/clusterinstallation/migration.go:27-119 | Wherever the worker stands, its reconcile has a start, and everything it must have read was true at a moment since then. |
| MigrationSafety.CallReadsWhatItNeeds | controllers/mattermost/clusterinstallation/migration.go:27-119 | Each single call keeps what the worker knew or reads it from the cluster. |
| MigrationSafety.PhaseNeverGoesBack | controllers/mattermost/clusterinstallation/migration.go:83-159 | Old Deployment, relabelled Deployment, Mattermost created, installation gone: in runs that the world leaves alone apart from failures, crashes and pods, the phase never decreases, and a migrated Deployment is never deleted again. |
| MigrationSafety.CallKeepsPhase | controllers/mattermost/clusterinstallation/migration.go:121-159 | Each call keeps that order and does not touch the Deployments once they are migrated. |
| MigrationRetries.RetryReplacesIff | controllers/mattermost/clusterinstallation/migration.go:185-199 | An undisturbed retry deletes the Deployment if and only if the number of Deployments with the wanted labels is not one. |
| MigrationRetries.RelabelledIsReplacedIff | controllers/mattermost/clusterinstallation/migration.go:185-199 | A Deployment with the wanted labels is replaced once more if and only if another Deployment has them, too. |
| MigrationRetries.AttemptCreatesIff | controllers/mattermost/clusterinstallation/migration.go:201-232 | An undisturbed attempt that finds the Deployment relabelled creates the Mattermost resource if and only if its pods are ready. |
| MigrationWait.WaitEndsIff | controllers/mattermost/clusterinstallation/migration.go:219-231 | The migration runs before defaults are applied, against pods of the spec stored before. With all of these ready, its wait for them ends if and only if the edited spec, as it stands, names the running image and as many pods, or another image and no pods. |
| MigrationWait.StoredSpecAwaitsItsPods | controllers/mattermost/clusterinstallation/migration.go:219-231 | So it ends after an edit that only asks for the migration of a stored spec. |
| MigrationWait.EditsThatNeverEnd | controllers/mattermost/clusterinstallation/migration.go:83-119 | In no run does the migration get any further, however often it is retried, for an edit of a stored spec that asks for it and for one pod more, or for no image, or, while all of several pods stay ready, for the default count. |
| MigrationWait.WaitsForEver | controllers/mattermost/clusterinstallation/migration.go:83-119 | The same for every spec: with the pods of a run made from a Deployment of some image and count, the Mattermost resource is never created and the installation stays when no number of ready pods can end the wait, and also when another number could but all pods stay ready. |
| MigrationWait.NothingIsCreated | controllers/mattermost/clusterinstallation/migration.go:106-118 | In every run, with any failures, crashes and moves of the world, in which the pods are at no moment what the installation awaits, the Mattermost resource is not created and the installation is not deleted. |
| MigrationRetries.ReplacementCompletes | controllers/mattermost/clusterinstallation/migration.go:129-158 | When the delete is followed by its deletion, the Deployment comes back with the wanted labels and its old pods. |
| MigrationRetries.GapIsForever | controllers/mattermost/clusterinstallation/migration.go:121-127 | Once the Deployment is gone and not recreated, no number of retries, failures or crashes creates it or the Mattermost resource again, unless the world brings one of them back. |
| MigrationRetries.StoppedReplacementLeavesGap | controllers/mattermost/clusterinstallation/migration.go:129-138 | A crash, or a timeout of the wait, between the delete and the create leads there. |
| MigrationRetries.FirstReconcileKeepsSelector | pkg/mattermost/mattermost_v1beta.go:449-468 | The first reconcile of the created resource wants the selector, labels and pod labels that the migration gave, although the created spec carries the default labels already; they are those of the label functions on shared maps. So the immutable selector never has to change. |
| MigrationRetries.OldSelectorFindsPodsIff | apis/mattermost/v1alpha1/clusterinstallation_utils.go:236-257 | The older selector finds its own pods if and only if the resource labels, which come last there, override none of the selecting labels. |
| MigrationRetries.CleanupSparesNewReplicaSetsIff | controllers/mattermost/clusterinstallation/migration.go:234-254 | The clean-up spares the ReplicaSets of the relabelled Deployment unless users put the older installation's labels on everything. |
| Migration.CallMakesProgress | controllers/mattermost/clusterinstallation/migration.go:27-119 | Every call brings a reconcile closer to its end, including each poll and each ReplicaSet. |
| MigrationReconciler.ClusterInstallationReconciler.HandleMigration | controllers/mattermost/clusterinstallation/migration.go:27-79 | The migration in the controller's own form is the run of the machine, for every outcome of its calls and every move of the world between them. |
| MigrationReconciler.ClusterInstallationReconciler.InitializeMigration | controllers/mattermost/clusterinstallation/migration.go:83-119 | Convert, list, replace, check, create; every early return ends the reconcile. |
| MigrationReconciler.ClusterInstallationReconciler.RecreateDeployment | controllers/mattermost/clusterinstallation/migration.go:121-159 | Read, delete, wait, create under new labels. |
| MigrationReconciler.ClusterInstallationReconciler.WaitForDeploymentDeletion | controllers/mattermost/clusterinstallation/migration.go:161-183 | The polling loop ends when the Deployment is gone or its patience is over; failed reads are ignored. |
| MigrationReconciler.ClusterInstallationReconciler.IsDeploymentMigrated | controllers/mattermost/clusterinstallation/migration.go:185-199 | Counts the Deployments with the wanted labels; asking for the labels fills them into the spec. |
| MigrationReconciler.ClusterInstallationReconciler.IsDeploymentReady | controllers/mattermost/clusterinstallation/migration.go:201-232 | Looks for the Deployment, then compares the counted pods with the wanted ones. |
| MigrationReconciler.ClusterInstallationReconciler.CleanupReplicaSets | controllers/mattermost/clusterinstallation/migration.go:234-254 | The deletion loop stops at the first failure. |
| MigrationReconciler.CheckPodsRollOut | pkg/mattermost/healthcheck/health_check.go:44-91 | The loop counts exactly the selected, running, not terminating pods whose main container has the image and whose first PodReady condition is true. |
| MigrationReconciler.IsPodReady | pkg/mattermost/healthcheck/health_check.go:185-192 | The first PodReady condition decides, and a pod without one is not ready. |
| MigrationReconciler.ListedPodsCount | pkg/mattermost/healthcheck/health_check.go:52-60 | Counting over the listed pods is counting the selected ones. |
| MigrationReconciler.ReconcileIsARun | controllers/mattermost/clusterinstallation/migration.go:27-119 | What one reconcile does is a run of the machine, so the safety theorems hold of it. |
| MigrationProgress.MigrationCompletesWithinThreeRounds | controllers/mattermost/clusterinstallation/migration.go:27-119 | From every state with an idle worker, a Deployment that is there and not being deleted, and no other Deployment of the same labels: three reconciles, each after the pods that the Deployment makes have got ready and a created resource Stable, in a world where deleted Deployments go away, delete the ClusterInstallation, when the ready pods are those that it awaits. |
| MigrationProgress.ReconcileRaisesPhase | controllers/mattermost/clusterinstallation/migration.go:27-119 | Each such reconcile brings the migration into a later phase: Deployment replaced, Mattermost resource created, ClusterInstallation deleted. |
| MigrationProgress.RoundsExist | controllers/mattermost/clusterinstallation/migration.go:27-119 | Any number of such rounds, whose pods come from the Deployment, can follow from every such state; when the ready pods are not what is awaited, rounds in which the pods never end the wait. |
| MigrationProgress.MigrationCompletesIff | controllers/mattermost/clusterinstallation/migration.go:201-232 | Before the Mattermost resource is created: every three or more such rounds delete the ClusterInstallation if and only if the edited installation awaits the image of its Deployment and as many pods as get ready, or another image and no pods. |
| MigrationProgress.MigrationCanCompleteIff | controllers/mattermost/clusterinstallation/migration.go:201-232 | Some rollout of the Deployment, with some number of its pods ready, completes the migration if and only if the installation awaits its image and no more pods than it asks for, or another image and no pods. |
| MigrationProgress.CleanUpEnds | controllers/mattermost/clusterinstallation/migration.go:234-254 | The clean-up deletes every ReplicaSet that it listed, and then the installation. |
| MattermostLabels.Mattermost.LabelsFor | apis/mattermost/v1beta1/mattermost_utils.go:299-361 | The three label functions on shared maps: the result is the map of the spec when there is one, and that map is left with the result's entries. |
| MattermostLabels.PodAnswerIgnoresHistory | apis/mattermost/v1beta1/mattermost_utils.go:317-361 | After any sequence of label calls, pod labels are the resource labels of the original spec, overridden by the extra labels, overridden by the defaults. |
| MattermostLabels.ResourceAnswerIgnoresHistoryIff | apis/mattermost/v1beta1/mattermost_utils.go:299-313 | The labels of other resources do not depend on earlier calls if and only if the spec has no resource labels, no pod labels were asked for, or the extra labels add nothing. |
| MattermostLabels.LabelMap.PutAll | apis/mattermost/v1beta1/mattermost_utils.go:323-328 | The iteration writes every entry, in whatever order. |
| MattermostLabels.GenerateDeployment | pkg/mattermost/mattermost_v1beta.go:449-468 | With resource labels in the spec, the Deployment's own labels and its pod labels are one map, so the extra labels show up on the Deployment as well; its selector is separate. |
| MattermostLabels.GenerateJobServerDeployment | pkg/mattermost/mattermost_v1beta.go:487-503 | Pod labels and selector of the job server are equal; with resource labels its own labels carry the job server's app label. |
| MattermostLabels.MainSelectorFindsIff | pkg/mattermost/mattermost_v1beta.go:460-466 | The main selector finds a pod if and only if it is a main pod of the same installation, whatever labels the spec adds. |
| MattermostLabels.JobServerSelectorFindsIff | pkg/mattermost/mattermost_v1beta.go:499-503 | The job server's selector finds a pod made from any other spec if and only if that is a job server's pod of the same installation with all the labels that the selector was made with; main pods never. |
| MattermostLabels.ExtraLabelChangesJobServerSelectorIff | pkg/mattermost/mattermost_v1beta.go:502-503 | A new extra label changes the immutable selector of the job server if and only if it is no default and not there already. |
| MattermostLabels.EndpointIsFoundIff | controllers/mattermost/mattermost/health_check.go:30-76 | The health check finds the Service and the Ingress by the pod labels if and only if the extra labels add nothing to the resource labels. |
| EnvVars.MergeEnvVars | pkg/mattermost/helpers.go:31-48 | The nested loops that rewrite the list compute the specified merge. |
| EnvVars.MergeIs | pkg/mattermost/helpers.go:29-48 | The merge keeps the original positions, appends new names in the order of their first occurrence, and gives every variable its last value. |
| EnvVars.UserValuesWin | pkg/mattermost/mattermost_v1beta.go:380-381 | Everything a user sets is in the result, and every entry of that name has the value set last. |
| EnvVars.MergeIsAssociative | pkg/mattermost/helpers.go:31-48 | Merging in two steps is merging the merged additions. |
| EnvVars.MergeIsIdempotent | pkg/mattermost/helpers.go:31-48 | Merging the same variables again changes nothing. |
| EnvVars.MergeKeepsUnique | pkg/mattermost/helpers.go:31-48 | Names stay unique when they were, even with duplicates in the additions. |
| Service.UpdatesKeepTypeAndAddress | controllers/mattermost/mattermost/mattermost.go:92-116 | Over every sequence of spec edits, failed calls, crashes, deletions and outside changes of other fields, no update changes the type or the cluster IP of the stored Service. |
| Service.TypeChangesOnlyThroughAbsence | controllers/mattermost/mattermost/mattermost.go:103-112 | As long as the Service exists its type and address stay, so a type change passes through a delete and a create. |
| Service.NextCheckRepairs | controllers/mattermost/mattermost/mattermost.go:92-116 | From every state kept by the invariant, a lost create or a lost Service included, the next check that goes through brings the Service to what the spec asks for. |
| Service.UpdateKeepsAddressIff | pkg/resources/util.go:7-19 | Over a Service made by somebody else, an update keeps the address if and only if the wanted one is not headless or the stored one is. |
| Service.StepKeepsInv | controllers/mattermost/mattermost/mattermost.go:74-117 | Every call and every outside move keeps the invariant. |
| Service.ServiceReconciler.CheckMattermostService | controllers/mattermost/mattermost/mattermost.go:74-117 | The check in the controller's own form is the run of the machine. |
| Service.ServiceReconciler.CreateServiceIfNotExists | pkg/resources/create_resources.go:116-127 | Read, then create if missing. |
| Service.ServiceReconciler.DeleteService | pkg/resources/create_resources.go:249-265 | Read, then delete; a missing Service is no error. |
| Service.ServiceReconciler.Update | pkg/resources/create_resources.go:64-87 | Writes exactly what differs, on the version that was read. |
| AccessModes.AccessModesEqual | controllers/mattermost/mattermost/file_store.go:173-186 | The loop compares as specified, and for stored modes without duplicates that is equality as sets. |
| AccessModes.ComparesIff | controllers/mattermost/mattermost/file_store.go:173-186 | For a duplicate-free first list the comparison holds if and only if both lists have the same elements and the second is duplicate-free as well. |
| AccessModes.ComparisonIsTrustworthyIff | controllers/mattermost/mattermost/file_store.go:173-186 | The comparison implies equal sets for every second list of texts if and only if the first has no duplicates. |
| AccessModes.LimitedComparisonIsTrustworthyIff | controllers/mattermost/mattermost/file_store.go:173-186 | Among modes of any limited choice: if and only if the first has no duplicates or names the whole choice. |
| AccessModes.ClaimComparisonIsTrustworthyIff | controllers/mattermost/mattermost/file_store.go:173-186 | For lists that the API server accepts: if and only if the first has no duplicates, or names all three shared modes, or only the mode for one pod. |
| AccessModes.LocalFileStore.Check | controllers/mattermost/mattermost/file_store.go:92-152 | Create, refuse or update the claim; a read that fails counts as a missing claim and never changes an existing one. |
| AccessModes.ModesNeverChange | controllers/mattermost/mattermost/file_store.go:92-170 | In every run, for as long as the claim exists, modes without duplicates stay the same set, whatever users ask for and whichever calls fail. |
| AccessModes.FirstModesStay | controllers/mattermost/mattermost/file_store.go:155-170 | In every run in which nobody asks for a mode twice, and others may delete and create the claim: a claim has exactly the modes with which it appeared, which were asked for at that moment, or the default, or somebody else's. |
| AccessModes.DuplicatesLetModesChange | controllers/mattermost/mattermost/file_store.go:136-149 | With a duplicate in the stored modes one edit exchanges a mode. |
| BodySize.MegabytesBecomeBytesIff | pkg/mattermost/helpers.go:50-67 | For every 64-bit n the size "nM" gives the decimal of n times 1048576, and reading it gives the product, if and only if the product fits into 64 bits. |
| BodySize.GigabytesAreThousandMegabytesIff | pkg/mattermost/helpers.go:57-64 | For every 64-bit n the size "nG" is the size "(1000n)M" if and only if 1000n fits into 64 bits too, or n is negative and a multiple of two to the 41st. |
| BodySize.DefaultIsOneGigabyte | pkg/mattermost/mattermost_v1beta.go:335-339 | Without the annotation the size is the one that "1000M" gives, and "1G". |
| BodySize.SizeIsZeroIff | pkg/mattermost/helpers.go:56-64 | For every text before the unit, signed or not: the size is zero if and only if the number that the text is read as is a multiple of two to the 44th for M, or to the 41st for G. |
| BodySize.ReadAsZeroIff | pkg/mattermost/helpers.go:57 | A text is read as zero if and only if what follows its sign is no number, or a number of zero. |
| BodySize.PanicsIff | pkg/mattermost/helpers.go:51-56 | The operator panics if and only if the annotation is there and empty. |
| BodySize.UnitsMultiply | pkg/mattermost/helpers.go:56-64 | A text with a unit gives the wrapped product of the unit and the number that the text is read as. |
| BodySize.TextRoundTrip | pkg/mattermost/helpers.go:57-63 | Reading the decimal of a number gives it back, clamped to 64 bits. |
| BodySize.WrappedTextIff | pkg/mattermost/helpers.go:61 | What is read back from a wrapped number is the number if and only if it fits. |

## Left out

- BlueGreen and Canary deployments of the older resource, and the older copy of the job gate: deprecated
  duplicates.
- V1alpha1.ClusterInstallation.SetDefaults: lowers ASCII letters only; no other character is lowered into a letter
  of the two accepted names.
- Limiter.SingleWorkerComparesPlainCount: the older controller's own count, of Reconciling resources only, is not
  modelled.
- Convergence.StableWithinThreeRounds: assumes that calls succeed and that Jobs and pods settle between
  reconciles; requeue delays and time are not modelled.
- MigrationSafety.PhaseNeverGoesBack: holds for runs in which the world keeps the resources, the resource labels
  and the set of Deployments that count as migrated; `RetryReplacesIff` and `GapIsForever` say what happens else.
- MigrationReconciler.ClusterInstallationReconciler.HandleMigration: the status writes around the migration and
  the limit check before it are one call that succeeds or fails.
- MigrationProgress.MigrationCompletesWithinThreeRounds: assumes that calls succeed, that the Deployment has a count
  (the older operator always gives it one) and that no pod carries the new labels before the relabelled Deployment is
  there. A migration in the gap, with a Deployment being deleted, or with another Deployment of the same labels is
  covered by `GapIsForever`, `ReplacementCompletes` and `RelabelledIsReplacedIff`.
- V1beta1.Mattermost.SetDefaults: the specs hold the fields that defaults, sizes and the conversion touch; pod
  templates, job servers, patches and scheduling beyond node selectors and affinity are not in it. Optional parts of the
  spec are values, so `FileStore` and `Database` are replaced rather than written through, and
  sharing of the default size's integers is not captured.
- EnvVars.MergeEnvVars: works on a list value; whether appending reuses the caller's backing array is not
  captured.
- MattermostLabels.GenerateDeployment: only the three label maps of the generated Deployment.
- RolloutSafety.NoStaleStable: a dedicated job server and its health check are not part of the rollout machine.
- Reconciler.CheckMattermostHealth: specs without a dedicated job server; its own check, on the same loop over
  ReplicaSets, comes last in the code and can only withhold Stable.
- Service.ServiceReconciler.Update: labels and annotations are one text, and node ports are not modelled.
- AccessModes.LocalFileStore.Check: storage sizes are texts, and the API server's own refusal of changed claims
  is one of the failures that may happen. Others delete and create the claim between two checks; a move within a
  check has the effect of one of its calls failing.
- BodySize.MegabytesBecomeBytesIff: texts are sequences of characters, not of bytes.
- Resource quantities are texts; the summing of CPU and memory requirements of a size is not modelled.
- Cache staleness, JSON encoding, object diffs and patches, annotation screening, probes, RBAC, secrets, Minio
  and database operators.
- The restore controller, generated clients, and anything that only logs.
