# Verified model of the shoot-traefik extension

The extension installs Traefik into a shoot cluster by writing two ManagedResources to the seed: one with the Traefik
bundle, which gardener-resource-manager applies to the shoot, and one with a DNSRecord for the wildcard ingress domain.
This project models the extension's five actuator operations (Reconcile, Restore, Delete, ForceDelete, Migrate) together
with everything that acts between their API calls, the generator of the bundle, and the admission check, and proves
properties of them for all inputs and all runs.

## How it is built

- `Cluster` holds the state of one shoot namespace and the assumptions about everything outside the repository:
  resource-manager, the DNS extension, the deletion-protection webhook and the API server (what each call does, whether it
  succeeds, fails without effect, or takes effect while its reply is lost).
- `Lifecycle` is the state machine. A program counter names the API call the operation in flight makes next. A turn is one
  environment step, one answered call, a crash, or the beginning of an operation; a turn that does not apply changes
  nothing. A run is any sequence of turns, so a lemma over all sequences covers every interleaving, failure, crash and retry.
- `DnsTeardown`, `Workload`, `Termination`, `CrashConsistency`, `Leftovers`, `TeardownOrder`, `Reconciliation`,
  `Repetition`, `SeedContent`, `Redeployment` and `Handover` prove what holds of all runs, `Isolation` what concurrent operations on different shoots do
  to one another.
- `Api` and `Operations` are the imperative side: a client over maps keyed by namespace and name, and the `Deployer` and
  `Actuator` classes with their calls and early returns. Each method is proved to take the machine from its first program
  counter to its last, and to leave every other namespace to the environment, so the run lemmas apply to the methods.
- `Settings`, `Objects`, `CrdSplitter`, `Generator`, `Closure` and `BundleContent` are the configuration merge and the
  bundle; `Admission` is the shoot validator.

Environment assumptions, as transition rules: creating a ManagedResource that exists updates its content and flag and
leaves a pending deletion pending; resource-manager applies a live resource's objects, records them as applied, prunes
recorded objects the content no longer lists, and releases a terminating resource at once if keepObjects is set, otherwise
after deleting the recorded objects one by one; applying the DNSRecord manifest reverts the confirmation annotation; the
webhook rejects the deletion of an unconfirmed record; the DNS extension removes a terminating record; everything the
extension only reads may change at any time.

## What the proofs show about the code

- `Delete` never clears keepObjects itself, although pkg/actuator/actuator.go:329 says it passes keepObjects=false. With the
  flag set it keeps every object (`Workload.DeleteHonoursTheFlagItFinds`), and a Migrate abandoned after its first call on
  the shoot resource leaves the flag set (`CrashConsistency.AbandonedMigrateMakesDeleteKeepObjects`).
- Deploying over a resource that an abandoned Migrate has marked for deletion clears the flag and makes resource-manager
  delete the workload (`Redeployment.ReconcileAfterAbandonedMigrate`); `Redeployment.RunsPreserveExactly` says exactly which
  runs of the five operations are safe for which objects.
- `Delete` returns as soon as the record is marked for deletion; pkg/actuator/actuator.go:346-347 speaks of waiting for the
  DNS extension, which the code does not do. A record is certain to be gone after a successful teardown exactly if there was
  none when it began and no live manifest to make one of (`Leftovers.SuccessLeavesNoRecordExactly`); otherwise it is certain
  to be gone or terminating (`DnsTeardown.NoResurrection`).
- A record that vanishes between the read and the annotation fails a Delete or Migrate in which no call fails, although its
  absence is what is wanted. That can happen exactly if the record, when the attempt begins, is terminating, or confirmed
  under a seed resource that is deleting it (`Termination.FailureFreeAttemptErrsExactly`); the next attempt cannot fail that
  way (`Termination.RetrySucceeds`).
- A successful ForceDelete may leave seed resource and record in place (`DnsTeardown.ForceDeleteMayLeaveRecord`). It is
  certain not to exactly if the DNS side was clean when it began (`Leftovers.ForceDeleteCleansUpExactly`), or if none of its
  calls fails (`Termination.FailureFreeAttempt`).
- A Reconcile of a shoot whose domain or external record is gone succeeds and leaves the outdated record published
  (`SeedContent.SuccessLeavesCurrentExactly`), for as long as that lasts (`SeedContent.OutdatedRecordStaysPublished`).
- Migrate and ForceDelete preserve the workload exactly unless resource-manager is already deleting objects when they start
  (`Workload.MigrateAndForceDeletePreserveWorkload`), and every object exactly if none awaits pruning besides
  (`Workload.MigrateAndForceDeletePreserveEveryObject`).
- A teardown can be completed exactly unless Delete has to remove objects from an unreachable shoot; then it waits until its
  time runs out (`Termination.FinishesExactly`, `Termination.BlockedForever`).
- An undocumented ingress provider is accepted and runs no provider at all (`Closure.OneProvider`).

## Model

| member | source | states |
|---|---|---|
| DnsTeardown.RecordDeletionIsNeverRejected | pkg/traefik/deployer.go:258-303 | In every run from any namespace state, when a teardown calls delete on the record the seed resource is gone and the record is confirmed, so the webhook never rejects the call |
| DnsTeardown.NoResurrection | pkg/traefik/deployer.go:261-298 | Once the DNS part of a teardown has succeeded the seed resource is absent and the record absent or terminating, and stays so in every later run until a Reconcile or Restore begins |
| DnsTeardown.StuckForever | pkg/traefik/deployer.go:254-257 | A terminating seed resource with keepObjects=false over an unconfirmed record is never released by the environment alone |
| DnsTeardown.AnnotateFirstGetsStuck | pkg/traefik/deployer.go:254-263 | Annotating before deleting the seed resource can be reverted once, after which no wait for the resource ever succeeds |
| DnsTeardown.ForceDeleteMayLeaveRecord | pkg/actuator/actuator.go:385-396 | From every state, ForceDelete with one failed DNS call succeeds, releases the shoot resource and leaves seed resource and record untouched |
| Leftovers.SuccessLeavesNoRecordExactly | pkg/actuator/actuator.go:346-357 | Every run of attempts of a teardown that succeeds leaves no DNSRecord if and only if there was none when it began and no live manifest to make one of |
| Leftovers.ForceDeleteCleansUpExactly | pkg/actuator/actuator.go:385-396 | Every run of ForceDeletes that succeeds leaves the seed resource absent and the record absent or terminating if and only if that was so when it began |
| Lifecycle.RunKeepsInv | pkg/traefik/deployer.go:172-303 | What is true of the cluster at each point of a teardown holds in every run, under all failures, crashes and interleavings |
| Workload.MigrateAndForceDeletePreserveWorkload | pkg/traefik/deployer.go:172-197 | No run of Migrate and ForceDelete calls removes an object that is not awaiting pruning, if and only if resource-manager is not already deleting applied objects when the run starts |
| Workload.MigrateAndForceDeletePreserveEveryObject | pkg/actuator/actuator.go:372-446 | No run of Migrate and ForceDelete calls removes any shoot object, if and only if resource-manager is not deleting applied objects and no object of an earlier configuration awaits pruning |
| Workload.MigrateMayLose | pkg/actuator/actuator.go:419-441 | A Migrate has begun and not yet set the flag while resource-manager still makes any removal it was about to make |
| Workload.DeleteRemovesManagedObjects | pkg/actuator/actuator.go:333-362 | With keepObjects=false, a Delete that succeeds after any retries leaves no applied object and leaves never-managed objects with their values |
| Workload.DeleteHonoursTheFlagItFinds | pkg/actuator/actuator.go:328-357 | Where anything of the workload is tracked, a successful Delete has removed every tracked object if and only if the flag it found was false; otherwise the whole workload stays |
| Workload.FlagIsTheLastWrite | pkg/traefik/deployer.go:146-173 | In every run the keepObjects flag of the shoot resource is false exactly when its last effective write was Deploy's |
| Workload.DeleteAfterDeployRemovesEverythingManaged | pkg/actuator/actuator.go:325-357 | From any state, if Deploy made the last effective flag write of a run, a successful Delete after it leaves nothing that was managed |
| CrashConsistency.TeardownIsCrashConsistent | pkg/actuator/actuator.go:333-446 | From every state, whatever attempts failed, crashed or lost a reply before, the first success of a teardown leaves a shoot and shoot resource that one uninterrupted attempt from the same state leaves in some environment, with the DNSRecord absent or terminating for Delete and Migrate |
| CrashConsistency.SettledTeardownHasOneResult | pkg/traefik/deployer.go:172-197 | Over a settled shoot, for ForceDelete and Migrate one whose objects are not being deleted, the result is unique: every run of attempts of the teardown that succeeds leaves the same objects |
| CrashConsistency.AbandonedTeardownCanBeCompleted | pkg/actuator/actuator.go:333-446 | From every state a failed or crashed prefix leaves, beginning the teardown again can complete without failures, leaves the record gone or going, for ForceDelete too, and the shoot as an uninterrupted attempt from the first state leaves it |
| CrashConsistency.AbandonedMigrateMakesDeleteKeepObjects | pkg/actuator/actuator.go:328-357 | A Migrate abandoned after setting the flag and a Delete after it, no call of either failing, release the shoot resource and leave every object in the shoot |
| Termination.ProductiveTurnsDecrease | pkg/traefik/deployer.go:180-197 | Every failure-free turn of a call, resource-manager or the DNS extension that changes anything lowers one natural-number measure |
| Termination.BoundedWork | pkg/traefik/deployer.go:180-303 | Every failure-free schedule of a teardown contains at most that many effective turns |
| Termination.ThereIsANextTurn | pkg/traefik/deployer.go:180-303 | A teardown in flight that is not blocked always has an effective failure-free turn |
| Termination.BlockedForever | pkg/traefik/deployer.go:187-192 | A wait for objects to be deleted from an unreachable shoot belongs to a Delete, and no failure-free schedule ever ends it |
| Termination.FinishesExactly | pkg/traefik/deployer.go:180-303 | From every point of a teardown there is a failure-free schedule to its success if and only if it need not delete tracked objects from an unreachable shoot |
| Termination.FairSchedulesFinish | pkg/traefik/deployer.go:180-303 | Every schedule of at least as many rounds as the measure, in each of which the call, both finalizations and every tracked deletion get a turn in any order, ends the attempt or leaves it waiting on an unreachable shoot |
| Termination.TeardownFinishes | pkg/traefik/deployer.go:180-303 | From every point of a teardown that need not delete from an unreachable shoot there are failure-free turns that complete it, even with the record still terminating |
| Termination.StuckSeedIsUnblocked | pkg/traefik/deployer.go:261-276 | A seed resource stuck terminating with keepObjects=false stays so whatever the environment does before the teardown's first call; once that call has rewritten the flag, resource-manager's next turn releases it, and the teardown can be completed |
| Termination.FailureFreeAttempt | pkg/traefik/deployer.go:282-298 | A failure-free attempt of any teardown ends with the record gone or going, in success or in an error only for a record that is already gone together with the seed resource |
| Termination.FailureFreeAttemptErrsExactly | pkg/traefik/deployer.go:282-298 | Some failure-free schedule of an attempt ends in an error if and only if it is no ForceDelete and the record, when the attempt begins, is terminating, or confirmed and tracked by a seed resource that is deleting its objects |
| Termination.RetrySucceeds | pkg/traefik/deployer.go:282-298 | Without seed resource and record, a failure-free attempt never ends in an error |
| TeardownOrder.SeedResourceNeedsShootResource | pkg/actuator/actuator.go:225-233 | In runs without ForceDelete in which no deployment begins over a terminating shoot resource, the seed resource exists only while the shoot resource exists and is live |
| TeardownOrder.RunsKeepOrderExactly | pkg/actuator/actuator.go:225-441 | In every run of all five operations, the seed resource is certain at every point not to outlive the shoot resource if and only if it was at the start and no effective call publishes without a live shoot resource or deletes the shoot resource with the seed resource still there |
| TeardownOrder.OnlyForceDeleteDisturbs | pkg/actuator/actuator.go:346-394 | In every run from any state, the only teardown call that deletes the shoot resource with the seed resource still there is a ForceDelete's after a failed DNS part |
| TeardownOrder.ForceDeleteBreaksTheOrder | pkg/actuator/actuator.go:386-394 | ForceDelete with a failed DNS part removes the shoot resource while the seed resource stays |
| TeardownOrder.DeployingOverADeletionBreaksTheOrder | pkg/actuator/actuator.go:225-233 | A Reconcile begun while the shoot resource is terminating can publish a record after the resource is gone |
| Handover.HandoverIsSeamless | pkg/actuator/actuator.go:401-446 | With Restore on the new seed after a successful Migrate on the old one, under any failures and retries, the two shoot resources never coexist and nothing present when Migrate succeeded is lost; unless the old seed was deleting objects at the start, no workload object is missing before that either |
| Handover.RestoreTakesOver | pkg/actuator/actuator.go:401-410 | For a shoot neither deleted nor hibernated, a successful Restore leaves the new seed's resource live, with keepObjects=false and the planned content |
| Isolation.InterleavingsProject | pkg/actuator/actuator.go:175-446 | Any interleaving of operations on several namespaces, seen from one of them, is the run of its own turns alone |
| Reconciliation.RefusedReconcilesWriteNothing | pkg/actuator/actuator.go:185-228 | Reconciles that meet a missing cluster, a deleted or hibernated shoot, a bad log level or a bundle that cannot be generated leave the cluster to the environment in every run |
| Reconciliation.ReconcileWritesExactly | pkg/actuator/actuator.go:185-228 | A reconciliation goes on to write if and only if the lookup yields an active shoot, the log level is accepted, the image is known, all fixed documents encode and the CRD stream splits; it writes the bundle of the merged configuration, which matches the input object by object |
| Reconciliation.EveryWriteIsAClosedBundle | pkg/traefik/deployer.go:135-153 | Every bundle written in any run is generated from some input and matches it object by object, is closed under its references, holds the service whose address is published, has at least one replica and one valid log level, and is written for an active shoot |
| Reconciliation.RecordsFollowTheLoadBalancer | pkg/actuator/actuator.go:246-285 | In every run a DNSRecord is written only after the same attempt read an active shoot with a domain, the reference from that shoot's external record and the service; it has the first non-empty of ip, hostname, ip, hostname as its one value, and its name covers exactly the hosts with one label in front of the ingress domain of the domain read |
| Reconciliation.WildcardCoversIngress | pkg/actuator/actuator.go:283 | The wildcard name covers a host if and only if the host is one non-empty label without dots in front of `.ingress.` and the domain |
| Reconciliation.PublishesExactlyWithAnAddress | pkg/actuator/actuator.go:272-285 | The step goes on to write if and only if the service is read and some address is non-empty; otherwise it fails without a write |
| Reconciliation.LbAddressIsFirstNonEmpty | pkg/actuator/actuator.go:312-323 | A non-empty result is the first non-empty entry of the flattened list |
| Reconciliation.NoAddressMeansAllEmpty | pkg/actuator/actuator.go:312-323 | The result is empty exactly if every entry is |
| Reconciliation.ControllersNeverChange | pkg/traefik/deployer.go:773-807 | Over any runs with any configurations, from a shoot whose classes under the extension's two names fit, beside any ingress classes of others, applying an object never gives an existing ingress class another controller |
| Reconciliation.ContentIsLastDeployed | pkg/traefik/deployer.go:135-153 | In every run the content of the shoot resource is the content deployed last |
| Reconciliation.ShootConvergesToLastDeployment | pkg/traefik/deployer.go:135-153 | After any run of Reconciles and Restores over a live resource or none, a settled resource-manager leaves exactly the last content, whatever came before, and beside it only objects that were untracked from the start, unchanged |
| Reconciliation.ShootSettles | pkg/traefik/deployer.go:135-153 | A live resource on a reachable shoot can always be settled by resource-manager's own turns, without changing its content |
| SeedContent.SeedContentIsLastPublished | pkg/traefik/deployer.go:240-242 | In every run the content of the seed resource is the record spec written last |
| SeedContent.RecordConvergesToLastPublication | pkg/traefik/deployer.go:210-248 | After any run of Reconciles and Restores over a live seed resource or none, once resource-manager has applied it, the record has the spec written last |
| SeedContent.SuccessLeavesCurrentExactly | pkg/actuator/actuator.go:246-264 | In unchanged surroundings, what is published after every successful run of a Reconcile is what they call for if and only if it was so before or the Reconcile cannot succeed without publishing |
| SeedContent.OutdatedRecordStaysPublished | pkg/actuator/actuator.go:246-264 | As long as the domain, or the shoot's external record, is missing, no run of Reconciles and Restores changes a published manifest |
| Redeployment.RunsPreserveExactly | pkg/traefik/deployer.go:144-197 | In every run of all five operations in any order, given objects are safe at every point if and only if resource-manager is not removing any of them at the start and no effective call writes over a terminating resource tracking one, drops a tracked one from the bundle, or deletes a resource tracking one without keepObjects |
| Redeployment.ReconcileAfterAbandonedMigrate | pkg/traefik/deployer.go:146-178 | A Migrate abandoned while it waits leaves every object in place, and a Reconcile after it makes resource-manager delete any tracked object, with no call failing |
| Repetition.ReconcilingAgainChangesNothing | pkg/actuator/actuator.go:202-238 | Over a deployment in place, further Reconciles of the same content, complete, failed or crashed, change nothing in the namespace |
| Repetition.SuccessThenNothingMore | pkg/actuator/actuator.go:202-285 | A successful Reconcile of an active shoot puts the deployment in place, after which any further ones change nothing |
| Settings.Merged | pkg/actuator/actuator.go:202-223 | Merging fails exactly on a log level outside the six and empty; otherwise every field the user has set is taken over and every other one has its default, with at least one replica and a provider |
| Settings.Merge | pkg/actuator/actuator.go:202-223 | The field-by-field update takes over what is set, leaves the defaults 2, KubernetesIngress, Info and no dashboard elsewhere, and reports a rejected level |
| Settings.MergingSettles | pkg/actuator/actuator.go:203-223 | An undecodable configuration counts as none, and merging a merged configuration again changes nothing |
| Settings.ClassNameDeterminesController | pkg/traefik/deployer.go:108-114 | Two configurations share the class name if and only if they share the controller |
| CrdSplitter.SplitCrds | pkg/traefik/deployer.go:388-419 | The loop over the stream computes the specified split, with the first error |
| CrdSplitter.CollectedHoldsLastDefinitions | pkg/traefik/deployer.go:389-412 | There is one file `crd-<name>.yaml` per distinct CRD name, holding name and payload of the last document that defines it |
| CrdSplitter.PayloadsMatter | pkg/traefik/deployer.go:406-411 | Streams whose last definitions of a name have different payloads are split differently |
| CrdSplitter.OneFilePerName | pkg/traefik/deployer.go:402-411 | There are as many files as distinct names defined |
| CrdSplitter.FirstBreakDecides | pkg/traefik/deployer.go:394-409 | The error is that of the first document that cannot be decoded, or defines a CRD and cannot be marshalled |
| CrdSplitter.SplitFailsExactly | pkg/traefik/deployer.go:394-418 | Splitting fails if and only if a document breaks the stream or no document defines a CRD, the latter being reported exactly if none breaks it |
| CrdSplitter.FileOfInjective | pkg/traefik/deployer.go:411 | Different CRD names get different files |
| Generator.GenerateResources | pkg/traefik/deployer.go:306-384 | Filling the map file by file yields the specified documents or the first failure |
| Generator.PlanFailsExactly | pkg/actuator/actuator.go:202-228 | There is no bundle for an input if and only if the log level is rejected, the image is unknown, a fixed document does not encode, or the CRD stream is broken or names no CRD |
| Generator.DocumentsSucceedExactly | pkg/traefik/deployer.go:306-384 | Generation succeeds if and only if the image is found, every fixed document encodes and the stream splits |
| Generator.FirstFaultDecides | pkg/traefik/deployer.go:309-374 | Generation reports the first step that fails, the image being looked up after three encodings and before the deployment's |
| BundleContent.PlanHoldsCrds | pkg/traefik/deployer.go:376-383 | Every planned bundle holds, for each name the stream defines, the CRD with the payload of its last definition, no other CRD, and eight objects more than there are names |
| BundleContent.PlanMatchesInput | pkg/traefik/deployer.go:440-887 | Every planned bundle matches its input: replicas, log level, provider, API flags, dashboard port and ingress class follow the user's configuration or the defaults; the image is the one found; ports 80 and 443 of the service reach web and websecure; the probes ask the ping entry point; all selectors pick exactly Traefik's pods; the disruption budget is at least one and at most the replicas; the CRDs are those of the stream |
| BundleContent.RoleGrantsExactly | pkg/traefik/deployer.go:440-494 | The role grants a verb on a resource if and only if Traefik needs it: reads of what it routes to, updates of ingress status, and for the NGINX provider reads of namespaces and single pods |
| Generator.BundleLosesNothing | pkg/traefik/deployer.go:376-383 | The bundle is the disjoint union of the eight fixed documents and the CRD documents |
| Generator.BundleKeysDistinct | pkg/traefik/deployer.go:306-384 | No two files of a bundle describe the same cluster object |
| Closure.PlannedBundleIsClosed | pkg/traefik/deployer.go:440-887 | For every configuration, ports, probes, entry points, selectors, service account, role, watched class and published service resolve inside the bundle, and the disruption budget's minimum does not exceed the replicas |
| Closure.EntryPointsAreThePorts | pkg/traefik/deployer.go:560-619 | The entry points opened are the container ports declared, and 9000 is one exactly for the dashboard |
| Closure.OneProvider | pkg/traefik/deployer.go:579-594 | At most one provider is enabled, and one is enabled if and only if the configured value is empty or documented |
| Closure.WatchedClassIsOurs | pkg/traefik/deployer.go:577-594 | The class argument of the running provider is the name of the bundle's ingress class, under the provider's controller |
| Closure.NginxRulesExtendBaseRules | pkg/traefik/deployer.go:441-494 | The NGINX provider's rules properly extend the base rules |
| Admission.ValidateShoot | pkg/admission/validator/shoot.go:72-107 | A shoot is denied if and only if there is a first entry of type shoot-traefik, its flag is unset or false, and the purpose is not evaluation; a denial names the purpose |
| Admission.UnsetMeansFalse | pkg/admission/validator/shoot.go:77-79 | An unset flag and a false one give the same verdict at every position |
| Admission.EnabledByAnyEntry | pkg/admission/validator/shoot.go:75-84 | With unique types the check is about any enabled entry of the type |
| Admission.DisabledEntryShadows | pkg/admission/validator/shoot.go:75-84 | Without uniqueness a disabled entry hides every later enabled one |
| Operations.Deployer.DeleteDNSRecord | pkg/traefik/deployer.go:258-303 | The method runs the machine's DNS part, leaves other namespaces to the environment, and without an error leaves the record gone or going |
| Operations.Deployer.ReleaseSeedResource | pkg/traefik/deployer.go:261-276 | Flag, delete and wait on the seed resource, with their early returns, are the machine's first three calls |
| Operations.Deployer.DropRecord | pkg/traefik/deployer.go:278-298 | Reading, annotating and deleting the record are the machine's next calls, with a vanished record forgiven on delete but not on patch |
| Operations.Deployer.DeleteManagedResource | pkg/traefik/deployer.go:180-197 | Delete and wait on the shoot resource are the machine's last two calls |
| Operations.Deployer.DeleteKeepingObjects | pkg/traefik/deployer.go:172-178 | The flag is set before the deletion, and a missing resource is forgiven |
| Operations.Deployer.Deploy | pkg/traefik/deployer.go:135-153 | A bundle that cannot be generated is an error without any call; otherwise the shoot resource is written with keepObjects=false |
| Operations.Deployer.DeployDNSRecord | pkg/traefik/deployer.go:210-248 | The record with the one address is written through the seed resource |
| Operations.Actuator.Reconcile | pkg/actuator/actuator.go:172-238 | The method runs the machine's reconciliation of the merged configuration from start to end, and raises only its own count, by one |
| Operations.Actuator.ReconcileDNSRecord | pkg/actuator/actuator.go:243-286 | Lookup, client, service read and publication, with their skips and errors, are the machine's calls |
| Operations.LbAddressFromService | pkg/actuator/actuator.go:312-323 | The loop with early returns computes the specified address |
| Operations.Actuator.Delete | pkg/actuator/actuator.go:333-362 | The method runs the machine's Delete; without an error the shoot resource is gone and the record gone or going |
| Operations.Actuator.ForceDelete | pkg/actuator/actuator.go:372-397 | The method runs the machine's ForceDelete past DNS errors; without an error the shoot resource is gone |
| Operations.Actuator.Restore | pkg/actuator/actuator.go:401-410 | A restore is a reconciliation; both counts go up by one and no other |
| Operations.Actuator.Migrate | pkg/actuator/actuator.go:419-446 | The method runs the machine's Migrate; without an error the shoot resource is gone and the record gone or going |
| Api.Client.WaitUntilDeleted | pkg/traefik/deployer.go:187-192 | Waiting succeeds only when the resource is absent, and fails when time runs out |

## Left out

- Real time and the two-minute limit of the waits: a wait may fail at any poll instead.
- The bodies of the managedresources package, GetCluster, NewClientForShoot and the image vector: they are the calls and
  inputs of the model. CreateForShoot and CreateForSeed are one atomic step, not a secret and a resource.
- Operations.Deployer.DeployDNSRecord: does not model the record type derived from the address, because GetDNSRecordType is
  not part of this model, nor a failure to encode the record, which ends the attempt like a failed call, without a write.
- Decoding and encoding of YAML and JSON: a document is what the code looks at, with success or failure as an input.
- A finished deletion of a shoot object is one step; finalizers of shoot objects are not modelled.
- Concurrent manual edits of the ManagedResources or of the record's annotation by other parties.
- Deployment details without cross-references: resource quantities, security contexts, topology spread, non-selector labels.
- Operation durations and logging; of the metrics only the counters are modelled.
- Option setters, command-line flags, controllers, heartbeat, manager wiring and charts.
