# ARC controllers, modelled and proved

ARC turns an `Order` into ArtifactWorkflows and each ArtifactWorkflow into an Argo Workflow. Two reconcilers do this
over a shared object store in which every call may fail, every worker may die between two calls, and reads may be old.
This project models both reconcilers, the store, and the translation of artifact specs into parameters, and proves what
they guarantee.

The model has two layers.

* **The protocol.** `Cluster` is a state machine over one world: stored Orders, ArtifactWorkflows and Workflows with
  their version histories, the reconciles in flight (`OrderRun`, `AwRun`: what a worker holds between two calls), and
  histories of what Argo reported, which Workflows were created and which specs users wrote. An action is one API call
  of one worker, or one decision of a user or of Argo. `Behaviors` states the theorems over every run. A reconcile may
  end after any call, so error returns, crashes and lost responses are all covered: a lost response is the call's
  effect followed by the end of the worker.
* **The code.** `OrderReconciler` and `AwReconciler` have the control flow of the source, with its loops, and call the
  API through `ApiClient.Client`. Every call is one action of the protocol, and the client's invariant is that its world
  is reachable, so the theorems of `Behaviors` hold while this code executes. Contracts give the exact effect of a
  complete reconcile (`Completed`), of one that was cut off at any point (`CutOff`), and, for a server that answers
  (`reliable`), the exact condition for success (`Ready`). Any other call may be lost before or after its effect. `Resumption`, `Convergence`, `AwConvergence` and `Rewrites`
  reason about sequences of such reconciles, `Completeness` about both reconcilers together. `Witnesses` lets the
  reconcilers act on concrete clusters, starting from an empty one, to show what they do not promise.

`Outcomes` reads the effect of a complete reconcile off the stored objects, field by field and with literal constants, so
that it does not depend on the functions the reconcilers are built from.

`Flatten`, `RoundTrip`, `CamelCase` and `Params` treat the parameters. Go iterates over maps in an arbitrary order; a
`Plan` fixes the order taken at every level of a JSON tree, and statements quantify over all plans.

## Assumptions about the environment

* One worker per key, in each controller.
* The ArtifactWorkflow controller never reads a version of an ArtifactWorkflow older than one it has read before. The
  Order controller's reads of Orders and of ArtifactWorkflows may be arbitrarily old.
* Updates are conditional on the version that was read (`AllowUnconditionalUpdate` is false for both kinds). The status
  endpoints keep the stored spec.
* A deletion mark is never withdrawn. An object that is deleting and holds no finalizer is removed.
* Only the controllers write status and their own finalizers. Users may create, edit and delete Orders and
  ArtifactWorkflows at any time, and hold finalizers of their own.
* Workflows are created and deleted by the ArtifactWorkflow controller only, and hold no finalizers. Argo may set any
  phase at any time, and a check may return any phase reported so far for a Workflow of that name.
  `PhaseProgress` and `PhaseNotAhead` assume in addition that Argo moves forward and that the checks of one Workflow read
  it in order: what they return may be old, but not older than what was read from that Workflow before.
* Endpoints, Secrets and ArtifactTypes carry the name they are stored under. In the protocol, fetching them may give
  anything that fits the reference; for the code they form a fixed snapshot.
* Hashing to sixteen characters, JSON decoding and `%v` formatting are arbitrary functions (`Codec`). Only `Types.SameKeyIff` and
  `Outcomes.NewGeneration` need the hash to be injective.

## Model

| member | source | states |
|---|---|---|
| `Behaviors.NoFalseCompletion` | pkg/controller/order_controller.go:256-283 | In every run, a phase in an Order's status other than Unknown and Pending (so every completed one) was shown by the Workflow of that key at an earlier point of the run, despite stale reads, crashes and spec edits. |
| `Incarnations.NoInheritedPhase` | pkg/controller/artifactworkflow_controller.go:209-220 | If checks return what their own Workflow has shown, however late, every phase an ArtifactWorkflow records, other than Unknown and Pending, was shown by a Workflow of that very incarnation. |
| `Behaviors.FinalizerGuard` | pkg/controller/artifactworkflow_controller.go:51-87 | In every reachable state a Workflow exists only while the ArtifactWorkflow of its name is stored with the finalizer. |
| `Behaviors.AtMostOneWorkflow` | pkg/controller/artifactworkflow_controller.go:94-139 | Two steps of a run that create a Workflow for the same incarnation of an ArtifactWorkflow are the same step, however often the create path is entered again. |
| `Behaviors.CompletedIsFinal` | pkg/controller/artifactworkflow_controller.go:89-102 | A completed phase of an ArtifactWorkflow never changes again within its incarnation. |
| `Behaviors.PhaseProgress` | pkg/controller/artifactworkflow_controller.go:209-220 | If Argo moves forward and Workflows are read in order, possibly late, an ArtifactWorkflow that has reached Running never goes back, and the only step back is from Pending to Unknown. |
| `Behaviors.PhaseNotAhead` | pkg/controller/artifactworkflow_controller.go:131-139 | Under the same assumptions the recorded phase never exceeds the later of Pending and the Workflow's phase. |
| `Behaviors.NoLostSpecEdits` | pkg/registry/order/strategy.go:77-114 | At every point of every run the stored Order spec is the one last written by a user, read off the actions of the run. |
| `Behaviors.ControllersKeepAwSpecs` | pkg/registry/artifactworkflow/strategy.go:79-117 | No controller step changes the spec of a stored ArtifactWorkflow. |
| `Behaviors.StatusWriteIsExact` | pkg/controller/order_controller.go:275-286 | Every successful status write of the main path tracks exactly the hashes of what this reconcile has fetched for the stored Order's artifacts, each with the greatest index that has it; every fetch was made in this reconcile. |
| `Behaviors.KeysLeaveOnlyAfterDelete` | pkg/controller/order_controller.go:243-254 | In every run, a key leaves the store only by a status write of a reconcile that made a Delete for its ArtifactWorkflow and was in flight ever since; if it is a write of the main path, that Delete was answered with success or NotFound. No Order leaves the store while it tracks a key. |
| `Behaviors.FinalizerLeavesEmptyStatus` | pkg/controller/order_controller.go:92-101 | The Order finalizer leaves, or the Order leaves in spite of it, only when the Order is deleting and nothing is tracked. |
| `Behaviors.OrdersDoNotInterfere` | pkg/controller/order_controller.go:357-366 | No step of an Order's reconcile changes, or reads the phase of, an ArtifactWorkflow named for another Order. |
| `Types.AwNameInjective` | pkg/controller/order_controller.go:357-366 | A name determines Order and key, although names may contain hyphens. |
| `Types.AwNameParts` | pkg/controller/order_controller.go:357-366 | A name is the Order's name, a hyphen and the key, in the Order's namespace. |
| `Types.SameKeyIff` | pkg/controller/order_controller.go:160-174 | If the hash is injective, two artifacts have the same key if and only if namespace, type, raw spec, and the names and generations of both endpoints and both secrets are equal. |
| `OrderRun.DesiredIsGreatest` | pkg/controller/order_controller.go:174-186 | The keys of the desired map are the hashes of the artifacts, and each maps to the greatest index with that hash. |
| `OrderRun.WrittenStatusIsExact` | pkg/controller/order_controller.go:275-286 | The refreshed status is exact whichever keys were skipped by AlreadyExists. |
| `OrderReconciler.Reconcile` | pkg/controller/order_controller.go:60-289 | A reconcile without error has exactly the effect `Completed`; one with an error was cut off, or is complete and did not get the response to its last write; with a reliable server it succeeds if and only if `Ready`, and the deletion path delivers a Delete for every tracked key. |
| `Outcomes.ResolvesTo` | pkg/controller/order_controller.go:126-158 | An artifact resolves if and only if the endpoints it names, itself or through the defaults, and the secrets they name are stored in the Order's namespace; it resolves to exactly those, source and destination apart. |
| `Outcomes.OrderGetsFinalizer` | pkg/controller/order_controller.go:105-116 | Without the finalizer, a complete reconcile adds it and changes nothing else. |
| `Outcomes.OrderIsCleaned` | pkg/controller/order_controller.go:74-90 | A deleting Order that tracks something is left with an empty status and otherwise unchanged. |
| `Outcomes.OrderIsReleased` | pkg/controller/order_controller.go:91-103 | A deleting Order that tracks nothing loses the finalizer, and is gone if it had no other. |
| `Outcomes.OrderTracks` | pkg/controller/order_controller.go:189-286 | After a complete main-path reconcile the status tracks exactly the keys of the artifacts; known keys have the phase of their ArtifactWorkflow and their old message, new ones have neither. |
| `Outcomes.OrderCreates` | pkg/controller/order_controller.go:214-233 | The ArtifactWorkflow created for a key has the type of the artifact, the secret references, types and URLs of its endpoints, source and destination apart, phase Unknown and no finalizer. |
| `Outcomes.OrderDeletes` | pkg/controller/order_controller.go:243-254 | The ArtifactWorkflow of a tracked key that no artifact has any more is marked deleting, or gone if nothing holds it. |
| `Outcomes.OrderSucceedsIff` | pkg/controller/order_controller.go:121-273 | With a reliable server a main-path reconcile succeeds if and only if every artifact resolves, every tracked key of an artifact has its ArtifactWorkflow, and the spec behind every new key decodes without an empty key. |
| `Outcomes.NewGeneration` | pkg/controller/order_controller.go:160-172 | When the generation of an endpoint or a secret changes, one complete reconcile tracks a new key, for which there is an ArtifactWorkflow, and has deleted the one of the old key. |
| `OrderReconciler.CleanUp` | pkg/controller/order_controller.go:74-103 | Deletion path: status cleared in one reconcile, finalizer removed in the next; Deletes reach tracked keys only. |
| `OrderReconciler.CleanupTracked` | pkg/controller/order_controller.go:76-91 | The cleanup loop tries a Delete for every tracked key and ignores errors; exactly the Deletes that got through have had their effect, all of them with a reliable server; then the empty status is written. |
| `OrderReconciler.Advance` | pkg/controller/order_controller.go:105-116 | Without the finalizer a reconcile only adds it; with it the main path runs. |
| `OrderReconciler.ResolveArtifacts` | pkg/controller/order_controller.go:121-187 | The loop yields what every artifact resolves to, in order, or fails, with a reliable server exactly when a reference is dangling. |
| `OrderReconciler.ResolveOne` | pkg/controller/order_controller.go:126-158 | Endpoint references fall back to the defaults; source and destination are not exchanged; secrets are those the endpoints name. |
| `OrderReconciler.Missing` | pkg/controller/order_controller.go:189-197 | The keys that are desired and not tracked. |
| `OrderReconciler.Obsolete` | pkg/controller/order_controller.go:204-212 | The keys that are tracked and not desired. |
| `OrderReconciler.CreateMissing` | pkg/controller/order_controller.go:214-241 | Each missing key gets a hydrated ArtifactWorkflow or keeps the one that exists; status entries are made for new ones only; the first artifact spec that cannot be decoded stops the loop. |
| `OrderReconciler.DeleteObsolete` | pkg/controller/order_controller.go:243-254 | Each obsolete key is deleted in the store and dropped from the status; NotFound is no error, anything else stops the loop. |
| `OrderReconciler.SyncPhases` | pkg/controller/order_controller.go:256-273 | Kept keys take over the phase of their stored ArtifactWorkflow, a missing one stops the loop, and `anyPhaseChanged` is true exactly when a phase differed. |
| `OrderReconciler.RefreshIndices` | pkg/controller/order_controller.go:278-282 | Every desired key gets its index, and an entry if it had none. |
| `OrderReconciler.Finish` | pkg/controller/order_controller.go:275-288 | The status is written exactly when something was created, deleted or changed, and is then the specified one. |
| `OrderEffects.RefreshIsNew` | pkg/controller/order_controller.go:214-283 | Whatever the loops left in the worker's status, what is written is one entry per desired key with its greatest index and, if it was tracked, the phase of its ArtifactWorkflow. |
| `Resumption.ResumeOnce` | pkg/controller/order_controller.go:189-286 | A reconcile cut off anywhere, followed by a complete one, has the effect of one complete reconcile, on every path. |
| `Resumption.CrashResumption` | pkg/controller/order_controller.go:189-286 | The same for any number of reconciles that are cut off. |
| `Resumption.OutcomeIsDetermined` | pkg/controller/order_controller.go:189-286 | Complete main-path reconciles from the same store write the same Order, version aside, and leave the same ArtifactWorkflows, up to the version or the identity of newly created ones. |
| `Resumption.FreshAgree` | pkg/controller/order_controller.go:291-309 | New ArtifactWorkflows for the same key agree in type, secrets and parameters up to order. |
| `Resumption.StatusDespiteOthers` | pkg/controller/order_controller.go:256-283 | The written status depends only on the Order and on the phases of retained keys, whatever others did to the rest in between. |
| `Convergence.BoundedConvergence` | pkg/controller/order_controller.go:105-286 | Three successful reconciles settle an Order (two if it has the finalizer): status keys are the desired keys, every desired ArtifactWorkflow exists, every recorded phase is current. |
| `Convergence.SettledIsStable` | pkg/controller/order_controller.go:275-286 | Reconciling a settled Order writes nothing. |
| `Convergence.StaysViable` | pkg/controller/order_controller.go:189-286 | Resolving references, decodable specs and existing retained ArtifactWorkflows survive every successful reconcile. |
| `Convergence.NotViableStays` | pkg/controller/order_controller.go:189-265 | An Order that is not viable (references that resolve, specs that decode, retained ArtifactWorkflows that exist) completes no main-path reconcile, and one that is cut off does not make it viable. |
| `Convergence.MissingStaysMissing` | pkg/controller/order_controller.go:189-265 | A tracked and desired ArtifactWorkflow that disappeared is never recreated: it is still missing after any number of reconciles, and none of them completes. |
| `Witnesses.MissingAw` | pkg/controller/order_controller.go:192-195 | A reachable world of this kind: a user deleted the ArtifactWorkflow of a settled Order. |
| `Witnesses.DeletedByLateReconcile` | pkg/controller/order_controller.go:243-254 | Another one, in which nobody touched the ArtifactWorkflow: its artifact left the spec, a reconcile read the Order, the artifact was put back, and the Delete went through. |
| `Witnesses.GoneWhileSettled` | pkg/controller/order_controller.go:256-265 | A settled Order does not notice that its ArtifactWorkflow is being deleted; one reconcile of the ArtifactWorkflow's own controller later the Order is not viable any more. |
| `Incarnations.LeavesIff` | pkg/controller/artifactworkflow_controller.go:51-75 | In every run, an ArtifactWorkflow leaves the store at a step if and only if the step is a user's or an Order's Delete while nothing holds it, or takes the last finalizer of one that is being deleted. |
| `Incarnations.RemovedByOrder` | pkg/controller/order_controller.go:204-254 | An Order removes ArtifactWorkflows of its own tracked keys only, when it was read as deleting or none of the artifacts it was read with has that key. |
| `Convergence.NeverSettles` | pkg/controller/order_controller.go:105-265 | An Order that is not viable, with or without the finalizer, is not settled by any number of reconciles, complete or cut off; so viability is the exact condition for convergence. |
| `Convergence.SettleInThree` | pkg/controller/order_controller.go:60-289 | The reconciler itself, called three times against a reliable server, settles every viable Order. |
| `Convergence.BoundedDeletion` | pkg/controller/order_controller.go:74-103 | Two successful reconciles release a deleting Order; only tracked ArtifactWorkflows are touched, and each key's is gone if and only if it was gone before, or its Delete got through and it held no finalizer and no deletion mark. |
| `OrderEffects.AbsentIff` | pkg/controller/order_controller.go:77-84 | The same condition for a single cleanup. |
| `Convergence.ReleaseInTwo` | pkg/controller/order_controller.go:74-103 | The reconciler itself, called twice against a reliable server, releases a deleting Order, and exactly those of its ArtifactWorkflows are left that hold a finalizer. |
| `Witnesses.LostDelete` | pkg/controller/order_controller.go:82-83 | A reachable run in which a Delete is lost: both reconciles complete, the Order is gone, its ArtifactWorkflow is stored and not marked. |
| `Witnesses.HeldByFinalizer` | pkg/controller/order_controller.go:92-101 | A reachable run without any failure in which the Order is gone and its ArtifactWorkflow is still stored, held by a finalizer. |
| `Rewrites.ReorderingKeepsWork` | pkg/controller/order_controller.go:121-134 | Reordering and repeating artifacts asks for the same work. |
| `Rewrites.MovingKeepsWork` | pkg/controller/order_controller.go:126-134 | Moving references into the defaults, and default references out of them, asks for the same work. |
| `Rewrites.SameWorkSameKeys` | pkg/controller/order_controller.go:161-187 | Specs that ask for the same work resolve alike and have the same desired keys. |
| `Rewrites.RewritesAreFree` | pkg/controller/order_controller.go:189-212 | A settled Order rewritten to ask for the same work is still settled; reconciling it creates, deletes and writes nothing. |
| `Rewrites.IndicesAreRightIff` | pkg/controller/order_controller.go:275-282 | After a complete reconcile the recorded indices are right if and only if something else had to be written or they were right before. |
| `Rewrites.PureReorderGoesStale` | pkg/controller/order_controller.go:275-282 | After a reconcile of a settled Order whose spec was rewritten to the same work, the indices are right if and only if the rewrite did not move any. |
| `Witnesses.StaleIndex` | pkg/controller/order_controller.go:275-282 | A reachable world in which two artifacts of a settled Order were swapped: the reconcile completes and the indices stay wrong. |
| `Rewrites.UntrackedIsLeftAlone` | pkg/controller/order_controller.go:204-212 | An ArtifactWorkflow whose key is neither tracked nor desired is not touched by any number of reconciles, complete or cut off. |
| `Rewrites.OrphanIff` | pkg/controller/order_controller.go:189-283 | A complete reconcile leaves an ArtifactWorkflow neither tracked nor deleted if and only if its key was neither tracked nor desired before. |
| `Witnesses.Orphan` | pkg/controller/order_controller.go:214-241 | A reachable world with such an ArtifactWorkflow: its reconcile died after the Create, then its artifact left the spec. |
| `AwReconciler.Reconcile` | pkg/controller/artifactworkflow_controller.go:39-103 | A reconcile without error has exactly the effect `Completed`; one with an error was cut off, or is complete and did not get the response to its last write; with a reliable server it succeeds if and only if `Ready`. |
| `Outcomes.AwGetsFinalizer` | pkg/controller/artifactworkflow_controller.go:76-87 | Without the finalizer, a complete reconcile adds it and changes nothing else. |
| `Outcomes.AwLaunches` | pkg/controller/artifactworkflow_controller.go:94-140 | In phase Unknown, Pending is recorded, and unless there is a Workflow one is created with the template of the type that the ArtifactWorkflow names, its own parameters followed by those of the type, and one volume per side. |
| `Outcomes.AwChecks` | pkg/controller/artifactworkflow_controller.go:98-100 | In phases Pending and Running the phase of the Workflow is recorded. |
| `Outcomes.AwRests` | pkg/controller/artifactworkflow_controller.go:89-102 | In phases Succeeded, Failed and Error, and in any phase without a constant, nothing happens. |
| `Outcomes.AwIsReleased` | pkg/controller/artifactworkflow_controller.go:51-75 | A deleting ArtifactWorkflow loses its Workflow and the finalizer, and is gone if it had no other. |
| `Outcomes.AwSucceedsIff` | pkg/controller/artifactworkflow_controller.go:105-139 | With a reliable server a reconcile in phase Unknown succeeds if and only if type and secrets are stored, the latter in the ArtifactWorkflow's namespace; in phases Pending and Running if and only if there is a Workflow. |
| `AwReconciler.CleanUp` | pkg/controller/artifactworkflow_controller.go:51-75 | The Workflow is deleted first, the finalizer is removed only after that. |
| `AwReconciler.CreateArgoWorkflow` | pkg/controller/artifactworkflow_controller.go:105-140 | Creates the Workflow built from type, parameters and secrets unless one exists, then records Pending; fails without effect if type or a secret is missing. |
| `AwReconciler.CheckArgoWorkflow` | pkg/controller/artifactworkflow_controller.go:209-220 | Records the Workflow's phase; an error if there is none. |
| `AwConvergence.CatchesUp` | pkg/controller/artifactworkflow_controller.go:76-102 | Once a Workflow is done, three successful reconciles record its phase. |
| `AwConvergence.Oscillates` | pkg/controller/artifactworkflow_controller.go:209-220 | While Argo has not reported a phase, reconciles alternate between Pending and Unknown and leave the Workflow alone. |
| `AwConvergence.PhaseFallsIff` | pkg/controller/artifactworkflow_controller.go:209-220 | A complete reconcile takes the recorded phase back if and only if it checks a Workflow that shows less than what is recorded. |
| `Witnesses.PhaseFallsBack` | pkg/controller/artifactworkflow_controller.go:131-139 | A reachable run in which the phase goes from Pending back to Unknown within one incarnation. |
| `AwConvergence.ResumeOnce` | pkg/controller/artifactworkflow_controller.go:39-140 | A reconcile cut off anywhere, followed by a complete one, has the effect of one complete reconcile. |
| `Completeness.CompletionReachesOrder` | pkg/controller/order_controller.go:256-283 | Three successful reconciles of the ArtifactWorkflow and three of the Order bring a completed phase from the Workflow into the Order's status. |
| `Flatten.Confluence` | pkg/controller/order_controller.go:423-437 | The produced map is the same for all iteration orders at all levels if and only if leaves that share a name have equal values. |
| `Flatten.SameNames` | pkg/controller/order_controller.go:423-437 | Every iteration order produces the same names, the names of the leaves. |
| `Flatten.CollisionFreeGivesLeafMap` | pkg/controller/order_controller.go:423-437 | Without collisions every execution produces the declarative map of leaves. |
| `Flatten.KeyCollision` | pkg/controller/order_controller.go:425-434 | Two keys with the same capitalised form make the result a matter of chance. |
| `Flatten.SameButFirst` | pkg/controller/order_controller.go:425 | Keys that differ in the case of the first letter only, or in a first byte that is not ASCII, have the same capitalised form. |
| `Flatten.FlattenMap` | pkg/controller/order_controller.go:423-437 | The recursive loop leaves in the destination what the writes of some complete iteration order leave on top of what it held. |
| `Flatten.ScalarName` | pkg/controller/order_controller.go:425-434 | The name of a scalar byte by byte: a lower-case ASCII initial becomes upper-case, any other ASCII initial stays, any other first byte becomes EF BF BD. |
| `Flatten.ItemNames` | pkg/controller/order_controller.go:429-432 | The name of an array element: the same, followed by its index. |
| `Flatten.NoEmptyKey` | pkg/controller/order_controller.go:424-425 | The specs that are accepted have no empty key in any object the walk reaches. |
| `Flatten.SomeEmptyKey` | pkg/controller/order_controller.go:424-425 | Every spec that is rejected for its keys has one. |
| `RoundTrip.FlattenRoundTrip` | pkg/controller/order_controller.go:397-437 | On flat specs with plain keys an inverse recovers every scalar and every array in order, from any execution. |
| `RoundTrip.FlattenInjective` | pkg/controller/order_controller.go:423-437 | Flat specs with the same parameters are equal. |
| `RoundTrip.FlatSpecCollisionFree` | pkg/controller/order_controller.go:423-437 | Flat specs with plain keys have no collisions. |
| `Decimal.ItoaRoundTrip` | pkg/controller/order_controller.go:431 | Decimal indices parse back. |
| `Decimal.ItoaIsCanonical` | pkg/controller/order_controller.go:431 | A digit string without leading zeros is the rendering of its value. |
| `CamelCase.LeafHasPath` | pkg/controller/order_controller.go:426-435 | Every produced name is a path of nested keys taken as they are, with a capitalised last key. |
| `CamelCase.PathHasLeaf` | pkg/controller/order_controller.go:426-435 | Every such path produces its names. |
| `CamelCase.CamelCaseIff` | docs/operator-manual/workflow-config.md:95 | A name is camelCase, as documented, if and only if every nested-object key on its path is capitalised already. |
| `CamelCase.NestedKeyStaysLower` | pkg/controller/order_controller.go:428 | A concrete nested spec whose parameter is not camelCase. |
| `Params.DawToParameters` | pkg/controller/order_controller.go:369-415 | Six fixed parameters, then every flattened name once with its rendered value, in some order; an error exactly for specs that cannot be decoded. |
| `Params.FirstSix` | pkg/controller/order_controller.go:370-395 | The first six parameters, with literal names, and with types and URLs of the source and of the destination in their places. |
| `Params.FixedNames` | pkg/controller/order_controller.go:369-415 | What the six names resolve to; every other name that resolves starts with "spec". |
| `Params.NoSpecNoMore` | pkg/controller/order_controller.go:397-401 | An artifact without a spec is read as one with the empty object, and yields the six parameters only. |
| `Params.HydrateArtifactWorkflow` | pkg/controller/order_controller.go:291-309 | Type, parameters and the secret references of the two endpoints. |
| `Params.HydrateArgoWorkflow` | pkg/controller/artifactworkflow_controller.go:142-207 | The two loops list the ArtifactWorkflow's parameters, then the type's; each side mounts its secret or an emptyDir. |
| `Params.ParameterPrecedence` | api/arc/v1alpha1/artifacttype_types.go:23-25 | Under a last-wins reading, a name resolves to the ArtifactType's value if it has one and else to the ArtifactWorkflow's. |
| `Params.SpecNamesAreApart` | pkg/controller/order_controller.go:369-412 | Flattened names never collide with the six fixed ones. |
| `Params.HydratedLookup` | pkg/controller/order_controller.go:369-415 | In a hydrated ArtifactWorkflow a name resolves to its fixed value or to a rendered leaf of that name, and every leaf name resolves. |
| `Params.SecretFlagAgreesWithMount` | pkg/controller/artifactworkflow_controller.go:144-170 | For each side, the secret parameter is "true" exactly when the Workflow mounts a Secret there, which is the endpoint's own; else it is "false" and an emptyDir is mounted. |
| `Params.LosslessDeduplication` | pkg/controller/order_controller.go:160-186 | Artifacts with the same hash input hydrate to the same type, secrets and parameters up to order. |
| `OrderEffects.DuplicatesLoseNothing` | pkg/controller/order_controller.go:121-186 | The same for any two artifacts of one Order: resolved in one snapshot they share endpoints and secrets, so the one that is overwritten in the desired map loses nothing. |

## Where the code differs from what one might expect

* Nested keys are not capitalised, unlike docs/operator-manual/workflow-config.md:95 says (`CamelCase`).
* A pure reorder of artifacts leaves `ArtifactIndex` stale (`Rewrites.IndicesAreRightIff`, `Witnesses.StaleIndex`).
* A tracked and desired ArtifactWorkflow that disappears is not recreated (`Convergence.MissingStaysMissing`), and it can
  disappear without anyone touching it (`Witnesses.DeletedByLateReconcile`). `Incarnations.LeavesIff` lists all ways.
* ArtifactWorkflows may outlive their Order, for two reasons: failed Deletes are ignored (`Witnesses.LostDelete`), and
  the Order does not wait for ArtifactWorkflows that a finalizer holds (`Witnesses.HeldByFinalizer`).
  `Convergence.BoundedDeletion` gives the exact condition, `Convergence.ReleaseInTwo` the one for a reliable server.
* An ArtifactWorkflow created by a reconcile that died, whose key then left the spec, stays behind
  (`Rewrites.OrphanIff`, `Rewrites.UntrackedIsLeftAlone`, `Witnesses.Orphan`).
* Keys whose first byte is not ASCII lose that byte to the replacement character, so they can collide
  (`Flatten.SameButFirst`).
* The phase of an ArtifactWorkflow is not monotone: it falls exactly when a check finds less than what is recorded
  (`AwConvergence.PhaseFallsIff`, `Witnesses.PhaseFallsBack`).

## Left out

- SHA-256, hexadecimal digits, the JSON encoding of the hash input, JSON decoding of bytes and `%v` formatting: arbitrary functions here.
- Artifact specs with an empty key count as undecodable: the source panics on them, which ends the reconcile like an error.
- Owner references, garbage collection and watches, including generateReconcileRequestsForEndpoint: library behaviour.
- The order of finalizers in an object: they form a set here.
- The status message of an ArtifactWorkflow, labels and annotations: no controller reads or writes them.
- The other registry strategies, API server plumbing, generated code, admission: only easy facts.
- Endpoint `usage` and ArtifactType `rules`: no controller enforces them.
- Params.LosslessDeduplication: assumes a collision-free spec, since otherwise even one artifact has several possible results (`Flatten.Confluence`), and one snapshot, because nothing shows that equal generations imply equal specs.
- RoundTrip.FlattenRoundTrip: flat specs with digit-free keys and lower-case initials only; other specs can collide.
- Behaviors.PhaseProgress: assumes that what a check returns ranks between what was last read from that Workflow and what the Workflow shows; a read so old that it returns the phase of a deleted namesake is outside.
- Behaviors.PhaseNotAhead: the same assumption.
