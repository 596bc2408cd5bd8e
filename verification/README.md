# Verified model of the hvperf run driver and density suite

hvperf runs performance suites against a Harvester cluster. This project models, in Dafny 4.11, the
two parts of it whose correctness is hardest to see from the code, and the driver that joins them:

- **The density ramp** (`internal/suites/density`, `pkg/resource/vmi.go`): warm up, capture a health
  baseline, create VMIs in batches, wait for each batch through a watch, recount, re-check health,
  decide whether the cluster's capacity or something else ended the run, and clean up.
- **The option algebra** (`pkg/suites/options.go`, `cmd/run.go`, `cmd/config.go`): `Merge`,
  `Canonicalize` and the layering that turns a configuration file into a suite's options.
- **Case results and the registry** (`pkg/suites/result.go`, `pkg/suites/registry.go`), as far as
  the end-to-end statements need them.

`dafny verify dfyconfig.toml` checks everything.

## How the model is built

Code that works by updating things is a class or a method with a loop, proved against a function;
what the code promises is then proved about that function.

| module | source | form |
|---|---|---|
| `OptionTree`, `Keys`, `Canonicalization` | `pkg/suites/options.go` | the loops, with keys picked in any order, against `Merge`, `Accepts` and `Canonical` |
| `CanonicalLaws`, `EffectiveConfig` | `pkg/suites/options.go`, `cmd/run.go`, `internal/suites/options/default.go` | theorems about those functions, and the default options |
| `RunConfig`, `Registry` | `cmd/run.go`, `cmd/config.go`, `pkg/suites/registry.go` | the loops and the registry class |
| `Results` | `pkg/suites/result.go` | the mutable `CaseResult` against a value machine |
| `VmiStartup` | `pkg/resource/vmi.go` | the wait, with everything the API server and the clock answer in one `WatchRun` |
| `StartupLaws` | `pkg/resource/vmi.go` | what a wait means, in terms of the deliveries, pods and probes themselves |
| `ClusterHealth` | `internal/suites/density/density.go` | the shared, growing health baseline |
| `HealthLaws` | `internal/suites/density/density.go` | what the gate looks at, in terms of the nodes, pods and container statuses themselves |
| `Ramp`, `Cleanup`, `VmiNames` | `internal/suites/density/density.go` | one turn of a loop as a function of what it observes, and the theorems over whole runs |
| `Transcript` | `internal/suites/density/density.go` | which answers of the cluster each part of a run is read from |
| `ClusterModel`, `DensitySuite` | `internal/suites/density/density.go`, `pkg/resource/vmi.go` | the methods of the suite against an adversarial cluster |

The cluster (`ClusterModel.Cluster`) is an adversary: between any two requests VMIs change phase or
vanish, time passes and the parent context may end; any request may fail, and a failed creation may
have taken effect. It promises three things only: nobody else creates VMIs with this run's label; no
more than `capacity` of the run's VMIs run at once (`capacity` is any number; the promise is what
makes the ramp end when no limit is set); and the requests of the cleanup honour its five-minute
context.

The cluster keeps a transcript of everything it was asked and answered, in order, which only its own
methods write: a list shows the run's VMIs of that moment, and a request is entered with the time it
was sent. Every method of `DensitySuite` is proved to append exactly the answers that module
`Transcript` lists for what the method observed, and to return what the pure modules compute from
them. So the result of `RunE` is determined by what the cluster answered, and the theorems about
runs are theorems about those answers.

## What was found

- `Merge` is not associative; `MergeAssociativeIff` says exactly when it is, and canonicalized
  options always are.
- `Canonicalize` is not idempotent for every schema. A key made of symbols alone is accepted when
  the schema has an empty key, is renamed to that key, and is then refused as blank.
  `CanonicalizeTwice` gives the exact condition on the input; with a schema that has no empty key,
  such as the defaults, canonicalization is idempotent (`CanonicalizeIdempotent`, `DefaultsIdempotent`).
- `DEVELOPMENT.md:181-182` says that `validate` and `run` cannot disagree about what is valid. They
  do when the file has a section for a registered suite that is not selected
  (`RunAndValidateDisagree`); `RunVersusValidateInRegistry` shows that this is the
  only case for a non-empty selection, as long as no suite is called `global`.
- The comments at `pkg/resource/vmi.go:28` and `pkg/resource/vmi.go:62-63` promise that a startup
  timeout is a clean deadline and that other failures do not wrap `ErrStartupTimeout`. A VMI in phase
  Failed is reported as one when its scheduling lookup is cut off by the lookup's own five seconds and
  the batch deadline has passed by then (`FailedVmiReadAsTimeout`); the ramp then records it as
  capacity. `StartupTimeoutIff` shows that this is the only exception, and `StopIffEvidence` carries
  it to the ramp.
- `NewCaseResultErrored` with an error whose message is empty makes a case that the next call turns
  into a PASS (`ErroredCaseSettledIff`).
- No configuration file can set `maxVMs`, in either section (`MaxVMsNotConfigurable`,
  `MaxVMsNeverSet`). The ramp is modelled with and
  without a limit all the same.

## Model

| member | source | states |
|---|---|---|
| `OptionTree.MergeOptions` | pkg/suites/options.go:22-39 | In every iteration order the loop returns `Merge(o, other)` |
| `OptionTree.MergeByPath` | pkg/suites/options.go:17-39 | For any trees and path: the override's setting; the base's where the override says nothing; none where the override has a section there or a scalar above |
| `OptionTree.PathsDetermineTree` | pkg/suites/options.go:15-15 | Two trees that look alike along every path are equal, so the path view of `Merge` loses nothing |
| `OptionTree.MergeEmpty` | pkg/suites/options.go:22-39 | No options are a two-sided identity |
| `OptionTree.MergeIdempotent` | pkg/suites/options.go:22-39 | Merging a tree with itself gives the tree |
| `OptionTree.MergeRepeatedOverride` | pkg/suites/options.go:22-39 | Applying an override twice is applying it once |
| `OptionTree.AbsorbedIffNoEffect` | pkg/suites/options.go:26-37 | A base has no effect under an override exactly if each of its entries is overridden at every level |
| `OptionTree.MergeAssociativeIff` | pkg/suites/options.go:29-37 | The two groupings of three trees agree exactly if wherever a key is nested, scalar, nested, the third section overrides all of the first |
| `OptionTree.MergeNotAssociative` | pkg/suites/options.go:29-37 | Three trees whose two groupings differ |
| `OptionTree.ShallowIsDeepIff` | cmd/run.go:120-126 | A shallow `maps.Copy` overlay is a deep merge exactly if every section it replaces is wholly overridden |
| `Keys.FoldIgnoresSeparators` | pkg/suites/options.go:105-120 | Runs of characters other than a-z, A-Z and 0-9, blanks at the ends included, do not change what a key is looked up as |
| `Keys.FoldKeepsLettersAndDigits` | pkg/suites/options.go:105-120 | A key of these characters is looked up as it is, with A-Z turned into a-z one by one |
| `Keys.LowerIs` | pkg/suites/options.go:97-100 | Schema keys are compared with A-Z turned into a-z and every other character kept |
| `Keys.FoldIgnoresCase` | pkg/suites/options.go:114-120 | Nor does case |
| `Keys.BlankIffAllSpace` | pkg/suites/options.go:108-112 | A key is refused as empty exactly if it consists of the 25 white-space characters of Unicode |
| `Canonicalization.LowercaseIndex` | pkg/suites/options.go:93-100 | The index maps the lower-case form of every schema key back to that key, and holds nothing else |
| `Canonicalization.CanonicalizeKeys` | pkg/suites/options.go:92-134 | In every iteration order every blank key and every unknown key is reported, there is no error exactly if no key is blank, unknown or a second spelling of another, and then each value is stored under the schema's spelling of its key |
| `Canonicalization.Canonicalize` | pkg/suites/options.go:58-90 | Succeeds exactly if at every level the keys are accepted and sections stand where the schema has sections; the result is then one fixed tree, whatever the iteration order |
| `Canonicalization.CanonicalizeValues` | pkg/suites/options.go:65-89 | The value loop fails exactly if some entry's shape or nested section does not fit the schema |
| `CanonicalLaws.CanonicalConforms` | pkg/suites/options.go:65-89 | An accepted tree becomes one with schema keys only, and sections exactly where the schema has them |
| `CanonicalLaws.ConformingUnchanged` | pkg/suites/options.go:58-134 | Options in the schema's own spelling, with sections where it has them, are accepted and returned as they are, whatever their values |
| `CanonicalLaws.ShapeTheorem` | pkg/suites/options.go:51-58 | Merged over its schema, a canonicalized tree has exactly the schema's keys and sections at every level: never two spellings of one key |
| `CanonicalLaws.MergeKeepsShape` | pkg/suites/options.go:22-39 | A conforming override changes settings, never keys or sections |
| `CanonicalLaws.CanonicalMergeAssociative` | pkg/suites/options.go:22-90 | Trees accepted by one schema merge associatively |
| `CanonicalLaws.CanonicalizeTwice` | pkg/suites/options.go:58-134 | The result is accepted again exactly if no input key consists of symbols alone, and is then unchanged |
| `CanonicalLaws.CanonicalizeNotIdempotent` | pkg/suites/options.go:107-121 | A schema and an accepted tree whose canonical form is refused |
| `CanonicalLaws.CanonicalizeIdempotent` | pkg/suites/options.go:58-134 | With a schema that has no empty key at any level, canonicalizing twice is canonicalizing once |
| `CanonicalLaws.SpellingDoesNotMatter` | pkg/suites/options.go:56-57 | Renaming keys at any level by case, separators and outer blanks changes neither acceptance nor result |
| `CanonicalLaws.EveryLeafKept` | pkg/suites/options.go:65-89 | Every setting of the input is in the result, at the path in the schema's spelling |
| `CanonicalLaws.LeavesStayApart` | pkg/suites/options.go:126-131 | Different settings stay at different paths |
| `CanonicalLaws.EveryLeafComesFromInput` | pkg/suites/options.go:65-89 | Every setting of the result comes from the input, so the two trees' settings correspond one to one |
| `EffectiveConfig.OverlayIsMerge` | cmd/run.go:120-126 | Over a flat global section the shallow layering equals a deep merge |
| `EffectiveConfig.EffectiveByPath` | internal/suites/density/options.go:23-28 | With schemas that do not shadow one another, every path has the tools directory, else the suite section's setting, else the global section's, else the suite default, else the global default |
| `EffectiveConfig.ShadowedSectionLost` | internal/suites/density/options.go:23-28 | That condition is needed: a global setting that a suite declares as a section hides the suite's defaults below it |
| `EffectiveConfig.DensitySchemasFit` | internal/suites/options/default.go:10-102 | The default global and density options meet the conditions: keys distinct ignoring case, a flat global schema, no shadowing |
| `EffectiveConfig.DensityEffectiveByPath` | cmd/run.go:119-130 | For every accepted configuration and every path, the density suite's options follow that precedence |
| `EffectiveConfig.ToolsDirWins` | cmd/run.go:128-130 | No section overrides the tools directory |
| `EffectiveConfig.RunWithoutFile` | internal/suites/options/default.go:10-102 | The settings of a density run without a file |
| `EffectiveConfig.DefaultsIdempotent` | internal/suites/options/default.go:10-102 | In particular with the default global and density schemas |
| `EffectiveConfig.MaxVMsNotConfigurable` | internal/suites/options/default.go:10-102 | A section that sets `maxVMs` in any spelling is refused, as the density section and as the global section |
| `EffectiveConfig.MaxVMsNeverSet` | internal/suites/density/options.go:23-28 | For every accepted file the options that the density suite decodes hold no `maxVMs` |
| `RunConfig.CanonicalizeRunOptions` | cmd/run.go:192-241 | No error exactly if the global section, every suite's section and the set of section names are accepted; the map returned holds the canonical sections of what was accepted |
| `RunConfig.AcceptedBySection` | cmd/run.go:202-238 | A file is accepted exactly if each of its sections is a `global` one that fits the global schema or a given suite's that fits the suite's; without suites only the empty file is |
| `RunConfig.CanonicalizeSuites` | cmd/run.go:231-238 | The suite loop collects each accepted suite's canonical options and has no error exactly if all are accepted |
| `RunConfig.UnknownSections` | cmd/run.go:214-226 | Exactly the sections named neither after a given suite nor `global` (any name, if no suite is given) are unknown |
| `RunConfig.LayerSuiteOptions` | cmd/run.go:119-130 | Each suite gets the global section overlaid by its own, with the tools directory last |
| `RunConfig.PrepareRun` | cmd/run.go:56-75 | The run command goes on exactly if the suites are found and the file is accepted, and hands each suite the layered canonical sections; no file is like an empty one |
| `RunConfig.FileToEffective` | cmd/run.go:56-130 | From the file to the options: for every accepted file, every selected suite whose schema shadows no global section, and every path, the precedence of `EffectiveByPath` over the file's own canonical sections |
| `RunConfig.RunVersusValidate` | cmd/config.go:85-97 | A run accepts a file exactly if validation does and every section is global or selected, and both read the same options |
| `RunConfig.RunVersusValidateInRegistry` | cmd/config.go:91-91 | The same for any registry and any suites found in it by name |
| `RunConfig.RegistrySelections` | pkg/suites/registry.go:28-74 | What `Find` selects is part of what `All` lists, and both have distinct names |
| `RunConfig.RunAndValidateDisagree` | DEVELOPMENT.md:181-182 | A file and a selection on which the two disagree under every global schema |
| `Registry.SuiteRegistry.Register` | pkg/suites/registry.go:76-84 | Registers under the suite's name, replacing a suite of that name |
| `Registry.SuiteRegistry.All` | pkg/suites/registry.go:28-43 | All registered suites and no others, ascending by name |
| `Registry.StringLessIff` | pkg/suites/registry.go:37-37 | The order: a proper prefix first, otherwise the first differing character decides |
| `Registry.AscendingUnique` | pkg/suites/registry.go:37-41 | Contents determine an ascending listing, so `All` does not depend on the map's order or the registrations' |
| `Registry.SuiteRegistry.Find` | pkg/suites/registry.go:45-74 | Succeeds exactly if every name is registered and at most one distinct suite is named or none is exclusive; which error otherwise |
| `Registry.SelectableIff` | pkg/suites/registry.go:54-72 | Names can be selected together exactly if all are registered and no exclusive one comes with another |
| `Registry.MissingAre` | pkg/suites/registry.go:64-64 | The names reported missing are those not registered, each as often as given |
| `Registry.DedupKeepsFirsts` | pkg/suites/registry.go:54-62 | The selection has each name once, in the order of first occurrence |
| `Registry.ExclusiveRunsAlone` | pkg/suites/registry.go:70-72 | An exclusive suite is selected alone |
| `Results.StateFollowsFields` | pkg/suites/result.go:251-321 | Over any calls: SKIP is permanent and never appears by itself, otherwise ERROR exactly if an error field is set; finalizing again changes nothing |
| `Results.PassesIff` | pkg/suites/result.go:254-301 | A case not skipped passes exactly if its own message and those of every cleanup, command, metric, resource and log are empty |
| `Results.LastSetStays` | pkg/suites/result.go:303-321 | After any calls the message, the resources and the logs are those of the last call that set them |
| `Results.ConstructorsStore` | pkg/suites/result.go:205-249 | What the constructors put in a case |
| `Results.ConstructedIsSettled` | pkg/suites/result.go:205-249 | Cases from the three constructors, with error messages, start in that condition |
| `Results.ErroredCaseSettledIff` | pkg/suites/result.go:229-237 | An errored case starts settled exactly if it has a message; without one the next call makes it a PASS |
| `Results.SummaryAddsUp` | pkg/suites/result.go:93-106 | Passed, errored and skipped add up to the total exactly if no case is in the unknown state |
| `Results.CountIsMultiplicity` | pkg/suites/result.go:95-104 | The counts are numbers of occurrences of a state |
| `Results.Summary` | pkg/suites/result.go:93-106 | The counts are those of the cases' states |
| `Results.CaseResult.New` | pkg/suites/result.go:205-225 | A new case is the finalized one with the given records |
| `Results.CaseResult.NewErrored` | pkg/suites/result.go:229-237 | An errored case |
| `Results.CaseResult.NewSkipped` | pkg/suites/result.go:241-249 | A skipped case |
| `Results.CaseResult.FinalizeState` | pkg/suites/result.go:254-301 | Computes the state from every error field, a capacity's own `Err` excepted, and changes nothing else |
| `Results.CaseResult.WithK8sResourceResults` | pkg/suites/result.go:303-307 | One call of the value machine |
| `Results.CaseResult.WithPodLogResults` | pkg/suites/result.go:309-313 | One call of the value machine |
| `Results.CaseResult.WithError` | pkg/suites/result.go:315-321 | One call of the value machine; a nil error changes nothing |
| `VmiStartup.SchedulingError` | pkg/resource/vmi.go:174-193 | The first launcher pod that is undecodable or unscheduled decides |
| `StartupLaws.SchedulingIff` | pkg/resource/vmi.go:174-193 | A lookup reports unscheduled, or an error, exactly if the first pod that is undecodable or has a false PodScheduled condition is the one or the other, or the list failed |
| `VmiStartup.RunningWatch.OnEvent` | pkg/resource/vmi.go:99-124 | One event moves the shared pending set as `Step` says: only Running removes a name, and only an event of a pending name can end the wait |
| `VmiStartup.OutcomeByName` | pkg/resource/vmi.go:68-75 | For any stream: all started exactly if each VMI ran before its own first loss, broken by the loss of some pending VMI, or still waiting for precisely those that have not run |
| `StartupLaws.FateIff` | pkg/resource/vmi.go:99-124 | A VMI has run, or is lost, exactly if the first delivery that tells about it says Running, or deleted, unconvertible or Failed |
| `StartupLaws.BrokenOnFeed` | pkg/resource/vmi.go:99-124 | A wait breaks off at the first delivery that loses a VMI still pending, and then waits for exactly those that had not run |
| `VmiStartup.InterleavingDoesNotMatter` | pkg/resource/vmi.go:99-124 | Two streams with the same events per VMI give the same kind of outcome and leave the same VMIs pending |
| `VmiStartup.ErrorSlot.Record` | pkg/resource/vmi.go:127-136 | The slot keeps the first error recorded while the context was alive |
| `VmiStartup.UntilRunning` | pkg/resource/vmi.go:73-75 | Over any feed of API calls and events, the pending set, the result and the recorded error are those of `Fold` and `Recorded` |
| `StartupLaws.RecordedFirst` | pkg/resource/vmi.go:127-136 | An error is kept exactly if an API call failed while the context was alive, and it is the first such |
| `VmiStartup.ProbeStartupErrors` | pkg/resource/vmi.go:154-171 | No API error exactly if every pending VMI could be read and its launchers looked up |
| `StartupLaws.ProbeCleanIff` | pkg/resource/vmi.go:157-169 | A probe is without error exactly if the VMI could be read and its launcher lookup did not fail |
| `VmiStartup.WaitRunning` | pkg/resource/vmi.go:62-97 | The wait returns `Outcome` |
| `StartupLaws.WaitSucceedsIff` | pkg/resource/vmi.go:62-78 | Nil exactly if for each named VMI the first delivery that tells about it says Running |
| `StartupLaws.StartupTimeoutIff` | pkg/resource/vmi.go:80-96 | For every wait: a startup timeout exactly if it is a clean one (deadline passed, no VMI lost, some not run, no API call failed while the context was alive, every pending VMI probed) or was broken by a lookup that was cut off |
| `StartupLaws.CleanTimeoutIff` | pkg/resource/vmi.go:28-29 | If lookups finish, the startup timeouts are exactly the clean ones |
| `StartupLaws.FailedVmiReadAsTimeout` | pkg/resource/vmi.go:28-29 | A wait in which a Failed VMI is reported as a startup timeout |
| `ClusterHealth.CheckNodes` | internal/suites/density/density.go:237-263 | Unhealthy exactly if some node is not ready by its last ready condition or has pressure; no nodes is a failed inspection |
| `HealthLaws.NodeHealthyIff` | internal/suites/density/density.go:245-261 | A node is fine exactly if its last Ready condition is True and its memory, disk and PID conditions are all False |
| `ClusterHealth.ListHealthPods` | internal/suites/density/density.go:175-193 | The control-plane pods, then the service pods that no job owns |
| `HealthLaws.HealthPodsAre` | internal/suites/density/density.go:175-193 | The pods judged are the control-plane pods and the "harvester-" and "virt-" pods that no job owns, and none if a list failed |
| `HealthLaws.TakenAre` | internal/suites/density/density.go:276-287 | The container statuses compared are those of these pods, each under its namespace, pod, UID and container |
| `ClusterHealth.HealthBaseline.Capture` | internal/suites/density/density.go:203-210 | Every container's service, and the latest count of every instance |
| `ClusterHealth.CaptureBaseline` | internal/suites/density/density.go:195-211 | A baseline exactly if the pods are listed and one is a Harvester pod, with their counts and services |
| `HealthLaws.BaselineIff` | internal/suites/density/density.go:196-202 | A baseline exactly if both lists are answered and a pod judged is in harvester-system |
| `HealthLaws.BaselineHolds` | internal/suites/density/density.go:203-210 | It holds the containers shown, and for each instance the count of its last status |
| `ClusterHealth.HealthBaseline.CheckPods` | internal/suites/density/density.go:266-295 | Healthy exactly if every pod is up, no instance exceeds its entry and every baseline service is present; the shared ledger only grows, also when the check fails |
| `ClusterHealth.CheckClusterHealth` | internal/suites/density/density.go:213-234 | The verdict of nodes, etcd and pods in that order, and the ledger a healthy check leaves |
| `HealthLaws.HealthyIff` | internal/suites/density/density.go:213-295 | Healthy exactly if nodes, etcd and both pod lists were answered, there is a node, every node is fine, every pod judged is running, ready and not being deleted, no container shows a restart, and every container of the baseline is shown |
| `HealthLaws.InspectionFailedIff` | internal/suites/density/density.go:213-271 | Not inspected exactly if the nodes were not answered or there is none, or all are fine and etcd or a pod list failed |
| `HealthLaws.VerdictIff` | internal/suites/density/density.go:213-234 | The three verdicts in these terms |
| `HealthLaws.HealthyCheckEnters` | internal/suites/density/density.go:280-286 | What a check enters in the ledger: each instance new to it, with its first count |
| `ClusterHealth.AbsorbGrows` | internal/suites/density/density.go:280-286 | Entries are added and never overwritten, and every sampled instance has one |
| `ClusterHealth.EntryIsFirstSeen` | internal/suites/density/density.go:284-286 | A new entry is the count the instance was first seen with |
| `ClusterHealth.SteadyIff` | internal/suites/density/density.go:280-283 | Checking each sample when it is taken is the same as comparing all samples with the final ledger |
| `ClusterHealth.GateIsSteady` | internal/suites/density/density.go:213-234 | A series of healthy checks sharing one baseline is one steady series of samples |
| `ClusterHealth.HealthOverRun` | internal/suites/density/density.go:195-295 | Over any such series the ledger only grows, no instance exceeds its entry, and every baseline service is in every check |
| `ClusterHealth.NoRestartsOverRun` | internal/suites/density/density.go:281-283 | If counts never drop, every instance has the same count in all healthy checks |
| `VmiNames.NamesDiffer` | internal/suites/density/density.go:322-326 | Different numbers give different VMI names |
| `VmiNames.ValueOfDecimal` | internal/suites/density/density.go:326-326 | The number in a name is its decimal digits, without leading zeros |
| `VmiNames.WarmupNameDiffers` | internal/suites/density/density.go:140-140 | No batch VMI has the warm-up's name |
| `VmiNames.AllNamesIfAsMany` | internal/suites/density/density.go:359-361 | Pigeonhole: n Running names among the first n VMIs are all of them |
| `Ramp.BatchSize` | internal/suites/density/density.go:316-319 | At least one VMI, never past the limit, and short of the batch size only to reach the limit |
| `Ramp.ValidIff` | internal/suites/density/options.go:30-44 | Options are valid exactly if the limit is not negative, the batch size and the timeout are positive and there is a disk |
| `Ramp.CreatesAllIff` | pkg/resource/vmi.go:42-60 | Creation succeeds exactly if every VMI was attempted, no wait was cut off, all quantities were well formed and every request was accepted |
| `Ramp.CreationFails` | pkg/resource/vmi.go:42-60 | Otherwise the error is that of the last attempt: the cut wait, else the quantities, else the answer |
| `Ramp.TurnClassified` | internal/suites/density/density.go:315-376 | One turn goes on by one full batch, or reaches the limit, or ends where it began with a capacity stop or a run error but not both |
| `Ramp.CountsIffGoesWell` | internal/suites/density/density.go:315-375 | A turn goes on, or reports more than before, exactly if the context was alive all four times it was read, every VMI was created, ran before it was lost and was counted, and the cluster was then sound |
| `Ramp.StopIffEvidence` | internal/suites/density/density.go:332-371 | One turn stops for capacity exactly if context and creation were fine and either the timeout was clean or a cut-off lookup broke the wait, or every VMI ran and then the count was wrong or the cluster was seen to be unsound |
| `Ramp.RunErrorIff` | internal/suites/density/density.go:315-378 | Every other turn, and no other, ends in a run error |
| `Ramp.ClimbClassified` | internal/suites/density/density.go:315-378 | At most one of capacity stop and run error; neither exactly if a limit is set and reached; never past the limit |
| `Ramp.OutcomeClassified` | internal/suites/density/density.go:297-378 | The same for the whole function; without a baseline or a sound cluster at the start it is a run error with maximum 0 |
| `Ramp.CapacityStopHasEvidence` | internal/suites/density/density.go:341-371 | Every capacity stop is the verdict of one turn that the loop reached and that had this evidence |
| `Ramp.EvidenceStops` | internal/suites/density/density.go:341-371 | Conversely, a reached turn with this evidence ends the ramp with a capacity stop |
| `Ramp.MaximumSustained` | internal/suites/density/density.go:351-375 | Any positive maximum was real: in a turn the loop reached, and that went well, all of its VMIs were Running in one listing, followed by an inspection sound against the ledger of the run at that turn |
| `Ramp.FullBatchesOnly` | internal/suites/density/density.go:315-376 | At each loop head the maximum is the batch size times the turns so far, and within what the cluster runs |
| `Ramp.ClimbKeepsGate` | internal/suites/density/density.go:362-376 | All checks a ramp passed, the last of an ended one included, extend the health gate of the checks before them |
| `Ramp.RampHealthy` | internal/suites/density/density.go:195-376 | Over a whole ramp, however it ended: the baseline's ledger only grew, no instance exceeded its entry in any check passed, and every baseline service was in each |
| `Ramp.ClimbEnds` | internal/suites/density/density.go:315-378 | If at most C VMIs run at once, the loop ends within C / batch size + 1 turns |
| `Ramp.FaultFreeTurn` | internal/suites/density/density.go:315-376 | What one turn does in a cluster without faults |
| `Ramp.CapacityAccurate` | internal/suites/density/density.go:315-378 | In a fault-free cluster of capacity C every ended ramp (and it ends within C / batch size + 1 turns) reports the limit if it fits, else the largest multiple of the batch size within C with a timeout as capacity stop: under-reporting by less than one batch |
| `Ramp.FaultFreeRunExists` | internal/suites/density/density.go:315-378 | Such fault-free runs exist for all valid options, every capacity and any number of turns |
| `Cleanup.SurvivorsAreHeld` | internal/suites/density/density.go:423-450 | In a cluster that cooperates, whatever is still listed was listed at every poll before, with the same deletion mark and held by finalizers no poll removed |
| `Cleanup.OverdueIff` | internal/suites/density/density.go:435-438 | An object is overdue more than 30 seconds after its deletion mark, if it has finalizers |
| `Cleanup.GoesOn` | internal/suites/density/density.go:440-449 | With objects left and the deadline ahead the loop goes on, whether updates succeed, find nothing or conflict |
| `Cleanup.EmptyByPoll32` | internal/suites/density/density.go:431-444 | The list after 32 seconds is empty |
| `Cleanup.CleanupProgress` | internal/suites/density/density.go:415-451 | Then the cleanup succeeds |
| `Cleanup.FinishedCleanupSucceeds` | internal/suites/density/density.go:415-451 | Any cleanup that ended in such a cluster succeeded, however few polls it took |
| `Cleanup.NotStrippedAfterThirtySeconds` | internal/suites/density/density.go:432-438 | No earlier: an object marked at the start keeps its finalizers through the poll at 30 seconds |
| `DensitySuite.CreateVMIs` | pkg/resource/vmi.go:41-60 | Whatever fails, exactly a prefix of the VMIs asked for has been created, all with well-formed quantities; the requests in the transcript are those of the prefix, spaced by the interval; and the error is that of the first attempt that failed |
| `Transcript.CreationToldIs` | pkg/resource/vmi.go:43-58 | The answers to a creation that succeeds: an interval waited out before every request but the first, and one accepted request for each VMI in order |
| `DensitySuite.CountRunningVMIs` | internal/suites/density/density.go:380-392 | The number of the run's VMIs that are Running in the cluster when it answers the one list |
| `DensitySuite.RunBatch` | internal/suites/density/density.go:315-376 | One turn asks exactly the questions of `TurnTold` and is `Take` of the answers; creation requests are at least 100 ms apart; the VMIs it created are consecutive, all of the batch if the turn goes on |
| `Transcript.GoodTurnTold` | internal/suites/density/density.go:315-376 | The questions of a turn that goes well, in order, with the context read alive four times |
| `DensitySuite.Ascend` | internal/suites/density/density.go:315-378 | The loop ends with the outcome of `Climb` of exactly the answers it got; the VMIs created are 0 to n - 1, no more than the limit |
| `DensitySuite.CreateVMIsInBatches` | internal/suites/density/density.go:297-378 | The whole function returns `RampOutcome` of exactly the answers it got, baseline and preflight included, with the same guarantee on what was created |
| `DensitySuite.CleanUp` | internal/suites/density/density.go:415-451 | Ends within 300 seconds against any cluster, and gives up waiting no earlier; every update in the transcript is of an object marked deleted for more than 30 seconds when it was sent; reports success only when no VMI of the run is left |
| `Transcript.CleanupByAnswers` | internal/suites/density/density.go:415-451 | How a cleanup ended is to be seen in its answers: it failed to strip exactly if an update was refused, failed to list exactly if a list failed, timed out exactly if the deadline came in a pause, and succeeded exactly if the last answer is a list without objects |
| `DensitySuite.StripOverdue` | internal/suites/density/density.go:433-444 | In any order, each listed object is looked at once and an update sent for exactly the overdue ones, until one is refused; not-found and conflict are no refusal |
| `DensitySuite.VisitObject` | internal/suites/density/density.go:434-443 | One object: the clock is read only if it is marked and has finalizers, and the update carries the object as listed |
| `DensitySuite.WarmUp` | internal/suites/density/density.go:137-151 | Creates at most the warm-up VMI, returns what its answers lead to, and after success no VMI of the run is left |
| `Transcript.WarmupSucceedsIff` | internal/suites/density/density.go:139-151 | The warm-up succeeds exactly if its VMI was created, ran before it was lost and was cleaned up |
| `Transcript.ReportedMaximumSustained` | pkg/suites/result.go:149-156 | For any maximum above zero the answers of the ramp contain, one after another, a listing with all of its VMIs Running, an inspection sound against the ledger at that turn, and a context alive after each |
| `Transcript.RampContextAlive` | internal/suites/density/density.go:315-378 | In a ramp without a run error the context was alive whenever it was read or waited on |
| `Transcript.RunMaximumSustained` | pkg/suites/result.go:149-156 | The same for the transcript of a whole run |
| `Transcript.ReportedStopHasEvidence` | pkg/suites/result.go:154-154 | Any capacity stop in a run comes from a reached turn with the evidence of `StopIffEvidence` |
| `Transcript.ReportedCapacityAccurate` | internal/suites/density/density.go:297-378 | A run whose answers were fault free reports the capacity it should |
| `Transcript.CleanupUpdatesOverdue` | internal/suites/density/density.go:431-444 | Every update of a cleanup is of an overdue object |
| `DensitySuite.CreateVMIsUntilFailure` | internal/suites/density/density.go:153-167 | The case records the maximum and stop of the ramp on the answers it got, and is an ERROR exactly for a run error |
| `DensitySuite.CleanupRunResult` | internal/suites/density/density.go:121-135 | A failed cleanup is entered in every capacity record, turns the cases holding one into ERROR unless skipped, leaves the other cases' states, and sets the suite error if there was none |
| `DensitySuite.RunE` | internal/suites/density/density.go:84-119 | The transcript is exactly that of the run's parts and determines the suite error, the cases and their states; on every path what was created carries the run's label, and none is left if the final cleanup succeeded |

The laws in `Keys`, `StartupLaws`, `HealthLaws` and the `...Iff` lemmas say what the specification
functions mean in terms of the data alone, so that the methods proved against them are tied to it.
The remaining members are specifications (`Merge`, `Accepts`, `Canonical`, `Fold`, `Absorb`, `Take`,
`Climb`, `RunTold`, `Reported`, ...) and steps of these proofs.

## Left out

- Kubernetes, KubeVirt, Prometheus and SPDY clients, and the informer library: their answers are
  parameters or choices of the adversary. `EnsureNamespace` and `EnsureEtcdReady` are one answer each.
- The child contexts of the batch, the warm-up and the inspections: what they answer is arbitrary (a
  set context error stays set), so the batch timeout is validated but does not appear as a duration.
- The etcd, network, nodes, resource-footprint and storage suites: fixed lists of commands and queries.
- `vmiObject` beyond whether the quantities parse, PromQL, `promWindow` and the metrics themselves:
  collecting them succeeds or fails.
- `FromOptions`, `parseDurations` and `ToSuiteParams`: reflection and library parsing; decoding is a
  parameter of `RunE`.
- Error texts: errors are tagged values. Where a result stores a text, only its being empty matters.
- Rendering, marshalling, progress output, logging, the command tree, files and `tool install`.
- `toolsDirPath` and loading the file: the tools directory and the sections are parameters.
- Registry locking and `sync.Once`: registration is sequential. Suites are values; setters for clients
  and the progress reporter are not modelled. `sort.Strings` is an insertion sort.
- Aliasing between nested option maps: trees are values. `Merge` shares nested maps with its
  arguments, which no code in the repository writes to afterwards.
- Canonicalization.Canonicalize: schema keys are taken to be distinct ignoring case (`SchemaOk`, proved for the global and density schemas); otherwise the spelling depends on map order. Which nested error is reported is not stated, because that also depends on map order.
- Keys.FoldIgnoresCase: `strings.ToLower` is modelled on ASCII. User keys may hold any character; schema keys outside ASCII are not covered.
- Restart and presence keys are tuples instead of strings joined by "/", which cannot occur in a
  Kubernetes name; restart counts are the non-negative 32-bit integers, whose difference does not wrap.
- VmiStartup.InterleavingDoesNotMatter: which of several lost VMIs is named in the error does depend on the interleaving and is not stated.
- DensitySuite.CleanUp: that requests return by the deadline is a promise of the cluster model.
- Cleanup.CleanupProgress: every poll is one second after the last, with no time spent in requests.
- Time stamps of results, and `SuiteResult` fields other than name, run, cases and error.
