# A verified model of the BentoRequest reconciler and the Dockerfile translation

The repository is a Kubernetes operator that builds container images for Bentos. This project models its two
hard cores in Dafny and proves properties of them:

* **The BentoRequest reconciler** (`controllers/resources/bentorequest_controller.go`): a crash-tolerant state
  machine that runs one `Reconcile` pass at a time against a shared, versioned store. The state is the request
  with its condition list and version, the jobs, the volume claims, the Bento, the image registry and the
  clock. A pass is a function of that state and of an environment that decides, call by call, which API calls
  fail, and which status writes of others land between a read and an update or after it. Runs interleave
  passes with edits of the request, job progress, registry changes, foreign status writes, clock ticks and
  reorderings of the job list. The imperative form (`ApiServer`, `StatusMethods`, `ImageMethods`,
  `ModelMethods`, `Controller`) is proved to compute exactly those functions, and the theorems are about them.
* **The Dockerfile translation and directory hashing** (`common/common.go`): loops over instructions and files,
  each proved against a specification function, and laws about one and two runs of it.

Image naming, the affinity aliasing between a request and its builder pod (on the heap), and the registry
credential writer and reader complete the picture.

Check everything with `dafny verify dfyconfig.toml`.

## Layout

| files | content |
|---|---|
| `Basics`, `Conditions`, `Cluster`, `Naming` | shared vocabulary, condition lists with the library's contract, the store, names and labels |
| `StatusWriter`, `ImagePhase`, `ModelsPhase`, `Reconcile` | one pass as functions |
| `ApiServer`, `StatusMethods`, `ImageMethods`, `ModelMethods`, `Controller`, `PodTemplates` | the same as classes, loops and methods |
| `Listing`, `JobFrames`, `StatusFrames`, `Runs` | what steps leave alone, and runs |
| `LostReads`, `BuilderJobs`, `LostRequest`, `Convergence`, `Livelock`, `Provenance`, `Availability`, `SeederJobs`, `SeederRuns`, `VolumeClaims`, `CleanUpIsFinal`, `BuildTimeout`, `Resets`, `CompareAndSwap`, `Outcomes`, `Publication`, `Records`, `ForceBuild`, `Verdicts`, `SeedingReports`, `CleanedUp`, `Announcements` | the theorems about the reconciler |
| `ImageNames`, `NamingLaws`, `Base64`, `Credentials` | naming and credentials |
| `Paths`, `Dockerfile`, `InstructionLaws`, `DockerfileLaws`, `DirectoryHash`, `HashLaws` | the second core |

## Findings

Where the code does not do what its own comments and names say it is for, it is modelled as it is and the exact
condition is proved. All of these follow from the code as written:

* **Lost request.** `ensureModelsExists` returns the empty object when the first read of a status writer fails,
  and `Reconcile` looks at that error only after the image phase. The image phase then works on the empty
  object. If the registry has a username, it stops there, because the registry secret cannot be kept in an empty
  namespace (lines 1186 and 1644). Without one, a stray builder job may appear next to the request's own, it
  builds a wrong image, and its completion is taken as proof of the right one (`LostRequest`). The
  exact conditions are `LostReads.LosesIff`, `BuilderJobs.PassBounded` and `Provenance.PassProvenance`; with a
  username both invariants hold under every failure.
* **Affinity livelock.** A request with an affinity of its own never gets a builder job that it recognises: the
  hash is taken after the injected term has reached the request through the shared reference (`Livelock`,
  `PodTemplates`).
* **Orphaned seeder jobs.** Clean-up only logs that a job could not be deleted and deletes the claim all the
  same, which orphans the job (`VolumeClaims.CleanUpOrphansIff`).
* **Postponed timeouts.** Deleting a stale seeder job resets all conditions, and the next report starts the
  clock of a build that has been running all along (`BuildTimeout.RestartPostponesTimeout`).
* **Stale annotations.** Updating an existing Bento refreshes its spec but not its annotations
  (`Availability.PublishedAnnotationsIff`, `Outcomes.EditedAnnotationIsLost`).
* **Failed builds do not stay unavailable.** The BentoAvailable=False written for a failed build (lines 677-694)
  is overwritten with Unknown in the same pass (lines 245-258), see `Outcomes.FailedBuildReadsAsBuilding`.
* **Tags without a colon** do not survive the label round trip (`SeederJobs.TagRoundTripIff`).
* **Image tags panic** for prefixes beyond 90 characters once prefix and tail exceed 122 (`ImageNames`).
* **Relative WORKDIR.** The commands of a Dockerfile with an absolute and then a relative WORKDIR end in another
  directory than the one that is returned (`DockerfileLaws.RelativeWorkdirMisleads`).
* **Confusable texts.** A model tag that contains the separator of the seeding record can make two model lists look
  the same (`Records.RecordNeedsListableTags`), a model namespace and a tag run into each other in a claim's name
  (`NamingLaws.ClaimsMayCollide`), and so do the mode and the content of a hashed file
  (`HashLaws.ModeRunsIntoContent`).
* **Links to directories** make directory hashing recurse forever (`DirectoryHash.HashDirEndsIff`).
* **Directory hashes contain the directory's path**, so hashes, unlike commands, are not relocatable
  (`DirectoryHash.PathEntersTheHashIff`).

## Model

| member | source | states |
|---|---|---|
| `Controller.BentoRequestReconciler.Reconcile` | controllers/resources/bentorequest_controller.go:131-415 | One `Reconcile` call on the mutable API server ends in exactly the state the pass function gives, whatever calls fail and whoever else writes the status; it keeps the job store tidy, keeps the bound on builder jobs exactly unless it adds a stray job to another one, and leaves an available request untouched |
| `Runs.Enter` | controllers/resources/bentorequest_controller.go:131-215 | Every pass either stops having touched at most the status, or runs its phases on the request exactly as stored, with BentoAvailable Unknown and no other condition changed except by initialisation |
| `Runs.RunTidy` | controllers/resources/bentorequest_controller.go:131-415 | Over every run, job ids stay unique and every job carries one of the two families of labels and a generated name |
| `BuilderJobs.AtMostOneBuilderAlways` | controllers/resources/bentorequest_controller.go:523-603 | In every reachable state there is at most one builder job per separate-models label value, under edits, failures, foreign writes and job progress: always with registry credentials, and without them as long as no pass makes a stray job next to another one |
| `BuilderJobs.AtMostOneBuilderIff` | controllers/resources/bentorequest_controller.go:523-603 | Over a run from any tidy state with at most one builder job per label value, the bound holds in every state of the run if and only if no pass of it makes a stray job next to another one |
| `BuilderJobs.EnsureBuiltBound` | controllers/resources/bentorequest_controller.go:523-603 | For all inputs, when the job step keeps the bound of max(1, before): exactly unless it lists by one label value and creates with the other while a job with that other value is there |
| `BuilderJobs.PassBounded` | controllers/resources/bentorequest_controller.go:222-306 | For all states and failures, when a pass raises the number of builder jobs above max(1, before): exactly when its models phase loses the request, the registry has no username, the image of the empty object is asked for in vain, no job of the other mode is listed and the request has a job already |
| `JobFrames.NewBuilderIsListed` | controllers/resources/bentorequest_controller.go:1720-1735 | A created builder job is selected by the very selector that lists builder jobs of its mode, and by no other |
| `JobFrames.NewSeederIsListed` | controllers/resources/bentorequest_controller.go:1693-1704 | A created seeder job is selected by the selector that lists seeder jobs and never taken for a builder job |
| `LostReads.LosesIff` | controllers/resources/bentorequest_controller.go:728-975 | For all states and failures, when the models phase hands on the empty object instead of the request: exactly when it is not short-circuited and the first read fails of the models-not-ready report that is due, of the reset after a stale job whose deletion works, everything before it having worked, or, once pruning, seeding and relisting have worked, of the one report that is due |
| `LostRequest.LostRequestAddsBuilder` | controllers/resources/bentorequest_controller.go:222-240 | Without registry credentials, when only the first read of the models-not-ready writer fails, the pass still adds a builder job with the request's labels and hash, named after the empty object's image |
| `LostRequest.BoundFailsWithoutTheRequest` | controllers/resources/bentorequest_controller.go:222-240 | A concrete state and failure in which one pass turns one builder job into two |
| `LostRequest.WrongImageIsBelieved` | controllers/resources/bentorequest_controller.go:222-240 | A run of that pass, the completion of its job and one undisturbed pass ends with ImageExists=True for the request's own image, which at no point of the run was in the registry or built by any job |
| `Convergence.ConvergesToOneBuilder` | controllers/resources/bentorequest_controller.go:534-603 | With the request left alone, no affinity, no failures and the image absent, s stale builder jobs and any number of current ones become exactly one current job after s+1 passes, whatever other steps come in between |
| `Convergence.Advances` | controllers/resources/bentorequest_controller.go:534-561 | The measure behind it: after n of at most s passes exactly s-n stale jobs are left |
| `Convergence.SettledForever` | controllers/resources/bentorequest_controller.go:534-603 | Once there is exactly one current builder job, a pass changes the listed builder jobs exactly when it makes a stray job, whatever else fails and whatever the registry says; an undisturbed pass, and any pass with registry credentials, never does |
| `Livelock.FreshJobIsCurrentIff` | controllers/resources/bentorequest_controller.go:2286-2302 | A fresh builder job carries the hash that the stale check recomputes if and only if the request has no affinity of its own |
| `Livelock.AffinityNeverBuilds` | controllers/resources/bentorequest_controller.go:546-561 | With an affinity of its own and the image absent, no run without edits ever gets a builder job that is recognised as current, whatever calls fail, and neither ImageExists for the image nor BentoAvailable becomes True |
| `PodTemplates.InjectPodAffinity` | controllers/resources/bentorequest_controller.go:2339-2358 | The term is appended in place to the pod's affinity object, which is created when missing and shared when it belongs to somebody else |
| `PodTemplates.GenerateImageBuilderJob` | controllers/resources/bentorequest_controller.go:2286-2337 | On the heap: the request's content grows by one term through the shared reference exactly when it has an affinity, and the recorded hash is that of the content after injection |
| `PodTemplates.GenerateModelSeederJob` | controllers/resources/bentorequest_controller.go:1837-1895 | Generating a seeder job leaves the request's heap as it was and records the hash of the unchanged content |
| `Provenance.ImageProvenance` | controllers/resources/bentorequest_controller.go:440-521 | Over every run in which no pass makes a stray job for another image, which with registry credentials is every run, ImageExists=True(m) only arises in a pass at whose start the registry lists m or a builder job made for m has completed |
| `Provenance.ImageInvariantIff` | controllers/resources/bentorequest_controller.go:222-306 | Over any run, every builder job builds the image its content names all the way through if and only if no pass makes a stray job for another image |
| `Provenance.CheckedImagesExist` | controllers/resources/bentorequest_controller.go:440-521 | In every reachable state of any run, whatever fails, ImageExistsChecked=True(m) implies ImageExists=True(m) |
| `Provenance.PassProvenance` | controllers/resources/bentorequest_controller.go:222-306 | For all states and failures, when a pass keeps every builder job building the image its content names: exactly unless it makes a stray job and the empty object's image is not the request's |
| `Provenance.EnsureBuiltHonestIff` | controllers/resources/bentorequest_controller.go:523-603 | The same for the job step: it breaks the claim exactly when it creates a job, nothing being listed and no call failing, for an image other than its content's |
| `StatusFrames.ModelsPhaseClaims` | controllers/resources/bentorequest_controller.go:775-801 | Resets triggered by the models phase keep both claims about the image or withdraw both, and the object handed on claims nothing that is not stored |
| `Availability.AvailableMeansPublished` | controllers/resources/bentorequest_controller.go:228-409 | In every reachable state BentoAvailable=True means that one pass of the run announced it, and that the stored Bento has the image, tag, service and models of the content that this very pass worked on, with ImageExists=True for that image and, for models seeded separately, ModelsExists=True with their message, whatever happened since |
| `Availability.AvailableAbsorbs` | controllers/resources/bentorequest_controller.go:151-156 | An available request is left untouched by every later pass |
| `Availability.PublishedAnnotationsIff` | controllers/resources/bentorequest_controller.go:378-393 | Publishing ends with the Bento it wanted if and only if there was none before or its annotations already agreed, since an update refreshes the spec alone |
| `Outcomes.EditedAnnotationIsLost` | controllers/resources/bentorequest_controller.go:348-409 | A run of a pass that creates the Bento but fails to announce it, an edit of its annotations and an undisturbed pass ends with an announced Bento that carries the annotations from before the edit |
| `Outcomes.AnnouncesIff` | controllers/resources/bentorequest_controller.go:228-409 | An undisturbed pass announces the Bento if and only if the registry secret has a namespace, the image is recorded, in the registry or built by the completed first current job, and the models are recorded or all seeded; it then publishes what the request asks for |
| `Announcements.AnnouncesExactly` | controllers/resources/bentorequest_controller.go:228-409 | The same in bare terms: an undisturbed pass announces if and only if the secret has a place; a record of exactly the request's tags in the controller's storage class is stored, or every model has a current job with all its successes and none has failures alone; and the image is recorded with no stale seeder job to withdraw it, is in the registry without a build being forced, or has its first, current builder job done. It then publishes the request's tag, image, service and models, a new Bento with the request's two annotations and an existing one with those it had |
| `Announcements.UnseededPass` | controllers/resources/bentorequest_controller.go:267-306 | An undisturbed pass with the image but not all the models ends with BentoAvailable Unknown and the message that the model is seeding, or, if a current seeder job has failed without finishing, False with the wrapped error of the models phase, which has waited for the image phase |
| `Announcements.ErrorsAreReported` | controllers/resources/bentorequest_controller.go:186-205 | The error of an undisturbed pass, and nothing else, is what BentoAvailable=False says in the end |
| `CleanedUp.AnnouncementCleansUp` | controllers/resources/bentorequest_controller.go:272-290 | The undisturbed pass that announces separately seeded models leaves no seeder job and no claim of any of their tags; it makes no job, touches no claim of other models, no seeder job of theirs that the models phase has kept, and no builder job but surplus ones of its mode |
| `Publication.RequestsArePublished` | controllers/resources/bentorequest_controller.go:131-415 | From any state of a request without affinity that is left alone, models seeded or not: after one undisturbed pass more than there were stale builder jobs, exactly one builder job and, unless the Bento is out, a current job for every model that is not recorded as seeded are there, and once they have completed the next undisturbed pass publishes and announces the Bento |
| `Outcomes.FailedBuildReadsAsBuilding` | controllers/resources/bentorequest_controller.go:228-306 | An undisturbed pass over a request whose one current builder job has failed for good leaves ImageBuilding False, while its BentoAvailable=False has been overwritten with Unknown and an error of the models phase goes unreported |
| `Outcomes.StaleDeleteResets` | controllers/resources/bentorequest_controller.go:546-561 | Dropping a stale builder job turns every condition into Unknown in place, keeping order, reasons and transition times |
| `ForceBuild.ImageIsFoundIff` | controllers/resources/bentorequest_controller.go:440-521 | Before the registry's answer is recorded, an undisturbed image phase finds the image if and only if the first of its builder jobs, all current, has all its successes, or the registry lists the image and the annotation does not force a build |
| `ForceBuild.ListedImageNeedsNoJob` | controllers/resources/bentorequest_controller.go:440-489 | A listed image that is not forced is recorded in both conditions, and the jobs stay as they are |
| `ForceBuild.AbsentImageGetsJob` | controllers/resources/bentorequest_controller.go:490-603 | An image that is not listed, or is forced, gets one pristine builder job for it when there is none |
| `ForceBuild.ForcedIgnoresRegistry` | controllers/resources/bentorequest_controller.go:1559-1562 | Two runs: with a forced build the image phase gives the same result on two stores that differ only in what the registry lists, whatever fails and whoever else writes |
| `Verdicts.BuildVerdict` | controllers/resources/bentorequest_controller.go:490-721 | What an undisturbed image phase reports on the one current builder job when the registry has not got the image, from the job's bare counters and conditions, the clock and the timeout: successful with the image recorded, failed for good, timed out with its error, running or waiting, each with its message, and the registry's answer beside it |
| `Verdicts.FirstReports` | controllers/resources/bentorequest_controller.go:158-213 | An undisturbed first pass starts with the three Unknown conditions of a new request, and BentoAvailable Unknown |
| `Outcomes.QuietModelsPhase` | controllers/resources/bentorequest_controller.go:728-977 | An undisturbed models phase seeds exactly what is missing, and succeeds if and only if the models are recorded as seeded or every one has a completed current job and no current job has failed |
| `Outcomes.FailedSeederBlocks` | controllers/resources/bentorequest_controller.go:908-943 | One current seeder job that failed without completing makes the models phase end in an error with ModelsExists False, whatever else completed |
| `Records.RecordIsReadBack` | controllers/resources/bentorequest_controller.go:958-972 | The message that records a seeding begins with the storage class and a colon, and cutting the rest at the separator gives the models' tags in order, for tags without the separator |
| `Records.RecordsAgreeIff` | controllers/resources/bentorequest_controller.go:751-751 | Two such messages are equal if and only if the tag lists are |
| `Records.RecordNeedsListableTags` | controllers/resources/bentorequest_controller.go:751-751 | A tag that contains the separator is what it takes to confuse two lists |
| `Records.ShortCircuitsIff` | controllers/resources/bentorequest_controller.go:735-754 | The models phase takes the models as seeded if and only if the stored record is of exactly the request's tags in the controller's storage class |
| `Records.OtherRecordSeeds` | controllers/resources/bentorequest_controller.go:735-883 | With a record of other tags or of another storage class an undisturbed models phase ends with a current seeder job for every model |
| `SeedingReports.ModelsVerdict` | controllers/resources/bentorequest_controller.go:892-977 | What an undisturbed models phase says about the very jobs it leaves, from their bare counters: an error naming exactly the jobs with failures and without all successes, if there is one, with the hint on uninitialised pods; else success with the record and the end of seeding, when each tag has a finished job; else the names of exactly the unfinished ones |
| `SeedingReports.UnseededModelsAreNotReady` | controllers/resources/bentorequest_controller.go:735-749 | Models without any job or report are first reported as not ready, and the phase succeeds neither at once nor with an error |
| `NamingLaws.OtherModesSeedNothing` | controllers/resources/bentorequest_controller.go:222-238 | A pass over a request that does not have the separate-models annotation, or is stored in S3, leaves every seeder job and volume claim alone, whatever fails |
| `SeederJobs.TagRoundTripIff` | controllers/resources/bentorequest_controller.go:804-804 | A model tag survives the trip through repository and version labels if and only if it contains a colon |
| `SeederJobs.ModelsPhaseSeedsExactlyOnce` | controllers/resources/bentorequest_controller.go:756-883 | An error-free models phase that is not short-circuited ends with exactly one current seeder job per model and no other, given distinct tags with a colon and at most one job per tag before |
| `SeederJobs.ModelsExistNeedsSeeded` | controllers/resources/bentorequest_controller.go:892-975 | ModelsExists=True is newly written only with the message of the current models, when each has a completed current job and no listed job failed without completing, for any tags and whatever fails |
| `SeederRuns.CurrentSeedersNameModels` | controllers/resources/bentorequest_controller.go:804-819 | In every reachable state each seeder job names a model of the content its hash stands for, so no job with the current hash is ever deleted for want of a model |
| `SeederRuns.FreshSeederSurvives` | controllers/resources/bentorequest_controller.go:775-820 | A seeder job that a models phase made is current, with or without an affinity: every later models phase over the same content keeps it, whatever fails, if its labels name a model |
| `VolumeClaims.SeedersKeepClaims` | controllers/resources/bentorequest_controller.go:272-290 | In every reachable state every seeder job's volume claim exists, across creation, stale deletion, short-circuited passes and clean-up, given stable storage names, name-apart tags and deletes that succeed |
| `VolumeClaims.CleanUpOrphansIff` | controllers/resources/bentorequest_controller.go:277-289 | For any list of models with distinct tags, clean-up leaves every seeder job with its claim if and only if no model's claim is deleted while one of its jobs stays, because a listing or a delete failed |
| `CleanUpIsFinal.CleanUpLeavesCleaned` | controllers/resources/bentorequest_controller.go:272-290 | The pass that cleans up leaves a state in which neither models nor builder jobs are out of date, whether or not it then publishes the Bento |
| `CleanUpIsFinal.NeverSeededAgain` | controllers/resources/bentorequest_controller.go:735-754 | From such a state no pass of any run without edits creates a seeder job or a volume claim, even if publishing keeps failing and finished jobs change status |
| `BuildTimeout.QuietPassTimer` | controllers/resources/bentorequest_controller.go:605-668 | An undisturbed pass over a running build times out if and only if the deadline of the stored report has passed; otherwise it leaves the timer running, from its old start if it was running and no reset was stored, else from the time of this pass |
| `BuildTimeout.PassWatches` | controllers/resources/bentorequest_controller.go:605-668 | Before the deadline a pass keeps the timer running from its start if and only if it neither stores a reset nor makes a stray job, whatever else fails |
| `BuildTimeout.QuietResetsIff` | controllers/resources/bentorequest_controller.go:775-801 | An undisturbed pass stores a reset if and only if its models phase is not short-circuited and lists a seeder job of another hash |
| `BuildTimeout.TimerKeepsItsStart` | controllers/resources/bentorequest_controller.go:605-668 | Over any run without such a pass and without a stored timeout, before or after the deadline, with failures and foreign writes, ImageBuilding stays True since that time |
| `BuildTimeout.TimesOutAtDeadline` | controllers/resources/bentorequest_controller.go:650-662 | After any such run, passes included that came too late and failed to say so, an undisturbed pass times out if and only if its time lies after start plus timeout; it then leaves ImageBuilding False/Timeout since now and BentoAvailable False |
| `BuildTimeout.RestartPostponesTimeout` | controllers/resources/bentorequest_controller.go:785-800 | A concrete build with one second left whose timer an undisturbed pass starts again, because it deletes a stale seeder job |
| `Conditions.Set` | controllers/resources/bentorequest_controller.go:1099-1101 | The library's contract: the condition of that type is merged in place or appended, the transition time moves only with the status, every other type is untouched |
| `Conditions.SetAllKeepsDistinct` | controllers/resources/bentorequest_controller.go:1099-1101 | Setting conditions keeps condition types unique |
| `Conditions.MarkAllUnknown` | controllers/resources/bentorequest_controller.go:1065-1069 | The mutate-while-ranging loop equals, on lists with unique types, the simultaneous map to Unknown that keeps length, order, types, reasons and transition times |
| `Conditions.RangeUnknownFinds` | controllers/resources/bentorequest_controller.go:1065-1069 | On any list, duplicates included, the loop marks every type that is present and adds none |
| `CompareAndSwap.OneSwapOrNothing` | controllers/resources/bentorequest_controller.go:1060-1079 | A writer's update is stored if and only if one of three attempts goes through; then it is applied once, to the very state it replaces, so nobody's write is lost, and otherwise the store holds only the others' writes |
| `CompareAndSwap.VersionsCountWrites` | controllers/resources/bentorequest_controller.go:1094-1111 | The version counts every foreign write that landed and the controller's own exactly once if it landed |
| `CompareAndSwap.BeforeIsForeign` | controllers/resources/bentorequest_controller.go:1094-1098 | What an attempt reads is the original list with the earlier foreign writes applied in order |
| `StatusMethods.WriteStatus` | controllers/resources/bentorequest_controller.go:1053-1117 | The retry loop of reads, local changes and replacements computes the writer function, for both writers |
| `StatusMethods.SetStatusConditions` | controllers/resources/bentorequest_controller.go:1087-1117 | setStatusConditions as that loop |
| `StatusMethods.SetStatusConditionsToUnknown` | controllers/resources/bentorequest_controller.go:1053-1085 | setStatusConditionsToUnknow as that loop |
| `ApiServer.Server.UpdateStatus` | controllers/resources/bentorequest_controller.go:1102-1106 | A status update is refused when the call fails or the stored version is not the one that was read, and then changes nothing |
| `ImageMethods.EnsureImage` | controllers/resources/bentorequest_controller.go:426-721 | ensureImageExists on the API server: state and all results are those of the phase function, every early return included |
| `ImageMethods.EnsureBuiltJob` | controllers/resources/bentorequest_controller.go:523-603 | The listing loop: the first stale job goes and ends the pass, surplus jobs go in order, a missing job is made |
| `ImageMethods.JobFlags` | controllers/resources/bentorequest_controller.go:612-629 | The running and failed flags derived step by step from a builder job's completions, counters and conditions |
| `ImageMethods.TrackBuildJob` | controllers/resources/bentorequest_controller.go:605-721 | The report on the one job that is left: waiting, running, timed out, failed, succeeded |
| `ModelMethods.EnsureModels` | controllers/resources/bentorequest_controller.go:728-977 | ensureModelsExists on the API server: state and results are those of the phase function |
| `ModelMethods.PruneJobs` | controllers/resources/bentorequest_controller.go:775-820 | The loop over listed seeder jobs, with a reset of all conditions after each stale delete |
| `ModelMethods.SeedModel` | controllers/resources/bentorequest_controller.go:822-883 | One model without a job: claim before job |
| `ModelMethods.Tally` | controllers/resources/bentorequest_controller.go:892-906 | The three lists the verdict is based on, collected in one loop |
| `ModelMethods.CleanUpModels` | controllers/resources/bentorequest_controller.go:272-290 | The clean-up loop, jobs before claim, passing over errors |
| `ImageNames.GetBentoImageName` | controllers/resources/bentorequest_controller.go:1451-1483 | The name is computed step by step, and panics if and only if no image is given, the prefix exceeds 90 characters and prefix and tail together exceed 122 |
| `ImageNames.TagFits` | controllers/resources/bentorequest_controller.go:1474-1482 | With a prefix of at most 90 characters there is always a tag of at most 128 characters, the same for the external and the in-cluster name |
| `ImageNames.TailInjective` | controllers/resources/bentorequest_controller.go:1462-1472 | For dot-free names the tail determines repository, version and all three flags |
| `ImageNames.TailNeedsDotFreeNames` | controllers/resources/bentorequest_controller.go:1462-1472 | With dots in the names it does not |
| `ImageNames.TagsApart` | controllers/resources/bentorequest_controller.go:1451-1483 | Under one prefix, two requests have the same tag if and only if repository, version and flags agree, in the readable and the hashed form, where md5 keeps the two tails apart |
| `NamingLaws.ImageNameIs` | controllers/resources/bentorequest_controller.go:1423-1483 | For a Bento repository:version the image is the one the request names, else the URI with the tag of prefix, repository, version and the suffixes of the three flags, or with the digest of all but the prefix where that would exceed 128 characters |
| `NamingLaws.ClaimNameIs` | controllers/resources/bentorequest_controller.go:1754-1768 | A claim's name is its prefix and the whole digest of storage class, model namespace if any and tag, and 45 characters long |
| `NamingLaws.ClaimsApartIff` | controllers/resources/bentorequest_controller.go:1754-1768 | Two models of a request share a claim if and only if their tags are equal, where md5 keeps the two texts apart |
| `NamingLaws.ClaimsMayCollide` | controllers/resources/bentorequest_controller.go:1754-1768 | Across model namespaces two different models may share a claim |
| `NamingLaws.BuilderLabelsSay` | controllers/resources/bentorequest_controller.go:1720-1735 | A new builder job carries exactly five labels: request, kind, Bento repository and version and the mode, and it is a pristine job for that image |
| `NamingLaws.SeederLabelsSay` | controllers/resources/bentorequest_controller.go:1693-1704 | A new seeder job carries exactly six labels, from which the model's tag can be read back, and it is a pristine job of the request's hash |
| `NamingLaws.OthersAreNotListed` | controllers/resources/bentorequest_controller.go:523-533 | Jobs of another request are never listed |
| `NamingLaws.InjectedTerm` | controllers/resources/bentorequest_controller.go:2339-2358 | The injected term comes last and leaves every other part of the affinity as it was; with full weight it prefers the node of the pods with the request's label and of no others |
| `NamingLaws.GenerationTouchesAffinityAlone` | controllers/resources/bentorequest_controller.go:2286-2302 | Generating a builder pod changes nothing of the request but an affinity of its own, which grows by that term |
| `Base64.RoundTrip` | controllers/resources/bentorequest_controller.go:1200-1200 | Decoding gives back exactly the encoded bytes (section 4 of RFC 4648) |
| `Base64.EncodesByGroups` | controllers/resources/bentorequest_controller.go:1200-1200 | Three bytes become the four symbols of the same number in base 64, one or two bytes the leading two or three, padded (section 4 of RFC 4648) |
| `Base64.SymbolsInOrder` | controllers/resources/bentorequest_controller.go:1200-1200 | The alphabet is A to Z, a to z, 0 to 9, plus and slash, in this order (table 1 of RFC 4648) |
| `Base64.DecodesIff` | controllers/resources/bentorequest_controller.go:1356-1356 | A text is decoded if and only if, line breaks apart, it is made of groups of four symbols with at most two padding characters at the very end |
| `Base64.LineBreaksAreSkipped` | controllers/resources/bentorequest_controller.go:1356-1356 | A line break anywhere changes nothing |
| `Credentials.CredentialsSplitIff` | controllers/resources/bentorequest_controller.go:1355-1355 | Splitting at the first colon gives back username and password if and only if the username has no colon (section 2 of RFC 7617) |
| `Credentials.WriteThenRead` | controllers/resources/bentorequest_controller.go:1185-1202 | Reading back what was written gives the same server, username and password for every image reference, if and only if the username has no colon and the server has a name |
| `Credentials.ReadExact` | controllers/resources/bentorequest_controller.go:1322-1355 | For an image server/rest the entry of that server is read from any larger config whatever the iteration order, and gives username and password of the basic authentication it encodes |
| `Credentials.ReadRegistry` | controllers/resources/bentorequest_controller.go:1296-1361 | Which entry may be chosen, what is read from it, and when each error is possible |
| `Credentials.ChooseServer` | controllers/resources/bentorequest_controller.go:1322-1346 | The three ranges over the map: exact host, else containing it, else any entry |
| `Credentials.ContainsIff` | controllers/resources/bentorequest_controller.go:1333-1339 | One name contains the other if and only if it occurs at some position |
| `Credentials.WritesBasicAuth` | controllers/resources/bentorequest_controller.go:1190-1204 | The written config has one entry, for the server, which decodes to username, colon and password |
| `Dockerfile.GetImageInfo` | common/common.go:103-205 | The loop over Dockerfile instructions computes the translation, and ends early exactly as the translation fails |
| `Dockerfile.EmitCopy` | common/common.go:153-183 | The commands one COPY adds, appended step by step |
| `InstructionLaws.LastArgWins` | common/common.go:131-138 | In every translation an argument is defined if and only if some ARG has its name, and has the value of the last one: what is supplied, else its own default, else the empty string |
| `InstructionLaws.ArgSets` | common/common.go:131-138 | One more ARG sets that name alone, and adds the export of that name and value |
| `InstructionLaws.EnvAdds` | common/common.go:139-145 | One more ENV adds its key and value, a dollar and a name standing for the argument of that name |
| `InstructionLaws.WorkdirMoves` | common/common.go:146-152 | One more WORKDIR sets the directory and adds the cd into it, resolved in the same way |
| `InstructionLaws.RunAdds` | common/common.go:123-130 | One more RUN adds its text, without a closing exit 0, unless it makes the entry point executable |
| `InstructionLaws.FromNames` | common/common.go:120-122 | One more FROM names the base image and changes nothing else |
| `InstructionLaws.OtherAddsNothing` | common/common.go:153-158 | A COPY of the whole context and instructions of any other kind add nothing |
| `InstructionLaws.CopyAdds` | common/common.go:153-183 | One more COPY of a path inside a clean context into a directory adds the file's hash, the mkdir of the parent directory, with or without a closing slash, the cp from ${CONTEXT}, and the chown exactly with its flag |
| `InstructionLaws.AbsoluteCopyAdds` | common/common.go:153-183 | One more COPY of an absolute path to a plain name keeps the path and makes no directory |
| `InstructionLaws.ImageHashTells` | common/common.go:187-192 | For an injective blake3, the image hash of two translations that differ in base image, file hashes, commands or environment alone is the same if and only if that part, as joined, is the same |
| `DockerfileLaws.TranslatesIff` | common/common.go:119-185 | There is a translation if and only if every instruction has the values and flags that are indexed and every copied file can be hashed |
| `DockerfileLaws.ReplayYieldsArgsAndDirIff` | common/common.go:131-152 | Replaying the emitted export and cd commands in a shell, relative cd included, yields exactly the returned arguments, and ends in the returned working directory if and only if the last WORKDIR leads to the same place from the start as from where the shell was before it |
| `DockerfileLaws.RelativeWorkdirMisleads` | common/common.go:145-152 | WORKDIR /a and then WORKDIR b: the shell ends in /a/b, the returned directory is b |
| `DockerfileLaws.ReferencesMeanArgsInScope` | common/common.go:139-152 | Every ENV and WORKDIR reference means the last ARG of that name before it, or the empty string |
| `DockerfileLaws.OneCpAndHashPerCopy` | common/common.go:153-183 | There are as many cp commands as file hashes and as COPY instructions other than of the whole context, each belonging to its own, in order |
| `DockerfileLaws.EveryCpHasItsDir` | common/common.go:171-180 | Every cp into a non-trivial directory comes right after the mkdir of that directory |
| `DockerfileLaws.DefaultsDoNotInterfere` | common/common.go:131-138 | Two runs: Dockerfiles that differ only in defaults of supplied arguments give the same outcome, hash included |
| `DockerfileLaws.UndeclaredArgsAreIgnored` | common/common.go:131-138 | Build arguments that no ARG declares change nothing |
| `DockerfileLaws.ContextDoesNotMatter` | common/common.go:159-183 | Two runs: from any two clean, absolute, non-root contexts everything but the file hashes is the same |
| `DockerfileLaws.SameFilesSameInfo` | common/common.go:159-205 | With the same hash for every copied file the whole image information is the same |
| `Paths.RelocatedIff` | common/common.go:160-179 | For an absolute context, a source inside it is rewritten to the same path under ${CONTEXT} if and only if the context is in clean form and not the root |
| `Paths.JoinInside` | common/common.go:161-161 | Joining a context with a clean path inside it appends the path to the clean context |
| `DirectoryHash.HashDir` | common/common.go:35-65 | Walking, sorting and feeding the hasher leaf by leaf computes the folder's hash or failure, on every folder for which it ends |
| `DirectoryHash.HashFile` | common/common.go:67-92 | The hash of a file, or of a link to one, is blake3 of its decimal mode followed by its content, an unreadable one fails, and a folder's is that of HashDir |
| `DirectoryHash.HashDirNeedsNoFuel` | common/common.go:35-92 | Where the mutual recursion ends, any bound on its calls gives the same result |
| `DirectoryHash.HashDirEndsIff` | common/common.go:67-74 | The mutual recursion ends if and only if, in path order, no link to a directory comes before a file that cannot be read |
| `DirectoryHash.LinkDiverges` | common/common.go:71-74 | A link to a directory is hashed forever |
| `DirectoryHash.WalkOrderDoesNotMatter` | common/common.go:53-63 | The byte stream fed to the hasher is the same for every walk order of the same files |
| `DirectoryHash.EntryOrderDoesNotMatter` | common/common.go:38-63 | A folder's hash is the same in whatever order its entries are listed |
| `DirectoryHash.PathEntersTheHashIff` | common/common.go:53-63 | For any folder, the stream hashed at two places is the same if and only if they are the same path, unless the folder holds nothing or cannot be hashed |
| `HashLaws.FileHashTells` | common/common.go:84-91 | For an injective blake3, two files of equal mode have equal hashes if and only if their contents are equal, and two of equal content if and only if their modes are; a link to a file hashes as the file |
| `HashLaws.ModeRunsIntoContent` | common/common.go:84-89 | Mode and content together can be confused: two concrete files with different modes and contents have the same hash for every blake3 |
| `HashLaws.DigitsAreDecimal` | common/common.go:85-85 | The mode is written in decimal without leading zeros |
| `HashLaws.WalkCollects` | common/common.go:38-47 | The walk collects exactly what is not a folder at any depth, under its own path |
| `HashLaws.BeforeIff` | common/common.go:53-53 | Paths are sorted in byte order |
| `HashLaws.StreamTells` | common/common.go:55-63 | With digests of one length a change of one leaf shows in the stream if and only if its hash changes |
| `HashLaws.ContentEntersTheHash` | common/common.go:35-65 | Replacing the content of one file of a folder, at any depth, leaves the folder's hash as it was if and only if the content is the same, for digests of one length that do not collide on the texts in play |

## Left out

- A lagging cache: listings and deletes are immediate. Jobs being deleted in the foreground are gone at once.
- Edits of the request during a pass: passes are atomic with respect to spec, labels and annotations, while status writes of others may land at every writer. Objects read again during a pass are values; sharing between local copies is modelled for the affinity only.
- Whether the registry has a username, and which registry it is, is constant over a run.
- Convergence.ConvergesToOneBuilder: asks that the request fits the registry secret, that is, brings its own secret, has a namespace or needs none; without that no pass gets to its job step.
- Publication.RequestsArePublished: asks that model tags contain a colon, since the next pass deletes the jobs of other tags as unwanted, and that the image stays out of the registry until its builder job has completed.
- CleanedUp.AnnouncementCleansUp: asks that model tags contain a colon and that the listed seeder jobs of the request's models carry the labels they are made with.
- Records.RecordIsReadBack: asks that tags are not empty and do not contain the separator, without which it fails (`Records.RecordNeedsListableTags`); so do the laws about announcements and reports that use it.
- HashLaws.ContentEntersTheHash: is about folders all of whose files can be read.
- InstructionLaws.CopyAdds: is about sources inside a clean context and absolute targets; other contexts are the subject of `Paths.RelocatedIff`.
- VolumeClaims.SeedersKeepClaims: asks that storage names stay fixed, that claim names of the tags in use differ, that nobody else deletes those claims and that deletes of jobs succeed; models shared between requests are not modelled.
- SeederJobs.ModelsPhaseSeedsExactlyOnce: says nothing about duplicate model tags in one request, for which the code creates one job per occurrence.
- ImageNames.TagsApart: md5 is uninterpreted; that it tells the two tails in play apart is a premise.
- BuildTimeout.TimesOutAtDeadline: the clock has no resolution; the rounding of stored transition times to whole seconds is not modelled, and neither is the job's own active deadline.
- BuildTimeout.QuietPassTimer: takes a status that has been initialised and carries no zero transition time, and a clock that is not at the zero time.
- DirectoryHash.HashFile: excludes a link to a directory, on which it does not end (`DirectoryHash.LinkDiverges`); `DirectoryHash.HashDir` excludes exactly the folders on which it does not end.
- DirectoryHash.PathEntersTheHashIff: paths are joined with a slash and not cleaned, so folder paths are taken as clean and not the root.
- DirectoryHash.HashDirEndsIff: links are classified by what they lead to; permission errors during the walk and files that change while they are read are not modelled.
- DockerfileLaws.SameFilesSameInfo: takes equal file hashes as a premise, since a directory's hash depends on its path.
- DockerfileLaws.ReplayYieldsArgsAndDirIff: values are taken literally; shell quoting, expansion and the special forms of `cd` with a dash or a tilde are not modelled.
- Credentials.WriteThenRead: the JSON around the auths map and the secret it is stored in are not modelled, and neither is the insecure flag of the registry.
- The content hash is an injective function of spec, labels and annotations; collisions of the real 64-bit hash are not modelled. blake3 and md5 are uninterpreted; a law that needs two digests to differ says so in a premise.
- The clock stands still during a pass, and a call that occurs twice in a pass for the same job fails both times or not at all.
- Error texts of API calls are fixed per call site, with the phase in front where `Reconcile` puts it, and a call fails or succeeds as a whole: a create or update that takes effect but reports failure is not modelled.
- The registry check is an oracle with the force-build annotation in front; HTTP, ECR and S3 clients, retries and authentication are not part of this model.
- `getBento` and the runners and context it adds to the Bento, image pull secrets, owner references and events.
- Pod templates apart from affinity, labels and hash: resources, security contexts, engine flags and shell templates.
- Removal of finished jobs by their time to live, and deletion of jobs by users.
- Multi-stage Dockerfiles and the Dockerfile parser, which is not part of this model.
- Deployment files, generated clients, webhooks, the component registration and `yatai-client`.
