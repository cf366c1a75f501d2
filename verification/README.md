# pdocker: a verified model of its verifiers, its image store and two of its C tools

pdocker runs containers on Android. Much of its engineering lives in programs that decide whether
evidence may be believed, and in protocols that must survive a crash. This project models eight of
them in Dafny and proves what they promise, or, where a promise does not hold, exactly when it does.

* **GPU evidence.** `EvidenceWalk`, `Q6Writeback`, `GpuGates`, `Classifier`, `GpuClaims` and `Workflow` model the
  classification of a llama.cpp compare artifact: two bounded walks over arbitrary JSON, the Q6_K writeback
  check, the chain of fifteen gates, the claims, and the device workflow around them. The class names the
  first closed gate; a claim is made exactly when every gate is open. `EvidencePaths`, `Q6Evidence` and
  `GpuRecords` state what the walks, the writeback check and the gates read in terms of the artifact's own
  members, `GpuBlame` what an oracle mismatch is blamed on, `GpuExits` the exit code of every artifact, and
  `GpuExample` is a family of artifacts of which one matches.
* **Metadata index.** `MetadataIndex` gives the eleven tables a declarative meaning with keys, UNIQUE pairs,
  CHECKs and referential actions (section 11.8 of ISO/IEC 9075-2); `MetadataStore` runs the same statements
  row by row in place and is proved to agree.
* **Image publication.** `ImageStore` is the pull protocol as a state machine: any number of pulls
  interleave, every step may fail, a merge reads its layers piece by piece, recursive removals may stop half
  way, and a crash may fall between any two steps. `ImageSafety` and `ImageLayers` name the exact steps that can
  corrupt or lose a tag or a cached layer, and `ImageRuns` joins them: over whole runs nothing else does.
  `ImageEndings` is what a pull leaves: it ends, cleans up and publishes unless one of the named events happens.
  `ImageReferences` normalises references, `ImageNames` and `ImageListing` are the directory names and the prune
  that reads them, `ImageRecovery` the startup prune and what it leaves, `ImageDiscipline` a way of calling the daemon under which none of the named
  steps occurs, and `ImageFindings` runs from the empty store on which they do. `Ordered` is the order check that
  pins the protocol.
* **File benchmark.** `FileKernel` is a kernel with failing calls and partial transfers; `FileBench`,
  `FileProgram` and `FileMain` are the benchmark's loops, phases and `main`.
* **GPU shim.** `ResponseLines`, `VectorSums` and `GpuShim` model reply framing on a byte stream, the exactness
  of the inputs in binary32 (section 3.3 of IEEE 754-2008), and the resource accounting of vector addition.
* **Terminal trace.** `TerminalTrace` and `TerminalInputs`: what an accepted `exec -it` log shows, byte by byte.
* **Storage metrics.** `StorageSnapshot` and `StorageSequence`: what no errors means, and the law between phases;
  `StorageRecords` says it of the recorded JSON.
* **Scanners and runner.** `TodoScan`, `DockerfileLines` and `LaneRunner`.

`Text`, `Json` and `Options` hold the Python string and JSON operations the verifiers use. A value that makes the
Python code raise is a result of its own (`Raised` or `None`), never a precondition.

Properties that turned out not to hold are kept as results, each with an input and its exact condition. A claim does
not always rest on speedup and prompt evidence (`ClaimsWithoutEvidence`, `ClaimWithoutSpeedupEvidenceExact`); exit
code 0 without flags is weaker than a claim (`NoFlagsExitExact`); the classifier raises on some artifacts
(`Classifier.RaiseExact`); a failed restoring rename deletes the only copy of a tag (`RestoreIsReached`,
`FailedRestoreLosesTag`); two pulls can delete a layer that one of them already counts on (`RaceIsReached`,
`RaceClearsLayer`), and an image merged from it meanwhile passes for complete (`PartialImagePassesForComplete`); a
damaged leftover backup can become the tag (`LeftoverIsReached`, `LeftoverBackupIsShown`); a legal tag can be taken for
a stage and removed (`LegalTagTakenForAStage`); a limit of zero can still return one TODO item (`LimitZeroExact`); a
storage sequence whose edited containers are `null` raises instead of reporting (`StorageSequence.RaiseExact`); a
logical line can be empty (`EmptyExact`). Docstring and code disagree in the pull protocol: `_image_dir_complete`
promises that a crash never turns a partial directory into a valid image, which `ImageRuns.RunExact` and
`SurvivalExact` show to need the absence of the named steps and a clean name. The model follows the code.

## Model

| member | source | states |
|---|---|---|
| `Ordered.InOrder` | scripts/verify-image-pull-crash-safety.py:49-56 | The greedy leftmost search answers true exactly when some strictly increasing positions place every needle. |
| `Ordered.LeftmostExtends` | scripts/verify-image-pull-crash-safety.py:51-55 | If no embedding of the first needles ends before the current position, none of one more needle ends before its leftmost occurrence after it. |
| `Ordered.EmbedsWithout` | scripts/verify-image-pull-crash-safety.py:49-56 | Dropping any one needle keeps a text accepted: the pinned order can only be weakened that way. |
| `EvidenceWalk.Walk.VisitUnsupported` | scripts/verify-llama-gpu-artifact.py:418-437 | On any JSON tree the recursive visit with its early exits leaves the first sixteen entries of what was recorded followed by the full pre-order list of markers. |
| `EvidenceWalk.Walk.FieldUnsupported` | scripts/verify-llama-gpu-artifact.py:422-432 | One field: its own marker first, then everything inside it, cut at sixteen. |
| `EvidenceWalk.UnsupportedEvidence` | scripts/verify-llama-gpu-artifact.py:399-440 | The whole walk returns exactly the first sixteen markers of the tree. |
| `EvidenceWalk.Walk.Add` | scripts/verify-llama-gpu-artifact.py:470-472 | Recording respects the bound. |
| `EvidenceWalk.Walk.VisitOracle` | scripts/verify-llama-gpu-artifact.py:474-495 | The second walk, with its flag field, satisfies the same statement as the first. |
| `EvidenceWalk.OracleEvidence` | scripts/verify-llama-gpu-artifact.py:443-498 | Its whole walk returns exactly the first sixteen fail-closed markers. |
| `EvidenceWalk.EmptyReportMeansUnmarked` | scripts/verify-llama-gpu-artifact.py:399-498 | A report is empty exactly when no object at any depth, reached by any path of child positions, carries a marker. |
| `EvidencePaths.ReportExact` | scripts/verify-llama-gpu-artifact.py:399-498 | The report is the first sixteen of all marked fields, none left out and none twice, a field before what it contains and in the order of the artifact, each under the path spelled from the keys and positions that lead to it, with its text. |
| `Q6Writeback.ReadIntegerList` | scripts/verify-llama-gpu-artifact.py:551-560 | The loop yields all items as integers, or nothing as soon as the list is no list, empty, or one item does not convert. |
| `Q6Writeback.ReadSamples` | scripts/verify-llama-gpu-artifact.py:563-578 | The loop builds the index-to-value map with later samples winning, or nothing when any sample is malformed. |
| `Q6Writeback.CheckRows` | scripts/verify-llama-gpu-artifact.py:646-717 | The row loop appends the findings of every row item in order, for every list. |
| `Q6Writeback.CheckBindings` | scripts/verify-llama-gpu-artifact.py:747-810 | The binding loop appends missing, mismatching and verified entries of every binding in order. |
| `Q6Writeback.CheckWriteback` | scripts/verify-llama-gpu-artifact.py:581-826 | The whole check, its three growing lists and their cut copies, computes the specified verdict, or raises exactly where iterating a listed value raises. |
| `Q6Writeback.PassMeansProven` | scripts/verify-llama-gpu-artifact.py:581-826 | The verdict is pass if and only if the declarative writeback specification of the read evidence holds: flags and index list present, nothing listed, every binding verified with equal valid non-zero hashes, every row's samples equal after dispatch and writeback with an oracle row among them; then the count equals the number of bindings. |
| `Q6Writeback.MismatchMeansContradicted` | scripts/verify-llama-gpu-artifact.py:704-712 | The verdict is mismatch if and only if the diagnostics contradict themselves somewhere, missing evidence or not. |
| `Q6Writeback.CountIsExact` | scripts/verify-llama-gpu-artifact.py:813-826 | The reported count is the number of proven bindings although the reported list is cut at sixteen. |
| `Q6Evidence.SamplesExact` | scripts/verify-llama-gpu-artifact.py:563-578 | Reading a snapshot succeeds exactly for a non-empty list of samples, and gives each index the value of its last sample. |
| `Q6Evidence.VerdictOnRecord` | scripts/verify-llama-gpu-artifact.py:581-826 | On the JSON itself: pass exactly when every flag, row and binding member holds what it must, the last samples of every index in `f32_after_dispatch` and `f32_after_writeback` and the two hashes of every binding being equal; mismatch exactly when two of them differ, a binding is flagged or mismatches are listed; no verdict exactly when a scalar stands for a list of findings. |
| `GpuGates.ExecutorMarkerMeansObserved` | scripts/verify-llama-gpu-artifact.py:284-292 | The executor gate passes exactly when some observed marker is non-empty and is the expected one where one is expected. |
| `GpuGates.IcdMarkerMeansObserved` | scripts/verify-llama-gpu-artifact.py:295-303 | The driver gate demands an observation only when a marker is expected. |
| `GpuGates.NoCheckFails` | scripts/verify-llama-gpu-artifact.py:383-396 | The loop over propagation checks falls through exactly when every check proves its variable, without raising. |
| `GpuGates.ConfigGateExact` | scripts/verify-llama-gpu-artifact.py:356-396 | The configuration gate is passed exactly by records whose summary is no failure, whose checks are all proven and name every required variable, and that have checks at all for a compare artifact. |
| `GpuGates.LastNamed` | scripts/verify-llama-gpu-artifact.py:865-869 | Keying probes by name keeps the last probe of each name. |
| `GpuGates.ProbeGateExact` | scripts/verify-llama-gpu-artifact.py:829-901 | The prompt gate is passed exactly by a complete correctness record whose last addition probe is in order; the separate count of required probes adds nothing. |
| `GpuGates.ConfigRaisesExact` | scripts/verify-llama-gpu-artifact.py:356-396 | The configuration gate raises exactly on a record that is no failure and names every required variable, at a check with an unhashable status all of whose predecessors are proven. |
| `GpuRecords.MembersOnRecord` | scripts/verify-llama-gpu-artifact.py:279-281 | Diagnostics, Q6_K diagnostics, comparison and correctness summary read the same members wherever they are absent or empty; the freshness and configuration records come from the top of the artifact, or else from its diagnostics. |
| `GpuRecords.MarkersOnRecord` | scripts/verify-llama-gpu-artifact.py:284-303 | The two marker gates read these members: some listed marker is real and the expected one where one is expected. |
| `GpuRecords.FeaturesOnRecord` | scripts/verify-llama-gpu-artifact.py:1224-1243 | Feature evidence counts as missing exactly for a pipeline blocker behind the feature-chain driver whose first failed dispatch that is an object does not list all five members. |
| `GpuRecords.ClaimsOnRecord` | scripts/verify-llama-gpu-artifact.py:324-343 | Which members of a matching artifact decide its two claims: the correctness summary, the CPU baseline and the speedup. |
| `GpuRecords.EntryOnRecord` | scripts/verify-llama-gpu-artifact.py:1286-1335 | The memory gate is closed exactly by the two recorded memory errors, the readiness gate exactly by a readiness that is the boolean false, nested or in a readiness artifact. |
| `GpuRecords.GatesOnRecord` | scripts/verify-llama-gpu-artifact.py:346-1095 | The configuration, prompt, shape and writeback gates are open exactly when the named members of the artifact hold what they must: each check and probe, the workgroup size, every row and binding. |
| `GpuRecords.ServiceOnRecord` | scripts/verify-llama-gpu-artifact.py:904-950 | The service gate is closed exactly for a run, served if it is a compare artifact, whose health and models passed and whose completion timed out, by summary or by part. |
| `GpuRecords.SetupOnRecord` | scripts/verify-llama-gpu-artifact.py:953-982 | A setup blocker is seen exactly under its recorded class, in a compare artifact before anything was served or counted. |
| `GpuRecords.SpeedupOnRecord` | scripts/verify-llama-gpu-artifact.py:505-533 | The speedup gate demands of a compare artifact without an oracle verdict all eight speedup members in their types. |
| `Classifier.ClassNamesFirstClosedGate` | scripts/verify-llama-gpu-artifact.py:1286-1600 | For every artifact the reported class names the first gate whose declarative demand is not met: that gate is closed and every earlier one is open; the script raises exactly when a malformed value is met at a gate before any gate is closed. |
| `Classifier.RaiseExact` | scripts/verify-llama-gpu-artifact.py:1286-1600 | The script raises if and only if some gate meets one of the listed JSON shapes and every gate before it is open. |
| `Classifier.MatchExact` | scripts/verify-llama-gpu-artifact.py:1286-1600 | An oracle match is reported if and only if the artifact is well shaped and all fifteen gates are open. |
| `Classifier.EvidenceGates` | scripts/verify-llama-gpu-artifact.py:1390-1441 | The configuration gate and both walks agree with their statements about the artifact. |
| `Classifier.PromptGates` | scripts/verify-llama-gpu-artifact.py:1444-1483 | The prompt and speedup gates demand their evidence unless counted Q6_K events already gave an oracle verdict. |
| `Classifier.Q6Gates` | scripts/verify-llama-gpu-artifact.py:1485-1510 | The shape gate is open exactly when the computed guard does not block, the writeback gate exactly when the computed verdict is pass; a proven writeback belongs to an object. |
| `Classifier.MatchIsShaped` | scripts/verify-llama-gpu-artifact.py:1286-1600 | A match is reported only for an artifact without any of the shapes that raise. |
| `GpuClaims.CorrectnessClaimExact` | scripts/verify-llama-gpu-artifact.py:1557 | A correctness claim is allowed exactly when every gate is open and the correctness summary passed. |
| `GpuClaims.BenchmarkClaimExact` | scripts/verify-llama-gpu-artifact.py:1557-1563 | A benchmark claim is exactly a correctness claim with an available CPU baseline and a recorded speedup. |
| `GpuClaims.ClaimIsBacked` | scripts/verify-llama-gpu-artifact.py:1286-1600 | Behind any correctness claim: a proven writeback with every binding counted and at least one, a clear workgroup, a matching oracle, no marker of either kind at any depth, and for a compare artifact proven configuration. |
| `GpuClaims.OnlyMatchesClaim` | scripts/verify-llama-gpu-artifact.py:1246-1283 | No class but the oracle match claims anything. |
| `GpuClaims.ClaimWithoutSpeedupEvidenceExact` | scripts/verify-llama-gpu-artifact.py:1444-1483 | Dropping the bridge phase from any matching artifact leaves its match and its claims intact exactly when it is no compare artifact or its Q6_K events are counted. |
| `GpuExample.ClaimsWithoutEvidence` | scripts/verify-llama-gpu-artifact.py:1286-1600 | One compare artifact with counted events, no bridge phase and no prompt probe matches and is allowed its correctness claim, for any manifest with named variables and tokens foreign to the words pass and match. |
| `GpuExample.ChangedSampleIsRefuted` | scripts/verify-llama-gpu-artifact.py:704-712 | The same artifact with any other value after writeback than after dispatch does not match, allows no claim and exits with 40 under all flags, although its oracle reported a match. |
| `GpuClaims.UncountedClaimIsFullyBacked` | scripts/verify-llama-gpu-artifact.py:1444-1483 | A claim from a compare artifact whose events are not counted does rest on complete speedup fields and a real prompt probe. |
| `GpuClaims.RequireMatchExact` | scripts/verify-llama-gpu-artifact.py:1623-1652 | Exit 0 under --require-q6-match without --allow-memory-blocker means a readable, well-shaped artifact that opens every gate, and conversely. |
| `GpuClaims.RequireClearExact` | scripts/verify-llama-gpu-artifact.py:1626-1662 | Exit 0 under --require-q6-workgroup-clear means every gate up to the writeback is open and the oracle gave a verdict, and conversely. |
| `GpuClaims.NoFlagsExitExact` | scripts/verify-llama-gpu-artifact.py:1626-1667 | Exit 0 without flags: every gate up to the writeback is open with an oracle verdict of either kind, or the first closed gate is the service gate with a completion timeout, or it is the setup gate with a named blocker and the evidence that blocker asks for; and conversely. |
| `GpuClaims.SetupExact` | scripts/verify-llama-gpu-artifact.py:953-982 | A setup blocker is reported exactly for an unserved compare artifact without counted events that names it, with memory, readiness, service and both runtime markers in order and no feature evidence missing. |
| `GpuClaims.ExitNamesClass` | scripts/verify-llama-gpu-artifact.py:1627-1650 | The exit codes 20, 21 and those from 34 on each belong to one class. |
| `GpuExits.GateExact` | scripts/verify-llama-gpu-artifact.py:1286-1600 | The reported class belongs to a gate exactly when that gate is closed, every earlier one is open and nothing up to it raises. |
| `GpuExits.ExitExact` | scripts/verify-llama-gpu-artifact.py:1623-1667 | The exit code of every artifact with a closed gate follows from the first one and the flags alone: which of 20, 21, 30 to 43 or 0 it is for each gate. |
| `GpuExits.ExitOtherwise` | scripts/verify-llama-gpu-artifact.py:1623-1667 | Every other artifact exits with 0 when it opens all gates, and with 1 when it is unreadable or raises. |
| `GpuBlame.NarrowDeltaSuffices` | scripts/verify-llama-gpu-artifact.py:1097-1130 | Behind a clear workgroup shape only the 32-lane delta decides whether the CPU-side arithmetic is cleared. |
| `GpuBlame.BlameExact` | scripts/verify-llama-gpu-artifact.py:1515-1555 | Each of the six mismatch classes is reported exactly when every gate up to the writeback is open, the oracle saw a mismatch, and the recorded texts of the two probes, the extent of the layout probe and the 32-lane delta point to it. |
| `GpuBlame.BlameNeedsWriteback` | scripts/verify-llama-gpu-artifact.py:1515-1555 | Every mismatch class has a proven writeback and a clear shape behind it. |
| `GpuClaims.RemainingMarkers` | scripts/verify-llama-gpu-artifact.py:399-498 | Removing a top-level field never creates a marker. |
| `Workflow.Manifest.Run` | scripts/android-llama-gpu-q6k-run.py:118-273 | Status pass if and only if no dry run, local checks skipped or passed, readiness green and true, compare succeeded and the verifier accepted; the exact step list for every status; no dry run reaches the compare step; exit 0 exactly for pass, blocked-memory and dry-run. |
| `Workflow.PassIsBacked` | scripts/android-llama-gpu-q6k-run.py:248-267 | A passed workflow stands for an artifact with every gate up to the writeback open and a writeback proven binding by binding. |
| `MetadataIndex.InsertProject` | scripts/verify-metadata-index.py:39-49 | An insert of a new project is accepted exactly when the resulting database is valid, and then stores exactly that row under its identifier; refused it changes nothing. |
| `MetadataIndex.InsertFile` | scripts/verify-metadata-index.py:51-58 | The same for Compose files: primary key, foreign key, CHECKs and the UNIQUE pair. |
| `MetadataIndex.InsertService` | scripts/verify-metadata-index.py:60-67 | The same for Compose services with two foreign keys. |
| `MetadataIndex.InsertImage` | scripts/verify-metadata-index.py:69-77 | The same for images with their unique digest. |
| `MetadataIndex.InsertLayer` | scripts/verify-metadata-index.py:79-87 | The same for image layers with the unique ordinal per image. |
| `MetadataIndex.InsertContainer` | scripts/verify-metadata-index.py:89-100 | The same for containers with three nullable references. |
| `MetadataIndex.InsertVolume` | scripts/verify-metadata-index.py:102-109 | The same for volumes with their unique path. |
| `MetadataIndex.InsertJob` | scripts/verify-metadata-index.py:111-119 | The same for jobs. |
| `MetadataIndex.InsertOverlay` | scripts/verify-metadata-index.py:121-142 | The same for overlay paths: three foreign keys, six CHECKs and the UNIQUE pair. |
| `MetadataIndex.InsertMeta` | scripts/verify-metadata-index.py:22-29 | The same for the single metadata row. |
| `MetadataIndex.InsertSnapshot` | scripts/verify-metadata-index.py:31-37 | The same for source snapshots. |
| `MetadataIndex.RenameKeepsIdentity` | scripts/verify-metadata-index.py:337-341 | A rename keeps every identifier, every root and every other table, and the database valid. |
| `MetadataIndex.RenameExact` | scripts/verify-metadata-index.py:337-341 | After a rename a project has the new name exactly when it had the old or already the new one, projects named neither keep theirs, and every other column and table is as before; it is refused exactly when the new name is empty and some project has the old one, that is when a renamed row would fail its CHECK, and then changes nothing. |
| `MetadataIndex.CascadeTwice` | scripts/verify-metadata-index.py:39-142 | What the second of two deletes cascades to, together with the first, is the cascade of both at once. |
| `MetadataIndex.DeleteTwice` | scripts/verify-metadata-index.py:39-142 | Deleting twice is deleting the union once. |
| `MetadataIndex.DeletesCommute` | scripts/verify-metadata-index.py:39-142 | Deletes of any rows of any tables give the same database in either order, cascades and nulling included. |
| `MetadataIndex.EraseKeepsValid` | scripts/verify-metadata-index.py:39-142 | Removing rows closed under NOT NULL references and nulling the rest keeps every key, UNIQUE pair and CHECK. |
| `MetadataIndex.DeleteKeepsValid` | scripts/verify-metadata-index.py:39-142 | Every delete keeps the database valid. |
| `MetadataIndex.DeleteProjectExactly` | scripts/verify-metadata-index.py:39-119 | Deleting a project removes exactly it, its Compose files and the services reached through either reference; containers, volumes and jobs survive with only the dangling references nulled. |
| `MetadataIndex.DeleteImageExactly` | scripts/verify-metadata-index.py:69-142 | Deleting an image removes exactly it and its layers; overlay rows survive and still meet their CHECK. |
| `MetadataIndex.StepKeepsValid` | scripts/verify-metadata-index.py:17-154 | Every statement, accepted or refused, keeps the database valid. |
| `MetadataIndex.ReachableIsValid` | scripts/verify-metadata-index.py:17-154 | Every run of statements from the empty database ends valid. |
| `MetadataStore.Index.InsertOverlay` | scripts/verify-metadata-index.py:121-142 | In a valid index the insert in place is accepted exactly when the row is new and the index stays valid with it; the table then holds the given row under its identifier and every other row as before; the ten other inserts have the same contract. |
| `MetadataStore.Index.RenameProjects` | scripts/verify-metadata-index.py:337-339 | The update in place gives exactly the projects named so the new name and changes no other column, or is refused and changes nothing. |
| `MetadataStore.Index.DeleteProject` | scripts/verify-metadata-index.py:39-119 | Cascading row by row through files and services ends in exactly the declarative result. |
| `MetadataStore.Index.DeleteFile` | scripts/verify-metadata-index.py:51-67 | The same for a Compose file and its services. |
| `MetadataStore.Index.DeleteImage` | scripts/verify-metadata-index.py:69-142 | The same for an image, its layers and every nullable reference to them. |
| `MetadataStore.Index.DeleteContainer` | scripts/verify-metadata-index.py:89-142 | The same for a container and its overlay rows. |
| `ImageNames.TagIsKept` | docker-proot-setup/bin/pdockerd:6659-6677 | The prune keeps a published directory exactly when its name carries neither marker. |
| `ImageNames.StageIsStage` | docker-proot-setup/bin/pdockerd:6661-6664 | Every stage name of every tag is recognised as a stage. |
| `ImageNames.BackupNamesItsTag` | docker-proot-setup/bin/pdockerd:6665-6667 | A backup is restored under its own tag exactly when the tag name carries no marker. |
| `ImageNames.LegalTagTakenForAStage` | docker-proot-setup/bin/pdockerd:4255-4281 | Every short reference whose tag holds the stage marker is published, after normalisation, in a directory that the prune deletes as a stage. |
| `ImageNames.LegalTagExample` | docker-proot-setup/bin/pdockerd:4255-4281 | One of them: `app:1.pull-2` is published as `docker.io_library_app_1.pull-2`. |
| `ImageNames.CleanReference` | docker-proot-setup/bin/pdockerd:4280-4281 | Whether a directory name carries a marker can be read off the reference. |
| `ImageReferences.NormalizeTagged` | docker-proot-setup/bin/pdockerd:4255-4268 | A tagged reference keeps its tag; its repository is completed by docker.io, and by library when it is a plain name, exactly when its first component names no registry. |
| `ImageReferences.Parts` | docker-proot-setup/bin/pdockerd:4255-4268 | Every reference that is no digest normalises to its qualified repository and its tag, which is `latest` when none is written. |
| `ImageReferences.NormalizeTwice` | docker-proot-setup/bin/pdockerd:4255-4268 | Normalising twice is normalising once. |
| `ImageListing.SpellInjective` | docker-proot-setup/bin/pdockerd:4399-4400 | Different live directories, stages and backups of clean tags have different names on disk. |
| `ImageListing.PruneNameAgrees` | docker-proot-setup/bin/pdockerd:6659-6677 | Pruning one directory by its name is the prune step on the live directory, stage or backup it belongs to. |
| `ImageListing.PrunedNamesAgree` | docker-proot-setup/bin/pdockerd:6658-6677 | The same for a whole pass over any listing of clean tags in any order, with any set of failing removals and renamings. |
| `ImageListing.UncleanTagIsPruned` | docker-proot-setup/bin/pdockerd:6659-6677 | The published directory of a tag with a marker in its name is gone after every pass that lists it, unless its removal fails. |
| `ImageStore.NextKeepsInv` | docker-proot-setup/bin/pdockerd:4393-4486 | At every moment of every interleaving each pull's stage holds exactly what its phase has written, down to the list of layers merged so far, undisturbed by the others. |
| `ImageStore.AdvanceKeepsInv` | docker-proot-setup/bin/pdockerd:4399-4486 | One step of one pull keeps that bookkeeping; what the clean-up steps leave is in `ImageEndings`. |
| `ImageStore.OthersUndisturbed` | docker-proot-setup/bin/pdockerd:4400-4402 | The unique suffixes keep a pull's stage and backup out of every other pull's way. |
| `ImageEndings.TidyExact` | docker-proot-setup/bin/pdockerd:4393-4486 | One event of any kind leaves a stage or a backup of a pull behind exactly when it is a crash while there is one, its removal giving up, or a failing restore while the stage is there. |
| `ImageEndings.PullCleansUp` | docker-proot-setup/bin/pdockerd:4480-4486 | Over whole runs, whatever fails and whatever other pulls do: when a pull is over its stage and backup are gone unless one of those events happened, and in a run without a prune one of them is left exactly then. |
| `ImageEndings.TidyLayersExact` | docker-proot-setup/bin/pdockerd:2140-2180 | One event leaves an unpacking directory of a pull behind exactly when it is a crash or its own removal giving up. |
| `ImageEndings.PullCleansLayers` | docker-proot-setup/bin/pdockerd:2140-2180 | Over whole runs a pull that is over has no unpacking directory unless one of those events happened. |
| `ImageEndings.OnTrackExact` | docker-proot-setup/bin/pdockerd:4393-4486 | One event takes a running pull off its way, or its output from under its tag, exactly when it makes the pull raise or another pull moves the output aside. |
| `ImageEndings.PullPublishes` | docker-proot-setup/bin/pdockerd:4393-4489 | Over whole runs a pull that is over without having failed, and that was not replaced, has left its whole output, under its reference and with all its layers, live under its tag. |
| `ImageEndings.PullEnds` | docker-proot-setup/bin/pdockerd:4393-4486 | A pull of n layers is over after at most 22 + 12 n actions of its own, whatever fails and whatever other pulls do in between. |
| `ImageEndings.NextKeepsNames` | docker-proot-setup/bin/pdockerd:4399-4400 | At every moment every stage and backup carries the tag of the pull it belongs to. |
| `ImageSafety.StageIsGenuine` | docker-proot-setup/bin/pdockerd:2324-2343 | What a pull is about to publish is its whole output for that tag exactly when every layer was whole whenever the merge read it. |
| `ImageSafety.NextExact` | docker-proot-setup/bin/pdockerd:4393-4486 | One event of any kind keeps a sound tag sound, and a present tag present, exactly when it is not one of the named steps, publishing a stage merged from incomplete layers among them. |
| `ImageSafety.PublishSafe` | docker-proot-setup/bin/pdockerd:4478-4479 | Renaming the stage to the tag is safe exactly when the stage is whole. |
| `ImageSafety.MoveOldSafe` | docker-proot-setup/bin/pdockerd:4475-4477 | Moving the old tag aside is safe exactly when no damaged backup of the tag lies around. |
| `ImageSafety.DropBackupSafe` | docker-proot-setup/bin/pdockerd:4485-4486 | The final removal loses the tag exactly when no live directory and no other backup exist. |
| `ImageLayers.NextLayersExact` | docker-proot-setup/bin/pdockerd:2129-2182 | One event keeps every used layer complete, and every layer that looks complete filled, exactly when it does not clear a complete layer that is used or leave one looking complete. |
| `ImageLayers.LayerStepExact` | docker-proot-setup/bin/pdockerd:2136-2176 | Of the steps on a layer only the clearing of a directory another pull has just published breaks the cache. |
| `ImageLayers.NextKeepsTmp` | docker-proot-setup/bin/pdockerd:2140-2175 | An unpacking directory holds tree and metadata before it is published, whatever other pulls do. |
| `ImageRuns.MergesFilledLayer` | docker-proot-setup/bin/pdockerd:2336-2342 | Over a sound cache a merge, which only tests for a tree directory, reads complete layers. |
| `ImageRuns.NextWholeExact` | docker-proot-setup/bin/pdockerd:2185-2277 | Over a sound cache a stage becomes partial in one way only: an entry that can be neither linked nor copied is passed over. |
| `ImageRuns.RunMergesWhole` | docker-proot-setup/bin/pdockerd:2324-2343 | A run that breaks no layer and passes over no entry ends with every used layer complete and every stage whole. |
| `ImageRuns.RunExact` | docker-proot-setup/bin/pdockerd:4393-4486 | Over every run of pulls, failures, partial reads, torn removals, crashes and prune steps, a tag and the layers under every image stay safe at every moment exactly when none of the named steps occurs: clearing a complete layer that is used or leaving one looking complete, passing over an entry, exposing a damaged backup, tearing or deleting the last copy. |
| `ImageRecovery.Disk.Prune` | docker-proot-setup/bin/pdockerd:6658-6687 | The two loops of the startup prune, reading plain directory names, over any listing order and with any failing removals, compute the specified directories. |
| `ImageRecovery.ResidueExact` | docker-proot-setup/bin/pdockerd:6658-6687 | After a pass over everything a stage, a backup, an unpacking or a partial layer directory is left exactly when its removal or renaming failed. |
| `ImageRecovery.RestartShowsTag` | docker-proot-setup/bin/pdockerd:4313-4342 | A clean, sound and present tag is live, whole and complete under its reference with all its layers after every restart, unless renaming its backups back fails. |
| `ImageRecovery.SurvivalExact` | docker-proot-setup/bin/pdockerd:6665-6677 | On the directory names: in a store whose other tags are clean, a tag survives every restart in every listing order exactly when its name carries no marker and it is sound and present. |
| `ImageRecovery.UnsoundShowsDamage` | docker-proot-setup/bin/pdockerd:6665-6677 | Of an unsound tag some listing order shows a damaged directory. |
| `ImageDiscipline.GuardedRunIsSafe` | docker-proot-setup/bin/pdockerd:4393-4486 | While tags carry no marker, concurrent pulls share neither tag nor layer, none starts while a backup is left over, restores succeed, backups can be removed and entries can be copied, every run keeps the store healthy and loses no tag; removals of stages, layers and pruned directories may fail. |
| `ImageDiscipline.CrashAnywhere` | scripts/verify-image-pull-crash-safety.py:73-123 | Stop such a run anywhere and restart: every tag that was there is live, every live tag is whole and complete, only what could not be removed is left, and the directories on disk, pruned by name, are those of the pruned store. |
| `ImageDiscipline.GuardedKeepsOrder` | docker-proot-setup/bin/pdockerd:4393-4486 | The discipline is kept by every event it allows. |
| `ImageDiscipline.EmptyIsHealthy` | docker-proot-setup/bin/pdockerd:4393-4405 | The empty store meets the hypotheses of these results. |
| `ImageFindings.FailedRestoreLosesTag` | docker-proot-setup/bin/pdockerd:4480-4486 | When the restoring rename fails, the clean-up deletes the only copy and no restart brings it back. |
| `ImageFindings.RestoreIsReached` | docker-proot-setup/bin/pdockerd:4475-4486 | From the empty store, for any tag, two pulls of which the second fails to publish come to that restore. |
| `ImageFindings.RaceClearsLayer` | docker-proot-setup/bin/pdockerd:2136-2139 | Two pulls that both found a layer missing: the second deletes what the first published and counts on. |
| `ImageFindings.RaceIsReached` | docker-proot-setup/bin/pdockerd:4438-4454 | From the empty store two pulls of different tags that share a layer both come to that point. |
| `ImageFindings.PartialImagePassesForComplete` | docker-proot-setup/bin/pdockerd:2136-2139 | From the empty store, with two pulls, nothing failing and no crash, an image ends complete by `_image_dir_complete` with all its layers in the cache although its rootfs was merged from a half-removed layer. |
| `ImageFindings.LeftoverBackupIsShown` | docker-proot-setup/bin/pdockerd:6665-6677 | After a crash some listing order makes a damaged leftover backup the tag. |
| `ImageFindings.LeftoverIsReached` | docker-proot-setup/bin/pdockerd:4475-4486 | From the empty store three pulls, of which the second cannot remove its backup, come to where that starts. |
| `FileKernel.Kernel.Write` | tools/pdocker_fileio_microbench.c:36-37 | A write moves at least one byte of a non-empty buffer or fails; where the bytes go. |
| `FileKernel.Kernel.Read` | tools/pdocker_fileio_microbench.c:46-48 | A read delivers nothing exactly at the end of the file, otherwise at least one byte, or fails. |
| `FileBench.WriteAll` | tools/pdocker_fileio_microbench.c:33-41 | However the kernel splits the transfer, exactly the buffer arrives at the descriptor's position, and the loop ends. |
| `FileBench.WriteTwice` | tools/pdocker_fileio_microbench.c:33-41 | Two adjacent writes are one write of both, at any offset. |
| `FileBench.ReadAll` | tools/pdocker_fileio_microbench.c:43-52 | The buffer is filled from the file unless it ends first; what is beyond stays. |
| `FileBench.Seed` | tools/pdocker_fileio_microbench.c:103-107 | A seed file holds exactly the first bytes of the buffer and its descriptor is closed. |
| `FileBench.OpenCloseLoop` | tools/pdocker_fileio_microbench.c:109-116 | As many opens and closes as the printed line says; every descriptor closed once. |
| `FileBench.OpenLoop` | tools/pdocker_fileio_microbench.c:121-127 | The array holds the new descriptors in the order they were opened. |
| `FileBench.CloseLoop` | tools/pdocker_fileio_microbench.c:128-141 | Every descriptor in the array is closed exactly once, in order, and nothing else. |
| `FileBench.SeekLoop` | tools/pdocker_fileio_microbench.c:161-168 | As many seeks as printed; the position is what it was. |
| `FileProgram.PaddedValue` | tools/pdocker_fileio_microbench.c:62-68 | Padding to five digits keeps the value for every index, however long. |
| `FileProgram.SmallNamesDiffer` | tools/pdocker_fileio_microbench.c:62-68 | Different indices give different names. |
| `FileProgram.FixedNamesDiffer` | tools/pdocker_fileio_microbench.c:103-227 | The eight fixed names are pairwise distinct. |
| `FileProgram.FixedNamesAreNotSmall` | tools/pdocker_fileio_microbench.c:103-283 | No fixed name is an indexed one. |
| `FileProgram.SequentialWrite` | tools/pdocker_fileio_microbench.c:171-182 | The sequential file ends at blocks times block size bytes of the repeated block, and the figures printed are what was written. |
| `FileProgram.SequentialRead` | tools/pdocker_fileio_microbench.c:184-190 | The read phase never meets the end of the file early, reads exactly the printed bytes, and leaves the buffer as it was. |
| `FileProgram.RepeatSlice` | tools/pdocker_fileio_microbench.c:175-187 | Every aligned block of the sequential file is the written block. |
| `FileMain.RenameLoop` | tools/pdocker_fileio_microbench.c:203-215 | After any number of pairs the first name holds what it held and the second is free. |
| `FileMain.MkdirLoop` | tools/pdocker_fileio_microbench.c:217-224 | The directory is unchanged, the name was free, and the calls are as many as printed. |
| `FileMain.SymlinkLoop` | tools/pdocker_fileio_microbench.c:231-237 | The directory is unchanged after every link and unlink. |
| `FileMain.ReadlinkPhase` | tools/pdocker_fileio_microbench.c:239-248 | One link is made, read as often as printed, and removed. |
| `FileMain.SmallCreateLoop` | tools/pdocker_fileio_microbench.c:250-259 | Exactly the indexed files are added, each with the same 32 bytes. |
| `FileMain.SmallReadLoop` | tools/pdocker_fileio_microbench.c:269-278 | Whole files are read to exactly the printed number of bytes. |
| `FileMain.NothingLeft` | tools/pdocker_fileio_microbench.c:280-291 | Unlinking what the phases left gives back the directory without the benchmark's own names. |
| `FileMain.ReportIsTally` | tools/pdocker_fileio_microbench.c:109-291 | The operations and bytes printed for the phases add up to the calls of a whole run, apart from eight seeding opens, one link with its unlink, and the first seed's bytes. |
| `FileMain.Benchmark` | tools/pdocker_fileio_microbench.c:79-296 | On exit 0, for every file count: every descriptor opened was closed exactly once, the printed lines are the specified ones, every kind of call was made exactly as often as specified, and, when no own name is a link, the printed operations and bytes are the calls made and bytes moved, every other entry is unchanged and no own name is left; bad arguments give 2. |
| `ResponseLines.Socket.ReadResponseLine` | docker-proot-setup/src/gpu/pdocker_gpu_shim.c:146-159 | On any stream the bytes returned are the bytes consumed; success means exactly the line up to newline, limit or end. |
| `ResponseLines.TakenLine` | docker-proot-setup/src/gpu/pdocker_gpu_shim.c:149-156 | Only the last byte of a line can be a newline, and a short line without one ends the stream. |
| `ResponseLines.LinesConserve` | docker-proot-setup/src/gpu/pdocker_gpu_shim.c:146-159 | The lines of repeated reading join to the stream. |
| `ResponseLines.FramingExact` | docker-proot-setup/src/gpu/pdocker_gpu_shim.c:146-159 | The k-th reading delivers the k-th reply for every k exactly when every reply is framed. |
| `VectorSums.InputsAreExact` | docker-proot-setup/src/gpu/pdocker_gpu_shim.c:68-73 | For every index up to 4194304 inputs, products and sums are held exactly by binary32. |
| `VectorSums.FillInputs` | docker-proot-setup/src/gpu/pdocker_gpu_shim.c:68-73 | The loop puts the rounded inputs where they belong, in one mapping or two. |
| `VectorSums.MaxError` | docker-proot-setup/src/gpu/pdocker_gpu_shim.c:202-206 | While the executor may write between any two reads, the running maximum is the largest error among the values read, or zero. |
| `VectorSums.UntouchedMeansAccurate` | docker-proot-setup/src/gpu/pdocker_gpu_shim.c:202-213 | When every input read was as given, the measured verdict is exactly that each output read is within 0.0001 of 1 + i/8. |
| `GpuShim.Machine.CreateSharedFd` | docker-proot-setup/src/gpu/pdocker_gpu_shim.c:75-99 | Either a new open descriptor or nothing, on every path; nothing is closed that is not open. |
| `GpuShim.AllocateAll` | docker-proot-setup/src/gpu/pdocker_gpu_shim.c:167-181 | Wherever allocation stops, the arrays name exactly what is held. |
| `GpuShim.Cleanup` | docker-proot-setup/src/gpu/pdocker_gpu_shim.c:215-219 | The common exit releases each held mapping and descriptor once and nothing else. |
| `GpuShim.VectorAddThree` | docker-proot-setup/src/gpu/pdocker_gpu_shim.c:161-221 | On every path descriptors and mappings are back to what they were with no stray release; the printed line is its command's reply; with inputs untouched 0 means an accurate result. |
| `GpuShim.VectorAddOne` | docker-proot-setup/src/gpu/pdocker_gpu_shim.c:223-270 | The same for the single mapping. |
| `GpuShim.AwaitVerdict` | docker-proot-setup/src/gpu/pdocker_gpu_shim.c:200-213 | Reply and verdict after a command, whatever the executor writes before, during and after. |
| `GpuShim.BenchRegistered` | docker-proot-setup/src/gpu/pdocker_gpu_shim.c:553-626 | For every run length, when replies are framed the k-th printed line is the reply to the k-th addition and never the registration reply; the mapping is registered once with its length and then only added over; every round but a failing last one is accurate; resources are released on every path. |
| `GpuShim.AddRounds` | docker-proot-setup/src/gpu/pdocker_gpu_shim.c:599-622 | The loop stops at the first failure and keeps replies and commands in step. |
| `TerminalTrace.SortedMeansOrdered` | scripts/verify-terminal-exec-it-artifact.py:202-203 | Comparing with the sorted list asks exactly whether time ever runs backwards. |
| `TerminalTrace.TimesExact` | scripts/verify-terminal-exec-it-artifact.py:202-211 | The timestamp checks pass exactly when all times are there, ordered and inside the window. |
| `TerminalTrace.HandshakeExact` | scripts/verify-terminal-exec-it-artifact.py:218-241 | The index checks pass exactly when a session is created with 2xx, upgraded with 101 and streaming under one identifier before every input. |
| `TerminalTrace.ResizeExact` | scripts/verify-terminal-exec-it-artifact.py:243-251 | The `any` over resizes is true exactly when one is visible and no unreadable status comes before it. |
| `TerminalInputs.TokenIsByte` | scripts/verify-terminal-exec-it-artifact.py:126-132 | For a valid entry, looking for a hex token is looking for its byte. |
| `TerminalInputs.JoinedNeedle` | scripts/verify-terminal-exec-it-artifact.py:257-270 | Searching the newline-joined texts is searching each text. |
| `TerminalInputs.InterruptExact` | scripts/verify-terminal-exec-it-artifact.py:319-336 | The checks around Ctrl-C pass exactly when between sleep and recovery some entry is the single byte 3 and none holds the letter c. |
| `TerminalInputs.AcceptedIsSafe` | scripts/verify-terminal-exec-it-artifact.py:201-336 | Every accepted log is safe over its whole length: order of time, handshake before every input, truthful byte counts, a real interrupt. |
| `TerminalInputs.InputsExact` | scripts/verify-terminal-exec-it-artifact.py:253-336 | The checks on inputs reduce to statements about positions and bytes: typed markers, the command entered once, the recalled line after the script, top left by a single q with the shell back after it, and the interrupt; the checks on joined columns add nothing. |
| `TerminalInputs.AcceptsExact` | scripts/verify-terminal-exec-it-artifact.py:201-336 | A log is accepted if and only if it is safe and shows the scripted session. |
| `StorageSnapshot.Validate` | scripts/verify-storage-metrics.py:329-337 | The three checks with their early end collect exactly the specified errors. |
| `StorageSnapshot.CheckSummary` | scripts/verify-storage-metrics.py:155-201 | The summary check collects its errors in order and stops where a value is malformed. |
| `StorageSnapshot.CheckImages` | scripts/verify-storage-metrics.py:204-218 | The loop over images collects the errors of every row up to the first that is no object. |
| `StorageSnapshot.CheckContainers` | scripts/verify-storage-metrics.py:221-233 | The same for containers. |
| `StorageSnapshot.SummaryExact` | scripts/verify-storage-metrics.py:155-201 | No summary error exactly when the numbers are counted, the notes are there, unique bytes are their components, and nothing overlapping is added. |
| `StorageSnapshot.ErrorsExact` | scripts/verify-storage-metrics.py:155-233 | No errors exactly for a sound snapshot. |
| `StorageRecords.SnapshotOnRecord` | scripts/verify-storage-metrics.py:155-233 | No errors exactly when every member of the recorded snapshot holds what it must: the nine numbers, the notes, every image and every container. |
| `StorageSequence.CollectPhases` | scripts/verify-storage-metrics.py:366-390 | The loop over raw phases builds errors, phases and order as specified. |
| `StorageSequence.CollectExact` | scripts/verify-storage-metrics.py:366-390 | Collecting finds no problem exactly when every phase is named, no name repeats and every snapshot is sound; then nothing is lost. |
| `StorageSequence.ValidateSequence` | scripts/verify-storage-metrics.py:353-435 | The whole validation computes the specified problems, or raises. |
| `StorageSequence.SequenceExact` | scripts/verify-storage-metrics.py:353-435 | No problem exactly for a sound sequence: header, clean phases, the five required ones in order with their trends. |
| `StorageRecords.SequenceOnRecord` | scripts/verify-storage-metrics.py:353-435 | No problem exactly when the recorded sequence holds its header, phases of different names with sound snapshots, and the five required ones in order with their trends and a written container. |
| `StorageSequence.RaiseExact` | scripts/verify-storage-metrics.py:353-435 | The validation raises if and only if the header can be read, every required name is carried by a phase, the first phase of each has a summary, and the containers after the edit are neither a list nor anything else that can be iterated. |
| `StorageSequence.NullContainersRaise` | scripts/verify-storage-metrics.py:431-432 | A concrete sequence whose containers are null raises. |
| `StorageSequence.RaiseHidesAnError` | scripts/verify-storage-metrics.py:431-433 | Whenever the validation raises, problems it has already found are lost. |
| `StorageSequence.EditConserves` | scripts/verify-storage-metrics.py:408-433 | In every accepted sequence shared, volume and cache bytes together fall from rebuild to edit by no more than the container upper bytes grow, and those do grow. |
| `TodoScan.ActiveTodoItems` | scripts/verify-docs-maintenance.py:265-292 | With any limit the loop returns the specified part of the full item list. |
| `TodoScan.ActiveItems` | scripts/update-showcase.py:69-99 | For every text and limit the other scanner shows the first items of the same full list, cleaned. |
| `TodoScan.ScannersAgree` | scripts/update-showcase.py:69-99 | Both scanners agree for every limit above zero, and the showcase for every limit with the unlimited checker. |
| `TodoScan.LimitZeroExact` | scripts/verify-docs-maintenance.py:270-292 | A limit of zero returns nothing exactly when no active item is followed by another item or a blank line; otherwise it returns one item. |
| `TodoScan.LimitZeroExample` | scripts/verify-docs-maintenance.py:265-292 | A text of two lines from which a limit of zero returns an item. |
| `TodoScan.ReadsItem` | scripts/verify-docs-maintenance.py:22-23 | A bullet with small letters in its brackets and a blank after them is read as an item with its stripped text. |
| `TodoScan.PrintParse` | scripts/verify-docs-maintenance.py:265-292 | Items written out, with indented lines, prose and blank lines below them, read back as exactly the active ones in order, each with its text and its indented lines. |
| `TodoScan.CleanIsShort` | scripts/update-showcase.py:61-66 | A shown text has at most 193 characters and no whitespace but single blanks. |
| `TodoScan.CleanKeepsWords` | scripts/update-showcase.py:61-66 | Cleaning keeps the words; a text that is too long is cut at a blank, or at 190 characters when there is none. |
| `DockerfileLines.ScanLines` | scripts/verify-dockerfile-standard.py:37-55 | The scan computes the specified logical lines. |
| `DockerfileLines.LinesAreGroups` | scripts/verify-dockerfile-standard.py:37-55 | The logical lines are groups of physical lines that together are exactly the lines not skipped, in order; each starts and reads as its group says. |
| `DockerfileLines.StartsIncrease` | scripts/verify-dockerfile-standard.py:45-54 | Logical lines start on strictly increasing physical lines. |
| `DockerfileLines.TextsIgnoreSkipped` | scripts/verify-dockerfile-standard.py:41-44 | Texts depend only on the lines that are not skipped. |
| `DockerfileLines.InsertSkipped` | scripts/verify-dockerfile-standard.py:41-44 | A blank or comment line inserted anywhere, even inside a continuation, changes no text. |
| `DockerfileLines.PrintParse` | scripts/verify-dockerfile-standard.py:37-55 | Clean logical lines printed one per row, with any blanks around them, parse back, each on its own row. |
| `DockerfileLines.PrintParseBroken` | scripts/verify-dockerfile-standard.py:37-55 | Logical lines broken with backslashes over any number of rows parse back: each starts on its first row and reads as the texts of its rows joined by blanks. |
| `DockerfileLines.PrintParseOpen` | scripts/verify-dockerfile-standard.py:53-55 | A file that ends in continued rows has one more line, which reads as their texts joined by blanks. |
| `DockerfileLines.ContinuesExact` | scripts/verify-dockerfile-standard.py:47-49 | A row is continued exactly when it ends in a backslash and blanks. |
| `DockerfileLines.SkippedExact` | scripts/verify-dockerfile-standard.py:41-43 | A row is skipped exactly when it is blank or its first character that is no space is a hash sign. |
| `DockerfileLines.EmptyExact` | scripts/verify-dockerfile-standard.py:53-55 | A logical line is empty exactly when it is the last one and, after the last physical line that ends a logical line, every line not skipped is blank but for its backslash, and there is one. |
| `DockerfileLines.EmptyExample` | scripts/verify-dockerfile-standard.py:53-55 | A file of one backslash is one empty logical line. |
| `LaneRunner.RunLanes` | scripts/pdocker-test-driver.py:230-246 | The nested loops record the shortest prefix of the flat command list that ends at a failure, or all of it when none fails or failures are continued; pass exactly when every recorded exit code is 0. |
| `LaneRunner.UpToFailure` | scripts/pdocker-test-driver.py:241-246 | The prefix has no failure before its last entry and ends with one when it is cut. |
| `LaneRunner.CollectArtifacts` | scripts/pdocker-test-driver.py:269 | The manifest's artifacts are those of each result in run order. |
| `LaneRunner.StoppingKeepsArtifacts` | scripts/pdocker-test-driver.py:230-269 | Stopping early only cuts the artifact list. |
| `LaneRunner.StoppingKeepsVerdict` | scripts/pdocker-test-driver.py:230-246 | Stopping and continuing agree on the verdict. |
| `Json.IntRoundTrip` | scripts/verify-llama-gpu-artifact.py:551-560 | The conversion of index texts undoes decimal printing, for every integer. |
| `Text.DigitsRoundTrip` | tools/pdocker_fileio_microbench.c:62-68 | Printing a number in decimal and reading it back gives the number. |

## Left out

- JSON numbers are exact integers and reals: no rounding, overflow, NaN or infinity; parsed objects keep their first entry of a repeated key.
- Text is ASCII where case, digits or whitespace matter; `str` of floats and containers is an arbitrary function.
- Report prose, recommended actions, memory thresholds and commands, and the failure-event payload: they decide no class; nor does the effective blocker text of a mismatch.
- The classifier's configuration manifest and its loading: token and variable lists are parameters.
- Artifacts left over from an earlier run: the workflow takes what the compare step leaves as given, as the script does.
- SQLite details: primary keys that are NULL, type affinity, columns without constraints, indexes and pragmas.
- Checking layer digests and blobs, `fsync`, the contents of files inside an image: writing a file either succeeds or fails; what a merge has read is known by layer, and by whether the layer was complete at each read.
- Layer digests are 64 hexadecimal digits, as the prune expects; other shapes are never cached or pruned.
- The age and active filters of the prune, its other loops (builds, caches, volumes), and prunes while pulls are running.
- A rename onto an existing empty directory counts as failing; a tag stands for a directory name, so two references with the same directory share one tag.
- The random suffixes of stages and backups are decimal numbers here: different for different pulls, and without a dot.
- Exceptions that are no `Exception` (an interrupt from the keyboard) end a pull as a crash does.
- Hard links, opening through more than one link, and unlinking or renaming a file that is open: the benchmark does none of these.
- Creating the root directory, allocation failures, clocks and elapsed times of the benchmark; block sizes under 32, for which its 32-byte transfers are undefined.
- ImageDiscipline.GuardedRunIsSafe: a sufficient way of calling the daemon; the exact condition is the absence of the named steps in `ImageRuns.RunExact`.
- NaN and infinite outputs of the shim: the error loop passes a NaN, so its verdict is stated for finite reals; the difference of two floats is taken exactly.
- Blocking, sockets and descriptor passing below one reply per command; what happens to a mapping after it is unmapped.
- Splitting a text into lines: the scanners take lines, classified by their two patterns as item, indented, blank or other.
- Reading event logs and JSON: entries come as typed records; a body's identifier is a parameter.
- The checks on the terminal artifact's output text, flat conjunctions over one string.
- Storage phase names other than the five required ones only have to differ; positions are compared directly instead of with a sorted copy.
- Running commands, logs, exports and summaries of the lane runner: each command is its exit code and artifacts.
- The flat artifact validators and source-text checks; the ptrace executor and libcow are not part of this model.
