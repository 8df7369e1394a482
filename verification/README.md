# Verified model of the release and publication controls

A Dafny model of the parts of the repository that carry the hard promises, with proofs of those promises:

* **Image archives.** The checker of portable OCI and Docker archives (`PortableParser`, `ParserSoundness`), and
  the three programs that rewrite an archive: extraction of the reachable blobs (`OciSubset`, `SubsetMeaning`),
  conversion from OCI to the Docker layout (`DockerConversion`, `ConversionMeaning`) and retagging (`Retagging`),
  with two archives they reject (`ArchiveExamples`).
  `CandidateArchive` is the check of a saved candidate against the image id the daemon reported.
* **Canonical JSON, digests and signatures.** `CanonicalJson` prints values concretely, down to UTF-8;
  `ApprovalSignature` and `Chain` rest on it.
* **Publication authority.** The policy (`Authority`), the single-use broker (`Broker`), the actuator and every
  history of its use (`Publication`, `PublicationExample`), and approver enrollments (`Enrollment`).
* **R5 batches.** The append-only ledger (`R5Ledger`), every history of any number of runners, crashes and resumes
  (`R5History`), what a run decides and reports, with its renderer (`R5Batch`), and the batch loop itself with its
  command-line guard, run on a ledger that other runners use at the same time (`R5Run`).
* **Verifier-host bundle.** The import worklist (`ImportClosure`), the builder (`HostBundle`, `HostTransfer`), the
  receiver (`HostReceiver`), its installation (`HostInstall`) and the whole way from the source tree to the installed
  release (`HostDelivery`).
* **Effects under failure.** The candidate run with its container and tag (`CandidateRun`), publication of files
  without overwriting (`NoOverwrite`, `ReplayCommit`) and bounded capture of output (`BoundedCapture`).

Code that updates state is written as methods with loops, or as classes, and proved against predicates that say
what the result means; the promises are lemmas about those predicates. `Base` holds options, dictionaries
(insertion-ordered associations) and sorting.

## What is assumed

Nothing is assumed inside Dafny. What the code calls and this model does not define is a parameter: a record of
functions, with its laws as explicit preconditions where a proof needs them. The laws are: reading an archive that
was written under proper names gives what was written; printed JSON parses back, parsing gives dictionaries with
distinct keys, and a document that has a complete object as a proper prefix is that object; a digest has the form
`sha256:` and 64 hex digits; the time of a representable instant reads back; a signature verifies under its own key;
and in a source tree, module files have normal names and no readable file is a directory on the way to another.
`Consistency` and `PublicationExample.SettingExists` exhibit formats, hosts and clocks that keep these laws and show
that every file system keeps the last, so they can be met. That a digest does not collide is assumed only for the two
values a lemma names. The environment is adversarial: the answers of Docker, the file system, the executor, the
channel factory and the clock are arbitrary, as are the sizes in which data arrives, the order in which sets are
iterated, what other processes do to a name, and what other runners do to the ledger before each of a run's calls.

## Where the code is not what one might expect

* A batch run that reads a prior record at which it stops behind an attempt that is still pending reports records
  that are not a prefix of the selection, and the renderer rejects the result. `R5Run.RunBatch` says that this is
  the only case; `R5Batch.SkippedPendingExample` is an input. The command line's guard reads the ledger before the
  run does, so it excludes the case only if no other runner moves in between (`R5Run.RunPendingOnly`,
  `R5Run.GuardRaceExample`). An unknown attempt whose row carries a result digest would be rejected too
  (`R5Batch.UnknownResultExample`); the ledger admits such a row but no runner writes one, so it needs another
  writer.
* The converter's self-check reads expanded layers back with the legacy rule that a leading gzip magic means a
  compressed layer, so it rejects exactly the layers that start that way but do not expand to the same digest
  (`ConversionMeaning.SelfCheckDecides`); `ArchiveExamples.ConvertibleNotConverted` is an input.
* Extraction rejects archives whose directory names end in a slash, which the checker accepts
  (`SubsetMeaning.AcceptedSubset`); `ArchiveExamples.AcceptedNotExtractable` is a listing. Python's tarfile strips
  the trailing slashes of directory names when it reads a header, so whether such a listing can arrive depends on the
  reader.
* The converter reads at most 65537 bytes of `index.json`, where the extraction before it reads it all. This does no
  harm: what is read parses to an object only if the whole index is that object
  (`ConversionMeaning.ConvertsEverySource`).
* `_write_no_overwrite` leaves the target behind when the link call itself raises after taking effect, or when a
  later call fails and so does the undoing (`NoOverwrite.Stranded`, `NoOverwrite.StrandedExamples`); the replay's
  rollback, which compares the files, survives the first. A file that already had the random temporary name makes
  `_write_no_overwrite` fail and is unlinked with the cleanup (`NoOverwrite.WriteNoOverwrite`).
* The gates of the policy and the actuator compare the request's repository with the allowlist, the decision and the
  grant, not with the approved intent: one signed approval passes requests for any allowlisted repository
  (`PublicationExample.OneApprovalTwoRepositories`). The repository published to is the approved one exactly when
  the request names the intent's (`Publication.RepositoryApproved`), which `Chain.ValidateChain` checks
  (`Publication.ChainedPublication`).

## Model

| member | source | states |
|---|---|---|
| CanonicalJson.EncodeCanonical | src/app_contracts/digests.py:10-32 | two values have the same canonical bytes exactly when they are equal as JSON, whatever order their keys were inserted in |
| ApprovalSignature.PayloadBindsFields | src/app_contracts/approval_signature.py:29-47 | two approvals have equal signing payloads exactly when they agree on all eleven signed fields |
| Chain.StagedDigestPinsEvidence | src/app_contracts/chain.py:67-116 | without a digest collision, two accepted chains whose approvals name the same staged digest have the same staged change, verification report and evidence bundle |
| Chain.GrantPinsRequest | src/app_contracts/chain.py:67-116 | likewise, the same credential-use grant means the same actuator request |
| Chain.TamperedContractRejected | src/app_contracts/chain.py:12-132 | replacing one of these four contracts alone in an accepted chain by a different value makes the chain rejected |
| PortableParser.ParsePortableArchive | scripts/audit_portable_verifier_image_exp1350.py:188-450 | accepts exactly the archives that satisfy the declarative acceptance predicate, returns their facts, and reports an unbound index by its own stage |
| PortableParser.AuditLayers | scripts/audit_portable_verifier_image_exp1350.py:313-322 | the loop over layers passes exactly when every layer expands within what is left of the budget and hashes to its DiffID, in order |
| PortableParser.AuditLegacy | scripts/audit_portable_verifier_image_exp1350.py:323-421 | the Docker half passes exactly when its record, configuration, tag and layers are as expected, on the budget the OCI half left |
| ParserSoundness.AcceptedChainVerified | scripts/audit_portable_verifier_image_exp1350.py:145-185 | in an accepted archive every descriptor's size and digest match its blob, and each layer's expansion hashes to the expected DiffID |
| ParserSoundness.CopiesAgree | scripts/audit_portable_verifier_image_exp1350.py:323-376 | in an accepted archive with both layouts the two copies denote one image, and together expand within the limit |
| OciSubset.MakeOciSubset | scripts/export_verify_oci_subset_exp1540.py:77-148 | returns the subset of the archive exactly when the source qualifies and the result is within the size bound |
| OciSubset.SelectBlobs | scripts/export_verify_oci_subset_exp1540.py:110-133 | the loop gathers the index and, once under every name a descriptor names, what the archive holds there, and nothing else; it rejects exactly when some blob does not verify |
| SubsetMeaning.SubsetKeepsReachable | scripts/export_verify_oci_subset_exp1540.py:77-148 | the subset holds index.json and the blobs reachable from it, and nothing else, with their bytes |
| SubsetMeaning.SubsetIdempotent | scripts/export_verify_oci_subset_exp1540.py:77-148 | taking the subset of a subset gives the same bytes |
| SubsetMeaning.ImageKept | scripts/export_verify_oci_subset_exp1540.py:77-148 | the subset denotes the image the source denotes |
| SubsetMeaning.AcceptedSubset | scripts/audit_portable_verifier_image_exp1350.py:265-293 | for an archive the checker accepts: extraction succeeds exactly when no directory name ends in a slash and the size bound holds; the result is accepted with the same facts but for the format if the index is annotated, and rejected as unbound if not |
| ArchiveExamples.AcceptedNotExtractable | scripts/export_verify_oci_subset_exp1540.py:77-100 | under a lawful codec, an archive that the checker accepts and extraction rejects, for a directory listed with a trailing slash |
| DockerConversion.ExpandLayer | scripts/load_converted_oci_verifier_exp1549.py:96-117 | for every chunking, a layer is expanded whole exactly when its expansion fits what remains; every read asks for a byte or more, and at most one byte past what remains is ever held |
| DockerConversion.ExpandLayers | scripts/load_converted_oci_verifier_exp1549.py:161-177 | all layers expand, in order, exactly when each hashes to its DiffID and together they fit the shared budget |
| DockerConversion.MakeDockerArchive | scripts/load_converted_oci_verifier_exp1549.py:120-208 | returns the written archive exactly when the source is convertible, the size is in bound and the self-check passes |
| ConversionMeaning.SelfCheckDecides | scripts/load_converted_oci_verifier_exp1549.py:120-208 | the self-check accepts the written archive exactly when sizes, counts, tag and pins are in bound and every gzip-looking layer rehashes to its DiffID |
| ConversionMeaning.SelfCheckRedundant | scripts/load_converted_oci_verifier_exp1549.py:195-203 | for a convertible source whose layers do not start with the gzip magic, the self-check adds nothing to the size and tag conditions |
| ArchiveExamples.ConvertibleNotConverted | scripts/load_converted_oci_verifier_exp1549.py:195-203 | under a lawful codec, a convertible archive whose result the self-check rejects under every tag, for a layer that begins like a gzip stream |
| ConversionMeaning.ConversionPreservesImage | scripts/load_converted_oci_verifier_exp1549.py:120-208 | the written archive has the source's configuration bytes, its i-th layer file is the expansion of the i-th source layer, and read back it denotes the source's image whenever the self-check passes, or no layer looks compressed |
| ConversionMeaning.ReturnedDenotesImage | scripts/load_converted_oci_verifier_exp1549.py:195-208 | whatever the converter returns denotes the image it converted, unless a gzip-looking layer and its different expansion share a digest |
| ConversionMeaning.ConvertsEverySource | scripts/load_converted_oci_verifier_exp1549.py:125-160 | for every convertible archive, whatever the length of its index, the image converted is the one the source's own index denotes |
| Retagging.PrepareTagged | scripts/load_oci_verifier_candidate_exp1546.py:60-98 | returns the retagged archive exactly when the source qualifies and the result is accepted |
| Retagging.RetagDecides | scripts/load_oci_verifier_candidate_exp1546.py:60-98 | the final check accepts the retagged archive exactly when the source's configuration, platform and layers are the pinned ones and it and the new index are within the parser's limits |
| Retagging.RetagChangesAnnotation | scripts/load_oci_verifier_candidate_exp1546.py:71-77 | the new index's descriptor differs from the old one only in the ref-name annotation |
| Retagging.RetagKeepsImage | scripts/load_oci_verifier_candidate_exp1546.py:60-98 | the result's manifest digest and denoted image are the source's |
| Retagging.RetagKeepsFacts | scripts/load_oci_verifier_candidate_exp1546.py:89-98 | an accepted result has the source's manifest digest, configuration digest, image and DiffIDs, and the new tag in its facts and its annotation |
| CandidateArchive.ValidateArchive | scripts/export_loaded_verifier_candidate_exp1580.py:278-396 | accepts exactly the candidate archives of the inspected image; attached diagnostics never say "daemon-match", and say "absent" exactly when index.json is missing |
| CandidateArchive.MismatchDiagnostics | scripts/export_loaded_verifier_candidate_exp1580.py:188-275 | for an archive that parses but is not the inspected image, all identity relations are mismatches, or absent without an index |
| CandidateRun.RunOnce | scripts/export_loaded_verifier_candidate_exp1580.py:399-637 | for every runner: an accepted container is removed exactly once, no build starts before that succeeds, only a tag just listed is removed, the exit code is 22 exactly when something may be left behind, and 0 only for a saved archive accepted for the inspected id |
| CandidateRun.CleanUp | scripts/export_loaded_verifier_candidate_exp1580.py:592-625 | afterwards the removal of an accepted container has been attempted, and the tag counts as clean exactly when it is seen gone or was not to be removed |
| CandidateRun.Attempt | scripts/export_loaded_verifier_candidate_exp1580.py:463-591 | the flags the cleanup goes by say exactly what happened to the container and the tag, whatever raised |
| R5Ledger.Ledger.Claim | src/app_contracts/r5_attempt_ledger.py:215-247 | appends one claim with the input digest, if and only if the attempt is pending and the write succeeds |
| R5Ledger.Ledger.Transition | src/app_contracts/r5_attempt_ledger.py:364-398 | ends an attempt only if it is claimed, carrying the claim's input digest |
| R5Ledger.AttemptLife | src/app_contracts/r5_attempt_ledger.py:215-285 | an attempt's rows are at most a claim and one end after it, with the same input |
| R5History.AtMostOneExecution | scripts/run_r5_preregistered_batch.py:121-231 | in every history of runners, crashes and resumes each attempt is executed at most once (that runs of the code's loop, interleaved, are such histories is RunBatch's contract) |
| R5History.ExecutionAfterClaim | scripts/run_r5_preregistered_batch.py:168-178 | every execution comes after a claim of the attempt with the same input digest, which is in the ledger from then on |
| R5History.NeverPendingAgain | src/app_contracts/r5_attempt_ledger.py:215-285 | an attempt that was claimed is not pending at any later moment |
| R5Batch.SelectAttempts | scripts/r5_batch_selection.py:77-166 | returns the attempts in the caller's order, exactly when they are distinct and scheduled |
| R5Run.RunClaimed | scripts/run_r5_preregistered_batch.py:169-231 | among any moves of other runners a claimed attempt is executed once and ended by one row unless the database refuses both writes; a record returned as completed or unknown is what the ledger holds, and the bare claim is returned only after a database fault |
| R5Run.RunBatch | scripts/run_r5_preregistered_batch.py:71-239 | whatever other runners do before each call, the whole is one history in which the run is a new runner that follows the runner's program, claims nothing after a final outcome and stops; nothing is executed twice; its status is exact; its records hold; they are a prefix of the selection, and the renderer accepts them, exactly when what it read does not stop it behind a pending attempt |
| R5Run.RunPendingOnly | scripts/run_r5_batch_cli.py:297-304 | behind the command line's guard the result is printed exactly when what the run then reads does not stop it behind a pending attempt, which is always so if no other runner moves |
| R5Batch.PrintResult | scripts/run_r5_batch_cli.py:836-923 | prints a result exactly when it is renderable |
| R5Batch.RenderDecides | scripts/run_r5_batch_cli.py:836-923 | a well-shaped result is renderable exactly when it is a prefix and its last record, if not completed, has no result digest |
| R5Batch.EarlyPrefix | scripts/run_r5_preregistered_batch.py:121-141 | an early stop reports a prefix of the selection exactly when no pending attempt precedes it |
| R5Run.RunnerReplays | scripts/run_r5_preregistered_batch.py:151-235 | in every history, whoever moves in between, what one runner did is a path of the runner's program from its selection to where it stands |
| R5Run.Floor.Records | src/app_contracts/r5_attempt_ledger.py:294-302 | each record read is what the ledger held at some moment since the call began, the moments may differ, and with no one else moving it is what the ledger holds |
| R5Run.Floor.End | src/app_contracts/r5_attempt_ledger.py:364-398 | what a runner has executed it can end, whatever others did since; an attempt that has ended keeps its record |
| R5Batch.SkippedPendingExample | scripts/run_r5_preregistered_batch.py:121-141 | a selection whose early stop is no prefix |
| R5Batch.UnknownResultExample | scripts/run_r5_batch_cli.py:836-923 | a prior unknown record with a result digest, which is not renderable |
| R5Run.GuardRaceExample | scripts/run_r5_batch_cli.py:297-304 | a history in which the guard finds both attempts pending and another runner's failure then makes the run stop behind the first |
| ImportClosure.LocalImportTargets | scripts/build_verifier_host_bundle.py:156-189 | gathers the local modules a list of import statements names, exactly when each statement resolves |
| ImportClosure.Collect | scripts/build_verifier_host_bundle.py:201-249 | terminates; succeeds exactly when everything needed can be included; the result is exactly what is reachable, and the least set with the roots closed under imports and parents |
| ImportClosure.CollectTwice | scripts/build_verifier_host_bundle.py:201-249 | any two runs agree in success and result, whatever order they popped and iterated in |
| ImportClosure.NeededInClosed | scripts/build_verifier_host_bundle.py:201-249 | whatever is reachable lies in every closed set |
| HostTransfer.BuildBundle | scripts/build_verifier_host_bundle.py:252-359 | returns a bundle of the tree's needed files within the limits, exactly when there is one |
| HostTransfer.CollectMembers | scripts/build_verifier_host_bundle.py:252-279 | returns the fixed files and those of the needed modules, sorted and as read, exactly when they exist, are distinct and fit |
| HostTransfer.BundleUnique | scripts/build_verifier_host_bundle.py:307-359 | one tree has one bundle: archive, digest and counts |
| HostBundle.ManifestPinned | scripts/stream_pinned_verifier_host_bundle.py:62-74 | a manifest that parses, prints back to itself and describes the files is byte for byte the builder's manifest of those files, and conversely |
| HostBundle.NamesAgree | scripts/build_verifier_host_bundle.py:282-291 | the builder's and the receiver's name rules admit the same names |
| HostReceiver.Validate | scripts/stream_pinned_verifier_host_bundle.py:54-74 | passes exactly the pinned archives whose manifest is the one a builder would write for the files beside it |
| HostReceiver.BuiltIsAccepted | scripts/stream_pinned_verifier_host_bundle.py:54-74 | every bundle built is accepted with its own tuple, as exactly its members and the manifest |
| HostReceiver.Transfer | scripts/stream_pinned_verifier_host_bundle.py:141-198 | the tree's files are delivered exactly when it has a bundle and that bundle has the four pinned values; otherwise nothing is sent |
| HostReceiver.AcceptedCorresponds | scripts/stream_pinned_verifier_host_bundle.py:62-74 | in an accepted archive manifest records and files correspond one to one, with size and hash, under allowed relative names |
| HostInstall.Install | scripts/stream_pinned_verifier_host_bundle.py:75-92 | under any faults nothing present changes and nothing appears outside the target but its ancestors; on success the target holds exactly the files; without faults it succeeds exactly when the ancestors are fit, the target is new and no file is in another's way |
| HostInstall.Receive | scripts/stream_pinned_verifier_host_bundle.py:51-94 | the whole receiver: a rejected archive or target changes nothing, an accepted one is installed as above |
| HostInstall.AdmittedBelow | scripts/stream_pinned_verifier_host_bundle.py:70-89 | a name the receiver's check admits leads strictly below the target, with "..", ".", empty components and absolute names resolved as the system does |
| HostInstall.RefusedNamesEscape | scripts/stream_pinned_verifier_host_bundle.py:70-89 | the names "../x" and "/x", which the check refuses, would lead out of the target |
| HostInstall.AcceptedAdmitted | scripts/stream_pinned_verifier_host_bundle.py:54-74 | every name of an accepted archive is admitted, so writing below the target rests on the receiver's own check |
| HostDelivery.BuiltIsCompatible | scripts/build_verifier_host_bundle.py:307-359 | of the files of any built bundle, the manifest included, none lies on the way to another below any target |
| HostDelivery.Deliver | scripts/stream_pinned_verifier_host_bundle.py:141-198 | the whole way, under any connection and any faults: success means the pinned bundle was built and, if the hash tells it from what arrived, exactly its members and manifest are installed; without faults, over a faithful connection, with fit ancestors and a new target, it succeeds exactly when the tree has a bundle with the pinned values |
| Authority.ValidatesWhileBound | src/app_contracts/authority.py:87-148 | an approval validates exactly while it is in force and bound by both digests and all fields to the presented intent and staged change |
| Authority.AllowsAuthorized | src/app_contracts/authority.py:160-220 | the policy allows exactly the cases with allowlisted repository, actuator and approver, matching digests and fields, a binding approval and its valid signature |
| Authority.UsableWhileFresh | src/app_contracts/authority.py:222-257 | a decision is usable later exactly if the case was authorized and its time to live has not passed |
| Broker.ValidGrants | src/app_contracts/broker.py:115-169 | a grant validates exactly when it is proper, for this very request, single-use, named and in force |
| Broker.CredentialBroker.OpenChannel | src/app_contracts/broker.py:186-202 | marks the grant used and opened exactly when the grant validates, is unused and the factory makes a channel; otherwise changes nothing |
| Publication.PublishPullRequest | src/app_contracts/github_actuator.py:22-67 | the gates, the broker and the gates after it act in order, and the provider is called exactly when all pass |
| Publication.PublicationAuthorized | src/app_contracts/actuator.py:42-93 | a provider call implies an authorized case, agreement of request and intent, the derived key, a fresh grant for the request in force, and a time before the earlier expiry plus the decision's time to live |
| Publication.RepositoryApproved | src/app_contracts/actuator.py:48-79 | of the calls that pass every gate, those publish to the approved repository whose request names the intent's repository, and no others |
| Publication.ChainedPublication | src/app_contracts/chain.py:98-104 | a call whose request and intent are those of an accepted chain publishes the approved target, repository included |
| PublicationExample.OneApprovalTwoRepositories | src/app_contracts/authority.py:160-220 | for any two allowlisted repositories, one signed approval for the first passes every gate twice, and the provider is called for the first and for the second |
| Publication.OneApprovalOneTarget | src/app_contracts/authority.py:71-84 | without a collision on the two intents, provider calls under approvals with one signing payload publish one staged change, branch, base and key, and go to one repository if each request names its intent's |
| Publication.RunSound | src/app_contracts/broker.py:173-202 | over every history no grant is opened twice, the used grants are those opened, and each provider call has its own |
| Publication.RefusalKeeps | src/app_contracts/github_actuator.py:36-58 | a failing gate, grant check or factory changes nothing; a refusal after opening uses the grant and calls no provider |
| Publication.Serve | src/app_contracts/github_actuator.py:16-67 | a broker and a provider taken through any actions end in the state the histories describe, which is sound |
| Enrollment.RoundTrip | src/app_contracts/approver_trust_enrollment.py:80-206 | a built record verifies under its authority's key and exact scope precisely from 30 seconds before issue until expiry, and its window is at most 30 days |
| Enrollment.UniqueEncoding | src/app_contracts/approver_trust_enrollment.py:141-163 | two verified encodings are equal exactly when their payloads and signatures are |
| Enrollment.RejectDuplicatePairs | src/app_contracts/approver_trust_enrollment.py:280-286 | an object's pairs become a dictionary exactly when no key repeats |
| NoOverwrite.WriteNoOverwrite | scripts/provision_systemd_verifier_credential.py:133-196 | an existing or foreign file keeps the name; a normal return, reached exactly when no call fails and the name stays free, binds the target to the intended bytes; a raise leaves this operation's file there exactly when it is stranded; a foreign file under the temporary name is removed exactly when the directory opened and the cleanup took effect |
| NoOverwrite.CleanUp | scripts/provision_systemd_verifier_credential.py:170-196 | the target is unbound again exactly when the check and the removal both work |
| NoOverwrite.StrandedExamples | scripts/provision_systemd_verifier_credential.py:163-185 | two sequences of faults that leave the target behind, and one that does not |
| ReplayCommit.CommitReplay | scripts/replay_staged_candidate.py:376-504 | the same for the replay's commit: a raise leaves the output bound to this operation's file exactly when the link was made and the comparison or the unlinking failed |
| ReplayCommit.Body | scripts/replay_staged_candidate.py:576-582 | the output is linked exactly when both looks find the path free and the link takes effect |
| BoundedCapture.BoundedProcessOutput | scripts/audit_portable_verifier_image_exp1350.py:507-547 | every read asks for a byte or more and at most one byte past the limit is held; left to finish, the whole stream is returned exactly when it is within the limit, even against an endless stream |
| BoundedCapture.BoundedBuildExport | scripts/export_buildx_verifier_candidate_exp1573.py:71-124 | the same for two streams, for every interleaving |
| BoundedCapture.ReadMore | scripts/export_buildx_verifier_candidate_exp1573.py:97-109 | one read ends the stream, passes the limit, or extends what is held of it |

## Left out

- The byte layout of tar, gzip, SHA-256, Ed25519 and the JSON reader: abstract functions with the laws above.
- Numbers in JSON that are not integers, and lone surrogates in strings: values that contain them have no model.
- Stage names of the archive checker other than the ones stated above, and the time limits, signals, terminal checks, confirmation phrases and evidence texts of the scripts.
- Chain.ValidateChain: the base-branch rule and the idempotency key of the publication seed are parameters, because publication_seed is not part of this model.
- Schema validation of contracts (validator.py) and the checks of the casebook fixtures.
- The ledger's SQL and schema, and the rules by which the command line extends it: an append with a fault before or after its effect stands for a transaction, and an extension adds any attempts.
- R5Run.RunBatch: the reason codes of executions are parameters, and the executor, workers and journal are arbitrary.
- R5Run.RunPendingOnly: the guard is that of a resumed ledger; a new one has no rows and is not guarded.
- Authority.ValidatesWhileBound: a naive clock, a malformed one and one outside the representable instants are one case.
- Publication.PublishPullRequest: what the provider does with a call, and what it returns.
- HostInstall.Receive: file modes, and any other process acting on the target's ancestors meanwhile.
- ImportClosure.Collect: reading and parsing of Python files is a parameter that gives each module's import statements.
- HostTransfer.CollectMembers: symbolic links and the walk that lists the package's files are a parameter, and the tree does not change between the reading of a module to parse it and the reading of it to pack it.
- CandidateRun.RunOnce: the contents of the build context, the temporary directories and the classification of build errors.
- NoOverwrite.WriteNoOverwrite: other processes may take the target's name at any time, but not remove or rename files.
- ReplayCommit.CommitReplay: SQLite's journal files, and the staged content itself, which is a parameter.
- Enrollment.RoundTrip: the process clock is a parameter.
- SSH, HTTP, TLS and Docker calls, key stores, and the numbered wrappers around the export and audit scripts.
