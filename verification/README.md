# Release admission of sub2api-codex-control, modelled and verified in Dafny

The repository ships a Connector, a Control service and server packages through a chain of checks
that fail closed: `release.py` prepares, finalizes, signs and verifies Connector releases and
publishes their vulnerability evidence; `check-vulnerabilities.py` and its companions build, gate and
replay that evidence; smaller scripts snapshot release directories, check the migration history,
migrate the durable outbox, admit observability receipts and scan the public tree. This project
models that logic and proves what the chain as a whole promises.

Loops that grow lists, sets, dictionaries or counters are methods with invariants, proved equal to a
specification; objects the programs change in place (the output directory, the outbox database, the
running digests) are classes; formulas and checks are functions and predicates. Signers, scanners,
build tools, hashes and the host's files are function-valued parameters, so every theorem holds for
all of them.

## Main results

- **Release runs.** In every run from an empty directory, with commands that succeed or fail at any
  point, every directory is in one of seven phases that fix its names (`ReleaseSafety.RunPhases`); the
  working phase lies between two bounds that coincide without Darwin targets (`LinuxExact`); what a
  failed command left is never finalized or signed (`StrayForever`, `AbandonedStays`,
  `HalfSignedStays`); finalization leaves exactly the content files and a checksum file that lists
  exactly those (`ReleaseRuns.FinalizedInventory`) and replaces nothing; preparing an admissible matrix
  and recording its evidence leads to a release that is finalized, signed and verified, under exact
  conditions (`ReleaseRoute.ReachesReady`, `ReachesVerified`, `ReleaseAcceptance.SignAccepts`,
  `VerifyAccepts`); after a local-unsigned preparation no sequence of commands reaches signing
  (`ReleaseSafety.LocalNeverSigned`).
- **Core inventory.** Four enumerations of one release (content files, signing plan, closed-form
  names, counters) agree; the names are distinct if and only if no architecture token imitates an
  asset ending, and then there are 6 + 25 per Linux target + 18 per Darwin target.
- **SBOMs and provenance.** The separately written verifiers accept what finalization writes if and
  only if the reserved SPDX identifier and the two reserved URIs are not taken by a dependency.
- **Public evidence.** Staging and reconstructing is a round trip on paths and bytes.
- **Vulnerability gate.** The inventory it emits is sorted, distinct and has a closed-form length,
  and meets the consumer's demands if and only if the profile is the Connector's; a passed run has
  dispositions in bijection with findings; a whole run passes exactly in one interval of times and
  issues the same receipt at all of them, so recorded receipts replay exactly in a stated window; a
  manifest that was built is admitted by the run, and an issued receipt meets the release consumer
  under an exact condition (`GateRun`); the package index and the finding extraction agree.
- **Release roots and the manifest.** Loading roots never takes an internal-error branch and serves
  every mapped target; every manifest the builder writes is admitted by the gate, and every admitted
  manifest can be rebuilt from itself.
- **Around it.** Given distinct revisions and closed, acyclic links, one migration head means one chain;
  the downgrade restores uniqueness if and only if no kept key is already a new key; a snapshot is
  byte-exact for every pattern of short reads and writes; a public scan is clean if and only if
  everything in the tree, the index and HEAD passes; observability receipts admit for at most three and a half minutes.

## Properties that hold only under a condition

These hold of the code exactly when the stated condition does; each has a lemma in both directions
and a concrete instance or family that shows the failure.

- The consumer of a vulnerability receipt demands that the reviewed number equals LOW + MEDIUM. The
  gate guarantees this only when no finding is critical, high or unknown. The shipped policy blocks
  nothing and sends CRITICAL, HIGH and UNKNOWN to review, so a reviewed finding of one of these passes
  the gate and is refused later (`VulnerabilityFindings.ConsumerAcceptsCounts`, `BlockingPolicy`,
  `ReviewingPolicy`).
- A module list with a dependency that takes the SPDX identifier of the standard library or the URI of
  the toolchain is written and then refused (`Provenance.StandardLibraryClash`, `ToolchainClash`). The
  release code does not look for this; versions as Go writes them rule it out (`GoModulesAccepted`).
- A kept idempotency key can equal a rewritten one and stop the downgrade
  (`DurableOutbox.UniquenessRestored`, `TakenKeyExample`). A later duplicate whose key is already its
  own new key stays as it is (`RowUnchanged`, `SelfKeyExample`); when the downgrade can succeed there
  is none (`OnlyEarliestUnchanged`).
- The migration check tests neither cycles nor missing parents nor repeated revisions
  (`MigrationGraph.HeadIffChain`, `CycleAdmitted`, `MissingAdmitted`, `RepeatedAdmitted`).
- Replay needs the receipt's own time to be at most five minutes ahead and, when a maximum age is
  given, not older than it (`GateRun.ReplayWindow`).

## Beyond the configured matrix

The inventory, signing and verification code is written for any list of Linux and Darwin targets, and
its theorems are stated for any. The configuration narrows this today: it loads only with the targets
Linux `amd64` and `arm64` (connector/release/release.py:538), so Darwin targets and tokens such as
`amd64.deb` are not reachable. For the configured matrix everything holds without a condition on tokens
(`ConfiguredRelease`): 56 distinct core names, finalization that never collides, signing that replaces
nothing. For other matrices the exact condition is that no token imitates an asset ending
(`CoreAssets.MatrixDistinct`, `ReleaseRuns.SigningReplacesNothing`); `CoreAssets.SuffixTokenCollides`,
`ReleaseRuns.PlanRepeats` and `ReleaseRuns.AdmittedAndReplaced` show what widening the matrix would have
to avoid.

Where documentation and code differ the code is followed: the release documentation counts six
packages, the code derives its counts from the configured specifications; the documentation binds
dispositions to report and database hashes, the code to the finding's identity and review terms.

## Model

| member | source | states |
|---|---|---|
| `ReleaseManifest.ExpectedContentFiles` | connector/release/release.py:2825-2859 | the sorted names of the manifest, its marker or metadata, and every file of every target and package |
| `ReleaseManifest.SigningPlan` | connector/release/release.py:2862-2911 | the collected pairs are the blob signatures of all listed files and the attestations of all artifacts and packages |
| `ReleaseManifest.PlanSignsContent` | connector/release/release.py:2825-2911 | for every release manifest the plan signs every content file and the checksum file exactly once and nothing else |
| `CoreAssets.MatrixDistinct` | connector/release/release.py:5637-5682 | the assets of a matrix are pairwise distinct if and only if its targets are and no token imitates an ending |
| `CoreAssets.PlainTokensAdmissible` | connector/release/release.py:5637-5682 | tokens without a dot never imitate |
| `CoreAssets.SuffixTokenCollides` | connector/release/release.py:5637-5682 | for a matrix with `amd64.deb` beside `amd64`, which the configuration refuses, the names repeat in every version |
| `ReleaseInventory.ExpectedCoreAssetCount` | connector/release/release.py:5609-5634 | the running totals add up to 6 + 25 per Linux target + 18 per Darwin target |
| `ReleaseInventory.MatrixCoreNames` | connector/release/release.py:5637-5682 | the loop over the matrix collects exactly the content and attestation names |
| `ReleaseInventory.ExpectedCoreAssetNames` | connector/release/release.py:5637-5682 | succeeds if and only if the matrix is distinct and admissible, with as many names as counted |
| `ReleaseInventory.CoreInventoryNames` | connector/release/release.py:2914-2932 | the sorted inventory, refused exactly when it repeats a name |
| `ReleaseInventory.InventoryDistinct` | connector/release/release.py:2825-2932 | the manifest-driven inventory has no duplicate if and only if the tokens are admissible |
| `ReleaseInventory.InventoryAgrees` | connector/release/release.py:2825-2932 | the manifest-driven inventory and the closed-form names are the same set, of the counted size |
| `Sbom.DependencyEntries` | connector/release/release.py:1578-1621 | one package and one relationship per dependency in order; refused exactly on repeated identifiers |
| `Sbom.SbomAccepted` | connector/release/release.py:1624-1709 | the artifact SBOM as built passes `verify_sbom` if and only if the standard-library identifier is free |
| `Sbom.ClosureReadBack` | connector/release/release.py:1811-1914 | the closure read back from the Connector document is the standard library and all dependencies in order |
| `Sbom.PackageSbomAccepted` | connector/release/release.py:4086-4216 | the package SBOM as built passes `verify_package_sbom` if and only if the standard-library identifier is free |
| `Provenance.MakeProvenance` | connector/release/release.py:1712-1808 | refused exactly when a dependency checksum is not a SHA-256 digest; otherwise the statement |
| `Provenance.CheckDependencies` | connector/release/release.py:4571-4735 | the dependency loop accepts exactly distinct, digested, unreserved URIs |
| `Provenance.ProvenanceAccepted` | connector/release/release.py:4571-4735 | the written statement is accepted if and only if the reserved URIs are free and the trusted identity is the builder |
| `Provenance.StandardLibraryClash` | connector/release/release.py:1578-1621 | with a dependency of the reserved identifier the documents are built and the SBOM is refused for every artifact |
| `Provenance.ToolchainClash` | connector/release/release.py:1712-1808 | with a dependency named like the toolchain the SBOM is accepted, and the statement is built and refused because it repeats a URI |
| `Provenance.GoModulesAccepted` | connector/release/release.py:1515-1621 | with versions as Go writes them and a repository that is no package URI, no dependency takes a reserved identifier or URI |
| `ReleaseWork.CopyPackages` | connector/release/release.py:810-1045 | succeeds exactly when both builds of every package agree, copying each under its release name; a failure leaves the first few copies |
| `ReleaseWork.PrepareTarget` | connector/release/release.py:810-1045 | succeeds exactly when the target is reproducible, adding its files and the record that names them; a failure leaves the first few |
| `ReleaseWork.Prepare` | connector/release/release.py:810-1045 | succeeds exactly on an empty directory with reproducible builds and leaves the listed files and the work state; a failure there leaves the scratch tree and the first copies, elsewhere nothing changes |
| `ReleaseWork.RecordExecutable` | connector/release/release.py:1054-1093 | succeeds exactly once per Darwin target and only on the verdict of the signature tool, adding exactly its evidence |
| `ReleaseWork.RecordPackage` | connector/release/release.py:1338-1512 | succeeds exactly once per package and only on the verdicts of the tools, adding exactly its evidence; a late failure leaves an RPM signing key and nothing else |
| `ReleaseOutput.Output.WriteExclusive` | connector/release/release.py:195-211 | a write succeeds exactly when the name is new and changes only that name |
| `ReleaseOutput.Output.FinalizePackages` | connector/release/release.py:2337-2480 | the packages' documents are added in order; a collision stops and replaces nothing |
| `ReleaseOutput.Output.FinalizeTargets` | connector/release/release.py:2612-2822 | the documents of every target are added in order; a collision stops and replaces nothing |
| `ReleaseOutput.Output.Finalize` | connector/release/release.py:2612-2822 | the directory alone decides the outcome; success is the finalized directory, a failure removes and replaces nothing |
| `ReleaseRuns.FinalizeSucceeds` | connector/release/release.py:2612-2822 | on a ready directory with an admissible matrix no document collides with a file |
| `ReleaseRuns.FinalizedInventory` | connector/release/release.py:2576-2859 | after finalization the directory is the content files and the checksum file, which lists exactly those with their digests in that directory |
| `ReleaseRuns.WriteBundles` | connector/release/release.py:3345-3415 | the signer is called once per planned pair in order until it fails, each call writing the bundle of its pair |
| `ReleaseRuns.BundlesAbsent` | connector/release/release.py:3345-3415 | decides whether any planned bundle already exists |
| `ReleaseRuns.Sign` | connector/release/release.py:3345-3415 | succeeds exactly when the directory is admitted and every call of the signer succeeds; a refusal changes nothing, a failing signer leaves the first bundles of the plan |
| `ReleaseRuns.SigningReplacesNothing` | connector/release/release.py:3345-3415 | on an admitted directory every bundle is written under a new name if and only if no token of the matrix imitates an ending |
| `ReleaseRuns.PlanRepeats` | connector/release/release.py:2862-2911 | for tokens such as `amd64` and `amd64.intoto`, which the configuration refuses, the plan names one bundle twice |
| `ReleaseRuns.AdmittedAndReplaced` | connector/release/release.py:3345-3415 | `sign` itself would admit such a release when its other names stay apart, and write that bundle twice |
| `ReleaseVerification.FinalizedRead` | connector/release/release.py:2612-2822 | what every name of a finalized directory holds |
| `ReleaseAcceptance.TargetAccepted` | connector/release/release.py:4752-4916 | a target's files and documents pass if and only if its dependencies are clean, its identities pinned and its builder trusted |
| `ReleaseAcceptance.FinalizedNames` | connector/release/release.py:2825-2859 | a finalized directory has exactly the names the manifest lists and the checksum file |
| `ReleaseAcceptance.ContentAccepted` | connector/release/release.py:4752-4916 | every content check holds on any directory that extends the finalized one |
| `ReleaseAcceptance.SignAcceptsExactly` | connector/release/release.py:4752-4916 | for every matrix `sign` admits a finalized release if and only if the matrix is the configured one, every target is sound and no name serves two files |
| `ReleaseAcceptance.SignAccepts` | connector/release/release.py:4752-4916 | over an admissible matrix `sign` admits a finalized release if and only if the matrix is the configured one and every target is sound |
| `ReleaseAcceptance.VerifyAccepts` | connector/release/release.py:4919-5094 | when no name serves two files, `verify` accepts the signed result under the builder's identity if and only if `sign` admitted it, and under no other |
| `ReleaseAcceptance.LocalAccepted` | connector/release/release.py:4919-5094 | a local-unsigned result passes its own verification if and only if its dependencies are clean, and `sign` refuses it |
| `ReleaseSafety.Execute` | connector/release/release.py:810-3415 | every command, run on the directory, ends in one of the outcomes the phases are proved for |
| `ReleaseSafety.WorkingBecomes` | connector/release/release.py:2576-2822 | from a working directory every outcome is a working one, a finalized one, or one with strays of a failed command |
| `ReleaseSafety.LinuxExact` | connector/release/release.py:2576-2608 | without Darwin targets a working directory has exactly the names finalization demands |
| `ReleaseSafety.AbandonedStays` | connector/release/release.py:810-1045 | no command succeeds on or changes what a failed preparation left |
| `ReleaseSafety.StrayStays` | connector/release/release.py:2576-2608 | a directory with strays keeps them under every outcome, and is neither finalized nor signed |
| `ReleaseSafety.StrayForever` | connector/release/release.py:2576-2608 | over every continuation of a run a directory with strays is never finalized and never signed |
| `ReleaseSafety.StoppedSigning` | connector/release/release.py:3345-3415 | a failing signer changes no existing file and leaves the first bundles of the plan |
| `ReleaseSafety.HalfSignedStays` | connector/release/release.py:3345-3415 | no command succeeds on or changes a half-signed release |
| `ReleaseSafety.OutcomePhase` | connector/release/release.py:810-3415 | whatever a command does and however it ends, a directory of one phase becomes one of a phase |
| `ReleaseSafety.RunPhases` | connector/release/release.py:810-3415 | over every run from an empty directory, with commands that succeed or fail at any point, every directory is in one of seven phases, each fixing its names (the working phase between two bounds) |
| `ReleaseSafety.OnlySigningFollows` | connector/release/release.py:2612-2822 | after finalization only signing can succeed |
| `ReleaseSafety.NothingFollowsSigning` | connector/release/release.py:3345-3415 | on a signed release no command succeeds and none changes anything |
| `ReleaseSafety.OutcomeLocked` | connector/release/release.py:2576-2859 | no outcome of a command, failures included, leaves the local-unsigned directories |
| `ReleaseSafety.LocalNeverSigned` | connector/release/release.py:4752-4768 | over every run after a local-unsigned preparation `sign` never admits the directory |
| `ReleaseRoute.FinishedReady` | connector/release/release.py:2337-2480 | a target with its recorded evidence passes every check of finalization |
| `ReleaseRoute.ReachesReady` | connector/release/release.py:810-2822 | preparing reproducible builds of an admissible matrix and recording all native evidence reaches a directory that finalization accepts |
| `ReleaseRoute.SoundOfParts` | connector/release/release.py:4752-4916 | whether the release is sound is decided by the executables built and the signers, before any command |
| `ReleaseRoute.ReachesVerified` | connector/release/release.py:810-5094 | from there finalization succeeds, and signing succeeds, and verification accepts under the builder alone, exactly when every executable's dependencies are clean and every signer is the pinned one |
| `ConfiguredRelease.LoadTargets` | connector/release/release.py:494-541 | the target loop of the configuration accepts exactly well-formed targets with the two supported ids, each once |
| `ConfiguredRelease.LoadedIsConfigured` | connector/release/release.py:494-541 | every configuration that loads has the matrix of Linux `amd64` and `arm64` |
| `ConfiguredRelease.ConfiguredAssets` | connector/release/release.py:5609-5682 | that matrix has 56 core assets with distinct names, in every version |
| `ConfiguredRelease.ConfiguredFinalizes` | connector/release/release.py:2612-2822 | over configured targets, all or for a local build some, finalization succeeds if and only if the directory is ready: no document collides |
| `ConfiguredRelease.ConfiguredSigns` | connector/release/release.py:3345-3415 | signing an admitted directory of that matrix replaces nothing |
| `ConfiguredRelease.ConfiguredRoute` | connector/release/release.py:810-5094 | a release of that matrix is prepared and finalized, and signed and verified exactly when its parts are sound, with no condition on names |
| `PublicEvidence.PublicAssetMap` | connector/release/release.py:6063-6077 | the map of flat names to evidence paths, refused exactly when two paths flatten alike |
| `PublicEvidence.CopyAll` | connector/release/release.py:6903-6934 | exclusive copies succeed exactly when every name is new |
| `PublicEvidence.Stage` | connector/release/release.py:6937-6982 | the public directory is the core release with flat evidence and the receipt pair, or a refusal |
| `PublicEvidence.CheckSources` | connector/release/release.py:6903-6934 | accepts exactly when every source has its recorded digest and size |
| `PublicEvidence.Reconstruct` | connector/release/release.py:6985-7052 | the rebuilt core and evidence directories, or a refusal |
| `PublicEvidence.NamesApart` | connector/release/release.py:6051-6089 | flat names, receipt names and core names are pairwise disjoint |
| `PublicEvidence.CoreNamesPlain` | connector/release/release.py:486-505 | core names carry no separator when version and tokens carry none |
| `PublicEvidence.StageSucceeds` | connector/release/release.py:6937-6982 | staging an admitted receipt beside its core release never collides |
| `PublicEvidence.PublicCount` | connector/release/release.py:6985-7052 | the asset count of a staged directory is the core count and 23 + 3 per package and the receipt pair, as reconstruction demands |
| `PublicEvidence.RoundTrip` | connector/release/release.py:6937-7052 | reconstruction of a staged release succeeds exactly when its core files are the recorded ones, and returns every path with the recorded digest |
| `PublicEvidence.RoundTripExact` | connector/release/release.py:6937-7052 | without digest collisions, staging a release whose core files are the recorded ones and rebuilding it returns both directories byte for byte |
| `GateInventory.TargetInventory` | scripts/check-vulnerabilities.py:578-795 | the items one target adds: parts and SBOM of a package, SBOM of an image, and its report |
| `GateInventory.BuildInventory` | scripts/check-vulnerabilities.py:1077-1154 | refused exactly when a path is used twice; sorted otherwise |
| `GateInventory.EmittedInventory` | scripts/check-vulnerabilities.py:1325-1341 | sorted, distinct paths, every file once, 23 + 3 per target + 2 per root + 1 per container + (1 + parts) per package |
| `GateInventory.CheckInventory` | connector/release/release.py:6143-6346 | the consumer's loop accepts exactly the role and target closure with the configured count |
| `GateInventory.ConsumerMeetsGate` | connector/release/release.py:6143-6346 | the consumer accepts an emitted inventory if and only if the run had the Connector profile |
| `VulnerabilityFindings.ExtractFindings` | scripts/check-vulnerabilities.py:485-576 | the distinct findings in report order and the number of distinct packages |
| `VulnerabilityFindings.CollapseFindings` | scripts/check-vulnerabilities.py:561-576 | keeps the first finding of every identity, in order |
| `VulnerabilityFindings.LoadDispositions` | scripts/check-vulnerabilities.py:798-884 | accepts exactly distinct, live dispositions of known findings with matching terms |
| `VulnerabilityFindings.CheckSeverities` | scripts/check-vulnerabilities.py:1343-1370 | passes exactly when every severity is supported and none is blocked |
| `VulnerabilityFindings.CountFindings` | scripts/check-vulnerabilities.py:1343-1370 | every severity gets the number of findings that have it |
| `VulnerabilityFindings.Gate` | scripts/check-vulnerabilities.py:1343-1370 | passes exactly when severities are admitted and dispositions are exactly the findings |
| `VulnerabilityFindings.IdentitiesDistinct` | scripts/check-vulnerabilities.py:561-576 | identities stay distinct across all targets |
| `VulnerabilityFindings.PassedCounts` | scripts/check-vulnerabilities.py:1343-1370 | no finding is blocked, dispositions and findings are in bijection and live, and the reviewed number is the sum of the counts |
| `VulnerabilityFindings.ConsumerAcceptsCounts` | connector/release/release.py:6429-6441 | the consumer accepts a passed receipt if and only if the five severities are the policy's and no finding is critical, high or unknown |
| `VulnerabilityFindings.BlockingPolicy` | connector/release/release.py:6429-6441 | a policy that blocks those three severities always meets the consumer |
| `VulnerabilityFindings.ReviewingPolicy` | connector/release/release.py:6429-6441 | every policy that reviews one of those three severities instead of blocking it has a passed run that the consumer refuses |
| `VulnerabilityFindings.ExtractedByTarget` | scripts/check-vulnerabilities.py:485-576 | for every list of distinct targets, the findings extracted from their reports are what the gate combines |
| `GateTime.AdmittingInterval` | scripts/check-vulnerabilities.py:350-361 | for fixed evidence the admitting times are exactly one closed interval |
| `GateTime.NoGap` | scripts/check-vulnerabilities.py:350-361 | nothing between two admitting times is refused |
| `GateRun.ReadScans` | scripts/check-vulnerabilities.py:1155-1301 | the target loop succeeds exactly when every scan is current and both readings of its report accept it, with the findings, digests and package counts of all |
| `GateRun.Run` | scripts/check-vulnerabilities.py:887-1415 | a run passes exactly when the manifest is admitted and its checks hold at its time; its receipt lists every evidence file of manifest, roots and targets once in order, the digests, the counts and the reviewed number |
| `GateRun.RunInterval` | scripts/check-vulnerabilities.py:350-361 | for fixed evidence a run passes exactly at the times of one closed interval, if the checks that read no clock hold |
| `GateRun.BuiltRunInterval` | scripts/check-vulnerabilities.py:887-1415 | over the evidence a manifest was built from, a run passes exactly when the scanner is installed as pinned and the reviewed reports hold, at the times of one interval |
| `GateRun.OneReceipt` | scripts/check-vulnerabilities.py:1325-1415 | any two receipts over the same evidence are equal up to their time |
| `GateRun.Restamped` | scripts/check-vulnerabilities.py:1325-1415 | a receipt stamped with another admitting time is the receipt of that time |
| `GateRun.Replay` | scripts/check-vulnerabilities.py:1449-1487 | reproduces a receipt exactly when its time is in the window and it is what a run at its time issues |
| `GateRun.ReplayWindow` | scripts/check-vulnerabilities.py:1449-1487 | an issued receipt is replayed if and only if the current time is at most five minutes before its own and, with an age limit, within it; without one there is no end |
| `GateRun.ReplayedIsIssued` | scripts/check-vulnerabilities.py:1449-1487 | a replayed receipt is, up to its time, every receipt issued over the evidence, and its time is an admitting one |
| `GateRun.IssuedMeetsConsumer` | connector/release/release.py:6143-6441 | an issued receipt meets the consumer's closure and counts if and only if the run had the Connector profile, the policy knows the five severities and no finding is critical, high or unknown |
| `PackageIndex.IndexPackages` | scripts/vulnerability_scan_evidence.py:959-1070 | the loop builds the distinct package keys and the version index, refused exactly on an invalid package |
| `PackageIndex.IndexExact` | scripts/vulnerability_scan_evidence.py:959-1070 | the index accepts a vulnerability if and only if a listed package matches by name, compatible PURL and plain or composed version |
| `PackageIndex.ValidateResult` | scripts/vulnerability_scan_evidence.py:959-1070 | one result is accepted exactly when its packages are valid and every vulnerability belongs to one |
| `PackageIndex.ValidateReport` | scripts/vulnerability_scan_evidence.py:959-1070 | the number of distinct packages of a structured report, or a refusal |
| `PackageIndex.StructuredIsComplete` | scripts/check-vulnerabilities.py:485-576 | a structured result is complete for extraction exactly when its vulnerabilities have identifiers and severities |
| `PackageIndex.CountTwice` | scripts/check-vulnerabilities.py:485-576 | both checks of one report return the same number, and extraction fails on a structured report only over ratings or clashing identities |
| `RootPolicy.RequirementsCover` | scripts/vulnerability_release_roots.py:1698-1808 | every mapped target of an admitted profile keeps its fixed mapping, and its root is required with the fixed kind |
| `RootPolicy.RequiredRoots` | scripts/vulnerability_release_roots.py:1698-1808 | nothing but registered roots, with their registered kinds, is required |
| `RootAdapters.BuildConnector` | scripts/vulnerability_release_roots.py:599-800 | succeeds exactly on the ordered matrix with distinct evidence names, with one row per package |
| `RootAdapters.ConnectorSelectors` | scripts/vulnerability_release_roots.py:802-818 | the table has exactly the fixed target and format selectors |
| `RootAdapters.BuildControl` | scripts/vulnerability_release_roots.py:839-975 | succeeds exactly on the three components with distinct evidence names |
| `RootAdapters.BuildServer` | scripts/vulnerability_release_roots.py:1264-1544 | succeeds exactly on both modes with admitted deliveries, the fixed part names, content-addressed SBOMs and distinct evidence names |
| `ReleaseRoots.ParseDescriptors` | scripts/vulnerability_release_roots.py:1811-1888 | accepts exactly the required ids with their kinds and four disjoint paths per pair of roots |
| `ReleaseRoots.Materialize` | scripts/vulnerability_release_roots.py:1889-1930 | reads the roots in id order and refuses a second root of a kind |
| `ReleaseRoots.Assemble` | scripts/vulnerability_release_roots.py:1930-1976 | constructs Control, Server and Connector in this order; no internal-error branch is taken |
| `ReleaseRoots.LoadRoots` | scripts/vulnerability_release_roots.py:1811-1976 | succeeds exactly when the specification does, with its roots, and never ends in an internal error |
| `ReleaseRoots.LoadServes` | scripts/vulnerability_release_roots.py:1811-1976 | every required root has a complete adapter of the required kind |
| `ReleaseRoots.ReloadSame` | scripts/check-vulnerabilities.py:926-959 | loading the records of a load gives the same records and adapters |
| `RootTargets.ServePackage` | scripts/vulnerability_release_roots.py:1659-1690 | a server package is derived exactly when its parts and SBOM are staged as declared |
| `RootTargets.DerivedIsRegistered` | scripts/vulnerability_release_roots.py:1979-1999 | whatever is derived is the registered target of its selector, of the registered kind, from a root of the registered root's kind: nothing outside the registry |
| `RootTargets.TargetsServed` | scripts/vulnerability_release_roots.py:1751-1999 | with a profile's roots loaded every mapped target resolves to itself with its kind; only file evidence can fail |
| `StagedPaths.CleanAgain` | scripts/vulnerability_scan_evidence.py:198-213 | a recorded path is its own clean form and relative |
| `ManifestBuilder.AppendRecords` | scripts/build-vulnerability-manifest.py:249-347 | one record per input in order, or a refusal when any has none |
| `ManifestBuilder.ShareScanner` | scripts/build-vulnerability-manifest.py:349-373 | succeeds exactly when every recorded execution names one scanner |
| `ManifestBuilder.Build` | scripts/build-vulnerability-manifest.py:167-389 | writes exactly the specified manifest or nothing |
| `ManifestBuilder.CheckContent` | scripts/check-vulnerabilities.py:617-700 | accepts exactly the records whose staged files are as recorded |
| `ManifestBuilder.CheckEntries` | scripts/check-vulnerabilities.py:1155-1301 | the target loop accepts exactly when every entry equals what its root derives, with its receipt and scanner |
| `ManifestBuilder.CheckManifest` | scripts/check-vulnerabilities.py:903-1301 | accepts exactly the manifests with canonical roots, the profile's targets and one scanner |
| `ManifestAgreement.DerivedContent` | scripts/check-vulnerabilities.py:641-700 | a normalized derived target names files that the gate finds as recorded, whole or split |
| `ManifestAgreement.BuiltIsAdmitted` | scripts/build-vulnerability-manifest.py:249-387 | over unchanged evidence every manifest a build writes is admitted by the gate |
| `ManifestAgreement.AdmittedIsRebuilt` | scripts/check-vulnerabilities.py:943-1301 | an admitted manifest is what a build from its own names, paths and descriptors writes, up to path form and order |
| `ManifestAgreement.RebuildSame` | scripts/build-vulnerability-manifest.py:249-387 | building again from a built manifest changes nothing |
| `SplitDelivery.StreamPart` | scripts/vulnerability_release_roots.py:1617-1657 | any splitting into blocks feeds both digests exactly the file and counts its size |
| `SplitDelivery.JoinedSize` | scripts/vulnerability_release_roots.py:1617-1657 | matching parts join to their declared total |
| `SplitDelivery.AdapterVerifies` | scripts/vulnerability_release_roots.py:1617-1657 | accepts exactly when every part is the declared file and they join to the package |
| `SplitDelivery.GateVerifies` | scripts/check-vulnerabilities.py:641-686 | accepts exactly ordered, complete parts that join to the package |
| `SplitDelivery.SameDeliveries` | scripts/check-vulnerabilities.py:641-686 | every package a root admits has the shape the gate demands, so both accept the same files, and these add up to the package |
| `SplitDelivery.PartNamesOrdered` | scripts/vulnerability_release_roots.py:1487-1525 | part names are distinct and sort as text in index order, for any count |
| `SplitDelivery.PartsInOrder` | scripts/vulnerability_release_roots.py:1487-1525 | the parts of an admitted package are distinct files, listed in the order of their names |
| `MigrationGraph.MigrationHead` | deploy/release/control_images.py:445-483 | returns the head exactly when the collected sets leave one |
| `MigrationGraph.OneHeadIsChain` | deploy/release/control_images.py:445-483 | a history is one chain if and only if its links stay inside, never cycle and leave one head; the chain ends in that head |
| `MigrationGraph.BranchShows` | deploy/release/control_images.py:445-483 | a shared parent or a second root gives at least two heads |
| `MigrationGraph.HeadIffChain` | deploy/release/control_images.py:445-483 | a directory is a linear history if and only if the check admits it and revisions are distinct, parents present and links acyclic |
| `MigrationGraph.CycleAdmitted` | deploy/release/control_images.py:445-483 | a root beside a cycle of two is admitted and not linear |
| `MigrationGraph.MissingAdmitted` | deploy/release/control_images.py:445-483 | a migration whose parent is missing is admitted and not linear |
| `MigrationGraph.RepeatedAdmitted` | deploy/release/control_images.py:445-483 | a repeated revision is admitted and not linear |
| `ReleaseSnapshot.WriteChunk` | deploy/release/control_images.py:112-225 | any sequence of short writes appends the chunk; a write of nothing fails |
| `ReleaseSnapshot.CopyFile` | deploy/release/control_images.py:112-225 | any sequence of short reads copies bytes the file held at their offsets while it was read, up to its end |
| `ReleaseSnapshot.StableCopy` | deploy/release/control_images.py:112-225 | equal metadata before and after makes the copy the file, byte for byte |
| `ReleaseSnapshot.SnapshotFile` | deploy/release/control_images.py:128-205 | a success means a plain file, unchanged metadata, the bytes held throughout and sizes within both limits; a quiet file is copied exactly when it fits |
| `ReleaseSnapshot.Snapshot` | deploy/release/control_images.py:112-225 | a success is the listed directory, unchanged in its names, every file plain and with unchanged metadata while it held exactly the copied bytes, within 128 MiB and 512 MiB; a quiet directory is copied exactly when it fits |
| `DurableOutbox.RowsKept` | migrations/versions/20260713_0003_durable_outbox.py:151-172 | the rewrite keeps every row in place and changes only keys of later duplicates, to at most 128 characters |
| `DurableOutbox.EarliestKept` | migrations/versions/20260713_0003_durable_outbox.py:151-172 | every group has exactly one row ranked first, its earliest; any other row stays as it is if and only if its key is already its own new key |
| `DurableOutbox.RewrittenToItself` | migrations/versions/20260713_0003_durable_outbox.py:163-170 | a key survives its rewriting if and only if it has 128 characters and ends in the mark and its own identifier |
| `DurableOutbox.RowUnchanged` | migrations/versions/20260713_0003_durable_outbox.py:151-172 | a row is unchanged if and only if it is the first of its group or its key is its own new key |
| `DurableOutbox.OnlyEarliestUnchanged` | migrations/versions/20260713_0003_durable_outbox.py:151-177 | when the downgrade can succeed, the unchanged rows are exactly the earliest of each group |
| `DurableOutbox.SelfKeyExample` | migrations/versions/20260713_0003_durable_outbox.py:151-172 | two rows, unique under the scoped constraint, of which the later duplicate stays as it is |
| `DurableOutbox.NewKeyLength` | migrations/versions/20260713_0003_durable_outbox.py:163-170 | rewritten keys have at most 128 characters |
| `DurableOutbox.UniquenessRestored` | migrations/versions/20260713_0003_durable_outbox.py:151-177 | owner and key are unique again if and only if no kept key is already a new key |
| `DurableOutbox.UpgradeTakenBack` | migrations/versions/20260713_0003_durable_outbox.py:53-178 | upgrade followed by downgrade restores every row |
| `DurableOutbox.TakenKeyExample` | migrations/versions/20260713_0003_durable_outbox.py:151-177 | three rows whose downgrade fails on uniqueness |
| `DurableOutbox.RowNumber` | migrations/versions/20260713_0003_durable_outbox.py:154-162 | a rank above one means an earlier row of the same owner and key |
| `DurableOutbox.Database.CursorsAcknowledged` | migrations/versions/20260713_0003_durable_outbox.py:18-50 | true exactly when every device cursor is acknowledged |
| `DurableOutbox.Database.Upgrade` | migrations/versions/20260713_0003_durable_outbox.py:53-78 | succeeds exactly when acknowledged; adds the scope to every row; a failure changes nothing |
| `DurableOutbox.Database.RewriteKeys` | migrations/versions/20260713_0003_durable_outbox.py:152-172 | the ranked update is the specified rewrite of all rows |
| `DurableOutbox.Database.Downgrade` | migrations/versions/20260713_0003_durable_outbox.py:145-178 | succeeds exactly when everything is acknowledged and no kept key is taken; a failure changes nothing |
| `ObservabilityWindow.AdmittingInterval` | deploy/monitoring/observability-admission.py:343-493 | for fixed receipts the admitting times are one interval of at most 3 min 30 s |
| `ObservabilityWindow.AdmittingSpan` | deploy/monitoring/observability-admission.py:343-493 | two admitting times are never further apart |
| `ObservabilityWindow.SinceDeployment` | deploy/monitoring/observability-admission.py:408-493 | admission implies the stability time since deployment; the backup completes at least that time less eight hours and thirty seconds, and at least one second, after it |
| `ObservabilityWindow.BackupAttained` | deploy/monitoring/observability-admission.py:408-493 | both lower bounds are attained by receipts with whole-second times, for every stability time the check allows |
| `ObservabilityWindow.SpanAttained` | deploy/monitoring/observability-admission.py:343-493 | the longest interval is attained by receipts with whole-second times, for every stability time the check allows |
| `PublicTree.Visit` | scripts/check-public-tree.py:416-544 | one directory's failures and the subdirectories left to walk after pruning in place |
| `PublicTree.Traverse` | scripts/check-public-tree.py:416-541 | the walk with its shared list reports exactly the failures of the recursive walk, in order |
| `PublicTree.WalkClean` | scripts/check-public-tree.py:416-544 | nothing is reported if and only if the directory lists and every entry is clean |
| `PublicTree.CleanReaches` | scripts/check-public-tree.py:416-544 | a clean walk has visited and passed every entry at every depth |
| `PublicTree.PassingIsClean` | scripts/check-public-tree.py:416-544 | when everything below passes, nothing is reported |
| `PublicTree.CleanWalk` | scripts/check-public-tree.py:416-541 | a walk is clean if and only if everything outside the root's `.git` passes its path and byte policy |
| `PublicSources.ScanListing` | scripts/check-public-tree.py:363-412 | the loop over a Git listing adds the failures of its entries in order |
| `PublicSources.ScanRepository` | scripts/check-public-tree.py:347-413 | the failures of the index, then of the commit at HEAD |
| `PublicSources.Scan` | scripts/check-public-tree.py:416-544 | the failures of the walk, then of the repository |
| `PublicSources.CleanScan` | scripts/check-public-tree.py:416-544 | a scan is clean if and only if every entry of the tree, every file of the index and every file of the commit at HEAD passes its path and byte policy |

## Left out

- Exact-key and regular-expression shape checks: documents are well-typed records; where a check matters to a theorem it is a field or predicate.
- Calls to cosign, rpm, gpg, codesign, git, Trivy and the Go toolchain: their verdicts are parameters, so `verify`'s cryptographic signature checks are not part of this model.
- JSON printing and parsing, tar and gzip decoding, hash functions: uninterpreted; where digests must determine bytes the theorem says so.
- Symlinks, inodes, owners, modes and `fsync`: a file is stable or not, present or not.
- Release-context checks of the environment before `prepare` and receipts written by `sign` and `verify`: easy single checks.
- Remaining fields of root documents and scan execution receipts: one `sound` flag each, the same for every reader.
- Image references and platforms in derived containers: fixed by repository and digest and by a constant.
- Scanner installation, configuration and database identity checks of the manifest: flat comparisons that the builder does not make.
- The text tests of disposition owners and rationales: given as predicates.
- File and directory clashes below one evidence path, and the order in which staged files are copied: the tree is a map from paths to bytes.
- `path_policy_failures` and `scan_bytes`: the policy of a path and of its bytes is a parameter of the scan; upper-casing beyond ASCII is in it. A Git command that cannot be started ends the program and is not modelled.
- `normalize_trivy_report`, argument vectors and `_atomic_publish`: copies and list building without a deep property.
- ReleaseSnapshot.Snapshot: the sizes a file takes over time have some bound, which the code does not state, because reading a file that grows without end never finishes.
- ReleaseSnapshot.CopyFile: the same bound on the file it reads.
- PublicEvidence.RoundTrip: version and tokens carry no `/`; the configuration's safe-name pattern, which guarantees this, is not modelled further.
- PublicEvidence.RoundTripExact: assumes a digest determines its bytes, since the rebuilt evidence is compared by digest only.
- ManifestBuilder.CheckManifest: states the checks on roots, targets, receipts and scanner equality; the times are in GateRun, where the scanner's installation, configuration and database identities are one verdict.
- RootAdapters.BuildServer: the remaining fields of the document, among them those only compared when roots are bound, are one flag.
- ReleaseSafety.RunPhases: a working directory of a matrix with Darwin targets is between two bounds, because executable evidence and installers arrive in any order; a phase fixes names, and the contents of a finalized directory are in ReleaseVerification.FinalizedRead.
- ReleaseSafety.Execute: a signer that fails after writing part of its own bundle and a failing removal of the scratch tree are not modelled.
- Licence and constraint checks, smoke client, relays, HTTP and the web client: flat comparisons or plumbing.
