# Verified models of the image factory

The repository builds and publishes an operating-system image. Around the orchestration it keeps small pieces of
logic on which its guarantees rest. This project models those pieces in Dafny and proves what they promise; from this
directory, `dafny verify dfyconfig.toml` checks all of it. Code that changes state in the repository is modelled by
methods and classes proved against a specification function or predicate; pure code by functions; and the promises are
lemmas about those.

| area | files |
|---|---|
| Stage boundary guards | `Handoff.dfy`, `Merge.dfy`, `Rebuild.dfy`, `BuildTree.dfy`, `Prepare.dfy`, `HardLink.dfy`, `PrivilegeDrop.dfy`, `ProcessTree.dfy` |
| Moving the source pin | `PinText.dfy`, `PinDoc.dfy`, `Repin.dfy`, `RepinLanding.dfy`, `RepinSafety.dfy`, `RepinAgain.dfy` |
| Token accounting | `TokenUsage.dfy`, `ClaudeLog.dfy`, `CodexLog.dfy`, `CodexCounters.dfy`, `TokenSummary.dfy`, `TokenReport.dfy` |
| Refresh and publication | `Versions.dfy`, `ChannelRefresh.dfy`, `ImageIdentity.dfy`, `RpmInventory.dfy`, `SignaturePolicy.dfy`, `BaseDiff.dfy`, `BumpGuard.dfy` |
| Flatpak metadata | `MetadataReaders.dfy` |
| Shared | `Orders.dfy`, `Strings.dfy`, `Json.dfy` |

Outside facts are parameters: SHA-256 (never assumed injective: where content is fixed by a digest, the conclusion is
"equal, or the archives hold, under one name, two texts with one hash"), JSON decoding of blobs, the calendar, the
argument list a Flatpak manifest yields, the order of directory listings, and what git answers. External commands
appear only as steps on the modelled state, and a scan of `/proc` or of a directory is one atomic snapshot.

Where a promise does not hold of the code as it stands, the code is modelled as it is, an input that breaks the promise
is given, and the exact condition is proved:

- A Codex counter that falls inside a segment may still add exactly its peak: 5 then 3 does
  (`CodexCounters.FallCanAddThePeak`). The sum equals the peak if and only if the counter never rises again after a
  fall (`CodexCounters.GrowthAgainstPeak`); it equals the final value if and only if it never falls
  (`CodexCounters.GrowthIsFinalPlusFalls`).
- `prepare` changes the owner of an inode, so a second name of a scratch file outside the scratch trees changes owner
  too: with `source/f` and `bridge-cargo/f` one file, `prepare` goes through and the build may write the source file
  (`HardLink.HardLinkDefeatsOwnership`). Ownership is exactly the scratch trees if and only if no scratch file is
  hard-linked from outside (`Prepare.ExactOwnership`).
- The metadata grammar admits a group named DEFAULT, which configparser does not treat as a group
  (`MetadataReaders.DefaultGroupDiffers`). The readers agree if and only if no entry stands in it
  (`MetadataReaders.ReadersAgree`).
- The system profile's gate accepts one reviewed digest without reading its records. Had a refresh published that
  digest, the next one could go back (`ChannelRefresh.BootstrapDigestHidesABaseline`). On every reachable registry a
  record below the last published one is accepted if and only if the channel is there and holds that digest
  (`ChannelRefresh.LowerAcceptedExactly`); where no move from the earlier of two up to the later published it, the
  later is not below the earlier (`ChannelRefresh.ChannelsNeverGoBack`).

## Model

| member | source | states |
|---|---|---|
| Handoff.CheckEntry | build_files/firewall/snitchwatch-system-handoff.py:109-130 | one entry passes exactly when owner, special bits, extended attributes, type, place, mode and link count are all as wanted |
| Handoff.Check | build_files/firewall/snitchwatch-system-handoff.py:96-134 | accepts if and only if the root is a directory, every entry is allowed and no expected file is missing; the files it returns are exactly the expected ones |
| Handoff.AcceptedIsExact | build_files/firewall/snitchwatch-system-handoff.py:96-134 | an accepted tree holds the allowlist and its ancestors and nothing else: the files are the allowlist with exact modes and single links, the directories its ancestors |
| Handoff.MakeParents | build_files/firewall/snitchwatch-system-handoff.py:164-166 | the parents of a name become plain directories of mode 0755, everything else in the destination stays |
| Handoff.ExportOne | build_files/firewall/snitchwatch-system-handoff.py:161-169 | one file goes over exactly when its source is a regular single-link file, with its bytes and mode |
| Handoff.Export | build_files/firewall/snitchwatch-system-handoff.py:153-170 | succeeds if and only if the destination is absent and every source is exportable; the destination is then exactly the built tree |
| Handoff.ExportedIsAccepted | build_files/firewall/snitchwatch-system-handoff.py:153-170 | what `export` builds from an allowlist with plain modes is accepted by `check` for that allowlist and holds the source bytes |
| Handoff.HandoffRoundTrip | build_files/firewall/snitchwatch-system-handoff.py:60-170 | for every handoff kind, an exported tree is accepted on the receiving side with the source bytes |
| Handoff.AllowlistModes | build_files/firewall/snitchwatch-system-handoff.py:60-76 | every allowlisted mode of every kind is free of setuid, setgid and sticky bits |
| Handoff.FixedKindsArePrefixFree | build_files/firewall/snitchwatch-system-handoff.py:60-68 | no allowlisted file of the scanner and bridge kinds is a directory above another, so their export depends on the sources alone |
| Merge.MergeFiles | build_files/firewall/snitchwatch-system-handoff.py:187-196 | the files of one directory are created until the first that exists in the destination |
| Merge.MergeBase | build_files/firewall/snitchwatch-system-handoff.py:178-196 | one directory of the walk: refused on a non-directory or an existing file, otherwise added |
| Merge.MergeOverlay | build_files/firewall/snitchwatch-system-handoff.py:173-197 | refuses if and only if a source file exists in the destination or a source directory is there as something else; in every outcome each old entry is unchanged |
| Merge.MergeIsUnion | build_files/firewall/snitchwatch-system-handoff.py:173-197 | on success the destination is the old entries plus every overlay file with its bytes and mode and the overlay directories, and nothing else |
| Merge.MergeIsTree | build_files/firewall/snitchwatch-system-handoff.py:180-186 | the merged destination is again a tree: every entry lies in a directory |
| Merge.MergeTwiceRefused | build_files/firewall/snitchwatch-system-handoff.py:190-191 | merging an overlay that holds a file a second time is refused |
| Rebuild.ReadChunks | build_files/firewall/snitchwatch-system-handoff.py:242-247 | a member is read whole exactly when it does not outgrow its stated size, and never more than one byte beyond it is taken |
| Rebuild.TarMembers | build_files/firewall/snitchwatch-system-handoff.py:223-251 | the members are listed if and only if no member outgrows its size and together they fit the bound; at most the bound and one byte is taken into memory whatever the archive claims |
| Rebuild.FirstDifference | build_files/firewall/snitchwatch-system-handoff.py:263 | the offset ends the longest common prefix of the two tarballs |
| Rebuild.Differing | build_files/firewall/snitchwatch-system-handoff.py:270 | sorted, exactly the names whose entries differ, and empty only for equal listings |
| Rebuild.CompareBridge | build_files/firewall/snitchwatch-system-handoff.py:200-274 | identical if and only if both tarballs are readable, are different files and hold the same bytes; otherwise the first differing offset and, sorted, the first twenty of exactly the differing members with the count of the rest |
| ProcessTree.NextKeepsForest | build_files/firewall/snitchwatch-system-unpriv.py:204-222 | with orphans going to the caller or a living subreaping ancestor, no fork, exit or collection takes a process out of the forest below the caller |
| ProcessTree.NoChildNoDescendant | build_files/firewall/snitchwatch-system-unpriv.py:186-189 | when the caller has no child, it has no descendant at any depth |
| ProcessTree.Kernel.Children | build_files/firewall/snitchwatch-system-unpriv.py:170-180 | one scan lists exactly the caller's children, each once |
| ProcessTree.Round | build_files/firewall/snitchwatch-system-unpriv.py:190-199 | one pass kills and collects every listed child; undisturbed, their children move up one level and nothing else changes |
| ProcessTree.RoundLowersByOne | build_files/firewall/snitchwatch-system-unpriv.py:186-200 | an undisturbed pass shortens every line of descent by exactly one |
| ProcessTree.HeightIsLongestChain | build_files/firewall/snitchwatch-system-unpriv.py:183-201 | height at most h, as a numbering of generations, is the absence of a line of descent of h + 1 processes |
| ProcessTree.KillLeftovers | build_files/firewall/snitchwatch-system-unpriv.py:183-201 | a normal return leaves no descendant at any depth whatever they did meanwhile; descendants that do not fork and a forest lower than the round bound always return; an undisturbed forest returns if and only if its height is below the bound |
| PrivilegeDrop.DropPrivileges | build_files/firewall/snitchwatch-system-unpriv.py:147-167 | for any kernel and any status file: returns exactly when no call is refused and the final status shows the dropped state |
| PrivilegeDrop.NormalReturnIsDropped | build_files/firewall/snitchwatch-system-unpriv.py:135-140 | a truthful status file has no problem exactly when ids, groups, all five capability sets and no_new_privs are as wanted |
| PrivilegeDrop.DropsClearBounding | build_files/firewall/snitchwatch-system-unpriv.py:151-154 | the loop clears exactly the bounding bits that were set, up to the last capability, and nothing else |
| PrivilegeDrop.RestUnderLinux | build_files/firewall/snitchwatch-system-unpriv.py:155-163 | the credentials after the calls that follow the bounding loop, and when each is allowed |
| PrivilegeDrop.DropSucceedsExactlyWhenReady | build_files/firewall/snitchwatch-system-unpriv.py:147-167 | under the credential rules of Linux the sequence as written ends fully dropped if and only if the caller was ready |
| PrivilegeDrop.RootIsReady | build_files/firewall/snitchwatch-system-unpriv.py:147-163 | root with CAP_SETPCAP, CAP_SETGID and CAP_SETUID and no bounding bit above the last capability is ready |
| PrivilegeDrop.UidBeforeGroupsFails | build_files/firewall/snitchwatch-system-unpriv.py:159-161 | giving up the uid before the groups cannot succeed |
| BuildTree.Walk | build_files/firewall/snitchwatch-system-unpriv.py:224-243 | the entries are exactly the names reached below the top without crossing a device, a symbolic link or a skipped tree |
| Prepare.SourceProblems | build_files/firewall/snitchwatch-system-unpriv.py:254-266 | lists exactly the entries with a wrong owner or mode; empty if and only if the tree is clean |
| Prepare.OwnedByBuildIds | build_files/firewall/snitchwatch-system-unpriv.py:246-251 | lists exactly the walked entries on the top's device that belong to the build uid or gid |
| Prepare.Screen | build_files/firewall/snitchwatch-system-unpriv.py:277-291 | goes through if and only if parents, read-only trees, ownership and given scratch directories are as demanded |
| Prepare.MakeScratch | build_files/firewall/snitchwatch-system-unpriv.py:292-295 | makes every new scratch directory, or stops at the first that exists with exactly the ones before it made; no old name or inode changes |
| Prepare.HandOver | build_files/firewall/snitchwatch-system-unpriv.py:296-300 | one scratch tree is handed over inode by inode, up to the first entry that is neither file nor directory |
| Prepare.Prepare | build_files/firewall/snitchwatch-system-unpriv.py:275-301 | accepts if and only if every check passes; the result is the tree with the scratch directories made and exactly the scratch inodes handed over; a refusal leaves the tree as it was, or with exactly the directories before the first that exists, or with all of them made and only scratch inodes changed in owner |
| Prepare.OwnedIsScratchInode | build_files/firewall/snitchwatch-system-unpriv.py:285-300 | after success a name in view belongs to the build uid or gid exactly when its inode is a scratch inode |
| Prepare.ScratchIsOwned | build_files/firewall/snitchwatch-system-unpriv.py:296-300 | after success every scratch path has the build uid and gid |
| Prepare.ExactOwnership | build_files/firewall/snitchwatch-system-unpriv.py:275-301 | the paths owned by the build are exactly the scratch trees if and only if, in the tree as it was before, no name in view outside them shares a file with a scratch path |
| HardLink.HardLinkDefeatsOwnership | build_files/firewall/snitchwatch-system-unpriv.py:275-301 | a tree with a file of a read-only directory linked into a scratch directory is accepted, and afterwards the build may write that file under its read-only name |
| Prepare.ReadOnlyStaysReadOnly | build_files/firewall/snitchwatch-system-unpriv.py:254-301 | after success a non-symlink entry of a read-only tree is writable by the build only as a second name of an owner-writable scratch file |
| Prepare.WalkIsWholeTree | build_files/firewall/snitchwatch-system-unpriv.py:224-243 | on one device, without skipped trees, the walk misses nothing below its top |
| PinText.SubByLine | ci/repin-snitchwatch.py:47-55 | where values close on their line, the multi-line replacement over characters is the replacement line by line, and counts the same |
| PinText.SubOnce | ci/repin-snitchwatch.py:47-55 | a single match is replaced and every other line stays |
| PinText.BlockOnce | ci/repin-snitchwatch.py:68-75 | the one block with the header gets the new lines up to its own closing bracket, and every other line stays |
| PinDoc.SetKeyUpdates | ci/repin-snitchwatch.py:54-55 | on a pretty-printed document `set_key` is the update of that one key |
| PinDoc.SetTableUpdates | ci/repin-snitchwatch.py:73-75 | `set_source_files` is the update of that one table |
| PinDoc.SetListUpdates | ci/repin-snitchwatch.py:68-70 | `set_finish_args` is the update of that one list |
| PinDoc.SetNativeUpdates | ci/repin-snitchwatch.py:78-85 | `set_native` sets the three keys of the native table and leaves the rest of the document |
| PinDoc.PrintInjective | ci/repin-snitchwatch.py:98 | a pretty-printed text has one reading, so a text edit that prints an updated document changes what is parsed to exactly that |
| Repin.PinsTextMeaning | ci/repin-snitchwatch.py:97-109 | the five pins edits change the five named keys when the file is parsed again and no other key |
| RepinLanding.PlanFixtures | ci/repin-snitchwatch.py:113-123 | the fixtures to refresh, in path order; refused when two paths share the base name of a fixture |
| RepinLanding.PlanPins | ci/repin-snitchwatch.py:88-130 | the plan in write order: pins, digest line for those pins, fixtures, policy; refused exactly where the tool refuses |
| RepinLanding.Checkout.Apply | ci/repin-snitchwatch.py:168-177 | stopped after any number of entries, the tree holds exactly those entries; the files named, and replaced if the run writes, are in order those that did not hold the bytes when their turn came; a dry call changes nothing |
| RepinLanding.FindReplaced | ci/repin-snitchwatch.py:111 | after the replacement the verifier's digest line reads back as the new digest |
| RepinLanding.NativeMeaning | ci/repin-snitchwatch.py:78-85 | parsed again, the policy's native table is the new triple and every other key is unchanged |
| RepinLanding.PolicyTextMeaning | ci/repin-snitchwatch.py:150-152 | the policy edits set commit, tree and timestamp and leave the native table and every other key |
| RepinSafety.AcceptsExactly | ci/repin-snitchwatch.py:133-147 | on well-shaped files the second command accepts if and only if the two triples agree and the digest line names these pins |
| RepinSafety.WantedExactly | ci/repin-snitchwatch.py:100-102 | the new paths, strictly sorted, are the old ones outside the scanner crates and every tracked scanner file |
| RepinSafety.HalfLandedRefused | ci/repin-snitchwatch.py:109-177 | if the plan stops after any k writes, the second command accepts if and only if none or all were written, or the source did not move and pins and digest line fit |
| RepinSafety.MovedCommitNeedsAll | ci/repin-snitchwatch.py:109-177 | when the new source commit differs from the pinned one, only none or all of the writes are accepted |
| RepinAgain.SubQuotedTwice | ci/repin-snitchwatch.py:47-51 | replacing a quoted value a second time finds the same places and changes nothing |
| RepinAgain.FixturesDistinct | ci/repin-snitchwatch.py:112-123 | no fixture is planned twice |
| RepinAgain.DryRunAnnounces | ci/repin-snitchwatch.py:168-177 | a dry run names, in the same order, exactly the files a writing run replaces: the planned ones whose bytes the tree does not hold |
| RepinAgain.FinishedIsStable | ci/repin-snitchwatch.py:88-130 | planning again from the finished tree gives the same plan, every byte of which the tree already holds |
| TokenUsage.IndexAdditive | scripts/agent-token-report.py:29-34 | over exact reals, the weighted index of two usages added is the sum of their indices |
| ClaudeLog.ReadReport | scripts/agent-token-report.py:111-125 | one assistant record leaves, for every message seen, the largest counters reported so far under the first record's labels |
| ClaudeLog.ReadResults | scripts/agent-token-report.py:127-138 | one user record's tool results are counted once per key, under the tool's name |
| ClaudeLog.Claude | scripts/agent-token-report.py:89-141 | over all selected files: one sample per message with its largest counters, and tool tallies of the distinct results |
| ClaudeLog.BestIsMaximum | scripts/agent-token-report.py:115-125 | a message's final counters bound every record of it, and each counter is one of the reported ones |
| ClaudeLog.OrderAndReplayIrrelevant | scripts/agent-token-report.py:113-125 | two sets of logs whose selected files hold the same records, in whatever files, order and number, give every message the same final counters |
| ClaudeLog.OneSamplePerMessage | scripts/agent-token-report.py:122-125 | as many samples as distinct message ids, each total the sum of its four counters, one turn each |
| ClaudeLog.CallsAreDistinctKeys | scripts/agent-token-report.py:130-138 | tool calls total the number of distinct (uuid or path, tool id, index) keys |
| ClaudeLog.GrandTotalStable | scripts/agent-token-report.py:113-139 | two such sets of logs report the same grand total |
| CodexLog.ReadSession | scripts/agent-token-report.py:151-194 | one file's loop yields the samples of the record-by-record specification, each worth one turn |
| CodexLog.Codex | scripts/agent-token-report.py:144-196 | over all files: the samples in order and the number of files that contributed |
| CodexLog.FilterCommutes | scripts/agent-token-report.py:150-194 | for every start date and project filter the samples are the unfiltered samples, filtered afterwards |
| CodexLog.AdjacentRangesAddUp | scripts/agent-token-report.py:164-194 | the totals of two adjacent date ranges add up to the total of both |
| CodexCounters.RepeatAddsNothing | scripts/agent-token-report.py:184-194 | a reading equal to the previous one adds no sample, whatever the filter |
| CodexCounters.SamplesCarryDeltas | scripts/agent-token-report.py:183-194 | the reported usage of a dated file is, counter by counter, the sum of its deltas |
| CodexCounters.TotalTelescopes | scripts/agent-token-report.py:179-194 | the total's deltas sum to the last value before each strict decrease plus the final value |
| CodexCounters.ReportedTotal | scripts/agent-token-report.py:150-194 | the same, end to end, for the total a dated file reports |
| CodexCounters.AddedBySegment | scripts/agent-token-report.py:183-188 | the segments are the readings cut at strict decreases of the total, and every counter's deltas sum to its growth over them |
| CodexCounters.GrowthIsFinalPlusFalls | scripts/agent-token-report.py:184-188 | a counter's growth in a segment is its final value plus what it lost on the way, zero loss exactly when it never falls |
| CodexCounters.GrowthAgainstPeak | scripts/agent-token-report.py:184-188 | the growth is at least the segment's maximum, and equals it if and only if the counter never rises after a fall |
| CodexCounters.FallCanAddThePeak | scripts/agent-token-report.py:184-188 | a counter that reads 5 and then 3 in one segment falls and yet adds exactly its peak |
| TokenSummary.SortedRows | scripts/agent-token-report.py:211-213 | rows strictly sorted by key, one per key that occurs, each the sum of exactly its samples |
| TokenSummary.Summarize | scripts/agent-token-report.py:199-213 | the overall total and, for day, project, kind and model, such a table |
| TokenSummary.GroupsConserve | scripts/agent-token-report.py:204-213 | in every dimension the rows add up to the overall total in every field and in the weighted index |
| TokenSummary.RowsBounded | scripts/agent-token-report.py:201-213 | for samples of one turn each, no row of any table reports more large-context turns than turns, and a table's turns are as many as the samples |
| TokenReport.Report | scripts/agent-token-report.py:216-225 | from the logs to the report: in both sections every table adds up to the total in every field and in the index and no line has more large-context turns than turns; Claude's turns are the distinct message ids and its total the four counters, Codex's total is that of the filtered samples |
| MetadataReaders.BadLine | system_files/usr/libexec/bazzite-tower-snitchwatch-common.py:486-488 | the first line the grammar refuses, or none exactly when every line matches |
| MetadataReaders.SameLines | system_files/usr/libexec/bazzite-tower-snitchwatch-common.py:486-490 | the lines the readers see are the lines the grammar is checked on |
| MetadataReaders.ReadersAgree | system_files/usr/libexec/bazzite-tower-snitchwatch-common.py:443-492 | on a canonical text configparser accepts, the key-file reader accepts too, and both read the same sequence of group, key and value if and only if no entry stands in a group named DEFAULT |
| MetadataReaders.ReadersAgreeWithoutDefault | system_files/usr/libexec/bazzite-tower-snitchwatch-common.py:443-492 | without a DEFAULT header the two readings are equal |
| MetadataReaders.DefaultGroupDiffers | system_files/usr/libexec/bazzite-tower-snitchwatch-common.py:448-490 | a canonical text with a DEFAULT group that the two read differently |
| Versions.KernelRoundTrip | ci/base-refresh.py:75-80 | every six-part kernel tuple is parsed back from its spelling |
| Versions.BaseOrder | ci/base-refresh.py:70-72 | comparing base versions as tuples is comparing their fixed-width strings |
| ChannelRefresh.Baseline | ci/base-refresh.py:302-329 | the gate accepts exactly: the reviewed recovery attempt with its evidence when the channel is missing; else a signed digest that is the reviewed one or whose records all are of this workflow and profile and none higher |
| ChannelRefresh.RecoveryStartsFresh | ci/base-refresh.py:283-317 | the missing-tag path is open only to attempt 1 of number 2 and only while nothing of the profile has been published |
| ChannelRefresh.StepKeeps | ci/base-refresh.py:302-329 | every step, accepted or refused, partly moved or interrupted, keeps the registry invariants |
| ChannelRefresh.ChannelsNeverGoBack | ci/base-refresh.py:276-329 | over every history, of two moves of a profile's channels the later has a base version and a kernel at least as high, on both legacy aliases, even when a move stopped after `stable`; for the system profile, unless the digest its gate lets pass unread was published from the earlier move on and before the later |
| ChannelRefresh.LowerAcceptedExactly | ci/base-refresh.py:302-329 | on every reachable registry a publisher's record below the one last published on the first channel is accepted if and only if that channel is there and holds the profile's bootstrap digest |
| ChannelRefresh.LatestNeverAhead | ci/base-refresh.py:302-329 | what was last published on `stable` is at least as high as anything ever published on `latest` |
| ChannelRefresh.PublishedAboveFloor | ci/base-refresh.py:106-110 | everything a refresh published on a channel is above the policy floor |
| ChannelRefresh.RecoveryAtMostOnce | ci/base-refresh.py:308-317 | the missing-tag path is taken at most once |
| ChannelRefresh.BootstrapDigestHidesABaseline | ci/base-refresh.py:321-322 | for any record above the floor and any lower one, a history that publishes the first with the bootstrap digest and the second after it |
| ImageIdentity.Pairs | ci/r13-publication.py:34-39 | an object is read only if no field repeats, and then holds exactly its fields |
| ImageIdentity.HashNamesOneValue | ci/r13-publication.py:69-75 | two receipts with one name are equal or are themselves two texts with one hash, and one value has one name and one spelling |
| ImageIdentity.ReadMembers | ci/r13-publication.py:141-152 | the members are read if and only if every entry is safe, expected and unrepeated and they are not too many; then they are exactly the entries by name |
| ImageIdentity.CheckBlobs | ci/r13-publication.py:174-179 | passes if and only if every descriptor's blob is present with the stated size and digest |
| ImageIdentity.Identify | ci/r13-publication.py:139-180 | accepts if and only if the archive is well packed and carries a single-platform image whose manifest, config and layers are all present with matching size and digest, and returns its manifest digest |
| ImageIdentity.DigestFixesContent | ci/r13-publication.py:139-180 | two accepted archives with one manifest digest hold the same manifest, config and layer bytes in the same order, or hold under one name two blobs with one hash |
| RpmInventory.ParseInventory | ci/rpm-inventory-spdx.py:24-39 | the sorted records, or a refusal on a malformed row, an empty list or a duplicate |
| RpmInventory.PrintedInventoryReads | ci/rpm-inventory-spdx.py:24-39 | printing any non-empty duplicate-free list of well-formed records and parsing it gives the list sorted |
| RpmInventory.AcceptedInventory | ci/rpm-inventory-spdx.py:24-39 | whatever is accepted is strictly sorted and well formed, and its printing parses to itself |
| RpmInventory.RowOrderIrrelevant | ci/rpm-inventory-spdx.py:24-51 | two accepted texts with the same rows, in whatever order, give the same records and the same document |
| RpmInventory.MakeDocument | ci/rpm-inventory-spdx.py:47-92 | the document of the records: one package and one relationship to it per record, in order, under a namespace that hashes records and timestamp |
| RpmInventory.CanonicalInjective | ci/rpm-inventory-spdx.py:48-50 | the hashed text determines the records and the timestamp |
| SignaturePolicy.PolicyFile.Install | scripts/install-signature-policy.sh:32-48 | succeeds exactly on mergeable policies and then holds the merged policy; otherwise the file is untouched |
| SignaturePolicy.MergeKeeps | scripts/install-signature-policy.sh:40-44 | the merge sets the default and the repository's scope, adds the empty scope only if absent, and keeps every other key, transport and scope |
| SignaturePolicy.MergeTwice | scripts/install-signature-policy.sh:40-44 | merging twice is merging once |
| SignaturePolicy.MergedIsActive | ci/base-refresh.py:127-139 | the merged policy passes `active_policy` if and only if no more specific scope under the repository was there |
| SignaturePolicy.ActiveMeansSigned | ci/base-refresh.py:127-139 | under an accepted policy, scope lookup of every tag and digest of the repository selects the sigstoreSigned rule |
| SignaturePolicy.SignedExactly | ci/base-refresh.py:127-139 | with the repository's own rule in place, every tag and digest selects the sigstoreSigned rule if and only if every tag or digest scope in the policy holds that rule |
| BaseDiff.Load | ci/base-diff.py:38-50 | the manifest says, for each package, what its last line says |
| BaseDiff.Compare | ci/base-diff.py:65-77 | the diff over the sorted names; applied to the old blast-radius packages it gives the new ones, and it is empty if and only if the two agree |
| BaseDiff.DiffIsPatch | ci/base-diff.py:65-77 | changed, added and removed, applied to the old manifest restricted to the blast radius, give the new one |
| BaseDiff.EmptyDiffExactly | ci/base-diff.py:65-79 | nothing is noted if and only if the restricted manifests are equal |
| BumpGuard.GuardIsExact | ci/base-bump-guard.py:33-49 | the guard reads the printed report, sanitized or not, as all clear if and only if there was an old manifest and both agree on the blast radius |
| BumpGuard.ChainNeverGoesBack | ci/base-bump-guard.py:52-72 | along any chain of merged bumps the Fedora major stays, version and kernel never fall, and each is above the floor |

## Left out

- CodexLog.Codex: rate-limit rows are left out; they do not touch the counters.
- ClaudeLog.Claude: the order of the tool rows and the count of malformed records are left out.
- TokenSummary.Summarize: the large-context share and the index as floating-point values are left out; the index is an exact real.
- Prepare.Prepare: a scratch or read-only tree whose top is itself a symbolic link, names that vanish during the walk, ACLs and the umask of `mkdir` are not modelled.
- Handoff.HandoffRoundTrip: the names the daemon's trusted verifier lists are a parameter; the parent directories of a new destination are taken as given.
- Merge.MergeOverlay: the overlay holds files and directories only, as `check` has established before it.
- Rebuild.TarMembers: decompression and its own bound, and the tar header format, are a function that yields the members.
- ProcessTree.KillLeftovers: `/proc` is scanned in one atomic step, a killed child is collectable at once, and the pause between rounds has no effect.
- PrivilegeDrop.DropSucceedsExactlyWhenReady: of the securebits only keep-caps and no-setuid-fixup are part of the credential state; user namespaces and keyrings are not.
- Repin.PinsTextMeaning: texts are in the layout of `json.dumps(indent=2)` and strings need no JSON escapes.
- RepinSafety.HalfLandedRefused: the commit the second command reads is a snapshot of the tree left by the first; ancestry of HEAD is not modelled.
- RepinLanding.PlanPins: `finish_args`, the manifest's own parser, is a parameter, and so are the pinned paths; `RepinSafety.HalfLandedRefused` and `RepinAgain.FinishedIsStable` pass the paths that the parsed pins hold.
- MetadataReaders.ReadersAgree: GLib's locale filtering and value unescaping, and a NUL byte at the start of a line, are not part of the key-file format modelled.
- ChannelRefresh.ChannelsNeverGoBack: writers of the channel tags other than the refresh are left out, as are the comparison with the policy on main (it only refuses more) and two publishers moving tags at once, which the shared concurrency group excludes; attempts begin in the order they are numbered.
- ChannelRefresh.Baseline: a registry failure other than an unknown manifest is a refusal and has no step of its own.
- ImageIdentity.Identify: JSON numbers compare by value, but oversized integers and NaN are not modelled.
- RpmInventory.CanonicalInjective: the timestamp holds no line break, as `parse_created` yields it.
- SignaturePolicy.ActiveMeansSigned: scopes wider than the repository (namespaces, host, wildcards) are any list; they are consulted only after the repository's own scope.
- BumpGuard.GuardIsExact: the names quoted in a refusal's text are left out.
- The file-by-file conjunctions of `snitchwatch-system-verify.py` and `snitchwatch-system-daemon-verify.py`, `validate_candidate`, `policy` and `context` are left out: each claim is settled by one comparison.
- `adopt_unprivileged_stage` is left out: it is the allowlisted copy of `export` with a second list.
- Network probes, the deny-trial helper, podman, skopeo, cosign, git and systemctl calls, text reports and argument parsing are left out.
