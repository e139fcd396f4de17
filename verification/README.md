# myrun, modelled and proved

myrun is a small container runtime: it pulls images into a local store and stacks their
layers with OverlayFS, starts a paused child and gives it a cgroup and a network before
releasing it, publishes ports with iptables, and installs a seccomp filter. This project
models those parts of `mvp/` in Dafny and proves what they promise, and where they do not
keep a promise, exactly when they do.

Each component has a model in the source's own form and theorems about it:

- **Filter compiler** (`SeccompFilter.dfy`): an interpreter for classic BPF with the
  kernel's own program check, and the emitted program's exact meaning for lists of any
  length. `buildFilter` truncates its jump distance to eight bits, so only the last 255
  entries of the list allow anything; the comment in the source speaks of 512. The program
  is accepted by the kernel for up to 4090 entries.
- **Published ports** (`IptablesChains`, `RuleCommands`, `PublishRules`, `PublishLookup`,
  `BridgeNetwork`): ordered chains with append and delete-first-equal. `RuleCommands` lets
  the single commands of any number of containers and of other programs interleave;
  `PublishRules` takes whole set-ups and teardowns one after the other, failing ones
  included, and refines the list of live containers. The commands of one container are
  methods of a class whose every command may fail.
- **Limits** (`CpuQuota`, `Cgroups`, `SpecFolding`): the two float64 operations on the way
  to `cpu.max`, creating and removing the group, and folding an OCI spec into a
  configuration. The doc comment of `Config.Spec` says that the spec overrides the fields;
  the code, which the model follows, lets it fill holes only.
- **Start protocol** (`StartProtocol`, `StartTheorems`): parent, paused child and other
  programs as a transition system. Every step may fail, every iptables command is a step of
  its own, and between any two steps other programs may change links, cgroups, mounts,
  directories, helper processes and rules that are not this run's: safety of the release,
  conservation of resources, progress.
- **Rootless network helper** (`Slirp`): goroutines, buffered channels, timeouts and the
  helper process, over every interleaving.
- **Image store** (`Strings`, `Paths`, `LayerTree`, `LinkedTree`, `Delivered`,
  `Containment`, `ExtractResume`, `LayerDir`, `OverlayView`, `OciChangeset`, `StackedForm`,
  `DroppedNames`, `HeaderMeaning`, `SwallowedErrors`, `LayerCases`, `BlobCache`,
  `ImageStore`, `LocalStore`, `PullSuccess`, `ImageTheorems`, `LastAttempts`,
  `OverlayOptions`): lexical paths, extraction of a layer into a tree with an inode heap,
  where the kernel follows the symbolic links that it meets, what a reader finds of each
  header afterwards, resumption after interruptions, the overlay's path lookup over a stack
  of trees, changesets as in the OCI Image Format Specification (layer.md, "Applying
  Changesets" and "Whiteouts"), the digest-checked blob cache, any history of pulls that
  fail or die at any step, and exactly when a pull succeeds.
- **Parsers and printers** (`Reference`, `PublishFlag`, `OverlayOptions`).

What the theorems found to be false as stated elsewhere, with the condition that a caller
can check beforehand:

- Whiteouts are not honoured by the mounted view: extraction drops the markers, so a file
  that an upper layer deletes still shows. For any well-formed layers `StackedForm.Agrees`
  reads off the entries on which paths the mount and the specification's flat form agree
  (`StackedForm.StackAtPath`). For layers that show their additions they disagree exactly on
  the paths that resurface: some layer keeps the path, a higher layer marks it, and nothing
  above the first covers it (`Resurfacing.AgreesUnlessResurfaces`).
- Entries whose first component begins with `..` but is longer, such as `..data`, have legal
  names and are dropped (`LayerOps.LostNameIff`). The mount shows what the image means only
  if none of them would be seen (`ImageTheorems.OrdinaryMountIsFlatFormIff`).
- A layer that whites out an entry of its own loses it, exactly if nothing after the
  whiteout adds the lost path again (`LayerContent.ExtractionIsAdditionsIff`).
- A hard link whose file is not an earlier entry of the same layer, such as one to a file of
  a lower layer, is lost without an error; where no source lies behind a link of the layer
  all links are there exactly if every one names an earlier file (`LayerContent.LinksKeptIff`).
- Links that an earlier entry or an earlier attempt made are followed. A whiteout below a
  link of its own layer removes the file behind it, in the first pass or only in the second
  (`LayerCases.WhiteoutThroughLinkLosesFile`, `LayerCases.WhiteoutThroughLinkBreaksResume`).
  In ordinary layers no entry meets a link (`ExtractResume.EntryIsStraight`).
- The name check is lexical. With links that have `..` only in front, no path leads out of
  the tree exactly if every link is relative and climbs no higher than the top
  (`Containment.ContainedIff`).
- Extraction can be resumed for layers in which only directories are named twice or have
  anything below them. That is sufficient, not necessary. A layer without symbolic links that
  leaves a file where an entry wants a directory, not freed before that entry, fails in every
  later pass (`LayerCases.FileBlocksResume`); a name that is linked over changes another file
  (`LayerCases.RelinkedNameBreaksResume`).
- A failing hard link or whiteout is no error, so a pull can report success and have lost
  something; without failing whiteouts it shows the layer exactly if no link failed
  (`SwallowedErrors.ReportedShowsIff`).
- A pull that fails can spoil an image that was good before. An image mounts as its manifest
  says if each of its layer directories was finished by the last pull that worked on it
  (`LastAttempts.FinishedImageIsMounted`), and a pull that stops at a bad moment otherwise
  undoes any layer with content (`LastAttempts.InterruptedPullSpoils`).
- A port set-up leaves nothing behind exactly if no rule of it went in or all were taken out
  again (`RuleCommands.AsIfNeverThereIff`, `StartTheorems.ChainsLeftIff`); otherwise a
  prefix of its rules stays, and wins over every later container on the same port
  (`PublishLookup.ResidueShadows`).
- Where the store's root holds a `:`, or an image is one of a registry with a port, the
  kernel reads other directories out of the mount options (`ImageTheorems.RootColonBreaksMount`,
  `ImageTheorems.RegistryPortBreaksMount`; Pull itself asks one registry only). The options
  carry the directories exactly if no path holds `:`, `,` or a backslash
  (`OverlayOptions.OptionsRoundTripIff`).
- Different references can share an image directory, exactly if their cleaned components
  lead to the same place (`Reference.ImageDirSharedIff`), as those of a reference that ends
  in a colon do (`Reference.EmptyTagShares`).
- Two containers can share a link name, exactly if their ids have at least ten characters
  and begin with the same ten (`PublishRules.HostVethSharedIff`).
- What the blob cache serves hashes to its name exactly if the digest does not end in `.part`
  (`BlobCache.ServedIsRightIff`); otherwise it is an interrupted download.
- A quota of 1002 microseconds is written as 1001 (`CpuQuota.OneLessHappens`).

The environment is modelled as the code relies on it: the kernel's BPF check and
interpreter, iptables' append and delete-by-full-specification, rmdir of a non-empty
cgroup, the EOF of a pipe, path resolution through at most 40 links, OverlayFS's lookup of a
path in a stack of lower directories and its splitting of the mount options, with backslash
as the escape character.
A command, write or download that may fail is a nondeterministic choice in a class, or a
value of a fault script in a function. The hash is any function; where it matters it is
assumed free of collisions.

`dafny verify dfyconfig.toml` checks everything.

## Model

| member | source | states |
|---|---|---|
| SeccompFilter.BuildFilter | mvp/internal/seccomp/seccomp_linux.go:115-161 | the loop in wrapping uint32 arithmetic emits prologue, comparisons and the two returns, the i-th comparison carrying the low byte of n-i |
| SeccompFilter.TruncatedJumpFallsShort | mvp/internal/seccomp/seccomp_linux.go:145-153 | a jump at distance d of at least 256 reaches distance 256*(d/256)-1 only, so it never skips any of the last 255 comparisons |
| SeccompFilter.ComparisonsMeaning | mvp/internal/seccomp/seccomp_linux.go:145-158 | started at any comparison the program allows exactly the numbers among the entries that lie both after it and in the last 255 |
| SeccompFilter.FilterMeaning | mvp/internal/seccomp/seccomp_linux.go:115-161 | for every list and every input the program returns ALLOW iff the architecture matches and the number is among the last min(n,255) entries, else KILL_PROCESS, within n+4 instructions |
| SeccompFilter.KernelDecides | mvp/internal/seccomp/seccomp_linux.go:115-161 | in the kernel's terms: the returned action allows the call iff the architecture matches and one of the last 255 entries is the number, and kills the process otherwise |
| SeccompFilter.OneNumberProgram | mvp/internal/seccomp/seccomp_linux.go:55-161 | the program for one number, instruction by instruction in the kernel's own numbers |
| SeccompFilter.MembershipIff | mvp/internal/seccomp/seccomp_linux.go:16-19 | the program decides membership in its list iff every entry occurs among the last 255 |
| SeccompFilter.TruncationDropsAnEntry | mvp/internal/seccomp/seccomp_linux.go:149 | a list of 256 different numbers whose first is killed |
| SeccompFilter.FilterWellFormed | mvp/internal/seccomp/seccomp_linux.go:129-160 | every jump is forward and inside, loads read offset 0 or 4, the last instruction returns |
| SeccompFilter.AcceptedIff | mvp/internal/seccomp/seccomp_linux.go:190-206 | what Apply hands to the kernel with its 16-bit length is accepted iff the list has at most 4090 entries |
| ClassicBpf.AcceptedNeverFaults | mvp/internal/seccomp/seccomp_linux.go:38-53 | a program that passes the kernel's check ends in a return on every input |
| RuleCommands.PartDoAll | mvp/internal/network/bridge_linux.go:257-318 | in any interleaving of single appends and deletions, the rules with a container's tag are what its own commands alone make of them, and the other rules what the other commands alone do |
| RuleCommands.Interleaved | mvp/internal/network/bridge_linux.go:257-318 | whatever commands run in between and wherever their rules lie, after the first n commands of a container its rules are exactly those still standing, in order |
| RuleCommands.AsIfNeverThereIff | mvp/internal/network/bridge_linux.go:224-255 | the chains are as if the container had never been there iff none of its rules went in or all were taken out again |
| RuleCommands.ChainsAreLedger | mvp/internal/network/bridge_linux.go:257-318 | after any interleaving of all programs' commands every chain holds the standing rules in the order in which they went in |
| PublishRules.TagInjective | mvp/internal/network/bridge_linux.go:264 | two container ids never give the same comment tag |
| PublishRules.HostVethSharedIff | mvp/internal/network/bridge_linux.go:153-160 | two ids share a link name iff they are equal or both have ten characters or more and the first ten agree |
| PublishRules.HostVethFits | mvp/internal/network/bridge_linux.go:153-160 | a link name has at most 15 characters, and is "vm" and the id as far as it fits |
| PublishRules.TearDownRefines | mvp/internal/network/bridge_linux.go:241-255 | as a whole operation, a teardown takes exactly its container's entry out of the list that the chains show |
| PublishRules.StepRefines | mvp/internal/network/bridge_linux.go:148-318 | set-up, failed set-up, teardown and other programs' appends, one operation at a time, each do to the chains what they do to the list of containers |
| PublishRules.RunRefines | mvp/internal/network/bridge_linux.go:148-318 | over any sequence of these operations with distinct ids, every chain is the list's rules, entry by entry, in set-up order |
| PublishLookup.ChainWithoutBase | mvp/internal/network/bridge_linux.go:119-136 | with the base rules filtered out each chain is the list without base entries |
| PublishLookup.LookupIsFirstPublisher | mvp/internal/network/bridge_linux.go:268-274 | the first matching DNAT rule for a host port is that of the earliest entry that publishes it |
| PublishLookup.ResidueShadows | mvp/internal/network/bridge_linux.go:224-229 | after a failed set-up every later entry, wherever it stands in the list, is reached through a port only if none of the leftover DNAT rules matches it |
| PublishLookup.RedirectedIsLetThrough | mvp/internal/network/bridge_linux.go:268-287 | a packet that the first match redirects to a port of a container whose rules are all in is accepted at that container and port in the forward chain |
| PublishLookup.HostReachesTheSame | mvp/internal/network/bridge_linux.go:268-281 | where every container has all its rules, a local connection is redirected to where one from outside is |
| PublishLookup.OutputOfContainer | mvp/internal/network/bridge_linux.go:276-281 | of the first rules of a container, the output chain holds the mappings whose second rule is in |
| PublishLookup.OneMapping | mvp/internal/network/bridge_linux.go:259-291 | one mapping: both lookups give the container port, the accept rule is for that port, the protocol is tcp unless given, the tag is "myrun:" and the id |
| BridgeNetwork.IpFromId | mvp/internal/network/bridge_linux.go:162-167 | the host part is in 2..254 whatever the id's hash |
| BridgeNetwork.IpSharedIff | mvp/internal/network/bridge_linux.go:335-339 | every host part in that range is given, and two ids share one iff their hashes agree modulo 253 |
| BridgeNetwork.Host.EnsureRule | mvp/internal/network/bridge_linux.go:121-136 | the rule is there afterwards unless the append failed, and only base rules that were missing are appended unless a check misreports |
| BridgeNetwork.Host.EnsureBridge | mvp/internal/network/bridge_linux.go:98-139 | success means the bridge and the masquerade rule exist; only missing base rules are appended unless a check misreports; unless some command was refused it succeeds, with both forward rules there |
| BridgeNetwork.Host.AddPublishRules | mvp/internal/network/bridge_linux.go:259-291 | appends the three rules in order, and on failure, which takes a refused command, exactly a proper prefix of them |
| BridgeNetwork.Host.DelPublishRules | mvp/internal/network/bridge_linux.go:296-318 | unless a command is refused that had a rule to delete, deletes the first equal of each of the three rules |
| BridgeNetwork.Host.Setup | mvp/internal/network/bridge_linux.go:148-236 | success is the operation SetUp and adds one link; failure takes a refused command and is SetUpFails with the stated prefix of rules, and the link is gone unless its deletion failed |
| BridgeNetwork.Host.Teardown | mvp/internal/network/bridge_linux.go:241-255 | unless a command is refused that had something to do, the operation TearDown, and the link is gone |
| CpuQuota.QuotaWithinOne | mvp/internal/runtime/runtime_linux.go:139-145 | for any rounding with relative error 2^-53 the written quota is within 1 of max(1000, floor(100000*quota/period)) |
| CpuQuota.DefaultPeriodNeverExceeds | mvp/internal/cgroups/cgroups_linux.go:88-95 | with the default period the written quota is the asked one or 1 less, never more |
| CpuQuota.NearestIsRounding | mvp/internal/cgroups/cgroups_linux.go:91 | rounding to nearest, ties to even, with 53 bits of significand keeps the relative error 2^-53 that the bounds assume |
| CpuQuota.OneLessHappens | mvp/internal/cgroups/cgroups_linux.go:91 | under that rounding, float64's own, a quota of 1002 is written as 1001 |
| CpuQuota.Quota | mvp/internal/cgroups/cgroups_linux.go:90-94 | never below 1000 |
| CpuQuota.OneRounding | mvp/internal/cgroups/cgroups_linux.go:88-95 | cores given by the caller are written within 1 of max(1000, floor(100000*cores)) |
| Cgroups.Hierarchy.Create | mvp/internal/cgroups/cgroups_linux.go:65-108 | success sets exactly the requested limits of this pid's group; failure takes a refused write and leaves no group that was not there, unless its removal was refused, too; no other group changes |
| Cgroups.LimitedIs | mvp/internal/cgroups/cgroups_linux.go:76-108 | field by field: a limit above zero stands in its file as asked, the cpu quota within 1 of its microseconds, and any other file is left alone |
| Cgroups.Hierarchy.AddPid | mvp/internal/cgroups/cgroups_linux.go:112-114 | success puts the pid into this group and into no other |
| Cgroups.Hierarchy.Close | mvp/internal/cgroups/cgroups_linux.go:118-127 | the group is gone unless a process is in it or the removal failed; closing twice is fine |
| SpecFolding.FillIdempotent | mvp/internal/runtime/runtime_linux.go:121-173 | folding the same spec in twice is folding it in once |
| SpecFolding.CallerWins | mvp/internal/runtime/runtime_linux.go:113-120 | every non-zero field of the caller survives, whatever the spec says |
| SpecFolding.SpecFillsHoles | mvp/internal/runtime/runtime_linux.go:121-173 | the other half: where the caller set nothing, root path, command and arguments, memory, pids and seccomp are what the spec gives, and unchanged where it gives nothing |
| SpecFolding.SpecFillsCores | mvp/internal/runtime/runtime_linux.go:139-147 | cores that the caller did not set are quota by period, 100 ms if none is given, within one rounding; without a positive quota they stay 0 |
| SpecFolding.SpecFillsUserNamespace | mvp/internal/runtime/runtime_linux.go:150-165 | a user namespace with both mappings gives rootless mode with the first mapping of each, and nothing else does |
| SpecFolding.ArgsKeptIff | mvp/internal/runtime/runtime_linux.go:123-130 | exactly when arguments set without a command survive |
| SpecFolding.Config.ApplySpec | mvp/internal/runtime/runtime_linux.go:121-173 | the statements, in place and in order, fold the spec in as Fill says |
| SpecFolding.Config.ApplyUserNamespace | mvp/internal/runtime/runtime_linux.go:150-165 | the loop turns rootless mode on iff some namespace is "user" and both mappings are there |
| StartProtocol.CoreKept | mvp/internal/runtime/runtime_linux.go:189-363 | every possible step of parent, child and other programs keeps the invariant on control and on every thing the run holds |
| StartProtocol.StepRules | mvp/internal/network/bridge_linux.go:224-250 | every step appends the next rule of the run, deletes the next one, or leaves its rules alone |
| StartProtocol.StepShares | mvp/internal/runtime/runtime_linux.go:295-311 | what a step does to things that are not the run's own is the bridge and the base rules, or another program's act |
| HostWorld.ActsElsewhere | mvp/internal/runtime/runtime_linux.go:189-363 | everything that is not the run's own is as on a host where its own acts never happened |
| StartTheorems.ChildRunsReady | mvp/internal/runtime/runtime_linux.go:218-331 | in every reachable state the child is past its read only if the parent released it; unless rootless it is then in its cgroup if limits were asked for, its link is there and all its rules are in; for an image its scratch directory is there and mounted |
| StartTheorems.RootlessChildHasHelperIff | mvp/internal/runtime/runtime_linux.go:312-331 | of every run in which a rootless child runs: the parent has decided at the helper's step, and the helper process is there iff that step went well |
| StartTheorems.WriteEndClosesLate | mvp/internal/runtime/runtime_linux.go:263-311 | on every failing set-up path the child is killed and reaped before the write end closes |
| StartTheorems.OpeningMayFail | mvp/internal/runtime/runtime_linux.go:198-252 | every step up to the child that can fail in the source can fail, and goes to the deferred calls that are due |
| StartTheorems.SetupMayFail | mvp/internal/runtime/runtime_linux.go:263-327 | every step of the set-up that can fail can fail, and leads to the kill, with the link removed first once it is there; only the helper's failure does not |
| StartTheorems.FailsOnlyThere | mvp/internal/runtime/runtime_linux.go:198-327 | no other step can fail: preflight only when rootless, the rootfs only for an image |
| StartTheorems.BestEffort | mvp/internal/network/bridge_linux.go:98-160 | an address that cannot be given to a new bridge is fatal; the two forward rules and the stale link are only tried |
| StartTheorems.CleanupAfterReaping | mvp/internal/runtime/runtime_linux.go:333-341 | cgroup removal and rootfs clean-up are attempted only when no child is left |
| StartTheorems.UnmountedFirst | mvp/internal/runtime/runtime_linux.go:204-208 | the scratch directory is never removed with the image still mounted on it |
| StartTheorems.NothingLeft | mvp/internal/runtime/runtime_linux.go:189-363 | when Run returns, on every path and beside any other programs: no child, no pipe end, its helper, mount, scratch directory, cgroup and link gone, everything else as the others made it, and of its rules only the prefix of a set-up that failed there |
| StartTheorems.ChainsLeftIff | mvp/internal/runtime/runtime_linux.go:189-363 | when Run returns the chains are exactly what the others made of them iff no port set-up failed after its first rule |
| StartTheorems.RunsAreBounded | mvp/internal/runtime/runtime_linux.go:249-363 | parent and child together take at most 96 + 24 * ports steps in every interleaving |
| StartTheorems.NeverStuck | mvp/internal/runtime/runtime_linux.go:249-363 | until Run returns, in every reachable state the parent or the child can move |
| Slirp.RunKeeps | mvp/internal/slirp/slirp_linux.go:156-229 | the invariant over process, goroutines, channels and pipe holds after every interleaving |
| Slirp.FailedSetupLeavesNothing | mvp/internal/slirp/slirp_linux.go:158-163 | a failed Setup leaves the process reaped and the reader able to finish |
| Slirp.SetupMeansReady | mvp/internal/slirp/slirp_linux.go:206-225 | success means that the ready byte came, and the reader has finished |
| Slirp.WrittenIsRead | mvp/internal/slirp/slirp_linux.go:206-225 | while Setup waits, the ready byte makes it succeed, and the helper's end without it makes it fail |
| Slirp.ReceiveDecides | mvp/internal/slirp/slirp_linux.go:217-225 | a finished read can be received, and Setup succeeds iff it gave the byte |
| Slirp.KilledForAReason | mvp/internal/slirp/slirp_linux.go:158-225 | Setup fails only by its timeout or a read without the byte, and Teardown kills only after its own timeout |
| Slirp.TeardownReaps | mvp/internal/slirp/slirp_linux.go:178-200 | Teardown returns only with the process reaped, its waiter finished and the pipe closed |
| Slirp.TeardownEnds | mvp/internal/slirp/slirp_linux.go:178-200 | a helper that has ended lets Teardown reap it, close the pipe and return, before or after the timeout |
| Slirp.SendsNeverBlock | mvp/internal/slirp/slirp_linux.go:188-216 | neither goroutine is ever blocked on its send |
| Slirp.RunsAreBounded | mvp/internal/slirp/slirp_linux.go:156-229 | every interleaving is finite |
| Slirp.NeverStuck | mvp/internal/slirp/slirp_linux.go:156-229 | some action is possible until everything has finished |
| Paths.CleanIdempotent | mvp/internal/image/pull.go:353 | cleaning twice is cleaning once, and ".." remains only as a leading run of a relative path |
| Paths.SurvivesIff | mvp/internal/image/pull.go:354-356 | exactly which header names pass the check: relative ones whose first component does not begin with ".." |
| Paths.TargetInside | mvp/internal/image/pull.go:352-357 | a surviving entry's joined target has the destination's components followed by its own, none of them ".." |
| Paths.WalkReduced | mvp/internal/image/store.go:40-47 | walking from a directory along a list of names is walking along what Clean leaves of the list |
| LayerOps.PlanTarget | mvp/internal/image/pull.go:352-397 | targets, and link sources that stay inside, are the destination's components followed by the planned ones |
| LayerOps.LostNameIff | mvp/internal/image/pull.go:353-356 | a legal name, relative and not climbing out, is dropped iff its first component begins with ".." and is longer |
| LinkedTree.ResolvePlain | mvp/internal/image/pull.go:344-405 | where no symbolic link lies above a path, resolution leads to that path if its directory exists, and nowhere otherwise |
| LinkFree.OpIsPlain | mvp/internal/image/pull.go:344-405 | an entry that meets no link does to the tree what it does lexically: make directories, remove, create at its own path |
| LinkFree.TornIsPlain | mvp/internal/image/pull.go:344-405 | and so does one that is cut short |
| LinkFree.ApplyTree | mvp/internal/image/pull.go:344-405 | any entry, through any links, leaves a tree: every path below directories, every file with an inode |
| Delivered.DirDelivered | mvp/internal/image/pull.go:370-373 | over any tree and links, MkdirAll succeeds iff its path leads to a directory afterwards |
| Delivered.FileDelivered | mvp/internal/image/pull.go:374-387 | over any tree and links, a regular file's step succeeds iff reading its path afterwards gives its content |
| Delivered.SymlinkDelivered | mvp/internal/image/pull.go:388-393 | over any tree and links, a symbolic link's step succeeds iff its name is that link afterwards |
| Delivered.HardLinkDelivered | mvp/internal/image/pull.go:394-400 | a hard link's step never fails; where its source is a file or link afterwards and its name leads somewhere, the name is that same file or link, or a directory with something in it |
| Delivered.WhiteoutDelivered | mvp/internal/image/pull.go:363-368 | after a whiteout's step nothing is found at its path, and only what was there or below it is gone |
| Delivered.FortyLinks | mvp/internal/image/pull.go:344-405 | forty links in a row are followed, and not one more |
| HeaderMeaning.EntryDelivered | mvp/internal/image/pull.go:344-405 | over headers: a surviving entry that is no marker is reported done iff a reader of its name then finds the header's content, link text or a directory; other types change nothing |
| HeaderMeaning.EntryAlone | mvp/internal/image/pull.go:370-393 | such a header extracted into an empty directory shows its content, link text or directory at its components, directories above, and nothing else |
| HeaderMeaning.LinkShares | mvp/internal/image/pull.go:394-400 | a hard link to a file or link of the tree names the same inode; to anything else it makes nothing; both without an error |
| HeaderMeaning.EntryFailsIff | mvp/internal/image/pull.go:370-393 | where it meets no link, exactly when an entry is an error: something that is no directory in its way, or a directory where a file or link is to be |
| HeaderMeaning.WhiteoutRemoves | mvp/internal/image/pull.go:363-368 | a name ".wh.x" removes the sibling x with everything below it, and nothing else |
| HeaderMeaning.NothingHappens | mvp/internal/image/pull.go:353-362 | an absolute name, one that begins with "..", and an opaque marker change nothing |
| HeaderMeaning.AnyBeginning | mvp/internal/image/pull.go:379-386 | a file's step that is interrupted can leave any beginning of its content |
| HeaderMeaning.NameGone | mvp/internal/image/pull.go:388-400 | a link's step that is interrupted can leave its name gone |
| HeaderMeaning.AnyPartRemoved | mvp/internal/image/pull.go:363-368 | a whiteout's step that is interrupted can have removed any part that is closed downwards |
| HeaderMeaning.AnyDirsMade | mvp/internal/image/pull.go:370-373 | a directory's step that is interrupted can have made any number of its directories |
| Containment.ContainedIff | mvp/internal/image/pull.go:353-356 | in a tree whose links have ".." only in front, no path leads out iff every link is relative and climbs no higher than the top |
| Containment.DescendingLinksStay | mvp/internal/image/pull.go:388-393 | while a layer whose links are relative and without ".." is extracted no path ever leads out |
| Containment.OrdinaryEntryStays | mvp/internal/image/pull.go:344-405 | in an ordinary layer no entry leads out, whatever its links say and whatever earlier attempts left |
| LayerShape.EntryFits | mvp/internal/image/pull.go:344-405 | in an ordinary layer each new file name is untouched so far, nothing but directories lies above any path that an entry names, and a link's source was made earlier |
| ExtractResume.EntryIsStraight | mvp/internal/image/pull.go:344-405 | over a sound tree, with whatever links earlier attempts left, no entry of an ordinary layer meets a link on its way |
| ExtractSteps.OpenMatches | mvp/internal/image/pull.go:379-383 | truncating an existing inode in place changes no content that this pass has already written under another name |
| ExtractResume.EntryStep | mvp/internal/image/pull.go:344-405 | over a leftover tree every entry of an ordinary layer meets no link, succeeds, and makes the touched paths what the layer says |
| ExtractResume.TryKeepsLeftover | mvp/internal/image/pull.go:329-406 | an attempt in which any entries are cut short, by a crash, an error or an error that the code swallows, leaves a tree of the same kind again |
| ExtractResume.PassDetermines | mvp/internal/image/pull.go:329-406 | two complete passes give the same paths, types, texts, contents and sharing of inodes |
| ExtractResume.Resumes | mvp/internal/image/pull.go:329-406 | for layers in which only directories are named twice or have anything below them: after any number of attempts that went wrong anywhere, a full pass succeeds and gives the tree of a pass over an empty directory |
| LayerDir.Directory.MakeDirs | mvp/internal/image/pull.go:372 | stat through links, parent first, then mkdir: Go's MkdirAll step for step |
| LayerDir.Directory.WriteFile | mvp/internal/image/pull.go:375-387 | makes the parents, and creates the file where the path leads, or truncates and refills the inode that is there |
| LayerDir.Directory.MakeSymlink | mvp/internal/image/pull.go:388-393 | replaces a file, link or empty directory of that name by the link, or fails |
| LayerDir.Directory.MakeHardLink | mvp/internal/image/pull.go:394-400 | replaces the name by another name of the inode that the source path leads to, and is silent when there is none |
| LayerDir.Directory.ExtractLayer | mvp/internal/image/pull.go:329-406 | the loop changes the tree in place to the fold of its entries, links followed, and succeeds iff no entry failed and the archive ended properly |
| OverlayView.ContributorsCons | mvp/internal/overlay/overlay_linux.go:45-48 | which layers a lookup inside a directory searches: the top one, and the rest's unless the top is in the way |
| OverlayView.LookupIsFlatten | mvp/internal/overlay/overlay_linux.go:45-48 | looking a path up component by component finds what the fold of two-tree merges has there |
| OciChangeset.AddEntryMerge | mvp/internal/image/pull.go:370-400 | adding an entry on top of a merged view is merging after adding it to the top layer |
| OciChangeset.AddAllMerge | mvp/internal/image/pull.go:344-405 | a changeset's entries added to any view are its additions merged over that view |
| HeaderMeaning.MeaningShows | mvp/internal/image/pull.go:344-405 | what a header means on top of any view: its own content, link text or directory at its components |
| HeaderMeaning.MeaningOfWhiteout | mvp/internal/image/pull.go:363-368 | a marker ".wh.x" means that the sibling x is gone with everything below it, and nothing else |
| HeaderMeaning.MeaningOfOpaque | mvp/internal/image/pull.go:359-362 | an opaque marker means that everything inside its directory is gone, the directory itself staying |
| LayerContent.PassShows | mvp/internal/image/pull.go:329-406 | a finished extraction shows at every path what the layer's entries say of it |
| LayerContent.ExtractionIsAdditionsIff | mvp/internal/image/pull.go:363-368 | extracting a layer alone shows its additions iff every path that a whiteout takes from an earlier entry is added again later |
| LayerContent.NothingLostIff | mvp/internal/image/pull.go:363-368 | no path that the layer touched is gone iff every path that a whiteout takes is added again later |
| LayerContent.KeptIff | mvp/internal/image/pull.go:344-405 | the paths that a pass leaves, read off the entries: one creates them, a link only if its source is left, and no later whiteout names them |
| HeaderMeaning.KeptShowsHeader | mvp/internal/image/pull.go:329-406 | over any leftover of a well-formed layer: after a full pass every entry's path that is there shows that entry's own content, link text or directory |
| HeaderMeaning.KeptLinkShowsSource | mvp/internal/image/pull.go:394-400 | and a hard link that is there shows the content of the header that made its source |
| HeaderMeaning.UnwipedIsKept | mvp/internal/image/pull.go:363-393 | an entry that no later header wipes is there after a full pass |
| LayerContent.LinksKeptIff | mvp/internal/image/pull.go:394-400 | for layers with only directories above every named path: all hard links of a layer are in its tree iff each names an earlier file or link of the layer |
| StackedForm.AdditionsAre | mvp/internal/image/pull.go:370-400 | a changeset adds exactly the paths that its entries create, with their content, and is in the way of exactly those below its files and links |
| StackedForm.ExtractionIs | mvp/internal/image/pull.go:329-406 | an extracted layer has exactly the paths that it keeps, with the entries' content, and is in the way of exactly those below the files and links it keeps |
| StackedForm.InStackIff | mvp/internal/overlay/overlay_linux.go:45-48 | the stack shows a path iff some layer keeps it and no layer above keeps it or anything in its way, with that layer's content |
| StackedForm.InFlatIff | mvp/internal/image/pull.go:359-368 | the flat form has a path iff some layer creates it and no layer above covers it or marks it, with that layer's content |
| StackedForm.StackAtPath | mvp/internal/image/store.go:98-106 | for any well-formed layers: at a path the mounted stack shows what the specification makes of the meant layers iff the layers' entries agree on it |
| StackedForm.StackedIsFlatIff | mvp/internal/image/pull.go:359-368 | the whole views are equal iff they agree on every path |
| Resurfacing.AgreesUnlessResurfaces | mvp/internal/image/pull.go:359-368 | for layers that show their additions the two forms agree on a path iff no marker above the layer that shows it names it |
| Resurfacing.WhiteoutDoesNotHide | mvp/internal/image/pull.go:363-368 | a path that layer m keeps, a marker above names, and no layer above m covers is found with layer m's content; with layers that show their additions the flat form lacks it |
| DroppedNames.PlanAllMasked | mvp/internal/image/pull.go:353-368 | what is extracted of a layer is what it means without the entries about paths whose first component begins with ".." and is longer |
| DroppedNames.AgreesWithMeaningIff | mvp/internal/image/pull.go:353-368 | mount and meaning agree on a path iff it does not resurface, or, for a path with such a component, iff the meaning does not have it |
| LayerCases.RepeatedNameBreaksResume | mvp/internal/image/pull.go:363-387 | a layer with one name as directory, whiteout and file extracts once and never again |
| LayerCases.RelinkedNameBreaksResume | mvp/internal/image/pull.go:375-400 | a name that is a file, whited out, and then a hard link: the second pass succeeds and gives the linked file the other one's content |
| LayerCases.FileBlocksResume | mvp/internal/image/pull.go:370-387 | a layer without symbolic links that leaves a file where an entry wants a directory, not freed before that entry, fails in every later pass |
| LayerCases.WhiteoutThroughLinkBreaksResume | mvp/internal/image/pull.go:363-393 | file b/x, whiteout a/x, link a to b: the first pass keeps b/x, the second removes it, both report success |
| LayerCases.WhiteoutThroughLinkLosesFile | mvp/internal/image/pull.go:363-393 | with the link first, the first pass loses b/x |
| LayerCases.LinkThroughLinkIsKept | mvp/internal/image/pull.go:394-400 | a hard link whose source is named through a link of the layer is made |
| LayerCases.LateWhiteoutLosesFile | mvp/internal/image/pull.go:363-368 | a whiteout after its own layer's file takes it away |
| LayerCases.LinkAcrossLayersIsLost | mvp/internal/image/pull.go:394-400 | a hard link to a lower layer's file is missing from the extracted layer, without an error |
| LayerCases.DeletedFileStillShows | mvp/internal/image/pull.go:363-368 | a file and a layer that deletes it: the mounted stack shows the file |
| BlobCache.PullBlobKeeps | mvp/internal/image/pull.go:272-321 | however a download ends, every non-temporary file still hashes to its name and no blob is lost or changed |
| BlobCache.PullBlobOkIff | mvp/internal/image/pull.go:273-317 | a pull succeeds iff the name is cached or the download's hash is the digest and the rename works; a digest without its algorithm only from the cache |
| BlobCache.CacheIntegrity | mvp/internal/image/pull.go:272-321 | after any history of downloads every non-temporary file hashes to its name |
| BlobCache.CacheIsTransparent | mvp/internal/image/pull.go:274-276 | a pull after any history gives the bytes that a direct download gives |
| BlobCache.ServedIsRightIff | mvp/internal/image/pull.go:272-321 | after any history, what a successful pull serves hashes to the digest's name iff the digest does not end in ".part" |
| BlobCache.PartFileServed | mvp/internal/image/pull.go:297-320 | a download that dies, cannot be cleaned up after or cannot be renamed leaves its bytes under the temporary name, and a digest of that name is served them |
| BlobCache.OrderlyFailureLeavesNothing | mvp/internal/image/pull.go:278-316 | a download that is refused, or fails and is cleaned up after, leaves the cache as it was |
| SwallowedErrors.ReportedShowsIff | mvp/internal/image/pull.go:363-400 | a pull into an empty directory that reports success, of a layer that keeps its files, where at most hard links failed: it shows the layer iff none did |
| ImageStore.HistoryIsSane | mvp/internal/image/pull.go:243-265 | after any history of pulls the cache is intact and every layer directory holds a leftover of the layer it is named after |
| ImageStore.PulledLayerReady | mvp/internal/image/pull.go:256-265 | a layer step that reports success and ignored no error leaves the right blob and the tree of a fresh extraction |
| ImageStore.PulledLayersReady | mvp/internal/image/pull.go:256-265 | when the loop reports success and no error was ignored, all its layers are ready at once |
| PullSuccess.PullSucceedsIff | mvp/internal/image/pull.go:235-268 | for well-formed layers, after any history, exactly when a pull succeeds: a manifest with layers comes and is written, and each layer in turn is cached or is served right and renamed, its archive ends cleanly and no error of it counts |
| PullSuccess.PulledIsClean | mvp/internal/image/pull.go:329-351 | after a pull that succeeds each blob of its manifest has the right hash and can be read as an archive to its end |
| PullSuccess.ReportsIff | mvp/internal/image/pull.go:344-400 | over any leftover of a well-formed layer, an attempt reports success iff it comes to the end with no error but those of whiteouts and hard links |
| LocalStore.Disk.FetchBlob | mvp/internal/image/pull.go:272-321 | creating, filling, checking and renaming the file is PullBlob on the cache |
| LocalStore.Disk.FetchLayers | mvp/internal/image/pull.go:256-265 | the loop over the layers is the fold, stopping at the first failure |
| LocalStore.Disk.Pull | mvp/internal/image/pull.go:235-268 | the manifest is written first, then the layers one by one |
| LocalStore.Disk.Load | mvp/internal/image/store.go:67-86 | one directory per digest, in the manifest's order; no image without a whole manifest |
| ImageTheorems.MountShowsPulledLayers | mvp/internal/image/pull.go:252-265 | for well-formed layers: after any history of failing, dying, limping and succeeding pulls, a pull that reports success and ignored no error makes the mounted stack exactly that of the layers its manifest names by digest |
| ImageTheorems.MountLooksUpPulledLayers | mvp/internal/image/store.go:67-106 | every lookup through that mount finds what the merge of those layers has |
| ImageTheorems.ContainerSeesFile | mvp/internal/image/pull.go:374-387 | end to end, from the header to the lookup: a regular file of a pulled layer that no later header wipes and no layer above keeps or covers is found in the mount with that header's content |
| ImageTheorems.ManifestComesFirst | mvp/internal/image/pull.go:235-254 | whatever happens to the layers, once the manifest is written the image is that manifest's; a manifest cut short is no image; without one nothing changes |
| ImageTheorems.FailureTouchesOnlyFirst | mvp/internal/image/pull.go:256-265 | a pull that fails at a layer leaves the directories of all later layers as they were |
| ImageTheorems.LayerPathComps | mvp/internal/image/store.go:55-61 | a layer's directory is the image's, then "rootfs", then the digest's hex |
| ImageTheorems.DigestsDetermine | mvp/internal/image/pull.go:312-316 | two images named by the same digests are the same |
| ImageTheorems.HistoryDoesNotShow | mvp/internal/image/pull.go:252-265 | the same digests pulled into an empty store give the same stack |
| ImageTheorems.MountIsFlatFormIff | mvp/internal/image/store.go:67-106 | every lookup finds the specification's flat form of what those layers mean iff their entries agree on every path |
| ImageTheorems.OrdinaryMountIsFlatFormIff | mvp/internal/image/store.go:67-106 | when each layer shows its additions, iff no marked path resurfaces and no entry that the name check drops would be seen |
| ImageTheorems.OtherPullsKeepImage | mvp/internal/image/store.go:40-47 | pulls of other images, however they end, change nothing that an image's mount shows |
| LastAttempts.HistoryFinishes | mvp/internal/image/pull.go:256-265 | after any history every layer directory whose last attempt succeeded without an ignored error holds the tree of a fresh extraction of the right blob |
| LastAttempts.FinishedImageIsMounted | mvp/internal/image/pull.go:252-265 | whatever the last pull of an image did, if each layer directory in its manifest was finished by the last pull that worked on it, the mounted stack is that of the layers the manifest names by digest |
| LastAttempts.SuccessFinishes | mvp/internal/image/pull.go:256-268 | a successful pull that ignored no error finishes every layer of its image |
| LastAttempts.InterruptedPullSpoils | mvp/internal/image/pull.go:379-385 | over any leftover tree, and for any layer with a file that is not empty, an attempt can stop so that the directory does not show the layer |
| LastAttempts.CutShortIsNotReady | mvp/internal/image/pull.go:379-385 | a layer step that stops after the truncation of a file with content fails, and its layer is not ready |
| LastAttempts.BlockedLayerStaysBlocked | mvp/internal/image/pull.go:329-387 | extraction goes over what is there: a layer that leaves a file where one of its entries wants a directory, pulled a second time, fails |
| ImageTheorems.MountOptionsIff | mvp/internal/image/store.go:98-106 | the kernel reads the stack's directories, topmost first, out of the option string iff no path in it holds a separator or a backslash |
| ImageTheorems.RegistryPortBreaksMount | mvp/internal/image/store.go:98-106 | a reference to a registry with a port parses, and for whatever layers its image has the kernel reads other directories |
| ImageTheorems.RootColonBreaksMount | mvp/internal/image/store.go:98-106 | with a colon in the store's root the kernel reads other directories for every image |
| OverlayOptions.OverlayLowerDirs | mvp/internal/image/store.go:98-106 | the array filled from its end is the reversed list, joined with colons |
| OverlayOptions.OptionsRoundTripIff | mvp/internal/overlay/overlay_linux.go:36-48 | the kernel's reading of the option string, escapes included, recovers the reversed layers, upper and work directory iff no path holds a separator or a backslash |
| OverlayOptions.MountGetsLayers | mvp/internal/overlay/overlay_linux.go:32-51 | MountOverlay refuses iff there is no layer path, and otherwise the kernel reads the right directories iff no path holds a separator or a backslash |
| Reference.NormalForm | mvp/internal/image/pull.go:50-65 | whatever reference a string is parsed to, printing and parsing it again gives that reference |
| Reference.ParseRef | mvp/internal/image/pull.go:50-53 | only the empty string is refused |
| Reference.Defaults | mvp/internal/image/pull.go:50-65 | without a tag it is "latest", without a slash "library/" goes in front, and what stands behind the colon is the tag |
| Reference.NoSeparator | mvp/internal/image/pull.go:55-57 | a colon at the front, or one before the last slash, does not begin a tag |
| Reference.ParsePrintIff | mvp/internal/image/pull.go:50-65 | exactly which references survive printing and parsing |
| Reference.ImageDirSharedIff | mvp/internal/image/store.go:40-47 | any two references that parsing gives share an image directory iff their cleaned components lead to the same place from the root |
| Reference.ImageDirSharedInsideIff | mvp/internal/image/store.go:40-47 | and, unless ".." climbs out of the images, iff their cleaned components are equal |
| Reference.PlainImageDir | mvp/internal/image/store.go:40-47 | for plain names the directory is the root's, then "images", the repository's components and the tag |
| Reference.ColonInImageDirIff | mvp/internal/image/store.go:40-47 | unless ".." climbs out of the images, an image's directory holds a colon iff the root or the cleaned repository does |
| Reference.RegistryPortInDir | mvp/internal/image/pull.go:50-65 | a reference with a registry port parses, and its directory holds a colon |
| Reference.EmptyTagShares | mvp/internal/image/pull.go:55-57 | a reference that ends in a colon shares its directory with another reference |
| PublishFlag.AtoiOfDecimal | mvp/cmd/myrun/main.go:128-129 | reading a printed number gives it back |
| PublishFlag.ParseRender | mvp/cmd/myrun/main.go:114-134 | reading a printed mapping gives it back |
| PublishFlag.ParsesAs | mvp/cmd/myrun/main.go:114-134 | host and container port are taken in that order, the protocol is lower-cased, tcp without one, and only tcp or udp |
| PublishFlag.AtoiIff | mvp/cmd/myrun/main.go:128-129 | digits behind at most one sign are a number, and nothing else is |
| PublishFlag.RoundTrip | mvp/cmd/myrun/main.go:89-109 | printing a list, splitting at commas and setting each part rebuilds it |
| PublishFlag.Flag.Set | mvp/cmd/myrun/main.go:102-109 | appends the mapping of an accepted value, and changes nothing for a refused one |
| PublishFlag.Flag.Print | mvp/cmd/myrun/main.go:89-98 | the printed list is empty only for the empty list, and otherwise reads back as the list |

## Left out

- HTTP, tokens, JSON, choosing a platform from an index, gzip and tar formats: a manifest is a list of digests, a layer a list of entries with a flag for a broken archive.
- SHA-256 and SHA-1: any function, free of collisions where a theorem says so.
- Two pulls at once: they would share one `.part` file, so histories are sequences of whole pulls.
- Digests whose hex part holds a slash or is empty, "." or "..", and images whose directory lies inside another image's: their paths would alias other parts of the store.
- Whiteouts that name "", "." or "..", links made at the destination itself, and link sources that climb out of it by their text: such an entry is planned as Outside and excluded from ordinary layers.
- What a step does that leads out of the destination: it does nothing in this tree, and counts as failed; Containment says when there is none.
- File modes, owners, device nodes and extended attributes: the view compares type, content and link text.
- Names and link texts that the file system refuses, such as an empty link text or one that is too long.
- Resumes: the condition is sufficient only; a layer may repeat a name, or have a whiteout below one of its links, and still resume.
- MountShowsPulledLayers: assumes well-formed layers, no digest that ends in ".part" and no ignored error; LayerCases, BlobCache.ServedIsRightIff and SwallowedErrors.ReportedShowsIff show why.
- FinishedImageIsMounted: goes one way, since an attempt that was cut short may by chance have left the right tree.
- StepRefines: whole operations, none inside another; RuleCommands has the single commands in any order.
- ReportedShowsIff: of failing hard links; a whiteout that fails may or may not have had something to remove.
- The same layer directory twice in one stack, which OverlayFS may refuse to mount.
- The writable upper directory: empty at the start, and an empty tree merges to the view below it.
- The OCI text does not say what an entry below a lower layer's file does; the model lets the ancestors become directories.
- Run is a transition system rather than a class, because parent and child interleave; slirp's Setup and Teardown are single steps of it and have their own interleavings in Slirp.
- NothingLeft: the commands that give things back (unlink, unmount, rule deletion, removals) are taken to succeed there; Cgroups and BridgeNetwork say what their failures leave.
- Other runs with the same id, link name, cgroup name or scratch directory: their acts count as this run's own and are excluded.
- The child's network namespace: of eth0, its address and its route only whether the commands succeeded.
- A parent that dies: the pipe's end of file would release the child.
- Values that overflow float64, subnormal numbers and NaN in CPU limits.
- The bridge's address: a failed assignment after the bridge was created is never retried, so nothing is claimed about it.
- resolv.conf, pivot_root, exec and PATH lookup, rootless preflight, criu, the syscall tables, the Darwin stubs and the usage text.
