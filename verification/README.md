# Easywall: a verified model of the core

Easywall's core writes one nftables table and promises that every apply reverts itself unless somebody
confirms it. This project models the four parts of the core that carry that promise and proves what they
establish, for every input, every interleaving and every crash.

**The protocol.** `Protocol` is the apply / acceptance / crash / panic machine: rules.json's Current, Staged and
Backup, the unconfirmed marker, the panic marker, applied-config.json, the kernel table, the apply slot and the
acceptance window. One step is one file rename, one kernel transaction, one read of a marker or one critical
section; between any two steps the operator, the console with or without a daemon, the timer, a kill or a reboot
may act. `ProtocolSafety` holds its inductive invariant, `ProtocolTheorems` what it means, `Reagreement` how it
heals after accidents. `Answers` shows that nothing is confirmed without somebody's answer, and `AcceptanceWindow`
is the window's controller on its own, under every interleaving. `FirewallCore` has the rules store and the
firewall as objects whose methods are the machine's steps, and composes them into `Apply`, `Rollback`,
`RestoreCurrent`, `Panic` and `Resume`.

**The compiler and its readers.** `Netfilter` is the register machine: expressions, verdicts, chains, jumps,
policies. `Compiler` says which rules the core builds for a rule set, `NftablesManager` builds them in the order
the core does, `Meaning` says in terms of packets what they are for. `Matches`, `Stages`, `InputProof`, `Layout`
and `ForwardProof` lead up to `FilterTheorems`: the compiled chains mean exactly that. `Redirects` is the nat hook.
`Reach` is the web process's own reading of the chain, `RuleCheck` the static check of the built rules,
`CheckTheorems` and `BuilderCheck` what the check is worth.

**The feeds.** `Ranges` and `LastAddress` turn prefixes into the canonical merged ranges, `FeedSets` those into
kernel elements, `FeedValidation` decides which entries are kept, `GlobalSpace` and `Quads` say in dotted quads and
IPv6 groups what that means, `FeedStores` is the file and its index, `FeedUpdate` one update, `FeedTheorems` every
run of them. `FeedProtocol` runs them beside the apply protocol as one machine, `FeedReach` joins the stored
copies, the kernel sets and the reachability answer.

**The books.** `Usage` (counters across table rebuilds), `LoginEventLog` and `LoginLines` (the debounced login
events and how often a key may get a line), `PacketLogs` (the packet ring and its spill file), `Shutdown` (which
work may still start while the daemon stops).

## What the proofs found

- BackupCurrent does not look for a left-over unconfirmed marker. Without a marker, or with Current still equal to
  Backup, it keeps the restart promise (`BackupKeepsThePromise`); `ApplyOverAMarkerLosesTheConfirmedSet` is the run
  in which it does not. The exact condition is whether the copied set is authorised (`BackupKeepsThePromiseIff`),
  and no condition on files, kernel and program counter is exact: `NoFileTellsThemApart` gives two runs to the same
  files, one after a set nobody confirmed, one after a set confirmed a moment before the core died.
- Panic mode wins every race except against a kill: rules stay in force under the panic marker, with nobody
  left to remove them, exactly when a process died owing the teardown (`PanicWins`, `OrphansNeedADeath`,
  `KilledBeforeTheRecheck`).
- An apply that times out restores the kernel exactly when a table was in force or nothing was ever configured, and
  the configuration record exactly when there was one and, on a host never configured, it was the saved
  configuration (`ExactUndo`, `Apply`). The first apply ever made leaves a record (`FirstApplyLeavesARecord`).
- Packets are booked twice exactly when a baseline reset comes after a collect that found packets in the table the
  reset is about (`BookedTwiceIff`, `CollectBeforeTheResetCountsTwice`).
- "Blocked" is wrong about a source exactly when an auto-detected bridge the web process cannot know of accepts
  it first, which the Docker address pool rules out (`ReachableIsSound`, `BlockedButAdmitted`). "Unknown" is given in
  exactly three cases besides an unknown source (`UnknownExactlyWhen`): over raw lines the lines alone decide either way
  (`CustomLinesDecide`), over a bridge a detected one lets the source in (`BridgeDecides`), and over the bogon filter
  nothing gets in but through a container network or a rule naming source and port (`BogonExceptionDecides`).
- With published ports filtered, a rule for forwarded traffic opens its port towards every destination, container or
  not: the accepts in the forward chain do not look at where the packet goes (`ClosedUnlessSaid`).
- A table without findings may still send a packet elsewhere from behind a jump: the check lets a queue, stolen,
  repeat or stop verdict and a redirect pass there (`CleanButSendsElsewhere` is such a table). No clean table accepts
  behind a jump, raw lines aside, which never reach the check; it drops or returns when no rule behind a jump has
  such a verdict (`CleanJumpsNeverAccept`). That condition is one way only, because a match in front of the verdict
  may never hold. Every table the core builds meets it (`CoreJumpsDropOrReturn`).
- A stored feed update leaves file and kernel together exactly when the feed's own set takes the version too and no
  feed in the kernel loses its copy (`UpdateKeepsInStepIff`). An undisturbed core guarantees both, whatever runs
  between the updates (`SetsFollowTheFile`); after a failed rollback write the table in force can hold a feed that
  Current does not switch on.
- Packet numbers handed out after a restart are new exactly when the spill file had kept up to the last packet
  (`NumbersGoOnIff`, `ABehindFileRepeatsNumbers`); a file the core gave up on lets them repeat. Between an append and its rewrite, or after a
  rewrite that failed, the file holds one line more than twice the ring.

## Model

| member | source | states |
|---|---|---|
| ProtocolTheorems.CrashSafe | internal/core/firewall.go:323-620 | In every reachable state, however the core was interrupted: without the marker Current is authorised (initial, confirmed in its window, or applied with the window off), with the marker Backup is; no apply having started over a left-over marker |
| ProtocolTheorems.WritesBackOnlyAuthorised | internal/core/restore.go:76-200 | A rollback or restore write leaves nothing, what was there, or an authorised set in the kernel |
| ProtocolTheorems.BackupKeepsThePromiseIff | internal/core/firewall.go:355-401 | The backup step keeps the restart promise if and only if no marker is on disk or Current is authorised |
| ProtocolTheorems.BackupKeepsThePromise | internal/core/firewall.go:355-363 | What the files show to be enough: no marker, or Current equal to Backup |
| ProtocolTheorems.NoFileTellsThemApart | internal/core/firewall.go:600-616 | Two reachable states before a backup, equal in everything but history: one set authorised, the other not, so no condition on the files is exact |
| ProtocolTheorems.ApplyOverAMarkerLosesTheConfirmedSet | internal/core/firewall.go:355-408 | From every fresh start with a differing staged set there is a run after which Backup is unauthorised under a marker |
| ProtocolTheorems.PanicWins | internal/core/restore.go:360-455 | Panic marker and rules in the kernel imply a pending teardown or re-check, or an orphan; with nothing pending, rules under the marker if and only if an orphan |
| ProtocolTheorems.OrphansNeedADeath | cmd/easywall-core/subcommands.go:634-676 | No run without a kill or a dying console leaves an orphan |
| ProtocolTheorems.KilledBeforeTheRecheck | internal/core/firewall.go:485-558 | A run with a kill between a kernel write and its re-check that ends filtering under the panic marker |
| ProtocolTheorems.QuiescentAgreement | internal/core/firewall.go:782-876 | With no cycle, no teardown owed, and so far no failed write or read, no kill, no dying console and no backup over a marker, a table in force is the one built from Current and applied-config.json, and its rules are authorised |
| Reagreement.AgreesAgain | internal/core/restore.go:76-272 | After any accidents short of an orphan or a backup over a marker: once an apply, a rollback or a restore has written its table and put it on record, every later quiet moment finds kernel, Current and record in agreement again, for as long as nothing goes wrong anew |
| ProtocolTheorems.ExactUndo | internal/core/firewall.go:587-619 | An apply that ended unconfirmed and undisturbed put Current back; the kernel if and only if a table was in force or nothing was ever configured; the record if and only if there was one and, on a host never configured, it was the saved configuration |
| ProtocolTheorems.FirstApplyLeavesARecord | internal/core/firewall.go:742-776 | A run in which the first apply times out: table and Current as before, a configuration on record that was not there |
| ProtocolTheorems.StagedIsTheOperators | internal/core/rules.go:240-275 | Over every run, Staged changes only through SaveStaged and ImportRules |
| ProtocolSafety.ReachableKeeps | internal/core/firewall.go:323-883 | The invariants behind the theorems hold in every reachable state |
| Answers.EveryConfirmationWasAnswered | internal/core/firewall.go:600-616 | In every run a set becomes authorised only by a promotion with the window off, or when the wait over it ends on at least one accept that landed since its own window opened |
| AcceptanceWindow.WindowsAgree | internal/core/acceptance.go:153-199 | In every interleaving a window that reached Wait was confirmed if and only if some Accept on it answered true; never both accepted and cancelled; at most one cancel; the reason is that cancel's, or core stopped, or timeout; without an accept, a cancel or a shutdown it lasted its whole length |
| AcceptanceWindow.AnswersLandInTime | internal/core/acceptance.go:247-342 | In every run the open window takes an accept if and only if nobody cancelled it and the time since it was opened is under its length, and a cancel if and only if nobody answered it at all; a length of zero stands for the one before |
| AcceptanceWindow.WindowLasts | internal/core/acceptance.go:84-117 | A window opened at `now` for L > 0 takes an accept at t if and only if t < now + L and the core is not stopping |
| Answers.NoWindowBetweenCycles | internal/core/firewall.go:165-173 | In every reachable state no window is open while nobody holds the apply slot |
| AcceptanceWindow.NothingConfirmedAfterShutdown | internal/core/acceptance.go:290-295 | After CancelForShutdown returned, only a window already accepted by then can be confirmed |
| AcceptanceWindow.Acceptance.Start | internal/core/acceptance.go:84-117 | The controller's whole state after Start, a pending window left alone |
| AcceptanceWindow.Acceptance.Accept | internal/core/acceptance.go:323-342 | Whether the answer landed, and the state after it |
| AcceptanceWindow.Acceptance.Cancel | internal/core/acceptance.go:247-268 | Whether the cancel landed, and the state and reason after it |
| AcceptanceWindow.Acceptance.Wait | internal/core/acceptance.go:153-199 | The answer is the accepted flag, the status follows it |
| FirewallCore.Firewall.Apply | internal/core/firewall.go:311-620 | Each outcome if and only if its cause: kept exactly when everything was read and written, no panic mode, and with the window on an answer before start plus length; Staged untouched; kept: Current, Backup, kernel, record and marker; refused: nothing changed; a failed read: the rules file and the marker as they stood at that read; unconfirmed: Current back, the marker gone, and kernel and record for every outcome of both writes and of panic mode; when undisturbed, exactly when kernel and record come back |
| FirewallCore.Firewall.Rollback | internal/core/firewall.go:633-883 | The files always go back; under panic mode kernel and record stay as they are; otherwise the previous rules are written under the configuration from before, or the first table is taken down, and what was written is recorded |
| FirewallCore.Firewall.RollbackKernel | internal/core/firewall.go:742-876 | Kernel and record after the kernel half, for every outcome of its write and of the re-check |
| FirewallCore.Firewall.RestoreCurrent | internal/core/restore.go:76-272 | It writes if and only if the slot is free, panic mode off, the rules readable and the host ever configured; exactly what is reverted, written and recorded for every outcome of the write and of panic mode landing under it, with the configuration from the marker, the record or the settings; what it writes is authorised |
| FirewallCore.Firewall.Panic | internal/core/restore.go:413-455 | Marker, then window, then table: afterwards the marker is there and the kernel holds nothing |
| FirewallCore.Firewall.Resume | internal/core/restore.go:469-506 | With the slot taken only the panic marker goes; otherwise an unconfirmed set is reverted, and the table is restored if and only if the rules could be read and the host was ever configured; kernel, record and panic marker for every outcome of that restore |
| FirewallCore.Firewall.RevertIfMarked | internal/core/unconfirmed.go:108-136 | A marker sends Current back to Backup, is removed and yields the configuration it carried |
| FirewallCore.Firewall.Settle | internal/core/restore.go:360-391 | The new table stands if and only if the write succeeded and panic mode is off; otherwise the cycle rolls back |
| FirewallCore.Firewall.ChooseWhatToRestore | internal/core/appliedconfig.go:196-203 | Nothing on a host never configured; else Current with the marker's configuration, the record's, or the saved one |
| FirewallCore.Firewall.BeginApply | internal/core/firewall.go:165-173 | The slot goes to at most one cycle |
| FirewallCore.RulesStore.SaveStaged | internal/core/rules.go:121-206 | One rule type of Staged replaced and the other six kept, if and only if the result validates; nothing else changed |
| FirewallCore.RulesStore.ImportRules | internal/core/rules.go:299-322 | Staged replaced by a valid set, nothing else changed |
| Models.ValidNamesPorts | internal/shared/validate.go:141-163 | A port field is valid if and only if it names some port, and only ports from 1 to 65535 |
| FirewallCore.RulesStore.BackupCurrent | internal/core/rules.go:227-237 | Current copied to Backup, nothing else changed |
| FirewallCore.RulesStore.PromoteStaged | internal/core/rules.go:240-250 | Staged copied to Current, nothing else changed |
| FirewallCore.RulesStore.Rollback | internal/core/rules.go:265-275 | Backup copied to Current, Staged kept |
| FilterTheorems.InputWalks | internal/core/nftables.go:789-951 | The compiled input chain walks every packet to the fate the stages give it |
| FilterTheorems.InputMeans | internal/core/nftables.go:789-1002 | The input hook admits a packet if and only if some stage accepts it |
| FilterTheorems.ModulesOnlyRemove | internal/core/nftables.go:822-931 | Switching protection modules on never turns a drop into an accept, whatever is logged |
| FilterTheorems.LogsDecideNothing | internal/core/nftables.go:1139-1157 | No log option and no log sink changes a verdict |
| FilterTheorems.BogonFilterTakes | internal/core/nftables.go:1463-1531 | The bogon filter removes exactly the packets that reach it from a bogon IPv4 source not covered by the allowlist, a container network or a host rule naming source and port |
| FilterTheorems.FragmentsMean | internal/core/nftables.go:1405-1431 | The fragment hook drops exactly IPv4 fragments for this host off loopback |
| FilterTheorems.ForwardMeans | internal/core/nftables.go:2352-2397 | The forward hook admits a packet if and only if the forward stages, said in the settings' own terms, accept it, or leave it to an open policy |
| FilterTheorems.PublishedPortsNeedARule | internal/core/nftables.go:2503-2615 | With published ports filtered, in every routing mode, a new packet into a container network from outside crosses if and only if no list names its source and a forwarded rule names protocol, port and source |
| FilterTheorems.ClosedUnlessSaid | internal/core/nftables.go:714-721 | With no routing mode set, or closed, a new packet neither from nor to a container network crosses if and only if published ports are filtered, no list names its source and a forwarded rule names protocol, port and source |
| FilterTheorems.NetworksAre | internal/core/forward_family.go:38-69 | An entry is a container network if and only if Docker is enabled and it is a detected bridge that is let in or a configured network, and no IPv6 one where IPv6 is blocked |
| FilterTheorems.FeedOrderIs | internal/shared/countries.go:117-130 | The rule order is a permutation of the enabled feeds in which no list follows a country |
| InputProof.ScansMean | internal/core/nftables.go:1595-1657 | Which flag bytes count as a scan: none, FIN alone, all, SYN with FIN, RST with FIN, RST with SYN, or FIN with PSH and URG |
| Redirects.RedirectsMean | internal/core/nftables.go:3047-3102 | The nat hook sends a packet for this host to the serving port of the first redirect that names its protocol and port, and leaves every other packet alone |
| FilterTheorems.SourcelessNeedsANetwork | internal/core/forward_family.go:13-108 | For packets of a family with no container network the forward hook decides as if no rule without sources existed |
| FilterTheorems.RepliesCrossFirst | internal/core/nftables.go:2352-2397 | Established packets cross before any deny; with nothing to render the policy decides |
| ForwardProof.ForwardWalks | internal/core/nftables.go:2302-2615 | The compiled forward chain walks every packet to the fate its stages give |
| Matches.CidrMatchTests | internal/core/nftables.go:2211-2261 | The expressions built for an entry test exactly that the packet is of its family and meets it, negated or not |
| Matches.MatchOfTests | internal/core/nftables.go:1549-1593 | Each list renders exactly the entries it can read, and the rendered match holds exactly for the covered sources |
| Matches.PortTests | internal/core/nftables.go:3146-3170 | The port expressions hold exactly for the ports of a single port or range |
| NftablesManager.Manager.ApplyWithFeeds | internal/core/nftables.go:636-1003 | The builder appends exactly the specified table, in order, over the core's own bogon ranges; the table has no finding; nothing is built for an invalid rule set |
| NftablesManager.Manager.BuildForwardChain | internal/core/nftables.go:2352-2397 | The forward part of the specification, and whether the list chain exists |
| NftablesManager.Manager.AddForwardLists | internal/core/nftables.go:2429-2474 | The list chain and its jump, as specified |
| NftablesManager.Manager.AddForwardPortList | internal/core/nftables.go:2503-2560 | The forwarded accepts of one protocol, as specified |
| NftablesManager.Manager.AddBogonFilter | internal/core/nftables.go:1463-1531 | Exceptions before drops, then the jump, as specified |
| NftablesManager.Manager.AddSshBruteForce | internal/core/nftables.go:1769-1850 | The metered ports' chain, meters and jumps, as specified |
| NftablesManager.Manager.MeterPorts | internal/core/nftables.go:1754-1767 | The ports flagged for SSH, or 22 when none is |
| NftablesManager.Manager.AddPerSourceRateLimit | internal/core/nftables.go:2010-2061 | One meter rule a family, as specified |
| NftablesManager.Manager.AddLogged | internal/core/nftables.go:1146-1157 | The log rule, if any, and then the acting rule with the same match |
| NftablesManager.Manager.AssembleNetworks | internal/core/forward_family.go:38-69 | Detected bridges and configured networks, IPv6 ones only where IPv6 is not blocked |
| NftablesManager.Manager.OrderFeeds | internal/shared/countries.go:117-130 | The feeds in rule order: lists before countries |
| Reach.ReachableIsSound | internal/shared/reach.go:123-279 | Open implies the compiled chain admits the connection; blocked implies it drops it if and only if IPv6 is blocked for the source or no unseen bridge accepts it; always inside Docker's pool |
| Reach.BlockedButAdmitted | internal/shared/reach.go:196-215 | The failing inputs: with no rules, a source on a detected bridge outside the pool is called blocked and let in |
| Reach.UnknownExactlyWhen | internal/shared/reach.go:123-279 | The answer is unknown if and only if the source is not known, or neither loopback nor the IPv6 mode decides and the bogon filter, a possible bridge or raw lines are in the way, each said in plain terms |
| Reach.CustomLinesDecide | internal/shared/reach.go:258-268 | Where raw lines make the answer unknown, the chain admits the connection or not as the lines do |
| Reach.BridgeDecides | internal/shared/reach.go:190-206 | Where a possible bridge makes it unknown, a detected bridge with that source lets it in |
| Reach.BogonExceptionDecides | internal/shared/reach.go:178-188 | Where the bogon filter makes it unknown, what gets in has a container network or a rule naming source and port |
| Reach.PoolIs | internal/shared/reach.go:101-111 | Docker's pool is exactly 172.16 to 172.31 |
| Reach.LoopbackIs | internal/shared/reach.go:141-149 | The loopback addresses are exactly 127.0.0.0/8 and ::1 |
| FeedReach.ReachableOverTheStore | internal/core/feeds.go:387-426 | The same soundness with the feed hits taken from the stored copies and the kernel sets loaded from them |
| FeedReach.KernelAnswersForTheFile | internal/core/nftables_feeds.go:179-218 | A packet's set lookup and the stored prefixes agree about every address |
| FeedReach.FeedHits | internal/core/feeds.go:391-426 | The hits are exactly the feeds whose copy holds the address |
| Reach.Reachable | internal/shared/reach.go:123-279 | The ladder of checks gives the answer the theorem is about |
| Reach.InAnyEntry | internal/shared/reach.go:288-306 | Found if and only if some entry covers the source |
| Reach.InAnyCidr | internal/shared/reach.go:308-320 | Found if and only if some network contains the source |
| RuleCheck.CheckRules | internal/core/nftables_check.go:131-238 | The findings are exactly the faults of the table; none if and only if it is clean |
| RuleCheck.CheckRule | internal/core/nftables_check.go:131-200 | The findings, jump sites and accept of one rule, exactly |
| CheckTheorems.CleanJumpsLand | internal/core/nftables_check.go:220-238 | In every clean table the target of every jump exists and has rules |
| CheckTheorems.CleanJumpsNeverAccept | internal/core/nftables_check.go:131-238 | In every clean table without raw lines behind a jump, a chain jumped to never accepts, for every packet and depth; with no redirect and no queue, stolen, repeat or stop verdict behind a jump, it drops or returns |
| CheckTheorems.CleanButSendsElsewhere | internal/core/nftables_check.go:195-210 | The failing input: for each of the queue, stolen, repeat and stop verdicts, a clean table whose jump target sends every packet elsewhere |
| CheckTheorems.CleanExactlyWhen | internal/core/nftables_check.go:131-238 | There is no finding if and only if every mask on a loaded conntrack state is four bytes wide and between 1 and 15, every verdict is one of the eleven the kernel defines, every target of a jump or goto has rules and none of them accepts |
| CheckTheorems.CleanMasksMatch | internal/core/nftables_check.go:266-275 | In a clean table every conntrack mask names only states there are and can match one |
| BuilderCheck.BuilderPassesItsOwnCheck | internal/core/nftables.go:748-951 | For every rule set, bridges and configuration that has a range to filter when the bogon filter is on, the built table has no finding |
| BuilderCheck.CompiledIsClean | internal/core/nftables.go:748-951 | The whole table in force, custom rules and last log line included, is clean for the same inputs and has neither raw lines nor verdicts that send elsewhere behind a jump |
| BuilderCheck.CoreJumpsDropOrReturn | internal/core/nftables.go:748-951 | For the same inputs, every chain the core's table jumps to exists and drops or returns every packet |
| BogonRanges.RangesAre | internal/shared/reach.go:87-99 | Exactly which dotted quads the list covers |
| Ranges.MergedIsCanonical | internal/core/nftables_feeds.go:68-91 | Merged ranges are sorted, disjoint, non-adjacent and hold exactly the addresses of the valid prefixes |
| Ranges.CanonicalIsUnique | internal/core/nftables_feeds.go:68-91 | Two canonical lists of the same addresses are equal |
| Ranges.EqualSetsMergeAlike | internal/core/nftables_feeds.go:68-91 | Prefix lists with the same addresses merge to the same list |
| Ranges.Compact | internal/core/nftables_feeds.go:75-91 | The in-place compaction leaves the merge in the front of the array |
| FeedSets.MergeRanges | internal/core/nftables_feeds.go:68-91 | Sorting and compacting give the canonical form |
| FeedSets.SplitFamilies | internal/core/nftables_feeds.go:94-102 | The two halves concatenate to the list, each of one family and canonical |
| FeedSets.ElementsMean | internal/core/nftables_feeds.go:108-118 | The elements increase strictly and the kernel reads them as exactly the ranges' addresses, open at the top of the family |
| FeedSets.AddFeedElements | internal/core/nftables_feeds.go:151-161 | The calls together carry all elements in order, each within one netlink attribute, and no more calls than budgeted |
| FeedSets.BudgetCovers | internal/core/nftables_feeds.go:143-149 | Both families' calls stay within feedElementBytes |
| FeedSets.OverlapsAny | internal/core/feedstore.go:289-292 | The binary search answers whether any range overlaps |
| LastAddress.LastAddr | internal/core/nftables_feeds.go:44-60 | The byte loop finds the last address of the prefix |
| LastAddress.SetLow | internal/core/nftables_feeds.go:44-60 | The low host bits of the big-endian bytes are set, the others kept |
| FeedValidation.GlobalMeans | internal/core/feeds.go:48-58 | A prefix is global if and only if every address in it is |
| GlobalSpace.GlobalIsRoutable | internal/core/feeds.go:24-46 | Exactly which addresses count as global: IPv4 but first octet 0, 10, 127, 224 and up, 100.64-127, 169.254, 172.16-31 and 192.168; IPv6 in 2000::/3 but not in 2001:db8::/32 |
| FeedValidation.EntirelyMeans | internal/core/feeds.go:75-86 | A prefix is dropped early if and only if all its addresses lie in one non-global range |
| FeedValidation.OverlapMeans | internal/core/feeds.go:48-86 | Two prefixes overlap if and only if they share an address |
| FeedValidation.ValidateFeedEntries | internal/core/feeds.go:125-159 | The loop gives the specified outcome: refused beyond 100000 entries, and over the first entry that is no prefix or, not wholly outside global space, broader than /16 in IPv6, /4 for a country, /8 for a list; otherwise exactly the global prefixes kept, once each and in order, and kept, dropped and repeats add up to the entries |
| FeedValidation.ValidationMeans | internal/core/feeds.go:125-159 | The same of the specification, for every list of entries |
| FeedStores.FeedStore.Put | internal/core/feedstore.go:168-193 | The copy in, unkept copies out, the cache the file's up to the check time; a failed write changes nothing |
| FeedStores.FeedStore.Contains | internal/core/feedstore.go:238-246 | The index answers as an exists over the stored prefixes |
| FeedStores.FeedStore.AllowlistOverlap | internal/core/feedstore.go:253-276 | The number of allowlist entries that share an address with the feed |
| FeedStores.IndexAnswers | internal/core/feedstore.go:280-292 | Searching the family's half of the index is searching the prefixes |
| FeedUpdate.Desk.UpdateFeed | internal/core/feeds.go:209-374 | The state and answer after an update, its raw entries validated here, against the specification the theorems are about |
| FeedUpdate.Desk.ReplaceFeedSet | internal/core/nftables_feeds.go:377-396 | The kernel set replaced by the merged prefixes, or left alone |
| FeedUpdate.RefusalChangesNothing | internal/core/feeds.go:209-374 | Every refusal leaves kernel set and file as they were |
| FeedUpdate.KeptCopiesStay | internal/core/feeds.go:189-199 | No update drops or changes another feed's copy that Current, Staged or Backup switches on, and a stored one drops every other |
| FeedUpdate.StoredMeans | internal/core/feeds.go:321-359 | A version that is stored leaves its prefixes, their number, the dropped count, the check time and the time of the last change on record, and its merge in the kernel where the feed is live |
| FeedUpdate.ConfirmedMeans | internal/core/feeds.go:265-275 | A 304 is taken if and only if the feed is switched on with a copy to confirm and nothing stands in the way; it moves the check time and nothing else |
| FeedTheorems.TakenExactlyWhen | internal/core/feeds.go:209-359 | Over every run, a new version is taken if and only if no panic mode and no apply, the feed switched on, something left of valid entries, the kernel taking it where live, and, when it has fewer than 70 % of the prefixes of a live list, two refusals in this process since the last store or 304, the first 86400 seconds or more ago |
| FeedTheorems.RecordsCountTheirPrefixes | internal/core/feeds.go:321-322 | Over every run, each stored record counts its own prefixes and has at least one |
| FeedTheorems.AShrinkTakesADay | internal/core/feeds.go:161-185 | Over every run, a version with fewer than 70 % of the prefixes of a live list is stored only after two refusals in this process, the first 86400 seconds or more earlier, with no store or 304 between |
| FeedTheorems.KernelFeedsAreGlobal | internal/core/feeds.go:24-159 | Over every run and whatever entries arrive, no kernel feed set holds an address outside global space, said in octets and IPv6 groups |
| FeedTheorems.LiveFileFollowsTheKernel | internal/core/feeds.go:321-354 | Over every run of the feeds alone in which an update that is not turned away finds every feed of the table switched on in Current, a feed's kernel set is the one its file gives, unless the disk refused the last version the kernel took |
| FeedTheorems.UpdateKeepsInStepIff | internal/core/feeds.go:321-354 | A stored update keeps kernel sets and file together if and only if the feed's own set takes the version or has it, and every other set's feed is kept by Current, Staged or Backup or is empty |
| FeedProtocol.SetsComeWithTheTable | internal/core/nftables_feeds.go:377-396 | In every joint run of protocol and updates, accidents included, the kernel has feed sets for exactly the feeds of the table in force |
| FeedProtocol.SetsFollowTheFile | internal/core/feeds.go:321-354 | In every joint run whose updates come in undisturbed moments (no accident so far, no teardown owed), each feed of the table in force has the set its file gives, unless the disk refused the version the kernel took |
| FeedTheorems.OnlyTheDiskSeparatesThem | internal/core/feeds.go:340-354 | A feed falls behind only through an update of its own that answered not stored, which leaves the file alone |
| FeedTheorems.SetsHoldThePrefixes | internal/core/nftables_feeds.go:179-218 | The elements of one family hold exactly that family's addresses of the prefixes |
| Usage.EveryRunBalances | internal/core/usage.go:116-208 | Over every run, booked plus unbooked plus lost equals counted plus counted twice |
| Usage.NeverOverbooked | internal/core/usage.go:116-208 | With each reset before the next collect, a rule is never credited with more than it counted |
| Usage.BooksBalance | internal/core/usage.go:314-347 | Over every such run without foreign tables: booked equals counted, less the packets between a collect and the end of their table, less those since the last collect |
| Usage.BytesBalance | internal/core/usage.go:138-156 | The same of the bytes |
| Usage.SeenMeans | internal/core/usage.go:146-153 | Over every run, first and last seen are the times of the first and the last collect that booked packets |
| Usage.BookedTwiceIff | internal/core/usage.go:195-208 | Over every run, nothing is booked twice if and only if no reset follows a collect that found packets in its table |
| Usage.TheStoreIsItsMeters | internal/core/usage.go:116-208 | Collect and reset of the whole store do to each live rule what the steps above do; a record is kept for exactly the live port rules with a record or a counter |
| Usage.CollectBeforeTheResetCountsTwice | internal/core/usage.go:195-208 | A run with a collect between rebuild and reset that books one packet twice |
| Usage.UsageStore.Collect | internal/core/usage.go:116-183 | The stored records after a collect: live rules booked, dead ones dropped |
| Usage.UsageStore.ResetBaselines | internal/core/usage.go:195-208 | Every baseline back to zero, totals kept |
| LoginEventLog.EverythingIsAccountedFor | internal/core/loginevents.go:96-204 | For every sequence of events and sweeps: events equal opening lines plus summed counts plus what open buckets hold; the table never exceeds 1024 |
| LoginEventLog.TwoLinesPerBurst | internal/core/loginevents.go:96-204 | In every run a burst gets an opening line and at most one summary; a slot's bursts are a window apart |
| LoginLines.TwoLinesPerWindow | internal/core/loginevents.go:96-204 | In every run, no three lines of one key fall into any half-open interval of 60 seconds |
| LoginEventLog.LoginEvents.Record | internal/core/loginevents.go:96-157 | One event is written, counted or folded into the overflow bucket, and accounted for |
| LoginEventLog.LoginEvents.Sweep | internal/core/loginevents.go:160-178 | Exactly the windows that are over are summed up and closed |
| LoginEventLog.LoginEvents.FinalSweep | internal/core/loginevents.go:214-228 | The sweep on the way out leaves nothing unreported |
| PacketLogs.PacketLog.Add | internal/core/packetlog.go:270-285 | Ring, file, number and whether the file is still kept up, after each outcome of append and rewrite; never more than one line above twice the ring |
| PacketLogs.SpillFile.Append | internal/core/packetlog.go:407-420 | The line first, then the rewrite past the limit, with either failing |
| PacketLogs.PacketLog.Persist | internal/core/packetlog.go:357-392 | After a restart the ring is the end of the file, the file is rewritten to it, and numbering goes on above it |
| PacketLogs.Ring.OldestFirst | internal/core/packetlog.go:302-308 | The ring, oldest first |
| PacketLogs.Ring.Query | internal/core/packetlog.go:312-338 | The newest matching entries up to the limit, and how many match in all |
| PacketLogs.ReplayRebuildsTheRing | internal/core/packetlog.go:357-464 | Replaying the file, also after a crash between append and rewrite, gives the very same ring, and numbering goes on |
| PacketLogs.NumbersGoOnIff | internal/core/packetlog.go:363-383 | Numbers after a restart are new if and only if the file had kept up to the last entry |
| PacketLogs.PacketLog.PageThrough | internal/core/packetlog.go:312-338 | Repeated queries below the last number seen concatenate to exactly the filtered ring |
| PacketLogs.TheRingIsTheEndOfTheLog | internal/core/packetlog.go:270-392 | Over every run of packets, failing appends, failing rewrites and restarts that find the file up to date, the ring is the end of everything logged in all lives and the numbers rise strictly |
| PacketLogs.ABehindFileRepeatsNumbers | internal/core/packetlog.go:363-383 | After such a run, the packet following one more restart gets a new number if and only if that restart found the file up to date |
| Shutdown.EveryAddIsInTime | internal/core/daemon.go:795-807 | In every interleaving an Add, tracked or made by a connection at work, comes before any Wait began or finds the counter positive |
| Shutdown.TheCounterIsTheWork | internal/core/daemon.go:473-483 | In every interleaving the counter counts exactly the goroutines that are there |
| Shutdown.NothingRunsAfterStop | internal/core/daemon.go:578-619 | Once Stop returned no connection and no goroutine it started runs, and none ever starts |
| Shutdown.NoPeerHoldsStopUp | internal/core/daemon.go:590-602 | A Stop that waits has closed every connection that waits on its peer |
| Shutdown.WaitingTooEarlyIsTooLate | internal/core/daemon.go:571-588 | A Stop that skips the mutex can return and have work start after it |
| Shutdown.Daemon.Track | internal/core/daemon.go:473-483 | Work is counted if and only if the daemon is not stopping, as steps of the machine |
| Shutdown.Daemon.WaitOnPeer | internal/core/daemon.go:652-671 | A connection registers if and only if the daemon is not stopping |
| Shutdown.Daemon.BeginStop | internal/core/daemon.go:578-602 | Channel, mutex, sweep: every registered connection is closed before the Wait |

## Left out

- Text: addresses, CIDRs, ports, JSON, TOML and audit lines are values already parsed; `Entry` keeps comments and unreadable entries apart.
- Netlink marshalling, socket buffers, NFLOG binding and packet decoding, SO_PEERCRED and systemd notification.
- File writes either complete or kill the process: the branches of apply and rollback that report a failed rename, and feed-store files that do not parse, are not steps of the machine.
- Rate meters and connection limits answer from an oracle for each packet; what a meter counts is not modelled.
- Custom rules are an arbitrary function of the packets no earlier rule decided; the nft subprocess is not modelled.
- What happens to a packet after a redirect gave it its new port; `Reach.ReachableIsSound` is about the input chain only.
- Which log lines a packet leaves behind: only that they change no verdict is shown.
- FeedTheorems.LiveFileFollowsTheKernel: assumes that an update finds every feed of the table switched on in Current; FeedProtocol.SetsFollowTheFile derives it from the protocol.
- FeedProtocol.SetsFollowTheFile: says nothing of updates after an accident or under an owed teardown, where the exact condition is FeedTheorems.UpdateKeepsInStepIff; an update is one step here, as it holds the apply slot throughout, so a panic teardown between its kernel write and its file write is taken as coming after both.
- The protocol identifies a table by rules and configuration: detected bridges count as fixed between two writes.
- CheckTheorems.CleanJumpsNeverAccept: drop-or-return is claimed one way only; whether a verdict that sends elsewhere is ever reached is a question about packets, which no look at the table decides.
- LoginLines.TwoLinesPerWindow: the sweep on the way out runs a window ahead of the clock, and its lines carry that time here.
- Docker detection, the published-port warning, and the Docker reconciler beyond its call of RestoreCurrent.
- Rule tags, counters' byte totals beyond the record, and the snapshot files.
- Configuration loading, limit clamping, telemetry, web handlers, the command line and the apply preview's texts.
- FirewallCore.Firewall.Apply: one method call carries the interference of one cycle (a console panic under the write, one answer in the window); arbitrary interleavings are the machine's, in ProtocolTheorems.
- A spill line cut short by a crash, which replay counts as discarded, and files numbered by hand.
- AcceptanceWindow.Acceptance.Wait: the blocking half is left to the machine, which takes the step once a channel is ready.
- Reach.Reachable: the behind-a-proxy answer is modelled, but no chain walk is claimed for it, because the source is not known then.
- ProtocolTheorems.CrashSafe: states authorisation of rules, not of options, because the code re-records the configuration only at the end of a rollback.
