# TinyBox: verified models of its protocols, printers and stateful objects

TinyBox gives agents boxes to work in: Docker networks with an egress filter,
boxes recorded in a document store, supervised shells, directory jails. This
project models the parts of it that carry real state machines, concurrent
protocols or text that another program parses, and proves what they promise.
`dafny verify dfyconfig.toml` checks all of it.

| file | what it covers |
|---|---|
| `Firewall.dfy`, `EgressPlan.dfy`, `Ordered.dfy` | an allowlist becomes pinned targets, and these become ordered rules; packets are decided by first match |
| `EgressNames.dfy`, `EgressHost.dfy`, `EgressInvariant.dfy`, `EgressRecovery.dfy`, `EgressController.dfy` | installing and removing a filter on a machine where every command may fail before, after or without a readable answer |
| `EgressBeside.dfy`, `EgressFleet.dfy` | several boxes on one machine, prepared and cleaned up in any order |
| `EgressEnforcement.dfy` | from an allowlist to the verdict on every packet |
| `Migration.dfy`, `MigrationProgress.dfy` | any number of migrators copy, read back and delete legacy rows, with crashes and delayed legacy writers |
| `Repo.dfy`, `BoxStore.dfy` | compare-and-swap updates under interference; insert, set_state and remove interleaved by any number of clients |
| `NativeShell.dfy` | the supervised shell client: batches, cancel, timeout, yield, cleanup on every error path |
| `WindowsQuoting.dfy`, `ShellCommand.dfy`, `Base64.dfy`, `Seatbelt.dfy`, `Scanner.dfy` | three printers, each with a reader of the language it prints |
| `Denials.dfy` | which read denials stay in place when the jailed process renames files |
| `StagedWriter.dfy`, `JailRegistry.dfy`, `BoxRecord.dfy` | the staged file writer, the jail registry and the stored form of a box |

How failures are modelled. A class that acts on the outside world holds a
script that says how each coming call ends; the script is arbitrary, so a
contract about any script is a contract about any sequence of failures. A
finite script stands for a run that has come to an end; what follows it works
(for the shell client, is refused).
Ghost logs record every command with the state it left behind, so a claim
about a log is a claim about every intermediate state.

How the egress filter is modelled. A host holds Docker networks with their
labels and one filter table per address family. `Recoverable(h, h0, a)` says
that `h` differs from the machine `h0` without the attempt `a` only by the
attempt's own network, by chains that are a prefix of the complete chain (so
empty, or starting with the owner marker) and by hooks, and that a hooked chain
is complete. A hook may stand anywhere below rules of other interfaces, since
every box that is prepared later puts its own hooks first. `h0` is determined by
`h`: it is `Strip(h, a.names)`. `Held` and `Standing` say that an attempt is
recoverable, or installed, against that base. Packets are decided by walking the
tables, jumps included.

Where code and documentation differ, the code is followed. `clear` of the jail
registry reports success with nothing saved when memory is empty, even if
earlier failed saves left records on disk (`JailRegistry.ClearedThenBack`).
An `abort` of the staged writer that fails leaves a writer whose next `finish`
still publishes (`StagedWriter.FinishAfterFailedAbort`). `nested_denial` refuses
a writable path itself and denials below other denials although these stay in
place (`Denials.RefusedThoughSealed`). The program of a Windows command line
does not always survive (`WindowsQuoting.CommandLineRoundTrip` says when).

## Model

| member | source | states |
|---|---|---|
| `Firewall.DenyBlocksMeaning` | crates/tinybox-docker/src/egress_enforcement.rs:813-830 | the denied prefixes cover exactly the loopback and cloud-metadata addresses |
| `Firewall.ForwardChainMeaning` | crates/tinybox-docker/src/egress_enforcement.rs:590-748 | the compiled forward chain accepts a packet iff its source is specified, its destination is not denied and it is TCP to a pinned address and port or established; it drops every other packet |
| `Firewall.InputChainMeaning` | crates/tinybox-docker/src/egress_enforcement.rs:602-670 | towards the host only established traffic passes, plus neighbour solicitation and advertisement on IPv6 (sections 4.3 and 4.4 of RFC 4861), never from the unspecified source |
| `EgressPlan.Unmap` | crates/tinybox-docker/src/egress.rs:159-166 | mapped addresses become their IPv4 address (section 2.5.5.2 of RFC 4291), all others stay, and the result is never mapped |
| `EgressPlan.LinkLocalRange` | crates/tinybox-docker/src/egress.rs:184-189 | the refused link-local addresses are exactly fe80::/10 (section 2.5.6 of RFC 4291) |
| `EgressPlan.PinHost` | crates/tinybox-docker/src/egress.rs:106-135 | a literal is never looked up, a name exactly once; the pinned list is the sorted set of unmapped answers, and a refusal names its cause: lookup, no address, forbidden or link-local |
| `EgressPlan.PinHosts` | crates/tinybox-docker/src/egress.rs:99-136 | each distinct name is looked up at most once whatever the outcome, and its entry comes from that one answer |
| `EgressPlan.Enumerate` | crates/tinybox-docker/src/egress.rs:138-152 | the nested loops produce the product of names, ports and addresses |
| `EgressPlan.ProductSorted` | crates/tinybox-docker/src/egress.rs:138-152 | that product of sorted lists is strictly sorted and has exactly the combinations as members |
| `EgressPlan.Plan` | crates/tinybox-docker/src/egress.rs:93-153 | a plan is the strictly sorted product of distinct names, ports and unmapped answers, each name resolved once even by a resolver that changes its mind, no target loopback or link-local; every rejection names its cause, and exactly an invalid policy is rejected as one, asking no resolver |
| `EgressPlan.PlanIsCanonical` | crates/tinybox-docker/src/egress.rs:93-153 | two plans with the same targets are the same list |
| `EgressPlan.PlanDecides` | crates/tinybox-docker/src/egress.rs:93-189 | forwarding by a plan is forwarding by the allowlist: TCP to an address a listed name resolved to, on a listed port, shadowed by no deny rule, or established traffic outside the denied addresses |
| `EgressNames.ScopePreimageInjective` | crates/tinybox-docker/src/egress_enforcement.rs:352-365 | the framed scope preimage determines namespace and id |
| `EgressNames.ChainOwnerPreimageInjective` | crates/tinybox-docker/src/egress_enforcement.rs:332-346 | the framed owner preimage determines namespace, id and attempt |
| `EgressNames.TokenDomainsDisjoint` | crates/tinybox-docker/src/egress_enforcement.rs:332-365 | no scope preimage is an owner preimage, unless a namespace has one particular length of 8.4 * 10^18 bytes |
| `EgressNames.TokenDomainsMeet` | crates/tinybox-docker/src/egress_enforcement.rs:332-365 | at exactly that length such a pair exists, so the exclusion cannot be dropped |
| `EgressNames.TokensIdentify` | crates/tinybox-docker/src/egress_enforcement.rs:292-365 | under a collision-free hash equal scopes mean the same box and equal markers the same attempt of the same box |
| `EgressNames.ChainNamesDistinct` | crates/tinybox-docker/src/egress_enforcement.rs:292-318 | the two chain names differ, have 28 characters and carry the box prefix that the orphan scan looks for; the bridge name has 15 |
| `EgressHost.FreshNamesApart` | crates/tinybox-docker/src/egress_enforcement.rs:598-601 | a listing that does not mention the chain names has no such chain and no jump to one |
| `EgressInvariant.CompiledIsClosed` | crates/tinybox-docker/src/egress_enforcement.rs:590-748 | every compiled chain starts with the owner marker, jumps nowhere and ends in an unconditional drop |
| `EgressInvariant.CommandKeeps` | crates/tinybox-docker/src/egress_enforcement.rs:553-713 | each command that install and cleanup may issue keeps the recovery invariant, wherever other boxes' hooks stand |
| `EgressInvariant.PrefixIsMarked` | crates/tinybox-docker/src/egress_enforcement.rs:750-792 | a chain of the attempt that has rules shows its owner marker |
| `EgressInvariant.PlacedTaken` | crates/tinybox-docker/src/egress_enforcement.rs:675-699 | a box's own packets meet its hook whatever hooks of other boxes were inserted above it |
| `EgressInvariant.PlacedUnnoticed` | crates/tinybox-docker/src/egress_enforcement.rs:675-699 | packets of other interfaces are decided as if the hook were not there |
| `EgressInvariant.UnhookedIsUnreferenced` | crates/tinybox-docker/src/egress_enforcement.rs:799-811 | an unhooked chain of the attempt is referenced from nowhere, so it can be deleted |
| `EgressInvariant.OtherInterfacesUnaffected` | crates/tinybox-docker/src/egress_enforcement.rs:675-699 | in every recoverable state packets from another interface get the verdict of the machine without the attempt |
| `EgressInvariant.BoxForwarding` | crates/tinybox-docker/src/egress_enforcement.rs:603-699 | as soon as the forward hook is in, in any intermediate state, the box's forwarded packets are decided by the plan alone |
| `EgressInvariant.BoxInput` | crates/tinybox-docker/src/egress_enforcement.rs:603-699 | the same for packets to the host |
| `EgressRecovery.RecoverableIsVerified` | crates/tinybox-docker/src/egress_enforcement.rs:993-1073 | in every recoverable state a later cleanup can prove ownership of the network and of every chain |
| `EgressRecovery.PreparedFilters` | crates/tinybox-docker/src/egress_enforcement.rs:154-261 | on a prepared host the plan decides the box's forwarded packets, only replies and neighbour discovery reach the host, and other interfaces see the machine as before |
| `EgressRecovery.AllClearIsOriginal` | crates/tinybox-docker/src/egress_enforcement.rs:1075-1133 | once all four chains and hooks are gone both tables equal those before the attempt |
| `EgressBeside.BaseIsStrip` | crates/tinybox-docker/src/egress_enforcement.rs:993-1146 | a recoverable host determines the machine without the attempt |
| `EgressBeside.HostBeside` | crates/tinybox-docker/src/egress_enforcement.rs:553-713 | a command of another box, or of any program that keeps off the attempt's names and puts nothing for its bridge above its hooks, keeps the attempt recoverable and, once installed, installed; the machine without the attempt accepts the same command |
| `EgressBeside.InterleavedRun` | crates/tinybox-docker/src/egress_enforcement.rs:553-713 | however the single commands of several attempts interleave and fail, each attempt stays recoverable |
| `EgressBeside.StripHolds` | crates/tinybox-docker/src/egress_enforcement.rs:1075-1144 | taking one box away leaves the others recoverable |
| `EgressFleet.StripAny` | crates/tinybox-docker/src/egress_enforcement.rs:1075-1144 | the machine without any box does not depend on the order in which boxes are taken away |
| `EgressFleet.Fleet.StartBox` | crates/tinybox-docker/src/egress_enforcement.rs:154-261 | preparing a further box under any failures: live boxes are recoverable, and installed if they were, at every host on the way; prepared means it stands; otherwise it left nothing or joins the recoverable ones |
| `EgressFleet.Fleet.StopBox` | crates/tinybox-docker/src/egress_enforcement.rs:263-268 | cleaning up any one of several boxes: success gives back exactly the machine without it, a failure-free cleanup succeeds, and the others notice nothing at any host on the way |
| `EgressFleet.Fleet.Drain` | crates/tinybox-docker/src/egress_enforcement.rs:847-855 | after any calls with any failures, one failure-free cleanup each, in any order, restores the machine from before the first box |
| `EgressFleet.FleetFilters` | crates/tinybox-docker/src/egress_enforcement.rs:154-261 | every installed box is filtered by its own plan, however many boxes were prepared before or after it |
| `EgressFleet.FleetPasses` | crates/tinybox-docker/src/egress_enforcement.rs:675-699 | packets of every interface that is no box's bridge are decided as on the machine without boxes |
| `EgressController.Controller.Preflight` | crates/tinybox-docker/src/egress_enforcement.rs:1046-1073 | it returns the existing chains only if each of them is provably the attempt's, and issues nothing |
| `EgressController.Controller.Unhook` | crates/tinybox-docker/src/egress_enforcement.rs:1075-1101 | removes one hook, keeps recoverability at every command and touches no other slot |
| `EgressController.Controller.Dismantle` | crates/tinybox-docker/src/egress_enforcement.rs:1102-1133 | flushes and deletes one chain, restoring the marker when the deletion fails; recoverable at every command |
| `EgressController.Controller.DeleteOrMark` | crates/tinybox-docker/src/egress_enforcement.rs:1103-1133 | deletes one flushed chain; if the deletion alone fails the chain carries its marker again |
| `EgressController.Controller.Cleanup` | crates/tinybox-docker/src/egress_enforcement.rs:993-1146 | nothing is issued unless labels and all existing chains were verified, and it succeeds only then or when neither network nor orphaned chain exists; each command is a cleanup command and changes only the named chains, their hooks and the network; a recoverable host stays recoverable under any failures, success restores the machine without the attempt exactly, and if no command fails a verified host is cleaned up |
| `EgressController.Controller.InstallPinned` | crates/tinybox-docker/src/egress_enforcement.rs:715-748 | appends exactly the pinned rules of one family, recoverable at every command |
| `EgressController.Controller.InstallFamily` | crates/tinybox-docker/src/egress_enforcement.rs:590-713 | it succeeds iff no command fails and no rule mentions the chain names; then both complete chains of the family are hooked; the other family is untouched, every intermediate state is recoverable, and every chain that exists is recorded unless its creation reported a failure |
| `EgressController.Controller.InstallFirewall` | crates/tinybox-docker/src/egress_enforcement.rs:553-588 | success means all four complete chains are hooked |
| `EgressController.Controller.VerifyEngine` | crates/tinybox-docker/src/egress_enforcement.rs:404-452 | success means a native engine whose forward chains enter DOCKER-USER first; without failures it succeeds exactly then |
| `EgressController.Controller.Reconcile` | crates/tinybox-docker/src/egress_enforcement.rs:857-956 | after an ambiguous create, success means the host is as before, and anything else is recoverable; a network that was there before is not touched; without a failing command it succeeds unless a foreign network has unreadable labels, and a removal that failed after taking effect is found out |
| `EgressController.Controller.CreateBoxNetwork` | crates/tinybox-docker/src/egress_enforcement.rs:169-209 | a taken name is reported without effect; otherwise the network is there unless the command failed |
| `EgressController.Controller.Prepare` | crates/tinybox-docker/src/egress_enforcement.rs:154-261 | prepared means both families are completely filtered; refused means the host is exactly as before; a failed rollback leaves only what a cleanup can prove it owns; every intermediate state is recoverable. With a ready engine, a free name, targets outside the subnets and a confirmed creation, it prepares iff no command fails, and a single failing command makes the rollback fail iff it was the creation of a chain that took effect |
| `EgressController.Controller.Provision` | crates/tinybox-docker/src/egress_enforcement.rs:169-261 | the same from the creation of the network on |
| `EgressController.Controller.RollBack` | crates/tinybox-docker/src/egress_enforcement.rs:227-240 | the rollback restores the host unless a command fails or a chain was created by a command that reported a failure, and in that case never |
| `EgressEnforcement.PrepareAllowlist` | crates/tinybox-docker/src/egress_enforcement.rs:154-261 | from the allowlist on: a prepared box's forwarded packets are accepted iff the allowlist and the one recorded answer of each name allow them, in both families; the engine is verified before any lookup; without failures a plan outside the subnets is prepared, and a rejected plan has its reason |
| `EgressController.Controller.CleanupBox` | crates/tinybox-docker/src/egress_enforcement.rs:263-268 | a cleanup in which no command fails restores the host from any recoverable state; nothing is touched on an engine that is not ready |
| `EgressController.Controller.Lifecycle` | crates/tinybox-docker/src/egress_enforcement.rs:847-855 | one box: prepare under any failures, any number of cleanups that fail anywhere, then one failure-free cleanup: the host is exactly what it was |
| `Migration.NextKeeps` | crates/tinybox-drivers/src/migrations.rs:52-176 | every step of every migrator, crash and outside write keeps the migration invariant |
| `Migration.DeleteSourceKeeps` | crates/tinybox-drivers/src/migrations.rs:151-174 | deleting a source version loses nothing when this run read back an equal target |
| `Migration.MigrationSafety` | crates/tinybox-drivers/src/migrations.rs:52-214 | for every interleaving of migrators, crashes and legacy writers the latest legacy value of each id is in the source or its conversion is in the target; every deletion came after that run's own equal read-back; a receipt is written only when the run's rows are retired |
| `Migration.ScannedIsMoved` | crates/tinybox-drivers/src/migrations.rs:98-110 | in every interleaving each row a run scanned is among the rows it works on or, past that step, has left the source; a receipt is written only when every row that run scanned for that step has left the source |
| `Migration.RefusalsFail` | crates/tinybox-drivers/src/migrations.rs:112-240 | a failing call, a row that does not convert, a target that is not its copy, a row that changed meanwhile and a damaged receipt each end the run, changing no document unless a failing write took effect |
| `MigrationProgress.UndisturbedRunFinishes` | crates/tinybox-drivers/src/migrations.rs:52-214 | a run whose calls answer, whose scans return every row in any order, whose rows convert and whose targets are free or already right finishes with both sources empty, a faithful copy of every row and both receipts valid |
| `Migration.DamagedReceiptChangesNothing` | crates/tinybox-drivers/src/migrations.rs:178-240 | with an invalid receipt in place the store evolves as if no migrator ran |
| `Repo.Documents.PutIf` | crates/tinybox-drivers/src/repo.rs:149-155 | the documents as the request finds them decide: written iff the expected version is current, and then the document is there at the new version; a conflict changes nothing; a failing request commits at most once |
| `Repo.Documents.Update` | crates/tinybox-drivers/src/repo.rs:108-147 | under any interference a success commits, exactly once, the closure's answer to the value immediately before the commit, and the document is there; giving up takes max(1, attempts) conflicting writes and a change in every attempt; leaving alone or giving up commits nothing; undisturbed, one attempt decides |
| `BoxStore.NextKeeps` | crates/tinybox-drivers/src/box_store.rs:129-214 | every step of every client keeps the invariant that ties documents to the committed operations |
| `BoxStore.NoLostUpdate` | crates/tinybox-drivers/src/box_store.rs:187-207 | over all interleavings the store is the committed operations applied one after another, each at most once, each reply is the one the operation gives at its place, and writes stay within the budget |
| `BoxStore.AnswersAreAnswered` | crates/tinybox-drivers/src/box_store.rs:129-214 | storage that answers is never reported as failed, and a call gives up only when its budget of conditional writes is used |
| `BoxStore.LiveBoxKeepsItsInsert` | crates/tinybox-drivers/src/box_store.rs:129-147 | a live box has the specification and creation time of its last insert |
| `BoxStore.NeverResurrected` | crates/tinybox-drivers/src/box_store.rs:209-214 | after a remove, a box stays absent until the next insert, whatever set_state does |
| `BoxStore.RealTimeOrder` | crates/tinybox-drivers/src/box_store.rs:129-214 | a call that ended before another was issued took effect before it |
| `BoxStore.LiveBoxes` | crates/tinybox-drivers/src/box_store.rs:129-147 | in every run a document exists iff its last insert was not followed by a removal, and has the specification and creation time of that insert |
| `BoxStore.GoneUntilInserted` | crates/tinybox-drivers/src/box_store.rs:187-214 | in every run a box absent at some moment stays absent until an insert takes effect, whatever set_state calls are under way |
| `NativeShell.Supervisor.AppendBatch` | crates/tinybox-host/src/native_shell.rs:370-392 | a batch is taken iff it continues the cursor, and then exactly its chunks are added |
| `NativeShell.Supervisor.NextBatch` | crates/tinybox-host/src/native_shell.rs:410-458 | cancel and timer interrupt only before a cancellation was requested, and each is followed by a cancel; a failed read is cancelled and released unless a cancellation is under way; a broken poll names its reason |
| `NativeShell.Supervisor.Finish` | crates/tinybox-host/src/native_shell.rs:326-353 | releases once; a refused release is the error, otherwise exited, cancelled and timed-out processes finish and any other failure is the execution error |
| `NativeShell.Supervisor.Collect` | crates/tinybox-host/src/native_shell.rs:241-323 | from an honest module the observer sees a prefix of the log in order, all of it when the run finishes; a process is handed over only if nothing was cancelled, at the first passed yield point; an error has its reason in the trace |
| `NativeShell.Supervisor.StartProcess` | crates/tinybox-host/src/native_shell.rs:209-239 | create, reserve and start in this order, each only after the one before was acknowledged; a refusal is reported as that call's error |
| `NativeShell.Supervisor.CloseAfter` | crates/tinybox-host/src/native_shell.rs:190-206 | an acknowledged close keeps the result; a refused one is reported together with an earlier error |
| `NativeShell.Supervisor.Run` | crates/tinybox-host/src/native_shell.rs:146-207 | close is called exactly once and last unless the process is handed over running; release at most once, only after a terminal state or successful cancel, with no read or cancel after it; nothing is read before the process was started; output is the per-stream concatenation of what was observed; an error has its reason in the trace and names it: a refused call, a failed read, a batch off the cursor or a failed execution |
| `NativeShell.ResumeFromCursor` | crates/tinybox-host/src/native_shell.rs:308-321 | the bytes of a handed-over run followed by the log from its cursor are the bytes of the whole log |
| `WindowsQuoting.PushArg` | crates/tinybox-jail/src/windows.rs:788-819 | the loop with its backslash counter appends the recursive quoting |
| `WindowsQuoting.BuildCommandLine` | crates/tinybox-jail/src/windows.rs:775-786 | program and arguments, each quoted, separated by one space |
| `WindowsQuoting.ArgumentsRoundTrip` | crates/tinybox-jail/src/windows.rs:775-819 | CommandLineToArgvW gives back every argument list exactly, after any program without a quote |
| `WindowsQuoting.CommandLineRoundTrip` | crates/tinybox-jail/src/windows.rs:775-819 | program and arguments come back iff the program has no quote and does not both need quoting and end in a backslash |
| `WindowsQuoting.ProgramWithQuoteIsLost` | crates/tinybox-jail/src/windows.rs:775-819 | a program with a quote changes not only itself but the arguments the reader sees |
| `Base64.RoundTrip` | crates/tinybox-agent37/src/api.rs:266-272 | the encoding of standard input (section 4 of RFC 4648) decodes to the same bytes |
| `ShellCommand.SingleQuote` | crates/tinybox-agent37/src/api.rs:280-292 | the loop builds the quoted text |
| `ShellCommand.Compose` | crates/tinybox-agent37/src/api.rs:239-278 | the pushes build the composed command text |
| `ShellCommand.CommandTokenised` | crates/tinybox-agent37/src/api.rs:239-278 | sections 2.2.1, 2.2.2 and 2.3 of the POSIX.1-2017 Shell Command Language split the text into exactly the intended words and operators |
| `ShellCommand.TextRoundTrip` | crates/tinybox-agent37/src/api.rs:239-292 | reading the text gives back directory, environment, arguments and standard input iff every environment name is a valid name |
| `ShellCommand.CommandRoundTrip` | crates/tinybox-agent37/src/api.rs:239-292 | handed to a shell, the request comes back iff every environment name is valid and no value but the encoded standard input contains a NUL |
| `Seatbelt.RenderProfile` | crates/tinybox-jail/src/macos.rs:203-251 | the loops build the profile text |
| `Seatbelt.FeedEscaped` | crates/tinybox-jail/src/macos.rs:253-255 | an escaped path inside a string literal is read as the original path |
| `Seatbelt.ProfileRoundTrip` | crates/tinybox-jail/src/macos.rs:203-255 | the rendered text is read as exactly the rules the jail stands for, for every path text |
| `Seatbelt.RulesMeaning` | crates/tinybox-jail/src/macos.rs:203-251 | the last matching rule decides, for every operation and path, exactly what the jail promises |
| `Seatbelt.ProfileMeaning` | crates/tinybox-jail/src/macos.rs:203-255 | the rendered text permits a write iff the path is under the root, a read_write grant or /private/tmp, or is /dev/null, and is under no denial; a read iff it is under no denial; network and process creation iff the jail allows them |
| `Denials.ValidateDenials` | crates/tinybox-jail/src/macos.rs:106-125 | accepts iff every denial is UTF-8 and no writable path nests it; a refusal names the first such denial and the first reason |
| `Denials.NestedByDepth` | crates/tinybox-jail/src/jail.rs:313-317 | a direct child of a writable path and every path outside it are accepted, the path itself and everything deeper is refused |
| `Denials.WritablesMatchProfile` | crates/tinybox-jail/src/macos.rs:106-118 | the checked paths are those under which the rendered profile permits writes, besides the null device |
| `Denials.StableIffSealed` | crates/tinybox-jail/src/jail.rs:313-328 | denied objects survive every sequence of permitted changes iff no directory strictly between a writable path and a denial is itself undenied |
| `Denials.ExposedMoves` | crates/tinybox-jail/src/macos.rs:101-105 | otherwise one permitted rename takes the denied object to a path that is not denied |
| `Denials.AcceptedDenialsAreStable` | crates/tinybox-jail/src/macos.rs:106-125 | under an accepted jail, after any permitted changes every denied object is at its denied path and nowhere else |
| `Denials.RefusedThoughSealed` | crates/tinybox-jail/src/jail.rs:313-328 | a denial below another denial, and a denial of a writable path itself, are refused although they could not move |
| `StagedWriter.LocalFileWriter.WriteChunk` | crates/tinybox-host/src/files.rs:161-185 | exactly the contiguous non-empty chunks of an open, unpoisoned writer within 64 bits are acknowledged; a failing write poisons |
| `StagedWriter.LocalFileWriter.FinishTransfer` | crates/tinybox-host/src/files.rs:187-208 | success publishes unless the writer was already finished; a failing flush or sync keeps the file open and publishes nothing, otherwise the rename decides; a poisoned writer changes nothing |
| `StagedWriter.LocalFileWriter.AbortTransfer` | crates/tinybox-host/src/files.rs:210-226 | success means the staged file is gone, and the destination never changes |
| `StagedWriter.LocalFileWriter.Session` | crates/tinybox-host/src/files.rs:161-237 | over any calls and failures the destination changes at most once and only to all acknowledged contiguous chunks; poisoned means unchanged; a successful abort freezes the destination as it was before the abort; a successful finish without an earlier abort has published; no other file changes |
| `StagedWriter.StoryStep` | crates/tinybox-host/src/files.rs:161-237 | one more call keeps the claims about the whole history |
| `StagedWriter.FinishAfterFailedAbort` | crates/tinybox-host/src/files.rs:187-226 | a finish after a failed abort publishes the acknowledged chunks |
| `JailRegistry.IdsDistinct` | crates/tinybox-jail/src/registry.rs:530-535 | ids of timestamps with equally many digits are equal iff timestamp and counter are |
| `JailRegistry.IdsCollide` | crates/tinybox-jail/src/registry.rs:530-535 | two different pairs of timestamp and counter with one id, which is why ids are searched |
| `JailRegistry.LateIdsAreFree` | crates/tinybox-jail/src/registry.rs:160-186 | a large enough counter gives an id longer than every taken name, so the search ends |
| `JailRegistry.Registry.Allocate` | crates/tinybox-jail/src/registry.rs:160-186 | the search terminates and returns an id that is neither in the index nor on disk |
| `JailRegistry.Registry.CreateJail` | crates/tinybox-jail/src/registry.rs:160-213 | a new record is fresh and saved; a failure restores memory and the saved index, and the directories too unless removing the new directory itself failed |
| `JailRegistry.Registry.RenameJail` | crates/tinybox-jail/src/registry.rs:267-297 | iff the id is known and the save works: label and time of that record change, saved; otherwise nothing changes |
| `JailRegistry.Registry.SetJailNotes` | crates/tinybox-jail/src/registry.rs:305-330 | iff the id is known and the save works: notes and time of that record change, saved; otherwise nothing changes |
| `JailRegistry.Registry.DeleteJail` | crates/tinybox-jail/src/registry.rs:347-395 | a directory that resolves outside the base or not at all is refused and nothing is touched; inside, the removal and then the save decide; success removes directory and record, saved; a failed save drops the id in memory alone |
| `JailRegistry.Registry.ClearJails` | crates/tinybox-jail/src/registry.rs:407-415 | success empties memory and counts the jails; the saved index is emptied iff there was something to delete |
| `JailRegistry.Registry.Session` | crates/tinybox-jail/src/registry.rs:160-415 | over any operations and failures the saved index is what the answers say was saved, and memory is that index less the ids whose delete answered that the save failed; without such an answer the two are equal |
| `JailRegistry.LostExactly` | crates/tinybox-jail/src/registry.rs:381-395 | the ids missing from memory are exactly those whose delete failed to save since the last save or restart |
| `JailRegistry.NothingLost` | crates/tinybox-jail/src/registry.rs:381-395 | without a delete that failed to save memory equals the saved index |
| `JailRegistry.ClearedThenBack` | crates/tinybox-jail/src/registry.rs:347-415 | a delete whose save failed, a `clear` that reports 0, and a restart that brings the record back |
| `BoxRecord.TimeCut` | crates/tinybox-drivers/src/record.rs:97-111 | a stored creation time is the original cut to whole milliseconds toward the epoch and kept in 64 signed bits |
| `BoxRecord.DurationCut` | crates/tinybox-drivers/src/record.rs:93-95 | a stored duration is the original cut to whole milliseconds and kept in 64 bits |
| `BoxRecord.CutIsUnique` | crates/tinybox-drivers/src/record.rs:93-111 | cutting determines the result |
| `BoxRecord.EncodeAfterDecode` | crates/tinybox-drivers/src/record.rs:113-286 | encoding any decoded record gives the record back, the extreme times included |
| `BoxRecord.DecodeAfterEncode` | crates/tinybox-drivers/src/record.rs:113-286 | a box is stored iff every part is known, and is read back the same with its times cut |
| `BoxRecord.StoredBoxIsStable` | crates/tinybox-drivers/src/record.rs:113-286 | storing again loses nothing more |
| `BoxRecord.StoredUnderOwnName` | crates/tinybox-drivers/src/record.rs:35-85 | each state, source, lifecycle and network policy is stored under its own schema name |

## Left out

- EgressNames.TokenDomainsDisjoint: excludes one namespace length of about 8.4 * 10^18 bytes, whose length frame would spell the start of the owner domain; no such string fits in memory.
- NativeShell.Supervisor.Run: does not relate the timeout to the deadline, because the timer fires on its own short schedule.
- The text of docker and iptables output: listings and labels are structured state, and the predicates the controller computes from them are modelled; `-C` and the "already exists" reply are truthful, and a network is removed by its name rather than its id.
- SHA-256 and the 64-bit hash: parameters of which only the printed shape is used; the attempt token is taken as fresh.
- Commands of other boxes between two commands of one call: that each attempt stays recoverable is proved command by command (`EgressBeside.InterleavedRun`), but what a call itself answers is proved for calls that do not overlap in time. Live boxes share no network, bridge or chain name.
- `host_mappings`.
- Host-name syntax and the legacy spellings of metadata hosts: predicates given to the planner.
- How a line gets to the shell beyond its termination by a NUL.
- The wrap-around of the 64-bit id counter, transfer ids and cursors: natural numbers.
- Schema and expiry of documents beyond their comparison in the migration; paging in `list`; backoff and jitter.
- The base-path rewriting of old registry records at open, and where a record's directory resolves to, which is an input.
- Order in which `clear` visits the jails: any order.
- Paths of a Seatbelt profile are canonical absolute paths; relative paths, `.` and `..` are not modelled.
- Hard links and symbolic links in the file system of the denial model; renames of a writable path itself.
- Win32 and Landlock calls, HTTP clients, wire types, thread bridges, command-line plumbing, logging: adapters that would only add easy members.
