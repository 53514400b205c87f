# Verification of the leaf node and its satellites

This project models, in Dafny 4.11, the parts of the repository where a mistake would be hardest to see, and
proves what they promise. `dafny verify dfyconfig.toml` checks all of it.

**The leaf node (`internal/node`).** A node keeps one truth in three places: the state in memory, the state file,
and the user table of a running proxy process.

- `NodeTypes`, `Edits`, `Sync`, `Sampling` are the state and, as functions, all that edits, the client sync and a
  sample make of it. `EditEffects` says what each edit changes and that it changes nothing else; `Invariant` and
  `Histories` prove what every history of them keeps. `NodeState` is the state as an object, edited in place by the
  loops of the source; its methods equal those functions.
- `Engine` is what an update of the process can do: RPCs that may fail with or without effect, launches that may end
  in four ways, fallbacks. `XrayCore` is the node's handle on the process, with its diff loops.
- `StatKeys` and `Metering` are the accounting: counters that grow within a process generation and restart with the
  next, baselines, usage. A node records its run of the accounting system in a ghost field that every method only
  extends, by ticks the method names, so the theorems about runs hold across any calls.
- `Store` is a file system with crash points and the write that keeps the prior file; `NodeStore` saves and loads.
- `LeafNode` puts them together: transactions, samples, recovery, restart, shutdown, and any sequence of these calls.
  What a call may do is stated as a relation between two moments of a node (state and accounts, engine, file), so a
  caller sees the state after the leading sample, the outcome each failure leads to, and what success requires.
  Between calls the file of a node that is not halted holds its state for good: no crash can make it hold another.

**Satellites**, each with its own theorems: the Jalali conversion (`Jalali`), remark templates (`TemplateTokens`,
`UiTokens`, `RemarkTemplate`), the cache of remote routing sources (`RoutingCache`), UDP relay sessions
(`UdpRelay`), the obfuscation generator and validator (`Obfuscation`), forwarded ports (`PortSpec`) and their
listeners (`PortForwardSet`), the event rate limiter (`RateLimiter`), proxy names (`ProxyNames`). `Text`, `Numbers`,
`Options` and `Runs` hold shared strings, decimals, options and the two induction principles over runs.

Everything outside the code's control is an argument: clock readings, counter readings, the fate of each RPC,
launch, file-system step, bind and fetch. Random draws and the order in which a map is visited are choices that the
proofs leave open. Where several threads meet, each critical section is one step and the theorems are about every
interleaving of steps.

## What the code does not keep

Each of these is a lemma with a concrete input or an exact condition.

- A client or inbound whose name ends in a closing angle bracket is accepted but never metered, because splitting the
  counter name does not give the name back (`StatKeys.ParseRecovers`, `StatKeys.NeverMetered`). So its own traffic
  never counts towards its quota; usage already stored and the rows other masters push still do.
- The recorded table of a stopped engine can be one whose edit was rolled back, and a later launch that fails falls
  back to it (`Engine.RolledBackTableCanReturn`, `LeafNode.RecoveryServes`).
- The background loop waits before it recovers a stopped process and does not look again whether the node was halted
  meanwhile; then a halted node gets a running process (`LeafNode.Node.AfterWait`).
- The durability error is documented to follow a completed replacement. It also comes from the write of the backup,
  with the target not replaced (`Store.UncertainWithoutReplacement`). The node then halts although the file holds
  the current state.
- Fetch times of the routing cache can go back if and only if, when the process starts, an acceptable persisted row of
  a kind that can be fetched is ahead of the clock (`RoutingCache.ForwardUnlessRowAhead`).
- The rate limiter can allow a key too early if clock readings, which are taken before the lock, reach it out of
  order (`RateLimiter.OutOfOrderAllowsTooEarly`): pruning is invisible if and only if no call reads a clock within the
  cooldown of a send that a sweep has already forgotten (`RateLimiter.PruningIsInvisible`).
- A rekey time that is blank but not empty passes the validator as 0 instead of the default 120
  (`Obfuscation.ValidRenewsInTime`); stored values are stripped first, so none is like that
  (`Obfuscation.CanonicalIsNotBlank`).

## Model

| member | source | states |
|---|---|---|
| LeafNode.Node.Transaction | internal/node/node.go:85-147 | Three-way atomicity of one edit, for every outcome of the leading sample, the checks, the engine and the save. `mid` is the node after the leading sample: sampled, or unchanged if no process runs. From there: done exactly if the engine takes the table and the save succeeds, and then memory, file and process all carry the stamped new state; rejected or unchanged, nothing moved; not applied or not written, memory and file keep the state of `mid` and the process is stopped or on the old table; written doubtfully, the node is halted without a process and the file holds one of the two states; a halted node refuses and nothing at all changes |
| LeafNode.Node.Serve | internal/node/node.go:85-308 | Any sequence of edits, loop turns, recoveries and restarts: once an edit has ended in doubt, or the node was halted before, every later edit is refused and state and file stay as they are; the node keeps its invariant and one unbroken record of its accounts |
| LeafNode.CallsRecord | internal/node/node.go:149-239 | Over any sequence of calls that leaves a client there and neither resets nor renames it, its usage grows by exactly the bytes metered for it and by no more than its counters moved or had pending |
| LeafNode.Node.EditLocked | internal/node/node.go:98-146 | The part behind the leading sample: Rejected exactly when the edited, checked and synced state does not exist, Unchanged exactly when it equals the current one; otherwise a working engine never ends in NotApplied, and the save alone decides between Done, Doubtful and RolledBack |
| LeafNode.Node.CommitEdit | internal/node/node.go:123-146 | Apply, save, adopt, for a state that differs: the same outcomes, with the old table back after a failed save if the rollback works |
| LeafNode.Node.Prepare | internal/node/node.go:104-122 | The edit is made on a copy; there is a result exactly when the edit, every inbound check, the limit on inbounds and the sync accept it, and it keeps the whole-state invariant |
| LeafNode.Node.RollBack | internal/node/node.go:131-140 | After a failed save the process is on the old table or stopped, on the old table if the engine works, and the accounts stay consistent |
| LeafNode.Node.Push | internal/node/node.go:123-136 | State handed to the process and then to the file: which of the two has it in every outcome, that a working engine takes it, and that a failed save leaves the file, and what a crash can make of it, as it was |
| LeafNode.Node.Observe | internal/node/node.go:49-54 | A new process generation starts from an empty baseline, with the old readings settled |
| LeafNode.Node.SampleLocked | internal/node/node.go:149-239 | A sample without a reading changes nothing; with one that changes nothing it only moves the baseline; otherwise success leaves exactly the sampled, stamped state in memory, file and process, and the readings as baseline, or an empty one if the process was replaced; a failed one leaves memory alone and the process where it was, stopped, or the node halted; with a working engine the save alone decides |
| LeafNode.Node.TakeSample | internal/node/node.go:215-238 | The changed state is applied, saved and adopted with the readings as new baseline; an unchanged one always succeeds and only moves the baseline |
| LeafNode.Node.Recover | internal/node/node.go:296-301 | A stopped process is started: on the table of the state exactly if that launch comes up, else on the recorded table exactly if the fallback comes up, else not at all |
| LeafNode.RecoveryServes | internal/node/core.go:172-186 | It then serves a table the state asks for exactly if its own was launched or the recorded one is such a table |
| LeafNode.Node.Restart | internal/node/node.go:601-618 | A restart samples a running process first and fails where the sample fails; then it succeeds exactly if the launch comes up, with a new process on the table of the sampled state and an empty baseline; a halted node does not restart |
| LeafNode.Node.Tick | internal/node/node.go:272-308 | One turn of the background loop: a running process is sampled, for a stopped one, exactly then, the loop waits, a halted node is left alone |
| LeafNode.Node.AfterWait | internal/node/node.go:285-302 | The recovery after the wait does not ask whether the node was halted meanwhile: the node invariant survives exactly if it was not, or neither the launch nor the fallback comes up |
| LeafNode.Node.Shutdown | internal/node/node.go:260-271 | The last sample is taken if a process runs, then the process is stopped; the stop is marked clean exactly if the node is not halted and the save succeeds, and then the file holds, for good, the sampled state marked as stopped |
| LeafNode.Boot | internal/node/node.go:29-47 | A node comes up exactly if the state can be loaded, the first save succeeds and the launch comes up; it then serves the stored state, or a fresh one if there was none, stamped and marked as running, with the whole invariant and an empty baseline |
| Metering.RunConserves | internal/node/node.go:149-239 | Conservation over every run: the bytes a counter moved, over all process generations, are those metered, the change of those pending, and those lost when a process was replaced, summed along the run; no part is negative |
| Metering.LifeConserves | internal/node/node.go:149-239 | The same from the birth of a node: every byte ever moved is metered, pending or lost |
| Metering.LossesOnlyGrow | internal/node/node.go:49-54 | Only replacing the process loses bytes, and none comes back |
| Metering.TickKeepsWorldOk | internal/node/node.go:85-239 | Every step of sampling, editing, observing and of the process keeps states and accounts consistent |
| Metering.StretchRecords | internal/node/node.go:149-239 | Over any stretch of any run on which a client stays and is neither reset nor renamed, its usage grows by exactly the bytes metered for it, and by no more than its counters moved or had pending |
| Metering.NeverOvercounts | internal/node/node.go:149-239 | Recorded bytes between resets never exceed the true bytes |
| Metering.RunRecords | internal/node/node.go:149-239 | Recorded usage follows the meter across process restarts and other edits, over whole runs |
| Metering.ResetZeroes | internal/node/node.go:479-542 | A committed reset, of one client through any inbound that lists it or through the one named, or of many, leaves the client enabled with zero usage |
| StatKeys.ParseRecovers | internal/node/node.go:164-173 | Splitting a counter name gives its user or tag back if and only if the name holds no separator and does not end in a closing angle bracket |
| StatKeys.NeverMetered | internal/node/node.go:164-173 | A name that ends in a closing angle bracket, or holds the separator, is never recovered from any counter name |
| Sampling.SampleEnforcesQuotas | internal/node/node.go:184-214 | After a sample every enabled client has used less than its total, up and down together, in its own row and in every row of a master updated within 24 hours, and has no expiry or one to come; every enabled inbound has used less than its total and has no expiry or one to come |
| Sampling.SampleSwitchesOffExactly | internal/node/node.go:184-214 | A sample switches off exactly the clients and inbounds beyond those limits, and switches nothing on |
| Sampling.SampleCreditsInbounds | internal/node/node.go:184-194 | An inbound gains exactly what the counters `inbound>>>tag>>>traffic>>>uplink` and `downlink` add |
| Sampling.CreditIs | internal/node/node.go:158-168 | A counter adds its growth since the last reading of the process, all of it if it was not read before or has shrunk, and nothing if it is absent or negative |
| Sampling.ExpiryIsFixedOnce | internal/node/node.go:174-183 | A delayed-start expiry is fixed exactly when the row first gains bytes, to a date after now; a set one stays |
| Sampling.SampleCredits | internal/node/node.go:158-183 | A row gains exactly what the counters `user>>>email>>>traffic>>>uplink` and `downlink` add, and was last online now exactly if either added anything |
| Sampling.PruningKeepsVerdicts | internal/node/node.go:201-214 | Dropping stale overlay rows puts no client within its limits or beyond them |
| Sampling.SamplePrunes | internal/node/node.go:207-218 | Exactly the overlay rows not updated within 24 hours are dropped, and the masters left without any |
| NodeState.State.Sample | internal/node/node.go:158-214 | The loops over counters, rows and inbounds, in any order, compute the sampled state |
| NodeState.State.Credit | internal/node/node.go:158-183 | Reading the counters one after another adds the same as reading them at once |
| SampleSteps.OneMoreCounter | internal/node/node.go:158-183 | One more counter moves exactly the row, listing or inbound it names |
| SampleSteps.AllEnforced | internal/node/node.go:184-200 | Switching exhausted clients off one by one amounts to switching all off at once |
| NodeTypes.QuotaTestIsExact | internal/node/types.go:214-231 | The 64-bit test up >= total - down never overflows for counters that are not negative, and means, as does the quota test of the model, up + down >= total |
| NodeTypes.LimitsAreExact | internal/node/types.go:214-231 | A client is exhausted exactly if its own bytes or those in a master's row of the last 24 hours reach its total, or its expiry has passed |
| NodeTypes.DesiredServesOnlyTheEntitled | internal/node/node.go:56-83 | A user of any table the node asks for is an enabled client within its limits, listed under an enabled inbound within its own, with the id of that listing and its flow, or none over XHTTP or where the inbound disables flow |
| NodeTypes.DesiredServesTheEntitled | internal/node/node.go:56-83 | And every such client is served so, on every such inbound that lists it |
| NodeTypes.DesiredCarriesTheOpen | internal/node/node.go:56-83 | The table has an entry, with its tag, address, port and stream, for each enabled inbound within its limits, and for no other |
| NodeTypes.TableTags | internal/node/node.go:56-83 | Every inbound of the table comes from one of the state's, and tags stay distinct |
| Invariant.CommitKeepsStateOk | internal/node/node.go:104-122 | Every committed edit keeps the whole-state invariant: ids below their counters, distinct ids, ports and tags, rows exactly for the client emails and mirroring every listing, overlay rows only for known emails, all limits |
| Invariant.CommitsExactly | internal/node/node.go:98-122 | An edit of a good state is committed exactly if it is not refused, leaves at most 8 inbounds, all passing the checks and with different ports and tags, no client listed in two ways, and at most 64 clients |
| Invariant.SyncedListing | internal/node/types.go:173-206 | The row of a listing carries its id, total, expiry and enabled flag, and the inbound that lists the email last |
| Invariant.SyncedRow | internal/node/types.go:173-206 | There are rows for exactly the emails listed; those that stay keep id and usage, new ones start at zero with a fresh id |
| Invariant.SyncedOverlays | internal/node/types.go:199-212 | Exactly the overlay rows of emails no longer listed go; the rest of the state is left alone |
| Invariant.SampleKeepsStateOk | internal/node/node.go:149-239 | So does every sample |
| Invariant.LoaderAccepts | internal/node/store.go:48-79 | The loader accepts every state that has the invariant |
| Histories.HistoryStaysOk | internal/node/node.go:85-239 | Over every history of edits, samples and stamps from a good state, every state is good and the loader accepts it |
| Histories.IdsAreNeverReused | internal/node/types.go:173-206 | An inbound id or row id that has gone never comes back |
| Histories.OnlyTheseEnable | internal/node/node.go:331-542 | Only a reset, an add or update of the client or an inbound put can switch a disabled client on |
| Histories.CommitSparesUsage | internal/node/node.go:331-565 | Any other edit leaves id and usage of a client alone if the client stays |
| EditEffects.ClientChangeEffect | internal/node/node.go:407-477 | Add and detach change exactly the inbounds whose ids are named, update and delete every one; which listings are there afterwards is characterised for each operation; rows stay, but for a rename, which moves one row with its id and usage |
| EditEffects.NamedInboundsChange | internal/node/node.go:440-470 | After an add each inbound named lists the client as sent and nothing else under its old or new email; after a detach none of them lists the email |
| EditEffects.ChangeKeepsOrder | internal/node/node.go:440-470 | Listings are replaced in place, and a client added to an inbound that did not list it comes last |
| EditEffects.RemovalKeepsOrder | internal/node/node.go:440-470 | Delete and detach take out the listing and leave the others in order |
| EditEffects.PutEffect | internal/node/node.go:331-374 | A put replaces the inbound with the id or tag, which keeps id and counters, or adds one with the next id; the others stay |
| EditEffects.PutContent | internal/node/node.go:331-393 | The stored inbound is the one sent, up to id and counters; only a VLESS inbound sent without clients gets the default client, if one is configured |
| EditEffects.DeleteEffect | internal/node/node.go:395-405 | Exactly the inbound with the id is removed |
| EditEffects.ResetEffect | internal/node/node.go:479-522 | A reset zeroes and enables exactly the client named, with its listings and overlays, if the inbound named, or any if none is, lists it, and else changes nothing; without a client it zeroes the counters of one inbound or all and touches no client |
| EditEffects.EditRefusedExactly | internal/node/node.go:331-565 | Each edit is refused for exactly the listed reasons: a client that is not valid, an inbound or client that is not there, a name taken, no inbound named, a bad master or too many, negative bytes |
| EditEffects.GoodInboundIsValid | internal/node/node.go:108-121 | The inbound checks, spelled out: protocol, transport, port other than the private API's, tag, limits, clients, flows |
| EditEffects.BulkResetEffect | internal/node/node.go:526-542 | A bulk reset does so for exactly the clients named that the node holds, whatever the order or repetition |
| EditEffects.PushEffect | internal/node/node.go:544-565 | A push sets exactly that master's rows for known clients, from the last row sent for each |
| Sync.SyncRefusesExactly | internal/node/types.go:173-206 | The sync fails if and only if two listings of one email disagree or more than 64 emails are listed |
| Sync.FoldRefusesOnlyConflicts | internal/node/types.go:173-206 | The pass over the listings stops if and only if two of one email disagree |
| Sync.FoldSees | internal/node/types.go:173-206 | It sees exactly the listed emails, with the fields they agree on |
| Sync.FoldKeeps | internal/node/types.go:173-206 | Rows keep their ids, new rows get new ids, and the id counter never falls behind |
| NodeState.State.SyncClients | internal/node/types.go:173-206 | The in-place sync computes the synced state, or fails without one |
| NodeState.State.PutInbound | internal/node/node.go:331-374 | The in-place edit is the specified one: ids assigned or kept, tags and ports checked, counters carried over |
| NodeState.State.DeleteInbound | internal/node/node.go:395-405 | Likewise the removal of an inbound |
| NodeState.State.ChangeClient | internal/node/node.go:407-477 | Likewise add, update, rename, delete and detach of a client on the selected inbounds |
| NodeState.State.ResetTraffic | internal/node/node.go:479-522 | Likewise the resets of one client, of an inbound's clients and of everything |
| NodeState.State.ResetClientTraffics | internal/node/node.go:526-542 | Likewise the bulk reset |
| NodeState.State.PushGlobals | internal/node/node.go:544-565 | Likewise a master's overlay: known emails only, at most eight masters, stale rows dropped |
| NodeState.State.SetClient | internal/node/node.go:241-252 | The field of every listing of the email is set, and nothing else |
| NodeState.State.ClearGlobals | internal/node/types.go:208-212 | The email is dropped from every overlay |
| NodeState.State.Find | internal/node/types.go:164-171 | The position of an inbound id, or none |
| NodeState.State.Wanted | internal/node/node.go:56-83 | The loops build the specified table |
| Engine.ApplyIsSafe | internal/node/core.go:114-186 | Success means the process and the record are the new table; an error means the process is stopped or runs, newly started, exactly the table recorded at entry, although RPCs may have taken effect |
| Engine.HotStaysBetween | internal/node/core.go:142-170 | Whatever subset of a hot update took effect, users the tables agree on are untouched and every account is from one of the two tables |
| Engine.HotReachesNext | internal/node/core.go:142-170 | When every RPC is answered the process ends on the new table |
| Engine.HotRpcCount | internal/node/core.go:142-170 | A complete hot update sends one RPC for each user removed, one for each added and two for each changed |
| Engine.FallbackServesTheRecord | internal/node/core.go:172-186 | A failed launch leaves a process exactly when the fallback came up, and it serves the recorded table |
| Engine.RolledBackTableCanReturn | internal/node/core.go:114-186 | A concrete run in which a rolled-back table stays recorded and is served again by a later fallback |
| XrayCore.Core.Apply | internal/node/core.go:114-128 | The imperative update, with its record changed in place, does what the specification allows, keeps the accounts, and succeeds when all RPCs are answered and the launch is ready |
| XrayCore.Core.Hot | internal/node/core.go:142-170 | The diff loops, in any map order, send a legal list of RPCs, complete if all are answered and broken off at the first that is not |
| XrayCore.Core.RemoveStale | internal/node/core.go:150-158 | First half for one inbound: users gone or changed are removed, each once |
| XrayCore.Core.AddMissing | internal/node/core.go:159-168 | Second half: users new or changed are added, each once |
| XrayCore.Core.Restart | internal/node/core.go:172-186 | Stop, launch, and on failure fall back to the record or stop |
| XrayCore.Core.Start | internal/node/core.go:188-262 | A launch as its outcomes: not launched, exited, not ready, ready; the counters of the former process become final |
| Store.CrashShowsWholeContents | internal/node/store.go:84-127 | A crash after any step of a write leaves the target with its whole old or whole new content and the backup, if present, with a whole earlier one |
| Store.FileSystem.AtomicWrite | internal/node/store.go:84-127 | The write as file-system steps with a failure at any of them: the exact result, the target replaced exactly when the rename was reached, other files untouched, the crash guard kept at every step, and after success no crash can lose the new content |
| Store.UncertainWithoutReplacement | internal/node/store.go:107-125 | A doubtful write left the target in place exactly when the doubt is about the backup's directory |
| NodeStore.SaveState | internal/node/store.go:129-139 | Stamp, size limit and write: any result but a doubtful one tells whether the file holds the new state |
| NodeStore.CrashDuringSave | internal/node/store.go:84-140 | A crash at any moment of any save leaves a clean disk on which the file holds, whole, the state on file before or the one being saved, and the loader accepts it |
| NodeStore.CrashAtRest | internal/node/store.go:84-140 | A crash between calls leaves the state of a node that is not halted on file, and in any case one the loader accepts |
| NodeStore.LoadState | internal/node/store.go:25-82 | Without a file a fresh state, unless a backup is there; an unreadable, oversized or undecodable file is an error; a decoded one is loaded exactly if it passes every check |
| NodeStore.CheckIdentities | internal/node/store.go:48-64 | The loop with its three sets accepts exactly distinct ids, ports and tags of valid inbounds below the id counter |
| Jalali.GregorianToJalali | internal/sub/remark_vars.go:415-456 | The two walks end on the valid Jalali date as many days from 1402-10-11 as the input is from 2024-01-01 |
| Jalali.NextDayToNextDay | internal/sub/remark_vars.go:415-456 | The next Gregorian day maps to the next Jalali day, across months and leap years, on the whole domain of the formula |
| Jalali.OneJalaliDate | internal/sub/remark_vars.go:415-456 | The result is determined |
| Jalali.KnownDates | internal/sub/remark_vars.go:415-479 | Three dates whose Jalali dates are known |
| Jalali.ConversionIsInjective | internal/sub/remark_vars.go:415-456 | Two Gregorian dates never share a Jalali date |
| Jalali.NextJulianDay | internal/sub/remark_vars.go:417-420 | The day-number formula counts days: it moves by one with each valid Gregorian date |
| Jalali.JulianInYear | internal/sub/remark_vars.go:417-420 | Within a year the formula agrees with adding up the month lengths |
| Jalali.NextJalaliDay | internal/sub/remark_vars.go:458-469 | Month lengths and leap years fit: the day after is valid and one later |
| Jalali.JalaliYearStartClosed | internal/sub/remark_vars.go:473-479 | The leap rule spreads eight leap years over 33: year starts counted year by year equal 365y + (8y + 21) / 33 |
| UiTokens.Translate | internal/sub/remark_vars.go:100-124 | The scan computes the translation |
| UiTokens.TranslationSettles | internal/sub/remark_vars.go:100-124 | After a translation no single-brace token is left, on every string |
| UiTokens.TranslationIsIdempotent | internal/sub/remark_vars.go:100-124 | Translating twice is translating once |
| UiTokens.KnownTokenIsTranslated | internal/sub/remark_vars.go:95-131 | A known name in single braces becomes the expander's name in double ones |
| UiTokens.OtherBraceStays | internal/sub/remark_vars.go:95-131 | Every other opening brace stays, and what follows it is translated as text behind a brace |
| UiTokens.PlainTextStays | internal/sub/remark_vars.go:95-131 | Text without an opening brace stays |
| RemarkTemplate.SecondTranslationIsIdle | internal/sub/remark_vars.go:133-134 | The second translation, before the expansion, never changes a template that was translated, filtered or not |
| RemarkTemplate.FilterKeepsTheRest | internal/sub/remark_vars.go:555-613 | The tokens of a filtered template are exactly those not removed, in their order |
| RemarkTemplate.FilterLeavesNoRemoved | internal/sub/remark_vars.go:555-613 | No removed token is left |
| RemarkTemplate.FilterIsIdempotent | internal/sub/remark_vars.go:555-613 | Filtering twice is filtering once |
| RemarkTemplate.FilteredText | internal/sub/remark_vars.go:567-613 | The text that is left of a segment: trimmed, if no token is removed; else the longest runs of kept tokens, in order, joined by one space, each with all text between its tokens, none next to a removed token, and the text out to an edge of the segment exactly if no token lies beyond |
| RemarkTemplate.SegmentsApart | internal/sub/remark_vars.go:555-565 | Segments are filtered one by one, and one that nothing is left of goes with its bar |
| RemarkTemplate.FilterKeepsSettled | internal/sub/remark_vars.go:555-613 | Cutting and rejoining opens no new single-brace token |
| RemarkTemplate.FilterTemplate | internal/sub/remark_vars.go:555-564 | The loop over segments computes the filter |
| RemarkTemplate.FilterSegment | internal/sub/remark_vars.go:572-595 | The loop over tokens computes the kept runs of a segment |
| RemarkTemplate.AppendKeptRun | internal/sub/remark_vars.go:597-613 | The kept part of one run is appended |
| RemarkTemplate.KeptRunNames | internal/sub/remark_vars.go:597-613 | No token is lost with the text dropped from a run |
| RemarkTemplate.Subscription.EffectiveTemplate | internal/sub/remark_vars.go:622-637 | A client's first link has the translated template, each later one the filtered one, without usage tokens and, unless asked for, without email and user name |
| TemplateTokens.FindTokens | internal/sub/remark_vars.go:54-61 | The leftmost search |
| TemplateTokens.TokensAreListed | internal/sub/remark_vars.go:54-61 | It finds every token, in order, and tokens never overlap |
| RoutingCache.RunKeepsInv | internal/sub/remote_routing.go:117-245 | Over every interleaving, whatever rows earlier processes left, each key has at most one fetch under way, each fetch is closed at most once and only when it ended, and only validated values are cached |
| RoutingCache.RunIsForward | internal/sub/remote_routing.go:220-245 | Without such a row ahead, over every interleaving a cached value is never dropped, never gives way to one fetched earlier, and a closed channel stays closed |
| RoutingCache.StepKeepsInv | internal/sub/remote_routing.go:117-245 | Each critical section keeps the invariant |
| RoutingCache.FetchesAreSpaced | internal/sub/remote_routing.go:127-156 | Over every interleaving a fetch that starts after another of its key has ended does so at least 30 s after the reading taken at that end, and finds the cached value stale by the clock |
| RoutingCache.StartsExactlyWhenStale | internal/sub/remote_routing.go:127-156 | A reading starts a fetch exactly if nothing is cached or it is 600 s old, none is under way, and the last one ended 30 s ago |
| RoutingCache.FetchedIsValidated | internal/sub/remote_routing.go:247-335 | Every value a fetch brings is validated and has the time of the fetch |
| RoutingCache.NotModifiedConfirms | internal/sub/remote_routing.go:276-288 | A 304 answer keeps source and content of the previous value, with the time of the fetch and the answer's validators, or the previous ones where those are blank; without a previous value it is a failure |
| RoutingCache.FetchedStaysFresh | internal/sub/remote_routing.go:127-132 | A value a fetch has brought is served without a new fetch until it is 600 s old |
| RoutingCache.HappRedirectBrings | internal/sub/remote_routing.go:289-304 | A redirect brings its target exactly for Happ, if that passes validation with at most 8 KiB; it has no validators |
| RoutingCache.GoodAnswerBrings | internal/sub/remote_routing.go:304-335 | A 200 answer brings its body exactly if that is within the limit of its kind and passes validation, with its trimmed validators |
| RoutingCache.OtherAnswersFail | internal/sub/remote_routing.go:270-306 | Any other answer, and none, leaves what is cached |
| RoutingCache.ReadsExactly | internal/sub/remote_routing.go:571-594 | A persisted row is read exactly if it has a remote source, a time, and a content that still passes validation |
| RoutingCache.MergesExactly | internal/sub/remote_routing.go:595-604 | A row that was read is cached exactly if nothing is cached for its source or something older |
| RoutingCache.ForwardUnlessRowAhead | internal/sub/remote_routing.go:220-232 | Over all runs of a new process no cached value is dropped or gives way to one fetched earlier, if and only if no acceptable persisted row of a kind that can be fetched is ahead of the clock at the start |
| RoutingCache.RowAheadGoesBack | internal/sub/remote_routing.go:571-605 | Any such row, of any kind and any distance ahead, has a run in which the value goes back |
| RoutingCache.Resolver.Resolve | internal/sub/remote_routing.go:117-167 | A reader gets what is cached, validated, and perhaps starts the fetch; the section is the specified step |
| RoutingCache.Resolver.Refreshed | internal/sub/remote_routing.go:220-234 | The end of a fetch is the specified step and closes its own channel, once |
| RoutingCache.Resolver.ReadPersisted | internal/sub/remote_routing.go:571-594 | Exactly the acceptable rows are read |
| RoutingCache.Resolver.LoadPersisted | internal/sub/remote_routing.go:595-604 | The merge loop, in any order, replaces only older values |
| UdpRelay.RunKeepsInv | internal/amneziawgnet/relay.go:394-460 | The invariant holds in every interleaving of handlers, pumps and the sweep: sessions in the map are open and pumped once, no session is lost |
| UdpRelay.StepKeepsInv | internal/amneziawgnet/relay.go:394-460 | Each critical section keeps it |
| UdpRelay.PublishedHasItsPump | internal/amneziawgnet/relay.go:394-422 | A published session has exactly one pump, which runs for its source |
| UdpRelay.PumpsStartOnce | internal/amneziawgnet/relay.go:404-418 | A pump starts only for a session never published before |
| UdpRelay.RetireSparesOthers | internal/amneziawgnet/relay.go:427-437 | A retiring pump takes nothing but its own session from the map |
| UdpRelay.LoserIsClosed | internal/amneziawgnet/relay.go:404-413 | The session of the handler that lost the race is closed and never has a pump, whatever happens later |
| UdpRelay.QuiescentIsClean | internal/amneziawgnet/relay.go:427-460 | When no handler and no pump is left, the map is empty and every session ever opened is closed |
| UdpRelay.SweepIsFinal | internal/amneziawgnet/manager.go:73-79 | The sweep leaves the map empty for good if and only if delivery has stopped and every handler is past publishing |
| UdpRelay.SweptIsNearlyClosed | internal/amneziawgnet/relay.go:453-460 | After such a sweep the only open sessions are those about to be closed |
| UdpRelay.Relay.Publish | internal/amneziawgnet/relay.go:404-418 | The handler uses the session that is published, its own exactly if it won |
| UdpRelay.Relay.Retire | internal/amneziawgnet/relay.go:427-437 | The retirement is the specified step |
| UdpRelay.Relay.Close | internal/amneziawgnet/relay.go:453-460 | Every published session is closed, each once, and the map is empty |
| Obfuscation.Generate | internal/amneziawg/params.go:38-98 | Whatever the random source gives, the generated set passes the validator, has four different headers from 5 to 2^31 - 1 and rejects at least 30 s after every rekey |
| Obfuscation.PrintedRange | internal/amneziawg/params.go:370-388 | A printed range is read back |
| Obfuscation.DrawS2 | internal/amneziawg/params.go:47-52 | The redrawn padding never equals the other plus 56 |
| Obfuscation.GenerateH | internal/amneziawg/params.go:112-122 | Four ascending values between 5 and 2^31 - 1 |
| Obfuscation.ValidateChain | internal/amneziawg/params.go:222-245 | The scan accepts exactly texts whose every tag is closed and known |
| Obfuscation.ValidRenewsInTime | internal/amneziawg/params.go:196-209 | A valid set renews before it expires, except exactly when the rekey time is blank but not empty and the reject time is at most the default rekey time |
| Obfuscation.ValidExactly | internal/amneziawg/params.go:130-209 | The validator takes exactly the sets with sizes within the device's bounds, no two handshake packets of one size, padding of 12 bytes under every size if headers are protected, chains, ranges and key that parse, and a latest rekey before the earliest reject |
| Obfuscation.RangeIsValid | internal/amneziawg/params.go:350-388 | A range is valid exactly if it is two numbers around the first hyphen, in order and within the bounds, without control characters |
| Obfuscation.NumberIsValid | internal/amneziawg/params.go:350-388 | Without a hyphen it is valid exactly if it is blank or a number within the bounds, without control characters |
| Obfuscation.CanonicalIsNotBlank | internal/amneziawg/params.go:249-251 | The stored form of a value is never blank without being empty |
| Obfuscation.CanonicalReadsSame | internal/amneziawg/params.go:249-251 | The stored form of a value that reads as a number or range reads as the same one |
| Numbers.ParsePrinted | internal/amneziawg/params.go:349-388 | Reading a printed number gives it back |
| Numbers.ParseSigned | internal/amneziawg/params.go:349-388 | A sign is read too, and numbers beyond 64 bits are refused |
| PortSpec.ExpandForwardedPorts | internal/amneziawg/portfwd.go:108-110 | The result is strictly ascending, covered, and of size min(100, covered); at or below the cap it holds exactly the covered ports; above it, the first 100 in the order of the text |
| PortSpec.ExceedsForwardedPortsCap | internal/amneziawg/portfwd.go:117-119 | True exactly when more than 100 ports are covered |
| PortSpec.ForwardedPortsInclude | internal/amneziawg/portfwd.go:85-92 | True exactly for covered ports |
| PortSpec.CoverageSplits | internal/amneziawg/portfwd.go:20-46 | Commas and semicolons separate: a text covers what its parts cover |
| PortSpec.PortCovers | internal/amneziawg/portfwd.go:48-71 | A part without a hyphen covers the port it is the number of, if it is one |
| PortSpec.RangeCovers | internal/amneziawg/portfwd.go:48-71 | A part with a hyphen covers the ports from the number before it to the one behind it, if both are ports |
| PortSpec.PrintedCovers | internal/amneziawg/portfwd.go:48-71 | A printed port covers itself, a printed range its ports |
| PortSpec.Expand | internal/amneziawg/portfwd.go:124-142 | The loops, which stop at the limit, collect the first ports of the text |
| PortSpec.ParseForwardedPorts | internal/amneziawg/portfwd.go:20-46 | The loop collects the acceptable tokens, each once, in order |
| PortSpec.ExpansionIsByCoverage | internal/amneziawg/portfwd.go:108-142 | Under the cap, texts that cover the same ports expand to the same list |
| PortForwardSet.PortForwards.Reconcile | internal/amneziawgnet/portfwd.go:166-205 | Open are exactly the wanted keys without those newly wanted that could not be bound; kept keys keep their listener, dropped ones are closed once, every open key has a target, and nothing changes if exactly the wanted keys were open |
| PortForwardSet.PortForwards.Close | internal/amneziawgnet/portfwd.go:221-229 | Every listener is closed once and none is left |
| PortForwardSet.PortForwards.TargetFor | internal/amneziawgnet/portfwd.go:209-214 | Every open key has a target |
| PortForwardSet.ReconcilingConverges | internal/amneziawgnet/portfwd.go:166-205 | Reconciling again opens no less, and everything exactly when the remaining binds succeed; after that it changes nothing |
| PortForwardSet.DesiredKeys | internal/amneziawgnet/portfwd.go:142-158 | Both protocols of each port of each peer that has a target |
| PortForwardSet.DesiredPeerTargets | internal/amneziawgnet/portfwd.go:115-135 | The loop computes the specified targets |
| PortForwardSet.TargetsAre | internal/amneziawgnet/portfwd.go:115-135 | For each email the last peer with it that leads anywhere counts: its first IPv4 address, or the first IPv6 one if it has none and IPv6 is enabled; other emails have no target |
| PortForwardSet.WantedPorts | internal/amneziawgnet/portfwd.go:142-158 | With the real expansion a peer wants its covered ports, up to the cap |
| RateLimiter.RateLimiter.Allow | internal/eventbus/filter.go:25-36 | For every sequence of calls, in clock order or not, all answers are those of a limiter that never forgets exactly if no call came too early; in clock order they are the ideal ones |
| RateLimiter.RateLimiter.Prune | internal/eventbus/filter.go:42-52 | The sweep drops exactly the keys past their cooldown, at most once a cooldown |
| RateLimiter.PruningIsInvisible | internal/eventbus/filter.go:25-52 | Pruning changes no answer of any sequence of calls if and only if none reads a clock within the cooldown of a send that a sweep, with a reading ahead of it, has already forgotten |
| RateLimiter.OrderedIsNeverTooEarly | internal/eventbus/filter.go:42-52 | Calls in clock order never do |
| RateLimiter.UnprunedIsIdeal | internal/eventbus/filter.go:25-36 | For calls in clock order the limiter that never forgets allows exactly the calls a cooldown after the last send of their key |
| RateLimiter.IdealIsUnique | internal/eventbus/filter.go:25-36 | The ideal answers are determined by the calls |
| RateLimiter.SendsAreApart | internal/eventbus/filter.go:25-36 | Two sends of one key are at least a cooldown apart |
| RateLimiter.OutOfOrderAllowsTooEarly | internal/eventbus/filter.go:25-36 | Readings that arrive out of order break it |
| RateLimiter.KeysDiffer | internal/eventbus/filter.go:26-26 | Different events have different keys, as no type has a colon |
| ProxyNames.EnsureUniqueProxyNames | internal/sub/clash_service.go:136-153 | Names become non-empty and pairwise distinct, each the first free candidate of its base; other fields stay, and good names are all kept |
| ProxyNames.NamesAre | internal/sub/clash_service.go:136-162 | Each proxy gets its own name, or one made of its type, server and port, or of its position, if no earlier proxy has it, and else the same with the least free number from 2 on |
| ProxyNames.FreeName | internal/sub/clash_service.go:145-150 | The search for a free suffix ends, at the first one that is free |
| ProxyNames.TakenAreMany | internal/sub/clash_service.go:145-150 | As many names are taken as candidates were refused |

## Left out

- NodeTypes.ValidInbound: the per-field allowlists of protocols, transports and client fields are one flag; the clauses about id, tag, port, emails, quota and expiry are kept.
- NodeTypes.ValidClient: the syntax of client ids is part of that flag.
- Sampling.SampleCredits: the sums are unbounded integers; a row whose bytes pass 2^63 would wrap in the source.
- LeafNode.Boot: a stored state the loader accepts but no node ever saved, such as a hand-edited one without the row of a listed client, is excluded; the node repairs such a state only at its next edit.
- LeafNode.Node.Transaction: readings in which a counter of one process has shrunk or vanished, which the process does not report, are outside; the branch for a smaller reading is modelled in the functions of `Sampling`. Clock readings are after 1970.
- Engine: the configuration file the launch writes, process output, signals and the readiness probe; a launch has four outcomes.
- NodeStore: JSON encoding; a file's content is the state it encodes, and whether a file can be read and decoded is an argument of the load.
- LeafNode.Node.SampleLocked: for a node that is already halted, which only Shutdown samples, the contract states the invariant and the record of the accounts, not the outcome.
- LeafNode.Node.Shutdown: likewise, the last sample is specified for a node that is not halted.
- HTTP routes, enrolment, the read-only views Inbounds and Online, and the length of the recovery backoff.
- Jalali.GregorianToJalali: time zones and the cut from milliseconds to a day; dates before 1 March -4800, where the day-number formula divides negative years, are converted but not claimed to follow the calendar.
- RemarkTemplate: the values of tokens and the second, value-level filter; strings are sequences of Unicode characters, not bytes.
- RoutingCache: the parsed Clash map that travels with a cached content, HTTP itself, and the wake-up of waiters, which read the channel that is proved closed once.
- UdpRelay: packets, SOCKS5 and the idle timer; a pump may end at any time.
- Obfuscation.Generate: the retry for the second padding terminates if its draws are not all the same; base64 and the 32 key bytes are a predicate on texts.
- PortSpec.Expand: the library sort is an insertion sort with the same result.
- PortForwardSet: sockets, goroutines and the overlap of a reconciliation with another; the source serializes reconciliations by its manager's lock.
- RateLimiter.RateLimiter.Allow: says nothing for clock readings before 1970 or a cooldown over the longest duration of 292 years.
- ProxyNames.EnsureUniqueProxyNames: proxy entries are values; one map that appears twice in the list is not modelled.
- The full panel, subscriptions beyond these pieces, the front end, Telegram, mail and the other protocols' processes.
