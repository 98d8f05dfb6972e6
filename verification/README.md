# A verified model of the node's accounting and user tables

The node bills users for traffic and keeps one user table per core (sing-box,
WireGuard, OpenVPN, L2TP, xray) in step with an external process. This project
models both sides in Dafny and proves what has to hold over every run:

- **Billing.** Counters pass from a core or the kernel through base lines, running
  totals and the shared usage tracker to the panel. Runs interleave traffic,
  connects, disconnects, kills, restarts, timeouts, late answers, polls and reads
  freely. What a user is charged is given exactly at every point, errors and losses
  included, and with it when no byte is billed twice, none is missed and none is
  billed that was not moved.
- **Sync.** The incremental paths (slot table, peer reconcile, client maps) give
  what a plain rebuild gives, or exactly when they do.

Code that changes state in place is modelled by classes whose methods are proved
equal to a small specification on values; the theorems over whole runs are about
that specification.

| file | about |
|---|---|
| `Wrappers.dfy`, `Numbers.dfy`, `Traffic.dfy` | options and results; bytes, powers of two and decimals; byte counters in both directions, sums over maps |
| `StatsTracker.dfy`, `PeerBilling.dfy`, `PeerReturns.dfy` | the usage tracker; WireGuard counters end to end; peers that leave and come back |
| `RunningTotals.dfy`, `InterfaceCounters.dfy`, `NodeUsage.dfy` | running totals per user and for the node, and the node's own answers |
| `OpenVpnStats.dfy`, `OpenVpnWorld.dfy`, `OpenVpnBilling.dfy`, `OpenVpnStale.dfy` | the OpenVPN poll; OpenVPN billing end to end; timed-out requests |
| `OpenVpnMgmt.dfy`, `OpenVpnAccess.dfy`, `OpenVpnWire.dfy` | the OpenVPN management stream and its user store; who gets in; from its text to the messages billed |
| `L2tpStats.dfy`, `L2tpBilling.dfy`, `L2tpReuse.dfy` | the L2TP poll; L2TP billing end to end; records out of order |
| `SingBoxUsers.dfy`, `SingBoxSlots.dfy`, `SingBoxSecrets.dfy` | the sing-box user table and slot table, with the core that reads it; what the core gets to see |
| `SingBoxStats.dfy`, `SingBoxSupervisor.dfy` | sing-box counters; the process supervisor |
| `WgPeerStore.dfy`, `WgUsers.dfy`, `WgKernel.dfy`, `WgSync.dfy` | WireGuard peers, users, kernel table and sync |
| `Base64.dfy`, `XrayClients.dfy`, `XrayConfig.dfy` | the key normaliser; xray client maps |
| `SubnetSplit.dfy`, `PoolRange.dfy`, `UserChunks.dfy` | address arithmetic and chunk reassembly |

`dafny verify dfyconfig.toml` checks everything.

## What turned out not to hold

Each of these has a concrete case, most of them a run, and a theorem that says exactly
when the code does what it promises and how far it is off otherwise.

- L2TP final records are sorted by file name, `interface.pid.time`, as text. Process
  1000 sorts before process 999, so on a reused interface the session a base line was
  read from can be taken late and pay it twice (`OlderRecordTakenSecond`). A poll is
  exact for every session if and only if such sessions come first on their interfaces
  or had nothing in the base line (`OrderMatters`), and a user's bill if and only if
  the errors about their sessions cancel out (`ExactAfterPoll`).
- When a status request times out, OpenVPN collects with the answer that arrived last,
  often one it collected with before. A row whose session's end was folded together
  with it the first time is billed in full again (`StaleBilledTwice`, `StaleGrowth`,
  and for every run `BilledAgainWhen`); a bill is right if and only if there was none
  of that (`BilledExactlyOnce`).
- A WireGuard counter starts again whenever its peer is removed and added back, and a
  full sync that changes anything does that to every peer it keeps, without a last
  sample. What was not sampled before is lost, and if the tracker still has the key the
  next sample loses as well: all of the new counter if it is below the old reading in
  either direction, else as much as the old reading (`ResetLoses`). `BilledIs` gives
  the bill of every run with what was lost; it is exact after a poll if and only if
  every event's loss is zero (`LostWhen`), as it is without restarts
  (`NothingLostWithoutRestart`). In particular a peer that comes back before its bytes
  were read is billed nothing of what it moves by the next poll (`ReturnUnread`); only
  if the tracker has let go of the key in between is everything billed
  (`ReturnReadAway`, `ReturnSwept`).
- A partial WireGuard sync checks address ranges only against the users of the
  request. A range held by anybody else is taken away in the kernel while the store
  still lists it (`RangeLost`, `KernelReconciled`, `KernelStaysInStep`).
- Freed sing-box positions are named "-", and a user may be called that: they are then
  billed for the open sessions of everybody who left (`DashIsBilled`,
  `SessionKeepsItsName`, `NeverAnotherUser`).
- A single sing-box removal goes by the name as typed, a batch by the trimmed name
  (`PaddedRemovalIsLost`, `SyncAgreesWithMerge`). A full set keeps a user whom a later
  entry of the same list withdraws, a batch does not (`WithdrawnInFullSet`,
  `ReplaceIsMergeFromNothing`).
- A batch update of an xray inbound removes a user it both adds and drops
  (`AddedAndDropped`), and it normalises a key once more than the rebuild, which
  changes it for a shadowsocks-2022 cipher the normaliser does not know
  (`UnknownCipherNotIdempotent`, `EnsureIdempotent`). `IncrementalEqualsRebuild` says
  exactly when the two paths agree, for every inbound.
- Filling the peer store from a list leaves its two maps inverse only if the entries
  last with their key are those last with their email (`SharedEmailBreaksInverse`,
  `FilledInverse`). The list a full sync hands over is such (`SyncUsersFull`).
- A /31 at the top of the address space and three /32s get a pool range by
  wrap-around (`LastAddressWraps`, `RangeBeyond30`).
- A sing-box usage request for one user goes by the start of a counter's name, so it is
  also answered with the counters of a user whose name begins with theirs and the
  separator (`NamesakeTaken`); without the mark in any name it is not (`OwnCountersOnly`).
- A sing-box restart hides traffic when the counter has caught up with its base line
  by the next reading (`RestartHidden`, `ExactAfterCollect`).

## Model

| member | source | states |
|---|---|---|
| `StatsTracker.Tracker.ApplySample` | pkg/stats/tracker.go:63-114 | base line, counter and parked delta always mean: last value, bytes not billed yet, departed or not; a sample credits its growth, nothing on a rollback or on a return with bytes pending; the clamps at zero never act |
| `StatsTracker.Tracker.UpdateStatsBatch` | pkg/stats/tracker.go:49-61 | samples are credited one after the other |
| `StatsTracker.Tracker.ReadEntry` | pkg/stats/tracker.go:131-150 | an answer carries exactly the key's pending bytes, under the right direction and the owner's name; on a reset the key is settled, and dropped if departed |
| `StatsTracker.Tracker.GetStats` | pkg/stats/tracker.go:117-153 | what is reported per key over a list of keys, repeated ones included, under the owners' names, and the state left behind |
| `StatsTracker.Tracker.GetUsersStats` | pkg/stats/tracker.go:156-187 | every key's pending bytes are reported once, in any map order, under the owners' names |
| `StatsTracker.Tracker.RemoveStats` | pkg/stats/tracker.go:261-277 | a removed key keeps its pending bytes |
| `StatsTracker.Tracker.CleanupDeletedEntries` | pkg/stats/tracker.go:287-296 | exactly the departed keys with nothing pending are dropped |
| `StatsTracker.BuildDeltaStatsReports` | pkg/stats/interface_counters.go:64-88 | received bytes are labelled uplink, sent bytes downlink, and zero directions cost nothing |
| `StatsTracker.CreditFirstConserves` | pkg/stats/tracker.go:49-61 | a batch adds exactly the credited growth to what is pending |
| `StatsTracker.SettleFirstConserves` | pkg/stats/tracker.go:117-153 | a resetting read pays out exactly what it clears |
| `StatsTracker.StepConserves` | pkg/stats/tracker.go:49-296 | every operation keeps billed plus pending equal to credited growth |
| `StatsTracker.Conservation` | pkg/stats/tracker.go:63-296 | over every sequence of samples, removals, returns, reads and clean-ups, billed plus pending is the credited growth |
| `StatsTracker.CreditDistinct` | pkg/stats/tracker.go:57-60 | samples with distinct keys commute |
| `StatsTracker.BilledToLastOwner` | pkg/stats/tracker.go:63-73 | over every sequence of operations, a key is billed to the owner its last sample named |
| `PeerBilling.NextBalances` | backend/wireguard/jobs.go:39-187 | every event of the kernel, the polls, removals and reads keeps a key's moved bytes accounted for, but for a loss that is given by the event and the state and never negative |
| `PeerBilling.BilledIs` | backend/wireguard/jobs.go:39-162 | in every run, billed plus pending is what a key moved, less what came after the last sample and less what restarts lost; so never too much |
| `PeerBilling.LostWhen` | pkg/stats/tracker.go:76-101 | nothing is lost exactly if no sample of a restarted counter, unsampled removal or reset lost anything |
| `PeerBilling.NothingLostWithoutRestart` | backend/wireguard/jobs.go:39-107 | while a key's counter never restarts, nothing is lost |
| `PeerBilling.ResetLoses` | backend/wireguard/manager.go:213-225 | polled, reset and polled again, a key is billed for only one of the two amounts it moved: the second if it reaches the first in both directions, else the first |
| `PeerReturns.ReturnUnread` | pkg/stats/tracker.go:74-82 | polled at `a`, removed, added back and polled at `b`: billed plus pending is exactly `a`, whatever `b` is, unless `a` is nothing |
| `PeerReturns.ReturnAfterRead` | pkg/stats/tracker.go:84-101 | with a billing read before the removal it is `b` if that reaches `a` in both directions, else `a` |
| `PeerReturns.ReturnReadAway` | pkg/stats/tracker.go:140-150 | with the read after the removal it is `a` and `b` |
| `PeerReturns.ReturnSwept` | pkg/stats/tracker.go:287-296 | and so it is after a read, the removal and a clean-up |
| `RunningTotals.Totals.Absorb` | backend/openvpn/stats.go:157-189 | a poll's growth goes into per-user totals, the node total and one sample per user that grew |
| `RunningTotals.Totals.FoldGrowth` | backend/openvpn/stats.go:161-183 | the same totals whatever order the map is ranged over |
| `RunningTotals.CreditListed` | backend/openvpn/stats.go:170-188 | the samples of one poll credit each user once |
| `RunningTotals.AbsorbedRight` | backend/l2tp/stats.go:119-148 | growth reaches the bill without loss, and the node total stays the sum over users |
| `RunningTotals.AbsorbedGrows` | backend/l2tp/stats.go:122-123 | the node total only grows |
| `RunningTotals.ReadingRight` | pkg/stats/tracker.go:117-187 | a read moves bytes from pending to billed and changes nobody's charge |
| `InterfaceCounters.InterfaceCountersTracker.Delta` | pkg/stats/interface_counters.go:25-49 | growth since the base line; a first or lower total rebases and reports zero |
| `InterfaceCounters.DeltasConserve` | pkg/stats/interface_counters.go:25-49 | for growing totals, reported on resets plus pending is the latest total minus the first |
| `InterfaceCounters.RollbackReportsNothing` | pkg/stats/interface_counters.go:25-49 | a total below its base line in either direction reports nothing and is the next base line |
| `NodeUsage.OpenVpnNodeUsage` | backend/openvpn/stats.go:160-183 | what the node reports and would report now is what its users' totals grew by since it was first asked |
| `NodeUsage.L2tpNodeUsage` | backend/l2tp/stats.go:119-148 | the same for L2TP |
| `OpenVpnStats.OpenVPN.FoldEndedSessions` | backend/openvpn/stats.go:66-97 | each queued end adds what its base line lacks, clamped at zero, and clears it |
| `OpenVpnStats.OpenVPN.FoldStatusRows` | backend/openvpn/stats.go:116-147 | each row adds its growth, or all of it if it went back, and moves its base line |
| `OpenVpnStats.OpenVPN.CollectStats` | backend/openvpn/stats.go:109-189 | rows first, ends next, then base lines of absent sessions are dropped and totals absorbed |
| `OpenVpnStats.RowWentBack` | backend/openvpn/stats.go:119-139 | over two polls a counter that went back is billed in full on top, one that did not as it stands, each direction by itself |
| `OpenVpnStats.EndWentBack` | backend/openvpn/stats.go:66-97 | over a poll and a session end the larger of the two readings is billed, each direction by itself |
| `OpenVpnBilling.NextKeepsTransport` | backend/openvpn/mgmt.go:158-280 | the order of the stream brings every session's end to the queue before its base line can be lost, whatever times out and whatever answer arrives late |
| `OpenVpnBilling.CollectPays` | backend/openvpn/stats.go:109-160 | after a poll each session is paid up to its row, or in full if it ended; anything more is billed again |
| `OpenVpnBilling.CollectGrows` | backend/openvpn/stats.go:109-183 | a poll's growth per user is what it adds to the payments for their sessions, and what it bills again |
| `OpenVpnBilling.BilledExactlyOnce` | backend/openvpn/stats.go:47-189 | at every point of every run, billed plus pending is the final totals of settled sessions, the last polled counters of the others, and what was billed again after timeouts, late answers included; without timeouts nothing is, so never more than was moved, and all of it once all are settled |
| `OpenVpnBilling.ViewsAgree` | backend/openvpn/stats.go:160-183 | the node total is the sum of the users' totals |
| `OpenVpnBilling.TotalNeverShrinks` | backend/openvpn/stats.go:181-182 | the node total never goes back |
| `OpenVpnStale.StaleAnswer` | backend/openvpn/mgmt.go:261-280 | a row collected twice adds nothing, unless its session's end was folded with it the first time: then all of it |
| `OpenVpnStale.StaleGrowth` | backend/openvpn/mgmt.go:261-280 | what the rows of a second collection add to a user's bill is the bytes of their rows whose ends were folded with them |
| `OpenVpnBilling.RebillIs` | backend/openvpn/stats.go:119-139 | what a collection bills for a session settled already: its row, less a base line it may have got back |
| `OpenVpnStale.BilledAgainWhen` | backend/openvpn/mgmt.go:261-280 | in every run, what a poll bills a settled session again; with the rows of the poll before, all of the row where the session has no base line and nothing elsewhere |
| `OpenVpnStale.StaleBilledTwice` | backend/openvpn/mgmt.go:261-280 | a run in which a timeout has everything a session moved billed twice |
| `OpenVpnMgmt.UserStore.TryConnect` | backend/openvpn/users.go:43-74 | allowed exactly if listed with a matching or no pinned serial; an allowed session is counted once |
| `OpenVpnMgmt.UserStore.ReleaseSession` | backend/openvpn/users.go:77-86 | one session is released, and no empty set is left |
| `OpenVpnMgmt.UserStore.ApplyUser` | backend/openvpn/users.go:98-122 | the new list, and whether the user left or changed serial |
| `OpenVpnMgmt.UserStore.ReplaceAll` | backend/openvpn/users.go:126-150 | the new list and sessions, and exactly who is gone |
| `OpenVpnMgmt.MgmtClient.HandleLine` | backend/openvpn/mgmt.go:117-156 | one line's effect on block, status, store and output |
| `OpenVpnMgmt.MgmtClient.FinishConnect` | backend/openvpn/mgmt.go:170-191 | one reply with the block's own ids |
| `OpenVpnMgmt.MgmtClient.FinishDisconnect` | backend/openvpn/mgmt.go:203-219 | one session end, and the session is released |
| `OpenVpnMgmt.PendingIsOpenBlock` | backend/openvpn/mgmt.go:117-140 | whatever arrives, what is pending is the header and environment of the open block |
| `OpenVpnMgmt.EveryLine` | backend/openvpn/mgmt.go:117-219 | for every line of every stream, what it makes the node say, by looking back; allowed exactly if authorised at that moment; unknown blocks are silent |
| `OpenVpnMgmt.BlockIsAnsweredOnce` | backend/openvpn/mgmt.go:170-219 | a block is answered once, at its end, with its own ids: a connect or re-authentication with a reply, a disconnect with a session end |
| `OpenVpnMgmt.StatusIsItsRows` | backend/openvpn/mgmt.go:147-168 | a status answer publishes exactly its own rows, whatever is interleaved |
| `OpenVpnMgmt.StatusDoesNotInterfere` | backend/openvpn/mgmt.go:117-168 | taking all status lines out changes nothing on the client side: neither the state nor a reply |
| `OpenVpnMgmt.StoreSoundAfter` | backend/openvpn/users.go:58-150 | only listed users have sessions, and nobody has an empty set |
| `OpenVpnAccess.ListIsLastWord` | backend/openvpn/users.go:98-150 | whoever is on the list, and with which serial, is what the panel's last change or last full list said about them |
| `OpenVpnAccess.AllowedWhen` | backend/openvpn/users.go:43-74 | the end of a connect block is answered with its own ids, and allowed if and only if the panel's last word about its common name listed them with no serial or with the certificate's |
| `OpenVpnAccess.SessionsAreLive` | backend/openvpn/users.go:58-150 | the sessions counted for a user are exactly the clients let in that have neither disconnected nor lost their place on the list |
| `Numbers.ParsedIsPrinted` | backend/openvpn/mgmt.go:212-213 | a printed counter is read back if it fits 63 bits, else as the largest number |
| `Numbers.ParsedWithSign` | backend/openvpn/mgmt.go:300-301 | signs are read, and negative numbers stop at the least one |
| `Numbers.GarbageIsZero` | backend/openvpn/mgmt.go:300-301 | a number followed by anything else is read as zero |
| `OpenVpnWire.EveryMessage` | backend/openvpn/mgmt.go:117-219 | for every input of every stream, however interleaved, the message billing hears: a status end as the rows since the last one, the end of a disconnect block as its own session's end, otherwise none |
| `OpenVpnWire.KindsOfLines` | backend/openvpn/mgmt.go:117-156 | which text lines open a block, end one, set a variable, are a status row or end an answer, and that no others do |
| `OpenVpnWire.ListingRead` | backend/openvpn/mgmt.go:286-303 | a tab-separated status line is read as its client's row |
| `OpenVpnWire.StreamIsHeard` | backend/openvpn/mgmt.go:117-219 | text lines of connects, re-authentications, disconnects, status answers and other output, with user changes in between, are heard as the session ends and status answers that were meant, in order, as the messages of `OpenVpnWorld` |
| `L2tpStats.L2TP.SettleFinals` | backend/l2tp/stats.go:70-97 | each final record adds what its interface's base line lacks, clamped at zero, and clears it |
| `L2tpStats.L2TP.MeasureLive` | backend/l2tp/stats.go:99-112 | each live session adds its growth, or all of it if the counter went back |
| `L2tpStats.L2TP.Poll` | backend/l2tp/stats.go:31-155 | finals, then live sessions, then base lines without a live session are dropped and totals absorbed |
| `L2tpBilling.FoldBills` | backend/l2tp/stats.go:70-112 | a poll's growth per user is what it puts down to their sessions |
| `L2tpBilling.PaidOwn` | backend/l2tp/stats.go:70-112 | each session is put down for its own record only |
| `L2tpBilling.NextKeeps` | backend/l2tp/stats.go:31-155 | every event, records in any order included, keeps the books sound and charges equal to payments |
| `L2tpBilling.PollPays` | backend/l2tp/stats.go:70-112 | a poll puts a session down for what polls had not seen of it, and an error that is given exactly |
| `L2tpBilling.ChargedIs` | backend/l2tp/stats.go:31-155 | at every point of every run, kills and records in any order included, billed plus pending is what polls saw of a user's sessions and the errors about them |
| `L2tpBilling.NeverOverbilled` | backend/l2tp/stats.go:31-155 | kills included, no user is billed more than they moved while no poll took a base line's session late |
| `L2tpBilling.ExactAfterPoll` | backend/l2tp/stats.go:62-148 | without kills, after any poll a user is charged what they moved and the errors about their sessions, which are all zero while no poll took a base line's session late |
| `L2tpBilling.ViewsAgree` | backend/l2tp/stats.go:119-123 | the node total is the sum of the users' totals |
| `L2tpBilling.TotalNeverShrinks` | backend/l2tp/stats.go:122-123 | the node total never goes back |
| `L2tpBilling.ChronologicalIsEnough` | backend/l2tp/sessions.go:135-160 | records in the order their sessions ran never take a base line's session late |
| `L2tpBilling.OrderMatters` | backend/l2tp/stats.go:70-112 | over all interfaces of a poll: every session is put down for exactly its bytes if and only if each one a base line was read from comes first on its interface, or had nothing in it |
| `L2tpReuse.OlderRecordTakenSecond` | backend/l2tp/sessions.go:158-158 | sorting by file name puts the newer record first, and in a run like that the older session is billed twice |
| `SingBoxUsers.MergedLastWord` | backend/singbox/singbox.go:498-518 | a partial update: the last word on a user counts, others stay |
| `SingBoxUsers.ReplacedLastUsable` | backend/singbox/singbox.go:520-535 | a full set: the last usable entry counts, others are gone |
| `SingBoxUsers.ReplaceIsMergeFromNothing` | backend/singbox/singbox.go:498-535 | the two agree exactly when nobody's last word withdraws them |
| `SingBoxUsers.WithdrawnInFullSet` | backend/singbox/singbox.go:520-526 | a full set keeps a user its own later entry withdraws |
| `SingBoxUsers.SyncAgreesWithMerge` | backend/singbox/singbox.go:449-513 | one change agrees with a batch of one exactly when the user is usable, the name is trimmed or they are not there |
| `SingBoxUsers.PaddedRemovalIsLost` | backend/singbox/singbox.go:449-466 | a removal with stray white space leaves the user served |
| `SingBoxUsers.TrimIdempotent` | backend/singbox/singbox.go:747-778 | a trimmed name is its own key |
| `SingBoxSecrets.SpacesAre` | backend/singbox/singbox.go:751-770 | white space is that of Unicode, code point by code point |
| `SingBoxSecrets.TrimIs` | backend/singbox/singbox.go:751-770 | trimming takes all white space off both ends and nothing else |
| `SingBoxSecrets.OnCoreWhen` | backend/singbox/singbox.go:739-792 | a user is on the core exactly if they have a name, an inbound that it serves and one of the five secrets |
| `SingBoxSlots.SingBox.SyncUser` | backend/singbox/singbox.go:449-467 | the table after one change |
| `SingBoxSlots.SingBox.MergeUsers` | backend/singbox/singbox.go:498-518 | the table after a partial update |
| `SingBoxSlots.SingBox.ReplaceUsers` | backend/singbox/singbox.go:520-535 | the table after a full set |
| `SingBoxSlots.SingBox.ReconcileSlots` | backend/singbox/singbox.go:583-609 | positions of those who left are emptied, nobody moves, newcomers are appended in some order, each once |
| `SingBoxSlots.SingBox.PayloadFor` | backend/singbox/singbox.go:619-637 | one entry per position: the user, or a placeholder if there is none or they lack this protocol's secret |
| `SingBoxSlots.SingBox.PushUsers` | backend/singbox/singbox.go:683-694 | one rendering of the new table per kind of inbound |
| `SingBoxSecrets.SecretsAreSent` | backend/singbox/singbox.go:619-735 | in every run, a user who is introduced and pushed has one position, and every inbound is shown their trimmed secret of its own kind there: ids as uuid, the others as password, a placeholder for want of one |
| `SingBoxSlots.CoreInbound.UpdateUsers` | singbox/0001-runtime-users.patch:276-290 | names and passwords of the list, position by position |
| `SingBoxSlots.CoreInbound.ResolveName` | singbox/0001-runtime-users.patch:297-304 | the name at an index of the list in place, or nothing |
| `SingBoxSlots.SessionKeepsItsName` | backend/singbox/singbox.go:560-637 | in every run of changes, pushes and late, repeated or lost lists, a session resolves to the user it authenticated as, the placeholder or nothing; to another user exactly if it resolves to the placeholder and somebody is called that |
| `SingBoxSlots.NeverAnotherUser` | backend/singbox/singbox.go:747-778 | as long as nobody's trimmed name is the placeholder's, no session is billed to another user |
| `SingBoxSecrets.SessionIsBilled` | backend/singbox/singbox.go:583-647 | in every run, on an inbound with the present list a session is billed to its user if and only if they kept their position and have a secret of that kind |
| `SingBoxSlots.DashIsBilled` | backend/singbox/singbox.go:639-641 | a run in which an open session is billed to a user called what placeholders are |
| `SingBoxSlots.DashCaseExists` | backend/singbox/singbox.go:747-778 | such users are accepted: alice, and one called "-" |
| `SingBoxSlots.ListsNeverConflict` | backend/singbox/singbox.go:619-694 | no two lists of one process life name two users at one index |
| `SingBoxSlots.PushLaysOutUsers` | backend/singbox/singbox.go:583-609 | after every push the positions taken are exactly the users, each once, and the table grew by exactly the users without one |
| `SingBoxSlots.SlotsNeverShrink` | backend/singbox/singbox.go:572-609 | within a process life positions are only added and stay with whom they were first given to |
| `SingBoxSlots.ListsOfTwoLivesConflict` | backend/singbox/singbox.go:230-236 | lists of different process lives do conflict, so none may outlive its process |
| `SingBoxStats.StatsClient.Fold` | backend/singbox/stats.go:74-101 | first sight bills nothing, growth is pending, a drop counts in full |
| `SingBoxStats.StatsClient.Take` | backend/singbox/stats.go:106-121 | exactly the counters under the prefix, removed only if consumed |
| `SingBoxStats.CategoriesDisjoint` | backend/singbox/stats.go:174-190 | users, inbounds and outbounds never take each other's counters |
| `SingBoxStats.TakesByPrefix` | backend/singbox/stats.go:106-121 | a take splits the counters into those whose names start with the prefix and the others, values unchanged |
| `SingBoxStats.OwnCountersOnly` | backend/singbox/stats.go:178-179 | between names without the separator's mark, a request for a user is answered with their own counters only |
| `SingBoxStats.NamesakeTaken` | backend/singbox/stats.go:178-179 | a user whose name begins with another's and the separator is taken with them |
| `SingBoxStats.CountersConserved` | backend/singbox/stats.go:74-121 | consumed plus pending never exceeds what was moved since first sight, and what is missing is named |
| `SingBoxStats.ExactAfterCollect` | backend/singbox/stats.go:74-101 | after a reading it is exact if and only if no restart came with something unread and each one showed as a drop or had nothing to hide |
| `SingBoxStats.RestartHidden` | backend/singbox/stats.go:95-98 | a run in which a restart the counter has caught up with takes as much off the bill as the counter held before |
| `SingBoxStats.TakeOnlyItsOwn` | backend/singbox/stats.go:106-121 | a take for another prefix, or one that only looks, changes nothing about a counter |
| `SingBoxSupervisor.AtMostOneSupervisor` | backend/singbox/singbox.go:183-215 | in every interleaving at most one supervisor is alive |
| `SingBoxSupervisor.NothingClosedTwice` | backend/singbox/singbox.go:170-371 | no channel is closed twice |
| `SingBoxSupervisor.BackoffBounded` | backend/singbox/singbox.go:393-434 | the delay is two seconds, doubled by every failed start, and a minute from the fifth on |
| `SingBoxSupervisor.CrashIsSupervised` | backend/singbox/singbox.go:183-215 | in every run, a process that ends while nothing is stopped or supervised gets a supervisor, the only one; otherwise nobody new |
| `SingBoxSupervisor.StoppedNeverStarts` | backend/singbox/singbox.go:324-434 | from a shutdown until something starts a process, no supervisor begins to start one or to wait |
| `WgPeerStore.PeerStore.ApplyChanges` | backend/wireguard/peer_store.go:42-76 | the two maps stay inverse through any removals and upserts; the new contents, and exactly what was removed |
| `WgPeerStore.PeerStore.UpsertOne` | backend/wireguard/peer_store.go:57-73 | a peer replaces whoever had its email or its key |
| `WgPeerStore.PeerStore.RemoveKeys` | backend/wireguard/peer_store.go:48-54 | exactly the named keys go |
| `WgPeerStore.PeerStore.ReplaceAll` | backend/wireguard/peer_store.go:80-108 | both maps of the new list, and exactly the keys that are gone |
| `WgPeerStore.PeerStore.GetByEmail` | backend/wireguard/peer_store.go:111-119 | the one peer with an email, if any |
| `WgPeerStore.LastClaimWins` | backend/wireguard/peer_store.go:57-73 | swaps and cycles included, a peer is there exactly if nothing later claimed its email or key |
| `WgPeerStore.FilledInverse` | backend/wireguard/peer_store.go:25-38 | filling both maps from a list makes them inverse exactly when last-by-key is last-by-email |
| `WgPeerStore.SharedEmailBreaksInverse` | backend/wireguard/peer_store.go:80-108 | one email with two keys leaves the maps out of step |
| `WgUsers.NormalizeUsers` | backend/wireguard/user_common.go:309-331 | the last listed entry of each email, each once, in some order |
| `WgUsers.NormalizedConcat` | backend/wireguard/user_common.go:309-331 | normalising two lists together is overriding by email |
| `WgUsers.ClaimIPs` | backend/wireguard/user_common.go:238-264 | the ranges a user claims before an unreadable one, and whether one is somebody else's |
| `WgUsers.CollectDesiredPeers` | backend/wireguard/user_common.go:213-280 | fails exactly if two users take one range, in front of anything unreadable, or ask for one key; otherwise the peers by key of exactly those on the interface with a proper key, no unreadable address and one in a pool, with all their ranges in order |
| `WgUsers.WantsWhen` | backend/wireguard/user_common.go:238-278 | the same user by user, on the address list |
| `WgUsers.WantedAre` | backend/wireguard/user_common.go:213-331 | the peers a list of users asks for, in the panel's own terms |
| `WgKernel.BuildSyncDiff` | backend/wireguard/user_common.go:51-137 | exactly the removals, upserts and kernel settings that differ, in any map order |
| `WgKernel.BuildTargetPeerConfigs` | backend/wireguard/user_common.go:144-164 | a setting for every peer with an address |
| `WgKernel.SetPeer` | backend/wireguard/user_common.go:51-117 | a peer that is set ends up with exactly its ranges, in any order of the settings |
| `WgKernel.OtherPeer` | backend/wireguard/user_common.go:51-117 | a peer that is not set keeps what nobody else was given |
| `WgSync.StoreReconciled` | backend/wireguard/user_partial_sync.go:22-75 | the diff applied to the store is the old store without the named users plus the wanted peers |
| `WgSync.KernelReconciled` | backend/wireguard/user_partial_sync.go:54-66 | the kernel then matches the store if and only if no wanted range belongs to a user not named |
| `WgSync.RangeLost` | backend/wireguard/user_partial_sync.go:22-75 | a full sync of one user and a partial one of another with the same range: both are accepted, and the kernel ends up without the range the store lists |
| `WgSync.WireGuard.BuildExistingSubset` | backend/wireguard/user_partial_sync.go:12-20 | exactly the store's peers of the named users |
| `WgSync.WireGuard.FindTakenKey` | backend/wireguard/user_partial_sync.go:36-45 | whether a wanted key belongs to a user not named |
| `WgSync.WireGuard.SyncUsersPartial` | backend/wireguard/user_partial_sync.go:22-75 | refused exactly on a collision, a taken key, or changes for a kernel that is down, changing nothing; otherwise the reconciled store, one owner per range, and when the kernel matches |
| `WgSync.WireGuard.SyncUsersFull` | backend/wireguard/user_full_sync.go:9-58 | refused exactly on a collision, or changes for a kernel that is down, changing nothing; otherwise the wanted peers, one owner per range, and a changed kernel matches them |
| `WgSync.QuietConfigs` | backend/wireguard/user_partial_sync.go:54-66 | the kernel is not told exactly when it has every wanted peer with its ranges and nobody named is to go |
| `WgSync.KernelStaysInStep` | backend/wireguard/user_partial_sync.go:22-75 | over every sequence of full and partial syncs from an empty node: one peer per email and key, one owner per range, and the kernel matches the store as long as no accepted partial sync since the last changing full one took somebody else's range |
| `WgSync.IncrementalEqualsFull` | backend/wireguard/user_full_sync.go:9-58 | a full sync and then a partial one give the store of one full sync of both lists, and when that one succeeds |
| `Base64.RoundTrip` | common/helper.go:39-65 | decoding what was encoded gives it back (section 4 of RFC 4648) |
| `Base64.AlphabetIs` | common/helper.go:39-65 | the alphabet of section 4 of RFC 4648, in order |
| `Base64.EncodedGroup` | common/helper.go:39-65 | every three bytes and their four digits are the same 24 bits |
| `Base64.EncodedTail` | common/helper.go:39-65 | one or two bytes left over are followed by zero bits and padding |
| `Base64.DecodesWhen` | common/helper.go:41-42 | exactly which texts decode, and to how many bytes |
| `Base64.BreaksIgnored` | common/helper.go:41-42 | line breaks make no difference |
| `Base64.EnsuredKeyIs` | common/helper.go:39-65 | a password that decodes to the length its method asks for is kept; any other gives the encoding of its hash, of the first 16 bytes for an aes-128-gcm method |
| `Base64.EnsuredIsUsable` | common/helper.go:39-65 | for a known cipher the result is always a key of the right length |
| `Base64.EnsureIdempotent` | common/helper.go:39-65 | normalising twice is normalising once exactly for a known cipher, or if the hash fixes the derived key |
| `Base64.UnknownCipherNotIdempotent` | common/helper.go:53-62 | a cipher that is not known, and a hash under which a second pass changes the key |
| `XrayClients.ActiveIsRebuilt` | backend/xray/user.go:16-120 | the two ways of arriving at a user's account agree |
| `XrayClients.StoredThere` | backend/xray/config.go:205-299 | an account is of its inbound's own kind, and both kinds of update store it alike |
| `XrayClients.StableWhen` | backend/xray/config.go:241-299 | normalising a key once more on the way into the map changes nothing exactly outside shadowsocks-2022, for a known cipher, or if the hash fixes the key |
| `XrayClients.UpdatedAt` | backend/xray/config.go:241-299 | a batch user by user: removal wins, else the last account, else unchanged |
| `XrayClients.SyncedServes` | backend/xray/config.go:121-203 | a full sync gives each inbound exactly the accounts of its own protocol, from the panel's own fields; a 2022 key is used exactly for a method that starts with 2022-blake3 |
| `XrayClients.UpdatedServes` | backend/xray/config.go:241-299 | a batch and single updates do the same for a cipher that is known |
| `XrayClients.IncrementalEqualsRebuild` | backend/xray/config.go:74-299 | for every inbound, a batch after a full sync is the full sync of the overridden list exactly when the batch is of one mind about every user and each account it stores is stable |
| `XrayClients.AddedAndDropped` | backend/xray/config.go:296-298 | a user dropped and added by one batch ends up dropped |
| `XrayClients.DistinctIsDecided` | backend/xray/config.go:91-104 | one entry per user is always of one mind, and agrees with the rebuild for a known cipher |
| `XrayClients.OneByOneIsBatch` | backend/xray/user.go:122-161 | single updates in any order give what the batch gives |
| `XrayConfig.Inbound.SyncUsers` | backend/xray/config.go:121-203 | the rebuilt client map |
| `XrayConfig.Inbound.UpdateUser` | backend/xray/config.go:205-239 | the account stored, its key normalised |
| `XrayConfig.Inbound.UpdateUsers` | backend/xray/config.go:241-299 | accounts of the inbound's own kind stored, then emails removed |
| `XrayConfig.BuildInboundUpdate` | backend/xray/config.go:74-107 | one inbound's accounts and removals |
| `XrayConfig.Config.SyncUsers` | backend/xray/config.go:60-67 | every inbound not excluded is rebuilt |
| `XrayConfig.Config.UpdateUsers` | backend/xray/config.go:109-119 | the last inbound of every tag is updated, in any order |
| `XrayConfig.Config.SyncUser` | backend/xray/user.go:122-155 | every inbound not excluded takes or drops the user |
| `XrayConfig.Config.UpdateIsRebuild` | backend/xray/config.go:60-119 | with distinct tags, known ciphers and one entry per user, a batch or single updates in any order leave every inbound that is not excluded with what a rebuild of the overridden list leaves |
| `SubnetSplit.BitsNeededIsLeast` | backend/openvpn/listeners.go:78-84 | the extra bits address every listener, and one less would not |
| `SubnetSplit.BlockStart` | backend/openvpn/listeners.go:66-76 | the 32-bit arithmetic never wraps around |
| `SubnetSplit.AcceptedWhen` | backend/openvpn/listeners.go:43-64 | one listener gets the subnet as it was written; more are refused exactly when they would get less than 256 addresses each |
| `SubnetSplit.BlocksPartition` | backend/openvpn/listeners.go:43-76 | blocks are aligned, inside the parent and apart |
| `PoolRange.Inc` | backend/l2tp/serverconf.go:342-349 | plus one, modulo 2^32 |
| `PoolRange.Dec` | backend/l2tp/serverconf.go:350-358 | minus one, modulo 2^32 |
| `PoolRange.BytesCompare` | backend/l2tp/serverconf.go:359-369 | the order of the numbers |
| `PoolRange.ComputePoolRange` | backend/l2tp/serverconf.go:314-339 | the two ends as four bytes compute them, or the server alone if they cross |
| `PoolRange.NetworkValue` | backend/l2tp/serverconf.go:324-325 | masking byte by byte is masking the number |
| `PoolRange.BroadcastValue` | backend/l2tp/serverconf.go:326-330 | the broadcast address is the last of the block |
| `PoolRange.RangeUpTo30` | backend/l2tp/serverconf.go:331-339 | up to a /30 exactly network + 2 to broadcast - 1, not empty, inside the pool |
| `PoolRange.RangeBeyond30` | backend/l2tp/serverconf.go:331-339 | beyond that a range is found exactly in the four places where the arithmetic wraps around |
| `PoolRange.LastAddressWraps` | backend/l2tp/serverconf.go:331-339 | the last address of all gets nearly the whole address space |
| `UserChunks.BuildUsersFromChunks` | controller/users_chunk.go:12-31 | the chunks in order, exactly if none is missing and somebody is in them; at most one round more than there are chunks, for every last index |
| `UserChunks.SyncUsersChunked` | controller/rpc/user.go:55-83 | what any stream of chunks gives |
| `UserChunks.GatheredIs` | controller/rpc/user.go:55-83 | every index collects all that arrived under it, in order |
| `UserChunks.Reassembled` | controller/rpc/user.go:55-83 | a list split into chunks comes back as it was, whatever order they arrive in |
| `UserChunks.GapIsRefused` | controller/users_chunk.go:18-24 | a gap below the last chunk is an error |

## Left out

- Process spawning, sockets, HTTP and gRPC handlers, firewall commands, file writing, logging, TLS and generated code.
- JSON parsing and config rendering; parsing of CIDRs and keys (taken as parsed values or as functions).
- Locks and timing: a poll, a sync and a critical section are one step each; timers fire at any moment.
- Activity times, endpoint addresses and online-IP lists, which no bill depends on.
- 64-bit overflow of byte counters.
- OpenVPN: `Restart`, where client ids start again while base lines persist; sessions that vanish without a disconnect event.
- OpenVPN management: a client without an authoriser or without a session-end handler, and kill commands.
- L2TP: the per-core tag filter on session files, stale session files and unreadable records.
- WireGuard: who gets the pending bytes of a key that changes owner; the calls into the tracker made by a sync (their effect is the removal event of `PeerBilling`); a kernel that applies only part of a request.
- sing-box: the derivation of placeholder secrets (a function parameter); a push between readiness and the slot reset, and lists of an earlier process that arrive late (`ListsOfTwoLivesConflict` shows why); nil users, which are skipped.
- xray: the API calls made beside the table changes, and the flow override they carry.
- SingBoxSupervisor.CrashIsSupervised: says nothing about a crash that finds the flag set or a stop under way; not every crash is recovered and not every shutdown final, since a start clears the stop flag and a crash during a supervisor's own push finds the flag set.
- `splitStatName`, work directory names and other pure formatting.
