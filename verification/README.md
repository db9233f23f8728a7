# A verified model of the go-ads session

go-ads is a client for Beckhoff PLCs. A session resolves symbols to PLC handles, subscribes to
notifications, survives reconnects and cache reloads, and decodes what the PLC uploads. This project
models the parts where goroutines race and where bytes are laid out, and proves what holds in every
interleaving and for every input.

How the source's forms are kept:

- Objects whose methods update fields are classes (`Fsm`, `Limiter`, `Watcher`, `Manager`, `Session`,
  `Client`, `Values`, `Buffer`). Each method is tied to a function on values, and the laws are proved of
  that function.
- Protocols between goroutines are step functions on values. One event is one critical section or one
  request, and `Exec` runs any list of events, so a lemma about `Exec` is about every interleaving.
- In the batch subscribe, the resubscribe and the recovery, the other goroutines are a parameter: a
  function `Env` that may change the shared state wherever no lock is held. A predicate on it says what
  is assumed of them. Each method is tied to a function of the state at entry and of `Env`, so a moment
  such as "when settle looks" is a function too (`BatchProofs.SettleLook`, `BatchProofs.CheckedAt`,
  `RecoveryProofs` on `Resubscribe.SnapAt`), not something a proof may choose.
- The PLC, the network and the clock are parameters too: handles, replies, failures and tick inputs are
  arbitrary within the stated assumptions.

Some laws turn out not to hold for all inputs. Each is stated with its exact condition and with an input
that breaks it:

- A heartbeat window stays at least as long as its base for every failure count exactly when the base is
  below 2^57 (`Heartbeat.WindowKeepsBaseExactly`): the shift that doubles it is a 64-bit one.
- The packed sum reply gives what individual reads give exactly when every successful reply has the
  requested length (`SumRead.PackedAgreesExactly`); the one-by-one fallback does not check it.
- Removing a config keeps the key index exact exactly when the first entry that folds with the name is the
  one under its key (`NotificationInvariant.UnfiledKeepsExactly`). The index is keyed by lower-casing and
  the search uses case folding. ASCII names are always safe (`SymbolNames.AsciiCompatible`). Outside ASCII
  the two disagree in both directions (`SymbolNames.NonAsciiIncompatible`), and either way the index breaks
  (`NotificationInvariant.LongSBreaksIndex`, `NotificationInvariant.DottedIBreaksIndex`).
- A scheduled orphan delete can hit a bound handle exactly when an open subscribe has that handle yet to
  commit (`OrphanReaper.OrphanDeleteExactly`), and a run in which it does exists
  (`OrphanReaper.OrphanDeleteCanHitBound`).
- A symbol handle is lost exactly when a reload found it stored in an entry (`SymbolHandles.LostExactly`).
- A resolver returns an entry without a handle exactly when its insert finds the name taken by one
  (`SymbolHandles.ReturnsBareExactly`); a reload in between can bring that about
  (`SymbolHandles.ReloadReturnsBareEntry`).
- An operation of the manager keeps all subscriptions on one channel exactly when it sets no other channel under
  bound handles (`ManagerLaws.OneChannelStep`), and keeps the baseline of registered handles at or above what is
  bound exactly when it does not lower it below that (`ManagerLaws.CoversStep`).
- A failed recovery keeps every key on file at entry unless the others took it off before the snapshot
  (`RecoveryProofs.MissingOnlyIfTakenOff`). That needs no caller's delete: a concurrent batch whose handle the
  recovery's sweep unbound does it when it settles (`RecoveryProofs.SettleIsNoDelete`,
  `NotificationInvariant.SettleDuringRecovery`). Which operations of the manager never do it is
  `NotificationInvariant.KeepsFileExactly`.
- Over runs in which Connect does not fail, no drop is forgotten exactly when auto-reconnect is on
  (`ReconnectOwnership.DropsRememberedExactly`).

## Model

| member | source | states |
|---|---|---|
| EarlySamples.InsertBounded | cmd_notification.go:614-639 | parking a sample when there is room keeps the byte count equal to the content held, at most 8 MiB over at most 4096 handles |
| EarlySamples.FullExactly | cmd_notification.go:614-639 | a sample is refused exactly when parking it would hold more than 4096 handles or 8 MiB of content |
| EarlySamples.RemoveBounded | cmd_notification.go:596-605 | taking any set of handles out of the buffer keeps the byte count exact and the caps respected |
| EarlySamples.TotalSplit | cmd_notification.go:687-698 | the content held splits exactly between any set of handles and the rest |
| SubscribeRaceProofs.ParkedSampleKept | cmd_notification.go:559-704 | in every interleaving, while the subscribe that created a handle is open, the latest sample parked for it is still held or already taken for dispatch: no other subscribe's close discards it |
| SubscribeRaceProofs.ClosingReplayDeliversOnce | cmd_notification.go:318-368 | the latest sample parked before a subscribe's closing replay is dispatched at most once in the whole run, exactly once as soon as no goroutine still carries it, finds the handle bound as long as it stays bound, and by then the consumer has it or something newer |
| SubscribeRaceProofs.ReplaysReachConsumer | cmd_notification.go:318-390 | in every run, a dispatched replay that found its handle and has landed has reached the consumer, unless something newer had |
| SubscribeRaceProofs.ReplayDelivers | cmd_notification.go:380-390 | accepting a replay leaves its stamp or a later one as the last accepted for the handle |
| SubscribeRaceProofs.LiveDelivers | cmd_notification.go:380-390 | a live sample is always delivered, as the last thing its consumer got |
| SubscribeRaceProofs.BoundArrivalDelivered | cmd_notification.go:318-390 | a sample that arrives for a bound handle stays on its shard until the consumer has exactly that sample, in every continuation |
| SubscribeRaceProofs.MissedIsHeld | cmd_notification.go:340-347 | a sample that arrives for an unbound handle is held by its shard until that shard decides about it, and is on its way to be parked once the window is seen open |
| SubscribeRaceProofs.ParkParks | cmd_notification.go:614-657 | a sample for which there is room becomes the latest parked one of its handle, and its shard looks again at once |
| SubscribeRaceProofs.LateParkDelivered | cmd_notification.go:647-704 | a sample parked only after its handle was bound is not lost: while the subscribe is open and the handle stays bound, the second look of the shard takes it, and then the consumer has it or something newer |
| SubscribeRaceProofs.AcceptedStampsInOrder | cmd_notification.go:369-390 | if a handle's stamps never go back in arrival order, the accepted stamps never go back, however replays interleave with live samples |
| SubscribeRaceProofs.OrphanDeleteSparesBound | cmd_notification.go:745-762 | an orphan delete judged while no subscribe was open, or on a replay, is never sent for a bound handle, in any interleaving |
| SubscribeRaceProofs.EarlyBufferBounded | cmd_notification.go:614-704 | in every reachable state the early buffer's count is exact and both caps hold |
| SubscribeRaceFates.BoundUntilUnbound | cmd_notification.go:318-368 | in every continuation a bound handle stays bound until a delete or a sweep names it |
| SubscribeRaceFates.CommitBinds | notification_api.go:887-928 | a commit binds its handle until a delete or a sweep names it, in every continuation |
| SubscribeRaceFates.UnboundForGood | cmd_notification.go:144-187 | a delete or a sweep unbinds exactly the handles it names, and none of them is ever bound again |
| SubscribeRaceFates.RefusedNeverBound | notification_api.go:887-928 | a handle whose commit was refused is never bound, in any continuation |
| SubscribeRaceFates.LastCloseDiscards | cmd_notification.go:582-605 | the close of the last open subscribe discards what is parked for good; any other close discards nothing |
| SubscribeRaceFates.SentAfterUnbound | cmd_notification.go:745-842 | a scheduled orphan delete that was sent found its handle unbound at some moment in between |
| SubscribeRaceFates.SentAfterNoneOpen | cmd_notification.go:745-842 | and found no subscribe open at some moment in between |
| OrphanReaper.OrphanDeleteExactly | cmd_notification.go:745-905 | a scheduled orphan delete can still be sent for a bound handle if and only if an open subscribe has that handle yet to commit |
| OrphanReaper.OrphanDeleteCanHitBound | cmd_notification.go:745-842 | a run from the start that ends with the orphan delete sent for a bound handle |
| OrphanReaper.HarmlessForever | cmd_notification.go:764-905 | once no subscribe can commit a job's handle, no continuation of the run makes that job hit a bound handle |
| SessionFsm.Fsm.TransitionTo | session_fsm.go:114-141 | moves only along a table edge; re-entry reports success without a move; entering Connected advances the epoch |
| SessionFsm.Fsm.TransitionToOnce | session_fsm.go:143-162 | as above, but re-entry reports failure |
| SessionFsm.Fsm.BumpEpoch | session_fsm.go:205-207 | the epoch rises by one, the state stays |
| SessionFsm.MovesOnlyAlongEdges | session_fsm.go:53-106 | in every run consecutive states are equal or joined by a table edge |
| SessionFsm.EnteredExactly | session_fsm.go:53-162 | read by target instead of by source: which states each state can be entered from, and that a transition moves and reports success exactly then |
| SessionFsm.RunEntersFrom | session_fsm.go:53-162 | in every run a state is only ever entered from one of those |
| SessionFsm.ConnectingComesFirst | session_fsm.go:53-106 | no run connects a new session without having been in Connecting |
| SessionFsm.AlwaysRecoverable | session_fsm.go:53-106 | from every state but Closed some run reaches Connected, and one step closes |
| SessionFsm.ClosedIsFinal | session_fsm.go:53-106 | no run leaves Closed, and nobody wins closing again |
| SessionFsm.AtMostOneClosingWinner | session_fsm.go:143-162 | however many callers race to close, at most one is told it closed the session |
| SessionFsm.EpochCountsAdvances | session_fsm.go:114-162 | the epoch is the starting epoch plus the entries to Connected and the cache swaps, so it never falls |
| SessionFsm.SwapChangesEpoch | session.go:2972-2984 | a check against an earlier epoch notices every swap completed in between |
| ReconnectOwnership.AtMostOneOwner | session.go:1845-1891 | at every step of every run at most one goroutine owns the reconnect, and the flag says whether one does |
| ReconnectOwnership.FlagIsLastWrite | session.go:1845-1967 | in every continuation the drop flag says what the last write to it said: down after a trigger on an open session or a redial under way, up after a dial |
| ReconnectOwnership.DropRecorded | session.go:1845-1855 | a trigger on an open session records the drop, and the record lasts until the transport is dialed again |
| ReconnectOwnership.ClosedIgnoresDrops | session.go:1845-1848 | on a closed session triggers record nothing |
| ReconnectOwnership.ClosedExactly | session.go:1830-1843 | a session is closed if and only if someone closed it or the owner gave up |
| ReconnectOwnership.NoDropIsForgotten | session.go:1937-1967 | with auto-reconnect and a Connect that does not fail, a recorded drop on an open session always leaves someone with the duty to act on it |
| ReconnectOwnership.DropsRememberedExactly | session.go:1845-1967 | over the runs in which Connect does not fail, no drop is ever forgotten if and only if auto-reconnect is on |
| ReconnectOwnership.ManualSessionForgetsDrops | session.go:1845-1891 | without auto-reconnect a run ends with a drop nobody will act on |
| ReconnectOwnership.FailedConnectForgetsDrops | session.go:528-538 | a Connect that fails with the transport down can leave the drop to its caller |
| ReconnectOwnership.SchedulesEnd | session.go:1845-1967 | however the goroutines other than the owner are scheduled, they end after a bounded number of steps |
| ReconnectOwnership.RunsToRest | session.go:1845-1967 | from every state those goroutines can be run to their end |
| ReconnectOwnership.DutyDischarged | session.go:1845-1967 | in any run with auto-reconnect in which Connect does not fail: whenever the goroutines other than the owner have ended, the reconnect is owned, the transport is up or the session is closed |
| ReconnectOwnership.DropIsActedOn | session.go:1845-1967 | in such a run, after any drop: once those goroutines have ended, and unless the transport was dialed again since, the reconnect is owned or the session is closed |
| ReconnectOwnership.MarkIsActedOn | session.go:1845-1967 | the same from the moment a trigger saw the session open, with the drop still on record at the end |
| ReconnectOwnership.CallIsServed | session.go:1915-1967 | a Reconnect call finds an owner or becomes one, unless the session is closed |
| ReconnectOwnership.NoReconnectAfterClose | session.go:1928-1940 | after the close, no goroutine that had not passed the test yet ever owns a reconnect |
| ReloadLimiter.Limiter.Prune | session.go:1407-1414 | pruning in the backing array keeps exactly the attempts after the cutoff, in order |
| ReloadLimiter.Limiter.TryRecord | session.go:1403-1420 | admits exactly when fewer than the cap are left after pruning, and then records the attempt |
| ReloadLimiter.AtMostMaxPerWindow | session.go:1403-1420 | under a clock that does not go back, at most the cap is admitted in any half-open interval of the window's length, over every run |
| ReloadLimiter.AdmittedExactlyWhenRoom | session.go:1403-1420 | a call is admitted if and only if fewer than the cap were admitted within the window before it: pruning forgets nothing that matters |
| Heartbeat.WindowBounds | cmd_notification.go:980-987 | the silence window is never below the base and never above max(base, 30 s / cycle) |
| Heartbeat.WindowMonotone | cmd_notification.go:980-987 | the window never shrinks as failures grow |
| Heartbeat.WindowKeepsBaseExactly | cmd_notification.go:980-987 | every window is at least the base, for any failure count, if and only if the base is below 2^57 |
| Heartbeat.WindowExactly | cmd_notification.go:980-987 | the window is the base doubled once per failure, at most six times, capped at 30 s of ticks or a longer base |
| Heartbeat.Watcher.OnTick | cmd_notification.go:1192-1454 | one tick changes the watcher as the detector's step function says |
| Heartbeat.SilenceAttemptsApart | cmd_notification.go:1192-1454 | in every trace, silence-triggered attempts are at least the window of processed ticks apart |
| Heartbeat.FailuresClearOnlyWhenStable | cmd_notification.go:1163-1183 | the failure count clears only after the stable number of consecutive processed ticks with a beat and no gap, or on a new connected generation |
| HeartbeatProofs.FailuresCountAttempts | cmd_notification.go:1163-1454 | in every trace the failure count is the number of attempts since the last clear, in every mode: the start, a new generation, or a healthy stretch |
| HeartbeatProofs.FiresExactly | cmd_notification.go:1192-1454 | a silent window ends at a tick if and only if the tick is processed, sees no beat, and the processed ticks since the last beat, window or generation reach the window the attempts since the last clear allow |
| HeartbeatProofs.WindowsBackOff | cmd_notification.go:1192-1454 | when silent windows keep failing, the one after n of them comes no sooner than the window that n failures allow |
| HeartbeatProofs.SilenceAlwaysFires | cmd_notification.go:1192-1454 | as many processed ticks without a beat as the window allows always end in an action |
| HeartbeatProofs.GapFiresExactly | cmd_notification.go:1192-1454 | missing subscriptions are recovered at a tick if and only if it is processed, some are missing, a beat is seen, and the ticks since nothing was missing reach the window |
| HeartbeatProofs.StableExactly | cmd_notification.go:1163-1183 | the failures are forgotten at a tick if and only if it ends a row of twice the base healthy ticks since the last unhealthy one or the last generation |
| HeartbeatProofs.HandsOverExactly | cmd_notification.go:1192-1454 | the watcher hands over to a reconnect if and only if two silent windows in a row could not be helped and no frame came in between |
| HeartbeatProofs.SilentParity | cmd_notification.go:1192-1454 | in confirming mode the watcher remembers exactly whether an unconfirmed window is pending, by the parity of the windows since it was last cleared |
| HeartbeatProofs.IgnoredExactly | cmd_notification.go:1192-1454 | a tick is ignored exactly when the session is not connected, its transport is gone, or nothing is asked for |
| HeartbeatProofs.RemembersInputs | cmd_notification.go:1192-1454 | the generation and the beat count the watcher compares with are those the inputs say |
| SymbolNames.AsciiCompatible | symbols.go:41-41 | among ASCII names, two names fold together if and only if they have one key |
| SymbolNames.AsciiKeyIgnoresCase | symbols.go:41-41 | two ASCII names have one key if and only if they differ in case only |
| SymbolNames.NonAsciiIncompatible | notification_api.go:932-944 | the long s and the final sigma fold under another key, and the dotted I shares a key with a name it does not fold with |
| NotificationManager.Manager.SetPending | notification_api.go:172-184 | one entry per symbol: replaces the entry on file under the key, or files a new one with its key |
| NotificationManager.Manager.RemoveNotificationConfig | notification_api.go:932-944 | takes the key off the index and removes the first entry whose name folds with the given one |
| NotificationManager.Manager.ResetConfigs | notification_api.go:269-275 | the entries are the given ones and the index is exactly their keys |
| NotificationManager.Manager.RestoreConfigs | notification_api.go:286-293 | merges a snapshot: entries whose key is on file are left as they are |
| NotificationManager.Manager.HasLiveNotification | notification_api.go:244-252 | true exactly when some bound handle's symbol has the name's key |
| NotificationManager.Manager.LiveNotificationNames | notification_api.go:257-265 | exactly the keys of the bound handles |
| NotificationManager.Manager.Commit | notification_api.go:896-927 | the checks in order (epoch, presence, channel, duplicate); binds, files and sets the channel only when all pass, as ManagerLaws.BindExactly describes |
| NotificationManager.Manager.FinishDelete | cmd_notification.go:171-189 | a caller's delete takes the config off file, unbinds, and releases the channel only with the last handle that was ours |
| NotificationManager.Manager.FinishSumDelete | cmd_notification.go:225-267 | flushes exactly the confirmed handles; internal cleanup keeps the channel and the baseline |
| NotificationManager.Manager.TakeHandles | notification_api.go:408-425 | empties the bound handles and returns all of them |
| NotificationInvariant.FiledKeeps | notification_api.go:172-184 | filing keeps one entry per key and an exact index, and adds just that key |
| NotificationInvariant.RestoredKeeps | notification_api.go:286-293 | a merge keeps the index exact, loses no key and adds every snapshot key |
| NotificationInvariant.UnfiledKeepsExactly | notification_api.go:932-944 | removal keeps the index exact if and only if the first entry that folds with the name is the one under its key |
| NotificationInvariant.LongSBreaksIndex | notification_api.go:932-944 | two names that fold under different keys, for which removal takes the wrong entry |
| NotificationInvariant.DottedIBreaksIndex | notification_api.go:932-944 | two names of one key that do not fold, for which removal takes the key and leaves the entry |
| NotificationInvariant.KeepsFileExactly | notification_api.go:153-293 | exactly which operations of the manager keep every key on file and the channel bound, in every state |
| NotificationInvariant.SettleDuringRecovery | notification_api.go:786-799 | from any state: a failed recovery during which another batch settles ends without that batch's key and with every other |
| NotificationInvariant.BookkeepingHolds | notification_api.go:153-293 | in every run of a fresh manager over compatible names: one entry per key, the index is exactly those keys, and each key has at most one bound handle |
| ManagerLaws.FiledEntries | notification_api.go:172-184 | filing puts exactly the given entry on file under its key and leaves every other entry as it is |
| ManagerLaws.UnfiledEntries | notification_api.go:932-944 | removal takes exactly the entry under the key, when the search finds that one |
| ManagerLaws.RestoredEntries | notification_api.go:286-293 | a merge leaves every entry on file as it is and adds exactly the snapshot entries of other keys |
| ManagerLaws.BindExactly | notification_api.go:908-928 | a commit binds exactly this handle to its name and channel, sets the channel, raises the baseline to what is bound, and files exactly this config with no attempts counted |
| ManagerLaws.DeleteExactly | cmd_notification.go:169-186 | a caller's delete unbinds exactly its handle, takes exactly its config off file, lowers the baseline, and releases the channel if and only if the handle was ours and the last one |
| ManagerLaws.FlushExactly | cmd_notification.go:220-267 | a batch delete unbinds exactly the confirmed handles and takes exactly their configs off file; only a caller's lowers the baseline and releases an unused channel |
| ManagerLaws.OneChannelStep | notification_api.go:153-293 | an operation keeps all bound handles on the one channel held if and only if it does not set another under them |
| ManagerLaws.OneChannelRun | notification_api.go:153-293 | so over every run in which none does, all subscriptions deliver to that channel |
| ManagerLaws.CoversStep | notification_api.go:153-293 | an operation keeps the baseline at or above what is bound if and only if it does not lower it below that |
| ManagerLaws.CoversRun | notification_api.go:153-293 | so over every run in which none does, a missing subscription shows as a gap to the baseline |
| ManagerLaws.FreshManagerHolds | notification_api.go:153-293 | both hold in every such run of a fresh manager |
| BatchSubscribe.Session.CommitNotification | notification_api.go:887-928 | the others run between the name lookup and the checks under the lock; the first check that fails refuses and changes nothing, otherwise the handle is bound and its config filed (`Committed`) |
| BatchProofs.CommitFacts | notification_api.go:887-928 | refused as stranded whenever the epoch its checks see is not the batch's; committed if and only if the epoch stands, the symbol is cached, the channel is free or ours and the name is not live; then exactly this handle is bound to its name and channel, the channel is ours, and exactly this config is on file with no attempts counted; otherwise nothing changes |
| BatchSubscribe.Session.OnItem | notification_api.go:709-772 | one answer: an error or a missing handle is reported, a handle is committed or set aside with the reason (`ItemAfter`) |
| BatchProofs.ItemStep | notification_api.go:709-772 | whatever the others do, each answer is reported once: earlier requests stay as they were, a learned handle is either committed or set aside, and no handle of the batch is bound without its request being committed |
| BatchProofs.CommittedWhenBound | notification_api.go:709-772 | a request is committed if and only if its checks find nothing, and at that moment its handle is bound and the epoch is the one the batch began in |
| BatchSubscribe.Session.AddOneByOne | cmd_sum.go:526-569 | the one-Add-at-a-time fallback reports every request, also when the link fails part way, and fails exactly then |
| BatchSubscribe.Session.SumAdd | cmd_sum.go:433-487 | fails exactly when the sum request failed or the fallback lost the link; otherwise every request is reported in order |
| BatchSubscribe.Session.Settle | notification_api.go:780-835 | the others run, then what is bound decides: unbound committed entries are amended and come off file, and everything nothing owns is named in one delete request (`Settled`) |
| BatchProofs.AmendExactly | notification_api.go:786-807 | settling amends an entry if and only if it was committed and its handle is not bound at the moment settle looks |
| BatchProofs.ReleaseExactly | notification_api.go:813-832 | settling asks for the deletion of exactly the handles set aside before and the nonzero ones of amended entries |
| BatchProofs.SettleUnfilesExactly | notification_api.go:786-800 | settling takes exactly the keys of the entries it amends off file |
| BatchProofs.ReleasesConfirmed | cmd_sum.go:575-606 | a best-effort delete unbinds exactly the handles it names whose deletion the PLC confirms |
| BatchSubscribe.Session.Preflight | notification_api.go:611-683 | refuses another channel; otherwise every config is looked up once in order, with the others running before each lookup, and what is live is judged at the first moment only |
| BatchProofs.AddSendsExactly | notification_api.go:611-683 | a config is sent if and only if it is not live when the call starts, the first of its key in the batch, and resolvable; the others report which of these failed |
| BatchSubscribe.Session.AddSymbolNotifications | notification_api.go:599-880 | results, error, end state and delete requests are those of `Add`, for every behaviour of the others and of the PLC |
| BatchProofs.AddDecides | notification_api.go:599-880 | whatever the others do, a call that sends anything ends with every request decided at the moment settle looks: success exactly when its handle is bound then, released exactly when it is not, and a request without a handle reports its failure |
| BatchProofs.LearnedEndsOnce | notification_api.go:780-835 | every handle the library learned is bound at the moment settle looks or in the delete request, never both |
| BatchProofs.SuccessMeansBound | notification_api.go:780-835 | an entry is a success if and only if it was sent, a handle was learned for it, and that handle is bound at the moment settle looks |
| BatchProofs.SwapRefusesItem | notification_api.go:696-907 | a request whose commit check sees another epoch than the batch began in is refused as stranded, and its handle is released and not bound |
| BatchProofs.AddRefusesAfterSwap | notification_api.go:696-907 | once the epoch has risen since the batch began, no later request of the call is bound |
| BatchProofs.ErrorIsReported | notification_api.go:709-735 | the entry of a request answered with an error code reports that code and is not skipped |
| BatchProofs.QuietAdd | notification_api.go:599-880 | undisturbed, a call adds exactly its successes to what is on file and binds only handles it learned |
| BatchQuiet.QuietAddFiles | notification_api.go:599-928 | undisturbed, each success is filed as declared with no attempts counted and bound to its name and to the caller's channel, and the channel is set exactly when something succeeded |
| BatchQuiet.AddSucceedsExactly | notification_api.go:599-928 | when nobody else acts, a config that was sent succeeds if and only if the PLC gave it a handle and its symbol is cached |
| BatchProofs.AddFailsExactly | notification_api.go:599-780 | whatever the others do, the call fails if and only if the runtime does not serve, another channel is in use, or what it sent could not be delivered |
| BatchProofs.OtherChannelRefused | notification_api.go:611-619 | a call refused for its channel sends nothing and changes nothing |
| Resubscribe.FilterValidPending | session.go:2275-2292 | the entries whose symbol is in the cache or was resolved on demand, in their order |
| Resubscribe.Triage | session.go:2812-2828 | the handles to release, the entries to retry and the number given up, each in order |
| ResubscribeProofs.OrphansExactly | session.go:2812-2818 | a handle is released if and only if some skipped result carries it |
| ResubscribeProofs.RetryKeys | session.go:2819-2828 | a key is queued again if and only if its entry was skipped and has attempts left |
| ResubscribeProofs.RetryCounts | session.go:2819-2828 | and it is queued with exactly one more attempt counted |
| ResubscribeProofs.SkippedIsRetriedOrGivenUp | session.go:2812-2828 | every skipped entry is queued again or given up, and it is given up at its third attempt |
| Resubscribe.Rollback | session.go:2856-2872 | forgets every handle not bound before the attempt, also one another goroutine bound meanwhile, and puts intent and channel back |
| Resubscribe.ResubscribeLocked | session.go:2744-2900 | error, end state and delete requests are those of `Resubscribed`, for every behaviour of the others and of the PLC |
| ResubscribeProofs.FailedResubscribeUndone | session.go:2852-2880 | undisturbed, a failed attempt leaves entries, index, channel and bindings exactly as at entry, and every handle the PLC named meanwhile is in a delete request |
| ResubscribeProofs.ResubscribeFiles | session.go:2769-2850 | undisturbed, an attempt that does not fail leaves on file exactly the entries in the cache it was filtered against whose result is a success, or skipped with attempts left; with none still there the channel is unbound and the baseline is zero |
| ResubscribeEntries.RequeuedEntries | session.go:2836-2843 | queueing files exactly these entries, attempt counts included, over what is under their keys |
| ResubscribeEntries.ResubscribeEntriesExactly | session.go:2769-2850 | undisturbed, an attempt that does not fail leaves on file exactly the entries it bound, with no attempts counted, and the skipped ones with attempts left, with one more counted; what it bound is bound to its name and to the channel at entry |
| ResubscribeEntries.ResubscribeBindsExactly | session.go:2744-2900 | when nobody else acts and nothing is bound yet, an entry still there is bound again if and only if it resolves, the PLC gives it a handle and its symbol is cached |
| ResubscribeProofs.RejectedComesOffFile | session.go:2800-2830 | so an entry whose request the PLC answers with an error code is not on file afterwards |
| ResubscribeProofs.GivenUpLowersBaseline | session.go:2838-2850 | whatever the others do, the baseline ends no higher than the entries tried less the ones given up |
| ResubscribeProofs.ResubscribeFailsExactly | session.go:2744-2880 | undisturbed, it fails if and only if something declared is still there and the runtime does not serve, or something was sent and the call failed |
| RecoveryProofs.ReinstatedFacts | cmd_notification.go:1522-1531 | restoring the intent puts every key of the snapshot on file, loses nothing on file, and binds an unbound channel again |
| RecoveryProofs.RecoveryReleasesOld | cmd_notification.go:1499-1508 | a recovery that is let in asks the PLC to delete every handle bound when it started |
| Resubscribe.RecoverDeadSubscriptions | cmd_notification.go:1471-1555 | outcome, end state and delete requests are those of `Recovering`, for every behaviour of the others and of the PLC |
| RecoveryProofs.RecoveryKeepsSnapshot | cmd_notification.go:1471-1555 | whatever the others do, a recovery that ends failed or deferred leaves every key on file at its snapshot on file, and the channel bound if it was |
| RecoveryProofs.MissingOnlyIfTakenOff | cmd_notification.go:1502-1531 | a key on file at entry is missing after such a recovery only if the others took it off at one of two moments, while the swept handles were released or just before the snapshot |
| RecoveryProofs.NothingTakenOff | cmd_notification.go:1502-1531 | if the others take nothing off file, every key on file at entry stays on file and the channel stays bound |
| RecoveryProofs.RecoveryEndsExactly | cmd_notification.go:1471-1560 | undisturbed, it is done if and only if it is let in, its resubscribe does not fail, and something is bound or nothing was declared; deferred if and only if the runtime does not serve |
| RecoveryProofs.SettleIsNoDelete | notification_api.go:786-799 | the settle of another batch is allowed interference and takes its key off file, without a caller's delete |
| RecoveryProofs.RepeatedRecoveryKeepsIntent | cmd_notification.go:1471-1555 | any number of recoveries on one session, with the others running in between: if none is done, every key on file at the start is on file and the channel bound |
| SymbolHandles.EveryHandleAccounted | symbol_discovery.go:310-409 | in every run, reloads included, each acquired symbol handle is in one resolver's hands, in one entry, released once, or overwritten by a reload: exactly one of these |
| SymbolHandles.LostExactly | symbol_discovery.go:310-409 | from any state the invariant allows, resolvers in flight included: a handle ends lost if and only if it was, or some reload found it stored in an entry |
| SymbolHandles.NoOtherHandleLost | symbol_discovery.go:310-409 | once all resolvers are done, every handle no reload found stored is the Handle of exactly one cached entry or was released exactly once |
| SymbolHandles.NoHandleLost | symbol_discovery.go:310-409 | between reloads, from any such state, no handle is lost |
| SymbolHandles.ResolversAgree | symbol_discovery.go:310-409 | resolvers of one name that start after the last reload return the same entry |
| SymbolHandles.ReturnsEntryWithHandle | symbol_discovery.go:310-409 | in every run, a resolver with no reload since its look returns an entry with a handle, or an error only if its request failed |
| SymbolHandles.ReturnsBareExactly | symbol_discovery.go:380-409 | a resolver returns an entry without a handle if and only if its insert finds the name taken by one |
| SymbolHandles.ReloadReturnsBareEntry | symbol_discovery.go:310-409 | a run in which a reload makes a resolver return an entry without a handle |
| SymbolHandles.ReloadLosesHandle | session.go:2972-2984 | both kinds of reload lose a stored handle: one zeroes the old entry, the other leaves it where no name reaches it |
| ArrayLayout.AdvanceInPlace | symbols.go:831-837 | the carry loop in place is the odometer's successor |
| ArrayLayout.AdvanceUnrank | symbols.go:818-837 | the odometer visits the index tuples in row-major order |
| ArrayLayout.UnrankInBox | symbols.go:783-840 | every rank below the product of the counts names an index tuple inside the bounds, with that rank |
| ArrayLayout.RankInRange | symbols.go:783-840 | every tuple inside the bounds has a rank below the product, and the two are inverse |
| ArrayLayout.NamesDistinct | symbols.go:823-826 | different index tuples have different names |
| ArrayLayout.ElementNameForm | symbols.go:823-826 | an element is named by its indices in decimal, separated by commas, in brackets |
| ArrayLayout.CheckLevels | symbols.go:783-812 | accepts exactly the lists of dimensions in range, and then computes their product |
| ArrayLayout.AcceptsExactly | symbols.go:783-812 | accepted are exactly the lists with dimensions, none empty, every index a signed 32-bit integer and at most a million elements |
| ArrayLayout.LowerIsSigned | symbols.go:783-800 | a lower bound is the 32-bit two's complement of what arrives |
| ArrayLayout.MakeArrayChildren | symbols.go:783-840 | for every list of dimensions, the children are exactly the array's elements |
| ArrayLayout.ElementAtRank | symbols.go:814-837 | the child of a tuple sits at element size times its row-major rank, inside the declared size |
| ArrayLayout.NothingElse | symbols.go:814-837 | every child is the element of some tuple inside the bounds |
| ArrayLayout.ElementsDisjoint | symbols.go:814-837 | the byte ranges of different elements do not overlap |
| SumRead.ParseSumReadResponse | cmd_sum.go:189-271 | an item succeeds exactly when aligned so far and of the requested length, cut at the prefix sum of the lengths before it; after the first misfit every later item is InvalidSize |
| SumRead.SumReadFallback | cmd_sum.go:277-295 | each item is what its single read gives |
| SumRead.FallbackReportsEach | cmd_sum.go:277-295 | read one by one, each item reports its own data, its own code, or 0x700 when it got no answer |
| SumRead.PackedAgreesExactly | cmd_sum.go:189-295 | against a PLC whose sum reply packs its single replies, parsing equals the single reads if and only if every successful reply has the requested length |
| SumRead.Client.SumRead | cmd_sum.go:104-142 | which variant answers, and what the client remembers of the PLC's abilities |
| SumRead.Client.Probe | cmd_sum.go:144-173 | the probe order, and the variant it settles on |
| SumRead.LearnsExactly | cmd_sum.go:104-173 | the first command that answers is remembered, what is remembered is never probed again, and a failed probe learns nothing |
| SumRead.OversizeRefused | cmd_sum.go:104-142 | a batch too large for its 32-bit length is refused and nothing is learned |
| SumRead.RequestedIsSum | cmd_sum.go:104-142 | the length asked for is the sum of the items' lengths |
| SumRead.EveryVariantAgrees | cmd_sum.go:104-295 | for such a PLC both sum variants and the fallback return equal results |
| DatatypeTable.DecodeSymbolUploadDataType | symbols.go:686-777 | the decoder consumes and returns what the table's grammar says, on every byte string |
| DatatypeTable.HeaderLayout | symbols.go:69-83 | which bytes of an entry hold which header field |
| DatatypeTable.TruncatedIsRefused | symbols.go:686-727 | an entry shorter than 48 bytes, or declared longer than what is left, is refused |
| DatatypeTable.CollectChildren | symbols.go:764-772 | the subitem loop files the next entries by name from the children's own bytes |
| DatatypeTable.ParseUploadSymbolInfoDataTypes | symbols.go:673-684 | terminates on every byte string and returns every entry, or fails |
| DatatypeTable.ConsumesDeclared | symbols.go:686-747 | a successful entry consumes exactly the larger of its declared length and its header plus strings |
| DatatypeTable.EntryIsLocal | symbols.go:729-772 | an entry complete in its own bytes decodes the same whatever follows: nested entries never read past their parent |
| DatatypeRoundTrip.EntryRoundTrip | symbols.go:686-777 | decoding inverts a printer of structs and arrays, at any nesting and for any type name (string lengths collapse), and leaves what follows untouched |
| DatatypeRoundTrip.ArrayRoundTrip | symbols.go:686-840 | decoding the printed entry of an array gives, for each index tuple, a child of its own name at element size times row-major rank, one element wide and of the array's type; there are no other children, and none when the dimensions are refused |
| DatatypeRoundTrip.StringTypesCollapse | symbols.go:58-67 | a string type of any length is the bare kind; every other type keeps its name |
| DatatypeRoundTrip.TableRoundTrip | symbols.go:673-777 | a printed table decodes to exactly its entries, the last of a name winning |
| DatatypeRoundTrip.UniqueTableRoundTrip | symbols.go:673-777 | a printed table of distinct names decodes to each entry under its own name, and to nothing else |
| StructCodec.LeafRoundTrip | symbol_codec.go:365-466 | a canonical BOOL, integer or NUL-free fitting STRING text is written in its type's width and parses back to itself |
| StructCodec.BoolTexts | symbol_codec.go:366-377 | a BOOL takes exactly the twelve texts of strconv.ParseBool and parses back as true or false |
| StructCodec.UnsignedTexts | symbol_codec.go:378-402 | an unsigned leaf takes exactly digits in range, leading zeros included, and parses back their value |
| StructCodec.SignedTexts | symbol_codec.go:405-430 | a signed leaf takes exactly signed digits in range, both ends included, and parses back their value |
| StructCodec.StringTexts | symbol_codec.go:511-526 | a STRING with room for the terminator takes every text, fills exactly its length, and parses back the text up to a NUL or up to the room there is |
| StructCodec.WriteToNode | symbol_codec.go:295-333 | in whatever order the members are visited: refused exactly when a given member is refused or out of range; otherwise each member nothing else touches stands at its offset and untouched bytes are zero |
| StructCodec.RefusesExactly | symbol_codec.go:295-333 | a struct refuses a value if and only if it is no object, or a given member is refused or does not fit inside |
| StructCodec.MemberFound | symbol_codec.go:302-309 | a member is looked up under its name and, when that is missing, under its quoted name |
| StructCodec.JsonKeyForms | symbols.go:931-935 | a plain name is its own key; an array index is looked up in quotes |
| StructCodec.Values.Parse | symbol_codec.go:15-40 | in whatever order the children are visited: succeeds exactly when every leaf decodes, stores every leaf's value, and touches nothing outside its subtree |
| StructCodec.NoPanic | symbol_codec.go:25-35 | a tree whose members lie inside their parents never slices out of range |
| StructCodec.NotRefused | symbol_codec.go:295-333 | a canonical value is never refused by a well-placed tree |
| StructCodec.RoundTrip | symbol_codec.go:15-333 | whatever the iteration order, parsing the written buffer gives back every leaf given, and the zero of its kind for every leaf not given |
| NotificationStream.DecodeNotification | client.go:891-925 | samples leave in wire order, also those before an error |
| NotificationStream.WireOrder | client.go:891-925 | a payload decodes to its samples, stamp by stamp, in the order sent, whatever its length field says |
| NotificationStream.Route | client.go:725-765 | each handle's samples are, in order, on its own shard and on no other |
| NotificationStream.FrameRoundTrip | client.go:743-757 | all samples of a well-formed printed frame leave the decoder, in wire order |
| NotificationStream.QueueRoundTrip | client.go:743-757 | a queue of printed frames hands the shards all their samples, frame by frame |
| NotificationStream.MalformedFrameIsDropped | client.go:747-752 | a frame whose length field is wrong is dropped whole and disturbs no other |

## Left out

- Sockets, dialing, keepalive, route registration, contexts and timers: replaced by arbitrary outcomes; only tick counts and the limiter's timestamps are kept.
- Logging, log levels, report throttling and error texts: no law depends on them.
- The interleaved protocols (subscribe race, reconnect ownership, symbol resolvers) are state machines on values, so the mutexes themselves and update in place are not part of the model.
- SessionFsm.EpochCountsAdvances: the epoch is unbounded, so the wrap of the 64-bit counter is not part of the model.
- BatchSubscribe.Session.AddSymbolNotifications: early-sample replay, the heartbeat registration and stale-code detection after the batch are not part of it; the subscribe window is the subject of SubscribeRace.
- BatchQuiet.AddSucceedsExactly: claimed only when nobody else acts; what the others can do to a request is BatchProofs.SuccessMeansBound.
- BatchSubscribe.Session.Settle: lets the others run before it looks also when nothing was committed, where the source takes no lock; they may do nothing there.
- ResubscribeProofs.FailedResubscribeUndone: claimed only when nobody else changes the manager meanwhile; the baseline count of registered handles is not restored by the source and is not claimed.
- Resubscribe.RecoverDeadSubscriptions: the heartbeat handle and its clock are not part of it.
- The PLC is assumed not to reuse handle ids, and to give each registration and each symbol acquisition its own nonzero handle.
- The symbol cache is assumed to file an entry under the key of its full name.
- Symbol names: lower-casing and folding are modelled for ASCII and for six characters outside it; the safety lemma is about ASCII names only.
- SymbolHandles.EveryHandleAccounted: the releases done by RefreshSymbols and by Close are not part of it.
- The single-symbol subscribe: its critical section is the manager's Commit; its own sequence of requests is not repeated.
- DatatypeRoundTrip.EntryRoundTrip: entries shorter than 48 bytes are outside it, because the decoder refuses a buffer that short.
- StructCodec.RoundTrip: REAL, LREAL, WSTRING and the time types, type aliases and width inference are not part of it; a JSON object is given as a map of fields, and the JSON text stored for a struct node is left out.
- SumRead.Client.SumRead: the encoding of the request is not part of it.
- HeartbeatProofs.StableExactly: for a base of at least two, the floor the options enforce, and below 2^57, so that a window is never shorter than its base.
- HeartbeatProofs.WindowsBackOff: for a base below 2^57, the exact condition of Heartbeat.WindowKeepsBaseExactly.
- Heartbeat.Watcher.OnTick: the handover to a reconnect is only an end of the trace.
- AMS headers, NetIDs, bit access, mode downgrades and name tables: only easy members.
- SumWrite, browsing, process images, session options and the command line: not part of this model.
