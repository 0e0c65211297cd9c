# Verification model of the OIG proxy

The proxy sits between an OIG Box (a home battery controller) and its cloud.
Home Assistant writes settings into a queue over MQTT, the proxy injects them
into the Box's session when the Box polls, follows what the Box and the cloud
acknowledge, and keeps an audit trail of every setting. This project is a Dafny
model of that behaviour, with proofs. `dafny verify dfyconfig.toml` checks all of it.

## What is modelled

**Setting delivery.** `TwinModel` has the whole delivery state as one value
(queue, global and per-session in-flight slots, cloud store, number line of
`id_set`, terminal ledger, audit trail) and one function per call of the delivery
interface. `TwinDelivery` holds the objects that update this state in place
(`TwinQueue`, `AuditCollector`, `TwinDelivery`); every method is proved to carry
out its function. `TwinFrames` and `TwinServer` do the same for one step of the
proxy: an MQTT message, a frame of the Box, a frame of the cloud, a frame
answered offline, the end of a session. The values `delivered` and `idLog` are
histories that no call reads. On top stand the results:

- `TwinInvariants`: what every call keeps, whatever its arguments;
- `TwinLocal`, `TwinTracked`: what an acknowledgement and a poll do to the local queue,
  and tracking, marking, matching and expiry to the cloud settings, exactly;
- `TwinArrivals`, `TwinReports`, `TwinPriority`: what a message and a cloud frame bring
  in, how each answer of the Box is reported, and who is served first;
- `TwinRuns`, `TwinTrace`: what holds in every run of the proxy from its first state;
- `TwinCauses`: no record of a run is written without its cause;
- `TwinProgress`: bounded progress of the queue and of the cloud store;
- `TwinLimits`: where the guarantees of delivery end, each with its exact condition
  and a run that shows it.

**The wire codec.** `Crc` (table form against the bitwise definition, which is that
of `tests/v2/local_oig_crc.py:52-62`, and what the CRC detects), `Frame` (the
resynchronising extractor over a receive buffer), `FrameCodec` (builder against
parser), `XmlFields`, `SettingFrame` and `FrameKinds` (the field scanner, the parser,
the Setting frame and the classing of frames), `SettingWire` (the Setting frame as the
bytes that the builder makes), `SummerTime` (Czech civil time by Articles 2 and 3 of
Directive 2000/84/EC), `BoxToCloud` (the forwarding loop).

**The audit byte budget.** `Utf8` (encoding, decoding and cutting after section 3
of RFC 3629), `AuditBudget` (the caps per record and per audit id) and `AuditKept`
(which text a record keeps).

**The hybrid mode machine.** `Mode`, and `ModePolicy` (the mode and the attempts told
from the events alone).

**Admission.** `SettingsConstraints` (whitelist and ranges), `SettingsAudit` (steps,
terminal steps, precedence).

## What the proofs found

Some properties one would expect do not hold of the code. The model keeps the
code as it is and says exactly when they hold.

- Calls of the delivery interface after `shutdown` may deliver a setting again:
  `shutdown` frees the in-flight slot and leaves the setting queued. It happens if
  and only if the setting under the in-flight key was delivered
  (`ShutdownRedeliversIff`, `OnceAfterShutdownIff`; `ShutdownRedeliversSetting` is a
  run). This is a fact about the class. `ProxyServer.stop` cancels every connection
  before it calls `shutdown` (`addon/oig-proxy/proxy/server.py:209-219`), so no poll
  follows in the running program.
- A value that overwrites a setting in flight is dropped undelivered when the
  in-flight slot times out: of the queued settings, spaced polls leave out exactly
  the one under the in-flight key (`DeliveredIffNotInflight`; `OverwrittenIsLost` is a
  run, with `ModeIsAdmitted` for its messages).
- A tracked cloud setting leaves the store without a terminal record if and only if
  it is the first one of the key in an acknowledgement that finds nothing in flight
  and nothing queued under that key (`DroppedUnreportedIff`). A Box that acknowledges
  the younger of two tracked settings does it (`YoungerIsDroppedUnreported`).
- A NACK takes the tracked setting it reports out of the store if and only if no
  setting of its key is queued and it is the first tracked one of its key; otherwise
  another setting of the key goes (`NackedLeavesIff`).
- A poll on the cloud and offline paths is served from the local queue whatever the
  cloud has in flight (`HookServesIff`); on the Box's path cloud settings come first
  (`CloudComesFirst`, `PollIsServedIff`).
- Frames of the Box are handled without their session, so a session waits out its
  time even when the Box has answered about its setting (`SessionWaitsItsTime`).
- A read that completes no frame is forwarded raw and stays in the buffer, so its
  bytes go out twice. Bytes are conserved if and only if every read completes a
  frame (`ConservedIffReadsComplete`).
- Extraction depends on how the stream is cut exactly for streams that end in
  `</Frame>` and a lone CR (`ChunksMatterIffEndsOpen`).
- `strip_crc_tag` makes a single pass; parsing undoes building if and only if the
  text holds no CRC tag (`RoundTripIffNoTag`).
- A cut inside a character inserts U+FFFD, so both byte caps can be passed by two
  bytes, never by more and never for ASCII (`CutSize`, `BudgetHolds`); it happens
  exactly when one or two bytes of a character are left (`CutSizeExactly`).
- The cap of 65536 + 2 bytes on all that one audit id keeps holds for every choice
  of texts if and only if its total is not restarted between two of its records, or
  it has at most three records (`TotalCapIff`). A step record refreshes its own id
  and never restarts it, however late (`OwnStepNeverRestarts`); the clean-up of
  another id's record more than 300 seconds later does (`OtherRecordRestarts`), such
  as the throw-away incoming record that delivery makes before each step record
  (`addon/oig-proxy/twin/delivery.py:101-112`). `LateStepExceedsTotal` is a schedule
  the code can produce that passes the cap.
- A key or confirm flag that reads as a number comes back from the parser as a
  number (`TextsSurviveUnlessNumeric`).
- Lone surrogates do not survive encoding (`DecodeUndoesEncode`).

## Model

| member | source | states |
|---|---|---|
| TwinState.GetPendingIsStableSort | addon/oig-proxy/twin/state.py:65-66 | `get_pending` is sorted by enqueue time, is a permutation of the queue and keeps the order of equal times |
| TwinState.PendingAfterHead | addon/oig-proxy/twin/state.py:65-73 | delivering the head and then acknowledging it leaves the rest in the same order: the queue is worked off as a selection sort |
| TwinState.PutSpec | addon/oig-proxy/twin/state.py:41-63 | a new setting replaces exactly the one with its key; keys stay unique |
| TwinState.DropSpec | addon/oig-proxy/twin/state.py:68-73 | acknowledging removes exactly the setting of the key and keeps every other; keys stay unique |
| TwinState.LookupSpec | addon/oig-proxy/twin/state.py:81-82 | `get` finds the one setting of the key, or there is none |
| TwinDelivery.TwinQueue.Enqueue | addon/oig-proxy/twin/state.py:41-63 | the queue afterwards, with the running `id_set` and an audit id generated only when none is given, and the running number afterwards |
| TwinDelivery.TwinQueue.GenerateIdSet | addon/oig-proxy/twin/state.py:30-35 | hands out the running number and wraps to the current second past ten digits |
| TwinDelivery.TwinQueue.Acknowledge | addon/oig-proxy/twin/state.py:68-73 | the key leaves the queue, nothing else does, and the result tells whether it was there |
| CloudStore.SweepIsFilter | addon/oig-proxy/twin/delivery.py:148-199 | removing the hit entries of a snapshot one at a time by equality leaves exactly the entries not hit, in order, and no empty deque |
| CloudStore.RemoveTakesFirst | addon/oig-proxy/twin/delivery.py:154-168 | `_remove_cloud_pending` takes the first equal entry out of the whole store and keeps the order of the rest |
| CloudStore.AppendKeepsOk | addon/oig-proxy/twin/delivery.py:532-540 | adding an entry keeps entries filed under their own key, sorted by `tracked_at`, no deque empty, and adds just that entry |
| CloudStore.RemoveKeepsOk | addon/oig-proxy/twin/delivery.py:154-168 | so does removing one |
| CloudStore.ReplaceKeepsOk | addon/oig-proxy/twin/delivery.py:552-560 | so does marking one as Reason=Setting seen |
| CloudStore.PruneKeepsOk | addon/oig-proxy/twin/delivery.py:180-199 | so does an expiry pass |
| CloudStore.OldestSpec | addon/oig-proxy/twin/delivery.py:170-178 | the oldest entry has the least `tracked_at`; there is one unless the store is empty |
| TwinDelivery.TwinDelivery.constructor | addon/oig-proxy/twin/delivery.py:47-73 | a new manager has nothing in flight, tracked, observed or recorded |
| TwinDelivery.TwinDelivery.NextIdSet | addon/oig-proxy/twin/delivery.py:87-92 | the number issued is the highest `id_set` afterwards and enters the history; `DoKeepsIds` says that it exceeds its second and all before it |
| TwinDelivery.TwinDelivery.RecordAuditStep | addon/oig-proxy/twin/delivery.py:114-142 | a terminal step enters trail and ledger only when it is stronger than the one in the ledger; without a collector or an audit id nothing is recorded |
| TwinDelivery.TwinDelivery.ExpireCloudPending | addon/oig-proxy/twin/delivery.py:180-199 | the loop with its removals does what the one-pass expiry says |
| TwinDelivery.TwinDelivery.OldestCloudPending | addon/oig-proxy/twin/delivery.py:170-178 | the scan returns the first entry tracked longest, of one device or of all |
| TwinDelivery.TwinDelivery.DeliverPending | addon/oig-proxy/twin/delivery.py:201-310 | the state after a poll and the setting returned: timeout of the global slot, session guard, global guard, head of the sorted queue |
| TwinDelivery.TwinDelivery.Acknowledge | addon/oig-proxy/twin/delivery.py:312-355 | session entry, in-flight setting, queued setting or first tracked cloud setting of the key, in this order of precedence, and the returned truth value; what that comes to is `AcknowledgedKeyLeaves`, `AcknowledgedEntryLeaves` and `AcknowledgeAnswers` |
| TwinDelivery.TwinDelivery.ClearSession | addon/oig-proxy/twin/delivery.py:362-373 | the session's entry goes, its queued setting is reported, the global slot stays |
| TwinDelivery.TwinDelivery.Shutdown | addon/oig-proxy/twin/delivery.py:445-462 | the object stays well formed; the in-flight setting and every tracked one are reported, slot and store are cleared, the queue is untouched (`ShutdownAccounts`, `EndingsAreLedgered`) |
| TwinDelivery.TwinDelivery.CurrentInflight | addon/oig-proxy/twin/delivery.py:472-483 | cloud settings take priority over the local one in flight |
| TwinDelivery.TwinDelivery.BeginCloudSetting | addon/oig-proxy/twin/delivery.py:493-541 | expiry first, then one incoming record and one new tracked entry |
| TwinDelivery.TwinDelivery.MarkCloudReasonSetting | addon/oig-proxy/twin/delivery.py:543-561 | only the oldest entry of the device is marked, and only once; `MarkMarksOldest` and `MarkTwice` say which and how |
| TwinDelivery.TwinDelivery.MatchCloudTblEvents | addon/oig-proxy/twin/delivery.py:563-593 | the search loop finds the first entry with the confirmed text, else the head, and removes it |
| TwinDelivery.TwinDelivery.IsCloudInflight | addon/oig-proxy/twin/delivery.py:606-609 | after expiry, whether the legacy flag is up or an entry is left |
| TwinLocal.AcknowledgedKeyLeaves | addon/oig-proxy/twin/delivery.py:337-348 | for every well-formed state: the acknowledged key is neither in flight nor queued afterwards, the other queued settings stay in order, and the three slots are cleared if it was in flight and left alone otherwise |
| TwinLocal.AcknowledgedSessionLeaves | addon/oig-proxy/twin/delivery.py:323-335 | the entry of the given session goes if and only if it is for that key |
| TwinLocal.AcknowledgedEntryLeaves | addon/oig-proxy/twin/delivery.py:350-353 | the store loses the first entry of the key if and only if the key was neither in flight nor queued and is tracked |
| TwinLocal.AcknowledgeAnswers | addon/oig-proxy/twin/delivery.py:312-355 | the result is true if and only if the key was in flight, queued or tracked; nothing is recorded |
| TwinLocal.NextAfterAcknowledge | addon/oig-proxy/twin/delivery.py:201-355 | after the acknowledgement of the key in flight the next poll that no session entry holds up delivers the next setting at once |
| TwinLocal.PollOutcome | addon/oig-proxy/twin/delivery.py:215-310 | a poll delivers if and only if nothing is in flight any more, its session does not wait and something is queued; what it delivers, the queue and the slots afterwards |
| TwinLocal.PollSessions | addon/oig-proxy/twin/delivery.py:236-292 | the session entries afterwards |
| TwinLocal.PollReports | addon/oig-proxy/twin/delivery.py:225-299 | a setting in flight that is out of time gets its TIMEOUT, and the delivered one its selection record |
| TwinTracked.ExpiryReports | addon/oig-proxy/twin/delivery.py:180-199 | an expiry check removes a tracked entry if and only if its time is up, counted from its Reason=Setting once that was seen; its audit id then gets one record, a confirmation if seen and a timeout if not, unless the ledger holds a step as strong |
| TwinTracked.MarkMarksOldest | addon/oig-proxy/twin/delivery.py:543-561 | after expiry the device's longest tracked entry is marked as seen now, every other entry and the order stay; there is none if and only if the device has no entry |
| TwinTracked.MarkTwice | addon/oig-proxy/twin/delivery.py:552-561 | a second mark changes nothing |
| TwinTracked.MarkedStays | addon/oig-proxy/twin/delivery.py:180-193 | a marked entry stays in the store through any calls before its time is up that are not about its key |
| TwinTracked.MarkedIsConfirmed | addon/oig-proxy/twin/delivery.py:184-193 | the first expiry check once a timeout has passed since the mark removes it and confirms it, and never reports a timeout |
| TwinTracked.BeginTracksLast | addon/oig-proxy/twin/delivery.py:532-541 | a new cloud setting goes last in the queue of its key, unmarked, and is reported as incoming |
| TwinTracked.MatchReports | addon/oig-proxy/twin/delivery.py:587-593 | a match enters the ledger by the strongest step |
| TwinInvariants.DoKeepsInv | addon/oig-proxy/twin/delivery.py:47-609 | every call with any arguments keeps the whole invariant: slots, cloud store, delivery at most once, terminal ladder, rising numbers |
| TwinInvariants.DoKeepsSlots | addon/oig-proxy/twin/delivery.py:201-373 | the three global fields are set together, the in-flight key is queued, no session entry is newer than the global one |
| TwinInvariants.DoKeepsOnce | addon/oig-proxy/twin/delivery.py:201-355 | a queued setting that was delivered already sits at the in-flight key |
| TwinInvariants.DoKeepsLadder | addon/oig-proxy/twin/delivery.py:114-142 | the ledger is the last terminal step of each audit id and those steps rise |
| TwinInvariants.DoKeepsCloud | addon/oig-proxy/twin/delivery.py:154-199 | no deque is empty; entries are filed under their own key, sorted, and their Reason=Setting came before the timeout |
| TwinInvariants.DoKeepsIds | addon/oig-proxy/twin/delivery.py:75-92 | an issued `id_set` exceeds its second and every `id_set` before it, and the highest one, observed or issued, is remembered |
| TwinTrace.AtMostOnceUnderAnyCalls | addon/oig-proxy/twin/delivery.py:201-355 | in every sequence of calls with fresh audit ids, made by anyone in any order, no audit id is delivered twice and the state stays well formed |
| TwinRuns.AtMostOnce | addon/oig-proxy/proxy/server.py:641-1091 | in every run of the proxy before shutdown no audit id is delivered twice |
| TwinRuns.ReachableIsWellFormed | addon/oig-proxy/twin/delivery.py:201-373 | every state a run of the proxy reaches is well formed, with no audit id tracked twice or both queued and tracked |
| TwinRuns.TerminalLadder | addon/oig-proxy/twin/delivery.py:114-142 | over a whole run the terminal records of one audit id rise in precedence, are at most three, start with any NACK, TIMEOUT or SESSION_CLEARED and end with any ACK_TBL_EVENTS |
| SettingsAudit.RisingLadderShape | addon/oig-proxy/telemetry/settings_audit.py:75-88 | the terminal steps and the precedence table leave room for no longer ladder and for no step after the strongest |
| TwinRuns.SupersededAndRejectedAreFinal | addon/oig-proxy/twin/handler.py:138-302 | over a whole run, after a superseded or rejected record no record of handler, delivery or frame handling carries that audit id |
| TwinRuns.InjectionSafety | addon/oig-proxy/proxy/server.py:721-760 | over a whole run, every Setting written is whitelisted, in range, and numbered above the current second and above everything issued or observed before, even when the wall clock goes back |
| TwinRuns.StepSound | addon/oig-proxy/proxy/server.py:883-1044 | each atomic step of the proxy keeps all invariants, what may be written, and that no audit id is both queued and tracked |
| TwinRuns.AdmitSettles | addon/oig-proxy/twin/handler.py:132-302 | a message settles its own id when it is rejected and the id of the setting it replaces, and unsettles nothing |
| TwinTrace.TrailIsTruthful | addon/oig-proxy/proxy/server.py:721-760 | over a whole run with a collector, the selection records are the delivered settings and the injection records are the frames written to the Box, in order |
| TwinTrace.WrittenAtMostOnce | addon/oig-proxy/proxy/server.py:721-760 | over a whole run the settings written to the Box are delivered ones, in the order of delivery, and no audit id is written twice |
| TwinTrace.QueueRemovalIsExplained | addon/oig-proxy/twin/delivery.py:201-355 | a setting leaves the queue only by an acknowledgement of its key, a new value for its key, or a timeout that is in the ledger |
| TwinTrace.ReplacementIsRecorded | addon/oig-proxy/twin/handler.py:179-203 | a message takes at most the queued setting of its own key out of the queue, and that one is reported as superseded |
| TwinTrace.EndingsAreLedgered | addon/oig-proxy/twin/delivery.py:362-454 | the end of a session, or shutdown, gives the setting in flight there a terminal entry and leaves it queued |
| TwinProgress.DrainBound | addon/oig-proxy/twin/delivery.py:215-310 | from any well-formed state with n queued settings, n + 2 polls spaced by the timeout, under any session ids, empty the queue, and the undelivered settings go out by enqueue time |
| TwinProgress.TimedOutInflightUnblocksSession | addon/oig-proxy/twin/delivery.py:215-271 | the session guard never blocks a poll that just timed out the global slot |
| TwinProgress.PollAccounts | addon/oig-proxy/twin/delivery.py:201-310 | no poll loses or reorders settings still to be delivered |
| TwinLimits.OnceAfterShutdownIff | addon/oig-proxy/twin/delivery.py:445-462 | in every well-formed state shutdown keeps delivery at most once if and only if the setting under the in-flight key was not delivered |
| TwinLimits.ShutdownRedeliversIff | addon/oig-proxy/twin/delivery.py:201-462 | for queues of any length, enough spaced polls after shutdown deliver an audit id again if and only if the setting under the in-flight key was delivered |
| TwinLimits.RepeatsNeedDelivered | addon/oig-proxy/twin/delivery.py:201-462 | no polls at all, however spaced, repeat an audit id otherwise |
| TwinLimits.ShutdownRedeliversSetting | addon/oig-proxy/twin/delivery.py:445-462 | a reachable state in which the one setting goes out twice |
| TwinLimits.DeliveredIffNotInflight | addon/oig-proxy/twin/delivery.py:215-310 | of the queued settings not yet delivered, the polls that drain the queue leave out exactly the one under the in-flight key |
| TwinLimits.OverwrittenIsLost | addon/oig-proxy/twin/handler.py:179-203 | message, poll, message for the same key, spaced polls: the first value was delivered, the second leaves the queue and never is |
| TwinLimits.YoungerIsDroppedUnreported | addon/oig-proxy/proxy/server.py:901-940 | two cloud settings tracked, a Box acknowledgement of the younger: it leaves the store with no terminal step in the ledger |
| TwinProgress.CloudNeverBlocksForLong | addon/oig-proxy/twin/delivery.py:180-199 | after an expiry check nothing is left that was tracked two timeouts ago |
| TwinProgress.ExpiryNeverTimesOutSeen | addon/oig-proxy/twin/delivery.py:184-199 | expiry reports TIMEOUT only for entries whose Reason=Setting was not seen, and, no audit id being tracked twice, never for one whose Reason=Setting was seen |
| TwinProgress.ExpiryAccounts | addon/oig-proxy/twin/delivery.py:180-199 | every entry expiry removes has a terminal entry in the ledger |
| TwinProgress.ShutdownAccounts | addon/oig-proxy/twin/delivery.py:445-462 | shutdown empties the store and every entry that was in it is in the ledger |
| TwinProgress.MatchAccounts | addon/oig-proxy/twin/delivery.py:563-593 | a match is an entry of the key; exactly one entry leaves, the order of the rest stays, and the entry is in the ledger |
| TwinProgress.MatchTakesFirst | addon/oig-proxy/twin/delivery.py:578-586 | the match is the first entry with equal value, or the head when no entry has it |
| TwinProgress.RemovalIsLedgeredUnlessAcknowledged | addon/oig-proxy/twin/delivery.py:180-593 | of all calls only an acknowledgement that finds nothing in flight, nothing queued and this setting first under the key can drop it without a terminal entry |
| TwinProgress.DroppedUnreportedIff | addon/oig-proxy/twin/delivery.py:312-355 | a call drops a tracked setting without a terminal entry if and only if it is such an acknowledgement |
| TwinProgress.AcknowledgeDropsSilently | addon/oig-proxy/twin/delivery.py:350-353 | such an acknowledgement takes exactly the first tracked setting of the key and writes nothing |
| TwinServer.TwinControlHandler.OnMessage | addon/oig-proxy/twin/handler.py:119-302 | the queue and the records after a message: incoming, then rejected, handled by the proxy, or superseding and enqueued; `MessageQueues` says which setting is queued and where |
| TwinServer.ProxyServer.HandleTwinFrames | addon/oig-proxy/proxy/server.py:883-1044 | the state after a frame: delivery hook, Box acknowledgement, `tbl_events` row, Reason=Setting, NACK, each against the pair in flight read once; `NackIsReported`, `BoxAckIsReported`, `EventIsReported` and `ReasonIsReported` say what each reports, `StepSaysWhatItSaw` that nothing else is |
| TwinServer.ProxyServer.BoxFrame | addon/oig-proxy/proxy/server.py:667-760 | the state after a frame of the Box, and whether it is withheld from the cloud; `CloudComesFirst`, `PollIsServedIff` and `WithheldIffWritten` say when which |
| TwinServer.ProxyServer.CloudFrame | addon/oig-proxy/proxy/server.py:846-881 | the state after a frame of the cloud: numbers observed, setting tracked or flag set, acknowledgements handled; `FullSettingIsTracked`, `LegacyFlagFollows` and `CloudStepServesIff` say what comes of it |
| TwinServer.ProxyServer.DeliverPendingForIsNewSet | addon/oig-proxy/proxy/server.py:1066-1091 | the poll on the cloud and offline paths delivers without a session and without a message number |
| TwinReports.NackIsReported | addon/oig-proxy/proxy/server.py:1025-1044 | a NACK without an event row: the setting in flight gets one Nack record with result failed, unless the ledger holds a step as strong, and its key leaves slots and queue, or the store if it was not queued |
| TwinReports.NackedLeavesIff | addon/oig-proxy/proxy/server.py:1025-1044 | a tracked setting that got a NACK leaves the store if and only if nothing of its key is queued and it comes first among the tracked ones of its key |
| TwinReports.BoxAckIsReported | addon/oig-proxy/proxy/server.py:913-936 | an ACK of the table and item in flight is recorded as observed and changes nothing else |
| TwinReports.OtherAckLeaves | addon/oig-proxy/proxy/server.py:937-942 | an ACK of another table and item takes that key away and records nothing |
| TwinReports.EventIsReported | addon/oig-proxy/proxy/server.py:966-984 | an event row of the setting in flight that no tracked setting matches confirms it by ACK_TBL_EVENTS, and its key leaves |
| TwinReports.EventMatchesCloud | addon/oig-proxy/proxy/server.py:959-969 | an event row of a key the cloud waits for does what `MatchAccounts` and `MatchReports` say, and nothing else |
| TwinReports.ReasonIsReported | addon/oig-proxy/proxy/server.py:1000-1023 | Reason=Setting confirms the setting in flight when no cloud setting of the device is tracked, and its key leaves |
| TwinReports.ReasonMarksCloud | addon/oig-proxy/proxy/server.py:986-999 | otherwise it does what `MarkMarksOldest` says, and nothing else |
| TwinReports.AckThenReason | addon/oig-proxy/proxy/server.py:913-1023 | an ACK that names an item and carries Reason=Setting is handled like the two one after the other |
| TwinCauses.StepSaysWhatItSaw | addon/oig-proxy/proxy/server.py:641-1091 | every record of a step has its cause: ACK_TBL_EVENTS an event row of that table and key, ACK_BOX_OBSERVED an ACK of that table and item, ACK_REASON_SETTING a Reason=Setting or the expiry of a marked entry, NACK a NACK, TIMEOUT an entry, slot or session out of time, SESSION_CLEARED the end of that session, selection and injection a poll, the rest a message or a cloud setting |
| TwinCauses.EveryRecordHasItsCause | addon/oig-proxy/proxy/server.py:641-1091 | so over every run: each record of the trail was written by a step that had cause to write it in the state before it |
| TwinPriority.CloudComesFirst | addon/oig-proxy/proxy/server.py:702-708 | when the legacy flag is up, or an entry is left after the frame's answers and expiry, a frame of the Box delivers nothing, writes nothing and is not withheld |
| TwinPriority.CloudComesFirstInRuns | addon/oig-proxy/proxy/server.py:702-708 | so after every run of the proxy |
| TwinPriority.LiveEntryBlocksPoll | addon/oig-proxy/proxy/server.py:702-708 | and in particular while an entry younger than its limit is tracked |
| TwinPriority.WithheldIffWritten | addon/oig-proxy/proxy/server.py:721-764 | a frame of the Box is withheld if and only if a Setting was written, that of the setting just delivered |
| TwinPriority.PollIsServedIff | addon/oig-proxy/proxy/server.py:702-760 | a poll gets the head of the sorted queue if and only if no cloud setting is left, nothing is in flight any more, its session does not wait and something is queued; it is withheld if the write succeeds |
| TwinPriority.HookServesIff | addon/oig-proxy/proxy/server.py:898-899 | on the cloud and offline paths an IsNewSet gets it whatever the cloud has in flight, and no other frame gets anything |
| TwinPriority.CloudStepServesIff | addon/oig-proxy/proxy/server.py:834-880 | so for a whole frame of the cloud |
| TwinPriority.OfflineServesIff | addon/oig-proxy/proxy/server.py:1231-1256 | and for one answered offline |
| TwinPriority.SessionWaitsItsTime | addon/oig-proxy/proxy/server.py:675-760 | what the Box answers frees no session entry, so that session is not served before its time is up |
| TwinArrivals.MessageQueues | addon/oig-proxy/twin/handler.py:132-302 | a message that reads as an integer its key may take is queued with its own time, numbers and audit id, in the place of the setting of its key or last; no other message changes the queue |
| TwinArrivals.QueuedIsReported | addon/oig-proxy/twin/handler.py:238-302 | its records: incoming, the replaced one superseded, enqueued |
| TwinArrivals.RejectedIsReported | addon/oig-proxy/twin/handler.py:238-275 | the records of any other message: incoming, and which rejection, or none when the proxy handled it |
| TwinArrivals.LegacyFlagFollows | addon/oig-proxy/proxy/server.py:842-877 | an incomplete cloud setting raises the legacy flag, an END lowers it, and no other frame of the cloud changes it |
| TwinArrivals.FullSettingIsTracked | addon/oig-proxy/proxy/server.py:842-868 | a complete cloud setting is tracked afterwards, last in the queue of its key, if and only if the time limit is positive |
| TwinArrivals.FullSettingHoldsPolls | addon/oig-proxy/proxy/server.py:702-868 | and for as long as its limit runs no poll that says nothing else is served from the local queue |
| TwinArrivals.BoxNumbers | addon/oig-proxy/twin/delivery.py:75-100 | after a frame of the Box the highest message and `id_set` numbers on the wire are remembered, and a delivered setting took the next ones |
| TwinArrivals.CloudNumbers | addon/oig-proxy/proxy/server.py:834-880 | after a frame of the cloud they are remembered too, and a delivered setting took an `id_set` but no message number |
| TwinArrivals.HandledNumbers | addon/oig-proxy/proxy/server.py:1066-1091 | and so it is for a frame answered offline |
| SettingsConstraints.WhitelistHasRanges | addon/oig-proxy/settings_constraints.py:11-78 | the whitelist and the constraint table list the same keys, each with an integer range |
| SettingsConstraints.ValidateExactly | addon/oig-proxy/settings_constraints.py:81-122 | for a whitelisted key validation accepts exactly the payloads that read as an integer in the range, and hands on that integer |
| SettingsConstraints.WordsAreNumbers | addon/oig-proxy/settings_constraints.py:81-105 | on and true count as 1, off and false as 0, any other text as what `float()` reads, and an empty text or another type as nothing |
| SettingsConstraints.SwitchTakesWords | addon/oig-proxy/settings_constraints.py:81-122 | a key whose range starts at 0 takes these words as 1 and 0 |
| BoxToCloud.Forwarder.TakeFrames | addon/oig-proxy/proxy/server.py:664-760 | the inner loop takes out all complete frames, sets aside those to forward, and reports an injection |
| BoxToCloud.Forwarder.OnData | addon/oig-proxy/proxy/server.py:661-788 | one read: dropped after an injection, else its frames, else the raw bytes go to the cloud |
| BoxToCloud.Forwarder.PipeBoxToCloud | addon/oig-proxy/proxy/server.py:651-788 | the outer loop handles the reads up to the end of the stream |
| BoxToCloud.WrittenArePassedOn | addon/oig-proxy/proxy/server.py:652-781 | when every read completes a frame, the cloud gets in order exactly the frames of the reads that injected nothing, and `frames_forwarded` counts them |
| BoxToCloud.CompleteReadsConserve | addon/oig-proxy/proxy/server.py:652-781 | without injections, written bytes plus buffer are the bytes read, when every read completes a frame |
| BoxToCloud.ConservedIffReadsComplete | addon/oig-proxy/proxy/server.py:762-788 | and only then |
| BoxToCloud.EveryByteIsAccounted | addon/oig-proxy/proxy/server.py:762-788 | without injections every byte goes out once, and once more in each read that completes no frame |
| BoxToCloud.BufferFollowsStream | addon/oig-proxy/proxy/server.py:661-670 | buffer and frame count follow the byte stream, whatever is injected |
| Crc.ReflectBits | addon/oig-proxy/protocol/crc.py:16-21 | bit i of the result is bit width - 1 - i of the argument |
| Crc.ReflectedBits | addon/oig-proxy/protocol/crc.py:16-21 | and the bits reflected before move up, in order |
| Crc.ReflectedPoly | addon/oig-proxy/protocol/crc.py:26-27 | 0x8005 reflected over 16 bits is 0xA001 |
| Crc.Crc16Table | addon/oig-proxy/protocol/crc.py:24-34 | entry n is eight bit steps of n |
| Crc.Crc16Modbus | addon/oig-proxy/protocol/crc.py:37-43 | the table-driven loop equals the bit-by-bit reflected CRC on every byte string and stays within 16 bits |
| Crc.UpdateIsByteStep | addon/oig-proxy/protocol/crc.py:41-42 | one table update equals eight bit steps, by XOR-linearity and because a high byte only shifts down |
| Crc.FeedInjective | addon/oig-proxy/protocol/crc.py:37-43 | the same bytes never bring two registers together |
| Crc.ByteCorruptionDetected | addon/oig-proxy/protocol/crc.py:37-43 | any change of one byte, in a message of any length, changes the CRC |
| Crc.AdjacentCorruptionDetected | addon/oig-proxy/protocol/crc.py:37-43 | any change confined to two adjacent bytes changes the CRC |
| Frame.FrameBuffer.ExtractFrame | addon/oig-proxy/protocol/frame.py:50-73 | the frame removed from the buffer in place, with its terminator, or none while a CR may still become a CRLF |
| Frame.FrameBuffer.ExtractAll | addon/oig-proxy/proxy/server.py:664-669 | extracting until there is no complete frame |
| Frame.FeedConserves | addon/oig-proxy/protocol/frame.py:50-73 | for any chunks, the frames and the leftover concatenate to exactly the bytes fed |
| Frame.FramesDoNotDependOnChunks | addon/oig-proxy/protocol/frame.py:50-73 | unless the stream ends in the end tag and a CR, any chunking gives the same frames up to leading and trailing CR and LF, those a chunk-free definition gives |
| Frame.OpenEndDependsOnChunks | addon/oig-proxy/protocol/frame.py:62-69 | if it does end so, holding back the CR yields one frame more |
| Frame.ChunksMatterIffEndsOpen | addon/oig-proxy/protocol/frame.py:50-73 | every two chunkings of a stream give the same frames up to CR and LF around them if and only if it does not end in the end tag and a CR |
| FrameCodec.ParseOfBuild | addon/oig-proxy/protocol/frame.py:23-47 | for every text, parsing a built frame gives the text stripped twice |
| FrameCodec.RoundTripIffNoTag | addon/oig-proxy/protocol/frame.py:23-47 | parsing undoes building if and only if the text holds no CRC tag |
| FrameCodec.CrcTagReadsBack | addon/oig-proxy/protocol/frame.py:23-33 | the five digits in a built frame read back as the CRC of the text in front of them |
| FrameCodec.StreamRoundTrip | addon/oig-proxy/protocol/frame.py:23-73 | built frames of texts without end tag and CRC tag, concatenated, extracted and parsed, give the list back and an empty buffer |
| FrameCodec.WholeIffNoEndTag | addon/oig-proxy/protocol/frame.py:50-73 | a built frame is extracted whole if and only if its text, once stripped of CRC tags, holds no end tag |
| FrameCodec.StripAppendedTag | addon/oig-proxy/protocol/crc.py:46-48 | stripping undoes appending a CRC tag, to any text |
| FrameCodec.StripShortens | addon/oig-proxy/protocol/crc.py:46-48 | stripping changes a text if and only if it holds a CRC tag, and then shortens it |
| SummerTime.LastSundayIsLast | addon/oig-proxy/protocol/frames.py:19-21 | `_last_sunday` is a Sunday, one of the days 25 to 31, and the last one of March or October, for every year |
| SummerTime.InstantsOfCivilTime | addon/oig-proxy/protocol/frames.py:24-32 | every civil time is that of exactly one instant, except none in 02:00-03:00 on the March Sunday and two in 02:00-03:00 on the October Sunday |
| SummerTime.CivilTimePreimages | addon/oig-proxy/protocol/frames.py:24-32 | which of the instants one and two hours before a civil time read as it |
| SummerTime.NextYear | addon/oig-proxy/protocol/frames.py:19-21 | the day count by the leap rule joins consecutive years without gap or overlap |
| XmlFields.FindAllRendered | addon/oig-proxy/protocol/parser.py:60-61 | scanning rendered fields gives the fields back, in order, then what follows |
| XmlFields.SearchRendered | addon/oig-proxy/protocol/parser.py:37-52 | a named search in rendered fields finds the first field of the name that the pattern accepts |
| XmlFields.AfterMarkRendered | addon/oig-proxy/proxy/server.py:54-83 | the text behind the first opening tag of a name starts with that field's value |
| SettingFrame.ParseXmlFrame | addon/oig-proxy/protocol/parser.py:23-74 | the loop with its early return builds the header fields and the converted data fields, or nothing for a sub-device above 0 |
| SettingFrame.SettingRoundTrip | addon/oig-proxy/protocol/frames.py:111-127 | a built Setting frame parses to its own table, device, key, value, confirm flag and message number, and is classed as transport, so it is not published as sensor data |
| SettingFrame.TextsSurviveUnlessNumeric | addon/oig-proxy/protocol/parser.py:65-72 | key and confirm flag come back as the texts they were if and only if they do not read as numbers |
| SettingFrame.NumbersReadBack | addon/oig-proxy/proxy/server.py:54-83 | the extractors recover `id_set` and message number of a built Setting frame |
| FrameKinds.TransportIff | addon/oig-proxy/proxy/server.py:1178-1202 | of any frame text of tagged fields: ACK and END are transport, a poll if and only if it has no data field, any other frame if and only if it has the fields of a Setting frame |
| FrameKinds.BankIsIgnoredIff | addon/oig-proxy/protocol/parser.py:51-74 | a frame of a sub-device above 0 parses to nothing, one of sub-device 0 to the last value of each data field |
| FrameKinds.DecimalIsFloat | addon/oig-proxy/protocol/parser.py:65-72 | digits around a point, signed or not, are read as a float |
| FrameKinds.OddIsText | addon/oig-proxy/protocol/parser.py:65-72 | a value with a character that no number is written with stays a text |
| FrameKinds.SpacesDoNotMatter | addon/oig-proxy/protocol/parser.py:65-70 | white space around an integer and a plus in front of it do not change what is read |
| SettingWire.BuiltSettingFrame | addon/oig-proxy/protocol/frames.py:111-127 | the bytes of a Setting frame are what `build_frame` makes of its fields, and `parse_frame` gives the fields' text back |
| SettingWire.CrcFieldExists | addon/oig-proxy/protocol/frame.py:23-33 | every plain ASCII Setting has the CRC field that `build_frame` appends |
| Utf8.DecodeOfCut | addon/oig-proxy/telemetry/settings_audit.py:137-144 | encoding, cutting at any byte and decoding keeps the whole characters and puts U+FFFD for a cut one |
| Utf8.DecodeUndoesEncode | addon/oig-proxy/telemetry/settings_audit.py:151-152 | decoding undoes encoding if and only if the text has no lone surrogate |
| Utf8.CutSize | addon/oig-proxy/telemetry/settings_audit.py:141-152 | a cut text is at most two bytes longer than the cut, and then ends in U+FFFD |
| Utf8.CutSizeExactly | addon/oig-proxy/telemetry/settings_audit.py:141-152 | the exact size of a cut text: it passes the cut if and only if the cut leaves one or two bytes of a character |
| Utf8.AsciiCutSize | addon/oig-proxy/telemetry/settings_audit.py:141-152 | a cut ASCII text keeps to the cut |
| Utf8.CutAgain | addon/oig-proxy/telemetry/settings_audit.py:188-191 | cutting a text that was cut before does not make it longer |
| AuditBudget.AuditTracking.CleanupAuditTracking | addon/oig-proxy/telemetry/settings_audit.py:155-166 | exactly the audit ids idle for more than 300 seconds leave both dictionaries |
| AuditBudget.AuditTracking.TouchAuditTracking | addon/oig-proxy/telemetry/settings_audit.py:169-174 | only a tracked audit id is refreshed |
| AuditBudget.AuditTracking.ApplyRawTextLimits | addon/oig-proxy/telemetry/settings_audit.py:177-196 | the text kept, the tracked total and the capped flag, after clean-up; `KeptText` and `CappedIff` say which text and when |
| AuditKept.KeptText | addon/oig-proxy/telemetry/settings_audit.py:132-196 | a record keeps its text unchanged if that fits the field cap and what is left of the total, else the longest run of whole characters that does, then one U+FFFD if the cut falls inside a character; its size is added to the total |
| AuditKept.CappedIff | addon/oig-proxy/telemetry/settings_audit.py:182-191 | a record is reported as capped if and only if its text, cut to the field cap, takes more than is left of the total |
| AuditKept.CutIsTheCut | addon/oig-proxy/telemetry/settings_audit.py:137-152 | there is exactly one such cut of a text, and it is what encoding, cutting and decoding give |
| AuditKept.EmptyStep | addon/oig-proxy/telemetry/settings_audit.py:350-379 | a step record without a text keeps none and only refreshes its audit id |
| AuditKept.OthersForgotten | addon/oig-proxy/telemetry/settings_audit.py:155-196 | any other record makes the tracking forget exactly the other audit ids idle for more than 300 seconds |
| AuditBudget.RecordSize | addon/oig-proxy/telemetry/settings_audit.py:177-196 | one record keeps at most 16384 + 2 bytes and keeps the total within 65536 + 2, without overshoot for ASCII |
| AuditBudget.BudgetHolds | addon/oig-proxy/telemetry/settings_audit.py:177-405 | over any sequence of records the two dictionaries have the same keys and no tracked total exceeds 65536 + 2, or 65536 for ASCII |
| AuditBudget.RecordsAreShort | addon/oig-proxy/telemetry/settings_audit.py:132-196 | and no record of the sequence keeps more than 16384 + 2 bytes |
| AuditBudget.TotalKept | addon/oig-proxy/telemetry/settings_audit.py:155-196 | the texts of one audit id keep at most 65536 + 2 bytes in all, while its records follow each other within 300 seconds |
| AuditBudget.TotalCapIff | addon/oig-proxy/telemetry/settings_audit.py:155-405 | for all texts the records of an audit id keep at most 65536 + 2 bytes, if and only if no clean-up restarts its total between two of its records or it has at most three records |
| AuditBudget.TalliesAll | addon/oig-proxy/telemetry/settings_audit.py:155-405 | after any records the tracked total of an audit id is all that it kept, unless it was restarted |
| AuditBudget.LateStepExceedsTotal | addon/oig-proxy/telemetry/settings_audit.py:177-405 | three records of an id, 301 seconds later the incoming record of a new id and one more step record of the first, keep 65544 bytes |
| AuditBudget.OwnStepNeverRestarts | addon/oig-proxy/telemetry/settings_audit.py:350-379 | a step record of a tracked id adds to its total, however late it comes |
| AuditBudget.OtherRecordRestarts | addon/oig-proxy/twin/delivery.py:101-142 | an incoming record of another id that finds the first one idle for more than 300 seconds makes its next step record start from nothing |
| Mode.ModeManager.RecordFailure | addon/oig-proxy/proxy/mode.py:106-133 | the callback runs exactly when the failure takes the manager offline, which `OfflineExactlyAfterThreshold` says when it does |
| Mode.ModeManager.RecordSuccess | addon/oig-proxy/proxy/mode.py:135-147 | the callback runs exactly when the success takes the manager online, which `NoFlapping` says how often it can |
| Mode.ModeManager.ApplyConfiguredMode | addon/oig-proxy/proxy/mode.py:155-172 | an unknown mode is refused and changes nothing; after any other `OfflineMatchesRuntime` holds |
| Mode.ModeManager.ShouldTryCloudNow | addon/oig-proxy/proxy/mode.py:82-104 | always in online mode, never in offline mode, in hybrid mode when online or after the retry interval; `CloudIsTriedIff` tells it from the events |
| Mode.OfflineMatchesRuntime | addon/oig-proxy/proxy/mode.py:67-172 | in every reachable state `is_offline()` agrees with the runtime mode |
| Mode.NoFlapping | addon/oig-proxy/proxy/mode.py:82-147 | the number of returns to online times the retry interval is at most the time that passed |
| Mode.OfflineExactlyAfterThreshold | addon/oig-proxy/proxy/mode.py:106-133 | the manager goes offline at exactly the failure that completes `fail_threshold` failures with no success between |
| ModePolicy.CloudIsTriedIff | addon/oig-proxy/proxy/mode.py:82-172 | after any failures, successes and configurations the cloud is tried if and only if the last accepted mode is not offline and, in hybrid mode with `fail_threshold` failures in a row, the retry interval since the last failure is over |
| ModePolicy.OfflineIff | addon/oig-proxy/proxy/mode.py:106-172 | the manager is offline if and only if the last accepted mode is offline, or hybrid with that many failures in a row |

## Left out

- Each MQTT message and each frame is one atomic step with one clock reading; interleaving of other tasks between the writes of a step is not modelled.
- Audit ids of new settings are assumed fresh; a random clash of two generated ids is not modelled.
- Random draws, wall-clock seconds and clock readings are parameters; the monotonic clock is assumed not to go back.
- Sockets, tasks and their cancellation, MQTT, logging, frame capture, telemetry counters and publish callbacks are not modelled.
- The `/data/replay_setting_frame.xml` path is not modelled; a replayed frame is not from the queue.
- The trail's records carry audit id, device, table, key, step, result and session; value texts and numbers of a record are not part of the model.
- Cloud entries are values replaced in the store when they are marked; that a caller may hold the same Python object is not captured.
- The delivery state machine takes what a frame says (table name, acknowledgement, event row, numbers) as given; `parse_box_ack` and `parse_tbl_events_ack` are not part of this model.
- A control message comes decoded; JSON decoding, the topic split and the callback that may handle `proxy_control` are inputs.
- SettingsConstraints.ValidateExactly: a text payload comes stripped and lower-cased with what `float()` makes of it; the OverflowError of a huge integer is not modelled.
- The `step` of a constraint is never enforced by the code and is not part of the model.
- BoxToCloud.WrittenArePassedOn: writes do not fail, and which frames are answered by an injection is an arbitrary predicate on the running number of the frame; the local answers after a failed write are not modelled.
- FrameCodec.ParseOfBuild: the text is its UTF-8 bytes and the frame has the trailing CRLF; `add_crlf=False` is not modelled.
- BoxToCloud.Forwarder.OnData: a failed write, which hands the payload to the local answers when the manager is offline, is not modelled.
- BoxToCloud.Forwarder.PipeBoxToCloud: nor is its ending the loop.
- Crc.ReflectBits: words are 32 bits wide; a wider reflection is not modelled.
- SettingWire.BuiltSettingFrame: texts are those of ASCII.
- SettingFrame.SettingRoundTrip: the printed civil time, UTC time, random version and CRC are parameters without `<`; word characters, digits and white space of the scanner are those of ASCII, and a float field keeps its text instead of its value.
- SummerTime.InstantsOfCivilTime: whole seconds; a conversion that would leave year 9999 is not modelled.
- Mode.NoFlapping: the outcome of an attempt is recorded in the same step in which `should_try_cloud` allowed it, and the configuration stays hybrid meanwhile.
- AuditBudget.BudgetHolds: the redaction of sensitive keys happens before the text arrives; the throw-away ids that rebuilding a parent record generates enter as records of their own ids; one clock reading serves the touch and the clean-up of a record.
- Telemetry storage, sensor mapping, DNS lookups and the status publisher would only add easy members.
