# Khala: a verified model of its state machines

Khala is a store-and-forward mail network between nodes. This project models the
state machines its promises rest on and proves the promises, each over every input
or every run. Files are sets and maps of names and contents; a crash may fall
between any two file operations; the network loses, copies and delays files at will.

| part | modules | source |
|---|---|---|
| mail: outbox, spool, inbox, delivered log, acknowledgements, bounces, keyed sends | SendRecord, MailModel, MailSafety, MailSkew, MailSender, MailNode, MailNetwork | bin/khala |
| doorbell: when a session is told of mail | Doorbell, DoorbellSafety, DoorbellProgress | link/conduit.go |
| relay: two peers copy files to each other | Relay, RelaySafety, RelayRuns, RelayOversized, RelayCopies, RelayProgress, RelayLoop | link/pump.go, link/install.go |
| identity lease with epochs | Lease | link/runtime.go, link/conduit.go, link/ears.go |
| listener snapshots: printer, parser, limits | Text, Snapshot, SnapshotText, SnapshotRoundTrip, SnapshotSafety, SnapshotLimits, SnapshotFaithful, SnapshotReader | link/ears.go |
| replicas of snapshots, session status generations | Replica, SessionStatus | link/ears.go, link/install.go, bin/khala |
| wire format of the relay | Codec, Frames, Wire, FrameStream, WireLayout | link/protocol.go |
| gateway: message pieces, rolling budgets, post queue | Split, Budget, PostQueue | link/gateway.go, link/triage.go |
| notices to a parent session | ParentNotice | link/parent.go |

`dafny verify dfyconfig.toml` checks everything.

## How it is built

Each protocol is a transition system (`Step`/`Event`, `Possible`, `After`, `Leads`)
whose steps are single file operations, or calls under one lock, and the theorems
are about all its runs. Beside it stands a class with the source's fields and
routines (`Khala`, `NotifierState`, `Loop`, `Store`, `Directory`, `ShardFiles`,
`Encoder`, `Decoder`, `Splitter`, `Window`, `OutQueue`, `Notifier`), whose methods are
proved to be runs of that system, or to compute the function the theorems are about.
In `MailNode` every routine keeps a ghost path of the states between its file
operations; `MailNetwork` shows that every prefix of it is a run of the network, so a
crash after any file operation is covered.

Promises come in halves: that nothing happens that must not (at most once, never early,
never fatal, one owner), and that what should happen does. The second half says of each
operation exactly when it acts and with what result, in terms a caller can see
(`MailNode.Khala.ReconcileCycle`, `DoorbellProgress.RingsInTime`,
`RelayProgress.FileArrives`, `Lease.ClaimantIsRung`, `SnapshotFaithful.PlainReadsBack`,
`PostQueue.LetterIsPosted`).

`MailModel.Possible` holds what is asked of the environment of the mail core: a
node's clock never goes back, a message is made under an Id never used before, and
the recipient's clock is at most `skew` behind the sender's when a message is
prepared.

## What the proofs show about the code

Where a promise does not hold of the code as it stands, the exact condition is a
theorem, and a run or an input that breaks it stands beside it.

- Clock slack. The 59-day cap, the 60-day log and the expiry drop leave 86,401 s,
  one second more than the day the constants suggest, because a log line goes only
  when strictly older than the cut (`MailSkew.SlackIsExact`, `MailSkew.SecondInstall`).
- Doorbell, Invariant 5. Every pass over an owned inbox keeps it. A scan while no
  owner is seen (link/conduit.go:601-640) turns a dropped state into a blank one that
  later passes take for live, so the journals are never replayed and the next frame
  may come early; it is harmless exactly if a state is live or no frame is undrained
  (`DoorbellSafety.UnownedScanExact`, `DoorbellSafety.EarlyFrame`).
- Relay. An ERROR about an oversized source carries no transfer id, and the peer may
  take it for the answer to its own OFFER (link/pump.go:483-489). With sources within
  the sender's own limit no run is fatal (`RelayRuns.NeverFatal`); meeting an oversized
  one makes a fatal end possible from every state (`RelayOversized.OversizedExact`,
  `RelayOversized.LargeFileEndsRelay`).
- Session status. The relay and the puller install copies without the lock the
  collecting pass holds, so a greater generation that arrives between the choice of
  the current one and the removal of the others is lost
  (`SessionStatus.ArrivalDuringPassExact`, `SessionStatus.ArrivalLost`). For the same
  reason a generation just written may be below one that arrived while it was being
  written (`SessionStatus.WrittenIsAboveExact`, `SessionStatus.WrittenBelow`).
- Snapshot replicas. Relay and puller share no lock between comparing and renaming, so
  an older copy may be put over a newer one: exactly if the installer is overtaken
  (`Replica.AlwaysNewestExact`, `Replica.OlderOverNewer`). Order does not matter as long
  as no sequence number has two texts; with two, the first to arrive stays
  (`Replica.OrderIndependent`, `Replica.ConflictKeepsFirst`).
- Snapshots. What is printed does not always parse; the theorem says exactly when
  (`SnapshotSafety.RoundTripExact`, `SnapshotLimits.TwinsUnreadable`).
- Parent notices. The record of announced letters is read back only up to one mebibyte.
  Within it no letter is announced twice; beyond it a restart repeats a notice
  (`ParentNotice.RestartKeepsExact`, `ParentNotice.LargeRecordRepeats`).

## Model

| member | source | states |
|---|---|---|
| MailSafety.InstalledAtMostOnce | bin/khala:2205-2221 | In every run (lost, copied and delayed files, a crash between any two file operations, draining, pruning) each message Id is installed at most once, and only at its addressee, if the recipient's clock is monotone and at most 86,401 s behind the sender's when the message is prepared |
| MailSkew.SlackIsExact | bin/khala:4168-4177 | The slack left by the 59-day cap, the 60-day log and the expiry drop is exactly 86,401 s: at-most-once holds for all reachable states if and only if the allowed lag is at most that |
| MailSkew.SecondInstall | bin/khala:3014-3028 | With one second more, a concrete run installs one message twice: log line pruned, inbox file retired, late copy not yet expired |
| MailSafety.KeptExact | bin/khala:3014-3028 | Pruning the delivered log keeps exactly the lines not older than the cut |
| MailSafety.InvStep | bin/khala:2754-2808 | Every file operation of every routine, every network event and clock tick keeps the receiver invariant: what was installed is logged, in the inbox, expired, or being logged right now |
| MailSender.EveryMessageAccounted | bin/khala:2904-2946 | Every message ever queued is in exactly one of new, acked, dead or retired; acked means the recipient once installed it, dead means a bounce was queued, and nothing is retired without one of the two |
| MailSender.DeadStaysDead | bin/khala:2963-3007 | Whatever run follows, a message once dead is never again in new or acked, by no acknowledgement, however late, and by no keyed send: it stays dead until retention removes it |
| MailNetwork.RoutineInNetwork | bin/khala:3535-3571 | What a routine of MailNode records, cut short after any file operation, is a run of the network: the network with its node in that state is reachable |
| MailNetwork.RoutineInstallsOnce | bin/khala:2205-2221 | So a routine that sends nothing, stopped anywhere, has installed nothing twice |
| MailNetwork.DirectoriesTidy | bin/khala:2712-2752 | In every reachable network a node's directories hold one message per file name and each Id in one box, which is what the cycle asks of them |
| MailSender.KeyIsOneId | bin/khala:3924-3980 | Over any attempts and crashes one request key is one Id, every success reports that Id, and two keys never share one |
| MailSender.OtherContentRefused | bin/khala:3925-3941 | A request under a used key is resumed if and only if its arguments and body are the recorded ones; otherwise it is refused and nothing but the reply changes |
| MailSender.QueuesOnlyWhenMissing | bin/khala:3953-3968 | A keyed send queues its message only when it is in none of new, acked, dead and had not expired at a clock reading of the same attempt |
| MailSender.KeyBinding | bin/khala:3942-3952 | A key once bound keeps its message and arguments through every step |
| MailSender.LookApplies | bin/khala:3958-3963 | What a keyed send has seen of the outbox stays true under every concurrent action of the node |
| SendRecord.CanonicalInjective | bin/khala:3905-3912 | The saved request text determines the arguments and the body |
| SendRecord.LegacyInjective | bin/khala:3927-3935 | So does the NUL-separated text of older versions |
| SendRecord.MatchesExactly | bin/khala:3925-3941 | A saved request, in either form, matches a call if and only if it was made by the same call |
| MailNode.Khala.DeliveredBefore | bin/khala:2173-2181 | True exactly when a line of the delivered log carries the Id |
| MailNode.Khala.RecordDelivered | bin/khala:2183-2203 | Appends one line with the clock reading and the Id |
| MailNode.Khala.DeliverOnce | bin/khala:2205-2221 | Afterwards the Id is logged; it is installed exactly if neither the log nor the inbox had it |
| MailNode.Khala.QueueAckAndConsume | bin/khala:2798-2807 | Queues the acknowledgement, then removes the spool copy |
| MailNode.Khala.DeliverRegularMessage | bin/khala:2754-2808 | An expired copy is dropped; any other is delivered once, acknowledged and consumed, and nothing else changes |
| MailNode.Khala.DeliverMessages | bin/khala:2889-2902 | After the loop no own message is left in the spool and each had expired or is logged; other files stay |
| MailNode.Khala.SettleAck | bin/khala:2976-3005 | Moves the original from new to acked, removes its spool copy (of an acked or dead original), consumes the acknowledgement |
| MailNode.Khala.SettleAcks | bin/khala:2963-3007 | The outbox is settled for exactly the acknowledged Ids, and no own acknowledgement is left |
| MailNode.Khala.ExpireOne | bin/khala:2928-2945 | Queues the bounce before moving the message to dead, then removes its spool copy |
| MailNode.Khala.ExpireOutbox | bin/khala:2904-2946 | Exactly the messages expired at the clock reading move to dead, each with a bounce queued |
| MailNode.Khala.CopyOutboxToSpool | bin/khala:2712-2752 | Adds to the spool exactly the unexpired messages of outbox/new |
| MailNode.Khala.PruneDeliveredLog | bin/khala:3009-3030 | The loop leaves exactly the lines not older than 60 days |
| MailNode.Khala.PruneMessageArchives | bin/khala:3076-3111 | The aged files of inbox/cur and of the outbox archives are gone, and nothing else is |
| MailNode.Khala.PruneArchived | bin/khala:3085-3110 | Removes exactly the aged messages of acked and dead |
| MailNode.Khala.TakeIn | bin/khala:3544-3563 | Every unexpired message that waits for another node is in the spool afterwards, also where its copy was gone; every letter for this node, from the spool or its own outbox, has expired or is logged and acknowledged, and is installed exactly if it was not known; nothing else is installed |
| MailNode.Khala.SettleAndExpire | bin/khala:3565-3567 | Settlement comes before expiry: a waiting message whose acknowledgement is there goes to acked, however late, and is neither dead nor bounced; any other that has expired is bounced and dead; the rest waits on, its spool copy kept |
| MailNode.Khala.ReconcileCycle | bin/khala:3535-3571 | After a whole cycle what waits is unexpired, for another node, and in the spool again; nothing stops waiting but for its acknowledgement or its expiry, which is bounced; no acknowledgement that was there becomes a bounce; nothing addressed here is left in the spool, and every letter that had arrived is expired or logged unless records were pruned. The cycle is a recorded run, so RoutineInNetwork applies wherever it is cut short |
| MailNode.Khala.CmdSend | bin/khala:4087-4224 | A fresh Id is linked into outbox/new and copied to the spool; an Id already there is refused and nothing changes |
| MailNode.Khala.BindRequest | bin/khala:3924-3949 | Binds a new key, resumes the same call, refuses another |
| MailNode.Khala.FindPublished | bin/khala:3954-3959 | Looks into new, acked and dead one after another |
| MailNode.Khala.LinkMissing | bin/khala:3960-3967 | Links a missing message exactly if it has not expired |
| MailNode.Khala.PublishFound | bin/khala:3968-3979 | Marks published, then spools the message while it is still in new |
| MailNode.Khala.PublishBound | bin/khala:3948-3979 | From the saved intent on: the answer names its Id, or it is too late and nothing was queued |
| MailNode.Khala.CmdSendRequest | bin/khala:3890-3922 | A conflict is reported exactly for another call under the key; a success names the key's Id, which is marked published, and queues and spools that message if it was missing; too late is said only of a message that is nowhere in the outbox, never was published and has expired |
| DoorbellSafety.Invariant5 | link/conduit.go:261-295 | While the target stays the same, an attempt made when k >= 1 frames are undrained comes at least the k-th delay after the last of them, under arrivals, failures, drops of the state, restarts and rebuilds from journals |
| DoorbellProgress.RingsInTime | link/conduit.go:1077-1251 | The other half: whatever run came before, unowned scans included, a pass that comes the longest delay after the last event, for whatever process and queue, writes a frame, if the session is in no older turn and the target is verified, still there and writable |
| DoorbellProgress.LiveRingsExact | link/conduit.go:1112-1145 | A pass over a live state of the same process attempts a frame if and only if the target is still there and the time has come: at once after a drain, otherwise at the scheduled time and outside a turn begun before the last frame, with a new digest after the first backoff step once nothing is outstanding |
| DoorbellProgress.NewTargetRingsExact | link/conduit.go:1096-1111 | For another process it does if and only if the first backoff step has passed since the last attempt |
| DoorbellProgress.DroppedRingsExact | link/conduit.go:1253-1358 | With a dropped state it does if and only if the journals and the drain marker leave nothing to wait for: the delay of the undrained frames, or the backoff of a failed latest attempt |
| DoorbellProgress.AttemptLeaves | link/conduit.go:1199-1241 | An attempt is journalled with time, instance, number and result; a written frame is owed and the next one scheduled exactly one delay of all owed ahead, a failure one backoff ahead; sidecar and ring count follow |
| DoorbellProgress.RestoredCounts | link/conduit.go:1254-1334 | A rebuilt state goes on with the number of attempts and of rings for its queue |
| DoorbellSafety.LiveCountsAll | link/conduit.go:1299-1320 | The live count is never below what a replay of the journals would count |
| DoorbellSafety.RestorePatient | link/conduit.go:1253-1358 | A state rebuilt from sidecar, journals and drain marker owes at least as much patience as the dropped one |
| DoorbellSafety.ScanKeeps | link/conduit.go:1077-1251 | Every pass keeps the schedule invariant, whichever branch it takes |
| DoorbellSafety.UnownedScanExact | link/conduit.go:601-640 | A scan without a live owner keeps the promise if and only if a state is live or no frame is undrained |
| DoorbellSafety.EarlyFrame | link/conduit.go:601-640 | Concrete run: frame, restart, one scan while the owner is not seen, and a second frame for the same process two seconds later instead of ten minutes |
| DoorbellSafety.LaterSpaced | link/conduit.go:1112-1117 | A later drain never makes an earlier attempt too early |
| DoorbellSafety.NoneAfter | link/conduit.go:1112-1117 | A drain stamp that covers a frame's second covers all earlier frames |
| DoorbellSafety.ReplayCounts | link/conduit.go:1301-1321 | Replaying the journals counts exactly the undrained frames and finds the last of them |
| DoorbellSafety.DefaultsValid | link/conduit.go:268-274 | The default delays are positive and never shrink |
| Doorbell.RetryGrowsExact | link/conduit.go:268-295 | More outstanding frames never mean a shorter delay if and only if the configured schedule never shrinks; the defaults do not |
| Doorbell.NotifierState.SetSoonest | link/conduit.go:1104-1110 | The next attempt is now, or the first backoff step after the last attempt |
| Doorbell.NotifierState.Retarget | link/conduit.go:1096-1111 | Another process starts a new schedule |
| Doorbell.NotifierState.ReplayJournal | link/conduit.go:1301-1334 | One journal of the replay: a frame later than the last drain adds to the count and becomes the last one, any attempt sets the last attempt; equal to Replay, whose fold ReplayCounts characterises |
| Doorbell.NotifierState.HearDrain | link/conduit.go:1112-1118 | A fresh drain at or after the last frame's second clears the count and frees the next attempt; any other leaves the state alone |
| Doorbell.NotifierState.Record | link/conduit.go:1222-1241 | A written frame adds to the outstanding ones and sets the next attempt one retry delay ahead; a failure counts and sets it one backoff ahead |
| Doorbell.Notifier.WriteSidecar | link/ears.go:881-893 | The sidecar holds digest, rings and the second of the last frame |
| Doorbell.Notifier.ReadSidecar | link/conduit.go:1254-1267 | What a rebuilt state takes from the sidecar: the rings only if it is about the same digest |
| Doorbell.Notifier.ReplayJournals | link/conduit.go:1299-1334 | The loop folds the instance's journals and finds the last one |
| Doorbell.Notifier.ResumeSchedule | link/conduit.go:1342-1353 | The next attempt of a rebuilt state: one backoff after a failed latest attempt, one retry delay after the last undrained frame |
| Doorbell.Notifier.RestoreState | link/conduit.go:1253-1358 | State and sidecar are those of Restored, which RestorePatient shows at least as patient as the dropped state |
| Doorbell.Notifier.Aim | link/conduit.go:1087-1111 | Restores a dropped state, starts a new schedule for another process, keeps it otherwise: the function AimPatient and Invariant 5 speak about |
| Doorbell.Notifier.SeeDigest | link/conduit.go:1119-1134 | A new queue digest restarts the count of attempts but not the wait of outstanding frames |
| Doorbell.Notifier.Attempt | link/conduit.go:1146-1241 | Verification, the re-check before writing, the journal and the new schedule, in this order; every early exit leaves no journal |
| Doorbell.Notifier.MaybeNotify | link/conduit.go:1077-1251 | The whole pass is the step Notified of the transition system for which ScanKeeps and Invariant5 are proved |
| Doorbell.Notifier.ObserveQueueDigest | link/conduit.go:601-640 | An inbox without a live owner: the digest is noted, a dropped state becomes blank without replay; the step UnownedScanExact is about |
| Doorbell.Notifier.Forget | link/conduit.go:529-533 | An empty inbox drops the state |
| RelayRuns.NeverFatal | link/pump.go:188-368 | No run of two relay loops sending at once reaches INFLIGHT_LIMIT, UNEXPECTED_DATA, UNEXPECTED_RESPONSE, BAD_DATA or a response-id mismatch, and at most two responses ever wait, if no file exceeds its own side's limit |
| RelayRuns.DialogueKept | link/pump.go:516-560 | Per direction the frames keep to OFFER (ERROR, or HAVE STORED, or NEED DATA and STORED or ERROR), so every OFFER gets exactly one terminal STORED or ERROR before the next |
| RelayRuns.Balanced | link/pump.go:516-560 | In an unbroken dialogue offers and terminals differ by the one under way |
| RelayRuns.AlwaysFinishes | link/pump.go:372-407 | No deadlock: while anything is under way some protocol step is possible, and every protocol step leaves strictly less to do |
| RelayOversized.OversizedExact | link/pump.go:483-489 | In every state of two loops in step, whatever is under way or queued in either direction: considering a file is safe, that is no run that keeps to the limits afterwards is fatal, if and only if the file is not found too large |
| RelayOversized.ToldFails | link/pump.go:483-489 | From any such state an ERROR nobody asked for leads to a fatal end: some run brings the peer to take it for the answer to its own OFFER |
| RelayOversized.LargeFileEndsRelay | link/pump.go:483-489 | Such a run from a new link: B offers, A meets a large file, B gives up on its own and ends in UNEXPECTED_RESPONSE when A asks for it |
| RelaySafety.InStepKept | link/pump.go:203-313 | Every step of either side keeps both directions in step |
| RelaySafety.HeadObject | link/pump.go:203-292 | What an OFFER or DATA at the head of the stream says of its direction; DATA always matches its OFFER |
| RelayRuns.StepSaid | link/pump.go:372-407 | What a step writes about an object is the next move of its dialogue |
| RelayCopies.UnlinksOnlyHeld | link/install.go:594-605 | The relay unlinks a file only if the peer earlier held the same bytes at the same path; the HAVE, NEED, already-stored and reappeared-copy paths included |
| RelayCopies.NeverOverwrites | link/install.go:283-328 | What is at an immutable path stays what it is while it is there |
| RelayCopies.OnlyOwnFiles | link/install.go:149-332 | No step of one side touches the other side's files |
| RelayCopies.CopiesKept | link/pump.go:264-281 | Every step keeps: HAVE and STORED of any class but presence are told only of bytes held at that path, and what is known is backed by them |
| RelayCopies.ToldIsHeld | link/pump.go:544-572 | In every run: what a relay has told it stored or has, what the peer takes for known, and what it will not offer back, it did hold at that very path, byte for byte, presence files excepted |
| RelayCopies.HeldIsThere | link/install.go:283-305 | A content is held when it is put there, and by no other step |
| RelayCopies.InstallDecides | link/install.go:149-332 | The answer to DATA is STORED if and only if the bytes are those offered, neither too old nor too far ahead, and the path is free, holds them already, or is a presence file; EXPIRED and the conflict otherwise |
| RelayCopies.InstallStores | link/install.go:274-332 | After STORED the bytes are at the path, unless a newer presence file is; no other file changes, and after ERROR none |
| RelayProgress.FileArrives | link/pump.go:429-573 | From any quiet link an acceptable file gets to the peer: some run ends with the very bytes at its path, the transfer known and no more rejected at the sender, the source gone exactly if it is one that goes, and the link quiet again; over NEED and DATA or over HAVE |
| RelayProgress.ConflictRefused | link/install.go:306-328 | Where the path holds other bytes the peer keeps them and refuses; the sender keeps its file and remembers the refusal |
| RelayProgress.OffersExact | link/pump.go:429-525 | An idle sender offers a file if and only if its class is negotiated, it is not too large, too old or too far ahead, did not come from the peer, was not rejected and is not known |
| RelayProgress.ReappearedGoes | link/pump.go:494-508 | A known file that turns up again is unlinked if and only if it is one that goes |
| RelayProgress.AcceptsExact | link/pump.go:209-262 | An OFFER is accepted if and only if its class is negotiated, it fits, it is not expired and it belongs on this side of the link |
| RelayProgress.OneEndAccepts | link/install.go:39-86 | Of spool, stream and status files one end of a link accepts exactly those the other does not |
| RelayProgress.PingAnswered | link/pump.go:314-328 | A PING is answered with its own epoch, whatever is under way |
| RelayLoop.Loop.RefuseOffer | link/pump.go:209-262 | Why an OFFER is refused: version, size, destination, age |
| RelayLoop.Loop.ReadOffer | link/pump.go:203-291 | An OFFER is fatal while one is in hand, else refused, had or needed |
| RelayLoop.Loop.ReadData | link/pump.go:292-306 | DATA is fatal without its OFFER, else it starts the installer |
| RelayLoop.Loop.ReadLoopTurn | link/pump.go:188-368 | One frame read is the step OnFrame of the transition system for which NeverFatal is proved |
| RelayLoop.Loop.StoreHad | link/pump.go:270-275 | Exactly one STORED follows HAVE, for the same id |
| RelayLoop.Loop.RemoveTransit | link/install.go:596-605 | Unlinks only a file that still has the offered digest |
| RelayLoop.Loop.Settled | link/pump.go:494-508 | Skips a candidate of foreign origin, rejected or known, removing a reappeared disposable copy |
| RelayLoop.Loop.OfferCandidate | link/pump.go:429-525 | One candidate is the step Consider: not offered with the reason kept, or exactly one OFFER written and remembered as active |
| RelayLoop.Loop.WaitResponse | link/pump.go:591-613 | The next response, its id checked unless it is an ERROR |
| RelayLoop.Loop.MarkRejected | link/pump.go:668-672 | Remembers the rejected transfer and ends the attempt |
| RelayLoop.Loop.FirstResponse | link/pump.go:526-543 | ERROR rejects, HAVE skips DATA, NEED asks for it |
| RelayLoop.Loop.SendData | link/pump.go:537-540 | Writes DATA under the offered id |
| RelayLoop.Loop.SecondResponse | link/pump.go:544-554 | ERROR rejects, STORED completes |
| RelayLoop.Loop.FinishCandidate | link/pump.go:555-573 | Marks the transfer known and unlinks a disposable source |
| RelayLoop.Loop.ReceiveObject | link/install.go:149-332 | The install matrix: size and digest first, then the age rules, then presence replaced when it wins and an immutable path written once or compared |
| RelayLoop.Loop.InstallIncoming | link/pump.go:372-400 | The installer's answer: STORED for installed or already stored bytes, else ERROR; origins gain what was stored |
| RelayLoop.Loop.ReplyInstalled | link/pump.go:376-400 | Writes STORED or ERROR for the very OFFER in hand, and frees the hand |
| RelayLoop.OwnStretchInLink | link/pump.go:372-407 | A stretch of a loop's own code, as its methods ensure it, leaves the loop on a reachable link: not fatal, and at most two responses waiting |
| RelayLoop.ReaderTurnInLink | link/pump.go:188-368 | So does a turn of its reader on the peer's oldest frame |
| Lease.OneOwnerPerEpoch | link/runtime.go:992-1050 | In every run of a boot an epoch was ever owned by one instance only, and the conduit's rings, made on stale snapshots, carry epochs that never go back |
| Lease.ClaimantIsRung | link/runtime.go:992-1050 | In every reachable world a session that may own the lease, with no live owner in its way, gets as far as being rung, at an epoch not below the last |
| Lease.ClaimExact | link/runtime.go:1003-1046 | Without takeover a claimant becomes owner if and only if it may own a lease and has it already or nobody alive has it; with takeover it is refused if and only if it may not, or is not interactive against a live interactive owner |
| Lease.ClaimGrants | link/runtime.go:1003-1046 | Which epoch each grant has: kept on the owner's own claim, one up in this boot, after an older boot's instance or release the second, else the first; the lease is the claimant's record in full, let go by an owner that may own no longer, and otherwise unchanged |
| Lease.LiveOwnerExact | link/runtime.go:1057-1067 | A live owner is one of this boot, owned, registered and alive |
| Lease.ReleaseExact | link/runtime.go:1138-1165 | A release by the owner leaves the lease to nobody at its epoch; any other leaves it alone |
| Lease.HealExact | link/conduit.go:779-816 | A heal brings pid and start of the owner's record into the lease and so opens the gate for it, and does nothing for any other record |
| Lease.GateExact | link/ears.go:862-864 | The gate opens for a verified, ready record the lease agrees with in every point, and for no other |
| Lease.DisplacedIsFenced | link/runtime.go:992-1050 | An instance that lost the lease, to another or by release, passes the notify gate again only at a strictly larger epoch and only after a claim of its own |
| Lease.ClaimFences | link/runtime.go:1003-1046 | A claim never lowers the epoch, and changes the owner only with the epoch |
| Lease.LiveOwnerKept | link/runtime.go:1012-1036 | A claim without takeover never displaces a live owner, a non-interactive takeover never a live interactive one |
| Lease.OwnerMeansOwned | link/runtime.go:1038-1050 | A claim reports ownership exactly when the lease file then is the claimant's at the reported epoch |
| Lease.GateUnique | link/ears.go:862-864 | At most one registration passes the notify gate |
| Lease.RegisteredMayRing | link/runtime.go:847-862 | A registration just made passes the gate, once verified and ready, exactly if its claim made it the owner |
| Lease.StepKept | link/conduit.go:779-878 | Register, claim, epoch update, release, heal, reclaim and reap in any interleaving keep the fencing invariant |
| Lease.RegainedByClaim | link/runtime.go:1033-1046 | Only a claim by the instance itself makes it the owner again |
| Lease.Store.LiveLeaseOwner | link/runtime.go:1057-1067 | A registration is returned exactly if the lease of this boot is owned and its owner is registered and alive |
| Lease.Store.ClaimLease | link/runtime.go:992-1050 | Lease file and reply of every branch of a claim, those of the function ClaimFences, LiveOwnerKept and OwnerMeansOwned are proved about |
| Lease.Store.ReleaseLeaseOf | link/runtime.go:1138-1165 | Releases the lease exactly if the instance owns it |
| Lease.Store.HealLease | link/conduit.go:779-816 | Copies pid and start into the lease of the same instance, epoch and session |
| Lease.Store.RuntimeRegister | link/runtime.go:847-862 | Record, then claim, then the epoch into the record: the record carries the epoch the claim answered, and none if it was refused |
| Lease.Store.ReapDeadRegistrations | link/conduit.go:902-945 | Removes exactly the expired records that do not own the lease |
| SnapshotSafety.RoundTripExact | link/ears.go:136-283 | The printed snapshot parses if and only if its mailboxes are printable node names (or none is printable), its written identities have pairwise distinct safe names, and header, components, identities and trailer are at most 320 lines; and then as itself normalised: sorted, unsafe values as "-", and if cut the sorted prefix with "complete no" and the exact omitted count |
| SnapshotFaithful.PlainReadsBack | link/ears.go:136-283 | A well-formed snapshot that prints within 320 lines is read back as it was: every field, digests included, mailboxes and identities the same but in ascending order, and if cut, the beginning of that order with the exact number missing |
| SnapshotFaithful.SafeExact | link/ears.go:443-471 | A value of 1 to 64 letters, digits, dots, underscores, colons, pluses and dashes is printed as it is, and so is a digest of 64 hexadecimal digits; anything else as "-" |
| SnapshotReader.AcceptedIsSane | link/ears.go:136-283 | Whatever text the reader accepts, what it returns is well formed: the node asked for, values in their ranges, names once, nothing missing from a complete one |
| SnapshotReader.TokensExact | link/ears.go:345-354 | A list of tokens is read if and only if each is a key and a plain value, and no key comes twice |
| SnapshotReader.UnknownLineIgnored | link/ears.go:156-257 | An empty line, or one under a header the reader does not know, changes nothing of what is read, wherever it stands |
| SnapshotLimits.FormatsExact | link/ears.go:359-431 | The printer reports an error exactly for a bad header, an identity with values outside the format, a header line above 1,024 bytes, or a header that leaves no room for the trailer |
| SnapshotLimits.TwinsUnreadable | link/ears.go:232-243 | A snapshot that is printed and that no reader accepts: two identities with names above 64 characters, both printed as "-" |
| SnapshotSafety.TextParses | link/ears.go:356-431 | The same for any text of header, identities and trailer within the limits |
| SnapshotSafety.ParsePrinted | link/ears.go:136-170 | What the reader does with records that keep its limits |
| SnapshotSafety.Shape | link/ears.go:364-431 | The printed text is header, kept identities and trailer, and never above 98,304 bytes |
| SnapshotSafety.TextShort | link/ears.go:433-441 | No printed record is above 1,024 bytes |
| SnapshotLimits.CutLeavesOut | link/ears.go:404-431 | An incomplete snapshot leaves out at least one identity |
| SnapshotLimits.CutIsMaximal | link/ears.go:414-424 | The cut stops only at 256 identities or when the next record and its trailer would not fit |
| SnapshotLimits.IdentityRecordShort | link/ears.go:374-379 | No identity record is above 764 bytes, so the 1,024-byte error is unreachable |
| SnapshotLimits.SortedByName | link/ears.go:368-371 | Sorting orders by safe name and neither loses nor doubles an identity |
| SnapshotLimits.FittingStops | link/ears.go:414-424 | Where the cutting loop stops, and that what it wrote fits with its trailer |
| SnapshotText.IdentityParses | link/ears.go:295-343 | An identity record reads back as the identity with unsafe values as "-" |
| SnapshotText.ComponentParses | link/ears.go:285-293 | A component record reads back |
| SnapshotText.TokensParse | link/ears.go:345-354 | Key=value tokens with distinct keys read back under their keys |
| SnapshotRoundTrip.IdentitiesRead | link/ears.go:232-243 | Identity records are accepted exactly when no safe name repeats, and then in order |
| SnapshotRoundTrip.NewNamesExact | link/ears.go:232-243 | The reader's duplicate check says exactly that names are distinct |
| SnapshotRoundTrip.MailboxesExact | link/ears.go:215-227 | When the mailbox line is accepted, in terms of the configured names |
| SnapshotRoundTrip.UniqueAscends | link/ears.go:460-471 | Mailboxes are printed strictly ascending |
| SnapshotRoundTrip.HeaderReads | link/ears.go:156-231 | The header records read back |
| SnapshotRoundTrip.TrailerReads | link/ears.go:244-253 | The trailer reads back as the number left out |
| Snapshot.CutIdentities | link/ears.go:410-424 | The loop writes the longest prefix of the sorted identity records that fits, characterised by CutIsMaximal |
| Snapshot.ParseAll | link/ears.go:156-257 | The loop over the records accepts exactly the lists every record of which is accepted in turn |
| Snapshot.ParseListenerSnapshot | link/ears.go:136-283 | The reader: byte, line and record limits, the records, the closing checks; the function RoundTripExact is proved about |
| Text.DecParses | link/ears.go:500-506 | A printed count parses as itself |
| Text.FieldsOfJoin | link/ears.go:157-160 | Splitting at white space undoes joining with blanks |
| Text.SplitOfUnlines | link/ears.go:140-143 | Splitting at newlines undoes writing lines |
| Replica.PublishedRise | link/ears.go:613-629 | Published sequence numbers strictly rise across clock steps, crashes and boots while the node's own snapshot file survives |
| Replica.NextSnapshotSequence | link/ears.go:613-629 | The next number is above both records, not below the clock, and no larger than that needs; it fails exactly at the largest 64-bit number |
| Replica.AlwaysNewestExact | link/install.go:245-280 | Installers of one directory, relay processes and the puller, read the present file and later rename; in every interleaving, crashes included, the replica holds at every moment a newest of the copies dealt with if and only if no installer is overtaken: between its comparison and its rename another one renames a copy with a greater number |
| Replica.OlderOverNewer | bin/khala:2371-2395 | Such a run: the puller compares, the relay installs the newer copy, the puller's mv puts the older one over it |
| Replica.CompareDecides | link/install.go:245-273 | A higher copy is to be renamed, one with the number of another text to be set aside, and a lower one, the file's own text and what is no snapshot are done with |
| Replica.AsideIsConflict | link/install.go:261-269 | In every run what is set aside is a conflict: another text of the same number was the file |
| Replica.OneInstaller | link/install.go:245-280 | A single installer, or several that exclude each other, always holds the newest |
| Replica.NewestIfInTime | link/install.go:245-280 | While nobody is overtaken, every step of every installer keeps the newest copy |
| Replica.OrderIndependent | link/install.go:245-272 | If no number has two texts and nobody is overtaken, two replicas that have dealt with the same copies hold the same file, whatever the order, repetition, delay and interleaving |
| Replica.ConflictKeepsFirst | link/install.go:261-269 | Two texts with one number: the first stays, the other is set aside, so the order then matters |
| Replica.Directory.ReceiveSnapshot | link/install.go:245-280 | An install that nothing interrupts is its comparison followed by its file operation |
| Replica.Directory.CompareReceived | link/install.go:245-273 | The relay's matrix up to its rename is the step Compare: dropped, to be renamed, or to be set aside |
| Replica.Directory.ComparePulled | bin/khala:2362-2388 | The puller's matrix up to its mv is the same step |
| Replica.Directory.Settle | link/install.go:274-280 | The rename, or the move to quarantine, an installer has decided on |
| Replica.Directory.InstallPulled | bin/khala:2357-2399 | A pulled batch that nothing interrupts is its copies installed one after another |
| SessionStatus.CurrentIsGreatestEver | bin/khala:1293-1322 | Over any order, repetition and delay of copies, collector passes and crashes the current status is the greatest generation ever, with its first content, while no quarantine finds that one more than a day ahead, no sweep finds it expired, and no greater one arrives during a pass |
| SessionStatus.ArrivalDuringPassExact | bin/khala:3378-3404 | A copy that arrives while a pass is under way is safe if and only if it is not above the generation the pass has picked: installers do not take the pass's lock |
| SessionStatus.PassKeepsExactly | bin/khala:3353-3412 | After a whole pass, its steps taken over the files in any order, the greatest generation ever is the current one with its first content if and only if it is at most a day ahead and not past retention at a due sweep; far ahead, it gives way to a lower one |
| SessionStatus.PassLeaves | bin/khala:3378-3412 | Whatever the order of the files, a whole pass leaves what Pruned says: the greatest generation not far ahead, unless a due sweep finds it expired |
| SessionStatus.ArrivalLost | bin/khala:3399-3404 | A run from an empty shard that loses a generation: written, picked, a greater one arrives, and the pass removes it |
| SessionStatus.WrittenIsAboveExact | bin/khala:1341-1460 | The generation a writer chooses is above all of its shard when it is linked, whatever the clock says, if and only if no copy that is not below it arrived since the choice |
| SessionStatus.WrittenIsLeast | bin/khala:1354-1369 | The generation chosen is the least that is above all of the shard and not before the clock |
| SessionStatus.StepKept | bin/khala:1492-1550 | Every write, install and collector step keeps the greatest generation |
| SessionStatus.ShardFiles.CurrentGeneration | bin/khala:1293-1322 | The loop finds the greatest generation |
| SessionStatus.WrittenBelow | bin/khala:1354-1455 | Such a run from an empty shard: a greater generation arrives between the choice and the link, and the one written is not the current one |
| SessionStatus.ShardFiles.WriteGeneration | bin/khala:1341-1460 | Writes a generation above all present and not below the clock, if nothing arrives meanwhile |
| SessionStatus.ShardFiles.InstallPulled | bin/khala:1492-1550 | A copy is installed exactly if it is new, at most a day ahead and within retention; far ahead or differing it is quarantined |
| SessionStatus.ShardFiles.Prune | bin/khala:3353-3412 | The loops of the pass leave exactly what PassLeaves says of its steps |
| Codec.DecodeOfEncode | link/protocol.go:99-144 | Decoding undoes encoding, whatever bytes follow |
| Codec.EncodeOfDecode | link/protocol.go:117-137 | Nothing but the encoding decodes |
| Codec.BigEndianOfNumber | link/protocol.go:106-124 | Eight bytes and a 64-bit number determine each other |
| Codec.Encoder.U64 | link/protocol.go:106-110 | Appends the eight bytes of a number, high byte first, to what was there |
| Codec.Encoder.Str | link/protocol.go:101-104 | Appends length and bytes of a string |
| Codec.Decoder.U64 | link/protocol.go:117-124 | Takes the number its next eight bytes encode and advances past them, or reports that they are not there |
| Codec.Decoder.Str | link/protocol.go:126-137 | Takes the string length and bytes announce and advances past it, or reports that none is there |
| Codec.Decoder.Done | link/protocol.go:139-144 | True exactly when nothing trails |
| Frames.HelloFrame | link/protocol.go:155-164 | Every HELLO whose strings and numbers fit 64 bits gets a frame that carries its fields, in order and nothing else |
| Frames.DecodeHello | link/protocol.go:166-192 | Returns a HELLO exactly when the frame is the one written for it, and refuses only frames written for none |
| Frames.HelloOnce | link/protocol.go:166-192 | One frame, one HELLO |
| Frames.IdFrame | link/protocol.go:269-273 | HAVE, NEED and STORED carry their id and nothing else |
| Frames.DecodeID | link/protocol.go:275-282 | Returns an id exactly when the payload is the one written for it |
| Frames.DataFrame | link/protocol.go:284-289 | DATA carries its id and then the object up to the end of the payload |
| Frames.DecodeData | link/protocol.go:291-298 | Returns id and object exactly as written, and refuses only payloads written for none |
| Frames.DataOnce | link/protocol.go:291-298 | One payload, one id and object |
| Frames.EpochFrame | link/protocol.go:300-304 | PING and PONG carry their epoch in eight bytes and nothing else |
| Frames.DecodeEpoch | link/protocol.go:306-313 | Returns the epoch exactly as written, and refuses only payloads written for none |
| Frames.ErrorFrame | link/protocol.go:321-331 | ERROR carries code, text and the fatal flag as one number, in order and nothing else |
| Frames.DecodeError | link/protocol.go:333-352 | Returns an ERROR exactly when the payload is the one written for it; a flag above one is of none |
| Frames.ErrorOnce | link/protocol.go:333-352 | One payload, one ERROR |
| Wire.OfferFrame | link/protocol.go:205-220 | Writes an OFFER with the lower-case text of its digest |
| Wire.DecodeOffer | link/protocol.go:222-267 | Returns an OFFER exactly when the payload holds its fields, a text of its digest and the id of its object |
| Wire.OfferOnce | link/protocol.go:222-267 | One payload, one OFFER |
| Wire.PreimageInjective | link/protocol.go:354-378 | The bytes hashed for a transfer id determine the object and the digest |
| Wire.TransferIdInjective | link/protocol.go:354-378 | Under a collision-free hash a transfer id names one object with one content |
| Wire.UnhexOfHex | link/protocol.go:218-219 | The text of a digest decodes to it |
| WireLayout.HelloLayout | link/protocol.go:155-164 | The bytes of a HELLO: magic, major, minor, node, role, implementation, lengths and numbers in eight bytes, high byte first |
| WireLayout.OfferLayout | link/protocol.go:205-220 | The bytes of an OFFER, with the stream of a stream object and the session of a status object in their places |
| WireLayout.ErrorLayout | link/protocol.go:321-331 | The bytes of an ERROR: code, one if recoverable, text |
| WireLayout.FrameLayout | link/protocol.go:51-63 | The bytes of a frame: type, four bytes of length, high byte first, payload |
| WireLayout.HexLayout | link/protocol.go:218-219 | A digest is written in lower-case hexadecimal, high half first |
| WireLayout.PreimageLayout | link/protocol.go:354-378 | The bytes a transfer id is the hash of, with the NULs between them |
| FrameStream.StreamReadsBack | link/protocol.go:51-97 | Frames written one after another read back as that list, up to the first above the reader's limit |
| FrameStream.CutStreamIsPrefix | link/protocol.go:79-97 | Cut anywhere, the stream yields exactly the frames wholly there, in order, never another |
| FrameStream.WriteFull | link/protocol.go:65-77 | The loop over short writes: all of it, or a prefix and an error |
| FrameStream.WriteFrame | link/protocol.go:51-63 | Header and payload, or an error after a prefix |
| FrameStream.ReadFrameFrom | link/protocol.go:79-97 | Takes exactly the first frame off the stream if it is whole and within the limit of its kind, else none |
| Split.SplitMessage | link/gateway.go:1088-1126 | For a limit of at least 2 every piece has at most that many UTF-16 units, joining the pieces with nothing or one newline at each seam gives the text, and every seam had to be: a line begins a new piece only where it and its newline did not fit, and is cut only if it is too long for any piece and only before a rune that did not fit; a short text stays whole |
| Split.FittingLineUncut | link/gateway.go:1110-1113 | A line that fits into a piece is never cut |
| Split.Splitter.WriteRunes | link/gateway.go:1114-1121 | The runes of an over-long line: none dropped, every piece filled until the next rune does not fit |
| Split.Splitter.BreakLine | link/gateway.go:1101-1108 | A newline is kept if it and the line still fit, else it ends the piece at a due seam and is dropped |
| Split.LinesJoin | link/gateway.go:1101-1101 | The lines joined by newlines are the text |
| Split.LinesWhole | link/gateway.go:1101-1101 | And no line holds a newline |
| Split.LengthIsUtf16 | link/gateway.go:1077-1083 | The length that is limited is the number of UTF-16 units, surrogate pairs counted as two |
| Budget.Window.TryTake | link/gateway.go:158-180 | Grants only while every window of the whole history holds at most the limit; a refusal says by a positive delay when the oldest grant runs out |
| Budget.Window.Forget | link/gateway.go:162-168 | The in-place filter keeps exactly the recent stamps, in order |
| Budget.Window.GiveBack | link/triage.go:431-441 | Giving the last reservation back restores the budget before it |
| Budget.FilterKeeps | link/triage.go:447-456 | Filtering by the clock keeps exactly the grants that still count, although the rest of the history is forgotten |
| Budget.GrantKeepsWithin | link/triage.go:456-465 | A grant with room keeps every window within the limit |
| Budget.DelaySuffices | link/gateway.go:173-178 | After the delay there is room, if nobody else was granted |
| PostQueue.PostedOnce | link/gateway.go:924-942 | In every interleaving of the scan and send loops a khala Id is queued or being posted at most once at a time, is acknowledged only after its post succeeded, and is enqueued again only if its post or acknowledgement failed or the gateway restarted |
| PostQueue.LetterIsPosted | link/gateway.go:924-1032 | The other half: from a resting gateway an unread letter that no hold is on can be posted and acknowledged; it is then read, its history queue, post, acknowledgement, and the gateway rests |
| PostQueue.FailedIsRetried | link/gateway.go:1014-1032 | A letter whose post failed stays unread and is busy exactly until its hold runs out |
| PostQueue.ScanRelaysExact | link/gateway.go:931-942 | The scan relays a listed Id if and only if it is not queued, being posted or held, and still unread |
| PostQueue.InflightExact | link/gateway.go:117-129 | Busy is what is queued or being posted, and what failed and is still held; a hold that has run out is forgotten |
| PostQueue.StepKept | link/gateway.go:1014-1032 | Every step of either loop keeps each Id's history in order |
| PostQueue.OutQueue.Enqueue | link/gateway.go:68-79 | Queues an item and marks it in flight |
| PostQueue.OutQueue.PopItem | link/gateway.go:81-90 | Takes the first item |
| PostQueue.OutQueue.PutBack | link/gateway.go:92-96 | Puts it back in front |
| PostQueue.OutQueue.IsBusy | link/gateway.go:117-129 | Queued, being posted, or held after a failure; a hold that ran out is forgotten |
| PostQueue.OutQueue.ScanOne | link/gateway.go:931-939 | Asks whether an Id is in flight before it looks for its file; exactly the two steps of the scan in that order |
| PostQueue.OutQueue.Deliver | link/gateway.go:1014-1032 | Post, acknowledge, let go; or hold and let go |
| ParentNotice.AtMostOneNoticePerLetter | link/parent.go:134-178 | With the record kept as text and read back as far as the reader reads: in every run whose records are within one mebibyte a letter announced and still unread is always covered, also after a restart, and notices never outnumber letters, but for crashes between queueing and recording |
| ParentNotice.RestartKeepsExact | link/parent.go:104-132 | A restart after a notice keeps what is covered if and only if the record is within the limit |
| ParentNotice.LargeRecordRepeats | link/parent.go:104-132 | A run from a new notifier in which a restarted conduit sends a second notice although no letter is new: for any letters whose record is too large |
| ParentNotice.ManyIdsTooLarge | link/parent.go:113-113 | Twenty thousand Ids of at least 61 characters are such letters |
| ParentNotice.GraceObserved | link/parent.go:208-222 | A notice is queued only after every scan for the grace period found the identity waiting |
| ParentNotice.ScanLeaves | link/parent.go:208-242 | What each outcome of a scan leaves: a notice covers and records just the letters of the scan, a failure and a running grace period leave the wait as it began, and nothing is waited for where nothing waits |
| ParentNotice.OtherLettersOtherId | link/parent.go:254-265 | Equal notice Ids come from the same letters |
| ParentNotice.SameLettersSameId | link/parent.go:254-265 | The same letters in any order, at any time, give the same notice Id |
| ParentNotice.NewestIsMax | link/parent.go:221-227 | The time part of the Id is the newest arrival |
| ParentNotice.RecordReadBackExact | link/parent.go:100-132 | The Ids read back are those written if and only if the record without its last newline is within one mebibyte; otherwise a letter is missing |
| ParentNotice.Notifier.ReadParentNoticed | link/parent.go:104-122 | The loop over the lines of the record, as far as it is read |
| ParentNotice.Notifier.WriteParentNoticed | link/parent.go:125-132 | The loop writes the header and one line for each letter |
| ParentNotice.Notifier.HasUncovered | link/parent.go:190-197 | True exactly when some letter is not covered |
| ParentNotice.Notifier.NoticeParent | link/parent.go:141-178 | One scan is a step of the transition system; it sends exactly if the identity has waited for the grace period and the notice can be queued |
| ParentNotice.Notifier.MaybeNotice | link/parent.go:208-242 | Quiet exactly within the grace period, failed exactly if queueing fails; a notice that is queued and recorded covers exactly the letters of the scan and restarts the wait, a failed one leaves all but the waiting time alone |

## Left out

Throughout:

- File watching, timers, ssh and rsync processes, sockets, lock files, service managers, installers, plugins, the Telegram client and the dashboard: input and output only.
- File-system failures other than a crash, and the reclaiming of stale locks: locks exclude, and writes, links and renames succeed and are atomic.
- Texts of log lines, errors and notices.

Mail:

- Messages of `type operator`, and at-most-once for notices, whose lifetime is not capped at 59 days.
- Infrastructure Ids are 32-bit checksums in the code; the model gives an acknowledgement or bounce one file per original and recipient, so collisions are not captured.
- Parsing of message headers, and the quarantine of spool files that do not parse.
- MailNode.Khala.PruneMessageArchives: which files are old enough is the set `aged` of the environment; the code compares modification times.
- MailNode.Khala.PruneArchived: the same set `aged`.
- MailNode.Khala.ReconcileCycle: the watchdogs, the infrastructure messages, the alerts and the stream and status sweeps of the cycle are not in it.
- MailNode.Khala.CmdSend: the copy into the spool always succeeds; in the code it may fail, and the next cycle makes up for it (`ReconcileCycle` ensures that every waiting message is in the spool).

Doorbell:

- When a queue was first seen (reporting only), a crash between writing a frame and journalling it, and journals of other boots.
- Doorbell.Notifier.ReplayJournals: the journals are given in time order; the code sorts them.
- Runs under a configured retry schedule that shrinks, which the code accepts: RetryGrowsExact says that such a schedule lets the delay fall.

Relay:

- HELLO, version negotiation, PING and PONG, BYE; a fatal error is a flag.
- Name validity of destinations, the recognition of acknowledgements and bounces that fire a pass, the age of presence and stream files: choices of the environment.
- RelayLoop.Loop.ReceiveObject: what the clock says of an epoch and whether a presence file wins are flags of the environment.
- RelayLoop.Loop.RemoveTransit: the digest check and the unlink are one step; in the code another process may replace the file in between.

Lease:

- Lease.Store.ReapDeadRegistrations: which records are expired is given by the environment.
- One identity at a time; process liveness and the matching of sessions to processes are choices of the environment.
- Which of several candidates a reclaim prefers, and the wrap-around of the 64-bit epoch.

Snapshots and replicas:

- White space other than ASCII, the order among identities of equal safe names, and which of several errors a reader reports.
- Removal of a replica's file by other means than its installers.
- The number of a replica is a parameter; the puller reads up to 18 digits and the relay 64-bit numbers. The pruning of set-aside conflicts to eight files.
- `.watcher` files, whose result depends on the order of equal epochs.
- What a session status file says, and where refused copies go.

Wire:

- SHA-256 is a parameter; where a theorem needs it, it is injective.
- Wire.DecodeOffer: an OFFER whose digest text has upper-case digits is accepted, but re-encodes in lower case.

Gateway and notices:

- Split.SplitMessage: the limit is at least 2, as a code point may take two units; the code passes 4,096.
- Chat topics, documents and captions, items that are no khala mail, and the posting of a long message piece by piece, which counts as one post here.
- Prompts and judgments of the triage engine; only its budget is modelled.
- ParentNotice.Notifier.NoticeParent: queueing a notice succeeds, fails or crashes as one choice of the environment.
- The filter of valid names when the record of announced letters is read, and the 64 KiB limit on its lines.
- Bounded draining of streams, which may pass over an entry that does not fit.
