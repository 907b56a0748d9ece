# News-trading backend and execution agents: verified model

The backend schedules trade jobs for news releases and runs an automatic breakout strategy. Jobs are carried out by a
cTrader worker in the backend, by an MT5 expert advisor that polls a text protocol, and by a cTrader cBot that speaks
JSON over a hand-written WebSocket gateway. This project models the parts in which many steps interact and proves what
each part is for:

| file | what it models |
|---|---|
| `Frames.dfy`, `Framing.dfy`, `Gateway.dfy` | the WebSocket gateway: the incremental frame decoder, the encoder against sections 5.2 and 5.3 of RFC 6455, the connection object and its rate window |
| `Cluster.dfy` | any number of cTrader workers sharing jobs through leases: exclusion, crash-safe submission, the position cap |
| `Reversal.dfy`, `NewsReversal.dfy`, `ProtectionSync.dfy` | NEWS_REVERSAL in the worker: the volume split, the one reversal under interleaved fills and syncs, one protection sync |
| `Connector.dfy`, `ConnectorBaskets.dfy`, `ConnectorLabels.dfy`, `ConnectorOverrun.dfy` | NEWS_REVERSAL in the cBot connector, whose handlers may interrupt one another at every broker call: attempts, baskets, labels, and what interruptions lead to |
| `Ledger.dfy` | the MT5 agent's write-ahead ledger, with crashes between any two effects |
| `Wire.dfy` | the line protocol printed by the backend and parsed by the MT5 agent |
| `JobState.dfy`, `ReportOverlap.dfy` | the job status table under duplicated and reordered reports, on both report paths, handled one at a time and at the same time |
| `WaveMath.dfy`, `Mirror.dfy` | Strategy V4's candle arithmetic and its mirror symmetry |
| `Strategy.dfy`, `Probe.dfy`, `ProbeProperties.dfy` | Strategy V4's evaluation, positions and candidates, and what holds over every run |
| `Basics.dfy` | shared types |

Two styles are used. Code that updates an object in place is a class whose methods are proved against a function of
the old state (`Gateway.WsConnection`, `ReportRuns.JobRow`, `LedgerFile.Ledger`, `ProtectionSync.Desk`,
`ProbeStrategy.Service`); what the source promises is then proved about that function over whole runs. Where other code
can run in the middle of a handler (workers, fill events, crashes, nested callbacks, requests handled at once), the
handler is cut at those places and the component is a machine `Do(state, action)` with `Run` over lists of actions; statements range over every such
list. Prices are exact `real` numbers, times are integer milliseconds. The database, the broker and the clock are part of
the state or appear as parameters of actions.

## What the proofs found

- A closed WebSocket connection is not absorbing: a rejected header stays in the buffer and every later chunk calls
  `close` again (`RejectionRepeats`), and after any other close the bytes behind the closing frame stay
  (`CloseLeavesRest`) and are decoded with the next chunk as if nothing had happened (`DeliveredAfterClose`). Chunk
  invariance is therefore stated up to the first close. What still arrives is handed to the request handler while the
  window has room (`StillHandledAfterClose`, `ServedAfterClose`), though no answer goes out on an ended socket
  (`SilentAfterClose`).
- The request limit of 300 per window admits 600 requests in an unlucky minute (`TwoWindowsInAMinute`), and never more
  (`AnyMinuteBounded`).
- A second worker takes over a job that is still held exactly when it claims an expired or missing lease
  (`SecondHolderExactly`); a worker silent for one lease breaks exclusion (`SilenceBreaksExclusion`), and a connection
  lost while `start` is placing orders gives the lease away early (`ReleasedWhileStarting`).
- Reports handled one at a time change a status at most six times, and six is reached (`RunsEnd`, `AgentRunsEnd`,
  `SixChanges`). The cBot path uses up the key of a CLOSED report that came too early, so its retry is lost, where the
  MT5 path accepts it (`EarlyCloseIsLost`). The two paths give the same status all along if and only if no such report
  arrives (`PathsAgreeExactly`).
- Neither report path is safe against reports handled at the same time: the decision is made on a status read earlier and
  the write is unconditional. FILLED can become SUBMITTED and CLOSED can become FILLED (`FilledBecomesSubmitted`,
  `ClosedBecomesFilled`). `AgainstTableExactly` says which commits do such a thing, and runs without a stale commit leave
  what handling the reports one after the other would leave (`TimelyRunsAreSerial`).
- The text protocol is a faithful round trip exactly when no unsanitized field, the idempotency key among them, contains
  a separator (`RoundTrip`).
- The "fixed" reversal price is fixed when all initial fills have the same price (`ReversalPriceFixed`); any two different
  fill prices have a run in which it moves (`UnequalFillsMoveThePrice`).
- The connector's limit of three reversal attempts can be exceeded, by at most one attempt for each handler that starts
  while another is cancelling or closing orders (`AttemptsBounded`; with none, three and twenty-seven orders). Which steps
  start an attempt is said for every action in every state (`AttemptExactly`): neither the timer's retry nor a fill
  handler that has finished its cancels looks at the number of attempts. A fourth attempt follows from a fill reported
  while the third basket is taken back (`FillDuringRollback`), from the timer passing meanwhile (`TickDuringRollback`), or
  from two fills of which one is reported during the cancels of the other, without any rollback being interrupted
  (`FillDuringCancels`).
- However its handlers interrupt one another, the connector at rest has orders or positions of a basket only if that
  basket was accepted whole (`AllOrNothing`). But a fill reported while its rejected initial basket is taken back, or
  later, starts a reversal (`StrayBeginsExactly`), and the job can end with it (`RejectedBasketLeaks`). Without such a
  fill a rejected job has no exposure at all (`RejectedLeavesNothing`).
- The connector's live orders can repeat a label: an attempt can begin while an order of the last one is live, because
  its basket is still being taken back (`OverlapRepeatsALabel`) or because a cancel failed
  (`FailedCancelRepeatsALabel`). That is the only cause. Along a run the labels are distinct, and stay so when three more
  orders are accepted, if and only if no attempt begins over a live reversal (`LabelsDistinctExactly`).
- A stored volume has four decimals of a lot. With at most ten thousand units to the lot every volume comes back
  (`VolumeSurvives`); with a multiple of that, exactly the multiples of what the last decimal stands for
  (`VolumeSurvivesExactly`).
- Strategy V4 treats rising and falling markets alike except that a breakout while both averages are equal is always read
  as rising (`DecisionMirrorsExactly` says exactly when the decision is mirrored).
- The cost of writing ahead: a crash between the ledger entry and the order loses the MT5 trade for good
  (`CrashAfterLogging`).

## Where documentation and code differ

The model follows the code.

- docs/DEPLOYMENT_RU.md:642-644 promises that the reversal entry does not move after a target is reached. The code takes
  the entry of whichever filled leg is listed first, so it moves between legs that filled at different prices.
- src/ctrader/news-reversal-volume.ts:8 speaks of preserving the requested total. The code preserves the request rounded
  down to the broker step, and in FULL_EACH mode every leg carries it.
- src/cbot/cbot.service.ts:189-190 promises that a report never downgrades a more advanced job. The transaction writes
  whatever was decided from the status read before it.
- ctrader/cbots/TradeTmConnector/TradeTmConnector.cs:40 names a maximum of three reversal placements; it is compared only
  after an attempt has failed, never before one starts.

## Model

| member | source | states |
|---|---|---|
| Octets.BigEndianInverse | src/cbot/cbot-websocket.gateway.ts:168-169 | writing a length big-endian and reading it back is the identity for every width |
| Octets.MaskTwice | src/cbot/cbot-websocket.gateway.ts:90 | masking with the same four-byte key twice restores the payload |
| ChunkInvariance.ParseFrameAppend | src/cbot/cbot-websocket.gateway.ts:68-92 | a decoding step that did not ask for more bytes is not changed by appending bytes |
| ChunkInvariance.ConsumeAppend | src/cbot/cbot-websocket.gateway.ts:67-106 | consuming a longer buffer is consuming the shorter one and then going on with what was left, unless it closed |
| ChunkInvariance.ConsumeEvents | src/cbot/cbot-websocket.gateway.ts:67-106 | one call reports a close only as its last event, and without one it stops because it needs more bytes |
| ChunkInvariance.RunIsConsume | src/cbot/cbot-websocket.gateway.ts:47-106 | feeding chunks one by one gives, up to the first close, what one call on all bytes gives |
| ChunkInvariance.CutsAgree | src/cbot/cbot-websocket.gateway.ts:47-106 | any two ways of cutting a byte stream give the same messages, pongs and first close, and the same buffer and fragments when nothing closes |
| ChunkInvariance.RejectionRepeats | src/cbot/cbot-websocket.gateway.ts:82-85 | a rejected header is never removed: each later chunk leads to another close with the same code |
| ChunkInvariance.CloseLeavesRest | src/cbot/cbot-websocket.gateway.ts:82-105 | when a call ends: a rejected header is still at the head of the buffer, and after a frame that closes exactly the bytes behind it stay |
| ChunkInvariance.WaitBounded | src/cbot/cbot-websocket.gateway.ts:68-86 | a buffer that waits for more holds fewer than 1,048,576 + 14 bytes |
| ChunkInvariance.ConsumeBounded | src/cbot/cbot-websocket.gateway.ts:67-106 | one call that does not close leaves a bounded buffer and at most 1,048,576 bytes of fragments |
| ChunkInvariance.RunBounded | src/cbot/cbot-websocket.gateway.ts:47-106 | the same bounds hold for an open connection after any chunks at all |
| Rfc6455.LengthFieldRead | src/cbot/cbot-websocket.gateway.ts:74-84 | each of the three length encodings is read back as the length and mask bit written |
| Encoder.SendFrameDecodes | src/cbot/cbot-websocket.gateway.ts:164-171 | a frame written by the gateway decodes under section 5.2 of RFC 6455 to the same opcode and payload, at every length, whatever follows it |
| Encoder.SendAllDecodes | src/cbot/cbot-websocket.gateway.ts:164-171 | a whole outgoing stream decodes to exactly the frames sent, in order |
| FramingRoundTrip.ParseClientFrame | src/cbot/cbot-websocket.gateway.ts:68-90 | the decoder recovers any masked client frame and leaves the bytes after it |
| FramingRoundTrip.Conversation | src/cbot/cbot-websocket.gateway.ts:67-106 | from the middle of any message, the rest of the stream delivers the remaining messages and answers the pings |
| FramingRoundTrip.DeliveredInOrder | src/cbot/cbot-websocket.gateway.ts:47-106 | any messages of at most 1 MiB, in any fragments, masks, chunks and with pings between, arrive whole and in order, and the connection ends empty and open |
| FramingRoundTrip.DeliveredAfterClose | src/cbot/cbot-websocket.gateway.ts:92-104 | after a frame that closes a connection between messages, any conversation that begins behind it in the same chunk and goes on in later ones is delivered whole and in order, its pings included |
| RateWindow.WithinBound | src/cbot/cbot-websocket.gateway.ts:108-111 | how many requests are admitted inside a minute, by where the window stands |
| RateWindow.AnyMinuteBounded | src/cbot/cbot-websocket.gateway.ts:108-111 | no minute, wherever it starts, admits more than 600 requests |
| RateWindow.TwoWindowsInAMinute | src/cbot/cbot-websocket.gateway.ts:108-111 | some minute admits 600 requests |
| Gateway.WsConnection.constructor | src/cbot/cbot-websocket.gateway.ts:42-44 | a new connection holds the upgrade head and an empty window |
| Gateway.WsConnection.Send | src/cbot/cbot-websocket.gateway.ts:164-171 | what is written to the socket, and nothing once it is destroyed or ended |
| Gateway.WsConnection.Close | src/cbot/cbot-websocket.gateway.ts:173-177 | the close frame is written, the socket ended and the connection unregistered |
| Gateway.WsConnection.Handle | src/cbot/cbot-websocket.gateway.ts:108-111 | a message is admitted by the window or the connection is closed |
| Gateway.WsConnection.CutPayload | src/cbot/cbot-websocket.gateway.ts:87-90 | the copied and unmasked payload and the remaining buffer are the decoder's cut |
| Gateway.WsConnection.TakeFrame | src/cbot/cbot-websocket.gateway.ts:68-90 | the buffer loses exactly the frame that was decoded |
| Gateway.WsConnection.Dispatch | src/cbot/cbot-websocket.gateway.ts:92-104 | fragments, replies and messages change as the decoder's reaction to one frame says |
| Gateway.WsConnection.Step | src/cbot/cbot-websocket.gateway.ts:68-105 | one turn of the loop advances the decoder by one frame |
| Gateway.WsConnection.Consume | src/cbot/cbot-websocket.gateway.ts:67-106 | the loop leaves the state and performs the events that the decoder specifies |
| Gateway.WsConnection.Receive | src/cbot/cbot-websocket.gateway.ts:47 | one data event is one feed of the decoder |
| Gateway.UnmaskInPlace | src/cbot/cbot-websocket.gateway.ts:90 | the XOR loop turns the array into the masked sequence |
| Gateway.SilentAfterClose | src/cbot/cbot-websocket.gateway.ts:173-177 | whatever is decoded after a close, nothing more is written, as the ended socket takes no more bytes |
| Gateway.StillHandledAfterClose | src/cbot/cbot-websocket.gateway.ts:101-111 | all texts decoded after a close are handed to the request handler in order, while the window has room |
| Gateway.ServedAfterClose | src/cbot/cbot-websocket.gateway.ts:92-111 | a closing frame and any conversation behind it, as bytes: its messages reach the request handler in order, and after the close frame nothing is written |
| LeaseExclusion.OneHolder | src/ctrader/ctrader-execution.service.ts:81-119 | while leases are renewed before they expire, no job is ever held by two workers, and its row names the holder or nobody |
| LeaseExclusion.LeaseIsFenced | src/ctrader/ctrader-execution.service.ts:602-706 | owner and expiry change only by claiming a lapsed lease, by the owner, or when the job ends |
| LeaseExclusion.SecondHolderExactly | src/ctrader/ctrader-execution.service.ts:96-108 | a step creates a second holder if and only if it is a claim of a held job whose lease is missing or over |
| LeaseExclusion.SilenceBreaksExclusion | src/ctrader/ctrader-execution.service.ts:103-108 | a worker that does not renew for one lease ends up sharing its job |
| LeaseExclusion.ReleasedWhileStarting | src/ctrader/ctrader-execution.service.ts:205-210 | a connection lost while start is placing orders releases the lease of a job that stays in startingJobs |
| CrashSafety.ReconcileKeeps | src/ctrader/ctrader-execution.service.ts:140-172 | after reconciliation a worker places only where no order or position of the job exists |
| CrashSafety.NoTwinOrders | src/ctrader/ctrader-execution.service.ts:140-298 | over every timely run with crashes anywhere, no two live entries at the broker carry the same initial label |
| PositionCap.CheckCounts | src/ctrader/ctrader-execution.service.ts:708-726 | the check counts at least every position of every job of the user that passed before |
| PositionCap.CapHolds | src/ctrader/ctrader-execution.service.ts:98-107 | in every reachable state of every interleaving, the planned positions of a user's active jobs that passed the check are within the limit |
| ReversalVolume.SplitConserves | src/ctrader/news-reversal-volume.ts:22-37 | split legs are positive multiples of the step, at most one step apart, larger last, and add up to the request rounded down |
| ReversalVolume.FullConserves | src/ctrader/news-reversal-volume.ts:22-27 | full legs each carry the request rounded down and add up to the total |
| ReversalVolume.RefusedExactly | src/ctrader/news-reversal-volume.ts:15-31 | a request is refused if and only if an argument is invalid or it is below one step per leg |
| ReversalPlan.TargetsAfter | src/ctrader/news-reversal-state.ts:3-7 | a prefix of the targets, one shorter for each closed one, and an error exactly for an impossible count |
| ReversalPlan.FixedPrice | src/ctrader/news-reversal-state.ts:9-19 | a price beyond the stop on the losing side by exactly the gap, and an error exactly when a distance is not positive |
| ReversalPlan.VolumeSurvives | src/ctrader/ctrader-execution.service.ts:430 | with at most ten thousand units to the lot, a broker volume stored as lots of four decimals comes back unchanged |
| ReversalPlan.VolumeSurvivesExactly | prisma/schema.prisma:754 | with a multiple of ten thousand units to the lot, it does if and only if the volume is a multiple of a ten-thousandth of a lot |
| OneReversal.AtMostOneReversal | src/ctrader/ctrader-execution.service.ts:350-457 | in every interleaving of fills, late writes and stale syncs: at most one reversal, all reversal legs against the first recorded fill, and the active direction flips exactly with the count |
| OneReversal.ReversalPriceFixed | src/ctrader/ctrader-execution.service.ts:423-425 | with equal initial fill prices every reversal leg of every sync has one price |
| OneReversal.UnequalFillsMoveThePrice | src/ctrader/ctrader-execution.service.ts:359-425 | for any two different fill prices there is a run with two reversal prices |
| ProtectionSync.Desk.CancelSubmitted | src/ctrader/ctrader-execution.service.ts:468-477 | exactly the chosen submitted legs become cancelled; all of them leave no order pending |
| ProtectionSync.Desk.CloseWrongSide | src/ctrader/ctrader-execution.service.ts:479-486 | exactly the filled legs of the wrong side become closed and their positions are gone |
| ProtectionSync.Desk.PlaceReversal | src/ctrader/ctrader-execution.service.ts:434-455 | one leg is planned, placed, reported and linked to its order, and no other leg or order changes |
| ProtectionSync.Desk.Quieten | src/ctrader/ctrader-execution.service.ts:413-419 | nothing stays pending, no initial leg stays open on the other side, and the protected legs are untouched |
| ProtectionSync.Desk.PlaceAll | src/ctrader/ctrader-execution.service.ts:428-456 | exactly one submitted mirror leg per source leg, with its volume, stop and target, and one price |
| ProtectionSync.Desk.Protect | src/ctrader/ctrader-execution.service.ts:406-456 | after a sync the submitted legs are exactly one opposite leg for each leg still filled, with the same stored volume and one common price; without stop or gap nothing is placed |
| ProtectionSync.Desk.ClearStale | src/ctrader/ctrader-execution.service.ts:400-405 | after a reversal no initial leg is pending and nothing on the other side is open, and every other leg is as before |
| ProtectionSync.Desk.Sync | src/ctrader/ctrader-execution.service.ts:393-466 | which branch a sync takes, and what each leaves pending, submitted and in the job row, and the phases reported: one submission for each leg placed, then the outcome |
| ConnectorBounds.OrdersCounted | ctrader/cbots/TradeTmConnector/TradeTmConnector.cs:415-462 | in every run, however handlers interrupt one another: at most three initial attempts, and never more entry orders than six for each of them and three for each reversal attempt |
| ConnectorBounds.AttemptExactly | ctrader/cbots/TradeTmConnector/TradeTmConnector.cs:558-644 | for every action in every state: the step makes one more reversal attempt if and only if it is a retry or a finished fill handler that nothing stops |
| ConnectorBounds.AttemptsBounded | ctrader/cbots/TradeTmConnector/TradeTmConnector.cs:558-644 | in every run: at most three reversal attempts and twenty-seven entry orders, and one attempt of three orders more for each handler started during a cancel or close |
| ConnectorBaskets.TakenBackWhole | ctrader/cbots/TradeTmConnector/TradeTmConnector.cs:705-719 | a finished rollback leaves no order or position of its kind of basket, unless one was accepted whole meanwhile |
| ConnectorBaskets.AcceptedWhole | ctrader/cbots/TradeTmConnector/TradeTmConnector.cs:449-471 | a basket is recorded as accepted only by the handler that placed it and only when every order was accepted |
| ConnectorBaskets.AllOrNothing | ctrader/cbots/TradeTmConnector/TradeTmConnector.cs:449-614 | when cancels and closes take effect, a job at rest has orders or positions of a basket only if that basket was accepted whole, and none at all if neither was, however handlers interrupt one another |
| ConnectorBaskets.StrayBeginsExactly | ctrader/cbots/TradeTmConnector/TradeTmConnector.cs:522-565 | without an accepted initial basket, a step starts a reversal handler if and only if it reports a fill of a basket that is given up and no check of the handler stops it |
| ConnectorBaskets.RejectedLeavesNothing | ctrader/cbots/TradeTmConnector/TradeTmConnector.cs:441-467 | without such a fill, a job whose initial basket was not accepted has no order and no position at all at rest |
| ConnectorBaskets.LeftoverIsReversal | ctrader/cbots/TradeTmConnector/TradeTmConnector.cs:441-614 | what such a job can have at rest is a reversal accepted whole, and nothing else |
| ConnectorLabels.StepFits | ctrader/cbots/TradeTmConnector/TradeTmConnector.cs:499-644 | every step, except one that begins a reversal attempt over a live reversal order or position, keeps labels distinct and in their places |
| ConnectorLabels.OverBreaks | ctrader/cbots/TradeTmConnector/TradeTmConnector.cs:567-589 | an attempt begun over a live reversal leaves that reversal on the side of its own trigger, or repeats one of its labels once the basket is accepted |
| ConnectorLabels.LabelsDistinct | ctrader/cbots/TradeTmConnector/TradeTmConnector.cs:499-644 | in every run in which no attempt begins over a live reversal, no two live orders or positions of a job share a label, and all of a reversal are opposite to the fill that triggered the latest attempt |
| ConnectorLabels.LabelsDistinctExactly | ctrader/cbots/TradeTmConnector/TradeTmConnector.cs:499-644 | along every run the labels are distinct, and stay so when three more orders are accepted, if and only if no attempt of the run begins over a live reversal |
| ConnectorLabels.SeparateNeverOver | ctrader/cbots/TradeTmConnector/TradeTmConnector.cs:602-644 | no attempt does when cancels and closes take effect and no handler starts while a reversal basket is taken back |
| ConnectorOverrun.FillDuringRollback | ctrader/cbots/TradeTmConnector/TradeTmConnector.cs:558-622 | one fill reported while the third basket is taken back leads to a fourth attempt |
| ConnectorOverrun.TickDuringRollback | ctrader/cbots/TradeTmConnector/TradeTmConnector.cs:639-644 | so does one timer pass meanwhile |
| ConnectorOverrun.FillDuringCancels | ctrader/cbots/TradeTmConnector/TradeTmConnector.cs:558-570 | so does one fill reported during the cancels of another, although no rollback is interrupted |
| ConnectorOverrun.OverlapRepeatsALabel | ctrader/cbots/TradeTmConnector/TradeTmConnector.cs:558-637 | a basket placed while another is taken back repeats the label of a live order |
| ConnectorOverrun.FailedCancelRepeatsALabel | ctrader/cbots/TradeTmConnector/TradeTmConnector.cs:639-719 | without any interruption, a failed cancel in a rollback lets the retry repeat the label of a live order |
| ConnectorOverrun.RejectedBasketLeaks | ctrader/cbots/TradeTmConnector/TradeTmConnector.cs:441-467 | a job whose initial basket was refused for good is concluded with a live reversal |
| LedgerFile.Ledger.Contains | mt5/Experts/NewsTraderAgent.mq5:1306-1317 | true exactly for a recorded id |
| LedgerFile.Ledger.Append | mt5/Experts/NewsTraderAgent.mq5:1319-1328 | one line more, or nothing when the file cannot be opened |
| Mt5Agent.StepKeeps | mt5/Experts/NewsTraderAgent.mq5:200-258 | every poll, tick, event and crash keeps that only recorded jobs were sent and no leg twice |
| Mt5Agent.AtMostOneEntry | mt5/Experts/NewsTraderAgent.mq5:260-559 | over any run with crashes: one MARKET entry per job, one STRADDLE entry per side, and one accepted order per MULTI leg |
| Mt5Agent.FrozenForever | mt5/Experts/NewsTraderAgent.mq5:1041-1057 | once a recorded job has lost its handler nothing is ever sent for it again |
| Mt5Agent.CrashAfterLogging | mt5/Experts/NewsTraderAgent.mq5:320-341 | a crash right after the ledger entry means the job is never traded |
| TextCodec.SplitJoin | mt5/Experts/NewsTraderAgent.mq5:797-808 | splitting what was joined with a separator gives the parts back when none contains it |
| TextCodec.ParsePrintInt | mt5/Experts/NewsTraderAgent.mq5:1002-1039 | a printed integer parses to itself |
| AgentWire.Sanitize | src/trade-jobs/trade-jobs.service.ts:592-594 | every separator becomes an underscore and every other character stays |
| AgentWire.PollForAgentText | src/trade-jobs/trade-jobs.service.ts:321-381 | the loop prints the header, every job and every cancellation in order |
| AgentWire.PollJobs | mt5/Experts/NewsTraderAgent.mq5:785-808 | the loop records what each line parses to, in order |
| AgentWire.Arrives | src/trade-jobs/trade-jobs.service.ts:321-381 | plain records arrive field by field and in order, times as floored seconds plus the server offset |
| AgentWire.RoundTrip | src/trade-jobs/trade-jobs.service.ts:321-381 | the round trip holds if and only if no unsanitized field contains a separator |
| ReportRuns.JobRow.Commit | src/cbot/cbot.service.ts:194-209 | the transaction stores a new key and writes what was decided from the status read before, whatever the status is now |
| ReportRuns.JobRow.CbotReport | src/cbot/cbot.service.ts:178-210 | a report with nothing in between: it is stored, the status moves only along the table, and a known key is a duplicate |
| ReportRuns.JobRow.AgentReport | src/trade-jobs/trade-jobs.service.ts:471-541 | with nothing in between: a report against the table is refused and not stored; otherwise as above |
| ReportRuns.HighestStageWins | src/trade-jobs/trade-job-state.ts:3-40 | progress reports handled one at a time, in any order and with repetitions, end in the highest stage seen |
| ReportRuns.OrderIrrelevant | src/cbot/cbot.service.ts:184-209 | two lists of the same progress reports, each handled one at a time, leave the same status |
| ReportRuns.RunsEnd | src/trade-jobs/trade-job-state.ts:18-40 | handled one at a time, reports of the cBot path make a bounded number of changes and never leave a terminal status |
| ReportRuns.AgentRunsEnd | src/trade-jobs/trade-job-state.ts:18-40 | the same on the MT5 path |
| ReportRuns.SixChanges | src/trade-jobs/trade-job-state.ts:18-40 | the bound of six changes is reached |
| ReportRuns.PathsAgreeExactly | src/trade-jobs/trade-jobs.service.ts:471-541 | for every job and list of reports, both paths give the same status after every report if and only if none arrives whose key only the cBot path has used up and which the MT5 path would follow |
| ReportRuns.PathsAgree | src/trade-jobs/trade-jobs.service.ts:471-541 | with distinct keys both report paths reach the same status |
| ReportRuns.EarlyCloseIsLost | src/cbot/cbot.service.ts:184-196 | one list in which a reused key makes them differ |
| ReportOverlap.AgainstTableExactly | src/cbot/cbot.service.ts:188-203 | for every step with reports in flight: the status moves against the table if and only if a commit writes a move that the status read before permitted and the present one does not |
| ReportOverlap.SerialExactly | src/cbot/cbot.service.ts:188-203 | a commit does what handling the report now would do if and only if its decision is still the one the status gives |
| ReportOverlap.StoredOnce | src/cbot/cbot.service.ts:184-196 | in every run each key is stored by one commit only |
| ReportOverlap.TimelyRunsAreSerial | src/trade-jobs/trade-jobs.service.ts:471-541 | without a stale commit, overlapping reports leave what they leave one after the other in commit order, on either path |
| ReportOverlap.TimelyRunsKeepStages | src/cbot/cbot.service.ts:188-203 | such runs of progress reports end in the highest stage stored |
| ReportOverlap.TimelyRunsEnd | src/trade-jobs/trade-job-state.ts:18-40 | such runs never leave a terminal status |
| ReportOverlap.OneByOneIsSerial | src/cbot/cbot.service.ts:178-210 | reports that do not overlap are the runs described above |
| ReportOverlap.FilledBecomesSubmitted | src/cbot/cbot-websocket.gateway.ts:104 | two overlapping reports leave SUBMITTED after FILLED, on either path |
| ReportOverlap.ClosedBecomesFilled | src/trade-jobs/trade-jobs.service.ts:491-524 | two overlapping reports overwrite a terminal status, on either path |
| WaveMath.Ema | src/strategy-v2/probe-strategy.math.ts:166-172 | the loop computes the recursive average, or nothing for too few values |
| WaveMath.WaveStop | src/strategy-v2/probe-strategy.math.ts:98-120 | the stop lies at the returned distance on the losing side, at least the minimum away, and a zero range is never valid |
| Medians.MedianSplits | src/strategy-v2/probe-strategy.math.ts:195-200 | at least half of the values lie on each side of the median, and it is positive when they are |
| BreakoutQuality.PushReasons | src/strategy-v2/probe-strategy.math.ts:258-270 | the pushed reasons are those of the measures, in order |
| BreakoutQuality.AssessQuality | src/strategy-v2/probe-strategy.math.ts:230-273 | the assessment is the specified one, an invalid range included |
| BreakoutQuality.AcceptedExactly | src/strategy-v2/probe-strategy.math.ts:230-273 | a breakout is accepted if and only if every measure, taken in prices and volumes, is within its limit |
| WaveMeaning.EmaBetween | src/strategy-v2/probe-strategy.math.ts:166-172 | the average stays between the smallest and the largest value |
| WaveMeaning.TrueRangeIsSpan | src/strategy-v2/probe-strategy.math.ts:174-183 | the largest of the three distances is the span of the candle together with the close before it |
| WaveMeaning.LevelIsExtreme | src/strategy-v2/probe-strategy.math.ts:187-193 | the level is reached by one of the last candles and passed by none |
| WaveMeaning.BreakoutExactly | src/strategy-v2/probe-strategy.math.ts:83-96 | after a well-formed candle, a trigger is a close beyond every one of the last candles |
| WaveMeaning.TrendExactly | src/strategy-v2/probe-strategy.math.ts:202-228 | a trend in terms of price distances: averages apart and moving far enough, both in its direction |
| WaveMeaning.ConfirmedExactly | src/strategy-v2/probe-strategy.math.ts:37-63 | which candles confirm the second entry, in prices, and which of the two kinds it is |
| WaveMeaning.ExcursionReached | src/strategy-v2/probe-strategy.math.ts:73-81 | the excursion reaches a multiple of the risk if and only if some candle went that far |
| MirrorSymmetry.EmaReflects | src/strategy-v2/probe-strategy.math.ts:166-172 | the average of reflected values is the reflected average |
| MirrorSymmetry.AtrMirror | src/strategy-v2/probe-strategy.math.ts:174-185 | reflection keeps the average range |
| MirrorSymmetry.LevelMirror | src/strategy-v2/probe-strategy.math.ts:187-193 | the other side's breakout level of reflected candles is the reflected level |
| MirrorSymmetry.EfficiencyMirror | src/strategy-v2/probe-strategy.math.ts:65-71 | reflection keeps the directional efficiency |
| MirrorSymmetry.EfficiencyIsShare | src/strategy-v2/probe-strategy.math.ts:65-71 | the efficiency lies between 0 and 1 |
| MirrorSymmetry.RegimeMirror | src/strategy-v2/probe-strategy.math.ts:202-228 | reflection exchanges the trends, negates the slope and keeps separation and range |
| MirrorSymmetry.TriggerMirror | src/strategy-v2/probe-strategy.math.ts:83-96 | a breakout of one side is the mirrored breakout of the other |
| MirrorSymmetry.StopMirror | src/strategy-v2/probe-strategy.math.ts:98-120 | the stop is reflected, distance and validity stay |
| MirrorSymmetry.QualityMirror | src/strategy-v2/probe-strategy.math.ts:230-273 | quality measures and reasons are the same for the mirrored breakout |
| MirrorSymmetry.ConfirmMirror | src/strategy-v2/probe-strategy.math.ts:37-63 | the second entry is confirmed alike |
| MirrorSymmetry.MfeMirror | src/strategy-v2/probe-strategy.math.ts:73-81 | the favourable excursion in risk units is the same |
| MirrorSymmetry.BarrierMirror | src/strategy-v2/probe-strategy.math.ts:148-164 | the same barrier is touched |
| MirroredDecisions.BiasMirrorsExactly | src/strategy-v2/probe-strategy.service.ts:248 | the chosen side is mirrored if and only if the two averages differ |
| MirroredDecisions.BuildMirror | src/strategy-v2/probe-strategy.service.ts:250-299 | prices, regime and reasons of a decision are mirrored together |
| MirroredDecisions.DecisionMirrorsExactly | src/strategy-v2/probe-strategy.service.ts:240-299 | a whole evaluation is mirrored if and only if it does not break out while the averages are equal |
| MirroredManagement.ManagementMirrors | src/strategy-v2/probe-strategy.service.ts:373-444 | a mirrored position on mirrored candles ends at the same moment with the same result |
| CandleStore.QueriesAgree | src/strategy-v2/probe-strategy.service.ts:235-239 | both candle queries depend only on candles up to their bound |
| StrategyRules.ExecutedExactly | src/strategy-v2/probe-strategy.service.ts:258-281 | a setup has no reason against it if and only if the breakout is accepted, the market trends its way, the efficiency, stop and spread are within limits and no news blocks it |
| StrategyRules.AcceptedHasRoom | src/strategy-v2/probe-strategy.service.ts:252-303 | an accepted setup has its entry strictly between stop and target and pays exactly the configured multiple |
| ProbeStrategy.Service.constructor | src/strategy-v2/probe-strategy.service.ts:24-26 | no rows at first |
| ProbeStrategy.Service.SettleCandidates | src/strategy-v2/probe-strategy.service.ts:356-371 | exactly the oldest hundred open candidates are resolved against the candle |
| ProbeStrategy.Service.ClosePosition | src/strategy-v2/probe-strategy.service.ts:514-544 | the position is closed and its own executed candidate labelled |
| ProbeStrategy.Service.ManagePosition | src/strategy-v2/probe-strategy.service.ts:373-444 | the position and candidate rows change as one management step says |
| ProbeStrategy.Service.EvaluateV4 | src/strategy-v2/probe-strategy.service.ts:213-326 | all rows change as one evaluation says |
| ProbeStrategy.Service.Ingest | src/strategy-v2/probe-strategy.service.ts:130-171 | an invalid candle changes nothing, a known one is corrected, a new one is stored and evaluated unless it is history |
| ProbeStrategy.Service.RejectProbe | src/cbot/cbot.service.ts:211-222 | only a probe that is still open is closed, without a result |
| NoLookAhead.LaterCandlesIgnored | src/strategy-v2/probe-strategy.service.ts:213-302 | stores that agree up to the candle, and on M15 up to fifteen minutes before it, give the same candidates and positions |
| PositionLifecycle.PositionsFollowOneAnother | src/strategy-v2/probe-strategy.service.ts:222-233 | in every run, in any candle order: at most one active position, and each opened no earlier than every earlier close plus the cooldown |
| PositionLifecycle.PositionsMoveForward | src/strategy-v2/probe-strategy.service.ts:415-443 | over any further run a position keeps its plan, only moves forward, and a closed one never changes |
| PositionLifecycle.ProbesEndByDeadline | src/strategy-v2/probe-strategy.service.ts:418-443 | no probe survives an evaluated candle at or past its opening plus the confirmation bars |
| ResultBounds.ResultsBounded | src/strategy-v2/probe-strategy.service.ts:378-443 | in every run: entries strictly between stop and target, stop closes at -1, target closes at exactly the multiple, unconfirmed closes strictly between -0.5 and half the multiple |
| ResultBounds.NoFollowThroughBounds | src/strategy-v2/probe-strategy.service.ts:391-414 | a close for missing follow-through at the sixth candle earns more than -1 and less than 2 |
| OrderedFeed.OrderedResultsBounded | src/strategy-v2/probe-strategy.service.ts:378-443 | on a feed in order, after any history, every close, the one for missing follow-through included, is within its bounds |
| StreamingLabels.BatchHoldsAll | src/strategy-v2/probe-strategy.service.ts:356-360 | with a horizon of at most 100 bars, reading a hundred candidates never leaves an open one out |
| StreamingLabels.LabelsAreFirstVerdicts | src/strategy-v2/probe-strategy.service.ts:356-371 | the stored label of an untraded candidate is the first barrier a later candle touches, the stop winning ties, or a timeout at the first candle past the horizon |
| StreamingLabels.LabelsAreFinal | src/strategy-v2/probe-strategy.service.ts:356-371 | in any run a label once set on an untraded candidate never changes |
| ExecutedLabels.LabelsFollowPositions | src/strategy-v2/probe-strategy.service.ts:525-543 | in every run each position trades exactly what its own candidate decided, and when the strategy closes it the candidate gets its outcome and time |

## Left out

- LeaseExclusion.OneHolder: assumes that renewals and start bookkeeping land before the lease expires, because broker calls are not fenced; `SecondHolderExactly` says exactly what happens otherwise. Clocks of the workers are one clock; a claim may use an earlier reading of it.
- CrashSafety.NoTwinOrders: rests on the same timing assumption, on the broker accepting an order atomically, and on job prefixes that do not collide (src/ctrader/ctrader-execution.service.ts:142 keeps twelve characters).
- ConnectorBaskets.AllOrNothing: assumes that a cancel or close takes effect, as the connector does; orders that vanish or fill on their own are allowed at any time.
- ConnectorLabels.LabelsDistinct: holds while no attempt begins over a live reversal; `LabelsDistinctExactly` says that this is needed.
- ReportRuns.HighestStageWins: reports are handled one at a time here, and likewise in `OrderIrrelevant` and `RunsEnd`; `ReportOverlap` has the others.
- OneReversal.ReversalPriceFixed: needs equal fill prices, since fills overwrite the entry price and the reference is the first leg listed.
- OrderedFeed.OrderedResultsBounded: the bound on closes for missing follow-through needs a feed in order, history first and no backfill later; the other bounds hold for any order.
- StreamingLabels.LabelsAreFirstVerdicts: for candidates that were not traded, on an in-order feed, history first, and a horizon of at most 100 bars; the labels of traded candidates can be rewritten when their position closes (`ExecutedLabels`).
- WaveMath.WaveStop: exact arithmetic; the quotient by a zero range, which is infinite or not a number in the source, is None and never valid.
- IEEE rounding and the decimal rounding of stored prices: prices are reals, so ties that only rounding creates are not seen. The broker's price rounding in a protection sync is an arbitrary function.
- `AtrOf`, `BreakoutLevel`, `Efficiency` and `EmaOf` are defined only for enough candles; the errors thrown otherwise appear where callers meet them, as `None` in `DetectRegime` and `Ema` and as `Quiet` or `Aborted` in `Assess`.
- Strategy V4 evaluates one candle at a time; evaluations of two candles at once are not modelled.
- Strategy configuration: periods, stop multiplier and target multiple are positive; the source does not check them. News blocking is a parameter of each evaluation, and scheduling of the strategy's trade jobs is not modelled.
- Several configurations or sources sharing one strategy service: each has its own rows, so one of each is modelled.
- Gateway.SilentAfterClose: that an ended socket takes no more bytes is an assumption about the socket (a write after `end()` is an error of it); the source itself checks only whether it is destroyed.
- WebSocket: RSV bits and control-frame limits are not checked by the source and nothing is claimed about them; a text frame in the middle of a fragmented message restarts it, as in the source. The HTTP upgrade, UTF-8 and JSON decoding and the request handlers behind the rate window are left out.
- The unguarded write of status MANAGED (src/ctrader/ctrader-execution.service.ts:452) may overwrite a terminal status; the lease machine only lets active rows move to active statuses.
- The worker's own ARMED or SUBMITTED to EXPIRED write (src/ctrader/ctrader-execution.service.ts:548) is outside the transition table; claims about the table are about the report paths.
- MT5 wire format: StringToDouble is kept as text. The ledger file is assumed readable after a crash; an unreadable one is outside the model.
- Protection sync: its broker calls succeed and no fill arrives during it; interleaved fills are the subject of `OneReversal`, on the job row and prices only. The texts and keys of its reports are not part of it.
- Connector: prices of orders, preflight checks (one flag), reports and the OCO cancellation of STRADDLE are left out; exclusivity of the two STRADDLE sides and a single terminal report are not claimed, because a fill during placement and a repeated close callback break them. Its handlers are machine steps rather than methods of a class, because they interrupt one another at broker calls.
- Telegram wizard, controllers, guards, OAuth, encryption, pairing, account discovery, subscriptions, plan presets, safety switch, risk and margin estimates, the mock execution service, M5 retest trigger (unused) and economic calendar sync: short guards, transport or user interface.
