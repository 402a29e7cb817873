# Verified models of the interview runtime

A Dafny model of the parts of this repository that carry protocol state or arithmetic of their own, with proofs
that they keep what their designs promise. `dafny verify dfyconfig.toml` checks the whole project.

| file | what it models |
|---|---|
| `DeliveryLedger.dfy` | the authoritative delivery ledger: event reducer, transition handlers, serialized writer |
| `StreamServer.dfy` | the renderer stream server between two awaits |
| `RendererClient.dfy` | the browser's bounded delivery cache and acknowledgement guards |
| `ExposureProtocol.dfy` | all of these with sockets, crashes, recovery and acknowledgements in flight, as one step system |
| `ExposureProgress.dfy` | what its waits, recoveries and doubtful writes come to when nothing interferes |
| `SseFraming.dfy` | server-sent-event framing across arbitrary chunk boundaries |
| `Resampler.dfy` | the streaming microphone resampler and the frame commit around it |
| `VadStream.dfy`, `VadTable.dfy` | voice-activity windows and decimation phase; the stream table with its tombstones |
| `PcmLedger.dfy` | the bounded ledger of admitted PCM frames and the audio bases it vouches for |
| `VoiceInput.dfy` | voice stream bindings, operations suspended at their awaits, cancellations, utterances |
| `TtsAssembly.dfy` | admission and assembly of a synthesized audio stream |
| `VisionBridge.dfy` | the bridge from accepted whiteboard observations to committed evidence |
| `PngRows.dfy`, `PngChunks.dfy` | row unfiltering and chunk parsing of the PNG decoder |
| `DecodeGuard.dfy` | the repetition guards of the greedy decoding loop |
| `PreprocessBounds.dfy` | image sizes through one preprocessing iteration |
| `HistoryProjection.dfy` | the presentation history projected from the event log |
| `Telemetry.dfy` | remote-call counters, bounded lists and the persistence reader's check |
| `Results.dfy`, `Sequences.dfy` | `Option` and `Result`; what several components say about sequences |

Each protocol is a world, an event type and a partial function `Next`; an event is one stretch of source code between
two awaits, so a run is any interleaving the runtime allows (and some it does not, since consecutive stretches of one
operation may be separated further than its microtasks are). `Reaches` is a run, `Inv` what its worlds
satisfy, and the main results speak about every run from `Init`; the few that need a condition on the run name it
(`UndisputedRun`, `MatchedRun`). Code that works on objects is also given as classes whose methods
are proved equal to the functions the runs are made of.

## Assumptions

- The session writer runs one command at a time and does not fail for storage reasons; it answers a request id it has
  processed as before (packages/interview-engine/src/session-writer.ts:133-195).
- One renderer client per session, the server's default (apps/server/src/renderer-stream-server.ts:28).
- An await of something already settled resumes before any socket event or further command does, as microtasks do. An
  attach request therefore runs from the end of its last wait to its registration (lines 475-537 of
  apps/server/src/renderer-stream-server.ts). That it then registers with nothing uncertain outstanding is proved, not
  assumed (`FreshConnectionFindsNothingUncertain`).
- Every delivery is queued under a new id, as production does
  (packages/interview-engine/src/turn-coordinator.ts:1634, 1659, 1905). At most one write per delivery relies on
  it: the reducer alone would reset a used id to QUEUED (packages/events/src/reducer.ts:841-843).
- A presenter that reported that it did not begin does not begin afterwards.
- `isGenerationBasisStillCompatible`, hashes, checksums, the inflater, the speech and vision models and the evidence
  interpreter are arbitrary functions or arbitrary answers. Samples and ratios are reals.
- Evidence other than the bridge's own cites turns and verification requests, never a vision result
  (packages/interview-engine/src/verification-coordinator.ts:268, 405, 561).

## Where the code falls short of its promise

For each there is a lemma with a concrete run or input and one with the exact condition.

- Shutting voice input down removes the new session binding of a stream that is cancelled and opened again under its own
  id while the shutdown awaits another stream's discard, because one map is compared by context and the other by stream id
  (run: `ShutdownCanBreakBindings`; exactly when: `ReleaseIsSafeExactly`). The stream limit, the single turn and the single
  end of each utterance survive it (`WithinStreamLimit`, `AtMostOneTurn`, `DiscardedOrFinalizedOnce`).
- A decided evidence proposal beyond the admission size bounds makes every later recovery of the session fail
  (run: `OutOfBoundsIsReachable`, with `OutOfBoundsFailsEveryRecovery`; exactly when a recovery succeeds:
  `UndisturbedRecovery`).
- Changing a voice-activity stream's sample rate is refused, but also forgets the stream without a tombstone
  (input: `RateChangeForgetsStream`; exactly when a request forgets a stream: `ForgottenExactly`).
- Finishing a remote call after its session's metrics were lost leaves counters the persistence reader refuses, or, with
  another call pending, uses that call up, and then that call's own finish does (runs: `EvictionCanCorrupt`,
  `UnmatchedFinishTakesAnothersCall`; exactly which finishes: `FinishIsSafeExactly`; exactly which runs:
  `PassesThroughoutExactly`).
- Queueing a delivery id again hides what was shown under it (input: `RequeueingHides`; exactly when: `VisibleExactly`), or,
  when it is queued again as a whiteboard action, shows the earlier text for that action (input: `StaleTextIsShown`; exactly
  when: `ShowsCurrentExactly`). History keys tell (generation, text) pairs apart only while generation ids hold no NUL
  (input: `KeysCanCollide`; exactly when: `KeysCollideExactly`).
- The decoding loop counts its start token into a run of equal tokens, so seven generated start tokens are refused
  (input: `SevenAreRefused`; exactly what is refused: `RefusedExactly`).

## Model

| member | source | states |
|---|---|---|
| DeliveryLedger.ReduceKeepsDisclosureExact | packages/events/src/reducer.ts:841-874 | any accepted event keeps the disclosure ledger equal to what some delivery may have shown |
| DeliveryLedger.DisclosureExactOverLogs | packages/events/src/reducer.ts:841-874 | the same over every accepted log that queues deliveries under unused ids |
| DeliveryLedger.HandlerDraftsAreAccepted | packages/delivery/src/delivery-coordinator.ts:58-217 | the reducer never rejects what a transition handler emits, so every refusal is the handler's own |
| DeliveryLedger.ReducesExactly | packages/events/src/reducer.ts:28-43 | the reducer accepts a queueing, or a status change of a known delivery that the transition table allows, and then changes that delivery alone |
| DeliveryLedger.StartsExactly | packages/delivery/src/delivery-coordinator.ts:27-90 | marking started and reconnecting set a queued delivery DELIVERING if and only if its generation is recorded, neither superseded nor rejected, and compatible; otherwise the session is unchanged |
| DeliveryLedger.HandlerResults | packages/delivery/src/delivery-coordinator.ts:93-173 | what an accepted acknowledgement or marking reports to its caller |
| DeliveryLedger.CommitEffects | packages/delivery/src/delivery-coordinator.ts:72-217 | which single status change each committed transition makes, and from which statuses it makes none |
| DeliveryLedger.InvalidationEffect | packages/interview-engine/src/turn-coordinator.ts:752-787 | an invalidation withdraws exactly the named undelivered deliveries and leaves all others alone |
| DeliveryLedger.DeliveryCoordinator.RecoverUncertainDeliveries | packages/delivery/src/delivery-coordinator.ts:175-193 | recovery leaves no delivery in flight and reports exactly those it marked |
| StreamServer.RendererStreamServer.HandleAttach | apps/server/src/renderer-stream-server.ts:469-476 | a request is refused for capacity, or waits for the classifications it sees, then for recovery, and otherwise registers at once |
| StreamServer.RendererStreamServer.AttachConnection | apps/server/src/renderer-stream-server.ts:503-558 | a connection is registered with an empty sent set, or refused for capacity without a change |
| StreamServer.RendererStreamServer.FirstLiveConnection | apps/server/src/renderer-stream-server.ts:560-568 | the connection returned is registered and writable; a dead one is removed and queued for classification |
| StreamServer.RendererStreamServer.Remove | apps/server/src/renderer-stream-server.ts:570-588 | only a registered connection is removed, and its sent deliveries go to classification |
| StreamServer.RendererStreamServer.CloseSessionConnections | apps/server/src/renderer-stream-server.ts:156-166 | closing a session destroys and removes its connection, with classification |
| StreamServer.RendererStreamServer.StartPublication | apps/server/src/renderer-stream-server.ts:262-275 | nothing is written before the first await |
| StreamServer.RendererStreamServer.ContinueAfterRecovery | apps/server/src/renderer-stream-server.ts:276-345 | the stretch up to the reconnect command: it writes nothing, answers SENT for what this connection already sent, and remembers the delivery before it waits |
| StreamServer.RendererStreamServer.ContinueAfterReconnect | apps/server/src/renderer-stream-server.ts:346-420 | a write happens only for a delivery that is DELIVERING at that moment on a socket that is open |
| StreamServer.RendererStreamServer.ContinueAfterMark | apps/server/src/renderer-stream-server.ts:380-419 | after a stalled or failed write the connection is removed; SENT is reported only if the ledger says exposed |
| RendererClients.ReserveGivesUpOnlyAcknowledged | apps/web/src/renderer-client.ts:320-331 | making room gives up at most a delivery whose completion was acknowledged, and stays within the bound |
| RendererClients.HandleKeepsValid | apps/web/src/renderer-client.ts:114-204 | a message taken up is tracked as neither begun nor acknowledged, and no other entry changes |
| RendererClients.ForgottenKeepsValid | apps/web/src/renderer-client.ts:114-204 | forgetting a delivery that did not begin keeps the cache's order and bound |
| RendererClients.MessagesAreToldApart | apps/web/src/renderer-client.ts:114-204 | when a message is a duplicate, a mismatch, refused for a full cache, or presented, and which tracked delivery makes room for it |
| RendererClients.FlushEffect | apps/web/src/renderer-client.ts:246-294 | a begun presentation whose exposure is unacknowledged sends it; a finished one whose exposure is answered sends its completion; exactly the answered flags change |
| RendererClients.RendererClient.ReserveCacheSlot | apps/web/src/renderer-client.ts:320-331 | the loop evicts the oldest completed delivery or refuses |
| RendererClients.RendererClient.HandleMessage | apps/web/src/renderer-client.ts:114-204 | duplicates, mismatches, a full cache and first sight are told apart, and only first sight changes the cache |
| RendererClients.RendererClient.MarkExposureBegan | apps/web/src/renderer-client.ts:215-224 | the beginning of a presentation is noted once |
| RendererClients.RendererClient.MarkPresentationCompleted | apps/web/src/renderer-client.ts:226-238 | the end of a presentation is noted only after its beginning |
| RendererClients.RendererClient.FlushAcknowledgements | apps/web/src/renderer-client.ts:246-294 | which acknowledgements one flush sends and what it records, for every pattern of answers |
| ExposureProtocol.StepKeepsInv | apps/server/src/renderer-stream-server.ts:262-631 | every step of server, ledger, client, socket and process keeps the four-component invariant |
| ExposureProtocol.ReachableInv | apps/server/src/renderer-stream-server.ts:262-631 | every run from a world that satisfies the invariant ends in one |
| ExposureProtocol.AtMostOncePhysicalWrite | apps/server/src/renderer-stream-server.ts:262-443 | in every run each delivery is written to a renderer socket at most once, a delivery reported SENT exactly once, and one still DELIVERING is remembered by the live connection, a classification or crash recovery |
| ExposureProtocol.LedgerTellsTheTruth | apps/web/src/renderer-client.ts:114-331 | in every run EXPOSED means presented once, COMPLETED means finished, nothing is presented twice, and what was cancelled before exposure was never written |
| ExposureProtocol.CompletionIsNeverRefused | packages/delivery/src/delivery-coordinator.ts:107-117 | no completion acknowledgement a client ever sent meets the refusal for a delivery that is not exposed |
| ExposureProtocol.ServeAckEffect | packages/delivery/src/delivery-coordinator.ts:93-173 | what one served acknowledgement does to the ledger and which acknowledgements it accepts; an exposure or completion always |
| ExposureProtocol.ExposureIsNeverRefused | packages/delivery/src/delivery-coordinator.ts:93-105 | no exposure acknowledgement a client ever sent is refused, whenever it arrives |
| ExposureProtocol.ClassifiedLeavesNothingUncertain | apps/server/src/renderer-stream-server.ts:590-604 | once every disconnect is classified no written delivery is left DELIVERING outside the live connection |
| ExposureProtocol.FreshConnectionFindsNothingUncertain | apps/server/src/renderer-stream-server.ts:474-537 | in every run, whatever requests, socket deaths and publications came between its waits, a connection that has sent nothing yet finds no written delivery DELIVERING |
| ExposureProtocol.RegisteringAtOnceIsSafeExactly | apps/server/src/renderer-stream-server.ts:474-537 | what the waits are for: registering without them keeps every continuation at one write per delivery if and only if no written delivery is DELIVERING |
| ExposureProtocol.UndisturbedPublication | apps/server/src/renderer-stream-server.ts:262-420 | a publication nothing interferes with, of a delivery DELIVERING or queued with a deliverable generation, does write it |
| ExposureProtocol.PublicationEffectExactly | apps/server/src/renderer-stream-server.ts:262-420 | what an undisturbed publication does to ledger, socket and report for every delivery: unavailable audio cancels a queued delivery and marks a DELIVERING one possibly exposed, and it writes only what is DELIVERING, fits and was not sent before |
| ExposureProtocol.StartedWhileDeliverable | packages/delivery/src/delivery-coordinator.ts:27-38 | in every run a step that takes a delivery from QUEUED to DELIVERING finds its generation recorded, neither superseded nor rejected, and compatible |
| ExposureProtocol.UncertaintyIsReachable | apps/server/src/renderer-stream-server.ts:474-476 | the waits are needed: a run to a moment when a request that skipped them would be unsafe |
| ExposureProtocol.RecoveryStepKeepsInv | apps/server/src/session-recovery-coordinator.ts:247-312 | crash, memoised recovery and its retries keep the invariant at every interleaving point |
| ExposureProgress.UndisturbedRecovery | apps/server/src/session-recovery-coordinator.ts:247-312 | an undisturbed recovery, the first or a retry, succeeds with every delivery that was DELIVERING possibly exposed and nothing else changed |
| ExposureProgress.RecoveryVisits | packages/delivery/src/delivery-coordinator.ts:175-193 | a recovery visits what was DELIVERING at its beginning and nothing else, each delivery once |
| ExposureProgress.ClassificationVisits | apps/server/src/renderer-stream-server.ts:590-604 | a classification visits what its connection was sent and nothing else, each delivery once |
| ExposureProgress.UndisturbedAttach | apps/server/src/renderer-stream-server.ts:469-537 | an undisturbed attach request is registered, as a connection that was sent nothing, when the classifications it saw and recovery are over, and exactly what those had left to mark is then possibly exposed |
| ExposureProgress.WaitsCountDown | apps/server/src/renderer-stream-server.ts:474-476 | each waiting request counts down the classifications it saw, and goes on when the last of them settles |
| ExposureProgress.FirstComeFirstServed | apps/server/src/renderer-stream-server.ts:474-558 | of two requests that wait for the same disconnects the earlier is registered and the later refused; while recovery is not complete they await it in their order |
| ExposureProgress.FirstOneRegisters | apps/server/src/renderer-stream-server.ts:503-558 | of the requests that resume together the first is registered and the others are refused |
| ExposureProgress.AbandonsExactly | apps/server/src/renderer-stream-server.ts:469-502 | a request whose client left waits for nothing any more, and no other request is affected |
| ExposureProgress.UncertainWrite | apps/server/src/renderer-stream-server.ts:370-419 | a write that stalls or fails was attempted once; its delivery is possibly exposed, not reported SENT, and its connection given up, still remembering it |
| ExposureProgress.MarkStretches | apps/server/src/renderer-stream-server.ts:380-419 | whatever happened while the write was in doubt, only a delivery still DELIVERING is marked, and a stalled write is SENT only if an acknowledgement overtook the mark |
| ExposureProgress.DrainedWrite | apps/server/src/renderer-stream-server.ts:380-420 | a write under backpressure that drains is reported SENT and keeps its connection |
| ExposureProgress.PublicationWithoutClient | apps/server/src/renderer-stream-server.ts:262-275 | without a live connection nothing is written, and a dead one is given up for classification |
| ExposureProgress.UndisturbedDelivery | apps/web/src/renderer-client.ts:114-331 | left alone, a deliverable delivery the client has room for is written once, presented once and ends COMPLETED, with both acknowledgements accepted and answered |
| ExposureProgress.RejectedDelivery | apps/web/src/renderer-client.ts:114-204 | a presentation that cannot begin cancels its delivery, and the client forgets it |
| ExposureProgress.AckRoundTrip | packages/delivery/src/delivery-coordinator.ts:93-173 | an acknowledgement that is due is sent, accepted and answered, with the status it stands for and nothing else changed |
| ExposureProgress.NothingPreventsFailures | apps/server/src/renderer-stream-server.ts:503-631 | sockets die, clients leave, commands are lost, pages reload and the process crashes at any point of a run |
| SseFraming.FirstBoundaryIsFirst | apps/web/src/renderer-stream.ts:286-296 | the boundary found is the earliest occurrence of either separator |
| SseFraming.BoundaryIsStable | apps/web/src/renderer-stream.ts:286-296 | text arriving later never moves a boundary already found |
| SseFraming.DrainInTwoParts | apps/web/src/renderer-stream.ts:77-101 | draining a buffer and then more text hands over what draining both at once does |
| SseFraming.ChunkingDoesNotMatter | apps/web/src/renderer-stream.ts:77-101 | every cutting of the same text, within the buffer bound, hands over the same events and leaves the same buffer |
| SseFraming.StreamRoundTrip | apps/server/src/renderer-stream-server.ts:827-829 | what the server encodes is handed over exactly, in order, without error and with an empty buffer, also when a separator is split between chunks, if and only if the cutting keeps the buffer within its bound |
| SseFraming.SmallChunksRoundTrip | apps/web/src/renderer-stream.ts:77-101 | chunks no longer than one message may be always keep it there |
| SseFraming.MalformedEventStops | apps/web/src/renderer-stream.ts:77-95 | events before a malformed one are handed over, nothing after it is, and the error is that of its block |
| SseFraming.CutOffMessageIsIncomplete | apps/web/src/renderer-stream.ts:98-101 | a stream cut off inside a message ends with the incomplete-event error after handing over every message before it |
| SseFraming.BlockAcceptedExactly | apps/web/src/renderer-stream.ts:249-284 | a block yields its text if and only if it is within the bound, every line is of a known kind, its one event field is delivery and its one data field is that text |
| SseFraming.SplitIsLines | apps/web/src/renderer-stream.ts:254 | the lines of a block, joined by their terminators, are the block, and none holds a line feed |
| SseFraming.TrimExactly | apps/web/src/renderer-stream.ts:262-268 | trimming removes exactly the whitespace at both ends |
| SseFraming.WidthIsLeast | apps/web/src/renderer-stream.ts:324-326 | a character takes the least number of UTF-8 bytes that can carry it |
| SseFraming.HandleSseBlock | apps/web/src/renderer-stream.ts:249-284 | the line loop collects the data lines of a block by the field rules |
| SseFraming.ConsumeStream | apps/web/src/renderer-stream.ts:77-101 | the reading loop does what feeding all chunks one after the other does, then checks for an incomplete event |
| Resampler.PhaseBound | apps/web/src/voice-client.ts:673-789 | emitted times source rate stays within one source step behind the samples seen |
| Resampler.OutputIsInterpolation | apps/web/src/voice-client.ts:740-789 | each output is the linear interpolation of the whole stream at its position, and the lost-boundary and unavailable-PCM errors are unreachable |
| Resampler.InterpolationWeighs | apps/web/src/voice-client.ts:759-777 | output k lies between the samples at the quotient of k times source rate by target rate and the next, weighted by the remainder: the nearer neighbour weighs more |
| Resampler.LineIsKept | apps/web/src/voice-client.ts:759-777 | samples on a straight line come out on the same line at the exact positions |
| Resampler.CountExactly | apps/web/src/voice-client.ts:716-732 | output k exists if and only if its position does not pass the last sample |
| Resampler.AdmittedExactly | apps/web/src/voice-client.ts:673-740 | a frame is admitted if and only if its caller's own numbers allow it, and a refusal is only ever for size, state or duration |
| Resampler.FrameContinuesOneShot | apps/web/src/voice-client.ts:673-789 | an admitted frame continues the one-shot resampling of everything admitted |
| Resampler.StreamIsOneShot | apps/web/src/voice-client.ts:673-789 | any admitted stream of frames yields exactly the one-shot output of their concatenation |
| Resampler.SentInNumbers | apps/web/src/voice-client.ts:673-789 | which outputs an admitted stream of frames has and what each is, in numbers of its samples and rates alone |
| Resampler.SentKeepsLine | apps/web/src/voice-client.ts:673-789 | a stream on a straight line, however it is cut into frames, is sent on that line |
| Resampler.CuttingDoesNotMatter | apps/web/src/voice-client.ts:673-789 | two cuttings of the same samples, both admitted, yield the same output and phase |
| Resampler.PreviewLength | apps/web/src/voice-client.ts:716-740 | an admitted frame yields between one sample and a tenth of a second |
| Resampler.FillOutput | apps/web/src/voice-client.ts:740-789 | the filling loop computes every output or stops at the first error |
| Resampler.BrowserVoiceStream.BeginFrame | apps/web/src/voice-client.ts:99-130 | a frame goes out exactly when the stream is open, idle, mono and the resampler admits it; nothing but the in-flight flag changes |
| Resampler.BrowserVoiceStream.CompleteFrame | apps/web/src/voice-client.ts:131-161 | only an answered frame commits sequence, timestamp and phase; a failed one leaves all unchanged |
| Resampler.BrowserVoiceStream.Cancel | apps/web/src/voice-client.ts:178-190 | a cancelled stream is closed |
| VadStream.ChunkingDoesNotMatter | workers/python/local_model_worker.py:418-449 | any split of a stream into requests gives the inferences, recurrent state, probability and carried samples of the whole |
| VadStream.WholeStreamInferences | workers/python/local_model_worker.py:418-449 | those are consecutive 512-sample windows of every third sample with the 64 samples before each; each call is given the recurrent state the one before returned, the first zeros; the stream keeps the last one, and the last probability cut to 0..1; fewer than 512 and fewer than 3 samples are left over |
| VadTables.ServeKeepsValid | workers/python/local_model_worker.py:397-414 | at most 64 live streams and 4096 tombstones, and never both for one stream |
| VadTables.RunsKeepValid | workers/python/local_model_worker.py:397-414 | over every request sequence at most 64 streams are live, at most 4096 have tombstones, and none both |
| VadTables.TombstoneAges | workers/python/local_model_worker.py:408-414 | a tombstone ages with each further eviction and disappears at 4096 |
| VadTables.EvictedStreamIsRefused | workers/python/local_model_worker.py:398-403 | over every request sequence an evicted stream is refused until 4096 further evictions have happened |
| VadTables.VictimGetsTombstone | workers/python/local_model_worker.py:409-412 | the stream pushed out gets the youngest tombstone |
| VadTables.StreamsDoNotInterfere | workers/python/local_model_worker.py:384-449 | whatever other streams do, an undisturbed stream's state is that of its own samples |
| VadTables.ReplyIsOfWholeStream | workers/python/local_model_worker.py:384-449 | whatever other streams do, an undisturbed stream's reply is the cut probability of the last model call over its whole sample sequence, each call given the window, context and recurrent state that follow from it |
| VadTables.RateChangeForgetsStream | workers/python/local_model_worker.py:399-407 | a rate change is refused and forgets the stream, so the next request restarts it |
| VadTables.ForgottenExactly | workers/python/local_model_worker.py:397-414 | after any request a live stream is live or has a tombstone, except if and only if the request is its own at another rate |
| VadTables.SpeechRuntime.InferPending | workers/python/local_model_worker.py:432-449 | the window loop consumes whole windows only |
| VadTables.SpeechRuntime.ScoreVad | workers/python/local_model_worker.py:384-449 | the whole request, table updates and eviction loops included |
| PcmLedgers.BoundedSuffixIsLongest | apps/server/src/voice-runtime.ts:1089-1111 | the frames kept are the longest suffix within the byte bound |
| PcmLedgers.BoundingAsWeGo | apps/server/src/voice-runtime.ts:1089-1111 | bounding after every frame keeps what bounding once over all of them keeps |
| PcmLedgers.LedgerIsConsecutiveSuffix | apps/server/src/voice-runtime.ts:663-699 | the ledger is a consecutive suffix of the admitted frames ending at the expected sequence less one, within the bound |
| PcmLedgers.VouchedExactly | apps/server/src/voice-runtime.ts:1113-1159 | a basis is accepted if and only if its frames were admitted since the last finalization, are still within the bound, and are described truly, the hash being that of exactly their bytes |
| PcmLedgers.EndExactly | apps/server/src/voice-runtime.ts:1145-1152 | the end timestamp is accepted exactly within a thousandth of a millisecond of the last frame's end, without division |
| PcmLedgers.VoiceStreamLedger.RecordAdmittedFrame | apps/server/src/voice-runtime.ts:1089-1111 | the push and shift loop leaves the longest bounded suffix and its exact byte total; the final bound error is unreachable |
| PcmLedgers.VoiceStreamLedger.AdmitFrame | apps/server/src/voice-runtime.ts:663-699 | only the next frame at the bound rate is admitted, and it is never dropped to make room for itself |
| PcmLedgers.VoiceStreamLedger.ValidateBasis | apps/server/src/voice-runtime.ts:1113-1159 | the filter and checking loops accept exactly the vouched bases |
| PcmLedgers.VoiceStreamLedger.Finalize | apps/server/src/voice-runtime.ts:924-941 | finalizing accepts exactly the true bases of this stream and empties the ledger only then |
| VoiceInput.StepKeepsInv | apps/server/src/voice-runtime.ts:609-1253 | every open, frame, flush, callback, cancel, expiry and shutdown visit keeps the limit and the facts about operations and utterances, and an undisputed one the bindings as well |
| VoiceInput.WithinStreamLimit | apps/server/src/voice-runtime.ts:609-661 | in every run at most four streams are bound |
| VoiceInput.BindingsStayInverse | apps/server/src/voice-runtime.ts:609-661 | in every run without a disputed shutdown visit streams and sessions are mutually inverse |
| VoiceInput.AtMostOneTurn | apps/server/src/voice-runtime.ts:943-1009 | in every run a stream commits at most one turn, and only from its finalized utterance |
| VoiceInput.FinalizedWithItsTranscript | apps/server/src/voice-runtime.ts:943-979 | in every run an utterance is finalized with a transcript that is not blank, of its own worker utterance and of the finalized basis its context held |
| VoiceInput.TranscriptIsCommitted | apps/server/src/voice-runtime.ts:943-1009 | a text transcript nothing interferes with finalizes its utterance, commits one turn of its context and releases it |
| VoiceInput.BlankIsDiscarded | apps/server/src/voice-runtime.ts:953-961 | a blank transcript discards its utterance, commits nothing and releases the context |
| VoiceInput.WorkerDiscards | apps/server/src/voice-runtime.ts:906-923 | a worker error, or a discard of no other utterance, discards the utterance and releases the context |
| VoiceInput.OnsetBegins | apps/server/src/voice-runtime.ts:852-903 | an onset in an active session begins one capturing utterance, bound to the worker's |
| VoiceInput.RepeatedOnsetIsIgnored | apps/server/src/voice-runtime.ts:853-862 | a repeated onset of the same utterance changes nothing |
| VoiceInput.BasisIsNoted | apps/server/src/voice-runtime.ts:924-941 | a vouched finalization of the bound utterance is noted as the context's basis |
| VoiceInput.InconsistentEndsOperation | apps/server/src/voice-runtime.ts:1022-1040 | an inconsistent callback without an onset admitted in its batch ends the operation and leaves the stream bound |
| VoiceInput.InconsistentAfterOnsetDiscards | apps/server/src/voice-runtime.ts:1040-1057 | an inconsistent callback after such an onset discards the capturing utterance and releases the context |
| VoiceInput.LateAnswerIsDropped | apps/server/src/voice-runtime.ts:845 | an answer for a context no longer current changes nothing but the operation, which ends |
| VoiceInput.RevocationsRelease | apps/server/src/voice-runtime.ts:733-800 | cancelling the stream, cancelling its session and expiry release a current context and queue its capturing utterance for discard; another session cannot cancel the stream, and an operation in flight puts expiry off |
| VoiceInput.OperatesExactly | apps/server/src/voice-runtime.ts:701-718 | a frame or flush starts an operation exactly on an active stream of its session without one |
| VoiceInput.AuthorityNeedsSession | apps/server/src/voice-runtime.ts:864-870 | an utterance begins or is finalized only in a session that has not ended |
| VoiceInput.NothingAfterTheEnd | apps/server/src/voice-runtime.ts:609-625 | in every run, once a session has ended, no step opens a stream for it or begins or finalizes an utterance of it |
| VoiceInput.OpensExactly | apps/server/src/voice-runtime.ts:609-661 | a stream is opened exactly for an active session without one, under an unused id, below the limit, and only its own bindings change |
| VoiceInput.DiscardedOrFinalizedOnce | apps/server/src/voice-runtime.ts:1186-1197 | in every run an utterance is discarded or finalized, never both and neither twice |
| VoiceInput.NoCaptureLeftBehind | apps/server/src/voice-runtime.ts:852-923 | in every run, once nothing is under way, a capturing utterance belongs to a stream nothing has revoked, however a cancellation overtook its onset; without a disputed shutdown visit that stream is bound |
| VoiceInput.ReleaseIsSafeExactly | apps/server/src/voice-runtime.ts:1247-1253 | releasing a context keeps the bindings inverse if and only if it is bound or its session no longer uses its stream id |
| VoiceInput.ShutdownCanBreakBindings | apps/server/src/voice-runtime.ts:802-814 | a run in which a shutdown, after awaiting one stream's discard, breaks the bindings of another that was reopened meanwhile |
| VoiceInput.ShutdownReleasesAll | apps/server/src/voice-runtime.ts:802-814 | an uninterrupted shutdown leaves nothing bound or active |
| VoiceInput.VoiceInputCoordinator.OpenStream | apps/server/src/voice-runtime.ts:609-661 | a stream is bound only to an active session without one, below the limit; asking again for the same binding changes nothing |
| VoiceInput.VoiceInputCoordinator.ReleaseStreamBinding | apps/server/src/voice-runtime.ts:1247-1253 | the stream binding goes only if it is this context's, the session binding whenever it names the stream id |
| VoiceInput.VoiceInputCoordinator.TerminateContext | apps/server/src/voice-runtime.ts:1199-1203 | an active context is deactivated and released, an inactive one left alone |
| VoiceInput.VoiceInputCoordinator.RevokeContext | apps/server/src/voice-runtime.ts:733-764 | admission is revoked before anything is awaited, and a capturing utterance's discard is queued |
| VoiceInput.VoiceInputCoordinator.CancelSession | apps/server/src/voice-runtime.ts:766-800 | the session's stream, if any, is revoked |
| VoiceInput.VoiceInputCoordinator.ExpireIdleStream | apps/server/src/voice-runtime.ts:1219-1245 | only a current context without an operation in flight expires |
| VoiceInput.VoiceInputCoordinator.Shutdown | apps/server/src/voice-runtime.ts:802-814 | the loop revokes the listed contexts in order |
| TtsAssemblies.AcceptedIsStream | apps/server/src/voice-runtime.ts:350-430 | an accepted synthesis is one begin, one non-empty run of chunks per planned segment in order, each ended by its only final chunk, and one end with the exact totals; its PCM is their concatenation |
| TtsAssemblies.StreamIsAccepted | apps/server/src/voice-runtime.ts:350-430 | every message sequence of that shape is accepted, with that PCM |
| TtsAssemblies.WalkedIsGrouped | apps/server/src/voice-runtime.ts:1338-1380 | chunks that pass the consistency loop split into one group per segment |
| TtsAssemblies.GroupedIsWalked | apps/server/src/voice-runtime.ts:1338-1380 | one complete group per segment, within the frame bound, passes the loop |
| TtsAssemblies.ReceivedIsChunksThenEnd | apps/server/src/voice-runtime.ts:350-406 | an accepted callback sequence is numbered chunks followed by nothing but its end |
| TtsAssemblies.TtsAssembly.OnMessage | apps/server/src/voice-runtime.ts:350-406 | one callback admits its message or throws without a change |
| TtsAssemblies.ValidateConsistency | apps/server/src/voice-runtime.ts:1338-1380 | the loop accepts exactly the consistent assemblies |
| TtsAssemblies.ConcatenatePcm | apps/server/src/voice-runtime.ts:1382-1402 | the array filled by offset is the concatenation of the chunks, and it is refused exactly when their length is not the declared one |
| VisionBridge.AdvanceKeeps | apps/server/src/whiteboard-vision-coordinator.ts:447-587 | every stretch of an invocation keeps the session consistent and leaves the invocation what it relies on next |
| VisionBridge.StepKeepsInv | apps/server/src/whiteboard-vision-coordinator.ts:447-629 | every step of concurrent invocations, recovery and crashes keeps the session consistent and never undoes a bridge |
| VisionBridge.AtMostOneDecisionAndCommit | packages/interview-engine/src/turn-coordinator.ts:1155-1380 | in every run a request records at most one decision and commits at most once, and evidence cites its result exactly as often |
| VisionBridge.CommittedOnlyWhenWarranted | packages/interview-engine/src/turn-coordinator.ts:1336-1346 | in every run a step that commits a request's evidence finds the board at the request's revision, the problem the proposal's own, every cited event known and the proposal committable |
| VisionBridge.RecordedCommandRepeats | packages/interview-engine/src/session-writer.ts:151-160 | a recorded command repeats its answer in every later session, and another command under its request id is a conflict |
| VisionBridge.CompletedFlagIsTheTruth | packages/events/src/reducer.ts:582-636 | a completed bridge says whether its evidence was committed, then and in every continuation |
| VisionBridge.SuccessfulRecoveryLeavesNoneWaiting | apps/server/src/whiteboard-vision-coordinator.ts:589-629 | after a recovery that succeeds no request accepted before it is pending or decided with a proposal |
| VisionBridge.ThrownExactly | packages/interview-engine/src/turn-coordinator.ts:1218-1276 | a command fails if and only if it is a decision differing from the recorded one, or the proposal is beyond the bounds; a completion never disagrees with the history |
| VisionBridge.OutOfBoundsStaysWaiting | packages/interview-engine/src/turn-coordinator.ts:1312-1323 | a decided proposal beyond the bounds is never completed |
| VisionBridge.OutOfBoundsFailsEveryRecovery | apps/server/src/whiteboard-vision-coordinator.ts:589-629 | no recovery begun after such a decision ever succeeds, in this process or after any crash |
| VisionBridge.OutOfBoundsIsReachable | packages/interview-engine/src/turn-coordinator.ts:1155-1216 | a run in which such a decision is recorded |
| VisionBridge.UndisturbedBridge | apps/server/src/whiteboard-vision-coordinator.ts:447-587 | left alone, a bridge completes if and only if the interpreter, the problem and the proposal's size allow it, and reports the evidence the history holds |
| VisionBridge.UndisturbedCommit | packages/interview-engine/src/turn-coordinator.ts:1336-1380 | an undisturbed bridge of a decided request reports one if and only if revision, problem, provenance and committability hold, and records that as its completion |
| VisionBridge.UndisturbedProposal | apps/server/src/whiteboard-vision-coordinator.ts:447-587 | an undisturbed bridge of a pending request admits the interpreter's proposal exactly when it cites the result for the current problem, and commits it exactly when the board is still at its revision and it is committable |
| VisionBridge.UndisturbedRecovery | apps/server/src/whiteboard-vision-coordinator.ts:589-629 | left alone, recovery succeeds if and only if each waiting request could be bridged by itself at the outset |
| VisionBridge.WhiteboardVisionCoordinator.Issue | packages/interview-engine/src/session-writer.ts:133-195 | a command is recorded once, repeated as before, or rejected without a change |
| VisionBridge.WhiteboardVisionCoordinator.CompleteEvidenceBridge | apps/server/src/whiteboard-vision-coordinator.ts:447-587 | the method is the undisturbed run of its stretches |
| VisionBridge.WhiteboardVisionCoordinator.RecoverPendingVisionEvidence | apps/server/src/whiteboard-vision-coordinator.ts:589-629 | the loop bridges the waiting requests in order and stops at the first failure |
| PngRows.PaethIsFirstNearest | workers/python/local_vision_runtime.py:699-708 | the predictor is the first of left, above, upper left that is nearest to the linear estimate |
| PngRows.FilteredByStandard | workers/python/local_vision_runtime.py:673-696 | each stored byte stands for its pixel byte less what section 6 of RFC 2083 predicts: none, left, above, half their sum, Paeth |
| PngRows.FirstRowByStandard | workers/python/local_vision_runtime.py:673-696 | in the first row and for the first pixel the missing neighbours count as zero |
| PngRows.UnfilterUndoesFilter | workers/python/local_vision_runtime.py:673-696 | unfiltering a row the standard's encoder filtered returns it, for each of the five filters and every pixel size |
| PngRows.FilterUndoesUnfilter | workers/python/local_vision_runtime.py:673-696 | filtering an unfiltered row returns the stored one, so no two stored rows decode alike |
| PngRows.ChoosePredictor | workers/python/local_vision_runtime.py:686-695 | the branch taken for each filter type, an unknown one refused |
| PngRows.UnfilterRowInPlace | workers/python/local_vision_runtime.py:673-696 | in place, every byte is predicted from bytes already recovered; an unknown filter is refused before any byte changes |
| PngRows.ImageRoundTrip | workers/python/local_vision_runtime.py:617-632 | decoding the scanlines of any image, with any filter per row, returns the image |
| PngRows.DecodeRow | workers/python/local_vision_runtime.py:623-630 | a copy of the stored row comes back unfiltered against the row above, or its filter type is refused |
| PngRows.DecodeImage | workers/python/local_vision_runtime.py:617-632 | the loop over all rows decodes the whole image or refuses it |
| PngChunks.ParsePrinted | workers/python/local_vision_runtime.py:554-614 | parsing undoes printing: header and concatenated IDAT data are recovered however they were split |
| PngChunks.AcceptedIsWellFormed | workers/python/local_vision_runtime.py:554-614 | an accepted file is byte for byte the printing of a well-formed chunk list that describes the result |
| PngChunks.HeaderAcceptedExactly | workers/python/local_vision_runtime.py:577-594 | thirteen bytes are accepted as a header if and only if they are the big-endian fields of an image within the bounds, of eight bits, no interlace and a supported colour type |
| PngChunks.ChannelsByStandard | workers/python/local_vision_runtime.py:614-617 | the channel count is what the colour and alpha bits of the type say |
| PngChunks.ReadChunks | workers/python/local_vision_runtime.py:554-614 | the cursor loop ends on arbitrary bytes with the parser's verdict |
| PngChunks.PngRoundTrip | workers/python/local_vision_runtime.py:554-632 | decoding a printed file gives back the image, for every choice of filters and chunks |
| DecodeGuards.HasRepeatedTokenCycle | workers/python/local_vision_runtime.py:379-394 | true if and only if some period from 2 to 16 stands six times at the end |
| DecodeGuards.BlocksEqualLast | workers/python/local_vision_runtime.py:384-393 | all blocks equal the last exactly when the suffix repeats with that period |
| DecodeGuards.PassesIsGuarded | workers/python/local_vision_runtime.py:223-232 | checking the end of every prefix leaves no run of eight and no sixfold repetition anywhere, and refuses nothing else |
| DecodeGuards.RefusedExactly | workers/python/local_vision_runtime.py:196-232 | what is refused is a run of eight or a sixfold block among the tokens themselves, or seven start tokens at their beginning, and nothing else |
| DecodeGuards.SevenAreRefused | workers/python/local_vision_runtime.py:196-232 | seven generated start tokens are refused although no run of eight and no sixfold block stands among them |
| DecodeGuards.DecodeTokens | workers/python/local_vision_runtime.py:196-235 | the loop returns the decoder's own sequence if and only if it ends in time, within the limits and repeats nowhere |
| PreprocessBounds.MinMaxFits | workers/python/local_vision_runtime.py:478-498 | any size is brought within the model's bounds, and exactly those within are left alone |
| PreprocessBounds.ShrinksInProportion | workers/python/local_vision_runtime.py:478-490 | what does not fit is divided, both sides alike, by the larger of the two excess ratios, to the pixel |
| PreprocessBounds.PadUpIsNextMultiple | workers/python/local_vision_runtime.py:550-551 | padding gives the least multiple of 32 that is large enough |
| PreprocessBounds.PreprocessingStaysInBounds | workers/python/local_vision_runtime.py:508-547 | an iteration succeeds if and only if the ratio and requested size are in range and ink is found, and then yields positive multiples of 32 within 672 by 192, so the error for exceeding them is unreachable |
| HistoryProjections.ExposedExactly | packages/events/src/reducer.ts:841-874 | a delivery ends exposed or completed if and only if it was physically exposed and not queued again since |
| HistoryProjections.HistoryShowsExactly | apps/server/src/session-recovery-coordinator.ts:147-211 | every entry shows one of the events to be shown, every such event has its entry, and sequence numbers strictly increase |
| HistoryProjections.EachTurnOnce | apps/server/src/session-recovery-coordinator.ts:147-211 | every committed turn has exactly one student entry, with its own sequence, turn and text |
| HistoryProjections.TurnsWereCommitted | apps/server/src/session-recovery-coordinator.ts:147-211 | every student entry is a committed turn at its sequence |
| HistoryProjections.MovesAsLedger | packages/events/src/reducer.ts:841-874 | a logged status change is accepted exactly when the delivery ledger accepts it, with the same outcome |
| HistoryProjections.EntriesWereExposed | apps/server/src/session-recovery-coordinator.ts:158-207 | every interviewer entry is a delivery physically exposed at that event and exposed or completed now, with the text last queued for it as text or audio, which later whiteboard queueings leave in place |
| HistoryProjections.ShowsCurrentExactly | apps/server/src/session-recovery-coordinator.ts:158-193 | a visible exposure shows the generation and text of the last queueing of its id before it if and only if that queueing was text or audio |
| HistoryProjections.EntriesAreCurrentExactly | apps/server/src/session-recovery-coordinator.ts:158-207 | the same of the text of every interviewer entry |
| HistoryProjections.FreshEntriesAreCurrent | apps/server/src/session-recovery-coordinator.ts:158-207 | with ids queued once, every interviewer entry shows the text of its delivery's only queueing |
| HistoryProjections.StaleTextIsShown | apps/server/src/session-recovery-coordinator.ts:158-168 | a log whose history shows earlier text for an exposed whiteboard delivery |
| HistoryProjections.EachKeyOnce | apps/server/src/session-recovery-coordinator.ts:196-199 | every visible key has exactly one entry, at its first exposure |
| HistoryProjections.EachPairOnce | apps/server/src/session-recovery-coordinator.ts:196-199 | with generation ids free of NUL every visible (generation, text) pair has exactly one entry, at its first exposure |
| HistoryProjections.VisibleExactly | apps/server/src/session-recovery-coordinator.ts:184-195 | an exposure is visible if and only if its content was queued as text or audio and its delivery was exposed for good |
| HistoryProjections.FreshIdsShowEverything | apps/server/src/session-recovery-coordinator.ts:184-195 | with ids queued once, every exposure of text or audio is visible |
| HistoryProjections.RequeueingHides | apps/server/src/session-recovery-coordinator.ts:184-195 | a log in which queueing an id again hides what was shown |
| HistoryProjections.KeysCollideExactly | apps/server/src/session-recovery-coordinator.ts:578-580 | exactly when two different pairs share a key |
| HistoryProjections.KeysCanCollide | apps/server/src/session-recovery-coordinator.ts:578-580 | two different pairs that share a key |
| HistoryProjections.KeysIdentifyPairs | apps/server/src/session-recovery-coordinator.ts:578-580 | keys tell pairs apart when generation ids hold no NUL |
| HistoryProjections.GetHistory | apps/server/src/session-recovery-coordinator.ts:147-211 | the loop with its map and key set computes the history defined by first exposures |
| Telemetry.FinishedKeepsReaderExactly | apps/server/src/session-observability.ts:231-257 | a finish leaves counters the reader accepts if and only if something of its kind was pending or the cap is reached |
| Telemetry.ReaderComparesTotals | apps/server/src/session-observability.ts:231-257 | the reader's saturating sums compare the true totals up to the cap |
| Telemetry.RunsPassReader | apps/server/src/session-observability.ts:397-487 | in every run without an eviction between begin and finish the counters pass the reader, saturated or not |
| Telemetry.StartedIsFinishedPlusPending | apps/server/src/session-observability.ts:397-487 | below the cap, calls of each kind are exactly those finished plus those pending |
| Telemetry.TotalsCoverDroppedAttempts | apps/server/src/session-observability.ts:467-476 | in every run outcome counts and byte totals cover every attempt settled since they were last lost, dropped ones included, up to the cap |
| Telemetry.AttemptsAreLatest | apps/server/src/session-observability.ts:477-503 | in every run the attempt list is the latest 256 in order and marked partial once one is gone; turn ids are distinct, counted and at most 512 |
| Telemetry.TurnsAreCountedExactly | apps/server/src/session-observability.ts:488-503 | in every run the turns held are the first 512 different ones recorded since the metrics were last lost and their number is the count; the metrics are partial if and only if one was turned away, an attempt was dropped or untimed, or what was lost may have been |
| Telemetry.CallIsLogged | apps/server/src/session-observability.ts:428-487 | a call that begins, is given sizes and finishes is logged once with its outcome, time and saturated sizes; finishing or sizing it again changes nothing |
| Telemetry.ReaderAcceptsExactly | apps/server/src/session-observability.ts:200-257 | the persistence reader accepts exactly bounded counters whose pending calls are started ones and whose finished and pending calls add up to those started, or both to the cap |
| Telemetry.FinishIsSafeExactly | apps/server/src/session-observability.ts:440-487 | in any state whose counters pass, finishing any open handle leaves acceptable counters if and only if something of its kind is pending or the cap is reached |
| Telemetry.PassesThroughoutExactly | apps/server/src/session-observability.ts:397-503 | over any run, evictions and unmatched finishes included, the counters pass the reader at every moment if and only if each first valid finish finds a call of its kind pending or the cap reached |
| Telemetry.UnmatchedFinishTakesAnothersCall | apps/server/src/session-observability.ts:440-487 | a run in which an unmatched finish is accepted and another call's own finish is then the one that leaves counters the reader refuses |
| Telemetry.EvictionCanCorrupt | apps/server/src/session-observability.ts:701-737 | a run after which finishing an open handle leaves counters the reader refuses |
| Telemetry.SessionMetrics.BeginRemoteOperation | apps/server/src/session-observability.ts:413-426 | a begin adds one started and one pending call of its kind, saturating, and touches nothing else |
| Telemetry.SessionMetrics.FinishRemoteOperation | apps/server/src/session-observability.ts:440-480 | a valid finish moves one call from pending to its outcome, adds its sizes and appends it, dropping the oldest of 256 and marking that |
| Telemetry.SessionMetrics.RecordCandidateSubstantiveTurn | apps/server/src/session-observability.ts:488-503 | a known turn changes nothing, and a full set is frozen and marked partial |

## Left out

- Storage failures of the session writer, and with them the error branch after a write (apps/server/src/renderer-stream-server.ts:420-440).
- StreamServer.RendererStreamServer.ContinueAfterMark: the marking command does not fail, so what follows when it throws (apps/server/src/renderer-stream-server.ts:420-440) is not part of it.
- More than one renderer client per session; the wire's retry timers, failure counters and abort signals (timeouts are steps that may happen at any time).
- The command response as a second way to present a delivery: it is a step that may only move a delivery from QUEUED to DELIVERING.
- JSON, schema validation, UTF-8 decoding, base64, checksums, zlib, SHA-256, ONNX models and image resampling: lengths and fields they guarantee are stated as conditions, their results are arbitrary.
- IEEE rounding: samples, timestamps and ratios are reals, so NaN, infinities and the rejection of non-finite values do not occur.
- HTTP servers, transport tokens and origins, windows, file serving, the user interface and process supervision.
- SseFraming.StreamRoundTrip: chunks are sequences of characters, since decoding bytes that end inside a character is the runtime's own.
- VadStream.ChunkingDoesNotMatter: one sample rate per stream; a rate change is `RateChangeForgetsStream`.
- VoiceInput.StepKeepsInv: the loop over worker callbacks is given as its stretches between awaits on values rather than as a method, sample rates and the session's absence from the store are not part of it, and the audio checks of a finalization are those of `PcmLedger.dfy`.
- VoiceInput.BindingsStayInverse: runs whose shutdown visits meet no stream id bound again by the same session; `ReleaseIsSafeExactly` shows that exactly the others break the bindings.
- VisionBridge.StepKeepsInv: requests accepted without an admission record, the order by result sequence in which recovery visits requests, and the release of undelivered output when evidence changes are not modelled.
- PngChunks.PngRoundTrip: ends at the unfiltered rows; compositing alpha over white is rounding arithmetic.
- DecodeGuards.DecodeTokens: ends at the accepted tokens; turning them into text is the tokenizer's and regular expressions' part.
- PreprocessBounds.PreprocessingStaysInBounds: one iteration; how often the resizer model asks for another is its own choice.
- HistoryProjections.GetHistory: wall times and the input episode of a turn are not carried along.
- Telemetry.RunsPassReader: runs without an eviction between begin and finish; `PassesThroughoutExactly` says what happens otherwise. Local timings, formal-interpretation counts and identifier trimming would add only more counters of the same kind.
- Turn orchestration, Oxford keyword matching, provider readiness, session cards, whiteboard geometry and catalogs: long lists of independent branches.
