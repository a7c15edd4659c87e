# Verified model of stompman

stompman is a STOMP 1.2 client. This project models its two hard cores and proves what they are
for: the wire codec, whose incremental parser has to agree with the printer under any chunking, and
the reconnecting session, in which several asyncio tasks share one live connection that any of them
may see fail. Two small supporting parts are modelled as well: the retry arithmetic and the
resolution of connection parameters.

`dafny verify dfyconfig.toml` checks everything. Dafny 4.11 is assumed.

## Layout

| module | what it holds |
|---|---|
| `Bytes`, `Utf8`, `Decimal` | bytes, a complete UTF-8 codec, decimal printing and parsing |
| `HeaderCodec` | `dump_header`, `parse_header`, and the plain automaton behind its two flags |
| `Frames`, `Parser` | the printer, and `FrameParser` as a class with its six fields |
| `Reference` | a whole-stream reader that takes one line at a time, and the refinement proof |
| `RoundTrip`, `Connect` | which escaped frames and which CONNECT frames come back, and why any body does |
| `Wire` | commands, bodies, escapes and numbers in literal bytes |
| `Accounting`, `Streams` | what a frame costs on the wire, and which streams come back |
| `Config` | `Heartbeat` headers and `from_pydantic_multihost_hosts` |
| `Session` | the session as a labelled transition system over whole runs |
| `Lifecycle`, `Effects` | the connection invariant; what each step writes, moves and leaves alone |
| `Messages` | epoch fencing, settlement, the handler semaphore, the no-message monitor |
| `Prologue`, `Subscriptions`, `Transactions` | per-connection logs against the registries |
| `Reachability` | what holds in every state of every run |
| `History`, `Agreement`, `Commits` | theorems about whole runs: where a prologue comes from, exactly when the live connection carries a subscription or a transaction, exactly when the work of a transaction is lost |
| `Failures`, `Origins` | which failures end a connection and when the monitor may; who asked for each frame on a log |
| `Progress` | from every reachable state, what a task waits for can still happen |
| `Witnesses` | runs in which the unconditional forms fail |
| `Retry` | the retry loops, their bounds, and that the bounds are tight |
| `Lifespan`, `Manager` | the registries, `enter()`, `maybe_write_frame` and `_ack` as objects, against the same definitions |

## How the session is modelled

A state holds, for every connection ever opened, the frames handed to its writer in order and what
became of it (being entered, active, closed); the live connection and the reconnection count; the
lock; where every asyncio task is suspended; both registries; every message read; the free handler
permits; the clock. A label is what one task does between two points where it can be suspended, so
a run is any interleaving. `Enabled` and `Next` are functions of state and label, and every enabled
label can be taken in every reachable state (`Reachability.AlwaysSized`).

- Writing a frame and the end of its drain are separate steps. The end of a drain and what follows
  it at once (adding to a registry) are one step.
- The epoch check and the choice of connection for an ACK or NACK are one step, because nothing
  suspends between them.
- A log is what was handed to the writer. Which of it reached the broker is not observed.
- Ids of subscriptions and transactions are fresh, and each subscription is started once.
- After an installation the installing task may be overtaken before it goes on. The code does not
  allow this; it only adds runs, and no run in `Witnesses` uses it.
- If a registry changes while `commit_pending_transactions` iterates over it, the attempt fails at
  the next iteration step, as it does for a Python set that changes size.
- A write to a writer that is already closed counts as written and then lost.

## What was found

- **A drain that ends late.** When a SUBSCRIBE is written, the connection is discarded and replaced,
  and only then the first drain reports success, the subscription is registered although the live
  connection never carried it (`Witnesses.LateSubscribeDisagrees`). The same happens when the drain
  ends between the snapshot of the next connection and its installation
  (`Witnesses.MissedSnapshotDisagrees`). The exact condition is `Agreement.SubscriptionAgreement`:
  throughout a run the live connection carries a registered subscription exactly once if and only
  if the subscription is never registered while another connection is live than the one it was
  written to, and no connection is installed after whose snapshot it was registered, unless it was
  unsubscribed in between. A registration that misses a snapshot does no harm when that connection
  is never installed.
- **Likewise a BEGIN** (`Witnesses.LateBeginIsNowhere`): a transaction is whole on the live connection
  whenever it is registered, throughout a run, if and only if its own BEGIN is not confirmed while
  another connection is live (`Commits.TransactionOnLive`).
- **Work that is lost.** `Commits.DroppedIff` gives the two ways, and the only two, in which a cleanly
  exited transaction ends with its COMMIT unconfirmed, nobody to retry it, and no connection that
  has replayed it in full. (1) A send recorded after `commit_pending_transactions` has passed its
  transaction is missing from the replay; the transaction is exited while that connection is still
  being entered, and the connection is installed (`Witnesses.ExitBehindReplayDrops`). (2) An
  installed replay has removed the transaction from the registry, a send is recorded after it, and
  the exit finds no live connection or loses its drain: it returns without error and without retry
  (`Witnesses.UnregisteredExitDrops`). Awaiting every send excludes the first but not the second;
  a transaction that is still registered at its exit and has no send outstanding is never lost
  (`Commits.AwaitedCommitIsKept`).
- **The replay writes no BEGIN.** `commit_pending_transactions` writes the sends and the COMMIT of a
  transaction on a connection that never saw its BEGIN. The model follows the code.
- **CONNECT.** The client's own README.md:170 says that CONNECT headers are escaped; serde.py:83-87
  does not escape them, while every parsed frame is unescaped. The model follows the code, and
  `Connect.ConnectRoundTrip` gives the exact condition under which a CONNECT frame reads back.
- **`\r`.** "Value Encoding" in STOMP 1.2 has an escape for carriage return; the code deletes CR and
  does not decode the escape. Codec results are up to removal of CR.

## Model

| member | source | states |
|---|---|---|
| Utf8.DecodeEncode | packages/stompman/stompman/serde.py:130-134 | decoding inverts encoding on every string |
| Utf8.DecodeIsExact | packages/stompman/stompman/serde.py:130-134 | whatever decodes is the encoding of its result, so overlong forms, surrogates and stray continuation bytes are rejected |
| HeaderCodec.ParseHeader | packages/stompman/stompman/serde.py:107-134 | the loop with its two flags computes, on every byte sequence, what a plain two-state automaton and a split at the only colon compute |
| HeaderCodec.AutomatonSplits | packages/stompman/stompman/serde.py:99-134 | the automaton equals: exactly one colon, both halves unescaped with unknown escapes dropped, both valid UTF-8 |
| HeaderCodec.EscapeCommutesWithEncode | packages/stompman/stompman/serde.py:75-78 | escaping characters and encoding equals encoding and escaping bytes, CR removed |
| HeaderCodec.UnescapeEscape | packages/stompman/stompman/serde.py:35-45 | unescaping inverts escaping on bytes up to CR |
| HeaderCodec.HeaderRoundTrip | packages/stompman/stompman/serde.py:75-134 | every dumped header is one line that parses back to its key and value with CR removed; the line holds NUL exactly if the header does |
| Decimal.ParseInvertsPrint | packages/stompman/stompman/frames.py:157-158 | decimal parsing inverts `str` on every integer, so the abstract `int()` has an instance |
| Frames.SortedItemsSpec | packages/stompman/stompman/serde.py:82-82 | the header items in strict code-point order of keys, and the same map |
| Frames.LookupName | packages/stompman/stompman/serde.py:52-71 | command lookup inverts command names, for every command |
| Frames.BuildSendCarries | packages/stompman/stompman/frames.py:144-163 | each header of the built frame is the argument it stands for, or else the caller's |
| Parser.FrameParser.constructor | packages/stompman/stompman/serde.py:152-154 | a new parser is between frames |
| Parser.FrameParser.Reset | packages/stompman/stompman/serde.py:156-161 | back between frames, keeping the previous byte |
| Parser.FrameParser.HandleNullByte | packages/stompman/stompman/serde.py:163-171 | abandons an unfinished head, takes NUL into an owed body, or emits the frame |
| Parser.FrameParser.HandleNewlineByte | packages/stompman/stompman/serde.py:173-184 | heartbeat, command line, header line or blank line, with one trailing CR popped |
| Parser.FrameParser.ProcessCommand | packages/stompman/stompman/serde.py:186-192 | an unknown command line is noise and resets the parser |
| Parser.FrameParser.ProcessHeader | packages/stompman/stompman/serde.py:194-205 | first occurrence of a header wins; a valid content-length among first occurrences sets the length |
| Parser.FrameParser.HandleBody | packages/stompman/stompman/serde.py:207-209 | body bytes beyond the content length are dropped |
| Parser.FrameParser.ParseByte | packages/stompman/stompman/serde.py:212-222 | one byte takes the object to the state and frames of the step function and keeps it consistent |
| Parser.FrameParser.ParseFramesFromChunk | packages/stompman/stompman/serde.py:211-222 | one chunk takes the object to the fold of the step function over its bytes |
| Parser.ChunkingIsInvisible | packages/stompman/stompman/serde.py:211-222 | any way of cutting the stream gives the same frames and the same final state |
| Parser.FeedKeepsConsistent | packages/stompman/stompman/serde.py:156-222 | over every byte sequence: the CR pop never meets an empty buffer, processed headers imply a command, a body never exceeds a non-negative content length |
| Parser.NullResynchronises | packages/stompman/stompman/serde.py:163-171 | one NUL returns the parser to between frames if and only if no body byte is owed |
| Reference.ParserRefinesReference | packages/stompman/stompman/serde.py:163-222 | on every byte stream and chunking, the emitted frames are those of the line-by-line reference reader |
| RoundTrip.FrameRoundTrip | packages/stompman/stompman/serde.py:81-96 | a dumped frame other than CONNECT reads back as itself if and only if its headers are free of NUL and CR and its body matches the effective content length, or has no NUL when there is none |
| Accounting.FeedPays | packages/stompman/stompman/serde.py:163-222 | over every byte sequence, the dumps of the frames that come out and of the one being read are no longer than the bytes that went in |
| Streams.StreamRoundTrip | packages/stompman/stompman/serde.py:81-222 | a sequence of heartbeats and frames, CONNECT included, concatenated and cut anywhere, reads back exactly if and only if each frame meets its own condition; the parser then ends between frames |
| Wire.ReceivedBody | packages/stompman/stompman/serde.py:137-140 | fed from between frames, the bytes of a head, a body and a NUL come out as that frame with that body if the command is SEND, MESSAGE or ERROR, and with none for the twelve others |
| Wire.OnlyTheseHaveBodies | packages/stompman/stompman/serde.py:163-171 | over every byte sequence, only SEND, MESSAGE and ERROR come out with a body |
| Wire.DumpedBody | packages/stompman/stompman/serde.py:88-96 | what `dump_frame` writes, and that only SEND, MESSAGE and ERROR are written with their body |
| Wire.CommandBytes | packages/stompman/stompman/serde.py:52-71 | the bytes of each of the fifteen command names |
| Wire.EscapeTable | packages/stompman/stompman/serde.py:35-40 | what each byte is written as in a header |
| Wire.UnescapeTable | packages/stompman/stompman/serde.py:41-45 | what each escape, known or not, stands for when a header is read |
| Wire.EncodedCharacter | packages/stompman/stompman/serde.py:75-78 | the bytes of each character: how many, which leading and continuation bytes, and the code point they add up to |
| Wire.RepeatedHeaderIsIgnored | packages/stompman/stompman/serde.py:199-205 | fed to the parser, the line of a header that is already there changes nothing, its content length included |
| Wire.LengthSpellings | packages/stompman/stompman/serde.py:202-204 | a key announces a length if and only if it is content-length in any mix of capitals |
| Wire.PrintedValue | packages/stompman/stompman/frames.py:157-158 | a number is printed as its digits in base ten without leading zeros |
| RoundTrip.FeedIsNulFree | packages/stompman/stompman/serde.py:163-205 | no parsed header ever contains NUL |
| RoundTrip.EffectiveLengthIs | packages/stompman/stompman/serde.py:194-205 | the content length of a dump is that of the greatest spelling of content-length whose value is a number, and absent exactly if there is none |
| RoundTrip.LowercaseWins | packages/stompman/stompman/serde.py:194-205 | among all spellings of content-length in a dump, the lower-case one decides the length when it is a number |
| RoundTrip.AnyBodySurvives | packages/stompman/stompman/frames.py:144-163 | `SendFrame.build` with content length, dumped, cut anywhere and parsed, returns the same frame for every body and every other spelling of content-length |
| Connect.ConnectRoundTrip | packages/stompman/stompman/serde.py:83-87 | a dumped CONNECT frame reads back as itself if and only if its headers are free of NUL, newline, colon and backslash, no value ends in CR, and the effective content length is absent or 0 |
| Connect.NoSlashes | packages/stompman/stompman/serde.py:99-134 | a CONNECT frame that comes back has no backslash, because reading returns at most half of those on a line |
| Config.HeartbeatRoundTrip | packages/stompman/stompman/config.py:11-17 | `from_header` inverts `to_header` for all integers |
| Config.HeartbeatRead | packages/stompman/stompman/config.py:14-17 | every header is read as the numbers around its first comma, and rejected without a comma or a number |
| Config.FromMultihostHosts | packages/stompman/stompman/config.py:63-100 | the loop computes the specification, with the first error in host order |
| Config.CredentialAlignment | packages/stompman/stompman/config.py:63-100 | success exactly when every host has address and port, user name and password come together, and the pairs number one or the hosts; order kept, each entry with its own host's pair or all with the single one |
| Config.RejectionMeans | packages/stompman/stompman/config.py:63-100 | each rejection names what the first incomplete host lacks, or says that all are complete and the pairs are none, or more than one and fewer than the hosts |
| Lifecycle.AliveStep | packages/stompman/stompman/connection_manager.py:174-298 | every step keeps: one live connection, entered under one lock, epochs counting installations, every other connection closed |
| Lifecycle.DiscardKeeps | packages/stompman/stompman/connection_manager.py:235-249 | a stale failure changes nothing; a fresh one closes the live connection, leaves none live and starts an epoch |
| Lifecycle.InstallKeeps | packages/stompman/stompman/connection_manager.py:212-228 | installing never overwrites a live connection |
| Effects.LogsGrow | packages/stompman/stompman/connection.py:86-90 | each step appends at most one frame to one log, namely the one it writes |
| Effects.WroteWhere | packages/stompman/stompman/connection_manager.py:261-298 | application frames go to the live connection, prologue frames to the one being entered |
| Messages.AnswersAreFenced | packages/stompman/stompman/subscription.py:75-137 | an ACK or NACK goes to the connection that delivered the message, for a registered subscription and a message with an ack header |
| Messages.EpochTestIsExact | packages/stompman/stompman/subscription.py:126-137 | with a live connection, the epoch test passes if and only if that connection delivered the message |
| Messages.FencedStep | packages/stompman/stompman/subscription.py:75-137 | every step keeps epoch fencing |
| Messages.SettledStep | packages/stompman/stompman/subscription.py:141-159 | every step keeps settlement: at most one answer, matching the handler's outcome |
| Messages.ConservedStep | packages/stompman/stompman/client.py:117-149 | every step keeps permits plus running handlers equal to the cap |
| Messages.DoneOnce | packages/stompman/stompman/client.py:143-149 | a handler task is done by its done-callback alone, and once |
| Messages.MonitorIsPatient | packages/stompman/stompman/connection_manager.py:134-150 | the monitor fires only a full interval after every message and after the installation |
| Prologue.PrefacedStep | packages/stompman/stompman/connection_lifespan.py:50-96 | every step keeps: what enter() has written is exactly its progress, and each installed log starts with a complete prologue |
| Subscriptions.SubsOkStep | packages/stompman/stompman/subscription.py:63-73 | every step keeps: at most one SUBSCRIBE per subscription and connection; a pending subscription is in no list and on closed connections only, but for the one it drains to |
| Subscriptions.TimesInPrologue | packages/stompman/stompman/subscription.py:183-194 | a prologue subscribes exactly to its snapshot, once each |
| Transactions.PhasesOkStep | packages/stompman/stompman/transaction.py:20-54 | every step keeps each transaction in the phase its tasks and the registry imply |
| Transactions.WholeIffTimely | packages/stompman/stompman/transaction.py:20-54 | from a transaction that is whole on the live connection if registered, a step leads to such a one if and only if it does not confirm its BEGIN while another connection is live |
| Transactions.CleanExitIsWhole | packages/stompman/stompman/transaction.py:25-34 | a clean exit leaves BEGIN, the sends in order, COMMIT, and nothing else of it |
| Transactions.RestrictReplay | packages/stompman/stompman/transaction.py:61-68 | a replay holds, of each of its transactions, the sends in order and one COMMIT |
| Transactions.InFullIffReplayed | packages/stompman/stompman/transaction.py:61-68 | a prologue holds of a transaction all its sends in order and one COMMIT if and only if the connection replayed it with those sends |
| Commits.InstallReplaysInFull | packages/stompman/stompman/transaction.py:61-68 | the installation that empties the registry publishes a log that holds, of each registered transaction whose replay is not stale, all sends in order and one COMMIT |
| Transactions.QuietExitIsCurrent | packages/stompman/stompman/transaction.py:36-54 | an exit with no send outstanding is behind no replay |
| Reachability.RunInv | packages/stompman/stompman/connection_manager.py:174-298 | all invariants hold in every state of every run |
| Reachability.AlwaysSized | packages/stompman/stompman/connection_manager.py:174-298 | in every reachable state every enabled step can be taken |
| Reachability.ConnectionLifecycle | packages/stompman/stompman/connection_manager.py:174-249 | reconnection count is installations minus one if live; no connection is installed twice; each is being entered by the lock holder, live or closed; a live one is never replaced in a step |
| Failures.FailureDiscards | packages/stompman/stompman/connection_manager.py:235-298 | in every run, a lost reader, a lost drain of a frame, COMMIT or ABORT, and any other failure close the failing connection and start an epoch if it is live, and change no connection otherwise |
| Failures.MonitorDiscards | packages/stompman/stompman/connection_manager.py:141-149 | in every run the monitor closes the connection that was live, leaves none live and starts an epoch |
| Failures.LiveChangesOnlyBy | packages/stompman/stompman/connection_manager.py:206-249 | a live connection ends only by these steps, and becomes live only by its installation |
| Failures.InstalledWhen | packages/stompman/stompman/connection_manager.py:219-222 | the time kept for an installed connection is that of the step that installed it |
| Failures.MessageOrigin | packages/stompman/stompman/client.py:119-124 | every message was appended by one step that read it, with the connection and epoch of its reader and the time of its reading |
| Reachability.EpochFencing | packages/stompman/stompman/subscription.py:75-137 | in every reachable state every ACK or NACK on a connection answers a message read from that connection |
| Reachability.AutoAckSettlement | packages/stompman/stompman/subscription.py:141-159 | over all connections, at most one answer per auto-ack message; ACK only after a return, NACK only after a suppressed exception, none in mode "auto" |
| Reachability.AnswerIffStillLive | packages/stompman/stompman/subscription.py:150-159 | the end of a handler writes the answer its outcome asks for, on the delivering connection, if and only if the subscription answers by itself, the message has an ack header, the subscription is registered and that connection is still live; otherwise no log changes |
| Reachability.ManualAnswerIffStillLive | packages/stompman/stompman/subscription.py:172-176 | `ack()` and `nack()` write exactly their answer, on the delivering connection, under the same three conditions; otherwise no log changes |
| Reachability.NoAnswerAfterUnsubscribe | packages/stompman/stompman/subscription.py:71-73 | after an unsubscribe, no message of that subscription is answered for the rest of the run |
| Reachability.NoAnswerOnceUnregistered | packages/stompman/stompman/subscription.py:75-137 | no answer is written for an unregistered subscription |
| Reachability.HandlerConservation | packages/stompman/stompman/client.py:117-149 | free permits plus handlers holding one equal `max_concurrent_handlers` in every reachable state |
| Reachability.PermitReturnedOnce | packages/stompman/stompman/client.py:30-34 | each handler returns its permit exactly once whatever its outcome |
| Reachability.MonitorPatience | packages/stompman/stompman/connection_manager.py:134-150 | in every run the monitor discards only after a full interval without messages and since installation |
| Failures.MonitorGuard | packages/stompman/stompman/connection_manager.py:134-150 | in every reachable state the monitor may discard if and only if a connection is live and a full interval has passed since the start, since every message and since every installation |
| Failures.LastMessageIsLatest | packages/stompman/stompman/connection_manager.py:219-222 | the time of the last message is the latest of start, messages and installations |
| History.PrologueOrder | packages/stompman/stompman/connection_lifespan.py:50-96 | every installed log starts with CONNECT, one SUBSCRIBE per subscription registered when its handshake was done, in order, then the replays: each once, of exactly the transactions registered at its installation, with the sends recorded when the COMMIT was written |
| Reachability.NoDoubleSubscribe | packages/stompman/stompman/subscription.py:63-73 | no connection ever carries two SUBSCRIBEs with one id |
| Reachability.RegistryIsKeyedById | packages/stompman/stompman/subscription.py:20-48 | the registered subscriptions always have different ids |
| Origins.WaitingIsWritten | packages/stompman/stompman/connection_manager.py:261-265 | in every run, a task that waits for the drain of a SUBSCRIBE, BEGIN, SEND, COMMIT or ABORT has that very frame on that connection |
| Origins.WrittenWasAsked | packages/stompman/stompman/connection_manager.py:261-298 | in every run, every frame on every connection was asked for by an earlier step with the same contents |
| Origins.ReplayStartsRegistered | packages/stompman/stompman/transaction.py:64-67 | the replay of a transaction starts only while the registry is the very set the iteration began with |
| Progress.GoalStaysAchievable | packages/stompman/stompman/connection_manager.py:206-269 | from every reachable state, every task on its way to a connection can, while it has attempts left, still achieve its goal: its frame on the live connection, drained, and the registries told |
| Progress.QueuedCanRun | packages/stompman/stompman/client.py:124-149 | from every reachable state the handler of every queued message can still be started, unless the cap is zero |
| Progress.NoneRuns | packages/stompman/stompman/client.py:124-126 | with a cap of zero no handler ever runs |
| Progress.AnythingMayStart | packages/stompman/stompman/client.py:156-223 | from every reachable state an idle task can subscribe with a new id, begin a new transaction, or send, and achieve it |
| Progress.LossMayShow | packages/stompman/stompman/connection_manager.py:281-298 | from every reachable state a task that reads or waits for a drain may find its connection lost, which is then not live |
| Progress.AnyMessageMayCome | packages/stompman/stompman/client.py:119-124 | a reader may be sent any message at any time, and it is queued exactly if its subscription is registered |
| Progress.MayBeAnswered | packages/stompman/stompman/subscription.py:172-176 | a message whose handler was started may be acknowledged or rejected by hand at any time, and the answer is written if it can still be answered |
| Progress.OpenMayBeExited | packages/stompman/stompman/transaction.py:25-34 | with a connection live, an open transaction can be exited either way: exactly its COMMIT or ABORT is written and the registry lets go of it and of nothing else |
| Agreement.SubscriptionAgreement | packages/stompman/stompman/subscription.py:63-69 | throughout a run the live connection carries a registered subscription exactly once if and only if it is never registered while another connection is live, and no connection is installed whose snapshot it missed, unless it was unsubscribed in between |
| Agreement.InstallCarries | packages/stompman/stompman/subscription.py:183-194 | a connection is installed with exactly one SUBSCRIBE for each subscription of its snapshot and none for others |
| Commits.TransactionOnLive | packages/stompman/stompman/transaction.py:20-54 | throughout a run a transaction is whole on the live connection whenever it is registered, if and only if its own BEGIN is not confirmed while another connection is live |
| Commits.CleanExitOverRuns | packages/stompman/stompman/transaction.py:25-34 | in every run in which its own BEGIN is confirmed in time, a clean exit of a registered transaction leaves BEGIN, sends, COMMIT on the live connection |
| Commits.DroppedIff | packages/stompman/stompman/transaction.py:25-34 | a run loses the work of a cleanly exited transaction, registered or not, if and only if it is exited behind the replay of a connection that is installed later, or its exit is given up after an installed replay removed it and a send followed |
| Commits.FailedCommitFate | packages/stompman/stompman/connection_manager.py:186-204 | the failed commit of a transaction registered at its exit stays registered with the same sends until an installed connection has replayed it in full, unless it was exited behind an installed replay |
| Commits.NextEnterReplays | packages/stompman/stompman/transaction.py:61-68 | under the same condition the next successful enter writes all its sends in order and one COMMIT, and then the registry is empty |
| Commits.AwaitedExitIsNotBehind | packages/stompman/stompman/transaction.py:36-54 | in every run, an exit with no send of its transaction outstanding is behind no replay |
| Commits.AwaitedCommitIsKept | packages/stompman/stompman/transaction.py:25-54 | in every run, a transaction exited cleanly while registered and with no send outstanding is never lost |
| Witnesses.LateSubscribeDisagrees | packages/stompman/stompman/connection_manager.py:261-269 | a reachable state with a registered subscription and a live connection whose log is CONNECT alone |
| Witnesses.MissedSnapshotDisagrees | packages/stompman/stompman/subscription.py:183-194 | another one, reached by a registration between snapshot and installation |
| Witnesses.LateBeginIsNowhere | packages/stompman/stompman/transaction.py:20-23 | a reachable state with a registered transaction and a live connection whose log is CONNECT alone |
| Witnesses.ExitBehindReplayDrops | packages/stompman/stompman/transaction.py:61-68 | a reachable state in which the failed commit of a transaction with a send is lost |
| Witnesses.UnregisteredExitDrops | packages/stompman/stompman/transaction.py:32-34 | a reachable state, all tasks idle, in which a transaction with an awaited send is lost because a replay had removed it before its exit |
| Retry.GetActiveConnection | packages/stompman/stompman/connection_manager.py:206-233 | succeeds exactly if a connection is active or some attempt succeeds; its attempts and its sleep |
| Retry.WriteFrameReconnecting | packages/stompman/stompman/connection_manager.py:261-269 | the loop computes the round-by-round specification |
| Retry.RetryBounds | packages/stompman/stompman/connection_manager.py:206-269 | at most W writes, W * n connects and (W-1) * I * n(n-1)/2 + I * n(n+1)/2 of sleep |
| Retry.BoundsAreReached | packages/stompman/stompman/connection_manager.py:206-269 | the bounds on connects and sleep are met by some surroundings, for every policy |
| Retry.NormalReturn | packages/stompman/stompman/connection_manager.py:261-269 | a normal return if and only if the last write and no other succeeded, and exactly when some round has connection and write after rounds that only lost their write |
| Retry.NoAttempts | packages/stompman/stompman/connection_manager.py:251-269 | zero write attempts or zero connect attempts fail at once |
| Lifespan.ActiveSubscriptions.constructor | packages/stompman/stompman/subscription.py:20-26 | starts empty with the event set |
| Lifespan.ActiveSubscriptions.GetById | packages/stompman/stompman/subscription.py:28-29 | the subscription with the id, or none exactly if there is none |
| Lifespan.ActiveSubscriptions.DeleteById | packages/stompman/stompman/subscription.py:37-41 | removes as the session removes, and keeps the event set exactly while empty |
| Lifespan.ActiveSubscriptions.Add | packages/stompman/stompman/subscription.py:43-45 | a new id goes last, a known one keeps its place; the event stays set exactly while empty |
| Lifespan.DeletionIsRemoval | packages/stompman/stompman/subscription.py:37-41 | deleting by id is the session's removal |
| Lifespan.Connection.WriteFrame | packages/stompman/stompman/connection.py:86-90 | the frame is handed over, then the drain decides |
| Lifespan.Resubscribe | packages/stompman/stompman/subscription.py:183-194 | all SUBSCRIBEs in order, or all up to the first lost drain |
| Lifespan.ReplayOne | packages/stompman/stompman/transaction.py:64-67 | one transaction's sends and COMMIT, or a prefix of the whole replay |
| Lifespan.CommitPending | packages/stompman/stompman/transaction.py:61-68 | the whole replay and an empty registry, or a prefix and the registry untouched |
| Lifespan.Enter | packages/stompman/stompman/connection_lifespan.py:89-96 | succeeds exactly if the handshake and every drain do; then the log is the whole prologue, else a prefix, with no transaction lost |
| Manager.ConnectionManager.DiscardFailed | packages/stompman/stompman/connection_manager.py:235-249 | by identity: the live connection is closed, none is left live and an epoch starts, while a stale failure changes nothing; as in the session |
| Manager.ConnectionManager.MaybeWriteFrame | packages/stompman/stompman/connection_manager.py:288-298 | true exactly if a connection was active and the drain succeeded; the frame is appended to its log, and a lost drain discards it |
| Manager.ConnectionManager.AckOrNack | packages/stompman/stompman/subscription.py:75-137 | the logs grow by the ACK or NACK if and only if the subscription is registered, the message has an ack header and the epoch is current with a connection active; the session's settlement does the same |
| Manager.ConnectionManager.RunHandler | packages/stompman/stompman/subscription.py:150-159 | for each outcome, the logs grow by the answer it asks for under the same guards, as in the session's step |
| Manager.HandlerStepsMatch | packages/stompman/stompman/subscription.py:150-159 | that end is a step of the session, followed by a failure if the drain is lost |

## Left out

- Sockets, TLS, websockets and `asyncio.open_connection`: a connection is an identity with a log and an outcome per drain.
- Losing sockets of the parallel connect: the code does not track them; the lifecycle speaks of connections handed to a lifespan.
- Task cancellation, including the heartbeat task that cancels itself while reconnecting: at most an attempt that failed and closed its connection.
- Manager and client exit, `_close_active_connection_state`, `ConnectionLifespan.exit` and `wait_until_empty`: runs end before exit.
- The heartbeat schedule, `is_alive` and `keep_alive_on_connection_failure`: heartbeats are attempts to get a connection that write no frame; giving up and trying again are both possible at any time.
- A disabled no-message monitor: it is a run in which the monitor never fires.
- Contents of SUBSCRIBE, CONNECT and other headers in the session, and `SubscribeFrame.build`: frames are identified by what they are about.
- The exit of a transaction that a replay already removed: `set.remove` raises there unless the exit is clean and its COMMIT unconfirmed; the model takes the state such an exit leaves and does not claim that it returns normally.
- Sends on a transaction that has been exited: the code would record and write them; here a send needs an open transaction, so the sends of an exited one are final.
- Exactly-once delivery of sends: a retried send may follow its own replay.
- The converse of subscription agreement: an unsubscribe during the resubscription can leave one on the broker.
- Silent registry changes of the same size during an iteration: treated like any other change.
- Python's `int()` beyond canonical decimals: it is a parameter `toInt`, asked to invert `str` only where a result needs it.
- Lone surrogates in Python strings: strings are sequences of Unicode scalar values.
- Aliasing of the caller's dictionary in `SendFrame.build`: headers are values.
- Bytes read together with CONNECTED: a new parser starts on the next `read_frames`, so what was buffered is lost there; the parser model covers one `read_frames`.
- Progress.GoalStaysAchievable: takes for granted that attempts are left, because the session does not count them (`Retry` does).
- Retry.WriteFrameReconnecting: leaves out time spent waiting for the lock and in connects, which other tasks determine; the heartbeat's loop is the same and is not repeated.
- Lifespan.CommitPending: takes the registry in one iteration order, without other tasks; interleavings are the business of `Session`.
- Logging, uuid generation, the faststream-stomp package, examples and scripts.
