# A verified model of the drocsid chat server and its wire protocol

drocsid is a small TCP chat server with a terminal client. Its server runs one reading task and one
writing task per client over two registries, a bounded message history, a replay barrier and one
bounded channel per client; its protocol crate frames chat lines and presence lists on the wire. This
project models that logic in Dafny and proves what the server and the protocol promise.

## How the model is laid out

| file | what it is about |
|---|---|
| `Common.dfy`, `PerIp.dfy`, `Text.dfy`, `Utf8.dfy` | limits, tokens, counting per address, white space and control characters, UTF-8 (RFC 3629) |
| `Delivery.dfy`, `Registry.dfy` | channels, delivery records and session records as values |
| `Buckets.dfy`, `ClientRegistry.dfy`, `DeliveryRegistry.dfy`, `ServerState.dfy` | the registries, the history and the operations over them, as classes updated in place |
| `Protocol.dfy` | the running server as a step system: every critical section, every `try_send` and every move of a task is a step of its own |
| `Coherence.dfy`, `Streams.dfy`, `Announcements.dfy` | what every step keeps: registries and locks, what each channel carries, who may announce |
| `ServerRuns.dfy`, `Duplicates.dfy`, `Farewells.dfy`, `Lines.dfy`, `Sockets.dfy` | theorems about every reachable state and every run, down to the bytes on a client's socket |
| `Progress.dfy`, `Visits.dfy` | what sessions and writers can do while no lock is held, up to a whole visit |
| `Refinement.dfy` | the step system and the operations run to their end agree |
| `Locks.dfy`, `LockSteps.dfy` | the order in which mutexes are taken, mutual exclusion and freedom from deadlock, and that the step system takes its locks accordingly |
| `Admission.dfy` | connection permits layered over the registry |
| `Limiter.dfy` | the token bucket with idle eviction |
| `Frames.dfy`, `Readers.dfy`, `Presence.dfy`, `ChatText.dfy`, `Mentions.dfy`, `Handshake.dfy`, `AwkwardNames.dfy` | the wire protocol and what is built from it |
| `InNumbers.dfy` | the limits, codes and formats in plain numbers and characters |

Two layers describe the server. The classes run each operation to its end and are proved against
specification functions; bucket order and the order in which a map yields its addresses are left
arbitrary there. The step system lets any number of sessions, writers, broadcasts, presence updates
and removals interleave between critical sections, and its theorems are about all such runs. Both
layers use the same channel and delivery functions (`TrySend`, `Offer`, `Flush`, ...), and `Refinement.dfy`
proves that the steps of one operation, uninterrupted, have the effect specified for that operation.

## Results that are weaker than one might hope

These stronger claims are false of the code, and the model says exactly how:

- Delivery is not exactly once. A line that is offered to a client before its replay is in the history
  sent to it and among the lines held back for it, and that can be a line recorded before the client
  registered. `JoinEnqueuedTwice` and `JoinEnqueuedTwiceForALateClient` are such runs, and
  `ExactlyOnceIffNothingHeldBackAtReplay` says when it does not happen to a client that stays: iff no
  chat line is held back for it when its replay begins. `GivenTwiceIffMoreThanHeldBack` says when it
  happens to any client whose replay began.
- A join need not be followed by a leave: `JoinWithoutLeave` and `WriterWinsBeforeJoined` are such runs,
  and `LeaveIffOwnRemovalAnnounced` and `SessionLeavesIffJoined` say when a leave is announced.
- The two frame decoders do not always report the same error: `DecodersDisagree` is a
  header on which they differ, and `DecodersAgree` says when they do not.
- The mention search takes occurrences that do not overlap, and so misses mentions of a name that
  overlaps itself: `OverlappingNameIsMissed` is a name that a handshake accepts and a text in
  which its mention is missed, and `ScanIsExactIff` says for which names the search is exact.
- A formatted chat line does not always parse back to its fields: `BracketedNameIsLost` is a
  line under a name that a handshake accepts, and `ChatText.ParsesIff` says when a line does.

Where the repository's own documentation differs from its code, the model follows the code: README.md
speaks of a newline-delimited protocol, while the code exchanges frames with a six-byte header.

## Model

The rows come in three groups: the main theorems, the operations with their contracts, and the facts on
which the theorems rest.

| member | source | states |
|---|---|---|
| ServerRuns.ChatIsGapFree | crates/server/src/state.rs:301-496 | in every reachable state, the chat lines ever enqueued for a client are a prefix of the last 100 lines at its replay followed by the log from the first line on that was still to be broadcast when it registered |
| ServerRuns.ReadyIsLevelOrOneBehind | crates/server/src/state.rs:436-496 | in every reachable state a ready client has been given its replayed history and every line still to be broadcast when it registered and every later one, but for the newest line if that one is still to be offered or could not be given |
| ServerRuns.NothingIsSkipped | crates/server/src/state.rs:436-496 | while no line is being recorded, a ready client has been given all of that, whoever is being replayed |
| ServerRuns.NothingIsLostWhileWaiting | crates/server/src/state.rs:464-468 | in every reachable state a client that waits for its replay was sent nothing, and has every line offered since its registration held back for it |
| ServerRuns.SocketCarriesAPrefix | crates/server/src/connection.rs:228-279 | the lines taken by the writer, stopped anywhere, are a prefix of the same stream |
| ServerRuns.ReplayNeverOverflows | crates/server/src/state.rs:14-18 | in no reachable state does a history replay or the flush after it find the channel full, even if the writer takes nothing |
| Visits.WholeVisit | crates/server/src/connection.rs:52-201 | from any reachable state in which no lock is held, a new client can register under any accepted name, be sent the recent history, join, say whatever the read loop lets through, and leave: exactly its join, line and leave are appended to the log, and it was given the last 100 lines there were and then its own two |
| Progress.LineIsRecorded | crates/server/src/state.rs:480-496 | a line that may be recorded is recorded, broadcast and done with, in any order of clients and removals: exactly that line is appended, every client is served, and its author has moved on |
| Progress.MayRecordIff | crates/server/src/connection.rs:124-201 | exactly which task may record which line: a join after the replay, in the read loop any text of at most 4096 bytes that is not blank, a leave after its own removal if joined |
| Progress.ChattingClientIsHeard | crates/server/src/connection.rs:153-178 | a client in the read loop can say whatever the loop lets through, and is in the loop after that |
| Progress.TaskEnds | crates/server/src/connection.rs:182-201 | a session or a writer that ends is done after its removal, with exactly one leave appended iff the client was still there and had joined |
| Progress.WriterCanFail | crates/server/src/connection.rs:237-276 | a writer whose write fails takes its client out and stops, with a leave iff it had joined |
| LockSteps.StepsFollowTheirLocks | crates/server/src/state.rs:169-559 | in every reachable state each step takes only mutexes that are free, touches only what it has locked, and leaves held exactly what the lock fields say |
| LockSteps.RowsChangeUnderLocks | crates/server/src/state.rs:176-191 | no step changes a row of a registry whose mutex nobody holds |
| LockSteps.RecordTrace | crates/server/src/state.rs:480-496 | the steps of a recorded line and its broadcast take the locks of that operation, in that order |
| LockSteps.ReplayTrace | crates/server/src/state.rs:301-316 | the steps of a replay take the locks of that operation, in that order, under the replay barrier |
| Locks.AtMostOneInside | crates/server/src/state.rs:301-316 | over any moves of any number of tasks, no two tasks are ever inside a history replay or a recording with its broadcast at the same time |
| Locks.TouchedOnlyWhileHeld | crates/server/src/state.rs:169-559 | what a task is about to touch it has locked, and no other task holds that mutex |
| Admission.WholeConnection | crates/server/src/lib.rs:148-156 | from any reachable state with room a connection can be accepted, shake hands, register, be named and be released, and the server is then exactly where it was |
| Limiter.AllowedInNumbers | crates/server/src/state.rs:373-399 | the sliding-window rule in nanoseconds: 1e8 for each message from an earlier admitted one through this one is at most 2e9 and the time between them |
| Limiter.WindowInNumbers | crates/server/src/state.rs:19-20 | the window bound in nanoseconds |
| Sockets.SocketDecodesToPrefix | crates/server/src/connection.rs:228-279 | in every reachable state, the bytes a client's writer has written, cut anywhere, decode to the complete frames, whose chat lines are, but for trailing newlines, a prefix of the client's history and live log; the end is clean at a frame boundary and a truncation error elsewhere |
| Duplicates.GivenTwiceIffMoreThanHeldBack | crates/server/src/connection.rs:203-225 | over every run, a client whose replay began was given the lines of the first so many of its log positions, and some line twice iff lines were held back when the replay began and it was given more than were replayed and more than were held back |
| Duplicates.ReplayedClientReads | crates/server/src/state.rs:301-316 | in every reachable state the same for every client whose replay began, in terms of the log at its replay |
| Duplicates.ExactlyOnceIffNothingHeldBackAtReplay | crates/server/src/connection.rs:203-225 | over every run, a client that ends up ready was given the lines of known log positions in order, and no position twice iff no chat line was held back for it when its replay began |
| Duplicates.ExactlyOnceIffNothingOfferedBeforeReplay | crates/server/src/state.rs:436-496 | in every reachable state a ready client was given no log position twice iff no recorded line was offered to it before its replay |
| Duplicates.OfferedBeforeReplayIffHeldBack | crates/server/src/state.rs:301-316 | when a replay begins, some line was already offered to the client iff its pending list holds a chat line |
| Duplicates.JoinEnqueuedTwice | crates/server/src/state.rs:464-468 | a run in which one recorded join is enqueued twice for a client that was waiting |
| Duplicates.JoinEnqueuedTwiceForALateClient | crates/server/src/state.rs:486-496 | a run in which a client registers after a line was recorded, the last line of the run, and is still given it twice |
| ServerRuns.RegistriesCohere | crates/server/src/state.rs:169-371 | the delivery registry lists the sessions, at the same addresses, plus at most the one client being removed; who left it was told to disconnect |
| ServerRuns.RemovedExactlyOnce | crates/server/src/state.rs:318-371 | over every run and all racing callers, taking a client out succeeds once if it is no longer registered and never while it is |
| ServerRuns.AtMostOneLeave | crates/server/src/connection.rs:124-201 | in every prefix of the log a client leaves at most as often as it joined, which is at most once, and it speaks only after its join |
| Farewells.LeaveIffOwnRemovalAnnounced | crates/server/src/connection.rs:182-201 | once a client's tasks are over, its leave was announced iff its own session or writer took it out and did not then find `joined` unset |
| Farewells.SessionLeavesIffJoined | crates/server/src/connection.rs:182-201 | if the session took its client out, it ends with the leave announced iff the client had joined |
| Farewells.EveryOwnRemovalIsAccounted | crates/server/src/connection.rs:247-266 | over every run, removals by a client's own tasks are as many as those still owed, announced or given up |
| Farewells.JoinWithoutLeave | crates/server/src/state.rs:472-475 | a run in which a client joins, is taken out by another task and is gone without a leave |
| Farewells.WriterWinsBeforeJoined | crates/server/src/connection.rs:247-266 | a run in which the writer takes its client out after the join's broadcast and before `joined` is set, and no leave is ever announced |
| Locks.NoDeadlock | crates/server/src/state.rs:169-559 | in every reachable state with a task inside an operation some task can act, no task waits for a mutex it holds, and a waiting task waits while a holder can act |
| Locks.OperationsAreOrdered | crates/server/src/state.rs:169-559 | every operation, on each of its paths, takes mutexes in strictly increasing rank and returns holding none |
| Admission.RegistrationAlwaysHasRoom | crates/server/src/state.rs:181-185 | in every reachable state a connection that is about to register finds room, so the registry's own limit is never reported |
| Admission.PermitsStayWithinLimits | crates/server/src/lib.rs:53-68 | in every reachable state at most 256 connections are open and at most 4 of one address counted, and the counts are exact and never zero |
| Admission.CountsNeverUnderflow | crates/server/src/lib.rs:27-38 | no release of a permit and no removal of a client misses its count |
| Admission.PresenceAlwaysEncodes | crates/server/src/state.rs:511-525 | in every reachable state the list of names fits into a presence frame, in any order |
| Lines.EveryRecordedLineFits | crates/server/src/connection.rs:137-201 | in every reachable state every line of the log fits into a frame, as recorded, as sent and as the history keeps it |
| Lines.EveryHistoryLineFits | crates/server/src/connection.rs:208-211 | in every reachable state every line that a replay can take from the history can be encoded |
| Lines.EveryNextLineFits | crates/server/src/connection.rs:155-175 | whatever a task may record next can be encoded |
| Limiter.AllowedIffWithinWindows | crates/server/src/state.rs:373-399 | a request is allowed iff, for every admitted one before it, those from that one through this one number at most 20 plus 10 per second between them |
| Limiter.NoWindowExceeded | crates/server/src/state.rs:19-20 | no stretch of time admits more than 20 messages plus 10 per second of its length |
| Limiter.EvictionIsInvisible | crates/server/src/state.rs:373-410 | over every interleaving of requests and cleanups of any addresses, every decision is that of a limiter that never evicts, even if a cleanup's clock reading is stale |
| Refinement.ChatBroadcastAsSpecified | crates/server/src/state.rs:436-496 | the steps of a chat broadcast, uninterrupted, in any order of clients and of removals, do what the broadcast is specified to do, and the barrier can then be released |
| Refinement.PresenceBroadcastAsSpecified | crates/server/src/state.rs:511-533 | the same for a presence broadcast |
| Refinement.BroadcastClientsAsSpecified | crates/server/src/state.rs:436-478 | what those steps leave is `Survivors` and `Reached`, and exactly the doomed lost their sessions and were told to disconnect |
| Refinement.FlushIsMarkReady | crates/server/src/state.rs:218-257 | the steps of a flush, uninterrupted, leave the record and the channel that `mark_client_ready` is specified to leave |
| Refinement.ReplayIsServed | crates/server/src/connection.rs:203-225 | the steps of a whole replay, uninterrupted, serve the client its history and then what was held back, and change nothing else |
| Frames.DecodesIffWire | crates/protocol/src/lib.rs:64-94 | decoding returns a frame and the bytes after it iff the bytes are exactly that frame's encoding followed by them |
| Frames.DecodersAgree | crates/server/src/connection.rs:311-349 | the two decoders return the same frames, consume the same bytes and fail on the same streams; they name the same error iff the header is not wrong in two ways |
| Frames.DecodersDisagree | crates/protocol/src/lib.rs:70-79 | a header on which the two decoders report different errors |
| Frames.StreamRoundTrip | crates/client/src/network.rs:131-156 | a stream is read to a clean end as some frames iff it is their concatenation |
| Frames.CutStream | crates/protocol/src/lib.rs:64-110 | a stream cut anywhere gives the complete frames, then a clean end at a frame boundary and a truncation error elsewhere |
| Readers.SendThroughChunks | crates/protocol/src/lib.rs:64-110 | frames sent over any chunking of their bytes arrive as they were sent, then a clean end |
| Presence.ParsesIff | crates/protocol/src/lib.rs:130-147 | a payload parses as a list of names iff it is that list's only encoding |
| Presence.PresenceRoundTrip | crates/protocol/src/lib.rs:112-147 | an encoded list, decoded as a frame and parsed, is the list |
| ChatText.ParsesIff | crates/protocol/src/lib.rs:153-167 | parsing gives some fields iff the message is their format, the name contains no `](` and the time no `): `; so re-formatting a parsed message gives it back |
| AwkwardNames.BracketedNameIsLost | crates/protocol/src/lib.rs:157-167 | a name that a handshake accepts and a line under it that does not parse back |
| AwkwardNames.OverlappingNameIsMissed | crates/protocol/src/lib.rs:169-185 | a name that a handshake accepts and a text in which its mention is missed |
| Mentions.ScanIsExactIff | crates/protocol/src/lib.rs:169-185 | the scan finds exactly the mentions, in every text, iff no proper ending of `@name` is also its beginning and is followed there by a word character |
| Mentions.NameWithoutAtIsExact | crates/protocol/src/lib.rs:169-185 | for a name without `@` it finds exactly the mentions |
| Utf8.DecodesIff | crates/protocol/src/lib.rs:139 | bytes decode to a string iff they are its encoding |
| ServerStates.PrunedHaveNoRoom | crates/server/src/state.rs:535-559 | pruning drops only clients that a broadcast of any message would doom, and of those keeps exactly the ready ones whose channel is open and full |
| ServerStates.HistoryFramesCarryLines | crates/server/src/connection.rs:208-211 | the frames of a replay decode to chat frames that carry its lines, in order |
| ServerStates.PresenceFrameCarriesNames | crates/server/src/state.rs:511-525 | the frame of a presence broadcast decodes and parses to the names |
| Registry.NamedIsListed | crates/server/src/state.rs:412-434 | once a client is named, every list of the names contains its name |
| Registry.SessionsAfterUpdates | crates/server/src/state.rs:193-202 | registering and naming change that client alone, as stated |
| Registry.HasRoomIff | crates/server/src/state.rs:181-185 | there is room iff fewer than 256 clients are registered and fewer than 4 from that address |
| Buckets.FindRow | crates/server/src/state.rs:228-234 | finds where a token's row is, iff there is one |
| ClientRegistries.MessageHistory.Record | crates/server/src/state.rs:59-66 | the history stays the end of all lines recorded, with trailing newlines removed |
| ClientRegistries.MessageHistory.Snapshot | crates/server/src/state.rs:68-70 | the snapshot is the end of all lines recorded |
| ClientRegistries.ClientRegistry.Register | crates/server/src/state.rs:181-202 | registers iff both limits leave room, and otherwise changes nothing; the counters stay exact |
| ClientRegistries.ClientRegistry.Remove | crates/server/src/state.rs:323-347 | takes out exactly the client registered with that token at that address, if any, and decrements no missing counter |
| ClientRegistries.ClientRegistry.SetUsername | crates/server/src/state.rs:412-434 | names exactly that client, or reports that it is unknown |
| ClientRegistries.ClientRegistry.Usernames | crates/server/src/state.rs:498-509 | lists the name of every client that has one, each client once, in whatever order |
| DeliveryRegistries.DeliveryRegistry.Add | crates/server/src/state.rs:203-215 | a client enters not ready and with nothing pending |
| DeliveryRegistries.DeliveryRegistry.Remove | crates/server/src/state.rs:348-364 | a client that is there is told to disconnect and dropped; nothing else changes |
| DeliveryRegistries.DeliveryRegistry.Deliver | crates/server/src/state.rs:442-470 | the broadcast loop offers the message once to every client, whatever the order of the addresses, and lists exactly the doomed |
| DeliveryRegistries.DeliveryRegistry.OfferRow | crates/server/src/state.rs:447-469 | one turn of the loop does to one client what `Offer` says and nothing to the others |
| DeliveryRegistries.DeliveryRegistry.MarkReady | crates/server/src/state.rs:218-257 | sends what is pending until one is refused, keeps the rest, and makes the client ready iff nothing remains |
| DeliveryRegistries.DeliveryRegistry.Overloaded | crates/server/src/state.rs:536-552 | lists exactly the clients that are closed while ready, or full while not |
| ServerStates.ServerState.RegisterPendingClient | crates/server/src/state.rs:169-216 | both rows and an empty channel appear, or the limit is reported and nothing changes |
| ServerStates.ServerState.RemoveClientIfCurrent | crates/server/src/state.rs:318-371 | both rows go and the disconnect flag is raised iff the client is registered there; otherwise nothing changes |
| ServerStates.ServerState.SetClientUsername | crates/server/src/state.rs:412-434 | names that client and keeps the registries coherent |
| ServerStates.ServerState.Broadcast | crates/server/src/state.rs:436-478 | everyone with room is given the message, exactly the doomed leave both registries and are told to disconnect, and the result says whether there were any |
| ServerStates.OneCopyOrOut | crates/server/src/state.rs:436-478 | after a broadcast a client with room has one copy after everything it had, and one without room has no copy and no place, and only such a client |
| ServerStates.OfferedToAll | crates/server/src/state.rs:442-470 | when everyone was offered the message, the outcome depends on no order |
| ServerStates.ServerState.RemoveAll | crates/server/src/state.rs:472-475 | the removals after a loop take out exactly the listed clients |
| ServerStates.ServerState.RecordAndBroadcast | crates/server/src/state.rs:480-496 | the line is recorded and the frame broadcast |
| ServerStates.ServerState.SendMessageHistory | crates/server/src/connection.rs:203-225 | the client gets its recent history and then what was held back, as far as there is room; an unknown client is reported and nothing changes |
| ServerStates.ReplayOfANewClient | crates/server/src/connection.rs:203-225 | a replay into an empty channel is never refused for want of room, and into an open one delivers everything and makes the client ready |
| ServerStates.EnqueueIsFlush | crates/server/src/connection.rs:208-221 | enqueueing the history line by line is a flush of the frames of the lines that fit |
| ServerStates.EnqueueHistory | crates/server/src/connection.rs:208-221 | the history loop enqueues until a line does not fit or is refused |
| ServerStates.ServerState.PruneOverloadedClients | crates/server/src/state.rs:535-559 | exactly the overloaded clients are removed |
| ServerStates.ServerState.BroadcastPresence | crates/server/src/state.rs:511-533 | the overloaded go, and the names of all who remain are broadcast to them, or nothing is sent if they do not fit a frame |
| Admission.ConnectionAdmission.TryAcquire | crates/server/src/lib.rs:53-68 | grants a permit iff both limits leave room, and otherwise changes nothing |
| Admission.ConnectionAdmission.DropPermit | crates/server/src/lib.rs:27-38 | gives back the global permit and the count, without leaving a zero entry |
| Handshake.ReadHandshakeUsername | crates/server/src/connection.rs:281-309 | accepts exactly the trimmed valid names of at most 32 bytes in a handshake frame, and names the first thing that is wrong with any other input |
| Limiter.RateLimits.AllowMessage | crates/server/src/state.rs:373-399 | refills, decides and spends as the specification says, in place |
| Limiter.RateLimits.Cleanup | crates/server/src/state.rs:401-410 | drops exactly the buckets idle for 60 seconds |
| Frames.EncodeFrame | crates/protocol/src/lib.rs:46-62 | a frame is its header and payload, and a payload over 16 KiB is refused |
| Readers.Reader.ReadHeader | crates/protocol/src/lib.rs:96-110 | the header loop returns the first six bytes however they are cut, nothing at the end, and a truncation error in between |
| Readers.Reader.ReadFrame | crates/protocol/src/lib.rs:64-94 | over any chunking, the blocking decoder returns and consumes what the bytes alone determine |
| Readers.Reader.ReadAsyncFrame | crates/server/src/connection.rs:311-349 | the same for the asynchronous decoder |
| Readers.Reader.ReadFrames | crates/client/src/network.rs:131-156 | reading frame after frame gives what the bytes alone determine |
| Presence.EncodePresence | crates/protocol/src/lib.rs:112-128 | encodes iff every name is valid and the list fits a frame, and otherwise names the first thing wrong |
| Presence.ParsePresence | crates/protocol/src/lib.rs:130-147 | the offset loop parses what the recursive definition parses |
| Mentions.MentionsUser | crates/protocol/src/lib.rs:169-185 | the search loop ends and does what the left-to-right scan does |
| DeliveryRegistries.Transport.SendAll | crates/server/src/state.rs:234-252 | the sending loop takes messages until one is refused and says what remains |
| ServerStates.ReplayIsServeReplay | crates/server/src/connection.rs:203-225 | when every line fits, the replay of the classes is that of the steps, over frames |
| ServerRuns.NextKeepsInv | crates/server/src/state.rs:169-559 | every step of every task keeps the whole invariant |
| Coherence.HistoryStep | crates/server/src/state.rs:59-66 | every step keeps the history equal to the last 100 lines of the log |
| Coherence.LocksStep | crates/server/src/state.rs:272-316 | every step keeps what the holders of the barrier and of the deliveries lock know about each other |
| Coherence.RowsStep | crates/server/src/state.rs:318-371 | every step keeps each client's two rows in agreement, given who holds the clients lock |
| Streams.StreamsStep | crates/server/src/state.rs:436-478 | every step keeps what each client's channel and held-back lines must be, given the log, its debt and its part in a replay |
| Streams.OfferKeepsStream | crates/server/src/state.rs:447-469 | offering the newest line leaves a client with the whole log, or doomed and one line behind |
| Announcements.SpeechStep | crates/server/src/connection.rs:137-201 | every step keeps the single right to announce a client's leave, and the order of its lines |
| Delivery.OfferGivesOneCopyOrDooms | crates/server/src/state.rs:447-469 | offering a message gives exactly one copy after everything given before, or changes nothing and dooms the client; and it dooms exactly the clients without room |
| Delivery.Flush | crates/server/src/state.rs:232-256 | a flush conserves messages: old pending is sent then rest, the channel grows by exactly what was sent, and it ends well iff nothing remains |
| Delivery.FlushWithRoomNeverOverflows | crates/server/src/state.rs:232-256 | with room for everything at its start, a flush is refused only by a closed channel |
| Common.PushKeepsLast | crates/server/src/state.rs:59-66 | pushing into a bounded buffer keeps it equal to the end of all that was pushed |
| Registry.AddKeepsSessionsOk | crates/server/src/state.rs:193-202 | registering keeps the total and the counts per address exact |
| Registry.DropKeepsSessionsOk | crates/server/src/state.rs:336-343 | removing keeps both counts exact, and neither is missing or zero when it is decremented |
| PerIp.IncrementIsExact | crates/server/src/state.rs:202 | counting one more entry keeps the counts exact |
| PerIp.DecrementIsExact | crates/server/src/state.rs:337-342 | the count of a live entry can be decremented, and stays exact without zero entries |
| Buckets.RetainFacts | crates/server/src/state.rs:331-335 | retaining keeps exactly the other tokens' rows, and shortens the list iff the token had a row |
| Buckets.InsertRepresents | crates/server/src/state.rs:193-215 | pushing a row under its address adds exactly that entry |
| Buckets.RemoveRepresents | crates/server/src/state.rs:331-347 | retaining and dropping an empty bucket removes exactly that entry |
| Buckets.UpdateRepresents | crates/server/src/state.rs:423-428 | changing a row in place changes exactly that entry |
| Buckets.RowIffAddress | crates/server/src/state.rs:228-234 | a token is found under an address iff it registered there |
| Admission.SessionsInjectIntoPermits | crates/server/src/lib.rs:148-156 | registered sessions are live permits of the same address |
| Admission.NextKeepsInv | crates/server/src/connection.rs:52-122 | every step of every connection keeps both layers of counts |
| Handshake.ServerLineFits | crates/server/src/connection.rs:137-172 | every join, leave and chat line fits into a frame, as it is sent live and as the history keeps it |
| Handshake.PresenceFits | crates/protocol/src/lib.rs:112-128 | any 256 accepted names fit into a presence frame |
| Limiter.AskAccounts | crates/server/src/state.rs:380-398 | the bucket level is the tightest account over all admitted requests, before and after every request |
| Text.TrimIsTheCore | crates/server/src/connection.rs:302-308 | trimming cuts white space off both ends, nothing else, and leaves none there |
| Text.TrimNewlinesIsPrefix | crates/server/src/state.rs:59-61 | the history cuts trailing newlines off a line, all of them and nothing else |
| Sockets.TakenAreFrames | crates/server/src/connection.rs:155-175 | every message a writer takes is one whose frame could be encoded |
| Sockets.TextsAreRecorded | crates/server/src/state.rs:59-61 | the texts in the frames of some messages are the recorded lines of their entries, but for trailing newlines |
| Streams.PresenceAddsNoChat | crates/server/src/state.rs:511-533 | offering a presence frame changes no chat stream, neither sent nor held back |
| Streams.PresenceKeepsStream | crates/server/src/state.rs:511-533 | so it keeps what each client's channel and held-back lines must be |
| Buckets.RetainKeepsOrder | crates/server/src/state.rs:331-335 | the kept rows are those of all other tokens, in the order in which they stood |
| ServerRuns.HistoryIsRecent | crates/server/src/state.rs:59-66 | in every reachable state the history is the last 100 lines of the log |
| Progress.SessionCanEnd | crates/server/src/connection.rs:158-180 | a session in the read loop can end, with its leave iff it is there and joined |
| Progress.WriterCanDrain | crates/server/src/connection.rs:237-238 | a writer can write all that is queued, in order |
| Progress.WriterCanStop | crates/server/src/connection.rs:237-279 | a writer whose client is gone and whose channel is empty stops |
| Progress.GoneSessionEnds | crates/server/src/connection.rs:66-78 | a session whose client was taken out ends without a word |
| Progress.ReplayOfGoneClientEnds | crates/server/src/state.rs:225-235 | a replay whose client was taken out meanwhile lets go of the barrier, and its session ends |
| Progress.LineCanBeRecorded | crates/server/src/state.rs:480-496 | a line that may be recorded leads to the state after it, from every reachable state in which no lock is held |
| LockSteps.PresenceTrace | crates/server/src/state.rs:511-533 | the steps of a presence broadcast take the locks of a broadcast |
| LockSteps.RegistryTraces | crates/server/src/state.rs:169-216 | registering, naming and a removal that finds nothing take the locks of those operations |
| LockSteps.RemovalTrace | crates/server/src/state.rs:318-371 | the two steps of a removal take the locks of that operation |
| Locks.ExclusiveIsSpanned | crates/server/src/state.rs:306-316 | a replay and a recording with its broadcast take the barrier first and release it last, on every path |
| Locks.OperationsTouch | crates/server/src/state.rs:169-559 | the operations touch the registries, the history and the rate limits that they are about |
| Locks.PresenceIsComposed | crates/server/src/state.rs:511-533 | a presence broadcast is a pruning, a listing of names and, if they fit a frame, a broadcast |
| Admission.AcquireInTwoSteps | crates/server/src/lib.rs:53-68 | the first two steps of a connection take what `TryAcquire` takes, or give back what they took |
| Admission.HandshakeMayFail | crates/server/src/connection.rs:58-62 | a connection whose handshake fails is released and leaves the server as it was |
| Admission.TakenOutByOthers | crates/server/src/state.rs:318-371 | a client can be taken out by another task at any time, and its handler then finds it gone |
| Limiter.RetainedInNumbers | crates/server/src/state.rs:401-410 | a cleanup keeps exactly what was used within the last 60 seconds |
| Limiter.BurstInNumbers | crates/server/src/state.rs:379-398 | a new address has twenty messages at once, and a token must be whole to be spent |
| InNumbers.HistoryInNumbers | crates/server/src/state.rs:14 | in every reachable state the history is the last 100 lines |
| InNumbers.SendInNumbers | crates/server/src/state.rs:14-18 | a channel takes 228 messages, and a closed one says so even when it is full |
| InNumbers.OfferInNumbers | crates/server/src/state.rs:447-469 | a broadcast dooms a ready client at 228 queued or closed, and one that waits at 128 held back |
| InNumbers.MarkedConserves | crates/server/src/state.rs:232-256 | a flush loses nothing, and the client is ready iff nothing is held back any more |
| InNumbers.PermitsInNumbers | crates/server/src/state.rs:15-16 | in every reachable state at most 256 connections, and at most 4 of one address |
| InNumbers.AcceptedInNumbers | crates/server/src/connection.rs:298-308 | an accepted name is not empty, at most 32 bytes, and has no control characters and no white space around it |
| InNumbers.AnswersInWords | crates/server/src/connection.rs:281-309 | a handshake is answered by the first thing that is wrong with it, or its text but for white space around it |
| InNumbers.LinesInWords | crates/protocol/src/lib.rs:153-155 | the formats of a chat line, a join and a leave |
| InNumbers.MentionInWords | crates/protocol/src/lib.rs:169-185 | a mention is the name after an `@`, followed by the end or by neither a letter or digit nor `_` |
| InNumbers.EncodeCharInNumbers | crates/protocol/src/lib.rs:139 | UTF-8 markers and code bits, with as few bytes as possible |
| InNumbers.HeaderInNumbers | crates/protocol/src/lib.rs:51-59 | the six bytes before a payload: version, type code, length from the high byte down |
| InNumbers.SyncInNumbers | crates/protocol/src/lib.rs:64-94 | what the blocking decoder makes of any bytes, in numbers |
| InNumbers.AsyncInNumbers | crates/server/src/connection.rs:311-349 | what the asynchronous decoder makes of any bytes, which looks at the length first |
| InNumbers.NamesInNumbers | crates/protocol/src/lib.rs:112-126 | a list of names begins with their number and the size of the first, in two bytes each, high byte first |
| InNumbers.WhitespaceInNumbers | crates/protocol/src/lib.rs:149-151 | the white space characters |

## Left out

- Sockets, the tokio runtime, task aborts, command line, configuration, logging and the terminal interface: a channel is a bounded queue with a closed flag, and a transport is a list of chunks.
- Poisoned mutexes and panics: no task dies while it holds a mutex.
- Input errors other than the end of a stream, and the time limits of handshakes and writes: a failing write is a step that may happen at any message.
- `crates/client` and `crates/tui` apart from the loop that reads frames: their bounded lists and selection would only add easy members.
- Wall-clock time of chat lines: a timestamp is any text of five bytes.
- Simulated latency: it only adds points at which tasks may interleave, and the step system allows every interleaving anyway.
- The `exclude_addr` argument of a broadcast, which is always absent outside tests, and helpers that exist only for tests.
- Fairness: `Progress.dfy` says what sessions and writers can do while no lock is held, not that a task is eventually scheduled.
- Which tasks remove others, and when: the step system lets anyone remove any client at any time, which covers broadcasts and pruning and allows more; the names in a presence frame are arbitrary there.
- The registration limits in the step system of `Protocol.dfy`: they are part of `Admission.dfy`, which also shows that they are never reached.
- The tasks in `Locks.dfy` run any operations in any order, which covers the server's tasks and allows more; the map of connection permits is a mutex taken with no other held, and has no part in it.
- Limiter.RateLimits.AllowMessage: rounding of 64-bit floating-point numbers is not modelled; levels are whole units of 1e-8 token and time is in nanoseconds, so that a refill is exact.
- Mentions.MentionsUser: which characters are alphanumeric in Unicode is a parameter, so the results hold for every such class.
- ServerStates.ServerState.Broadcast: interleaving with other tasks between its loop and its removals is the subject of the step system, not of the classes.
- DeliveryRegistries.DeliveryRegistry.MarkReady: the pending list stays in its record during the loop and is replaced at its end, where the source takes it out first; nobody else can look while the lock is held.
- Admission.ConnectionAdmission.DropPermit: the global permit and the count are given back by one method; the step system of `Admission.dfy` lets other tasks move in between.
