# Synctick: a verified model of deterministic lockstep sessions

Synctick runs one authoritative simulation and any number of remote replicas. Clients are sent a
save, replay it, prove by fingerprint that they arrived at the authority's state, and then execute
the same ticks. This project models that system in Dafny and proves what it is for: replicas agree
with the authority over every run, honest clients are never refused, memory and time are bounded,
and every format reads back what was written.

## Layout

| file | models |
|---|---|
| `Bytes.dfy` | bytes, machine widths, little-endian integers, error results |
| `Envelope.dfy` | the network and record envelopes and their two-pass decoder |
| `ReplayLog.dfy` | the log format, its buffered reader and its writer |
| `Simulation.dfy` | the deterministic game, the tick lifecycle, the fold every session is measured against |
| `Replay.dfy` | bounded replay with an optional mirror recording |
| `Saves.dfy` | how an authority comes to a state and to the save that describes it |
| `Transfer.dfy` | the windowed save transfer to one client |
| `Lobby.dfy` | the waiting loop over all peers |
| `Live.dfy` | the live loop: commands, verification, deadlines, execution |
| `Replica.dfy` | the client's startup state machine and its loop |
| `Provenance.dfy` | where a replica's state comes from, whoever it talks to |
| `Loading.dfy` | an honest client's startup refines the transfer |
| `Following.dfy` | a live client follows the log |
| `Session.dfy` | the whole session as a transition system, and what every run keeps |
| `Ledger.dfy` | what the log and the verification entries stand for, over whole runs |
| `Progress.dfy` | startup never deadlocks |
| `Codec.dfy` | the bounded payload codec and its derived implementations |
| `Adapter.dfy` | typed games as byte-level games, and what executing a tick does to them |
| `Authorship.dfy` | what a whole session does to the author's game |
| `Garden.dfy` | the Power Garden rules |
| `Hashing.dfy` | canonical representations and FNV-1a (draft-eastlake-fnv, section 2) |
| `Pacer.dfy` | the tick pacer |

Code that works in place is a class or a method with loops here too, proved against a function of
its inputs or its old state; the properties are then lemmas about those functions. A session is a
list of events. One event is one iteration of a loop: both loops take in the network first and hand
over what they sent last, so an iteration meets the channels as they stood when it began. Clients
that are not honest send arbitrary messages; honest ones run the replica loop. The transport
delivers any prefix of what is in flight at any time, in order. The server's clock is part of the
session and never goes back.

Three readings of the code are worth knowing. A tick is recorded and broadcast before it is
executed, so after a failing exit the log may hold one record more than the state. The server waits
for readiness from exactly as many peers as it admits, so the barrier needs no other count. An
empty save cannot exist: every save starts with a header.

`dafny verify dfyconfig.toml` checks the whole project.

## Model

| member | source | states |
|---|---|---|
| Session.EveryRunKeeps | crates/synctick/src/run_server.rs:209-424 | Over every run of one authority, any number of clients sending anything, and honest replicas over FIFO channels: the whole joint invariant (lobby, play and end) holds, however messages are delayed |
| Session.ReplicasAgree | crates/synctick/src/run_server.rs:400-419 | A live honest client at tick k holds exactly the fold of the first k log records from the recorded initialization; the ticks in flight to it are records k+1 onwards without a gap; with nothing in flight it is in the authority's state |
| Session.HonestPeerNeverRefused | crates/synctick/src/startup.rs:112-161 | In every run, whatever prefix of an honest client's messages has arrived, `receive` admits all of it; a startup disconnect happens exactly when the liveness clock ran out |
| Session.HonestPlayerNeverRefused | crates/synctick/src/run_server.rs:347-391 | In play, an honest client's commands and reports are all accepted and its fingerprints match; it is dropped exactly when the verification deadline passed |
| Session.HonestClientNeverFails | crates/synctick/src/run_client.rs:48-143 | Until the session is over, no iteration of an honest client fails, unless its own publication hook does |
| Session.HonestSessionNeverDesyncs | crates/synctick/src/run_server.rs:426-447 | If every connected client is honest, no live iteration ends the session with a desync, under fail-fast too |
| Session.DesyncHasCulprit | crates/synctick/src/run_server.rs:347-383 | A desync exit always comes from one connected client whose own reports do not verify |
| Session.DesyncHasALiar | crates/synctick/src/run_server.rs:347-383 | In any run and for any mix of clients, a desync exit needs the fail-fast policy and a connected client outside the honest ones that reported, for a tick of this session, a fingerprint other than that of the state the log comes to there |
| Session.StartBarrier | crates/synctick/src/run_server.rs:259-276 | Start goes out only when exactly `expected` peers are connected and all are ready; every honest one then holds the authority's very state and has Start as its only message |
| Session.StartExactly | crates/synctick/src/run_server.rs:259-276 | In every run, an iteration of the lobby sends Start exactly when as many peers as expected are connected and every one of them is ready |
| Ledger.PlayersWereReady | crates/synctick/src/startup.rs:148-154 | In every run, whoever the authority serves in play, honest or not, announced exactly the authority's tick and fingerprint in an earlier iteration of the lobby, after the whole save had been sent to it |
| Session.BarrierHolds | crates/synctick/src/run_server.rs:260-275 | With at most `expected` peers admitted, the ready count reaching `expected` means that every connected peer is ready |
| Session.CommandsAreConserved | crates/synctick/src/run_server.rs:345-399 | The log's commands of an honest client since Start, followed by those in flight, are exactly what it submitted, in order; up to Start's tick the log is the save |
| Ledger.LogIsWhatWasAccepted | crates/synctick/src/run_server.rs:345-411 | In every run and for every participant, host or client, honest or not: what the log records from it since Start is exactly what was accepted from it over the live iterations that broadcast, in order |
| Ledger.LedgerStep | crates/synctick/src/run_server.rs:345-411 | One event adds to a participant's recorded commands exactly what it accepts from it, and never takes any away |
| Session.TickHolds | crates/synctick/src/run_server.rs:345-399 | One tick's inputs, filtered to any participant: all the host's commands, exactly what was accepted from a served client, nothing of anyone else |
| Session.TransferRefines | crates/synctick/src/startup.rs:64-108 | The bytes a receiving client holds followed by those in flight are the save up to its peer's offset |
| Session.WindowsStayBounded | crates/synctick/src/startup.rs:61-108 | In every run, for every startup peer: what is reserved for it is what the messages sent and not yet acknowledged take in whole 1200-byte slices, and that is at most 4 MiB |
| Session.ReceiversStayBounded | crates/synctick/src/startup.rs:60-63 | In every run, what an honest client has not yet taken of its save fits 4 MiB of its receive channel, in whole slices |
| Session.AuthorityStaysVerified | crates/synctick/src/run_server.rs:384-415 | In every run the live authority is one fold of its log, keeps at most 11 fingerprints, and no connected client's verification is older than the deadline; after the end the log leads the state by at most one record |
| Ledger.VerifiedMeansMatched | crates/synctick/src/run_server.rs:426-490 | In every run a client's verified tick is Start's, or one for which an earlier live iteration's mail from that client held the fingerprint of the state the log comes to there; in play that tick is within the deadline |
| Ledger.MatchedNow | crates/synctick/src/run_server.rs:462-490 | A verified tick that moves in an iteration is one whose true fingerprint is in that client's mail of that iteration |
| Ledger.PlacesKeptExactly | crates/synctick/src/run_server.rs:347-391 | In every run, after an iteration that goes on a client is connected exactly if it was before, every message it sent is an admissible command, every report it sent gives the log's own fingerprint for a due and retained tick in ascending order, and the last tick verified is at most ten intervals ago |
| Ledger.LiarsDoNotStay | crates/synctick/src/run_server.rs:426-447 | In every run, when an iteration that read a wrong fingerprint from a client is over, that client is disconnected or the session is over, whatever the policy |
| Ledger.GoesOnExactly | crates/synctick/src/run_server.rs:333-422 | In every run, an iteration of play goes on exactly when, under fail-fast, no client contradicts the history with news, the host's commands are valid, payloads and 32 bytes for each fit 256 KiB, there is a next tick, the game executes it and it is published |
| Ledger.GoneIsSilent | crates/synctick/src/run_server.rs:347-350 | Once a client of a session in play has lost its place, by leaving or by being dropped, no command of its own is ever recorded again |
| Ledger.LeaversAreGone | crates/synctick/src/run_server.rs:333-346 | A client that leaves a session in play is served no more and its recorded commands stay as they were |
| Ledger.ConfirmsTheLog | crates/synctick/src/run_server.rs:462-490 | In a running authority, a report confirms the history exactly when it gives the fingerprint of the state the log comes to at a due and retained tick |
| Session.RecordingReplays | crates/synctick/src/run_server.rs:92-140 | In every stage, a recording of the session means something exactly when its log runs, and then the same header, the whole log and the authority's state; only a session that ended on a tick it recorded but could not execute leaves one that cannot be loaded |
| Session.ServedLinkKeeps | crates/synctick/src/run_server.rs:238-258 | Serving an honest peer keeps its window, its client and its messages in flight in step |
| Session.TurnedLoadingLink | crates/synctick/src/run_client.rs:62-110 | An honest client that is loading never errs and stays in step with its peer |
| Session.TurnedPlayingLink | crates/synctick/src/run_client.rs:113-133 | A turn in play moves the replica along the log, forwards its commands and reports what is due; it fails only as the authority's own execution did, or on publication |
| Session.TickedLinkKeeps | crates/synctick/src/run_server.rs:351-411 | Broadcasting a tick while consuming any prefix of an honest client's messages leaves it in step with the longer log |
| Session.CarriedSlice | crates/synctick/src/startup.rs:85-106 | The chunks between two points of the transfer carry exactly the save bytes between them |
| Session.BarrierKeeps | crates/synctick/src/run_server.rs:268-276 | The barrier turns a lobby that keeps the startup invariant into a session that keeps the live one |
| Session.LiveKeeps | crates/synctick/src/run_server.rs:333-422 | One live iteration, successful or failing, keeps the joint invariant |
| Progress.StartupNeverDeadlocks | crates/synctick/src/startup.rs:64-161 | Whatever the other clients did, a run whose lobby holds an honest client that is in time for two more server iterations, or has news on the way, continues with a clock that runs on to one in which that client is still connected and ready; server iterations may be any fixed time from 1 s to under half the timeout apart |
| Progress.CanGetReady | crates/synctick/src/run_client.rs:62-110 | The same from any world of the lobby that keeps the invariant: finitely many iterations, on one clock that only runs forward, make the client ready; bytes delivered grow, then records replayed |
| Progress.PromptlyServed | crates/synctick/src/run_server.rs:238-258 | A prompt server iteration, at any time the client's peer is not late or has news on the way, never drops it, hears everything it sent, and sends more whenever all was acknowledged |
| Progress.NewcomersGetReady | crates/synctick/src/run_server.rs:223-231 | Any session with room for a client can be run, on a clock that only runs forward, until that client is ready |
| Following.HearTicks | crates/synctick/src/run_client.rs:113-197 | Hearing records k+1 to m comes to the state of tick m and reports exactly the due fingerprints on the way, or fails with the reason the fold fails with |
| Following.HonestReportsMatch | crates/synctick/src/run_server.rs:462-490 | Any number of due reports, in order, all match the history, move verification forward, and leave exactly the reports due after it |
| Following.HonestVerdict | crates/synctick/src/run_server.rs:351-391 | An honest client's mail is accepted whole; only the deadline can drop it |
| Following.DueReportsHead | crates/synctick/src/run_client.rs:187-195 | The first report due names its own tick, and the others are those due after it |
| Following.BrokenStaysBroken | crates/synctick/src/simulation.rs:40-61 | A log that failed once fails for ever with the same error |
| Loading.StepAtSave | crates/synctick/src/startup.rs:268-301 | A client holding the whole save always passes the fingerprint check: a step never errs, and the last one announces the authority's tick and hash in the authority's state |
| Loading.ReceivedSlice | crates/synctick/src/startup.rs:213-263 | Receiving the next messages of the transfer never errs and leaves exactly the save bytes delivered so far; the last one opens the save as a log |
| Loading.LoadTurnKeeps | crates/synctick/src/run_client.rs:62-110 | Everything a loading iteration sends is truthful and only grows, and readiness comes last |
| Loading.BatchReaches | crates/synctick/src/replay.rs:354-389 | On a sound save a batch never fails and moves along the one fold that produced the authority's state |
| Loading.OffersAreSound | crates/synctick/src/run_server.rs:130-140 | Whatever was loaded or mirrored, the save and the metadata offered to clients describe the authority's state |
| Loading.IntervalIsTheHeaders | crates/synctick/src/api.rs:262-264 | Every session's fingerprint interval is the one its header's tick duration fixes, on the authority and on replicas alike |
| Provenance.NoServerFoolsAReplica | crates/synctick/src/run_client.rs:48-143 | Over any run against any sender, what a replica holds is accounted for by what it was sent: while receiving exactly those bytes, short of what was announced; while replaying one fold of a part of them, within the announced tick; waiting for Start, the state those bytes mean, with the announced tick and fingerprint; in play, what the ticks heard since Start make of it |
| Provenance.PlaysWhatItVerified | crates/synctick/src/run_client.rs:113-133 | A replica in play was announced a tick and fingerprint, replayed the announced bytes to a state with exactly these, heard Start for exactly these, and its present state is the fold of exactly the ticks heard since |
| Provenance.GenuineStep | crates/synctick/src/startup.rs:268-301 | A replay step keeps that account, and readiness is only ever announced for the tick and fingerprint of the state actually held |
| Provenance.StepsAreBounded | crates/synctick/src/startup.rs:268-301 | One replay step executes at most 128 records |
| Replica.ReplicaSession.constructor | crates/synctick/src/startup.rs:196-208 | A new replica is the initial client of the specification |
| Replica.ReplicaSession.ReceiveSaveMessage | crates/synctick/src/startup.rs:213-263 | `receive_save` in place is the specified transition, with the same error cases |
| Replica.ReplicaSession.Step | crates/synctick/src/startup.rs:268-301 | `step` in place is the specified transition, with the same error cases |
| Replica.ReplicaSession.StartPlay | crates/synctick/src/startup.rs:305-315 | `start` succeeds exactly for the announced tick and fingerprint |
| Replica.ReplicaSession.HearMessage | crates/synctick/src/run_client.rs:120-133 | One lockstep message: Start, or a tick executed and reported when due |
| Replica.UnpublishedStops | crates/synctick/src/run_client.rs:113-133 | A replica whose game cannot publish fails on the next lockstep message |
| Replica.ReplicaSession.ForwardInputs | crates/synctick/src/run_client.rs:160-178 | Commands are forwarded in order when live and dropped, never deferred, otherwise |
| Replica.ReplicaSession.TakeOneTurn | crates/synctick/src/run_client.rs:48-143 | One iteration of the client loop is the specified turn: same messages, same reports, same new state, same error |
| Live.LiveTurnKeeps | crates/synctick/src/run_server.rs:333-422 | A live iteration extends the log by the tick after it, holding remote commands before host commands; if it succeeds the state is the fold of the longer log, the history is exact and at most 11 long, and every surviving client is verified recently; every client is judged by its own mail alone |
| Live.RememberIsExact | crates/synctick/src/run_server.rs:413-415 | Inserting and trimming at a due tick keeps exactly the due ticks since Start within ten intervals of the latest |
| Live.HistoryIsBounded | crates/synctick/src/run_server.rs:413-415 | The history never exceeds eleven fingerprints |
| Live.HonestReportMatches | crates/synctick/src/run_server.rs:462-490 | The window fits the deadline: any honest due report newer than the last verification and not from the future is still retained and matches |
| Live.VerifiedByMatch | crates/synctick/src/run_server.rs:462-490 | Verification only ever moves to a tick whose retained fingerprint the client reported |
| Live.DesyncIsAContradiction | crates/synctick/src/run_server.rs:436-447 | A desync exit needs the fail-fast policy and a due report that contradicts a retained fingerprint |
| Live.KeptExactly | crates/synctick/src/run_server.rs:426-490 | A check of reports keeps the client exactly when every report confirms a due, retained tick, each later than the last; anything malformed, stale, future, not due, outside the history or contradicting it drops it |
| Live.DesyncExactly | crates/synctick/src/run_server.rs:436-447 | The check ends the session exactly under fail-fast, over a contradiction newer than everything confirmed before it |
| Live.PlaceKeptExactly | crates/synctick/src/run_server.rs:347-391 | One client's place in an iteration depends exactly on its messages, its reports and the ten-interval deadline |
| Live.IterationSucceedsExactly | crates/synctick/src/run_server.rs:333-422 | Exactly when an iteration succeeds: no desync under fail-fast, valid host commands, the byte budget, a next tick, execution, publication |
| Live.AcceptedIsTheFront | crates/synctick/src/run_server.rs:351-371 | What is accepted from a client is every command before the first message that is none, and nothing after it |
| Live.HostComesLast | crates/synctick/src/run_server.rs:392-399 | In every tick the clients' commands come before the host's |
| Live.SurvivorIsOnTime | crates/synctick/src/run_server.rs:449-460 | A client that is not dropped was verified at most ten intervals before the current tick |
| Live.ServedClients | crates/synctick/src/run_server.rs:347-391 | A pass over the clients gathers, in serving order, each one's accepted commands within budget, and treats every client as if it were alone |
| Live.TakenCommands | crates/synctick/src/run_server.rs:351-371 | Draining a client adds exactly its commands before the first unacceptable message, under its own id |
| Live.FromRemoteCommands | crates/synctick/src/run_server.rs:345-391 | Among a tick's remote commands, one client's are exactly what was accepted from it, and no one else's |
| Live.GatheredTickFits | crates/synctick/src/run_server.rs:403-410 | A tick whose inputs were all accounted fits the envelope and the log, and the server decoder returns it |
| Live.LogLeads | crates/synctick/src/run_server.rs:408-412 | Recording before executing lets the log lead the state by at most the one failed tick |
| Live.LiveServer.DrainCommands | crates/synctick/src/run_server.rs:351-371 | The drain loop with its running byte count equals its specification |
| Live.LiveServer.DrainLocal | crates/synctick/src/run_server.rs:392-399 | The host loop equals its specification |
| Live.LiveServer.VerifyReports | crates/synctick/src/run_server.rs:372-383 | The report loop, which moves the verified tick in place, equals its specification |
| Live.LiveServer.ServeEach | crates/synctick/src/run_server.rs:347-391 | The loop over clients, updating the verified map in place, equals its specification |
| Live.LiveServer.ExecuteTick | crates/synctick/src/run_server.rs:400-419 | Check, append, broadcast, execute, fingerprint, in that order: new state, log and recording |
| Live.LiveServer.Iterate | crates/synctick/src/run_server.rs:333-422 | One iteration of the live loop equals the specified turn, and the recording grows by exactly the frame of the broadcast tick |
| Lobby.WaitingRoom.Connect | crates/synctick/src/run_server.rs:225-231 | A newcomer is admitted exactly while fewer than `expected` peers are connected |
| Lobby.WaitingRoom.Iterate | crates/synctick/src/run_server.rs:238-268 | One iteration serves every peer alone, drops exactly the refused, and starts exactly when the ready count is the expected one |
| Transfer.PumpKeeps | crates/synctick/src/startup.rs:64-108 | `pump` hands over the next messages of the transfer in order, keeps the window exact, and stops only at the end, at a full window or when the transport refuses |
| Transfer.ReceiveKeeps | crates/synctick/src/startup.rs:112-161 | Any admitted message keeps the window exactly the messages sent and not yet acknowledged, and a refreshed clock was paid for |
| Transfer.OutstandingEndsIncrease | crates/synctick/src/startup.rs:38-40 | What is outstanding ends at strictly increasing bytes, none beyond what was sent |
| Transfer.ReleaseIs | crates/synctick/src/startup.rs:136-144 | The release loop removes exactly the messages up to the reported boundary and their memory |
| Transfer.NeverStalls | crates/synctick/src/startup.rs:85-106 | A transfer whose chunks are all acknowledged can always send another message |
| Transfer.MemoryIsWholeSlices | crates/synctick/src/startup.rs:18-23 | What is charged for a message is the whole number of 1200-byte slices it travels in, less than one slice above its size |
| Transfer.PumpFillsTheWindow | crates/synctick/src/startup.rs:85-106 | After `pump`, what is outstanding fits 4 MiB of whole slices, and it stopped only because the transport took no more, all was sent, or the next message would not have fitted |
| Transfer.ReadyExactly | crates/synctick/src/startup.rs:148-154 | Readiness is admitted exactly for the announced tick and fingerprint, once everything was sent |
| Transfer.ProgressExactly | crates/synctick/src/startup.rs:119-147 | Progress is admitted exactly when it names the end of a message between the last acknowledged and the last sent, and a replayed tick that neither goes back nor passes the save's, and is zero until all bytes are there |
| Transfer.ImproperArrivalDisconnects | crates/synctick/src/startup.rs:112-161 | One malformed envelope, command, readiness for another state or progress beyond the save disconnects a startup peer, wherever it stands among its messages |
| Transfer.ImproperRoundDisconnects | crates/synctick/src/run_server.rs:238-258 | The same for a whole iteration, and for any fingerprint report during startup |
| Transfer.TruthfulReportAdmitted | crates/synctick/src/startup.rs:119-147 | A report of what was truly consumed and replayed is never refused and acknowledges exactly that |
| Transfer.VerifiedIsFinal | crates/synctick/src/startup.rs:148-160 | A ready peer accepts nothing more during startup |
| Transfer.StartupWaitIsBounded | crates/synctick/src/startup.rs:168-170 | However a client spends its messages, an unready peer survives less than (chunks + saved ticks + 1) timeouts, each stretched by the loop period |
| Transfer.StartupPeer.PumpTo | crates/synctick/src/startup.rs:64-108 | `pump` in place equals its specification; the free-memory subtraction cannot underflow |
| Transfer.StartupPeer.ReceiveMessage | crates/synctick/src/startup.rs:112-161 | `receive` in place equals its specification and changes nothing when it refuses |
| Transfer.StartupPeer.ReleaseConsumed | crates/synctick/src/startup.rs:136-144 | The release loop equals its specification; its subtraction cannot underflow |
| Transfer.StartupPeer.Serve | crates/synctick/src/run_server.rs:238-258 | One peer's share of an iteration: pump, receive until the first bad message, liveness |
| Transfer.StartupPeer.IsTimedOut | crates/synctick/src/startup.rs:168-170 | Late exactly when not ready for a whole timeout since the last progress |
| Simulation.Initialize | crates/synctick/src/api.rs:265-282 | A new simulation starts at tick zero |
| Simulation.AdvanceTick | crates/synctick/src/simulation.rs:40-71 | A successful tick goes from its predecessor to its own number |
| Simulation.Driver.Tick | crates/synctick/src/simulation.rs:40-61 | A gap enters no hook and changes nothing; any other attempt enters cleanup exactly once, publication only in live play after a correct tick |
| Simulation.CleanupAlwaysRuns | crates/synctick/src/simulation.rs:40-61 | Any next tick enters its step first and its cleanup last, each once, whatever fails; publication exactly for a correct tick in play; any other tick enters nothing |
| Simulation.RunNumbersTicks | crates/synctick/src/simulation.rs:63-71 | A log that runs is numbered without gaps and its length is the distance covered |
| Simulation.RunAppend | crates/synctick/src/replay.rs:325-343 | Running a log in two parts is running it whole |
| Simulation.HashIntervalIsNearestSecond | crates/synctick/src/simulation.rs:22-25 | For every legal tick duration the interval is the whole number of ticks nearest to one second, and never zero |
| Replay.BatchIsAFold | crates/synctick/src/replay.rs:354-389 | A batch is one fold over the records it executed, wherever it was cut off, and fails only where the log or the fold does |
| Replay.BatchingIsInvisible | crates/synctick/src/replay.rs:328-389 | However the work is divided into batches, the outcome is that of one batch of the total size |
| Replay.ReplayToEnd | crates/synctick/src/replay.rs:328-343 | Running to the end finishes exactly on clean logs that run, in the state of the fold, having mirrored every record |
| Replay.MirrorLeadsByAtMostOne | crates/synctick/src/replay.rs:368-386 | The mirror holds contiguous ticks: the executed records, plus exactly the one that was the next tick and failed to execute |
| Replay.ContinuationIsSeamless | crates/synctick/src/replay.rs:328-389 | Replaying a continued recording equals never having stopped |
| Replay.ParsedIsRecordable | crates/synctick/src/replay.rs:97-118 | Every record read from any log, canonical or not, can be appended again and read back |
| Replay.ReplayBatch | crates/synctick/src/replay.rs:354-389 | The batch loop in place: state, unread bytes and mirror are those of the specification, at most 128 records |
| Replay.ReplayInto | crates/synctick/src/replay.rs:328-343 | Batches until the end succeed exactly on clean logs that run, in the state of one fold, mirroring every record |
| Saves.SaveMeansState | crates/synctick/src/run_server.rs:130-140 | Recording, loaded file or bare header: what clients are sent means exactly the state the authority starts from; a loaded file is sent unchanged, a recording as it was written |
| Saves.LoadSession | crates/synctick/src/run_server.rs:58-140 | Loading, mirroring and settling on the save succeed exactly when the load path means a state, and the metadata describes it |
| ReplayLog.ReadHeader | crates/synctick/src/replay.rs:247-323 | Only shaped headers of this protocol and format are accepted |
| ReplayLog.HeaderRoundTrip | crates/synctick/src/replay.rs:19-46 | A header reads back from its encoding, leaving what follows, exactly if it is one this build accepts |
| ReplayLog.LogsBeginAlike | crates/synctick/src/replay.rs:19-46 | Every log begins with the same thirteen bytes of format, protocol and version; its tick lasts 1 microsecond to 1 second, its initialization at most 64 KiB |
| ReplayLog.ParseOfFrames | crates/synctick/src/replay.rs:97-118 | Appended records read back, in order, before whatever follows |
| ReplayLog.TornLog | crates/synctick/src/replay.rs:190-244 | A log cut at any byte yields precisely the records wholly before the cut, then a clean end exactly on a frame boundary and the matching truncation error otherwise |
| ReplayLog.CutSplits | crates/synctick/src/replay.rs:97-118 | Any cut of a written log is some whole records and a proper part of the next frame |
| ReplayLog.OversizedFrameRefused | crates/synctick/src/replay.rs:190-244 | A frame that announces more than 256 KiB is refused by its length alone |
| ReplayLog.Source.ReadExact | crates/synctick/src/replay.rs:196-207 | Gathering arbitrary buffer slices reads exactly the wanted bytes or reports the end |
| ReplayLog.ReplayReader.Next | crates/synctick/src/replay.rs:190-244 | Whatever slices the source exposes, the next record, clean end or error is that of the bytes alone |
| ReplayLog.OpenReader | crates/synctick/src/replay.rs:172-177 | Opening reads the header and leaves the source at the first record |
| ReplayLog.ReplayWriter.Append | crates/synctick/src/replay.rs:97-118 | Appending adds exactly one frame, or nothing when the record is too large |
| Envelope.DecodeAfterEncode | crates/synctick/src/protocol.rs:180-365 | A message decodes to itself from its encoding exactly when it is within its budgets |
| Envelope.PassesAgree | crates/synctick/src/protocol.rs:260-278 | The validating and the materializing pass consume the same bytes and fail alike, on any input |
| Envelope.AcceptedIsPrefixFree | crates/synctick/src/protocol.rs:260-278 | No accepted envelope is a proper prefix of another |
| Envelope.OversizedInputRejected | crates/synctick/src/protocol.rs:215-231 | A tick with a payload over the limit is rejected wherever the payload stands |
| Envelope.Limits | crates/synctick/src/protocol.rs:180-365 | A message decodes exactly within 64 KiB a command, 1 byte to 256 KiB a chunk and 256 KiB a tick |
| Envelope.LengthsAreCovered | crates/synctick/src/protocol.rs:205-214 | No collection is announced longer than the bytes left for it |
| Envelope.ChargeIs | crates/synctick/src/run_server.rs:308-317 | The accounted size of a tick is its payload bytes and 32 for each command |
| Envelope.Fixtures | crates/synctick/src/protocol.rs:378-431 | One message of each form has exactly the bytes the protocol's fixtures fix |
| Envelope.TickFixture | crates/synctick/src/protocol.rs:410-441 | A tick with two commands has exactly the fixture's bytes |
| Envelope.ChargedTickFits | crates/synctick/src/run_server.rs:308-317 | If every input was accounted, the envelope is at most 256 KiB and both decoders return the tick |
| Envelope.ReadScalarOfVarint | crates/synctick/src/protocol.rs:195-204 | The variable-width integer round trip at each width |
| Envelope.DecodeEnvelope | crates/synctick/src/protocol.rs:260-365 | The in-place two-pass decoder equals its specification for all five message kinds |
| Bytes.LeValueOfBytes | crates/synctick/src/replay.rs:97-118 | Little-endian integers read back |
| Bytes.LeBytesOfValue | crates/synctick/src/codec.rs:185-199 | Little-endian bytes are those of the value they hold |
| Codec.EncodesExactly | crates/synctick/src/codec.rs:178-183 | A value encodes exactly when its flat form, its summed allocation and its list nesting are within 64 KiB, 4 MiB and 32; then its bytes are the flat form and decode to it |
| Codec.SendableExactly | crates/synctick/src/codec.rs:178-183 | A value can be sent exactly when it takes at most 64 KiB on the wire, its texts and list items at most 4 MiB in memory, items without a size counted as a byte, and lists nest at most 32 deep |
| Codec.MemoryIsBounded | crates/synctick/src/codec.rs:122-139 | Whatever validates decodes to a value whose texts and list items take at most 4 MiB |
| Codec.AllocIs | crates/synctick/src/codec.rs:128-137 | The allocation budget counts every byte of memory and one for each item that takes none |
| Codec.CommandFixture | crates/synctick/src/codec.rs:40-51 | A tagged command has exactly the documented bytes |
| Codec.ListFixture | crates/synctick/tests/wire_derive.rs:204-225 | A list has exactly the tested bytes |
| Codec.DecodesExactly | crates/synctick/src/codec.rs:169-175 | Bytes decode exactly when they are the encoding of some value, and then re-encode to themselves |
| Codec.ValidateIsDecode | crates/synctick/src/codec.rs:73-76 | Validation and decoding agree on every schema and every input: same outcome, same error, same remaining bytes, allocation and depth |
| Codec.AdmissionImpliesExecution | crates/synctick/src/codec.rs:159-175 | A payload that validates always decodes |
| Codec.PayloadsArePrefixFree | crates/synctick/src/codec.rs:159-166 | No accepted payload is a proper prefix of another |
| Codec.MinSizeIsPositive | crates/synctick-derive/src/wire.rs:100-104 | Every derived minimum size is positive |
| Codec.MinSizeBounds | crates/synctick-derive/src/wire.rs:100-166 | Every encoding is at least as long as its type's minimum size |
| Codec.MinSizeIsAttained | crates/synctick-derive/src/wire.rs:100-166 | The declared minimum is the length of some value's encoding, so the length check is as strict as it can be |
| Codec.CountFront | crates/synctick/src/codec.rs:122-139 | The length check never rejects a real encoding; only the allocation budget does |
| Codec.DecodeOfFlat | crates/synctick/src/codec.rs:185-273 | Decoding a flat form, followed by anything, gives the value back exactly when the reader's budgets have room, and fails otherwise |
| Codec.DecodeTakesFlat | crates/synctick/src/codec.rs:185-273 | Whatever decodes took exactly the value's flat form, within every budget |
| Codec.EncodeIsFlat | crates/synctick/src/codec.rs:82-97 | Writing field by field writes the flat form, or fails for its length alone |
| Codec.FindsArm | crates/synctick-derive/src/wire.rs:30-41 | With unique tags, a variant's tag selects that variant |
| Codec.Decoder.ValidateValue | crates/synctick/src/codec.rs:217-225 | The traversal that builds nothing, step by step, equals its specification |
| Codec.Decoder.DecodeValue | crates/synctick/src/codec.rs:226-238 | The decoding traversal, step by step, equals its specification |
| Codec.Encoder.EncodeValue | crates/synctick/src/codec.rs:239-247 | The encoding traversal, step by step, equals its specification |
| Codec.DecodeBytes | crates/synctick/src/codec.rs:169-175 | The entry point equals its specification: nothing is built before the whole payload was validated |
| Codec.EncodeBytes | crates/synctick/src/codec.rs:178-183 | The entry point equals its specification |
| Adapter.AdmitsExactlyEncodings | crates/synctick/src/api.rs:163-177 | Admission accepts exactly the encodings of sendable commands, which is what `submit` produces |
| Adapter.AdmittedInputsDecode | crates/synctick/src/api.rs:295-310 | Decoding a tick's commands succeeds exactly if all are admitted, and keeps origins, order and values |
| Adapter.GatheredTicksDecode | crates/synctick/src/api.rs:283-310 | No tick the authority gathers can fail to decode, on the authority, a replica or in replay |
| Adapter.TickPlaysTheGame | crates/synctick/src/api.rs:283-310 | Executing a tick is one step of the author's game on exactly the commands the tick holds, in order and with their origins, and succeeds exactly when the tick is the next one, the game takes the step and arrives at that tick |
| Adapter.ExecutedTickIsReadable | crates/synctick/src/api.rs:295-305 | No tick with a command that does not decode is ever executed |
| Adapter.RunPlaysTheGame | crates/synctick/src/api.rs:283-310 | Running a log is playing the author's game turn by turn, and succeeds exactly when the records are the next ticks and the game takes every turn |
| Adapter.OpensTheGame | crates/synctick/src/api.rs:265-282 | A session opens exactly for this game and version, a tick of 1 microsecond to 1 second, and an initialization the game accepts at tick zero |
| Authorship.AuthorityPlaysTheGame | crates/synctick/src/run_server.rs:400-419 | In every run in play, the authority's state is the author's game, created from the header and played one turn per record on exactly the commands the records encode |
| Authorship.ReplicasPlayTheGame | crates/synctick/src/run_client.rs:113-133 | In every run, so is every live honest replica's, on the records up to its tick |
| Adapter.AdaptedIsBounded | crates/synctick/src/api.rs:283-285 | Admission bounds payloads at 64 KiB |
| Adapter.DecodeAll | crates/synctick/src/api.rs:300-305 | The decoding loop equals its specification |
| Garden.Connectivity | examples/power-garden/src/model/connectivity.rs:5-43 | The 25-slot traversal terminates, never overflows its queue, and marks a cell exactly when a path of reciprocal ports joins it to the source |
| Garden.LinkedIsSymmetric | examples/power-garden/src/model/connectivity.rs:20-39 | Links are reciprocal |
| Garden.NeighborsAreAdjacent | examples/power-garden/src/model/connectivity.rs:20-39 | Neighbours are one row or one column apart on the side the direction says; the board does not wrap |
| Garden.ConnectedBeacons | examples/power-garden/src/model/connectivity.rs:45-51 | The counting loop counts the powered beacons |
| Garden.QuarterTurn | examples/power-garden/src/model/tile.rs:38-41 | A quarter turn carries every port to the next direction clockwise, and four turns change nothing |
| Garden.UnturnedIsBase | examples/power-garden/src/model/tile.rs:38-41 | An unturned tile has its recorded ports |
| Garden.AcceptedSetups | examples/power-garden/src/model/initialization.rs:96-131 | A setup is accepted exactly when it is a 5 by 5 board of well-formed tiles with one source and four beacons, each joined to the source in the unturned layout |
| Garden.RolesAre | examples/power-garden/src/model/initialization.rs:96-131 | Which tiles a setup may hold, in numbers of ports; only wires may be turned |
| Garden.CountIs | examples/power-garden/src/model/initialization.rs:96-131 | The counted sources and beacons are the tiles of that kind |
| Garden.Validate | examples/power-garden/src/model/initialization.rs:96-131 | The validation loop returns the first defect in the order of the checks |
| Garden.Board.constructor | examples/power-garden/src/model/board.rs:59-63 | A new board's cache equals a fresh computation |
| Garden.Board.Recompute | examples/power-garden/src/model/board.rs:112-115 | Recomputation makes both caches fresh |
| Garden.Board.Rotate | examples/power-garden/src/model/board.rs:93-110 | An illegal rotation is a no-op, a legal one turns one tile and counts; the caches never go stale |
| Garden.NewBoard | examples/power-garden/src/model/board.rs:59-63 | A board exists exactly for accepted setups |
| Garden.PlayKeepsGarden | examples/power-garden/src/model/board.rs:93-110 | No play changes a role, a port or a fixed tile |
| Garden.CompletedStays | examples/power-garden/src/model/board.rs:93-110 | A completed board never changes again, whatever is rotated |
| Garden.RotationsCount | examples/power-garden/src/model/board.rs:93-110 | A rotation counts exactly for a wire of an uncompleted board while the counter has room, and turns that tile alone by a quarter |
| Garden.CompleteMeansPowered | examples/power-garden/src/model/board.rs:112-115 | A board is complete exactly when every beacon is joined to the source as the tiles are turned |
| Garden.StaysWinnable | examples/power-garden/src/model/board.rs:93-115 | From any reachable board at most three further accepted rotations of each wire complete it, whenever the move counter has room |
| Garden.EveryPlayIsWinnable | examples/power-garden/src/model/board.rs:93-115 | Any play of any accepted setup can still be won |
| Hashing.ParsesUniquely | crates/synctick/src/hashing.rs:124-207 | Representations are uniquely parseable: equal streams that begin with one shape mean equal values on everything hashed and equal continuations |
| Hashing.RepresentationsAreCanonical | crates/synctick-derive/src/hashing.rs:23-78 | Within one shape, equal bytes mean equality on every hashed field and the other way round; skipped fields are invisible |
| Hashing.StepIsInvertible | crates/synctick/src/hashing.rs:92-96 | One FNV-1a step modulo 2^64 is injective in the state and in the byte |
| Hashing.TestVector | crates/synctick/src/hashing.rs:92-96 | The published 64-bit FNV-1a vector for one letter: the byte is mixed in before the multiplication |
| Hashing.RecordFixture | crates/synctick/tests/stable_hash.rs:125-131 | A number beside a text is hashed as exactly the tested bytes |
| Hashing.VariantFixture | crates/synctick/tests/stable_hash.rs:132-136 | A tagged variant and an option are hashed as exactly the tested bytes |
| Hashing.OneByteChangesTheFingerprint | crates/synctick/src/hashing.rs:92-111 | Equal-length representations differing in exactly one byte always have different fingerprints |
| Hashing.FoldJoins | crates/synctick/src/hashing.rs:88-96 | Folding in two calls is folding the whole |
| Hashing.StateHasher.WriteBytes | crates/synctick/src/hashing.rs:92-96 | The byte loop is one fold |
| Hashing.StateHasher.Field | crates/synctick/src/hashing.rs:84-86 | Typed hashing folds exactly the value's representation |
| Hashing.StableHash | crates/synctick/src/hashing.rs:107-111 | The fingerprint is one FNV-1a fold of the representation from the standard basis |
| Pacer.NeverEarly | crates/synctick/src/pacer.rs:33-49 | The k-th return is never before start + k ticks |
| Pacer.BoundedRate | crates/synctick/src/pacer.rs:33-49 | Any window of length L holds at most L / tick + 12 returns, resets included |
| Pacer.ReturnsSpread | crates/synctick/src/pacer.rs:33-49 | Two returns m calls apart are at least m - 11 ticks apart |
| Pacer.StaysOnTheBeat | crates/synctick/src/pacer.rs:33-49 | While no call comes more than ten ticks after its deadline, deadlines are exactly one tick apart, and a timely call that sleeps exactly as asked returns on its beat |
| Pacer.StartsAnew | crates/synctick/src/pacer.rs:33-49 | Further behind than that, the next deadline is one tick after the call |
| Pacer.TickPacer.SleepUntilNext | crates/synctick/src/pacer.rs:33-49 | The in-place deadline is that of the run so far, and so is the return |

## Left out

- Sockets, the transport library, packet loss and resending: channels are reliable and ordered, and the transport's readiness to send is an arbitrary answer.
- Threads, cancellation, status publication and session handles.
- The file system: a recording is a growing byte sequence, a load path is its contents, and flushing has no effect on them.
- Allocation failure: only the codec's counted allocation budget is modelled.
- The inner rules of UTF-8 (RFC 3629, section 4): text is valid under an arbitrary test on bytes.
- Macro parsing and diagnostics of the derives: schemas and shapes are taken well-formed, and only what the generated code does is modelled. A derived type cannot contain itself, so schemas are finite.
- Error texts: errors are named, not worded, and overflow of the counted allocation is the same error as exceeding it.
- The state a game leaves behind when its own step fails: the session is over, and nothing is claimed about it.
- Progress.StartupNeverDeadlocks: a client whose deadline falls before the server next hears from it is not covered; it may be dropped for lateness.
- The clock is read once per peer and waiting iteration, where the source reads it for every message.
- Replay.ReplayInto: cancellation is left out, and every batch is taken to execute at least one record, so termination does not rest on the clock.
- Live.LiveServer.ExecuteTick: after a failed execution the game's state is not stated, since a game's step may leave anything behind when it fails.
- Live.LiveServer.Iterate: after a tick whose execution failed, only the log, the recording and the reason are stated, not the game's state.
- Session.PlayOn: an iteration that fails after recording its tick leaves that tick among the messages in flight, though the source returns before it hands packets over; in-order delivery of any prefix includes delivering none of it.
- Live.CheckReports: goes on reading the reports of a client marked as dropped in the same iteration; whether the transport still hands any over after a disconnect is its own affair.
- Session.LiveKeeps: an iteration that ends the session before its broadcast leaves the channels as they were, since nothing reads them afterwards.
- Flow control of the lockstep and verification channels: their memory limits belong to the transport.
- The Bevy adapter, menus, presentation, command lines and snapshots.
- The wallet example: its transfers add only easy members.
- Floating-point values in fingerprints enter as their bits.
- Collision resistance: equal fingerprints are never taken to mean equal states.
