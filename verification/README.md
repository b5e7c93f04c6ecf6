# ProntoChat, modelled and verified in Dafny

ProntoChat is a peer-to-peer encrypted chat: a daemon per user, a control server that introduces users to each other, and a
little local state. This project models its protocol code and proves what the parts promise together, over whole runs.

- **The session machine of the daemon** (`Daemon`): requests, ICE and crypto deadlines, retries, the signed key exchange,
  resends, stream headers, encrypted messages, close, failure and wipe, as a function of the state and one event. A run is
  any sequence of server messages, transport callbacks, datagrams, client commands and service calls. `Session` proves the
  invariant of every run: wiping, no re-keying, the way to SECURE, deadlines and the retry bound. `Provenance` traces every
  line that a run delivers back to the datagrams and service calls of that run. These hold from any contact file. `Unseating`
  says which events leave a ready session without SECURE. `SessionMemory` is the memory of a session (the transport with its
  receive ring, the handshake record, the streams, the caches and the fields), and `Chatd` is the daemon as an object over
  that memory, proved to do what the machine says.
- **Two daemons over a bad network** (`Pairing`, `Network`, `Display`, `Shutdown`, `Setup`, `Completion`, `Conversation`,
  `Typing`, `Sizes`, `Resending`): key agreement, prefix delivery, what the users see, complete close, what setup refuses, what
  it sends and resends, a setup that survives losses, a conversation that completes, and the exact message size that
  arrives. The network loses, repeats, delays and reorders what
  the daemons send and makes nothing up.
- **The key exchange and the message streams** (`Crypto`, `CryptoState`): libsodium is a record of functions. Its laws are: a
  signature verifies under the signer's public key; two honest key pairs derive mirrored keys; in a given stream state a
  ciphertext opens to a message exactly when it is that message sealed in that state. `LawsAreConsistent` exhibits a library
  that obeys them, and `Conversation.ConversationsExist` a conversation that meets every premise at once.
- **The contact file** (`Contacts`, `Pinning`, `Recognition`, `ContactStore`): trust on first use over a text file whose
  appends may be torn, with the exact condition on the file under which the first key wins, and known contacts recognised.
- **The control server** (`Relay`, `RelayAuthenticity`, `RelayDelivery`, `Presence`, `RelayServer`) and its messages (`Json`,
  `JsonRoundTrip`, `Extraction`, `JsonCursor`, `Signalling`): registration, challenge and response, verified forwarding and
  presence, who gets what into which buffer, and what the receiving daemon pins.
- **Server and daemons together** (`Login`, `Introduction`, `Candidates`, `Lookups`): each side handles the text that is in
  the other's buffer, from the first connection to online and from OPEN_CHAT to both daemons standing in one fresh session.
- **What clients are told and how things end** (`Reports`, `Endings`, `Phases`).
- **The configuration file** (`Config`, `ConfigHistory`, `ConfigName`, `ConfigFile`): a tolerant writer on whole lines and
  strict readers on fixed-size chunks that must agree.
- **The receive ring and the frame** (`Ring`, `Packet`, `PacketBuffer`); `Octets` and `Stdio` hold bytes, hexadecimal text
  and the C library's line readers.

Each module that is imperative in the program has two layers: functions that say what is computed, about which the properties
are proved, and objects and loops proved to compute it.

## How to read the main results

- Clock readings, random keys, library failures, file-system behaviour and the outcome of sends and writes are inputs of the
  events, so a theorem about all runs is about all of these.
- `History`, `Ledger`, `Log` and the server's `issued`, `proof`, `forwards` and `dangling` are records that no branch reads.
  They let properties speak about whole runs; in `Chatd` and `ChatServer` the corresponding fields are ghost.
- A pair of daemons starts in `Fresh`: both have just begun the session that request and accept arranged, which
  `Introduction.DaemonsMeet` derives from the messages themselves. An honest run (`Honest`) delivers only datagrams that the
  peer has sent, begins no other session, and has no OPEN_CHAT that starts a request of its own before the handshake has gone
  out: such a command replaces the session id that the handshake is about to sign (`Unseating.HandshakeSignsNewId`). It also
  assumes that no ciphertext of the session opens in another place than its own (`Unambiguous`), which the cipher makes
  infeasible but which cannot be a law, because ciphertexts are shorter than stream states.
- A contact file is `Safe` when its unfinished last line has no NUL byte, or when no name of four or more characters can be
  added to it any more. First key wins exactly on these files (`Pinning.FirstKeyWins`). For files of less than 64 to the 32nd
  characters the second case means that some line cannot be parsed (`Pinning.SafeExactly`). Only the results that say that a
  name has one key require it. The configuration file is text without NUL bytes.
- The two runs in `Conversation` assume of the cipher only that the one or two ciphertexts of the run itself do not open out
  of place (`Apart`).
- The events of a session (`Provenance.SessionEvents`) are those after the last moment of the run at which the session had
  sent, drawn, queued and received nothing.

## Where the program differs from its documents or from what one would expect

- docs/protocol.md says that the stream header is sent once per direction. The daemon repeats it every second until the
  session is ready; `Session.ResendsNeverRekey` shows that the repetitions are identical.
- A ready session need not stay SECURE: `Unseating.UnseatedExactlyByRequests` gives the two kinds of event that take it out
  of that state and leave it running.
- The first message can be refused on a loss-free, ordered network: `Setup.FirstMessageMustComeLater` says exactly when a
  round of setup refuses, and `Conversation.FirstMessageEndsSession` is such a run.
- A text of 4074 to 4081 bytes is accepted from the client, advances the push stream and is never sent:
  `Sizes.SealedTextIsSentWhenItFits`.
- Users called `session_id`, `public_key` or `sdp` mask message fields; any other names are safe:
  `Signalling.RoutingRoundTrip`, `Signalling.KeyRoundTrip`, `Signalling.SdpRoundTrip`. A user called `public_key` cannot
  register (`Login.RegistrationDecides`), and users called `known` or `online` are always reported offline
  (`Lookups.StatusIsTold`).
- When the registry is full, users who are registered cannot log in either: `Login.RegistrationDecides`.
- Presence is lost exactly by greeting again on a connection that an entry refers to:
  `Presence.PresenceIsLostExactlyByGreetingAgain`.
- A configuration line longer than 511 characters can mask an update or shadow another setting:
  `ConfigHistory.LongLineMasksUpdate` and `ConfigHistory.LongUrlLineShadows` are such files, and
  `ConfigHistory.UpdateIsLoaded` and `ConfigHistory.OtherSettingsStay` give the exact conditions.
- An append to a contact file whose last line is unfinished and has a NUL byte can report success and be lost, its key going
  to another name: `Pinning.WholeLineIsFound` gives the outcome of every append, `Pinning.PinIsMisplaced` where a lost key
  goes, and `Pinning.NulIsUnsafe` a file on which this happens.
- After the registry has found a user, putting that user online cannot fail, so the server's branch for that failure is never
  taken and has no counterpart in the model.

## Model

| member | source | states |
|---|---|---|
| `Network.EveryPlayIsPaired` | daemon/main.c:1073-1352 | In every honest run of two daemons over a network that loses, repeats and reorders their datagrams, each side keeps its own invariant and has taken from the other only what the other sent in this session. |
| `Network.SessionsAgree` | daemon/main.c:1073-1173 | Whenever both sides are ready, each receives with the key and stream header that the other pushes with, and its pull state is the other's push state after a prefix of its messages. |
| `Network.DeliveryIsPrefix` | daemon/main.c:1014-1071 | During and after a session, the messages a side has accepted are exactly a prefix of those the other side has sealed: nothing altered, repeated or skipped. |
| `Network.OutOfPlaceIsRefused` | daemon/main.c:1236-1245 | A genuine message that is not the next one is refused and changes nothing but the queue. |
| `Network.OutOfPlaceEndsSession` | daemon/main.c:1282-1291 | Servicing such a message ends the ready session: everything is wiped, the records stay, and the reason is a refused datagram. |
| `Network.BeginIceIsBegun` | daemon/main.c:693-747 | A session that begins has nothing of an earlier one: empty queue and records, the requested role, peer key and session id. |
| `Network.NextKeeps` | daemon/main.c:1354-1419 | One event at either daemon keeps the invariant of the pair and only extends the records. |
| `Pairing.StepSide` | daemon/main.c:1683-1763 | Every event of one daemon, with any datagram of its peer, keeps what its records say about the peer's. |
| `Pairing.OnlyNextOpens` | common/crypto.c:343-391 | A genuine ciphertext opens exactly when it is the next one, and then to the message that was sealed. |
| `Pairing.PullIsPushPrefix` | common/crypto.c:281-298 | A side that has the peer's header holds the peer's push state after the messages accepted so far. |
| `Pairing.ReceiveKeyIsPushKey` | common/crypto.c:201-233 | The receive key of one side is the key the other side pushes with. |
| `Pairing.TakePacket` | daemon/main.c:1175-1251 | Any datagram the peer sent, at any time, moves the receiver's records in step with the peer's or is refused. |
| `Pairing.SealedSide` | daemon/main.c:926-960 | Sealing a message puts its ciphertext, in its place, on the wire or nowhere. |
| `Shutdown.ReportedCloseIsComplete` | daemon/main.c:1045-1066 | A daemon reports that the peer closed the chat only when it has accepted every message the peer ever sealed, the last of them final. |
| `Display.ShownIsSaid` | daemon/main.c:981-1044 | In every honest run, the lines a client is shown in the session are a subsequence of the lines of the messages that the peer sealed: only what the peer said, in the order said, nothing twice. |
| `Display.StepShows` | daemon/main.c:1014-1044 | Every event shows at most the messages it accepts, in the order it accepts them. |
| `Shutdown.StepIsCalm` | daemon/main.c:975-979 | No event seals anything behind a final message, changes what an ended session accepted, or reports a close without the final message. |
| `Setup.SetupIsNeverRefused` | daemon/main.c:1276-1352 | As long as nobody has sealed a message and no OPEN_CHAT starts a request of its own during the session, no order, loss or repetition of handshakes, headers and timers makes either side give up for a refused datagram or a missing key. |
| `Setup.SetupRefusesExactlyMessages` | daemon/main.c:1194-1245 | During setup, the datagrams of the peer that are refused are exactly its encrypted messages. |
| `Setup.GenuineHandshakeFinishes` | daemon/main.c:1111-1125 | The honest peer's handshake message always verifies and yields keys. |
| `Setup.SetupDatagramIsAccepted` | daemon/main.c:1194-1234 | The peer's handshake and header are accepted wherever they come, and change nothing once the session is ready. |
| `Setup.FirstMessageMustComeLater` | daemon/main.c:1307-1332 | During setup, a round gives up for a refused datagram exactly when one of the at most two datagrams it takes is an encrypted message of the peer, wherever it stands. |
| `Conversation.FirstMessageEndsSession` | daemon/main.c:1307-1349 | Whenever two daemons have begun a session, and the one ciphertext of the message does not open in the place after it, there is an honest run without loss or reordering in which the first message, sent as soon as its sender is SECURE, ends the receiver's session. |
| `Unseating.UnseatedExactlyByRequests` | daemon/main.c:1421-1474 | Over every event: a ready SECURE session is left ready but not SECURE exactly when an OPEN_CHAT starts a request of its own, or an accepted and verified chat request arrives while a control message is waiting. |
| `Unseating.RequestDecides` | daemon/main.c:1460-1470 | A verified request while a control message waits leaves the session ready in REQUESTING; one that can be answered replaces the session; any other changes nothing of it. |
| `Unseating.CommandDecides` | daemon/main.c:1925-1960 | OPEN_CHAT leaves a ready session SECURE exactly when it starts no request of its own. |
| `Unseating.UnseatedRefusesMessages` | daemon/main.c:1236-1245 | After such an event the peer's next message is refused. |
| `Unseating.HandshakeSignsNewId` | daemon/main.c:1945-1957 | A request started before the handshake replaces the session id, and the handshake then signs the new one. |
| `Completion.SetupCompletes` | daemon/main.c:1276-1352 | Whenever two daemons have begun a session, there is an honest run after which both are SECURE: handshakes and headers cross once, three service calls on each side suffice, and each side has drawn and announced what its service calls offered. |
| `Completion.BeginIceIsUntouched` | daemon/main.c:693-747 | A session that begins meets what that run needs. |
| `Completion.ReadySendsNothing` | daemon/main.c:1276-1291 | The service calls of a ready session send nothing, so a header that the peer has lost is not repeated. |
| `Resending.ServiceSends` | daemon/main.c:1307-1327 | Everything that a service call in setup sends: exactly the handshake, when none has gone out or no header is in and the second is over, and it can leave; and then exactly the stream header, when after the first waiting datagram the keys are there and none has gone out or the second is over, and it can leave. |
| `Resending.QuietServiceSends` | daemon/main.c:1307-1327 | With nothing waiting, what is sent depends on the session and the clock alone. |
| `Resending.UnsentEnds` | daemon/main.c:1307-1313 | A handshake that is due and cannot leave ends the session, because it was not sent or could not be made. |
| `Resending.SetupSurvivesLoss` | daemon/main.c:1276-1352 | Whenever two daemons have begun a session, there is an honest run in which the first handshake and the first header of each side are lost, and after which both are SECURE. |
| `Conversation.ConversationCompletes` | daemon/main.c:926-1071 | Whenever two daemons with clients have begun a session, and the two ciphertexts of text and close do not open out of place, there is an honest run in which one user's text is sealed, sent, accepted and shown and the close is reported: the two sides' records are then equal. |
| `Conversation.ConversationsExist` | common/crypto.c:300-391 | The premises of all results about pairs can be met together: a library, two daemons and honest runs with a shown text, a reported close and an early first message. |
| `Conversation.CountingIsUnambiguous` | common/crypto.c:300-391 | With a library that numbers its messages, no ciphertext of a conversation opens out of place, up to the capacity of the number. |
| `Typing.BufferIsSealed` | daemon/main.c:1991-2027 | One buffer of client input seals its valid texts in the order typed, nothing else, and the final message at CLOSE_CHAT, whether or not the datagrams leave; exactly CLOSE_CHAT ends the chat. |
| `Sizes.TextArrivesWhenItFits` | daemon/main.c:844-1012 | Between sessions in step, a text arrives byte for byte exactly when it is at most 4073 bytes long and at most 4085 together with the sender's name. |
| `Sizes.SealedTextIsSentWhenItFits` | daemon/main.c:926-973 | A valid text always advances the push stream, but reaches the wire exactly when it is at most 4073 bytes long. |
| `Sizes.LinePassesThrough` | daemon/main.c:981-1012 | What a client is shown is one line, whatever the peer sent; exactly the texts that a client could have sent are shown unchanged. |
| `Sizes.ValidIsSendable` | daemon/main.c:910-924 | The texts that the daemon seals are exactly those that are shown unchanged and fit a command. |
| `Sizes.UnattendedTextIsTaken` | daemon/main.c:981-1044 | The next message is accepted while no client is attached and shown to nobody; with a client whose line cannot be written it ends in failure. |
| `Sizes.SentTextIsWritten` | daemon/main.c:981-1044 | A text that was sent is written to the client unchanged exactly when its line fits the response buffer. |
| `Reports.SecureIsTold` | daemon/main.c:1334-1349 | Over every event: when a session becomes SECURE its client is told so once, with the peer and the path that the transport reported, and nothing else. |
| `Reports.AskingIsAnswered` | daemon/main.c:1945-1960 | An OPEN_CHAT that starts a request leaves its client waiting for a request that is on its way, or told that there is none. |
| `Reports.OpenChatIsAnswered` | daemon/main.c:1884-1963 | Every OPEN_CHAT that starts no request is answered with one line to whoever gave it, for exactly the stated reason, and changes nothing else unless it takes over the encrypted session with that peer. |
| `Reports.ErrorIsReported` | daemon/main.c:1533-1555 | An error lets a waiting client go: an offline peer is reported by name and leaves the connection up, any other error is reported with its code and breaks it. |
| `Reports.OfflinePeerIsReported` | server/main.c:300-313 | A chat request for a user who is not online, through the server, comes back to the client that asked as that user being offline. |
| `Endings.CancelEnds` | daemon/main.c:1649-1667 | A cancel from the session's peer, for this user and session, ends it; any other changes nothing. |
| `Endings.CancelPasses` | server/main.c:252-313 | A cancel between two users who are online passes every check of the server. |
| `Endings.MismatchCancels` | daemon/main.c:1612-1620 | An accept under another key than the pinned one begins nothing, tells the client, and sends a cancel that ends the session the peer has begun. |
| `Endings.UnverifiedIsReported` | daemon/main.c:1621-1626 | Any other failure to verify the contact is told to the client and begins nothing. |
| `Endings.UnstartedIsReported` | daemon/main.c:1634-1636 | An accepted session whose transport cannot be started does not begin, is recorded as a transport failure, and the client is told once and let go. |
| `Endings.StrayAcceptIsIgnored` | daemon/main.c:1594-1611 | An accept that nobody waits for changes nothing. |
| `Endings.UnwelcomeIsIgnored` | daemon/main.c:1421-1451 | A request that is incomplete, for somebody else or not accepted by the contact file changes nothing but, perhaps, that file. |
| `Endings.LeavingEnds` | daemon/main.c:1965-1989 | However the client of a ready session leaves, the session is wiped; a client that closes says so to the peer with a final message, one whose socket fails does not. |
| `Endings.CommandIsAnswered` | daemon/main.c:1991-2027 | A line of a client seals exactly a valid text; it is answered with an error exactly when it is no command, or its text is not valid or does not leave. |
| `Endings.ServerLossSparesSession` | daemon/main.c:1734-1760 | Losing the server leaves every session alone; a client that still waits for one is told and let go. |
| `Endings.TransportFailureEnds` | daemon/main.c:1389-1393 | A session whose transport has failed is given up at the next service call, for that reason. |
| `Endings.ReportedFailureEnds` | daemon/ice.c:57-80 | A failure of the transport, or a datagram that is too long for a slot of the receive ring, ends the session at the next service call. |
| `Endings.ReadyCatchesUp` | daemon/main.c:1282-1291 | One service call of a ready session takes every datagram that waits, or ends the session. |
| `Endings.OverdueEnds` | daemon/main.c:1363-1369 | A session that is overdue before it is ready is given up for that reason, whatever else is to be done. |
| `Endings.NewSessionHasTime` | daemon/main.c:693-747 | A session that has just begun cannot time out within thirty seconds. |
| `Endings.TimeoutIsDue` | daemon/main.c:1354-1419 | A session times out only thirty seconds after it began without the transport, or thirty seconds after the transport came up without being ready. |
| `Session.EveryRunIsGood` | daemon/main.c:1683-1763 | Every run of a daemon from start, with any contact file and over any server messages, datagrams, commands, timers and failures, keeps the session invariant and the client bookkeeping. |
| `Session.EveryRunIsTrusting` | daemon/main.c:1421-1638 | In every run from a safe contact file, the file agrees with every identity the daemon has accepted, and no name has two. |
| `Provenance.DeliveriesAreAuthentic` | daemon/main.c:1014-1044 | For every line that any run delivers, from any contact file, the run itself holds the evidence: one of its service calls wrote the line for the attached client under the session's peer name; it is a message opened, in its place of the stream, from a MESSAGE datagram received in that session; the stream's key was derived from an ephemeral key drawn in that session and a key exchange received in it, signed by the peer's verified identity for the opposite role, this daemon and this session id; the stream header and every earlier message were received in it as well. When the contact file was safe, that identity is the only one that the whole run, before and after the line, accepts for the name. |
| `Provenance.EveryRunIsTraced` | daemon/main.c:1175-1274 | In every run, whatever the current session holds of the outside world (queued packets, the accepted key exchange, the ephemeral key, the stream header, each opened message) came in a datagram or service call of that session. |
| `Provenance.StepIsTraced` | daemon/main.c:1683-1763 | An event brings in nothing but its own datagram or its own ephemeral key. |
| `Provenance.StepIsServed` | daemon/main.c:1276-1291 | A line is shown only by a service call of a ready session, from a message that this call opened from the queue; everything it accepts was opened from the queue in order. |
| `Provenance.OthersAreOutside` | daemon/main.c:1683-1763 | Events other than datagrams and service calls bring nothing into a session and show nothing; at most they end it or begin a new one. |
| `Session.SessionInvariant` | daemon/main.c:1276-1352 | In every reachable state the header is in exactly when the session is ready, SECURE implies ready, and ready implies active, finished handshake, both streams started and the ephemeral secret gone. |
| `Session.SecureOnlyFromHandshake` | daemon/main.c:1334-1349 | Over every event: SECURE is entered by a service call alone, whose setup round succeeded, ended in CRYPTO_HANDSHAKE and had the keys and both headers. |
| `Session.InactiveMeansWiped` | daemon/main.c:601-632 | Whenever no session is active, handshake, keys, streams, cached datagrams and remote identity are zero; only the id of an outgoing request may be set. |
| `Session.ResendsNeverRekey` | daemon/main.c:1073-1157 | Within one session all handshake datagrams are equal, all header datagrams are equal, one ephemeral key is drawn and one push stream started, however often `Resending.ServiceSends` sends them. |
| `Session.DeadlinesHold` | daemon/main.c:1354-1419 | After every service call with a monotone clock, an active session that is not ready is strictly before its ICE or crypto deadline. |
| `Session.RetriesAreBounded` | daemon/main.c:634-668 | One accepted OPEN_CHAT causes at most four chat requests; without a client the retry count is zero and nothing is looked up. |
| `Session.StepIsGood` | daemon/main.c:1683-1763 | Each kind of event keeps that invariant, forgets no accepted identity and keeps the agreement of the contact file with them. |
| `Session.FailWipes` | daemon/main.c:670-691 | Giving up wipes the session from any state, ends in REQUESTING or FAILED and records the reason. |
| `Session.DuplicatesIgnored` | daemon/main.c:1206-1231 | Once ready, a repeated handshake or header changes nothing. |
| `Phases.BreaksExactly` | daemon/main.c:1526-1592 | Over every event: the control connection breaks exactly when a text cannot be written, a message is too long, a challenge cannot be read, or the server reports an error other than that the user is known while registering or that the peer a client asked for is offline. |
| `Phases.HeldUntilWritten` | daemon/main.c:399-419 | Over every event: a text that waits for the server stays in the buffer, unchanged, until it has been written. |
| `Phases.PhasesAreWalked` | daemon/main.c:1526-1592 | Over every event: the phases of the control connection are walked in order and only by the server's answers; a daemon is online only after its answer to a challenge was accepted. |
| `SessionMemory.Memory.constructor` | daemon/ice.c:96-104 | The memory of no session: every object and field is wiped. |
| `SessionMemory.Memory.Wipe` | daemon/main.c:601-632 | Wiping the transport with its packets, the handshake, the streams, the cached message and the fields leaves the memory of no session. |
| `SessionMemory.Memory.TakeOldest` | daemon/main.c:1253-1266 | Taking from the ring takes the oldest packet from the session's queue, or refuses it and changes nothing. |
| `SessionMemory.Memory.Received` | daemon/ice.c:62-94 | A datagram put into the ring is one received by the session's queue. |
| `Chatd.Chatd.constructor` | daemon/main.c:2113-2282 | A started daemon: registering, no client, no session, the contact file as it is on disk. |
| `Chatd.Chatd.OnEvent` | daemon/main.c:1683-1763 | Every callback, command and service call changes the daemon's fields and the memory of its session, down to the slots of the ring and the wiped records, as the session machine says, and keeps the session invariant and the trust in the contact file. |
| `Chatd.Chatd.ShowMessage` | daemon/main.c:981-1012 | A text becomes one line for the attached client, or is refused when it does not fit. |
| `Chatd.Chatd.SendMessage` | daemon/main.c:962-973 | Only a valid text is sealed. |
| `Chatd.Chatd.DrainQueue` | daemon/main.c:1282-1291 | A ready session takes up to eight datagrams and is given up at the first one refused. |
| `Chatd.Chatd.CheckContact` | daemon/main.c:1441-1451 | What the contact store accepts is recorded as verified. |
| `Chatd.Chatd.OnChatRequest` | daemon/main.c:1421-1474 | A request for this user from a verified contact is accepted and begins a session in the responder's role. |
| `Chatd.Chatd.OnChatAccept` | daemon/main.c:1594-1638 | An accept of the pending request from a verified contact begins a session in the initiator's role; a changed key is refused and cancelled. |
| `Chatd.Chatd.OnIceCredentials` | daemon/main.c:805-842 | Candidates are taken only from the session's peer, for this user and session. |
| `Chatd.Chatd.OnUserStatus` | daemon/main.c:1501-1524 | A status answers the client that looked the user up. |
| `Chatd.Chatd.OnError` | daemon/main.c:1533-1555 | A known registration continues, an offline peer answers the client, any other error breaks the connection. |
| `Chatd.Chatd.OnChallenge` | daemon/main.c:1565-1577 | A challenge is answered with its signature. |
| `Chatd.Chatd.OnReceive` | daemon/main.c:1526-1681 | Server messages are dispatched by type and phase. |
| `Chatd.Chatd.RunLine` | daemon/main.c:1991-2027 | One line of the buffer, with the loops that find its end and the next line. |
| `Chatd.Chatd.RunCommands` | daemon/main.c:1991-2028 | The command buffer is split at line ends and run line by line until the session or the client is gone. |
| `Chatd.Chatd.OnClientInput` | daemon/main.c:1965-2029 | End of input closes the chat, a read error drops it. |
| `Chatd.CheckText` | daemon/main.c:910-924 | Accepts exactly the non-empty texts of at most 4081 bytes without NUL, CR or LF. |
| `Chatd.MakeLine` | daemon/main.c:1004-1008 | NUL, CR and LF become blanks; every other byte stays. |
| `Daemon.LineEnd` | daemon/main.c:1994-1997 | The first line end at or after a position. |
| `Daemon.SkipLineEnds` | daemon/main.c:2023-2026 | The first character after a run of line ends. |
| `Crypto.TranscriptInjective` | common/crypto.c:27-76 | Equal transcripts have equal role, signer, peer, session id and key-exchange key. |
| `Crypto.FinishErases` | common/crypto.c:171-233 | A handshake that comes as far as deriving keys gives up its ephemeral secret whatever the outcome; a refused message leaves everything as it was. |
| `Crypto.GenuineMessageVerifies` | common/crypto.c:139-194 | What finish recomputes is what the honest peer signed at init, so the message verifies and carries the peer's key. |
| `Crypto.DerivedKeysMirror` | common/crypto.c:207-233 | The two roles derive the same keys with the directions exchanged. |
| `CryptoState.WriteU64` | common/crypto.c:20-25 | The eight bytes are the big-endian digits of the value and read back to it. |
| `CryptoState.HandshakeState.constructor` | common/crypto.c:235-242 | A new record is wiped. |
| `CryptoState.HandshakeState.Wipe` | common/crypto.c:235-242 | Every field becomes zero. |
| `CryptoState.HandshakeState.Begin` | common/crypto.c:102-168 | Invalid input changes nothing, a library failure wipes, success fills the record and the message. |
| `CryptoState.HandshakeState.Complete` | common/crypto.c:170-233 | A refused message changes nothing; success wipes the ephemeral secret and yields the derived keys. |
| `CryptoState.StreamState.Open` | common/crypto.c:343-391 | A ciphertext that opens advances the pull state; otherwise nothing changes. |
| `CryptoState.StreamState.Wipe` | common/crypto.c:393-400 | Both directions are wiped. |
| `CryptoState.LawsAreConsistent` | common/crypto.c:262-391 | The laws assumed of the library hold together: a library that puts the tag and the message number into the overhead obeys them. |
| `Pinning.FirstKeyWins` | common/contacts.c:177-215 | A file is safe exactly when over every history of calls, in which any append may stop anywhere, all successful checks of a name use the same key and a load of that name returns it or nothing. |
| `Pinning.SafeExactly` | common/contacts.c:108-153 | A file of less than 64 to the 32nd characters is safe exactly when its unfinished line has no NUL byte or some line of it cannot be parsed. |
| `Pinning.PinsTwice` | common/contacts.c:177-215 | On every other file, three calls verify any two keys for one name: a torn append fills the unfinished line up to one character, and then each pin is lost. |
| `Pinning.NulIsUnsafe` | common/contacts.c:108-153 | A file that is not safe: one line, a NUL byte and no newline. |
| `Pinning.LoadedKeyWasOffered` | common/contacts.c:217-238 | Over every history no load returns a key that was neither offered for that name nor in the file from the start, exactly unless its unfinished line has a NUL byte and room for the first characters of some new name whose rest is a new name too. |
| `Pinning.TornAppendIsRefused` | common/contacts.c:81-106 | On every file: after an append that was cut inside its line, every name that was not found before meets a damaged file, exactly unless all that was written is hidden behind a NUL byte; then nothing changes. |
| `Pinning.WholeLineIsFound` | common/contacts.c:108-153 | On every file: after a whole append the name is found with its key exactly when the file had no unfinished line, is still not found exactly when that line has a NUL byte and is at least 102 characters together with the name, and meets a damaged file otherwise. |
| `Pinning.PinIsMisplaced` | common/contacts.c:108-153 | In the second case the key is found under what is left of the name, if that name is new, and nothing else changes for anybody. |
| `Pinning.SaneGrows` | common/contacts.c:81-106 | Appended text, torn or whole, leaves no NUL byte in the last line if there was none. |
| `Pinning.SafeGrows` | common/contacts.c:81-106 | An append, torn or whole, keeps a file safe. |
| `Pinning.CallKeepsTrust` | common/contacts.c:177-215 | Each call keeps the agreement between the file and the keys accepted so far. |
| `Pinning.OwnLineParses` | common/contacts.c:46-79 | A line that was written parses back to its name and key. |
| `Pinning.TornLineIsBad` | common/contacts.c:46-79 | A line cut before its last digit does not parse. |
| `Recognition.CheckAgreesWithLoad` | common/contacts.c:177-238 | On every file: a stored key is accepted exactly when it is the one offered, and nothing is written; without one, exactly a complete append is a success. |
| `Recognition.KnownContactIsRecognised` | common/contacts.c:202-207 | After any history on a safe file, a name that was once accepted is accepted again exactly with its first key, and refused as a mismatch with any other, unless the file can no longer be read; the file stays. |
| `Recognition.EveryCheckIsDecided` | common/contacts.c:177-215 | On a file in order whose writes are whole, every check has its answer: names accepted before or in the file from the start exactly with their key, any other name if its line gets written, and it is then loaded with that key. |
| `ContactStore.FindContact` | common/contacts.c:108-153 | The chunk-by-chunk scan finds the first line for the name, or the first damage. |
| `ContactStore.Store.CheckOrPin` | common/contacts.c:177-215 | The file only grows, and only for a name that has no line yet; the answer is the one that `Recognition.EveryCheckIsDecided` is about. |
| `ContactStore.Store.LoadKey` | common/contacts.c:217-238 | The stored key, or why there is none. |
| `RelayAuthenticity.EveryRunIsGenuine` | server/main.c:389-442 | In every run names are unique, every authenticated connection has signed the challenge of its own last accepted hello under its user's registered key, and every forwarded message was checked against it. |
| `RelayAuthenticity.KeysNeverChange` | server/users.c:15-40 | Once registered, a name keeps its key for the rest of the run and nobody is removed. |
| `RelayAuthenticity.PinnedKeyIsRegistered` | server/main.c:252-313 | End to end: a forwarded message leaves a daemon's verified contacts as they were or adds exactly the sender's name with the key registered for it, proven by the sending connection's signature of its own latest challenge. |
| `RelayAuthenticity.VerifiedIsClaimed` | daemon/main.c:1429-1436 | A server message can add to the verified contacts only the sender it names with the key it claims. |
| `RelayAuthenticity.StepKeeps` | server/main.c:363-387 | Each event keeps those guarantees. |
| `Presence.EveryRunIsOrderly` | server/main.c:192-237 | As long as no connection that an entry refers to greets again, every online entry refers to an open connection authenticated as its user, also when a second connection replaces the first, and nothing is sent to a connection that is gone. |
| `Presence.PresenceIsLostExactlyByGreetingAgain` | server/main.c:157-190 | Presence is lost at an event exactly when it is an accepted hello on a connection that an entry refers to. |
| `Presence.StaleEntryRemains` | server/main.c:431-437 | After such a hello, closing the connection leaves the entry online with nobody behind it. |
| `RelayDelivery.PassedIsDelivered` | server/main.c:252-313 | A signalling message that passes every check goes, whole, into the buffer of the connection of the user it names, and nothing else changes. |
| `RelayDelivery.OthersGoNowhere` | server/main.c:252-313 | Any other goes nowhere: no buffer but the sender's changes. The sender learns that the user is offline exactly when the message was admissible and the user is not online, and that the peer is busy exactly when the user's buffer is taken. |
| `RelayDelivery.HeldUntilWritten` | server/main.c:300-313 | Over every event: a text in a connection's buffer stays until it is written or the connection closes; only the answer to the connection's own message may replace it, nobody else's message does. |
| `RelayDelivery.ForwardsWereDelivered` | server/main.c:300-313 | In every run, each forwarded message was, right after its event, in the buffer of the connection on which the user it is for was online. |
| `RelayDelivery.NoMessageIsRefused` | server/main.c:363-430 | Fragments, over-long messages and messages without a known type change nothing; the sender is told. |
| `Lookups.LookupIsRefused` | server/main.c:315-361 | A lookup without authentication or without a valid name is refused, whatever else it says. |
| `Lookups.StatusCarriesKey` | server/main.c:342-361 | A status carries the key of a user who is known, except one called public_key, and no other key. |
| `Lookups.LookupIsAnswered` | server/main.c:315-361 | An authenticated connection that asks about a user gets that user's entry, or that there is none, into its buffer; nothing else changes. |
| `Lookups.StatusIsTold` | daemon/main.c:1501-1524 | The waiting client is told that the user is online exactly when the server knows the user as online and the name is neither known nor online. |
| `Relay.IndexOf` | server/users.c:42-56 | The first entry for a name: no earlier one bears it; or none does. |
| `Relay.FindUser` | server/users.c:58-72 | An entry of that name, or there is none. |
| `RelayServer.Registry.constructor` | server/users.c:6-13 | An empty registry. |
| `RelayServer.Registry.Find` | server/users.c:42-56 | The search loop finds the first entry. |
| `RelayServer.Registry.Register` | server/users.c:15-40 | A valid new name is added with its key while there is room; nothing else changes (`Login.RegistrationDecides`). |
| `RelayServer.Registry.GoOnline` | server/users.c:74-88 | The user's entry refers to the connection. |
| `RelayServer.Registry.GoOffline` | server/users.c:90-103 | The clearing loop takes exactly the connection's entries offline. |
| `RelayServer.ChatServer.OnRegister` | server/main.c:130-155 | A valid registration is added with its key or refused with its reason (`Login.RegistrationDecides`). |
| `RelayServer.ChatServer.OnHello` | server/main.c:157-190 | An accepted hello ends any authentication and issues a challenge. |
| `RelayServer.ChatServer.OnAuthResponse` | server/main.c:192-237 | A signature of the challenge under the registered key authenticates and puts the user online. |
| `RelayServer.ChatServer.OnForward` | server/main.c:252-313 | Only an authenticated sender's own messages pass, with its registered key, into the buffer of an online user (`RelayDelivery.PassedIsDelivered`). |
| `RelayServer.ChatServer.OnLookup` | server/main.c:315-361 | An authenticated connection learns whether a user is known and online. |
| `RelayServer.ChatServer.OnMessage` | server/main.c:363-387 | Messages are dispatched by type. |
| `RelayServer.ChatServer.OnEvent` | server/main.c:389-442 | The websocket callback does what the server machine says and keeps its guarantees. |
| `JsonRoundTrip.MessageRoundTrip` | daemon/main.c:298-346 | Extraction from a built message yields the value of the first field so named that is copied whole, unless an earlier value spells the name. |
| `JsonCursor.ReadString` | server/main.c:42-90 | The cursor loops compute that extraction. |
| `Extraction.ExtractsExactly` | daemon/main.c:298-346 | On any text: a value is extracted exactly when it stands, quoted, behind the first occurrence of the key, a colon and any blanks, fits, and has no control character and no backslash. |
| `Extraction.TrueExactly` | daemon/main.c:491-517 | A flag is true exactly when `true` stands behind the first occurrence of its name, a colon and any blanks. |
| `Signalling.RoutingRoundTrip` | daemon/main.c:519-599 | Type, sender and recipient always come out as put in; the session id exactly when neither user is called session_id. |
| `Signalling.KeyRoundTrip` | daemon/main.c:546-579 | The key comes out exactly when neither user is called public_key, and never wrong. |
| `Signalling.SdpRoundTrip` | daemon/main.c:763-803 | The candidates come out exactly when neither user is called sdp. |
| `Signalling.HexIdIsGood` | daemon/main.c:546-579 | The session ids that daemons draw are copied whole and are no field name. |
| `Signalling.MeetingIsFresh` | daemon/main.c:1421-1638 | From any state: when a request and the accept of it leave both daemons in a session, it is one and the same fresh session. |
| `Signalling.ChallengeIsAnswered` | daemon/main.c:464-489 | A challenged daemon answers with its signature of exactly that challenge. |
| `Signalling.HonestDaemonLogsIn` | server/main.c:192-237 | The server accepts that answer when the daemon's key is registered and puts the user online on that connection. |
| `Login.HelloDecides` | server/main.c:156-190 | The whole effect of a hello, whatever it says: the registered user it names is challenged and any authentication ends, or the sender is told why not and nothing else changes. |
| `Login.LoginCompletes` | daemon/main.c:429-489 | From the server taking up the connection to online in three round trips, each side reading what the other wrote: with room in the registry and no other key under its name, an honest daemon ends up online and the server has its user, with its key, on that connection; nobody else is touched. |
| `Login.RegistrationDecides` | server/main.c:130-155 | A registration stores the offered key under the offered name, at the end of the registry; or it changes nothing and the sender learns why. A user called public_key cannot register, and a full registry refuses known users too. |
| `Login.ConnectedRegisters` | daemon/main.c:429-448 | A daemon that has connected offers its own name and key. |
| `Login.RegisteredGreets` | daemon/main.c:1533-1564 | A new registration and one that is already there both lead to the greeting. |
| `Login.GreetedIsChallenged` | server/main.c:157-190 | An accepted hello names the connection, ends any authentication and puts the challenge into its buffer. |
| `Login.AnswerDecides` | server/main.c:192-237 | An answer authenticates exactly when its signature of this connection's challenge verifies under the registered key; otherwise nothing changes. |
| `Introduction.OpenChatAsks` | daemon/main.c:546-579 | An OPEN_CHAT that starts a request puts into the buffer a request from this user, with this user's key, to the user it names, about the id that the session now has. |
| `Introduction.GivingUpAsksAgain` | daemon/main.c:634-668 | Giving up asks the same user again under a fresh id, for the same client, as long as retries are left. |
| `Introduction.GivingUpTells` | daemon/main.c:670-691 | Giving up for good tells the client once, by the name it asked for if there is one, and lets it go. |
| `Introduction.RequestIsAccepted` | daemon/main.c:1421-1474 | A request from a user the contact file vouches for begins a session in the responder's role, and the accept goes back to that user about the same session with this user's name and key. |
| `Introduction.AcceptIsTaken` | daemon/main.c:1594-1638 | An accept from the user that was asked, for the session that was asked for, begins it in the initiator's role. |
| `Introduction.RoutedPasses` | server/main.c:252-313 | A message of any routed kind between two users who are online passes every check of the server; a request or accept must carry the sender's registered key. |
| `Introduction.InvitationPasses` | server/main.c:252-313 | A request or accept between two users who are online passes every check of the server. |
| `Introduction.DaemonsMeet` | daemon/main.c:1421-1638 | From OPEN_CHAT to a fresh session on both sides: asked, forwarded, accepted, forwarded, taken, each party handling exactly what is in the other's buffer. Both daemons are then in one and the same session with each other. |
| `Introduction.OpenChatReachesSecure` | daemon/main.c:1884-1963 | ... and from there an honest run leads both to SECURE. |
| `Candidates.ServiceOffers` | daemon/main.c:763-803 | The first service call after gathering puts the candidates into the buffer, for the session's peer and about its session, whatever else becomes of the session at that call. |
| `Candidates.GatheringOffers` | daemon/ice.c:15-22 | The candidates go out with the first service call after the transport reports that it has gathered them. |
| `Candidates.OfferIsTaken` | daemon/main.c:805-842 | Candidates from the session's peer are held until the own ones are gathered and applied from then on; when they cannot be, the transport has failed. |
| `Candidates.StrangersOfferNothing` | daemon/main.c:805-842 | Anybody else's candidates change nothing. |
| `Candidates.OfferPasses` | server/main.c:252-313 | Candidates between two users who are online pass every check of the server. |
| `Candidates.CandidatesCross` | daemon/main.c:763-842 | The candidates that one daemon of a session queues go through the server into the other's buffer, and the other takes exactly these. |
| `Candidates.BadOfferIsIgnored` | daemon/main.c:814-825 | Candidates that do not decode, are empty or too long change nothing. |
| `Candidates.UngatheredEnds` | daemon/main.c:763-803 | A session whose own candidates cannot be had after gathering ends. |
| `Candidates.HeldAreApplied` | daemon/main.c:1371-1378 | Candidates that were held are applied once gathering is over, exactly when the transport takes them, and are then no longer held; otherwise the transport has failed. |
| `Candidates.UnappliedEnds` | daemon/main.c:1371-1378 | Held candidates that cannot be applied after gathering end the session. |
| `Packet.DecodeInvertsEncode` | common/protocole.c:70-128 | A buffer decodes to a header exactly when it begins with what that header encodes to, and ends there or holds at least the announced payload. |
| `Octets.HexDecides` | common/contacts.c:66-87 | Text is decoded exactly when it is pairs of digits of either case, to bytes that are written as that text in lower case. |
| `Packet.FrameRoundTrip` | common/protocole.c:70-128 | Decoding a frame gives back its type and payload. |
| `Packet.DecodeIsCanonical` | common/protocole.c:93-128 | A datagram of the announced size is the frame of what was decoded. |
| `Packet.FrameInjective` | common/protocole.c:70-91 | Equal frames have equal type and payload. |
| `Packet.BigEndianRoundTrip` | common/protocole.c:11-25 | Reading the digits of a number that fits gives the number. |
| `Packet.ReadBigEndianRoundTrip` | common/protocole.c:19-25 | Writing what was read gives the same bytes. |
| `PacketBuffer.WriteU32` | common/protocole.c:11-17 | Four big-endian digits in place; the rest of the buffer stays. |
| `PacketBuffer.EncodeHeader` | common/protocole.c:70-91 | A valid header decodes to itself; otherwise the buffer stays and the reason is given. |
| `PacketBuffer.CheckUsername` | common/protocole.c:27-46 | Accepts exactly 3 to 32 letters, digits, underscores and dashes. |
| `Ring.Transport.constructor` | daemon/ice.c:96-104 | A transport session that has done nothing, with an empty ring of zeros. |
| `Ring.Transport.Close` | daemon/ice.c:106-120 | Every flag and every byte of the ring becomes zero. |
| `Ring.Transport.Receive` | daemon/ice.c:62-94 | The ring does what a drop-oldest queue of eight does; every byte outside the queued packets is zero; an over-long packet only marks the transport failed. |
| `Ring.Transport.Take` | daemon/ice.c:310-336 | The oldest packet is handed out and wiped, unless the buffer is too small. |
| `Ring.Transport.DropOldest` | daemon/ice.c:81-88 | The oldest packet is wiped and forgotten. |
| `Ring.Transport.Append` | daemon/ice.c:90-93 | The packet joins the queue behind the newest. |
| `Ring.FirstInFirstOut` | daemon/ice.c:62-94 | Over any interleaving of arrivals and takes, what has left the queue followed by what waits in it is exactly what arrived, in order; at most eight wait. |
| `Ring.DroppedOnlyWhenFull` | daemon/ice.c:81-88 | A packet is dropped exactly when another that fits arrives while eight wait. |
| `ConfigHistory.HistoryIsLoaded` | common/identity.c:191-278 | After creation and any sequence of valid updates, the url that loads is the last one set and the username the one created, although the readers cut the file differently. |
| `ConfigHistory.LastUpdateWins` | common/identity.c:580-691 | On any text file a second update erases the first completely. |
| `ConfigHistory.UpdateReads` | common/identity.c:236-278 | On any text file: what loads after an update is the first thing that a line above the writer's url line yields to the chunk reader, or else the url that was set. |
| `ConfigHistory.UpdateIsLoaded` | common/identity.c:236-278 | An update loads exactly when no line above the writer's url line yields anything to the reader, or the first that does yields the same url. |
| `ConfigHistory.BadValuesAreErrors` | common/identity.c:258-266 | A line with the key but no closing quote, or with a value too long for the caller, is an error of its own kind; otherwise the value is what stands between the quotes. |
| `ConfigHistory.OnlyValidUpdatesAreWritten` | common/identity.c:580-691 | An update is written exactly when the url is valid and there is a file, and then loads when no line masks it; otherwise the reason is given. |
| `ConfigHistory.OnlyLongLinesMask` | common/identity.c:251-254 | Lines of at most 511 characters mask nothing. |
| `ConfigHistory.ReadByLines` | common/identity.c:251-269 | The reader of 511-character chunks finds what the first yielding line yields, long lines included. |
| `ConfigHistory.OtherSettingsRead` | common/identity.c:236-278 | On any text file: after an update every other key without blanks or equals signs reads as if the url lines had never been there. |
| `ConfigHistory.OtherSettingsStay` | common/identity.c:636-664 | An update leaves another setting as it was exactly when no url line yields it first, or what it yielded is what the other lines yield. |
| `ConfigHistory.OnlyLongLinesShadow` | common/identity.c:251-254 | Only a url line of more than 511 characters can yield another setting. |
| `ConfigHistory.LongLineMasksUpdate` | common/identity.c:251-269 | An old url behind 511 other characters of its line is what loads after an update: the writer does not see it, the reader does. |
| `ConfigHistory.LongUrlLineShadows` | common/identity.c:251-269 | A username behind 511 characters of a url line loads before an update and is gone after it: the writer drops the line, of which the reader saw the rest. |
| `ConfigHistory.UpdateIsAfter` | common/identity.c:636-664 | An update replaces the first url line, drops later ones, or appends one after ending the last line. |
| `ConfigName.NameByLines` | common/identity.c:206-234 | The reader of 127-character chunks finds what the first line with a name yields, long lines included; without one the file is bad. |
| `ConfigName.NameIsFound` | common/identity.c:206-234 | A username line is found wherever it stands, behind any lines that yield no name. |
| `ConfigName.UpdateKeepsName` | common/identity.c:625-664 | On any text file: after an update of the url the username is what the lines that are no url lines yield. |
| `ConfigFile.LineHasKey` | common/identity.c:280-296 | The cursor loops decide the key test. |
| `ConfigFile.CheckUrl` | common/identity.c:298-331 | Accepts exactly the valid urls. |
| `ConfigFile.Rewrite` | common/identity.c:625-664 | The one-pass loop with its three flags computes the update. |
| `ConfigFile.UpdateUrl` | common/identity.c:580-691 | An invalid url or a missing file is reported and nothing written. |
| `ConfigFile.ReadValue` | common/identity.c:236-278 | The chunk loop yields the first value with the strict prefix, or why not. |
| `ConfigFile.ReadUsername` | common/identity.c:206-234 | The chunk loop yields the first username line that scans. |

## Left out

- libsodium, libnice, libwebsockets and GLib themselves: they are parameters or inputs. The identity's secret key is its
  32-byte seed, and a secretstream state is its key, its header and the messages so far.
- Sockets, poll loops, signals, threads and the wakeup timer, file modes, directories, fsync and rename; a write to a client
  socket either arrives or not.
- The STATUS command, the parsing of OPEN_CHAT from the command socket, reconnecting to the server, and the client program.
- STUN and TURN options, and the identity files other than config.toml.
- Message types that are only logged or refused: ping, pong, ice_candidate, ice_done, ice_gathering_done, chat_reject,
  chat_end.
- Fragmented server messages at the daemon: they break the connection exactly as over-long ones do, which are modelled.
- Resending.SetupSurvivesLoss: is about the loss of both first handshakes and both first headers. That setup completes under
  every loss is not claimed: `Completion.ReadySendsNothing` says that a side that is ready does not repeat its header.
- The daemon's own fields of a session are one record in `SessionMemory`, replaced field by field. The handlers of `Chatd`
  that have no row do what the function of the machine they name does; what that means is stated by the results about the
  machine.
- Display.ShownIsSaid: states a subsequence and not a prefix, because a message that is accepted while no client is attached
  is shown to nobody.
- Network.DeliveryIsPrefix: relies on `Unambiguous`, as described above.
- Addresses of connections: a connection is a number, and a library that reuses the address of a closed connection for a new
  one reuses the number.
