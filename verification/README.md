# A verified model of the IRC server and its transport

A single-threaded IRC server and the receiving end of its client, speaking a subset of RFC 1459. The
model follows the program from the bytes of a socket to the state of the channels and back:

- **The wire format** (`Message.dfy`, `Grammar.dfy`): `message::parse` and `message::to_string`, and the texts
  they read and write by their form.
- **The transport** (`Framing.dfy`, `SendQueue.dfy`, `Log.dfy`, `Connection.dfy`, `EndToEnd.dfy`,
  `Client.dfy`): the growing receive buffer with its rotation, the queue of 4096-byte pieces with its partly
  sent front, and the client's line buffer. What `recv` and `send` return is arbitrary.
- **The poll registry** (`PollRegistry.dfy`): two parallel vectors walked by index while callbacks insert
  into them and erase from them.
- **The server** (`ServerSpec.dfy`, `Rooms.dfy`, `Invariant.dfy`, `Runs.dfy`, `Ages.dfy`,
  `BroadcastOrder.dfy`, `Clearing.dfy`, `Effect.dfy`): every handler as a function from state to outcome,
  where `Abort` is an exception nothing catches or the use of an empty optional; the invariant; a small model
  of who is in which room, who operates it and who is muted; safety over whole runs; and, command by command,
  the whole state after it and what every connection is sent, said without the handlers' own functions.
- **Whole runs with their bytes** (`World.dfy`, `Traffic.dfy`, `Plain.dfy`, `Delivery.dfy`): a world is the
  state of the server and both ends of every connection. What a callback does to it is a function of it and of
  what the system calls answer; runs of callbacks and clearing turns are runs of the specification, and what
  is read from a connection and shown by its client is followed over them.
- **The objects** (`Wiring.dfy`, `Channel.dfy`, `Db.dfy`, `Callbacks.dfy`, `Pass.dfy`, `Round.dfy`,
  `Server.dfy`): the program's classes, whose methods change their fields in place and are proved to compute
  those functions. The main loop, `Servers.Server.Serve`, is a loop over polls; in each, an index walks the
  registry, the server's own callbacks run and change it, and closed connections are cleared. Its contract computes the world it ends in,
  and whether it throws, from the calls it made and what was answered to them, and says which registrations
  each call removed; so what is proved of reachable states, of runs and of traffic is proved of it.
- **Inputs that meet the failing conditions** (`Witness.dfy`).

`Text.dfy` holds the string searches. A `char` stands for a byte. A choice that the program leaves to the
order of a hash table (`members.begin()` of `maybe_promote_operator`) is a parameter `pick` of the
specification and a ghost result of the method that makes it; nothing is assumed of it.

How the layers fit: `Connections.Connection.Receive` and `Framing.Feed` say which text reaches `handle_message`;
`Servers.Server.HandleMessage` computes `ServerSpec.HandleMessage`; `Invariant.StepFollows` says each such
step keeps the invariant and moves the small model by allowed moves only; `Invariant.HandlerCompletes` says
when it throws. `Traffic.HandlesWhatIsRead` composes the framing with the handlers over whole runs. A reply or
a broadcast ends in the log of a `Connection`, whose invariant says that the bytes sent, then the bytes queued,
are exactly the log, and that every queued piece is non-empty. `EndToEnd.Fidelity` says that messages whose
printed form is one line that parses to them reach the client, in order and unchanged, under every interleaving;
it assumes that of the messages. The server does not ensure it of its own: `Plain.RunGood` states exactly which
events keep every posted message of that kind, and `Delivery.ClientsShowTheirLogs` concludes that, after a run
of such events, each client shows the beginning of its own connection's log.

## What the model shows about the code

- `channel::get_member` uses `.at`, so it throws where its callers test for a null result
  (server/channel.cpp:14-16). `MODE`, `PRIVMSG` and `KICK` on an existing channel that the sender is not in
  therefore end the process, as does `±v` on a known nick outside the channel. `mute` and `unmute` are
  declared to return `false` when unsuccessful (server/channel.hpp:21-25) and throw instead.
  `Invariant.HandlerCompletes` states exactly when a message is handled without such an exception;
  `Witness.OutsidersAbort` and `Witness.VoicingAnOutsiderAborts` give messages and a reachable state.
- `QUIT` with exactly one parameter reads a second one and throws (server/main.cpp:380-382;
  `Witness.QuitAborts`).
- `std::get<0>` on a numeric reply throws, so a client that sends an accepted numeric ends the process
  (server/main.cpp:130; `Witness.NumericAborts`).
- `poll_recv` is documented to receive until the operation would block (server/connection.hpp:51-53). It calls
  `recv` once, looks for a newline in the new bytes only, and delivers at most one message a read, so a
  delivered message can hold several lines. `Framing.FramingExact` states exactly when deliveries are lines;
  `Witness.DeliveriesAreNotLines` gives two reads for which they are not.
- A nick or a channel name that comes after a colon may hold spaces, and a delivery of several lines may put
  newlines into nicks, user names and texts; what the server then posts is not read back as it was posted.
  `Plain.StepGood` and `Plain.RunGood` state exactly which messages do this; of deliveries of one line, only
  an accepted `NICK` or `JOIN` with a space does (`Plain.LineIsClean`). `Witness.SpacedNickIsMisread` gives a
  nick none of whose messages survives.
- Parsing the printed form of a parsed message does not give the message back for numerics below 100:
  `parse` accepts them with leading zeros, `to_string` prints them without, and `parse` refuses that.
  `Message.NormalForm` states the condition; `Witness.SmallNumericIsLost` is one.
- A promotion can pick a member that is itself about to be cleared (`Witness.HeirIsDoomed`). The successor is
  connected, whichever member is picked, exactly if every other member is (`Clearing.HeirIsConnected`); the
  whole pass still ends with one connected operator in each channel (`Clearing.ReapPass`).

## Model

| member | source | states |
|---|---|---|
| Message.Parse | common/message.cpp:36-86 | The loop that cuts up the remaining slice reads exactly what the recursive grammar `Decode` reads, on every string: the message, the format error, or the out-of-range access on the empty string |
| Message.RoundTrip | common/message.cpp:36-110 | Parsing a printed message gives it back if and only if the prefix has no space, a numeric is in 100..999, and no parameter but the last has a space or starts with a colon or a newline |
| Message.ParamsRoundTrip | common/message.cpp:71-107 | The parameter list alone survives printing and parsing if and only if its middles are well formed; empty middles and any last parameter included |
| Message.VerbRoundTrip | common/message.cpp:16-69 | A printed command or numeric is a non-empty word without spaces or a leading colon, and is recognised as itself exactly when it is a command or lies in 100..999 |
| Message.EncodeInjective | common/message.cpp:100-110 | Two printable messages with the same text are equal |
| Message.DecodedIsWireable | common/message.cpp:36-86 | Everything the parser accepts is printable without loss, except exactly the numerics below 100 |
| Message.NormalForm | common/message.cpp:36-110 | For every accepted string, re-parsing its printed form gives the same message if and only if it is not a numeric below 100 |
| Message.OnlyEmptyIsOutOfRange | common/message.cpp:38 | The out-of-range access happens for the empty string and for no other |
| Message.EncodeIsLine | common/message.cpp:100-110 | A message without newlines in its fields prints as exactly one line |
| Grammar.NamesAreKnown | common/message.cpp:50-67 | The first word is read as a command exactly if it is that command's name, for each of the ten, and as a numeric exactly if it is three digits; nothing else is known |
| Grammar.NumericIsSpelled | common/message.cpp:62-66 | The numeric is the decimal value of its three digits |
| Grammar.BareRoundTrip | common/message.cpp:36-86 | A message whose parameters are joined by single spaces, without a colon before the last, with or without a prefix, is read back if and only if the prefix has no space, a numeric is in 100..999, and each parameter is a word that starts with no colon or newline, the last one not empty |
| Grammar.LoneRoundTrip | common/message.cpp:45-48 | A name alone before the newline, with or without a prefix, is read as a message without parameters if and only if the prefix has no space and a numeric is in 100..999 |
| Grammar.PrintedForm | common/message.cpp:100-110 | The printed form byte by byte: the prefix between a colon and a space, the name and a space, each parameter but the last and a space, a colon and the last one, a newline |
| Grammar.ParamsText | common/message.cpp:71-83 | For every text the parameters read from it, the spaces between them and its ending, of which at most one byte is dropped unless it starts with a newline, spell the text |
| Grammar.AcceptedText | common/message.cpp:36-86 | Every accepted text is a prefix after a colon exactly if it starts with one, a known name, and the text of its parameters |
| Grammar.NamedIsAccepted | common/message.cpp:36-69 | Every text with a known name after its prefix is accepted, with that prefix and the verb of that name |
| Framing.FeedConserves | server/connection.cpp:51-85 | One read loses no byte and adds none, and a delivered message ends with a newline |
| Framing.FeedFirst | server/connection.cpp:51-60 | A read without a newline only extends the live bytes; otherwise the message is the live bytes and the new ones up to the first new newline, and the rest stays |
| Framing.FramingConserves | server/connection.cpp:33-85 | For every sequence of reads, the deliveries followed by the live buffer are the bytes received, and every delivery ends a line |
| Framing.FramingLines | server/connection.cpp:51-85 | The lines of the deliveries, then those still in the buffer, are the lines of the whole stream in order: a delivery is one or more complete lines |
| Framing.FramingExact | server/connection.cpp:51-85 | The deliveries are exactly the lines of the stream if and only if no read holds two newlines |
| Framing.ClientFraming | client/main.cpp:208-218 | For every sequence of reads, what the client took and what it holds are the stream, and what it took are the stream's first lines, one each |
| SendQueue.ChunksOfMessage | server/connection.cpp:127-133 | The pieces concatenate to the message, none exceeds 4096 bytes, none of a non-empty message is empty, and their number is the ceiling of its length over 4096 |
| SendQueue.ChunksAreFull | server/connection.cpp:127-133 | Every piece of a message but the last has 4096 bytes |
| SendQueue.EnqueueConserves | server/connection.cpp:127-133 | Enqueuing adds exactly the message at the end of what is pending and keeps the partly sent front |
| SendQueue.TransmitConserves | server/connection.cpp:112-120 | The bytes a call takes and what is then pending are what was pending, whether or not the front is finished |
| SendQueue.SendOnceConserves | server/connection.cpp:90-120 | The same for one turn of the loop with any answer of `send`, which reports the queue drained only by going round again |
| SendQueue.DrainConserves | server/connection.cpp:87-125 | The same for a whole `poll_send` with any answers; it ends by emptying the queue exactly when nothing is left |
| SendQueue.DrainExactly | server/connection.cpp:87-125 | With non-empty pieces, the first answer that does not take all it is offered decides a `poll_send`: all offers before it and what it takes of its own are sent, and that offer's rest and the pieces from it on stay; without such an answer everything is sent |
| SendQueue.DrainEnds | server/connection.cpp:100-120 | With non-empty pieces `poll_send` throws if and only if that first answer is a failure, closes the connection if and only if it takes nothing, waits if and only if it would block or takes a part, and empties the queue if and only if there is none |
| Logs.SendFacts | server/connection.cpp:87-138 | The bytes the kernel took, then the bytes queued, are the printed messages of the log in order; every queued piece is non-empty and at most 4096 bytes, because no printed message is empty |
| Logs.PostingKeeps | server/connection.cpp:127-138 | Posting a message keeps that, takes nothing, and enqueues exactly its pieces |
| Logs.DrainTakes | server/connection.cpp:87-125 | A `poll_send` keeps it, whatever `send` answers: what is left of the pieces is what the loop leaves |
| Logs.DrainStops | server/connection.cpp:100-110 | So on the queue of a connection `poll_send` throws, closes or empties the queue if and only if the answers of `send` say so |
| EndToEnd.LineRead | client/main.cpp:208-218 | A read that completes a line yields exactly the first message in transit and leaves the bytes that spell the others; one that does not leaves all of them |
| EndToEnd.StepFaithful | server/connection.cpp:87-138 | Every enqueue, partial send, blocked send or client read keeps: parsed messages are the first posted ones, and the bytes in transit spell the others |
| EndToEnd.RunFaithful | server/connection.cpp:87-138 | The same over every interleaving, from every faithful state |
| EndToEnd.Fidelity | client/main.cpp:192-223 | End to end: after every interleaving the client has parsed a prefix, in order, of the messages posted, the rest is in transit byte for byte, and nothing is in transit exactly when all are parsed |
| EndToEnd.DrainIsRun | server/connection.cpp:87-125 | Every `poll_send`, however it ends, is a run of that pipe, so the theorem covers it |
| Clients.OneMoreRead | client/main.cpp:208-223 | A further read extends the lines taken by what it completes and leaves the rest held |
| Clients.Client.Receive | client/main.cpp:208-223 | One turn of the receive loop: it shows at most one message or format error, shows one exactly when a newline is held, never hits the out-of-range access, and keeps the record of what was shown equal to the parsed lines |
| Clients.ShowsTheFirstLines | client/main.cpp:208-223 | Whatever the reads, what is shown is what the stream's first lines say, one by one, and the rest is held unchanged |
| Connections.Connection.constructor | server/connection.cpp:18-26 | A new connection is registered for input under a fresh token, holds nothing and has a free buffer of 4096 bytes |
| Connections.Connection.SendText | server/connection.cpp:127-138 | The message joins the log and its pieces the queue; sent bytes then pending bytes are the messages ever posted; the send token is registered exactly if there was none |
| Connections.Connection.QueueChunks | server/connection.cpp:129-133 | The do-while loop appends exactly the pieces of the message, one empty piece for an empty one |
| Connections.Connection.SendMessage | server/connection.cpp:140 | The same for a printed message |
| Connections.Connection.Disconnect | server/connection.cpp:146-153 | Both tokens are unregistered, once, and the connection is closed; on a closed connection nothing happens |
| Connections.Connection.PollSend | server/connection.cpp:87-125 | With any answers of `send` it terminates, sends a prefix of what was pending and touches nothing of the receive side; it throws if and only if the first answer that does not take all it is offered is a failure, closes if and only if that answer takes nothing, and unregisters the send token exactly when the queue is empty |
| Connections.Connection.DrainQueue | server/connection.cpp:88-124 | The loop computes the drain of the specification and loses no byte on any exit |
| Connections.Connection.Receive | server/connection.cpp:33-60 | The received bytes follow the live ones, the message handed over is the one `Feed` delivers, end of stream disconnects, and the buffer keeps 4096 free bytes |
| Connections.Connection.TakeData | server/connection.cpp:46-60 | The new bytes are searched and a message is the live bytes up to the first new newline |
| Connections.Connection.Compact | server/connection.cpp:81-83 | The rotation removes exactly the handled message from the live bytes and keeps 4096 free ones |
| Connections.ReadIsDone | server/connection.cpp:46-85 | Reading and then rotating together make the buffer what `Feed` says, and account for every byte received |
| Polling.PolledReady | server/poll_registry.cpp:41-47 | After a poll an entry, otherwise unchanged, is ready exactly if an event that was asked for came |
| Polling.RegisterEvolves | server/poll_registry.cpp:9-17 | Registering keeps the vectors sorted by token and adds nothing that the current pass sees as ready |
| Polling.UnregisterEvolves | server/poll_registry.cpp:19-28 | Unregistering removes that token alone, keeps the order, and does nothing when it is not there |
| Polling.MovesForward | server/poll_registry.cpp:19-28 | Whatever a callback does, an old entry found at an index was at that index or later before |
| Polling.ReadyShrinks | server/poll_registry.cpp:45-49 | The tokens still to be called never grow under a callback, and calling one takes it out: the measure of the loop |
| Polling.DispatchOrder | server/poll_registry.cpp:41-51 | Dispatch under mutation: whatever the callbacks register and unregister, tokens are called in strictly increasing order, so at most once, each was ready when the pass began, and none is called after its removal or its registration during the pass |
| Polling.EraseMiss | server/poll_registry.cpp:23-26 | One erasure moves at most one uncalled entry behind the index |
| Polling.MissesBounded | server/poll_registry.cpp:45-49 | The ready tokens still registered at the end that were not called number at most the removals of the pass |
| Polling.NoDropsNoMisses | server/poll_registry.cpp:45-49 | If nothing is removed, exactly the ready tokens are called, each once |
| Polling.TurnInOrder | server/poll_registry.cpp:45-49 | One turn with any callback keeps: the tokens called increase and precede every token still to be called |
| Polling.FrontOnlyLoses | server/poll_registry.cpp:19-28 | Whatever a callback does, a token leaves the first places of the vectors only by being unregistered |
| Polling.NewMisses | server/poll_registry.cpp:45-49 | One call of any callback adds at most as many misses as it removed tokens |
| Polling.PollRegistry.RegisterEvent | server/poll_registry.cpp:9-17 | The two vectors grow together under the next token |
| Polling.PollRegistry.UnregisterEvent | server/poll_registry.cpp:19-28 | The same index goes from both vectors; true exactly if the token was registered |
| Polling.PollRegistry.PollAndDispatch | server/poll_registry.cpp:41-51 | The index loop over the live vectors terminates and is the walk of which the ordering theorems speak; a failed poll calls nothing |
| Wiring.WiredAccept | server/connection.cpp:23-25 | Accepting keeps the registrations equal to the wanted ones, each with its token, callback, descriptor and event mask: the listener, one for input per connected connection, one for output per connected one with pending output |
| Wiring.WiredSend | server/connection.cpp:134-137 | The first enqueue keeps it |
| Wiring.WiredDrained | server/connection.cpp:91-95 | An emptied queue keeps it |
| Wiring.WiredDisconnect | server/connection.cpp:146-153 | A disconnection keeps it |
| Wiring.WiredRemove | server/main.cpp:74-79 | Erasing a closed connection keeps it |
| Wiring.CalledIsLive | server/poll_registry.cpp:45-49 | No callback of a closed or erased connection is called: the target of each registered callback exists, is connected, and has its token |
| Wiring.WiredSheds | server/poll_registry.cpp:19-28 | A change to the tokens of one connection removes registrations of that connection alone, and makes none of those again; one that gives up no token removes none |
| Wiring.LostAreOwn | server/connection.cpp:146-153 | What a callback removes is on its own connection, at most two registrations, and none for the listener |
| Wiring.Send | server/connection.cpp:127-138 | On the whole net of connections, one enqueue changes one log, loses no wakeup and touches no input buffer; it is only made on a connected connection |
| Wiring.HangUp | server/connection.cpp:146-153 | On the whole net, a disconnection changes one connection and loses no wakeup |
| Wiring.Read | server/connection.cpp:33-60 | On the whole net, a read changes one receive side as `Feed` says, and no log, and closes the connection exactly at the end of the stream |
| Wiring.Write | server/connection.cpp:87-125 | On the whole net, a `poll_send` moves the bytes of one connection that the drain moves, changes no log and no receive side, and closes it exactly when the drain does |
| Channels.Channel.constructor | server/channel.cpp:69-72 | A new channel has one member, its operator, not muted |
| Channels.Channel.AddMember | server/channel.cpp:4-12 | Adding a member that is there changes nothing, flags included; a new one is neither muted nor operator |
| Channels.Channel.SendMessage | server/channel.cpp:43-50 | In whatever order the loop visits them, each connected member is sent exactly one copy and nobody else anything |
| Channels.Channel.MaybePromoteOperator | server/channel.cpp:54-63 | Nobody is promoted if there is an operator; otherwise one member is, whichever comes first, and no other flag changes |
| Dbs.Db.JoinChan | server/db.cpp:4-44 | Creates the channel with the joiner as operator or adds it as a plain member, and records the channel's own name on the connection |
| Dbs.Db.QuitChan | server/db.cpp:46-67 | Refuses a missing channel or member without effect; otherwise removes the member, then the channel if empty, or else promotes and announces to those left; leaves `joined_channel` alone |
| Dbs.Db.GetConnInfoByNick | server/db.cpp:77-82 | Finds a holder of the nick if there is one, in any iteration order; with distinct nicks, the holder |
| Rooms.DoKeepsOk | server/channel.cpp:54-63 | Every allowed move of the small model keeps: each room has one operator, who is in it, and only those in rooms are muted |
| Invariant.ShowsOne | server/db.cpp:42 | A server state shows exactly one state of the small model |
| Invariant.PromotedMembers | server/channel.cpp:54-63 | After a member of a channel with one operator leaves, promotion leaves exactly one operator, whichever member is picked, and no mute flag changes |
| Invariant.LeaveKeeps | server/db.cpp:46-67 | `quit_chan` together with its caller's clearing of `joined_channel` keeps the invariant and is one leaving move of the small model |
| Invariant.EnterKeeps | server/db.cpp:18-44 | Joining from no channel keeps the invariant and is one entering move |
| Invariant.MuteKeeps | server/channel.cpp:22-34 | Setting a mute flag keeps the invariant and is one muting move |
| Invariant.NickFollows | server/main.cpp:148-172 | NICK never throws and keeps the invariant, nicks distinct and at most 50 bytes, without moving the small model |
| Invariant.UserFollows | server/main.cpp:174-200 | USER never throws and keeps the invariant, without moving the small model |
| Invariant.JoinFollows | server/main.cpp:211-238 | JOIN never throws; it is a leaving move then an entering move, also when the channel is the same, and ends in the invariant |
| Invariant.ModeFollows | server/main.cpp:240-293 | MODE completes exactly unless the sender is outside the channel or an operator sets `v` for a known nick outside it; then it is a muting move or none |
| Invariant.WhoisFollows | server/main.cpp:295-336 | WHOIS never throws and only replies |
| Invariant.PrivmsgFollows | server/main.cpp:338-375 | PRIVMSG completes exactly unless the sender is outside the existing channel it names |
| Invariant.QuitFollows | server/main.cpp:377-395 | QUIT completes exactly unless it has one parameter; it is a leaving move when in a channel, and closes the connection |
| Invariant.KickFollows | server/main.cpp:397-444 | KICK completes exactly unless the sender is outside the existing channel it names; it is a leaving move by its operator, kicking oneself included |
| Invariant.HandlerCompletes | server/main.cpp:116-446 | From every state of the invariant a message is handled without an exception or empty-optional access if and only if the condition `Completes`, which can be checked beforehand, holds, whatever promotion picks |
| Invariant.ReapFollows | server/main.cpp:63-82 | Clearing one connection never throws, keeps the invariant and is a leaving move or none |
| Invariant.StepFollows | server/main.cpp:52-446 | Refinement: every accept, message, disconnection or clearing that does not throw keeps the invariant and ends where allowed moves of the small model end; only messages can throw |
| Invariant.RunFollows | server/main.cpp:52-446 | The same over every run |
| Invariant.ReachableInv | server/main.cpp:40-446 | Every reachable state meets the invariant: agreement of the two records of membership, one operator per channel, distinct nicks of at most 50 bytes, fields present exactly as registration says |
| Invariant.ChannelMapIsIndex | server/db.cpp:4-67 | In every reachable state a channel exists exactly if somebody has joined it, its members are exactly those who have, all are fully registered live connections, its name is its key, and it has exactly one operator |
| Invariant.NickIsFound | server/db.cpp:77-82 | With distinct nicks the lookup does not depend on iteration order |
| Runs.StepAuthority | server/main.cpp:240-444 | Every move in a step is by the sender for itself, by the operator of the other's channel, or the clearing of a closed connection |
| Runs.StepTakesOnlyByRight | server/main.cpp:240-444 | A member loses its place or has its mute flag changed in a step only by its own message, its channel operator's message, or its own clearing |
| Runs.OperatorContinues | server/channel.cpp:54-63 | Over any run in which it does not move, an operator stays the operator |
| Runs.FlagContinues | server/channel.cpp:4-34 | Over any run in which nobody acts on it, a member keeps its place and its mute flag |
| Runs.MutedIsSilent | server/main.cpp:364-367 | A muted member's message is never a broadcast PRIVMSG to its channel |
| Runs.MuteHolds | server/main.cpp:254-281 | Over any run, until it is unmuted or moves, a muted member stays muted and none of its PRIVMSGs is broadcast |
| Runs.VoiceModes | server/main.cpp:272-281 | The operator's `+v` unmutes and `-v` mutes exactly the named member, `+v` winning when both occur, and nothing else changes |
| Ages.StepAges | server/main.cpp:148-200 | In a step registration never moves backwards, logs only grow, a closed connection stays closed and an id is never used again |
| Ages.RunAges | server/main.cpp:52-446 | The same over every run |
| BroadcastOrder.ShoutReaches | server/channel.cpp:43-50 | A broadcast appends exactly one shared message to each connected member's log and none to any other |
| BroadcastOrder.StepLevel | server/channel.cpp:43-50 | In a step in which two connected members of a channel stay, both are sent the same shared messages in the same order |
| BroadcastOrder.CommonOrder | server/main.cpp:338-375 | Over every run in which two members of a channel stay and are connected, the shared messages appended to their logs are the same sequence |
| BroadcastOrder.StillThere | server/channel.cpp:43-50 | A member that does not move is still a live connection at the end, and was connected throughout if it is connected then |
| Clearing.ClearAllEffect | server/main.cpp:62-83 | A pass over any connections never throws, removes exactly the closed ones it visits, and takes only their leaving moves |
| Clearing.ReapPass | server/main.cpp:62-83 | The whole pass ends with exactly the connected ids in both maps, only connected members, the invariant (so one operator each, connected), and surviving places, mute flags and operators unchanged, even when promotion picks an id about to be cleared |
| Clearing.ClearAllIsRun | server/main.cpp:62-83 | The pass is a run of single clearing steps |
| Clearing.HeirIsConnected | server/channel.cpp:54-63 | When an operator leaves members behind, its successor is connected for every choice of the hash table if and only if every other member is connected |
| Effects.MessageEffect | server/main.cpp:116-146 | What cannot be parsed is ignored, a numeric throws, before a nick only `NICK` counts and before the rest only `USER` does; anything else goes to its command |
| Effects.PingEffect | server/main.cpp:202-209 | `PING` is answered by one `PONG` to the sender alone, and `PONG` changes nothing |
| Effects.NickEffect | server/main.cpp:148-172 | `NICK` stores exactly the nick of the sender and moves its registration on from the start, or is refused with 461, 432 or 433 exactly when it is missing, over 50 bytes, or held by anybody |
| Effects.UserEffect | server/main.cpp:174-200 | `USER` stores the first and the fourth parameter and completes the registration of the sender, or is refused with 461 or 462 |
| Effects.JoinEffect | server/main.cpp:211-238 | `JOIN` of a valid name puts the sender there and nowhere else, not muted, operator exactly if alone; the others stay as they are but for the heir of the channel it left; those left there hear of the heir, and then everybody in the channel hears who joined; otherwise 461 or 403 |
| Effects.ModeEffect | server/main.cpp:240-293 | `MODE` changes the mute flag of the named nick's holder in the named channel and nothing else; each refusal gets its number, with nothing else changed |
| Effects.WhoisEffect | server/main.cpp:295-336 | `WHOIS` sends the operator, and nobody else, one 311 with the user name, address and real name of the holder of the nick; the others get 461, 442, 482 or 401 |
| Effects.PrivmsgEffect | server/main.cpp:338-375 | `PRIVMSG` by a member that may speak appends exactly one copy, from its nick and with its last parameter, to the log of each connected member of the channel and nothing to any other; each refusal gets its number |
| Effects.DepartEffect | server/db.cpp:46-67 | `quit_chan` takes out that member alone; an heir is made exactly if the operator leaves others behind, the first in the hash table, and those who stay and are connected get one copy of its announcement |
| Effects.QuitterEffect | server/main.cpp:377-395 | `QUIT` closes the sender; from a channel, every connected member gets one copy of its text, those who stay hear of the heir if there is one, and it is out of the channel |
| Effects.KickEffect | server/main.cpp:397-444 | `KICK` by the operator takes the holder of the named nick out of the channel and nobody else, clears its joined channel alone, and tells nobody but those who stay of the heir if it kicked itself; each refusal gets its number |
| Effects.ClearingEffect | server/main.cpp:62-83 | Clearing a closed connection sends each connected member of its channel one copy of its departure, then of the heir if there is one, takes it out, and erases its data alone |
| Effects.OtherEffects | server/main.cpp:89-102 | Accepting adds an empty registration with the address under the next id and nothing else; a disconnection closes that connection and nothing else |
| Worlds.ReadIsRun | server/connection.cpp:33-85 | A read that does not throw is a run of at most one step of the specification and ends in the invariant |
| Worlds.WriteIsRun | server/connection.cpp:87-125 | A `poll_send` that does not throw is a run of at most one step: the connection going away |
| Worlds.ThrowsExactly | server/main.cpp:89-446 | A callback throws if and only if its `accept` or `getpeername` failed, its `recv` failed, the first answer of `send` that does not take all it is offered is a failure, or the text its buffer delivers does not complete, whichever member a promotion picks |
| Worlds.TicksAreRun | server/main.cpp:52-446 | Any sequence of callbacks and clearing turns that does not throw is a run of the specification and ends in the invariant |
| Worlds.TicksConcat | server/main.cpp:52-84 | A run of callbacks and turns continued by another is the run of both, throwing where the first of them throws |
| Worlds.SweepIs | server/main.cpp:62-83 | The turns of the clearing loop never throw, drop the buffers and queues of exactly the connections they erase, and leave the state of the pass |
| Traffic.TicksKeepOk | server/connection.cpp:87-138 | Over every run and on every connection, what the kernel took and what is queued are the messages posted to it; the same ids have state, log and buffers |
| Traffic.HandlesWhatIsRead | server/connection.cpp:33-85 | Over every run, the messages of a connection that are handled are exactly those the framing makes of the bytes read from it, and its buffer holds what the framing leaves |
| Traffic.GoneIsSilent | server/main.cpp:74-79 | Once a connection is erased nothing is read from it, none of its messages is handled, and its id does not come back |
| Traffic.HandlesLines | server/connection.cpp:33-85 | From the start, the messages handled for a connection are the lines its client wrote if and only if no read held two newlines; in every case they and what is held are the bytes read, and each ends a line |
| Plain.StepGood | server/main.cpp:116-446 | From a state whose nicks and channel names are single words, whose other fields can be printed and whose logs hold only messages printed as one line that parses to them, a step keeps all this if and only if its event is clean, which can be checked before it and does not depend on a promotion |
| Plain.RunGood | server/main.cpp:52-446 | All along a run that is kept if and only if every event is clean |
| Plain.LineIsClean | server/main.cpp:116-238 | A message delivered as one line is clean if and only if it is not an accepted `NICK` or `JOIN` with a space in its name |
| Delivery.LogIsLines | common/message.cpp:100-110 | The bytes of a log of such messages are their printed forms, a line each |
| Delivery.ReaderShowsLog | client/main.cpp:192-223 | However the bytes are cut, a client that reads some of the bytes of such a log shows its first messages, and all of them once it has used everything |
| Delivery.WireIsLog | server/connection.cpp:87-138 | In every world of a run, what the kernel took from a connection, then what is queued, is its log |
| Delivery.ClientsShowTheirLogs | client/main.cpp:192-223 | After any run of clean events from the start, what a client shows of the bytes taken from its connection is the beginning of the messages posted to it, in order and unchanged, and all of them once nothing is queued, in flight or held |
| Witness.OutsidersAbort | server/main.cpp:240-444 | A reachable state with a registered client outside `#x`: its `PRIVMSG`, `KICK` and `MODE` on `#x` throw, whatever their other parameters |
| Witness.VoicingAnOutsiderAborts | server/main.cpp:254-281 | There the operator of `#x` throws with `+v` or `-v` for the nick outside |
| Witness.QuitAborts | server/main.cpp:377-382 | There a `QUIT` with one parameter throws |
| Witness.NumericAborts | server/main.cpp:130 | There every printed numeric from 100 to 999 throws, whatever its parameters |
| Witness.DeliveriesAreNotLines | server/connection.cpp:51-85 | Two reads that bring three lines deliver the first line alone and the other two as one message |
| Witness.SmallNumericIsLost | common/message.cpp:36-110 | `007 ` is accepted as the numeric 7, which prints as text that the parser refuses |
| Witness.SpacedNickIsMisread | server/main.cpp:148-172 | A state in which a client is registered under a nick with a space is reachable, and no message from that nick parses to itself |
| Witness.HeirIsDoomed | server/main.cpp:62-83 | A reachable state in which clearing one closed connection makes operator another that is closed too, whatever the hash table's order |
| Passes.PassCalls | server/poll_registry.cpp:45-49 | One call of any callback keeps what a pass keeps: order, each call made of a registration that was there and ready from the start, token and callback alike, and not removed by an earlier call; each removal by the call on whose connection it is, at most two a call; every registration of the start either still there or removed by a call; no token handed out twice; misses at most the removals |
| Passes.PassMisses | server/poll_registry.cpp:45-49 | After a whole pass the ready, still registered tokens not called number at most two for each call on a connection; a pass that called nothing, or the listener alone, removed nothing and called everything that was ready |
| Passes.NetMirrors | server/connection.cpp:87-153 | With sound objects the registry holds exactly the callbacks that the world expects, each once: the listener, one for input on every open connection, one for output on those with something to send |
| Passes.LostExactly | server/poll_registry.cpp:19-28 | Between two worlds the registrations removed are exactly those expected before and not after: of a connection that was closed, or whose queue was emptied |
| Rounds.RoundReaches | server/main.cpp:52-84 | A round that does not throw is a run of the specification, keeps what holds of every world, and leaves every connection open unless the poll was interrupted |
| Rounds.RoundsAreTicks | server/main.cpp:52-84 | Any number of rounds that do not throw is the run of their callbacks and clearing turns in order |
| Rounds.NetIsOk | server/main.cpp:40-102 | Sound objects make a world in which, on every connection, the log is what was taken and what is queued |
| Servers.Server.constructor | server/main.cpp:40-43 | The server starts in the empty world with the listener registered |
| Servers.Server.OnNick | server/main.cpp:148-172 | The handler on the real fields ends in the state of the specification, with no wakeup lost |
| Servers.Server.OnUser | server/main.cpp:174-200 | The same for USER |
| Servers.Server.OnJoin | server/main.cpp:211-238 | The same for JOIN, whichever member its departure promotes |
| Servers.Server.OnMode | server/main.cpp:240-293 | The same for MODE; it throws exactly where the specification aborts |
| Servers.Server.OnWhois | server/main.cpp:295-336 | The same for WHOIS |
| Servers.Server.OnPrivmsg | server/main.cpp:338-375 | The same for PRIVMSG |
| Servers.Server.OnQuit | server/main.cpp:377-395 | The same for QUIT |
| Servers.Server.OnKick | server/main.cpp:397-444 | The same for KICK |
| Servers.Server.HandleMessage | server/main.cpp:116-446 | For every text the handler on the real objects throws exactly where the specification aborts and otherwise ends in its state, every member still refers to a live connection, and no input buffer is touched |
| Servers.Server.PollAccept | server/main.cpp:89-102 | It throws exactly when `accept` or `getpeername` fails; otherwise a new connection gets the next id in both maps with an empty buffer and queue. The registry stays wired, and nothing is unregistered |
| Servers.Server.OnReadable | server/connection.cpp:33-85 | The read callback with the server's handler ends in the world that its buffer and the answer of `recv` determine, and throws exactly where that says |
| Servers.Server.OnWritable | server/connection.cpp:87-125 | The write callback ends in the world that its queue and the answers of `send` determine, and throws exactly where that says |
| Servers.Server.ReapAll | server/main.cpp:62-83 | The loop over the connections in ascending order visits every id and ends in the state of the pass, erasing as it goes, with the other buffers and queues untouched and no wakeup lost |
| Servers.Server.Invoke | server/main.cpp:40-102 | Any callback keeps everything sound and ends in the world that its kind, the buffers and queues before it, and the system's answers determine; it throws if and only if a system call failed or a message does not complete; every registration it removes is on its own connection |
| Servers.Server.PollAndDispatch | server/poll_registry.cpp:41-51 | The dispatch loop with the server's own callbacks terminates; each call is of a registration, token and callback, that was there and ready when the pass began and that no earlier call removed, in strictly increasing order of tokens; each call removes exactly the registrations expected before it and not after it, all on its own connection; the ready, still registered tokens not called number at most the removals; it throws if and only if the run of its calls does, and otherwise ends in the world of that run with exactly the expected callbacks registered |
| Servers.Server.ServeRound | server/main.cpp:52-84 | One iteration: an interrupted poll changes nothing, another failure throws, and otherwise a whole pass from the polled registry and then the clearing of every connection, which unregisters nothing; it throws if and only if that round does, and otherwise ends in its world, in the invariant and, after a poll that was not interrupted, with every connection open |
| Servers.Server.Serve | server/main.cpp:40-87 | Any number of iterations: it throws if and only if one of its rounds does, and otherwise ends in the world of all of them, reachable if the first was; each walks the registry that the one before it left, which holds exactly the callbacks its world expects, and each of its calls removes exactly what the call made unexpected; for every connection the messages handled are exactly those the framing makes of the bytes read from it |

## Left out

- Sockets, `poll(2)`, `accept`, `getpeername` and errno: their results, failures included, are inputs of the methods. Failing `socket`, `setsockopt`, `bind` and `listen` calls, which throw before the main loop starts, are left out.
- ncurses, threads, epoll and eventfd, signals and logging.
- The client's command translation and its send loop, and what it prints for a parsed message.
- Lifetimes of C++ objects: `string_view`s into map keys, iterators after an erase, a callback that erases its own function object. Names, indices and identities are values here.
- The global registry instance and the destructors: the registry is an object the server and its connections share; the server's destructor is not modelled, and erasing a closed connection changes nothing in the registry.
- `channel::make_operator`, `poll_registry::poll` and `tcpstream::duplicate`: nothing calls them.
- Poll masks are the sets of their bits, not `short` integers; only `POLLIN` and `POLLOUT` are registered.
- Integer widths of ids, tokens and indices: they are unbounded, so a wrap of a 64-bit counter is not modelled.
- Memory: vectors, deques and maps are `seq` and `map` fields that methods reassign; allocation failure and the vectors' capacity are not modelled.
- The message callback of a connection is not stored in it: the server's read callback calls its handler between `Receive` and `Compact`, where `poll_recv` calls it.
- Polling.PollRegistry.PollAndDispatch: its callbacks are scripts of registrations and removals; the server's own callbacks are in `Servers.Server.PollAndDispatch`, which repeats the loop over the same vectors.
- The signal that ends `run`: `Serve` takes any finite number of polls instead.
- The state in which an exception leaves the server: it ends the process, so the contracts say when it is thrown and that the objects are still sound.
- RFC 1459 features that the program does not have: several channels per user, server links, the length limit and CRLF of section 2.3.
