# ft_irc and webserv: a verified model

Two network servers are modelled and proved here: the IRC server
`services/irc/prd` and the HTTP/CGI server `apps/webserv`. To verify:
`dafny verify dfyconfig.toml` (Dafny 4.11).

## The IRC server

The server keeps one many-to-many relation, who is in which channel, as two
sets of ids that must agree, with operator and invite sets beside it, a
case-folded nickname index, a poll list, bounded byte buffers and
disconnections that are reserved now and carried out at the end of a pass.

- `IrcServer.Server` is the class: its maps, poll list and reservations are
  fields that the methods update in place, in the source's order, with the
  source's loops. Each method is proved to leave exactly the state a function
  of the old state gives (`Commands` for handlers, `Delivery` for buffers and
  poll list, `EventLoop` for lines, entries and passes).
- `Moves` splits every change of the relational state into elementary moves,
  says when each is permitted, and proves that permitted moves keep the
  invariant; `Departures` follows the walk of a disconnecting client.
  `CommandMoves` proves that every command, whatever its text, is a sequence of
  permitted moves by its sender, and `ChannelChanges` says what each line may do
  to each channel. `Laws` and `Membership` prove what follows for the abstract
  relation client x channel.
- `Answers`, `ChannelAnswers`, `Registration` and `ModeMeaning` say line by line,
  without the handlers, who is offered which text and what changes: a law for each
  command over the relation, the fields of a channel and the form of a line. For
  PRIVMSG, who hears it; for a mode string, what its last letters want; for
  registration, also which lines of a run led to it.
- `Traces` makes a run of the server a list of lines, connections and
  disconnections. `RunLaws` and `Welcomes` prove laws of all such lists: where
  operators come from, admission accounting, member limits, one welcome per
  registration (`Series` holds the sums). `Scripts`, `SinglePasses` and
  `Reachable` build runs in which two of the claims below fail.
- `Delivery`, `Sends`, `EventLoop`, `Hearing` and `Disconnects` follow the bytes:
  what each peer sees, which lines of what it sends are carried out, what a flush or
  a drain does, who hears a QUIT.
- `ServerRuns` joins the two halves: every run of the poll loop amounts to the
  list of what really ran in it, so in every reachable state the invariant holds
  and the laws of lists are laws of the server.
- `BufferUtil`, `Parser`, `Reply`, `IrcUtil`, `ModeLaws` and `ModeWire` hold the
  laws of the text: framing that ignores TCP cuts, a parser that inverts the
  builder, MODE notices that replay and a mode query that round-trips.

What the peers send and what `poll`, `accept`, `recv` and `send` return are
parameters (`EventLoop.Event`): `recv` gives at most 4096 bytes, `send` takes
any part of what waits or fails, `accept` gives a descriptor other than the
listener and a printed peer address. The name of the server is a safe token.
The English wording of replies is an arbitrary function (`Config.text`), so
every result holds for any wording.

## The HTTP server

- `WebServer.Server` is the class: connections, poll list and the two pipe-owner
  maps share descriptor numbers and are updated in place; the scan erases
  entries while its index runs. Each method is proved against `WebSteps` and
  `WebRuns`.
- `Descriptors` states when all tables agree (`Tables`: the poll list is exactly
  listeners, connections, CGI inputs and CGI outputs; owner maps are inverse to
  the connection fields; what an entry waits for follows from what it is; caps
  and buffer bounds; the history of responses) and proves it for each elementary
  change. `WebSteps` proves it for every handler, `WebRuns` for passes and runs;
  `WebPasses` says which reported entries a pass handles, `WebReads` and `WebAnswers`
  what a read or a silence leads to, `WebScripts` what a CGI is given and what is made
  of what it writes.
- `Chunked` is the chunked decoder with its `std::size_t` arithmetic modulo 2^64,
  on top of the bare loop of `ChunkLoop`; `ChunkedCodec` relates it to encodings,
  `ChunkSizes` says which sizes it takes, `ChunkWraps` what sizes that wrap do.
- `HttpRequest`, `HttpPath` and `Router` hold the request parser, the path
  normaliser and routing. `HttpBodies` says over headers and payload where a body
  ends, `HttpHeads` that a head as printed is read as printed. `HttpCuts`, on top of `Cuttings`, says for which streams
  the cuts that TCP makes matter; `CutInputs` builds streams for which they do.

`accept` and `pipe` return descriptors that are not open, `poll` reports input
and output only where they are watched for and errors anywhere, `recv` and
`read` give at most 16384 bytes, `send` and `write` take any part or fail.
A request that the server holds is at most `Chunked.TEXT_MAX` bytes, the longest
`std::string`. A program that the parser has left by an exception, or in which it does not
return, is `down`: `main` ends it, and nothing happens in it any more.
Serialised responses are arbitrary non-empty strings: one for each error status, one
for the dispatcher, and a function of configuration and output for the response made
of what a CGI wrote. What the script lookup, the start of a CGI and `waitpid` come to is
a parameter (`WebSteps.CgiOutcome`, `WebSteps.Os`).

## Where the obvious claim is false

- *Reserved descriptors are connected.* A QUIT offered during the drain can
  reserve again a client the same drain then erases
  (`Disconnects.ReservedAreConnectedIff` says exactly when,
  `Reachable.ReservationDangles` gives a run). `accept` may hand the same number
  to a newcomer, which is then dropped at the end of its first pass
  (`Reachable.ReservedIsDropped`, `Reachable.NewcomerDropped`).
- *No handler runs for a reserved descriptor* (invariant 9 of the design
  document). The code looks at the reservation after a line, not before it, so a
  client reserved by an earlier entry of the pass has one more line executed
  (`EventLoop.ReservedClientRuns` says exactly when, `Reachable.ReservedClientHeard`
  gives a run). The model follows the code.
  Both runs are built for any configuration whose password can be typed and whose
  wordings take at most 100 bytes (`Scripts.Modest`).
- *A channel key works.* `MODE +k` accepts a key with a comma, which no JOIN can
  supply (`Membership.SuppliableIff`, `ModeWire.CommaKeyLocks`), and a key that
  begins with a colon, which does not survive the MODE notice
  (`ModeLaws.ModeNoticeOnTheWire`, `ModeWire.ColonKeyGarbles`) nor the answer to
  a mode query (`ModeWire.ModeQueryOnTheWire`).
- *A chunk size is hex digits.* The stream extractor also takes blanks, a sign and
  `0x` (`ChunkSizes.SizeExactly`); the sizes it takes beyond the standard are those
  with a sign or `0x` (`ChunkSizes.SizeStandardIff`, `ChunkSizes.NotAllowedAccepted`).
- *The decoder completes on encodings and on nothing else.* A size near 2^64 takes
  the position arithmetic round, and then the decoder may complete on what is no
  encoding, throw, or never end (`ChunkWraps.WrappedSizeCompletes`,
  `ChunkWraps.WrappedSizeThrows`, `ChunkWraps.WrappedSizeSpins`). The claim holds of
  an input exactly when no size wraps or the decoder does not complete
  (`ChunkedCodec.EncodingsOnlyIff`); `ChunkedCodec.CompletesExactlyOnEncodings` says
  when it completes.
- *A complete body, or an accepted request, is not changed by bytes that follow.*
  Exactly when no size has wrapped (`Chunked.CompleteStableIff`,
  `HttpRequest.AcceptedStableIff`). No refusal is ever taken back
  (`HttpRequest.ParseLater`).
- *The parser always gives a verdict.* It throws or does not end only on a chunked
  body with a size that wraps (`HttpRequest.NoVerdictNeedsChunks`), and a read of such
  a body is exactly what takes the program down (`WebReads.DownIff`,
  `WebReads.DownNeedsWrap`).
- *An escape is two hex digits.* A minus and a digit are accepted too
  (`HttpPath.EscapeExactly`, `HttpPath.EscapeStandardIff`).
- *The verdict on a request does not depend on TCP cuts.* `HttpCuts.CutsAgreeExactly`
  says of which streams it does not. Of a stream that some cutting gets accepted
  (`HttpCuts.AcceptanceIgnoresCutsIff`): exactly if the head is within its limit and
  either the stream ends with the request or no size wraps and one recv more stays
  within the input limit. Of refusals (`HttpCuts.RefusalIgnoresCutsIff`): exactly if a
  body too large is not found malformed within one recv, and no other refusal is
  overtaken by the input limit. `CutInputs.LimitStrikes`, `CutInputs.LongHeadStrikes`
  and `CutInputs.OversizedDependsOnCuts` give streams with two verdicts.
- *Every reported poll entry is handled in its pass.* Handling one entry may take
  others off the list, and the index does not follow entries taken off in front of
  it. An entry is left out exactly when it is taken off itself, or more entries go in
  front of the index than stay from the index up to it (`WebPasses.MissedIff`);
  `WebPasses.ReportPassedOver` is such a pass. None is handled twice
  (`WebRuns.NoEntryTwice`).
- The branch of JOIN for a failed `joinChannel`
  (`services/irc/prd/handler/ServerChannelCommands.cpp:112-118`) is dead under
  the invariant; `IrcServer.Server.EnterChannel` proves that the call succeeds.

## Model

| member | source | states |
|---|---|---|
| `ServerRuns.ServerInvariant` | services/irc/prd/interface/ServerNetwork.cpp:170-202 | In every state a run of the poll loop can reach from the empty server, whatever peers send and the system reports, the whole invariant holds (relations, index, buffers, poll list), every residue is at most 511 bytes, and the relational state is exactly what the parsed lines, connections and disconnections of that run, in their order, make of the empty server |
| `ServerRuns.PassLeads` | services/irc/prd/interface/ServerNetwork.cpp:170-202 | One pass amounts to exactly the commands its entries ran and the connections they accepted, in poll order, then the disconnections of the drain in ascending order, each with its own reason |
| `ServerRuns.PassBoundary` | services/irc/prd/interface/ServerNetwork.cpp:170-202 | The state after each pass of a run is the state after a prefix of that list of events |
| `Moves.MoveKeeps` | services/irc/docs/markdown/02_class_detailed_design_ja.md:768-781 | Every permitted elementary move keeps invariants 1 to 7 and 10 of the list and more: keys equal stored fds and folded names, joined and member sets mirror each other, operators are members, members are registered, invites are connected non-members, no channel is empty, key and limit are well formed when enabled, registered exactly when PASS, NICK and USER are all in, index equal to the nicked clients. Number 8 is about send buffers and part of EventLoop.PassKeeps; number 9 is not kept, see EventLoop.ReservedClientRuns |
| `Moves.InvMeans` | services/irc/docs/markdown/02_class_detailed_design_ja.md:768-781 | A member of a channel is connected, registered, holds the channel in its joined set and has no open invite to it, and the key of a channel is its own fold |
| `Moves.NicknamesUnique` | services/irc/prd/interface/ServerRelations.cpp:119-138 | Two connected clients whose nicknames fold to the same key are one client |
| `CommandMoves.DispatchDeeds` | services/irc/prd/interface/ServerDispatch.cpp:13-85 | Any parsed line from any sender amounts to a sequence of moves by that sender, each permitted in the state it meets |
| `CommandMoves.DispatchKeeps` | services/irc/prd/interface/ServerDispatch.cpp:13-85 | Any parsed line from any sender keeps the invariant of the relational state |
| `EventLoop.PassKeeps` | services/irc/prd/interface/ServerNetwork.cpp:170-202 | One pass keeps the whole invariant and ends with at most 511 received bytes in every buffer |
| `ServerRuns.ReceiveLimitUnreachable` | services/irc/prd/interface/ServerNetwork.cpp:286-309 | When an entry is handled, residue plus chunk is at most 4607 bytes, so the 65536-byte check never fires and each chunk is drained, also for clients reserved by someone else in the same pass |
| `EventLoop.ReservedClientRuns` | services/irc/prd/interface/ServerNetwork.cpp:255-338 | Invariant 9 of the design document holds of an entry of a reserved client if and only if the entry is invalid, does not read, reads nothing, or completes no line of at most 510 bytes that parses at the head of the receive buffer; otherwise exactly that one line is executed, and never a second |
| `Reachable.ReservedClientHeard` | services/irc/prd/interface/ServerNetwork.cpp:286-338 | A run of the server in whose last pass a client is reserved by one entry and has its NICK executed by the next one |
| `Laws.TwoSetsOneRelation` | services/irc/prd/interface/ServerRelations.cpp:181-276 | Joined sets and member sets are two readings of one relation client x channel, and a channel object exists exactly when its column is not empty |
| `Laws.MoveRefinesRelation` | services/irc/prd/interface/ServerRelations.cpp:181-276 | On that relation a join adds one pair that was absent, a part or kick removes one that was present, a disconnect removes a row, and every other move changes nothing |
| `Laws.OthersKeepRelation` | services/irc/prd/interface/ServerDispatch.cpp:23-55 | A line other than JOIN, PART and KICK, from anyone, leaves the relation as it was |
| `Membership.JoinAddsOne` | services/irc/prd/handler/ServerChannelCommands.cpp:52-123 | One JOIN target adds exactly the pair (sender, folded name) when name, invite, key and limit allow it, and otherwise leaves the whole relational state as it was |
| `Membership.PartRemovesOne` | services/irc/prd/handler/ServerChannelCommands.cpp:185-203 | One PART target removes exactly the sender's pair, if it was there |
| `Membership.KickRemovesOne` | services/irc/prd/handler/ServerChannelCommands.cpp:208-267 | KICK removes exactly the target's pair when the sender is operator and the target a member, and otherwise changes nothing |
| `Membership.JoinZeroEmptiesRow` | services/irc/prd/handler/ServerChannelCommands.cpp:33-43 | JOIN 0 removes exactly the sender's row, although the joined set shrinks while it is walked |
| `Moves.DisconnectedErases` | services/irc/prd/interface/ServerRelations.cpp:238-276 | The walk over a copy of the joined set, each name folded and looked up, with emptied channels deleted, followed by the sweep of all invites, erases the client from every channel of the map: members, operators and invites |
| `Membership.DepartureEmptiesRow` | services/irc/prd/interface/ServerRelations.cpp:238-276 | A disconnection removes exactly the client's row, although it walks the client's own joined set only |
| `Membership.SuppliableIff` | services/irc/prd/util/IrcUtil.cpp:182-204 | A channel key can come out of JOIN's key list if and only if it holds no comma |
| `Membership.CommaKeyLocksOut` | services/irc/prd/handler/ServerChannelCommands.cpp:33-50 | So a channel locked with a key that holds a comma admits nobody by any JOIN line |
| `ModeWire.CommaKeyLocks` | services/irc/prd/handler/ServerMode.cpp:26-39 | One MODE of an operator sets such a key, and after it no JOIN line of anyone lets them in |
| `ChannelChanges.DispatchChanges` | services/irc/prd/interface/ServerDispatch.cpp:23-55 | Whatever the line and whoever sent it, each channel stays, loses members by PART, KICK or JOIN 0, gains the sender by an admitting JOIN, gains one invite by an INVITE of an operator for a client that is no member, changes its topic by TOPIC, or its modes and operators by a MODE an operator addressed to it; a new channel comes from a JOIN that lists it and has its sender as sole member and operator |
| `ChannelChanges.InviteAnswered` | services/irc/prd/handler/ServerChannelCommands.cpp:271-327 | An INVITE to an existing nickname adds the invite, answers 341 and tells the target exactly when it is granted (the sender is operator, the target no member), and otherwise changes nothing and answers with one error |
| `RunLaws.OperatorProvenance` | services/irc/prd/domain/Channel.cpp:97-102 | In any run of lines, connections and disconnections, whoever is operator at some point and was not at the start was made so at one earlier step, by its own JOIN that created the channel or by a MODE line on the channel that names it, from one who was operator then, and has been operator ever since |
| `ServerRuns.ServerOperatorProvenance` | services/irc/prd/handler/ServerMode.cpp:205-249 | The same for the lines that really ran in any run of the poll loop |
| `RunLaws.NoOperatorStays` | services/irc/prd/domain/Channel.cpp:81-107 | While a channel exists, once it has no operator it never gets one again |
| `ServerRuns.ServerNoOperator` | services/irc/prd/domain/Channel.cpp:81-107 | The same for every run of the poll loop |
| `RunLaws.AdmissionAccounting` | services/irc/prd/handler/ServerChannelCommands.cpp:85-123 | Over any stretch of a channel's life, entries made under +i plus the invites open at its end never exceed the INVITE lines granted in it plus the invites open at its start |
| `ServerRuns.ServerAdmissions` | services/irc/prd/handler/ServerChannelCommands.cpp:85-123 | The same account for the INVITE and JOIN lines of any run of the poll loop |
| `RunLaws.ChannelBirth` | services/irc/prd/handler/ServerChannelCommands.cpp:70-80 | A channel comes into being by a JOIN line that lists it, with its sender as sole member and operator, no invite open and not invite-only, so its account starts at zero |
| `RunLaws.LimitRespected` | services/irc/prd/domain/Channel.cpp:205-210 | While a limit L stays set, the member count never exceeds the larger of L and the count when the stretch began |
| `ServerRuns.ServerLimit` | services/irc/prd/domain/Channel.cpp:205-210 | The same for every run of the poll loop |
| `Welcomes.WelcomedOnce` | services/irc/prd/handler/ServerAuthCommands.cpp:30-63 | Over any stretch of a run in which a connection lasts, the 001 lines offered to it number one if it became registered in the stretch and none otherwise, and registered it stays |
| `ServerRuns.ServerWelcomes` | services/irc/prd/handler/ServerAuthCommands.cpp:30-63 | The same for every run of the poll loop |
| `Welcomes.StepWelcomes` | services/irc/prd/handler/ServerAuthCommands.cpp:30-63 | One line, connection or disconnection offers a connection a 001 line, and just one, exactly when it registers it |
| `Sends.DispatchGreets` | services/irc/prd/handler/ServerAuthCommands.cpp:30-63 | A line that registers its sender offers it the welcome sequence and nothing else; no other line, from anyone, offers a 001 line to anyone |
| `Sends.WelcomeLines` | services/irc/prd/handler/ServerAuthCommands.cpp:40-63 | Of the five lines of the welcome sequence the first is a 001 line and no other is |
| `Laws.NonOperatorCommand` | services/irc/prd/handler/ServerMode.cpp:110-113 | A command from someone who is not operator of a channel adds no invite and no operator there and leaves modes i, t, k and l as they were |
| `Laws.NothingBeforeRegistration` | services/irc/prd/interface/ServerDispatch.cpp:57-75 | Before registration a gated command answers 451 and changes nothing, and no command at all touches a channel |
| `Answers.PrivmsgReaches` | services/irc/prd/handler/ServerMessageCommands.cpp:18-97 | A PRIVMSG of a registered client changes nothing. With a text, each target gets one offer: a channel the sender is in, its line to exactly the others the relation pairs with it; a nickname, to exactly the client that holds it; else one 403, 404 or 401 to the sender alone. Without target 411, without text 412 |
| `Answers.TopicLine` | services/irc/prd/handler/ServerChannelCommands.cpp:331-381 | A TOPIC changes the topic, and nothing else, exactly if the sender is in the channel and, under +t, is operator; everybody in the channel is told; a query is answered 331 or 332; else 461, 403, 442 or 482 and nothing changes |
| `Answers.KickLine` | services/irc/prd/handler/ServerChannelCommands.cpp:208-267 | A KICK by an operator that names a member takes exactly that pair out, with operatorship, invite and an emptied channel, and tells everybody who was in the channel, the one taken out included; every other KICK gets its error and changes nothing |
| `Answers.InviteLine` | services/irc/prd/handler/ServerChannelCommands.cpp:271-327 | An INVITE by an operator for a named client not in the channel leaves an open invite, is answered 341 and told to the invited; every other INVITE gets its error, in the order of the checks, and changes nothing |
| `Answers.Gates` | services/irc/prd/interface/ServerDispatch.cpp:57-85 | 451 before registration for the seven gated commands, 462 after it for PASS and USER, 421 for an unknown command of a registered client and silence before, no effect of QUIT and PONG on the relations |
| `Answers.GreetingLines` | services/irc/prd/handler/ServerAuthCommands.cpp:188-232 | PING is answered with its token or 409, CAP LS with an empty list, CAP REQ with a refusal of what was asked, any other CAP not at all |
| `ChannelAnswers.JoinLine` | services/irc/prd/handler/ServerChannelCommands.cpp:22-167 | A JOIN line is a chain of targets, each in the state the ones before left. A target that passes name, +i, +k and +l puts exactly the sender into the channel, uses its invite up, makes it operator of a new channel with only +t set, is announced to everybody in it, and is followed by topic and names; any other gets its one error, or none if already in, and changes nothing. JOIN 0 leaves each channel of the sender once |
| `ChannelAnswers.PartLine` | services/irc/prd/handler/ServerChannelCommands.cpp:171-204 | A PART line is a chain of targets: each time exactly the sender is out of the channel and everybody who was in it is told, with the given reason or the nickname; 403 or 442 and no change otherwise |
| `ChannelAnswers.NamesTextIs` | services/irc/prd/handler/ServerChannelCommands.cpp:143-158 | The names reply is the members' nicknames in ascending order of descriptor, an at-sign before exactly the operators, one space between |
| `Registration.PassLine` | services/irc/prd/handler/ServerAuthCommands.cpp:67-86 | Before registration a PASS with the configured password sets passwordAccepted and nothing else, registering and welcoming a client that is then complete; any other password is answered one 464 and changes nothing; none, 461 |
| `Registration.NickLine` | services/irc/prd/handler/ServerAuthCommands.cpp:90-143 | A valid nickname nobody else holds becomes the client's, the index follows, and a registered client is heard of under its old prefix by itself and by exactly those who share a channel with it; else 431, 432 or 433 and no change |
| `Registration.UserLine` | services/irc/prd/handler/ServerAuthCommands.cpp:147-184 | Before registration the first USER with four parameters and a valid name is recorded, registering and welcoming a client that is then complete; else 462 or 461 and no change |
| `Registration.RegistrationProvenance` | services/irc/prd/handler/ServerAuthCommands.cpp:30-38 | In any run, whoever is registered and was not connected at the start has, on the connection it has now, said a PASS whose first parameter is the configured password, a NICK with a valid nickname and a USER with four parameters, and has been connected without a break since each |
| `Registration.ServerRegistration` | services/irc/prd/handler/ServerAuthCommands.cpp:30-38 | The same for the lines that really ran in any run of the poll loop |
| `Hearing.ReadHeard` | services/irc/prd/interface/ServerNetwork.cpp:286-338 | One read carries out, in order, a first part of the lines of residue and new bytes together that parse; all of them, with the residue of the framing left, unless the client is being given up, as it is when a line is too long |
| `Hearing.GivenUp` | services/irc/prd/interface/ServerNetwork.cpp:255-308 | An invalid descriptor, a hang-up and the end of the stream each reserve the client |
| `Hearing.Written` | services/irc/prd/interface/ServerNetwork.cpp:351-375 | An entry that only writes moves a prefix of what waits to what was sent, and reserves a client whose socket takes nothing |
| `Hearing.QuitReserves` | services/irc/prd/handler/ServerChannelCommands.cpp:385-401 | QUIT reserves its sender with its first parameter, or "Client Quit", as reason, and does nothing else; no other command records a reason |
| `ModeLaws.ModeNoticeReplays` | services/irc/prd/handler/ServerMode.cpp:118-311 | The announced letters and parameters, sent again by the same operator from the same starting channel, consume every parameter, reach the same channel and produce exactly the same notice and no error, however many letters of the original failed or changed nothing; nothing announced means nothing changed |
| `ModeLaws.LetterReplays` | services/irc/prd/handler/ServerMode.cpp:143-286 | One letter either announces and changes nothing, or is announced so that the announcement read at the same place makes the same change, the same announcement and no complaint |
| `ModeLaws.ModeNoticeOnTheWire` | services/irc/prd/handler/ServerMode.cpp:290-311 | The MODE line a peer parses equals the announcement if and only if no announced parameter begins with a colon |
| `ModeLaws.AnnouncementIsWords` | services/irc/prd/handler/ServerMode.cpp:118-286 | What a mode string announces is a list of non-empty space-free words, and never more parameters than were consumed |
| `ModeLaws.ModeQueryRoundTrips` | services/irc/prd/handler/ServerMode.cpp:91-105 | The letters and parameters of the 324 reply, run on the same channel with every mode off, restore i, t, k and l exactly, with every parameter consumed and no error |
| `ModeWire.ModeQueryOnTheWire` | services/irc/prd/handler/ServerMode.cpp:91-105 | A registered client that asks for the modes is sent one 324 line; a peer reads back its words if and only if the key does not begin with a colon, and those words sent as a MODE on the channel with every mode off restore i, t, k and l |
| `ModeWire.KeyTaken` | services/irc/prd/handler/ServerMode.cpp:171-204 | One MODE of an operator sets any valid key, comma and colon included, and announces it in one line to the members |
| `ModeWire.ColonKeyGarbles` | services/irc/prd/handler/ServerMode.cpp:290-311 | After one MODE that sets a key beginning with a colon, the announcement does not read back as what was announced |
| `CommandMoves.ModeUpToFrame` | services/irc/prd/handler/ServerMode.cpp:118-286 | However the mode string reads, members, invites, names and topic are untouched, operators stay members and key and limit stay well formed |
| `ModeMeaning.ModeLine` | services/irc/prd/handler/ServerMode.cpp:110-311 | What a whole mode string means, over the old channel and what was asked alone: i, t, k, l and the operatorship of each member are as the last letter about them wants, k and l with its parameter, and as they were if there is none; the same over the old channel and the announcement alone; nothing announced is idle; the notice goes to everybody in the channel; each letter that cannot be met is answered to the sender, in order; 403, 442 or 482 and no change for anyone but an operator |
| `ModeMeaning.AnnouncementMeans` | services/irc/prd/handler/ServerMode.cpp:288-311 | The announced letters and parameters tell the channel after the mode string from the one before it |
| `ModeMeaning.ModeOtherwise` | services/irc/prd/handler/ServerMode.cpp:62-105 | Other MODE lines change nothing; a query is answered with letters and parameters that mean the channel's own modes, over the channel with every mode off |
| `Delivery.StreamRecoversMessages` | services/irc/prd/interface/ServerRelations.cpp:50-77 | Cutting what a peer was and will be sent at CRLF gives back exactly the accepted messages in queue order, none empty, split or merged |
| `Delivery.DeliverKeeps` | services/irc/prd/interface/ServerRelations.cpp:50-77 | Delivering any list of well-formed lines keeps: sent bytes plus waiting bytes are the accepted messages in order, at most 1 MiB waits, POLLOUT is watched exactly while bytes wait |
| `Delivery.FlushedKeeps` | services/irc/prd/interface/ServerNetwork.cpp:351-375 | A flush of any length moves bytes from waiting to sent, loses none and keeps the POLLOUT rule |
| `Delivery.ClosedKeeps` | services/irc/prd/interface/ServerRelations.cpp:334-340 | Closing a connection keeps the poll list equal to the listener and the remaining connections |
| `Delivery.OfferGrows` | services/irc/prd/interface/ServerRelations.cpp:164-177 | Queueing to one client after another has the effect of offering to all of them at once, so the order of a broadcast does not matter |
| `Sends.DispatchGood` | services/irc/prd/util/Reply.cpp:30-82 | Whatever the line, every message a command offers is one non-empty line: the reply builder never refuses a reachable prefix, target or server name |
| `Sends.DisconnectGood` | services/irc/prd/util/Reply.cpp:60-82 | The QUIT of any disconnection is one non-empty line |
| `Sends.PrefixSafe` | services/irc/prd/util/Reply.cpp:9-23 | The prefix of every reachable client is a safe token |
| `EventLoop.DrainRemovesSnapshot` | services/irc/prd/interface/ServerRelations.cpp:287-341 | Draining removes every reserved fd from clients, members, operators, invites, nickname index, poll list and reasons |
| `EventLoop.DrainSparesOthers` | services/irc/prd/interface/ServerRelations.cpp:287-341 | Everyone not reserved when the drain began is still connected after it, received bytes intact |
| `Disconnects.NeighboursMeaning` | services/irc/prd/interface/ServerRelations.cpp:140-162 | The audience of a QUIT or NICK is exactly the other clients that share at least one channel, each once however many are shared |
| `Disconnects.QuitOffered` | services/irc/prd/interface/ServerRelations.cpp:308-341 | One disconnection, seen by one other client: the QUIT is queued once if they share a channel and it fits, nothing is queued otherwise, and the client is reserved exactly when it did not fit |
| `Disconnects.QuitTextIs` | services/irc/prd/interface/ServerRelations.cpp:308-326 | The QUIT of a disconnecting client has its prefix and the reason it left behind, or "Connection closed" |
| `Disconnects.SurvivorTakesEachQuit` | services/irc/prd/interface/ServerRelations.cpp:287-306 | A client that stays takes the QUIT of each reserved client it shares a channel with, once, in ascending fd order, and nothing else; if they do not all fit it is reserved instead |
| `Disconnects.ReservedThoughGone` | services/irc/prd/interface/ServerRelations.cpp:287-306 | A client erased by the drain is reserved again, though gone, exactly when the QUITs offered before its own turn did not fit its send buffer |
| `Disconnects.ReservedAreConnectedIff` | services/irc/prd/interface/ServerRelations.cpp:287-306 | "Reserved implies connected" survives the drain if and only if every reserved client has room, before its turn, for the QUITs of the reserved clients before it that share a channel with it |
| `Reachable.ReservationDangles` | services/irc/prd/interface/ServerRelations.cpp:287-306 | A run of the server (two clients register, meet in a channel, one fills the other's send buffer line by line and then overflows it and quits in one chunk) at whose end fd 6 is reserved and belongs to nobody |
| `Reachable.ReservedIsDropped` | services/irc/prd/interface/ServerRelations.cpp:287-306 | Whoever holds a reserved descriptor at the end of the next pass is disconnected then, whether it held it when it was reserved or not |
| `Reachable.NewcomerDropped` | services/irc/prd/interface/ServerNetwork.cpp:214-251 | A run whose last pass accepts a connection on the dangling descriptor and drops it again |
| `BufferUtil.FramingConfluent` | services/irc/prd/util/BufferUtil.cpp:10-46 | Two ways of cutting the same bytes into chunks give the same lines in the same order and the same residue or, both ways, a line too long |
| `BufferUtil.FramingIgnoresCuts` | services/irc/prd/interface/ServerNetwork.cpp:311-337 | Receiving chunk by chunk gives what draining the whole stream at once gives |
| `BufferUtil.FindLineStable` | services/irc/prd/util/BufferUtil.cpp:16-45 | Bytes that arrive later change neither a line already complete nor the verdict that a line is too long |
| `BufferUtil.FindLine` | services/irc/prd/util/BufferUtil.cpp:10-46 | An extracted line has at most 510 bytes and no LF, anything found consumes at least one byte, and the buffer is incomplete exactly when it has no LF and fewer than 512 bytes |
| `BufferUtil.FramingInvertsCrLf` | services/irc/prd/util/BufferUtil.cpp:10-46 | Lines of at most 510 bytes sent with CRLF come out exactly as sent |
| `Parser.ParseAfterPrint` | services/irc/prd/util/Parser.cpp:26-74 | Parse after print is the identity: a built line reads back as its prefix, its command in upper case, its safe middles and sanitised trailing parameter, up to 15 parameters |
| `Parser.WordsSurviveTheWire` | services/irc/prd/util/Parser.cpp:26-74 | Parameters written as plain words read back as themselves if and only if none begins with a colon |
| `Parser.Parse` | services/irc/prd/util/Parser.cpp:26-74 | The in-place scan accepts exactly the lines of the grammar and returns the message they stand for |
| `Parser.ReadParams` | services/irc/prd/util/Parser.cpp:52-70 | The parameter loop fails exactly when there are more than 15 parameters, and otherwise returns them in order |
| `Parser.SkipSpaces` | services/irc/prd/util/Parser.cpp:9-13 | Stops at the first non-space at or after the start |
| `Parser.TakeToken` | services/irc/prd/util/Parser.cpp:16-23 | Takes the bytes up to the next space and stops there |
| `IrcUtil.FoldIdempotent` | services/irc/prd/util/IrcUtil.cpp:39-64 | A folded name is its own search key |
| `IrcUtil.FoldExactly` | services/irc/prd/util/IrcUtil.cpp:39-59 | Two names fold alike exactly when they agree but for the case of letters, where A to ^ pair with a to ~ |
| `IrcUtil.IrcCaseFold` | services/irc/prd/util/IrcUtil.cpp:39-59 | The loop folds every byte by the table of section 2.2 of RFC 2812 |
| `IrcUtil.UpperExactly` | services/irc/prd/util/IrcUtil.cpp:27-37 | Upper-casing changes exactly a to z, each to the letter 32 codes below |
| `IrcUtil.ToUpperAscii` | services/irc/prd/util/IrcUtil.cpp:27-37 | The loop raises exactly the ASCII lower-case letters |
| `IrcUtil.IsValidNickname` | services/irc/prd/util/IrcUtil.cpp:68-85 | True exactly for 1 to 9 nickname bytes that start with a letter or special |
| `IrcUtil.IsValidChannelName` | services/irc/prd/util/IrcUtil.cpp:87-104 | True exactly for # and 2 to 50 bytes in all, none after the first a space, comma, colon, BELL, CR, LF or NUL |
| `IrcUtil.ParsePositiveSize` | services/irc/prd/util/IrcUtil.cpp:106-134 | Accepts exactly the decimal strings of value 1..2^64-1 and returns that value, the running value never leaving the range |
| `IrcUtil.IsSafeToken` | services/irc/prd/util/IrcUtil.cpp:141-163 | True exactly for non-empty strings without space, CR, LF or NUL that do not begin with a colon |
| `IrcUtil.SanitizeMessageText` | services/irc/prd/util/IrcUtil.cpp:167-180 | The loop drops exactly the CR, LF and NUL bytes |
| `IrcUtil.SanitizeIdentity` | services/irc/prd/util/IrcUtil.cpp:167-180 | Sanitising leaves a text alone if and only if it holds no CR, LF or NUL |
| `IrcUtil.SplitCommaJoins` | services/irc/prd/util/IrcUtil.cpp:182-204 | Splitting loses nothing: no field holds a comma and joining the fields gives the string back |
| `IrcUtil.SplitCommaList` | services/irc/prd/util/IrcUtil.cpp:182-204 | The loop yields exactly those fields, and none for the empty string |
| `Reply.Numeric` | services/irc/prd/util/Reply.cpp:30-58 | Always one line, and empty exactly when code, server name or target cannot stand as a token |
| `Reply.Command` | services/irc/prd/util/Reply.cpp:60-82 | Always one line, and empty exactly when command or prefix is not a safe token |
| `IrcServer.Server.constructor` | services/irc/prd/interface/Server.cpp:6-23 | The listening server starts with nobody connected and only the listener polled |
| `IrcServer.Server.AddClient` | services/irc/prd/interface/ServerRelations.cpp:11-17 | Enters a fresh record and empty buffers unless the fd is there already |
| `IrcServer.Server.QueueToClient` | services/irc/prd/interface/ServerRelations.cpp:50-77 | Queues the line with one CRLF and watches POLLOUT, or reserves the client when 1 MiB would be exceeded, or does nothing for an unknown fd |
| `IrcServer.Server.FindClientByNickname` | services/irc/prd/interface/ServerRelations.cpp:79-97 | The connected client the folded nickname indexes, if any |
| `IrcServer.Server.IsNicknameAvailable` | services/irc/prd/interface/ServerRelations.cpp:119-128 | Free, or held by the asking client |
| `IrcServer.Server.RegisterNickname` | services/irc/prd/interface/ServerRelations.cpp:130-133 | The index gains the folded nickname |
| `IrcServer.Server.UnregisterNickname` | services/irc/prd/interface/ServerRelations.cpp:135-138 | The index loses the folded nickname |
| `IrcServer.Server.BroadcastToSharedChannels` | services/irc/prd/interface/ServerRelations.cpp:140-162 | The set loop offers the message to exactly the other clients sharing a channel, once each |
| `IrcServer.Server.BroadcastToChannel` | services/irc/prd/interface/ServerRelations.cpp:164-177 | The set loop offers the message to every member but the excluded ones |
| `IrcServer.Server.JoinChannel` | services/irc/prd/interface/ServerRelations.cpp:181-195 | Adds the pair on both sides when client and channel exist, nothing otherwise |
| `IrcServer.Server.LeaveChannel` | services/irc/prd/interface/ServerRelations.cpp:197-228 | Removes the pair on both sides with operatorship and invite, drops an emptied channel, and offers PART to the members as they were; changes nothing for a non-member |
| `IrcServer.Server.DeleteChannelIfEmpty` | services/irc/prd/interface/ServerRelations.cpp:230-236 | Removes the channel exactly when it has no member |
| `IrcServer.Server.RemoveClientFromAllChannels` | services/irc/prd/interface/ServerRelations.cpp:238-276 | The two loops leave the channels as if the client had never been member, operator or invited anywhere, emptied ones gone, and the joined set empty |
| `IrcServer.Server.ScheduleDisconnect` | services/irc/prd/interface/ServerRelations.cpp:280-285 | Reserves the fd, once |
| `IrcServer.Server.ProcessPendingDisconnects` | services/irc/prd/interface/ServerRelations.cpp:287-306 | The set is copied and emptied, then each fd disconnected in ascending order with its own reason |
| `IrcServer.Server.DisconnectClient` | services/irc/prd/interface/ServerRelations.cpp:308-341 | QUIT offered to the audience, then no trace left in relations, index, poll list, reasons and buffers |
| `IrcServer.Server.RequireParams` | services/irc/prd/handler/ServerAuthCommands.cpp:15-28 | Succeeds with enough parameters, otherwise answers 461 |
| `IrcServer.Server.RequireChannelMember` | services/irc/prd/interface/ServerRelations.cpp:345-358 | Succeeds for a member, otherwise answers 442 |
| `IrcServer.Server.RequireChannelOperator` | services/irc/prd/interface/ServerRelations.cpp:360-373 | Succeeds for an operator, otherwise answers 482 |
| `IrcServer.Server.SendNoSuchChannel` | services/irc/prd/interface/ServerRelations.cpp:375-381 | Answers 403 with the name as typed |
| `IrcServer.Server.AddClientPollFd` | services/irc/prd/interface/ServerNetwork.cpp:123-131 | Appends an entry that watches input only |
| `IrcServer.Server.RemoveClientPollFd` | services/irc/prd/interface/ServerNetwork.cpp:133-144 | Removes the first entry of the fd and keeps the rest in order |
| `IrcServer.Server.UpdatePollEvents` | services/irc/prd/interface/ServerNetwork.cpp:146-166 | POLLOUT is watched exactly when bytes wait |
| `IrcServer.Server.EventLoopPass` | services/irc/prd/interface/ServerNetwork.cpp:170-202 | One pass handles the entries present when poll returned, in order, then drains the reservations; the invariant holds again |
| `IrcServer.Server.AcceptClient` | services/irc/prd/interface/ServerNetwork.cpp:214-251 | An accepted connection is entered and polled last, nothing happens for one already known |
| `IrcServer.Server.HandleClientEvent` | services/irc/prd/interface/ServerNetwork.cpp:255-282 | Invalid, input, output, hang-up in that order, stopping once the client is reserved |
| `IrcServer.Server.ReceiveFromClient` | services/irc/prd/interface/ServerNetwork.cpp:286-338 | One recv: end of stream reserves, the overflow check, then the line loop |
| `IrcServer.Server.DrainReceived` | services/irc/prd/interface/ServerNetwork.cpp:311-337 | The line loop takes and runs lines until none is complete, one is too long or the client is reserved, and ends because each turn consumes a byte |
| `IrcServer.Server.ProcessLine` | services/irc/prd/interface/ServerNetwork.cpp:340-347 | A line that does not parse is dropped, any other is dispatched |
| `IrcServer.Server.FlushSendBuffer` | services/irc/prd/interface/ServerNetwork.cpp:351-375 | What send took leaves the buffer, a failed send reserves the client |
| `IrcServer.Server.DispatchCommand` | services/irc/prd/interface/ServerDispatch.cpp:13-85 | The table scan runs the handler of a known command within its registration gates, answers 451, 462 or 421, and ignores unknown commands before registration |
| `IrcServer.Server.FindEntry` | services/irc/prd/interface/ServerDispatch.cpp:23-55 | The scan finds an entry exactly for the known commands, with its two gates |
| `IrcServer.Server.TryRegisterClient` | services/irc/prd/handler/ServerAuthCommands.cpp:30-38 | Registers and welcomes exactly a complete unregistered client |
| `IrcServer.Server.SendWelcomeSequence` | services/irc/prd/handler/ServerAuthCommands.cpp:40-63 | Offers 001 to 004 and 422, in order |
| `IrcServer.Server.HandlePass` | services/irc/prd/handler/ServerAuthCommands.cpp:67-86 | The state and the sends of the Pass function: 461 without parameter, 464 for a wrong password, otherwise accepted and registration tried; Registration.PassLine says what that function may be |
| `IrcServer.Server.HandleNick` | services/irc/prd/handler/ServerAuthCommands.cpp:90-143 | 431, 432 and 433 in that order, otherwise index and record renamed, and the old prefix tells the client and its audience if registered |
| `IrcServer.Server.IsValidUsername` | services/irc/prd/handler/ServerAuthCommands.cpp:166-172 | True exactly for non-empty names without space, at-sign, CR, LF or NUL |
| `IrcServer.Server.HandleUser` | services/irc/prd/handler/ServerAuthCommands.cpp:147-184 | 462 on a second USER, 461 for missing or bad fields, otherwise recorded and registration tried |
| `IrcServer.Server.HandleCap` | services/irc/prd/handler/ServerAuthCommands.cpp:188-212 | LS and REQ answered, anything else silent |
| `IrcServer.Server.HandlePing` | services/irc/prd/handler/ServerAuthCommands.cpp:216-232 | 409 without a token, otherwise PONG with it |
| `IrcServer.Server.HandleJoin` | services/irc/prd/handler/ServerChannelCommands.cpp:22-167 | JOIN 0 leaves every joined channel in name order; otherwise each listed channel is tried with the key in its place |
| `IrcServer.Server.JoinOneChannel` | services/irc/prd/handler/ServerChannelCommands.cpp:56-165 | One target: name, already in, created, then +i, +k, +l in that order |
| `IrcServer.Server.AdmitClient` | services/irc/prd/handler/ServerChannelCommands.cpp:110-165 | Membership on both sides, operator for the creator, invite used up, then the JOIN notice and the topic and names replies from the state after it |
| `IrcServer.Server.EnterChannel` | services/irc/prd/handler/ServerChannelCommands.cpp:110-125 | Membership on both sides, operator for the creator, invite used up; the call of joinChannel succeeds, so the branch for its failure is dead |
| `IrcServer.Server.NamesOf` | services/irc/prd/handler/ServerChannelCommands.cpp:143-158 | The member loop builds the names in ascending fd order, operators marked |
| `IrcServer.Server.HandlePart` | services/irc/prd/handler/ServerChannelCommands.cpp:171-204 | Each listed channel left independently with the given reason or the nickname |
| `IrcServer.Server.HandleKick` | services/irc/prd/handler/ServerChannelCommands.cpp:208-267 | The checks in order, then the notice to all members and one membership removed |
| `IrcServer.Server.HandleInvite` | services/irc/prd/handler/ServerChannelCommands.cpp:271-327 | The checks in order, then the invite recorded and both told |
| `IrcServer.Server.HandleTopic` | services/irc/prd/handler/ServerChannelCommands.cpp:331-381 | Query, refusal under +t, or the topic replaced and announced |
| `IrcServer.Server.HandleQuit` | services/irc/prd/handler/ServerChannelCommands.cpp:385-401 | Leaves a reason and a reservation and nothing else |
| `IrcServer.Server.HandlePrivmsg` | services/irc/prd/handler/ServerMessageCommands.cpp:18-97 | The state and the sends of the Privmsg function, each target independently; Answers.PrivmsgReaches says who gets what |
| `IrcServer.Server.IsValidChannelKey` | services/irc/prd/handler/ServerMode.cpp:26-39 | True exactly for 1 to 23 bytes without space, tab, CR, LF or NUL |
| `IrcServer.Server.AppendChangedMode` | services/irc/prd/handler/ServerMode.cpp:48-59 | The sign is announced only when it differs from the last one announced |
| `IrcServer.Server.ChangeModes` | services/irc/prd/handler/ServerMode.cpp:118-311 | The loop over the mode string edits the channel in place, consumes parameters letter by letter as the source does, queues the errors as they occur and one notice at the end; ModeMeaning.ModeLine says what that amounts to |
| `IrcServer.Server.HandleMode` | services/irc/prd/handler/ServerMode.cpp:62-312 | User modes refused, query answered, change allowed to operators |
| `WebRuns.WithinBounds` | apps/webserv/src/Server.cpp:10-12 | From the opened listeners, in every reachable state: tables consistent, at most 128 connections and 16 running CGIs, input at most maxBody + 65536 bytes and CGI output at most 16 MiB + 16384 |
| `WebRuns.OneResponse` | apps/webserv/src/Server.cpp:207-357 | Over every run a connection gets one response at most: what it was sent is always a prefix of that response, later states never show another, and a running CGI means no response yet |
| `WebRuns.RunKeeps` | apps/webserv/src/Server.cpp:462-515 | Any run keeps the tables consistent, responses given stay given and bytes sent stay sent |
| `WebRuns.OpenedTables` | apps/webserv/src/Server.cpp:48-84 | The tables of the freshly opened server are consistent |
| `WebRuns.NoEntryTwice` | apps/webserv/src/Server.cpp:470-511 | No poll entry is handled twice in one pass although entries are erased while the index runs; only reported ones are handled, no more than poll announced |
| `WebPasses.HandleThins` | apps/webserv/src/Server.cpp:470-511 | Handling an entry takes exactly the descriptors that its pipes, its reports and the answer of the system decide off the list, and leaves the others with their reports in their order |
| `WebPasses.StepDecides` | apps/webserv/src/Server.cpp:470-511 | After one entry was handled, a reported entry further on is off the list, or below the index if and only if more entries left in front of the index than stayed from the index up to it |
| `WebPasses.MissedIff` | apps/webserv/src/Server.cpp:470-511 | With poll's count and the program still up, a reported entry is not handled in its pass if and only if, at some step before its turn, it was taken off the list or slid below the index |
| `WebPasses.ReportPassedOver` | apps/webserv/src/Server.cpp:490-497 | A pass in which a broken CGI input pipe closes its connection, three entries go, and a readable connection behind them is not handled |
| `WebReads.ReadFollowsVerdict` | apps/webserv/src/Server.cpp:207-254 | A read follows the verdict of the cut laws: bytes kept until then, a refusal answered 400, 413 or 505, and the program down exactly if the parser throws or does not end |
| `WebReads.DownIff` | apps/webserv/src/Server.cpp:470-511 | Handling an entry takes the program down if and only if it reads, from a connection waiting for its request, a piece on which the parser throws or does not end |
| `WebReads.DownNeedsWrap` | apps/webserv/src/Server.cpp:207-237 | It takes a chunked request with a size that wraps |
| `WebRuns.HandleStep` | apps/webserv/src/Server.cpp:470-511 | Whatever was reported and answered, handling one entry keeps every table, changes no other connection, and leaves no report of that entry further on |
| `WebRuns.TurnKeeps` | apps/webserv/src/Server.cpp:462-515 | One turn (poll, scan, reap, expire) keeps the tables and the history |
| `WebRuns.ReapKeeps` | apps/webserv/src/Server.cpp:359-376 | Finishing the listed exited CGIs keeps the tables and gives each connection its first response |
| `WebRuns.ExpireKeeps` | apps/webserv/src/Server.cpp:410-460 | Expiring stale connections keeps the tables and never answers one twice |
| `WebSteps.EntryIsClient` | apps/webserv/src/Server.cpp:498-507 | An entry that is neither listener nor pipe belongs to a connection in the table, so no lookup creates one |
| `WebSteps.ReadClientStep` | apps/webserv/src/Server.cpp:207-254 | Reading keeps the tables, touches one connection and deals with its entry, whatever the parser comes to |
| `WebSteps.WriteClientStep` | apps/webserv/src/Server.cpp:256-272 | Writing any prefix keeps the tables, and closes exactly when everything is sent |
| `WebSteps.WriteCgiStep` | apps/webserv/src/Server.cpp:274-294 | Feeding a CGI keeps the tables and drops the pipe when written or broken |
| `WebSteps.ReadCgiStep` | apps/webserv/src/Server.cpp:296-323 | Reading a CGI keeps the tables, overflow and end of file included |
| `WebScripts.ScriptsConserved` | apps/webserv/src/Server.cpp:174-323 | In every reachable state, for every connection: the CGI output collected is the pieces read since the launch, concatenated in order; the bytes the script was handed are a prefix of its input, as long as what was written; and while the script runs, that input is the body of the accepted request received on that connection |
| `WebScripts.ReapAnswers` | apps/webserv/src/Server.cpp:359-376 | Collecting exited CGIs answers exactly the connections whose script's output is at its end and whose script exited: with the response made of the pieces read if the exit status is 0, else with 500 |
| `WebScripts.EndAnswers` | apps/webserv/src/Server.cpp:314-350 | At the end of a script's output, if it has exited there and then: the response made of the pieces read, or 500 |
| `WebScripts.PieceAnswers` | apps/webserv/src/Server.cpp:303-313 | A piece read is collected behind the others; past 16 MiB the script is stopped and answered, else it goes on |
| `WebAnswers.AcceptAnswers` | apps/webserv/src/Server.cpp:97-136 | Of the connections accept gives, each is admitted, blank and waiting for input, exactly while there are fewer than 128 and it can be made non-blocking |
| `WebAnswers.ReadAnswers` | apps/webserv/src/Server.cpp:138-254 | A piece received on a connection waiting for its request: 413 unseen past the input limit; else, by the verdict on all bytes so far, kept, answered 400, 413 or 505, answered by the dispatcher, or handed to a script, which is 503 with 16 running, the status of the lookup, 500 on a failed start, or started with the body of the request as input |
| `WebAnswers.WriteAnswers` | apps/webserv/src/Server.cpp:256-272 | What send makes of a response: nothing when not ready, closed on failure, else exactly that many bytes more on the wire and the time noted, closed with the last |
| `WebAnswers.FeedAnswers` | apps/webserv/src/Server.cpp:274-294 | What write makes of a script's input: nothing when not ready, else exactly that many bytes handed over, the pipe gone when it broke or took all |
| `WebAnswers.ExpireAnswers` | apps/webserv/src/Server.cpp:410-460 | Expiry deals with exactly the connections untouched for longer than their timeout: 504 for a running script, 408 for a request that does not come, closed for a response not taken |
| `WebSteps.AcceptStep` | apps/webserv/src/Server.cpp:97-136 | Accepting keeps the tables, adds entries at the end only and stops at 128 connections |
| `Descriptors.AdmitKeeps` | apps/webserv/src/Server.cpp:121-134 | A new connection on a free descriptor keeps all tables |
| `Descriptors.LaunchKeeps` | apps/webserv/src/Server.cpp:174-204 | Starting a CGI on free pipes while fewer than 16 run keeps all tables |
| `Descriptors.FinishKeeps` | apps/webserv/src/Server.cpp:325-357 | Finishing a CGI keeps all tables |
| `Descriptors.CloseKeeps` | apps/webserv/src/Server.cpp:386-408 | Closing a connection keeps all tables and leaves no trace of it |
| `Descriptors.SentAllKeeps` | apps/webserv/src/Server.cpp:268-271 | When the last byte is sent the wire holds exactly the response |
| `WebServer.Server.constructor` | apps/webserv/src/Server.cpp:48-84 | One entry per listener, nothing else |
| `WebServer.Server.AcceptClient` | apps/webserv/src/Server.cpp:97-136 | The accept loop admits each connection while there is room and it can be made non-blocking |
| `WebServer.Server.TryStartCgi` | apps/webserv/src/Server.cpp:138-205 | 503 at the limit, the error of the script lookup, 500 on a failed start, or the CGI launched; nothing when the request leads to no script |
| `WebServer.Server.RunningCgi` | apps/webserv/src/Server.cpp:144-148 | The loop counts exactly the connections with a CGI |
| `WebServer.Server.ReadClient` | apps/webserv/src/Server.cpp:207-254 | One recv: closed at the end, 413 beyond the input limit, otherwise parsed and served, or the program down where the parser throws or does not end |
| `WebServer.Server.WriteClient` | apps/webserv/src/Server.cpp:256-272 | What send took counts as sent; closed on failure or at the end |
| `WebServer.Server.WriteCgi` | apps/webserv/src/Server.cpp:274-294 | What write took counts as written, and is recorded as handed over; the pipe goes when all is written or it breaks |
| `WebServer.Server.ReadCgi` | apps/webserv/src/Server.cpp:296-323 | Output collected and recorded piece by piece, the CGI stopped past 16 MiB, the pipe dropped at end of file, the response made of the output; WebScripts.ScriptsConserved says in which order |
| `WebServer.Server.FinishCgi` | apps/webserv/src/Server.cpp:325-357 | Pipes dropped, response given once, the entry waiting for output |
| `WebServer.Server.ReapCgi` | apps/webserv/src/Server.cpp:359-376 | Exited CGIs listed first, then finished with the response made of their output, or 500 |
| `WebServer.Server.RemovePollFd` | apps/webserv/src/Server.cpp:378-384 | The first entry of the descriptor goes, the rest keep their order |
| `WebServer.Server.CloseClient` | apps/webserv/src/Server.cpp:386-408 | Pipes, entry and record gone; nothing for an unknown descriptor |
| `WebServer.Server.ExpireClients` | apps/webserv/src/Server.cpp:410-460 | Stale connections listed first, then answered 504 or 408 or closed |
| `WebServer.Server.HandleReported` | apps/webserv/src/Server.cpp:470-511 | Dispatch by what the descriptor is, and the index to go on from |
| `WebServer.Server.Scan` | apps/webserv/src/Server.cpp:470-511 | The erase-while-scanning loop does what the pass of the model does, and leaves off when the program is down |
| `WebServer.Server.Turn` | apps/webserv/src/Server.cpp:462-515 | One turn keeps tables and history |
| `ChunkedCodec.CompletesExactlyOnEncodings` | apps/webserv/src/Http.cpp:122-171 | The decoder completes with a body and without a size that wraps if and only if the input is a chunked encoding (any split, extensions, trailers, trailing bytes) of that body |
| `ChunkedCodec.EncodingsOnlyIff` | apps/webserv/src/Http.cpp:122-171 | "The decoder completes on encodings and on nothing else" holds of an input if and only if no chunk size that the loop goes on past wraps or the decoder does not complete |
| `ChunkedCodec.DecodeInvertsEncoding` | apps/webserv/src/Http.cpp:122-171 | Decoding gives back the data of any well-formed encoding, and no size of it wraps |
| `ChunkedCodec.DecodeInvertsEncode` | apps/webserv/src/Http.cpp:122-171 | For every split of every body into non-empty parts, decoding the plain encoding gives the body, whatever follows |
| `Chunked.HexFieldPlain` | apps/webserv/src/Http.cpp:137-142 | A size of plain hex digits denotes its value, and is refused exactly when it does not fit |
| `Chunked.EndlessMeans` | apps/webserv/src/Http.cpp:122-171 | The verdict is "never ends" if and only if the loop, in arithmetic modulo 2^64, is still running after every number of turns |
| `Chunked.NoVerdictNeedsWrap` | apps/webserv/src/Http.cpp:162-169 | The exception out of the comparison and the endless loop need a size line whose position plus size plus two passes 2^64-1 |
| `Chunked.LowIsModulo` | apps/webserv/src/Http.cpp:162-165 | The position arithmetic is modulo 2^64 |
| `Chunked.DecodeLater` | apps/webserv/src/Http.cpp:122-171 | On a grown buffer, whatever wraps: a rejection, an exception and an endless loop stay, a complete body stays complete and never gets shorter |
| `Chunked.DecodeStable` | apps/webserv/src/Http.cpp:122-171 | On a grown buffer, where no size wraps: a complete body stays as it is, a rejection stays, and a partial body only grows |
| `Chunked.CompleteStableIff` | apps/webserv/src/Http.cpp:122-171 | A complete body is unchanged by further bytes if and only if no size has wrapped |
| `ChunkSizes.SizeExactly` | apps/webserv/src/Http.cpp:129-142 | A size line is accepted with a value if and only if it is blanks, an optional sign, an optional 0x, hex digits of value at most 2^64-1, blanks and an extension; a minus negates modulo 2^64 |
| `ChunkSizes.SizeStandardIff` | apps/webserv/src/Http.cpp:129-142 | An accepted size is one that section 7.1 of RFC 9112 allows if and only if it has no sign and no 0x, and then its value is that of its digits |
| `ChunkSizes.NotAllowedAccepted` | apps/webserv/src/Http.cpp:137-142 | "+5", "0x5" and "-1" are accepted as 5, 5 and 2^64-1 |
| `ChunkWraps.WrappedSizeCompletes` | apps/webserv/src/Http.cpp:137-166 | "-2", then a last chunk: complete, with everything after the first line for a body, though the input encodes nothing, and longer with every byte that follows |
| `ChunkWraps.WrappedSizeThrows` | apps/webserv/src/Http.cpp:162-166 | A first size of "-6": the comparison is past the end and throws |
| `ChunkWraps.WrappedSizeSpins` | apps/webserv/src/Http.cpp:126-168 | A chunk of one byte, then "-6": the loop never ends |
| `Chunked.ParseChunked` | apps/webserv/src/Http.cpp:122-171 | The loop, with its arithmetic modulo 2^64, computes that verdict |
| `Chunked.ParseTrailers` | apps/webserv/src/Http.cpp:149-161 | The trailer loop accepts exactly trailer lines with a colon up to the blank line |
| `HttpRequest.ParseRequest` | apps/webserv/src/Http.cpp:190-266 | The procedure computes the verdict of head, body-length decision and body, or that the body decoder throws or never ends; HttpBodies.ParseDecided says what that verdict is |
| `HttpRequest.ReadHeaders` | apps/webserv/src/Http.cpp:210-220 | The header loop yields the map of trimmed values under lower-case names, or fails on a malformed or repeated header |
| `HttpRequest.ReadBody` | apps/webserv/src/Http.cpp:229-265 | Chunked, fixed length or none, with the refusals in the source's order, and what the chunked decoder comes to; HttpBodies.HeadersDecide says which body that is |
| `HttpRequest.IsValidToken` | apps/webserv/src/Http.cpp:173-188 | True exactly for non-empty strings of token bytes |
| `HttpBodies.ParseDecided` | apps/webserv/src/Http.cpp:190-265 | The verdict over headers and payload. Both length headers, a transfer coding other than chunked, a length that is none, and a POST with neither header are refused. Chunked: accepted with the data of the encoding the payload is, and, unless a size wraps, only then; what is refused is the start of no encoding. With a length: the body is that many payload bytes, waited for, or too large. With neither header the body is empty |
| `HttpBodies.LengthExactly` | apps/webserv/src/Http.cpp:246-256 | Which Content-Length values are accepted, and as what: no sign in front, then, up to the first NUL, nothing, or space, a sign and decimal digits of at most 2^64-1, a minus modulo 2^64 |
| `HttpBodies.HeadMeans` | apps/webserv/src/Http.cpp:195-228 | An accepted head has a token for its method, version HTTP/1.1, a Host, a target with a slash in front, the decoded path of what stands before the first question mark and the query after it |
| `HttpHeads.HeadExactly` | apps/webserv/src/Http.cpp:190-228 | A head printed from method, target, version and fields is read back as those, names lower-cased and values trimmed, exactly if method and names are tokens, no name comes twice, there is a Host, the target has a path and the version is HTTP/1.1; another version is told apart when the method is a token; anything else is malformed |
| `HttpHeads.PrintedIsRead` | apps/webserv/src/Http.cpp:190-265 | So a request as printed is read as printed, and its own fields and payload decide |
| `HttpRequest.ContentLengthExactly` | apps/webserv/src/Http.cpp:246-256 | A trimmed Content-Length without NUL is accepted if and only if it is all digits and at most 2^64-1, with that value |
| `HttpRequest.ParseLater` | apps/webserv/src/Http.cpp:190-266 | Once the head is present no refused request is ever accepted later, and an accepted one stays accepted with the same head and a body that may only grow, or becomes too large |
| `HttpRequest.AcceptedStableIff` | apps/webserv/src/Http.cpp:190-266 | An accepted request is unchanged by further bytes if and only if its body is not chunked or no chunk size has wrapped |
| `HttpRequest.NoVerdictNeedsChunks` | apps/webserv/src/Http.cpp:237-243 | The parser throws or never ends only on a chunked body with a size that wraps |
| `HttpCuts.ShortOutcomes` | apps/webserv/src/Server.cpp:207-254 | What can come of a stream whose head is within its limit, over all ways TCP may cut it: exactly the verdicts from the first final one up to one recv further |
| `HttpCuts.CutsAgreeExactly` | apps/webserv/src/Server.cpp:207-254 | For every stream, whether all cuttings lead to the same verdict, the input limit and the head limit included |
| `HttpCuts.AcceptanceIgnoresCutsIff` | apps/webserv/src/Server.cpp:207-254 | Of a stream that some cutting gets accepted all cuttings agree if and only if the head is within its limit and either the stream ends with the request or no chunk size wraps and one recv more stays within the input limit |
| `HttpCuts.RefusalIgnoresCutsIff` | apps/webserv/src/Server.cpp:207-254 | Of a stream with a head within its limit whose first final verdict is a refusal all cuttings agree if and only if a TOO_LARGE is not found malformed within one recv and no other refusal is overtaken by the input limit |
| `HttpCuts.LongAgreeIff` | apps/webserv/src/Http.cpp:190-193 | Of a stream whose head passes its limit all cuttings agree if and only if no verdict but that refusal can count: the body limit is zero, or the input limit is not met and the end of the head is out of reach of a recv or what follows it is malformed |
| `CutInputs.LimitStrikes` | apps/webserv/src/Server.cpp:218-230 | For every body limit: a head of 65,530 bytes, a body at its limit and 100 bytes more is accepted or answered 413 depending on the cuts |
| `CutInputs.LongHeadStrikes` | apps/webserv/src/Http.cpp:192-193 | For every blank line from 65,534 on and within one recv of the head limit: the request is accepted or answered 400 depending on the cuts |
| `CutInputs.OversizedDependsOnCuts` | apps/webserv/src/Http.cpp:237-243 | A chunk too large and then a malformed size line is answered 413 or 400 depending on the cuts |
| `HttpPath.NormalIsFixedPoint` | apps/webserv/src/Http.cpp:99-119 | A path is in normal form if and only if normalising leaves it unchanged |
| `HttpPath.NormalizeMeans` | apps/webserv/src/Http.cpp:99-119 | Normalising fails exactly on a ".." segment and otherwise keeps the naming segments in order and one trailing slash |
| `HttpPath.AcceptedPathNormal` | apps/webserv/src/Http.cpp:77-120 | Every accepted path is normal and normalises to itself |
| `HttpPath.DecodePath` | apps/webserv/src/Http.cpp:77-120 | The two loops compute the decoded, normalised path or its refusal |
| `HttpPath.Unescape` | apps/webserv/src/Http.cpp:78-98 | The escape loop accepts and decodes exactly as the extractor reads each pair |
| `HttpPath.NormalizePath` | apps/webserv/src/Http.cpp:99-119 | The segment loop computes the normal form |
| `HttpPath.EscapeExactly` | apps/webserv/src/Http.cpp:83-90 | Exactly which escapes are accepted and the byte each gives: two hex digits of a non-control byte, or a minus and a non-zero digit |
| `HttpPath.EscapeStandardIff` | apps/webserv/src/Http.cpp:83-90 | An escape is taken as section 2.1 of RFC 3986 has it if and only if it is not a minus and a non-zero digit |
| `HttpPath.UnescapeInvertsEscape` | apps/webserv/src/Http.cpp:78-98 | Unescaping inverts escaping, whichever bytes the writer escaped |
| `Router.MatchLocation` | apps/webserv/src/Router.cpp:14-28 | The loop finds the longest location that is a boundary prefix of the path, first declared on a tie |
| `Router.BestMatchUnique` | apps/webserv/src/Router.cpp:14-28 | There is one such answer only |
| `Router.MethodAllowed` | apps/webserv/src/Router.cpp:6-12 | True exactly for a listed method |
| `Router.Resolve` | apps/webserv/src/Router.cpp:30-54 | Refused method, redirect or disk path, for the best location |
| `Router.RouteMeans` | apps/webserv/src/Router.cpp:30-54 | The methods of the location, or of the server without one, decide first; then the location's redirect; only then is a file named |
| `Router.DiskPathParts` | apps/webserv/src/Router.cpp:45-52 | The segments of the disk path are the root's followed by those of the path after the location |
| `Router.RoutedBelowRoot` | apps/webserv/src/Router.cpp:30-54 | A routed normal path names the root's segments followed by a suffix of its own, none of them "." or ".." |

## Left out

- `Client` and `Channel` are values inside the maps of the class, not classes of
  their own: `std::map` owns them by value and no two entries alias, so a change
  of one is an update of its map entry. The C++ references a handler holds
  into the map during a loop are not modelled.
- The connection record of the IRC server is kept in two maps with the same keys,
  `clients` and `ports`; erasing a connection erases both.
- History is added: `accepted` and `sent` of `Delivery.Port`, `heard`, `fed` and
  `serial` of a web connection, `accepted`, `responses` and `wire` of `Descriptors.Web`. No
  operation reads them to decide anything.
- Memory: a decoder that never ends may append for ever, and then the source fails
  for want of memory instead of looping; the verdict is `Endless` either way, and the
  server is `down` either way.
- An error on the listening socket, which throws and ends the IRC server, and the
  failures of `poll`.
- The 512-byte limit on outgoing IRC lines: the source does not enforce it.
- `Server::removeClient` and the default constructors: outside the running server.
- `phase` of a web connection is written and never read, so it is dropped.
- Clocks are parameters (`now`); signals, `fork`, `exec`, `kill` and `waitpid` appear
  only as outcomes.
- The contents of CAP, PING and PONG beyond their framing; PONG does nothing.
- Static files, uploads, deletion, response building (the parsing of a CGI's own
  headers included), the MIME table and security headers of webserv: thin branching
  over the file system. One error page per status stands for those of all servers.
- The configuration parsers: a configuration is given. The results about cuts, and
  `WebReads.DownNeedsWrap`, assume a `maxBody` of at most 16 MiB, which
  `apps/webserv/src/Config.cpp:334` enforces; no other result assumes a limit.
- Real-path and symbolic-link checks: `Router.RoutedBelowRoot` is about the name of
  the file, not about what the file system makes of it.
- TLS, the WebSocket gateway, the browser client, chat history, the rate limiter, `lab/`
  and `apps/webserv/prd/`.
