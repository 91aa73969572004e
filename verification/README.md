# Roomie: a verified model of the room server, its wire format and its clients' receive path

Roomie is a relay for small multiplayer games. Players meet in rooms; one of them, the host, owns
the game state and the server relays it to the others. This project models in Dafny the parts of
Roomie where operations interact: the room server, the message codec and framing, and two small
protocols of the connection code. It proves what they keep, over every run and every input.

## How it is laid out

**The room server.**
`RoomModel.dfy` and `ServerModel.dfy` give the server as values: a room, a world (pooled rooms, one
optional session per connection, closed channels, what each channel was handed) and the relation
`Next` between worlds. One step is one `dispatch` call together with the enqueueing of its replies,
one departure, or the closing of some channels. A Hello from a connection that already has a session
is a departure followed by an admission. Everything the code leaves open (which key a hash map
yields first, the order in which dead peers are found, generated codes, channels that close while a
message is being handled) is an explicit, arbitrary choice in the step.

`Network.dfy`, `Room.dfy` and `Server.dfy` hold the same server as objects changed in place:
`Network` (bounded queues that drop when full, channels that may close before any send), `Room` with
its broadcast and prune loops, `Server` with one method per message. `Server.Valid()` says that the
object stands at the end of a run of `Next`, and every public method is proved to extend that run
by the right steps, so whatever is proved of all runs holds of the object.

The run theorems are in `Ownership`, `Runs`, `Ids`, `Seating`, `Hosts`, `Authority`, `Agreement`,
`Leadership`, `Waiting`, `Traffic` and `Vocabulary`; `Gates` and `Commands` say in plain terms what each
message does and who is told; `Witnesses` holds runs of interest; `Pruning` and `Delivery` connect the
loops to the relation. A log (`sent`) is what was
offered to a channel while it was open; `taken` is the part that found room in the queue. The two
are equal exactly when nothing was dropped (`NothingDropped`), so the agreement theorems, which
speak of `sent`, speak of a client whose queue never overflowed; `MonotoneReads` holds for any part
of the log, so drops cannot hurt it. Where a theorem needs channels to close only between messages
it says `CalmRun`. `attached` names the sessions opened by joining the room instance now pooled:
a session can outlive its room (kicked, the room reclaimed, another one created under the same
code), and `ActsFromOutside` marks steps taken through such a left-over session.

**The wire.** `Wire`, `Json` and `Messages` define the format; `ClientDecoding` and `ServerDecoding`
are the two decoders; `Bincode` has the writer and the reader as objects with a buffer and a
position. `Framing` has the deframers of the C# and the GML client. `EndToEnd` joins framing,
decoding and the client's handlers to the logs of the server model, and `Clients` carries the run
theorems through queue and wire to what a client believes.

**Connection code.** `RateLimit` is the fixed-window limiter, `ConnectionCap` the shared counter.

`dafny verify dfyconfig.toml` checks everything.

## What turned out not to hold as one might expect

- A non-empty room is not always led by one of its clients. A host that kicks or bans itself, a
  newcomer let straight into a room where everyone is waiting, or a session left over from an earlier
  room under the same code leaves the lead with nobody: `HostKicksItself`, `NewcomerAmongWaiters` and
  `LeftOverSessionAccepts` are runs from the start of the server in which this happens.
  `CommandUnseatsIff` and `WelcomeUnseatsIff` say exactly which steps do it, `HostMembership` that no
  other step in that room does.
- With `accept_required`, waiting peers are not told of a change of host, so an accepted peer may name
  a leader that does not lead (`AcceptedButMisled` is such a run). `AcceptedAgreesIff` says exactly
  when a client names its host: if that host led when it joined, or if clients were told who leads
  since it became one. So a wrong belief lasts until the next announcement.
- Sides of a room are distinct up to 256 members and never beyond (`WelcomedSidesIff`,
  `CrowdSharesSlot`).
- An `Input` that fits a frame need not fit once it is relayed: `InputRelays` gives the exact
  condition, and five spare bytes are both enough and needed.
- An acceptor may reject a connection while one place is free (`RejectedWithAPlaceFree`): exactly when
  the other acceptor has yet to undo a rejection of its own (`RejectedIff`).
- On a frame that is too large the C# client disconnects, while the GML client discards what it has
  and goes on.
- The comment on `next_available_side` promises a slot in `0..max_players`; the scan includes
  `max_players`. `Welcomed` shows that the promise holds all the same, because a full room refuses
  first.
- The tags of the skipped game-specific value are those the C# reader documents. Nothing is claimed
  about the encoding `serde_json` itself would produce. It does not matter for what is on the wire:
  the server's decoder cannot read such a value, so none is ever in a room or in a message
  (`RunCustomless`).

## Model

| member | source | states |
|---|---|---|
| `ServerObjects.Server.Dispatch` | server/src/server/dispatch.rs:24-423 | One call extends the run the server stands on by exactly the steps due: a departure, a message, or a departure and then the Hello |
| `ServerObjects.Server.Handle` | server/src/server/mod.rs:341-346 | Handling a message and enqueueing its replies is one `Next` step of the state machine |
| `ServerObjects.Server.Depart` | server/src/server/mod.rs:368-371 | At the end of a connection its session is gone and the run grew by its departure, if it had one |
| `ServerObjects.Server.LeaveRoom` | server/src/server/mod.rs:377-410 | The seat goes, the others hear PeerLeft and, if the host left, the new host; an emptied room leaves the pool |
| `ServerObjects.Vacate` | server/src/server/mod.rs:388-403 | The two prunes of a departure and everything said in them, whatever closes meanwhile |
| `ServerObjects.Server.Hello` | server/src/server/dispatch.rs:43-224 | Admission from any state: validation, new or named room, refusals, seat, session, Joined and PeerJoined, as `Admits` says |
| `ServerObjects.Receive` | server/src/server/dispatch.rs:133-205 | What a room does with a Hello: ban, capacity and password in that order, id and slot, and the reply |
| `Gates.HelloOpensIff` | server/src/server/dispatch.rs:43-164 | A Hello opens a session if and only if it is valid and asks for a new room or names a pooled one that has not banned the caller, has a place, is given its password, and has an id left |
| `Gates.AdmissionEffect` | server/src/server/dispatch.rs:156-223 | The room found or made, the newcomer's record and place in it, the Joined it gets, and the PeerJoined the clients get exactly if it is one of them |
| `Gates.RefusalTold` | server/src/server/dispatch.rs:135-164 | Who is turned away at a room's door hears one error: ban before capacity before password; nothing else changes but the id counter |
| `Gates.HelloTurnedAway` | server/src/server/dispatch.rs:43-129 | A Hello that is not valid or names no pooled room changes nothing and gets one error |
| `Gates.BannedStayOut` | server/src/server/dispatch.rs:135-140 | Over every run, once a client's hash is banned no later Hello with that hash opens a session on the room while it stays pooled |
| `Gates.PasswordNeeded` | server/src/server/dispatch.rs:147-155 | Over every run, whoever enters a pooled room gave its password |
| `Gates.CaseFolds` | server/src/room/room.rs:15-20 | Two codes lead to one room if and only if they differ in ASCII case only |
| `ServerObjects.SeatIn` | server/src/server/dispatch.rs:166-216 | Host of an empty room, waiting, or client; only clients already there are told of a newcomer seated among them |
| `ServerObjects.Server.Move` | server/src/server/dispatch.rs:225-262 | A host's move with enough players becomes the state and is broadcast before MoveAccepted; any other is refused and changes nothing |
| `Gates.MoveTaken` | server/src/server/dispatch.rs:246-261 | A move from the host's session with at least `min_players` clients becomes the state, is the first thing every open member hears, and is acknowledged last |
| `Gates.MoveRefused` | server/src/server/dispatch.rs:240-258 | Any other move changes nothing and only its sender hears, why |
| `Witnesses.HostMoves` | server/src/server/dispatch.rs:246-261 | A run in which a host with exactly the minimum of players moves |
| `ServerObjects.Server.Input` | server/src/server/dispatch.rs:263-286 | An input is relayed to the host alone, never back to the host itself |
| `Gates.InputRelayed` | server/src/server/dispatch.rs:277-285 | Exactly the host's log grows, by exactly the input under its sender's id, and no log if the host sent it or is no client |
| `Vocabulary.InputsAnswered` | server/src/server/dispatch.rs:277-285 | Over every run each PeerInput in a log answers an input from the session bearing that id in the receiver's room |
| `ServerObjects.Server.Control` | server/src/server/dispatch.rs:287-386 | Commands work for the host only; everybody else gets an error and nothing changes |
| `ServerObjects.Perform` | server/src/server/dispatch.rs:323-385 | Each host command's new room, private notice and broadcast |
| `Commands.UpdateSettingsDoes` | server/src/server/dispatch.rs:325-333 | The settings are taken over whole and announced to every client without the password |
| `Commands.SetPublicDoes` | server/src/server/dispatch.rs:334-336 | The flag becomes the one asked for, and nobody hears of it |
| `Commands.AcceptDoes` | server/src/server/dispatch.rs:337-351 | The peer moves from waiting to client with its record, and all clients hear of it |
| `Commands.DenyDoes` | server/src/server/dispatch.rs:352-356 | The peer stops waiting and is told, and nobody else hears anything |
| `Commands.ExpelDoes` | server/src/server/dispatch.rs:357-369 | The client kicked or banned is gone and told which, the others hear it left, and a ban, only a ban, records its hash |
| `Commands.TransferDoes` | server/src/server/dispatch.rs:370-378 | The lead goes to the client named if it is open, and every client hears of it |
| `Commands.VainDoes` | server/src/server/dispatch.rs:337-377 | Accepting or denying nobody, or leading over to no client, does nothing |
| `Commands.StrangersCommand` | server/src/server/dispatch.rs:379-384 | A command from anybody but the host changes nothing and gets an error |
| `Vocabulary.RunPasswordless` | server/src/server/dispatch.rs:196-205 | Over every run no message ever sent carries a password |
| `ServerObjects.Remove` | server/src/server/dispatch.rs:357-369 | Kick and ban: notice to the removed client, ban recorded, PeerLeft to the rest, prune |
| `ServerObjects.Server.RequestState` | server/src/server/dispatch.rs:387-400 | The current state is sent to the asker alone, and nothing when it is empty |
| `Gates.StateRequested` | server/src/server/dispatch.rs:387-400 | The asker's log grows by exactly the state, if its room has one, and no other log at all |
| `Gates.RoomlessTold` | server/src/server/dispatch.rs:226-238 | Without a room to act on nothing changes and the sender hears exactly the error due, if any |
| `ServerObjects.Server.ListRooms` | server/src/server/dispatch.rs:404-420 | The reply lists the app's open public rooms and nothing else changes |
| `Gates.ListAnswered` | server/src/server/dispatch.rs:404-420 | The listing, or an error for an unknown app, goes to the asker alone |
| `Gates.ListedIff` | server/src/room/pool.rs:117-134 | A room is listed if and only if it is the app's, public, and has a place left |
| `ServerObjects.Server.TryInsertNewRoom` | server/src/room/pool.rs:44-62 | Inserts a fresh room exactly when no room has that code in any case; never replaces one |
| `ServerObjects.Server.CreateRoom` | server/src/room/pool.rs:66-90 | A new room under the requested, a drawn or a counted code; fails only if the last code tried is taken |
| `ServerObjects.Server.RemoveIfEmpty` | server/src/room/pool.rs:95-104 | Removes the room exactly when it has neither clients nor waiting peers |
| `ServerObjects.Server.ListPublicRooms` | server/src/room/pool.rs:117-134 | Each public room that is not full once, with its count and without its password, and no other |
| `ServerObjects.Server.Standing` | server/src/server/mod.rs:377-410 | At any time each seat is the one named by its connection's session, and without sessions no room is pooled |
| `RoomObjects.Room.NextPeerId` | server/src/room/room.rs:118-133 | The counter if free, else the first free id in cyclic order, else nothing because all are taken; the counter after it |
| `RoomObjects.Room.NextAvailableSide` | server/src/room/room.rs:136-154 | The lowest unused slot of the inclusive scan, or 0 if there is none |
| `RoomObjects.Room.Door` | server/src/server/dispatch.rs:135-155 | The first reason to refuse a newcomer, in the order ban, capacity, password |
| `RoomObjects.Room.Sweep` | server/src/room/room.rs:173-177 | Every listener with an open channel is offered the message once, the others are listed as dead, in any order |
| `RoomObjects.Room.DropDead` | server/src/room/room.rs:178-184 | Exactly the dead go; a lost host is replaced by some remaining client, or by nobody |
| `RoomObjects.Room.BroadcastRetainConnected` | server/src/room/room.rs:170-186 | One broadcast: clients closed before it are dropped, open ones stay and were offered the message, the lead passes on |
| `RoomObjects.Room.BroadcastStateUpdateRetainConnected` | server/src/room/room.rs:190-213 | The same for clients and waiting peers together |
| `RoomObjects.Room.AnnounceDead` | server/src/server/mod.rs:167-182 | The rounds of PeerLeft end whatever closes meanwhile, every death is announced, and the leader last |
| `RoomObjects.Room.BroadcastAndPrune` | server/src/server/mod.rs:165-183 | The finished prune in one statement: who is gone, who leads, and what each connection was told |
| `RoomObjects.Room.BroadcastStateUpdateAndPrune` | server/src/server/mod.rs:187-205 | The same for a state update, of which waiting peers hear the state only |
| `RoomObjects.Shrinks` | server/src/server/mod.rs:167-177 | Each death found costs the room a client: the measure of the announcing loop |
| `Pruning.PruneContract` | server/src/server/mod.rs:165-205 | For messages and states alike: only closed peers go, a full queue never costs a seat, survivors with room get exactly one PeerLeft for each peer gone, waiting ones included, and none for others, and last the true host if the host went |
| `Pruning.PruneContinues` | server/src/server/mod.rs:169-175 | One more announcement keeps the account of a prune under way |
| `Pruning.PruneEndsWithTransfer` | server/src/server/mod.rs:178-182 | The closing HostTransferred broadcast ends a prune, even if it finds further peers dead |
| `Networking.Network.TrySend` | server/src/room/room.rs:98-100 | Closed is reported exactly for closed channels; a full queue drops the message and keeps the channel |
| `Networking.NothingDropped` | server/src/server/mod.rs:32-34 | What a queue took in is a subsequence of what it was offered, and all of it exactly if nothing was dropped |
| `Delivery.PruneExchange` | server/src/server/mod.rs:165-183 | A finished prune offered its whole script to every client still open and a prefix of it to those that closed |
| `Delivery.StateExchange` | server/src/server/mod.rs:187-205 | The same for a state update, with waiting peers |
| `Delivery.LeaveExchange` | server/src/server/mod.rs:392-400 | The two prunes of a departure add up to one script |
| `Ownership.NextOwned` | server/src/server/dispatch.rs:24-423 | Every step keeps: each seat is the one its connection's session names, every pooled room is named by a session |
| `Ownership.FreshRoomAdmits` | server/src/server/dispatch.rs:92-164 | A room just created refuses its creator nothing and gives it id 1 |
| `Runs.OneSeatPerConnection` | server/src/server/dispatch.rs:40-42 | Over every run a connection holds at most one seat in the whole server, under the id and room of its session |
| `Runs.RoomsReclaimed` | server/src/server/mod.rs:402-410 | Over every run each pooled room is named by a live session, so no room outlives the last one |
| `Ids.AllocatorSound` | server/src/room/room.rs:118-133 | Never 0, never an id in use, and nothing exactly when all ids from 1 to the largest are in use |
| `Ids.KthJoinGetsK` | server/src/room/room.rs:118-133 | Over every run the k-th join of a room gets id k, until ids run out |
| `Ids.RunIds` | server/src/server/dispatch.rs:156-182 | Over every run ids handed out by a room are at most its joins and never shared by two of its sessions before the counter saturates |
| `Seating.CountsFit` | server/src/room/room.rs:156-162 | The casts of member counts to 32 bits never truncate, so the capacity test is the one intended |
| `Seating.RoomLeftMeansIdLeft` | server/src/server/dispatch.rs:141-164 | With a player limit, passing the capacity gate guarantees a free id |
| `Seating.WelcomedSidesIff` | server/src/room/room.rs:136-154 | A join into a room of distinct sides keeps them distinct if and only if the room had fewer than 256 members |
| `Seating.DistinctSidesFew` | server/src/room/room.rs:136-154 | No room of more than 256 members has distinct sides |
| `Witnesses.CrowdSharesSlot` | server/src/room/room.rs:136-154 | A run in which 257 players join one unlimited room, two of whom share a slot |
| `Seating.SideFresh` | server/src/room/room.rs:136-154 | Below 256 members a room that is not full has a free slot, below `max_players` when that is set |
| `Seating.Welcomed` | server/src/server/dispatch.rs:141-182 | A join adds exactly one member, never exceeds the limit, and with a limit always gets a side below it |
| `Seating.SidesStayDistinct` | server/src/room/room.rs:136-154 | Over every run, while a room holds at most 256 members their sides are pairwise distinct, whatever other rooms hold |
| `Vocabulary.MembersKnowSeats` | server/src/server/dispatch.rs:196-205 | Over every run the last Joined an open member was sent names its own id and side and a code of its room |
| `Seating.ListingAgreesWithAdmission` | server/src/room/pool.rs:117-134 | A listed room admits every caller that is not banned and knows the password, shows its true count; an unlisted public room refuses everybody |
| `Hosts.CommandUnseatsIff` | server/src/server/dispatch.rs:321-378 | A host command leaves clients without a seated host if and only if the host expels itself with another open client there, or an absent host accepts somebody |
| `Hosts.WelcomeUnseatsIff` | server/src/server/dispatch.rs:172-182 | An admission does so if and only if it enters a room with only waiting peers and the waiting list off, under another id than the host's |
| `Witnesses.HostKicksItself` | server/src/server/dispatch.rs:357-362 | A run in which a host kicks itself and leaves a client that nobody leads |
| `Witnesses.NewcomerAmongWaiters` | server/src/server/dispatch.rs:179-182 | A run in which a newcomer enters a room of waiting peers without becoming its host |
| `Witnesses.LeftOverSessionAccepts` | server/src/server/dispatch.rs:337-351 | A run in which a session left over from a reclaimed room, bearing the id of the absent host of a new one, accepts a waiting peer that nobody leads |
| `Hosts.HostsStaySeated` | server/src/room/room.rs:178-184 | Over every run, a room in which none of those three kinds of step happens is led by one of its clients whenever it has any |
| `Hosts.HostMembership` | server/src/server/mod.rs:388-402 | The same needing only, of that room: no self-expulsion, no late entry, no left-over session acting on it, and no more joins than ids |
| `Authority.MoveAuthority` | server/src/server/dispatch.rs:240-258 | A move is accepted only from the session of the host and with at least `min_players` clients |
| `Authority.StateStep` | server/src/server/dispatch.rs:259-261 | A room's state changes by accepted moves and by nothing else |
| `Authority.MonotoneReads` | server/src/server/dispatch.rs:183-187 | Over every run the state is the last accepted move, and the states in any part of an open session's log never go back |
| `Authority.MembersUpToDate` | server/src/room/room.rs:190-213 | Over every run the latest state sent to an open member is the room's |
| `Histories.ForwardPositions` | server/src/server/dispatch.rs:387-400 | Reading forward means showing moves at positions that never decrease |
| `Agreement.RunInformed` | server/src/server/mod.rs:165-205 | Over every calm run every open client was told all it needs about lead and roster, in every room |
| `Agreement.LeaderAgreement` | clients/csharp/RoomieClient.cs:83-124 | Over every calm run an open client that never waited names the server's host and itself correctly |
| `Agreement.RosterAgreement` | server/src/server/dispatch.rs:206-216 | Over every calm run an open client's roster is exactly the clients admitted after it, with or without a waiting list |
| `Leadership.OneLeader` | clients/csharp/RoomieClient.cs:83-124 | While `accept_required` is never set, every open client names the server's host and only the host takes itself for it |
| `Leadership.ExactlyOneLeader` | clients/csharp/RoomieClient.cs:83-83 | At most one open client has `IsHost`, and exactly the host does whenever it is an open client |
| `Leadership.WaitingMissesTransfers` | server/src/room/room.rs:170-177 | While a peer waits nothing reaches it about the lead |
| `Leadership.TransferMisleadsWaiters` | server/src/server/dispatch.rs:370-378 | One transfer leaves every waiting peer that knew the host naming somebody who does not lead |
| `Waiting.StepHeeds` | server/src/room/room.rs:170-177 | In one calm step a client that stays, or is accepted, names the new host if the lead moved or was announced, and otherwise whom it named before |
| `Waiting.WaitingNames` | server/src/server/dispatch.rs:176-187 | Over every calm run a waiting peer names the host that led when it joined |
| `Waiting.ClientNames` | server/src/server/dispatch.rs:337-378 | Over every calm run, with or without a waiting list, the host a client names: the present one after an announcement since it became a client, else the one that led when it joined |
| `Waiting.AcceptedAgreesIff` | server/src/server/dispatch.rs:337-378 | So it names its host if and only if that host led when it joined or there was such an announcement |
| `Witnesses.AcceptedButMisled` | server/src/server/dispatch.rs:337-378 | A run in which a peer waits through a transfer, is accepted, and names the former host |
| `Wire.VarintRoundTrip` | clients/csharp/BincodeReader.cs:39-71 | Every 64-bit number is read back, and exactly its bytes are used |
| `Wire.VarintPrefixFree` | clients/csharp/BincodeWriter.cs:15-43 | No encoding is the beginning of another |
| `Wire.VarintShortest` | clients/csharp/BincodeWriter.cs:15-43 | Of all byte strings that read as a number the writer's is the shortest, and the only one of its length |
| `Wire.BlockRoundTrip` | clients/csharp/BincodeReader.cs:75-108 | Strings and byte arrays within their limit are read back exactly |
| `Wire.OptStringRoundTrip` | clients/csharp/BincodeReader.cs:90-95 | Optional strings are read back, absent ones too |
| `Bincode.BincodeWriter.WriteVarint` | clients/csharp/BincodeWriter.cs:15-43 | Appends exactly the format's bytes, for all four widths |
| `Bincode.BincodeWriter.WriteString` | clients/csharp/BincodeWriter.cs:49-54 | Appends length and bytes |
| `Bincode.BincodeWriter.WriteOptString` | clients/csharp/BincodeWriter.cs:56-67 | Appends the tag and, if present, the string |
| `Bincode.BincodeWriter.WriteSettings` | clients/csharp/Protocol.cs:30-38 | Appends the settings with the game-specific value absent |
| `Bincode.EncodeClient` | clients/csharp/Protocol.cs:98-246 | Each encoder yields the format's bytes for its message |
| `Bincode.WrittenIsAsked` | clients/csharp/Protocol.cs:98-246 | What is written for a message is read by the server as that message, field by field, with the code normalised and no game-specific value |
| `Bincode.BincodeReader.ReadVarint` | clients/csharp/BincodeReader.cs:39-71 | Reads as the format says and moves past exactly those bytes, or fails |
| `Bincode.BincodeReader.ReadBlock` | clients/csharp/BincodeReader.cs:75-108 | The same for a counted block with a limit |
| `Bincode.BincodeReader.ReadOptString` | clients/csharp/BincodeReader.cs:90-95 | The same for an optional string, any tag but 0 meaning present |
| `Bincode.BincodeReader.SkipBincodeJsonValue` | clients/csharp/BincodeReader.cs:115-152 | Ends on any bytes, within bounds, strictly further on or with an error, where the skipping function says |
| `Bincode.ReadSettings` | clients/csharp/Protocol.cs:17-28 | Reads settings as the format says |
| `Bincode.ReadEntries` | clients/csharp/Protocol.cs:310-319 | The loop over list entries, which stops early at the end of the payload |
| `Bincode.DecodeAndDispatch` | clients/csharp/Protocol.cs:288-393 | The handler called and its arguments, for every payload; unknown tags call none |
| `Json.Skip` | clients/csharp/BincodeReader.cs:110-152 | On any bytes: failure, or a proper suffix of the input |
| `Json.SkipExact` | clients/csharp/BincodeReader.cs:110-152 | After any value tree of the grammar, skipping stops exactly at what follows it |
| `ClientDecoding.SettingsRoundTrip` | clients/csharp/Protocol.cs:17-38 | Settings are read back, less the game-specific value |
| `ClientDecoding.ServerRoundTrip` | clients/csharp/Protocol.cs:288-393 | Every server message within the client's limits is delivered as sent, whatever bytes follow, and exactly its bytes are used |
| `ClientDecoding.Lenient` | clients/csharp/BincodeReader.cs:31-95 | Any flag but 0 is true, any option tag but 0 announces a value, and wide numbers lose their upper half |
| `ClientDecoding.UnknownTags` | clients/csharp/Protocol.cs:288-393 | Unknown messages and events are ignored; unknown variants of a skipped value are errors |
| `ClientDecoding.BlockLimits` | clients/csharp/BincodeReader.cs:75-108 | Strings beyond 2^31-1 bytes, byte arrays beyond 65536, and blocks cut short are errors |
| `ClientDecoding.EncodedIsDelivered` | server/src/protocol/messages.rs:65-111 | Every message that fits a frame, with game-specific values absent or written by the documented grammar, is delivered as sent, to the last byte |
| `ServerDecoding.DecodedPlain` | server/src/protocol/messages.rs:43-53 | No settings that reach the server hold a game-specific value |
| `Traffic.RunCustomless` | server/src/room/room.rs:55-66 | Over every run of decodable messages no room and no message sent ever holds a game-specific value |
| `Clients.SentIsDelivered` | server/src/protocol/messages.rs:65-111 | Whatever such a run sends and can encode is delivered exactly as it was sent, to the last byte |
| `ServerDecoding.ClientRoundTrip` | server/src/protocol/messages.rs:18-53 | Every message a client writes is read back with its room code normalised, and exactly its bytes are used |
| `ServerDecoding.SentIsUnderstood` | server/src/protocol/messages.rs:117-122 | A message that fits a frame passes the decoder's limit, whatever trails it |
| `ServerDecoding.RefusesTags` | server/src/protocol/messages.rs:18-53 | Unknown tags and numbers beyond 32 bits are refused |
| `Messages.ClientTags` | server/src/protocol/messages.rs:18-53 | Each client message and command starts with its place in the declared order |
| `Messages.ServerTags` | server/src/protocol/messages.rs:65-111 | Each server message and event starts with its place in the declared order |
| `ServerDecoding.UnderstoodStable` | server/src/room/room.rs:41-51 | Normalising again changes nothing, nor does normalising a code of the server's own making |
| `RoomCodes.NormaliseFilters` | server/src/room/room.rs:41-51 | Trimming adds nothing to the filter |
| `RoomCodes.NormaliseIdempotent` | server/src/room/room.rs:41-51 | Idempotent, and the identity exactly on codes of letters and digits |
| `RoomCodes.NormaliseKeeps` | server/src/room/room.rs:41-51 | The result is the input's letters and digits, in order and as often as they stood there, and nothing else |
| `RoomCodes.DecimalReadsBack` | server/src/room/pool.rs:87-89 | A counted code names the number it counts |
| `RoomCodes.GeneratedCodesNormal` | server/src/room/pool.rs:75-89 | Drawn and counted codes are unchanged by normalisation |
| `RoomCodes.LongestCode` | server/src/room/pool.rs:87-89 | The longest code the server makes up has 21 bytes |
| `Traffic.RunCodes` | server/src/room/pool.rs:66-90 | Over every run the codes of pooled rooms have at most 21 bytes |
| `Messages.MoveRelays` | server/src/server/dispatch.rs:259-261 | A move and the state update it becomes have the same size, so every move that fits can be relayed |
| `Messages.InputRelays` | server/src/server/dispatch.rs:277-285 | An input can be relayed if and only if the sender's id still fits; with five bytes to spare it always can |
| `Messages.InputRelayTight` | server/src/server/dispatch.rs:277-285 | With fewer than five bytes to spare some sender's input cannot be relayed |
| `Messages.JoinedFits` | server/src/server/dispatch.rs:196-205 | A state of at most 65505 bytes less the room code, so 65473 beside the longest code a Hello may carry, always fits in Joined, for all ids and limits and settings without password and custom value |
| `Messages.JoinedLimitTight` | server/src/server/dispatch.rs:196-205 | One byte more need not fit, whatever the code; with `LongestCode` the limit for pooled rooms is 65484 |
| `Framing.HeadOfFrame` | clients/csharp/RoomieClient.cs:358-365 | A frame as sent is recognised with exactly its payload, whatever follows |
| `Framing.BuildFrame` | clients/csharp/RoomieClient.cs:343-365 | The bytes `SendPayload` writes, or a refusal for a payload that is too large |
| `Framing.RoomieClient.TryProcessFrame` | clients/csharp/RoomieClient.cs:386-421 | Takes off exactly one complete frame, waits for more, or disconnects and clears the buffer |
| `Framing.RoomieClient.PollChunk` | clients/csharp/RoomieClient.cs:279-332 | After a poll the complete frames are dispatched in order and the rest is kept |
| `Framing.ChunkingIrrelevant` | clients/csharp/RoomieClient.cs:319-325 | Any stream, however cut and polled, gives the same payloads and leaves the same buffer |
| `Framing.FramesArrive` | clients/csharp/RoomieClient.cs:358-421 | A concatenation of frames gives exactly their payloads and an empty buffer |
| `Framing.GmlClient.Compact` | clients/gml/roomie_client.gml:281-291 | Compaction keeps the unread bytes |
| `Framing.GmlClient.PollFrames` | clients/gml/roomie_client.gml:207-293 | The buffer with a read offset delivers what one that removes each frame at once would, and keeps the same bytes unread |
| `Framing.FeedBoth` | clients/gml/roomie_client.gml:207-293 | Both clients, fed the same frames in the same chunks, dispatch exactly those payloads and have nothing left |
| `EndToEnd.LogReachesView` | clients/csharp/RoomieClient.cs:102-130 | However the stream of a message log is cut, the client ends with exactly the view of that log |
| `Traffic.JoinedReplyFits` | server/src/server/dispatch.rs:183-205 | Over every run of decodable messages the Joined reply to any admission fits a frame as long as the room's state has at most 65484 bytes, whatever its password |
| `Clients.ArrivedIsSent` | server/src/server/mod.rs:353-362 | A client whose queue dropped nothing, fed its stream in any chunks, believes what its log says |
| `Clients.ClientKnowsItsRoom` | clients/csharp/RoomieClient.cs:83-124 | On a calm run without a waiting list such a client knows its id and host, has `IsHost` exactly if it leads, and lists exactly the clients that came after it |
| `Clients.TakenReads` | server/src/server/mod.rs:32-34 | What a session's queue took in since it joined, drops or not, shows the accepted moves in order |
| `EndToEnd.ClientSession.Receive` | clients/csharp/RoomieClient.cs:105-124 | The handlers set own id and host as the view says |
| `EndToEnd.ClientSession.IsHost` | clients/csharp/RoomieClient.cs:83-83 | The property is the view's |
| `RateLimit.RateLimiter.Allow` | server/src/server/mod.rs:322-330 | One frame counted, a new window if the old one is over |
| `RateLimit.RateBound` | server/src/server/mod.rs:322-330 | At most 400 frames pass in any half-open second, for every sequence of arrivals |
| `RateLimit.WindowBound` | server/src/server/mod.rs:39-41 | At most 200 pass in any window |
| `RateLimit.RateBoundReached` | server/src/server/mod.rs:322-330 | A sequence of arrivals for which 400 pass |
| `ConnectionCap.CapHolds` | server/src/server/mod.rs:91-99 | Under every interleaving the counter is admitted plus not yet undone, never negative, and at most the limit are admitted |
| `ConnectionCap.RejectedIff` | server/src/server/mod.rs:121-129 | An acceptor rejects if and only if the server is full, or one short of it while the other acceptor undoes a rejection |
| `ConnectionCap.RejectedWithAPlaceFree` | server/src/server/mod.rs:91-99 | A run in which a connection is rejected with one place free |
| `ConnectionCap.ConnectionCounter.Accept` | server/src/server/mod.rs:121-126 | Raise, then test the previous value: one step of the protocol |
| `ConnectionCap.ConnectionCounter.DropGuard` | server/src/server/mod.rs:46-51 | A connection's end lowers the counter, which stays non-negative |

## Left out

- Sockets, tasks, timers, the WebSocket handshake, TLS, the JavaScript bridge and the HTTP statistics.
- Interleavings finer than one `dispatch` call with its replies: a room looked up and then locked by another task, or `try_lock` failing in `remove_if_empty`.
- The replies of the connection loops themselves to frames that are too short or do not decode.
- Pools per app: one map keyed by app key and case-folded code stands for them; an app without a pool and an app with an empty one answer alike. Case folding is ASCII.
- `room_and_player_counts`, which sums over the pool for statistics, and `send_to_retain_connected`, which no handler calls.
- Loading of app configurations: an app is registered or not, and its default settings have any limits and no password.
- The shared app secret is read once, as part of the configuration, instead of at each Hello.
- A queued message too large to encode ends the connection it is for; logs hold messages as they were queued, and `EndToEnd` speaks of messages that can be encoded.
- The quality of random codes: each character is an arbitrary choice from the alphabet.
- UTF-8 validity and the contents of game-specific values; trimming of room codes is ASCII, which the filter after it makes irrelevant.
- The C++ client and the GML decoders and encoders.
- Handlers that call back into their client while it is being polled.
- Framing.GmlClient.PollFrames: a frame of length 0 is treated like any other, although the original would create an empty buffer for it.
- ServerDecoding.SentIsUnderstood: bincode's limit is modelled as a bound on the bytes consumed, its own bookkeeping is not.
- ServerObjects.Server.Dispatch: the replies are enqueued by the arm that makes them rather than returned and enqueued by the caller, which is the same step.
