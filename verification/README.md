# Verification of the gochatx gateway

This project models the chat gateway of gochatx and proves what it promises about rooms, delivery,
presence, locking and rate limiting. To check it: `dafny verify dfyconfig.toml` (Dafny 4.11).

## What is modelled

**Handler-step level.** One event is one frame handled by a read loop, one disconnect, one admin
request, one turn of a writer goroutine, or one finished save goroutine. `GatewayModel` gives the
effect of every event part by part (sessions, channels, rooms, online table, roles, collection,
pending and failed saves). `GatewayServer` and `Rooms` are the same handlers in the source's own form,
classes whose methods update the tables in place with the source's loops; each handler is proved to
perform exactly the model's step. `Membership`, `EndedConnections`, `Delivery`, `LostMessages`,
`Recipients` and `Presence` prove properties of every run of the model, and so of those classes.

**Lock level.** `LockStep` has one thread per connection. Announcing, entering and leaving a
`sync.RWMutex` and each access to a shared map in between are separate steps, and any number of
threads interleave freely. As in Go, an announced writer keeps new readers out. `LockDiscipline`,
`Progress`, `Quiescence`, `RoomRegistry`, `Cleanup`, `ClosedChannel`, `Fifo`, `LostJoin` and
`JoinOutcome` prove properties of every interleaving; `Scripts` builds the runs that show what can
happen. `Crash` adds the one step this machine leaves out, the panic of a send on a closed channel.

**Channels, store, limiter, bans.** `Channels` is the 256-slot outgoing channel with non-blocking
sends, `MessageStore` the message collection with its delivered flag, `SlidingWindow` the Redis
limiter of the REST routes. Two things that are one step above are taken apart in modules of their
own: `SplitPull` has the find and the update of a pull of offline messages as separate commands, and
`BanRace` the role check and the registration of a login, and the update and the disconnect of a ban.

Assumptions, stated once:

- Handler-step level: the steps above are atomic, and so is one pull of offline messages. What goes
  wrong with pulls and bans that are not atomic, and exactly when, is proved in `SplitPull` and
  `BanRace`. There, reading the cursor of a find is one step.
- User ids that the auth service confirms are spelled as the database stores them. A ban or unban
  names a user by any string: the database compares it as a number, the online table as a string, so
  the event carries both readings (migrations/001_create_users.up.sql:2, internal/gateway/api.go:239, 252).
- The auth service is an oracle that answers each token with a user or not. The databases and the
  store may fail at any time; whether they do is part of the event. Which 200 documents a pull
  returns, and in which order, is arbitrary. Go's map order is arbitrary.
- The limiter's clock never runs backwards, each Redis pipeline applies as one step, all callers of
  one key use the same window, and the time to live that EXPIRE sets covers the window.
- "No identity switch" means that all successful logins of one connection name the same user. Where
  it is needed it is a hypothesis, and `IdentitySwitchLeavesAMember` shows what happens without it.

Places where the code differs from what is written about it; the model follows the code:

- The repository's README.md:247 lists the login limit (10 per minute) and the register limit (5 per minute) as
  separate, but both routes use the key `login:<ip>` (cmd/gateway/main.go:162-163,
  internal/gateway/middleware.go:95-98) and count each other's requests.
- internal/gateway/room.go:76 says that `removeEmptyRoom` checks and removes atomically. It releases
  the room's lock between the two, and `addClient` does not take `roomsMu`: a member can be dropped
  with the room. `LostJoin` proves exactly when, and that it happens.
- A join can be lost without that, and an atomic removal would not help: the handler obtains the room
  first and adds the client later (internal/gateway/ws_handle.go:195-196), and the room may have been
  removed, empty, in between. `JoinOutcome` proves exactly which joins land in the registered room,
  whichever way the room goes, and shows a join that comes too late.
- internal/gateway/middleware.go:94 says that the login key holds the user name; it holds the address only.
- `break` after a refused login (internal/gateway/ws_handle.go:155-159, 173-177) leaves the `switch`,
  not the read loop, so frames already buffered are still handled on the closed connection.
- The limit bounds distinct milliseconds, not requests: the timestamp is the set member, so requests
  of one millisecond collapse. It bounds requests exactly when it is at most one
  (`LimitBoundsRequestsIff`). Rejected requests are recorded as well.
- internal/storage/mango.go:138 says that failing on an update error prevents duplicate delivery. It
  does not for two overlapping pulls, which return some message twice whenever 1 to 399 are waiting
  (`InterleavedPullsRepeat`).
- A private message to the empty name is stored without a recipient (internal/storage/mango.go:18),
  so no login ever pulls it (`UndeliveredUntilLogin`).
- A private message counts as delivered once it has been offered, even when the channel was full and
  dropped it: the live path saves it so, the pull has marked it already
  (internal/gateway/ws_handle.go:271-284, 394-411). `LostMessages` proves which messages are lost.
- The outgoing channel is closed when a connection's handler returns (internal/gateway/ws_handle.go:83),
  though an operation may still hold it. `ClosedChannel` proves exactly when, and that it happens. In
  Go such a send panics, past the sender's own cleanup. In the lock-level machine the sender goes on,
  so a run describes the source up to the first such send. `Crash` describes the panic itself: the
  sender gives up its room lock, stays in the tables, and its own channel is closed, so that the next
  one to send to it can panic as well.

## Model

| member | source | states |
|---|---|---|
| `Membership.RoomsRefineMembership` | internal/gateway/ws_handle.go:189-213 | After any run, user u is in room r exactly when the latest join, leave or disconnect concerning (r, u) is a join, and the stored client is the one that made it; creating and deleting rooms never shows. |
| `Membership.StepLookup` | internal/gateway/room.go:22-32 | Every kind of step changes a membership only by a join, a leave or a disconnect of that very user. |
| `Membership.SweepMeaning` | internal/gateway/ws_handle.go:346-362 | The cleanup takes the user out of every room, keeps every other membership, drops exactly the rooms in which the user was alone, and leaves rooms that were empty before. |
| `Membership.EmptyRoomIff` | internal/gateway/room.go:59-89 | A registered room is empty exactly when a send created it while absent and no join or leave followed. |
| `Membership.EmptyRoomAccounting` | internal/gateway/ws_handle.go:215-235 | Empty registered rooms never outnumber the sends to unregistered rooms; with no such send there are none. |
| `Membership.UnreachableAfterDisconnectIff` | internal/gateway/ws_handle.go:345-363 | A disconnect leaves the connection unreachable exactly when everything that led to it was filed under its last name. |
| `Membership.StaysUnreachable` | internal/gateway/ws_handle.go:345-363 | No later event makes an ended, unreachable connection reachable again. |
| `Membership.IdentitySwitchLeavesAMember` | internal/gateway/ws_handle.go:143-180 | In every mode, joining, logging in as somebody else and disconnecting leaves a room leading to the ended connection: the hypothesis above is needed. |
| `EndedConnections.EndedIsNeverOffered` | internal/gateway/ws_handle.go:345-375 | Without identity switch no step of any run offers an ended connection a frame, and nothing leads to it. |
| `EndedConnections.EndedOfferedIff` | internal/gateway/ws_handle.go:345-375 | After any run, identity switches included, an ended connection can still be offered a frame exactly when a registered room or the online table leads to it. |
| `Membership.RunWellFormed` | internal/gateway/clients.go:25-42 | In every run clients are filed under their own names and on connections that exist. |
| `Delivery.ChannelConservation` | internal/gateway/ws_handle.go:82-95 | In every run every channel holds at most 256 frames, taken then queued frames are a subsequence of the offers, and taken, queued and dropped frames together are the frames offered. |
| `Delivery.StepOffers` | internal/gateway/ws_handle.go:414-425 | Which frames a step offers to which connection, in which order. |
| `Delivery.SeveralCopiesIff` | internal/gateway/room.go:42-52 | One send offers a connection several copies exactly when the room lists it under several names. |
| `Delivery.OfflineConservation` | internal/gateway/ws_handle.go:291-306 | Every message handed to the store is at all later times in exactly one of: save pending, save failed, stored undelivered, stored delivered. |
| `Delivery.DocsOnlyAdvance` | internal/storage/mango.go:138-144 | Stored messages stay, keep their content, and are never marked undelivered again. |
| `Delivery.DeliveredOnlyByPull` | internal/storage/mango.go:113-147 | A message turns delivered only in a login of its recipient, and then it was offered to that connection, or more than 200 were waiting, or the update failed half way. |
| `Delivery.LoginOffersWaiting` | internal/gateway/ws_handle.go:378-412 | A successful pull that finds at most 200 waiting messages offers each of them to the login's connection. |
| `Delivery.AtMostOnceDelivery` | internal/gateway/ws_handle.go:271-306 | Over every run each private message is offered to at most one channel, at most once, live path and offline pull together; once offered it is never waiting again. |
| `LostMessages.StepRecords` | internal/gateway/ws_handle.go:394-425 | A private message that a step offers, live or pulled, is accepted exactly when fewer than 256 frames are ahead of it in the channel, and dropped otherwise. |
| `LostMessages.ArrivesIff` | internal/gateway/ws_handle.go:271-284 | Over every run a message once offered has reached some channel at every later moment exactly when that offer was accepted, and it is never waiting again: a dropped one is lost for good, delivered flag or not. |
| `Delivery.PushFitsIff` | internal/gateway/ws_handle.go:394-411 | A login queues all pulled messages and then `authed`, in pull order, exactly when the channel has room for them; they are never more than 201; after a successful pull nothing is left undelivered. |
| `Delivery.FirstLoginPushesEverything` | internal/gateway/ws_handle.go:180-187 | A login that is its connection's first frame finds an empty channel in every run, so it drops nothing. |
| `Recipients.OnlyAddresseesAreOffered` | internal/gateway/ws_handle.go:215-275 | In every run a private message is offered only to connections that logged in as its recipient, a room message only to connections that joined the room. |
| `Recipients.UndeliveredUntilLogin` | internal/gateway/ws_handle.go:291-306 | A message left for an absent user stays pending or stored undelivered, or its save failed, until that user logs in; one for the empty name for ever. |
| `Presence.BannedStayClosedIff` | internal/gateway/ws_handle.go:136-181 | From a state where online entries of banned users belong to closed connections, a step breaks this exactly when it is, on an open connection, a login as a banned user without auth service, or within the attempts but without a database answer, or a ban that spells the id so that it misses the open connection. |
| `Presence.BannedAreNeverOnlineAndOpen` | internal/gateway/api.go:239-252 | With the auth service, an answering database and bans that spell ids as stored, over any mix of logins, bans, unbans and disconnects, a banned user's online entry always belongs to a closed connection. |
| `Presence.AdminsNeverChange` | internal/gateway/api.go:239 | No run makes or unmakes an administrator, and no user row appears or disappears. |
| `Presence.UnbanUndoesBanIff` | internal/gateway/api.go:278 | Ban followed by unban restores the role table exactly when no database is asked, or the row was not banned before and the ban missed it or hit a plain `user`. |
| `BanRace.BreaksRuleIff` | internal/gateway/ws_handle.go:171-181 | With check, registration, update and disconnect as separate steps: while no ban is halfway a banned user is not online on an open connection, and a step breaks this exactly when it registers a login on an open connection although the user is banned and every ban has done its work. |
| `BanRace.RuleHeldIff` | internal/gateway/api.go:239-252 | So in every run the rule holds at all moments exactly when no login registers like that. |
| `BanRace.LateMeansCheckedEarly` | internal/gateway/ws_handle.go:171-181 | Such a login had passed the check before the ban. |
| `BanRace.OnlyThisRace` | internal/gateway/ws_handle.go:171-181 | What follows for the order of the moments: when the rule is broken, the login read the role before the ban and registered after the last ban had looked for it. |
| `BanRace.TheRaceHappens` | internal/gateway/api.go:239-252 | It happens, whatever the connection: check, update, disconnect, registration. |
| `Presence.SessionProvenance` | internal/gateway/ws_handle.go:154-187 | With the auth service each connection asks Validate at most three times in its life, and every room member, online entry, stored sender and `from` names a user confirmed on that connection. |
| `Channels.Conservation` | internal/gateway/ws_handle.go:82-95 | Each offered frame is in exactly one of taken, queued or dropped, and the accepted ones keep their order. |
| `Channels.FitsIff` | internal/gateway/ws_handle.go:407-410 | Frames offered in a row are all queued in order exactly when there is room for all of them; otherwise the channel ends up full. |
| `Channels.Outboxes.TrySend` | internal/gateway/ws_handle.go:421-424 | A send never blocks: it queues at the end while there is room and drops the frame otherwise. |
| `Channels.Outboxes.Receive` | internal/gateway/ws_handle.go:87-95 | The writer takes the oldest frame. |
| `MessageStore.SmallPullTakesAll` | internal/storage/mango.go:117-144 | A successful pull leaves the user nothing undelivered, and returns everything exactly when at most 200 were waiting. |
| `MessageStore.InterleavedPullsRepeat` | internal/storage/mango.go:117-144 | Two pulls that both find before either marks are bound to return some message twice exactly when 1 to 399 are waiting. |
| `SplitPull.FindThenMarkIsAPull` | internal/storage/mango.go:117-144 | With nothing in between, find and update do what the one-step pull does. |
| `SplitPull.ReturnedTwiceMeansOverlap` | internal/storage/mango.go:117-144 | In every interleaving of pulls and saves, two pulls return the same message only if the find of one falls between the find and the update of the other, for the same user. |
| `SplitPull.ReturnedOnce` | internal/storage/mango.go:138-144 | While no two pulls of a user overlap, no message is returned twice. |
| `SplitPull.OverlapRepeats` | internal/storage/mango.go:117-144 | Any message can be returned twice by two pulls that overlap. |
| `SplitPull.UnreturnedIsLateOrMany` | internal/storage/mango.go:118-144 | In every interleaving, a message that an update marks and its pull did not return came after the find, or more than 200 were waiting. |
| `SplitPull.MarksUnreturnedIff` | internal/storage/mango.go:118-144 | While no two pulls of a user overlap, a pull marks a message it does not return exactly when more than 200 were waiting at its find, or some were and another came since. |
| `MessageStore.MangoStore.SaveMessage` | internal/storage/mango.go:70-81 | An insert succeeds exactly when the database obeys and the key is new; a failed one changes nothing. |
| `MessageStore.MangoStore.PullUndeliveredForUser` | internal/storage/mango.go:113-147 | The cursor loop and the update return and mark what the specification of a pull says, with each of its failures. |
| `Rooms.Room.Broadcast` | internal/gateway/room.go:42-52 | The loop offers the frame once per listed user whatever the map order; nobody else's channel changes. |
| `Rooms.RoomTable.GetOrCreateRoom` | internal/gateway/room.go:59-74 | Returns the registered room of that id, new and empty only when none was registered; other rooms are untouched. |
| `Rooms.RoomTable.RemoveEmptyRoom` | internal/gateway/room.go:77-89 | Drops the room exactly when it is registered and has no clients. |
| `Rooms.RoomTable.Collect` | internal/gateway/ws_handle.go:347-357 | The first cleanup loop ends with every room that lists the user, each once. |
| `Rooms.RoomTable.Sweep` | internal/gateway/ws_handle.go:346-362 | Both cleanup loops end, and leave what `SweepMeaning` describes. |
| `Rooms.SweepStep` | internal/gateway/ws_handle.go:358-362 | One round of the second loop deals with one more collected room and no other. |
| `Rooms.RoomTable.RoomIDs` | internal/gateway/room.go:98-107 | Every registered id exactly once. |
| `GatewayServer.Gateway.HandleAuth` | internal/gateway/ws_handle.go:135-187 | The auth handler performs the model's login step: attempts, oracle, ban, online table, offline push, reply. |
| `GatewayServer.Gateway.HandleJoin` | internal/gateway/ws_handle.go:189-203 | The join handler performs the model's join step. |
| `GatewayServer.Gateway.HandleLeave` | internal/gateway/ws_handle.go:205-213 | The leave handler performs the model's leave step, silently without a login. |
| `GatewayServer.Gateway.HandleSend` | internal/gateway/ws_handle.go:215-250 | The send handler performs the model's send step; membership is not required. |
| `GatewayServer.Gateway.HandlePrivate` | internal/gateway/ws_handle.go:252-308 | The private handler performs the model's step: live and saved as delivered, or saved for later. |
| `GatewayServer.Gateway.PushUndelivered` | internal/gateway/ws_handle.go:378-412 | The push loop offers the pulled messages in pull order to the user's online connection. |
| `GatewayServer.Gateway.EndConnection` | internal/gateway/ws_handle.go:345-363 | The end of a read loop performs the model's disconnect step. |
| `GatewayServer.Gateway.FinishSave` | internal/gateway/ws_handle.go:301-305 | A finished save goroutine performs the model's save step. |
| `GatewayServer.Gateway.AdminBanUser` | internal/gateway/api.go:217-254 | The ban request performs the model's ban step on the row the database reads and the connection the string names; it answers 200 exactly when a row was banned, 503 without a database, 500 when the database fails. |
| `GatewayServer.Gateway.AdminUnbanUser` | internal/gateway/api.go:256-290 | The unban request performs the model's unban step on the row the database reads; it answers 200 exactly when a banned row was restored, 503 without a database, 500 when the database fails. |
| `GatewayServer.Gateway.GetOnlineUsers` | internal/gateway/clients.go:50-58 | Every online user exactly once. |
| `LockDiscipline.RunDisciplined` | internal/gateway/room.go:22-89 | In every interleaving the locks mirror the threads: one announced writer, exclusive writers, readers counted exactly. |
| `LockDiscipline.EveryWaitResolves` | internal/gateway/ws_handle.go:347-362 | From every thread inside an operation at most four waits lead to one that can take its next step. |
| `LockDiscipline.DeadlockFree` | internal/gateway/room.go:22-89 | In every reachable state with an operation under way, some operation can step. |
| `Progress.OwnStepDescends` | internal/gateway/ws_handle.go:346-363 | Every step of an operation, loops included, strictly lowers its rank. |
| `Progress.OthersKeepRank` | internal/gateway/room.go:22-89 | No step of another thread changes the rank of an operation. |
| `Quiescence.ServerDescends` | internal/gateway/room.go:22-89 | So every own step of any operation strictly lowers the sum of all ranks. |
| `Quiescence.CanComeToRest` | internal/gateway/ws_handle.go:347-363 | From every state that keeps the locking discipline, own steps alone can bring every operation to its end. |
| `Quiescence.NoEndlessSchedule` | internal/gateway/ws_handle.go:347-363 | Without new frames, every schedule, fair or not, with writer goroutines taking turns as often as they like, has a last own step: operations end. |
| `RoomRegistry.KeysAreIds` | internal/gateway/room.go:59-74 | In every interleaving the table's keys are the rooms' own ids, so distinct ids never share an object. |
| `RoomRegistry.RegisteredDuringCall` | internal/gateway/room.go:59-74 | The object a `getOrCreateRoom` call returns was the registered one at some moment inside the call. |
| `RoomRegistry.CallsAgree` | internal/gateway/room_test.go:106-128 | Two calls for one id, by any threads, return the same object when the id is not deleted from the start of the first to the end of the last. |
| `RoomRegistry.EveryRunHasATrace` | internal/gateway/room.go:59-74 | Every run of the lock-level machine has a trace of the kind these two results speak of. |
| `RoomRegistry.TraceIsRun` | internal/gateway/room.go:59-74 | And every such trace is a run, with the same states. |
| `Cleanup.UnreachableAfterCleanup` | internal/gateway/ws_handle.go:346-363 | In every interleaving without identity switch, once a connection's cleanup has finished no registered room and no online entry refers to it, even if rooms were deleted and re-created during the sweep. |
| `Cleanup.DoneIsUnreachable` | internal/gateway/ws_handle.go:346-363 | The sweep's invariant is strong enough: where it holds, a finished connection is referred to nowhere. |
| `Cleanup.DoneForever` | internal/gateway/ws_handle.go:345-363 | A finished connection stays finished, so the result above holds at all later times. |
| `Cleanup.StepSafe` | internal/gateway/ws_handle.go:346-363 | The invariant behind it is kept by every step of every thread. |
| `ClosedChannel.StillOfferedIff` | internal/gateway/ws_handle.go:82-83 | In every run without identity switch, a connection whose cleanup has finished can still be offered a frame exactly when some operation has its channel in hand (found online, or about to be sent to), or holds a room for sending that still lists it and that no announced writer strikes it from first. |
| `ClosedChannel.HolderOffers` | internal/gateway/ws_handle.go:271-275 | Whoever holds it can go on to offer it a frame by own steps alone, past every lock in the way. |
| `ClosedChannel.FinishedConnectionIsOffered` | internal/gateway/ws_handle.go:271-275 | It happens: with two connections, a recipient looked up in time has finished its cleanup when the private message is sent. |
| `Crash.CrashKeepsDiscipline` | internal/gateway/room.go:42-52 | The panic of a send on a closed channel, even in the middle of a broadcast, leaves the locks in order. |
| `Crash.OnlineStaysIff` | internal/gateway/clients.go:25-42 | A connection whose handler is over but that is still listed online stays so in a step exactly when the step neither registers nor unregisters its user name. |
| `Crash.MemberStaysIff` | internal/gateway/room.go:22-32 | And it stays listed in a room exactly when the step neither adds nor removes that name there. |
| `Crash.CrashedStaysOnline` | internal/gateway/ws_handle.go:345-375 | So in every continuation without another connection of its user, a sender that panicked while online stays online for ever. |
| `Crash.NextSenderOffers` | internal/gateway/ws_handle.go:271-275 | Any idle connection can then come to send to that closed channel: it need only send a private message to the user. |
| `Crash.CrashesSpread` | internal/gateway/ws_handle.go:82-83 | It happens: with three connections, a sender panics on its recipient's closed channel, and a third connection can come to send to the sender's. |
| `Fifo.PerSenderFifo` | internal/gateway/room.go:42-52 | However broadcasts and private sends interleave, every receiver gets the live messages of one connection in the order sent. |
| `Fifo.PerSenderFifoOnce` | internal/gateway/ws_handle.go:271-275 | Without identity switch, and each of them at most once. |
| `LostJoin.CountWasTrue` | internal/gateway/room.go:83-85 | The count a removal goes by was the registered room's true number of clients when the thread let go of the room's lock. |
| `LostJoin.DropsMemberIff` | internal/gateway/room.go:76-89 | After counting zero clients `removeEmptyRoom` can go on to delete a room with a member exactly when some connection holds that room from `getOrCreateRoom` and is about to run `addClient`. |
| `LostJoin.LostOnlyInTheGap` | internal/gateway/room.go:76-89 | In every run, whenever a room with a member leaves the table, the thread that deletes it had let go of the room's lock with a count of zero while another connection held the same room on its way into `addClient`. |
| `LostJoin.JoinCanBeLost` | internal/gateway/ws_handle.go:195-196 | That situation is reachable with two connections and one room, without identity switch and without an earlier loss. |
| `JoinOutcome.ResultStillRegisteredIff` | internal/gateway/room.go:59-89 | In every interleaving, what `getOrCreateRoom` returns was registered at a moment inside the call, and at any later moment it still is exactly when its id was not deleted in between. |
| `JoinOutcome.JoinLandsIff` | internal/gateway/ws_handle.go:195-196 | A join always adds its client to the room it obtained, and the registered room lists it right after exactly when the id was not deleted from a moment inside `getOrCreateRoom` up to then. |
| `JoinOutcome.JoinIsLost` | internal/gateway/room.go:83-87 | Once `removeEmptyRoom` has counted zero while a join is on its way into `addClient`, that join is lost in every continuation in which both go on, in whatever order: its client is in a room that is never registered again. |
| `JoinOutcome.JoinCanComeTooLate` | internal/gateway/ws_handle.go:195-196 | The other loss is reachable as well: no room with a member is ever deleted, `removeEmptyRoom` runs undisturbed, and a finished join sits in a room that is not registered. |
| `SlidingWindow.LimiterRefinesHistory` | internal/gateway/middleware.go:47-70 | A request is admitted exactly when fewer than its limit distinct milliseconds of all earlier requests on the key, admitted or rejected, lie in (now - window, now]. |
| `SlidingWindow.WindowBound` | internal/gateway/middleware.go:47-70 | In every interval of one window the admitted requests of the callers with limits up to n occupy at most n milliseconds, whatever the other callers of the key do. |
| `SlidingWindow.LoginAndRegisterShareAKey` | cmd/gateway/main.go:162-163 | Login and register together stay within 10 milliseconds per window, register alone within 5. |
| `SlidingWindow.RegistrationsSpendTheLoginBudget` | cmd/gateway/main.go:162-163 | Registrations in successive milliseconds are admitted up to five, but refused ones count too: a login after k of them is admitted exactly when k is below ten. |
| `SlidingWindow.LimitBoundsRequestsIff` | internal/gateway/middleware.go:25-28 | A limit of n admits at most n requests in every window, over all runs, exactly when n is at most one. |
| `SlidingWindow.DistinctMillisBoundRequests` | internal/gateway/middleware.go:47-70 | When no two requests share a millisecond the limit bounds the requests themselves. |
| `SlidingWindow.BurstIsAdmitted` | internal/gateway/middleware.go:54 | Of requests in one millisecond on a fresh key the first is admitted from a limit of one on, every other one from a limit of two on, however many they are. |
| `SlidingWindow.ExpiryIsInvisible` | internal/gateway/middleware.go:49-55 | Dropping the whole key once its time to live has passed, boundary included, changes no decision. |
| `SlidingWindow.ExpiryVisibleIff` | internal/gateway/middleware.go:55 | Some run shows an expiry exactly when the time to live is shorter than the window. |
| `SlidingWindow.RateLimiter.Limit` | internal/gateway/middleware.go:29-73 | The middleware lets everything through without Redis, without a key or after a failed pipeline, and otherwise decides by the key's full history and records the request either way. |

## Left out

- WebSocket upgrade, deadlines, pings, write errors, the 12-second wait and JSON encoding: I/O and timing. A frame is a value, a closed connection a flag.
- Runs in which senders panic more than once: `Crash` adds the panic as a step and says who stays reachable and who can be next; the properties of the other lock-level modules are about runs without it.
- The auth service, JWT parsing, the admin and auth middleware and the gRPC layer: thin wrappers over libraries.
- `QueryHistory`, indexes and decode errors of the message collection: the database's work. A save that fails after the server stored the document is modelled as failed only.
- Redis presence keys, `lastSeen`, `Health`, `AdminStats`, `AdminUsers` and configuration: no hard property.
- Upload, CORS, the extraction of addresses from headers and everything under `web/`: I/O or one-branch facts.
- Malformed admin request bodies and wrong HTTP methods: answered before anything else happens.
- The message collection, roles and bans at lock level: there, the number of messages a login pushes is arbitrary and pushed messages and replies are opaque frames.
- A refinement between the two levels: false in general, as `LostJoin` shows. Each property is proved at the level at which it holds.
- Callers that use different windows on one key: no route does.
- `SlidingWindow.RateLimiter.Limit`: the time to live is a number that covers the window; how the Redis client rounds it to seconds is not modelled.
- `GatewayServer.Gateway.PushUndelivered`: the pull is one step here, as everywhere at handler-step level.
