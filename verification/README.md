# Verified model of a chat platform

A Dafny model of the stateful core of a Discord-like platform: a guild service, a user service, a websocket
gateway, a media server (SFU) and a web client that keeps copies of what the services hold. The model follows
the code branch by branch and proves what holds over every run of it.

`dafny verify dfyconfig.toml` checks the whole project.

## How it is organised

Each component has a specification on values (what an operation does to the state, invariants, theorems over
runs) and a class whose methods run like the code, loops and field updates included, and are proved to do what
the specification says.

| component | specification and theorems | code |
|---|---|---|
| shared types | `Common` | |
| SFU rooms, peers, producers, consumers | `SfuRegistry`, `SfuLifecycle`, `SfuProtocol`, `SfuCoverage`, `SfuExchange` | `SfuServer.Sfu`, `SfuClient.PeerConnectionManager` |
| permission evaluation | `Permissions` | methods of `Permissions` |
| channels and permission overwrites | `ChannelStore`, `OverwriteMeaning`, `ChannelAuthority` | `ChannelsService.Service` |
| the client's copy of channels | `PermissionMirror` | `GuildsStore.Store` |
| voice states and rings in Redis | `Voice`, `VoiceHistory` | `VoiceService.Service` |
| the client's copy of voice states and rings | `VoiceReplica` | `VoiceStores.Store` |
| typing indicators | `Typing` | `Typing.UserTypingStore` |
| optimistic message list | `Messages` | `Messages.MessagesCache` |
| role positions | `Roles` | `Roles.RolesService` |
| unread counters | `Unread`, `UnreadAudience` | `Unread.Service`, `UnreadAudience.OnGuildMessageCreated` |
| relationships | `Relationships`, `Bonds` | `Relationships.RelationshipsService` |
| gateway fan-out | `Gateway` | `Gateway.Node` |
| numerals and role colours | `Numerals`, `Color` | |

## Main results

- No producer is missed: between the snapshot a client asks for and the announcements it receives, in any order
  of delivery, every live producer of another user is on its way to the client or already consumed
  (`SfuCoverage.NoProducerMissed`, `QuietClientConsumesAll`).
- The registries of the SFU hold exactly what the calls so far tell (`SfuLifecycle.HistoryTells`): a closed producer
  takes its consumers with it (`CloseProducerTakesConsumers`), everybody else in the room is told, and whoever is told
  lets go (`SfuExchange.ClosingIsAnnounced`, `ClosedProducerIsDropped`). No message between server and clients comes
  from nowhere or is lost (`RequestsAreAccountedFor`, `EventsAreAccountedFor`).
- The server enforces permissions: over any run, a channel's rows change only at the hand of somebody granted the
  change at that moment (`ChannelAuthority.RowsChangeByTheEntitled`); each operation goes through, is forbidden or is
  a bad request in exactly stated cases (`AnswersIff`); a private channel is hidden from everybody but its creator
  (`PrivateChannelIsHidden`).
- The client shows the permission the server enforces, over every run of channel and overwrite changes by anybody
  (`PermissionMirror.ClientShowsServerPermission`), although rows of synced channels go stale. The one operation
  that can break this is a deletion, and `FollowKeepsMirrorIff` says exactly when.
- Layered bit operations are a ladder of tiers, independent of order (`Permissions.EffectiveIsLadder`,
  `OrderIndependence`); desyncing a channel changes nothing for anyone the changed row does not address
  (`OverwriteMeaning.UpdateSparesOthers`); syncing undoes it (`SyncUndoesDesync`).
- Rings die out although their timers are never cancelled and their index may be dropped (`Voice.RingsDieOut`). A
  client that has caught up holds what the server holds, up to flags that a later join left out, in every run
  (`VoiceReplica.CaughtUpClientAgrees`). What the server holds is what the actions so far say: the last word on each
  flag, and each ring not ended since (`VoiceHistory.HistoryTells`, `CaughtUpClientShowsLastWord`).
- Typing is exactly the recent past (`Typing.TypingIsTheRecentPast`). The optimistic list is the log, from the moment
  the cache is filled (`Messages.ListIsTheLog`, `ReceiveIsKeptIff`). A role's position is its age
  (`Roles.PositionIsAge`). An unread counter is a trace count (`Unread.CounterIsTraceCount`), of what the member could
  view at the time (`UnreadAudience.CounterFollowsViewers`). The two sides of a relationship are dual
  (`Relationships.ViewsAreDual`), a block ends in exactly five ways (`BlockStaysIff`), and two users stand to each other
  as their own deeds have left them (`Bonds.BondIsHistory`). Fan-out is exact and a
  removed socket is never chosen again (`Gateway.UserFanOutIsExact`, `RemovedNeverChosen`). Colours print and parse
  back (`Color.PrintThenParse`, `ParseThenPrint`).

## What the model takes as given

- Each handler or service method is one atomic step. Database, Redis, queue and socket calls succeed. Fresh ids
  are fresh.
- Ids are compared only, so they are numbers; where their text matters (typing keys, pending message ids) they
  are strings. Permission masks are sets of bit positions. Time is in milliseconds.
- SFU: `canConsume` answers yes, a socket joins one room once, requests and events may overtake each other.
- Voice: timers fire on time for `Voice` and `VoiceReplica`; events reach a client in the order they were sent.
- Overwrites: parents are top-level categories where a lemma says so (`Tidy`, `CategoriesOnTop`).
- Messages: the server's ids never start with `pending-`.
- Relationships and gateway: a socket disconnects under the user it connected with; database ids are fresh.

## Where the code differs from what one would expect

The model follows the code in each case.

- The SFU registers its clean-up for `close`, which is not a socket.io event, so a dropped socket leaves its
  producers and consumers behind (`SfuRegistry.DropLeavesEverything`).
- `handleCloseConsumer` drops an id from the room whoever owns it, so an open consumer can go missing
  (`SfuRegistry.HandleKeepsListedIff`, `ForeignConsumerDropped`).
- Closing a client closes its producers but not the consumers others have of them, which stay open and listed
  (`SfuLifecycle.HandleKeepsNoOrphansIff`, `LeavingOrphans`).
- A closed socket can still have a consumer made, which then belongs to no peer (`SfuRegistry.ConsumeAgreesIff`,
  `ClosedSocketConsumes`).
- The bulk permission query dereferences the parent of a synced channel without a check and so throws on one that
  lost its parent, which also ends unread counting there (`OverwriteMeaning.BulkThrowsIff`,
  `UnreadAudience.OrphanedChannelStopsCounting`).
- Bulk query and pointwise check treat a channel's creator and the guild's owner differently
  (`OverwriteMeaning.BulkAgreesOnCreatorIff`, `BulkDiffersOnCreator`, `BulkAgreesOnOwnerIff`, `BulkDiffersOnOwner`).
- Any channel can be a parent, so one may sit synced under a synced one. An update of the upper one then changes what
  the lower one grants to people the update is not about (`OverwriteMeaning.UpdateSparesOthersIff`,
  `NestedUpdateHides`).
- Clearing a channel's rings deletes the index but not the keys (`Voice.StepKeepsRingIndexIff`).
- Ringing again arms a second timer and leaves the first, which ends the new ring early (`Voice.RingLivesOutIff`,
  `RefreshedRingIsLost`).
- A join replaces the stored voice state on the server but is merged on the client (`VoiceReplica.JoinAgreesIff`).
- Either side of a block can accept it as if it were a request (`Relationships.BlockedSideAccepts`).
- Nothing guards @everyone against deletion, or a position against being taken
  (`Roles.DeleteRoleKeepsEveryoneIff`, `EveryoneIsDeleted`, `MoveRoleKeepsInvIff`, `PositionIsTaken`).
- The client complements string masks, which JavaScript does in 32 bits (`Permissions.ClearAsInt32Exact`).
- The shift on role creation has no guild in its `where` clause; `Roles` shows it does no harm to any order.
- A message that arrives before the list was fetched is lost, unless the fetch brings it: it only makes the cache an
  empty list, to which later ones are added (`Messages.ReceiveIsKeptIff`, `ReceivedTooEarly`, `MessageIsLost`). And as
  the cache then counts as filled, a message sent on it can have its pending id given out again once the fetch arrives,
  so that its confirmation overwrites another message (`ConfirmKeepsTheLogIff`, `ConfirmationOverwrites`).

## Model

| member | source | states |
|---|---|---|
| SfuCoverage.NoProducerMissed | web-client/components/peer-connection-manager/peer-connection-manager.tsx:306-339 | in every run, for a connected client with a receive transport and a live producer of another user in its room, one of these holds: its snapshot request is unserved, a snapshot or announcement naming the producer is in flight, a consume request or its answer is in flight, or a consumer exists |
| SfuCoverage.QuietClientConsumesAll | web-client/components/peer-connection-manager/peer-connection-manager.tsx:341-378 | when nothing is in flight for that client it has a consumer for the producer, and the server still holds that consumer open for it |
| SfuCoverage.RunInv | sfu-service/src/index.ts:57-152 | the whole protocol invariant (registries agree, ids issued, seats, transports, closures are of dead producers, consumers known and fed, coverage) holds in every reachable world |
| SfuCoverage.StepKeepsInv | sfu-service/src/index.ts:215-277 | each step of server, client or network keeps that invariant |
| SfuCoverage.SnapshotCovers | sfu-service/src/index.ts:244-247 | serving the snapshot request puts every live producer of the room in flight to the client |
| SfuCoverage.AnnouncementCovers | sfu-service/src/index.ts:129-132 | a new producer is announced to every other connected client of the room |
| SfuCoverage.ConsumerCovers | sfu-service/src/index.ts:137-152 | a consume request for a live producer on the client's transport is answered with a consumer |
| SfuCoverage.ToldClientAsks | web-client/components/peer-connection-manager/peer-connection-manager.tsx:328-339 | being told of another user's producer makes a client with a receive transport ask to consume it |
| SfuCoverage.ReactKeepsConsumer | web-client/components/peer-connection-manager/peer-connection-manager.tsx:387-393 | no event makes a client drop its consumer of a live producer |
| SfuExchange.ClosingIsAnnounced | sfu-service/src/index.ts:249-264 | serving a request to close a live producer makes it dead, closes every consumer the room lists for it, and sends its closure to every other socket of the room |
| SfuExchange.ClosedProducerIsDropped | web-client/components/peer-connection-manager/peer-connection-manager.tsx:387-393 | a client told of the closure removes a consumer of the producer, that one alone, and asks the server to close it; if it had no other, it consumes the producer no more |
| SfuExchange.DroppedConsumerIsClosed | sfu-service/src/index.ts:266-277 | serving that request closes the consumer on the server and takes it from the socket and its room |
| SfuExchange.ServeSends | sfu-service/src/index.ts:57-277 | serving a request sends each event it has to send once, news to the others of the room alone, and nothing else |
| SfuExchange.ServeHandles | sfu-service/src/index.ts:57-277 | serving a request does to the registries what its handler does, and a snapshot does nothing |
| SfuExchange.ReactionPrompts | web-client/components/peer-connection-manager/peer-connection-manager.tsx:193-393 | an event makes the client send exactly the requests that answer it, each once: transports on joining, the snapshot for a receive transport, consumers of other users' producers, the closure of a consumer |
| SfuExchange.ReactionRemembers | web-client/components/peer-connection-manager/peer-connection-manager.tsx:193-393 | what a client remembers of its transports, producers and consumers changes by exactly the events about them |
| SfuExchange.RequestsAreAccountedFor | web-client/components/peer-connection-manager/peer-connection-manager.tsx:193-393 | at every step of the protocol a request appears only as a client's own or as the answer to an event, and disappears only by being served |
| SfuExchange.EventsAreAccountedFor | sfu-service/src/index.ts:57-277 | an event appears only by the request that brings it about and disappears only by being delivered |
| SfuExchange.ServerMoves | sfu-service/src/index.ts:53-277 | the registries change by serving a request only; a socket that drops merely stops hearing |
| SfuExchange.ServerIsRun | sfu-service/src/index.ts:57-277 | in every run of the protocol the registries are those of a run of the handlers alone |
| SfuExchange.ConnectStarts | web-client/components/peer-connection-manager/peer-connection-manager.tsx:193-202 | a client that connects starts active, as its user and in its room, with nothing |
| SfuExchange.OthersAreLeftAlone | web-client/components/peer-connection-manager/peer-connection-manager.tsx:193-393 | no step of anybody else changes what a client remembers |
| SfuExchange.OwnSteps | web-client/components/peer-connection-manager/peer-connection-manager.tsx:193-393 | stopping forgets the producer, leaving and dropping make a client inactive, and an inactive client reacts to nothing |
| SfuRegistry.RunAgrees | sfu-service/src/index.ts:57-152 | in every run each room producer belongs to exactly one peer of that room and carries its user, a peer's producer is open if and only if the room lists it, and each room consumer belongs to exactly one peer |
| SfuRegistry.HandleAgrees | sfu-service/src/index.ts:215-277 | every handler keeps the two registries in agreement |
| SfuRegistry.LiveProducerHasOneHome | sfu-service/src/index.ts:129-130 | a live producer is in exactly one peer's map and one room, and is open |
| SfuRegistry.CloseClientLeavesNothing | sfu-service/src/index.ts:215-242 | after a client is closed no room holds any of its producers or consumers, and all of them are closed |
| SfuRegistry.ConsumeAgreesIff | sfu-service/src/index.ts:137-152 | a socket without a peer breaks the agreement exactly when its consumer is created |
| SfuRegistry.ClosedSocketConsumes | sfu-service/src/index.ts:137-152 | a run after which a closed socket gets a consumer that no peer has |
| SfuRegistry.CloseConsumerKeepsListedIff | sfu-service/src/index.ts:266-277 | closing a consumer keeps every open consumer listed in its owner's room exactly when no other peer of the room owns it |
| SfuRegistry.HandleKeepsListedIff | sfu-service/src/index.ts:266-277 | of all handlers only closing a foreign open consumer takes one off the list |
| SfuRegistry.ForeignConsumerDropped | sfu-service/src/index.ts:266-277 | a run in which an open consumer is dropped by somebody else |
| SfuRegistry.DropLeavesEverything | sfu-service/src/index.ts:53 | a dropped socket hears nothing more, while its peer, producers and consumers stay exactly as they were |
| SfuLifecycle.HistoryTells | sfu-service/src/index.ts:57-277 | in every run the seats of sockets, the transports, live producers and listed consumers of rooms, the producers and consumers of peers, and the closed consumers are exactly those the calls so far tell of: who made what over which transport, and which call of whom ended it |
| SfuLifecycle.CloseProducerTakesConsumers | sfu-service/src/index.ts:249-264 | closing a live producer closes every consumer its room lists for it and takes it out of every room; each other consumer stays open or closed, and listed, as it was |
| SfuLifecycle.HandleKeepsNoOrphansIff | sfu-service/src/index.ts:215-242 | of all handlers only closing a client leaves consumers of dead producers listed, exactly when others consume what it produced |
| SfuLifecycle.NoOrphansBeforeAnyLeave | sfu-service/src/index.ts:215-264 | in runs in which no client is closed every listed consumer is of a live producer |
| SfuLifecycle.LeavingOrphans | sfu-service/src/index.ts:215-242 | a run after which an open consumer of a dead producer is still listed |
| SfuLifecycle.OthersAreTheRestOfTheRoom | sfu-service/src/index.ts:129-132 | a broadcast goes to exactly the other sockets of the room that have been neither closed nor dropped since they joined |
| SfuServer.Sfu.HandleJoinRoom | sfu-service/src/index.ts:57-75 | joins the group, makes the room only if missing, resets the peer |
| SfuServer.Sfu.HandleCreateTransport | sfu-service/src/index.ts:84-108 | the transport is added to the room alone, never to the peer |
| SfuServer.Sfu.HandleProduce | sfu-service/src/index.ts:120-135 | without transport or peer nothing changes; else the producer is filed in room and peer and everyone else in the room is told |
| SfuServer.Sfu.HandleConsume | sfu-service/src/index.ts:137-152 | without transport or producer nothing changes; else the consumer is filed in room and peer, or in the room alone before the handler fails for want of a peer |
| SfuServer.Sfu.GetProducers | sfu-service/src/index.ts:244-247 | the loop returns exactly the producers live in the room, each with the user of the one peer that owns it |
| SfuServer.Sfu.HandleCloseClient | sfu-service/src/index.ts:215-242 | both loops: the peer's producers and consumers leave the room and are closed, and each producer's closure goes to everyone else in the room |
| SfuServer.Sfu.HandleCloseProducer | sfu-service/src/index.ts:249-264 | closes and drops every consumer of the producer in the room, then the producer, and tells everyone else in the room |
| SfuServer.Sfu.HandleCloseConsumer | sfu-service/src/index.ts:266-277 | closes the peer's own consumer and drops the id from peer and room |
| SfuClient.PeerConnectionManager.OnRoomJoined | web-client/components/peer-connection-manager/peer-connection-manager.tsx:193-202 | loads the device and asks for a send and a receive transport |
| SfuClient.PeerConnectionManager.OnCreateRecvTransport | web-client/components/peer-connection-manager/peer-connection-manager.tsx:306-325 | ignored without a device; else stores the transport and asks for the snapshot |
| SfuClient.PeerConnectionManager.OnGetChannelProducers | web-client/components/peer-connection-manager/peer-connection-manager.tsx:211-215 | the loop asks to consume every listed producer of another user, exactly once each |
| SfuClient.PeerConnectionManager.CreateConsumer | web-client/components/peer-connection-manager/peer-connection-manager.tsx:328-339 | asks only with a receive transport and only for another user's producer |
| SfuClient.PeerConnectionManager.OnConsumerCreated | web-client/components/peer-connection-manager/peer-connection-manager.tsx:341-378 | stores the consumer if there is a receive transport, and asks to resume it unless it is of a shared screen |
| SfuClient.PeerConnectionManager.HandleCloseProducer | web-client/components/peer-connection-manager/peer-connection-manager.tsx:387-393 | removes the first consumer of the closed producer, if any, and asks the server to close it |
| Permissions.ApplyChannelOverwrites | guild-service/src/channels/helpers/permission.helper.ts:15-43 | the loop computes the layered evaluation |
| Permissions.RoleMasks | guild-service/src/channels/helpers/permission.helper.ts:23-31 | the loop unites the masks of the rows of held roles |
| Permissions.EffectiveIsLadder | guild-service/src/channels/helpers/permission.helper.ts:15-43 | the evaluation gives each bit the verdict of the highest tier that speaks (member, held roles together, @everyone, base), allow beating deny inside a tier |
| Permissions.DecidingTierRules | guild-service/src/channels/helpers/permission.helper.ts:15-43 | the highest tier that says anything about a bit decides it |
| Permissions.EffectiveIsBaseIff | guild-service/src/channels/helpers/permission.helper.ts:15-43 | overwrites change nothing exactly when every deciding tier says what the base permission says |
| Permissions.OrderIndependence | guild-service/src/channels/entities/permission-overwrite.entity.ts:6 | with unique targets neither the order of rows nor the order of roles matters |
| Permissions.OrderMattersWithDuplicates | guild-service/src/channels/entities/permission-overwrite.entity.ts:6 | without the unique index it would: two rows for one target give different results in different orders |
| Permissions.UnaddressedRowsAreIgnored | guild-service/src/channels/helpers/permission.helper.ts:17-40 | rows that do not address the user can change freely |
| Permissions.ClearAsInt32Exact | web-client/helpers/permissions.helper.ts:23 | the client's complement of a string mask removes exactly the denied bits if and only if the mask stays below bit 31 |
| Permissions.ApplyChannelOverwritesOnClient | web-client/helpers/permissions.helper.ts:19-47 | the client's loop computes the same layers, with its 32-bit complement in the first and last |
| Permissions.ClientEvaluatesAlike | web-client/helpers/permissions.helper.ts:19-47 | on such masks client and server evaluate alike |
| Permissions.GetBasePermission | guild-service/src/guilds/guilds.service.ts:386-408 | owner: all permissions; else @everyone together with every held role |
| Permissions.BaseIsUnionOfRoles | guild-service/src/guilds/guilds.service.ts:386-408 | a bit is granted to the owner if it is defined at all, and to another member exactly if the @everyone role or a role the member holds grants it |
| Permissions.AddressesIff | guild-service/src/channels/helpers/permission.helper.ts:17-40 | a member's row speaks to that member, a role's row to whoever holds the role, and the @everyone row to everybody |
| Permissions.StrangersHoldNothing | guild-service/src/guilds/guilds.service.ts:374-378 | whoever is no member holds no role |
| Permissions.MemberRolesOf | guild-service/src/guilds/guilds.service.ts:374-378 | the lookup returns the member's own roles |
| ChannelStore.RunKeepsGood | guild-service/src/channels/channels.service.ts:1319-1377 | in every run: rows unique per target with disjoint allow and deny, parents in the same guild, and a synced channel that still has a parent has no rows of its own |
| ChannelStore.StepKeepsGood | guild-service/src/channels/channels.service.ts:110-142 | create, delete, overwrite update, sync and overwrite delete each keep the store good, whatever 53-bit masks without bit 31 a request carries |
| ChannelStore.RunKeepsTidy | guild-service/src/channels/channels.service.ts:1539-1550 | with parents that are top-level categories, every unsynced guild channel has its @everyone row in every run |
| ChannelStore.DesyncHasEveryoneIff | guild-service/src/channels/channels.service.ts:1319-1351 | in general a desync leaves an @everyone row exactly when the parent has one or it is the row being set |
| ChannelStore.NestedParentLosesEveryone | guild-service/src/channels/channels.service.ts:108-133 | a run under a non-category parent that loses the @everyone row |
| ChannelStore.SetRowSpec | guild-service/src/channels/channels.service.ts:1335-1369 | setting a target's row changes that row's masks, keeps its target type, and no other row |
| ChannelStore.DropTargetSpec | guild-service/src/channels/channels.service.ts:1549-1550 | dropping a target removes its row and no other |
| OverwriteMeaning.UpdateSparesOthers | guild-service/src/channels/channels.service.ts:1319-1377 | updating one target's overwrite, cloning on desync included, leaves the effective permission on a channel unchanged for every user the row does not address, unless the channel is synced under one that was itself synced to a parent, where UpdateSparesOthersIff says when |
| OverwriteMeaning.UpdateSparesOthersIff | guild-service/src/channels/channels.service.ts:1319-1377 | on any channel at all it does so exactly when the channel is no such one, or the user made it, or every tier that decides a bit in the rows the upper channel gets says what the roles of the user say |
| OverwriteMeaning.NestedUpdateSparesIff | guild-service/src/channels/channels.service.ts:1319-1377 | on such a channel that condition holds for every user, addressed by the row or not |
| OverwriteMeaning.NestedUpdateHides | guild-service/src/channels/channels.service.ts:1319-1377 | an instance in which an empty row for one member hides such a channel from another |
| OverwriteMeaning.UpdateSparesEverybodyElse | guild-service/src/channels/channels.service.ts:1319-1377 | where parents are top-level categories it does so on every channel |
| OverwriteMeaning.UpdateTouchesOneChannel | guild-service/src/channels/channels.service.ts:1376-1377 | parent and siblings keep their records and permissions |
| OverwriteMeaning.UpdateKeepsOtherRows | guild-service/src/channels/channels.service.ts:1325-1351 | rows of other targets are in force after the update exactly when they were before |
| OverwriteMeaning.MemberOverwriteDecides | guild-service/src/channels/channels.service.ts:1371-1374 | a member's own overwrite has the last word on the bits it names, bits both allowed and denied left alone |
| OverwriteMeaning.SyncAdoptsParent | guild-service/src/channels/channels.service.ts:1451-1467 | after a sync the parent's rows are in force and no other channel changed |
| OverwriteMeaning.SyncUndoesDesync | guild-service/src/channels/channels.service.ts:1414-1475 | syncing right after a desync restores the whole store |
| OverwriteMeaning.GetMembersWithChannelPermissions | guild-service/src/channels/channels.service.ts:1229-1263 | the filter throws exactly when it dereferences a parent it did not find, and else returns exactly the members the evaluation grants the mask to, the owner always, each once |
| OverwriteMeaning.BulkRefinesPointwise | guild-service/src/channels/channels.service.ts:1214-1263 | for members who neither own the guild nor created the channel, bulk filter and pointwise check agree |
| OverwriteMeaning.BulkAgreesOnCreatorIff | guild-service/src/channels/channels.service.ts:1221-1259 | for the channel's creator they agree on every mask exactly when every tier that decides a bit says what the creator's roles say |
| OverwriteMeaning.BulkAgreesOnOwnerIff | guild-service/src/channels/channels.service.ts:1221-1251 | for the guild's owner they agree on every mask of defined permissions exactly when the owner made the channel or no deciding tier only denies a defined bit |
| OverwriteMeaning.BulkDiffersOnCreator | guild-service/src/channels/channels.service.ts:1221 | an instance of a creator whom the filter leaves out and the pointwise check lets in |
| OverwriteMeaning.BulkDiffersOnOwner | guild-service/src/channels/channels.service.ts:1251 | an instance of a guild owner whom the filter lets in and the pointwise check leaves out |
| OverwriteMeaning.BulkThrowsIff | guild-service/src/channels/channels.service.ts:1245-1259 | in a good store the filter throws on exactly the synced channels without a parent, if the guild has a member besides its owner |
| OverwriteMeaning.DeleteMakesBulkThrowIff | guild-service/src/channels/channels.service.ts:1245-1259 | a deletion makes it throw on exactly the channels that were synced to the deleted one |
| OverwriteMeaning.BulkComesToThrow | guild-service/src/channels/entities/channel.entity.ts:56 | three operations of an owner after which it throws |
| ChannelAuthority.AnswersIff | guild-service/src/channels/channels.service.ts:1284-1316 | create, delete, overwrite update, sync and overwrite delete each succeed, are forbidden, or are a bad request in exactly the stated cases: what the request is about exists, the requester is granted it, nothing else is wrong |
| ChannelAuthority.OnlyTheEntitledChange | guild-service/src/channels/channels.service.ts:1284-1292 | the store changes only when the requester holds MANAGE_CHANNELS (MANAGE_ROLES to delete an overwrite) on the channel, on the parent or on the guild, as the operation demands |
| ChannelAuthority.RowsChangeByTheEntitled | guild-service/src/channels/channels.service.ts:1284-1292 | over any run, if the rows of a channel changed, or it came or went, then by an operation on that channel of somebody entitled to it at that moment |
| ChannelAuthority.RecordStaysUnlessTouched | guild-service/src/channels/channels.service.ts:1376-1377 | a whole record changes by such an operation only, or by an entitled deletion of its parent, which takes its parent link and nothing else |
| ChannelAuthority.NothingWithoutEntitlement | guild-service/src/channels/channels.service.ts:1284-1292 | a run in which nobody is entitled to what they ask leaves the store as it was |
| ChannelAuthority.CreateAddsOne | guild-service/src/channels/channels.service.ts:108-142 | a new channel is the creator's, of the kind and under the parent asked for, synced exactly if under a parent and not private; no other channel changes |
| ChannelAuthority.PrivateChannelIsHidden | guild-service/src/channels/channels.service.ts:121-130 | after a private creation under a parent nobody but the creator may view the channel, the owner of the guild included |
| ChannelAuthority.TopChannelIsOpen | guild-service/src/channels/channels.service.ts:110-120 | a new channel at the top grants everybody what their roles grant |
| ChannelAuthority.OpenChildGrantsAsParent | guild-service/src/channels/channels.service.ts:131-133 | a new channel under a parent that is not private grants what the parent does, to everybody who made neither and unless the parent is itself synced |
| ChannelAuthority.SyncedChannelGrantsAsParent | guild-service/src/channels/channels.service.ts:1214-1227 | so does any channel synced to its parent |
| ChannelAuthority.UpdateStoresWhatWasAsked | guild-service/src/channels/channels.service.ts:1319-1377 | an update stores under its target exactly the bits allowed and not denied and those denied and not allowed, below bit 31, and keeps the type of a row that was there; the channel's other fields stay, but it is no longer synced to a parent |
| ChannelAuthority.DeleteTakesOneRow | guild-service/src/channels/channels.service.ts:1539-1553 | deleting an overwrite takes the target's row, never @everyone's, and nothing else |
| ChannelAuthority.DeleteTakesOneChannel | guild-service/src/channels/channels.service.ts:179-230 | deleting a channel removes it and takes the parent link of its children, and nothing else |
| ChannelAuthority.SyncTakesTheRows | guild-service/src/channels/channels.service.ts:1451-1467 | a sync marks the channel and takes its rows, and nothing else |
| ChannelsService.Service.GetEffectivePermission | guild-service/src/channels/channels.service.ts:1214-1227 | computes the effective permission: nothing for a foreign channel, base for the creator, else the rows in force |
| ChannelsService.Service.CreateChannel | guild-service/src/channels/channels.service.ts:80-142 | error branches in order, and the three kinds of new channel |
| ChannelsService.Service.DeleteChannel | guild-service/src/channels/channels.service.ts:179-210 | permission is looked up on the parent of a synced channel; children lose their parent |
| ChannelsService.Service.SaveRows | guild-service/src/channels/channels.service.ts:1351 | saving distinct clones one after the other stores exactly them |
| ChannelsService.Service.CloneRows | guild-service/src/channels/channels.service.ts:1321-1351 | the clone of the parent's rows with the target set in its place, or at the end |
| ChannelsService.Service.Prepare | guild-service/src/channels/channels.service.ts:1317-1369 | on either path, saving the cleaned row once more gives the rows in force with that row set |
| ChannelsService.Service.UpdateChannelPermissionOverwrite | guild-service/src/channels/channels.service.ts:1265-1377 | clone, set, save, clean and save again amounts to setting one cleaned row in the rows in force |
| ChannelsService.Service.SyncChannel | guild-service/src/channels/channels.service.ts:1414-1475 | error branches in order; marks the channel synced and drops its rows |
| ChannelsService.Service.DeleteChannelPermissionOverwrite | guild-service/src/channels/channels.service.ts:1501-1550 | error branches in order, @everyone protected last; drops the one row |
| PermissionMirror.ClientShowsServerPermission | web-client/helpers/permissions.helper.ts:49-69 | over every run of creations, deletions, overwrite updates, overwrite deletes and syncs, each followed by the client, in which no deleted parent leaves a child with stale rows, the client shows every member other than guild owner and channel creator exactly the permission the server enforces |
| PermissionMirror.RunKeepsMirror | web-client/hooks/mutations.ts:255-286 | over those runs kinds, parents and sync flags agree, and own rows agree by target whenever the channel is not synced to a parent |
| PermissionMirror.FollowKeepsMirrorIff | web-client/hooks/mutations.ts:392-450 | one operation and the client's reaction to its response or event keep the mirror exactly when it is not the deletion of a channel to which a child with stale rows is synced |
| PermissionMirror.NeverThrows | web-client/hooks/mutations.ts:404-407 | the parent that the update callback dereferences is always there |
| PermissionMirror.OwnerIsShownEverything | web-client/helpers/permissions.helper.ts:49-52 | the client shows the guild's owner every permission, whatever the rows say |
| PermissionMirror.DeletionOnTheCopy | web-client/app/stores/guilds-store.ts:66-90 | a deleted channel leaves the copy; only the children of a deleted category lose their parent, and nothing else of them changes |
| PermissionMirror.ClientSetAgrees | web-client/hooks/mutations.ts:408-414 | replace-or-append on the client gives the rows the server stores |
| PermissionMirror.MirroredPermission | web-client/helpers/permissions.helper.ts:64-66 | on a mirrored guild both sides compute the same permission |
| PermissionMirror.DeleteKeepsMirrorIff | guild-service/src/channels/entities/channel.entity.ts:56 | a deletion keeps the mirror exactly when no child synced to the channel still holds stale rows |
| PermissionMirror.CategoryDeleteBreaksMirror | web-client/app/stores/guilds-store.ts:66-93 | the owner syncs a channel and deletes its category, both granted, and the client hides a channel the server shows |
| GuildsStore.Store.UpsertChannel | web-client/app/stores/guilds-store.ts:94-119 | merges what the event carries, keeps what it leaves out, and appends a channel it does not know |
| GuildsStore.Store.OnUpdateOverwriteSuccess | web-client/hooks/mutations.ts:395-416 | takes the parent's rows on desync, then replaces or appends the row; without the parent in the copy it throws, having marked the channel unsynced |
| GuildsStore.Store.OnDeleteOverwriteSuccess | web-client/hooks/mutations.ts:438-448 | filters the target's row out |
| GuildsStore.Store.DeleteChannel | web-client/app/stores/guilds-store.ts:66-93 | removes the channel, and the parent of its children only for a category |
| GuildsStore.Store.GetEffectivePermission | web-client/helpers/permissions.helper.ts:49-69 | filter and loop compute the permission the client shows: everything for the owner, else base and held roles under the rows the client looks at |
| Voice.RunInv | guild-service/src/channels/channels.service.ts:796-877 | in every run a user is in a channel's voice set if and only if the keyed state exists, the ring index is contained in the ring keys, and every ring key has a pending timer |
| Voice.StepInv | guild-service/src/channels/channels.service.ts:638-769 | every service method and every timer keeps that invariant |
| Voice.RingsAreRecent | guild-service/src/channels/channels.service.ts:685-687 | with punctual timers every ring key was last set within the timeout |
| Voice.RingsDieOut | guild-service/src/channels/channels.service.ts:900-913 | longer than the timeout after the last ring, no ring key and no ring-set member is left, orphaned keys included |
| Voice.OldRingsStayOld | guild-service/src/channels/channels.service.ts:722-748 | without a new ring, a surviving key is as old as it was |
| Voice.RingStaysIff | guild-service/src/channels/channels.service.ts:682-688 | a ring that is not set again, dismissed or joined stays exactly as long as none of the timers for its user and channel fires |
| Voice.RingLivesOutIff | guild-service/src/channels/channels.service.ts:682-688 | such a ring lives to the moment its own timer is due exactly when no older timer for its user and channel was pending |
| Voice.RefreshedRingIsLost | guild-service/src/channels/channels.service.ts:685-687 | a run in which a ring set again is gone ten seconds later |
| Voice.ClearedRingsKeepKeys | guild-service/src/channels/channels.service.ts:900-913 | a run that leaves keys outside the index |
| Voice.LeaveKeepsRingIndexIff | guild-service/src/channels/channels.service.ts:839-843 | a leave keeps index and keys equal exactly when it is not the last user leaving a channel in which somebody is being rung |
| Voice.StepKeepsRingIndexIff | guild-service/src/channels/channels.service.ts:900-913 | no other step makes them differ |
| Voice.PayloadsSpec | guild-service/src/channels/channels.service.ts:676-680 | everybody in the channel but the caller is rung |
| VoiceHistory.HistoryTells | guild-service/src/channels/channels.service.ts:638-961 | in every run a voice state is there exactly for who has joined and not left, with the last word on each flag; a ring exactly for who was rung and has not dismissed it, joined or been timed out since, from whoever rang last; and it is indexed exactly if moreover nobody has been the last to leave since |
| VoiceHistory.UpdateStores | guild-service/src/channels/channels.service.ts:918-929 | an update replaces each flag it carries, keeps each it leaves out, and touches no other record |
| VoiceHistory.StepRecord | guild-service/src/channels/channels.service.ts:772-929 | of all steps, a join stores its flags, an update overlays them, a leave forgets the record, and nothing else moves it |
| VoiceHistory.StepRing | guild-service/src/channels/channels.service.ts:638-769 | a ring key changes by ringing, dismissal, joining and timeout of that very user and channel only |
| VoiceHistory.StepIndex | guild-service/src/channels/channels.service.ts:638-916 | and its index entry by these and by the last user leaving |
| VoiceHistory.CaughtUpClientShowsLastWord | web-client/contexts/socket.context.tsx:123-138 | a client that has heard everything shows in its direct-message channels exactly who is there, each flag as it was last said unless it lags, and of its own rings exactly those that ring |
| VoiceHistory.RingTells | guild-service/src/channels/channels.service.ts:690-720 | a ring is announced to every recipient, the caller too, with the rings of all the others, and only by whoever may ring |
| VoiceHistory.DismissTells | guild-service/src/channels/channels.service.ts:722-769 | a dismissal tells the two ends of the ring and nobody else |
| VoiceHistory.FireTells | guild-service/src/channels/channels.service.ts:685-687 | and so does a timeout |
| VoiceHistory.JoinTells | guild-service/src/channels/channels.service.ts:772-810 | a join tells everybody the channel is for, and both ends of the ring it ends |
| VoiceHistory.LeaveTells | guild-service/src/channels/channels.service.ts:812-916 | a leave tells everybody the channel is for; the last one out also tells both ends of every indexed ring |
| VoiceHistory.UpdateTells | guild-service/src/channels/channels.service.ts:930-961 | an update tells the channel's recipients of the record as it then is, if the sender is one of them |
| VoiceReplica.CaughtUpClientAgrees | web-client/contexts/socket.context.tsx:123-138 | over every run with in-order delivery, a client that has received everything has exactly the server's indexed rings addressed to it, and voice states for the same users of its direct-message channels, each equal to the server's exactly when neither flag lags: was set, and then left out by a later join |
| VoiceReplica.CompleteJoinsNeverLag | web-client/app/stores/voice-state-store.ts:19-49 | if no join leaves out a flag that was set, nothing ever lags |
| VoiceReplica.LinkRunAgrees | web-client/components/voice-ring-manager/voice-ring-manager.tsx:144-173 | at every moment of every run, the client's stores after the messages still queued would agree with the server up to that lag |
| VoiceReplica.JoinAgreesIff | web-client/app/stores/voice-state-store.ts:19-49 | a join keeps client and server in agreement exactly when it leaves out no flag that was set: the server replaces, the client merges |
| VoiceReplica.IncompleteJoinDisagrees | web-client/app/stores/voice-state-store.ts:28-34 | a run of two joins after which client and server disagree |
| VoiceReplica.SnapshotIsFullScan | guild-service/src/channels/channels.service.ts:859-877 | the snapshot read through the index set lists exactly the stored states of the user's channels |
| VoiceReplica.VoiceSnapshotAgrees | web-client/contexts/socket.context.tsx:132-138 | a snapshot of voice states puts any client right |
| VoiceReplica.RingSnapshotAgrees | web-client/components/voice-ring-manager/voice-ring-manager.tsx:144-151 | a snapshot of rings puts any client right |
| VoiceReplica.RingAgrees | web-client/components/voice-ring-manager/voice-ring-manager.tsx:153-162 | ringing and re-ringing keep the client's own rings equal to the server's indexed ones |
| VoiceReplica.JoinAgrees | guild-service/src/channels/channels.service.ts:772-810 | a join keeps them in agreement up to the flags it leaves out |
| VoiceReplica.DismissAgrees | web-client/components/voice-ring-manager/voice-ring-manager.tsx:164-173 | a dismissal, by hand or by timeout, keeps client and server in agreement |
| VoiceReplica.LeaveAgrees | guild-service/src/channels/channels.service.ts:812-857 | a leave keeps them in agreement, also when the last user's leaving clears the channel's rings |
| VoiceReplica.UpdateAgrees | guild-service/src/channels/channels.service.ts:918-961 | a partial update, overlaid on the server and merged on the client, keeps them in agreement |
| VoiceReplica.PutRingsSpec | web-client/app/stores/voice-ring-state-store.ts:37-46 | a batch leaves each key with the ring that has it |
| VoiceService.Service.RingChannelRecipients | guild-service/src/channels/channels.service.ts:638-720 | status branches; keys, index entries and timers for everybody but the caller, and one event to all recipients, the caller included, that carries those rings |
| VoiceService.Service.SetRings | guild-service/src/channels/channels.service.ts:682-688 | the pipeline gives each ring its key, index entry and timer |
| VoiceService.Service.RingPayloads | guild-service/src/channels/channels.service.ts:676-680 | filter and map ring everybody but the caller |
| VoiceService.Service.HandleDismissVoiceRing | guild-service/src/channels/channels.service.ts:722-769 | removes key and index entry and tells both ends, or answers not found |
| VoiceService.Service.FireTimer | guild-service/src/channels/channels.service.ts:685-687 | a timeout dismisses, and is spent whether or not its ring is still there |
| VoiceService.Service.HandleVoiceJoin | guild-service/src/channels/channels.service.ts:772-810 | stores state and index entry, dismisses the user's ring, tells the audience |
| VoiceService.Service.HandleVoiceLeave | guild-service/src/channels/channels.service.ts:812-857 | removes state and index entry, clears rings after the last one, tells the audience |
| VoiceService.Service.ClearChannelVoiceRings | guild-service/src/channels/channels.service.ts:900-916 | one dismissal per indexed ring; only the index is deleted |
| VoiceService.Service.HandleVoiceStateUpdate | guild-service/src/channels/channels.service.ts:918-961 | merges into an existing record before any check of the channel |
| VoiceService.Service.HandleGetVoiceStates | guild-service/src/channels/channels.service.ts:859-877 | the nested loops list what the index of each of the user's channels leads to |
| VoiceService.Service.HandleGetVoiceRings | guild-service/src/channels/channels.service.ts:879-898 | the loops list exactly the rings that the index of each of the user's channels leads to |
| VoiceStores.Store.BatchUpdateVoiceRingState | web-client/app/stores/voice-ring-state-store.ts:37-46 | adds the rings one after the other |
| VoiceStores.Store.RemoveVoiceRingState | web-client/app/stores/voice-ring-state-store.ts:25-36 | removes the ring of channel and recipient |
| VoiceStores.Store.HandleGetVoiceRingStates | web-client/components/voice-ring-manager/voice-ring-manager.tsx:144-151 | replaces everything by the snapshot |
| VoiceStores.Store.UpdateVoiceState | web-client/app/stores/voice-state-store.ts:19-49 | merges flag by flag, or files a new state with absent flags off |
| VoiceStores.Store.RemoveVoiceState | web-client/app/stores/voice-state-store.ts:50-60 | removes the user's state in the channel |
| VoiceStores.Store.HandleGetVoiceStates | web-client/contexts/socket.context.tsx:132-138 | replaces everything by the snapshot |
| Typing.TypingIsTheRecentPast | web-client/app/stores/user-typing-store.ts:33-69 | in every run, once due timers have fired, a user shows as typing in a channel if and only if the last start is less than the timeout old with no message since |
| Typing.LateTimersOnlyLinger | web-client/app/stores/user-typing-store.ts:45-47 | with timers that fire late, a user shows if and only if the last start is recent or its own timer is still pending |
| Typing.RunPaired | web-client/app/stores/user-typing-store.ts:33-69 | in every run pending timers and entries are in bijection |
| Typing.FireIsStop | web-client/app/stores/user-typing-store.ts:45-47 | a timer that fires finds its own entry, never a refreshed one |
| Typing.KeyIsInjective | web-client/app/stores/user-typing-store.ts:21-23 | the joined key is injective on channel ids of one length |
| Typing.KeyIsNotInjectiveInGeneral | web-client/app/stores/user-typing-store.ts:21-23 | and not on ids of different lengths |
| Typing.UserTypingStore.HandleTypingStart | web-client/app/stores/user-typing-store.ts:33-53 | clears the old timer, arms a new one, files the entry |
| Typing.UserTypingStore.HandleTypingStop | web-client/app/stores/user-typing-store.ts:55-69 | clears the timer and removes the entry, or does nothing |
| Typing.UserTypingStore.GetTypingUsersForChannel | web-client/app/stores/user-typing-store.ts:70-75 | lists exactly the users that show as typing in the channel, each once |
| Messages.ListIsTheLog | web-client/hooks/mutations.ts:113-161 | over every run from an unfetched cache, in every interleaving of fetches, sends, confirmations and receives, the list is the last fetched one followed by the log of sends and receives since, in order, each position holding the server's message once it is there, as long as no confirmation finds its pending id with another send |
| Messages.ConfirmKeepsTheLogIff | web-client/hooks/mutations.ts:154-159 | a confirmation keeps the list the log exactly when its send was made since the last fetch or its pending id is not that of an unconfirmed send made since |
| Messages.ConfirmationOverwrites | web-client/hooks/mutations.ts:96 | a run in which the confirmation of one message takes the place of another |
| Messages.ReceiveIsKeptIff | web-client/contexts/socket.context.tsx:102-111 | in every run a received message is in the list, at its end, exactly when a fetch or another received message came before it |
| Messages.OnlyTheFirstIsLost | web-client/contexts/socket.context.tsx:102-111 | in a run without a fetch, whatever is sent in it, the log has every received message but the first |
| Messages.ReceivedTooEarly | web-client/contexts/socket.context.tsx:102-111 | messages received on an unfetched cache make a list of all of them but the first |
| Messages.ConfirmationFindsAList | web-client/hooks/mutations.ts:148-151 | a confirmation always finds a filled cache |
| Messages.MessageIsLost | web-client/contexts/socket.context.tsx:103-105 | a run of two received messages that loses one |
| Messages.AllConfirmed | web-client/hooks/mutations.ts:148-161 | with every send confirmed nothing is pending and after the fetched list come exactly the received messages and the responses in append order |
| Messages.ConfirmationIsInPlace | web-client/hooks/mutations.ts:154-159 | each confirmation of a send since the last fetch replaces exactly its own element, in place |
| Messages.PendingInPlace | web-client/hooks/mutations.ts:96 | an element with a pending id sits at the index it names |
| Messages.IdsStayUnique | web-client/hooks/mutations.ts:96 | if the server's ids are unique, all ids in the list are, at every moment |
| Messages.PendingIdsAreInjective | web-client/hooks/mutations.ts:96 | pending ids of different lengths differ as strings |
| Messages.MessagesCache.OnMutate | web-client/hooks/mutations.ts:88-125 | appends a message whose id is taken from the list's length; without a list it throws and changes nothing |
| Messages.MessagesCache.OnSuccess | web-client/hooks/mutations.ts:147-161 | the map replaces every element with the optimistic id |
| Messages.MessagesCache.HandleMessageReceived | web-client/contexts/socket.context.tsx:87-112 | appends; a cache that was never filled becomes an empty list and the message is lost |
| Roles.RunInv | guild-service/src/guilds/guilds.service.ts:604-637 | over every run of guild and role creation, deletion of any role and role updates in many guilds, in which no update writes a taken or non-positive position, positions inside a guild stay distinct and @everyone, as long as it exists, is alone at the bottom, at 0 |
| Roles.MoveRoleKeepsInvIff | guild-service/src/guilds/guilds.service.ts:462-467 | a role update keeps that exactly when it does not write a taken or non-positive position |
| Roles.PositionIsTaken | guild-service/src/guilds/guilds.service.ts:462-467 | a run of an owner that ends with two roles of a guild at one position |
| Roles.NewRoleIsJustAboveEveryone | guild-service/src/guilds/guilds.service.ts:625-637 | where @everyone exists a new role lands at 1 with nothing beside or below it but @everyone, and every other role of every guild moves up by one |
| Roles.NewRoleIsSecond | guild-service/src/guilds/guilds.service.ts:625-637 | in any case the lowest role of the guild stays in place and every other one ends above the new role |
| Roles.ShiftKeepsOrder | guild-service/src/guilds/guilds.service.ts:630-635 | the unscoped shift keeps the order of any two roles of any guild |
| Roles.OrderIsForever | guild-service/src/guilds/guilds.service.ts:604-637 | over whole runs two roles keep their order for as long as neither is moved itself |
| Roles.PositionIsAge | guild-service/src/guilds/guilds.service.ts:625-635 | in runs without moves and without @everyone deleted, a role's position is the number of roles created anywhere since, itself included |
| Roles.PositionsCountCreations | guild-service/src/guilds/guilds.service.ts:630-635 | in those runs a role moves up by one for every role created anywhere and for nothing else |
| Roles.DeleteRoleKeepsEveryoneIff | guild-service/src/guilds/guilds.service.ts:854-884 | deletions never disturb positions; one that goes through leaves every guild its @everyone role exactly when the role is another one |
| Roles.EveryoneIsDeleted | guild-service/src/guilds/guilds.service.ts:854-884 | a run that ends with a guild without its @everyone role |
| Roles.RoleStaysIff | guild-service/src/guilds/guilds.service.ts:604-892 | a role is there exactly if it was made, with its guild or by the owner, or was there and was not deleted by somebody who manages its guild |
| Roles.RoleKeepsItsPlace | guild-service/src/guilds/guilds.service.ts:433-645 | a role keeps its guild, and its position but for what the owner writes and for the shift of another role's creation |
| Roles.GoneRolesWereDeleted | guild-service/src/guilds/guilds.service.ts:854-892 | over runs, a role that is gone was deleted by somebody who managed its guild at that moment |
| Roles.CreateRoleAnswers | guild-service/src/guilds/guilds.service.ts:604-624 | the owner succeeds where the guild has a role; anybody else is forbidden; an unknown guild is a bad request |
| Roles.DeleteRoleAnswers | guild-service/src/guilds/guilds.service.ts:854-875 | a manager succeeds on a role of the guild; anybody else is forbidden; other roles are a bad request |
| Roles.MoveRoleAnswers | guild-service/src/guilds/guilds.service.ts:433-455 | the owner succeeds on a role of the guild; anybody else is forbidden before the role is looked for |
| Roles.RolesService.Create | guild-service/src/guilds/guilds.service.ts:110-122 | makes the @everyone role, with the guild's id and position 0 |
| Roles.RolesService.Lowest | guild-service/src/guilds/guilds.service.ts:625 | the loop finds the lowest position |
| Roles.RolesService.CreateRole | guild-service/src/guilds/guilds.service.ts:604-645 | answers bad request, forbidden, or an internal error when the guild has no role at all, and then changes nothing; else shifts every role from the new position up and files the new one |
| Roles.RolesService.DeleteRole | guild-service/src/guilds/guilds.service.ts:854-892 | answers bad request or forbidden and changes nothing, or removes exactly that role |
| Roles.RolesService.UpdateRole | guild-service/src/guilds/guilds.service.ts:433-468 | answers bad request or forbidden and changes nothing; else writes the position, unless it is 0 or the role is @everyone |
| Unread.CounterIsTraceCount | guild-service/src/channels/channels.service.ts:1181-1200 | the counter is the number of messages by others that reached the user in the channel since the last acknowledgement |
| Unread.OwnMessagesNeverCount | guild-service/src/channels/channels.service.ts:1187-1188 | a sender's own messages never count |
| Unread.RowsHaveCounters | guild-service/src/channels/channels.service.ts:1149-1157 | a user with a last-read row always has a counter, so the fallback count is not reached |
| Unread.RowIsLastRead | guild-service/src/channels/channels.service.ts:606-615 | in every run the last-read row is the last message the user acknowledged while allowed to |
| Unread.AcknowledgeAnswers | guild-service/src/channels/channels.service.ts:587-604 | an acknowledgement is a bad request without the channel, forbidden without the permission, and else accepted |
| Unread.BumpSpec | guild-service/src/channels/channels.service.ts:1191-1200 | each recipient's counter goes up by one and no other moves |
| Unread.Service.OnMessageCreated | guild-service/src/channels/channels.service.ts:1181-1200 | the loop bumps the counters of everyone reached but the sender; when the query for a guild channel throws, nobody is reached |
| Unread.Service.AcknowledgeMessage | guild-service/src/channels/channels.service.ts:587-628 | answers bad request or forbidden and changes nothing, or stores the last-read row and zeroes that one counter |
| Unread.Service.GetUserChannelState | guild-service/src/channels/channels.service.ts:1143-1165 | shows the counter, or zero for a user without counter and row |
| UnreadAudience.CountsForViewers | guild-service/src/channels/channels.service.ts:1187-1200 | a guild message counts for a member who neither owns the guild nor created the channel exactly when the member is not the sender, may view the channel and the query does not throw |
| UnreadAudience.CounterFollowsViewers | guild-service/src/channels/channels.service.ts:1181-1200 | over every run of channel operations, messages and acknowledgements the counter of such a member is the number of messages others have sent since the last acknowledgement that was let through, while the member could view the channel and the query did not throw |
| UnreadAudience.OrphanedChannelStopsCounting | guild-service/src/channels/channels.service.ts:1188 | after a category is deleted, messages in a channel that was synced to it count for nobody |
| UnreadAudience.OnGuildMessageCreated | guild-service/src/channels/channels.service.ts:1181-1200 | query and loop together: exactly the other members who pass the query are told and counted |
| UnreadAudience.Viewers | guild-service/src/channels/channels.service.ts:1188 | the ids of the query's members, each once, or the query's exception |
| Relationships.ViewsAreDual | user-service/src/relationships/relationships.service.ts:140-168 | in every run, for distinct users, Pending faces PendingReceived, Friends faces Friends, and Blocked faces nothing |
| Relationships.RunInv | user-service/src/relationships/relationships.service.ts:57-138 | every run keeps at most one record per unordered pair, through the swap on block, and never stores PendingReceived |
| Relationships.StepInv | user-service/src/relationships/relationships.service.ts:171-253 | request, update, block and removal each keep that |
| Relationships.ListedOnce | user-service/src/relationships/relationships.service.ts:149-160 | a list shows each other user at most once |
| Relationships.ShowsByRecord | user-service/src/relationships/relationships.service.ts:151-155 | what a list shows of a user is read off the one record between the two |
| Relationships.MutualRequestsMakeFriends | user-service/src/relationships/relationships.service.ts:104-120 | two users who ask each other become friends |
| Relationships.RemoveUndoesRequest | user-service/src/relationships/relationships.service.ts:294-329 | removing a new request, from either side, restores the records |
| Relationships.BlockStaysIff | user-service/src/relationships/relationships.service.ts:171-319 | a block stays as it is under every action but these: either side accepting it, the blocked side blocking back, and the blocker removing it or sending a request |
| Relationships.BlockHolds | user-service/src/relationships/relationships.service.ts:171-319 | over runs a block holds for as long as none of these happens |
| Relationships.BlockedSideAccepts | user-service/src/relationships/relationships.service.ts:194-199 | the blocked side can turn a block into a friendship |
| Relationships.BlockHandsOver | user-service/src/relationships/relationships.service.ts:238-253 | blocking makes the blocker the sender, and blocking back hands the block over |
| Bonds.StepIsDeed | user-service/src/relationships/relationships.service.ts:36-346 | for two different users every action is one deed of one of them or none: a request, an acceptance, a block, a removal; and it moves their bond (strangers, asked, friends, blocked) as the table of deeds says |
| Bonds.BondIsHistory | user-service/src/relationships/relationships.service.ts:36-346 | in every run two users stand to each other as their own deeds have left them, whatever others do |
| Bonds.ListShowsBond | user-service/src/relationships/relationships.service.ts:140-168 | each one's list shows of the other exactly that bond from their own side |
| Bonds.CreateAnswers | user-service/src/relationships/relationships.service.ts:36-138 | what a request by username is answered, by bond |
| Bonds.UpdateAnswers | user-service/src/relationships/relationships.service.ts:171-291 | what an update is answered, by record and wanted type |
| Bonds.BlockAnswers | user-service/src/relationships/relationships.service.ts:209-236 | anybody who is named can be blocked |
| Bonds.RemoveAnswers | user-service/src/relationships/relationships.service.ts:294-346 | what a removal is answered: a bad request to strangers and to the blocked side, and a late failure without the own profile |
| Relationships.RelationshipsService.CreateRequest | user-service/src/relationships/relationships.service.ts:36-138 | every branch of a request by username: unknown or own name, new request, friends already, own or received request, block by oneself or by the other |
| Relationships.RelationshipsService.UpdateRequest | user-service/src/relationships/relationships.service.ts:171-207 | dispatch on the wanted type, Friends when missing |
| Relationships.RelationshipsService.AcceptRequest | user-service/src/relationships/relationships.service.ts:255-291 | befriends from Pending or Blocked; saved even if the profile lookup then fails |
| Relationships.RelationshipsService.BlockUserUpdate | user-service/src/relationships/relationships.service.ts:238-253 | the blocker becomes the sender |
| Relationships.RelationshipsService.BlockUser | user-service/src/relationships/relationships.service.ts:209-236 | turns the existing record into a block, or makes one |
| Relationships.RelationshipsService.RemoveRequest | user-service/src/relationships/relationships.service.ts:294-346 | answers bad request and changes nothing for strangers and for the blocked side; else removes exactly that record, even if the profile lookup then fails |
| Relationships.RelationshipsService.FindAll | user-service/src/relationships/relationships.service.ts:140-168 | filter and map list exactly the visible records, no other user twice |
| Gateway.UserFanOutIsExact | ws-gateway/src/ws/ws.gateway.ts:164-181 | in every run a socket gets an event for distinct recipients exactly once if it is connected to this node under a recipient, and otherwise never |
| Gateway.SubscriberFanOutIsExact | ws-gateway/src/ws/ws.gateway.ts:141-162 | a socket connected to this node gets a broadcast once for each target it has subscribed to, any other socket never |
| Gateway.RemovedNeverChosen | ws-gateway/src/ws/ws.gateway.ts:82-87 | with fresh socket ids a removed socket is never chosen again by any node |
| Gateway.SubscribersOnlyGrow | ws-gateway/src/subscriptions/subscriptions.service.ts:11-23 | a subscriber set holds exactly the sockets that ever subscribed, present or not |
| Gateway.RunMirrors | ws-gateway/src/connections/connections.service.ts:10-33 | the user-to-sockets sets and the socket-to-node map say of every socket exactly what the run says |
| Gateway.Node.HandleConnection | ws-gateway/src/ws/ws.gateway.ts:70-80 | files socket and node; nothing without a user |
| Gateway.Node.HandleDisconnect | ws-gateway/src/ws/ws.gateway.ts:82-87 | removes the socket from its user and the node map, never from subscriber sets |
| Gateway.Node.SubscribeEvents | ws-gateway/src/ws/ws.gateway.ts:399-406 | the loop adds the socket to every topic |
| Gateway.Node.EmitTo | ws-gateway/src/ws/ws.gateway.ts:151-160 | the inner loop emits once to each socket of this node |
| Gateway.Node.HandleMessageReceived | ws-gateway/src/ws/ws.gateway.ts:164-181 | the nested loops emit to every socket of every recipient on this node |
| Gateway.Node.HandleBroadcast | ws-gateway/src/ws/ws.gateway.ts:148-161 | the nested loops emit to every subscriber of every target on this node |
| Color.PrintThenParse | web-client/helpers/color.helper.ts:4-11 | parsing a printed colour gives it back for every natural number, and for a negative one exactly when it needs no padding |
| Color.ParseThenPrint | web-client/helpers/color.helper.ts:4-11 | printing a parsed string of hex digits gives it back exactly when it is in lower case and six digits long, or longer without a leading zero |
| Color.HashIsRequired | web-client/helpers/color.helper.ts:9-10 | without a hash the parser answers NaN |
| Numerals.ValueOfNumeral | web-client/helpers/color.helper.ts:5 | the numeral of a number stands for that number |
| Numerals.NumeralOfValue | web-client/helpers/color.helper.ts:10 | a numeral without leading zeros is what its value prints as |
| Numerals.DigitsArePaddedNumeral | web-client/helpers/color.helper.ts:5 | padding a value's numeral to the width of the digits it was read from gives those digits |

## Left out

- ChannelStore.RunKeepsGood: requests whose masks have bit 31, which would be stored as a negative number, or bits from 53 up, which a JavaScript number rounds, are not covered.
- PermissionMirror.RunKeepsMirror: runs in which a deleted parent leaves a synced child with stale rows are excluded, since the mirror does not survive them (PermissionMirror.FollowKeepsMirrorIff).
- PermissionMirror.ClientShowsServerPermission: says nothing of the guild owner and the channel's creator, for whom the two sides apply different rules.
- SfuCoverage.NoProducerMissed: claims at least one consumer, since snapshot and announcement together can lead to two.
- SfuRegistry.CloseClientLeavesNothing: makes no claim about transports, because the peer's transport map is never filled.
- VoiceReplica.CaughtUpClientAgrees: covers direct-message channels, as guild channels' state updates reach no one, and state updates that carry flags only: the ids in an update's free-form data, which would rewrite those of the record, are not modelled.
- VoiceHistory.HistoryTells: as VoiceReplica.CaughtUpClientAgrees, for updates that carry flags only.
- VoiceReplica.UpdateAgrees: an update's data is its two flags; a userId or channelId in it would make the client file the state under another key.
- VoiceService.Service.HandleVoiceStateUpdate: an update's data is its two flags; whatever else it holds would be overlaid on the record as well.
- SfuLifecycle.HistoryTells: as SfuRegistry.RunAgrees, without requests to consume by a socket that has no peer.
- SfuRegistry.RunAgrees: leaves out requests to consume by a socket without a peer, which break the agreement (SfuRegistry.ConsumeAgreesIff).
- Voice.RingsAreRecent: needs punctual timers, and a process that does not restart, since timers live in memory.
- Unread.CounterIsTraceCount: covers runs in which Redis loses nothing; the fallback through the message service is not modelled.
- Roles.RunInv: excludes role updates that write a taken or non-positive position, after which it is false (Roles.MoveRoleKeepsInvIff).
- Color.PrintThenParse: numbers are integers; the rounding of JavaScript numbers above 2^53 is not modelled.
- ChannelsService.Service.DeleteChannel: the verdict of a permission lookup with a null id, whose outcome depends on the ORM, is an input (`byNullId`).
- Interleavings inside one handler, such as two sockets creating the same room's router at once.
- Redis key strings of rings, voice states and connections: keys are pairs, so collisions between key names are not modelled.
- Pausing, resuming, active-speaker events, RTP and DTLS parameters of the SFU, and its HTTP variant.
- Screen sharing and the media handling of the client beyond its store of transports, producers and consumers.
- Profiles, typing broadcasts, presence, invites, member joins and leaves, role assignment, channel update and guild update; of role updates, everything but the position.
- Events the relationship service emits, and the list copy clients keep from them.
- The failure branch of the send mutation, and when the message cache is fetched: a fetch may arrive at any moment.
- Nodes other than the one that fans out: the gateway does not forward to them either.
- Storage failures: the branches that answer an internal error after a failed save.
- React components, controllers, transports and database mappings.
