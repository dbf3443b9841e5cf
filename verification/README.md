# A verified model of the messenger's core

The messenger is a chat server and client. Authenticated connections register with a hub, which
keeps the map of online users and routes direct messages; one handler goroutine per connection
reads frames, limits the rate, and fans group messages out over the map; the client at each end has
a reader, a writer, and a cache of recent messages. This project models that core in Dafny and
proves what it promises, over every run and every interleaving.

Check everything with `dafny verify dfyconfig.toml`.

## How the parts fit

| files | what they hold |
|---|---|
| `hub_history.dfy` | the online map as a fold over the register and unregister events that the hub consumes |
| `hub_core.dfy` | the hub goroutine and the handlers as an interleaved step system: one step is one channel operation, lock operation, map access or mailbox offer |
| `hub_safety.dfy`, `hub_dead_entry.dfy` | the lock discipline; no send on a closed mailbox under a schedule, and a run without the schedule that panics |
| `hub_turns.dfy`, `hub_progress.dfy` | the exact online map; no deadlock, and draining |
| `hub_fanout.dfy`, `hub_requests.dfy`, `hub_delivery.dfy` | what each request leads to, step for step; the hub's own offers |
| `hub.dfy` | the hub object itself, as one goroutine executes it under the lock |
| `messenger.dfy`, `mailboxes.dfy`, `delivery_order.dfy`, `delivery_once.dfy` | mailboxes, writers, wires and clients around that system; conservation, what is accepted and what is lost, order, at-most-once delivery |
| `index_tree.dfy`, `bst.dfy` | the user index as a value, and the mutable heap tree proved to be that value |
| `user_directory.dfy` | the users table beside the index, one request at a time and with requests overlapping |
| `rate_limiter.dfy` | the token bucket |
| `frame_codec.dfy` | the wire format over streams that may be cut or chunked anywhere |
| `conversation_keys.dfy`, `message_cache.dfy` | cache keys; the cache over Go slices with shared backing arrays |
| `go_strings.dfy` | Go's byte-wise string order |

Inside `HubCore` and `Messenger` a run is a sequence of labels. A label names the goroutine that moves and
carries everything it cannot foresee: what the database, the limiter and the clock answer, the order
in which a map is ranged over, when a network write fails. A theorem about all label sequences is
therefore a theorem about all schedules, all ready cases of a `select`, and all database answers.
The hub, the handlers and the client goroutines are step functions on values there, not
classes, because a method runs from start to end and these interleave; `Hubs.Hub` is the same hub as
a class, with the loops and field updates of the source, and both use `HubHistory.Consumed` as the meaning
of the two map branches.

Three schedules are assumptions of the theorems that name them, and each comes with what happens
without it:

- `HubSafety.Orderly` (a register is consumed before the same connection queues its unregister). Register
  and unregister are separate channels, so nothing in the source enforces it.
  `HubDeadEntry.SendOnClosedMailboxCanHappen` is a run without it that sends on a closed mailbox, and
  `HubSafety.DeadEntryExactlyWhen` says for every run exactly when the map comes to hold a closed connection,
  and `HubDeadEntry.PanicInReachExactlyWhen` that the panic is then in reach, and only then.
- `HubTurns.OneAtATime` (also, a name registers again only after its previous connection is gone).
  Without it `HubSafety.OnlineMapIsTheHistory` still says what the map holds.
- `DirectoryRaces.NoOverlap` (an account is not deleted between the database step and the index step of its
  own login). `DirectoryRaces.DeletedUserCanReappear` is a run without it, and
  `DirectoryRaces.ListingAgreesExactlyWhen` the exact condition for every run.

Where code and prose disagree the code is followed. The comment at `internal/server/hub.go:31-32`
says that only the hub goroutine touches the map and needs no mutex; handlers read it under the
RWMutex at line 42, and it is that discipline which is modelled. The message table in the
repository's README gives 0x0D and 0x0E to typing notices, while
`internal/protocol/types.go:43-46` gives them to leaving a group and deleting an account and has
typing at 0x10; the codec here is proved for every kind byte. The comment of `hub.go:34-36` promises logarithmic lookup;
`IndexTree.SortedPreloadIsDegenerate` shows that a sorted preload builds a list.

Assumed of the surroundings: marshalling a payload and unmarshalling it gives it back (texts are
valid UTF-8), database calls return, the clock does not go back, and the database hands out each
group member once.

## Model

| member | source | states |
|---|---|---|
| HubHistory.OnlineIffLastEventRegisters | internal/server/hub.go:68-79 | for any history of hub events, with no ordering assumption: a name is in the map iff its last event was a register, and its entry is that register's connection |
| HubHistory.ClosedIffNameHadEntry | internal/server/hub.go:74-79 | a mailbox is closed iff its unregister was consumed when the name had an entry, whoever's entry it was |
| HubHistory.ClosedAtMostOnce | internal/server/hub.go:76-79 | in a history without repeated events, with fixed names, two closings of one mailbox are the same event; every run has such a history (HubSafety.EveryRunKeepsHistory) |
| HubHistory.NeverMapsClosedExactlyWhen | internal/server/hub.go:68-79 | the map never holds a closed connection iff no register is consumed after the same connection's closing unregister |
| HubHistory.DeadEntryHistory | internal/server/hub.go:68-79 | a three-event history of two logins under one name that leaves a closed connection mapped |
| HubHistory.TurnsMakeTheMapExact | internal/server/hub.go:68-79 | if logins under a name take turns, the map holds exactly the connections registered and not unregistered, and exactly the unregistered ones are closed |
| HubHistory.TurnTaken | internal/server/hub.go:68-79 | one event that fits its turn keeps both sides exact |
| HubSafety.EveryScriptIsSound | internal/server/client_handler.go:119-168 | every branch of every request handler locks and unlocks in pairs and never nests the read lock; while holding it, it makes offers over the map only and queues nothing for the hub; without it, it offers to its own mailbox only |
| HubSafety.StepKeepsInv | internal/server/hub.go:65-128 | each step of any goroutine keeps the lock discipline, the queues, the filing of each connection under its own name, and what the hub has in hand |
| HubSafety.EveryRunKeepsInv | internal/server/hub.go:65-128 | so does every run |
| HubSafety.SafeStateDoesNotPanic | internal/server/client_handler.go:315-327 | where no closed connection is mapped or about to be, no enabled step of any goroutine sends on, or closes, a closed mailbox |
| HubSafety.OrderlyStepKeepsSafety | internal/server/client_handler.go:30-34 | a step that keeps the schedule never makes a closed connection mapped or about to be |
| HubSafety.NoSendOnClosedMailbox | internal/server/hub.go:65-143 | in every run that keeps the schedule, with any number of logins per name: no panic has happened, no enabled step of any goroutine offers to a closed mailbox or closes one again, and no closed connection is in the map |
| HubSafety.PanicNeedsDeadEntry | internal/server/hub.go:74-79 | without any schedule: no mailbox is ever closed twice, a step panics iff it offers to a closed mailbox, and then the map holds a closed connection |
| HubSafety.BookIsReplayFrom | internal/server/hub.go:65-81 | in every run the map and the closed set are the fold of the events that the hub has applied |
| HubSafety.OnlineMapIsTheHistory | internal/server/hub.go:65-81 | the statements about histories, for every run: mapped iff the name's last event registered, closed iff the name had an entry then, closed by at most one event |
| HubSafety.EveryRunKeepsHistory | internal/server/client_handler.go:26-34 | in every run each connection's register and unregister occur in the history at most once each, bear its name, and are neither queued nor in hand any more |
| HubSafety.DeadEntryExactlyWhen | internal/server/hub.go:68-79 | for every run: the map at some time held a closed connection iff a register was consumed after that connection's closing unregister |
| HubDeadEntry.SendOnClosedMailboxCanHappen | internal/server/hub.go:68-79 | some run of the system, with a second login under one name, ends in a send on a closed mailbox |
| HubDeadEntry.PanicInReachExactlyWhen | internal/server/server.go:128-146 | for every reachable state where the hub is idle and the register channel has room: the handlers alone can come to a send on a closed mailbox iff the map holds a closed connection |
| HubTurns.OnlineMapIsExact | internal/server/hub.go:68-81 | in every run with one login at a time: the map is exactly the registered and not unregistered connections, the closed set exactly the unregistered ones |
| HubTurns.OnlineAreThoseNotLeft | internal/server/client_handler.go:26-34 | the same, in every state of such a run, in terms of where each handler and the hub stand: online iff the hub is done with its register and not with its unregister; closed iff the hub is done with its unregister |
| HubTurns.StepKeepsTurns | internal/server/hub.go:65-87 | each step of such a run keeps the turns |
| HubProgress.LockHolderCanStep | internal/server/client_handler.go:332-354 | a goroutine that holds the read lock is never blocked, on a channel or on the lock again |
| HubProgress.NoDeadlock | internal/server/hub.go:65-87 | in every reachable state with a queued event or a goroutine blocked on a hub channel or the lock, the hub or a lock holder has an enabled step |
| HubProgress.QueuesDrain | internal/server/hub.go:65-128 | with nothing new queued, every order of hub and lock-holder steps is finite; where it stops the queues are empty and the hub has taken exactly as many events as were queued |
| HubProgress.HubStepBurnsFuel | internal/server/hub.go:65-128 | each hub step brings the end nearer, and takes from the queues exactly when it is a receive |
| HubProgress.HandlerCanStep | internal/server/client_handler.go:16-56 | in every reachable state a handler that has not returned can step, or waits for a full hub channel or behind the hub's lock; one that serves and has nothing left to do can read any frame |
| HubProgress.ReadersOnlyLeave | internal/server/hub.go:69 | once the hub has called Lock, no handler gets the read lock until the hub has let go |
| HubProgress.IdleHubTakesAny | internal/server/hub.go:67-85 | in every reachable state an idle hub can take from any channel that holds something, whatever the others hold |
| HubProgress.QueuesAreBounded | internal/server/hub.go:56-58 | the channels never hold more than 8, 8 and 256 |
| HubProgress.LifeIsCounted | internal/server/client_handler.go:16-56 | in every run each connection registers, begins to serve, unregisters and returns at most once each, in this order, and its phase tells which it has done |
| HubFanOut.ScriptPays | internal/server/client_handler.go:119-168 | however a run interleaves, a handler does exactly what its script comes to over the maps that it finds when it takes the lock: the same offers and messages in the same order, nothing twice, nothing left out, nothing else |
| HubFanOut.OffersMeetMailboxes | internal/server/client_handler.go:320-323 | the offers counted there are those that meet the mailboxes |
| HubRequests.EveryScriptPays | internal/server/client_handler.go:170-514 | the script of each kind of request comes to the offers and messages that the request is to lead to, in order, and takes the lock as often as expected |
| HubRequests.RequestIsServed | internal/server/client_handler.go:119-514 | every request, from its frame to the end of its handling in any run: exactly the expected offers and messages, in order, over the maps found at the locks; a refused or malformed one leads to one error and nothing else; the handler reads on unless the account was to be deleted |
| HubRequests.GroupMessageIsOfferedOnce | internal/server/client_handler.go:284-328 | a served group message, from its frame on in any run, is offered once to the sender's connection, once to the connection of each other member mapped when the lock is taken, to nobody else, and nothing else is done |
| HubRequests.DirectMessageIsEchoedAndRoutedOnce | internal/server/client_handler.go:170-202 | a served direct message, from its frame on in any run, is offered once to the sender's connection and then queued once for the hub, bearing the request's fields and the authenticated name; nothing else is done |
| HubRequests.OnceEach | internal/server/client_handler.go:315-327 | going over a list of distinct names makes one offer to each connection that is online under one of them and not skipped, none to any other |
| HubRequests.UserListFanOut | internal/server/server.go:110-147 | the user list at the start and the end of a connection, in any run, is offered once to every connection mapped when the lock is taken, at the start once more to the newcomer after that, to nobody else, and nothing else is done |
| HubDelivery.AddresseeOnlineIsOffered | internal/server/hub.go:83-127 | from the moment the hub takes a message until it is idle again, in any run: its offers are exactly one to the connection mapped under the addressee's name at the lookup, and none only if none is mapped then |
| HubDelivery.NoAddresseeNoOffer | internal/server/hub.go:116 | a message without an addressee leads to no offer |
| Hubs.ClientConn.Offer | internal/server/hub.go:121-125 | an offer enters the mailbox unless 64 are buffered, and then changes nothing |
| Hubs.Hub.ConsumeRegister | internal/server/hub.go:68-71 | for any map and any connection, closed ones too: the map after a register is that of the history with one more event |
| Hubs.Hub.ConsumeUnregister | internal/server/hub.go:74-80 | likewise an unregister, for any map; the connection ends closed iff it was or its name had an entry; closing a closed mailbox is the panic that is ruled out |
| Hubs.Hub.ConsumeAll | internal/server/hub.go:65-81 | the loop over any run of events, each at most once, in any order: map and closed mailboxes are the fold of the events, and no mailbox is closed twice |
| Hubs.Hub.Deliver | internal/server/hub.go:106-128 | one offer to the connection mapped under the addressee's name, none to any other mapped connection, none without an addressee; what the mailboxes hold then |
| Hubs.Hub.Broadcast | internal/server/hub.go:131-143 | one offer to every mapped connection except the sender's, in any map order; what the mailboxes hold then |
| Hubs.Hub.OnlineUsers | internal/server/hub.go:146-154 | lists each online name once and no other |
| Hubs.Hub.HandleGroupMsg | internal/server/client_handler.go:309-327 | one offer to the sender and to each other online member, none to any other mapped connection; what the mailboxes hold then |
| Hubs.Hub.BroadcastUserList | internal/server/server.go:110-147 | the online list holds each mapped name and the newcomer's once; one offer to each mapped connection and one to the newcomer, who gets two if mapped already; what the mailboxes hold then |
| Hubs.Hub.OnlineSet | internal/server/server.go:114-126 | lists each mapped name and the newcomer's once, whether the newcomer is mapped yet or not |
| Messenger.OfferConserves | internal/server/hub.go:121-125 | an offer keeps conservation, is the next accepted iff fewer than 64 are buffered, and is dropped iff 64 are |
| Messenger.MailStepConserves | internal/client/conn.go:116-129 | each step of the writer, the wire and the client's reader loses, invents and reorders nothing |
| Messenger.SendStepKeepsTags | internal/client/conn.go:94-144 | each step on the way to the server keeps the messages under way in sending order and unchanged |
| Messenger.ServerStepOnPipe | internal/server/client_handler.go:41-54 | a server step leaves a connection's pipe alone, reads its first frame, starts its writer, or makes it one offer; which of them when is Mailboxes.OfferIsAccepted and NoOfferNoChange |
| Messenger.MailboxConservation | internal/server/client_handler.go:26-51 | in every run, for every connection: accepted is taken followed by buffered, at most 64 are buffered, what the client saw is a prefix of what was written, that of what was taken; nothing taken is missing while the writer runs |
| Messenger.EveryServerStepCanBeTaken | internal/server/hub.go:65-128 | putting the pipes around the server rules out none of its steps |
| Mailboxes.OfferIsAccepted | internal/server/hub.go:120-125 | a server step that offers an envelope to a connection puts it last into that mailbox if fewer than 64 are buffered, changes nothing if 64 are, and no other mailbox ever |
| Mailboxes.NoOfferNoChange | internal/server/hub.go:120-125 | a step without an offer changes no mailbox |
| Mailboxes.AcceptedIsWhatFitted | internal/server/client_handler.go:26-51 | in every run what a mailbox accepted is what was offered to it, in order, less the offers that met 64 buffered envelopes |
| Mailboxes.SentIsReadOrUnderWay | internal/client/conn.go:94-144 | in every run, while the connection is up, what was passed to `Send` is what the handler has read, in order, followed by what is on the way |
| Mailboxes.AllCanArrive | internal/client/conn.go:116-129 | from any state with the writer running, the goroutines of one connection can bring all that was accepted to the UI |
| Mailboxes.AllCanLeave | internal/client/conn.go:132-144 | from any state its writer can bring all that was sent onto the wire, and `Send` can go on |
| Mailboxes.SendWaitsExactlyWhen | internal/client/conn.go:94-99 | `Send` waits exactly while 64 messages are queued and the connection is up |
| Mailboxes.ClosedForGood | internal/client/conn.go:108-113 | once the UI has closed the connection `Send` never waits again |
| Mailboxes.WriterStartsWithServing | internal/server/client_handler.go:41-54 | in every run the writer of a connection has been started iff its handler has begun to serve |
| DeliveryOrder.DirectMessagesArriveInOrder | internal/client/conn.go:94-144 | in every run, for connections a and b: the direct messages from a that b's UI has been given are a subsequence, in order and without repeats, of what a passed to `Send`, addressed to b's user, content unchanged, under a's authenticated name |
| DeliveryOrder.EveryRunKeepsOrder | internal/server/client_handler.go:119-202 | the invariant behind it: all messages of a connection that a mailbox accepted or may yet accept stand in line by age, each genuine |
| DeliveryOrder.ServerStepKeepsFlow | internal/server/hub.go:83-128 | no server step lets one message of a connection pass another on the way to a mailbox |
| DeliveryOrder.AcceptedStaysGenuine | internal/server/client_handler.go:177-200 | what a mailbox accepts is a request some client sent, under its sender's name, and addressed to this user unless it is the sender's own echo |
| DeliveryOnce.HubOffersEachOnceInOrder | internal/server/hub.go:83-128 | in every run the hub offers each direct message at most once, to all mailboxes together, and those of one connection in the order of sending |
| DeliveryOnce.HubOffersToTheAddressee | internal/server/hub.go:116-127 | the hub's offer, though made after the lock is released, goes to the connection still mapped under the addressee's name |
| IndexTree.FindIsMembership | internal/util/bst.go:81-92 | search answers membership |
| IndexTree.InsertAddsKey | internal/util/bst.go:68-79 | insertion keeps the search order and adds exactly the key |
| IndexTree.MinKeyIsLeast | internal/util/bst.go:118-123 | the end of the left spine is the least key |
| IndexTree.DeleteRemovesKey | internal/util/bst.go:94-116 | deletion keeps the search order and removes exactly the key |
| IndexTree.DeleteTwoChildren | internal/util/bst.go:109-114 | likewise where the successor's key moves up and the successor goes |
| IndexTree.SuccessorWriteBreaksOrder | internal/util/bst.go:112-114 | between these two lines the search order never holds |
| IndexTree.InOrderIsAscending | internal/util/bst.go:125-132 | the listing is strictly ascending |
| IndexTree.InOrderIsTheSortedListing | internal/util/bst.go:125-132 | it is the only strictly ascending listing of the key set, whatever shape history gave the tree |
| IndexTree.SizeCountsKeys | internal/util/bst.go:134-139 | the length is the number of distinct keys |
| IndexTree.EveryHistoryIsASetHistory | internal/util/bst.go:66-139 | any sequence of the five operations on tree values answers as a finite set of strings does |
| IndexTree.DeleteUndoesInsert | internal/util/bst.go:68-116 | deleting a newly inserted key gives back the same tree, node for node |
| IndexTree.PathWithinHeight | internal/util/bst.go:68-92 | search and insertion look at no more nodes than the height |
| IndexTree.DeleteWithinTwiceHeight | internal/util/bst.go:94-123 | deletion, with the search for the successor and its removal, looks at no more than twice the height |
| IndexTree.InsertRaisesHeightByAtMostOne | internal/util/bst.go:68-79 | insertion raises the height by at most one, and never lowers it |
| IndexTree.DeleteNeverRaisesHeight | internal/util/bst.go:94-116 | deletion never raises the height, whatever the tree and the key |
| IndexTree.PreloadIndexesEveryKey | internal/server/server.go:74-77 | inserting rows one by one indexes exactly those rows |
| IndexTree.SortedPreloadIsDegenerate | internal/server/server.go:74-77 | rows that come strictly ascending build a tree as high as they are many |
| Bst.ShapeIsUnique | internal/util/bst.go:18-27 | a heap pointer is the root of one tree only |
| Bst.BstInsert | internal/util/bst.go:68-79 | the heap becomes that of the inserted tree, with the same node objects and one fresh node iff the key is new, in as many visits as the path is long |
| Bst.BstMin | internal/util/bst.go:118-123 | the loop finds the leftmost node, which holds the least key |
| Bst.BstDelete | internal/util/bst.go:94-116 | the heap becomes that of the tree without the key, same objects in place, no sharing and no cycle, through the line where a key stands twice |
| Bst.BstInOrder | internal/util/bst.go:125-132 | appends the listing to what the slice held |
| Bst.BstSearch | internal/util/bst.go:81-92 | the heap search is the search of the tree value, in as many visits as the path is long |
| Bst.BST.Insert | internal/util/bst.go:30-34 | the set gains the key; a present key leaves every node as it was |
| Bst.BST.Delete | internal/util/bst.go:44-48 | the set loses the key, and no node is added |
| Bst.BST.Search | internal/util/bst.go:37-41 | answers membership |
| Bst.BST.InOrder | internal/util/bst.go:51-57 | lists the set, strictly ascending |
| Bst.BST.Len | internal/util/bst.go:60-64 | counts the set |
| Bst.RunHistory | internal/util/bst.go:30-64 | any sequence of the five operations on the heap index answers as a finite set of strings does, and keeps order, acyclicity and disjointness |
| Bst.InsertThenDelete | internal/util/bst.go:30-48 | for a key not present the same node objects are back in the same places |
| UserDirectory.Directory.Preload | internal/server/server.go:74-79 | from an empty index, the index lists exactly the users not deleted, or stays empty when the query fails; its nodes are new |
| UserDirectory.Directory.Authenticate | internal/server/client_handler.go:91-108 | index and table keep agreeing, database failures included; a registration succeeds iff the name is free, a login iff the name is there, not deleted, and the password matches; what each changes |
| UserDirectory.Directory.DeleteAccount | internal/server/client_handler.go:504-510 | index and table keep agreeing; the row is marked deleted and the name is gone from the index, or nothing changes when the update fails |
| UserDirectory.Directory.AllUsersSorted | internal/server/hub.go:101-103 | lists exactly the users not deleted, in byte order, and leaves the agreement in place |
| UserDirectory.Directory.ListUsers | internal/db/db.go:80-96 | the rows are exactly the users not deleted |
| DirectoryRaces.DeletedForGood | migrations/001_init.sql:4 | in every run a soft-deleted user stays deleted, the unique name being taken |
| DirectoryRaces.TableIsTheHistory | internal/db/db.go:40-57 | in every run a name is in the table iff it was or was registered, and deleted iff it was or a deletion came |
| DirectoryRaces.IndexStepsArePaidFor | internal/server/client_handler.go:91-108 | in every run the insertions of a name and those under way are as many as its registrations and logins with the right password; likewise removals and deletions |
| DirectoryRaces.EachInsertionWasLetIn | internal/server/client_handler.go:95-108 | each insertion of a name comes after a registration of it or a login of it with the right password |
| DirectoryRaces.RequestsAllowedExactlyWhen | internal/db/db.go:40-77 | a name registers iff it is not in the table; it logs in iff it is there, not deleted, and the password is right |
| DirectoryRaces.ActiveUsersAreListed | internal/server/client_handler.go:91-108 | however requests overlap, once no authentication is half done every active user is listed |
| DirectoryRaces.IndexedIffLastStepInserts | internal/server/hub.go:91-98 | a name is indexed iff the last index step on it inserted it, or none touched it and it was there |
| DirectoryRaces.ListingAgreesExactlyWhen | internal/server/client_handler.go:91-108 | at rest the listing is exactly the active users iff no deleted user's last index step was an insertion |
| DirectoryRaces.DeletedUserCanReappear | internal/server/client_handler.go:504-510 | a run in which a login overlaps the deletion of the same account and leaves it listed |
| DirectoryRaces.ListingIsTheActiveUsers | internal/server/client_handler.go:504-510 | without such overlap, in every run: sorted, nobody deleted listed except while being removed, and at rest exactly the active users |
| RateLimiter.Limiter.ConsumeToken | internal/server/client_handler.go:358-382 | the two fields and the answer are those of one refill and one spend of the bucket whose grants BurstExactly and WindowBound state |
| RateLimiter.AtMostFourAfterACall | internal/server/client_handler.go:377-381 | after every call between zero and four tokens are left, and the stamp is not in the future |
| RateLimiter.RefillKeepsLevel | internal/server/client_handler.go:366-376 | tokens plus unclaimed time never grow in a refill and do not exceed a full bucket after it |
| RateLimiter.GrantsArePaidFor | internal/server/client_handler.go:358-382 | grants in a window plus the level left are paid from a full bucket and the time since |
| RateLimiter.WindowBound | internal/server/client_handler.go:356-382 | any window of calls is granted at most five plus five a second |
| RateLimiter.WindowBoundIsTight | internal/server/client_handler.go:356-382 | the bound is met: five of six calls at one instant |
| RateLimiter.RefusedExactlyWhen | internal/server/client_handler.go:366-381 | a call is refused iff the bucket is empty and fewer than 200 ms have passed since the last refill |
| RateLimiter.BurstExactly | internal/server/client_handler.go:362-381 | of the calls at one instant exactly as many are granted as tokens were left plus one for each 200 ms since the stamp, and at most five; of the first calls five |
| RateLimiter.BurstIsGranted | internal/server/client_handler.go:362-381 | at least so many are granted at whatever later times they come |
| RateLimiter.SilenceFillsTheBucket | internal/server/client_handler.go:369-381 | after a second without a call, whatever came before, the next five calls are granted |
| RateLimiter.StampIsLastCredit | internal/server/client_handler.go:363-375 | the stamp is the time of the last call that credited anything, or of the first |
| RateLimiter.SpacedCallsAreGranted | internal/server/client_handler.go:366-381 | calls at least 200 ms apart are never refused |
| RateLimiter.NothingLostUncapped | internal/server/client_handler.go:366-381 | if no refill is capped, grants plus tokens left are five plus what was credited |
| RateLimiter.CreditWithinHalf | internal/server/client_handler.go:366-375 | rounding costs at most half: credited lies between 2.5 and 5 tokens a second over the stretch that the stamp has moved |
| FrameCodec.Encode | internal/protocol/types.go:160-185 | writes exactly the frame, or fails with which error when; a failed write leaves a strict prefix, other errors write nothing |
| FrameCodec.Decode | internal/protocol/types.go:189-212 | however the stream is chunked, wherever it is cut, and whether it ends or fails there, the result, the error and the bytes left are those of parsing its bytes |
| FrameCodec.Source.ReadFull | internal/protocol/types.go:191-207 | short reads add up: a full buffer, or which fault after how many bytes, a failed connection included |
| FrameCodec.LengthRoundTrip | internal/protocol/types.go:169-200 | the four length bytes read back as the length, for every 32-bit length |
| FrameCodec.ParseOfLayout | internal/protocol/types.go:160-212 | a frame followed by anything decodes to the frame and leaves the rest |
| FrameCodec.ParseIsCanonical | internal/protocol/types.go:189-212 | the bytes of a successful decode are the encoding of its result |
| FrameCodec.CutFrameIsAnError | internal/protocol/types.go:191-209 | every strict prefix of a frame is an error, and which |
| FrameCodec.FrameBytes | internal/protocol/types.go:169-184 | the bytes of a frame: 0xAB, 0xCD, the kind, the length in four bytes from the highest, the payload |
| FrameCodec.OutcomeExactlyWhen | internal/protocol/types.go:189-212 | for any bytes and any end of the stream, which outcome and which fault; the first check that fails decides |
| FrameCodec.CleanEndExactlyWhen | internal/client/conn.go:116-123 | for any bytes a read loop stops at a plain end of file iff the stream was closed between frames |
| FrameCodec.StreamRoundTrip | internal/protocol/types.go:160-212 | any sequence of frames, cut inside the next one, reads back as exactly those frames |
| FrameCodec.ReadsConsumeExactly | internal/protocol/types.go:189-212 | and reading them consumes exactly their bytes |
| FrameCodec.ReadLoopIsCanonical | internal/client/conn.go:116-129 | whatever a read loop gets from any bytes is what those bytes encode |
| ConversationKeys.DmKeyIsSymmetric | internal/client/cache.go:51-56 | the key does not depend on who sends |
| ConversationKeys.KeyIsSharedExactlyWhen | internal/client/cache.go:51-56 | for all names: another pair shares the key iff the key has another colon with its two sides in order |
| ConversationKeys.ColonFreePairsHaveTheirOwnKey | internal/client/cache.go:51-56 | two users without a colon share a key with no other pair |
| ConversationKeys.ColonNamesCanCollide | internal/client/cache.go:51-56 | with colons two conversations can fall together |
| ConversationKeys.DmMeetsGroupExactlyWhen | internal/client/cache.go:43-56 | for all names: a direct conversation's key is a group's iff its first name is "group" or begins with "group:" |
| ConversationKeys.GroupKeysDiffer | internal/client/cache.go:39-45 | each group has its own key |
| ConversationKeys.FiledBetween | internal/client/cache.go:43-48 | under the key of two plain names are filed exactly the direct messages between them, in either direction |
| ConversationKeys.FiledInGroup | internal/client/cache.go:43-48 | under the key of a group are filed its messages, and those direct messages whose key is the same; among plain names there are none |
| MessageCaches.Append | internal/client/cache.go:29 | Go's append: in place while capacity remains, else a fresh array of any larger size; views that end before the written cell keep their contents |
| MessageCaches.MessageCache.Add | internal/client/cache.go:23-30 | every bucket stays the last `limit` messages of its key, and every slice ever handed out keeps its contents, evictions included |
| MessageCaches.AddAll | internal/client/cache.go:23-30 | after any sequence of additions every bucket is the last `limit` messages of its key in the whole log, and every slice handed out before still shows what it showed |
| MessageCaches.RunHistory | internal/client/cache.go:23-41 | after any sequence of additions and lookups every slice handed out along the way still shows the last `limit` messages as of its lookup |
| MessageCaches.RunPlainHistory | internal/client/cache.go:23-41 | the same without keys: a lookup of two plain names shows the last `limit` direct messages between them, a lookup of a group the last `limit` messages to it |
| MessageCaches.ConversationIsBetweenExactlyWhen | internal/client/cache.go:33-36 | for any names a bucket holds the messages between the two iff no other message of the log shares their key |
| MessageCaches.ConversationIsToGroupExactlyWhen | internal/client/cache.go:39-41 | a group's bucket holds the messages to it iff no direct message of the log shares its key |
| MessageCaches.MessageCache.Push | internal/client/cache.go:25-29 | one bucket slides by one message and no other changes |
| MessageCaches.MessageCache.Get | internal/client/cache.go:33-36 | gives the last `limit` messages of the pair, and the slice is kept from then on |
| MessageCaches.MessageCache.GetGroup | internal/client/cache.go:39-41 | likewise for a group; callers keep such slices (internal/ui/app.go:302-334) |
| MessageCaches.WindowGrows | internal/client/cache.go:23-30 | the last-messages window of a growing log moves by one for the message's own key and not for others |
| GoStrings.LessMeansSmallerAtPart | internal/client/cache.go:52 | the order is decided at the first place where two strings part |
| GoStrings.LessIsStrictTotalOrder | internal/util/bst.go:72-74 | the byte-wise order is a strict total order |
| GoStrings.AscendingListingIsUnique | internal/util/bst.go:125-132 | a set of strings has one strictly ascending listing |

## Left out

- Shutdown and signals: the notices of `internal/server/server.go:150-171` are sent from goroutines that outlive the read lock, so they are outside the claim about closed mailboxes.
- JSON, timestamps, bcrypt, TLS and sockets: payloads are opaque bytes or datatypes; what they would decide (a malformed request, a wrong password, a failed write) is a choice in the label.
- SQL: the users table is a map from names to active or deleted, group members come with the label; history queries, groups and saved messages are not stored. Collation is ignored; order is claimed of the index only.
- Terminal UI, flags, configuration and logging: no logic that the properties depend on.
- Contents of group posts, user lists, history and error envelopes: an envelope of these kinds carries no payload in the model, so which users a list names at which moment is not stated; direct messages carry all their fields.
- `Origin` in `HubCore` and `Messenger`: a mark of which `Send` a message came from, by which order is stated. No step reads it.
- Limiter inside the step system: a request may be refused at any time there, so the theorems hold for any limiter; the bucket itself is proved in `RateLimiter`.
- RateLimiter.Limiter.ConsumeToken: the source multiplies seconds as a float and truncates; here elapsed time is an integer number of nanoseconds and five per second is rounded down exactly, so float rounding at the boundary of a token is not modelled.
- Client goroutines after a failure: the model lets a client's writer go on after a failed write and its reader after `Close`, which the source does not; the theorems about runs cover those extra runs too. `once` is not a field, since closing again changes nothing.
- The BST's own lock: each index operation is one step, as its mutex makes it; the visit counts are ghost results.
- `HubCore.Next` has no step for `Hub.Broadcast`, which nothing calls; it is proved as a method of `Hubs.Hub`.
- Hubs.Hub.BroadcastUserList: the list of online names is built and stated, but the envelope does not carry it, nor each recipient's groups.
- Database statements fail without effect in `UserDirectory`; one that takes effect and then reports a failure is not modelled.
- Hubs.Hub.HandleGroupMsg: each member is asked for once in the list, as the primary key of the membership table has it.
- Memory model: a step is atomic and steps are sequentially consistent; every access to the map is under its lock except the two log lines at `internal/server/hub.go:72` and `internal/server/hub.go:81`, which only read its size, in the one goroutine that writes it.
- Fairness: progress is stated as an enabled step and a bound on steps, not as eventual delivery.
