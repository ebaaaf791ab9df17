# Wisp, verified

Wisp is a small message broker over ZeroMQ: clients publish and subscribe by
topic, brokers link to each other and flood messages over the links, and a LAN
discovery service decides who dials whom. This project models the broker, its
client library and their wire formats in Dafny and proves what they promise.

## How it is organised

| file | what it holds |
|---|---|
| `Messages.dfy`, `Paths.dfy` | keys, headers, envelopes; facts about sequences without repeats; paths over edges |
| `BrokerStep.dfy` | one broker as a step machine and what every run of it keeps |
| `Broker.dfy`, `Registry.dfy` | the broker object and its subscription registry, in place |
| `Answers.dfy` | what goes out for every message, and that handshake and mesh count on exactly that |
| `Dedup.dfy` | loop protection as a sliding window |
| `Mesh.dfy` | many brokers on an arbitrary link graph |
| `MeshOnce.dfy`, `MeshTermination.dfy` | what dedup guarantees in every run of the mesh: routed once, sent once, boundedly many copies, where a message can come from |
| `MeshFlood.dfy`, `MeshDelivery.dfy` | flooding over links that are up, exact coverage and end-to-end delivery |
| `MeshLinks.dfy`, `MeshWarmup.dfy` | links coming up and back, and coverage of a mesh that starts with links nobody has heard of |
| `Handshake.dfy`, `Client.dfy` | the subscription handshake and the client library object |
| `Worker.dfy`, `Overtaking.dfy` | one turn of the socket worker's loop, and the order in which its queues reach the wire |
| `SafeQueue.dfy` | the blocking queue and all interleavings of threads through it |
| `Liveness.dfy` | zombie sweep, heartbeats, ONLINE/OFFLINE |
| `Beacon.dfy`, `Uuid.dfy`, `Discovery.dfy` | beacons, uuids, dialling and dropping peers |
| `Multipart.dfy`, `WireFrame.dfy` | the two wire formats |

The object classes (`Broker.ZmqBroker`, `Registry.SubscriptionRegistry`,
`Client.ConnectionManager`, `Worker.ZmqWorker`, `SafeQueue.SafeQueue`,
`Discovery.BrokerDiscovery`, `WireFrame.Socket`) update their fields in place,
branch for branch as the source does, and are proved against value-level
specifications; the theorems about whole runs are stated on those
specifications.

Conventions. Time is an integer number of milliseconds passed to each step.
Uuids a broker would draw, and the threads a notification wakes, are parameters.
A handler key is modelled by the reserved key it equals, or by its text; the
program only compares keys for equality. Iteration over an unordered container
is in arbitrary order. Copies travelling on mesh links are kept in a multiset,
so every reordering is covered.

Assumptions of the mesh theorems, stated in their preconditions. All of them:
the link graph is fixed, and no ordinary client uses the name of a link
(`Ordinary`). A broker is keyed by its own id, which no event changes
(`Mesh.RunSelfNamed`). About one message, in every run (`MeshOnce`,
`MeshTermination`): the run stamps at most 10000 ids and uses the uuid of the
message for that message only (`NamingRun`). What the histories held before is
free: they may be full, and they evict during the run
(`MeshOnce.RememberRecent`, `MeshOnce.RestBegins`). Copies may be lost, links
forgotten, never handshaken or named alike. For coverage also: links are up at the
start and not forgotten, no copy is lost, and the names `BrokerLink-` plus eight
characters differ between brokers (`Start`, `CalmRun`). `MeshWarmup.LinksComeUp`
shows how links get up, with forgetting allowed, and
`MeshWarmup.CoverageOnceLinksAreUp` joins the two.

Where code and comments differ, the code is followed: a comment calls the empty
topic a wildcard that receives every topic, but statistics go to exact
subscribers of the statistics topic only.

Properties that turned out to need a condition:

- Everybody connected to a publisher is covered exactly when the key is a data
  key, or dialled links alone already lead to everybody. A client message keyed
  RESET or HEARTBEAT_ACK is routed by its broker, but a link worker keeps it for
  itself on the way back, so it reaches exactly the brokers a path of dialled
  links leads to (`MeshDelivery.ReservedCoverage`,
  `MeshDelivery.AllConnectedCovered`, `MeshDelivery.ResetKeyNotCovered`).
- The peer table mirrors the dialed table exactly as long as no dropped uuid is
  spelled like the address of a manual link (`Discovery.PeersMirrorDialed`,
  `Discovery.MirrorCanBreak`).
- The broker's topics, pending messages counted, stay within the client's handler
  keys as long as no topic whose last queued control message was SUBSCRIBE loses
  its last handler while the client is not connected, and only then if the broker
  never forgets the client (`Handshake.ClearKeepsBound`,
  `Handshake.BoundedIffClear`, `Handshake.OfflineUnregisterLeavesTopic`); a broker
  that forgets may drop the stray topic by itself
  (`Handshake.ForgottenStaysBounded`). A client that stays online always converges
  (`Handshake.ConvergenceOnline`).
- A data message reaches the wire before a control message queued ahead of it
  exactly when both are pushed between the control drain and the data drain of one
  turn (`Overtaking.OvertakesIff`, `Overtaking.LoopOvertakesIff`); each queue keeps
  its own order (`Worker.LanesKeepOrder`).
- A beacon is received as printed exactly when cluster and uuid contain no `|`,
  the port is not 0 and it fits the 512-byte receive buffer
  (`Beacon.ReceivedBeacon`).

## Model

| member | source | states |
|---|---|---|
| MeshDelivery.CoverageExact | server/zmqbroker.cpp:287-342 | on any link graph whose links are up, once no copy of a message is under way, the brokers that have routed it, once each, are exactly those that links its key can cross lead to from a broker whose client published it |
| MeshDelivery.FloodCoverage | server/zmqbroker.cpp:287-342 | for a data message these are exactly the brokers connected to a publisher by links in either direction |
| MeshDelivery.ReservedCoverage | server/zmqbroker.cpp:431-445 | for a client message keyed RESET or HEARTBEAT_ACK these are exactly the brokers a path of dialled links leads to from a publisher |
| MeshDelivery.AllConnectedCovered | server/zmqbroker.cpp:424-445 | every broker connected to a publisher is covered if and only if the key is a data key or dialled links alone lead to all of them |
| MeshDelivery.SubscriberGetsOneCopy | server/zmqbroker.cpp:292-342 | a client that stays subscribed is handed the message exactly once if its broker is reached from a publisher, and never otherwise |
| MeshDelivery.HandedAsRouted | server/zmqbroker.cpp:292-331 | in every run, losses and forgotten links included, a client that stays subscribed is handed a message exactly as often as its broker routes it |
| MeshDelivery.StrangersGetNothing | server/zmqbroker.cpp:292-331 | in every run a client subscribed neither to the topic nor to everything is handed no message on it |
| MeshDelivery.PublisherGetsNoEcho | server/zmqbroker.cpp:302-305 | in every run a client that is the first to publish a message at its broker is never handed it |
| MeshDelivery.ResetKeyNotCovered | server/zmqbroker.cpp:431-445 | a handshaken two-broker mesh in which a client message keyed RESET stays uncovered |
| MeshTermination.FloodTermination | server/zmqbroker.cpp:333-358 | in every run, with losses, forgotten links and any routable key, the copies of one message ever sent number at most two per link, and so do those that arrive |
| MeshOnce.RoutedAndSentOnce | server/zmqbroker.cpp:215-222 | in every such run each broker routes a message at most once and hands it to no client more often, each direction of a link carries it at most once and only from a broker that routed it, and every copy with its uuid is that message unchanged |
| MeshOnce.RoutedComesFromPublisher | server/zmqbroker.cpp:287-342 | in every such run a broker that routed a message is reached over links its key can cross from one whose client published it, and every broker whose known client published it routed it |
| MeshOnce.RestBegins | server/zmqbroker.cpp:345-358 | every mesh of sound brokers at rest without a trace of the message is a starting point of these theorems, however full its histories are |
| MeshOnce.RememberRecent | server/zmqbroker.cpp:351-356 | a history that evicts never evicts a uuid since which at most 10000 distinct ids, itself included, were accepted |
| MeshOnce.NextOnce | server/zmqbroker.cpp:209-358 | every event, loss and sweep included, keeps the once-only invariant, uses up the delivered copy for good, and lets a broker newly see the message only from a client or over a link that passes its key |
| MeshFlood.NextInv | server/zmqbroker.cpp:209-343 | every calm event keeps: a neighbour across a link that passes the key has seen the message or a copy is on its way |
| MeshFlood.CalmRunInv | server/zmqbroker.cpp:287-342 | every calm run keeps that invariant |
| MeshFlood.SpreadForward | server/zmqbroker.cpp:333-342 | flooding to every peer keeps "seen or on the way" towards dialled neighbours |
| MeshFlood.SpreadBackward | server/zmqbroker.cpp:301-331 | wildcard delivery keeps it towards dialling neighbours, the sender excepted because it has seen the message |
| MeshLinks.LinksRecover | server/zmqbroker.cpp:431-445 | from links unknown or up, with forgetting allowed at any time and nothing lost, every link whose client is known has its wildcard subscription unless its own RESET or SUBSCRIBE is still under way |
| MeshWarmup.LinksComeUp | server/zmqbroker.cpp:424-456 | from links nobody has heard of, or links that are up, a lossless run that leaves nothing under way and in which every link beats after it is last swept, or is known and never swept, ends with every link handshaken |
| MeshWarmup.BeatenAlive | server/zmqbroker.cpp:238-250 | through any lossless run, a link that has beaten since it was last swept is known or its heartbeat is under way |
| MeshWarmup.RunAbsent | server/zmqbroker.cpp:345-358 | through any run, however long and however often histories turn over, a uuid that no client uses enters no history, copy, routing or delivery |
| MeshWarmup.CoverageOnceLinksAreUp | server/zmqbroker.cpp:424-456 | after such a run, of any length and with any number of ids, a message published from then on has the exact coverage of links that were up all along |
| MeshLinks.NextLinks | server/zmqbroker.cpp:238-285 | every lossless event keeps: a known link client is subscribed, or a RESET or SUBSCRIBE for it is under way |
| Mesh.RunSelfNamed | server/zmqbroker.cpp:424-429 | over every run brokers keep their own ids, from which link names are built |
| Mesh.ControlNeverRouted | server/zmqbroker.cpp:232-285 | in every mesh run from empty queues no broker routes CONNECT, DISCONNECT, HEARTBEAT, SUBSCRIBE or UNSUBSCRIBE |
| BrokerStep.RunSound | server/zmqbroker.cpp:306-310 | over every run every subscribed client is known and the history has no repeats and respects its bound |
| BrokerStep.RunLife | server/zmqbroker.cpp:232-279 | for each client RESETs and effective removals strictly alternate, and nothing from it is routed outside a RESET-removal span |
| Answers.ControlAnswers | server/zmqbroker.cpp:229-279 | for every state: an unknown client that is not leaving gets exactly one RESET, a known client's HEARTBEAT exactly one HEARTBEAT_ACK, every other control message no answer, and none of them is flooded |
| Answers.RoutedAnswers | server/zmqbroker.cpp:280-342 | for every state: a new message goes out stamped, in one copy to each known client subscribed to its topic or to everything but the sender and one to each peer link; a duplicate, or what a peer may not send, to nobody |
| Answers.HandshakeHearsReset | server/zmqbroker.cpp:243-252 | the handshake's broker step appends RESET exactly when a RESET is sent to the client |
| Answers.MeshCarriesSends | server/zmqbroker.cpp:301-342 | the copies a broker of the mesh launches are exactly its sends to link clients and its floods |
| Answers.MeshHandsSends | server/zmqbroker.cpp:301-331 | what the mesh records as handed to a client is what the broker sends to it |
| BrokerStep.StampOnlyNames | server/zmqbroker.cpp:219-222 | stamping gives a fresh message a uuid and its origin and changes nothing else; a stamped message is left alone |
| Broker.ZmqBroker.ProcessMessage | server/zmqbroker.cpp:209-343 | the new state is the step machine's, clients get each copy exactly once, every peer link gets one flood, the tap sees the stamped message |
| Broker.ZmqBroker.HandleLocal | server/zmqbroker.cpp:231-279 | removal, RESET of a new client, keep-alives and subscriptions act and answer as the step machine's local part; only a known client's other messages are left to route |
| Broker.ZmqBroker.FanOut | server/zmqbroker.cpp:292-331 | one copy each, with multiplicity, to exactly the recipients |
| Broker.ZmqBroker.RouteMessage | server/zmqbroker.cpp:287-342 | duplicate test, fan-out and flood together are one routing step, with multiplicities |
| Broker.ZmqBroker.Serve | server/zmqbroker.cpp:300-330 | one delivery loop adds exactly the subscribers that are not skipped and not the sender, without repeats |
| Broker.ZmqBroker.Deliver | server/zmqbroker.cpp:292-331 | the two delivery loops reach each recipient once, exactly the known clients subscribed to the topic or to "" but the local sender; the connected check drops nobody |
| Broker.ZmqBroker.IsDuplicate | server/zmqbroker.cpp:345-358 | true exactly for ids in the history; set and deque stay equal, without repeats, within the bound |
| Broker.ZmqBroker.RemoveClient | server/zmqbroker.cpp:474-479 | removes the client and its subscriptions and nothing else |
| Broker.ZmqBroker.Cleanup | server/zmqbroker.cpp:183-197 | sweeps only when more than two seconds passed since the last sweep, and then exactly the overdue clients, as a clock sample of the timing model does |
| Broker.ZmqBroker.Flood | server/zmqbroker.cpp:333-342 | one copy of the message to every peer link |
| Broker.ZmqBroker.AddPeer | server/zmqbroker.cpp:424-456 | a new key gets the address given; an existing link is not replaced |
| Broker.ZmqBroker.RemovePeer | server/zmqbroker.cpp:458-472 | removes that key only |
| Broker.ZmqBroker.StatsRecipients | server/zmqbroker.cpp:402-410 | statistics go once to each exact subscriber, all of them known clients |
| Dedup.HistoryIsWindow | server/zmqbroker.cpp:345-358 | the deque is the window of the last 10000 accepted ids |
| Dedup.Reaccepted | server/zmqbroker.cpp:345-358 | an id is accepted again only after at least 10000 others, distinct from it and each other |
| Dedup.DuplicateIffInWindow | server/zmqbroker.cpp:287-290 | over any broker run an id counts as duplicate if and only if it is among the last 10000 accepted |
| Registry.SubscriptionRegistry.Subscribe | server/subscriptionregistry.h:15-22 | adds the pair to both maps; the result says whether the pair set changed |
| Registry.SubscriptionRegistry.Unsubscribe | server/subscriptionregistry.h:24-35 | removes the pair from both maps, leaving no empty entry; the result says whether the pair set changed |
| Registry.SubscriptionRegistry.RemoveClient | server/subscriptionregistry.h:37-46 | removes exactly the pairs of the client |
| Registry.SubscriptionRegistry.DropSubscriber | server/subscriptionregistry.h:61-77 | swap-and-pop in place, erasing an emptied vector |
| Registry.SubscriptionRegistry.SubscribersOf | server/subscriptionregistry.h:48-52 | nothing exactly when nobody subscribes; otherwise each subscriber once |
| Registry.SubscriptionRegistry.SubscriptionsOf | server/subscriptionregistry.h:54-58 | nothing exactly when the client has no topic; otherwise its topics |
| Registry.SwapPopRemoves | server/subscriptionregistry.h:67-72 | swap-and-pop removes the client, keeps the others and introduces no repeat |
| Registry.FoldedIsLive | server/subscriptionregistry.h:10-12 | a pair is present after a history of operations if and only if some SUBSCRIBE for it has no later UNSUBSCRIBE or client removal |
| Registry.Replay | server/subscriptionregistry.h:13-81 | any sequence of operations leaves a valid registry holding exactly the live pairs |
| Handshake.ConvergenceOnline | common/connectionmanager.cpp:302-335 | while the client stays online, broker topics with pending messages folded in never exceed the handler keys, and equal them once nothing is pending and the broker knows the client |
| Handshake.Convergence | common/connectionmanager.cpp:124-140 | with OFFLINE periods and forgetting brokers: the folded broker topics never leave the client's ledger, the topics whose last queued control message was SUBSCRIBE, and once settled every handler key is held, if the broker knows the client and it is online |
| Handshake.ConvergenceClear | common/connectionmanager.cpp:324-334 | with OFFLINE periods and forgetting brokers: if no ledger topic loses its last handler while not connected, the two sets are equal once settled, if the broker knows the client and it is online |
| Handshake.EventualAgreement | common/connectionmanager.cpp:192-199 | after any online history, whatever the broker has forgotten, and the next heartbeat or message: boundedly many steps can follow, and when none is left the broker knows the client, the client is online and the two sets are equal |
| Handshake.OfflineUnregisterLeavesTopic | common/connectionmanager.cpp:324-334 | a run in which a handler dropped while offline leaves the broker subscribed for good |
| Handshake.ClearKeepsBound | common/connectionmanager.cpp:324-334 | over any run the folded broker topics stay within the handler keys as long as no ledger topic loses its last handler while not connected |
| Handshake.BoundedIffClear | common/connectionmanager.cpp:324-334 | while the broker never forgets the client, the folded topics are the ledger at every moment, and they stay within the handler keys if and only if that condition holds throughout |
| Handshake.BoundStep | common/connectionmanager.cpp:302-335 | for a single event the condition keeps the bound, and is needed where the broker has lost nothing of the ledger |
| Handshake.ForgottenStaysBounded | server/zmqbroker.cpp:474-479 | with a broker that has forgotten the client and nothing under way, giving up any topic keeps the bound |
| Handshake.NextInv | common/connectionmanager.cpp:256-271 | every event, a routed RESET of another client included, keeps the handshake invariant |
| Handshake.OwnMessageProjects | server/zmqbroker.cpp:238-279 | a client message acts on the client's share of the broker as the protocol's broker step, RESET included |
| Handshake.OtherInputProjects | server/zmqbroker.cpp:233-236 | any other broker input leaves that share alone or makes the broker forget the client |
| Handshake.RequestLeavesNoTrace | common/connectionmanager.cpp:76-122 | whatever other threads register and unregister while a request waits, once it has taken its promise back the handler table is as if the request had not been |
| Handshake.HandlersAreTable | common/connectionmanager.cpp:302-335 | over every run the handler table depends on the registrations and unregistrations only |
| Handshake.RegisterUndone | common/connectionmanager.cpp:312-335 | unregistering a just registered instance restores the handler table |
| Client.ConnectionManager.PerformRegistration | common/connectionmanager.cpp:302-310 | appends the handler and, when connected, queues one SUBSCRIBE for its topic |
| Client.ConnectionManager.PerformUnregistration | common/connectionmanager.cpp:312-335 | removes every entry of the instance and, with the last one, the key, sending UNSUBSCRIBE only when connected |
| Client.ConnectionManager.SendRaw | common/connectionmanager.cpp:213-223 | reserved keys go to the control queue, all others to the data queue |
| Client.ConnectionManager.SubscribeAll | common/connectionmanager.cpp:196-198 | one SUBSCRIBE per handler key, each exactly once |
| Client.ConnectionManager.OnStatus | common/connectionmanager.cpp:125-140 | going online sends CONNECT and all subscriptions, going offline nothing |
| Client.ConnectionManager.ResubscribeAll | common/connectionmanager.cpp:192-199 | answers a RESET with all subscriptions |
| Client.ConnectionManager.HandleMessage | common/connectionmanager.cpp:273-300 | runs the topic's callbacks in order, sends every reply each of them makes, whether it then returns or throws, to this message's reply topic through the queue for its key, and leaves no reply context behind |
| Client.RepliesAddressed | common/connectionmanager.cpp:244-254 | every reply carries this client's name, the reply topic of the message being handled and an answer of one of its callbacks; none without a reply topic |
| Client.RepliesComplete | common/connectionmanager.cpp:287-299 | every answer of every callback is sent, in the order of the callbacks and their answers |
| Client.RepliesCounted | common/connectionmanager.cpp:287-299 | with a reply topic there are exactly as many replies as answers, without one none |
| Client.ConnectionManager.SendRequest | common/connectionmanager.cpp:76-122 | whatever the answer, the handler table is as before; the request carries key, sender, topic and its private reply topic, and goes out between SUBSCRIBE and UNSUBSCRIBE for that topic, each in its queue |
| Worker.ZmqWorker.Begin | common/zmqworker.cpp:49-58 | the thread starts OFFLINE, reports it, and has its first heartbeat due |
| Worker.ZmqWorker.Turn | common/zmqworker.cpp:62-121 | one loop turn sends the control queue, then the data queue, then a due heartbeat, dropping exactly what the pipe refuses, passes on all but HEARTBEAT_ACK, and reports status as specified |
| Worker.ZmqWorker.DrainControl | common/zmqworker.cpp:95-101 | the control queue goes out in order, less the refused messages, and is left empty |
| Worker.ZmqWorker.DrainOutbound | common/zmqworker.cpp:103-106 | the data queue goes out in order, less the refused messages, and is left empty |
| Worker.KeptAt | common/zmqworker.cpp:95-106 | a message the pipe does not refuse goes out, behind exactly the ones ahead of it that are not refused |
| Worker.KeptCount | common/zmqworker.cpp:95-106 | as many messages go out as are not refused |
| Worker.DrainedIsKept | common/zmqworker.cpp:95-106 | a turn that is refused nothing sends what a control drain and then a data drain of the lanes machine send |
| Worker.LanesKeepOrder | common/zmqworker.cpp:28-34 | however pushes and drains interleave, each queue reaches the wire in the order it was filled, nothing lost or repeated |
| Overtaking.OvertakesIff | common/zmqworker.cpp:28-34 | for every run, a request goes out before a control message queued ahead of it if and only if no control drain comes between the pushes and the first drain after them is the data drain |
| Overtaking.LoopOvertakesIff | common/zmqworker.cpp:95-106 | in the loop's alternation of drains this happens if and only if both pushes fall between the control drain and the data drain of one turn |
| Overtaking.StoryPlaces | common/zmqworker.cpp:28-34 | the two positions compared are those of the control message and of the request |
| Overtaking.RequestCanOvertake | common/zmqworker.cpp:95-106 | a turn of the loop in which it happens |
| SafeQueue.NoLostWakeups | common/safequeue.h:13-78 | in every interleaving room with a blocked pusher means a woken pusher, an item with a blocked popper means a woken popper, and after stop nobody is blocked |
| SafeQueue.NextAwake | common/safequeue.h:13-78 | every critical section keeps: enough wakeups are under way for the room and the items |
| SafeQueue.QueueHistory | common/safequeue.h:13-71 | pushes in order are pops in order plus the contents, the bound holds, false from pop means everything was popped, and after stop nothing more is pushed and the poppers get exactly what remained |
| SafeQueue.AttemptsByHistory | common/safequeue.h:13-71 | in every interleaving a push waits exactly while maxSize pushed values are not yet popped and is refused exactly after stop; a pop is handed the next pushed value, waits exactly while there is none, and is refused exactly when there is none after stop |
| SafeQueue.StoppedThreadsLeave | common/safequeue.h:73-78 | after stop each woken thread leaves the first time it runs and nobody enters to stay |
| SafeQueue.SafeQueue.Push | common/safequeue.h:13-41 | one pass of push through the monitor |
| SafeQueue.SafeQueue.Pop | common/safequeue.h:44-57 | one pass of pop through the monitor |
| SafeQueue.SafeQueue.TryPop | common/safequeue.h:59-71 | takes the front if there is one, and notifies a waiting pusher exactly then |
| Liveness.SilentClientRemoved | server/zmqbroker.cpp:181-197 | a silent client is removed later than 10s and at most 12s + d after it was last heard, d being the largest gap between clock samples |
| Liveness.ZombieBounds | server/zmqbroker.cpp:183-197 | the same from any point of the broker loop |
| Liveness.HeartbeatKeepsAlive | common/zmqworker.cpp:50-112 | from the start of its worker, a client whose heartbeat spacing, 3s plus its loop gap, plus delay is at most 10s becomes known with the first heartbeat processed and, once known, also from an earlier life within the last 3s, is never swept |
| Liveness.StatusesAlternate | common/zmqworker.cpp:76-120 | ONLINE and OFFLINE reports of the loop strictly alternate |
| Liveness.ReportsAlternate | common/zmqworker.cpp:53-120 | so do all reports, starting with the OFFLINE made before the loop |
| Liveness.OnlineExactly | common/zmqworker.cpp:76-82 | over any run the server counts as up exactly when it has been heard and the last time was at most 10s before the last turn; exactly the turn with a message while down reports ONLINE |
| Liveness.OfflineBounds | common/zmqworker.cpp:114-120 | over any run, a turn reports OFFLINE if and only if the server counted as up or was heard just now and was last heard more than 10s ago, and then at most 10s plus one loop gap ago |
| Beacon.BeaconRoundTrip | server/discovery.cpp:31-66 | a printed beacon reads back as the same triple if and only if cluster and uuid have no bar and the port is not 0 |
| Beacon.AcceptedReencodes | server/discovery.cpp:35-66 | any accepted datagram re-encodes to one that reads the same |
| Beacon.ReceivedBeacon | server/discovery.cpp:181-188 | through the 512-byte receive buffer a printed beacon reads back as the same triple if and only if cluster and uuid have no bar, the port is not 0 and it fits |
| Beacon.CutBeacon | server/discovery.cpp:181-188 | a beacon cut short anywhere is rejected or read as something else |
| Beacon.StartedBrokerBeacon | server/zmqbroker.cpp:79-89 | the beacon of a started broker is received as its own triple if and only if the cluster name has no bar and its length plus that of the printed port is at most 467 |
| Beacon.BeaconsAreMarked | server/discovery.cpp:31-56 | only datagrams that start with WISP, a bar, 1 and a bar are beacons, and every printed beacon does |
| Beacon.StoiReads | server/discovery.cpp:56-64 | the port conversion skips white space, takes the digits, ignores what follows, and fails without digits or outside 32 bits |
| Beacon.StoiReadsSigned | server/discovery.cpp:56-64 | the same behind a sign |
| Beacon.DecodeBeacon | server/discovery.cpp:35-66 | the splitting loop finds exactly the fields between the bars |
| Beacon.JoinSplit | server/discovery.cpp:38-48 | the fields joined by bars are the datagram again |
| Beacon.ParseTcpPort | server/zmqbroker.cpp:44-63 | returns the first usable port of the bind addresses, or 0 |
| Beacon.FirstPortIsFirst | server/zmqbroker.cpp:44-63 | no address before the chosen one has a usable port, and 0 means none has |
| Beacon.PortOfAddress | server/zmqbroker.cpp:47-58 | tcp://host:port yields that port, whatever the host |
| Uuid.GenerateUuid | common/uuidhelper.h:27-50 | the index loops fill every position from its own draw |
| Uuid.UuidShape | common/uuidhelper.h:27-50 | every draw gives the version 4 shape of section 5.4 of RFC 9562, without a bar |
| Uuid.UuidReadsBack | common/uuidhelper.h:32-49 | each draw is printed as its hexadecimal digit at its own position |
| Uuid.UuidInjective | common/uuidhelper.h:32-49 | different draws print different uuids |
| Discovery.BrokerDiscovery.OnDatagram | server/discovery.cpp:68-103 | records the sender of an accepted beacon and dials it once |
| Discovery.BrokerDiscovery.ExpireStale | server/discovery.cpp:105-123 | drops exactly the peers silent for more than five seconds, each once |
| Discovery.DialsAndDropsAlternate | server/discovery.cpp:87-123 | for each uuid dials and drops strictly alternate starting with a dial, and it is in the table exactly after a dial |
| Discovery.AddressReads | server/discovery.cpp:85 | the dialled address is tcp://, the sender's host and the advertised port, which is read back from it |
| Discovery.TableHoldsLastBeacon | server/discovery.cpp:85-102 | over any run the table holds, for each peer, the address and time of its last beacon |
| Discovery.LessIsLexicographic | server/discovery.cpp:79-83 | the order that decides who dials is the lexicographic one |
| Discovery.DropsOnlyTheSilent | server/discovery.cpp:105-117 | an expiry pass drops a dialed peer if and only if its last beacon is more than five seconds old |
| Discovery.PeersMirrorDialed | server/zmqbroker.cpp:447-472 | over a run the peer table is manual links plus dialed uuids after every step if and only if no dropped uuid names a manual link |
| Discovery.MirrorStep | server/zmqbroker.cpp:84-88 | the same condition for a single step |
| Discovery.MirrorCanBreak | server/zmqbroker.cpp:458-468 | for every printed uuid and every manual link tcp://host:port there is a run in which an expiring beacon takes that link down |
| Discovery.OneLinkPerPair | server/discovery.cpp:73-83 | at most one of two brokers ever dials the other, and exactly one once both heard each other in one cluster |
| Discovery.ExactlyOneDials | server/discovery.cpp:68-103 | two brokers of one cluster that each received a beacon the other printed: exactly one of them has dialled |
| Discovery.DialGraphAcyclic | server/discovery.cpp:79-83 | the dial graph never has a cycle |
| Discovery.RolledOrdered | server/discovery.cpp:73-83 | a broker has dialled a uuid exactly when it heard it in its cluster and its own uuid is smaller |
| Multipart.RoundTrip | zmq_addon.hpp:278-360 | decoding an encoding gives the parts back, for all parts below 2^32 bytes |
| Multipart.Encode | zmq_addon.hpp:278-316 | fails exactly for a part that does not fit; otherwise the buffer of the computed size is filled completely |
| Multipart.Decode | zmq_addon.hpp:333-360 | never reads past the end; parts written before an error are the decoding of what was consumed |
| Multipart.DecodingConcat | zmq_addon.hpp:333-360 | decoding distributes over concatenation after a well-formed input |
| Multipart.ReencodingNotLonger | zmq_addon.hpp:333-356 | re-encoding accepted bytes is never longer, and equally long only for the encoder's own output |
| Multipart.NetworkRoundTrip | zmq_addon.hpp:135-160 | a 32-bit size written in network order reads back |
| Multipart.NetworkOrder | zmq_addon.hpp:135-160 | the first byte is the most significant one |
| Multipart.PrefixLayout | zmq_addon.hpp:294-312 | a size is one byte below 255, and 255 with four bytes in network order from there on |
| Multipart.Measure | zmq_addon.hpp:280-292 | the first pass computes the total size or reports the oversized part |
| Multipart.MultipartT.Prepend | zmq_addon.hpp:494-499 | the other multipart in front, order kept, source emptied |
| Multipart.MultipartT.Append | zmq_addon.hpp:501-506 | the other multipart at the back, order kept, source emptied |
| WireFrame.ReceiveAll | common/wireframe.h:105-133 | over any stream of groups, malformed ones included, each receive yields what its own group means |
| WireFrame.Relay | common/wireframe.h:79-133 | sending any list of envelopes and receiving it gives the same list |
| WireFrame.Socket.Recv | common/wireframe.h:105-133 | exactly the current group leaves the socket |
| WireFrame.Socket.RouterRecv | server/zmqbroker.cpp:152-171 | the same for the broker's receive with its routing frame |
| WireFrame.Socket.DrainMultipart | common/wireframe.h:70-77 | discards the rest of the current group and nothing of the next |
| WireFrame.Socket.SendFrames | common/wireframe.h:79-95 | both frames or none, the payload frame left out when empty |
| WireFrame.HeaderFormat | common/wireframe.h:25-68 | the first frame of a message is format byte 1 and the encoded header, and a frame that starts otherwise is no header |
| WireFrame.ExtraFramesIgnored | common/wireframe.h:105-133 | frames behind the payload are not part of the message |
| WireFrame.GroupRoundTrip | common/wireframe.h:62-68 | a group built from an envelope reads back as that envelope, behind a routing frame too |

## Left out

- ZeroMQ sockets, polling, linger, high-water marks and size limits: only frame groups, the "more" flag and all-or-nothing sends are kept.
- The protobuf encoding of headers and statistics: a codec is any pair of functions whose decode undoes its encode.
- Payload typing by templates, the Qt binding, the inspector, the example clients, the C wrapper and the server's entry point.
- The UDP loop of discovery, thread creation and joining, logging and environment variables; a beacon's length is counted in characters, one byte each.
- Statistics counters and rates.
- Callbacks registered before the client library is initialised, and shutdown's DISCONNECT.
- Changes of the link graph during a mesh run; adding and dropping peers is covered per broker in `Discovery`.
- Randomness quality of uuids: that one uuid names one message is an assumption of the flooding theorems.
- Uncaught integer overflow of the multipart total size, which needs parts beyond addressable memory.
- Client.ConnectionManager.SendRequest: handler changes by other threads between registration and removal are interleaved on values only, in `Handshake.RequestLeavesNoTrace`, and the answer is a parameter, because waiting on the future is outside the model.
- Client.ConnectionManager.HandleMessage: what a callback replies is a function of the handler and the payload, and handler changes a callback makes are separate events, because callbacks are the user's code.
- Worker.ZmqWorker.Turn: pushes by other threads during a turn appear only in the lanes machine of the same file, whose wire lists the sends attempted.
- SafeQueue.SafeQueue.Push: states one pass through the monitor; waiting, waking and timing out are steps of the interleaving machine in the same file.
- SafeQueue.SafeQueue.Pop: states one pass through the monitor, like Push.
- Beacon.DecodeBeacon: what a rejected datagram leaves in the output record is not modelled, because callers ignore it.
