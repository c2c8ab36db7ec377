# rxd: verified model of the broadcaster, the service managers and the states pipeline

rxd runs long-lived services under a daemon. Three step machines carry its behaviour, and this
project models all three and the way they are joined.

1. **The broadcaster** (`intracom/`). One loop owns the subscribers of a topic, fans every published
   message out through each subscriber's buffer policy, replays the last message to late joiners and
   answers subscribe, unsubscribe and close requests. In front of it stands the topic, whose methods
   are called concurrently.
2. **The service managers** (`service_manager.go`). Two loops drive a service through init, idle, run
   and stop and report every transition.
3. **The states pipeline** (`daemon.go`, `service_context.go`). The transitions of all services are
   folded into snapshots, the snapshots are broadcast through size-1 mailboxes that keep the newest,
   and the `Watch*` methods filter them.

The prestart pipeline and the names of the watchers' consumer groups are modelled as well.

## How the model works

Goroutines are atomic steps. Everything a scheduler, a consumer, a runner, a timer or a context can
decide is an input: a run is a finite sequence of labels (or of results), a step that is not enabled
changes nothing, and the theorems quantify over all sequences. So they hold at every point of every
interleaving, whatever the runners return and wherever a context is cancelled. A timeout is a choice
of the schedule, not a duration.

| file | contents |
|---|---|
| `Wrappers.dfy` | optional values |
| `Orders.dfy` | increasing sequences of publish numbers |
| `Policies.dfy` | the subscriber, its buffer policies as multi-step operations, what each policy promises |
| `Broadcast.dfy` | the broadcaster as a step machine, its inductive invariant |
| `BroadcastTheorems.dfy` | order, losslessness, freshness, lifetime, gate, responses |
| `BroadcastLoop.dfy` | the subscriber, the subscriber map and the loop as objects and methods, refining `Broadcast` |
| `Topic.dfy` | concurrent Subscribe, Unsubscribe and Close calls with their response channels, on top of `Broadcast` |
| `TopicCalls.dfy` | the three methods of the topic on objects, one call at a time, on top of `BroadcastLoop` |
| `Lifecycle.dfy` | the managers' event traces as functions of all that can happen; their shape |
| `CallLanguage.dfy` | the exact language of runner calls |
| `Managers.dfy` | the two `Manage` loops, refining `Lifecycle` |
| `StatesWatcher.dfy` | folding updates into snapshots; interleavings |
| `DaemonLoop.dfy` | the watcher of the updates and the registration of services, on heap objects |
| `Shutdown.dfy` | launch, update channel, wait group and close order as a step machine |
| `Watch.dfy` | what the watch filters decide, and their loops |
| `EndToEnd.dfy` | services, daemon, broadcaster and watcher together |
| `Progress.dfy` | when the daemon and the broadcaster together can get stuck |
| `Termination.dfy` | how many steps they have left, and that they reach the end |
| `Prestart.dfy` | the staged retry loop |
| `ConsumerNames.dfy` | the encoding of consumer group names |

In `Policies`, `Broadcast` and `BroadcastLoop` a message is its publish number, the position it has
in the topic's history; `BroadcastTheorems.Values` turns numbers back into messages. A channel is
its content (what the consumer received, then what is still buffered) with a count of received
messages. `seen`, `joined`, `closer` and the like are bookkeeping that the program does not store.

Each loop of the program is a method here, proved to compute a function or to follow a step machine;
the properties are then proved of that function or machine.

## Where the code differs from its comments

The model follows the code. For each of these there is a theorem with the exact condition and, where
the condition is not itself an input, a lemma with an input that meets it.

- `RunUntilSuccessManager` starts with `hasStopped` true and does not clear it after the first Init
  (service_manager.go:205, 216), so a cancellation right after that Init skips Stop, against the
  comment at service_manager.go:305 (`CallLanguage.StopIsLast`, `CallLanguage.SkippedCleanup`).
- The same manager recovers panics and returns without the Exit update (service_manager.go:195-200),
  while daemon.go:183 says that entering exit is the final state of every service
  (`StatesWatcher.FinalUpdate`, `StatesWatcher.SwallowedPanic`). A watcher waiting for such a service
  to exit waits for ever (`EndToEnd.WaitingForExitFails`).
- `BufferPolicyDropOldest` drops a pending message whenever there is one, not only when the channel
  is full (intracom/buffer_policy.go:31-46). The two differ exactly if something is pending and there
  is room (`Policies.DropOldestLosesExactlyIfPending`, `Policies.DropsWithRoomLeft`).
- A prestart pipeline that does not restart overwrites `err` at every stage
  (daemon_prestart.go:91, 111): only the last stage decides, and if it fails the timer is never set
  again and only cancellation ends the pipeline (`Prestart.OnlyTheLastStageDecides`,
  `Prestart.StuckUntilCancelled`, `Prestart.FailureOverlooked`).
- `topic.Close` closes the request channel while other calls may be past the closed check
  (intracom/topic.go:94, 148); exactly those calls can still panic (`Topic.PanicsExactlyIfRacing`,
  `Topic.RacingCallPanics`).
- A consumer of the states that subscribes with DropNone and stops receiving stops every other
  consumer behind it in the fan-out, and the shutdown of the daemon with them (daemon.go:355,
  intracom/broadcast_sync.go:40-46, intracom/buffer_policy.go:23-28). Unless a close request has been
  handled for the topic, nothing else can (`Progress.StuckExactlyIfJammed`, `Progress.EveryOrder`,
  `Progress.JammedShutdown`).
- `topic.Close` is meant to remove all consumer groups (intracom/topic.go:17), but a subscribe request
  that was under way can still be handled after the close request; its channel then stays open for
  ever (`Topic.CloseClosesAll`, `Topic.LateSubscriberStaysOpen`).
- `WatchAllServices` compares the size of a map with the length of a list (service_context.go:246),
  so with a repeated name it never fires (`Watch.AllFires`, `Watch.RepeatedName`).
- A failed `Start` leaves the daemon started (daemon.go:96-102), and a service registered under an
  existing name replaces the earlier one (daemon.go:320-326), although the comment at daemon.go:275
  expects an error. The check for a nil pointer as manager panics itself if Manage has a pointer
  receiver, because the method is not found on the struct type (daemon.go:366-368)
  (`DaemonLoop.Daemon.BeginStart`, `DaemonLoop.Daemon.AddService`).

## Model

| member | source | states |
|---|---|---|
| Policies.PushKeepsOrder | intracom/buffer_policy.go:26 | a completed send appends the newest message behind everything received or pending, within the capacity |
| Policies.PopKeepsOrder | intracom/buffer_policy.go:45 | dropping removes exactly the oldest unreceived message and leaves the rest in order |
| Policies.SecondSelect | intracom/buffer_policy.go:51-61 | after the drop, whatever the consumer took in between, the second select of DropOldest sends the message on every buffered channel and can only fail on an unbuffered one |
| Policies.SendDropOldest | intracom/buffer_policy.go:39-62 | DropOldest never blocks; it loses at most the head of the buffer and, on a buffered channel, never the message sent |
| Policies.SendDropNewestAfterTimeout | intracom/buffer_policy.go:154-177 | the message is appended or, only with a full channel, dropped; nothing that was in the channel is ever lost |
| Policies.SendDropNone | intracom/buffer_policy.go:22-29 | when the call returns the message has been appended and nothing was lost |
| Policies.SendDropNewest | intracom/buffer_policy.go:128-140 | the message is appended or, only with a full channel, dropped |
| Policies.SendKeepsOrder | intracom/subscriber.go:59-65 | for every policy and every behaviour of the consumer during the call: order and capacity survive, the flags are untouched, and on an open subscriber no closed-channel error or panic occurs |
| Policies.SendKeeps | intracom/subscriber.go:59-65 | one Send keeps each policy's own promise: DropNone lossless, DropOldest fresh, all of them ordered |
| Policies.BufferFullOnlyUnbuffered | intracom/buffer_policy.go:51-61 | the "buffer full" error occurs exactly on an unbuffered channel with no consumer receiving; with a buffer it is unreachable |
| Policies.WhoWaitsAndWhoDrops | intracom/buffer_policy.go:22-177 | exactly when each policy waits, drops or sends, in terms of the free space at the call and of what the consumer and the timer do meanwhile |
| Policies.DropOldestLosesExactlyIfPending | intracom/buffer_policy.go:39-62 | DropOldest on a buffered channel loses a message, the oldest pending one, exactly if anything is pending; dropping only from a full channel would differ exactly if something is pending and there is room |
| Policies.DropsWithRoomLeft | intracom/buffer_policy.go:40-46 | an input where they differ: a channel with room for two loses its only pending message |
| Policies.ReceivedDuringSend | intracom/buffer_policy.go:39-61 | the consumer keeps what it takes between the two selects, whatever the outcome of the call |
| Policies.ClosedSend | intracom/subscriber.go:59-62 | Send on a closed subscriber reports it and leaves the channel alone |
| Policies.CloseOnce | intracom/subscriber.go:67-84 | the first close closes both channels and takes nothing from what is pending, whatever the policy; a second one fails and changes nothing |
| Policies.HandleAfterStop | intracom/buffer_policy.go:22-177 | a policy that finds the subscriber stopped returns at once, sends nothing and loses at most the oldest pending message; it reports the stop or panics on the closed channel, as the selects choose |
| Broadcast.PublishKeepsInv | intracom/broadcast_sync.go:34-40 | taking a message from the publish channel keeps the protocol invariant: order, policy promises, open exactly while subscribed, gate and counters consistent |
| Broadcast.DeliverKeepsInv | intracom/broadcast_sync.go:40-46 | so does one delivery of the fan-out, which never sends on a closed channel |
| Broadcast.SubscribeKeepsInv | intracom/broadcast_sync.go:59-88 | so does a subscribe request, new or existing group, with the replayed last message |
| Broadcast.UnsubscribeKeepsInv | intracom/broadcast_sync.go:90-115 | so does an unsubscribe request, in particular through its early exits, which leave the gate consistent |
| Broadcast.CloseKeepsInv | intracom/broadcast_sync.go:117-130 | so does a close request, which closes no channel a second time |
| Broadcast.StepKeepsInv | intracom/broadcast_sync.go:32-136 | every step of the loop or of a consumer keeps the invariant |
| Broadcast.Reachable | intracom/broadcast_sync.go:17-137 | the invariant holds in every state of every run, also inside a fan-out |
| BroadcastTheorems.OrderedBroadcast | intracom/broadcast_sync.go:34-50 | with any mix of policies, what a channel has handed out and still holds is a subsequence of the publish history that starts at most one message before the channel was created: nothing reordered, duplicated or invented |
| BroadcastTheorems.GroupsAgreeOnOrder | intracom/broadcast_sync.go:40-46 | two groups see the messages they share in the same order |
| BroadcastTheorems.DeliveriesCommute | intracom/broadcast_sync.go:40-46 | the order in which the fan-out ranges over two subscribers makes no difference exactly if both Sends return; behind a Send that waits the other gets nothing |
| BroadcastTheorems.RunExtends | intracom/broadcast_sync.go:32-136 | whatever happens later, a channel keeps its identity, what its consumer received stays received, and a closed channel is never open again |
| BroadcastTheorems.DropNoneLosesNothing | intracom/broadcast_sync.go:67-79 | at every loop head a subscribed DropNone group has received or can receive exactly the replayed last message (if there was one and its channel is buffered) and then everything published since it subscribed |
| BroadcastTheorems.DropOldestIsFresh | intracom/buffer_policy.go:39-62 | at every loop head a subscribed DropOldest group has at most one message pending, and the last message received or pending is the last one published |
| BroadcastTheorems.ChannelLifetime | intracom/broadcast_sync.go:67-106 | a channel is open exactly while its group is in the map, is closed at most once, distinct groups have distinct channels, and no Send or Close ever meets a closed subscriber |
| BroadcastTheorems.NoClosedErrors | intracom/broadcast_sync.go:40-46 | in every state of every run, a Send of the fan-out waits, sends, drops or finds a full buffer, never anything else, and a Close of a subscribed channel succeeds |
| BroadcastTheorems.FaultsAreRecorded | intracom/broadcast_sync.go:41-45 | a Send that did meet a closed subscriber would be recorded |
| BroadcastTheorems.FailedCloseIsReported | intracom/broadcast_sync.go:100-106 | a close that did fail would be reported as such, with the group removed and the gate skipped |
| BroadcastTheorems.FailedClosesAreRecorded | intracom/broadcast_sync.go:122-128 | a close request that did meet a closed subscriber would be recorded, and goes on |
| BroadcastTheorems.NewChannel | intracom/broadcast_sync.go:67-79 | a new channel holds, whatever its policy, the last message published if there is one and the channel is buffered, and nothing else |
| BroadcastTheorems.RequestsKeepMessages | intracom/broadcast_sync.go:58-130 | no request adds a message to a channel or takes one from it, also when it closes it: what is pending can still be received |
| BroadcastTheorems.ConsumersTakeOne | intracom/broadcast_sync.go:63 | a receive takes the oldest pending message of one channel and nothing else |
| BroadcastTheorems.UnknownRequestsIgnored | intracom/broadcast_sync.go:131-133 | an unknown request changes nothing and gets no response |
| BroadcastTheorems.EndedForGood | intracom/broadcast_sync.go:35-38 | a disconnected channel ends the loop; after that only consumers still do something, and every channel keeps its messages and stays open or closed |
| BroadcastTheorems.GateFollowsSubscribers | intracom/broadcast_sync.go:84-119 | a message is taken from the publish channel exactly if, with SubscriberAware, somebody is subscribed, and otherwise no close request has been handled |
| BroadcastTheorems.OneResponseEach | intracom/broadcast_sync.go:58-133 | the broadcaster gives exactly as many responses as it handles recognised requests (which call gets each, and that none waits, is in the rows of Topic) |
| BroadcastTheorems.ResponsesAreTruthful | intracom/broadcast_sync.go:58-133 | each response is true when it is sent: a returned channel is open, belongs to the group and is the existing one exactly if the group had one and no error was asked for; an unsubscribe is confirmed exactly if no channel of the group but the named one was open, also for a group that is not subscribed, and touches no other; an error left everything as it was; a confirmed close closed everything |
| BroadcastTheorems.ClosedForGood | intracom/broadcast_sync.go:117-130 | after a handled close request nothing is published or opened any more unless a subscribe request is still handled |
| BroadcastLoop.Subscriber.constructor | intracom/subscriber.go:19-50 | a new subscriber is open and empty and has DropNone if no policy was given |
| BroadcastLoop.Subscriber.HandleMessage | intracom/buffer_policy.go:22-177 | the selects on the real buffer do what the policy's multi-step operation says, error results and panics included |
| BroadcastLoop.Subscriber.SendMessage | intracom/subscriber.go:59-65 | sends through the policy, or reports a closed subscriber without touching the channel |
| BroadcastLoop.Subscriber.CloseChannel | intracom/subscriber.go:67-85 | closes both channels once; a second call fails and changes nothing |
| BroadcastLoop.Registry.HandleSubscribe | intracom/broadcast_sync.go:59-88 | handling a subscribe request on the heap is the subscribe step of the protocol |
| BroadcastLoop.Registry.HandleUnsubscribe | intracom/broadcast_sync.go:90-115 | likewise for unsubscribe |
| BroadcastLoop.Registry.CloseAll | intracom/broadcast_sync.go:122-128 | closing in whatever order the map is ranged over closes exactly the subscribed channels and empties the map |
| BroadcastLoop.Registry.HandleClose | intracom/broadcast_sync.go:117-130 | handling a close request is the close step; no close of a subscriber fails |
| BroadcastLoop.Registry.FanOut | intracom/broadcast_sync.go:40-50 | the range loop, in any order and interleaved with consumers, follows the protocol until every subscriber has been visited; a Send that waits holds it at its subscriber |
| BroadcastLoop.Registry.Handle | intracom/broadcast_sync.go:58-133 | one request, one response, one protocol step |
| BroadcastLoop.Run | intracom/broadcast_sync.go:17-137 | for every schedule, the loop's map, channels and local variables (recv, broadcasting, lastMessage, haveReceived) are at the end those of the protocol run, so all theorems about runs hold of the loop |
| Topic.StepKeepsInv | intracom/topic.go:93-151 | every step of any of the concurrent calls keeps the request protocol's invariant |
| Topic.ResponsesNeverBlock | intracom/topic.go:98 | in every run no response channel holds more than one response, and the one the broadcaster sends to next has room, also if its call has given up: the broadcaster never waits for a caller |
| Topic.ExactlyOneResponse | intracom/topic.go:98-110 | every request the broadcaster has handled belongs to exactly one call, and its response is in that call's response channel or with the caller |
| Topic.AnswersAreTruthful | intracom/topic.go:105-110 | what a call returns is the very response the broadcaster gave to its own request, true when it was given |
| Topic.GivingUpEnds | intracom/topic.go:99-110 | in every reachable state a Subscribe or Unsubscribe that is past the check and has not returned ends as soon as its context is done, whatever the broadcaster does, and nothing else changes |
| Topic.CheckedAtOnce | intracom/topic.go:94-96 | a call begun on a closed topic ends refused by its next step; on an open one it goes on |
| Topic.ServedAtOnce | intracom/topic.go:99-108 | a request in the request channel is answered, into its own call's response channel, as soon as the broadcaster is at its select |
| Topic.ReceivedAtOnce | intracom/topic.go:105-110 | a call of any kind whose response is there gets it by its next step; Close then closes the request channel |
| Topic.ClosedAtOnce | intracom/topic.go:147-150 | and by one more step the publish channel, and returns |
| Topic.EndedForGood | intracom/topic.go:93-151 | a call that has returned is not touched again |
| Topic.EndsAfterClose | intracom/broadcast_sync.go:52-56 | the loop ends only once Close has closed the request channel |
| Topic.EndsExactlyWhenDisconnected | intracom/broadcast_sync.go:34-56 | and it can end exactly at its select, once the request channel is closed and empty or the publish channel closed and selectable |
| Topic.BroadcasterGoesOn | intracom/broadcast_sync.go:32-133 | publishing, fan-out and consumers never wait for a call |
| Topic.OnlyOneCloses | intracom/topic.go:139-141 | in every run at most one Close passes the closed flag, and that one never panics |
| Topic.CloseClosesAll | intracom/topic.go:138-151 | when Close has returned, exactly one close request was handled and every channel created by a request handled before it is closed; if no subscribe request was handled after it, every channel is |
| Topic.PanicsExactlyIfRacing | intracom/topic.go:94-102 | no call panics before the request channel is closed; from then on exactly the calls past the closed check that have not sent their request can |
| Topic.RacingCallPanics | intracom/topic.go:94-148 | the race happens: Subscribe passes the check, Close closes the request channel, Subscribe sends |
| Topic.QuietForGood | intracom/topic.go:94-116 | once the topic is closed and every call that found it open has had its request received, no channel is created or closed any more, whatever is called |
| Topic.LateSubscriberStaysOpen | intracom/topic.go:138-151 | a subscribe request sent after the close request and still handled: its channel is open when Close has returned and in every continuation |
| TopicCalls.TopicObject.Subscribe | intracom/topic.go:93-111 | uncontended: an error and no effect on a closed topic; otherwise the broadcaster's answer, which is true: an open channel of the group, reused if it had one, or the error asked for |
| TopicCalls.TopicObject.Unsubscribe | intracom/topic.go:114-136 | uncontended: an error and no effect on a closed topic; otherwise the group's channel is closed exactly if it was named, and no other is touched |
| TopicCalls.TopicObject.Close | intracom/topic.go:138-151 | the first Close closes every subscriber's channel and both of the topic's; any later one fails and changes nothing |
| Lifecycle.TraceHasShape | service_manager.go:63-163 | both managers, every panic-free run: the calls lead from Init to the state each result asks for; each stands between its own Entering and Exited; besides there is at most one Entering, of the state they have led to, waited on at cancellation, and exactly one Exit, the last update |
| Lifecycle.TraceEnds | service_manager.go:194-200 | with panics: a panicking call is the last event of the manager, right after its Entering; otherwise the trace ends with its only Exit |
| Lifecycle.PanicHasShape | service_manager.go:150-153 | every run that ends in a panic: wrapped calls leading from state to state, the Entering waited at if the context was cancelled, then Entering and call of the panicking method, which is Stop after a cancellation or success and otherwise that of the state reached |
| Lifecycle.PanicCutsTheRun | daemon.go:177-185 | up to the panicking call such a run is the run in which that call fails instead, and after it there is nothing |
| Lifecycle.TraceUsesTicks | service_manager.go:66-145 | the results of the calls are those the runner gave, in order and without gaps, all of them unless the run ends in success; the last Stop has its own |
| Lifecycle.PanicsExactly | service_manager.go:194-200 | a run ends in a panic exactly if the runner panics in a call that is reached, told from the runner's results alone |
| Lifecycle.EndsOnSuccessOrCancellation | service_manager.go:271-282 | RunContinuous ends only on cancellation; RunUntilSuccess, once started, ends without one exactly if the last call was a Run that returned nil, and then one Stop follows |
| CallLanguage.CallsAreInLanguage | service_manager.go:54-164 | every completed panic-free run makes a call sequence of the grammar: attempts of Init, Idle after a nil Init, Run after a nil Idle, then Stop (retried while it fails by RunUntilSuccess, once by RunContinuous) |
| CallLanguage.LanguageIsRealised | service_manager.go:194-318 | every word of the grammar is the call sequence of some run, so the grammar is exact |
| CallLanguage.StopIsLast | service_manager.go:303-313 | the last call is Stop, except exactly when RunUntilSuccess is cancelled right after its first Init |
| CallLanguage.SkippedCleanup | service_manager.go:205-216 | the exception happens: Init returns nil, the context is cancelled, Stop is never called |
| Managers.ContinuousSwitch | service_manager.go:78-137 | the switch moves to the successor state and never reaches its default branch |
| Managers.ManageContinuous | service_manager.go:54-164 | the loop produces exactly the trace of the lifecycle function |
| Managers.ManageUntilSuccess | service_manager.go:194-318 | likewise, with its first Init outside the loop |
| StatesWatcher.FoldIsLastWriter | daemon.go:349-352 | after any updates, a service's entry is its last update |
| StatesWatcher.FoldKeepsTheRest | daemon.go:339-343 | and a service without updates keeps its initial entry |
| StatesWatcher.SnapshotsFollowTraces | daemon.go:346-356 | for every interleaving of the services' updates, the k-th snapshot has exactly the registered services, and shows of each the last of a growing prefix of its own trace |
| StatesWatcher.FinalSnapshot | daemon.go:346-359 | the final snapshot shows every service's last update |
| StatesWatcher.FinalUpdate | daemon.go:177-189 | a service's last update is entering exit, panics included, exactly if its runner does not reach a panic under a RunUntilSuccessManager; otherwise that update never comes |
| StatesWatcher.SendsInOrder | service_manager.go:63-163 | everything a service sends without a panic: Entering and Exited of every method it ran, in order, the Entering waited at when it was cancelled, Entering and Exited of the last Stop if there is one, Exit |
| StatesWatcher.SendsUntilPanic | daemon.go:177-185 | everything it sends with one: the same up to the Entering of the panicking method, and Exit exactly if the panic escaped to the daemon |
| StatesWatcher.ExitUnlessPanic | daemon.go:183-184 | no service whose runner does not panic, and none under RunContinuousManager, misses its exit |
| StatesWatcher.SwallowedPanic | service_manager.go:195-214 | one does: the first Init panics, and all that is ever sent is that Init was entered |
| DaemonLoop.StatesMap.Copy | service_states.go:54-60 | the copy is a new map with the same entries |
| DaemonLoop.WatchStates | daemon.go:331-363 | every published snapshot is an object of its own, equal to the fold of the updates so far, and no later iteration changes it |
| DaemonLoop.Daemon.AddService | daemon.go:294-329 | either the registration is turned down, for exactly the reasons and in the order of the code, and nothing changes, or the service and its manager are registered together |
| DaemonLoop.Daemon.BeginStart | daemon.go:96-102 | only the first Start gets past the flag, and only with services |
| Shutdown.StepKeepsInv | daemon.go:150-252 | every step keeps: what a service has sent followed by what it has left is its trace; nothing is sent after the close |
| Shutdown.NothingIsLost | daemon.go:172-252 | the update channel is closed only after every goroutine's last send and nothing is sent on it afterwards; when the watcher signals done, the updates are an interleaving of the complete traces and one snapshot was published for each |
| Shutdown.SendOnClosedIsAFault | daemon.go:184 | a service still there would fault by sending after the close |
| Shutdown.PublishedSnapshots | daemon.go:150-155 | at any time the updates sent are prefixes of the services' traces, at most four per service wait in the channel, and the watcher has at most one update whose snapshot is not published |
| Shutdown.NoDeadlock | daemon.go:236-252 | while the broadcaster receives the snapshots, some step can be taken until the watcher has signalled done |
| Progress.EveryOrder | intracom/broadcast_sync.go:40-46 | whatever order a fan-out takes, with no consumer doing anything it comes to its end exactly if no subscriber left is a DropNone one with a full buffer; otherwise it ends up held by such a one |
| Progress.StuckExactlyIfJammed | daemon.go:346-356 | daemon and broadcaster together, in every run: before done the whole is stuck exactly if the watcher's send waits, the services have ended or wait for room, and the fan-out is held by a DropNone subscriber with a full buffer, or the broadcaster does not receive because of a handled close request |
| Progress.NeverStuck | service_context.go:170-175 | if every consumer of the states subscribes with a policy that drops, as the Watch methods do, and the topic is not closed, some step can always be taken, however the consumers behave |
| Progress.JammedShutdown | intracom/buffer_policy.go:23-28 | one DropNone consumer that does not receive stops the shutdown after both services have ended, and the other consumer behind it gets nothing |
| Termination.BoundedWork | daemon.go:150-252 | without new requests, however everything is scheduled and whatever consumers do, daemon and broadcaster take no more steps than the work they have left: updates to send, take and publish, rounds of the fan-out, ends of the goroutines |
| Termination.EveryScheduleEndsDone | daemon.go:235-252 | under the condition of NeverStuck, a schedule that cannot be continued has brought the daemon to its end |
| Termination.DoneIsReached | daemon.go:235-252 | and from everywhere there is one, within that bound, even if no consumer receives anything any more |
| Watch.AllFires | service_context.go:193-246 | WatchAllServices fires exactly if every named service is present and matches, and no name is given twice |
| Watch.RepeatedName | service_context.go:246 | a repeated name stops a watch that fires with the name given once |
| Watch.AnyFires | service_context.go:297-351 | WatchAnyServices fires exactly if some named service is present and matches |
| Watch.AnswersAsAsked | service_context.go:193-246 | for every kind of watch: what is sent consists of exactly the services asked for with the snapshot's values (named, present and matching; or as the filter decides), and it is sent exactly when all of them, any of them, or always |
| Watch.ActionsPartition | service_context.go:195-242 | Changing and NotIn split the named services that are present; Entering and Exited are the disjoint parts of Changing with that transition, and what is left has none; an unknown action selects nothing; values are those of the snapshot |
| Watch.FiltersPartition | service_context.go:399-425 | for a nonempty set of names Include and Exclude split the snapshot in two and an undefined mode selects nothing; without names or mode everything is selected |
| Watch.CollectInterested | service_context.go:193-243 | the loop over the names collects exactly the matching services |
| Watch.CollectSelected | service_context.go:398-425 | the loop over the snapshot, in any order, collects exactly the selected services |
| Watch.Watcher | service_context.go:183-257 | the goroutine sends exactly the answers to the snapshots it handles, in order |
| Watch.ReceivedInOrder | service_context.go:188-191 | the snapshots received are those that arrive, in order, with no answer before the last left untaken |
| Watch.ReceivedUntil | service_context.go:185-250 | the goroutine stops receiving exactly at the first arrival that is no snapshot or at an answer that is not taken |
| Watch.HandledButUntaken | service_context.go:188-256 | every snapshot received is handled completely, except the last one exactly if the caller has not taken its answer |
| Watch.StoppedAnywhere | service_context.go:247-255 | wherever it is stopped, the goroutine has sent the answers to all snapshots received, up to the one answer the caller has not taken |
| EndToEnd.WatchersReportTheTruth | service_context.go:183-257 | for every schedule of everything, the caller and the watch context included: each emission consists of exactly the services asked for, with their values in the last-writer map of a real prefix of all updates; later emissions answer longer prefixes; and a received snapshot for which something is to be sent is passed over exactly if it is the last one and the caller has not taken its answer |
| EndToEnd.NewestNeverLost | intracom/buffer_policy.go:39-62 | at every loop head, whatever was conflated before: the last snapshot a watcher has received or has in its mailbox is the newest one published, the fold of all updates up to it |
| EndToEnd.NewestArrives | service_context.go:170-192 | a watcher that has emptied its mailbox has received the newest snapshot last |
| EndToEnd.FinalSnapshotArrives | service_context.go:170-175 | after the shutdown that is the final snapshot, of an interleaving of all services' complete updates |
| EndToEnd.WaitingForExitSucceeds | service_context.go:161-262 | a service waits for others to exit while it and the daemon go on: once they have ended, their updates are published and the watcher has caught up, the last answer says that all of them are entering exit, if no runner among them reached a swallowed panic; it is sent unless the caller has not taken it, in which case it is the only one missing |
| EndToEnd.EverybodyHasExited | daemon.go:235-252 | the same after the shutdown for any of the services |
| EndToEnd.WaitingForExitFails | service_manager.go:195-200 | if the runner of one of them reaches a swallowed panic, nothing is ever emitted |
| Prestart.RestartsUntilAllPass | daemon_prestart.go:73-115 | with RestartOnError the calls are whole failing passes (nil except the last) and then successful calls; there is one warning for each failing pass, and the pipeline completes exactly if the last pass is full |
| Prestart.EveryEndOccurs | daemon_prestart.go:73-115 | every such sequence of calls occurs, completed or cut by cancellation |
| Prestart.CancelledAnywhere | daemon_prestart.go:74-89 | cancellation ends the pipeline wherever it is, also between two passes and in both modes, and adds nothing to what it did |
| Prestart.NoStages | daemon_prestart.go:61-63 | without stages the pipeline has completed at once |
| Prestart.OnlyTheLastStageDecides | daemon_prestart.go:81-114 | without it every stage runs at most once whatever failed before, every failure is recorded, and the pipeline completes exactly if the last stage succeeded |
| Prestart.StuckUntilCancelled | daemon_prestart.go:74-79 | after a failure of the last stage nothing but cancellation ever happens |
| Prestart.FailureOverlooked | daemon_prestart.go:91-114 | inputs for both: an early stage fails and the pipeline completes; the last stage fails and it waits |
| Prestart.Pipeline.Add | daemon_prestart.go:51-53 | appends a stage |
| Prestart.Pipeline.Run | daemon_prestart.go:55-118 | the nested loops make exactly the calls and records of the step machine |
| ConsumerNames.Joined | service_states.go:83-97 | the joined names have the documented form: the states prefix, then the action and state names or "all", then the consumer, separated by dots |
| ConsumerNames.TheNames | service_states.go:25-42 | the names of all states and actions, and two whole names as the documentation gives their format |
| ConsumerNames.NamesAgree | service_states.go:95-97 | for any consumers, dots included, two names agree exactly if consumer, action and state do, where all undefined actions are one and undefined states count as unknown: one-to-one on defined arguments |
| ConsumerNames.NamesNeverOverlap | service_states.go:87-97 | no name for one state equals a name for all states |
| ConsumerNames.AllStatesNamesAgree | service_states.go:87-89 | names for all states are one-to-one |
| ConsumerNames.ActionNamesAgree | service_action.go:22-35 | different defined actions have different names; all others share one |
| ConsumerNames.StateNamesAgree | service_states.go:25-42 | different defined states have different names; undefined ones are named like unknown |

## Left out

- The RPC server and client, HTTP, OS signals and all logging: input and output only. Of `reflect` only what the check for nil managers needs is modelled.
- Real time: a timer, ticker or timeout is a choice of the schedule. Delays of `RunUntilSuccessManager` are taken to be positive, as `time.NewTicker` requires.
- Progress.StuckExactlyIfJammed: nothing is said about unfair schedules, in which an enabled step is never taken. The timer of DropNewestAfterTimeout is taken to fire.
- `BufferPolicyDropOldestAfterTimeout`: `newSubscriber` never stores it (intracom/subscriber.go:23-27), so a subscriber with it has no policy at all. A negative buffer size panics in `make` and is excluded by the type.
- BroadcastLoop.Run: message values are represented by publish numbers, the identity of a channel by the order of creation, and the blocking of a send by a delivery that holds the fan-out at its subscriber until the schedule lets it return. A Send that has waited is tried again from its first select; a timer that wins against a message just taken is in the schedules that do not stop in between.
- TopicCalls.TopicObject.Close: one call at a time, with the broadcaster at its select; calls that overlap are in `Topic`, as a step machine on values, because their steps interleave. Messages published between calls are in `BroadcastLoop`.
- Topic.PanicsExactlyIfRacing: a panicking call is recorded and the other calls go on; that a panic ends the whole program is not modelled. Publishers that send on the closed publish channel are not part of the model.
- The `Intracom` registry: it checks and then acts under separate locks (intracom/intracom.go:73-82) and closes only topics of one type (intracom/intracom.go:263), so uniqueness of topics and closing of all do not hold; the one states topic is taken to exist.
- DaemonLoop.WatchStates: the broadcaster hands one and the same map to all subscribers, and WatchAllStates passes it on unfiltered (service_context.go:403); a caller that writes to it changes what other watchers read. Everywhere else snapshots are values.
- EndToEnd.WatchersReportTheTruth: a watcher has a channel of its own. Two watches with the same action, target and consumer share one and split its messages, because the group name lists neither the services nor whether all or any are watched; names joined with "_" (service_context.go:127) can also coincide.
- Shutdown.NothingIsLost: `Start` is a step machine on values, not objects: the goroutines it launches interleave, which a sequential method cannot show. Its prestart phase and its RPC server are not part of that machine.
- Managers.ManageContinuous: whether an error is a cancellation error only decides what is logged, so errors are not distinguished; the loop of RunUntilSuccess after a Stop that fails is covered.
- `AddServices`: a loop over `AddService` that stops at the first error.
- Option setters, the example programs and the custom manager among them.
