# uMundo: a verified model of service discovery, remote calls and their codecs

uMundo is a publish/subscribe middleware. This project models the parts of it that carry
protocol logic and proves what they promise over every input, every run and every
reachable state.

**Continuous discovery.** Any number of service managers exchange start, stop, found and
removed messages over first-in first-out links that come up at any time. `Discovery`
gives one manager's operations on values, `DiscoverySystem` the distributed step system,
`ServiceManager` the object whose tables are changed in place and whose methods are tied
to those operations. The results are in four layers: every message in flight survives the
wire (`DiscoveryInvariants.MessagesArriveIntact`); each peer's copy of a manager's queries
is exact up to the messages in flight (`QueriesAreReplicated`); with nothing in flight,
the listener of a query has been shown exactly the matching services of the connected
peers (`DiscoveryConvergence.ChannelConverges` and `DiscoveryConverges`); and deliveries
always lead there, because each one shrinks a measure (`DiscoveryProgress`). Convergence
needs clean starts, a condition on the state in which a query is started; `DiscoveryStale`
proves that it is exact, `DiscoveryStarts` that ordinary use is clean, and
`DiscoveryCounterexamples` gives two runs in which a start is not. `DiscoveryShared` is
about a listener that several queries share. `DiscoveryCache` and `DiscoveryDescriptions`
are about what listeners are told of a service beyond its channel.

**Calls and lookups.** `Correlation` is the table of outstanding requests that
`ServiceStub` and `ServiceManager::find` share, run by any number of callers whose
requests and replies may be reordered, repeated, late or lost. `RemoteCall` puts it
together with the messages and the service that answers them, `Find` with the wire format
and the owners' services.

**Monitors.** `MonitorRace` follows `Monitor::wait` and `Monitor::signal` one memory access
at a time; `MonitorPermits` counts permits for any number of timed and untimed waiters.

**Filters and descriptions.** `ServiceWire` is their form in message metadata, `ServiceMatch`
is what a filter matches, `ServiceObjects` are the objects that are changed in place.

**Nodes.** `Connectivity` is which services are attached to which nodes; `NodeQuery` is the
set of known nodes and what its listener hears.

**Codecs and parsers.** `Base64` (section 4 of RFC 4648), `Getopt` (the command line scanner),
`LexicalCast` (the bundled Boost integer printer), and `Decimal`, the numerals they and the
filters share.

State machines are values: a run is a sequence of states and a sequence of steps, and a
result about runs holds for every position in every run. Objects are classes whose methods
state their whole new state as a function of the old one. Where the program iterates over a
set of pointers the order is not determined; those loops pick elements in any order, and
what they publish is specified as a batch without an order.

## Where the code and its documentation differ

- `getopt` says that "--" and everything after it are skipped; the code skips only the "--",
  leaves `optind` at the next argument and points `optarg` at it. The model does the latter.
- `OP_ENDS_WITH` is not the suffix relation: `EndsWithAgreesExactlyWhen` says for which
  texts the two agree, and `EndsWithCounterexamples` shows both ways it fails.
- A query that is stopped and started again under the same id can show a service that is
  gone, and so can a running query that is started again for a listener it had before:
  `RestartBreaksConvergence` and `ReturningListenerBreaksConvergence` give the runs, and
  `StartIsSafeExactlyWhenClean` the exact condition on a start.
- A service that comes back on its channel with other properties can be reported with its
  old ones, because the description cached for a channel outlives a stopped query:
  `CachedDescriptionGetsOld`. It cannot happen to a manager that stops no query
  (`UnstoppedIsNeverMisinformed`), and `NeverMisinformsExactlyWhen` gives the exact condition.
- A batch flushed by `notifyResultSet` can end with other nodes than immediate processing:
  `BatchIsImmediateExactlyWhen` gives the exact condition.
- A time-out leaves its permit behind: `TimeOutBreaksBound`, and
  `PermitsStayBoundedExactlyWhen` says which time-outs do harm.
- A rule on the key "name", "channel" or "" reads something else at the receiver of a
  description than at its owner: `ArrivalCounterexample` for each of the three, and
  `ArrivesAlikeExactlyWhen` for the keys that are safe.

## Model

| member | source | states |
|---|---|---|
| Discovery.WireRoundTrip | rpc/src/umundo/rpc/ServiceManager.cpp:193-246 | Parsing a sent start, stop, found or removed message gives the message back, with the description as it arrives, whatever metadata the transport and the greeter add |
| Discovery.StartedAgainKeepsItsFilter | rpc/src/umundo/rpc/ServiceManager.cpp:99-108 | A query started again under its id goes on asking what it asked first: a new peer is greeted with the first filter, and the new listener gets the notices |
| DiscoverySystem.WelcomesSay | rpc/src/umundo/rpc/ServiceManager.cpp:48-61 | A greeting, in any order, leaves the new peer knowing exactly the greeter's queries and nothing else changed |
| DiscoverySystem.RepliesSay | rpc/src/umundo/rpc/ServiceManager.cpp:194-213 | The replies to a start make the query show exactly the channels of the matching services besides what it showed |
| DiscoverySystem.AnnouncesSay | rpc/src/umundo/rpc/ServiceManager.cpp:276-288 | The notices of a new service make exactly the interested queries show its channel |
| DiscoverySystem.WithdrawsSay | rpc/src/umundo/rpc/ServiceManager.cpp:309-321 | The notices of a removal make exactly the interested queries stop showing the channel |
| DiscoveryInvariants.StepKeepsWellFormed | rpc/src/umundo/rpc/ServiceManager.cpp:48-326 | Every step keeps the tables and links well formed: a manager asks only for its own queries and reports only its own services |
| DiscoveryInvariants.StepKeepsReplicated | rpc/src/umundo/rpc/ServiceManager.cpp:48-224 | Every step keeps query replication exact for every pair of managers and every query id |
| DiscoveryInvariants.InvariantsHold | rpc/src/umundo/rpc/ServiceManager.cpp:48-326 | Both hold in every state of every run |
| DiscoveryInvariants.QueriesAreReplicated | rpc/src/umundo/rpc/ServiceManager.cpp:48-224 | For every linked pair in every reachable state, folding the messages in flight onto the receiver's remote queries gives exactly the sender's local queries, across stops, restarts and late joiners |
| DiscoveryInvariants.MessagesArriveIntact | rpc/src/umundo/rpc/ServiceManager.cpp:165-247 | Every message in flight in any run parses to what was sent, and every notice names a channel, so the assert in `receive` holds |
| DiscoveryConvergence.StepKeepsTracked | rpc/src/umundo/rpc/ServiceManager.cpp:48-326 | Every step, a start of the query only if it is clean, keeps for every peer and channel: what the query's listener shows, folded over the notices in flight, is what the peer knows to report and offers, and all of it unless a start is still to be answered |
| DiscoveryConvergence.TrackedHolds | rpc/src/umundo/rpc/ServiceManager.cpp:48-326 | This holds in every state of every run whose starts of the query are clean |
| DiscoveryConvergence.HeardOfHolds | rpc/src/umundo/rpc/ServiceManager.cpp:226-246 | In every run a listener is told only of channels of managers that are connected to its own |
| DiscoveryConvergence.ChannelConverges | rpc/src/umundo/rpc/ServiceManager.cpp:48-326 | In every reachable state with nothing in flight between a query's manager and the home of a channel, the last callback to the query's listener about that channel was `added` if and only if a connected peer has a registered service on it that the filter matches, if the starts of that query were clean; greetings may be repeated, other queries started in any way, and anything may be in flight elsewhere |
| DiscoveryConvergence.DiscoveryConverges | rpc/src/umundo/rpc/ServiceManager.cpp:48-326 | So with nothing in flight at all the listener is shown exactly what the peers offer |
| DiscoveryConvergence.ListenerConverges | rpc/src/umundo/rpc/ServiceManager.cpp:226-246 | The same, channel by channel, in terms of the callbacks alone, which do not name a query, for a listener that serves one query |
| DiscoveryShared.StepKeepsAgreement | rpc/src/umundo/rpc/ServiceManager.cpp:48-326 | Every step keeps it that what a shared listener can tell of a channel, folded over the notices in flight for any of its queries, is whether at least one of them will show it |
| DiscoveryShared.SharedListenerConverges | rpc/src/umundo/rpc/ServiceManager.cpp:226-246 | In every run, for a listener that some queries share and never stop, the last callback about a channel was `added` if and only if one of the running queries is offered it, once nothing is in flight between the manager and the channel's home |
| DiscoveryStarts.SimpleStartsAreClean | rpc/src/umundo/rpc/ServiceManager.cpp:99-120 | In every run every start of a query is clean if the query is started again only while it runs, for the listener it has or for one it never called |
| DiscoveryStarts.FreshHolds | rpc/src/umundo/rpc/ServiceManager.cpp:48-326 | In every run an id that was never started is unknown everywhere |
| DiscoveryStale.DoomedGoesWrong | rpc/src/umundo/rpc/ServiceManager.cpp:193-246 | Once a listener is about to show a channel that its home does not serve, deliveries lead to a quiet state in which it does |
| DiscoveryStale.UncleanStartGoesWrong | rpc/src/umundo/rpc/ServiceManager.cpp:99-120 | From every start that is not clean the run can go on, without another start, to a quiet state in which the listener is shown what nobody offers |
| DiscoveryStale.StartIsSafeExactlyWhenClean | rpc/src/umundo/rpc/ServiceManager.cpp:99-120 | A start, first, repeated or after a stop, can never mislead the listener if and only if it is clean |
| DiscoveryProgress.DeliveryShrinks | rpc/src/umundo/rpc/ServiceManager.cpp:193-246 | Each delivery leaves fewer starts in flight, or as many and fewer messages, so no schedule of deliveries is endless |
| DiscoveryProgress.DeliveryPossible | rpc/src/umundo/rpc/ServiceManager.cpp:165-247 | Whenever a link is not empty its first message can be delivered |
| DiscoveryProgress.Drain | rpc/src/umundo/rpc/ServiceManager.cpp:165-247 | Every run extends by deliveries alone to a quiet state that asks and offers the same |
| DiscoveryProgress.EventuallyConverges | rpc/src/umundo/rpc/ServiceManager.cpp:48-326 | From every reachable state deliveries alone lead to a state that asks and offers the same, where the listener of every running query with clean starts is shown exactly what its peers offer |
| DiscoveryCounterexamples.RestartBreaksConvergence | rpc/src/umundo/rpc/ServiceManager.cpp:99-120 | There is a run to a quiet state in which a query's listener is shown a service nobody offers, although no query is ever started while it runs: a restart after a stop is enough |
| DiscoveryCounterexamples.ReturningListenerBreaksConvergence | rpc/src/umundo/rpc/ServiceManager.cpp:99-108 | So there is without any stop, when a running query is started again for a listener it had before |
| DiscoveryDescriptions.GenuineHolds | rpc/src/umundo/rpc/ServiceManager.cpp:226-246 | In every run, whatever is registered, in flight, cached or told is a description that may be registered, or how one arrives |
| DiscoveryDescriptions.ListenersGetTheRegistered | rpc/src/umundo/rpc/ServiceManager.cpp:235-242 | In every run whose descriptions of one channel all arrive alike, every callback about a channel carries the registered description as it arrives |
| DiscoveryDescriptions.CachedDescriptionGetsOld | rpc/src/umundo/rpc/ServiceManager.cpp:233-242 | For any engine and any two descriptions of one channel that arrive differently there is a run to a quiet state in which the listener of a running query was last told the one while the other is registered and offered to it |
| DiscoveryDescriptions.UnstoppedIsNeverMisinformed | rpc/src/umundo/rpc/ServiceManager.cpp:226-246 | In every run in which no query of a manager is stopped, with nothing in flight to and from a peer, no listener of the manager is left with an old description of a service there, whatever descriptions the channel had |
| DiscoveryDescriptions.NeverMisinformsExactlyWhen | rpc/src/umundo/rpc/ServiceManager.cpp:226-246 | No run that registers only allowed descriptions, and stops queries only if it may, ever leaves a listener with an old one in a quiet state, if and only if it may stop none or the allowed descriptions of each channel all arrive alike |
| DiscoveryCache.CacheIsLastTold | rpc/src/umundo/rpc/ServiceManager.cpp:233-242 | In every run a manager has a description for a channel if and only if its last callback about the channel was `added`, and it is the one that callback carried |
| DiscoveryCache.StepKeepsHonest | rpc/src/umundo/rpc/ServiceManager.cpp:48-326 | Every step but a stop keeps for every query and channel: the cache, folded over the notices in flight, holds nothing but the registered service, one of the queries will be told when that goes, and what the listener will have been told last is that service unless a start is still to be answered |
| DiscoveryCache.UnstoppedTellsTheTruth | rpc/src/umundo/rpc/ServiceManager.cpp:226-246 | So with nothing in flight whatever a listener was last told of a service that a peer offers its query is that service as it arrives |
| ServiceManager.ServiceManager.constructor | rpc/src/umundo/rpc/ServiceManager.cpp:20-24 | A new manager has empty tables and has sent nothing |
| ServiceManager.ServiceManager.Welcome | rpc/src/umundo/rpc/ServiceManager.cpp:48-61 | Sends one start message for each local query, addressed to the new subscriber, and changes no table |
| ServiceManager.ServiceManager.StartQuery | rpc/src/umundo/rpc/ServiceManager.cpp:99-108 | Enters the query, keeping the filter object of an equal id and replacing its listener, and sends one start message |
| ServiceManager.ServiceManager.StopQuery | rpc/src/umundo/rpc/ServiceManager.cpp:110-120 | Drops the query and sends one stop message if it was there; does nothing otherwise |
| ServiceManager.ServiceManager.FindLocal | rpc/src/umundo/rpc/ServiceManager.cpp:153-163 | Answers exactly the registered services whose description the filter matches |
| ServiceManager.ServiceManager.AddedToNode | rpc/src/umundo/rpc/ServiceManager.cpp:71-79 | Attaches all endpoints of all services to the node and remembers it |
| ServiceManager.ServiceManager.RemovedFromNode | rpc/src/umundo/rpc/ServiceManager.cpp:81-92 | Detaches all endpoints of all services from a known node and forgets it; an unknown node is left alone |
| ServiceManager.ServiceManager.Announce | rpc/src/umundo/rpc/ServiceManager.cpp:276-288 | Sends one notice for each remote query that matches the description, and no other |
| ServiceManager.ServiceManager.AddService | rpc/src/umundo/rpc/ServiceManager.cpp:253-289 | A new service gets its channel, is registered, is attached to every node and announced; one that is already there changes nothing |
| ServiceManager.ServiceManager.RemoveService | rpc/src/umundo/rpc/ServiceManager.cpp:291-326 | A known service is detached from every node, withdrawn and forgotten, and its description is there to be withdrawn; an unknown one changes nothing |
| ServiceManager.ServiceManager.Withdraw | rpc/src/umundo/rpc/ServiceManager.cpp:301-324 | The body of the removal: nodes, notices and tables change together |
| ServiceManager.ServiceManager.ConnectAll | rpc/src/umundo/rpc/ServiceManager.cpp:269-274 | Every node gains the endpoints of the service |
| ServiceManager.ServiceManager.DisconnectAll | rpc/src/umundo/rpc/ServiceManager.cpp:301-304 | Every node loses the endpoints of the service |
| ServiceManager.ServiceManager.OpenFind | rpc/src/umundo/rpc/ServiceManager.cpp:122-132 | Opens the lookup in the request table and sends the lookup message |
| ServiceManager.ServiceManager.CollectFind | rpc/src/umundo/rpc/ServiceManager.cpp:135-147 | Closes the lookup in both tables and returns the decoded response if there is one |
| ServiceManager.ServiceManager.ReceiveFindReply | rpc/src/umundo/rpc/ServiceManager.cpp:167-174 | Keeps a reply and signals its monitor only while the lookup is outstanding |
| ServiceManager.ServiceManager.AnswerFind | rpc/src/umundo/rpc/ServiceManager.cpp:176-191 | Replies with one of the matching services if and only if there is one |
| ServiceManager.ServiceManager.ReceiveStart | rpc/src/umundo/rpc/ServiceManager.cpp:193-213 | Remembers the remote query and replies with every matching service |
| ServiceManager.ServiceManager.Reply | rpc/src/umundo/rpc/ServiceManager.cpp:199-212 | Sends one found message for each service it is given |
| ServiceManager.ServiceManager.ReceiveNotice | rpc/src/umundo/rpc/ServiceManager.cpp:226-246 | Tells the listener of a running query, with the description cached for the channel first; a removal drops the cached one; a notice for an unknown query changes nothing |
| ServiceManager.ServiceManager.Receive | rpc/src/umundo/rpc/ServiceManager.cpp:165-247 | Takes exactly the step of the system model for the parsed message, publishes exactly its replies, and handles lookups and their replies |
| ServiceManager.ServiceManager.Dispatch | rpc/src/umundo/rpc/ServiceManager.cpp:176-246 | The chain of tests on the message type takes exactly the one step that belongs to the message |
| Correlation.ServiceStub.constructor | rpc/src/umundo/rpc/Service.cpp:309-315 | A new stub has no outstanding call and no response |
| Correlation.ServiceStub.Open | rpc/src/umundo/rpc/Service.cpp:341-349 | A fresh monitor is entered for the request id, which was not in the table |
| Correlation.ServiceStub.Receive | rpc/src/umundo/rpc/Service.cpp:359-368 | A reply is kept and its monitor signalled only while its request is outstanding |
| Correlation.ServiceStub.Collect | rpc/src/umundo/rpc/Service.cpp:351-354 | Takes the response and clears both tables of the request id |
| Correlation.StepKeepsInv | rpc/src/umundo/rpc/Service.cpp:341-397 | Every step of callers, responders and network keeps the table, channel and return invariants |
| Correlation.NeverCrossesWires | rpc/src/umundo/rpc/Service.cpp:341-397 | In every run, with requests and replies reordered, repeated or late, what a call returned was produced by a responder from that very request, and is never an entry made by map indexing |
| Correlation.LogIsWhatResponded | rpc/src/umundo/rpc/Service.cpp:381-397 | Every result on record was produced by an earlier response step to that request |
| Correlation.TablesHoldOutstandingCalls | rpc/src/umundo/rpc/Service.cpp:347-366 | In every run the request table is exactly the outstanding calls, and the response table holds no other id |
| Correlation.StrayReplyChangesNothing | rpc/src/umundo/rpc/Service.cpp:359-368 | A reply to a finished call, or to a call of another stub, leaves the whole state unchanged |
| Correlation.DeliveredReplyIsKept | rpc/src/umundo/rpc/Service.cpp:359-368 | A reply delivered to an outstanding call is in the table of its stub under its id, and nothing else changes in any response table |
| Correlation.AnsweredCallReturns | rpc/src/umundo/rpc/Service.cpp:341-368 | From every reachable state in which a call waits and a reply to it is on the channel, one delivery and steps of the call alone make it return that very reply |
| Correlation.AnsweredCallProceeds | rpc/src/umundo/rpc/Service.cpp:350-366 | A blocked call whose reply has been delivered can always go on |
| RemoteCall.Service.constructor | rpc/src/umundo/rpc/Service.cpp:371-375 | A service with its methods |
| RemoteCall.Service.Receive | rpc/src/umundo/rpc/Service.cpp:381-397 | A message with a method name is answered with the method's result under its request id, unless the result is null; other messages are not answered |
| RemoteCall.MessagesAreTakenAsMeant | rpc/src/umundo/rpc/Service.cpp:341-397 | A service answers the very request that was sent, under its request id and with its output type; on the shared channel no stub takes a request for a reply and no service answers a reply |
| RemoteCall.ComputedHolds | rpc/src/umundo/rpc/Service.cpp:381-397 | In every run of stubs, network and services, where a service acts on a request by its message handling alone and a stub files a reply under the id its message names, every reply on record holds the service's result for the request it answers |
| RemoteCall.CallReturnsItsOwnResult | rpc/src/umundo/rpc/Service.cpp:341-397 | So in every run what a call returns is what the service computes from that call's own method name and input |
| RemoteCall.AnswerIsOnItsWay | rpc/src/umundo/rpc/Service.cpp:381-397 | Whenever a service gets to a request with a result, the reply message goes out under that request's id |
| RemoteCall.CallCanReturn | rpc/src/umundo/rpc/Service.cpp:341-397 | From every reachable state in which a call waits whose request has a result, the service can answer and the call return exactly that result |
| Find.FindMessageDecodes | rpc/src/umundo/rpc/ServiceManager.cpp:122-126 | The owner decodes the very filter that was looked up |
| Find.FoundMessageDecodes | rpc/src/umundo/rpc/ServiceManager.cpp:184-188 | The asker decodes the owner's description as it arrives |
| Find.LookupsAreTakenAsMeant | rpc/src/umundo/rpc/ServiceManager.cpp:122-190 | A lookup message is taken for a lookup and never for a reply, and every answer to it names its request id |
| Find.FindIsSound | rpc/src/umundo/rpc/ServiceManager.cpp:122-191 | In every run, where owners and askers read request ids off the messages, what a lookup returns was sent in a reply step to that very lookup, in whose state the described service was registered and matched the filter; the decoded description itself satisfies the filter if no rule reads "name", "channel" or "" |
| Find.LookupCanReturn | rpc/src/umundo/rpc/ServiceManager.cpp:122-191 | From every reachable state in which a lookup waits and some manager has a service it matches, that manager can answer and the lookup return the description of that service |
| Find.LookupTablesHoldOutstanding | rpc/src/umundo/rpc/ServiceManager.cpp:129-146 | In every run the lookup table is exactly the outstanding lookups, and the replies kept are for no other |
| Find.StrayLookupReplyChangesNothing | rpc/src/umundo/rpc/ServiceManager.cpp:167-174 | A reply to a finished lookup, or to another manager's, leaves the whole state unchanged |
| MonitorRace.WaitStepKeepsInv | core/src/umundo/thread/Thread.cpp:555-578 | Every memory access of the waiter, and every spurious wakeup, keeps the invariant |
| MonitorRace.SignalStepKeepsInv | core/src/umundo/thread/Thread.cpp:530-553 | Every memory access of a signaller keeps the invariant, although the counters are read and written outside the mutex |
| MonitorRace.NoLostWakeup | core/src/umundo/thread/Thread.cpp:530-578 | In no run with one untimed wait and any number of signallers is the waiter asleep once a signaller has returned, and no assert ever fails |
| MonitorRace.RunsStopOnlyWhenDone | core/src/umundo/thread/Thread.cpp:530-578 | A run with a signaller can only stop when the wait has returned true, every signaller has returned and the mutex is free |
| MonitorRace.WaitUsesUpTheSignal | core/src/umundo/thread/Thread.cpp:530-578 | In no run does the wait return before a signaller has written its permit; when it has returned nobody is counted as waiting, and the permit of a single signaller is used up |
| MonitorPermits.Monitor.Signal | core/src/umundo/thread/Thread.cpp:530-536 | Assigns the permits: at most the waiters if there are any, one otherwise |
| MonitorPermits.Monitor.Broadcast | core/src/umundo/thread/Thread.cpp:526-528 | A signal for as many threads as wait |
| MonitorPermits.Monitor.EnterWait | core/src/umundo/thread/Thread.cpp:555-568 | Passes and takes a permit if it was signalled before, and counts itself a waiter otherwise |
| MonitorPermits.Monitor.LeaveWait | core/src/umundo/thread/Thread.cpp:571-602 | A woken waiter takes a permit and returns true, a timed-out one does not and returns false, and both stop waiting |
| MonitorPermits.WaitersAreTheBlocked | core/src/umundo/thread/Thread.cpp:555-602 | In every run `_waiters` is the number of blocked threads and no counter is negative, so the asserts hold wherever a thread leaves |
| MonitorPermits.SuccessesUseUpPermits | core/src/umundo/thread/Thread.cpp:530-602 | Between two signals, successful waits and permits left add up to the permits the first signal set |
| MonitorPermits.SignalReleases | core/src/umundo/thread/Thread.cpp:526-578 | After a signal for n threads no more waits succeed up to the next signal than n and than threads were waiting, or one if there were none; if threads were waiting and none gives up, some blocked thread can go on until that many have succeeded; if none was waiting, the first to wait passes |
| MonitorPermits.NothingPassesUnsignalled | core/src/umundo/thread/Thread.cpp:555-602 | No wait succeeds before the first signal |
| MonitorPermits.PermitsStayBoundedExactlyWhen | core/src/umundo/thread/Thread.cpp:530-602 | In every run there are never more permits than waiters, or one, if and only if no thread times out while two or more wait and each of them has a permit |
| MonitorPermits.PermitsStayBounded | core/src/umundo/thread/Thread.cpp:530-578 | So without time-outs the bound always holds |
| MonitorPermits.TimeOutBreaksBound | core/src/umundo/thread/Thread.cpp:590-599 | With a time-out there is a run that breaks that bound |
| MonitorPermits.SignalsCoalesce | core/src/umundo/thread/Thread.cpp:530-536 | Two signals in a row leave what the second alone would |
| ServiceWire.FilterAssertsNeverFire | rpc/src/umundo/rpc/Service.cpp:39-42 | Decoding an encoded filter never trips an assert, whatever foreign metadata travels with it |
| ServiceWire.FilterRoundTrip | rpc/src/umundo/rpc/Service.cpp:30-93 | Decoding an encoded filter gives back its name, id and all rules, whatever foreign metadata travels with it |
| ServiceWire.DescriptionRoundTrip | rpc/src/umundo/rpc/Service.cpp:248-273 | Decoding an encoded description keeps name and channel; its properties are the original ones without the key "", overridden at "name" and "channel" |
| ServiceWire.PrefixesApart | rpc/src/umundo/rpc/Service.cpp:39-73 | No metadata key carries two of the prefixes, and the plain keys carry none |
| ServiceMatch.FindMeans | rpc/src/umundo/rpc/Service.cpp:197-208 | The search answers 0 exactly for a prefix, and something exactly for an occurrence |
| ServiceMatch.ComparingRulesMean | rpc/src/umundo/rpc/Service.cpp:136-196 | A rule with equals, less or greater compares the numbers if both texts consist of digits, points and the letter e, and otherwise the texts, in the order given by the first difference or by a proper prefix |
| ServiceMatch.SearchingRulesMean | rpc/src/umundo/rpc/Service.cpp:197-208 | A rule with starts-with passes exactly for a prefix, one with contains exactly for a part, and one with ends-with exactly for a suffix that occurs nowhere else or a text one character too long |
| ServiceMatch.OtherRulesMean | rpc/src/umundo/rpc/Service.cpp:122-211 | A bad pattern and a pattern that does not match fail every rule; the negation flag turns each of the six operators round; any other operator passes |
| ServiceMatch.EveryRuleNarrows | rpc/src/umundo/rpc/Service.cpp:95-216 | Without rules a filter matches by name alone, and every further rule leaves exactly those descriptions whose property passes it, a missing property being empty |
| ServiceMatch.EndsWithAgreesExactlyWhen | rpc/src/umundo/rpc/Service.cpp:201-204 | The ends-with test agrees with the suffix relation if and only if the value is not one longer than the substring and is not a suffix that also occurs before the end |
| ServiceMatch.EndsWithCounterexamples | rpc/src/umundo/rpc/Service.cpp:201-204 | Texts for both ways the ends-with test goes wrong |
| ServiceMatch.NegationComplements | rpc/src/umundo/rpc/Service.cpp:143-211 | Once the pattern selects something, the negation flag exactly complements a known operator |
| ServiceMatch.MatchingIsPure | rpc/src/umundo/rpc/Service.cpp:95-216 | Any sequence of matches leaves every later lookup and every later match result unchanged, although each inserts empty properties |
| ServiceMatch.ArrivalMatchesAlike | rpc/src/umundo/rpc/Service.cpp:248-273 | A description matches where it arrives exactly when it matches at its owner, if no rule reads a header key |
| ServiceMatch.ArrivalCounterexample | rpc/src/umundo/rpc/Service.cpp:248-273 | For each of the keys "name", "channel" and "" a filter, an engine and a description that matches at the owner and not where it arrives |
| ServiceMatch.ArrivesAlikeExactlyWhen | rpc/src/umundo/rpc/Service.cpp:248-273 | All filters whose only rule is on a key match alike at both ends, for every engine and description, if and only if the key is none of these three |
| ServiceObjects.ServiceDescription.constructor | rpc/src/umundo/rpc/Service.cpp:243-246 | A new description has the given name and properties and no channel |
| ServiceObjects.ServiceDescription.FromMessage | rpc/src/umundo/rpc/Service.cpp:248-261 | The loop over the metadata reads exactly the decoded description, with the two header keys that reading them inserts |
| ServiceObjects.ServiceDescription.ToMessage | rpc/src/umundo/rpc/Service.cpp:263-273 | The loop over the properties writes exactly the encoded description |
| ServiceObjects.ServiceDescription.GetProperty | rpc/src/umundo/rpc/Service.cpp:287-289 | A missing property reads as the empty string and is inserted as such |
| ServiceObjects.ServiceDescription.SetProperty | rpc/src/umundo/rpc/Service.cpp:291-293 | One property changes and nothing else |
| ServiceObjects.ServiceFilter.constructor | rpc/src/umundo/rpc/Service.cpp:25-28 | A new filter has the given name and id and no rules |
| ServiceObjects.ServiceFilter.FromMessage | rpc/src/umundo/rpc/Service.cpp:30-50 | The loop over the metadata reads exactly the decoded filter, with all three parts of every rule |
| ServiceObjects.ServiceFilter.ToMessage | rpc/src/umundo/rpc/Service.cpp:52-77 | The three loops write exactly the encoded filter |
| ServiceObjects.ServiceFilter.PutTexts | rpc/src/umundo/rpc/Service.cpp:57-67 | One loop adds exactly its prefixed keys, each with its text, and disturbs no other |
| ServiceObjects.ServiceFilter.PutPredicates | rpc/src/umundo/rpc/Service.cpp:69-75 | The loop adds exactly the prefixed predicates as decimal numerals |
| ServiceObjects.ServiceFilter.AddRule | rpc/src/umundo/rpc/Service.cpp:83-87 | One rule is set in all three maps, which keep one key set |
| ServiceObjects.ServiceFilter.ClearRules | rpc/src/umundo/rpc/Service.cpp:89-93 | No rule is left and the maps keep one key set |
| ServiceObjects.ServiceFilter.Matches | rpc/src/umundo/rpc/Service.cpp:95-216 | Answers whether the names agree and every rule passes on the description as it was, and inserts nothing but empty properties for rule keys |
| ServiceObjects.ServiceFilter.TestRule | rpc/src/umundo/rpc/Service.cpp:109-211 | One rule passes if its pattern selects a substring in the stated relation to the value, negated on demand |
| ServiceObjects.ServiceFilter.IsNumericText | rpc/src/umundo/rpc/Service.cpp:218-230 | The loop answers whether a text consists of digits, points and the letter e |
| Decimal.NumeralDenotes | rpc/src/umundo/rpc/Service.cpp:71-73 | A printed natural number denotes itself |
| Decimal.AtoiPrint | rpc/src/umundo/rpc/Service.cpp:46-73 | Reading a printed integer with `atoi` gives it back |
| Connectivity.Node.Connect | core/src/umundo/connection/Node.cpp:74-88 | The node gains exactly the publishers and subscribers of the connectable |
| Connectivity.Node.Disconnect | core/src/umundo/connection/Node.cpp:90-104 | The node loses exactly the publishers and subscribers of the connectable |
| Connectivity.StepKeepsProductAt | rpc/src/umundo/rpc/ServiceManager.cpp:71-92 | Every step keeps it that a service is attached to a node with all its endpoints or with none, as the tables say |
| Connectivity.ConnectivityIsProduct | rpc/src/umundo/rpc/ServiceManager.cpp:253-326 | In every run the attached pairs are exactly the manager's nodes times its services, and services and descriptions have one key set, so the assert in `removeService` never fires |
| NodeQuery.NodeQuery.constructor | core/src/umundo/discovery/NodeQuery.cpp:22-24 | A new query notifies at once and knows no node |
| NodeQuery.NodeQuery.Found | core/src/umundo/discovery/NodeQuery.cpp:29-44 | A found node is added or changed at once, or kept for the next batch |
| NodeQuery.NodeQuery.Removed | core/src/umundo/discovery/NodeQuery.cpp:46-56 | A removed node is reported and forgotten at once, or kept for the next batch |
| NodeQuery.NodeQuery.NotifyImmediately | core/src/umundo/discovery/NodeQuery.cpp:58-60 | Only the mode changes |
| NodeQuery.NodeQuery.NotifyResultSet | core/src/umundo/discovery/NodeQuery.cpp:62-86 | All pending removals are processed in some order, then all pending finds, and nothing is left pending |
| NodeQuery.NodeQuery.NotifyRemovals | core/src/umundo/discovery/NodeQuery.cpp:66-70 | Every pending removal is reported once and forgotten |
| NodeQuery.NodeQuery.NotifyFinds | core/src/umundo/discovery/NodeQuery.cpp:72-81 | Every pending find is reported once, as added or as changed |
| NodeQuery.KnownNodesAreTheTold | core/src/umundo/discovery/NodeQuery.cpp:29-86 | In every run the known nodes are exactly those whose last added or removed callback was `added`, each the node of its last `added`; no known node is added, and only known nodes change |
| NodeQuery.EveryNodeIsTold | core/src/umundo/discovery/NodeQuery.cpp:29-86 | In every run a step makes exactly one callback for each node it processes, and that callback carries the very node: the one found or removed at once, or all pending removals and then all pending finds of a batch |
| NodeQuery.PendingIsPutOff | core/src/umundo/discovery/NodeQuery.cpp:29-86 | In every run exactly the nodes found and removed since the last flush, while the query did not notify at once, are pending, and the mode is the one last switched to |
| NodeQuery.AddedOnlyAfterRemoved | core/src/umundo/discovery/NodeQuery.cpp:29-86 | In every run, two `added` for one uuid have a `removed` between them |
| NodeQuery.ImmediateKeys | core/src/umundo/discovery/NodeQuery.cpp:29-56 | Processed at once, a node is known in the end if and only if it was not last lost and was known before or seen |
| NodeQuery.BatchedKeys | core/src/umundo/discovery/NodeQuery.cpp:62-86 | Processed as a batch, in any order, a node is known in the end if and only if it was seen, or was known before and not lost |
| NodeQuery.BatchIsImmediateExactlyWhen | core/src/umundo/discovery/NodeQuery.cpp:29-86 | A batch ends with the same nodes as immediate processing if and only if no uuid whose last event was a loss was also seen in it |
| Base64.FindChar | util/src/umundo/util/Base64.cpp:98-98 | The search of the alphabet answers the six-bit value of a character, and 255 for any other |
| Base64.Pack | util/src/umundo/util/Base64.cpp:53-56 | The masks and shifts cut three bytes into the four base-64 digits of the same number |
| Base64.EncodeByte | util/src/umundo/util/Base64.cpp:48-62 | One more byte is stored, and a group that is full is written, so that the text and the encoding of the bytes left make up the whole |
| Base64.EncodeGroup | util/src/umundo/util/Base64.cpp:52-60 | The four characters of a full group are the first of the encoding, and the other bytes yield the rest |
| Base64.EncodeTail | util/src/umundo/util/Base64.cpp:64-79 | The one or two last bytes yield what is left of the encoding, padded |
| Base64.EncodeEnd | util/src/umundo/util/Base64.cpp:64-82 | After the loop the text is completed to the whole encoding |
| Base64.Base64Encode | util/src/umundo/util/Base64.cpp:43-83 | The loop computes the encoding of section 4 of RFC 4648 |
| Base64.Unpack | util/src/umundo/util/Base64.cpp:100-102 | The masks and shifts, cut to eight bits, of any four stored values |
| Base64.UnpackedIsTriple | util/src/umundo/util/Base64.cpp:100-102 | On six-bit values they are the three bytes of the same number |
| Base64.FillerIsHarmless | util/src/umundo/util/Base64.cpp:110-121 | The bytes kept of a tail group are the same whatever fills the rest of it, so the 255 of a failed search never shows |
| Base64.DecodeChar | util/src/umundo/util/Base64.cpp:94-108 | One more character is stored, and a group that is full is decoded, so that the bytes and the decoding of the text left make up the whole |
| Base64.DecodeGroup | util/src/umundo/util/Base64.cpp:96-107 | A full group yields the first three bytes of the decoding, and the rest of the text yields the rest |
| Base64.DecodeTail | util/src/umundo/util/Base64.cpp:110-122 | The last one to three characters yield what is left of the decoding |
| Base64.Base64Decode | util/src/umundo/util/Base64.cpp:85-125 | The loop decodes the text up to the first character outside the alphabet |
| Base64.DecodeEncode | util/src/umundo/util/Base64.cpp:43-125 | Decoding the encoding of any bytes gives them back |
| Base64.StandardVectors | util/src/umundo/util/Base64.cpp:43-83 | Bytes are encoded as section 10 of RFC 4648 says, and the last two symbols are + and / |
| Base64.DecodeStopsAtForeign | util/src/umundo/util/Base64.cpp:85-125 | Whatever follows the first character outside the alphabet is not read |
| Base64.EncodedLength | util/src/umundo/util/Base64.cpp:43-83 | The encoding of n bytes has 4 * ceil(n / 3) characters |
| Base64.EncodeIsCanonical | util/src/umundo/util/Base64.cpp:64-79 | Every encoding is canonical in the sense of section 3.5 of RFC 4648 |
| Base64.EncodeDecodeExactlyWhen | util/src/umundo/util/Base64.cpp:43-125 | Encoding the decoding of a text gives it back if and only if the text is canonical |
| Getopt.StrChrFinds | contrib/snippets/XGetopt.cpp:193-193 | The place of a letter in the option string is its first, or the letter is not there |
| Getopt.KindIsReadOff | contrib/snippets/XGetopt.cpp:192-200 | A letter takes an argument if a colon follows its first place in the option string, and stands alone otherwise |
| Getopt.UnknownExactlyWhen | contrib/snippets/XGetopt.cpp:193-196 | Exactly the colon and the letters that do not occur in the option string are unknown |
| Getopt.Scanner.constructor | contrib/snippets/XGetopt.cpp:154-159 | Scanning begins with no argument looked at |
| Getopt.Scanner.GetOpt | contrib/snippets/XGetopt.cpp:157-218 | One call takes the first item off what the pure parser still has to return, or reports its end and the first operand; it always advances and keeps the index in range |
| Getopt.Scanner.NextWord | contrib/snippets/XGetopt.cpp:165-190 | Moves to the letters of the next argument if those are options, and otherwise ends the parse where the pure parser does |
| Getopt.Scanner.Letter | contrib/snippets/XGetopt.cpp:192-217 | Takes one letter with its argument as the pure parser does, and '?' for an unknown letter or a missing argument |
| Getopt.Scan | contrib/snippets/XGetopt.cpp:157-218 | Calling until the end terminates and returns exactly the items of the pure parse, the index of the first operand and the operand itself |
| Getopt.OperandsAreASuffix | contrib/snippets/XGetopt.cpp:80-88 | The operands are the last arguments, untouched |
| Getopt.UnknownLetterIsReported | contrib/snippets/XGetopt.cpp:192-196 | A letter that the option string does not have yields '?' and nothing else changes |
| Getopt.FlagParses | contrib/snippets/XGetopt.cpp:192-217 | A letter without a colon in the option string yields itself and takes nothing |
| Getopt.OptionTakesTheNextWord | contrib/snippets/XGetopt.cpp:198-217 | A letter with a colon in the option string takes the next word, whatever it is, and yields '?' if there is none |
| Getopt.ClusteringLaw | contrib/snippets/XGetopt.cpp:73-74 | For any a that takes no argument, known or not, "-a" and "-tail" parse like "-atail" if and only if a is not '-' and tail is not "-" |
| Getopt.AttachingLaw | contrib/snippets/XGetopt.cpp:67-71 | "-n" and "arg" parse like "-narg" if and only if n is not '-' and arg is not empty |
| Getopt.ParsePrint | contrib/snippets/XGetopt.cpp:165-217 | Printing any words of flags and options with attached or separate arguments, and any operands, and parsing gives them back |
| Getopt.EverythingIsPrintable | contrib/snippets/XGetopt.cpp:165-217 | Every list of flags and options of the option string, without the letter '-', and of operands is the parse of some argument list |
| LexicalCast.ToUnsigned | contrib/prebuilt/include/boost/lexical_cast.hpp:491-498 | Conversion and negation modulo 2^bits give the absolute value, of the minimum too |
| LexicalCast.Put | contrib/prebuilt/include/boost/lexical_cast.hpp:552-561 | One character is written before the text written so far, inside the buffer |
| LexicalCast.NextGroup | contrib/prebuilt/include/boost/lexical_cast.hpp:542-554 | At the end of a group the next size is taken, the last one repeating, and the separator written |
| LexicalCast.PutUnsigned | contrib/prebuilt/include/boost/lexical_cast.hpp:508-566 | The loop writes exactly the grouped numeral before `finish`, stays inside the buffer and leaves the rest of it alone |
| LexicalCast.LimitedSource.PutSigned | contrib/prebuilt/include/boost/lexical_cast.hpp:842-868 | In a buffer of the reserved size, every signed value is written with its sign and groups and nothing outside is touched |
| LexicalCast.LimitedSource.PutNatural | contrib/prebuilt/include/boost/lexical_cast.hpp:914-937 | The same for every unsigned value |
| LexicalCast.SeparatorsAreAtGroupBoundaries | contrib/prebuilt/include/boost/lexical_cast.hpp:515-554 | The text is the digits cut into groups from the right with one separator between neighbours; each group is as long as its entry in the locale's grouping, or the last entry when there are no more, an entry that is not positive standing for CHAR_MAX; only the leftmost may be shorter |
| LexicalCast.ReadingBack | contrib/prebuilt/include/boost/lexical_cast.hpp:508-566 | Dropping the separators gives the plain numeral back if and only if the separator is none of its characters after the first, and reading that gives the integer |
| LexicalCast.BufferSuffices | contrib/prebuilt/include/boost/lexical_cast.hpp:339-352 | No value in any locale needs more than is_signed + 1 + 2 * digits10 characters |
| LexicalCast.BufferIsTight | contrib/prebuilt/include/boost/lexical_cast.hpp:339-352 | For every integer type some value needs exactly that many when single digits are grouped |
| LexicalCast.UnlimitedGroupsNeverSeparate | contrib/prebuilt/include/boost/lexical_cast.hpp:523-531 | With an unlimited first group no value of any type ever gets a separator |

## Left out

- ZeroMQ, Bonjour, Avahi, protobuf and the serialisation of typed messages: links are sequences of messages, and a message arrives as the metadata that was sent plus what the transport adds.
- The regular expression engine and the conversion of text to a floating-point number: both are parameters of `ServiceMatch`, and an optional group that took no part in a match is not told apart from one that matched nothing.
- Departures of managers: `farewell` is empty, so nothing is withdrawn and convergence is not claimed for them.
- A manager linked to itself: links join different managers.
- DiscoveryConverges: filters and descriptions do not change while they are in use, links come up in both directions at once and stay up, and a callback is attributed to the query it is for; `ListenerConverges` and `SharedListenerConverges` do without the attribution.
- DiscoveryDescriptions.GenuineHolds: registered descriptions are values, so the empty properties that a later `matches` inserts into them neither travel nor count as a difference.
- DiscoveryDescriptions.ListenersGetTheRegistered: as for `GenuineHolds`; a description told after such an insertion looks alike and is not equal.
- DiscoveryDescriptions.CachedDescriptionGetsOld: as for `GenuineHolds`.
- DiscoveryCache.UnstoppedTellsTheTruth: as for `GenuineHolds`.
- DiscoveryShared.SharedListenerConverges: queries that share a listener are not stopped; a stop calls no listener, so what a stopped query showed stays.
- ArrivalMatchesAlike: for filters with several rules the condition is sufficient only, because a filter that no description can match is not affected by what its rules read; `ArrivesAlikeExactlyWhen` is exact key by key.
- NoLostWakeup: one wait on a fresh monitor, as both call sites use it; several waits on one monitor are only in the coarser model of `MonitorPermits`, and memory accesses are taken one at a time, in order.
- MonitorPermits.Monitor.LeaveWait: a blocking wait is split where it blocks, and errors of the condition variable, the time arithmetic and negative thread counts in a run are not modelled.
- ServiceManager.ServiceManager.FindLocal: registered descriptions are values, so the empty properties that `matches` inserts into them are not kept; `MatchingIsPure` says that they change no lookup and no match.
- ServiceManager.ServiceManager.Reply: for the same reason these empty properties do not travel in later messages.
- ServiceManager.ServiceManager.Announce: as for `Reply`.
- ServiceManager.ServiceManager.AnswerFind: as for `Reply`.
- ServiceManager.ServiceManager.AddService: a null service is not modelled, and a service without a channel is excluded as the assert demands.
- ServiceManager.ServiceManager.OpenFind: the pause and the wait for a first subscriber before the request is sent are not modelled; the accesses to the request table outside the lock are single steps.
- Getopt.EverythingIsPrintable: lists with '-' as an option letter are left out; such a letter can be printed next to others, as in "-a-" or "--x", and not alone, because "--" ends the options.
- RemoteCall.Service.Receive: a method's result is a function of its request, and who frees the objects is not modelled.
- Identifiers of requests, queries and channels are taken to be unique, as UUIDs are.
- LexicalCast.LimitedSource.PutSigned: characters are `char` with a signed range for the locale's group sizes; wide characters, `bool`, strings and floating-point values are not modelled.
- The Win32 branches, thread start and join, logging, memory ownership, the factory and bridge facades, the code generators and the command line tools: delegation or platform code without a law to prove.
