# Relay worker scheduler

A Dafny model of `RelayWorker`, the per-relay scheduler of a Nostr client that runs inside a
web worker. The worker:

- keeps one job queue per category: profiles, contacts, short notes ("Event"), long-form
  articles and badge definitions;
- drains each batched queue 500 jobs at a time. Identifiers are deduplicated in first-seen
  order, the category is marked in flight, one relay subscription is opened, and a timer of
  three seconds per identifier is armed;
- drains contacts one job at a time, through a continuation that runs at most once per call;
- resolves each download by the relay's end of stored events (EOSE, NIP-01) or by its timer.
  Either way the category goes idle and is drained again at once; only the timer posts a
  `timeout` message;
- keeps the app's ad-hoc subscriptions keyed by id. They are queued while disconnected and
  replayed on connection;
- publishes events, holding back NIP-33 addressable kinds (30023, 30008, 30009) unless the
  relay's NIP-11 document lists NIP 33;
- fetches the relay's NIP-11 document.

The model is built in layers:

- Module `Steps` describes the worker as one value, `WorkerState`. It has one function per
  operation and per callback. It also defines the invariant `Inv`:
  - a batched category is in flight exactly while its timer is armed;
  - a subscription can be live only while in flight;
  - nothing is live while disconnected;
  - ad-hoc ids are distinct;
  - the contacts timer belongs to the latest `downloadContacts` call, whose continuation has
    not run;
  - every continuation has run at most once.
- Class `Worker.RelayWorker` keeps the source's fields and updates them in place. Each
  method is specified by the step function it implements.
- Module `Invariant` proves that every step keeps `Inv`.
- Module `Properties` proves what each operation promises.

The relay library is represented by ghost state:

- which category subscriptions are live, with their filters;
- which timers are armed, with the data their callbacks captured;
- the messages posted to the app;
- the events handed to `relay.publish`.

Its callbacks are methods (`OnEose`, `OnBatchTimer`, `OnContactsEvent`, `OnContactsTimer`,
`OnClose`, ...). Each one requires that the subscription or timer that fires is live. A
`downloadContacts` call's closure-local `finalizedCalled` flag is modelled as a set of call
numbers.

Behaviour reproduced as written:

- `clearArticleSub` and `clearBadgeDefinitionSub` forget the timer field, not the
  subscription field.
- Article and badge-definition timeouts are tagged "Event".
- The article filter asks for `authors`.
- `onclose` empties the ad-hoc list but does not cancel the batch timers. A category stays in
  flight until its timer fires, and then goes idle with its jobs kept (`TimeoutAfterClose`).
- `unsubscribe` does not look at requests queued while disconnected.
- `publish` posts nothing when it skips an addressable event; it only logs.

## Model

| member | source | states |
|---|---|---|
| Worker.RelayWorker.constructor | src/app/workers/relay.ts:28-30 | a new worker has no relay, empty queues and nothing live, and satisfies the invariant |
| Worker.RelayWorker.ClearSub | src/app/workers/relay.ts:346-369 | closes the category's stored subscription; forgets the subscription field, or the timer field for articles and badge definitions |
| Worker.RelayWorker.DownloadBatch | src/app/workers/relay.ts:371-396 | without a relay nothing happens; otherwise any stored subscription is cleared, one subscription with the category's filters is opened and a timer holding the identifiers is armed |
| Worker.RelayWorker.ProcessBatch | src/app/workers/relay.ts:118-137 | one drain of a batched category, as `Steps.BatchProcessed`; its effect is stated by `Properties.BatchDrainGuard` and `Properties.BatchDispatch` |
| Worker.RelayWorker.DownloadContacts | src/app/workers/relay.ts:479-493 | starts call number k+1: clears the stored contacts subscription and opens one for the author's contact list, with a 3000-second timer |
| Worker.RelayWorker.ProcessContacts | src/app/workers/relay.ts:139-156 | one contacts drain: shifts one job and downloads it when connected, idle and non-empty |
| Worker.RelayWorker.FinalizeContacts | src/app/workers/relay.ts:152-155 | the continuation sets the call's flag, records the run, marks contacts idle and drains contacts again |
| Worker.RelayWorker.ProcessSubscriptions | src/app/workers/relay.ts:100-116 | the while loop shifts and subscribes every queued request in order; the loop invariant ties the state after i turns to `Steps.Replaying` |
| Worker.RelayWorker.Process | src/app/workers/relay.ts:91-98 | drains article, badge definition, profile, contacts and event, then the ad-hoc requests, in that order |
| Worker.RelayWorker.HandleClose | src/app/workers/relay.ts:264-268 | the onclose handler empties the ad-hoc list and posts status 0 |
| Worker.RelayWorker.Enque | src/app/workers/relay.ts:67-89 | accepted exactly when the type names a category; the job is appended to that queue and a debounce is started; the invariant is kept |
| Worker.RelayWorker.OnDebounce | src/app/workers/relay.ts:86-88 | a debounce firing runs process and keeps the invariant |
| Worker.RelayWorker.Connect | src/app/workers/relay.ts:238-294 | an unreachable relay posts "Unable to connect."; otherwise the relay is attached, status 1 is posted and process runs; the invariant is kept |
| Worker.RelayWorker.Publish | src/app/workers/relay.ts:32-64 | the NIP-33 gate, the send, and a `failure` message when the send rejects; the invariant is kept |
| Worker.RelayWorker.ConnectAndPublish | src/app/workers/relay.ts:238-253 | connect(event): status 1, then the publish, then 'terminated', then status 0 from the onclose of the disconnect; the invariant is kept |
| Worker.RelayWorker.Disconnect | src/app/workers/relay.ts:296-301 | closes a connected relay (the onclose effects follow) and leaves a disconnected one alone; reports false where `this.relay` is undefined |
| Worker.RelayWorker.Info | src/app/workers/relay.ts:873-898 | stores and posts the document on status 200; posts a NIP-11 error otherwise; the invariant is kept |
| Worker.RelayWorker.Subscribe | src/app/workers/relay.ts:812-871 | queued while not connected, ignored for a listed id, otherwise appended; the invariant is kept |
| Worker.RelayWorker.Unsubscribe | src/app/workers/relay.ts:303-316 | removes the listed entry with that id, if any; the invariant is kept |
| Worker.RelayWorker.OnBatchEvent | src/app/workers/relay.ts:398-403 | an event of a live batch subscription is posted to the app without a subscription id |
| Worker.RelayWorker.OnAdHocEvent | src/app/workers/relay.ts:828-830 | an event of a listed ad-hoc subscription is posted with its id |
| Worker.RelayWorker.OnEose | src/app/workers/relay.ts:405-411 | EOSE clears the timer and the subscription, marks the category idle and drains it again |
| Worker.RelayWorker.OnBatchTimer | src/app/workers/relay.ts:464-476 | the timer clears the subscription, marks the category idle, drains it again and posts `timeout` |
| Worker.RelayWorker.OnContactsEvent | src/app/workers/relay.ts:495-504 | posts the event, clears the subscription and the timer, and runs the continuation unless its flag is set |
| Worker.RelayWorker.OnContactsTimer | src/app/workers/relay.ts:521-527 | clears the subscription and runs the continuation unless its flag is set |
| Worker.RelayWorker.OnClose | src/app/workers/relay.ts:264-268 | a live connection ends, once, every subscription with it; then the onclose handler runs |
| Worker.RelayWorker.OnNotice | src/app/workers/relay.ts:270-273 | a relay notice is posted |
| Queues.Route | src/app/workers/relay.ts:69-81 | routes a type to the category it names; None exactly when no category has that name |
| Queues.RouteName | src/app/workers/relay.ts:69-78 | every category's name routes back to it |
| Queues.Enqueued | src/app/workers/relay.ts:67-81 | refused exactly when no category is named; otherwise the named queue gains the job at its end and every other queue is unchanged |
| Queues.EnqueuedSeparates | src/app/workers/relay.ts:67-81 | a job of a category's type lands at the end of that queue, and no other queue changes |
| Queues.BatchSize | src/app/workers/relay.ts:131-132 | `splice(0, 500)` takes min(n, 500) jobs |
| Queues.Identifiers | src/app/workers/relay.ts:133 | the identifiers of the jobs, in order |
| Queues.Drain | src/app/workers/relay.ts:118-136 | dispatches exactly when connected, idle and non-empty; the rest of the queue is kept in order and the category goes in flight; an idle empty queue stays inactive |
| Queues.DrainDispatches | src/app/workers/relay.ts:131-134 | a dispatched batch has 1 to 500 distinct identifiers: exactly those of the jobs taken, in first-seen order |
| Queues.DrainSplitsQueue | src/app/workers/relay.ts:131-132 | the jobs taken followed by the jobs left are the queue that was drained |
| Queues.DrainSixHundred | src/app/workers/relay.ts:131-132 | with 600 jobs, the first 500 are taken and the last 100 wait |
| Queues.DrainRepeated | src/app/workers/relay.ts:134 | an idle queue whose jobs all share one identifier dispatches it once, whatever the queue's length |
| Queues.DrainThenDrain | src/app/workers/relay.ts:119-122 | a second drain right after a dispatch does nothing |
| Queues.TimeoutBounded | src/app/workers/relay.ts:136 | the timer of a dispatched batch is between 3 and 1500 seconds |
| Queues.TimeoutTag | src/app/workers/relay.ts:470 | the timeout message is tagged "Profile" for profiles and "Event" for the other categories |
| Queues.ContactsDrain | src/app/workers/relay.ts:139-150 | dispatches the first job's identifier exactly when connected, idle and non-empty; that job followed by the rest is the old queue |
| Dedup.UniqueCharacterised | src/app/workers/relay.ts:134 | the deduplicated batch has no repeats, holds exactly the batch's identifiers, in first-seen order |
| Dedup.UniqueIsDetermined | src/app/workers/relay.ts:134 | those three properties determine the result |
| Dedup.UniqueIdempotent | src/app/workers/relay.ts:134 | deduplicating twice is deduplicating once |
| Dedup.UniqueOfDistinct | src/app/workers/relay.ts:134 | a batch without repeats is left as it is |
| Dedup.UniqueOfRepeated | src/app/workers/relay.ts:134 | one identifier repeated gives a single element |
| Dedup.UniqueSnoc | src/app/workers/relay.ts:134 | one more identifier is appended exactly when it is new |
| Nip.Includes | src/app/workers/relay.ts:38 | `supported_nips.includes(n)` is membership |
| Nip.PublishGate | src/app/workers/relay.ts:33-44 | send exactly when the kind is not addressable or the document lists NIP 33; the two skip reasons apply exactly when there is no document, or the document lacks NIP 33 |
| Nip.OrdinaryKindsAlwaysSent | src/app/workers/relay.ts:33 | every other kind is sent whatever the document |
| Nip.GateByDocument | src/app/workers/relay.ts:35-43 | a document listing NIP 33 lets every kind through; without a document addressable kinds are held back |
| Nip.InfoScheme | src/app/workers/relay.ts:876 | "http" exactly for "ws:", "https" otherwise |
| Nip.InfoUrlSchemes | src/app/workers/relay.ts:875-878 | ws://host maps to http://host, wss://host to https://host |
| Transport.CategoryFilters | src/app/workers/relay.ts:396 | each filter asks for the category's kind: one filter for profiles, notes and articles, one per identifier for badge definitions |
| Transport.CategoryFiltersCover | src/app/workers/relay.ts:553 | profiles and articles ask for the identifiers as authors, notes as ids, badge definitions by address |
| BadgeIds.FindSub | src/app/workers/relay.ts:636 | a found index is an occurrence of the pattern |
| BadgeIds.FindSubFirst | src/app/workers/relay.ts:636 | it is the first occurrence, and -1 means there is none |
| BadgeIds.SecondField | src/app/workers/relay.ts:632-633 | undefined exactly when there is no colon; the field holds no colon |
| BadgeIds.ParseBadgeId | src/app/workers/relay.ts:631-636 | the author is undefined exactly when the identifier has no colon |
| BadgeIds.BadgeFilters | src/app/workers/relay.ts:628-638 | one address filter per identifier, in order |
| BadgeIds.BuildBadgeFilters | src/app/workers/relay.ts:628-638 | the for loop builds exactly `BadgeFilters(ids)` |
| BadgeIds.ReplacePrefix | src/app/workers/relay.ts:636 | replacing a leading pattern removes exactly that prefix |
| BadgeIds.StripKindPrefix | src/app/workers/relay.ts:636 | the first replace removes the leading "30009:" |
| BadgeIds.StripAuthor | src/app/workers/relay.ts:636 | the second replace removes the author and its colon |
| BadgeIds.SecondFieldComposed | src/app/workers/relay.ts:632-633 | the second field of "30009:p:s" is p when p has no colon |
| BadgeIds.ParseComposedBadgeId | src/app/workers/relay.ts:631-636 | "30009:" + p + ":" + s parses to author p and slug s, colons in s kept |
| BadgeIds.BadgeFiltersOfComposed | src/app/workers/relay.ts:628-638 | well-formed identifiers yield one {30009, [p], #d [s]} filter each, in order |
| BadgeIds.ParseExample | src/app/workers/relay.ts:631-636 | "30009:AUTHORHEX:my:slug" has author AUTHORHEX and slug "my:slug" |
| AdHoc.FindIndex | src/app/workers/relay.ts:304 | -1 exactly when the id is not listed; otherwise the first entry with that id |
| AdHoc.RemoveOnlyThat | src/app/workers/relay.ts:303-311 | with distinct ids, splicing out the found entry removes that id only, keeps the others in order and keeps them distinct |
| AdHoc.SubscribeIds | src/app/workers/relay.ts:821-844 | the id is listed afterwards, nothing else is added, and distinct ids stay distinct |
| AdHoc.AddSub | src/app/workers/relay.ts:821-844 | a new id is appended with its filters; a listed id leaves the list unchanged |
| AdHoc.ReplayIsUnique | src/app/workers/relay.ts:100-116 | replaying queued requests gives the listed ids followed by the requested ones, each at its first appearance |
| AdHoc.ReplayEntries | src/app/workers/relay.ts:100-116 | replaying queued requests keeps the listed entries unchanged in front; every later entry carries the id and filters of the first request with that id, an id not listed before; every requested id ends up listed |
| Steps.RecordRun | src/app/workers/relay.ts:500-502 | running a continuation whose flag is unset keeps every continuation at most once |
| Steps.InitialInv | src/app/workers/relay.ts:28-30 | the new worker satisfies the invariant |
| Steps.ReplayingStep | src/app/workers/relay.ts:109-115 | one turn of the loop (shift, then subscribe) moves from i to i+1 requests replayed |
| Invariant.DownloadedInv | src/app/workers/relay.ts:371-476 | a batch download started from an in-flight category restores the invariant |
| Invariant.BatchProcessedInv | src/app/workers/relay.ts:118-235 | a batched drain keeps the invariant |
| Invariant.ContactsProcessedInv | src/app/workers/relay.ts:139-156 | the contacts drain keeps the invariant |
| Invariant.ContactsDownloadedInv | src/app/workers/relay.ts:479-528 | a contacts download started by a drain restores the invariant |
| Invariant.SubscriptionsProcessedInv | src/app/workers/relay.ts:100-116 | replaying the queued requests keeps the invariant |
| Invariant.ProcessedInv | src/app/workers/relay.ts:91-98 | process keeps the invariant |
| Invariant.JobEnqueuedInv | src/app/workers/relay.ts:67-89 | enque keeps the invariant |
| Invariant.DebouncedInv | src/app/workers/relay.ts:86-88 | the debounce firing keeps the invariant |
| Invariant.ReleasedInv | src/app/workers/relay.ts:405-411 | clearing the timer and the subscription and going idle keeps the invariant |
| Invariant.EoseResolvedInv | src/app/workers/relay.ts:405-411 | EOSE of a live batch subscription keeps the invariant |
| Invariant.TimerResolvedInv | src/app/workers/relay.ts:464-476 | a batch timer keeps the invariant |
| Invariant.ContactsFinalizedInv | src/app/workers/relay.ts:152-155 | the continuation of the latest call keeps the invariant |
| Invariant.ContactsEventResolvedInv | src/app/workers/relay.ts:495-504 | the contacts onevent keeps the invariant |
| Invariant.ContactsTimerResolvedInv | src/app/workers/relay.ts:521-527 | the contacts timer keeps the invariant |
| Invariant.ClosedInv | src/app/workers/relay.ts:264-268 | the connection closing keeps the invariant |
| Invariant.ConnectedInv | src/app/workers/relay.ts:238-294 | connect() keeps the invariant |
| Invariant.ConnectedAndPublishedInv | src/app/workers/relay.ts:238-253 | connect(event) keeps the invariant |
| Invariant.PublishedInv | src/app/workers/relay.ts:32-64 | publish keeps the invariant |
| Invariant.InfoReceivedInv | src/app/workers/relay.ts:873-898 | info keeps the invariant |
| Invariant.PostedInv | src/app/workers/relay.ts:270-273 | posting a message keeps the invariant |
| Invariant.SubscribedInv | src/app/workers/relay.ts:812-871 | subscribe keeps the invariant, ad-hoc ids distinct in particular |
| Invariant.UnsubscribedInv | src/app/workers/relay.ts:303-316 | unsubscribe keeps the invariant |
| Properties.BatchProcessedFrame | src/app/workers/relay.ts:118-137 | a batched drain touches only its own category: no message, no publish, the connection and the other queues unchanged |
| Properties.ContactsProcessedFrame | src/app/workers/relay.ts:139-156 | the contacts drain touches only the contacts queue and entries and the call counter |
| Properties.BatchDrainGuard | src/app/workers/relay.ts:119-127 | with no relay, disconnected, in flight or an empty queue, a batched drain changes nothing |
| Properties.BatchDispatch | src/app/workers/relay.ts:129-136 | connected, idle and non-empty: the first min(500, n) jobs leave and the rest stay in order; the category goes in flight; the subscription asks for the deduplicated identifiers; the timer holds them and lasts 3 seconds each |
| Properties.DownloadedShape | src/app/workers/relay.ts:381-417 | a download replaces the category's subscription and timer and changes nothing else |
| Properties.BatchDrainTwice | src/app/workers/relay.ts:119-136 | draining twice in a row is draining once |
| Properties.ContactsDrainGuard | src/app/workers/relay.ts:140-147 | without a connected relay, in flight or with nothing queued, the contacts drain changes nothing |
| Properties.ContactsDispatch | src/app/workers/relay.ts:149-155 | the first contacts job is shifted off, the category goes in flight, and call k+1 subscribes for it with a 3000-second timer |
| Properties.Redrained | src/app/workers/relay.ts:409-410 | re-draining a released category dispatches exactly when jobs wait, opening a subscription with the new batch's filters only then, and posts nothing |
| Properties.EoseResolution | src/app/workers/relay.ts:405-411 | EOSE posts nothing and closes the subscription; the category is drained again at once, in flight again, with a subscription carrying the next batch's filters, exactly when jobs wait; other queues unchanged |
| Properties.TimerResolution | src/app/workers/relay.ts:464-476 | the timer closes the subscription and posts exactly one `timeout` message with the batch's identifiers; the category is drained again at once, with a new subscription for the next batch exactly when it is dispatched; other queues unchanged |
| Properties.ContactsRedrained | src/app/workers/relay.ts:153-154 | re-draining contacts starts the next call and runs no continuation |
| Properties.ContactsFinalizedEffect | src/app/workers/relay.ts:152-155 | the continuation runs once, sets the call's flag and drains contacts again |
| Properties.ContactsEventResolution | src/app/workers/relay.ts:495-504 | the first contacts event is posted and the continuation of that call runs, this once; a timer armed afterwards belongs to the next call |
| Properties.ContactsTimerResolution | src/app/workers/relay.ts:521-527 | the contacts timer runs that call's continuation, this once, and posts nothing |
| Properties.ContinuationsAtMostOnce | src/app/workers/relay.ts:495-527 | the contacts event runs its call's continuation once; a timer firing afterwards runs only the next call's; no continuation number appears twice along that run |
| Properties.EventRuns | src/app/workers/relay.ts:495-504 | the contacts event runs its call's continuation, the runs stay distinct, and a timer left armed is the next call's, with its flag unset |
| Properties.TimerRuns | src/app/workers/relay.ts:521-527 | the timer of a call whose flag is unset runs that call's continuation, and the runs stay distinct |
| Properties.EventThenTimerRuns | src/app/workers/relay.ts:495-527 | after the event of call k, a timer firing for the call started by the re-drain runs the continuation of call k + 1 only |
| Properties.RunsDistinct | src/app/workers/relay.ts:500-502 | under the invariant no continuation has run twice |
| Properties.SubscribeEffect | src/app/workers/relay.ts:812-844 | disconnected: the request is queued in order and nothing else changes; connected: a new id is appended with its filters, a listed id changes nothing, ids stay distinct |
| Properties.UnsubscribeEffect | src/app/workers/relay.ts:303-316 | only the entry with that id is removed, the ids stay distinct, an unknown id changes nothing |
| Properties.SubscriptionsReplayed | src/app/workers/relay.ts:100-116 | on a connected relay no request stays queued, and the listed ids become the listed then the requested ids, each at its first appearance |
| Properties.SubscriptionsReplayedEntries | src/app/workers/relay.ts:100-116 | on a connected relay the listed entries stay unchanged in front, each added entry carries the filters of the first queued request with its id, and every queued id is listed |
| Properties.SubscriptionsFrame | src/app/workers/relay.ts:100-116 | replaying changes only the ad-hoc list and the queued requests |
| Properties.CloseEffect | src/app/workers/relay.ts:264-268 | after close nothing is live, the ad-hoc list is empty and status 0 is posted; queues and timers are unchanged |
| Properties.SubscribeAfterClose | src/app/workers/relay.ts:813-818 | after a close, subscribe queues the request for the next connection |
| Properties.TimeoutAfterClose | src/app/workers/relay.ts:464-470 | a batch timer firing after the close still posts its timeout, and leaves the category idle with its jobs kept |
| Properties.PublishEffect | src/app/workers/relay.ts:32-52 | the event is handed over exactly when a relay is present and the gate sends; a rejection posts one `failure`; nothing else changes |
| Properties.AddressableWaitsForDocument | src/app/workers/relay.ts:33-37 | an addressable event is not published before a NIP-11 document arrived |
| Properties.ConnectAndPublishEffect | src/app/workers/relay.ts:238-268 | status 1, the publish, 'terminated' and status 0 follow in order; an addressable event is never sent on the fresh relay; the worker ends disconnected with no ad-hoc subscription |
| Properties.InfoEffect | src/app/workers/relay.ts:886-897 | exactly one message is posted; the document is kept exactly on status 200 with a relay present; nothing else changes |
| Properties.InfoThenPublish | src/app/workers/relay.ts:38-43 | after a document listing NIP 33 is kept, every kind is published |
| Properties.BatchSettles | src/app/workers/relay.ts:118-137 | after its drain on a connected relay, a batched category with jobs is in flight |
| Properties.ContactsSettle | src/app/workers/relay.ts:139-156 | after their drain on a connected relay, contacts with jobs are in flight |
| Properties.BatchStep | src/app/workers/relay.ts:118-137 | a batched drain keeps the frame and the categories already settled, and settles its own |
| Properties.ContactsStep | src/app/workers/relay.ts:139-156 | the contacts drain keeps the frame and the categories already settled, and settles contacts |
| Properties.DrainsSettle | src/app/workers/relay.ts:92-96 | the five drains of process leave every category settled on a connected relay |
| Properties.ProcessSettles | src/app/workers/relay.ts:91-98 | process on a connected relay leaves no category with jobs idle and no request queued; it posts and publishes nothing |
| Properties.EnqueueEffect | src/app/workers/relay.ts:67-89 | the job is appended to exactly the named queue, one more debounce is pending; an unsupported type changes nothing |
| Properties.ConnectEffect | src/app/workers/relay.ts:238-262 | a reachable relay: status 1, then every category settled and the queued requests subscribed; unreachable: only the error message |
| Properties.DuplicateProfilesScenario | src/app/workers/relay.ts:129-136 | profiles "a", "a", "b": one subscription for ["a", "b"] with a 6-second timer; its timeout posts ["a", "b"] once and profiles go idle |

## Left out

- Timer durations and the 500 ms debounce of `enque` are not modelled as time. A
  timer is armed with its delay recorded and fires as a callback method. The debounce is a
  count of pending `process` calls.
- The nostr-tools library (`Relay.connect`, `relay.subscribe`, `relay.publish`, `sub.close`)
  is foreign code. Its effects are ghost state; its callbacks are methods whose
  preconditions say which subscription or timer is live.
- `postMessage` is a ghost log of typed messages. The relay url each message carries is left
  implicit.
- `info()`'s `fetch`, JSON parsing and `new URL` are I/O. They are given as a `FetchOutcome`
  parameter; `Failed` carries the text of the thrown error.
- `err` in publish's catch and `statusText` are modelled as strings.
- The logger (a no-op object) and the `debugger` statements do nothing and are not modelled.
- The unused generic `download()` (src/app/workers/relay.ts:694-734) is not reached from the
  queues and is not modelled.
- The ad-hoc subscription's `oneose` is a no-op and is not modelled.
- The relay subscription handle kept in each ad-hoc entry is not modelled. An entry is live
  exactly while the relay is connected.
- `src/app/services/queue.ts` (the `Queue` class) is not part of this model. Its shape is
  taken from how the worker uses it: a job list and an `active` flag per category, plus the
  queued subscription requests.
- `connect` over a relay that is still connected is not modelled: `Worker.RelayWorker.Connect`
  and `Worker.RelayWorker.ConnectAndPublish` require a disconnected relay when it is
  reachable. A second handshake while the first connection lives would leave that
  connection's subscriptions and callbacks unaccounted for.
- The asynchronous steps of `connect`, `publish` and `info` are each modelled as one atomic
  step. No other callback interleaves.
- Worker.RelayWorker.Disconnect: where `this.relay` is undefined the source throws a
  TypeError; the method returns false and changes nothing.
- Worker.RelayWorker.Publish: without a relay the source dies of a TypeError, also inside its
  catch, and posts nothing. The model changes nothing. The exact TypeError texts are not
  modelled.
- Worker.RelayWorker.Info: when a document arrives but no relay is assigned, the assignment
  throws. The resulting NIP-11 error text is modelled as one fixed string.
