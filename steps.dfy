/**
 * The worker's state as one value, and each of its operations as a function from the state
 * before to the state after. The class RelayWorker (module Worker) implements these
 * operations in place; here they are related to the invariant the worker keeps and to
 * the promises its code makes.
 */
module Steps {
  import opened Nostr
  import opened Dedup
  import opened Nip
  import opened Queues
  import opened Transport
  import opened AdHoc

  /**
   * Everything a RelayWorker holds, together with what the relay library and the host see
   * of it: the live subscriptions and armed timers per category, the messages posted and
   * the events handed to the relay.
   */
  datatype WorkerState = WorkerState(
    hasRelay: bool,                          // `this.relay` has been assigned
    connected: bool,                         // `this.relay.connected`
    nip11: Option<Nip11>,                    // `this.relay.nip11`
    queue: QueueSet,
    subscriptions: seq<AdHocSub>,
    subField: set<Category>,                 // which `*Sub` fields are set
    timerField: set<Category>,               // which `*Timer` fields are set
    contactsCycle: nat,                      // downloadContacts calls so far; call k owns flag k
    finalizedCalled: set<nat>,               // the calls whose `finalizedCalled` flag is set
    liveSubs: map<Category, seq<Filter>>,    // categories whose stored subscription is live, with its filters
    armed: map<Category, TimerInfo>,         // categories whose stored timer is armed, with what its callback captured
    pendingProcess: nat,                     // `enque`'s 500 ms timers not yet fired
    outbox: seq<Message>,                    // messages posted to the host, oldest first
    published: seq<NostrEvent>,              // events handed to relay.publish, oldest first
    continuationRuns: seq<nat>)              // the calls whose `finalized` continuation ran, in order

  /** A worker just constructed: no relay, empty queues, nothing live. */
  function Initial(): WorkerState
  {
    WorkerState(false, false, None, EmptyQueues(), [], {}, {}, 0, {}, map[], map[], 0, [], [], [])
  }

  // ---------------------------------------------------------------- invariant

  /**
   * Bookkeeping of downloadContacts' continuations: a call's flag is set exactly when its
   * continuation ran, each continuation ran at most once, and only calls already made
   * have flags.
   */
  ghost predicate RunsOk(cycle: nat, finalized: set<nat>, runs: seq<nat>)
  {
    (forall k :: k in finalized <==> k in runs) &&
    (forall i, j :: 0 <= i < j < |runs| ==> runs[i] != runs[j]) &&
    (forall k :: k in finalized ==> 1 <= k <= cycle)
  }

  /** Running the continuation of a call whose flag is unset keeps every continuation at most once. */
  lemma RecordRun(cycle: nat, finalized: set<nat>, runs: seq<nat>)
    requires RunsOk(cycle, finalized, runs) && 1 <= cycle && cycle !in finalized
    ensures RunsOk(cycle, finalized + {cycle}, runs + [cycle])
  {
    var runs' := runs + [cycle];
    assert cycle !in runs;
    forall i, j | 0 <= i < j < |runs'| ensures runs'[i] != runs'[j] {
      if j == |runs| {
        assert runs'[i] == runs[i];
        assert runs[i] in runs;
      }
    }
  }

  /** Connection facts and the ad-hoc list: subscriptions live only while connected, ids distinct. */
  ghost predicate SharedInv(s: WorkerState)
  {
    (s.connected ==> s.hasRelay) &&
    (!s.connected ==> s.liveSubs == map[] && s.subscriptions == []) &&
    NoDuplicates(Ids(s.subscriptions))
  }

  /**
   * A batched category is in flight exactly while its stored timer is armed, and only
   * then can its stored subscription be live.
   */
  ghost predicate BatchInv(s: WorkerState, c: Batched)
  {
    (s.queue.Get(c).active <==> c in s.armed) &&
    (c in s.armed ==> c in s.timerField && s.armed[c].BatchTimer?) &&
    (c in s.liveSubs ==> c in s.armed && c in s.subField)
  }

  /**
   * Contacts are in flight exactly while the timer of the latest downloadContacts call is
   * armed, and then that call's continuation has not run; only then can the contacts
   * subscription be live.
   */
  ghost predicate ContactsInv(s: WorkerState)
  {
    (s.queue.contacts.active <==> Contacts in s.armed) &&
    (Contacts in s.armed ==>
      Contacts in s.timerField && s.armed[Contacts] == ContactsTimer(s.contactsCycle, ContactsTimeoutSeconds) &&
      1 <= s.contactsCycle && s.contactsCycle !in s.finalizedCalled) &&
    (Contacts in s.liveSubs ==> Contacts in s.armed && Contacts in s.subField) &&
    RunsOk(s.contactsCycle, s.finalizedCalled, s.continuationRuns)
  }

  ghost predicate Inv(s: WorkerState)
  {
    SharedInv(s) && ContactsInv(s) &&
    BatchInv(s, Profile) && BatchInv(s, Event) && BatchInv(s, Article) && BatchInv(s, BadgeDefinition)
  }

  /** The invariant with the batched category `c` left out: `c` is being dispatched or resolved. */
  ghost predicate InvBut(s: WorkerState, c: Batched)
  {
    SharedInv(s) && ContactsInv(s) &&
    (c == Profile || BatchInv(s, Profile)) && (c == Event || BatchInv(s, Event)) &&
    (c == Article || BatchInv(s, Article)) && (c == BadgeDefinition || BatchInv(s, BadgeDefinition))
  }

  lemma InitialInv()
    ensures Inv(Initial())
  {
  }

  // ---------------------------------------------------------------- elementary steps

  /** postMessage(m) to the app. */
  function Posted(s: WorkerState, m: Message): WorkerState
  {
    s.(outbox := s.outbox + [m])
  }

  /** `this.*Sub?.close()`: the stored subscription, if its field is set, stops. */
  function SubClosed(s: WorkerState, c: Category): WorkerState
  {
    if c in s.subField then s.(liveSubs := s.liveSubs - {c}) else s
  }

  /** `this.*Sub = this.relay.subscribe(filters, ...)`. */
  function SubOpened(s: WorkerState, c: Category, filters: seq<Filter>): WorkerState
  {
    s.(liveSubs := s.liveSubs[c := filters], subField := s.subField + {c})
  }

  /** `this.*Timer = setTimeout(...)`, its callback having captured `t`. */
  function TimerArmed(s: WorkerState, c: Category, t: TimerInfo): WorkerState
  {
    s.(armed := s.armed[c := t], timerField := s.timerField + {c})
  }

  /** The stored timer no longer fires: cleared by clearTimeout, or it has just fired. */
  function Disarmed(s: WorkerState, c: Category): WorkerState
  {
    s.(armed := s.armed - {c})
  }

  /** `this.queue.queues.*.active = false`. */
  function Idle(s: WorkerState, c: Category): WorkerState
  {
    s.(queue := s.queue.With(c, s.queue.Get(c).(active := false)))
  }

  // ---------------------------------------------------------------- drains and downloads

  /** clear*Sub: close the stored subscription, then forget the sub field (the timer field for articles and badge definitions). */
  function Cleared(s: WorkerState, c: Category): WorkerState
  {
    var s1 := SubClosed(s, c);
    if ClearForgetsTimer(c) then s1.(timerField := s1.timerField - {c}) else s1.(subField := s1.subField - {c})
  }

  /**
   * download*: without a relay, nothing; otherwise clear the stored subscription if set,
   * subscribe with the batch's filters, arm the timeout.
   */
  function Downloaded(s: WorkerState, c: Batched, ids: seq<string>, seconds: nat): WorkerState
  {
    if !s.hasRelay then s
    else
      var s1 := if c in s.subField then Cleared(s, c) else s;
      TimerArmed(SubOpened(s1, c, CategoryFilters(c, ids)), c, BatchTimer(ids, seconds))
  }

  /** processProfiles, processEvents, processArticle, processBadgeDefinition. */
  function BatchProcessed(s: WorkerState, c: Batched): WorkerState
  {
    var d := Drain(s.hasRelay && s.connected, s.queue.Get(c));
    var s1 := s.(queue := s.queue.With(c, d.0));
    if d.1.Some? then Downloaded(s1, c, d.1.value, TimeoutSeconds(d.1.value)) else s1
  }

  /**
   * downloadContacts: without a relay, nothing; otherwise a new call (with its own unset
   * flag) that re-subscribes and arms the timeout.
   */
  function ContactsDownloaded(s: WorkerState, pubkey: string): WorkerState
  {
    if !s.hasRelay then s
    else
      var s0 := s.(contactsCycle := s.contactsCycle + 1);
      var s1 := if Contacts in s0.subField then Cleared(s0, Contacts) else s0;
      TimerArmed(SubOpened(s1, Contacts, ContactsFilters(pubkey)), Contacts, ContactsTimer(s0.contactsCycle, ContactsTimeoutSeconds))
  }

  /** processContacts. */
  function ContactsProcessed(s: WorkerState): WorkerState
  {
    var d := ContactsDrain(s.hasRelay && s.connected, s.queue.contacts);
    var s1 := s.(queue := s.queue.With(Contacts, d.0));
    if d.1.Some? then ContactsDownloaded(s1, d.1.value) else s1
  }

  /** processSubscriptions: on a connected relay, subscribe every queued request in order. */
  function SubscriptionsProcessed(s: WorkerState): WorkerState
  {
    if !s.hasRelay || !s.connected || s.queue.subscriptions == [] then s
    else s.(queue := s.queue.(subscriptions := []), subscriptions := Replay(s.subscriptions, s.queue.subscriptions))
  }

  /** `this.queue.subscriptions.shift()`. */
  function Shifted(s: WorkerState): WorkerState
    requires s.queue.subscriptions != []
  {
    s.(queue := s.queue.(subscriptions := s.queue.subscriptions[1..]))
  }

  /** processSubscriptions after its first i requests: those are subscribed, the others still queued. */
  function Replaying(s: WorkerState, i: nat): WorkerState
    requires i <= |s.queue.subscriptions|
  {
    var reqs := s.queue.subscriptions;
    s.(queue := s.queue.(subscriptions := reqs[i..]), subscriptions := Replay(s.subscriptions, reqs[..i]))
  }

  /** One turn of processSubscriptions' loop: shift the next request and subscribe it. */
  lemma ReplayingStep(s: WorkerState, i: nat)
    requires s.hasRelay && s.connected && i < |s.queue.subscriptions|
    ensures var r := s.queue.subscriptions[i];
      Subscribed(Shifted(Replaying(s, i)), r.filters, r.id) == Replaying(s, i + 1)
  {
    var reqs := s.queue.subscriptions;
    assert reqs[i..][1..] == reqs[i + 1..];
    assert reqs[..i + 1][..i] == reqs[..i];
  }

  /** process: article, badge definition, profile, contacts, event, then the ad-hoc requests. */
  function Processed(s: WorkerState): WorkerState
  {
    var s1 := BatchProcessed(s, Article);
    var s2 := BatchProcessed(s1, BadgeDefinition);
    var s3 := BatchProcessed(s2, Profile);
    var s4 := ContactsProcessed(s3);
    var s5 := BatchProcessed(s4, Event);
    SubscriptionsProcessed(s5)
  }

  /** enque: route the job and start a 500 ms timer; an unsupported type throws and changes nothing. */
  function JobEnqueued(s: WorkerState, job: Job): WorkerState
  {
    match Enqueued(s.queue, job)
    case None => s
    case Some(qs) => s.(queue := qs, pendingProcess := s.pendingProcess + 1)
  }

  /** One of enque's timers fires. */
  function Debounced(s: WorkerState): WorkerState
    requires 0 < s.pendingProcess
  {
    Processed(s.(pendingProcess := s.pendingProcess - 1))
  }

  // ---------------------------------------------------------------- resolution

  /** The oneose callback of a batched download: clear the timer, clear the subscription, go idle, drain again. */
  function EoseResolved(s: WorkerState, c: Batched): WorkerState
  {
    var s1 := if c in s.timerField then Disarmed(s, c) else s;
    BatchProcessed(Idle(Cleared(s1, c), c), c)
  }

  /** The timer callback of a batched download: clear the subscription, go idle, drain again, report the timeout. */
  function TimerResolved(s: WorkerState, c: Batched): WorkerState
    requires c in s.armed && s.armed[c].BatchTimer?
  {
    Posted(BatchProcessed(Idle(Cleared(Disarmed(s, c), c), c), c), TimeoutMsg(TimeoutTag(c), s.armed[c].ids))
  }

  /** The continuation processContacts gave the latest downloadContacts call: flag it, go idle, drain again. */
  function ContactsFinalized(s: WorkerState): WorkerState
  {
    var s1 := s.(finalizedCalled := s.finalizedCalled + {s.contactsCycle},
                 continuationRuns := s.continuationRuns + [s.contactsCycle]);
    ContactsProcessed(Idle(s1, Contacts))
  }

  /** The contacts subscription's onevent: post, clear the subscription and the timer, finalize once. */
  function ContactsEventResolved(s: WorkerState, ev: NostrEvent): WorkerState
  {
    var s1 := Cleared(Posted(s, EventMsg(ev, None)), Contacts);
    var s2 := if Contacts in s1.timerField then Disarmed(s1, Contacts) else s1;
    if s2.contactsCycle !in s2.finalizedCalled then ContactsFinalized(s2) else s2
  }

  /** The contacts timer: clear the subscription, finalize once. */
  function ContactsTimerResolved(s: WorkerState): WorkerState
  {
    var s1 := Cleared(Disarmed(s, Contacts), Contacts);
    if s1.contactsCycle !in s1.finalizedCalled then ContactsFinalized(s1) else s1
  }

  // ---------------------------------------------------------------- connection

  /** The connection ends (relay.close() or the remote end), and every subscription on it. */
  function Dropped(s: WorkerState): WorkerState
  {
    s.(connected := false, liveSubs := map[])
  }

  /** The onclose handler: the ad-hoc list is emptied and status 0 is posted. */
  function CloseHandled(s: WorkerState): WorkerState
  {
    Posted(s.(subscriptions := []), StatusMsg(0))
  }

  /** The relay closes: every subscription dies, then onclose runs. */
  function Closed(s: WorkerState): WorkerState
  {
    CloseHandled(Dropped(s))
  }

  /** `this.relay = relay`: a fresh, connected relay without a NIP-11 document. */
  function Attached(s: WorkerState): WorkerState
  {
    s.(hasRelay := true, connected := true, nip11 := None)
  }

  const ConnectError := "Unable to connect."

  /** connect() without an event: a fresh relay, status 1, then process everything queued. */
  function Connected(s: WorkerState, reachable: bool): WorkerState
  {
    if !reachable then Posted(s, ErrorMsg(ConnectError))
    else Processed(Posted(Attached(s), StatusMsg(1)))
  }

  /**
   * publish(event); sendError is what relay.publish rejected with, if it did. Without a
   * relay the method dies of a TypeError (also inside its catch) and posts nothing.
   */
  function Published(s: WorkerState, ev: NostrEvent, sendError: Option<string>): WorkerState
  {
    if !s.hasRelay || PublishGate(ev.kind, s.nip11) != Send then s
    else
      var s1 := s.(published := s.published + [ev]);
      if sendError.Some? then Posted(s1, FailureMsg(sendError.value)) else s1
  }

  /**
   * connect(event): a fresh relay, status 1, publish, disconnect, 'terminated'; the onclose
   * handler then empties the ad-hoc list and posts status 0.
   */
  function ConnectedAndPublished(s: WorkerState, ev: NostrEvent, reachable: bool, sendError: Option<string>): WorkerState
  {
    if !reachable then Posted(s, ErrorMsg(ConnectError))
    else
      var s2 := Published(Posted(Attached(s), StatusMsg(1)), ev, sendError);
      CloseHandled(Posted(Dropped(s2), TerminatedMsg))
  }

  /** What the HTTP request of `info()` produced. */
  datatype FetchOutcome =
    | Response(status: int, statusText: string, document: Nip11)
    | Failed(error: string)             // an invalid URL, a network error, or a body that is not JSON

  /** What `info()` reports when a document arrives but `this.relay` is undefined (a TypeError). */
  const NoRelayError := "TypeError: this.relay is undefined"

  const Nip11ErrorPrefix := "Unable to get NIP-11 data. Status: "

  /** info(): keep and post the document on status 200, post an error otherwise. */
  function InfoReceived(s: WorkerState, outcome: FetchOutcome): WorkerState
  {
    match outcome
    case Failed(e) => Posted(s, Nip11ErrorMsg(Nip11ErrorPrefix + e))
    case Response(status, text, doc) =>
      if status != 200 then Posted(s, Nip11ErrorMsg(Nip11ErrorPrefix + text))
      else if !s.hasRelay then Posted(s, Nip11ErrorMsg(Nip11ErrorPrefix + NoRelayError))
      else Posted(s.(nip11 := Some(doc)), Nip11Msg(doc))
  }

  // ---------------------------------------------------------------- ad-hoc subscriptions

  /** subscribe(filters, id). */
  function Subscribed(s: WorkerState, filters: seq<Filter>, id: string): WorkerState
  {
    if !s.hasRelay || !s.connected then
      s.(queue := s.queue.(subscriptions := s.queue.subscriptions + [SubRequest(id, filters)]))
    else if id in Ids(s.subscriptions) then s
    else s.(subscriptions := s.subscriptions + [AdHocSub(id, filters)])
  }

  /** unsubscribe(id). */
  function Unsubscribed(s: WorkerState, id: string): WorkerState
  {
    var i := FindIndex(s.subscriptions, id);
    if i == -1 then s else s.(subscriptions := RemoveAt(s.subscriptions, i))
  }
}
