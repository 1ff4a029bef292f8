/**
 * RelayWorker: the per-relay scheduler that runs in a web worker. It keeps one job queue
 * per category, dispatches at most one download per category at a time, resolves each
 * download by the relay's end of stored events (EOSE, NIP-01) or by a timer, keeps the
 * app's ad-hoc subscriptions keyed by id, and publishes events subject to the relay's
 * NIP-11 document.
 *
 * The relay library's state (which subscriptions are live, which timers are armed) and
 * what is posted to the app or handed to the relay are ghost fields. The library's
 * callbacks are methods whose preconditions say that the subscription or timer that
 * fires is live. Every method is specified by the step function of module Steps that it
 * implements; the public operations and the callbacks also keep Valid, by the lemmas of
 * module Invariant.
 */
module Worker {
  import opened Nostr
  import opened Dedup
  import opened Nip
  import opened Queues
  import opened Transport
  import opened AdHoc
  import opened BadgeIds
  import opened Steps
  import opened Invariant

  class RelayWorker {
    const url: string
    var hasRelay: bool                      // `this.relay` has been assigned
    var connected: bool                     // `this.relay.connected`
    var nip11: Option<Nip11>                // `this.relay.nip11`
    var queue: QueueSet
    var subscriptions: seq<AdHocSub>
    var subField: set<Category>             // which of profileSub, contactsSub, eventSub, articleSub, badgeDefinitionSub are set
    var timerField: set<Category>           // which of profileTimer, contactsTimer, eventTimer, articleTimer, badgeDefinitionTimer are set
    var contactsCycle: nat                  // downloadContacts calls so far; call k owns flag k
    var finalizedCalled: set<nat>           // the calls whose `finalizedCalled` flag is set

    ghost var liveSubs: map<Category, seq<Filter>>
    ghost var armed: map<Category, TimerInfo>
    ghost var pendingProcess: nat
    ghost var outbox: seq<Message>
    ghost var published: seq<NostrEvent>
    ghost var continuationRuns: seq<nat>

    /** The worker as a value. */
    ghost function State(): WorkerState
      reads this
    {
      WorkerState(hasRelay, connected, nip11, queue, subscriptions, subField, timerField, contactsCycle,
        finalizedCalled, liveSubs, armed, pendingProcess, outbox, published, continuationRuns)
    }

    ghost predicate Valid()
      reads this
    {
      Inv(State())
    }

    constructor(url: string)
      ensures this.url == url
      ensures State() == Initial() && Valid()
    {
      this.url := url;
      hasRelay := false;
      connected := false;
      nip11 := None;
      queue := EmptyQueues();
      subscriptions := [];
      subField := {};
      timerField := {};
      contactsCycle := 0;
      finalizedCalled := {};
      liveSubs := map[];
      armed := map[];
      pendingProcess := 0;
      outbox := [];
      published := [];
      continuationRuns := [];
      InitialInv();
    }

    // ------------------------------------------------------------ elementary steps

    /** postMessage(m). */
    ghost method Post(m: Message)
      modifies this
      ensures State() == Posted(old(State()), m)
    {
      outbox := outbox + [m];
    }

    /** `this.*Sub?.close()`. */
    method CloseSub(c: Category)
      modifies this
      ensures State() == SubClosed(old(State()), c)
    {
      if c in subField {
        liveSubs := liveSubs - {c};
      }
    }

    /** `this.*Sub = this.relay.subscribe(filters, ...)`. */
    method OpenSub(c: Category, filters: seq<Filter>)
      modifies this
      ensures State() == SubOpened(old(State()), c, filters)
    {
      liveSubs := liveSubs[c := filters];
      subField := subField + {c};
    }

    /** `this.*Timer = setTimeout(...)`. */
    method ArmTimer(c: Category, t: TimerInfo)
      modifies this
      ensures State() == TimerArmed(old(State()), c, t)
    {
      armed := armed[c := t];
      timerField := timerField + {c};
    }

    /** clearTimeout on the stored timer, or that timer has fired. */
    ghost method Disarm(c: Category)
      modifies this
      ensures State() == Disarmed(old(State()), c)
    {
      armed := armed - {c};
    }

    /** `this.queue.queues.*.active = false`. */
    method MarkIdle(c: Category)
      modifies this
      ensures State() == Idle(old(State()), c)
    {
      queue := queue.With(c, queue.Get(c).(active := false));
    }

    // ------------------------------------------------------------ downloads

    /** clearProfileSub, clearContactsSub, clearEventSub, clearArticleSub, clearBadgeDefinitionSub. */
    method ClearSub(c: Category)
      modifies this
      ensures State() == Cleared(old(State()), c)
    {
      CloseSub(c);
      if ClearForgetsTimer(c) {
        timerField := timerField - {c};
      } else {
        subField := subField - {c};
      }
    }

    /** downloadProfile, downloadEvent, downloadArticle, downloadBadgeDefinition. */
    method DownloadBatch(c: Batched, ids: seq<string>, seconds: nat)
      modifies this
      ensures State() == Downloaded(old(State()), c, ids, seconds)
    {
      if !hasRelay {
        return;
      }
      if c in subField {
        ClearSub(c);
      }
      var filters;
      if c == BadgeDefinition {
        filters := BuildBadgeFilters(ids);
      } else {
        filters := CategoryFilters(c, ids);
      }
      OpenSub(c, filters);
      ArmTimer(c, BatchTimer(ids, seconds));
    }

    /** processProfiles, processEvents, processArticle, processBadgeDefinition. */
    method ProcessBatch(c: Batched)
      modifies this
      ensures State() == BatchProcessed(old(State()), c)
    {
      var q := queue.Get(c);
      if !hasRelay || !connected || q.active {
        return;
      }
      if q.jobs == [] {
        queue := queue.With(c, q.(active := false));
        return;
      }
      var k := if |q.jobs| < MaxBatch then |q.jobs| else MaxBatch;
      queue := queue.With(c, CategoryQueue(q.jobs[k..], true));
      var ids := Unique(Identifiers(q.jobs[..k]));
      DownloadBatch(c, ids, |ids| * 3);
    }

    /** downloadContacts(pubkey, finalized), with the continuation processContacts gives it. */
    method DownloadContacts(pubkey: string)
      modifies this
      ensures State() == ContactsDownloaded(old(State()), pubkey)
    {
      if !hasRelay {
        return;
      }
      contactsCycle := contactsCycle + 1;     // this call's own `finalizedCalled`, unset
      if Contacts in subField {
        ClearSub(Contacts);
      }
      OpenSub(Contacts, ContactsFilters(pubkey));
      ArmTimer(Contacts, ContactsTimer(contactsCycle, ContactsTimeoutSeconds));
    }

    /** processContacts: one job at a time. */
    method ProcessContacts()
      modifies this
      ensures State() == ContactsProcessed(old(State()))
    {
      var q := queue.contacts;
      if !hasRelay || !connected || q.active {
        return;
      }
      if q.jobs == [] {
        queue := queue.With(Contacts, q.(active := false));
        return;
      }
      queue := queue.With(Contacts, CategoryQueue(q.jobs[1..], true));
      DownloadContacts(q.jobs[0].identifier);
    }

    /** The `finalized` continuation of the latest downloadContacts call, run once through its flag. */
    method FinalizeContacts()
      modifies this
      ensures State() == ContactsFinalized(old(State()))
    {
      finalizedCalled := finalizedCalled + {contactsCycle};
      continuationRuns := continuationRuns + [contactsCycle];
      MarkIdle(Contacts);
      ProcessContacts();
    }

    /** processSubscriptions: shift every queued request and subscribe it. */
    method ProcessSubscriptions()
      modifies this
      ensures State() == SubscriptionsProcessed(old(State()))
    {
      if !hasRelay || !connected || queue.subscriptions == [] {
        return;
      }
      ghost var s0 := State();
      ghost var i := 0;
      while queue.subscriptions != []
        invariant i <= |s0.queue.subscriptions|
        invariant State() == Replaying(s0, i)
        decreases |queue.subscriptions|
      {
        var job := queue.subscriptions[0];
        ShiftRequest();
        ReplayingStep(s0, i);
        Subscribe(job.filters, job.id);
        i := i + 1;
      }
      assert s0.queue.subscriptions[..i] == s0.queue.subscriptions;
    }

    /** `this.queue.subscriptions.shift()`. */
    method ShiftRequest()
      requires queue.subscriptions != []
      modifies this
      ensures State() == Shifted(old(State()))
    {
      queue := queue.(subscriptions := queue.subscriptions[1..]);
    }

    /** process. */
    method Process()
      modifies this
      ensures State() == Processed(old(State()))
    {
      ProcessBatch(Article);
      ProcessBatch(BadgeDefinition);
      ProcessBatch(Profile);
      ProcessContacts();
      ProcessBatch(Event);
      ProcessSubscriptions();
    }

    // ------------------------------------------------------------ connection

    /** `this.relay = relay` once Relay.connect resolved. */
    method Attach()
      modifies this
      ensures State() == Attached(old(State()))
    {
      hasRelay := true;
      connected := true;
      nip11 := None;
    }

    /** relay.close(), or the remote end closing: the connection and its subscriptions end. */
    method Drop()
      modifies this
      ensures State() == Dropped(old(State()))
    {
      connected := false;
      liveSubs := map[];
    }

    /** The onclose handler. */
    method HandleClose()
      modifies this
      ensures State() == CloseHandled(old(State()))
    {
      subscriptions := [];
      Post(StatusMsg(0));
    }

    // ------------------------------------------------------------ public operations

    /** enque's queue update, and its `setTimeout(() => this.process(), 500)`. */
    method Accept(qs: QueueSet)
      modifies this
      ensures State() == old(State()).(queue := qs, pendingProcess := old(pendingProcess) + 1)
    {
      queue := qs;
      pendingProcess := pendingProcess + 1;
    }

    /** enque(job): false where the source throws for an unsupported type. */
    method Enque(job: Job) returns (accepted: bool)
      requires Valid()
      modifies this
      ensures Valid()
      ensures accepted <==> exists c: Category :: Name(c) == job.jobType
      ensures State() == JobEnqueued(old(State()), job)
    {
      JobEnqueuedInv(State(), job);
      var r := Enqueued(queue, job);
      if r.None? {
        return false;
      }
      Accept(r.value);
      accepted := true;
    }

    /** One of enque's 500 ms timers fires. */
    method OnDebounce()
      requires Valid() && 0 < pendingProcess
      modifies this
      ensures Valid()
      ensures State() == Debounced(old(State()))
    {
      ghost var s0 := State();
      DebouncedInv(s0);
      pendingProcess := pendingProcess - 1;
      Process();
    }

    /** connect() without an event; `reachable` is whether Relay.connect resolved. */
    method Connect(reachable: bool)
      requires Valid() && (reachable ==> !connected)
      modifies this
      ensures Valid()
      ensures State() == Connected(old(State()), reachable)
    {
      ConnectedInv(State(), reachable);
      if !reachable {
        Post(ErrorMsg(ConnectError));
        return;
      }
      Attach();
      Post(StatusMsg(1));
      Process();
    }

    /** publish(event); `sendError` is what relay.publish rejected with, if it did. */
    method Publish(ev: NostrEvent, sendError: Option<string>)
      modifies this
      ensures old(Valid()) ==> Valid()
      ensures State() == Published(old(State()), ev, sendError)
    {
      ghost var s0 := State();
      if Inv(s0) {
        PublishedInv(s0, ev, sendError);
      }
      if !hasRelay {
        return;                               // a TypeError on `this.relay`, also in the catch
      }
      var gate := PublishGate(ev.kind, nip11);
      if gate != Send {
        return;
      }
      published := published + [ev];
      if sendError.Some? {
        Post(FailureMsg(sendError.value));
      }
    }

    /** connect(event): publish on a fresh relay, then disconnect and report 'terminated'. */
    method ConnectAndPublish(ev: NostrEvent, reachable: bool, sendError: Option<string>)
      requires Valid() && (reachable ==> !connected)
      modifies this
      ensures Valid()
      ensures State() == ConnectedAndPublished(old(State()), ev, reachable, sendError)
    {
      ConnectedAndPublishedInv(State(), ev, reachable, sendError);
      if !reachable {
        Post(ErrorMsg(ConnectError));
        return;
      }
      Attach();
      Post(StatusMsg(1));
      Publish(ev, sendError);
      Drop();                                 // disconnect(): relay.close()
      Post(TerminatedMsg);
      HandleClose();
    }

    /** disconnect(): false where `this.relay` is undefined and the source throws. */
    method Disconnect() returns (ok: bool)
      requires Valid()
      modifies this
      ensures Valid()
      ensures ok == old(hasRelay)
      ensures State() == if old(hasRelay && connected) then Closed(old(State())) else old(State())
    {
      if !hasRelay {
        return false;
      }
      ok := true;
      if connected {
        OnClose();
      }
    }

    /** info(): the outcome of the HTTP request for the relay's NIP-11 document. */
    method Info(outcome: FetchOutcome)
      requires Valid()
      modifies this
      ensures Valid()
      ensures State() == InfoReceived(old(State()), outcome)
    {
      InfoReceivedInv(State(), outcome);
      match outcome
      case Failed(e) =>
        Post(Nip11ErrorMsg(Nip11ErrorPrefix + e));
      case Response(status, text, doc) =>
        if status != 200 {
          Post(Nip11ErrorMsg(Nip11ErrorPrefix + text));
        } else if !hasRelay {
          Post(Nip11ErrorMsg(Nip11ErrorPrefix + NoRelayError));
        } else {
          nip11 := Some(doc);
          Post(Nip11Msg(doc));
        }
    }

    /** subscribe(filters, id): queued while not connected, ignored when the id is listed. */
    method Subscribe(filters: seq<Filter>, id: string)
      modifies this
      ensures old(Valid()) ==> Valid()
      ensures State() == Subscribed(old(State()), filters, id)
    {
      ghost var s0 := State();
      if Inv(s0) {
        SubscribedInv(s0, filters, id);
      }
      if !hasRelay || !connected {
        queue := queue.(subscriptions := queue.subscriptions + [SubRequest(id, filters)]);
        return;
      }
      if FindIndex(subscriptions, id) > -1 {
        return;
      }
      subscriptions := subscriptions + [AdHocSub(id, filters)];
    }

    /** unsubscribe(id): remove the listed entry, if any, and close its subscription. */
    method Unsubscribe(id: string)
      requires Valid()
      modifies this
      ensures Valid()
      ensures State() == Unsubscribed(old(State()), id)
    {
      UnsubscribedInv(State(), id);
      var index := FindIndex(subscriptions, id);
      if index == -1 {
        return;
      }
      subscriptions := RemoveAt(subscriptions, index);
    }

    // ------------------------------------------------------------ callbacks

    /** The onevent callback of a live batch subscription: the event goes to the app. */
    method OnBatchEvent(c: Batched, ev: NostrEvent)
      requires Valid() && c in liveSubs
      modifies this
      ensures Valid()
      ensures State() == Posted(old(State()), EventMsg(ev, None))
    {
      PostedInv(State(), EventMsg(ev, None));
      Post(EventMsg(ev, None));
    }

    /** The onevent callback of a listed ad-hoc subscription: the event goes to the app with its id. */
    method OnAdHocEvent(id: string, ev: NostrEvent)
      requires Valid() && connected && id in Ids(subscriptions)
      modifies this
      ensures Valid()
      ensures State() == Posted(old(State()), EventMsg(ev, Some(id)))
    {
      PostedInv(State(), EventMsg(ev, Some(id)));
      Post(EventMsg(ev, Some(id)));
    }

    /** The oneose callback of a live batch subscription. */
    method OnEose(c: Batched)
      requires Valid() && c in liveSubs
      modifies this
      ensures Valid()
      ensures State() == EoseResolved(old(State()), c)
    {
      EoseResolvedInv(State(), c);
      if c in timerField {
        Disarm(c);                            // clearTimeout(timer)
      }
      ClearSub(c);
      MarkIdle(c);
      ProcessBatch(c);
    }

    /** The timeout of an armed batch download. */
    method OnBatchTimer(c: Batched)
      requires Valid() && c in armed
      modifies this
      ensures Valid()
      ensures State() == TimerResolved(old(State()), c)
    {
      ghost var s0 := State();
      assert BatchInv(s0, c);
      TimerResolvedInv(s0, c);
      ghost var ids := armed[c].ids;
      Disarm(c);                              // the timer has fired
      ClearSub(c);
      MarkIdle(c);
      ProcessBatch(c);
      Post(TimeoutMsg(TimeoutTag(c), ids));
    }

    /** The onevent callback of the live contacts subscription. */
    method OnContactsEvent(ev: NostrEvent)
      requires Valid() && Contacts in liveSubs
      modifies this
      ensures Valid()
      ensures State() == ContactsEventResolved(old(State()), ev)
    {
      ContactsEventResolvedInv(State(), ev);
      Post(EventMsg(ev, None));
      ClearSub(Contacts);
      if Contacts in timerField {
        Disarm(Contacts);                     // clearTimeout(this.contactsTimer)
      }
      if contactsCycle !in finalizedCalled {
        FinalizeContacts();
      }
    }

    /** The timeout of the armed contacts download. */
    method OnContactsTimer()
      requires Valid() && Contacts in armed
      modifies this
      ensures Valid()
      ensures State() == ContactsTimerResolved(old(State()))
    {
      ContactsTimerResolvedInv(State());
      Disarm(Contacts);                       // the timer has fired
      ClearSub(Contacts);
      if contactsCycle !in finalizedCalled {
        FinalizeContacts();
      }
    }

    /** The relay's live connection ends: its subscriptions die, then the onclose handler runs. */
    method OnClose()
      requires Valid() && hasRelay && connected
      modifies this
      ensures Valid()
      ensures State() == Closed(old(State()))
    {
      ClosedInv(State());
      Drop();
      HandleClose();
    }

    /** The onnotice handler. */
    method OnNotice(text: string)
      requires Valid() && hasRelay
      modifies this
      ensures Valid()
      ensures State() == Posted(old(State()), NoticeMsg(text))
    {
      PostedInv(State(), NoticeMsg(text));
      Post(NoticeMsg(text));
    }
  }
}
