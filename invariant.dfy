/**
 * Every operation of the worker, and every callback the relay library or a timer can
 * make while its subscription is live or its timer is armed, keeps the invariant Inv.
 */
module Invariant {
  import opened Nostr
  import opened Dedup
  import opened Queues
  import opened Transport
  import opened AdHoc
  import opened Steps

  /** The invariant does not look at the relay's document, enque's timers, or what was posted or published. */
  lemma InvFrame(s: WorkerState, t: WorkerState)
    requires Inv(s)
    requires t.hasRelay == s.hasRelay && t.connected == s.connected && t.queue == s.queue
    requires t.subscriptions == s.subscriptions && t.subField == s.subField && t.timerField == s.timerField
    requires t.contactsCycle == s.contactsCycle && t.finalizedCalled == s.finalizedCalled
    requires t.liveSubs == s.liveSubs && t.armed == s.armed && t.continuationRuns == s.continuationRuns
    ensures Inv(t)
  {
  }

  /** A download of an active category that has nothing armed or live restores the invariant. */
  lemma DownloadedInv(s: WorkerState, c: Batched, ids: seq<string>, seconds: nat)
    requires InvBut(s, c) && s.connected
    requires s.queue.Get(c).active && c !in s.armed && c !in s.liveSubs
    ensures Inv(Downloaded(s, c, ids, seconds))
  {
    var s1 := if c in s.subField then Cleared(s, c) else s;
    assert InvBut(s1, c) && s1.queue == s.queue && s1.connected;
    assert c !in s1.armed && c !in s1.liveSubs;
  }

  /** A batched drain keeps the invariant: it dispatches only for an idle category, which has nothing armed or live. */
  lemma BatchProcessedInv(s: WorkerState, c: Batched)
    requires Inv(s)
    ensures Inv(BatchProcessed(s, c))
  {
    var d := Drain(s.hasRelay && s.connected, s.queue.Get(c));
    var s1 := s.(queue := s.queue.With(c, d.0));
    if d.1.Some? {
      assert InvBut(s1, c);
      DownloadedInv(s1, c, d.1.value, TimeoutSeconds(d.1.value));
    } else {
      assert s1 == s;
    }
  }

  /** A contacts drain keeps the invariant; a new call's flag is unset. */
  lemma ContactsProcessedInv(s: WorkerState)
    requires Inv(s)
    ensures Inv(ContactsProcessed(s))
  {
    var d := ContactsDrain(s.hasRelay && s.connected, s.queue.contacts);
    var s1 := s.(queue := s.queue.With(Contacts, d.0));
    if d.1.Some? {
      assert s1.queue.Get(Contacts) == d.0;
      ContactsDownloadedInv(s1, d.1.value);
    } else {
      assert s1 == s;
    }
  }

  /** A contacts download of an active category that has nothing armed or live restores the invariant. */
  lemma ContactsDownloadedInv(s: WorkerState, pubkey: string)
    requires SharedInv(s) && BatchInv(s, Profile) && BatchInv(s, Event) && BatchInv(s, Article) && BatchInv(s, BadgeDefinition)
    requires s.connected && s.queue.contacts.active && Contacts !in s.armed && Contacts !in s.liveSubs
    requires RunsOk(s.contactsCycle, s.finalizedCalled, s.continuationRuns)
    ensures Inv(ContactsDownloaded(s, pubkey))
  {
    ContactsDownloadedShape(s, pubkey);
    AcquireFrame(s, ContactsDownloaded(s, pubkey));
  }

  /** What downloadContacts changes on a connected relay: the contacts entries, and a new call. */
  lemma ContactsDownloadedShape(s: WorkerState, pubkey: string)
    requires s.hasRelay
    ensures var t := ContactsDownloaded(s, pubkey);
      t.hasRelay == s.hasRelay && t.connected == s.connected && t.subscriptions == s.subscriptions &&
      t.queue == s.queue && t.finalizedCalled == s.finalizedCalled && t.continuationRuns == s.continuationRuns &&
      t.contactsCycle == s.contactsCycle + 1 &&
      t.armed == s.armed[Contacts := ContactsTimer(t.contactsCycle, ContactsTimeoutSeconds)] &&
      t.liveSubs.Keys <= s.liveSubs.Keys + {Contacts} && Contacts in t.subField && Contacts in t.timerField &&
      s.subField - {Contacts} <= t.subField && s.timerField - {Contacts} <= t.timerField
  {
  }

  /**
   * A state that differs from one whose batched categories keep the invariant only in
   * that contacts were dispatched under a new call keeps the invariant.
   */
  lemma AcquireFrame(s: WorkerState, t: WorkerState)
    requires SharedInv(s) && BatchInv(s, Profile) && BatchInv(s, Event) && BatchInv(s, Article) && BatchInv(s, BadgeDefinition)
    requires RunsOk(s.contactsCycle, s.finalizedCalled, s.continuationRuns)
    requires s.connected && s.queue.contacts.active
    requires t.hasRelay == s.hasRelay && t.connected == s.connected && t.subscriptions == s.subscriptions
    requires t.queue == s.queue && t.finalizedCalled == s.finalizedCalled && t.continuationRuns == s.continuationRuns
    requires t.contactsCycle == s.contactsCycle + 1
    requires t.armed == s.armed[Contacts := ContactsTimer(t.contactsCycle, ContactsTimeoutSeconds)]
    requires t.liveSubs.Keys <= s.liveSubs.Keys + {Contacts} && Contacts in t.subField && Contacts in t.timerField
    requires s.subField - {Contacts} <= t.subField && s.timerField - {Contacts} <= t.timerField
    ensures Inv(t)
  {
    assert t.contactsCycle !in t.finalizedCalled;
    assert ContactsInv(t);
    forall d: Batched ensures BatchInv(t, d) {
      assert BatchInv(s, d);
    }
  }

  /** Replaying the queued requests keeps the ad-hoc ids distinct. */
  lemma SubscriptionsProcessedInv(s: WorkerState)
    requires Inv(s)
    ensures Inv(SubscriptionsProcessed(s))
  {
    if s.hasRelay && s.connected && s.queue.subscriptions != [] {
      ReplayIsUnique(s.subscriptions, s.queue.subscriptions);
      UniqueCharacterised(Ids(s.subscriptions) + RequestIds(s.queue.subscriptions));
    }
  }

  lemma ProcessedInv(s: WorkerState)
    requires Inv(s)
    ensures Inv(Processed(s))
  {
    var s1 := BatchProcessed(s, Article);
    BatchProcessedInv(s, Article);
    var s2 := BatchProcessed(s1, BadgeDefinition);
    BatchProcessedInv(s1, BadgeDefinition);
    var s3 := BatchProcessed(s2, Profile);
    BatchProcessedInv(s2, Profile);
    var s4 := ContactsProcessed(s3);
    ContactsProcessedInv(s3);
    var s5 := BatchProcessed(s4, Event);
    BatchProcessedInv(s4, Event);
    SubscriptionsProcessedInv(s5);
  }

  /** Enqueuing changes no in-flight flag. */
  lemma JobEnqueuedInv(s: WorkerState, job: Job)
    requires Inv(s)
    ensures Inv(JobEnqueued(s, job))
  {
  }

  lemma DebouncedInv(s: WorkerState)
    requires Inv(s) && 0 < s.pendingProcess
    ensures Inv(Debounced(s))
  {
    ProcessedInv(s.(pendingProcess := s.pendingProcess - 1));
  }

  /**
   * A state that differs from an invariant-keeping one only in that the batched category
   * `c` was released (idle, disarmed, its subscription gone, fields possibly forgotten)
   * keeps the invariant.
   */
  lemma ReleaseFrame(s: WorkerState, t: WorkerState, c: Batched)
    requires Inv(s)
    requires t.hasRelay == s.hasRelay && t.connected == s.connected && t.subscriptions == s.subscriptions
    requires t.contactsCycle == s.contactsCycle && t.finalizedCalled == s.finalizedCalled
    requires t.continuationRuns == s.continuationRuns
    requires t.queue.contacts == s.queue.contacts
    requires forall d: Category :: d != c ==> t.queue.Get(d) == s.queue.Get(d)
    requires !t.queue.Get(c).active
    requires t.armed == s.armed - {c}
    requires t.liveSubs.Keys <= s.liveSubs.Keys - {c}
    requires s.subField - {c} <= t.subField && s.timerField - {c} <= t.timerField
    ensures Inv(t)
  {
    assert SharedInv(t);
    assert c != Contacts;
    assert ContactsInv(t);
    forall d: Batched ensures BatchInv(t, d) {
      if d != c {
        assert BatchInv(s, d);
      }
    }
  }

  /** Disarming a batched category's timer, clearing its subscription and marking it idle touch only that category. */
  lemma ReleasedShape(s: WorkerState, c: Batched)
    ensures var t := Idle(Cleared(Disarmed(s, c), c), c);
      t.hasRelay == s.hasRelay && t.connected == s.connected && t.subscriptions == s.subscriptions &&
      t.contactsCycle == s.contactsCycle && t.finalizedCalled == s.finalizedCalled &&
      t.continuationRuns == s.continuationRuns && t.queue.contacts == s.queue.contacts &&
      (forall d: Category :: d != c ==> t.queue.Get(d) == s.queue.Get(d)) &&
      !t.queue.Get(c).active && t.armed == s.armed - {c} &&
      t.liveSubs.Keys <= s.liveSubs.Keys && (c in s.subField ==> c !in t.liveSubs) &&
      s.subField - {c} <= t.subField && s.timerField - {c} <= t.timerField
  {
    var s1 := Cleared(Disarmed(s, c), c);
    assert s1.queue == s.queue;
    assert Idle(s1, c).queue.contacts == Idle(s1, c).queue.Get(Contacts);
  }

  /** Disarming a batched category's timer, clearing its subscription and marking it idle leave nothing of it in flight. */
  lemma ReleasedInv(s: WorkerState, c: Batched)
    requires Inv(s)
    ensures Inv(Idle(Cleared(Disarmed(s, c), c), c))
  {
    ReleasedShape(s, c);
    assert c in s.liveSubs ==> c in s.subField;
    ReleaseFrame(s, Idle(Cleared(Disarmed(s, c), c), c), c);
  }

  /** The end of stored events of a live batch subscription: its timer and its subscription go, the category is idle. */
  lemma EoseResolvedInv(s: WorkerState, c: Batched)
    requires Inv(s) && c in s.liveSubs
    ensures Inv(EoseResolved(s, c))
  {
    assert BatchInv(s, c);
    assert c in s.timerField;
    ReleasedInv(s, c);
    BatchProcessedInv(Idle(Cleared(Disarmed(s, c), c), c), c);
  }

  /** The armed timer of a batched category fires: its subscription goes, the category is idle. */
  lemma TimerResolvedInv(s: WorkerState, c: Batched)
    requires Inv(s) && c in s.armed
    ensures Inv(TimerResolved(s, c))
  {
    var s2 := Idle(Cleared(Disarmed(s, c), c), c);
    ReleasedInv(s, c);
    BatchProcessedInv(s2, c);
    PostedInv(BatchProcessed(s2, c), TimeoutMsg(TimeoutTag(c), s.armed[c].ids));
  }

  /**
   * The continuation of the latest contacts call, once neither its subscription nor its
   * timer is left and its flag is still unset, keeps the invariant.
   */
  lemma ContactsFinalizedInv(s: WorkerState)
    requires SharedInv(s) && BatchInv(s, Profile) && BatchInv(s, Event) && BatchInv(s, Article) && BatchInv(s, BadgeDefinition)
    requires Contacts !in s.armed && Contacts !in s.liveSubs
    requires RunsOk(s.contactsCycle, s.finalizedCalled, s.continuationRuns)
    requires 1 <= s.contactsCycle && s.contactsCycle !in s.finalizedCalled
    ensures Inv(ContactsFinalized(s))
  {
    RecordRun(s.contactsCycle, s.finalizedCalled, s.continuationRuns);
    var s1 := s.(finalizedCalled := s.finalizedCalled + {s.contactsCycle},
                 continuationRuns := s.continuationRuns + [s.contactsCycle]);
    assert Inv(Idle(s1, Contacts));
    ContactsProcessedInv(Idle(s1, Contacts));
  }

  lemma ContactsEventResolvedInv(s: WorkerState, ev: NostrEvent)
    requires Inv(s) && Contacts in s.liveSubs
    ensures Inv(ContactsEventResolved(s, ev))
  {
    var s1 := Cleared(Posted(s, EventMsg(ev, None)), Contacts);
    var s2 := if Contacts in s1.timerField then Disarmed(s1, Contacts) else s1;
    assert s2.contactsCycle !in s2.finalizedCalled;
    ContactsFinalizedInv(s2);
  }

  lemma ContactsTimerResolvedInv(s: WorkerState)
    requires Inv(s) && Contacts in s.armed
    ensures Inv(ContactsTimerResolved(s))
  {
    var s1 := Cleared(Disarmed(s, Contacts), Contacts);
    assert s1.contactsCycle !in s1.finalizedCalled;
    ContactsFinalizedInv(s1);
  }

  lemma ClosedInv(s: WorkerState)
    requires Inv(s)
    ensures Inv(Closed(s))
  {
  }

  /** Connecting replaces a relay that is not connected. */
  lemma ConnectedInv(s: WorkerState, reachable: bool)
    requires Inv(s) && (reachable ==> !s.connected)
    ensures Inv(Connected(s, reachable))
  {
    if reachable {
      ProcessedInv(Posted(Attached(s), StatusMsg(1)));
    }
  }

  lemma ConnectedAndPublishedInv(s: WorkerState, ev: NostrEvent, reachable: bool, sendError: Option<string>)
    requires Inv(s) && (reachable ==> !s.connected)
    ensures Inv(ConnectedAndPublished(s, ev, reachable, sendError))
  {
  }

  lemma PublishedInv(s: WorkerState, ev: NostrEvent, sendError: Option<string>)
    requires Inv(s)
    ensures Inv(Published(s, ev, sendError))
  {
    InvFrame(s, Published(s, ev, sendError));
  }

  lemma InfoReceivedInv(s: WorkerState, outcome: FetchOutcome)
    requires Inv(s)
    ensures Inv(InfoReceived(s, outcome))
  {
    InvFrame(s, InfoReceived(s, outcome));
  }

  /** Posting a message changes nothing the invariant speaks of. */
  lemma PostedInv(s: WorkerState, m: Message)
    requires Inv(s)
    ensures Inv(Posted(s, m))
  {
    InvFrame(s, Posted(s, m));
  }

  /** subscribe keeps the ad-hoc ids distinct. */
  lemma SubscribedInv(s: WorkerState, filters: seq<Filter>, id: string)
    requires Inv(s)
    ensures Inv(Subscribed(s, filters, id))
  {
    if s.hasRelay && s.connected && id !in Ids(s.subscriptions) {
      assert AddSub(s.subscriptions, id, filters) == s.subscriptions + [AdHocSub(id, filters)];
    }
  }

  /** unsubscribe keeps the ad-hoc ids distinct. */
  lemma UnsubscribedInv(s: WorkerState, id: string)
    requires Inv(s)
    ensures Inv(Unsubscribed(s, id))
  {
    if id in Ids(s.subscriptions) {
      RemoveOnlyThat(s.subscriptions, id);
    }
  }
}
