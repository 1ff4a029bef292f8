/**
 * What the worker's operations and callbacks promise, stated on the step functions of
 * module Steps: the class RelayWorker implements each step exactly, so every fact here
 * holds of the worker after the corresponding method.
 */
module Properties {
  import opened Nostr
  import opened Dedup
  import opened Nip
  import opened Queues
  import opened Transport
  import opened AdHoc
  import opened Steps
  import opened Invariant

  // ---------------------------------------------------------------- drains

  /** A batched drain touches only its own category: it posts and publishes nothing and leaves the connection alone. */
  lemma BatchProcessedFrame(s: WorkerState, c: Batched)
    ensures var t := BatchProcessed(s, c);
      t.hasRelay == s.hasRelay && t.connected == s.connected && t.nip11 == s.nip11 &&
      t.subscriptions == s.subscriptions && t.queue.subscriptions == s.queue.subscriptions &&
      (forall d: Category :: d != c ==> t.queue.Get(d) == s.queue.Get(d)) &&
      (forall d: Category :: d != c ==> (d in t.armed <==> d in s.armed) && (d in t.liveSubs <==> d in s.liveSubs)) &&
      t.contactsCycle == s.contactsCycle && t.finalizedCalled == s.finalizedCalled &&
      t.continuationRuns == s.continuationRuns && t.pendingProcess == s.pendingProcess &&
      t.outbox == s.outbox && t.published == s.published
  {
    var d := Drain(s.hasRelay && s.connected, s.queue.Get(c));
    var s1 := s.(queue := s.queue.With(c, d.0));
    if d.1.Some? {
      DownloadedShape(s1, c, d.1.value, TimeoutSeconds(d.1.value));
    }
  }

  /** The contacts drain touches only the contacts queue and entries, and the call counter. */
  lemma ContactsProcessedFrame(s: WorkerState)
    ensures var t := ContactsProcessed(s);
      t.hasRelay == s.hasRelay && t.connected == s.connected && t.nip11 == s.nip11 &&
      t.subscriptions == s.subscriptions && t.queue.subscriptions == s.queue.subscriptions &&
      (forall d: Category :: d != Contacts ==> t.queue.Get(d) == s.queue.Get(d)) &&
      t.finalizedCalled == s.finalizedCalled &&
      t.continuationRuns == s.continuationRuns && t.pendingProcess == s.pendingProcess &&
      t.outbox == s.outbox && t.published == s.published
  {
    var d := ContactsDrain(s.hasRelay && s.connected, s.queue.contacts);
    var s1 := s.(queue := s.queue.With(Contacts, d.0));
    assert s1.queue.contacts == s1.queue.Get(Contacts);
  }

  /**
   * A batched drain does nothing when there is no relay, it is not connected, the category
   * is in flight, or its queue is empty (then `active` stays false).
   */
  lemma BatchDrainGuard(s: WorkerState, c: Batched)
    ensures !s.hasRelay || !s.connected || s.queue.Get(c).active || s.queue.Get(c).jobs == [] ==>
      BatchProcessed(s, c) == s
  {
  }

  /**
   * A batched drain on a connected relay, of an idle category with queued jobs, takes the
   * first min(500, n) jobs and leaves the rest in order, marks the category in flight,
   * subscribes with the batch's identifiers deduplicated in first-seen order (what that
   * list holds is Queues.DrainDispatches), and arms a timer of three seconds per
   * identifier that holds those identifiers.
   */
  lemma BatchDispatch(s: WorkerState, c: Batched)
    requires s.hasRelay && s.connected && !s.queue.Get(c).active && s.queue.Get(c).jobs != []
    ensures var jobs := s.queue.Get(c).jobs;
      var k := BatchSize(|jobs|);
      var ids := Unique(Identifiers(jobs[..k]));
      var t := BatchProcessed(s, c);
      t.queue.Get(c) == CategoryQueue(jobs[k..], true) &&
      jobs == jobs[..k] + t.queue.Get(c).jobs &&
      t.liveSubs == s.liveSubs[c := CategoryFilters(c, ids)] &&
      t.armed == s.armed[c := BatchTimer(ids, 3 * |ids|)]
  {
    var q := s.queue.Get(c);
    DrainSplitsQueue(q);
    var k := BatchSize(|q.jobs|);
    var ids := Unique(Identifiers(q.jobs[..k]));
    var s1 := s.(queue := s.queue.With(c, CategoryQueue(q.jobs[k..], true)));
    assert BatchProcessed(s, c) == Downloaded(s1, c, ids, TimeoutSeconds(ids));
    DownloadedShape(s1, c, ids, TimeoutSeconds(ids));
  }

  /** A download replaces the category's subscription and timer, and changes nothing but those entries. */
  lemma DownloadedShape(s: WorkerState, c: Batched, ids: seq<string>, seconds: nat)
    requires s.hasRelay
    ensures var t := Downloaded(s, c, ids, seconds);
      t == s.(liveSubs := t.liveSubs, armed := t.armed, subField := t.subField, timerField := t.timerField) &&
      t.liveSubs == s.liveSubs[c := CategoryFilters(c, ids)] &&
      t.armed == s.armed[c := BatchTimer(ids, seconds)]
  {
    var s1 := if c in s.subField then Cleared(s, c) else s;
    assert s1.armed == s.armed && s1.queue == s.queue;
    assert s1.liveSubs[c := CategoryFilters(c, ids)] == s.liveSubs[c := CategoryFilters(c, ids)];
  }

  /** Draining a category twice in a row is draining it once: the first drain leaves it in flight or idle with nothing queued. */
  lemma BatchDrainTwice(s: WorkerState, c: Batched)
    ensures BatchProcessed(BatchProcessed(s, c), c) == BatchProcessed(s, c)
  {
    var q := s.queue.Get(c);
    if s.hasRelay && s.connected && !q.active && q.jobs != [] {
      BatchDispatch(s, c);
    }
  }

  /** The contacts drain does nothing without a connected relay, while contacts are in flight, or with nothing queued. */
  lemma ContactsDrainGuard(s: WorkerState)
    ensures !s.hasRelay || !s.connected || s.queue.contacts.active || s.queue.contacts.jobs == [] ==>
      ContactsProcessed(s) == s
  {
    assert s.queue.With(Contacts, s.queue.contacts) == s.queue;
  }

  /**
   * The contacts drain on a connected relay with queued jobs and nothing in flight takes
   * exactly the first job, subscribes to that author's contact list, and starts a new
   * downloadContacts call whose 3000-second timer it arms.
   */
  lemma ContactsDispatch(s: WorkerState)
    requires s.hasRelay && s.connected && !s.queue.contacts.active && s.queue.contacts.jobs != []
    ensures var jobs := s.queue.contacts.jobs;
      var t := ContactsProcessed(s);
      t.queue.contacts == CategoryQueue(jobs[1..], true) &&
      t.contactsCycle == s.contactsCycle + 1 &&
      t.liveSubs == s.liveSubs[Contacts := ContactsFilters(jobs[0].identifier)] &&
      t.armed == s.armed[Contacts := ContactsTimer(t.contactsCycle, ContactsTimeoutSeconds)]
  {
    var q := s.queue.contacts;
    var s1 := s.(queue := s.queue.With(Contacts, CategoryQueue(q.jobs[1..], true)));
    assert s1.queue.contacts == s1.queue.Get(Contacts);
    var s0 := s1.(contactsCycle := s1.contactsCycle + 1);
    var s2 := if Contacts in s0.subField then Cleared(s0, Contacts) else s0;
    assert s2.armed == s.armed && s2.queue == s1.queue;
    assert s2.liveSubs[Contacts := ContactsFilters(q.jobs[0].identifier)] == s.liveSubs[Contacts := ContactsFilters(q.jobs[0].identifier)];
  }

  // ---------------------------------------------------------------- resolution

  /** Re-draining a released batched category: it is dispatched again exactly when jobs wait, and nothing is posted. */
  lemma Redrained(u: WorkerState, c: Batched)
    requires !u.queue.Get(c).active && c !in u.armed && c !in u.liveSubs
    ensures var t := BatchProcessed(u, c);
      var d := Drain(u.hasRelay && u.connected, u.queue.Get(c));
      t.queue.Get(c) == d.0 && t.outbox == u.outbox &&
      (c in t.armed <==> d.1.Some?) && (c in t.liveSubs <==> d.1.Some?) &&
      (d.1.Some? ==> t.armed[c] == BatchTimer(d.1.value, TimeoutSeconds(d.1.value))) &&
      (d.1.Some? ==> t.liveSubs[c] == CategoryFilters(c, d.1.value)) &&
      (forall e: Category :: e != c ==> t.queue.Get(e) == u.queue.Get(e))
  {
    BatchProcessedFrame(u, c);
    if u.hasRelay && u.connected && u.queue.Get(c).jobs != [] {
      BatchDispatch(u, c);
    }
  }

  /**
   * The end of stored events of a live batch subscription: the timer is cleared first, so
   * nothing at all is posted; the subscription is closed; the category goes idle and is
   * drained again at once, being dispatched anew, with a new subscription for the next
   * batch, exactly when jobs still wait.
   */
  lemma EoseResolution(s: WorkerState, c: Batched)
    requires Inv(s) && c in s.liveSubs
    ensures var t := EoseResolved(s, c);
      var d := Drain(true, CategoryQueue(s.queue.Get(c).jobs, false));
      t.outbox == s.outbox && t.queue.Get(c) == d.0 &&
      (c in t.armed <==> s.queue.Get(c).jobs != []) &&
      (c in t.liveSubs <==> d.1.Some?) &&
      (d.1.Some? ==> t.armed[c] == BatchTimer(d.1.value, TimeoutSeconds(d.1.value))) &&
      (d.1.Some? ==> t.liveSubs[c] == CategoryFilters(c, d.1.value)) &&
      (forall e: Category :: e != c ==> t.queue.Get(e) == s.queue.Get(e))
  {
    assert BatchInv(s, c);
    var u := Idle(Cleared(Disarmed(s, c), c), c);
    ReleasedShape(s, c);
    assert u.queue.Get(c) == CategoryQueue(s.queue.Get(c).jobs, false);
    assert u.outbox == s.outbox && u.hasRelay && u.connected;
    Redrained(u, c);
  }

  /**
   * The timeout of an armed batch download: the subscription is closed, the category goes
   * idle and is drained again at once, a new subscription being opened exactly when it is
   * dispatched anew, and exactly one `timeout` message follows, carrying the identifiers the timer
   * was armed with, tagged "Profile" for profiles and "Event" for the other categories.
   */
  lemma TimerResolution(s: WorkerState, c: Batched)
    requires Inv(s) && c in s.armed
    ensures var t := TimerResolved(s, c);
      var d := Drain(s.hasRelay && s.connected, CategoryQueue(s.queue.Get(c).jobs, false));
      t.outbox == s.outbox + [TimeoutMsg(TimeoutTag(c), s.armed[c].ids)] &&
      t.queue.Get(c) == d.0 && (c in t.armed <==> d.1.Some?) && (c in t.liveSubs <==> d.1.Some?) &&
      (d.1.Some? ==> t.armed[c] == BatchTimer(d.1.value, TimeoutSeconds(d.1.value))) &&
      (d.1.Some? ==> t.liveSubs[c] == CategoryFilters(c, d.1.value)) &&
      (forall e: Category :: e != c ==> t.queue.Get(e) == s.queue.Get(e))
  {
    var u := Idle(Cleared(Disarmed(s, c), c), c);
    ReleasedShape(s, c);
    assert BatchInv(s, c);
    assert u.queue.Get(c) == CategoryQueue(s.queue.Get(c).jobs, false);
    assert u.outbox == s.outbox && u.hasRelay == s.hasRelay;
    Redrained(u, c);
  }

  /** Re-draining contacts: a dispatch starts the next call, and nothing is posted or run. */
  lemma ContactsRedrained(u: WorkerState)
    requires !u.queue.contacts.active
    ensures var t := ContactsProcessed(u);
      var d := ContactsDrain(u.hasRelay && u.connected, u.queue.contacts);
      t.queue.contacts == d.0 && t.outbox == u.outbox &&
      t.continuationRuns == u.continuationRuns && t.finalizedCalled == u.finalizedCalled &&
      (d.1.Some? ==> t.armed[Contacts] == ContactsTimer(u.contactsCycle + 1, ContactsTimeoutSeconds)) &&
      (d.1.None? ==> t.armed == u.armed)
  {
    ContactsProcessedFrame(u);
    if u.hasRelay && u.connected && u.queue.contacts.jobs != [] {
      ContactsDispatch(u);
    } else {
      ContactsDrainGuard(u);
    }
  }

  /**
   * The continuation of the latest downloadContacts call, with its flag unset: the flag is
   * set, the continuation runs (recorded once), contacts go idle and are drained again.
   */
  lemma ContactsFinalizedEffect(u: WorkerState)
    ensures var t := ContactsFinalized(u);
      var d := ContactsDrain(u.hasRelay && u.connected, CategoryQueue(u.queue.contacts.jobs, false));
      t.continuationRuns == u.continuationRuns + [u.contactsCycle] &&
      t.finalizedCalled == u.finalizedCalled + {u.contactsCycle} &&
      t.outbox == u.outbox && t.queue.contacts == d.0 &&
      (d.1.Some? ==> t.armed[Contacts] == ContactsTimer(u.contactsCycle + 1, ContactsTimeoutSeconds)) &&
      (d.1.None? ==> t.armed == u.armed)
  {
    var u1 := u.(finalizedCalled := u.finalizedCalled + {u.contactsCycle},
                 continuationRuns := u.continuationRuns + [u.contactsCycle]);
    var u2 := Idle(u1, Contacts);
    assert u2.queue.contacts == u2.queue.Get(Contacts);
    ContactsRedrained(u2);
  }

  /**
   * The first event of the live contacts subscription: the event is posted, the
   * subscription and the timer are cleared, and the call's continuation runs, this once;
   * a contacts timer armed afterwards belongs to the next call.
   */
  lemma ContactsEventResolution(s: WorkerState, ev: NostrEvent)
    requires Inv(s) && Contacts in s.liveSubs
    ensures var t := ContactsEventResolved(s, ev);
      var d := ContactsDrain(true, CategoryQueue(s.queue.contacts.jobs, false));
      t.continuationRuns == s.continuationRuns + [s.contactsCycle] &&
      s.contactsCycle in t.finalizedCalled &&
      t.outbox == s.outbox + [EventMsg(ev, None)] && t.queue.contacts == d.0 &&
      (Contacts in t.armed <==> d.1.Some?) &&
      (Contacts in t.armed ==> t.armed[Contacts].cycle == s.contactsCycle + 1)
  {
    var s1 := Cleared(Posted(s, EventMsg(ev, None)), Contacts);
    assert Contacts in s1.timerField;
    var s2 := Disarmed(s1, Contacts);
    assert s2.contactsCycle !in s2.finalizedCalled && s2.hasRelay && s2.connected;
    ContactsFinalizedEffect(s2);
  }

  /**
   * The timeout of the contacts download: the subscription is cleared and the call's
   * continuation runs, this once; nothing is posted.
   */
  lemma ContactsTimerResolution(s: WorkerState)
    requires Inv(s) && Contacts in s.armed
    ensures var t := ContactsTimerResolved(s);
      var d := ContactsDrain(s.hasRelay && s.connected, CategoryQueue(s.queue.contacts.jobs, false));
      t.continuationRuns == s.continuationRuns + [s.contactsCycle] &&
      s.contactsCycle in t.finalizedCalled &&
      t.outbox == s.outbox && t.queue.contacts == d.0 &&
      (Contacts in t.armed <==> d.1.Some?) &&
      (Contacts in t.armed ==> t.armed[Contacts].cycle == s.contactsCycle + 1)
  {
    var s1 := Cleared(Disarmed(s, Contacts), Contacts);
    assert s1.contactsCycle !in s1.finalizedCalled;
    ContactsFinalizedEffect(s1);
  }

  /**
   * Under the invariant no downloadContacts continuation has run twice. The invariant's
   * bookkeeping is kept by Steps.RecordRun, through Invariant.ContactsFinalizedInv.
   */
  lemma RunsDistinct(s: WorkerState)
    requires Inv(s)
    ensures forall i, j :: 0 <= i < j < |s.continuationRuns| ==> s.continuationRuns[i] != s.continuationRuns[j]
  {
  }

  /**
   * The contacts event of the current call runs its continuation; a timer armed afterwards
   * is the next call's, whose flag is unset.
   */
  lemma EventRuns(s: WorkerState, ev: NostrEvent)
    requires Inv(s) && Contacts in s.liveSubs
    ensures var t := ContactsEventResolved(s, ev);
      t.continuationRuns == s.continuationRuns + [s.contactsCycle] &&
      (forall i, j :: 0 <= i < j < |t.continuationRuns| ==> t.continuationRuns[i] != t.continuationRuns[j]) &&
      (Contacts in t.armed ==>
        t.contactsCycle == s.contactsCycle + 1 && t.contactsCycle !in t.finalizedCalled &&
        RunsOk(t.contactsCycle, t.finalizedCalled, t.continuationRuns))
  {
    ContactsEventResolution(s, ev);
    ContactsEventResolvedInv(s, ev);
    RunsDistinct(ContactsEventResolved(s, ev));
  }

  /** The timer of a call whose flag is unset runs that call's continuation, and the runs stay distinct. */
  lemma TimerRuns(t: WorkerState)
    requires 1 <= t.contactsCycle && t.contactsCycle !in t.finalizedCalled
    requires RunsOk(t.contactsCycle, t.finalizedCalled, t.continuationRuns)
    ensures var u := ContactsTimerResolved(t);
      u.continuationRuns == t.continuationRuns + [t.contactsCycle] &&
      (forall i, j :: 0 <= i < j < |u.continuationRuns| ==> u.continuationRuns[i] != u.continuationRuns[j])
  {
    var t1 := Cleared(Disarmed(t, Contacts), Contacts);
    assert t1.contactsCycle == t.contactsCycle && t1.finalizedCalled == t.finalizedCalled &&
      t1.continuationRuns == t.continuationRuns;
    ContactsFinalizedEffect(t1);
    RecordRun(t.contactsCycle, t.finalizedCalled, t.continuationRuns);
  }

  /** After the event of the current call, a timer that fires runs the next call's continuation only. */
  lemma EventThenTimerRuns(s: WorkerState, ev: NostrEvent)
    requires Inv(s) && Contacts in s.liveSubs
    ensures var t := ContactsEventResolved(s, ev);
      Contacts in t.armed ==>
        var u := ContactsTimerResolved(t);
        u.continuationRuns == s.continuationRuns + [s.contactsCycle, s.contactsCycle + 1] &&
        (forall i, j :: 0 <= i < j < |u.continuationRuns| ==> u.continuationRuns[i] != u.continuationRuns[j])
  {
    var t := ContactsEventResolved(s, ev);
    if Contacts in t.armed {
      EventRuns(s, ev);
      TimerRuns(t);
      assert ContactsTimerResolved(t).continuationRuns == s.continuationRuns + [s.contactsCycle, s.contactsCycle + 1];
    }
  }

  /**
   * A downloadContacts call whose event arrives runs its continuation once; a timer that
   * fires afterwards belongs to the next call and runs only that call's continuation; and
   * along the way no continuation number appears twice among the runs.
   */
  lemma ContinuationsAtMostOnce(s: WorkerState, ev: NostrEvent)
    requires Inv(s) && Contacts in s.liveSubs
    ensures var t := ContactsEventResolved(s, ev);
      t.continuationRuns == s.continuationRuns + [s.contactsCycle] &&
      (forall i, j :: 0 <= i < j < |t.continuationRuns| ==> t.continuationRuns[i] != t.continuationRuns[j])
    ensures var t := ContactsEventResolved(s, ev);
      Contacts in t.armed ==>
        var u := ContactsTimerResolved(t);
        u.continuationRuns == s.continuationRuns + [s.contactsCycle, s.contactsCycle + 1] &&
        (forall i, j :: 0 <= i < j < |u.continuationRuns| ==> u.continuationRuns[i] != u.continuationRuns[j])
  {
    EventRuns(s, ev);
    EventThenTimerRuns(s, ev);
  }

  // ---------------------------------------------------------------- ad-hoc subscriptions

  /**
   * subscribe(filters, id): without a connected relay the request is queued, in order,
   * and nothing else changes; on a connected relay a new id is appended with its filters
   * and a listed id is left as it is, so ids stay distinct and `id` is listed afterwards.
   */
  lemma SubscribeEffect(s: WorkerState, filters: seq<Filter>, id: string)
    requires NoDuplicates(Ids(s.subscriptions))
    ensures var t := Subscribed(s, filters, id);
      (!s.hasRelay || !s.connected ==>
        t == s.(queue := s.queue.(subscriptions := s.queue.subscriptions + [SubRequest(id, filters)]))) &&
      (s.hasRelay && s.connected ==>
        t.queue == s.queue && t.outbox == s.outbox &&
        id in Ids(t.subscriptions) && NoDuplicates(Ids(t.subscriptions)) &&
        (forall x :: x in Ids(t.subscriptions) <==> x in Ids(s.subscriptions) || x == id) &&
        (id in Ids(s.subscriptions) ==> t == s) &&
        (id !in Ids(s.subscriptions) ==> t.subscriptions == s.subscriptions + [AdHocSub(id, filters)]))
  {
    if s.hasRelay && s.connected && id !in Ids(s.subscriptions) {
      assert Subscribed(s, filters, id).subscriptions == AddSub(s.subscriptions, id, filters);
    }
  }

  /**
   * unsubscribe(id) removes the entry with that id and only it, keeping the others in
   * order and the ids distinct; an unknown id changes nothing. Requests queued while
   * disconnected are not looked at, so one queued under `id` is still subscribed later.
   */
  lemma UnsubscribeEffect(s: WorkerState, id: string)
    requires NoDuplicates(Ids(s.subscriptions))
    ensures var t := Unsubscribed(s, id);
      t == s.(subscriptions := t.subscriptions) &&
      id !in Ids(t.subscriptions) && NoDuplicates(Ids(t.subscriptions)) &&
      (forall x :: x in Ids(t.subscriptions) <==> x in Ids(s.subscriptions) && x != id) &&
      (id !in Ids(s.subscriptions) ==> t == s)
  {
    if id in Ids(s.subscriptions) {
      RemoveOnlyThat(s.subscriptions, id);
    }
  }

  /**
   * processSubscriptions on a connected relay leaves no request queued, and the listed ids
   * become the listed ids followed by the requested ones, each kept at its first
   * appearance; they stay distinct.
   */
  lemma SubscriptionsReplayed(s: WorkerState)
    requires NoDuplicates(Ids(s.subscriptions))
    ensures var t := SubscriptionsProcessed(s);
      NoDuplicates(Ids(t.subscriptions)) &&
      (s.hasRelay && s.connected ==>
        t.queue.subscriptions == [] &&
        Ids(t.subscriptions) == Unique(Ids(s.subscriptions) + RequestIds(s.queue.subscriptions)))
  {
    var a := Ids(s.subscriptions) + RequestIds(s.queue.subscriptions);
    if s.hasRelay && s.connected && s.queue.subscriptions != [] {
      assert SubscriptionsProcessed(s).subscriptions == Replay(s.subscriptions, s.queue.subscriptions);
      ReplayIsUnique(s.subscriptions, s.queue.subscriptions);
      UniqueCharacterised(a);
    } else if s.hasRelay && s.connected {
      assert a == Ids(s.subscriptions);
      UniqueOfDistinct(Ids(s.subscriptions));
    }
  }

  /**
   * The entries processSubscriptions leaves on a connected relay: those listed before,
   * unchanged and in front, then for each newly seen id the entry carrying the filters of
   * the first queued request with that id; every queued id ends up listed.
   */
  lemma SubscriptionsReplayedEntries(s: WorkerState)
    requires s.hasRelay && s.connected
    ensures ReplayListing(s.subscriptions, s.queue.subscriptions, SubscriptionsProcessed(s).subscriptions)
  {
    assert SubscriptionsProcessed(s).subscriptions == Replay(s.subscriptions, s.queue.subscriptions);
    ReplayEntries(s.subscriptions, s.queue.subscriptions);
  }

  /** processSubscriptions changes only the ad-hoc list and the queued requests. */
  lemma SubscriptionsFrame(s: WorkerState)
    ensures var t := SubscriptionsProcessed(s);
      t == s.(queue := s.queue.(subscriptions := t.queue.subscriptions), subscriptions := t.subscriptions) &&
      forall c: Category :: t.queue.Get(c) == s.queue.Get(c)
  {
  }

  // ---------------------------------------------------------------- connection

  /**
   * The relay closes: no subscription is live any more, the ad-hoc list is emptied and
   * status 0 is posted; the queues and the armed timers stay as they are.
   */
  lemma CloseEffect(s: WorkerState)
    ensures var t := Closed(s);
      !t.connected && t.liveSubs == map[] && t.subscriptions == [] &&
      t.outbox == s.outbox + [StatusMsg(0)] &&
      t == s.(connected := false, liveSubs := map[], subscriptions := [], outbox := t.outbox)
  {
  }

  /** After the relay closes, subscribe queues the request: it is replayed on the next connection. */
  lemma SubscribeAfterClose(s: WorkerState, filters: seq<Filter>, id: string)
    ensures var t := Subscribed(Closed(s), filters, id);
      t.subscriptions == [] &&
      t.queue.subscriptions == s.queue.subscriptions + [SubRequest(id, filters)]
  {
  }

  /**
   * A batch timer that fires after the relay closed leaves its category idle with its
   * jobs kept, still reports the timeout, and dispatches nothing.
   */
  lemma TimeoutAfterClose(s: WorkerState, c: Batched)
    requires Inv(s) && c in s.armed
    ensures Inv(Closed(s)) && c in Closed(s).armed
    ensures var t := TimerResolved(Closed(s), c);
      t.queue.Get(c) == CategoryQueue(s.queue.Get(c).jobs, false) && c !in t.armed &&
      t.outbox == s.outbox + [StatusMsg(0), TimeoutMsg(TimeoutTag(c), s.armed[c].ids)]
  {
    ClosedInv(s);
    TimerResolution(Closed(s), c);
  }

  /**
   * publish(event) on a relay hands the event over exactly when the gate lets it through,
   * and posts a `failure` message exactly when handing it over failed; it changes nothing
   * else. Without a relay nothing happens.
   */
  lemma PublishEffect(s: WorkerState, ev: NostrEvent, sendError: Option<string>)
    ensures var t := Published(s, ev, sendError);
      var sent := s.hasRelay && PublishGate(ev.kind, s.nip11) == Send;
      t == s.(published := t.published, outbox := t.outbox) &&
      (sent ==> t.published == s.published + [ev]) &&
      (!sent ==> t == s) &&
      (sent && sendError.Some? ==> t.outbox == s.outbox + [FailureMsg(sendError.value)]) &&
      (sendError.None? ==> t.outbox == s.outbox)
  {
  }

  /** An addressable event (kinds 30008, 30009, 30023) is never published before a NIP-11 document arrived. */
  lemma AddressableWaitsForDocument(s: WorkerState, ev: NostrEvent, sendError: Option<string>)
    requires NeedsNip33(ev.kind) && s.nip11.None?
    ensures Published(s, ev, sendError) == s
  {
  }

  /**
   * connect(event): once the relay is reached, status 1, the publish, 'terminated' and
   * (from onclose) status 0 follow in that order; an addressable event is never handed
   * over, since the fresh relay holds no NIP-11 document; the worker ends disconnected
   * with no ad-hoc subscription and its queues untouched. An unreachable relay posts the
   * connection error only.
   */
  lemma ConnectAndPublishEffect(s: WorkerState, ev: NostrEvent, reachable: bool, sendError: Option<string>)
    ensures var t := ConnectedAndPublished(s, ev, reachable, sendError);
      var sent := !NeedsNip33(ev.kind);
      (!reachable ==> t == s.(outbox := s.outbox + [ErrorMsg(ConnectError)])) &&
      (reachable ==>
        t.hasRelay && !t.connected && t.nip11.None? && t.liveSubs == map[] && t.subscriptions == [] &&
        t.queue == s.queue &&
        t.published == s.published + (if sent then [ev] else []) &&
        t.outbox == s.outbox + [StatusMsg(1)] +
          (if sent && sendError.Some? then [FailureMsg(sendError.value)] else []) +
          [TerminatedMsg, StatusMsg(0)])
  {
    if reachable {
      var s1 := Posted(Attached(s), StatusMsg(1));
      PublishEffect(s1, ev, sendError);
    }
  }

  /**
   * info(): exactly one message is posted; the document is kept, and posted, exactly when
   * the response has status 200 and a relay is present; nothing else changes.
   */
  lemma InfoEffect(s: WorkerState, outcome: FetchOutcome)
    ensures var t := InfoReceived(s, outcome);
      var kept := outcome.Response? && outcome.status == 200 && s.hasRelay;
      t == s.(nip11 := t.nip11, outbox := t.outbox) &&
      |t.outbox| == |s.outbox| + 1 && t.outbox[..|s.outbox|] == s.outbox &&
      (kept ==> t.nip11 == Some(outcome.document) && t.outbox[|s.outbox|] == Nip11Msg(outcome.document)) &&
      (!kept ==> t.nip11 == s.nip11 && t.outbox[|s.outbox|].Nip11ErrorMsg?)
  {
  }

  /** Once a document announcing NIP-33 has been kept, every event kind is published. */
  lemma InfoThenPublish(s: WorkerState, status: int, text: string, doc: Nip11, ev: NostrEvent, sendError: Option<string>)
    requires s.hasRelay && 33 in doc.supportedNips
    ensures var t := Published(InfoReceived(s, Response(200, text, doc)), ev, sendError);
      t.published == s.published + [ev]
  {
    GateByDocument(ev.kind, doc);
  }

  // ---------------------------------------------------------------- process

  /** A category with jobs waiting is in flight: nothing is left waiting for a drain. */
  predicate Settled(q: CategoryQueue)
  {
    q.jobs != [] ==> q.active
  }

  /** After its drain on a connected relay, a batched category is settled. */
  lemma BatchSettles(s: WorkerState, c: Batched)
    ensures s.hasRelay && s.connected ==> Settled(BatchProcessed(s, c).queue.Get(c))
  {
    var q := s.queue.Get(c);
    if s.hasRelay && s.connected && !q.active && q.jobs != [] {
      BatchDispatch(s, c);
    }
  }

  /** After their drain on a connected relay, contacts are settled. */
  lemma ContactsSettle(s: WorkerState)
    ensures s.hasRelay && s.connected ==> Settled(ContactsProcessed(s).queue.contacts)
  {
    var q := s.queue.contacts;
    if s.hasRelay && s.connected && !q.active && q.jobs != [] {
      ContactsDispatch(s);
    }
  }

  /** What a drain leaves alone: the connection, the messages, the events, the ad-hoc requests. */
  predicate DrainKeeps(s: WorkerState, t: WorkerState)
  {
    t.hasRelay == s.hasRelay && t.connected == s.connected && t.nip11 == s.nip11 &&
    t.outbox == s.outbox && t.published == s.published &&
    t.continuationRuns == s.continuationRuns && t.pendingProcess == s.pendingProcess &&
    t.subscriptions == s.subscriptions && t.queue.subscriptions == s.queue.subscriptions
  }

  /** Every category of `cs` is settled in `s`. */
  predicate SettledIn(s: WorkerState, cs: set<Category>)
  {
    forall c: Category :: c in cs ==> Settled(s.queue.Get(c))
  }

  /** A batched drain keeps the frame and the categories already settled, and settles its own. */
  lemma BatchStep(s: WorkerState, c: Batched, cs: set<Category>)
    requires s.hasRelay && s.connected ==> SettledIn(s, cs)
    ensures DrainKeeps(s, BatchProcessed(s, c))
    ensures s.hasRelay && s.connected ==> SettledIn(BatchProcessed(s, c), cs + {c})
  {
    BatchProcessedFrame(s, c);
    BatchSettles(s, c);
  }

  /** The contacts drain keeps the frame and the categories already settled, and settles contacts. */
  lemma ContactsStep(s: WorkerState, cs: set<Category>)
    requires s.hasRelay && s.connected ==> SettledIn(s, cs)
    ensures DrainKeeps(s, ContactsProcessed(s))
    ensures s.hasRelay && s.connected ==> SettledIn(ContactsProcessed(s), cs + {Contacts})
  {
    ContactsProcessedFrame(s);
    ContactsSettle(s);
    assert ContactsProcessed(s).queue.Get(Contacts) == ContactsProcessed(s).queue.contacts;
  }

  /** The five drains of process(), in its order: the frame is kept and, on a connected relay, every category settled. */
  lemma DrainsSettle(s: WorkerState)
    ensures var s5 := BatchProcessed(ContactsProcessed(BatchProcessed(BatchProcessed(BatchProcessed(s, Article), BadgeDefinition), Profile)), Event);
      DrainKeeps(s, s5) &&
      (s.hasRelay && s.connected ==> forall c: Category :: Settled(s5.queue.Get(c)))
  {
    var s1 := BatchProcessed(s, Article);
    var s2 := BatchProcessed(s1, BadgeDefinition);
    var s3 := BatchProcessed(s2, Profile);
    var s4 := ContactsProcessed(s3);
    var s5 := BatchProcessed(s4, Event);
    BatchStep(s, Article, {});
    BatchStep(s1, BadgeDefinition, {Article});
    BatchStep(s2, Profile, {Article, BadgeDefinition});
    ContactsStep(s3, {Article, BadgeDefinition, Profile});
    BatchStep(s4, Event, {Article, BadgeDefinition, Profile, Contacts});
    if s.hasRelay && s.connected {
      assert SettledIn(s5, {Article, BadgeDefinition, Profile, Contacts, Event});
      forall c: Category ensures Settled(s5.queue.Get(c)) {
        assert c.Article? || c.BadgeDefinition? || c.Profile? || c.Contacts? || c.Event?;
      }
    }
  }

  /**
   * process() on a connected relay leaves every category settled and no ad-hoc request
   * queued, the requests subscribed after the listed ids with repeats dropped; it posts
   * and publishes nothing and leaves the connection as it was.
   */
  lemma ProcessSettles(s: WorkerState)
    requires NoDuplicates(Ids(s.subscriptions))
    ensures var t := Processed(s);
      t.hasRelay == s.hasRelay && t.connected == s.connected && t.nip11 == s.nip11 &&
      t.outbox == s.outbox && t.published == s.published &&
      t.continuationRuns == s.continuationRuns && t.pendingProcess == s.pendingProcess &&
      (s.hasRelay && s.connected ==>
        t.queue.subscriptions == [] && (forall c: Category :: Settled(t.queue.Get(c))) &&
        Ids(t.subscriptions) == Unique(Ids(s.subscriptions) + RequestIds(s.queue.subscriptions)))
  {
    var s5 := BatchProcessed(ContactsProcessed(BatchProcessed(BatchProcessed(BatchProcessed(s, Article), BadgeDefinition), Profile)), Event);
    assert Processed(s) == SubscriptionsProcessed(s5);
    DrainsSettle(s);
    SubscriptionsReplayed(s5);
    SubscriptionsFrame(s5);
  }

  /**
   * enque(job) appends the job to the queue its type names, leaves every other queue
   * alone and starts one more debounce timer; an unsupported type changes nothing.
   */
  lemma EnqueueEffect(s: WorkerState, job: Job)
    ensures var t := JobEnqueued(s, job);
      (forall c: Category :: Name(c) != job.jobType) ==> t == s
    ensures forall c: Category :: Name(c) == job.jobType ==>
      var t := JobEnqueued(s, job);
      t == s.(queue := t.queue, pendingProcess := s.pendingProcess + 1) &&
      t.queue.Get(c) == CategoryQueue(s.queue.Get(c).jobs + [job], s.queue.Get(c).active) &&
      t.queue.subscriptions == s.queue.subscriptions &&
      (forall d: Category :: d != c ==> t.queue.Get(d) == s.queue.Get(d))
  {
    forall c: Category | Name(c) == job.jobType {
      EnqueuedSeparates(s.queue, job, c);
    }
  }

  /**
   * connect() without an event on a reachable relay: status 1 is posted, then every
   * category is settled and every request queued while disconnected is subscribed, the
   * listed ids followed by the requested ones with repeats dropped.
   */
  lemma ConnectEffect(s: WorkerState)
    requires NoDuplicates(Ids(s.subscriptions))
    ensures var t := Connected(s, true);
      t.hasRelay && t.connected && t.nip11.None? &&
      t.outbox == s.outbox + [StatusMsg(1)] && t.published == s.published &&
      t.queue.subscriptions == [] && (forall c: Category :: Settled(t.queue.Get(c))) &&
      Ids(t.subscriptions) == Unique(Ids(s.subscriptions) + RequestIds(s.queue.subscriptions))
    ensures Connected(s, false) == s.(outbox := s.outbox + [ErrorMsg(ConnectError)])
  {
    ProcessSettles(Posted(Attached(s), StatusMsg(1)));
  }

  /**
   * Profile jobs for "a", "a", "b" on a connected relay with profiles idle: one
   * subscription opens for the authors ["a", "b"] with a six-second timer, and if that
   * timer fires, one `timeout` message with ["a", "b"] follows and profiles are idle again.
   */
  lemma DuplicateProfilesScenario(s: WorkerState)
    requires Inv(s) && s.hasRelay && s.connected && !s.queue.profile.active
    requires s.queue.profile.jobs == [Job("Profile", "a"), Job("Profile", "a"), Job("Profile", "b")]
    ensures var t := BatchProcessed(s, Profile);
      t.liveSubs[Profile] == [AuthorsFilter(KindMetadata, ["a", "b"])] &&
      t.armed[Profile] == BatchTimer(["a", "b"], 6) &&
      var u := TimerResolved(t, Profile);
      u.outbox == s.outbox + [TimeoutMsg("Profile", ["a", "b"])] &&
      u.queue.profile == CategoryQueue([], false) && Profile !in u.armed
  {
    var jobs := s.queue.profile.jobs;
    assert s.queue.Get(Profile) == s.queue.profile;
    assert jobs[..BatchSize(|jobs|)] == jobs;
    var batch := Identifiers(jobs);
    assert batch == ["a", "a", "b"];
    assert Unique(batch) == ["a", "b"] by {
      assert batch == ["a", "a"] + ["b"];
      UniqueSnoc(["a", "a"], "b");
      UniqueOfRepeated(["a", "a"], "a");
    }
    BatchDispatch(s, Profile);
    var t := BatchProcessed(s, Profile);
    BatchProcessedInv(s, Profile);
    BatchProcessedFrame(s, Profile);
    TimerResolution(t, Profile);
    assert t.queue.Get(Profile).jobs == [];
  }
}
