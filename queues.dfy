/**
 * The worker's job queues: one queue per job category, each a list of jobs and an
 * in-flight flag, plus the list of ad-hoc subscription requests made while the relay
 * was not connected. The drain step of each category is given here as a function of
 * the connection flag and the category's queue.
 */
module Queues {
  import opened Nostr
  import opened Dedup

  datatype Category = Profile | Contacts | Event | Article | BadgeDefinition

  /** The four categories that are fetched in batches; contacts are fetched one at a time. */
  type Batched = c: Category | c != Contacts witness Profile

  /** The `job.type` text that names a category. */
  function Name(c: Category): string
  {
    match c
    case Profile => "Profile"
    case Contacts => "Contacts"
    case Event => "Event"
    case Article => "Article"
    case BadgeDefinition => "BadgeDefinition"
  }

  /** The queue `enque` routes a job type to; None for a type it rejects. */
  function Route(jobType: string): (r: Option<Category>)
    ensures r.Some? ==> Name(r.value) == jobType
    ensures r.None? ==> forall c: Category :: Name(c) != jobType
  {
    if jobType == "Profile" then Some(Profile)
    else if jobType == "Contacts" then Some(Contacts)
    else if jobType == "Event" then Some(Event)
    else if jobType == "Article" then Some(Article)
    else if jobType == "BadgeDefinition" then Some(BadgeDefinition)
    else None
  }

  /** Every category's own name routes back to it. */
  lemma RouteName(c: Category)
    ensures Route(Name(c)) == Some(c)
  {
  }

  datatype Job = Job(jobType: string, identifier: string)

  datatype CategoryQueue = CategoryQueue(jobs: seq<Job>, active: bool)

  /** A subscription request kept until the relay is connected. */
  datatype SubRequest = SubRequest(id: string, filters: seq<Filter>)

  datatype QueueSet = QueueSet(
    profile: CategoryQueue,
    contacts: CategoryQueue,
    event: CategoryQueue,
    article: CategoryQueue,
    badgedefinition: CategoryQueue,
    subscriptions: seq<SubRequest>)
  {
    function Get(c: Category): CategoryQueue
    {
      match c
      case Profile => profile
      case Contacts => contacts
      case Event => event
      case Article => article
      case BadgeDefinition => badgedefinition
    }

    /** This set of queues with the queue of category c replaced by q. */
    function With(c: Category, q: CategoryQueue): (r: QueueSet)
      ensures r.Get(c) == q
      ensures forall d: Category :: d != c ==> r.Get(d) == Get(d)
      ensures r.subscriptions == subscriptions
      ensures q == Get(c) ==> r == this
    {
      match c
      case Profile => this.(profile := q)
      case Contacts => this.(contacts := q)
      case Event => this.(event := q)
      case Article => this.(article := q)
      case BadgeDefinition => this.(badgedefinition := q)
    }
  }

  /** A fresh `Queue`: every list empty, nothing in flight. */
  function EmptyQueues(): (qs: QueueSet)
    ensures forall c: Category :: qs.Get(c) == CategoryQueue([], false)
    ensures qs.subscriptions == []
  {
    var e := CategoryQueue([], false);
    QueueSet(e, e, e, e, e, [])
  }

  /**
   * `enque(job)`: the job is appended to the queue its type names; any other type is
   * refused (the source throws) and nothing changes.
   */
  function Enqueued(qs: QueueSet, job: Job): (r: Option<QueueSet>)
    ensures r.None? <==> forall c: Category :: Name(c) != job.jobType
    ensures r.Some? ==>
      exists c: Category :: (Name(c) == job.jobType &&
        r.value.Get(c) == CategoryQueue(qs.Get(c).jobs + [job], qs.Get(c).active) &&
        (forall d: Category :: d != c ==> r.value.Get(d) == qs.Get(d)))
    ensures r.Some? ==> r.value.subscriptions == qs.subscriptions
  {
    match Route(job.jobType)
    case None => None
    case Some(c) =>
      var q := qs.Get(c);
      Some(qs.With(c, CategoryQueue(q.jobs + [job], q.active)))
  }

  /** Jobs of two different types never land in the same queue. */
  lemma EnqueuedSeparates(qs: QueueSet, job: Job, c: Category)
    requires Name(c) == job.jobType
    ensures Enqueued(qs, job).Some?
    ensures Enqueued(qs, job).value.Get(c).jobs == qs.Get(c).jobs + [job]
    ensures forall d: Category :: d != c ==> Enqueued(qs, job).value.Get(d) == qs.Get(d)
  {
    RouteName(c);
  }

  /** `splice(0, 500)`: at most this many jobs leave the queue per batch. */
  const MaxBatch := 500

  /** How many jobs a drain takes from a queue holding n jobs. */
  function BatchSize(n: nat): (k: nat)
    ensures k <= n && k <= MaxBatch
    ensures k == n || k == MaxBatch
  {
    if n < MaxBatch then n else MaxBatch
  }

  /** `jobs.map((j) => j.identifier)`; a named projection, like AdHoc.Ids, so quantifiers trigger on an index. */
  function Identifiers(jobs: seq<Job>): (ids: seq<string>)
    ensures |ids| == |jobs|
    ensures forall i :: 0 <= i < |jobs| ==> ids[i] == jobs[i].identifier
  {
    seq(|jobs|, i requires 0 <= i < |jobs| => jobs[i].identifier)
  }

  /**
   * The drain step of a batched category (processProfiles, processEvents, processArticle,
   * processBadgeDefinition): the category's new queue, and the identifiers to download
   * when a download is dispatched.
   */
  function Drain(connected: bool, q: CategoryQueue): (r: (CategoryQueue, Option<seq<string>>))
    ensures r.1.Some? <==> connected && !q.active && q.jobs != []
    ensures r.1.None? ==> r.0 == q && (connected && !q.active ==> q.jobs == [])
    ensures r.1.Some? ==> r.0.active && |q.jobs| - |r.0.jobs| == BatchSize(|q.jobs|)
    ensures r.1.Some? ==> r.0.jobs == q.jobs[BatchSize(|q.jobs|)..]
    ensures r.1.Some? ==> r.1.value == Unique(Identifiers(q.jobs[..BatchSize(|q.jobs|)]))
  {
    if !connected || q.active then (q, None)
    else if q.jobs == [] then (q.(active := false), None)
    else
      var k := BatchSize(|q.jobs|);
      (CategoryQueue(q.jobs[k..], true), Some(Unique(Identifiers(q.jobs[..k]))))
  }

  /**
   * A dispatched batch holds between one and 500 identifiers: each identifier of the jobs
   * taken exactly once, in the order of first appearance.
   */
  lemma DrainDispatches(connected: bool, q: CategoryQueue)
    requires Drain(connected, q).1.Some?
    ensures var ids := Drain(connected, q).1.value;
      var batch := Identifiers(q.jobs[..BatchSize(|q.jobs|)]);
      NoDuplicates(ids) && 0 < |ids| <= MaxBatch &&
      (forall x :: x in ids <==> x in batch) &&
      FirstSeenOrder(batch, ids)
  {
    var batch := Identifiers(q.jobs[..BatchSize(|q.jobs|)]);
    UniqueCharacterised(batch);
    assert batch[0] in batch;
  }

  /** What is left after a drain, followed after what it took, is the queue it started from. */
  lemma DrainSplitsQueue(q: CategoryQueue)
    requires !q.active && q.jobs != []
    ensures var r := Drain(true, q);
      q.jobs == q.jobs[..BatchSize(|q.jobs|)] + r.0.jobs
  {
    var k := BatchSize(|q.jobs|);
    assert q.jobs == q.jobs[..k] + q.jobs[k..];
  }

  /** 600 queued jobs: the first 500 are dispatched and the last 100 wait, in their order. */
  lemma DrainSixHundred(q: CategoryQueue)
    requires !q.active && |q.jobs| == 600
    ensures Drain(true, q).0 == CategoryQueue(q.jobs[500..], true)
    ensures |Drain(true, q).0.jobs| == 100
    ensures forall x :: x in Drain(true, q).1.value <==> x in Identifiers(q.jobs[..500])
  {
    DrainDispatches(true, q);
  }

  /** A batch holding one identifier many times dispatches it once. */
  lemma DrainRepeated(q: CategoryQueue, x: string)
    requires !q.active && 0 < |q.jobs|
    requires forall i :: 0 <= i < |q.jobs| ==> q.jobs[i].identifier == x
    ensures Drain(true, q).1 == Some([x])
  {
    UniqueOfRepeated(Identifiers(q.jobs[..BatchSize(|q.jobs|)]), x);
  }

  /** Draining twice is draining once: the second call finds the category active. */
  lemma DrainThenDrain(connected: bool, q: CategoryQueue)
    ensures Drain(connected, q).1.Some? ==> Drain(connected, Drain(connected, q).0) == (Drain(connected, q).0, None)
  {
  }

  /** `ids.length * 3` seconds: three per identifier in the batch. */
  function TimeoutSeconds(ids: seq<string>): nat
  {
    |ids| * 3
  }

  /** A dispatched batch waits at most 1500 seconds for its end of stored events. */
  lemma TimeoutBounded(connected: bool, q: CategoryQueue)
    ensures Drain(connected, q).1.Some? ==> 3 <= TimeoutSeconds(Drain(connected, q).1.value) <= 3 * MaxBatch
  {
    if Drain(connected, q).1.Some? {
      DrainDispatches(connected, q);
    }
  }

  /** The `type` the timeout message of a batched category carries. */
  function TimeoutTag(c: Batched): (tag: string)
    ensures tag == "Profile" <==> c == Profile
    ensures tag != "Profile" ==> tag == "Event"
  {
    if c == Profile then "Profile" else "Event"
  }

  /**
   * The drain step of contacts (processContacts): one job at a time, `shift`; the
   * identifier to download when a download is dispatched.
   */
  function ContactsDrain(connected: bool, q: CategoryQueue): (r: (CategoryQueue, Option<string>))
    ensures r.1.Some? <==> connected && !q.active && q.jobs != []
    ensures r.1.None? ==> r.0 == q && (connected && !q.active ==> q.jobs == [])
    ensures r.1.Some? ==> r.0.active && [Job(q.jobs[0].jobType, r.1.value)] + r.0.jobs == q.jobs
  {
    if !connected || q.active then (q, None)
    else if q.jobs == [] then (q.(active := false), None)
    else (CategoryQueue(q.jobs[1..], true), Some(q.jobs[0].identifier))
  }
}
