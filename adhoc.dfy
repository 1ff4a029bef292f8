/**
 * The worker's list of ad-hoc subscriptions (`subscriptions`), keyed by the id the app
 * chose, and what replaying queued requests does to the ids it holds.
 */
module AdHoc {
  import opened Nostr
  import opened Dedup
  import opened Queues

  /**
   * One entry of `subscriptions`: { id, filters, sub }. The relay subscription object is
   * not kept: while the relay is connected, every listed entry's subscription is live.
   */
  datatype AdHocSub = AdHocSub(id: string, filters: seq<Filter>)

  function Ids(subs: seq<AdHocSub>): (ids: seq<string>)
    ensures |ids| == |subs|
    ensures forall i :: 0 <= i < |subs| ==> ids[i] == subs[i].id
  {
    seq(|subs|, i requires 0 <= i < |subs| => subs[i].id)
  }

  /** `subscriptions.findIndex((s) => s.id == id)`. */
  function FindIndex(subs: seq<AdHocSub>, id: string): (i: int)
    ensures -1 <= i < |subs|
    ensures i == -1 <==> id !in Ids(subs)
    ensures 0 <= i ==> subs[i].id == id && forall k :: 0 <= k < i ==> subs[k].id != id
  {
    var ids := Ids(subs);
    var i := IndexOf(ids, id);
    NotBeforeIndexOf(ids, id);
    assert forall k :: 0 <= k < i ==> ids[..i][k] == ids[k];
    i
  }

  /** `subscriptions.splice(i, 1)`. */
  function RemoveAt(subs: seq<AdHocSub>, i: nat): (r: seq<AdHocSub>)
    requires i < |subs|
    ensures |r| == |subs| - 1
  {
    subs[..i] + subs[i + 1..]
  }

  lemma IdsRemoveAt(subs: seq<AdHocSub>, i: nat)
    requires i < |subs|
    ensures Ids(RemoveAt(subs, i)) == Ids(subs)[..i] + Ids(subs)[i + 1..]
  {
  }

  /** Dropping the element at i from a sequence without repeats drops that value and only it. */
  lemma RemoveFromDistinct(ids: seq<string>, i: nat)
    requires i < |ids| && NoDuplicates(ids)
    ensures var r := ids[..i] + ids[i + 1..];
      NoDuplicates(r) && forall x :: x in r <==> x in ids && x != ids[i]
  {
    var r := ids[..i] + ids[i + 1..];
    assert forall k :: 0 <= k < |r| ==> r[k] == ids[if k < i then k else k + 1];
    forall x ensures x in r <==> x in ids && x != ids[i] {
      if x in ids && x != ids[i] {
        var k :| 0 <= k < |ids| && ids[k] == x;
        assert r[if k < i then k else k - 1] == x;
      }
    }
  }

  /**
   * In a list with distinct ids, removing the entry found for `id` removes that id and
   * only it, keeps the other entries in their order, and keeps the ids distinct.
   */
  lemma RemoveOnlyThat(subs: seq<AdHocSub>, id: string)
    requires NoDuplicates(Ids(subs))
    requires id in Ids(subs)
    ensures var r := RemoveAt(subs, FindIndex(subs, id));
      (forall x :: x in Ids(r) <==> x in Ids(subs) && x != id) &&
      NoDuplicates(Ids(r)) &&
      Ids(r) == Ids(subs)[..FindIndex(subs, id)] + Ids(subs)[FindIndex(subs, id) + 1..]
  {
    var i := FindIndex(subs, id);
    IdsRemoveAt(subs, i);
    RemoveFromDistinct(Ids(subs), i);
  }

  /** The ids after `subscribe(filters, id)` on a connected relay: appended unless present. */
  function SubscribeIds(ids: seq<string>, id: string): (r: seq<string>)
    ensures id in r
    ensures forall x :: x in r <==> x in ids || x == id
    ensures NoDuplicates(ids) ==> NoDuplicates(r)
  {
    if id in ids then ids else ids + [id]
  }

  /** `subscribe(filters, id)` on a connected relay: a new entry is appended unless the id is listed. */
  function AddSub(subs: seq<AdHocSub>, id: string, filters: seq<Filter>): (r: seq<AdHocSub>)
    ensures Ids(r) == SubscribeIds(Ids(subs), id)
    ensures id in Ids(subs) ==> r == subs
    ensures id !in Ids(subs) ==> r == subs + [AdHocSub(id, filters)]
  {
    if id in Ids(subs) then subs
    else
      assert Ids(subs + [AdHocSub(id, filters)]) == Ids(subs) + [id];
      subs + [AdHocSub(id, filters)]
  }

  /**
   * The ids of queued requests. The same projection as Ids, over the request record
   * rather than the listed entry; each is its own function so that quantifiers over
   * either list trigger on a plain index term.
   */
  function RequestIds(reqs: seq<SubRequest>): (r: seq<string>)
    ensures |r| == |reqs|
    ensures forall i :: 0 <= i < |reqs| ==> r[i] == reqs[i].id
  {
    seq(|reqs|, i requires 0 <= i < |reqs| => reqs[i].id)
  }

  /** The list after the requests `reqs` are subscribed one after the other, first to last. */
  function Replay(subs: seq<AdHocSub>, reqs: seq<SubRequest>): seq<AdHocSub>
  {
    if reqs == [] then subs
    else
      var last := reqs[|reqs| - 1];
      AddSub(Replay(subs, reqs[..|reqs| - 1]), last.id, last.filters)
  }

  /** The last request of a replay is subscribed onto the replay of the others. */
  lemma ReplaySnoc(subs: seq<AdHocSub>, reqs: seq<SubRequest>)
    requires reqs != []
    ensures Ids(Replay(subs, reqs)) == SubscribeIds(Ids(Replay(subs, reqs[..|reqs| - 1])), reqs[|reqs| - 1].id)
  {
    var last := reqs[|reqs| - 1];
    assert Replay(subs, reqs) == AddSub(Replay(subs, reqs[..|reqs| - 1]), last.id, last.filters);
  }

  lemma RequestIdsSnoc(reqs: seq<SubRequest>)
    requires reqs != []
    ensures RequestIds(reqs) == RequestIds(reqs[..|reqs| - 1]) + [reqs[|reqs| - 1].id]
  {
    var front := reqs[..|reqs| - 1];
    assert forall i :: 0 <= i < |front| ==> RequestIds(reqs)[i] == RequestIds(front)[i];
  }

  /**
   * Replaying requests on a list with distinct ids gives the first-seen deduplication of
   * the listed ids followed by the requested ids: a request whose id is already present
   * (listed or requested earlier) has no effect.
   */
  lemma {:induction false} ReplayIsUnique(subs: seq<AdHocSub>, reqs: seq<SubRequest>)
    requires NoDuplicates(Ids(subs))
    ensures Ids(Replay(subs, reqs)) == Unique(Ids(subs) + RequestIds(reqs))
    decreases |reqs|
  {
    var ids := Ids(subs);
    if reqs == [] {
      assert ids + RequestIds(reqs) == ids;
      UniqueOfDistinct(ids);
    } else {
      ReplayIsUnique(subs, reqs[..|reqs| - 1]);
      ReplayUniqueStep(subs, reqs);
    }
  }

  /** The step of ReplayIsUnique: one more request keeps the replay equal to the deduplication. */
  lemma ReplayUniqueStep(subs: seq<AdHocSub>, reqs: seq<SubRequest>)
    requires reqs != []
    requires Ids(Replay(subs, reqs[..|reqs| - 1])) == Unique(Ids(subs) + RequestIds(reqs[..|reqs| - 1]))
    ensures Ids(Replay(subs, reqs)) == Unique(Ids(subs) + RequestIds(reqs))
  {
    var x := reqs[|reqs| - 1].id;
    ReplaySnoc(subs, reqs);
    RequestIdsSnoc(reqs);
    var a := Ids(subs) + RequestIds(reqs[..|reqs| - 1]);
    assert Ids(subs) + RequestIds(reqs) == a + [x];
    UniqueSnoc(a, x);
    UniqueCharacterised(a);
  }

  /** Request k is the first of the queued requests with its id. */
  ghost predicate FirstOfId(reqs: seq<SubRequest>, k: int)
    requires 0 <= k < |reqs|
  {
    forall j :: 0 <= j < k ==> reqs[j].id != reqs[k].id
  }

  /** `e` is the entry a replay adds for a request: the first with its id, an id not listed before. */
  ghost predicate AddedFor(subs: seq<AdHocSub>, reqs: seq<SubRequest>, e: AdHocSub)
  {
    exists k :: 0 <= k < |reqs| && FirstOfId(reqs, k) && reqs[k].id !in Ids(subs) &&
      e == AdHocSub(reqs[k].id, reqs[k].filters)
  }

  /**
   * `r` keeps the entries of `subs` unchanged and in front, lists every requested id, and
   * each entry after those of `subs` is the one added for some request.
   */
  ghost predicate ReplayListing(subs: seq<AdHocSub>, reqs: seq<SubRequest>, r: seq<AdHocSub>)
  {
    |subs| <= |r| && r[..|subs|] == subs &&
    (forall j :: 0 <= j < |reqs| ==> reqs[j].id in Ids(r)) &&
    (forall i :: |subs| <= i < |r| ==> AddedFor(subs, reqs, r[i]))
  }

  /**
   * What a replay lists: the entries it started with, unchanged and in front, then one
   * entry per newly seen id, carrying the filters of the first request with that id.
   * Every requested id is listed afterwards.
   */
  lemma {:induction false} ReplayEntries(subs: seq<AdHocSub>, reqs: seq<SubRequest>)
    ensures ReplayListing(subs, reqs, Replay(subs, reqs))
    decreases |reqs|
  {
    if reqs == [] {
      assert Replay(subs, reqs) == subs;
      assert subs[..|subs|] == subs;
    } else {
      ReplayEntries(subs, reqs[..|reqs| - 1]);
      ReplayEntriesStep(subs, reqs);
    }
  }

  /** The ids of a prefix are the prefix of the ids. */
  lemma IdsPrefix(r: seq<AdHocSub>, n: nat)
    requires n <= |r|
    ensures Ids(r[..n]) == Ids(r)[..n]
  {
  }

  /** An entry added for the requests before the last is still one added for all of them. */
  lemma AddedForExtends(subs: seq<AdHocSub>, reqs: seq<SubRequest>, e: AdHocSub)
    requires reqs != [] && AddedFor(subs, reqs[..|reqs| - 1], e)
    ensures AddedFor(subs, reqs, e)
  {
    var front := reqs[..|reqs| - 1];
    var k :| 0 <= k < |front| && FirstOfId(front, k) && front[k].id !in Ids(subs) &&
      e == AdHocSub(front[k].id, front[k].filters);
    assert front[k] == reqs[k];
    forall j | 0 <= j < k ensures reqs[j].id != reqs[k].id {
      assert front[j] == reqs[j];
    }
    assert FirstOfId(reqs, k);
  }

  /** The step of ReplayEntries: subscribing the last request onto the replay of the others. */
  lemma ReplayEntriesStep(subs: seq<AdHocSub>, reqs: seq<SubRequest>)
    requires reqs != []
    requires ReplayListing(subs, reqs[..|reqs| - 1], Replay(subs, reqs[..|reqs| - 1]))
    ensures ReplayListing(subs, reqs, Replay(subs, reqs))
  {
    var front := reqs[..|reqs| - 1];
    var last := reqs[|reqs| - 1];
    var r0 := Replay(subs, front);
    assert Replay(subs, reqs) == AddSub(r0, last.id, last.filters);
    forall i | |subs| <= i < |r0| ensures AddedFor(subs, reqs, r0[i]) {
      AddedForExtends(subs, reqs, r0[i]);
    }
    if last.id in Ids(r0) {
      ReplayListingKept(subs, reqs, r0);
    } else {
      ReplayListingAdded(subs, reqs, r0);
    }
  }

  /** A last request whose id is already listed leaves the listing as it was. */
  lemma ReplayListingKept(subs: seq<AdHocSub>, reqs: seq<SubRequest>, r0: seq<AdHocSub>)
    requires reqs != [] && reqs[|reqs| - 1].id in Ids(r0)
    requires ReplayListing(subs, reqs[..|reqs| - 1], r0)
    requires forall i :: |subs| <= i < |r0| ==> AddedFor(subs, reqs, r0[i])
    ensures ReplayListing(subs, reqs, r0)
  {
    var front := reqs[..|reqs| - 1];
    forall j | 0 <= j < |reqs| ensures reqs[j].id in Ids(r0) {
      if j < |reqs| - 1 {
        assert front[j] == reqs[j];
      }
    }
  }

  /** A last request with a new id appends its entry, the one added for it. */
  lemma ReplayListingAdded(subs: seq<AdHocSub>, reqs: seq<SubRequest>, r0: seq<AdHocSub>)
    requires reqs != [] && reqs[|reqs| - 1].id !in Ids(r0)
    requires ReplayListing(subs, reqs[..|reqs| - 1], r0)
    requires forall i :: |subs| <= i < |r0| ==> AddedFor(subs, reqs, r0[i])
    ensures var last := reqs[|reqs| - 1];
      ReplayListing(subs, reqs, r0 + [AdHocSub(last.id, last.filters)])
  {
    var n := |reqs|;
    var front := reqs[..n - 1];
    var last := reqs[n - 1];
    var e := AdHocSub(last.id, last.filters);
    var r := r0 + [e];
    assert Ids(r) == Ids(r0) + [last.id];
    assert r[..|subs|] == r0[..|subs|];
    IdsPrefix(r0, |subs|);
    assert last.id !in Ids(subs);
    forall j | 0 <= j < n - 1 ensures reqs[j].id != last.id {
      assert front[j] == reqs[j];
    }
    assert FirstOfId(reqs, n - 1);
    assert AddedFor(subs, reqs, e);
    forall j | 0 <= j < n ensures reqs[j].id in Ids(r) {
      if j < n - 1 {
        assert front[j] == reqs[j];
      }
    }
    forall i | |subs| <= i < |r| ensures AddedFor(subs, reqs, r[i]) {
      if i < |r0| {
        assert r[i] == r0[i];
      }
    }
  }
}
