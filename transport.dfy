/**
 * What the worker hands to the relay library: the filters of each download, and the data
 * a download's timer callback captured. At most one subscription and one timer per
 * category is ever live, so the library's objects are named by their category.
 */
module Transport {
  import opened Nostr
  import opened Queues
  import opened BadgeIds

  /** A timer and the data its callback captured; seconds is the delay it was armed with. */
  datatype TimerInfo =
    | BatchTimer(ids: seq<string>, seconds: nat)    // downloadProfile / downloadEvent / downloadArticle / downloadBadgeDefinition
    | ContactsTimer(cycle: nat, seconds: nat)       // the cycle-th downloadContacts call

  /** The event kind each category downloads. */
  function KindOf(c: Category): int
  {
    match c
    case Profile => KindMetadata
    case Contacts => KindContacts
    case Event => KindShortTextNote
    case Article => KindLongFormArticle
    case BadgeDefinition => KindBadgeDefinition
  }

  /**
   * The filters a batch download subscribes with: authors for profiles, ids for short
   * notes, authors (the identifiers are taken as public keys) for articles, and one
   * address filter per identifier for badge definitions.
   */
  function CategoryFilters(c: Batched, ids: seq<string>): (fs: seq<Filter>)
    ensures forall i :: 0 <= i < |fs| ==> fs[i].kind == KindOf(c)
    ensures c != BadgeDefinition ==> |fs| == 1
    ensures c == BadgeDefinition ==> |fs| == |ids|
  {
    match c
    case Profile => [AuthorsFilter(KindMetadata, ids)]
    case Event => [IdsFilter(KindShortTextNote, ids)]
    case Article => [AuthorsFilter(KindLongFormArticle, ids)]
    case BadgeDefinition => BadgeFilters(ids)
  }

  /** Every identifier of a batch is asked for: as an author, an id, or an address. */
  lemma CategoryFiltersCover(c: Batched, ids: seq<string>)
    ensures c == Profile || c == Article ==> CategoryFilters(c, ids)[0].authors == ids
    ensures c == Event ==> CategoryFilters(c, ids)[0].ids == ids
    ensures c == BadgeDefinition ==> forall i :: 0 <= i < |ids| ==>
      CategoryFilters(c, ids)[i] == AddressFilter(KindBadgeDefinition, ParseBadgeId(ids[i]).pubkey, ParseBadgeId(ids[i]).slug)
  {
  }

  /** The single filter of a contacts download: the contact list (kind 3) of one author. */
  function ContactsFilters(pubkey: string): seq<Filter>
  {
    [AuthorsFilter(KindContacts, [pubkey])]
  }

  /** clearArticleSub and clearBadgeDefinitionSub forget the timer field, not the subscription field. */
  predicate ClearForgetsTimer(c: Category)
  {
    c == Article || c == BadgeDefinition
  }

  /** `downloadContacts`' default timeout. */
  const ContactsTimeoutSeconds: nat := 3000
}
