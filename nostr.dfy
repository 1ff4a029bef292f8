/** Values the relay worker exchanges with the relay and with its host. */
module Nostr {

  datatype Option<+T> = None | Some(value: T)

  /** Event kinds the worker uses (NIP-01, NIP-02, NIP-23, NIP-58). */
  const KindMetadata := 0
  const KindShortTextNote := 1
  const KindContacts := 3
  const KindLongFormArticle := 30023
  const KindProfileBadges := 30008
  const KindBadgeDefinition := 30009

  /** The part of a relay event the worker looks at. */
  datatype NostrEvent = NostrEvent(id: string, pubkey: string, kind: int)

  /** The part of a relay's NIP-11 information document the worker looks at. */
  datatype Nip11 = Nip11(supportedNips: seq<int>)

  /** A subscription filter, in the three shapes the worker builds. */
  datatype Filter =
    | AuthorsFilter(kind: int, authors: seq<string>)          // { kinds: [kind], authors }
    | IdsFilter(kind: int, ids: seq<string>)                  // { kinds: [kind], ids }
    | AddressFilter(kind: int, author: Option<string>, d: string)
      // { kinds: [kind], authors: [author], '#d': [d] }; None is JavaScript's undefined

  /** A message posted to the host; every one also carries the relay url, left implicit here. */
  datatype Message =
    | StatusMsg(data: int)                                    // 'status': 1 connected, 0 closed
    | EventMsg(event: NostrEvent, subscription: Option<string>)
    | NoticeMsg(text: string)
    | TimeoutMsg(tag: string, identifiers: seq<string>)
    | ErrorMsg(error: string)
    | FailureMsg(error: string)
    | TerminatedMsg
    | Nip11Msg(document: Nip11)
    | Nip11ErrorMsg(error: string)
}
