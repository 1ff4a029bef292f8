/**
 * The two pieces of relay-capability logic in the worker: the NIP-11 gate that decides
 * whether an addressable event (NIP-33) may be published on a relay, and the scheme of
 * the NIP-11 information URL derived from the relay's websocket URL.
 */
module Nip {
  import opened Nostr

  /** Kinds the worker publishes only to relays that announce NIP-33 support. */
  predicate NeedsNip33(kind: int)
  {
    kind == KindLongFormArticle || kind == KindProfileBadges || kind == KindBadgeDefinition
  }

  /** `supported_nips.includes(n)`. */
  function Includes(nips: seq<int>, n: int): (r: bool)
    ensures r <==> n in nips
  {
    if nips == [] then false
    else if nips[0] == n then true
    else
      assert nips == [nips[0]] + nips[1..];
      Includes(nips[1..], n)
  }

  /** The three outcomes of the gate: the event is sent, or skipped for one of two reasons. */
  datatype Gate = Send | SkipNoNip11 | SkipNoNip33

  /** The branch `publish` takes before calling the relay. */
  function PublishGate(kind: int, nip11: Option<Nip11>): (g: Gate)
    ensures g == Send <==> !NeedsNip33(kind) || (nip11.Some? && 33 in nip11.value.supportedNips)
    ensures g == SkipNoNip11 <==> NeedsNip33(kind) && nip11.None?
    ensures g == SkipNoNip33 <==> NeedsNip33(kind) && nip11.Some? && 33 !in nip11.value.supportedNips
  {
    if NeedsNip33(kind) then
      match nip11
      case None => SkipNoNip11
      case Some(doc) => if !Includes(doc.supportedNips, 33) then SkipNoNip33 else Send
    else Send
  }

  /** Events of any other kind are sent whatever the relay's document says, even with none. */
  lemma OrdinaryKindsAlwaysSent(kind: int, nip11: Option<Nip11>)
    requires kind != KindLongFormArticle && kind != KindProfileBadges && kind != KindBadgeDefinition
    ensures PublishGate(kind, nip11) == Send
  {
  }

  /** A relay whose document lists NIP-33 accepts every kind; one without a document accepts no addressable kind. */
  lemma GateByDocument(kind: int, doc: Nip11)
    ensures 33 in doc.supportedNips ==> PublishGate(kind, Some(doc)) == Send
    ensures NeedsNip33(kind) ==> PublishGate(kind, None) != Send
  {
  }

  /** `url.protocol === 'ws:' ? 'http' : 'https'`. */
  function InfoScheme(protocol: string): (s: string)
    ensures s == "http" || s == "https"
    ensures s == "http" <==> protocol == "ws:"
  {
    if protocol == "ws:" then "http" else "https"
  }

  /** `${protocol}://${url.host}`. */
  function InfoUrl(protocol: string, host: string): string
  {
    InfoScheme(protocol) + "://" + host
  }

  /** Plain websockets map to plain HTTP and every other scheme (wss:) to HTTPS; the host is kept. */
  lemma InfoUrlSchemes(host: string)
    ensures InfoUrl("ws:", host) == "http://" + host
    ensures InfoUrl("wss:", host) == "https://" + host
    ensures InfoUrl("wss:", host)[|"https://"|..] == host
  {
  }
}
