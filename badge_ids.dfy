/**
 * Badge-definition addresses (NIP-58 badges are NIP-33 addressable events): the worker
 * turns each "30009:<pubkey>:<slug>" identifier into a filter on kind, author and d-tag,
 * using String.prototype.split and String.prototype.replace (first occurrence only).
 */
module BadgeIds {
  import opened Nostr
  import opened Dedup

  /** `pat` occurs in `s` starting at index k. */
  ghost predicate OccursAt(s: string, pat: string, k: int)
  {
    0 <= k <= |s| - |pat| && s[k..k + |pat|] == pat
  }

  /** Start of the first occurrence of `pat` in `s`, or -1 (String.prototype.indexOf on strings). */
  function FindSub(s: string, pat: string): (i: int)
    ensures i == -1 || OccursAt(s, pat, i)
    decreases |s|
  {
    if |pat| > |s| then -1
    else if s[..|pat|] == pat then 0
    else
      var j := FindSub(s[1..], pat);
      assert j >= 0 ==> s[1..][j..j + |pat|] == s[j + 1..j + 1 + |pat|];
      if j == -1 then -1 else j + 1
  }

  /** The index FindSub returns is the first occurrence, and -1 means there is none. */
  lemma {:induction false} FindSubFirst(s: string, pat: string)
    ensures forall k :: 0 <= k < FindSub(s, pat) ==> !OccursAt(s, pat, k)
    ensures FindSub(s, pat) == -1 ==> forall k :: !OccursAt(s, pat, k)
    decreases |s|
  {
    if |pat| <= |s| && s[..|pat|] != pat {
      FindSubFirst(s[1..], pat);
      assert !OccursAt(s, pat, 0) by { assert s[0..|pat|] == s[..|pat|]; }
      forall k | 1 <= k ensures OccursAt(s, pat, k) <==> OccursAt(s[1..], pat, k - 1) {
        if k <= |s| - |pat| {
          assert s[1..][k - 1..k - 1 + |pat|] == s[k..k + |pat|];
        }
      }
    }
  }

  /** `s.replace(pat, rep)` with a string pattern: only the first occurrence is replaced. */
  function ReplaceFirst(s: string, pat: string, rep: string): (r: string)
  {
    var i := FindSub(s, pat);
    if i == -1 then s else s[..i] + rep + s[i + |pat|..]
  }

  /** `s.split(':')[1]`: the text between the first and the second colon; None (undefined) without a colon. */
  function SecondField(s: string): (r: Option<string>)
    ensures r.None? <==> ':' !in s
    ensures r.Some? ==> ':' !in r.value
  {
    var i := IndexOf(s, ':');
    if i == -1 then None
    else
      var rest := s[i + 1..];
      var j := IndexOf(rest, ':');
      NotBeforeIndexOf(rest, ':');
      Some(if j == -1 then rest else rest[..j])
  }

  /** The author and slug the worker reads out of a badge-definition identifier. */
  datatype BadgeRef = BadgeRef(pubkey: Option<string>, slug: string)

  /**
   * lines = id.split(':'); pubkey = lines[1];
   * slug = id.replace('30009:', '').replace(pubkey + ':', '').
   * An undefined pubkey concatenates as the text "undefined".
   */
  function ParseBadgeId(id: string): (r: BadgeRef)
    ensures r.pubkey.None? <==> ':' !in id
    ensures r.pubkey.Some? ==> ':' !in r.pubkey.value
  {
    var pubkey := SecondField(id);
    var pubkeyText := match pubkey case None => "undefined" case Some(p) => p;
    BadgeRef(pubkey, ReplaceFirst(ReplaceFirst(id, "30009:", ""), pubkeyText + ":", ""))
  }

  /** { kinds: [30009], authors: [pubkey], '#d': [slug] } for one identifier. */
  function BadgeFilter(id: string): Filter
  {
    var b := ParseBadgeId(id);
    AddressFilter(KindBadgeDefinition, b.pubkey, b.slug)
  }

  /**
   * `xs.map(f)`, for a function value. The field projections Queues.Identifiers, AdHoc.Ids
   * and AdHoc.RequestIds are written out as named functions instead, so that their facts
   * hang on a plain index term rather than on a lambda.
   */
  function MapSeq<A, B>(f: A -> B, xs: seq<A>): (r: seq<B>)
    ensures |r| == |xs|
    ensures forall i :: 0 <= i < |xs| ==> r[i] == f(xs[i])
  {
    seq(|xs|, i requires 0 <= i < |xs| => f(xs[i]))
  }

  /** Mapping one more element appends its image. */
  lemma MapSeqSnoc<A, B>(f: A -> B, xs: seq<A>, n: nat)
    requires n < |xs|
    ensures MapSeq(f, xs[..n + 1]) == MapSeq(f, xs[..n]) + [f(xs[n])]
  {
    var a := MapSeq(f, xs[..n + 1]);
    var b := MapSeq(f, xs[..n]) + [f(xs[n])];
    forall i | 0 <= i < |a| ensures a[i] == b[i] {
      assert xs[..n + 1][i] == xs[i];
    }
  }

  /** One filter per identifier, in order. */
  function BadgeFilters(ids: seq<string>): (r: seq<Filter>)
    ensures |r| == |ids|
    ensures forall i :: 0 <= i < |ids| ==> r[i] == BadgeFilter(ids[i])
  {
    MapSeq(BadgeFilter, ids)
  }

  /** The filter-building loop of downloadBadgeDefinition. */
  method BuildBadgeFilters(ids: seq<string>) returns (filters: seq<Filter>)
    ensures filters == BadgeFilters(ids)
  {
    filters := [];
    var index := 0;
    while index < |ids|
      invariant 0 <= index <= |ids|
      invariant filters == MapSeq(BadgeFilter, ids[..index])
    {
      MapSeqSnoc(BadgeFilter, ids, index);
      filters := filters + [BadgeFilter(ids[index])];
      index := index + 1;
    }
    assert ids[..index] == ids;
  }

  /** Replacing a pattern the text starts with removes exactly that prefix. */
  lemma ReplacePrefix(t: string, pre: string)
    requires |pre| <= |t| && t[..|pre|] == pre
    ensures ReplaceFirst(t, pre, "") == t[|pre|..]
  {
    assert FindSub(t, pre) == 0;
  }

  /** The second colon-separated field of "30009:" + p + ":" + s is p when p has no colon. */
  lemma SecondFieldComposed(p: string, s: string)
    requires ':' !in p
    ensures SecondField("30009:" + p + ":" + s) == Some(p)
  {
    var id := "30009:" + p + ":" + s;
    var rest := p + ":" + s;
    assert id == "30009" + ":" + rest;
    FirstColon("30009", rest);
    assert id[6..] == rest;
    FirstColon(p, s);
    assert rest[..|p|] == p;
  }

  lemma FirstColon(p: string, rest: string)
    requires ':' !in p
    ensures IndexOf(p + ":" + rest, ':') == |p|
  {
    var s := p + ":" + rest;
    var i := IndexOf(s, ':');
    assert s[|p|] == ':';
    assert s[..|p|] == p;
    IndexOfAtMost(s, |p|);
    PrefixElement(s, p, i);
  }

  lemma PrefixElement(s: string, p: string, i: int)
    requires |p| <= |s| && s[..|p|] == p
    ensures 0 <= i < |p| ==> s[i] in p
  {
    if 0 <= i < |p| {
      assert s[i] == p[i];
    }
  }

  /**
   * A well-formed identifier "30009:" + p + ":" + s, where p has no colon, parses to
   * author p and slug s; colons inside the slug are kept.
   */
  lemma {:induction false} ParseComposedBadgeId(p: string, s: string)
    requires ':' !in p
    ensures ParseBadgeId("30009:" + p + ":" + s) == BadgeRef(Some(p), s)
  {
    var rest := p + ":" + s;
    var id := "30009:" + rest;
    assert "30009:" + p + ":" + s == id;
    SecondFieldComposed(p, s);
    StripKindPrefix(rest);
    StripAuthor(p, s);
    assert ParseBadgeId(id) == BadgeRef(Some(p), ReplaceFirst(ReplaceFirst(id, "30009:", ""), p + ":", ""));
  }

  /** The second replace of ParseBadgeId removes the author and its colon. */
  lemma StripAuthor(p: string, s: string)
    ensures ReplaceFirst(p + ":" + s, p + ":", "") == s
  {
    var rest := p + ":" + s;
    assert rest[..|p + ":"|] == p + ":" && rest[|p + ":"|..] == s;
    ReplacePrefix(rest, p + ":");
  }

  /** The first replace of ParseBadgeId removes the leading "30009:". */
  lemma StripKindPrefix(rest: string)
    ensures ReplaceFirst("30009:" + rest, "30009:", "") == rest
  {
    var id := "30009:" + rest;
    assert id[..6] == "30009:" && id[6..] == rest;
    ReplacePrefix(id, "30009:");
  }

  /** For well-formed identifiers the loop yields exactly one author/d-tag filter per identifier, in order. */
  lemma BadgeFiltersOfComposed(ps: seq<string>, ss: seq<string>, ids: seq<string>)
    requires |ps| == |ss| == |ids|
    requires forall i :: 0 <= i < |ids| ==> ':' !in ps[i] && ids[i] == "30009:" + ps[i] + ":" + ss[i]
    ensures forall i :: 0 <= i < |ids| ==>
      BadgeFilters(ids)[i] == AddressFilter(KindBadgeDefinition, Some(ps[i]), ss[i])
  {
    forall i | 0 <= i < |ids|
      ensures BadgeFilters(ids)[i] == AddressFilter(KindBadgeDefinition, Some(ps[i]), ss[i])
    {
      ParseComposedBadgeId(ps[i], ss[i]);
    }
  }

  /** The example identifier "30009:AUTHORHEX:my:slug" has author AUTHORHEX and slug "my:slug". */
  lemma ParseExample(id: string)
    requires id == "30009:AUTHORHEX:my:slug"
    ensures ParseBadgeId(id) == BadgeRef(Some("AUTHORHEX"), "my:slug")
  {
    assert id == "30009:" + "AUTHORHEX" + ":" + "my:slug";
    ParseComposedBadgeId("AUTHORHEX", "my:slug");
  }
}
