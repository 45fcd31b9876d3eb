/** The postback guide: the URL each guide card shows,
    `${baseUrl}?${params.map(p => `${p.key}=${p.value}`).join('&')}`,
    and the three fixed parameter lists of the guide. The `desc` texts of the
    parameters are localised display strings and are not modelled. */
module Postback {

  datatype Param = Param(key: string, value: string)

  /** `${p.key}=${p.value}` */
  function RenderParam(p: Param): string
  {
    p.key + "=" + p.value
  }

  /** params.map(RenderParam) */
  function RenderAll(params: seq<Param>): (r: seq<string>)
    ensures |r| == |params|
    ensures forall i :: 0 <= i < |params| ==> r[i] == RenderParam(params[i])
  {
    if params == [] then [] else [RenderParam(params[0])] + RenderAll(params[1..])
  }

  /** Array.prototype.join with a one-character separator. */
  function Join(parts: seq<string>, sep: char): string
  {
    if parts == [] then ""
    else if |parts| == 1 then parts[0]
    else parts[0] + [sep] + Join(parts[1..], sep)
  }

  /** The query string of a card. */
  function Query(params: seq<Param>): string
  {
    Join(RenderAll(params), '&')
  }

  /** The URL a card displays and copies. */
  function BuildUrl(baseUrl: string, params: seq<Param>): (url: string)
    ensures |url| >= |baseUrl| + 1
    ensures url[..|baseUrl| + 1] == baseUrl + "?"
    ensures url[|baseUrl| + 1..] == Query(params)
    ensures params == [] ==> url == baseUrl + "?"
  {
    baseUrl + "?" + Query(params)
  }

  // ---------------------------------------------------------------------
  // Reading a URL back: the partner of BuildUrl
  // ---------------------------------------------------------------------

  /** The number of occurrences of c in s. */
  function Occurrences(s: string, c: char): nat
  {
    if s == [] then 0 else (if s[0] == c then 1 else 0) + Occurrences(s[1..], c)
  }

  lemma {:induction false} OccurrencesAppend(a: string, b: string, c: char)
    ensures Occurrences(a + b, c) == Occurrences(a, c) + Occurrences(b, c)
  {
    if a == [] {
      assert a + b == b;
    } else {
      assert (a + b)[1..] == a[1..] + b;
      OccurrencesAppend(a[1..], b, c);
    }
  }

  lemma {:induction false} OccurrencesZero(s: string, c: char)
    ensures Occurrences(s, c) == 0 <==> c !in s
  {
    if s != [] {
      OccurrencesZero(s[1..], c);
      assert s == [s[0]] + s[1..];
    }
  }

  /** The index of the first c in s, or |s| when there is none. */
  function IndexOf(s: string, c: char): (i: nat)
    ensures i <= |s|
    ensures forall k :: 0 <= k < i ==> s[k] != c
    ensures i < |s| ==> s[i] == c
  {
    if s == [] then 0 else if s[0] == c then 0 else 1 + IndexOf(s[1..], c)
  }

  /** String.prototype.split with a one-character separator. */
  function Split(s: string, sep: char): seq<string>
    decreases |s|
  {
    var i := IndexOf(s, sep);
    if i == |s| then [s] else [s[..i]] + Split(s[i + 1..], sep)
  }

  /** Splits a rendered pair at its first '='. */
  function ParseParam(s: string): Param
  {
    var i := IndexOf(s, '=');
    if i == |s| then Param(s, "") else Param(s[..i], s[i + 1..])
  }

  function ParseAll(pairs: seq<string>): (r: seq<Param>)
    ensures |r| == |pairs|
  {
    if pairs == [] then [] else [ParseParam(pairs[0])] + ParseAll(pairs[1..])
  }

  /** Splits a URL into its base and its parameters: the base ends at the
      first '?', and an empty query has no parameter. */
  function ParseUrl(url: string): (string, seq<Param>)
  {
    var q := IndexOf(url, '?');
    if q == |url| then (url, [])
    else
      var query := url[q + 1..];
      (url[..q], if query == "" then [] else ParseAll(Split(query, '&')))
  }

  /** The parameters a URL can carry unambiguously. */
  ghost predicate PlainParams(params: seq<Param>)
  {
    forall i :: 0 <= i < |params| ==>
      '&' !in params[i].key && '=' !in params[i].key && '&' !in params[i].value
  }

  lemma IndexOfPrefix(a: string, b: string, c: char)
    requires c !in a
    ensures IndexOf(a + b, c) == |a| + IndexOf(b, c)
    decreases |a|
  {
    if a == [] {
      assert a + b == b;
    } else {
      assert (a + b)[1..] == a[1..] + b;
      IndexOfPrefix(a[1..], b, c);
    }
  }

  lemma {:induction false} SplitJoin(parts: seq<string>, sep: char)
    requires |parts| > 0
    requires forall i :: 0 <= i < |parts| ==> sep !in parts[i]
    ensures Split(Join(parts, sep), sep) == parts
  {
    var s := Join(parts, sep);
    if |parts| == 1 {
      IndexOfPrefix(parts[0], [], sep);
      assert parts[0] + [] == parts[0];
    } else {
      var rest := Join(parts[1..], sep);
      assert s == parts[0] + ([sep] + rest);
      IndexOfPrefix(parts[0], [sep] + rest, sep);
      assert IndexOf(s, sep) == |parts[0]|;
      assert s[..|parts[0]|] == parts[0];
      assert s[|parts[0]| + 1..] == rest;
      SplitJoin(parts[1..], sep);
    }
  }

  lemma ParseRender(p: Param)
    requires '=' !in p.key
    ensures ParseParam(RenderParam(p)) == p
  {
    IndexOfPrefix(p.key, "=" + p.value, '=');
    var s := RenderParam(p);
    assert s == p.key + ("=" + p.value);
    assert s[..|p.key|] == p.key;
    assert s[|p.key| + 1..] == p.value;
  }

  lemma {:induction false} ParseAllRender(params: seq<Param>)
    requires forall i :: 0 <= i < |params| ==> '=' !in params[i].key
    ensures ParseAll(RenderAll(params)) == params
  {
    if params != [] {
      ParseRender(params[0]);
      ParseAllRender(params[1..]);
      assert RenderAll(params) == [RenderParam(params[0])] + RenderAll(params[1..]);
    }
  }

  lemma RenderedPairsHaveNoAmpersand(params: seq<Param>)
    requires PlainParams(params)
    ensures forall i :: 0 <= i < |params| ==> '&' !in RenderAll(params)[i]
  {
  }

  /** Reading back a built URL gives the base URL and the parameters in
      their order, whenever the base has no '?', no key holds '&' or '=',
      and no value holds '&'. */
  lemma BuildUrlRoundTrip(baseUrl: string, params: seq<Param>)
    requires '?' !in baseUrl && PlainParams(params)
    ensures ParseUrl(BuildUrl(baseUrl, params)) == (baseUrl, params)
  {
    var url := BuildUrl(baseUrl, params);
    IndexOfPrefix(baseUrl, "?" + Query(params), '?');
    assert url == baseUrl + ("?" + Query(params));
    assert url[..|baseUrl|] == baseUrl;
    assert url[|baseUrl| + 1..] == Query(params);
    if params != [] {
      RenderedPairsHaveNoAmpersand(params);
      SplitJoin(RenderAll(params), '&');
      ParseAllRender(params);
      assert Query(params) != "" by {
        JoinStartsWithFirst(RenderAll(params), '&');
      }
    }
  }

  lemma JoinStartsWithFirst(parts: seq<string>, sep: char)
    requires |parts| > 0
    ensures |Join(parts, sep)| >= |parts[0]|
    ensures Join(parts, sep)[..|parts[0]|] == parts[0]
  {
  }

  /** Adjacent pairs are separated by exactly one '&': the query has one
      '&' fewer than there are pairs when no pair contains '&'. */
  lemma {:induction false} JoinSeparatorCount(parts: seq<string>, sep: char)
    requires |parts| > 0
    requires forall i :: 0 <= i < |parts| ==> sep !in parts[i]
    ensures Occurrences(Join(parts, sep), sep) == |parts| - 1
  {
    OccurrencesZero(parts[0], sep);
    if |parts| > 1 {
      var rest := Join(parts[1..], sep);
      JoinSeparatorCount(parts[1..], sep);
      OccurrencesAppend(parts[0], [sep] + rest, sep);
      OccurrencesAppend([sep], rest, sep);
      assert Join(parts, sep) == parts[0] + ([sep] + rest);
    }
  }

  lemma QuerySeparatorCount(params: seq<Param>)
    requires |params| > 0 && PlainParams(params)
    ensures Occurrences(Query(params), '&') == |params| - 1
  {
    RenderedPairsHaveNoAmpersand(params);
    JoinSeparatorCount(RenderAll(params), '&');
  }

  // ---------------------------------------------------------------------
  // The three guide cards
  // ---------------------------------------------------------------------

  /** `${domain}/api/postback`, the base URL of every card. */
  function PostbackBase(domain: string): string
  {
    domain + "/api/postback"
  }

  function RegistrationParams(): seq<Param>
  {
    [Param("event_type", "registration"), Param("user_id", "{user_id}")]
  }

  function FirstDepositParams(): seq<Param>
  {
    [Param("event_type", "first_deposit"), Param("user_id", "{user_id}"), Param("amount", "{amount}")]
  }

  function RecurringDepositParams(): seq<Param>
  {
    [Param("event_type", "recurring_deposit"), Param("user_id", "{user_id}"), Param("amount", "{amount}")]
  }

  /** The cards in the order the guide shows them. */
  function GuideCards(domain: string): seq<(string, seq<Param>)>
  {
    [ (PostbackBase(domain), RegistrationParams()),
      (PostbackBase(domain), FirstDepositParams()),
      (PostbackBase(domain), RecurringDepositParams()) ]
  }

  /** Every card posts to `domain/api/postback`, every list starts with
      event_type and then user_id, and the three event types are
      registration, first_deposit and recurring_deposit. */
  lemma GuideCardsShape(domain: string)
    ensures forall c :: 0 <= c < 3 ==> GuideCards(domain)[c].0 == domain + "/api/postback"
    ensures forall c :: 0 <= c < 3 ==>
      |GuideCards(domain)[c].1| >= 2
      && GuideCards(domain)[c].1[0].key == "event_type"
      && GuideCards(domain)[c].1[1] == Param("user_id", "{user_id}")
    ensures [GuideCards(domain)[0].1[0].value, GuideCards(domain)[1].1[0].value,
             GuideCards(domain)[2].1[0].value] == ["registration", "first_deposit", "recurring_deposit"]
  {
  }

  /** The query of two parameters. */
  lemma Query2(a: Param, b: Param)
    ensures Query([a, b]) == RenderParam(a) + "&" + RenderParam(b)
  {
    var parts := RenderAll([a, b]);
    assert parts == [RenderParam(a), RenderParam(b)];
    assert Join(parts[1..], '&') == RenderParam(b);
    assert Join(parts, '&') == parts[0] + ['&'] + Join(parts[1..], '&');
  }

  /** The query of three parameters. */
  lemma Query3(a: Param, b: Param, c: Param)
    ensures Query([a, b, c]) == RenderParam(a) + "&" + RenderParam(b) + "&" + RenderParam(c)
  {
    var parts := RenderAll([a, b, c]);
    assert parts == [RenderParam(a), RenderParam(b), RenderParam(c)];
    assert parts[1..] == RenderAll([b, c]);
    Query2(b, c);
    assert Join(parts, '&') == parts[0] + ['&'] + Join(parts[1..], '&');
  }

  /** The registration card's URL, pair by pair. */
  lemma RegistrationUrl(domain: string)
    ensures BuildUrl(PostbackBase(domain), RegistrationParams())
            == PostbackBase(domain) + "?" + ("event_type" + "=" + "registration")
               + "&" + ("user_id" + "=" + "{user_id}")
  {
    var ps := RegistrationParams();
    Query2(ps[0], ps[1]);
    assert ps == [ps[0], ps[1]];
  }

  /** The first-deposit card's URL, pair by pair. */
  lemma FirstDepositUrl(domain: string)
    ensures BuildUrl(PostbackBase(domain), FirstDepositParams())
            == PostbackBase(domain) + "?" + ("event_type" + "=" + "first_deposit")
               + "&" + ("user_id" + "=" + "{user_id}") + "&" + ("amount" + "=" + "{amount}")
  {
    var ps := FirstDepositParams();
    Query3(ps[0], ps[1], ps[2]);
    assert ps == [ps[0], ps[1], ps[2]];
  }

  /** The recurring-deposit card's URL, pair by pair. */
  lemma RecurringDepositUrl(domain: string)
    ensures BuildUrl(PostbackBase(domain), RecurringDepositParams())
            == PostbackBase(domain) + "?" + ("event_type" + "=" + "recurring_deposit")
               + "&" + ("user_id" + "=" + "{user_id}") + "&" + ("amount" + "=" + "{amount}")
  {
    var ps := RecurringDepositParams();
    Query3(ps[0], ps[1], ps[2]);
    assert ps == [ps[0], ps[1], ps[2]];
  }
}
