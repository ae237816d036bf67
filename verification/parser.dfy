/**
 * RealPositionParser after the fetch: numbering the result groups of a search
 * answer, recognising our domain among them, choosing the competitors, the
 * query cache, batch lookups and the error result. The HTTP exchange itself
 * is an input: the parsed answer (or its absence, when every attempt failed).
 */
module Parser {
  import opened Common

  /** The parser's settings. */
  const DefaultRegion: int := 157
  const MaxResults: int := 100
  /** The position reported when our domain is not among the results. */
  const NotFoundPosition: int := 101
  /** How many results beyond the competitor limit are looked at. */
  const CompetitorMargin: int := 10
  const TopCompetitors: nat := 10

  // ------------------------------------------------------------ the search answer

  /** The fields of a `doc` element; a missing child element reads as "". */
  datatype Doc = Doc(url: string, title: string, domain: string, snippet: string)

  /** A `group` element: its `doc`, if any, and the `name` of its `categ`, if it has one. */
  datatype ResultGroup = ResultGroup(doc: Option<Doc>, categ: Option<string>)

  /** The answer of the search API: an `error` element, the groups in document order, or text that is not XML. */
  datatype Response = ApiError(message: string) | Groups(groups: seq<ResultGroup>) | Unparsable

  datatype SearchResult = SearchResult(position: int, url: string, title: string, domain: string, snippet: string)

  /** The text up to the first '/', '?' or '#'. */
  function HostPart(s: string): (r: string)
    ensures |r| <= |s| && r == s[..|r|]
    ensures forall i :: 0 <= i < |r| ==> r[i] !in {'/', '?', '#'}
  {
    if s == [] || s[0] in {'/', '?', '#'} then [] else [s[0]] + HostPart(s[1..])
  }

  /** `urlparse(url).netloc` for http, https and scheme-relative URLs; "" for anything else. */
  function Netloc(url: string): string
  {
    if IsPrefix("http://", url) then HostPart(url[7..])
    else if IsPrefix("https://", url) then HostPart(url[8..])
    else if IsPrefix("//", url) then HostPart(url[2..])
    else ""
  }

  /**
   * _extract_result_from_group: nothing for a group without `doc`; otherwise
   * its fields at the given position, the domain falling back to the URL's
   * host and then to the category name.
   */
  function ExtractResult(g: ResultGroup, position: int): (r: Option<SearchResult>)
    ensures r.Some? <==> g.doc.Some?
    ensures r.Some? ==>
      && r.value.position == position
      && r.value.url == g.doc.value.url && r.value.title == g.doc.value.title
      && r.value.snippet == g.doc.value.snippet
    ensures r.Some? && g.doc.value.domain != "" ==> r.value.domain == g.doc.value.domain
  {
    match g.doc
    case None => None
    case Some(d) =>
      var fromUrl := if d.domain == "" && d.url != "" then Netloc(d.url) else d.domain;
      var domain := if g.categ.Some? && g.categ.value != "" && fromUrl == "" then g.categ.value else fromUrl;
      Some(SearchResult(position, d.url, d.title, domain, d.snippet))
  }

  /**
   * The results of the groups, numbered by group from 1; groups without a
   * `doc` give nothing but still take their number.
   */
  function Numbered(groups: seq<ResultGroup>): (r: seq<SearchResult>)
    ensures |r| <= |groups|
    ensures forall i :: 0 <= i < |r| ==> 1 <= r[i].position <= |groups|
    ensures forall i, j :: 0 <= i < j < |r| ==> r[i].position < r[j].position
  {
    if groups == [] then []
    else
      var last := ExtractResult(groups[|groups| - 1], |groups|);
      Numbered(groups[..|groups| - 1]) + (if last.Some? then [last.value] else [])
  }

  /** Each result is what its own group yields at its number. */
  lemma {:induction false} NumberedSound(groups: seq<ResultGroup>)
    ensures forall i :: 0 <= i < |Numbered(groups)| ==>
      ExtractResult(groups[Numbered(groups)[i].position - 1], Numbered(groups)[i].position) == Some(Numbered(groups)[i])
  {
    if groups != [] {
      var init := groups[..|groups| - 1];
      assert forall i :: 0 <= i < |init| ==> init[i] == groups[i];
      NumberedSound(init);
    }
  }

  lemma NumberedStep(groups: seq<ResultGroup>, p: nat)
    requires p < |groups|
    ensures Numbered(groups[..p + 1]) == Numbered(groups[..p]) +
      (if ExtractResult(groups[p], p + 1).Some? then [ExtractResult(groups[p], p + 1).value] else [])
  {
    assert groups[..p + 1][..p] == groups[..p];
  }

  /** Every group with a `doc` within the numbering yields a result. */
  lemma {:induction false} NumberedComplete(groups: seq<ResultGroup>, p: int)
    requires 1 <= p <= |groups| && groups[p - 1].doc.Some?
    ensures exists i :: 0 <= i < |Numbered(groups)| && Numbered(groups)[i].position == p
  {
    var init := groups[..|groups| - 1];
    var last := ExtractResult(groups[|groups| - 1], |groups|);
    var n := Numbered(groups);
    var m := Numbered(init);
    assert n == m + (if last.Some? then [last.value] else []);
    if p < |groups| {
      assert init[p - 1] == groups[p - 1];
      NumberedComplete(init, p);
      var i :| 0 <= i < |m| && m[i].position == p;
      assert n[i] == m[i];
      assert n[i].position == p;
    } else {
      assert last.Some? && n[|m|] == last.value;
      assert n[|m|].position == p;
    }
  }

  /** The groups `enumerate(groups, 1)` reaches before a position exceeds the limit. */
  function Reached(groups: seq<ResultGroup>, limit: int): (r: seq<ResultGroup>)
    ensures |r| <= |groups| && r == groups[..|r|]
    ensures |r| == if limit <= 0 then 0 else if limit < |groups| then limit else |groups|
  {
    if limit <= 0 then [] else Take(groups, limit)
  }

  /** _parse_all_search_results: nothing for an API error or unparsable text. */
  function SearchResults(response: Response, limit: int): (r: seq<SearchResult>)
    ensures forall i :: 0 <= i < |r| ==> 1 <= r[i].position && r[i].position <= limit
    ensures forall i, j :: 0 <= i < j < |r| ==> r[i].position < r[j].position
  {
    match response
    case Groups(groups) => Numbered(Reached(groups, limit))
    case _ => []
  }

  /** The parsing loop as the source writes it: number, stop past the limit, skip groups without `doc`. */
  method ParseAllSearchResults(response: Response, limit: int) returns (results: seq<SearchResult>)
    ensures results == SearchResults(response, limit)
  {
    results := [];
    if !response.Groups? {
      return;
    }
    var groups := response.groups;
    var position := 1;
    while position <= |groups|
      invariant 1 <= position <= |groups| + 1
      invariant position == 1 || position - 1 <= limit
      invariant results == Numbered(groups[..position - 1])
      decreases |groups| - position
    {
      if position > limit {
        break;
      }
      NumberedStep(groups, position - 1);
      var r := ExtractResult(groups[position - 1], position);
      if r.Some? {
        results := results + [r.value];
      }
      position := position + 1;
    }
    assert groups[..position - 1] == Reached(groups, limit);
  }

  // ------------------------------------------------------------ domain matching

  /** The comparison form: lower case, every "www." removed, surrounding whitespace stripped. */
  function CleanHost(d: string): string
  {
    Strip(RemoveAll(Lower(d), "www."), Whitespace)
  }

  /**
   * _domains_match: never for an empty argument; otherwise the cleaned forms
   * are equal or one contains the other.
   */
  predicate DomainsMatch(a: string, b: string)
  {
    && a != "" && b != ""
    && var ca, cb := CleanHost(a), CleanHost(b);
       ca == cb || IsSubstring(ca, cb) || IsSubstring(cb, ca)
  }

  lemma DomainsMatchSymmetric(a: string, b: string)
    ensures DomainsMatch(a, b) <==> DomainsMatch(b, a)
  {
  }

  lemma {:induction false} DomainsMatchReflexive(a: string)
    ensures DomainsMatch(a, a) <==> a != ""
  {
  }

  /** Case and a "www." prefix do not matter. */
  lemma {:induction false} DomainsMatchIgnoresWww(a: string)
    requires a != ""
    ensures DomainsMatch("www." + a, a)
  {
    assert Lower("www." + a) == "www." + Lower(a);
    RemoveAllPrefix("www.", Lower(a));
  }

  /** Leading whitespace of any kind `str.strip()` knows, a no-break space included, does not matter. */
  lemma {:induction false} CleanHostIgnoresLeadingSpace(w: char, a: string)
    requires w in Whitespace
    ensures CleanHost([w] + a) == CleanHost(a)
  {
    assert Lower([w] + a) == [w] + Lower(a);
    RemoveAllCons(w, Lower(a), "www.");
    var y := RemoveAll(Lower(a), "www.");
    assert ([w] + y)[1..] == y;
    assert StripLeft([w] + y, Whitespace) == StripLeft(y, Whitespace);
  }

  /**
   * A one-letter host padded on opposite sides with any whitespace `str.strip()`
   * knows (a no-break space, say) still matches.
   */
  lemma {:induction false} DomainsMatchAcrossSpace(w: char, c: char)
    requires w in Whitespace && 'a' <= c <= 'z'
    ensures CleanHost([w, c]) == [c] == CleanHost([c, w])
    ensures DomainsMatch([w, c], [c, w])
  {
    LetterHostIsClean(c);
    CleanHostIgnoresLeadingSpace(w, [c]);
    assert [w] + [c] == [w, c];
    CleanHostIgnoresTrailingSpace(c, w);
  }

  lemma {:induction false} LetterHostIsClean(c: char)
    requires 'a' <= c <= 'z'
    ensures CleanHost([c]) == [c]
  {
    assert Lower([c]) == [c];
    assert RemoveAll([c], "www.") == [c];
  }

  lemma {:induction false} CleanHostIgnoresTrailingSpace(c: char, w: char)
    requires w in Whitespace && 'a' <= c <= 'z'
    ensures CleanHost([c, w]) == [c]
  {
    WhitespaceLowersToItself(w);
    assert Lower([c, w]) == [c, w];
    assert RemoveAll([c, w], "www.") == [c, w];
    assert StripRight([c, w], Whitespace) == [c];
  }

  lemma {:induction false} WhitespaceLowersToItself(w: char)
    requires w in Whitespace
    ensures LowerChar(w) == w
  {
  }

  /** Containment is enough: a host that merely ends with another one's name matches it. */
  lemma {:induction false} ContainedHostMatches(a: string, b: string)
    requires a != "" && b != "" && IsSubstring(CleanHost(a), CleanHost(b))
    ensures DomainsMatch(a, b)
  {
  }

  // ------------------------------------------------------------ our position and the competitors

  function MatchesDomain(domain: string): SearchResult -> bool
  {
    (r: SearchResult) => DomainsMatch(r.domain, domain)
  }

  /** The first result whose domain matches ours. */
  function OurIndex(all: seq<SearchResult>, domain: string): (r: Option<nat>)
    ensures r.Some? ==> r.value < |all| && DomainsMatch(all[r.value].domain, domain)
    ensures r.Some? ==> forall j :: 0 <= j < r.value ==> !DomainsMatch(all[j].domain, domain)
    ensures r.None? ==> forall j :: 0 <= j < |all| ==> !DomainsMatch(all[j].domain, domain)
  {
    FirstIndex(all, MatchesDomain(domain))
  }

  /** The search loop for our result, with its early exit; `matches` is the domain test. */
  method FindOurResult(all: seq<SearchResult>, matches: SearchResult -> bool) returns (index: Option<nat>)
    ensures index == FirstIndex(all, matches)
  {
    var i := 0;
    while i < |all|
      invariant 0 <= i <= |all|
      invariant forall j :: 0 <= j < i ==> !matches(all[j])
    {
      if matches(all[i]) {
        index := Some(i);
        FirstIndexAt(all, matches, i);
        return;
      }
      i := i + 1;
    }
    index := None;
    FirstIndexNone(all, matches);
  }

  function AsCompetitor(r: SearchResult): CompetitorEntry
  {
    CompetitorEntry(Some(r.position), r.domain, r.url, r.title, r.snippet)
  }

  /** Whether the competitor loop passes over a result: it is ours, and we were found. */
  function SkipOurs(domain: string, ourFound: bool): SearchResult -> bool
  {
    (r: SearchResult) => ourFound && DomainsMatch(r.domain, domain)
  }

  /** The competitor entries of the results `skip` does not pass over, in order. */
  function Candidates(rs: seq<SearchResult>, skip: SearchResult -> bool): (r: seq<CompetitorEntry>)
    ensures |r| <= |rs|
  {
    if rs == [] then []
    else Candidates(rs[..|rs| - 1], skip) + (if skip(rs[|rs| - 1]) then [] else [AsCompetitor(rs[|rs| - 1])])
  }

  /** Each candidate is the entry of a result that is not passed over. */
  lemma {:induction false} CandidatesFrom(rs: seq<SearchResult>, skip: SearchResult -> bool, e: CompetitorEntry)
    requires e in Candidates(rs, skip)
    ensures exists i :: 0 <= i < |rs| && e == AsCompetitor(rs[i]) && !skip(rs[i])
  {
    var init := rs[..|rs| - 1];
    if e in Candidates(init, skip) {
      CandidatesFrom(init, skip, e);
      var i :| 0 <= i < |init| && e == AsCompetitor(init[i]) && !skip(init[i]);
      assert init[i] == rs[i];
    } else {
      assert e == AsCompetitor(rs[|rs| - 1]) && !skip(rs[|rs| - 1]);
    }
  }

  /**
   * The competitor list: up to `limit` entries, drawn in order from the first
   * `limit + 10` results, our own domain left out once we were found.
   */
  function SelectCompetitors(all: seq<SearchResult>, domain: string, ourFound: bool, limit: int): (r: seq<CompetitorEntry>)
    requires limit > 0
    ensures |r| <= limit
  {
    Take(Candidates(Take(all, limit + CompetitorMargin), SkipOurs(domain, ourFound)), limit)
  }

  /** Every competitor is one of the first `limit + 10` results and, once we were found, not ours. */
  lemma SelectCompetitorsFrom(all: seq<SearchResult>, domain: string, ourFound: bool, limit: int, e: CompetitorEntry)
    requires limit > 0 && e in SelectCompetitors(all, domain, ourFound, limit)
    ensures exists i :: 0 <= i < |all| && i < limit + CompetitorMargin &&
                        e == AsCompetitor(all[i]) && !(ourFound && DomainsMatch(all[i].domain, domain))
  {
    var window := Take(all, limit + CompetitorMargin);
    var skip := SkipOurs(domain, ourFound);
    assert e in Candidates(window, skip);
    CandidatesFrom(window, skip, e);
    var i :| 0 <= i < |window| && e == AsCompetitor(window[i]) && !skip(window[i]);
    assert window[i] == all[i];
  }

  /** One more result looked at: the candidates so far grow by it, unless it is passed over. */
  lemma CandidatesStep(rs: seq<SearchResult>, i: nat, skip: SearchResult -> bool)
    requires i < |rs|
    ensures Candidates(rs[..i + 1], skip) ==
      Candidates(rs[..i], skip) + (if skip(rs[i]) then [] else [AsCompetitor(rs[i])])
  {
    assert rs[..i + 1][..i] == rs[..i];
  }

  /** The candidates of a prefix are a prefix of the candidates. */
  lemma {:induction false} CandidatesPrefix(rs: seq<SearchResult>, n: nat, skip: SearchResult -> bool)
    requires n <= |rs|
    ensures var c := Candidates(rs[..n], skip);
      |c| <= |Candidates(rs, skip)| && c == Candidates(rs, skip)[..|c|]
    decreases |rs| - n
  {
    if n < |rs| {
      CandidatesPrefix(rs, n + 1, skip);
      CandidatesStep(rs, n, skip);
    } else {
      assert rs[..n] == rs;
    }
  }

  /**
   * The competitor loop as the source writes it over the first `limit + 10`
   * results, stopping once `limit` entries are collected; `skip` is the test
   * for our own result.
   */
  method CollectCompetitors(all: seq<SearchResult>, skip: SearchResult -> bool, limit: int)
    returns (competitors: seq<CompetitorEntry>)
    requires limit > 0
    ensures competitors == Take(Candidates(Take(all, limit + CompetitorMargin), skip), limit)
  {
    var window := Take(all, limit + CompetitorMargin);
    competitors := [];
    var i := 0;
    while i < |window|
      invariant 0 <= i <= |window|
      invariant competitors == Candidates(window[..i], skip) && |competitors| < limit
    {
      var r := window[i];
      CandidatesStep(window, i, skip);
      if skip(r) {
        i := i + 1;
        continue;
      }
      competitors := competitors + [AsCompetitor(r)];
      if |competitors| >= limit {
        CandidatesPrefix(window, i + 1, skip);
        return;
      }
      i := i + 1;
    }
    assert window[..i] == window;
  }

  // ------------------------------------------------------------ the lookup result

  /** The dictionary get_yandex_position returns (its timestamp aside). */
  datatype PositionResult = PositionResult(
    position: Option<int>, url: string, title: string, domain: string, found: bool,
    totalResults: nat, region: int, keyword: string,
    competitors: Option<seq<CompetitorEntry>>, topCompetitors: Option<seq<CompetitorEntry>>,
    cacheUsed: bool, error: Option<string>)

  /** `region or self.settings['region']`. */
  function RegionOrDefault(region: Option<int>): int
  {
    if region.None? || region.value == 0 then DefaultRegion else region.value
  }

  /**
   * A fresh lookup over the parsed results: our first matching result gives
   * the position, URL and title; otherwise position 101 and empty texts.
   */
  function FreshResult(domain: string, keyword: string, region: int, withCompetitors: bool, limit: int,
                       all: seq<SearchResult>): (r: PositionResult)
    ensures r.position.Some? && r.domain == domain && r.keyword == keyword && r.region == region
    ensures r.totalResults == |all| && !r.cacheUsed && r.error.None?
    ensures r.competitors.Some? <==> withCompetitors
    ensures r.topCompetitors.Some? <==> withCompetitors
  {
    var ours := OurIndex(all, domain);
    var competitors := if withCompetitors && limit > 0 then SelectCompetitors(all, domain, ours.Some?, limit) else [];
    PositionResult(
      Some(if ours.Some? then all[ours.value].position else NotFoundPosition),
      if ours.Some? then all[ours.value].url else "",
      if ours.Some? then all[ours.value].title else "",
      domain,
      ours.Some? && all[ours.value].position <= MaxResults,
      |all|, region, keyword,
      if withCompetitors then Some(competitors) else None,
      if withCompetitors then Some(Take(competitors, TopCompetitors)) else None,
      false, None)
  }

  /**
   * Over parsed search results the not-found position is 101 and `found`
   * means exactly that our domain is among the results; the top competitors
   * are the first ten of the competitors.
   */
  lemma FreshResultFound(domain: string, keyword: string, region: int, withCompetitors: bool, limit: int, response: Response)
    ensures var all := SearchResults(response, MaxResults);
      var r := FreshResult(domain, keyword, region, withCompetitors, limit, all);
      && (r.found <==> exists i :: 0 <= i < |all| && DomainsMatch(all[i].domain, domain))
      && (r.found <==> r.position.value <= MaxResults)
      && (!r.found ==> r.position == Some(NotFoundPosition) && r.url == "" && r.title == "")
      && (withCompetitors ==> r.topCompetitors.value == Take(r.competitors.value, TopCompetitors))
  {
    var all := SearchResults(response, MaxResults);
    var ours := OurIndex(all, domain);
    if ours.Some? {
      assert 1 <= all[ours.value].position <= MaxResults;
    }
  }

  /** The uncached part of get_yandex_position. */
  method Lookup(domain: string, keyword: string, region: int, withCompetitors: bool, limit: int,
                response: Option<Response>) returns (result: PositionResult)
    ensures result == FreshResult(domain, keyword, region, withCompetitors, limit, Fetched(response))
  {
    var all: seq<SearchResult> := [];
    if response.Some? {
      all := ParseAllSearchResults(response.value, MaxResults);
    }
    var ours := FindOurResult(all, MatchesDomain(domain));
    var competitors := [];
    if withCompetitors && limit > 0 {
      competitors := CollectCompetitors(all, SkipOurs(domain, ours.Some?), limit);
    }
    var position := if ours.Some? then all[ours.value].position else NotFoundPosition;
    result := PositionResult(
      Some(position),
      if ours.Some? then all[ours.value].url else "",
      if ours.Some? then all[ours.value].title else "",
      domain,
      ours.Some? && all[ours.value].position <= MaxResults,
      |all|, region, keyword,
      if withCompetitors then Some(competitors) else None,
      if withCompetitors then Some(Take(competitors, TopCompetitors)) else None,
      false, None);
  }

  /** _create_error_result: no position, nothing found, the default region. */
  function ErrorResult(message: string): (r: PositionResult)
    ensures r.position.None? && !r.found && r.totalResults == 0 && r.error == Some(message)
  {
    PositionResult(None, "", "", "", false, 0, DefaultRegion, "", None, None, false, Some(message))
  }

  // ------------------------------------------------------------ the cache

  /** The text the query cache is keyed by: `f"{domain}_{keyword}_{region}_{include_competitors}_{competitors_limit}"`. */
  function CacheKeyText(domain: string, keyword: string, region: int, withCompetitors: bool, limit: int): string
  {
    domain + "_" + keyword + "_" + IntText(region) + "_" + (if withCompetitors then "True" else "False") + "_" + IntText(limit)
  }

  /**
   * The text key is ambiguous: a different domain and keyword can join to the
   * same text, and a text-keyed cache then answers the second query with the
   * first one's result, whose keyword is not the one asked for.
   */
  lemma CacheKeyTextCollides(a: string, b: string, c: string, region: int, withCompetitors: bool, limit: int,
                             cached: PositionResult)
    requires cached.keyword == c
    ensures CacheKeyText(a + "_" + b, c, region, withCompetitors, limit) == CacheKeyText(a, b + "_" + c, region, withCompetitors, limit)
    ensures var cache := map[CacheKeyText(a + "_" + b, c, region, withCompetitors, limit) := cached];
      && CacheKeyText(a, b + "_" + c, region, withCompetitors, limit) in cache
      && cache[CacheKeyText(a, b + "_" + c, region, withCompetitors, limit)].keyword != b + "_" + c
  {
    assert a + "_" + b + "_" + c == a + "_" + (b + "_" + c);
    assert |b + "_" + c| != |c|;
  }

  /** The query a cached result answers: every part of the text key, kept apart. */
  datatype Query = Query(domain: string, keyword: string, region: int, withCompetitors: bool, limit: int)

  /** A result that answers query `q`. */
  predicate Answers(r: PositionResult, q: Query)
  {
    && r.domain == q.domain && r.keyword == q.keyword && r.region == q.region
    && (r.competitors.Some? <==> q.withCompetitors) && r.error.None?
  }

  /** The outcome of the lookup for one keyword of a batch: the search answer (None when every request failed), or a fault. */
  datatype Outcome = Answered(response: Option<Response>) | Faulted(message: string)

  function Fetched(response: Option<Response>): seq<SearchResult>
  {
    if response.Some? then SearchResults(response.value, MaxResults) else []
  }

  /** The queries a batch asks, one per keyword, in order. */
  function Queries(domain: string, keywords: seq<string>, region: int, withCompetitors: bool, limit: int): (qs: seq<Query>)
    ensures |qs| == |keywords|
    ensures forall i :: 0 <= i < |qs| ==> qs[i] == Query(domain, keywords[i], region, withCompetitors, limit)
  {
    seq(|keywords|, i requires 0 <= i < |keywords| => Query(domain, keywords[i], region, withCompetitors, limit))
  }

  /** The result a fresh search for `q` gives. */
  function FreshFor(q: Query, response: Option<Response>): PositionResult
  {
    FreshResult(q.domain, q.keyword, q.region, q.withCompetitors, q.limit, Fetched(response))
  }

  /** The cache after one lookup of a batch: a fault or a hit leaves it alone, a miss stores the fresh result. */
  function Remember(c: map<Query, PositionResult>, q: Query, o: Outcome): map<Query, PositionResult>
  {
    if o.Faulted? || q in c then c else c[q := FreshFor(q, o.response)]
  }

  /** The cache after the lookups of `qs`, one after the other. */
  function CacheAfter(c: map<Query, PositionResult>, qs: seq<Query>, os: seq<Outcome>): map<Query, PositionResult>
    requires |qs| == |os|
  {
    if qs == [] then c
    else Remember(CacheAfter(c, qs[..|qs| - 1], os[..|os| - 1]), qs[|qs| - 1], os[|os| - 1])
  }

  /** The result of one lookup of a batch made with cache `c`. */
  function BatchAnswer(c: map<Query, PositionResult>, q: Query, o: Outcome): PositionResult
  {
    if o.Faulted? then ErrorResult(o.message)
    else if q in c then c[q].(cacheUsed := true)
    else FreshFor(q, o.response)
  }

  /** The results of the lookups of `qs`, one after the other, starting from cache `c`. */
  function BatchResults(c: map<Query, PositionResult>, qs: seq<Query>, os: seq<Outcome>): (r: seq<PositionResult>)
    requires |qs| == |os|
    ensures |r| == |qs|
  {
    if qs == [] then []
    else
      var n := |qs| - 1;
      BatchResults(c, qs[..n], os[..n]) + [BatchAnswer(CacheAfter(c, qs[..n], os[..n]), qs[n], os[n])]
  }

  /** Lookup `i` of a batch is answered with the cache the lookups before it left. */
  lemma {:induction false} BatchResultsAt(c: map<Query, PositionResult>, qs: seq<Query>, os: seq<Outcome>, i: nat)
    requires |qs| == |os| && i < |qs|
    ensures BatchResults(c, qs, os)[i] == BatchAnswer(CacheAfter(c, qs[..i], os[..i]), qs[i], os[i])
  {
    var n := |qs| - 1;
    if i < n {
      var qs', os' := qs[..n], os[..n];
      BatchResultsAt(c, qs', os', i);
      assert qs'[..i] == qs[..i] && os'[..i] == os[..i];
      assert qs'[i] == qs[i] && os'[i] == os[i];
      BatchResultsPrefix(c, qs, os, i);
    } else {
      BatchResultsLast(c, qs, os);
    }
  }

  lemma {:induction false} BatchResultsLast(c: map<Query, PositionResult>, qs: seq<Query>, os: seq<Outcome>)
    requires |qs| == |os| && qs != []
    ensures BatchResults(c, qs, os)[|qs| - 1] ==
      BatchAnswer(CacheAfter(c, qs[..|qs| - 1], os[..|os| - 1]), qs[|qs| - 1], os[|os| - 1])
  {
  }

  /** The earlier results of a batch do not depend on its last lookup. */
  lemma {:induction false} BatchResultsPrefix(c: map<Query, PositionResult>, qs: seq<Query>, os: seq<Outcome>, i: nat)
    requires |qs| == |os| && i < |qs| - 1
    ensures BatchResults(c, qs, os)[i] == BatchResults(c, qs[..|qs| - 1], os[..|os| - 1])[i]
  {
  }

  /** Every entry of the cache answers the query it is stored under. */
  predicate CacheAnswers(c: map<Query, PositionResult>)
  {
    forall q :: q in c ==> Answers(c[q], q)
  }

  /** The lookups of a batch keep every cache entry answering its query. */
  lemma {:induction false} CacheAfterAnswers(c: map<Query, PositionResult>, qs: seq<Query>, os: seq<Outcome>)
    requires |qs| == |os| && CacheAnswers(c)
    ensures CacheAnswers(CacheAfter(c, qs, os))
  {
    if qs != [] {
      CacheAfterAnswers(c, qs[..|qs| - 1], os[..|os| - 1]);
    }
  }

  /** With such a cache, an answered lookup of a batch answers its query. */
  lemma {:induction false} BatchResultAnswers(c: map<Query, PositionResult>, qs: seq<Query>, os: seq<Outcome>, i: nat)
    requires |qs| == |os| && i < |qs| && CacheAnswers(c) && os[i].Answered?
    ensures Answers(BatchResults(c, qs, os)[i], qs[i])
  {
    BatchResultsAt(c, qs, os, i);
    CacheAfterAnswers(c, qs[..i], os[..i]);
  }

  /** One more lookup extends the results and the cache by one step. */
  lemma BatchStep(c: map<Query, PositionResult>, qs: seq<Query>, os: seq<Outcome>, i: nat)
    requires |qs| == |os| && i < |qs|
    ensures CacheAfter(c, qs[..i + 1], os[..i + 1]) == Remember(CacheAfter(c, qs[..i], os[..i]), qs[i], os[i])
    ensures BatchResults(c, qs[..i + 1], os[..i + 1])
      == BatchResults(c, qs[..i], os[..i]) + [BatchAnswer(CacheAfter(c, qs[..i], os[..i]), qs[i], os[i])]
  {
    assert qs[..i + 1][..i] == qs[..i] && os[..i + 1][..i] == os[..i];
  }

  /** A query that was cached before the batch keeps its cached result. */
  lemma {:induction false} CacheAfterKeepsOld(c: map<Query, PositionResult>, qs: seq<Query>, os: seq<Outcome>, q: Query)
    requires |qs| == |os| && q in c
    ensures q in CacheAfter(c, qs, os) && CacheAfter(c, qs, os)[q] == c[q]
  {
    if qs != [] {
      CacheAfterKeepsOld(c, qs[..|qs| - 1], os[..|os| - 1], q);
    }
  }

  /** A query no lookup of the batch answered is cached after it only if it was before. */
  lemma {:induction false} CacheAfterOnlyAnswered(c: map<Query, PositionResult>, qs: seq<Query>, os: seq<Outcome>, q: Query)
    requires |qs| == |os| && q !in c
    requires forall k :: 0 <= k < |qs| && qs[k] == q ==> os[k].Faulted?
    ensures q !in CacheAfter(c, qs, os)
  {
    if qs != [] {
      CacheAfterOnlyAnswered(c, qs[..|qs| - 1], os[..|os| - 1], q);
    }
  }

  /**
   * A new query is cached with the fresh result of its first answered lookup;
   * later lookups of the same query do not replace it.
   */
  lemma {:induction false} CacheAfterFirstAnswer(c: map<Query, PositionResult>, qs: seq<Query>, os: seq<Outcome>, j: nat)
    requires |qs| == |os| && j < |qs| && qs[j] !in c && os[j].Answered?
    requires forall k :: 0 <= k < j && qs[k] == qs[j] ==> os[k].Faulted?
    ensures qs[j] in CacheAfter(c, qs, os) && CacheAfter(c, qs, os)[qs[j]] == FreshFor(qs[j], os[j].response)
  {
    var n := |qs| - 1;
    var q := qs[j];
    if j == n {
      CacheAfterOnlyAnswered(c, qs[..n], os[..n], q);
    } else {
      CacheAfterFirstAnswer(c, qs[..n], os[..n], j);
    }
  }

  class RealPositionParser {
    var cache: map<Query, PositionResult>

    /** Every cached result answers the query it is stored under and is stored with `cache_used` false. */
    ghost predicate Valid()
      reads this
    {
      forall q :: q in cache ==> Answers(cache[q], q) && !cache[q].cacheUsed
    }

    constructor()
      ensures cache == map[] && Valid()
    {
      cache := map[];
    }

    /**
     * get_yandex_position: a cached query is answered from the cache with
     * `cache_used` set; otherwise the results are parsed (at most 100), our
     * result and the competitors are chosen, and the result is cached.
     */
    method GetYandexPosition(domain: string, keyword: string, region: Option<int>, withCompetitors: bool, limit: int,
                             response: Option<Response>) returns (result: PositionResult)
      requires Valid()
      modifies this`cache
      ensures Valid()
      ensures Answers(result, Query(domain, keyword, RegionOrDefault(region), withCompetitors, limit))
      ensures var q := Query(domain, keyword, RegionOrDefault(region), withCompetitors, limit);
        q in old(cache) ==> result == old(cache)[q].(cacheUsed := true) && cache == old(cache)
      ensures var q := Query(domain, keyword, RegionOrDefault(region), withCompetitors, limit);
        q !in old(cache) ==>
          && result == FreshResult(domain, keyword, q.region, withCompetitors, limit, Fetched(response))
          && cache == old(cache)[q := result]
    {
      var q := Query(domain, keyword, RegionOrDefault(region), withCompetitors, limit);
      if q in cache {
        result := cache[q].(cacheUsed := true);
        return;
      }
      result := Lookup(domain, keyword, q.region, withCompetitors, limit, response);
      cache := cache[q := result];
    }

    /**
     * One lookup of batch_get_positions: get_yandex_position for the query,
     * or the error result when it raises.
     */
    method LookupOne(q: Query, region: Option<int>, o: Outcome) returns (r: PositionResult)
      requires Valid() && q.region == RegionOrDefault(region)
      modifies this`cache
      ensures Valid()
      ensures cache == Remember(old(cache), q, o) && r == BatchAnswer(old(cache), q, o)
      ensures o.Faulted? ==> r == ErrorResult(o.message)
      ensures o.Answered? ==> Answers(r, q)
    {
      if o.Faulted? {
        r := ErrorResult(o.message);
      } else {
        r := GetYandexPosition(q.domain, q.keyword, region, q.withCompetitors, q.limit, o.response);
      }
    }

    /**
     * batch_get_positions: one result per keyword, in order, each the one
     * get_yandex_position gives with the cache as the earlier lookups left it;
     * a fault in a lookup gives the error result for that keyword and leaves
     * the cache alone.
     */
    method BatchGetPositions(domain: string, keywords: seq<string>, region: Option<int>, withCompetitors: bool, limit: int,
                             outcomes: seq<Outcome>) returns (results: seq<PositionResult>)
      requires Valid() && |outcomes| == |keywords|
      modifies this`cache
      ensures Valid()
      ensures |results| == |keywords|
      ensures var qs := Queries(domain, keywords, RegionOrDefault(region), withCompetitors, limit);
        && cache == CacheAfter(old(cache), qs, outcomes)
        && results == BatchResults(old(cache), qs, outcomes)
      ensures forall i :: 0 <= i < |keywords| && outcomes[i].Faulted? ==> results[i] == ErrorResult(outcomes[i].message)
      ensures forall i :: 0 <= i < |keywords| && outcomes[i].Answered? ==>
        Answers(results[i], Query(domain, keywords[i], RegionOrDefault(region), withCompetitors, limit))
    {
      var qs := Queries(domain, keywords, RegionOrDefault(region), withCompetitors, limit);
      ghost var c0 := cache;
      results := [];
      for i := 0 to |keywords|
        invariant Valid() && |results| == i
        invariant cache == CacheAfter(c0, qs[..i], outcomes[..i])
        invariant results == BatchResults(c0, qs[..i], outcomes[..i])
      {
        BatchStep(c0, qs, outcomes, i);
        var r := LookupOne(qs[i], region, outcomes[i]);
        results := results + [r];
      }
      assert qs[..|keywords|] == qs && outcomes[..|keywords|] == outcomes;
      forall i | 0 <= i < |keywords|
        ensures outcomes[i].Faulted? ==> results[i] == ErrorResult(outcomes[i].message)
        ensures outcomes[i].Answered? ==> Answers(results[i], qs[i])
      {
        BatchResultsAt(c0, qs, outcomes, i);
        if outcomes[i].Answered? {
          BatchResultAnswers(c0, qs, outcomes, i);
        }
      }
    }
  }
}
