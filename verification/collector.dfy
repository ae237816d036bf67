/**
 * The ingestion loop of core/data_collector.py (class DataCollector): it finds
 * the project in the configuration, resolves the monitoring session, checks
 * every keyword (cache, search, store writes) with failures isolated per
 * keyword, and finally stores one snapshot of the collected top 10.
 *
 * What the outside world contributes is passed in: for each keyword an
 * Attempt (what the file cache held and what the search returned or raised)
 * and one clock reading; the session wrapper also receives the moments it
 * starts and ends and, optionally, a fault escaping the check.
 */
module Collector {
  import opened Common
  import opened Store

  /** One entry of the `projects` list of the configuration file. */
  datatype ProjectConfig = ProjectConfig(name: Option<string>, domain: string)

  /** What the search step reports for one keyword. */
  datatype PositionData = PositionData(
    position: Option<int>, url: string, totalResults: int, source: string, competitors: seq<CompetitorEntry>)

  datatype Fetch = Fetched(data: PositionData) | Raised(message: string)

  /** The outside world's part in checking one keyword: the cache content and the search outcome. */
  datatype Attempt = Attempt(cached: Option<CheckResult>, fetch: Fetch)

  /** One entry of the list check_positions returns. */
  datatype CheckResult =
    | Checked(keyword: string, position: Option<int>, at: Clock, sessionId: Option<int>,
              searchEngine: string, url: string, totalResults: int, source: string)
    | CheckFailed(keyword: string, error: string, at: Clock, sessionId: Option<int>)

  /** `result.get("position")`, `result.get("url", "")` and `result.get("total_results", 100)`. */
  function PositionOf(r: CheckResult): Option<int>
  {
    if r.Checked? then r.position else None
  }

  function UrlOf(r: CheckResult): string
  {
    if r.Checked? then r.url else ""
  }

  function TotalOf(r: CheckResult): int
  {
    if r.Checked? then r.totalResults else 100
  }

  // ------------------------------------------------------------ project lookup

  /**
   * The comparison form of a domain: every `http://` and `https://` removed,
   * then '/' stripped at both ends. A domain without ':' holds neither
   * scheme, and only the stripping applies to it.
   */
  function CleanDomain(d: string): (r: string)
    ensures r != [] ==> r[0] != '/' && r[|r| - 1] != '/'
    ensures ':' !in d ==> r == Strip(d, {'/'})
  {
    assert "http://"[4] == ':' && "https://"[5] == ':';
    NotSubstringWithout("http://", d, ':');
    NotSubstringWithout("https://", d, ':');

    Strip(RemoveAll(RemoveAll(d, "http://"), "https://"), {'/'})
  }

  predicate SameSite(a: string, b: string)
  {
    CleanDomain(a) == CleanDomain(b)
  }

  /**
   * _find_project_by_domain: the index of the first configured project whose
   * domain is the same site, if any.
   */
  function FindProject(config: seq<ProjectConfig>, domain: string): (r: Option<nat>)
    ensures r.Some? ==> r.value < |config| && SameSite(config[r.value].domain, domain)
    ensures r.Some? ==> forall j :: 0 <= j < r.value ==> !SameSite(config[j].domain, domain)
    ensures r.None? ==> forall j :: 0 <= j < |config| ==> !SameSite(config[j].domain, domain)
  {
    FirstIndex(config, (c: ProjectConfig) => SameSite(c.domain, domain))
  }

  /** Removing "http://" passes over a leading "https://", which does not contain it. */
  lemma {:induction false} HttpRemovalKeepsHttps(d: string)
    ensures RemoveAll("https://" + d, "http://") == "https://" + RemoveAll(d, "http://")
  {
    var p := "http://";
    var s := "https://" + d;
    assert s[..7] != p by {
      assert s[4] == 's' && p[4] == ':';
    }
    assert s[1..] == "ttps://" + d;
    RemoveAllPassThrough("ttps://", d, p);
  }

  /** The protocol prefix does not take part in the comparison. */
  lemma {:induction false} CleanDomainIgnoresScheme(d: string)
    ensures CleanDomain("http://" + d) == CleanDomain(d)
    ensures CleanDomain("https://" + d) == CleanDomain(d)
  {
    RemoveAllPrefix("http://", d);
    HttpRemovalKeepsHttps(d);
    RemoveAllPrefix("https://", RemoveAll(d, "http://"));
  }

  /** A leading '/' does not take part in the comparison either. */
  lemma {:induction false} CleanDomainIgnoresLeadingSlash(d: string)
    ensures CleanDomain("/" + d) == CleanDomain(d)
  {
    RemoveAllCons('/', d, "http://");
    assert "/" + d == ['/'] + d;
    var x := RemoveAll(d, "http://");
    RemoveAllCons('/', x, "https://");
    var y := RemoveAll(x, "https://");
    assert (['/'] + y)[1..] == y;
    assert StripLeft(['/'] + y, {'/'}) == StripLeft(y, {'/'});
  }

  /** For a domain without ':', a trailing '/' does not take part in the comparison. */
  lemma {:induction false} CleanDomainIgnoresTrailingSlash(d: string)
    requires ':' !in d
    ensures CleanDomain(d + "/") == CleanDomain(d)
  {
    assert ':' !in d + "/";
    StripIgnoresTrailing(d, '/', {'/'});
  }

  /**
   * In general a trailing '/' can matter: after a host `h` (say "a."), the
   * '/' that turns "http:/" into "http://" completes a scheme, which is then
   * removed with it.
   */
  lemma {:induction false} CleanDomainTrailingSlashCounts(h: string)
    requires h != [] && 'h' !in h && '/' !in h
    ensures CleanDomain(h + "http:/") == h + "http:"
    ensures CleanDomain(h + "http://") == h
  {
    CleanDomainOfColonHost(h);
    CleanDomainOfCompletedScheme(h);
  }

  lemma {:induction false} CleanDomainOfColonHost(h: string)
    requires h != [] && 'h' !in h && '/' !in h
    ensures CleanDomain(h + "http:/") == h + "http:"
  {
    SchemeRemovalKeeps(h, "http:/");
    StripOfColonHost(h);
  }

  /** Stripping '/' from a host followed by "http:/" drops the final '/' only. */
  lemma {:induction false} StripOfColonHost(h: string)
    requires h != [] && '/' !in h
    ensures Strip(h + "http:/", {'/'}) == h + "http:"
  {
    var s := h + "http:/";
    assert s[0] == h[0] && s[0] != '/';
    assert StripLeft(s, {'/'}) == s;
    var t := h + "http:";
    assert s[..|s| - 1] == t && t[|t| - 1] == ':';
    assert StripRight(t, {'/'}) == t;
  }

  /** Neither scheme is removed from a host followed by a tail shorter than "http://". */
  lemma {:induction false} SchemeRemovalKeeps(h: string, tail: string)
    requires 'h' !in h && |tail| < 7
    ensures RemoveAll(RemoveAll(h + tail, "http://"), "https://") == h + tail
  {
    var http, https := "http://", "https://";
    RemoveAllPassThrough(h, tail, http);
    RemoveAllPassThrough(h, tail, https);
  }

  lemma {:induction false} CleanDomainOfCompletedScheme(h: string)
    requires h != [] && 'h' !in h && '/' !in h
    ensures CleanDomain(h + "http://") == h
  {
    var http, https := "http://", "https://";
    assert http + "" == http;
    RemoveAllPassThrough(h, http, http);
    RemoveAllPrefix(http, "");
    assert h + [] == h;
    NotSubstringWithout(https, h, '/');
    assert https[6] == '/';
  }

  // ------------------------------------------------------------ per-keyword specification

  predicate UsesCache(a: Attempt, useCache: bool)
  {
    useCache && a.cached.Some?
  }

  /** The keyword is written to the store: it came from the cache or its search returned. */
  predicate Reaches(a: Attempt, useCache: bool)
  {
    UsesCache(a, useCache) || a.fetch.Fetched?
  }

  /**
   * The result entry for one keyword: the cached entry as it was stored, an
   * error entry stamped with the current time to the second, or a fresh entry
   * stamped with the check time.
   */
  function ResultFor(keyword: string, a: Attempt, useCache: bool, at: Clock, now: Clock,
                     sid: Option<int>, engine: string): CheckResult
  {
    if UsesCache(a, useCache) then a.cached.value
    else match a.fetch
      case Raised(msg) => CheckFailed(keyword, msg, Clock(now.date, WholeSeconds(now.time)), sid)
      case Fetched(d) => Checked(keyword, d.position, at, sid, engine, d.url, d.totalResults, d.source)
  }

  /** The position row one keyword saves (meaningful when it Reaches the store). */
  function RowFor(pid: int, kid: int, a: Attempt, useCache: bool, at: Clock, sid: Option<int>, engine: string): PositionRow
  {
    if UsesCache(a, useCache) then
      var c := a.cached.value;
      PositionRow(pid, kid, sid, at.date, at.time, PositionOf(c), UrlOf(c), TotalOf(c), engine)
    else if a.fetch.Fetched? then
      var d := a.fetch.data;
      PositionRow(pid, kid, sid, at.date, at.time, d.position, d.url, d.totalResults, engine)
    else PositionRow(pid, kid, sid, at.date, at.time, None, "", 100, engine)
  }

  /**
   * The competitors one keyword saves and collects: none from the cache path,
   * none when not tracking, otherwise the fetched list cut to the limit.
   */
  function CompetitorsFor(a: Attempt, useCache: bool, track: bool, limit: int): (r: seq<CompetitorEntry>)
    ensures r != [] ==> !UsesCache(a, useCache) && a.fetch.Fetched? && track
    ensures limit >= 0 ==> |r| <= limit
  {
    if UsesCache(a, useCache) || a.fetch.Raised? || !track || a.fetch.data.competitors == [] then []
    else PySlice(a.fetch.data.competitors, limit)
  }

  function AsEntries(cs: seq<CompetitorEntry>): (r: seq<Option<CompetitorEntry>>)
    ensures |r| == |cs| && forall i :: 0 <= i < |cs| ==> r[i] == Some(cs[i])
  {
    if cs == [] then [] else [Some(cs[0])] + AsEntries(cs[1..])
  }

  /** Every competitor collected over the attempts, in order. */
  function Collected(attempts: seq<Attempt>, useCache: bool, track: bool, limit: int): (r: seq<CompetitorEntry>)
    ensures r != [] ==> track && LastReached(attempts, useCache).Some?
  {
    if attempts == [] then []
    else
      var n := |attempts|;
      Collected(attempts[..n - 1], useCache, track, limit) + CompetitorsFor(attempts[n - 1], useCache, track, limit)
  }

  /** The index of the last keyword that reached the store (whose id the snapshot is stored under). */
  function LastReached(attempts: seq<Attempt>, useCache: bool): (r: Option<nat>)
    ensures r.Some? ==> r.value < |attempts| && Reaches(attempts[r.value], useCache)
    ensures r.Some? ==> forall j :: r.value < j < |attempts| ==> !Reaches(attempts[j], useCache)
    ensures r.None? ==> forall j :: 0 <= j < |attempts| ==> !Reaches(attempts[j], useCache)
  {
    if attempts == [] then None
    else
      var n := |attempts|;
      if Reaches(attempts[n - 1], useCache) then Some(n - 1)
      else
        var r := LastReached(attempts[..n - 1], useCache);
        assert forall j :: 0 <= j < n - 1 ==> attempts[..n - 1][j] == attempts[j];
        r
  }

  /** `x.get('position', 101)`: the sort key of the snapshot, a missing position last. */
  function RankOf(c: CompetitorEntry): int
  {
    if c.position.Some? then c.position.value else 101
  }

  /** `sorted(all_competitors, key=...)[:10]`. */
  function TopTen(all: seq<CompetitorEntry>): (r: seq<CompetitorEntry>)
    ensures |r| == if |all| < 10 then |all| else 10
  {
    Take(SortBy(all, RankOf), 10)
  }

  /**
   * The snapshot holds the best-ranked entries: it is ordered, comes from the
   * collected list, and nothing left out ranks better than anything kept.
   */
  lemma TopTenIsTop(all: seq<CompetitorEntry>)
    ensures SortedBy(TopTen(all), RankOf)
    ensures multiset(TopTen(all)) <= multiset(all)
    ensures forall c, d :: c in TopTen(all) && d in all && d !in TopTen(all) ==> RankOf(c) <= RankOf(d)
  {
    var s := SortBy(all, RankOf);
    var t := TopTen(all);
    assert t == s[..|t|];
    assert s == t + s[|t|..];
    assert multiset(s) == multiset(t) + multiset(s[|t|..]);
    forall c, d | c in t && d in all && d !in t ensures RankOf(c) <= RankOf(d) {
      assert d in multiset(s);
      RankedBefore(s, |t|, c, d);
    }
  }

  /** In a list sorted by rank, what lies within the first n ranks no worse than what lies outside them. */
  lemma RankedBefore(s: seq<CompetitorEntry>, n: nat, c: CompetitorEntry, d: CompetitorEntry)
    requires SortedBy(s, RankOf) && n <= |s|
    requires c in s[..n] && d in s && d !in s[..n]
    ensures RankOf(c) <= RankOf(d)
  {
    var i :| 0 <= i < n && s[..n][i] == c;
    var j :| 0 <= j < |s| && s[j] == d;
    assert forall k :: 0 <= k < n ==> s[..n][k] in s[..n];
    assert s[i] == c;
  }

  /** The time every keyword of a call is stamped with: the session start, or its own reading. */
  function StampFor(session: Option<Session>, reading: Clock): Clock
  {
    if session.Some? then session.value.startTime else reading
  }

  /** _get_session_info as an ownership test: the session exists and belongs to the project. */
  predicate OwnedBy(sessions: map<int, Session>, sid: int, pid: int)
  {
    sid in sessions && sessions[sid].projectId == pid
  }

  /** A position row that this call wrote carries the call's project and its stamp. */
  ghost predicate StampedRow(r: PositionRow, pid: int, sid: Option<int>, session: Option<Session>)
  {
    && r.projectId == pid
    && (session.Some? ==> r.sessionId == sid && r.checkDate == session.value.startTime.date
                          && r.checkTime == session.value.startTime.time)
  }

  ghost predicate StampedCompetitor(r: CompetitorRow, pid: int, sid: Option<int>, session: Option<Session>)
  {
    && r.projectId == pid && r.sessionId == sid
    && (session.Some? ==> r.checkDate == session.value.startTime.date && r.checkTime == session.value.startTime.time)
  }

  /** The session a call works with: the one given, if it exists and belongs to the project. */
  function ResolveSession(sessions: map<int, Session>, sessionId: Option<int>, pid: int): (r: Option<int>)
    ensures r.Some? ==> r == sessionId && OwnedBy(sessions, r.value, pid)
    ensures r.None? ==> sessionId.None? || !OwnedBy(sessions, sessionId.value, pid)
  {
    if sessionId.Some? && OwnedBy(sessions, sessionId.value, pid) then sessionId else None
  }

  function SessionRow(sessions: map<int, Session>, sid: Option<int>): Option<Session>
  {
    if sid.Some? && sid.value in sessions then Some(sessions[sid.value]) else None
  }

  /** One result per keyword, in order, each the one its attempt calls for. */
  ghost predicate ResultsMatch(results: seq<CheckResult>, keywords: seq<string>, attempts: seq<Attempt>, clock: seq<Clock>,
                               useCache: bool, engine: string, sid: Option<int>, session: Option<Session>)
    requires |attempts| == |keywords| && |clock| == |keywords|
  {
    && |results| == |keywords|
    && forall i :: 0 <= i < |keywords| ==>
         results[i] == ResultFor(keywords[i], attempts[i], useCache, StampFor(session, clock[i]), clock[i], sid, engine)
  }

  /** Every position row changed since `before` is stamped. */
  ghost predicate PositionsStamped(before: map<int, PositionRow>, after: map<int, PositionRow>,
                                   pid: int, sid: Option<int>, session: Option<Session>)
  {
    forall id :: id in after && (id !in before || after[id] != before[id]) ==> StampedRow(after[id], pid, sid, session)
  }

  /** Every competitor row added after `before` is stamped. */
  ghost predicate CompetitorsStamped(before: seq<CompetitorRow>, after: seq<CompetitorRow>,
                                     pid: int, sid: Option<int>, session: Option<Session>)
  {
    && before <= after
    && forall i :: |before| <= i < |after| ==> StampedCompetitor(after[i], pid, sid, session)
  }

  ghost predicate WritesStamped(positionsBefore: map<int, PositionRow>, positions: map<int, PositionRow>,
                                competitorsBefore: seq<CompetitorRow>, competitors: seq<CompetitorRow>,
                                pid: int, sid: Option<int>, session: Option<Session>)
  {
    PositionsStamped(positionsBefore, positions, pid, sid, session)
    && CompetitorsStamped(competitorsBefore, competitors, pid, sid, session)
  }

  /** A position saved with the call's stamp leaves only stamped changes. */
  lemma UpsertStamped(positions: map<int, PositionRow>, nextId: int, row: PositionRow,
                      pid: int, sid: Option<int>, session: Option<Session>)
    requires IdsBelow(positions, nextId)
    requires row.projectId == pid && row.sessionId == sid
    requires session.Some? ==>
               sid.Some? && row.checkDate == session.value.startTime.date && row.checkTime == session.value.startTime.time
    ensures PositionsStamped(positions, Upsert(positions, nextId, row).0, pid, sid, session)
  {
  }

  /** A competitor batch saved with the call's stamp adds only stamped rows. */
  lemma BatchStamped(st: BatchState, ctx: SaveContext, entries: seq<Option<CompetitorEntry>>,
                     pid: int, sid: Option<int>, session: Option<Session>)
    requires ctx.projectId == pid && ctx.sessionId == sid
    requires session.Some? ==> ctx.date == session.value.startTime.date && ctx.time == session.value.startTime.time
    ensures CompetitorsStamped(st.rows, SaveAll(st, ctx, entries).rows, pid, sid, session)
  {
  }

  lemma WritesStampedTrans(p0: map<int, PositionRow>, p1: map<int, PositionRow>, p2: map<int, PositionRow>,
                           c0: seq<CompetitorRow>, c1: seq<CompetitorRow>, c2: seq<CompetitorRow>,
                           pid: int, sid: Option<int>, session: Option<Session>)
    requires WritesStamped(p0, p1, c0, c1, pid, sid, session)
    requires WritesStamped(p1, p2, c1, c2, pid, sid, session)
    ensures WritesStamped(p0, p2, c0, c2, pid, sid, session)
  {
    forall id | id in p2 && (id !in p0 || p2[id] != p0[id]) ensures StampedRow(p2[id], pid, sid, session) {
      if id in p1 && p2[id] == p1[id] {
        assert id !in p0 || p1[id] != p0[id];
      }
    }
    forall i | |c0| <= i < |c2| ensures StampedCompetitor(c2[i], pid, sid, session) {
      if i < |c1| {
        assert c2[i] == c1[i];
      }
    }
  }

  lemma ResultsMatchStep(results: seq<CheckResult>, r: CheckResult, keywords: seq<string>, attempts: seq<Attempt>,
                          clock: seq<Clock>, i: nat, useCache: bool, engine: string, sid: Option<int>, session: Option<Session>)
    requires |attempts| == |keywords| && |clock| == |keywords| && i < |keywords|
    requires ResultsMatch(results, keywords[..i], attempts[..i], clock[..i], useCache, engine, sid, session)
    requires r == ResultFor(keywords[i], attempts[i], useCache, StampFor(session, clock[i]), clock[i], sid, engine)
    ensures ResultsMatch(results + [r], keywords[..i + 1], attempts[..i + 1], clock[..i + 1], useCache, engine, sid, session)
  {
    forall j | 0 <= j <= i
      ensures (results + [r])[j] == ResultFor(keywords[..i + 1][j], attempts[..i + 1][j], useCache,
                                              StampFor(session, clock[..i + 1][j]), clock[..i + 1][j], sid, engine)
    {
      if j < i {
        assert keywords[..i + 1][j] == keywords[..i][j] && attempts[..i + 1][j] == attempts[..i][j];
        assert clock[..i + 1][j] == clock[..i][j];
      }
    }
  }

  lemma CollectedStep(attempts: seq<Attempt>, i: nat, useCache: bool, track: bool, limit: int)
    requires i < |attempts|
    ensures Collected(attempts[..i + 1], useCache, track, limit)
            == Collected(attempts[..i], useCache, track, limit) + CompetitorsFor(attempts[i], useCache, track, limit)
  {
    assert attempts[..i + 1][..i] == attempts[..i];
  }

  lemma LastReachedStep(attempts: seq<Attempt>, i: nat, useCache: bool)
    requires i < |attempts|
    ensures LastReached(attempts[..i + 1], useCache)
            == if Reaches(attempts[i], useCache) then Some(i) else LastReached(attempts[..i], useCache)
  {
    assert attempts[..i + 1][..i] == attempts[..i];
  }

  /**
   * With competitors collected, the snapshot of their top 10 is written under
   * the last keyword that reached the store and the day of the last check;
   * without, no snapshot is written.
   */
  ghost predicate SnapshotStored(snapshots0: map<SnapshotKey, Snapshot>, snapshots: map<SnapshotKey, Snapshot>,
                                 keywordRows: map<int, Keyword>, pid: int, keywords: seq<string>,
                                 attempts: seq<Attempt>, clock: seq<Clock>, session: Option<Session>,
                                 useCache: bool, track: bool, limit: int)
    requires |attempts| == |keywords| && |clock| == |keywords|
  {
    var all := Collected(attempts, useCache, track, limit);
    if all == [] then snapshots == snapshots0
    else
      var day := StampFor(session, clock[|clock| - 1]).date;
      exists kid :: kid in keywordRows && keywordRows[kid] == Keyword(pid, keywords[LastReached(attempts, useCache).value], true)
        && var key := SnapshotKey(pid, kid, day);
           snapshots == snapshots0[key := SnapshotWrite(if key in snapshots0 then Some(snapshots0[key]) else None, TopTen(all)).0]
  }

  lemma SnapshotStoredUnder(snapshots0: map<SnapshotKey, Snapshot>, snapshots: map<SnapshotKey, Snapshot>,
                            keywordRows: map<int, Keyword>, pid: int, keywords: seq<string>,
                            attempts: seq<Attempt>, clock: seq<Clock>, session: Option<Session>,
                            useCache: bool, track: bool, limit: int, kid: int)
    requires |attempts| == |keywords| && |clock| == |keywords|
    requires Collected(attempts, useCache, track, limit) != []
    requires kid in keywordRows && keywordRows[kid] == Keyword(pid, keywords[LastReached(attempts, useCache).value], true)
    requires var key := SnapshotKey(pid, kid, StampFor(session, clock[|clock| - 1]).date);
      snapshots == snapshots0[key := SnapshotWrite(if key in snapshots0 then Some(snapshots0[key]) else None,
                                                   TopTen(Collected(attempts, useCache, track, limit))).0]
    ensures SnapshotStored(snapshots0, snapshots, keywordRows, pid, keywords, attempts, clock, session, useCache, track, limit)
  {
  }

  lemma NothingCollected(snapshots: map<SnapshotKey, Snapshot>,
                         keywordRows: map<int, Keyword>, pid: int, keywords: seq<string>,
                         attempts: seq<Attempt>, clock: seq<Clock>, session: Option<Session>,
                         useCache: bool, track: bool, limit: int)
    requires |attempts| == |keywords| && |clock| == |keywords|
    requires Collected(attempts, useCache, track, limit) == []
    ensures SnapshotStored(snapshots, snapshots, keywordRows, pid, keywords, attempts, clock, session, useCache, track, limit)
  {
  }

  /**
   * What a call of check_positions did for the project `pid` of `domain`: the
   * session it was given is kept only if the project owns it, the results
   * match the keywords, the rows written carry the stamp and the snapshot is
   * stored as SnapshotStored says.
   */
  ghost predicate CheckedProject(pid: int, domain: string, projects: map<int, Project>, sessions: map<int, Session>,
                                 sessionId: Option<int>, results: seq<CheckResult>, keywords: seq<string>,
                                 attempts: seq<Attempt>, clock: seq<Clock>, useCache: bool, track: bool, limit: int,
                                 engine: string, positions0: map<int, PositionRow>, positions: map<int, PositionRow>,
                                 competitors0: seq<CompetitorRow>, competitors: seq<CompetitorRow>,
                                 snapshots0: map<SnapshotKey, Snapshot>, snapshots: map<SnapshotKey, Snapshot>,
                                 keywordRows: map<int, Keyword>)
    requires |attempts| == |keywords| && |clock| == |keywords|
  {
    && pid in projects && projects[pid].domain == domain
    && var sid := ResolveSession(sessions, sessionId, pid);
       && ResultsMatch(results, keywords, attempts, clock, useCache, engine, sid, SessionRow(sessions, sid))
       && WritesStamped(positions0, positions, competitors0, competitors, pid, sid, SessionRow(sessions, sid))
       && positions0.Keys <= positions.Keys
       && Saved(|keywords|, pid, keywords, attempts, clock, useCache, track, limit, engine, sid, SessionRow(sessions, sid),
                keywordRows, positions, competitors)
       && SnapshotStored(snapshots0, snapshots, keywordRows, pid, keywords, attempts, clock,
                         SessionRow(sessions, sid), useCache, track, limit)
  }

  lemma CheckedProjectIntro(pid: int, domain: string, projects: map<int, Project>, sessions: map<int, Session>,
                            sessionId: Option<int>, sid: Option<int>, session: Option<Session>,
                            results: seq<CheckResult>, keywords: seq<string>,
                            attempts: seq<Attempt>, clock: seq<Clock>, useCache: bool, track: bool, limit: int,
                            engine: string, positions0: map<int, PositionRow>, positions: map<int, PositionRow>,
                            competitors0: seq<CompetitorRow>, competitors: seq<CompetitorRow>,
                            snapshots0: map<SnapshotKey, Snapshot>, snapshots: map<SnapshotKey, Snapshot>,
                            keywordRows: map<int, Keyword>)
    requires |attempts| == |keywords| && |clock| == |keywords|
    requires pid in projects && projects[pid].domain == domain
    requires sid == ResolveSession(sessions, sessionId, pid) && session == SessionRow(sessions, sid)
    requires ResultsMatch(results, keywords, attempts, clock, useCache, engine, sid, session)
    requires WritesStamped(positions0, positions, competitors0, competitors, pid, sid, session)
    requires positions0.Keys <= positions.Keys
    requires Saved(|keywords|, pid, keywords, attempts, clock, useCache, track, limit, engine, sid, session,
                   keywordRows, positions, competitors)
    requires SnapshotStored(snapshots0, snapshots, keywordRows, pid, keywords, attempts, clock, session, useCache, track, limit)
    ensures CheckedProject(pid, domain, projects, sessions, sessionId, results, keywords, attempts, clock,
                           useCache, track, limit, engine, positions0, positions, competitors0, competitors,
                           snapshots0, snapshots, keywordRows)
  {
  }

  // ------------------------------------------------------------ what the keyword loop saves

  /** Every entry that passes save_competitors' guard and CHECK has its six-column key among `rows`. */
  ghost predicate EntriesStored(rows: seq<CompetitorRow>, ctx: SaveContext, entries: seq<Option<CompetitorEntry>>)
  {
    forall k :: 0 <= k < |entries| && Considered(entries[k]) && 1 <= PositionOrZero(entries[k].value) <= 100 ==>
      HasKey(rows, KeyOfCompetitor(RowOf(ctx, entries[k].value, PositionOrZero(entries[k].value))))
  }

  /** The stored row carries the saved reading: position, url, total and time of check. */
  predicate Holds(stored: PositionRow, row: PositionRow)
  {
    stored.position == row.position && stored.url == row.url && stored.totalResults == row.totalResults
    && stored.checkTime == row.checkTime
  }

  /**
   * One keyword's reading is in the store under keyword row `kid`: a position
   * row under the natural key (project, keyword, day of `at`, engine), holding
   * the reading when `latest`, and the keys of its valid competitor entries,
   * stamped with `at`.
   */
  ghost predicate ReadingAt(positions: map<int, PositionRow>, competitors: seq<CompetitorRow>, pid: int, kid: int,
                            a: Attempt, useCache: bool, track: bool, limit: int, at: Clock, sid: Option<int>,
                            engine: string, latest: bool)
  {
    var row := RowFor(pid, kid, a, useCache, at, sid, engine);
    var found := RowWithKey(positions, KeyOfPosition(row));
    && found.Some?
    && (latest ==> Holds(positions[found.value], row))
    && EntriesStored(competitors, SaveContext(pid, kid, sid, at.date, at.time),
                     AsEntries(CompetitorsFor(a, useCache, track, limit)))
  }

  /** The reading of `keyword` is in the store under its active keyword row. */
  ghost predicate ReadingStored(keywordRows: map<int, Keyword>, positions: map<int, PositionRow>,
                                competitors: seq<CompetitorRow>, pid: int, keyword: string, a: Attempt,
                                useCache: bool, track: bool, limit: int, at: Clock, sid: Option<int>,
                                engine: string, latest: bool)
  {
    exists kid :: kid in keywordRows && keywordRows[kid] == Keyword(pid, keyword, true)
      && ReadingAt(positions, competitors, pid, kid, a, useCache, track, limit, at, sid, engine, latest)
  }

  /** No keyword after `j` and before `i` saved the same keyword on the same day. */
  ghost predicate LatestOfDay(i: nat, j: nat, keywords: seq<string>, attempts: seq<Attempt>, clock: seq<Clock>,
                              useCache: bool, session: Option<Session>)
    requires |attempts| == |keywords| && |clock| == |keywords| && j < i <= |keywords|
  {
    forall m :: j < m < i && Reaches(attempts[m], useCache) ==>
      keywords[m] != keywords[j] || StampFor(session, clock[m]).date != StampFor(session, clock[j]).date
  }

  /**
   * What the first `i` keywords left in the store: every keyword that reached
   * the store has its position saved under its stamp's day (holding its
   * reading unless a later check of the same keyword the same day overwrote
   * it) and its competitors saved with its stamp. The stamp is the session's
   * start when there is a session, else the keyword's own clock reading.
   */
  ghost predicate Saved(i: nat, pid: int, keywords: seq<string>, attempts: seq<Attempt>, clock: seq<Clock>,
                        useCache: bool, track: bool, limit: int, engine: string, sid: Option<int>,
                        session: Option<Session>, keywordRows: map<int, Keyword>, positions: map<int, PositionRow>,
                        competitors: seq<CompetitorRow>)
    requires |attempts| == |keywords| && |clock| == |keywords| && i <= |keywords|
  {
    forall j :: 0 <= j < i && Reaches(attempts[j], useCache) ==>
      ReadingStored(keywordRows, positions, competitors, pid, keywords[j], attempts[j], useCache, track, limit,
                    StampFor(session, clock[j]), sid, engine, LatestOfDay(i, j, keywords, attempts, clock, useCache, session))
  }

  lemma EntriesStoredGrow(rows: seq<CompetitorRow>, rows': seq<CompetitorRow>, ctx: SaveContext,
                          entries: seq<Option<CompetitorEntry>>)
    requires EntriesStored(rows, ctx, entries) && rows <= rows'
    ensures EntriesStored(rows', ctx, entries)
  {
    forall k | 0 <= k < |entries| && Considered(entries[k]) && 1 <= PositionOrZero(entries[k].value) <= 100
      ensures HasKey(rows', KeyOfCompetitor(RowOf(ctx, entries[k].value, PositionOrZero(entries[k].value))))
    {
      var key := KeyOfCompetitor(RowOf(ctx, entries[k].value, PositionOrZero(entries[k].value)));
      var n :| 0 <= n < |rows| && KeyOfCompetitor(rows[n]) == key;
      assert rows'[n] == rows[n];
    }
  }

  /** The keyword just checked has its reading in the store, as the latest of its day. */
  lemma ReadingSaved(keywordRows: map<int, Keyword>, positions: map<int, PositionRow>, nextId: int,
                     competitors: seq<CompetitorRow>, domains: map<string, DomainRef>,
                     keywordRows': map<int, Keyword>, positions': map<int, PositionRow>, competitors': seq<CompetitorRow>,
                     pid: int, k: int, keyword: string, a: Attempt, useCache: bool, track: bool, limit: int,
                     at: Clock, sid: Option<int>, engine: string)
    requires UniquePositionKeys(positions) && IdsBelow(positions, nextId) && nextId >= 1
    requires keywordRows' == keywordRows[k := Keyword(pid, keyword, true)]
    requires positions' == Upsert(positions, nextId, RowFor(pid, k, a, useCache, at, sid, engine)).0
    requires competitors' == SaveAll(BatchState(competitors, domains, false, 0), SaveContext(pid, k, sid, at.date, at.time),
                                     AsEntries(CompetitorsFor(a, useCache, track, limit))).rows
    ensures ReadingStored(keywordRows', positions', competitors', pid, keyword, a, useCache, track, limit, at, sid, engine, true)
  {
    var row := RowFor(pid, k, a, useCache, at, sid, engine);
    UpsertKeepsKeysUnique(positions, nextId, row);
    var (p, id) := Upsert(positions, nextId, row);
    assert RowWithKey(p, KeyOfPosition(row)) == Some(id);
    SaveAllStoresEveryValidKey(BatchState(competitors, domains, false, 0), SaveContext(pid, k, sid, at.date, at.time),
                               AsEntries(CompetitorsFor(a, useCache, track, limit)));
    assert keywordRows'[k] == Keyword(pid, keyword, true);
    assert ReadingAt(positions', competitors', pid, k, a, useCache, track, limit, at, sid, engine, true);
  }

  /**
   * An earlier keyword's reading survives the next keyword's saves; it still
   * holds the reading unless the new save is for the same keyword and day.
   */
  lemma ReadingSurvives(keywordRows: map<int, Keyword>, positions: map<int, PositionRow>, nextId: int,
                        competitors: seq<CompetitorRow>, keywordRows': map<int, Keyword>,
                        positions': map<int, PositionRow>, competitors': seq<CompetitorRow>,
                        pid: int, keyword: string, a: Attempt, useCache: bool, track: bool, limit: int,
                        at: Clock, sid: Option<int>, engine: string, latest: bool, latest': bool,
                        k: int, keyword': string, row': PositionRow)
    requires ReadingStored(keywordRows, positions, competitors, pid, keyword, a, useCache, track, limit, at, sid, engine, latest)
    requires UniquePositionKeys(positions) && IdsBelow(positions, nextId) && nextId >= 1
    requires k in keywordRows ==> keywordRows[k].projectId == pid && keywordRows[k].text == keyword'
    requires keywordRows' == keywordRows[k := Keyword(pid, keyword', true)]
    requires row'.projectId == pid && row'.keywordId == k
    requires positions' == Upsert(positions, nextId, row').0
    requires competitors <= competitors'
    requires latest' ==> latest && (keyword' != keyword || row'.checkDate != at.date)
    ensures ReadingStored(keywordRows', positions', competitors', pid, keyword, a, useCache, track, limit, at, sid, engine, latest')
  {
    var kid :| kid in keywordRows && keywordRows[kid] == Keyword(pid, keyword, true)
      && ReadingAt(positions, competitors, pid, kid, a, useCache, track, limit, at, sid, engine, latest);
    assert keywordRows'[kid] == Keyword(pid, keyword, true);
    var row := RowFor(pid, kid, a, useCache, at, sid, engine);
    UpsertKeepsOtherRows(positions, nextId, row', KeyOfPosition(row));
    EntriesStoredGrow(competitors, competitors', SaveContext(pid, kid, sid, at.date, at.time),
                      AsEntries(CompetitorsFor(a, useCache, track, limit)));
    assert ReadingAt(positions', competitors', pid, kid, a, useCache, track, limit, at, sid, engine, latest');
  }

  lemma LatestStep(i: nat, j: nat, keywords: seq<string>, attempts: seq<Attempt>, clock: seq<Clock>,
                   useCache: bool, session: Option<Session>)
    requires |attempts| == |keywords| && |clock| == |keywords| && j < i < |keywords|
    ensures LatestOfDay(i + 1, j, keywords, attempts, clock, useCache, session) <==>
      && LatestOfDay(i, j, keywords, attempts, clock, useCache, session)
      && (Reaches(attempts[i], useCache) ==>
            keywords[i] != keywords[j] || StampFor(session, clock[i]).date != StampFor(session, clock[j]).date)
  {
  }

  /**
   * The writes of keyword `i`, as CheckKeyword makes them: none when it does
   * not reach the store, else its keyword row (re)activated, its position
   * upserted and its competitors saved, all stamped `StampFor(session, clock[i])`.
   */
  ghost predicate KeywordWrites(i: nat, pid: int, keywords: seq<string>, attempts: seq<Attempt>, clock: seq<Clock>,
                                useCache: bool, track: bool, limit: int, engine: string, sid: Option<int>,
                                session: Option<Session>, keywordRows: map<int, Keyword>,
                                positions: map<int, PositionRow>, nextId: int, competitors: seq<CompetitorRow>,
                                domains: map<string, DomainRef>, kid: Option<int>, keywordRows': map<int, Keyword>,
                                positions': map<int, PositionRow>, competitors': seq<CompetitorRow>)
    requires |attempts| == |keywords| && |clock| == |keywords| && i < |keywords|
  {
    var at := StampFor(session, clock[i]);
    && (kid.Some? <==> Reaches(attempts[i], useCache))
    && (kid.None? ==> keywordRows' == keywordRows && positions' == positions && competitors' == competitors)
    && (kid.Some? && kid.value in keywordRows ==>
          keywordRows[kid.value].projectId == pid && keywordRows[kid.value].text == keywords[i])
    && (kid.Some? ==> keywordRows' == keywordRows[kid.value := Keyword(pid, keywords[i], true)])
    && (kid.Some? ==>
          positions' == Upsert(positions, nextId, RowFor(pid, kid.value, attempts[i], useCache, at, sid, engine)).0)
    && (kid.Some? ==>
          competitors' == SaveAll(BatchState(competitors, domains, false, 0), SaveContext(pid, kid.value, sid, at.date, at.time),
                                  AsEntries(CompetitorsFor(attempts[i], useCache, track, limit))).rows)
  }

  /** One reading after keyword `i`'s writes: the new one is saved, an earlier one survives. */
  lemma SavedStepAt(i: nat, j: nat, pid: int, keywords: seq<string>, attempts: seq<Attempt>, clock: seq<Clock>,
                    useCache: bool, track: bool, limit: int, engine: string, sid: Option<int>, session: Option<Session>,
                    keywordRows: map<int, Keyword>, positions: map<int, PositionRow>, nextId: int,
                    competitors: seq<CompetitorRow>, domains: map<string, DomainRef>, kid: Option<int>,
                    keywordRows': map<int, Keyword>, positions': map<int, PositionRow>, competitors': seq<CompetitorRow>)
    requires |attempts| == |keywords| && |clock| == |keywords| && j <= i < |keywords|
    requires Reaches(attempts[j], useCache)
    requires j < i ==>
      ReadingStored(keywordRows, positions, competitors, pid, keywords[j], attempts[j], useCache, track, limit,
                    StampFor(session, clock[j]), sid, engine, LatestOfDay(i, j, keywords, attempts, clock, useCache, session))
    requires UniquePositionKeys(positions) && IdsBelow(positions, nextId) && nextId >= 1
    requires KeywordWrites(i, pid, keywords, attempts, clock, useCache, track, limit, engine, sid, session,
                           keywordRows, positions, nextId, competitors, domains, kid, keywordRows', positions', competitors')
    ensures ReadingStored(keywordRows', positions', competitors', pid, keywords[j], attempts[j], useCache, track, limit,
                          StampFor(session, clock[j]), sid, engine, LatestOfDay(i + 1, j, keywords, attempts, clock, useCache, session))
  {
    var at := StampFor(session, clock[i]);
    if j == i {
      ReadingSaved(keywordRows, positions, nextId, competitors, domains, keywordRows', positions', competitors',
                   pid, kid.value, keywords[i], attempts[i], useCache, track, limit, at, sid, engine);
    } else {
      LatestStep(i, j, keywords, attempts, clock, useCache, session);
      if kid.Some? {
        var batch := SaveAll(BatchState(competitors, domains, false, 0), SaveContext(pid, kid.value, sid, at.date, at.time),
                             AsEntries(CompetitorsFor(attempts[i], useCache, track, limit)));
        assert competitors <= batch.rows;
        ReadingSurvives(keywordRows, positions, nextId, competitors, keywordRows', positions', competitors',
                        pid, keywords[j], attempts[j], useCache, track, limit, StampFor(session, clock[j]), sid, engine,
                        LatestOfDay(i, j, keywords, attempts, clock, useCache, session),
                        LatestOfDay(i + 1, j, keywords, attempts, clock, useCache, session),
                        kid.value, keywords[i], RowFor(pid, kid.value, attempts[i], useCache, at, sid, engine));
      }
    }
  }

  /** One more keyword checked keeps every earlier reading and adds its own, and no position row disappears. */
  lemma SavedStep(i: nat, pid: int, keywords: seq<string>, attempts: seq<Attempt>, clock: seq<Clock>,
                  useCache: bool, track: bool, limit: int, engine: string, sid: Option<int>, session: Option<Session>,
                  keywordRows: map<int, Keyword>, positions: map<int, PositionRow>, nextId: int,
                  competitors: seq<CompetitorRow>, domains: map<string, DomainRef>, kid: Option<int>,
                  keywordRows': map<int, Keyword>, positions': map<int, PositionRow>, competitors': seq<CompetitorRow>)
    requires |attempts| == |keywords| && |clock| == |keywords| && i < |keywords|
    requires Saved(i, pid, keywords, attempts, clock, useCache, track, limit, engine, sid, session,
                   keywordRows, positions, competitors)
    requires UniquePositionKeys(positions) && IdsBelow(positions, nextId) && nextId >= 1
    requires KeywordWrites(i, pid, keywords, attempts, clock, useCache, track, limit, engine, sid, session,
                           keywordRows, positions, nextId, competitors, domains, kid, keywordRows', positions', competitors')
    ensures positions.Keys <= positions'.Keys
    ensures Saved(i + 1, pid, keywords, attempts, clock, useCache, track, limit, engine, sid, session,
                  keywordRows', positions', competitors')
  {
    forall j | 0 <= j < i + 1 && Reaches(attempts[j], useCache)
      ensures ReadingStored(keywordRows', positions', competitors', pid, keywords[j], attempts[j], useCache, track, limit,
                            StampFor(session, clock[j]), sid, engine, LatestOfDay(i + 1, j, keywords, attempts, clock, useCache, session))
    {
      SavedStepAt(i, j, pid, keywords, attempts, clock, useCache, track, limit, engine, sid, session,
                  keywordRows, positions, nextId, competitors, domains, kid, keywordRows', positions', competitors');
    }
    if kid.Some? {
      UpsertKeepsKeysUnique(positions, nextId, RowFor(pid, kid.value, attempts[i], useCache, StampFor(session, clock[i]), sid, engine));
    }
  }

  /** What the loop of check_positions has established after its first `i` keywords. */
  ghost predicate Progress(i: nat, pid: int, keywords: seq<string>, attempts: seq<Attempt>, clock: seq<Clock>,
                           useCache: bool, track: bool, limit: int, engine: string,
                           sid: Option<int>, session: Option<Session>,
                           results: seq<CheckResult>, all: seq<CompetitorEntry>, lastKid: Option<int>,
                           keywordRows: map<int, Keyword>, positions0: map<int, PositionRow>,
                           positions: map<int, PositionRow>, competitors0: seq<CompetitorRow>,
                           competitors: seq<CompetitorRow>)
    requires |attempts| == |keywords| && |clock| == |keywords| && i <= |keywords|
  {
    && ResultsMatch(results, keywords[..i], attempts[..i], clock[..i], useCache, engine, sid, session)
    && all == Collected(attempts[..i], useCache, track, limit)
    && (lastKid.None? <==> LastReached(attempts[..i], useCache).None?)
    && (lastKid.Some? ==>
          && lastKid.value in keywordRows && 1 <= lastKid.value
          && keywordRows[lastKid.value] == Keyword(pid, keywords[LastReached(attempts[..i], useCache).value], true))
    && WritesStamped(positions0, positions, competitors0, competitors, pid, sid, session)
    && positions0.Keys <= positions.Keys
    && Saved(i, pid, keywords, attempts, clock, useCache, track, limit, engine, sid, session,
             keywordRows, positions, competitors)
  }

  /** One more keyword checked, as CheckKeyword describes it, extends the progress by one. */
  lemma ProgressStep(i: nat, pid: int, keywords: seq<string>, attempts: seq<Attempt>, clock: seq<Clock>,
                     useCache: bool, track: bool, limit: int, engine: string,
                     sid: Option<int>, session: Option<Session>,
                     results: seq<CheckResult>, all: seq<CompetitorEntry>, lastKid: Option<int>,
                     keywordRows: map<int, Keyword>, positions0: map<int, PositionRow>,
                     positions: map<int, PositionRow>, competitors0: seq<CompetitorRow>,
                     competitors: seq<CompetitorRow>,
                     nextId: int, domains: map<string, DomainRef>,
                     r: CheckResult, kid: Option<int>, keywordRows': map<int, Keyword>,
                     positions': map<int, PositionRow>, competitors': seq<CompetitorRow>)
    requires |attempts| == |keywords| && |clock| == |keywords| && i < |keywords|
    requires Progress(i, pid, keywords, attempts, clock, useCache, track, limit, engine, sid, session,
                      results, all, lastKid, keywordRows, positions0, positions, competitors0, competitors)
    requires UniquePositionKeys(positions) && IdsBelow(positions, nextId) && nextId >= 1
    requires r == ResultFor(keywords[i], attempts[i], useCache, StampFor(session, clock[i]), clock[i], sid, engine)
    requires kid.Some? <==> Reaches(attempts[i], useCache)
    requires kid.None? ==> keywordRows' == keywordRows && positions' == positions && competitors' == competitors
    requires kid.Some? && kid.value in keywordRows ==>
      keywordRows[kid.value].projectId == pid && keywordRows[kid.value].text == keywords[i]
    requires kid.Some? ==> 1 <= kid.value && keywordRows' == keywordRows[kid.value := Keyword(pid, keywords[i], true)]
    requires kid.Some? ==>
      positions' == Upsert(positions, nextId, RowFor(pid, kid.value, attempts[i], useCache, StampFor(session, clock[i]), sid, engine)).0
    requires kid.Some? ==>
      var at := StampFor(session, clock[i]);
      competitors' == SaveAll(BatchState(competitors, domains, false, 0), SaveContext(pid, kid.value, sid, at.date, at.time),
                              AsEntries(CompetitorsFor(attempts[i], useCache, track, limit))).rows
    requires WritesStamped(positions, positions', competitors, competitors', pid, sid, session)
    ensures Progress(i + 1, pid, keywords, attempts, clock, useCache, track, limit, engine, sid, session,
                     results + [r], all + CompetitorsFor(attempts[i], useCache, track, limit),
                     if kid.Some? then kid else lastKid, keywordRows', positions0, positions', competitors0, competitors')
  {
    WritesStampedTrans(positions0, positions, positions', competitors0, competitors, competitors', pid, sid, session);
    ResultsMatchStep(results, r, keywords, attempts, clock, i, useCache, engine, sid, session);
    CollectedStep(attempts, i, useCache, track, limit);
    LastReachedStep(attempts, i, useCache);
    SavedStep(i, pid, keywords, attempts, clock, useCache, track, limit, engine, sid, session,
              keywordRows, positions, nextId, competitors, domains, kid, keywordRows', positions', competitors');
  }

  /** Every project that existed still exists, under the same domain. */
  ghost predicate ProjectsKept(before: map<int, Project>, after: map<int, Project>)
  {
    forall j :: j in before ==> j in after && after[j].domain == before[j].domain
  }

  // ------------------------------------------------------------ sessions around a check

  /** The session name: the one given, unless absent or empty, else "Проверка <domain> <YYYY-MM-DD HH:MM>". */
  function SessionName(domain: string, sessionName: Option<string>, nowText: string): string
  {
    if sessionName.Some? && sessionName.value != "" then sessionName.value
    else "Проверка " + domain + " " + nowText
  }

  /** `len([r for r in results if r.get('position') is not None])`. */
  function Successes(results: seq<CheckResult>): (n: nat)
    ensures n <= |results|
  {
    if results == [] then 0
    else Successes(results[..|results| - 1]) + (if PositionOf(results[|results| - 1]).Some? then 1 else 0)
  }

  /** An error entry never counts as a success. */
  lemma {:induction false} FailuresAreNotSuccesses(results: seq<CheckResult>)
    requires forall i :: 0 <= i < |results| ==> results[i].CheckFailed?
    ensures Successes(results) == 0
  {
    if results != [] {
      FailuresAreNotSuccesses(results[..|results| - 1]);
    }
  }

  /** The session row as create_monitoring_session writes it. */
  function OpenedSession(pid: int, name: string, start: Clock): Session
  {
    Session(pid, Some(name), start, None, Running, None, None)
  }

  /**
   * check_positions_with_session for a configured domain: a new session is
   * opened for the project, the check runs stamped with its start, and the
   * session is closed as completed (with the keyword and success counts) or,
   * when a fault escapes the check, as failed with no results returned.
   */
  ghost predicate SessionRun(pid: int, domain: string, name: string, start: Clock, end: Clock, fault: Option<string>,
                             sessions0: map<int, Session>, next0: int, sessions: map<int, Session>, sessionId: int,
                             projects: map<int, Project>, results: seq<CheckResult>, keywords: seq<string>,
                             attempts: seq<Attempt>, clock: seq<Clock>, useCache: bool, track: bool, limit: int,
                             engine: string, positions0: map<int, PositionRow>, positions: map<int, PositionRow>,
                             competitors0: seq<CompetitorRow>, competitors: seq<CompetitorRow>,
                             snapshots0: map<SnapshotKey, Snapshot>, snapshots: map<SnapshotKey, Snapshot>,
                             keywordRows: map<int, Keyword>)
    requires |attempts| == |keywords| && |clock| == |keywords|
  {
    var row := OpenedSession(pid, name, start);
    && pid in projects && projects[pid].domain == domain
    && sessionId == next0 && sessionId !in sessions0
    && WritesStamped(positions0, positions, competitors0, competitors, pid, Some(sessionId), Some(row))
    && positions0.Keys <= positions.Keys
    && Saved(|keywords|, pid, keywords, attempts, clock, useCache, track, limit, engine, Some(sessionId), Some(row),
             keywordRows, positions, competitors)
    && SnapshotStored(snapshots0, snapshots, keywordRows, pid, keywords, attempts, clock, Some(row), useCache, track, limit)
    && (fault.None? ==>
          && ResultsMatch(results, keywords, attempts, clock, useCache, engine, Some(sessionId), Some(row))
          && sessions == sessions0[sessionId := row.(endTime := Some(end), status := Completed,
                                                    totalKeywords := Some(|keywords|),
                                                    completedKeywords := Some(Successes(results)))])
    && (fault.Some? ==>
          && results == []
          && sessions == sessions0[sessionId := row.(endTime := Some(end), status := Failed,
                                                    name := if fault.value != "" then Some("FAILED: " + Take(fault.value, 100))
                                                            else Some(name))])
  }

  /**
   * The check inside a session sees the session's own project: whatever
   * project CheckedProject names is the one the session was opened for, so
   * the session is kept and its start stamps everything.
   */
  lemma SessionProject(pid: int, other: int, domain: string, projects0: map<int, Project>, projects: map<int, Project>,
                       sessions: map<int, Session>, sessionId: int, row: Session, results: seq<CheckResult>,
                       keywords: seq<string>, attempts: seq<Attempt>, clock: seq<Clock>, useCache: bool, track: bool,
                       limit: int, engine: string, positions0: map<int, PositionRow>, positions: map<int, PositionRow>,
                       competitors0: seq<CompetitorRow>, competitors: seq<CompetitorRow>,
                       snapshots0: map<SnapshotKey, Snapshot>, snapshots: map<SnapshotKey, Snapshot>,
                       keywordRows: map<int, Keyword>)
    requires |attempts| == |keywords| && |clock| == |keywords|
    requires UniqueDomains(projects) && ProjectsKept(projects0, projects)
    requires pid in projects0 && projects0[pid].domain == domain
    requires sessionId in sessions && sessions[sessionId] == row && row.projectId == pid
    requires CheckedProject(other, domain, projects, sessions, Some(sessionId), results, keywords, attempts, clock,
                            useCache, track, limit, engine, positions0, positions, competitors0, competitors,
                            snapshots0, snapshots, keywordRows)
    ensures pid in projects && projects[pid].domain == domain
    ensures ResultsMatch(results, keywords, attempts, clock, useCache, engine, Some(sessionId), Some(row))
    ensures WritesStamped(positions0, positions, competitors0, competitors, pid, Some(sessionId), Some(row))
    ensures positions0.Keys <= positions.Keys
    ensures Saved(|keywords|, pid, keywords, attempts, clock, useCache, track, limit, engine, Some(sessionId), Some(row),
                  keywordRows, positions, competitors)
    ensures SnapshotStored(snapshots0, snapshots, keywordRows, pid, keywords, attempts, clock, Some(row),
                           useCache, track, limit)
  {
    assert other == pid;
    assert ResolveSession(sessions, Some(sessionId), pid) == Some(sessionId);
  }

  lemma SessionRunIntro(pid: int, domain: string, name: string, start: Clock, end: Clock, fault: Option<string>,
                         sessions0: map<int, Session>, next0: int, sessions: map<int, Session>, sessionId: int,
                         projects: map<int, Project>, results: seq<CheckResult>, keywords: seq<string>,
                         attempts: seq<Attempt>, clock: seq<Clock>, useCache: bool, track: bool, limit: int,
                         engine: string, positions0: map<int, PositionRow>, positions: map<int, PositionRow>,
                         competitors0: seq<CompetitorRow>, competitors: seq<CompetitorRow>,
                         snapshots0: map<SnapshotKey, Snapshot>, snapshots: map<SnapshotKey, Snapshot>,
                         keywordRows: map<int, Keyword>)
    requires |attempts| == |keywords| && |clock| == |keywords|
    requires pid in projects && projects[pid].domain == domain
    requires sessionId == next0 && sessionId !in sessions0
    requires var row := OpenedSession(pid, name, start);
      && WritesStamped(positions0, positions, competitors0, competitors, pid, Some(sessionId), Some(row))
      && positions0.Keys <= positions.Keys
      && Saved(|keywords|, pid, keywords, attempts, clock, useCache, track, limit, engine, Some(sessionId), Some(row),
               keywordRows, positions, competitors)
      && SnapshotStored(snapshots0, snapshots, keywordRows, pid, keywords, attempts, clock, Some(row), useCache, track, limit)
    requires var row := OpenedSession(pid, name, start);
      fault.None? ==>
        && ResultsMatch(results, keywords, attempts, clock, useCache, engine, Some(sessionId), Some(row))
        && sessions == sessions0[sessionId := row][sessionId := row.(endTime := Some(end), status := Completed,
                                                                    totalKeywords := Some(|keywords|),
                                                                    completedKeywords := Some(Successes(results)))]
    requires var row := OpenedSession(pid, name, start);
      fault.Some? ==>
        && results == []
        && sessions == sessions0[sessionId := row][sessionId := row.(endTime := Some(end), status := Failed,
                                                                    name := if fault.value != "" then Some("FAILED: " + Take(fault.value, 100))
                                                                            else row.name)]
    ensures SessionRun(pid, domain, name, start, end, fault, sessions0, next0, sessions, sessionId, projects, results,
                       keywords, attempts, clock, useCache, track, limit, engine, positions0, positions,
                       competitors0, competitors, snapshots0, snapshots, keywordRows)
  {
    var row := OpenedSession(pid, name, start);
    assert sessions0[sessionId := row][sessionId := row.(endTime := Some(end))] == sessions0[sessionId := row.(endTime := Some(end))];
  }

  // ------------------------------------------------------------ the collector

  class DataCollector {
    const config: seq<ProjectConfig>
    const db: SEODatabase

    ghost predicate Valid()
      reads this, db
    {
      db.Valid()
    }

    /** The configuration (read from the YAML file) and a freshly opened store. */
    constructor (config: seq<ProjectConfig>)
      ensures Valid() && this.config == config
      ensures db.projects == map[] && db.sessions == map[] && db.positions == map[] && db.competitors == []
    {
      this.config := config;
      db := new SEODatabase();
    }

    /**
     * check_positions. A domain without a configured project yields no results
     * and no writes. Otherwise there is one result per keyword, in order; a
     * session that does not belong to the project is dropped; with a session
     * every row written is stamped with its start; and one snapshot is written
     * exactly when competitors were tracked and collected.
     */
    method CheckPositions(domain: string, keywords: seq<string>, sessionId: Option<int>, engine: string,
                          useCache: bool, track: bool, limit: int, attempts: seq<Attempt>, clock: seq<Clock>)
      returns (results: seq<CheckResult>)
      requires Valid()
      requires |attempts| == |keywords| && |clock| == |keywords|
      modifies db`projects, db`nextProjectId, db`keywords, db`nextKeywordId, db`positions, db`nextPositionId
      modifies db`competitors, db`domains, db`snapshots
      ensures Valid()
      ensures ProjectsKept(old(db.projects), db.projects)
      ensures FindProject(config, domain).None? ==>
        results == [] && unchanged(db`projects, db`keywords, db`positions, db`competitors, db`domains, db`snapshots)
      ensures FindProject(config, domain).Some? ==>
        exists pid :: CheckedProject(pid, domain, db.projects, db.sessions, sessionId, results, keywords, attempts, clock,
                                     useCache, track, limit, engine, old(db.positions), db.positions,
                                     old(db.competitors), db.competitors, old(db.snapshots), db.snapshots, db.keywords)
    {
      var project := FindProject(config, domain);
      if project.None? {
        return [];
      }
      var entry := config[project.value];
      var name := if entry.name.Some? then entry.name.value else domain;
      results := CheckProject(name, domain, keywords, sessionId, engine, useCache, track, limit, attempts, clock);
    }

    /**
     * check_positions_with_session. `start` and `end` are the clock readings
     * of the session's creation and closing, `nowText` the minute-precision
     * text of the default name, and `fault` an exception escaping
     * check_positions once its writes are done. An unknown domain gives
     * ([], -1) and writes nothing.
     */
    method CheckPositionsWithSession(domain: string, keywords: seq<string>, sessionName: Option<string>, engine: string,
                                     useCache: bool, track: bool, limit: int, attempts: seq<Attempt>, clock: seq<Clock>,
                                     start: Clock, end: Clock, nowText: string, fault: Option<string>)
      returns (results: seq<CheckResult>, sessionId: int)
      requires Valid()
      requires |attempts| == |keywords| && |clock| == |keywords|
      modifies db`projects, db`nextProjectId, db`keywords, db`nextKeywordId, db`positions, db`nextPositionId
      modifies db`competitors, db`domains, db`snapshots, db`sessions, db`nextSessionId
      ensures Valid()
      ensures FindProject(config, domain).None? ==>
        && results == [] && sessionId == -1
        && unchanged(db`projects, db`sessions, db`keywords, db`positions, db`competitors, db`domains, db`snapshots)
      ensures FindProject(config, domain).Some? ==>
        exists pid :: SessionRun(pid, domain, SessionName(domain, sessionName, nowText), start, end, fault,
                                 old(db.sessions), old(db.nextSessionId), db.sessions, sessionId, db.projects,
                                 results, keywords, attempts, clock, useCache, track, limit, engine,
                                 old(db.positions), db.positions, old(db.competitors), db.competitors,
                                 old(db.snapshots), db.snapshots, db.keywords)
    {
      var project := FindProject(config, domain);
      if project.None? {
        return [], -1;
      }
      var entry := config[project.value];
      var projectName := if entry.name.Some? then entry.name.value else domain;
      results, sessionId := OpenAndRun(projectName, domain, SessionName(domain, sessionName, nowText), keywords, engine,
                                       useCache, track, limit, attempts, clock, start, end, fault);
    }

    /** The project row, kept or created for the domain, and a running session opened for it. */
    method OpenSession(projectName: string, domain: string, name: string, start: Clock) returns (pid: int, sessionId: int)
      requires Valid()
      modifies db`projects, db`nextProjectId, db`sessions, db`nextSessionId
      ensures Valid()
      ensures pid in db.projects && db.projects[pid] == Project(projectName, domain)
      ensures db.projects == old(db.projects)[pid := Project(projectName, domain)]
      ensures sessionId == old(db.nextSessionId) && sessionId !in old(db.sessions)
      ensures db.sessions == old(db.sessions)[sessionId := OpenedSession(pid, name, start)]
    {
      pid := db.GetOrCreateProject(projectName, domain);
      sessionId := db.CreateMonitoringSession(pid, Some(name), start);
    }

    /** The session part of check_positions_with_session once the project entry is found. */
    method OpenAndRun(projectName: string, domain: string, name: string, keywords: seq<string>, engine: string,
                      useCache: bool, track: bool, limit: int, attempts: seq<Attempt>, clock: seq<Clock>,
                      start: Clock, end: Clock, fault: Option<string>)
      returns (results: seq<CheckResult>, sessionId: int)
      requires Valid()
      requires |attempts| == |keywords| && |clock| == |keywords|
      requires FindProject(config, domain).Some?
      modifies db`projects, db`nextProjectId, db`keywords, db`nextKeywordId, db`positions, db`nextPositionId
      modifies db`competitors, db`domains, db`snapshots, db`sessions, db`nextSessionId
      ensures Valid()
      ensures exists pid :: SessionRun(pid, domain, name, start, end, fault,
                                       old(db.sessions), old(db.nextSessionId), db.sessions, sessionId, db.projects,
                                       results, keywords, attempts, clock, useCache, track, limit, engine,
                                       old(db.positions), db.positions, old(db.competitors), db.competitors,
                                       old(db.snapshots), db.snapshots, db.keywords)
    {
      ghost var sessions0, next0 := db.sessions, db.nextSessionId;
      var pid;
      pid, sessionId := OpenSession(projectName, domain, name, start);
      ghost var positions0, competitors0, snapshots0 := db.positions, db.competitors, db.snapshots;
      results := RunSession(pid, sessionId, OpenedSession(pid, name, start), domain, keywords, engine, useCache, track,
                            limit, attempts, clock, end, fault);
      SessionRunIntro(pid, domain, name, start, end, fault, sessions0, next0, db.sessions, sessionId, db.projects,
                      results, keywords, attempts, clock, useCache, track, limit, engine, positions0, db.positions,
                      competitors0, db.competitors, snapshots0, db.snapshots, db.keywords);
    }

    /** The try/except of check_positions_with_session once its session is open. */
    method RunSession(pid: int, sessionId: int, ghost row: Session, domain: string, keywords: seq<string>, engine: string,
                      useCache: bool, track: bool, limit: int, attempts: seq<Attempt>, clock: seq<Clock>,
                      end: Clock, fault: Option<string>)
      returns (results: seq<CheckResult>)
      requires Valid()
      requires |attempts| == |keywords| && |clock| == |keywords|
      requires FindProject(config, domain).Some?
      requires pid in db.projects && db.projects[pid].domain == domain
      requires sessionId in db.sessions && db.sessions[sessionId] == row && row.projectId == pid
      modifies db`projects, db`nextProjectId, db`keywords, db`nextKeywordId, db`positions, db`nextPositionId
      modifies db`competitors, db`domains, db`snapshots, db`sessions
      ensures Valid()
      ensures pid in db.projects && db.projects[pid].domain == domain
      ensures WritesStamped(old(db.positions), db.positions, old(db.competitors), db.competitors, pid, Some(sessionId), Some(row))
      ensures old(db.positions).Keys <= db.positions.Keys
      ensures Saved(|keywords|, pid, keywords, attempts, clock, useCache, track, limit, engine, Some(sessionId), Some(row),
                    db.keywords, db.positions, db.competitors)
      ensures SnapshotStored(old(db.snapshots), db.snapshots, db.keywords, pid, keywords, attempts, clock, Some(row),
                             useCache, track, limit)
      ensures fault.None? ==>
        && ResultsMatch(results, keywords, attempts, clock, useCache, engine, Some(sessionId), Some(row))
        && db.sessions == old(db.sessions)[sessionId := row.(endTime := Some(end), status := Completed,
                                                             totalKeywords := Some(|keywords|),
                                                             completedKeywords := Some(Successes(results)))]
      ensures fault.Some? ==>
        && results == []
        && db.sessions == old(db.sessions)[sessionId := row.(endTime := Some(end), status := Failed,
                                                             name := if fault.value != "" then Some("FAILED: " + Take(fault.value, 100))
                                                                     else row.name)]
    {
      ghost var projects0 := db.projects;
      var checked := CheckPositions(domain, keywords, Some(sessionId), engine, useCache, track, limit, attempts, clock);
      ghost var other :| CheckedProject(other, domain, db.projects, db.sessions, Some(sessionId), checked, keywords, attempts,
                                        clock, useCache, track, limit, engine, old(db.positions), db.positions,
                                        old(db.competitors), db.competitors, old(db.snapshots), db.snapshots, db.keywords);
      SessionProject(pid, other, domain, projects0, db.projects, db.sessions, sessionId, row, checked, keywords, attempts,
                     clock, useCache, track, limit, engine, old(db.positions), db.positions, old(db.competitors),
                     db.competitors, old(db.snapshots), db.snapshots, db.keywords);
      if fault.Some? {
        db.FailMonitoringSession(sessionId, Some(fault.value), end);
        results := [];
      } else {
        db.CompleteMonitoringSession(sessionId, Some(|keywords|), Some(Successes(checked)), end);
        results := checked;
      }
    }

    /** check_positions once the project entry is found: the project row, the session, the keywords. */
    method CheckProject(name: string, domain: string, keywords: seq<string>, sessionId: Option<int>, engine: string,
                        useCache: bool, track: bool, limit: int, attempts: seq<Attempt>, clock: seq<Clock>)
      returns (results: seq<CheckResult>)
      requires Valid()
      requires |attempts| == |keywords| && |clock| == |keywords|
      modifies db`projects, db`nextProjectId, db`keywords, db`nextKeywordId, db`positions, db`nextPositionId
      modifies db`competitors, db`domains, db`snapshots
      ensures Valid()
      ensures ProjectsKept(old(db.projects), db.projects)
      ensures exists pid :: CheckedProject(pid, domain, db.projects, db.sessions, sessionId, results, keywords, attempts,
                                           clock, useCache, track, limit, engine, old(db.positions), db.positions,
                                           old(db.competitors), db.competitors, old(db.snapshots), db.snapshots, db.keywords)
    {
      var pid := db.GetOrCreateProject(name, domain);
      var sid := ResolveSession(db.sessions, sessionId, pid);
      var session := SessionRow(db.sessions, sid);
      ghost var positions0, competitors0, snapshots0 := db.positions, db.competitors, db.snapshots;
      results := CheckKeywords(pid, keywords, sid, session, engine, useCache, track, limit, attempts, clock);
      CheckedProjectIntro(pid, domain, db.projects, db.sessions, sessionId, sid, session, results, keywords,
                          attempts, clock, useCache, track, limit, engine, positions0, db.positions,
                          competitors0, db.competitors, snapshots0, db.snapshots, db.keywords);
    }

    /**
     * The loop of check_positions once the project and the session are known,
     * followed by the snapshot of the collected top 10, stored under the last
     * keyword that reached the store and the date of the last check.
     */
    method CheckKeywords(pid: int, keywords: seq<string>, sid: Option<int>, session: Option<Session>, engine: string,
                         useCache: bool, track: bool, limit: int, attempts: seq<Attempt>, clock: seq<Clock>)
      returns (results: seq<CheckResult>)
      requires Valid()
      requires |attempts| == |keywords| && |clock| == |keywords|
      requires sid.Some? <==> session.Some?
      modifies db`keywords, db`nextKeywordId, db`positions, db`nextPositionId, db`competitors, db`domains, db`snapshots
      ensures Valid()
      ensures ResultsMatch(results, keywords, attempts, clock, useCache, engine, sid, session)
      ensures WritesStamped(old(db.positions), db.positions, old(db.competitors), db.competitors, pid, sid, session)
      ensures old(db.positions).Keys <= db.positions.Keys
      ensures Saved(|keywords|, pid, keywords, attempts, clock, useCache, track, limit, engine, sid, session,
                    db.keywords, db.positions, db.competitors)
      ensures SnapshotStored(old(db.snapshots), db.snapshots, db.keywords, pid, keywords, attempts, clock,
                             session, useCache, track, limit)
    {
      var all, lastKid;
      results, all, lastKid := CheckEach(pid, keywords, sid, session, engine, useCache, track, limit, attempts, clock);
      if track && all != [] && lastKid.Some? && lastKid.value != 0 {
        var day := StampFor(session, clock[|clock| - 1]).date;
        var top := TopTen(all);
        var _ := db.SaveSnapshotIfChanged(pid, lastKid.value, day, top, None);
        SnapshotStoredUnder(old(db.snapshots), db.snapshots, db.keywords, pid, keywords, attempts, clock, session,
                            useCache, track, limit, lastKid.value);
      } else {
        NothingCollected(db.snapshots, db.keywords, pid, keywords, attempts, clock, session, useCache, track, limit);
      }
    }

    /** The keywords one by one, in order; what the snapshot needs is returned. */
    method CheckEach(pid: int, keywords: seq<string>, sid: Option<int>, session: Option<Session>, engine: string,
                     useCache: bool, track: bool, limit: int, attempts: seq<Attempt>, clock: seq<Clock>)
      returns (results: seq<CheckResult>, all: seq<CompetitorEntry>, lastKid: Option<int>)
      requires Valid()
      requires |attempts| == |keywords| && |clock| == |keywords|
      requires sid.Some? <==> session.Some?
      modifies db`keywords, db`nextKeywordId, db`positions, db`nextPositionId, db`competitors, db`domains
      ensures Valid()
      ensures ResultsMatch(results, keywords, attempts, clock, useCache, engine, sid, session)
      ensures all == Collected(attempts, useCache, track, limit)
      ensures lastKid.None? <==> LastReached(attempts, useCache).None?
      ensures lastKid.Some? ==>
        && lastKid.value in db.keywords && 1 <= lastKid.value
        && db.keywords[lastKid.value] == Keyword(pid, keywords[LastReached(attempts, useCache).value], true)
      ensures WritesStamped(old(db.positions), db.positions, old(db.competitors), db.competitors, pid, sid, session)
      ensures old(db.positions).Keys <= db.positions.Keys
      ensures Saved(|keywords|, pid, keywords, attempts, clock, useCache, track, limit, engine, sid, session,
                    db.keywords, db.positions, db.competitors)
    {
      ghost var positions0 := db.positions;
      ghost var competitors0 := db.competitors;
      results := [];
      all := [];
      lastKid := None;
      var i := 0;
      assert keywords[..0] == [] && attempts[..0] == [] && clock[..0] == [];
      while i < |keywords|
        invariant 0 <= i <= |keywords|
        invariant Valid()
        invariant Progress(i, pid, keywords, attempts, clock, useCache, track, limit, engine, sid, session,
                           results, all, lastKid, db.keywords, positions0, db.positions, competitors0, db.competitors)
      {
        ghost var keywordRows, positions, competitors := db.keywords, db.positions, db.competitors;
        ghost var nextId, domains := db.nextPositionId, db.domains;
        var r, kid := CheckKeyword(pid, keywords[i], attempts[i], useCache, track, limit, session, clock[i], sid, engine);
        ProgressStep(i, pid, keywords, attempts, clock, useCache, track, limit, engine, sid, session,
                     results, all, lastKid, keywordRows, positions0, positions, competitors0, competitors,
                     nextId, domains, r, kid, db.keywords, db.positions, db.competitors);
        results := results + [r];
        all := all + CompetitorsFor(attempts[i], useCache, track, limit);
        if kid.Some? {
          lastKid := kid;
        }
        i := i + 1;
      }
      assert attempts[..|keywords|] == attempts && keywords[..|keywords|] == keywords && clock[..|keywords|] == clock;
    }

    /**
     * The body of check_positions' loop for one keyword. A search that raises
     * writes nothing and yields an error entry; otherwise the keyword is
     * resolved, its position saved, and (when tracking) its competitors, cut
     * to the limit, saved.
     */
    method CheckKeyword(pid: int, keyword: string, a: Attempt, useCache: bool, track: bool, limit: int,
                        session: Option<Session>, now: Clock, sid: Option<int>, engine: string)
      returns (r: CheckResult, kid: Option<int>)
      requires Valid()
      requires sid.Some? <==> session.Some?
      modifies db`keywords, db`nextKeywordId, db`positions, db`nextPositionId, db`competitors, db`domains
      ensures Valid()
      ensures r == ResultFor(keyword, a, useCache, StampFor(session, now), now, sid, engine)
      ensures kid.Some? <==> Reaches(a, useCache)
      ensures kid.None? ==> unchanged(db`keywords, db`positions, db`competitors, db`domains)
      ensures kid.Some? ==> 1 <= kid.value && db.keywords == old(db.keywords)[kid.value := Keyword(pid, keyword, true)]
      ensures kid.Some? && kid.value in old(db.keywords) ==>
        old(db.keywords)[kid.value].projectId == pid && old(db.keywords)[kid.value].text == keyword
      ensures kid.Some? ==>
                db.positions == Upsert(old(db.positions), old(db.nextPositionId), RowFor(pid, kid.value, a, useCache, StampFor(session, now), sid, engine)).0
      ensures kid.Some? ==>
        var at := StampFor(session, now);
        var batch := SaveAll(BatchState(old(db.competitors), old(db.domains), false, 0),
                             SaveContext(pid, kid.value, sid, at.date, at.time), AsEntries(CompetitorsFor(a, useCache, track, limit)));
        db.competitors == batch.rows && db.domains == batch.domains
      ensures WritesStamped(old(db.positions), db.positions, old(db.competitors), db.competitors, pid, sid, session)
    {
      var at := StampFor(session, now);
      if UsesCache(a, useCache) {
        var c := a.cached.value;
        var k := SaveReading(pid, keyword, PositionOf(c), UrlOf(c), TotalOf(c), [], at, sid, engine, session);
        return c, Some(k);
      }
      match a.fetch {
        case Raised(msg) =>
          r := CheckFailed(keyword, msg, Clock(now.date, WholeSeconds(now.time)), sid);
          kid := None;
        case Fetched(d) =>
          var competitors := d.competitors;
          if competitors != [] && track {
            competitors := PySlice(competitors, limit);
          } else {
            competitors := [];
          }
          var k := SaveReading(pid, keyword, d.position, d.url, d.totalResults, competitors, at, sid, engine, session);
          r := Checked(keyword, d.position, at, sid, engine, d.url, d.totalResults, d.source);
          kid := Some(k);
      }
    }

    /**
     * The writes for a keyword whose position is known: the keyword row, the
     * position row and, when there are any, the competitors, all stamped `at`.
     */
    method SaveReading(pid: int, keyword: string, position: Option<int>, url: string, total: int,
                       competitors: seq<CompetitorEntry>, at: Clock, sid: Option<int>, engine: string,
                       ghost session: Option<Session>)
      returns (k: int)
      requires Valid()
      requires session.Some? ==> sid.Some? && at == session.value.startTime
      modifies db`keywords, db`nextKeywordId, db`positions, db`nextPositionId, db`competitors, db`domains
      ensures Valid()
      ensures 1 <= k && db.keywords == old(db.keywords)[k := Keyword(pid, keyword, true)]
      ensures k in old(db.keywords) ==> old(db.keywords)[k].projectId == pid && old(db.keywords)[k].text == keyword
      ensures db.positions ==
                Upsert(old(db.positions), old(db.nextPositionId),
                       PositionRow(pid, k, sid, at.date, at.time, position, url, total, engine)).0
      ensures var batch := SaveAll(BatchState(old(db.competitors), old(db.domains), false, 0),
                                   SaveContext(pid, k, sid, at.date, at.time), AsEntries(competitors));
              db.competitors == batch.rows && db.domains == batch.domains
      ensures WritesStamped(old(db.positions), db.positions, old(db.competitors), db.competitors, pid, sid, session)
    {
      k := db.GetOrCreateKeyword(pid, keyword);
      UpsertStamped(db.positions, db.nextPositionId, PositionRow(pid, k, sid, at.date, at.time, position, url, total, engine),
                    pid, sid, session);
      var _ := db.SavePosition(pid, k, at.date, at.time, position, url, total, engine, sid);
      BatchStamped(BatchState(db.competitors, db.domains, false, 0), SaveContext(pid, k, sid, at.date, at.time),
                   AsEntries(competitors), pid, sid, session);
      if competitors != [] {
        var _ := db.SaveCompetitors(pid, k, at.date, at.time, AsEntries(competitors), sid);
      }
    }
  }
}
