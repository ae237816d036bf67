/**
 * The data-shaping part of the competitor report (HTMLReporterCompetitor):
 * the monitoring sessions that hold positions of the project's keywords,
 * newest first; for each keyword and session the top-ten cell (the stored
 * competitors, our own site where no competitor holds its position,
 * placeholders for the absent positions 1 to 10, sorted and cut to ten); the
 * statistics of each keyword's latest cell; and the shortened URL shown in a
 * cell. What the database holds is an input (the positions and competitors
 * tables, the monitoring sessions and the project's active keywords) and the
 * report's queries are modelled on it; `urlparse` is a parameter.
 */
module CompetitorReport {
  import opened Common

  /** The size of a cell: positions 1 to 10. */
  const TopSize: nat := 10
  /** A path longer than PathLimit is cut to PathKeep characters and "...". */
  const PathLimit: nat := 30
  const PathKeep: nat := 27
  /** Without a parse, the URL is cut to RawLimit characters. */
  const RawLimit: nat := 40

  const OurTitle: string := "Наш сайт"
  const MissingDomain: string := "???"
  const MissingTitle: string := "Позиция отсутствует в выдаче"
  const MissingDisplay: string := "(нет данных)"

  // ------------------------------------------------------------ shortened URLs

  /** What `urlparse` yields that the report uses. */
  datatype UrlParts = UrlParts(netloc: string, path: string)

  /**
   * _shorten_url: "" for an empty URL; otherwise the host followed by the
   * path, a path longer than 30 characters cut to 27 and marked "..."; when
   * `urlparse` raises (`parse` gives None), the first 40 characters of the
   * URL, marked "..." when it is longer.
   */
  function ShortenUrl(url: string, parse: string -> Option<UrlParts>): string
  {
    if url == "" then ""
    else
      match parse(url)
      case Some(p) => p.netloc + (if |p.path| > PathLimit then p.path[..PathKeep] + "..." else p.path)
      case None => Take(url, RawLimit) + (if |url| > RawLimit then "..." else "")
  }

  /**
   * The shortened URL starts with the host and is at most 30 characters
   * longer; a short path is kept whole and a long one keeps its first 27
   * characters; a URL that does not parse keeps its first 40 characters.
   */
  lemma ShortenUrlShape(url: string, parse: string -> Option<UrlParts>)
    ensures url == "" ==> ShortenUrl(url, parse) == ""
    ensures url != "" && parse(url).Some? ==>
      && IsPrefix(parse(url).value.netloc, ShortenUrl(url, parse))
      && |ShortenUrl(url, parse)| <= |parse(url).value.netloc| + PathLimit
      && (|parse(url).value.path| <= PathLimit ==> ShortenUrl(url, parse) == parse(url).value.netloc + parse(url).value.path)
      && (|parse(url).value.path| > PathLimit ==>
            ShortenUrl(url, parse) == parse(url).value.netloc + parse(url).value.path[..PathKeep] + "...")
    ensures url != "" && parse(url).None? ==>
      && IsPrefix(Take(url, RawLimit), ShortenUrl(url, parse))
      && |ShortenUrl(url, parse)| <= RawLimit + 3
      && (|url| <= RawLimit ==> ShortenUrl(url, parse) == url)
  {
    if url != "" && parse(url).Some? {
      var p := parse(url).value;
      var r := ShortenUrl(url, parse);
      assert r[..|p.netloc|] == p.netloc;
    } else if url != "" {
      var r := ShortenUrl(url, parse);
      assert r[..|Take(url, RawLimit)|] == Take(url, RawLimit);
    }
  }

  // ------------------------------------------------------------ the session query

  /** A positions row as the report reads it; a null URL reads as "". */
  datatype OurRow = OurRow(keywordId: int, sessionId: Option<int>, position: Option<int>, url: string)

  /** A competitors row as the report reads it; a null URL or title reads as "". */
  datatype CompetitorRow = CompetitorRow(keywordId: int, sessionId: Option<int>, position: Option<int>,
                                         domain: string, url: string, title: string)

  /** Positions row `r` joins session `id` in the session query. */
  predicate Joins(r: OurRow, keywords: map<int, string>, sessions: map<int, SessionInfo>, session: Option<int>, id: int)
  {
    r.keywordId in keywords && r.sessionId == Some(id) && id in sessions && (SessionAsked(session) ==> session == Some(id))
  }

  /** The ids of the sessions the rows join, each once, in order of first appearance. */
  function JoinedIds(rows: seq<OurRow>, keywords: map<int, string>, sessions: map<int, SessionInfo>,
                     session: Option<int>): (ids: seq<int>)
    ensures forall id :: id in ids ==> id in sessions
    ensures forall i, j :: 0 <= i < j < |ids| ==> ids[i] != ids[j]
  {
    if rows == [] then []
    else
      var ids := JoinedIds(rows[..|rows| - 1], keywords, sessions, session);
      var r := rows[|rows| - 1];
      if r.sessionId.Some? && Joins(r, keywords, sessions, session, r.sessionId.value) && r.sessionId.value !in ids
      then ids + [r.sessionId.value]
      else ids
  }

  lemma {:induction false} JoinedIdsExact(rows: seq<OurRow>, keywords: map<int, string>, sessions: map<int, SessionInfo>,
                                          session: Option<int>)
    ensures forall id :: id in JoinedIds(rows, keywords, sessions, session) <==>
      exists i :: 0 <= i < |rows| && Joins(rows[i], keywords, sessions, session, id)
  {
    if rows != [] {
      var n := |rows| - 1;
      var init := rows[..n];
      assert forall i :: 0 <= i < n ==> rows[i] == init[i];
      JoinedIdsExact(init, keywords, sessions, session);
      forall id | exists i :: 0 <= i < |rows| && Joins(rows[i], keywords, sessions, session, id)
        ensures id in JoinedIds(rows, keywords, sessions, session)
      {
        var i :| 0 <= i < |rows| && Joins(rows[i], keywords, sessions, session, id);
        if i < n {
          assert Joins(init[i], keywords, sessions, session, id);
        }
      }
    }
  }

  /** A row of the session query: `session_id, session_name, start_time`. */
  datatype SessionRow = SessionRow(id: int, name: string, start: Clock)

  function RowsOf(ids: seq<int>, sessions: map<int, SessionInfo>): (rows: seq<SessionRow>)
    requires forall i :: 0 <= i < |ids| ==> ids[i] in sessions
    ensures |rows| == |ids|
    ensures forall i :: 0 <= i < |ids| ==> rows[i] == SessionRow(ids[i], sessions[ids[i]].name, sessions[ids[i]].start)
  {
    seq(|ids|, i requires 0 <= i < |ids| => SessionRow(ids[i], sessions[ids[i]].name, sessions[ids[i]].start))
  }

  function Newest(r: SessionRow): int
  {
    -(Key(r.start) as int)
  }

  /**
   * The session query: the distinct sessions that positions of the project's
   * keywords refer to (only the asked one, when a session is asked for),
   * newest start first. SQL leaves the order of equal start times open; the
   * model keeps the order of first appearance for them.
   */
  function SessionQuery(positions: seq<OurRow>, keywords: map<int, string>, sessions: map<int, SessionInfo>,
                        session: Option<int>): seq<SessionRow>
  {
    SortBy(RowsOf(JoinedIds(positions, keywords, sessions, session), sessions), Newest)
  }

  /**
   * The session query lists each session some position of a project keyword
   * refers to, with its stored name and start, and nothing else.
   */
  lemma SessionQueryRows(positions: seq<OurRow>, keywords: map<int, string>, sessions: map<int, SessionInfo>,
                         session: Option<int>)
    ensures forall r :: r in SessionQuery(positions, keywords, sessions, session) <==>
      && r.id in sessions && r.name == sessions[r.id].name && r.start == sessions[r.id].start
      && exists i :: 0 <= i < |positions| && Joins(positions[i], keywords, sessions, session, r.id)
  {
    var ids := JoinedIds(positions, keywords, sessions, session);
    JoinedIdsExact(positions, keywords, sessions, session);
    var rows := RowsOf(ids, sessions);
    RowsOfExact(ids, sessions);
    SortByMembers(rows, Newest);
  }

  /** The session query lists each session once. */
  lemma SessionQueryDistinct(positions: seq<OurRow>, keywords: map<int, string>, sessions: map<int, SessionInfo>,
                             session: Option<int>)
    ensures forall i, j :: 0 <= i < j < |SessionQuery(positions, keywords, sessions, session)| ==>
      SessionQuery(positions, keywords, sessions, session)[i].id != SessionQuery(positions, keywords, sessions, session)[j].id
  {
    var ids := JoinedIds(positions, keywords, sessions, session);
    var rows := RowsOf(ids, sessions);
    RowsOfExact(ids, sessions);
    var q := SortBy(rows, Newest);
    SortByMembers(rows, Newest);
    DistinctMultiset(rows);
    DistinctFromMultiset(q, rows);
    forall i, j | 0 <= i < j < |q|
      ensures q[i].id != q[j].id
    {
      assert q[i] in rows && q[j] in rows;
    }
  }

  /** The session query lists the newest start first. */
  lemma SessionQueryNewestFirst(positions: seq<OurRow>, keywords: map<int, string>, sessions: map<int, SessionInfo>,
                                session: Option<int>)
    ensures forall i, j :: 0 <= i < j < |SessionQuery(positions, keywords, sessions, session)| ==>
      Key(SessionQuery(positions, keywords, sessions, session)[j].start) <= Key(SessionQuery(positions, keywords, sessions, session)[i].start)
  {
    var q := SessionQuery(positions, keywords, sessions, session);
    forall i, j | 0 <= i < j < |q|
      ensures Key(q[j].start) <= Key(q[i].start)
    {
      assert Newest(q[i]) <= Newest(q[j]);
    }
  }

  /** The rows of distinct ids are the sessions' rows, each once. */
  lemma RowsOfExact(ids: seq<int>, sessions: map<int, SessionInfo>)
    requires forall i :: 0 <= i < |ids| ==> ids[i] in sessions
    requires forall i, j :: 0 <= i < j < |ids| ==> ids[i] != ids[j]
    ensures forall r :: r in RowsOf(ids, sessions) <==>
      r.id in ids && r.id in sessions && r == SessionRow(r.id, sessions[r.id].name, sessions[r.id].start)
    ensures forall i, j :: 0 <= i < j < |RowsOf(ids, sessions)| ==> RowsOf(ids, sessions)[i] != RowsOf(ids, sessions)[j]
  {
    var rows := RowsOf(ids, sessions);
    forall r: SessionRow | r.id in ids && r.id in sessions && r == SessionRow(r.id, sessions[r.id].name, sessions[r.id].start)
      ensures r in rows
    {
      var i :| 0 <= i < |ids| && ids[i] == r.id;
      assert rows[i] == r;
    }
  }

  // ------------------------------------------------------------ the session list

  /** The cell key of a session: "Сессия {id}" for a non-zero id, otherwise "{date} {time}". */
  datatype SessionKey = SessionNumber(id: int) | SessionTime(date: nat, time: TimeOfDay)

  /** An entry of the session list: `{session_id, session_name, session_start_time, date, time, session_key}`. */
  datatype Column = Column(id: int, name: string, start: Clock, date: nat, time: TimeOfDay, key: SessionKey)

  /** The session list's entry for a query row: the start's date, its time without fractional seconds, and the key. */
  function ColumnOf(r: SessionRow): Column
  {
    var time := WholeSeconds(r.start.time);
    Column(r.id, r.name, r.start, r.start.date, time, if r.id != 0 then SessionNumber(r.id) else SessionTime(r.start.date, time))
  }

  /** A numbered key exactly for a non-zero id; otherwise the start's date and whole seconds. */
  lemma ColumnKeyCases(r: SessionRow)
    ensures ColumnOf(r).key == SessionNumber(r.id) <==> r.id != 0
    ensures r.id == 0 ==> ColumnOf(r).key == SessionTime(r.start.date, WholeSeconds(r.start.time))
    ensures ColumnOf(r).time <= r.start.time < ColumnOf(r).time + SecondMicros
  {
  }

  /** Sessions with different ids get different keys. */
  lemma ColumnKeysDistinct(a: SessionRow, b: SessionRow)
    requires a.id != b.id
    ensures ColumnOf(a).key != ColumnOf(b).key
  {
  }

  /** The session-list loop: one entry per query row, in order. */
  method ListSessions(rows: seq<SessionRow>) returns (columns: seq<Column>)
    ensures |columns| == |rows|
    ensures forall i :: 0 <= i < |rows| ==> columns[i] == ColumnOf(rows[i])
  {
    columns := [];
    for i := 0 to |rows|
      invariant |columns| == i
      invariant forall j :: 0 <= j < i ==> columns[j] == ColumnOf(rows[j])
    {
      columns := columns + [ColumnOf(rows[i])];
    }
  }

  // ------------------------------------------------------------ the cells

  /** An entry of a cell: `{position, domain, url, title, display_url, is_our_site[, is_missing]}`. */
  datatype Entry = Entry(position: int, domain: string, url: string, title: string, displayUrl: string,
                         ours: bool, missing: bool)

  function CompetitorEntry(r: CompetitorRow, parse: string -> Option<UrlParts>): Entry
    requires r.position.Some?
  {
    Entry(r.position.value, r.domain, r.url, r.title, ShortenUrl(r.url, parse), false, false)
  }

  /** Our site's entry: the report's own domain, with the stored URL. */
  function OurEntry(r: OurRow, domain: string, parse: string -> Option<UrlParts>): Entry
    requires r.position.Some?
  {
    Entry(r.position.value, domain, r.url, OurTitle, ShortenUrl(r.url, parse), true, false)
  }

  function Placeholder(p: int): Entry
  {
    Entry(p, MissingDomain, "", MissingTitle, MissingDisplay, false, true)
  }

  /** The positions of a cell, in its order. */
  function Positions(cell: seq<Entry>): (ps: seq<int>)
    ensures |ps| == |cell| && forall i :: 0 <= i < |cell| ==> ps[i] == cell[i].position
  {
    seq(|cell|, i requires 0 <= i < |cell| => cell[i].position)
  }

  /** A keyword's cells by session key, and the keys in the order they were first used. */
  datatype KeywordCells = KeywordCells(cells: map<SessionKey, seq<Entry>>, order: seq<SessionKey>)

  /** `top10`: keyword text to its cells. */
  type Top10 = map<string, KeywordCells>

  /** The cell of a keyword and session; [] where there is none. */
  function CellAt(t: Top10, kw: string, k: SessionKey): seq<Entry>
  {
    if kw in t && k in t[kw].cells then t[kw].cells[k] else []
  }

  /** Append to a cell, creating the keyword's dictionary and the cell's list first where they are missing. */
  function Append(t: Top10, kw: string, k: SessionKey, e: Entry): (r: Top10)
    ensures CellAt(r, kw, k) == CellAt(t, kw, k) + [e]
    ensures forall kw', k' :: kw' != kw || k' != k ==> CellAt(r, kw', k') == CellAt(t, kw', k')
  {
    var kc := if kw in t then t[kw] else KeywordCells(map[], []);
    var kc' := if k in kc.cells then KeywordCells(kc.cells[k := kc.cells[k] + [e]], kc.order)
               else KeywordCells(kc.cells[k := [e]], kc.order + [k]);
    t[kw := kc']
  }

  function CompetitorRank(r: CompetitorRow): int
  {
    if r.position.Some? then r.position.value else 0
  }

  function CompetitorKeyword(r: CompetitorRow): int
  {
    r.keywordId
  }

  function OurRank(r: OurRow): int
  {
    if r.position.Some? then r.position.value else 0
  }

  function OurKeyword(r: OurRow): int
  {
    r.keywordId
  }

  /**
   * The competitors query of a session: rows of the project's keywords in that
   * session with a position of 10 or better (a null position never is),
   * ordered by keyword id, then position.
   */
  function CompetitorsOf(table: seq<CompetitorRow>, keywords: map<int, string>, id: int): (rows: seq<CompetitorRow>)
    ensures forall r :: r in rows <==>
      r in table && r.keywordId in keywords && r.sessionId == Some(id) && r.position.Some? && r.position.value <= TopSize
  {
    var hits := Filter(table, (r: CompetitorRow) =>
      r.keywordId in keywords && r.sessionId == Some(id) && r.position.Some? && r.position.value <= TopSize);
    SortByMembers(hits, CompetitorRank);
    SortByMembers(SortBy(hits, CompetitorRank), CompetitorKeyword);
    SortBy(SortBy(hits, CompetitorRank), CompetitorKeyword)
  }

  /** Our positions query of a session, filtered and ordered alike. */
  function OursOf(table: seq<OurRow>, keywords: map<int, string>, id: int): (rows: seq<OurRow>)
    ensures forall r :: r in rows <==>
      r in table && r.keywordId in keywords && r.sessionId == Some(id) && r.position.Some? && r.position.value <= TopSize
  {
    var hits := Filter(table, (r: OurRow) =>
      r.keywordId in keywords && r.sessionId == Some(id) && r.position.Some? && r.position.value <= TopSize);
    SortByMembers(hits, OurRank);
    SortByMembers(SortBy(hits, OurRank), OurKeyword);
    SortBy(SortBy(hits, OurRank), OurKeyword)
  }

  /** The competitor loop of a session: each row appended to its keyword's cell. */
  function AddCompetitors(t: Top10, keywords: map<int, string>, k: SessionKey, rows: seq<CompetitorRow>,
                          parse: string -> Option<UrlParts>): Top10
    requires forall r :: r in rows ==> r.keywordId in keywords && r.position.Some?
  {
    if rows == [] then t
    else
      var r := rows[|rows| - 1];
      assert forall x :: x in rows[..|rows| - 1] ==> x in rows;
      Append(AddCompetitors(t, keywords, k, rows[..|rows| - 1], parse), keywords[r.keywordId], k, CompetitorEntry(r, parse))
  }

  /** Our-position loop of a session: our entry is appended only where its position is not taken yet. */
  function AddOurs(t: Top10, keywords: map<int, string>, domain: string, k: SessionKey, rows: seq<OurRow>,
                   parse: string -> Option<UrlParts>): Top10
    requires forall r :: r in rows ==> r.keywordId in keywords && r.position.Some?
  {
    if rows == [] then t
    else
      var r := rows[|rows| - 1];
      assert forall x :: x in rows[..|rows| - 1] ==> x in rows;
      var before := AddOurs(t, keywords, domain, k, rows[..|rows| - 1], parse);
      var kw := keywords[r.keywordId];
      if r.position.value in Positions(CellAt(before, kw, k)) then before
      else Append(before, kw, k, OurEntry(r, domain, parse))
  }

  /** One session: its competitors, then our positions. */
  function AddSession(t: Top10, keywords: map<int, string>, domain: string, c: Column,
                      competitors: seq<CompetitorRow>, positions: seq<OurRow>, parse: string -> Option<UrlParts>): Top10
  {
    var ours := OursOf(positions, keywords, c.id);
    AddOurs(AddCompetitors(t, keywords, c.key, CompetitorsOf(competitors, keywords, c.id), parse), keywords, domain, c.key, ours, parse)
  }

  /** The cells after the sessions, in order. */
  function Fill(keywords: map<int, string>, domain: string, columns: seq<Column>, competitors: seq<CompetitorRow>,
                positions: seq<OurRow>, parse: string -> Option<UrlParts>): Top10
  {
    if columns == [] then map[]
    else
      AddSession(Fill(keywords, domain, columns[..|columns| - 1], competitors, positions, parse), keywords, domain,
                 columns[|columns| - 1], competitors, positions, parse)
  }

  // ------------------------------------------------------------ what a cell holds

  /** The competitor entries of keyword text `kw` among the rows, in order. */
  function CompetitorsFor(keywords: map<int, string>, kw: string, rows: seq<CompetitorRow>,
                          parse: string -> Option<UrlParts>): seq<Entry>
    requires forall r :: r in rows ==> r.keywordId in keywords && r.position.Some?
  {
    if rows == [] then []
    else
      var r := rows[|rows| - 1];
      assert forall x :: x in rows[..|rows| - 1] ==> x in rows;
      CompetitorsFor(keywords, kw, rows[..|rows| - 1], parse) + (if keywords[r.keywordId] == kw then [CompetitorEntry(r, parse)] else [])
  }

  /** Our entries of keyword text `kw` among the rows, in order. */
  function OursFor(keywords: map<int, string>, kw: string, domain: string, rows: seq<OurRow>,
                   parse: string -> Option<UrlParts>): seq<Entry>
    requires forall r :: r in rows ==> r.keywordId in keywords && r.position.Some?
  {
    if rows == [] then []
    else
      var r := rows[|rows| - 1];
      assert forall x :: x in rows[..|rows| - 1] ==> x in rows;
      OursFor(keywords, kw, domain, rows[..|rows| - 1], parse) + (if keywords[r.keywordId] == kw then [OurEntry(r, domain, parse)] else [])
  }

  /** Entries admitted one by one after a cell's own: each only when its position is not taken yet. */
  function Admit(cell: seq<Entry>, es: seq<Entry>): seq<Entry>
  {
    if es == [] then cell
    else
      var c := Admit(cell, es[..|es| - 1]);
      if es[|es| - 1].position in Positions(c) then c else c + [es[|es| - 1]]
  }

  lemma Regroup<T>(a: seq<T>, b: seq<T>, c: seq<T>)
    ensures a + (b + c) == (a + b) + c
  {
  }

  lemma CompetitorsForLast(keywords: map<int, string>, kw: string, rows: seq<CompetitorRow>, r: CompetitorRow,
                           parse: string -> Option<UrlParts>)
    requires forall x :: x in rows + [r] ==> x.keywordId in keywords && x.position.Some?
    ensures CompetitorsFor(keywords, kw, rows + [r], parse) ==
      CompetitorsFor(keywords, kw, rows, parse) + (if keywords[r.keywordId] == kw then [CompetitorEntry(r, parse)] else [])
  {
    assert (rows + [r])[..|rows|] == rows;
  }

  /** The competitor loop appends each keyword's entries to its cell of the session and touches no other cell. */
  lemma {:induction false} AddCompetitorsCell(t: Top10, keywords: map<int, string>, k: SessionKey, rows: seq<CompetitorRow>,
                                              parse: string -> Option<UrlParts>, kw: string, k': SessionKey)
    requires forall r :: r in rows ==> r.keywordId in keywords && r.position.Some?
    ensures CellAt(AddCompetitors(t, keywords, k, rows, parse), kw, k') ==
      (if k' == k then CellAt(t, kw, k) + CompetitorsFor(keywords, kw, rows, parse) else CellAt(t, kw, k'))
  {
    if rows != [] {
      var init := rows[..|rows| - 1];
      var r := rows[|rows| - 1];
      assert rows == init + [r];
      AddCompetitorsCell(t, keywords, k, init, parse, kw, k');
      AddCompetitorsLast(t, keywords, k, init, r, parse);
      CompetitorsForLast(keywords, kw, init, r, parse);
      if k' == k {
        Regroup(CellAt(t, kw, k), CompetitorsFor(keywords, kw, init, parse),
                if keywords[r.keywordId] == kw then [CompetitorEntry(r, parse)] else []);
      }
    }
  }

  lemma AddCompetitorsLast(t: Top10, keywords: map<int, string>, k: SessionKey, rows: seq<CompetitorRow>, r: CompetitorRow,
                           parse: string -> Option<UrlParts>)
    requires forall x :: x in rows + [r] ==> x.keywordId in keywords && x.position.Some?
    ensures AddCompetitors(t, keywords, k, rows + [r], parse) ==
      Append(AddCompetitors(t, keywords, k, rows, parse), keywords[r.keywordId], k, CompetitorEntry(r, parse))
  {
    assert (rows + [r])[..|rows|] == rows;
  }

  lemma AddCompetitorsPrefix(t: Top10, keywords: map<int, string>, k: SessionKey, rows: seq<CompetitorRow>, i: nat,
                             parse: string -> Option<UrlParts>)
    requires i < |rows| && forall x :: x in rows ==> x.keywordId in keywords && x.position.Some?
    ensures forall x :: x in rows[..i] ==> x in rows
    ensures forall x :: x in rows[..i + 1] ==> x in rows
    ensures AddCompetitors(t, keywords, k, rows[..i + 1], parse) ==
      Append(AddCompetitors(t, keywords, k, rows[..i], parse), keywords[rows[i].keywordId], k, CompetitorEntry(rows[i], parse))
  {
    assert rows[..i + 1][..i] == rows[..i];
  }

  lemma AddOursPrefix(t: Top10, keywords: map<int, string>, domain: string, k: SessionKey, rows: seq<OurRow>, i: nat,
                      parse: string -> Option<UrlParts>)
    requires i < |rows| && forall x :: x in rows ==> x.keywordId in keywords && x.position.Some?
    ensures forall x :: x in rows[..i] ==> x in rows
    ensures forall x :: x in rows[..i + 1] ==> x in rows
    ensures AddOurs(t, keywords, domain, k, rows[..i + 1], parse) ==
      var before := AddOurs(t, keywords, domain, k, rows[..i], parse);
      if rows[i].position.value in Positions(CellAt(before, keywords[rows[i].keywordId], k)) then before
      else Append(before, keywords[rows[i].keywordId], k, OurEntry(rows[i], domain, parse))
  {
    assert rows[..i + 1][..i] == rows[..i];
  }

  lemma OursForLast(keywords: map<int, string>, kw: string, domain: string, rows: seq<OurRow>, r: OurRow,
                    parse: string -> Option<UrlParts>)
    requires forall x :: x in rows + [r] ==> x.keywordId in keywords && x.position.Some?
    ensures OursFor(keywords, kw, domain, rows + [r], parse) ==
      OursFor(keywords, kw, domain, rows, parse) + (if keywords[r.keywordId] == kw then [OurEntry(r, domain, parse)] else [])
  {
    assert (rows + [r])[..|rows|] == rows;
  }

  lemma AddOursLast(t: Top10, keywords: map<int, string>, domain: string, k: SessionKey, rows: seq<OurRow>, r: OurRow,
                    parse: string -> Option<UrlParts>)
    requires forall x :: x in rows + [r] ==> x.keywordId in keywords && x.position.Some?
    ensures AddOurs(t, keywords, domain, k, rows + [r], parse) ==
      var before := AddOurs(t, keywords, domain, k, rows, parse);
      if r.position.value in Positions(CellAt(before, keywords[r.keywordId], k)) then before
      else Append(before, keywords[r.keywordId], k, OurEntry(r, domain, parse))
  {
    assert (rows + [r])[..|rows|] == rows;
  }

  lemma AdmitLast(cell: seq<Entry>, es: seq<Entry>, e: Entry)
    ensures Admit(cell, es + [e]) ==
      if e.position in Positions(Admit(cell, es)) then Admit(cell, es) else Admit(cell, es) + [e]
  {
    assert (es + [e])[..|es|] == es;
  }

  /** Our-position loop admits each keyword's entries into its cell of the session and touches no other cell. */
  lemma {:induction false} AddOursCell(t: Top10, keywords: map<int, string>, domain: string, k: SessionKey, rows: seq<OurRow>,
                                       parse: string -> Option<UrlParts>, kw: string, k': SessionKey)
    requires forall r :: r in rows ==> r.keywordId in keywords && r.position.Some?
    ensures CellAt(AddOurs(t, keywords, domain, k, rows, parse), kw, k') ==
      (if k' == k then Admit(CellAt(t, kw, k), OursFor(keywords, kw, domain, rows, parse)) else CellAt(t, kw, k'))
  {
    if rows != [] {
      var init := rows[..|rows| - 1];
      var r := rows[|rows| - 1];
      assert rows == init + [r];
      AddOursCell(t, keywords, domain, k, init, parse, kw, k');
      AddOursLast(t, keywords, domain, k, init, r, parse);
      OursForLast(keywords, kw, domain, init, r, parse);
      if k' == k && keywords[r.keywordId] == kw {
        AdmitLast(CellAt(t, kw, k), OursFor(keywords, kw, domain, init, parse), OurEntry(r, domain, parse));
      } else if k' == k {
        var es := OursFor(keywords, kw, domain, init, parse);
        assert es + [] == es;
      }
    }
  }

  /** Admitting never moves or drops what the cell already held. */
  lemma {:induction false} AdmitKeeps(cell: seq<Entry>, es: seq<Entry>)
    ensures |cell| <= |Admit(cell, es)| <= |cell| + |es|
    ensures Admit(cell, es)[..|cell|] == cell
  {
    if es != [] {
      var c := Admit(cell, es[..|es| - 1]);
      AdmitKeeps(cell, es[..|es| - 1]);
      assert (c + [es[|es| - 1]])[..|cell|] == c[..|cell|];
    }
  }

  /** What admitting adds comes from the admitted entries. */
  lemma {:induction false} AdmitFrom(cell: seq<Entry>, es: seq<Entry>)
    ensures forall i :: |cell| <= i < |Admit(cell, es)| ==> Admit(cell, es)[i] in es
  {
    if es != [] {
      var init := es[..|es| - 1];
      AdmitFrom(cell, init);
      AdmitKeeps(cell, init);
      assert forall x :: x in init ==> x in es;
    }
  }

  /** An admitted entry never takes a position an earlier entry of the cell holds. */
  lemma {:induction false} AdmitFree(cell: seq<Entry>, es: seq<Entry>)
    ensures forall i, j :: 0 <= j < i < |Admit(cell, es)| && |cell| <= i ==>
      Admit(cell, es)[j].position != Admit(cell, es)[i].position
  {
    if es != [] {
      var init := es[..|es| - 1];
      var c := Admit(cell, init);
      var e := es[|es| - 1];
      AdmitFree(cell, init);
      AdmitKeeps(cell, init);
      if e.position !in Positions(c) {
        forall j | 0 <= j < |c|
          ensures c[j].position != e.position
        {
          assert Positions(c)[j] == c[j].position;
        }
      }
    }
  }

  /** Every admitted entry's position is held afterwards, by it or by an entry that was there first. */
  lemma {:induction false} AdmitCovers(cell: seq<Entry>, es: seq<Entry>)
    ensures forall x :: x in es ==> x.position in Positions(Admit(cell, es))
  {
    if es != [] {
      var init := es[..|es| - 1];
      var c := Admit(cell, init);
      var a := Admit(cell, es);
      var e := es[|es| - 1];
      AdmitCovers(cell, init);
      forall x | x in es
        ensures x.position in Positions(a)
      {
        if x in init {
          var j :| 0 <= j < |c| && Positions(c)[j] == x.position;
          assert a[j] == c[j];
          assert Positions(a)[j] == x.position;
        } else {
          assert x == e;
          if e.position !in Positions(c) {
            assert Positions(a)[|c|] == x.position;
          }
        }
      }
    }
  }

  /**
   * The cell of keyword text `kw` in session `c`: the session's competitors of
   * the keyword in query order, then our entries of the keyword, each only
   * where its position is free.
   */
  function SessionCell(keywords: map<int, string>, domain: string, kw: string, c: Column, competitors: seq<CompetitorRow>,
                       positions: seq<OurRow>, parse: string -> Option<UrlParts>): seq<Entry>
  {
    Admit(CompetitorsFor(keywords, kw, CompetitorsOf(competitors, keywords, c.id), parse),
          OursFor(keywords, kw, domain, OursOf(positions, keywords, c.id), parse))
  }

  /** A session fills its own cell of a keyword from scratch. */
  lemma AddSessionCell(t: Top10, keywords: map<int, string>, domain: string, c: Column, competitors: seq<CompetitorRow>,
                       positions: seq<OurRow>, parse: string -> Option<UrlParts>, kw: string)
    requires CellAt(t, kw, c.key) == []
    ensures CellAt(AddSession(t, keywords, domain, c, competitors, positions, parse), kw, c.key) ==
      SessionCell(keywords, domain, kw, c, competitors, positions, parse)
  {
    var rows := CompetitorsOf(competitors, keywords, c.id);
    var t1 := AddCompetitors(t, keywords, c.key, rows, parse);
    AddCompetitorsCell(t, keywords, c.key, rows, parse, kw, c.key);
    AddOursCell(t1, keywords, domain, c.key, OursOf(positions, keywords, c.id), parse, kw, c.key);
    assert [] + CompetitorsFor(keywords, kw, rows, parse) == CompetitorsFor(keywords, kw, rows, parse);
  }

  /** A session touches no cell of another session key. */
  lemma AddSessionOther(t: Top10, keywords: map<int, string>, domain: string, c: Column, competitors: seq<CompetitorRow>,
                        positions: seq<OurRow>, parse: string -> Option<UrlParts>, kw: string, k: SessionKey)
    requires k != c.key
    ensures CellAt(AddSession(t, keywords, domain, c, competitors, positions, parse), kw, k) == CellAt(t, kw, k)
  {
    var rows := CompetitorsOf(competitors, keywords, c.id);
    var t1 := AddCompetitors(t, keywords, c.key, rows, parse);
    AddCompetitorsCell(t, keywords, c.key, rows, parse, kw, k);
    AddOursCell(t1, keywords, domain, c.key, OursOf(positions, keywords, c.id), parse, kw, k);
  }

  /** Session keys of different columns differ. */
  ghost predicate DistinctKeys(columns: seq<Column>)
  {
    forall i, j :: 0 <= i < j < |columns| ==> columns[i].key != columns[j].key
  }

  /** A session key that no column has has no cell. */
  lemma {:induction false} FillOther(keywords: map<int, string>, domain: string, columns: seq<Column>,
                                     competitors: seq<CompetitorRow>, positions: seq<OurRow>,
                                     parse: string -> Option<UrlParts>, kw: string, k: SessionKey)
    requires forall i :: 0 <= i < |columns| ==> columns[i].key != k
    ensures CellAt(Fill(keywords, domain, columns, competitors, positions, parse), kw, k) == []
  {
    if columns != [] {
      var init := columns[..|columns| - 1];
      var c := columns[|columns| - 1];
      FillOther(keywords, domain, init, competitors, positions, parse, kw, k);
      AddSessionOther(Fill(keywords, domain, init, competitors, positions, parse), keywords, domain, c, competitors,
                      positions, parse, kw, k);
    }
  }

  /**
   * With distinct session keys, every session's cell of every keyword is
   * exactly that session's competitors and admitted entries of ours.
   */
  lemma {:induction false} FillCell(keywords: map<int, string>, domain: string, columns: seq<Column>,
                                    competitors: seq<CompetitorRow>, positions: seq<OurRow>,
                                    parse: string -> Option<UrlParts>, kw: string, n: nat)
    requires DistinctKeys(columns)
    requires n < |columns|
    ensures CellAt(Fill(keywords, domain, columns, competitors, positions, parse), kw, columns[n].key) ==
      SessionCell(keywords, domain, kw, columns[n], competitors, positions, parse)
  {
    var init := columns[..|columns| - 1];
    var c := columns[|columns| - 1];
    var t := Fill(keywords, domain, init, competitors, positions, parse);
    if n < |columns| - 1 {
      FillCell(keywords, domain, init, competitors, positions, parse, kw, n);
      AddSessionOther(t, keywords, domain, c, competitors, positions, parse, kw, columns[n].key);
    } else {
      FillOther(keywords, domain, init, competitors, positions, parse, kw, c.key);
      AddSessionCell(t, keywords, domain, c, competitors, positions, parse, kw);
    }
  }

  // ------------------------------------------------------------ the order of a keyword's session keys

  /** The session keys of a keyword in the order its cells were created. */
  function OrderAt(t: Top10, kw: string): seq<SessionKey>
  {
    if kw in t then t[kw].order else []
  }

  /** Every keyword has a cell, the order lists exactly the keys with a cell, and no cell is empty. */
  ghost predicate Tidy(t: Top10)
  {
    && (forall kw :: kw in t ==> t[kw].order != [])
    && (forall kw, k :: kw in t ==> (k in t[kw].cells <==> k in t[kw].order))
    && (forall kw, k :: kw in t && k in t[kw].cells ==> t[kw].cells[k] != [])
  }

  /**
   * From `t` to `t'` the cells of key `k` only grow, and a keyword's order
   * gains `k` exactly when its cell of `k` went from empty to filled.
   */
  ghost predicate Grows(t: Top10, t': Top10, k: SessionKey)
  {
    && Tidy(t')
    && (forall kw :: CellAt(t, kw, k) != [] ==> CellAt(t', kw, k) != [])
    && (forall kw :: OrderAt(t', kw) ==
          OrderAt(t, kw) + (if CellAt(t, kw, k) == [] && CellAt(t', kw, k) != [] then [k] else []))
  }

  lemma GrowsRefl(t: Top10, k: SessionKey)
    requires Tidy(t)
    ensures Grows(t, t, k)
  {
    forall kw
      ensures OrderAt(t, kw) == OrderAt(t, kw) + []
    {
    }
  }

  lemma GrowsTrans(t1: Top10, t2: Top10, t3: Top10, k: SessionKey)
    requires Grows(t1, t2, k) && Grows(t2, t3, k)
    ensures Grows(t1, t3, k)
  {
    forall kw
      ensures OrderAt(t3, kw) ==
        OrderAt(t1, kw) + (if CellAt(t1, kw, k) == [] && CellAt(t3, kw, k) != [] then [k] else [])
    {
      assert OrderAt(t1, kw) + [] == OrderAt(t1, kw);
      assert OrderAt(t2, kw) + [] == OrderAt(t2, kw);
    }
  }

  /** Appending keeps a tidy table tidy and adds the key to the order when it opens a new cell. */
  lemma AppendTidy(t: Top10, kw: string, k: SessionKey, e: Entry)
    requires Tidy(t)
    ensures Tidy(Append(t, kw, k, e))
  {
  }

  /** Appending adds the key to the keyword's order exactly when its cell was empty. */
  lemma AppendOrder(t: Top10, kw: string, k: SessionKey, e: Entry, kw': string)
    requires Tidy(t)
    ensures OrderAt(Append(t, kw, k, e), kw') == OrderAt(t, kw') + (if kw' == kw && CellAt(t, kw, k) == [] then [k] else [])
  {
    if kw' != kw || CellAt(t, kw, k) != [] {
      assert OrderAt(t, kw') + [] == OrderAt(t, kw');
    }
  }

  lemma GrowsAppend(t: Top10, kw: string, k: SessionKey, e: Entry)
    requires Tidy(t)
    ensures Grows(t, Append(t, kw, k, e), k)
  {
    AppendTidy(t, kw, k, e);
    forall kw'
      ensures OrderAt(Append(t, kw, k, e), kw') ==
        OrderAt(t, kw') + (if CellAt(t, kw', k) == [] && CellAt(Append(t, kw, k, e), kw', k) != [] then [k] else [])
    {
      AppendOrder(t, kw, k, e, kw');
    }
  }

  lemma {:induction false} AddCompetitorsGrows(t: Top10, keywords: map<int, string>, k: SessionKey, rows: seq<CompetitorRow>,
                                               parse: string -> Option<UrlParts>)
    requires Tidy(t)
    requires forall r :: r in rows ==> r.keywordId in keywords && r.position.Some?
    ensures Grows(t, AddCompetitors(t, keywords, k, rows, parse), k)
  {
    if rows == [] {
      GrowsRefl(t, k);
    } else {
      var init := rows[..|rows| - 1];
      var r := rows[|rows| - 1];
      assert rows == init + [r];
      var before := AddCompetitors(t, keywords, k, init, parse);
      AddCompetitorsGrows(t, keywords, k, init, parse);
      AddCompetitorsLast(t, keywords, k, init, r, parse);
      GrowsAppend(before, keywords[r.keywordId], k, CompetitorEntry(r, parse));
      GrowsTrans(t, before, AddCompetitors(t, keywords, k, rows, parse), k);
    }
  }

  lemma {:induction false} AddOursGrows(t: Top10, keywords: map<int, string>, domain: string, k: SessionKey, rows: seq<OurRow>,
                                        parse: string -> Option<UrlParts>)
    requires Tidy(t)
    requires forall r :: r in rows ==> r.keywordId in keywords && r.position.Some?
    ensures Grows(t, AddOurs(t, keywords, domain, k, rows, parse), k)
  {
    if rows == [] {
      GrowsRefl(t, k);
    } else {
      var init := rows[..|rows| - 1];
      var r := rows[|rows| - 1];
      assert rows == init + [r];
      var before := AddOurs(t, keywords, domain, k, init, parse);
      AddOursGrows(t, keywords, domain, k, init, parse);
      AddOursLast(t, keywords, domain, k, init, r, parse);
      GrowsRefl(before, k);
      GrowsAppend(before, keywords[r.keywordId], k, OurEntry(r, domain, parse));
      GrowsTrans(t, before, AddOurs(t, keywords, domain, k, rows, parse), k);
    }
  }

  lemma AddSessionGrows(t: Top10, keywords: map<int, string>, domain: string, c: Column, competitors: seq<CompetitorRow>,
                        positions: seq<OurRow>, parse: string -> Option<UrlParts>)
    requires Tidy(t)
    ensures Grows(t, AddSession(t, keywords, domain, c, competitors, positions, parse), c.key)
  {
    var t1 := AddCompetitors(t, keywords, c.key, CompetitorsOf(competitors, keywords, c.id), parse);
    AddCompetitorsGrows(t, keywords, c.key, CompetitorsOf(competitors, keywords, c.id), parse);
    AddOursGrows(t1, keywords, domain, c.key, OursOf(positions, keywords, c.id), parse);
    GrowsTrans(t, t1, AddSession(t, keywords, domain, c, competitors, positions, parse), c.key);
  }

  /** The session cells of keyword text `kw`, one per session, in list order. */
  function SessionCells(keywords: map<int, string>, domain: string, kw: string, columns: seq<Column>,
                        competitors: seq<CompetitorRow>, positions: seq<OurRow>, parse: string -> Option<UrlParts>): (cells: seq<seq<Entry>>)
    ensures |cells| == |columns|
    ensures forall i :: 0 <= i < |columns| ==> cells[i] == SessionCell(keywords, domain, kw, columns[i], competitors, positions, parse)
  {
    seq(|columns|, i requires 0 <= i < |columns| => SessionCell(keywords, domain, kw, columns[i], competitors, positions, parse))
  }

  /** The keys of the sessions, in list order, whose cell is not empty. */
  function Occupied(columns: seq<Column>, cells: seq<seq<Entry>>): seq<SessionKey>
    requires |cells| == |columns|
  {
    if columns == [] then []
    else Occupied(columns[..|columns| - 1], cells[..|cells| - 1]) + (if cells[|cells| - 1] != [] then [columns[|columns| - 1].key] else [])
  }

  lemma {:induction false} OccupiedNone(columns: seq<Column>, cells: seq<seq<Entry>>)
    requires |cells| == |columns|
    ensures Occupied(columns, cells) == [] <==> forall m :: 0 <= m < |cells| ==> cells[m] == []
  {
    if columns != [] {
      var init := cells[..|cells| - 1];
      OccupiedNone(columns[..|columns| - 1], init);
      assert forall m :: 0 <= m < |init| ==> init[m] == cells[m];
    }
  }

  lemma {:induction false} OccupiedFirst(columns: seq<Column>, cells: seq<seq<Entry>>, n: nat)
    requires |cells| == |columns|
    requires n < |cells| && cells[n] != [] && forall m :: 0 <= m < n ==> cells[m] == []
    ensures Occupied(columns, cells) != [] && Occupied(columns, cells)[0] == columns[n].key
  {
    var init := cells[..|cells| - 1];
    if n < |cells| - 1 {
      OccupiedFirst(columns[..|columns| - 1], init, n);
    } else {
      OccupiedNone(columns[..|columns| - 1], init);
    }
  }

  lemma SessionCellsInit(keywords: map<int, string>, domain: string, kw: string, columns: seq<Column>,
                          competitors: seq<CompetitorRow>, positions: seq<OurRow>, parse: string -> Option<UrlParts>)
    requires columns != []
    ensures SessionCells(keywords, domain, kw, columns, competitors, positions, parse)[..|columns| - 1] ==
      SessionCells(keywords, domain, kw, columns[..|columns| - 1], competitors, positions, parse)
  {
  }

  /** The filled table is tidy. */
  lemma {:induction false} FillTidy(keywords: map<int, string>, domain: string, columns: seq<Column>,
                                    competitors: seq<CompetitorRow>, positions: seq<OurRow>, parse: string -> Option<UrlParts>)
    ensures Tidy(Fill(keywords, domain, columns, competitors, positions, parse))
  {
    if columns != [] {
      var init := columns[..|columns| - 1];
      FillTidy(keywords, domain, init, competitors, positions, parse);
      AddSessionGrows(Fill(keywords, domain, init, competitors, positions, parse), keywords, domain, columns[|columns| - 1],
                      competitors, positions, parse);
    }
  }

  /** One session's step of the order: its key joins exactly when its cell, empty before, is filled. */
  lemma OrderStep(t: Top10, t': Top10, columns: seq<Column>, cells: seq<seq<Entry>>, kw: string)
    requires |cells| == |columns| > 0
    requires Grows(t, t', columns[|columns| - 1].key)
    requires OrderAt(t, kw) == Occupied(columns[..|columns| - 1], cells[..|columns| - 1])
    requires CellAt(t, kw, columns[|columns| - 1].key) == [] && CellAt(t', kw, columns[|columns| - 1].key) == cells[|columns| - 1]
    ensures OrderAt(t', kw) == Occupied(columns, cells)
  {
  }

  /** The last session of the list grows the table from an empty cell of its key to its session cell. */
  lemma FillLast(keywords: map<int, string>, domain: string, columns: seq<Column>, competitors: seq<CompetitorRow>,
                 positions: seq<OurRow>, parse: string -> Option<UrlParts>, kw: string)
    requires columns != [] && DistinctKeys(columns)
    ensures Grows(Fill(keywords, domain, columns[..|columns| - 1], competitors, positions, parse),
                  Fill(keywords, domain, columns, competitors, positions, parse), columns[|columns| - 1].key)
    ensures CellAt(Fill(keywords, domain, columns[..|columns| - 1], competitors, positions, parse), kw, columns[|columns| - 1].key) == []
    ensures CellAt(Fill(keywords, domain, columns, competitors, positions, parse), kw, columns[|columns| - 1].key) ==
      SessionCell(keywords, domain, kw, columns[|columns| - 1], competitors, positions, parse)
  {
    var init := columns[..|columns| - 1];
    var c := columns[|columns| - 1];
    FillLastGrows(keywords, domain, columns, competitors, positions, parse);
    assert forall i :: 0 <= i < |init| ==> init[i].key != c.key by {
      forall i | 0 <= i < |init|
        ensures init[i].key != c.key
      {
        assert columns[i] == init[i];
      }
    }
    FillOther(keywords, domain, init, competitors, positions, parse, kw, c.key);
    FillCell(keywords, domain, columns, competitors, positions, parse, kw, |columns| - 1);
  }

  lemma FillLastGrows(keywords: map<int, string>, domain: string, columns: seq<Column>, competitors: seq<CompetitorRow>,
                      positions: seq<OurRow>, parse: string -> Option<UrlParts>)
    requires columns != []
    ensures Grows(Fill(keywords, domain, columns[..|columns| - 1], competitors, positions, parse),
                  Fill(keywords, domain, columns, competitors, positions, parse), columns[|columns| - 1].key)
  {
    var init := columns[..|columns| - 1];
    var c := columns[|columns| - 1];
    var t := Fill(keywords, domain, init, competitors, positions, parse);
    assert Fill(keywords, domain, columns, competitors, positions, parse) ==
      AddSession(t, keywords, domain, c, competitors, positions, parse);
    FillTidy(keywords, domain, init, competitors, positions, parse);
    AddSessionGrows(t, keywords, domain, c, competitors, positions, parse);
  }

  /** With distinct session keys a keyword's keys are its occupied sessions in list order. */
  lemma {:induction false} FillOrder(keywords: map<int, string>, domain: string, columns: seq<Column>,
                                     competitors: seq<CompetitorRow>, positions: seq<OurRow>,
                                     parse: string -> Option<UrlParts>, kw: string)
    requires DistinctKeys(columns)
    ensures OrderAt(Fill(keywords, domain, columns, competitors, positions, parse), kw) ==
      Occupied(columns, SessionCells(keywords, domain, kw, columns, competitors, positions, parse))
  {
    if columns != [] {
      var init := columns[..|columns| - 1];
      assert DistinctKeys(init);
      FillOrder(keywords, domain, init, competitors, positions, parse, kw);
      FillLast(keywords, domain, columns, competitors, positions, parse, kw);
      SessionCellsInit(keywords, domain, kw, columns, competitors, positions, parse);
      OrderStep(Fill(keywords, domain, init, competitors, positions, parse), Fill(keywords, domain, columns, competitors, positions, parse),
                columns, SessionCells(keywords, domain, kw, columns, competitors, positions, parse), kw);
    }
  }

  /**
   * A keyword has cells exactly when some session gave it an entry; its
   * statistics then describe the newest such session (the first in list
   * order), whose finished cell is its session cell finished.
   */
  lemma LatestSession(keywords: map<int, string>, domain: string, columns: seq<Column>, competitors: seq<CompetitorRow>,
                      positions: seq<OurRow>, parse: string -> Option<UrlParts>, kw: string, n: nat)
    requires DistinctKeys(columns)
    requires n < |columns| && SessionCell(keywords, domain, kw, columns[n], competitors, positions, parse) != []
    requires forall m :: 0 <= m < n ==> SessionCell(keywords, domain, kw, columns[m], competitors, positions, parse) == []
    ensures kw in FinishAll(Fill(keywords, domain, columns, competitors, positions, parse))
    ensures KeywordStat(FinishAll(Fill(keywords, domain, columns, competitors, positions, parse))[kw]).latest == Some(columns[n].key)
    ensures LatestCell(FinishAll(Fill(keywords, domain, columns, competitors, positions, parse))[kw]) ==
      Finish(SessionCell(keywords, domain, kw, columns[n], competitors, positions, parse))
  {
    var t := Fill(keywords, domain, columns, competitors, positions, parse);
    FillTidy(keywords, domain, columns, competitors, positions, parse);
    FillOrder(keywords, domain, columns, competitors, positions, parse, kw);
    OccupiedFirst(columns, SessionCells(keywords, domain, kw, columns, competitors, positions, parse), n);
    FillCell(keywords, domain, columns, competitors, positions, parse, kw, n);
    assert t[kw].order[0] in t[kw].cells;
  }

  /** A keyword that no session gave an entry has no cells and no statistics. */
  lemma NoEntryNoCells(keywords: map<int, string>, domain: string, columns: seq<Column>, competitors: seq<CompetitorRow>,
                       positions: seq<OurRow>, parse: string -> Option<UrlParts>, kw: string)
    requires DistinctKeys(columns)
    requires forall m :: 0 <= m < |columns| ==> SessionCell(keywords, domain, kw, columns[m], competitors, positions, parse) == []
    ensures kw !in Fill(keywords, domain, columns, competitors, positions, parse)
  {
    FillTidy(keywords, domain, columns, competitors, positions, parse);
    FillOrder(keywords, domain, columns, competitors, positions, parse, kw);
    OccupiedNone(columns, SessionCells(keywords, domain, kw, columns, competitors, positions, parse));
  }

  // ------------------------------------------------------------ finishing a cell

  function Pos(e: Entry): int
  {
    e.position
  }

  /** No two entries share a position. */
  ghost predicate DistinctPositions(s: seq<Entry>)
  {
    forall i, j :: 0 <= i < j < |s| ==> s[i].position != s[j].position
  }

  /** Sequences with the same elements have the same positions. */
  lemma PositionsMembers(a: seq<Entry>, b: seq<Entry>)
    requires forall x :: x in a ==> x in b
    ensures forall p :: p in Positions(a) ==> p in Positions(b)
  {
    forall p | p in Positions(a)
      ensures p in Positions(b)
    {
      var i :| 0 <= i < |a| && Positions(a)[i] == p;
      assert a[i] in b;
      var j :| 0 <= j < |b| && b[j] == a[i];
      assert Positions(b)[j] == p;
    }
  }

  /** Reordering keeps positions distinct. */
  lemma DistinctPositionsPerm(a: seq<Entry>, b: seq<Entry>)
    requires multiset(a) == multiset(b) && DistinctPositions(a)
    ensures DistinctPositions(b)
  {
    DistinctMultiset(a);
    DistinctFromMultiset(b, a);
    forall i, j | 0 <= i < j < |b|
      ensures b[i].position != b[j].position
    {
      assert b[i] in multiset(b) && b[j] in multiset(b);
      var i' :| 0 <= i' < |a| && a[i'] == b[i];
      var j' :| 0 <= j' < |a| && a[j'] == b[j];
      assert i' != j';
    }
  }

  /** Placeholders for the positions 1..n that are not present, ascending. */
  function Gaps(present: seq<int>, n: nat): (gs: seq<Entry>)
    ensures forall i :: 0 <= i < |gs| ==>
      gs[i] == Placeholder(gs[i].position) && 1 <= gs[i].position <= n && gs[i].position !in present
    ensures forall i, j :: 0 <= i < j < |gs| ==> gs[i].position < gs[j].position
  {
    if n == 0 then []
    else Gaps(present, n - 1) + (if n in present then [] else [Placeholder(n)])
  }

  /** Every absent position of 1..n has its placeholder. */
  lemma {:induction false} GapsCover(present: seq<int>, n: nat, p: int)
    requires 1 <= p <= n && p !in present
    ensures Placeholder(p) in Gaps(present, n)
  {
    if p < n {
      GapsCover(present, n - 1, p);
    }
  }

  /** The cell sorted by position with the placeholders added, sorted again. */
  function Merged(cell: seq<Entry>): seq<Entry>
  {
    var sorted := SortBy(cell, Pos);
    SortBy(sorted + Gaps(Positions(sorted), TopSize), Pos)
  }

  /** The finished cell: the first ten of the merged cell. */
  function Finish(cell: seq<Entry>): seq<Entry>
  {
    Take(Merged(cell), TopSize)
  }

  /** The merged cell holds the cell's entries and a placeholder for each position of 1..10 none of them holds. */
  lemma MergedMembers(cell: seq<Entry>)
    ensures forall e :: e in Merged(cell) <==>
      e in cell || (e == Placeholder(e.position) && 1 <= e.position <= TopSize && e.position !in Positions(cell))
  {
    var sorted := SortBy(cell, Pos);
    var gs := Gaps(Positions(sorted), TopSize);
    SortByMembers(cell, Pos);
    SortByMembers(sorted + gs, Pos);
    PositionsMembers(cell, sorted);
    PositionsMembers(sorted, cell);
    forall e: Entry | e == Placeholder(e.position) && 1 <= e.position <= TopSize && e.position !in Positions(cell)
      ensures e in gs
    {
      GapsCover(Positions(sorted), TopSize, e.position);
    }
  }

  lemma InPositions(s: seq<Entry>, e: Entry)
    requires e in s
    ensures e.position in Positions(s)
  {
    var j :| 0 <= j < |s| && s[j] == e;
    assert Positions(s)[j] == e.position;
  }

  /** Every position of 1..10 is held in the merged cell. */
  lemma MergedCovers(cell: seq<Entry>)
    ensures forall p :: 1 <= p <= TopSize ==> p in Positions(Merged(cell))
  {
    var m := Merged(cell);
    MergedMembers(cell);
    forall p | 1 <= p <= TopSize
      ensures p in Positions(m)
    {
      var e := Placeholder(p);
      if p in Positions(cell) {
        var i :| 0 <= i < |cell| && Positions(cell)[i] == p;
        e := cell[i];
      }
      InPositions(m, e);
    }
  }

  /** Distinct positions in the cell give distinct positions in the merged cell. */
  lemma MergedDistinct(cell: seq<Entry>)
    requires DistinctPositions(cell)
    ensures DistinctPositions(Merged(cell))
  {
    var sorted := SortBy(cell, Pos);
    DistinctPositionsPerm(cell, sorted);
    var gs := Gaps(Positions(sorted), TopSize);
    var c := sorted + gs;
    forall i, j | 0 <= i < j < |c|
      ensures c[i].position != c[j].position
    {
      if j >= |sorted| && i < |sorted| {
        assert Positions(sorted)[i] == c[i].position;
      }
    }
    DistinctPositionsPerm(c, Merged(cell));
  }

  /**
   * A sequence with strictly increasing positions, all at least 1, that holds
   * every position of 1..n has position i + 1 at index i.
   */
  lemma {:induction false} StrictCoverAt(s: seq<Entry>, n: nat, i: nat)
    requires forall a, b :: 0 <= a < b < |s| ==> s[a].position < s[b].position
    requires forall a :: 0 <= a < |s| ==> 1 <= s[a].position
    requires forall p :: 1 <= p <= n ==> p in Positions(s)
    requires i < n
    ensures i < |s| && s[i].position == i + 1
  {
    assert i + 1 in Positions(s);
    var j :| 0 <= j < |s| && Positions(s)[j] == i + 1;
    if i > 0 {
      StrictCoverAt(s, n, i - 1);
    }
    assert i <= j;
  }

  /** Strictly increasing positions of at least 1 put at least a + 1 at index a. */
  lemma {:induction false} StrictFloor(s: seq<Entry>, a: nat)
    requires forall a, b :: 0 <= a < b < |s| ==> s[a].position < s[b].position
    requires forall a :: 0 <= a < |s| ==> 1 <= s[a].position
    requires a < |s|
    ensures a + 1 <= s[a].position
  {
    if a > 0 {
      StrictFloor(s, a - 1);
    }
  }

  /** A sorted sequence of entries with distinct positions within 1..10 that holds each of them is exactly 1..10. */
  lemma ExactFromCover(s: seq<Entry>)
    requires SortedBy(s, Pos) && DistinctPositions(s)
    requires forall a :: 0 <= a < |s| ==> 1 <= s[a].position <= TopSize
    requires forall p :: 1 <= p <= TopSize ==> p in Positions(s)
    ensures |s| == TopSize
    ensures forall i :: 0 <= i < TopSize ==> s[i].position == i + 1
  {
    forall a, b | 0 <= a < b < |s|
      ensures s[a].position < s[b].position
    {
      assert Pos(s[a]) <= Pos(s[b]);
    }
    forall i | 0 <= i < TopSize
      ensures i < |s| && s[i].position == i + 1
    {
      StrictCoverAt(s, TopSize, i);
    }
    StrictCoverAt(s, TopSize, TopSize - 1);
    StrictFloor(s, |s| - 1);
  }

  /** The finished cell is sorted by position and holds at most ten entries. */
  lemma FinishSorted(cell: seq<Entry>)
    ensures |Finish(cell)| <= TopSize
    ensures SortedBy(Finish(cell), Pos)
  {
    TakeSorted(Merged(cell), TopSize, Pos);
  }

  /** The finished cell holds entries of the cell and placeholders for positions of 1..10 that no entry holds. */
  lemma FinishFrom(cell: seq<Entry>)
    ensures forall e :: e in Finish(cell) ==>
      e in cell || (e == Placeholder(e.position) && e.missing && 1 <= e.position <= TopSize && e.position !in Positions(cell))
  {
    MergedMembers(cell);
    TakeMembers(Merged(cell), TopSize);
  }

  /**
   * A cell whose positions are distinct and within 1..10 finishes as exactly
   * ten entries holding positions 1..10 in order, and loses none of its own.
   */
  lemma FinishExact(cell: seq<Entry>)
    requires DistinctPositions(cell)
    requires forall e :: e in cell ==> 1 <= e.position <= TopSize
    ensures |Finish(cell)| == TopSize
    ensures forall i :: 0 <= i < TopSize ==> Finish(cell)[i].position == i + 1
    ensures forall e :: e in cell ==> e in Finish(cell)
  {
    var m := Merged(cell);
    MergedMembers(cell);
    MergedCovers(cell);
    MergedDistinct(cell);
    assert forall a :: 0 <= a < |m| ==> m[a] in m;
    ExactFromCover(m);
  }

  /** The cell step of the report: sort, add the placeholders, sort again, keep ten. */
  method FinishCell(cell: seq<Entry>) returns (finished: seq<Entry>)
    ensures finished == Finish(cell)
  {
    var sorted := SortBy(cell, Pos);
    var present := Positions(sorted);
    var list := sorted;
    for p := 1 to TopSize + 1
      invariant list == sorted + Gaps(present, p - 1)
    {
      if p !in present {
        list := list + [Placeholder(p)];
      }
    }
    list := SortBy(list, Pos);
    finished := Take(list, TopSize);
  }

  // ------------------------------------------------------------ the loops that fill and finish the cells

  /** The competitor loop of one session. */
  method AddCompetitorsLoop(t0: Top10, keywords: map<int, string>, k: SessionKey, rows: seq<CompetitorRow>,
                            parse: string -> Option<UrlParts>) returns (t: Top10)
    requires forall r :: r in rows ==> r.keywordId in keywords && r.position.Some?
    ensures t == AddCompetitors(t0, keywords, k, rows, parse)
  {
    t := t0;
    for i := 0 to |rows|
      invariant forall x :: x in rows[..i] ==> x in rows
      invariant t == AddCompetitors(t0, keywords, k, rows[..i], parse)
    {
      AddCompetitorsPrefix(t0, keywords, k, rows, i, parse);
      t := Append(t, keywords[rows[i].keywordId], k, CompetitorEntry(rows[i], parse));
    }
    assert rows[..|rows|] == rows;
  }

  /** Our-position loop of one session: our entry only where its position is free. */
  method AddOursLoop(t0: Top10, keywords: map<int, string>, domain: string, k: SessionKey, rows: seq<OurRow>,
                     parse: string -> Option<UrlParts>) returns (t: Top10)
    requires forall r :: r in rows ==> r.keywordId in keywords && r.position.Some?
    ensures t == AddOurs(t0, keywords, domain, k, rows, parse)
  {
    t := t0;
    for i := 0 to |rows|
      invariant forall x :: x in rows[..i] ==> x in rows
      invariant t == AddOurs(t0, keywords, domain, k, rows[..i], parse)
    {
      var r := rows[i];
      AddOursPrefix(t0, keywords, domain, k, rows, i, parse);
      var kw := keywords[r.keywordId];
      var existing := Positions(CellAt(t, kw, k));
      if r.position.value !in existing {
        t := Append(t, kw, k, OurEntry(r, domain, parse));
      }
    }
    assert rows[..|rows|] == rows;
  }

  /** Step 6 of the report: every session in list order, its competitors first, then our positions. */
  method FillTop10(keywords: map<int, string>, domain: string, columns: seq<Column>, competitors: seq<CompetitorRow>,
                   positions: seq<OurRow>, parse: string -> Option<UrlParts>) returns (t: Top10)
    ensures t == Fill(keywords, domain, columns, competitors, positions, parse)
  {
    t := map[];
    for n := 0 to |columns|
      invariant t == Fill(keywords, domain, columns[..n], competitors, positions, parse)
    {
      var c := columns[n];
      assert columns[..n + 1][..n] == columns[..n];
      t := AddCompetitorsLoop(t, keywords, c.key, CompetitorsOf(competitors, keywords, c.id), parse);
      t := AddOursLoop(t, keywords, domain, c.key, OursOf(positions, keywords, c.id), parse);
    }
    assert columns[..|columns|] == columns;
  }

  /** Step 7 of the report: every cell finished, the keys and their order kept. */
  function FinishAll(t: Top10): (r: Top10)
    ensures r.Keys == t.Keys
    ensures forall kw :: kw in t ==> r[kw].order == t[kw].order && r[kw].cells.Keys == t[kw].cells.Keys
  {
    map kw | kw in t :: KeywordCells(map k | k in t[kw].cells :: Finish(t[kw].cells[k]), t[kw].order)
  }

  /** Every finished cell is its filled cell finished. */
  lemma FinishAllCells(t: Top10, kw: string, k: SessionKey)
    requires kw in t && k in t[kw].cells
    ensures CellAt(FinishAll(t), kw, k) == Finish(CellAt(t, kw, k))
  {
  }

  // ------------------------------------------------------------ statistics

  /** The statistics of a keyword (step 8). */
  datatype Stat = Stat(latest: Option<SessionKey>, total: nat, uniqueDomains: nat, topPosition: Option<int>,
                       ourInTop10: bool, ourPositions: seq<int>)

  /** The distinct domains of a cell. */
  function Domains(cell: seq<Entry>): set<string>
  {
    set e | e in cell :: e.domain
  }

  /** A cell has no more distinct domains than entries, and at least one when it is not empty. */
  lemma {:induction false} DomainsBound(cell: seq<Entry>)
    ensures |Domains(cell)| <= |cell|
    ensures cell != [] ==> 1 <= |Domains(cell)|
  {
    if cell != [] {
      var init := cell[..|cell| - 1];
      DomainsBound(init);
      assert forall e :: e in cell <==> e in init || e == cell[|cell| - 1];
      assert Domains(cell) == Domains(init) + {cell[|cell| - 1].domain};
    }
  }

  /** The positions of our entries of a cell, in its order. */
  function OurPositions(cell: seq<Entry>): (ps: seq<int>)
    ensures |ps| <= |cell|
    ensures forall p :: p in ps <==> exists i :: 0 <= i < |cell| && cell[i].ours && cell[i].position == p
  {
    if cell == [] then []
    else
      var init := cell[..|cell| - 1];
      assert forall i :: 0 <= i < |init| ==> init[i] == cell[i];
      OurPositions(init) + (if cell[|cell| - 1].ours then [cell[|cell| - 1].position] else [])
  }

  /** The cell of a keyword's first session key; [] when it has none. */
  function LatestCell(kc: KeywordCells): seq<Entry>
  {
    if kc.order != [] && kc.order[0] in kc.cells then kc.cells[kc.order[0]] else []
  }

  function KeywordStat(kc: KeywordCells): Stat
  {
    if kc.order == [] then Stat(None, 0, 0, None, false, [])
    else
      var top := LatestCell(kc);
      var ours := OurPositions(top);
      Stat(Some(kc.order[0]), |top|, |Domains(top)|, if top != [] then Some(top[0].position) else None, |ours| > 0, ours)
  }

  /**
   * A keyword's statistics describe the cell of its first session key: its
   * size, the number of distinct domains in it, its first position, and
   * whether and where our site is in it.
   */
  lemma KeywordStatFacts(kc: KeywordCells)
    ensures KeywordStat(kc).latest == (if kc.order == [] then None else Some(kc.order[0]))
    ensures KeywordStat(kc).total == |LatestCell(kc)|
    ensures KeywordStat(kc).uniqueDomains == |Domains(LatestCell(kc))| <= KeywordStat(kc).total
    ensures forall d :: d in Domains(LatestCell(kc)) <==> exists e :: e in LatestCell(kc) && e.domain == d
    ensures LatestCell(kc) != [] ==> KeywordStat(kc).topPosition == Some(LatestCell(kc)[0].position)
    ensures LatestCell(kc) == [] ==> KeywordStat(kc).topPosition.None?
    ensures KeywordStat(kc).ourInTop10 <==> exists i :: 0 <= i < |LatestCell(kc)| && LatestCell(kc)[i].ours
    ensures forall p :: p in KeywordStat(kc).ourPositions <==>
      exists i :: 0 <= i < |LatestCell(kc)| && LatestCell(kc)[i].ours && LatestCell(kc)[i].position == p
  {
    var top := LatestCell(kc);
    DomainsBound(top);
    if exists i :: 0 <= i < |top| && top[i].ours {
      var i :| 0 <= i < |top| && top[i].ours;
      assert top[i].position in OurPositions(top);
    }
    if |OurPositions(top)| > 0 {
      assert OurPositions(top)[0] in OurPositions(top);
    }
  }

  /** After finishing, the latest cell of a keyword is sorted by position and holds at most ten entries. */
  lemma FinishedLatest(t: Top10, kw: string)
    requires kw in t
    ensures |LatestCell(FinishAll(t)[kw])| <= TopSize
    ensures SortedBy(LatestCell(FinishAll(t)[kw]), Pos)
  {
    var kc := FinishAll(t)[kw];
    if kc.order != [] && kc.order[0] in kc.cells {
      FinishSorted(t[kw].cells[kc.order[0]]);
    }
  }

  /** Over a sorted cell of at most ten entries, the statistics count at most ten and report the smallest position. */
  lemma TopPositionLeast(kc: KeywordCells)
    requires |LatestCell(kc)| <= TopSize && SortedBy(LatestCell(kc), Pos)
    ensures KeywordStat(kc).total <= TopSize
    ensures KeywordStat(kc).topPosition.Some? ==>
      forall i :: 0 <= i < |LatestCell(kc)| ==> KeywordStat(kc).topPosition.value <= LatestCell(kc)[i].position
  {
    var top := LatestCell(kc);
    assert forall i :: 0 <= i < |top| ==> Pos(top[0]) <= Pos(top[i]);
  }

  /** Step 8: the statistics of every keyword that has cells. */
  function Statistics(t: Top10): (stats: map<string, Stat>)
    ensures stats.Keys == t.Keys
  {
    map kw | kw in t :: KeywordStat(t[kw])
  }

  // ------------------------------------------------------------ the report

  /** `{keywords, top10, sessions, stats, has_session_id}`. */
  datatype Top10Report = Top10Report(keywords: map<int, string>, top10: Top10, sessions: seq<Column>,
                                     stats: map<string, Stat>, hasSessionId: bool)

  /** The columns of the session query's rows. */
  function Columns(rows: seq<SessionRow>): (columns: seq<Column>)
    ensures |columns| == |rows| && forall i :: 0 <= i < |rows| ==> columns[i] == ColumnOf(rows[i])
  {
    seq(|rows|, i requires 0 <= i < |rows| => ColumnOf(rows[i]))
  }

  /** The report over the session query's rows. */
  function ReportOf(domain: string, keywords: map<int, string>, rows: seq<SessionRow>, competitors: seq<CompetitorRow>,
                    positions: seq<OurRow>, session: Option<int>, parse: string -> Option<UrlParts>): Top10Report
  {
    var columns := Columns(rows);
    var top10 := FinishAll(Fill(keywords, domain, columns, competitors, positions, parse));
    Top10Report(keywords, top10, columns, Statistics(top10), session.Some?)
  }

  /**
   * The competitor report's data: nothing for an unknown project, a project
   * without active keywords, or no session that a position of its keywords
   * refers to; otherwise the report over the session query.
   */
  method Top10Data(domain: string, project: Option<int>, keywords: map<int, string>, positions: seq<OurRow>,
                   competitors: seq<CompetitorRow>, sessions: map<int, SessionInfo>, session: Option<int>,
                   parse: string -> Option<UrlParts>) returns (data: Option<Top10Report>)
    ensures data.None? <==> project.None? || keywords == map[] || SessionQuery(positions, keywords, sessions, session) == []
    ensures data.Some? ==>
      data.value == ReportOf(domain, keywords, SessionQuery(positions, keywords, sessions, session), competitors, positions, session, parse)
  {
    if project.None? || keywords == map[] {
      return None;
    }
    var rows := SessionQuery(positions, keywords, sessions, session);
    if rows == [] {
      return None;
    }
    var columns := ListSessions(rows);
    assert columns == Columns(rows);
    var top10 := FillTop10(keywords, domain, columns, competitors, positions, parse);
    top10 := FinishAll(top10);
    data := Some(Top10Report(keywords, top10, columns, Statistics(top10), session.Some?));
  }

  /** The session query's columns have distinct session keys. */
  lemma QueryKeysDistinct(positions: seq<OurRow>, keywords: map<int, string>, sessions: map<int, SessionInfo>,
                          session: Option<int>)
    ensures DistinctKeys(Columns(SessionQuery(positions, keywords, sessions, session)))
  {
    var rows := SessionQuery(positions, keywords, sessions, session);
    SessionQueryDistinct(positions, keywords, sessions, session);
    forall i, j | 0 <= i < j < |rows|
      ensures Columns(rows)[i].key != Columns(rows)[j].key
    {
      ColumnKeysDistinct(rows[i], rows[j]);
    }
  }

  /** Each filled cell of the report is its session cell, finished. */
  lemma ReportCell(domain: string, keywords: map<int, string>, positions: seq<OurRow>, competitors: seq<CompetitorRow>,
                   sessions: map<int, SessionInfo>, session: Option<int>, parse: string -> Option<UrlParts>, kw: string, n: nat)
    requires n < |SessionQuery(positions, keywords, sessions, session)|
    requires SessionCell(keywords, domain, kw, Columns(SessionQuery(positions, keywords, sessions, session))[n],
                         competitors, positions, parse) != []
    ensures CellAt(ReportOf(domain, keywords, SessionQuery(positions, keywords, sessions, session), competitors, positions, session, parse).top10,
                   kw, Columns(SessionQuery(positions, keywords, sessions, session))[n].key) ==
      Finish(SessionCell(keywords, domain, kw, Columns(SessionQuery(positions, keywords, sessions, session))[n],
                         competitors, positions, parse))
  {
    var columns := Columns(SessionQuery(positions, keywords, sessions, session));
    var t := Fill(keywords, domain, columns, competitors, positions, parse);
    QueryKeysDistinct(positions, keywords, sessions, session);
    FillCell(keywords, domain, columns, competitors, positions, parse, kw, n);
    FinishAllCells(t, kw, columns[n].key);
  }

  /**
   * A keyword's statistics in the report name the newest session that gave it
   * an entry and count at most ten entries of that session's finished cell.
   */
  lemma ReportLatest(domain: string, keywords: map<int, string>, positions: seq<OurRow>, competitors: seq<CompetitorRow>,
                     sessions: map<int, SessionInfo>, session: Option<int>, parse: string -> Option<UrlParts>, kw: string, n: nat)
    requires n < |SessionQuery(positions, keywords, sessions, session)|
    requires SessionCell(keywords, domain, kw, Columns(SessionQuery(positions, keywords, sessions, session))[n],
                         competitors, positions, parse) != []
    requires forall m :: 0 <= m < n ==>
      SessionCell(keywords, domain, kw, Columns(SessionQuery(positions, keywords, sessions, session))[m], competitors, positions, parse) == []
    ensures kw in ReportOf(domain, keywords, SessionQuery(positions, keywords, sessions, session), competitors, positions, session, parse).stats
    ensures ReportOf(domain, keywords, SessionQuery(positions, keywords, sessions, session), competitors, positions, session, parse).stats[kw].latest ==
      Some(Columns(SessionQuery(positions, keywords, sessions, session))[n].key)
    ensures ReportOf(domain, keywords, SessionQuery(positions, keywords, sessions, session), competitors, positions, session, parse).stats[kw].total
      <= TopSize
  {
    var columns := Columns(SessionQuery(positions, keywords, sessions, session));
    var t := Fill(keywords, domain, columns, competitors, positions, parse);
    QueryKeysDistinct(positions, keywords, sessions, session);
    LatestSession(keywords, domain, columns, competitors, positions, parse, kw, n);
    FinishedLatest(t, kw);
    TopPositionLeast(FinishAll(t)[kw]);
  }
}
