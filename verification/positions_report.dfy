/**
 * The data-shaping part of the positions report (HTMLReporter): the position
 * rows of a project grouped into check columns (one per monitoring session,
 * or one per check time for rows without a session), the columns ordered
 * newest first, the keyword-by-column table, the per-keyword statistics, the
 * cell style and the count of keywords ranked first. What the database
 * returns is an input: the positions table, the project's active keywords
 * and the monitoring sessions; the positions query is modelled on them.
 */
module PositionsReport {
  import opened Common

  /** A row of the positions table as the report's query reads it. */
  datatype PositionRow = PositionRow(keywordId: int, at: Clock, position: Option<int>, engine: string, sessionId: Option<int>)

  /** A session id is used only when it is present and not 0 (Python truthiness). */
  predicate HasSession(r: PositionRow)
  {
    r.sessionId.Some? && r.sessionId.value != 0
  }

  // ------------------------------------------------------------ the query

  /** The rows of the project's keywords and, when a session is asked for, of that session; table order. */
  function Selected(table: seq<PositionRow>, keywords: map<int, string>, session: Option<int>): (rows: seq<PositionRow>)
    ensures forall r :: r in rows <==>
      r in table && r.keywordId in keywords && (SessionAsked(session) ==> r.sessionId == session)
  {
    if table == [] then []
    else
      var r := table[|table| - 1];
      var init := table[..|table| - 1];
      assert table == init + [r];
      Selected(init, keywords, session) +
        (if r.keywordId in keywords && (SessionAsked(session) ==> r.sessionId == session) then [r] else [])
  }

  function Newest(r: PositionRow): int
  {
    -(Key(r.at) as int)
  }

  /**
   * The positions query: the selected rows ordered by `(check_date, check_time)`
   * descending. SQL leaves the order of equal timestamps open; the model keeps
   * table order for them.
   */
  function PositionsQuery(table: seq<PositionRow>, keywords: map<int, string>, session: Option<int>): (rows: seq<PositionRow>)
    ensures forall r :: r in rows <==>
      r in table && r.keywordId in keywords && (SessionAsked(session) ==> r.sessionId == session)
    ensures forall i, j :: 0 <= i < j < |rows| ==> Key(rows[j].at) <= Key(rows[i].at)
  {
    var selected := Selected(table, keywords, session);
    SortByMembers(selected, Newest);
    SortBy(selected, Newest)
  }

  // ------------------------------------------------------------ grouping into columns

  /** The key of the sessions dictionary: "session_{id}", or "{date} {time without fractional seconds}". */
  datatype GroupKey = SessionGroup(id: int) | TimeGroup(at: Clock)

  /** The column's name: the session's name, "Сессия {id}" when the session row is missing, or "Запуск {date} {time}". */
  datatype Title = Named(name: string) | SessionNumber(id: int) | RunAt(at: Clock)

  /** What a column holds for one keyword. */
  datatype Reading = Reading(position: Option<int>, exactTime: TimeOfDay, engine: string)

  /**
   * One entry of the sessions dictionary: its date, time, session id and
   * name, and its per-keyword readings with the keyword ids in the order they
   * were first entered.
   */
  datatype Group = Group(date: nat, time: TimeOfDay, sessionId: Option<int>, title: Title,
                         readings: map<int, Reading>, kids: seq<int>)

  function GroupKeyOf(r: PositionRow): GroupKey
  {
    if HasSession(r) then SessionGroup(r.sessionId.value) else TimeGroup(Clock(r.at.date, WholeSeconds(r.at.time)))
  }

  /**
   * The entry a row opens. A session's time is its start time without
   * fractional seconds or, when the session row is missing, the row's own
   * check time as stored; a row without a session gives its check time
   * without fractional seconds.
   */
  function NewGroup(r: PositionRow, sessions: map<int, SessionInfo>): (g: Group)
    ensures g.readings == map[] && g.kids == [] && g.date == r.at.date
    ensures g.sessionId.Some? <==> HasSession(r)
  {
    if HasSession(r) then
      var id := r.sessionId.value;
      if id in sessions then Group(r.at.date, WholeSeconds(sessions[id].start.time), Some(id), Named(sessions[id].name), map[], [])
      else Group(r.at.date, r.at.time, Some(id), SessionNumber(id), map[], [])
    else
      var t := WholeSeconds(r.at.time);
      Group(r.at.date, t, None, RunAt(Clock(r.at.date, t)), map[], [])
  }

  function ReadingOf(r: PositionRow): Reading
  {
    Reading(r.position, r.at.time, r.engine)
  }

  /** `sessions[key]['keywords'][keyword_id] = ...`: a later row overwrites an earlier one. */
  function Record(g: Group, r: PositionRow): Group
  {
    g.(readings := g.readings[r.keywordId := ReadingOf(r)],
       kids := if r.keywordId in g.readings then g.kids else g.kids + [r.keywordId])
  }

  /** The sessions dictionary: its entries, and its keys in insertion order. */
  datatype Grouping = Grouping(groups: map<GroupKey, Group>, order: seq<GroupKey>)

  function AddRow(gs: Grouping, r: PositionRow, sessions: map<int, SessionInfo>): Grouping
  {
    var k := GroupKeyOf(r);
    if k in gs.groups then Grouping(gs.groups[k := Record(gs.groups[k], r)], gs.order)
    else Grouping(gs.groups[k := Record(NewGroup(r, sessions), r)], gs.order + [k])
  }

  /** The sessions dictionary after the rows, in order. */
  function GroupRows(rows: seq<PositionRow>, sessions: map<int, SessionInfo>): Grouping
  {
    if rows == [] then Grouping(map[], [])
    else AddRow(GroupRows(rows[..|rows| - 1], sessions), rows[|rows| - 1], sessions)
  }

  lemma GroupRowsStep(rows: seq<PositionRow>, i: nat, sessions: map<int, SessionInfo>)
    requires i < |rows|
    ensures GroupRows(rows[..i + 1], sessions) == AddRow(GroupRows(rows[..i], sessions), rows[i], sessions)
  {
    assert rows[..i + 1][..i] == rows[..i];
  }

  /** One pass of the grouping loop: open the entry on the key's first row, then record the reading. */
  method AddPosition(groups0: map<GroupKey, Group>, order0: seq<GroupKey>, r: PositionRow, sessions: map<int, SessionInfo>)
    returns (groups: map<GroupKey, Group>, order: seq<GroupKey>)
    ensures Grouping(groups, order) == AddRow(Grouping(groups0, order0), r, sessions)
  {
    groups, order := groups0, order0;
    var k := GroupKeyOf(r);
    if k !in groups {
      var g := NewGroup(r, sessions);
      assert groups[k := g][k := Record(g, r)] == groups[k := Record(g, r)];
      groups := groups[k := g];
      order := order + [k];
    }
    groups := groups[k := Record(groups[k], r)];
  }

  /** The grouping loop over the query's rows. */
  method GroupPositions(rows: seq<PositionRow>, sessions: map<int, SessionInfo>)
    returns (groups: map<GroupKey, Group>, order: seq<GroupKey>)
    ensures Grouping(groups, order) == GroupRows(rows, sessions)
  {
    groups := map[];
    order := [];
    for i := 0 to |rows|
      invariant Grouping(groups, order) == GroupRows(rows[..i], sessions)
    {
      GroupRowsStep(rows, i, sessions);
      groups, order := AddPosition(groups, order, rows[i], sessions);
    }
    assert rows[..|rows|] == rows;
  }

  /** An entry agrees with its key: a session entry carries that session, a time entry that date and time. */
  predicate KeyFits(k: GroupKey, g: Group)
  {
    match k
    case SessionGroup(id) => g.sessionId == Some(id) && id != 0
    case TimeGroup(at) => g.sessionId.None? && g.date == at.date && g.time == at.time
  }

  /** The keyword ids of an entry are listed once each, and are keywords of the project. */
  ghost predicate GroupFits(g: Group, keywords: map<int, string>)
  {
    && (forall i, j :: 0 <= i < j < |g.kids| ==> g.kids[i] != g.kids[j])
    && (forall kid :: kid in g.readings <==> kid in g.kids)
    && (forall kid :: kid in g.readings ==> kid in keywords)
  }

  ghost predicate WellFormed(gs: Grouping, keywords: map<int, string>)
  {
    && (forall i, j :: 0 <= i < j < |gs.order| ==> gs.order[i] != gs.order[j])
    && (forall k :: k in gs.groups <==> k in gs.order)
    && (forall k :: k in gs.groups ==> KeyFits(k, gs.groups[k]) && GroupFits(gs.groups[k], keywords))
  }

  lemma NewGroupFits(r: PositionRow, sessions: map<int, SessionInfo>)
    ensures KeyFits(GroupKeyOf(r), NewGroup(r, sessions))
  {
  }

  lemma RecordFits(g: Group, r: PositionRow, keywords: map<int, string>)
    requires GroupFits(g, keywords) && r.keywordId in keywords
    ensures GroupFits(Record(g, r), keywords)
  {
    var g' := Record(g, r);
    if r.keywordId !in g.readings {
      assert forall i :: 0 <= i < |g.kids| ==> g'.kids[i] == g.kids[i];
      assert g'.kids[|g.kids|] == r.keywordId;
    }
  }

  /** Adding a row of a project keyword keeps the dictionary well formed. */
  lemma AddRowWellFormed(gs: Grouping, r: PositionRow, sessions: map<int, SessionInfo>, keywords: map<int, string>)
    requires WellFormed(gs, keywords) && r.keywordId in keywords
    ensures WellFormed(AddRow(gs, r, sessions), keywords)
  {
    var k := GroupKeyOf(r);
    if k in gs.groups {
      RecordFits(gs.groups[k], r, keywords);
    } else {
      NewGroupFits(r, sessions);
      RecordFits(NewGroup(r, sessions), r, keywords);
      var order' := gs.order + [k];
      assert forall i :: 0 <= i < |gs.order| ==> order'[i] == gs.order[i];
    }
  }

  /** The dictionary keeps one entry per key, lists every key once, and every entry agrees with its key. */
  lemma {:induction false} GroupRowsWellFormed(rows: seq<PositionRow>, sessions: map<int, SessionInfo>, keywords: map<int, string>)
    requires forall r :: r in rows ==> r.keywordId in keywords
    ensures WellFormed(GroupRows(rows, sessions), keywords)
  {
    if rows != [] {
      var init := rows[..|rows| - 1];
      assert forall x :: x in init ==> x in rows;
      GroupRowsWellFormed(init, sessions, keywords);
      AddRowWellFormed(GroupRows(init, sessions), rows[|rows| - 1], sessions, keywords);
    }
  }

  /** Row `r` is one for keyword `kid` in the entry with key `k`. */
  predicate Same(r: PositionRow, k: GroupKey, kid: int)
  {
    GroupKeyOf(r) == k && r.keywordId == kid
  }

  /** There is an entry for every key of a row, and for no other key. */
  lemma {:induction false} GroupRowsKeys(rows: seq<PositionRow>, sessions: map<int, SessionInfo>, k: GroupKey)
    ensures k in GroupRows(rows, sessions).groups <==> exists i :: 0 <= i < |rows| && GroupKeyOf(rows[i]) == k
  {
    if rows != [] {
      var n := |rows| - 1;
      var init := rows[..n];
      assert forall i :: 0 <= i < n ==> rows[i] == init[i];
      GroupRowsKeys(init, sessions, k);
      assert GroupRows(rows, sessions) == AddRow(GroupRows(init, sessions), rows[n], sessions);
      if GroupKeyOf(rows[n]) != k && exists i :: 0 <= i < |rows| && GroupKeyOf(rows[i]) == k {
        var i :| 0 <= i < |rows| && GroupKeyOf(rows[i]) == k;
        assert i != n;
        assert GroupKeyOf(init[i]) == k;
      }
    }
  }

  /** One row changes only the reading of its own key and keyword. */
  lemma AddRowReadings(gs: Grouping, r: PositionRow, sessions: map<int, SessionInfo>, k: GroupKey, kid: int)
    ensures var gs' := AddRow(gs, r, sessions);
      (k in gs'.groups && kid in gs'.groups[k].readings) <==>
        (k in gs.groups && kid in gs.groups[k].readings) || Same(r, k, kid)
    ensures Same(r, k, kid) ==> AddRow(gs, r, sessions).groups[k].readings[kid] == ReadingOf(r)
    ensures !Same(r, k, kid) && k in gs.groups && kid in gs.groups[k].readings ==>
      AddRow(gs, r, sessions).groups[k].readings[kid] == gs.groups[k].readings[kid]
  {
  }

  /** An entry has a reading for a keyword exactly when some row of that key is for that keyword. */
  lemma {:induction false} GroupRowsReads(rows: seq<PositionRow>, sessions: map<int, SessionInfo>, k: GroupKey, kid: int)
    ensures (k in GroupRows(rows, sessions).groups && kid in GroupRows(rows, sessions).groups[k].readings) <==>
      exists i :: 0 <= i < |rows| && Same(rows[i], k, kid)
  {
    if rows != [] {
      var n := |rows| - 1;
      var init := rows[..n];
      assert forall i :: 0 <= i < n ==> rows[i] == init[i];
      GroupRowsReads(init, sessions, k, kid);
      AddRowReadings(GroupRows(init, sessions), rows[n], sessions, k, kid);
      if !Same(rows[n], k, kid) && exists i :: 0 <= i < |rows| && Same(rows[i], k, kid) {
        var i :| 0 <= i < |rows| && Same(rows[i], k, kid);
        assert i != n;
        assert init[i] == rows[i];
      }
    }
  }

  /** Row `i` is the last row of key `k` for keyword `kid`. */
  ghost predicate LastRow(rows: seq<PositionRow>, i: int, k: GroupKey, kid: int)
  {
    0 <= i < |rows| && Same(rows[i], k, kid) && forall j :: i < j < |rows| ==> !Same(rows[j], k, kid)
  }

  lemma LastRowExtends(rows: seq<PositionRow>, i: int, k: GroupKey, kid: int)
    requires rows != [] && LastRow(rows[..|rows| - 1], i, k, kid) && !Same(rows[|rows| - 1], k, kid)
    ensures LastRow(rows, i, k, kid) && rows[i] == rows[..|rows| - 1][i]
  {
    assert forall j :: i < j < |rows| - 1 ==> rows[j] == rows[..|rows| - 1][j];
  }

  /** The reading an entry keeps for a keyword is that of the last row of that key for that keyword. */
  lemma {:induction false} GroupRowsLastWins(rows: seq<PositionRow>, sessions: map<int, SessionInfo>, k: GroupKey, kid: int)
    ensures k in GroupRows(rows, sessions).groups && kid in GroupRows(rows, sessions).groups[k].readings ==>
      exists i :: LastRow(rows, i, k, kid) && GroupRows(rows, sessions).groups[k].readings[kid] == ReadingOf(rows[i])
  {
    if rows != [] {
      var n := |rows| - 1;
      var init := rows[..n];
      var before := GroupRows(init, sessions);
      assert GroupRows(rows, sessions) == AddRow(before, rows[n], sessions);
      AddRowReadings(before, rows[n], sessions, k, kid);
      if Same(rows[n], k, kid) {
        assert LastRow(rows, n, k, kid);
      } else if k in before.groups && kid in before.groups[k].readings {
        GroupRowsLastWins(init, sessions, k, kid);
        var i :| LastRow(init, i, k, kid) && before.groups[k].readings[kid] == ReadingOf(init[i]);
        LastRowExtends(rows, i, k, kid);
      }
    }
  }

  /** An entry's date, time, session id and name are those of the first row with its key. */
  lemma {:induction false} GroupRowsHeader(rows: seq<PositionRow>, sessions: map<int, SessionInfo>, k: GroupKey)
    requires k in GroupRows(rows, sessions).groups
    ensures var g := GroupRows(rows, sessions).groups[k];
      exists i :: 0 <= i < |rows| && GroupKeyOf(rows[i]) == k && (forall j :: 0 <= j < i ==> GroupKeyOf(rows[j]) != k) &&
        g.(readings := map[], kids := []) == NewGroup(rows[i], sessions)
  {
    var n := |rows| - 1;
    var init := rows[..n];
    var r := rows[n];
    assert forall i :: 0 <= i < n ==> rows[i] == init[i];
    var before := GroupRows(init, sessions);
    var g := GroupRows(rows, sessions).groups[k];
    if k in before.groups {
      GroupRowsHeader(init, sessions, k);
      var i :| 0 <= i < n && GroupKeyOf(init[i]) == k && (forall j :: 0 <= j < i ==> GroupKeyOf(init[j]) != k) &&
        before.groups[k].(readings := map[], kids := []) == NewGroup(init[i], sessions);
      assert GroupKeyOf(rows[i]) == k;
    } else {
      GroupRowsKeys(init, sessions, k);
      assert forall j :: 0 <= j < n ==> GroupKeyOf(rows[j]) != k;
      assert GroupKeyOf(r) == k;
    }
  }

  /**
   * Over rows ordered newest first, the reading an entry keeps for a keyword
   * is that of its oldest row: no other row of the entry for that keyword is
   * older.
   */
  lemma LastIsOldest(rows: seq<PositionRow>, sessions: map<int, SessionInfo>, k: GroupKey, kid: int)
    requires forall i, j :: 0 <= i < j < |rows| ==> Key(rows[j].at) <= Key(rows[i].at)
    ensures k in GroupRows(rows, sessions).groups && kid in GroupRows(rows, sessions).groups[k].readings ==>
      exists i :: 0 <= i < |rows| && Same(rows[i], k, kid) && GroupRows(rows, sessions).groups[k].readings[kid] == ReadingOf(rows[i]) &&
        forall j :: 0 <= j < |rows| && Same(rows[j], k, kid) ==> Key(rows[i].at) <= Key(rows[j].at)
  {
    GroupRowsLastWins(rows, sessions, k, kid);
    var gs := GroupRows(rows, sessions);
    if k in gs.groups && kid in gs.groups[k].readings {
      var i :| LastRow(rows, i, k, kid) && gs.groups[k].readings[kid] == ReadingOf(rows[i]);
      forall j | 0 <= j < |rows| && Same(rows[j], k, kid)
        ensures Key(rows[i].at) <= Key(rows[j].at)
      {
        assert j <= i;
      }
    }
  }

  /** The query orders its rows newest first, so each reading in the report is the keyword's oldest in its column. */
  lemma OldestReadingWins(table: seq<PositionRow>, keywords: map<int, string>, session: Option<int>,
                          sessions: map<int, SessionInfo>, k: GroupKey, kid: int)
    ensures var rows := PositionsQuery(table, keywords, session);
      k in GroupRows(rows, sessions).groups && kid in GroupRows(rows, sessions).groups[k].readings ==>
        exists i :: 0 <= i < |rows| && Same(rows[i], k, kid) && GroupRows(rows, sessions).groups[k].readings[kid] == ReadingOf(rows[i]) &&
          forall j :: 0 <= j < |rows| && Same(rows[j], k, kid) ==> Key(rows[i].at) <= Key(rows[j].at)
  {
    LastIsOldest(PositionsQuery(table, keywords, session), sessions, k, kid);
  }

  // ------------------------------------------------------------ columns, newest first

  /** A column header: `{date, time, session_id, session_name}`. */
  datatype Column = Column(date: nat, time: TimeOfDay, sessionId: Option<int>, title: Title)

  function ColumnOf(g: Group): Column
  {
    Column(g.date, g.time, g.sessionId, g.title)
  }

  function GroupClock(g: Group): Clock
  {
    Clock(g.date, g.time)
  }

  function Newer(gs: Grouping): GroupKey -> int
  {
    (k: GroupKey) => if k in gs.groups then -(Key(GroupClock(gs.groups[k])) as int) else 0
  }

  /** `sorted(sessions.keys(), key=(date, time), reverse=True)`: newest first, ties in insertion order. */
  function ColumnOrder(gs: Grouping): (keys: seq<GroupKey>)
    ensures multiset(keys) == multiset(gs.order)
  {
    SortBy(gs.order, Newer(gs))
  }

  /** The columns are the dictionary's entries, each once. */
  lemma ColumnOrderMembers(gs: Grouping, keywords: map<int, string>)
    requires WellFormed(gs, keywords)
    ensures forall k :: k in ColumnOrder(gs) <==> k in gs.groups
    ensures forall i, j :: 0 <= i < j < |ColumnOrder(gs)| ==> ColumnOrder(gs)[i] != ColumnOrder(gs)[j]
  {
    var keys := ColumnOrder(gs);
    assert forall k :: k in keys <==> k in multiset(keys);
    assert forall k :: k in gs.order <==> k in multiset(gs.order);
    DistinctMultiset(gs.order);
    DistinctFromMultiset(keys, gs.order);
  }

  /** The columns are the dictionary's entries, each once, newest first. */
  lemma ColumnOrderNewestFirst(gs: Grouping, keywords: map<int, string>)
    requires WellFormed(gs, keywords)
    ensures forall k :: k in ColumnOrder(gs) <==> k in gs.groups
    ensures forall i, j :: 0 <= i < j < |ColumnOrder(gs)| ==> ColumnOrder(gs)[i] != ColumnOrder(gs)[j]
    ensures forall i, j :: 0 <= i < j < |ColumnOrder(gs)| ==>
      Key(GroupClock(gs.groups[ColumnOrder(gs)[j]])) <= Key(GroupClock(gs.groups[ColumnOrder(gs)[i]]))
  {
    ColumnOrderMembers(gs, keywords);
    var keys := ColumnOrder(gs);
    forall i, j | 0 <= i < j < |keys|
      ensures Key(GroupClock(gs.groups[keys[j]])) <= Key(GroupClock(gs.groups[keys[i]]))
    {
      assert keys[i] in keys && keys[j] in keys;
      assert Newer(gs)(keys[i]) <= Newer(gs)(keys[j]);
    }
  }

  /** The column headers, one per column key, in order. */
  function Headers(gs: Grouping, keys: seq<GroupKey>): (columns: seq<Column>)
    requires forall k :: k in keys ==> k in gs.groups
    ensures |columns| == |keys| && forall i :: 0 <= i < |keys| ==> columns[i] == ColumnOf(gs.groups[keys[i]])
  {
    if keys == [] then []
    else
      assert forall x :: x in keys[..|keys| - 1] ==> x in keys;
      Headers(gs, keys[..|keys| - 1]) + [ColumnOf(gs.groups[keys[|keys| - 1]])]
  }

  /** The header loop. */
  method ListColumns(gs: Grouping, keys: seq<GroupKey>) returns (columns: seq<Column>)
    requires forall k :: k in keys ==> k in gs.groups
    ensures columns == Headers(gs, keys)
  {
    columns := [];
    for i := 0 to |keys|
      invariant columns == Headers(gs, keys[..i])
    {
      assert keys[..i + 1][..i] == keys[..i];
      columns := columns + [ColumnOf(gs.groups[keys[i]])];
    }
    assert keys[..|keys|] == keys;
  }

  // ------------------------------------------------------------ the keyword-by-column table

  /** The table's column key: "Сессия {id}", or "{date} {time}". */
  datatype ColumnKey = SessionColumn(id: int) | TimeColumn(at: Clock)

  function ColumnKeyOf(g: Group): ColumnKey
  {
    if g.sessionId.Some? && g.sessionId.value != 0 then SessionColumn(g.sessionId.value) else TimeColumn(GroupClock(g))
  }

  /** Different entries get different column keys. */
  lemma ColumnKeysDistinct(gs: Grouping, keywords: map<int, string>, k1: GroupKey, k2: GroupKey)
    requires WellFormed(gs, keywords) && k1 in gs.groups && k2 in gs.groups && k1 != k2
    ensures ColumnKeyOf(gs.groups[k1]) != ColumnKeyOf(gs.groups[k2])
  {
    assert KeyFits(k1, gs.groups[k1]) && KeyFits(k2, gs.groups[k2]);
  }

  /** A cell: `{position, search_engine, exact_time, session_id}`. */
  datatype Cell = Cell(position: Option<int>, engine: string, exactTime: TimeOfDay, sessionId: Option<int>)

  type Table = map<string, map<ColumnKey, Cell>>

  function CellOf(g: Group, kid: int): Cell
    requires kid in g.readings
  {
    Cell(g.readings[kid].position, g.readings[kid].engine, g.readings[kid].exactTime, g.sessionId)
  }

  function Put(t: Table, kw: string, col: ColumnKey, c: Cell): (r: Table)
    ensures kw in r && col in r[kw] && r[kw][col] == c
    ensures forall kw', col' :: kw' in t && col' in t[kw'] && (kw', col') != (kw, col) ==>
      kw' in r && col' in r[kw'] && r[kw'][col'] == t[kw'][col']
    ensures forall kw', col' :: kw' in r && col' in r[kw'] ==> (kw', col') == (kw, col) || (kw' in t && col' in t[kw'])
  {
    t[kw := (if kw in t then t[kw] else map[])[col := c]]
  }

  /** One entry's readings written into its column, in the entry's keyword order. */
  function FillColumn(t: Table, keywords: map<int, string>, g: Group, kids: seq<int>): Table
    requires forall kid :: kid in kids ==> kid in g.readings && kid in keywords
  {
    if kids == [] then t
    else
      var kid := kids[|kids| - 1];
      assert forall x :: x in kids[..|kids| - 1] ==> x in kids;
      Put(FillColumn(t, keywords, g, kids[..|kids| - 1]), keywords[kid], ColumnKeyOf(g), CellOf(g, kid))
  }

  /** The table after the columns `keys`, in order. */
  function FillTable(keywords: map<int, string>, gs: Grouping, keys: seq<GroupKey>): Table
    requires forall k :: k in keys ==> k in gs.groups && GroupFits(gs.groups[k], keywords)
  {
    if keys == [] then map[]
    else
      var k := keys[|keys| - 1];
      assert forall x :: x in keys[..|keys| - 1] ==> x in keys;
      assert GroupFits(gs.groups[k], keywords);
      FillColumn(FillTable(keywords, gs, keys[..|keys| - 1]), keywords, gs.groups[k], gs.groups[k].kids)
  }

  lemma FillColumnStep(t: Table, keywords: map<int, string>, g: Group, i: nat)
    requires GroupFits(g, keywords) && i < |g.kids|
    ensures g.kids[i] in g.readings && g.kids[i] in keywords
    ensures FillColumn(t, keywords, g, g.kids[..i + 1]) ==
      Put(FillColumn(t, keywords, g, g.kids[..i]), keywords[g.kids[i]], ColumnKeyOf(g), CellOf(g, g.kids[i]))
  {
    assert g.kids[i] in g.kids;
    assert g.kids[..i + 1][..i] == g.kids[..i];
  }

  /** The inner loop: every keyword of one column. */
  method FillColumnLoop(t0: Table, keywords: map<int, string>, g: Group) returns (t: Table)
    requires GroupFits(g, keywords)
    ensures t == FillColumn(t0, keywords, g, g.kids)
  {
    t := t0;
    var col := ColumnKeyOf(g);
    for i := 0 to |g.kids|
      invariant t == FillColumn(t0, keywords, g, g.kids[..i])
    {
      FillColumnStep(t0, keywords, g, i);
      var kid := g.kids[i];
      var kw := keywords[kid];
      var row := if kw in t then t[kw] else map[];
      t := t[kw := row[col := CellOf(g, kid)]];
    }
    assert g.kids[..|g.kids|] == g.kids;
  }

  /** The table loop: every column, newest first. */
  method FillPositions(keywords: map<int, string>, gs: Grouping, keys: seq<GroupKey>) returns (t: Table)
    requires forall k :: k in keys ==> k in gs.groups && GroupFits(gs.groups[k], keywords)
    ensures t == FillTable(keywords, gs, keys)
  {
    t := map[];
    for i := 0 to |keys|
      invariant t == FillTable(keywords, gs, keys[..i])
    {
      t := FillColumnLoop(t, keywords, gs.groups[keys[i]]);
      assert keys[..i + 1][..i] == keys[..i];
    }
    assert keys[..|keys|] == keys;
  }

  /** No two keyword ids name the same keyword (keywords are unique per project). */
  ghost predicate Injective(keywords: map<int, string>)
  {
    forall a, b :: a in keywords && b in keywords && keywords[a] == keywords[b] ==> a == b
  }

  /** Writing one column adds cells only in that column, only for its keywords. */
  lemma {:induction false} FillColumnDomain(t: Table, keywords: map<int, string>, g: Group, kids: seq<int>)
    requires forall kid :: kid in kids ==> kid in g.readings && kid in keywords
    ensures forall kw, col :: kw in FillColumn(t, keywords, g, kids) && col in FillColumn(t, keywords, g, kids)[kw] ==>
      (kw in t && col in t[kw]) || (col == ColumnKeyOf(g) && exists kid :: kid in kids && keywords[kid] == kw)
  {
    if kids != [] {
      var n := |kids| - 1;
      var init := kids[..n];
      assert forall x :: x in init ==> x in kids;
      FillColumnDomain(t, keywords, g, init);
      var r0 := FillColumn(t, keywords, g, init);
      var r := FillColumn(t, keywords, g, kids);
      forall kw, col | kw in r && col in r[kw]
        ensures (kw in t && col in t[kw]) || (col == ColumnKeyOf(g) && exists kid :: kid in kids && keywords[kid] == kw)
      {
        if kw in r0 && col in r0[kw] {
          if !(kw in t && col in t[kw]) {
            var kid :| kid in init && keywords[kid] == kw;
            assert kid in kids;
          }
        } else {
          assert kw == keywords[kids[n]] && kids[n] in kids;
        }
      }
    }
  }

  /** Writing one column leaves every cell of the other columns as it was. */
  lemma {:induction false} FillColumnKeeps(t: Table, keywords: map<int, string>, g: Group, kids: seq<int>)
    requires forall kid :: kid in kids ==> kid in g.readings && kid in keywords
    ensures forall kw, col :: kw in t && col in t[kw] && col != ColumnKeyOf(g) ==>
      kw in FillColumn(t, keywords, g, kids) && col in FillColumn(t, keywords, g, kids)[kw] &&
      FillColumn(t, keywords, g, kids)[kw][col] == t[kw][col]
  {
    if kids != [] {
      var init := kids[..|kids| - 1];
      assert forall x :: x in init ==> x in kids;
      FillColumnKeeps(t, keywords, g, init);
    }
  }

  /** Writing one column gives each of its keywords a cell, holding that keyword's reading when names are unique. */
  lemma {:induction false} FillColumnPuts(t: Table, keywords: map<int, string>, g: Group, kids: seq<int>)
    requires forall kid :: kid in kids ==> kid in g.readings && kid in keywords
    requires Injective(keywords)
    ensures forall kid :: kid in kids ==>
      keywords[kid] in FillColumn(t, keywords, g, kids) && ColumnKeyOf(g) in FillColumn(t, keywords, g, kids)[keywords[kid]] &&
      FillColumn(t, keywords, g, kids)[keywords[kid]][ColumnKeyOf(g)] == CellOf(g, kid)
  {
    if kids != [] {
      var n := |kids| - 1;
      var init := kids[..n];
      assert forall x :: x in kids <==> x in init || x == kids[n];
      FillColumnPuts(t, keywords, g, init);
    }
  }

  /** The table holds cells only where some column read the keyword. */
  lemma {:induction false} TableDomain(keywords: map<int, string>, gs: Grouping, keys: seq<GroupKey>)
    requires forall k :: k in keys ==> k in gs.groups && GroupFits(gs.groups[k], keywords)
    ensures forall kw, col :: kw in FillTable(keywords, gs, keys) && col in FillTable(keywords, gs, keys)[kw] ==>
      exists k, kid :: k in keys && kid in gs.groups[k].readings && keywords[kid] == kw && ColumnKeyOf(gs.groups[k]) == col
  {
    if keys != [] {
      var n := |keys| - 1;
      var init := keys[..n];
      assert forall x :: x in init ==> x in keys;
      TableDomain(keywords, gs, init);
      var g := gs.groups[keys[n]];
      assert keys[n] in keys;
      assert forall kid :: kid in g.kids ==> kid in g.readings;
      var before := FillTable(keywords, gs, init);
      var t := FillTable(keywords, gs, keys);
      FillColumnDomain(before, keywords, g, g.kids);
      forall kw, col | kw in t && col in t[kw]
        ensures exists k, kid :: k in keys && kid in gs.groups[k].readings && keywords[kid] == kw && ColumnKeyOf(gs.groups[k]) == col
      {
        if kw in before && col in before[kw] {
          var k, kid :| k in init && kid in gs.groups[k].readings && keywords[kid] == kw && ColumnKeyOf(gs.groups[k]) == col;
          assert k in keys;
        } else {
          var kid :| kid in g.kids && keywords[kid] == kw;
          assert kid in gs.groups[keys[n]].readings && ColumnKeyOf(gs.groups[keys[n]]) == col;
        }
      }
    }
  }

  /** Every keyword read in a column has its cell there, holding that reading. */
  lemma {:induction false} TableCells(keywords: map<int, string>, gs: Grouping, keys: seq<GroupKey>)
    requires WellFormed(gs, keywords) && Injective(keywords)
    requires forall k :: k in keys ==> k in gs.groups
    requires forall i, j :: 0 <= i < j < |keys| ==> keys[i] != keys[j]
    ensures forall k, kid :: k in keys && kid in gs.groups[k].readings ==>
      keywords[kid] in FillTable(keywords, gs, keys) &&
      ColumnKeyOf(gs.groups[k]) in FillTable(keywords, gs, keys)[keywords[kid]] &&
      FillTable(keywords, gs, keys)[keywords[kid]][ColumnKeyOf(gs.groups[k])] == CellOf(gs.groups[k], kid)
  {
    if keys != [] {
      var n := |keys| - 1;
      var init := keys[..n];
      assert forall x :: x in keys <==> x in init || x == keys[n];
      assert forall i, j :: 0 <= i < j < |init| ==> init[i] != init[j];
      TableCells(keywords, gs, init);
      var g := gs.groups[keys[n]];
      var before := FillTable(keywords, gs, init);
      FillColumnKeeps(before, keywords, g, g.kids);
      FillColumnPuts(before, keywords, g, g.kids);
      assert forall kid :: kid in g.kids <==> kid in g.readings;
      forall k | k in init
        ensures ColumnKeyOf(gs.groups[k]) != ColumnKeyOf(g)
      {
        ColumnKeysDistinct(gs, keywords, k, keys[n]);
      }
    }
  }

  // ------------------------------------------------------------ statistics

  /** `{best, worst, count, sessions_count}`; the average is left out. */
  datatype Stat = Stat(best: Option<int>, worst: Option<int>, count: nat, sessionsCount: nat)

  /** A keyword's cells in column order (the order of `positions[keyword].values()`). */
  function Row(m: map<ColumnKey, Cell>, cols: seq<ColumnKey>): (r: seq<Cell>)
    ensures |r| <= |cols|
    ensures forall c :: c in cols && c in m ==> m[c] in r
    ensures forall x :: x in r ==> exists c :: c in cols && c in m && m[c] == x
  {
    if cols == [] then []
    else
      var c := cols[|cols| - 1];
      var init := cols[..|cols| - 1];
      assert forall x :: x in cols <==> x in init || x == c;
      Row(m, init) + (if c in m then [m[c]] else [])
  }

  /** `[p for p in positions if p is not None]`. */
  function Known(cells: seq<Cell>): (ps: seq<int>)
    ensures |ps| <= |cells|
    ensures forall p :: p in ps <==> exists x :: x in cells && x.position == Some(p)
  {
    if cells == [] then []
    else
      var x := cells[|cells| - 1];
      var init := cells[..|cells| - 1];
      assert forall y :: y in cells <==> y in init || y == x;
      Known(init) + (if x.position.Some? then [x.position.value] else [])
  }

  function Least(ps: seq<int>): (lo: int)
    requires ps != []
    ensures lo in ps && forall p :: p in ps ==> lo <= p
  {
    if |ps| == 1 then ps[0]
    else
      var rest := Least(ps[1..]);
      assert forall p :: p in ps <==> p == ps[0] || p in ps[1..];
      if ps[0] <= rest then ps[0] else rest
  }

  function Greatest(ps: seq<int>): (hi: int)
    requires ps != []
    ensures hi in ps && forall p :: p in ps ==> p <= hi
  {
    if |ps| == 1 then ps[0]
    else
      var rest := Greatest(ps[1..]);
      assert forall p :: p in ps <==> p == ps[0] || p in ps[1..];
      if ps[0] >= rest then ps[0] else rest
  }

  /**
   * One keyword's statistics over its cells: best and worst known position,
   * how many cells know it, and how many cells there are; a keyword without
   * a known position gets None, None, 0 and 0.
   */
  function KeywordStat(cells: seq<Cell>): (s: Stat)
  {
    var ps := Known(cells);
    if ps == [] then Stat(None, None, 0, 0)
    else Stat(Some(Least(ps)), Some(Greatest(ps)), |ps|, |cells|)
  }

  /**
   * Best is the least and worst the greatest known position, each held by
   * some cell; the count is the number of known positions; nothing known
   * gives None, None, 0 and 0.
   */
  lemma KeywordStatBounds(cells: seq<Cell>)
    ensures var s := KeywordStat(cells);
      && s.count == |Known(cells)|
      && (s.best.Some? <==> exists x :: x in cells && x.position.Some?)
      && (s.best.Some? ==>
            && s.worst.Some?
            && (exists x :: x in cells && x.position == s.best) && (exists x :: x in cells && x.position == s.worst)
            && (forall x :: x in cells && x.position.Some? ==> s.best.value <= x.position.value <= s.worst.value)
            && s.count <= s.sessionsCount == |cells|)
      && (s.best.None? ==> s == Stat(None, None, 0, 0))
  {
    var ps := Known(cells);
    if exists x :: x in cells && x.position.Some? {
      var x :| x in cells && x.position.Some?;
      assert x.position.value in ps;
    }
  }

  /** A keyword counts as ranked first exactly when some cell has it at 1 and none has it above. */
  lemma BestIsOne(cells: seq<Cell>)
    ensures KeywordStat(cells).best == Some(1) <==>
      (exists x :: x in cells && x.position == Some(1)) && forall x :: x in cells && x.position.Some? ==> 1 <= x.position.value
  {
    KeywordStatBounds(cells);
  }

  function RowOf(t: Table, kw: string): map<ColumnKey, Cell>
  {
    if kw in t then t[kw] else map[]
  }

  /** The statistics of every keyword of the project, over its row of the table. */
  function Statistics(keywords: map<int, string>, t: Table, cols: seq<ColumnKey>): (stats: map<string, Stat>)
    ensures stats.Keys == keywords.Values
  {
    map kw | kw in keywords.Values :: KeywordStat(Row(RowOf(t, kw), cols))
  }

  /** How many of the names have best position 1 (a missing statistic counts as no position). */
  function TopOne(names: seq<string>, stats: map<string, Stat>): (n: nat)
    ensures n <= |names|
  {
    if names == [] then 0
    else
      var kw := names[|names| - 1];
      TopOne(names[..|names| - 1], stats) + (if kw in stats && stats[kw].best == Some(1) then 1 else 0)
  }

  /** The `top1_count` loop over the report's keyword list. */
  method CountTopOne(names: seq<string>, stats: map<string, Stat>) returns (n: nat)
    ensures n == TopOne(names, stats)
  {
    n := 0;
    for i := 0 to |names|
      invariant n == TopOne(names[..i], stats)
    {
      assert names[..i + 1][..i] == names[..i];
      if names[i] in stats && stats[names[i]].best == Some(1) {
        n := n + 1;
      }
    }
    assert names[..|names|] == names;
  }

  /** The count is the number of listed keywords whose best position is 1. */
  lemma {:induction false} TopOneCounts(names: seq<string>, stats: map<string, Stat>)
    ensures TopOne(names, stats) == |set i | 0 <= i < |names| && names[i] in stats && stats[names[i]].best == Some(1)|
  {
    if names != [] {
      var n := |names| - 1;
      var init := names[..n];
      TopOneCounts(init, stats);
      var a := set i | 0 <= i < |init| && init[i] in stats && stats[init[i]].best == Some(1);
      var b := set i | 0 <= i < |names| && names[i] in stats && stats[names[i]].best == Some(1);
      if names[n] in stats && stats[names[n]].best == Some(1) {
        assert b == a + {n};
      } else {
        assert b == a;
      }
    }
  }

  // ------------------------------------------------------------ the cell style

  /** The CSS class of a cell. */
  datatype CellStyle = PositionNull | PositionFirst | PositionTop3 | PositionBeyond10 | Unstyled

  function Classify(p: Option<int>): (s: CellStyle)
  {
    if p.None? then PositionNull
    else if p.value == 1 then PositionFirst
    else if p.value <= 3 then PositionTop3
    else if p.value > 10 then PositionBeyond10
    else Unstyled
  }

  /**
   * The styles split the positions: none for a missing position, first for
   * 1, top-3 for any other position up to 3 (0 and negative ones included),
   * beyond-10 above 10, and no style for 4 to 10.
   */
  lemma ClassifyCases(p: Option<int>)
    ensures Classify(p) == PositionNull <==> p.None?
    ensures Classify(p) == PositionFirst <==> p == Some(1)
    ensures Classify(p) == PositionTop3 <==> p.Some? && p.value != 1 && p.value <= 3
    ensures Classify(p) == PositionBeyond10 <==> p.Some? && p.value > 10
    ensures Classify(p) == Unstyled <==> p.Some? && 4 <= p.value <= 10
  {
  }

  /** The text shown in a cell: "—" for a missing position, the number otherwise. */
  function DisplayValue(p: Option<int>): (r: string)
    ensures r == "—" <==> p.None?
  {
    if p.None? then "—" else IntText(p.value)
  }

  // ------------------------------------------------------------ the report data

  /** `{keywords, positions, sessions, stats, has_session_id}`. */
  datatype Report = Report(keywords: map<int, string>, positions: Table, columns: seq<Column>,
                           stats: map<string, Stat>, hasSessionId: bool)

  function ColumnKeys(gs: Grouping, keys: seq<GroupKey>): (cols: seq<ColumnKey>)
    requires forall k :: k in keys ==> k in gs.groups
    ensures |cols| == |keys| && forall i :: 0 <= i < |keys| ==> cols[i] == ColumnKeyOf(gs.groups[keys[i]])
  {
    if keys == [] then []
    else
      assert forall x :: x in keys[..|keys| - 1] ==> x in keys;
      ColumnKeys(gs, keys[..|keys| - 1]) + [ColumnKeyOf(gs.groups[keys[|keys| - 1]])]
  }

  /** The report data built from the query's rows. */
  function ReportOf(keywords: map<int, string>, rows: seq<PositionRow>, sessions: map<int, SessionInfo>,
                    session: Option<int>): Report
    requires forall row :: row in rows ==> row.keywordId in keywords
  {
    var gs := GroupRows(rows, sessions);
    GroupRowsWellFormed(rows, sessions, keywords);
    var keys := ColumnOrder(gs);
    ColumnOrderNewestFirst(gs, keywords);
    var positions := FillTable(keywords, gs, keys);
    Report(keywords, positions, Headers(gs, keys), Statistics(keywords, positions, ColumnKeys(gs, keys)), session.Some?)
  }

  /** Grouping, ordering, filling and counting the query's rows. */
  method BuildReport(keywords: map<int, string>, rows: seq<PositionRow>, sessions: map<int, SessionInfo>,
                     session: Option<int>) returns (report: Report)
    requires forall row :: row in rows ==> row.keywordId in keywords
    ensures report == ReportOf(keywords, rows, sessions, session)
  {
    var groups, order := GroupPositions(rows, sessions);
    var gs := Grouping(groups, order);
    GroupRowsWellFormed(rows, sessions, keywords);
    var keys := ColumnOrder(gs);
    ColumnOrderNewestFirst(gs, keywords);
    var columns := ListColumns(gs, keys);
    var positions := FillPositions(keywords, gs, keys);
    var stats := Statistics(keywords, positions, ColumnKeys(gs, keys));
    report := Report(keywords, positions, columns, stats, session.Some?);
  }

  /**
   * _get_positions_data: nothing for a missing project, a project without
   * active keywords or no position rows; otherwise the grouped, ordered and
   * counted data.
   */
  method PositionsData(project: Option<int>, keywords: map<int, string>, table: seq<PositionRow>,
                       sessions: map<int, SessionInfo>, session: Option<int>) returns (data: Option<Report>)
    ensures data.None? <==> project.None? || keywords == map[] || PositionsQuery(table, keywords, session) == []
    ensures data.Some? ==> data.value == ReportOf(keywords, PositionsQuery(table, keywords, session), sessions, session)
  {
    if project.None? || keywords == map[] {
      return None;
    }
    var rows := PositionsQuery(table, keywords, session);
    if rows == [] {
      return None;
    }
    var report := BuildReport(keywords, rows, sessions, session);
    data := Some(report);
  }
}
