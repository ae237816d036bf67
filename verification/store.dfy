/**
 * The observation store of core/database.py (class SEODatabase). Each SQL
 * table is a field: a map from row id to row, except the competitors table,
 * whose rows are kept in insertion (id) order. Every public method is one
 * SELECT-then-UPDATE/INSERT unit of work; its postcondition says what the
 * touched tables become, and its `modifies` frame says which tables it may touch.
 * The table transitions with properties worth stating across several calls
 * (the position upsert, the competitor batch with its domain statistics, the
 * snapshot comparison) are pure functions with lemmas about them.
 */
module Store {
  import opened Common

  datatype Project = Project(name: string, domain: string)

  datatype Keyword = Keyword(projectId: int, text: string, isActive: bool)

  datatype Status = Running | Completed | Failed

  datatype Session = Session(
    projectId: int, name: Option<string>, startTime: Clock, endTime: Option<Clock>,
    status: Status, totalKeywords: Option<int>, completedKeywords: Option<int>)

  datatype PositionRow = PositionRow(
    projectId: int, keywordId: int, sessionId: Option<int>, checkDate: nat, checkTime: TimeOfDay,
    position: Option<int>, url: string, totalResults: int, searchEngine: string)

  /** The natural key of our own position: one row per project, keyword, day and engine. */
  datatype PositionKey = PositionKey(projectId: int, keywordId: int, checkDate: nat, searchEngine: string)

  datatype CompetitorRow = CompetitorRow(
    projectId: int, keywordId: int, sessionId: Option<int>, checkDate: nat, checkTime: TimeOfDay,
    domain: string, position: int, url: string, title: string, snippet: string)

  /** The six-column UNIQUE constraint of the competitors table. */
  datatype CompetitorKey = CompetitorKey(
    projectId: int, keywordId: int, checkDate: nat, checkTime: TimeOfDay, domain: string, position: int)

  /** A row of the domain reference: first and last day seen, appearances and mean position. */
  datatype DomainRef = DomainRef(firstSeen: nat, lastSeen: nat, totalAppearances: nat, avgPosition: Option<real>)

  datatype SnapshotKey = SnapshotKey(projectId: int, keywordId: int, date: nat)

  /**
   * The content hash of a top-10 list. It wraps the ordered list itself: two
   * digests are equal exactly when the lists are, which is all the store uses
   * the MD5 of the JSON text for.
   */
  datatype Digest = Digest(content: seq<CompetitorEntry>)

  /** A snapshot row; `previousHash` holds the digest of the stored `top10`. */
  datatype Snapshot = Snapshot(top10: seq<CompetitorEntry>, previousHash: Option<Digest>, hasChanges: bool)

  function KeyOfPosition(r: PositionRow): PositionKey
  {
    PositionKey(r.projectId, r.keywordId, r.checkDate, r.searchEngine)
  }

  function KeyOfCompetitor(r: CompetitorRow): CompetitorKey
  {
    CompetitorKey(r.projectId, r.keywordId, r.checkDate, r.checkTime, r.domain, r.position)
  }

  // ------------------------------------------------------------ table invariants

  ghost predicate IdsBelow<V>(m: map<int, V>, next: int)
  {
    forall id :: id in m ==> 1 <= id < next
  }

  ghost predicate UniqueDomains(projects: map<int, Project>)
  {
    forall i, j :: i in projects && j in projects && projects[i].domain == projects[j].domain ==> i == j
  }

  ghost predicate UniqueKeywords(keywords: map<int, Keyword>)
  {
    forall i, j ::
      i in keywords && j in keywords && keywords[i].projectId == keywords[j].projectId && keywords[i].text == keywords[j].text
      ==> i == j
  }

  ghost predicate UniquePositionKeys(positions: map<int, PositionRow>)
  {
    forall i, j :: i in positions && j in positions && KeyOfPosition(positions[i]) == KeyOfPosition(positions[j]) ==> i == j
  }

  /** The UNIQUE and CHECK constraints of the competitors table, and its NOT NULL domain. */
  ghost predicate CompetitorConstraints(rows: seq<CompetitorRow>)
  {
    && (forall i, j :: 0 <= i < j < |rows| ==> KeyOfCompetitor(rows[i]) != KeyOfCompetitor(rows[j]))
    && (forall i :: 0 <= i < |rows| ==> 1 <= rows[i].position <= 100 && rows[i].domain != "")
  }

  // ------------------------------------------------------------ position upsert

  /** The id of the stored row with natural key `key`, if there is one. */
  ghost function RowWithKey(positions: map<int, PositionRow>, key: PositionKey): (r: Option<int>)
    ensures r.Some? ==> r.value in positions && KeyOfPosition(positions[r.value]) == key
    ensures r.None? ==> forall id :: id in positions ==> KeyOfPosition(positions[id]) != key
  {
    if exists id :: id in positions && KeyOfPosition(positions[id]) == key then
      var id :| id in positions && KeyOfPosition(positions[id]) == key; Some(id)
    else None
  }

  /**
   * The UPDATE branch of save_position: position, url, total_results and
   * check_time are overwritten; session_id becomes COALESCE(new, old).
   */
  function Overwrite(stored: PositionRow, incoming: PositionRow): (r: PositionRow)
    ensures KeyOfPosition(r) == KeyOfPosition(stored)
    ensures r.position == incoming.position && r.url == incoming.url
    ensures r.totalResults == incoming.totalResults && r.checkTime == incoming.checkTime
    ensures r.sessionId == (if incoming.sessionId.Some? then incoming.sessionId else stored.sessionId)
  {
    stored.(position := incoming.position, url := incoming.url, totalResults := incoming.totalResults,
            checkTime := incoming.checkTime,
            sessionId := if incoming.sessionId.Some? then incoming.sessionId else stored.sessionId)
  }

  /**
   * save_position on the positions table: the new table and the id returned.
   * Nothing else changes: the upsert rewrites only the row it returns, and
   * that row carries the saved row's project, keyword, day, time and
   * position, and its session whenever one is given.
   */
  ghost function Upsert(positions: map<int, PositionRow>, nextId: int, row: PositionRow): (r: (map<int, PositionRow>, int))
    ensures var (p, id) := r;
      && (forall j :: j in p && j != id ==> j in positions && p[j] == positions[j])
      && id in p
      && p[id].projectId == row.projectId && p[id].keywordId == row.keywordId
      && p[id].checkDate == row.checkDate && p[id].checkTime == row.checkTime
      && p[id].position == row.position && p[id].url == row.url && p[id].totalResults == row.totalResults
      && (row.sessionId.Some? ==> p[id].sessionId == row.sessionId)
  {
    match RowWithKey(positions, KeyOfPosition(row))
    case Some(id) => (positions[id := Overwrite(positions[id], row)], id)
    case None => (positions[nextId := row], nextId)
  }

  /** The upsert keeps one row per natural key and allocates a new id only for a new key. */
  lemma UpsertKeepsKeysUnique(positions: map<int, PositionRow>, nextId: int, row: PositionRow)
    requires UniquePositionKeys(positions) && IdsBelow(positions, nextId) && nextId >= 1
    ensures var (p, id) := Upsert(positions, nextId, row);
      && UniquePositionKeys(p)
      && id in p && KeyOfPosition(p[id]) == KeyOfPosition(row)
      && p.Keys == positions.Keys + {id}
      && (id == nextId || id in positions)
      && IdsBelow(p, if id == nextId then nextId + 1 else nextId)
  {
    var (p, id) := Upsert(positions, nextId, row);
    match RowWithKey(positions, KeyOfPosition(row))
    case Some(j) =>
      assert id == j;
      forall a, b | a in p && b in p && KeyOfPosition(p[a]) == KeyOfPosition(p[b]) ensures a == b {
        assert KeyOfPosition(p[a]) == KeyOfPosition(positions[a]);
        assert KeyOfPosition(p[b]) == KeyOfPosition(positions[b]);
      }
    case None =>
      assert nextId !in positions;
  }

  /**
   * A stored natural key survives every later save; its row is untouched
   * unless the save is under the same key.
   */
  lemma UpsertKeepsOtherRows(positions: map<int, PositionRow>, nextId: int, row: PositionRow, key: PositionKey)
    requires UniquePositionKeys(positions) && IdsBelow(positions, nextId) && nextId >= 1
    requires RowWithKey(positions, key).Some?
    ensures var p := Upsert(positions, nextId, row).0;
      && RowWithKey(p, key).Some?
      && (key != KeyOfPosition(row) ==> p[RowWithKey(p, key).value] == positions[RowWithKey(positions, key).value])
  {
    UpsertKeepsKeysUnique(positions, nextId, row);
    var (p, id) := Upsert(positions, nextId, row);
    var r := RowWithKey(positions, key).value;
    if key != KeyOfPosition(row) {
      assert p[r] == positions[r];
    } else {
      assert KeyOfPosition(p[id]) == key;
    }
  }

  /**
   * Idempotence law: saving twice under the same natural key leaves exactly the
   * rows the first save left, the second call returns the same id, and the
   * second call's values win (the session only if the second call gives one).
   */
  lemma UpsertTwiceSameKey(positions: map<int, PositionRow>, nextId: int, first: PositionRow, second: PositionRow)
    requires UniquePositionKeys(positions) && IdsBelow(positions, nextId) && nextId >= 1
    requires KeyOfPosition(first) == KeyOfPosition(second)
    ensures var (p1, id1) := Upsert(positions, nextId, first);
      var (p2, id2) := Upsert(p1, if id1 == nextId then nextId + 1 else nextId, second);
      && id2 == id1
      && p2.Keys == p1.Keys
      && p2[id2].position == second.position && p2[id2].url == second.url
      && p2[id2].totalResults == second.totalResults && p2[id2].checkTime == second.checkTime
      && p2[id2].sessionId == (if second.sessionId.Some? then second.sessionId else p1[id1].sessionId)
      && (forall j :: j in p2 && j != id2 ==> p2[j] == positions[j])
  {
    UpsertKeepsKeysUnique(positions, nextId, first);
    var (p1, id1) := Upsert(positions, nextId, first);
    var (p2, id2) := Upsert(p1, if id1 == nextId then nextId + 1 else nextId, second);
    assert RowWithKey(p1, KeyOfPosition(second)) == Some(id1);
  }

  /** COALESCE: an update that carries no session never erases a stored one. */
  lemma {:induction false} UpsertNeverErasesSession(positions: map<int, PositionRow>, nextId: int, row: PositionRow, id: int)
    requires UniquePositionKeys(positions) && IdsBelow(positions, nextId) && nextId >= 1
    requires id in positions && KeyOfPosition(positions[id]) == KeyOfPosition(row)
    ensures var (p, id') := Upsert(positions, nextId, row);
      id' == id && p[id].sessionId == (if row.sessionId.Some? then row.sessionId else positions[id].sessionId)
  {
    assert RowWithKey(positions, KeyOfPosition(row)) == Some(id);
  }

  /**
   * The session timestamp of a row is not protected: a session-less save later
   * the same day moves check_time but keeps the recorded session, so two rows
   * of one session can end up with different check times.
   */
  lemma SessionRowsCanDisagreeOnTime(positions: map<int, PositionRow>, nextId: int, a: PositionRow, b: int, later: TimeOfDay)
    requires UniquePositionKeys(positions) && IdsBelow(positions, nextId) && nextId >= 1
    requires b in positions && positions[b].sessionId == a.sessionId && a.sessionId.Some?
    requires positions[b].checkDate == a.checkDate && positions[b].checkTime == a.checkTime
    requires KeyOfPosition(positions[b]) != KeyOfPosition(a) && later != a.checkTime
    ensures var (p1, id1) := Upsert(positions, nextId, a);
      var (p2, id2) := Upsert(p1, if id1 == nextId then nextId + 1 else nextId, a.(sessionId := None, checkTime := later));
      && p2[id2].sessionId == p2[b].sessionId
      && p2[id2].checkDate == p2[b].checkDate
      && p2[id2].checkTime != p2[b].checkTime
  {
    UpsertKeepsKeysUnique(positions, nextId, a);
    var (p1, id1) := Upsert(positions, nextId, a);
    assert id1 != b;
    UpsertTwiceSameKey(positions, nextId, a, a.(sessionId := None, checkTime := later));
    assert RowWithKey(p1, KeyOfPosition(a)) == Some(id1);
  }

  // ------------------------------------------------------------ domain reference

  /**
   * _update_domain_reference: an empty domain changes nothing; an unknown
   * domain starts at one appearance with the position as its mean; a known one
   * gets one more appearance, the running mean and a new last_seen.
   */
  function BumpDomain(domains: map<string, DomainRef>, domain: string, seen: nat, position: int): (r: map<string, DomainRef>)
    ensures domain == "" ==> r == domains
    ensures domain != "" ==> r.Keys == domains.Keys + {domain}
    ensures domain != "" && domain !in domains ==> r[domain] == DomainRef(seen, seen, 1, Some(position as real))
    ensures domain != "" && domain in domains ==>
      && r[domain].firstSeen == domains[domain].firstSeen
      && r[domain].lastSeen == seen
      && r[domain].totalAppearances == domains[domain].totalAppearances + 1
    ensures forall d :: d in domains && d != domain ==> r[d] == domains[d]
  {
    if domain == "" then domains
    else if domain in domains then
      var ref := domains[domain];
      domains[domain := DomainRef(ref.firstSeen, seen, ref.totalAppearances + 1,
                                  Some(NextMean(ref.avgPosition, ref.totalAppearances, position)))]
    else
      domains[domain := DomainRef(seen, seen, 1, Some(position as real))]
  }

  /** The mean of n + 1 positions from the mean of the first n (a missing mean restarts at `position`). */
  function NextMean(avg: Option<real>, n: nat, position: int): real
  {
    match avg
    case None => position as real
    case Some(a) => (a * n as real + position as real) / (n + 1) as real
  }

  function Sum(ps: seq<int>): int
  {
    if ps == [] then 0 else Sum(ps[..|ps| - 1]) + ps[|ps| - 1]
  }

  /** The reference row after a sequence of (day, position) appearances of one domain. */
  function Appearances(domains: map<string, DomainRef>, domain: string, seen: seq<(nat, int)>): map<string, DomainRef>
  {
    if seen == [] then domains
    else
      var last := seen[|seen| - 1];
      BumpDomain(Appearances(domains, domain, seen[..|seen| - 1]), domain, last.0, last.1)
  }

  function Positions(seen: seq<(nat, int)>): (ps: seq<int>)
    ensures |ps| == |seen|
  {
    if seen == [] then [] else Positions(seen[..|seen| - 1]) + [seen[|seen| - 1].1]
  }

  /**
   * Domain statistics: after N appearances of a new domain the reference row
   * counts N appearances, holds their arithmetic mean, and spans the first
   * and last day seen.
   */
  lemma {:induction false} RunningMeanIsMean(domains: map<string, DomainRef>, domain: string, seen: seq<(nat, int)>)
    requires domain != "" && domain !in domains && seen != []
    ensures var r := Appearances(domains, domain, seen);
      && domain in r
      && r[domain].totalAppearances == |seen|
      && r[domain].avgPosition == Some(Sum(Positions(seen)) as real / |seen| as real)
      && r[domain].firstSeen == seen[0].0
      && r[domain].lastSeen == seen[|seen| - 1].0
  {
    var n := |seen|;
    var init := seen[..n - 1];
    if init == [] {
      assert Positions(seen) == [seen[0].1];
      assert Sum(Positions(seen)) == seen[0].1 by {
        assert Positions(seen)[..0] == [];
      }
      assert Appearances(domains, domain, init) == domains;
      assert Appearances(domains, domain, seen)[domain] == DomainRef(seen[0].0, seen[0].0, 1, Some(seen[0].1 as real));
      assert |seen| == 1;
      assert seen[0].1 as real / 1 as real == seen[0].1 as real;
    } else {
      RunningMeanIsMean(domains, domain, init);
      assert init[0] == seen[0];
      assert Positions(seen)[..n - 1] == Positions(init);
      MeanStep(Sum(Positions(init)), n - 1, seen[n - 1].1);
    }
  }

  /** One step of the running mean: from the mean of m values to the mean of m + 1. */
  lemma MeanStep(total: int, m: nat, position: int)
    requires m > 0
    ensures NextMean(Some(total as real / m as real), m, position) == (total + position) as real / (m + 1) as real
  {
    assert total as real / m as real * m as real == total as real;
  }

  // ------------------------------------------------------------ competitor batch

  /** The identifying columns every row of one save_competitors call shares. */
  datatype SaveContext = SaveContext(projectId: int, keywordId: int, sessionId: Option<int>, date: nat, time: TimeOfDay)

  /**
   * What one connection of save_competitors sees: the competitor rows, the
   * domain reference, whether `conn.total_changes > 0`, and the count it logs.
   */
  datatype BatchState = BatchState(rows: seq<CompetitorRow>, domains: map<string, DomainRef>, changed: bool, saved: nat)

  ghost predicate HasKey(rows: seq<CompetitorRow>, key: CompetitorKey)
  {
    exists i :: 0 <= i < |rows| && KeyOfCompetitor(rows[i]) == key
  }

  /** The row an entry becomes (title and snippet cut to 500 and 1000 characters). */
  function RowOf(ctx: SaveContext, c: CompetitorEntry, position: int): CompetitorRow
  {
    CompetitorRow(ctx.projectId, ctx.keywordId, ctx.sessionId, ctx.date, ctx.time,
                  c.domain, position, c.url, Take(c.title, 500), Take(c.snippet, 1000))
  }

  /** `comp.get('position') or 0`. */
  function PositionOrZero(c: CompetitorEntry): int
  {
    if c.position.Some? then c.position.value else 0
  }

  /**
   * An entry survives the guard when it is present, has a domain and a
   * non-zero position; its INSERT OR IGNORE then adds a row only when the
   * position satisfies the CHECK (1..100) and the key is new.
   */
  predicate Considered(e: Option<CompetitorEntry>)
  {
    e.Some? && e.value.domain != "" && PositionOrZero(e.value) != 0
  }

  ghost predicate Inserts(st: BatchState, ctx: SaveContext, e: Option<CompetitorEntry>)
  {
    && Considered(e)
    && 1 <= PositionOrZero(e.value) <= 100
    && !HasKey(st.rows, KeyOfCompetitor(RowOf(ctx, e.value, PositionOrZero(e.value))))
  }

  /**
   * One loop iteration of save_competitors. The domain reference is bumped
   * whenever the connection has changed anything so far, which after the
   * first real insert includes ignored duplicates and out-of-range positions.
   */
  ghost function SaveOne(st: BatchState, ctx: SaveContext, e: Option<CompetitorEntry>): (r: BatchState)
    ensures Inserts(st, ctx, e) ==> r.rows == st.rows + [RowOf(ctx, e.value, PositionOrZero(e.value))]
    ensures !Inserts(st, ctx, e) ==> r.rows == st.rows
    ensures Considered(e) && 1 <= PositionOrZero(e.value) <= 100 ==>
      HasKey(r.rows, KeyOfCompetitor(RowOf(ctx, e.value, PositionOrZero(e.value))))
    ensures r.changed <==> st.changed || Inserts(st, ctx, e)
    ensures !r.changed ==> r.domains == st.domains && r.saved == st.saved
  {
    if !Considered(e) then st
    else
      var c := e.value;
      var pos := PositionOrZero(c);
      var inserted := Inserts(st, ctx, e);
      var rows := if inserted then st.rows + [RowOf(ctx, c, pos)] else st.rows;
      assert inserted ==> rows[|st.rows|] == RowOf(ctx, c, pos);
      var changed := st.changed || inserted;
      if changed then BatchState(rows, BumpDomain(st.domains, c.domain, ctx.date, pos), true, st.saved + 1)
      else BatchState(rows, st.domains, false, st.saved)
  }

  /** The whole loop of save_competitors over `entries`, from state `st`. */
  ghost function SaveAll(st: BatchState, ctx: SaveContext, entries: seq<Option<CompetitorEntry>>): (r: BatchState)
    ensures st.rows <= r.rows
    ensures forall i :: |st.rows| <= i < |r.rows| ==>
      && r.rows[i].projectId == ctx.projectId && r.rows[i].keywordId == ctx.keywordId
      && r.rows[i].sessionId == ctx.sessionId
      && r.rows[i].checkDate == ctx.date && r.rows[i].checkTime == ctx.time
    ensures CompetitorConstraints(st.rows) ==> CompetitorConstraints(r.rows)
    ensures !st.changed && r.rows == st.rows ==> r.domains == st.domains
    decreases |entries|
  {
    if entries == [] then st
    else
      var next := SaveOne(st, ctx, entries[0]);
      assert CompetitorConstraints(st.rows) ==> CompetitorConstraints(next.rows) by {
        if CompetitorConstraints(st.rows) && next.rows != st.rows {
          var row := RowOf(ctx, entries[0].value, PositionOrZero(entries[0].value));
          assert next.rows == st.rows + [row];
          forall i | 0 <= i < |st.rows| ensures KeyOfCompetitor(st.rows[i]) != KeyOfCompetitor(row) {
            if KeyOfCompetitor(st.rows[i]) == KeyOfCompetitor(row) {
              assert HasKey(st.rows, KeyOfCompetitor(row));
            }
          }
        }
      }
      SaveAll(next, ctx, entries[1..])
  }

  /** Every entry that passes the guard and the CHECK has its key stored after the batch. */
  lemma {:induction false} SaveAllStoresEveryValidKey(st: BatchState, ctx: SaveContext, entries: seq<Option<CompetitorEntry>>)
    ensures forall k :: 0 <= k < |entries| && Considered(entries[k]) && 1 <= PositionOrZero(entries[k].value) <= 100 ==>
      HasKey(SaveAll(st, ctx, entries).rows, KeyOfCompetitor(RowOf(ctx, entries[k].value, PositionOrZero(entries[k].value))))
    decreases |entries|
  {
    if entries != [] {
      var next := SaveOne(st, ctx, entries[0]);
      SaveAllStoresEveryValidKey(next, ctx, entries[1..]);
      var r := SaveAll(st, ctx, entries);
      assert r == SaveAll(next, ctx, entries[1..]);
      forall k | 0 <= k < |entries| && Considered(entries[k]) && 1 <= PositionOrZero(entries[k].value) <= 100
        ensures HasKey(r.rows, KeyOfCompetitor(RowOf(ctx, entries[k].value, PositionOrZero(entries[k].value))))
      {
        if k == 0 {
          var key := KeyOfCompetitor(RowOf(ctx, entries[0].value, PositionOrZero(entries[0].value)));
          if HasKey(st.rows, key) {
            var i :| 0 <= i < |st.rows| && KeyOfCompetitor(st.rows[i]) == key;
            assert r.rows[i] == st.rows[i];
          } else {
            assert next.rows[|st.rows|] == RowOf(ctx, entries[0].value, PositionOrZero(entries[0].value));
            assert r.rows[|st.rows|] == next.rows[|st.rows|];
          }
        } else {
          assert entries[k] == entries[1..][k - 1];
        }
      }
    }
  }

  /** A batch none of whose valid keys is new leaves a new connection's tables untouched. */
  lemma {:induction false} SaveAllOfStoredKeysIsNoOp(st: BatchState, ctx: SaveContext, entries: seq<Option<CompetitorEntry>>)
    requires !st.changed
    requires forall k :: 0 <= k < |entries| && Considered(entries[k]) && 1 <= PositionOrZero(entries[k].value) <= 100 ==>
      HasKey(st.rows, KeyOfCompetitor(RowOf(ctx, entries[k].value, PositionOrZero(entries[k].value))))
    ensures SaveAll(st, ctx, entries).rows == st.rows
    ensures SaveAll(st, ctx, entries).domains == st.domains
    decreases |entries|
  {
    if entries != [] {
      var next := SaveOne(st, ctx, entries[0]);
      assert !Inserts(st, ctx, entries[0]);
      assert next.rows == st.rows && next.domains == st.domains && !next.changed;
      forall k | 0 <= k < |entries[1..]| && Considered(entries[1..][k]) && 1 <= PositionOrZero(entries[1..][k].value) <= 100
        ensures HasKey(next.rows, KeyOfCompetitor(RowOf(ctx, entries[1..][k].value, PositionOrZero(entries[1..][k].value))))
      {
        assert entries[1..][k] == entries[k + 1];
      }
      SaveAllOfStoredKeysIsNoOp(next, ctx, entries[1..]);
    }
  }

  /**
   * Retried ingestion is side-effect free: running the same batch again at the
   * same instant on a new connection stores no row and bumps no statistics.
   */
  lemma SaveCompetitorsIdempotent(rows: seq<CompetitorRow>, domains: map<string, DomainRef>, ctx: SaveContext, entries: seq<Option<CompetitorEntry>>)
    ensures var first := SaveAll(BatchState(rows, domains, false, 0), ctx, entries);
      var again := SaveAll(BatchState(first.rows, first.domains, false, 0), ctx, entries);
      again.rows == first.rows && again.domains == first.domains
  {
    var first := SaveAll(BatchState(rows, domains, false, 0), ctx, entries);
    SaveAllStoresEveryValidKey(BatchState(rows, domains, false, 0), ctx, entries);
    SaveAllOfStoredKeysIsNoOp(BatchState(first.rows, first.domains, false, 0), ctx, entries);
  }

  /**
   * The cumulative `total_changes` test: after a new row, a duplicate of an
   * already stored row in the same call still bumps its domain's statistics.
   */
  lemma DuplicateAfterInsertIsCounted(rows: seq<CompetitorRow>, domains: map<string, DomainRef>, ctx: SaveContext,
                                      novel: CompetitorEntry, dup: CompetitorEntry)
    requires Considered(Some(novel)) && 1 <= PositionOrZero(novel) <= 100
    requires !HasKey(rows, KeyOfCompetitor(RowOf(ctx, novel, PositionOrZero(novel))))
    requires Considered(Some(dup)) && HasKey(rows, KeyOfCompetitor(RowOf(ctx, dup, PositionOrZero(dup))))
    ensures var r := SaveAll(BatchState(rows, domains, false, 0), ctx, [Some(novel), Some(dup)]);
      && r.rows == rows + [RowOf(ctx, novel, PositionOrZero(novel))]
      && r.domains == BumpDomain(BumpDomain(domains, novel.domain, ctx.date, PositionOrZero(novel)),
                                 dup.domain, ctx.date, PositionOrZero(dup))
  {
    var st0 := BatchState(rows, domains, false, 0);
    var st1 := SaveOne(st0, ctx, Some(novel));
    var row := RowOf(ctx, novel, PositionOrZero(novel));
    assert st1.rows == rows + [row] && st1.changed;
    var k := KeyOfCompetitor(RowOf(ctx, dup, PositionOrZero(dup)));
    var i :| 0 <= i < |rows| && KeyOfCompetitor(rows[i]) == k;
    assert st1.rows[i] == rows[i];
    assert !Inserts(st1, ctx, Some(dup));
    var st2 := SaveOne(st1, ctx, Some(dup));
    assert SaveAll(st1, ctx, [Some(dup)]) == SaveAll(st2, ctx, []);
    assert SaveAll(st0, ctx, [Some(novel), Some(dup)]) == SaveAll(st1, ctx, [Some(dup)]) by {
      assert [Some(novel), Some(dup)][1..] == [Some(dup)];
    }
  }

  // ------------------------------------------------------------ snapshots

  /**
   * save_snapshot_if_changed on one key: the row afterwards and the returned
   * change flag. No row: insert, changed. Stored digest equal to the new one:
   * only has_changes is cleared. Otherwise (different or missing digest):
   * content and digest replaced, has_changes set.
   */
  function SnapshotWrite(stored: Option<Snapshot>, top10: seq<CompetitorEntry>): (r: (Snapshot, bool))
    ensures r.0.hasChanges == r.1
    ensures r.1 ==> r.0 == Snapshot(top10, Some(Digest(top10)), true)
    ensures !r.1 ==> stored.Some? && r.0 == stored.value.(hasChanges := false)
    ensures r.1 <==> stored.None? || stored.value.previousHash != Some(Digest(top10))
  {
    match stored
    case None => (Snapshot(top10, Some(Digest(top10)), true), true)
    case Some(s) =>
      var changed := if s.previousHash.Some? then s.previousHash.value != Digest(top10) else true;
      if changed then (Snapshot(top10, Some(Digest(top10)), true), true)
      else (s.(hasChanges := false), false)
  }

  /**
   * The change law: the first write for a key reports a change, an immediate
   * repeat with the same list does not, and the same entries in another order
   * do (the content is order-sensitive).
   */
  lemma SnapshotChangeLaw(top10: seq<CompetitorEntry>, reordered: seq<CompetitorEntry>)
    requires reordered != top10
    ensures SnapshotWrite(None, top10).1
    ensures !SnapshotWrite(Some(SnapshotWrite(None, top10).0), top10).1
    ensures SnapshotWrite(Some(SnapshotWrite(Some(SnapshotWrite(None, top10).0), top10).0), reordered).1
  {
  }

  // ------------------------------------------------------------ sessions

  /** `m` is a session of the project started no earlier than any other session of it. */
  predicate IsLatest(sessions: map<int, Session>, projectId: int, m: int)
  {
    && m in sessions && sessions[m].projectId == projectId
    && forall id :: id in sessions && sessions[id].projectId == projectId ==>
         Key(sessions[id].startTime) <= Key(sessions[m].startTime)
  }

  /** A project with a session in `ids` has a latest one among them. */
  lemma {:induction false} LatestExists(sessions: map<int, Session>, projectId: int, ids: set<int>)
    requires ids <= sessions.Keys
    requires exists id :: id in ids && sessions[id].projectId == projectId
    ensures exists m ::
      && m in ids && sessions[m].projectId == projectId
      && forall id :: id in ids && sessions[id].projectId == projectId ==>
           Key(sessions[id].startTime) <= Key(sessions[m].startTime)
    ensures ids == sessions.Keys ==> exists m :: IsLatest(sessions, projectId, m)
    decreases ids
  {
    var a :| a in ids && sessions[a].projectId == projectId;
    var rest := ids - {a};
    if exists id :: id in rest && sessions[id].projectId == projectId {
      LatestExists(sessions, projectId, rest);
      var m :| m in rest && sessions[m].projectId == projectId &&
        forall id :: id in rest && sessions[id].projectId == projectId ==>
          Key(sessions[id].startTime) <= Key(sessions[m].startTime);
      var w := if Key(sessions[a].startTime) > Key(sessions[m].startTime) then a else m;
      assert forall id :: id in ids && sessions[id].projectId == projectId ==>
        Key(sessions[id].startTime) <= Key(sessions[w].startTime);
      if ids == sessions.Keys {
        assert IsLatest(sessions, projectId, w);
      }
    } else {
      assert forall id :: id in ids && sessions[id].projectId == projectId ==> id == a;
      if ids == sessions.Keys {
        assert IsLatest(sessions, projectId, a);
      }
    }
  }

  // ------------------------------------------------------------ the store

  class SEODatabase {
    var projects: map<int, Project>
    var keywords: map<int, Keyword>
    var sessions: map<int, Session>
    var positions: map<int, PositionRow>
    var competitors: seq<CompetitorRow>
    var domains: map<string, DomainRef>
    var snapshots: map<SnapshotKey, Snapshot>
    var nextProjectId: int
    var nextKeywordId: int
    var nextSessionId: int
    var nextPositionId: int

    ghost predicate Valid()
      reads this
    {
      && 1 <= nextProjectId && 1 <= nextKeywordId && 1 <= nextSessionId && 1 <= nextPositionId
      && IdsBelow(projects, nextProjectId) && IdsBelow(keywords, nextKeywordId)
      && IdsBelow(sessions, nextSessionId) && IdsBelow(positions, nextPositionId)
      && UniqueDomains(projects)
      && UniqueKeywords(keywords)
      && UniquePositionKeys(positions)
      && CompetitorConstraints(competitors)
    }

    /** A new, empty database file. */
    constructor ()
      ensures Valid()
      ensures projects == map[] && keywords == map[] && sessions == map[] && positions == map[]
      ensures competitors == [] && domains == map[] && snapshots == map[]
    {
      projects, keywords, sessions, positions := map[], map[], map[], map[];
      competitors, domains, snapshots := [], map[], map[];
      nextProjectId, nextKeywordId, nextSessionId, nextPositionId := 1, 1, 1, 1;
    }

    /** Opening an existing file: `_init_database` drops and recreates the competitors table. */
    method Reopen()
      requires Valid()
      modifies this`competitors
      ensures Valid() && competitors == []
    {
      competitors := [];
    }

    // -------------------------------------------------------- identity

    /**
     * get_or_create_project: the project keyed by `domain`, renamed to `name`,
     * or a new one. At most one project per domain, before and after.
     */
    method GetOrCreateProject(name: string, domain: string) returns (id: int)
      requires Valid()
      modifies this`projects, this`nextProjectId
      ensures Valid()
      ensures id in projects && projects[id] == Project(name, domain)
      ensures projects == old(projects)[id := Project(name, domain)]
      ensures id in old(projects) <==> exists j :: j in old(projects) && old(projects)[j].domain == domain
      ensures id in old(projects) ==> old(projects)[id].domain == domain
      ensures id in old(projects) ==> nextProjectId == old(nextProjectId)
      ensures id !in old(projects) ==> id == old(nextProjectId) && nextProjectId == old(nextProjectId) + 1
    {
      if exists j :: j in projects && projects[j].domain == domain {
        id :| id in projects && projects[id].domain == domain;
        projects := projects[id := Project(name, domain)];
      } else {
        id := nextProjectId;
        projects := projects[id := Project(name, domain)];
        nextProjectId := nextProjectId + 1;
      }
    }

    /**
     * get_or_create_keyword: the keyword keyed by (project, text), reactivated,
     * or a new active one.
     */
    method GetOrCreateKeyword(projectId: int, text: string) returns (id: int)
      requires Valid()
      modifies this`keywords, this`nextKeywordId
      ensures Valid()
      ensures keywords == old(keywords)[id := Keyword(projectId, text, true)]
      ensures id in old(keywords) ==> old(keywords)[id].projectId == projectId && old(keywords)[id].text == text
      ensures id in old(keywords) <==>
        exists j :: j in old(keywords) && old(keywords)[j].projectId == projectId && old(keywords)[j].text == text
      ensures id in old(keywords) ==> nextKeywordId == old(nextKeywordId)
      ensures id !in old(keywords) ==> id == old(nextKeywordId) && nextKeywordId == old(nextKeywordId) + 1
    {
      if exists j :: j in keywords && keywords[j].projectId == projectId && keywords[j].text == text {
        id :| id in keywords && keywords[id].projectId == projectId && keywords[id].text == text;
        keywords := keywords[id := Keyword(projectId, text, true)];
      } else {
        id := nextKeywordId;
        keywords := keywords[id := Keyword(projectId, text, true)];
        nextKeywordId := nextKeywordId + 1;
      }
    }

    // -------------------------------------------------------- sessions

    /** create_monitoring_session: a new session in state running, started `now`. */
    method CreateMonitoringSession(projectId: int, name: Option<string>, now: Clock) returns (id: int)
      requires Valid()
      modifies this`sessions, this`nextSessionId
      ensures Valid()
      ensures id == old(nextSessionId) && id !in old(sessions) && nextSessionId == id + 1
      ensures sessions == old(sessions)[id := Session(projectId, name, now, None, Running, None, None)]
    {
      id := nextSessionId;
      sessions := sessions[id := Session(projectId, name, now, None, Running, None, None)];
      nextSessionId := nextSessionId + 1;
    }

    /**
     * complete_monitoring_session: status completed and end time `now`; the
     * counts are written only when given. An unknown id changes nothing.
     */
    method CompleteMonitoringSession(id: int, total: Option<int>, completed: Option<int>, now: Clock)
      requires Valid()
      modifies this`sessions
      ensures Valid()
      ensures id !in old(sessions) ==> sessions == old(sessions)
      ensures id in old(sessions) ==> sessions == old(sessions)[id := old(sessions)[id].(
        endTime := Some(now), status := Completed,
        totalKeywords := if total.Some? then total else old(sessions)[id].totalKeywords,
        completedKeywords := if completed.Some? then completed else old(sessions)[id].completedKeywords)]
    {
      if id in sessions {
        var s := sessions[id];
        var t := if total.Some? then total else s.totalKeywords;
        var c := if completed.Some? then completed else s.completedKeywords;
        sessions := sessions[id := s.(endTime := Some(now), status := Completed, totalKeywords := t, completedKeywords := c)];
      }
    }

    /**
     * fail_monitoring_session: status failed and end time `now`; a non-empty
     * message renames the session to "FAILED: " and its first 100 characters.
     */
    method FailMonitoringSession(id: int, message: Option<string>, now: Clock)
      requires Valid()
      modifies this`sessions
      ensures Valid()
      ensures id !in old(sessions) ==> sessions == old(sessions)
      ensures id in old(sessions) ==> sessions == old(sessions)[id := old(sessions)[id].(
        endTime := Some(now), status := Failed,
        name := if message.Some? && message.value != "" then Some("FAILED: " + Take(message.value, 100))
                else old(sessions)[id].name)]
    {
      if id in sessions {
        var s := sessions[id];
        var name := if message.Some? && message.value != "" then Some("FAILED: " + Take(message.value, 100)) else s.name;
        sessions := sessions[id := s.(endTime := Some(now), status := Failed, name := name)];
      }
    }

    /**
     * get_latest_session: a session of the project with the greatest start
     * time (which of several equal ones is left to the database), or None
     * when the project has none.
     */
    method GetLatestSession(projectId: int) returns (r: Option<int>)
      ensures r.Some? ==> IsLatest(sessions, projectId, r.value)
      ensures r.None? ==> forall id :: id in sessions ==> sessions[id].projectId != projectId
    {
      if exists id :: id in sessions && sessions[id].projectId == projectId {
        LatestExists(sessions, projectId, sessions.Keys);
        var id :| IsLatest(sessions, projectId, id);
        r := Some(id);
      } else {
        r := None;
      }
    }

    // -------------------------------------------------------- observations

    /**
     * save_position: the upsert on (project, keyword, date, engine); returns
     * the id of the new or pre-existing row.
     */
    method SavePosition(projectId: int, keywordId: int, date: nat, time: TimeOfDay, position: Option<int>,
                        url: string, totalResults: int, searchEngine: string, sessionId: Option<int>) returns (id: int)
      requires Valid()
      modifies this`positions, this`nextPositionId
      ensures Valid()
      ensures (positions, id) == Upsert(old(positions), old(nextPositionId),
        PositionRow(projectId, keywordId, sessionId, date, time, position, url, totalResults, searchEngine))
      ensures nextPositionId == if id in old(positions) then old(nextPositionId) else old(nextPositionId) + 1
    {
      var row := PositionRow(projectId, keywordId, sessionId, date, time, position, url, totalResults, searchEngine);
      var key := KeyOfPosition(row);
      UpsertKeepsKeysUnique(positions, nextPositionId, row);
      if exists j :: j in positions && KeyOfPosition(positions[j]) == key {
        id :| id in positions && KeyOfPosition(positions[id]) == key;
        assert RowWithKey(positions, key) == Some(id);
        positions := positions[id := Overwrite(positions[id], row)];
      } else {
        id := nextPositionId;
        positions := positions[id := row];
        nextPositionId := nextPositionId + 1;
      }
    }

    /**
     * save_competitors: every entry of the list goes through the guard and an
     * INSERT OR IGNORE; the domain reference is bumped whenever this call's
     * connection has changed anything so far. An empty list is a no-op.
     */
    method SaveCompetitors(projectId: int, keywordId: int, date: nat, time: TimeOfDay,
                           entries: seq<Option<CompetitorEntry>>, sessionId: Option<int>) returns (saved: nat)
      requires Valid()
      modifies this`competitors, this`domains
      ensures Valid()
      ensures var r := SaveAll(BatchState(old(competitors), old(domains), false, 0),
                               SaveContext(projectId, keywordId, sessionId, date, time), entries);
        competitors == r.rows && domains == r.domains && saved == r.saved
    {
      saved := 0;
      if entries == [] {
        return;
      }
      var ctx := SaveContext(projectId, keywordId, sessionId, date, time);
      ghost var final := SaveAll(BatchState(competitors, domains, false, 0), ctx, entries);
      var changed := false;
      var i := 0;
      while i < |entries|
        invariant 0 <= i <= |entries|
        invariant SaveAll(BatchState(competitors, domains, changed, saved), ctx, entries[i..]) == final
      {
        assert entries[i..][1..] == entries[i + 1..];
        changed, saved := SaveEntry(ctx, entries[i], changed, saved);
        i := i + 1;
      }
    }

    /**
     * One iteration of save_competitors' loop: the guard, the INSERT OR
     * IGNORE, and the domain update when the connection has changed anything.
     */
    method SaveEntry(ctx: SaveContext, e: Option<CompetitorEntry>, changed: bool, saved: nat)
      returns (changedAfter: bool, savedAfter: nat)
      modifies this`competitors, this`domains
      ensures BatchState(competitors, domains, changedAfter, savedAfter)
        == SaveOne(BatchState(old(competitors), old(domains), changed, saved), ctx, e)
    {
      changedAfter, savedAfter := changed, saved;
      if e.Some? {
        var c := e.value;
        var pos := PositionOrZero(c);
        if c.domain != "" && pos != 0 {
          var row := RowOf(ctx, c, pos);
          var key := KeyOfCompetitor(row);
          var present := exists j :: 0 <= j < |competitors| && KeyOfCompetitor(competitors[j]) == key;
          if 1 <= pos <= 100 && !present {
            competitors := competitors + [row];
            changedAfter := true;
          }
          if changedAfter {
            UpdateDomainReference(c.domain, ctx.date, pos);
            savedAfter := savedAfter + 1;
          }
        }
      }
    }

    /** _update_domain_reference. */
    method UpdateDomainReference(domain: string, seen: nat, position: int)
      modifies this`domains
      ensures domains == BumpDomain(old(domains), domain, seen, position)
    {
      if domain == "" {
        return;
      }
      if domain in domains {
        var ref := domains[domain];
        var n := ref.totalAppearances;
        var avg := position as real;
        if ref.avgPosition.Some? {
          avg := (ref.avgPosition.value * n as real + position as real) / (n + 1) as real;
        }
        assert avg == NextMean(ref.avgPosition, n, position);
        domains := domains[domain := DomainRef(ref.firstSeen, seen, n + 1, Some(avg))];
      } else {
        domains := domains[domain := DomainRef(seen, seen, 1, Some(position as real))];
      }
    }

    /**
     * save_snapshot_if_changed. `raced` is a row a concurrent writer commits
     * between this call's SELECT and its INSERT: the INSERT then violates the
     * key and the fallback INSERT OR REPLACE overwrites that row, so the last
     * writer wins and the key still holds one row.
     */
    method SaveSnapshotIfChanged(projectId: int, keywordId: int, date: nat, top10: seq<CompetitorEntry>,
                                 raced: Option<Snapshot>) returns (changed: bool)
      requires Valid()
      modifies this`snapshots
      ensures Valid()
      ensures var key := SnapshotKey(projectId, keywordId, date);
        var stored := if key in old(snapshots) then Some(old(snapshots)[key]) else None;
        snapshots == old(snapshots)[key := SnapshotWrite(stored, top10).0]
        && changed == SnapshotWrite(stored, top10).1
    {
      var key := SnapshotKey(projectId, keywordId, date);
      if key in snapshots {
        var s := snapshots[key];
        var differs := if s.previousHash.Some? then s.previousHash.value != Digest(top10) else true;
        if differs {
          snapshots := snapshots[key := Snapshot(top10, Some(Digest(top10)), true)];
          changed := true;
        } else {
          snapshots := snapshots[key := s.(hasChanges := false)];
          changed := false;
        }
      } else if raced.Some? {
        snapshots := snapshots[key := raced.value];
        changed := ForceUpdateSnapshot(key, top10);
      } else {
        snapshots := snapshots[key := Snapshot(top10, Some(Digest(top10)), true)];
        changed := true;
      }
    }

    /** _force_update_snapshot: INSERT OR REPLACE of the row, reported as a change. */
    method ForceUpdateSnapshot(key: SnapshotKey, top10: seq<CompetitorEntry>) returns (changed: bool)
      requires Valid()
      modifies this`snapshots
      ensures Valid()
      ensures snapshots == old(snapshots)[key := Snapshot(top10, Some(Digest(top10)), true)] && changed
    {
      snapshots := snapshots[key := Snapshot(top10, Some(Digest(top10)), true)];
      changed := true;
    }
  }
}
