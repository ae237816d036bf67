# SEO agent: observation store, ingestion, threat detection and report shaping

This project models the core of the SEO monitoring agent and proves properties
of that model in Dafny. The agent tracks the search-engine positions of a
site's keywords. Its core has six parts:

- the SQLite store (`SEODatabase`): projects, keywords, monitoring sessions,
  our own positions, competitor rows, the domain reference and top-10
  snapshots;
- the ingestion loop (`DataCollector.check_positions` and its session
  wrapper);
- the rule-based threat detector (`ThreatDetector`);
- the post-fetch logic of the Yandex result parser (`RealPositionParser`);
- the data-shaping parts of the two HTML reporters: the competitor top-10
  table and the positions table.

One Dafny module per source file:

| module | file | source |
|---|---|---|
| `Common` | common.dfy | shared vocabulary: `Option`, check timestamps (`Clock`), the competitor entry, a stable sort with a key (Python's `sorted` / `list.sort`), `s[:n]`, `str.replace`, `str.strip`, `str.lower` |
| `Store` | store.dfy | core/database.py, class `SEODatabase` with one field per table |
| `Collector` | collector.dfy | core/data_collector.py, class `DataCollector` around a `SEODatabase` |
| `Threats` | threats.dfy | core/threat_detector.py: pure classifiers, plus loop methods proved equal to them |
| `Parser` | parser.dfy | core/real_position_parser.py: result numbering, domain matching, competitor choice, and class `RealPositionParser` holding the query cache |
| `CompetitorReport` | competitor_report.dfy | core/html_reporter_competitor.py, `_get_top10_data` and `_shorten_url` |
| `PositionsReport` | positions_report.dfy | core/html_reporter.py, `_get_positions_data` and the cell styling and top-1 count of `_create_html_report` |

How the model is built:

- Where the source changes state step by step, the model does too.
- The store and the collector are classes. Their methods have `modifies`
  frames naming the tables they touch. Their postconditions give each touched
  table as a function of the old one: `Upsert`, `SaveAll`, `BumpDomain` and
  `SnapshotWrite`. Lemmas about those functions state the store's laws.
- The loops of the analyses and the reports are methods. Each is proved equal
  to a specification function, and the properties are proved as lemmas about
  that function.
- SQL queries are modelled over the table rows, given as input sequences.
  `WHERE` is a filter and `ORDER BY` is a stable sort on the key.
- Timestamps are `Clock(date, time)`. The date is a day number; the time is
  microseconds since midnight. Their numeric order equals the string order of
  the stored `YYYY-MM-DD` and `HH:MM:SS[.ffffff]` texts (`Key`,
  `KeyOrdersClocks`).

## Model

| member | source | states |
|---|---|---|
| `Common.Key` | core/html_reporter.py:147 | The sort key of a check lies within its own day's range, so ordering by key orders by date first. |
| `Common.KeyOrdersClocks` | core/html_reporter.py:147 | `ORDER BY check_date, check_time` is ordering by `Key`: the key is smaller exactly when the (date, time) pair is lexicographically earlier, and equal exactly when the pairs are. |
| `Common.WholeSeconds` | core/html_reporter_competitor.py:183-184 | `time.split('.')[0]`: the time cut to whole seconds, never later than the time and less than a second earlier. |
| `Common.SortBy` | core/html_reporter_competitor.py:295 | `list.sort(key=...)` returns a permutation of its input (same multiset and length), ordered by the key. |
| `Common.SortByMembers` | core/html_reporter_competitor.py:295 | Sorting keeps exactly the elements it was given. |
| `Common.SortByStable` | core/html_reporter_competitor.py:295 | The sort is stable: elements with equal keys keep their input order. |
| `Common.Filter` | core/html_reporter_competitor.py:214-219 | A `WHERE` clause or a comprehension filter keeps exactly the rows that satisfy the test. When every row passes, the result is the input itself. |
| `Common.FilterAppend` | core/html_reporter_competitor.py:214-219 | The filter keeps the input order: filtering a concatenation concatenates the filtered parts. |
| `Common.FilterSnoc` | core/html_reporter_competitor.py:214-219 | Filtering a sequence with one more element at the end appends that element exactly when it passes the test. So the result is the passing elements in input order, each as often as it occurs. |
| `Common.FirstIndex` | core/real_position_parser.py:163-170 | A search loop with `break`: the index of the first element that passes the test, none before it passing; `None` when no element passes. |
| `Common.FirstIndexAt` | core/real_position_parser.py:163-170 | The first passing index is the one where the left-to-right search stops. |
| `Common.FirstIndexNone` | core/real_position_parser.py:163-170 | When no element passes, the search finds nothing. |
| `Common.NatText` | core/html_reporter_competitor.py:187 | `str(n)` of a natural number is its canonical decimal numeral: digits only, no leading zero unless it is "0", and it reads back as `n`. |
| `Common.NatTextOfDigits` | core/html_reporter_competitor.py:187 | `str(int(s)) == s` for every canonical numeral `s`: `str` and reading the digits are inverse. |
| `Common.IntText` | core/html_reporter_competitor.py:187 | `str(n)` of an integer starts with '-' exactly when `n` is negative. The rest is the canonical numeral of `|n|`. |
| `Common.Take` | core/database.py:422-423 | `s[:n]` has `min(|s|, n)` elements and is a prefix of `s`. |
| `Common.PySlice` | core/data_collector.py:215 | `s[:n]` for any integer `n`: a prefix; for `n >= 0` it is `Take`; a negative `n` drops `-n` elements from the end. |
| `Common.RemoveAll` | core/data_collector.py:380 | `s.replace(p, '')` returns `s` unchanged when `p` does not occur in it. Otherwise it removes at least one whole occurrence, so the result is at least `|p|` shorter. |
| `Common.RemoveAllPrefix` | core/data_collector.py:380 | `replace` removes an occurrence of `p` at the front. |
| `Common.RemoveAllCons` | core/data_collector.py:380 | A first character that cannot start an occurrence of `p` is kept by `replace`, in front of the rest's result. |
| `Common.RemoveAllPassThrough` | core/data_collector.py:380 | A leading part none of whose characters is `p`'s first one passes through `replace` unchanged. |
| `Common.Strip` | core/data_collector.py:380 | `s.strip(chars)` cuts a run of the characters off each end and keeps the middle of `s` untouched. The middle neither starts nor ends with one of the characters, so both runs are the longest. All of `s` goes when every character is one of them. |
| `Common.StripLeft` | core/data_collector.py:380 | `lstrip`: a suffix of the input. Every removed character is one of the characters; the first kept one is not. |
| `Common.StripRight` | core/data_collector.py:380 | `rstrip`: a prefix of the input. Every removed character is one of the characters; the last kept one is not. |
| `Common.StripLeftAppend` | core/data_collector.py:380 | `lstrip` of a concatenation: if the first part is all stripped characters, it is `lstrip` of the second part; otherwise it is `lstrip` of the first part followed by the second part unchanged. |
| `Common.StripIgnoresTrailing` | core/data_collector.py:380 | Appending one of the stripped characters does not change `strip`. |
| `Common.Lower` | core/real_position_parser.py:383 | `str.lower()` keeps the length and maps each character on its own. |
| `Store.RowWithKey` | core/database.py:351-356 | The `SELECT id ... WHERE project, keyword, date, engine` lookup: the id of a row with that natural key, or `None` when no row has it. |
| `Store.Overwrite` | core/database.py:359-366 | The `UPDATE` branch of `save_position`: the natural key is kept; position, url, total_results and check_time are replaced; `session_id = COALESCE(new, old)`. |
| `Store.UpsertKeepsKeysUnique` | core/database.py:351-382 | `save_position` keeps one row per (project, keyword, date, engine). The returned id is either the next fresh id or an existing row's, and its row has the saved key. No other id is added. |
| `Store.Upsert` | core/database.py:351-382 | `save_position` on the positions table. Nothing else changes: only the returned row is rewritten. It carries the saved project, keyword, day, time, position, url and total, plus the session when one is given. |
| `Store.UpsertTwiceSameKey` | core/database.py:351-382 | Saving twice under one key returns the same id and adds no id the first save did not. The second call's values win; the session changes only if the second call gives one. Every other row is as before the first save. |
| `Store.UpsertNeverErasesSession` | core/database.py:363 | COALESCE: an update with no session keeps the stored session; an update with a session replaces it. |
| `Store.SessionRowsCanDisagreeOnTime` | core/database.py:359-366 | A later session-less save on the same day moves `check_time` but keeps the session. Two rows of one session can then disagree on their check time. |
| `Store.BumpDomain` | core/database.py:440-474 | `_update_domain_reference`: an empty domain is a no-op. A new domain gets `(first_seen = last_seen = date, total 1, avg = position)`. A known domain gets `total + 1`, `last_seen = date`, and keeps `first_seen`. Other domains are unchanged. |
| `Store.Positions` | core/database.py:458-461 | The positions of a sequence of appearances, one per appearance. |
| `Store.RunningMeanIsMean` | core/database.py:458-461 | After N appearances of a new domain, the reference row counts N and its `avg_position` is the arithmetic mean of the N positions. `first_seen` is the first day and `last_seen` the last. |
| `Store.MeanStep` | core/database.py:461 | `(avg * n + position) / (n + 1)` turns the mean of n values into the mean of n + 1. |
| `Store.SaveAll` | core/database.py:403-436 | The `save_competitors` loop only appends rows, each with the call's project, keyword, session, date and time. It keeps the UNIQUE and CHECK constraints. A fresh connection that inserts nothing bumps no statistics. |
| `Store.SaveOne` | core/database.py:403-433 | One pass of the `save_competitors` loop. The entry's row is appended exactly when INSERT OR IGNORE inserts it (guard passed, CHECK 1..100 met, key new). A valid entry's key is stored afterwards either way. The connection counts as changed once anything was inserted, and until then the domain reference and the count are untouched. |
| `Store.SaveAllStoresEveryValidKey` | core/database.py:403-427 | Every entry that passes the guard (not None, non-empty domain, non-zero position) and the CHECK (1..100) has its six-column key stored after the batch. |
| `Store.SaveAllOfStoredKeysIsNoOp` | core/database.py:414-433 | On a new connection, a batch whose valid keys are all stored already changes neither the rows nor the domain reference. |
| `Store.SaveCompetitorsIdempotent` | core/database.py:384-436 | Re-running the same batch at the same instant stores no row and bumps no statistics. |
| `Store.DuplicateAfterInsertIsCounted` | core/database.py:430-432 | The cumulative `total_changes > 0` test: after one real insert, an ignored duplicate in the same call still bumps its domain's statistics. |
| `Store.SnapshotWrite` | core/database.py:496-531 | `save_snapshot_if_changed` on one key. No row: insert and report a change. A stored digest equal to the new one: only clear `has_changes`, report no change. A different or null digest: replace content and digest, set `has_changes`, report a change. The flag equals `has_changes`. |
| `Store.SnapshotChangeLaw` | core/database.py:484-531 | The first write reports a change. An immediate repeat with the same list does not. The same entries in another order do, because the content is order-sensitive. |
| `Store.LatestExists` | core/database.py:273-290 | A project with sessions has a session whose start time no other session of the project exceeds. |
| `Store.SEODatabase.constructor` | core/database.py:36-80 | A new store: every table empty, invariants established. |
| `Store.SEODatabase.Reopen` | core/database.py:53 | Opening an existing file drops and recreates the competitors table (it becomes empty); the other tables are kept. |
| `Store.SEODatabase.GetOrCreateProject` | core/database.py:118-152 | The project keyed by `domain` gets the latest name, or a new project is created. The id is pre-existing exactly when a project with that domain existed. At most one project per domain is kept. |
| `Store.SEODatabase.GetOrCreateKeyword` | core/database.py:154-185 | The keyword keyed by (project, text) is reactivated, or a new active keyword is created. A fresh id is used exactly when no such keyword existed, and an existing id returned is one with that project and text. |
| `Store.SEODatabase.CreateMonitoringSession` | core/database.py:189-210 | A new session under a fresh id: state running, started now, no end time and no counts. |
| `Store.SEODatabase.CompleteMonitoringSession` | core/database.py:212-244 | State completed with end time now. Each count is written only when given. An unknown id changes nothing. |
| `Store.SEODatabase.FailMonitoringSession` | core/database.py:246-271 | State failed with end time now. A non-empty message renames the session to "FAILED: " plus the first 100 characters. An unknown id changes nothing. |
| `Store.SEODatabase.GetLatestSession` | core/database.py:273-293 | A session of the project with the greatest start time, or `None` exactly when the project has no session. |
| `Store.SEODatabase.SavePosition` | core/database.py:326-382 | The positions table becomes `Upsert` of the old one, and the returned id is the new or pre-existing row's. The invariants, including one row per natural key, hold. |
| `Store.SEODatabase.SaveCompetitors` | core/database.py:384-438 | The competitor rows, the domain reference and the logged count become those of `SaveAll` over the entries. An empty list is a no-op. |
| `Store.SEODatabase.SaveEntry` | core/database.py:404-436 | One iteration: the guard, INSERT OR IGNORE subject to UNIQUE and CHECK, and the domain bump while the connection has any change. |
| `Store.SEODatabase.UpdateDomainReference` | core/database.py:440-474 | The domain reference becomes `BumpDomain` of the old one. |
| `Store.SEODatabase.SaveSnapshotIfChanged` | core/database.py:476-537 | The snapshot row and the flag are `SnapshotWrite` of the row the SELECT read. This holds even when a concurrent writer commits a row (`raced`) between the SELECT and the INSERT: the fallback INSERT OR REPLACE overwrites it, so the key still holds one row. |
| `Store.SEODatabase.ForceUpdateSnapshot` | core/database.py:539-551 | INSERT OR REPLACE of the row, reported as a change. |
| `Collector.CleanDomain` | core/data_collector.py:380-381 | The comparison form of a domain, with every `http://` and `https://` removed, neither starts nor ends with '/'. For a domain without ':' (so without a scheme) it is the domain with '/' stripped at both ends. |
| `Collector.FindProject` | core/data_collector.py:375-385 | `_find_project_by_domain` gives the first configured project whose cleaned domain equals the cleaned argument, or `None` exactly when none does. |
| `Collector.HttpRemovalKeepsHttps` | core/data_collector.py:380 | Removing "http://" passes over a leading "https://". |
| `Collector.CleanDomainIgnoresScheme` | core/data_collector.py:380-383 | Domains compare equal with or without an `http://` or `https://` prefix. |
| `Collector.CleanDomainIgnoresLeadingSlash` | core/data_collector.py:380-383 | Domains compare equal with or without a leading '/'. |
| `Collector.CleanDomainIgnoresTrailingSlash` | core/data_collector.py:380-383 | For a domain without ':', a trailing '/' does not change the comparison. |
| `Collector.CleanDomainTrailingSlashCounts` | core/data_collector.py:380-381 | In general a trailing '/' does matter. After a host `h` such as "a.", `h + "http:/"` cleans to `h + "http:"`, but `h + "http://"` cleans to `h`: the '/' completes a scheme, which is then removed. |
| `Collector.CompetitorsFor` | core/data_collector.py:211-224 | A keyword saves competitors only from a fresh search that returned some while tracking. The list is cut to `competitors_limit`. |
| `Collector.AsEntries` | core/data_collector.py:224-231 | The competitor list handed to the store, entry for entry. |
| `Collector.Collected` | core/data_collector.py:211-231 | The collected competitors are non-empty only when tracking and some keyword reached the store. |
| `Collector.LastReached` | core/data_collector.py:166-196 | The last keyword that reached the store: it came from the cache or its search returned, and no later keyword did. |
| `Collector.TopTen` | core/data_collector.py:273 | The snapshot list has `min(10, n)` entries. |
| `Collector.TopTenIsTop` | core/data_collector.py:273 | The snapshot list is sorted by position (missing = 101) and drawn from the collected entries. No entry left out ranks better than one kept. |
| `Collector.RankOf` | core/data_collector.py:273 | The sort key `x.get('position', 101)`: the entry's position, 101 when it has none. It has no contract of its own; its ordering is stated by `Collector.TopTenIsTop`. |
| `Collector.ResolveSession` | core/data_collector.py:128-133 | The given session is kept only when it exists and belongs to the project; otherwise the call runs without a session. |
| `Collector.UpsertStamped` | core/data_collector.py:196-206 | A position saved with the call's stamp leaves only stamped changes in the positions table. |
| `Collector.BatchStamped` | core/data_collector.py:221-230 | A competitor batch saved with the call's stamp adds only stamped rows. |
| `Collector.SnapshotStoredUnder` | core/data_collector.py:271-282 | With competitors collected, the snapshot of their top 10 is stored under the last keyword that reached the store and the last check's date. |
| `Collector.NothingCollected` | core/data_collector.py:271-272 | With nothing collected, no snapshot is written. |
| `Collector.CheckedProjectIntro` | core/data_collector.py:117-284 | What `check_positions` does for a found project, put together: the ownership check of the session, the results, the stamps, every keyword's saved position and competitors (`Collector.Saved`), no position row lost, and the snapshot. |
| `Collector.ProgressStep` | core/data_collector.py:151-266 | One more keyword checked extends the loop's progress by one result, its competitors and its keyword id. Every earlier keyword's saves survive and the new keyword's position and competitors are in the store (`Collector.Saved` one step further). |
| `Collector.SavedStep` | core/data_collector.py:196-230 | After one more keyword, every earlier keyword's position row is still under its key and still holds its reading unless this keyword has the same text and day; its competitor keys are still there; this keyword's row and competitor keys are added; no position row disappears. |
| `Collector.SavedStepAt` | core/data_collector.py:151-230 | Per earlier or current keyword: after keyword `i`'s writes (`Collector.KeywordWrites`, the writes `CheckKeyword` promises), the current keyword's reading is stored as the latest of its day, and an earlier one is still stored, still the latest unless keyword `i` shares its text and day. |
| `Collector.ReadingSaved` | core/data_collector.py:196-230 | The keyword just saved has an active keyword row, a position row under (project, keyword, stamp's day, engine) holding its position, url, total and time, and every valid competitor's six-column key. |
| `Collector.ReadingSurvives` | core/data_collector.py:196-230 | Saving another keyword keeps an earlier reading: its keyword row, its position row's key, and its competitor keys. The row's values stay unless the new save is for the same keyword and day. |
| `Collector.EntriesStoredGrow` | core/database.py:384-438 | Competitor rows are only appended, so keys stored once stay stored. |
| `Store.UpsertKeepsOtherRows` | core/database.py:351-382 | A position row stays under its key after another save, and keeps its values unless the save had the same (project, keyword, date, engine). |
| `Collector.Successes` | core/data_collector.py:340 | The number of results with a position is at most the number of results. |
| `Collector.FailuresAreNotSuccesses` | core/data_collector.py:255-266 | Error entries carry no position, so they never count as successes. |
| `Collector.SessionProject` | core/data_collector.py:317-338 | Inside the wrapper, the check runs for the project the session was opened for. The session is kept, and its start stamps every write and every saved reading. |
| `Collector.SessionRunIntro` | core/data_collector.py:286-355 | What `check_positions_with_session` does, put together: open, check (every keyword's position and competitors saved under the session's start), then complete with the counts, or fail with the message. |
| `Collector.SessionRun` | core/data_collector.py:316-355 | Specification of `check_positions_with_session` once the project is found. A new session with the next id is opened for the domain's project, and the check's writes carry its start. Every keyword's position and competitors are saved stamped with the session's start, as `Collector.Saved` says, and no position row is lost. On success the session is completed with the counts and the results are returned. On a fault it is marked failed ("FAILED: " + the first 100 characters of the message) and `[]` is returned. It has no contract of its own; `Collector.DataCollector.CheckPositionsWithSession` promises it. |
| `Collector.DataCollector.constructor` | core/data_collector.py:60-78 | The configuration list and a new, empty store. |
| `Collector.DataCollector.CheckPositions` | core/data_collector.py:90-284 | An unknown domain gives no results and no writes. Otherwise there is one result per keyword, in order. A session the project does not own is dropped. Every keyword that reached the store has its position row under (project, keyword, day, engine), holding its reading unless a later keyword of the same text and day overwrote it, and the keys of its valid competitors. Both are stamped with the session's start when there is a session and with the keyword's own clock reading otherwise. No position row is lost. One snapshot is written exactly when competitors were tracked and collected. |
| `Collector.DataCollector.CheckPositionsWithSession` | core/data_collector.py:286-355 | An unknown domain gives `([], -1)` and no writes. Otherwise a session is opened and every keyword's position and competitors are saved stamped with its start, fault or not. On success it is completed with total = number of keywords and completed = number of results with a position. On a fault it is marked failed and `[]` is returned. |
| `Collector.DataCollector.OpenSession` | core/data_collector.py:316-324 | The project row is kept or created for the domain, named by the configuration, and a running session is opened for it with the next id. Only those two tables change. |
| `Collector.DataCollector.OpenAndRun` | core/data_collector.py:316-355 | The session part of the wrapper once the project entry is found: `Collector.SessionRun` holds, so every keyword's position and competitors are saved under the new session's start. |
| `Collector.DataCollector.RunSession` | core/data_collector.py:326-355 | The try/except around the check: every keyword's reading saved under the session's start, then completion with counts, or failure with an empty result list. |
| `Collector.DataCollector.CheckProject` | core/data_collector.py:123-284 | `check_positions` after the configuration lookup: project row, session resolution, keyword loop with every reading saved as `Collector.Saved` says, snapshot. |
| `Collector.DataCollector.CheckKeywords` | core/data_collector.py:147-282 | The keyword loop followed by the snapshot. Results match the keywords, writes are stamped, every keyword's position and competitors are in the store (`Collector.Saved`), no position row is lost, and the snapshot is as `SnapshotStored` says. |
| `Collector.DataCollector.CheckEach` | core/data_collector.py:147-266 | The keyword loop: results in order, the collected competitors, the id of the last keyword that reached the store, and every keyword's position and competitors saved with its stamp (`Collector.Saved`). |
| `Collector.DataCollector.CheckKeyword` | core/data_collector.py:151-266 | One keyword. A raising search writes nothing and yields an error entry. A cached result saves only the position. A fresh result saves the position and, when tracking, the competitors cut to the limit. |
| `Collector.DataCollector.SaveReading` | core/data_collector.py:196-230 | The writes for one keyword: keyword row reactivated or created, position upserted, competitors saved, all with one stamp. |
| `Threats.Keywords` | core/threat_detector.py:118-123 | The `defaultdict` keys: distinct keywords in order of first appearance. |
| `Threats.Group` | core/threat_detector.py:118-123 | A keyword's group of records, in history order. |
| `Threats.KeywordsComplete` | core/threat_detector.py:118-123 | A keyword is listed exactly when some record carries it, exactly when its group is non-empty. |
| `Threats.KeywordsDistinct` | core/threat_detector.py:118-123 | No keyword is listed twice. |
| `Threats.GroupMembers` | core/threat_detector.py:118-123 | A group holds exactly the history's records of its keyword. |
| `Threats.Chronological` | core/threat_detector.py:128-131 | `sorted(records, key=(check_date, check_time))` is a permutation ordered by time. |
| `Threats.GatherMembers` | core/threat_detector.py:126-180 | The per-keyword loop emits exactly the values it computes for the listed keywords. |
| `Threats.GatherKeyed` | core/threat_detector.py:126-180 | When each emitted value names its keyword, membership reduces to one lookup. |
| `Threats.DropThreat` | core/threat_detector.py:133-176 | A drop names its keyword, has change = current − previous ≥ 3, and is critical exactly when the change is ≥ 10. |
| `Threats.DropThreatFires` | core/threat_detector.py:133-166 | A drop is reported exactly when there are ≥ 2 records, the last two positions are both known, and the site lost 3 or more places. It reports those two positions. |
| `Threats.PositionDrops` | core/threat_detector.py:97-185 | Specification of `analyze_position_changes`: the drops of the history's keywords, in order of first appearance. It has no contract of its own; `Threats.PositionDropsComplete` states it. |
| `Threats.PositionDropsComplete` | core/threat_detector.py:97-185 | `analyze_position_changes` reports exactly one drop per keyword that shows one: every reported threat is the drop of a keyword of the history, and every keyword's drop is reported. |
| `Threats.SingleCheckNoDrop` | core/threat_detector.py:133 | A keyword with fewer than `min_check_frequency` (2) records never yields a drop. |
| `Threats.DisplacementThreat` | core/threat_detector.py:216-255 | A displacement has oldest ≤ 20 < latest, positions_lost = latest − oldest ≥ 1, and is critical exactly when latest > 50. |
| `Threats.DisplacementFires` | core/threat_detector.py:216-249 | A displacement is reported exactly when there are ≥ 2 records, the oldest and newest positions are known, and the oldest is in the top 20 while the newest is not. |
| `Threats.Displacements` | core/threat_detector.py:187-262 | Specification of `detect_displacements`: nothing for fewer than 2 rows, else the displacements of the history's keywords in order. It has no contract of its own; `Threats.DisplacementsComplete` states it. |
| `Threats.DisplacementsComplete` | core/threat_detector.py:187-262 | `detect_displacements` gives nothing for a history shorter than 2, else exactly one threat per displaced keyword. |
| `Threats.ShortHistoryGuardRedundant` | core/threat_detector.py:203-217 | The whole-history guard only repeats the per-keyword one: a history of fewer than 2 rows has no keyword with 2 checks. |
| `Threats.Classify` | core/threat_detector.py:308-315 | Strictly falling positions are improving; strictly rising ones are declining. |
| `Threats.Known` | core/threat_detector.py:305 | The known positions, at most as many as the records. When none is missing, they are the records' positions in order. |
| `Threats.TrendOf` | core/threat_detector.py:297-323 | A trend is taken only for a keyword with ≥ 3 records. |
| `Threats.KnownThree` | core/threat_detector.py:305-307 | Three records give three known positions exactly when all three are known, and then in order. |
| `Threats.TrendOfReadsLastThree` | core/threat_detector.py:297-323 | A trend is taken exactly when the last three positions are known. It reports current = the last and change = last − first; improving/declining iff strictly falling/rising. |
| `Threats.Count` | core/threat_detector.py:326-327 | A movement's count is at most the number of trends. |
| `Threats.CountsPartition` | core/threat_detector.py:326-328 | Improving + declining + fluctuating = total, so `stable = total − improving − declining` is never negative. |
| `Threats.Summarise` | core/threat_detector.py:326-349 | Metrics exist exactly when there are trends. Then total is the number of trends and improving + declining + stable = total. |
| `Threats.SummariseVerdicts` | core/threat_detector.py:330-341 | critical iff 2·declining > total. Warning iff not that and 10·declining > 3·total. Good iff neither and 2·improving > total. Stable otherwise. The trend agrees with the status. |
| `Threats.KeywordsOf` | core/threat_detector.py:379 | `[t['keyword'] for t in ...]`, element for element. |
| `Threats.CriticalLine` | core/threat_detector.py:378-382 | One critical-drop line exactly when some drop is critical. |
| `Threats.WarningLine` | core/threat_detector.py:384-388 | One warning line exactly when some drop is a warning. |
| `Threats.DisplacementLine` | core/threat_detector.py:391-397 | One displacement line exactly when some threat dropped out of the top 20. |
| `Threats.SpecificAdvice` | core/threat_detector.py:370-397 | At most three specific lines, each a critical, warning or displacement line. |
| `Threats.Recommendations` | core/threat_detector.py:357-413 | `generate_recommendations` never returns an empty list, and returns at most three lines. |
| `Threats.RecommendationsNoThreats` | core/threat_detector.py:406-411 | "Continue monitoring" appears exactly when there are no threats, and is then the only line. |
| `Threats.RecommendationsGeneric` | core/threat_detector.py:400-404 | The generic line alone is given exactly when there are threats but no critical drop, warning drop or top-20 displacement. |
| `Threats.RecommendationsCriticalFirst` | core/threat_detector.py:378-382 | With a critical drop, the first line names the keywords of the first three critical drops, in order. |
| `Threats.GroupedStep` | core/threat_detector.py:121-123 | `keyword_data[k].append(record)` keeps the grouping up to date. |
| `Threats.GroupByKeyword` | core/threat_detector.py:118-123 | The grouping loop yields the keywords in order of first appearance, each with exactly its records. |
| `Threats.AnalyzePositionChanges` | core/threat_detector.py:97-185 | The analysis loop returns exactly `PositionDrops` of the history. |
| `Threats.DetectDisplacements` | core/threat_detector.py:187-262 | The displacement loop returns exactly `Displacements` of the history. |
| `Threats.Assess` | core/threat_detector.py:264-355 | `assess_overall_situation`: the default assessment for fewer than 3 rows, else the verdict over the keyword trends. It has no contract of its own; `Threats.AssessMetrics` and `Threats.SummariseVerdicts` state its properties. |
| `Threats.AssessMetrics` | core/threat_detector.py:264-355 | Metrics exist exactly when there are at least 3 rows and some keyword has 3 checks, and then the total is the number of such keywords. Without metrics the verdict is the stable default. |
| `Threats.AssessOverallSituation` | core/threat_detector.py:264-355 | The assessment loop returns exactly `Assess`: the default assessment for fewer than 3 rows, else `Summarise` of the keyword trends. |
| `Threats.DropsBeforeDisplacements` | core/threat_detector.py:66-74 | In the project analysis, drops come first: once a displacement appears, only displacements follow. |
| `Threats.AnalyzeProject` | core/threat_detector.py:41-95 | The analysis lists the week's drops, then the month's displacements, and carries the assessment. Recommendations are present exactly when there are threats, and are then `Recommendations` of them. |
| `Parser.HostPart` | core/real_position_parser.py:341-344 | The host is a prefix of the text without '/', '?' or '#'. |
| `Parser.ExtractResult` | core/real_position_parser.py:312-366 | A group gives a result exactly when it has a `doc`. The result carries the given position, the doc's url, title and snippet, and its domain when present. |
| `Parser.Numbered` | core/real_position_parser.py:296-303 | Results are numbered by group from 1. Positions are within 1..number of groups and strictly increase. Groups without `doc` use up a number. |
| `Parser.NumberedSound` | core/real_position_parser.py:296-303 | Each result is what its own group yields at its number. |
| `Parser.NumberedComplete` | core/real_position_parser.py:296-303 | Every group with a `doc` yields a result at its number. |
| `Parser.Reached` | core/real_position_parser.py:296-298 | The loop reaches `min(limit, number of groups)` groups, a prefix (none for `limit ≤ 0`). |
| `Parser.SearchResults` | core/real_position_parser.py:270-310 | `_parse_all_search_results`: the results' positions strictly increase and stay within 1..limit. |
| `Parser.ParseAllSearchResults` | core/real_position_parser.py:270-310 | The parsing loop returns exactly `SearchResults`. |
| `Parser.CleanHost` | core/real_position_parser.py:383-384 | The comparison form: lower case, every "www." removed, then the whitespace `str.strip()` removes (every character for which `str.isspace()` holds) stripped. It has no contract of its own; see `Parser.CleanHostIgnoresLeadingSpace`. |
| `Parser.DomainsMatch` | core/real_position_parser.py:368-395 | `_domains_match`: false for an empty argument, else true exactly when the cleaned forms are equal or one contains the other. It has no contract of its own; its properties are the lemmas below. |
| `Parser.DomainsMatchSymmetric` | core/real_position_parser.py:368-395 | `_domains_match` is symmetric. |
| `Parser.DomainsMatchReflexive` | core/real_position_parser.py:379-395 | A domain matches itself exactly when it is non-empty, so an empty argument never matches. |
| `Parser.DomainsMatchIgnoresWww` | core/real_position_parser.py:383-384 | "www." does not matter. |
| `Parser.CleanHostIgnoresLeadingSpace` | core/real_position_parser.py:383-384 | Leading whitespace of any kind `str.strip()` removes, a no-break space included, does not change the comparison form. |
| `Parser.DomainsMatchAcrossSpace` | core/real_position_parser.py:379-395 | For every whitespace character `str.strip()` removes (U+00A0 among them) and every letter c, the hosts "<space>c" and "c<space>" both clean to "c" and so match. |
| `Parser.ContainedHostMatches` | core/real_position_parser.py:386-393 | Substring containment of the cleaned forms is enough to match. |
| `Parser.OurIndex` | core/real_position_parser.py:163-170 | Our result is the first one whose domain matches; `None` exactly when none matches. |
| `Parser.FindOurResult` | core/real_position_parser.py:163-170 | The search loop with `break` finds exactly `FirstIndex`. |
| `Parser.Candidates` | core/real_position_parser.py:175-190 | The kept competitor entries are at most as many as the results looked at. |
| `Parser.CandidatesFrom` | core/real_position_parser.py:175-190 | Each candidate is the entry of a result that was not skipped. |
| `Parser.SelectCompetitors` | core/real_position_parser.py:173-193 | The competitor list has at most `competitors_limit` entries. |
| `Parser.SelectCompetitorsFrom` | core/real_position_parser.py:173-193 | Each competitor is among the first `limit + 10` results and, once we were found, not ours. |
| `Parser.CandidatesPrefix` | core/real_position_parser.py:175-193 | The candidates of a prefix are a prefix of the candidates, so stopping early keeps the first ones. |
| `Parser.CollectCompetitors` | core/real_position_parser.py:173-193 | The competitor loop with its `break` returns the first `limit` candidates among the first `limit + 10` results. |
| `Parser.FreshResult` | core/real_position_parser.py:195-214 | A fresh result carries the query's domain, keyword and region. total_results = number of parsed results, `cache_used` false, no error. The competitor lists are present exactly when asked for. |
| `Parser.FreshResultFound` | core/real_position_parser.py:163-210 | `found` iff our domain is among the results iff position ≤ 100. Not found gives position 101 and empty url and title. `top_competitors` is the first 10 competitors. |
| `Parser.Lookup` | core/real_position_parser.py:152-214 | The uncached lookup returns exactly `FreshResult` of the parsed answer. |
| `Parser.ErrorResult` | core/real_position_parser.py:397-410 | `_create_error_result`: position None, not found, total_results 0, and the error message. |
| `Parser.CacheKeyTextCollides` | core/real_position_parser.py:146-151 | As written, the text cache key is ambiguous. ("a_b", "c") and ("a", "b_c") give the same key, and the cache then answers the second query with a result for another keyword. |
| `Parser.RealPositionParser.constructor` | core/real_position_parser.py:22-50 | An empty cache. |
| `Parser.RealPositionParser.GetYandexPosition` | core/real_position_parser.py:124-221 | A cached query returns the cached result with `cache_used` true and leaves the cache alone. Otherwise it returns the fresh result and caches it. Every result answers the query asked, because the cache is keyed by the query itself. |
| `Parser.RealPositionParser.LookupOne` | core/real_position_parser.py:247-266 | One pass of the batch loop: `get_yandex_position`, or the error result when it raises. Only an answered miss changes the cache, by storing the fresh result under the query. |
| `Parser.RealPositionParser.BatchGetPositions` | core/real_position_parser.py:223-268 | One result per keyword, in order. Each is what `get_yandex_position` returns with the cache the earlier lookups left, or the error result when the lookup raised (`BatchResults`). The final cache is `CacheAfter` of the old one. Every answered result answers its keyword's query. |
| `Parser.BatchResults` | core/real_position_parser.py:246-266 | Specification of the batch: one result per query, each the lookup's answer with the cache the earlier lookups left (`CacheAfter`). |
| `Parser.BatchResultsAt` | core/real_position_parser.py:246-266 | Lookup `i` of a batch is answered with the cache that lookups `0..i-1` left. |
| `Parser.CacheAfterKeepsOld` | core/real_position_parser.py:143-150 | A query cached before the batch keeps its cached result through the batch. |
| `Parser.CacheAfterOnlyAnswered` | core/real_position_parser.py:210-221 | A query that was not cached and that no lookup answered is still not cached after the batch. |
| `Parser.CacheAfterFirstAnswer` | core/real_position_parser.py:143-221 | A new query is cached with the fresh result of its first answered lookup. Later lookups of the same query hit the cache and do not replace it. |
| `Parser.CacheAfterAnswers` | core/real_position_parser.py:143-221 | The lookups of a batch keep every cache entry answering the query it is stored under. |
| `Parser.BatchResultAnswers` | core/real_position_parser.py:223-268 | With such a cache, every answered lookup's result answers its keyword's query. |
| `CompetitorReport.ShortenUrl` | core/html_reporter_competitor.py:360-386 | `_shorten_url`: "" for an empty URL; host then path, a path over 30 characters cut to 27 plus "..."; the first 40 characters plus "..." when the URL does not parse. It has no contract of its own; `CompetitorReport.ShortenUrlShape` states its shape. |
| `CompetitorReport.ShortenUrlShape` | core/html_reporter_competitor.py:370-386 | Empty gives "". Otherwise the host comes first, and a path longer than 30 is cut to 27 characters plus "...". A URL that does not parse keeps its first 40 characters, with "..." when longer. |
| `CompetitorReport.JoinedIds` | core/html_reporter_competitor.py:123-153 | The joined session ids are sessions that exist, each listed once. |
| `CompetitorReport.JoinedIdsExact` | core/html_reporter_competitor.py:123-153 | A session id is listed exactly when some position row of a project keyword joins it (and matches the asked session). |
| `CompetitorReport.RowsOf` | core/html_reporter_competitor.py:125-131 | One query row per id, carrying the session's stored name and start. |
| `CompetitorReport.SessionQueryRows` | core/html_reporter_competitor.py:123-158 | The session query lists exactly the sessions a position of a project keyword refers to, with their stored name and start. |
| `CompetitorReport.SessionQueryDistinct` | core/html_reporter_competitor.py:125 | `SELECT DISTINCT`: each session once. |
| `CompetitorReport.SessionQueryNewestFirst` | core/html_reporter_competitor.py:138 | `ORDER BY s.start_time DESC`: newest start first. |
| `CompetitorReport.RowsOfExact` | core/html_reporter_competitor.py:125-131 | Distinct ids give distinct rows, exactly the sessions' rows. |
| `CompetitorReport.ColumnKeyCases` | core/html_reporter_competitor.py:182-190 | The key is "Сессия N" exactly for a non-zero id, else the start's date and time without fractional seconds. |
| `CompetitorReport.ColumnKeysDistinct` | core/html_reporter_competitor.py:186-190 | Sessions with different ids get different keys. |
| `CompetitorReport.ListSessions` | core/html_reporter_competitor.py:174-199 | The session-list loop: one entry per query row, in order. |
| `CompetitorReport.Positions` | core/html_reporter_competitor.py:273 | `[c['position'] for c in cell]`, entry for entry. |
| `CompetitorReport.Append` | core/html_reporter_competitor.py:249-263 | Appending creates the keyword's dict and the cell's list where missing. It adds the entry to that cell only; every other cell is unchanged. |
| `CompetitorReport.CompetitorsOf` | core/html_reporter_competitor.py:205-219 | The competitors query keeps exactly the rows of project keywords in the session whose position is known and ≤ 10; a NULL position never passes `position <= 10`. |
| `CompetitorReport.OursOf` | core/html_reporter_competitor.py:225-236 | Our positions query keeps exactly the rows of project keywords in the session with position ≤ 10. |
| `CompetitorReport.AddCompetitorsCell` | core/html_reporter_competitor.py:241-263 | The competitor loop appends each keyword's entries to its cell of the session, in query order, and touches no other cell. |
| `CompetitorReport.AddCompetitorsLast` | core/html_reporter_competitor.py:241-263 | One more competitor row is one more `Append`. |
| `CompetitorReport.AddCompetitorsPrefix` | core/html_reporter_competitor.py:241-263 | The loop step over a prefix of the rows. |
| `CompetitorReport.AddOursPrefix` | core/html_reporter_competitor.py:266-287 | Our row is appended only when its position is not already in the cell. |
| `CompetitorReport.AddOursLast` | core/html_reporter_competitor.py:266-287 | One more row of ours: skipped when its position is taken, else appended. |
| `CompetitorReport.AddOursCell` | core/html_reporter_competitor.py:266-287 | Our-position loop admits each keyword's entries into its cell of the session and touches no other cell. |
| `CompetitorReport.AdmitKeeps` | core/html_reporter_competitor.py:275-287 | Adding our site never moves or drops what the cell held, and adds at most one entry per row. |
| `CompetitorReport.AdmitFrom` | core/html_reporter_competitor.py:275-287 | What is added comes from our rows. |
| `CompetitorReport.AdmitFree` | core/html_reporter_competitor.py:275-287 | Our site never takes a position an earlier entry of the cell holds. |
| `CompetitorReport.AdmitCovers` | core/html_reporter_competitor.py:275-287 | Each of our positions is held afterwards, by our entry or by the competitor that was there first. |
| `CompetitorReport.AddSessionCell` | core/html_reporter_competitor.py:201-287 | A session fills its own (empty) cell of a keyword with its competitors, then our admitted entries. |
| `CompetitorReport.AddSessionOther` | core/html_reporter_competitor.py:201-287 | A session touches no cell of another session key. |
| `CompetitorReport.FillOther` | core/html_reporter_competitor.py:201-287 | A session key that no session has has no cell. |
| `CompetitorReport.FillCell` | core/html_reporter_competitor.py:201-287 | With distinct session keys, every cell is exactly its session's competitors followed by our admitted entries. |
| `CompetitorReport.GrowsAppend` | core/html_reporter_competitor.py:249-263 | An append only grows the target key's cells, and the keyword's key order gains the key exactly when the cell is new. |
| `CompetitorReport.AddCompetitorsGrows` | core/html_reporter_competitor.py:241-263 | The competitor loop only grows the session's cells and keeps the key order consistent. |
| `CompetitorReport.AddOursGrows` | core/html_reporter_competitor.py:266-287 | Our-position loop does the same. |
| `CompetitorReport.AddSessionGrows` | core/html_reporter_competitor.py:201-287 | A whole session does the same. |
| `CompetitorReport.SessionCells` | core/html_reporter_competitor.py:201-287 | One cell per session, in list order. |
| `CompetitorReport.OccupiedNone` | core/html_reporter_competitor.py:320-323 | No occupied session exactly when every cell is empty. |
| `CompetitorReport.OccupiedFirst` | core/html_reporter_competitor.py:320-323 | The first occupied key is that of the first session with a non-empty cell. |
| `CompetitorReport.FillTidy` | core/html_reporter_competitor.py:201-287 | After the fill, every keyword has a cell. The key order lists exactly the keys with cells, and no cell is empty. |
| `CompetitorReport.FillLast` | core/html_reporter_competitor.py:201-287 | The last session grows the table from an empty cell of its key to its session cell. |
| `CompetitorReport.FillOrder` | core/html_reporter_competitor.py:201-287 | A keyword's dict keys, in insertion order, are the sessions that gave it an entry, in session-list order. |
| `CompetitorReport.LatestSession` | core/html_reporter_competitor.py:317-341 | `sessions_list[0]` is the newest session that gave the keyword an entry. The stats' latest cell is that session's cell, finished. |
| `CompetitorReport.NoEntryNoCells` | core/html_reporter_competitor.py:317-350 | A keyword no session gave an entry has no cells, so the stats' else-branch is never taken. |
| `CompetitorReport.DistinctPositionsPerm` | core/html_reporter_competitor.py:295 | Sorting keeps positions distinct. |
| `CompetitorReport.Gaps` | core/html_reporter_competitor.py:298-311 | The placeholders are for positions in 1..10 that are absent, ascending, each a '???' entry. |
| `CompetitorReport.GapsCover` | core/html_reporter_competitor.py:298-311 | Every absent position of 1..10 gets its placeholder. |
| `CompetitorReport.MergedMembers` | core/html_reporter_competitor.py:292-314 | The merged list holds exactly the cell's entries and one placeholder per absent position in 1..10. |
| `CompetitorReport.MergedCovers` | core/html_reporter_competitor.py:292-314 | Every position of 1..10 is held in the merged list. |
| `CompetitorReport.MergedDistinct` | core/html_reporter_competitor.py:292-314 | Distinct cell positions stay distinct after merging. |
| `CompetitorReport.ExactFromCover` | core/html_reporter_competitor.py:314-315 | A sorted list with distinct positions within 1..10 that holds each of them is exactly positions 1..10. |
| `CompetitorReport.Finish` | core/html_reporter_competitor.py:292-315 | Specification of one cell's finishing: sort by position, add a placeholder for each missing position of 1..10, sort again, keep 10. It has no contract of its own; its properties are `FinishSorted`, `FinishFrom` and `FinishExact`. |
| `CompetitorReport.FinishSorted` | core/html_reporter_competitor.py:314-315 | The finished cell is sorted by position and has at most 10 entries. |
| `CompetitorReport.FinishFrom` | core/html_reporter_competitor.py:292-315 | Each finished entry is an entry of the cell, or an `is_missing` placeholder for an absent position in 1..10. |
| `CompetitorReport.FinishExact` | core/html_reporter_competitor.py:292-315 | A cell with distinct positions within 1..10 finishes as exactly positions 1..10 in order, losing none of its entries. |
| `CompetitorReport.FinishCell` | core/html_reporter_competitor.py:292-315 | The cell loop (sort, add placeholders, sort, keep 10) returns exactly `Finish`. |
| `CompetitorReport.AddCompetitorsLoop` | core/html_reporter_competitor.py:241-263 | The competitor loop returns exactly `AddCompetitors`. |
| `CompetitorReport.AddOursLoop` | core/html_reporter_competitor.py:266-287 | Our-position loop returns exactly `AddOurs`. |
| `CompetitorReport.Fill` | core/html_reporter_competitor.py:201-287 | Specification of the session loop: the table after the sessions, in order. It has no contract of its own; its properties are `FillOther`, `FillCell`, `FillTidy`, `FillLast` and `FillOrder`. |
| `CompetitorReport.FillTop10` | core/html_reporter_competitor.py:201-287 | The session loop returns exactly `Fill`. |
| `CompetitorReport.FinishAll` | core/html_reporter_competitor.py:289-315 | Finishing keeps the keywords, each keyword's session keys and their order. |
| `CompetitorReport.FinishAllCells` | core/html_reporter_competitor.py:289-315 | Every finished cell is its filled cell finished. |
| `CompetitorReport.DomainsBound` | core/html_reporter_competitor.py:326-333 | A cell has no more distinct domains than entries, and at least one when non-empty. |
| `CompetitorReport.OurPositions` | core/html_reporter_competitor.py:331-333 | our_positions lists exactly the positions of our entries of the cell. |
| `CompetitorReport.KeywordStatFacts` | core/html_reporter_competitor.py:317-341 | latest = the first session key. total = size of the latest cell. unique_domains = its number of distinct domains (≤ total). top_position = its first position. our_domain_in_top10 iff it holds our entry. |
| `CompetitorReport.FinishedLatest` | core/html_reporter_competitor.py:314-323 | After finishing, the latest cell is sorted with ≤ 10 entries. |
| `CompetitorReport.TopPositionLeast` | core/html_reporter_competitor.py:338 | On a sorted cell, top_position is the smallest position and total ≤ 10. |
| `CompetitorReport.Statistics` | core/html_reporter_competitor.py:317-348 | One statistics entry per keyword that has cells. |
| `CompetitorReport.Columns` | core/html_reporter_competitor.py:174-199 | One session entry per query row. |
| `CompetitorReport.ReportOf` | core/html_reporter_competitor.py:174-350 | Specification of the report over the session query: the session columns, the filled and finished table, and its statistics. It has no contract of its own; `CompetitorReport.Top10Data` returns it. |
| `CompetitorReport.Top10Data` | core/html_reporter_competitor.py:90-350 | `{}` exactly for an unknown project, no active keywords, or no session rows. Otherwise the report over the session query. |
| `CompetitorReport.QueryKeysDistinct` | core/html_reporter_competitor.py:123-190 | The session query's entries have distinct session keys. |
| `CompetitorReport.ReportCell` | core/html_reporter_competitor.py:201-315 | Each filled cell of the report is its session's competitors plus our admitted entries, finished. |
| `CompetitorReport.ReportLatest` | core/html_reporter_competitor.py:317-341 | A keyword's stats name the newest session that gave it an entry, and count at most 10 entries. |
| `PositionsReport.Selected` | core/html_reporter.py:131-165 | The query keeps exactly the rows of project keywords, and of the asked session when one is asked. |
| `PositionsReport.PositionsQuery` | core/html_reporter.py:131-168 | The query's rows are exactly the selected rows, ordered by (date, time) descending. |
| `PositionsReport.NewGroup` | core/html_reporter.py:186-238 | A new entry has no readings and the row's date. It is a session entry exactly when the row has a non-zero session id. |
| `PositionsReport.GroupRows` | core/html_reporter.py:177-245 | Specification of the grouping loop: the sessions dict after the rows, in order. It has no contract of its own; its properties are the `GroupRows…` lemmas below. |
| `PositionsReport.GroupRowsStep` | core/html_reporter.py:179-245 | One more row is one more `AddRow`. |
| `PositionsReport.AddPosition` | core/html_reporter.py:186-245 | One loop pass: open the entry on the key's first row, then record the reading. |
| `PositionsReport.GroupPositions` | core/html_reporter.py:177-245 | The grouping loop returns exactly `GroupRows`. |
| `PositionsReport.NewGroupFits` | core/html_reporter.py:188-238 | A new entry agrees with its key. |
| `PositionsReport.RecordFits` | core/html_reporter.py:241-245 | Recording a reading keeps the entry's keyword list duplicate-free and within the project. |
| `PositionsReport.AddRowWellFormed` | core/html_reporter.py:186-245 | A row keeps the dict well formed. |
| `PositionsReport.GroupRowsWellFormed` | core/html_reporter.py:177-245 | One entry per key, each key listed once, every entry agreeing with its key. |
| `PositionsReport.GroupRowsKeys` | core/html_reporter.py:186-238 | There is an entry exactly for each row's key (session for a session row, date + whole-second time otherwise). |
| `PositionsReport.AddRowReadings` | core/html_reporter.py:241-245 | One row changes only the reading of its own key and keyword. |
| `PositionsReport.GroupRowsReads` | core/html_reporter.py:241-245 | An entry has a reading for a keyword exactly when some row of that key is for that keyword. |
| `PositionsReport.GroupRowsLastWins` | core/html_reporter.py:241-245 | The reading kept is that of the last such row: later rows overwrite. |
| `PositionsReport.GroupRowsHeader` | core/html_reporter.py:192-238 | An entry's date, time, session id and name are those of the first row with its key. |
| `PositionsReport.LastIsOldest` | core/html_reporter.py:241-245 | Over rows ordered newest first, the reading kept is the oldest row of that key and keyword. |
| `PositionsReport.OldestReadingWins` | core/html_reporter.py:147-245 | With the query's newest-first order, each reading in the report is the keyword's oldest in its column. |
| `PositionsReport.ColumnOrder` | core/html_reporter.py:257-261 | The column order is a permutation of the dict's keys. |
| `PositionsReport.ColumnOrderMembers` | core/html_reporter.py:257-261 | The columns are the dict's entries, each once. |
| `PositionsReport.ColumnOrderNewestFirst` | core/html_reporter.py:257-261 | The columns are ordered by (date, time) descending. |
| `PositionsReport.Headers` | core/html_reporter.py:263-270 | One header per column key, in order. |
| `PositionsReport.ListColumns` | core/html_reporter.py:263-270 | The header loop returns exactly `Headers`. |
| `PositionsReport.ColumnKeysDistinct` | core/html_reporter.py:276-279 | Different entries get different column keys. |
| `PositionsReport.Put` | core/html_reporter.py:284-292 | Writing a cell sets it and keeps every other cell. |
| `PositionsReport.FillColumnStep` | core/html_reporter.py:281-292 | The inner loop step: one more keyword of the entry is one more `Put`. |
| `PositionsReport.FillColumnLoop` | core/html_reporter.py:281-292 | The inner loop returns exactly `FillColumn`. |
| `PositionsReport.FillTable` | core/html_reporter.py:273-292 | Specification of the table loop: the cells after the columns, in order. It has no contract of its own; `PositionsReport.TableDomain` and `PositionsReport.TableCells` state what it holds. |
| `PositionsReport.FillPositions` | core/html_reporter.py:273-292 | The table loop returns exactly `FillTable`. |
| `PositionsReport.FillColumnDomain` | core/html_reporter.py:281-292 | A column adds cells only in that column, only for its keywords. |
| `PositionsReport.FillColumnKeeps` | core/html_reporter.py:281-292 | Writing one column leaves the other columns' cells alone. |
| `PositionsReport.FillColumnPuts` | core/html_reporter.py:281-292 | With unique keyword names, each keyword of a column gets its cell holding its reading. |
| `PositionsReport.TableDomain` | core/html_reporter.py:273-292 | The table has cells only where some column read the keyword. |
| `PositionsReport.TableCells` | core/html_reporter.py:273-292 | Every keyword read in a column has its cell there, holding that reading. |
| `PositionsReport.Row` | core/html_reporter.py:297 | A keyword's cells in column order: every cell it has appears, nothing else does, and there are no more entries than columns. |
| `PositionsReport.Known` | core/html_reporter.py:297 | `[p for p in positions if p is not None]`: exactly the known positions. |
| `PositionsReport.Least` | core/html_reporter.py:301 | `min` is in the list and no element is smaller. |
| `PositionsReport.Greatest` | core/html_reporter.py:302 | `max` is in the list and no element is greater. |
| `PositionsReport.KeywordStat` | core/html_reporter.py:295-322 | One keyword's statistics over its cells. It has no contract of its own; `PositionsReport.KeywordStatBounds` states them. |
| `PositionsReport.KeywordStatBounds` | core/html_reporter.py:295-322 | best = min and worst = max of the known positions, each held by a cell. count = number of known positions ≤ sessions_count = number of cells. Nothing known gives None, None, 0, 0. |
| `PositionsReport.BestIsOne` | core/html_reporter.py:657-658 | best is 1 exactly when some cell is 1 and none is smaller. |
| `PositionsReport.Statistics` | core/html_reporter.py:295-322 | One statistics entry per project keyword. |
| `PositionsReport.TopOne` | core/html_reporter.py:649-658 | The top-1 count is at most the number of keywords. |
| `PositionsReport.CountTopOne` | core/html_reporter.py:649-658 | The counting loop returns exactly `TopOne`. |
| `PositionsReport.TopOneCounts` | core/html_reporter.py:649-658 | top1_count is the number of listed keywords whose best position is 1. |
| `PositionsReport.ClassifyCases` | core/html_reporter.py:728-739 | None gives position-null. 1 gives position-1. Any other value ≤ 3 gives position-3. > 10 gives position-10. 4..10 gets no class. |
| `PositionsReport.DisplayValue` | core/html_reporter.py:728-739 | "—" exactly for a missing position. |
| `PositionsReport.ColumnKeys` | core/html_reporter.py:276-279 | One column key per column, in order. |
| `PositionsReport.ReportOf` | core/html_reporter.py:177-322 | Specification of the report: group, order the columns, fill the table, count. It has no contract of its own; `PositionsReport.BuildReport` returns it. |
| `PositionsReport.BuildReport` | core/html_reporter.py:177-322 | Grouping, ordering, filling and counting return exactly `ReportOf`. |
| `PositionsReport.PositionsData` | core/html_reporter.py:90-330 | `{}` exactly for a missing project, no keywords or no rows. Otherwise the report over the query. |

## Left out

- SQL connections, query text and schema DDL. Tables are in-memory fields or input sequences. `WHERE` is a filter; `ORDER BY` is a stable sort, so rows with equal keys keep table order. The SQL leaves their order open.
- The columns of the tables other than competitors are inferred from the queries. `updated_at`, `created_at` and `CURRENT_TIMESTAMP` are not modelled; "now" is a parameter.
- `sqlite3.IntegrityError` from a concurrent writer is modelled only in `Store.SEODatabase.SaveSnapshotIfChanged` (the `raced` row). Other concurrency is not.
- `Store.SEODatabase.SaveSnapshotIfChanged`: MD5 over `json.dumps` is modelled as a digest that wraps the ordered list. Equal digests mean equal content, so MD5 collisions are not modelled.
- `Store.SEODatabase.SaveCompetitors`: the per-entry `except` (an exception other than a constraint failure) is not modelled. The only failures modelled are the UNIQUE and CHECK constraints, which INSERT OR IGNORE skips.
- Floating point. The running mean is `real`. The ratio rounding in the assessment metrics, the `avg` of the positions report and `_hours_between_dates` are left out. `Threats.Summarise` compares the ratios exactly in integers, as the source's float division does at any realistic count.
- The HTTP client with retries, ElementTree parsing and `urlparse`. The parsed answer (`Response`) and the URL split (`parse`) are inputs.
- `Parser.ExtractResult`: the `urlparse(url).netloc` fallback for an empty domain is written out only for `http://`, `https://` and scheme-relative URLs. Any other URL gives an empty host.
- `Parser.SelectCompetitors` requires `limit > 0`. This is the source's own guard (`competitors_limit > 0`); below it the list is empty and the function is not used.
- `Store.SEODatabase.GetLatestSession`: when several sessions share the greatest start time, which one is returned is left open, as `ORDER BY start_time DESC LIMIT 1` leaves it.
- `Common.Lower` lowers Latin and basic Cyrillic capitals only. Other Unicode case mappings of `str.lower` are not modelled.
- Clock, `time.sleep`, `datetime.now()` and the `date('now', ...)` window of `get_position_history`. Clock readings and the histories for the 7-day and 30-day windows are inputs.
- The file cache of the collector (`_save_to_cache` / `_get_from_cache`) is an input: what the cache held for each keyword. Writing it back is left out.
- The stub and random data (`_get_stub_position`, `get_traffic_data`, `get_webmaster_issues`), CSV export, backups and `_save_analysis_results`.
- HTML text building, report files and symlinks. Only the data the reports are built from is modelled.
- `seo_agent.py` and `scripts/*`: orchestration and diagnostics.
- `Threats.AnalyzeProject`: the `error` entry of `analyze_project` is not modelled. Each analysis catches its own exceptions and returns its empty or default result, and the store read that could raise is outside the model.
- `Collector.DataCollector.CheckPositions`: a `Raised` search outcome stands for an exception that escapes before the keyword's first store write. In the source that is `get_or_create_keyword` failing (core/data_collector.py:195). The search itself does not raise. `_get_real_yandex_position` turns any parser exception into `_get_stub_position`'s random result, which is then saved (core/data_collector.py:460-463). The parser already turns request errors into an empty result list (core/real_position_parser.py:112-120). Such a result is a `Fetched` outcome here, with its values a parameter. A failure in the middle of the store writes (in `save_position` or `save_competitors`) is not modelled, nor is `get_or_create_keyword` failing on the cached path.
- `Collector.DataCollector.CheckPositionsWithSession`: the fault is modelled at one point only: after `check_positions` has returned with all its writes, including the snapshot. In the source that is `complete_monitoring_session` raising (core/data_collector.py:340-345). Two other exceptions reach the same `except` and are not modelled. `get_or_create_project` inside `check_positions` can raise before any write (core/data_collector.py:126). `save_snapshot_if_changed` can raise after the keyword rows, leaving no snapshot (core/data_collector.py:277-282; it catches only the integrity error, core/database.py:476-537). The wrapper's own `get_or_create_project` and `create_monitoring_session` (core/data_collector.py:317-324) sit outside the `try`, and their failures are not modelled either. `Collector.SessionRun` states the same single fault point.
- `Collector.CleanDomain`: a trailing '/' is ignored only for a domain without ':' (`Collector.CleanDomainIgnoresTrailingSlash`). In general it is not, because `replace` runs before `strip` and a '/' can complete an `http://` (`Collector.CleanDomainTrailingSlashCounts`).
- `Collector.RankOf` maps a missing position to 101. An entry whose `position` key is present but None would make the source's `x.get('position', 101)` return None, and `sorted` would then raise TypeError when it meets an int (core/data_collector.py:273). That raise is not modelled. The parser never produces such an entry: a competitor's position is always its place in the parsed results.
- `CompetitorReport.FinishExact` is conditional. With duplicate positions, or positions outside 1..10, in a cell, cutting to ten can push out positions of 1..10. The source does not promise otherwise, and `CompetitorReport.FinishFrom` and `CompetitorReport.FinishSorted` hold for every cell.
- `CompetitorReport.ShortenUrl` does not model `urlparse` itself: whether it raises and what it returns are the `parse` parameter.
- A NULL competitor URL or title in the competitor report is read as "", as `row['title'] or ""` does for the title.
- Dictionary iteration order in the reports' statistics loops does not affect the result. Those loops are modelled as map comprehensions (`CompetitorReport.Statistics`, `PositionsReport.Statistics`).
- `PositionsReport.TableCells` assumes keyword names are unique per project, as the keywords table's key makes them. Without that, two ids of one name would share a row.

Two behaviours of the code that a reader might not expect, modelled as written:

- The comment at core/database.py:429 says the domain statistics are bumped when the insert went through (affected rows > 0). The test below it reads the connection's cumulative `total_changes`, so after the first insert every later valid entry of the call bumps them, duplicates included (`Store.DuplicateAfterInsertIsCounted`).
- A position row need not carry the start of the session it names. A later save without a session on the same day keeps the session id but moves the check time (`Store.SessionRowsCanDisagreeOnTime`).

## Findings

| source | as written | input that shows it | evidently intended | confidence | as-written member | corrected member |
|---|---|---|---|---|---|---|
| core/real_position_parser.py:146 | The query cache is keyed by the text `f"{domain}_{keyword}_{region}_{include_competitors}_{competitors_limit}"`. | domain "a_b", keyword "c" and then domain "a", keyword "b_c", with the same region and options: both give the key "a_b_c_…", so the second call returns the first call's result, for keyword "c". | A cache hit answers the query that was asked (same domain, keyword, region and options). | medium, not executed | `Parser.CacheKeyTextCollides` | `Parser.RealPositionParser.GetYandexPosition` |
