/**
 * ThreatDetector: rule-based classification of a domain's position history
 * (the rows of `get_position_history`, given here as an input sequence in
 * the order the store returns them) into position drops, displacements from
 * the top 20, an overall trend assessment and recommendations.
 *
 * The three analyses group the history by keyword (in order of first
 * appearance, as a `defaultdict` does) and walk the groups in a loop; each
 * is a method proved equal to a specification function, and the properties
 * of the analysis are lemmas about those functions.
 */
module Threats {
  import opened Common

  /** The detector's thresholds. */
  const CriticalDrop: int := 10
  const SignificantDrop: int := 3
  const DaysToAnalyze: nat := 7
  const MinCheckFrequency: nat := 2
  /** Displacements look at a longer window, and the top 20 is the line they watch. */
  const DisplacementDays: nat := 30
  const TopLine: int := 20
  const DeepLine: int := 50

  /** One row of the position history. */
  datatype HistoryRecord = HistoryRecord(keyword: string, position: Option<int>, at: Clock)

  datatype Level = Critical | Warning

  /**
   * A detected threat. `elapsed` is the distance in microseconds between the
   * two compared checks (reported in hours by the source); `days` the number
   * of days between the two compared check dates.
   */
  datatype Threat =
    | PositionDrop(keyword: string, previous: int, current: int, change: int, level: Level, elapsed: nat)
    | Displacement(keyword: string, oldPosition: int, newPosition: int, droppedFromTop20: bool,
                   lost: int, days: nat, level: Level)

  function Abs(x: int): nat
  {
    if x < 0 then -x else x
  }

  // ------------------------------------------------------------ grouping by keyword

  /** The distinct keywords of the history, in order of first appearance. */
  function Keywords(h: seq<HistoryRecord>): (ks: seq<string>)
    ensures |ks| <= |h|
  {
    if h == [] then []
    else
      var ks := Keywords(h[..|h| - 1]);
      if h[|h| - 1].keyword in ks then ks else ks + [h[|h| - 1].keyword]
  }

  /** The records of keyword `k`, in history order. */
  function Group(h: seq<HistoryRecord>, k: string): (g: seq<HistoryRecord>)
    ensures |g| <= |h|
  {
    if h == [] then []
    else Group(h[..|h| - 1], k) + (if h[|h| - 1].keyword == k then [h[|h| - 1]] else [])
  }

  /** A keyword is listed iff some record carries it, iff its group is non-empty. */
  lemma {:induction false} KeywordsComplete(h: seq<HistoryRecord>, k: string)
    ensures k in Keywords(h) <==> Group(h, k) != []
    ensures k in Keywords(h) <==> exists i :: 0 <= i < |h| && h[i].keyword == k
  {
    if h != [] {
      var init := h[..|h| - 1];
      KeywordsComplete(init, k);
      if exists i :: 0 <= i < |h| && h[i].keyword == k {
        var i :| 0 <= i < |h| && h[i].keyword == k;
        if i < |h| - 1 {
          assert init[i].keyword == k;
        }
      }
      if exists i :: 0 <= i < |init| && init[i].keyword == k {
        var i :| 0 <= i < |init| && init[i].keyword == k;
        assert h[i].keyword == k;
      }
    }
  }

  /** No keyword is listed twice. */
  lemma {:induction false} KeywordsDistinct(h: seq<HistoryRecord>)
    ensures forall i, j :: 0 <= i < j < |Keywords(h)| ==> Keywords(h)[i] != Keywords(h)[j]
  {
    if h != [] {
      KeywordsDistinct(h[..|h| - 1]);
    }
  }

  /** A group holds only records of its keyword, taken from the history. */
  lemma {:induction false} GroupMembers(h: seq<HistoryRecord>, k: string, r: HistoryRecord)
    ensures r in Group(h, k) <==> r in h && r.keyword == k
  {
    if h != [] {
      GroupMembers(h[..|h| - 1], k, r);
      assert h == h[..|h| - 1] + [h[|h| - 1]];
    }
  }

  /** One more record: its keyword is appended if new, and it joins its keyword's group. */
  lemma KeywordsStep(h: seq<HistoryRecord>, i: nat)
    requires i < |h|
    ensures Keywords(h[..i + 1]) ==
      if h[i].keyword in Keywords(h[..i]) then Keywords(h[..i]) else Keywords(h[..i]) + [h[i].keyword]
    ensures forall k :: Group(h[..i + 1], k) == Group(h[..i], k) + (if h[i].keyword == k then [h[i]] else [])
  {
    assert h[..i + 1][..i] == h[..i];
  }

  /** The order `sorted(records, key=lambda x: (x['check_date'], x['check_time']))` produces. */
  function RecordKey(r: HistoryRecord): int
  {
    Key(r.at)
  }

  function Chronological(g: seq<HistoryRecord>): (s: seq<HistoryRecord>)
    ensures |s| == |g| && multiset(s) == multiset(g)
    ensures SortedBy(s, RecordKey)
  {
    SortBy(g, RecordKey)
  }

  /** The values `f` gives on `keys`, in order, skipping the keys it gives nothing for. */
  function Gather<T>(keys: seq<string>, f: string -> Option<T>): (r: seq<T>)
    ensures |r| <= |keys|
  {
    if keys == [] then []
    else
      var last := f(keys[|keys| - 1]);
      Gather(keys[..|keys| - 1], f) + (if last.Some? then [last.value] else [])
  }

  lemma {:induction false} GatherMembers<T>(keys: seq<string>, f: string -> Option<T>, x: T)
    ensures x in Gather(keys, f) <==> exists i :: 0 <= i < |keys| && f(keys[i]) == Some(x)
  {
    if keys != [] {
      var init := keys[..|keys| - 1];
      GatherMembers(init, f, x);
      if exists i :: 0 <= i < |keys| && f(keys[i]) == Some(x) {
        var i :| 0 <= i < |keys| && f(keys[i]) == Some(x);
        if i < |keys| - 1 {
          assert init[i] == keys[i];
        }
      }
    }
  }

  lemma GatherStep<T>(keys: seq<string>, f: string -> Option<T>, i: nat)
    requires i < |keys|
    ensures Gather(keys[..i + 1], f) == Gather(keys[..i], f) + (if f(keys[i]).Some? then [f(keys[i]).value] else [])
  {
    assert keys[..i + 1][..i] == keys[..i];
  }

  /** When `f` tags what it gives with the key it was given, membership reduces to one lookup. */
  lemma GatherKeyed<T>(keys: seq<string>, f: string -> Option<T>, key: T -> string, x: T)
    requires forall k :: f(k).Some? ==> key(f(k).value) == k
    ensures x in Gather(keys, f) <==> key(x) in keys && f(key(x)) == Some(x)
  {
    GatherMembers(keys, f, x);
    if exists i :: 0 <= i < |keys| && f(keys[i]) == Some(x) {
      var i :| 0 <= i < |keys| && f(keys[i]) == Some(x);
      assert keys[i] == key(x);
    }
  }

  function ThreatKeyword(t: Threat): string
  {
    t.keyword
  }

  // ------------------------------------------------------------ position drops

  /**
   * One keyword's drop: the two most recent checks are compared; with both
   * positions known, a loss of `CriticalDrop` or more places is critical and
   * one of `SignificantDrop` or more a warning.
   */
  function DropThreat(k: string, g: seq<HistoryRecord>): (r: Option<Threat>)
    ensures r.Some? ==> r.value.PositionDrop? && r.value.keyword == k
    ensures r.Some? ==> r.value.change == r.value.current - r.value.previous >= SignificantDrop
    ensures r.Some? ==> (r.value.level == Critical <==> r.value.change >= CriticalDrop)
  {
    var s := Chronological(g);
    if |s| < MinCheckFrequency then None
    else
      var latest, previous := s[|s| - 1], s[|s| - 2];
      if latest.position.None? || previous.position.None? then None
      else
        var change := latest.position.value - previous.position.value;
        var elapsed := Abs(RecordKey(latest) - RecordKey(previous));
        if change >= CriticalDrop then
          Some(PositionDrop(k, previous.position.value, latest.position.value, change, Critical, elapsed))
        else if change >= SignificantDrop then
          Some(PositionDrop(k, previous.position.value, latest.position.value, change, Warning, elapsed))
        else None
  }

  /** A drop is reported exactly when the last two checks both found the site and it lost 3 places or more. */
  lemma DropThreatFires(k: string, g: seq<HistoryRecord>)
    ensures var s := Chronological(g);
      DropThreat(k, g).Some? <==>
        && |g| >= 2
        && s[|s| - 1].position.Some? && s[|s| - 2].position.Some?
        && s[|s| - 1].position.value - s[|s| - 2].position.value >= SignificantDrop
    ensures var s := Chronological(g);
      DropThreat(k, g).Some? ==>
        && DropThreat(k, g).value.previous == s[|s| - 2].position.value
        && DropThreat(k, g).value.current == s[|s| - 1].position.value
  {
  }

  function DropOf(h: seq<HistoryRecord>): string -> Option<Threat>
  {
    k => DropThreat(k, Group(h, k))
  }

  /** analyze_position_changes: one drop per keyword that shows one, in order of first appearance. */
  function PositionDrops(h: seq<HistoryRecord>): seq<Threat>
  {
    Gather(Keywords(h), DropOf(h))
  }

  /** Each reported drop is the drop of one keyword of the history, and each keyword's drop is reported. */
  lemma PositionDropsComplete(h: seq<HistoryRecord>, t: Threat)
    ensures t in PositionDrops(h) <==> t.PositionDrop? && t.keyword in Keywords(h) && DropThreat(t.keyword, Group(h, t.keyword)) == Some(t)
  {
    GatherKeyed(Keywords(h), DropOf(h), ThreatKeyword, t);
  }

  /** A keyword seen fewer than twice never yields a drop. */
  lemma {:induction false} SingleCheckNoDrop(h: seq<HistoryRecord>, k: string)
    requires |Group(h, k)| < MinCheckFrequency
    ensures forall t :: t in PositionDrops(h) ==> t.keyword != k
  {
    forall t | t in PositionDrops(h)
      ensures t.keyword != k
    {
      PositionDropsComplete(h, t);
    }
  }

  // ------------------------------------------------------------ displacements

  /**
   * One keyword's displacement: the oldest and the newest check are compared;
   * being in the top 20 then and below it now is a displacement, critical
   * when the site fell below 50.
   */
  function DisplacementThreat(k: string, g: seq<HistoryRecord>): (r: Option<Threat>)
    ensures r.Some? ==> r.value.Displacement? && r.value.keyword == k && r.value.droppedFromTop20
    ensures r.Some? ==> r.value.oldPosition <= TopLine < r.value.newPosition
    ensures r.Some? ==> r.value.lost == r.value.newPosition - r.value.oldPosition >= 1
    ensures r.Some? ==> (r.value.level == Critical <==> r.value.newPosition > DeepLine)
  {
    if |g| < 2 then None
    else
      var s := Chronological(g);
      var oldest, latest := s[0], s[|s| - 1];
      if oldest.position.None? || latest.position.None? then None
      else
        var was, now := oldest.position.value, latest.position.value;
        if was <= TopLine && now > TopLine then
          Some(Displacement(k, was, now, true, now - was, Abs(latest.at.date - oldest.at.date),
                            if now > DeepLine then Critical else Warning))
        else None
  }

  /** A displacement is reported exactly when the oldest check was in the top 20 and the newest is not. */
  lemma DisplacementFires(k: string, g: seq<HistoryRecord>)
    ensures var s := Chronological(g);
      DisplacementThreat(k, g).Some? <==>
        && |g| >= 2
        && s[0].position.Some? && s[|s| - 1].position.Some?
        && s[0].position.value <= TopLine < s[|s| - 1].position.value
  {
  }

  function DisplacementOf(h: seq<HistoryRecord>): string -> Option<Threat>
  {
    k => DisplacementThreat(k, Group(h, k))
  }

  /** detect_displacements: nothing for a history of fewer than two rows, else one per displaced keyword. */
  function Displacements(h: seq<HistoryRecord>): seq<Threat>
  {
    if |h| < 2 then [] else Gather(Keywords(h), DisplacementOf(h))
  }

  lemma DisplacementsComplete(h: seq<HistoryRecord>, t: Threat)
    ensures t in Displacements(h) <==>
      |h| >= 2 && t.Displacement? && t.keyword in Keywords(h) && DisplacementThreat(t.keyword, Group(h, t.keyword)) == Some(t)
  {
    GatherKeyed(Keywords(h), DisplacementOf(h), ThreatKeyword, t);
  }

  /** The guard on the whole history changes nothing: a shorter history has no keyword with two checks. */
  lemma {:induction false} ShortHistoryGuardRedundant(h: seq<HistoryRecord>)
    requires |h| < 2
    ensures Gather(Keywords(h), DisplacementOf(h)) == []
  {
    if h != [] {
      assert h[..0] == [];
      assert Keywords(h) == [h[0].keyword];
      assert Keywords(h)[..0] == [];
    }
  }

  // ------------------------------------------------------------ trends and the overall assessment

  datatype Movement = Improving | Declining | Fluctuating

  /** One keyword's trend over its last three checks; `change` is the last position minus the first. */
  datatype KeywordTrend = KeywordTrend(keyword: string, movement: Movement, current: int, change: int)

  /** Positions falling is improving, rising is declining; anything else fluctuates. */
  function Classify(a: int, b: int, c: int): (m: Movement)
    ensures m == Improving <==> a > b > c
    ensures m == Declining <==> a < b < c
  {
    if a > b > c then Improving
    else if a < b < c then Declining
    else Fluctuating
  }

  /** The known positions of `rs`, in order. */
  function Known(rs: seq<HistoryRecord>): (ps: seq<int>)
    ensures |ps| <= |rs|
    ensures |ps| == |rs| ==> forall i :: 0 <= i < |rs| ==> rs[i].position == Some(ps[i])
  {
    if rs == [] then []
    else (if rs[0].position.Some? then [rs[0].position.value] else []) + Known(rs[1..])
  }

  function TrendOf(k: string, g: seq<HistoryRecord>): (r: Option<KeywordTrend>)
    ensures r.Some? ==> r.value.keyword == k && |g| >= 3
  {
    if |g| < 3 then None
    else
      var s := Chronological(g);
      var ps := Known(s[|s| - 3..]);
      if |ps| != 3 then None
      else Some(KeywordTrend(k, Classify(ps[0], ps[1], ps[2]), ps[2], ps[2] - ps[0]))
  }

  lemma KnownThree(rs: seq<HistoryRecord>)
    requires |rs| == 3
    ensures |Known(rs)| == 3 <==> rs[0].position.Some? && rs[1].position.Some? && rs[2].position.Some?
    ensures |Known(rs)| == 3 ==> Known(rs) == [rs[0].position.value, rs[1].position.value, rs[2].position.value]
  {
    var tail := rs[1..];
    var last := tail[1..];
    assert last[1..] == [];
    assert Known(last) == (if rs[2].position.Some? then [rs[2].position.value] else []);
    assert Known(tail) == (if rs[1].position.Some? then [rs[1].position.value] else []) + Known(last);
  }

  /** A trend is taken exactly when the last three checks all found the site, and it reads them in order. */
  lemma TrendOfReadsLastThree(k: string, g: seq<HistoryRecord>)
    requires |g| >= 3
    ensures var s := Chronological(g);
      var n := |s|;
      && (TrendOf(k, g).Some? <==> s[n - 3].position.Some? && s[n - 2].position.Some? && s[n - 1].position.Some?)
      && (TrendOf(k, g).Some? ==>
            var a, b, c := s[n - 3].position.value, s[n - 2].position.value, s[n - 1].position.value;
            && TrendOf(k, g).value.current == c
            && TrendOf(k, g).value.change == c - a
            && (TrendOf(k, g).value.movement == Improving <==> a > b > c)
            && (TrendOf(k, g).value.movement == Declining <==> a < b < c))
  {
    var s := Chronological(g);
    var n := |s|;
    KnownThree(s[n - 3..]);
    assert s[n - 3..][0] == s[n - 3] && s[n - 3..][1] == s[n - 2] && s[n - 3..][2] == s[n - 1];
  }

  function TrendFor(h: seq<HistoryRecord>): string -> Option<KeywordTrend>
  {
    k => TrendOf(k, Group(h, k))
  }

  function Trends(h: seq<HistoryRecord>): seq<KeywordTrend>
  {
    Gather(Keywords(h), TrendFor(h))
  }

  function Count(ts: seq<KeywordTrend>, m: Movement): (n: nat)
    ensures n <= |ts|
  {
    if ts == [] then 0
    else Count(ts[..|ts| - 1], m) + (if ts[|ts| - 1].movement == m then 1 else 0)
  }

  /** Every trend is improving, declining or fluctuating, so the stable count is never negative. */
  lemma {:induction false} CountsPartition(ts: seq<KeywordTrend>)
    ensures Count(ts, Improving) + Count(ts, Declining) + Count(ts, Fluctuating) == |ts|
  {
    if ts != [] {
      CountsPartition(ts[..|ts| - 1]);
    }
  }

  /** `status` in ("stable", "good", "warning", "critical"), `trend` in ("neutral", "positive", "slightly_negative", "negative"). */
  datatype Status = Stable | Good | Concerning | Alarming
  datatype Direction = Neutral | Positive | SlightlyNegative | Negative

  datatype Metrics = Metrics(total: nat, improving: nat, declining: nat, stable: nat)

  datatype Assessment = Assessment(status: Status, trend: Direction, metrics: Option<Metrics>)

  const DefaultAssessment := Assessment(Stable, Neutral, None)

  /**
   * The overall verdict over the keyword trends: more than half declining is
   * critical, more than 30% declining a warning, more than half improving
   * good. The ratio tests are written on integers (`declining / total > 0.5`
   * as `2 * declining > total`), which is exact for the source's float
   * division at any realistic count.
   */
  function Summarise(ts: seq<KeywordTrend>): (a: Assessment)
    ensures a.metrics.Some? <==> ts != []
    ensures a.metrics.Some? ==>
      && a.metrics.value.total == |ts|
      && a.metrics.value.improving + a.metrics.value.declining + a.metrics.value.stable == |ts|
  {
    if ts == [] then DefaultAssessment
    else
      var i, d, t := Count(ts, Improving), Count(ts, Declining), |ts|;
      CountsPartition(ts);
      var metrics := Some(Metrics(t, i, d, t - i - d));
      if 2 * d > t then Assessment(Alarming, Negative, metrics)
      else if 10 * d > 3 * t then Assessment(Concerning, SlightlyNegative, metrics)
      else if 2 * i > t then Assessment(Good, Positive, metrics)
      else Assessment(Stable, Neutral, metrics)
  }

  /**
   * Decline is looked at before improvement, and each status names the share
   * of the keywords behind it; the direction always agrees with the status.
   */
  lemma SummariseVerdicts(ts: seq<KeywordTrend>)
    requires ts != []
    ensures var a, i, d, t := Summarise(ts), Count(ts, Improving), Count(ts, Declining), |ts|;
      && (a.status == Alarming <==> 2 * d > t)
      && (a.status == Concerning <==> 2 * d <= t && 10 * d > 3 * t)
      && (a.status == Good <==> 10 * d <= 3 * t && 2 * i > t)
      && (a.status == Stable <==> 10 * d <= 3 * t && 2 * i <= t)
      && (a.status == Alarming <==> a.trend == Negative)
      && (a.status == Good <==> a.trend == Positive)
      && (a.status == Stable <==> a.trend == Neutral)
  {
  }

  /** assess_overall_situation: the default for fewer than three rows, else the verdict over the trends. */
  function Assess(h: seq<HistoryRecord>): Assessment
  {
    if |h| < 3 then DefaultAssessment else Summarise(Trends(h))
  }

  /**
   * Metrics exist exactly when there are three rows and some keyword has a
   * trend, and then count the trends; without them the verdict is the
   * stable default.
   */
  lemma AssessMetrics(h: seq<HistoryRecord>)
    ensures var a := Assess(h);
      && (a.metrics.Some? <==> |h| >= 3 && Trends(h) != [])
      && (a.metrics.Some? ==> a.metrics.value.total == |Trends(h)|)
      && (a.metrics.None? ==> a.status == Stable && a.trend == Neutral)
  {
  }

  // ------------------------------------------------------------ recommendations

  predicate IsCriticalDrop(t: Threat)
  {
    t.PositionDrop? && t.level == Critical
  }

  predicate IsWarningDrop(t: Threat)
  {
    t.PositionDrop? && t.level == Warning
  }

  predicate IsTopDisplacement(t: Threat)
  {
    t.Displacement? && t.droppedFromTop20
  }

  function KeywordsOf(ts: seq<Threat>): (ks: seq<string>)
    ensures |ks| == |ts| && forall i :: 0 <= i < |ts| ==> ks[i] == ts[i].keyword
  {
    if ts == [] then [] else [ts[0].keyword] + KeywordsOf(ts[1..])
  }

  /**
   * One recommendation line. The source builds the text directly; here the
   * kind of line and the keywords it names are kept, and Text renders it.
   */
  datatype Advice =
    | CriticalAdvice(keywords: seq<string>)
    | WarningAdvice(keywords: seq<string>)
    | DisplacementAdvice(keywords: seq<string>)
    | GenericAdvice
    | NoThreatsAdvice

  /** `sep.join(parts)`. */
  function Join(parts: seq<string>, sep: string): string
  {
    if parts == [] then ""
    else if |parts| == 1 then parts[0]
    else parts[0] + sep + Join(parts[1..], sep)
  }

  function Text(a: Advice): string
  {
    match a
    case CriticalAdvice(ks) =>
      "Критическое падение по запросам: " + Join(ks, ", ") + ". " + "Требуется немедленный анализ конкурентов."
    case WarningAdvice(ks) =>
      "Значительное падение по запросам: " + Join(ks, ", ") + ". " + "Рекомендуется анализ страниц-конкурентов."
    case DisplacementAdvice(ks) =>
      "Вытеснение из топ-20 по запросам: " + Join(ks, ", ") + ". " + "Необходимо срочное улучшение контента."
    case GenericAdvice =>
      "Обнаружены изменения в позициях. " + "Рекомендуется провести анализ конкурентов."
    case NoThreatsAdvice =>
      "Значительных угроз не обнаружено. " + "Продолжайте мониторинг."
  }

  /** The line for the critical drops, naming the first 3 of them. */
  function CriticalLine(threats: seq<Threat>): (r: seq<Advice>)
    ensures |r| <= 1 && forall a :: a in r ==> a.CriticalAdvice?
    ensures r != [] <==> exists t :: t in threats && IsCriticalDrop(t)
  {
    var critical := Filter(threats, IsCriticalDrop);
    if critical == [] then []
    else
      assert critical[0] in critical;
      [CriticalAdvice(KeywordsOf(Take(critical, 3)))]
  }

  /** The line for the warning drops, naming the first 5 of them. */
  function WarningLine(threats: seq<Threat>): (r: seq<Advice>)
    ensures |r| <= 1 && forall a :: a in r ==> a.WarningAdvice?
    ensures r != [] <==> exists t :: t in threats && IsWarningDrop(t)
  {
    var warning := Filter(threats, IsWarningDrop);
    if warning == [] then []
    else
      assert warning[0] in warning;
      [WarningAdvice(KeywordsOf(Take(warning, 5)))]
  }

  /** The line for the displacements from the top 20, naming the first 3 of them. */
  function DisplacementLine(threats: seq<Threat>): (r: seq<Advice>)
    ensures |r| <= 1 && forall a :: a in r ==> a.DisplacementAdvice?
    ensures r != [] <==> exists t :: t in threats && IsTopDisplacement(t)
  {
    var displaced := Filter(threats, IsTopDisplacement);
    if displaced == [] then []
    else
      assert displaced[0] in displaced;
      [DisplacementAdvice(KeywordsOf(Take(displaced, 3)))]
  }

  /** The specific lines, in the order the source appends them. */
  function SpecificAdvice(threats: seq<Threat>): (r: seq<Advice>)
    ensures |r| <= 3
    ensures forall a :: a in r ==> a.CriticalAdvice? || a.WarningAdvice? || a.DisplacementAdvice?
  {
    CriticalLine(threats) + WarningLine(threats) + DisplacementLine(threats)
  }

  /**
   * generate_recommendations: one line for the critical drops (naming the
   * first 3), one for the warnings (the first 5), one for the top-20
   * displacements (the first 3), in that order; a generic line when there
   * are threats but none of these, and "continue monitoring" when there
   * are none at all.
   */
  function Recommendations(threats: seq<Threat>): (r: seq<Advice>)
    ensures 1 <= |r| <= 3
  {
    if threats == [] then [NoThreatsAdvice]
    else if SpecificAdvice(threats) == [] then [GenericAdvice]
    else SpecificAdvice(threats)
  }

  /** The list says "continue monitoring" exactly when there is nothing to report, and then says only that. */
  lemma RecommendationsNoThreats(threats: seq<Threat>)
    ensures NoThreatsAdvice in Recommendations(threats) <==> threats == []
    ensures Recommendations(threats) == [NoThreatsAdvice] <==> threats == []
  {
    var r := Recommendations(threats);
    if threats != [] {
      assert NoThreatsAdvice !in r by {
        if SpecificAdvice(threats) != [] {
          assert r == SpecificAdvice(threats);
        }
      }
      assert [NoThreatsAdvice][0] == NoThreatsAdvice;
    }
  }

  /** The generic line is given exactly when there are threats but no critical drop, warning drop or top-20 displacement. */
  lemma RecommendationsGeneric(threats: seq<Threat>)
    ensures Recommendations(threats) == [GenericAdvice] <==>
      && threats != []
      && (forall t :: t in threats ==> !IsCriticalDrop(t) && !IsWarningDrop(t) && !IsTopDisplacement(t))
  {
    var sp := SpecificAdvice(threats);
    assert sp == [] <==> CriticalLine(threats) == [] && WarningLine(threats) == [] && DisplacementLine(threats) == [];
    if sp != [] {
      assert sp[0] in sp;
    }
  }

  /** With a critical drop, the first line names the keywords of the first three critical drops, in order. */
  lemma RecommendationsCriticalFirst(threats: seq<Threat>)
    requires exists t :: t in threats && IsCriticalDrop(t)
    ensures Recommendations(threats)[0] == CriticalAdvice(KeywordsOf(Take(Filter(threats, IsCriticalDrop), 3)))
  {
    assert CriticalLine(threats) != [];
  }

  // ------------------------------------------------------------ the analyses as the source runs them

  /** `keys` and `groups` are the keyword order and the groups of `h`. */
  ghost predicate Grouped(h: seq<HistoryRecord>, keys: seq<string>, groups: map<string, seq<HistoryRecord>>)
  {
    && keys == Keywords(h)
    && (forall k :: k in groups <==> k in keys)
    && (forall k :: k in groups ==> groups[k] == Group(h, k))
  }

  /** `keyword_data[record['keyword']].append(record)` keeps the grouping up to date. */
  lemma GroupedStep(h: seq<HistoryRecord>, i: nat, keys: seq<string>, groups: map<string, seq<HistoryRecord>>)
    requires i < |h| && Grouped(h[..i], keys, groups)
    ensures var k := h[i].keyword;
      Grouped(h[..i + 1], if k in groups then keys else keys + [k],
              groups[k := (if k in groups then groups[k] else []) + [h[i]]])
  {
    KeywordsStep(h, i);
    KeywordsComplete(h[..i], h[i].keyword);
  }

  /** The grouping loop: keys in order of first appearance, each with its records. */
  method GroupByKeyword(history: seq<HistoryRecord>) returns (keys: seq<string>, groups: map<string, seq<HistoryRecord>>)
    ensures keys == Keywords(history)
    ensures forall k :: k in groups <==> k in keys
    ensures forall k :: k in groups ==> groups[k] == Group(history, k)
  {
    keys, groups := [], map[];
    for i := 0 to |history|
      invariant Grouped(history[..i], keys, groups)
    {
      var r := history[i];
      GroupedStep(history, i, keys, groups);
      var records := if r.keyword in groups then groups[r.keyword] else [];
      if r.keyword !in groups {
        keys := keys + [r.keyword];
      }
      groups := groups[r.keyword := records + [r]];
    }
    assert history[..|history|] == history;
  }

  /** analyze_position_changes on a history already read from the store. */
  method AnalyzePositionChanges(history: seq<HistoryRecord>) returns (threats: seq<Threat>)
    ensures threats == PositionDrops(history)
  {
    if history == [] {
      return [];
    }
    var keys, groups := GroupByKeyword(history);
    threats := [];
    for i := 0 to |keys|
      invariant threats == Gather(keys[..i], DropOf(history))
    {
      GatherStep(keys, DropOf(history), i);
      var t := DropThreat(keys[i], groups[keys[i]]);
      if t.Some? {
        threats := threats + [t.value];
      }
    }
    assert keys[..|keys|] == keys;
  }

  /** detect_displacements on a history already read from the store. */
  method DetectDisplacements(history: seq<HistoryRecord>) returns (displacements: seq<Threat>)
    ensures displacements == Displacements(history)
  {
    if |history| < 2 {
      return [];
    }
    var keys, groups := GroupByKeyword(history);
    displacements := [];
    for i := 0 to |keys|
      invariant displacements == Gather(keys[..i], DisplacementOf(history))
    {
      GatherStep(keys, DisplacementOf(history), i);
      var records := groups[keys[i]];
      if |records| >= 2 {
        var t := DisplacementThreat(keys[i], records);
        if t.Some? {
          displacements := displacements + [t.value];
        }
      }
    }
    assert keys[..|keys|] == keys;
  }

  /** assess_overall_situation on a history already read from the store. */
  method AssessOverallSituation(history: seq<HistoryRecord>) returns (assessment: Assessment)
    ensures assessment == Assess(history)
  {
    if |history| < 3 {
      return DefaultAssessment;
    }
    var keys, groups := GroupByKeyword(history);
    var trends := [];
    for i := 0 to |keys|
      invariant trends == Gather(keys[..i], TrendFor(history))
    {
      GatherStep(keys, TrendFor(history), i);
      var records := groups[keys[i]];
      assert TrendFor(history)(keys[i]) == TrendOf(keys[i], records);
      if |records| >= 3 {
        var t := TrendOf(keys[i], records);
        if t.Some? {
          trends := trends + [t.value];
        }
      }
    }
    assert keys[..|keys|] == keys;
    assessment := Summarise(trends);
  }

  /** The report of analyze_project (its date-stamp and its always-empty warnings list aside). */
  datatype Analysis = Analysis(projectName: string, domain: string, threats: seq<Threat>,
                               recommendations: seq<Advice>, assessment: Assessment)

  lemma {:induction false} GatherKinds(h: seq<HistoryRecord>, keys: seq<string>)
    ensures forall t :: t in Gather(keys, DropOf(h)) ==> t.PositionDrop?
    ensures forall t :: t in Gather(keys, DisplacementOf(h)) ==> t.Displacement?
  {
    forall t | t in Gather(keys, DropOf(h))
      ensures t.PositionDrop?
    {
      GatherMembers(keys, DropOf(h), t);
    }
    forall t | t in Gather(keys, DisplacementOf(h))
      ensures t.Displacement?
    {
      GatherMembers(keys, DisplacementOf(h), t);
    }
  }

  lemma KindsOrdered(ds: seq<Threat>, ps: seq<Threat>)
    requires forall t :: t in ds ==> t.PositionDrop?
    requires forall t :: t in ps ==> t.Displacement?
    ensures forall i, j :: 0 <= i < j < |ds + ps| && (ds + ps)[i].Displacement? ==> (ds + ps)[j].Displacement?
  {
    var ts := ds + ps;
    assert forall k :: 0 <= k < |ds| ==> ts[k] == ds[k] && ds[k] in ds;
    assert forall k :: |ds| <= k < |ts| ==> ts[k] == ps[k - |ds|] && ps[k - |ds|] in ps;
  }

  /** Drops come first: once a displacement appears, only displacements follow. */
  lemma DropsBeforeDisplacements(week: seq<HistoryRecord>, month: seq<HistoryRecord>)
    ensures var ts := PositionDrops(week) + Displacements(month);
      forall i, j :: 0 <= i < j < |ts| && ts[i].Displacement? ==> ts[j].Displacement?
  {
    GatherKinds(week, Keywords(week));
    GatherKinds(month, Keywords(month));
    KindsOrdered(PositionDrops(week), Displacements(month));
  }

  /** `list.extend` after an emptiness test is an unconditional concatenation. */
  lemma ExtendNonEmpty<T>(a: seq<T>, b: seq<T>)
    ensures a + b == if b != [] then a + b else a
    ensures [] + b == b
  {
  }

  /**
   * analyze_project: the drops over the last `DaysToAnalyze` days followed by
   * the displacements over the last `DisplacementDays` days, the overall
   * assessment, and recommendations only when something was found.
   */
  method AnalyzeProject(projectName: string, domain: string, week: seq<HistoryRecord>, month: seq<HistoryRecord>)
    returns (report: Analysis)
    ensures report.projectName == projectName && report.domain == domain
    ensures report.threats == PositionDrops(week) + Displacements(month)
    ensures report.assessment == Assess(week)
    ensures report.recommendations != [] <==> report.threats != []
    ensures report.threats != [] ==> report.recommendations == Recommendations(report.threats)
  {
    var threats := [];
    var drops := AnalyzePositionChanges(week);
    ExtendNonEmpty(threats, drops);
    if drops != [] {
      threats := threats + drops;
    }
    var displacements := DetectDisplacements(month);
    ExtendNonEmpty(threats, displacements);
    if displacements != [] {
      threats := threats + displacements;
    }
    var assessment := AssessOverallSituation(week);
    var recommendations := [];
    if threats != [] {
      recommendations := Recommendations(threats);
    }
    report := Analysis(projectName, domain, threats, recommendations, assessment);
  }
}
