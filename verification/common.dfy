/**
 * Shared vocabulary of the model: optional values, check timestamps, the
 * competitor entry handed from the result parser to the store, a stable sort
 * (the behaviour of Python's `list.sort` / `sorted` with a key), and the few
 * string operations the source applies to domains and URLs.
 */
module Common {

  datatype Option<+T> = None | Some(value: T)

  /** Microseconds in a day and in a second. */
  const DayMicros: nat := 86_400_000_000
  const SecondMicros: nat := 1_000_000

  /** A time of day in microseconds since midnight (`HH:MM:SS[.ffffff]`). */
  type TimeOfDay = t: nat | t < 86_400_000_000

  /**
   * A check date (day number) and time of day. The stored text forms
   * `YYYY-MM-DD` and `HH:MM:SS[.ffffff]` compare as strings in the same order
   * as these numbers, so ordering by `(check_date, check_time)` is ordering by Key.
   */
  datatype Clock = Clock(date: nat, time: TimeOfDay)

  function Key(c: Clock): (k: nat)
    ensures c.date * DayMicros <= k < (c.date + 1) * DayMicros
  {
    c.date * DayMicros + c.time
  }

  /** Lexicographic order on (date, time). */
  predicate Before(a: Clock, b: Clock)
  {
    a.date < b.date || (a.date == b.date && a.time < b.time)
  }

  lemma KeyOrdersClocks(a: Clock, b: Clock)
    ensures Key(a) < Key(b) <==> Before(a, b)
    ensures Key(a) == Key(b) <==> a == b
  {
    if a.date < b.date {
      assert (a.date + 1) * DayMicros <= b.date * DayMicros;
    } else if b.date < a.date {
      assert (b.date + 1) * DayMicros <= a.date * DayMicros;
    }
  }

  /** The time with its fractional seconds cut off (`time.split('.')[0]`). */
  function WholeSeconds(t: TimeOfDay): (r: TimeOfDay)
    ensures r <= t && t - r < SecondMicros && r % SecondMicros == 0
  {
    t - t % SecondMicros
  }

  /** What the reports read from monitoring_sessions for a session id: its name and start time. */
  datatype SessionInfo = SessionInfo(name: string, start: Clock)

  /** Whether a report was asked for one session (`if session_id:`; 0 counts as not asked). */
  predicate SessionAsked(session: Option<int>)
  {
    session.Some? && session.value != 0
  }

  /**
   * One competitor as produced by the result parser and consumed by the store:
   * the dictionary `{position, domain, url, title, snippet}`. An absent or null
   * position is None; an absent or null domain is "".
   */
  datatype CompetitorEntry = CompetitorEntry(
    position: Option<int>, domain: string, url: string, title: string, snippet: string)

  // ---------------------------------------------------------------- sorting

  ghost predicate SortedBy<T>(s: seq<T>, key: T -> int)
  {
    forall i, j :: 0 <= i < j < |s| ==> key(s[i]) <= key(s[j])
  }

  /** The elements of `s` whose key is `k`, in their order in `s`. */
  function KeyClass<T>(s: seq<T>, key: T -> int, k: int): (r: seq<T>)
    ensures |r| <= |s|
  {
    if s == [] then []
    else (if key(s[0]) == k then [s[0]] else []) + KeyClass(s[1..], key, k)
  }

  /** Places `x` before the first element whose key is not smaller than its own. */
  function Insert<T>(x: T, s: seq<T>, key: T -> int): (r: seq<T>)
    ensures multiset(r) == multiset(s) + multiset{x}
    ensures |r| == |s| + 1
    ensures r[0] == x || (s != [] && r[0] == s[0])
  {
    if s == [] || key(x) <= key(s[0]) then [x] + s
    else
      assert s == [s[0]] + s[1..];
      [s[0]] + Insert(x, s[1..], key)
  }

  lemma {:induction false} InsertSorted<T>(x: T, s: seq<T>, key: T -> int)
    requires SortedBy(s, key)
    ensures SortedBy(Insert(x, s, key), key)
  {
    if s != [] && key(x) > key(s[0]) {
      var rest := Insert(x, s[1..], key);
      InsertSorted(x, s[1..], key);
      assert key(s[0]) <= key(rest[0]);
      assert Insert(x, s, key) == [s[0]] + rest;
    }
  }

  lemma KeyClassCons<T>(x: T, s: seq<T>, key: T -> int, k: int)
    ensures KeyClass([x] + s, key, k) == (if key(x) == k then [x] else []) + KeyClass(s, key, k)
  {
    assert ([x] + s)[1..] == s;
  }

  /** Inserting `x` adds it in front of the elements with its key and leaves the other classes alone. */
  lemma {:induction false} InsertKeyClass<T>(x: T, s: seq<T>, key: T -> int, k: int)
    ensures KeyClass(Insert(x, s, key), key, k) == (if key(x) == k then [x] else []) + KeyClass(s, key, k)
  {
    var xs := if key(x) == k then [x] else [];
    if s == [] || key(x) <= key(s[0]) {
      assert Insert(x, s, key) == [x] + s;
      KeyClassCons(x, s, key, k);
    } else {
      var rest := Insert(x, s[1..], key);
      var h := if key(s[0]) == k then [s[0]] else [];
      assert h == [] || xs == [];
      assert s == [s[0]] + s[1..];
      calc {
        KeyClass(Insert(x, s, key), key, k);
        KeyClass([s[0]] + rest, key, k);
        { KeyClassCons(s[0], rest, key, k); }
        h + KeyClass(rest, key, k);
        { InsertKeyClass(x, s[1..], key, k); }
        h + (xs + KeyClass(s[1..], key, k));
        xs + (h + KeyClass(s[1..], key, k));
        { KeyClassCons(s[0], s[1..], key, k); }
        xs + KeyClass(s, key, k);
      }
    }
  }

  /**
   * Stable sort by an integer key: the result is ordered by key and is a
   * permutation of the input; SortByStable adds that it keeps the input order
   * among equal keys.
   */
  function SortBy<T>(s: seq<T>, key: T -> int): (r: seq<T>)
    ensures multiset(r) == multiset(s)
    ensures |r| == |s|
    ensures SortedBy(r, key)
  {
    if s == [] then []
    else
      assert s == [s[0]] + s[1..];
      InsertSorted(s[0], SortBy(s[1..], key), key);
      Insert(s[0], SortBy(s[1..], key), key)
  }

  /** Sorting keeps exactly the elements it was given. */
  lemma SortByMembers<T>(s: seq<T>, key: T -> int)
    ensures forall x :: x in SortBy(s, key) <==> x in s
  {
    var r := SortBy(s, key);
    assert forall x :: x in r <==> x in multiset(r);
    assert forall x :: x in s <==> x in multiset(s);
  }

  lemma {:induction false} SortByStable<T>(s: seq<T>, key: T -> int, k: int)
    ensures KeyClass(SortBy(s, key), key, k) == KeyClass(s, key, k)
  {
    if s != [] {
      SortByStable(s[1..], key, k);
      InsertKeyClass(s[0], SortBy(s[1..], key), key, k);
      KeyClassCons(s[0], s[1..], key, k);
      assert s == [s[0]] + s[1..];
    }
  }

  /** The elements of `s` that satisfy `p`, in their order (a SQL WHERE over a table, or a list comprehension's filter). */
  function Filter<T(!new)>(s: seq<T>, p: T -> bool): (r: seq<T>)
    ensures |r| <= |s|
    ensures forall x :: x in r <==> x in s && p(x)
    ensures (forall i :: 0 <= i < |s| ==> p(s[i])) ==> r == s
  {
    if s == [] then []
    else
      var init, f := s[..|s| - 1], Filter(s[..|s| - 1], p);
      FilterExtends(s, p, f);
      f + (if p(s[|s| - 1]) then [s[|s| - 1]] else [])
  }

  /** The step of `Filter`: its facts about all of `s` follow from those about all but the last element. */
  lemma {:induction false} FilterExtends<T>(s: seq<T>, p: T -> bool, f: seq<T>)
    requires s != [] && |f| <= |s| - 1
    requires forall x :: x in f <==> x in s[..|s| - 1] && p(x)
    requires (forall i :: 0 <= i < |s| - 1 ==> p(s[i])) ==> f == s[..|s| - 1]
    ensures var r := f + (if p(s[|s| - 1]) then [s[|s| - 1]] else []);
      && |r| <= |s|
      && (forall x :: x in r <==> x in s && p(x))
      && ((forall i :: 0 <= i < |s| ==> p(s[i])) ==> r == s)
  {
    var init := s[..|s| - 1];
    assert s == init + [s[|s| - 1]];
    assert forall x :: x in s <==> x in init || x == s[|s| - 1];
  }

  /** Filtering a concatenation filters each part and keeps the parts in order. */
  lemma {:induction false} FilterAppend<T(!new)>(a: seq<T>, b: seq<T>, p: T -> bool)
    ensures Filter(a + b, p) == Filter(a, p) + Filter(b, p)
    decreases |b|
  {
    if b == [] {
      assert a + b == a;
    } else {
      var init, last := b[..|b| - 1], b[|b| - 1];
      assert b == init + [last];
      assert a + b == (a + init) + [last];
      var tail := if p(last) then [last] else [];
      FilterSnoc(a + init, last, p);
      FilterSnoc(init, last, p);
      FilterAppend(a, init, p);
      ConcatAssociative(Filter(a, p), Filter(init, p), tail);
    }
  }

  lemma ConcatAssociative<T>(x: seq<T>, y: seq<T>, z: seq<T>)
    ensures (x + y) + z == x + (y + z)
  {
  }

  lemma {:induction false} FilterSnoc<T(!new)>(s: seq<T>, x: T, p: T -> bool)
    ensures Filter(s + [x], p) == Filter(s, p) + (if p(x) then [x] else [])
  {
    assert (s + [x])[..|s|] == s;
  }

  /** A sequence without repeated elements holds each element once. */
  lemma {:induction false} DistinctMultiset<T>(s: seq<T>)
    requires forall i, j :: 0 <= i < j < |s| ==> s[i] != s[j]
    ensures forall x :: multiset(s)[x] <= 1
  {
    if s != [] {
      var init := s[..|s| - 1];
      assert s == init + [s[|s| - 1]];
      DistinctMultiset(init);
      assert s[|s| - 1] !in init;
    }
  }

  lemma DistinctFromMultiset<T>(s: seq<T>, t: seq<T>)
    requires multiset(s) == multiset(t) && forall x :: multiset(t)[x] <= 1
    ensures forall i, j :: 0 <= i < j < |s| ==> s[i] != s[j]
  {
    forall i, j | 0 <= i < j < |s|
      ensures s[i] != s[j]
    {
      RepeatCounts(s, i, j);
    }
  }

  lemma RepeatCounts<T>(s: seq<T>, i: nat, j: nat)
    requires i < j < |s|
    ensures s[i] == s[j] ==> multiset(s)[s[i]] >= 2
  {
    assert s == s[..i] + [s[i]] + s[i + 1..j] + [s[j]] + s[j + 1..];
  }

  /** The index of the first element satisfying `p`, if any. */
  function FirstIndex<T>(s: seq<T>, p: T -> bool): (r: Option<nat>)
    ensures r.Some? ==> r.value < |s| && p(s[r.value])
    ensures r.Some? ==> forall j :: 0 <= j < r.value ==> !p(s[j])
    ensures r.None? ==> forall j :: 0 <= j < |s| ==> !p(s[j])
  {
    if s == [] then None
    else if p(s[0]) then Some(0)
    else
      match FirstIndex(s[1..], p)
      case None => None
      case Some(k) => Some(k + 1)
  }

  /** The first index is the one a left-to-right search stops at. */
  lemma FirstIndexAt<T>(s: seq<T>, p: T -> bool, i: nat)
    requires i < |s| && p(s[i]) && forall j :: 0 <= j < i ==> !p(s[j])
    ensures FirstIndex(s, p) == Some(i)
  {
  }

  lemma FirstIndexNone<T>(s: seq<T>, p: T -> bool)
    requires forall j :: 0 <= j < |s| ==> !p(s[j])
    ensures FirstIndex(s, p) == None
  {
  }

  // ---------------------------------------------------------------- strings

  /** The number a string of decimal digits spells, most significant digit first. */
  function DigitsValue(r: string): nat
    requires forall i :: 0 <= i < |r| ==> '0' <= r[i] <= '9'
  {
    if r == [] then 0 else 10 * DigitsValue(r[..|r| - 1]) + (r[|r| - 1] as int - 48)
  }

  /** Decimal digits without a superfluous leading zero: `str(n)`'s form for a natural `n`. */
  predicate CanonicalDigits(r: string)
  {
    && r != []
    && (forall i :: 0 <= i < |r| ==> '0' <= r[i] <= '9')
    && (|r| > 1 ==> r[0] != '0')
  }

  /** Python's `str(n)` for a natural number: the canonical digits that spell `n`. */
  function NatText(n: nat): (r: string)
    ensures CanonicalDigits(r) && DigitsValue(r) == n
  {
    if n < 10 then [DigitChar(n)] else NatText(n / 10) + [DigitChar(n % 10)]
  }

  function DigitChar(d: nat): (c: char)
    requires d < 10
    ensures '0' <= c <= '9' && c as int - 48 == d
  {
    (48 + d) as char
  }

  /** A canonical digit string whose first digit is not zero spells a positive number. */
  lemma {:induction false} DigitsValuePositive(r: string)
    requires CanonicalDigits(r) && r[0] != '0'
    ensures DigitsValue(r) >= 1
  {
    if |r| > 1 {
      var init := r[..|r| - 1];
      assert init[0] == r[0];
      DigitsValuePositive(init);
    }
  }

  /** `str` is the inverse of reading canonical digits: `str(int(r)) == r`. */
  lemma {:induction false} NatTextOfDigits(r: string)
    requires CanonicalDigits(r)
    ensures NatText(DigitsValue(r)) == r
  {
    var init, c := r[..|r| - 1], r[|r| - 1];
    assert r == init + [c];
    if init == [] {
      assert DigitChar(c as int - 48) == c;
    } else {
      assert init[0] == r[0];
      DigitsValuePositive(init);
      NatTextOfDigits(init);
      NatTextAppendDigit(init, c);
    }
  }

  /** Appending a digit to the text of a positive number spells ten times it plus that digit. */
  lemma {:induction false} NatTextAppendDigit(init: string, c: char)
    requires CanonicalDigits(init) && DigitsValue(init) >= 1 && NatText(DigitsValue(init)) == init
    requires '0' <= c <= '9'
    ensures NatText(DigitsValue(init + [c])) == init + [c]
  {
    var v, d := DigitsValue(init), c as int - 48;
    assert (init + [c])[..|init|] == init;
    assert DigitsValue(init + [c]) == 10 * v + d;
    DecimalShift(v, d);
    assert DigitChar(d) == c;
  }

  lemma {:induction false} DecimalShift(v: nat, d: nat)
    requires d < 10
    ensures (10 * v + d) / 10 == v && (10 * v + d) % 10 == d
  {
  }

  /** Python's `str(n)` for an integer: the digits of `|n|`, after a '-' exactly when `n` is negative. */
  function IntText(n: int): (r: string)
    ensures r != [] && (r[0] == '-' <==> n < 0)
    ensures n < 0 ==> CanonicalDigits(r[1..]) && DigitsValue(r[1..]) == -n
    ensures n >= 0 ==> CanonicalDigits(r) && DigitsValue(r) == n
  {
    if n < 0 then "-" + NatText(-n) else NatText(n)
  }

  /** The first elements of a sorted sequence are sorted. */
  lemma TakeSorted<T>(s: seq<T>, n: nat, key: T -> int)
    requires SortedBy(s, key)
    ensures SortedBy(Take(s, n), key)
  {
    assert forall i :: 0 <= i < |Take(s, n)| ==> Take(s, n)[i] == s[i];
  }

  lemma TakeMembers<T>(s: seq<T>, n: nat)
    ensures forall x :: x in Take(s, n) ==> x in s
  {
    assert forall i :: 0 <= i < |Take(s, n)| ==> Take(s, n)[i] == s[i];
  }

  /** Python's `s[:n]`. */
  function Take<T>(s: seq<T>, n: nat): (r: seq<T>)
    ensures |r| == if |s| <= n then |s| else n
    ensures r == s[..|r|]
  {
    if |s| <= n then s else s[..n]
  }

  /** Python's `s[:n]` for any integer `n`: a negative `n` drops that many elements from the end. */
  function PySlice<T>(s: seq<T>, n: int): (r: seq<T>)
    ensures |r| <= |s| && r == s[..|r|]
    ensures n >= 0 ==> r == Take(s, n)
    ensures n < 0 ==> |r| == if |s| + n < 0 then 0 else |s| + n
  {
    if n >= 0 then Take(s, n)
    else if |s| + n < 0 then []
    else s[..|s| + n]
  }

  predicate IsPrefix(p: string, s: string)
  {
    |p| <= |s| && s[..|p|] == p
  }

  /** Python's `p in s` on strings; the empty string is in every string. */
  predicate IsSubstring(p: string, s: string)
    decreases |s|
  {
    IsPrefix(p, s) || (s != [] && IsSubstring(p, s[1..]))
  }

  lemma {:induction false} SubstringOfItself(s: string)
    ensures IsSubstring(s, s)
  {
    assert s[..|s|] == s;
  }

  /**
   * Python's `s.replace(p, '')`: every non-overlapping occurrence, left to right.
   * A string without an occurrence comes back unchanged, and one with an
   * occurrence always loses at least one.
   */
  function RemoveAll(s: string, p: string): (r: string)
    requires p != []
    ensures |r| <= |s|
    ensures !IsSubstring(p, s) ==> r == s
    ensures IsSubstring(p, s) ==> |r| <= |s| - |p|
    decreases |s|
  {
    if |s| < |p| then
      SubstringFits(p, s);
      s
    else if s[..|p|] == p then RemoveAll(s[|p|..], p)
    else [s[0]] + RemoveAll(s[1..], p)
  }

  /** An occurrence is no longer than the string it occurs in. */
  lemma {:induction false} SubstringFits(p: string, s: string)
    ensures IsSubstring(p, s) ==> |p| <= |s|
    decreases |s|
  {
    if s != [] {
      SubstringFits(p, s[1..]);
    }
  }

  /** A pattern holding a character the string lacks does not occur in it. */
  lemma {:induction false} NotSubstringWithout(p: string, s: string, c: char)
    ensures c in p && c !in s ==> !IsSubstring(p, s)
    decreases |s|
  {
    if c in p && c !in s && |p| <= |s| {
      assert c in s[..|p|] ==> c in s;
    }
    if s != [] {
      assert c !in s ==> c !in s[1..];
      NotSubstringWithout(p, s[1..], c);
    }
  }

  /** A character that cannot start `p` passes through `RemoveAll` unchanged. */
  lemma RemoveAllCons(c: char, s: string, p: string)
    requires p != [] && c != p[0]
    ensures RemoveAll([c] + s, p) == [c] + RemoveAll(s, p)
  {
    assert ([c] + s)[1..] == s;
    if |[c] + s| >= |p| {
      assert ([c] + s)[..|p|][0] == c;
    }
  }

  /** A prefix none of whose characters can start `p` passes through `RemoveAll` unchanged. */
  lemma {:induction false} RemoveAllPassThrough(q: string, s: string, p: string)
    requires p != [] && forall i :: 0 <= i < |q| ==> q[i] != p[0]
    ensures RemoveAll(q + s, p) == q + RemoveAll(s, p)
  {
    if q == [] {
      assert q + s == s;
    } else {
      var tail := q[1..];
      assert forall i :: 0 <= i < |tail| ==> tail[i] == q[i + 1];
      assert q + s == [q[0]] + (tail + s);
      calc {
        RemoveAll(q + s, p);
        RemoveAll([q[0]] + (tail + s), p);
        { RemoveAllCons(q[0], tail + s, p); }
        [q[0]] + RemoveAll(tail + s, p);
        { RemoveAllPassThrough(tail, s, p); }
        [q[0]] + (tail + RemoveAll(s, p));
        { assert q == [q[0]] + tail; }
        q + RemoveAll(s, p);
      }
    }
  }

  /** An occurrence of `p` at the front is removed. */
  lemma RemoveAllPrefix(p: string, s: string)
    requires p != []
    ensures RemoveAll(p + s, p) == RemoveAll(s, p)
  {
    assert (p + s)[..|p|] == p;
    assert (p + s)[|p|..] == s;
  }

  /**
   * `r` is `s` with a run of `cs` characters cut off the front (the first `k`)
   * and another cut off the back.
   */
  ghost predicate StrippedAt(s: string, cs: set<char>, k: nat, r: string)
  {
    && k + |r| <= |s|
    && r == s[k..k + |r|]
    && (forall i :: 0 <= i < k ==> s[i] in cs)
    && (forall i :: k + |r| <= i < |s| ==> s[i] in cs)
  }

  /**
   * Python's `s.strip(chars)`: `s` without its longest leading and trailing runs
   * of `cs` characters; all of `s` goes when every character is in `cs`.
   */
  function Strip(s: string, cs: set<char>): (r: string)
    ensures |r| <= |s|
    ensures r != [] ==> r[0] !in cs && r[|r| - 1] !in cs
    ensures StrippedAt(s, cs, |s| - |StripLeft(s, cs)|, r)
  {
    var l := StripLeft(s, cs);
    var r := StripRight(l, cs);
    StripRightOfSuffix(s, cs, l, r);
    r
  }

  lemma {:induction false} StripRightOfSuffix(s: string, cs: set<char>, l: string, r: string)
    requires |l| <= |s| && l == s[|s| - |l|..] && forall i :: 0 <= i < |s| - |l| ==> s[i] in cs
    requires |r| <= |l| && r == l[..|r|] && forall i :: |r| <= i < |l| ==> l[i] in cs
    ensures StrippedAt(s, cs, |s| - |l|, r)
  {
    var k := |s| - |l|;
    assert forall i :: k <= i < |s| ==> s[i] == l[i - k];
    assert s[k..k + |r|] == l[..|r|];
  }

  /** What follows a string that does not consist of `cs` characters only is untouched by `lstrip`. */
  lemma {:induction false} StripLeftAppend(s: string, t: string, cs: set<char>)
    ensures StripLeft(s + t, cs) == if StripLeft(s, cs) == [] then StripLeft(t, cs) else StripLeft(s, cs) + t
    decreases |s|
  {
    if s == [] {
      assert s + t == t;
    } else if s[0] in cs {
      var u := s + t;
      assert u[0] == s[0] && u[1..] == s[1..] + t;
      assert StripLeft(u, cs) == StripLeft(s[1..] + t, cs);
      assert StripLeft(s, cs) == StripLeft(s[1..], cs);
      StripLeftAppend(s[1..], t, cs);
    } else {
      assert (s + t)[0] == s[0];
    }
  }

  /** A trailing character of `cs` does not change `strip`. */
  lemma {:induction false} StripIgnoresTrailing(s: string, c: char, cs: set<char>)
    requires c in cs
    ensures Strip(s + [c], cs) == Strip(s, cs)
  {
    StripLeftAppend(s, [c], cs);
    var l := StripLeft(s, cs);
    if l != [] {
      assert StripLeft(s + [c], cs) == l + [c];
      assert (l + [c])[..|l|] == l;
      assert StripRight(l + [c], cs) == StripRight(l, cs);
    } else {
      assert [c][1..] == [];
      assert StripLeft([c], cs) == [];
    }
  }

  /** Python's `s.lstrip(chars)`: every removed character is in `cs`, the first kept one is not. */
  function StripLeft(s: string, cs: set<char>): (r: string)
    ensures |r| <= |s| && r == s[|s| - |r|..]
    ensures forall i :: 0 <= i < |s| - |r| ==> s[i] in cs
    ensures r != [] ==> r[0] !in cs
  {
    if s != [] && s[0] in cs then StripLeft(s[1..], cs) else s
  }

  /** Python's `s.rstrip(chars)`: every removed character is in `cs`, the last kept one is not. */
  function StripRight(s: string, cs: set<char>): (r: string)
    ensures |r| <= |s| && r == s[..|r|]
    ensures forall i :: |r| <= i < |s| ==> s[i] in cs
    ensures r != [] ==> r[|r| - 1] !in cs
  {
    if s != [] && s[|s| - 1] in cs then StripRight(s[..|s| - 1], cs) else s
  }

  /**
   * The characters Python's argument-less `str.strip()` removes: those for
   * which `str.isspace()` holds (ASCII whitespace, the four information
   * separators, NEL, no-break space and the Unicode space separators).
   */
  const Whitespace: set<char> :=
    {
      '\U{0009}', '\U{000A}', '\U{000B}', '\U{000C}', '\U{000D}', '\U{001C}', '\U{001D}', '\U{001E}',
      '\U{001F}', '\U{0020}', '\U{0085}', '\U{00A0}', '\U{1680}', '\U{2000}', '\U{2001}', '\U{2002}',
      '\U{2003}', '\U{2004}', '\U{2005}', '\U{2006}', '\U{2007}', '\U{2008}', '\U{2009}', '\U{200A}',
      '\U{2028}', '\U{2029}', '\U{202F}', '\U{205F}', '\U{3000}'
    }

  /** `str.lower()` on Latin and basic Cyrillic capitals; other characters are kept. */
  function LowerChar(c: char): (r: char)
  {
    if 'A' <= c <= 'Z' then (c as int + 32) as char
    else if 'А' <= c <= 'Я' then (c as int + 32) as char
    else if c == 'Ё' then 'ё'
    else c
  }

  function Lower(s: string): (r: string)
    ensures |r| == |s|
    ensures forall i :: 0 <= i < |s| ==> r[i] == LowerChar(s[i])
  {
    if s == [] then [] else [LowerChar(s[0])] + Lower(s[1..])
  }
}
