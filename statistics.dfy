/** The arithmetic half of the `/stats` command
    (server/api/telegram/webhook.post.ts, lines 70-91 and 134-140): counts
    by key, counts within trailing time windows, and the busiest UTC hour
    and weekday. Times are integer milliseconds since the epoch. */
module Statistics {
  import opened Types
  import opened Text

  /** A stored report as read back for statistics: its type, its urgency
      and its creation time. */
  datatype Entry = Entry(tipo: string, urgencia: string, createdAt: int)

  // ---------------------------------------------------------------------------
  // countBy.

  /** Number of occurrences of `k` in `xs`. */
  function Occurrences<K(==)>(xs: seq<K>, k: K): nat
  {
    if xs == [] then 0
    else Occurrences(xs[..|xs| - 1], k) + (if xs[|xs| - 1] == k then 1 else 0)
  }

  /** The tally after reading `xs` from left to right: every key seen maps
      to its count. */
  function Tally<K(==)>(xs: seq<K>): map<K, nat>
  {
    if xs == [] then map[]
    else
      var m := Tally(xs[..|xs| - 1]);
      var k := xs[|xs| - 1];
      m[k := (if k in m then m[k] else 0) + 1]
  }

  /** A key is in the tally exactly when it occurs, and then with its number
      of occurrences; so no key has count zero. */
  lemma {:induction false} TallyCounts<K>(xs: seq<K>)
    ensures forall k :: k in Tally(xs) <==> Occurrences(xs, k) > 0
    ensures forall k :: k in Tally(xs) ==> Tally(xs)[k] == Occurrences(xs, k) > 0
  {
    if xs != [] {
      TallyCounts(xs[..|xs| - 1]);
    }
  }

  /** The keys `f` gives the items, in item order. */
  function KeysOf<T, K>(items: seq<T>, f: T -> K): (ks: seq<K>)
    ensures |ks| == |items| && forall i :: 0 <= i < |items| ==> ks[i] == f(items[i])
  {
    seq(|items|, i requires 0 <= i < |items| => f(items[i]))
  }

  /** `countBy`: one pass over the items, adding one to the entry of each
      item's key. The result is the tally of the keys, so each key's count
      is its number of occurrences and no key has count zero. */
  method CountBy<T, K(==)>(items: seq<T>, f: T -> K) returns (acc: map<K, nat>)
    ensures acc == Tally(KeysOf(items, f))
    ensures forall k :: k in acc <==> Occurrences(KeysOf(items, f), k) > 0
    ensures forall k :: k in acc ==> acc[k] == Occurrences(KeysOf(items, f), k)
  {
    acc := map[];
    var i := 0;
    while i < |items|
      invariant 0 <= i <= |items|
      invariant acc == Tally(KeysOf(items[..i], f))
    {
      var key := f(items[i]);
      assert KeysOf(items[..i + 1], f)[..i] == KeysOf(items[..i], f);
      acc := acc[key := (if key in acc then acc[key] else 0) + 1];
      i := i + 1;
    }
    assert items[..i] == items;
    TallyCounts(KeysOf(items, f));
  }

  /** The keys of `xs` in order of first occurrence: the order in which
      `countBy` creates the entries of its result. */
  function FirstOccurrences<K(==)>(xs: seq<K>): seq<K>
  {
    if xs == [] then []
    else
      var prev := FirstOccurrences(xs[..|xs| - 1]);
      if xs[|xs| - 1] in xs[..|xs| - 1] then prev else prev + [xs[|xs| - 1]]
  }

  predicate Distinct<K(==)>(ks: seq<K>)
  {
    forall i, j :: 0 <= i < j < |ks| ==> ks[i] != ks[j]
  }

  lemma {:induction false} FirstOccurrencesKeys<K>(xs: seq<K>)
    ensures Distinct(FirstOccurrences(xs))
    ensures forall k :: k in FirstOccurrences(xs) <==> k in xs
  {
    if xs != [] {
      var init := xs[..|xs| - 1];
      FirstOccurrencesKeys(init);
      assert forall k :: k in xs <==> k in init || k == xs[|xs| - 1];
    }
  }

  /** The sum of the counts of `ks`. */
  function SumOver<K(==)>(m: map<K, nat>, ks: seq<K>): nat
  {
    if ks == [] then 0
    else (if ks[0] in m then m[ks[0]] else 0) + SumOver(m, ks[1..])
  }

  /** Adding one to a key counted once adds one to the sum. */
  lemma {:induction false} SumOverIncrement<K>(m: map<K, nat>, ks: seq<K>, k: K)
    requires Distinct(ks)
    ensures var m' := m[k := (if k in m then m[k] else 0) + 1];
      SumOver(m', ks) == SumOver(m, ks) + (if k in ks then 1 else 0)
  {
    if ks != [] {
      assert Distinct(ks[1..]) by {
        forall i, j | 0 <= i < j < |ks[1..]| ensures ks[1..][i] != ks[1..][j] {
          assert ks[1..][i] == ks[i + 1] && ks[1..][j] == ks[j + 1];
        }
      }
      SumOverIncrement(m, ks[1..], k);
      if ks[0] == k {
        assert k !in ks[1..] by {
          forall j | 0 <= j < |ks[1..]| ensures ks[1..][j] != k { assert ks[1..][j] == ks[j + 1]; }
        }
      } else {
        assert k in ks <==> k in ks[1..] by { assert ks == [ks[0]] + ks[1..]; }
      }
    }
  }

  lemma {:induction false} SumOverAppend<K>(m: map<K, nat>, ks: seq<K>, k: K)
    ensures SumOver(m, ks + [k]) == SumOver(m, ks) + (if k in m then m[k] else 0)
  {
    if ks != [] {
      assert (ks + [k])[1..] == ks[1..] + [k];
      SumOverAppend(m, ks[1..], k);
    }
  }

  /** The counts of all the keys, each counted once, add up to the number of
      items. */
  lemma {:induction false} TallySumsToLength<K>(xs: seq<K>)
    ensures SumOver(Tally(xs), FirstOccurrences(xs)) == |xs|
  {
    if xs != [] {
      var init := xs[..|xs| - 1];
      var k := xs[|xs| - 1];
      var m := Tally(init);
      TallySumsToLength(init);
      FirstOccurrencesKeys(init);
      SumOverIncrement(m, FirstOccurrences(init), k);
      if k !in init {
        TallyCounts(init);
        assert Occurrences(init, k) == 0 by { OccurrencesIn(init, k); }
        SumOverAppend(Tally(xs), FirstOccurrences(init), k);
      }
    }
  }

  lemma {:induction false} OccurrencesIn<K>(xs: seq<K>, k: K)
    ensures Occurrences(xs, k) > 0 <==> k in xs
  {
    if xs != [] {
      OccurrencesIn(xs[..|xs| - 1], k);
      assert k in xs <==> k in xs[..|xs| - 1] || k == xs[|xs| - 1] by {
        assert xs == xs[..|xs| - 1] + [xs[|xs| - 1]];
      }
    }
  }

  // ---------------------------------------------------------------------------
  // Time windows.

  const DayMs := 24 * 60 * 60 * 1000
  const WeekMs := 7 * DayMs
  const MonthMs := 30 * DayMs

  /** Number of entries created less than `window` milliseconds before `now`. */
  function CountWithin(entries: seq<Entry>, now: int, window: int): (n: nat)
    ensures n <= |entries|
  {
    if entries == [] then 0
    else CountWithin(entries[1..], now, window) + (if now - entries[0].createdAt < window then 1 else 0)
  }

  /** A wider window counts at least as many entries. */
  lemma {:induction false} CountWithinMonotone(entries: seq<Entry>, now: int, w1: int, w2: int)
    requires w1 <= w2
    ensures CountWithin(entries, now, w1) <= CountWithin(entries, now, w2)
  {
    if entries != [] {
      CountWithinMonotone(entries[1..], now, w1, w2);
    }
  }

  // ---------------------------------------------------------------------------
  // UTC hour and weekday.

  /** `getUTCHours`: the hour of the day, 0 to 23. */
  function UtcHour(ms: int): (h: int)
    ensures 0 <= h < 24
  {
    (ms % DayMs) / (60 * 60 * 1000)
  }

  /** `getUTCDay`: the weekday, 0 (Sunday) to 6; the epoch was a Thursday. */
  function UtcWeekday(ms: int): (d: int)
    ensures 0 <= d < 7
  {
    (ms / DayMs + 4) % 7
  }

  /** The weekday advances by one each day and the hour repeats daily. */
  lemma NextDay(ms: int)
    ensures UtcWeekday(ms + DayMs) == (UtcWeekday(ms) + 1) % 7
    ensures UtcHour(ms + DayMs) == UtcHour(ms)
  {
    assert (ms + DayMs) / DayMs == ms / DayMs + 1;
    assert (ms + DayMs) % DayMs == ms % DayMs;
  }

  // ---------------------------------------------------------------------------
  // Peak selection.

  /** `Object.keys` of a tally whose keys are integers below `n`: the keys in
      ascending numeric order. */
  function AscendingKeys(m: map<int, nat>, lo: int, n: int): (ks: seq<int>)
    ensures forall k :: k in ks <==> k in m && lo <= k < n
    ensures forall i, j :: 0 <= i < j < |ks| ==> ks[i] < ks[j]
    decreases n - lo
  {
    if lo >= n then []
    else
      var rest := AscendingKeys(m, lo + 1, n);
      assert forall j :: 0 <= j < |rest| ==> rest[j] in rest;
      if lo in m then [lo] + rest else rest
  }

  /** `keys.slice(1).reduce((a, b) => m[a] > m[b] ? a : b, acc)`: a key keeps
      its place only while it is strictly ahead. */
  function Reduce(m: map<int, nat>, ks: seq<int>, acc: int): int
    requires acc in m && forall i :: 0 <= i < |ks| ==> ks[i] in m
  {
    if ks == [] then acc
    else Reduce(m, ks[1..], if m[acc] > m[ks[0]] then acc else ks[0])
  }

  /** The reduction picks a key of greatest count, and of those the one
      latest in `ks`, or `acc` when every key of `ks` has a smaller count. */
  lemma {:induction false} ReduceIsLastMaximum(m: map<int, nat>, ks: seq<int>, acc: int)
    requires acc in m && forall i :: 0 <= i < |ks| ==> ks[i] in m
    requires acc !in ks && Distinct(ks)
    ensures var r := Reduce(m, ks, acc);
      (r == acc || r in ks) && r in m && m[acc] <= m[r] &&
      (forall k :: k in ks ==> m[k] <= m[r]) &&
      (r == acc ==> forall k :: k in ks ==> m[k] < m[r]) &&
      (forall i :: 0 <= i < |ks| && ks[i] == r ==> forall j :: i < j < |ks| ==> m[ks[j]] < m[r])
  {
    if ks != [] {
      var rest := ks[1..];
      var next := if m[acc] > m[ks[0]] then acc else ks[0];
      assert ks == [ks[0]] + rest;
      assert ks[0] !in rest by {
        forall j | 0 <= j < |rest| ensures rest[j] != ks[0] { assert rest[j] == ks[j + 1]; }
      }
      assert Distinct(rest) by {
        forall i, j | 0 <= i < j < |rest| ensures rest[i] != rest[j] {
          assert rest[i] == ks[i + 1] && rest[j] == ks[j + 1];
        }
      }
      assert next !in rest;
      ReduceIsLastMaximum(m, rest, next);
      var r := Reduce(m, ks, acc);
      assert r == Reduce(m, rest, next);
      forall i | 0 <= i < |ks| && ks[i] == r
        ensures forall j :: i < j < |ks| ==> m[ks[j]] < m[r]
      {
        if i > 0 {
          assert rest[i - 1] == r;
        } else {
          assert r == next && next == ks[0];
          forall j | i < j < |ks| ensures m[ks[j]] < m[r] { assert ks[j] == rest[j - 1]; }
        }
      }
    }
  }

  /** The busiest key: `None` (shown as 'N/A') when there are no keys. */
  function Peak(m: map<int, nat>, n: int): Option<int>
  {
    var ks := AscendingKeys(m, 0, n);
    assert forall i :: 0 <= i < |ks| ==> ks[i] in ks;
    if ks == [] then None else Some(Reduce(m, ks[1..], ks[0]))
  }

  /** The tail of a strictly ascending sequence is ascending, has no
      repeats and lies above the head. */
  lemma AscendingTail(ks: seq<int>)
    requires ks != [] && forall i, j :: 0 <= i < j < |ks| ==> ks[i] < ks[j]
    ensures Distinct(ks[1..]) && ks[0] !in ks[1..]
    ensures forall i, j :: 0 <= i < j < |ks[1..]| ==> ks[1..][i] < ks[1..][j]
    ensures forall k :: k in ks[1..] ==> k > ks[0]
  {
    var rest := ks[1..];
    forall i, j | 0 <= i < j < |rest| ensures rest[i] < rest[j] {
      assert rest[i] == ks[i + 1] && rest[j] == ks[j + 1];
    }
    forall k | k in rest ensures k > ks[0] {
      var j :| 0 <= j < |rest| && rest[j] == k;
      assert rest[j] == ks[j + 1];
    }
  }

  /** Over keys in ascending order, the reduction started at the first key
      picks a key of greatest count, and no larger key ties with it. */
  lemma ReduceAscending(m: map<int, nat>, ks: seq<int>)
    requires ks != [] && forall i :: 0 <= i < |ks| ==> ks[i] in m
    requires forall i, j :: 0 <= i < j < |ks| ==> ks[i] < ks[j]
    ensures var r := Reduce(m, ks[1..], ks[0]);
      r in ks && forall k :: k in ks ==> m[k] <= m[r] && (k > r ==> m[k] < m[r])
  {
    var rest := ks[1..];
    AscendingTail(ks);
    ReduceIsLastMaximum(m, rest, ks[0]);
    var r := Reduce(m, rest, ks[0]);
    assert ks == [ks[0]] + rest;
    TieGoesToLargest(m, ks, r);
  }

  /** The reduction's tie rule, read on ascending keys: a key larger than
      the one kept has a strictly smaller count. */
  lemma TieGoesToLargest(m: map<int, nat>, ks: seq<int>, r: int)
    requires ks != [] && forall i :: 0 <= i < |ks| ==> ks[i] in m
    requires forall i, j :: 0 <= i < j < |ks| ==> ks[i] < ks[j]
    requires r in m && (r == ks[0] || r in ks[1..])
    requires forall k :: k in ks[1..] ==> k > ks[0]
    requires r == ks[0] ==> forall k :: k in ks[1..] ==> m[k] < m[r]
    requires forall i :: 0 <= i < |ks[1..]| && ks[1..][i] == r ==>
      forall j :: i < j < |ks[1..]| ==> m[ks[1..][j]] < m[r]
    ensures forall k :: k in ks && k > r ==> m[k] < m[r]
  {
    var rest := ks[1..];
    assert ks == [ks[0]] + rest;
    forall k | k in ks && k > r ensures m[k] < m[r] {
      if r != ks[0] {
        assert k in rest;
        LaterKeyCountsLess(m, rest, r, k);
      }
    }
  }

  /** In an ascending sequence a larger key comes later, so the
      reduction's "no later key ties" gives a strictly smaller count. */
  lemma LaterKeyCountsLess(m: map<int, nat>, ks: seq<int>, r: int, k: int)
    requires forall i, j :: 0 <= i < j < |ks| ==> ks[i] < ks[j]
    requires r in ks && k in ks && k > r && r in m && forall i :: 0 <= i < |ks| ==> ks[i] in m
    requires forall i :: 0 <= i < |ks| && ks[i] == r ==> forall j :: i < j < |ks| ==> m[ks[j]] < m[r]
    ensures m[k] < m[r]
  {
    var i :| 0 <= i < |ks| && ks[i] == r;
    var j :| 0 <= j < |ks| && ks[j] == k;
    assert i < j;
  }

  /** The peak exists exactly when some key is counted; it has the greatest
      count, and every larger key has a strictly smaller count, so a tie
      goes to the largest key. */
  lemma PeakIsLargestBusiest(m: map<int, nat>, n: int)
    requires forall k :: k in m ==> 0 <= k < n
    ensures Peak(m, n).None? <==> m == map[]
    ensures Peak(m, n).Some? ==>
      var r := Peak(m, n).value;
      r in m && forall k :: k in m ==> m[k] <= m[r] && (k > r ==> m[k] < m[r])
  {
    var ks := AscendingKeys(m, 0, n);
    if ks == [] {
      assert forall k :: k !in m;
    } else {
      assert forall i :: 0 <= i < |ks| ==> ks[i] in ks;
      ReduceAscending(m, ks);
    }
  }

  /** The text of a peak: the key in decimal, or 'N/A'. */
  function PeakLabel(p: Option<int>): string
  {
    match p
    case None => "N/A"
    case Some(k) => NumberToString(k, 10)
  }

  lemma PeakLabelNa(p: Option<int>)
    ensures PeakLabel(p) == "N/A" <==> p.None?
  {
    if p.Some? {
      var s := PeakLabel(p);
      assert s[|s| - 1] != 'A';
    }
  }

  // ---------------------------------------------------------------------------
  // calculateStatistics.

  datatype Stats = Stats(
    total: nat,
    today: nat,
    week: nat,
    month: nat,
    byType: map<string, nat>,
    byUrgency: map<string, nat>,
    peakHour: string,
    peakWeekday: string)

  function TipoOf(e: Entry): string { e.tipo }
  function UrgenciaOf(e: Entry): string { e.urgencia }
  function HourOf(e: Entry): int { UtcHour(e.createdAt) }
  function WeekdayOf(e: Entry): int { UtcWeekday(e.createdAt) }

  /** The figures `calculateStatistics` reports for `entries` at time `now`. */
  function Figures(entries: seq<Entry>, now: int): Stats
  {
    Stats(
      |entries|,
      CountWithin(entries, now, DayMs),
      CountWithin(entries, now, WeekMs),
      CountWithin(entries, now, MonthMs),
      Tally(KeysOf(entries, TipoOf)),
      Tally(KeysOf(entries, UrgenciaOf)),
      PeakLabel(Peak(Tally(KeysOf(entries, HourOf)), 24)),
      PeakLabel(Peak(Tally(KeysOf(entries, WeekdayOf)), 7)))
  }

  /** `calculateStatistics`, with the clock as `now`: the counts are taken
      with `CountBy`, whose results are the tallies `Figures` names. */
  method CalculateStatistics(entries: seq<Entry>, now: int) returns (stats: Stats)
    ensures stats == Figures(entries, now)
  {
    var total := |entries|;
    var today := CountWithin(entries, now, DayMs);
    var week := CountWithin(entries, now, WeekMs);
    var month := CountWithin(entries, now, MonthMs);
    var byType := CountBy(entries, TipoOf);
    var byUrgency := CountBy(entries, UrgenciaOf);
    var byHour := CountBy(entries, HourOf);
    var peakHour := PeakLabel(Peak(byHour, 24));
    var byWeekday := CountBy(entries, WeekdayOf);
    var peakWeekday := PeakLabel(Peak(byWeekday, 7));
    stats := Stats(total, today, week, month, byType, byUrgency, peakHour, peakWeekday);
  }

  /** What the figures promise: the windows nest inside the total, each
      type and urgency is counted as often as it occurs and never zero, the
      counts by type and by urgency each add up to the total, and the peaks
      are 'N/A' exactly when there are no entries. */
  lemma StatisticsFacts(entries: seq<Entry>, now: int)
    ensures var s := Figures(entries, now);
      s.today <= s.week <= s.month <= s.total == |entries|
    ensures var s := Figures(entries, now);
      forall k :: k in s.byType ==> s.byType[k] == Occurrences(KeysOf(entries, TipoOf), k) > 0
    ensures var s := Figures(entries, now);
      forall k :: k in s.byUrgency ==> s.byUrgency[k] == Occurrences(KeysOf(entries, UrgenciaOf), k) > 0
    ensures var s := Figures(entries, now);
      SumOver(s.byType, FirstOccurrences(KeysOf(entries, TipoOf))) == s.total
    ensures var s := Figures(entries, now);
      SumOver(s.byUrgency, FirstOccurrences(KeysOf(entries, UrgenciaOf))) == s.total
    ensures var s := Figures(entries, now);
      (s.peakHour == "N/A" <==> entries == []) && (s.peakWeekday == "N/A" <==> entries == [])
  {
    CountWithinMonotone(entries, now, DayMs, WeekMs);
    CountWithinMonotone(entries, now, WeekMs, MonthMs);
    TallyCounts(KeysOf(entries, TipoOf));
    TallyCounts(KeysOf(entries, UrgenciaOf));
    TallySumsToLength(KeysOf(entries, TipoOf));
    TallySumsToLength(KeysOf(entries, UrgenciaOf));
    PeakOfTimes(entries, HourOf, 24);
    PeakOfTimes(entries, WeekdayOf, 7);
  }

  /** A tally of hours or weekdays has its keys in range, and is empty
      exactly when there are no entries. */
  lemma PeakOfTimes(entries: seq<Entry>, f: Entry -> int, n: int)
    requires forall e :: 0 <= f(e) < n
    ensures PeakLabel(Peak(Tally(KeysOf(entries, f)), n)) == "N/A" <==> entries == []
  {
    var xs := KeysOf(entries, f);
    var m := Tally(xs);
    TallyCounts(xs);
    forall k | k in m ensures 0 <= k < n {
      OccurrencesIn(xs, k);
      var i :| 0 <= i < |xs| && xs[i] == k;
    }
    PeakIsLargestBusiest(m, n);
    PeakLabelNa(Peak(m, n));
    if entries != [] {
      OccurrencesIn(xs, xs[0]);
      assert xs[0] in m;
    }
  }
}
