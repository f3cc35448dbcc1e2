/** The `/brain` summary command (extensions/brain-guard/src/command.ts):
    the history of the last few days grouped by kind, with each kind's trend,
    and the five most recent entries. The report is kept structured; its
    wording and emoji are not modelled. */
module Command {
  import opened Types
  import opened Storage

  const DefaultCommandDays := 7
  const RecentShown := 5
  const PreviewLength: nat := 40
  const MsPerMinute := 60000
  const MsPerHour := 3600000
  const MsPerDay := 86400000

  // ---------------------------------------------------------------------
  // The days argument

  /** The characters `String.prototype.trim` removes. */
  predicate IsSpace(c: char) {
    || c == ' ' || c == '\t' || c == '\n' || c == '\r' || c == '\U{B}' || c == '\U{C}'
    || c == '\U{A0}' || c == '\U{1680}' || ('\U{2000}' <= c <= '\U{200A}')
    || c == '\U{2028}' || c == '\U{2029}' || c == '\U{202F}' || c == '\U{205F}'
    || c == '\U{3000}' || c == '\U{FEFF}'
  }

  function TrimStart(s: string): (r: string)
    ensures |r| <= |s| && r == s[|s| - |r|..]
    ensures forall i :: 0 <= i < |s| - |r| ==> IsSpace(s[i])
    ensures r != [] ==> !IsSpace(r[0])
  {
    if s != [] && IsSpace(s[0]) then TrimStart(s[1..]) else s
  }

  function TrimEnd(s: string): (r: string)
    ensures |r| <= |s| && r == s[..|r|]
    ensures forall i :: |r| <= i < |s| ==> IsSpace(s[i])
    ensures r != [] ==> !IsSpace(r[|r| - 1])
  {
    if s != [] && IsSpace(s[|s| - 1]) then TrimEnd(s[..|s| - 1]) else s
  }

  /** Every character of `s` outside `s[i..j]` is a space. */
  predicate SpacesOutside(s: string, i: nat, j: nat) {
    forall k :: 0 <= k < |s| && (k < i || j <= k) ==> IsSpace(s[k])
  }

  /** `s.trim()`: `s` without its leading and trailing spaces. */
  function Trim(s: string): (r: string)
    ensures |r| <= |s|
    ensures exists i: nat, j: nat :: i <= j <= |s| && r == s[i..j] && SpacesOutside(s, i, j)
    ensures r != [] ==> !IsSpace(r[0]) && !IsSpace(r[|r| - 1])
  {
    var t := TrimStart(s);
    var r := TrimEnd(t);
    SliceWithSpacesAround(s, t, r);
    assert r != [] ==> r[0] == t[0];
    r
  }

  /** A suffix `t` of `s` with only spaces before it, and a prefix `r` of `t`
      with only spaces after it: `r` is a slice of `s` with only spaces
      around it. */
  lemma SliceWithSpacesAround(s: string, t: string, r: string)
    requires |t| <= |s| && t == s[|s| - |t|..]
    requires |r| <= |t| && r == t[..|r|]
    requires forall k :: 0 <= k < |s| - |t| ==> IsSpace(s[k])
    requires forall k :: |r| <= k < |t| ==> IsSpace(t[k])
    ensures exists i: nat, j: nat :: i <= j <= |s| && r == s[i..j] && SpacesOutside(s, i, j)
  {
    var i := |s| - |t|;
    var j := i + |r|;
    assert r == s[i..j];
    assert SpacesOutside(s, i, j) by {
      forall k | j <= k < |s| ensures IsSpace(s[k]) {
        assert s[k] == t[k - i];
      }
    }
  }

  predicate IsDigit(c: char) { '0' <= c <= '9' }

  /** The longest prefix of `s` made of decimal digits. */
  function LeadingDigits(s: string): (d: string)
    ensures d <= s
    ensures forall i :: 0 <= i < |d| ==> IsDigit(d[i])
    ensures |d| < |s| ==> !IsDigit(s[|d|])
  {
    if s != [] && IsDigit(s[0]) then [s[0]] + LeadingDigits(s[1..]) else []
  }

  function DigitValue(c: char): nat
    requires IsDigit(c)
  {
    c as int - '0' as int
  }

  /** The value of a string of decimal digits. */
  function DigitsValue(d: string): nat
    requires forall i :: 0 <= i < |d| ==> IsDigit(d[i])
  {
    if d == [] then 0 else DigitsValue(d[..|d| - 1]) * 10 + DigitValue(d[|d| - 1])
  }

  /** `parseInt(s, 10)` of a trimmed string: an optional sign followed by at
      least one digit; `None` stands for NaN. */
  function ParseInt(s: string): (n: Option<int>)
    ensures n.None? <==>
      s == [] || (!IsDigit(s[0]) && (!(s[0] == '-' || s[0] == '+') || |s| == 1 || !IsDigit(s[1])))
    ensures n.Some? && IsDigit(s[0]) ==> n.value == DigitsValue(LeadingDigits(s))
    ensures n.Some? && s[0] == '+' ==> n.value == DigitsValue(LeadingDigits(s[1..]))
    ensures n.Some? && s[0] == '-' ==> n.value + DigitsValue(LeadingDigits(s[1..])) == 0
  {
    var sign := if s != [] && (s[0] == '-' || s[0] == '+') then s[..1] else [];
    var digits := LeadingDigits(s[|sign|..]);
    var value: int := if digits == [] then 0 else DigitsValue(digits);
    if digits == [] then None
    else if sign == "-" then Some(-value)
    else Some(value)
  }

  /** The number of days the command reports on. A missing or blank argument,
      one that is not a number, and 0 all give 7. */
  function ParseDays(args: Option<string>): (days: int)
    ensures days != 0
    ensures args.None? ==> days == DefaultCommandDays
    ensures args.Some? && Trim(args.value) == "" ==> days == DefaultCommandDays
    ensures args.Some? && ParseInt(Trim(args.value)).None? ==> days == DefaultCommandDays
    ensures args.Some? && ParseInt(Trim(args.value)) == Some(0) ==> days == DefaultCommandDays
    ensures args.Some? && ParseInt(Trim(args.value)).Some? && ParseInt(Trim(args.value)).value != 0 ==>
      days == ParseInt(Trim(args.value)).value
  {
    match args
    case None => DefaultCommandDays
    case Some(a) =>
      var t := Trim(a);
      if t == "" then DefaultCommandDays
      else match ParseInt(t)
        case None => DefaultCommandDays
        case Some(n) => if n == 0 then DefaultCommandDays else n
  }

  /** The decimal digits of a natural number, without leading zeros. */
  function Decimal(n: nat): (s: string)
    ensures s != []
    ensures forall i :: 0 <= i < |s| ==> IsDigit(s[i])
    decreases n
  {
    var d := [('0' as int + n % 10) as char];
    if n < 10 then d else Decimal(n / 10) + d
  }

  lemma {:induction false} DecimalValue(n: nat)
    ensures DigitsValue(Decimal(n)) == n
    decreases n
  {
    var s := Decimal(n);
    if n >= 10 {
      DecimalValue(n / 10);
      assert s[..|s| - 1] == Decimal(n / 10);
    }
  }

  lemma {:induction false} LeadingDigitsOfDigits(s: string)
    requires forall i :: 0 <= i < |s| ==> IsDigit(s[i])
    ensures LeadingDigits(s) == s
  {
    if s != [] {
      LeadingDigitsOfDigits(s[1..]);
    }
  }

  lemma {:induction false} TrimStartPadded(pad: string, s: string)
    requires forall i :: 0 <= i < |pad| ==> IsSpace(pad[i])
    requires s != [] && !IsSpace(s[0])
    ensures TrimStart(pad + s) == s
  {
    if pad != [] {
      assert (pad + s)[1..] == pad[1..] + s;
      TrimStartPadded(pad[1..], s);
    } else {
      assert pad + s == s;
    }
  }

  lemma {:induction false} TrimEndPadded(s: string, pad: string)
    requires forall i :: 0 <= i < |pad| ==> IsSpace(pad[i])
    requires s != [] && !IsSpace(s[|s| - 1])
    ensures TrimEnd(s + pad) == s
  {
    if pad != [] {
      assert (s + pad)[..|s + pad| - 1] == s + pad[..|pad| - 1];
      TrimEndPadded(s, pad[..|pad| - 1]);
    } else {
      assert s + pad == s;
    }
  }

  /** Trimming removes the space padding on either side of a string that
      neither starts nor ends with a space. */
  lemma TrimPadded(left: string, s: string, right: string)
    requires forall i :: 0 <= i < |left| ==> IsSpace(left[i])
    requires forall i :: 0 <= i < |right| ==> IsSpace(right[i])
    requires s != [] && !IsSpace(s[0]) && !IsSpace(s[|s| - 1])
    ensures Trim(left + s + right) == s
  {
    assert left + s + right == left + (s + right);
    TrimStartPadded(left, s + right);
    TrimEndPadded(s, right);
  }

  /** A positive number of days written in decimal, with or without
      spaces before and after it, is read back as itself. */
  lemma ParseDaysDecimal(n: nat, left: string, right: string)
    requires n > 0
    requires forall i :: 0 <= i < |left| ==> IsSpace(left[i])
    requires forall i :: 0 <= i < |right| ==> IsSpace(right[i])
    ensures ParseDays(Some(left + Decimal(n) + right)) == n
  {
    var s := Decimal(n);
    assert !IsSpace(s[0]) && !IsSpace(s[|s| - 1]);
    TrimPadded(left, s, right);
    ParseIntDecimal(n);
  }

  /** `parseInt` reads the decimal digits of a natural number back. */
  lemma ParseIntDecimal(n: nat)
    ensures ParseInt(Decimal(n)) == Some(n)
  {
    var s := Decimal(n);
    assert s[0] != '-' && s[0] != '+';
    assert s[0..] == s;
    LeadingDigitsOfDigits(s);
    DecimalValue(n);
  }

  // ---------------------------------------------------------------------
  // getTimeAgo

  datatype TimeAgo = MinutesAgo(minutes: int) | HoursAgo(hours: int) | DaysAgo(days: int)

  /** `getTimeAgo` of an elapsed time in milliseconds: whole minutes under an
      hour, whole hours under a day, whole days beyond (each rounded down,
      as `Math.floor` does, also for a negative elapsed time). */
  function GetTimeAgo(diffMs: int): (t: TimeAgo)
    ensures t.MinutesAgo? <==> diffMs < MsPerHour
    ensures t.HoursAgo? <==> MsPerHour <= diffMs < MsPerDay
    ensures t.DaysAgo? <==> MsPerDay <= diffMs
    ensures t.MinutesAgo? ==> t.minutes * MsPerMinute <= diffMs < (t.minutes + 1) * MsPerMinute && t.minutes < 60
    ensures t.HoursAgo? ==> t.hours * MsPerHour <= diffMs < (t.hours + 1) * MsPerHour && 1 <= t.hours < 24
    ensures t.DaysAgo? ==> t.days * MsPerDay <= diffMs < (t.days + 1) * MsPerDay && t.days >= 1
  {
    var minutes := diffMs / MsPerMinute;
    var hours := diffMs / MsPerHour;
    var days := diffMs / MsPerDay;
    if minutes < 60 then MinutesAgo(minutes)
    else if hours < 24 then HoursAgo(hours)
    else DaysAgo(days)
  }

  // ---------------------------------------------------------------------
  // Grouping by kind

  /** The kinds of `es` in order of first occurrence: the key order of the
      Map that the command fills while walking the entries. */
  function FirstSeen(es: seq<Entry>): (ks: seq<PatternType>)
    ensures forall k :: k in ks <==> exists e :: e in es && e.pattern == k
    ensures forall a, b :: 0 <= a < b < |ks| ==> ks[a] != ks[b]
  {
    if es == [] then []
    else
      var init := es[..|es| - 1];
      var last := es[|es| - 1];
      var f := FirstSeen(init);
      assert forall e :: e in es <==> e in init || e == last;
      if last.pattern in f then f else f + [last.pattern]
  }

  /** Some entry of kind `x` comes before every entry of kind `y`. */
  ghost predicate OccursBefore(es: seq<Entry>, x: PatternType, y: PatternType) {
    exists i :: 0 <= i < |es| && es[i].pattern == x && forall j :: 0 <= j <= i ==> es[j].pattern != y
  }

  /** The kinds listed by `FirstSeen` are ordered by their first occurrence
      in the entries. */
  lemma {:induction false} FirstSeenOrder(es: seq<Entry>, a: nat, b: nat)
    requires a < b < |FirstSeen(es)|
    ensures OccursBefore(es, FirstSeen(es)[a], FirstSeen(es)[b])
  {
    var init := es[..|es| - 1];
    var x := es[|es| - 1];
    var f := FirstSeen(init);
    var ks := FirstSeen(es);
    assert es == init + [x];
    if b < |f| {
      assert ks[a] == f[a] && ks[b] == f[b];
      FirstSeenOrder(init, a, b);
      OccursBeforeExtended(init, x, f[a], f[b]);
    } else {
      assert ks == f + [x.pattern] && ks[b] == x.pattern && ks[a] == f[a];
      assert f[a] in f;
      OccursBeforeNewKind(init, x, f[a]);
    }
  }

  /** Appending an entry keeps an earlier first occurrence earlier. */
  lemma OccursBeforeExtended(es: seq<Entry>, x: Entry, p: PatternType, q: PatternType)
    requires OccursBefore(es, p, q)
    ensures OccursBefore(es + [x], p, q)
  {
    var i :| 0 <= i < |es| && es[i].pattern == p && forall j :: 0 <= j <= i ==> es[j].pattern != q;
    assert forall j :: 0 <= j <= i ==> (es + [x])[j] == es[j];
  }

  /** A kind already present occurs before a kind first seen in the
      appended entry. */
  lemma OccursBeforeNewKind(es: seq<Entry>, x: Entry, p: PatternType)
    requires p in FirstSeen(es) && x.pattern !in FirstSeen(es)
    ensures OccursBefore(es + [x], p, x.pattern)
  {
    var e :| e in es && e.pattern == p;
    var i :| 0 <= i < |es| && es[i] == e;
    forall j | 0 <= j <= i ensures (es + [x])[j].pattern != x.pattern {
      assert (es + [x])[j] == es[j] && es[j] in es;
      assert es[j].pattern in FirstSeen(es);
    }
    assert (es + [x])[i].pattern == p;
  }

  /** The number of entries of kind `k`. */
  function CountKind(es: seq<Entry>, k: PatternType): nat {
    if es == [] then 0
    else CountKind(es[..|es| - 1], k) + (if es[|es| - 1].pattern == k then 1 else 0)
  }

  lemma {:induction false} CountKindAbsent(es: seq<Entry>, k: PatternType)
    requires forall e :: e in es ==> e.pattern != k
    ensures CountKind(es, k) == 0
  {
    if es != [] {
      assert es[|es| - 1] in es;
      assert forall e :: e in es[..|es| - 1] ==> e in es;
      CountKindAbsent(es[..|es| - 1], k);
    }
  }

  /** The sum of the counts of the kinds `ks`. */
  function Total(ks: seq<PatternType>, es: seq<Entry>): nat {
    if ks == [] then 0 else Total(ks[..|ks| - 1], es) + CountKind(es, ks[|ks| - 1])
  }

  lemma {:induction false} TotalAppendEntry(ks: seq<PatternType>, es: seq<Entry>, x: Entry)
    ensures Total(ks, es + [x]) == Total(ks, es) + multiset(ks)[x.pattern]
  {
    assert (es + [x])[..|es + [x]| - 1] == es;
    if ks != [] {
      TotalAppendEntry(ks[..|ks| - 1], es, x);
      assert ks == ks[..|ks| - 1] + [ks[|ks| - 1]];
    }
  }

  lemma DistinctCountsOnce(ks: seq<PatternType>, k: PatternType)
    requires forall a, b :: 0 <= a < b < |ks| ==> ks[a] != ks[b]
    requires k in ks
    ensures multiset(ks)[k] == 1
  {
    var i :| 0 <= i < |ks| && ks[i] == k;
    assert ks == ks[..i] + [k] + ks[i + 1..];
    assert k !in ks[..i] && k !in ks[i + 1..];
  }

  /** The per-kind counts add up to the number of entries. */
  lemma {:induction false} KindCountsSumToTotal(es: seq<Entry>)
    ensures Total(FirstSeen(es), es) == |es|
  {
    if es != [] {
      var init := es[..|es| - 1];
      var x := es[|es| - 1];
      assert es == init + [x];
      var f := FirstSeen(init);
      KindCountsSumToTotal(init);
      TotalAppendEntry(f, init, x);
      if x.pattern in f {
        DistinctCountsOnce(f, x.pattern);
      } else {
        assert forall e :: e in init ==> e.pattern != x.pattern;
        CountKindAbsent(init, x.pattern);
        assert f + [x.pattern] == FirstSeen(es);
        assert (f + [x.pattern])[..|f|] == f;
      }
    }
  }

  // ---------------------------------------------------------------------
  // The report

  datatype KindLine = KindLine(pattern: PatternType, count: nat, trend: Trend)
  datatype RecentLine = RecentLine(ago: TimeAgo, pattern: PatternType, preview: string)
  datatype Report =
    | NoPatterns(days: int)
    | Summary(days: int, kinds: seq<KindLine>, recent: seq<RecentLine>)

  function SumCounts(lines: seq<KindLine>): nat {
    if lines == [] then 0 else SumCounts(lines[..|lines| - 1]) + lines[|lines| - 1].count
  }

  /** The line of one of the five most recent entries. */
  function RecentLineOf(e: Entry, now: int): (line: RecentLine)
    ensures line.pattern == e.pattern
    ensures line.ago == GetTimeAgo((now - e.date) * 1000)
    ensures |line.preview| == Min(|e.message|, PreviewLength) && line.preview <= e.message
  {
    RecentLine(GetTimeAgo((now - e.date) * 1000), e.pattern, Slice(e.message, PreviewLength))
  }

  lemma FirstSeenSnoc(es: seq<Entry>, e: Entry)
    ensures FirstSeen(es + [e]) ==
      if e.pattern in FirstSeen(es) then FirstSeen(es) else FirstSeen(es) + [e.pattern]
  {
    assert (es + [e])[..|es + [e]| - 1] == es;
  }

  lemma CountKindSnoc(es: seq<Entry>, e: Entry, k: PatternType)
    ensures CountKind(es + [e], k) == CountKind(es, k) + if e.pattern == k then 1 else 0
  {
    assert (es + [e])[..|es + [e]| - 1] == es;
  }

  /** The grouping loop: per-kind counts in a map whose key order is
      `order`, the order in which kinds first occur. */
  method GroupByKind(entries: seq<Entry>) returns (byType: map<PatternType, nat>, order: seq<PatternType>)
    ensures order == FirstSeen(entries)
    ensures forall k :: k in byType <==> k in order
    ensures forall k :: k in byType ==> byType[k] == CountKind(entries, k)
  {
    byType := map[];
    order := [];
    var i := 0;
    while i < |entries|
      invariant 0 <= i <= |entries|
      invariant order == FirstSeen(entries[..i])
      invariant forall k :: k in byType <==> k in order
      invariant forall k :: k in byType ==> byType[k] == CountKind(entries[..i], k)
    {
      var e := entries[i];
      assert entries[..i + 1] == entries[..i] + [e];
      FirstSeenSnoc(entries[..i], e);
      forall k ensures CountKind(entries[..i + 1], k) == CountKind(entries[..i], k) + if e.pattern == k then 1 else 0 {
        CountKindSnoc(entries[..i], e, k);
      }
      var c := if e.pattern in byType then byType[e.pattern] else 0;
      if e.pattern !in byType {
        CountKindAbsent(entries[..i], e.pattern);
        order := order + [e.pattern];
      }
      byType := byType[e.pattern := c + 1];
      i := i + 1;
    }
    assert entries[..i] == entries;
  }

  /** The line of one kind: its count and its own trend over the same days
      (the trend `getHistory` reports for that kind, by its contract). */
  function KindLineOf(rows: seq<Row>, k: PatternType, count: nat, days: int, now: int): KindLine {
    KindLine(k, count, CalculateTrend(rows, Some(k), days, now))
  }

  /** The loop over the map's entries, one line per kind in key order. */
  method KindLines(rows: seq<Row>, entries: seq<Entry>, byType: map<PatternType, nat>, order: seq<PatternType>,
                   days: int, now: int) returns (kinds: seq<KindLine>)
    requires forall k :: k in order ==> k in byType && byType[k] == CountKind(entries, k)
    ensures |kinds| == |order|
    ensures forall t :: 0 <= t < |order| ==> kinds[t] == KindLineOf(rows, order[t], CountKind(entries, order[t]), days, now)
  {
    kinds := [];
    var j := 0;
    while j < |order|
      invariant 0 <= j <= |order|
      invariant |kinds| == j
      invariant forall t :: 0 <= t < j ==> kinds[t] == KindLineOf(rows, order[t], CountKind(entries, order[t]), days, now)
    {
      var k := order[j];
      assert byType[k] == CountKind(entries, k);
      var line := KindLineOf(rows, k, byType[k], days, now);
      assert forall t :: 0 <= t < j ==> (kinds + [line])[t] == kinds[t];
      kinds := kinds + [line];
      j := j + 1;
    }
  }

  /** Lines carrying the counts of `order` add up to the counts' total. */
  lemma {:induction false} SumCountsOfLines(kinds: seq<KindLine>, order: seq<PatternType>, entries: seq<Entry>)
    requires |kinds| == |order|
    requires forall t :: 0 <= t < |order| ==> kinds[t].count == CountKind(entries, order[t])
    ensures SumCounts(kinds) == Total(order, entries)
  {
    if kinds != [] {
      SumCountsOfLines(kinds[..|kinds| - 1], order[..|order| - 1], entries);
    }
  }

  /** The loop over `entries.slice(0, 5)`. */
  method RecentLines(entries: seq<Entry>, now: int) returns (recent: seq<RecentLine>)
    ensures |recent| == Min(RecentShown, |entries|)
    ensures forall u :: 0 <= u < |recent| ==> recent[u] == RecentLineOf(entries[u], now)
  {
    var n := Min(RecentShown, |entries|);
    recent := [];
    var t := 0;
    while t < n
      invariant 0 <= t <= n
      invariant |recent| == t
      invariant forall u :: 0 <= u < t ==> recent[u] == RecentLineOf(entries[u], now)
    {
      recent := recent + [RecentLineOf(entries[t], now)];
      t := t + 1;
    }
  }

  /** `handleBrainCommand` at time `now` over the store's table. */
  method HandleBrainCommand(store: PatternStore, args: Option<string>, now: int) returns (report: Report)
    ensures report.days == ParseDays(args)
    ensures var h := GetHistory(store.rows, None, Some(report.days), now);
      && (report.NoPatterns? <==> h.entries == [])
      && (report.Summary? ==>
        && |report.kinds| == |FirstSeen(h.entries)|
        && (forall t :: 0 <= t < |report.kinds| ==>
              report.kinds[t] == KindLineOf(store.rows, FirstSeen(h.entries)[t],
                                            CountKind(h.entries, FirstSeen(h.entries)[t]), report.days, now))
        && (forall t :: 0 <= t < |report.kinds| ==>
              report.kinds[t].trend == GetHistory(store.rows, Some(report.kinds[t].pattern), Some(report.days), now).summary.trend)
        && SumCounts(report.kinds) == |h.entries|
        && |report.recent| == Min(RecentShown, |h.entries|)
        && (forall t :: 0 <= t < |report.recent| ==> report.recent[t] == RecentLineOf(h.entries[t], now)))
  {
    var days := ParseDays(args);
    var entries := GetHistory(store.rows, None, Some(days), now).entries;
    if |entries| == 0 {
      return NoPatterns(days);
    }
    var byType, order := GroupByKind(entries);
    var kinds := KindLines(store.rows, entries, byType, order, days, now);
    SumCountsOfLines(kinds, order, entries);
    KindCountsSumToTotal(entries);
    var recent := RecentLines(entries, now);
    report := Summary(days, kinds, recent);
  }
}
