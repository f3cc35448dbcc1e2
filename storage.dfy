/** The pattern store (extensions/brain-guard/src/storage.ts): the `patterns`
    table as a sequence of rows with an AUTOINCREMENT counter, the single
    write path `recordPattern`, and the two queries `getHistory` and
    `calculateTrend` as functions over the rows. */
module Storage {
  import opened Types

  const MaxMessageLength: nat := 1000
  const MaxContextLength: nat := 2000
  const DefaultDays := 7
  const SecondsPerDay := 86400
  /** SQLite accepts a "days" modifier only below this magnitude. */
  const DaysModifierLimit := 5373485

  /** The arguments of `recordPattern`; an absent optional is `None`. */
  datatype RecordParams = RecordParams(
    patternType: PatternType,
    message: string,
    messageId: Option<string>,
    previousMessages: Option<seq<PreviousMessage>>,
    context: Option<string>,
    sessionKey: Option<string>)

  /** The truncation caps every stored row obeys. */
  predicate WellFormed(r: Row) {
    |r.message| <= MaxMessageLength && (r.context.Some? ==> |r.context.value| <= MaxContextLength)
  }

  /** The row `recordPattern` inserts under `id` at time `now`: message cut to
      1000 characters, context to 2000, everything else verbatim. */
  function NewRow(id: int, now: int, p: RecordParams): (r: Row)
    ensures r.id == id && r.timestamp == now && r.patternType == p.patternType
    ensures |r.message| == Min(|p.message|, MaxMessageLength) && r.message <= p.message
    ensures r.context.None? <==> p.context.None?
    ensures p.context.Some? ==>
      |r.context.value| == Min(|p.context.value|, MaxContextLength) && r.context.value <= p.context.value
    ensures r.messageId == p.messageId && r.previousMessages == p.previousMessages
    ensures r.sessionKey == p.sessionKey
    ensures WellFormed(r)
  {
    var context := match p.context
      case None => None
      case Some(c) => Some(Slice(c, MaxContextLength));
    Row(id, now, p.patternType, Slice(p.message, MaxMessageLength),
        p.messageId, p.previousMessages, context, p.sessionKey)
  }

  predicate IdsIncreasing(rows: seq<Row>) {
    forall i, j :: 0 <= i < j < |rows| ==> rows[i].id < rows[j].id
  }

  /** The SQLite table. Rows are only ever appended; `nextId` is the
      AUTOINCREMENT counter (no row is ever deleted, so it is one more than
      the largest id handed out, starting from 1). */
  class PatternStore {
    var rows: seq<Row>
    var nextId: int

    ghost predicate Valid()
      reads this
    {
      && 1 <= nextId
      && IdsIncreasing(rows)
      && (forall r :: r in rows ==> 1 <= r.id < nextId && WellFormed(r))
    }

    constructor ()
      ensures Valid() && rows == [] && nextId == 1
    {
      rows := [];
      nextId := 1;
    }

    /** `recordPattern`: append one row and return its id, which is larger
        than every id already in the table. */
    method RecordPattern(p: RecordParams, now: int) returns (id: int)
      requires Valid()
      modifies this
      ensures Valid()
      ensures id == old(nextId) && nextId == id + 1
      ensures rows == old(rows) + [NewRow(id, now, p)]
      ensures forall r :: r in old(rows) ==> r.id < id
    {
      id := nextId;
      rows := rows + [NewRow(id, now, p)];
      nextId := nextId + 1;
    }
  }

  // ---------------------------------------------------------------------
  // Time windows

  /** `datetime('now', '-<days> days')`. A negative count turns the modifier
      into '--<n> days', and a count of `DaysModifierLimit` or more is out of
      the modifier's range; SQLite rejects both and the bound is NULL. */
  function WindowStart(now: int, days: int): (start: Option<int>)
    ensures start.None? <==> days < 0 || days >= DaysModifierLimit
    ensures start.Some? ==> start.value <= now && now - start.value == days * SecondsPerDay
  {
    if days < 0 || days >= DaysModifierLimit then None else Some(now - days * SecondsPerDay)
  }

  /** `timestamp >= bound`; a comparison with NULL holds for no row. */
  predicate AtOrAfter(t: int, bound: Option<int>) {
    bound.Some? && bound.value <= t
  }

  /** `timestamp < bound`; a comparison with NULL holds for no row. */
  predicate Before(t: int, bound: Option<int>) {
    bound.Some? && t < bound.value
  }

  /** `pattern_type = ?` when a kind is given, no filter otherwise. */
  predicate KindMatches(kind: Option<PatternType>, k: PatternType) {
    kind.None? || kind.value == k
  }

  // ---------------------------------------------------------------------
  // getHistory

  /** The WHERE clause of the history query. */
  predicate Selected(r: Row, kind: Option<PatternType>, start: Option<int>) {
    KindMatches(kind, r.patternType) && AtOrAfter(r.timestamp, start)
  }

  /** The rows the history query selects, in table order. */
  function Select(rows: seq<Row>, kind: Option<PatternType>, start: Option<int>): (s: seq<Row>)
    ensures |s| <= |rows|
    ensures forall r :: r in s <==> r in rows && Selected(r, kind, start)
    ensures forall r :: Selected(r, kind, start) ==> multiset(s)[r] == multiset(rows)[r]
  {
    if rows == [] then []
    else
      var rest := Select(rows[1..], kind, start);
      assert rows == [rows[0]] + rows[1..];
      assert forall r :: r in rows <==> r == rows[0] || r in rows[1..];
      if Selected(rows[0], kind, start) then [rows[0]] + rest else rest
  }

  /** The row-to-entry mapping of `getHistory`. */
  function ToEntry(r: Row): Entry {
    Entry(r.timestamp, r.patternType, r.message, r.messageId, r.previousMessages, r.context)
  }

  function ToEntries(rows: seq<Row>): (es: seq<Entry>)
    ensures |es| == |rows|
    ensures forall i :: 0 <= i < |rows| ==> es[i] == ToEntry(rows[i])
  {
    seq(|rows|, i requires 0 <= i < |rows| => ToEntry(rows[i]))
  }

  /** `ORDER BY timestamp DESC`. */
  predicate NewestFirst(es: seq<Entry>) {
    forall i, j :: 0 <= i < j < |es| ==> es[i].date >= es[j].date
  }

  /** Putting an entry no older than every other in front keeps the order. */
  lemma PrependNewest(x: Entry, es: seq<Entry>)
    requires NewestFirst(es)
    requires forall y :: y in es ==> x.date >= y.date
    ensures NewestFirst([x] + es)
  {
    var r := [x] + es;
    forall i, j | 0 <= i < j < |r| ensures r[i].date >= r[j].date {
      assert r[j] == es[j - 1];
      if i > 0 { assert r[i] == es[i - 1]; }
    }
  }

  /** Every element of a newest-first sequence is no newer than its head. */
  lemma HeadIsNewest(es: seq<Entry>)
    requires NewestFirst(es) && es != []
    ensures forall y :: y in es ==> es[0].date >= y.date
  {
    forall y | y in es ensures es[0].date >= y.date {
      var k :| 0 <= k < |es| && es[k] == y;
    }
  }

  function InsertByDate(e: Entry, es: seq<Entry>): (r: seq<Entry>)
    requires NewestFirst(es)
    ensures NewestFirst(r)
    ensures forall y :: y in r ==> y == e || y in es
    ensures multiset(r) == multiset(es) + multiset{e}
  {
    if es == [] then [e]
    else if e.date >= es[0].date then
      HeadIsNewest(es);
      PrependNewest(e, es);
      [e] + es
    else
      var rest := InsertByDate(e, es[1..]);
      HeadIsNewest(es);
      PrependNewest(es[0], rest);
      assert es == [es[0]] + es[1..];
      [es[0]] + rest
  }

  /** A sort by date, newest first. SQLite promises no order among equal
      dates; this sort settles such ties one particular way. */
  function SortNewestFirst(es: seq<Entry>): (r: seq<Entry>)
    ensures NewestFirst(r)
    ensures multiset(r) == multiset(es)
  {
    if es == [] then []
    else
      assert es == [es[0]] + es[1..];
      InsertByDate(es[0], SortNewestFirst(es[1..]))
  }

  function DaysOrDefault(days: Option<int>): int {
    match days
    case None => DefaultDays
    case Some(d) => d
  }

  /** `getHistory`: the matching rows of the last `days` days (7 when
      absent), newest first, with their count and the trend. */
  function GetHistory(rows: seq<Row>, kind: Option<PatternType>, days: Option<int>, now: int): (h: HistoryResult)
    ensures h.summary.count == |h.entries|
    ensures NewestFirst(h.entries)
    ensures multiset(h.entries) == multiset(ToEntries(Select(rows, kind, WindowStart(now, DaysOrDefault(days)))))
    ensures h.summary.trend == CalculateTrend(rows, kind, DaysOrDefault(days), now)
  {
    var d := DaysOrDefault(days);
    var entries := SortNewestFirst(ToEntries(Select(rows, kind, WindowStart(now, d))));
    HistoryResult(HistorySummary(|entries|, CalculateTrend(rows, kind, d, now)), entries)
  }

  // ---------------------------------------------------------------------
  // calculateTrend

  datatype Window = Recent | Preceding

  /** The recent window is [now - days, ...) and the preceding one
      [now - 2*days, now - days). */
  predicate InWindow(r: Row, kind: Option<PatternType>, now: int, days: int, w: Window) {
    && KindMatches(kind, r.patternType)
    && match w
       case Recent => AtOrAfter(r.timestamp, WindowStart(now, days))
       case Preceding =>
         AtOrAfter(r.timestamp, WindowStart(now, 2 * days)) && Before(r.timestamp, WindowStart(now, days))
  }

  /** `SELECT COUNT(*)` over one window. */
  function CountIn(rows: seq<Row>, kind: Option<PatternType>, now: int, days: int, w: Window): nat {
    if rows == [] then 0
    else (if InWindow(rows[0], kind, now, days, w) then 1 else 0) + CountIn(rows[1..], kind, now, days, w)
  }

  /** The trend of two window counts. The source divides and compares the
      ratio with 1.3 and 0.7; the integer comparisons here decide the same. */
  function Classify(recent: nat, previous: nat): (t: Trend)
    ensures previous == 0 ==> t == Stable
    ensures previous > 0 ==> (t == Up <==> (recent as real) / (previous as real) > 1.3)
    ensures previous > 0 ==> (t == Down <==> (recent as real) / (previous as real) < 0.7)
  {
    if previous == 0 then Stable
    else
      RatioComparisons(recent, previous);
      if 10 * recent > 13 * previous then Up
      else if 10 * recent < 7 * previous then Down
      else Stable
  }

  /** For a positive divisor, comparing a quotient with c is comparing the
      dividend with c times the divisor. */
  lemma QuotientBounds(x: real, p: real, c: real)
    requires p > 0.0
    ensures x / p > c <==> x > c * p
    ensures x / p < c <==> x < c * p
  {
    var q := x / p;
    assert x == q * p;
    assert x - c * p == (q - c) * p;
    if q > c { assert (q - c) * p > 0.0; }
    if q < c { assert (c - q) * p > 0.0; }
    if q == c { assert (q - c) * p == 0.0; }
  }

  lemma RatioComparisons(recent: nat, previous: nat)
    requires previous > 0
    ensures (recent as real) / (previous as real) > 1.3 <==> 10 * recent > 13 * previous
    ensures (recent as real) / (previous as real) < 0.7 <==> 10 * recent < 7 * previous
  {
    QuotientBounds(recent as real, previous as real, 1.3);
    QuotientBounds(recent as real, previous as real, 0.7);
  }

  /** `calculateTrend`: compare the recent window with the preceding one.
      The thresholds are stated on whole counts; `RatioComparisons` shows
      they are the ratio tests against 1.3 and 0.7. */
  function CalculateTrend(rows: seq<Row>, kind: Option<PatternType>, days: int, now: int): (t: Trend)
    ensures var recent := CountIn(rows, kind, now, days, Recent);
      var previous := CountIn(rows, kind, now, days, Preceding);
      && (previous == 0 ==> t == Stable)
      && (previous > 0 ==> (t == Up <==> 10 * recent > 13 * previous))
      && (previous > 0 ==> (t == Down <==> 10 * recent < 7 * previous))
  {
    Classify(CountIn(rows, kind, now, days, Recent), CountIn(rows, kind, now, days, Preceding))
  }

  // ---------------------------------------------------------------------
  // Properties of the queries

  /** An entry is listed by `getHistory` exactly when some row of the table
      within the window and of the requested kind maps to it. */
  lemma HistoryMembership(rows: seq<Row>, kind: Option<PatternType>, days: Option<int>, now: int, e: Entry)
    ensures e in GetHistory(rows, kind, days, now).entries <==>
      exists r :: r in rows && Selected(r, kind, WindowStart(now, DaysOrDefault(days))) && ToEntry(r) == e
  {
    var sel := Select(rows, kind, WindowStart(now, DaysOrDefault(days)));
    var es := ToEntries(sel);
    var h := GetHistory(rows, kind, days, now);
    assert e in h.entries <==> e in multiset(h.entries);
    assert e in h.entries <==> e in es;
    if e in es {
      var i :| 0 <= i < |es| && es[i] == e;
      assert sel[i] in sel;
    }
    if r :| r in rows && Selected(r, kind, WindowStart(now, DaysOrDefault(days))) && ToEntry(r) == e {
      assert r in sel;
      var i :| 0 <= i < |sel| && sel[i] == r;
      assert es[i] == e;
    }
  }

  /** Every listed entry has the requested kind and lies in the window
      [now - days, ...), `days` being 7 when absent. */
  lemma HistoryEntriesInWindow(rows: seq<Row>, kind: Option<PatternType>, days: Option<int>, now: int)
    ensures forall e :: e in GetHistory(rows, kind, days, now).entries ==>
      && KindMatches(kind, e.pattern)
      && AtOrAfter(e.date, WindowStart(now, DaysOrDefault(days)))
      && (days.None? ==> e.date >= now - 7 * SecondsPerDay)
  {
    forall e | e in GetHistory(rows, kind, days, now).entries
      ensures KindMatches(kind, e.pattern) && AtOrAfter(e.date, WindowStart(now, DaysOrDefault(days)))
    {
      HistoryMembership(rows, kind, days, now, e);
    }
  }

  /** A row just recorded at time `now` is read back by a history query over
      a non-negative window that asks for its kind or for every kind, with its
      message, message id, previous messages and context as stored. */
  lemma RecordedRowIsListed(rows: seq<Row>, id: int, now: int, p: RecordParams, kind: Option<PatternType>, days: Option<int>)
    requires KindMatches(kind, p.patternType)
    requires 0 <= DaysOrDefault(days) < DaysModifierLimit
    ensures ToEntry(NewRow(id, now, p)) in GetHistory(rows + [NewRow(id, now, p)], kind, days, now).entries
    ensures ToEntry(NewRow(id, now, p)).previousMessages == p.previousMessages
  {
    var r := NewRow(id, now, p);
    assert r in rows + [r];
    HistoryMembership(rows + [r], kind, days, now, ToEntry(r));
  }

  lemma {:induction false} RecentCountIsSelectLength(rows: seq<Row>, kind: Option<PatternType>, days: int, now: int)
    ensures CountIn(rows, kind, now, days, Recent) == |Select(rows, kind, WindowStart(now, days))|
  {
    if rows != [] {
      RecentCountIsSelectLength(rows[1..], kind, days, now);
    }
  }

  /** The trend's recent count is the number of entries `getHistory` lists
      for the same kind and days. */
  lemma RecentCountIsHistoryCount(rows: seq<Row>, kind: Option<PatternType>, days: int, now: int)
    ensures CountIn(rows, kind, now, days, Recent) == GetHistory(rows, kind, Some(days), now).summary.count
  {
    RecentCountIsSelectLength(rows, kind, days, now);
    var sel := Select(rows, kind, WindowStart(now, days));
    var h := GetHistory(rows, kind, Some(days), now);
    assert |multiset(h.entries)| == |multiset(ToEntries(sel))|;
  }

  /** With a NULL bound the history query selects no row. */
  lemma {:induction false} SelectNothing(rows: seq<Row>, kind: Option<PatternType>)
    ensures Select(rows, kind, None) == []
  {
    if rows != [] {
      SelectNothing(rows[1..], kind);
    }
  }

  /** A negative or out-of-range number of days lists nothing, whatever the
      table holds. */
  lemma RejectedWindowListsNothing(rows: seq<Row>, kind: Option<PatternType>, days: int, now: int)
    requires days < 0 || days >= DaysModifierLimit
    ensures GetHistory(rows, kind, Some(days), now).entries == []
    ensures GetHistory(rows, kind, Some(days), now).summary.count == 0
  {
    SelectNothing(rows, kind);
    var h := GetHistory(rows, kind, Some(days), now);
    assert |multiset(h.entries)| == 0;
  }

  /** The two trend windows are disjoint. When the bound 2*days back is
      NULL the preceding window is empty; otherwise, or when both bounds are
      NULL, the two windows together make up [now - 2*days, ...). */
  lemma {:induction false} TrendWindowsPartition(rows: seq<Row>, kind: Option<PatternType>, days: int, now: int)
    ensures forall r :: !(InWindow(r, kind, now, days, Recent) && InWindow(r, kind, now, days, Preceding))
    ensures WindowStart(now, 2 * days).None? ==> CountIn(rows, kind, now, days, Preceding) == 0
    ensures WindowStart(now, 2 * days).Some? || WindowStart(now, days).None? ==>
      |Select(rows, kind, WindowStart(now, 2 * days))|
        == CountIn(rows, kind, now, days, Recent) + CountIn(rows, kind, now, days, Preceding)
  {
    if rows != [] {
      TrendWindowsPartition(rows[1..], kind, days, now);
    }
  }

  /** The boundary cases of the thresholds: a ratio of exactly 1.3 or 0.7 is
      stable. */
  lemma TrendBoundaries()
    ensures Classify(13, 10) == Stable && Classify(14, 10) == Up
    ensures Classify(7, 10) == Stable && Classify(6, 10) == Down
    ensures Classify(5, 0) == Stable
  {
  }
}
