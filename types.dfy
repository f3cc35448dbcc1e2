/** Value types shared by the BrainGuard store, tool, prompt and command
    (extensions/brain-guard/src/types.ts). Times are whole seconds. */
module Types {

  datatype Option<+T> = None | Some(value: T)

  /** The five observed cognitive patterns. */
  datatype PatternType = Delegation | NoReflection | Repetitive | Vocabulary | Clarity

  /** Direction of a pattern's frequency between two adjacent windows. */
  datatype Trend = Up | Down | Stable

  /** One earlier conversation message kept as context for a record. */
  datatype PreviousMessage = PreviousMessage(id: string, text: string)

  /** One row of the `patterns` table. */
  datatype Row = Row(
    id: int,
    timestamp: int,
    patternType: PatternType,
    message: string,
    messageId: Option<string>,
    previousMessages: Option<seq<PreviousMessage>>,
    context: Option<string>,
    sessionKey: Option<string>)

  /** One history entry: a row as `getHistory` hands it out (no id, no session key). */
  datatype Entry = Entry(
    date: int,
    pattern: PatternType,
    message: string,
    messageId: Option<string>,
    previousMessages: Option<seq<PreviousMessage>>,
    context: Option<string>)

  datatype HistorySummary = HistorySummary(count: nat, trend: Trend)

  datatype HistoryResult = HistoryResult(summary: HistorySummary, entries: seq<Entry>)

  function Min(a: int, b: int): int { if a <= b then a else b }

  /** JavaScript's `s.slice(0, n)` for n >= 0: the first min(|s|, n) characters. */
  function Slice(s: string, n: nat): (r: string)
    ensures |r| == Min(|s|, n)
    ensures r <= s
    ensures |s| <= n ==> r == s
  {
    if |s| <= n then s else s[..n]
  }
}
