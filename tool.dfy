/** The `brain_guard` tool (extensions/brain-guard/src/tool.ts): validate the
    arguments, then record a pattern or return its history. Failures are
    results, never exceptions. */
module Tool {
  import opened Types
  import opened Storage

  const PatternRequired := "pattern is required for record action"
  const MessageRequired := "message is required for record action"
  const UnknownActionPrefix := "Unknown action: "

  /** The tool's arguments. `action` is whatever string the caller sent. */
  datatype ToolParams = ToolParams(
    action: string,
    pattern: Option<PatternType>,
    message: Option<string>,
    context: Option<string>,
    days: Option<int>)

  /** `{ success, data?, error? }`. */
  datatype ToolResult = ToolResult(success: bool, data: Option<HistoryResult>, error: Option<string>)

  /** What a call asks for once its arguments are checked. */
  datatype Request =
    | RecordRequest(params: RecordParams)
    | HistoryRequest(kind: Option<PatternType>, days: Option<int>)
    | Rejected(error: string)

  /** JavaScript's `!params.message`: absent or empty. */
  predicate Blank(s: Option<string>) {
    s.None? || s.value == ""
  }

  /** The validation and dispatch of `handleBrainGuardTool`. A record needs a
      pattern first and a non-empty message second; the tool passes no
      message id or previous messages and takes the session key from its
      context. */
  function Dispatch(p: ToolParams, sessionKey: Option<string>): (q: Request)
    ensures q.RecordRequest? <==> p.action == "record" && p.pattern.Some? && !Blank(p.message)
    ensures q.RecordRequest? ==>
      q.params == RecordParams(p.pattern.value, p.message.value, None, None, p.context, sessionKey)
    ensures q.HistoryRequest? <==> p.action == "history"
    ensures q.HistoryRequest? ==> q.kind == p.pattern && q.days == p.days
    ensures p.action == "record" && p.pattern.None? ==> q.Rejected? && "pattern" <= q.error
    ensures p.action == "record" && p.pattern.Some? && Blank(p.message) ==> q.Rejected? && "message" <= q.error
    ensures p.action != "record" && p.action != "history" ==>
      q.Rejected? && q.error == UnknownActionPrefix + p.action && "Unknown action" <= q.error
  {
    if p.action == "record" then
      if p.pattern.None? then Rejected(PatternRequired)
      else if Blank(p.message) then Rejected(MessageRequired)
      else RecordRequest(RecordParams(p.pattern.value, p.message.value, None, None, p.context, sessionKey))
    else if p.action == "history" then
      HistoryRequest(p.pattern, p.days)
    else
      Rejected(UnknownActionPrefix + p.action)
  }

  /** `handleBrainGuardTool`. `fault` is the error raised by the storage layer
      (an unwritable disk, a SQLite failure) if it raises one; the tool turns
      it into a failed result with the table as it was. */
  method HandleBrainGuardTool(store: PatternStore, p: ToolParams, sessionKey: Option<string>,
                              now: int, fault: Option<string>) returns (r: ToolResult)
    requires store.Valid()
    modifies store
    ensures store.Valid()
    ensures var q := Dispatch(p, sessionKey);
      && (r.success <==> !q.Rejected? && fault.None?)
      && (q.Rejected? ==> r == ToolResult(false, None, Some(q.error)) && store.rows == old(store.rows))
      && (!q.Rejected? && fault.Some? ==> r == ToolResult(false, None, fault) && store.rows == old(store.rows))
      && (q.RecordRequest? && fault.None? ==>
            r == ToolResult(true, None, None)
            && store.rows == old(store.rows) + [NewRow(old(store.nextId), now, q.params)]
            && store.nextId == old(store.nextId) + 1)
      && (!(q.RecordRequest? && fault.None?) ==> store.nextId == old(store.nextId))
      && (q.HistoryRequest? && fault.None? ==>
            r == ToolResult(true, Some(GetHistory(old(store.rows), q.kind, q.days, now)), None)
            && store.rows == old(store.rows))
  {
    var q := Dispatch(p, sessionKey);
    match q
    case Rejected(e) =>
      r := ToolResult(false, None, Some(e));
    case RecordRequest(params) =>
      if fault.Some? {
        r := ToolResult(false, None, fault);
      } else {
        var _ := store.RecordPattern(params, now);
        r := ToolResult(true, None, None);
      }
    case HistoryRequest(kind, days) =>
      if fault.Some? {
        r := ToolResult(false, None, fault);
      } else {
        r := ToolResult(true, Some(GetHistory(store.rows, kind, days, now)), None);
      }
  }

  /** A successful record stores the message and context cut to their caps
      and the context's session key, with no message id or previous messages. */
  lemma RecordRequestStores(p: ToolParams, sessionKey: Option<string>, id: int, now: int)
    requires Dispatch(p, sessionKey).RecordRequest?
    ensures var row := NewRow(id, now, Dispatch(p, sessionKey).params);
      && row.patternType == p.pattern.value
      && row.message == Slice(p.message.value, MaxMessageLength)
      && (p.context.None? ==> row.context.None?)
      && (p.context.Some? ==> row.context == Some(Slice(p.context.value, MaxContextLength)))
      && row.sessionKey == sessionKey
      && row.messageId.None? && row.previousMessages.None?
  {
  }
}
