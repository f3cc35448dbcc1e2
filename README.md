# BrainGuard pattern store, tool, reminders and summary — a Dafny model

BrainGuard is a plugin for an agent host. It watches a conversation for
cognitive patterns and records them. There are five pattern kinds:
delegation, no reflection, repetition, poor vocabulary and lack of
clarity. This project models the plugin's core in Dafny and proves
properties of that model:

- **The pattern store** (`storage.ts`). A `patterns` table with an
  AUTOINCREMENT id. `recordPattern` is its only write path: it cuts the
  message to 1000 characters and the context to 2000. `getHistory`
  lists a window of days, newest first. `calculateTrend` compares that
  window with the window of equal length before it, and classifies the
  result as up, down or stable.
- **The `brain_guard` tool** (`tool.ts`). It validates its arguments,
  then records a pattern or returns a history. Failures come back as
  results, never as exceptions.
- **Reminder injection** (`prompt.ts`). A message counter per session
  decides what each turn gets: the full methodology prompt on the first
  turn, a reminder every `reminderInterval` turns, and nothing otherwise.
- **The `/brain` summary command** (`command.ts`). It defaults the days
  argument and counts the entries per kind, with kinds in order of first
  occurrence. It shows each kind's trend, then the five latest entries,
  each with a 40-character preview and a minutes/hours/days age.

Files:

- `types.dfy` (module `Types`): the shared values (`types.ts`), plus
  `Trend` and the summary's `trend` field. `types.ts` does not declare
  them, but `storage.ts:142` and `command.ts:4-8` use them.
- `storage.dfy` (module `Storage`): the store as class `PatternStore`,
  holding `rows: seq<Row>` and the counter `nextId`. The two queries are
  functions over the rows.
- `tool.dfy` (module `Tool`): the pure validation and dispatch, and the
  tool method that runs on a store.
- `prompt.dfy` (module `Prompt`): class `PromptInjector`, which owns the
  map of counters per session.
- `command.dfy` (module `Command`): the days argument, the grouping and
  listing loops, and `getTimeAgo`.

Modelling choices:

- **Times.** Times are whole seconds, because SQLite's `datetime('now')`
  has one-second resolution. The current time is a parameter, `now`.
  `datetime('now', '-N days')` becomes `now - N*86400`. For a negative
  N the modifier text is `--N days`, and SQLite also rejects a "days"
  amount of 5,373,485 or more. In both cases the bound is NULL and no
  row is selected (`Storage.WindowStart`).
- **Storage errors.** An exception from the storage layer, such as an
  unwritable disk or a SQLite failure, is the tool's `fault` parameter.
- **What the code does, stated plainly.** Three consequences:
  - The history window has only a lower bound. Rows dated after `now`
    are listed too; there is no `<= now`.
  - Rows with equal timestamps come in no promised order. The model
    settles ties one way, and its contracts promise only "newest first"
    and "a permutation of the selected rows".
  - Record ids are integers from the AUTOINCREMENT counter, not UUIDs.

## Model

| member | source | states |
|---|---|---|
| `Types.Slice` | extensions/brain-guard/src/storage.ts:79 | `slice(0, n)`: the result has length min(\|s\|, n), is a prefix of s, and equals s when s is no longer than n |
| `Storage.NewRow` | extensions/brain-guard/src/storage.ts:72-84 | The inserted row holds exactly the first min(\|message\|, 1000) characters of the message. The context is absent iff none was given, and otherwise is exactly its first min(\|context\|, 2000) characters. Message id, previous messages and session key are stored verbatim. The row respects both caps |
| `Storage.PatternStore.constructor` | extensions/brain-guard/src/storage.ts:10-20 | An empty table whose AUTOINCREMENT counter starts at 1 |
| `Storage.PatternStore.RecordPattern` | extensions/brain-guard/src/storage.ts:63-87 | Appends exactly one row, `NewRow(id, now, params)`. Earlier rows are unchanged. The returned id is larger than every existing id. The counter advances by one. Ids stay strictly increasing and every row stays within the caps (`Valid`) |
| `Storage.WindowStart` | extensions/brain-guard/src/storage.ts:112 | `datetime('now', '-N days')`: NULL when N is negative (the modifier text is rejected) and when N is 5,373,485 or more (outside the modifier's range). Otherwise a bound at or before `now`, exactly N·86400 seconds earlier |
| `Storage.Select` | extensions/brain-guard/src/storage.ts:108-123 | The rows the history query selects: exactly the rows of the requested kind (any kind when absent) with timestamp >= the window start, each as many times as it occurs in the table |
| `Storage.ToEntries` | extensions/brain-guard/src/storage.ts:125-134 | `rows.map(...)`: one entry per selected row, in the same order. Each has the row's date, kind, message, message id, previous messages and context |
| `Storage.SortNewestFirst` | extensions/brain-guard/src/storage.ts:113 | `ORDER BY timestamp DESC`: the result is non-increasing by date and is a permutation of its input |
| `Storage.GetHistory` | extensions/brain-guard/src/storage.ts:100-146 | `summary.count` is the number of entries. The entries are newest first and are a permutation of the mapped selected rows, with the window defaulting to 7 days. `summary.trend` is `calculateTrend` for the same kind and days |
| `Storage.HistoryMembership` | extensions/brain-guard/src/storage.ts:108-134 | An entry is listed iff some row of the requested kind, inside the window, maps to it |
| `Storage.HistoryEntriesInWindow` | extensions/brain-guard/src/storage.ts:105-123 | Every entry matches the requested kind and has date >= now − days. With `days` absent, that is now − 7 days |
| `Storage.RecordedRowIsListed` | extensions/brain-guard/src/storage.ts:125-134 | A row just recorded is read back by a history query for its kind, or for all kinds, over any window of 0 to 5,373,484 days. Its previous messages come back exactly as recorded |
| `Storage.Classify` | extensions/brain-guard/src/storage.ts:166-170 | `stable` when the preceding count is 0. Otherwise `up` iff recent/preceding > 1.3, `down` iff recent/preceding < 0.7, and `stable` otherwise |
| `Storage.RatioComparisons` | extensions/brain-guard/src/storage.ts:167-169 | For a positive preceding count, the ratio tests equal the integer tests 10·recent > 13·preceding and 10·recent < 7·preceding |
| `Storage.CalculateTrend` | extensions/brain-guard/src/storage.ts:148-171 | With `recent` and `previous` the two `COUNT(*)` windows: stable when `previous` is 0. Otherwise up iff 10·recent > 13·previous and down iff 10·recent < 7·previous, which `RatioComparisons` shows are the ratio tests against 1.3 and 0.7 |
| `Storage.RecentCountIsSelectLength` | extensions/brain-guard/src/storage.ts:157-158 | The recent `COUNT(*)` equals the number of rows the history query selects for the same kind and days |
| `Storage.RecentCountIsHistoryCount` | extensions/brain-guard/src/storage.ts:157-158 | The trend's recent count equals the `summary.count` of `getHistory` for the same kind and days |
| `Storage.TrendWindowsPartition` | extensions/brain-guard/src/storage.ts:155-161 | The recent window [now−d, …) and the preceding window [now−2d, now−d) are disjoint. A NULL bound 2d back leaves the preceding window empty. Whenever the 2d bound exists, or both bounds are NULL, the two counts add up to the number of rows selected from now−2d on |
| `Storage.RejectedWindowListsNothing` | extensions/brain-guard/src/storage.ts:108-123 | For a negative number of days, or one of 5,373,485 or more, `getHistory` lists no entry and reports count 0, whatever the table holds |
| `Storage.TrendBoundaries` | extensions/brain-guard/src/storage.ts:166-170 | 13 against 10 is stable, 14/10 up, 7/10 stable, 6/10 down, and anything against 0 stable |
| `Tool.Dispatch` | extensions/brain-guard/src/tool.ts:48-75 | A record request arises iff action is `record`, a pattern is given and the message is non-empty. It carries that pattern, message and context, the context's session key, and no message id or previous messages. A missing pattern is rejected with an error starting "pattern", and this check comes before the message check. A missing or empty message is rejected with an error starting "message". `history` passes on the pattern and days. Any other action gives "Unknown action: " followed by the action |
| `Tool.HandleBrainGuardTool` | extensions/brain-guard/src/tool.ts:43-79 | Succeeds iff the request is valid and storage raises nothing. A rejection or storage fault yields `{success: false, error}` and leaves the table unchanged. A valid record yields `{success: true}` and appends exactly one `NewRow` under the next id. `history` yields `{success: true, data}`, with data equal to `getHistory(pattern, days)`, and leaves the table unchanged |
| `Tool.RecordRequestStores` | extensions/brain-guard/src/tool.ts:56-61 | A recorded tool call stores the message cut to 1000 characters, the context cut to 2000 (or none), and the caller's session key. Message id and previous messages are null |
| `Prompt.PromptFor` | extensions/brain-guard/src/prompt.ts:41-51 | After c earlier calls: the initial prompt iff c = 0; the reminder iff c > 0 and c mod interval = 0, where a zero interval never matches; "" otherwise |
| `Prompt.Step` | extensions/brain-guard/src/prompt.ts:37-51 | One call on the counter map: the key set gains the session key, that session's counter becomes its previous value (0 if absent) plus 1, and every other counter is kept. The prompt is the initial one iff the session had no counter or a zero counter |
| `Prompt.PromptInjector.constructor` | extensions/brain-guard/src/prompt.ts:28 | No session has a counter |
| `Prompt.PromptInjector.BuildBrainGuardPrompt` | extensions/brain-guard/src/prompt.ts:30-52 | The session key defaults to "default" and the interval to 10. The call raises that session's counter by exactly 1 and leaves every other counter unchanged. It returns the prompt for the previous count, which is the initial prompt when the session had no counter |
| `Prompt.PromptInjector.ResetSessionCount` | extensions/brain-guard/src/prompt.ts:54-56 | Removes that one key from the map |
| `Prompt.ResetRestartsSession` | extensions/brain-guard/src/prompt.ts:54-56 | After a reset, the next call for that session returns the initial prompt. The other sessions keep their counters |
| `Prompt.RunPrompts` | extensions/brain-guard/src/prompt.ts:37-51 | n consecutive calls on a session at count c return n prompts, call j getting `PromptFor(c + j)` |
| `Prompt.RunCounts` | extensions/brain-guard/src/prompt.ts:37-39 | After n > 0 calls on a session at count c, its counter is c + n. Every other session keeps its counter, and the key set is the old one plus that session |
| `Prompt.FreshSessionSchedule` | extensions/brain-guard/src/prompt.ts:37-51 | On a fresh session with interval i > 0, call number j returns a non-empty prompt iff j mod i = 0, so calls 0, i, 2i, … get a prompt. The counter ends at the number of calls |
| `Command.Trim` | extensions/brain-guard/src/command.ts:11 | `trim()`: the result is a contiguous slice of the input, everything outside it is white space, and it neither starts nor ends with white space |
| `Command.LeadingDigits` | extensions/brain-guard/src/command.ts:11 | The digit run that `parseInt` reads: the longest all-digit prefix |
| `Command.ParseInt` | extensions/brain-guard/src/command.ts:11 | `parseInt(s, 10)` on a trimmed string: NaN iff no digit follows the optional sign. Otherwise it is the value of the leading digit run, negated after a `-` |
| `Command.ParseDays` | extensions/brain-guard/src/command.ts:11 | The days argument is never 0. It is 7 when the argument is absent or blank, when `parseInt` gives NaN, and when it gives 0 (so "0", "-0" and "0abc" all give 7). Otherwise it is the integer `parseInt` reads from the trimmed argument, negative values included |
| `Command.ParseIntDecimal` | extensions/brain-guard/src/command.ts:11 | `parseInt` reads the decimal writing of every natural number back as that number |
| `Command.ParseDaysDecimal` | extensions/brain-guard/src/command.ts:11 | A positive count of days written in decimal, with any white space before it and any white space after it, is that count |
| `Command.GetTimeAgo` | extensions/brain-guard/src/command.ts:46-56 | Minutes iff the elapsed time is under 1 hour, hours iff it is from 1 hour up to 1 day, days from 1 day on. Each value is the elapsed time divided by the unit and rounded down, as `Math.floor` does |
| `Command.FirstSeen` | extensions/brain-guard/src/command.ts:20-23 | The Map's keys: exactly the kinds occurring in the entries, each once |
| `Command.FirstSeenOrder` | extensions/brain-guard/src/command.ts:28-32 | Kind lines follow first occurrence: for a kind listed before another, some entry of the first comes before every entry of the second |
| `Command.KindCountsSumToTotal` | extensions/brain-guard/src/command.ts:20-23 | The per-kind counts add up to the number of entries |
| `Command.GroupByKind` | extensions/brain-guard/src/command.ts:20-23 | The loop's map holds, for exactly the kinds that occur, the number of entries of that kind. Its insertion order is the order of first occurrence |
| `Command.KindLines` | extensions/brain-guard/src/command.ts:28-32 | One line per kind, in key order, with the kind's count and `calculateTrend` for that kind over the same days |
| `Command.SumCountsOfLines` | extensions/brain-guard/src/command.ts:28-32 | The counts shown on the kind lines add up to the sum of the kinds' counts |
| `Command.RecentLines` | extensions/brain-guard/src/command.ts:36-41 | min(5, \|entries\|) lines, in history order. Each holds the entry's age, its kind, and a preview of the first min(\|message\|, 40) characters |
| `Command.RecentLineOf` | extensions/brain-guard/src/command.ts:36-40 | One recent-entry line: the entry's kind, `getTimeAgo` of its age, and a preview that is the first min(\|message\|, 40) characters of the message |
| `Command.HandleBrainCommand` | extensions/brain-guard/src/command.ts:10-44 | Reports on `ParseDays(args)` days. The report is "no pattern" iff that history is empty. Otherwise it has one line per kind in first-occurrence order, with counts that sum to the number of entries. Each line's trend equals the `summary.trend` of `getHistory` for that kind. Then come the first min(5, n) entries |

## Left out

- SQLite and file-system plumbing (`getDb`, `closeDb`, the WAL pragma, the DDL, migrations that swallow errors, `mkdirSync`; storage.ts:1-61). These are foreign library calls and I/O. The table is the store's `rows`. `closeDb` only releases the handle, and the rows persist.
- The wall clock (`datetime('now')`, `new Date()`). It is the parameter `now`, in whole seconds. Timestamps are integers, not SQL datetime text. The source reads the clock once per statement: the entries query, the trend's `COUNT` statement and each `getTimeAgo` each read it separately. The model reads it once per call, so every read within a call sees the same `now`. `Storage.RecentCountIsHistoryCount` and `/brain`'s per-kind trends rest on this. If a second passes between two statements, a row dated exactly at the first bound can be counted in `summary.count` and not in the recent count.
- The JSON round trip of `previousMessages`. The sequence is stored as it is.
- Local-time parsing in `getTimeAgo`. `new Date(entry.date)` reads SQLite's UTC text as local time, so the real age is shifted by the host's time-zone offset. The model takes the age as `(now - date) * 1000` ms.
- Fractional `days` and `reminderInterval`. Both are JavaScript numbers in the source; the model takes integers.
- Pattern strings outside the five kinds. The host validates the tool's schema, so `pattern` is a `PatternType` or absent.
- The prompt texts, the emoji and the exact output strings. The prompts are opaque, distinct, non-empty constants, and the summary is a structured `Report`.
- Plugin glue in `index.ts`: host hooks, tool and command registration, and the `enabled` flag.
- Embeddings, similarity search, `search`, UUID ids and the in-memory backend. The plugin's sources do not implement them; only the tests call them.
- Storage.WindowStart: SQLite's date range is not modelled beyond the modifier limit. A bound that falls before Julian day 0 is NULL in SQLite, but the model gives a bound whenever N is below 5,373,485, because timestamps here have no fixed epoch.
- Storage.Classify: compares the exact rational ratio with 1.3 and 0.7, whereas the source compares an IEEE double quotient. The two agree for every realistic count, including the boundary 13/10. They could only differ for counts large enough that the rounding of the quotient crosses a threshold.
- Types.Slice: lengths count Unicode scalar values (Dafny characters), whereas JavaScript's `slice` and `length` count UTF-16 code units. Text outside the Basic Multilingual Plane therefore keeps up to twice as many code units as the source keeps, and a cut never splits a surrogate pair. For example, 1000 emoji are kept whole, where the source keeps 500.
- Storage.NewRow: the 1000 and 2000 caps, and `WellFormed`, are in scalar values, not UTF-16 code units (see `Types.Slice`), so the hard cap on stored code units is not captured for text outside the Basic Multilingual Plane.
- Command.RecentLineOf: the 40-character preview is counted in scalar values, not UTF-16 code units (see `Types.Slice`).
- Command.RecentLines: the 40-character preview is likewise counted in scalar values, not UTF-16 code units.
- Storage.SortNewestFirst: SQLite promises no order among rows with equal timestamps. The model's sort settles ties one particular way. Its contracts promise only newest-first order and a permutation. `HandleBrainCommand`'s kind order and its five recent entries are modelled for that one tie order.
- Command.ParseDays: `parseInt` is modelled for ASCII digits with an optional sign. A negative result is kept as the source keeps it, and then selects nothing (see `Storage.WindowStart`). JavaScript's loss of precision beyond 2^53 is not modelled.
