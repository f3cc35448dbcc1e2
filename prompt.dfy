/** Reminder injection (extensions/brain-guard/src/prompt.ts): a message
    counter per session decides whether a turn gets the full methodology
    prompt, a short reminder, or nothing. */
module Prompt {
  import opened Types

  /** The two prompt texts; their wording is not modelled, only that they
      are distinct and non-empty. */
  const InitialPrompt := "<BrainGuard methodology prompt>"
  const ReminderPrompt := "<BrainGuard reminder prompt>"

  const DefaultSessionKey := "default"
  const DefaultReminderInterval := 10

  function SessionKeyOrDefault(k: Option<string>): string {
    match k
    case None => DefaultSessionKey
    case Some(s) => s
  }

  function IntervalOrDefault(i: Option<int>): int {
    match i
    case None => DefaultReminderInterval
    case Some(n) => n
  }

  /** The reminder test: the count is a multiple of the interval. For a count >= 0 JavaScript's
      remainder and Dafny's agree; a zero interval gives NaN, which equals
      nothing. */
  predicate ReminderDue(count: nat, interval: int) {
    interval != 0 && count % interval == 0
  }

  /** The prompt returned to a session that has already seen `count` calls. */
  function PromptFor(count: nat, interval: int): (s: string)
    ensures s == InitialPrompt <==> count == 0
    ensures s == ReminderPrompt <==> count > 0 && ReminderDue(count, interval)
    ensures s == "" <==> count > 0 && !ReminderDue(count, interval)
  {
    if count == 0 then InitialPrompt
    else if ReminderDue(count, interval) then ReminderPrompt
    else ""
  }

  /** The count recorded for a session; an absent key counts as 0. */
  function CountOf(counts: map<string, nat>, key: string): nat {
    if key in counts then counts[key] else 0
  }

  /** One call of `buildBrainGuardPrompt` on the counter map: the new map and
      the returned prompt. */
  function Step(counts: map<string, nat>, key: string, interval: int): (r: (map<string, nat>, string))
    ensures r.0.Keys == counts.Keys + {key}
    ensures key in r.0 && r.0[key] == CountOf(counts, key) + 1
    ensures forall k :: k in counts && k != key ==> r.0[k] == counts[k]
    ensures r.1 == InitialPrompt <==> key !in counts || counts[key] == 0
  {
    var c := CountOf(counts, key);
    (counts[key := c + 1], PromptFor(c, interval))
  }

  /** The prompts of `n` consecutive calls for one session, and the map after
      them. */
  function Run(counts: map<string, nat>, key: string, interval: int, n: nat): (map<string, nat>, seq<string>)
    decreases n
  {
    if n == 0 then (counts, [])
    else
      var first := Step(counts, key, interval);
      var rest := Run(first.0, key, interval, n - 1);
      (rest.0, [first.1] + rest.1)
  }

  /** The owner of the per-session counters (`sessionMessageCounts`). */
  class PromptInjector {
    var sessionMessageCounts: map<string, nat>

    constructor ()
      ensures sessionMessageCounts == map[]
    {
      sessionMessageCounts := map[];
    }

    /** `buildBrainGuardPrompt`: raise the session's counter by one and
        return the prompt its previous value calls for. */
    method BuildBrainGuardPrompt(sessionKey: Option<string>, reminderInterval: Option<int>) returns (s: string)
      modifies this
      ensures var key := SessionKeyOrDefault(sessionKey);
        && (sessionMessageCounts, s) == Step(old(sessionMessageCounts), key, IntervalOrDefault(reminderInterval))
        && sessionMessageCounts.Keys == old(sessionMessageCounts).Keys + {key}
        && sessionMessageCounts[key] == CountOf(old(sessionMessageCounts), key) + 1
        && (forall k :: k in old(sessionMessageCounts) && k != key ==>
              sessionMessageCounts[k] == old(sessionMessageCounts)[k])
        && (key !in old(sessionMessageCounts) ==> s == InitialPrompt)
    {
      var key := SessionKeyOrDefault(sessionKey);
      var interval := IntervalOrDefault(reminderInterval);
      var count := if key in sessionMessageCounts then sessionMessageCounts[key] else 0;
      sessionMessageCounts := sessionMessageCounts[key := count + 1];
      if count == 0 {
        return InitialPrompt;
      }
      if interval != 0 && count % interval == 0 {
        return ReminderPrompt;
      }
      return "";
    }

    /** `resetSessionCount`: forget one session's counter. */
    method ResetSessionCount(sessionKey: string)
      modifies this
      ensures sessionMessageCounts == old(sessionMessageCounts) - {sessionKey}
    {
      sessionMessageCounts := sessionMessageCounts - {sessionKey};
    }
  }

  /** After a reset the next call for that session gets the full prompt
      again, and the other sessions keep their counters. */
  lemma ResetRestartsSession(counts: map<string, nat>, key: string, interval: int)
    ensures Step(counts - {key}, key, interval).1 == InitialPrompt
    ensures forall k :: k in counts && k != key ==> Step(counts - {key}, key, interval).0[k] == counts[k]
  {
  }

  /** Over a fresh session with a positive interval i, calls number 0, i,
      2i, ... return a prompt and every other call returns "". The session's
      counter ends at the number of calls; other sessions are untouched. */
  lemma {:induction false} FreshSessionSchedule(counts: map<string, nat>, key: string, interval: int, n: nat)
    requires key !in counts
    requires interval > 0
    ensures |Run(counts, key, interval, n).1| == n
    ensures forall j :: 0 <= j < n ==> (Run(counts, key, interval, n).1[j] != "" <==> j % interval == 0)
    ensures n > 0 ==> key in Run(counts, key, interval, n).0 && Run(counts, key, interval, n).0[key] == n
    ensures forall k :: k in counts ==> k in Run(counts, key, interval, n).0 && Run(counts, key, interval, n).0[k] == counts[k]
  {
    RunPrompts(counts, key, interval, n, 0);
    RunCounts(counts, key, interval, n, 0);
  }

  /** The prompts for counts c, c + 1, ..., c + n - 1. */
  function Prompts(c: nat, interval: int, n: nat): (ps: seq<string>)
    ensures |ps| == n
    decreases n
  {
    if n == 0 then [] else [PromptFor(c, interval)] + Prompts(c + 1, interval, n - 1)
  }

  lemma {:induction false} PromptsAt(c: nat, interval: int, n: nat)
    ensures forall j :: 0 <= j < n ==> Prompts(c, interval, n)[j] == PromptFor(c + j, interval)
    decreases n
  {
    if n > 0 {
      PromptsAt(c + 1, interval, n - 1);
      var rest := Prompts(c + 1, interval, n - 1);
      forall j | 0 < j < n ensures Prompts(c, interval, n)[j] == PromptFor(c + j, interval) {
        assert Prompts(c, interval, n)[j] == rest[j - 1];
      }
    }
  }

  lemma {:induction false} RunIsPrompts(counts: map<string, nat>, key: string, interval: int, n: nat, c: nat)
    requires CountOf(counts, key) == c
    ensures Run(counts, key, interval, n).1 == Prompts(c, interval, n)
    decreases n
  {
    if n > 0 {
      RunIsPrompts(Step(counts, key, interval).0, key, interval, n - 1, c + 1);
    }
  }

  /** The prompts of `n` calls on a session that has already seen `c` calls:
      call j gets the prompt for count c + j. */
  lemma RunPrompts(counts: map<string, nat>, key: string, interval: int, n: nat, c: nat)
    requires CountOf(counts, key) == c
    ensures |Run(counts, key, interval, n).1| == n
    ensures forall j :: 0 <= j < n ==> Run(counts, key, interval, n).1[j] == PromptFor(c + j, interval)
  {
    RunIsPrompts(counts, key, interval, n, c);
    PromptsAt(c, interval, n);
  }

  /** After `n` calls on a session that had seen `c` calls, its counter is
      c + n and every other session keeps its counter. */
  lemma {:induction false} RunCounts(counts: map<string, nat>, key: string, interval: int, n: nat, c: nat)
    requires CountOf(counts, key) == c
    ensures n > 0 ==> key in Run(counts, key, interval, n).0 && Run(counts, key, interval, n).0[key] == c + n
    ensures forall k :: k in counts && k != key ==> k in Run(counts, key, interval, n).0 && Run(counts, key, interval, n).0[k] == counts[k]
    ensures n > 0 ==> Run(counts, key, interval, n).0.Keys == counts.Keys + {key}
    decreases n
  {
    if n > 0 {
      var first := Step(counts, key, interval);
      RunCounts(first.0, key, interval, n - 1, c + 1);
      assert n - 1 > 0 ==> Run(first.0, key, interval, n - 1).0.Keys == first.0.Keys + {key};
      assert Run(counts, key, interval, n).0 == Run(first.0, key, interval, n - 1).0;
    }
  }
}
