/**
 * The journal page (client/src/pages/journal-page.tsx): rotation through the six writing
 * prompts, the empty-entry guard, and the save sequence (the entry goes to the chat route,
 * then the journaling activity is completed and the field cleared).
 */
module Journal {
  import opened Wrappers
  import opened Text
  import opened Storage
  import Routes

  const Prompts: seq<string> := [
    "What are three things you're grateful for today?",
    "What's something that made you smile today?",
    "What's something you accomplished today, no matter how small?",
    "What's a challenge you faced today and how did you handle it?",
    "What's something you're looking forward to?",
    "What's something you learned today?"
  ]

  /** The prompt the page shows first. */
  const InitialPrompt := Prompts[0]

  /** The id the page completes after a save: the third seeded activity. */
  const JournalActivityId := 3

  /** `s.indexOf(x)`: the first position of `x`, or -1. */
  function IndexOf(s: seq<string>, x: string): (r: int)
    ensures -1 <= r < |s|
    ensures r == -1 <==> x !in s
    ensures r >= 0 ==> s[r] == x && x !in s[..r]
  {
    if s == [] then -1
    else if s[0] == x then 0
    else
      var k := IndexOf(s[1..], x);
      assert s == [s[0]] + s[1..];
      if k == -1 then -1
      else
        assert s[..k + 1] == [s[0]] + s[1..][..k];
        k + 1
  }

  predicate Distinct(ps: seq<string>) {
    forall a, b :: 0 <= a < b < |ps| ==> ps[a] != ps[b]
  }

  /** No prompt is listed twice (they differ in length or near their ends). */
  lemma PromptsDistinct()
    ensures Distinct(Prompts)
  {
    assert |Prompts[0]| == 48 && |Prompts[1]| == 43 && |Prompts[2]| == 61;
    assert |Prompts[3]| == 61 && |Prompts[4]| == 43 && |Prompts[5]| == 35;
    assert Prompts[1][41] == 'y' && Prompts[4][41] == 'o';
    assert Prompts[2][59] == 'l' && Prompts[3][59] == 't';
  }

  lemma IndexOfDistinct(s: seq<string>, i: nat)
    requires Distinct(s) && i < |s|
    ensures IndexOf(s, s[i]) == i
  {
    var k := IndexOf(s, s[i]);
    assert s[k] == s[i];
  }

  /** Every option is found by `indexOf` at its own position. */
  predicate Positions(options: seq<string>) {
    forall k {:trigger options[k]} :: 0 <= k < |options| ==> IndexOf(options, options[k]) == k
  }

  lemma DistinctPositions(options: seq<string>)
    requires Distinct(options)
    ensures Positions(options)
  {
    forall k | 0 <= k < |options| {
      IndexOfDistinct(options, k);
    }
  }

  /**
   * `handleNewPrompt`: the option after the current one, wrapping round; an unknown prompt
   * (`indexOf` gives -1) is followed by the first option.
   */
  function NextPrompt(options: seq<string>, current: string): (r: string)
    requires |options| > 0
    ensures r in options
    ensures current !in options ==> r == options[0]
  {
    options[(IndexOf(options, current) + 1) % |options|]
  }

  /** The prompt shown after `n` presses of "new prompt". */
  function Rotate(options: seq<string>, p: string, n: nat): (r: string)
    requires |options| > 0
    ensures n == 0 ==> r == p
    ensures n > 0 ==> r in options
    decreases n
  {
    if n == 0 then p else Rotate(options, NextPrompt(options, p), n - 1)
  }

  lemma ModUnique(x: int, m: int, q: int, r: int)
    requires m > 0 && x == m * q + r && 0 <= r < m
    ensures x % m == r
  {
    var q', r' := x / m, x % m;
    assert x == m * q' + r';
    if q' > q {
      assert m * q' >= m * (q + 1) by { MulMonotone(m, q + 1, q'); }
    } else if q' < q {
      assert m * q >= m * (q' + 1) by { MulMonotone(m, q' + 1, q); }
    }
  }

  lemma MulMonotone(m: int, a: int, b: int)
    requires m > 0 && a <= b
    ensures m * a <= m * b
  {
  }

  /** A listed option is followed by the next one, and the last by the first. */
  lemma NextStep(options: seq<string>, i: nat)
    requires Positions(options) && i < |options|
    ensures NextPrompt(options, options[i]) == options[if i + 1 < |options| then i + 1 else 0]
  {
    if i + 1 < |options| {
      ModUnique(i + 1, |options|, 0, i + 1);
    } else {
      ModUnique(i + 1, |options|, 1, 0);
    }
  }

  /** The position reached from `i` after `k` steps round a list of `n` options. */
  function IndexAfter(n: nat, i: nat, k: nat): nat
    decreases k
  {
    if k == 0 then i else IndexAfter(n, if i + 1 < n then i + 1 else 0, k - 1)
  }

  lemma {:induction false} IndexAfterCompose(n: nat, i: nat, a: nat, b: nat)
    ensures IndexAfter(n, i, a + b) == IndexAfter(n, IndexAfter(n, i, a), b)
    decreases a
  {
    if a > 0 {
      IndexAfterCompose(n, if i + 1 < n then i + 1 else 0, a - 1, b);
    }
  }

  lemma {:induction false} IndexAfterWalk(n: nat, i: nat, k: nat)
    requires i + k < n
    ensures IndexAfter(n, i, k) == i + k
    decreases k
  {
    if k > 0 {
      IndexAfterWalk(n, i + 1, k - 1);
    }
  }

  /** `n` steps from any position come back to it. */
  lemma IndexAfterFullCircle(n: nat, i: nat)
    requires i < n
    ensures IndexAfter(n, i, n) == i
  {
    IndexAfterWalk(n, i, n - 1 - i);
    IndexAfterCompose(n, i, n - 1 - i, 1 + i);
    IndexAfterWalk(n, 0, i);
  }

  /** Pressing "new prompt" `k` times moves `k` steps round the list. */
  lemma {:induction false} RotateSteps(options: seq<string>, i: nat, k: nat)
    requires Positions(options) && i < |options|
    ensures IndexAfter(|options|, i, k) < |options|
    ensures Rotate(options, options[i], k) == options[IndexAfter(|options|, i, k)]
    decreases k
  {
    if k > 0 {
      NextStep(options, i);
      RotateSteps(options, if i + 1 < |options| then i + 1 else 0, k - 1);
    }
  }

  /** As many presses as there are options bring back the prompt one started from. */
  lemma FullCircle(options: seq<string>, i: nat)
    requires Positions(options) && i < |options|
    ensures Rotate(options, options[i], |options|) == options[i]
  {
    RotateSteps(options, i, |options|);
    IndexAfterFullCircle(|options|, i);
  }

  lemma EmptyIsNotAPrompt()
    ensures "" !in Prompts
  {
    assert |Prompts[0]| == 48 && |Prompts[1]| == 43 && |Prompts[2]| == 61;
    assert |Prompts[3]| == 61 && |Prompts[4]| == 43 && |Prompts[5]| == 35;
  }

  /** On the page's own list the prompt after index `i` is at index (i + 1) mod 6. */
  lemma PromptSuccessor(i: nat)
    requires i < |Prompts|
    ensures NextPrompt(Prompts, Prompts[i]) == Prompts[(i + 1) % 6]
  {
    PromptsDistinct();
    DistinctPositions(Prompts);
    NextStep(Prompts, i);
    assert (if i + 1 < 6 then i + 1 else 0) == (i + 1) % 6;
  }

  /** A prompt that is not in the list, such as the empty string, is followed by the first prompt. */
  lemma UnlistedPromptRestarts()
    ensures NextPrompt(Prompts, "") == Prompts[0]
  {
    EmptyIsNotAPrompt();
  }

  /** Six presses come full circle on the page's list. */
  lemma PromptsFullCircle(i: nat)
    requires i < |Prompts|
    ensures Rotate(Prompts, Prompts[i], 6) == Prompts[i]
  {
    PromptsDistinct();
    DistinctPositions(Prompts);
    FullCircle(Prompts, i);
  }

  datatype SaveOutcome = Refused | SendToChat(message: string)

  /** `handleSaveJournal`: an entry that trims to nothing is refused; anything else goes to the chat route. */
  function SaveJournal(entry: string): (r: SaveOutcome)
    ensures r == Refused <==> AllSpace(entry)
    ensures r.SendToChat? ==> r.message == "Journal entry: " + entry
  {
    TrimEmptyIffAllSpace(entry);
    if Trim(entry) == "" then Refused else SendToChat("Journal entry: " + entry)
  }

  /** The chat route never refuses a journal message as empty: it always has the prefix. */
  lemma SavedEntryPassesChatGuard(entry: string)
    requires SaveJournal(entry).SendToChat?
    ensures Routes.Truthy(Some(SaveJournal(entry).message))
  {
    assert SaveJournal(entry).message[0] == 'J';
  }

  /** What the page does once the chat route answered: complete activity 3 and clear the entry. */
  datatype AfterSave = AfterSave(completeActivity: int, entry: string)

  function OnSaveSuccess(): (r: AfterSave)
    ensures r.entry == ""
    ensures 1 <= r.completeActivity <= |DefaultActivities| && DefaultActivities[r.completeActivity - 1].activityType == "journal"
  {
    AfterSave(JournalActivityId, "")
  }

  /** Activity 3 of the seeded catalog is the one (and only) journaling activity. */
  lemma JournalActivityIsSeeded()
    ensures DefaultActivities[JournalActivityId - 1].activityType == "journal"
    ensures forall i :: 0 <= i < |DefaultActivities| && DefaultActivities[i].activityType == "journal" ==> i == JournalActivityId - 1
  {
  }
}
