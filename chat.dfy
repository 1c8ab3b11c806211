/** The conversation window of the chat loop: which messages a request
    carries (the system prompt with the running summary, the history not
    yet summarised, the new prompt), how older messages are folded into the
    summary in the background, and how a finished turn is recorded. The
    completion service is a parameter: the text it returns, or the error it
    raises. */
module Chat {
  import opened Wrappers
  import opened Text
  import opened Messages
  import opened Session

  // ---------------------------------------------------------------------
  // Python slices

  /** The index a Python slice bound `i` stands for in a sequence of
      length `n`: negative bounds count from the end, and both are clipped
      to `0..n`. */
  function Clip(i: int, n: nat): (k: nat)
    ensures k <= n
    ensures 0 <= i <= n ==> k == i
    ensures i < 0 && -i <= n ==> k == n + i
    ensures i > n ==> k == n
    ensures i < 0 && n + i < 0 ==> k == 0
  {
    if i < 0 then (if n + i < 0 then 0 else n + i) else if i > n then n else i
  }

  /** `s[start:]` and `s[start:stop]` */
  function PySlice<T>(s: seq<T>, start: int, stop: Option<int>): (r: seq<T>)
    ensures |r| <= |s|
  {
    var lo := Clip(start, |s|);
    var hi := if stop.Some? then Clip(stop.value, |s|) else |s|;
    if lo < hi then s[lo..hi] else []
  }

  /** A slice from a non-negative start to the end is the ordinary suffix. */
  lemma PySliceFrom<T>(s: seq<T>, start: nat)
    ensures PySlice(s, start, None) == if start <= |s| then s[start..] else []
  {
  }

  // ---------------------------------------------------------------------
  // `_build_messages`

  /** The system message's text: the prompt, then the summary when there
      is one. */
  function SystemText(systemPrompt: string, summary: string): string
  {
    systemPrompt + (if summary != "" then "\n\nPrevious conversation summary: " + summary else "")
  }

  /** `_build_messages(prompt)`: the system message when there is a prompt
      or a summary, the history after the last summarised index, then the
      user's prompt. */
  function BuildMessages(systemPrompt: string, summary: string, history: seq<Message>, lastSummarized: int, prompt: string): (r: seq<Message>)
    ensures var sys := if systemPrompt != "" || summary != "" then 1 else 0;
      |r| == sys + |PySlice(history, lastSummarized + 1, None)| + 1
      && r[..sys] == (if sys == 1 then [Plain(System, SystemText(systemPrompt, summary))] else [])
      && r[sys..|r| - 1] == PySlice(history, lastSummarized + 1, None)
      && r[|r| - 1] == Plain(User, prompt)
  {
    var text := SystemText(systemPrompt, summary);
    (if text != "" then [Plain(System, text)] else [])
    + PySlice(history, lastSummarized + 1, None)
    + [Plain(User, prompt)]
  }

  /** The system message is there, one message ahead of the history and
      the prompt, exactly when the prompt or the summary is non-empty; its
      text starts with the prompt and ends with the summary. */
  lemma SystemMessagePresence(systemPrompt: string, summary: string, history: seq<Message>, lastSummarized: int, prompt: string)
    ensures var r := BuildMessages(systemPrompt, summary, history, lastSummarized, prompt);
      (|r| == |PySlice(history, lastSummarized + 1, None)| + 2 <==> systemPrompt != "" || summary != "")
    ensures summary != "" ==> (systemPrompt <= SystemText(systemPrompt, summary)
      && SystemText(systemPrompt, summary)[|SystemText(systemPrompt, summary)| - |summary|..] == summary)
  {
    var text := SystemText(systemPrompt, summary);
    assert text != "" <==> systemPrompt != "" || summary != "";
    if summary != "" {
      assert text == systemPrompt + "\n\nPrevious conversation summary: " + summary;
      assert text[|text| - |summary|..] == summary;
    }
  }

  /** With an empty history and nothing summarised, a request is the system
      message, when there is one, and the prompt. */
  lemma BuildMessagesEmptyHistory(systemPrompt: string, summary: string, prompt: string)
    requires systemPrompt != ""
    ensures |BuildMessages(systemPrompt, summary, [], -1, prompt)| == 2
  {
    var empty: seq<Message> := [];
    assert PySlice(empty, 0, None) == [];
  }

  /** Below the history's length, the messages carried are exactly those
      after the last summarised one. */
  lemma BuildMessagesCarriesUnsummarized(systemPrompt: string, summary: string, history: seq<Message>, lastSummarized: int, prompt: string)
    requires -1 <= lastSummarized < |history|
    ensures var r := BuildMessages(systemPrompt, summary, history, lastSummarized, prompt);
      var sys := if systemPrompt != "" || summary != "" then 1 else 0;
      r[sys..|r| - 1] == history[lastSummarized + 1..]
  {
    PySliceFrom(history, lastSummarized + 1);
  }

  /** The index is the chat's own and `/clear_history` clears only the
      session: while the new history is no longer than the old index, no
      message of it is sent again, only the prompt (after the system
      message, when there is one). */
  lemma HistoryWithinIndexIsSkipped(systemPrompt: string, summary: string, history: seq<Message>, lastSummarized: int, prompt: string)
    requires |history| <= lastSummarized + 1
    ensures var r := BuildMessages(systemPrompt, summary, history, lastSummarized, prompt);
      r == (if systemPrompt != "" || summary != "" then [Plain(System, SystemText(systemPrompt, summary))] else []) + [Plain(User, prompt)]
  {
    var r := BuildMessages(systemPrompt, summary, history, lastSummarized, prompt);
    assert PySlice(history, lastSummarized + 1, None) == [];
    var sys := if systemPrompt != "" || summary != "" then 1 else 0;
    assert r == r[..sys] + [r[|r| - 1]];
  }

  // ---------------------------------------------------------------------
  // `_summarize`

  /** The messages `_summarize` folds into the summary: those after the
      last summarised one, minus the `limit` most recent; `-1` means no
      limit. */
  function SummaryWindow(history: seq<Message>, lastSummarized: int, limit: int): seq<Message>
  {
    if limit == -1 then PySlice(history, lastSummarized + 1, None)
    else PySlice(history, lastSummarized + 1, Some(-limit))
  }

  /** With a positive limit the window stops `limit` messages before the
      end; with no limit it runs to the end. */
  lemma SummaryWindowBounds(history: seq<Message>, lastSummarized: int, limit: int)
    requires -1 <= lastSummarized
    ensures limit == -1 ==> SummaryWindow(history, lastSummarized, limit) == PySlice(history, lastSummarized + 1, None)
    ensures 0 < limit && lastSummarized + 1 + limit < |history| ==>
      SummaryWindow(history, lastSummarized, limit) == history[lastSummarized + 1..|history| - limit]
    ensures 0 < limit && lastSummarized + 1 + limit >= |history| ==> SummaryWindow(history, lastSummarized, limit) == []
  {
  }

  /** A limit of 0 makes the window `history[start:0]`, always empty, so the
      history is never summarised. */
  lemma ZeroLimitNeverSummarizes(history: seq<Message>, lastSummarized: int)
    requires -1 <= lastSummarized
    ensures SummaryWindow(history, lastSummarized, 0) == []
  {
  }

  /** Summarising the window and moving the index past it loses no
      message: the window followed by what is left unsummarised is what
      was unsummarised before. */
  lemma SummaryWindowPartition(history: seq<Message>, lastSummarized: int, limit: int)
    requires -1 <= lastSummarized
    ensures var w := SummaryWindow(history, lastSummarized, limit);
      w + PySlice(history, lastSummarized + 1 + |w|, None) == PySlice(history, lastSummarized + 1, None)
  {
    var w := SummaryWindow(history, lastSummarized, limit);
    var start := lastSummarized + 1;
    if start < |history| && w != [] {
      var hi := if limit == -1 then |history| else Clip(-limit, |history|);
      assert w == history[start..hi];
      assert history[start..] == history[start..hi] + history[hi..];
    }
  }

  /** After a successful summary with a positive limit, exactly `limit`
      messages are left unsummarised; with no limit, none. */
  lemma SummaryKeepsRecent(history: seq<Message>, lastSummarized: int, limit: int)
    requires -1 <= lastSummarized
    requires SummaryWindow(history, lastSummarized, limit) != []
    requires limit == -1 || limit > 0
    ensures var next := lastSummarized + |SummaryWindow(history, lastSummarized, limit)|;
      |history| - (next + 1) == (if limit == -1 then 0 else limit)
  {
  }

  /** The history of six messages with nothing summarised, keeping four:
      the first two are summarised and the index moves to 1. */
  lemma SummaryExample(history: seq<Message>)
    requires |history| == 6
    ensures SummaryWindow(history, -1, 4) == history[..2]
    ensures -1 + |SummaryWindow(history, -1, 4)| == 1
  {
  }

  /** `f"{m['role']}:{m['content']}"` */
  function TranscriptLine(m: Message): string
  {
    RoleName(m.role) + ":" + ContentText(m)
  }

  function TranscriptLines(ms: seq<Message>): (r: seq<string>)
    ensures |r| == |ms|
    ensures forall i :: 0 <= i < |ms| ==> r[i] == TranscriptLine(ms[i])
  {
    if ms == [] then [] else [TranscriptLine(ms[0])] + TranscriptLines(ms[1..])
  }

  const PromptHead := "\nSummarize this conversation, incorporating the previous summary if provided.\n\nPrevious summary: "
  const PromptMiddle := "\n\nRecent conversation:\n"
  const PromptTail := "\n\nCreate a concise summary (2-3 sentences) that:\n- Incorporates key points from the previous summary\n- Adds important new topics and conclusions\n- Maintains context needed for future messages\n\nSummary:\n"

  /** The prompt `_summarize` sends: the previous summary, then one
      `role:content` line per message of the window. */
  function SummaryPrompt(previous: string, window: seq<Message>): string
  {
    PromptHead + previous + PromptMiddle + Join("\n", TranscriptLines(window)) + PromptTail
  }

  /** `t` occurs in `s` at `i`. */
  predicate OccursAt(t: string, s: string, i: nat)
  {
    i + |t| <= |s| && s[i..i + |t|] == t
  }

  /** `t in s` for strings. */
  predicate Contains(s: string, t: string)
  {
    exists i: nat :: i <= |s| && OccursAt(t, s, i)
  }

  lemma {:induction false} JoinHasEach(xs: seq<string>, k: nat)
    requires k < |xs|
    ensures exists i: nat :: OccursAt(xs[k], Join("\n", xs), i)
    decreases |xs|
  {
    var j := Join("\n", xs);
    if |xs| == 1 {
      assert OccursAt(xs[0], j, 0);
    } else if k == 0 {
      assert j == xs[0] + ("\n" + Join("\n", xs[1..]));
      assert OccursAt(xs[0], j, 0);
    } else {
      JoinHasEach(xs[1..], k - 1);
      var i: nat :| OccursAt(xs[1..][k - 1], Join("\n", xs[1..]), i);
      var off := |xs[0]| + 1;
      assert j == xs[0] + "\n" + Join("\n", xs[1..]);
      assert j[off + i..off + i + |xs[k]|] == Join("\n", xs[1..])[i..i + |xs[k]|];
      assert OccursAt(xs[k], j, off + i);
    }
  }

  lemma OccursInside(pre: string, mid: string, post: string, t: string, i: nat)
    requires OccursAt(t, mid, i)
    ensures OccursAt(t, pre + mid + post, |pre| + i)
  {
    assert (pre + mid + post)[|pre| + i..|pre| + i + |t|] == mid[i..i + |t|];
  }

  /** The frame of the prompt, for any texts around the two parts. */
  lemma FrameCarriesParts(head: string, previous: string, middle: string, joined: string, tail: string, t: string, i: nat)
    requires OccursAt(t, joined, i)
    ensures OccursAt(previous, head + previous + middle + joined + tail, |head|)
    ensures OccursAt(t, head + previous + middle + joined + tail, |head + previous + middle| + i)
  {
    assert OccursAt(previous, previous, 0);
    OccursInside(head, previous, middle + joined + tail, previous, 0);
    assert head + previous + (middle + joined + tail) == head + previous + middle + joined + tail;
    OccursInside(head + previous + middle, joined, tail, t, i);
  }

  /** Where the `role:content` line of message `k` of the window sits in
      the prompt. */
  lemma SummaryPromptLine(previous: string, window: seq<Message>, k: nat) returns (at: nat)
    requires k < |window|
    ensures OccursAt(TranscriptLine(window[k]), SummaryPrompt(previous, window), at)
  {
    var lines := TranscriptLines(window);
    var joined := Join("\n", lines);
    JoinHasEach(lines, k);
    var i: nat :| OccursAt(lines[k], joined, i);
    FrameCarriesParts(PromptHead, previous, PromptMiddle, joined, PromptTail, lines[k], i);
    at := |PromptHead + previous + PromptMiddle| + i;
  }

  /** The prompt carries the previous summary and the `role:content` line
      of every message of the window. */
  lemma SummaryPromptCarriesWindow(previous: string, window: seq<Message>)
    ensures OccursAt(previous, SummaryPrompt(previous, window), |PromptHead|)
    ensures forall k :: 0 <= k < |window| ==> Contains(SummaryPrompt(previous, window), TranscriptLine(window[k]))
  {
    FrameCarriesParts(PromptHead, previous, PromptMiddle, Join("\n", TranscriptLines(window)), PromptTail, "", 0);
    forall k | 0 <= k < |window| ensures Contains(SummaryPrompt(previous, window), TranscriptLine(window[k])) {
      var at := SummaryPromptLine(previous, window, k);
      assert OccursAt(TranscriptLine(window[k]), SummaryPrompt(previous, window), at);
    }
  }

  // ---------------------------------------------------------------------
  // The chat object

  /** The background summary task: none, running, or finished (with or
      without an exception). */
  datatype SummaryTask = NoTask | Running | Finished(failed: bool)

  /** `Chat`: the session it talks in, the index of the last message folded
      into the summary, the summary task, and the configured history limit
      (`-1` for none). */
  class Chat {
    const session: ChatSession
    var lastSummarized: int
    var summaryTask: SummaryTask
    const historyLimit: int

    ghost predicate Valid()
      reads this
    {
      lastSummarized >= -1
    }

    constructor(session: ChatSession, historyLimit: int)
      ensures this.session == session && this.historyLimit == historyLimit
      ensures lastSummarized == -1 && summaryTask == NoTask
      ensures Valid()
    {
      this.session := session;
      this.historyLimit := historyLimit;
      lastSummarized := -1;
      summaryTask := NoTask;
    }

    /** `_build_messages(prompt)` on the chat's current state. */
    function Request(prompt: string): seq<Message>
      reads this, session
    {
      BuildMessages(session.systemPrompt, session.summary, session.history, lastSummarized, prompt)
    }

    /** `_summarize()`: when the window is empty nothing is sent and nothing
        changes; otherwise the summary prompt is sent, and when the call
        returns, the summary becomes its answer and the index moves past
        the window; when it raises, both stay as they were. */
    method Summarize(answer: Outcome<string>) returns (sent: Option<string>)
      requires Valid()
      modifies this, session
      ensures Valid()
      ensures var w := SummaryWindow(old(session.history), old(lastSummarized), historyLimit);
        (w == [] ==> sent == None && session.summary == old(session.summary) && lastSummarized == old(lastSummarized))
        && (w != [] ==> (sent == Some(SummaryPrompt(old(session.summary), w))
            && (answer.Returned? ==> session.summary == answer.value && lastSummarized == old(lastSummarized) + |w|)
            && (answer.Raised? ==> session.summary == old(session.summary) && lastSummarized == old(lastSummarized))))
      ensures session.history == old(session.history) && session.systemPrompt == old(session.systemPrompt)
      ensures session.search == old(session.search)
      ensures summaryTask == old(summaryTask)
    {
      var start := lastSummarized + 1;
      var current := session.history;
      var window := if historyLimit == -1 then PySlice(current, start, None) else PySlice(current, start, Some(-historyLimit));
      if window == [] {
        sent := None;
        return;
      }
      var previous := session.summary;
      sent := Some(SummaryPrompt(previous, window));
      if answer.Returned? {
        session.SetSummary(answer.value);
        lastSummarized := lastSummarized + |window|;
      }
    }

    /** `_create_summary_task()`: a finished task is dropped (with a
        warning when it failed) and a new one is started unless one is
        still running; so afterwards exactly one task is running. */
    method CreateSummaryTask() returns (started: bool, warned: bool)
      modifies this
      ensures summaryTask == Running
      ensures started <==> old(summaryTask) != Running
      ensures warned <==> old(summaryTask) == Finished(true)
      ensures lastSummarized == old(lastSummarized)
    {
      warned := false;
      if summaryTask.Finished? {
        warned := summaryTask.failed;
        summaryTask := NoTask;
      }
      started := summaryTask == NoTask;
      if started {
        summaryTask := Running;
      }
    }

    /** The summary task ends, by returning or by raising. */
    method SummaryTaskDone(failed: bool)
      requires summaryTask == Running
      modifies this
      ensures summaryTask == Finished(failed)
      ensures lastSummarized == old(lastSummarized)
    {
      summaryTask := Finished(failed);
    }

    /** The history update at the end of `_chat_completion_stream`: the
        user's prompt always, then the answer when it is non-empty. */
    method RecordTurn(prompt: string, content: string)
      requires Valid()
      modifies session
      ensures Valid()
      ensures session.history == old(session.history) + [Plain(User, prompt)] + (if content != "" then [Plain(Assistant, content)] else [])
      ensures session.systemPrompt == old(session.systemPrompt) && session.summary == old(session.summary)
      ensures session.search == old(session.search)
    {
      session.AddToHistory(Plain(User, prompt));
      if content != "" {
        session.AddToHistory(Plain(Assistant, content));
      }
    }
  }
}
