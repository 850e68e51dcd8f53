/** The session's message history as a value: its invariant and the histories that
    construction, chat, reset and replaceWithSummary produce. */
module History {
  import opened Wrappers
  import opened JavaText
  import opened Messages

  const DefaultSystemPrompt := "You are a helpful assistant."
  const SummaryPrefix := "Resumen de la conversación hasta ahora: "

  /** The session invariant: a system message, if any, is the first message, and there is
      at most one. */
  predicate SystemFirst(history: seq<Message>) {
    forall i :: 0 < i < |history| ==> history[i].role != System
  }

  /** The history a new session starts with: the system prompt, untrimmed, when it is
      non-null and not blank. */
  function InitialHistory(systemPrompt: Option<string>): (h: seq<Message>)
    ensures SystemFirst(h) && |h| <= 1
    ensures |h| == 1 <==> NonBlank(systemPrompt)
    ensures |h| == 1 ==> h[0] == Message(System, systemPrompt.value)
  {
    if NonBlank(systemPrompt) then [NewMessage(System, systemPrompt)] else []
  }

  /** One successful chat turn: the user's text, then the assistant's reply. */
  function Exchanged(history: seq<Message>, question: string, reply: string): seq<Message> {
    history + [Message(User, question), Message(Assistant, reply)]
  }

  datatype Turn = Turn(question: string, reply: string)

  /** The history after a run of successful chat turns, in call order. */
  function Converse(history: seq<Message>, turns: seq<Turn>): seq<Message>
    decreases |turns|
  {
    if turns == [] then history
    else
      var last := turns[|turns| - 1];
      Exchanged(Converse(history, turns[..|turns| - 1]), last.question, last.reply)
  }

  /** After N successful turns the history is the old one followed by N user/assistant
      pairs, each turn's question and reply in call order. */
  lemma {:induction false} ConverseShape(history: seq<Message>, turns: seq<Turn>)
    ensures |Converse(history, turns)| == |history| + 2 * |turns|
    ensures Converse(history, turns)[..|history|] == history
    ensures forall k :: 0 <= k < |turns| ==>
      Converse(history, turns)[|history| + 2 * k] == Message(User, turns[k].question) &&
      Converse(history, turns)[|history| + 2 * k + 1] == Message(Assistant, turns[k].reply)
  {
    if turns != [] {
      var init := turns[..|turns| - 1];
      ConverseShape(history, init);
      var c := Converse(history, init);
      assert Converse(history, turns) == c + [Message(User, turns[|turns| - 1].question),
                                              Message(Assistant, turns[|turns| - 1].reply)];
      forall k | 0 <= k < |turns| - 1
        ensures Converse(history, turns)[|history| + 2 * k] == Message(User, turns[k].question)
        ensures Converse(history, turns)[|history| + 2 * k + 1] == Message(Assistant, turns[k].reply)
      {
        assert turns[k] == init[k];
      }
    }
  }

  /** Appending messages that are not system messages keeps the invariant. */
  lemma AppendKeepsSystemFirst(history: seq<Message>, tail: seq<Message>)
    requires SystemFirst(history)
    requires forall i :: 0 <= i < |tail| ==> tail[i].role != System
    ensures SystemFirst(history + tail)
  {
  }

  /** Conversations keep the invariant. */
  lemma {:induction false} ConverseKeepsSystemFirst(history: seq<Message>, turns: seq<Turn>)
    requires SystemFirst(history)
    ensures SystemFirst(Converse(history, turns))
  {
    if turns != [] {
      ConverseKeepsSystemFirst(history, turns[..|turns| - 1]);
    }
  }

  /** The index reset's search stops at: the first system message, or |history| when there
      is none. */
  function FirstSystemIndex(history: seq<Message>): (k: nat)
    ensures k <= |history|
    ensures forall j :: 0 <= j < k ==> history[j].role != System
    ensures k < |history| ==> history[k].role == System
  {
    if history == [] then 0
    else if history[0].role == System then 0
    else 1 + FirstSystemIndex(history[1..])
  }

  /** The history reset leaves: the first system message alone, or nothing. */
  function ResetHistory(history: seq<Message>): seq<Message> {
    var k := FirstSystemIndex(history);
    if k < |history| then [history[k]] else []
  }

  /** reset only removes messages: it keeps at most one, and that one is a system message
      of the old history; it keeps one exactly when the old history has a system message. */
  lemma ResetShape(history: seq<Message>)
    ensures |ResetHistory(history)| <= 1
    ensures forall i :: 0 <= i < |ResetHistory(history)| ==>
      ResetHistory(history)[i] in history && ResetHistory(history)[i].role == System
    ensures |ResetHistory(history)| == 1 <==> exists i :: 0 <= i < |history| && history[i].role == System
    ensures SystemFirst(ResetHistory(history))
  {
  }

  /** Under the invariant, reset keeps exactly the leading system message, if there is one. */
  lemma ResetUnderInvariant(history: seq<Message>)
    requires SystemFirst(history)
    ensures ResetHistory(history) ==
      if |history| > 0 && history[0].role == System then history[..1] else []
  {
  }

  /** Resetting twice is resetting once. */
  lemma ResetIdempotent(history: seq<Message>)
    ensures ResetHistory(ResetHistory(history)) == ResetHistory(history)
  {
  }

  /** Messages appended after the system message do not change what reset keeps: after any
      number of chat calls, successful or not, reset gives back the construction prompt. */
  lemma {:induction false} ResetIgnoresAppended(history: seq<Message>, tail: seq<Message>)
    requires forall i :: 0 <= i < |tail| ==> tail[i].role != System
    ensures ResetHistory(history + tail) == ResetHistory(history)
  {
    var k := FirstSystemIndex(history);
    var h := history + tail;
    if k < |history| {
      assert h[k] == history[k];
      assert FirstSystemIndex(h) == k;
    } else {
      assert forall j :: 0 <= j < |h| ==> h[j].role != System;
      assert FirstSystemIndex(h) == |h|;
    }
  }

  /** The history replaceWithSummary installs. */
  function SummaryHistory(summary: Option<string>, systemPrompt: Option<string>): seq<Message> {
    [ if NonBlank(systemPrompt) then NewMessage(System, systemPrompt)
      else NewMessage(System, Some(DefaultSystemPrompt)),
      NewMessage(Assistant, Some(SummaryPrefix + OrEmpty(summary))) ]
  }

  /** A summary history has exactly two messages: the new (or default) system prompt, then
      an assistant message from which the summary can be read back after the fixed prefix. */
  lemma SummaryShape(summary: Option<string>, systemPrompt: Option<string>)
    ensures |SummaryHistory(summary, systemPrompt)| == 2
    ensures SystemFirst(SummaryHistory(summary, systemPrompt))
    ensures SummaryHistory(summary, systemPrompt)[0] ==
      Message(System, if NonBlank(systemPrompt) then systemPrompt.value else DefaultSystemPrompt)
    ensures SummaryHistory(summary, systemPrompt)[1].role == Assistant
    ensures SummaryHistory(summary, systemPrompt)[1].content[..|SummaryPrefix|] == SummaryPrefix
    ensures SummaryHistory(summary, systemPrompt)[1].content[|SummaryPrefix|..] == OrEmpty(summary)
  {
  }

  /** Reset after replaceWithSummary keeps the summary's system prompt alone. */
  lemma ResetAfterSummary(summary: Option<string>, systemPrompt: Option<string>)
    ensures ResetHistory(SummaryHistory(summary, systemPrompt)) == SummaryHistory(summary, systemPrompt)[..1]
  {
  }
}
