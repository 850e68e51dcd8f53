/** DeepSeekSession: a conversation with a chat-completion endpoint that keeps the
    ordered message history and the model name as mutable state. */
module Session {
  import opened Wrappers
  import opened JavaText
  import opened JsonTree
  import opened Messages
  import opened Wire
  import opened History

  const DefaultModel := "deepseek-chat"

  /** Why a session could not be created. */
  datatype ConfigError = MissingApiKey

  class DeepSeekSession {
    const apiKey: string
    var history: seq<Message>
    var model: string

    /** The history invariant: a system message, if any, leads. */
    ghost predicate Valid()
      reads this`history
    {
      SystemFirst(history)
    }

    /** The credential and the model are never blank. Only SetModel can change this. */
    ghost predicate Configured()
      reads this`model
    {
      !IsBlank(apiKey) && !IsBlank(model)
    }

    /** The constructor once the credential is known to be present (see Open). */
    constructor (apiKey: string, systemPrompt: Option<string>)
      requires !IsBlank(apiKey)
      ensures Valid() && Configured()
      ensures this.apiKey == apiKey && model == DefaultModel
      ensures history == InitialHistory(systemPrompt)
    {
      this.apiKey := apiKey;
      model := DefaultModel;
      history := [];
      new;
      if NonBlank(systemPrompt) {
        history := history + [NewMessage(System, systemPrompt)];
      }
      BlankIffAllTrimmed(DefaultModel);
    }

    /** Switches model, ignoring a null or blank name; the history is untouched. */
    method SetModel(name: Option<string>)
      requires Configured()
      modifies this`model
      ensures Configured()
      ensures model == if NonBlank(name) then name.value else old(model)
    {
      if NonBlank(name) {
        model := name.value;
      }
    }

    /** Appends the user's text (null as ""), sends the whole history, and on success
        appends and returns the reply. On failure the user message stays in the history
        with no reply after it. */
    method Chat(userMessage: Option<string>, transport: Request -> Exchange, parse: string -> Option<Node>)
      returns (r: Result<string, ChatError>)
      requires Valid()
      modifies this`history
      ensures Valid()
      ensures r == ChatReply(transport(RequestFor(apiKey, PayloadFor(old(history) + [Message(User, OrEmpty(userMessage))], model))), parse)
      ensures r.Success? ==> history == Exchanged(old(history), OrEmpty(userMessage), r.value)
      ensures r.Failure? ==> history == old(history) + [Message(User, OrEmpty(userMessage))]
    {
      var text := OrEmpty(userMessage);
      var question := NewMessage(User, Some(text));
      history := history + [question];
      AppendKeepsSystemFirst(old(history), [question]);

      var payload := BuildPayload(history, model);
      var exchange := transport(RequestFor(apiKey, payload));
      var delivered := Deliver(exchange);
      if delivered.Failure? {
        r := Failure(delivered.error);
        return;
      }
      var root := parse(delivered.value);
      if root.None? {
        r := Failure(ParseError);
        return;
      }
      var assistant := ExtractReply(root.value);
      var answer := NewMessage(Assistant, Some(assistant));
      history := history + [answer];
      assert history == old(history) + [question, answer];
      AppendKeepsSystemFirst(old(history), [question, answer]);
      r := Success(assistant);
    }

    /** Keeps only the first system message, or clears the history when there is none. */
    method Reset()
      requires Valid()
      modifies this`history
      ensures Valid()
      ensures history == ResetHistory(old(history))
      ensures |history| <= 1 && (|history| == 1 ==> history[0] == old(history)[0])
    {
      var system: Option<Message> := None;
      var i := 0;
      while i < |history|
        invariant 0 <= i <= |history|
        invariant system.None?
        invariant forall j :: 0 <= j < i ==> history[j].role != System
      {
        var m := history[i];
        if m.role == System {
          system := Some(m);
          break;
        }
        i := i + 1;
      }
      assert system.Some? ==> system.value == history[i] && FirstSystemIndex(history) == i;
      assert system.None? ==> FirstSystemIndex(history) == |history|;
      ResetUnderInvariant(history);
      history := [];
      if system.Some? {
        history := history + [system.value];
      }
    }

    /** Replaces the whole history with a system prompt (the new one when it is not blank,
        the default otherwise) and an assistant message carrying the summary. */
    method ReplaceWithSummary(summary: Option<string>, systemPrompt: Option<string>)
      requires Valid()
      modifies this`history
      ensures Valid()
      ensures history == SummaryHistory(summary, systemPrompt)
    {
      history := [];
      var system: Message;
      if NonBlank(systemPrompt) {
        system := NewMessage(System, systemPrompt);
      } else {
        system := NewMessage(System, Some(DefaultSystemPrompt));
      }
      history := history + [system];
      var recap := NewMessage(Assistant, Some(SummaryPrefix + OrEmpty(summary)));
      history := history + [recap];
      assert history == [system, recap];
    }

    /** A copy of the history; later changes to the session do not reach it. */
    method HistorySnapshot() returns (snapshot: seq<Message>)
      ensures snapshot == history
    {
      snapshot := history;
    }
  }

  /** Creates a session, failing when the credential is null or blank. */
  method Open(apiKey: Option<string>, systemPrompt: Option<string>)
    returns (r: Result<DeepSeekSession, ConfigError>)
    ensures r.Failure? <==> !NonBlank(apiKey)
    ensures r.Failure? ==> r.error == MissingApiKey
    ensures r.Success? ==>
      fresh(r.value) && r.value.Valid() && r.value.Configured() &&
      r.value.apiKey == apiKey.value && r.value.model == DefaultModel &&
      r.value.history == InitialHistory(systemPrompt)
  {
    if !NonBlank(apiKey) {
      return Failure(MissingApiKey);
    }
    var session := new DeepSeekSession(apiKey.value, systemPrompt);
    return Success(session);
  }
}
