/** Client runs of a session against fixed transports, as the chat servlet
    uses it: what a caller can conclude from the session's contracts alone. */
module Scenarios {
  import opened Wrappers
  import opened JavaText
  import opened JsonTree
  import opened Messages
  import opened Wire
  import opened History
  import opened Session

  const FriendlyPrompt := "You are a friendly conversationalist."

  /** Opens the session the chat servlet uses, with a present credential. */
  method OpenFriendly() returns (s: DeepSeekSession)
    ensures fresh(s) && s.Valid() && s.history == [Message(System, FriendlyPrompt)]
  {
    VisibleStartNotBlank("key");
    VisibleStartNotBlank(FriendlyPrompt);
    var created := Open(Some("key"), Some(FriendlyPrompt));
    s := created.value;
  }

  /** A 2xx completion answering "Hi there!" to "Hello": the reply is returned and the
      history holds the prompt, the question and the reply. */
  method GreetingRoundTrip() returns (reply: Result<string, ChatError>, transcript: seq<Message>)
    ensures reply == Success("Hi there!")
    ensures transcript == [Message(System, FriendlyPrompt), Message(User, "Hello"), Message(Assistant, "Hi there!")]
  {
    var s := OpenFriendly();
    var body := "{\"choices\": [{\"message\": {\"role\": \"assistant\", \"content\": \"Hi there!\"}}]}";
    var transport: Request -> Exchange := _ => Responded(200, Some(body));
    var parse: string -> Option<Node> := _ => Some(Completion(["Hi there!"]));
    ReplyOfCompletion(["Hi there!"]);
    reply := s.Chat(Some("Hello"), transport, parse);
    assert reply == Success("Hi there!");
    assert s.history == Exchanged([Message(System, FriendlyPrompt)], "Hello", "Hi there!");
    transcript := s.HistorySnapshot();
  }

  /** A 2xx response with an empty "choices" array is not an error: the empty reply is
      returned and appended after the question. */
  method EmptyChoices() returns (reply: Result<string, ChatError>, transcript: seq<Message>)
    ensures reply == Success("")
    ensures transcript == [Message(System, FriendlyPrompt), Message(User, "x"), Message(Assistant, "")]
  {
    var s := OpenFriendly();
    var transport: Request -> Exchange := _ => Responded(200, Some("{\"choices\": []}"));
    var parse: string -> Option<Node> := _ => Some(Completion([]));
    ReplyOfCompletion([]);
    reply := s.Chat(Some("x"), transport, parse);
    transcript := s.HistorySnapshot();
  }

  /** A 503 without an error body fails the call and leaves the question orphaned at the
      end of the history; a later reset still gives back the prompt alone. */
  method FailedExchange() returns (reply: Result<string, ChatError>, transcript: seq<Message>, afterReset: seq<Message>)
    ensures reply == Failure(HttpStatus(503, None))
    ensures transcript == [Message(System, FriendlyPrompt), Message(User, "Hello")]
    ensures afterReset == [Message(System, FriendlyPrompt)]
  {
    var s := OpenFriendly();
    var transport: Request -> Exchange := _ => Responded(503, None);
    var parse: string -> Option<Node> := _ => None;
    reply := s.Chat(Some("Hello"), transport, parse);
    assert reply == Failure(HttpStatus(503, None));
    assert s.history == [Message(System, FriendlyPrompt)] + [Message(User, "Hello")];
    transcript := s.HistorySnapshot();
    s.Reset();
    ResetUnderInvariant(transcript);
    afterReset := s.HistorySnapshot();
  }
}
