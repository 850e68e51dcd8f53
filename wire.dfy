/** The request the session sends and the response it reads back: the chat-completion
    payload built from the history, the outcome of the HTTP exchange in postJson, and the
    reply taken out of the response tree. */
module Wire {
  import opened Wrappers
  import opened JsonTree
  import opened Messages

  const Endpoint := "https://api.deepseek.com/v1/chat/completions"
  const ContentType := "application/json; charset=utf-8"

  /** One {"role": ..., "content": ...} element of the payload's "messages" array. */
  datatype WireMessage = WireMessage(role: string, content: string)

  /** The request body {"model": ..., "messages": [...], "stream": ...}. */
  datatype Payload = Payload(model: string, messages: seq<WireMessage>, stream: bool)

  /** What postJson hands to the connection: URL, Authorization header, Content-Type
      header and body. */
  datatype Request = Request(endpoint: string, authorization: string, contentType: string, body: Payload)

  function ToWire(m: Message): WireMessage {
    WireMessage(RoleName(m.role), m.content)
  }

  /** The "messages" array for a history: one element per message, in history order. */
  function Serialize(history: seq<Message>): (w: seq<WireMessage>)
    ensures |w| == |history|
    ensures forall i :: 0 <= i < |history| ==> w[i] == ToWire(history[i])
  {
    if history == [] then [] else [ToWire(history[0])] + Serialize(history[1..])
  }

  /** Reads a "messages" array back into a history; fails on an unknown role name. */
  function Deserialize(w: seq<WireMessage>): Option<seq<Message>> {
    if w == [] then Some([])
    else match (ParseRole(w[0].role), Deserialize(w[1..]))
      case (Some(role), Some(rest)) => Some([Message(role, w[0].content)] + rest)
      case _ => None
  }

  /** Nothing of the history is lost on the wire: reading the array back gives the history. */
  lemma {:induction false} DeserializeSerialize(history: seq<Message>)
    ensures Deserialize(Serialize(history)) == Some(history)
  {
    if history != [] {
      var w := Serialize(history);
      assert w[1..] == Serialize(history[1..]);
      DeserializeSerialize(history[1..]);
      ParseRoleInvertsRoleName(history[0].role, w[0].role);
      assert [history[0]] + history[1..] == history;
    }
  }

  /** Every array that reads back as a history is exactly that history's serialisation. */
  lemma {:induction false} SerializeDeserialize(w: seq<WireMessage>, history: seq<Message>)
    requires Deserialize(w) == Some(history)
    ensures Serialize(history) == w
  {
    if w != [] {
      var role :| ParseRole(w[0].role) == Some(role);
      var rest :| Deserialize(w[1..]) == Some(rest);
      assert history == [Message(role, w[0].content)] + rest;
      SerializeDeserialize(w[1..], rest);
      ParseRoleInvertsRoleName(role, w[0].role);
      assert history[1..] == rest;
      assert [w[0]] + w[1..] == w;
    }
  }

  /** The loop that fills the "messages" array, one element per history entry. */
  method BuildMessages(history: seq<Message>) returns (msgs: seq<WireMessage>)
    ensures msgs == Serialize(history)
  {
    msgs := [];
    var i := 0;
    while i < |history|
      invariant 0 <= i <= |history|
      invariant |msgs| == i
      invariant forall j :: 0 <= j < i ==> msgs[j] == ToWire(history[j])
    {
      var m := history[i];
      msgs := msgs + [WireMessage(RoleName(m.role), m.content)];
      i := i + 1;
    }
  }

  /** The payload the session sends for a history and a model. */
  function PayloadFor(history: seq<Message>, model: string): Payload {
    Payload(model, Serialize(history), false)
  }

  /** Builds the request body: the model, the full history in order and streaming off. */
  method BuildPayload(history: seq<Message>, model: string) returns (p: Payload)
    ensures p.model == model && !p.stream
    ensures Deserialize(p.messages) == Some(history)
    ensures p == PayloadFor(history, model)
  {
    var msgs := BuildMessages(history);
    p := Payload(model, msgs, false);
    DeserializeSerialize(history);
  }

  /** The request postJson issues for a payload: fixed URL, bearer token, JSON content type. */
  function RequestFor(apiKey: string, payload: Payload): Request {
    Request(Endpoint, "Bearer " + apiKey, ContentType, payload)
  }

  /** What one HTTP exchange produced. `body` is the text of the stream postJson reads
      (the input stream on a 2xx status, the error stream otherwise), None when there is
      no stream. Any exception while connecting, writing or reading is ExchangeFailed. */
  datatype Exchange = Responded(status: int, body: Option<string>) | ExchangeFailed

  /** The failures chat reports. */
  datatype ChatError =
    | TransportError
    | HttpStatus(status: int, body: Option<string>)
    | ParseError

  predicate IsSuccessStatus(code: int) {
    200 <= code < 300
  }

  /** postJson's decision: the body on a 2xx status, an HTTP failure carrying the status and
      the error body (if any) otherwise. A 2xx without a stream fails when it is read. */
  function Deliver(x: Exchange): Result<string, ChatError> {
    match x
    case Responded(code, body) =>
      if !IsSuccessStatus(code) then Failure(HttpStatus(code, body))
      else if body.Some? then Success(body.value)
      else Failure(TransportError)
    case ExchangeFailed => Failure(TransportError)
  }

  /** The reply chat takes from a response tree: the first choice's message content when
      "choices" is a non-empty array, "" otherwise. */
  function ExtractReply(root: Node): (reply: string)
    ensures reply != "" ==> Path(root, "choices").Array? && |Path(root, "choices").items| > 0
  {
    var choices := Path(root, "choices");
    if choices.Array? && |choices.items| > 0 then
      AsText(Path(Path(choices.items[0], "message"), "content"))
    else
      ""
  }

  /** `root` is a response whose "choices" array is non-empty and whose first choice has a
      "message" object with text content `t`. Any other fields (id, usage, index,
      finish_reason, role, ...) may be present. */
  predicate FirstContentIs(root: Node, t: string) {
    root.Object? && "choices" in root.fields &&
    var choices := root.fields["choices"];
    choices.Array? && |choices.items| > 0 &&
    var first := choices.items[0];
    first.Object? && "message" in first.fields &&
    var message := first.fields["message"];
    message.Object? && "content" in message.fields && message.fields["content"] == Text(t)
  }

  /** For every response whose first choice carries text content, that content is the
      reply, whatever other fields the response, the choice and the message have. */
  lemma ReplyOfResponse(root: Node, t: string)
    requires FirstContentIs(root, t)
    ensures ExtractReply(root) == t
  {
  }

  /** One element of a completion's "choices" array. */
  function Choice(reply: string): Node {
    Object(map["message" := Object(map["role" := Text("assistant"), "content" := Text(reply)])])
  }

  /** A chat-completion response {"choices": [{"message": {"role": "assistant",
      "content": ...}}, ...]} with one choice per reply. */
  function Completion(replies: seq<string>): Node {
    Object(map["choices" := Array(seq(|replies|, i requires 0 <= i < |replies| => Choice(replies[i])))])
  }

  /** The reply extracted from a completion is its first choice's content, and "" when
      the completion has no choices. */
  lemma ReplyOfCompletion(replies: seq<string>)
    ensures ExtractReply(Completion(replies)) == if |replies| > 0 then replies[0] else ""
  {
  }

  /** What chat returns for one exchange, given the JSON parser (None: the body does not
      parse). */
  function ChatReply(x: Exchange, parse: string -> Option<Node>): (r: Result<string, ChatError>)
    ensures r.Success? ==> x.Responded? && IsSuccessStatus(x.status) && x.body.Some?
    ensures x.Responded? && !IsSuccessStatus(x.status) ==> r == Failure(HttpStatus(x.status, x.body))
    ensures x.ExchangeFailed? ==> r == Failure(TransportError)
    ensures r == Failure(ParseError) <==>
      x.Responded? && IsSuccessStatus(x.status) && x.body.Some? && parse(x.body.value).None?
    ensures r.Success? <==>
      x.Responded? && IsSuccessStatus(x.status) && x.body.Some? && parse(x.body.value).Some?
    ensures r.Success? ==> r.value == ExtractReply(parse(x.body.value).value)
  {
    match Deliver(x)
    case Failure(e) => Failure(e)
    case Success(body) =>
      match parse(body)
      case None => Failure(ParseError)
      case Some(root) => Success(ExtractReply(root))
  }

  /** A 2xx exchange whose body parses to any response with first-choice text content `t`
      yields `t`; it is never a parse failure. */
  lemma ReplyOfSuccessfulExchange(status: int, body: string, parse: string -> Option<Node>, t: string)
    requires IsSuccessStatus(status) && parse(body).Some? && FirstContentIs(parse(body).value, t)
    ensures ChatReply(Responded(status, Some(body)), parse) == Success(t)
  {
    ReplyOfResponse(parse(body).value, t);
  }
}
