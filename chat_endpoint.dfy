/**
 * The part of the `/chat` handler before the language model is called: the
 * request body's defaults and the augmented prompt built from the message.
 */
module ChatEndpoint {
  import opened Wrappers
  import opened Embedder
  import opened Retrieval
  import opened Context
  import opened Prompt

  /** A parsed JSON value (numbers kept as integers). */
  datatype Json =
    | JNull
    | JBool(b: bool)
    | JNumber(n: int)
    | JString(s: string)
    | JArray(items: seq<Json>)
    | JObject(members: map<string, Json>)

  datatype RequestError =
    | NotAnObject(what: string)   // `.get` called on a value that is not a dict
    | NotAString(what: string)    // a field the handler uses as text holds another value

  datatype ChatInput = ChatInput(userMessage: string, sessionId: string)

  const DefaultSessionId := "default"

  /** `obj.get(key, default)`. */
  function Get(obj: map<string, Json>, key: string, default: Json): Json {
    if key in obj then obj[key] else default
  }

  /**
   * `request.json.get('message', {}).get("content", "")` and
   * `request.json.get('sessionId', 'default')`: a missing message or content
   * reads as the empty message, a missing session id as "default".
   */
  function ReadChatInput(body: Json): (r: Result<ChatInput, RequestError>)
    ensures body.JObject? && "message" !in body.members && "sessionId" !in body.members
            ==> r == Ok(ChatInput("", "default"))
    ensures r.Err? <==>
              || !body.JObject?
              || ("message" in body.members && !body.members["message"].JObject?)
              || ("message" in body.members && body.members["message"].JObject?
                  && "content" in body.members["message"].members
                  && !body.members["message"].members["content"].JString?)
              || ("sessionId" in body.members && !body.members["sessionId"].JString?)
    ensures r.Ok? ==> (r.value.userMessage == "" <==>
              "message" !in body.members || "content" !in body.members["message"].members
              || body.members["message"].members["content"] == JString(""))
    ensures r.Ok? ==> (("sessionId" !in body.members ==> r.value.sessionId == "default")
                       && ("sessionId" in body.members ==> body.members["sessionId"] == JString(r.value.sessionId)))
    ensures r.Ok? && "message" in body.members && "content" in body.members["message"].members
            ==> body.members["message"].members["content"] == JString(r.value.userMessage)
  {
    if !body.JObject? then Err(NotAnObject("request body"))
    else
      var message := Get(body.members, "message", JObject(map[]));
      if !message.JObject? then Err(NotAnObject("message"))
      else
        var content := Get(message.members, "content", JString(""));
        var sessionId := Get(body.members, "sessionId", JString(DefaultSessionId));
        if !content.JString? then Err(NotAString("message.content"))
        else if !sessionId.JString? then Err(NotAString("sessionId"))
        else Ok(ChatInput(content.s, sessionId.s))
  }

  /** What the handler hands to the history-aware model: the session and the augmented prompt. */
  datatype PreparedTurn = PreparedTurn(sessionId: string, prompt: string)

  /**
   * The handler up to the model call: read the inputs, then rewrite the
   * message with its context. The prompt, not the raw message, is what is
   * sent as the human turn.
   */
  method PrepareTurn(body: Json, model: EmbeddingModel, collection: Collection)
    returns (r: Result<PreparedTurn, RequestError>)
    ensures r.Err? <==> ReadChatInput(body).Err?
    ensures r.Err? ==> r.error == ReadChatInput(body).error
    ensures r.Ok? ==>
      var input := ReadChatInput(body).value;
      && r.value.sessionId == input.sessionId
      && r.value.prompt
         == ComposePrompt(input.userMessage, FormatContext(VectorSearch(input.userMessage, model, collection, ResultLimit)))
  {
    var input := ReadChatInput(body);
    if input.Err? {
      return Err(input.error);
    }
    var prompt := RewriteUserMessageWithContext(input.value.userMessage, model, collection);
    r := Ok(PreparedTurn(input.value.sessionId, prompt));
  }
}
