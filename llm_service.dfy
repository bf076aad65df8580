/**
  The LLM service's `/generate_response` handler. It refuses a blank input
  (400) and an unhealthy model runner (503), asks the model with the stored
  system prompt, parses the model text as JSON, and shapes whatever came back
  into a `{response, command, command_params}` record. Model text that is not
  JSON becomes a fixed chat reply, and any other failure a fixed error reply.

  `json.loads` is the parameter `loads`; None stands for a JSONDecodeError.
*/
module LlmService {
  import opened Results
  import opened Strings
  import opened Values
  import opened LlmPromptBuilder
  import opened LlmModelRunnerClient

  const USER_INPUT_REQUIRED: string := "user_input is required"
  const MODEL_NOT_AVAILABLE: string := "Model not available"
  const DEFAULT_COMMAND_RESPONSE: string := "Command received"
  const DEFAULT_CHAT_RESPONSE: string := "I'm ready to help!"
  const PARSE_FALLBACK_RESPONSE: string := "I'm ready to help with robot commands!"
  const GENERIC_ERROR_RESPONSE: string := "I encountered an error processing your request."

  /** The three keys every reply of the handler carries. */
  const REPLY_KEYS: set<string> := {"response", "command", "command_params"}

  // ------------------------------------------------------------- builders

  function BuildChatResponse(chatText: Value): (reply: Body)
    ensures reply.Keys == REPLY_KEYS && reply["command"] == Null && reply["command_params"] == Null
  {
    map["response" := chatText, "command" := Null, "command_params" := Null]
  }

  function BuildCommandResponse(modelResponse: Value, commandType: Value, params: Value): (reply: Body)
    ensures reply.Keys == REPLY_KEYS
  {
    map["response" := modelResponse, "command" := commandType, "command_params" := params]
  }

  function BuildErrorResponse(errorMessage: string): (reply: Body)
    ensures reply.Keys == REPLY_KEYS && reply["command"] == Null && reply["command_params"] == Null
  {
    map["response" := Str(errorMessage), "command" := Null, "command_params" := Null]
  }

  // -------------------------------------------------------------- shaping

  /** The dict `call_model_with_prompt` falls back to when the text is not JSON. */
  const PARSE_FALLBACK: Value :=
    Object(map["response" := Str(PARSE_FALLBACK_RESPONSE), "command" := Null, "command_params" := Null])

  /** `json.loads(text.strip())`, or the fallback dict when that raises. */
  function ParseModelText(loads: string -> Option<Value>, text: string): Value {
    match loads(Strip(text))
    case Some(v) => v
    case None => PARSE_FALLBACK
  }

  /**
    The reply made of a parsed result. A result that is not a dict makes the
    membership test or the lookups raise, which gives the error reply.
  */
  function ShapeResult(result: Value): (reply: Body)
    ensures reply.Keys == REPLY_KEYS
  {
    if !result.Object? then BuildErrorResponse(GENERIC_ERROR_RESPONSE)
    else
      var d := result.fields;
      if "command" in d && Truthy(d["command"]) then
        BuildCommandResponse(Get(d, "response", Str(DEFAULT_COMMAND_RESPONSE)), d["command"],
                             Get(d, "command_params", Object(map[])))
      else BuildChatResponse(Get(d, "response", Str(DEFAULT_CHAT_RESPONSE)))
  }

  /**
    What `call_model_with_prompt` returns: the parsed model text, or, as Err,
    the error raised by the client.
  */
  function ModelResult(state: ClientState, systemPrompt: string, complete: (ApiClient, ChatRequest) -> Completion,
                       repr: Value -> string, loads: string -> Option<Value>,
                       userInput: string, retryContext: Value): Result<Value, string>
  {
    match GeneratedText(state, complete, repr, userInput, systemPrompt, retryContext)
    case Err(e) => Err(e)
    case Ok(text) => Ok(ParseModelText(loads, text))
  }

  /** What `generate_response` answers for a request body. */
  function Answer(state: ClientState, systemPrompt: string, complete: (ApiClient, ChatRequest) -> Completion,
                  repr: Value -> string, loads: string -> Option<Value>, request: Body): HttpResponse
  {
    var userInput := Get(request, "user_input", Str(""));
    var retryContext := Get(request, "retry_context", Null);
    if !userInput.Str? then HttpResponse(200, BuildErrorResponse(GENERIC_ERROR_RESPONSE))
    else if Strip(userInput.s) == "" then HttpResponse(400, map["detail" := Str(USER_INPUT_REQUIRED)])
    else if !Healthy(state, complete) then HttpResponse(503, map["detail" := Str(MODEL_NOT_AVAILABLE)])
    else
      match ModelResult(state, systemPrompt, complete, repr, loads, userInput.s, retryContext)
      case Err(_) => HttpResponse(200, BuildErrorResponse(GENERIC_ERROR_RESPONSE))
      case Ok(result) => HttpResponse(200, ShapeResult(result))
  }

  /** `call_model_with_prompt(user_input, retry_context)` over the service's two components. */
  method CallModelWithPrompt(modelClient: ModelRunnerClient, promptBuilder: PromptBuilder,
                             complete: (ApiClient, ChatRequest) -> Completion, repr: Value -> string,
                             loads: string -> Option<Value>, userInput: string, retryContext: Value := Null)
    returns (r: Result<Value, string>)
    ensures r == ModelResult(modelClient.State(), promptBuilder.systemPrompt, complete, repr, loads,
                             userInput, retryContext)
  {
    var systemPrompt := promptBuilder.BuildPrompt(userInput, retryContext);
    var response := modelClient.GenerateResponse(complete, repr, userInput, systemPrompt, retryContext);
    if response.Err? {
      return Err(response.error);
    }
    var parsed := loads(Strip(response.value));
    if parsed.None? {
      return Ok(PARSE_FALLBACK);
    }
    return Ok(parsed.value);
  }

  /** `generate_response(request)` over the service's two components. */
  method GenerateResponse(modelClient: ModelRunnerClient, promptBuilder: PromptBuilder,
                          complete: (ApiClient, ChatRequest) -> Completion, repr: Value -> string,
                          loads: string -> Option<Value>, request: Body)
    returns (r: HttpResponse)
    ensures r == Answer(modelClient.State(), promptBuilder.systemPrompt, complete, repr, loads, request)
  {
    var userInput := Get(request, "user_input", Str(""));
    var retryContext := Get(request, "retry_context", Null);
    if !userInput.Str? {
      // `.strip()` on a non-string raises, and the handler answers with its error reply
      return HttpResponse(200, BuildErrorResponse(GENERIC_ERROR_RESPONSE));
    }
    if Strip(userInput.s) == "" {
      return HttpResponse(400, map["detail" := Str(USER_INPUT_REQUIRED)]);
    }
    var healthStatus := modelClient.HealthCheck(complete);
    if !Truthy(Get(healthStatus, "model_runner_healthy", Bool(false))) {
      return HttpResponse(503, map["detail" := Str(MODEL_NOT_AVAILABLE)]);
    }
    var result := CallModelWithPrompt(modelClient, promptBuilder, complete, repr, loads, userInput.s, retryContext);
    if result.Err? {
      return HttpResponse(200, BuildErrorResponse(GENERIC_ERROR_RESPONSE));
    }
    return HttpResponse(200, ShapeResult(result.value));
  }

  // ---------------------------------------------------------- properties

  /** A missing, empty or whitespace-only `user_input` is refused with 400 before the model is asked. */
  lemma BlankInputRejected(state: ClientState, systemPrompt: string, complete: (ApiClient, ChatRequest) -> Completion,
                           repr: Value -> string, loads: string -> Option<Value>, request: Body)
    requires "user_input" !in request || (request["user_input"].Str? && AllSpace(request["user_input"].s))
    ensures Answer(state, systemPrompt, complete, repr, loads, request)
         == HttpResponse(400, map["detail" := Str(USER_INPUT_REQUIRED)])
  {
    StripEmptyIffBlank(Get(request, "user_input", Str("")).s);
  }

  /** A non-blank input meets an unhealthy model runner with 503, and a missing client counts as unhealthy. */
  lemma UnhealthyRejected(state: ClientState, systemPrompt: string, complete: (ApiClient, ChatRequest) -> Completion,
                          repr: Value -> string, loads: string -> Option<Value>, request: Body)
    requires "user_input" in request && request["user_input"].Str? && !AllSpace(request["user_input"].s)
    requires !Healthy(state, complete) || state.client.None?
    ensures Answer(state, systemPrompt, complete, repr, loads, request)
         == HttpResponse(503, map["detail" := Str(MODEL_NOT_AVAILABLE)])
  {
    StripEmptyIffBlank(request["user_input"].s);
  }

  /** Every 200 answer has exactly the three reply keys. */
  lemma AnswerKeys(state: ClientState, systemPrompt: string, complete: (ApiClient, ChatRequest) -> Completion,
                   repr: Value -> string, loads: string -> Option<Value>, request: Body)
    ensures var r := Answer(state, systemPrompt, complete, repr, loads, request);
      && (r.status == 200 || r.status == 400 || r.status == 503)
      && (r.status == 200 ==> r.body.Keys == REPLY_KEYS)
      && (r.status != 200 ==> r.body.Keys == {"detail"})
  {
    var userInput := Get(request, "user_input", Str(""));
    if userInput.Str? && Strip(userInput.s) != "" && Healthy(state, complete) {
      var result := ModelResult(state, systemPrompt, complete, repr, loads, userInput.s,
                                Get(request, "retry_context", Null));
      if result.Ok? {
        assert Answer(state, systemPrompt, complete, repr, loads, request) == HttpResponse(200, ShapeResult(result.value));
      }
    }
  }

  /** The reply carries a command exactly when the parsed result is a dict with a truthy `command`. */
  lemma CommandIff(result: Value)
    ensures ShapeResult(result)["command"] != Null
        <==> result.Object? && "command" in result.fields && Truthy(result.fields["command"])
  {
  }

  /**
    A command reply keeps the model's command, its `response` or "Command
    received", and its `command_params`, which become {} only when the key is
    absent (an explicit null stays null).
  */
  lemma CommandReplyFields(result: Value)
    requires result.Object? && "command" in result.fields && Truthy(result.fields["command"])
    ensures var reply := ShapeResult(result);
            var d := result.fields;
      && reply["command"] == d["command"]
      && reply["response"] == (if "response" in d then d["response"] else Str(DEFAULT_COMMAND_RESPONSE))
      && reply["command_params"] == (if "command_params" in d then d["command_params"] else Object(map[]))
  {
  }

  /** Any other dict gives a chat reply with its `response` or "I'm ready to help!". */
  lemma ChatReplyFields(result: Value)
    requires result.Object? && !("command" in result.fields && Truthy(result.fields["command"]))
    ensures ShapeResult(result)
         == BuildChatResponse(if "response" in result.fields then result.fields["response"] else Str(DEFAULT_CHAT_RESPONSE))
  {
  }

  /** Model text that is not JSON gives the fixed chat reply. */
  lemma ParseFailureIsChat(loads: string -> Option<Value>, text: string)
    requires loads(Strip(text)).None?
    ensures ShapeResult(ParseModelText(loads, text)) == BuildChatResponse(Str(PARSE_FALLBACK_RESPONSE))
  {
    var d := PARSE_FALLBACK.fields;
    assert ParseModelText(loads, text) == PARSE_FALLBACK;
    assert "command" in d && d["command"] == Null && !Truthy(Null);
    assert Get(d, "response", Str(DEFAULT_CHAT_RESPONSE)) == Str(PARSE_FALLBACK_RESPONSE);
  }

  /** JSON that is not an object (a list, a string, a number, null) gives the error reply. */
  lemma NonObjectIsError(loads: string -> Option<Value>, text: string)
    requires loads(Strip(text)).Some? && !loads(Strip(text)).value.Object?
    ensures ShapeResult(ParseModelText(loads, text)) == BuildErrorResponse(GENERIC_ERROR_RESPONSE)
  {
  }

  /**
    A healthy service with a non-blank input answers 200 with the shaped
    model result; the client's RuntimeError cannot occur, since a missing
    client already fails the health check.
  */
  lemma HealthyAnswer(state: ClientState, systemPrompt: string, complete: (ApiClient, ChatRequest) -> Completion,
                      repr: Value -> string, loads: string -> Option<Value>, request: Body)
    requires "user_input" in request && request["user_input"].Str? && !AllSpace(request["user_input"].s)
    requires Healthy(state, complete)
    ensures var userInput := request["user_input"].s;
            var result := ModelResult(state, systemPrompt, complete, repr, loads, userInput,
                                      Get(request, "retry_context", Null));
      && result.Ok?
      && Answer(state, systemPrompt, complete, repr, loads, request) == HttpResponse(200, ShapeResult(result.value))
  {
    var userInput := request["user_input"].s;
    var retryContext := Get(request, "retry_context", Null);
    StripEmptyIffBlank(userInput);
    HealthyIff(state, complete);
    NoClientRaises(state, complete, repr, userInput, systemPrompt, retryContext);
    var result := ModelResult(state, systemPrompt, complete, repr, loads, userInput, retryContext);
    assert result.Ok?;
  }

  /**
    When the model call fails, the client's fallback text (parsed as the JSON
    it is) reaches the caller as a chat reply apologising for the error.
  */
  lemma CallFailureIsApology(state: ClientState, systemPrompt: string, complete: (ApiClient, ChatRequest) -> Completion,
                             repr: Value -> string, loads: string -> Option<Value>, userInput: string, retryContext: Value)
    requires state.client.Some?
    requires complete(state.client.value, GenerationRequest(state.modelName,
               Messages(systemPrompt, UserContent(repr, userInput, retryContext)))).Raised?
    requires loads(Strip(ERROR_REPLY_JSON))
          == Some(Object(map["response" := Str("I'm sorry, I encountered an error processing your request."),
                             "command" := Null, "command_params" := Null]))
    ensures var result := ModelResult(state, systemPrompt, complete, repr, loads, userInput, retryContext);
      && result.Ok?
      && ShapeResult(result.value)
         == BuildChatResponse(Str("I'm sorry, I encountered an error processing your request."))
  {
  }
}
