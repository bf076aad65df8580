/**
  The LLM service's ModelRunnerClient: the choice of the model runner's base
  URL from the environment, the chat request sent for a user message (with
  the validator's error appended on a retry), the fallback text returned when
  the call fails, and the health probe.

  The model runner itself is the oracle `complete`, from the client and the
  chat request to what the call produced: a raised exception, or the reply's
  message content, which may be None.
*/
module LlmModelRunnerClient {
  import opened Results
  import opened Strings
  import opened Values

  const MODEL_NAME: string := "shato/gemma-270m-finetuned"
  const DEFAULT_CONTAINER_ENDPOINT: string := "http://model-runner.docker.internal/engines/llama.cpp/v1"
  const DEFAULT_HOST_ENDPOINT: string := "http://localhost:11434/v1"
  const API_KEY: string := "dummy-key"
  const RETRY_SEPARATOR: string := "\n\nPrevious error: "
  const NOT_INITIALIZED: string := "Model Runner client not initialized. Call initialize_client() first."

  /** `json.dumps` of the reply used when the model call fails. */
  const ERROR_REPLY_JSON: string :=
    "{\"response\": \"I'm sorry, I encountered an error processing your request.\", "
    + "\"command\": null, \"command_params\": null}"

  /** The process environment: its variables and whether `/.dockerenv` exists. */
  datatype Environment = Environment(variables: map<string, string>, dockerEnvExists: bool)

  /** `os.getenv(name, default)` */
  function GetEnv(env: Environment, name: string, default: string): string {
    if name in env.variables then env.variables[name] else default
  }

  /** The `base_url` chosen by `__init__`. */
  function SelectBaseUrl(env: Environment): string {
    var containerEndpoint := GetEnv(env, "MODEL_RUNNER_URL", DEFAULT_CONTAINER_ENDPOINT);
    var hostEndpoint := GetEnv(env, "MODEL_RUNNER_FALLBACK_URL", DEFAULT_HOST_ENDPOINT);
    if GetEnv(env, "MODEL_RUNNER_URL", "") != "" then containerEndpoint
    else if env.dockerEnvExists then containerEndpoint
    else hostEndpoint
  }

  /**
    An explicit MODEL_RUNNER_URL wins; otherwise a container uses the container
    default; otherwise MODEL_RUNNER_FALLBACK_URL, or the host default. A
    MODEL_RUNNER_URL set to the empty string counts as unset, except inside a
    container, where the empty value itself is used.
  */
  lemma BaseUrlChoice(env: Environment)
    ensures var vars := env.variables;
            var url := SelectBaseUrl(env);
      && ("MODEL_RUNNER_URL" in vars && vars["MODEL_RUNNER_URL"] != "" ==> url == vars["MODEL_RUNNER_URL"])
      && ("MODEL_RUNNER_URL" !in vars && env.dockerEnvExists ==> url == DEFAULT_CONTAINER_ENDPOINT)
      && ("MODEL_RUNNER_URL" in vars && vars["MODEL_RUNNER_URL"] == "" && env.dockerEnvExists ==> url == "")
      && ((("MODEL_RUNNER_URL" !in vars || vars["MODEL_RUNNER_URL"] == "") && !env.dockerEnvExists)
          ==> url == (if "MODEL_RUNNER_FALLBACK_URL" in vars then vars["MODEL_RUNNER_FALLBACK_URL"]
                      else DEFAULT_HOST_ENDPOINT))
  {
  }

  /** The AsyncOpenAI client: where it points and the key it sends. */
  datatype ApiClient = ApiClient(baseUrl: string, apiKey: string)

  datatype ChatMessage = ChatMessage(role: string, content: string)

  /** The arguments of `chat.completions.create` that the service sets. */
  datatype ChatRequest = ChatRequest(
    model: string, messages: seq<ChatMessage>, maxTokens: nat, temperature: real, jsonObject: bool)

  /** What one call to the model runner produced. */
  datatype Completion = Raised(error: string) | Returned(content: Option<string>)

  /** The client's fields. */
  datatype ClientState = ClientState(client: Option<ApiClient>, modelName: string, baseUrl: string)

  /** The user message: the input, and on a retry the previous error after a blank line. */
  function UserContent(repr: Value -> string, userInput: string, retryContext: Value): string {
    if Truthy(retryContext) then userInput + RETRY_SEPARATOR + Format(repr, retryContext) else userInput
  }

  /** The messages sent: the system prompt, then the user content. */
  function Messages(systemPrompt: string, userContent: string): seq<ChatMessage> {
    [ChatMessage("system", systemPrompt), ChatMessage("user", userContent)]
  }

  function GenerationRequest(modelName: string, messages: seq<ChatMessage>): ChatRequest {
    ChatRequest(modelName, messages, 512, 0.1, true)
  }

  /**
    What `generate_response` returns: the stripped model text, the fallback
    JSON text when the call raises or returns no content, or, as Err, the
    RuntimeError raised when there is no client.
  */
  function GeneratedText(state: ClientState, complete: (ApiClient, ChatRequest) -> Completion,
                         repr: Value -> string, userInput: string, systemPrompt: string,
                         retryContext: Value): Result<string, string>
  {
    match state.client
    case None => Err(NOT_INITIALIZED)
    case Some(client) =>
      var request := GenerationRequest(state.modelName, Messages(systemPrompt, UserContent(repr, userInput, retryContext)));
      match complete(client, request)
      case Returned(Some(text)) => Ok(Strip(text))
      case _ => Ok(ERROR_REPLY_JSON)
  }

  /** The probe `health_check` sends. */
  function HealthProbe(modelName: string): ChatRequest {
    ChatRequest(modelName, [ChatMessage("user", "Hello")], 10, 0.1, false)
  }

  /** What `health_check` returns. */
  function HealthStatus(state: ClientState, complete: (ApiClient, ChatRequest) -> Completion): Body {
    match state.client
    case None => map["model_runner_healthy" := Bool(false), "error" := Str("Client not initialized")]
    case Some(client) =>
      match complete(client, HealthProbe(state.modelName))
      case Returned(Some(text)) =>
        map["model_runner_healthy" := Bool(true), "model_name" := Str(state.modelName),
            "endpoint" := Str(state.baseUrl), "test_response_length" := Int(|text|)]
      case Returned(None) =>
        map["model_runner_healthy" := Bool(false), "error" := Str("object of type 'NoneType' has no len()")]
      case Raised(e) => map["model_runner_healthy" := Bool(false), "error" := Str(e)]
  }

  /** `health_check()["model_runner_healthy"]` as the service reads it. */
  predicate Healthy(state: ClientState, complete: (ApiClient, ChatRequest) -> Completion) {
    Truthy(Get(HealthStatus(state, complete), "model_runner_healthy", Bool(false)))
  }

  class ModelRunnerClient {
    var client: Option<ApiClient>
    var modelName: string
    var baseUrl: string

    function State(): ClientState
      reads this
    {
      ClientState(client, modelName, baseUrl)
    }

    /** `ModelRunnerClient()`: the base URL from the environment, then the client over it. */
    constructor (env: Environment)
      ensures modelName == MODEL_NAME && baseUrl == SelectBaseUrl(env)
      ensures client == Some(ApiClient(baseUrl, API_KEY))
    {
      client := None;
      modelName := MODEL_NAME;
      baseUrl := SelectBaseUrl(env);
      new;
      InitializeClient();
    }

    /** `initialize_client()` */
    method InitializeClient()
      modifies this`client
      ensures client == Some(ApiClient(baseUrl, API_KEY))
    {
      client := Some(ApiClient(baseUrl, API_KEY));
    }

    /** `is_loaded()` */
    predicate IsLoaded()
      reads this
    {
      client.Some?
    }

    /** `generate_response(user_input, system_prompt, retry_context)` */
    method GenerateResponse(complete: (ApiClient, ChatRequest) -> Completion, repr: Value -> string,
                            userInput: string, systemPrompt: string := "", retryContext: Value := Null)
      returns (r: Result<string, string>)
      ensures r == GeneratedText(State(), complete, repr, userInput, systemPrompt, retryContext)
    {
      if client.None? {
        return Err(NOT_INITIALIZED);
      }
      var userContent;
      if Truthy(retryContext) {
        userContent := userInput + RETRY_SEPARATOR + Format(repr, retryContext);
      } else {
        userContent := userInput;
      }
      var messages := [ChatMessage("system", systemPrompt), ChatMessage("user", userContent)];
      var response := complete(client.value, ChatRequest(modelName, messages, 512, 0.1, true));
      if response.Returned? && response.content.Some? {
        return Ok(Strip(response.content.value));
      }
      return Ok(ERROR_REPLY_JSON);
    }

    /** `health_check()` */
    method HealthCheck(complete: (ApiClient, ChatRequest) -> Completion) returns (status: Body)
      ensures status == HealthStatus(State(), complete)
    {
      if client.None? {
        return map["model_runner_healthy" := Bool(false), "error" := Str("Client not initialized")];
      }
      var test := complete(client.value, ChatRequest(modelName, [ChatMessage("user", "Hello")], 10, 0.1, false));
      if test.Raised? {
        return map["model_runner_healthy" := Bool(false), "error" := Str(test.error)];
      }
      if test.content.None? {
        return map["model_runner_healthy" := Bool(false), "error" := Str("object of type 'NoneType' has no len()")];
      }
      return map["model_runner_healthy" := Bool(true), "model_name" := Str(modelName),
                 "endpoint" := Str(baseUrl), "test_response_length" := Int(|test.content.value|)];
    }
  }

  // ---------------------------------------------------------- properties

  /**
    The user content is the input itself exactly when there is no retry
    context; otherwise it is the input, the separator and the rendered context.
  */
  lemma UserContentIff(repr: Value -> string, userInput: string, retryContext: Value)
    ensures UserContent(repr, userInput, retryContext) == userInput <==> !Truthy(retryContext)
    ensures Truthy(retryContext) ==>
      var c := UserContent(repr, userInput, retryContext);
      && c[..|userInput|] == userInput
      && c[|userInput|..|userInput| + |RETRY_SEPARATOR|] == RETRY_SEPARATOR
      && c[|userInput| + |RETRY_SEPARATOR|..] == Format(repr, retryContext)
  {
    if Truthy(retryContext) {
      var c := UserContent(repr, userInput, retryContext);
      assert |c| > |userInput|;
    }
  }

  /**
    The only call `generate_response` makes is one chat completion with the
    client's model, two messages (the system prompt, then the user content),
    at most 512 tokens, temperature 0.1 and a JSON-object reply: two model
    runners that agree on that one request give the same reply.
  */
  lemma RequestAsSent(state: ClientState, c1: (ApiClient, ChatRequest) -> Completion,
                      c2: (ApiClient, ChatRequest) -> Completion,
                      repr: Value -> string, userInput: string, systemPrompt: string, retryContext: Value)
    requires state.client.None?
          || c1(state.client.value, ChatRequest(state.modelName,
               [ChatMessage("system", systemPrompt), ChatMessage("user", UserContent(repr, userInput, retryContext))],
               512, 0.1, true))
          == c2(state.client.value, ChatRequest(state.modelName,
               [ChatMessage("system", systemPrompt), ChatMessage("user", UserContent(repr, userInput, retryContext))],
               512, 0.1, true))
    ensures GeneratedText(state, c1, repr, userInput, systemPrompt, retryContext)
         == GeneratedText(state, c2, repr, userInput, systemPrompt, retryContext)
  {
  }

  /** Without a client nothing is sent and the call raises. */
  lemma NoClientRaises(state: ClientState, complete: (ApiClient, ChatRequest) -> Completion,
                       repr: Value -> string, userInput: string, systemPrompt: string, retryContext: Value)
    ensures GeneratedText(state, complete, repr, userInput, systemPrompt, retryContext).Err?
        <==> state.client.None?
  {
  }

  /**
    With a client the call never raises: the reply is the model's text without
    surrounding whitespace, or the fallback JSON text when the call failed.
  */
  lemma GeneratedTextShape(state: ClientState, complete: (ApiClient, ChatRequest) -> Completion,
                           repr: Value -> string, userInput: string, systemPrompt: string, retryContext: Value)
    requires state.client.Some?
    ensures var r := GeneratedText(state, complete, repr, userInput, systemPrompt, retryContext);
            var sent := complete(state.client.value,
              GenerationRequest(state.modelName, Messages(systemPrompt, UserContent(repr, userInput, retryContext))));
      && r.Ok?
      && (sent.Returned? && sent.content.Some? ==>
            exists i, j ::
              && 0 <= i <= j <= |sent.content.value|
              && r.value == sent.content.value[i..j]
              && AllSpace(sent.content.value[..i]) && AllSpace(sent.content.value[j..]))
      && (sent.Raised? || sent.content.None? ==> r.value == ERROR_REPLY_JSON)
  {
    var sent := complete(state.client.value,
      GenerationRequest(state.modelName, Messages(systemPrompt, UserContent(repr, userInput, retryContext))));
    if sent.Returned? && sent.content.Some? {
      var i, j := StripSlice(sent.content.value);
    }
  }

  /** A client is loaded exactly when generating a reply cannot raise. */
  lemma LoadedIffGenerates(c: ModelRunnerClient, complete: (ApiClient, ChatRequest) -> Completion,
                           repr: Value -> string, userInput: string, systemPrompt: string, retryContext: Value)
    ensures c.IsLoaded() <==> GeneratedText(c.State(), complete, repr, userInput, systemPrompt, retryContext).Ok?
  {
  }

  /** Without a client the health check says so, without probing. */
  lemma HealthWithoutClient(state: ClientState, complete: (ApiClient, ChatRequest) -> Completion)
    requires state.client.None?
    ensures HealthStatus(state, complete)
         == map["model_runner_healthy" := Bool(false), "error" := Str("Client not initialized")]
    ensures !Healthy(state, complete)
  {
  }

  /** The model runner is healthy exactly when the probe returned some text. */
  lemma HealthyIff(state: ClientState, complete: (ApiClient, ChatRequest) -> Completion)
    ensures Healthy(state, complete)
        <==> state.client.Some?
             && complete(state.client.value, HealthProbe(state.modelName)).Returned?
             && complete(state.client.value, HealthProbe(state.modelName)).content.Some?
  {
  }
}
