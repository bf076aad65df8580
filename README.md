# Project-Shato core, modelled in Dafny

Project-Shato turns a user's sentence into a robot command. Four services take part:

- **orchestrator** (`/process`): forwards the user input to the LLM service. If the reply carries a command, it sends that command to the robot validator. When validation fails, it asks the LLM exactly once more, passing the validator's error as retry context.
- **LLM service** (`/generate_response`):
  - builds the conversation from a stored system prompt;
  - calls the model runner through an OpenAI-compatible client;
  - parses the model's text as JSON and shapes the result into a `{response, command, command_params}` reply.
- **robot validator** (`/execute_command`):
  - checks the request body;
  - validates the command against one Pydantic schema per command;
  - turns the first schema error into a sentence;
  - for a valid command, appends a simulated description of the robot's action.
- **TTS service** (`/synthesize`): normalises the text before speech synthesis. It keeps only letters, digits and whitespace, collapses whitespace, lowercases, spells out numbers and strips the ends. It refuses empty text and a missing model.

## How the model is built

Python values are one datatype, `Values.Value`: null, bool, int, float, string, list and dict. Request and response bodies are maps.

Behaviour of libraries and of services the core calls enters as parameters:

- `repr` is Python's `str()` of floats, lists and dicts.
- `errorText` is `str(ValidationError)`.
- `loads` is `json.loads`. It gives None for a decode error.
- `numWords` is `num2words`.
- `typeError` is the text of the TypeError that `re.sub` raises on a non-string.
- `complete` is the model runner's chat-completion call.
- `llm` and `validator` are the two services as seen by the orchestrator.
- `uuid` is the fresh uuid of a request.
- `files` is the prompt file system.
- `Environment` holds the environment variables and whether `/.dockerenv` exists.

State that the source updates in place becomes a class:

- the orchestrator's two services, with one log of every call made to them, in order;
- the PromptBuilder;
- the ModelRunnerClient.

Each method is proved equal to a pure function. The properties are lemmas about those functions.

Pydantic validation follows Pydantic 2:

- Fields are checked in declaration order, and every violation is reported.
- An absent field with a default is not checked.
- Undeclared keys are ignored.
- Lax coercions are included: bool to float or int, and an integral float to int.

## Model

| member | source | states |
|---|---|---|
| Strings.Strip | TTS/app/main.py:53 | `strip()` leaves neither leading nor trailing whitespace |
| Strings.StripSlice | llm-service/app/services/prompt_builder.py:40 | `strip()` keeps one contiguous slice of its input and drops only whitespace on either side of it |
| Strings.StripEmptyIffBlank | llm-service/app/main.py:70 | a string strips to "" exactly when it is all whitespace (the blank-input test) |
| Strings.StripStripped | TTS/app/main.py:138 | stripping text that has no whitespace at either end changes nothing |
| Strings.LastSplitPieceOfJoin | robot-validator-api/app/validators/command_validator.py:97-101 | splitting a " -> "-joined path on " -> " and taking the last piece gives back the last segment, when no segment contains the separator's first character (a space) |
| Strings.DecimalRoundTrip | TTS/app/main.py:33 | `int(str(n)) == n` for every natural number |
| RobotCommands.CheckFieldsEmptyIff | robot-validator-api/app/models/commands.py:5-31 | a parameter model reports no error exactly when every declared field passes |
| RobotCommands.FirstErrorIsFirstFailingField | robot-validator-api/app/models/commands.py:5-31 | the first reported error is that of the first field, in declaration order, that fails |
| RobotCommands.ExtraKeysIgnored | robot-validator-api/app/models/commands.py:5-31 | adding an undeclared parameter never changes the errors |
| RobotCommands.CommandLiteralPasses | robot-validator-api/app/models/commands.py:43-58 | the `command` literal of the model chosen by name never fails |
| RobotCommands.MoveToAccepts | robot-validator-api/app/models/commands.py:5-8 | move_to passes exactly when `x` and `y` are both present numbers |
| RobotCommands.MoveToMissingCoordinate | robot-validator-api/app/models/commands.py:5-8 | a missing `x` is the first error, at `command_params -> x`; so is a missing `y` when `x` passes |
| RobotCommands.RotateAccepts | robot-validator-api/app/models/commands.py:11-16 | rotate passes exactly when `angle` is a present number and `direction` is "clockwise" or "counter-clockwise" |
| RobotCommands.StartPatrolAccepts | robot-validator-api/app/models/commands.py:19-31 | start_patrol passes exactly when route_id is a known route, and any given speed is a known speed, and any given repeat_count is an integer of at least -1 |
| RobotCommands.RepeatCountBoundary | robot-validator-api/app/models/commands.py:27-31 | repeat counts -1, 0 and 5 pass; -2 fails with the single `greater_than_equal` error "Input should be greater than or equal to -1" |
| RobotCommands.WithDefaultsKeeps | robot-validator-api/app/models/commands.py:24-31 | filling in defaults keeps every given key and its value |
| RobotResponses.SuccessJson | robot-validator-api/app/models/responses.py:5-10 | a success body has exactly the keys success, message, command and command_params, with success true |
| RobotResponses.ErrorJson | robot-validator-api/app/models/responses.py:13-17 | an error body has exactly the keys success, error and details, with success false |
| RobotResponses.SuccessRoundTrip | robot-validator-api/app/models/responses.py:5-10 | reading a success body back gives the record that was sent |
| RobotResponses.ErrorRoundTrip | robot-validator-api/app/models/responses.py:13-17 | reading an error body back gives the record that was sent |
| RobotResponses.ErrorDetailsDefault | robot-validator-api/app/models/responses.py:17 | an error built without details is sent with `details: null`, and reads back as that record |
| RobotResponses.HealthDefaults | robot-validator-api/app/models/responses.py:20-23 | the default health record is status "healthy", service "robot-validator-api" |
| RobotApiSchemas.ParseCommandRequest | robot-validator-api/app/schemas/api_schemas.py:6-9 | a body is accepted exactly when `command` is a string and `command_params` a dict; then the request carries those two values; otherwise the errors are non-empty and located under `body` |
| RobotApiSchemas.ErrorsJson | robot-validator-api/app/schemas/api_schemas.py:6-9 | the 422 detail lists one JSON entry per error |
| RobotApiSchemas.NonDictParamsRejected | robot-validator-api/app/schemas/api_schemas.py:9 | a non-dict `command_params` (null included) gives the single `dict_type` error |
| RobotApiSchemas.AnyCommandNameAccepted | robot-validator-api/app/schemas/api_schemas.py:8 | the request check accepts any command name, whatever else the body holds |
| RobotApiSchemas.ToJson | robot-validator-api/app/schemas/api_schemas.py:13 | a response body's `success` flag says which of the two records it is |
| RobotApiSchemas.ResponseRoundTrip | robot-validator-api/app/schemas/api_schemas.py:13 | every response body reads back as the response it was made from |
| RobotValidator.ModelFor | robot-validator-api/app/validators/command_validator.py:17-23 | the map finds a model exactly for move_to, rotate and start_patrol, and that model's literal is the name looked up |
| RobotValidator.ValidateCommand | robot-validator-api/app/validators/command_validator.py:25-76 | the verdict is valid exactly when the name is known and its parameter model reports no error; a valid verdict carries a success record and no error; an invalid one carries an error record and no success; the success record echoes the request's name and raw parameters |
| RobotValidator.CommandNamesListed | robot-validator-api/app/validators/command_validator.py:43 | the known names are listed as "move_to, rotate, start_patrol" |
| RobotValidator.UnknownCommandRejected | robot-validator-api/app/validators/command_validator.py:37-44 | an unknown name is refused, whatever the parameters, with "Invalid command. Reason: Unknown command name '<name>'" and details listing the known names |
| RobotValidator.SuccessEchoesRequest | robot-validator-api/app/validators/command_validator.py:54-64 | a valid command's record quotes the name and `str` of the raw parameters, before any default is filled in |
| RobotValidator.SchemaFailureReported | robot-validator-api/app/validators/command_validator.py:66-76 | a failing known command is answered with "Invalid params for '<name>': " plus the sentence made from its first error, and with Pydantic's text as the details |
| RobotValidator.MissingDetail | robot-validator-api/app/validators/command_validator.py:100-101 | a `missing` error names the last segment of its location |
| RobotValidator.LiteralDetail | robot-validator-api/app/validators/command_validator.py:102-104 | a `literal_error` names the whole path and the expected literals, or "unknown" when none are said |
| RobotValidator.OtherDetail | robot-validator-api/app/validators/command_validator.py:108-109 | an error of any other kind is reported by its own message |
| RobotValidator.OnlyFirstErrorCounts | robot-validator-api/app/validators/command_validator.py:94-95 | only the first error shapes the sentence |
| RobotValidator.ValueErrorKinds | robot-validator-api/app/models/commands.py:5-31 | every error reported for a present value has one of the eight kinds the schemas use |
| RobotValidator.NumberErrorKinds | robot-validator-api/app/models/commands.py:7-8 | a float field reports only `float_parsing` or `float_type` |
| RobotValidator.IntegerErrorKinds | robot-validator-api/app/models/commands.py:27-31 | an int field reports only the integer error kinds |
| RobotValidator.FieldErrorsKinds | robot-validator-api/app/models/commands.py:5-31 | every error of a parameter model has one of the kinds the schemas use |
| RobotValidator.TypeErrorNeverReported | robot-validator-api/app/validators/command_validator.py:105-107 | no schema reports `type_error`, so the "Wrong data type" sentence is never produced |
| RobotValidator.RotateBadDirectionErrors | robot-validator-api/app/models/commands.py:11-16 | a rotate with a valid angle and an unknown direction has exactly one error: the literal error at `command_params -> direction` |
| RobotValidator.RotateBadDirectionDetail | robot-validator-api/app/validators/command_validator.py:102-104 | that error becomes "Invalid value for 'command_params -> direction'. Expected one of: 'clockwise' or 'counter-clockwise'" |
| RobotValidator.DirectionsExpected | robot-validator-api/app/models/commands.py:14 | Pydantic lists the two directions as 'clockwise' or 'counter-clockwise' |
| RobotValidator.DirectionPath | robot-validator-api/app/validators/command_validator.py:97 | the direction field's path reads "command_params -> direction" |
| RobotValidator.RotateBadDirection | robot-validator-api/app/validators/command_validator.py:66-76 | such a rotate is refused with "Invalid params for 'rotate': Invalid value for 'command_params -> direction'. …" |
| RobotValidator.MoveToWithoutYDetail | robot-validator-api/app/validators/command_validator.py:100-101 | a move_to with a valid `x` and no `y` gives "Missing required key 'y'" |
| RobotValidator.MoveToWithoutY | robot-validator-api/app/validators/command_validator.py:66-76 | such a move_to is refused with "Invalid params for 'move_to': Missing required key 'y'" |
| RobotValidator.SimulateRobotAction | robot-validator-api/app/validators/command_validator.py:112-156 | the simulator raises only for a known command that lacks a required key, and the key it raises is one the parameters lack |
| RobotValidator.ValidatedCommandsSimulate | robot-validator-api/app/validators/command_validator.py:124-150 | every command the validator accepts is simulated without raising |
| RobotValidator.SimulationOfUnknownCommand | robot-validator-api/app/validators/command_validator.py:152-156 | an unknown command is described as "Unknown command in simulation: <name>", not raised; a description starts with "SIMULATION: " exactly when the command is known |
| RobotValidator.ContinuousIff | robot-validator-api/app/validators/command_validator.py:138-150 | a patrol is simulated, and described as continuous exactly when its repeat count (default 1) equals -1 |
| RobotValidator.SimulationDefaultsAgree | robot-validator-api/app/validators/command_validator.py:140-141 | the simulator's defaults for speed and repeat_count are the schema's, so raw and defaulted parameters give the same description |
| RobotValidatorApi.ExecuteCommand | robot-validator-api/app/main.py:41-63 | a success answer is given only for a command the validator accepts |
| RobotValidatorApi.ExecuteCommandEndpoint | robot-validator-api/app/main.py:30-77 | the endpoint answers 200, 422 or 500 |
| RobotValidatorApi.ExecuteValidPath | robot-validator-api/app/main.py:53-60 | a valid command is simulated without raising and answered with the validator's record: its message gains ". " and the simulation, and its name and parameters are the request's |
| RobotValidatorApi.ExecuteInvalidPath | robot-validator-api/app/main.py:61-63 | an invalid command is answered with the validator's error record unchanged |
| RobotValidatorApi.ExecuteNeverInternal | robot-validator-api/app/main.py:65-77 | the 500 answer is never given |
| RobotValidatorApi.EndpointAnswer | robot-validator-api/app/main.py:30-63 | an accepted body is answered 200; its `success` flag is the validator's verdict, and the body reads back as the answer that was built |
| RobotValidatorApi.MalformedRequestRejected | robot-validator-api/app/main.py:30-31 | a body failing the request check is answered 422 and carries no `success` flag |
| Orchestrator.CorrelationId | orchestrator-api/app/main.py:40 | the correlation id is the first eight characters of the uuid text (all of it when shorter) |
| Orchestrator.Services.constructor | orchestrator-api/app/main.py:54-99 | the services start with an empty call log |
| Orchestrator.Services.PostLlm | orchestrator-api/app/main.py:54-60 | one POST to the LLM returns the LLM's reply to that body and logs one LLM call |
| Orchestrator.Services.PostValidator | orchestrator-api/app/main.py:69-79 | one POST to the validator returns the validator's answer to that body and logs one validator call |
| Orchestrator.Process | orchestrator-api/app/main.py:34-119 | `process` returns what `ProcessRun` gives, and appends to the one log exactly the calls `ProcessRun` lists, in the order made: the LLM, then the validator when there is a command, then the LLM again on a retry |
| Orchestrator.CallBounds | orchestrator-api/app/main.py:54-99 | the LLM is called once or twice and the validator at most once; a second LLM call always follows a validation |
| Orchestrator.ChatBypass | orchestrator-api/app/main.py:63-119 | a reply without a command is returned unchanged and never validated |
| Orchestrator.ValidatedOnceWithFirstReply | orchestrator-api/app/main.py:63-79 | the validator is called exactly when the first reply has a command and `command_params`, and it is sent that reply's own command and parameters |
| Orchestrator.NoRetryOnSuccess | orchestrator-api/app/main.py:81-109 | a successful validation ends the request: no retry, and `validation_result` is the validator's message |
| Orchestrator.SingleRetryOnFailure | orchestrator-api/app/main.py:81-109 | a failed validation causes exactly one more LLM call, with the same user input and with the validator's `error` (or "Validation failed") as retry context; the retried reply is returned unvalidated, with `validation_result` null |
| Orchestrator.CorrelationThreaded | orchestrator-api/app/main.py:54-99 | every downstream call carries the request's correlation id in its body and in its header |
| Orchestrator.OnlyUserInputRead | orchestrator-api/app/main.py:42 | no request key except `user_input` affects the run |
| Orchestrator.MissingParamsIsServerError | orchestrator-api/app/main.py:74 | the request fails with a KeyError exactly when the first reply has a command but no `command_params` |
| LlmPromptBuilder.PathJoin | llm-service/app/services/prompt_builder.py:37 | joining a relative name onto a directory gives a path ending in that name |
| LlmPromptBuilder.PromptBuilder.Init | llm-service/app/services/prompt_builder.py:22-23 | a new builder holds its directory and an empty prompt |
| LlmPromptBuilder.PromptBuilder.Create | llm-service/app/services/prompt_builder.py:16-25 | construction succeeds exactly when the prompt file exists; the builder then holds the file's stripped text; otherwise it fails, naming the path |
| LlmPromptBuilder.PromptBuilder.LoadSystemPrompt | llm-service/app/services/prompt_builder.py:27-46 | a readable file replaces the prompt with its stripped contents; an unreadable one raises, naming the path, and leaves the prompt as it was |
| LlmPromptBuilder.BuildPromptIgnoresArguments | llm-service/app/services/prompt_builder.py:48-62 | every request gets the stored prompt, whatever its user input and retry context |
| LlmPromptBuilder.LoadedPromptTrimmed | llm-service/app/services/prompt_builder.py:40 | the stored prompt is a contiguous slice of the file with only whitespace dropped around it, and has no whitespace at either end |
| LlmPromptBuilder.LoadedIffNotBlank | llm-service/app/services/prompt_builder.py:64-70 | a loaded builder reports itself loaded exactly when the file holds more than whitespace |
| LlmPromptBuilder.DefaultPromptPath | llm-service/app/services/prompt_builder.py:16-37 | the default builder reads `prompts/system_prompt.txt` |
| LlmPromptBuilder.PromptPathUnderDirectory | llm-service/app/services/prompt_builder.py:37 | for a relative directory without a trailing slash, the prompt file sits directly under it |
| LlmModelRunnerClient.BaseUrlChoice | llm-service/app/models/model_runner_client.py:19-32 | a non-empty MODEL_RUNNER_URL wins; otherwise a container uses the container endpoint (an empty MODEL_RUNNER_URL there gives ""); otherwise MODEL_RUNNER_FALLBACK_URL or the host default is used |
| LlmModelRunnerClient.ModelRunnerClient.constructor | llm-service/app/models/model_runner_client.py:14-34 | a new client has the fine-tuned model's name, the base URL chosen from the environment, and an API client over that URL |
| LlmModelRunnerClient.ModelRunnerClient.InitializeClient | llm-service/app/models/model_runner_client.py:36-53 | the API client points at the base URL with the dummy key |
| LlmModelRunnerClient.ModelRunnerClient.GenerateResponse | llm-service/app/models/model_runner_client.py:55-119 | the method returns what `GeneratedText` specifies for the client's state |
| LlmModelRunnerClient.ModelRunnerClient.HealthCheck | llm-service/app/models/model_runner_client.py:125-154 | the method returns what `HealthStatus` specifies for the client's state |
| LlmModelRunnerClient.UserContentIff | llm-service/app/models/model_runner_client.py:72-75 | the user message is the input alone exactly when the retry context is falsy; otherwise it is the input, "\n\nPrevious error: " and the context |
| LlmModelRunnerClient.RequestAsSent | llm-service/app/models/model_runner_client.py:72-106 | the reply depends on the model runner only through its answer to the one request sent: the client's model, the system prompt then the user content, at most 512 tokens, temperature 0.1 and a JSON-object reply |
| LlmModelRunnerClient.NoClientRaises | llm-service/app/models/model_runner_client.py:67-68 | generation raises exactly when there is no client |
| LlmModelRunnerClient.GeneratedTextShape | llm-service/app/models/model_runner_client.py:96-119 | with a client, generation never raises: it returns the model's text with only surrounding whitespace removed, or the fallback JSON when the call raised or returned no content |
| LlmModelRunnerClient.LoadedIffGenerates | llm-service/app/models/model_runner_client.py:121-123 | a client is loaded exactly when generating cannot raise |
| LlmModelRunnerClient.HealthWithoutClient | llm-service/app/models/model_runner_client.py:128-132 | without a client, the health check reports "Client not initialized" without probing, and is unhealthy |
| LlmModelRunnerClient.HealthyIff | llm-service/app/models/model_runner_client.py:125-154 | the runner is healthy exactly when there is a client and the probe returned some text |
| LlmService.BuildChatResponse | llm-service/app/main.py:141-147 | a chat reply has the three reply keys, with a null command and null parameters |
| LlmService.BuildCommandResponse | llm-service/app/main.py:149-155 | a command reply has the three reply keys |
| LlmService.BuildErrorResponse | llm-service/app/main.py:157-163 | an error reply has the three reply keys, with a null command and null parameters |
| LlmService.ShapeResult | llm-service/app/main.py:97-121 | every shaped reply has exactly the three reply keys |
| LlmService.CallModelWithPrompt | llm-service/app/main.py:125-139 | the model's text is parsed as JSON, the fixed fallback dict replaces text that does not parse, and the client's error is passed on |
| LlmService.GenerateResponse | llm-service/app/main.py:59-121 | the handler answers what `Answer` specifies for the client's state and the stored prompt |
| LlmService.BlankInputRejected | llm-service/app/main.py:70-71 | a missing or whitespace-only `user_input` is refused with 400 "user_input is required" |
| LlmService.UnhealthyRejected | llm-service/app/main.py:87-91 | a non-blank input meets an unhealthy runner (a missing client included) with 503 "Model not available" |
| LlmService.AnswerKeys | llm-service/app/main.py:59-121 | the handler answers 200, 400 or 503; a 200 answer has exactly the three reply keys and any other answer only `detail` |
| LlmService.CommandIff | llm-service/app/main.py:97 | the reply carries a command exactly when the parsed result is a dict with a truthy `command` |
| LlmService.CommandReplyFields | llm-service/app/main.py:104-108 | a command reply keeps the model's command; its `response` defaults to "Command received" and its parameters to {} only when absent |
| LlmService.ChatReplyFields | llm-service/app/main.py:115 | any other dict gives a chat reply with its `response`, or "I'm ready to help!" when there is none |
| LlmService.ParseFailureIsChat | llm-service/app/main.py:136-139 | model text that is not JSON gives the chat reply "I'm ready to help with robot commands!" |
| LlmService.NonObjectIsError | llm-service/app/main.py:119-121 | JSON that is not an object gives the error reply |
| LlmService.HealthyAnswer | llm-service/app/main.py:87-121 | a healthy runner and a non-blank input give 200 and the shaped model result; the client's RuntimeError cannot occur |
| LlmService.CallFailureIsApology | llm-service/app/models/model_runner_client.py:113-119 | a failed model call becomes the chat reply "I'm sorry, I encountered an error processing your request." |
| Tts.RemoveDisallowed | TTS/app/main.py:45 | the filter keeps only ASCII letters, ASCII digits and whitespace, and adds nothing of its own |
| Tts.RemoveDisallowedConcat | TTS/app/main.py:45 | the filter works character by character: it distributes over concatenation |
| Tts.RemoveDisallowedExtremes | TTS/app/main.py:45 | text of allowed characters passes unchanged; text with none of them vanishes |
| Tts.CollapseWhitespace | TTS/app/main.py:47 | after collapsing, every whitespace character is a plain space and no two are adjacent; the result is empty exactly when the input is, and begins with a space exactly when the input begins with whitespace |
| Tts.CollapseTrailing | TTS/app/main.py:47 | the result ends with a space exactly when the input ends with whitespace |
| Tts.CollapseRun | TTS/app/main.py:47 | a maximal run of whitespace, of any length, becomes exactly one plain space |
| Tts.CollapseCons | TTS/app/main.py:47 | one character in front: it is dropped when it and the next are both whitespace, and otherwise kept (a plain space for whitespace) |
| Tts.CollapseSplit | TTS/app/main.py:47 | collapsing distributes over a concatenation that does not join two whitespace characters |
| Tts.CollapseSplitDrop | TTS/app/main.py:47 | the case of CollapseSplit where the first character is dropped |
| Tts.CollapseSplitKeep | TTS/app/main.py:47 | the case of CollapseSplit where the first character is kept |
| Tts.CollapseLetters | TTS/app/main.py:45-47 | collapsing letters and whitespace leaves only letters and plain spaces |
| Tts.CollapseKeepsNonSpace | TTS/app/main.py:47 | collapsing changes only whitespace: every other character survives, in order |
| Tts.AsciiLower | TTS/app/main.py:49 | lowercasing keeps the length, leaves no uppercase ASCII letter, and changes each character only in case |
| Tts.AsciiLowerUnique | TTS/app/main.py:49 | those three facts determine the lowercased text completely |
| Tts.DigitRunLength | TTS/app/main.py:36 | the run measured is the longest prefix of ASCII digits |
| Tts.NormalizeDigitFree | TTS/app/main.py:31-36 | text without digits is left exactly as it is |
| Tts.DigitRunOfConcat | TTS/app/main.py:36 | a run of digits followed by a non-digit is measured exactly |
| Tts.NormalizeRun | TTS/app/main.py:32-36 | a maximal run of digits becomes `num2words(int(run))`, followed by the rest normalised |
| Tts.DigitRunInPrefix | TTS/app/main.py:36 | a digit run that ends inside `a` is the same at the start of `a + b` |
| Tts.NormalizePlainStep | TTS/app/main.py:36 | a non-digit passes through, in front of `a` alone or of `a + b` |
| Tts.NormalizeRunStep | TTS/app/main.py:32-36 | a run that ends inside `a` is replaced the same way in front of `a` alone or of `a + b` |
| Tts.NormalizeSplit | TTS/app/main.py:31-36 | normalising distributes over a concatenation that does not join two digits |
| Tts.NormalizeSplitPlain | TTS/app/main.py:31-36 | the plain-character case of NormalizeSplit |
| Tts.NormalizeSplitRun | TTS/app/main.py:31-36 | the digit-run case of NormalizeSplit |
| Tts.CleanTextForTts | TTS/app/main.py:39-53 | cleaned text has no whitespace at either end |
| Tts.CleanIsStripped | TTS/app/main.py:53-138 | the cleaned text is already stripped, so the handler's `text.strip()` is empty exactly when the cleaned text is |
| Tts.CleanDigitFree | TTS/app/main.py:39-53 | text without ASCII digits cleans to lowercase ASCII letters separated by single spaces, with no space at either end |
| Tts.FilterDigitFree | TTS/app/main.py:45 | filtering digit-free text leaves only ASCII letters and whitespace |
| Tts.LowerSpoken | TTS/app/main.py:49 | lowercasing letters and single spaces gives lowercase letters and single spaces, and no digits |
| Tts.StripSpoken | TTS/app/main.py:53 | stripping lowercase letters and single spaces removes every space at either end |
| Tts.SpacedSlice | TTS/app/main.py:53 | a slice of lowercase letters and single spaces is still made of them |
| Tts.CleanPunctuationOnly | TTS/app/main.py:45 | text with no letter, digit or whitespace cleans to "" |
| Tts.CheckSynthesisRequest | TTS/app/main.py:129-153 | a request reaches the model only when the model is loaded and the cleaned text is not empty |
| Tts.EmptyTextBeforeModel | TTS/app/main.py:138-153 | a missing or empty cleaned text is refused with 400 "text is required", whether or not the model is loaded |
| Tts.PunctuationRefused | TTS/app/main.py:130-139 | punctuation alone is refused as a missing text |
| Tts.SynthesisGate | TTS/app/main.py:130-216 | a request goes to the model exactly when its text is a string whose cleaned form is not blank and the model is loaded |
| Tts.SynthesizeCarries | TTS/app/main.py:130-136 | the model gets the cleaned text, and the request's correlation id and voice description, or "unknown" and the default voice |
| EndToEnd.ValidAnswer | robot-validator-api/app/main.py:41-60 | for an accepted body with a valid command, the endpoint's JSON is the success record: the validator's message, ". " and the simulation |
| EndToEnd.ValidVerdict | orchestrator-api/app/main.py:79-81 | the orchestrator reads that answer as a success carrying that message |
| EndToEnd.InvalidAnswer | robot-validator-api/app/main.py:61-63 | for an accepted body with an invalid command, the endpoint's JSON is the validator's error record |
| EndToEnd.InvalidVerdict | orchestrator-api/app/main.py:81-94 | the orchestrator reads that answer as a failure whose retry context is the validator's error sentence |
| EndToEnd.MalformedVerdict | orchestrator-api/app/main.py:81-94 | a 422 answer reads as a failure with the default retry context "Validation failed" |
| EndToEnd.ValidProposalAccepted | orchestrator-api/app/main.py:63-109 | a well-formed proposal that the validator accepts is returned without a retry; its `validation_result` is the validator's message, which ends in the simulation |
| EndToEnd.InvalidProposalRetried | orchestrator-api/app/main.py:63-109 | a well-formed proposal that the validator refuses is retried once, with the validator's error sentence as retry context; the retried reply is returned with a null `validation_result` |
| EndToEnd.MalformedProposalRetried | orchestrator-api/app/main.py:63-109 | a proposal whose command is not a string, or whose parameters are not a dict, is retried once with "Validation failed" as context |

## Left out

- Network, async, timeouts and HTTP transport. A service call is a function from the JSON body sent to the JSON body received. The orchestrator never reads status codes, so they are not part of what it sees.
- Logging of every kind, timing (`duration_ms`), and the `/`, `/health` and `/stats` endpoints of each service.
- Python's own renderings go through parameters (`repr`, `errorText`, `typeError`), so their exact text is not modelled:
  - `str()` of floats, lists and dicts;
  - the multi-line text of a `ValidationError`;
  - the text of the TypeError raised on a non-string TTS text.
- Dict key order is lost: a dict is a map. Order only shows in `str(dict)`, which goes through `repr`.
- Pydantic's numeric-string coercion is left out. A string such as "3" is rejected with a `*_parsing` error here, whereas Pydantic would accept it for a float or int field.
- Pydantic also puts `input`, `url` and `ctx` in each 422 entry. Those fields are left out; type, location and message are kept.
- A request body that is not a JSON object is left out: every request is a map. This covers FastAPI's own 422 for a non-object body and a non-dict LLM or validator reply reaching the orchestrator.
- `initialize_client` raising: the AsyncOpenAI constructor is taken never to fail, so the client always exists after construction.
- Internal failures of `complete` are left out: the fallback JSON path is modelled through `Raised`, while errors of the model runner's internals are not.
- num2words raising on a large number is left out. `numWords` is total.
- The Parler TTS model, tokenisation, audio generation, WAV encoding and the response of `/synthesize` are left out. The model is a boolean `modelLoaded`, and the checks before it are modelled.
- Exceptions raised by the model path of `synthesize_speech` (tokeniser, generation, encoding) are left out, since that path is not modelled.
- `execute_command` overwrites `success_response.message` in place. The model writes it as a record update of a fresh record, which is equivalent because nothing else holds that record.
- Regular expressions: `\s` is Unicode whitespace as `str.isspace()` defines it, and `\d` only ever meets ASCII digits, because the filter of line 45 removes every other digit before `normalize_numbers` runs.
- Tts.AsciiLower: lowercases ASCII letters only, because the filter has removed every other letter by then.
- LlmPromptBuilder.PromptBuilder.BuildPrompt has no contract of its own; BuildPromptIgnoresArguments states what it returns.

Where the code and the project's own documentation differ, the model follows the code:

- A `repeat_count` of 0 is accepted, because the schema's only bound is `ge=-1`.
- The retried LLM reply is not validated again.
- The simulator describes an unknown command as text instead of raising.
- Pydantic reports every failing field, not only the first.
- The orchestrator always generates a fresh correlation id. A caller's own id is ignored.
- The success record echoes the raw parameters, without defaults filled in.
- The orchestrator never checks status codes, so a 422 or 500 from the validator reads as a failure with retry context "Validation failed". The 500 body nests its `error` under `detail`, so the orchestrator never sees it at the top level.
- An empty `MODEL_RUNNER_URL` inside a container gives the empty base URL.
- In the LLM service, a non-string `user_input` makes `.strip()` raise. The generic handler then answers 200 with the error reply.
- A parsed model result that is not a dict also gives the error reply.
- A reply whose content is None gives the fallback JSON in `generate_response`, and makes the health check fail with the NoneType `len` error.
