/**
  The orchestrator's `/process` route. It asks the LLM service for a reply;
  a reply without a command goes straight back to the caller, and a reply
  with a command is sent to the robot validator once. When the validator does
  not report success, the LLM is asked exactly once more, with the
  validator's error as retry context, and that second reply is returned
  without being validated.

  The two services are oracles: functions from the JSON body sent to the JSON
  body received. The status codes of their answers are never looked at.
*/
module Orchestrator {
  import opened Values

  /** One outgoing POST: its JSON body and its `X-Correlation-ID` header. */
  datatype Outbound = Outbound(body: Body, correlationHeader: string)

  /** The answer of `/process`, or the KeyError raised when a command reply has no `command_params`. */
  datatype ProcessResult = Reply(body: Body) | ServerError(missingKey: string)

  /** The outcome of one request together with the calls it made to each service, in order. */
  datatype Run = Run(result: ProcessResult, llmRequests: seq<Outbound>, validatorRequests: seq<Outbound>)

  /** One downstream call, tagged with the service it went to. */
  datatype Call = ToLlm(request: Outbound) | ToValidator(request: Outbound)

  const DEFAULT_RETRY_CONTEXT: Value := Str("Validation failed")

  /** `str(uuid.uuid4())[:8]` for the given uuid text. */
  function CorrelationId(uuid: string): (cid: string)
    ensures |cid| == if |uuid| < 8 then |uuid| else 8
    ensures cid == uuid[..|cid|]
  {
    if |uuid| < 8 then uuid else uuid[..8]
  }

  /** `llm_data.get("command") is not None` */
  predicate HasCommand(reply: Body) {
    "command" in reply && reply["command"] != Null
  }

  function FirstLlmRequest(userInput: Value, cid: string): Outbound {
    Outbound(map["user_input" := userInput, "correlation_id" := Str(cid)], cid)
  }

  function ValidatorRequest(reply: Body, cid: string): Outbound
    requires "command" in reply && "command_params" in reply
  {
    Outbound(map["command" := reply["command"], "command_params" := reply["command_params"],
                 "correlation_id" := Str(cid)], cid)
  }

  /** `validator_data.get("error", "Validation failed")` */
  function RetryContext(verdict: Body): Value {
    Get(verdict, "error", DEFAULT_RETRY_CONTEXT)
  }

  function RetryLlmRequest(userInput: Value, retryContext: Value, cid: string): Outbound {
    Outbound(map["user_input" := userInput, "retry_context" := retryContext, "correlation_id" := Str(cid)], cid)
  }

  /** `validator_data.get("success", False)` taken as a truth value. */
  predicate Succeeded(verdict: Body) {
    Truthy(Get(verdict, "success", Bool(false)))
  }

  /** `{**reply, "validation_result": message if success else None}` */
  function WithValidationResult(reply: Body, verdict: Body): Body {
    reply["validation_result" := if Succeeded(verdict) then Get(verdict, "message", Null) else Null]
  }

  /** What `process` does for one request, given the two services and the fresh uuid. */
  function ProcessRun(llm: Body -> Body, validator: Body -> Body, request: Body, uuid: string): Run {
    var cid := CorrelationId(uuid);
    var userInput := Get(request, "user_input", Str(""));
    var first := FirstLlmRequest(userInput, cid);
    var reply := llm(first.body);
    if !HasCommand(reply) then Run(Reply(reply), [first], [])
    else if "command_params" !in reply then Run(ServerError("command_params"), [first], [])
    else
      var check := ValidatorRequest(reply, cid);
      var verdict := validator(check.body);
      if Succeeded(verdict) then Run(Reply(WithValidationResult(reply, verdict)), [first], [check])
      else
        var retry := RetryLlmRequest(userInput, RetryContext(verdict), cid);
        Run(Reply(WithValidationResult(llm(retry.body), verdict)), [first, retry], [check])
  }

  /**
    The calls of a run in the order `process` makes them: the LLM, then the
    validator when there was a command, then the LLM again on a retry.
  */
  function Trace(run: Run): seq<Call> {
    (if |run.llmRequests| > 0 then [ToLlm(run.llmRequests[0])] else [])
      + (if |run.validatorRequests| > 0 then [ToValidator(run.validatorRequests[0])] else [])
      + (if |run.llmRequests| > 1 then [ToLlm(run.llmRequests[1])] else [])
  }

  /** The two downstream services, with a record of every call made to them, in order. */
  class Services {
    const llm: Body -> Body
    const validator: Body -> Body
    ghost var log: seq<Call>

    constructor (llm: Body -> Body, validator: Body -> Body)
      ensures this.llm == llm && this.validator == validator
      ensures log == []
    {
      this.llm := llm;
      this.validator := validator;
      log := [];
    }

    /** POST to the LLM service's `/generate_response`. */
    method PostLlm(request: Outbound) returns (reply: Body)
      modifies this
      ensures reply == llm(request.body)
      ensures log == old(log) + [ToLlm(request)]
    {
      log := log + [ToLlm(request)];
      reply := llm(request.body);
    }

    /** POST to the validator's `/execute_command`. */
    method PostValidator(request: Outbound) returns (verdict: Body)
      modifies this
      ensures verdict == validator(request.body)
      ensures log == old(log) + [ToValidator(request)]
    {
      log := log + [ToValidator(request)];
      verdict := validator(request.body);
    }
  }

  /** `process(request)`: the calls it makes are appended to the log in the order it makes them. */
  method Process(services: Services, request: Body, uuid: string) returns (result: ProcessResult)
    modifies services
    ensures var run := ProcessRun(services.llm, services.validator, request, uuid);
      && result == run.result
      && services.log == old(services.log) + Trace(run)
  {
    var cid := CorrelationId(uuid);
    var userInput := Get(request, "user_input", Str(""));
    var first := FirstLlmRequest(userInput, cid);
    var llmData := services.PostLlm(first);
    if !HasCommand(llmData) {
      return Reply(llmData);
    }
    if "command_params" !in llmData {
      return ServerError("command_params");
    }
    var verdict := services.PostValidator(ValidatorRequest(llmData, cid));
    if !Succeeded(verdict) {
      llmData := services.PostLlm(RetryLlmRequest(userInput, RetryContext(verdict), cid));
    }
    result := Reply(WithValidationResult(llmData, verdict));
  }

  // ---------------------------------------------------------- properties

  /** The LLM is called once or twice, the validator at most once, and a retry follows a validation. */
  lemma CallBounds(llm: Body -> Body, validator: Body -> Body, request: Body, uuid: string)
    ensures var run := ProcessRun(llm, validator, request, uuid);
      && 1 <= |run.llmRequests| <= 2
      && |run.validatorRequests| <= 1
      && (|run.llmRequests| == 2 ==> |run.validatorRequests| == 1)
  {
  }

  /** A reply without a command, whatever its shape, is returned unchanged and never validated. */
  lemma ChatBypass(llm: Body -> Body, validator: Body -> Body, request: Body, uuid: string)
    requires !HasCommand(llm(FirstLlmRequest(Get(request, "user_input", Str("")), CorrelationId(uuid)).body))
    ensures var run := ProcessRun(llm, validator, request, uuid);
      && run.result == Reply(llm(run.llmRequests[0].body))
      && |run.llmRequests| == 1 && run.validatorRequests == []
  {
  }

  /** The validator sees the first reply's own `command` and `command_params`. */
  lemma ValidatedOnceWithFirstReply(llm: Body -> Body, validator: Body -> Body, request: Body, uuid: string)
    ensures var run := ProcessRun(llm, validator, request, uuid);
            var reply := llm(run.llmRequests[0].body);
      (HasCommand(reply) && "command_params" in reply)
      <==> && |run.validatorRequests| == 1
           && run.validatorRequests[0].body["command"] == reply["command"]
           && run.validatorRequests[0].body["command_params"] == reply["command_params"]
  {
  }

  /** The LLM's reply to the first request. */
  function FirstReply(llm: Body -> Body, request: Body, uuid: string): Body {
    llm(FirstLlmRequest(Get(request, "user_input", Str("")), CorrelationId(uuid)).body)
  }

  /** A successful validation ends the request: no retry, and the validator's message is attached. */
  lemma NoRetryOnSuccess(llm: Body -> Body, validator: Body -> Body, request: Body, uuid: string)
    requires HasCommand(FirstReply(llm, request, uuid)) && "command_params" in FirstReply(llm, request, uuid)
    requires Succeeded(validator(ValidatorRequest(FirstReply(llm, request, uuid), CorrelationId(uuid)).body))
    ensures var run := ProcessRun(llm, validator, request, uuid);
      && |run.llmRequests| == 1
      && run.result == Reply(FirstReply(llm, request, uuid)["validation_result" :=
                               Get(validator(ValidatorRequest(FirstReply(llm, request, uuid), CorrelationId(uuid)).body), "message", Null)])
  {
  }

  /**
    A failed validation causes exactly one more LLM call, carrying the
    validator's error (or "Validation failed") and the same user input; its
    reply is returned with a null `validation_result` and is not validated.
  */
  lemma SingleRetryOnFailure(llm: Body -> Body, validator: Body -> Body, request: Body, uuid: string)
    requires HasCommand(FirstReply(llm, request, uuid)) && "command_params" in FirstReply(llm, request, uuid)
    requires !Succeeded(validator(ValidatorRequest(FirstReply(llm, request, uuid), CorrelationId(uuid)).body))
    ensures var run := ProcessRun(llm, validator, request, uuid);
      && |run.llmRequests| == 2 && |run.validatorRequests| == 1
      && run.llmRequests[1].body["retry_context"] == RetryContext(validator(ValidatorRequest(FirstReply(llm, request, uuid), CorrelationId(uuid)).body))
      && run.llmRequests[1].body["user_input"] == run.llmRequests[0].body["user_input"]
      && run.result == Reply(llm(run.llmRequests[1].body)["validation_result" := Null])
  {
  }

  /**
    Every downstream call carries the correlation id made from the fresh uuid,
    in its body and in its header.
  */
  lemma CorrelationThreaded(llm: Body -> Body, validator: Body -> Body, request: Body, uuid: string)
    ensures var run := ProcessRun(llm, validator, request, uuid);
      forall call :: call in run.llmRequests + run.validatorRequests
        ==> call.body["correlation_id"] == Str(CorrelationId(uuid)) && call.correlationHeader == CorrelationId(uuid)
  {
  }

  /** Only `user_input` is read from the request: a caller's own `correlation_id`, say, changes nothing. */
  lemma OnlyUserInputRead(llm: Body -> Body, validator: Body -> Body, request: Body, uuid: string,
                          key: string, v: Value)
    requires key != "user_input"
    ensures ProcessRun(llm, validator, request[key := v], uuid) == ProcessRun(llm, validator, request, uuid)
  {
    assert Get(request[key := v], "user_input", Str("")) == Get(request, "user_input", Str(""));
  }

  /** A command reply without `command_params` fails the request before the validator is called. */
  lemma MissingParamsIsServerError(llm: Body -> Body, validator: Body -> Body, request: Body, uuid: string)
    ensures var run := ProcessRun(llm, validator, request, uuid);
            var reply := llm(run.llmRequests[0].body);
      run.result.ServerError? <==> HasCommand(reply) && "command_params" !in reply
  {
  }
}
