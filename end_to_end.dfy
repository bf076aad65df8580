/**
  The orchestrator's `/process` route wired to the robot validator's
  `/execute_command` endpoint: what a proposal from the LLM service leads to,
  once the validator's answer is read back as the orchestrator reads it.
*/
module EndToEnd {
  import opened Results
  import opened Values
  import opened RobotCommands
  import opened RobotResponses
  import opened RobotApiSchemas
  import opened RobotValidator
  import opened RobotValidatorApi
  import opened Orchestrator

  /**
    The validator service as the orchestrator sees it: what it answers any
    body with is the JSON body of the endpoint's answer.
  */
  ghost predicate IsValidatorService(validator: Body -> Body, repr: Value -> string,
                                     errorText: (string, seq<SchemaError>) -> string) {
    forall b :: validator(b) == ExecuteCommandEndpoint(repr, errorText, b).body
  }

  /** A proposal whose command is a string and whose parameters are an object. */
  predicate WellFormedProposal(reply: Body) {
    && "command" in reply && reply["command"].Str?
    && "command_params" in reply && reply["command_params"].Object?
  }

  /** The endpoint's JSON answer to an accepted body with a valid command. */
  lemma ValidAnswer(repr: Value -> string, errorText: (string, seq<SchemaError>) -> string,
                    body: Body, command: string, params: Body)
    requires "command" in body && body["command"] == Str(command)
    requires "command_params" in body && body["command_params"] == Object(params)
    requires ValidateCommand(repr, errorText, command, params).isValid
    ensures var simulation := SimulateRobotAction(repr, command, params);
      && simulation.Ok?
      && ExecuteCommandEndpoint(repr, errorText, body).body
         == SuccessJson(ValidationSuccessResponse(
              ValidateCommand(repr, errorText, command, params).success.value.message + ". " + simulation.value,
              command, params))
  {
    var request := CommandRequest(command, params);
    assert ParseCommandRequest(body) == Ok(request);
    ExecuteValidPath(repr, errorText, request);
  }

  /** The validator's answer to an accepted body with a valid command: success and its message. */
  lemma ValidVerdict(repr: Value -> string, errorText: (string, seq<SchemaError>) -> string,
                     validator: Body -> Body, body: Body, command: string, params: Body)
    requires IsValidatorService(validator, repr, errorText)
    requires "command" in body && body["command"] == Str(command)
    requires "command_params" in body && body["command_params"] == Object(params)
    requires ValidateCommand(repr, errorText, command, params).isValid
    ensures var verdict := validator(body);
            var simulation := SimulateRobotAction(repr, command, params);
      && simulation.Ok?
      && Succeeded(verdict)
      && Get(verdict, "message", Null)
         == Str(ValidateCommand(repr, errorText, command, params).success.value.message + ". " + simulation.value)
  {
    ValidAnswer(repr, errorText, body, command, params);
    var simulation := SimulateRobotAction(repr, command, params);
    var message := ValidateCommand(repr, errorText, command, params).success.value.message + ". " + simulation.value;
    var verdict := SuccessJson(ValidationSuccessResponse(message, command, params));
    assert validator(body) == verdict;
    assert "message" in verdict && verdict["message"] == Str(message);
  }

  /** The endpoint's JSON answer to an accepted body with an invalid command. */
  lemma InvalidAnswer(repr: Value -> string, errorText: (string, seq<SchemaError>) -> string,
                      body: Body, command: string, params: Body)
    requires "command" in body && body["command"] == Str(command)
    requires "command_params" in body && body["command_params"] == Object(params)
    requires !ValidateCommand(repr, errorText, command, params).isValid
    ensures ExecuteCommandEndpoint(repr, errorText, body).body
         == ErrorJson(ValidateCommand(repr, errorText, command, params).error.value)
  {
    var request := CommandRequest(command, params);
    assert ParseCommandRequest(body) == Ok(request);
    ExecuteInvalidPath(repr, errorText, request);
  }

  /** The validator's answer to an accepted body with an invalid command: failure and its error sentence. */
  lemma InvalidVerdict(repr: Value -> string, errorText: (string, seq<SchemaError>) -> string,
                       validator: Body -> Body, body: Body, command: string, params: Body)
    requires IsValidatorService(validator, repr, errorText)
    requires "command" in body && body["command"] == Str(command)
    requires "command_params" in body && body["command_params"] == Object(params)
    requires !ValidateCommand(repr, errorText, command, params).isValid
    ensures var verdict := validator(body);
      && !Succeeded(verdict)
      && RetryContext(verdict) == Str(ValidateCommand(repr, errorText, command, params).error.value.error)
  {
    InvalidAnswer(repr, errorText, body, command, params);
    var verdict := ErrorJson(ValidateCommand(repr, errorText, command, params).error.value);
    assert validator(body) == verdict;
    assert "error" in verdict;
  }

  /** The validator's 422 answer to a malformed body has neither `success` nor `error`. */
  lemma MalformedVerdict(repr: Value -> string, errorText: (string, seq<SchemaError>) -> string,
                         validator: Body -> Body, body: Body)
    requires IsValidatorService(validator, repr, errorText)
    requires "command" in body && "command_params" in body
    requires !body["command"].Str? || !body["command_params"].Object?
    ensures var verdict := validator(body);
      !Succeeded(verdict) && RetryContext(verdict) == DEFAULT_RETRY_CONTEXT
  {
    assert ParseCommandRequest(body).Err?;
    MalformedRequestRejected(repr, errorText, body);
    assert ExecuteCommandEndpoint(repr, errorText, body).body.Keys == {"detail"};
  }

  /**
    A well-formed proposal the validator accepts is returned without a retry,
    with `validation_result` set to the validator's success message, which
    ends in the simulation of the command.
  */
  lemma ValidProposalAccepted(repr: Value -> string, errorText: (string, seq<SchemaError>) -> string,
                              llm: Body -> Body, validator: Body -> Body,
                              request: Body, uuid: string)
    requires IsValidatorService(validator, repr, errorText)
    requires WellFormedProposal(FirstReply(llm, request, uuid))
    requires var reply := FirstReply(llm, request, uuid);
      ValidateCommand(repr, errorText, reply["command"].s, reply["command_params"].fields).isValid
    ensures var reply := FirstReply(llm, request, uuid);
            var run := ProcessRun(llm, validator, request, uuid);
            var v := ValidateCommand(repr, errorText, reply["command"].s, reply["command_params"].fields);
            var simulation := SimulateRobotAction(repr, reply["command"].s, reply["command_params"].fields);
      && simulation.Ok?
      && |run.llmRequests| == 1
      && run.result == Reply(reply["validation_result" := Str(v.success.value.message + ". " + simulation.value)])
  {
    var reply := FirstReply(llm, request, uuid);
    ValidVerdict(repr, errorText, validator, ValidatorRequest(reply, CorrelationId(uuid)).body,
                 reply["command"].s, reply["command_params"].fields);
    NoRetryOnSuccess(llm, validator, request, uuid);
  }

  /**
    A well-formed proposal the validator refuses is retried once, with the
    validator's error sentence as retry context, and the retried reply is
    returned with a null `validation_result`.
  */
  lemma InvalidProposalRetried(repr: Value -> string, errorText: (string, seq<SchemaError>) -> string,
                               llm: Body -> Body, validator: Body -> Body,
                               request: Body, uuid: string)
    requires IsValidatorService(validator, repr, errorText)
    requires WellFormedProposal(FirstReply(llm, request, uuid))
    requires var reply := FirstReply(llm, request, uuid);
      !ValidateCommand(repr, errorText, reply["command"].s, reply["command_params"].fields).isValid
    ensures var reply := FirstReply(llm, request, uuid);
            var run := ProcessRun(llm, validator, request, uuid);
            var v := ValidateCommand(repr, errorText, reply["command"].s, reply["command_params"].fields);
      && |run.llmRequests| == 2
      && "retry_context" in run.llmRequests[1].body
      && run.llmRequests[1].body["retry_context"] == Str(v.error.value.error)
      && run.result == Reply(llm(run.llmRequests[1].body)["validation_result" := Null])
  {
    var reply := FirstReply(llm, request, uuid);
    var body := ValidatorRequest(reply, CorrelationId(uuid)).body;
    InvalidVerdict(repr, errorText, validator, body, reply["command"].s, reply["command_params"].fields);
    SingleRetryOnFailure(llm, validator, request, uuid);
  }

  /**
    A proposal whose command is not a string, or whose parameters are not an
    object, is answered 422 by the validator; that answer has no `error`, so
    the retry carries the default context "Validation failed".
  */
  lemma MalformedProposalRetried(repr: Value -> string, errorText: (string, seq<SchemaError>) -> string,
                                 llm: Body -> Body, validator: Body -> Body,
                                 request: Body, uuid: string)
    requires IsValidatorService(validator, repr, errorText)
    requires var reply := FirstReply(llm, request, uuid);
      HasCommand(reply) && "command_params" in reply && !WellFormedProposal(reply)
    ensures var run := ProcessRun(llm, validator, request, uuid);
      && |run.llmRequests| == 2
      && "retry_context" in run.llmRequests[1].body
      && run.llmRequests[1].body["retry_context"] == DEFAULT_RETRY_CONTEXT
      && run.result == Reply(llm(run.llmRequests[1].body)["validation_result" := Null])
  {
    var reply := FirstReply(llm, request, uuid);
    MalformedVerdict(repr, errorText, validator, ValidatorRequest(reply, CorrelationId(uuid)).body);
    SingleRetryOnFailure(llm, validator, request, uuid);
  }
}
