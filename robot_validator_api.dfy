/**
  The robot validator's `/execute_command` endpoint: the request-body check,
  then validation, then, for a valid command, the simulation appended to the
  success message. The validator object the endpoint uses is built once and
  keeps no state between requests, so it is modelled by the pure functions of
  RobotValidator.
*/
module RobotValidatorApi {
  import opened Results
  import opened Values
  import opened RobotCommands
  import opened RobotResponses
  import opened RobotApiSchemas
  import opened RobotValidator

  /**
    `execute_command` for an accepted request body: the response record, or,
    as Err, the text of an unexpected exception (a KeyError renders as the
    quoted key).
  */
  function ExecuteCommand(repr: Value -> string, errorText: (string, seq<SchemaError>) -> string,
                          request: CommandRequest): (r: Result<CommandValidationResponse, string>)
    ensures r.Ok? && r.value.Success?
        ==> ValidateCommand(repr, errorText, request.command, request.commandParams).isValid
  {
    var v := ValidateCommand(repr, errorText, request.command, request.commandParams);
    if v.isValid then
      var success := v.success.value;
      match SimulateRobotAction(repr, request.command, request.commandParams)
      case Ok(simulation) =>
        // the fresh success record's `message` is overwritten in place
        Ok(Success(success.(message := success.message + ". " + simulation)))
      case Err(key) => Err("'" + key + "'")
    else Ok(Failure(v.error.value))
  }

  const INTERNAL_ERROR_PREFIX: string := "Unexpected error processing command: "

  /** POST /execute_command with a JSON object body. */
  function ExecuteCommandEndpoint(repr: Value -> string, errorText: (string, seq<SchemaError>) -> string,
                                  body: Body): (r: HttpResponse)
    ensures r.status in {200, 422, 500}
  {
    match ParseCommandRequest(body)
    case Err(errors) => HttpResponse(422, map["detail" := ErrorsJson(errors)])
    case Ok(request) =>
      match ExecuteCommand(repr, errorText, request)
      case Ok(response) => HttpResponse(200, ToJson(response))
      case Err(e) =>
        HttpResponse(500, map["detail" := Object(map[
          "success" := Bool(false),
          "error" := Str(INTERNAL_ERROR_PREFIX + e),
          "details" := Str("Internal server error")])])
  }

  /**
    A valid command is simulated once and answered with the validator's
    record, whose message gains ". " and the simulation; name and
    parameters are the request's.
  */
  lemma ExecuteValidPath(repr: Value -> string, errorText: (string, seq<SchemaError>) -> string,
                         request: CommandRequest)
    requires ValidateCommand(repr, errorText, request.command, request.commandParams).isValid
    ensures var v := ValidateCommand(repr, errorText, request.command, request.commandParams);
            var simulation := SimulateRobotAction(repr, request.command, request.commandParams);
      && simulation.Ok?
      && ExecuteCommand(repr, errorText, request)
         == Ok(Success(ValidationSuccessResponse(v.success.value.message + ". " + simulation.value,
                                                 request.command, request.commandParams)))
  {
    ValidatedCommandsSimulate(repr, errorText, request.command, request.commandParams);
  }

  /** An invalid command is answered with the validator's error record unchanged, without simulating. */
  lemma ExecuteInvalidPath(repr: Value -> string, errorText: (string, seq<SchemaError>) -> string,
                           request: CommandRequest)
    requires !ValidateCommand(repr, errorText, request.command, request.commandParams).isValid
    ensures ExecuteCommand(repr, errorText, request)
         == Ok(Failure(ValidateCommand(repr, errorText, request.command, request.commandParams).error.value))
  {
  }

  /** The simulator never raises on a validated command, so the 500 answer is never given. */
  lemma ExecuteNeverInternal(repr: Value -> string, errorText: (string, seq<SchemaError>) -> string, body: Body)
    ensures ExecuteCommandEndpoint(repr, errorText, body).status != 500
  {
    if ParseCommandRequest(body).Ok? {
      var request := ParseCommandRequest(body).value;
      if ValidateCommand(repr, errorText, request.command, request.commandParams).isValid {
        ExecuteValidPath(repr, errorText, request);
      }
    }
  }

  /**
    A 200 answer's `success` flag is the validator's verdict, and it reads back
    as the record that was built.
  */
  lemma EndpointAnswer(repr: Value -> string, errorText: (string, seq<SchemaError>) -> string, body: Body)
    requires ParseCommandRequest(body).Ok?
    ensures var request := ParseCommandRequest(body).value;
            var r := ExecuteCommandEndpoint(repr, errorText, body);
      && r.status == 200
      && "success" in r.body
      && r.body["success"] == Bool(ValidateCommand(repr, errorText, request.command, request.commandParams).isValid)
      && FromJson(r.body) == Some(ExecuteCommand(repr, errorText, request).value)
  {
    var request := ParseCommandRequest(body).value;
    ExecuteNeverInternal(repr, errorText, body);
    ResponseRoundTrip(ExecuteCommand(repr, errorText, request).value);
  }

  /** A body without a string `command` and a dict `command_params` is answered 422 before validation. */
  lemma MalformedRequestRejected(repr: Value -> string, errorText: (string, seq<SchemaError>) -> string, body: Body)
    requires ParseCommandRequest(body).Err?
    ensures ExecuteCommandEndpoint(repr, errorText, body).status == 422
    ensures "success" !in ExecuteCommandEndpoint(repr, errorText, body).body
  {
  }
}
