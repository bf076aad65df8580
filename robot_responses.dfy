/**
  The robot validator's response records: a validation success, a validation
  error and the health answer, with their JSON forms. The `success` flag is
  not a field of the records here: every success record is sent with `true`
  and every error record with `false`, which is what their defaults give and
  what no caller in the service overrides.
*/
module RobotResponses {
  import opened Results
  import opened Values

  /** ValidationSuccessResponse: `message`, `command` and the raw `command_params`. */
  datatype ValidationSuccessResponse =
    ValidationSuccessResponse(message: string, command: string, commandParams: Body)

  /** ValidationErrorResponse: a required `error` and `details`, which defaults to None. */
  datatype ValidationErrorResponse =
    ValidationErrorResponse(error: string, details: Option<string> := None)

  /** HealthCheckResponse, whose two fields both have defaults. */
  datatype HealthCheckResponse =
    HealthCheckResponse(status: string := "healthy", service: string := "robot-validator-api")

  function SuccessJson(r: ValidationSuccessResponse): (body: Body)
    ensures body.Keys == {"success", "message", "command", "command_params"}
    ensures body["success"] == Bool(true)
  {
    map["success" := Bool(true), "message" := Str(r.message), "command" := Str(r.command),
        "command_params" := Object(r.commandParams)]
  }

  function OptionalStr(s: Option<string>): Value {
    match s
    case None => Null
    case Some(t) => Str(t)
  }

  function ErrorJson(r: ValidationErrorResponse): (body: Body)
    ensures body.Keys == {"success", "error", "details"}
    ensures body["success"] == Bool(false)
  {
    map["success" := Bool(false), "error" := Str(r.error), "details" := OptionalStr(r.details)]
  }

  function HealthJson(r: HealthCheckResponse): Body {
    map["status" := Str(r.status), "service" := Str(r.service)]
  }

  /** Reading a success body back gives the record that was sent. */
  function SuccessFromJson(body: Body): (r: Option<ValidationSuccessResponse>)
    ensures r.Some? ==> "success" in body && body["success"] == Bool(true)
  {
    if && "success" in body && body["success"] == Bool(true)
       && "message" in body && body["message"].Str?
       && "command" in body && body["command"].Str?
       && "command_params" in body && body["command_params"].Object?
    then Some(ValidationSuccessResponse(body["message"].s, body["command"].s, body["command_params"].fields))
    else None
  }

  /** Reading an error body back gives the record that was sent. */
  function ErrorFromJson(body: Body): (r: Option<ValidationErrorResponse>)
    ensures r.Some? ==> "success" in body && body["success"] == Bool(false)
  {
    if && "success" in body && body["success"] == Bool(false)
       && "error" in body && body["error"].Str?
       && "details" in body && (body["details"].Null? || body["details"].Str?)
    then Some(ValidationErrorResponse(body["error"].s,
                                      if body["details"].Str? then Some(body["details"].s) else None))
    else None
  }

  lemma SuccessRoundTrip(r: ValidationSuccessResponse)
    ensures SuccessFromJson(SuccessJson(r)) == Some(r)
  {
  }

  lemma ErrorRoundTrip(r: ValidationErrorResponse)
    ensures ErrorFromJson(ErrorJson(r)) == Some(r)
  {
  }

  /** An error built from `error` alone has no details. */
  lemma ErrorDetailsDefault(error: string)
    ensures ErrorJson(ValidationErrorResponse(error))["details"] == Null
    ensures ErrorFromJson(map["success" := Bool(false), "error" := Str(error), "details" := Null])
         == Some(ValidationErrorResponse(error))
  {
  }

  /** The health answer with its defaults. */
  lemma HealthDefaults()
    ensures HealthJson(HealthCheckResponse()) == map["status" := Str("healthy"), "service" := Str("robot-validator-api")]
  {
  }
}
