/**
  The robot validator's HTTP schemas: the `CommandRequest` body every call to
  `/execute_command` must match before the validator runs, and the response,
  which is either a success record or an error record.
*/
module RobotApiSchemas {
  import opened Results
  import opened Values
  import opened RobotCommands
  import opened RobotResponses

  /** CommandRequest: `command` is any string and `command_params` any string-keyed dict. */
  datatype CommandRequest = CommandRequest(command: string, commandParams: Body)

  /** The declared type of a request field: `str` or `Dict[str, Any]`. */
  datatype RequestFieldType = StrType | DictType

  /** The errors FastAPI reports for one required request field, at `["body", name]`. */
  function CheckRequestField(name: string, t: RequestFieldType, body: Body): seq<SchemaError> {
    if name !in body then [SchemaError("missing", ["body", name], "Field required", None)]
    else match t
      case StrType =>
        if body[name].Str? then [] else [SchemaError("string_type", ["body", name], "Input should be a valid string", None)]
      case DictType =>
        if body[name].Object? then [] else [SchemaError("dict_type", ["body", name], "Input should be a valid dictionary", None)]
  }

  /** The request-body check, both fields in declaration order. */
  function RequestErrors(body: Body): seq<SchemaError> {
    CheckRequestField("command", StrType, body) + CheckRequestField("command_params", DictType, body)
  }

  /** Parses a JSON request body into a CommandRequest, or the errors of a 422 answer. */
  function ParseCommandRequest(body: Body): (r: Result<CommandRequest, seq<SchemaError>>)
    ensures r.Ok? <==> && "command" in body && body["command"].Str?
                       && "command_params" in body && body["command_params"].Object?
    ensures r.Ok? ==> r.value == CommandRequest(body["command"].s, body["command_params"].fields)
    ensures r.Err? ==> r.error != [] && forall k :: 0 <= k < |r.error| ==> |r.error[k].loc| == 2 && r.error[k].loc[0] == "body"
  {
    var errors := RequestErrors(body);
    if errors == [] then Ok(CommandRequest(body["command"].s, body["command_params"].fields))
    else Err(errors)
  }

  /** The JSON list FastAPI puts under `detail` in a 422 answer. */
  function ErrorsJson(errors: seq<SchemaError>): (v: Value)
    ensures v.List? && |v.items| == |errors|
  {
    List(seq(|errors|, k requires 0 <= k < |errors| =>
      Object(map["type" := Str(errors[k].kind),
                 "loc" := List(seq(|errors[k].loc|, j requires 0 <= j < |errors[k].loc| => Str(errors[k].loc[j]))),
                 "msg" := Str(errors[k].msg)])))
  }

  /** A null (or otherwise non-dict) `command_params` is refused before the validator runs. */
  lemma NonDictParamsRejected(body: Body)
    requires "command" in body && body["command"].Str?
    requires "command_params" in body && !body["command_params"].Object?
    ensures ParseCommandRequest(body)
         == Err([SchemaError("dict_type", ["body", "command_params"], "Input should be a valid dictionary", None)])
  {
    assert CheckRequestField("command", StrType, body) == [];
    assert RequestErrors(body) == CheckRequestField("command_params", DictType, body);
  }

  /** `command` is not restricted to the known names: any string passes the request check. */
  lemma AnyCommandNameAccepted(command: string, params: Body, extra: Body)
    ensures ParseCommandRequest(extra["command" := Str(command)]["command_params" := Object(params)])
         == Ok(CommandRequest(command, params))
  {
  }

  /** The response union: exactly one of the two record shapes. */
  datatype CommandValidationResponse =
    | Success(success: ValidationSuccessResponse)
    | Failure(failure: ValidationErrorResponse)

  function ToJson(r: CommandValidationResponse): (body: Body)
    ensures "success" in body && body["success"] == Bool(r.Success?)
  {
    match r
    case Success(s) => SuccessJson(s)
    case Failure(e) => ErrorJson(e)
  }

  /** Tells the two shapes apart by the `success` flag alone. */
  function FromJson(body: Body): Option<CommandValidationResponse> {
    if "success" in body && body["success"] == Bool(true) then
      match SuccessFromJson(body)
      case Some(s) => Some(Success(s))
      case None => None
    else
      match ErrorFromJson(body)
      case Some(e) => Some(Failure(e))
      case None => None
  }

  /** Every response reads back as itself, and its flag says which shape it is. */
  lemma ResponseRoundTrip(r: CommandValidationResponse)
    ensures FromJson(ToJson(r)) == Some(r)
  {
    match r
    case Success(s) => SuccessRoundTrip(s);
    case Failure(e) => ErrorRoundTrip(e);
  }
}
