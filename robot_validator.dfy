/**
  RobotCommandValidator and the robot simulator. The validator looks the
  command name up in a fixed map, checks the parameters with that command's
  schema, and turns the first schema error into a sentence; the simulator
  describes what the robot would do for a command.

  Two of Python's renderings are parameters: `repr` is `str()` of a float,
  list or dict (see Values.Format), and `errorText(title, errors)` is
  `str(ValidationError)`, the multi-line text Pydantic writes for the errors
  of the model called `title`.
*/
module RobotValidator {
  import opened Results
  import opened Strings
  import opened Values
  import opened RobotCommands
  import opened RobotResponses

  /** The validator's map from command name to model, in the map's order. */
  const COMMAND_NAMES: seq<string> := ["move_to", "rotate", "start_patrol"]

  /** Looks a command name up in the validator's map. */
  function ModelFor(command: string): (m: Option<CommandModel>)
    ensures m.Some? <==> command in COMMAND_NAMES
    ensures m.Some? ==> m.value.Name() == command
  {
    if command == "move_to" then Some(MoveToCommand)
    else if command == "rotate" then Some(RotateCommand)
    else if command == "start_patrol" then Some(StartPatrolCommand)
    else None
  }

  /** What `validate_command` returns: `(is_valid, success_response, error_response)`. */
  datatype Validation = Validation(
    isValid: bool,
    success: Option<ValidationSuccessResponse>,
    error: Option<ValidationErrorResponse>)

  // ------------------------------------------------------- error messages

  const LOC_SEPARATOR: string := " -> "

  /** The location of an error, its parts joined by " -> ". */
  function FieldPath(loc: seq<string>): string {
    Join(loc, LOC_SEPARATOR)
  }

  /** `_parse_validation_error`: a sentence built from the first reported error. */
  function ParseValidationError(errors: seq<SchemaError>): string {
    if errors == [] then "Unknown validation error"
    else
      var first := errors[0];
      var path := FieldPath(first.loc);
      if first.kind == "missing" then
        "Missing required key '" + LastSplitPiece(path, LOC_SEPARATOR) + "'"
      else if first.kind == "literal_error" then
        "Invalid value for '" + path + "'. Expected one of: " + first.expected.GetOr("unknown")
      else if first.kind == "type_error" then
        "Wrong data type for '" + path + "'. " + RemoveAll(first.msg, "Input should be ")
      else first.msg
  }

  // ----------------------------------------------------------- validation

  /** `validate_command(command, command_params)` */
  function ValidateCommand(repr: Value -> string, errorText: (string, seq<SchemaError>) -> string,
                           command: string, params: Body): (v: Validation)
    ensures v.isValid <==> v.success.Some?
    ensures v.isValid <==> v.error.None?
    ensures v.isValid <==> command in COMMAND_NAMES && CheckFields(ModelFor(command).value.Params(), params) == []
    ensures v.success.Some? ==> v.success.value.command == command && v.success.value.commandParams == params
  {
    match ModelFor(command)
    case None =>
      Validation(false, None, Some(ValidationErrorResponse(
        "Invalid command. Reason: Unknown command name '" + command + "'",
        Some("Valid commands are: " + Join(COMMAND_NAMES, ", ")))))
    case Some(model) =>
      CommandLiteralPasses(model, params);
      var errors := CheckCommand(model, command, params);
      if errors == [] then
        Validation(true, Some(ValidationSuccessResponse(
          "Received and validated command: '" + command + "' with params " + Format(repr, Object(params)),
          command, params)), None)
      else
        Validation(false, None, Some(ValidationErrorResponse(
          "Invalid params for '" + command + "': " + ParseValidationError(errors),
          Some(errorText(model.Title(), errors)))))
  }

  /** The list of known names as the error details print it. */
  lemma CommandNamesListed()
    ensures Join(COMMAND_NAMES, ", ") == "move_to, rotate, start_patrol"
  {
    assert COMMAND_NAMES[1..] == ["rotate", "start_patrol"];
    assert COMMAND_NAMES[1..][1..] == ["start_patrol"];
    assert Join(["start_patrol"], ", ") == "start_patrol";
    assert Join(["rotate", "start_patrol"], ", ") == "rotate" + ", " + "start_patrol";
    assert "move_to" + ", " + ("rotate" + ", " + "start_patrol") == "move_to, rotate, start_patrol";
  }

  /** An unknown name is refused whatever the parameters, and the answer lists the known names. */
  lemma UnknownCommandRejected(repr: Value -> string, errorText: (string, seq<SchemaError>) -> string,
                               command: string, params: Body)
    requires command !in COMMAND_NAMES
    ensures ValidateCommand(repr, errorText, command, params)
         == Validation(false, None, Some(ValidationErrorResponse(
              "Invalid command. Reason: Unknown command name '" + command + "'",
              Some("Valid commands are: " + "move_to, rotate, start_patrol"))))
  {
    assert ModelFor(command) == None;
    CommandNamesListed();
  }

  /**
    A valid command is answered with the request's own name and parameters,
    before any default is filled in, and with the message that quotes them.
  */
  lemma SuccessEchoesRequest(repr: Value -> string, errorText: (string, seq<SchemaError>) -> string,
                             command: string, params: Body)
    requires ValidateCommand(repr, errorText, command, params).isValid
    ensures ValidateCommand(repr, errorText, command, params).success
         == Some(ValidationSuccessResponse(
              "Received and validated command: '" + command + "' with params " + repr(Object(params)),
              command, params))
  {
  }

  /**
    A known command whose parameters fail is answered with the sentence made
    from the first error and with Pydantic's whole text as the details.
  */
  lemma SchemaFailureReported(repr: Value -> string, errorText: (string, seq<SchemaError>) -> string,
                              model: CommandModel, params: Body)
    requires CheckFields(model.Params(), params) != []
    ensures ValidateCommand(repr, errorText, model.Name(), params)
         == Validation(false, None, Some(ValidationErrorResponse(
              "Invalid params for '" + model.Name() + "': "
                + ParseValidationError(CheckFields(model.Params(), params)),
              Some(errorText(model.Title(), CheckFields(model.Params(), params))))))
  {
    CommandLiteralPasses(model, params);
  }

  // -------------------------------------------------- the detail sentences

  /** No segment contains a space, so " -> " can only occur between segments. */
  predicate SpaceFree(loc: seq<string>) {
    forall i, k :: 0 <= i < |loc| && 0 <= k < |loc[i]| ==> loc[i][k] != ' '
  }

  /** A missing field is named by the last segment of its location. */
  lemma MissingDetail(errors: seq<SchemaError>)
    requires errors != [] && errors[0].kind == "missing"
    requires errors[0].loc != [] && SpaceFree(errors[0].loc)
    ensures ParseValidationError(errors) == "Missing required key '" + errors[0].loc[|errors[0].loc| - 1] + "'"
  {
    LastSplitPieceOfJoin(errors[0].loc, LOC_SEPARATOR);
  }

  /** A literal error names the whole path and what the literal allows ("unknown" if unsaid). */
  lemma LiteralDetail(errors: seq<SchemaError>)
    requires errors != [] && errors[0].kind == "literal_error"
    ensures ParseValidationError(errors)
         == "Invalid value for '" + Join(errors[0].loc, " -> ") + "'. Expected one of: "
            + (if errors[0].expected.Some? then errors[0].expected.value else "unknown")
  {
  }

  /** Any other kind of error is reported by its own message. */
  lemma OtherDetail(errors: seq<SchemaError>)
    requires errors != []
    requires errors[0].kind !in {"missing", "literal_error", "type_error"}
    ensures ParseValidationError(errors) == errors[0].msg
  {
  }

  /** Only the first error shapes the sentence. */
  lemma OnlyFirstErrorCounts(errors: seq<SchemaError>, more: seq<SchemaError>)
    requires errors != []
    ensures ParseValidationError(errors + more) == ParseValidationError(errors[..1])
  {
    assert (errors + more)[0] == errors[..1][0];
  }

  /** The error kinds the schemas can report. */
  const REPORTED_KINDS: set<string> := {
    "missing", "float_parsing", "float_type", "greater_than_equal",
    "int_from_float", "int_parsing", "int_type", "literal_error"
  }

  lemma ValueErrorKinds(loc: seq<string>, kind: FieldKind, v: Value)
    ensures forall e :: e in CheckValue(loc, kind, v) ==> e.kind in REPORTED_KINDS
  {
    match kind
    case Number => NumberErrorKinds(loc, v);
    case Integer(minimum) => IntegerErrorKinds(loc, minimum, v);
    case OneOf(allowed) =>
  }

  lemma NumberErrorKinds(loc: seq<string>, v: Value)
    ensures forall e :: e in CheckValue(loc, Number, v) ==> e.kind in REPORTED_KINDS
  {
  }

  lemma IntegerErrorKinds(loc: seq<string>, minimum: int, v: Value)
    ensures forall e :: e in CheckValue(loc, Integer(minimum), v) ==> e.kind in REPORTED_KINDS
  {
  }

  lemma {:induction false} FieldErrorsKinds(fields: seq<Field>, params: Body)
    ensures forall e :: e in CheckFields(fields, params) ==> e.kind in REPORTED_KINDS
  {
    if fields != [] {
      var f := fields[0];
      if f.name in params {
        ValueErrorKinds(FieldLoc(f), f.kind, params[f.name]);
      }
      FieldErrorsKinds(fields[1..], params);
    }
  }

  /**
    The schemas never report a `type_error`, so the "Wrong data type" sentence
    is never produced for them.
  */
  lemma TypeErrorNeverReported(model: CommandModel, params: Body)
    ensures forall e :: e in CheckFields(model.Params(), params) ==> e.kind != "type_error"
  {
    FieldErrorsKinds(model.Params(), params);
    assert "type_error"[0] == 't';
    assert "type_error" !in REPORTED_KINDS;
  }

  /** The one error of a rotate request with a valid angle and an unknown direction. */
  lemma RotateBadDirectionErrors(angle: Value, direction: string)
    requires Accepts(Number, angle) && direction !in DIRECTIONS
    ensures CheckFields(ROTATE_PARAMS, map["angle" := angle, "direction" := Str(direction)])
         == [SchemaError("literal_error", ["command_params", "direction"],
                         "Input should be " + ExpectedText(DIRECTIONS), Some(ExpectedText(DIRECTIONS)))]
  {
    var params := map["angle" := angle, "direction" := Str(direction)];
    assert CheckField(ROTATE_PARAMS[0], params) == [];
    assert ROTATE_PARAMS[1..] == [ROTATE_PARAMS[1]];
    assert CheckFields(ROTATE_PARAMS[1..], params) == CheckField(ROTATE_PARAMS[1], params) + CheckFields([], params);
  }

  /** The detail for a rotate request with a valid angle and an unknown direction. */
  lemma RotateBadDirectionDetail(angle: Value, direction: string)
    requires Accepts(Number, angle) && direction !in DIRECTIONS
    ensures ParseValidationError(CheckFields(ROTATE_PARAMS, map["angle" := angle, "direction" := Str(direction)]))
         == "Invalid value for '" + "command_params -> direction" + "'. Expected one of: "
            + "'clockwise' or 'counter-clockwise'"
  {
    var errors := CheckFields(ROTATE_PARAMS, map["angle" := angle, "direction" := Str(direction)]);
    RotateBadDirectionErrors(angle, direction);
    LiteralDetail(errors);
    DirectionsExpected();
    DirectionPath();
  }

  lemma DirectionsExpected()
    ensures ExpectedText(DIRECTIONS) == "'clockwise' or 'counter-clockwise'"
  {
    assert DIRECTIONS[0] == "clockwise" && DIRECTIONS[1] == "counter-clockwise";
    assert Quote("clockwise") == "'clockwise'";
    assert Quote("counter-clockwise") == "'counter-clockwise'";
    assert "'clockwise'" + " or " == "'clockwise' or ";
    assert "'clockwise' or " + "'counter-clockwise'" == "'clockwise' or 'counter-clockwise'";
  }

  lemma DirectionPath()
    ensures Join(["command_params", "direction"], " -> ") == "command_params -> direction"
  {
    assert ["command_params", "direction"][1..] == ["direction"];
  }

  /** A rotate request with a valid angle and an unknown direction. */
  lemma RotateBadDirection(repr: Value -> string, errorText: (string, seq<SchemaError>) -> string,
                           angle: Value, direction: string)
    requires Accepts(Number, angle) && direction !in DIRECTIONS
    ensures var v := ValidateCommand(repr, errorText, "rotate", map["angle" := angle, "direction" := Str(direction)]);
      && v.error.Some?
      && v.error.value.error
         == "Invalid params for '" + "rotate" + "': "
            + ("Invalid value for '" + "command_params -> direction" + "'. Expected one of: "
               + "'clockwise' or 'counter-clockwise'")
  {
    var params := map["angle" := angle, "direction" := Str(direction)];
    RotateBadDirectionDetail(angle, direction);
    assert CheckFields(ROTATE_PARAMS, params) != [] by {
      RotateAccepts(params);
    }
    SchemaFailureReported(repr, errorText, RotateCommand, params);
  }

  /** The detail for a move_to request with `x` but no `y`. */
  lemma MoveToWithoutYDetail(x: Value)
    requires Accepts(Number, x)
    ensures ParseValidationError(CheckFields(MOVE_TO_PARAMS, map["x" := x])) == "Missing required key 'y'"
  {
    var params := map["x" := x];
    MoveToMissingCoordinate(params);
    var errors := CheckFields(MOVE_TO_PARAMS, params);
    assert SpaceFree(errors[0].loc);
    MissingDetail(errors);
  }

  /** A move_to request with `x` but no `y`. */
  lemma MoveToWithoutY(repr: Value -> string, errorText: (string, seq<SchemaError>) -> string, x: Value)
    requires Accepts(Number, x)
    ensures var v := ValidateCommand(repr, errorText, "move_to", map["x" := x]);
      && v.error.Some?
      && v.error.value.error == "Invalid params for '" + "move_to" + "': " + "Missing required key 'y'"
  {
    var params := map["x" := x];
    MoveToMissingCoordinate(params);
    MoveToWithoutYDetail(x);
    SchemaFailureReported(repr, errorText, MoveToCommand, params);
  }

  // ----------------------------------------------------------- simulation

  /** `value == -1` in Python: true for the integer -1 and the float -1.0 only. */
  predicate EqualsMinusOne(v: Value) {
    v == Int(-1) || v == Float(-1.0)
  }

  const SIMULATION_PREFIX: string := "SIMULATION: "

  /** A description of a simulated action. */
  function Simulated(description: string): string {
    SIMULATION_PREFIX + description
  }

  /**
    `simulate_robot_action(command, command_params)`: the description of the
    action, or, as Err, the key whose lookup raises KeyError.
  */
  function SimulateRobotAction(repr: Value -> string, command: string, params: Body): (r: Result<string, string>)
    ensures r.Err? ==> command in COMMAND_NAMES && r.error !in params
  {
    if command == "move_to" then
      if "x" !in params then Err("x")
      else if "y" !in params then Err("y")
      else Ok(Simulated("Robot navigating to coordinates ("
                        + Format(repr, params["x"]) + ", " + Format(repr, params["y"]) + ")"))
    else if command == "rotate" then
      if "angle" !in params then Err("angle")
      else if "direction" !in params then Err("direction")
      else Ok(Simulated("Robot rotating " + Format(repr, params["angle"])
                        + " degrees " + Format(repr, params["direction"])))
    else if command == "start_patrol" then
      if "route_id" !in params then Err("route_id")
      else
        var speed := Get(params, "speed", Str(DEFAULT_SPEED));
        var repeatCount := Get(params, "repeat_count", Int(DEFAULT_REPEAT_COUNT));
        var repeatMsg := if EqualsMinusOne(repeatCount) then "continuous patrol"
                         else Format(repr, repeatCount) + " time(s)";
        Ok(Simulated("Robot starting " + Format(repr, params["route_id"]) + " patrol at "
                     + Format(repr, speed) + " speed, repeating " + repeatMsg))
    else Ok("Unknown command in simulation: " + command)
  }

  /** Every command the validator accepts can be simulated without a missing key. */
  lemma ValidatedCommandsSimulate(repr: Value -> string, errorText: (string, seq<SchemaError>) -> string,
                                  command: string, params: Body)
    requires ValidateCommand(repr, errorText, command, params).isValid
    ensures SimulateRobotAction(repr, command, params).Ok?
  {
    if command == "move_to" {
      MoveToAccepts(params);
    } else if command == "rotate" {
      RotateAccepts(params);
    } else {
      StartPatrolAccepts(params);
    }
  }

  /**
    Unknown names are described, not raised, and only known commands produce
    a description that starts with "SIMULATION: ".
  */
  lemma SimulationOfUnknownCommand(repr: Value -> string, command: string, params: Body)
    ensures command !in COMMAND_NAMES
        ==> SimulateRobotAction(repr, command, params) == Ok("Unknown command in simulation: " + command)
    ensures SimulateRobotAction(repr, command, params).Ok?
        ==> (StartsWith(SimulateRobotAction(repr, command, params).value, SIMULATION_PREFIX) <==> command in COMMAND_NAMES)
  {
    var r := SimulateRobotAction(repr, command, params);
    if r.Ok? && command !in COMMAND_NAMES {
      assert r.value[0] == 'U';
      assert !StartsWith(r.value, SIMULATION_PREFIX) by {
        assert |"SIMULATION: "| <= |r.value| ==> r.value[..12][0] == 'U';
      }
    }
  }

  /** A patrol is described as continuous exactly when its repeat count equals -1. */
  lemma ContinuousIff(repr: Value -> string, params: Body)
    requires "route_id" in params
    ensures SimulateRobotAction(repr, "start_patrol", params).Ok?
    ensures EndsWith(SimulateRobotAction(repr, "start_patrol", params).value, "continuous patrol")
        <==> EqualsMinusOne(Get(params, "repeat_count", Int(DEFAULT_REPEAT_COUNT)))
  {
    var text := SimulateRobotAction(repr, "start_patrol", params).value;
    if !EqualsMinusOne(Get(params, "repeat_count", Int(DEFAULT_REPEAT_COUNT))) {
      assert text[|text| - 1] == ')';
      assert !EndsWith(text, "continuous patrol") by {
        assert |"continuous patrol"| <= |text| ==> text[|text| - 17..][16] == text[|text| - 1];
      }
    }
  }

  /**
    The simulator's own defaults for `speed` and `repeat_count` are the
    schema's: simulating the raw parameters and the defaulted ones agree.
  */
  lemma SimulationDefaultsAgree(repr: Value -> string, params: Body)
    ensures SimulateRobotAction(repr, "start_patrol", WithDefaults(START_PATROL_PARAMS, params))
         == SimulateRobotAction(repr, "start_patrol", params)
  {
    var f := START_PATROL_PARAMS;
    var d := WithDefaults(f, params);
    assert f[1..][1..] == [Field("repeat_count", Integer(-1), Some(Int(1)))];
    assert f[1..][1..][1..] == [];
    assert WithDefaults(f[1..][1..][1..], params) == params;
    var r1 := WithDefaults(f[1..][1..], params);
    assert r1 == if "repeat_count" !in params then params["repeat_count" := Int(1)] else params;
    var r0 := WithDefaults(f[1..], params);
    assert r0 == if "speed" !in params then r1["speed" := Str("medium")] else r1;
    assert d == r0;
    assert "route_id" in d <==> "route_id" in params;
    assert "route_id" in params ==> d["route_id"] == params["route_id"];
    assert Get(d, "speed", Str(DEFAULT_SPEED)) == Get(params, "speed", Str(DEFAULT_SPEED));
    assert Get(d, "repeat_count", Int(1)) == Get(params, "repeat_count", Int(1));
  }
}
