/**
  The robot validator's command schemas: one parameter model per command,
  listing typed, enumerated and defaulted fields in declaration order, and one
  wrapper model per command that pins `command` to the command's own name.

  Validation follows Pydantic 2: every field is checked in declaration order,
  every violation is reported (the list is not cut short at the first one),
  a field absent from the input takes its default without being checked, and
  keys that no field declares are ignored.
*/
module RobotCommands {
  import opened Results
  import opened Strings
  import opened Values

  /** One entry of `ValidationError.errors()`: its `type`, `loc`, `msg` and `ctx["expected"]`. */
  datatype SchemaError = SchemaError(kind: string, loc: seq<string>, msg: string, expected: Option<string>)

  /** The declared type of a field and its constraint. */
  datatype FieldKind =
    | Number                       // float
    | Integer(minimum: int)        // int with ge=minimum
    | OneOf(allowed: seq<string>)  // Literal[...] over strings

  /** A field; `default` is None for a required field (`Field(...)`). */
  datatype Field = Field(name: string, kind: FieldKind, default: Option<Value>)

  const DIRECTIONS: seq<string> := ["clockwise", "counter-clockwise"]
  const ROUTE_IDS: seq<string> := ["first_floor", "bedrooms", "second_floor"]
  const SPEEDS: seq<string> := ["slow", "medium", "fast"]
  const DEFAULT_SPEED: string := "medium"
  const DEFAULT_REPEAT_COUNT: int := 1
  const MIN_REPEAT_COUNT: int := -1

  /** MoveToCommandParams */
  const MOVE_TO_PARAMS: seq<Field> := [Field("x", Number, None), Field("y", Number, None)]

  /** RotateCommandParams */
  const ROTATE_PARAMS: seq<Field> :=
    [Field("angle", Number, None), Field("direction", OneOf(DIRECTIONS), None)]

  /** StartPatrolCommandParams */
  const START_PATROL_PARAMS: seq<Field> := [
    Field("route_id", OneOf(ROUTE_IDS), None),
    Field("speed", OneOf(SPEEDS), Some(Str(DEFAULT_SPEED))),
    Field("repeat_count", Integer(MIN_REPEAT_COUNT), Some(Int(DEFAULT_REPEAT_COUNT)))
  ]

  /** The wrapper models MoveToCommand, RotateCommand and StartPatrolCommand. */
  datatype CommandModel = MoveToCommand | RotateCommand | StartPatrolCommand {
    /** The literal the model's `command` field is pinned to. */
    function Name(): string {
      match this
      case MoveToCommand => "move_to"
      case RotateCommand => "rotate"
      case StartPatrolCommand => "start_patrol"
    }

    /** The class name, which titles the text of a ValidationError. */
    function Title(): string {
      match this
      case MoveToCommand => "MoveToCommand"
      case RotateCommand => "RotateCommand"
      case StartPatrolCommand => "StartPatrolCommand"
    }

    /** The fields of the model's `command_params`. */
    function Params(): seq<Field> {
      match this
      case MoveToCommand => MOVE_TO_PARAMS
      case RotateCommand => ROTATE_PARAMS
      case StartPatrolCommand => START_PATROL_PARAMS
    }
  }

  // ------------------------------------------------------------ checking

  function Quote(s: string): string { "'" + s + "'" }

  /** How Pydantic lists the permitted literals: `'a' or 'b'`, `'a', 'b' or 'c'`. */
  function ExpectedText(allowed: seq<string>): string {
    if |allowed| == 0 then ""
    else if |allowed| == 1 then Quote(allowed[0])
    else if |allowed| == 2 then Quote(allowed[0]) + " or " + Quote(allowed[1])
    else Quote(allowed[0]) + ", " + ExpectedText(allowed[1..])
  }

  /**
    The integer an `int` field makes of a value: integers as they are, booleans
    as 0 and 1, floats without a fractional part as their integer value.
  */
  function AsInteger(v: Value): Option<int> {
    match v
    case Int(i) => Some(i)
    case Bool(b) => Some(if b then 1 else 0)
    case Float(r) => if r.Floor as real == r then Some(r.Floor) else None
    case _ => None
  }

  /** Whether a present value satisfies the field's type and constraint. */
  predicate Accepts(kind: FieldKind, v: Value) {
    match kind
    case Number => v.Int? || v.Float? || v.Bool?
    case Integer(minimum) => AsInteger(v).Some? && AsInteger(v).value >= minimum
    case OneOf(allowed) => v.Str? && v.s in allowed
  }

  /** The errors Pydantic reports for one present value at `loc`. */
  function CheckValue(loc: seq<string>, kind: FieldKind, v: Value): seq<SchemaError> {
    match kind
    case Number =>
      if v.Int? || v.Float? || v.Bool? then []
      else if v.Str? then
        [SchemaError("float_parsing", loc,
                     "Input should be a valid number, unable to parse string as a number", None)]
      else [SchemaError("float_type", loc, "Input should be a valid number", None)]
    case Integer(minimum) =>
      if AsInteger(v).Some? then
        if AsInteger(v).value >= minimum then []
        else [SchemaError("greater_than_equal", loc,
                          "Input should be greater than or equal to " + IntToDecimal(minimum), None)]
      else if v.Float? then
        [SchemaError("int_from_float", loc,
                     "Input should be a valid integer, got a number with a fractional part", None)]
      else if v.Str? then
        [SchemaError("int_parsing", loc,
                     "Input should be a valid integer, unable to parse string as an integer", None)]
      else [SchemaError("int_type", loc, "Input should be a valid integer", None)]
    case OneOf(allowed) =>
      if v.Str? && v.s in allowed then []
      else [SchemaError("literal_error", loc, "Input should be " + ExpectedText(allowed),
                        Some(ExpectedText(allowed)))]
  }

  function FieldLoc(f: Field): seq<string> { ["command_params", f.name] }

  /** The errors for one field of `command_params`. */
  function CheckField(f: Field, params: Body): seq<SchemaError> {
    if f.name in params then CheckValue(FieldLoc(f), f.kind, params[f.name])
    else if f.default.None? then [SchemaError("missing", FieldLoc(f), "Field required", None)]
    else []
  }

  /** The errors for a list of fields, in declaration order. */
  function CheckFields(fields: seq<Field>, params: Body): seq<SchemaError> {
    if fields == [] then [] else CheckField(fields[0], params) + CheckFields(fields[1..], params)
  }

  /**
    The errors of `model(command=command, command_params=params)`: the
    `command` literal first, then the parameter fields.
  */
  function CheckCommand(model: CommandModel, command: string, params: Body): seq<SchemaError> {
    CheckValue(["command"], OneOf([model.Name()]), Str(command)) + CheckFields(model.Params(), params)
  }

  /** `params` with every absent defaulted field set to its default. */
  function WithDefaults(fields: seq<Field>, params: Body): Body {
    if fields == [] then params
    else
      var rest := WithDefaults(fields[1..], params);
      if fields[0].name !in params && fields[0].default.Some?
      then rest[fields[0].name := fields[0].default.value]
      else rest
  }

  // ---------------------------------------------------------- properties

  /** A field passes when its value is acceptable, or it is absent and has a default. */
  predicate FieldOk(f: Field, params: Body) {
    if f.name in params then Accepts(f.kind, params[f.name]) else f.default.Some?
  }

  lemma CheckFieldEmptyIff(f: Field, params: Body)
    ensures CheckField(f, params) == [] <==> FieldOk(f, params)
  {
  }

  /** No error is reported exactly when every declared field passes. */
  lemma {:induction false} CheckFieldsEmptyIff(fields: seq<Field>, params: Body)
    ensures CheckFields(fields, params) == []
        <==> forall i :: 0 <= i < |fields| ==> FieldOk(fields[i], params)
  {
    if fields != [] {
      CheckFieldEmptyIff(fields[0], params);
      CheckFieldsEmptyIff(fields[1..], params);
      if CheckFields(fields, params) == [] {
        forall i | 0 <= i < |fields| ensures FieldOk(fields[i], params) {
          if i > 0 { assert fields[i] == fields[1..][i - 1]; }
        }
      } else {
        assert !FieldOk(fields[0], params) || exists i :: 0 <= i < |fields| - 1 && !FieldOk(fields[1..][i], params);
      }
    }
  }

  /**
    When the fields before `i` pass and field `i` does not, the first reported
    error is field `i`'s.
  */
  lemma {:induction false} FirstErrorIsFirstFailingField(fields: seq<Field>, params: Body, i: nat)
    requires i < |fields|
    requires forall j :: 0 <= j < i ==> FieldOk(fields[j], params)
    requires !FieldOk(fields[i], params)
    ensures CheckFields(fields, params) != []
    ensures CheckFields(fields, params)[0] == CheckField(fields[i], params)[0]
  {
    CheckFieldEmptyIff(fields[i], params);
    if i == 0 {
    } else {
      CheckFieldEmptyIff(fields[0], params);
      FirstErrorIsFirstFailingField(fields[1..], params, i - 1);
    }
  }

  predicate Declares(fields: seq<Field>, key: string) {
    exists i :: 0 <= i < |fields| && fields[i].name == key
  }

  /** Keys that no field declares do not change the outcome: extra parameters are ignored. */
  lemma {:induction false} ExtraKeysIgnored(fields: seq<Field>, params: Body, key: string, v: Value)
    requires !Declares(fields, key)
    ensures CheckFields(fields, params[key := v]) == CheckFields(fields, params)
  {
    if fields != [] {
      assert fields[0].name != key;
      forall i | 0 <= i < |fields| - 1 ensures fields[1..][i].name != key {
        assert fields[1..][i] == fields[i + 1];
      }
      ExtraKeysIgnored(fields[1..], params, key, v);
    }
  }

  /** The `command` literal of the model chosen by name never fails. */
  lemma CommandLiteralPasses(model: CommandModel, params: Body)
    ensures CheckCommand(model, model.Name(), params) == CheckFields(model.Params(), params)
  {
  }

  /** move_to accepts exactly two present numbers `x` and `y`. */
  lemma MoveToAccepts(params: Body)
    ensures CheckFields(MOVE_TO_PARAMS, params) == []
        <==> "x" in params && Accepts(Number, params["x"]) && "y" in params && Accepts(Number, params["y"])
  {
    CheckFieldsEmptyIff(MOVE_TO_PARAMS, params);
  }

  /** A missing `x` is the first error of move_to; so is a missing `y` when `x` passes. */
  lemma MoveToMissingCoordinate(params: Body)
    ensures "x" !in params ==>
      && CheckFields(MOVE_TO_PARAMS, params) != []
      && CheckFields(MOVE_TO_PARAMS, params)[0] == SchemaError("missing", ["command_params", "x"], "Field required", None)
    ensures "x" in params && Accepts(Number, params["x"]) && "y" !in params ==>
      && CheckFields(MOVE_TO_PARAMS, params) != []
      && CheckFields(MOVE_TO_PARAMS, params)[0] == SchemaError("missing", ["command_params", "y"], "Field required", None)
  {
    if "x" !in params {
      FirstErrorIsFirstFailingField(MOVE_TO_PARAMS, params, 0);
    } else if Accepts(Number, params["x"]) && "y" !in params {
      FirstErrorIsFirstFailingField(MOVE_TO_PARAMS, params, 1);
    }
  }

  /** rotate takes any number as `angle` (no range) and one of the two directions. */
  lemma RotateAccepts(params: Body)
    ensures CheckFields(ROTATE_PARAMS, params) == []
        <==> && "angle" in params && Accepts(Number, params["angle"])
             && "direction" in params && params["direction"] in [Str("clockwise"), Str("counter-clockwise")]
  {
    CheckFieldsEmptyIff(ROTATE_PARAMS, params);
  }

  /**
    start_patrol needs a known route; `speed` and `repeat_count` may be absent,
    and when present must be a known speed and an integer no smaller than -1.
  */
  lemma StartPatrolAccepts(params: Body)
    ensures CheckFields(START_PATROL_PARAMS, params) == []
        <==> && "route_id" in params
             && params["route_id"] in [Str("first_floor"), Str("bedrooms"), Str("second_floor")]
             && ("speed" in params ==> params["speed"] in [Str("slow"), Str("medium"), Str("fast")])
             && ("repeat_count" in params ==>
                   AsInteger(params["repeat_count"]).Some? && AsInteger(params["repeat_count"]).value >= -1)
  {
    CheckFieldsEmptyIff(START_PATROL_PARAMS, params);
  }

  /** With a valid route and nothing else, repeat counts -1, 0 and 5 pass and -2 fails. */
  lemma RepeatCountBoundary(route: string)
    requires route in ROUTE_IDS
    ensures CheckFields(START_PATROL_PARAMS, map["route_id" := Str(route), "repeat_count" := Int(-1)]) == []
    ensures CheckFields(START_PATROL_PARAMS, map["route_id" := Str(route), "repeat_count" := Int(0)]) == []
    ensures CheckFields(START_PATROL_PARAMS, map["route_id" := Str(route), "repeat_count" := Int(5)]) == []
    ensures CheckFields(START_PATROL_PARAMS, map["route_id" := Str(route), "repeat_count" := Int(-2)])
         == [SchemaError("greater_than_equal", ["command_params", "repeat_count"],
                         "Input should be greater than or equal to -1", None)]
  {
    StartPatrolAccepts(map["route_id" := Str(route), "repeat_count" := Int(-1)]);
    StartPatrolAccepts(map["route_id" := Str(route), "repeat_count" := Int(0)]);
    StartPatrolAccepts(map["route_id" := Str(route), "repeat_count" := Int(5)]);
    var bad := map["route_id" := Str(route), "repeat_count" := Int(-2)];
    var f := START_PATROL_PARAMS;
    assert CheckField(f[0], bad) == [];
    assert CheckField(f[1], bad) == [];
    assert IntToDecimal(-1) == "-1" by { assert NatToDecimal(1) == "1"; }
    assert f[2] == Field("repeat_count", Integer(-1), Some(Int(1)));
    assert "repeat_count" in bad && bad["repeat_count"] == Int(-2);
    assert AsInteger(Int(-2)) == Some(-2);
    assert "Input should be greater than or equal to " + IntToDecimal(-1)
        == "Input should be greater than or equal to -1";
    assert CheckField(f[2], bad)
        == [SchemaError("greater_than_equal", ["command_params", "repeat_count"],
                        "Input should be greater than or equal to -1", None)];
    assert f[1..][1..][1..] == [];
    assert CheckFields(f[1..][1..], bad) == CheckField(f[2], bad) + CheckFields(f[1..][1..][1..], bad);
    assert CheckFields(f[1..], bad) == CheckField(f[1], bad) + CheckFields(f[1..][1..], bad);
  }

  /** Filling in defaults adds only the absent defaulted fields and keeps every given key. */
  lemma {:induction false} WithDefaultsKeeps(fields: seq<Field>, params: Body)
    ensures forall k :: k in params ==> k in WithDefaults(fields, params) && WithDefaults(fields, params)[k] == params[k]
  {
    if fields != [] {
      WithDefaultsKeeps(fields[1..], params);
    }
  }
}
