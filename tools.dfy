/** A single tool of the in-memory workflow editor (tools/tools.py): its input and output
    id sets, its canvas coordinates, its configuration and its accumulated error messages.
    The tool's state is a value (`ToolState`); each operation is a function on that value,
    and the class `Tool` holds the same state in mutable fields whose methods are proved
    to perform exactly those functions. */
module Tools {
  import opened Common

  type Positive = n: int | n > 0 witness 1

  /** `MAX_CANVAS_SIZE` of workflows/workflow_constants.py, which is not part of this model:
      only its positivity is known here. */
  const MAX_CANVAS_SIZE: Positive

  /** The class of a tool: the base class `Tool` and its four subclasses. */
  datatype ToolClass = BaseTool | RootTool | InputTool | GenericTool | LargeGenericTool

  /** The class attribute `max_number_of_inputs`. */
  function MaxNumberOfInputs(c: ToolClass): nat {
    match c
    case BaseTool => 1
    case RootTool => 0
    case InputTool => 0
    case GenericTool => 2
    case LargeGenericTool => 10
  }

  /** The class attribute `is_root`. */
  predicate IsRoot(c: ToolClass) {
    c.RootTool?
  }

  /** Whether the class defines `_config_class` (only `InputTool`, with `InputConfig`). */
  predicate HasConfigClass(c: ToolClass) {
    c.InputTool?
  }

  /** The capacity table in one statement: the classes' capacities, and that root-ness and a
      configuration class belong to one class each. */
  lemma ClassTable()
    ensures MaxNumberOfInputs(BaseTool) == 1 && MaxNumberOfInputs(RootTool) == 0
    ensures MaxNumberOfInputs(InputTool) == 0 && MaxNumberOfInputs(GenericTool) == 2
    ensures MaxNumberOfInputs(LargeGenericTool) == 10
    ensures forall c: ToolClass :: IsRoot(c) <==> c == RootTool
    ensures forall c: ToolClass :: HasConfigClass(c) <==> c == InputTool
  {
  }

  /** The keyword arguments passed to the configuration class. */
  type ConfigData = map<string, string>

  /** What constructing the configuration class from the data gives: the validated
      configuration, or the JSON text of pydantic's validation errors. The validation itself
      (URL checks and the like) is a parameter of the operations that use it. */
  datatype Validation = Accepted(config: ConfigData) | Rejected(errorsJson: string)

  /** One message of `errors["input"]`: "Skipped input addition for <id> - max number of
      inputs (<max>) reached." */
  datatype InputError = SkippedInput(inputId: int, maxNumberOfInputs: nat)

  /** The `errors` dict: the `"input"` and `"config"` entries, each absent until first set. */
  datatype ToolErrors = ToolErrors(input: Option<seq<InputError>>, config: Option<string>)

  /** `errors.get("input", [])`. */
  function InputMessages(e: ToolErrors): seq<InputError> {
    match e.input
    case None => []
    case Some(ms) => ms
  }

  /** The arguments of the coordinate setter after `map(int, coordinates)`: two integers, or a
      value that `int` or the tuple unpacking rejects with a ValueError. */
  datatype CoordinatesArg = Integers(x: int, y: int) | NotCoercible

  /** How a setter ends: normally, or with the exception it raises. */
  datatype SetterOutcome =
    | Done
    | CoordinatesTypeError                      // "Coordinates need to be a tuple of integers."
    | CoordinatesValueError(maxCanvasSize: int) // "Both coordinates must fall in the [0, <max>] range."
    | ConfigClassIsNotDefined

  /** The whole state of a tool object. `x` and `y` are `None` until coordinates are set. */
  datatype ToolState = ToolState(
    id: int,
    toolClass: ToolClass,
    inputs: set<int>,
    outputs: set<int>,
    config: Option<ConfigData>,
    x: Option<int>,
    y: Option<int>,
    errors: ToolErrors)

  /** The per-class input capacity holds. */
  predicate WithinCapacity(s: ToolState) {
    |s.inputs| <= MaxNumberOfInputs(s.toolClass)
  }

  /** A freshly constructed tool (`Tool.__init__`). */
  function NewTool(id: int, c: ToolClass): (s: ToolState)
    ensures s.id == id && s.toolClass == c
    ensures s.inputs == {} && s.outputs == {} && s.config.None?
    ensures s.x.None? && s.y.None? && InputMessages(s.errors) == [] && s.errors.config.None?
    ensures WithinCapacity(s)
  {
    ToolState(id, c, {}, {}, None, None, None, ToolErrors(None, None))
  }

  /** `add_input`: below capacity the id joins the inputs; at or above it, the inputs stay as
      they are and exactly one message is appended to `errors["input"]`. */
  function WithInput(s: ToolState, inputId: int): (r: ToolState)
    ensures r.(inputs := s.inputs, errors := s.errors) == s
    ensures r.errors.config == s.errors.config
    ensures |s.inputs| < MaxNumberOfInputs(s.toolClass) ==>
              r.inputs == s.inputs + {inputId} && r.errors == s.errors
    ensures |s.inputs| >= MaxNumberOfInputs(s.toolClass) ==>
              r.inputs == s.inputs &&
              InputMessages(r.errors) ==
                InputMessages(s.errors) + [SkippedInput(inputId, MaxNumberOfInputs(s.toolClass))]
    ensures WithinCapacity(s) ==> WithinCapacity(r)
    ensures inputId in r.inputs ==> inputId in s.inputs || |s.inputs| < MaxNumberOfInputs(s.toolClass)
  {
    var max := MaxNumberOfInputs(s.toolClass);
    if |s.inputs| >= max then
      s.(errors := s.errors.(input := Some(InputMessages(s.errors) + [SkippedInput(inputId, max)])))
    else
      s.(inputs := s.inputs + {inputId})
  }

  /** `remove_input`: the id leaves the inputs; an id that is not an input is silently ignored. */
  function WithoutInput(s: ToolState, inputId: int): (r: ToolState)
    ensures r.(inputs := s.inputs) == s
    ensures inputId !in r.inputs && r.inputs + {inputId} >= s.inputs && r.inputs <= s.inputs
    ensures inputId !in s.inputs ==> r == s
    ensures WithinCapacity(s) ==> WithinCapacity(r)
  {
    s.(inputs := s.inputs - {inputId})
  }

  /** `add_output`: an idempotent insertion into the outputs. */
  function WithOutput(s: ToolState, outputId: int): (r: ToolState)
    ensures r.(outputs := s.outputs) == s
    ensures r.outputs == s.outputs + {outputId}
    ensures outputId in s.outputs ==> r == s
  {
    s.(outputs := s.outputs + {outputId})
  }

  /** `remove_output`: the id leaves the outputs; an id that is not an output is silently ignored. */
  function WithoutOutput(s: ToolState, outputId: int): (r: ToolState)
    ensures r.(outputs := s.outputs) == s
    ensures outputId !in r.outputs && r.outputs + {outputId} >= s.outputs && r.outputs <= s.outputs
    ensures outputId !in s.outputs ==> r == s
  {
    s.(outputs := s.outputs - {outputId})
  }

  /** `clean_errors`: `errors` becomes the empty dict and nothing else changes. */
  function CleanedErrors(s: ToolState): (r: ToolState)
    ensures r.(errors := s.errors) == s
    ensures InputMessages(r.errors) == [] && r.errors.config.None?
  {
    s.(errors := ToolErrors(None, None))
  }

  /** A coordinate lies on the canvas. */
  predicate OnCanvas(v: int) {
    0 <= v <= MAX_CANVAS_SIZE
  }

  /** The `coordinates` setter: stores (x, y) only when both lie in [0, MAX_CANVAS_SIZE];
      otherwise the tool is unchanged and the setter raises a TypeError (arguments that are
      not integers) or a ValueError (an integer off the canvas). */
  function Placed(s: ToolState, c: CoordinatesArg): (r: (ToolState, SetterOutcome))
    ensures r.1 == Done <==> c.Integers? && OnCanvas(c.x) && OnCanvas(c.y)
    ensures r.1 == Done ==> r.0 == s.(x := Some(c.x), y := Some(c.y))
    ensures r.1 != Done ==> r.0 == s
    ensures r.1 == CoordinatesTypeError <==> c.NotCoercible?
    ensures r.1 == Done || r.1 == CoordinatesTypeError || r.1 == CoordinatesValueError(MAX_CANVAS_SIZE)
  {
    match c
    case NotCoercible => (s, CoordinatesTypeError)
    case Integers(x, y) =>
      if x < 0 || x > MAX_CANVAS_SIZE || y < 0 || y > MAX_CANVAS_SIZE then
        (s, CoordinatesValueError(MAX_CANVAS_SIZE))
      else
        (s.(x := Some(x), y := Some(y)), Done)
  }

  /** The `config` setter. A class without a configuration class raises
      ConfigClassIsNotDefined and changes nothing; otherwise valid data becomes the
      configuration, and invalid data is recorded in `errors["config"]` while the previous
      configuration stays. */
  function Configured(s: ToolState, data: ConfigData, validate: ConfigData -> Validation): (r: (ToolState, SetterOutcome))
    ensures r.1 == ConfigClassIsNotDefined <==> !HasConfigClass(s.toolClass)
    ensures r.1 != ConfigClassIsNotDefined ==> r.1 == Done
    ensures !HasConfigClass(s.toolClass) ==> r.0 == s
    ensures HasConfigClass(s.toolClass) && validate(data).Accepted? ==>
              r.0 == s.(config := Some(validate(data).config))
    ensures HasConfigClass(s.toolClass) && validate(data).Rejected? ==>
              r.0 == s.(errors := s.errors.(config := Some(validate(data).errorsJson)))
  {
    if !HasConfigClass(s.toolClass) then (s, ConfigClassIsNotDefined)
    else
      match validate(data)
      case Accepted(config) => (s.(config := Some(config)), Done)
      case Rejected(json) => (s.(errors := s.errors.(config := Some(json))), Done)
  }

  /** `errors["input"]` never loses a message: `add_input` appends at most one, and the others
      leave it alone; only `clean_errors` empties it. */
  lemma InputMessagesOnlyGrow(s: ToolState, id: int)
    ensures InputMessages(s.errors) <= InputMessages(WithInput(s, id).errors)
    ensures |InputMessages(WithInput(s, id).errors)| <= |InputMessages(s.errors)| + 1
    ensures InputMessages(WithoutInput(s, id).errors) == InputMessages(s.errors)
    ensures InputMessages(WithOutput(s, id).errors) == InputMessages(s.errors)
    ensures InputMessages(WithoutOutput(s, id).errors) == InputMessages(s.errors)
  {
  }

  /** A tool object. `id` and the class are fixed at construction; the other fields are the
      state the methods update in place. */
  class Tool {
    const id: int
    const toolClass: ToolClass
    var inputs: set<int>
    var outputs: set<int>
    var config: Option<ConfigData>
    var x: Option<int>
    var y: Option<int>
    var errors: ToolErrors

    /** The object's state as a value. */
    function State(): ToolState
      reads this
    {
      ToolState(id, toolClass, inputs, outputs, config, x, y, errors)
    }

    /** The class invariant: the input capacity holds. */
    ghost predicate Valid()
      reads this
    {
      WithinCapacity(State())
    }

    constructor (id: int, toolClass: ToolClass)
      ensures Valid() && State() == NewTool(id, toolClass)
    {
      this.id := id;
      this.toolClass := toolClass;
      inputs := {};
      outputs := {};
      config := None;
      x := None;
      y := None;
      errors := ToolErrors(None, None);
    }

    /** `number_of_inputs`. */
    function NumberOfInputs(): (n: nat)
      reads this
      ensures n == |State().inputs|
    {
      |inputs|
    }

    method AddInput(inputId: int)
      modifies this
      ensures State() == WithInput(old(State()), inputId)
      ensures old(Valid()) ==> Valid()
    {
      if NumberOfInputs() >= MaxNumberOfInputs(toolClass) {
        errors := errors.(input := Some(InputMessages(errors) + [SkippedInput(inputId, MaxNumberOfInputs(toolClass))]));
      } else {
        inputs := inputs + {inputId};
      }
    }

    method RemoveInput(inputId: int)
      modifies this
      ensures State() == WithoutInput(old(State()), inputId)
      ensures old(Valid()) ==> Valid()
    {
      if inputId in inputs {
        inputs := inputs - {inputId};
      }
    }

    method AddOutput(outputId: int)
      modifies this
      ensures State() == WithOutput(old(State()), outputId)
      ensures Valid() <==> old(Valid())
    {
      outputs := outputs + {outputId};
    }

    method RemoveOutput(outputId: int)
      modifies this
      ensures State() == WithoutOutput(old(State()), outputId)
      ensures Valid() <==> old(Valid())
    {
      if outputId in outputs {
        outputs := outputs - {outputId};
      }
    }

    method CleanErrors()
      modifies this
      ensures State() == CleanedErrors(old(State()))
      ensures Valid() <==> old(Valid())
    {
      errors := ToolErrors(None, None);
    }

    method SetCoordinates(c: CoordinatesArg) returns (outcome: SetterOutcome)
      modifies this
      ensures (State(), outcome) == Placed(old(State()), c)
      ensures Valid() <==> old(Valid())
    {
      match c
      case NotCoercible =>
        outcome := CoordinatesTypeError;
      case Integers(cx, cy) =>
        if cx < 0 || cx > MAX_CANVAS_SIZE || cy < 0 || cy > MAX_CANVAS_SIZE {
          outcome := CoordinatesValueError(MAX_CANVAS_SIZE);
        } else {
          x, y := Some(cx), Some(cy);
          outcome := Done;
        }
    }

    method SetConfig(data: ConfigData, validate: ConfigData -> Validation) returns (outcome: SetterOutcome)
      modifies this
      ensures (State(), outcome) == Configured(old(State()), data, validate)
      ensures Valid() <==> old(Valid())
    {
      if !HasConfigClass(toolClass) {
        outcome := ConfigClassIsNotDefined;
        return;
      }
      match validate(data) {
        case Accepted(c) =>
          config := Some(c);
        case Rejected(json) =>
          errors := errors.(config := Some(json));
      }
      outcome := Done;
    }
  }
}
