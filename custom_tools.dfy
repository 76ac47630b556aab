/**
 * The custom-tools example: a registry of named tools that is filled in place,
 * and three mock tools (a calculator, a weather table, a clock) that read string
 * parameters and answer with a string or throw `IllegalArgumentException`.
 * Double parsing, arithmetic and formatting, and the clock, are parameters.
 */
module CustomTools {
  import opened Wrappers
  import opened Text

  /** The `Map<String, String>` a tool is executed with. */
  type Params = map<string, string>

  /** What a tool throws: `IllegalArgumentException(message)`. */
  datatype ToolError = IllegalArgument(message: string)

  type ToolResult = Result<string, ToolError>

  /** An IEEE-754 double, kept as its 64-bit pattern. */
  datatype Double = Double(bits: bv64)

  /** `b == 0.0` on a double: true for positive and negative zero only. */
  predicate IsZero(d: Double) {
    d.bits == 0 || d.bits == 0x8000_0000_0000_0000
  }

  /** The four arithmetic operations of the calculator. */
  datatype ArithOp = Plus | Minus | Times | Over

  /**
   * Kotlin's double operations, left abstract: `toDoubleOrNull`, the
   * operators `+ - * /`, and `Double.toString`.
   */
  datatype Numerics = Numerics(
    parse: string -> Option<Double>,
    apply: (ArithOp, Double, Double) -> Double,
    format: Double -> string)

  /** What the tools need from outside: double arithmetic, and the current time shifted by a number of hours, formatted. */
  datatype Env = Env(numerics: Numerics, clock: int -> string)

  // ---------------------------------------------------------------------------
  // CalculatorTool
  // ---------------------------------------------------------------------------

  /** The `when` over the lower-cased operation: a word or its symbol. */
  function CalcOp(lowered: string): Option<ArithOp> {
    if lowered == "add" || lowered == "+" then Some(Plus)
    else if lowered == "subtract" || lowered == "-" then Some(Minus)
    else if lowered == "multiply" || lowered == "*" then Some(Times)
    else if lowered == "divide" || lowered == "/" then Some(Over)
    else None
  }

  /** `parameters[key]?.toDoubleOrNull()`. */
  function ParseParam(params: Params, key: string, num: Numerics): Option<Double> {
    if key in params then num.parse(params[key]) else None
  }

  /** `CalculatorTool.execute`: validate all three parameters, then dispatch on the operation. */
  function CalculatorExecute(params: Params, num: Numerics): ToolResult {
    if "operation" !in params then Failure(IllegalArgument("Missing operation parameter"))
    else
      var operation := params["operation"];
      var a := ParseParam(params, "a", num);
      var b := ParseParam(params, "b", num);
      if a.None? then Failure(IllegalArgument("Invalid parameter 'a'"))
      else if b.None? then Failure(IllegalArgument("Invalid parameter 'b'"))
      else
        match CalcOp(Lower(operation))
        case Some(Over) =>
          if IsZero(b.value) then Success("Error: Division by zero")
          else Success(num.format(num.apply(Over, a.value, b.value)))
        case Some(op) => Success(num.format(num.apply(op, a.value, b.value)))
        case None => Success("Error: Unknown operation '" + operation + "'")
  }

  /**
   * Validation comes before dispatch: the calculator throws exactly when the
   * operation is missing or `a` or `b` is missing or unparsable, in that order
   * of precedence, whatever the operation says.
   */
  lemma CalculatorValidation(params: Params, num: Numerics)
    ensures CalculatorExecute(params, num).Failure? <==>
            "operation" !in params || ParseParam(params, "a", num).None? || ParseParam(params, "b", num).None?
    ensures "operation" !in params ==>
            CalculatorExecute(params, num) == Failure(IllegalArgument("Missing operation parameter"))
    ensures "operation" in params && ParseParam(params, "a", num).None? ==>
            CalculatorExecute(params, num) == Failure(IllegalArgument("Invalid parameter 'a'"))
    ensures "operation" in params && ParseParam(params, "a", num).Some? && ParseParam(params, "b", num).None? ==>
            CalculatorExecute(params, num) == Failure(IllegalArgument("Invalid parameter 'b'"))
  {
  }

  /** Each operation word and its symbol select the same operation, and nothing else does. */
  lemma CalcOpAliases(lowered: string)
    ensures CalcOp(lowered) == Some(Plus) <==> lowered in ["add", "+"]
    ensures CalcOp(lowered) == Some(Minus) <==> lowered in ["subtract", "-"]
    ensures CalcOp(lowered) == Some(Times) <==> lowered in ["multiply", "*"]
    ensures CalcOp(lowered) == Some(Over) <==> lowered in ["divide", "/"]
  {
  }

  /** The operation is matched without regard to letter case. */
  lemma CalcOpIgnoresCase(op1: string, op2: string)
    requires EqualIgnoringCase(op1, op2)
    ensures CalcOp(Lower(op1)) == CalcOp(Lower(op2))
  {
    LowerEqualIff(op1, op2);
  }

  /**
   * With valid operands, a known operation other than a division by zero
   * gives the formatted result of that operation; dividing by zero gives
   * "Error: Division by zero"; an unknown operation, a message starting
   * "Error: Unknown operation" that quotes it. None of these throws.
   */
  lemma CalculatorDispatch(params: Params, num: Numerics, operation: string, a: Double, b: Double)
    requires "operation" in params && params["operation"] == operation
    requires ParseParam(params, "a", num) == Some(a) && ParseParam(params, "b", num) == Some(b)
    ensures CalcOp(Lower(operation)) == Some(Over) && IsZero(b) ==>
            CalculatorExecute(params, num) == Success("Error: Division by zero")
    ensures CalcOp(Lower(operation)).Some? && !(CalcOp(Lower(operation)) == Some(Over) && IsZero(b)) ==>
            CalculatorExecute(params, num) == Success(num.format(num.apply(CalcOp(Lower(operation)).value, a, b)))
    ensures CalcOp(Lower(operation)).None? ==>
            CalculatorExecute(params, num).Success? &&
            "Error: Unknown operation" <= CalculatorExecute(params, num).value &&
            CalculatorExecute(params, num).value == "Error: Unknown operation '" + operation + "'"
  {
  }

  /** "DIVIDE" is a division; "power" is an unknown operation. */
  lemma CalcOpExamples()
    ensures CalcOp(Lower("DIVIDE")) == Some(Over)
    ensures CalcOp(Lower("power")) == None
  {
    CalcOpIgnoresCase("DIVIDE", "divide");
    LowerOfLowerCase("divide");
    LowerOfLowerCase("power");
  }

  // ---------------------------------------------------------------------------
  // WeatherTool
  // ---------------------------------------------------------------------------

  /** The mock weather data, in its insertion order. */
  const WeatherData: seq<(string, string)> := [
    ("new york", "Sunny, 22°C (72°F), Light breeze"),
    ("london", "Cloudy, 15°C (59°F), Light rain expected"),
    ("tokyo", "Partly cloudy, 18°C (64°F), Moderate humidity"),
    ("sydney", "Clear skies, 25°C (77°F), Gentle breeze")
  ]

  function Keys(table: seq<(string, string)>): (ks: seq<string>)
    ensures |ks| == |table| && forall i :: 0 <= i < |table| ==> ks[i] == table[i].0
  {
    seq(|table|, i requires 0 <= i < |table| => table[i].0)
  }

  /** `table[key]` on an insertion-ordered map. */
  function Lookup(table: seq<(string, string)>, key: string): (r: Option<string>)
    ensures r.Some? <==> key in Keys(table)
    ensures r.Some? ==> exists i :: 0 <= i < |table| && table[i] == (key, r.value)
    decreases |table|
  {
    if table == [] then None
    else if table[0].0 == key then Some(table[0].1)
    else
      var r := Lookup(table[1..], key);
      assert Keys(table) == [table[0].0] + Keys(table[1..]);
      assert r.Some? ==> exists i :: 0 <= i < |table| && table[i] == (key, r.value) by {
        if r.Some? {
          var i :| 0 <= i < |table| - 1 && table[1..][i] == (key, r.value);
          assert table[i + 1] == (key, r.value);
        }
      }
      r
  }

  /** `WeatherTool.execute`. */
  function WeatherExecute(params: Params): ToolResult {
    if "location" !in params then Failure(IllegalArgument("Missing location parameter"))
    else
      var location := Lower(params["location"]);
      match Lookup(WeatherData, location)
      case Some(report) => Success(report)
      case None =>
        Success("Weather data not available for '" + location + "'. " +
                "Available locations: " + Join(Keys(WeatherData), ", "))
  }

  /**
   * The location is lower-cased and looked up: a missing location throws, a
   * known one gives its report, an unknown one a message naming it followed
   * by the known locations.
   */
  lemma WeatherBehaviour(params: Params)
    ensures "location" !in params ==> WeatherExecute(params) == Failure(IllegalArgument("Missing location parameter"))
    ensures "location" in params && Lookup(WeatherData, Lower(params["location"])).Some? ==>
            WeatherExecute(params) == Success(Lookup(WeatherData, Lower(params["location"])).value)
    ensures "location" in params && Lower(params["location"]) !in Keys(WeatherData) ==>
            WeatherExecute(params) == Success("Weather data not available for '" + Lower(params["location"]) + "'. " +
                                              "Available locations: " + Join(["new york", "london", "tokyo", "sydney"], ", "))
  {
    KnownLocationsListed();
  }

  /** The known locations, in the order the message lists them. */
  lemma KnownLocationsListed()
    ensures Keys(WeatherData) == ["new york", "london", "tokyo", "sydney"]
  {
  }

  /** Locations that differ only in letter case get the same answer. */
  lemma WeatherIgnoresCase(p1: Params, p2: Params)
    requires "location" in p1 && "location" in p2
    requires EqualIgnoringCase(p1["location"], p2["location"])
    ensures WeatherExecute(p1) == WeatherExecute(p2)
  {
    LowerEqualIff(p1["location"], p2["location"]);
  }

  /** "New York" is sunny; "Mars" has no data. */
  lemma WeatherExamples()
    ensures WeatherExecute(map["location" := "New York"]) == Success("Sunny, 22°C (72°F), Light breeze")
    ensures WeatherExecute(map["location" := "Mars"]).Success?
    ensures "Weather data not available" <= WeatherExecute(map["location" := "Mars"]).value
  {
    assert Lower("New York") == "new york" by {
      assert forall i :: 0 <= i < 8 ==> Lower("New York")[i] == "new york"[i];
    }
    assert Lower("Mars") == "mars" by {
      assert forall i :: 0 <= i < 4 ==> Lower("Mars")[i] == "mars"[i];
    }
    assert Keys(WeatherData) == ["new york", "london", "tokyo", "sydney"];
  }

  // ---------------------------------------------------------------------------
  // TimeTool
  // ---------------------------------------------------------------------------

  /** `parameters["timezone"]?.uppercase() ?: "UTC"`. */
  function TimeZoneOf(params: Params): string {
    if "timezone" in params then Upper(params["timezone"]) else "UTC"
  }

  /** The hour offsets the tool knows. */
  function OffsetHours(zone: string): Option<int> {
    if zone == "UTC" then Some(0)
    else if zone == "PST" then Some(-8)
    else if zone == "EST" then Some(-5)
    else if zone == "JST" then Some(9)
    else None
  }

  /** `TimeTool.execute`, with the formatted, shifted clock as `env.clock`. */
  function TimeExecute(params: Params, clock: int -> string): ToolResult {
    var zone := TimeZoneOf(params);
    match OffsetHours(zone)
    case Some(h) => Success(clock(h) + " " + zone)
    case None => Success(clock(0) + " (" + zone + " - offset not implemented)")
  }

  /**
   * The time tool never throws; it defaults to UTC; for UTC, PST, EST and JST
   * the answer is the shifted time followed by the label, and any other zone
   * is named in a note that its offset is not implemented.
   */
  lemma TimeBehaviour(params: Params, clock: int -> string)
    ensures TimeExecute(params, clock).Success?
    ensures "timezone" !in params ==> TimeExecute(params, clock) == Success(clock(0) + " UTC")
    ensures TimeZoneOf(params) == "UTC" ==> TimeExecute(params, clock).value == clock(0) + " UTC"
    ensures TimeZoneOf(params) == "PST" ==> TimeExecute(params, clock).value == clock(-8) + " PST"
    ensures TimeZoneOf(params) == "EST" ==> TimeExecute(params, clock).value == clock(-5) + " EST"
    ensures TimeZoneOf(params) == "JST" ==> TimeExecute(params, clock).value == clock(9) + " JST"
    ensures TimeZoneOf(params) !in ["UTC", "PST", "EST", "JST"] ==>
            TimeExecute(params, clock).value == clock(0) + " (" + TimeZoneOf(params) + " - offset not implemented)"
  {
    assert clock(0) + " " + "UTC" == clock(0) + " UTC";
    assert clock(-8) + " " + "PST" == clock(-8) + " PST";
    assert clock(-5) + " " + "EST" == clock(-5) + " EST";
    assert clock(9) + " " + "JST" == clock(9) + " JST";
  }

  /** A lower-case "pst" is read as PST: eight hours behind. */
  lemma TimeZoneUpperCased(clock: int -> string)
    ensures TimeExecute(map["timezone" := "pst"], clock) == Success(clock(-8) + " PST")
  {
    assert Upper("pst") == "PST" by {
      assert forall i :: 0 <= i < 3 ==> Upper("pst")[i] == "PST"[i];
    }
    assert clock(-8) + " " + "PST" == clock(-8) + " PST";
  }

  /** Timezones that differ only in letter case give the same answer. */
  lemma TimeIgnoresCase(p1: Params, p2: Params, clock: int -> string)
    requires "timezone" in p1 && "timezone" in p2
    requires EqualIgnoringCase(p1["timezone"], p2["timezone"])
    ensures TimeExecute(p1, clock) == TimeExecute(p2, clock)
  {
    UpperEqualIgnoringCase(p1["timezone"], p2["timezone"]);
  }

  // ---------------------------------------------------------------------------
  // Tools and the registry
  // ---------------------------------------------------------------------------

  /** A `CustomTool`: one of the three built-in tools, or any other implementation. */
  datatype Tool =
    | Calculator
    | Weather
    | Time
    | Custom(id: string, summary: string, paramNames: seq<string>, run: Params -> ToolResult)
  {
    function Name(): string {
      match this
      case Calculator => "calculator"
      case Weather => "weather"
      case Time => "time"
      case Custom(id, _, _, _) => id
    }

    function Description(): string {
      match this
      case Calculator => "Performs basic mathematical operations"
      case Weather => "Gets weather information for a location"
      case Time => "Gets current time for a timezone"
      case Custom(_, summary, _, _) => summary
    }

    function Parameters(): seq<string> {
      match this
      case Calculator => ["operation", "a", "b"]
      case Weather => ["location"]
      case Time => ["timezone"]
      case Custom(_, _, paramNames, _) => paramNames
    }

    function Execute(params: Params, env: Env): ToolResult {
      match this
      case Calculator => CalculatorExecute(params, env.numerics)
      case Weather => WeatherExecute(params)
      case Time => TimeExecute(params, env.clock)
      case Custom(_, _, _, run) => run(params)
    }
  }

  /** The names a fresh registry holds, in registration order. */
  const BuiltInNames: seq<string> := ["calculator", "weather", "time"]

  /** `CustomToolRegistry`: a `LinkedHashMap` from tool name to tool, kept as a map and its key order. */
  class CustomToolRegistry {
    var tools: map<string, Tool>
    var order: seq<string>

    /** The keys are distinct, listed in `order`, and each maps to the tool of that name. */
    ghost predicate Valid()
      reads this
    {
      && (forall i, j :: 0 <= i < j < |order| ==> order[i] != order[j])
      && (forall n :: n in tools <==> n in order)
      && (forall n :: n in tools ==> tools[n].Name() == n)
    }

    /** The `init` block: register the calculator, weather and time tools. */
    constructor ()
      ensures Valid()
      ensures order == BuiltInNames
      ensures tools.Keys == {"calculator", "weather", "time"}
      ensures tools["calculator"].Calculator? && tools["weather"].Weather? && tools["time"].Time?
    {
      tools := map[];
      order := [];
      new;
      assert |"calculator"| == 10 && |"weather"| == 7 && |"time"| == 4;
      RegisterTool(Calculator);
      assert tools == map["calculator" := Calculator];
      assert "weather" !in tools;
      RegisterTool(Weather);
      assert tools == map["calculator" := Calculator, "weather" := Weather];
      assert "time" !in tools;
      RegisterTool(Time);
      assert tools == map["calculator" := Calculator, "weather" := Weather, "time" := Time];
    }

    /** `tools[tool.name] = tool`: add or replace that entry, keeping every other one. */
    method RegisterTool(tool: Tool)
      requires Valid()
      modifies this
      ensures Valid()
      ensures tools == old(tools)[tool.Name() := tool]
      ensures order == if tool.Name() in old(tools) then old(order) else old(order) + [tool.Name()]
      ensures forall n :: n != tool.Name() ==> (n in tools <==> n in old(tools))
      ensures forall n :: n != tool.Name() && n in old(tools) ==> tools[n] == old(tools)[n]
    {
      if tool.Name() !in tools {
        order := order + [tool.Name()];
      }
      tools := tools[tool.Name() := tool];
    }

    /** `tools.values.toList()`: the tools in the order their names were first registered. */
    function AvailableTools(): (r: seq<Tool>)
      reads this
      requires Valid()
      ensures |r| == |order| == |tools|
      ensures forall i :: 0 <= i < |order| ==> r[i] == tools[order[i]] && r[i].Name() == order[i]
    {
      CountKeys(order, tools);
      seq(|order|, i reads this requires 0 <= i < |order| && order[i] in tools => tools[order[i]])
    }

    /** `executeTool`: throw for an unknown name, else run the registered tool. */
    function ExecuteTool(name: string, params: Params, env: Env): (r: ToolResult)
      reads this
      ensures name !in tools ==> r == Failure(IllegalArgument("Tool '" + name + "' not found"))
      ensures name in tools ==> r == tools[name].Execute(params, env)
    {
      if name in tools then tools[name].Execute(params, env)
      else Failure(IllegalArgument("Tool '" + name + "' not found"))
    }
  }

  /** A list of distinct keys that are exactly a map's keys is as long as the map. */
  lemma {:induction false} CountKeys(order: seq<string>, m: map<string, Tool>)
    requires forall i, j :: 0 <= i < j < |order| ==> order[i] != order[j]
    requires forall n :: n in m <==> n in order
    ensures |order| == |m|
    decreases |order|
  {
    if order == [] {
      assert m.Keys == {};
    } else {
      var last := order[|order| - 1];
      var m' := map n | n in m && n != last :: m[n];
      assert m'.Keys == m.Keys - {last};
      forall n ensures n in m' <==> n in order[..|order| - 1] {
        if n in order[..|order| - 1] {
          var i :| 0 <= i < |order| - 1 && order[i] == n;
          assert order[i] != order[|order| - 1];
        }
      }
      CountKeys(order[..|order| - 1], m');
    }
  }

  /**
   * A fresh registry lists exactly three tools, named calculator, weather and
   * time; running the calculator through it adds, and an unknown name throws.
   */
  lemma FreshRegistry(reg: CustomToolRegistry, params: Params, env: Env)
    requires reg.Valid() && reg.order == BuiltInNames
    requires reg.tools.Keys == {"calculator", "weather", "time"}
    requires reg.tools["calculator"].Calculator?
    ensures |reg.AvailableTools()| == 3
    ensures forall i :: 0 <= i < 3 ==> reg.AvailableTools()[i].Name() == BuiltInNames[i]
    ensures reg.ExecuteTool("calculator", params, env) == CalculatorExecute(params, env.numerics)
    ensures reg.ExecuteTool("unknown-tool", params, env) == Failure(IllegalArgument("Tool 'unknown-tool' not found"))
  {
    assert "unknown-tool" !in reg.tools by {
      assert |"unknown-tool"| !in {|"calculator"|, |"weather"|, |"time"|};
    }
    assert "Tool '" + "unknown-tool" + "' not found" == "Tool 'unknown-tool' not found";
  }
}
