/**
  `parseCommandOptions`: the walk over the arguments, the binding of positional ones, and the
  defaults of absent options.
 */
module CommandParser {
  import opened Wrappers
  import opened CommandTypes

  datatype Error =
    | Unsupported(name: string)
    | Repeated(name: string)
    | NeedsBoolean(name: string)
    | NeedsValue(name: string)
    | NeedsInteger(name: string)
    | NeedsText(name: string)
    | NotAChoice(name: string)
    | ExtraPositional(token: string)
    | MissingArgument(name: string)
    | MissingOption(name: string)
    | Refused

  datatype Result<+T> = Ok(value: T) | Err(error: Error)

  /** The table of options by name. */
  function Specs(options: seq<OptionSpec>): map<string, OptionSpec> {
    if options == [] then map[]
    else Specs(options[..|options| - 1])[options[|options| - 1].name := options[|options| - 1]]
  }

  datatype State = State(values: Values, seen: set<string>, positionals: seq<string>)

  const Blanks := State(map[], {}, [])

  /** `optionValue`: the inline text, or the next argument unless it looks like an option. */
  function OptionValue(inline: Option<string>, rest: seq<string>): Option<string> {
    if inline.Some? then inline
    else if rest == [] || Dashed(rest[0]) then None
    else Some(rest[0])
  }

  /** Checks a value's text and turns it into a value. */
  function ReadValue(spec: OptionSpec, text: string): Result<Value> {
    if spec.kind.IntegerOption? then
      var n := Atoi(text);
      if n.None? || (spec.positive && n.value <= 0) then Err(NeedsInteger(spec.name)) else Ok(Number(n.value))
    else if Blank(text) then Err(NeedsText(spec.name))
    else if !Allowed(spec.choices, text) then Err(NotAChoice(spec.name))
    else Ok(Text(text))
  }

  datatype Taken = Taken(value: Value, rest: seq<string>)

  /** One option with its value, if it has one in the arguments after it. */
  function TakeOption(spec: OptionSpec, inline: Option<string>, rest: seq<string>): (r: Result<Taken>)
    ensures r.Ok? ==> |r.value.rest| <= |rest|
  {
    if spec.kind.BooleanOption? then
      var flag := if inline.Some? then ParseBool(inline.value) else Some(true);
      if flag.None? then Err(NeedsBoolean(spec.name)) else Ok(Taken(Flag(flag.value), rest))
    else
      var text := OptionValue(inline, rest);
      if text.None? then Err(NeedsValue(spec.name))
      else
        var value := ReadValue(spec, text.value);
        if value.Err? then Err(value.error)
        else Ok(Taken(value.value, if inline.Some? then rest else rest[1..]))
  }

  /** The walk over the arguments. */
  function Scan(specs: map<string, OptionSpec>, args: seq<string>, st: State): Result<State>
    decreases |args|
  {
    if args == [] then Ok(st)
    else if args[0] == "--" then Ok(st.(positionals := st.positionals + args[1..]))
    else
      var split := SplitLongOption(args[0]);
      if split.name == "" then Scan(specs, args[1..], st.(positionals := st.positionals + [args[0]]))
      else if split.name !in specs then Err(Unsupported(split.name))
      else if split.name in st.seen then Err(Repeated(split.name))
      else
        var taken := TakeOption(specs[split.name], split.inline, args[1..]);
        if taken.Err? then Err(taken.error)
        else Scan(specs, taken.value.rest, Given(st, split.name, taken.value.value))
  }

  function Given(st: State, name: string, value: Value): State {
    st.(seen := st.seen + {name}, values := st.values[name := value])
  }

  /** Positional arguments in the order of their declaration. */
  function Bind(arguments: seq<ArgumentSpec>, positionals: seq<string>, values: Values): Result<Values>
    decreases |arguments|
  {
    if arguments == [] then Ok(values)
    else if positionals == [] then
      if arguments[0].required then Err(MissingArgument(arguments[0].name)) else Bind(arguments[1..], [], values)
    else if Blank(positionals[0]) then Err(NeedsText(arguments[0].name))
    else if !Allowed(arguments[0].choices, positionals[0]) then Err(NotAChoice(arguments[0].name))
    else Bind(arguments[1..], positionals[1..], values[arguments[0].name := Text(positionals[0])])
  }

  function DefaultOf(spec: OptionSpec): Option<Value> {
    if spec.defaultText == "" then None
    else match spec.kind
      case StringOption => Some(Text(spec.defaultText))
      case BooleanOption => Some(Flag(spec.defaultText == "true"))
      case IntegerOption => Some(Number(AtoiAnyway(spec.defaultText)))
  }

  /** Required options must be there, absent ones get their default. */
  function Complete(options: seq<OptionSpec>, values: Values): Result<Values>
    decreases |options|
  {
    if options == [] then Ok(values)
    else if options[0].required && options[0].name !in values then Err(MissingOption(options[0].name))
    else Complete(options[1..], Defaulted(options[0], values))
  }

  function Defaulted(spec: OptionSpec, values: Values): Values {
    if spec.name !in values && DefaultOf(spec).Some? then values[spec.name := DefaultOf(spec).value] else values
  }

  /** Everything after the walk. */
  function Assemble(command: Command, validate: Values -> bool, st: State): Result<Values> {
    if |st.positionals| > |command.arguments| then Err(ExtraPositional(st.positionals[|command.arguments|]))
    else
      var bound := Bind(command.arguments, st.positionals, st.values);
      if bound.Err? then bound
      else
        var complete := Complete(command.options, bound.value);
        if complete.Ok? && !validate(complete.value) then Err(Refused) else complete
  }

  function Parse(command: Command, validate: Values -> bool, args: seq<string>): Result<Values> {
    var scanned := Scan(Specs(command.options), args, Blanks);
    if scanned.Err? then Err(scanned.error) else Assemble(command, validate, scanned.value)
  }

  // ----- The loops

  method BuildSpecs(options: seq<OptionSpec>) returns (specs: map<string, OptionSpec>)
    ensures specs == Specs(options)
  {
    specs := map[];
    for i := 0 to |options|
      invariant specs == Specs(options[..i])
    {
      assert options[..i + 1][..i] == options[..i];
      specs := specs[options[i].name := options[i]];
    }
    assert options[..|options|] == options;
  }

  /** The first loop, with its own index into the arguments. */
  method ScanArguments(specs: map<string, OptionSpec>, args: seq<string>) returns (r: Result<State>)
    ensures r == Scan(specs, args, Blanks)
  {
    var st := Blanks;
    var index := 0;
    while index < |args|
      invariant index <= |args| && Scan(specs, args[index..], st) == Scan(specs, args, Blanks)
    {
      var token := args[index];
      var rest := args[index + 1..];
      assert args[index..][1..] == rest;
      if token == "--" {
        return Ok(st.(positionals := st.positionals + rest));
      }
      var split := SplitLongOption(token);
      if split.name == "" {
        st := st.(positionals := st.positionals + [token]);
        index := index + 1;
      } else if split.name !in specs {
        return Err(Unsupported(split.name));
      } else if split.name in st.seen {
        return Err(Repeated(split.name));
      } else {
        var spec := specs[split.name];
        var taken := TakeOption(spec, split.inline, rest);
        if taken.Err? {
          return Err(taken.error);
        }
        st := Given(st, split.name, taken.value.value);
        if |taken.value.rest| < |rest| {
          assert taken.value.rest == args[index + 2..];
          index := index + 2;
        } else {
          index := index + 1;
        }
      }
    }
    return Ok(st);
  }

  method BindArguments(arguments: seq<ArgumentSpec>, positionals: seq<string>, given: Values) returns (r: Result<Values>)
    requires |positionals| <= |arguments|
    ensures r == Bind(arguments, positionals, given)
  {
    var values := given;
    for i := 0 to |arguments|
      invariant Bind(arguments, positionals, given)
             == Bind(arguments[i..], if i < |positionals| then positionals[i..] else [], values)
    {
      var spec := arguments[i];
      assert arguments[i..][0] == spec && arguments[i..][1..] == arguments[i + 1..];
      if i >= |positionals| {
        if spec.required {
          return Err(MissingArgument(spec.name));
        }
      } else {
        var value := positionals[i];
        assert positionals[i..][0] == value && positionals[i..][1..] == positionals[i + 1..];
        if Blank(value) {
          return Err(NeedsText(spec.name));
        }
        if !Allowed(spec.choices, value) {
          return Err(NotAChoice(spec.name));
        }
        values := values[spec.name := Text(value)];
      }
    }
    return Ok(values);
  }

  method CompleteOptions(options: seq<OptionSpec>, given: Values) returns (r: Result<Values>)
    ensures r == Complete(options, given)
  {
    var values := given;
    for i := 0 to |options|
      invariant Complete(options, given) == Complete(options[i..], values)
    {
      var spec := options[i];
      assert options[i..][0] == spec && options[i..][1..] == options[i + 1..];
      if spec.required && spec.name !in values {
        return Err(MissingOption(spec.name));
      }
      if spec.name !in values && DefaultOf(spec).Some? {
        values := values[spec.name := DefaultOf(spec).value];
      }
    }
    return Ok(values);
  }

  method ParseCommandOptions(command: Command, validate: Values -> bool, args: seq<string>) returns (r: Result<Values>)
    ensures r == Parse(command, validate, args)
  {
    var specs := BuildSpecs(command.options);
    var scanned := ScanArguments(specs, args);
    if scanned.Err? {
      return Err(scanned.error);
    }
    var st := scanned.value;
    if |st.positionals| > |command.arguments| {
      return Err(ExtraPositional(st.positionals[|command.arguments|]));
    }
    var bound := BindArguments(command.arguments, st.positionals, st.values);
    if bound.Err? {
      return bound;
    }
    r := CompleteOptions(command.options, bound.value);
    if r.Ok? && !validate(r.value) {
      r := Err(Refused);
    }
  }
}
