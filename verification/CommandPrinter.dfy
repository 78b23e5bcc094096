/**
  `valuesToArgs`, the registry's rules for names, and the round trip through the parser.
 */
module CommandPrinter {
  import opened CommandTypes

  // ----- The printer

  /** False booleans and absent options leave no trace in the arguments. */
  predicate Printed(spec: OptionSpec, values: Values) {
    spec.name in values && (spec.kind.BooleanOption? ==> values[spec.name] == Flag(true))
  }

  function PrintOption(spec: OptionSpec, values: Values): seq<string> {
    if !Printed(spec, values) then []
    else if spec.kind.BooleanOption? then ["--" + spec.name]
    else ["--" + spec.name, Sprint(values[spec.name])]
  }

  function PrintOptions(options: seq<OptionSpec>, values: Values): seq<string> {
    if options == [] then [] else PrintOption(options[0], values) + PrintOptions(options[1..], values)
  }

  function PrintArgument(spec: ArgumentSpec, values: Values): seq<string> {
    if spec.name in values then [Sprint(values[spec.name])] else []
  }

  function PrintArguments(arguments: seq<ArgumentSpec>, values: Values): seq<string> {
    if arguments == [] then [] else PrintArgument(arguments[0], values) + PrintArguments(arguments[1..], values)
  }

  function Print(command: Command, values: Values): seq<string> {
    PrintArguments(command.arguments, values) + PrintOptions(command.options, values)
  }

  method PositionalArgs(arguments: seq<ArgumentSpec>, values: Values) returns (args: seq<string>)
    ensures args == PrintArguments(arguments, values)
  {
    args := [];
    for i := 0 to |arguments|
      invariant PrintArguments(arguments, values) == args + PrintArguments(arguments[i..], values)
    {
      assert arguments[i..][1..] == arguments[i + 1..];
      assert args + PrintArguments(arguments[i..], values)
          == (args + PrintArgument(arguments[i], values)) + PrintArguments(arguments[i + 1..], values);
      if arguments[i].name in values {
        args := args + [Sprint(values[arguments[i].name])];
      } else {
        assert args + [] == args;
      }
    }
  }

  method OptionArgs(options: seq<OptionSpec>, values: Values, before: seq<string>) returns (args: seq<string>)
    ensures args == before + PrintOptions(options, values)
  {
    args := before;
    for i := 0 to |options|
      invariant before + PrintOptions(options, values) == args + PrintOptions(options[i..], values)
    {
      var option := options[i];
      assert options[i..][1..] == options[i + 1..];
      assert args + PrintOptions(options[i..], values)
          == (args + PrintOption(option, values)) + PrintOptions(options[i + 1..], values);
      assert args + [] == args;
      if option.name !in values {
        continue;
      }
      var value := values[option.name];
      if option.kind.BooleanOption? {
        if value == Flag(true) {
          args := args + ["--" + option.name];
        }
        continue;
      }
      args := args + ["--" + option.name, Sprint(value)];
    }
  }

  method ValuesToArgs(command: Command, values: Values) returns (args: seq<string>)
    ensures args == Print(command, values)
  {
    args := PositionalArgs(command.arguments, values);
    args := OptionArgs(command.options, values, args);
  }

  // ----- Where everything is printed

  /** How many of the first `k` arguments have a value. */
  function ArgumentsBefore(arguments: seq<ArgumentSpec>, values: Values, k: nat): nat
    requires k <= |arguments|
  {
    if k == 0 then 0
    else (if arguments[0].name in values then 1 else 0) + ArgumentsBefore(arguments[1..], values, k - 1)
  }

  /** Absent options take no token, nor do booleans that are not true; true ones take one and all others two. */
  function Width(spec: OptionSpec, values: Values): nat {
    if spec.name !in values then 0
    else if !spec.kind.BooleanOption? then 2
    else if values[spec.name] == Flag(true) then 1 else 0
  }

  /** How many tokens the first `k` options take. */
  function OptionsBefore(options: seq<OptionSpec>, values: Values, k: nat): nat
    requires k <= |options|
  {
    if k == 0 then 0 else Width(options[0], values) + OptionsBefore(options[1..], values, k - 1)
  }

  lemma {:induction false} ArgumentsInPlace(arguments: seq<ArgumentSpec>, values: Values, k: nat)
    requires k <= |arguments|
    ensures |PrintArguments(arguments, values)| == ArgumentsBefore(arguments, values, |arguments|)
    ensures
      var p := ArgumentsBefore(arguments, values, k);
      k < |arguments| && arguments[k].name in values ==>
        p < |PrintArguments(arguments, values)| && PrintArguments(arguments, values)[p] == Sprint(values[arguments[k].name])
  {
    if arguments != [] {
      ArgumentsInPlace(arguments[1..], values, if k == 0 then 0 else k - 1);
    }
  }

  /** At `p` stand the tokens of the option. */
  predicate OptionAt(printed: seq<string>, p: nat, spec: OptionSpec, values: Values) {
    && p + Width(spec, values) <= |printed|
    && (Width(spec, values) > 0 ==> printed[p] == "--" + spec.name)
    && (Width(spec, values) == 2 ==> printed[p + 1] == Sprint(values[spec.name]))
  }

  lemma {:induction false} OptionsInPlace(options: seq<OptionSpec>, values: Values, k: nat)
    requires k <= |options|
    ensures |PrintOptions(options, values)| == OptionsBefore(options, values, |options|)
    ensures k < |options| ==> OptionAt(PrintOptions(options, values), OptionsBefore(options, values, k), options[k], values)
  {
    if options != [] {
      OptionsInPlace(options[1..], values, if k == 0 then 0 else k - 1);
    }
  }

  lemma ArgumentsPrinted(command: Command, values: Values)
    ensures |PrintArguments(command.arguments, values)| == ArgumentsBefore(command.arguments, values, |command.arguments|)
    ensures forall k :: 0 <= k < |command.arguments| && command.arguments[k].name in values ==>
              var p := ArgumentsBefore(command.arguments, values, k);
              p < |PrintArguments(command.arguments, values)| && Print(command, values)[p] == Sprint(values[command.arguments[k].name])
  {
    ArgumentsInPlace(command.arguments, values, 0);
    forall k | 0 <= k < |command.arguments| && command.arguments[k].name in values
      ensures
        var p := ArgumentsBefore(command.arguments, values, k);
        p < |PrintArguments(command.arguments, values)| && Print(command, values)[p] == Sprint(values[command.arguments[k].name])
    {
      ArgumentsInPlace(command.arguments, values, k);
    }
  }

  lemma OptionsPrinted(command: Command, values: Values)
    ensures |PrintOptions(command.options, values)| == OptionsBefore(command.options, values, |command.options|)
    ensures forall k :: 0 <= k < |command.options| ==>
              OptionAt(Print(command, values), |PrintArguments(command.arguments, values)| + OptionsBefore(command.options, values, k),
                       command.options[k], values)
  {
    OptionsInPlace(command.options, values, 0);
    forall k | 0 <= k < |command.options|
      ensures OptionAt(Print(command, values), |PrintArguments(command.arguments, values)| + OptionsBefore(command.options, values, k),
                       command.options[k], values)
    {
      OptionsInPlace(command.options, values, k);
    }
  }

  /**
    The printed line: the values of the arguments in their order, then every option in its order as
    its name alone or its name and then its value, and nothing else.
   */
  lemma PrintedInPlace(command: Command, values: Values)
    ensures
      var printed := Print(command, values);
      var behind := ArgumentsBefore(command.arguments, values, |command.arguments|);
      && |printed| == behind + OptionsBefore(command.options, values, |command.options|)
      && (forall k :: 0 <= k < |command.arguments| && command.arguments[k].name in values ==>
            var p := ArgumentsBefore(command.arguments, values, k);
            p < behind && printed[p] == Sprint(values[command.arguments[k].name]))
      && (forall k :: 0 <= k < |command.options| ==>
            OptionAt(printed, behind + OptionsBefore(command.options, values, k), command.options[k], values))
  {
    ArgumentsPrinted(command, values);
    OptionsPrinted(command, values);
  }

  // ----- The registry's rules for names

  /** Proper names without repetition, and no required argument after an optional one. */
  predicate WellDeclared(command: Command) {
    var arguments, options := command.arguments, command.options;
    && (forall i :: 0 <= i < |arguments| ==> Token(arguments[i].name))
    && (forall i :: 0 <= i < |options| ==> Token(options[i].name))
    && (forall i, j :: 0 <= i < j < |arguments| ==> arguments[i].name != arguments[j].name)
    && (forall i, j :: 0 <= i < j < |options| ==> options[i].name != options[j].name)
    && (forall i, j :: 0 <= i < |arguments| && 0 <= j < |options| ==> arguments[i].name != options[j].name)
    && (forall i, j :: 0 <= i < j < |arguments| && arguments[j].required ==> arguments[i].required)
  }

  predicate ArgumentDeclared(arguments: seq<ArgumentSpec>, i: nat)
    requires i < |arguments|
  {
    && Token(arguments[i].name)
    && (forall j :: 0 <= j < i ==> arguments[j].name != arguments[i].name && (arguments[i].required ==> arguments[j].required))
  }

  /** `validateCommand`, the loop over the arguments. */
  method CheckArguments(arguments: seq<ArgumentSpec>) returns (ok: bool, names: set<string>)
    ensures ok <==> forall i :: 0 <= i < |arguments| ==> ArgumentDeclared(arguments, i)
    ensures ok ==> names == NamesOf(arguments)
  {
    names := {};
    var optionalSeen := false;
    for i := 0 to |arguments|
      invariant names == set j | 0 <= j < i :: arguments[j].name
      invariant optionalSeen <==> exists j :: 0 <= j < i && !arguments[j].required
      invariant forall j :: 0 <= j < i ==> ArgumentDeclared(arguments, j)
    {
      var argument := arguments[i];
      if !Token(argument.name) || (optionalSeen && argument.required) || argument.name in names {
        assert !ArgumentDeclared(arguments, i);
        return false, names;
      }
      optionalSeen := optionalSeen || !argument.required;
      names := names + {argument.name};
    }
    return true, names;
  }

  predicate OptionDeclared(options: seq<OptionSpec>, taken: set<string>, i: nat)
    requires i < |options|
  {
    && Token(options[i].name) && options[i].name !in taken
    && (forall j :: 0 <= j < i ==> options[j].name != options[i].name)
  }

  /** `validateCommand`, the loop over the options. */
  method CheckOptions(options: seq<OptionSpec>, argumentNames: set<string>) returns (ok: bool)
    ensures ok <==> forall i :: 0 <= i < |options| ==> OptionDeclared(options, argumentNames, i)
  {
    var names: set<string> := {};
    for i := 0 to |options|
      invariant names == set j | 0 <= j < i :: options[j].name
      invariant forall j :: 0 <= j < i ==> OptionDeclared(options, argumentNames, j)
    {
      if !Token(options[i].name) || options[i].name in names || options[i].name in argumentNames {
        assert !OptionDeclared(options, argumentNames, i);
        return false;
      }
      names := names + {options[i].name};
    }
    return true;
  }

  function NamesOf(arguments: seq<ArgumentSpec>): set<string> {
    set i | 0 <= i < |arguments| :: arguments[i].name
  }

  predicate PartsDeclared(command: Command) {
    && (forall i :: 0 <= i < |command.arguments| ==> ArgumentDeclared(command.arguments, i))
    && (forall i :: 0 <= i < |command.options| ==> OptionDeclared(command.options, NamesOf(command.arguments), i))
  }

  lemma PartsSuffice(command: Command)
    requires PartsDeclared(command)
    ensures WellDeclared(command)
  {
    var arguments, options := command.arguments, command.options;
    forall i, j | 0 <= i < |arguments| && 0 <= j < |options|
      ensures arguments[i].name != options[j].name
    {
      assert OptionDeclared(options, NamesOf(arguments), j) && arguments[i].name in NamesOf(arguments);
    }
    forall i, j | 0 <= i < j < |arguments|
      ensures arguments[i].name != arguments[j].name && (arguments[j].required ==> arguments[i].required)
    {
      assert ArgumentDeclared(arguments, j);
    }
    forall i, j | 0 <= i < j < |options|
      ensures options[i].name != options[j].name
    {
      assert OptionDeclared(options, NamesOf(arguments), j);
    }
    forall i | 0 <= i < |arguments|
      ensures Token(arguments[i].name)
    {
      assert ArgumentDeclared(arguments, i);
    }
    forall i | 0 <= i < |options|
      ensures Token(options[i].name)
    {
      assert OptionDeclared(options, NamesOf(arguments), i);
    }
  }

  lemma PartsNeeded(command: Command)
    requires WellDeclared(command)
    ensures PartsDeclared(command)
  {
    forall i | 0 <= i < |command.options|
      ensures command.options[i].name !in NamesOf(command.arguments)
    {
    }
  }

  lemma DeclaredParts(command: Command)
    ensures WellDeclared(command) <==> PartsDeclared(command)
  {
    if WellDeclared(command) {
      PartsNeeded(command);
    }
    if PartsDeclared(command) {
      PartsSuffice(command);
    }
  }

  /** The registry accepts exactly the well-declared commands, as far as names are concerned. */
  method CheckNames(command: Command) returns (ok: bool)
    ensures ok <==> WellDeclared(command)
  {
    DeclaredParts(command);
    var argumentNames;
    ok, argumentNames := CheckArguments(command.arguments);
    if ok {
      ok := CheckOptions(command.options, argumentNames);
    }
  }
}
