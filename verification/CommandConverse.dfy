/**
  Only well-formed values survive the round trip: values come back in their normal form if and
  only if they are well formed.
 */
module CommandConverse {
  import opened Wrappers
  import opened CommandTypes
  import opened CommandParser
  import opened CommandPrinter
  import opened CommandRoundTrip
  import opened CommandPlain

  predicate DistinctArguments(arguments: seq<ArgumentSpec>) {
    forall i, j :: 0 <= i < j < |arguments| ==> arguments[i].name != arguments[j].name
  }

  /** Binding that succeeds gives each positional argument its text, and no other name anything. */
  lemma {:induction false} BindGets(arguments: seq<ArgumentSpec>, positionals: seq<string>, given: Values, i: nat)
    requires DistinctArguments(arguments) && |positionals| <= |arguments| && i < |arguments|
    requires Bind(arguments, positionals, given).Ok?
    ensures
      var bound := Bind(arguments, positionals, given).value;
      if i < |positionals| then
        && Get(bound, arguments[i].name) == Some(Text(positionals[i]))
        && !Blank(positionals[i]) && Allowed(arguments[i].choices, positionals[i])
      else !arguments[i].required
    decreases |arguments|
  {
    if positionals == [] {
      if i > 0 {
        BindGets(arguments[1..], [], given, i - 1);
      }
    } else {
      var given' := given[arguments[0].name := Text(positionals[0])];
      if i > 0 {
        BindGets(arguments[1..], positionals[1..], given', i - 1);
      } else {
        BindElsewhere(arguments[1..], positionals[1..], given', arguments[0].name);
      }
    }
  }

  lemma {:induction false} BindElsewhere(arguments: seq<ArgumentSpec>, positionals: seq<string>, given: Values, name: string)
    requires |positionals| <= |arguments| && Bind(arguments, positionals, given).Ok?
    requires forall i :: 0 <= i < |arguments| ==> arguments[i].name != name
    ensures Get(Bind(arguments, positionals, given).value, name) == Get(given, name)
    decreases |arguments|
  {
    if arguments != [] {
      if positionals == [] {
        BindElsewhere(arguments[1..], [], given, name);
      } else {
        BindElsewhere(arguments[1..], positionals[1..], given[arguments[0].name := Text(positionals[0])], name);
      }
    }
  }

  /** Completing keeps what is there and needs what is required. */
  lemma {:induction false} CompleteKeeps(options: seq<OptionSpec>, given: Values, name: string)
    requires Complete(options, given).Ok?
    ensures name in given ==> Get(Complete(options, given).value, name) == Get(given, name)
    ensures Find(options, name).None? ==> Get(Complete(options, given).value, name) == Get(given, name)
  {
    if options != [] {
      CompleteKeeps(options[1..], Defaulted(options[0], given), name);
    }
  }

  lemma {:induction false} CompleteNeeds(options: seq<OptionSpec>, given: Values, i: nat)
    requires DistinctNames(options) && Complete(options, given).Ok? && i < |options| && options[i].required
    ensures options[i].name in given
  {
    if i > 0 {
      CompleteNeeds(options[1..], Defaulted(options[0], given), i - 1);
    }
  }

  /** If the first arguments are all there and as many were printed, there is no other. */
  lemma {:induction false} PrefixOnly(arguments: seq<ArgumentSpec>, values: Values, n: nat, j: nat)
    requires n <= j < |arguments| && forall i :: 0 <= i < n ==> arguments[i].name in values
    requires |PrintArguments(arguments, values)| == n
    ensures arguments[j].name !in values
    decreases |arguments|
  {
    if arguments[0].name in values {
      assert n > 0;
      PrefixOnly(arguments[1..], values, n - 1, j - 1);
    } else if j > 0 {
      PrefixOnly(arguments[1..], values, 0, j - 1);
    }
  }

  /** What a successful parse of printed arguments went through. */
  datatype Passage = Passage(scanned: State, bound: Values, final: Values)

  ghost predicate Passed(command: Command, values: Values, p: Passage) {
    var positionals := PrintArguments(command.arguments, values);
    && |positionals| <= |command.arguments|
    && ReadAll(command.options, values, Blanks.(positionals := positionals)) == Ok(p.scanned)
    && p.scanned.positionals == positionals
    && Bind(command.arguments, positionals, p.scanned.values) == Ok(p.bound)
    && Complete(command.options, p.bound) == Ok(p.final)
  }

  lemma ParsePassage(command: Command, values: Values) returns (p: Passage)
    requires WellDeclared(command) && PlainArguments(command, values)
    requires Parse(command, _ => true, Print(command, values)).Ok?
    ensures Passed(command, values, p) && p.final == Parse(command, _ => true, Print(command, values)).value
  {
    var positionals := PrintArguments(command.arguments, values);
    ScanPrint(command, values);
    PrintedArguments(command.arguments, values);
    var scanned := ReadAll(command.options, values, Blanks.(positionals := positionals)).value;
    ReadAllGets(command.options, values, Blanks.(positionals := positionals), "");
    var bound := Bind(command.arguments, positionals, scanned.values).value;
    p := Passage(scanned, bound, Complete(command.options, bound).value);
  }

  lemma OptionWasOk(command: Command, values: Values, p: Passage, i: nat)
    requires WellDeclared(command) && Passed(command, values, p) && p.final == Normal(command, values)
    requires i < |command.options|
    ensures OptionOk(command.options[i], values)
  {
    var spec := command.options[i];
    FindDeclared(command.options, i);
    ReadAllGets(command.options, values, Blanks.(positionals := PrintArguments(command.arguments, values)), spec.name);
    BindElsewhere(command.arguments, PrintArguments(command.arguments, values), p.scanned.values, spec.name);
    if Printed(spec, values) {
      CompleteKeeps(command.options, p.bound, spec.name);
      NormalGets(command, values, spec.name);
      ArgumentIsNoOption(command, spec.name);
      ReadBackExactly(spec, values);
    } else if spec.required {
      CompleteNeeds(command.options, p.bound, i);
    }
  }

  lemma ArgumentWasRead(command: Command, values: Values, p: Passage, i: nat)
    requires WellDeclared(command) && Passed(command, values, p) && p.final == Normal(command, values)
    requires i < |PrintArguments(command.arguments, values)|
    ensures
      var spec, text := command.arguments[i], PrintArguments(command.arguments, values)[i];
      Get(values, spec.name) == Some(Text(text)) && !Blank(text) && Allowed(spec.choices, text)
  {
    var spec := command.arguments[i];
    BindGets(command.arguments, PrintArguments(command.arguments, values), p.scanned.values, i);
    CompleteKeeps(command.options, p.bound, spec.name);
    NormalGets(command, values, spec.name);
    assert spec.name in NamesOf(command.arguments);
  }

  lemma ArgumentsWereOk(command: Command, values: Values, p: Passage)
    requires WellDeclared(command) && PlainArguments(command, values)
    requires Passed(command, values, p) && p.final == Normal(command, values)
    ensures forall i :: 0 <= i < |command.arguments| ==> ArgumentOk(command.arguments[i], values)
    ensures Prefixed(command.arguments, values)
  {
    var n := |PrintArguments(command.arguments, values)|;
    forall i | 0 <= i < n
      ensures command.arguments[i].name in values && ArgumentOk(command.arguments[i], values)
    {
      ArgumentWasRead(command, values, p, i);
    }
    forall i | n <= i < |command.arguments|
      ensures command.arguments[i].name !in values && !command.arguments[i].required
    {
      PrefixOnly(command.arguments, values, n, i);
      BindGets(command.arguments, PrintArguments(command.arguments, values), p.scanned.values, i);
    }
  }

  // ----- The positional tokens were plain

  lemma {:induction false} ScanKeys(specs: map<string, OptionSpec>, args: seq<string>, st: State)
    requires Scan(specs, args, st).Ok? && forall name :: name in st.values ==> name in specs
    ensures forall name :: name in Scan(specs, args, st).value.values ==> name in specs
    decreases |args|
  {
    if args != [] && args[0] != "--" {
      var split := SplitLongOption(args[0]);
      if split.name == "" {
        ScanKeys(specs, args[1..], st.(positionals := st.positionals + [args[0]]));
      } else {
        var taken := TakeOption(specs[split.name], split.inline, args[1..]).value;
        ScanKeys(specs, taken.rest, Given(st, split.name, taken.value));
      }
    }
  }

  lemma {:induction false} SpecsNames(options: seq<OptionSpec>, name: string)
    requires name in Specs(options)
    ensures exists i :: 0 <= i < |options| && options[i].name == name
  {
    var n := |options| - 1;
    if options[n].name != name {
      SpecsNames(options[..n], name);
      var i :| 0 <= i < |options[..n]| && options[..n][i].name == name;
      assert options[i].name == name;
    }
  }

  lemma {:induction false} BindBeyond(arguments: seq<ArgumentSpec>, positionals: seq<string>, given: Values, i: nat)
    requires DistinctArguments(arguments) && |positionals| <= i < |arguments| && Bind(arguments, positionals, given).Ok?
    ensures Get(Bind(arguments, positionals, given).value, arguments[i].name) == Get(given, arguments[i].name)
    decreases |arguments|
  {
    if positionals == [] {
      if i == 0 {
        BindElsewhere(arguments[1..], [], given, arguments[0].name);
      } else {
        BindBeyond(arguments[1..], [], given, i - 1);
      }
    } else {
      BindBeyond(arguments[1..], positionals[1..], given[arguments[0].name := Text(positionals[0])], i - 1);
    }
  }

  lemma {:induction false} PrintedAre(arguments: seq<ArgumentSpec>, values: Values, tokens: seq<string>)
    requires |tokens| <= |arguments|
    requires forall i :: 0 <= i < |tokens| ==> Get(values, arguments[i].name) == Some(Text(tokens[i]))
    requires forall i :: |tokens| <= i < |arguments| ==> arguments[i].name !in values
    ensures PrintArguments(arguments, values) == tokens
    decreases |arguments|
  {
    if arguments != [] {
      if tokens == [] {
        PrintedAre(arguments[1..], values, []);
      } else {
        PrintedAre(arguments[1..], values, tokens[1..]);
        assert Get(values, arguments[0].name) == Some(Text(tokens[0]));
      }
    }
  }

  /** What came back for the positional arguments is what the walk kept, so the walk kept what was printed. */
  lemma KeptWasPrinted(command: Command, values: Values, st: State, bound: Values)
    requires WellDeclared(command) && |st.positionals| <= |command.arguments|
    requires forall name :: name in st.values ==> name in Specs(command.options)
    requires Bind(command.arguments, st.positionals, st.values) == Ok(bound)
    requires Complete(command.options, bound) == Ok(Normal(command, values))
    ensures PrintArguments(command.arguments, values) == st.positionals
  {
    var arguments := command.arguments;
    forall i | 0 <= i < |arguments|
      ensures Get(values, arguments[i].name) == if i < |st.positionals| then Some(Text(st.positionals[i])) else None
    {
      var name := arguments[i].name;
      assert name in NamesOf(arguments);
      NormalGets(command, values, name);
      ArgumentIsNoOption(command, name);
      CompleteKeeps(command.options, bound, name);
      if i < |st.positionals| {
        BindGets(arguments, st.positionals, st.values, i);
      } else {
        BindBeyond(arguments, st.positionals, st.values, i);
        if name in st.values {
          SpecsNames(command.options, name);
        }
      }
    }
    PrintedAre(arguments, values, st.positionals);
  }

  /** Values that come back were printed with plain positional tokens. */
  lemma ComesBackPlain(command: Command, values: Values)
    requires WellDeclared(command) && Parse(command, _ => true, Print(command, values)) == Ok(Normal(command, values))
    ensures PlainArguments(command, values)
  {
    var specs := Specs(command.options);
    var st := Scan(specs, Print(command, values), Blanks).value;
    ScanKeys(specs, Print(command, values), Blanks);
    var bound := Bind(command.arguments, st.positionals, st.values).value;
    KeptWasPrinted(command, values, st, bound);
    SpecsHold(command.options);
    assert Blanks.positionals + st.positionals == st.positionals;
    KeptArePlain(specs, command.options, values, st.positionals, Blanks);
    PrintedIsPlain(command.arguments, values);
  }

  lemma {:induction false} PrintedIsPlain(arguments: seq<ArgumentSpec>, values: Values)
    requires forall i :: 0 <= i < |PrintArguments(arguments, values)| ==> Plain(PrintArguments(arguments, values)[i])
    ensures forall i :: 0 <= i < |arguments| && arguments[i].name in values ==> Plain(Sprint(values[arguments[i].name]))
    decreases |arguments|
  {
    if arguments != [] {
      var first, rest := PrintArgument(arguments[0], values), PrintArguments(arguments[1..], values);
      forall i | 0 <= i < |rest|
        ensures Plain(rest[i])
      {
        assert PrintArguments(arguments, values)[|first| + i] == rest[i];
      }
      PrintedIsPlain(arguments[1..], values);
      assert arguments[0].name in values ==> PrintArguments(arguments, values)[0] == Sprint(values[arguments[0].name]);
    }
  }

  /** The round trip, exactly. */
  lemma RoundTripExactly(command: Command, values: Values)
    requires WellDeclared(command)
    ensures Parse(command, _ => true, Print(command, values)) == Ok(Normal(command, values)) <==> WellFormed(command, values)
  {
    if WellFormed(command, values) {
      RoundTrip(command, _ => true, values);
    }
    if Parse(command, _ => true, Print(command, values)) == Ok(Normal(command, values)) {
      ComesBackPlain(command, values);
      var p := ParsePassage(command, values);
      ArgumentsWereOk(command, values, p);
      forall i | 0 <= i < |command.options|
        ensures OptionOk(command.options[i], values)
      {
        OptionWasOk(command, values, p, i);
      }
    }
  }
}
