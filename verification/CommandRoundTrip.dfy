/**
  Printing values and parsing the printed arguments gives the values back, with what leaves
  no trace replaced by its default.
 */
module CommandRoundTrip {
  import opened Wrappers
  import opened CommandTypes
  import opened CommandParser
  import opened CommandPrinter

  // ----- Well-formed values

  /** A token the parser takes for a positional argument. */
  predicate Plain(token: string) { token != "--" && SplitLongOption(token).name == "" }

  predicate ArgumentOk(spec: ArgumentSpec, values: Values) {
    if spec.name !in values then !spec.required
    else
      var value := values[spec.name];
      value.Text? && !Blank(value.text) && Allowed(spec.choices, value.text) && Plain(value.text)
  }

  predicate OptionOk(spec: OptionSpec, values: Values) {
    && (spec.required ==> Printed(spec, values))
    && (spec.name in values && !spec.kind.BooleanOption? ==>
          var value := values[spec.name];
          if spec.kind.IntegerOption? then value.Number? && Fits(value.number) && (spec.positive ==> value.number > 0)
          else value.Text? && !Blank(value.text) && Allowed(spec.choices, value.text) && !Dashed(value.text))
  }

  /** What an interactive session may hand to the printer. */
  predicate WellFormed(command: Command, values: Values) {
    && (forall i :: 0 <= i < |command.arguments| ==> ArgumentOk(command.arguments[i], values))
    && (forall i :: 0 <= i < |command.options| ==> OptionOk(command.options[i], values))
    && Prefixed(command.arguments, values)
  }

  /** No gap among the positional arguments. */
  predicate Prefixed(arguments: seq<ArgumentSpec>, values: Values) {
    forall i, j :: 0 <= i < j < |arguments| && arguments[j].name in values ==> arguments[i].name in values
  }

  // ----- The values that come back

  /** The declaration of a name, found from the front. */
  function Find(options: seq<OptionSpec>, name: string): Option<OptionSpec> {
    if options == [] then None
    else if options[0].name == name then Some(options[0])
    else Find(options[1..], name)
  }

  /** Arguments as they are; options that left a trace as they are, others by their default. */
  function NormalOf(command: Command, values: Values, name: string): Option<Value> {
    if name in NamesOf(command.arguments) then Get(values, name)
    else
      var spec := Find(command.options, name);
      if spec.None? then None
      else if Printed(spec.value, values) then Get(values, name)
      else DefaultOf(spec.value)
  }

  // ----- The walk

  lemma {:induction false} ScanPositionals(specs: map<string, OptionSpec>, texts: seq<string>, rest: seq<string>, st: State)
    requires forall i :: 0 <= i < |texts| ==> Plain(texts[i])
    ensures Scan(specs, texts + rest, st) == Scan(specs, rest, st.(positionals := st.positionals + texts))
  {
    if texts == [] {
      assert texts + rest == rest && st.positionals + texts == st.positionals;
    } else {
      assert (texts + rest)[0] == texts[0] && (texts + rest)[1..] == texts[1..] + rest;
      var st' := st.(positionals := st.positionals + [texts[0]]);
      ScanPositionals(specs, texts[1..], rest, st');
      assert st'.positionals + texts[1..] == st.positionals + texts;
    }
  }

  /** The values of all options that left a trace. */
  function GivenAll(options: seq<OptionSpec>, values: Values, st: State): State {
    if options == [] then st
    else GivenAll(options[1..], values,
                  if Printed(options[0], values) then Given(st, options[0].name, values[options[0].name]) else st)
  }

  predicate Unseen(options: seq<OptionSpec>, st: State) {
    forall i :: 0 <= i < |options| ==> options[i].name !in st.seen
  }

  predicate DistinctNames(options: seq<OptionSpec>) {
    forall i, j :: 0 <= i < j < |options| ==> options[i].name != options[j].name
  }

  /** What the parser reads back from a printed option. */
  function ReadBack(spec: OptionSpec, values: Values): Result<Value>
    requires Printed(spec, values)
  {
    if spec.kind.BooleanOption? then Ok(Flag(true))
    else if Dashed(Sprint(values[spec.name])) then Err(NeedsValue(spec.name))
    else ReadValue(spec, Sprint(values[spec.name]))
  }

  lemma {:induction false} TakePrinted(spec: OptionSpec, values: Values, rest: seq<string>)
    requires Printed(spec, values)
    ensures TakeOption(spec, None, PrintOption(spec, values)[1..] + rest)
         == match ReadBack(spec, values) { case Ok(value) => Ok(Taken(value, rest)) case Err(error) => Err(error) }
  {
    if spec.kind.BooleanOption? {
      assert PrintOption(spec, values)[1..] + rest == rest;
    } else {
      var text := Sprint(values[spec.name]);
      assert PrintOption(spec, values)[1..] + rest == [text] + rest;
      assert ([text] + rest)[1..] == rest;
    }
  }

  /** The walk over the printed options, one option at a time. */
  function ReadAll(options: seq<OptionSpec>, values: Values, st: State): Result<State> {
    if options == [] then Ok(st)
    else if !Printed(options[0], values) then ReadAll(options[1..], values, st)
    else match ReadBack(options[0], values)
      case Err(error) => Err(error)
      case Ok(value) => ReadAll(options[1..], values, Given(st, options[0].name, value))
  }

  lemma {:induction false} ScanPrinted(specs: map<string, OptionSpec>, spec: OptionSpec, values: Values, rest: seq<string>, st: State)
    requires Printed(spec, values) && Token(spec.name)
    requires spec.name in specs && specs[spec.name] == spec && spec.name !in st.seen
    ensures Scan(specs, PrintOption(spec, values) + rest, st)
         == match ReadBack(spec, values) {
              case Err(error) => Err(error)
              case Ok(value) => Scan(specs, rest, Given(st, spec.name, value)) }
  {
    var args := PrintOption(spec, values) + rest;
    SplitName(spec.name);
    TakePrinted(spec, values, rest);
    assert args[0] == "--" + spec.name && args[1..] == PrintOption(spec, values)[1..] + rest;
  }

  lemma {:induction false} ScanOptions(specs: map<string, OptionSpec>, options: seq<OptionSpec>, values: Values, st: State)
    requires forall i :: 0 <= i < |options| ==> Token(options[i].name)
    requires forall i :: 0 <= i < |options| ==> options[i].name in specs && specs[options[i].name] == options[i]
    requires DistinctNames(options) && Unseen(options, st)
    ensures Scan(specs, PrintOptions(options, values), st) == ReadAll(options, values, st)
  {
    if options != [] {
      var rest := PrintOptions(options[1..], values);
      if Printed(options[0], values) {
        ScanPrinted(specs, options[0], values, rest, st);
        if ReadBack(options[0], values).Ok? {
          ScanOptions(specs, options[1..], values, Given(st, options[0].name, ReadBack(options[0], values).value));
        }
      } else {
        assert PrintOption(options[0], values) + rest == rest;
        ScanOptions(specs, options[1..], values, st);
      }
    }
  }

  /** A printed value is read back as itself exactly when it meets its option's rules. */
  lemma ReadBackExactly(spec: OptionSpec, values: Values)
    requires Printed(spec, values)
    ensures ReadBack(spec, values) == Ok(values[spec.name]) <==> OptionOk(spec, values)
  {
    if !spec.kind.BooleanOption? && values[spec.name].Number? {
      var n := values[spec.name].number;
      ShowIsPlain(n);
      if Fits(n) {
        AtoiShow(n);
      }
    }
  }

  lemma {:induction false} ReadAllOk(options: seq<OptionSpec>, values: Values, st: State)
    requires forall i :: 0 <= i < |options| ==> OptionOk(options[i], values)
    ensures ReadAll(options, values, st) == Ok(GivenAll(options, values, st))
  {
    if options != [] {
      if Printed(options[0], values) {
        ReadBackExactly(options[0], values);
        ReadAllOk(options[1..], values, Given(st, options[0].name, values[options[0].name]));
      } else {
        ReadAllOk(options[1..], values, st);
      }
    }
  }

  /** After a successful walk every printed option has what was read back for it. */
  lemma {:induction false} ReadAllGets(options: seq<OptionSpec>, values: Values, st: State, name: string)
    requires DistinctNames(options) && ReadAll(options, values, st).Ok?
    ensures
      var st' := ReadAll(options, values, st).value;
      var spec := Find(options, name);
      && st'.positionals == st.positionals
      && if spec.Some? && Printed(spec.value, values)
         then ReadBack(spec.value, values).Ok? && Get(st'.values, name) == Some(ReadBack(spec.value, values).value)
         else Get(st'.values, name) == Get(st.values, name)
  {
    if options != [] {
      var st' := if Printed(options[0], values) then Given(st, options[0].name, ReadBack(options[0], values).value) else st;
      ReadAllGets(options[1..], values, st', name);
      if options[0].name == name {
        FindNone(options[1..], name);
      }
    }
  }

  lemma {:induction false} SpecsHold(options: seq<OptionSpec>)
    requires DistinctNames(options)
    ensures forall i :: 0 <= i < |options| ==> options[i].name in Specs(options) && Specs(options)[options[i].name] == options[i]
  {
    if options != [] {
      var n := |options| - 1;
      SpecsHold(options[..n]);
      forall i | 0 <= i < |options|
        ensures options[i].name in Specs(options) && Specs(options)[options[i].name] == options[i]
      {
        assert i < n ==> options[..n][i] == options[i] && options[i].name != options[n].name;
      }
    }
  }

  lemma {:induction false} GivenAllGets(options: seq<OptionSpec>, values: Values, st: State, name: string)
    requires DistinctNames(options)
    ensures GivenAll(options, values, st).positionals == st.positionals
    ensures Get(GivenAll(options, values, st).values, name)
         == if Find(options, name).Some? && Printed(Find(options, name).value, values) then Get(values, name) else Get(st.values, name)
  {
    if options != [] {
      var st' := if Printed(options[0], values) then Given(st, options[0].name, values[options[0].name]) else st;
      GivenAllGets(options[1..], values, st', name);
      if options[0].name == name {
        FindNone(options[1..], name);
      }
    }
  }

  lemma {:induction false} FindNone(options: seq<OptionSpec>, name: string)
    requires forall i :: 0 <= i < |options| ==> options[i].name != name
    ensures Find(options, name) == None
  {
    if options != [] {
      FindNone(options[1..], name);
    }
  }

  // ----- Positional arguments

  lemma {:induction false} PrintedArguments(arguments: seq<ArgumentSpec>, values: Values)
    requires forall i :: 0 <= i < |arguments| && arguments[i].name in values ==> Plain(Sprint(values[arguments[i].name]))
    ensures |PrintArguments(arguments, values)| <= |arguments|
    ensures forall i :: 0 <= i < |PrintArguments(arguments, values)| ==> Plain(PrintArguments(arguments, values)[i])
  {
    if arguments != [] {
      PrintedArguments(arguments[1..], values);
    }
  }

  lemma {:induction false} NothingPrinted(arguments: seq<ArgumentSpec>, values: Values)
    requires forall i :: 0 <= i < |arguments| ==> arguments[i].name !in values
    ensures PrintArguments(arguments, values) == []
  {
    if arguments != [] {
      NothingPrinted(arguments[1..], values);
    }
  }

  function BoundAll(arguments: seq<ArgumentSpec>, values: Values, given: Values): Values {
    if arguments == [] then given
    else BoundAll(arguments[1..], values,
                  if arguments[0].name in values then given[arguments[0].name := values[arguments[0].name]] else given)
  }

  lemma {:induction false} BindPrinted(arguments: seq<ArgumentSpec>, values: Values, given: Values)
    requires forall i :: 0 <= i < |arguments| ==> ArgumentOk(arguments[i], values)
    requires Prefixed(arguments, values)
    ensures Bind(arguments, PrintArguments(arguments, values), given) == Ok(BoundAll(arguments, values, given))
  {
    if arguments != [] {
      var rest := arguments[1..];
      if arguments[0].name in values {
        var text := values[arguments[0].name].text;
        assert PrintArguments(arguments, values) == [text] + PrintArguments(rest, values);
        assert ([text] + PrintArguments(rest, values))[1..] == PrintArguments(rest, values);
        BindPrinted(rest, values, given[arguments[0].name := Text(text)]);
      } else {
        NothingPrinted(rest, values);
        BindPrinted(rest, values, given);
      }
    }
  }

  lemma {:induction false} BoundAllGets(arguments: seq<ArgumentSpec>, values: Values, given: Values, name: string)
    ensures Get(BoundAll(arguments, values, given), name)
         == if name in NamesOf(arguments) && name in values then Get(values, name) else Get(given, name)
  {
    if arguments != [] {
      var given' := if arguments[0].name in values then given[arguments[0].name := values[arguments[0].name]] else given;
      BoundAllGets(arguments[1..], values, given', name);
      NamesCons(arguments, name);
    }
  }

  lemma NamesCons(arguments: seq<ArgumentSpec>, name: string)
    requires arguments != []
    ensures name in NamesOf(arguments) <==> name == arguments[0].name || name in NamesOf(arguments[1..])
  {
    if name in NamesOf(arguments) && name != arguments[0].name {
      var i :| 0 <= i < |arguments| && arguments[i].name == name;
      assert arguments[1..][i - 1].name == name;
    }
  }

  // ----- Defaults

  lemma {:induction false} CompleteGets(options: seq<OptionSpec>, given: Values, name: string)
    requires DistinctNames(options) && forall i :: 0 <= i < |options| && options[i].required ==> options[i].name in given
    ensures Complete(options, given).Ok?
    ensures Get(Complete(options, given).value, name)
         == if name in given || Find(options, name).None? then Get(given, name) else DefaultOf(Find(options, name).value)
  {
    if options != [] {
      CompleteGets(options[1..], Defaulted(options[0], given), name);
      if options[0].name == name {
        FindNone(options[1..], name);
      }
    }
  }

  // ----- The round trip

  function OptionNamesOf(options: seq<OptionSpec>): set<string> {
    set i | 0 <= i < |options| :: options[i].name
  }

  /** The values that come back. */
  function Normal(command: Command, values: Values): Values {
    map name | name in NamesOf(command.arguments) + OptionNamesOf(command.options) && NormalOf(command, values, name).Some?
      :: NormalOf(command, values, name).value
  }

  lemma {:induction false} FindSome(options: seq<OptionSpec>, name: string) returns (i: nat)
    requires Find(options, name).Some?
    ensures i < |options| && Find(options, name) == Some(options[i]) && options[i].name == name
  {
    if options[0].name == name {
      i := 0;
    } else {
      var j := FindSome(options[1..], name);
      i := j + 1;
    }
  }

  lemma {:induction false} FindDeclared(options: seq<OptionSpec>, i: nat)
    requires DistinctNames(options) && i < |options|
    ensures Find(options, options[i].name) == Some(options[i])
  {
    if i > 0 {
      assert options[1..][i - 1] == options[i];
      FindDeclared(options[1..], i - 1);
    }
  }

  lemma NormalGets(command: Command, values: Values, name: string)
    ensures Get(Normal(command, values), name) == NormalOf(command, values, name)
  {
    if name !in NamesOf(command.arguments) && Find(command.options, name).Some? {
      var i := FindSome(command.options, name);
      assert name in OptionNamesOf(command.options);
    }
  }

  lemma SameValues(a: Values, b: Values)
    requires forall name :: Get(a, name) == Get(b, name)
    ensures a == b
  {
    forall name
      ensures (name in a <==> name in b) && (name in a && name in b ==> a[name] == b[name])
    {
      assert Get(a, name) == Get(b, name);
    }
  }

  /** The positional arguments the session has are all plain tokens. */
  predicate PlainArguments(command: Command, values: Values) {
    forall i :: 0 <= i < |command.arguments| && command.arguments[i].name in values ==>
      Plain(Sprint(values[command.arguments[i].name]))
  }

  /** What the walk over the printed arguments collects. */
  lemma ScanPrint(command: Command, values: Values)
    requires WellDeclared(command) && PlainArguments(command, values)
    ensures Scan(Specs(command.options), Print(command, values), Blanks)
         == ReadAll(command.options, values, Blanks.(positionals := PrintArguments(command.arguments, values)))
  {
    var positionals := PrintArguments(command.arguments, values);
    var specs := Specs(command.options);
    PrintedArguments(command.arguments, values);
    ScanPositionals(specs, positionals, PrintOptions(command.options, values), Blanks);
    assert Blanks.positionals + positionals == positionals;
    SpecsHold(command.options);
    ScanOptions(specs, command.options, values, Blanks.(positionals := positionals));
  }

  /** The values after binding, before defaults. */
  function BoundValues(command: Command, values: Values): Values {
    BoundAll(command.arguments, values, GivenAll(command.options, values, Blanks).values)
  }

  lemma BoundGets(command: Command, values: Values, name: string)
    requires WellDeclared(command)
    ensures Get(BoundValues(command, values), name)
         == if name in NamesOf(command.arguments) then Get(values, name)
            else if Find(command.options, name).Some? && Printed(Find(command.options, name).value, values) then Get(values, name)
            else None
  {
    GivenAllGets(command.options, values, Blanks, name);
    BoundAllGets(command.arguments, values, GivenAll(command.options, values, Blanks).values, name);
    if name in NamesOf(command.arguments) && Find(command.options, name).Some? {
      var i := FindSome(command.options, name);
      assert false;
    }
  }

  lemma {:induction false} GivenAllValues(options: seq<OptionSpec>, values: Values, st: State, positionals: seq<string>)
    ensures GivenAll(options, values, st.(positionals := positionals)).values == GivenAll(options, values, st).values
    ensures GivenAll(options, values, st.(positionals := positionals)).positionals == positionals
  {
    if options != [] {
      var st' := if Printed(options[0], values) then Given(st, options[0].name, values[options[0].name]) else st;
      GivenAllValues(options[1..], values, st', positionals);
    }
  }

  lemma RequiredAreBound(command: Command, values: Values)
    requires WellDeclared(command) && WellFormed(command, values)
    ensures forall i :: 0 <= i < |command.options| && command.options[i].required ==>
              command.options[i].name in BoundValues(command, values)
  {
    forall i | 0 <= i < |command.options| && command.options[i].required
      ensures command.options[i].name in BoundValues(command, values)
    {
      BoundGets(command, values, command.options[i].name);
      FindDeclared(command.options, i);
    }
  }

  lemma CompletedIsNormal(command: Command, values: Values)
    requires WellDeclared(command) && WellFormed(command, values)
    ensures Complete(command.options, BoundValues(command, values)) == Ok(Normal(command, values))
  {
    RequiredAreBound(command, values);
    var completed := Complete(command.options, BoundValues(command, values));
    CompleteGets(command.options, BoundValues(command, values), "");
    forall name
      ensures Get(completed.value, name) == Get(Normal(command, values), name)
    {
      CompleteGets(command.options, BoundValues(command, values), name);
      BoundGets(command, values, name);
      NormalGets(command, values, name);
      ArgumentIsNoOption(command, name);
      if Find(command.options, name).Some? {
        var i := FindSome(command.options, name);
      }
    }
    SameValues(completed.value, Normal(command, values));
  }

  lemma ArgumentIsNoOption(command: Command, name: string)
    requires WellDeclared(command)
    ensures name in NamesOf(command.arguments) ==> Find(command.options, name).None?
  {
    if Find(command.options, name).Some? {
      var i := FindSome(command.options, name);
    }
  }

  /**
    For every command the registry accepts and all well-formed values, parsing the printed
    arguments gives the values back in their normal form, up to the command's own check.
   */
  lemma RoundTrip(command: Command, validate: Values -> bool, values: Values)
    requires WellDeclared(command) && WellFormed(command, values)
    ensures Parse(command, validate, Print(command, values))
         == if validate(Normal(command, values)) then Ok(Normal(command, values)) else Err(Refused)
  {
    var positionals := PrintArguments(command.arguments, values);
    ScanPrint(command, values);
    ReadAllOk(command.options, values, Blanks.(positionals := positionals));
    GivenAllValues(command.options, values, Blanks, positionals);
    PrintedArguments(command.arguments, values);
    BindPrinted(command.arguments, values, GivenAll(command.options, values, Blanks).values);
    CompletedIsNormal(command, values);
  }

  /** An explicit boolean comes back as it was exactly unless it is false where the default is true. */
  lemma FalseMayBeLost(command: Command, values: Values, i: nat)
    requires WellDeclared(command) && i < |command.options| && command.options[i].kind.BooleanOption?
    requires command.options[i].name in values && values[command.options[i].name].Flag?
    ensures
      var spec := command.options[i];
      var before := values[spec.name].flag;
      var after := Get(Normal(command, values), spec.name) == Some(Flag(true));
      after == before <==> before || spec.defaultText != "true"
  {
    var spec := command.options[i];
    NormalGets(command, values, spec.name);
    FindDeclared(command.options, i);
    ArgumentIsNoOption(command, spec.name);
  }

  const Waits := Command([], [OptionSpec("wait", BooleanOption, false, false, [], "true")])

  /** A switch that is on by default, explicitly turned off, is on again after printing and parsing. */
  lemma FalseLost() returns (values: Values)
    ensures Get(values, "wait") == Some(Flag(false)) && WellDeclared(Waits) && WellFormed(Waits, values)
    ensures
      var parsed := Parse(Waits, _ => true, Print(Waits, values));
      parsed.Ok? && Get(parsed.value, "wait") == Some(Flag(true))
  {
    values := map["wait" := Flag(false)];
    assert OptionOk(Waits.options[0], values);
    RoundTrip(Waits, _ => true, values);
    FalseMayBeLost(Waits, values, 0);
  }

  /** Every other present value comes back unchanged. */
  lemma PresentValuesReturn(command: Command, values: Values, name: string)
    requires WellDeclared(command) && name in values
    requires name in NamesOf(command.arguments)
          || (Find(command.options, name).Some? && !Find(command.options, name).value.kind.BooleanOption?)
    ensures Get(Normal(command, values), name) == Some(values[name])
  {
    NormalGets(command, values, name);
    ArgumentIsNoOption(command, name);
    if Find(command.options, name).Some? {
      var i := FindSome(command.options, name);
    }
  }
}
