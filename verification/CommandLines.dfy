/**
  Every command line is either read as a whole or has a first offence, and the parser's answer is
  the one that follows from that.
 */
module CommandLines {
  import opened Wrappers
  import opened CommandTypes
  import opened CommandParser
  import opened CommandPrinter
  import opened CommandRoundTrip
  import opened CommandConverse
  import opened CommandMeaning
  import opened CommandReading

  // ----- Offences

  function OptionToken(name: string, inline: Option<string>): string {
    if inline.Some? then "--" + name + "=" + inline.value else "--" + name
  }

  /** The text of an option, inline or behind it. */
  function TextOf(inline: Option<string>, rest: seq<string>): Option<string> {
    if inline.Some? then inline else if rest != [] && !OptionLike(rest[0]) then Some(rest[0]) else None
  }

  /** What is wrong with an option behind legal pieces, and how that is reported. */
  ghost predicate Offends(command: Command, pieces: seq<Piece>, name: string, inline: Option<string>, rest: seq<string>, e: Error) {
    && '=' !in name && name != ""
    && if forall i :: 0 <= i < |command.options| ==> command.options[i].name != name then e == Unsupported(name)
       else exists i :: 0 <= i < |command.options| && command.options[i].name == name && OffendsAt(command, pieces, i, inline, rest, e)
  }

  ghost predicate OffendsAt(command: Command, pieces: seq<Piece>, i: nat, inline: Option<string>, rest: seq<string>, e: Error)
    requires i < |command.options|
  {
    var spec := command.options[i];
    if Mentioned(pieces, i) then e == Repeated(spec.name)
    else if spec.kind.BooleanOption? then inline.Some? && !MeansTrue(inline.value) && !MeansFalse(inline.value) && e == NeedsBoolean(spec.name)
    else if TextOf(inline, rest).None? then e == NeedsValue(spec.name)
    else TextOffends(spec, TextOf(inline, rest).value, e)
  }

  ghost predicate TextOffends(spec: OptionSpec, text: string, e: Error) {
    && (forall value :: !Means(spec, text, value))
    && e == if spec.kind.IntegerOption? then NeedsInteger(spec.name)
            else if !HasInk(text) then NeedsText(spec.name) else NotAChoice(spec.name)
  }

  lemma TextRefused(spec: OptionSpec, text: string, e: Error)
    requires !spec.kind.BooleanOption?
    ensures ReadValue(spec, text) == Err(e) <==> TextOffends(spec, text, e)
  {
    InkIsNotBlank(text);
    if ReadValue(spec, text).Ok? {
      ReadsMeaning(spec, text, ReadValue(spec, text).value);
    }
    forall value
      ensures Means(spec, text, value) ==> ReadValue(spec, text).Ok?
    {
      ReadsMeaning(spec, text, value);
    }
    if spec.kind.StringOption? {
      assert HasInk(text) && Chosen(spec.choices, text) ==> Means(spec, text, Text(text));
    }
  }

  lemma OffenceTaken(spec: OptionSpec, inline: Option<string>, rest: seq<string>, e: Error)
    ensures TakeOption(spec, inline, rest) == Err(e) <==>
            if spec.kind.BooleanOption?
            then inline.Some? && !MeansTrue(inline.value) && !MeansFalse(inline.value) && e == NeedsBoolean(spec.name)
            else if TextOf(inline, rest).None? then e == NeedsValue(spec.name)
            else TextOffends(spec, TextOf(inline, rest).value, e)
  {
    if spec.kind.BooleanOption? {
      if inline.Some? {
        BooleanTexts(inline.value);
      }
    } else {
      if rest != [] {
        OptionLikeIsDashed(rest[0]);
      }
      if TextOf(inline, rest).Some? {
        TextRefused(spec, TextOf(inline, rest).value, e);
      }
    }
  }

  lemma OptionIndex(command: Command, name: string) returns (i: nat)
    requires WellDeclared(command) && name in Specs(command.options)
    ensures i < |command.options| && command.options[i].name == name
    ensures forall j :: 0 <= j < |command.options| && command.options[j].name == name ==> j == i
  {
    SpecsOnly(command.options, name);
    i :| 0 <= i < |command.options| && command.options[i].name == name;
  }

  lemma SplitToken(name: string, inline: Option<string>)
    requires '=' !in name && name != ""
    ensures SplitLongOption(OptionToken(name, inline)) == Split(name, inline) && OptionToken(name, inline) != "--"
  {
    SplitPlain(name);
    if inline.Some? {
      SplitInline(name, inline.value);
    }
  }

  /** The walk ends at the offence with its error. */
  lemma OffenceScanned(command: Command, pieces: seq<Piece>, st: State, name: string, inline: Option<string>, rest: seq<string>, e: Error)
    requires WellDeclared(command) && Carried(command, pieces, st) && Offends(command, pieces, name, inline, rest, e)
    ensures Scan(Specs(command.options), [OptionToken(name, inline)] + rest, st) == Err(e)
  {
    SplitToken(name, inline);
    SpecsOnly(command.options, name);
    assert ([OptionToken(name, inline)] + rest)[1..] == rest;
    if name in Specs(command.options) {
      var i := OptionIndex(command, name);
      SpecOf(command, i);
      assert CarriedOption(command, pieces, st, i);
      OffenceTaken(command.options[i], inline, rest, e);
    }
  }

  // ----- Reading a line

  datatype Reading =
    | WholeLine(pieces: seq<Piece>, end: Option<seq<string>>)
    | Offence(pieces: seq<Piece>, name: string, inline: Option<string>, rest: seq<string>, error: Error)

  ghost predicate Is(command: Command, args: seq<string>, r: Reading) {
    match r
    case WholeLine(pieces, end) => Reads(command, args, pieces, end)
    case Offence(pieces, name, inline, rest, e) =>
      && Legal(command, pieces) && args == Spelled(command, pieces) + ([OptionToken(name, inline)] + rest)
      && Offends(command, pieces, name, inline, rest, e)
  }

  /** A first token that names an option is a piece or an offence. */
  lemma OptionRead(command: Command, pieces: seq<Piece>, args: seq<string>, i: nat, inline: Option<string>)
    returns (p: Option<Piece>, rest: seq<string>, e: Error)
    requires WellDeclared(command) && i < |command.options| && args != []
    requires args[0] == OptionToken(command.options[i].name, inline)
    ensures p.Some? ==>
              && PieceOk(command, p.value) && (!p.value.Word? ==> !Mentioned(pieces, p.value.option))
              && args == Tokens(command, p.value) + rest
    ensures p.None? ==> OffendsAt(command, pieces, i, inline, args[1..], e)
  {
    var spec := command.options[i];
    var taken := TakeOption(spec, inline, args[1..]);
    p, rest, e := None, [], Repeated(spec.name);
    if !Mentioned(pieces, i) {
      if taken.Err? {
        e := taken.error;
        OffenceTaken(spec, inline, args[1..], e);
      } else {
        var piece;
        piece, rest := PieceTaken(command, args, i, inline);
        p := Some(piece);
      }
    }
  }

  /** An option that is taken is a piece. */
  lemma PieceTaken(command: Command, args: seq<string>, i: nat, inline: Option<string>) returns (p: Piece, rest: seq<string>)
    requires i < |command.options| && args != []
    requires args[0] == OptionToken(command.options[i].name, inline) && TakeOption(command.options[i], inline, args[1..]).Ok?
    ensures PieceOk(command, p) && !p.Word? && p.option == i && args == Tokens(command, p) + rest
  {
    if inline.Some? {
      p, rest := Inline(i, inline.value), args[1..];
      TextTaken(command.options[i], inline, args[1..]);
      assert args == Tokens(command, p) + rest;
    } else if command.options[i].kind.BooleanOption? {
      p, rest := Switch(i), args[1..];
      assert args == Tokens(command, p) + rest;
    } else {
      TextFollows(command.options[i], args[1..]);
      p, rest := Pair(i, args[1]), args[2..];
      PairSpelled(command, args, i);
    }
  }

  lemma TextFollows(spec: OptionSpec, rest: seq<string>)
    requires !spec.kind.BooleanOption? && TakeOption(spec, None, rest).Ok?
    ensures rest != [] && !OptionLike(rest[0]) && exists value :: Means(spec, rest[0], value)
  {
    TextTaken(spec, None, rest);
    assert TextOf(None, rest) == Some(rest[0]);
  }

  lemma PairSpelled(command: Command, args: seq<string>, i: nat)
    requires i < |command.options| && |args| >= 2 && args[0] == OptionToken(command.options[i].name, None)
    ensures args == Tokens(command, Pair(i, args[1])) + args[2..]
  {
    assert Tokens(command, Pair(i, args[1])) == [args[0], args[1]];
  }

  lemma TextTaken(spec: OptionSpec, inline: Option<string>, rest: seq<string>)
    requires TakeOption(spec, inline, rest).Ok? && (inline.Some? || !spec.kind.BooleanOption?)
    ensures TextOf(inline, rest).Some? && Means(spec, TextOf(inline, rest).value, TakeOption(spec, inline, rest).value.value)
  {
    if rest != [] {
      OptionLikeIsDashed(rest[0]);
    }
    if spec.kind.BooleanOption? {
      BooleanTexts(inline.value);
    } else {
      ReadsMeaning(spec, TextOf(inline, rest).value, TakeOption(spec, inline, rest).value.value);
    }
  }

  lemma FirstRead(command: Command, pieces: seq<Piece>, args: seq<string>) returns (p: Option<Piece>, rest: seq<string>, name: string, inline: Option<string>, e: Error)
    requires WellDeclared(command) && args != [] && args[0] != "--"
    ensures p.Some? ==>
              && PieceOk(command, p.value) && (!p.value.Word? ==> !Mentioned(pieces, p.value.option))
              && args == Tokens(command, p.value) + rest
    ensures p.None? ==> args[0] == OptionToken(name, inline) && Offends(command, pieces, name, inline, args[1..], e)
  {
    OptionLikeIsDashed(args[0]);
    var split := SplitLongOption(args[0]);
    p, rest, name, inline, e := None, [], split.name, split.inline, Unsupported(split.name);
    if Dashed(args[0]) {
      SplitBack(args[0]);
    }
    if split.name == "" {
      p, rest := Some(Word(args[0])), args[1..];
    } else {
      assert args[0] == OptionToken(name, inline);
      SpecsOnly(command.options, name);
      if name in Specs(command.options) {
        var i := OptionIndex(command, name);
        p, rest, e := OptionRead(command, pieces, args, i, inline);
      }
    }
  }

  lemma SpelledOn(command: Command, pieces: seq<Piece>, p: Piece, args: seq<string>, rest: seq<string>)
    requires Legal(command, pieces) && PieceOk(command, p) && (!p.Word? ==> !Mentioned(pieces, p.option))
    requires args == Tokens(command, p) + rest
    ensures Legal(command, pieces + [p]) && Spelled(command, pieces) + args == Spelled(command, pieces + [p]) + rest
    ensures |rest| < |args|
  {
    LegalAppend(command, pieces, p);
    TokensAssociate(Spelled(command, pieces), Tokens(command, p), rest);
  }

  lemma TokensAssociate(a: seq<string>, b: seq<string>, c: seq<string>)
    ensures a + (b + c) == (a + b) + c
  {
  }

  lemma OffenceFound(command: Command, pieces: seq<Piece>, args: seq<string>, name: string, inline: Option<string>, e: Error)
    requires Legal(command, pieces) && args != [] && args[0] == OptionToken(name, inline)
    requires Offends(command, pieces, name, inline, args[1..], e)
    ensures Is(command, Spelled(command, pieces) + args, Offence(pieces, name, inline, args[1..], e))
  {
    assert args == [OptionToken(name, inline)] + args[1..];
  }

  /** Nothing is left, or nothing but what stands behind the end of the options. */
  lemma LineEnds(command: Command, pieces: seq<Piece>, args: seq<string>) returns (r: Reading)
    requires Legal(command, pieces) && (args == [] || args[0] == "--")
    ensures Is(command, Spelled(command, pieces) + args, r)
  {
    r := WholeLine(pieces, if args == [] then None else Some(args[1..]));
  }

  /** Every line is read, as a whole or up to its first offence. */
  lemma {:induction false} ReadOn(command: Command, pieces: seq<Piece>, args: seq<string>) returns (r: Reading)
    requires WellDeclared(command) && Legal(command, pieces)
    ensures Is(command, Spelled(command, pieces) + args, r)
    decreases |args|
  {
    if args == [] || args[0] == "--" {
      r := LineEnds(command, pieces, args);
    } else {
      var p, rest, name, inline, e := FirstRead(command, pieces, args);
      if p.Some? {
        SpelledOn(command, pieces, p.value, args, rest);
        r := ReadOn(command, pieces + [p.value], rest);
      } else {
        r := Offence(pieces, name, inline, args[1..], e);
        OffenceFound(command, pieces, args, name, inline, e);
      }
    }
  }

  lemma EveryLine(command: Command, args: seq<string>) returns (r: Reading)
    requires WellDeclared(command)
    ensures Is(command, args, r)
  {
    NothingCarried(command);
    r := ReadOn(command, [], args);
    assert Spelled(command, []) + args == args;
  }

  /** An offence is reported as it is, whatever stands before it and behind it. */
  lemma OffenceReported(command: Command, validate: Values -> bool, pieces: seq<Piece>, name: string, inline: Option<string>, rest: seq<string>, e: Error)
    requires WellDeclared(command) && Legal(command, pieces) && Offends(command, pieces, name, inline, rest, e)
    ensures Parse(command, validate, Spelled(command, pieces) + ([OptionToken(name, inline)] + rest)) == Err(e)
  {
    var st := PiecesScanned(command, pieces);
    assert Walks(command, Spelled(command, pieces), Blanks, [OptionToken(name, inline)] + rest, st);
    OffenceScanned(command, pieces, st, name, inline, rest, e);
  }

  // ----- After the walk

  /** The state at the end of a line that is read as a whole. */
  lemma WholeScanned(command: Command, args: seq<string>, pieces: seq<Piece>, end: Option<seq<string>>) returns (st: State)
    requires WellDeclared(command) && Reads(command, args, pieces, end)
    ensures Scan(Specs(command.options), args, Blanks) == Ok(st.(positionals := Positionals(pieces, end)))
    ensures Carried(command, pieces, st)
  {
    st := PiecesScanned(command, pieces);
    assert Walks(command, Spelled(command, pieces), Blanks, Ending(end), st);
    if end.Some? {
      assert Ending(end)[1..] == end.value;
    }
    assert st.positionals + [] == st.positionals;
  }

  /** How the first argument that is not met is reported. */
  predicate ArgumentError(arguments: seq<ArgumentSpec>, positionals: seq<string>, k: nat, e: Error)
    requires k < |arguments|
  {
    var name := arguments[k].name;
    if k >= |positionals| then arguments[k].required && e == MissingArgument(name)
    else if !HasInk(positionals[k]) then e == NeedsText(name)
    else !Chosen(arguments[k].choices, positionals[k]) && e == NotAChoice(name)
  }

  lemma {:induction false} BindMet(arguments: seq<ArgumentSpec>, positionals: seq<string>, given: Values)
    requires |positionals| <= |arguments|
    requires forall k :: 0 <= k < |arguments| ==> ArgumentMet(arguments, positionals, k)
    ensures Bind(arguments, positionals, given).Ok?
    decreases |arguments|
  {
    if arguments != [] {
      assert ArgumentMet(arguments, positionals, 0);
      var rest := if positionals == [] then [] else positionals[1..];
      forall k | 0 <= k < |arguments[1..]|
        ensures ArgumentMet(arguments[1..], rest, k)
      {
        assert ArgumentMet(arguments, positionals, k + 1);
      }
      if positionals == [] {
        BindMet(arguments[1..], [], given);
      } else {
        InkIsNotBlank(positionals[0]);
        BindMet(arguments[1..], rest, given[arguments[0].name := Text(positionals[0])]);
      }
    }
  }

  lemma {:induction false} BindUnmet(arguments: seq<ArgumentSpec>, positionals: seq<string>, given: Values, k: nat, e: Error)
    requires |positionals| <= |arguments| && k < |arguments| && ArgumentError(arguments, positionals, k, e)
    requires forall j :: 0 <= j < k ==> ArgumentMet(arguments, positionals, j)
    ensures Bind(arguments, positionals, given) == Err(e)
    decreases |arguments|
  {
    var rest := if positionals == [] then [] else positionals[1..];
    if positionals != [] {
      InkIsNotBlank(positionals[0]);
    }
    if k > 0 {
      assert ArgumentMet(arguments, positionals, 0);
      forall j | 0 <= j < k - 1
        ensures ArgumentMet(arguments[1..], rest, j)
      {
        assert ArgumentMet(arguments, positionals, j + 1);
      }
      BindUnmet(arguments[1..], rest, if positionals == [] then given else given[arguments[0].name := Text(positionals[0])], k - 1, e);
    }
  }

  lemma {:induction false} CompleteMissing(options: seq<OptionSpec>, given: Values, i: nat)
    requires DistinctNames(options) && i < |options| && options[i].required && options[i].name !in given
    requires forall j :: 0 <= j < i && options[j].required ==> options[j].name in given
    ensures Complete(options, given) == Err(MissingOption(options[i].name))
  {
    if i > 0 {
      CompleteMissing(options[1..], Defaulted(options[0], given), i - 1);
    }
  }

  /** The three ways in which the end of a line that was read as a whole is not met. */
  lemma TooManyWords(command: Command, validate: Values -> bool, args: seq<string>, pieces: seq<Piece>, end: Option<seq<string>>)
    requires WellDeclared(command) && Reads(command, args, pieces, end) && |Positionals(pieces, end)| > |command.arguments|
    ensures Parse(command, validate, args) == Err(ExtraPositional(Positionals(pieces, end)[|command.arguments|]))
  {
    var st := WholeScanned(command, args, pieces, end);
  }

  lemma ArgumentNotMet(command: Command, validate: Values -> bool, args: seq<string>, pieces: seq<Piece>, end: Option<seq<string>>, k: nat, e: Error)
    requires WellDeclared(command) && Reads(command, args, pieces, end) && |Positionals(pieces, end)| <= |command.arguments|
    requires k < |command.arguments| && ArgumentError(command.arguments, Positionals(pieces, end), k, e)
    requires forall j :: 0 <= j < k ==> ArgumentMet(command.arguments, Positionals(pieces, end), j)
    ensures Parse(command, validate, args) == Err(e)
  {
    var st := WholeScanned(command, args, pieces, end);
    BindUnmet(command.arguments, Positionals(pieces, end), st.values, k, e);
  }

  /** What the options hold once the words are bound. */
  lemma BoundOption(command: Command, pieces: seq<Piece>, st: State, positionals: seq<string>, i: nat)
    requires WellDeclared(command) && Carried(command, pieces, st) && i < |command.options|
    requires |positionals| <= |command.arguments| && Bind(command.arguments, positionals, st.values).Ok?
    ensures
      var bound := Bind(command.arguments, positionals, st.values).value;
      && (command.options[i].name in bound <==> Mentioned(pieces, i))
      && (Mentioned(pieces, i) ==> SaysOf(command, pieces, i, bound[command.options[i].name]))
  {
    assert CarriedOption(command, pieces, st, i);
    BindElsewhere(command.arguments, positionals, st.values, command.options[i].name);
  }

  lemma OptionMissing(command: Command, validate: Values -> bool, args: seq<string>, pieces: seq<Piece>, end: Option<seq<string>>, i: nat)
    requires WellDeclared(command) && Reads(command, args, pieces, end) && |Positionals(pieces, end)| <= |command.arguments|
    requires forall k :: 0 <= k < |command.arguments| ==> ArgumentMet(command.arguments, Positionals(pieces, end), k)
    requires i < |command.options| && command.options[i].required && !Mentioned(pieces, i)
    requires forall j :: 0 <= j < i && command.options[j].required ==> Mentioned(pieces, j)
    ensures Parse(command, validate, args) == Err(MissingOption(command.options[i].name))
  {
    var positionals := Positionals(pieces, end);
    var st := WholeScanned(command, args, pieces, end);
    BindMet(command.arguments, positionals, st.values);
    forall j | 0 <= j < |command.options|
      ensures command.options[j].name in Bind(command.arguments, positionals, st.values).value <==> Mentioned(pieces, j)
    {
      BoundOption(command, pieces, st, positionals, j);
    }
    CompleteMissing(command.options, Bind(command.arguments, positionals, st.values).value, i);
  }

  // ----- The values

  lemma BoundArgument(command: Command, pieces: seq<Piece>, st: State, positionals: seq<string>, k: nat)
    requires WellDeclared(command) && Carried(command, pieces, st) && k < |command.arguments|
    requires |positionals| <= |command.arguments| && Bind(command.arguments, positionals, st.values).Ok?
    ensures Get(Bind(command.arguments, positionals, st.values).value, command.arguments[k].name)
         == if k < |positionals| then Some(Text(positionals[k])) else None
  {
    var name := command.arguments[k].name;
    BindGets(command.arguments, positionals, st.values, k);
    if k >= |positionals| {
      BindUntouched(command.arguments, positionals, st.values, name);
      assert name !in st.values;
    }
  }

  lemma {:induction false} BindUntouched(arguments: seq<ArgumentSpec>, positionals: seq<string>, given: Values, name: string)
    requires |positionals| <= |arguments| && Bind(arguments, positionals, given).Ok?
    requires forall i :: 0 <= i < |positionals| ==> arguments[i].name != name
    ensures Get(Bind(arguments, positionals, given).value, name) == Get(given, name)
    decreases |arguments|
  {
    if arguments != [] {
      if positionals == [] {
        BindUntouched(arguments[1..], [], given, name);
      } else {
        BindUntouched(arguments[1..], positionals[1..], given[arguments[0].name := Text(positionals[0])], name);
      }
    }
  }

  lemma BoundNames(command: Command, pieces: seq<Piece>, st: State, positionals: seq<string>, name: string)
    requires WellDeclared(command) && Carried(command, pieces, st)
    requires |positionals| <= |command.arguments| && Bind(command.arguments, positionals, st.values).Ok?
    ensures name in Bind(command.arguments, positionals, st.values).value ==>
              name in NamesOf(command.arguments) || name in OptionNamesOf(command.options)
  {
    if name !in NamesOf(command.arguments) {
      BindElsewhere(command.arguments, positionals, st.values, name);
    }
  }

  /** A line that is whole gives values, and the check decides. */
  lemma WholeGives(command: Command, validate: Values -> bool, args: seq<string>, pieces: seq<Piece>, end: Option<seq<string>>) returns (v: Values)
    requires WellDeclared(command) && Reads(command, args, pieces, end) && Whole(command, pieces, Positionals(pieces, end))
    ensures Gives(command, pieces, Positionals(pieces, end), v)
    ensures Parse(command, validate, args) == if validate(v) then Ok(v) else Err(Refused)
  {
    var positionals := Positionals(pieces, end);
    var st := WholeScanned(command, args, pieces, end);
    BindMet(command.arguments, positionals, st.values);
    var bound := Bind(command.arguments, positionals, st.values).value;
    forall i | 0 <= i < |command.options|
      ensures command.options[i].name in bound <==> Mentioned(pieces, i)
    {
      BoundOption(command, pieces, st, positionals, i);
    }
    CompleteGets(command.options, bound, "");
    v := Complete(command.options, bound).value;
    CompletedGives(command, pieces, st, positionals, v);
  }

  lemma CompletedGives(command: Command, pieces: seq<Piece>, st: State, positionals: seq<string>, v: Values)
    requires WellDeclared(command) && Carried(command, pieces, st) && |positionals| <= |command.arguments|
    requires Bind(command.arguments, positionals, st.values).Ok?
    requires Complete(command.options, Bind(command.arguments, positionals, st.values).value) == Ok(v)
    requires forall i :: 0 <= i < |command.options| && command.options[i].required ==>
                           command.options[i].name in Bind(command.arguments, positionals, st.values).value
    ensures Gives(command, pieces, positionals, v)
  {
    var bound := Bind(command.arguments, positionals, st.values).value;
    forall k | 0 <= k < |command.arguments|
      ensures Get(v, command.arguments[k].name) == if k < |positionals| then Some(Text(positionals[k])) else None
    {
      BoundArgument(command, pieces, st, positionals, k);
      CompleteGets(command.options, bound, command.arguments[k].name);
      ArgumentIsNoOption(command, command.arguments[k].name);
    }
    forall i | 0 <= i < |command.options|
      ensures
        var got := Get(v, command.options[i].name);
        if Mentioned(pieces, i) then got.Some? && SaysOf(command, pieces, i, got.value) else DefaultMeans(command.options[i], got)
    {
      BoundOption(command, pieces, st, positionals, i);
      CompleteGets(command.options, bound, command.options[i].name);
      FindDeclared(command.options, i);
      DefaultExactly(command.options[i], DefaultOf(command.options[i]));
    }
    forall name | name in v
      ensures name in NamesOf(command.arguments) || name in OptionNamesOf(command.options)
    {
      BoundNames(command, pieces, st, positionals, name);
      CompleteGets(command.options, bound, name);
      if Find(command.options, name).Some? {
        var i := FindSome(command.options, name);
        assert command.options[i].name in OptionNamesOf(command.options);
      }
    }
  }

  lemma SaysOnce(command: Command, pieces: seq<Piece>, i: nat, v: Value, w: Value)
    requires Legal(command, pieces) && i < |command.options| && SaysOf(command, pieces, i, v) && SaysOf(command, pieces, i, w)
    ensures v == w
  {
    var j :| 0 <= j < |pieces| && About(pieces[j], i) && Says(command, pieces[j], v);
    var k :| 0 <= k < |pieces| && About(pieces[k], i) && Says(command, pieces[k], w);
    assert j == k;
    if !pieces[j].Switch? {
      MeansOnce(command.options[i], pieces[j].text, v, w);
    }
  }

  lemma MeansOnce(spec: OptionSpec, text: string, v: Value, w: Value)
    requires Means(spec, text, v) && Means(spec, text, w)
    ensures v == w
  {
    if spec.kind.IntegerOption? {
      OneNumeral(text, v.number, w.number);
    }
  }

  lemma DefaultOnce(spec: OptionSpec, v: Option<Value>, w: Option<Value>)
    requires DefaultMeans(spec, v) && DefaultMeans(spec, w)
    ensures v == w
  {
    DefaultExactly(spec, v);
    DefaultExactly(spec, w);
  }

  /** A line says one thing only. */
  lemma GivesOnce(command: Command, pieces: seq<Piece>, positionals: seq<string>, v: Values, w: Values)
    requires Legal(command, pieces) && Gives(command, pieces, positionals, v) && Gives(command, pieces, positionals, w)
    ensures v == w
  {
    forall name
      ensures Get(v, name) == Get(w, name)
    {
      if name in NamesOf(command.arguments) {
        var k :| 0 <= k < |command.arguments| && command.arguments[k].name == name;
      } else if name in OptionNamesOf(command.options) {
        var i :| 0 <= i < |command.options| && command.options[i].name == name;
        if Mentioned(pieces, i) {
          SaysOnce(command, pieces, i, v[name], w[name]);
        } else {
          DefaultOnce(command.options[i], Get(v, name), Get(w, name));
        }
      }
    }
    SameValues(v, w);
  }

  // ----- The parser

  ghost predicate Accepts(command: Command, validate: Values -> bool, args: seq<string>, v: Values, pieces: seq<Piece>, end: Option<seq<string>>) {
    && Reads(command, args, pieces, end) && Whole(command, pieces, Positionals(pieces, end))
    && Gives(command, pieces, Positionals(pieces, end), v) && validate(v)
  }

  /**
    For every command the registry accepts: the parser gives values if and only if the line can be
    read as words, switches and options with texts, each of them in order and no option twice, every
    argument and required option is there, these are the values it says, and the command agrees.
   */
  lemma ParsesExactly(command: Command, validate: Values -> bool, args: seq<string>, v: Values)
    requires WellDeclared(command)
    ensures Parse(command, validate, args) == Ok(v) <==> exists pieces, end :: Accepts(command, validate, args, v, pieces, end)
  {
    forall pieces, end | Accepts(command, validate, args, v, pieces, end)
      ensures Parse(command, validate, args) == Ok(v)
    {
      var w := WholeGives(command, validate, args, pieces, end);
      GivesOnce(command, pieces, Positionals(pieces, end), v, w);
    }
    if Parse(command, validate, args) == Ok(v) {
      var pieces, end := ParsedIsRead(command, validate, args);
      var w := WholeGives(command, validate, args, pieces, end);
      assert Accepts(command, validate, args, v, pieces, end);
    }
  }

  lemma ParsedIsRead(command: Command, validate: Values -> bool, args: seq<string>) returns (pieces: seq<Piece>, end: Option<seq<string>>)
    requires WellDeclared(command) && Parse(command, validate, args).Ok?
    ensures Reads(command, args, pieces, end) && Whole(command, pieces, Positionals(pieces, end))
  {
    var r := EveryLine(command, args);
    match r
    case Offence(all, name, inline, rest, e) =>
      OffenceReported(command, validate, all, name, inline, rest, e);
      assert false;
    case WholeLine(all, last) =>
      pieces, end := all, last;
      ParsedIsWhole(command, validate, args, pieces, end);
  }

  lemma ParsedIsWhole(command: Command, validate: Values -> bool, args: seq<string>, pieces: seq<Piece>, end: Option<seq<string>>)
    requires WellDeclared(command) && Parse(command, validate, args).Ok? && Reads(command, args, pieces, end)
    ensures Whole(command, pieces, Positionals(pieces, end))
  {
    var positionals := Positionals(pieces, end);
    var st := WholeScanned(command, args, pieces, end);
    forall k | 0 <= k < |command.arguments|
      ensures ArgumentMet(command.arguments, positionals, k)
    {
      BindGets(command.arguments, positionals, st.values, k);
      if k < |positionals| {
        InkIsNotBlank(positionals[k]);
      }
    }
    var bound := Bind(command.arguments, positionals, st.values).value;
    forall i | 0 <= i < |command.options| && command.options[i].required
      ensures Mentioned(pieces, i)
    {
      CompleteNeeds(command.options, bound, i);
      BoundOption(command, pieces, st, positionals, i);
    }
  }

  /** An option with its text inline is the same as with its text behind it, whatever stands around it. */
  lemma InlineOrBehind(command: Command, validate: Values -> bool, pieces: seq<Piece>, i: nat, text: string, rest: seq<string>)
    requires WellDeclared(command) && Legal(command, pieces) && i < |command.options|
    requires !command.options[i].kind.BooleanOption? && !OptionLike(text)
    ensures
      var name := command.options[i].name;
      Parse(command, validate, Spelled(command, pieces) + (["--" + name + "=" + text] + rest))
      == Parse(command, validate, Spelled(command, pieces) + (["--" + name, text] + rest))
  {
    var name := command.options[i].name;
    if Mentioned(pieces, i) {
      SpecOf(command, i);
      NameHasNoEquals(name);
      OffenceReported(command, validate, pieces, name, Some(text), rest, Repeated(name));
      OffenceReported(command, validate, pieces, name, None, [text] + rest, Repeated(name));
      assert ["--" + name] + ([text] + rest) == ["--" + name, text] + rest;
    } else {
      TextBehind(command, pieces, i, text, rest);
    }
  }

  lemma TextBehind(command: Command, pieces: seq<Piece>, i: nat, text: string, rest: seq<string>)
    requires WellDeclared(command) && Legal(command, pieces) && i < |command.options| && !Mentioned(pieces, i)
    requires !command.options[i].kind.BooleanOption? && !OptionLike(text)
    ensures
      var name := command.options[i].name;
      Scan(Specs(command.options), Spelled(command, pieces) + (["--" + name + "=" + text] + rest), Blanks)
      == Scan(Specs(command.options), Spelled(command, pieces) + (["--" + name, text] + rest), Blanks)
  {
    var name := command.options[i].name;
    var st := PiecesScanned(command, pieces);
    BothTaken(command, pieces, st, i, text, rest);
    SameBehind(command, pieces, st, ["--" + name + "=" + text] + rest, ["--" + name, text] + rest);
  }

  lemma SameBehind(command: Command, pieces: seq<Piece>, st: State, first: seq<string>, second: seq<string>)
    requires Legal(command, pieces) && forall rest :: Walks(command, Spelled(command, pieces), Blanks, rest, st)
    requires Scan(Specs(command.options), first, st) == Scan(Specs(command.options), second, st)
    ensures Scan(Specs(command.options), Spelled(command, pieces) + first, Blanks)
         == Scan(Specs(command.options), Spelled(command, pieces) + second, Blanks)
  {
    assert Walks(command, Spelled(command, pieces), Blanks, first, st);
    assert Walks(command, Spelled(command, pieces), Blanks, second, st);
  }

  lemma BothTaken(command: Command, pieces: seq<Piece>, st: State, i: nat, text: string, rest: seq<string>)
    requires WellDeclared(command) && Carried(command, pieces, st) && i < |command.options| && !Mentioned(pieces, i)
    requires !command.options[i].kind.BooleanOption? && !OptionLike(text)
    ensures
      var name := command.options[i].name;
      Scan(Specs(command.options), ["--" + name + "=" + text] + rest, st) == Scan(Specs(command.options), ["--" + name, text] + rest, st)
  {
    OptionLikeIsDashed(text);
    BehindIsRest(command, i, text, rest);
    ScanOption(command, pieces, st, i, Some(text), rest);
    ScanOption(command, pieces, st, i, None, [text] + rest);
  }
}
