/**
  The command line as a language. A line is read as positional words, switches and options with
  texts, in any order, and after `--` as words alone. The parser accepts exactly the lines that can
  be read so, with exactly the values they say, and otherwise names the first offence.
 */
module CommandReading {
  import opened Wrappers
  import opened CommandTypes
  import opened CommandParser
  import opened CommandPrinter
  import opened CommandRoundTrip
  import opened CommandConverse
  import opened CommandMeaning

  // ----- Lines

  /** Options are named by their place in the command. */
  datatype Piece =
    | Word(token: string)
    | Switch(option: nat)
    | Inline(option: nat, text: string)
    | Pair(option: nat, text: string)

  predicate OptionLike(token: string) { |token| >= 2 && token[..2] == "--" }

  function Tokens(command: Command, p: Piece): seq<string>
    requires !p.Word? ==> p.option < |command.options|
  {
    match p
    case Word(token) => [token]
    case Switch(i) => ["--" + command.options[i].name]
    case Inline(i, text) => ["--" + command.options[i].name + "=" + text]
    case Pair(i, text) => ["--" + command.options[i].name, text]
  }

  ghost predicate PieceOk(command: Command, p: Piece) {
    && (!p.Word? ==> p.option < |command.options|)
    && match p
       case Word(token) => !OptionLike(token) || (|token| > 2 && token[2] == '=')
       case Switch(i) => command.options[i].kind.BooleanOption?
       case Inline(i, text) => exists value :: Means(command.options[i], text, value)
       case Pair(i, text) =>
         !command.options[i].kind.BooleanOption? && !OptionLike(text) && exists value :: Means(command.options[i], text, value)
  }

  predicate About(p: Piece, i: nat) { !p.Word? && p.option == i }

  predicate Mentioned(pieces: seq<Piece>, i: nat) { exists k :: 0 <= k < |pieces| && About(pieces[k], i) }

  /** Every piece is in order, and no option comes twice. */
  ghost predicate Legal(command: Command, pieces: seq<Piece>) {
    && (forall k :: 0 <= k < |pieces| ==> PieceOk(command, pieces[k]))
    && (forall j, k :: 0 <= j < k < |pieces| && !pieces[k].Word? ==> !About(pieces[j], pieces[k].option))
  }

  ghost function Spelled(command: Command, pieces: seq<Piece>): seq<string>
    requires Legal(command, pieces)
  {
    if pieces == [] then []
    else
      var n := |pieces| - 1;
      assert PieceOk(command, pieces[n]);
      Spelled(command, pieces[..n]) + Tokens(command, pieces[n])
  }

  function Words(pieces: seq<Piece>): seq<string> {
    if pieces == [] then []
    else
      var n := |pieces| - 1;
      Words(pieces[..n]) + (if pieces[n].Word? then [pieces[n].token] else [])
  }

  /** `--` and what follows it, if it is there. */
  function Ending(end: Option<seq<string>>): seq<string> { if end.Some? then ["--"] + end.value else [] }

  function Positionals(pieces: seq<Piece>, end: Option<seq<string>>): seq<string> {
    Words(pieces) + if end.Some? then end.value else []
  }

  ghost predicate Reads(command: Command, args: seq<string>, pieces: seq<Piece>, end: Option<seq<string>>) {
    Legal(command, pieces) && args == Spelled(command, pieces) + Ending(end)
  }

  // ----- What a line says

  ghost predicate Says(command: Command, p: Piece, value: Value)
    requires !p.Word? && p.option < |command.options|
  {
    if p.Switch? then value == Flag(true) else Means(command.options[p.option], p.text, value)
  }

  ghost predicate SaysOf(command: Command, pieces: seq<Piece>, i: nat, value: Value)
    requires i < |command.options|
  {
    exists k :: 0 <= k < |pieces| && About(pieces[k], i) && Says(command, pieces[k], value)
  }

  /** Room for every word, and each fits its argument; nothing required is missing. */
  predicate Whole(command: Command, pieces: seq<Piece>, positionals: seq<string>) {
    && |positionals| <= |command.arguments|
    && (forall k :: 0 <= k < |command.arguments| ==> ArgumentMet(command.arguments, positionals, k))
    && (forall i :: 0 <= i < |command.options| && command.options[i].required ==> Mentioned(pieces, i))
  }

  predicate ArgumentMet(arguments: seq<ArgumentSpec>, positionals: seq<string>, k: nat)
    requires k < |arguments|
  {
    if k < |positionals| then HasInk(positionals[k]) && Chosen(arguments[k].choices, positionals[k]) else !arguments[k].required
  }

  /** Words for the arguments in turn; for each option what was said, else its default; and nothing else. */
  ghost predicate Gives(command: Command, pieces: seq<Piece>, positionals: seq<string>, v: Values) {
    && (forall k :: 0 <= k < |command.arguments| ==>
          Get(v, command.arguments[k].name) == if k < |positionals| then Some(Text(positionals[k])) else None)
    && (forall i :: 0 <= i < |command.options| ==>
          var got := Get(v, command.options[i].name);
          if Mentioned(pieces, i) then got.Some? && SaysOf(command, pieces, i, got.value)
          else DefaultMeans(command.options[i], got))
    && (forall name :: name in v ==> name in NamesOf(command.arguments) || name in OptionNamesOf(command.options))
  }

  // ----- Tokens

  lemma OptionLikeIsDashed(token: string)
    ensures OptionLike(token) <==> Dashed(token)
  {
    if |token| >= 2 {
      assert token[..2] == [token[0], token[1]];
    }
  }

  /** The name up to the first `=`, and the text behind it. */
  lemma {:induction false} EqualsAt(name: string, text: string)
    requires '=' !in name
    ensures Equals(name + ("=" + text)) == |name| && Equals(name) == |name|
  {
    var s := name + ("=" + text);
    assert s[|name|] == '=' && forall i :: 0 <= i < |name| ==> s[i] == name[i] && name[i] in name;
  }

  lemma NameHasNoEquals(name: string)
    requires Token(name)
    ensures '=' !in name && name != ""
  {
  }

  lemma SplitInline(name: string, text: string)
    requires '=' !in name
    ensures SplitLongOption("--" + name + "=" + text) == Split(name, Some(text)) && "--" + name + "=" + text != "--"
  {
    var token := "--" + name + "=" + text;
    EqualsAt(name, text);
    assert token[2..] == name + ("=" + text);
    assert token[2..][..|name|] == name && token[2..][|name| + 1..] == text;
  }

  lemma SplitPlain(name: string)
    requires '=' !in name && name != ""
    ensures SplitLongOption("--" + name) == Split(name, None) && "--" + name != "--"
  {
    var token := "--" + name;
    EqualsAt(name, "");
    assert token[2..] == name;
  }

  /** A token that looks like an option is put together again from what it is split into. */
  lemma SplitBack(token: string)
    requires Dashed(token) && token != "--"
    ensures
      var split := SplitLongOption(token);
      && (split.name == "" ==> |token| > 2 && token[2] == '=')
      && '=' !in split.name
      && token == "--" + split.name + (if split.inline.Some? then "=" + split.inline.value else "")
  {
    assert token == "--" + token[2..] && |token| > 2;
    var name := token[2..];
    var p := Equals(name);
    if p < |name| {
      assert name == name[..p] + "=" + name[p + 1..];
    }
    assert forall i :: 0 <= i < p ==> name[..p][i] != '=';
  }

  lemma PlainSplit(token: string)
    requires token != "--" && PieceIsWord(token)
    ensures SplitLongOption(token).name == ""
  {
    OptionLikeIsDashed(token);
    if Dashed(token) {
      assert token[2..][0] == '=';
    }
  }

  predicate PieceIsWord(token: string) { !OptionLike(token) || (|token| > 2 && token[2] == '=') }

  // ----- The table of options

  lemma {:induction false} SpecsOnly(options: seq<OptionSpec>, name: string)
    ensures name in Specs(options) <==> exists i :: 0 <= i < |options| && options[i].name == name
  {
    if options != [] {
      SpecsOnly(options[..|options| - 1], name);
    }
  }

  lemma SpecOf(command: Command, i: nat)
    requires WellDeclared(command) && i < |command.options|
    ensures command.options[i].name in Specs(command.options) && Specs(command.options)[command.options[i].name] == command.options[i]
    ensures Token(command.options[i].name)
  {
    SpecsHold(command.options);
  }

  // ----- One piece

  /** The state of the walk after these pieces. */
  ghost predicate Carried(command: Command, pieces: seq<Piece>, st: State) {
    && st.positionals == Words(pieces)
    && (forall i :: 0 <= i < |command.options| ==> CarriedOption(command, pieces, st, i))
    && (forall name :: name in st.values ==> name in OptionNamesOf(command.options))
  }

  ghost predicate CarriedOption(command: Command, pieces: seq<Piece>, st: State, i: nat)
    requires i < |command.options|
  {
    var name := command.options[i].name;
    && (name in st.seen <==> Mentioned(pieces, i))
    && if Mentioned(pieces, i) then name in st.values && SaysOf(command, pieces, i, st.values[name]) else name !in st.values
  }

  lemma NothingCarried(command: Command)
    ensures Carried(command, [], Blanks) && Legal(command, [])
  {
  }

  lemma WordsAppend(pieces: seq<Piece>, p: Piece)
    ensures Words(pieces + [p]) == Words(pieces) + (if p.Word? then [p.token] else [])
  {
    assert (pieces + [p])[..|pieces|] == pieces;
  }

  lemma MentionedAppend(pieces: seq<Piece>, p: Piece, i: nat)
    ensures Mentioned(pieces + [p], i) <==> Mentioned(pieces, i) || About(p, i)
  {
    var longer := pieces + [p];
    assert forall k :: 0 <= k < |pieces| ==> longer[k] == pieces[k];
    assert longer[|pieces|] == p;
    if Mentioned(pieces, i) {
      var k :| 0 <= k < |pieces| && About(pieces[k], i);
      assert About(longer[k], i);
    }
  }

  lemma SaysAppend(command: Command, pieces: seq<Piece>, p: Piece, i: nat, value: Value)
    requires i < |command.options|
    ensures SaysOf(command, pieces, i, value) ==> SaysOf(command, pieces + [p], i, value)
    ensures About(p, i) && Says(command, p, value) ==> SaysOf(command, pieces + [p], i, value)
  {
    var longer := pieces + [p];
    assert longer[|pieces|] == p;
    if SaysOf(command, pieces, i, value) {
      var k :| 0 <= k < |pieces| && About(pieces[k], i) && Says(command, pieces[k], value);
      assert longer[k] == pieces[k];
    }
  }

  lemma LegalAppend(command: Command, pieces: seq<Piece>, p: Piece)
    requires Legal(command, pieces) && PieceOk(command, p) && (!p.Word? ==> !Mentioned(pieces, p.option))
    ensures Legal(command, pieces + [p])
    ensures Spelled(command, pieces + [p]) == Spelled(command, pieces) + Tokens(command, p)
  {
    assert (pieces + [p])[..|pieces|] == pieces;
  }

  lemma LegalFront(command: Command, pieces: seq<Piece>)
    requires Legal(command, pieces) && pieces != []
    ensures
      var n := |pieces| - 1;
      && Legal(command, pieces[..n]) && PieceOk(command, pieces[n])
      && (!pieces[n].Word? ==> !Mentioned(pieces[..n], pieces[n].option))
      && pieces == pieces[..n] + [pieces[n]]
  {
    assert PieceOk(command, pieces[|pieces| - 1]);
  }

  lemma WordCarried(command: Command, pieces: seq<Piece>, st: State, token: string)
    requires Carried(command, pieces, st)
    ensures Carried(command, pieces + [Word(token)], st.(positionals := st.positionals + [token]))
  {
    var p := Word(token);
    WordsAppend(pieces, p);
    forall i | 0 <= i < |command.options|
      ensures CarriedOption(command, pieces + [p], st.(positionals := st.positionals + [token]), i)
    {
      assert CarriedOption(command, pieces, st, i);
      MentionedAppend(pieces, p, i);
      if Mentioned(pieces, i) {
        SaysAppend(command, pieces, p, i, st.values[command.options[i].name]);
      }
    }
  }

  lemma OptionCarried(command: Command, pieces: seq<Piece>, st: State, p: Piece, value: Value)
    requires WellDeclared(command) && Carried(command, pieces, st)
    requires !p.Word? && p.option < |command.options| && !Mentioned(pieces, p.option) && Says(command, p, value)
    ensures Carried(command, pieces + [p], Given(st, command.options[p.option].name, value))
  {
    var st' := Given(st, command.options[p.option].name, value);
    WordsAppend(pieces, p);
    forall i | 0 <= i < |command.options|
      ensures CarriedOption(command, pieces + [p], st', i)
    {
      assert CarriedOption(command, pieces, st, i);
      MentionedAppend(pieces, p, i);
      if i == p.option {
        SaysAppend(command, pieces, p, i, value);
      } else {
        assert command.options[i].name != command.options[p.option].name;
        if Mentioned(pieces, i) {
          SaysAppend(command, pieces, p, i, st.values[command.options[i].name]);
        }
      }
    }
    assert command.options[p.option].name in OptionNamesOf(command.options);
  }

  /** Taking an option with a text, inline or behind it. */
  lemma TakesText(spec: OptionSpec, inline: Option<string>, rest: seq<string>, text: string, value: Value)
    requires Means(spec, text, value)
    requires inline == Some(text) || (inline == None && !spec.kind.BooleanOption? && rest != [] && rest[0] == text && !OptionLike(text))
    ensures TakeOption(spec, inline, rest) == Ok(Taken(value, if inline.Some? then rest else rest[1..]))
  {
    OptionLikeIsDashed(text);
    if spec.kind.BooleanOption? {
      BooleanTexts(text);
    } else {
      ReadsMeaning(spec, text, value);
    }
  }

  /** What the walk does with a token that names an option. */
  lemma ScanOption(command: Command, pieces: seq<Piece>, st: State, i: nat, inline: Option<string>, rest: seq<string>)
    requires WellDeclared(command) && Carried(command, pieces, st) && i < |command.options| && !Mentioned(pieces, i)
    ensures
      var name := command.options[i].name;
      var token := if inline.Some? then "--" + name + "=" + inline.value else "--" + name;
      var taken := TakeOption(command.options[i], inline, rest);
      Scan(Specs(command.options), [token] + rest, st)
      == if taken.Err? then Err(taken.error) else Scan(Specs(command.options), taken.value.rest, Given(st, name, taken.value.value))
  {
    var name := command.options[i].name;
    SpecOf(command, i);
    NameHasNoEquals(name);
    SplitPlain(name);
    if inline.Some? {
      SplitInline(name, inline.value);
    }
    assert CarriedOption(command, pieces, st, i);
    var token := if inline.Some? then "--" + name + "=" + inline.value else "--" + name;
    assert ([token] + rest)[1..] == rest;
  }

  /** The walk over these tokens leads from one state to the other, whatever follows. */
  predicate Walks(command: Command, tokens: seq<string>, st: State, rest: seq<string>, st': State) {
    Scan(Specs(command.options), tokens + rest, st) == Scan(Specs(command.options), rest, st')
  }

  lemma WordScanned(command: Command, token: string, st: State, rest: seq<string>)
    requires token != "--" && PieceIsWord(token)
    ensures Walks(command, [token], st, rest, st.(positionals := st.positionals + [token]))
  {
    PlainSplit(token);
    assert ([token] + rest)[1..] == rest;
  }

  lemma OptionScanned(command: Command, pieces: seq<Piece>, p: Piece, st: State, value: Value, rest: seq<string>)
    requires WellDeclared(command) && Carried(command, pieces, st) && PieceOk(command, p)
    requires !p.Word? && !Mentioned(pieces, p.option) && Says(command, p, value)
    ensures Walks(command, Tokens(command, p), st, rest, Given(st, command.options[p.option].name, value))
  {
    match p
    case Switch(i) => ScanOption(command, pieces, st, i, None, rest);
    case Inline(i, text) =>
      TakesText(command.options[i], Some(text), rest, text, value);
      ScanOption(command, pieces, st, i, Some(text), rest);
    case Pair(i, text) =>
      BehindIsRest(command, i, text, rest);
      TakesText(command.options[i], None, [text] + rest, text, value);
      ScanOption(command, pieces, st, i, None, [text] + rest);
  }

  lemma BehindIsRest(command: Command, i: nat, text: string, rest: seq<string>)
    requires i < |command.options|
    ensures ["--" + command.options[i].name, text] + rest == ["--" + command.options[i].name] + ([text] + rest)
    ensures ([text] + rest)[1..] == rest && [text] + rest != [] && ([text] + rest)[0] == text
  {
  }

  lemma PieceSays(command: Command, p: Piece) returns (value: Value)
    requires PieceOk(command, p) && !p.Word?
    ensures Says(command, p, value)
  {
    match p
    case Switch(_) => value := Flag(true);
    case Inline(i, text) => value :| Means(command.options[i], text, value);
    case Pair(i, text) => value :| Means(command.options[i], text, value);
  }

  /** The walk over one piece. */
  lemma PieceScanned(command: Command, pieces: seq<Piece>, p: Piece, st: State) returns (st': State)
    requires WellDeclared(command) && Carried(command, pieces, st)
    requires PieceOk(command, p) && (!p.Word? ==> !Mentioned(pieces, p.option))
    ensures forall rest :: Walks(command, Tokens(command, p), st, rest, st')
    ensures Carried(command, pieces + [p], st')
  {
    if p.Word? {
      st' := st.(positionals := st.positionals + [p.token]);
      WordCarried(command, pieces, st, p.token);
      forall rest
        ensures Walks(command, Tokens(command, p), st, rest, st')
      {
        WordScanned(command, p.token, st, rest);
      }
    } else {
      var value := PieceSays(command, p);
      st' := Given(st, command.options[p.option].name, value);
      OptionCarried(command, pieces, st, p, value);
      forall rest
        ensures Walks(command, Tokens(command, p), st, rest, st')
      {
        OptionScanned(command, pieces, p, st, value, rest);
      }
    }
  }

  /** One walk after another. */
  lemma WalksOn(command: Command, first: seq<string>, second: seq<string>, st: State, st1: State, st2: State, rest: seq<string>)
    requires Walks(command, first, st, second + rest, st1) && Walks(command, second, st1, rest, st2)
    ensures Walks(command, first + second, st, rest, st2)
  {
    assert (first + second) + rest == first + (second + rest);
  }

  /** The walk over any legal pieces. */
  lemma {:induction false} PiecesScanned(command: Command, pieces: seq<Piece>) returns (st: State)
    requires WellDeclared(command) && Legal(command, pieces)
    ensures forall rest :: Walks(command, Spelled(command, pieces), Blanks, rest, st)
    ensures Carried(command, pieces, st)
    decreases |pieces|
  {
    if pieces == [] {
      st := Blanks;
      assert forall rest: seq<string> :: Spelled(command, pieces) + rest == rest;
    } else {
      var n := |pieces| - 1;
      LegalFront(command, pieces);
      var before := PiecesScanned(command, pieces[..n]);
      st := PieceScanned(command, pieces[..n], pieces[n], before);
      forall rest
        ensures Walks(command, Spelled(command, pieces), Blanks, rest, st)
      {
        WalksOn(command, Spelled(command, pieces[..n]), Tokens(command, pieces[n]), Blanks, before, st, rest);
      }
    }
  }
}
