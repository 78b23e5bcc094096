/**
  Command metadata, parsed values, and the text forms the command line gives them.
 */
module CommandTypes {
  import opened Wrappers

  datatype Kind = StringOption | IntegerOption | BooleanOption

  datatype OptionSpec = OptionSpec(
    name: string,
    kind: Kind,
    required: bool,
    positive: bool,
    choices: seq<string>,
    defaultText: string)

  datatype ArgumentSpec = ArgumentSpec(name: string, required: bool, choices: seq<string>)

  datatype Command = Command(arguments: seq<ArgumentSpec>, options: seq<OptionSpec>)

  datatype Value = Text(text: string) | Number(number: int) | Flag(flag: bool)

  type Values = map<string, Value>

  function Get(values: Values, name: string): Option<Value> {
    if name in values then Some(values[name]) else None
  }

  // ----- Tokens

  predicate Lower(c: char) { 'a' <= c <= 'z' }

  predicate Digit(c: char) { '0' <= c <= '9' }

  /** A registered name: a lower-case letter, then letters, digits and hyphens. */
  predicate Token(s: string) {
    s != [] && Lower(s[0]) && forall i :: 0 <= i < |s| ==> Lower(s[i]) || Digit(s[i]) || s[i] == '-'
  }

  predicate Dashed(s: string) { |s| >= 2 && s[0] == '-' && s[1] == '-' }

  /** Where the first `=` is, or the length. */
  function Equals(s: string): (p: nat)
    ensures p <= |s| && (p < |s| ==> s[p] == '=') && forall i :: 0 <= i < p ==> s[i] != '='
  {
    if s == [] || s[0] == '=' then 0 else 1 + Equals(s[1..])
  }

  datatype Split = Split(name: string, inline: Option<string>)

  /** `splitLongOption`. */
  function SplitLongOption(token: string): Split {
    if !Dashed(token) then Split("", None)
    else
      var name := token[2..];
      var p := Equals(name);
      if p < |name| then Split(name[..p], Some(name[p + 1..])) else Split(name, None)
  }

  /** White space of `strings.TrimSpace`. */
  predicate Space(c: char) {
    || c == ' ' || '\t' <= c <= '\r' || c == '\U{85}' || c == '\U{A0}' || c == '\U{1680}' || '\U{2000}' <= c <= '\U{200A}'
    || c == '\U{2028}' || c == '\U{2029}' || c == '\U{202F}' || c == '\U{205F}' || c == '\U{3000}'
  }

  predicate Blank(s: string) { forall i :: 0 <= i < |s| ==> Space(s[i]) }

  predicate Allowed(choices: seq<string>, value: string) { choices == [] || value in choices }

  // ----- Numbers

  const Largest := 0x7FFF_FFFF_FFFF_FFFF

  predicate Fits(n: int) { -Largest - 1 <= n <= Largest }

  function DigitOf(n: nat): (c: char)
    requires n < 10
    ensures Digit(c) && DigitValue(c) == n
  {
    ('0' as int + n) as char
  }

  function ShowNat(n: nat): (s: string)
    ensures s != [] && forall i :: 0 <= i < |s| ==> Digit(s[i])
  {
    if n < 10 then [DigitOf(n)] else ShowNat(n / 10) + [DigitOf(n % 10)]
  }

  function Show(n: int): string {
    if n < 0 then "-" + ShowNat(-n) else ShowNat(n)
  }

  predicate Digits(s: string) { s != [] && forall i :: 0 <= i < |s| ==> Digit(s[i]) }

  function DigitValue(c: char): nat
    requires Digit(c)
  {
    c as int - '0' as int
  }

  function ReadNat(s: string): nat
    requires forall i :: 0 <= i < |s| ==> Digit(s[i])
  {
    if s == [] then 0 else 10 * ReadNat(s[..|s| - 1]) + DigitValue(s[|s| - 1])
  }

  datatype Reading = NotANumber | Numeral(value: int)

  /** A decimal number with an optional sign, of any size. */
  function ReadInt(s: string): Reading {
    var signed := s != [] && (s[0] == '-' || s[0] == '+');
    var digits := if signed then s[1..] else s;
    if !Digits(digits) then NotANumber
    else Numeral(if signed && s[0] == '-' then 0 - ReadNat(digits) else ReadNat(digits))
  }

  /** `strconv.Atoi` when its error is looked at. */
  function Atoi(s: string): Option<int> {
    match ReadInt(s)
    case NotANumber => None
    case Numeral(n) => if Fits(n) then Some(n) else None
  }

  /** `strconv.Atoi` when its error is ignored: zero, or the nearest number in range. */
  function AtoiAnyway(s: string): int {
    match ReadInt(s)
    case NotANumber => 0
    case Numeral(n) => if n > Largest then Largest else if n < -Largest - 1 then -Largest - 1 else n
  }

  /** `strconv.ParseBool`. */
  function ParseBool(s: string): Option<bool> {
    if s in ["1", "t", "T", "TRUE", "true", "True"] then Some(true)
    else if s in ["0", "f", "F", "FALSE", "false", "False"] then Some(false)
    else None
  }

  function Sprint(value: Value): string {
    match value
    case Text(text) => text
    case Number(number) => Show(number)
    case Flag(flag) => if flag then "true" else "false"
  }

  // ----- Facts

  lemma {:induction false} ReadShowNat(n: nat)
    ensures ReadNat(ShowNat(n)) == n
  {
    if n >= 10 {
      ReadShowNat(n / 10);
      var s := ShowNat(n);
      assert s[..|s| - 1] == ShowNat(n / 10);
    } else {
      assert ReadNat([]) == 0 && [DigitOf(n)][..0] == [];
    }
  }

  lemma ReadShow(n: int)
    ensures ReadInt(Show(n)) == Numeral(n)
  {
    var magnitude := if n < 0 then -n else n;
    ReadShowNat(magnitude);
    assert Digit(ShowNat(magnitude)[0]);
    if n < 0 {
      assert Show(n)[0] == '-' && Show(n)[1..] == ShowNat(magnitude);
    }
  }

  /** Numbers survive being printed and read. */
  lemma AtoiShow(n: int)
    requires Fits(n)
    ensures Atoi(Show(n)) == Some(n)
  {
    ReadShow(n);
  }

  lemma ShowIsPlain(n: int)
    ensures !Dashed(Show(n))
  {
    var digits := ShowNat(if n < 0 then -n else n);
    assert Digit(digits[0]);
    assert |digits| > 1 ==> Digit(digits[1]);
  }

  /** A registered name, printed as an option, is split into itself. */
  lemma SplitName(name: string)
    requires Token(name)
    ensures SplitLongOption("--" + name) == Split(name, None) && "--" + name != "--"
  {
    var token := "--" + name;
    assert token[2..] == name;
    assert Equals(name) == |name|;
  }
}
