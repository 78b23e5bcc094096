/**
  What the text of an option means, without the program's readers: the texts of the two booleans,
  the numerals of an integer, and when a text is a value at all.
 */
module CommandMeaning {
  import opened Wrappers
  import opened CommandTypes
  import opened CommandParser

  // ----- Texts

  predicate MeansTrue(s: string) { s == "1" || s == "t" || s == "T" || s == "TRUE" || s == "true" || s == "True" }

  predicate MeansFalse(s: string) { s == "0" || s == "f" || s == "F" || s == "FALSE" || s == "false" || s == "False" }

  lemma BooleanTexts(s: string)
    ensures ParseBool(s) == Some(true) <==> MeansTrue(s)
    ensures ParseBool(s) == Some(false) <==> MeansFalse(s)
  {
  }

  const White: string :=
    "\t\n\U{0B}\U{0C}\r \U{85}\U{A0}\U{1680}\U{2000}\U{2001}\U{2002}\U{2003}\U{2004}\U{2005}\U{2006}\U{2007}\U{2008}\U{2009}\U{200A}\U{2028}\U{2029}\U{202F}\U{205F}\U{3000}"

  /** There is something to see in it. */
  predicate HasInk(s: string) { exists i :: 0 <= i < |s| && s[i] !in White }

  lemma WhiteSpace(c: char)
    ensures Space(c) <==> c in White
  {
  }

  lemma InkIsNotBlank(s: string)
    ensures HasInk(s) <==> !Blank(s)
  {
    forall i | 0 <= i < |s|
      ensures Space(s[i]) <==> s[i] in White
    {
      WhiteSpace(s[i]);
    }
  }

  const Letters := "abcdefghijklmnopqrstuvwxyz"

  const Figures := "0123456789"

  lemma LetterCharacters(c: char)
    ensures Lower(c) <==> c in Letters
  {
  }

  lemma FigureCharacters(c: char)
    ensures Digit(c) <==> c in Figures
  {
  }

  /** A registered name: a small Latin letter, then small Latin letters, Arabic digits and hyphens. */
  lemma NameCharacters(s: string)
    ensures Token(s) <==>
            && s != [] && s[0] in Letters
            && forall i :: 0 <= i < |s| ==> s[i] in Letters || s[i] in Figures || s[i] == '-'
  {
    forall i | 0 <= i < |s|
      ensures (Lower(s[i]) <==> s[i] in Letters) && (Digit(s[i]) <==> s[i] in Figures)
    {
      LetterCharacters(s[i]);
      FigureCharacters(s[i]);
    }
  }

  // ----- Numerals

  function Zeros(k: nat): string { seq(k, i => '0') }

  datatype Sign = Unsigned | Plus | Minus

  function Marked(sign: Sign, digits: string): string {
    match sign
    case Unsigned => digits
    case Plus => "+" + digits
    case Minus => "-" + digits
  }

  /** The number in decimal, after a sign, if any, and so many zeros. */
  predicate WritesWith(text: string, n: int, sign: Sign, k: nat) {
    && text == Marked(sign, Zeros(k) + ShowNat(if n < 0 then -n else n))
    && (n < 0 ==> sign.Minus?) && (n > 0 ==> !sign.Minus?)
  }

  ghost predicate Writes(text: string, n: int) { exists sign, k :: WritesWith(text, n, sign, k) }

  lemma ZerosMore(k: nat)
    ensures Zeros(k + 1) == Zeros(k) + "0"
  {
  }

  lemma {:induction false} ReadZeros(k: nat, m: nat)
    ensures Digits(Zeros(k) + ShowNat(m)) && ReadNat(Zeros(k) + ShowNat(m)) == m
    decreases m, k
  {
    var s := Zeros(k) + ShowNat(m);
    if m >= 10 {
      ReadZeros(k, m / 10);
      assert s[..|s| - 1] == Zeros(k) + ShowNat(m / 10);
    } else {
      assert s[..|s| - 1] == Zeros(k);
      if k > 0 {
        ReadZeros(k - 1, 0);
        assert Zeros(k) == Zeros(k - 1) + ShowNat(0);
      }
    }
  }

  lemma DigitBack(c: char)
    requires Digit(c)
    ensures DigitValue(c) < 10 && DigitOf(DigitValue(c)) == c
  {
  }

  /** One digit more, behind a number that is written without or with zeros. */
  lemma ShowMore(m: nat, v: nat)
    requires v < 10
    ensures ShowNat(10 * m + v) == if m == 0 then [DigitOf(v)] else ShowNat(m) + [DigitOf(v)]
  {
    assert (10 * m + v) / 10 == m && (10 * m + v) % 10 == v;
  }

  /** Every string of digits is such a numeral. */
  lemma {:induction false} DigitsShow(d: string) returns (k: nat)
    requires Digits(d)
    ensures d == Zeros(k) + ShowNat(ReadNat(d))
    decreases |d|
  {
    var n := |d| - 1;
    var front, c := d[..n], d[n];
    DigitBack(c);
    ShowMore(ReadNat(front), DigitValue(c));
    assert d == front + [c];
    k := 0;
    if n > 0 {
      k := DigitsShow(front);
      if ReadNat(front) == 0 {
        ZerosMore(k);
        k := k + 1;
      }
    }
  }

  lemma ReadMarked(sign: Sign, digits: string)
    requires Digits(digits)
    ensures ReadInt(Marked(sign, digits)) == Numeral(if sign.Minus? then 0 - ReadNat(digits) else ReadNat(digits))
  {
    assert Digit(digits[0]);
    if !sign.Unsigned? {
      assert Marked(sign, digits)[1..] == digits;
    }
  }

  lemma WrittenIsRead(text: string, n: int, sign: Sign, k: nat)
    requires WritesWith(text, n, sign, k)
    ensures ReadInt(text) == Numeral(n)
  {
    var m := if n < 0 then -n else n;
    var digits := Zeros(k) + ShowNat(m);
    assert Digits(digits) && ReadNat(digits) == m by {
      ReadZeros(k, m);
    }
    ReadMarked(sign, digits);
  }

  function SignOf(text: string): Sign {
    if text == [] then Unsigned else if text[0] == '-' then Minus else if text[0] == '+' then Plus else Unsigned
  }

  function Unmarked(text: string): string { if SignOf(text).Unsigned? then text else text[1..] }

  lemma MarkedAgain(text: string)
    ensures text == Marked(SignOf(text), Unmarked(text))
    ensures ReadInt(text) ==
            if !Digits(Unmarked(text)) then NotANumber
            else Numeral(if SignOf(text).Minus? then 0 - ReadNat(Unmarked(text)) else ReadNat(Unmarked(text)))
  {
  }

  lemma NumberWritten(sign: Sign, digits: string, n: int, k: nat)
    requires Digits(digits) && n == (if sign.Minus? then 0 - ReadNat(digits) else ReadNat(digits))
    requires digits == Zeros(k) + ShowNat(ReadNat(digits))
    ensures WritesWith(Marked(sign, digits), n, sign, k)
  {
  }

  lemma ReadIsWritten(text: string) returns (sign: Sign, k: nat)
    requires ReadInt(text).Numeral?
    ensures WritesWith(text, ReadInt(text).value, sign, k)
  {
    MarkedAgain(text);
    sign := SignOf(text);
    k := DigitsShow(Unmarked(text));
    NumberWritten(sign, Unmarked(text), ReadInt(text).value, k);
  }

  lemma NumeralExactly(text: string, n: int)
    ensures ReadInt(text) == Numeral(n) <==> Writes(text, n)
  {
    if ReadInt(text) == Numeral(n) {
      var sign, k := ReadIsWritten(text);
    }
    forall sign, k | WritesWith(text, n, sign, k)
      ensures ReadInt(text) == Numeral(n)
    {
      WrittenIsRead(text, n, sign, k);
    }
  }

  lemma OneNumeral(text: string, m: int, n: int)
    requires Writes(text, m) && Writes(text, n)
    ensures m == n
  {
    NumeralExactly(text, m);
    NumeralExactly(text, n);
  }

  // ----- Values

  /** The text is one of the choices, if there are any. */
  predicate Chosen(choices: seq<string>, text: string) {
    choices == [] || exists i :: 0 <= i < |choices| && choices[i] == text
  }

  ghost predicate Means(spec: OptionSpec, text: string, value: Value) {
    match spec.kind
    case BooleanOption => (value == Flag(true) && MeansTrue(text)) || (value == Flag(false) && MeansFalse(text))
    case IntegerOption =>
      && value.Number? && Writes(text, value.number)
      && -9223372036854775808 <= value.number <= 9223372036854775807 && (spec.positive ==> value.number >= 1)
    case StringOption => value == Text(text) && HasInk(text) && Chosen(spec.choices, text)
  }

  lemma ReadsMeaning(spec: OptionSpec, text: string, value: Value)
    requires !spec.kind.BooleanOption?
    ensures ReadValue(spec, text) == Ok(value) <==> Means(spec, text, value)
  {
    InkIsNotBlank(text);
    if spec.kind.IntegerOption? {
      if value.Number? {
        NumeralExactly(text, value.number);
      }
      if ReadInt(text).Numeral? {
        NumeralExactly(text, ReadInt(text).value);
      }
    }
  }

  /** What an option that was not given is set to. */
  ghost predicate DefaultMeans(spec: OptionSpec, value: Option<Value>) {
    if spec.defaultText == "" then value == None
    else match spec.kind
      case StringOption => value == Some(Text(spec.defaultText))
      case BooleanOption => value == Some(Flag(spec.defaultText == "true"))
      case IntegerOption => value.Some? && value.value.Number? && Nearest(spec.defaultText, value.value.number)
  }

  /** The number the text writes, or the nearest of 64 bits, or zero if it writes none. */
  ghost predicate Nearest(text: string, n: int) {
    if exists m: int :: Writes(text, m) then
      exists m: int ::
        Writes(text, m) && n == if m > 9223372036854775807 then 9223372036854775807
                                else if m < -9223372036854775808 then -9223372036854775808 else m
    else n == 0
  }

  lemma NearestExactly(text: string, n: int)
    ensures AtoiAnyway(text) == n <==> Nearest(text, n)
  {
    match ReadInt(text)
    case Numeral(m) =>
      NumeralExactly(text, m);
      forall other: int | Writes(text, other)
        ensures other == m
      {
        OneNumeral(text, m, other);
      }
    case NotANumber =>
      forall other: int
        ensures !Writes(text, other)
      {
        NumeralExactly(text, other);
      }
  }

  lemma DefaultExactly(spec: OptionSpec, value: Option<Value>)
    ensures DefaultOf(spec) == value <==> DefaultMeans(spec, value)
  {
    NearestExactly(spec.defaultText, AtoiAnyway(spec.defaultText));
    if value.Some? && value.value.Number? {
      NearestExactly(spec.defaultText, value.value.number);
    }
  }
}
