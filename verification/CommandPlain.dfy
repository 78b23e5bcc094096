/**
  Values that come back were printed with plain positional tokens: a token that looks like an
  option or ends the options is never read as the argument it was printed for.
 */
module CommandPlain {
  import opened CommandTypes
  import opened CommandParser
  import opened CommandPrinter
  import opened CommandRoundTrip

  /** A printed option that needs the next token as its value. */
  ghost predicate NeedsNext(specs: map<string, OptionSpec>, token: string) {
    exists name :: Token(name) && token == "--" + name && name in specs && !specs[name].kind.BooleanOption?
  }

  // ----- What a walk that keeps such a token must look like

  /** The walk ended at a terminator at `k - 1`, everything after it is positional, and no option waited for it. */
  ghost predicate EndsAt(specs: map<string, OptionSpec>, args: seq<string>, kept: seq<string>, k: nat) {
    && 1 <= k <= |args| && args[k - 1] == "--" && kept == args[k..]
    && (k >= 2 ==> !NeedsNext(specs, args[k - 2]))
  }

  lemma EndsLater(specs: map<string, OptionSpec>, args: seq<string>, n: nat, kept: seq<string>, k: nat)
    requires 1 <= n <= |args| && EndsAt(specs, args[n..], kept, k) && (k == 1 ==> !NeedsNext(specs, args[n - 1]))
    ensures EndsAt(specs, args, kept, n + k)
  {
    assert args[n..][k..] == args[n + k..];
    assert k >= 2 ==> args[n..][k - 2] == args[n + k - 2];
  }

  lemma DashedNotValue(specs: map<string, OptionSpec>, token: string)
    requires NeedsNext(specs, token)
    ensures Dashed(token)
  {
  }

  /** An option that was read without taking a token after it did not need one. */
  lemma NothingTaken(specs: map<string, OptionSpec>, token: string, rest: seq<string>)
    requires SplitLongOption(token).name in specs
    requires
      var split := SplitLongOption(token);
      var taken := TakeOption(specs[split.name], split.inline, rest);
      taken.Ok? && taken.value.rest == rest
    ensures !NeedsNext(specs, token)
  {
    if NeedsNext(specs, token) {
      var name :| Token(name) && token == "--" + name && name in specs && !specs[name].kind.BooleanOption?;
      SplitName(name);
      assert false;
    }
  }

  /** A walk whose first kept token is not plain has ended the options before it. */
  lemma {:induction false} KeptAfterEnd(specs: map<string, OptionSpec>, args: seq<string>, st: State, kept: seq<string>) returns (k: nat)
    requires Scan(specs, args, st).Ok? && Scan(specs, args, st).value.positionals == st.positionals + kept
    requires kept != [] && !Plain(kept[0])
    ensures EndsAt(specs, args, kept, k)
    decreases |args|
  {
    k := 1;
    if args == [] {
      assert false;
    } else if args[0] == "--" {
      assert (st.positionals + kept)[|st.positionals|..] == kept && (st.positionals + args[1..])[|st.positionals|..] == args[1..];
    } else {
      var split := SplitLongOption(args[0]);
      if split.name == "" {
        KeepsPositional(specs, args[1..], st.(positionals := st.positionals + [args[0]]));
        FirstKept(st.positionals, args[0], kept);
        assert false;
      } else {
        var taken := TakeOption(specs[split.name], split.inline, args[1..]).value;
        var n := |args| - |taken.rest|;
        assert taken.rest == args[n..] && (n == 1 || n == 2);
        var m := KeptAfterEnd(specs, taken.rest, Given(st, split.name, taken.value), kept);
        if n == 1 {
          NothingTaken(specs, args[0], args[1..]);
        } else if NeedsNext(specs, args[1]) {
          DashedNotValue(specs, args[1]);
        }
        EndsLater(specs, args, n, kept, m);
        k := n + m;
      }
    }
  }

  lemma FirstKept(before: seq<string>, token: string, kept: seq<string>)
    requires before + [token] <= before + kept
    ensures kept != [] && kept[0] == token
  {
    assert (before + [token])[|before|] == (before + kept)[|before|];
  }

  /** Positional tokens once collected stay in front. */
  lemma {:induction false} KeepsPositional(specs: map<string, OptionSpec>, args: seq<string>, st: State)
    requires Scan(specs, args, st).Ok?
    ensures st.positionals <= Scan(specs, args, st).value.positionals
    decreases |args|
  {
    if args != [] && args[0] != "--" {
      var split := SplitLongOption(args[0]);
      if split.name == "" {
        KeepsPositional(specs, args[1..], st.(positionals := st.positionals + [args[0]]));
      } else {
        var taken := TakeOption(specs[split.name], split.inline, args[1..]).value;
        KeepsPositional(specs, taken.rest, Given(st, split.name, taken.value));
      }
    }
  }

  // ----- The printed options hold no such terminator

  lemma {:induction false} TerminatorIsValue(specs: map<string, OptionSpec>, options: seq<OptionSpec>, values: Values, x: nat)
    requires forall i :: 0 <= i < |options| ==>
               Token(options[i].name) && options[i].name in specs && specs[options[i].name] == options[i]
    requires x < |PrintOptions(options, values)| && PrintOptions(options, values)[x] == "--"
    ensures x >= 1 && NeedsNext(specs, PrintOptions(options, values)[x - 1])
    decreases |options|
  {
    var first, rest := PrintOption(options[0], values), PrintOptions(options[1..], values);
    SplitName(options[0].name);
    if x < |first| {
      assert x == 1;
      assert PrintOptions(options, values)[0] == "--" + options[0].name;
    } else {
      TerminatorIsValue(specs, options[1..], values, x - |first|);
      assert PrintOptions(options, values)[x - 1] == rest[x - |first| - 1];
    }
  }

  /** In a sequence that repeats itself every `k`, what is at `j` is also among the last `k`, with what is before it. */
  lemma {:induction false} AmongTheLast(w: seq<string>, k: nat, m: nat, j: nat) returns (y: nat)
    requires k >= 1 && |w| == m + k && j < m + k && forall i :: 0 <= i < m ==> w[i + k] == w[i]
    ensures m <= y < m + k && w[y] == w[j] && (j >= 1 ==> y >= 1 && w[y - 1] == w[j - 1])
    decreases m + k - j
  {
    if j >= m {
      y := j;
    } else {
      y := AmongTheLast(w, k, m, j + k);
      assert j >= 1 ==> w[j - 1 + k] == w[j - 1];
    }
  }

  lemma Repeats(w: seq<string>, m: nat, k: nat)
    requires k <= |w| && m <= |w| && w[..m] == w[k..]
    ensures |w| == m + k && forall i :: 0 <= i < m ==> w[i + k] == w[i]
  {
    forall i | 0 <= i < m
      ensures w[i + k] == w[i]
    {
      assert w[k..][i] == w[i + k] && w[..m][i] == w[i];
    }
  }

  /** Printed tokens cannot be kept behind a terminator among themselves: it would have to be an option's value. */
  lemma NoSuchEnd(specs: map<string, OptionSpec>, options: seq<OptionSpec>, values: Values, tokens: seq<string>, k: nat)
    requires forall i :: 0 <= i < |options| ==>
               Token(options[i].name) && options[i].name in specs && specs[options[i].name] == options[i]
    ensures !EndsAt(specs, tokens + PrintOptions(options, values), tokens, k)
  {
    var printed := PrintOptions(options, values);
    var w, m := tokens + printed, |tokens|;
    if EndsAt(specs, w, tokens, k) {
      assert w[..m] == tokens;
      Repeats(w, m, k);
      var y := AmongTheLast(w, k, m, k - 1);
      assert w[y] == printed[y - m] && (y > m ==> w[y - 1] == printed[y - m - 1]);
      TerminatorIsValue(specs, options, values, y - m);
      assert false;
    }
  }

  /** Tokens that the walk keeps as they were printed, in front of printed options, are plain. */
  lemma FirstKeptIsPlain(specs: map<string, OptionSpec>, options: seq<OptionSpec>, values: Values, tokens: seq<string>, st: State)
    requires forall i :: 0 <= i < |options| ==>
               Token(options[i].name) && options[i].name in specs && specs[options[i].name] == options[i]
    requires tokens != [] && Scan(specs, tokens + PrintOptions(options, values), st).Ok?
    requires Scan(specs, tokens + PrintOptions(options, values), st).value.positionals == st.positionals + tokens
    ensures Plain(tokens[0])
  {
    if !Plain(tokens[0]) {
      var k := KeptAfterEnd(specs, tokens + PrintOptions(options, values), st, tokens);
      NoSuchEnd(specs, options, values, tokens, k);
    }
  }

  lemma {:induction false} KeptArePlain(specs: map<string, OptionSpec>, options: seq<OptionSpec>, values: Values, tokens: seq<string>, st: State)
    requires forall i :: 0 <= i < |options| ==>
               Token(options[i].name) && options[i].name in specs && specs[options[i].name] == options[i]
    requires Scan(specs, tokens + PrintOptions(options, values), st).Ok?
    requires Scan(specs, tokens + PrintOptions(options, values), st).value.positionals == st.positionals + tokens
    ensures forall i :: 0 <= i < |tokens| ==> Plain(tokens[i])
    decreases |tokens|
  {
    if tokens != [] {
      FirstKeptIsPlain(specs, options, values, tokens, st);
      var rest := tokens[1..] + PrintOptions(options, values);
      assert (tokens + PrintOptions(options, values))[1..] == rest;
      var st' := st.(positionals := st.positionals + [tokens[0]]);
      assert st'.positionals + tokens[1..] == st.positionals + tokens;
      KeptArePlain(specs, options, values, tokens[1..], st');
    }
  }
}
