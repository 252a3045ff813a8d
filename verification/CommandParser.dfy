/** Parsing a command line into a name, positional arguments and flags. */
module CommandParser {

  import opened Sequences
  import opened Wrappers
  import opened CommandText
  import opened CommandTokens
  import opened CommandRoundTrip

  datatype Parsed = Parsed(name: string, args: seq<string>, flags: map<string, string>)

  datatype ParseError = Unterminated | NameRequired

  datatype Outcome = NotACommand | Failed(error: ParseError) | Command(parsed: Parsed)

  // ---- what each token is for, decided by the token and its neighbours alone ----

  predicate Dashed(token: string)
  {
    "--" <= token
  }

  predicate Flagged(token: string)
  {
    Dashed(token) && |token| > 2
  }

  /** Where the first `=` is, or the length. */
  function CutAt(s: string): (n: nat)
    ensures n <= |s|
  {
    if s == "" || s[0] == '=' then 0 else 1 + CutAt(s[1..])
  }

  function Key(token: string): string
    requires Flagged(token)
  {
    NormalizeRoot(token[2..][..CutAt(token[2..])])
  }

  predicate HasValue(token: string)
    requires Flagged(token)
  {
    CutAt(token[2..]) < |token| - 2
  }

  /** A flag that takes the next token as its value if that one does not begin with dashes. */
  predicate TakesNext(token: string)
  {
    Flagged(token) && Key(token) != "" && !HasValue(token)
  }

  predicate IsValue(args: seq<string>, k: nat)
    requires k < |args|
  {
    k > 0 && TakesNext(args[k - 1]) && !Dashed(args[k])
  }

  predicate IsSetting(args: seq<string>, k: nat)
    requires k < |args|
  {
    Flagged(args[k]) && Key(args[k]) != ""
  }

  /** A flag without a name: it is read and dropped. */
  predicate IsDropped(args: seq<string>, k: nat)
    requires k < |args|
  {
    Flagged(args[k]) && Key(args[k]) == ""
  }

  predicate IsPositional(args: seq<string>, k: nat)
    requires k < |args|
  {
    !Flagged(args[k]) && !IsValue(args, k)
  }

  function SettingValue(args: seq<string>, k: nat): string
    requires k < |args| && IsSetting(args, k)
  {
    var raw := args[k][2..];
    if HasValue(args[k]) then raw[CutAt(raw) + 1..]
    else if k + 1 < |args| && IsValue(args, k + 1) then args[k + 1]
    else "true"
  }

  function OneIf<T>(chosen: bool, x: T): seq<T>
  {
    if chosen then [x] else []
  }

  function Positionals(args: seq<string>, n: nat): seq<string>
    requires n <= |args|
  {
    if n == 0 then []
    else Positionals(args, n - 1) + OneIf(IsPositional(args, n - 1), args[n - 1])
  }

  function Flags(args: seq<string>, n: nat): map<string, string>
    requires n <= |args|
  {
    if n == 0 then map[]
    else if IsSetting(args, n - 1) then Flags(args, n - 1)[Key(args[n - 1]) := SettingValue(args, n - 1)]
    else Flags(args, n - 1)
  }

  // ---- greedy arguments ----

  function JoinText(words: seq<string>): string
  {
    if words == [] then "" else if |words| == 1 then words[0] else words[0] + " " + JoinText(words[1..])
  }

  /** The index of the first greedy argument, or the number of arguments specified. */
  function FirstGreedy(specs: seq<bool>): (i: nat)
    ensures i <= |specs|
  {
    if specs == [] || specs[0] then 0 else 1 + FirstGreedy(specs[1..])
  }

  function Greedy(args: seq<string>, specs: seq<bool>): seq<string>
  {
    var i := FirstGreedy(specs);
    if i < |specs| && i < |args| then args[..i] + [JoinText(args[i..])] else args
  }

  method ApplyGreedyArgs(args: seq<string>, specs: seq<bool>) returns (out: seq<string>)
    ensures out == Greedy(args, specs)
  {
    out := args;
    var i := 0;
    while i < |specs|
      invariant 0 <= i <= |specs|
      invariant out == args
      invariant FirstGreedy(specs) == i + FirstGreedy(specs[i..])
    {
      if specs[i] {
        if i >= |out| {
          return;
        }
        out := out[..i] + [JoinText(out[i..])];
        return;
      }
      i := i + 1;
    }
  }

  // ---- the parser ----

  datatype Flag = Flag(key: string, value: string, consumedNext: bool)

  function ParseFlag(raw: string, tokens: seq<string>, index: nat): Flag
  {
    var cut := CutAt(raw);
    var key := NormalizeRoot(raw[..cut]);
    if key == "" then Flag("", "", false)
    else if cut < |raw| then Flag(key, raw[cut + 1..], false)
    else if index + 1 < |tokens| && !Dashed(tokens[index + 1]) then Flag(key, tokens[index + 1], true)
    else Flag(key, "true", false)
  }

  function Meant(tokens: seq<string>, specs: seq<bool>): Parsed
    requires tokens != []
  {
    var args := tokens[1..];
    Parsed(NormalizeRoot(tokens[0]), Greedy(Positionals(args, |args|), specs), Flags(args, |args|))
  }

  function ParseTokens(read: Result<seq<string>, TokenError>, specs: seq<bool>): Outcome
  {
    match read
    case Err(_) => Failed(Unterminated)
    case Ok(tokens) =>
      if tokens == [] || Trim(tokens[0]) == "" then Failed(NameRequired) else Command(Meant(tokens, specs))
  }

  /** What a line means: nothing unless it begins with a slash, otherwise its tokens sorted by use. */
  function ParseLine(input: string, specs: seq<bool>): Outcome
  {
    if "/" <= Trim(input) then ParseTokens(Tokens(Trim(input)[1..]), specs) else NotACommand
  }

  method SortTokens(tokens: seq<string>) returns (positionals: seq<string>, flags: map<string, string>)
    requires tokens != []
    ensures positionals == Positionals(tokens[1..], |tokens| - 1)
    ensures flags == Flags(tokens[1..], |tokens| - 1)
  {
    ghost var args := tokens[1..];
    positionals, flags := [], map[];
    var i := 1;
    hide Positionals, Flags, IsValue, IsPositional, ParseFlag, Key, SettingValue, CutAt;
    NothingSorted(args);
    while i < |tokens|
      invariant 1 <= i <= |tokens|
      invariant positionals == Positionals(args, i - 1) && flags == Flags(args, i - 1)
      invariant i < |tokens| ==> !IsValue(args, i - 1)
    {
      var token := tokens[i];
      if Dashed(token) && |token| > 2 {
        var flag := ParseFlag(token[2..], tokens, i);
        FlagSorted(tokens, i);
        if flag.key != "" {
          flags := flags[flag.key := flag.value];
        }
        if flag.consumedNext {
          i := i + 1;
        }
      } else {
        WordSorted(tokens, i);
        positionals := positionals + [token];
      }
      i := i + 1;
    }
  }

  lemma NothingSorted(args: seq<string>)
    ensures Positionals(args, 0) == [] && Flags(args, 0) == map[] && (args != [] ==> !IsValue(args, 0))
  {}

  /** What a word that is no flag adds. */
  lemma WordSorted(tokens: seq<string>, i: nat)
    requires 1 <= i < |tokens| && !Flagged(tokens[i]) && !IsValue(tokens[1..], i - 1)
    ensures var args := tokens[1..];
            && Positionals(args, i) == Positionals(args, i - 1) + [tokens[i]] && Flags(args, i) == Flags(args, i - 1)
            && (i < |args| ==> !IsValue(args, i))
  {
    hide Key, SettingValue;
  }

  /** What a flag adds, with the value it takes from the next token. */
  lemma FlagSorted(tokens: seq<string>, i: nat)
    requires 1 <= i < |tokens| && Flagged(tokens[i])
    ensures var args, flag := tokens[1..], ParseFlag(tokens[i][2..], tokens, i);
            var next := if flag.consumedNext then i + 1 else i;
            && next <= |args| && Positionals(args, next) == Positionals(args, i - 1)
            && Flags(args, next) == (if flag.key != "" then Flags(args, i - 1)[flag.key := flag.value] else Flags(args, i - 1))
            && (next < |args| ==> !IsValue(args, next))
  {
    hide Key, SettingValue, ParseFlag, IsValue, IsPositional, Positionals, Flags;
    var args, flag := tokens[1..], ParseFlag(tokens[i][2..], tokens, i);
    FlagAt(tokens, i);
    OneMoreSorted(args, i - 1);
    if flag.consumedNext {
      OneMoreSorted(args, i);
    }
  }

  lemma OneMoreSorted(args: seq<string>, k: nat)
    requires k < |args|
    ensures !IsPositional(args, k) ==> Positionals(args, k + 1) == Positionals(args, k)
    ensures !IsSetting(args, k) ==> Flags(args, k + 1) == Flags(args, k)
    ensures IsSetting(args, k) ==> Flags(args, k + 1) == Flags(args, k)[Key(args[k]) := SettingValue(args, k)]
  {
    hide Key, Flagged, SettingValue, IsPositional;
  }

  lemma FlagAt(tokens: seq<string>, i: nat)
    requires 1 <= i < |tokens| && Flagged(tokens[i])
    ensures var args, flag := tokens[1..], ParseFlag(tokens[i][2..], tokens, i);
            && (flag.key != "" <==> IsSetting(args, i - 1))
            && (flag.key != "" ==> flag.key == Key(args[i - 1]) && flag.value == SettingValue(args, i - 1))
            && (flag.consumedNext <==> i < |args| && IsValue(args, i))
            && !IsPositional(args, i - 1)
            && (flag.consumedNext ==> !IsSetting(args, i) && !IsPositional(args, i)
                                      && (i + 1 < |args| ==> !IsValue(args, i + 1)))
  {}

  method Parse(input: string, specs: seq<bool>) returns (outcome: Outcome)
    ensures outcome == ParseLine(input, specs)
  {
    hide Positionals, Flags, Greedy, Trim, NormalizeRoot, Tokens;
    var line := Trim(input);
    if !("/" <= line) {
      return NotACommand;
    }
    var read := ReadTokens(line[1..]);
    if read.Err? {
      return Failed(Unterminated);
    }
    var tokens := read.value;
    if |tokens| == 0 || Trim(tokens[0]) == "" {
      return Failed(NameRequired);
    }
    var positionals, flags := SortTokens(tokens);
    var args := ApplyGreedyArgs(positionals, specs);
    outcome := Command(Parsed(NormalizeRoot(tokens[0]), args, flags));
  }

  // ---- every token is used once ----

  /** What a token that is no positional argument is for. */
  datatype Use = AsValue | AsSetting | AsDropped

  predicate UsedAs(args: seq<string>, k: nat, use: Use)
    requires k < |args|
  {
    match use
    case AsValue => IsValue(args, k)
    case AsSetting => IsSetting(args, k)
    case AsDropped => IsDropped(args, k)
  }

  function Chosen(args: seq<string>, n: nat, use: Use): seq<string>
    requires n <= |args|
  {
    if n == 0 then [] else Chosen(args, n - 1, use) + OneIf(UsedAs(args, n - 1, use), args[n - 1])
  }

  lemma EachTokenHasOneUse(args: seq<string>, k: nat)
    requires k < |args|
    ensures IsPositional(args, k) ==> !IsValue(args, k) && !IsSetting(args, k) && !IsDropped(args, k)
    ensures !IsPositional(args, k) ==> IsValue(args, k) || IsSetting(args, k) || IsDropped(args, k)
    ensures IsValue(args, k) ==> !IsSetting(args, k) && !IsDropped(args, k) && IsSetting(args, k - 1)
                                 && SettingValue(args, k - 1) == args[k]
    ensures !(IsSetting(args, k) && IsDropped(args, k))
  {}

  /** All that there is, as four parts that share nothing. */
  predicate Conserved(all: seq<string>, a: seq<string>, b: seq<string>, c: seq<string>, d: seq<string>)
  {
    multiset(all) == multiset(a) + multiset(b) + multiset(c) + multiset(d)
  }

  lemma OneMoreEach(all: seq<string>, a: seq<string>, b: seq<string>, c: seq<string>, d: seq<string>,
                    p: bool, q: bool, r: bool, s: bool, x: string)
    requires Conserved(all, a, b, c, d)
    requires p ==> !q && !r && !s
    requires !p ==> q || r || s
    requires (q ==> !r && !s) && !(r && s)
    ensures Conserved(all + [x], a + OneIf(p, x), b + OneIf(q, x), c + OneIf(r, x), d + OneIf(s, x))
  {
    assert multiset(all + [x]) == multiset(all) + multiset{x};
  }

  /** The tokens are the positional arguments, the flags, the flags' values and the dropped
      flags, each token counted once. */
  lemma {:induction false} TokensAreConserved(args: seq<string>, n: nat)
    requires n <= |args|
    ensures Conserved(args[..n], Positionals(args, n), Chosen(args, n, AsValue), Chosen(args, n, AsSetting),
                      Chosen(args, n, AsDropped))
  {
    hide Conserved, Positionals, Chosen;
    if n == 0 {
      NoTokenYet(args);
    } else {
      TokensAreConserved(args, n - 1);
      OneMoreToken(args, n - 1);
    }
  }

  lemma NoTokenYet(args: seq<string>)
    ensures Conserved(args[..0], Positionals(args, 0), Chosen(args, 0, AsValue), Chosen(args, 0, AsSetting),
                      Chosen(args, 0, AsDropped))
  {
    hide IsPositional, UsedAs, OneIf;
    assert args[..0] == [];
  }

  lemma OneUse(args: seq<string>, k: nat)
    requires k < |args|
    ensures IsPositional(args, k) ==> !UsedAs(args, k, AsValue) && !UsedAs(args, k, AsSetting) && !UsedAs(args, k, AsDropped)
    ensures !IsPositional(args, k) ==> UsedAs(args, k, AsValue) || UsedAs(args, k, AsSetting) || UsedAs(args, k, AsDropped)
    ensures UsedAs(args, k, AsValue) ==> !UsedAs(args, k, AsSetting) && !UsedAs(args, k, AsDropped)
    ensures !(UsedAs(args, k, AsSetting) && UsedAs(args, k, AsDropped))
  {
    hide IsPositional, IsValue, IsSetting, IsDropped, SettingValue;
    EachTokenHasOneUse(args, k);
  }

  lemma OneMoreOf(args: seq<string>, k: nat, use: Use)
    requires k < |args|
    ensures Chosen(args, k + 1, use) == Chosen(args, k, use) + OneIf(UsedAs(args, k, use), args[k])
  {
    hide UsedAs, OneIf;
  }

  lemma OneMorePositional(args: seq<string>, k: nat)
    requires k < |args|
    ensures Positionals(args, k + 1) == Positionals(args, k) + OneIf(IsPositional(args, k), args[k])
  {
    hide IsPositional, OneIf;
  }

  lemma OneMoreToken(args: seq<string>, k: nat)
    requires k < |args|
    requires Conserved(args[..k], Positionals(args, k), Chosen(args, k, AsValue), Chosen(args, k, AsSetting),
                       Chosen(args, k, AsDropped))
    ensures Conserved(args[..k + 1], Positionals(args, k + 1), Chosen(args, k + 1, AsValue), Chosen(args, k + 1, AsSetting),
                      Chosen(args, k + 1, AsDropped))
  {
    hide Conserved, Positionals, Chosen, IsPositional, UsedAs, OneIf;
    OneUse(args, k);
    OneMorePositional(args, k);
    OneMoreOf(args, k, AsValue);
    OneMoreOf(args, k, AsSetting);
    OneMoreOf(args, k, AsDropped);
    OneMoreEach(args[..k], Positionals(args, k), Chosen(args, k, AsValue), Chosen(args, k, AsSetting),
                Chosen(args, k, AsDropped), IsPositional(args, k), UsedAs(args, k, AsValue),
                UsedAs(args, k, AsSetting), UsedAs(args, k, AsDropped), args[k]);
    assert args[..k + 1] == args[..k] + [args[k]];
  }

  lemma {:induction false} NoneChosenIff(args: seq<string>, n: nat, use: Use)
    requires n <= |args|
    ensures Chosen(args, n, use) == [] <==> forall k :: 0 <= k < n ==> !UsedAs(args, k, use)
  {
    hide UsedAs;
    if n > 0 {
      NoneChosenIff(args, n - 1, use);
      if UsedAs(args, n - 1, use) {
        assert args[n - 1] in Chosen(args, n, use);
      }
    }
  }

  lemma NoneDroppedIff(args: seq<string>, n: nat)
    requires n <= |args|
    ensures Chosen(args, n, AsDropped) == [] <==> forall k :: 0 <= k < n && Flagged(args[k]) ==> Key(args[k]) != ""
  {
    hide Key, Chosen, Flagged;
    NoneChosenIff(args, n, AsDropped);
    assert forall k :: 0 <= k < n ==> (UsedAs(args, k, AsDropped) <==> Flagged(args[k]) && Key(args[k]) == "");
  }

  /** No token is lost exactly when no flag has an empty name, as `--=x` and `--/` have. */
  lemma NothingIsLostIff(args: seq<string>)
    ensures multiset(args)
            == multiset(Positionals(args, |args|)) + multiset(Chosen(args, |args|, AsValue))
               + multiset(Chosen(args, |args|, AsSetting))
            <==> forall k :: 0 <= k < |args| && Flagged(args[k]) ==> Key(args[k]) != ""
  {
    hide Key, Flagged, Positionals, Chosen;
    TokensAreConserved(args, |args|);
    NoneDroppedIff(args, |args|);
    assert args[..|args|] == args;
    NoneMissingIff(multiset(args), multiset(Positionals(args, |args|)) + multiset(Chosen(args, |args|, AsValue))
                                   + multiset(Chosen(args, |args|, AsSetting)), Chosen(args, |args|, AsDropped));
  }

  lemma NoneMissingIff(all: multiset<string>, kept: multiset<string>, dropped: seq<string>)
    requires all == kept + multiset(dropped)
    ensures all == kept <==> dropped == []
  {
    assert |all| == |kept| + |dropped|;
  }

  predicate Sets(args: seq<string>, k: nat, key: string)
  {
    k < |args| && IsSetting(args, k) && Key(args[k]) == key
  }

  lemma {:induction false} FlagIsSetIff(args: seq<string>, n: nat, key: string)
    requires n <= |args|
    ensures key in Flags(args, n) <==> exists k :: 0 <= k < n && Sets(args, k, key)
  {
    if n > 0 {
      FlagIsSetIff(args, n - 1, key);
      hide Key, SettingValue;
      assert key in Flags(args, n) <==> key in Flags(args, n - 1) || Sets(args, n - 1, key);
    }
  }

  /** A flag has the value of its last setting. */
  lemma {:induction false} LastSettingWins(args: seq<string>, n: nat, k: nat, key: string)
    requires k < n <= |args| && Sets(args, k, key)
    requires forall j :: k < j < n ==> !Sets(args, j, key)
    ensures key in Flags(args, n) && Flags(args, n)[key] == SettingValue(args, k)
  {
    if k < n - 1 {
      LastSettingWins(args, n - 1, k, key);
      assert !Sets(args, n - 1, key);
    }
  }

  lemma {:induction false} JoinTail(args: seq<string>, i: nat)
    requires i < |args|
    ensures JoinText(args[..i] + [JoinText(args[i..])]) == JoinText(args)
  {
    if i == 0 {
      assert args[..0] + [JoinText(args[0..])] == [JoinText(args)];
    } else {
      var out := args[..i] + [JoinText(args[i..])];
      JoinTail(args[1..], i - 1);
      assert args[1..][..i - 1] == args[1..i];
      assert args[1..][i - 1..] == args[i..];
      assert out[1..] == args[1..i] + [JoinText(args[i..])];
    }
  }

  /** A greedy argument swallows the rest of the line and changes none of its text. */
  lemma GreedyKeepsText(args: seq<string>, specs: seq<bool>)
    ensures JoinText(Greedy(args, specs)) == JoinText(args)
    ensures var i := FirstGreedy(specs); i < |specs| && i < |args| ==> |Greedy(args, specs)| == i + 1
  {
    var i := FirstGreedy(specs);
    if i < |specs| && i < |args| {
      JoinTail(args, i);
    }
  }

  /** The flag `--=x` is read and leaves nothing. */
  lemma NamelessFlagIsDropped()
    ensures Meant(["c", "--=x"], []) == Parsed("c", [], map[])
    ensures multiset(["--=x"]) != multiset(Positionals(["--=x"], 1)) + multiset(Chosen(["--=x"], 1, AsValue))
                                  + multiset(Chosen(["--=x"], 1, AsSetting))
  {
    var args := ["--=x"];
    assert ["c", "--=x"][1..] == args;
    assert args[0][2..] == "=x" && CutAt("=x") == 0;
    TrimFixed("");
    TrimFixed("c");
    LowerFixed("c");
    assert NormalizeRoot("") == "" && NormalizeRoot("c") == "c";
    assert IsDropped(args, 0);
    hide Key, NormalizeRoot;
    assert Positionals(args, 0) == [] && Flags(args, 0) == map[];
    NothingIsLostIff(args);
  }
}
