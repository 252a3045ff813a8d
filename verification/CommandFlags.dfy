/** Command lines written out from words and flags, and what the parser makes of them. */
module CommandFlags {

  import opened Sequences
  import opened Wrappers
  import opened CommandText
  import opened CommandTokens
  import opened CommandRoundTrip
  import opened CommandParser
  import opened CommandLines

  /** A word, `--key=value`, `--key value`, or `--key` alone. */
  datatype Piece = Plain(word: string) | Equals(key: string, value: string) | Follows(key: string, value: string) | Switch(key: string)

  function Spelled(p: Piece): seq<string>
  {
    match p
    case Plain(word) => [word]
    case Equals(key, value) => ["--" + key + "=" + value]
    case Follows(key, value) => ["--" + key, value]
    case Switch(key) => ["--" + key]
  }

  function Line(pieces: seq<Piece>): seq<string>
  {
    Flat(Spelled, pieces)
  }

  /** A key has a name and no `=`; a word, or a value that follows its flag, does not look like a flag. */
  predicate KeyOk(key: string)
  {
    '=' !in key && NormalizeRoot(key) != ""
  }

  predicate PieceOk(p: Piece)
  {
    match p
    case Plain(word) => !("--" <= word) || word == "--"
    case Equals(key, _) => KeyOk(key)
    case Follows(key, value) => KeyOk(key) && !("--" <= value)
    case Switch(key) => KeyOk(key)
  }

  /** A flag that stands alone is the last piece or is followed by dashes. */
  ghost predicate LineOk(pieces: seq<Piece>)
  {
    && (forall p :: p in pieces ==> PieceOk(p))
    && (forall i :: 0 <= i < |pieces| - 1 && pieces[i].Switch? ==> "--" <= Spelled(pieces[i + 1])[0])
  }

  /** What the pieces mean: the words in order, and each key with its last value. */
  function WordsOf(pieces: seq<Piece>): seq<string>
  {
    Flat((p: Piece) => if p.Plain? then [p.word] else [], pieces)
  }

  function FlagsOf(pieces: seq<Piece>): map<string, string>
  {
    if pieces == [] then map[]
    else
      var p := pieces[|pieces| - 1];
      var before := FlagsOf(pieces[..|pieces| - 1]);
      match p
      case Plain(_) => before
      case Equals(key, value) => before[NormalizeRoot(key) := value]
      case Follows(key, value) => before[NormalizeRoot(key) := value]
      case Switch(key) => before[NormalizeRoot(key) := "true"]
  }

  // ---- one flag token ----

  lemma {:induction false} CutAfterKey(key: string, rest: string)
    requires '=' !in key && (rest == "" || rest[0] == '=')
    ensures CutAt(key + rest) == |key|
  {
    if key == "" {
      assert key + rest == rest;
    } else {
      assert (key + rest)[0] == key[0] && key[0] in key;
      assert (key + rest)[1..] == key[1..] + rest;
      CutAfterKey(key[1..], rest);
    }
  }

  lemma NamedKey(key: string)
    requires KeyOk(key)
    ensures key != ""
  {
    assert NormalizeRoot("") == "";
  }

  lemma EqualsToken(key: string, value: string)
    requires KeyOk(key)
    ensures var token := "--" + key + "=" + value;
            && Flagged(token) && Key(token) == NormalizeRoot(key) && HasValue(token) && token[2..][CutAt(token[2..]) + 1..] == value
  {
    var token, rest := "--" + key + "=" + value, "=" + value;
    NamedKey(key);
    assert token == "--" + (key + rest);
    assert token[2..] == key + rest;
    CutAfterKey(key, rest);
    assert (key + rest)[..|key|] == key && (key + rest)[|key| + 1..] == value;
  }

  lemma BareToken(key: string)
    requires KeyOk(key)
    ensures var token := "--" + key; Flagged(token) && Key(token) == NormalizeRoot(key) && !HasValue(token)
  {
    NamedKey(key);
    assert ("--" + key)[2..] == key;
    CutAfterKey(key, "");
    assert key + "" == key && key[..|key|] == key;
  }

  // ---- adding tokens at the end ----

  /** The last token does not take the first of those to come. */
  predicate Parts(args: seq<string>, more: seq<string>)
  {
    args == [] || more == [] || !TakesNext(args[|args| - 1]) || Dashed(more[0])
  }

  /** The token has the same use in both lines. */
  predicate SameAt(args: seq<string>, all: seq<string>, k: nat)
    requires k < |args| && k < |all|
  {
    && all[k] == args[k] && IsPositional(all, k) == IsPositional(args, k) && IsSetting(all, k) == IsSetting(args, k)
    && (IsSetting(args, k) ==> SettingValue(all, k) == SettingValue(args, k))
  }

  lemma {:induction false} SameSorted(args: seq<string>, all: seq<string>, n: nat)
    requires n <= |args| <= |all| && forall k :: 0 <= k < |args| ==> SameAt(args, all, k)
    ensures Positionals(all, n) == Positionals(args, n) && Flags(all, n) == Flags(args, n)
  {
    hide Positionals, Flags, SameAt;
    if n == 0 {
      NothingSorted(args);
      NothingSorted(all);
    } else {
      SameSorted(args, all, n - 1);
      assert SameAt(args, all, n - 1);
      OneMoreSame(args, all, n - 1);
    }
  }

  lemma OneMoreSame(args: seq<string>, all: seq<string>, k: nat)
    requires k < |args| <= |all| && SameAt(args, all, k)
    requires Positionals(all, k) == Positionals(args, k) && Flags(all, k) == Flags(args, k)
    ensures Positionals(all, k + 1) == Positionals(args, k + 1) && Flags(all, k + 1) == Flags(args, k + 1)
  {
    hide Positionals, Flags, IsPositional, IsSetting, SettingValue, Key, OneIf;
    OneMorePositional(args, k);
    OneMorePositional(all, k);
    OneMoreSetting(args, k);
    OneMoreSetting(all, k);
  }

  lemma MoreTokens(args: seq<string>, more: seq<string>, n: nat)
    requires n <= |args| && Parts(args, more)
    ensures Positionals(args + more, n) == Positionals(args, n) && Flags(args + more, n) == Flags(args, n)
  {
    hide Positionals, Flags, IsPositional, IsSetting, SettingValue, Key, Parts;
    forall k | 0 <= k < |args| ensures SameAt(args, args + more, k) {
      SameUse(args, more, k);
      assert (args + more)[k] == args[k];
    }
    SameSorted(args, args + more, n);
  }

  lemma OneMoreSetting(args: seq<string>, k: nat)
    requires k < |args|
    ensures Flags(args, k + 1)
            == if IsSetting(args, k) then Flags(args, k)[Key(args[k]) := SettingValue(args, k)] else Flags(args, k)
  {
    hide Key, SettingValue;
  }

  lemma SameUse(args: seq<string>, more: seq<string>, k: nat)
    requires k < |args| && Parts(args, more)
    ensures IsPositional(args + more, k) == IsPositional(args, k) && IsSetting(args + more, k) == IsSetting(args, k)
    ensures IsSetting(args, k) ==> SettingValue(args + more, k) == SettingValue(args, k)
  {
    assert forall i :: 0 <= i < |args| ==> (args + more)[i] == args[i];
    hide Key, CutAt;
  }

  /** One more token, at the end. */
  lemma TokenAdded(args: seq<string>, token: string)
    requires Parts(args, [token])
    ensures var all := args + [token];
            && Positionals(all, |all|) == Positionals(args, |args|) + (if Flagged(token) then [] else [token])
            && Flags(all, |all|)
               == if Flagged(token) && Key(token) != ""
                  then Flags(args, |args|)[Key(token) := if HasValue(token) then token[2..][CutAt(token[2..]) + 1..] else "true"]
                  else Flags(args, |args|)
  {
    var all := args + [token];
    MoreTokens(args, [token], |args|);
    OneMoreSorted(all, |args|);
    OneMorePositional(all, |args|);
    assert all[|args|] == token && !IsValue(all, |args|);
    hide Positionals, Flags, Key, CutAt;
  }

  /** A flag and the word it takes, at the end. */
  lemma PairAdded(args: seq<string>, flag: string, value: string)
    requires Parts(args, [flag]) && TakesNext(flag) && !Dashed(value)
    ensures var all := args + [flag, value];
            && Positionals(all, |all|) == Positionals(args, |args|)
            && Flags(all, |all|) == Flags(args, |args|)[Key(flag) := value]
  {
    var all := args + [flag, value];
    assert Parts(args, [flag, value]);
    MoreTokens(args, [flag, value], |args|);
    OneMoreSorted(all, |args|);
    OneMoreSorted(all, |args| + 1);
    OneMorePositional(all, |args|);
    OneMorePositional(all, |args| + 1);
    assert all[|args|] == flag && all[|args| + 1] == value;
    hide Positionals, Flags, Key, CutAt;
  }

  // ---- a whole line ----

  lemma LineGrows(pieces: seq<Piece>)
    requires pieces != []
    ensures var last := |pieces| - 1; Line(pieces) == Line(pieces[..last]) + Spelled(pieces[last])
  {}

  /** Pieces part from what comes before them. */
  lemma PiecesPart(pieces: seq<Piece>)
    requires pieces != [] && LineOk(pieces)
    ensures var last := |pieces| - 1; Parts(Line(pieces[..last]), [Spelled(pieces[last])[0]])
  {
    var init, last := pieces[..|pieces| - 1], pieces[|pieces| - 1];
    if init != [] {
      var p := init[|init| - 1];
      assert p in pieces && pieces[|init| - 1] == p;
      LineGrows(init);
      match p
      case Plain(_) =>
      case Equals(key, value) => EqualsToken(key, value);
      case Follows(_, _) =>
      case Switch(_) =>
    }
  }

  lemma {:induction false} LineSorts(pieces: seq<Piece>)
    requires LineOk(pieces)
    ensures Positionals(Line(pieces), |Line(pieces)|) == WordsOf(pieces)
    ensures Flags(Line(pieces), |Line(pieces)|) == FlagsOf(pieces)
  {
    if pieces != [] {
      var init, p := pieces[..|pieces| - 1], pieces[|pieces| - 1];
      assert p in pieces;
      assert LineOk(init);
      LineSorts(init);
      LineGrows(pieces);
      PiecesPart(pieces);
      hide Positionals, Flags, Parts, Key, CutAt, NormalizeRoot, Line;
      match p
      case Plain(word) =>
        TokenAdded(Line(init), word);
      case Equals(key, value) =>
        EqualsToken(key, value);
        TokenAdded(Line(init), "--" + key + "=" + value);
        assert WordsOf(init) + [] == WordsOf(init);
      case Follows(key, value) =>
        BareToken(key);
        PairAdded(Line(init), "--" + key, value);
        assert WordsOf(init) + [] == WordsOf(init);
      case Switch(key) =>
        BareToken(key);
        TokenAdded(Line(init), "--" + key);
        assert WordsOf(init) + [] == WordsOf(init);
    }
  }

  /** What the tokens of a name and some pieces mean: the name, the words, and the flags. */
  lemma PiecesAreRead(name: string, pieces: seq<Piece>, specs: seq<bool>)
    requires LineOk(pieces)
    ensures Meant([name] + Line(pieces), specs) == Parsed(NormalizeRoot(name), Greedy(WordsOf(pieces), specs), FlagsOf(pieces))
  {
    LineSorts(pieces);
    assert ([name] + Line(pieces))[1..] == Line(pieces);
  }

  /** A whole line, escaped word by word, is parsed back to its name, its words and its flags. */
  lemma CommandLineParsesBack(name: string, pieces: seq<Piece>, gaps: seq<string>, specs: seq<bool>)
    requires LineOk(pieces) && Trim(name) != ""
    requires var tokens := [name] + Line(pieces);
             && |gaps| == |tokens| && "" !in tokens && GapsOk(gaps)
             && !IsSpace(tokens[|tokens| - 1][|tokens[|tokens| - 1]| - 1])
    ensures ParseLine("/" + EscapedLine([name] + Line(pieces), gaps), specs)
            == Command(Parsed(NormalizeRoot(name), Greedy(WordsOf(pieces), specs), FlagsOf(pieces)))
  {
    EscapedLineReadsBackIff([name] + Line(pieces), gaps);
    PiecesAreRead(name, pieces, specs);
    hide Meant, EscapedLine, Trim, NormalizeRoot, Line, WordsOf, FlagsOf, Greedy, Tokens;
  }

  // ---- greedy arguments ----

  /** Joining puts one space between the words. */
  lemma {:induction false} JoinedIsSpaced(a: seq<string>, b: seq<string>)
    ensures JoinText([]) == "" && (|a| == 1 ==> JoinText(a) == a[0])
    ensures a != [] && b != [] ==> JoinText(a + b) == JoinText(a) + " " + JoinText(b)
    decreases |a|
  {
    if |a| > 1 && b != [] {
      JoinedIsSpaced(a[1..], b);
      assert (a + b)[1..] == a[1..] + b;
    } else if |a| == 1 && b != [] {
      assert (a + b)[1..] == b;
    }
  }

  /** The first greedy argument takes the rest of the words; those before it stay. */
  lemma {:induction false} GreedyIsExact(args: seq<string>, specs: seq<bool>, i: nat)
    requires i <= |specs| && (forall j :: 0 <= j < i ==> !specs[j]) && (i < |specs| ==> specs[i])
    ensures Greedy(args, specs) == if i < |specs| && i < |args| then args[..i] + [JoinText(args[i..])] else args
  {
    GreedyAt(specs, i);
  }

  lemma {:induction false} GreedyAt(specs: seq<bool>, i: nat)
    requires i <= |specs| && (forall j :: 0 <= j < i ==> !specs[j]) && (i < |specs| ==> specs[i])
    ensures FirstGreedy(specs) == i
    decreases i
  {
    if i > 0 {
      GreedyAt(specs[1..], i - 1);
    }
  }
}
