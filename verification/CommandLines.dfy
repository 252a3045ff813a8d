/** Escaped command lines through the whole parser. */
module CommandLines {

  import opened Sequences
  import opened Wrappers
  import opened CommandText
  import opened CommandTokens
  import opened CommandRoundTrip
  import opened CommandParser

  lemma TrimLine(body: string, c: char)
    ensures IsSpace(c) ==> Trim("/" + (body + ['\\', c])) == "/" + (body + "\\")
    ensures !IsSpace(c) ==> Trim("/" + (body + ['\\', c])) == "/" + (body + ['\\', c])
  {
    var text := "/" + (body + ['\\', c]);
    assert TrimLeft(text) == text;
    if IsSpace(c) {
      var rest := "/" + (body + "\\");
      assert text == rest + [c];
      assert text[..|text| - 1] == rest;
      assert TrimRight(rest) == rest;
    }
  }

  lemma EscapedLineEnds(words: seq<string>, gaps: seq<string>)
    requires |gaps| == |words| > 0 && "" !in words
    ensures var w := words[|words| - 1];
            w != "" && |EscapedLine(words, gaps)| >= 2
            && EscapedLine(words, gaps)
               == EscapedLine(words, gaps)[..|EscapedLine(words, gaps)| - 2] + ['\\', w[|w| - 1]]
  {
    var w := words[|words| - 1];
    assert w in words;
  }

  /** The same text with another last letter has another last word. */
  lemma LastLetterMatters(items: seq<Item>, c: char)
    requires c != '\\'
    ensures Meaning(items + [Loose(Escaped(c))], false) != Meaning(items, true)
  {
    var marks := ItemsMarks(items);
    FlatOne(ItemMarks, items, Loose(Escaped(c)));
    assert ItemsMarks(items + [Loose(Escaped(c))]) + [] == marks + [Letter(c)];
    SplitOne(marks, Letter(c));
    SplitOne(marks, Letter('\\'));
    var (done, word) := Split(marks);
    assert (word + [c])[|word|] != (word + ['\\'])[|word|];
    assert (done + [word + [c]])[|done|] != (done + [word + ['\\']])[|done|];
  }

  lemma CutLineDiffers(line: seq<Item>, c: char, words: seq<string>)
    requires forall item :: item in line ==> ItemOk(item)
    requires c != '\\' && Tokens(ItemsText(line) + ['\\', c]) == Ok(words)
    ensures Tokens(ItemsText(line) + "\\") != Ok(words)
  {
    var whole := line + [Loose(Escaped(c))];
    FlatOne(ItemText, line, Loose(Escaped(c)));
    ReadingGivesTokens(whole, false);
    assert ItemsText(whole) + "" == ItemsText(line) + ['\\', c];
    ReadingGivesTokens(line, true);
    LastLetterMatters(line, c);
  }

  /** The items of an escaped line without its last letter. */
  lemma EscapedLineBody(words: seq<string>, gaps: seq<string>) returns (line: seq<Item>)
    requires |gaps| == |words| > 0 && "" !in words && GapsOk(gaps)
    ensures forall item :: item in line ==> ItemOk(item)
    ensures ItemsText(line) == EscapedLine(words, gaps)[..|EscapedLine(words, gaps)| - 2]
  {
    var last := |words| - 1;
    var w := words[last];
    var items := LineItems(AllEscaped(words), gaps);
    EscapedLineEnds(words, gaps);
    EscapedLineText(words, gaps);
    AllEscapedSpell(words);
    LineOk(AllEscaped(words), gaps);
    assert items[|items| - 1] == Loose(Escaped(w[|w| - 1]));
    line := items[..|items| - 1];
    assert items == line + [Loose(Escaped(w[|w| - 1]))];
    FlatOne(ItemText, line, Loose(Escaped(w[|w| - 1])));
  }

  /** A whole command line is trimmed before it is read, so an escaped line comes back as its
      words exactly when the last word does not end in white space: the trimming takes the
      escaped space and leaves its backslash. */
  lemma EscapedLineReadsBackIff(words: seq<string>, gaps: seq<string>)
    requires |gaps| == |words| > 0 && "" !in words && GapsOk(gaps)
    ensures var w := words[|words| - 1];
            w != "" && "/" <= Trim("/" + EscapedLine(words, gaps))
            && (Tokens(Trim("/" + EscapedLine(words, gaps))[1..]) == Ok(words) <==> !IsSpace(w[|w| - 1]))
  {
    var w := words[|words| - 1];
    var text := EscapedLine(words, gaps);
    EscapedLineEnds(words, gaps);
    var body, c := text[..|text| - 2], w[|w| - 1];
    TrimLine(body, c);
    EscapedWordsReadBack(words, gaps, "");
    assert text + "" == text;
    if IsSpace(c) {
      var line := EscapedLineBody(words, gaps);
      CutLineDiffers(line, c, words);
      assert ("/" + (body + "\\"))[1..] == body + "\\";
    } else {
      assert ("/" + text)[1..] == text;
    }
  }

  /** A command with plain arguments is parsed back to its name and those arguments. */
  lemma PlainCommandParsesBack(words: seq<string>, gaps: seq<string>)
    requires |gaps| == |words| > 0 && "" !in words && GapsOk(gaps)
    requires Trim(words[0]) != "" && !IsSpace(words[|words| - 1][|words[|words| - 1]| - 1])
    requires forall k :: 0 < k < |words| ==> !Flagged(words[k])
    ensures ParseLine("/" + EscapedLine(words, gaps), [])
            == Command(Parsed(NormalizeRoot(words[0]), words[1..], map[]))
  {
    EscapedLineReadsBackIff(words, gaps);
    PlainArgsStay(words[1..], |words| - 1);
    assert words[1..][..|words| - 1] == words[1..];
  }

  lemma {:induction false} PlainArgsStay(args: seq<string>, n: nat)
    requires n <= |args| && forall k :: 0 <= k < |args| ==> !Flagged(args[k])
    ensures Positionals(args, n) == args[..n] && Flags(args, n) == map[]
  {
    if n > 0 {
      PlainArgsStay(args, n - 1);
      assert args[..n] == args[..n - 1] + [args[n - 1]];
    }
  }

  lemma EscapedSpace()
    ensures EscapedLine(["a "], [""]) == "\\a\\ "
  {
    EscapeTwo('a', ' ');
    assert ["a "][..0] == [] && [""][..0] == [];
    assert EscapedLine([], []) == "";
    assert "" + "" + Escape("a ") == Escape("a ");
  }

  lemma LoneItem(item: Item)
    ensures ItemsText([item]) == ItemText(item) && ItemsMarks([item]) == ItemMarks(item)
  {
    FlatOne(ItemText, [], item);
    FlatOne(ItemMarks, [], item);
    assert [] + [item] == [item];
  }

  lemma TwoLetters(a: char, b: char)
    ensures Words([Letter(a)] + [Letter(b)]) == [[a, b]]
  {
    SplitOne([], Letter(a));
    assert [] + [Letter(a)] == [Letter(a)];
    SplitOne([Letter(a)], Letter(b));
    assert "" + [a] + [b] == [a, b];
  }

  /** A backslash at the end of a line is a letter. */
  lemma BackslashAtEnd(c: char)
    ensures Tokens(['\\', c] + "\\") == Ok([[c, '\\']])
  {
    var item := Loose(Escaped(c));
    ReadingGivesTokens([item], true);
    LoneItem(item);
    TwoLetters(c, '\\');
  }

  /** The word `a` with a space after it, escaped, comes back as `a` with a backslash after it. */
  lemma TrailingSpaceIsLost()
    ensures EscapedLine(["a "], [""]) == "\\a\\ "
    ensures Trim("/" + EscapedLine(["a "], [""])) == "/" + "\\a\\"
    ensures Tokens("\\a\\") == Ok(["a\\"])
  {
    EscapedSpace();
    BackslashAtEnd('a');
    TrimLine("\\a", ' ');
    assert "\\a" + ['\\', ' '] == "\\a\\ " && "\\a" + "\\" == "\\a\\";
    assert ['\\', 'a'] == "\\a" && ['a', '\\'] == "a\\";
  }

  lemma EscapeTwo(a: char, b: char)
    ensures Escape([a, b]) == ['\\', a, '\\', b]
  {
    var f := (c: char) => ['\\', c];
    FlatOne(f, [], a);
    FlatOne(f, [a], b);
    assert [] + [a] == [a] && [a] + [b] == [a, b];
  }
}
