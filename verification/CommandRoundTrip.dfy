/** Words spelled in any way the grammar allows are read back as those words. */
module CommandRoundTrip {

  import opened Sequences
  import opened Wrappers
  import opened CommandText
  import opened CommandTokens

  function ItemLetters(item: Item): string
  {
    match item
    case Gap(_) => ""
    case Loose(u) => [u.c]
    case Quoted(_, body) => Letters(body)
  }

  /** The word a list of items spells. */
  function Spelled(items: seq<Item>): string
  {
    Flat(ItemLetters, items)
  }

  /** Items that spell one word, which is not empty. */
  ghost predicate SpellsWord(items: seq<Item>)
  {
    Spelled(items) != "" && forall item :: item in items ==> ItemOk(item) && !item.Gap?
  }

  function GapItems(gap: string): seq<Item>
  {
    seq(|gap|, i requires 0 <= i < |gap| => Gap(gap[i]))
  }

  ghost predicate GapsOk(gaps: seq<string>)
  {
    && (forall k, c :: 0 <= k < |gaps| && c in gaps[k] ==> IsSeparator(c))
    && (forall k :: 0 < k < |gaps| ==> gaps[k] != "")
  }

  /** Each word after its gap. */
  function LineItems(words: seq<seq<Item>>, gaps: seq<string>): seq<Item>
    requires |gaps| == |words|
  {
    if words == [] then []
    else
      var last := |words| - 1;
      LineItems(words[..last], gaps[..last]) + GapItems(gaps[last]) + words[last]
  }

  function SpelledWords(words: seq<seq<Item>>): seq<string>
  {
    seq(|words|, i requires 0 <= i < |words| => Spelled(words[i]))
  }

  lemma SplitItem(marks: seq<Mark>, item: Item)
    requires !item.Gap?
    ensures Split(marks + ItemMarks(item)) == (Split(marks).0, Split(marks).1 + ItemLetters(item))
  {
    match item
    case Loose(u) => SplitOne(marks, Letter(u.c));
    case Quoted(_, body) => SplitLetters(marks, body);
  }

  lemma {:induction false} SplitWord(marks: seq<Mark>, items: seq<Item>)
    requires forall item :: item in items ==> !item.Gap?
    ensures Split(marks + ItemsMarks(items)) == (Split(marks).0, Split(marks).1 + Spelled(items))
  {
    if items == [] {
      assert marks + ItemsMarks(items) == marks;
      assert Split(marks).1 + "" == Split(marks).1;
    } else {
      var init, item := items[..|items| - 1], items[|items| - 1];
      assert items == init + [item];
      hide Split, ItemLetters, ItemMarks;
      SplitWord(marks, init);
      FlatOne(ItemMarks, init, item);
      FlatOne(ItemLetters, init, item);
      SplitItem(marks + ItemsMarks(init), item);
      Associates(marks, ItemsMarks(init), ItemMarks(item));
      Associates(Split(marks).1, Spelled(init), ItemLetters(item));
    }
  }

  lemma {:induction false} SplitGap(marks: seq<Mark>, gap: string)
    ensures Split(marks + ItemsMarks(GapItems(gap)))
            == if gap == "" then Split(marks) else (Flush(Split(marks).0, Split(marks).1), "")
  {
    if gap == "" {
      assert marks + ItemsMarks(GapItems(gap)) == marks;
    } else {
      var last := |gap| - 1;
      SplitGap(marks, gap[..last]);
      assert GapItems(gap) == GapItems(gap[..last]) + [Gap(gap[last])];
      FlatAppend(ItemMarks, GapItems(gap[..last]), [Gap(gap[last])]);
      assert ItemsMarks([Gap(gap[last])]) == [Break] by {
        assert [Gap(gap[last])][..0] == [];
      }
      var before := marks + ItemsMarks(GapItems(gap[..last]));
      assert marks + ItemsMarks(GapItems(gap)) == before + [Break];
      SplitOne(before, Break);
    }
  }

  lemma {:induction false} LineOk(words: seq<seq<Item>>, gaps: seq<string>)
    requires |gaps| == |words| && GapsOk(gaps) && forall w :: w in words ==> SpellsWord(w)
    ensures forall item :: item in LineItems(words, gaps) ==> ItemOk(item)
  {
    if words != [] {
      var last := |words| - 1;
      LineOk(words[..last], gaps[..last]);
      assert words[last] in words;
      GapItemsOk(gaps[last]);
    }
  }

  lemma SplitStep(marks: seq<Mark>, gap: string, items: seq<Item>)
    requires forall item :: item in items ==> !item.Gap?
    ensures var (words, word) := Split(marks);
            Split(marks + ItemsMarks(GapItems(gap)) + ItemsMarks(items))
            == if gap == "" then (words, word + Spelled(items)) else (Flush(words, word), Spelled(items))
  {
    SplitGap(marks, gap);
    SplitWord(marks + ItemsMarks(GapItems(gap)), items);
    assert "" + Spelled(items) == Spelled(items);
  }

  lemma LineMarks(words: seq<seq<Item>>, gaps: seq<string>)
    requires |gaps| == |words| > 0
    ensures var last := |words| - 1;
            ItemsMarks(LineItems(words, gaps))
            == ItemsMarks(LineItems(words[..last], gaps[..last])) + ItemsMarks(GapItems(gaps[last]))
               + ItemsMarks(words[last])
  {
    var last := |words| - 1;
    var before := LineItems(words[..last], gaps[..last]);
    FlatAppend(ItemMarks, before, GapItems(gaps[last]));
    FlatAppend(ItemMarks, before + GapItems(gaps[last]), words[last]);
  }

  lemma {:induction false} SplitLine(words: seq<seq<Item>>, gaps: seq<string>)
    requires |gaps| == |words| && GapsOk(gaps) && forall w :: w in words ==> SpellsWord(w)
    ensures var parts := Split(ItemsMarks(LineItems(words, gaps)));
            && (words == [] ==> parts == ([], ""))
            && Flush(parts.0, parts.1) == SpelledWords(words)
  {
    if words != [] {
      var last := |words| - 1;
      SplitLine(words[..last], gaps[..last]);
      assert words[last] in words;
      LineMarks(words, gaps);
      SplitStep(ItemsMarks(LineItems(words[..last], gaps[..last])), gaps[last], words[last]);
      assert SpelledWords(words) == SpelledWords(words[..last]) + [Spelled(words[last])];
      assert "" + Spelled(words[last]) == Spelled(words[last]);
    }
  }

  /** However its words are spelled, with plain, escaped and quoted pieces, and whatever
      separators stand between them, a line is read back as exactly those words. */
  lemma SpelledWordsReadBack(words: seq<seq<Item>>, gaps: seq<string>, tail: string)
    requires |gaps| == |words| && GapsOk(gaps) && forall w :: w in words ==> SpellsWord(w)
    requires forall c :: c in tail ==> IsSeparator(c)
    ensures Tokens(ItemsText(LineItems(words, gaps)) + tail) == Ok(SpelledWords(words))
  {
    var line := LineItems(words, gaps);
    LineOk(words, gaps);
    GapItemsOk(tail);
    FlatAppend(ItemText, line, GapItems(tail));
    GapText(tail);
    ReadingGivesTokens(line + GapItems(tail), false);
    assert ItemsText(line + GapItems(tail)) + "" == ItemsText(line) + tail;
    LineMeaning(words, gaps, tail);
  }

  lemma LineMeaning(words: seq<seq<Item>>, gaps: seq<string>, tail: string)
    requires |gaps| == |words| && GapsOk(gaps) && forall w :: w in words ==> SpellsWord(w)
    ensures Meaning(LineItems(words, gaps) + GapItems(tail), false) == SpelledWords(words)
  {
    var line := LineItems(words, gaps);
    SplitLine(words, gaps);
    FlatAppend(ItemMarks, line, GapItems(tail));
    SplitGap(ItemsMarks(line), tail);
    assert ItemsMarks(line + GapItems(tail)) + [] == ItemsMarks(line) + ItemsMarks(GapItems(tail));
  }

  lemma GapItemsOk(gap: string)
    requires forall c :: c in gap ==> IsSeparator(c)
    ensures forall item :: item in GapItems(gap) ==> ItemOk(item)
  {
    forall item | item in GapItems(gap) ensures ItemOk(item) {
      var i :| 0 <= i < |gap| && item == Gap(gap[i]);
      assert gap[i] in gap;
    }
  }

  lemma {:induction false} GapText(gap: string)
    ensures ItemsText(GapItems(gap)) == gap
  {
    if gap != "" {
      var last := |gap| - 1;
      GapText(gap[..last]);
      assert GapItems(gap)[..last] == GapItems(gap[..last]);
    }
  }

  // ---- a backslash before every character ----

  function Escape(word: string): string
  {
    Flat(c => ['\\', c], word)
  }

  function EscapedLine(words: seq<string>, gaps: seq<string>): string
    requires |gaps| == |words|
  {
    if words == [] then ""
    else
      var last := |words| - 1;
      EscapedLine(words[..last], gaps[..last]) + gaps[last] + Escape(words[last])
  }

  function EscapedItems(word: string): seq<Item>
  {
    seq(|word|, i requires 0 <= i < |word| => Loose(Escaped(word[i])))
  }

  lemma {:induction false} EscapedSpells(word: string)
    ensures Spelled(EscapedItems(word)) == word && ItemsText(EscapedItems(word)) == Escape(word)
  {
    if word != "" {
      var last := |word| - 1;
      EscapedSpells(word[..last]);
      assert EscapedItems(word)[..last] == EscapedItems(word[..last]);
      assert word == word[..last] + [word[last]];
    }
  }

  function AllEscaped(words: seq<string>): seq<seq<Item>>
  {
    seq(|words|, i requires 0 <= i < |words| => EscapedItems(words[i]))
  }

  lemma {:induction false} EscapedLineText(words: seq<string>, gaps: seq<string>)
    requires |gaps| == |words|
    ensures ItemsText(LineItems(AllEscaped(words), gaps)) == EscapedLine(words, gaps)
  {
    if words != [] {
      var last := |words| - 1;
      EscapedLineText(words[..last], gaps[..last]);
      assert AllEscaped(words)[..last] == AllEscaped(words[..last]);
      var before := LineItems(AllEscaped(words[..last]), gaps[..last]);
      FlatAppend(ItemText, before, GapItems(gaps[last]));
      FlatAppend(ItemText, before + GapItems(gaps[last]), EscapedItems(words[last]));
      GapText(gaps[last]);
      EscapedSpells(words[last]);
    }
  }

  lemma AllEscapedSpell(words: seq<string>)
    requires "" !in words
    ensures SpelledWords(AllEscaped(words)) == words
    ensures forall w :: w in AllEscaped(words) ==> SpellsWord(w)
  {
    forall i | 0 <= i < |words| ensures Spelled(AllEscaped(words)[i]) == words[i] && SpellsWord(AllEscaped(words)[i]) {
      EscapedSpells(words[i]);
      assert words[i] in words;
    }
  }

  /** Escaping every character of non-empty words and joining them with separators loses nothing. */
  lemma EscapedWordsReadBack(words: seq<string>, gaps: seq<string>, tail: string)
    requires "" !in words && |gaps| == |words| && GapsOk(gaps)
    requires forall c :: c in tail ==> IsSeparator(c)
    ensures Tokens(EscapedLine(words, gaps) + tail) == Ok(words)
  {
    AllEscapedSpell(words);
    EscapedLineText(words, gaps);
    SpelledWordsReadBack(AllEscaped(words), gaps, tail);
  }
}
