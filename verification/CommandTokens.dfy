/** Splitting a command line into tokens: the scanner, its grammar, and round trips. */
module CommandTokens {

  import opened Sequences
  import opened Wrappers

  predicate IsSeparator(c: char)
  {
    c == ' ' || c == '\t' || c == '\n' || c == '\r'
  }

  predicate IsQuote(c: char)
  {
    c == '\'' || c == '"'
  }

  // ---- the scanner ----

  datatype Scan = Scan(tokens: seq<string>, current: string, quote: Option<char>, escaped: bool)

  const START := Scan([], "", None, false)

  function Flush(tokens: seq<string>, current: string): seq<string>
  {
    if current != "" then tokens + [current] else tokens
  }

  function Advance(st: Scan, c: char): Scan
  {
    if st.escaped then st.(current := st.current + [c], escaped := false)
    else if c == '\\' then st.(escaped := true)
    else if st.quote.Some? then
      if c == st.quote.value then st.(quote := None) else st.(current := st.current + [c])
    else if IsQuote(c) then st.(quote := Some(c))
    else if IsSeparator(c) then st.(tokens := Flush(st.tokens, st.current), current := "")
    else st.(current := st.current + [c])
  }

  function ScanFrom(st: Scan, input: string): Scan
  {
    if input == "" then st else Advance(ScanFrom(st, input[..|input| - 1]), input[|input| - 1])
  }

  datatype TokenError = UnterminatedQuote

  function Finish(st: Scan): Result<seq<string>, TokenError>
  {
    if st.quote.Some? then Err(UnterminatedQuote)
    else Ok(Flush(st.tokens, if st.escaped then st.current + "\\" else st.current))
  }

  function Tokens(input: string): Result<seq<string>, TokenError>
  {
    Finish(ScanFrom(START, input))
  }

  method ReadTokens(input: string) returns (result: Result<seq<string>, TokenError>)
    ensures result == Tokens(input)
  {
    var tokens: seq<string> := [];
    var current := "";
    var quote: Option<char> := None;
    var escaped := false;
    var i := 0;
    while i < |input|
      invariant 0 <= i <= |input|
      invariant ScanFrom(START, input[..i]) == Scan(tokens, current, quote, escaped)
    {
      var c := input[i];
      assert input[..i + 1][..i] == input[..i];
      i := i + 1;
      if escaped {
        current := current + [c];
        escaped := false;
        continue;
      }
      if c == '\\' {
        escaped := true;
        continue;
      }
      if quote.Some? {
        if c == quote.value {
          quote := None;
          continue;
        }
        current := current + [c];
        continue;
      }
      if c == '\'' || c == '"' {
        quote := Some(c);
        continue;
      }
      if c == ' ' || c == '\t' || c == '\n' || c == '\r' {
        if |current| > 0 {
          tokens := tokens + [current];
          current := "";
        }
        continue;
      }
      current := current + [c];
    }
    assert input[..i] == input;
    if escaped {
      current := current + "\\";
    }
    if quote.Some? {
      return Err(UnterminatedQuote);
    }
    if |current| > 0 {
      tokens := tokens + [current];
    }
    result := Ok(tokens);
  }

  // ---- the grammar ----

  /** What a piece of input stands for: a letter of a token, or the end of one. */
  datatype Mark = Letter(c: char) | Break

  /** A character of the input, with the backslash before it if it has one. */
  datatype Unit = Bare(c: char) | Escaped(c: char)

  datatype Item = Gap(c: char) | Loose(unit: Unit) | Quoted(quote: char, body: seq<Unit>)

  /** An input read so far: whole items, perhaps an open quote, perhaps a backslash at the end. */
  datatype Reading = Reading(items: seq<Item>, open: Option<Item>, pending: bool)

  predicate UnitOk(u: Unit, quote: Option<char>)
  {
    u.Bare? ==> u.c != '\\'
                && if quote.Some? then u.c != quote.value else !IsQuote(u.c) && !IsSeparator(u.c)
  }

  predicate ItemOk(item: Item)
  {
    match item
    case Gap(c) => IsSeparator(c)
    case Loose(u) => UnitOk(u, None)
    case Quoted(q, body) => IsQuote(q) && forall u :: u in body ==> UnitOk(u, Some(q))
  }

  predicate ReadingOk(r: Reading)
  {
    && (forall item :: item in r.items ==> ItemOk(item))
    && (r.open.Some? ==> r.open.value.Quoted? && ItemOk(r.open.value))
  }

  function UnitText(u: Unit): string
  {
    match u case Bare(c) => [c] case Escaped(c) => ['\\', c]
  }

  function BodyText(body: seq<Unit>): string
  {
    Flat(UnitText, body)
  }

  function ItemText(item: Item): string
  {
    match item
    case Gap(c) => [c]
    case Loose(u) => UnitText(u)
    case Quoted(q, body) => [q] + BodyText(body) + [q]
  }

  function ItemsText(items: seq<Item>): string
  {
    Flat(ItemText, items)
  }

  function ReadingText(r: Reading): string
  {
    ItemsText(r.items)
    + (if r.open.Some? && r.open.value.Quoted? then [r.open.value.quote] + BodyText(r.open.value.body) else "")
    + (if r.pending then "\\" else "")
  }

  function BodyMarks(body: seq<Unit>): seq<Mark>
  {
    seq(|body|, i requires 0 <= i < |body| => Letter(body[i].c))
  }

  function ItemMarks(item: Item): seq<Mark>
  {
    match item
    case Gap(_) => [Break]
    case Loose(u) => [Letter(u.c)]
    case Quoted(_, body) => BodyMarks(body)
  }

  function ItemsMarks(items: seq<Item>): seq<Mark>
  {
    Flat(ItemMarks, items)
  }

  /** The words between breaks, and the word still being written. */
  function Split(marks: seq<Mark>): (seq<string>, string)
  {
    if marks == [] then ([], "")
    else
      var (words, word) := Split(marks[..|marks| - 1]);
      match marks[|marks| - 1]
      case Break => (Flush(words, word), "")
      case Letter(c) => (words, word + [c])
  }

  function Words(marks: seq<Mark>): seq<string>
  {
    Flush(Split(marks).0, Split(marks).1)
  }

  /** The tokens of a complete reading; a backslash at the very end is a letter. */
  function Meaning(items: seq<Item>, pending: bool): seq<string>
  {
    Words(ItemsMarks(items) + if pending then [Letter('\\')] else [])
  }

  // ---- the scanner follows the grammar ----

  lemma {:induction false} ScanAppend(st: Scan, a: string, b: string)
    ensures ScanFrom(st, a + b) == ScanFrom(ScanFrom(st, a), b)
  {
    if b == "" {
      assert a + b == a;
    } else {
      assert (a + b)[..|a + b| - 1] == a + b[..|b| - 1];
      ScanAppend(st, a, b[..|b| - 1]);
    }
  }

  lemma ScanOne(st: Scan, c: char)
    ensures ScanFrom(st, [c]) == Advance(st, c)
  {
    assert [c][..0] == "";
    assert ScanFrom(st, "") == st;
  }

  lemma ScanUnit(st: Scan, u: Unit)
    requires !st.escaped && UnitOk(u, st.quote)
    ensures ScanFrom(st, UnitText(u)) == st.(current := st.current + [u.c])
  {
    match u
    case Bare(c) => ScanOne(st, c);
    case Escaped(c) =>
      ScanOne(st, '\\');
      ScanOne(Advance(st, '\\'), c);
      ScanAppend(st, "\\", [c]);
      assert "\\" + [c] == UnitText(u);
  }

  function Letters(body: seq<Unit>): string
  {
    seq(|body|, i requires 0 <= i < |body| => body[i].c)
  }

  lemma {:induction false} ScanBody(st: Scan, body: seq<Unit>)
    requires !st.escaped && forall u :: u in body ==> UnitOk(u, st.quote)
    ensures ScanFrom(st, BodyText(body)) == st.(current := st.current + Letters(body))
  {
    if body == [] {
      assert st.current + Letters(body) == st.current;
    } else {
      var last := |body| - 1;
      ScanBody(st, body[..last]);
      ScanAppend(st, BodyText(body[..last]), UnitText(body[last]));
      ScanUnit(ScanFrom(st, BodyText(body[..last])), body[last]);
      assert st.current + Letters(body[..last]) + [body[last].c] == st.current + Letters(body);
    }
  }

  lemma {:induction false} SplitLetters(marks: seq<Mark>, body: seq<Unit>)
    ensures Split(marks + BodyMarks(body)) == (Split(marks).0, Split(marks).1 + Letters(body))
  {
    if body == [] {
      assert marks + BodyMarks(body) == marks;
      assert Split(marks).1 + Letters(body) == Split(marks).1;
    } else {
      var last := |body| - 1;
      SplitLetters(marks, body[..last]);
      assert marks + BodyMarks(body) == (marks + BodyMarks(body[..last])) + [Letter(body[last].c)];
      assert Letters(body) == Letters(body[..last]) + [body[last].c];
      SplitOne(marks + BodyMarks(body[..last]), Letter(body[last].c));
      assert Split(marks).1 + Letters(body[..last]) + [body[last].c] == Split(marks).1 + Letters(body);
    }
  }

  lemma SplitOne(marks: seq<Mark>, m: Mark)
    ensures Split(marks + [m])
            == match m
               case Break => (Flush(Split(marks).0, Split(marks).1), "")
               case Letter(c) => (Split(marks).0, Split(marks).1 + [c])
  {
    assert (marks + [m])[..|marks|] == marks;
  }

  /** The scanner's state between items. */
  function Between(marks: seq<Mark>): Scan
  {
    Scan(Split(marks).0, Split(marks).1, None, false)
  }

  lemma ScanItem(marks: seq<Mark>, item: Item)
    requires ItemOk(item)
    ensures ScanFrom(Between(marks), ItemText(item)) == Between(marks + ItemMarks(item))
  {
    var st := Between(marks);
    match item
    case Gap(c) =>
      ScanOne(st, c);
      SplitOne(marks, Break);
    case Loose(u) =>
      ScanUnit(st, u);
      SplitOne(marks, Letter(u.c));
    case Quoted(q, body) =>
      ScanOpen(st, q, body);
      var inside := ScanFrom(st, [q] + BodyText(body));
      ScanOne(inside, q);
      ScanAppend(st, [q] + BodyText(body), [q]);
      SplitLetters(marks, body);
  }

  lemma ScanOpen(st: Scan, q: char, body: seq<Unit>)
    requires st.quote.None? && !st.escaped && IsQuote(q) && forall u :: u in body ==> UnitOk(u, Some(q))
    ensures ScanFrom(st, [q] + BodyText(body)) == st.(quote := Some(q), current := st.current + Letters(body))
  {
    ScanOne(st, q);
    ScanAppend(st, [q], BodyText(body));
    ScanBody(Advance(st, q), body);
  }

  lemma {:induction false} ScanItems(items: seq<Item>)
    requires forall item :: item in items ==> ItemOk(item)
    ensures ScanFrom(START, ItemsText(items)) == Between(ItemsMarks(items))
  {
    if items != [] {
      var last := |items| - 1;
      ScanItems(items[..last]);
      ScanItem(ItemsMarks(items[..last]), items[last]);
      ScanAppend(START, ItemsText(items[..last]), ItemText(items[last]));
    }
  }

  lemma ScanReading(r: Reading)
    requires ReadingOk(r)
    ensures var body := if r.open.Some? then r.open.value.body else [];
            ScanFrom(START, ReadingText(r))
            == Scan(Split(ItemsMarks(r.items)).0, Split(ItemsMarks(r.items)).1 + Letters(body),
                    if r.open.Some? then Some(r.open.value.quote) else None, r.pending)
  {
    var text := ItemsText(r.items);
    ScanItems(r.items);
    var st := Between(ItemsMarks(r.items));
    var open := if r.open.Some? then [r.open.value.quote] + BodyText(r.open.value.body) else "";
    ScanAppend(START, text, open);
    if r.open.Some? {
      ScanOpen(st, r.open.value.quote, r.open.value.body);
    } else {
      assert st.current + Letters([]) == st.current;
      assert text + open == text;
    }
    if r.pending {
      ScanAppend(START, text + open, "\\");
      ScanOne(ScanFrom(START, text + open), '\\');
    } else {
      assert text + open + "" == text + open;
    }
  }

  // ---- every input can be read ----

  function ReadOne(r: Reading, c: char): Reading
    requires r.open.Some? ==> r.open.value.Quoted?
  {
    if r.pending || c != '\\' then
      var u := if r.pending then Escaped(c) else Bare(c);
      if r.open.Some? then
        if u == Bare(r.open.value.quote) then Reading(r.items + [r.open.value], None, false)
        else Reading(r.items, Some(r.open.value.(body := r.open.value.body + [u])), false)
      else if u.Bare? && IsQuote(c) then Reading(r.items, Some(Quoted(c, [])), false)
      else if u.Bare? && IsSeparator(c) then Reading(r.items + [Gap(c)], None, false)
      else Reading(r.items + [Loose(u)], None, false)
    else r.(pending := true)
  }

  lemma ReadInQuote(items: seq<Item>, q: char, body: seq<Unit>, u: Unit)
    requires ReadingOk(Reading(items, Some(Quoted(q, body)), false)) && UnitOk(u, Some(q))
    ensures ReadingOk(Reading(items, Some(Quoted(q, body + [u])), false))
    ensures ReadingText(Reading(items, Some(Quoted(q, body + [u])), false))
            == ReadingText(Reading(items, Some(Quoted(q, body)), false)) + UnitText(u)
  {
    FlatOne(UnitText, body, u);
    var text, quoted := ItemsText(items), [q] + BodyText(body);
    assert [q] + (BodyText(body) + UnitText(u)) == quoted + UnitText(u);
    assert text + (quoted + UnitText(u)) + "" == text + quoted + "" + UnitText(u);
  }

  lemma ReadItem(items: seq<Item>, item: Item)
    requires ReadingOk(Reading(items, None, false)) && ItemOk(item)
    ensures ReadingOk(Reading(items + [item], None, false))
    ensures ReadingText(Reading(items + [item], None, false)) == ItemsText(items) + ItemText(item)
  {
    FlatOne(ItemText, items, item);
  }

  lemma ReadClose(items: seq<Item>, q: char, body: seq<Unit>)
    requires ReadingOk(Reading(items, Some(Quoted(q, body)), false))
    ensures ReadingOk(Reading(items + [Quoted(q, body)], None, false))
    ensures ReadingText(Reading(items + [Quoted(q, body)], None, false))
            == ReadingText(Reading(items, Some(Quoted(q, body)), false)) + [q]
  {
    ReadItem(items, Quoted(q, body));
    var quoted := [q] + BodyText(body);
    assert ItemsText(items) + (quoted + [q]) == ItemsText(items) + quoted + "" + [q];
  }

  /** What has been read before the backslash, if one is pending. */
  lemma TextBeforePending(r: Reading)
    requires ReadingOk(r)
    ensures ReadingText(r) == ReadingText(r.(pending := false)) + if r.pending then "\\" else ""
  {}

  lemma ReadOneKeeps(r: Reading, c: char)
    requires ReadingOk(r)
    ensures ReadingOk(ReadOne(r, c)) && ReadingText(ReadOne(r, c)) == ReadingText(r) + [c]
  {
    TextBeforePending(r);
    TextBeforePending(ReadOne(r, c));
    if r.pending || c != '\\' {
      var u := if r.pending then Escaped(c) else Bare(c);
      var before := ReadingText(r.(pending := false));
      assert ReadingText(r) + [c] == before + UnitText(u);
      if r.open.Some? {
        var q, body := r.open.value.quote, r.open.value.body;
        assert r.open == Some(Quoted(q, body));
        if u == Bare(q) {
          ReadClose(r.items, q, body);
        } else {
          ReadInQuote(r.items, q, body, u);
        }
      } else {
        assert before == ItemsText(r.items);
        if u.Bare? && IsQuote(c) {
          assert ReadOne(r, c) == Reading(r.items, Some(Quoted(c, [])), false);
        } else if u.Bare? && IsSeparator(c) {
          ReadItem(r.items, Gap(c));
        } else {
          ReadItem(r.items, Loose(u));
        }
      }
    }
  }

  ghost function Read(input: string): (r: Reading)
    ensures ReadingOk(r) && ReadingText(r) == input
  {
    if input == "" then Reading([], None, false)
    else
      var last := |input| - 1;
      var before := Read(input[..last]);
      ReadOneKeeps(before, input[last]);
      assert input == input[..last] + [input[last]];
      ReadOne(before, input[last])
  }

  // ---- theorems ----

  /** A complete reading gives its words as the tokens. */
  lemma ReadingGivesTokens(items: seq<Item>, pending: bool)
    requires forall item :: item in items ==> ItemOk(item)
    ensures Tokens(ItemsText(items) + if pending then "\\" else "") == Ok(Meaning(items, pending))
  {
    var marks := ItemsMarks(items);
    ScanReading(Reading(items, None, pending));
    assert ReadingText(Reading(items, None, pending)) == ItemsText(items) + if pending then "\\" else "";
    assert Split(marks).1 + Letters([]) == Split(marks).1;
    if pending {
      SplitOne(marks, Letter('\\'));
    } else {
      assert marks + [] == marks;
    }
  }

  /** The scanner accepts exactly the inputs made of gaps, loose units and closed quotes, and
      its tokens are the words of any such reading. */
  lemma TokensIff(input: string, tokens: seq<string>)
    ensures Tokens(input) == Ok(tokens)
            <==> exists items: seq<Item>, pending ::
                   (forall item :: item in items ==> ItemOk(item))
                   && input == ItemsText(items) + (if pending then "\\" else "")
                   && tokens == Meaning(items, pending)
  {
    var r := Read(input);
    ScanReading(r);
    if Tokens(input) == Ok(tokens) {
      assert r.open.None?;
      assert ItemsText(r.items) + "" == ItemsText(r.items);
      ReadingGivesTokens(r.items, r.pending);
    }
    forall items: seq<Item>, pending |
      (forall item :: item in items ==> ItemOk(item)) && input == ItemsText(items) + (if pending then "\\" else "")
      ensures Tokens(input) == Ok(Meaning(items, pending))
    {
      ReadingGivesTokens(items, pending);
    }
  }

  lemma {:induction false} SplitWordsNonEmpty(marks: seq<Mark>)
    ensures "" !in Split(marks).0
  {
    if marks != [] {
      SplitWordsNonEmpty(marks[..|marks| - 1]);
    }
  }

  lemma NoTokenIsEmpty(input: string)
    requires Tokens(input).Ok?
    ensures "" !in Tokens(input).value
  {
    TokensIff(input, Tokens(input).value);
    var items: seq<Item>, pending :|
      (forall item :: item in items ==> ItemOk(item))
      && input == ItemsText(items) + (if pending then "\\" else "")
      && Tokens(input).value == Meaning(items, pending);
    SplitWordsNonEmpty(ItemsMarks(items) + if pending then [Letter('\\')] else []);
  }
}
