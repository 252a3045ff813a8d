/** When a proactive reply counts as silence. */
module Silence {

  import opened CommandText

  const MARKER := "<silent/>"

  /** The text without the markers in it, found from the left. */
  function RemoveMarkers(s: string): string
    decreases |s|
  {
    if s == "" then ""
    else if MARKER <= s then RemoveMarkers(s[|MARKER|..])
    else [s[0]] + RemoveMarkers(s[1..])
  }

  predicate IsProactiveSilence(reply: string)
  {
    Trim(reply) == "" || Trim(RemoveMarkers(Trim(reply))) == ""
  }

  /** The text is made of white space and whole markers, and nothing else. */
  predicate OnlyMarkers(s: string)
    decreases |s|
  {
    s == "" || (IsSpace(s[0]) && OnlyMarkers(s[1..])) || (MARKER <= s && OnlyMarkers(s[|MARKER|..]))
  }

  predicate Blank(s: string)
  {
    s == "" || (IsSpace(s[0]) && Blank(s[1..]))
  }

  lemma {:induction false} TrimLeftBlank(s: string)
    ensures TrimLeft(s) == "" <==> Blank(s)
  {
    if s != "" && IsSpace(s[0]) {
      TrimLeftBlank(s[1..]);
    }
  }

  lemma TrimRightEmpty(s: string)
    requires TrimRight(s) == "" && s != ""
    ensures IsSpace(s[0])
  {
    TrimRightDropsSpace(s);
  }

  lemma {:induction false} TrimBlank(s: string)
    ensures Trim(s) == "" <==> Blank(s)
  {
    TrimLeftBlank(s);
    TrimLeftDropsSpace(s);
    if TrimLeft(s) != "" && Trim(s) == "" {
      TrimRightEmpty(TrimLeft(s));
    }
  }

  lemma {:induction false} RemovedIsBlank(s: string)
    ensures Blank(RemoveMarkers(s)) <==> OnlyMarkers(s)
    decreases |s|
  {
    if s == "" {
    } else if MARKER <= s {
      assert s[0] == MARKER[0] == '<';
      RemovedIsBlank(s[|MARKER|..]);
    } else {
      RemovedIsBlank(s[1..]);
      assert ([s[0]] + RemoveMarkers(s[1..]))[1..] == RemoveMarkers(s[1..]);
    }
  }

  lemma {:induction false} TrimLeftKeeps(s: string)
    ensures OnlyMarkers(TrimLeft(s)) <==> OnlyMarkers(s)
  {
    if s != "" && IsSpace(s[0]) {
      TrimLeftKeeps(s[1..]);
      assert MARKER[0] == '<';
    }
  }

  /** No marker ends in white space. */
  lemma MarkerBeforeSpace(s: string)
    requires s != "" && IsSpace(s[|s| - 1])
    ensures MARKER <= s <==> MARKER <= s[..|s| - 1]
  {
    assert MARKER[|MARKER| - 1] == '>';
  }

  lemma {:induction false} LastSpaceDropped(s: string)
    requires s != "" && IsSpace(s[|s| - 1])
    ensures OnlyMarkers(s) <==> OnlyMarkers(s[..|s| - 1])
    decreases |s|
  {
    var init := s[..|s| - 1];
    MarkerBeforeSpace(s);
    if |s| > 1 {
      assert s[1..][..|s| - 2] == init[1..];
      LastSpaceDropped(s[1..]);
      if MARKER <= init {
        var rest := s[|MARKER|..];
        assert rest[..|rest| - 1] == init[|MARKER|..];
        LastSpaceDropped(rest);
      }
    }
  }

  lemma {:induction false} TrimRightKeeps(s: string)
    ensures OnlyMarkers(TrimRight(s)) <==> OnlyMarkers(s)
  {
    if s != "" && IsSpace(s[|s| - 1]) {
      LastSpaceDropped(s);
      TrimRightKeeps(s[..|s| - 1]);
    }
  }

  /** A reply is silence exactly when it is made of white space and markers; one that merely
      mentions the marker is delivered. */
  lemma SilenceIff(reply: string)
    ensures IsProactiveSilence(reply) <==> OnlyMarkers(reply)
  {
    TrimLeftKeeps(reply);
    TrimRightKeeps(TrimLeft(reply));
    RemovedIsBlank(Trim(reply));
    TrimBlank(RemoveMarkers(Trim(reply)));
  }
}
