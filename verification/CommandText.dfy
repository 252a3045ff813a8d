/** Trimming, and the normal form of a command root. */
module CommandText {

  /** unicode.IsSpace */
  predicate IsSpace(c: char)
  {
    || '\t' <= c <= '\r' || c == ' ' || c == '\U{0085}' || c == '\U{00A0}' || c == '\U{1680}'
    || '\U{2000}' <= c <= '\U{200A}' || c == '\U{2028}' || c == '\U{2029}' || c == '\U{202F}'
    || c == '\U{205F}' || c == '\U{3000}'
  }

  function TrimLeft(s: string): string
  {
    if s != "" && IsSpace(s[0]) then TrimLeft(s[1..]) else s
  }

  function TrimRight(s: string): string
  {
    if s != "" && IsSpace(s[|s| - 1]) then TrimRight(s[..|s| - 1]) else s
  }

  lemma {:induction false} TrimLeftDropsSpace(s: string)
    ensures var r := TrimLeft(s);
            |r| <= |s| && r == s[|s| - |r|..] && (r != "" ==> !IsSpace(r[0]))
            && forall i :: 0 <= i < |s| - |r| ==> IsSpace(s[i])
  {
    if s != "" && IsSpace(s[0]) {
      TrimLeftDropsSpace(s[1..]);
      assert forall i :: 0 < i < |s| ==> s[i] == s[1..][i - 1];
    }
  }

  lemma {:induction false} TrimRightDropsSpace(s: string)
    ensures var r := TrimRight(s);
            |r| <= |s| && r == s[..|r|] && (r != "" ==> !IsSpace(r[|r| - 1]))
            && forall i :: |r| <= i < |s| ==> IsSpace(s[i])
  {
    if s != "" && IsSpace(s[|s| - 1]) {
      TrimRightDropsSpace(s[..|s| - 1]);
    }
  }

  function Trim(s: string): string
  {
    TrimRight(TrimLeft(s))
  }

  function LowerChar(c: char): char
  {
    if 'A' <= c <= 'Z' then (c as int + 32) as char else c
  }

  function Lower(s: string): string
  {
    seq(|s|, i requires 0 <= i < |s| => LowerChar(s[i]))
  }

  function TrimSlash(s: string): string
  {
    if s != "" && s[0] == '/' then s[1..] else s
  }

  /** Trim, drop one leading slash, lower the case. */
  function NormalizeRoot(name: string): string
  {
    Lower(TrimSlash(Trim(name)))
  }

  lemma TrimFixed(s: string)
    ensures Trim(s) == s <==> s == "" || (!IsSpace(s[0]) && !IsSpace(s[|s| - 1]))
  {
    TrimLeftDropsSpace(s);
    TrimRightDropsSpace(TrimLeft(s));
    if s != "" && !IsSpace(s[0]) && !IsSpace(s[|s| - 1]) {
      assert TrimLeft(s) == s;
      assert TrimRight(s) == s;
    }
    if s != "" && Trim(s) == s {
      assert |TrimLeft(s)| == |s|;
      assert TrimLeft(s) == s;
    }
  }

  lemma LowerFixed(s: string)
    ensures Lower(s) == s <==> forall i :: 0 <= i < |s| ==> !('A' <= s[i] <= 'Z')
  {
    if Lower(s) == s {
      forall i | 0 <= i < |s| ensures !('A' <= s[i] <= 'Z') {
        assert Lower(s)[i] == s[i];
      }
    }
  }

  /** A root that normalisation leaves alone. */
  predicate Normal(root: string)
  {
    root == "" ||
    (root[0] != '/' && !IsSpace(root[0]) && !IsSpace(root[|root| - 1])
     && forall i :: 0 <= i < |root| ==> !('A' <= root[i] <= 'Z'))
  }

  lemma TrimShortens(s: string)
    ensures |Trim(s)| <= |s| && (|Trim(s)| == |s| ==> Trim(s) == s)
  {
    TrimLeftDropsSpace(s);
    TrimRightDropsSpace(TrimLeft(s));
  }

  /** Normalisation is not idempotent: "//a" becomes "/a" and then "a".  Its fixed points are
      the names without capitals, outer spaces or a leading slash. */
  lemma NormalizeFixedIff(root: string)
    ensures NormalizeRoot(root) == root <==> Normal(root)
  {
    TrimFixed(root);
    LowerFixed(root);
    if NormalizeRoot(root) == root {
      TrimShortens(root);
      assert |TrimSlash(Trim(root))| == |root|;
    }
  }

  // ---- every spelling of a root ----

  predicate AllSpace(s: string)
  {
    forall c :: c in s ==> IsSpace(c)
  }

  lemma {:induction false} SpaceBefore(pre: string, body: string)
    requires AllSpace(pre) && body != "" && !IsSpace(body[0])
    ensures TrimLeft(pre + body) == body
  {
    if pre == "" {
      assert pre + body == body;
    } else {
      assert pre[0] in pre && (pre + body)[1..] == pre[1..] + body;
      SpaceBefore(pre[1..], body);
    }
  }

  lemma {:induction false} SpaceAfter(body: string, post: string)
    requires AllSpace(post) && body != "" && !IsSpace(body[|body| - 1])
    ensures TrimRight(body + post) == body
  {
    if post == "" {
      assert body + post == body;
    } else {
      var last := |post| - 1;
      assert post[last] in post && (body + post)[..|body + post| - 1] == body + post[..last];
      SpaceAfter(body, post[..last]);
    }
  }

  lemma TrimAround(pre: string, body: string, post: string)
    requires AllSpace(pre) && AllSpace(post) && body != "" && !IsSpace(body[0]) && !IsSpace(body[|body| - 1])
    ensures Trim(pre + body + post) == body
  {
    assert pre + body + post == pre + (body + post);
    SpaceBefore(pre, body + post);
    SpaceAfter(body, post);
  }

  /** The letter as it is, or the capital of a small letter. */
  predicate Spells(c: char, root: char)
  {
    c == root || ('a' <= root <= 'z' && c as int == root as int - 32)
  }

  /** White space around it, one slash before it and capitals for small letters do not change what
      a root is called. */
  lemma SpellingIsNormalised(pre: string, slash: bool, written: string, post: string, root: string)
    requires AllSpace(pre) && AllSpace(post) && root != "" && Normal(root)
    requires |written| == |root| && forall i :: 0 <= i < |root| ==> Spells(written[i], root[i])
    ensures NormalizeRoot(pre + ((if slash then "/" else "") + written) + post) == root
  {
    var body := (if slash then "/" else "") + written;
    assert body[|body| - 1] == written[|root| - 1] && body[0] == if slash then '/' else written[0];
    CapitalIsNoSpace(written[0], root[0]);
    CapitalIsNoSpace(written[|root| - 1], root[|root| - 1]);
    CapitalsAreLowered(written, root);
    hide IsSpace, Trim, Lower;
    TrimAround(pre, body, post);
    assert TrimSlash(body) == written;
  }

  lemma CapitalIsNoSpace(c: char, root: char)
    requires Spells(c, root) && !IsSpace(root)
    ensures !IsSpace(c) && !IsSpace('/') && (root != '/' ==> c != '/')
  {}

  lemma CapitalsAreLowered(written: string, root: string)
    requires |written| == |root| && forall i :: 0 <= i < |root| ==> Spells(written[i], root[i]) && !('A' <= root[i] <= 'Z')
    ensures Lower(written) == root
  {
    forall i | 0 <= i < |root| ensures LowerChar(written[i]) == root[i] {}
  }
}
