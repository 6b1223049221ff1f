/**
 Bale's three Markdown forms (bridge/textfmt/types_map.py, MD_PAT):

   [text](url)   *bold*   _italic_

 `Occurs` says declaratively when a piece of a string is an occurrence of the pattern;
 `MatchAt` is the left-to-right matcher; the lemmas show that the two agree and that
 `FindAll` is the list `MD_PAT.finditer` yields.
 */
module Markdown {
  import opened Sequences
  import opened Text

  datatype Style = Bold | Italic | Link(url: string)

  datatype Match = Match(start: nat, end: nat, style: Style, body: string)

  predicate InLinkText(c: char) { c != ']' && c != '\n' }

  predicate InUrl(c: char) { c != ')' && !IsSpace(c) }

  predicate InBold(c: char) { c != '*' && c != '\n' }

  predicate InItalic(c: char) { c != '_' && c != '\n' }

  predicate All(s: string, accept: char -> bool)
  {
    forall k | 0 <= k < |s| :: accept(s[k])
  }

  /** `https?://[^)\s]+` */
  predicate IsUrl(u: string)
  {
    && All(u, InUrl)
    && (("http://" <= u && |u| > 7) || ("https://" <= u && |u| > 8))
  }

  /** How a body is written in a style. */
  function Markup(style: Style, body: string): string
  {
    match style
    case Bold => "*" + body + "*"
    case Italic => "_" + body + "_"
    case Link(url) => "[" + body + "](" + url + ")"
  }

  /** Bodies (and link targets) the pattern accepts. */
  predicate Allowed(style: Style, body: string)
  {
    && body != ""
    && match style
       case Bold => All(body, InBold)
       case Italic => All(body, InItalic)
       case Link(url) => All(body, InLinkText) && IsUrl(url)
  }

  lemma {:induction false} AllIn(s: string, accept: char -> bool)
    ensures All(s, accept) <==> forall c | c in s :: accept(c)
  {
  }

  /**
   The pattern in words: a body is not empty, stays on one line and does not contain the
   character that ends it; a target is "http://" or "https://" and more, without a closing
   parenthesis or white space.
   */
  lemma {:induction false} AllowedInWords(body: string, url: string)
    ensures Allowed(Bold, body) <==> body != "" && '*' !in body && '\n' !in body
    ensures Allowed(Italic, body) <==> body != "" && '_' !in body && '\n' !in body
    ensures Allowed(Link(url), body) <==>
            && body != "" && ']' !in body && '\n' !in body
            && (exists rest :: rest != "" && (url == "http://" + rest || url == "https://" + rest))
            && ')' !in url && forall c | c in url :: c !in SPACES
  {
    AllIn(body, InBold);
    AllIn(body, InItalic);
    AllIn(body, InLinkText);
    AllIn(url, InUrl);
    hide All;
    hide SPACES;
    hide IsSpace;
    forall c
      ensures IsSpace(c) <==> c in SPACES
    {
      SpacesAre(c);
    }
    SchemeInWords(url);
  }

  lemma {:induction false} SchemeInWords(url: string)
    ensures ("http://" <= url && |url| > 7) || ("https://" <= url && |url| > 8) <==>
            exists rest :: rest != "" && (url == "http://" + rest || url == "https://" + rest)
  {
    if "http://" <= url && |url| > 7 {
      assert url == "http://" + url[7..];
    }
    if "https://" <= url && |url| > 8 {
      assert url == "https://" + url[8..];
    }
  }

  /** `m` is an occurrence of the pattern in `t`. */
  predicate Occurs(t: string, m: Match)
  {
    && m.start <= m.end <= |t|
    && t[m.start..m.end] == Markup(m.style, m.body)
    && Allowed(m.style, m.body)
  }

  /** The end of the longest run of accepted characters from `i`. */
  function Run(t: string, i: nat, accept: char -> bool): (j: nat)
    requires i <= |t|
    ensures i <= j <= |t|
    ensures All(t[i..j], accept)
    ensures j < |t| ==> !accept(t[j])
    decreases |t| - i
  {
    if i < |t| && accept(t[i]) then
      var j := Run(t, i + 1, accept);
      assert t[i..j] == [t[i]] + t[i + 1..j];
      j
    else i
  }

  lemma {:induction false} RunUnique(t: string, i: nat, j: nat, accept: char -> bool)
    requires i <= j <= |t| && All(t[i..j], accept)
    requires j == |t| || !accept(t[j])
    ensures Run(t, i, accept) == j
    decreases j - i
  {
    if i < j {
      assert t[i] == t[i..j][0];
      assert t[i + 1..j] == t[i..j][1..];
      RunUnique(t, i + 1, j, accept);
    }
  }

  function LinkAt(t: string, i: nat): Option<Match>
    requires i < |t|
  {
    var j := Run(t, i + 1, InLinkText);
    if j == i + 1 || j + 1 >= |t| || t[j] != ']' || t[j + 1] != '(' then None
    else
      var k := Run(t, j + 2, InUrl);
      if k < |t| && t[k] == ')' && IsUrl(t[j + 2..k])
      then Some(Match(i, k + 1, Link(t[j + 2..k]), t[i + 1..j]))
      else None
  }

  function EmphasisAt(t: string, i: nat, style: Style, mark: char, accept: char -> bool): Option<Match>
    requires i < |t|
  {
    var j := Run(t, i + 1, accept);
    if j == i + 1 || j == |t| || t[j] != mark then None
    else Some(Match(i, j + 1, style, t[i + 1..j]))
  }

  /** The occurrence of the pattern starting at `i`, found by one scan to the right. */
  function MatchAt(t: string, i: nat): Option<Match>
    requires i < |t|
  {
    if t[i] == '[' then LinkAt(t, i)
    else if t[i] == '*' then EmphasisAt(t, i, Bold, '*', InBold)
    else if t[i] == '_' then EmphasisAt(t, i, Italic, '_', InItalic)
    else None
  }

  lemma {:induction false} LinkAtSound(t: string, i: nat)
    requires i < |t| && t[i] == '[' && LinkAt(t, i).Some?
    ensures LinkAt(t, i).value.start == i < LinkAt(t, i).value.end && Occurs(t, LinkAt(t, i).value)
  {
    hide All;
    hide IsUrl;
    var m := LinkAt(t, i).value;
    var j := Run(t, i + 1, InLinkText);
    assert m.body == t[i + 1..j] && m.style.url == t[j + 2..m.end - 1];
    LinkSpells(t, i, j, m.end - 1);
  }

  lemma {:induction false} LinkSpells(t: string, i: nat, j: nat, k: nat)
    requires i < j && j + 2 <= k < |t| && t[i] == '[' && t[j] == ']' && t[j + 1] == '(' && t[k] == ')'
    ensures t[i..k + 1] == "[" + t[i + 1..j] + "](" + t[j + 2..k] + ")"
  {
    assert t[i..j] == "[" + t[i + 1..j];
    assert t[i..j + 2] == t[i..j] + "](";
    assert t[i..k] == t[i..j + 2] + t[j + 2..k];
    assert t[i..k + 1] == t[i..k] + ")";
  }

  lemma {:induction false} EmphasisAtSound(t: string, i: nat, style: Style, mark: char, accept: char -> bool)
    requires i < |t| && t[i] == mark && EmphasisAt(t, i, style, mark, accept).Some?
    ensures var m := EmphasisAt(t, i, style, mark, accept).value;
            && m.start == i < m.end <= |t| && m.style == style
            && t[i..m.end] == [mark] + m.body + [mark] && m.body != "" && All(m.body, accept)
  {
    var m := EmphasisAt(t, i, style, mark, accept).value;
    assert t[i..m.end - 1] == [mark] + m.body;
    assert t[i..m.end] == t[i..m.end - 1] + [mark];
  }

  lemma {:induction false} MatchAtSound(t: string, i: nat)
    requires i < |t| && MatchAt(t, i).Some?
    ensures MatchAt(t, i).value.start == i < MatchAt(t, i).value.end && Occurs(t, MatchAt(t, i).value)
  {
    if t[i] == '[' {
      LinkAtSound(t, i);
    } else if t[i] == '*' {
      EmphasisAtSound(t, i, Bold, '*', InBold);
    } else {
      EmphasisAtSound(t, i, Italic, '_', InItalic);
    }
  }

  /** Reads the pieces of `t[a..b] == x + y` off `t`. */
  lemma {:induction false} SplitSlice(t: string, a: nat, b: nat, x: string, y: string)
    requires a <= b <= |t| && t[a..b] == x + y
    ensures a + |x| <= b && t[a..a + |x|] == x && t[a + |x|..b] == y
  {
    assert |x + y| == b - a;
    assert t[a..b][..|x|] == x && t[a..b][|x|..] == y;
    assert t[a..b][..|x|] == t[a..a + |x|];
    assert t[a..b][|x|..] == t[a + |x|..b];
  }

  lemma {:induction false} EmphasisComplete(t: string, m: Match, mark: char, accept: char -> bool)
    requires m.start <= m.end <= |t| && t[m.start..m.end] == [mark] + m.body + [mark]
    requires m.body != "" && All(m.body, accept) && !accept(mark)
    ensures m.start < |t| && t[m.start] == mark
    ensures EmphasisAt(t, m.start, m.style, mark, accept) == Some(m)
  {
    var i, j := m.start, m.start + 1 + |m.body|;
    SplitSlice(t, i, m.end, [mark] + m.body, [mark]);
    SplitSlice(t, i, j, [mark], m.body);
    assert t[i] == t[i..i + 1][0] && t[j] == t[j..m.end][0];
    RunUnique(t, i + 1, j, accept);
  }

  lemma {:induction false} LinkLayout(t: string, i: nat, end: nat, b: string, u: string)
    requires i <= end <= |t| && t[i..end] == "[" + b + "](" + u + ")"
    ensures end == i + 1 + |b| + 2 + |u| + 1
    ensures t[i] == '[' && t[end - 1] == ')'
    ensures t[i + 1..i + 1 + |b|] == b && t[i + 1 + |b| + 2..end - 1] == u
    ensures t[i + 1 + |b|] == ']' && t[i + 1 + |b| + 1] == '('
  {
    var j := i + 1 + |b|;
    SplitSlice(t, i, end, "[" + b + "](" + u, ")");
    SplitSlice(t, i, end - 1, "[" + b + "](", u);
    SplitSlice(t, i, j + 2, "[" + b, "](");
    SplitSlice(t, i, j, "[", b);
    assert t[i] == t[i..i + 1][0] && t[end - 1] == t[end - 1..end][0];
    assert t[j] == t[j..j + 2][0] && t[j + 1] == t[j..j + 2][1];
  }

  lemma {:induction false} UrlCharacters(u: string)
    requires IsUrl(u)
    ensures All(u, InUrl)
  {
  }

  lemma {:induction false} LinkComplete(t: string, m: Match)
    requires Occurs(t, m) && m.style.Link?
    ensures m.start < |t| && t[m.start] == '['
    ensures LinkAt(t, m.start) == Some(m)
  {
    hide All;
    hide IsUrl;
    LinkLayout(t, m.start, m.end, m.body, m.style.url);
    UrlCharacters(m.style.url);
    hide Occurs;
    LinkScans(t, m.start, m.start + 1 + |m.body|, m.end - 1, m.body, m.style.url);
  }

  /** The scan for a link goes over the text up to `]`, then over the target up to `)`. */
  lemma {:induction false} LinkScans(t: string, i: nat, j: nat, k: nat, body: string, url: string)
    requires i + 1 < j && j + 2 <= k < |t|
    requires t[i + 1..j] == body && All(body, InLinkText) && t[j] == ']' && t[j + 1] == '('
    requires t[j + 2..k] == url && All(url, InUrl) && IsUrl(url) && t[k] == ')'
    ensures LinkAt(t, i) == Some(Match(i, k + 1, Link(url), body))
  {
    hide All;
    hide IsUrl;
    RunUnique(t, i + 1, j, InLinkText);
    RunUnique(t, j + 2, k, InUrl);
  }

  /** The scan finds exactly the occurrences of the pattern, and at most one starts at each place. */
  lemma {:induction false} MatchAtExact(t: string, i: nat, m: Match)
    requires i < |t|
    ensures MatchAt(t, i) == Some(m) <==> m.start == i && Occurs(t, m)
  {
    if MatchAt(t, i) == Some(m) {
      MatchAtSound(t, i);
    }
    if m.start == i && Occurs(t, m) {
      match m.style
      case Bold => EmphasisComplete(t, m, '*', InBold);
      case Italic => EmphasisComplete(t, m, '_', InItalic);
      case Link(url) => LinkComplete(t, m);
    }
  }

  /** No occurrence of the pattern starts at a position from `a` up to `b`. */
  predicate Quiet(t: string, a: nat, b: nat)
  {
    forall i | a <= i < b && i < |t| :: MatchAt(t, i).None?
  }

  /** `MD_PAT.finditer(t)` from position `pos` on. */
  function FindAll(t: string, pos: nat): seq<Match>
    requires pos <= |t|
    decreases |t| - pos
  {
    if pos == |t| then []
    else match MatchAt(t, pos)
      case None => FindAll(t, pos + 1)
      case Some(m) => MatchAtSound(t, pos); [m] + FindAll(t, m.end)
  }

  /** The specification of `finditer`: leftmost occurrences, each search resuming at the last end. */
  ghost predicate LeftmostMatches(t: string, pos: nat, ms: seq<Match>)
    requires pos <= |t|
    decreases |ms|
  {
    if ms == [] then Quiet(t, pos, |t|)
    else
      && Occurs(t, ms[0])
      && pos <= ms[0].start
      && Quiet(t, pos, ms[0].start)
      && LeftmostMatches(t, ms[0].end, ms[1..])
  }

  lemma {:induction false} FindAllIsLeftmost(t: string, pos: nat)
    requires pos <= |t|
    ensures LeftmostMatches(t, pos, FindAll(t, pos))
    decreases |t| - pos
  {
    hide MatchAt;
    hide Occurs;
    if pos < |t| {
      match MatchAt(t, pos)
      case None =>
        FindAllIsLeftmost(t, pos + 1);
      case Some(m) =>
        MatchAtSound(t, pos);
        FindAllIsLeftmost(t, m.end);
        assert ([m] + FindAll(t, m.end))[1..] == FindAll(t, m.end);
    }
  }

  lemma {:induction false} OccurringLinkHasUrl(t: string, m: Match)
    requires Occurs(t, m)
    ensures m.style != Link("")
  {
  }

  lemma {:induction false} OccursNonEmpty(t: string, m: Match)
    requires Occurs(t, m)
    ensures m.start < m.end <= |t| && |m.body| + 2 <= m.end - m.start && m.body != ""
  {
    assert |t[m.start..m.end]| == m.end - m.start;
  }

  lemma {:induction false} LeftmostUnique(t: string, pos: nat, ms: seq<Match>)
    requires pos <= |t| && LeftmostMatches(t, pos, ms)
    ensures ms == FindAll(t, pos)
    decreases |t| - pos
  {
    hide MatchAt;
    hide Occurs;
    if pos < |t| {
      if ms != [] && ms[0].start == pos {
        MatchAtExact(t, pos, ms[0]);
        OccursNonEmpty(t, ms[0]);
        LeftmostUnique(t, ms[0].end, ms[1..]);
        assert ms == [ms[0]] + ms[1..];
      } else {
        assert MatchAt(t, pos).None?;
        LeftmostUnique(t, pos + 1, ms);
      }
    } else if ms != [] {
      OccursNonEmpty(t, ms[0]);
    }
  }

  /** The scanner computes the leftmost, non-overlapping occurrences and nothing else. */
  lemma {:induction false} FindAllExact(t: string, pos: nat, ms: seq<Match>)
    requires pos <= |t|
    ensures ms == FindAll(t, pos) <==> LeftmostMatches(t, pos, ms)
  {
    FindAllIsLeftmost(t, pos);
    if LeftmostMatches(t, pos, ms) {
      LeftmostUnique(t, pos, ms);
    }
  }

  /** Matches in order, disjoint, with non-empty bodies, within `[pos, n]`. */
  ghost predicate MatchChain(ms: seq<Match>, pos: nat, n: nat)
  {
    if ms == [] then pos <= n
    else pos <= ms[0].start < ms[0].end && ms[0].body != "" && MatchChain(ms[1..], ms[0].end, n)
  }

  lemma {:induction false} MatchChainBounds(ms: seq<Match>, pos: nat, n: nat)
    requires MatchChain(ms, pos, n)
    ensures pos <= n && (ms != [] ==> ms[0].end <= n)
  {
    if ms != [] {
      MatchChainBounds(ms[1..], ms[0].end, n);
    }
  }

  lemma {:induction false} LeftmostMatchesChain(t: string, pos: nat, ms: seq<Match>)
    requires pos <= |t| && LeftmostMatches(t, pos, ms)
    ensures MatchChain(ms, pos, |t|)
    ensures forall m | m in ms :: Occurs(t, m)
    decreases |ms|
  {
    hide MatchAt;
    hide Markup;
    if ms != [] {
      OccursNonEmpty(t, ms[0]);
      LeftmostMatchesChain(t, ms[0].end, ms[1..]);
    }
  }

  lemma {:induction false} FindAllChain(t: string)
    ensures MatchChain(FindAll(t, 0), 0, |t|)
    ensures forall m | m in FindAll(t, 0) :: Occurs(t, m)
  {
    FindAllIsLeftmost(t, 0);
    LeftmostMatchesChain(t, 0, FindAll(t, 0));
  }
}
