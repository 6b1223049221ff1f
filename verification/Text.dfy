/** Python's white space, `str.strip` and the prefix test used on its result. */
module Text {

  /** The characters `str.isspace`, `str.strip` and the pattern class `\s` agree on. */
  predicate IsSpace(c: char)
  {
    var n := c as int;
    || 0x09 <= n <= 0x0D || 0x1C <= n <= 0x20 || n == 0x85 || n == 0xA0 || n == 0x1680
    || 0x2000 <= n <= 0x200A || n == 0x2028 || n == 0x2029 || n == 0x202F || n == 0x205F || n == 0x3000
  }

  function StripLeft(s: string): string
  {
    if s != "" && IsSpace(s[0]) then StripLeft(s[1..]) else s
  }

  function StripRight(s: string): string
  {
    if s != "" && IsSpace(s[|s| - 1]) then StripRight(s[..|s| - 1]) else s
  }

  function Strip(s: string): string
  {
    StripRight(StripLeft(s))
  }

  lemma {:induction false} StripRightIsPrefix(s: string)
    ensures StripRight(s) <= s
  {
    if s != "" && IsSpace(s[|s| - 1]) {
      StripRightIsPrefix(s[..|s| - 1]);
    }
  }

  /** Stripping cannot expose a first character other than a leading non-space one. */
  lemma {:induction false} StripKeepsFirst(s: string)
    requires s != "" && !IsSpace(s[0]) && Strip(s) != ""
    ensures Strip(s)[0] == s[0]
  {
    StripRightIsPrefix(s);
  }

  /** The ASCII white space with the separators, next line, and the spaces of Unicode. */
  const SPACES :=
    "\U{0009}\U{000A}\U{000B}\U{000C}\U{000D}\U{001C}\U{001D}\U{001E}\U{001F}\U{0020}\U{0085}\U{00A0}\U{1680}"
    + "\U{2000}\U{2001}\U{2002}\U{2003}\U{2004}\U{2005}\U{2006}\U{2007}\U{2008}\U{2009}\U{200A}"
    + "\U{2028}\U{2029}\U{202F}\U{205F}\U{3000}"

  lemma {:induction false} SpacesAre(c: char)
    ensures IsSpace(c) <==> c in SPACES
  {
    if c in SPACES {
      ListedIsSpace(c);
    }
    if IsSpace(c) {
      SpaceIsListed(c);
    }
    hide IsSpace;
    hide SPACES;
  }

  lemma {:induction false} ListedIsSpace(c: char)
    requires c in SPACES
    ensures IsSpace(c)
  {
    var i :| 0 <= i < |SPACES| && SPACES[i] == c;
  }

  lemma {:induction false} SpaceIsListed(c: char)
    requires IsSpace(c)
    ensures c in SPACES
  {
    var i := SpaceAt(c as int);
    assert i < |SPACES|;
    assert SPACES[i] == c;
  }

  /** Where in `SPACES` the character stands. */
  function SpaceAt(n: int): nat
  {
    if 0x09 <= n <= 0x0D then n - 0x09 else if 0x1C <= n <= 0x20 then n - 0x17 else if n == 0x85 then 10
    else if n == 0xA0 then 11 else if n == 0x1680 then 12 else if 0x2000 <= n <= 0x200A then n - 0x2000 + 13
    else if 0x2028 <= n <= 0x2029 then n - 0x2028 + 24 else if n == 0x202F then 26
    else if n == 0x205F then 27 else 28
  }

  lemma {:induction false} StripLeftExact(s: string) returns (a: nat)
    ensures a <= |s| && StripLeft(s) == s[a..] && (forall i | 0 <= i < a :: IsSpace(s[i]))
    ensures a < |s| ==> !IsSpace(s[a])
  {
    if s != "" && IsSpace(s[0]) {
      var b := StripLeftExact(s[1..]);
      assert s[1..][b..] == s[b + 1..] && forall i | 0 < i < b + 1 :: s[i] == s[1..][i - 1];
      a := b + 1;
    } else {
      a := 0;
    }
  }

  lemma {:induction false} StripRightExact(s: string) returns (b: nat)
    ensures b <= |s| && StripRight(s) == s[..b] && (forall i | b <= i < |s| :: IsSpace(s[i]))
    ensures b > 0 ==> !IsSpace(s[b - 1])
  {
    if s != "" && IsSpace(s[|s| - 1]) {
      b := StripRightExact(s[..|s| - 1]);
      assert s[..|s| - 1][..b] == s[..b] && forall i | b <= i < |s| - 1 :: s[i] == s[..|s| - 1][i];
    } else {
      b := |s|;
    }
  }

  /** What is stripped is white space at both ends, and all of it. */
  lemma {:induction false} StripExact(s: string)
    ensures exists a: nat, b: nat ::
              && a <= b <= |s| && Strip(s) == s[a..b]
              && (forall i | 0 <= i < a || b <= i < |s| :: s[i] in SPACES)
              && (a < b ==> s[a] !in SPACES && s[b - 1] !in SPACES)
  {
    hide SPACES;
    var a := StripLeftExact(s);
    var t := s[a..];
    var b := StripRightExact(t);
    forall i | 0 <= i < |s|
      ensures IsSpace(s[i]) <==> s[i] in SPACES
    {
      SpacesAre(s[i]);
    }
    assert t[..b] == s[a..a + b];
    assert forall i | b <= i < |t| :: t[i] == s[a + i];
    assert b > 0 ==> t[0] == s[a] && t[b - 1] == s[a + b - 1];
  }
}
