/** The string operations the configuration format is made of. */
module Text {
  import opened Wrappers

  /** White space as the Unicode property defines it. */
  predicate IsSpace(c: char) {
    || '\t' <= c <= '\r' || c == ' ' || c == '\U{85}' || c == '\U{A0}' || c == '\U{1680}'
    || '\U{2000}' <= c <= '\U{200A}' || c == '\U{2028}' || c == '\U{2029}' || c == '\U{202F}' || c == '\U{205F}'
    || c == '\U{3000}'
  }

  /** The code points with the property White_Space. */
  lemma WhiteSpace(c: char)
    ensures IsSpace(c) <==> c as int in {0x9, 0xA, 0xB, 0xC, 0xD, 0x20, 0x85, 0xA0, 0x1680, 0x2000, 0x2001, 0x2002,
                                         0x2003, 0x2004, 0x2005, 0x2006, 0x2007, 0x2008, 0x2009, 0x200A, 0x2028,
                                         0x2029, 0x202F, 0x205F, 0x3000}
  {
  }

  function TrimLeft(s: string): string {
    if s != "" && IsSpace(s[0]) then TrimLeft(s[1..]) else s
  }

  function TrimRight(s: string): string {
    if s != "" && IsSpace(s[|s| - 1]) then TrimRight(s[..|s| - 1]) else s
  }

  function Trim(s: string): string { TrimRight(TrimLeft(s)) }

  predicate Trimmed(s: string) { s == "" || (!IsSpace(s[0]) && !IsSpace(s[|s| - 1])) }

  /** No character of the string is among these. */
  predicate Without(s: string, cs: set<char>) { forall c :: c in s ==> c !in cs }

  lemma {:induction false} TrimLeftTail(s: string)
    ensures TrimLeft(s) == "" || !IsSpace(TrimLeft(s)[0])
    ensures exists i :: 0 <= i <= |s| && TrimLeft(s) == s[i..]
  {
    if s != "" && IsSpace(s[0]) {
      TrimLeftTail(s[1..]);
      var i :| 0 <= i <= |s[1..]| && TrimLeft(s[1..]) == s[1..][i..];
      assert s[1..][i..] == s[i + 1..];
    } else {
      assert s[0..] == s;
    }
  }

  lemma {:induction false} TrimRightHead(s: string)
    ensures TrimRight(s) == "" || !IsSpace(TrimRight(s)[|TrimRight(s)| - 1])
    ensures |TrimRight(s)| <= |s| && TrimRight(s) == s[..|TrimRight(s)|]
    decreases |s|
  {
    if s != "" && IsSpace(s[|s| - 1]) {
      TrimRightHead(s[..|s| - 1]);
    }
  }

  /** Trimming yields a trimmed part of the string. */
  lemma TrimIsTrimmed(s: string)
    ensures Trimmed(Trim(s))
    ensures forall c :: c in Trim(s) ==> c in s
    ensures Trimmed(s) ==> Trim(s) == s
  {
    TrimLeftTail(s);
    TrimRightHead(TrimLeft(s));
  }

  lemma TrimKeepsWithout(s: string, cs: set<char>)
    requires Without(s, cs)
    ensures Without(Trim(s), cs)
  {
    TrimIsTrimmed(s);
  }

  /** One space on either side is trimmed away. */
  lemma TrimPadded(s: string)
    requires Trimmed(s) && s != ""
    ensures Trim(" " + s) == s && Trim(s + " ") == s
  {
    assert (" " + s)[1..] == s;
    assert TrimLeft(" " + s) == s;
    assert (s + " ")[0] == s[0];
    assert (s + " ")[..|s|] == s;
    assert TrimRight(s + " ") == TrimRight(s);
  }

  lemma Joined(a: string, x: char, b: string, cs: set<char>)
    requires a != "" && b != "" && Trimmed(a) && Trimmed(b) && Without(a, cs) && Without(b, cs) && x !in cs
    ensures a + [x] + b != "" && Trimmed(a + [x] + b) && Without(a + [x] + b, cs)
  {
    var s := a + [x] + b;
    assert s[0] == a[0] && s[|s| - 1] == b[|b| - 1];
    hide IsSpace;
    assert forall y :: y in s ==> y in a || y == x || y in b;
  }

  /** The first position of a character, or the length. */
  function Find(s: string, c: char): (i: nat)
    ensures i <= |s| && (i < |s| ==> s[i] == c) && forall j :: 0 <= j < i ==> s[j] != c
    ensures i == |s| <==> c !in s
  {
    if s == "" || s[0] == c then 0 else Find(s[1..], c) + 1
  }

  lemma {:induction false} FindConcat(a: string, b: string, c: char)
    requires c !in a
    ensures Find(a + b, c) == |a| + Find(b, c)
  {
    if a == "" {
      assert a + b == b;
    } else {
      assert (a + b)[1..] == a[1..] + b;
      FindConcat(a[1..], b, c);
    }
  }

  lemma FindHere(c: char, rest: string)
    ensures Find([c] + rest, c) == 0
  {
  }

  /** Around the first occurrence of a character. */
  function Cut(s: string, c: char): Option<(string, string)> {
    if c in s then Some((s[..Find(s, c)], s[Find(s, c) + 1..])) else None
  }

  lemma CutAt(a: string, c: char, b: string)
    requires c !in a
    ensures Cut(a + [c] + b, c) == Some((a, b))
  {
    FindConcat(a, [c] + b, c);
    assert a + [c] + b == a + ([c] + b);
    assert (a + [c] + b)[|a|] == c;
    assert (a + [c] + b)[..|a|] == a && (a + [c] + b)[|a| + 1..] == b;
  }

  lemma CutNone(s: string, c: char)
    requires c !in s
    ensures Cut(s, c) == None
  {
  }

  /** The parts between the occurrences of a character; at least one. */
  function Split(s: string, c: char): (parts: seq<string>)
    ensures parts != []
    decreases |s|
  {
    if c in s then [s[..Find(s, c)]] + Split(s[Find(s, c) + 1..], c) else [s]
  }

  lemma {:induction false} SplitParts(s: string, c: char, cs: set<char>)
    requires Without(s, cs)
    ensures forall p :: p in Split(s, c) ==> Without(p, cs) && c !in p
    decreases |s|
  {
    if c in s {
      SplitParts(s[Find(s, c) + 1..], c, cs);
    }
  }

  lemma SplitAt(a: string, c: char, b: string)
    requires c !in a
    ensures Split(a + [c] + b, c) == [a] + Split(b, c)
  {
    CutAt(a, c, b);
    assert (a + [c] + b)[|a|] == c;
    FindConcat(a, [c] + b, c);
    assert a + [c] + b == a + ([c] + b);
  }

  function Join(parts: seq<string>, sep: string): string {
    if parts == [] then "" else if |parts| == 1 then parts[0] else parts[0] + sep + Join(parts[1..], sep)
  }

  /** Upper-case letters of the ASCII alphabet, and the two other letters whose lower case is in it. */
  function LowerChar(c: char): char {
    if 'A' <= c <= 'Z' then (c as int + 32) as char
    else if c == '\U{130}' then 'i'
    else if c == '\U{212A}' then 'k'
    else c
  }

  /** The letters of the alphabet lose their case, as do the dotted capital I and the sign for kelvin; everything
      else stays. */
  lemma LowerLetters(c: char)
    ensures 0x41 <= c as int <= 0x5A ==> LowerChar(c) as int - 0x61 == c as int - 0x41
    ensures c as int == 0x130 ==> LowerChar(c) == 'i'
    ensures c as int == 0x212A ==> LowerChar(c) == 'k'
    ensures !(0x41 <= c as int <= 0x5A) && c as int !in {0x130, 0x212A} ==> LowerChar(c) == c
  {
  }

  function Lower(s: string): (r: string)
    ensures |r| == |s| && forall i :: 0 <= i < |s| ==> r[i] == LowerChar(s[i])
  {
    seq(|s|, i requires 0 <= i < |s| => LowerChar(s[i]))
  }

  predicate HasPrefix(s: string, p: string) { p <= s }

  predicate HasSuffix(s: string, p: string) { |p| <= |s| && s[|s| - |p|..] == p }
}
