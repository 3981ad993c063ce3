/** Sizes on the wire: what the padding and the signature chains of a configuration add up to. */
module Wire {
  import opened Wrappers
  import opened Text
  import opened Decimal
  import opened Params

  const INITIATION: nat := 148
  const RESPONSE: nat := 92
  const COOKIE_REPLY: nat := 64

  predicate IsHexDigit(c: char) { IsDigit(c) || 'a' <= c <= 'f' || 'A' <= c <= 'F' }

  /** How many bytes a hexadecimal text stands for. */
  function HexLength(s: string): Option<nat> {
    if |s| % 2 == 0 && forall c :: c in s ==> IsHexDigit(c) then Some(|s| / 2) else None
  }

  function TrimPrefix(s: string, p: string): string { if HasPrefix(s, p) then s[|p|..] else s }

  /** The runs between white space. */
  function Fields(s: string): seq<string>
    decreases |s|
  {
    var t := TrimLeft(s);
    TrimLeftTail(s);
    if t == "" then []
    else
      var n := Word(t);
      [t[..n]] + Fields(t[n..])
  }

  /** The length of the run in front. */
  function Word(s: string): (n: nat)
    ensures n <= |s| && (s != "" && !IsSpace(s[0]) ==> n > 0)
    ensures forall i :: 0 <= i < n ==> !IsSpace(s[i])
    ensures n < |s| ==> IsSpace(s[n])
  {
    if s == "" || IsSpace(s[0]) then 0 else Word(s[1..]) + 1
  }

  /** The size a tag adds, which may be negative. None if the sender would not build the packet. */
  function TagSize(parts: seq<string>): Option<int> {
    if parts == [] then None
    else
      var val := if |parts| > 1 then parts[1] else "";
      if parts[0] == "t" then Some(4)
      else if parts[0] == "d" || parts[0] == "ds" then Some(0)
      else if parts[0] == "b" then
        var n := HexLength(TrimPrefix(val, "0x"));
        if n == None || n.value == 0 then None else Some(n.value)
      else if parts[0] == "r" || parts[0] == "rc" || parts[0] == "rd" || parts[0] == "dz" then ParseInt(val)
      else None
  }

  /** What the tag in front adds, and where it ends. */
  function FirstTag(spec: string): (tag: Option<(Option<int>, nat)>)
    requires '<' in spec
    ensures tag.Some? ==> tag.value.1 < |spec|
  {
    var start := Find(spec, '<');
    if '>' !in spec[start..] then None
    else
      var end := start + Find(spec[start..], '>');
      Some((TagSize(Fields(spec[start + 1..end])), end))
  }

  /** The sizes of all tags of a chain. None for a chain that is inert: one the sender ignores or refuses
      to build. */
  function Sizes(spec: string): Option<seq<int>>
    decreases |spec|
  {
    if '<' !in spec then Some([])
    else
      var tag := FirstTag(spec);
      if tag == None || tag.value.0 == None then None
      else
        var more := Sizes(spec[tag.value.1 + 1..]);
        if more == None then None else Some([tag.value.0.value] + more.value)
  }

  // ---------------------------------------------------------------- Chains as they are written

  /** The tags of a chain: the time, the payload, given bytes, and so many bytes that are made up or that
      stand for a length. */
  datatype Tag =
    | Time
    | Payload(shifted: bool)
    | Given(hex: string, prefixed: bool)
    | Made(kind: string, n: int)

  ghost predicate IsHexText(s: string) { forall c :: c in s ==> c in "0123456789abcdefABCDEF" }

  lemma HexTexts(s: string)
    requires IsHexText(s)
    ensures forall c :: c in s ==> IsHexDigit(c)
  {
  }

  ghost predicate GoodTag(t: Tag) {
    match t
    case Given(hex, _) => hex != "" && |hex| % 2 == 0 && IsHexText(hex)
    case Made(kind, n) => kind in {"r", "rc", "rd", "dz"} && -0x8000_0000_0000_0000 <= n < 0x8000_0000_0000_0000
    case _ => true
  }

  /** The bytes it adds to the packet. */
  function Adds(t: Tag): int {
    match t
    case Time => 4
    case Payload(_) => 0
    case Given(hex, _) => |hex| / 2
    case Made(_, n) => n
  }

  function Words(t: Tag): seq<string> {
    match t
    case Time => ["t"]
    case Payload(shifted) => [if shifted then "ds" else "d"]
    case Given(hex, prefixed) => ["b", if prefixed then "0x" + hex else hex]
    case Made(kind, n) => [kind, PrintInt(n)]
  }

  function Written(t: Tag): string { ['<'] + Join(Words(t), " ") + ['>'] }

  /** Each tag with the text in front of it, which goes nowhere, and some text behind them all. */
  function Chain(tags: seq<(string, Tag)>, rest: string): string {
    if tags == [] then rest else tags[0].0 + (Written(tags[0].1) + Chain(tags[1..], rest))
  }

  function AllAdd(tags: seq<(string, Tag)>): (sizes: seq<int>)
    ensures |sizes| == |tags| && forall i :: 0 <= i < |tags| ==> sizes[i] == Adds(tags[i].1)
  {
    seq(|tags|, i requires 0 <= i < |tags| => Adds(tags[i].1))
  }

  ghost predicate IsWord(w: string) { w != "" && forall c :: c in w ==> !IsSpace(c) && c !in {'<', '>'} }

  lemma {:induction false} WordIs(w: string, rest: string)
    requires IsWord(w) && (rest == "" || IsSpace(rest[0]))
    ensures Word(w + rest) == |w|
  {
    assert w[0] in w && (w + rest)[0] == w[0] && (w + rest)[1..] == w[1..] + rest;
    if |w| > 1 {
      WordIs(w[1..], rest);
    } else {
      assert w[1..] + rest == rest;
    }
  }

  lemma FieldsOfOne(w: string)
    requires IsWord(w)
    ensures Fields(w) == [w]
  {
    WordIs(w, "");
    assert w + "" == w && w[0] in w;
    assert TrimLeft(w) == w && w[..|w|] == w && w[|w|..] == "";
    assert Fields("") == [];
  }

  lemma FieldsOfTwo(a: string, b: string)
    requires IsWord(a) && IsWord(b)
    ensures Fields(a + " " + b) == [a, b]
  {
    var s := a + " " + b;
    assert s == a + (" " + b) && a[0] in a && b[0] in b;
    WordIs(a, " " + b);
    FieldsOfOne(b);
    assert TrimLeft(s) == s && s[..|a|] == a && s[|a|..] == " " + b;
    assert (" " + b)[1..] == b && TrimLeft(" " + b) == b && TrimLeft(b) == b;
    assert Fields(" " + b) == Fields(b);
  }

  lemma PrefixedWord(hex: string)
    requires IsWord(hex)
    ensures IsWord("0x" + hex) && ("0x" + hex)[2..] == hex
  {
  }

  lemma HexIsWord(hex: string)
    requires hex != "" && IsHexText(hex)
    ensures IsWord(hex)
  {
    HexTexts(hex);
    hide IsHexText;
  }

  lemma WordsAreWords(t: Tag)
    requires GoodTag(t)
    ensures forall w :: w in Words(t) ==> IsWord(w)
  {
    match t {
      case Given(hex, prefixed) =>
        HexIsWord(hex);
        hide IsHexText;
        PrefixedWord(hex);
        var w := if prefixed then "0x" + hex else hex;
        assert IsWord(w) && IsWord("b");
        hide IsWord;
      case Made(kind, n) =>
        PrintIntHasNoSpace(n);
        assert IsWord(kind);
        hide IsWord, PrintInt;
      case _ =>
    }
  }

  lemma PrintIntHasNoSpace(n: int)
    ensures IsWord(PrintInt(n))
  {
    if n < 0 {
      assert forall c :: c in PrintInt(n) ==> c == '-' || c in Print(-n);
    }
  }

  lemma TagSizeIs(t: Tag)
    requires GoodTag(t)
    ensures TagSize(Words(t)) == Some(Adds(t))
  {
    match t {
      case Given(hex, prefixed) => GivenSize(hex);
      case Made(_, n) =>
        ParsePrintInt(n);
        hide ParseInt, PrintInt;
      case _ =>
    }
  }

  lemma GivenSize(hex: string)
    requires hex != "" && |hex| % 2 == 0 && IsHexText(hex)
    ensures TagSize(["b", hex]) == Some(|hex| / 2) && TagSize(["b", "0x" + hex]) == Some(|hex| / 2)
  {
    HexTexts(hex);
    hide IsHexText;
    assert ("0x" + hex)[2..] == hex;
    assert TrimPrefix("0x" + hex, "0x") == hex;
    assert hex[1] in hex;
    assert TrimPrefix(hex, "0x") == hex;
    assert HexLength(hex) == Some(|hex| / 2);
    hide HexLength, TrimPrefix;
  }

  lemma FieldsOfTag(t: Tag)
    requires GoodTag(t)
    ensures Fields(Join(Words(t), " ")) == Words(t) && '>' !in Join(Words(t), " ")
  {
    WordsAreWords(t);
    hide GoodTag;
    var ws := Words(t);
    assert ws[0] in ws;
    if |ws| == 1 {
      FieldsOfOne(ws[0]);
    } else {
      assert ws[1] in ws && ws[1..] == [ws[1]];
      FieldsOfTwo(ws[0], ws[1]);
    }
  }

  lemma OpenIsAt(before: string, tail: string)
    requires '<' !in before && tail != "" && tail[0] == '<'
    ensures var spec := before + tail;
            '<' in spec && Find(spec, '<') == |before| && spec[|before|..] == tail
  {
    FindConcat(before, tail, '<');
    assert (before + tail)[|before|] == '<';
  }

  lemma CloseIsAt(inner: string, rest: string)
    requires '>' !in inner
    ensures var tail := ['<'] + inner + ['>'] + rest;
            '>' in tail && Find(tail, '>') == 1 + |inner|
  {
    assert '>' !in ['<'] + inner;
    FindConcat(['<'] + inner, ['>'] + rest, '>');
    FindHere('>', rest);
    var tail := ['<'] + inner + ['>'] + rest;
    assert tail == ['<'] + inner + (['>'] + rest) && tail[1 + |inner|] == '>';
  }

  lemma TagParts(before: string, inner: string, rest: string)
    ensures var spec, end := before + (['<'] + inner + ['>'] + rest), |before| + 1 + |inner|;
            end < |spec| && spec[|before| + 1..end] == inner && spec[end + 1..] == rest
  {
  }

  /** Where the first tag is, and what is behind it. */
  lemma TagIsAt(before: string, inner: string, rest: string)
    requires '<' !in before && '>' !in inner
    ensures var spec, end := before + (['<'] + inner + ['>'] + rest), |before| + 1 + |inner|;
            && '<' in spec && FirstTag(spec) == Some((TagSize(Fields(inner)), end))
            && end < |spec| && spec[end + 1..] == rest
  {
    hide TagSize, Fields, Find;
    OpenIsAt(before, ['<'] + inner + ['>'] + rest);
    CloseIsAt(inner, rest);
    TagParts(before, inner, rest);
  }

  lemma SizesNext(spec: string, n: int, end: nat)
    requires '<' in spec && end < |spec| && FirstTag(spec) == Some((Some(n), end))
    ensures Sizes(spec) == if Sizes(spec[end + 1..]) == None then None else Some([n] + Sizes(spec[end + 1..]).value)
  {
    hide FirstTag;
  }

  lemma SizesOfFirst(before: string, t: Tag, rest: string)
    requires GoodTag(t) && '<' !in before
    ensures Sizes(before + (Written(t) + rest)) ==
            if Sizes(rest) == None then None else Some([Adds(t)] + Sizes(rest).value)
  {
    hide *;
    FieldsOfTag(t);
    TagSizeIs(t);
    WrittenIs(t);
    var inner := Join(Words(t), " ");
    TagIsAt(before, inner, rest);
    SizesNext(before + (Written(t) + rest), Adds(t), |before| + 1 + |inner|);
  }

  lemma WrittenIs(t: Tag)
    ensures Written(t) == ['<'] + Join(Words(t), " ") + ['>']
  {
  }

  /** A chain adds up to what its tags add, whatever text is between them. */
  lemma {:induction false} ChainSizes(tags: seq<(string, Tag)>, rest: string)
    requires '<' !in rest && forall t :: t in tags ==> '<' !in t.0 && GoodTag(t.1)
    ensures Sizes(Chain(tags, rest)) == Some(AllAdd(tags))
  {
    hide *;
    if tags == [] {
      NoTags(rest);
    } else {
      assert tags[0] in tags;
      ChainSizes(tags[1..], rest);
      SizesOfFirst(tags[0].0, tags[0].1, Chain(tags[1..], rest));
      ChainCons(tags, rest);
    }
  }

  lemma NoTags(rest: string)
    requires '<' !in rest
    ensures Sizes(Chain([], rest)) == Some(AllAdd([]))
  {
  }

  lemma ChainCons(tags: seq<(string, Tag)>, rest: string)
    requires tags != []
    ensures Chain(tags, rest) == tags[0].0 + (Written(tags[0].1) + Chain(tags[1..], rest))
    ensures AllAdd(tags) == [Adds(tags[0].1)] + AllAdd(tags[1..])
  {
    hide Written, Adds;
  }

  /** When given bytes count: an even number of hexadecimal digits, not none, perhaps behind "0x". */
  lemma GivenExactly(val: string, n: int)
    ensures TagSize(["b", val]) == Some(n) <==>
            n > 0 && exists hex :: IsHexText(hex) && |hex| == 2 * n && (val == hex || val == "0x" + hex)
  {
    var hex := TrimPrefix(val, "0x");
    assert val == hex || val == "0x" + hex;
    HexTextExactly(hex);
    forall x | IsHexText(x) && (val == x || val == "0x" + x) ensures hex == x {
      PrefixOnce(val, x);
    }
    hide IsHexText, TrimPrefix;
  }

  lemma HexTextExactly(s: string)
    ensures HexLength(s) == if IsHexText(s) && |s| % 2 == 0 then Some(|s| / 2) else None
  {
    forall c ensures IsHexDigit(c) <==> c in "0123456789abcdefABCDEF" {
      HexDigits(c);
    }
    hide IsHexDigit;
  }

  lemma HexDigits(c: char)
    ensures IsHexDigit(c) <==> c in "0123456789abcdefABCDEF"
  {
  }

  lemma PrefixOnce(val: string, hex: string)
    requires IsHexText(hex) && (val == hex || val == "0x" + hex)
    ensures TrimPrefix(val, "0x") == hex
  {
    HexTexts(hex);
    hide IsHexText;
    if val == "0x" + hex {
      assert val[2..] == hex;
    } else if |hex| > 1 {
      assert hex[1] in hex;
    }
  }

  /** When a number counts: if it is one, whatever its sign. */
  lemma MadeExactly(kind: string, val: string, n: int)
    requires kind in {"r", "rc", "rd", "dz"}
    ensures TagSize([kind, val]) == Some(n) <==>
            -0x8000_0000_0000_0000 <= n < 0x8000_0000_0000_0000 && Integer(val, n)
  {
    if -0x8000_0000_0000_0000 <= n < 0x8000_0000_0000_0000 {
      IntegersOf(val, n);
    }
    hide ParseInt, Integer;
  }

  /** What is missing counts as empty, and what is too much does not count. */
  lemma WordsBehind(parts: seq<string>)
    requires parts != []
    ensures |parts| > 2 ==> TagSize(parts) == TagSize(parts[..2])
    ensures |parts| == 1 ==> TagSize(parts) == TagSize([parts[0], ""])
  {
    hide HexLength, TrimPrefix, ParseInt;
  }

  /** A tag of no known kind makes the whole chain inert. */
  lemma OtherTagsAreInert(before: string, inner: string, rest: string)
    requires '<' !in before && '>' !in inner
    requires Fields(inner) == [] || Fields(inner)[0] !in {"t", "d", "ds", "b", "r", "rc", "rd", "dz"}
    ensures Sizes(before + (['<'] + inner + ['>'] + rest)) == None
  {
    TagIsAt(before, inner, rest);
    assert TagSize(Fields(inner)) == None;
    hide TagSize, Fields, FirstTag;
  }

  function Sum(sizes: seq<int>): int { if sizes == [] then 0 else sizes[0] + Sum(sizes[1..]) }

  ghost predicate AllNat(sizes: seq<int>) { forall n :: n in sizes ==> n >= 0 }

  /** The packet a chain makes, if any, fits. */
  ghost predicate ChainFits(spec: string, limit: nat) {
    var sizes := Sizes(spec);
    sizes.Some? ==> AllNat(sizes.value) && Sum(sizes.value) <= limit
  }

  lemma {:induction false} SumConcat(a: seq<int>, b: seq<int>)
    ensures Sum(a + b) == Sum(a) + Sum(b)
  {
    if a == [] {
      assert a + b == b;
    } else {
      assert (a + b)[1..] == a[1..] + b;
      SumConcat(a[1..], b);
    }
  }

  lemma {:induction false} SumIsNat(sizes: seq<int>)
    requires AllNat(sizes)
    ensures Sum(sizes) >= 0
  {
    if sizes != [] {
      assert forall n :: n in sizes[1..] ==> n in sizes;
      assert sizes[0] in sizes;
      SumIsNat(sizes[1..]);
    }
  }

  /** What is left of a chain, and the sizes of the tags that have been cut off. */
  ghost predicate CutDown(chain: string, spec: string, sizes: seq<int>) {
    Sizes(chain) == if Sizes(spec) == None then None else Some(sizes + Sizes(spec).value)
  }

  lemma CutStart(chain: string)
    ensures CutDown(chain, chain, [])
  {
    hide Sizes;
    if Sizes(chain) != None {
      assert [] + Sizes(chain).value == Sizes(chain).value;
    }
  }

  lemma CutInert(chain: string, spec: string, sizes: seq<int>, limit: nat)
    requires CutDown(chain, spec, sizes) && '<' in spec && (FirstTag(spec) == None || FirstTag(spec).value.0 == None)
    ensures ChainFits(chain, limit)
  {
    hide FirstTag;
    assert Sizes(spec) == None;
  }

  lemma CutNext(chain: string, spec: string, sizes: seq<int>, n: int, end: nat)
    requires CutDown(chain, spec, sizes) && '<' in spec && end < |spec| && FirstTag(spec) == Some((Some(n), end))
    ensures CutDown(chain, spec[end + 1..], sizes + [n])
  {
    hide FirstTag;
    var rest := Sizes(spec[end + 1..]);
    assert Sizes(spec) == if rest == None then None else Some([n] + rest.value);
    hide Sizes;
    if rest != None {
      assert sizes + ([n] + rest.value) == sizes + [n] + rest.value;
    }
  }

  lemma CutEnd(chain: string, spec: string, sizes: seq<int>, limit: nat)
    requires CutDown(chain, spec, sizes) && '<' !in spec
    ensures ChainFits(chain, limit) <==> AllNat(sizes) && Sum(sizes) <= limit
  {
    assert Sizes(spec) == Some([]);
    assert sizes + [] == sizes;
    hide Sizes, Sum;
  }

  /** Cuts the chain down tag by tag, then adds the sizes up against the room that is left, so that no
      sum exceeds the limit. */
  method CheckSignature(chain: string, limit: nat) returns (ok: bool)
    ensures ok <==> ChainFits(chain, limit)
  {
    hide CutDown, ChainFits, TagSize, Fields, AllNat, Sum;
    var sizes: seq<int> := [];
    var spec := chain;
    CutStart(chain);
    while '<' in spec
      invariant CutDown(chain, spec, sizes)
      decreases |spec|
    {
      var start := Find(spec, '<');
      if '>' !in spec[start..] {
        CutInert(chain, spec, sizes, limit);
        return true;
      }
      var end := start + Find(spec[start..], '>');
      var n := TagSize(Fields(spec[start + 1..end]));
      assert FirstTag(spec) == Some((n, end));
      if n == None {
        CutInert(chain, spec, sizes, limit);
        return true;
      }
      CutNext(chain, spec, sizes, n.value, end);
      spec := spec[end + 1..];
      sizes := sizes + [n.value];
    }
    CutEnd(chain, spec, sizes, limit);
    ok := FitsRoom(sizes, limit);
  }

  lemma SumSnoc(front: seq<int>, n: int)
    ensures Sum(front + [n]) == Sum(front) + n
  {
    assert Sum([n]) == n;
    hide Sum;
    SumConcat(front, [n]);
  }

  lemma SumSplit(sizes: seq<int>, i: nat)
    requires i < |sizes|
    ensures Sum(sizes) == Sum(sizes[..i]) + sizes[i] + Sum(sizes[i + 1..])
    ensures Sum(sizes[..i + 1]) == Sum(sizes[..i]) + sizes[i]
  {
    hide *;
    assert sizes[..i + 1] == sizes[..i] + [sizes[i]];
    SumSnoc(sizes[..i], sizes[i]);
    assert sizes[..i + 1] + sizes[i + 1..] == sizes;
    SumConcat(sizes[..i + 1], sizes[i + 1..]);
  }

  lemma NatSnoc(front: seq<int>, n: int)
    ensures AllNat(front + [n]) <==> AllNat(front) && n >= 0
  {
    var all := front + [n];
    assert all[|front|] == n && n in all;
    if AllNat(all) {
      forall m | m in front ensures m >= 0 {
        assert m in all;
      }
    }
  }

  lemma NatSplit(sizes: seq<int>, i: nat)
    requires i < |sizes|
    ensures AllNat(sizes) ==> Sum(sizes[i + 1..]) >= 0 && sizes[i] >= 0
    ensures AllNat(sizes[..i + 1]) <==> AllNat(sizes[..i]) && sizes[i] >= 0
  {
    hide Sum;
    var front, rest := sizes[..i], sizes[i + 1..];
    NatSnoc(front, sizes[i]);
    assert sizes[..i + 1] == front + [sizes[i]];
    assert sizes[i] in sizes;
    if AllNat(sizes) {
      forall m | m in rest ensures m >= 0 {
        assert m in sizes;
      }
      SumIsNat(rest);
    }
  }

  method FitsRoom(sizes: seq<int>, limit: nat) returns (ok: bool)
    ensures ok <==> AllNat(sizes) && Sum(sizes) <= limit
  {
    var total := 0;
    assert AllNat(sizes[..0]) && Sum(sizes[..0]) == 0;
    hide AllNat, Sum;
    for i := 0 to |sizes|
      invariant AllNat(sizes[..i]) && total == Sum(sizes[..i]) && 0 <= total <= limit
    {
      SumSplit(sizes, i);
      NatSplit(sizes, i);
      var n := sizes[i];
      if n < 0 {
        return false;
      }
      if n > limit - total {
        return false;
      }
      total := total + n;
    }
    assert sizes[..|sizes|] == sizes;
    ok := true;
  }

  ghost predicate PaddingFits(p: Params, limit: nat) {
    p.s1 + 148 <= limit && p.s2 + 92 <= limit && p.s3 + 64 <= limit
  }

  /** Every handshake message with its padding, and every signature packet, fits. */
  ghost predicate FitsWire(p: Params, limit: nat) {
    PaddingFits(p, limit) && forall spec :: spec in p.i ==> ChainFits(spec, limit)
  }

  method CheckWireSizes(p: Params, limit: nat) returns (ok: bool)
    ensures ok <==> FitsWire(p, limit)
  {
    hide ChainFits, PaddingFits;
    ok := CheckPadding(p, limit);
    if !ok {
      return;
    }
    for i := 0 to |p.i|
      invariant forall j :: 0 <= j < i ==> ChainFits(p.i[j], limit)
    {
      ok := CheckSignature(p.i[i], limit);
      if !ok {
        assert p.i[i] in p.i;
        return;
      }
    }
    ok := true;
  }

  method CheckPadding(p: Params, limit: nat) returns (ok: bool)
    ensures ok <==> PaddingFits(p, limit)
  {
    var messages := [(p.s1, INITIATION), (p.s2, RESPONSE), (p.s3, COOKIE_REPLY)];
    for i := 0 to |messages|
      invariant forall j :: 0 <= j < i ==> messages[j].0 + messages[j].1 <= limit
    {
      if messages[i].0 + messages[i].1 > limit {
        return false;
      }
    }
    assert messages[0].0 == p.s1 && messages[1].0 == p.s2 && messages[2].0 == p.s3;
    ok := true;
  }

  /** What fits a limit fits any larger one. */
  lemma FitsMonotone(p: Params, limit: nat, larger: nat)
    requires FitsWire(p, limit) && limit <= larger
    ensures FitsWire(p, larger)
  {
    hide Sizes;
    assert forall spec :: spec in p.i && ChainFits(spec, limit) ==> ChainFits(spec, larger);
  }
}
