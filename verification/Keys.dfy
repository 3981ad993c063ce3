/** Keys as configuration files write them: base64 with padding (section 4 of RFC 4648). */
module Keys {
  import opened Wrappers
  import opened Text

  type Byte = b: nat | b < 256

  type Key = k: seq<Byte> | |k| == 32 witness seq(32, i => 0)

  predicate IsZero(k: Key) { forall b :: b in k ==> b == 0 }

  function ZeroKey(): (k: Key)
    ensures IsZero(k)
  {
    seq(32, i => 0)
  }

  lemma ZeroIsZeroKey(k: Key)
    ensures IsZero(k) <==> k == ZeroKey()
  {
    if IsZero(k) {
      assert forall i :: 0 <= i < 32 ==> k[i] in k;
      assert k == ZeroKey();
    }
  }

  /** The characters of the alphabet. */
  function Symbol(n: nat): (c: char)
    requires n < 64
  {
    if n < 26 then ('A' as int + n) as char
    else if n < 52 then ('a' as int + n - 26) as char
    else if n < 62 then ('0' as int + n - 52) as char
    else if n == 62 then '+' else '/'
  }

  function Index(c: char): (n: Option<nat>)
    ensures n.Some? ==> n.value < 64
  {
    if 'A' <= c <= 'Z' then Some(c as int - 'A' as int)
    else if 'a' <= c <= 'z' then Some(c as int - 'a' as int + 26)
    else if '0' <= c <= '9' then Some(c as int - '0' as int + 52)
    else if c == '+' then Some(62) else if c == '/' then Some(63) else None
  }

  lemma IndexSymbol(n: nat)
    requires n < 64
    ensures Index(Symbol(n)) == Some(n) && Symbol(n) != '=' && !IsSpace(Symbol(n)) &&
            Symbol(n) !in {'\n', '\r', '#', ','}
  {
  }

  /** The alphabet of table 1 in section 4 of RFC 4648. */
  function Alphabet(): string { Upper() + Small() + "0123456789+/" }

  function Upper(): string { "ABCDEFGHIJKLMNOPQRSTUVWXYZ" }

  function Small(): string { "abcdefghijklmnopqrstuvwxyz" }

  lemma UpperAt(n: nat)
    requires n < 26
    ensures |Upper()| == 26 && Upper()[n] == ('A' as int + n) as char
  {
    assert n < 8 || 8 <= n < 16 || 16 <= n;
  }

  lemma SmallAt(n: nat)
    requires n < 26
    ensures |Small()| == 26 && Small()[n] == ('a' as int + n) as char
  {
    assert n < 8 || 8 <= n < 16 || 16 <= n;
  }

  lemma SymbolsAreTheAlphabet(n: nat)
    requires n < 64
    ensures |Alphabet()| == 64 && Symbol(n) == Alphabet()[n]
  {
    hide Upper, Small;
    UpperAt(0);
    SmallAt(0);
    if n < 26 {
      UpperAt(n);
    } else if n < 52 {
      SmallAt(n - 26);
    }
  }

  lemma IndexIsInTheAlphabet(c: char)
    ensures Index(c).Some? <==> c in Alphabet()
  {
    if Index(c).Some? {
      SymbolsAreTheAlphabet(Index(c).value);
      SymbolIndex(c);
    }
    hide Alphabet, Symbol;
    if c in Alphabet() {
      SymbolsAreTheAlphabet(0);
      var n :| 0 <= n < |Alphabet()| && Alphabet()[n] == c;
      SymbolsAreTheAlphabet(n);
      IndexSymbol(n);
    }
  }

  lemma SymbolIndex(c: char)
    ensures Index(c).Some? ==> Symbol(Index(c).value) == c && c != '='
  {
  }

  // The four groups of six bits that three bytes make, and the three bytes that four groups make.

  function G0(x: Byte): (g: nat) ensures g < 64 { x / 4 }

  function G1(x: Byte, y: Byte): (g: nat) ensures g < 64 { x % 4 * 16 + y / 16 }

  function G2(y: Byte, z: Byte): (g: nat) ensures g < 64 { y % 16 * 4 + z / 64 }

  function G3(z: Byte): (g: nat) ensures g < 64 { z % 64 }

  function B0(a: nat, b: nat): Byte requires a < 64 && b < 64 { a * 4 + b / 16 }

  function B1(b: nat, c: nat): Byte requires b < 64 && c < 64 { b % 16 * 16 + c / 4 }

  function B2(c: nat, d: nat): Byte requires c < 64 && d < 64 { c % 4 * 64 + d }

  lemma Regroup(x: Byte, y: Byte, z: Byte)
    ensures B0(G0(x), G1(x, y)) == x && B1(G1(x, y), G2(y, z)) == y && B2(G2(y, z), G3(z)) == z
  {
  }

  lemma Degroup(a: nat, b: nat, c: nat, d: nat)
    requires a < 64 && b < 64 && c < 64 && d < 64
    ensures G0(B0(a, b)) == a && G1(B0(a, b), B1(b, c)) == b && G2(B1(b, c), B2(c, d)) == c && G3(B2(c, d)) == d
  {
  }

  /** The number that three bytes are, the first one most significant. */
  function Number(x: int, y: int, z: int): int { (x * 256 + y) * 256 + z }

  lemma SameNumber(x: Byte, y: Byte, z: Byte)
    ensures ((G0(x) * 64 + G1(x, y)) * 64 + G2(y, z)) * 64 + G3(z) == Number(x, y, z)
  {
  }

  function Encode(bs: seq<Byte>): string {
    if bs == [] then ""
    else if |bs| == 1 then [Symbol(G0(bs[0])), Symbol(G1(bs[0], 0)), '=', '=']
    else if |bs| == 2 then [Symbol(G0(bs[0])), Symbol(G1(bs[0], bs[1])), Symbol(G2(bs[1], 0)), '=']
    else [Symbol(G0(bs[0])), Symbol(G1(bs[0], bs[1])), Symbol(G2(bs[1], bs[2])), Symbol(G3(bs[2]))] + Encode(bs[3..])
  }

  /** The unused low bits of the last symbol are not looked at. */
  function Decode(s: string): Option<seq<Byte>>
    decreases |s|
  {
    if s == "" then Some([])
    else if |s| < 4 || Index(s[0]) == None || Index(s[1]) == None then None
    else
      var a, b := Index(s[0]).value, Index(s[1]).value;
      if s[2] == '=' then
        if s[3] == '=' && |s| == 4 then Some([B0(a, b)]) else None
      else if Index(s[2]) == None then None
      else
        var c := Index(s[2]).value;
        if s[3] == '=' then
          if |s| == 4 then Some([B0(a, b), B1(b, c)]) else None
        else if Index(s[3]) == None || Decode(s[4..]) == None then None
        else Some([B0(a, b), B1(b, c), B2(c, Index(s[3]).value)] + Decode(s[4..]).value)
  }

  /** One quantum of four symbols in front of others. */
  lemma DecodeQuantum(a: nat, b: nat, c: nat, d: nat, rest: string)
    requires a < 64 && b < 64 && c < 64 && d < 64
    ensures Decode([Symbol(a), Symbol(b), Symbol(c), Symbol(d)] + rest) ==
            if Decode(rest) == None then None else Some([B0(a, b), B1(b, c), B2(c, d)] + Decode(rest).value)
  {
    IndexSymbol(a);
    IndexSymbol(b);
    IndexSymbol(c);
    IndexSymbol(d);
    hide Symbol, Index, B0, B1, B2;
    var s := [Symbol(a), Symbol(b), Symbol(c), Symbol(d)] + rest;
    assert s[4..] == rest;
  }

  /** The last quantum, with padding. */
  lemma DecodePadded(a: nat, b: nat, c: nat)
    requires a < 64 && b < 64 && c < 64
    ensures Decode([Symbol(a), Symbol(b), '=', '=']) == Some([B0(a, b)])
    ensures Decode([Symbol(a), Symbol(b), Symbol(c), '=']) == Some([B0(a, b), B1(b, c)])
  {
    IndexSymbol(a);
    IndexSymbol(b);
    IndexSymbol(c);
    hide Symbol, Index, B0, B1, B2;
  }

  lemma DecodeLast(bs: seq<Byte>)
    requires |bs| == 1 || |bs| == 2
    ensures Decode(Encode(bs)) == Some(bs)
  {
    hide Decode, Symbol, G0, G1, G2, G3, B0, B1, B2;
    var x, y := bs[0], if |bs| > 1 then bs[1] else 0;
    Regroup(x, y, 0);
    DecodePadded(G0(x), G1(x, y), G2(y, 0));
    assert bs == if |bs| == 1 then [x] else [x, y];
  }

  lemma DecodeFirst(bs: seq<Byte>)
    requires |bs| > 2 && Decode(Encode(bs[3..])) == Some(bs[3..])
    ensures Decode(Encode(bs)) == Some(bs)
  {
    hide Decode, Symbol, G0, G1, G2, G3, B0, B1, B2;
    var x, y, z := bs[0], bs[1], bs[2];
    Regroup(x, y, z);
    DecodeQuantum(G0(x), G1(x, y), G2(y, z), G3(z), Encode(bs[3..]));
    assert bs == [x, y, z] + bs[3..];
  }

  lemma {:induction false} DecodeEncode(bs: seq<Byte>)
    ensures Decode(Encode(bs)) == Some(bs)
    decreases |bs|
  {
    hide *;
    if |bs| > 2 {
      DecodeEncode(bs[3..]);
      DecodeFirst(bs);
    } else if |bs| > 0 {
      DecodeLast(bs);
    } else {
      DecodeNothing();
      assert bs == [];
    }
  }

  lemma DecodeNothing()
    ensures Decode(Encode([])) == Some([])
  {
  }

  /** What is written is the symbols for the digits, to the base 64, of the number that each three bytes are. */
  lemma EncodedNumber(bs: seq<Byte>)
    requires |bs| >= 3
    ensures var n := Number(bs[0], bs[1], bs[2]);
            Encode(bs) == [Symbol(n / 0x4_0000 % 64), Symbol(n / 0x1000 % 64), Symbol(n / 64 % 64), Symbol(n % 64)]
                          + Encode(bs[3..])
  {
    hide *;
    var x, y, z := bs[0], bs[1], bs[2];
    assert bs == [x, y, z] + bs[3..];
    EncodeQuantum(x, y, z, bs[3..]);
    SameNumber(x, y, z);
    Digits(G0(x), G1(x, y), G2(y, z), G3(z));
  }

  lemma Digits(a: nat, b: nat, c: nat, d: nat)
    requires a < 64 && b < 64 && c < 64 && d < 64
    ensures var n := ((a * 64 + b) * 64 + c) * 64 + d;
            n / 0x4_0000 % 64 == a && n / 0x1000 % 64 == b && n / 64 % 64 == c && n % 64 == d
  {
  }

  /** How many symbols a text ends with that do not carry whole bytes: padding, and the symbol before it. */
  function Loose(s: string): nat {
    if s == "" || s[|s| - 1] != '=' then 0 else if |s| > 1 && s[|s| - 2] == '=' then 3 else 2
  }

  /** All but the loose end of a text is as in another of the same length and padding. */
  ghost predicate SameButLoose(e: string, s: string) {
    |e| == |s| && Loose(s) <= |s| && e[..|s| - Loose(s)] == s[..|s| - Loose(s)] && Loose(e) == Loose(s)
  }

  lemma EncodeQuantum(x: Byte, y: Byte, z: Byte, rest: seq<Byte>)
    ensures Encode([x, y, z] + rest) == [Symbol(G0(x)), Symbol(G1(x, y)), Symbol(G2(y, z)), Symbol(G3(z))] +
            Encode(rest)
  {
    hide Symbol, G0, G1, G2, G3;
    assert ([x, y, z] + rest)[3..] == rest;
  }

  lemma EncodePadded(x: Byte, y: Byte)
    ensures Encode([x]) == [Symbol(G0(x)), Symbol(G1(x, 0)), '=', '=']
    ensures Encode([x, y]) == [Symbol(G0(x)), Symbol(G1(x, y)), Symbol(G2(y, 0)), '=']
  {
    hide Symbol, G0, G1, G2, G3;
  }

  /** The last quantum of a text that is accepted, if it is padded. */
  lemma DecodedPadded(s: string)
    requires Decode(s).Some? && |s| == 4 && s[3] == '='
    ensures Index(s[0]).Some? && Index(s[1]).Some? && (s[2] != '=' ==> Index(s[2]).Some?)
    ensures Decode(s).value == if s[2] == '=' then [B0(Index(s[0]).value, Index(s[1]).value)]
                               else [B0(Index(s[0]).value, Index(s[1]).value),
                                     B1(Index(s[1]).value, Index(s[2]).value)]
  {
    hide Index, B0, B1, B2;
  }

  lemma DecodedQuantum(s: string)
    requires Decode(s).Some? && |s| >= 4 && s[3] != '='
    ensures Index(s[0]).Some? && Index(s[1]).Some? && Index(s[2]).Some? && Index(s[3]).Some?
    ensures Decode(s[4..]).Some?
    ensures Decode(s).value == [B0(Index(s[0]).value, Index(s[1]).value), B1(Index(s[1]).value, Index(s[2]).value),
                                B2(Index(s[2]).value, Index(s[3]).value)] + Decode(s[4..]).value
  {
    hide Index, B0, B1, B2;
  }

  lemma EncodeDecodeLast(s: string)
    requires Decode(s).Some? && |s| == 4 && s[3] == '='
    ensures SameButLoose(Encode(Decode(s).value), s)
  {
    hide Decode, Encode, Symbol, Index, G0, G1, G2, G3, B0, B1, B2, Alphabet;
    DecodedPadded(s);
    SymbolIndex(s[0]);
    SymbolIndex(s[1]);
    SymbolIndex(s[2]);
    var a, b := Index(s[0]).value, Index(s[1]).value;
    var c := if s[2] == '=' then 0 else Index(s[2]).value;
    Degroup(a, b, c, 0);
    EncodePadded(B0(a, b), B1(b, c));
    IndexSymbol(G2(B1(b, c), 0));
    assert s == [s[0], s[1], s[2], '='];
  }

  lemma EncodeDecodeFirst(s: string)
    requires Decode(s).Some? && |s| >= 4 && s[3] != '='
    ensures Decode(s[4..]).Some? && Encode(Decode(s).value) == s[..4] + Encode(Decode(s[4..]).value)
  {
    hide *;
    DecodedQuantum(s);
    var a, b, c, d := Index(s[0]).value, Index(s[1]).value, Index(s[2]).value, Index(s[3]).value;
    QuantumBack(a, b, c, d, Decode(s[4..]).value);
    assert [Symbol(a), Symbol(b), Symbol(c), Symbol(d)] == s[..4] by {
      SymbolIndex(s[0]);
      SymbolIndex(s[1]);
      SymbolIndex(s[2]);
      SymbolIndex(s[3]);
    }
  }

  lemma QuantumBack(a: nat, b: nat, c: nat, d: nat, rest: seq<Byte>)
    requires a < 64 && b < 64 && c < 64 && d < 64
    ensures Encode([B0(a, b), B1(b, c), B2(c, d)] + rest) ==
            [Symbol(a), Symbol(b), Symbol(c), Symbol(d)] + Encode(rest)
  {
    Degroup(a, b, c, d);
    hide *;
    EncodeQuantum(B0(a, b), B1(b, c), B2(c, d), rest);
  }

  lemma DecodeLength(s: string)
    requires Decode(s).Some?
    ensures s == "" || |s| >= 4
    ensures |s| >= 4 && s[3] == '=' ==> |s| == 4
  {
  }

  /** Reading is the inverse but for the unused bits in front of the padding: what is accepted is what the
      bytes are written as. */
  lemma {:induction false} EncodeDecode(s: string)
    requires Decode(s).Some?
    ensures SameButLoose(Encode(Decode(s).value), s)
    decreases |s|
  {
    hide Decode, Encode, SameButLoose;
    DecodeLength(s);
    if s == "" {
      EncodeDecodeNothing();
    } else if s[3] == '=' {
      EncodeDecodeLast(s);
    } else {
      EncodeDecodeFirst(s);
      EncodeDecode(s[4..]);
      DecodeLength(s[4..]);
      SameBehind(s[..4], Encode(Decode(s[4..]).value), s[4..]);
      assert s == s[..4] + s[4..];
    }
  }

  lemma EncodeDecodeNothing()
    ensures Decode("").Some? && SameButLoose(Encode(Decode("").value), "")
  {
  }

  lemma LooseOn(head: string, t: string)
    requires |head| == 4 && head[3] != '=' && |t| != 1
    ensures Loose(head + t) == Loose(t)
  {
    var s := head + t;
    if t == "" {
      assert s[|s| - 1] == head[3];
    } else {
      assert s[|s| - 1] == t[|t| - 1] && s[|s| - 2] == t[|t| - 2];
    }
  }

  lemma SameBehind(head: string, e: string, t: string)
    requires |head| == 4 && head[3] != '=' && |t| != 1 && SameButLoose(e, t)
    ensures SameButLoose(head + e, head + t)
  {
    LooseOn(head, e);
    LooseOn(head, t);
    var n := |t| - Loose(t);
    hide Loose;
    assert (head + e)[..4 + n] == head + e[..n] && (head + t)[..4 + n] == head + t[..n];
  }

  lemma {:induction false} EncodeSymbols(bs: seq<Byte>, c: char)
    requires c in Encode(bs)
    ensures c == '=' || exists n :: 0 <= n < 64 && c == Symbol(n)
    decreases |bs|
  {
    hide Symbol;
    if |bs| > 2 && c in Encode(bs[3..]) {
      EncodeSymbols(bs[3..], c);
    }
  }

  /** Line breaks inside are ignored. */
  function Unbroken(s: string): string {
    if s == "" then ""
    else (if s[0] == '\r' || s[0] == '\n' then "" else [s[0]]) + Unbroken(s[1..])
  }

  lemma {:induction false} NothingBroken(s: string)
    requires Without(s, {'\r', '\n'})
    ensures Unbroken(s) == s
  {
    if s != "" {
      assert s[0] in s;
      NothingBroken(s[1..]);
    }
  }

  function ParseKey(s: string): Option<Key> {
    var bs := Decode(Unbroken(s));
    if bs.Some? && |bs.value| == 32 then Some(bs.value) else None
  }

  function PrintKey(k: Key): string { Encode(k) }

  lemma {:induction false} DecodeReads(s: string)
    requires |s| % 4 == 0 && |s| >= 4 && s[|s| - 1] == '=' && forall i :: 0 <= i < |s| - 1 ==> Index(s[i]).Some?
    ensures Decode(s).Some? && |Decode(s).value| == |s| / 4 * 3 - 1
    decreases |s|
  {
    assert Index('=') == None;
    hide Index, B0, B1, B2;
    if |s| > 4 {
      DecodeReads(s[4..]);
    }
  }

  /** Every text of 43 symbols and one '=' is a key, wherever lines are broken. */
  lemma KeysAreRead(s: string)
    requires var u := Unbroken(s); |u| == 44 && u[43] == '=' && forall i :: 0 <= i < 43 ==> u[i] in Alphabet()
    ensures ParseKey(s).Some?
  {
    hide Alphabet, Unbroken, Decode, Index;
    var u := Unbroken(s);
    forall i | 0 <= i < 43 ensures Index(u[i]).Some? {
      IndexIsInTheAlphabet(u[i]);
    }
    DecodeReads(u);
  }

  /** And what is read from it is written as the same symbols, but for the unused bits of the last. */
  lemma KeysAreWritten(s: string)
    requires ParseKey(s).Some?
    ensures SameButLoose(PrintKey(ParseKey(s).value), Unbroken(s))
  {
    EncodeDecode(Unbroken(s));
  }

  /** Line breaks go, and nothing else. */
  lemma {:induction false} UnbrokenParts(a: string, b: string)
    ensures Unbroken(a + b) == Unbroken(a) + Unbroken(b)
  {
    if a == "" {
      assert a + b == b;
    } else {
      assert (a + b)[1..] == a[1..] + b;
      UnbrokenParts(a[1..], b);
    }
  }

  lemma BreaksGo(a: string, b: string)
    ensures Unbroken(a + "\n" + b) == Unbroken(a + b) && Unbroken(a + "\r\n" + b) == Unbroken(a + b)
  {
    UnbrokenParts(a, b);
    UnbrokenParts(a, "\n");
    UnbrokenParts(a, "\r\n");
    UnbrokenParts(a + "\n", b);
    UnbrokenParts(a + "\r\n", b);
    assert "\r\n"[1..] == "\n" && Unbroken("\n") == "" && Unbroken("\r\n") == "";
    hide Unbroken;
  }

  /** A printed key is read back as itself, is trimmed, and holds nothing that ends a value. */
  lemma ParsePrintKey(k: Key)
    ensures ParseKey(PrintKey(k)) == Some(k)
    ensures PrintKey(k) != "" && Trimmed(PrintKey(k)) && Without(PrintKey(k), {'\n', '#'})
  {
    DecodeEncode(k);
    var s := PrintKey(k);
    forall c | c in s ensures c !in {'\r', '\n', '#'} && !IsSpace(c) {
      EncodeSymbols(k, c);
      if c != '=' {
        var n :| 0 <= n < 64 && c == Symbol(n);
        IndexSymbol(n);
      }
    }
    NothingBroken(s);
    assert |s| >= 4;
    assert s[0] in s && s[|s| - 1] in s;
  }
}
