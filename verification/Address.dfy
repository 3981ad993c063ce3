/**
Addresses and prefixes as text. IPv4 is written out; the text of the 128 bits of an IPv6 address is a
pair of functions that are each other's inverse (section 2.2 of RFC 4291 and section 4 of RFC 5952).
 */
module Address {
  import opened Wrappers
  import opened Text
  import opened Decimal

  type Bits32 = n: nat | n < 0x1_0000_0000

  type Bits128 = n: nat | n < 0x1_0000_0000_0000_0000_0000_0000_0000_0000

  datatype Ip = V4(n: Bits32) | V6(bits: Bits128, zone: string)

  datatype Prefix = Prefix(ip: Ip, len: nat)

  datatype Codec = Codec(read: string -> Option<Bits128>, show: Bits128 -> string)

  predicate IsMark(c: char) { c == '.' || c == ':' || c == '%' }

  /** The first of the characters that tell the kinds of address apart. */
  function FirstMark(s: string): (c: char) {
    if s == "" then ' ' else if IsMark(s[0]) then s[0] else FirstMark(s[1..])
  }

  predicate IsHex(c: char) { IsDigit(c) || 'a' <= c <= 'f' || 'A' <= c <= 'F' }

  ghost predicate GoodCodec(c: Codec) {
    forall n: Bits128 ::
      && c.read(c.show(n)) == Some(n)
      && FirstMark(c.show(n)) == ':'
      && forall x :: x in c.show(n) ==> IsHex(x) || x == ':' || x == '.'
  }

  // ---------------------------------------------------------------- IPv4

  /** Leading zeros are refused. */
  function ParseOctet(s: string): (r: Option<nat>)
    ensures r.Some? ==> r.value < 256
  {
    if |s| > 1 && s[0] == '0' then None else ParseUint(s, 256)
  }

  function ParseV4(s: string): Option<Bits32> {
    var parts := Split(s, '.');
    if |parts| != 4 then None
    else
      var a, b, c, d := ParseOctet(parts[0]), ParseOctet(parts[1]), ParseOctet(parts[2]), ParseOctet(parts[3]);
      if a == None || b == None || c == None || d == None then None
      else Some(((a.value * 256 + b.value) * 256 + c.value) * 256 + d.value)
  }

  function Octets(n: Bits32): (r: (nat, nat, nat, nat))
    ensures r.0 < 256 && r.1 < 256 && r.2 < 256 && r.3 < 256
    ensures ((r.0 * 256 + r.1) * 256 + r.2) * 256 + r.3 == n
  {
    var high := n / 256;
    var top := high / 256;
    (top / 256, top % 256, high % 256, n % 256)
  }

  function PrintV4(n: Bits32): string {
    var o := Octets(n);
    Print(o.0) + ['.'] + (Print(o.1) + ['.'] + (Print(o.2) + ['.'] + Print(o.3)))
  }

  lemma OctetBack(n: nat)
    requires n < 256
    ensures ParseOctet(Print(n)) == Some(n) && Without(Print(n), {'.', '/', '%', ':', '\n', '#', ',', ' '}) &&
            Trimmed(Print(n))
  {
    ParsePrintUint(n, 256);
    PrintIsPlain(n);
  }

  lemma SplitNone(s: string, c: char)
    requires c !in s
    ensures Split(s, c) == [s]
  {
  }

  lemma V4Back(n: Bits32)
    ensures ParseV4(PrintV4(n)) == Some(n)
  {
    hide Octets, Print, Split, ParseOctet;
    var o := Octets(n);
    OctetBack(o.0);
    OctetBack(o.1);
    OctetBack(o.2);
    OctetBack(o.3);
    var tail := Print(o.2) + ['.'] + Print(o.3);
    SplitNone(Print(o.3), '.');
    SplitAt(Print(o.2), '.', Print(o.3));
    SplitAt(Print(o.1), '.', tail);
    SplitAt(Print(o.0), '.', Print(o.1) + ['.'] + tail);
  }

  lemma {:induction false} JoinSplit(s: string, c: char)
    ensures Join(Split(s, c), [c]) == s
    decreases |s|
  {
    if c in s {
      var front, rest := s[..Find(s, c)], s[Find(s, c) + 1..];
      assert s == front + [c] + rest && Split(s, c) == [front] + Split(rest, c);
      hide Find, Split;
      JoinSplit(rest, c);
      JoinCons(front, Split(rest, c), [c]);
    }
  }

  lemma JoinCons(part: string, parts: seq<string>, sep: string)
    requires parts != []
    ensures Join([part] + parts, sep) == part + sep + Join(parts, sep)
  {
    assert ([part] + parts)[1..] == parts;
  }

  lemma JoinFour(parts: seq<string>, sep: string)
    requires |parts| == 4
    ensures Join(parts, sep) == parts[0] + sep + (parts[1] + sep + (parts[2] + sep + parts[3]))
  {
    assert parts[1..][1..] == parts[2..] && parts[2..][1..] == parts[3..] && parts[3..] == [parts[3]];
    assert Join(parts[3..], sep) == parts[3];
    assert Join(parts[2..], sep) == parts[2] + sep + parts[3];
    assert Join(parts[1..], sep) == parts[1] + sep + Join(parts[2..], sep);
  }

  lemma OctetIsPrinted(s: string, n: nat)
    requires ParseOctet(s) == Some(n)
    ensures s == Print(n) && n < 256
  {
    PrintValue(s);
  }

  lemma OctetsAre(a: nat, b: nat, c: nat, d: nat)
    requires a < 256 && b < 256 && c < 256 && d < 256
    ensures var n := ((a * 256 + b) * 256 + c) * 256 + d;
            n < 0x1_0000_0000 && Octets(n) == (a, b, c, d)
  {
    var top := a * 256 + b;
    var high := top * 256 + c;
    assert (high * 256 + d) / 256 == high && (high * 256 + d) % 256 == d;
    assert high / 256 == top && high % 256 == c;
    assert top / 256 == a && top % 256 == b;
  }

  /** Exactly one text is read as an IPv4 address: its four octets, most significant first, in decimal without
      leading zeros. */
  lemma V4Exactly(s: string, n: Bits32)
    ensures ParseV4(s) == Some(n) <==> s == PrintV4(n)
  {
    V4Back(n);
    if ParseV4(s) == Some(n) {
      V4IsPrinted(s, n);
    }
  }

  lemma V4IsPrinted(s: string, n: Bits32)
    requires ParseV4(s) == Some(n)
    ensures s == PrintV4(n)
  {
    hide Octets, Print, Split, ParseOctet, Join;
    var parts := Split(s, '.');
    var a, b, c, d := ParseOctet(parts[0]).value, ParseOctet(parts[1]).value, ParseOctet(parts[2]).value,
                      ParseOctet(parts[3]).value;
    OctetIsPrinted(parts[0], a);
    OctetIsPrinted(parts[1], b);
    OctetIsPrinted(parts[2], c);
    OctetIsPrinted(parts[3], d);
    JoinSplit(s, '.');
    JoinFour(parts, ".");
    OctetsAre(a, b, c, d);
  }

  lemma V4Example()
    ensures PrintV4(0x0A08_0001) == "10.8.0.1"
  {
    OctetsAre(10, 8, 0, 1);
    assert Print(10) == "10" && Print(8) == "8" && Print(0) == "0" && Print(1) == "1";
  }

  /** The characters of a printed IPv4 address. */
  lemma V4Plain(n: Bits32)
    ensures forall x :: x in PrintV4(n) ==> IsDigit(x) || x == '.'
    ensures FirstMark(PrintV4(n)) == '.'
  {
    hide Octets, Print;
    var o := Octets(n);
    var rest := Print(o.1) + ['.'] + (Print(o.2) + ['.'] + Print(o.3));
    MarkBehind(Print(o.0), ['.'] + rest);
    assert PrintV4(n) == Print(o.0) + (['.'] + rest);
  }

  lemma {:induction false} MarkBehind(a: string, b: string)
    requires forall c :: c in a ==> !IsMark(c)
    ensures FirstMark(a + b) == FirstMark(b)
  {
    if a == "" {
      assert a + b == b;
    } else {
      assert (a + b)[1..] == a[1..] + b;
      MarkBehind(a[1..], b);
    }
  }

  lemma {:induction false} MarkFirst(a: string, b: string)
    requires FirstMark(a) == ':'
    ensures FirstMark(a + b) == ':'
  {
    if a != "" && !IsMark(a[0]) {
      assert (a + b)[1..] == a[1..] + b;
      MarkFirst(a[1..], b);
    }
  }

  // ---------------------------------------------------------------- Addresses

  /** A zone must not be empty. */
  function ParseV6(c: Codec, s: string): Option<Ip> {
    if '%' in s then
      var bits, zone := c.read(s[..Find(s, '%')]), s[Find(s, '%') + 1..];
      if bits == None || zone == "" then None else Some(V6(bits.value, zone))
    else
      var bits := c.read(s);
      if bits == None then None else Some(V6(bits.value, ""))
  }

  function ParseAddr(c: Codec, s: string): Option<Ip> {
    if FirstMark(s) == '.' then
      var n := ParseV4(s);
      if n == None then None else Some(V4(n.value))
    else if FirstMark(s) == ':' then ParseV6(c, s)
    else None
  }

  /** None of these characters is in front of the position. */
  ghost predicate Unmarked(s: string, i: nat) {
    i <= |s| && forall j :: 0 <= j < i ==> s[j] != '.' && s[j] != ':' && s[j] != '%'
  }

  /** A colon tells an IPv6 address, if it comes before any dot and any '%'. */
  lemma {:induction false} ColonIsFirst(s: string)
    ensures FirstMark(s) == ':' <==> exists i: nat :: i < |s| && s[i] == ':' && Unmarked(s, i)
  {
    if s != "" && !IsMark(s[0]) {
      ColonIsFirst(s[1..]);
      if i: nat :| i < |s[1..]| && s[1..][i] == ':' && Unmarked(s[1..], i) {
        assert s[i + 1] == ':' && Unmarked(s, i + 1);
      }
      if i: nat :| i < |s| && s[i] == ':' && Unmarked(s, i) {
        assert i > 0 && s[1..][i - 1] == ':' && Unmarked(s[1..], i - 1);
      }
    } else if s != "" && s[0] == ':' {
      assert Unmarked(s, 0);
    }
  }

  /** What is read as an IPv6 address: its 128 bits as text, and a zone that is not empty if there is a '%'. */
  lemma V6Exactly(c: Codec, s: string, bits: Bits128, zone: string)
    ensures ParseAddr(c, s) == Some(V6(bits, zone)) <==>
            (exists i: nat :: i < |s| && s[i] == ':' && Unmarked(s, i)) &&
            if zone == "" then '%' !in s && c.read(s) == Some(bits)
            else exists a :: '%' !in a && s == a + ['%'] + zone && c.read(a) == Some(bits)
  {
    ColonIsFirst(s);
    if '%' in s {
      var a, b := s[..Find(s, '%')], s[Find(s, '%') + 1..];
      assert s == a + ['%'] + b && '%' !in a;
      forall x | '%' !in x && s == x + ['%'] + zone ensures x == a && zone == b {
        CutAt(x, '%', zone);
      }
    } else {
      assert forall a :: ((a + ['%']) + zone)[|a|] == '%';
    }
    hide FirstMark, Find, ParseV4, Unmarked;
  }

  function PrintIp(c: Codec, ip: Ip): string {
    match ip
    case V4(n) => PrintV4(n)
    case V6(n, zone) => c.show(n) + if zone == "" then "" else ['%'] + zone
  }

  /** What can stand in a list of values of a configuration line. */
  predicate Clean(s: string) { s != "" && Trimmed(s) && Without(s, {'\n', '#', ','}) }

  predicate GoodIp(ip: Ip) {
    ip.V6? && ip.zone != "" ==> Without(ip.zone, {'\n', '#', ','}) && !IsSpace(ip.zone[|ip.zone| - 1])
  }

  lemma PlainV6(c: Codec, n: Bits128)
    requires GoodCodec(c)
    ensures var s := c.show(n);
            && s != "" && Clean(s) && '%' !in s && '/' !in s && FirstMark(s) == ':' && c.read(s) == Some(n)
            && forall x :: x in s ==> !IsSpace(x)
  {
    var s := c.show(n);
    assert FirstMark("") == ' ';
    assert s[0] in s && s[|s| - 1] in s;
  }

  /** A printed address is read back as itself. */
  lemma AddrBack(c: Codec, ip: Ip)
    requires GoodCodec(c) && GoodIp(ip)
    ensures ParseAddr(c, PrintIp(c, ip)) == Some(ip) && Clean(PrintIp(c, ip))
  {
    hide GoodCodec, PrintV4, ParseV4, ParseV6, FirstMark, Clean;
    if ip.V4? {
      V4Text(ip.n);
    } else {
      V6Text(c, ip.bits, ip.zone);
    }
  }

  lemma V4Text(n: Bits32)
    ensures FirstMark(PrintV4(n)) == '.' && ParseV4(PrintV4(n)) == Some(n) && Clean(PrintV4(n)) && '/' !in PrintV4(n)
  {
    hide *;
    V4Back(n);
    V4Plain(n);
    PlainIsClean(PrintV4(n));
  }

  lemma PlainIsClean(s: string)
    requires FirstMark(s) == '.' && forall x :: x in s ==> IsDigit(x) || x == '.'
    ensures Clean(s) && '/' !in s
  {
    assert FirstMark("") == ' ';
    hide FirstMark;
    assert s != "";
    assert s[0] in s && s[|s| - 1] in s;
  }

  lemma V6Text(c: Codec, n: Bits128, zone: string)
    requires GoodCodec(c) && GoodIp(V6(n, zone))
    ensures var s := c.show(n) + if zone == "" then "" else ['%'] + zone;
            FirstMark(s) == ':' && ParseV6(c, s) == Some(V6(n, zone)) && Clean(s)
  {
    PlainV6(c, n);
    hide *;
    var s := c.show(n);
    if zone == "" {
      NoZone(c, s, n);
    } else {
      ZoneRead(c, s, n, zone);
      ZoneClean(s, zone);
    }
  }

  lemma NoZone(c: Codec, s: string, n: Bits128)
    requires '%' !in s && c.read(s) == Some(n)
    ensures s + "" == s && ParseV6(c, s + "") == Some(V6(n, ""))
  {
    assert s + "" == s;
  }

  lemma ZoneRead(c: Codec, s: string, n: Bits128, zone: string)
    requires '%' !in s && FirstMark(s) == ':' && c.read(s) == Some(n) && zone != ""
    ensures FirstMark(s + (['%'] + zone)) == ':' && ParseV6(c, s + (['%'] + zone)) == Some(V6(n, zone))
  {
    hide FirstMark, Find;
    var t := s + (['%'] + zone);
    MarkFirst(s, ['%'] + zone);
    FindConcat(s, ['%'] + zone, '%');
    FindHere('%', zone);
    assert t[|s|] == '%';
    assert t[..|s|] == s && t[|s| + 1..] == zone;
  }

  lemma ZoneClean(s: string, zone: string)
    requires Clean(s) && zone != "" && GoodIp(V6(0, zone))
    ensures Clean(s + (['%'] + zone))
  {
    var t := s + (['%'] + zone);
    assert t[0] == s[0] && t[|t| - 1] == zone[|zone| - 1];
    hide IsSpace;
    assert forall x :: x in t ==> x in s || x == '%' || x in zone;
  }

  lemma ReadAddrIsGood(c: Codec, s: string)
    requires ParseAddr(c, s).Some? && Trimmed(s) && Without(s, {'\n', '#', ','})
    ensures GoodIp(ParseAddr(c, s).value)
  {
  }

  // ---------------------------------------------------------------- Prefixes

  function FindLast(s: string, c: char): (i: nat)
    requires c in s
    ensures i < |s| && s[i] == c && forall j :: i < j < |s| ==> s[j] != c
    decreases |s|
  {
    if s[|s| - 1] == c then |s| - 1
    else
      assert s == s[..|s| - 1] + [s[|s| - 1]];
      FindLast(s[..|s| - 1], c)
  }

  function Width(ip: Ip): nat { if ip.V4? then 32 else 128 }

  /** No sign and no leading zero. */
  function ParseLen(s: string, width: nat): (r: Option<nat>)
    ensures r.Some? ==> r.value <= width
  {
    if |s| > 1 && !('1' <= s[0] <= '9') then None else ParseUint(s, width + 1)
  }

  function ParsePrefix(c: Codec, s: string): Option<Prefix> {
    if '/' !in s then None
    else
      var i := FindLast(s, '/');
      var ip := ParseAddr(c, s[..i]);
      if ip == None || (ip.value.V6? && ip.value.zone != "") then None
      else
        var len := ParseLen(s[i + 1..], Width(ip.value));
        if len == None then None else Some(Prefix(ip.value, len.value))
  }

  /** A bare address stands for itself alone; its zone is dropped. */
  function ReadPrefix(c: Codec, s: string): Option<Prefix> {
    if ParsePrefix(c, s) != None then ParsePrefix(c, s)
    else
      var ip := ParseAddr(c, s);
      if ip == None then None
      else Some(Prefix(if ip.value.V6? then V6(ip.value.bits, "") else ip.value, Width(ip.value)))
  }

  function PrintPrefix(c: Codec, p: Prefix): string { PrintIp(c, p.ip) + ['/'] + Print(p.len) }

  predicate GoodPrefix(p: Prefix) { p.len <= Width(p.ip) && (p.ip.V6? ==> p.ip.zone == "") }

  lemma ReadPrefixIsGood(c: Codec, s: string)
    requires ReadPrefix(c, s).Some?
    ensures GoodPrefix(ReadPrefix(c, s).value)
  {
    hide ParseAddr, ParseLen, FindLast;
  }

  lemma LenIsPrinted(s: string, width: nat, n: nat)
    ensures ParseLen(s, width) == Some(n) <==> n <= width && s == Print(n)
  {
    if ParseLen(s, width) == Some(n) {
      PrintValue(s);
    }
    if n <= width {
      LenBack(n, width);
    }
  }

  /** Exactly two texts are read as an IPv4 prefix that is one address, and one as any other: the address, a
      slash, and the length in decimal without leading zeros; the length of one address may be left out. */
  lemma V4PrefixExactly(c: Codec, s: string, n: Bits32, len: nat)
    ensures ReadPrefix(c, s) == Some(Prefix(V4(n), len)) <==>
            len <= 32 && (s == PrintV4(n) + "/" + Print(len) || (len == 32 && s == PrintV4(n)))
  {
    V4Plain(n);
    V4Exactly(PrintV4(n), n);
    hide ParseV4, PrintV4, Print;
    if len <= 32 {
      LenIsPrinted(Print(len), 32, len);
      LenBack(len, 32);
      PrefixParts(c, PrintV4(n), Print(len), Prefix(V4(n), len));
      assert PrintV4(n) + ['/'] + Print(len) == PrintV4(n) + "/" + Print(len);
      assert '/' !in PrintV4(n);
    }
    if ReadPrefix(c, s) == Some(Prefix(V4(n), len)) {
      V4PrefixIsPrinted(c, s, n, len);
    }
  }

  lemma V4PrefixIsPrinted(c: Codec, s: string, n: Bits32, len: nat)
    requires ReadPrefix(c, s) == Some(Prefix(V4(n), len))
    ensures len <= 32 && (s == PrintV4(n) + "/" + Print(len) || (len == 32 && s == PrintV4(n)))
  {
    hide ParseV4, PrintV4, Print, ParseLen, FirstMark, FindLast;
    if ParsePrefix(c, s) != None {
      var i := FindLast(s, '/');
      V4Exactly(s[..i], n);
      LenIsPrinted(s[i + 1..], 32, len);
      assert s == s[..i] + "/" + s[i + 1..];
    } else {
      V4Exactly(s, n);
    }
  }

  /** An address without a length is a prefix of one address, of the width of its family; its zone is dropped. */
  lemma BareAddress(c: Codec, ip: Ip)
    requires GoodCodec(c) && GoodIp(ip) && (ip.V6? ==> '/' !in ip.zone)
    ensures ReadPrefix(c, PrintIp(c, ip)) ==
            Some(if ip.V4? then Prefix(ip, 32) else Prefix(V6(ip.bits, ""), 128))
  {
    AddrBack(c, ip);
    NoSlash(c, ip);
    hide ParseAddr, PrintIp, GoodCodec;
  }

  lemma NoSlash(c: Codec, ip: Ip)
    requires GoodCodec(c) && (ip.V6? ==> '/' !in ip.zone)
    ensures '/' !in PrintIp(c, ip)
  {
    hide PrintV4;
    if ip.V4? {
      V4Plain(ip.n);
    } else {
      var shown := c.show(ip.bits);
      assert '/' !in shown;
      hide GoodCodec;
      assert forall x :: x in PrintIp(c, ip) ==> x in shown || x == '%' || x in ip.zone;
    }
  }

  /** A printed prefix is read back as itself. */
  lemma PrefixBack(c: Codec, p: Prefix)
    requires GoodCodec(c) && GoodPrefix(p)
    ensures ReadPrefix(c, PrintPrefix(c, p)) == Some(p) && Clean(PrintPrefix(c, p))
  {
    hide ParseAddr, PrintIp, Print, ParseLen, GoodCodec, ParsePrefix, Trimmed, Without;
    AddrBack(c, p.ip);
    LenBack(p.len, Width(p.ip));
    PrefixParts(c, PrintIp(c, p.ip), Print(p.len), p);
    Joined(PrintIp(c, p.ip), '/', Print(p.len), {'\n', '#', ','});
  }

  lemma LenBack(n: nat, width: nat)
    requires n <= width
    ensures ParseLen(Print(n), width) == Some(n) && '/' !in Print(n) && Clean(Print(n))
  {
    PrintIsPlain(n);
    ParsePrintUint(n, width + 1);
    assert IsDigit(Print(n)[0]);
    hide Print;
  }

  lemma PrefixParts(c: Codec, a: string, b: string, p: Prefix)
    requires ParseAddr(c, a) == Some(p.ip) && ParseLen(b, Width(p.ip)) == Some(p.len) && '/' !in b && GoodPrefix(p)
    ensures ParsePrefix(c, a + ['/'] + b) == Some(p)
  {
    hide ParseAddr, ParseLen;
    LastAt(a, '/', b);
  }

  lemma LastAt(a: string, c: char, b: string)
    requires c !in b
    ensures var s := a + [c] + b; c in s && FindLast(s, c) == |a| && s[..|a|] == a && s[|a| + 1..] == b
  {
    var s := a + [c] + b;
    assert s[|a|] == c;
    assert forall j :: |a| < j < |s| ==> s[j] in b;
  }
}
