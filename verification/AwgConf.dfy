/** AmneziaWG configuration files: reading them, writing them, and that writing what was read can be read
    back as the same. */
module AwgConf {
  import opened Wrappers
  import opened Text
  import opened Decimal
  import opened Keys
  import opened Address
  import opened Params

  datatype Interface = Interface(privateKey: Key, addresses: seq<Prefix>, dns: seq<Ip>, listenPort: nat, mtu: int,
                                 params: Params)

  datatype Peer = Peer(publicKey: Key, presharedKey: Key, endpoint: string, allowedIPs: seq<Prefix>, keepalive: nat)

  datatype Config = Config(iface: Interface, peers: seq<Peer>)

  datatype Reason =
    | UnknownSection | NoEquals | OutsideSection | UnsupportedKey | BadValue
    | NoPrivateKey | NoPublicKey | JunkOrder | TooManyPackets | JunkTooLarge | WireSizes

  /** `line` is 0 for what is wrong with the file as a whole. */
  datatype Error = Error(line: nat, reason: Reason)

  function NewInterface(): Interface { Interface(ZeroKey(), [], [], 0, 0, NO_PARAMS) }

  function NewPeer(): Peer { Peer(ZeroKey(), ZeroKey(), "", [], 0) }

  // ---------------------------------------------------------------- Lists

  function ReadAll<T>(parts: seq<string>, read: string -> Option<T>): Option<seq<T>> {
    if parts == [] then Some([])
    else
      var first, rest := read(Trim(parts[0])), ReadAll(parts[1..], read);
      if first == None || rest == None then None else Some([first.value] + rest.value)
  }

  function ParseList<T>(s: string, read: string -> Option<T>): Option<seq<T>> { ReadAll(Split(s, ','), read) }

  /** A list is read exactly if each of its items is. */
  lemma {:induction false} ReadEach<T(!new)>(parts: seq<string>, read: string -> Option<T>, items: seq<T>)
    ensures ReadAll(parts, read) == Some(items) <==>
            |items| == |parts| && forall i :: 0 <= i < |parts| ==> read(Trim(parts[i])) == Some(items[i])
    decreases |parts|
  {
    hide Trim;
    if parts != [] && items != [] {
      ReadEach(parts[1..], read, items[1..]);
      assert items == [items[0]] + items[1..];
      if forall i :: 0 <= i < |parts| ==> i < |items| && read(Trim(parts[i])) == Some(items[i]) {
        assert read(Trim(parts[0])) == Some(items[0]);
        forall i | 0 <= i < |parts[1..]| ensures read(Trim(parts[1..][i])) == Some(items[1..][i]) {
          assert parts[1..][i] == parts[i + 1] && items[1..][i] == items[i + 1];
        }
      }
      if ReadAll(parts, read) == Some(items) {
        assert ReadAll(parts[1..], read) == Some(items[1..]);
        forall i | 0 <= i < |parts| ensures read(Trim(parts[i])) == Some(items[i]) {
          if i > 0 {
            assert parts[1..][i - 1] == parts[i] && items[1..][i - 1] == items[i];
          }
        }
      }
    }
  }

  function Shown<T>(items: seq<T>, show: T -> string): (parts: seq<string>)
    ensures |parts| == |items| && forall i :: 0 <= i < |items| ==> parts[i] == show(items[i])
  {
    seq(|items|, i requires 0 <= i < |items| => show(items[i]))
  }

  function JoinList<T>(items: seq<T>, show: T -> string): string { Join(Shown(items, show), ", ") }

  /** A value that a line can hold. */
  predicate LineValue(s: string) { s != "" && Trimmed(s) && Without(s, {'\n', '#'}) }

  predicate CleanAll(parts: seq<string>) { forall p :: p in parts ==> Clean(p) }

  function Padded(pad: bool, s: string): string { if pad then " " + s else s }

  lemma PaddedPart(pad: bool, part: string)
    requires Clean(part)
    ensures Trim(Padded(pad, part)) == part && Trim(part) == part && ',' !in Padded(pad, part)
  {
    TrimPadded(part);
    TrimIsTrimmed(part);
  }

  lemma PaddedJoin(pad: bool, parts: seq<string>)
    requires |parts| > 1
    ensures Padded(pad, Join(parts, ", ")) == Padded(pad, parts[0]) + [','] + Padded(true, Join(parts[1..], ", "))
  {
    assert ", " == [','] + " ";
  }

  /** Splitting a joined list gives the parts back, each behind a space but the first. */
  lemma {:induction false} SplitJoined<T(!new)>(parts: seq<string>, read: string -> Option<T>, pad: bool)
    requires parts != [] && CleanAll(parts)
    ensures ReadAll(Split(Padded(pad, Join(parts, ", ")), ','), read) == ReadAll(parts, read)
    decreases |parts|
  {
    var first := Padded(pad, parts[0]);
    assert Clean(parts[0]) && CleanAll(parts[1..]);
    PaddedPart(pad, parts[0]);
    hide Trim, Clean, CleanAll, Padded, Split;
    if |parts| == 1 {
      assert parts == [parts[0]];
      SplitNone(first, ',');
    } else {
      hide Join;
      PaddedJoin(pad, parts);
      var rest := Padded(true, Join(parts[1..], ", "));
      SplitJoined(parts[1..], read, true);
      SplitAt(first, ',', rest);
      ReadNext(first, parts[0], Split(rest, ','), parts[1..], read);
      assert [parts[0]] + parts[1..] == parts;
    }
  }

  lemma ReadNext<T(!new)>(a: string, b: string, x: seq<string>, y: seq<string>, read: string -> Option<T>)
    requires Trim(a) == Trim(b) && ReadAll(x, read) == ReadAll(y, read)
    ensures ReadAll([a] + x, read) == ReadAll([b] + y, read)
  {
    hide Trim;
    assert ([a] + x)[1..] == x && ([b] + y)[1..] == y;
  }

  lemma {:induction false} ReadShown<T(!new)>(items: seq<T>, read: string -> Option<T>, show: T -> string)
    requires forall x :: x in items ==> read(show(x)) == Some(x) && Clean(show(x))
    ensures ReadAll(Shown(items, show), read) == Some(items) && CleanAll(Shown(items, show))
  {
    if items != [] {
      var parts := Shown(items, show);
      assert parts[1..] == Shown(items[1..], show);
      assert items[0] in items;
      TrimIsTrimmed(parts[0]);
      assert Clean(parts[0]);
      ReadShown(items[1..], read, show);
      assert items == [items[0]] + items[1..];
      forall p | p in parts ensures Clean(p) {
        assert p == parts[0] || p in parts[1..];
      }
    }
  }

  lemma {:induction false} JoinedIsLine(parts: seq<string>)
    requires parts != [] && CleanAll(parts)
    ensures LineValue(Join(parts, ", "))
  {
    hide IsSpace;
    assert parts[0] in parts;
    if |parts| > 1 {
      JoinedIsLine(parts[1..]);
      var rest := Join(parts[1..], ", ");
      var s := parts[0] + ", " + rest;
      assert s[0] == parts[0][0] && s[|s| - 1] == rest[|rest| - 1];
      assert forall c :: c in s ==> c in parts[0] || c == ',' || c == ' ' || c in rest;
    }
  }

  /** A printed list is read back as itself. */
  lemma ListBack<T(!new)>(items: seq<T>, read: string -> Option<T>, show: T -> string)
    requires items != [] && forall x :: x in items ==> read(show(x)) == Some(x) && Clean(show(x))
    ensures ParseList(JoinList(items, show), read) == Some(items) && LineValue(JoinList(items, show))
  {
    ReadShown(items, read, show);
    var parts := Shown(items, show);
    SplitJoined(parts, read, false);
    JoinedIsLine(parts);
  }

  /** What is in a list that was read. */
  lemma {:induction false} ReadAllItems<T(!new)>(parts: seq<string>, read: string -> Option<T>, x: T)
    requires ReadAll(parts, read).Some? && x in ReadAll(parts, read).value
    ensures exists p :: p in parts && read(Trim(p)) == Some(x)
  {
    if read(Trim(parts[0])) != Some(x) {
      ReadAllItems(parts[1..], read, x);
    }
  }

  lemma ListItems<T(!new)>(s: string, read: string -> Option<T>, x: T)
    requires ParseList(s, read).Some? && x in ParseList(s, read).value && Without(s, {'\n', '#'})
    ensures exists p :: read(p) == Some(x) && Trimmed(p) && Without(p, {'\n', '#', ','})
  {
    ReadAllItems(Split(s, ','), read, x);
    var p :| p in Split(s, ',') && read(Trim(p)) == Some(x);
    SplitParts(s, ',', {'\n', '#'});
    TrimIsTrimmed(p);
  }

  // ---------------------------------------------------------------- Setting fields

  function Given<T, R>(v: Option<T>, f: T -> R): Result<R, Reason> {
    if v == None then Err(BadValue) else Ok(f(v.value))
  }

  predicate Ignored(key: string) {
    || key == "table" || key == "preup" || key == "postup" || key == "predown" || key == "postdown"
    || key == "saveconfig" || key == "fwmark"
  }

  function SetInterface(c: Codec, i: Interface, key: string, value: string): Result<Interface, Reason> {
    if key == "privatekey" then Given(ParseKey(value), k => i.(privateKey := k))
    else if key == "address" then Given(ParseList(value, s => ReadPrefix(c, s)), l => i.(addresses := l))
    else if key == "dns" then Given(ParseList(value, s => ParseAddr(c, s)), l => i.(dns := l))
    else if key == "listenport" then Given(ParseUint(value, LIMIT16), n => i.(listenPort := n))
    else if key == "mtu" then Given(ParseInt(value), n => i.(mtu := n))
    else if Ignored(key) then Ok(i)
    else
      var p := SetParams(i.params, key, value);
      if p.Err? then Err(p.error) else Ok(i.(params := p.value))
  }

  function SetParams(p: Params, key: string, value: string): Result<Params, Reason> {
    if key == "jc" then Given(ParseUint(value, LIMIT32), n => p.(jc := n))
    else if key == "jmin" then Given(ParseUint(value, LIMIT32), n => p.(jmin := n))
    else if key == "jmax" then Given(ParseUint(value, LIMIT32), n => p.(jmax := n))
    else if key == "s1" then Given(ParseUint(value, LIMIT16), n => p.(s1 := n))
    else if key == "s2" then Given(ParseUint(value, LIMIT16), n => p.(s2 := n))
    else if key == "s3" then Given(ParseUint(value, LIMIT16), n => p.(s3 := n))
    else if key == "s4" then Given(ParseUint(value, LIMIT16), n => p.(s4 := n))
    else if key == "h1" then Given(ParseRange(value), r => p.(h1 := r))
    else if key == "h2" then Given(ParseRange(value), r => p.(h2 := r))
    else if key == "h3" then Given(ParseRange(value), r => p.(h3 := r))
    else if key == "h4" then Given(ParseRange(value), r => p.(h4 := r))
    else if |key| == 2 && key[0] == 'i' && '1' <= key[1] <= '5' && |p.i| == 5 then
      Ok(p.(i := p.i[key[1] as int - '1' as int := value]))
    else Err(UnsupportedKey)
  }

  function SetPeer(c: Codec, p: Peer, key: string, value: string): Result<Peer, Reason> {
    if key == "publickey" then Given(ParseKey(value), k => p.(publicKey := k))
    else if key == "presharedkey" then Given(ParseKey(value), k => p.(presharedKey := k))
    else if key == "endpoint" then Ok(p.(endpoint := value))
    else if key == "allowedips" then Given(ParseList(value, s => ReadPrefix(c, s)), l => p.(allowedIPs := l))
    else if key == "persistentkeepalive" then Given(ParseUint(value, LIMIT32), n => p.(keepalive := n))
    else Err(UnsupportedKey)
  }

  // ---------------------------------------------------------------- What reading yields

  /** Free text in a file. */
  predicate FreeText(s: string) { Trimmed(s) && Without(s, {'\n', '#'}) }

  predicate GoodChains(p: Params) { GoodParams(p) && forall j :: 0 <= j < 5 ==> FreeText(p.i[j]) }

  predicate GoodInterface(i: Interface) {
    && (forall p :: p in i.addresses ==> GoodPrefix(p)) && (forall a :: a in i.dns ==> GoodIp(a))
    && i.listenPort < LIMIT16 && -0x8000_0000_0000_0000 <= i.mtu < 0x8000_0000_0000_0000
    && GoodChains(i.params)
  }

  predicate GoodPeer(p: Peer) {
    FreeText(p.endpoint) && (forall a :: a in p.allowedIPs ==> GoodPrefix(a)) && p.keepalive < LIMIT32
  }

  predicate GoodConfig(cfg: Config) { GoodInterface(cfg.iface) && forall p :: p in cfg.peers ==> GoodPeer(p) }

  lemma SetParamsKeepsGood(p: Params, key: string, value: string)
    requires GoodChains(p) && FreeText(value) && SetParams(p, key, value).Ok?
    ensures GoodChains(SetParams(p, key, value).value)
  {
    hide ParseRange, ParseUint, FreeText;
  }

  lemma PrefixesAreGood(c: Codec, value: string)
    requires Without(value, {'\n', '#'}) && ParseList(value, s => ReadPrefix(c, s)).Some?
    ensures forall p :: p in ParseList(value, s => ReadPrefix(c, s)).value ==> GoodPrefix(p)
  {
    forall p | p in ParseList(value, s => ReadPrefix(c, s)).value ensures GoodPrefix(p) {
      ListItems(value, s => ReadPrefix(c, s), p);
      var s :| ReadPrefix(c, s) == Some(p);
      ReadPrefixIsGood(c, s);
    }
  }

  lemma AddrsAreGood(c: Codec, value: string)
    requires Without(value, {'\n', '#'}) && ParseList(value, s => ParseAddr(c, s)).Some?
    ensures forall a :: a in ParseList(value, s => ParseAddr(c, s)).value ==> GoodIp(a)
  {
    forall a | a in ParseList(value, s => ParseAddr(c, s)).value ensures GoodIp(a) {
      ListItems(value, s => ParseAddr(c, s), a);
      var s :| (s => ParseAddr(c, s))(s) == Some(a) && Trimmed(s) && Without(s, {'\n', '#', ','});
      ReadAddrIsGood(c, s);
    }
  }

  lemma SetInterfaceKeepsGood(c: Codec, i: Interface, key: string, value: string)
    requires GoodInterface(i) && FreeText(value) && SetInterface(c, i, key, value).Ok?
    ensures GoodInterface(SetInterface(c, i, key, value).value)
  {
    if key == "address" {
      PrefixesAreGood(c, value);
    } else if key == "dns" {
      AddrsAreGood(c, value);
    } else if SetParams(i.params, key, value).Ok? {
      SetParamsKeepsGood(i.params, key, value);
    }
    hide ParseList, GoodPrefix, GoodIp, ParseKey, ParseInt, ParseUint, SetParams, GoodChains, FreeText;
  }

  lemma SetPeerKeepsGood(c: Codec, p: Peer, key: string, value: string)
    requires GoodPeer(p) && FreeText(value) && SetPeer(c, p, key, value).Ok?
    ensures GoodPeer(SetPeer(c, p, key, value).value)
  {
    if key == "allowedips" {
      PrefixesAreGood(c, value);
    }
    hide ParseList, GoodPrefix, ParseKey, ParseUint, FreeText;
  }

  // ---------------------------------------------------------------- Writing

  datatype Entry = Entry(name: string, value: string)

  function Only(when: bool, name: string, value: string): seq<Entry> { if when then [Entry(name, value)] else [] }

  predicate HasJunk(p: Params) { p.jc != 0 || p.jmin != 0 || p.jmax != 0 }

  function JunkEntries(p: Params): seq<Entry> {
    Only(HasJunk(p), "Jc", Print(p.jc)) + Only(HasJunk(p), "Jmin", Print(p.jmin)) +
      Only(HasJunk(p), "Jmax", Print(p.jmax))
  }

  function PaddingEntries(p: Params): seq<Entry> {
    Only(true, "S1", Print(p.s1)) + Only(true, "S2", Print(p.s2)) + Only(true, "S3", Print(p.s3)) +
      Only(true, "S4", Print(p.s4))
  }

  function HeaderEntries(p: Params): seq<Entry> {
    Only(p.h1 != ZERO, "H1", PrintRange(p.h1)) + Only(p.h2 != ZERO, "H2", PrintRange(p.h2)) +
    Only(p.h3 != ZERO, "H3", PrintRange(p.h3)) + Only(p.h4 != ZERO, "H4", PrintRange(p.h4))
  }

  function ChainEntries(p: Params): seq<Entry>
    requires |p.i| == 5
  {
    Only(p.i[0] != "", "I1", p.i[0]) + Only(p.i[1] != "", "I2", p.i[1]) + Only(p.i[2] != "", "I3", p.i[2]) +
    Only(p.i[3] != "", "I4", p.i[3]) + Only(p.i[4] != "", "I5", p.i[4])
  }

  function HeadEntries(c: Codec, i: Interface): seq<Entry> {
    Only(true, "PrivateKey", PrintKey(i.privateKey)) +
    Only(i.addresses != [], "Address", JoinList(i.addresses, p => PrintPrefix(c, p))) +
    Only(i.dns != [], "DNS", JoinList(i.dns, a => PrintIp(c, a))) +
    Only(i.listenPort != 0, "ListenPort", Print(i.listenPort)) +
    Only(i.mtu != 0, "MTU", PrintInt(i.mtu))
  }

  function InterfaceEntries(c: Codec, i: Interface): seq<Entry>
    requires |i.params.i| == 5
  {
    HeadEntries(c, i) + JunkEntries(i.params) + PaddingEntries(i.params) + HeaderEntries(i.params) +
      ChainEntries(i.params)
  }

  function PeerEntries(c: Codec, p: Peer): seq<Entry> {
    Only(true, "PublicKey", PrintKey(p.publicKey)) +
    Only(!IsZero(p.presharedKey), "PresharedKey", PrintKey(p.presharedKey)) +
    Only(p.endpoint != "", "Endpoint", p.endpoint) +
    Only(p.allowedIPs != [], "AllowedIPs", JoinList(p.allowedIPs, a => PrintPrefix(c, a))) +
    Only(p.keepalive != 0, "PersistentKeepalive", Print(p.keepalive))
  }

  function Line(e: Entry): string { e.name + " = " + e.value }

  function Lines(entries: seq<Entry>): (lines: seq<string>)
    ensures |lines| == |entries| && forall i :: 0 <= i < |entries| ==> lines[i] == Line(entries[i])
  {
    seq(|entries|, i requires 0 <= i < |entries| => Line(entries[i]))
  }

  function OnePeer(c: Codec, p: Peer): seq<string> { ["", "[Peer]"] + Lines(PeerEntries(c, p)) }

  function PeerLines(c: Codec, peers: seq<Peer>): seq<string> {
    if peers == [] then [] else OnePeer(c, peers[0]) + PeerLines(c, peers[1..])
  }

  function InterfaceLines(c: Codec, i: Interface): seq<string>
    requires |i.params.i| == 5
  {
    ["[Interface]"] + Lines(InterfaceEntries(c, i))
  }

  function RenderLines(c: Codec, cfg: Config): seq<string>
    requires |cfg.iface.params.i| == 5
  {
    InterfaceLines(c, cfg.iface) + PeerLines(c, cfg.peers)
  }

  /** Every line is ended. */
  function Unlines(lines: seq<string>): string { if lines == [] then "" else lines[0] + ['\n'] + Unlines(lines[1..]) }

  /** What `String` writes. */
  function Render(c: Codec, cfg: Config): string
    requires |cfg.iface.params.i| == 5
  {
    Unlines(RenderLines(c, cfg))
  }

  // ---------------------------------------------------------------- Reading entries back

  /** The fields after a list of entries has been read in turn. */
  function SetAll(c: Codec, i: Interface, entries: seq<Entry>): Result<Interface, Reason>
    decreases |entries|
  {
    if entries == [] then Ok(i)
    else
      var next := SetInterface(c, i, Lower(entries[0].name), entries[0].value);
      if next.Err? then next else SetAll(c, next.value, entries[1..])
  }

  function SetAllPeer(c: Codec, p: Peer, entries: seq<Entry>): Result<Peer, Reason>
    decreases |entries|
  {
    if entries == [] then Ok(p)
    else
      var next := SetPeer(c, p, Lower(entries[0].name), entries[0].value);
      if next.Err? then next else SetAllPeer(c, next.value, entries[1..])
  }

  lemma {:induction false} SetAllConcat(c: Codec, i: Interface, a: seq<Entry>, b: seq<Entry>, j: Interface)
    requires SetAll(c, i, a) == Ok(j)
    ensures SetAll(c, i, a + b) == SetAll(c, j, b)
    decreases |a|
  {
    hide SetInterface;
    if a == [] {
      assert a + b == b;
    } else {
      assert (a + b)[1..] == a[1..] + b;
      SetAllConcat(c, SetInterface(c, i, Lower(a[0].name), a[0].value).value, a[1..], b, j);
    }
  }

  lemma {:induction false} SetAllPeerConcat(c: Codec, p: Peer, a: seq<Entry>, b: seq<Entry>, q: Peer)
    requires SetAllPeer(c, p, a) == Ok(q)
    ensures SetAllPeer(c, p, a + b) == SetAllPeer(c, q, b)
    decreases |a|
  {
    hide SetPeer;
    if a == [] {
      assert a + b == b;
    } else {
      assert (a + b)[1..] == a[1..] + b;
      SetAllPeerConcat(c, SetPeer(c, p, Lower(a[0].name), a[0].value).value, a[1..], b, q);
    }
  }

  /** One entry that may be left out. */
  lemma SetOnly(c: Codec, i: Interface, when: bool, name: string, key: string, value: string, j: Interface)
    requires Lower(name) == key
    requires if when then SetInterface(c, i, key, value) == Ok(j) else j == i
    ensures SetAll(c, i, Only(when, name, value)) == Ok(j)
  {
    hide SetInterface;
    if when {
      var e := Entry(name, value);
      assert Only(when, name, value) == [e] && [e][1..] == [];
    }
  }

  lemma SetOnlyPeer(c: Codec, p: Peer, when: bool, name: string, key: string, value: string, q: Peer)
    requires Lower(name) == key
    requires if when then SetPeer(c, p, key, value) == Ok(q) else q == p
    ensures SetAllPeer(c, p, Only(when, name, value)) == Ok(q)
  {
    hide SetPeer;
    if when {
      var e := Entry(name, value);
      assert Only(when, name, value) == [e] && [e][1..] == [];
    }
  }

  lemma LowerNames()
    ensures Lower("PrivateKey") == "privatekey" && Lower("Address") == "address" && Lower("DNS") == "dns"
    ensures Lower("ListenPort") == "listenport" && Lower("MTU") == "mtu"
    ensures Lower("Jc") == "jc" && Lower("Jmin") == "jmin" && Lower("Jmax") == "jmax"
    ensures Lower("S1") == "s1" && Lower("S2") == "s2" && Lower("S3") == "s3" && Lower("S4") == "s4"
    ensures Lower("H1") == "h1" && Lower("H2") == "h2" && Lower("H3") == "h3" && Lower("H4") == "h4"
    ensures Lower("I1") == "i1" && Lower("I2") == "i2" && Lower("I3") == "i3" && Lower("I4") == "i4" &&
            Lower("I5") == "i5"
  {
  }

  lemma LowerPeerNames()
    ensures Lower("PublicKey") == "publickey" && Lower("PresharedKey") == "presharedkey" &&
            Lower("Endpoint") == "endpoint"
    ensures Lower("AllowedIPs") == "allowedips" && Lower("PersistentKeepalive") == "persistentkeepalive"
    ensures Lower("Interface") == "interface" && Lower("Peer") == "peer"
  {
    hide Lower;
    LowerKeyNames();
    LowerOtherNames();
    LowerHeaders();
  }

  lemma LowerKeyNames()
    ensures Lower("PublicKey") == "publickey" && Lower("PresharedKey") == "presharedkey"
  {
  }

  lemma LowerOtherNames()
    ensures Lower("Endpoint") == "endpoint" && Lower("AllowedIPs") == "allowedips"
    ensures Lower("PersistentKeepalive") == "persistentkeepalive"
  {
  }

  lemma LowerHeaders()
    ensures Lower("Interface") == "interface" && Lower("Peer") == "peer"
  {
  }

  /** The keys of the parameters are none of the others. */
  lemma ParamKey(c: Codec, i: Interface, key: string, value: string)
    requires |key| == 2 || key == "jmin" || key == "jmax"
    ensures SetInterface(c, i, key, value) ==
            var p := SetParams(i.params, key, value); if p.Err? then Err(p.error) else Ok(i.(params := p.value))
  {
    hide SetParams, ParseList, ParseKey, ParseInt, ParseUint;
  }

  /** One parameter that may be left out. */
  lemma SetParam(c: Codec, i: Interface, when: bool, name: string, key: string, value: string, p: Params)
    requires Lower(name) == key && (|key| == 2 || key == "jmin" || key == "jmax")
    requires if when then SetParams(i.params, key, value) == Ok(p) else p == i.params
    ensures SetAll(c, i, Only(when, name, value)) == Ok(i.(params := p))
  {
    hide SetParams, SetInterface, SetAll;
    ParamKey(c, i, key, value);
    SetOnly(c, i, when, name, key, value, i.(params := p));
  }

  /** The junk parameters, given in turn. */
  lemma SetJunk(p: Params, q: Params)
    requires GoodParams(q)
    ensures SetParams(p, "jc", Print(q.jc)) == Ok(p.(jc := q.jc))
    ensures SetParams(p, "jmin", Print(q.jmin)) == Ok(p.(jmin := q.jmin))
    ensures SetParams(p, "jmax", Print(q.jmax)) == Ok(p.(jmax := q.jmax))
  {
    ParsePrintUint(q.jc, LIMIT32);
    ParsePrintUint(q.jmin, LIMIT32);
    ParsePrintUint(q.jmax, LIMIT32);
    hide Print, ParseUint, ParseRange;
  }

  lemma SetPadding(p: Params, q: Params)
    requires GoodParams(q)
    ensures SetParams(p, "s1", Print(q.s1)) == Ok(p.(s1 := q.s1))
    ensures SetParams(p, "s2", Print(q.s2)) == Ok(p.(s2 := q.s2))
    ensures SetParams(p, "s3", Print(q.s3)) == Ok(p.(s3 := q.s3))
    ensures SetParams(p, "s4", Print(q.s4)) == Ok(p.(s4 := q.s4))
  {
    ParsePrintUint(q.s1, LIMIT16);
    ParsePrintUint(q.s2, LIMIT16);
    ParsePrintUint(q.s3, LIMIT16);
    ParsePrintUint(q.s4, LIMIT16);
    hide Print, ParseUint, ParseRange;
  }

  lemma SetHeaders(p: Params, q: Params)
    requires GoodParams(q)
    ensures SetParams(p, "h1", PrintRange(q.h1)) == Ok(p.(h1 := q.h1))
    ensures SetParams(p, "h2", PrintRange(q.h2)) == Ok(p.(h2 := q.h2))
    ensures SetParams(p, "h3", PrintRange(q.h3)) == Ok(p.(h3 := q.h3))
    ensures SetParams(p, "h4", PrintRange(q.h4)) == Ok(p.(h4 := q.h4))
  {
    hide PrintRange, ParseUint, ParseRange, Trimmed, Without;
    RangeBack(q.h1);
    RangeBack(q.h2);
    RangeBack(q.h3);
    RangeBack(q.h4);
  }

  lemma SetChains(p: Params, v: string)
    requires |p.i| == 5
    ensures SetParams(p, "i1", v) == Ok(p.(i := p.i[0 := v]))
    ensures SetParams(p, "i2", v) == Ok(p.(i := p.i[1 := v]))
    ensures SetParams(p, "i3", v) == Ok(p.(i := p.i[2 := v]))
    ensures SetParams(p, "i4", v) == Ok(p.(i := p.i[3 := v]))
    ensures SetParams(p, "i5", v) == Ok(p.(i := p.i[4 := v]))
  {
    hide ParseUint, ParseRange;
  }

  lemma ThenSet(c: Codec, i: Interface, a: seq<Entry>, j: Interface, b: seq<Entry>, k: Interface)
    requires SetAll(c, i, a) == Ok(j) && SetAll(c, j, b) == Ok(k)
    ensures SetAll(c, i, a + b) == Ok(k)
  {
    hide *;
    SetAllConcat(c, i, a, b, j);
  }

  lemma JunkBack(c: Codec, i: Interface, p: Params)
    requires GoodParams(p) && i.params.jc == i.params.jmin == i.params.jmax == 0
    ensures SetAll(c, i, JunkEntries(p)) == Ok(i.(params := i.params.(jc := p.jc, jmin := p.jmin, jmax := p.jmax)))
  {
    LowerNames();
    hide Lower, SetAll, SetParams, Only, GoodParams, Print, PrintRange;
    var p0 := i.params;
    var p1 := p0.(jc := p.jc);
    var p2 := p1.(jmin := p.jmin);
    var p3 := p2.(jmax := p.jmax);
    SetJunk(p0, p);
    SetParam(c, i, HasJunk(p), "Jc", "jc", Print(p.jc), p1);
    SetJunk(p1, p);
    SetParam(c, i.(params := p1), HasJunk(p), "Jmin", "jmin", Print(p.jmin), p2);
    SetJunk(p2, p);
    SetParam(c, i.(params := p2), HasJunk(p), "Jmax", "jmax", Print(p.jmax), p3);
    var e1 := Only(HasJunk(p), "Jc", Print(p.jc));
    var e2 := Only(HasJunk(p), "Jmin", Print(p.jmin));
    var e3 := Only(HasJunk(p), "Jmax", Print(p.jmax));
    ThenSet(c, i, e1, i.(params := p1), e2, i.(params := p2));
    ThenSet(c, i, e1 + e2, i.(params := p2), e3, i.(params := p3));
  }

  lemma PaddingBack(c: Codec, i: Interface, p: Params)
    requires GoodParams(p)
    ensures SetAll(c, i, PaddingEntries(p)) ==
            Ok(i.(params := i.params.(s1 := p.s1, s2 := p.s2, s3 := p.s3, s4 := p.s4)))
  {
    LowerNames();
    hide Lower, SetAll, SetParams, Only, GoodParams, Print, PrintRange;
    var p0 := i.params;
    var p1 := p0.(s1 := p.s1);
    var p2 := p1.(s2 := p.s2);
    var p3 := p2.(s3 := p.s3);
    var p4 := p3.(s4 := p.s4);
    SetPadding(p0, p);
    SetParam(c, i, true, "S1", "s1", Print(p.s1), p1);
    SetPadding(p1, p);
    SetParam(c, i.(params := p1), true, "S2", "s2", Print(p.s2), p2);
    SetPadding(p2, p);
    SetParam(c, i.(params := p2), true, "S3", "s3", Print(p.s3), p3);
    SetPadding(p3, p);
    SetParam(c, i.(params := p3), true, "S4", "s4", Print(p.s4), p4);
    var e1 := Only(true, "S1", Print(p.s1));
    var e2 := Only(true, "S2", Print(p.s2));
    var e3 := Only(true, "S3", Print(p.s3));
    var e4 := Only(true, "S4", Print(p.s4));
    ThenSet(c, i, e1, i.(params := p1), e2, i.(params := p2));
    ThenSet(c, i, e1 + e2, i.(params := p2), e3, i.(params := p3));
    ThenSet(c, i, e1 + e2 + e3, i.(params := p3), e4, i.(params := p4));
  }

  lemma HeadersBack(c: Codec, i: Interface, p: Params)
    requires GoodParams(p) && i.params.h1 == i.params.h2 == i.params.h3 == i.params.h4 == ZERO
    ensures SetAll(c, i, HeaderEntries(p)) ==
            Ok(i.(params := i.params.(h1 := p.h1, h2 := p.h2, h3 := p.h3, h4 := p.h4)))
  {
    LowerNames();
    hide Lower, SetAll, SetParams, Only, GoodParams, Print, PrintRange;
    var p0 := i.params;
    var p1 := p0.(h1 := p.h1);
    var p2 := p1.(h2 := p.h2);
    var p3 := p2.(h3 := p.h3);
    var p4 := p3.(h4 := p.h4);
    SetHeaders(p0, p);
    SetParam(c, i, p.h1 != ZERO, "H1", "h1", PrintRange(p.h1), p1);
    SetHeaders(p1, p);
    SetParam(c, i.(params := p1), p.h2 != ZERO, "H2", "h2", PrintRange(p.h2), p2);
    SetHeaders(p2, p);
    SetParam(c, i.(params := p2), p.h3 != ZERO, "H3", "h3", PrintRange(p.h3), p3);
    SetHeaders(p3, p);
    SetParam(c, i.(params := p3), p.h4 != ZERO, "H4", "h4", PrintRange(p.h4), p4);
    var e1 := Only(p.h1 != ZERO, "H1", PrintRange(p.h1));
    var e2 := Only(p.h2 != ZERO, "H2", PrintRange(p.h2));
    var e3 := Only(p.h3 != ZERO, "H3", PrintRange(p.h3));
    var e4 := Only(p.h4 != ZERO, "H4", PrintRange(p.h4));
    ThenSet(c, i, e1, i.(params := p1), e2, i.(params := p2));
    ThenSet(c, i, e1 + e2, i.(params := p2), e3, i.(params := p3));
    ThenSet(c, i, e1 + e2 + e3, i.(params := p3), e4, i.(params := p4));
  }

  lemma ChainsBack(c: Codec, i: Interface, p: Params)
    requires |p.i| == 5 && i.params.i == ["", "", "", "", ""]
    ensures SetAll(c, i, ChainEntries(p)) == Ok(i.(params := i.params.(i := p.i)))
  {
    LowerNames();
    hide Lower, SetAll, SetParams, Only, GoodParams, Print, PrintRange;
    var p0 := i.params;
    var p1 := p0.(i := p0.i[0 := p.i[0]]);
    var p2 := p1.(i := p1.i[1 := p.i[1]]);
    var p3 := p2.(i := p2.i[2 := p.i[2]]);
    var p4 := p3.(i := p3.i[3 := p.i[3]]);
    var p5 := p4.(i := p4.i[4 := p.i[4]]);
    assert p5.i == p.i;
    assert p.i[0] == "" ==> p1.i == p0.i;
    assert p.i[1] == "" ==> p2.i == p1.i;
    assert p.i[2] == "" ==> p3.i == p2.i;
    assert p.i[3] == "" ==> p4.i == p3.i;
    assert p.i[4] == "" ==> p5.i == p4.i;
    SetChains(p0, p.i[0]);
    SetParam(c, i, p.i[0] != "", "I1", "i1", p.i[0], p1);
    SetChains(p1, p.i[1]);
    SetParam(c, i.(params := p1), p.i[1] != "", "I2", "i2", p.i[1], p2);
    SetChains(p2, p.i[2]);
    SetParam(c, i.(params := p2), p.i[2] != "", "I3", "i3", p.i[2], p3);
    SetChains(p3, p.i[3]);
    SetParam(c, i.(params := p3), p.i[3] != "", "I4", "i4", p.i[3], p4);
    SetChains(p4, p.i[4]);
    SetParam(c, i.(params := p4), p.i[4] != "", "I5", "i5", p.i[4], p5);
    var e1 := Only(p.i[0] != "", "I1", p.i[0]);
    var e2 := Only(p.i[1] != "", "I2", p.i[1]);
    var e3 := Only(p.i[2] != "", "I3", p.i[2]);
    var e4 := Only(p.i[3] != "", "I4", p.i[3]);
    var e5 := Only(p.i[4] != "", "I5", p.i[4]);
    ThenSet(c, i, e1, i.(params := p1), e2, i.(params := p2));
    ThenSet(c, i, e1 + e2, i.(params := p2), e3, i.(params := p3));
    ThenSet(c, i, e1 + e2 + e3, i.(params := p3), e4, i.(params := p4));
    ThenSet(c, i, e1 + e2 + e3 + e4, i.(params := p4), e5, i.(params := p5));
  }

  lemma PrefixListBack(c: Codec, l: seq<Prefix>)
    requires GoodCodec(c) && l != [] && forall p :: p in l ==> GoodPrefix(p)
    ensures ParseList(JoinList(l, p => PrintPrefix(c, p)), s => ReadPrefix(c, s)) == Some(l)
    ensures LineValue(JoinList(l, p => PrintPrefix(c, p)))
  {
    forall p | p in l ensures ReadPrefix(c, PrintPrefix(c, p)) == Some(p) && Clean(PrintPrefix(c, p)) {
      PrefixBack(c, p);
    }
    hide GoodCodec, Clean, ParseList, JoinList, ReadPrefix, PrintPrefix;
    ListBack(l, s => ReadPrefix(c, s), p => PrintPrefix(c, p));
  }

  lemma AddrListBack(c: Codec, l: seq<Ip>)
    requires GoodCodec(c) && l != [] && forall a :: a in l ==> GoodIp(a)
    ensures ParseList(JoinList(l, a => PrintIp(c, a)), s => ParseAddr(c, s)) == Some(l)
    ensures LineValue(JoinList(l, a => PrintIp(c, a)))
  {
    forall a | a in l ensures ParseAddr(c, PrintIp(c, a)) == Some(a) && Clean(PrintIp(c, a)) {
      AddrBack(c, a);
    }
    hide GoodCodec, Clean, ParseList, JoinList, ParseAddr, PrintIp;
    ListBack(l, s => ParseAddr(c, s), a => PrintIp(c, a));
  }

  /** The printed fields of an interface, set one by one, make the interface. */
  lemma InterfaceBack(c: Codec, i: Interface)
    requires GoodCodec(c) && GoodInterface(i)
    ensures SetAll(c, NewInterface(), InterfaceEntries(c, i)) == Ok(i)
  {
    HeadBack(c, i);
    var h := NewInterface().(privateKey := i.privateKey, addresses := i.addresses, dns := i.dns,
                             listenPort := i.listenPort,
                             mtu := i.mtu);
    var e0, e1, e2 := HeadEntries(c, i), JunkEntries(i.params), PaddingEntries(i.params);
    var e3, e4 := HeaderEntries(i.params), ChainEntries(i.params);
    hide SetAll, HeadEntries, JunkEntries, PaddingEntries, HeaderEntries, ChainEntries, GoodCodec;
    JunkBack(c, h, i.params);
    var h1 := h.(params := h.params.(jc := i.params.jc, jmin := i.params.jmin, jmax := i.params.jmax));
    PaddingBack(c, h1, i.params);
    var h2 := h1.(params := h1.params.(s1 := i.params.s1, s2 := i.params.s2, s3 := i.params.s3, s4 := i.params.s4));
    HeadersBack(c, h2, i.params);
    var h3 := h2.(params := h2.params.(h1 := i.params.h1, h2 := i.params.h2, h3 := i.params.h3, h4 := i.params.h4));
    ChainsBack(c, h3, i.params);
    SetAllConcat(c, NewInterface(), e0, e1, h);
    SetAllConcat(c, NewInterface(), e0 + e1, e2, h1);
    SetAllConcat(c, NewInterface(), e0 + e1 + e2, e3, h2);
    SetAllConcat(c, NewInterface(), e0 + e1 + e2 + e3, e4, h3);
  }

  /** The other fields of an interface, given in turn. */
  lemma SetHead(c: Codec, i: Interface, q: Interface)
    requires GoodCodec(c) && GoodInterface(q)
    ensures SetInterface(c, i, "privatekey", PrintKey(q.privateKey)) == Ok(i.(privateKey := q.privateKey))
    ensures q.addresses != [] ==>
              SetInterface(c, i, "address", JoinList(q.addresses, p => PrintPrefix(c, p))) ==
                Ok(i.(addresses := q.addresses))
    ensures q.dns != [] ==> SetInterface(c, i, "dns", JoinList(q.dns, a => PrintIp(c, a))) == Ok(i.(dns := q.dns))
    ensures SetInterface(c, i, "listenport", Print(q.listenPort)) == Ok(i.(listenPort := q.listenPort))
    ensures SetInterface(c, i, "mtu", PrintInt(q.mtu)) == Ok(i.(mtu := q.mtu))
  {
    hide Print, PrintInt, PrintKey, ParseKey, ParseUint, ParseInt, ParseList, JoinList, GoodCodec, ReadPrefix,
      ParseAddr, SetParams,
      GoodChains, Trimmed, Without, LineValue, PrintPrefix, PrintIp, Ignored, GoodPrefix, GoodIp;
    ParsePrintKey(q.privateKey);
    if q.addresses != [] {
      PrefixListBack(c, q.addresses);
    }
    if q.dns != [] {
      AddrListBack(c, q.dns);
    }
    ParsePrintUint(q.listenPort, LIMIT16);
    ParsePrintInt(q.mtu);
  }

  lemma HeadBack(c: Codec, i: Interface)
    requires GoodCodec(c) && GoodInterface(i)
    ensures SetAll(c, NewInterface(), HeadEntries(c, i)) ==
            Ok(NewInterface().(privateKey := i.privateKey, addresses := i.addresses, dns := i.dns,
                               listenPort := i.listenPort,
                               mtu := i.mtu))
  {
    LowerNames();
    hide Lower, SetAll, SetInterface, Only, GoodInterface, GoodCodec, Print, PrintInt, PrintKey, JoinList;
    var addresses, dns := JoinList(i.addresses, p => PrintPrefix(c, p)), JoinList(i.dns, a => PrintIp(c, a));
    var i0 := NewInterface();
    var i1 := i0.(privateKey := i.privateKey);
    var i2 := i1.(addresses := i.addresses);
    var i3 := i2.(dns := i.dns);
    var i4 := i3.(listenPort := i.listenPort);
    var i5 := i4.(mtu := i.mtu);
    SetHead(c, i0, i);
    SetHead(c, i1, i);
    SetHead(c, i2, i);
    SetHead(c, i3, i);
    SetHead(c, i4, i);
    SetOnly(c, i0, true, "PrivateKey", "privatekey", PrintKey(i.privateKey), i1);
    SetOnly(c, i1, i.addresses != [], "Address", "address", addresses, i2);
    SetOnly(c, i2, i.dns != [], "DNS", "dns", dns, i3);
    SetOnly(c, i3, i.listenPort != 0, "ListenPort", "listenport", Print(i.listenPort), i4);
    SetOnly(c, i4, i.mtu != 0, "MTU", "mtu", PrintInt(i.mtu), i5);
    var e1, e2 := Only(true, "PrivateKey", PrintKey(i.privateKey)), Only(i.addresses != [], "Address", addresses);
    var e3, e4 := Only(i.dns != [], "DNS", dns), Only(i.listenPort != 0, "ListenPort", Print(i.listenPort));
    var e5 := Only(i.mtu != 0, "MTU", PrintInt(i.mtu));
    ThenSet(c, i0, e1, i1, e2, i2);
    ThenSet(c, i0, e1 + e2, i2, e3, i3);
    ThenSet(c, i0, e1 + e2 + e3, i3, e4, i4);
    ThenSet(c, i0, e1 + e2 + e3 + e4, i4, e5, i5);
  }

  /** The printed fields of a peer, set one by one, make the peer. */
  lemma PeerBack(c: Codec, p: Peer)
    requires GoodCodec(c) && GoodPeer(p)
    ensures SetAllPeer(c, NewPeer(), PeerEntries(c, p)) == Ok(p)
  {
    LowerPeerNames();
    hide Lower;
    ParsePrintKey(p.publicKey);
    ParsePrintKey(p.presharedKey);
    ZeroIsZeroKey(p.presharedKey);
    if p.allowedIPs != [] {
      PrefixListBack(c, p.allowedIPs);
    }
    ParsePrintUint(p.keepalive, LIMIT32);
    hide Print, PrintKey, ParseKey, ParseUint, ParseList, JoinList, GoodCodec, ReadPrefix, IsZero;
    var allowed := JoinList(p.allowedIPs, a => PrintPrefix(c, a));
    var p0 := NewPeer();
    var p1 := p0.(publicKey := p.publicKey);
    var p2 := p1.(presharedKey := p.presharedKey);
    var p3 := p2.(endpoint := p.endpoint);
    var p4 := p3.(allowedIPs := p.allowedIPs);
    var p5 := p4.(keepalive := p.keepalive);
    assert SetPeer(c, p0, "publickey", PrintKey(p.publicKey)) == Ok(p1);
    assert SetPeer(c, p1, "presharedkey", PrintKey(p.presharedKey)) == Ok(p2);
    assert SetPeer(c, p2, "endpoint", p.endpoint) == Ok(p3);
    assert p.allowedIPs != [] ==> SetPeer(c, p3, "allowedips", allowed) == Ok(p4);
    assert SetPeer(c, p4, "persistentkeepalive", Print(p.keepalive)) == Ok(p5);
    hide SetAllPeer, SetPeer;
    var e1 := Only(true, "PublicKey", PrintKey(p.publicKey));
    var e2 := Only(!IsZero(p.presharedKey), "PresharedKey", PrintKey(p.presharedKey));
    var e3, e4 := Only(p.endpoint != "", "Endpoint", p.endpoint), Only(p.allowedIPs != [], "AllowedIPs", allowed);
    var e5 := Only(p.keepalive != 0, "PersistentKeepalive", Print(p.keepalive));
    SetOnlyPeer(c, p0, true, "PublicKey", "publickey", PrintKey(p.publicKey), p1);
    SetOnlyPeer(c, p1, !IsZero(p.presharedKey), "PresharedKey", "presharedkey", PrintKey(p.presharedKey), p2);
    SetOnlyPeer(c, p2, p.endpoint != "", "Endpoint", "endpoint", p.endpoint, p3);
    SetOnlyPeer(c, p3, p.allowedIPs != [], "AllowedIPs", "allowedips", allowed, p4);
    SetOnlyPeer(c, p4, p.keepalive != 0, "PersistentKeepalive", "persistentkeepalive", Print(p.keepalive), p5);
    SetAllPeerConcat(c, p0, e1, e2, p1);
    SetAllPeerConcat(c, p0, e1 + e2, e3, p2);
    SetAllPeerConcat(c, p0, e1 + e2 + e3, e4, p3);
    SetAllPeerConcat(c, p0, e1 + e2 + e3 + e4, e5, p4);
  }
}
