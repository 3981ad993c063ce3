/** Whole AmneziaWG configuration files: line by line into fields, and back. */
module AwgConfText {
  import opened Wrappers
  import opened Text
  import opened Decimal
  import opened Keys
  import opened Address
  import opened Params
  import opened Wire
  import opened AwgConf

  datatype Section = NoSection | InInterface | InPeer

  datatype State = State(section: Section, cfg: Config)

  function Initial(): State { State(NoSection, Config(NewInterface(), [])) }

  /** The line without what follows a '#'. */
  function Uncommented(line: string): string {
    var l := Trim(line);
    if '#' in l then Trim(l[..Find(l, '#')]) else l
  }

  function Header(s: State, name: string): Result<State, Reason> {
    if name == "interface" then Ok(s.(section := InInterface))
    else if name == "peer" then Ok(State(InPeer, s.cfg.(peers := s.cfg.peers + [NewPeer()])))
    else Err(UnknownSection)
  }

  /** Peer settings go to the last peer. */
  function Assign(c: Codec, s: State, key: string, value: string): Result<State, Reason> {
    if s.section == InInterface then
      var i := SetInterface(c, s.cfg.iface, key, value);
      if i.Err? then Err(i.error) else Ok(s.(cfg := s.cfg.(iface := i.value)))
    else if s.section == InPeer && s.cfg.peers != [] then
      var last := |s.cfg.peers| - 1;
      var p := SetPeer(c, s.cfg.peers[last], key, value);
      if p.Err? then Err(p.error) else Ok(s.(cfg := s.cfg.(peers := s.cfg.peers[last := p.value])))
    else Err(OutsideSection)
  }

  predicate IsHeader(l: string): (b: bool)
    ensures b ==> |l| >= 2
  {
    && HasPrefix(l, "[") && HasSuffix(l, "]")
    && (assert l[0] == '['; assert l[|l| - 1..][0] == ']'; true)
  }

  function Step(c: Codec, s: State, line: string): Result<State, Reason> {
    var l := Uncommented(line);
    if l == "" then Ok(s)
    else if IsHeader(l) then Header(s, Lower(l[1..|l| - 1]))
    else
      match Cut(l, '=')
      case None => Err(NoEquals)
      case Some((k, v)) => Assign(c, s, Lower(Trim(k)), Trim(v))
  }

  function Run(c: Codec, s: State, lines: seq<string>, n: nat): Result<State, Error>
    decreases |lines|
  {
    if lines == [] then Ok(s)
    else
      var next := Step(c, s, lines[0]);
      if next.Err? then Err(Error(n, next.error)) else Run(c, next.value, lines[1..], n + 1)
  }

  // ---------------------------------------------------------------- Checks on the whole

  function Tagged(chains: seq<string>): nat {
    if chains == [] then 0 else (if '<' in chains[0] then 1 else 0) + Tagged(chains[1..])
  }

  /** Junk, the signature packets that are built, and the handshake. */
  function Packets(p: Params): nat { p.jc + 1 + Tagged(p.i) }

  /** The upper bound of junk sizes is exclusive, unless it equals the lower one. */
  function LargestJunk(p: Params): int { if p.jmin < p.jmax then p.jmax - 1 else p.jmax }

  const UDP_MAX6: nat := 65527

  ghost function Verdict(cfg: Config): Result<Config, Error> {
    var p := cfg.iface.params;
    if IsZero(cfg.iface.privateKey) then Err(Error(0, NoPrivateKey))
    else if exists peer :: peer in cfg.peers && IsZero(peer.publicKey) then Err(Error(0, NoPublicKey))
    else if p.jc > 0 && p.jmin > p.jmax then Err(Error(0, JunkOrder))
    else if p.jc > 0 && Packets(p) > 128 then Err(Error(0, TooManyPackets))
    else if p.jc > 0 && LargestJunk(p) > UDP_MAX6 then Err(Error(0, JunkTooLarge))
    else if !FitsWire(p, UDP_MAX6) then Err(Error(0, WireSizes))
    else Ok(cfg)
  }

  /** What `Parse` makes of a text. */
  ghost function ParseText(c: Codec, text: string): Result<Config, Error> {
    var s := Run(c, Initial(), Split(text, '\n'), 1);
    if s.Err? then Err(s.error) else Verdict(s.value.cfg)
  }

  method Parse(c: Codec, text: string) returns (r: Result<Config, Error>)
    ensures r == ParseText(c, text)
  {
    hide Step, Split;
    var lines := Split(text, '\n');
    var s := Initial();
    for n := 0 to |lines|
      invariant Run(c, Initial(), lines, 1) == Run(c, s, lines[n..], n + 1)
    {
      var next := Step(c, s, lines[n]);
      assert lines[n..][0] == lines[n] && lines[n..][1..] == lines[n + 1..];
      if next.Err? {
        return Err(Error(n + 1, next.error));
      }
      s := next.value;
    }
    assert lines[|lines|..] == [];
    r := Check(s.cfg);
  }

  method Check(cfg: Config) returns (r: Result<Config, Error>)
    ensures r == Verdict(cfg)
  {
    hide IsZero, FitsWire;
    if IsZero(cfg.iface.privateKey) {
      return Err(Error(0, NoPrivateKey));
    }
    for i := 0 to |cfg.peers|
      invariant forall j :: 0 <= j < i ==> !IsZero(cfg.peers[j].publicKey)
    {
      if IsZero(cfg.peers[i].publicKey) {
        assert cfg.peers[i] in cfg.peers;
        return Err(Error(0, NoPublicKey));
      }
    }
    var p := cfg.iface.params;
    if p.jc > 0 {
      if p.jmin > p.jmax {
        return Err(Error(0, JunkOrder));
      }
      var packets := CountPackets(p);
      if packets > 128 {
        return Err(Error(0, TooManyPackets));
      }
      var largest: int := p.jmax;
      if p.jmin < p.jmax {
        largest := largest - 1;
      }
      if largest > UDP_MAX6 {
        return Err(Error(0, JunkTooLarge));
      }
    }
    var fits := CheckWireSizes(p, UDP_MAX6);
    if !fits {
      return Err(Error(0, WireSizes));
    }
    r := Ok(cfg);
  }

  method CountPackets(p: Params) returns (packets: nat)
    ensures packets == Packets(p)
  {
    packets := p.jc + 1;
    for i := 0 to |p.i|
      invariant packets + Tagged(p.i[i..]) == Packets(p)
    {
      assert p.i[i..][1..] == p.i[i + 1..];
      if '<' in p.i[i] {
        packets := packets + 1;
      }
    }
  }

  // ---------------------------------------------------------------- What is read is good

  lemma UncommentedIsFree(line: string)
    requires Without(line, {'\n'})
    ensures FreeText(Uncommented(line))
  {
    var l := Trim(line);
    TrimIsTrimmed(line);
    if '#' in l {
      var front := l[..Find(l, '#')];
      TrimIsTrimmed(front);
      assert Without(front, {'\n', '#'});
      TrimKeepsWithout(front, {'\n', '#'});
    }
  }

  lemma StepKeepsGood(c: Codec, s: State, line: string)
    requires GoodConfig(s.cfg) && Without(line, {'\n'}) && Step(c, s, line).Ok?
    ensures GoodConfig(Step(c, s, line).value.cfg)
  {
    hide Uncommented, GoodConfig, Trim, Lower, Header, Assign, Find;
    var l := Uncommented(line);
    UncommentedIsFree(line);
    if l != "" && IsHeader(l) {
      HeaderKeepsGood(s, Lower(l[1..|l| - 1]));
    } else if l != "" {
      ValueIsFree(l, Find(l, '=') + 1);
      AssignKeepsGood(c, s, Lower(Trim(l[..Find(l, '=')])), Trim(l[Find(l, '=') + 1..]));
    }
  }

  lemma HeaderKeepsGood(s: State, name: string)
    requires GoodConfig(s.cfg) && Header(s, name).Ok?
    ensures GoodConfig(Header(s, name).value.cfg)
  {
    hide GoodInterface, GoodPeer;
    NewPeerIsGood();
  }

  lemma AssignKeepsGood(c: Codec, s: State, key: string, value: string)
    requires GoodConfig(s.cfg) && FreeText(value) && Assign(c, s, key, value).Ok?
    ensures GoodConfig(Assign(c, s, key, value).value.cfg)
  {
    hide GoodInterface, GoodPeer, SetInterface, SetPeer, FreeText;
    if s.section == InInterface {
      SetInterfaceKeepsGood(c, s.cfg.iface, key, value);
    } else {
      assert s.cfg.peers[|s.cfg.peers| - 1] in s.cfg.peers;
      SetPeerKeepsGood(c, s.cfg.peers[|s.cfg.peers| - 1], key, value);
    }
  }

  lemma ValueIsFree(l: string, i: nat)
    requires FreeText(l) && i <= |l|
    ensures FreeText(Trim(l[i..]))
  {
    TrimIsTrimmed(l[i..]);
    TrimKeepsWithout(l[i..], {'\n', '#'});
  }

  lemma NewPeerIsGood()
    ensures GoodPeer(NewPeer())
  {
  }

  lemma {:induction false} RunKeepsGood(c: Codec, s: State, lines: seq<string>, n: nat)
    requires GoodConfig(s.cfg) && Run(c, s, lines, n).Ok? && forall l :: l in lines ==> Without(l, {'\n'})
    ensures GoodConfig(Run(c, s, lines, n).value.cfg)
    decreases |lines|
  {
    hide Step, GoodConfig;
    if lines != [] {
      StepKeepsGood(c, s, lines[0]);
      RunKeepsGood(c, Step(c, s, lines[0]).value, lines[1..], n + 1);
    }
  }

  lemma ParsedIsGood(c: Codec, text: string)
    requires ParseText(c, text).Ok?
    ensures GoodConfig(ParseText(c, text).value)
  {
    hide Run, FitsWire, IsZero;
    assert GoodConfig(Initial().cfg);
    SplitParts(text, '\n', {});
    RunKeepsGood(c, Initial(), Split(text, '\n'), 1);
  }

  // ---------------------------------------------------------------- Reading what was written

  lemma RunCons(c: Codec, s: State, lines: seq<string>, n: nat)
    requires lines != []
    ensures Run(c, s, lines, n) ==
            var next := Step(c, s, lines[0]);
            if next.Err? then Err(Error(n, next.error)) else Run(c, next.value, lines[1..], n + 1)
  {
    hide Step;
  }

  lemma RunNone(c: Codec, s: State, n: nat)
    ensures Run(c, s, [], n) == Ok(s)
  {
  }

  lemma {:induction false} RunConcat(c: Codec, s: State, a: seq<string>, b: seq<string>, n: nat, t: State)
    requires Run(c, s, a, n) == Ok(t)
    ensures Run(c, s, a + b, n) == Run(c, t, b, n + |a|)
    decreases |a|
  {
    hide *;
    if a == [] {
      assert a + b == b;
      RunNone(c, s, n);
    } else {
      RunCons(c, s, a, n);
      RunCons(c, s, a + b, n);
      assert (a + b)[1..] == a[1..] + b;
      RunConcat(c, Step(c, s, a[0]).value, a[1..], b, n + 1, t);
    }
  }

  /** The name of a setting: letters and digits. */
  predicate GoodName(name: string) {
    name != "" && forall x :: x in name ==> IsDigit(x) || 'a' <= x <= 'z' || 'A' <= x <= 'Z'
  }

  predicate GoodEntry(e: Entry) { GoodName(e.name) && LineValue(e.value) }

  ghost predicate GoodEntries(entries: seq<Entry>) { forall e :: e in entries ==> GoodEntry(e) }

  /** A written line is taken apart into its name and its value. */
  lemma LineParts(e: Entry)
    requires GoodEntry(e)
    ensures Uncommented(Line(e)) == Line(e) && Line(e) != "" && !HasPrefix(Line(e), "[")
    ensures Cut(Line(e), '=') == Some((e.name + " ", " " + e.value))
    ensures Trim(e.name + " ") == e.name && Trim(" " + e.value) == e.value
    ensures Without(Line(e), {'\n'})
  {
    var l := Line(e);
    assert e.name[0] in e.name && e.name[|e.name| - 1] in e.name;
    TrimPadded(e.name);
    TrimPadded(e.value);
    assert l == e.name + " " + ['='] + (" " + e.value);
    CutAt(e.name + " ", '=', " " + e.value);
    LineIsTrimmed(e);
    TrimIsTrimmed(l);
  }

  lemma LineIsTrimmed(e: Entry)
    requires GoodEntry(e)
    ensures Line(e) != "" && Trimmed(Line(e)) && Without(Line(e), {'\n', '#'}) && Line(e)[0] == e.name[0]
  {
    var l := Line(e);
    assert e.name[0] in e.name;
    assert l[0] == e.name[0] && l[|l| - 1] == e.value[|e.value| - 1];
    assert forall x :: x in l ==> x in e.name || x == ' ' || x == '=' || x in e.value;
  }

  lemma StepEntry(c: Codec, s: State, e: Entry)
    requires GoodEntry(e)
    ensures Step(c, s, Line(e)) == Assign(c, s, Lower(e.name), e.value)
  {
    LineParts(e);
    hide Uncommented, Cut, Trim, Lower, Assign, GoodEntry, Line;
  }

  lemma {:induction false} RunInterface(c: Codec, s: State, entries: seq<Entry>, n: nat)
    requires s.section == InInterface && GoodEntries(entries) && SetAll(c, s.cfg.iface, entries).Ok?
    ensures Run(c, s, Lines(entries), n) == Ok(s.(cfg := s.cfg.(iface := SetAll(c, s.cfg.iface, entries).value)))
    decreases |entries|
  {
    hide Step, SetInterface, GoodEntry, Lower, Line;
    if entries != [] {
      StepEntry(c, s, entries[0]);
      assert Lines(entries)[1..] == Lines(entries[1..]);
      var next := SetInterface(c, s.cfg.iface, Lower(entries[0].name), entries[0].value);
      RunInterface(c, s.(cfg := s.cfg.(iface := next.value)), entries[1..], n + 1);
    } else {
      assert Lines(entries) == [];
    }
  }

  function WithPeer(s: State, p: Peer): State { State(InPeer, s.cfg.(peers := s.cfg.peers + [p])) }

  lemma {:induction false} RunPeer(c: Codec, s: State, p: Peer, entries: seq<Entry>, n: nat)
    requires GoodEntries(entries) && SetAllPeer(c, p, entries).Ok?
    ensures Run(c, WithPeer(s, p), Lines(entries), n) == Ok(WithPeer(s, SetAllPeer(c, p, entries).value))
    decreases |entries|
  {
    hide Step, SetPeer, GoodEntry, Lower, Line, WithPeer;
    if entries != [] {
      StepPeer(c, s, p, entries[0]);
      assert Lines(entries)[1..] == Lines(entries[1..]);
      var next := SetPeer(c, p, Lower(entries[0].name), entries[0].value);
      RunPeer(c, s, next.value, entries[1..], n + 1);
    } else {
      assert Lines(entries) == [];
    }
  }

  lemma StepPeer(c: Codec, s: State, p: Peer, e: Entry)
    requires GoodEntry(e) && SetPeer(c, p, Lower(e.name), e.value).Ok?
    ensures Step(c, WithPeer(s, p), Line(e)) == Ok(WithPeer(s, SetPeer(c, p, Lower(e.name), e.value).value))
  {
    hide Step, SetPeer, GoodEntry, Lower, Line;
    StepEntry(c, WithPeer(s, p), e);
    var q := SetPeer(c, p, Lower(e.name), e.value).value;
    assert (s.cfg.peers + [p])[|s.cfg.peers| := q] == s.cfg.peers + [q];
  }

  lemma OnlyIsGood(when: bool, name: string, value: string)
    requires GoodName(name) && (when ==> LineValue(value))
    ensures GoodEntries(Only(when, name, value))
  {
  }

  lemma GoodConcat(a: seq<Entry>, b: seq<Entry>)
    requires GoodEntries(a) && GoodEntries(b)
    ensures GoodEntries(a + b)
  {
  }

  lemma NumberIsValue(n: nat)
    ensures LineValue(Print(n))
  {
    PrintIsPlain(n);
  }

  lemma HeadIsGood(c: Codec, i: Interface)
    requires GoodCodec(c) && GoodInterface(i)
    ensures GoodEntries(HeadEntries(c, i))
  {
    hide Print, PrintInt, PrintKey, JoinList, GoodCodec, LineValue, GoodEntry, GoodEntries, Only, ParseList, GoodChains;
    var addresses, dns := JoinList(i.addresses, p => PrintPrefix(c, p)), JoinList(i.dns, a => PrintIp(c, a));
    if i.addresses != [] {
      PrefixListBack(c, i.addresses);
    }
    if i.dns != [] {
      AddrListBack(c, i.dns);
    }
    NumberIsValue(i.listenPort);
    KeyIsValue(i.privateKey);
    IntIsValue(i.mtu);
    HeadNames();
    hide GoodName;
    OnlyIsGood(true, "PrivateKey", PrintKey(i.privateKey));
    OnlyIsGood(i.addresses != [], "Address", addresses);
    OnlyIsGood(i.dns != [], "DNS", dns);
    OnlyIsGood(i.listenPort != 0, "ListenPort", Print(i.listenPort));
    OnlyIsGood(i.mtu != 0, "MTU", PrintInt(i.mtu));
    var e1, e2 := Only(true, "PrivateKey", PrintKey(i.privateKey)), Only(i.addresses != [], "Address", addresses);
    var e3, e4 := Only(i.dns != [], "DNS", dns), Only(i.listenPort != 0, "ListenPort", Print(i.listenPort));
    GoodConcat(e1, e2);
    GoodConcat(e1 + e2, e3);
    GoodConcat(e1 + e2 + e3, e4);
    GoodConcat(e1 + e2 + e3 + e4, Only(i.mtu != 0, "MTU", PrintInt(i.mtu)));
  }

  lemma HeadNames()
    ensures GoodName("PrivateKey") && GoodName("Address") && GoodName("DNS") && GoodName("ListenPort") &&
            GoodName("MTU")
  {
  }

  lemma PeerNames()
    ensures GoodName("PublicKey") && GoodName("PresharedKey") && GoodName("Endpoint") && GoodName("AllowedIPs")
    ensures GoodName("PersistentKeepalive")
  {
  }

  lemma KeyIsValue(k: Key)
    ensures LineValue(PrintKey(k))
  {
    ParsePrintKey(k);
  }

  lemma IntIsValue(n: int)
    ensures LineValue(PrintInt(n))
  {
    PrintIntIsPlain(n);
  }

  lemma RangeIsValue(r: Range)
    requires GoodRange(r)
    ensures LineValue(PrintRange(r))
  {
    RangeBack(r);
  }

  lemma ParamsAreGood(p: Params)
    requires GoodChains(p)
    ensures GoodEntries(JunkEntries(p)) && GoodEntries(PaddingEntries(p))
    ensures GoodEntries(HeaderEntries(p)) && GoodEntries(ChainEntries(p))
  {
    hide Print, PrintRange, LineValue, GoodEntries;
    NumberIsValue(p.jc);
    NumberIsValue(p.jmin);
    NumberIsValue(p.jmax);
    NumberIsValue(p.s1);
    NumberIsValue(p.s2);
    NumberIsValue(p.s3);
    NumberIsValue(p.s4);
    RangeIsValue(p.h1);
    RangeIsValue(p.h2);
    RangeIsValue(p.h3);
    RangeIsValue(p.h4);
    JunkIsGood(p);
    PaddingIsGood(p);
    HeadersAreGood(p);
    ChainsAreGood(p);
  }

  lemma JunkIsGood(p: Params)
    requires LineValue(Print(p.jc)) && LineValue(Print(p.jmin)) && LineValue(Print(p.jmax))
    ensures GoodEntries(JunkEntries(p))
  {
    hide Print, LineValue;
  }

  lemma PaddingIsGood(p: Params)
    requires LineValue(Print(p.s1)) && LineValue(Print(p.s2)) && LineValue(Print(p.s3)) && LineValue(Print(p.s4))
    ensures GoodEntries(PaddingEntries(p))
  {
    hide Print, LineValue;
  }

  lemma HeadersAreGood(p: Params)
    requires LineValue(PrintRange(p.h1)) && LineValue(PrintRange(p.h2)) && LineValue(PrintRange(p.h3)) &&
             LineValue(PrintRange(p.h4))
    ensures GoodEntries(HeaderEntries(p))
  {
    hide PrintRange, LineValue;
  }

  lemma ChainsAreGood(p: Params)
    requires GoodChains(p)
    ensures GoodEntries(ChainEntries(p))
  {
    ChainNames();
    assert forall j :: 0 <= j < 5 && p.i[j] != "" ==> LineValue(p.i[j]);
    hide LineValue, FreeText, GoodName, GoodEntries, Only, GoodParams;
    var e1, e2, e3 := Only(p.i[0] != "", "I1", p.i[0]), Only(p.i[1] != "", "I2", p.i[1]),
      Only(p.i[2] != "", "I3", p.i[2]);
    var e4, e5 := Only(p.i[3] != "", "I4", p.i[3]), Only(p.i[4] != "", "I5", p.i[4]);
    OnlyIsGood(p.i[0] != "", "I1", p.i[0]);
    OnlyIsGood(p.i[1] != "", "I2", p.i[1]);
    OnlyIsGood(p.i[2] != "", "I3", p.i[2]);
    OnlyIsGood(p.i[3] != "", "I4", p.i[3]);
    OnlyIsGood(p.i[4] != "", "I5", p.i[4]);
    GoodConcat(e1, e2);
    GoodConcat(e1 + e2, e3);
    GoodConcat(e1 + e2 + e3, e4);
    GoodConcat(e1 + e2 + e3 + e4, e5);
  }

  lemma ChainNames()
    ensures GoodName("I1") && GoodName("I2") && GoodName("I3") && GoodName("I4") && GoodName("I5")
  {
  }

  lemma InterfaceIsGood(c: Codec, i: Interface)
    requires GoodCodec(c) && GoodInterface(i)
    ensures GoodEntries(InterfaceEntries(c, i))
  {
    HeadIsGood(c, i);
    ParamsAreGood(i.params);
    hide HeadEntries, JunkEntries, PaddingEntries, HeaderEntries, ChainEntries, GoodEntries, GoodCodec;
    var p := i.params;
    GoodConcat(HeadEntries(c, i), JunkEntries(p));
    GoodConcat(HeadEntries(c, i) + JunkEntries(p), PaddingEntries(p));
    GoodConcat(HeadEntries(c, i) + JunkEntries(p) + PaddingEntries(p), HeaderEntries(p));
    GoodConcat(HeadEntries(c, i) + JunkEntries(p) + PaddingEntries(p) + HeaderEntries(p), ChainEntries(p));
  }

  lemma PeerIsGood(c: Codec, p: Peer)
    requires GoodCodec(c) && GoodPeer(p)
    ensures GoodEntries(PeerEntries(c, p))
  {
    assert p.endpoint != "" ==> LineValue(p.endpoint);
    PeerNames();
    hide Print, PrintKey, JoinList, GoodCodec, LineValue, GoodEntries, Only, ParseList, IsZero, FreeText, GoodName;
    if p.allowedIPs != [] {
      PrefixListBack(c, p.allowedIPs);
    }
    KeyIsValue(p.publicKey);
    KeyIsValue(p.presharedKey);
    NumberIsValue(p.keepalive);
    var allowed := JoinList(p.allowedIPs, a => PrintPrefix(c, a));
    var e1 := Only(true, "PublicKey", PrintKey(p.publicKey));
    var e2 := Only(!IsZero(p.presharedKey), "PresharedKey", PrintKey(p.presharedKey));
    var e3, e4 := Only(p.endpoint != "", "Endpoint", p.endpoint), Only(p.allowedIPs != [], "AllowedIPs", allowed);
    OnlyIsGood(true, "PublicKey", PrintKey(p.publicKey));
    OnlyIsGood(!IsZero(p.presharedKey), "PresharedKey", PrintKey(p.presharedKey));
    OnlyIsGood(p.endpoint != "", "Endpoint", p.endpoint);
    OnlyIsGood(p.allowedIPs != [], "AllowedIPs", allowed);
    OnlyIsGood(p.keepalive != 0, "PersistentKeepalive", Print(p.keepalive));
    GoodConcat(e1, e2);
    GoodConcat(e1 + e2, e3);
    GoodConcat(e1 + e2 + e3, e4);
    GoodConcat(e1 + e2 + e3 + e4, Only(p.keepalive != 0, "PersistentKeepalive", Print(p.keepalive)));
  }

  // ---------------------------------------------------------------- Sections and the whole text

  lemma StepBlank(c: Codec, s: State)
    ensures Step(c, s, "") == Ok(s)
  {
  }

  lemma StepInterface(c: Codec, s: State)
    ensures Step(c, s, "[Interface]") == Ok(s.(section := InInterface))
  {
    LowerPeerNames();
    TrimIsTrimmed("[Interface]");
    hide Trim, Lower, Assign, Find;
    assert "[Interface]"[1..10] == "Interface";
    assert IsHeader("[Interface]");
  }

  lemma StepPeerHeader(c: Codec, s: State)
    ensures Step(c, s, "[Peer]") == Ok(WithPeer(s, NewPeer()))
  {
    LowerPeerNames();
    TrimIsTrimmed("[Peer]");
    hide Trim, Lower, Assign, Find;
    assert "[Peer]"[1..5] == "Peer";
    assert IsHeader("[Peer]");
  }

  /** The state once more peers have been read. */
  function WithPeers(s: State, peers: seq<Peer>): State
    decreases |peers|
  {
    if peers == [] then s else WithPeers(WithPeer(s, peers[0]), peers[1..])
  }

  lemma {:induction false} PeersAfter(s: State, peers: seq<Peer>)
    ensures WithPeers(s, peers).cfg == s.cfg.(peers := s.cfg.peers + peers)
    decreases |peers|
  {
    if peers == [] {
      assert s.cfg.peers + [] == s.cfg.peers;
    } else {
      PeersAfter(WithPeer(s, peers[0]), peers[1..]);
      assert s.cfg.peers + [peers[0]] + peers[1..] == s.cfg.peers + peers;
    }
  }

  ghost predicate AllGood(peers: seq<Peer>) { forall p :: p in peers ==> GoodPeer(p) }

  lemma AllGoodRest(peers: seq<Peer>)
    requires AllGood(peers) && peers != []
    ensures GoodPeer(peers[0]) && AllGood(peers[1..])
  {
    hide GoodPeer;
    assert peers[0] in peers;
    assert forall p :: p in peers[1..] ==> p in peers;
  }

  lemma {:induction false} RunPeers(c: Codec, s: State, peers: seq<Peer>, n: nat)
    requires GoodCodec(c) && AllGood(peers)
    ensures Run(c, s, PeerLines(c, peers), n) == Ok(WithPeers(s, peers))
    decreases |peers|
  {
    hide *;
    if peers == [] {
      RunNoPeers(c, s, n);
    } else {
      AllGoodRest(peers);
      RunOnePeer(c, s, peers[0], n);
      RunPeers(c, WithPeer(s, peers[0]), peers[1..], n + |OnePeer(c, peers[0])|);
      RunMorePeers(c, s, peers, n);
    }
  }

  lemma RunNoPeers(c: Codec, s: State, n: nat)
    ensures Run(c, s, PeerLines(c, []), n) == Ok(WithPeers(s, []))
  {
    hide Step;
  }

  lemma RunMorePeers(c: Codec, s: State, peers: seq<Peer>, n: nat)
    requires peers != [] && Run(c, s, OnePeer(c, peers[0]), n) == Ok(WithPeer(s, peers[0]))
    requires var s1 := WithPeer(s, peers[0]);
             Run(c, s1, PeerLines(c, peers[1..]), n + |OnePeer(c, peers[0])|) == Ok(WithPeers(s1, peers[1..]))
    ensures Run(c, s, PeerLines(c, peers), n) == Ok(WithPeers(s, peers))
  {
    hide Run, OnePeer, WithPeer;
    RunConcat(c, s, OnePeer(c, peers[0]), PeerLines(c, peers[1..]), n, WithPeer(s, peers[0]));
  }

  lemma RunOnePeer(c: Codec, s: State, p: Peer, n: nat)
    requires GoodCodec(c) && GoodPeer(p)
    ensures Run(c, s, OnePeer(c, p), n) == Ok(WithPeer(s, p))
  {
    hide Step, WithPeer, GoodPeer, GoodCodec, Lines, PeerEntries, Run, SetAllPeer, GoodEntries;
    PeerBack(c, p);
    PeerIsGood(c, p);
    RunHead(c, s, n);
    RunPeer(c, s, NewPeer(), PeerEntries(c, p), n + 2);
    RunConcat(c, s, ["", "[Peer]"], Lines(PeerEntries(c, p)), n, WithPeer(s, NewPeer()));
  }

  lemma RunHead(c: Codec, s: State, n: nat)
    ensures Run(c, s, ["", "[Peer]"], n) == Ok(WithPeer(s, NewPeer()))
  {
    StepBlank(c, s);
    StepPeerHeader(c, s);
    hide Step, WithPeer;
    assert ["", "[Peer]"][1..] == ["[Peer]"] && ["[Peer]"][1..] == [];
  }

  lemma RunFirst(c: Codec)
    ensures Run(c, Initial(), ["[Interface]"], 1) == Ok(Initial().(section := InInterface))
  {
    StepInterface(c, Initial());
    hide Step, Initial;
    assert ["[Interface]"][1..] == [];
  }

  /** The state behind the interface section. */
  function AfterInterface(i: Interface): State { State(InInterface, Config(i, [])) }

  lemma RunInterfaceLines(c: Codec, i: Interface)
    requires GoodCodec(c) && GoodInterface(i)
    ensures Run(c, Initial(), InterfaceLines(c, i), 1) == Ok(AfterInterface(i))
  {
    hide Lines, InterfaceEntries, GoodCodec, SetAll, GoodEntries, Run;
    var s1 := Initial().(section := InInterface);
    InterfaceBack(c, i);
    InterfaceIsGood(c, i);
    RunFirst(c);
    RunInterface(c, s1, InterfaceEntries(c, i), 2);
    RunConcat(c, Initial(), ["[Interface]"], Lines(InterfaceEntries(c, i)), 1, s1);
  }

  lemma AfterAll(cfg: Config)
    ensures WithPeers(AfterInterface(cfg.iface), cfg.peers).cfg == cfg
  {
    PeersAfter(AfterInterface(cfg.iface), cfg.peers);
    assert [] + cfg.peers == cfg.peers;
  }

  /** The written lines set exactly the fields. */
  lemma RunRendered(c: Codec, cfg: Config)
    requires |cfg.iface.params.i| == 5 && GoodCodec(c) && GoodInterface(cfg.iface) && AllGood(cfg.peers)
    ensures Run(c, Initial(), RenderLines(c, cfg), 1) == Ok(WithPeers(AfterInterface(cfg.iface), cfg.peers))
  {
    hide *;
    var front := InterfaceLines(c, cfg.iface);
    RunInterfaceLines(c, cfg.iface);
    RunPeers(c, AfterInterface(cfg.iface), cfg.peers, 1 + |front|);
    RunBoth(c, cfg);
  }

  lemma RunBoth(c: Codec, cfg: Config)
    requires |cfg.iface.params.i| == 5
    requires Run(c, Initial(), InterfaceLines(c, cfg.iface), 1) == Ok(AfterInterface(cfg.iface))
    ensures Run(c, Initial(), RenderLines(c, cfg), 1) ==
            Run(c, AfterInterface(cfg.iface), PeerLines(c, cfg.peers), 1 + |InterfaceLines(c, cfg.iface)|)
  {
    hide *;
    RenderShape(c, cfg);
    RunConcat(c, Initial(), InterfaceLines(c, cfg.iface), PeerLines(c, cfg.peers), 1, AfterInterface(cfg.iface));
  }

  lemma GoodParts(cfg: Config)
    requires GoodConfig(cfg)
    ensures GoodInterface(cfg.iface) && AllGood(cfg.peers) && |cfg.iface.params.i| == 5
  {
    hide GoodPeer;
  }

  lemma RenderShape(c: Codec, cfg: Config)
    requires |cfg.iface.params.i| == 5
    ensures RenderLines(c, cfg) == InterfaceLines(c, cfg.iface) + PeerLines(c, cfg.peers)
  {
    hide PeerLines;
  }

  lemma {:induction false} SplitUnlines(lines: seq<string>)
    requires forall l :: l in lines ==> '\n' !in l
    ensures Split(Unlines(lines), '\n') == lines + [""]
  {
    hide *;
    if lines == [] {
      SplitNoLines();
      assert lines + [""] == [""];
    } else {
      assert lines[0] in lines;
      UnlinesCons(lines);
      SplitAt(lines[0], '\n', Unlines(lines[1..]));
      SplitUnlines(lines[1..]);
      assert [lines[0]] + (lines[1..] + [""]) == lines + [""];
    }
  }

  lemma SplitNoLines()
    ensures Split(Unlines([]), '\n') == [""]
  {
  }

  lemma UnlinesCons(lines: seq<string>)
    requires lines != []
    ensures Unlines(lines) == lines[0] + ['\n'] + Unlines(lines[1..])
  {
  }

  lemma EntryLinesHaveNoBreak(entries: seq<Entry>)
    requires GoodEntries(entries)
    ensures forall l :: l in Lines(entries) ==> '\n' !in l
  {
    forall l | l in Lines(entries) ensures '\n' !in l {
      var i :| 0 <= i < |entries| && Lines(entries)[i] == l;
      LineParts(entries[i]);
    }
  }

  lemma {:induction false} PeerLinesHaveNoBreak(c: Codec, peers: seq<Peer>)
    requires GoodCodec(c) && AllGood(peers)
    ensures forall l :: l in PeerLines(c, peers) ==> '\n' !in l
  {
    hide GoodCodec, PeerEntries, GoodEntries, GoodPeer, AllGood;
    if peers != [] {
      AllGoodRest(peers);
      PeerIsGood(c, peers[0]);
      EntryLinesHaveNoBreak(PeerEntries(c, peers[0]));
      PeerLinesHaveNoBreak(c, peers[1..]);
    }
  }

  /** What is written is read as the configuration, if it passes the checks. */
  lemma ParseRendered(c: Codec, cfg: Config)
    requires GoodCodec(c) && GoodConfig(cfg)
    ensures ParseText(c, Render(c, cfg)) == Verdict(cfg)
  {
    hide GoodConfig, GoodCodec, Verdict, Run, Split, WithPeers, Render, AfterInterface;
    AfterAll(cfg);
    RunText(c, cfg);
  }

  lemma RunText(c: Codec, cfg: Config)
    requires GoodCodec(c) && GoodConfig(cfg)
    ensures Run(c, Initial(), Split(Render(c, cfg), '\n'), 1) == Ok(WithPeers(AfterInterface(cfg.iface), cfg.peers))
  {
    GoodParts(cfg);
    hide RenderLines, GoodConfig, GoodCodec, Run, Split, Unlines, WithPeers, AfterInterface, AllGood, GoodInterface;
    RunRendered(c, cfg);
    RenderedHasNoBreak(c, cfg);
    SplitUnlines(RenderLines(c, cfg));
    RunToEnd(c, Initial(), RenderLines(c, cfg), WithPeers(AfterInterface(cfg.iface), cfg.peers));
  }

  lemma RunToEnd(c: Codec, s: State, lines: seq<string>, t: State)
    requires Run(c, s, lines, 1) == Ok(t)
    ensures Run(c, s, lines + [""], 1) == Ok(t)
  {
    hide *;
    RunConcat(c, s, lines, [""], 1, t);
    RunBlank(c, t, 1 + |lines|);
  }

  lemma RenderedHasNoBreak(c: Codec, cfg: Config)
    requires GoodCodec(c) && GoodConfig(cfg)
    ensures |cfg.iface.params.i| == 5 && forall l :: l in RenderLines(c, cfg) ==> '\n' !in l
  {
    GoodParts(cfg);
    InterfaceIsGood(c, cfg.iface);
    hide InterfaceEntries, GoodEntries, PeerLines, GoodConfig, GoodInterface, GoodCodec, Lines, RenderLines;
    EntryLinesHaveNoBreak(InterfaceEntries(c, cfg.iface));
    PeerLinesHaveNoBreak(c, cfg.peers);
    RenderShape(c, cfg);
    NoBreakOn("[Interface]", Lines(InterfaceEntries(c, cfg.iface)), PeerLines(c, cfg.peers));
  }

  lemma NoBreakOn(head: string, a: seq<string>, b: seq<string>)
    requires '\n' !in head && (forall l :: l in a ==> '\n' !in l) && forall l :: l in b ==> '\n' !in l
    ensures forall l :: l in [head] + a + b ==> '\n' !in l
  {
  }

  /** For every text that is accepted, the file written from what was read is accepted and read as the same. */
  lemma RoundTrip(c: Codec, text: string)
    requires GoodCodec(c) && ParseText(c, text).Ok?
    ensures GoodConfig(ParseText(c, text).value)
    ensures ParseText(c, Render(c, ParseText(c, text).value)) == ParseText(c, text)
  {
    var cfg := ParseText(c, text).value;
    ParsedIsGood(c, text);
    AcceptedPasses(c, text);
    hide *;
    ParseRendered(c, cfg);
  }

  lemma AcceptedPasses(c: Codec, text: string)
    requires ParseText(c, text).Ok?
    ensures Verdict(ParseText(c, text).value) == ParseText(c, text)
  {
    hide Run, FitsWire, IsZero, Packets, LargestJunk;
  }

  lemma RunBlank(c: Codec, s: State, n: nat)
    ensures Run(c, s, [""], n) == Ok(s)
  {
    StepBlank(c, s);
    hide Step;
    assert [""][1..] == [];
  }

  // ---------------------------------------------------------------- Writing it out

  lemma {:induction false} UnlinesConcat(a: seq<string>, b: seq<string>)
    ensures Unlines(a + b) == Unlines(a) + Unlines(b)
  {
    if a == [] {
      assert a + b == b;
    } else {
      assert (a + b)[1..] == a[1..] + b;
      UnlinesConcat(a[1..], b);
      assert a[0] + ['\n'] + (Unlines(a[1..]) + Unlines(b)) == a[0] + ['\n'] + Unlines(a[1..]) + Unlines(b);
    }
  }

  lemma LinesConcat(a: seq<Entry>, b: seq<Entry>)
    ensures Lines(a + b) == Lines(a) + Lines(b)
  {
  }

  /** Appends one setting to what has been written, unless it is left out. `entries` are the settings of
      the section so far. */
  method Append(text: string, when: bool, name: string, value: string, ghost head: string, ghost entries: seq<Entry>)
    returns (r: string, ghost more: seq<Entry>)
    requires text == head + Unlines(Lines(entries))
    ensures r == text + Unlines(Lines(Only(when, name, value)))
    ensures more == entries + Only(when, name, value)
    ensures r == head + Unlines(Lines(more))
  {
    r, more := text, entries + Only(when, name, value);
    LinesConcat(entries, Only(when, name, value));
    UnlinesConcat(Lines(entries), Lines(Only(when, name, value)));
    if when {
      var e := Entry(name, value);
      OneLine(e);
      r := r + name + " = " + value + "\n";
      assert r == head + Unlines(Lines(entries)) + (Line(e) + ['\n']);
    } else {
      assert Unlines(Lines([])) == "";
    }
  }

  lemma OneLine(e: Entry)
    ensures Unlines(Lines([e])) == Line(e) + ['\n']
  {
    assert Lines([e]) == [Line(e)];
    assert [Line(e)][1..] == [];
  }

  method WriteHead(c: Codec, i: Interface, head: string) returns (text: string)
    ensures text == head + Unlines(Lines(HeadEntries(c, i)))
  {
    NothingWritten(head);
    hide Unlines, Lines, Only, Print, PrintInt, PrintKey, JoinList;
    ghost var e: seq<Entry> := [];
    text, e := Append(head, true, "PrivateKey", PrintKey(i.privateKey), head, e);
    assert [] + Only(true, "PrivateKey", PrintKey(i.privateKey)) == Only(true, "PrivateKey", PrintKey(i.privateKey));
    text, e := Append(text, i.addresses != [], "Address", JoinList(i.addresses, p => PrintPrefix(c, p)), head, e);
    text, e := Append(text, i.dns != [], "DNS", JoinList(i.dns, a => PrintIp(c, a)), head, e);
    text, e := Append(text, i.listenPort != 0, "ListenPort", Print(i.listenPort), head, e);
    text, e := Append(text, i.mtu != 0, "MTU", PrintInt(i.mtu), head, e);
  }

  lemma NothingWritten(head: string)
    ensures head + Unlines(Lines([])) == head
  {
    assert Lines([]) == [];
  }

  /** A group of settings that starts with this one. */
  method AppendFirst(head: string, when: bool, name: string, value: string) returns (r: string, ghost more: seq<Entry>)
    ensures r == head + Unlines(Lines(Only(when, name, value)))
    ensures more == Only(when, name, value)
  {
    hide Unlines, Lines, Only;
    NothingWritten(head);
    r, more := Append(head, when, name, value, head, []);
    assert [] + Only(when, name, value) == Only(when, name, value);
  }

  method WriteJunk(p: Params, head: string) returns (text: string)
    ensures text == head + Unlines(Lines(JunkEntries(p)))
  {
    hide Unlines, Lines, Only, Print, HasJunk;
    ghost var e;
    text, e := AppendFirst(head, HasJunk(p), "Jc", Print(p.jc));
    text, e := Append(text, HasJunk(p), "Jmin", Print(p.jmin), head, e);
    text, e := Append(text, HasJunk(p), "Jmax", Print(p.jmax), head, e);
  }

  method WritePadding(p: Params, head: string) returns (text: string)
    ensures text == head + Unlines(Lines(PaddingEntries(p)))
  {
    hide Unlines, Lines, Only, Print;
    ghost var e;
    text, e := AppendFirst(head, true, "S1", Print(p.s1));
    text, e := Append(text, true, "S2", Print(p.s2), head, e);
    text, e := Append(text, true, "S3", Print(p.s3), head, e);
    text, e := Append(text, true, "S4", Print(p.s4), head, e);
  }

  method WriteHeaders(p: Params, head: string) returns (text: string)
    ensures text == head + Unlines(Lines(HeaderEntries(p)))
  {
    hide Unlines, Lines, Only, PrintRange;
    ghost var e;
    text, e := AppendFirst(head, p.h1 != ZERO, "H1", PrintRange(p.h1));
    text, e := Append(text, p.h2 != ZERO, "H2", PrintRange(p.h2), head, e);
    text, e := Append(text, p.h3 != ZERO, "H3", PrintRange(p.h3), head, e);
    text, e := Append(text, p.h4 != ZERO, "H4", PrintRange(p.h4), head, e);
  }

  method WriteChains(p: Params, head: string) returns (text: string)
    requires |p.i| == 5
    ensures text == head + Unlines(Lines(ChainEntries(p)))
  {
    hide Unlines, Lines, Only;
    ghost var e;
    text, e := AppendFirst(head, p.i[0] != "", "I1", p.i[0]);
    text, e := Append(text, p.i[1] != "", "I2", p.i[1], head, e);
    text, e := Append(text, p.i[2] != "", "I3", p.i[2], head, e);
    text, e := Append(text, p.i[3] != "", "I4", p.i[3], head, e);
    text, e := Append(text, p.i[4] != "", "I5", p.i[4], head, e);
  }

  method WritePeer(c: Codec, p: Peer, head: string) returns (text: string)
    ensures text == head + Unlines(Lines(PeerEntries(c, p)))
  {
    hide Unlines, Lines, Only, Print, PrintKey, JoinList, IsZero;
    ghost var e;
    text, e := AppendFirst(head, true, "PublicKey", PrintKey(p.publicKey));
    text, e := Append(text, !IsZero(p.presharedKey), "PresharedKey", PrintKey(p.presharedKey), head, e);
    text, e := Append(text, p.endpoint != "", "Endpoint", p.endpoint, head, e);
    text, e := Append(text, p.allowedIPs != [], "AllowedIPs", JoinList(p.allowedIPs, a => PrintPrefix(c, a)), head, e);
    text, e := Append(text, p.keepalive != 0, "PersistentKeepalive", Print(p.keepalive), head, e);
  }

  /** Writes the configuration, so that by `RoundTrip` it can be read back. */
  method String(c: Codec, cfg: Config) returns (text: string)
    requires |cfg.iface.params.i| == 5
    ensures text == Render(c, cfg)
  {
    hide *;
    text := WriteInterface(c, cfg.iface);
    PeersStart(c, cfg);
    for i := 0 to |cfg.peers|
      invariant text + Unlines(PeerLines(c, cfg.peers[i..])) == Render(c, cfg)
    {
      ghost var before := text;
      text := text + "\n[Peer]\n";
      text := WritePeer(c, cfg.peers[i], text);
      PeersNext(c, cfg.peers, i, before, text);
    }
    PeersEnd(c, cfg.peers, text);
  }

  method WriteInterface(c: Codec, i: Interface) returns (text: string)
    requires |i.params.i| == 5
    ensures text == Unlines(InterfaceLines(c, i))
  {
    InterfaceShape(c, i);
    hide *;
    text := "[Interface]\n";
    text := WriteHead(c, i, text);
    text := WriteJunk(i.params, text);
    text := WritePadding(i.params, text);
    text := WriteHeaders(i.params, text);
    text := WriteChains(i.params, text);
  }

  lemma InterfaceShape(c: Codec, i: Interface)
    requires |i.params.i| == 5
    ensures Unlines(InterfaceLines(c, i)) ==
            "[Interface]\n" + Unlines(Lines(HeadEntries(c, i))) + Unlines(Lines(JunkEntries(i.params)))
            + Unlines(Lines(PaddingEntries(i.params))) + Unlines(Lines(HeaderEntries(i.params))) +
              Unlines(Lines(ChainEntries(i.params)))
  {
    InterfaceParts(c, i);
    hide *;
    var e0, e1, e2 := HeadEntries(c, i), JunkEntries(i.params), PaddingEntries(i.params);
    FiveParts("[Interface]\n", e0, e1, e2, HeaderEntries(i.params), ChainEntries(i.params));
  }

  lemma InterfaceParts(c: Codec, i: Interface)
    requires |i.params.i| == 5
    ensures Unlines(InterfaceLines(c, i)) ==
            "[Interface]\n" + Unlines(Lines(HeadEntries(c, i) + JunkEntries(i.params) + PaddingEntries(i.params)
                                           + HeaderEntries(i.params) + ChainEntries(i.params)))
  {
    OneUnline("[Interface]");
    hide HeadEntries, JunkEntries, PaddingEntries, HeaderEntries, ChainEntries, Lines, Unlines;
    UnlinesConcat(["[Interface]"], Lines(InterfaceEntries(c, i)));
  }

  lemma FiveParts(head: string, e0: seq<Entry>, e1: seq<Entry>, e2: seq<Entry>, e3: seq<Entry>, e4: seq<Entry>)
    ensures head + Unlines(Lines(e0 + e1 + e2 + e3 + e4)) ==
            head + Unlines(Lines(e0)) + Unlines(Lines(e1)) + Unlines(Lines(e2)) + Unlines(Lines(e3)) +
              Unlines(Lines(e4))
  {
    hide *;
    UnlinesEntries(e0 + e1 + e2 + e3, e4);
    UnlinesEntries(e0 + e1 + e2, e3);
    UnlinesEntries(e0 + e1, e2);
    UnlinesEntries(e0, e1);
    Assoc(head, Unlines(Lines(e0)), Unlines(Lines(e1)), Unlines(Lines(e2)), Unlines(Lines(e3)), Unlines(Lines(e4)));
  }

  lemma Assoc(h: string, a: string, b: string, c: string, d: string, e: string)
    ensures h + (a + b + c + d + e) == h + a + b + c + d + e
  {
  }

  lemma UnlinesEntries(a: seq<Entry>, b: seq<Entry>)
    ensures Unlines(Lines(a + b)) == Unlines(Lines(a)) + Unlines(Lines(b))
  {
    hide *;
    LinesConcat(a, b);
    UnlinesConcat(Lines(a), Lines(b));
  }

  lemma OneUnline(l: string)
    ensures Unlines([l]) == l + ['\n']
  {
    assert [l][1..] == [];
  }

  lemma PeersStart(c: Codec, cfg: Config)
    requires |cfg.iface.params.i| == 5
    ensures Unlines(InterfaceLines(c, cfg.iface)) + Unlines(PeerLines(c, cfg.peers[0..])) == Render(c, cfg)
  {
    hide InterfaceLines, PeerLines, Unlines;
    assert cfg.peers[0..] == cfg.peers;
    UnlinesConcat(InterfaceLines(c, cfg.iface), PeerLines(c, cfg.peers));
  }

  lemma PeersNext(c: Codec, peers: seq<Peer>, i: nat, before: string, text: string)
    requires i < |peers| && text == before + "\n[Peer]\n" + Unlines(Lines(PeerEntries(c, peers[i])))
    ensures text + Unlines(PeerLines(c, peers[i + 1..])) == before + Unlines(PeerLines(c, peers[i..]))
  {
    hide PeerEntries, Lines, Unlines, PeerLines, OnePeer;
    FirstPeerLines(c, peers, i);
    PeerText(c, peers[i]);
    UnlinesConcat(OnePeer(c, peers[i]), PeerLines(c, peers[i + 1..]));
  }

  lemma FirstPeerLines(c: Codec, peers: seq<Peer>, i: nat)
    requires i < |peers|
    ensures PeerLines(c, peers[i..]) == OnePeer(c, peers[i]) + PeerLines(c, peers[i + 1..])
  {
    hide OnePeer;
    assert peers[i..][1..] == peers[i + 1..] && peers[i..][0] == peers[i];
  }

  lemma PeerText(c: Codec, p: Peer)
    ensures Unlines(OnePeer(c, p)) == "\n[Peer]\n" + Unlines(Lines(PeerEntries(c, p)))
  {
    hide PeerEntries, Lines, Unlines;
    OneUnline("");
    OneUnline("[Peer]");
    UnlinesConcat(["", "[Peer]"], Lines(PeerEntries(c, p)));
    UnlinesConcat([""], ["[Peer]"]);
    assert [""] + ["[Peer]"] == ["", "[Peer]"];
  }

  lemma PeersEnd(c: Codec, peers: seq<Peer>, text: string)
    ensures text + Unlines(PeerLines(c, peers[|peers|..])) == text
  {
    assert peers[|peers|..] == [];
  }
}
