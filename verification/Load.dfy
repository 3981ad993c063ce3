/** What a provider file must satisfy before an upstream is opened, what then fits on the wire, and the MTU
    clients are given. */
module Load {
  import opened Wrappers
  import opened Address
  import opened Params
  import opened Wire
  import opened AwgConf
  import opened AwgConfText

  const UDP_MAX4: nat := 65507
  const DEFAULT_MTU: int := 1420
  const OVERHEAD: int := 60
  const ETHERNET: int := 1500
  const MIN_MTU: int := 68

  /** The transport header and the authentication tag of a data packet. */
  const TRANSPORT: nat := 32

  /** What an IP packet of the greatest size has room for behind its own header, if it is in front (section 3.1
      of RFC 791, section 3 of RFC 8200), and the UDP header. */
  function PayloadMax(v6: bool): nat { if v6 then 65535 - 8 else 65535 - 20 - 8 }

  datatype Loaded = Loaded(addr: Prefix, mtu: int)

  predicate IsV4All(p: Prefix) { p.ip.V4? && p.len == 0 }

  method RoutesEverything(prefixes: seq<Prefix>) returns (all: bool)
    ensures all <==> exists p :: p in prefixes && p.ip.V4? && p.len == 0
  {
    for i := 0 to |prefixes|
      invariant forall j :: 0 <= j < i ==> !IsV4All(prefixes[j])
    {
      if IsV4All(prefixes[i]) {
        return true;
      }
    }
    all := false;
  }

  /** The first IPv4 prefix. */
  ghost predicate IsFirstV4(prefixes: seq<Prefix>, p: Prefix) {
    exists i :: 0 <= i < |prefixes| && prefixes[i] == p && p.ip.V4? && forall j :: 0 <= j < i ==> !prefixes[j].ip.V4?
  }

  method FirstV4(prefixes: seq<Prefix>) returns (found: Option<Prefix>)
    ensures found.Some? ==> IsFirstV4(prefixes, found.value)
    ensures found == None ==> forall p :: p in prefixes ==> !p.ip.V4?
  {
    for i := 0 to |prefixes|
      invariant forall j :: 0 <= j < i ==> !prefixes[j].ip.V4?
    {
      if prefixes[i].ip.V4? {
        return Some(prefixes[i]);
      }
    }
    found := None;
  }

  function Mtu(cfg: Config): int { if cfg.iface.mtu == 0 then 1420 else cfg.iface.mtu }

  /** What is demanded of a parsed file, with the payload limit of the endpoint's address family. */
  ghost predicate Acceptable(cfg: Config, limit: nat) {
    var p := cfg.iface.params;
    && |cfg.peers| == 1 && (exists a :: a in cfg.peers[0].allowedIPs && a.ip.V4? && a.len == 0)
    && (p.jc > 0 ==> LargestJunk(p) <= limit)
    && FitsWire(p, limit)
    && (exists a :: a in cfg.iface.addresses && a.ip.V4?)
    && 68 + p.s4 <= Mtu(cfg) <= limit - 32 - p.s4
  }

  /** `resolved` says whether the endpoint could be resolved, `v6` whether to an IPv6 address that does not
      stand for an IPv4 one. */
  method LoadUpstream(cfg: Config, resolved: bool, v6: bool) returns (r: Option<Loaded>)
    ensures r.Some? <==> resolved && Acceptable(cfg, PayloadMax(v6))
    ensures r.Some? ==> r.value.mtu == Mtu(cfg) && IsFirstV4(cfg.iface.addresses, r.value.addr)
  {
    hide FitsWire;
    if |cfg.peers| != 1 {
      return None;
    }
    var all := RoutesEverything(cfg.peers[0].allowedIPs);
    if !all {
      return None;
    }
    if !resolved {
      return None;
    }
    var payloadMax := UDP_MAX4;
    if v6 {
      payloadMax := UDP_MAX6;
    }
    var p := cfg.iface.params;
    if p.jc > 0 {
      var largest: int := p.jmax;
      if p.jmin < p.jmax {
        largest := largest - 1;
      }
      if largest > payloadMax {
        return None;
      }
    }
    var fits := CheckWireSizes(p, payloadMax);
    if !fits {
      return None;
    }
    var addr := FirstV4(cfg.iface.addresses);
    if addr == None {
      return None;
    }
    assert addr.value in cfg.iface.addresses;
    var m := cfg.iface.mtu;
    if m == 0 {
      m := DEFAULT_MTU;
    }
    if m < MIN_MTU + p.s4 {
      return None;
    }
    if m > payloadMax - TRANSPORT - p.s4 {
      return None;
    }
    r := Some(Loaded(addr.value, m));
  }

  /** The sizes junk packets can have: the upper bound is exclusive unless the bounds are equal. */
  ghost predicate JunkSize(p: Params, n: int) {
    p.jc > 0 && if p.jmin < p.jmax then p.jmin <= n < p.jmax else n == p.jmin
  }

  /** The datagram that carries `n` bytes, with its transport header and authentication tag. */
  function DataPacket(n: nat, s4: nat): nat { n + 16 + 16 + s4 }

  /** Everything the tunnel of an accepted file sends fits into a UDP datagram to its endpoint: every
      handshake message and signature packet, every junk packet, and every data packet whose content is no
      longer than the MTU. */
  lemma AcceptedFits(c: Codec, text: string, v6: bool)
    requires ParseText(c, text).Ok? && Acceptable(ParseText(c, text).value, PayloadMax(v6))
    ensures var cfg, limit := ParseText(c, text).value, PayloadMax(v6);
            var p := cfg.iface.params;
            && p.s1 + 148 <= limit && p.s2 + 92 <= limit && p.s3 + 64 <= limit
            && (forall spec :: spec in p.i ==> ChainFits(spec, limit))
            && (forall n :: JunkSize(p, n) ==> 0 <= n <= limit)
            && (forall n: nat :: n <= Mtu(cfg) ==> DataPacket(n, p.s4) <= limit)
  {
    var cfg := ParseText(c, text).value;
    AcceptedPasses(c, text);
    hide ParseText, ChainFits, Packets;
    assert cfg.iface.params.jc > 0 ==> cfg.iface.params.jmin <= cfg.iface.params.jmax;
  }

  /** Nothing is refused that would fit: the bounds on junk and on the MTU are the greatest that keep every
      junk packet and every full data packet within a datagram. */
  lemma BoundsAreTight(p: Params, mtu: int, limit: nat)
    requires p.jc > 0 ==> p.jmin <= p.jmax
    ensures (p.jc > 0 ==> LargestJunk(p) <= limit) <==> forall n :: JunkSize(p, n) ==> n <= limit
    ensures mtu >= 0 ==> (mtu <= limit - 32 - p.s4 <==> forall n: nat :: n <= mtu ==> DataPacket(n, p.s4) <= limit)
  {
    assert p.jc > 0 ==> JunkSize(p, LargestJunk(p));
    assert mtu >= 0 ==> DataPacket(mtu, p.s4) == mtu + 32 + p.s4;
  }

  /** A file that is accepted for an IPv4 endpoint is accepted for an IPv6 one. */
  lemma FamilyMonotone(cfg: Config)
    requires Acceptable(cfg, PayloadMax(false))
    ensures Acceptable(cfg, PayloadMax(true))
  {
    FitsMonotone(cfg.iface.params, PayloadMax(false), PayloadMax(true));
    hide FitsWire;
  }

  // ---------------------------------------------------------------- The client MTU

  datatype Tunnel = Tunnel(mtu: int, s4: nat)

  function TunnelMtu(t: Tunnel): int { if t.mtu == 0 then 1420 else t.mtu }

  /** A packet of this size survives the downstream tunnel on Ethernet and every upstream tunnel. */
  ghost predicate Survives(n: int, s4Down: nat, ups: seq<Tunnel>) {
    n + s4Down + 60 <= 1500 && forall t :: t in ups ==> n + t.s4 <= TunnelMtu(t)
  }

  /** The largest packet that survives. */
  method Client(s4Down: nat, ups: seq<Tunnel>) returns (best: int)
    ensures forall n :: Survives(n, s4Down, ups) <==> n <= best
  {
    best := ETHERNET - OVERHEAD - s4Down;
    assert ups[..0] == [];
    for i := 0 to |ups|
      invariant forall n :: Survives(n, s4Down, ups[..i]) <==> n <= best
    {
      var m := ups[i].mtu;
      if m == 0 {
        m := DEFAULT_MTU;
      }
      var fits := m - ups[i].s4;
      ghost var before := best;
      if fits < best {
        best := fits;
      }
      assert ups[..i + 1] == ups[..i] + [ups[i]];
      SurvivesOne(s4Down, ups[..i], ups[i], before);
    }
    assert ups[..|ups|] == ups;
  }

  lemma SurvivesOne(s4Down: nat, ups: seq<Tunnel>, t: Tunnel, best: int)
    requires forall n :: Survives(n, s4Down, ups) <==> n <= best
    ensures forall n :: Survives(n, s4Down, ups + [t]) <==> n <= best && n <= TunnelMtu(t) - t.s4
  {
    forall n ensures Survives(n, s4Down, ups + [t]) <==> Survives(n, s4Down, ups) && n + t.s4 <= TunnelMtu(t) {
      assert (ups + [t])[|ups|] == t && t in ups + [t];
      assert forall u :: u in ups + [t] <==> u in ups || u == t;
    }
  }

  /** With tunnels that were accepted, and the downstream padding an identity can have, clients get an MTU
      that IPv4 allows. */
  lemma ClientIsEnough(s4Down: nat, ups: seq<Tunnel>, best: int)
    requires s4Down <= 1500 - 60 - 68
    requires forall t :: t in ups ==> TunnelMtu(t) >= 68 + t.s4
    requires forall n :: Survives(n, s4Down, ups) <==> n <= best
    ensures best >= 68
  {
    assert Survives(68, s4Down, ups);
  }
}
