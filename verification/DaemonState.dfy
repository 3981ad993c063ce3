/**
What the daemon remembers next to what is in the kernel, the invariant that ties the two together, and
why each of the daemon's steps keeps it.
 */
module DaemonState {
  import opened Wrappers
  import opened Kernel
  import opened LinuxRules
  import opened RouteSteps
  import opened Upstreams
  import opened LinuxDataplane
  import opened Effects
  import Policy
  import Health

  /** A row of the store, as far as routing is concerned. */
  datatype Peer = Peer(key: Key, ip: Addr, profile: string)

  /** An upstream in service: its configuration, the provider file it was loaded from, the address of its
      tunnel, the device it runs on, and its health. */
  datatype Upstream = Upstream(conf: Policy.Upstream, source: string, addr: Addr, id: DeviceId, track: Health.Track)

  function InterfaceName(upstream: string): string { UP_PREFIX + upstream }

  lemma InterfaceNames(a: string, b: string)
    ensures InterfaceName(a) == InterfaceName(b) ==> a == b
    ensures IsUpName(InterfaceName(a))
  {
    assert InterfaceName(a)[|UP_PREFIX|..] == a && InterfaceName(b)[|UP_PREFIX|..] == b;
  }

  /**
   * `via` holds the device each address was last routed to. `torn` holds the addresses for which a
   * `Route` failed behind its new plain rule and that neither a cleanup, nor a later move, nor a change
   * of the upstreams has put right since. `gone` holds the keys that a listing of the store no longer
   * had.
   */
  datatype Control = Control(
    dp: Dp,
    assignments: map<Addr, string>,
    pending: set<Addr>,
    peers: map<Key, Peer>,
    stale: set<string>,
    via: map<Addr, DeviceId>,
    torn: set<Addr>,
    gone: set<Key>)

  /** The upstreams in service, each by the device it runs on. */
  type Live = map<string, DeviceId>

  ghost predicate Owned(peers: map<Key, Peer>, a: Addr) { exists k :: k in peers && peers[k].ip == a }

  /** Nobody is authorised without an assignment, and every assignment and every unfinished cleanup
      belongs to a peer that is still on the books. */
  ghost predicate Admitted(c: Control) {
    && c.dp.k.peers <= c.assignments.Keys
    && forall a :: a in c.assignments || a in c.pending ==> Owned(c.peers, a)
  }

  /** The peers on the books have different addresses, and every key on the device is on the books. */
  ghost predicate Booked(c: Control) {
    && (forall k :: k in c.peers ==> c.peers[k].key == k && (k in c.dp.k.keys || k in c.gone))
    && (forall j, k :: j in c.peers && k in c.peers && c.peers[j].ip == c.peers[k].ip ==> j == k)
    && c.dp.k.keys <= c.peers.Keys
  }

  /** An assignment without unfinished cleanup is to the very device in service under that name. */
  ghost predicate UpToDate(c: Control, live: Live) {
    forall a :: a in c.assignments && a !in c.pending ==>
                  && c.assignments[a] in live && a in c.via && c.via[a] == live[c.assignments[a]]
                  && InterfaceName(c.assignments[a]) in c.dp.tables
  }

  /** The kernel routes the address through the upstream it is assigned to and through no other. */
  ghost predicate InSync(c: Control, a: Addr) {
    forall n :: n in c.dp.tables ==>
                  (PlainRule(a, c.dp.tables[n]) in c.dp.k.rules <==>
                   a in c.assignments && n == InterfaceName(c.assignments[a]))
  }

  /** The kernel routes exactly those addresses differently that are torn, unfinished cleanup aside. */
  ghost predicate Synced(c: Control) {
    forall a: Addr :: a !in c.pending ==> (InSync(c, a) <==> a !in c.torn)
  }

  /** Only upstream interfaces are in the firewall's sets, and only upstreams with a table are marked alive. */
  ghost predicate Grounded(d: Dp) {
    && GoodDp(d) && Guarded(d) && UniqueRoutes(d.k.routes) && (forall n :: n in d.k.marks ==> IsUpName(n))
    && d.alive <= d.tables.Keys
  }

  /** The invariant of the running daemon. */
  ghost predicate Sound(c: Control, live: Live) {
    Grounded(c.dp) && Admitted(c) && Booked(c) && UpToDate(c, live) && Synced(c)
  }

  // ---------------------------------------------------------------- Routing a peer

  /** The plain rule of the table is there, and so is one of another upstream: a move to the table
      returns early and leaves both. */
  ghost predicate Doubled(d: Dp, a: Addr, table: nat) {
    && PlainRule(a, table) in d.k.rules
    && exists n :: n in d.tables && d.tables[n] != table && PlainRule(a, d.tables[n]) in d.k.rules
  }

  ghost function AfterRouteCall(c: Control, d: Dp, a: Addr, name: string, live: Live, ok: bool): Control
    requires name in live && InterfaceName(name) in c.dp.tables
  {
    var table := c.dp.tables[InterfaceName(name)];
    if ok then
      c.(dp := d, assignments := c.assignments[a := name], via := c.via[a := live[name]],
         torn := if Doubled(c.dp, a, table) then c.torn else c.torn - {a})
    else
      var added := PlainRule(a, table) in d.k.rules && PlainRule(a, table) !in c.dp.k.rules;
      c.(dp := d, torn := if added then c.torn + {a} else c.torn)
  }

  lemma RouteKeepsSound(c: Control, d: Dp, a: Addr, name: string, live: Live, ok: bool)
    requires Sound(c, live) && name in live && InterfaceName(name) in c.dp.tables
    requires a !in c.pending && Owned(c.peers, a) && (a in c.assignments ==> c.assignments[a] != name)
    requires RouteEffect(c.dp, d, a, c.dp.tables[InterfaceName(name)], ok)
    ensures Sound(AfterRouteCall(c, d, a, name, live, ok), live)
  {
    hide GoodRules, UniqueRoutes, Synced, AfterRouteCall, RouteEffect;
    RouteKeepsRest(c, d, a, name, live, ok);
    RouteKeepsSync(c, d, a, name, live, ok);
  }

  lemma RouteKeepsRest(c: Control, d: Dp, a: Addr, name: string, live: Live, ok: bool)
    requires Sound(c, live) && name in live && InterfaceName(name) in c.dp.tables
    requires Owned(c.peers, a)
    requires RouteEffect(c.dp, d, a, c.dp.tables[InterfaceName(name)], ok)
    ensures var c' := AfterRouteCall(c, d, a, name, live, ok);
            Grounded(c'.dp) && Admitted(c') && Booked(c') && UpToDate(c', live)
  {
    hide GoodRules, GoodTables, UniqueRoutes, Synced, Doubled, Booked, UpToDate;
    RouteKeepsBooks(c, d, a, name, live, ok);
  }

  lemma RouteKeepsBooks(c: Control, d: Dp, a: Addr, name: string, live: Live, ok: bool)
    requires Booked(c) && UpToDate(c, live) && name in live && Owned(c.peers, a)
    requires InterfaceName(name) in c.dp.tables
    requires RouteEffect(c.dp, d, a, c.dp.tables[InterfaceName(name)], ok)
    ensures var c' := AfterRouteCall(c, d, a, name, live, ok); Booked(c') && UpToDate(c', live)
  {
    hide GoodRules, GoodTables, UniqueRoutes, Synced, Doubled;
  }

  lemma RouteKeepsSync(c: Control, d: Dp, a: Addr, name: string, live: Live, ok: bool)
    requires Sound(c, live) && name in live && InterfaceName(name) in c.dp.tables
    requires a !in c.pending && (a in c.assignments ==> c.assignments[a] != name)
    requires RouteEffect(c.dp, d, a, c.dp.tables[InterfaceName(name)], ok)
    ensures Synced(AfterRouteCall(c, d, a, name, live, ok))
  {
    hide GoodRules, UniqueRoutes, InSync, RouteEffect, Doubled;
    var c' := AfterRouteCall(c, d, a, name, live, ok);
    forall b: Addr | b !in c'.pending ensures InSync(c', b) <==> b !in c'.torn {
      assert InSync(c, b) <==> b !in c.torn;
      if b == a {
        RouteSyncs(c, d, a, name, live, ok);
        DoubledIsTorn(c, a, name);
      } else {
        OthersInSync(c, d, a, b, name, live, ok);
      }
    }
  }

  /** When a move leaves the kernel routing the address as it is assigned. One that returns nil does if
      and only if it found no plain rule of the new upstream or none of another; one that fails does
      if and only if the kernel did before and the new plain rule has not been added. */
  lemma RouteSyncs(c: Control, d: Dp, a: Addr, name: string, live: Live, ok: bool)
    requires GoodDp(c.dp) && name in live && InterfaceName(name) in c.dp.tables
    requires a in c.assignments ==> c.assignments[a] != name
    requires RouteEffect(c.dp, d, a, c.dp.tables[InterfaceName(name)], ok)
    ensures var c', r := AfterRouteCall(c, d, a, name, live, ok), PlainRule(a, c.dp.tables[InterfaceName(name)]);
            InSync(c', a) <==>
            if ok then !Doubled(c.dp, a, c.dp.tables[InterfaceName(name)])
            else InSync(c, a) && (r in d.k.rules ==> r in c.dp.k.rules)
  {
    hide GoodRules;
    if a in c.assignments {
      InterfaceNames(name, c.assignments[a]);
    }
    assert forall n :: n in d.tables ==> d.tables[n] in d.tables.Values;
    assert InterfaceName(name) in d.tables;
  }

  lemma DoubledIsTorn(c: Control, a: Addr, name: string)
    requires InterfaceName(name) in c.dp.tables && (a in c.assignments ==> c.assignments[a] != name)
    ensures Doubled(c.dp, a, c.dp.tables[InterfaceName(name)]) ==> !InSync(c, a)
  {
    if a in c.assignments {
      InterfaceNames(name, c.assignments[a]);
    }
  }

  lemma OthersInSync(c: Control, d: Dp, a: Addr, b: Addr, name: string, live: Live, ok: bool)
    requires name in live && InterfaceName(name) in c.dp.tables && b != a
    requires RouteEffect(c.dp, d, a, c.dp.tables[InterfaceName(name)], ok)
    ensures var c' := AfterRouteCall(c, d, a, name, live, ok);
            (InSync(c', b) <==> InSync(c, b)) && (b in c'.torn <==> b in c.torn)
  {
    hide GoodRules, GoodTables, UniqueRoutes, Doubled;
    assert forall n :: n in c.dp.tables ==> !IsPeerRuleOf(PlainRule(b, c.dp.tables[n]), a);
    SyncAlike(c, AfterRouteCall(c, d, a, name, live, ok), b);
  }

  /** Two states that route the address alike. */
  lemma SyncAlike(c: Control, c': Control, b: Addr)
    requires c'.dp.tables == c.dp.tables
    requires forall n :: n in c.dp.tables ==>
               (PlainRule(b, c.dp.tables[n]) in c'.dp.k.rules <==> PlainRule(b, c.dp.tables[n]) in c.dp.k.rules)
    requires b in c'.assignments <==> b in c.assignments
    requires b in c.assignments ==> c'.assignments[b] == c.assignments[b]
    ensures InSync(c', b) <==> InSync(c, b)
  {
  }

  // ---------------------------------------------------------------- Unrouting a peer

  ghost function AfterUnrouteCall(c: Control, d: Dp, a: Addr, ok: bool): Control {
    if ok then c.(dp := d, assignments := c.assignments - {a}, pending := c.pending - {a}, torn := c.torn - {a})
    else c.(dp := d, pending := c.pending + {a})
  }

  lemma UnrouteKeepsSound(c: Control, d: Dp, a: Addr, live: Live, ok: bool)
    requires Sound(c, live) && Owned(c.peers, a) && UnrouteEffect(c.dp, d, a, ok)
    ensures Sound(AfterUnrouteCall(c, d, a, ok), live)
  {
    hide GoodRules, GoodTables, UniqueRoutes, InSync;
    var c' := AfterUnrouteCall(c, d, a, ok);
    forall b: Addr | b !in c'.pending ensures InSync(c', b) <==> b !in c'.torn {
      UnroutedInSync(c, d, a, b, live, ok);
    }
  }

  lemma UnroutedInSync(c: Control, d: Dp, a: Addr, b: Addr, live: Live, ok: bool)
    requires Sound(c, live) && UnrouteEffect(c.dp, d, a, ok)
    ensures var c' := AfterUnrouteCall(c, d, a, ok); b in c'.pending || (InSync(c', b) <==> b !in c'.torn)
  {
    hide GoodRules, UniqueRoutes;
    if b == a {
      assert forall n :: n in c.dp.tables ==> IsPeerRuleOf(PlainRule(a, c.dp.tables[n]), a);
    } else {
      assert b in c.pending || (InSync(c, b) <==> b !in c.torn);
      assert forall n :: n in c.dp.tables ==> !IsPeerRuleOf(PlainRule(b, c.dp.tables[n]), a);
      SyncAlike(c, AfterUnrouteCall(c, d, a, ok), b);
    }
  }

  // ---------------------------------------------------------------- Health

  lemma AliveKeepsSound(c: Control, d: Dp, name: string, up: bool, ok: bool, stale: set<string>, live: Live)
    requires Sound(c, live) && AliveEffect(c.dp, d, name, up, ok)
    ensures Sound(c.(dp := d, stale := stale), live)
  {
    hide GoodRules, GoodTables, UniqueRoutes;
    var c' := c.(dp := d, stale := stale);
    forall b: Addr ensures InSync(c', b) <==> InSync(c, b) {
      SyncAlike(c, c', b);
    }
  }

  // ---------------------------------------------------------------- The book of peers

  lemma BookKeepsSound(c: Control, p: Peer, live: Live)
    requires Sound(c, live) && p.key !in c.peers && !Owned(c.peers, p.ip)
    ensures Sound(c.(peers := c.peers[p.key := p], dp := c.dp.(k := Apply(c.dp.k, PeerAdd(p.key)))), live)
  {
    hide GoodRules, GoodTables, UniqueRoutes;
    BookedAgain(c, p);
    SameRouting(c, c.(peers := c.peers[p.key := p], dp := c.dp.(k := Apply(c.dp.k, PeerAdd(p.key)))), live);
  }

  lemma BookedAgain(c: Control, p: Peer)
    requires Admitted(c) && Booked(c) && p.key !in c.peers && !Owned(c.peers, p.ip)
    ensures var c' := c.(peers := c.peers[p.key := p],
                         dp := c.dp.(k := Apply(c.dp.k, PeerAdd(p.key)))); Admitted(c') && Booked(c')
  {
    var c' := c.(peers := c.peers[p.key := p], dp := c.dp.(k := Apply(c.dp.k, PeerAdd(p.key))));
    forall a | a in c'.assignments || a in c'.pending ensures Owned(c'.peers, a) {
      var k :| k in c.peers && c.peers[k].ip == a;
      assert k in c'.peers && c'.peers[k].ip == a;
    }
    forall k | k in c.peers ensures c.peers[k].ip != p.ip {
    }
  }

  /** Two states that route alike. */
  lemma SameRouting(c: Control, c': Control, live: Live)
    requires Sound(c, live) && Admitted(c') && Booked(c')
    requires c'.assignments == c.assignments && c'.pending == c.pending && c'.via == c.via && c'.torn == c.torn
    requires c'.dp.tables == c.dp.tables && c'.dp.allowed == c.dp.allowed && c'.dp.alive == c.dp.alive
    requires c'.dp.k.rules == c.dp.k.rules && c'.dp.k.routes <= c.dp.k.routes
    requires c'.dp.k.firewall == c.dp.k.firewall && c'.dp.k.peers == c.dp.k.peers && c'.dp.k.marks == c.dp.k.marks
    ensures Sound(c', live)
  {
    hide GoodRules, GoodTables;
    forall b: Addr ensures InSync(c', b) <==> InSync(c, b) {
      SyncAlike(c, c', b);
    }
  }

  /** A key that the store no longer has goes from the device. */
  lemma DismissKeepsSound(c: Control, key: Key, live: Live, removed: bool)
    requires Sound(c, live)
    ensures Sound(c.(gone := c.gone + {key},
                     dp := if removed then c.dp.(k := Apply(c.dp.k, PeerRemove(key))) else c.dp), live)
  {
    hide GoodRules, GoodTables, UniqueRoutes;
    var c' := c.(gone := c.gone + {key}, dp := if removed then c.dp.(k := Apply(c.dp.k, PeerRemove(key))) else c.dp);
    assert Admitted(c') && Booked(c');
    SameRouting(c, c', live);
  }

  /** A peer that is off the device and cleaned up is struck off the books. */
  lemma StrikeKeepsSound(c: Control, key: Key, live: Live)
    requires Sound(c, live) && key in c.peers && key !in c.dp.k.keys
    requires c.peers[key].ip !in c.assignments && c.peers[key].ip !in c.pending
    ensures Sound(c.(peers := c.peers - {key}), live)
  {
    hide GoodRules, GoodTables, UniqueRoutes;
    var c' := c.(peers := c.peers - {key});
    forall a | a in c'.assignments || a in c'.pending ensures Owned(c'.peers, a) {
      var k :| k in c.peers && c.peers[k].ip == a;
      assert k in c'.peers;
    }
    assert Booked(c');
    SameRouting(c, c', live);
  }

  // ---------------------------------------------------------------- Upstreams come and go

  /** An upstream that nobody is assigned to, unless cleanup is unfinished, can leave service. */
  lemma DropKeepsSound(c: Control, name: string, live: Live, stale: set<string>)
    requires Sound(c, live) && forall a :: a in c.assignments && c.assignments[a] == name ==> a in c.pending
    ensures Sound(c.(stale := stale), live - {name})
  {
    hide GoodRules, GoodTables, UniqueRoutes;
    var c' := c.(stale := stale);
    forall b: Addr ensures InSync(c', b) <==> InSync(c, b) {
      SyncAlike(c, c', b);
    }
  }

  lemma OpenKeepsSound(c: Control, name: string, id: DeviceId, live: Live)
    requires Sound(c, live) && name !in live
    ensures Sound(c, live[name := id])
  {
  }

  lemma DevicesKeepSound(c: Control, k: State, live: Live)
    requires Sound(c, live) && k.routes <= c.dp.k.routes
    requires k == c.dp.k.(routes := k.routes, devices := k.devices)
    ensures Sound(c.(dp := c.dp.(k := k)), live)
  {
    hide GoodRules, GoodTables, UniqueRoutes;
    assert Admitted(c.(dp := c.dp.(k := k))) && Booked(c.(dp := c.dp.(k := k)));
    SameRouting(c, c.(dp := c.dp.(k := k)), live);
  }

  /** Only devices, and routes over closed ones, have changed. */
  ghost predicate DevicesOnly(c: Control, c': Control) {
    && c' == c.(dp := c.dp.(k := c.dp.k.(routes := c'.dp.k.routes, devices := c'.dp.k.devices)))
    && c'.dp.k.routes <= c.dp.k.routes
  }

  function Interfaces(live: Live): set<string> { set n | n in live :: InterfaceName(n) }

  /** A change of the upstreams can put a torn address right: the plain rules that were left over for it
      may go with their upstreams. */
  ghost function AfterChange(c: Control, d: Dp): Control {
    c.(dp := d, torn := set a | a in c.torn && !InSync(c.(dp := d), a))
  }

  /** A change of the set of upstreams, complete or not, leaves what is in service routed as it was. */
  lemma ChangeKeepsSound(c: Control, d: Dp, live: Live)
    requires Sound(c, live) && Changed(c.dp, d, Interfaces(live)) && Guarded(d)
    ensures Sound(AfterChange(c, d), live)
  {
    hide GoodRules, GoodTables, UniqueRoutes, InSync;
    var c' := AfterChange(c, d);
    assert Grounded(d);
    assert forall n :: n in live ==> InterfaceName(n) in Interfaces(live);
    forall b: Addr | b !in c'.pending ensures InSync(c', b) <==> b !in c'.torn {
      SyncAlike(c.(dp := d), c', b);
      if b !in c.torn {
        ChangedInSync(c, d, live, b);
      }
    }
  }

  lemma ChangedInSync(c: Control, d: Dp, live: Live, b: Addr)
    requires Sound(c, live) && Changed(c.dp, d, Interfaces(live)) && b !in c.pending && b !in c.torn
    ensures InSync(c.(dp := d), b)
  {
    hide GoodRules, UniqueRoutes;
    var c' := c.(dp := d);
    assert InSync(c, b);
    assert forall n :: n in live ==> InterfaceName(n) in Interfaces(live);
    forall n | n in d.tables
      ensures PlainRule(b, d.tables[n]) in d.k.rules <==> b in c.assignments && n == InterfaceName(c.assignments[b])
    {
      var r := PlainRule(b, d.tables[n]);
      assert IsPeerRule(r);
      if n !in c.dp.tables {
        assert NoPeerRuleAt(d.k.rules, d.tables[n]);
      }
    }
  }

  // ---------------------------------------------------------------- Upstreams in service

  function UpNames(ups: seq<Upstream>): set<string> { set u | u in ups :: u.conf.name }

  /** As `Validate` makes sure: names are not empty and no two are equal. */
  ghost predicate DistinctUps(ups: seq<Upstream>) {
    && (forall u :: u in ups ==> u.conf.name != "")
    && (forall i, j :: 0 <= i < j < |ups| ==> ups[i].conf.name != ups[j].conf.name)
  }

  ghost function LiveOf(ups: seq<Upstream>): Live
    decreases |ups|
  {
    if ups == [] then map[]
    else LiveOf(ups[..|ups| - 1])[ups[|ups| - 1].conf.name := ups[|ups| - 1].id]
  }

  lemma {:induction false} LiveNames(ups: seq<Upstream>)
    ensures LiveOf(ups).Keys == UpNames(ups)
    ensures DistinctUps(ups) ==> forall u :: u in ups ==> LiveOf(ups)[u.conf.name] == u.id
    decreases |ups|
  {
    if ups != [] {
      var front, last := ups[..|ups| - 1], ups[|ups| - 1];
      assert ups == front + [last];
      LiveNames(front);
      if DistinctUps(ups) {
        assert DistinctUps(front) by {
          assert forall u :: u in front ==> u in ups;
        }
        forall u | u in ups ensures LiveOf(ups)[u.conf.name] == u.id {
          var i :| 0 <= i < |ups| && ups[i] == u;
          assert i < |front| ==> front[i] == u;
        }
      }
    }
  }

  function Candidates(ups: seq<Upstream>): (out: seq<Policy.Candidate>)
    ensures |out| == |ups|
    ensures forall i :: 0 <= i < |ups| ==>
              out[i] == Policy.Candidate(ups[i].conf, ups[i].track.state == Health.Up, ups[i].track.latency)
  {
    seq(|ups|, i requires 0 <= i < |ups| =>
      Policy.Candidate(ups[i].conf, ups[i].track.state == Health.Up, ups[i].track.latency))
  }

  /** Number `i` is the first profile of that name. */
  ghost predicate FirstNamed(profiles: seq<Policy.Profile>, i: nat, name: string) {
    i < |profiles| && profiles[i].name == name && forall j :: 0 <= j < i ==> profiles[j].name != name
  }

  /** Looking a profile up finds the first of its name, and nothing exactly if there is none. */
  lemma {:induction false} ProfileIsFirstNamed(profiles: seq<Policy.Profile>, name: string)
    ensures var p := FindProfile(profiles, name);
            && (p == None <==> forall q :: q in profiles ==> q.name != name)
            && (p.Some? ==> exists i: nat :: FirstNamed(profiles, i, name) && profiles[i] == p.value)
  {
    if profiles != [] {
      assert profiles[0] in profiles;
      if profiles[0].name == name {
        assert FirstNamed(profiles, 0, name);
      } else {
        ProfileIsFirstNamed(profiles[1..], name);
        assert forall q :: q in profiles <==> q == profiles[0] || q in profiles[1..];
        if i: nat :| FirstNamed(profiles[1..], i, name) && profiles[1..][i] == FindProfile(profiles[1..], name).value {
          assert FirstNamed(profiles, i + 1, name) && profiles[i + 1] == profiles[1..][i];
        }
      }
    }
  }

  function FindProfile(profiles: seq<Policy.Profile>, name: string): Option<Policy.Profile> {
    if profiles == [] then None
    else if profiles[0].name == name then Some(profiles[0])
    else FindProfile(profiles[1..], name)
  }

  lemma ChoiceIsLive(p: Policy.Profile, ups: seq<Upstream>, current: string, choice: Option<string>)
    requires DistinctUps(ups) && Policy.Selected(p, Candidates(ups), current, choice) && choice.Some?
    ensures choice.value in UpNames(ups) && choice.value != ""
  {
    var c :| Policy.Eligible(p, Candidates(ups), c) && c.up.name == choice.value;
    var i :| 0 <= i < |ups| && Candidates(ups)[i] == c;
    assert ups[i] in ups;
  }

  /** Names and devices decide what is in service. */
  lemma {:induction false} LiveSame(ups: seq<Upstream>, ups': seq<Upstream>)
    requires |ups| == |ups'|
    requires forall i :: 0 <= i < |ups| ==> ups[i].conf.name == ups'[i].conf.name && ups[i].id == ups'[i].id
    ensures LiveOf(ups) == LiveOf(ups')
    decreases |ups|
  {
    if ups != [] {
      LiveSame(ups[..|ups| - 1], ups'[..|ups| - 1]);
    }
  }

  // ---------------------------------------------------------------- Stale pins

  /** Unless the upstream is recorded as stale, the dataplane marks it alive exactly when it is healthy,
      and no flow is pinned to it while it is not. */
  ghost predicate PinsKept(d: Dp, stale: set<string>, u: Upstream) {
    var n := InterfaceName(u.conf.name);
    u.conf.name !in stale ==>
      && (n in d.alive <==> u.track.state == Health.Up)
      && (n in d.tables && u.track.state != Health.Up ==> forall a: Addr :: PinRule(a, d.tables[n]) !in d.k.rules)
  }

  ghost predicate AllPinsKept(d: Dp, stale: set<string>, ups: seq<Upstream>) {
    forall u :: u in ups ==> PinsKept(d, stale, u)
  }

  /** A change of the upstreams, complete or not, leaves the marks of kept upstreams as they are and pins
      nothing. */
  lemma PinsThrough(c: Control, c1: Control, d: Dp, dropped: set<string>, keep: set<string>, n: string)
    requires Grounded(c.dp) && Dropping(c, c1, dropped) && Changed(c1.dp, d, keep) && n in keep
    ensures n in d.alive <==> n in c.dp.alive
    ensures n in d.tables && (n in c.dp.tables ==> forall a: Addr :: PinRule(a, c.dp.tables[n]) !in c.dp.k.rules) ==>
              forall a: Addr :: PinRule(a, d.tables[n]) !in d.k.rules
  {
    hide GoodRules, UniqueRoutes;
    if n in d.tables {
      if n !in c.dp.tables {
        assert NoPeerRuleAt(d.k.rules, d.tables[n]);
      }
      assert forall a: Addr :: IsPeerRule(PinRule(a, d.tables[n]));
    }
  }

  /** An upstream that is carried over through a change of the upstreams that may have failed. */
  lemma CarriedKeepsPins(c: Control, c1: Control, d: Dp, dropped: set<string>, keep: set<string>, excused: set<string>,
                         excused': set<string>, o: Upstream, u: Upstream)
    requires Grounded(c.dp) && Dropping(c, c1, dropped) && Changed(c1.dp, d, keep)
    requires u.conf.name == o.conf.name && InterfaceName(o.conf.name) in keep && u.track.state == o.track.state
    requires PinsKept(c.dp, excused, o) && (o.conf.name in excused ==> o.conf.name in excused')
    ensures PinsKept(d, excused', u)
  {
    hide Grounded, Dropping, Changed;
    PinsThrough(c, c1, d, dropped, keep, InterfaceName(o.conf.name));
    SameKept(c, c1, d, dropped, keep, InterfaceName(o.conf.name));
  }

  lemma SameKept(c: Control, c1: Control, d: Dp, dropped: set<string>, keep: set<string>, n: string)
    requires Dropping(c, c1, dropped) && Changed(c1.dp, d, keep) && n in keep
    ensures n in c.dp.tables ==> n in d.tables
  {
    hide GoodUps;
  }

  /** When an upstream that was replaced is as it should be although its health was not pushed: if and only
      if its predecessor was not up. */
  lemma ReplacedPins(c: Control, c1: Control, d: Dp, dropped: set<string>, keep: set<string>, o: Upstream, u: Upstream)
    requires Grounded(c.dp) && Dropping(c, c1, dropped) && Changed(c1.dp, d, keep)
    requires u.conf.name == o.conf.name && InterfaceName(o.conf.name) in keep && u.track.state == Health.Unknown
    requires PinsKept(c.dp, c.stale, o) && o.conf.name !in c.stale
    ensures PinsKept(d, c1.stale, u) <==> o.track.state != Health.Up
  {
    hide Grounded, Dropping, Changed;
    PinsThrough(c, c1, d, dropped, keep, InterfaceName(o.conf.name));
    StaleShrinks(c, c1, dropped);
  }

  lemma StaleShrinks(c: Control, c1: Control, dropped: set<string>)
    requires Dropping(c, c1, dropped)
    ensures c.stale - dropped <= c1.stale && c1.stale <= c.stale
  {
  }

  /** An upstream that is fresh, and whose predecessor, if any, was neither up nor excused. */
  lemma FreshKeepsPins(c: Control, c1: Control, d: Dp, dropped: set<string>, keep: set<string>, excused: set<string>,
                       excused': set<string>, olds: seq<Upstream>, u: Upstream)
    requires Grounded(c.dp) && Dropping(c, c1, dropped) && Changed(c1.dp, d, keep)
    requires InterfaceName(u.conf.name) in keep && u.track.state == Health.Unknown
    requires AllPinsKept(c.dp, excused, olds) && !LeftMarked(olds, excused, c.dp.tables, u.conf.name)
    ensures PinsKept(d, excused', u)
  {
    var n := InterfaceName(u.conf.name);
    if u.conf.name in UpNames(olds) {
      var o :| o in olds && o.conf.name == u.conf.name;
      assert PinsKept(c.dp, excused, o);
    }
    hide Dropping, Changed, GoodDp, UniqueRoutes;
    PinsThrough(c, c1, d, dropped, keep, n);
  }

  /** An upstream put into service under this name may find marks and pins of an earlier one: that was
      up, or it was excused itself, or it has left its table behind. */
  ghost predicate LeftMarked(olds: seq<Upstream>, excused: set<string>, tables: Tables, name: string) {
    if name in UpNames(olds) then
      exists o :: o in olds && o.conf.name == name && (o.track.state == Health.Up || name in excused)
    else InterfaceName(name) in tables
  }

  /** The state of the pins does not depend on peers, keys or devices. */
  lemma SamePins(d: Dp, d': Dp, stale: set<string>, ups: seq<Upstream>)
    requires AllPinsKept(d, stale, ups)
    requires d'.tables == d.tables && d'.alive == d.alive && d'.k.rules == d.k.rules
    ensures AllPinsKept(d', stale, ups)
  {
  }

  lemma RouteKeepsAllPins(d: Dp, d': Dp, a: Addr, table: nat, ok: bool, stale: set<string>, ups: seq<Upstream>)
    requires GoodDp(d) && RouteEffect(d, d', a, table, ok) && AllPinsKept(d, stale, ups)
    ensures AllPinsKept(d', stale, ups)
  {
    hide RouteEffect, PinsKept;
    forall u | u in ups ensures PinsKept(d', stale, u) {
      RouteKeepsPins(d, d', a, table, ok, stale, u);
    }
  }

  lemma UnrouteKeepsAllPins(d: Dp, d': Dp, a: Addr, ok: bool, stale: set<string>, ups: seq<Upstream>)
    requires UnrouteEffect(d, d', a, ok) && AllPinsKept(d, stale, ups)
    ensures AllPinsKept(d', stale, ups)
  {
    hide UnrouteEffect, PinsKept;
    forall u | u in ups ensures PinsKept(d', stale, u) {
      UnrouteKeepsPins(d, d', a, ok, stale, u);
    }
  }

  lemma RouteKeepsPins(d: Dp, d': Dp, a: Addr, table: nat, ok: bool, stale: set<string>, u: Upstream)
    requires GoodDp(d) && RouteEffect(d, d', a, table, ok) && PinsKept(d, stale, u)
    ensures PinsKept(d', stale, u)
  {
    hide GoodRules;
    var n := InterfaceName(u.conf.name);
    if u.conf.name !in stale && n in d.tables && u.track.state != Health.Up {
      forall b: Addr ensures PinRule(b, d.tables[n]) !in d'.k.rules {
        if b != a {
          assert !IsPeerRuleOf(PinRule(b, d.tables[n]), a);
        }
      }
    }
  }

  lemma UnrouteKeepsPins(d: Dp, d': Dp, a: Addr, ok: bool, stale: set<string>, u: Upstream)
    requires UnrouteEffect(d, d', a, ok) && PinsKept(d, stale, u)
    ensures PinsKept(d', stale, u)
  {
    hide GoodRules, GoodTables;
  }

  /** After an attempt to push an upstream's health, and its record in `stale`. */
  lemma AliveSetsPins(d: Dp, d': Dp, u: Upstream, ok: bool, stale: set<string>)
    requires AliveEffect(d, d', InterfaceName(u.conf.name), u.track.state == Health.Up, ok)
    requires ok ==> InterfaceName(u.conf.name) in d.tables
    ensures PinsKept(d', if ok then stale - {u.conf.name} else stale + {u.conf.name}, u)
  {
    hide GoodRules, GoodTables;
  }

  lemma AliveKeepsPins(d: Dp, d': Dp, name: string, up: bool, ok: bool, stale: set<string>, stale': set<string>,
                       u: Upstream)
    requires AliveEffect(d, d', InterfaceName(name), up, ok) && PinsKept(d, stale, u) && u.conf.name != name
    requires u.conf.name in stale' <==> u.conf.name in stale
    ensures PinsKept(d', stale', u)
  {
    hide GoodRules, GoodTables;
    InterfaceNames(name, u.conf.name);
  }

  // ---------------------------------------------------------------- Devices

  /** The open devices are exactly those in service, under their interface names. Every device ever
      opened is open, or has been closed exactly once. */
  ghost predicate Conserved(devices: map<DeviceId, string>, closed: seq<DeviceId>, next: DeviceId, live: Live) {
    && (forall n :: n in live ==> live[n] in devices && devices[live[n]] == InterfaceName(n))
    && (forall id :: id in devices ==> exists n :: n in live && live[n] == id)
    && (forall id: DeviceId :: id in devices || id in closed <==> id < next)
    && (forall id :: id in devices ==> id !in closed)
    && (forall i, j :: 0 <= i < j < |closed| ==> closed[i] != closed[j])
  }

  lemma DevicesDistinct(devices: map<DeviceId, string>, closed: seq<DeviceId>, next: DeviceId, live: Live)
    requires Conserved(devices, closed, next, live)
    ensures NamesDistinct(devices)
  {
    forall i, j | i in devices && j in devices && devices[i] == devices[j] ensures i == j {
      var m :| m in live && live[m] == i;
      var n :| n in live && live[n] == j;
      InterfaceNames(m, n);
    }
  }

  lemma OpenConserves(devices: map<DeviceId, string>, closed: seq<DeviceId>, next: DeviceId, live: Live, name: string)
    requires Conserved(devices, closed, next, live) && name !in live
    ensures Conserved(devices[next := InterfaceName(name)], closed, next + 1, live[name := next])
    ensures NamesDistinct(devices[next := InterfaceName(name)])
  {
    var devices', live' := devices[next := InterfaceName(name)], live[name := next];
    forall id | id in devices' ensures exists n :: n in live' && live'[n] == id {
      if id == next {
        assert name in live';
      } else {
        var n :| n in live && live[n] == id;
        assert live'[n] == id;
      }
    }
    DevicesDistinct(devices', closed, next + 1, live');
  }

  lemma CloseConserves(devices: map<DeviceId, string>, closed: seq<DeviceId>, next: DeviceId, live: Live, name: string)
    requires Conserved(devices, closed, next, live) && name in live
    ensures Conserved(devices - {live[name]}, closed + [live[name]], next, live - {name})
    ensures NamesDistinct(devices - {live[name]})
  {
    var id0 := live[name];
    var devices', live' := devices - {id0}, live - {name};
    forall n | n in live' ensures live'[n] in devices' && devices'[live'[n]] == InterfaceName(n) {
      InterfaceNames(n, name);
    }
    forall id | id in devices' ensures exists n :: n in live' && live'[n] == id {
      var n :| n in live && live[n] == id;
      assert n in live';
    }
    DevicesDistinct(devices', closed + [id0], next, live');
  }

  // ---------------------------------------------------------------- Reloading

  /** Assignment, unfinished cleanup, authorisation and every rule of the peer are as they were. */
  ghost predicate Untouched(c: Control, c': Control, a: Addr) {
    && (a in c'.assignments <==> a in c.assignments)
    && (a in c.assignments ==> c'.assignments[a] == c.assignments[a])
    && (a in c'.pending <==> a in c.pending) && (a in c'.dp.k.peers <==> a in c.dp.k.peers)
    && (forall r :: IsPeerRuleOf(r, a) ==> (r in c'.dp.k.rules <==> r in c.dp.k.rules))
  }

  /** What taking the upstreams `dropped` out of service may have done: some of their peers were
      unrouted, or their cleanup is unfinished; whoever is still authorised and not pending has the plain
      rules they had; nothing at all has happened to peers of other upstreams. No rule has been added, and
      only dropped upstreams are no longer recorded as stale. */
  ghost predicate Dropping(c: Control, c': Control, dropped: set<string>) {
    && c' == c.(dp := c'.dp, assignments := c'.assignments, pending := c'.pending, torn := c'.torn, stale := c'.stale)
    && c'.dp == c.dp.(k := c.dp.k.(rules := c'.dp.k.rules, peers := c'.dp.k.peers, routes := c'.dp.k.routes,
                                   devices := c'.dp.k.devices), allowed := c'.dp.allowed)
    && c'.dp.k.peers <= c.dp.k.peers && c'.torn <= c.torn
    && (forall r :: r in c'.dp.k.rules ==> r in c.dp.k.rules) && c'.dp.k.routes <= c.dp.k.routes
    && c.stale - dropped <= c'.stale && c'.stale <= c.stale
    && (forall a, u :: a in c'.dp.k.peers && a !in c'.pending ==>
          (PlainRule(a, u) in c'.dp.k.rules <==> PlainRule(a, u) in c.dp.k.rules))
    && (forall a :: a in c'.assignments ==> a in c.assignments && c'.assignments[a] == c.assignments[a])
    && (forall a :: a in c.assignments && a !in c'.assignments ==> a !in c'.dp.k.peers)
    && (forall a :: a in c.pending ==> a in c'.pending || a !in c'.dp.k.peers)
    && (forall a :: (a in c.assignments ==> c.assignments[a] !in dropped) ==> Untouched(c, c', a))
  }

  lemma DroppingStart(c: Control, dropped: set<string>)
    ensures Dropping(c, c, dropped)
  {
  }

  lemma DroppingUnroutes(c: Control, c1: Control, d: Dp, a: Addr, live: Live, ok: bool, dropped: set<string>)
    requires Dropping(c, c1, dropped) && Sound(c1, live) && UnrouteEffect(c1.dp, d, a, ok)
    requires a in c1.assignments && c1.assignments[a] in dropped
    ensures Dropping(c, AfterUnrouteCall(c1, d, a, ok), dropped)
  {
    hide GoodRules, GoodTables, UniqueRoutes, Synced, UpToDate, Booked;
    var c2 := AfterUnrouteCall(c1, d, a, ok);
    forall b | b in c.assignments ==> c.assignments[b] !in dropped ensures Untouched(c, c2, b) {
      assert Untouched(c, c1, b);
      assert forall r :: IsPeerRuleOf(r, b) ==> !IsPeerRuleOf(r, a);
    }
    forall b, u | b in c2.dp.k.peers && b !in c2.pending
      ensures PlainRule(b, u) in c2.dp.k.rules <==> PlainRule(b, u) in c.dp.k.rules
    {
      assert b != a;
      assert !IsPeerRuleOf(PlainRule(b, u), a);
    }
  }

  lemma DevicesOnlyKeep(c: Control, c1: Control, c2: Control, live: Live, dropped: set<string>)
    requires Dropping(c, c1, dropped) && Sound(c1, live) && DevicesOnly(c1, c2)
    ensures Dropping(c, c2, dropped) && Sound(c2, live)
  {
    hide Sound, Dropping;
    DevicesKeepSound(c1, c2.dp.k, live);
    DroppingDevices(c, c1, c2.dp.k, c1.stale, dropped);
  }

  lemma DroppingDevices(c: Control, c1: Control, k: State, stale: set<string>, dropped: set<string>)
    requires Dropping(c, c1, dropped) && k == c1.dp.k.(routes := k.routes, devices := k.devices)
    requires k.routes <= c1.dp.k.routes
    requires c1.stale - dropped <= stale && stale <= c1.stale
    ensures Dropping(c, c1.(dp := c1.dp.(k := k), stale := stale), dropped)
  {
    var c2 := c1.(dp := c1.dp.(k := k), stale := stale);
    forall a | a in c.assignments ==> c.assignments[a] !in dropped ensures Untouched(c, c2, a) {
      assert Untouched(c, c1, a);
    }
  }

  lemma DroppingOn(c: Control, c1: Control, c2: Control, dropped: set<string>, more: set<string>)
    requires Dropping(c, c1, dropped) && Dropping(c1, c2, more)
    ensures Dropping(c, c2, dropped + more)
  {
    forall a | a in c.assignments ==> c.assignments[a] !in dropped + more ensures Untouched(c, c2, a) {
      assert Untouched(c, c1, a) && Untouched(c1, c2, a);
    }
  }

  /** A provider file: what it holds, whether it is accepted, and the tunnel address it then gives. */
  datatype File = File(content: string, valid: bool, addr: Addr)

  type Files = map<string, File>

  /** The file as it is now, "" if unreadable. */
  function Content(files: Files, path: string): string { if path in files then files[path].content else "" }

  /** The upstream as its provider file describes it, which was accepted. */
  predicate Loaded(u: Upstream, files: Files) {
    && u.conf.conf in files && files[u.conf.conf].valid
    && u.source == files[u.conf.conf].content && u.addr == files[u.conf.conf].addr
  }

  function ConfNames(confs: seq<Policy.Upstream>): set<string> { set u | u in confs :: u.name }

  /** An upstream whose provider file has not changed stays as it is. */
  predicate Unchanged(o: Upstream, conf: Policy.Upstream, files: Files) {
    o.conf.name == conf.name && o.source == Content(files, conf.conf)
  }

  function Kept(o: Upstream, conf: Policy.Upstream, down: int, up: int): Upstream {
    o.(conf := conf, track := o.track.SetThresholds(down, up))
  }

  /** The provider file of the entry was accepted. */
  ghost predicate Accepted(conf: Policy.Upstream, files: Files) { conf.conf in files && files[conf.conf].valid }

  /** The names of the entries whose provider files were accepted. */
  ghost function Openable(confs: seq<Policy.Upstream>, files: Files): set<string> {
    set conf | conf in confs && Accepted(conf, files) :: conf.name
  }

  /** So many upstreams at most are missing although their files were accepted. */
  ghost predicate Missing(confs: seq<Policy.Upstream>, files: Files, ups: seq<Upstream>, most: int) {
    |Openable(confs, files) - UpNames(ups)| <= most
  }

  lemma MissingNone(confs: seq<Policy.Upstream>, files: Files)
    ensures Missing(confs[..0], files, [], 0)
  {
    assert Openable(confs[..0], files) - UpNames([]) == {};
  }

  lemma MissingNext(confs: seq<Policy.Upstream>, i: nat, files: Files, ups: seq<Upstream>, ups': seq<Upstream>,
                    most: int, most': int)
    requires i < |confs| && Missing(confs[..i], files, ups, most) && most <= most'
    requires UpNames(ups) <= UpNames(ups')
    requires confs[i].name in UpNames(ups') || !Accepted(confs[i], files) || most < most'
    ensures Missing(confs[..i + 1], files, ups', most')
  {
    hide Accepted, UpNames;
    var before, after := Openable(confs[..i], files) - UpNames(ups), Openable(confs[..i + 1], files) - UpNames(ups');
    assert confs[..i + 1] == confs[..i] + [confs[i]];
    var more := if confs[i].name in UpNames(ups') || !Accepted(confs[i], files) then {} else {confs[i].name};
    assert after <= before + more;
    FewerNames(after, before + more);
  }

  lemma MissingAtMost(confs: seq<Policy.Upstream>, files: Files, ups: seq<Upstream>, most: int, most': int)
    requires Missing(confs, files, ups, most) && most <= most'
    ensures Missing(confs, files, ups, most')
  {
    hide Accepted;
  }

  lemma {:induction false} FewerNames(a: set<string>, b: set<string>)
    requires a <= b
    ensures |a| <= |b|
    decreases |a|
  {
    if x :| x in a {
      FewerNames(a - {x}, b - {x});
    }
  }

  /** The upstream goes on, on its device and with what is known of its health, under the thresholds of the new
      configuration. */
  ghost predicate GoesOn(o: Upstream, conf: Policy.Upstream, down: int, up: int, u: Upstream) {
    && o.conf.name == conf.name && u.conf == conf && u.source == o.source && u.addr == o.addr && u.id == o.id
    && u.track == Health.Track(down, up, o.track.state, o.track.fails, o.track.oks, o.track.latency)
  }

  /** It has been opened from an accepted file, on a device from `first` on, and nothing is known of its health. */
  ghost predicate Anew(u: Upstream, down: int, up: int, files: Files, first: DeviceId) {
    && Accepted(u.conf, files) && u.source == files[u.conf.conf].content && u.addr == files[u.conf.conf].addr
    && u.id >= first && u.track == Health.Track(down, up, Health.Unknown, 0, 0, 0)
  }

  /** What a reload makes of the upstreams: one whose file reads as before goes on, and every other one in
      service is new. */
  ghost predicate Continued(olds: seq<Upstream>, confs: seq<Policy.Upstream>, down: int, up: int, files: Files,
                            ups: seq<Upstream>, first: DeviceId) {
    && (forall o, conf :: o in olds && conf in confs && o.conf.name == conf.name ==>
          o.source == (if conf.conf in files then files[conf.conf].content else "") ==>
          exists u :: u in ups && GoesOn(o, conf, down, up, u))
    && (forall u :: u in ups ==>
          && u.conf in confs
          && (Anew(u, down, up, files, first) || exists o :: o in olds && GoesOn(o, u.conf, down, up, u)))
  }

  lemma RenewedContinues(olds: seq<Upstream>, confs: seq<Policy.Upstream>, down: int, up: int, files: Files,
                         ups: seq<Upstream>, first: DeviceId)
    requires Renewed(olds, confs, down, up, files, ups, |confs|, first)
    ensures Continued(olds, confs, down, up, files, ups, first)
  {
    assert confs[..|confs|] == confs;
    forall o, conf | o in olds && conf in confs && o.conf.name == conf.name
      ensures o.source == (if conf.conf in files then files[conf.conf].content else "") ==>
                exists u :: u in ups && GoesOn(o, conf, down, up, u)
    {
      var j :| 0 <= j < |confs| && confs[j] == conf;
      assert Unchanged(o, confs[j], files) ==> Kept(o, confs[j], down, up) in ups;
      assert GoesOn(o, conf, down, up, Kept(o, confs[j], down, up));
    }
    forall u | u in ups && exists o :: o in olds && Unchanged(o, u.conf, files) && u == Kept(o, u.conf, down, up)
      ensures exists o :: o in olds && GoesOn(o, u.conf, down, up, u)
    {
      var o :| o in olds && Unchanged(o, u.conf, files) && u == Kept(o, u.conf, down, up);
      assert GoesOn(o, u.conf, down, up, u);
    }
  }

  /**
   * What a reload puts into service for the first `i` entries of the new configuration: every upstream
   * whose file is the same, on its device and with its health, and else only fresh ones, on devices
   * from `first` on.
   */
  ghost predicate Renewed(olds: seq<Upstream>, confs: seq<Policy.Upstream>, down: int, up: int, files: Files,
                          ups: seq<Upstream>, i: nat, first: DeviceId) {
    && i <= |confs|
    && (forall u :: u in ups ==> u.conf in confs[..i] && u.source == Content(files, u.conf.conf))
    && (forall u :: u in ups ==>
          || (exists o :: o in olds && Unchanged(o, u.conf, files) && u == Kept(o, u.conf, down, up))
          || (Loaded(u, files) && u.id >= first && u.track == Health.New(down, up)
              && forall o :: o in olds ==> !Unchanged(o, u.conf, files)))
    && (forall j, o :: 0 <= j < i && o in olds && Unchanged(o, confs[j], files) ==> Kept(o, confs[j], down, up) in ups)
  }

  /** Where a reload stands after `i` entries: what is still in service is either carried over or has not
      been looked at. */
  ghost predicate InTransit(olds: seq<Upstream>, confs: seq<Policy.Upstream>, i: nat,
                            next: seq<Upstream>, current: map<string, Upstream>, live: Live) {
    && i <= |confs|
    && (forall n :: n in current ==> current[n] in olds && current[n].conf.name == n)
    && (forall o :: o in olds && o.conf.name !in ConfNames(confs[..i]) ==> o.conf.name in current)
    && (forall n :: n in current ==> n !in ConfNames(confs[..i]))
    && DistinctUps(next) && UpNames(next) <= ConfNames(confs[..i])
    && live.Keys == current.Keys + UpNames(next)
    && (forall n :: n in current ==> live[n] == current[n].id)
    && (forall u :: u in next ==> live[u.conf.name] == u.id)
  }

  ghost predicate DistinctConfs(confs: seq<Policy.Upstream>) {
    && (forall u :: u in confs ==> u.name != "")
    && (forall i, j :: 0 <= i < j < |confs| ==> confs[i].name != confs[j].name)
  }

  lemma ConfNamesSnoc(confs: seq<Policy.Upstream>, i: nat)
    requires DistinctConfs(confs) && i < |confs|
    ensures ConfNames(confs[..i + 1]) == ConfNames(confs[..i]) + {confs[i].name}
    ensures confs[i].name !in ConfNames(confs[..i])
  {
    assert confs[..i + 1] == confs[..i] + [confs[i]];
  }

  lemma DistinctSnoc(ups: seq<Upstream>, u: Upstream)
    requires DistinctUps(ups) && u.conf.name !in UpNames(ups) && u.conf.name != ""
    ensures DistinctUps(ups + [u]) && UpNames(ups + [u]) == UpNames(ups) + {u.conf.name}
  {
    var all := ups + [u];
    forall i, j | 0 <= i < j < |all| ensures all[i].conf.name != all[j].conf.name {
      assert all[i] in ups;
    }
    assert forall x :: x in all <==> x in ups || x == u;
  }

  lemma TransitStart(olds: seq<Upstream>, confs: seq<Policy.Upstream>, current: map<string, Upstream>)
    requires DistinctUps(olds)
    requires current.Keys == UpNames(olds) && forall n :: n in current ==>
               current[n] in olds && current[n].conf.name == n
    ensures InTransit(olds, confs, 0, [], current, LiveOf(olds))
  {
    NameOf(olds);
    LiveNames(olds);
    NoNames(confs);
    hide ConfNames, UpNames, LiveOf;
  }

  lemma NoNames(confs: seq<Policy.Upstream>)
    ensures ConfNames(confs[..0]) == {} && UpNames([]) == {}
  {
  }

  lemma NameOf(ups: seq<Upstream>)
    ensures forall u :: u in ups ==> u.conf.name in UpNames(ups)
  {
  }

  /** One more entry is in service, carried over or opened. */
  lemma TransitAdd(olds: seq<Upstream>, confs: seq<Policy.Upstream>, i: nat, next: seq<Upstream>,
                   current: map<string, Upstream>, live: Live, u: Upstream)
    requires InTransit(olds, confs, i, next, current, live) && DistinctConfs(confs) && i < |confs| && u.conf == confs[i]
    ensures InTransit(olds, confs, i + 1, next + [u], current - {u.conf.name}, live[u.conf.name := u.id])
    ensures UpNames(next + [u]) == UpNames(next) + {u.conf.name}
  {
    var n, next', current', live' := u.conf.name, next + [u], current - {u.conf.name}, live[u.conf.name := u.id];
    assert confs[i] in confs;
    ConfNamesSnoc(confs, i);
    DistinctSnoc(next, u);
    TransitOlds(olds, confs, i, next, current, live);
    NameOf(next);
    hide DistinctUps, ConfNames, UpNames;
    assert forall x :: x in next' <==> x in next || x == u;
    assert live'.Keys == current'.Keys + UpNames(next');
  }

  /** One more entry is not in service. */
  lemma TransitSkip(olds: seq<Upstream>, confs: seq<Policy.Upstream>, i: nat, next: seq<Upstream>,
                    current: map<string, Upstream>, live: Live)
    requires InTransit(olds, confs, i, next, current, live) && DistinctConfs(confs) && i < |confs|
    ensures InTransit(olds, confs, i + 1, next, current - {confs[i].name}, live - {confs[i].name})
  {
    ConfNamesSnoc(confs, i);
    TransitOlds(olds, confs, i, next, current, live);
    NameOf(next);
    hide DistinctUps, ConfNames, UpNames;
  }

  lemma TransitOlds(olds: seq<Upstream>, confs: seq<Policy.Upstream>, i: nat, next: seq<Upstream>,
                    current: map<string, Upstream>, live: Live)
    requires InTransit(olds, confs, i, next, current, live) && DistinctConfs(confs) && i < |confs|
    ensures forall o :: o in olds && o.conf.name !in ConfNames(confs[..i + 1]) ==>
              o.conf.name in current - {confs[i].name}
  {
    ConfNamesSnoc(confs, i);
    hide DistinctUps, ConfNames, UpNames;
  }

  /** What is dropped after the last entry: everything that was not looked at. */
  ghost predicate Leaving(next: seq<Upstream>, current: map<string, Upstream>, live: Live) {
    && live.Keys == current.Keys + UpNames(next) && current.Keys !! UpNames(next)
    && (forall n :: n in current ==> live[n] == current[n].id && current[n].conf.name == n)
    && (forall u :: u in next ==> live[u.conf.name] == u.id)
  }

  lemma TransitDone(olds: seq<Upstream>, confs: seq<Policy.Upstream>, next: seq<Upstream>,
                    current: map<string, Upstream>, live: Live)
    requires InTransit(olds, confs, |confs|, next, current, live)
    ensures Leaving(next, current, live) && DistinctUps(next)
  {
    assert confs[..|confs|] == confs;
  }

  lemma LeavingNext(next: seq<Upstream>, current: map<string, Upstream>, live: Live, n: string)
    requires Leaving(next, current, live) && n in current
    ensures Leaving(next, current - {n}, live - {n})
  {
    NameOf(next);
    hide UpNames;
  }

  lemma LeavingEnd(next: seq<Upstream>, live: Live)
    requires Leaving(next, map[], live) && DistinctUps(next)
    ensures live == LiveOf(next)
  {
    TransitEnd(next, live);
  }

  /** Which entry is carried over: the one whose name is still to be looked at, if its file is the same. */
  lemma WhoIsKept(olds: seq<Upstream>, confs: seq<Policy.Upstream>, i: nat, next: seq<Upstream>,
                  current: map<string, Upstream>, live: Live, files: Files)
    requires InTransit(olds, confs, i, next, current, live) && DistinctConfs(confs) && i < |confs| && DistinctUps(olds)
    ensures var n := confs[i].name;
            && ((exists o :: o in olds && Unchanged(o, confs[i], files)) <==>
                n in current && Unchanged(current[n], confs[i], files))
            && (n in current ==>
                 current[n] in olds && n in live && live[n] == current[n].id && current[n].conf.name == n)
            && (n !in current ==> n !in live)
    ensures confs[i].name !in UpNames(next)
  {
    ConfNamesSnoc(confs, i);
    var n := confs[i].name;
    if o :| o in olds && Unchanged(o, confs[i], files) {
      SameName(olds, o, current[n]);
    }
  }

  lemma TransitEnd(next: seq<Upstream>, live: Live)
    requires DistinctUps(next) && live.Keys == UpNames(next) && forall u :: u in next ==> live[u.conf.name] == u.id
    ensures live == LiveOf(next)
  {
    LiveNames(next);
    forall n | n in live ensures live[n] == LiveOf(next)[n] {
      var u :| u in next && u.conf.name == n;
    }
  }

  lemma RenewedSkip(olds: seq<Upstream>, confs: seq<Policy.Upstream>, down: int, up: int, files: Files,
                    ups: seq<Upstream>, i: nat, first: DeviceId)
    requires Renewed(olds, confs, down, up, files, ups, i, first) && i < |confs|
    requires forall o :: o in olds ==> !Unchanged(o, confs[i], files)
    ensures Renewed(olds, confs, down, up, files, ups, i + 1, first)
  {
    assert confs[..i + 1] == confs[..i] + [confs[i]];
  }

  lemma RenewedFresh(olds: seq<Upstream>, confs: seq<Policy.Upstream>, down: int, up: int, files: Files,
                     ups: seq<Upstream>, i: nat, first: DeviceId, u: Upstream)
    requires Renewed(olds, confs, down, up, files, ups, i, first) && i < |confs|
    requires forall o :: o in olds ==> !Unchanged(o, confs[i], files)
    requires u.conf == confs[i] && Loaded(u, files) && u.id >= first && u.track == Health.New(down, up)
    ensures Renewed(olds, confs, down, up, files, ups + [u], i + 1, first)
  {
    RenewedSkip(olds, confs, down, up, files, ups, i, first);
    hide Unchanged;
    assert forall x :: x in ups + [u] <==> x in ups || x == u;
    assert u.conf in confs[..i + 1];
  }

  lemma RenewedKept(olds: seq<Upstream>, confs: seq<Policy.Upstream>, down: int, up: int, files: Files,
                    ups: seq<Upstream>, i: nat, first: DeviceId, o: Upstream)
    requires Renewed(olds, confs, down, up, files, ups, i, first) && DistinctUps(olds) && i < |confs|
    requires o in olds && Unchanged(o, confs[i], files)
    ensures Renewed(olds, confs, down, up, files, ups + [Kept(o, confs[i], down, up)], i + 1, first)
  {
    var u := Kept(o, confs[i], down, up);
    var ups' := ups + [u];
    assert confs[..i + 1] == confs[..i] + [confs[i]];
    assert forall x :: x in ups' <==> x in ups || x == u;
    forall j, p | 0 <= j < i + 1 && p in olds && Unchanged(p, confs[j], files)
      ensures Kept(p, confs[j], down, up) in ups'
    {
      if j == i {
        SameName(olds, o, p);
      }
    }
  }

  lemma SameName(ups: seq<Upstream>, a: Upstream, b: Upstream)
    requires DistinctUps(ups) && a in ups && b in ups && a.conf.name == b.conf.name
    ensures a == b
  {
    var i :| 0 <= i < |ups| && ups[i] == a;
    var j :| 0 <= j < |ups| && ups[j] == b;
  }

  /** Whether a change of the upstreams from `c` leaves the peer a plain rule: one of those it had leads
      to an upstream that is kept. */
  ghost predicate StaysCovered(c: Control, keep: set<string>, a: Addr) {
    exists n :: n in keep && n in c.dp.tables && PlainRule(a, c.dp.tables[n]) in c.dp.k.rules
  }

  /** The upstreams of a completed reload are wired: each has a table that leads out through it, and
      flows leaving through it are stamped with the number of that table. */
  ghost predicate WiredUp(d: Dp, names: set<string>) {
    d.tables.Keys == names && d.k.marks == d.tables && forall n :: n in names ==> Leaves(d.k.routes, d.tables[n], n)
  }

  /** A change of the upstreams, complete or not, never takes the plain rules of kept upstreams. */
  lemma CoverInChange(c: Control, c1: Control, d: Dp, keep: set<string>, dropped: set<string>, a: Addr)
    requires GoodDp(c.dp) && Dropping(c, c1, dropped) && Changed(c1.dp, d, keep)
    requires a in d.k.peers && a !in c1.pending && StaysCovered(c, keep, a)
    ensures HasPlain(d.k.rules, d.tables, a)
  {
    hide GoodRules, UniqueRoutes;
    var n :| n in keep && n in c.dp.tables && PlainRule(a, c.dp.tables[n]) in c.dp.k.rules;
    var r := PlainRule(a, c.dp.tables[n]);
    assert IsPeerRule(r) && r in c1.dp.k.rules;
    assert n in d.tables && d.tables[n] == c.dp.tables[n];
  }

  /** After a completed change, exactly those plain rules are there that were there at kept upstreams. */
  lemma KeptPlain(d: Dp, d': Dp, keep: set<string>, n: string, a: Addr)
    requires GoodTables(d.tables) && Complete(d, d', keep) && n in keep
    ensures n in d'.tables
    ensures PlainRule(a, d'.tables[n]) in d'.k.rules <==> n in d.tables && PlainRule(a, d.tables[n]) in d.k.rules
  {
    hide GoodRules, UniqueRoutes, Leaves;
    var r := PlainRule(a, d'.tables[n]);
    assert IsPeerRule(r);
    if n in d.tables {
      ChangeKeepsRules(d, d', keep, n, r);
    } else {
      assert NoPeerRuleAt(d'.k.rules, d'.tables[n]);
    }
  }

  /** Of the plain rules of the address, those of upstreams that are kept are just that of its own. */
  ghost predicate OnlyOwn(c: Control, keep: set<string>, a: Addr) {
    forall n :: n in keep ==>
                  (n in c.dp.tables && PlainRule(a, c.dp.tables[n]) in c.dp.k.rules <==>
                   a in c.assignments && n == InterfaceName(c.assignments[a]))
  }

  /** When the kernel routes an address as assigned after a completed change: if and only if before it, at
      the upstreams that are kept, it had the plain rule of its own and no other. */
  lemma ChangeSyncs(c: Control, d: Dp, keep: set<string>, a: Addr)
    requires GoodTables(c.dp.tables) && Complete(c.dp, d, keep)
    ensures InSync(AfterChange(c, d), a) <==> OnlyOwn(c, keep, a)
  {
    hide Complete, GoodTables;
    CompleteTables(c.dp, d, keep);
    forall n | n in keep
      ensures PlainRule(a, d.tables[n]) in d.k.rules <==>
                n in c.dp.tables && PlainRule(a, c.dp.tables[n]) in c.dp.k.rules
    {
      KeptPlain(c.dp, d, keep, n, a);
    }
  }

  lemma CompleteTables(d: Dp, d': Dp, keep: set<string>)
    requires Complete(d, d', keep)
    ensures d'.tables.Keys == keep
  {
    hide Changed;
  }

  /** Exactly who is still covered when a change of the upstreams is complete, among the authorised
      peers without unfinished cleanup. */
  lemma CoverAfterChange(c: Control, c1: Control, d: Dp, keep: set<string>, dropped: set<string>, a: Addr)
    requires GoodDp(c.dp) && Dropping(c, c1, dropped) && Complete(c1.dp, d, keep)
    requires a in d.k.peers && a !in c1.pending
    ensures HasPlain(d.k.rules, d.tables, a) <==> StaysCovered(c, keep, a)
  {
    hide GoodRules, UniqueRoutes, Leaves;
    forall n | n in d.tables && PlainRule(a, d.tables[n]) in d.k.rules ensures StaysCovered(c, keep, a) {
      KeptPlain(c1.dp, d, keep, n, a);
    }
    if StaysCovered(c, keep, a) {
      CoverInChange(c, c1, d, keep, dropped, a);
    }
  }

  /** Who is covered after a reload that got as far as the dataplane, and exactly who if the dataplane
      took the change. */
  lemma ReloadCover(c: Control, c1: Control, d: Dp, d': Dp, ups: seq<Upstream>, keep: set<string>, dropped: set<string>,
                    reached: bool)
    requires GoodDp(c.dp) && Dropping(c, c1, dropped) && Changed(c1.dp, d, keep) && HealthOnly(d, d', ups)
    requires reached ==> Complete(c1.dp, d, keep)
    ensures reached ==> WiredUp(d', keep)
    ensures forall a :: a in d'.k.peers && a !in c1.pending ==>
              && (StaysCovered(c, keep, a) ==> HasPlain(d'.k.rules, d'.tables, a))
              && (reached ==> HasPlain(d'.k.rules, d'.tables, a) ==> StaysCovered(c, keep, a))
  {
    hide GoodRules, UniqueRoutes, Leaves, Changed, Dropping, HasPlain, StaysCovered;
    forall a | a in d'.k.peers && a !in c1.pending
      ensures StaysCovered(c, keep, a) ==> HasPlain(d'.k.rules, d'.tables, a)
      ensures reached ==> HasPlain(d'.k.rules, d'.tables, a) ==> StaysCovered(c, keep, a)
    {
      HealthKeepsCover(d, d', ups, a);
      if reached {
        CoverAfterChange(c, c1, d, keep, dropped, a);
      } else if StaysCovered(c, keep, a) {
        CoverInChange(c, c1, d, keep, dropped, a);
      }
    }
  }

  // ---------------------------------------------------------------- Whose tunnels stay

  /** The names of the upstreams that a reload carries over, and of those it takes out of service. */
  function Retained(olds: seq<Upstream>, confs: seq<Policy.Upstream>, files: Files): set<string> {
    set o, conf | o in olds && conf in confs && Unchanged(o, conf, files) :: o.conf.name
  }

  function Leavers(olds: seq<Upstream>, confs: seq<Policy.Upstream>, files: Files): set<string> {
    UpNames(olds) - Retained(olds, confs, files)
  }

  /** The upstreams in service whose health was not pushed although it may have to be, when a reload did not
      get that far: those carried over that were so before, and fresh ones that may find marks or pins of
      an earlier one. */
  ghost function NotPushed(olds: seq<Upstream>, stale: set<string>, unpushed: set<string>, tables: Tables,
                           ups: seq<Upstream>, confs: seq<Policy.Upstream>, files: Files): set<string>
  {
    set n | n in UpNames(ups) &&
            (if n in Retained(olds, confs, files) then n in unpushed
             else LeftMarked(olds, stale + unpushed, tables, n))
  }

  /** Whatever came of the dataplane's part of a reload, no upstream in service holds stale pins or a wrong
      mark unless it is recorded as stale or not pushed. */
  lemma ReloadKeepsPins(c: Control, c1: Control, d: Dp, olds: seq<Upstream>, ups: seq<Upstream>,
                        confs: seq<Policy.Upstream>, down: int, up: int, files: Files, first: DeviceId,
                        unpushed: set<string>)
    requires Grounded(c.dp) && Dropping(c, c1, Leavers(olds, confs, files)) &&
             Changed(c1.dp, d, Interfaces(LiveOf(ups)))
    requires AllPinsKept(c.dp, c.stale + unpushed, olds) && DistinctUps(olds) && DistinctConfs(confs)
    requires Renewed(olds, confs, down, up, files, ups, |confs|, first)
    ensures AllPinsKept(d, c1.stale + NotPushed(olds, c.stale, unpushed, c.dp.tables, ups, confs, files), ups)
  {
    hide Grounded, Dropping, Changed, PinsKept, LeftMarked, LiveOf, Renewed, DistinctUps, DistinctConfs, Interfaces,
      Unchanged, Retained;
    var excused' := c1.stale + NotPushed(olds, c.stale, unpushed, c.dp.tables, ups, confs, files);
    forall u | u in ups ensures PinsKept(d, excused', u) {
      ReloadKeepsPinsOf(c, c1, d, olds, ups, confs, down, up, files, first, unpushed, u);
    }
  }

  lemma ReloadKeepsPinsOf(c: Control, c1: Control, d: Dp, olds: seq<Upstream>, ups: seq<Upstream>,
                          confs: seq<Policy.Upstream>, down: int, up: int, files: Files, first: DeviceId,
                          unpushed: set<string>, u: Upstream)
    requires Grounded(c.dp) && Dropping(c, c1, Leavers(olds, confs, files)) &&
             Changed(c1.dp, d, Interfaces(LiveOf(ups)))
    requires AllPinsKept(c.dp, c.stale + unpushed, olds) && DistinctUps(olds) && DistinctConfs(confs)
    requires Renewed(olds, confs, down, up, files, ups, |confs|, first) && u in ups
    ensures PinsKept(d, c1.stale + NotPushed(olds, c.stale, unpushed, c.dp.tables, ups, confs, files), u)
  {
    var excused, n := c.stale + unpushed, u.conf.name;
    var excused' := c1.stale + NotPushed(olds, c.stale, unpushed, c.dp.tables, ups, confs, files);
    WhoCameOver(olds, confs, down, up, files, ups, first, u);
    InService(ups, u);
    StaleShrinks(c, c1, Leavers(olds, confs, files));
    hide Grounded, Dropping, Changed, PinsKept, LeftMarked, LiveOf, Renewed, DistinctUps, DistinctConfs, Interfaces,
      Unchanged, Retained;
    if n in Retained(olds, confs, files) {
      var o :| o in olds && o.conf.name == n && o.track.state == u.track.state;
      CarriedKeepsPins(c, c1, d, Leavers(olds, confs, files), Interfaces(LiveOf(ups)), excused, excused', o, u);
    } else if LeftMarked(olds, excused, c.dp.tables, n) {
      assert n in excused';
      ExcusedKeepsPins(d, excused', u);
    } else {
      FreshKeepsPins(c, c1, d, Leavers(olds, confs, files), Interfaces(LiveOf(ups)), excused, excused', olds, u);
    }
  }

  lemma ExcusedKeepsPins(d: Dp, excused: set<string>, u: Upstream)
    requires u.conf.name in excused
    ensures PinsKept(d, excused, u)
  {
  }

  lemma InService(ups: seq<Upstream>, u: Upstream)
    requires u in ups
    ensures u.conf.name in UpNames(ups) && InterfaceName(u.conf.name) in Interfaces(LiveOf(ups))
  {
    LiveNames(ups);
    hide LiveOf;
    assert u.conf.name in LiveOf(ups);
  }

  /** Which upstreams of a reload came over with their health; all others start unknown. */
  lemma WhoCameOver(olds: seq<Upstream>, confs: seq<Policy.Upstream>, down: int, up: int, files: Files,
                    ups: seq<Upstream>, first: DeviceId, u: Upstream)
    requires DistinctUps(olds) && DistinctConfs(confs) &&
             Renewed(olds, confs, down, up, files, ups, |confs|, first) && u in ups
    ensures u.conf.name in Retained(olds, confs, files) ==>
              exists o :: o in olds && o.conf.name == u.conf.name && o.track.state == u.track.state
    ensures u.conf.name !in Retained(olds, confs, files) ==> u.track.state == Health.Unknown
  {
    hide DistinctUps;
    assert confs[..|confs|] == confs;
    if o, conf :| o in olds && conf in confs && Unchanged(o, conf, files) && o.conf.name == u.conf.name {
      var i :| 0 <= i < |confs| && confs[i] == conf;
      var j :| 0 <= j < |confs| && confs[j] == u.conf;
      assert i == j;
    }
  }

  /** The tunnel of the peer has not been dropped: it keeps its assignment, its access, its plain rules
      of the upstreams in service, and its pins to those of them that are up. */
  ghost predicate Undropped(c: Control, c': Control, ups: seq<Upstream>, a: Addr) {
    && a in c'.assignments && a in c.assignments && c'.assignments[a] == c.assignments[a]
    && (a in c'.pending <==> a in c.pending) && (a in c'.dp.k.peers <==> a in c.dp.k.peers)
    && forall u :: u in ups && InterfaceName(u.conf.name) in c.dp.tables ==>
         var n := InterfaceName(u.conf.name);
         && n in c'.dp.tables && c'.dp.tables[n] == c.dp.tables[n]
         && (PlainRule(a, c.dp.tables[n]) in c'.dp.k.rules <==> PlainRule(a, c.dp.tables[n]) in c.dp.k.rules)
         && (u.track.state == Health.Up ==>
               (PinRule(a, c.dp.tables[n]) in c'.dp.k.rules <==> PinRule(a, c.dp.tables[n]) in c.dp.k.rules))
  }

  /** Pushing health does nothing to rules of an upstream but to its pins, and to these only if it is not
      up. */
  lemma HealthKeepsRules(d: Dp, d': Dp, ups: seq<Upstream>, u: Upstream, r: Rule)
    requires GoodTables(d.tables) && HealthOnly(d, d', ups) && DistinctUps(ups) && u in ups
    requires InterfaceName(u.conf.name) in d.tables && r.table == d.tables[InterfaceName(u.conf.name)]
    requires r.priority != PIN_PRIORITY || u.track.state == Health.Up
    ensures r in d'.k.rules <==> r in d.k.rules
  {
    if r in d.k.rules && r !in d'.k.rules {
      var w :| w in ups && w.track.state != Health.Up && InterfaceName(w.conf.name) in d.tables
               && r.table == d.tables[InterfaceName(w.conf.name)] && r.priority == PIN_PRIORITY;
      InterfaceNames(w.conf.name, u.conf.name);
      SameName(ups, u, w);
    }
  }

  /** Whoever is assigned to an upstream that is carried over keeps their tunnel, whatever fails. */
  lemma ReloadSpares(c: Control, c1: Control, d: Dp, c': Control, ups: seq<Upstream>, dropped: set<string>, a: Addr)
    requires GoodDp(c.dp) && Dropping(c, c1, dropped) && GoodDp(c1.dp) && DistinctUps(ups)
    requires Changed(c1.dp, d, Interfaces(LiveOf(ups))) && HealthOnly(d, c'.dp, ups)
    requires c'.assignments == c1.assignments && c'.pending == c1.pending
    requires a in c.assignments && c.assignments[a] !in dropped
    ensures Undropped(c, c', ups, a)
  {
    hide GoodRules, Dropping, Changed, HealthOnly, LiveOf;
    assert Untouched(c, c1, a) && c1.dp.tables == c.dp.tables by {
      DroppingAt(c, c1, dropped, a);
    }
    ChangedParts(c1.dp, d, Interfaces(LiveOf(ups)));
    HealthParts(d, c'.dp, ups);
    LiveNames(ups);
    forall u | u in ups && InterfaceName(u.conf.name) in c.dp.tables
      ensures var n := InterfaceName(u.conf.name);
              && n in c'.dp.tables && c'.dp.tables[n] == c.dp.tables[n]
              && (PlainRule(a, c.dp.tables[n]) in c'.dp.k.rules <==> PlainRule(a, c.dp.tables[n]) in c.dp.k.rules)
              && (u.track.state == Health.Up ==>
                    (PinRule(a, c.dp.tables[n]) in c'.dp.k.rules <==> PinRule(a, c.dp.tables[n]) in c.dp.k.rules))
    {
      var n := InterfaceName(u.conf.name);
      var plain, pin := PlainRule(a, c.dp.tables[n]), PinRule(a, c.dp.tables[n]);
      assert u.conf.name in LiveOf(ups);
      assert IsPeerRuleOf(plain, a) && IsPeerRuleOf(pin, a);
      ChangeKeepsRules(c1.dp, d, Interfaces(LiveOf(ups)), n, plain);
      ChangeKeepsRules(c1.dp, d, Interfaces(LiveOf(ups)), n, pin);
      HealthKeepsRules(d, c'.dp, ups, u, plain);
      if u.track.state == Health.Up {
        HealthKeepsRules(d, c'.dp, ups, u, pin);
      }
    }
  }

  lemma DroppingAt(c: Control, c1: Control, dropped: set<string>, a: Addr)
    requires Dropping(c, c1, dropped) && a in c.assignments && c.assignments[a] !in dropped
    ensures Untouched(c, c1, a) && c1.dp.tables == c.dp.tables
  {
  }

  lemma ChangedParts(d: Dp, d': Dp, keep: set<string>)
    requires Changed(d, d', keep)
    ensures GoodTables(d'.tables) && d'.k.peers == d.k.peers
  {
  }

  lemma HealthParts(d: Dp, d': Dp, ups: seq<Upstream>)
    requires HealthOnly(d, d', ups)
    ensures d'.tables == d.tables && d'.k.peers == d.k.peers
  {
  }

  /** Who is authorised, without unfinished cleanup, is routed as assigned if and only if no torn move is
      left, and is then covered. */
  lemma SoundIsCovered(c: Control, live: Live, a: Addr)
    requires Sound(c, live) && a in c.dp.k.peers && a !in c.pending
    ensures InSync(c, a) <==> a !in c.torn
    ensures a !in c.torn ==> HasPlain(c.dp.k.rules, c.dp.tables, a)
  {
    hide GoodRules, GoodTables;
    assert a in c.assignments;
  }

  // ---------------------------------------------------------------- Telling the dataplane

  function InterfaceList(ups: seq<Upstream>): (out: seq<Interface>)
    ensures |out| == |ups| && forall i :: 0 <= i < |ups| ==>
              out[i] == Interface(InterfaceName(ups[i].conf.name), ups[i].addr)
  {
    seq(|ups|, i requires 0 <= i < |ups| => Interface(InterfaceName(ups[i].conf.name), ups[i].addr))
  }

  lemma NoneRepeated(ups: seq<Upstream>)
    requires DistinctUps(ups)
    ensures !Repeated(InterfaceList(ups))
  {
    forall i, j | 0 <= i < j < |ups| ensures InterfaceList(ups)[i].name != InterfaceList(ups)[j].name {
      InterfaceNames(ups[i].conf.name, ups[j].conf.name);
    }
  }

  lemma InterfaceListNames(ups: seq<Upstream>)
    ensures Names(InterfaceList(ups)) == Interfaces(LiveOf(ups))
    ensures forall up :: up in InterfaceList(ups) ==> IsUpName(up.name)
  {
    LiveNames(ups);
    forall up | up in InterfaceList(ups) ensures IsUpName(up.name) && up.name in Interfaces(LiveOf(ups)) {
      var i :| 0 <= i < |ups| && InterfaceList(ups)[i] == up;
      InterfaceNames(ups[i].conf.name, "");
      assert ups[i] in ups;
    }
    forall n | n in LiveOf(ups) ensures InterfaceName(n) in Names(InterfaceList(ups)) {
      var u :| u in ups && u.conf.name == n;
      var i :| 0 <= i < |ups| && ups[i] == u;
      assert InterfaceList(ups)[i] in InterfaceList(ups);
    }
  }

  /** Pushing health has only marked upstreams, and taken away pins to upstreams that are not up. */
  ghost predicate HealthOnly(d: Dp, d': Dp, ups: seq<Upstream>) {
    && d' == d.(k := d.k.(rules := d'.k.rules), alive := d'.alive)
    && (forall r :: r in d'.k.rules ==> r in d.k.rules)
    && (forall r :: r in d.k.rules && r !in d'.k.rules ==>
          exists u :: u in ups && u.track.state != Health.Up && InterfaceName(u.conf.name) in d.tables
                      && r.table == d.tables[InterfaceName(u.conf.name)] && r.priority == PIN_PRIORITY)
  }

  lemma HealthOnlyOn(d: Dp, d1: Dp, d2: Dp, ups: seq<Upstream>, u: Upstream, ok: bool)
    requires HealthOnly(d, d1, ups) && u in ups
    requires AliveEffect(d1, d2, InterfaceName(u.conf.name), u.track.state == Health.Up, ok)
    ensures HealthOnly(d, d2, ups)
  {
    hide GoodRules, GoodTables;
  }

  lemma HealthKeepsProbes(d: Dp, d': Dp, ups: seq<Upstream>, probed: seq<Interface>)
    requires HealthOnly(d, d', ups) && Probed(d, probed)
    ensures Probed(d', probed)
  {
  }

  lemma HealthKeepsCover(d: Dp, d': Dp, ups: seq<Upstream>, a: Addr)
    requires HealthOnly(d, d', ups)
    ensures HasPlain(d'.k.rules, d'.tables, a) <==> HasPlain(d.k.rules, d.tables, a)
  {
  }
}
