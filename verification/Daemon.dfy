/**
The daemon: keeps the device's peers and the kernel's routes in step with the store, the health of the
upstreams and the configuration, whatever fails on the way.
 */
module Daemon {
  import opened Wrappers
  import opened Kernel
  import opened LinuxRules
  import opened RouteSteps
  import opened Upstreams
  import opened LinuxDataplane
  import opened Effects
  import opened DaemonState
  import Policy
  import Health

  /** The settings that need a restart. */
  datatype Fixed = Fixed(listen: string, subnet: string, stateDir: string, metrics: string)

  datatype Config = Config(fixed: Fixed, upstreams: seq<Policy.Upstream>, profiles: seq<Policy.Profile>,
                           downAfter: int, upAfter: int)

  // ---------------------------------------------------------------- What one peer's step does

  function AssignedTo(c: Control, a: Addr): Option<string> {
    if a in c.assignments then Some(c.assignments[a]) else None
  }

  /** The upstream that may be kept: none if cleanup is unfinished. */
  function Sticky(c: Control, a: Addr): string {
    if a in c.assignments && a !in c.pending then c.assignments[a] else ""
  }

  /** The peer has what `Select` answers when it is told `current`. */
  ghost predicate Settled(c: Control, ups: seq<Upstream>, profiles: seq<Policy.Profile>, p: Peer, current: string) {
    && p.key in c.peers && p.ip !in c.pending
    && FindProfile(profiles, p.profile).Some?
    && Policy.Selected(FindProfile(profiles, p.profile).value, Candidates(ups), current, AssignedTo(c, p.ip))
  }

  /** The peer is on the books with nothing left to clean up, and is assigned what the first profile of its
      name selects. */
  ghost predicate Served(c: Control, ups: seq<Upstream>, profiles: seq<Policy.Profile>, p: Peer, current: string) {
    && p.key in c.peers && p.ip !in c.pending
    && exists i: nat :: FirstNamed(profiles, i, p.profile) &&
                        Policy.Selected(profiles[i], Candidates(ups), current, AssignedTo(c, p.ip))
  }

  lemma SettledIsServed(c: Control, ups: seq<Upstream>, profiles: seq<Policy.Profile>, p: Peer, current: string)
    ensures Settled(c, ups, profiles, p, current) <==> Served(c, ups, profiles, p, current)
  {
    hide Policy.Selected, Candidates, FindProfile;
    ProfileIsFirstNamed(profiles, p.profile);
    assert forall i: nat, j: nat ::
        FirstNamed(profiles, i, p.profile) && FirstNamed(profiles, j, p.profile) ==> i == j;
  }

  /** The kernel has the same plain rules for the address in the tables of upstreams. */
  ghost predicate PlainsAlike(d: Dp, d': Dp, a: Addr) {
    && d'.tables == d.tables
    && forall n :: n in d.tables ==>
                     (PlainRule(a, d.tables[n]) in d'.k.rules <==> PlainRule(a, d.tables[n]) in d.k.rules)
  }

  /** Daemon and kernel treat the address as before. */
  ghost predicate Alike(c: Control, c': Control, a: Addr) {
    AssignedTo(c', a) == AssignedTo(c, a) && (a in c'.pending <==> a in c.pending) && PlainsAlike(c.dp, c'.dp, a)
  }

  /** Whether the kernel routes the address as it is assigned, told from what it did before: as before if the
      assignment is the same; after a move, if the move found no plain rule of its target or no other; and
      always if there was a cleanup. */
  ghost predicate Squared(c: Control, c': Control, a: Addr) {
    if a in c.pending || (a in c.assignments && a !in c'.assignments) then InSync(c', a)
    else if AssignedTo(c', a) == AssignedTo(c, a) then InSync(c', a) <==> InSync(c, a)
    else InterfaceName(c'.assignments[a]) in c.dp.tables &&
         (InSync(c', a) <==> !Doubled(c.dp, a, c.dp.tables[InterfaceName(c'.assignments[a])]))
  }

  lemma SquaredAround(c: Control, c1: Control, c2: Control, c3: Control, a: Addr)
    requires Alike(c, c1, a) && Squared(c1, c2, a) && Alike(c2, c3, a)
    ensures Squared(c, c3, a)
  {
    SyncAlike(c, c1, a);
    SyncAlike(c2, c3, a);
  }

  lemma SquaredAtOnce(c: Control, a: Addr)
    requires a !in c.pending
    ensures Squared(c, c, a)
  {
    hide InSync, Doubled;
  }

  lemma SquaredGone(c: Control, c': Control, a: Addr)
    requires a in c.assignments && a !in c'.assignments && InSync(c', a)
    ensures Squared(c, c', a)
  {
    hide InSync, Doubled;
  }

  lemma SquaredMoved(c: Control, c': Control, a: Addr, name: string)
    requires a !in c.pending && AssignedTo(c', a) == Some(name) && AssignedTo(c, a) != Some(name)
    requires InterfaceName(name) in c.dp.tables
    requires InSync(c', a) <==> !Doubled(c.dp, a, c.dp.tables[InterfaceName(name)])
    ensures Squared(c, c', a)
  {
    hide InSync, Doubled;
  }

  /** After a cleanup, a move meets no plain rule. */
  lemma SquaredAfterCleanup(c: Control, c1: Control, c2: Control, a: Addr)
    requires a in c.pending && a !in c1.pending && a !in c1.assignments && InSync(c1, a) && Squared(c1, c2, a)
    ensures Squared(c, c2, a)
  {
    if a in c2.assignments {
      DoubledIsTorn(c1, a, c2.assignments[a]);
    }
  }

  /** Nothing has changed but the routing of one address. */
  ghost predicate OnlyAt(c: Control, c': Control, a: Addr) {
    && c' == c.(dp := c'.dp, assignments := c'.assignments, pending := c'.pending, via := c'.via, torn := c'.torn)
    && c'.dp == c.dp.(k := c.dp.k.(rules := c'.dp.k.rules, peers := c'.dp.k.peers), allowed := c'.dp.allowed)
    && (forall b :: b != a ==> Alike(c, c', b))
    && (Unambiguous(c'.dp) <==> Unambiguous(c.dp))
  }

  lemma OnlyAtOn(c: Control, c1: Control, c2: Control, a: Addr)
    requires OnlyAt(c, c1, a) && OnlyAt(c1, c2, a)
    ensures OnlyAt(c, c2, a)
  {
    hide Unambiguous, PlainsAlike;
    forall b | b != a ensures Alike(c, c2, b) {
      assert Alike(c, c1, b) && Alike(c1, c2, b);
      PlainsAlikeOn(c.dp, c1.dp, c2.dp, b);
    }
  }

  lemma PlainsAlikeOn(d: Dp, d1: Dp, d2: Dp, a: Addr)
    ensures PlainsAlike(d, d, a)
    ensures PlainsAlike(d, d1, a) && PlainsAlike(d1, d2, a) ==> PlainsAlike(d, d2, a)
  {
  }

  lemma UnrouteOnlyAt(c: Control, d: Dp, a: Addr, ok: bool)
    requires UnrouteEffect(c.dp, d, a, ok)
    ensures OnlyAt(c, AfterUnrouteCall(c, d, a, ok), a)
  {
    hide GoodRules, GoodTables;
    AmbiguityIgnoresPeerRules(c.dp, d);
    hide Unambiguous;
    forall b | b != a ensures PlainsAlike(c.dp, d, b) {
      OthersAlike(c.dp, d, a, b);
    }
  }

  lemma OthersAlike(d: Dp, d': Dp, a: Addr, b: Addr)
    requires SameOthers(d.k.rules, d'.k.rules, a) && d'.tables == d.tables && b != a
    ensures PlainsAlike(d, d', b)
  {
    assert forall n :: n in d.tables ==> !IsPeerRuleOf(PlainRule(b, d.tables[n]), a);
  }

  /** What routing one peer comes to that has used up so many faults. */
  ghost predicate Turn(c: Control, c': Control, ups: seq<Upstream>, profiles: seq<Policy.Profile>, p: Peer, ok: bool,
                       spent: int)
  {
    && OnlyAt(c, c', p.ip) && TornBy(c.torn, c'.torn, spent)
    && (ok ==> Settled(c', ups, profiles, p, Sticky(c, p.ip)) && Squared(c, c', p.ip))
    && (!ok ==> Obstructed(c.dp, ups, profiles, p) || spent > 0)
  }

  lemma TurnStill(c: Control, ups: seq<Upstream>, profiles: seq<Policy.Profile>, p: Peer)
    requires Settled(c, ups, profiles, p, Sticky(c, p.ip))
    ensures Turn(c, c, ups, profiles, p, true, 0)
  {
    hide Settled, Squared, OnlyAt, TornBy, Sticky;
    SettledParts(c, ups, profiles, p, Sticky(c, p.ip));
    OnlyAtStart(c, p.ip);
    NoneTorn(c.torn, c.torn, 0);
    SquaredAtOnce(c, p.ip);
  }

  lemma TurnParts(c: Control, c': Control, ups: seq<Upstream>, profiles: seq<Policy.Profile>, p: Peer, ok: bool,
                  spent: int)
    requires Turn(c, c', ups, profiles, p, ok, spent)
    ensures OnlyAt(c, c', p.ip) && TornBy(c.torn, c'.torn, spent)
    ensures ok ==> Settled(c', ups, profiles, p, Sticky(c, p.ip)) && Squared(c, c', p.ip)
    ensures !ok ==> Obstructed(c.dp, ups, profiles, p) || spent > 0
  {
    hide OnlyAt, TornBy, Settled, Squared, Obstructed;
  }

  lemma SettledProfile(c: Control, ups: seq<Upstream>, profiles: seq<Policy.Profile>, p: Peer, current: string)
    requires Settled(c, ups, profiles, p, current)
    ensures p.ip !in c.pending && FindProfile(profiles, p.profile) != None
  {
    hide Policy.Selected, FindProfile;
  }

  lemma SettledParts(c: Control, ups: seq<Upstream>, profiles: seq<Policy.Profile>, p: Peer, current: string)
    requires Settled(c, ups, profiles, p, current)
    ensures p.ip !in c.pending && p.key in c.peers
  {
    hide Policy.Selected;
  }

  /** A cleanup instead of a decision, or before it, that failed. */
  lemma TurnStuck(c: Control, c': Control, ups: seq<Upstream>, profiles: seq<Policy.Profile>, p: Peer, spent: int)
    requires OnlyAt(c, c', p.ip) && TornBy(c.torn, c'.torn, spent)
    requires FindProfile(profiles, p.profile) == None || !Unambiguous(c.dp) || spent > 0
    ensures Turn(c, c', ups, profiles, p, false, spent)
  {
    hide OnlyAt, TornBy, Unambiguous, FindProfile;
  }

  /** The decision after a cleanup. */
  lemma TurnAfter(c: Control, c1: Control, c2: Control, ups: seq<Upstream>, profiles: seq<Policy.Profile>, p: Peer,
                  ok: bool, spent: nat, more: nat)
    requires p.ip in c.pending && p.ip !in c1.pending && p.ip !in c1.assignments && InSync(c1, p.ip)
    requires OnlyAt(c, c1, p.ip) && TornBy(c.torn, c1.torn, spent) && Turn(c1, c2, ups, profiles, p, ok, more)
    ensures Turn(c, c2, ups, profiles, p, ok, spent + more)
  {
    OnlyAtParts(c, c1, p.ip);
    ObstructedAlike(c.dp, c1.dp, ups, profiles, p);
    hide OnlyAt, TornBy, Squared, InSync, Settled, Obstructed, Unambiguous;
    OnlyAtOn(c, c1, c2, p.ip);
    TornOn(c.torn, c1.torn, c2.torn, spent, more);
    if ok {
      SquaredAfterCleanup(c, c1, c2, p.ip);
    }
  }

  /** A decision that was carried out, or failed to be. */
  lemma TurnMade(c: Control, c': Control, ups: seq<Upstream>, profiles: seq<Policy.Profile>, p: Peer,
                 profile: Policy.Profile, ok: bool, spent: int)
    requires p.key in c.peers && p.ip !in c.pending && FindProfile(profiles, p.profile) == Some(profile)
    requires OnlyAt(c, c', p.ip) && TornBy(c.torn, c'.torn, spent) && (ok ==> p.ip !in c'.pending)
    requires ok ==> Policy.Selected(profile, Candidates(ups), Sticky(c, p.ip), AssignedTo(c', p.ip))
    requires ok ==> Squared(c, c', p.ip)
    requires !ok ==> Obstructed(c.dp, ups, profiles, p) || spent > 0
    ensures Turn(c, c', ups, profiles, p, ok, spent)
  {
    OnlyAtParts(c, c', p.ip);
    hide OnlyAt, TornBy, Squared, Policy.Selected, Candidates, Obstructed, FindProfile, Sticky;
  }

  lemma RouteParts(c: Control, d: Dp, a: Addr, name: string, live: Live, ok: bool)
    requires name in live && InterfaceName(name) in c.dp.tables
    ensures var c' := AfterRouteCall(c, d, a, name, live, ok);
            c' == c.(dp := d, torn := c'.torn,
                     assignments := if ok then c.assignments[a := name] else c.assignments,
                     via := if ok then c.via[a := live[name]] else c.via)
  {
    hide Doubled;
  }

  lemma RouteOnlyAt(c: Control, d: Dp, a: Addr, name: string, live: Live, ok: bool)
    requires name in live && InterfaceName(name) in c.dp.tables
    requires RouteEffect(c.dp, d, a, c.dp.tables[InterfaceName(name)], ok)
    ensures OnlyAt(c, AfterRouteCall(c, d, a, name, live, ok), a)
  {
    hide GoodRules, GoodTables, Doubled;
    AmbiguityIgnoresPeerRules(c.dp, d);
    hide Unambiguous;
    forall b | b != a ensures PlainsAlike(c.dp, d, b) {
      OthersAlike(c.dp, d, a, b);
    }
  }

  /** What a move, a cleanup and dropping pins come to, whichever operation they stop behind. */
  lemma RouteOutcome(init: State, d: Dp, d': Dp, a: Addr, table: nat, log: seq<Op>, before: seq<Op>, n: nat, ok: bool)
    requires GoodDp(d) && Guarded(d) && table in d.tables.Values && GoodDp(d') && Guarded(d')
    requires d.k == Exec(init, before) && AlwaysSafe(init, before)
    requires Reached(d'.k, log, d.k, before, RoutePlan(d, a, table), n)
    requires d'.tables == d.tables && d'.alive == d.alive
    requires ok ==> n == |RoutePlan(d, a, table)|
    requires !ok ==> d'.k.peers == d.k.peers
    ensures RouteEffect(d, d', a, table, ok) && AlwaysSafe(init, log) && CoverKept(init, before, log, d.tables)
  {
    hide *;
    RouteHasEffect(d, d', a, table, log, before, n, ok);
    RouteIsRouting(d, a, table, log, before, d'.k, n);
    RoutingKeepsSafety(init, before, log);
    RouteCovers(init, d, a, table, d'.k, log, before, n);
  }

  lemma UnrouteOutcome(init: State, d: Dp, d': Dp, a: Addr, log: seq<Op>, before: seq<Op>, n: nat, ok: bool)
    requires GoodDp(d) && Guarded(d) && GoodDp(d') && Guarded(d')
    requires d.k == Exec(init, before) && AlwaysSafe(init, before)
    requires Reached(d'.k, log, d.k, before, UnroutePlan(d, a), n)
    requires d'.tables == d.tables && d'.alive == d.alive
    requires ok ==> n == |UnroutePlan(d, a)|
    ensures UnrouteEffect(d, d', a, ok) && AlwaysSafe(init, log) && CoverKept(init, before, log, d.tables)
    ensures HeldKept(init, before, log, d.tables.Values)
  {
    hide *;
    UnrouteHasEffect(d, d', a, log, before, n, ok);
    UnrouteIsRouting(d, a, log, before, d'.k, n);
    RoutingKeepsSafety(init, before, log);
    UnrouteCovers(init, d, a, d'.k, log, before, n);
    UnrouteHolds(init, d, a, d'.k, log, before, n, d.tables.Values);
  }

  lemma RouteFrame(d: Dp, d': Dp, a: Addr, table: nat, ok: bool)
    requires RouteEffect(d, d', a, table, ok)
    ensures d'.k.devices == d.k.devices && d'.k.lm0 == d.k.lm0
  {
  }

  lemma UnrouteFrame(d: Dp, d': Dp, a: Addr, ok: bool)
    requires UnrouteEffect(d, d', a, ok)
    ensures d'.k.devices == d.k.devices && d'.k.lm0 == d.k.lm0 && (Unambiguous(d') <==> Unambiguous(d))
  {
    hide GoodRules, GoodTables;
    AmbiguityIgnoresPeerRules(d, d');
  }

  lemma AliveFrame(d: Dp, d': Dp, name: string, up: bool, ok: bool)
    requires AliveEffect(d, d', name, up, ok)
    ensures d'.k.devices == d.k.devices && d'.k.lm0 == d.k.lm0
  {
  }

  lemma UnpinOutcome(init: State, d: Dp, d': Dp, name: string, log: seq<Op>, before: seq<Op>, n: nat, ok: bool)
    requires GoodDp(d) && GoodDp(d') && name in d.tables
    requires d.k == Exec(init, before) && AlwaysSafe(init, before)
    requires Reached(d'.k, log, d.k, before, UnpinPlan(d, d.tables[name]), n)
    requires d'.tables == d.tables && d'.allowed == d.allowed && d'.alive == d.alive - {name}
    requires ok ==> n == |UnpinPlan(d, d.tables[name])|
    ensures AliveEffect(d, d', name, false, ok) && AlwaysSafe(init, log) && CoverKept(init, before, log, d.tables)
    ensures HeldKept(init, before, log, d.tables.Values)
  {
    hide *;
    UnpinHasEffect(d, d', name, log, before, n, ok);
    UnpinIsRouting(d, d.tables[name], log, before, d'.k, n);
    RoutingKeepsSafety(init, before, log);
    UnpinCovers(init, d, d.tables[name], d'.k, log, before, n);
    UnpinHolds(init, d, d.tables[name], d'.k, log, before, n, d.tables.Values);
  }

  /** The tables of upstreams that are kept. */
  function KeptTables(tables: Tables, keep: set<string>): set<nat> {
    set n | n in tables && n in keep :: tables[n]
  }

  lemma KeptAreTables(tables: Tables, keep: set<string>)
    ensures KeptTables(tables, keep) <= tables.Values
  {
  }

  lemma KeptIsNotGone(tables: Tables, keep: set<string>)
    requires GoodTables(tables)
    ensures KeptTables(tables, keep) !! GoneTables(tables, keep)
  {
  }

  /** What pushing health comes to. */
  lemma AliveOutcome(init: State, d: Dp, d': Dp, name: string, up: bool, log: seq<Op>, before: seq<Op>, n: nat,
                     ok: bool)
    requires GoodDp(d) && GoodDp(d') && d.k == Exec(init, before) && AlwaysSafe(init, before)
    requires d'.tables == d.tables && d'.allowed == d.allowed
    requires if name in d.tables then d'.alive == (if up then d.alive + {name} else d.alive - {name})
             else d'.alive == d.alive && !ok
    requires if name in d.tables && !up then Reached(d'.k, log, d.k, before, UnpinPlan(d, d.tables[name]), n)
             else d'.k == d.k && log == before
    requires ok && !up ==> name in d.tables && n == |UnpinPlan(d, d.tables[name])|
    ensures AliveEffect(d, d', name, up, ok) && AlwaysSafe(init, log) && CoverKept(init, before, log, d.tables)
    ensures HeldKept(init, before, log, d.tables.Values)
    ensures d'.k.devices == d.k.devices && d'.k.lm0 == d.k.lm0
  {
    hide *;
    if name in d.tables && !up {
      UnpinOutcome(init, d, d', name, log, before, n, ok);
    } else {
      AliveTrivially(d, d', name, up, ok);
      CoverStart(init, before, d.tables);
      HeldStart(init, before, d.tables.Values);
    }
    AliveFrame(d, d', name, up, ok);
  }

  /** What, besides faults, may stand in the way of routing a peer: its profile is not configured, an
      upstream has no table (the last reload did not finish), or a foreign rule makes ours ambiguous. */
  ghost predicate Obstructed(d: Dp, ups: seq<Upstream>, profiles: seq<Policy.Profile>, p: Peer) {
    || FindProfile(profiles, p.profile).None?
    || (exists n :: n in UpNames(ups) && InterfaceName(n) !in d.tables)
    || !Unambiguous(d)
  }

  ghost predicate Hindered(d: Dp, ups: seq<Upstream>, profiles: seq<Policy.Profile>, rows: seq<Peer>) {
    !Unambiguous(d) || exists p :: p in rows && Obstructed(d, ups, profiles, p)
  }

  /** At most so many addresses have become torn. */
  ghost predicate TornBy(before: set<Addr>, after: set<Addr>, spent: int) { |after - before| <= spent }

  lemma TornOn(a: set<Addr>, b: set<Addr>, c: set<Addr>, m: int, n: int)
    requires TornBy(a, b, m) && TornBy(b, c, n)
    ensures TornBy(a, c, m + n)
  {
    var all := (b - a) + (c - b);
    assert all == (c - a) + (all - (c - a));
  }

  lemma NoneTorn(before: set<Addr>, after: set<Addr>, spent: nat)
    requires after <= before
    ensures TornBy(before, after, spent)
  {
    assert after - before == {};
  }

  /** A move tears no other address, and this one only if it fails behind an operation. */
  lemma RouteTears(c: Control, d: Dp, a: Addr, name: string, live: Live, ok: bool, spent: nat)
    requires name in live && InterfaceName(name) in c.dp.tables
    requires ok || d.k == c.dp.k || spent > 0
    ensures TornBy(c.torn, AfterRouteCall(c, d, a, name, live, ok).torn, spent)
  {
    var torn := AfterRouteCall(c, d, a, name, live, ok).torn;
    if torn <= c.torn {
      assert torn - c.torn == {};
    } else {
      assert torn - c.torn <= {a};
      assert {a} == (torn - c.torn) + ({a} - (torn - c.torn));
    }
  }

  // ---------------------------------------------------------------- What one pass does

  /** The keys whose removal from the device is among the operations. */
  ghost function RemovalsIn(ops: seq<Op>): set<Key> { set op | op in ops && op.PeerRemove? :: op.key }

  /** The device has since refused to remove exactly these keys. */
  ghost predicate Refusing(before: seq<Op>, after: seq<Op>, keys: set<Key>) {
    before <= after && RemovalsIn(after[|before|..]) == keys
  }

  /** Every key stuck on the device and every address whose cleanup has become unfinished used a fault
      of its own. */
  ghost predicate Charged(before: set<Addr>, after: set<Addr>, stuck: set<Key>, spent: int) {
    |stuck| + |after - before| <= spent
  }

  lemma ChargedOn(before: set<Addr>, pending: set<Addr>, after: set<Addr>, a: Addr, stuck: set<Key>, stuck': set<Key>,
                  key: Key, spent: int, more: int)
    requires Charged(before, pending, stuck, spent)
    requires forall b :: b != a ==> (b in after <==> b in pending)
    requires stuck' <= stuck + {key}
    requires (if key in stuck' && key !in stuck then 1 else 0) + (if a in after then 1 else 0) <= more
    ensures Charged(before, after, stuck', spent + more)
  {
    var late, late' := pending - before, after - before;
    if a in after {
      assert late' <= late + {a};
      SmallerSet(late', late + {a});
    } else {
      SmallerSet(late', late);
    }
    if key in stuck' && key !in stuck {
      SmallerSet(stuck', stuck + {key});
    } else {
      assert stuck' <= stuck;
      SmallerSet(stuck', stuck);
    }
  }

  lemma NothingCharged(pending: set<Addr>)
    ensures Charged(pending, pending, {}, 0)
  {
    assert pending - pending == {};
  }

  lemma UnroutePends(c: Control, c': Control, a: Addr)
    requires OnlyAt(c, c', a)
    ensures forall b :: b != a ==> (b in c'.pending <==> b in c.pending)
  {
    hide Unambiguous, PlainsAlike;
    forall b | b != a ensures b in c'.pending <==> b in c.pending {
      assert Alike(c, c', b);
    }
  }

  lemma SmallerSet<T>(a: set<T>, b: set<T>)
    requires a <= b
    ensures |a| <= |b|
  {
    assert b == a + (b - a);
  }

  /** The addresses of revoked peers still on the books whose cleanup has become unfinished. */
  ghost function Lingering(c: Control, c': Control, rows: seq<Peer>): set<Addr> {
    set k | k in c'.peers && k !in Keys(rows) && c'.peers[k].ip in c'.pending - c.pending :: c'.peers[k].ip
  }

  lemma RefusingOn(a: seq<Op>, b: seq<Op>, c: seq<Op>, m: set<Key>, n: set<Key>)
    requires Refusing(a, b, m) && Refusing(b, c, n)
    ensures Refusing(a, c, m + n)
  {
    hide Exec;
    assert c[|a|..] == b[|a|..] + c[|b|..];
  }

  lemma RefusingOne(refused: seq<Op>, op: Op)
    ensures Refusing(refused, refused, {})
    ensures Refusing(refused, refused + [op], if op.PeerRemove? then {op.key} else {})
  {
    hide Apply;
    assert refused[|refused|..] == [] && (refused + [op])[|refused|..] == [op];
    assert op in [op];
  }

  function Keys(rows: seq<Peer>): set<Key> { set p | p in rows :: p.key }

  /** What the store promises: keys and addresses are unique, a row never changes, and a key that was
      deleted never comes back. */
  ghost predicate GoodRows(rows: seq<Peer>, c: Control) {
    && (forall i, j :: 0 <= i < j < |rows| ==> rows[i].key != rows[j].key && rows[i].ip != rows[j].ip)
    && (forall p :: p in rows ==> p.key !in c.gone && (p.key in c.peers ==> c.peers[p.key] == p))
  }

  /** The peers with the keys `done` have been revoked: each is off the device unless it is `stuck`
      there, and struck off the books if nothing failed. */
  ghost predicate Revoked(c: Control, c': Control, done: set<Key>, stuck: set<Key>, ok: bool) {
    && done <= c.peers.Keys && stuck <= done
    && c'.stale == c.stale && c'.gone == c.gone + done
    && c'.dp == c.dp.(k := c.dp.k.(rules := c'.dp.k.rules, peers := c'.dp.k.peers,
                                   keys := c.dp.k.keys - (done - stuck)),
                      allowed := c'.dp.allowed)
    && (Unambiguous(c'.dp) <==> Unambiguous(c.dp))
    && (forall k :: k in c'.peers ==> k in c.peers && c'.peers[k] == c.peers[k])
    && (forall k :: k in c.peers && k !in done ==> k in c'.peers)
    && (ok ==> c'.peers.Keys == c.peers.Keys - done)
    && (forall a :: (forall k :: k in done ==> c.peers[k].ip != a) ==> Alike(c, c', a))
  }

  /** The revoked keys among those a pass has looked at. */
  ghost function Handled(keys: set<Key>, todo: set<Key>, wanted: set<Key>): set<Key> { keys - todo - wanted }

  lemma HandledNone(keys: set<Key>, wanted: set<Key>)
    ensures Handled(keys, keys, wanted) == {}
  {
  }

  lemma HandledMore(keys: set<Key>, todo: set<Key>, wanted: set<Key>, key: Key)
    requires key in todo && todo <= keys
    ensures key !in Handled(keys, todo, wanted)
    ensures key in wanted ==> Handled(keys, todo - {key}, wanted) == Handled(keys, todo, wanted)
    ensures key !in wanted ==> Handled(keys, todo - {key}, wanted) == Handled(keys, todo, wanted) + {key}
  {
  }

  lemma HandledAll(keys: set<Key>, wanted: set<Key>)
    ensures Handled(keys, {}, wanted) == keys - wanted
  {
  }

  lemma RevokedStart(c: Control)
    ensures Revoked(c, c, {}, {}, true)
  {
    hide Unambiguous, PlainsAlike;
    assert c.dp.k.keys - ({} - {}) == c.dp.k.keys;
    forall a ensures Alike(c, c, a) {
      PlainsAlikeOn(c.dp, c.dp, c.dp, a);
    }
  }

  /** Taking a key off the device, or failing to. */
  function Dismissed(c: Control, key: Key, removed: bool): Control {
    c.(gone := c.gone + {key}, dp := if removed then c.dp.(k := Apply(c.dp.k, PeerRemove(key))) else c.dp)
  }

  lemma RevokedStep(c: Control, c1: Control, c2: Control, c3: Control, key: Key, done: set<Key>, stuck: set<Key>,
                    removed: bool, clean: bool, ok: bool)
    requires Revoked(c, c1, done, stuck, ok) && key in c.peers && key !in done
    requires OnlyAt(Dismissed(c1, key, removed), c2, c.peers[key].ip)
    requires c3 == if removed && clean then c2.(peers := c2.peers - {key}) else c2
    ensures Revoked(c, c3, done + {key}, if removed then stuck else stuck + {key}, ok && removed && clean)
  {
    hide Unambiguous, PlainsAlike;
    var c1' := Dismissed(c1, key, removed);
    DismissedParts(c1, key, removed);
    KeysLeft(c.dp.k.keys, key, done, stuck, removed);
    forall a | forall k :: k in done + {key} ==> c.peers[k].ip != a ensures Alike(c, c3, a) {
      assert forall k :: k in done ==> c.peers[k].ip != a;
      assert Alike(c, c1, a) && Alike(c1', c2, a);
      PlainsAlikeOn(c.dp, c1.dp, c3.dp, a);
      SameRulesAlike(c1.dp, c1'.dp, c2.dp, a);
    }
  }

  lemma SameRulesAlike(d: Dp, d': Dp, e: Dp, a: Addr)
    requires d'.tables == d.tables && d'.k.rules == d.k.rules
    ensures PlainsAlike(d', e, a) <==> PlainsAlike(d, e, a)
    ensures PlainsAlike(e, d', a) <==> PlainsAlike(e, d, a)
  {
  }

  lemma KeysLeft(keys: set<Key>, key: Key, done: set<Key>, stuck: set<Key>, removed: bool)
    requires stuck <= done && key !in done
    ensures var left := keys - (done - stuck);
            (if removed then left - {key} else left) == keys - (done + {key} - if removed then stuck else stuck + {key})
  {
  }

  /** A pass has gone through the first `i` rows since all revocations. */
  ghost predicate Advanced(c: Control, c': Control, rows: seq<Peer>, i: nat) {
    && i <= |rows|
    && c'.stale == c.stale && c'.gone == c.gone
    && c'.dp == c.dp.(k := c.dp.k.(rules := c'.dp.k.rules, peers := c'.dp.k.peers, keys := c'.dp.k.keys),
                      allowed := c'.dp.allowed)
    && (Unambiguous(c'.dp) <==> Unambiguous(c.dp))
    && (forall k :: k in c.peers ==> k in c'.peers && c'.peers[k] == c.peers[k])
    && (forall k :: k in c'.peers && k !in c.peers ==>
        exists j :: 0 <= j < i && rows[j].key == k && c'.peers[k] == rows[j])
    && (forall k :: k in c.dp.k.keys ==> k in c'.dp.k.keys)
    && (forall k :: k in c'.dp.k.keys && k !in c.dp.k.keys ==> exists j :: 0 <= j < i && rows[j].key == k)
    && (forall a :: (forall j :: 0 <= j < i && rows[j].key in c'.peers ==> rows[j].ip != a) ==> Alike(c, c', a))
  }

  /** The first `i` rows have what they should, told what they had in state `c`. */
  ghost predicate SettledTo(c: Control, c': Control, ups: seq<Upstream>, profiles: seq<Policy.Profile>,
                            rows: seq<Peer>, i: nat) {
    i <= |rows| && forall j :: 0 <= j < i ==> Settled(c', ups, profiles, rows[j], Sticky(c, rows[j].ip))
  }

  lemma SettledOn(c: Control, c1: Control, c2: Control, ups: seq<Upstream>, profiles: seq<Policy.Profile>,
                  rows: seq<Peer>, i: nat)
    requires SettledTo(c, c1, ups, profiles, rows, i) && i < |rows|
    requires forall j :: 0 <= j < i ==> rows[j].ip != rows[i].ip
    requires OnlyAt(c1, c2, rows[i].ip) || c2 == Entered(c1, rows[i])
    ensures SettledTo(c, c2, ups, profiles, rows, i)
  {
    hide Unambiguous, Policy.Selected, Candidates, FindProfile;
    forall j | 0 <= j < i ensures Settled(c2, ups, profiles, rows[j], Sticky(c, rows[j].ip)) {
      assert Settled(c1, ups, profiles, rows[j], Sticky(c, rows[j].ip));
      assert c2 != Entered(c1, rows[i]) ==> Alike(c1, c2, rows[j].ip);
      assert AssignedTo(c2, rows[j].ip) == AssignedTo(c1, rows[j].ip);
    }
  }

  lemma SettledMore(c: Control, c': Control, ups: seq<Upstream>, profiles: seq<Policy.Profile>, rows: seq<Peer>, i: nat)
    requires SettledTo(c, c', ups, profiles, rows, i) && i < |rows|
    requires Settled(c', ups, profiles, rows[i], Sticky(c, rows[i].ip))
    ensures SettledTo(c, c', ups, profiles, rows, i + 1)
  {
    hide Settled;
  }

  /** The addresses of all rows that are not on the books are free. */
  ghost predicate NewcomersFree(peers: map<Key, Peer>, rows: seq<Peer>) {
    forall p :: p in rows && p.key !in peers ==> !Owned(peers, p.ip)
  }

  lemma AllFree(peers: map<Key, Peer>, rows: seq<Peer>)
    requires forall p :: p in rows ==> p.key !in peers ==> !Owned(peers, p.ip)
    ensures NewcomersFree(peers, rows)
  {
  }

  lemma NewcomerFree(peers: map<Key, Peer>, rows: seq<Peer>, i: nat)
    requires i < |rows|
    ensures rows[i] in rows
    ensures NewcomersFree(peers, rows) && rows[i].key !in peers ==> !Owned(peers, rows[i].ip)
  {
    hide Owned;
    assert rows[i] in rows;
  }

  /** The first `i` rows that were on the books in state `c` are squared. */
  ghost predicate SquaredTo(c: Control, c': Control, rows: seq<Peer>, i: nat) {
    i <= |rows| && forall j :: 0 <= j < i && rows[j].key in c.peers ==> Squared(c, c', rows[j].ip)
  }

  lemma SquaredNone(c: Control, rows: seq<Peer>)
    ensures SquaredTo(c, c, rows, 0)
  {
    hide Squared;
  }

  lemma SquaredOn(c: Control, c1: Control, c2: Control, rows: seq<Peer>, i: nat)
    requires SquaredTo(c, c1, rows, i) && i < |rows| && forall j :: 0 <= j < i ==> rows[j].ip != rows[i].ip
    requires OnlyAt(c1, c2, rows[i].ip) || c2 == Entered(c1, rows[i])
    ensures SquaredTo(c, c2, rows, i)
  {
    hide Unambiguous, Squared;
    forall j | 0 <= j < i && rows[j].key in c.peers ensures Squared(c, c2, rows[j].ip) {
      PlainsAlikeOn(c.dp, c.dp, c.dp, rows[j].ip);
      PlainsAlikeOn(c1.dp, c1.dp, c1.dp, rows[j].ip);
      SquaredAround(c, c, c1, c2, rows[j].ip);
    }
  }

  lemma ServedSquared(c: Control, c1: Control, c2: Control, c3: Control, rows: seq<Peer>, i: nat)
    requires SquaredTo(c, c1, rows, i) && i < |rows| && forall j :: 0 <= j < i ==> rows[j].ip != rows[i].ip
    requires c2 == c1 || (c2 == Entered(c1, rows[i]) && rows[i].key !in c.peers)
    requires OnlyAt(c2, c3, rows[i].ip) && Squared(c2, c3, rows[i].ip) && Alike(c, c1, rows[i].ip)
    ensures SquaredTo(c, c3, rows, i + 1)
  {
    hide Squared, Alike, OnlyAt, Entered, SquaredTo;
    if c2 != c1 {
      SquaredOn(c, c1, c2, rows, i);
    }
    SquaredOn(c, c2, c3, rows, i);
    if rows[i].key in c.peers {
      AlikeSelf(c3, rows[i].ip);
      SquaredAround(c, c1, c3, c3, rows[i].ip);
    }
    SquaredMore(c, c3, rows, i);
  }

  lemma AlikeSelf(c: Control, a: Addr)
    ensures Alike(c, c, a)
  {
  }

  lemma SquaredMore(c: Control, c': Control, rows: seq<Peer>, i: nat)
    requires SquaredTo(c, c', rows, i) && i < |rows| && (rows[i].key in c.peers ==> Squared(c, c', rows[i].ip))
    ensures SquaredTo(c, c', rows, i + 1)
  {
    hide Squared;
  }

  /** Whoever was on the books before a pass that succeeds is squared by it. */
  lemma PassSquares(c: Control, c1: Control, c2: Control, rows: seq<Peer>, stuck: set<Key>, ok: bool)
    requires GoodRows(rows, c) && Booked(c) && Revoked(c, c1, c.peers.Keys - Keys(rows), stuck, ok)
    requires SquaredTo(c1, c2, rows, |rows|)
    ensures forall p :: p in rows && p.key in c.peers ==> Squared(c, c2, p.ip)
  {
    hide Unambiguous, Squared;
    forall p | p in rows && p.key in c.peers ensures Squared(c, c2, p.ip) {
      var i :| 0 <= i < |rows| && rows[i] == p;
      assert p.key in Keys(rows);
      assert Alike(c, c1, p.ip);
      PlainsAlikeOn(c2.dp, c2.dp, c2.dp, p.ip);
      SquaredAround(c, c1, c2, c2, p.ip);
    }
  }

  lemma SettledStart(c: Control, ups: seq<Upstream>, profiles: seq<Policy.Profile>, rows: seq<Peer>)
    ensures SettledTo(c, c, ups, profiles, rows, 0)
  {
    hide Settled;
  }

  /** Who is next: a row is on the books only as itself, keeps what it had, and if its address is free of
      peers whose cleanup is unfinished, it is free. */
  lemma NextRow(c: Control, c': Control, rows: seq<Peer>, i: nat)
    requires GoodRows(rows, c) && Advanced(c, c', rows, i) && i < |rows|
    ensures var p := rows[i];
            && (p.key in c'.peers ==> p.key in c.peers && c'.peers[p.key] == p)
            && (p.key in c.peers ==> p.key in c'.peers)
            && (!Owned(c.peers, p.ip) ==> !Owned(c'.peers, p.ip))
            && Sticky(c', p.ip) == Sticky(c, p.ip) && Alike(c, c', p.ip)
            && (Unambiguous(c'.dp) <==> Unambiguous(c.dp)) && c'.dp.tables == c.dp.tables
  {
    hide Unambiguous;
    var p := rows[i];
    assert p in rows;
    assert forall j :: 0 <= j < i ==> rows[j].ip != p.ip && rows[j].key != p.key;
    forall k | k in c'.peers && !Owned(c.peers, p.ip) ensures c'.peers[k].ip != p.ip {
      if k !in c.peers {
        var j :| 0 <= j < i && rows[j].key == k && c'.peers[k] == rows[j];
      }
    }
    assert Alike(c, c', p.ip);
  }

  lemma AdvancedStart(c: Control, rows: seq<Peer>)
    ensures Advanced(c, c, rows, 0)
  {
    hide Unambiguous;
  }

  /** What a pass works towards: the device and the books have exactly the rows, nothing is left to clean
      up, and everyone has what `Select` answers. */
  ghost predicate Converged(c: Control, ups: seq<Upstream>, profiles: seq<Policy.Profile>, rows: seq<Peer>) {
    && c.dp.k.keys == c.peers.Keys == Keys(rows)
    && (forall p :: p in rows ==> c.peers[p.key] == p)
    && c.pending == {}
    && (forall p :: p in rows ==> Settled(c, ups, profiles, p, Sticky(c, p.ip)))
    && (forall a :: a in c.assignments ==> exists p :: p in rows && p.ip == a)
  }

  /** Everyone has what `Select` answers, told the upstream they had before, unless they were new or
      their cleanup was unfinished. */
  ghost predicate Followed(c: Control, c': Control, ups: seq<Upstream>, profiles: seq<Policy.Profile>,
                           rows: seq<Peer>) {
    forall p :: p in rows ==> Settled(c', ups, profiles, p, if p.key in c.peers then Sticky(c, p.ip) else "")
  }

  lemma RowsStayGood(c: Control, c1: Control, rows: seq<Peer>, stuck: set<Key>, ok: bool)
    requires GoodRows(rows, c) && Revoked(c, c1, c.peers.Keys - Keys(rows), stuck, ok)
    ensures GoodRows(rows, c1)
  {
    hide Unambiguous;
    assert forall p :: p in rows ==> p.key in Keys(rows);
  }

  /** After flawless revocations, addresses of new rows are free, and all others are as they were. */
  lemma AfterRevocations(c: Control, c1: Control, rows: seq<Peer>, stuck: set<Key>, p: Peer)
    requires Booked(c) && Admitted(c1) && GoodRows(rows, c) && p in rows
    requires Revoked(c, c1, c.peers.Keys - Keys(rows), stuck, true)
    ensures p.key !in c1.peers ==> !Owned(c1.peers, p.ip)
    ensures Sticky(c1, p.ip) == if p.key in c.peers then Sticky(c, p.ip) else ""
  {
    hide Unambiguous;
    assert p.key in Keys(rows);
    if p.key in c.peers {
      assert Alike(c, c1, p.ip);
    } else {
      forall k | k in c1.peers ensures c1.peers[k].ip != p.ip {
        var q :| q in rows && q.key == k;
      }
    }
  }

  lemma PassConverges(c: Control, c1: Control, c2: Control, ups: seq<Upstream>, profiles: seq<Policy.Profile>,
                      rows: seq<Peer>, stuck: set<Key>)
    requires GoodRows(rows, c) && Revoked(c, c1, c.peers.Keys - Keys(rows), stuck, true)
    requires Advanced(c1, c2, rows, |rows|) && SettledTo(c1, c2, ups, profiles, rows, |rows|)
    requires Booked(c2) && Admitted(c2)
    requires forall a :: a in c2.assignments && a !in c2.pending ==> c2.assignments[a] != ""
    ensures Converged(c2, ups, profiles, rows)
  {
    hide Unambiguous, Policy.Selected, FindProfile, Candidates;
    forall p | p in rows
      ensures p.key in c2.peers && c2.peers[p.key] == p && p.ip !in c2.pending &&
              Settled(c2, ups, profiles, p, Sticky(c2, p.ip))
    {
      var i :| 0 <= i < |rows| && rows[i] == p;
      assert Settled(c2, ups, profiles, p, Sticky(c1, p.ip));
      Policy.ChoiceStands(FindProfile(profiles, p.profile).value, Candidates(ups), Sticky(c1, p.ip),
                          AssignedTo(c2, p.ip));
      OnBooks(c, c1, c2, rows, stuck, p.key);
    }
    forall k | k in c2.peers ensures k in Keys(rows) && k in c2.dp.k.keys {
      OnBooks(c, c1, c2, rows, stuck, k);
    }
    forall a | a in c2.assignments || a in c2.pending ensures exists p :: p in rows && p.ip == a {
      var k :| k in c2.peers && c2.peers[k].ip == a;
      OnBooks(c, c1, c2, rows, stuck, k);
      var p :| p in rows && p.key == k;
    }
    assert c2.peers.Keys == Keys(rows);
    assert c2.dp.k.keys == c2.peers.Keys;
  }

  lemma OnBooks(c: Control, c1: Control, c2: Control, rows: seq<Peer>, stuck: set<Key>, k: Key)
    requires GoodRows(rows, c) && Revoked(c, c1, c.peers.Keys - Keys(rows), stuck, true)
    requires Advanced(c1, c2, rows, |rows|) && Booked(c2) && k in c2.peers
    ensures k in Keys(rows) && k in c2.dp.k.keys
    ensures forall p :: p in rows && p.key == k ==> c2.peers[k] == p
  {
    hide Unambiguous;
    if k !in c1.peers {
      var j :| 0 <= j < |rows| && rows[j].key == k && c2.peers[k] == rows[j];
      assert rows[j] in rows;
    }
    var p :| p in rows && p.key == k;
    assert k !in c.gone;
  }

  lemma PassFollows(c: Control, c1: Control, c2: Control, ups: seq<Upstream>, profiles: seq<Policy.Profile>,
                    rows: seq<Peer>)
    requires SettledTo(c1, c2, ups, profiles, rows, |rows|)
    requires forall p :: p in rows ==> Sticky(c1, p.ip) == if p.key in c.peers then Sticky(c, p.ip) else ""
    ensures Followed(c, c2, ups, profiles, rows)
  {
    hide Settled;
    forall p | p in rows ensures Settled(c2, ups, profiles, p, if p.key in c.peers then Sticky(c, p.ip) else "") {
      var i :| 0 <= i < |rows| && rows[i] == p;
    }
  }

  /** A flawless pass, from its beginning over the end of its revocations to its end. */
  lemma PassEnds(c: Control, c1: Control, c2: Control, ups: seq<Upstream>, profiles: seq<Policy.Profile>,
                 rows: seq<Peer>, stuck: set<Key>)
    requires GoodRows(rows, c) && Revoked(c, c1, c.peers.Keys - Keys(rows), stuck, true)
    requires Advanced(c1, c2, rows, |rows|)
    requires NewcomersFree(c1.peers, rows) ==>
               SettledTo(c1, c2, ups, profiles, rows, |rows|)
    requires Booked(c) && Admitted(c1) && Booked(c2) && Admitted(c2)
    requires forall a :: a in c2.assignments && a !in c2.pending ==> c2.assignments[a] != ""
    ensures Converged(c2, ups, profiles, rows) && Followed(c, c2, ups, profiles, rows)
  {
    hide *;
    forall p | p in rows
      ensures p.key !in c1.peers ==> !Owned(c1.peers, p.ip)
      ensures Sticky(c1, p.ip) == if p.key in c.peers then Sticky(c, p.ip) else ""
    {
      AfterRevocations(c, c1, rows, stuck, p);
    }
    AllFree(c1.peers, rows);
    PassConverges(c, c1, c2, ups, profiles, rows, stuck);
    PassFollows(c, c1, c2, ups, profiles, rows);
  }

  lemma RevokedFrame(c: Control, c1: Control, rows: seq<Peer>, stuck: set<Key>, ok: bool)
    requires Booked(c) && Revoked(c, c1, c.peers.Keys - Keys(rows), stuck, ok)
    ensures c1.dp.tables == c.dp.tables && (Unambiguous(c1.dp) <==> Unambiguous(c.dp))
  {
    hide Unambiguous;
  }

  /** A row that is on the books is there as itself. */
  lemma OnBooksAs(c: Control, c1: Control, c2: Control, rows: seq<Peer>, j: nat)
    requires GoodRows(rows, c) && Advanced(c1, c2, rows, |rows|) && j < |rows| && rows[j].key in c2.peers
    requires forall k :: k in c1.peers ==> k in c.peers && c1.peers[k] == c.peers[k]
    ensures c2.peers[rows[j].key] == rows[j]
  {
    hide Unambiguous;
    assert rows[j] in rows;
    if rows[j].key !in c1.peers {
      var i :| 0 <= i < |rows| && rows[i].key == rows[j].key && c2.peers[rows[j].key] == rows[i];
      assert i == j;
    }
  }

  lemma PassCharges(c: Control, c1: Control, c2: Control, rows: seq<Peer>, stuck: set<Key>, ok: bool, spent: int)
    requires Booked(c) && Revoked(c, c1, c.peers.Keys - Keys(rows), stuck, ok) && Advanced(c1, c2, rows, |rows|)
    requires GoodRows(rows, c) && Booked(c2) && Charged(c.pending, c1.pending, stuck, spent)
    ensures |stuck| + |Lingering(c, c2, rows)| <= spent
  {
    hide Unambiguous;
    forall a | a in Lingering(c, c2, rows) ensures a in c1.pending - c.pending {
      var k :| k in c2.peers && k !in Keys(rows) && c2.peers[k].ip == a && a in c2.pending && a !in c.pending;
      forall j | 0 <= j < |rows| && rows[j].key in c2.peers ensures rows[j].ip != a {
        assert rows[j] in rows;
        OnBooksAs(c, c1, c2, rows, j);
      }
      assert Alike(c1, c2, a);
    }
    SmallerSet(Lingering(c, c2, rows), c1.pending - c.pending);
  }

  /** What a pass comes to that has used up so many faults. */
  ghost predicate PassDone(c: Control, c': Control, ups: seq<Upstream>, profiles: seq<Policy.Profile>, rows: seq<Peer>,
                           stuck: set<Key>, ok: bool, spent: int)
  {
    && (ok ==> Converged(c', ups, profiles, rows) && Followed(c, c', ups, profiles, rows))
    && (ok ==> forall p :: p in rows && p.key in c.peers ==> Squared(c, c', p.ip))
    && (!ok ==> spent > 0 || Hindered(c.dp, ups, profiles, rows))
    && |stuck| <= spent
    && (forall k :: k !in Keys(rows) ==> (k in c'.dp.k.keys <==> k in c.dp.k.keys && k in stuck))
    && (Unambiguous(c.dp) ==> |stuck| + |Lingering(c, c', rows)| <= spent)
    && c'.dp.k.devices == c.dp.k.devices && c'.dp.k.lm0 == c.dp.k.lm0
    && c'.dp.tables == c.dp.tables && (Unambiguous(c'.dp) <==> Unambiguous(c.dp))
    && (forall k :: k in c'.gone ==> k in c.gone || (k in c.peers && k !in Keys(rows)))
    && (forall k :: k in c'.peers ==> (k in c.peers && c'.peers[k] == c.peers[k]) || c'.peers[k] in rows)
  }

  /** A pass from its beginning over the end of its revocations to its end. */
  lemma PassIsDone(c: Control, c1: Control, c2: Control, ups: seq<Upstream>, profiles: seq<Policy.Profile>,
                   rows: seq<Peer>, stuck: set<Key>, revoked: bool, served: bool, spent: nat, more: nat)
    requires GoodRows(rows, c) && Revoked(c, c1, c.peers.Keys - Keys(rows), stuck, revoked)
    requires Advanced(c1, c2, rows, |rows|)
    requires served && NewcomersFree(c1.peers, rows) ==> SettledTo(c1, c2, ups, profiles, rows, |rows|)
    requires served ==> SquaredTo(c1, c2, rows, |rows|)
    requires Booked(c) && Admitted(c1) && Booked(c2) && Admitted(c2)
    requires forall a :: a in c2.assignments && a !in c2.pending ==> c2.assignments[a] != ""
    requires |stuck| <= spent && (Unambiguous(c.dp) ==> Charged(c.pending, c1.pending, stuck, spent))
    requires !revoked ==> !Unambiguous(c.dp) || spent > 0
    requires !served ==> more > 0 || exists p :: p in rows && Obstructed(c1.dp, ups, profiles, p)
    ensures PassDone(c, c2, ups, profiles, rows, stuck, served && revoked, spent + more)
  {
    hide Squared, SquaredTo, NewcomersFree, Keys, Lingering, Charged, GoodRows, Revoked, Advanced, SettledTo, Converged,
      Followed, Obstructed, Unambiguous, Booked, Admitted;
    RevokedFrame(c, c1, rows, stuck, revoked);
    ObstructedPass(c.dp, c1.dp, ups, profiles, rows);
    PassFrame(c, c1, c2, rows, stuck, revoked);
    if Unambiguous(c.dp) {
      PassCharges(c, c1, c2, rows, stuck, revoked, spent);
    }
    if served && revoked {
      PassSquares(c, c1, c2, rows, stuck, revoked);
      PassEnds(c, c1, c2, ups, profiles, rows, stuck);
    }
  }

  /** What a pass leaves as it was, and who is still on the device. */
  lemma PassFrame(c: Control, c1: Control, c2: Control, rows: seq<Peer>, stuck: set<Key>, ok: bool)
    requires Booked(c) && Revoked(c, c1, c.peers.Keys - Keys(rows), stuck, ok) && Advanced(c1, c2, rows, |rows|)
    ensures c2.dp.tables == c.dp.tables && (Unambiguous(c2.dp) <==> Unambiguous(c.dp))
    ensures forall k :: k in c2.gone ==> k in c.gone || (k in c.peers && k !in Keys(rows))
    ensures forall k :: k in c2.peers ==> (k in c.peers && c2.peers[k] == c.peers[k]) || c2.peers[k] in rows
    ensures c2.dp.k.devices == c.dp.k.devices && c2.dp.k.lm0 == c.dp.k.lm0
    ensures forall k :: k !in Keys(rows) ==> (k in c2.dp.k.keys <==> k in c.dp.k.keys && k in stuck)
  {
    hide Unambiguous;
    forall k | k in c2.dp.k.keys && k !in c1.dp.k.keys ensures k in Keys(rows) {
      var j :| 0 <= j < |rows| && rows[j].key == k;
      assert rows[j] in rows;
    }
  }

  lemma ObstructedPass(d: Dp, d': Dp, ups: seq<Upstream>, profiles: seq<Policy.Profile>, rows: seq<Peer>)
    requires d'.tables == d.tables && (Unambiguous(d') <==> Unambiguous(d))
    ensures forall p :: Obstructed(d', ups, profiles, p) <==> Obstructed(d, ups, profiles, p)
  {
    hide Obstructed, Unambiguous;
    forall p ensures Obstructed(d', ups, profiles, p) <==> Obstructed(d, ups, profiles, p) {
      ObstructedAlike(d, d', ups, profiles, p);
    }
  }

  lemma AtRest(c: Control, ups: seq<Upstream>, profiles: seq<Policy.Profile>, rows: seq<Peer>)
    requires Converged(c, ups, profiles, rows)
    ensures c.peers.Keys <= Keys(rows) && SettledTo(c, c, ups, profiles, rows, |rows|)
  {
    hide Settled;
    assert forall j :: 0 <= j < |rows| ==> rows[j] in rows;
  }

  /** Putting a peer on the books and its key on the device. */
  function Entered(c: Control, p: Peer): Control {
    c.(peers := c.peers[p.key := p], dp := c.dp.(k := Apply(c.dp.k, PeerAdd(p.key))))
  }

  lemma AdvancedSkip(c: Control, c': Control, rows: seq<Peer>, i: nat)
    requires Advanced(c, c', rows, i) && i < |rows|
    ensures Advanced(c, c', rows, i + 1)
  {
    hide Unambiguous;
    forall a | forall j :: 0 <= j < i + 1 && rows[j].key in c'.peers ==> rows[j].ip != a
      ensures Alike(c, c', a)
    {
      assert forall j :: 0 <= j < i && rows[j].key in c'.peers ==> rows[j].ip != a;
    }
  }

  lemma AdvancedEnter(c: Control, c1: Control, rows: seq<Peer>, i: nat)
    requires Advanced(c, c1, rows, i) && i < |rows| && rows[i].key !in c1.peers && !Owned(c1.peers, rows[i].ip)
    ensures var c2 := Entered(c1, rows[i]);
            && c2.stale == c.stale && Advanced(c, c2, rows, i + 1) && c2.peers[rows[i].key] == rows[i]
  {
    hide Unambiguous, PlainsAlike;
    var c2 := Entered(c1, rows[i]);
    EnteredParts(c1, rows[i]);
    AdvancedSkip(c, c1, rows, i);
    forall a | forall j :: 0 <= j < i + 1 && rows[j].key in c2.peers ==> rows[j].ip != a ensures Alike(c, c2, a) {
      assert forall j :: 0 <= j < i + 1 && rows[j].key in c1.peers ==> rows[j].ip != a;
      assert Alike(c, c1, a);
      SameRulesAlike(c1.dp, c2.dp, c.dp, a);
    }
  }

  lemma AdvancedRoute(c: Control, c1: Control, c2: Control, rows: seq<Peer>, i: nat)
    requires i < |rows| && Advanced(c, c1, rows, i + 1) && OnlyAt(c1, c2, rows[i].ip) && rows[i].key in c1.peers
    ensures Advanced(c, c2, rows, i + 1)
  {
    hide Unambiguous, PlainsAlike;
    forall a | forall j :: 0 <= j < i + 1 && rows[j].key in c2.peers ==> rows[j].ip != a ensures Alike(c, c2, a) {
      assert forall j :: 0 <= j < i + 1 && rows[j].key in c1.peers ==> rows[j].ip != a;
      assert Alike(c, c1, a) && Alike(c1, c2, a);
      PlainsAlikeOn(c.dp, c1.dp, c2.dp, a);
    }
  }

  class Daemon {
    const dp: Dataplane
    var cfg: Config
    var ups: seq<Upstream>
    var assignments: map<Addr, string>
    var unroutePending: set<Addr>
    var devicePeers: map<Key, Peer>
    var aliveFailed: set<string>
    var nextDevice: DeviceId
    var downOpen: bool
    ghost var via: map<Addr, DeviceId>
    ghost var torn: set<Addr>
    ghost var gone: set<Key>
    ghost var closed: seq<DeviceId>
    ghost var calls: nat          // of the dataplane
    ghost var unpushed: set<string> // upstreams whose health has not been pushed since they were put into service

    ghost function Ctl(): Control
      reads this, dp, dp.host
    {
      Control(dp.View(), assignments, unroutePending, devicePeers, aliveFailed, via, torn, gone)
    }

    /** What holds at any time, set up or not. */
    ghost predicate Base(live: Live)
      reads this, dp, dp.host
    {
      && dp.Valid() && UniqueRoutes(dp.host.s.routes) && AlwaysSafe(dp.host.init, dp.host.log)
      && Conserved(dp.host.s.devices, closed, nextDevice, live)
    }

    /** The invariant, for the upstreams in service. */
    ghost predicate Steady(live: Live)
      reads this, dp, dp.host
    {
      && dp.Valid() && AlwaysSafe(dp.host.init, dp.host.log)
      && Sound(Ctl(), live)
      && Conserved(dp.host.s.devices, closed, nextDevice, live)
    }

    ghost predicate PinsAreKept()
      reads this, dp, dp.host
    {
      AllPinsKept(dp.View(), aliveFailed + unpushed, ups)
    }

    ghost predicate Running()
      reads this, dp, dp.host
    {
      DistinctUps(ups) && Steady(LiveOf(ups)) && PinsAreKept() && downOpen && dp.down != ""
    }

    /** Before `Start`. */
    ghost predicate Fresh()
      reads this, dp, dp.host
    {
      && dp.Valid() && UniqueRoutes(dp.host.s.routes) && AlwaysSafe(dp.host.init, dp.host.log) && dp.down == ""
      && ups == [] && assignments == map[] && unroutePending == {} && devicePeers == map[] && aliveFailed == {}
      && nextDevice == 0 && !downOpen && torn == {} && gone == {} && closed == [] && unpushed == {}
      && dp.host.s.lm0 == Absent && dp.host.s.keys == {} && dp.host.s.devices == map[]
    }

    /** Whatever `Start` has come to, and ever after. */
    ghost predicate Stoppable()
      reads this, dp, dp.host
    {
      && DistinctUps(ups) && Base(LiveOf(ups))
      && (dp.down == "" ==> dp.host.s.lm0 != LinkUp) && (!downOpen ==> dp.host.s.lm0 == Absent)
    }

    constructor (dp: Dataplane, cfg: Config)
      ensures this.dp == dp && this.cfg == cfg && ups == [] && assignments == map[] && unroutePending == {}
      ensures devicePeers == map[] && aliveFailed == {} && nextDevice == 0 && !downOpen
      ensures torn == {} && gone == {} && closed == [] && unpushed == {}
    {
      this.dp, this.cfg, ups, assignments, unroutePending := dp, cfg, [], map[], {};
      devicePeers, aliveFailed, nextDevice, downOpen := map[], {}, 0, false;
      via, torn, gone, closed, calls, unpushed := map[], {}, {}, [], 0, {};
    }

    /** Keeps both the assignment and the record of unfinished cleanup until every route and pin of the
        address is gone. */
    method Unroute(a: Addr, ghost live: Live) returns (ok: bool)
      requires Steady(live) && Owned(devicePeers, a)
      modifies this`assignments, this`unroutePending, this`torn, this`calls, dp`allowed, dp.host`s, dp.host`faults,
               dp.host`log
      ensures Steady(live) && Ctl() == AfterUnrouteCall(old(Ctl()), dp.View(), a, ok)
      ensures UnrouteEffect(old(dp.View()), dp.View(), a, ok)
      ensures CoverKept(dp.host.init, old(dp.host.log), dp.host.log, dp.tables)
      ensures HeldKept(dp.host.init, old(dp.host.log), dp.host.log, dp.tables.Values)
      ensures dp.host.faults <= old(dp.host.faults)
      ensures !ok ==> !Unambiguous(old(dp.View())) || dp.host.faults < old(dp.host.faults)
    {
      hide HeldKept, Sound, GoodRules, GoodTables, Guarded, AlwaysSafe, CoverKept, UnroutePlan, Exec, Unambiguous,
        UnrouteEffect, Conserved, Reached, UniqueRoutes;
      ghost var c, before := Ctl(), dp.host.log;
      SoundParts(c, live);
      ghost var n;
      calls := calls + 1;
      ok, n := dp.Unroute(a);
      UnrouteOutcome(dp.host.init, c.dp, dp.View(), a, dp.host.log, before, n, ok);
      UnrouteFrame(c.dp, dp.View(), a, ok);
      UnrouteKeepsSound(c, dp.View(), a, live, ok);
      if !ok {
        unroutePending := unroutePending + {a};
        return;
      }
      unroutePending := unroutePending - {a};
      assignments := assignments - {a};
      torn := torn - {a};
    }

    /** One `Route` call and its bookkeeping. Never made for an address with unfinished cleanup. */
    method Route(a: Addr, name: string, link: string, ghost live: Live) returns (ok: bool)
      requires link == InterfaceName(name) && Steady(live) && Owned(devicePeers, a) && name in live &&
               a !in unroutePending
      requires a in assignments ==> assignments[a] != name
      modifies this`assignments, this`via, this`torn, this`calls, dp`allowed, dp.host`s, dp.host`faults, dp.host`log
      ensures Steady(live) && dp.host.faults <= old(dp.host.faults)
      ensures TornBy(old(torn), torn, old(dp.host.faults) - dp.host.faults)
      ensures CoverKept(dp.host.init, old(dp.host.log), dp.host.log, dp.tables)
      ensures InterfaceName(name) !in dp.tables ==> !ok && Ctl() == old(Ctl())
      ensures InterfaceName(name) in dp.tables ==>
                && Ctl() == AfterRouteCall(old(Ctl()), dp.View(), a, name, live, ok)
                && RouteEffect(old(dp.View()), dp.View(), a, dp.tables[InterfaceName(name)], ok)
                && (!ok ==> !Unambiguous(old(dp.View())) || dp.host.faults < old(dp.host.faults))
    {
      hide AfterRouteCall, TornBy, Doubled, Sound, GoodRules, GoodTables, Guarded, AlwaysSafe, CoverKept, RoutePlan,
        Exec, Unambiguous, RouteEffect, Conserved, Reached, UniqueRoutes;
      ghost var c, before := Ctl(), dp.host.log;
      SoundParts(c, live);
      ghost var n;
      calls := calls + 1;
      ok, n := dp.Route(a, link);
      if InterfaceName(name) !in dp.tables {
        CoverStart(dp.host.init, before, dp.tables);
        NoneTorn(torn, torn, old(dp.host.faults) - dp.host.faults);
        return;
      }
      ghost var table := dp.tables[InterfaceName(name)];
      RouteOutcome(dp.host.init, c.dp, dp.View(), a, table, dp.host.log, before, n, ok);
      RouteFrame(c.dp, dp.View(), a, table, ok);
      RouteKeepsSound(c, dp.View(), a, name, live, ok);
      RouteTears(c, dp.View(), a, name, live, ok, old(dp.host.faults) - dp.host.faults);
      ghost var after := AfterRouteCall(c, dp.View(), a, name, live, ok);
      RouteParts(c, dp.View(), a, name, live, ok);
      torn := after.torn;
      if ok {
        assignments := assignments[a := name];
        via := via[a := live[name]];
      }
    }

    /** The interface of an upstream in service, "" if there is none of that name. */
    method InterfaceOf(name: string) returns (link: string)
      ensures link == if name in UpNames(ups) then InterfaceName(name) else ""
    {
      for i := 0 to |ups|
        invariant forall j :: 0 <= j < i ==> ups[j].conf.name != name
      {
        if ups[i].conf.name == name {
          assert ups[i] in ups;
          return InterfaceName(name);
        }
      }
      link := "";
    }

    /** `Unroute` for an address of the running daemon. */
    method UnroutePeer(a: Addr) returns (ok: bool)
      requires Running() && Owned(devicePeers, a)
      modifies this`assignments, this`unroutePending, this`torn, this`calls, dp`allowed, dp.host`s, dp.host`faults,
               dp.host`log
      ensures Running() && OnlyAt(old(Ctl()), Ctl(), a)
      ensures a in unroutePending <==> !ok
      ensures ok ==> InSync(Ctl(), a)
      ensures AssignedTo(Ctl(), a) == if ok then None else old(AssignedTo(Ctl(), a))
      ensures CoverKept(dp.host.init, old(dp.host.log), dp.host.log, dp.tables)
      ensures dp.host.faults <= old(dp.host.faults)
      ensures TornBy(old(torn), torn, old(dp.host.faults) - dp.host.faults)
      ensures !ok ==> !Unambiguous(old(dp.View())) || dp.host.faults < old(dp.host.faults)
    {
      hide InSync, Steady, UnrouteEffect, OnlyAt, Unambiguous, AllPinsKept, CoverKept, Owned;
      ghost var c := Ctl();
      ok := Unroute(a, LiveOf(ups));
      NoneTorn(c.torn, torn, old(dp.host.faults) - dp.host.faults);
      if ok {
        SyncedAt(a, LiveOf(ups));
      }
      UnrouteOnlyAt(c, dp.View(), a, ok);
      UnrouteKeepsAllPins(c.dp, dp.View(), a, ok, aliveFailed + unpushed, ups);
    }

    /** `Route` for an address of the running daemon. */
    method Assign(a: Addr, name: string, link: string) returns (ok: bool)
      requires link == InterfaceName(name) && Running() && Owned(devicePeers, a) && name in UpNames(ups) &&
               a !in unroutePending
      requires a in assignments ==> assignments[a] != name
      modifies this`assignments, this`via, this`torn, this`calls, dp`allowed, dp.host`s, dp.host`faults, dp.host`log
      ensures Running() && OnlyAt(old(Ctl()), Ctl(), a)
      ensures AssignedTo(Ctl(), a) == if ok then Some(name) else old(AssignedTo(Ctl(), a))
      ensures ok ==> InterfaceName(name) in dp.tables &&
                     (InSync(Ctl(), a) <==> !Doubled(old(dp.View()), a, dp.tables[InterfaceName(name)]))
      ensures CoverKept(dp.host.init, old(dp.host.log), dp.host.log, dp.tables)
      ensures dp.host.faults <= old(dp.host.faults)
      ensures TornBy(old(torn), torn, old(dp.host.faults) - dp.host.faults)
      ensures !ok ==>
                || InterfaceName(name) !in dp.tables || !Unambiguous(old(dp.View()))
                || dp.host.faults < old(dp.host.faults)
    {
      hide InSync, Doubled, AfterRouteCall, TornBy, Steady, RouteEffect, OnlyAt, Unambiguous, AllPinsKept, CoverKept,
        Owned, Sound;
      ghost var c := Ctl();
      LiveNames(ups);
      SteadyParts(LiveOf(ups));
      ok := Route(a, name, link, LiveOf(ups));
      if InterfaceName(name) in dp.tables {
        RouteParts(c, dp.View(), a, name, LiveOf(ups), ok);
      }
      if InterfaceName(name) !in dp.tables {
        OnlyAtStart(c, a);
      } else {
        RouteSyncs(c, dp.View(), a, name, LiveOf(ups), ok);
        RouteOnlyAt(c, dp.View(), a, name, LiveOf(ups), ok);
        RouteKeepsAllPins(c.dp, dp.View(), a, c.dp.tables[InterfaceName(name)], ok, aliveFailed + unpushed, ups);
      }
    }

    lemma SteadyParts(live: Live)
      requires Steady(live)
      ensures GoodDp(dp.View()) && Guarded(dp.View()) && Sound(Ctl(), live)
    {
      SoundParts(Ctl(), live);
    }

    lemma SyncedAt(a: Addr, live: Live)
      requires Steady(live) && a !in unroutePending
      ensures InSync(Ctl(), a) <==> a !in torn
    {
      hide GoodDp, AlwaysSafe, Conserved, InSync, UniqueRoutes;
    }

    /** An assignment without unfinished cleanup is to an upstream in service. */
    lemma AssignedInService(a: Addr)
      requires Running()
      ensures DistinctUps(ups)
      ensures a in assignments && a !in unroutePending ==> assignments[a] in UpNames(ups) && assignments[a] != ""
    {
      hide GoodRules, GoodTables, InSync, AlwaysSafe, Conserved;
      LiveNames(ups);
    }

    /** Gives one peer what `Select` answers, keeping its upstream if cleanup is not pending. */
    method RoutePeer(p: Peer) returns (ok: bool)
      requires Running() && p.key in devicePeers && devicePeers[p.key] == p
      modifies this`assignments, this`unroutePending, this`via, this`torn, this`calls, dp`allowed, dp.host`s,
               dp.host`faults, dp.host`log
      ensures Running() && dp.host.faults <= old(dp.host.faults)
      ensures Turn(old(Ctl()), Ctl(), ups, cfg.profiles, p, ok, old(dp.host.faults) - dp.host.faults)
      ensures CoverKept(dp.host.init, old(dp.host.log), dp.host.log, dp.tables)
      ensures Settled(old(Ctl()), ups, cfg.profiles, p, Sticky(old(Ctl()), p.ip)) ==>
                ok && Ctl() == old(Ctl()) && dp.host.log == old(dp.host.log) && dp.host.faults == old(dp.host.faults)
                && calls == old(calls)
      ensures ok ==> Served(Ctl(), ups, cfg.profiles, p, Sticky(old(Ctl()), p.ip))
      ensures (forall q :: q in cfg.profiles ==> q.name != p.profile) ==>
                !ok && (p.ip in unroutePending || p.ip !in assignments)
    {
      hide Running, OnlyAt, Unambiguous, CoverKept, Turn, TornBy, InSync, Settled, Owned, FindProfile, Served;
      var profile := FindProfile(cfg.profiles, p.profile);
      ProfileIsFirstNamed(cfg.profiles, p.profile);
      ghost var c, log := Ctl(), dp.host.log;
      BookedIsOwned(devicePeers, p);
      if Settled(c, ups, cfg.profiles, p, Sticky(c, p.ip)) {
        SettledProfile(c, ups, cfg.profiles, p, Sticky(c, p.ip));
      }
      if profile == None || p.ip in unroutePending {
        ok := UnroutePeer(p.ip);
        if profile == None || !ok {
          TurnStuck(c, Ctl(), ups, cfg.profiles, p, old(dp.host.faults) - dp.host.faults);
          return false;
        }
        ghost var c1, log1, faults1 := Ctl(), dp.host.log, dp.host.faults;
        OnlyAtParts(c, c1, p.ip);
        ok := Decide(p, profile.value);
        TurnAfter(c, c1, Ctl(), ups, cfg.profiles, p, ok, old(dp.host.faults) - faults1, faults1 - dp.host.faults);
        CoverOn(dp.host.init, log, log1, dp.host.log, dp.tables);
      } else {
        ok := Decide(p, profile.value);
      }
      TurnParts(c, Ctl(), ups, cfg.profiles, p, ok, old(dp.host.faults) - dp.host.faults);
      SettledIsServed(Ctl(), ups, cfg.profiles, p, Sticky(c, p.ip));
    }

    method Decide(p: Peer, profile: Policy.Profile) returns (ok: bool)
      requires Running() && p.key in devicePeers && devicePeers[p.key] == p && p.ip !in unroutePending
      requires FindProfile(cfg.profiles, p.profile) == Some(profile)
      modifies this`assignments, this`unroutePending, this`via, this`torn, this`calls, dp`allowed, dp.host`s,
               dp.host`faults, dp.host`log
      ensures Running() && dp.host.faults <= old(dp.host.faults)
      ensures Turn(old(Ctl()), Ctl(), ups, cfg.profiles, p, ok, old(dp.host.faults) - dp.host.faults)
      ensures CoverKept(dp.host.init, old(dp.host.log), dp.host.log, dp.tables)
      ensures Settled(old(Ctl()), ups, cfg.profiles, p, Sticky(old(Ctl()), p.ip)) ==>
                ok && Ctl() == old(Ctl()) && dp.host.log == old(dp.host.log) && dp.host.faults == old(dp.host.faults)
                && calls == old(calls)
    {
      hide Running, OnlyAt, Unambiguous, CoverKept, Turn, TornBy, InSync, Squared, Doubled, Owned, FindProfile,
        Policy.Selected, Settled, Sticky;
      ghost var c := Ctl();
      BookedIsOwned(devicePeers, p);
      AssignedInService(p.ip);
      var current := if p.ip in assignments then assignments[p.ip] else "";
      var want := Policy.Select(profile, Candidates(ups), current);
      SettledIf(c, ups, cfg.profiles, p, profile, current, want);
      if want == AssignedTo(c, p.ip) {
        TurnStill(c, ups, cfg.profiles, p);
        CoverStart(dp.host.init, dp.host.log, dp.tables);
      }
      if want == None {
        if current == "" {
          return true;
        }
        ok := UnroutePeer(p.ip);
        if ok {
          SquaredGone(c, Ctl(), p.ip);
        }
      } else {
        ChoiceIsLive(profile, ups, current, want);
        if want.value == current {
          return true;
        }
        var link := InterfaceOf(want.value);
        ok := Assign(p.ip, want.value, link);
        if ok {
          SquaredMoved(c, Ctl(), p.ip, want.value);
        }
      }
      TurnMade(c, Ctl(), ups, cfg.profiles, p, profile, ok, old(dp.host.faults) - dp.host.faults);
    }

    /** Nothing is to be done for a peer exactly if they have the answer. */
    lemma SettledIf(c: Control, ups: seq<Upstream>, profiles: seq<Policy.Profile>, p: Peer, profile: Policy.Profile,
                    current: string, want: Option<string>)
      requires p.key in c.peers && p.ip !in c.pending && FindProfile(profiles, p.profile) == Some(profile)
      requires current == if p.ip in c.assignments then c.assignments[p.ip] else ""
      requires Policy.Selected(profile, Candidates(ups), current, want)
      ensures Sticky(c, p.ip) == current && (Settled(c, ups, profiles, p, current) <==> want == AssignedTo(c, p.ip))
    {
      hide Policy.Selected, Candidates, FindProfile;
      forall other | Policy.Selected(profile, Candidates(ups), current, other) ensures other == want {
        Policy.SelectedUnique(profile, Candidates(ups), current, want, other);
      }
    }

    lemma BookedIsOwned(peers: map<Key, Peer>, p: Peer)
      requires p.key in peers && peers[p.key] == p
      ensures Owned(peers, p.ip)
    {
    }

    /** Configures the peer on the device and puts it on the books. */
    method AddPeer(p: Peer) returns (ok: bool)
      requires Running() && p.key !in devicePeers && !Owned(devicePeers, p.ip)
      modifies this`devicePeers, dp.host
      ensures Running() && Ctl() == if ok then Entered(old(Ctl()), p) else old(Ctl())
      ensures CoverKept(dp.host.init, old(dp.host.log), dp.host.log, dp.tables)
      ensures dp.host.faults <= old(dp.host.faults) && (!ok ==> dp.host.faults < old(dp.host.faults))
      ensures Refusing(old(dp.host.refused), dp.host.refused, {})
    {
      hide Refusing, Sound, GoodRules, GoodTables, Conserved, CoverKept, AlwaysSafe, AllPinsKept, Exec, Owned;
      ghost var c, log := Ctl(), dp.host.log;
      SteadyParts(LiveOf(ups));
      SafeNow(dp.host.init, log);
      RefusingOne(dp.host.refused, PeerAdd(p.key));
      ok := dp.host.Configure(PeerAdd(p.key));
      if !ok {
        CoverStart(dp.host.init, log, dp.tables);
        return;
      }
      SafeStep(dp.host.init, log, PeerAdd(p.key));
      CoverStep(dp.host.init, log, PeerAdd(p.key), dp.tables);
      BookKeepsSound(c, p, LiveOf(ups));
      SamePins(c.dp, dp.View(), aliveFailed + unpushed, ups);
      devicePeers := devicePeers[p.key := p];
    }

    /** Takes a key off the device that the store no longer has. */
    method RemovePeer(key: Key) returns (ok: bool)
      requires Running()
      modifies this`gone, dp.host
      ensures Running() && Ctl() == Dismissed(old(Ctl()), key, ok)
      ensures CoverKept(dp.host.init, old(dp.host.log), dp.host.log, dp.tables)
      ensures dp.host.faults <= old(dp.host.faults) && (!ok ==> dp.host.faults < old(dp.host.faults))
      ensures Refusing(old(dp.host.refused), dp.host.refused, if ok then {} else {key})
    {
      hide Refusing, Sound, GoodRules, GoodTables, Conserved, CoverKept, AlwaysSafe, AllPinsKept, Exec;
      ghost var c, log := Ctl(), dp.host.log;
      SteadyParts(LiveOf(ups));
      SafeNow(dp.host.init, log);
      RefusingOne(dp.host.refused, PeerRemove(key));
      ok := dp.host.Configure(PeerRemove(key));
      gone := gone + {key};
      DismissKeepsSound(c, key, LiveOf(ups), ok);
      SamePins(c.dp, dp.View(), aliveFailed + unpushed, ups);
      if !ok {
        CoverStart(dp.host.init, log, dp.tables);
        return;
      }
      SafeStep(dp.host.init, log, PeerRemove(key));
      CoverStep(dp.host.init, log, PeerRemove(key), dp.tables);
    }

    /** Strikes a peer off the books that is off the device and cleaned up. */
    method Strike(key: Key)
      requires Running() && key in devicePeers && key !in dp.host.s.keys
      requires devicePeers[key].ip !in assignments && devicePeers[key].ip !in unroutePending
      modifies this`devicePeers
      ensures Running() && Ctl() == old(Ctl()).(peers := old(devicePeers) - {key})
    {
      hide Sound, GoodRules, GoodTables, Conserved, AlwaysSafe, AllPinsKept;
      StrikeKeepsSound(Ctl(), key, LiveOf(ups));
      devicePeers := devicePeers - {key};
    }

    /** Takes one peer off the device and unroutes it, each attempted whatever became of the other. */
    method RevokeOne(key: Key, ghost c: Control, ghost done: set<Key>, ghost stuck: set<Key>, ghost ok: bool,
                     ghost refused: seq<Op>, ghost spent: nat)
      returns (flawless: bool, ghost stuck': set<Key>)
      requires Running() && Revoked(c, Ctl(), done, stuck, ok) && key in c.peers && key !in done
      requires Refusing(refused, dp.host.refused, stuck)
      requires Unambiguous(c.dp) ==> Charged(c.pending, unroutePending, stuck, spent)
      modifies this`assignments, this`unroutePending, this`devicePeers, this`torn, this`gone, this`calls, dp`allowed,
               dp.host
      ensures Running() && Revoked(c, Ctl(), done + {key}, stuck', ok && flawless)
      ensures CoverKept(dp.host.init, old(dp.host.log), dp.host.log, dp.tables)
      ensures Refusing(refused, dp.host.refused, stuck')
      ensures Unambiguous(c.dp) ==>
                Charged(c.pending, unroutePending, stuck', spent + old(dp.host.faults) - dp.host.faults)
      ensures |stuck'| + dp.host.faults <= |stuck| + old(dp.host.faults) && dp.host.faults <= old(dp.host.faults)
      ensures TornBy(old(torn), torn, old(dp.host.faults) - dp.host.faults)
      ensures !flawless ==> !Unambiguous(c.dp) || dp.host.faults < old(dp.host.faults)
      ensures dp.tables == old(dp.tables)
    {
      hide Charged, TornBy, Refusing, Running, OnlyAt, CoverKept, Revoked, Dismissed, Unambiguous;
      ghost var c1, log := Ctl(), dp.host.log;
      RevokedParts(c, c1, done, stuck, ok, key);
      var p := devicePeers[key];
      var removed := RemovePeer(key);
      DismissedParts(c1, key, removed);
      assert Owned(devicePeers, p.ip);
      ghost var c2, log2, faults2 := Ctl(), dp.host.log, dp.host.faults;
      NoneTorn(c1.torn, torn, old(dp.host.faults) - faults2);
      var clean := UnroutePeer(p.ip);
      TornOn(c1.torn, c2.torn, torn, old(dp.host.faults) - faults2, faults2 - dp.host.faults);
      assert TornBy(c1.torn, torn, old(dp.host.faults) - dp.host.faults);
      CoverOn(dp.host.init, log, log2, dp.host.log, dp.tables);
      OnlyAtParts(c2, Ctl(), p.ip);
      ghost var c3 := Ctl();
      flawless := removed && clean;
      if flawless {
        Strike(key);
      }
      RevokedStep(c, c1, c3, Ctl(), key, done, stuck, removed, clean, ok);
      stuck' := if removed then stuck else stuck + {key};
      if Unambiguous(c.dp) {
        UnroutePends(c2, c3, p.ip);
        ChargedOn(c.pending, c1.pending, unroutePending, p.ip, stuck, stuck', key, spent,
                  old(dp.host.faults) - dp.host.faults);
      }
      RefusingOn(refused, old(dp.host.refused), dp.host.refused, stuck, if removed then {} else {key});
      assert stuck' == stuck + if removed then {} else {key};
    }

    /** Revokes every peer the store no longer has: off the device first, then unrouted, each attempted
        whatever became of the other. Those that fail stay on the books. */
    method Revoke(wanted: set<Key>) returns (ok: bool, ghost stuck: set<Key>)
      requires Running()
      modifies this`assignments, this`unroutePending, this`devicePeers, this`torn, this`gone, this`calls, dp`allowed,
               dp.host
      ensures Running() && Revoked(old(Ctl()), Ctl(), old(devicePeers).Keys - wanted, stuck, ok)
      ensures CoverKept(dp.host.init, old(dp.host.log), dp.host.log, dp.tables)
      ensures Refusing(old(dp.host.refused), dp.host.refused, stuck) && |stuck| + dp.host.faults <= old(dp.host.faults)
      ensures Unambiguous(old(dp.View())) ==>
                Charged(old(unroutePending), unroutePending, stuck, old(dp.host.faults) - dp.host.faults)
      ensures TornBy(old(torn), torn, old(dp.host.faults) - dp.host.faults)
      ensures !ok ==> !Unambiguous(old(dp.View())) || dp.host.faults < old(dp.host.faults)
      ensures old(devicePeers).Keys <= wanted ==>
                ok && Ctl() == old(Ctl()) && dp.host.log == old(dp.host.log) && dp.host.faults == old(dp.host.faults)
                && calls == old(calls)
    {
      hide Handled, Charged, TornBy, Refusing, Running, OnlyAt, CoverKept, Revoked, Dismissed, Unambiguous;
      ghost var c, log := Ctl(), dp.host.log;
      ghost var done: set<Key> := {};
      CoverStart(dp.host.init, log, dp.tables);
      RefusingOne(dp.host.refused, DownstreamUp);
      NoneTorn(torn, torn, 0);
      RevokedStart(c);
      ok, stuck := true, {};
      HandledNone(c.peers.Keys, wanted);
      NothingCharged(c.pending);
      var todo := devicePeers.Keys;
      while todo != {}
        invariant Running() && Revoked(c, Ctl(), done, stuck, ok)
        invariant todo <= c.peers.Keys && done == Handled(c.peers.Keys, todo, wanted)
        invariant CoverKept(dp.host.init, log, dp.host.log, dp.tables)
        invariant Refusing(old(dp.host.refused), dp.host.refused, stuck)
        invariant |stuck| + dp.host.faults <= old(dp.host.faults)
        invariant Unambiguous(c.dp) ==>
                    Charged(c.pending, unroutePending, stuck, old(dp.host.faults) - dp.host.faults)
        invariant TornBy(c.torn, torn, old(dp.host.faults) - dp.host.faults)
        invariant !ok ==> !Unambiguous(c.dp) || dp.host.faults < old(dp.host.faults)
        invariant c.peers.Keys <= wanted ==>
                    && ok && Ctl() == c && dp.host.log == log
                    && dp.host.faults == old(dp.host.faults) && calls == old(calls)
        decreases |todo|
      {
        var key :| key in todo;
        HandledMore(c.peers.Keys, todo, wanted, key);
        todo := todo - {key};
        if key in wanted {
          continue;
        }
        ghost var log1, torn1, faults1 := dp.host.log, torn, dp.host.faults;
        var flawless;
        flawless, stuck := RevokeOne(key, c, done, stuck, ok, old(dp.host.refused), old(dp.host.faults) - faults1);
        CoverOn(dp.host.init, log, log1, dp.host.log, dp.tables);
        TornOn(c.torn, torn1, torn, old(dp.host.faults) - faults1, faults1 - dp.host.faults);
        ok := ok && flawless;
        done := done + {key};
      }
      HandledAll(c.peers.Keys, wanted);
    }

    /** Adds the peer if it is not on the device yet, unless the old peer of its address is still on the
        books, and routes it. `c` is the state in which the pass came to the first row. */
    method ServeOne(rows: seq<Peer>, i: nat, held: set<Addr>, ghost c: Control) returns (ok: bool)
      requires Running() && GoodRows(rows, c) && i < |rows| && Advanced(c, Ctl(), rows, i)
      requires forall a :: a in held <==> Owned(c.peers, a)
      modifies this`assignments, this`unroutePending, this`devicePeers, this`via, this`torn, this`calls,
               dp`allowed, dp.host
      ensures Running() && Advanced(c, Ctl(), rows, i + 1)
      ensures ok && (rows[i].key !in c.peers ==> !Owned(c.peers, rows[i].ip)) &&
              SettledTo(c, old(Ctl()), ups, cfg.profiles, rows, i) ==>
                SettledTo(c, Ctl(), ups, cfg.profiles, rows, i + 1)
      ensures ok && SquaredTo(c, old(Ctl()), rows, i) ==> SquaredTo(c, Ctl(), rows, i + 1)
      ensures CoverKept(dp.host.init, old(dp.host.log), dp.host.log, dp.tables)
      ensures Refusing(old(dp.host.refused), dp.host.refused, {})
      ensures dp.host.faults <= old(dp.host.faults)
      ensures TornBy(old(torn), torn, old(dp.host.faults) - dp.host.faults)
      ensures !ok ==> dp.host.faults < old(dp.host.faults) || Obstructed(c.dp, ups, cfg.profiles, rows[i])
      ensures SettledTo(c, c, ups, cfg.profiles, rows, |rows|) && old(Ctl()) == c ==>
                ok && Ctl() == c && dp.host.log == old(dp.host.log) && dp.host.faults == old(dp.host.faults)
                && calls == old(calls)
    {
      hide Squared, SquaredTo, Alike, Running, OnlyAt, CoverKept, Advanced, Settled, SettledTo, GoodRows, Entered,
        Unambiguous, Obstructed, Owned, TornBy, Turn, Refusing;
      var p := rows[i];
      ghost var c1, log1 := Ctl(), dp.host.log;
      NextRow(c, c1, rows, i);
      RowsDiffer(rows, c, i);
      AdvancedSkip(c, c1, rows, i);
      SettledOnBooks(c, ups, cfg.profiles, rows, i);
      CoverStart(dp.host.init, log1, dp.tables);
      RefusingOne(dp.host.refused, DownstreamUp);
      NoneTorn(torn, torn, 0);
      if p.key !in devicePeers {
        if p.ip in held {
          if SquaredTo(c, c1, rows, i) {
            SquaredMore(c, c1, rows, i);
          }
          return true;
        }
        var added := AddPeer(p);
        NoneTorn(torn, torn, old(dp.host.faults) - dp.host.faults);
        if !added {
          return false;
        }
        AdvancedEnter(c, c1, rows, i);
        EnteredParts(c1, p);
        if SettledTo(c, c1, ups, cfg.profiles, rows, i) {
          SettledOn(c, c1, Ctl(), ups, cfg.profiles, rows, i);
        }
      }
      ghost var c2, log2, faults2 := Ctl(), dp.host.log, dp.host.faults;
      ObstructedAlike(c.dp, c2.dp, ups, cfg.profiles, p);
      ok := RoutePeer(p);
      TurnParts(c2, Ctl(), ups, cfg.profiles, p, ok, faults2 - dp.host.faults);
      TornOn(c1.torn, c2.torn, torn, old(dp.host.faults) - faults2, faults2 - dp.host.faults);
      if ok && SquaredTo(c, c1, rows, i) {
        ServedSquared(c, c1, c2, Ctl(), rows, i);
      }
      AdvancedRoute(c, c2, Ctl(), rows, i);
      CoverOn(dp.host.init, log1, log2, dp.host.log, dp.tables);
      if SettledTo(c, c2, ups, cfg.profiles, rows, i) {
        SettledOn(c, c2, Ctl(), ups, cfg.profiles, rows, i);
        if ok {
          SettledMore(c, Ctl(), ups, cfg.profiles, rows, i);
        }
      }
    }

    /** Serves every row in turn. A new peer is left out if its address is on the books already, because
        the old peer of the address is not cleaned up yet. */
    method Serve(rows: seq<Peer>) returns (ok: bool)
      requires Running() && GoodRows(rows, Ctl())
      modifies this`assignments, this`unroutePending, this`devicePeers, this`via, this`torn, this`calls,
               dp`allowed, dp.host
      ensures Running() && Advanced(old(Ctl()), Ctl(), rows, |rows|)
      ensures ok && NewcomersFree(old(devicePeers), rows) ==>
                SettledTo(old(Ctl()), Ctl(), ups, cfg.profiles, rows, |rows|)
      ensures ok ==> SquaredTo(old(Ctl()), Ctl(), rows, |rows|)
      ensures CoverKept(dp.host.init, old(dp.host.log), dp.host.log, dp.tables)
      ensures Refusing(old(dp.host.refused), dp.host.refused, {})
      ensures dp.host.faults <= old(dp.host.faults)
      ensures TornBy(old(torn), torn, old(dp.host.faults) - dp.host.faults)
      ensures !ok ==> dp.host.faults < old(dp.host.faults) ||
                      exists p :: p in rows && Obstructed(old(dp.View()), ups, cfg.profiles, p)
      ensures SettledTo(old(Ctl()), old(Ctl()), ups, cfg.profiles, rows, |rows|) ==>
                ok && Ctl() == old(Ctl()) && dp.host.log == old(dp.host.log) && dp.host.faults == old(dp.host.faults)
                && calls == old(calls)
    {
      hide SquaredTo, Sticky, Running, OnlyAt, CoverKept, Advanced, Settled, GoodRows, Entered, Unambiguous,
        Obstructed, Owned, TornBy, Refusing, SettledTo, NewcomersFree;
      ghost var c, log := Ctl(), dp.host.log;
      var held := set k | k in devicePeers :: devicePeers[k].ip;
      HeldAreOwned(devicePeers, held);
      ok := true;
      CoverStart(dp.host.init, log, dp.tables);
      AdvancedStart(c, rows);
      SquaredNone(c, rows);
      SettledStart(c, ups, cfg.profiles, rows);
      RefusingOne(dp.host.refused, DownstreamUp);
      NoneTorn(torn, torn, 0);
      for i := 0 to |rows|
        invariant Running() && Advanced(c, Ctl(), rows, i)
        invariant ok && NewcomersFree(c.peers, rows) ==>
                    SettledTo(c, Ctl(), ups, cfg.profiles, rows, i)
        invariant ok ==> SquaredTo(c, Ctl(), rows, i)
        invariant CoverKept(dp.host.init, log, dp.host.log, dp.tables)
        invariant Refusing(old(dp.host.refused), dp.host.refused, {})
        invariant dp.host.faults <= old(dp.host.faults)
        invariant TornBy(c.torn, torn, old(dp.host.faults) - dp.host.faults)
        invariant !ok ==> dp.host.faults < old(dp.host.faults) ||
                          exists p :: p in rows && Obstructed(c.dp, ups, cfg.profiles, p)
        invariant SettledTo(c, c, ups, cfg.profiles, rows, |rows|) ==>
                    ok && Ctl() == c && dp.host.log == log && dp.host.faults == old(dp.host.faults)
                    && calls == old(calls)
      {
        ghost var log1, torn1, faults1, refused1 := dp.host.log, torn, dp.host.faults, dp.host.refused;
        var served := ServeOne(rows, i, held, c);
        CoverOn(dp.host.init, log, log1, dp.host.log, dp.tables);
        RefusingOn(old(dp.host.refused), refused1, dp.host.refused, {}, {});
        TornOn(c.torn, torn1, torn, old(dp.host.faults) - faults1, faults1 - dp.host.faults);
        NewcomerFree(c.peers, rows, i);
        ok := ok && served;
      }
    }

    /** Lists the peers, which may fail. */
    method ReadStore() returns (ok: bool)
      requires Running()
      modifies dp.host`s, dp.host`faults, dp.host`log
      ensures Running() && Ctl() == old(Ctl()) && dp.host.log == old(dp.host.log)
      ensures if ok then dp.host.faults == old(dp.host.faults) else dp.host.faults < old(dp.host.faults)
    {
      hide Sound, GoodDp, AlwaysSafe, Conserved, AllPinsKept;
      ok := dp.host.Query();
    }

    lemma RunningParts()
      requires Running()
      ensures Booked(Ctl()) && Admitted(Ctl())
      ensures forall a :: a in assignments && a !in unroutePending ==> assignments[a] != ""
    {
      hide GoodRules, GoodTables, AlwaysSafe, Conserved, AllPinsKept, Synced, UniqueRoutes;
      LiveNames(ups);
    }

    /**
     * Makes the device and the kernel follow the store, the health of the upstreams and the
     * configuration. `listed` says whether the store could be read.
     *
     * A pass that succeeds converges. One that fails has used up a fault, unless something obstructs
     * it. Once converged, a pass does nothing, and makes no call to the dataplane.
     *
     * Of the keys that the store no longer has, exactly those stay on the device whose removal the
     * device refused, whatever became of their routes. Every newly torn address used a fault of its own.
     */
    method Reconcile(rows: seq<Peer>) returns (ok: bool, ghost listed: bool, ghost stuck: set<Key>)
      requires Running() && GoodRows(rows, Ctl())
      modifies this`assignments, this`unroutePending, this`devicePeers, this`via, this`torn, this`gone, this`calls,
               dp`allowed, dp.host
      ensures Running() && dp.host.faults <= old(dp.host.faults)
      ensures CoverKept(dp.host.init, old(dp.host.log), dp.host.log, dp.tables)
      ensures ok ==> Converged(Ctl(), ups, cfg.profiles, rows) && Followed(old(Ctl()), Ctl(), ups, cfg.profiles, rows)
      ensures ok ==> forall p :: p in rows && p.key in old(devicePeers) ==> Squared(old(Ctl()), Ctl(), p.ip)
      ensures !ok ==> dp.host.faults < old(dp.host.faults) || Hindered(old(dp.View()), ups, cfg.profiles, rows)
      ensures !listed ==>
                !ok && Ctl() == old(Ctl()) && dp.host.log == old(dp.host.log) && dp.host.faults < old(dp.host.faults)
      ensures listed ==>
                && Refusing(old(dp.host.refused), dp.host.refused, stuck)
                && |stuck| <= old(dp.host.faults) - dp.host.faults
                && forall k :: k !in Keys(rows) ==> (k in dp.host.s.keys <==> k in old(dp.host.s.keys) && k in stuck)
      ensures listed && Unambiguous(old(dp.View())) ==>
                |stuck| + |Lingering(old(Ctl()), Ctl(), rows)| <= old(dp.host.faults) - dp.host.faults
      ensures TornBy(old(torn), torn, old(dp.host.faults) - dp.host.faults)
      ensures Converged(old(Ctl()), ups, cfg.profiles, rows) ==>
                (ok || !listed) && Ctl() == old(Ctl()) && dp.host.log == old(dp.host.log) && calls == old(calls)
      ensures dp.host.s.devices == old(dp.host.s.devices) && dp.host.s.lm0 == old(dp.host.s.lm0)
      ensures dp.tables == old(dp.tables) && (Unambiguous(dp.View()) <==> Unambiguous(old(dp.View())))
      ensures forall k :: k in gone ==> k in old(gone) || (k in old(devicePeers) && k !in Keys(rows))
      ensures forall k :: k in devicePeers ==>
                (k in old(devicePeers) && devicePeers[k] == old(devicePeers)[k]) || devicePeers[k] in rows
    {
      hide Running, CoverKept, Refusing, TornBy, Converged, Followed, Squared, Lingering, Keys, Unambiguous, Hindered,
        GoodRows;
      stuck := {};
      CoverStart(dp.host.init, dp.host.log, dp.tables);
      ok := ReadStore();
      listed := ok;
      NoneTorn(torn, torn, old(dp.host.faults) - dp.host.faults);
      if ok {
        ok, stuck := Pass(rows);
      }
    }

    /** A pass over rows that have been read. */
    method Pass(rows: seq<Peer>) returns (ok: bool, ghost stuck: set<Key>)
      requires Running() && GoodRows(rows, Ctl())
      modifies this`assignments, this`unroutePending, this`devicePeers, this`via, this`torn, this`gone, this`calls,
               dp`allowed, dp.host
      ensures Running() && dp.host.faults <= old(dp.host.faults)
      ensures CoverKept(dp.host.init, old(dp.host.log), dp.host.log, dp.tables)
      ensures Refusing(old(dp.host.refused), dp.host.refused, stuck)
      ensures TornBy(old(torn), torn, old(dp.host.faults) - dp.host.faults)
      ensures PassDone(old(Ctl()), Ctl(), ups, cfg.profiles, rows, stuck, ok, old(dp.host.faults) - dp.host.faults)
      ensures Converged(old(Ctl()), ups, cfg.profiles, rows) ==>
                ok && Ctl() == old(Ctl()) && dp.host.log == old(dp.host.log) && calls == old(calls)
    {
      hide SquaredTo, NewcomersFree, Keys, Charged, TornBy, Refusing, Running, CoverKept, GoodRows, Revoked, Advanced,
        SettledTo, Converged, Obstructed, Unambiguous, Booked, Admitted, PassDone;
      ghost var c, log := Ctl(), dp.host.log;
      if Converged(c, ups, cfg.profiles, rows) {
        AtRest(c, ups, cfg.profiles, rows);
      }
      RunningParts();
      var revoked;
      revoked, stuck := Revoke(Keys(rows));
      ghost var c1, log1, refused1, faults1 := Ctl(), dp.host.log, dp.host.refused, dp.host.faults;
      RunningParts();
      RowsStayGood(c, c1, rows, stuck, revoked);
      var served := Serve(rows);
      ok := served && revoked;
      CoverOn(dp.host.init, log, log1, dp.host.log, dp.tables);
      RefusingOn(old(dp.host.refused), refused1, dp.host.refused, stuck, {});
      assert stuck + {} == stuck;
      TornOn(c.torn, c1.torn, torn, old(dp.host.faults) - faults1, faults1 - dp.host.faults);
      RunningParts();
      PassIsDone(c, c1, Ctl(), ups, cfg.profiles, rows, stuck, revoked, served, old(dp.host.faults) - faults1,
                 faults1 - dp.host.faults);
    }

    // -------------------------------------------------------------- Health

    /** Pushes the observed health to the dataplane, and remembers whether that failed. */
    method ApplyAlive(u: Upstream, ghost live: Live) returns (ok: bool)
      requires Steady(live)
      modifies this`aliveFailed, this`unpushed, this`calls, dp`alive, dp.host
      ensures Steady(live) && Ctl() == old(Ctl()).(dp := dp.View(), stale := aliveFailed)
      ensures aliveFailed == if ok then old(aliveFailed) - {u.conf.name} else old(aliveFailed) + {u.conf.name}
      ensures unpushed == old(unpushed) - {u.conf.name}
      ensures AliveEffect(old(dp.View()), dp.View(), InterfaceName(u.conf.name), u.track.state == Health.Up, ok)
      ensures ok ==> InterfaceName(u.conf.name) in dp.tables
      ensures !ok ==>
                || InterfaceName(u.conf.name) !in dp.tables || !Unambiguous(old(dp.View()))
                || dp.host.faults < old(dp.host.faults)
      ensures CoverKept(dp.host.init, old(dp.host.log), dp.host.log, dp.tables)
      ensures HeldKept(dp.host.init, old(dp.host.log), dp.host.log, dp.tables.Values)
      ensures dp.host.faults <= old(dp.host.faults)
      ensures ok ==> dp.host.faults == old(dp.host.faults)
    {
      hide Sound, GoodRules, GoodTables, Guarded, AlwaysSafe, CoverKept, HeldKept, UnpinPlan, Exec, Unambiguous,
        AliveEffect, Conserved, Reached, UniqueRoutes;
      ghost var c, before := Ctl(), dp.host.log;
      SoundParts(c, live);
      var name, up := InterfaceName(u.conf.name), u.track.state == Health.Up;
      ghost var n;
      calls := calls + 1;
      ok, n := dp.SetAlive(name, up);
      aliveFailed := if ok then aliveFailed - {u.conf.name} else aliveFailed + {u.conf.name};
      unpushed := unpushed - {u.conf.name};
      AliveOutcome(dp.host.init, c.dp, dp.View(), name, up, dp.host.log, before, n, ok);
      AliveKeepsSound(c, dp.View(), name, up, ok, aliveFailed, live);
    }

    /** Feeds the outcome of a probe to the tracker, and pushes the health if it changed or an earlier push
        failed. */
    method Observe(i: nat, success: bool, latency: int) returns (ok: bool)
      requires Running() && i < |ups|
      modifies this`ups, this`aliveFailed, this`unpushed, this`calls, dp`alive, dp.host
      ensures Running() && dp.host.faults <= old(dp.host.faults)
      ensures ups == old(ups)[i := old(ups)[i].(track := old(ups)[i].track.Observe(success, latency))]
      ensures Ctl() == old(Ctl()).(dp := dp.View(), stale := aliveFailed)
      ensures var name := old(ups)[i].conf.name;
              if ups[i].track.state == old(ups)[i].track.state && name !in old(aliveFailed)
              then ok && Ctl() == old(Ctl()) && calls == old(calls)
              else && AliveEffect(old(dp.View()), dp.View(), InterfaceName(name), ups[i].track.state == Health.Up, ok)
                   && aliveFailed == (if ok then old(aliveFailed) - {name} else old(aliveFailed) + {name})
                   && unpushed == old(unpushed) - {name}
      ensures CoverKept(dp.host.init, old(dp.host.log), dp.host.log, dp.tables)
    {
      hide Sound, GoodRules, GoodTables, AlwaysSafe, Conserved, AliveEffect, CoverKept, AllPinsKept, PinsKept;
      ghost var c, before, excused := Ctl(), ups, aliveFailed + unpushed;
      CoverStart(dp.host.init, dp.host.log, dp.tables);
      var u := ups[i].(track := ups[i].track.Observe(success, latency));
      var changed := u.track.state != ups[i].track.state;
      ups := ups[i := u];
      LiveSame(before, ups);
      SameNames(before, ups);
      ok := true;
      if changed || u.conf.name in aliveFailed {
        ok := ApplyAlive(u, LiveOf(ups));
        assert aliveFailed + unpushed == if ok then excused - {u.conf.name} else excused + {u.conf.name};
        ProbeKeepsPins(c.dp, dp.View(), before, ups, i, ok, excused, aliveFailed + unpushed);
      } else {
        QuietProbe(c.dp, before, ups, i, excused);
      }
    }

    /** A probe of an upstream in service has come back. If it failed, the endpoint is resolved again. */
    method ProbeDone(i: nat, success: bool, latency: int) returns (ok: bool)
      requires Running() && i < |ups|
      modifies this`ups, this`aliveFailed, this`unpushed, this`calls, dp`alive, dp.host
      ensures Running() && dp.host.faults <= old(dp.host.faults)
      ensures ups == old(ups)[i := old(ups)[i].(track := old(ups)[i].track.Observe(success, latency))]
      ensures Ctl() == old(Ctl()).(dp := dp.View(), stale := aliveFailed)
      ensures var name := old(ups)[i].conf.name;
              if ups[i].track.state == old(ups)[i].track.state && name !in old(aliveFailed)
              then ok && Ctl() == old(Ctl()) && calls == old(calls)
              else && AliveEffect(old(dp.View()), dp.View(), InterfaceName(name), ups[i].track.state == Health.Up, ok)
                   && aliveFailed == (if ok then old(aliveFailed) - {name} else old(aliveFailed) + {name})
                   && unpushed == old(unpushed) - {name}
      ensures CoverKept(dp.host.init, old(dp.host.log), dp.host.log, dp.tables)
    {
      hide Running, AliveEffect, CoverKept;
      ok := Observe(i, success, latency);
      if !success {
        Resolve();
      }
    }

    /** Resolving an endpoint again; a failure is only logged. */
    method Resolve()
      requires Running()
      modifies dp.host`faults
      ensures Running() && Ctl() == old(Ctl()) && dp.host.faults <= old(dp.host.faults)
    {
      hide Sound, GoodDp, AlwaysSafe, Conserved, AllPinsKept;
      var ok := dp.host.Query();
    }

    // -------------------------------------------------------------- Upstreams

    /** Takes an upstream out of service. Its peers are unrouted; one for whom that fails stays pending.
        Nothing happens to other peers. */
    method DropUpstream(u: Upstream, ghost live: Live)
      requires Steady(live) && u.conf.name in live && live[u.conf.name] == u.id
      modifies this`assignments, this`unroutePending, this`aliveFailed, this`torn, this`calls, this`closed, dp`allowed,
               dp.host
      ensures HeldKept(dp.host.init, old(dp.host.log), dp.host.log, dp.tables.Values)
      ensures Steady(live - {u.conf.name}) && Dropping(old(Ctl()), Ctl(), {u.conf.name})
      ensures closed == old(closed) + [u.id] && aliveFailed == old(aliveFailed) - {u.conf.name}
      ensures dp.host.faults <= old(dp.host.faults)
    {
      hide Sound, GoodRules, GoodTables, AlwaysSafe, Conserved, UnrouteEffect, CoverKept, Unambiguous, Dropping, Apply,
        Exec, HeldKept;
      ghost var c, log := Ctl(), dp.host.log;
      HeldStart(dp.host.init, log, dp.tables.Values);
      DroppingStart(c, {u.conf.name});
      var todo := set a | a in assignments && assignments[a] == u.conf.name;
      while todo != {}
        invariant HeldKept(dp.host.init, log, dp.host.log, dp.tables.Values)
        invariant Steady(live) && Dropping(c, Ctl(), {u.conf.name}) && dp.host.faults <= old(dp.host.faults)
        invariant forall a :: a in assignments && assignments[a] == u.conf.name ==> a in todo || a in unroutePending
        invariant forall a :: a in todo ==> a in assignments && assignments[a] == u.conf.name
        invariant todo <= assignments.Keys && closed == old(closed) && aliveFailed == old(aliveFailed)
        decreases |todo|
      {
        var a :| a in todo;
        todo := todo - {a};
        ghost var c1, log1 := Ctl(), dp.host.log;
        AssignedAreOwned(c1, live, a);
        var unrouted := Unroute(a, live);
        HeldOn(dp.host.init, log, log1, dp.host.log, dp.tables.Values);
        DroppingUnroutes(c, c1, dp.View(), a, live, unrouted, {u.conf.name});
      }
      ghost var log2 := dp.host.log;
      CloseDevice(u.conf.name, u.id, live, c, {u.conf.name});
      HeldOn(dp.host.init, log, log2, dp.host.log, dp.tables.Values);
    }

    method CloseDevice(name: string, id: DeviceId, ghost live: Live, ghost c: Control, ghost dropped: set<string>)
      requires Steady(live) && name in live && live[name] == id && Dropping(c, Ctl(), dropped) && name in dropped
      requires forall a :: a in assignments && assignments[a] == name ==> a in unroutePending
      modifies this`aliveFailed, this`closed, dp.host
      ensures HeldKept(dp.host.init, old(dp.host.log), dp.host.log, dp.tables.Values)
      ensures Steady(live - {name}) && Dropping(c, Ctl(), dropped)
      ensures closed == old(closed) + [id] && dp.host.faults == old(dp.host.faults)
      ensures aliveFailed == old(aliveFailed) - {name}
    {
      hide Sound, GoodDp, UniqueRoutes, AlwaysSafe, Conserved, Dropping, DevicesOnly;
      ghost var c1 := Ctl();
      SoundParts(c1, live);
      aliveFailed := aliveFailed - {name};
      DropKeepsSound(c1, name, live, aliveFailed);
      DroppingDevices(c, c1, c1.dp.k, aliveFailed, dropped);
      ghost var c2 := Ctl();
      Discard(name, id, live);
      DevicesOnlyKeep(c, c2, Ctl(), live - {name}, dropped);
    }

    /** Loads a provider file and opens its device. */
    method OpenUpstream(conf: Policy.Upstream, down: int, up: int, files: Files, ghost live: Live)
      returns (ok: bool, u: Upstream)
      requires Base(live) && conf.name !in live
      modifies this`nextDevice, this`closed, dp.host
      ensures HeldKept(dp.host.init, old(dp.host.log), dp.host.log, dp.tables.Values)
      ensures DevicesOnly(old(Ctl()), Ctl()) && dp.host.faults <= old(dp.host.faults) && old(nextDevice) <= nextDevice
      ensures if ok then Base(live[conf.name := u.id]) else Base(live)
      ensures ok ==>
                && u == Upstream(conf, Content(files, conf.conf), u.addr, old(nextDevice), Health.New(down, up))
                && Loaded(u, files) && dp.host.s.routes == old(dp.host.s.routes)
      ensures !ok ==> dp.host.faults < old(dp.host.faults) || !Accepted(conf, files)
      ensures ok ==> dp.host.faults == old(dp.host.faults)
    {
      hide GoodDp, UniqueRoutes, AlwaysSafe, Conserved, Exec, HeldKept;
      HeldStart(dp.host.init, dp.host.log, dp.tables.Values);
      u := Upstream(conf, Content(files, conf.conf), 0, nextDevice, Health.New(down, up));
      if conf.conf !in files || !files[conf.conf].valid {
        return false, u;
      }
      u := u.(addr := files[conf.conf].addr);
      ok := dp.host.Query(); // resolve the endpoint
      if !ok {
        return;
      }
      ghost var log := dp.host.log;
      ok := OpenDevice(conf.name, live);
      if !ok {
        return;
      }
      ok := dp.host.Query(); // configure it
      if !ok {
        ghost var log1 := dp.host.log;
        Discard(conf.name, u.id, live[conf.name := u.id]);
        HeldOn(dp.host.init, log, log1, dp.host.log, dp.tables.Values);
        assert live[conf.name := u.id] - {conf.name} == live;
      }
    }

    method OpenDevice(name: string, ghost live: Live) returns (ok: bool)
      requires Base(live) && name !in live
      modifies this`nextDevice, dp.host
      ensures HeldKept(dp.host.init, old(dp.host.log), dp.host.log, dp.tables.Values)
      ensures DevicesOnly(old(Ctl()), Ctl()) && dp.host.faults <= old(dp.host.faults)
      ensures !ok ==> Base(live) && nextDevice == old(nextDevice)
      ensures ok ==> Base(live[name := old(nextDevice)]) && nextDevice == old(nextDevice) + 1
      ensures dp.host.s.routes == old(dp.host.s.routes) && (!ok ==> dp.host.faults < old(dp.host.faults))
      ensures ok ==> dp.host.faults == old(dp.host.faults)
    {
      hide GoodRules, GoodTables, UniqueRoutes, AlwaysSafe, Conserved, Exec;
      ghost var log := dp.host.log;
      OpenConserves(dp.host.s.devices, closed, nextDevice, live, name);
      SafeNow(dp.host.init, log);
      ok := dp.host.Do(DeviceOpen(nextDevice, InterfaceName(name)));
      HeldStart(dp.host.init, log, dp.tables.Values);
      if ok {
        HeldStep(dp.host.init, log, DeviceOpen(old(nextDevice), InterfaceName(name)), dp.tables.Values);
        SafeStep(dp.host.init, log, DeviceOpen(nextDevice, InterfaceName(name)));
        nextDevice := nextDevice + 1;
      }
    }

    /** Closes a device for good. */
    method Discard(name: string, id: DeviceId, ghost live: Live)
      requires Base(live) && name in live && live[name] == id
      modifies this`closed, dp.host
      ensures HeldKept(dp.host.init, old(dp.host.log), dp.host.log, dp.tables.Values)
      ensures Base(live - {name}) && DevicesOnly(old(Ctl()), Ctl()) && dp.host.faults == old(dp.host.faults)
      ensures closed == old(closed) + [id]
    {
      hide GoodRules, GoodTables, AlwaysSafe, Conserved, Exec;
      ghost var log := dp.host.log;
      SafeNow(dp.host.init, log);
      CloseConserves(dp.host.s.devices, closed, nextDevice, live, name);
      dp.host.Close(DeviceClose(id));
      closed := closed + [id];
      HeldStep(dp.host.init, log, DeviceClose(id), dp.tables.Values);
      SafeStep(dp.host.init, log, DeviceClose(id));
    }

    /** `OpenUpstream` while the daemon is running. */
    method TakeUp(conf: Policy.Upstream, down: int, up: int, files: Files, ghost live: Live, ghost c: Control,
                  ghost dropped: set<string>)
      returns (ok: bool, u: Upstream)
      requires Steady(live) && conf.name !in live && Dropping(c, Ctl(), dropped)
      modifies this`nextDevice, this`closed, dp.host
      ensures HeldKept(dp.host.init, old(dp.host.log), dp.host.log, dp.tables.Values)
      ensures Dropping(c, Ctl(), dropped) && dp.host.faults <= old(dp.host.faults) && old(nextDevice) <= nextDevice
      ensures if ok then Steady(live[conf.name := u.id]) else Steady(live)
      ensures ok ==>
                && u == Upstream(conf, Content(files, conf.conf), u.addr, old(nextDevice), Health.New(down, up))
                && Loaded(u, files)
      ensures !ok ==> dp.host.faults < old(dp.host.faults) || !Accepted(conf, files)
      ensures ok ==> dp.host.faults == old(dp.host.faults)
    {
      hide Accepted, Sound, GoodDp, UniqueRoutes, AlwaysSafe, Conserved, Dropping, DevicesOnly;
      ghost var c1 := Ctl();
      SoundParts(c1, live);
      ok, u := OpenUpstream(conf, down, up, files, live);
      DevicesOnlyKeep(c, c1, Ctl(), live, dropped);
      if ok {
        OpenKeepsSound(Ctl(), conf.name, u.id, live);
      }
    }

    /** Tells the dataplane which upstreams are in service. */
    method SetDataplane() returns (ok: bool)
      requires Steady(LiveOf(ups))
      modifies this`calls, this`torn, dp`tables, dp`alive, dp.host
      ensures HeldKept(dp.host.init, old(dp.host.log), dp.host.log,
                       KeptTables(old(dp.tables), Interfaces(LiveOf(ups))))
      ensures Steady(LiveOf(ups)) && Ctl() == AfterChange(old(Ctl()), dp.View()) &&
              dp.host.faults <= old(dp.host.faults)
      ensures Changed(old(dp.View()), dp.View(), Interfaces(LiveOf(ups)))
      ensures ok ==>
                Complete(old(dp.View()), dp.View(), Interfaces(LiveOf(ups))) && Probed(dp.View(), InterfaceList(ups))
      ensures Tended(old(dp.View())) ==> Tended(dp.View())
      ensures !ok && DistinctUps(ups) ==>
                dp.host.faults < old(dp.host.faults) || Blocked(old(dp.View()), InterfaceList(ups))
      ensures ok ==> dp.host.faults == old(dp.host.faults)
    {
      hide Tended, AddsNamed, Blocked, Repeated, DistinctUps, Probed, Sound, GoodRules, GoodTables, AlwaysSafe,
        Conserved, Changed, Complete, AddsOwn, Grown, Exec,
        HeldKept, Sparing, GoneTables, KeptTables, InSync;
      ghost var c, log := Ctl(), dp.host.log;
      SoundParts(c, LiveOf(ups));
      InterfaceListNames(ups);
      if DistinctUps(ups) {
        NoneRepeated(ups);
      }
      calls := calls + 1;
      ok := dp.SetUpstreams(InterfaceList(ups));
      ChangeOutcome(dp.host.init, log, dp.host.log, c.dp, dp.View(), Interfaces(LiveOf(ups)));
      ChangedFrame(c.dp, dp.View(), Interfaces(LiveOf(ups)));
      ChangeKeepsSound(c, dp.View(), LiveOf(ups));
      ghost var after := AfterChange(c, dp.View());
      torn := after.torn;
    }

    /** Brings the devices up and pushes the health of every upstream, a fresh one's too: nothing may
        stay pinned to it. */
    method PushHealth() returns (ok: bool)
      requires DistinctUps(ups) && Steady(LiveOf(ups))
      modifies this`aliveFailed, this`unpushed, this`calls, dp`alive, dp.host
      ensures HeldKept(dp.host.init, old(dp.host.log), dp.host.log, dp.tables.Values)
      ensures Steady(LiveOf(ups)) && Ctl() == old(Ctl()).(dp := dp.View(), stale := aliveFailed) &&
              dp.host.faults <= old(dp.host.faults)
      ensures AllPinsKept(dp.View(), aliveFailed, ups) && HealthOnly(old(dp.View()), dp.View(), ups)
      ensures ok ==> forall u :: u in ups ==> u.conf.name !in aliveFailed
      ensures !ok ==>
                || dp.host.faults < old(dp.host.faults) || !Unambiguous(dp.View())
                || exists u :: u in ups && InterfaceName(u.conf.name) !in dp.tables
      ensures ok ==> dp.host.faults == old(dp.host.faults)
    {
      hide Unambiguous, Sound, GoodRules, GoodTables, AlwaysSafe, Conserved, AliveEffect, PinsKept, HealthOnly,
        CoverKept, HeldKept;
      ghost var c, log := Ctl(), dp.host.log;
      HeldStart(dp.host.init, log, dp.tables.Values);
      assert HealthOnly(c.dp, c.dp, ups) by {
        HealthNothing(c.dp, ups);
      }
      ok := true;
      for i := 0 to |ups|
        invariant HeldKept(dp.host.init, log, dp.host.log, dp.tables.Values)
        invariant Steady(LiveOf(ups)) && Ctl() == c.(dp := dp.View(), stale := aliveFailed) &&
          dp.host.faults <= old(dp.host.faults)
        invariant HealthOnly(c.dp, dp.View(), ups)
        invariant ok ==> dp.host.faults == old(dp.host.faults)
        invariant forall j :: 0 <= j < i ==> PinsKept(dp.View(), aliveFailed, ups[j])
        invariant ok ==> forall j :: 0 <= j < i ==> ups[j].conf.name !in aliveFailed
        invariant dp.tables == c.dp.tables
        invariant !ok ==>
            || dp.host.faults < old(dp.host.faults) || !Unambiguous(dp.View())
            || exists u :: u in ups && InterfaceName(u.conf.name) !in dp.tables
      {
        var up := dp.host.Query(); // bring the device up
        ghost var d, stale, log1 := dp.View(), aliveFailed, dp.host.log;
        var applied := ApplyAlive(ups[i], LiveOf(ups));
        HeldOn(dp.host.init, log, log1, dp.host.log, dp.tables.Values);
        HealthOnlyOn(c.dp, d, dp.View(), ups, ups[i], applied);
        AliveKeepsAmbiguity(d, dp.View(), InterfaceName(ups[i].conf.name), ups[i].track.state == Health.Up, applied);
        assert ups[i] in ups;
        AliveSetsPins(d, dp.View(), ups[i], applied, stale);
        forall j | 0 <= j < i ensures PinsKept(dp.View(), aliveFailed, ups[j]) {
          AliveKeepsPins(d, dp.View(), ups[i].conf.name, ups[i].track.state == Health.Up, applied, stale, aliveFailed,
                         ups[j]);
        }
        ok := ok && up && applied;
      }
    }

    /** Goes through the new configuration: carries over what has not changed, replaces what has, opens
        what is new, and takes the rest out of service. */
    method Renew(next: Config, files: Files) returns (ok: bool, kept: seq<Upstream>)
      requires Running() && DistinctConfs(next.upstreams)
      modifies this`assignments, this`unroutePending, this`aliveFailed, this`torn, this`calls, this`closed,
               this`nextDevice, dp`allowed, dp.host
      ensures HeldKept(dp.host.init, old(dp.host.log), dp.host.log, dp.tables.Values)
      ensures Steady(LiveOf(kept)) && DistinctUps(kept)
      ensures Dropping(old(Ctl()), Ctl(), Leavers(ups, next.upstreams, files))
      ensures Renewed(ups, next.upstreams, next.downAfter, next.upAfter, files, kept, |next.upstreams|, old(nextDevice))
      ensures ok <==> UpNames(kept) == ConfNames(next.upstreams)
      ensures dp.host.faults <= old(dp.host.faults)
      ensures Missing(next.upstreams, files, kept, old(dp.host.faults) - dp.host.faults)
    {
      hide *;
      var confs := next.upstreams;
      ghost var c, first, log := Ctl(), nextDevice, dp.host.log;
      HeldStart(dp.host.init, log, dp.tables.Values);
      RunningIsSteady();
      var current := CurrentMap(ups);
      ghost var live: Live := LiveOf(ups);
      TransitStart(ups, confs, current);
      ghost var leavers := Leavers(ups, confs, files);
      DroppingStart(c, leavers);
      RenewedNothing(ups, confs, next.downAfter, next.upAfter, files, first);
      MissingNone(confs, files);
      ok, kept := true, [];
      for i := 0 to |confs|
        invariant HeldKept(dp.host.init, log, dp.host.log, dp.tables.Values)
        invariant InTransit(ups, confs, i, kept, current, live) && Steady(live) && Dropping(c, Ctl(), leavers)
        invariant Renewed(ups, confs, next.downAfter, next.upAfter, files, kept, i, first) && first <= nextDevice
        invariant ok <==> UpNames(kept) == ConfNames(confs[..i])
        invariant dp.host.faults <= old(dp.host.faults)
        invariant Missing(confs[..i], files, kept, old(dp.host.faults) - dp.host.faults)
      {
        var conf := confs[i];
        WhoIsKept(ups, confs, i, kept, current, live, files);
        ConfNamesSnoc(confs, i);
        ghost var current0, live0, c0, log0 := current, live, Ctl(), dp.host.log;
        ghost var kept0, spent0 := kept, old(dp.host.faults) - dp.host.faults;
        SameWith(UpNames(kept), ConfNames(confs[..i]), conf.name);
        if conf.name in current && Unchanged(current[conf.name], conf, files) {
          var u := Kept(current[conf.name], conf, next.downAfter, next.upAfter);
          CarriedOver(ups, confs, next.downAfter, next.upAfter, files, kept, i, first, current, live, u);
          kept := kept + [u];
          current := current - {conf.name};
          MissingNext(confs, i, files, kept0, kept, spent0, spent0);
          continue;
        }
        if conf.name in current {
          DropUpstream(current[conf.name], live);
          ReplacedLeaves(ups, confs, i, kept, current, live, files);
          DroppingOn(c, c0, Ctl(), leavers, {conf.name});
          assert leavers + {conf.name} == leavers;
          HeldOn(dp.host.init, log, log0, dp.host.log, dp.tables.Values);
          current := current - {conf.name};
        } else {
          assert live - {conf.name} == live;
        }
        live := live - {conf.name};
        assert current == current0 - {conf.name};
        ghost var log1 := dp.host.log;
        var done, u := TakeUp(conf, next.downAfter, next.upAfter, files, live, c, leavers);
        HeldOn(dp.host.init, log, log1, dp.host.log, dp.tables.Values);
        if done {
          Opened(ups, confs, next.downAfter, next.upAfter, files, kept, i, first, current0, live0, u);
          Replaced(live0, conf.name, u.id);
          live := live[conf.name := u.id];
          kept := kept + [u];
        } else {
          NotOpened(ups, confs, next.downAfter, next.upAfter, files, kept, i, first, current0, live0);
          ok := false;
        }
        MissingNext(confs, i, files, kept0, kept, spent0, old(dp.host.faults) - dp.host.faults);
      }
      assert confs[..|confs|] == confs;
      TransitDone(ups, confs, kept, current, live);
      RestLeaves(ups, confs, kept, current, live, files);
      ghost var log2 := dp.host.log;
      ghost var spent := old(dp.host.faults) - dp.host.faults;
      DropRest(kept, current, live, c, leavers);
      MissingAtMost(confs, files, kept, spent, old(dp.host.faults) - dp.host.faults);
      HeldOn(dp.host.init, log, log2, dp.host.log, dp.tables.Values);
    }

    /** Takes out of service what the new configuration does not mention. */
    method DropRest(kept: seq<Upstream>, rest: map<string, Upstream>, ghost before: Live, ghost c: Control,
                    ghost leavers: set<string>)
      requires Leaving(kept, rest, before) && DistinctUps(kept) && Steady(before) && Dropping(c, Ctl(), leavers)
      requires rest.Keys <= leavers
      modifies this`assignments, this`unroutePending, this`aliveFailed, this`torn, this`calls, this`closed, dp`allowed,
               dp.host
      ensures HeldKept(dp.host.init, old(dp.host.log), dp.host.log, dp.tables.Values)
      ensures Steady(LiveOf(kept)) && Dropping(c, Ctl(), leavers) && dp.host.faults <= old(dp.host.faults)
    {
      hide *;
      ghost var log := dp.host.log;
      HeldStart(dp.host.init, log, dp.tables.Values);
      var current := rest;
      ghost var live: Live := before;
      while current.Keys != {}
        invariant HeldKept(dp.host.init, log, dp.host.log, dp.tables.Values)
        invariant Leaving(kept, current, live) && Steady(live) && Dropping(c, Ctl(), leavers)
        invariant dp.host.faults <= old(dp.host.faults) && current.Keys <= leavers
        decreases |current.Keys|
      {
        var n :| n in current.Keys;
        ghost var c0, log0 := Ctl(), dp.host.log;
        LeavingParts(kept, current, live, n);
        DropUpstream(current[n], live);
        DroppingOn(c, c0, Ctl(), leavers, {n});
        assert leavers + {n} == leavers;
        HeldOn(dp.host.init, log, log0, dp.host.log, dp.tables.Values);
        LeavingNext(kept, current, live, n);
        current := current - {n};
        live := live - {n};
      }
      assert current == map[];
      LeavingEnd(kept, live);
    }

    /**
     * Applies a new configuration without dropping anyone's tunnel whose upstream is carried over.
     * `reached` says whether the dataplane took the new set of upstreams; if it did not, health is not
     * pushed either.
     */
    method Reload(next: Config, files: Files) returns (ok: bool, ghost reached: bool)
      requires Running() && DistinctConfs(next.upstreams)
      modifies this`cfg, this`ups, this`assignments, this`unroutePending, this`aliveFailed, this`torn, this`calls,
               this`closed, this`nextDevice, this`unpushed, dp`tables, dp`alive, dp`allowed, dp.host
      ensures Continues(old(dp.host.log), dp.host.log)
      ensures Running() && dp.host.faults <= old(dp.host.faults)
      ensures next.fixed != old(cfg.fixed) ==>
                !ok && !reached && cfg == old(cfg) && ups == old(ups) && Ctl() == old(Ctl()) && calls == old(calls)
      ensures next.fixed == old(cfg.fixed) ==>
                && cfg == next
                && Renewed(old(ups), next.upstreams, next.downAfter, next.upAfter, files, ups, |next.upstreams|,
                           old(nextDevice))
      ensures dp.host.s.keys == old(dp.host.s.keys) && dp.host.s.lm0 == old(dp.host.s.lm0) &&
              dp.host.s.peers <= old(dp.host.s.peers)
      ensures reached ==> WiredUp(dp.View(), Interfaces(LiveOf(ups))) && Probed(dp.View(), InterfaceList(ups))
      ensures next.fixed == old(cfg.fixed) ==>
                && (forall a :: a in old(assignments) ==>
                      old(assignments)[a] in Retained(old(ups), next.upstreams, files) ==>
                      Undropped(old(Ctl()), Ctl(), ups, a))
                && (forall a :: a in dp.host.s.peers && a !in unroutePending ==>
                      var stays := StaysCovered(old(Ctl()), Interfaces(LiveOf(ups)), a);
                      && (stays ==> HasPlain(dp.host.s.rules, dp.tables, a))
                      && (reached ==> HasPlain(dp.host.s.rules, dp.tables, a) ==> stays))
      ensures next.fixed == old(cfg.fixed) ==>
                HeldKept(dp.host.init, old(dp.host.log), dp.host.log,
                         KeptTables(old(dp.tables), Interfaces(LiveOf(ups))))
      ensures next.fixed == old(cfg.fixed) ==>
                unpushed == if reached then {}
                            else NotPushed(old(ups), old(aliveFailed), old(unpushed), old(dp.tables), ups,
                                           next.upstreams, files)
      ensures next.fixed == old(cfg.fixed) && !reached ==>
                ReplacedAlike(old(ups), old(aliveFailed) + old(unpushed), Retained(old(ups), next.upstreams, files),
                              dp.View(), aliveFailed, ups)
      ensures ok ==> reached && UpNames(ups) == ConfNames(next.upstreams)
      ensures next.fixed == old(cfg.fixed) ==>
                && Continued(old(ups), next.upstreams, next.downAfter, next.upAfter, files, ups, old(nextDevice))
                && Missing(next.upstreams, files, ups, old(dp.host.faults) - dp.host.faults)
      ensures next.fixed == old(cfg.fixed) && !reached ==>
                dp.host.faults < old(dp.host.faults) || Blocked(old(dp.View()), InterfaceList(ups))
      ensures reached && !ok ==>
                || dp.host.faults < old(dp.host.faults) || !Unambiguous(dp.View())
                || UpNames(ups) != ConfNames(next.upstreams)
      ensures ok ==> forall u :: u in ups ==> u.conf.name !in aliveFailed
      ensures Tended(old(dp.View())) ==> Tended(dp.View())
    {
      hide Blocked, Continued, Missing, Unambiguous, Tended, Probed, Running, Steady, Changed, Complete, Dropping,
        HealthOnly, Renewed, WiredUp, HasPlain, StaysCovered,
        LiveOf, AllPinsKept, DistinctUps, DistinctConfs, GoodDp, Continues, HeldKept, KeptTables, Grounded, NotPushed,
        ReplacedAlike, PinsKept, AddsOwn, InSync, Retained, Interfaces;
      ContinuesStart(dp.host.log);
      reached := false;
      if next.fixed != cfg.fixed {
        return false, false;
      }
      ghost var c, olds, dropped, first := Ctl(), ups, Leavers(ups, next.upstreams, files), nextDevice;
      RunningIsGood();
      RunningPins();
      var renewed, kept := Renew(next, files);
      ghost var c1, log1, spent := Ctl(), dp.host.log, old(dp.host.faults) - dp.host.faults;
      Adopt(kept, next);
      RenewedContinues(olds, next.upstreams, next.downAfter, next.upAfter, files, ups, first);
      SteadyParts(LiveOf(ups));
      ok := SetDataplane();
      ghost var d, log2, keep := dp.View(), dp.host.log, Interfaces(LiveOf(ups));
      MissingAtMost(next.upstreams, files, ups, spent, old(dp.host.faults) - dp.host.faults);
      ghost var kept' := KeptTables(c.dp.tables, keep);
      KeptAreTables(c.dp.tables, keep);
      HeldFewer(dp.host.init, old(dp.host.log), log1, c.dp.tables.Values, kept');
      HeldOn(dp.host.init, old(dp.host.log), log1, log2, kept');
      HeldContinues(dp.host.init, old(dp.host.log), log2, kept');
      if !ok {
        DroppingUnblocks(c, c1, dropped, InterfaceList(ups));
        FewerTended(c, c1, dropped);
        HealthNothing(d, ups);
        ReloadFrame(c, c1, d, d, ups, Interfaces(LiveOf(ups)), dropped);
        ReloadCover(c, c1, d, d, ups, Interfaces(LiveOf(ups)), dropped, false);
        TunnelsStay(c, c1, d, Ctl(), ups, olds, next.upstreams, files);
        ReloadKeepsPins(c, c1, d, olds, ups, next.upstreams, next.downAfter, next.upAfter, files, first, unpushed);
        ReplacedExactly(c, c1, d, olds, ups, next.upstreams, next.downAfter, next.upAfter, files, first, unpushed);
        Mark(NotPushed(olds, c.stale, unpushed, c.dp.tables, ups, next.upstreams, files));
        return;
      }
      reached := true;
      ghost var spent2 := old(dp.host.faults) - dp.host.faults;
      ok := PushHealth();
      AllHaveTables(c1.dp, d, ups);
      FewerTended(c, c1, dropped);
      HealthTended(d, dp.View(), ups);
      MissingAtMost(next.upstreams, files, ups, spent2, old(dp.host.faults) - dp.host.faults);
      KeptStay(c1.dp, d, keep);
      HeldFewer(dp.host.init, log2, dp.host.log, dp.tables.Values, kept');
      HeldOn(dp.host.init, old(dp.host.log), log2, dp.host.log, kept');
      HeldContinues(dp.host.init, old(dp.host.log), dp.host.log, kept');
      ReloadFrame(c, c1, d, dp.View(), ups, Interfaces(LiveOf(ups)), dropped);
      ReloadCover(c, c1, d, dp.View(), ups, Interfaces(LiveOf(ups)), dropped, true);
      TunnelsStay(c, c1, d, Ctl(), ups, olds, next.upstreams, files);
      HealthKeepsProbes(d, dp.View(), ups, InterfaceList(ups));
      assert aliveFailed + {} == aliveFailed;
      Mark({});
      ok := ok && renewed;
    }

    method Adopt(kept: seq<Upstream>, next: Config)
      requires Steady(LiveOf(kept))
      modifies this`ups, this`cfg
      ensures Steady(LiveOf(ups)) && ups == kept && cfg == next && Ctl() == old(Ctl())
    {
      hide Sound, AlwaysSafe, Conserved;
      ups, cfg := kept, next;
    }

    /** Records whose health has not been pushed. */
    ghost method Mark(left: set<string>)
      requires downOpen && dp.down != "" && DistinctUps(ups) && Steady(LiveOf(ups))
      requires AllPinsKept(dp.View(), aliveFailed + left, ups)
      modifies this`unpushed
      ensures Running() && unpushed == left && Ctl() == old(Ctl())
    {
      hide Sound, AlwaysSafe, Conserved, AllPinsKept, DistinctUps;
      unpushed := left;
    }

    lemma RunningPins()
      requires Running()
      ensures Grounded(dp.View()) && DistinctUps(ups) && AllPinsKept(dp.View(), aliveFailed + unpushed, ups)
    {
      hide Grounded, AlwaysSafe, Conserved, AllPinsKept, Synced, UpToDate, Admitted, Booked, LiveOf, DistinctUps;
    }

    lemma RunningIsGood()
      requires Running()
      ensures GoodDp(dp.View()) && downOpen && dp.down != ""
    {
      hide GoodRules, GoodTables, AlwaysSafe, Conserved, AllPinsKept, Synced, UpToDate;
    }

    lemma RunningIsSteady()
      requires Running()
      ensures DistinctUps(ups) && Steady(LiveOf(ups)) && PinsAreKept()
    {
      hide Steady, PinsAreKept;
    }

    lemma RunningIsStoppable()
      requires Running()
      ensures Stoppable()
    {
      hide GoodDp, AlwaysSafe, Conserved, AllPinsKept, Admitted, Booked, UpToDate, Synced, LiveOf;
    }

    // -------------------------------------------------------------- Start and stop

    /** Opens everything, sets the dataplane up, then brings the devices up. */
    method Start(files: Files) returns (ok: bool)
      requires Fresh() && DistinctConfs(cfg.upstreams)
      modifies this, dp, dp.host
      ensures Continues(old(dp.host.log), dp.host.log)
      ensures Stoppable() && cfg == old(cfg)
      ensures ok ==> Running() && devicePeers == map[] && gone == {} && UpNames(ups) == ConfNames(cfg.upstreams)
      ensures ok ==> unpushed == {} && WiredUp(dp.View(), Interfaces(LiveOf(ups))) && dp.host.s.lm0 == LinkUp
      ensures ok ==> Renewed([], cfg.upstreams, cfg.downAfter, cfg.upAfter, files, ups, |cfg.upstreams|, 0)
      ensures ok ==> Probed(dp.View(), InterfaceList(ups))
      ensures ok ==> Resettled(old(dp.host.s), dp.View(), InterfaceList(ups), true) && Tended(dp.View())
      ensures dp.host.faults <= old(dp.host.faults)
      ensures !ok ==>
                || dp.host.faults < old(dp.host.faults)
                || (exists conf :: conf in cfg.upstreams && !Accepted(conf, files))
                || Stuck(old(dp.host.s.rules), old(dp.host.s.routes))
                || Scarce(old(dp.host.s.rules), old(dp.host.s.routes), InterfaceList(ups))
      ensures ok ==> dp.host.faults == old(dp.host.faults)
    {
      hide Probed, Renewed, Fresh, Base, Running, Stoppable, Steady, WiredUp, DistinctUps, DistinctConfs, LiveOf,
        UpNames, ConfNames, Continues, Resettled, Tended, Accepted, Stuck, Scarce;
      ghost var log := dp.host.log;
      ok := OpenDown();
      if !ok {
        return;
      }
      ghost var log1 := dp.host.log;
      ok := OpenAll(files);
      ContinuesOn(log, log1, dp.host.log);
      if !ok {
        return;
      }
      ghost var log2, s := dp.host.log, dp.host.s;
      ok := SetUp();
      ContinuesOn(log, log2, dp.host.log);
      if !ok {
        return;
      }
      ResettledSame(s, old(dp.host.s), dp.View(), dp.View(), InterfaceList(ups), true, true);
      ghost var log3, d := dp.host.log, Ctl().dp;
      ok := BringUp();
      assert dp.View() == d;
      ContinuesOn(log, log3, dp.host.log);
    }

    /** Creates and configures the downstream device. */
    method OpenDown() returns (ok: bool)
      requires Fresh()
      modifies this`downOpen, dp.host
      ensures Continues(old(dp.host.log), dp.host.log)
      ensures Stoppable() && NothingRouted() && ups == [] && (ok ==> downOpen && dp.host.s.lm0 == LinkDown)
      ensures dp.host.s.rules == old(dp.host.s.rules) && dp.host.s.routes == old(dp.host.s.routes)
      ensures dp.host.faults <= old(dp.host.faults) && (!ok ==> dp.host.faults < old(dp.host.faults))
      ensures ok ==> dp.host.faults == old(dp.host.faults)
    {
      hide GoodRules, GoodTables, UniqueRoutes, AlwaysSafe, Conserved, Exec;
      NothingOpen();
      SafeNow(dp.host.init, dp.host.log);
      ghost var log := dp.host.log;
      ok := dp.host.Do(DownstreamOpen);
      if !ok {
        return;
      }
      SafeStep(dp.host.init, log, DownstreamOpen);
      downOpen := true;
      ok := dp.host.Query(); // configure it
    }

    lemma NothingOpen()
      requires Fresh()
      ensures Conserved(dp.host.s.devices, closed, nextDevice, LiveOf(ups)) && DistinctUps(ups)
    {
    }

    /** Nothing has been routed, authorised or put on the books yet. */
    ghost predicate NothingRouted()
      reads this, dp, dp.host
    {
      && assignments == map[] && unroutePending == {} && devicePeers == map[] && aliveFailed == {} && torn == {}
      && gone == {}
      && unpushed == {} && dp.host.s.keys == {} && forall u :: u in ups ==> u.track.state == Health.Unknown
    }

    /** Opens the configured upstreams in turn. The first failure ends it. */
    method OpenAll(files: Files) returns (ok: bool)
      requires Stoppable() && NothingRouted() && ups == [] && DistinctConfs(cfg.upstreams)
      modifies this`ups, this`nextDevice, this`closed, dp.host
      ensures Continues(old(dp.host.log), dp.host.log)
      ensures Stoppable() && NothingRouted() && (ok ==> UpNames(ups) == ConfNames(cfg.upstreams))
      ensures ok ==> Renewed([], cfg.upstreams, cfg.downAfter, cfg.upAfter, files, ups, |cfg.upstreams|, 0)
      ensures ok ==> dp.host.s == old(dp.host.s).(devices := dp.host.s.devices)
      ensures dp.host.faults <= old(dp.host.faults)
      ensures !ok ==>
                || dp.host.faults < old(dp.host.faults)
                || exists conf :: conf in cfg.upstreams && !Accepted(conf, files)
      ensures ok ==> dp.host.faults == old(dp.host.faults)
    {
      hide Base, ConfNames, UpNames, LiveOf, DevicesOnly, Continues, Renewed, Loaded, Accepted;
      ghost var log := dp.host.log;
      ContinuesStart(log);
      ghost var confs := cfg.upstreams;
      NoNames(confs);
      RenewedNothing([], confs, cfg.downAfter, cfg.upAfter, files, 0);
      for i := 0 to |cfg.upstreams|
        invariant Continues(log, dp.host.log)
        invariant Stoppable() && NothingRouted() && UpNames(ups) == ConfNames(confs[..i])
        invariant Renewed([], confs, cfg.downAfter, cfg.upAfter, files, ups, i, 0)
        invariant dp.host.s == old(dp.host.s).(devices := dp.host.s.devices)
        invariant dp.host.faults == old(dp.host.faults)
      {
        var conf := cfg.upstreams[i];
        assert conf in confs;
        ConfNamesSnoc(confs, i);
        LiveNames(ups);
        ghost var c, log1 := Ctl(), dp.host.log;
        var u;
        ok, u := OpenUpstream(conf, cfg.downAfter, cfg.upAfter, files, LiveOf(ups));
        OnlyDevices(c, Ctl());
        HeldContinues(dp.host.init, log1, dp.host.log, dp.tables.Values);
        ContinuesOn(log, log1, dp.host.log);
        if !ok {
          return;
        }
        DistinctSnoc(ups, u);
        LiveSnoc(ups, u);
        RenewedFresh([], confs, cfg.downAfter, cfg.upAfter, files, ups, i, 0, u);
        AddUp(u);
      }
      assert confs[..|confs|] == confs;
      ok := true;
    }

    method AddUp(u: Upstream)
      requires Base(LiveOf(ups + [u]))
      modifies this`ups
      ensures Base(LiveOf(ups)) && ups == old(ups) + [u] && Ctl() == old(Ctl())
    {
      hide GoodDp, UniqueRoutes, AlwaysSafe, Conserved, LiveOf;
      ups := ups + [u];
    }

    /** Sets the dataplane up. */
    method SetUp() returns (ok: bool)
      requires Stoppable() && NothingRouted() && downOpen
      modifies this`calls, dp, dp.host
      ensures Continues(old(dp.host.log), dp.host.log)
      ensures Stoppable()
      ensures ok ==> Running() && WiredUp(dp.View(), Interfaces(LiveOf(ups))) && dp.host.s.lm0 == LinkUp
      ensures ok ==> Probed(dp.View(), InterfaceList(ups))
      ensures ok ==> Resettled(old(dp.host.s), dp.View(), InterfaceList(ups), true) && Tended(dp.View())
      ensures dp.host.faults <= old(dp.host.faults)
      ensures !ok ==>
                || dp.host.faults < old(dp.host.faults) || old(dp.host.s.lm0) == Absent
                || Stuck(old(dp.host.s.rules), old(dp.host.s.routes))
                || Scarce(old(dp.host.s.rules), old(dp.host.s.routes), InterfaceList(ups))
      ensures ok ==> dp.host.faults == old(dp.host.faults)
    {
      hide Probed, GoodRules, GoodTables, UniqueRoutes, AlwaysSafe, Conserved, Linked, NoPeerRuleAt, Sound, LiveOf,
        Exec, Continues, Resettled, Tended, Stuck, Scarce, Repeated;
      NoneRepeated(ups);
      InterfaceListNames(ups);
      calls := calls + 1;
      ok := dp.Setup("lm0", InterfaceList(ups));
      if ok {
        FirstSound(Ctl(), LiveOf(ups));
        FirstPins(dp.View(), ups);
        SetUpWires(dp.View(), Interfaces(LiveOf(ups)));
      }
    }

    /** Brings all devices up, the downstream one last. */
    method BringUp() returns (ok: bool)
      requires Running() && Stoppable()
      modifies dp.host
      ensures Continues(old(dp.host.log), dp.host.log)
      ensures Running() && Stoppable() && Ctl() == old(Ctl())
      ensures dp.host.faults <= old(dp.host.faults) && (!ok ==> dp.host.faults < old(dp.host.faults))
      ensures ok ==> dp.host.faults == old(dp.host.faults)
    {
      hide GoodDp, Sound, UniqueRoutes, AlwaysSafe, Conserved, AllPinsKept, Exec;
      ghost var log := dp.host.log;
      ContinuesStart(log);
      for i := 0 to |ups|
        invariant dp.host.log == log && dp.host.faults == old(dp.host.faults)
        invariant Running() && Stoppable() && Ctl() == old(Ctl())
      {
        ok := dp.host.Query();
        if !ok {
          return;
        }
      }
      ok := dp.host.Query();
    }

    /** Disables ingress and cleans up, closes the downstream device, retries the cleanup if it failed,
        and closes the upstreams last, while ownership can still be told. */
    method Stop() returns (clean: bool)
      requires Stoppable()
      modifies this`closed, this`calls, dp.host
      ensures Continues(old(dp.host.log), dp.host.log)
      ensures AlwaysSafe(dp.host.init, dp.host.log)
      ensures dp.host.s.lm0 == Absent && dp.host.s.devices == map[]
      ensures forall id: DeviceId :: id in closed <==> id < nextDevice
      ensures forall i, j :: 0 <= i < j < |closed| ==> closed[i] != closed[j]
      ensures clean ==> !dp.host.s.firewall && forall r :: r in dp.host.s.rules ==> !Own(dp.tables).Wants(r)
      ensures !clean ==> !Unambiguous(old(dp.View())) || dp.host.faults + 2 <= old(dp.host.faults)
    {
      hide GoodRules, GoodTables, UniqueRoutes, AlwaysSafe, Conserved, LiveOf, Exec, OwnRules, Minus, Elems,
        Filter.Wants, DistinctUps, Unambiguous, Continues, OnlyOwnGone, OurRoute;
      ghost var log := dp.host.log;
      calls := calls + 1;
      ghost var rules := dp.host.s.rules;
      ghost var stopped;
      clean, stopped := dp.Teardown();
      if clean {
        NoneOwn(rules, dp.host.s.rules, dp.tables);
      }
      if downOpen {
        ghost var log1, d := dp.host.log, dp.View();
        CloseDown();
        UnambiguousAlike(d, dp.View());
        ContinuesOn(log, log1, dp.host.log);
      }
      if !clean {
        calls := calls + 1;
        rules := dp.host.s.rules;
        ghost var log2 := dp.host.log;
        clean, stopped := dp.Teardown();
        ContinuesOn(log, log2, dp.host.log);
        if clean {
          NoneOwn(rules, dp.host.s.rules, dp.tables);
        }
      }
      ghost var log3 := dp.host.log;
      CloseAll();
      ContinuesOn(log, log3, dp.host.log);
    }

    method CloseDown()
      requires dp.Valid() && AlwaysSafe(dp.host.init, dp.host.log)
      modifies dp.host
      ensures Continues(old(dp.host.log), dp.host.log)
      ensures dp.Valid() && AlwaysSafe(dp.host.init, dp.host.log)
      ensures dp.host.s == old(dp.host.s).(lm0 := Absent, keys := {}) && dp.host.faults == old(dp.host.faults)
    {
      hide GoodRules, GoodTables, AlwaysSafe, Exec;
      ghost var log := dp.host.log;
      SafeNow(dp.host.init, log);
      dp.host.Close(DownstreamClose);
      SafeStep(dp.host.init, log, DownstreamClose);
    }

    method CloseAll()
      requires DistinctUps(ups) && Base(LiveOf(ups))
      modifies this`closed, dp.host
      ensures Continues(old(dp.host.log), dp.host.log)
      ensures AlwaysSafe(dp.host.init, dp.host.log) && dp.host.s.devices == map[]
      ensures dp.host.s == old(dp.host.s).(routes := dp.host.s.routes, devices := map[])
      ensures dp.host.faults == old(dp.host.faults)
      ensures forall id: DeviceId :: id in closed <==> id < nextDevice
      ensures forall i, j :: 0 <= i < j < |closed| ==> closed[i] != closed[j]
    {
      hide GoodDp, UniqueRoutes, AlwaysSafe, Conserved, LiveOf, Exec, DistinctUps, DevicesOnly, Continues;
      ghost var log := dp.host.log;
      ContinuesStart(log);
      ghost var c := Ctl();
      ghost var live: Live := LiveOf(ups);
      RestStart(ups);
      for i := 0 to |ups|
        invariant Continues(log, dp.host.log)
        invariant Base(live) && RestOf(ups, i, live)
        invariant dp.host.s == old(dp.host.s).(routes := dp.host.s.routes, devices := dp.host.s.devices)
        invariant dp.host.faults == old(dp.host.faults)
      {
        RestNext(ups, i, live);
        ghost var c1, log1 := Ctl(), dp.host.log;
        Discard(ups[i].conf.name, ups[i].id, live);
        OnlyDevices(c1, Ctl());
        HeldContinues(dp.host.init, log1, dp.host.log, dp.tables.Values);
        ContinuesOn(log, log1, dp.host.log);
        live := live - {ups[i].conf.name};
      }
      NoneLeft(dp.host.s.devices, closed, nextDevice, live, ups);
    }
  }

  function CurrentMap(ups: seq<Upstream>): (out: map<string, Upstream>)
    requires DistinctUps(ups)
    ensures out.Keys == UpNames(ups) && forall n :: n in out ==> out[n] in ups && out[n].conf.name == n
    decreases |ups|
  {
    if ups == [] then map[]
    else
      var front, last := ups[..|ups| - 1], ups[|ups| - 1];
      assert ups == front + [last];
      CurrentMap(front)[last.conf.name := last]
  }

  lemma LeavingParts(next: seq<Upstream>, current: map<string, Upstream>, live: Live, n: string)
    requires Leaving(next, current, live) && n in current
    ensures current[n].conf.name == n && n in live && live[n] == current[n].id
  {
  }

  lemma RenewedNothing(olds: seq<Upstream>, confs: seq<Policy.Upstream>, down: int, up: int, files: Files,
                       first: DeviceId)
    ensures Renewed(olds, confs, down, up, files, [], 0, first)
    ensures UpNames([]) == ConfNames(confs[..0])
  {
  }

  lemma CarriedOver(olds: seq<Upstream>, confs: seq<Policy.Upstream>, down: int, up: int, files: Files,
                    kept: seq<Upstream>, i: nat, first: DeviceId, current: map<string, Upstream>, live: Live,
                    u: Upstream)
    requires InTransit(olds, confs, i, kept, current, live) && DistinctConfs(confs) && i < |confs| && DistinctUps(olds)
    requires Renewed(olds, confs, down, up, files, kept, i, first)
    requires confs[i].name in current && Unchanged(current[confs[i].name], confs[i], files)
    requires u == Kept(current[confs[i].name], confs[i], down, up)
    ensures InTransit(olds, confs, i + 1, kept + [u], current - {confs[i].name}, live)
    ensures Renewed(olds, confs, down, up, files, kept + [u], i + 1, first)
    ensures UpNames(kept + [u]) == UpNames(kept) + {confs[i].name}
  {
    WhoIsKept(olds, confs, i, kept, current, live, files);
    hide InTransit, Renewed, DistinctUps, DistinctConfs, UpNames;
    RenewedKept(olds, confs, down, up, files, kept, i, first, current[confs[i].name]);
    TransitAdd(olds, confs, i, kept, current, live, u);
    assert live[u.conf.name := u.id] == live;
  }

  lemma Opened(olds: seq<Upstream>, confs: seq<Policy.Upstream>, down: int, up: int, files: Files, kept: seq<Upstream>,
               i: nat, first: DeviceId, current: map<string, Upstream>, live: Live, u: Upstream)
    requires InTransit(olds, confs, i, kept, current, live) && DistinctConfs(confs) && i < |confs| && DistinctUps(olds)
    requires Renewed(olds, confs, down, up, files, kept, i, first)
    requires !(confs[i].name in current && Unchanged(current[confs[i].name], confs[i], files))
    requires u == Upstream(confs[i], Content(files, confs[i].conf), u.addr, u.id, Health.New(down, up)) &&
             Loaded(u, files)
    requires u.id >= first
    ensures InTransit(olds, confs, i + 1, kept + [u], current - {confs[i].name}, live[confs[i].name := u.id])
    ensures Renewed(olds, confs, down, up, files, kept + [u], i + 1, first)
    ensures UpNames(kept + [u]) == UpNames(kept) + {confs[i].name}
  {
    WhoIsKept(olds, confs, i, kept, current, live, files);
    hide InTransit, Renewed, DistinctUps, DistinctConfs, UpNames;
    RenewedFresh(olds, confs, down, up, files, kept, i, first, u);
    TransitAdd(olds, confs, i, kept, current, live, u);
  }

  lemma Replaced(live: Live, n: string, id: DeviceId)
    ensures (live - {n})[n := id] == live[n := id]
  {
  }

  lemma NotOpened(olds: seq<Upstream>, confs: seq<Policy.Upstream>, down: int, up: int, files: Files,
                  kept: seq<Upstream>, i: nat, first: DeviceId, current: map<string, Upstream>, live: Live)
    requires InTransit(olds, confs, i, kept, current, live) && DistinctConfs(confs) && i < |confs| && DistinctUps(olds)
    requires Renewed(olds, confs, down, up, files, kept, i, first)
    requires !(confs[i].name in current && Unchanged(current[confs[i].name], confs[i], files))
    ensures InTransit(olds, confs, i + 1, kept, current - {confs[i].name}, live - {confs[i].name})
    ensures Renewed(olds, confs, down, up, files, kept, i + 1, first)
  {
    WhoIsKept(olds, confs, i, kept, current, live, files);
    hide InTransit, Renewed, DistinctUps, DistinctConfs, UpNames;
    RenewedSkip(olds, confs, down, up, files, kept, i, first);
    TransitSkip(olds, confs, i, kept, current, live);
  }

  lemma ReloadFrame(c: Control, c1: Control, d: Dp, d': Dp, ups: seq<Upstream>, keep: set<string>, dropped: set<string>)
    requires Dropping(c, c1, dropped) && Changed(c1.dp, d, keep) && HealthOnly(d, d', ups)
    ensures d'.k.keys == c.dp.k.keys && d'.k.lm0 == c.dp.k.lm0 && d'.k.peers <= c.dp.k.peers
    ensures d.k.keys == c.dp.k.keys && d.k.lm0 == c.dp.k.lm0 && d.k.peers <= c.dp.k.peers
  {
    hide GoodUps;
  }

  /** What a change of the upstreams is on the way, and that it leaves only rules of this program behind. */
  lemma ChangeOutcome(init: State, before: seq<Op>, after: seq<Op>, d: Dp, d': Dp, keep: set<string>)
    requires AlwaysSafe(init, before) && Sparing(before, after, GoneTables(d.tables, keep))
    requires GoodTables(d.tables) && Changed(d, d', keep) && AddsOwn(d, d', keep)
    requires d.k == Exec(init, before) && d'.k == Exec(init, after)
    ensures AlwaysSafe(init, after) && HeldKept(init, before, after, KeptTables(d.tables, keep))
    ensures Tended(d) ==> Tended(d')
  {
    hide *;
    SparingGrows(before, after, GoneTables(d.tables, keep));
    RoutingKeepsSafety(init, before, after);
    GrownIsLonger(before, after);
    KeptIsNotGone(d.tables, keep);
    SparingHolds(init, before, after, GoneTables(d.tables, keep), KeptTables(d.tables, keep));
    AlwaysAddsNamed(init, after);
    LongerIsPrefix(before, after);
    if Tended(d) {
      TendedChange(init, before, after, d, d', keep);
    }
  }

  lemma LongerIsPrefix(before: seq<Op>, after: seq<Op>)
    requires Continues(before, after)
    ensures before <= after
  {
  }

  /** Once the upstreams are as wanted, each has a table. */
  lemma AllHaveTables(d: Dp, d': Dp, ups: seq<Upstream>)
    requires Complete(d, d', Interfaces(LiveOf(ups)))
    ensures forall u :: u in ups ==> InterfaceName(u.conf.name) in d'.tables
  {
    hide Changed, AddsOwn, Leaves;
    LiveNames(ups);
    forall u | u in ups ensures InterfaceName(u.conf.name) in d'.tables {
      assert u.conf.name in UpNames(ups) && u.conf.name in LiveOf(ups).Keys;
      assert InterfaceName(u.conf.name) in Interfaces(LiveOf(ups));
      assert InterfaceName(u.conf.name) in d'.tables.Keys;
    }
  }

  /** Taking upstreams out of service puts nothing in the way of a change. */
  lemma DroppingUnblocks(c: Control, c1: Control, dropped: set<string>, ups: seq<Interface>)
    requires Dropping(c, c1, dropped)
    ensures Blocked(c1.dp, ups) ==> Blocked(c.dp, ups)
  {
    hide Blocked;
    if Blocked(c1.dp, ups) {
      BlockedBefore(c.dp, c1.dp, ups);
    }
  }

  /** Fewer rules leave fewer that are not this program's. */
  lemma FewerTended(c: Control, c1: Control, dropped: set<string>)
    requires Dropping(c, c1, dropped)
    ensures Tended(c.dp) ==> Tended(c1.dp)
  {
    hide Named;
  }

  lemma HealthTended(d: Dp, d': Dp, ups: seq<Upstream>)
    requires HealthOnly(d, d', ups)
    ensures Tended(d) ==> Tended(d')
  {
    hide Named, GoodUps;
  }

  lemma AlwaysAddsNamed(init: State, log: seq<Op>)
    requires AlwaysSafe(init, log)
    ensures AddsNamed(log)
  {
    hide AddsNamed;
  }

  lemma AliveKeepsAmbiguity(d: Dp, d': Dp, name: string, up: bool, ok: bool)
    requires AliveEffect(d, d', name, up, ok)
    ensures Unambiguous(d') <==> Unambiguous(d)
  {
    hide GoodRules, GoodTables;
    AmbiguityIgnoresPeerRules(d, d');
  }

  lemma SameWith(a: set<string>, b: set<string>, n: string)
    requires n !in b
    ensures n !in a ==> (a + {n} == b + {n} <==> a == b) && a != b + {n}
  {
    if n !in a && a + {n} == b + {n} {
      assert a == (a + {n}) - {n} && b == (b + {n}) - {n};
    }
  }

  /** The tables of kept upstreams stay in use. */
  lemma KeptStay(d: Dp, d': Dp, keep: set<string>)
    requires Changed(d, d', keep)
    ensures KeptTables(d.tables, keep) <= d'.tables.Values
  {
    hide GoodUps;
    forall t | t in KeptTables(d.tables, keep) ensures t in d'.tables.Values {
      var n :| n in d.tables && n in keep && d.tables[n] == t;
      assert n in d'.tables && d'.tables[n] == t;
    }
  }

  /** Of the upstreams that were replaced and not excused, exactly those hold wrong marks or pins whose
      predecessor was up. */
  ghost predicate ReplacedAlike(olds: seq<Upstream>, excused: set<string>, retained: set<string>, d: Dp,
                                stale: set<string>, ups: seq<Upstream>)
  {
    forall o, u :: o in olds && u in ups && u.conf.name == o.conf.name && o.conf.name !in excused + retained ==>
                     (PinsKept(d, stale, u) <==> o.track.state != Health.Up)
  }

  lemma ReplacedExactly(c: Control, c1: Control, d: Dp, olds: seq<Upstream>, ups: seq<Upstream>,
                        confs: seq<Policy.Upstream>, down: int, up: int, files: Files, first: DeviceId,
                        unpushed: set<string>)
    requires Grounded(c.dp) && Dropping(c, c1, Leavers(olds, confs, files)) &&
             Changed(c1.dp, d, Interfaces(LiveOf(ups)))
    requires AllPinsKept(c.dp, c.stale + unpushed, olds) && DistinctUps(olds) && DistinctConfs(confs)
    requires Renewed(olds, confs, down, up, files, ups, |confs|, first)
    ensures ReplacedAlike(olds, c.stale + unpushed, Retained(olds, confs, files), d, c1.stale, ups)
  {
    hide Grounded, Dropping, Changed, LiveOf, Renewed, DistinctUps, DistinctConfs, Interfaces, Unchanged, Retained;
    var excused, retained := c.stale + unpushed, Retained(olds, confs, files);
    forall o, u | o in olds && u in ups && u.conf.name == o.conf.name && o.conf.name !in excused + retained
      ensures PinsKept(d, c1.stale, u) <==> o.track.state != Health.Up
    {
      WhoCameOver(olds, confs, down, up, files, ups, first, u);
      InService(ups, u);
      assert PinsKept(c.dp, excused, o);
      ReplacedPins(c, c1, d, Leavers(olds, confs, files), Interfaces(LiveOf(ups)), o, u);
    }
  }

  /** An upstream that is replaced is not carried over. */
  lemma ReplacedLeaves(olds: seq<Upstream>, confs: seq<Policy.Upstream>, i: nat, next: seq<Upstream>,
                       current: map<string, Upstream>, live: Live, files: Files)
    requires InTransit(olds, confs, i, next, current, live) && DistinctConfs(confs) && DistinctUps(olds) && i < |confs|
    requires confs[i].name in current && !Unchanged(current[confs[i].name], confs[i], files)
    ensures confs[i].name in Leavers(olds, confs, files)
  {
    NameOf(olds);
    var n := confs[i].name;
    forall o, conf | o in olds && conf in confs && o.conf.name == conf.name == n ensures !Unchanged(o, conf, files) {
      SameName(olds, o, current[n]);
      var j :| 0 <= j < |confs| && confs[j] == conf;
      assert j == i;
    }
  }

  /** Nor is one that the new configuration does not mention. */
  lemma RestLeaves(olds: seq<Upstream>, confs: seq<Policy.Upstream>, next: seq<Upstream>,
                   current: map<string, Upstream>, live: Live, files: Files)
    requires InTransit(olds, confs, |confs|, next, current, live)
    ensures current.Keys <= Leavers(olds, confs, files)
  {
    assert confs[..|confs|] == confs;
    NameOf(olds);
  }

  /** Everyone whose upstream is carried over keeps their tunnel. */
  lemma TunnelsStay(c: Control, c1: Control, d: Dp, c': Control, ups: seq<Upstream>, olds: seq<Upstream>,
                    confs: seq<Policy.Upstream>, files: Files)
    requires GoodDp(c.dp) && Dropping(c, c1, Leavers(olds, confs, files)) && GoodDp(c1.dp) && DistinctUps(ups)
    requires Changed(c1.dp, d, Interfaces(LiveOf(ups))) && HealthOnly(d, c'.dp, ups)
    requires c'.assignments == c1.assignments && c'.pending == c1.pending
    ensures forall a :: a in c.assignments && c.assignments[a] in Retained(olds, confs, files) ==>
              Undropped(c, c', ups, a)
  {
    hide *;
    forall a | a in c.assignments && c.assignments[a] in Retained(olds, confs, files) ensures Undropped(c, c', ups, a) {
      RetainedStays(olds, confs, files, c.assignments[a]);
      ReloadSpares(c, c1, d, c', ups, Leavers(olds, confs, files), a);
    }
  }

  lemma RetainedStays(olds: seq<Upstream>, confs: seq<Policy.Upstream>, files: Files, n: string)
    requires n in Retained(olds, confs, files)
    ensures n !in Leavers(olds, confs, files)
  {
  }

  lemma HealthNothing(d: Dp, ups: seq<Upstream>)
    ensures HealthOnly(d, d, ups)
  {
  }

  lemma ChangedFrame(d: Dp, d': Dp, keep: set<string>)
    requires Changed(d, d', keep)
    ensures d' == d.(k := d.k.(rules := d'.k.rules, routes := d'.k.routes, marks := d'.k.marks), tables := d'.tables,
                     alive := d'.alive)
    ensures GoodDp(d') && UniqueRoutes(d'.k.routes)
  {
  }

  lemma OnlyDevices(c: Control, c': Control)
    requires DevicesOnly(c, c')
    ensures c' == c.(dp := c.dp.(k := c.dp.k.(routes := c'.dp.k.routes, devices := c'.dp.k.devices)))
  {
  }

  lemma LiveSnoc(ups: seq<Upstream>, u: Upstream)
    ensures LiveOf(ups + [u]) == LiveOf(ups)[u.conf.name := u.id]
  {
    assert (ups + [u])[..|ups|] == ups;
  }

  /** The state right behind `Setup`. */
  lemma FirstSound(c: Control, live: Live)
    requires GoodDp(c.dp) && Guarded(c.dp) && UniqueRoutes(c.dp.k.routes) && c.dp.k.marks == c.dp.tables
    requires c.dp.k.peers == {} && c.dp.k.keys == {} && c.assignments == map[] && c.pending == {} && c.peers == map[]
    requires c.torn == {} && c.dp.alive == {}
    requires forall n :: n in c.dp.tables ==> NoPeerRuleAt(c.dp.k.rules, c.dp.tables[n])
    ensures Sound(c, live)
  {
    hide GoodRules, UniqueRoutes;
    forall a: Addr ensures InSync(c, a) {
      forall n | n in c.dp.tables ensures PlainRule(a, c.dp.tables[n]) !in c.dp.k.rules {
        assert IsPeerRule(PlainRule(a, c.dp.tables[n]));
      }
    }
  }

  lemma FirstPins(d: Dp, ups: seq<Upstream>)
    requires GoodDp(d) && d.alive == {} && forall n :: n in d.tables ==> NoPeerRuleAt(d.k.rules, d.tables[n])
    requires forall u :: u in ups ==> u.track.state == Health.Unknown
    ensures AllPinsKept(d, {}, ups)
  {
    hide GoodRules;
    forall a: Addr, n | n in d.tables ensures PinRule(a, d.tables[n]) !in d.k.rules {
      assert IsPeerRule(PinRule(a, d.tables[n]));
    }
  }

  lemma SetUpWires(d: Dp, names: set<string>)
    requires Linked(d, names) && d.tables.Keys == names && d.k.marks == d.tables
    ensures WiredUp(d, names)
  {
  }

  lemma NoneOwn(rules: seq<Rule>, rules': seq<Rule>, tables: Tables)
    requires rules' == Minus(rules, Elems(OwnRules(rules, tables)))
    ensures forall r :: r in rules' ==> !Own(tables).Wants(r)
  {
    forall r | r in rules' ensures !Own(tables).Wants(r) {
      Picked(Own(tables), rules, r);
    }
  }

  /** What is in service once the first `i` upstreams are closed. */
  ghost predicate RestOf(ups: seq<Upstream>, i: nat, live: Live) {
    && i <= |ups| && live.Keys == UpNames(ups[i..])
    && forall j :: i <= j < |ups| ==> ups[j].conf.name in live && live[ups[j].conf.name] == ups[j].id
  }

  lemma RestStart(ups: seq<Upstream>)
    requires DistinctUps(ups)
    ensures RestOf(ups, 0, LiveOf(ups))
  {
    LiveNames(ups);
    assert ups[0..] == ups;
  }

  lemma RestNext(ups: seq<Upstream>, i: nat, live: Live)
    requires DistinctUps(ups) && RestOf(ups, i, live) && i < |ups|
    ensures ups[i].conf.name in live && live[ups[i].conf.name] == ups[i].id
    ensures RestOf(ups, i + 1, live - {ups[i].conf.name})
  {
    assert ups[i..] == [ups[i]] + ups[i + 1..];
  }

  lemma NoneLeft(devices: map<DeviceId, string>, closed: seq<DeviceId>, next: DeviceId, live: Live, ups: seq<Upstream>)
    requires Conserved(devices, closed, next, live) && RestOf(ups, |ups|, live)
    ensures devices == map[]
    ensures forall id: DeviceId :: id in closed <==> id < next
    ensures forall i, j :: 0 <= i < j < |closed| ==> closed[i] != closed[j]
  {
    assert live.Keys == {};
    assert devices.Keys == {};
  }

  lemma AssignedAreOwned(c: Control, live: Live, a: Addr)
    requires Sound(c, live) && a in c.assignments
    ensures Owned(c.peers, a)
  {
  }

  lemma AliveTrivially(d: Dp, d': Dp, name: string, up: bool, ok: bool)
    requires GoodDp(d') && d'.k == d.k && d'.allowed == d.allowed && d'.tables == d.tables
    requires if name in d.tables then up && d'.alive == d.alive + {name} else d'.alive == d.alive && !ok
    ensures AliveEffect(d, d', name, up, ok)
  {
  }

  lemma SameNames(ups: seq<Upstream>, ups': seq<Upstream>)
    requires DistinctUps(ups) && |ups| == |ups'|
    requires forall i :: 0 <= i < |ups| ==> ups[i].conf.name == ups'[i].conf.name
    ensures DistinctUps(ups')
  {
    forall u | u in ups' ensures u.conf.name != "" {
      var i :| 0 <= i < |ups'| && ups'[i] == u;
      assert ups[i] in ups;
    }
  }

  lemma ProbeKeepsPins(d: Dp, d': Dp, ups: seq<Upstream>, ups': seq<Upstream>, i: nat, ok: bool, stale: set<string>,
                       stale': set<string>)
    requires DistinctUps(ups) && i < |ups| == |ups'| && ups' == ups[i := ups'[i]] && ups'[i].conf == ups[i].conf
    requires AllPinsKept(d, stale, ups)
    requires AliveEffect(d, d', InterfaceName(ups[i].conf.name), ups'[i].track.state == Health.Up, ok)
    requires stale' == if ok then stale - {ups[i].conf.name} else stale + {ups[i].conf.name}
    requires ok ==> InterfaceName(ups[i].conf.name) in d.tables
    ensures AllPinsKept(d', stale', ups')
  {
    hide AliveEffect, PinsKept;
    forall u | u in ups' ensures PinsKept(d', stale', u) {
      var j :| 0 <= j < |ups'| && ups'[j] == u;
      if j == i {
        AliveSetsPins(d, d', u, ok, stale);
      } else {
        assert ups[j] in ups;
        AliveKeepsPins(d, d', ups[i].conf.name, ups'[i].track.state == Health.Up, ok, stale, stale', u);
      }
    }
  }

  lemma QuietProbe(d: Dp, ups: seq<Upstream>, ups': seq<Upstream>, i: nat, stale: set<string>)
    requires i < |ups| == |ups'| && ups' == ups[i := ups'[i]] && AllPinsKept(d, stale, ups)
    requires ups'[i].conf == ups[i].conf && ups'[i].track.state == ups[i].track.state
    ensures AllPinsKept(d, stale, ups')
  {
    forall u | u in ups' ensures PinsKept(d, stale, u) {
      var j :| 0 <= j < |ups'| && ups'[j] == u;
      assert PinsKept(d, stale, ups[j]) by {
        assert ups[j] in ups;
      }
    }
  }

  lemma HeldAreOwned(peers: map<Key, Peer>, held: set<Addr>)
    requires held == set k | k in peers :: peers[k].ip
    ensures forall a :: a in held <==> Owned(peers, a)
  {
  }

  lemma RowsDiffer(rows: seq<Peer>, c: Control, i: nat)
    requires GoodRows(rows, c) && i < |rows|
    ensures forall j :: 0 <= j < i ==> rows[j].ip != rows[i].ip
  {
  }

  lemma SettledOnBooks(c: Control, ups: seq<Upstream>, profiles: seq<Policy.Profile>, rows: seq<Peer>, i: nat)
    requires i < |rows|
    ensures SettledTo(c, c, ups, profiles, rows, |rows|) ==>
              rows[i].key in c.peers && Settled(c, ups, profiles, rows[i], Sticky(c, rows[i].ip))
  {
  }

  lemma EnteredParts(c: Control, p: Peer)
    ensures var c' := Entered(c, p);
            && (Unambiguous(c'.dp) <==> Unambiguous(c.dp)) && c'.dp.tables == c.dp.tables
            && p.key in c'.peers && c'.peers[p.key] == p && Sticky(c', p.ip) == Sticky(c, p.ip)
  {
    AmbiguityIgnoresPeerRules(c.dp, Entered(c, p).dp);
    hide Unambiguous;
  }

  lemma ObstructedAlike(d: Dp, d': Dp, ups: seq<Upstream>, profiles: seq<Policy.Profile>, p: Peer)
    requires d'.tables == d.tables && (Unambiguous(d') <==> Unambiguous(d))
    ensures Obstructed(d', ups, profiles, p) <==> Obstructed(d, ups, profiles, p)
  {
    hide Unambiguous;
  }

  lemma RevokedParts(c: Control, c': Control, done: set<Key>, stuck: set<Key>, ok: bool, key: Key)
    requires Revoked(c, c', done, stuck, ok)
    ensures key in c.peers && key !in done ==> key in c'.peers && c'.peers[key] == c.peers[key]
    ensures Unambiguous(c'.dp) <==> Unambiguous(c.dp)
    ensures c'.dp.tables == c.dp.tables && stuck <= done
  {
    hide Unambiguous;
  }

  lemma DismissedParts(c: Control, key: Key, removed: bool)
    ensures var c' := Dismissed(c, key, removed);
            && (Unambiguous(c'.dp) <==> Unambiguous(c.dp))
            && c'.dp.tables == c.dp.tables && (removed ==> key !in c'.dp.k.keys) && c'.peers == c.peers
            && c'.dp.k.rules == c.dp.k.rules
  {
    AmbiguityIgnoresPeerRules(c.dp, Dismissed(c, key, removed).dp);
    hide Unambiguous;
  }

  lemma OnlyAtParts(c: Control, c': Control, a: Addr)
    requires OnlyAt(c, c', a)
    ensures Unambiguous(c'.dp) <==> Unambiguous(c.dp)
    ensures c'.dp.tables == c.dp.tables && c'.peers == c.peers && c'.dp.k.keys == c.dp.k.keys
  {
    hide Unambiguous;
  }

  lemma OnlyAtStart(c: Control, a: Addr)
    ensures OnlyAt(c, c, a)
  {
    hide Unambiguous;
  }

  lemma SoundParts(c: Control, live: Live)
    requires Sound(c, live)
    ensures Guarded(c.dp) && GoodDp(c.dp) && UniqueRoutes(c.dp.k.routes)
  {
    hide Guarded, GoodDp, UniqueRoutes, Synced;
  }
}
