/**
An authorised peer with no plain rule and no unfinished cleanup: how two failures and a reload leave
one. Without reloads there is none; with them, `DaemonState.CoverAfterChange` says exactly which peers
are left so.
 */
module Uncovered {
  import opened Kernel
  import opened LinuxRules
  import opened RouteSteps
  import opened Upstreams
  import opened Effects
  import opened DaemonState
  import opened Retry
  import Policy
  import Health

  // ---------------------------------------------------------------- Order of rules

  /** One rule stands somewhere in front of the other. */
  ghost predicate Ahead(rules: seq<Rule>, x: Rule, y: Rule) {
    exists i, j :: 0 <= i < j < |rules| && rules[i] == x && rules[j] == y
  }

  lemma {:induction false} AheadPick(f: Filter, rules: seq<Rule>, x: Rule, y: Rule)
    requires Ahead(rules, x, y) && f.Wants(x) && f.Wants(y)
    ensures Ahead(Pick(f, rules), x, y)
    decreases |rules|
  {
    hide Filter.Wants;
    var i, j :| 0 <= i < j < |rules| && rules[i] == x && rules[j] == y;
    var front, last := rules[..|rules| - 1], rules[|rules| - 1];
    var picked, all := Pick(f, front), Pick(f, rules);
    if j < |front| {
      assert front[i] == x && front[j] == y;
      AheadPick(f, front, x, y);
      var m, n :| 0 <= m < n < |picked| && picked[m] == x && picked[n] == y;
      assert all[m] == x && all[n] == y;
    } else {
      assert front[i] == x;
      Picked(f, front, x);
      var m :| 0 <= m < |picked| && picked[m] == x;
      assert all[m] == x && all[|picked|] == y;
    }
  }

  /** A new rule goes behind those of its own priority. */
  lemma {:induction false} InsertAhead(rules: seq<Rule>, x: Rule, r: Rule)
    requires Ordered(rules) && x in rules && r !in rules && x.priority <= r.priority
    ensures Ahead(InsertRule(rules, r), x, r)
    decreases |rules|
  {
    hide Ordered, Behind;
    var front, last := rules[..|rules| - 1], rules[|rules| - 1];
    assert rules == front + [last];
    var i :| 0 <= i < |rules| && rules[i] == x;
    if last.priority <= r.priority {
      assert (rules + [r])[i] == x && (rules + [r])[|rules|] == r;
    } else {
      assert front[i] == x;
      OrderedSnoc(front, last);
      InsertAhead(front, x, r);
      var inner := InsertRule(front, r);
      var m, n :| 0 <= m < n < |inner| && inner[m] == x && inner[n] == r;
      assert (inner + [last])[m] == x && (inner + [last])[n] == r;
    }
  }

  /** If the plain rules of the peer are those of two other upstreams, a move deletes the one in front
      first. */
  lemma TwoOlds(d: Dp, peer: Addr, table: nat, x: Rule, y: Rule)
    requires GoodDp(d) && table in d.tables.Values && x != y && Ahead(d.k.rules, x, y)
    requires forall r :: r in OldPlains(d, peer, table) <==> r == x || r == y
    ensures |OldPlains(d, peer, table)| > 1 && OldPlains(d, peer, table)[0] == x
  {
    hide GoodRules, Ahead, Pick;
    ListsInOrder(d, peer, table);
    var own, mine, olds := OwnRules(d.k.rules, d.tables), RulesFor(d.k.rules, d.tables, peer),
      OldPlains(d, peer, table);
    forall r | r == x || r == y ensures Own(d.tables).Wants(r) && OfPeer(peer).Wants(r) && PlainBut(table).Wants(r) {
      Picked(PlainBut(table), mine, r);
      Picked(OfPeer(peer), own, r);
      Picked(Own(d.tables), d.k.rules, r);
    }
    hide Filter.Wants;
    AheadPick(Own(d.tables), d.k.rules, x, y);
    AheadPick(OfPeer(peer), own, x, y);
    AheadPick(PlainBut(table), mine, x, y);
    FrontOfTwo(olds, x, y);
  }

  lemma FrontOfTwo(rules: seq<Rule>, x: Rule, y: Rule)
    requires NoDup(rules) && Ahead(rules, x, y) && forall r :: r in rules <==> r == x || r == y
    ensures |rules| > 1 && rules[0] == x
  {
    assert rules[0] in rules;
  }

  // ---------------------------------------------------------------- Failing moves

  /** Where the daemon stands when a move has failed behind `n` operations. */
  ghost function FailedMove(c: Control, a: Addr, name: string, live: Live, n: nat): (c': Control)
    requires name in live && InterfaceName(name) in c.dp.tables
    requires n <= |RoutePlan(c.dp, a, c.dp.tables[InterfaceName(name)])|
    ensures c' == c.(dp := c'.dp, torn := c'.torn) && c'.dp == c.dp.(k := c'.dp.k)
    ensures c'.dp.k == Exec(c.dp.k, RoutePlan(c.dp, a, c.dp.tables[InterfaceName(name)])[..n])
  {
    var d := c.dp.(k := Exec(c.dp.k, RoutePlan(c.dp, a, c.dp.tables[InterfaceName(name)])[..n]));
    AfterRouteCall(c, d, a, name, live, false)
  }

  /** A move may fail behind any operation but the last, and everything the daemon promises still holds. */
  lemma FailedMoveIsSound(c: Control, a: Addr, name: string, live: Live, n: nat, ups: seq<Upstream>)
    requires Sound(c, live) && name in live && InterfaceName(name) in c.dp.tables
    requires a !in c.pending && Owned(c.peers, a) && (a in c.assignments ==> c.assignments[a] != name)
    requires n < |RoutePlan(c.dp, a, c.dp.tables[InterfaceName(name)])| && AllPinsKept(c.dp, c.stale, ups)
    ensures var c' := FailedMove(c, a, name, live, n);
            && Sound(c', live) && AllPinsKept(c'.dp, c'.stale, ups)
            && c'.dp.k == c.dp.k.(rules := c'.dp.k.rules)
  {
    hide RoutePlan, RouteBody, GoodRules, GoodTables, UniqueRoutes, Exec, AllPinsKept, RouteEffect, AfterRouteCall,
      InSync;
    var table, c' := c.dp.tables[InterfaceName(name)], FailedMove(c, a, name, live, n);
    var plan := RoutePlan(c.dp, a, table);
    assert Reached(c'.dp.k, plan[..n], c.dp.k, [], plan, n);
    RouteReached(c.dp, a, table, c'.dp.k, plan[..n], [], n);
    RouteStep(c.dp, a, table, n);
    RouteBodyStep(c.dp, a, table, if n <= |RouteBody(c.dp, a, table)| then n else n - 1);
    RouteHasEffect(c.dp, c'.dp, a, table, plan[..n], [], n, false);
    RouteKeepsSound(c, c'.dp, a, name, live, false);
    RouteKeepsAllPins(c.dp, c'.dp, a, table, false, c.stale, ups);
  }

  /** The plain rules of the peer at the tables of upstreams are exactly those of two tables. */
  ghost predicate Doubly(d: Dp, a: Addr, s: nat, t: nat) {
    forall u :: u in d.tables.Values ==> (PlainRule(a, u) in d.k.rules <==> u == s || u == t)
  }

  /** A move fails at its first deletion: the peer has the plain rules of the old and the new upstream,
      the old one in front. */
  lemma FirstFailure(d: Dp, a: Addr, s: nat, t: nat)
    requires GoodDp(d) && Guarded(d) && s in d.tables.Values && t in d.tables.Values && s != t
    requires Doubly(d, a, s, s)
    ensures FailsAt(d, a, t) < |RoutePlan(d, a, t)|
    ensures var d' := d.(k := Exec(d.k, RoutePlan(d, a, t)[..FailsAt(d, a, t)]));
            Doubly(d', a, s, t) && Ahead(d'.k.rules, PlainRule(a, s), PlainRule(a, t))
  {
    hide RoutePlan, RouteBody, Exec, OldPlains, OldPins, NewPins, Ahead, InsertRule, Ordered;
    FailedShape(d, a, t);
    var k := Exec(d.k, RouteBody(d, a, t)[..FailsAt(d, a, t) - 1]);
    PlainsUntilAdd(d, a, t, t);
    SomeOld(d, a, s, t);
    PlainsUntilAdd(d, a, t, s);
    InsertKeepsOrder(k.rules, PlainRule(a, t));
    InsertAhead(k.rules, PlainRule(a, s), PlainRule(a, t));
    forall u | u in d.tables.Values
      ensures PlainRule(a, u) in InsertRule(k.rules, PlainRule(a, t)) <==> u == s || u == t
    {
      PlainsUntilAdd(d, a, t, u);
    }
  }

  lemma SomeOld(d: Dp, a: Addr, s: nat, t: nat)
    requires GoodDp(d) && s in d.tables.Values && t in d.tables.Values && s != t
    requires PlainRule(a, s) in d.k.rules && PlainRule(a, t) !in d.k.rules
    ensures FailsAt(d, a, t) < |RoutePlan(d, a, t)|
  {
    AtPlain(d, a, t);
    PickedRule(d, a, t, PlainRule(a, s));
    hide OldPlains, RoutePlan, OldPins, NewPins;
  }

  /** A second move, to a third upstream, fails at its second deletion: the plain rule of the first
      upstream is gone. */
  lemma SecondFailure(d: Dp, a: Addr, s: nat, t: nat, u: nat)
    requires GoodDp(d) && Guarded(d) && s in d.tables.Values && t in d.tables.Values && u in d.tables.Values
    requires s != t && s != u && t != u
    requires Doubly(d, a, s, t) && Ahead(d.k.rules, PlainRule(a, s), PlainRule(a, t))
    ensures FailsAt(d, a, u) + 1 < |RoutePlan(d, a, u)|
    ensures Doubly(d.(k := Exec(d.k, RoutePlan(d, a, u)[..FailsAt(d, a, u) + 1])), a, t, u)
  {
    hide GoodRules, RouteBody, Exec, OldPlains, OldPins, NewPins, Ahead, InsertRule;
    var n, plan := FailsAt(d, a, u), RoutePlan(d, a, u);
    var x, y := PlainRule(a, s), PlainRule(a, t);
    forall r ensures r in OldPlains(d, a, u) <==> r == x || r == y {
      PickedRule(d, a, u, r);
    }
    TwoOlds(d, a, u, x, y);
    AtPlain(d, a, u);
    assert plan[n + 0] == RuleDel(OldPlains(d, a, u)[0]);
    assert plan[..n + 1] == plan[..n] + [RuleDel(x)];
    ExecSnoc(d.k, plan[..n], RuleDel(x));
    hide RoutePlan, FailsAt;
    FailedShape(d, a, u);
    forall v | v in d.tables.Values
      ensures PlainRule(a, v) in Apply(Exec(d.k, plan[..n]), RuleDel(x)).rules <==> v == t || v == u
    {
      PlainsUntilAdd(d, a, u, v);
      AddThenDelete(Exec(d.k, RouteBody(d, a, u)[..n - 1]), PlainRule(a, u), x, PlainRule(a, v));
    }
  }

  lemma AddThenDelete(k: State, added: Rule, gone: Rule, r: Rule)
    requires GoodRules(k.rules) && IsPeerRule(added) && IsPeerRule(gone)
    ensures r in Apply(Apply(k, RuleAdd(added)), RuleDel(gone)).rules <==> (r in k.rules || r == added) && r != gone
  {
    InsertKeepsOrder(k.rules, added);
    var rules := InsertRule(k.rules, added);
    DeletionIsExact(rules, gone);
    hide Ordered;
    RemoveExact(rules, gone);
  }

  // ---------------------------------------------------------------- The reload

  /** The daemon after both failures: the first moving the peer to `y`, the second to `z`. */
  ghost function Strayed(c: Control, a: Addr, y: string, z: string, live: Live): (c2: Control)
    requires Sound(c, live) && MayStray(c, a, y, z, live)
    ensures c2 == c.(dp := c2.dp, torn := c2.torn) && c2.dp == c.dp.(k := c2.dp.k)
  {
    OnePlainAt(c, a, live, y, z);
    var s, t, u := TableOf(c, c.assignments[a]), TableOf(c, y), TableOf(c, z);
    FirstFailure(c.dp, a, s, t);
    var c1 := FailedMove(c, a, y, live, FailsAt(c.dp, a, t));
    FailedMoveIsSound(c, a, y, live, FailsAt(c.dp, a, t), []);
    SecondFailure(c1.dp, a, s, t, u);
    FailedMove(c1, a, z, live, FailsAt(c1.dp, a, u) + 1)
  }

  function TableOf(c: Control, name: string): nat
    requires InterfaceName(name) in c.dp.tables
  {
    c.dp.tables[InterfaceName(name)]
  }

  /** An authorised peer routed as it is assigned, and two more upstreams. */
  ghost predicate MayStray(c: Control, a: Addr, y: string, z: string, live: Live) {
    && a in c.dp.k.peers && a in c.assignments && a !in c.pending && a !in c.torn
    && y in live && z in live && c.assignments[a] != y && c.assignments[a] != z && y != z
    && InterfaceName(y) in c.dp.tables && InterfaceName(z) in c.dp.tables
  }

  lemma OnePlainAt(c: Control, a: Addr, live: Live, y: string, z: string)
    requires Sound(c, live) && MayStray(c, a, y, z, live)
    ensures InterfaceName(c.assignments[a]) in c.dp.tables && Owned(c.peers, a)
    ensures var s, t, u := TableOf(c, c.assignments[a]), TableOf(c, y), TableOf(c, z);
            Doubly(c.dp, a, s, s) && s != t && s != u && t != u
  {
    hide GoodRules, UniqueRoutes;
    InterfaceNames(c.assignments[a], y);
    InterfaceNames(c.assignments[a], z);
    InterfaceNames(y, z);
    assert InSync(c, a);
  }

  /** The daemon still promises everything, but the peer is left with the plain rules of upstreams it is
      not assigned to. */
  lemma StrayedIsSound(c: Control, a: Addr, y: string, z: string, live: Live, ups: seq<Upstream>)
    requires Sound(c, live) && MayStray(c, a, y, z, live) && AllPinsKept(c.dp, c.stale, ups)
    ensures var c2 := Strayed(c, a, y, z, live);
            && Sound(c2, live) && AllPinsKept(c2.dp, c2.stale, ups)
            && c2.dp.k == c.dp.k.(rules := c2.dp.k.rules)
            && Doubly(c2.dp, a, TableOf(c, y), TableOf(c, z))
  {
    hide Sound, AllPinsKept, Exec, FailedMove, FailsAt, RoutePlan, Doubly;
    OnePlainAt(c, a, live, y, z);
    var s, t, u := TableOf(c, c.assignments[a]), TableOf(c, y), TableOf(c, z);
    SoundIsGood(c, live);
    FirstFailure(c.dp, a, s, t);
    FailedMoveIsSound(c, a, y, live, FailsAt(c.dp, a, t), ups);
    var c1 := FailedMove(c, a, y, live, FailsAt(c.dp, a, t));
    SoundIsGood(c1, live);
    SecondFailure(c1.dp, a, s, t, u);
    FailedMoveIsSound(c1, a, z, live, FailsAt(c1.dp, a, u) + 1, ups);
  }

  lemma SoundIsGood(c: Control, live: Live)
    requires Sound(c, live)
    ensures GoodDp(c.dp) && Guarded(c.dp)
  {
  }

  /** Any reload now that keeps the upstream the peer is assigned to, drops the two others and is taken
      by the dataplane leaves the peer authorised and assigned, without unfinished cleanup, and without a
      plain rule. */
  lemma ReloadUncovers(c: Control, a: Addr, y: string, z: string, live: Live, c3: Control, d: Dp, keep: set<string>,
                       dropped: set<string>)
    requires Sound(c, live) && MayStray(c, a, y, z, live)
    requires Dropping(Strayed(c, a, y, z, live), c3, dropped) && c.assignments[a] !in dropped
    requires Complete(c3.dp, d, keep) && InterfaceName(y) !in keep && InterfaceName(z) !in keep
    ensures a in d.k.peers && a !in c3.pending && a in c3.assignments && c3.assignments[a] == c.assignments[a]
    ensures !HasPlain(d.k.rules, d.tables, a)
  {
    hide Sound, Strayed, Complete, HasPlain, StaysCovered, Dropping;
    var c2 := Strayed(c, a, y, z, live);
    assert AllPinsKept(c.dp, c.stale, []);
    StrayedIsSound(c, a, y, z, live, []);
    SoundIsGood(c2, live);
    DroppingAt(c2, c3, dropped, a);
    CompletePeers(c3.dp, d, keep);
    CoverAfterChange(c2, c3, d, keep, dropped, a);
    NotCovered(c2, a, y, z, keep);
  }

  lemma CompletePeers(d: Dp, d': Dp, keep: set<string>)
    requires Complete(d, d', keep)
    ensures d'.k.peers == d.k.peers
  {
  }

  lemma NotCovered(c: Control, a: Addr, y: string, z: string, keep: set<string>)
    requires GoodTables(c.dp.tables) && InterfaceName(y) in c.dp.tables && InterfaceName(z) in c.dp.tables
    requires Doubly(c.dp, a, TableOf(c, y), TableOf(c, z)) && InterfaceName(y) !in keep && InterfaceName(z) !in keep
    ensures !StaysCovered(c, keep, a)
  {
  }

  /** What a completed change leaves that only takes upstreams away. */
  ghost function Shrunk(d: Dp, keep: set<string>): Dp {
    var tables := map n | n in d.tables && n in keep :: d.tables[n];
    var dead := set r | r in d.k.rules && Own(d.tables).Wants(r) && r.table !in tables.Values;
    d.(k := d.k.(rules := Minus(d.k.rules, dead), routes := (set rt | rt in d.k.routes && rt.table in tables.Values),
                 marks := tables),
       tables := tables, alive := d.alive * keep)
  }

  /** Such a change is one: the theorem is not about nothing. */
  lemma ShrunkIsComplete(d: Dp, keep: set<string>)
    requires GoodDp(d) && UniqueRoutes(d.k.routes) && WiredUp(d, d.tables.Keys) && keep <= d.tables.Keys
    ensures Complete(d, Shrunk(d, keep), keep)
  {
    hide Ordered, Minus;
    var d' := Shrunk(d, keep);
    MinusIsGood(d.k.rules, set r | r in d.k.rules && Own(d.tables).Wants(r) && r.table !in d'.tables.Values);
    assert d'.tables.Keys == keep;
    forall n | n in keep ensures Leaves(d'.k.routes, d'.tables[n], n) {
      LeavesStays(d.k.routes, d'.k.routes, d.tables[n], n);
    }
    forall r | IsPeerRule(r) && r in d.k.rules && r !in d'.k.rules
      ensures exists n :: n in d.tables && n !in keep && d.tables[n] == r.table
    {
      forall n | n in keep ensures d.tables[n] != r.table {
        assert d'.tables[n] in d'.tables.Values;
      }
    }
    forall n | n in d.tables && n !in keep ensures NoPeerRuleAt(d'.k.rules, d.tables[n]) {
      forall r | r in d'.k.rules && IsPeerRule(r) ensures r.table != d.tables[n] {
        assert r.table == d.tables[n] ==> Own(d.tables).Wants(r);
      }
    }
  }

  /** The two failures and the reload in full, for every authorised peer that is routed as it is assigned:
      with two more upstreams in service that nobody is assigned to, and a configuration that drops them,
      the daemon can come to a state in which all it promises holds and the peer has no plain rule. */
  lemma PeerIsUncovered(c: Control, a: Addr, y: string, z: string, live: Live)
    requires Sound(c, live) && MayStray(c, a, y, z, live)
    requires WiredUp(c.dp, Interfaces(live)) && forall b :: b in c.assignments ==> c.assignments[b] !in {y, z}
    ensures var c2, rest := Strayed(c, a, y, z, live), live - {y, z};
            var d := Shrunk(c2.dp, Interfaces(rest));
            && Complete(c2.dp, d, Interfaces(rest)) && Sound(AfterChange(c2, d), rest)
            && a in d.k.peers && a !in c2.pending && a in c2.assignments && c2.assignments[a] == c.assignments[a]
            && !HasPlain(d.k.rules, d.tables, a)
  {
    hide Sound, Strayed, Complete, HasPlain, Shrunk, AfterChange, MayStray, WiredUp, Dropping, Interfaces;
    var c2, rest := Strayed(c, a, y, z, live), live - {y, z};
    var keep := Interfaces(rest);
    var d := Shrunk(c2.dp, keep);
    assert AllPinsKept(c.dp, c.stale, []);
    StrayedIsSound(c, a, y, z, live, []);
    Smaller(c, c2, a, y, z, live);
    ShrunkIsComplete(c2.dp, keep);
    SoundWithout(c2, y, z, live);
    ShrunkStays(c2.dp, keep);
    CompleteIsChange(c2.dp, d, keep);
    ChangeKeepsSound(c2, d, rest);
    DroppingStart(c2, {});
    ReloadUncovers(c, a, y, z, live, c2, d, keep, {});
  }

  lemma Smaller(c: Control, c2: Control, a: Addr, y: string, z: string, live: Live)
    requires Sound(c, live) && MayStray(c, a, y, z, live) && WiredUp(c.dp, Interfaces(live)) && Sound(c2, live)
    requires c2.dp.tables == c.dp.tables && c2.dp.k == c.dp.k.(rules := c2.dp.k.rules)
    ensures GoodDp(c2.dp) && Guarded(c2.dp) && UniqueRoutes(c2.dp.k.routes) && WiredUp(c2.dp, c2.dp.tables.Keys)
    ensures Interfaces(live - {y, z}) <= c2.dp.tables.Keys
    ensures InterfaceName(y) !in Interfaces(live - {y, z}) && InterfaceName(z) !in Interfaces(live - {y, z})
  {
    hide GoodRules, GoodTables, UniqueRoutes, Leaves, Synced, Booked, Admitted, UpToDate;
    forall n | n in live - {y, z} ensures InterfaceName(n) != InterfaceName(y) && InterfaceName(n) != InterfaceName(z) {
      InterfaceNames(n, y);
      InterfaceNames(n, z);
    }
  }

  lemma SoundWithout(c: Control, y: string, z: string, live: Live)
    requires Sound(c, live) && forall b :: b in c.assignments ==> c.assignments[b] !in {y, z}
    ensures Sound(c, live - {y, z})
  {
    hide Sound;
    DropKeepsSound(c, y, live, c.stale);
    DropKeepsSound(c, z, live - {y}, c.stale);
    assert live - {y} - {z} == live - {y, z};
  }

  lemma ShrunkStays(d: Dp, keep: set<string>)
    requires Guarded(d)
    ensures Guarded(Shrunk(d, keep))
  {
  }

  lemma CompleteIsChange(d: Dp, d': Dp, keep: set<string>)
    requires Complete(d, d', keep)
    ensures Changed(d, d', keep)
  {
    hide Changed;
  }

  // ---------------------------------------------------------------- One such daemon

  /** Three upstreams are up. */
  function Ups(): seq<Upstream> {
    var track := Health.Track(3, 2, Health.Up, 0, 1, 5);
    [Upstream(Policy.Upstream("a", "a.conf", "", ""), "A", 101, 0, track),
     Upstream(Policy.Upstream("b", "b.conf", "", ""), "B", 102, 1, track),
     Upstream(Policy.Upstream("c", "c.conf", "", ""), "C", 103, 2, track)]
  }

  function UpTables(): Tables {
    map[InterfaceName("a") := 1000, InterfaceName("b") := 1001, InterfaceName("c") := 1002]
  }

  /** Their devices are open and each is wired and probed; the only peer, 7, is authorised and routed
      through the first. */
  function Start(): Control {
    var a, b, c := InterfaceName("a"), InterfaceName("b"), InterfaceName("c");
    var k := State([ProbeRule(101, 1000, a), ProbeRule(102, 1001, b), ProbeRule(103, 1002, c), PlainRule(7, 1000)],
                   {DefaultRoute(1000, a), DefaultRoute(1001, b), DefaultRoute(1002, c)}, true, {7}, UpTables(),
                   LinkUp, {1}, map[0 := a, 1 := b, 2 := c]);
    Control(Dp(k, UpTables(), {a, b, c}, {7}), map[7 := "a"], {}, map[1 := Peer(1, 7, "any")], {}, map[7 := 0], {}, {})
  }

  lemma UpsLive()
    ensures LiveOf(Ups()) == map["a" := 0, "b" := 1, "c" := 2] && DistinctUps(Ups())
  {
    var ups := Ups();
    assert ups[..2][..1] == [ups[0]] && ups[..2] == [ups[0], ups[1]] && [ups[0]][..0] == [];
    assert LiveOf([]) == map[];
    assert LiveOf([ups[0]]) == map["a" := 0];
    assert LiveOf(ups[..2]) == map["a" := 0, "b" := 1];
  }

  lemma UpTablesAreGood()
    ensures GoodTables(UpTables())
    ensures forall n :: n in UpTables() <==>
              n == InterfaceName("a") || n == InterfaceName("b") || n == InterfaceName("c")
    ensures InterfaceName("a") != InterfaceName("b") && InterfaceName("a") != InterfaceName("c")
    ensures InterfaceName("b") != InterfaceName("c")
  {
    InterfaceNames("a", "b");
    InterfaceNames("b", "c");
    InterfaceNames("c", "a");
    hide InterfaceName;
  }

  lemma StartRules()
    ensures GoodRules(Start().dp.k.rules)
  {
    hide InterfaceName;
  }

  /** It is a state of a running daemon, and the theorem applies to it. */
  lemma StartIsSound()
    ensures var c, live := Start(), LiveOf(Ups());
            && Sound(c, live) && DistinctUps(Ups()) && AllPinsKept(c.dp, c.stale, Ups())
            && Conserved(c.dp.k.devices, [], 3, live) && Probed(c.dp, InterfaceList(Ups()))
            && WiredUp(c.dp, Interfaces(live)) && MayStray(c, 7, "b", "c", live)
            && forall b :: b in c.assignments ==> c.assignments[b] !in {"b", "c"}
  {
    UpsLive();
    hide *;
    StartIsGrounded();
    StartBooks();
    StartSync();
    StartDevices();
    StartWires();
    StartHealth();
    StartStrays();
    SoundWhole(Start(), map["a" := 0, "b" := 1, "c" := 2]);
  }

  lemma SoundWhole(c: Control, live: Live)
    requires Grounded(c.dp) && Admitted(c) && Booked(c) && UpToDate(c, live) && Synced(c)
    ensures Sound(c, live)
  {
  }

  lemma StartIsGrounded()
    ensures Grounded(Start().dp)
  {
    UpTablesAreGood();
    StartRules();
    hide InterfaceName, GoodRules;
  }

  lemma StartStrays()
    ensures var c, live := Start(), map["a" := 0, "b" := 1, "c" := 2];
            && MayStray(c, 7, "b", "c", live) && c.stale == {}
            && forall b :: b in c.assignments ==> c.assignments[b] !in {"b", "c"}
  {
    UpTablesAreGood();
    hide InterfaceName, GoodTables;
    assert Start().assignments[7] == "a";
  }

  lemma StartBooks()
    ensures Admitted(Start()) && Booked(Start())
  {
    hide InterfaceName;
    assert Start().peers[1].ip == 7;
  }

  lemma StartSync()
    ensures var c, live := Start(), map["a" := 0, "b" := 1, "c" := 2]; UpToDate(c, live) && Synced(c)
  {
    UpTablesAreGood();
    hide InterfaceName, GoodTables;
    var c, live: Live := Start(), map["a" := 0, "b" := 1, "c" := 2];
    assert c.via[7] == live["a"];
    forall a: Addr ensures InSync(c, a) {
    }
  }

  lemma StartDevices()
    ensures var c, live := Start(), map["a" := 0, "b" := 1, "c" := 2];
            Conserved(c.dp.k.devices, [], 3, live)
  {
    UpTablesAreGood();
    hide InterfaceName, GoodTables;
    var live: Live := map["a" := 0, "b" := 1, "c" := 2];
    assert live["a"] == 0 && live["b"] == 1 && live["c"] == 2;
  }

  lemma StartWires()
    ensures WiredUp(Start().dp, Interfaces(map["a" := 0, "b" := 1, "c" := 2]))
  {
    UpTablesAreGood();
    hide InterfaceName, GoodTables;
    var c, live: Live := Start(), map["a" := 0, "b" := 1, "c" := 2];
    assert Interfaces(live) == UpTables().Keys;
    forall n | n in UpTables() ensures Leaves(c.dp.k.routes, UpTables()[n], n) {
      assert DefaultRoute(UpTables()[n], n) in c.dp.k.routes;
    }
  }

  lemma StartHealth()
    ensures AllPinsKept(Start().dp, {}, Ups()) && Probed(Start().dp, InterfaceList(Ups()))
  {
    UpTablesAreGood();
    hide InterfaceName, GoodTables;
  }
}
