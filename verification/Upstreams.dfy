/**
Upstream tables: what adding and removing an upstream may change, which tables and leftovers Lotsman
treats as its own, and that deletion by selectors removes exactly the listed rules.
 */
module Upstreams {
  import opened Kernel
  import opened LinuxRules

  datatype Interface = Interface(name: string, addr: Addr)

  function Names(ups: seq<Interface>): set<string> { set up | up in ups :: up.name }

  /** The only route of an upstream table. */
  function DefaultRoute(table: nat, link: string): Route { Route(table, 0, link, false) }

  predicate TableBusy(table: nat, s: State) {
    (exists rt :: rt in s.routes && rt.table == table) || (exists r :: r in s.rules && r.table == table)
  }

  predicate FreeTable(table: nat, d: Dp) {
    InRange(table) && table !in d.tables.Values && !TableBusy(table, d.k)
  }

  ghost predicate UniqueRoutes(routes: set<Route>) {
    forall a, b :: a in routes && b in routes && a.table == b.table && a.dst == b.dst ==> a == b
  }

  // ---------------------------------------------------------------- What can be in the way

  /** The table has a default route, and a route that is not the upstream's own. */
  ghost predicate Occupied(routes: set<Route>, table: nat, link: string) {
    HasDefault(routes, table) && exists x :: x in routes && x.table == table && (x.link != link || x.dst != 0)
  }

  /** A table of the range that no upstream has and that no route and no rule is about. */
  ghost predicate Idle(t: nat, d: Dp) {
    && 1000 <= t < 1100 && (forall n :: n in d.tables ==> d.tables[n] != t)
    && (forall rt :: rt in d.k.routes ==> rt.table != t) && (forall r :: r in d.k.rules ==> r.table != t)
  }

  ghost function IdleTables(d: Dp): set<nat> { set t | 1000 <= t < 1100 && Idle(t, d) }

  lemma FreeIsIdle(t: nat, d: Dp)
    ensures FreeTable(t, d) <==> Idle(t, d)
  {
  }

  // ---------------------------------------------------------------- Deleting exactly

  function Elems(rules: seq<Rule>): set<Rule> { set r | r in rules }

  /** The kernel without some of its rules. */
  ghost predicate Without(from: State, dead: set<Rule>, s: State) { s == from.(rules := Minus(from.rules, dead)) }

  lemma WithoutNothing(from: State)
    ensures Without(from, {}, from)
  {
    MinusNothing(from.rules, {});
  }

  lemma WithoutOne(from: State, dead: set<Rule>, s: State, r: Rule)
    requires GoodRules(from.rules) && Without(from, dead, s)
    requires r in from.rules && r !in dead && Ours(r) && !ProbeAmbiguous(r, from.rules)
    ensures Possible(s, RuleDel(r)) && Without(from, dead + {r}, Apply(s, RuleDel(r)))
  {
    DeleteOne(from.rules, dead, r);
  }

  /** With `dead` already gone, deleting another listed rule takes that rule and no other. */
  lemma DeleteOne(rules: seq<Rule>, dead: set<Rule>, r: Rule)
    requires GoodRules(rules) && r in rules && r !in dead && Ours(r) && !ProbeAmbiguous(r, rules)
    ensures RemoveRule(Minus(rules, dead), r) == Minus(rules, dead + {r})
    ensures exists x :: x in Minus(rules, dead) && Matches(r, x)
  {
    MinusKeepsOrder(rules, dead);
    DeletionIsExact(rules, r);
    hide Ordered;
    RemoveExact(Minus(rules, dead), r);
    MinusMinus(rules, dead, {r});
    assert r in Minus(rules, dead) && Matches(r, r);
  }

  lemma MinusIsGood(rules: seq<Rule>, dead: set<Rule>)
    requires GoodRules(rules)
    ensures GoodRules(Minus(rules, dead))
  {
    hide Ordered;
    MinusKeepsOrder(rules, dead);
  }

  lemma ElemsSnoc(rules: seq<Rule>, i: nat)
    requires Ordered(rules) && i < |rules|
    ensures Elems(rules[..i + 1]) == Elems(rules[..i]) + {rules[i]} && rules[i] !in Elems(rules[..i])
  {
    assert rules[..i + 1] == rules[..i] + [rules[i]];
  }

  /** Leftovers are listed in order, are in the kernel, and are ours. */
  lemma LeftoverListing(rules: seq<Rule>, routes: set<Route>)
    requires Ordered(rules)
    ensures Ordered(Pick(LeftoverAmong(routes), rules))
    ensures forall r :: r in Pick(LeftoverAmong(routes), rules) <==> r in rules && Leftover(r, routes)
  {
    PickKeepsOrder(LeftoverAmong(routes), rules);
    forall r ensures r in Pick(LeftoverAmong(routes), rules) <==> r in rules && Leftover(r, routes) {
      Picked(LeftoverAmong(routes), rules, r);
    }
  }

  /** One more rule of a listing, as the set of rules to delete. */
  lemma ElemsNext(f: Filter, rules: seq<Rule>, i: nat)
    requires Ordered(rules) && i < |rules|
    ensures Elems(Pick(f, rules[..i + 1])) == Elems(Pick(f, rules[..i])) + if f.Wants(rules[i]) then {rules[i]} else {}
    ensures rules[i] !in Elems(Pick(f, rules[..i]))
  {
    PickAt(f, rules, i);
    Picked(f, rules[..i], rules[i]);
  }

  // ---------------------------------------------------------------- Cleaning up after an earlier run

  /** What removing leftovers deletes: nothing but rules and routes this program installs, no route of a
      table with a route that is not, and no rule that is disputed. `done` says that it deletes all of the
      rest. */
  ghost predicate Reclaimed(rules: seq<Rule>, routes: set<Route>, rules': seq<Rule>, routes': set<Route>, done: bool) {
    && (forall r :: r in rules' ==> r in rules) && routes' <= routes
    && (forall r :: r in rules && r !in rules' ==> Installed(r) && !Disputed(r, routes))
    && (forall rt :: rt in routes && rt !in routes' ==> Reclaimable(rt.table, routes))
    && (done ==> forall r :: r in rules' && Installed(r) ==> Disputed(r, routes))
    && (done ==> forall rt :: rt in routes' ==> !Reclaimable(rt.table, routes))
  }

  /** A table of the range in which there are only routes of this program. */
  ghost predicate Reclaimable(table: nat, routes: set<Route>) {
    1000 <= table < 1100 && forall x :: x in routes && x.table == table ==> !Alien(x)
  }

  /** A table with a route of other software is left alone: all its routes and all rules about it stay. */
  lemma AlienTablesStay(rules: seq<Rule>, routes: set<Route>, rules': seq<Rule>, routes': set<Route>, done: bool,
                        x: Route)
    requires Reclaimed(rules, routes, rules', routes', done) && x in routes && Alien(x)
    ensures forall rt :: rt in routes && rt.table == x.table ==> rt in routes'
    ensures forall r :: r in rules && r.table == x.table ==> r in rules'
  {
    hide Alien, Installed;
  }

  lemma ReclaimedSome(rules: seq<Rule>, routes: set<Route>, owned: seq<Rule>, dead: set<Rule>, routes': set<Route>,
                      done: bool)
    requires owned == Pick(LeftoverAmong(routes), rules) && dead <= Elems(owned) && routes' <= routes
    requires forall rt :: rt in routes && rt !in routes' ==> OwnedTable(rt.table, routes)
    requires done ==> dead == Elems(owned) && forall rt :: rt in routes' ==> !OwnedTable(rt.table, routes)
    ensures Reclaimed(rules, routes, Minus(rules, dead), routes', done)
  {
    forall r ensures r in owned <==> r in rules && Installed(r) && !Disputed(r, routes) {
      Picked(LeftoverAmong(routes), rules, r);
      LeftoversAreInstalled(r, routes);
    }
    forall t: nat ensures OwnedTable(t, routes) <==> Reclaimable(t, routes) {
      OwnedTablesHoldNoAlien(t, routes);
    }
    hide Pick, Installed, Disputed, OwnedTable, Reclaimable;
  }

  /** A leftover that cannot be deleted, because its selectors match another rule as well. */
  ghost predicate Stuck(rules: seq<Rule>, routes: set<Route>) {
    exists r, x :: r in rules && x in rules && Installed(r) && !Disputed(r, routes) && r.priority == 4000 &&
                   Matches(r, x) && x != r
  }

  lemma StuckIsAmbiguous(rules: seq<Rule>, routes: set<Route>)
    ensures Stuck(rules, routes) <==> Ambiguous(Pick(LeftoverAmong(routes), rules), rules)
  {
    var owned := Pick(LeftoverAmong(routes), rules);
    forall r ensures r in owned <==> r in rules && Installed(r) && !Disputed(r, routes) {
      Picked(LeftoverAmong(routes), rules, r);
      LeftoversAreInstalled(r, routes);
    }
    hide Pick, Disputed, Leftover;
    if Ambiguous(owned, rules) {
      var r :| r in owned && ProbeAmbiguous(r, rules);
      OursAreInstalled(r);
      AmbiguousMatches(r, rules);
    }
    forall r, x | r in rules && x in rules && Installed(r) && !Disputed(r, routes) && r.priority == 4000 &&
                  Matches(r, x) && x != r
      ensures Ambiguous(owned, rules)
    {
      OursAreInstalled(r);
      AmbiguousMatches(r, rules);
      assert r in owned;
    }
  }

  // ---------------------------------------------------------------- Adding and removing an upstream

  ghost predicate SameButRouting(d: Dp, d': Dp) {
    d' == d.(k := d.k.(rules := d'.k.rules, routes := d'.k.routes, marks := d'.k.marks), tables := d'.tables,
             alive := d'.alive)
  }

  ghost predicate GoodUps(d: Dp) { GoodDp(d) && UniqueRoutes(d.k.routes) }

  /** What adding an upstream may change, whether it succeeds or not. */
  ghost predicate Added(d: Dp, d': Dp, up: Interface) {
    && SameButRouting(d, d') && d'.alive == d.alive && d'.k.marks == d.k.marks && GoodUps(d')
    && (d'.tables == d.tables ||
        (up.name !in d.tables && up.name in d'.tables && d'.tables == d.tables[up.name := d'.tables[up.name]]
         && FreeTable(d'.tables[up.name], d)))
    && (forall r :: r in d.k.rules ==> r in d'.k.rules)
    && (forall r :: r in d'.k.rules && r !in d.k.rules ==>
          up.name in d'.tables && r == ProbeRule(up.addr, d'.tables[up.name], up.name))
    && d.k.routes <= d'.k.routes
    && (forall rt :: rt in d'.k.routes && rt !in d.k.routes ==>
          up.name in d'.tables && rt == DefaultRoute(d'.tables[up.name], up.name))
  }

  lemma AddedTable(d: Dp, up: Interface, table: nat)
    requires GoodUps(d)
    ensures Added(d, d, up)
    ensures up.name !in d.tables && IsUpName(up.name) && FreeTable(table, d) ==>
              Added(d, d.(tables := d.tables[up.name := table]), up)
  {
    hide GoodRules;
  }

  lemma AddedRoute(d: Dp, e: Dp, up: Interface, routes: set<Route>)
    requires Added(d, e, up) && up.name in e.tables
    requires routes == e.k.routes ||
             (!HasDefault(e.k.routes, e.tables[up.name]) &&
              routes == e.k.routes + {DefaultRoute(e.tables[up.name], up.name)})
    ensures Added(d, e.(k := e.k.(routes := routes)), up)
  {
    hide GoodRules;
  }

  lemma AddedProbe(d: Dp, e: Dp, up: Interface)
    requires Added(d, e, up) && up.name in e.tables && IsUpName(up.name)
    ensures var r := ProbeRule(up.addr, e.tables[up.name], up.name);
            && Added(d, e.(k := Apply(e.k, RuleAdd(r))), up)
            && r in Apply(e.k, RuleAdd(r)).rules && Apply(e.k, RuleAdd(r)).routes == e.k.routes
            && Possible(e.k, RuleAdd(r)) && Named(r)
  {
    InsertKeepsOrder(e.k.rules, ProbeRule(up.addr, e.tables[up.name], up.name));
    hide Ordered, InsertRule;
  }

  lemma AddedIsGood(d: Dp, e: Dp, up: Interface)
    requires Added(d, e, up)
    ensures GoodUps(e)
  {
    hide GoodUps;
  }

  /** What adding some upstreams in turn may change. */
  ghost predicate Grew(d: Dp, d': Dp, ups: seq<Interface>) {
    && GoodUps(d') && d'.tables.Keys <= d.tables.Keys + Names(ups)
    && (forall n :: n in d.tables ==> n in d'.tables && d'.tables[n] == d.tables[n])
    && (forall n :: n in d'.tables && n !in d.tables ==> Idle(d'.tables[n], d))
    && (forall r :: r in d.k.rules ==> r in d'.k.rules) && d.k.routes <= d'.k.routes
    && (forall r :: r in d'.k.rules && r !in d.k.rules ==>
          exists up :: up in ups && up.name in d'.tables && r == ProbeRule(up.addr, d'.tables[up.name], up.name))
    && (forall rt :: rt in d'.k.routes && rt !in d.k.routes ==>
          exists up :: up in ups && up.name in d'.tables && rt == DefaultRoute(d'.tables[up.name], up.name))
  }

  lemma GrewNothing(d: Dp)
    requires GoodUps(d)
    ensures Grew(d, d, [])
  {
    hide GoodUps;
  }

  lemma GrewOn(d: Dp, e: Dp, e': Dp, ups: seq<Interface>, up: Interface)
    requires Grew(d, e, ups) && Added(e, e', up)
    ensures Grew(d, e', ups + [up])
  {
    hide GoodUps, Idle;
    var all := ups + [up];
    assert up in all && forall x :: x in ups ==> x in all;
    forall n | n in e'.tables && n !in d.tables ensures Idle(e'.tables[n], d) {
      if n !in e.tables {
        FreeIsIdle(e'.tables[n], e);
        IdleBefore(e'.tables[n], d, e);
      }
    }
    forall rt | rt in e'.k.routes && rt !in d.k.routes
      ensures exists x :: x in all && x.name in e'.tables && rt == DefaultRoute(e'.tables[x.name], x.name)
    {
      if rt in e.k.routes {
        var x :| x in ups && x.name in e.tables && rt == DefaultRoute(e.tables[x.name], x.name);
        assert x in all;
      }
    }
    forall r | r in e'.k.rules && r !in d.k.rules
      ensures exists x :: x in all && x.name in e'.tables && r == ProbeRule(x.addr, e'.tables[x.name], x.name)
    {
      if r in e.k.rules {
        var x :| x in ups && x.name in e.tables && r == ProbeRule(x.addr, e.tables[x.name], x.name);
        assert x in all;
      }
    }
    forall n | n in e'.tables ensures n in d.tables.Keys + Names(all) {
      assert n in e.tables ==> n in e.tables.Keys;
    }
  }

  lemma IdleBefore(t: nat, d: Dp, e: Dp)
    requires Idle(t, e) && (forall r :: r in d.k.rules ==> r in e.k.rules) && d.k.routes <= e.k.routes
    requires forall n :: n in d.tables ==> n in e.tables && e.tables[n] == d.tables[n]
    ensures Idle(t, d)
  {
  }

  /** There are fewer free tables than upstreams that need one. */
  ghost predicate Crowded(d: Dp, ups: seq<Interface>) { |IdleTables(d)| < |Names(ups) - d.tables.Keys| }

  /** When adding an upstream finds no free table, there were too few at first. */
  lemma NoneIdle(d: Dp, e: Dp, ups: seq<Interface>, up: Interface, all: seq<Interface>)
    requires Grew(d, e, ups) && up.name !in e.tables && (forall t :: !FreeTable(t, e))
    requires up in all && forall x :: x in ups ==> x in all
    ensures Crowded(d, all)
  {
    var added := e.tables.Keys - d.tables.Keys;
    forall t | t in IdleTables(d) ensures exists n :: n in added && e.tables[n] == t {
      FreeIsIdle(t, e);
      TakenSince(d, e, ups, t);
    }
    AtMost(IdleTables(d), added, e.tables);
    GrewNames(d, e, ups, up, all);
    hide *;
    SetIsSmaller(added + {up.name}, Names(all) - d.tables.Keys);
    CrowdedIf(d, all);
  }

  lemma CrowdedIf(d: Dp, ups: seq<Interface>)
    ensures |IdleTables(d)| < |Names(ups) - d.tables.Keys| ==> Crowded(d, ups)
  {
    hide IdleTables;
  }

  lemma GrewNames(d: Dp, e: Dp, ups: seq<Interface>, up: Interface, all: seq<Interface>)
    requires Grew(d, e, ups) && up.name !in e.tables && up in all && forall x :: x in ups ==> x in all
    ensures up.name !in e.tables.Keys && (e.tables.Keys - d.tables.Keys) + {up.name} <= Names(all) - d.tables.Keys
  {
    hide GoodUps, Idle;
    assert up.name in Names(all);
    forall n | n in e.tables.Keys - d.tables.Keys ensures n in Names(all) {
      var x :| x in ups && x.name == n;
      assert x.name in Names(all);
    }
    assert up.name !in d.tables;
  }

  lemma TakenSince(d: Dp, e: Dp, ups: seq<Interface>, t: nat)
    requires Grew(d, e, ups) && Idle(t, d) && !Idle(t, e)
    ensures exists n :: n in e.tables.Keys - d.tables.Keys && e.tables[n] == t
  {
    hide GoodUps;
  }

  lemma {:induction false} AtMost(values: set<nat>, names: set<string>, tables: Tables)
    requires names <= tables.Keys && forall t :: t in values ==> exists n :: n in names && tables[n] == t
    ensures |values| <= |names|
    decreases |values|
  {
    if values != {} {
      var t :| t in values;
      var n :| n in names && tables[n] == t;
      AtMost(values - {t}, names - {n}, tables);
    }
  }

  lemma {:induction false} SetIsSmaller(a: set<string>, b: set<string>)
    requires a <= b
    ensures |a| <= |b|
    decreases |a|
  {
    if x :| x in a {
      SetIsSmaller(a - {x}, b - {x});
    }
  }

  /** A route that is in the way of an upstream was there at first, in the table the upstream had. */
  lemma OccupiedBefore(d: Dp, e: Dp, ups: seq<Interface>, up: Interface)
    requires GoodUps(d) && Grew(d, e, ups) && up.name in e.tables && Occupied(e.k.routes, e.tables[up.name], up.name)
    ensures up.name in Names(ups) || Hampered(d, up)
  {
    hide GoodRules, UniqueRoutes;
  }

  /** The table of the upstream has a default route, and a route that is not the upstream's own. */
  ghost predicate Hampered(d: Dp, up: Interface) {
    up.name in d.tables && Occupied(d.k.routes, d.tables[up.name], up.name)
  }

  /** Two of the upstreams have the same name. */
  ghost predicate Repeated(ups: seq<Interface>) { exists i, j :: 0 <= i < j < |ups| && ups[i].name == ups[j].name }

  lemma RepeatedAt(ups: seq<Interface>, i: nat)
    requires i < |ups| && ups[i].name in Names(ups[..i])
    ensures Repeated(ups)
  {
    var up :| up in ups[..i] && up.name == ups[i].name;
    var j :| 0 <= j < i && ups[..i][j] == up;
    assert ups[j].name == ups[i].name;
  }

  /** The probe rule of the upstream, or one next to which it is put, cannot be deleted without the risk of
      deleting another. */
  ghost predicate Shadowed(d: Dp, up: Interface) {
    up.name in d.tables &&
    var p := ProbeRule(up.addr, d.tables[up.name], up.name);
    exists x :: x in d.k.rules && x != p && (Matches(p, x) || (Installed(x) && x.priority == 4000 && Matches(x, p)))
  }

  /** An upstream has to go, and one of our probe rules cannot be told from another rule. */
  ghost predicate Tangled(d: Dp, ups: seq<Interface>) {
    && (exists n :: n in d.tables && n !in Names(ups))
    && (!Separate(d.k.rules, d.tables) || exists up :: up in ups && Shadowed(d, up))
  }

  /** What keeps a change of the upstreams from succeeding even if nothing fails. */
  ghost predicate Blocked(d: Dp, ups: seq<Interface>) {
    Crowded(d, ups) || (exists up :: up in ups && Hampered(d, up)) || Tangled(d, ups)
  }

  /** Why an upstream could not be added although nothing failed. */
  lemma WhyNotAdded(d: Dp, e: Dp, ups: seq<Interface>, i: nat)
    requires GoodUps(d) && i < |ups| && Grew(d, e, ups[..i])
    requires if ups[i].name in e.tables then Occupied(e.k.routes, e.tables[ups[i].name], ups[i].name)
             else forall t :: !FreeTable(t, e)
    ensures Blocked(d, ups) || Repeated(ups)
  {
    hide Grew, Occupied, Hampered, Crowded, Repeated, Tangled, FreeTable, GoodUps;
    assert ups[i] in ups && forall x :: x in ups[..i] ==> x in ups;
    if ups[i].name in e.tables {
      OccupiedBefore(d, e, ups[..i], ups[i]);
      if ups[i].name in Names(ups[..i]) {
        RepeatedAt(ups, i);
      }
    } else {
      NoneIdle(d, e, ups[..i], ups[i], ups);
    }
  }

  /** Why a listing is refused once the upstreams have been added. */
  lemma WhenSeparable(d: Dp, e: Dp, ups: seq<Interface>)
    requires GoodUps(d) && Grew(d, e, ups)
    ensures !Separate(e.k.rules, e.tables) && (exists n :: n in e.tables && n !in Names(ups)) ==> Blocked(d, ups)
  {
    hide GoodUps, Separate, Shadowed, Crowded, Hampered, Repeated;
    if !Separate(e.k.rules, e.tables) && Separate(d.k.rules, d.tables) && forall up :: up in ups ==> !Shadowed(d, up) {
      GrewSeparate(d, e, ups);
    }
    if n :| n in e.tables && n !in Names(ups) {
      assert n in e.tables.Keys && n in d.tables;
    }
  }

  /** Fewer rules and routes are not in the way if more are not. */
  lemma BlockedBefore(d: Dp, d': Dp, ups: seq<Interface>)
    requires d'.tables == d.tables && (forall r :: r in d'.k.rules ==> r in d.k.rules) && d'.k.routes <= d.k.routes
    requires Blocked(d', ups)
    ensures Blocked(d, ups)
  {
    if Crowded(d', ups) {
      forall t | t in IdleTables(d) ensures t in IdleTables(d') {
      }
      hide Idle, IdleTables;
      FewerTables(IdleTables(d), IdleTables(d'));
    } else if up :| up in ups && Hampered(d', up) {
      assert Hampered(d, up);
    } else {
      TangledBefore(d, d', ups);
    }
  }

  lemma TangledBefore(d: Dp, d': Dp, ups: seq<Interface>)
    requires d'.tables == d.tables && (forall r :: r in d'.k.rules ==> r in d.k.rules) && Tangled(d', ups)
    ensures Tangled(d, ups)
  {
    hide Installed;
    if Separate(d'.k.rules, d'.tables) {
      var up :| up in ups && Shadowed(d', up);
      assert Shadowed(d, up);
    } else {
      assert !Separate(d.k.rules, d.tables);
    }
  }

  /** Our probe rules can be told apart once upstreams have been added if and only if they could before, and
      no probe rule has come next to one that it cannot be told from. */
  lemma GrewSeparate(d: Dp, e: Dp, ups: seq<Interface>)
    requires GoodUps(d) && Grew(d, e, ups) && Separate(d.k.rules, d.tables)
    requires forall up :: up in ups ==> !Shadowed(d, up)
    ensures Separate(e.k.rules, e.tables)
  {
    hide GoodRules, UniqueRoutes;
    forall r, x | r in e.k.rules && x in e.k.rules && Held(r, e.tables) && r.priority == 4000 && Matches(r, x)
      ensures x == r
    {
      GrewApart(d, e, ups, r, x);
    }
  }

  lemma GrewApart(d: Dp, e: Dp, ups: seq<Interface>, r: Rule, x: Rule)
    requires GoodTables(e.tables) && Grew(d, e, ups) && Separate(d.k.rules, d.tables)
    requires forall up :: up in ups ==> !Shadowed(d, up)
    requires r in e.k.rules && x in e.k.rules && Held(r, e.tables) && r.priority == 4000 && Matches(r, x)
    ensures x == r
  {
    hide GoodUps;
  }

  lemma GrewMore(d: Dp, e: Dp, ups: seq<Interface>, all: seq<Interface>)
    requires Grew(d, e, ups) && forall up :: up in ups ==> up in all
    ensures Grew(d, e, all)
  {
    hide GoodUps, Idle;
    assert Names(ups) <= Names(all);
  }

  /** What a setup leaves of what it found, and what it adds: whatever is not this program's, or is disputed,
      stays; and if it succeeds, all that is there besides is what it has added. */
  ghost predicate Resettled(s: State, d: Dp, ups: seq<Interface>, done: bool) {
    && (forall r :: r in s.rules && r !in d.k.rules ==> Installed(r) && !Disputed(r, s.routes))
    && (forall rt :: rt in s.routes && rt !in d.k.routes ==> Reclaimable(rt.table, s.routes))
    && (done ==> forall r :: r in d.k.rules && Installed(r) ==>
          || (r in s.rules && Disputed(r, s.routes))
          || exists up :: up in ups && up.name in d.tables && r == ProbeRule(up.addr, d.tables[up.name], up.name))
    && (done ==> forall rt :: rt in d.k.routes ==>
          || (rt in s.routes && !Reclaimable(rt.table, s.routes))
          || exists up :: up in ups && up.name in d.tables && rt == DefaultRoute(d.tables[up.name], up.name))
  }

  lemma ResettledNothing(s: State, d: Dp, ups: seq<Interface>)
    requires d.k.rules == s.rules && d.k.routes == s.routes
    ensures Resettled(s, d, ups, false)
  {
  }

  lemma ResettledSame(s: State, s': State, d: Dp, d': Dp, ups: seq<Interface>, done: bool, done': bool)
    requires Resettled(s, d, ups, done) && (done' ==> done) && s'.rules == s.rules && s'.routes == s.routes
    requires d'.k.rules == d.k.rules && d'.k.routes == d.k.routes && d'.tables == d.tables
    ensures Resettled(s', d', ups, done')
  {
    hide Installed, Disputed, Reclaimable;
  }

  lemma ReclaimedNothing(s: State)
    ensures Reclaimed(s.rules, s.routes, s.rules, s.routes, false)
  {
  }

  lemma ReclaimedThenGrew(s: State, d: Dp, e: Dp, ups: seq<Interface>, done: bool)
    requires Reclaimed(s.rules, s.routes, d.k.rules, d.k.routes, done) && Grew(d, e, ups)
    ensures Resettled(s, e, ups, done)
  {
    hide GoodUps, Idle, Installed, Disputed, Reclaimable;
  }

  /** A table of the range in which nothing will be left. */
  ghost predicate Usable(t: nat, rules: seq<Rule>, routes: set<Route>) {
    Reclaimable(t, routes) && forall r :: r in rules && r.table == t ==> Installed(r) && !Disputed(r, routes)
  }

  ghost function UsableTables(rules: seq<Rule>, routes: set<Route>): set<nat> {
    set t | 1000 <= t < 1100 && Usable(t, rules, routes)
  }

  /** Fewer tables than upstreams can be had. */
  ghost predicate Scarce(rules: seq<Rule>, routes: set<Route>, ups: seq<Interface>) {
    |UsableTables(rules, routes)| < |Names(ups)|
  }

  lemma ScarceIfCrowded(s: State, d: Dp, ups: seq<Interface>)
    requires Reclaimed(s.rules, s.routes, d.k.rules, d.k.routes, true) && d.tables == map[] && Crowded(d, ups)
    ensures Scarce(s.rules, s.routes, ups)
  {
    forall t | t in UsableTables(s.rules, s.routes) ensures t in IdleTables(d) {
      UsableIsIdle(t, s, d);
    }
    hide UsableTables, Idle;
    FewerTables(UsableTables(s.rules, s.routes), IdleTables(d));
    assert Names(ups) - d.tables.Keys == Names(ups);
  }

  lemma UsableIsIdle(t: nat, s: State, d: Dp)
    requires Reclaimed(s.rules, s.routes, d.k.rules, d.k.routes, true) && d.tables == map[] &&
             Usable(t, s.rules, s.routes)
    ensures Idle(t, d)
  {
    hide Installed, Disputed;
  }

  lemma {:induction false} FewerTables(a: set<nat>, b: set<nat>)
    requires a <= b
    ensures |a| <= |b|
    decreases |a|
  {
    if x :| x in a {
      FewerTables(a - {x}, b - {x});
    }
  }

  /** What removing an upstream may change; `done` says whether it succeeded. */
  ghost predicate Removed(d: Dp, d': Dp, name: string, done: bool)
    requires name in d.tables
  {
    && SameButRouting(d, d') && d'.k.marks == d.k.marks && GoodUps(d')
    && d'.tables == (if done then d.tables - {name} else d.tables)
    && d'.alive == (if done then d.alive - {name} else d.alive)
    && (forall r :: r in d'.k.rules ==> r in d.k.rules)
    && (forall r :: r in d.k.rules && r !in d'.k.rules ==> Own(d.tables).Wants(r) && r.table == d.tables[name])
    && (done ==> forall r :: r in d'.k.rules && r.table == d.tables[name] ==> !Own(d.tables).Wants(r))
    && d'.k.routes <= d.k.routes
    && (forall rt :: rt in d.k.routes && rt !in d'.k.routes ==> rt.table == d.tables[name])
  }

  /** Progress of a removal: some of our rules at the table, and some of its routes, are gone. */
  lemma RemovedSome(d: Dp, name: string, dead: set<Rule>, routes: set<Route>, done: bool)
    requires GoodUps(d) && name in d.tables
    requires forall r :: r in dead ==> Own(d.tables).Wants(r) && r.table == d.tables[name]
    requires routes <= d.k.routes && forall rt :: rt in d.k.routes && rt !in routes ==> rt.table == d.tables[name]
    requires done ==> forall r :: r in d.k.rules && Own(d.tables).Wants(r) && r.table == d.tables[name] ==> r in dead
    ensures var k := d.k.(rules := Minus(d.k.rules, dead), routes := routes);
            Removed(d, d.(k := k, tables := if done then d.tables - {name} else d.tables,
                          alive := if done then d.alive - {name} else d.alive), name, done)
  {
    MinusIsGood(d.k.rules, dead);
    hide Ordered, Minus;
  }

  /** What the listing of a table's rules holds. */
  lemma ListedAt(d: Dp, table: nat, i: nat)
    requires GoodUps(d) && i <= |OwnRules(d.k.rules, d.tables)|
    ensures var dead := Elems(Pick(OfTable(table), OwnRules(d.k.rules, d.tables)[..i]));
            && (forall r :: r in dead ==> r in d.k.rules && Own(d.tables).Wants(r) && r.table == table)
            && (i == |OwnRules(d.k.rules, d.tables)| ==>
                forall r :: r in d.k.rules && Own(d.tables).Wants(r) && r.table == table ==> r in dead)
  {
    var all := OwnRules(d.k.rules, d.tables);
    forall r ensures r in Pick(OfTable(table), all[..i]) ==>
        r in d.k.rules && Own(d.tables).Wants(r) && r.table == table {
      Picked(OfTable(table), all[..i], r);
      Picked(Own(d.tables), d.k.rules, r);
    }
    if i == |all| {
      assert all[..i] == all;
      forall r | r in d.k.rules && Own(d.tables).Wants(r) && r.table == table ensures r in Pick(OfTable(table), all) {
        Picked(Own(d.tables), d.k.rules, r);
        Picked(OfTable(table), all, r);
      }
    }
  }

  /** The kernel once those of the first `i` of our rules that point at the table are gone. */
  ghost predicate Purged(d: Dp, table: nat, i: nat, s: State) {
    && i <= |OwnRules(d.k.rules, d.tables)|
    && s == d.k.(rules := Minus(d.k.rules, Elems(Pick(OfTable(table), OwnRules(d.k.rules, d.tables)[..i]))))
  }

  lemma PurgeStart(d: Dp, table: nat)
    ensures Purged(d, table, 0, d.k)
  {
    MinusNothing(d.k.rules, {});
    assert Elems([]) == {};
  }

  /** Deleting number `i` of our rules, when those of the table in front of it are gone. */
  lemma PurgeNext(d: Dp, table: nat, i: nat, s: State)
    requires GoodDp(d) && i < |OwnRules(d.k.rules, d.tables)| && Purged(d, table, i, s)
    requires !Ambiguous(OwnRules(d.k.rules, d.tables), d.k.rules)
    ensures var r := OwnRules(d.k.rules, d.tables)[i];
            if r.table == table then Possible(s, RuleDel(r)) && Purged(d, table, i + 1, Apply(s, RuleDel(r)))
            else Purged(d, table, i + 1, s)
  {
    var all := OwnRules(d.k.rules, d.tables);
    OwnListing(d.k.rules, d.tables);
    hide Ordered, OwnRules, Pick, ProbeAmbiguous, Ours, RemoveRule;
    ElemsNext(OfTable(table), all, i);
    assert all[i] in all;
    if all[i].table == table {
      DeleteOne(d.k.rules, Elems(Pick(OfTable(table), all[..i])), all[i]);
    } else {
      assert Elems(Pick(OfTable(table), all[..i + 1])) == Elems(Pick(OfTable(table), all[..i]));
    }
  }

  /** What a removal looks like that stopped behind rule `i`, with some routes of the table gone. */
  lemma PurgeRemoves(d: Dp, name: string, i: nat, s: State, routes: set<Route>, done: bool)
    requires GoodUps(d) && name in d.tables && Purged(d, d.tables[name], i, s)
    requires routes <= d.k.routes && forall rt :: rt in d.k.routes && rt !in routes ==> rt.table == d.tables[name]
    requires done ==> i == |OwnRules(d.k.rules, d.tables)|
    ensures Removed(d, d.(k := s.(routes := routes), tables := if done then d.tables - {name} else d.tables,
                          alive := if done then d.alive - {name} else d.alive), name, done)
  {
    hide GoodUps, OwnRules, Pick, Removed;
    var dead := Elems(Pick(OfTable(d.tables[name]), OwnRules(d.k.rules, d.tables)[..i]));
    ListedAt(d, d.tables[name], i);
    RemovedSome(d, name, dead, routes, done);
  }

  lemma RemovedSeparate(d: Dp, e: Dp, name: string, done: bool)
    requires name in d.tables && Removed(d, e, name, done) && Separate(d.k.rules, d.tables)
    ensures Separate(e.k.rules, e.tables)
  {
    hide GoodUps, Installed;
  }

  lemma RemovedIsGood(d: Dp, e: Dp, name: string, done: bool)
    requires name in d.tables && Removed(d, e, name, done)
    ensures GoodDp(e) && UniqueRoutes(e.k.routes)
  {
  }

  // ---------------------------------------------------------------- Changing the set of upstreams

  ghost predicate NoPeerRuleAt(rules: seq<Rule>, table: nat) {
    forall r :: r in rules && IsPeerRule(r) ==> r.table != table
  }

  /** What a change towards the upstreams `keep` does at any point: tables of kept upstreams stay, new
      tables held nothing, and peer rules go only with the table of a dropped upstream. */
  ghost predicate Changed(d: Dp, d': Dp, keep: set<string>) {
    && SameButRouting(d, d') && GoodUps(d')
    && (forall n :: n in d.tables && n in keep ==> n in d'.tables)
    && (forall n :: n in d'.tables && n in d.tables ==> d'.tables[n] == d.tables[n])
    && (forall n :: n in d'.tables && n !in d.tables ==> n in keep && d'.tables[n] !in d.tables.Values)
    && (forall n :: n in d'.tables && n !in d.tables ==> NoPeerRuleAt(d'.k.rules, d'.tables[n]))
    && (forall r :: IsPeerRule(r) && r in d'.k.rules ==> r in d.k.rules)
    && (forall r :: IsPeerRule(r) && r in d.k.rules && r !in d'.k.rules ==>
          exists n :: n in d.tables && n !in keep && d.tables[n] == r.table)
    && (forall n :: n in d'.alive ==> n in d.alive)
    && (forall n :: n in d.alive && n !in d'.alive ==> n !in keep)
    && (forall n :: n in d.tables && n !in d'.tables ==> n !in d'.alive)
    && (forall n :: n in d'.k.marks ==> n in d.k.marks || IsUpName(n))
  }

  lemma AddKeepsChanged(d: Dp, e: Dp, e': Dp, up: Interface, keep: set<string>)
    requires Changed(d, e, keep) && Added(e, e', up) && up.name in keep
    requires forall n :: n in d.tables ==> n in e.tables
    ensures Changed(d, e', keep)
    ensures forall n :: n in d.tables ==> n in e'.tables
  {
    hide GoodUps;
  }

  lemma RemoveKeepsChanged(d: Dp, e: Dp, e': Dp, name: string, done: bool, keep: set<string>)
    requires Changed(d, e, keep) && name in e.tables && Removed(e, e', name, done) && name !in keep
    ensures Changed(d, e', keep)
  {
    hide GoodUps;
  }

  /** What a change towards `keep` adds: rules that no forwarded packet hits, because they are bound to an
      interface, and routes in tables of wanted upstreams; a new table is one that no rule pointed at. */
  ghost predicate AddsOwn(d: Dp, d': Dp, keep: set<string>) {
    && (forall r :: r in d'.k.rules && r !in d.k.rules ==> r.oif != "")
    && (forall rt :: rt in d'.k.routes && rt !in d.k.routes ==>
          exists n :: n in keep && n in d'.tables && d'.tables[n] == rt.table)
    && (forall n, r :: n in d'.tables && n !in d.tables && r in d.k.rules ==> r.table != d'.tables[n])
  }

  lemma AddsNothing(d: Dp, keep: set<string>)
    ensures AddsOwn(d, d, keep)
  {
  }

  lemma AddKeepsOwn(d: Dp, e: Dp, e': Dp, up: Interface, keep: set<string>)
    requires AddsOwn(d, e, keep) && Added(e, e', up) && up.name in keep && IsUpName(up.name)
    requires forall r :: r in d.k.rules ==> r in e.k.rules
    requires forall n :: n in d.tables ==> n in e.tables
    ensures AddsOwn(d, e', keep)
    ensures forall r :: r in d.k.rules ==> r in e'.k.rules
  {
    hide GoodUps;
  }

  lemma RemoveKeepsOwn(d: Dp, e: Dp, e': Dp, name: string, done: bool, keep: set<string>)
    requires AddsOwn(d, e, keep) && name in e.tables && Removed(e, e', name, done) && name !in keep
    ensures AddsOwn(d, e', keep)
  {
    hide GoodUps;
  }

  /** A change of the upstreams does nothing to peer rules of a kept upstream. */
  lemma ChangeKeepsRules(d: Dp, d': Dp, keep: set<string>, n: string, r: Rule)
    requires GoodTables(d.tables) && Changed(d, d', keep) && n in d.tables && n in keep && IsPeerRule(r) &&
             r.table == d.tables[n]
    ensures n in d'.tables && d'.tables[n] == d.tables[n] && (r in d'.k.rules <==> r in d.k.rules)
  {
    hide GoodRules, GoodUps;
  }

  lemma ChangedNothing(d: Dp, keep: set<string>)
    requires GoodUps(d)
    ensures Changed(d, d, keep)
  {
    hide GoodUps;
  }

  lemma ChangedIsGood(d: Dp, e: Dp, keep: set<string>)
    requires Changed(d, e, keep)
    ensures GoodDp(e) && UniqueRoutes(e.k.routes) && (Guarded(d) ==> Guarded(e))
  {
  }

  /** A completed change: exactly the wanted upstreams have a table, it leads out through them, their
      interfaces stamp with it, and no peer rule is left for a dropped upstream. */
  ghost predicate Complete(d: Dp, d': Dp, keep: set<string>) {
    && Changed(d, d', keep) && AddsOwn(d, d', keep)
    && d'.tables.Keys == keep && d'.k.marks == d'.tables
    && (forall n :: n in keep ==> Leaves(d'.k.routes, d'.tables[n], n))
    && (forall n :: n in d.tables && n !in keep ==> NoPeerRuleAt(d'.k.rules, d.tables[n]))
  }

  /** These upstreams have a table that leads out through them. */
  ghost predicate Linked(d: Dp, names: set<string>) {
    forall n :: n in names ==> n in d.tables && Leaves(d.k.routes, d.tables[n], n)
  }

  lemma AddLinks(d: Dp, d': Dp, up: Interface, names: set<string>)
    requires GoodDp(d) && Added(d, d', up) && Linked(d, names)
    requires up.name in d'.tables && Leaves(d'.k.routes, d'.tables[up.name], up.name)
    ensures Linked(d', names + {up.name})
  {
    forall n | n in names ensures n in d'.tables && Leaves(d'.k.routes, d'.tables[n], n) {
      assert d'.tables[n] == d.tables[n];
    }
  }

  /** Each upstream has its probe rule: bound to its address and interface, through its table. */
  ghost predicate Probed(d: Dp, ups: seq<Interface>) {
    forall up :: up in ups ==> up.name in d.tables && ProbeRule(up.addr, d.tables[up.name], up.name) in d.k.rules
  }

  lemma NoProbes(d: Dp, ups: seq<Interface>)
    ensures Probed(d, ups[..0])
  {
  }

  lemma AddProbes(e: Dp, e': Dp, ups: seq<Interface>, i: nat)
    requires i < |ups| && Probed(e, ups[..i]) && Added(e, e', ups[i])
    requires ups[i].name in e'.tables && ProbeRule(ups[i].addr, e'.tables[ups[i].name], ups[i].name) in e'.k.rules
    ensures Probed(e', ups[..i + 1])
  {
    hide GoodUps;
    assert ups[..i + 1] == ups[..i] + [ups[i]];
  }

  lemma RemoveKeepsProbes(e: Dp, e': Dp, name: string, done: bool, ups: seq<Interface>)
    requires GoodTables(e.tables) && name in e.tables && Removed(e, e', name, done) && Probed(e, ups) &&
             name !in Names(ups)
    ensures Probed(e', ups)
  {
    hide GoodUps, GoodRules;
    forall up | up in ups
      ensures up.name in e'.tables && ProbeRule(up.addr, e'.tables[up.name], up.name) in e'.k.rules
    {
      assert up.name in Names(ups);
    }
  }

  lemma SameProbes(e: Dp, e': Dp, ups: seq<Interface>)
    requires Probed(e, ups) && e'.tables == e.tables && e'.k.rules == e.k.rules
    ensures Probed(e', ups)
  {
  }

  /** No peer rule is left for an upstream that has lost its table. */
  ghost predicate Dropped(d: Dp, d': Dp) {
    forall n :: n in d.tables && n !in d'.tables ==> NoPeerRuleAt(d'.k.rules, d.tables[n])
  }

  lemma RemoveDrops(d: Dp, e: Dp, e': Dp, name: string, keep: set<string>)
    requires Changed(d, e, keep) && Linked(e, keep) && Dropped(d, e)
    requires name in e.tables && name !in keep && Removed(e, e', name, true)
    ensures Linked(e', keep) && Dropped(d, e')
  {
    hide GoodUps;
    forall n | n in keep ensures n in e'.tables && Leaves(e'.k.routes, e'.tables[n], n) {
      assert e.tables[n] != e.tables[name] by {
        ChangedIsGood(d, e, keep);
      }
      LeavesStays(e.k.routes, e'.k.routes, e.tables[n], n);
    }
    forall n | n in d.tables && n !in e'.tables ensures NoPeerRuleAt(e'.k.rules, d.tables[n]) {
      if n == name {
        forall r | r in e'.k.rules && IsPeerRule(r) ensures r.table != d.tables[name] {
          assert r.table == e.tables[name] ==> Own(e.tables).Wants(r);
        }
      }
    }
  }

  lemma LeavesStays(routes: set<Route>, routes': set<Route>, table: nat, link: string)
    requires Leaves(routes, table, link) && routes' <= routes
    requires forall rt :: rt in routes && rt !in routes' ==> rt.table != table
    ensures Leaves(routes', table, link)
  {
    var rt :| rt in routes && rt.table == table && rt.dst == 0;
  }

  /** All is in place but the marks. */
  lemma CompleteUp(d: Dp, e: Dp, keep: set<string>)
    requires Changed(d, e, keep) && AddsOwn(d, e, keep) && Linked(e, keep) && Dropped(d, e) && e.tables.Keys <= keep
    ensures e.tables.Keys == keep && Complete(d, e.(k := e.k.(marks := e.tables)), keep)
  {
    hide GoodRules, UniqueRoutes, Leaves, NoPeerRuleAt;
    assert forall n :: n in keep ==> n in e.tables.Keys;
    assert e.tables.Keys == keep;
  }

  lemma RemovedTables(e: Dp, e': Dp, name: string)
    requires name in e.tables && Removed(e, e', name, true)
    ensures e'.tables.Keys == e.tables.Keys - {name}
  {
  }

  lemma DroppedNothing(d: Dp, e: Dp)
    requires forall n :: n in d.tables ==> n in e.tables
    ensures Dropped(d, e)
  {
  }

  lemma NoElems(rules: seq<Rule>)
    ensures Elems(rules[..0]) == {}
  {
  }

  lemma StartsWhole(rules: seq<Rule>, owned: seq<Rule>)
    ensures exists dead :: dead <= Elems(owned) && rules == Minus(rules, dead)
  {
    MinusNothing(rules, {});
    assert {} <= Elems(owned) && rules == Minus(rules, {});
  }

  lemma SomeOf(rules: seq<Rule>, owned: seq<Rule>, n: nat)
    requires n <= |owned| && GoodRules(rules)
    ensures GoodRules(Minus(rules, Elems(owned[..n])))
    ensures Elems(owned[..n]) <= Elems(owned)
    ensures exists dead :: dead <= Elems(owned) && Minus(rules, Elems(owned[..n])) == Minus(rules, dead)
  {
    MinusIsGood(rules, Elems(owned[..n]));
    assert Elems(owned[..n]) <= Elems(owned);
  }

  lemma LinkedNone(d: Dp)
    ensures Linked(d, {})
  {
  }

  /** An upstream that gets a table gets one without peer rules. */
  lemma AddedFrame(e: Dp, e': Dp, up: Interface)
    requires Added(e, e', up) && forall n :: n in e.tables ==> NoPeerRuleAt(e.k.rules, e.tables[n])
    ensures forall n :: n in e'.tables ==> NoPeerRuleAt(e'.k.rules, e'.tables[n])
    ensures e'.k == e.k.(rules := e'.k.rules, routes := e'.k.routes)
    ensures up.name in e'.tables ==> e'.tables.Keys == e.tables.Keys + {up.name}
  {
    hide GoodUps;
    forall n | n in e'.tables ensures NoPeerRuleAt(e'.k.rules, e'.tables[n]) {
      forall r | r in e'.k.rules && IsPeerRule(r) ensures r.table != e'.tables[n] {
        assert r in e.k.rules;
        assert n in e.tables ==> NoPeerRuleAt(e.k.rules, e.tables[n]);
      }
    }
  }

  lemma SubsetUnique(routes: set<Route>, routes': set<Route>)
    requires UniqueRoutes(routes) && routes' <= routes
    ensures UniqueRoutes(routes')
  {
  }

  lemma WithoutIsGood(from: State, dead: set<Rule>, s: State)
    requires GoodRules(from.rules) && Without(from, dead, s)
    ensures GoodRules(s.rules) && s == from.(rules := Minus(from.rules, dead))
  {
    MinusIsGood(from.rules, dead);
  }

  lemma OwnListing(rules: seq<Rule>, tables: Tables)
    requires GoodRules(rules)
    ensures Ordered(OwnRules(rules, tables))
    ensures forall r :: r in OwnRules(rules, tables) ==> r in rules && Ours(r)
  {
    PickKeepsOrder(Own(tables), rules);
    forall r | r in OwnRules(rules, tables) ensures r in rules && Ours(r) {
      Picked(Own(tables), rules, r);
    }
  }

  lemma LinkedSame(d: Dp, e: Dp, names: set<string>)
    requires Linked(d, names) && e.tables == d.tables && e.k.routes == d.k.routes
    ensures Linked(e, names)
  {
  }
}
