/**
The Linux dataplane refines the in-memory one, and through it flows keep their upstream: the results
that span whole sequences of calls.
 */
module Refinement {
  import opened Wrappers
  import opened Kernel
  import opened LinuxRules
  import opened RouteSteps
  import opened LinuxDataplane
  import opened Upstreams
  import Fake

  ghost predicate SameAt(d: Dp, f: Fake.Maps, p: Addr, n: string)
    requires n in d.tables
  {
    && (PlainRule(p, d.tables[n]) in d.k.rules <==> p in f.routes && f.routes[p] == n)
    && (PinRule(p, d.tables[n]) in d.k.rules <==> (p, n) in f.pins)
  }

  /** Routes are read from the plain rules and pins from the pin rules. A kernel that simulates some
      `f` has at most one plain rule per peer in the upstream tables. */
  ghost predicate Simulates(d: Dp, f: Fake.Maps) {
    && f.ups == d.tables.Keys && f.alive == d.alive
    && (forall p :: p in f.routes ==> f.routes[p] in d.tables)
    && (forall p: Addr, n :: (p, n) in f.pins ==> n in d.tables)
    && (forall p: Addr, n :: n in d.tables ==> SameAt(d, f, p, n))
  }

  ghost predicate OnePlain(d: Dp) {
    forall p: Addr, m, n | m in d.tables && n in d.tables ::
      (PlainRule(p, d.tables[m]) in d.k.rules && PlainRule(p, d.tables[n]) in d.k.rules ==> m == n)
  }

  ghost function PlainName(d: Dp, p: Addr): (n: string)
    requires HasPlain(d.k.rules, d.tables, p)
    ensures n in d.tables && PlainRule(p, d.tables[n]) in d.k.rules
  {
    var n :| n in d.tables && PlainRule(p, d.tables[n]) in d.k.rules; n
  }

  /** The maps a kernel stands for. */
  ghost function Abs(d: Dp): Fake.Maps {
    var peers := set r | r in d.k.rules && r.src.Some? :: r.src.value;
    Fake.Maps(
      d.tables.Keys,
      map p | p in peers && HasPlain(d.k.rules, d.tables, p) :: PlainName(d, p),
      set p, n | p in peers && n in d.tables && PinRule(p, d.tables[n]) in d.k.rules :: (p, n),
      d.alive)
  }

  /** Exactly the kernels with at most one plain rule per peer simulate what they stand for. */
  lemma AbsSimulates(d: Dp)
    ensures Simulates(d, Abs(d)) <==> OnePlain(d)
  {
    var f := Abs(d);
    if OnePlain(d) {
      forall p: Addr, n | n in d.tables ensures SameAt(d, f, p, n) {
        var plain, pin := PlainRule(p, d.tables[n]), PinRule(p, d.tables[n]);
        assert plain in d.k.rules ==> plain.src.value == p && HasPlain(d.k.rules, d.tables, p);
        assert pin in d.k.rules ==> pin.src.value == p;
      }
    }
    if Simulates(d, f) {
      forall p: Addr, m, n | m in d.tables && n in d.tables &&
        PlainRule(p, d.tables[m]) in d.k.rules && PlainRule(p, d.tables[n]) in d.k.rules
        ensures m == n
      {
        assert SameAt(d, f, p, m) && SameAt(d, f, p, n);
      }
    }
  }

  // ---------------------------------------------------------------- One call

  /** Everything the refinement keeps. */
  ghost predicate Refines(d: Dp, f: Fake.Maps) { GoodDp(d) && Guarded(d) && Simulates(d, f) }

  lemma AliveName(d: Dp, n: string)
    requires GoodDp(d) && n in d.tables
    ensures AliveAt(d, d.tables[n]) <==> n in d.alive
  {
  }

  lemma RouteFrame(d: Dp, peer: Addr, table: nat)
    requires GoodDp(d) && Guarded(d) && table in d.tables.Values
    ensures var k := Exec(d.k, RoutePlan(d, peer, table));
            && GoodRules(k.rules) && k == d.k.(rules := k.rules, peers := d.k.peers + {peer})
            && forall r :: !IsPeerRuleOf(r, peer) ==> (r in k.rules <==> r in d.k.rules)
  {
    hide RoutePlan, RouteBody, GoodRules;
    var plan, body := RoutePlan(d, peer, table), RouteBody(d, peer, table);
    RouteStep(d, peer, table, |plan|);
    RouteBodyStep(d, peer, table, if |plan| <= |body| then |plan| else |plan| - 1);
    assert plan[..|plan|] == plan;
  }

  lemma RouteRefinesAt(d: Dp, f: Fake.Maps, peer: Addr, name: string, p: Addr, n: string)
    requires Refines(d, f) && name in d.tables && n in d.tables
    ensures SameAt(Routed(d, peer, name), f.Route(peer, name), p, n)
  {
    hide RoutePlan, GoodRules;
    var table := d.tables[name];
    assert SameAt(d, f, p, n) && SameAt(d, f, p, name);
    if p == peer {
      PlainsAfterRoute(d, peer, table, d.tables[n]);
      PinsAfterRoute(d, peer, table, d.tables[n]);
      AliveName(d, n);
      assert d.tables[n] == table <==> n == name;
    } else {
      RouteFrame(d, peer, table);
      assert !IsPeerRuleOf(PlainRule(p, d.tables[n]), peer) && !IsPeerRuleOf(PinRule(p, d.tables[n]), peer);
    }
  }

  /** A `Route` that returns nil is the fake's map update. */
  lemma RouteRefines(d: Dp, f: Fake.Maps, peer: Addr, name: string)
    requires Refines(d, f) && name in d.tables
    ensures Refines(Routed(d, peer, name), f.Route(peer, name))
  {
    hide RoutePlan, GoodRules;
    RouteFrame(d, peer, d.tables[name]);
    forall p: Addr, n | n in d.tables ensures SameAt(Routed(d, peer, name), f.Route(peer, name), p, n) {
      RouteRefinesAt(d, f, peer, name, p, n);
    }
  }

  lemma UnrouteFrame(d: Dp, peer: Addr)
    requires GoodDp(d) && Guarded(d)
    ensures var k := Exec(d.k, UnroutePlan(d, peer));
            && GoodRules(k.rules) && k == d.k.(rules := k.rules, peers := d.k.peers - {peer})
            && (forall r :: !IsPeerRuleOf(r, peer) ==> (r in k.rules <==> r in d.k.rules))
            && (forall r :: r in k.rules && IsPeerRuleOf(r, peer) ==> r.table !in d.tables.Values)
  {
    hide UnroutePlan, GoodRules;
    var plan := UnroutePlan(d, peer);
    UnrouteStep(d, peer, |plan|);
    assert plan[..|plan|] == plan;
    assert |plan| == 0 ==> peer !in d.k.peers by {
      UnrouteShape(d, peer);
    }
    assert peer !in d.k.peers ==> d.k.peers - {peer} == d.k.peers;
  }

  /** An `Unroute` that returns nil is the fake's map update. */
  lemma UnrouteRefines(d: Dp, f: Fake.Maps, peer: Addr)
    requires Refines(d, f)
    ensures Refines(Unrouted(d, peer), f.Unroute(peer))
  {
    hide UnroutePlan, GoodRules;
    UnrouteFrame(d, peer);
    var d', f' := Unrouted(d, peer), f.Unroute(peer);
    forall p: Addr, n | n in d.tables ensures SameAt(d', f', p, n) {
      assert SameAt(d, f, p, n);
      assert IsPeerRuleOf(PlainRule(p, d.tables[n]), peer) <==> p == peer;
      assert IsPeerRuleOf(PinRule(p, d.tables[n]), peer) <==> p == peer;
    }
  }

  lemma UnpinFrame(d: Dp, table: nat)
    requires GoodDp(d) && table in d.tables.Values
    ensures var k := Exec(d.k, UnpinPlan(d, table));
            && GoodRules(k.rules) && k == d.k.(rules := k.rules)
            && (forall r :: r in k.rules <==>
                r in d.k.rules && !(Ours(r) && r.priority == PIN_PRIORITY && r.table == table))
  {
    hide UnpinPlan, GoodRules;
    var plan, k := UnpinPlan(d, table), Exec(d.k, UnpinPlan(d, table));
    UnpinStep(d, table, |plan|);
    assert plan[..|plan|] == plan;
    forall r | r in k.rules ensures !(Ours(r) && r.priority == PIN_PRIORITY && r.table == table) {
      assert Ours(r) && r.priority == PIN_PRIORITY ==> r == PinRule(r.src.value, r.table);
    }
  }

  /** A `SetAlive` that returns nil is the fake's map update. */
  lemma SetAliveRefines(d: Dp, f: Fake.Maps, name: string, up: bool)
    requires Refines(d, f) && name in d.tables
    ensures Refines(Marked(d, name, up), f.SetAlive(name, up))
  {
    hide UnpinPlan, GoodRules;
    UnpinFrame(d, d.tables[name]);
    var d', f' := Marked(d, name, up), f.SetAlive(name, up);
    forall p: Addr, n | n in d.tables ensures SameAt(d', f', p, n) {
      assert SameAt(d, f, p, n);
      assert Ours(PlainRule(p, d.tables[n])) && Ours(PinRule(p, d.tables[n]));
      assert d.tables[n] == d.tables[name] <==> n == name;
    }
  }

  // ---------------------------------------------------------------- The set of upstreams

  /** `Setup` and `SetUpstreams` give each upstream one table, with the default route over it, and
      stamp with the number of that table. */
  ghost predicate Wired(d: Dp) {
    d.k.marks == d.tables && forall n :: n in d.tables ==> Leaves(d.k.routes, d.tables[n], n)
  }

  /** The base case: what a successful `Setup` leaves stands for maps without routes, pins and health. */
  lemma SetupRefines(d: Dp, names: set<string>)
    requires GoodDp(d) && Guarded(d) && d.k.marks == d.tables && d.tables.Keys == names && Linked(d, names)
    requires d.alive == {} && forall n :: n in d.tables ==> NoPeerRuleAt(d.k.rules, d.tables[n])
    ensures var f := Fake.Maps(names, map[], {}, {}); Refines(d, f) && f.Good() && Wired(d)
  {
    hide GoodRules;
    forall p: Addr, n | n in d.tables ensures SameAt(d, Fake.Maps(names, map[], {}, {}), p, n) {
      assert IsPeerRule(PlainRule(p, d.tables[n])) && IsPeerRule(PinRule(p, d.tables[n]));
    }
  }

  /** A `SetUpstreams` that returns nil forgets exactly what belongs to upstreams that are gone. */
  lemma ChangeRefines(d: Dp, d': Dp, f: Fake.Maps, keep: set<string>)
    requires Refines(d, f) && f.Good() && Complete(d, d', keep)
    ensures Refines(d', f.Within(keep)) && f.Within(keep).Good() && Wired(d')
  {
    hide GoodRules, UniqueRoutes, Leaves;
    ChangedIsGood(d, d', keep);
    var f' := f.Within(keep);
    assert f'.alive == d'.alive;
    forall p: Addr, n | n in keep ensures SameAt(d', f', p, n) {
      ChangeRefinesAt(d, d', f, keep, p, n);
    }
  }

  lemma ChangeRefinesAt(d: Dp, d': Dp, f: Fake.Maps, keep: set<string>, p: Addr, n: string)
    requires Refines(d, f) && Complete(d, d', keep) && n in keep
    ensures SameAt(d', f.Within(keep), p, n)
  {
    hide GoodRules, UniqueRoutes, Leaves;
    var t := d'.tables[n];
    assert IsPeerRule(PlainRule(p, t)) && IsPeerRule(PinRule(p, t));
    if n in d.tables {
      assert SameAt(d, f, p, n);
      ChangeKeepsRules(d, d', keep, n, PlainRule(p, t));
      ChangeKeepsRules(d, d', keep, n, PinRule(p, t));
    } else {
      assert NoPeerRuleAt(d'.k.rules, t);
    }
  }

  /** The fake forgets nothing then, so the two agree if and only if there is nothing to forget. */
  lemma FakeForgetsNothing(f: Fake.Maps, keep: set<string>)
    ensures f.SetUpstreams(keep) == f.Within(keep) <==>
            && (forall p :: p in f.routes ==> f.routes[p] in keep)
            && (forall p: Addr, u :: (p, u) in f.pins ==> u in keep)
            && f.alive <= keep
  {
    var g := f.Within(keep);
    if f.routes == g.routes {
      assert forall p :: p in f.routes ==> p in g.routes;
    }
    if forall p :: p in f.routes ==> f.routes[p] in keep {
      assert f.routes == g.routes;
    }
    if forall p: Addr, u :: (p, u) in f.pins ==> u in keep {
      assert forall x :: x in f.pins ==> (x.0, x.1) in f.pins;
      assert f.pins == g.pins;
    }
    if f.pins == g.pins {
      assert forall p: Addr, u :: (p, u) in f.pins ==> (p, u) in g.pins;
    }
    assert f.alive * keep == f.alive <==> f.alive <= keep;
  }

  // ---------------------------------------------------------------- Runs of calls

  datatype Call = RouteCall(peer: Addr, name: string) | UnrouteCall(peer: Addr) | AliveCall(name: string, up: bool)

  predicate Known(tables: Tables, c: Call) {
    match c
    case RouteCall(_, name) => name in tables
    case UnrouteCall(_) => true
    case AliveCall(name, _) => name in tables
  }

  function After(d: Dp, c: Call): (d': Dp)
    requires Known(d.tables, c)
    ensures d'.tables == d.tables
  {
    match c
    case RouteCall(peer, name) => Routed(d, peer, name)
    case UnrouteCall(peer) => Unrouted(d, peer)
    case AliveCall(name, up) => Marked(d, name, up)
  }

  function FakeAfter(f: Fake.Maps, c: Call): Fake.Maps {
    match c
    case RouteCall(peer, name) => f.Route(peer, name)
    case UnrouteCall(peer) => f.Unroute(peer)
    case AliveCall(name, up) => f.SetAlive(name, up)
  }

  ghost predicate AllKnown(tables: Tables, calls: seq<Call>) {
    forall c :: c in calls ==> Known(tables, c)
  }

  /** The state after calls that all returned nil. */
  ghost function Run(d: Dp, calls: seq<Call>): Dp
    requires AllKnown(d.tables, calls)
    decreases |calls|
  {
    if calls == [] then d else Run(After(d, calls[0]), calls[1..])
  }

  function FakeRun(f: Fake.Maps, calls: seq<Call>): Fake.Maps
    decreases |calls|
  {
    if calls == [] then f else FakeRun(FakeAfter(f, calls[0]), calls[1..])
  }

  lemma AfterRefines(d: Dp, f: Fake.Maps, c: Call)
    requires Refines(d, f) && Known(d.tables, c)
    ensures Refines(After(d, c), FakeAfter(f, c))
    ensures f.Good() ==> FakeAfter(f, c).Good()
  {
    match c
    case RouteCall(peer, name) => RouteRefines(d, f, peer, name);
    case UnrouteCall(peer) => UnrouteRefines(d, f, peer);
    case AliveCall(name, up) => SetAliveRefines(d, f, name, up);
  }

  /** Refinement over whole runs, along which no pin ever points at the current route or at an
      upstream that is not alive. */
  lemma {:induction false} RunRefines(d: Dp, f: Fake.Maps, calls: seq<Call>)
    requires Refines(d, f) && f.Good() && AllKnown(d.tables, calls)
    ensures Refines(Run(d, calls), FakeRun(f, calls)) && FakeRun(f, calls).Good()
    decreases |calls|
  {
    if calls != [] {
      AfterRefines(d, f, calls[0]);
      RunRefines(After(d, calls[0]), FakeAfter(f, calls[0]), calls[1..]);
    }
  }

  // ---------------------------------------------------------------- What a call may add

  /** Rules appear only as peer rules into upstream tables. */
  ghost predicate GrowsInto(d: Dp, d': Dp) {
    && d'.tables == d.tables && d'.k.routes == d.k.routes && d'.k.marks == d.k.marks
    && forall r :: r in d'.k.rules ==> r in d.k.rules || (IsPeerRule(r) && r.table in d.tables.Values)
  }

  lemma AfterGrows(d: Dp, c: Call)
    requires GoodDp(d) && Guarded(d) && Known(d.tables, c)
    ensures GrowsInto(d, After(d, c))
  {
    hide GoodRules, RoutePlan, UnroutePlan, UnpinPlan, RouteBody;
    match c
    case RouteCall(peer, name) =>
      var table := d.tables[name];
      RouteFrame(d, peer, table);
      forall r | r in Exec(d.k, RoutePlan(d, peer, table)).rules && r !in d.k.rules
        ensures IsPeerRule(r) && r.table in d.tables.Values
      {
        AfterRoute(d, peer, table, r);
        RouteAdds(d, peer, table, r);
      }
    case UnrouteCall(peer) =>
      UnrouteFrame(d, peer);
      UnrouteRemoves(d, peer);
    case AliveCall(name, up) => UnpinFrame(d, d.tables[name]);
  }

  lemma UnrouteRemoves(d: Dp, peer: Addr)
    requires GoodDp(d) && Guarded(d)
    ensures forall r :: r in Exec(d.k, UnroutePlan(d, peer)).rules ==> r in d.k.rules
  {
    hide GoodRules, UnroutePlan;
    var plan := UnroutePlan(d, peer);
    UnrouteStep(d, peer, |plan|);
    assert plan[..|plan|] == plan;
  }

  lemma {:induction false} RunGrows(d: Dp, f: Fake.Maps, calls: seq<Call>)
    requires Refines(d, f) && AllKnown(d.tables, calls)
    ensures GrowsInto(d, Run(d, calls))
    decreases |calls|
  {
    if calls != [] {
      AfterRefines(d, f, calls[0]);
      AfterGrows(d, calls[0]);
      RunGrows(After(d, calls[0]), FakeAfter(f, calls[0]), calls[1..]);
    }
  }

  // ---------------------------------------------------------------- Since Setup

  /** What a successful `Setup` ensures. */
  ghost predicate SetUp(d: Dp) {
    && GoodDp(d) && Guarded(d) && d.k.marks == d.tables && Linked(d, d.tables.Keys) && d.alive == {}
    && forall n :: n in d.tables ==> NoPeerRuleAt(d.k.rules, d.tables[n])
  }

  ghost predicate Called(d: Dp, d': Dp, c: Call) { Known(d.tables, c) && d' == After(d, c) }

  /** One successful call leads from one state to the other, of the peers or of the upstreams. */
  ghost predicate Leads(d: Dp, d': Dp) {
    (exists c :: Called(d, d', c)) || exists keep :: Complete(d, d', keep)
  }

  /** The state is wired and stands for maps with sound pins. */
  ghost predicate Standing(d: Dp) { Wired(d) && exists f: Fake.Maps :: Refines(d, f) && f.Good() }

  lemma LeadsOn(d: Dp, d': Dp)
    requires Standing(d) && Leads(d, d')
    ensures Standing(d')
  {
    hide Complete, Refines, Leaves, After;
    var f: Fake.Maps :| Refines(d, f) && f.Good();
    if c :| Called(d, d', c) {
      AfterRefines(d, f, c);
      RefinesIsGood(d, f);
      AfterGrows(d, c);
    } else {
      var keep :| Complete(d, d', keep);
      ChangeRefines(d, d', f, keep);
    }
  }

  lemma RefinesIsGood(d: Dp, f: Fake.Maps)
    requires Refines(d, f)
    ensures GoodDp(d) && Guarded(d)
  {
  }

  /** From a successful `Setup` on, through any successful calls: wherever they lead, the kernel stands
      for maps with sound pins, which is where the results on runs and flows start from. */
  lemma {:induction false} AlwaysStanding(states: seq<Dp>)
    requires states != [] && SetUp(states[0]) && forall i :: 0 <= i < |states| - 1 ==> Leads(states[i], states[i + 1])
    ensures forall d :: d in states ==> Standing(d)
    decreases |states|
  {
    hide Leads, Standing, SetUp;
    if |states| == 1 {
      StandingFirst(states[0]);
    } else {
      var front, last := states[..|states| - 1], states[|states| - 1];
      assert states == front + [last];
      AlwaysStanding(front);
      assert front[|front| - 1] in front;
      LeadsOn(states[|front| - 1], states[|front|]);
    }
  }

  lemma StandingFirst(d: Dp)
    requires SetUp(d)
    ensures Standing(d)
  {
    hide GoodRules, Leaves;
    SetupRefines(d, d.tables.Keys);
  }

  // ---------------------------------------------------------------- Where packets go

  /** Every upstream table has its default route, and nothing else decides a packet of the peer in
      front of its own rules. */
  ghost predicate Clear(d: Dp, p: Packet) {
    && (forall n :: n in d.tables ==> HasDefault(d.k.routes, d.tables[n]))
    && (forall r :: r in d.k.rules && Hits(r, p) && HasDefault(d.k.routes, r.table) ==>
          r.priority > PEER_PRIORITY || (IsPeerRuleOf(r, p.src) && r.table in d.tables.Values))
  }

  lemma ClearAfterGrowth(d: Dp, d': Dp, p: Packet)
    requires Clear(d, p) && GrowsInto(d, d')
    ensures Clear(d', p)
  {
    hide HasDefault;
  }

  /** An unmarked packet follows the peer's route; one stamped with an upstream's table goes where
      the maps resolve it. */
  lemma LookupResolves(d: Dp, f: Fake.Maps, p: Packet, stamp: string)
    requires Refines(d, f) && Clear(d, p) && p.src in f.routes && stamp in d.tables
    requires p.mark == 0 || p.mark == d.tables[stamp]
    ensures Lookup(d.k.rules, d.k.routes, p) ==
            Some(d.tables[if p.mark == 0 then f.routes[p.src] else f.Resolve(p.src, stamp)])
  {
    var peer, route := p.src, f.routes[p.src];
    var pinned := p.mark != 0 && (peer, stamp) in f.pins;
    var decider := if pinned then PinRule(peer, d.tables[stamp]) else PlainRule(peer, d.tables[route]);
    assert SameAt(d, f, peer, stamp) && SameAt(d, f, peer, route);
    var i :| 0 <= i < |d.k.rules| && d.k.rules[i] == decider;
    forall j | 0 <= j < i && Hits(d.k.rules[j], p) && HasDefault(d.k.routes, d.k.rules[j].table)
      ensures d.k.rules[j].table == decider.table
    {
      var r := d.k.rules[j];
      assert r.priority <= decider.priority;
      var n :| n in d.tables && d.tables[n] == r.table;
      assert SameAt(d, f, peer, n);
    }
    LookupAt(d.k.rules, d.k.routes, p, i);
  }

  // ---------------------------------------------------------------- Flow continuity

  /** The stamp_mark chain: a flow without a mark gets that of the interface it leaves through. */
  function Stamp(marks: map<string, nat>, ctmark: nat, oif: string): nat {
    if ctmark == 0 && oif in marks then marks[oif] else ctmark
  }

  /** The restore_mark chain: the mark of the flow becomes the mark of the packet. */
  function Restore(p: Packet, ctmark: nat): Packet {
    if ctmark != 0 then p.(mark := ctmark) else p
  }

  /** The upstream the peer was last routed to. */
  function LastRoute(calls: seq<Call>, peer: Addr, start: string): string
    decreases |calls|
  {
    if calls == [] then start
    else LastRoute(calls[1..], peer, if calls[0].RouteCall? && calls[0].peer == peer then calls[0].name else start)
  }

  /** The peer is never unrouted, and the upstream never marked dead. */
  ghost predicate Spares(calls: seq<Call>, peer: Addr, name: string) {
    UnrouteCall(peer) !in calls && AliveCall(name, false) !in calls
  }

  lemma {:induction false} MapsContinuity(f: Fake.Maps, calls: seq<Call>, peer: Addr, name: string)
    requires peer in f.routes && name in f.alive && f.Resolve(peer, name) == name && Spares(calls, peer, name)
    ensures var g := FakeRun(f, calls);
            && peer in g.routes && name in g.alive && g.Resolve(peer, name) == name
            && g.routes[peer] == LastRoute(calls, peer, f.routes[peer])
    decreases |calls|
  {
    if calls != [] {
      assert calls[0] in calls;
      MapsContinuity(FakeAfter(f, calls[0]), calls[1..], peer, name);
    }
  }

  /** Flow continuity over whole runs. A flow that leaves through the peer's alive upstream is stamped
      with its table; whatever calls succeed afterwards, while the peer is not unrouted and the
      upstream not marked dead, its packets keep being routed by that table, and unmarked packets by
      the table of the upstream of the last move. */
  lemma FlowContinuity(d: Dp, f: Fake.Maps, calls: seq<Call>, p: Packet, name: string)
    requires Refines(d, f) && Wired(d) && AllKnown(d.tables, calls) && f.Good()
    requires p.src in f.routes && name == f.routes[p.src] && name in d.alive && Spares(calls, p.src, name)
    requires p.mark == 0 && Clear(d, p) && Clear(d, p.(mark := d.tables[name]))
    ensures Lookup(d.k.rules, d.k.routes, p) == Some(d.tables[name])
    ensures Stamp(d.k.marks, 0, name) == d.tables[name] && Leaves(d.k.routes, d.tables[name], name)
    ensures var d' := Run(d, calls);
            && Lookup(d'.k.rules, d'.k.routes, Restore(p, Stamp(d.k.marks, 0, name))) == Some(d.tables[name])
            && LastRoute(calls, p.src, name) in d.tables
            && Lookup(d'.k.rules, d'.k.routes, p) == Some(d.tables[LastRoute(calls, p.src, name)])
  {
    hide Run, GoodRules, HasDefault, Clear;
    LookupResolves(d, f, p, name);
    MapsContinuity(f, calls, p.src, name);
    RunRefines(d, f, calls);
    RunGrows(d, f, calls);
    var d', g := Run(d, calls), FakeRun(f, calls);
    ClearAfterGrowth(d, d', p);
    ClearAfterGrowth(d, d', p.(mark := d.tables[name]));
    LookupResolves(d', g, p, name);
    LookupResolves(d', g, p.(mark := d.tables[name]), name);
  }

  // ---------------------------------------------------------------- Flows across changes of the upstreams

  /** One successful call: of a peer or of health, or a change to these upstreams. */
  datatype Step = Did(call: Call) | Changing(keep: set<string>)

  ghost predicate Takes(d: Dp, step: Step, d': Dp) {
    match step
    case Did(c) => Called(d, d', c)
    case Changing(keep) => Complete(d, d', keep)
  }

  ghost predicate Path(states: seq<Dp>, steps: seq<Step>) {
    |states| == |steps| + 1 && forall i :: 0 <= i < |steps| ==> Takes(states[i], steps[i], states[i + 1])
  }

  function NextRoute(step: Step, peer: Addr, route: string): string {
    if step.Did? && step.call.RouteCall? && step.call.peer == peer then step.call.name else route
  }

  function FinalRoute(steps: seq<Step>, peer: Addr, route: string): string
    decreases |steps|
  {
    if steps == [] then route else FinalRoute(steps[1..], peer, NextRoute(steps[0], peer, route))
  }

  /** The step neither unroutes the peer nor marks the upstream dead, and drops neither that upstream nor
      the one the peer is routed to. */
  ghost predicate Minds(step: Step, peer: Addr, name: string, route: string) {
    match step
    case Did(c) => c != UnrouteCall(peer) && c != AliveCall(name, false)
    case Changing(keep) => name in keep && route in keep
  }

  ghost predicate AllMind(steps: seq<Step>, peer: Addr, name: string, route: string)
    decreases |steps|
  {
    steps != [] ==> Minds(steps[0], peer, name, route) &&
                    AllMind(steps[1..], peer, name, NextRoute(steps[0], peer, route))
  }

  /** A flow of the peer that was opened through `name` stays there, and new ones follow the route. */
  ghost predicate Flowing(d: Dp, f: Fake.Maps, p: Packet, name: string) {
    && Refines(d, f) && f.Good() && Wired(d)
    && p.src in f.routes && name in d.tables && name in f.alive && f.Resolve(p.src, name) == name
    && p.mark == 0 && Clear(d, p) && Clear(d, p.(mark := d.tables[name]))
  }

  lemma ClearAfterChange(d: Dp, d': Dp, keep: set<string>, p: Packet)
    requires Clear(d, p) && Complete(d, d', keep)
    ensures Clear(d', p)
  {
    hide GoodUps;
    forall r | r in d'.k.rules && Hits(r, p) && HasDefault(d'.k.routes, r.table)
      ensures r.priority > PEER_PRIORITY || (IsPeerRuleOf(r, p.src) && r.table in d'.tables.Values)
    {
      assert r in d.k.rules;
      DefaultBefore(d, d', keep, p, r);
      if r.priority <= PEER_PRIORITY {
        forall n | n in d.tables && n !in keep ensures d.tables[n] != r.table {
          assert NoPeerRuleAt(d'.k.rules, d.tables[n]);
        }
      }
    }
  }

  lemma DefaultBefore(d: Dp, d': Dp, keep: set<string>, p: Packet, r: Rule)
    requires Clear(d, p) && Complete(d, d', keep) && r in d.k.rules && HasDefault(d'.k.routes, r.table)
    ensures HasDefault(d.k.routes, r.table)
  {
    hide GoodUps;
    var rt :| rt in d'.k.routes && rt.table == r.table && rt.dst == 0;
    if rt !in d.k.routes {
      var n :| n in keep && n in d'.tables && d'.tables[n] == rt.table;
      assert n in d.tables && d.tables[n] == r.table;
    }
  }

  lemma FlowTakes(d: Dp, f: Fake.Maps, step: Step, d': Dp, p: Packet, name: string) returns (f': Fake.Maps)
    requires Flowing(d, f, p, name) && Takes(d, step, d') && Minds(step, p.src, name, f.routes[p.src])
    ensures Flowing(d', f', p, name) && d'.tables[name] == d.tables[name]
    ensures f'.routes[p.src] == NextRoute(step, p.src, f.routes[p.src])
  {
    hide Refines, Complete, Clear, Leaves, After, Routed, Unrouted, Marked;
    RefinesIsGood(d, f);
    match step {
      case Did(c) =>
        f' := FakeAfter(f, c);
        AfterRefines(d, f, c);
        AfterGrows(d, c);
        ClearAfterGrowth(d, d', p);
        ClearAfterGrowth(d, d', p.(mark := d.tables[name]));
      case Changing(keep) =>
        f' := f.Within(keep);
        ChangeRefines(d, d', f, keep);
        KeptTable(d, d', keep, name);
        ClearAfterChange(d, d', keep, p);
        ClearAfterChange(d, d', keep, p.(mark := d.tables[name]));
    }
  }

  lemma KeptTable(d: Dp, d': Dp, keep: set<string>, name: string)
    requires Complete(d, d', keep) && name in d.tables && name in keep
    ensures name in d'.tables && d'.tables[name] == d.tables[name]
  {
    hide GoodUps;
  }

  lemma {:induction false} FlowPath(states: seq<Dp>, steps: seq<Step>, f: Fake.Maps, p: Packet, name: string)
      returns (g: Fake.Maps)
    requires Path(states, steps) && Flowing(states[0], f, p, name) && AllMind(steps, p.src, name, f.routes[p.src])
    ensures Flowing(states[|steps|], g, p, name) && states[|steps|].tables[name] == states[0].tables[name]
    ensures g.routes[p.src] == FinalRoute(steps, p.src, f.routes[p.src])
    decreases |steps|
  {
    hide Flowing, Minds, Takes, NextRoute;
    g := f;
    if steps != [] {
      var f' := FlowTakes(states[0], f, steps[0], states[1], p, name);
      FlowingParts(states[0], f, p, name);
      FlowingParts(states[1], f', p, name);
      g := FlowPath(states[1..], steps[1..], f', p, name);
    }
  }

  lemma FlowingParts(d: Dp, f: Fake.Maps, p: Packet, name: string)
    requires Flowing(d, f, p, name)
    ensures name in d.tables && p.src in f.routes
  {
    hide Refines, Clear;
  }

  /** Flow continuity over runs in which the upstreams change as well. A flow that leaves through the peer's
      alive upstream is stamped with its table; whatever calls succeed afterwards, changes of the upstreams
      included, while the peer is not unrouted, its upstream not marked dead, and neither that upstream
      nor the one the peer is routed to dropped, its packets keep being routed by that table, which leads
      out through that upstream, and unmarked packets by the table of the upstream of the last move. */
  lemma FlowAcrossChanges(states: seq<Dp>, steps: seq<Step>, f: Fake.Maps, p: Packet, name: string)
    requires Path(states, steps) && Refines(states[0], f) && Wired(states[0]) && f.Good()
    requires p.src in f.routes && name == f.routes[p.src] && name in states[0].alive &&
             AllMind(steps, p.src, name, name)
    requires name in states[0].tables && p.mark == 0 && Clear(states[0], p)
    requires Clear(states[0], p.(mark := states[0].tables[name]))
    ensures var d, last, route := states[0], states[|steps|], FinalRoute(steps, p.src, name);
            && Stamp(d.k.marks, 0, name) == d.tables[name]
            && Lookup(last.k.rules, last.k.routes, Restore(p, d.tables[name])) == Some(d.tables[name])
            && Leaves(last.k.routes, d.tables[name], name)
            && route in last.tables && Lookup(last.k.rules, last.k.routes, p) == Some(last.tables[route])
            && Leaves(last.k.routes, last.tables[route], route)
  {
    hide Takes, Clear, Leaves, Lookup, GoodRules, HasDefault, AllMind;
    var d, last := states[0], states[|steps|];
    var g := FlowPath(states, steps, f, p, name);
    LookupResolves(last, g, p, name);
    LookupResolves(last, g, p.(mark := last.tables[name]), name);
    assert InRange(d.tables[name]);
  }
}
