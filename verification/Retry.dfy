/**
A `Route` that fails while it deletes the old rule, retried: the retry finds the new plain rule, stops
early and returns nil, but the old rule stays in front of it and keeps deciding new flows. These
lemmas say exactly when a `Route` that returns nil does move new flows.
 */
module Retry {
  import opened Wrappers
  import opened Kernel
  import opened LinuxRules
  import opened RouteSteps
  import opened LinuxDataplane
  import opened Refinement
  import Fake

  /** Operations that do not touch where a packet goes. */
  ghost predicate Misses(op: Op, routes: set<Route>, p: Packet) {
    (op.RuleAdd? || op.RuleDel?) && !Decides(op.rule, routes, p)
  }

  lemma {:induction false} MissingOps(s: State, ops: seq<Op>, p: Packet)
    requires GoodRules(s.rules) && PeerOps(ops) && forall op :: op in ops ==> Misses(op, s.routes, p)
    ensures Lookup(Exec(s, ops).rules, s.routes, p) == Lookup(s.rules, s.routes, p)
    decreases |ops|
  {
    hide GoodRules, HasDefault, Hits;
    if ops != [] {
      var front, last := ops[..|ops| - 1], ops[|ops| - 1];
      assert ops == front + [last];
      assert last in ops;
      assert forall op :: op in front ==> op in ops;
      MissingOps(s, front, p);
      RulesAfter(s, front);
      OneOp(Exec(s, front), last, p);
    }
  }

  lemma OneOp(s: State, op: Op, p: Packet)
    requires GoodRules(s.rules) && PeerOp(op) && Misses(op, s.routes, p)
    ensures Lookup(Apply(s, op).rules, s.routes, p) == Lookup(s.rules, s.routes, p)
  {
    hide Lookup, HasDefault, Hits;
    match op
    case RuleAdd(r) => LookupInsert(s.rules, r, s.routes, p);
    case RuleDel(r) =>
      DeletionIsExact(s.rules, r);
      RemoveExact(s.rules, r);
      LookupMinus(s.rules, {r}, s.routes, p);
  }

  /** Up to and including the addition of the new plain rule, unmarked packets go where they went. */
  lemma UnmarkedUntilAdd(d: Dp, peer: Addr, table: nat, p: Packet, n: nat)
    requires GoodDp(d) && table in d.tables.Values && p.mark == 0 && n <= |RouteBody(d, peer, table)|
    requires PlainRule(peer, table) in d.k.rules || n <= |OldPins(d, peer, table)| + |NewPins(d, peer, table)|
    ensures Lookup(Exec(d.k, RouteBody(d, peer, table)[..n]).rules, d.k.routes, p) == Lookup(d.k.rules, d.k.routes, p)
  {
    var body := RouteBody(d, peer, table);
    RouteBodyOps(d, peer, table);
    assert forall op :: op in body[..n] ==> op in body;
    forall op | op in body[..n] ensures Misses(op, d.k.routes, p) {
      var i :| 0 <= i < n && body[i] == op;
      EarlyOps(d, peer, table, i);
    }
    MissingOps(d.k, body[..n], p);
  }

  /** Before the new plain rule is added, a `Route` call touches pins only. */
  lemma EarlyOps(d: Dp, peer: Addr, table: nat, i: nat)
    requires GoodDp(d) && table in d.tables.Values && i < |RouteBody(d, peer, table)|
    requires PlainRule(peer, table) in d.k.rules || i < |OldPins(d, peer, table)| + |NewPins(d, peer, table)|
    ensures var op := RouteBody(d, peer, table)[i];
            (op.RuleAdd? || op.RuleDel?) && op.rule == PinRule(peer, op.rule.table) && InRange(op.rule.table)
  {
    hide GoodDp, OldPins, NewPins, OldPlains, Move;
    var pins, news, olds := OldPins(d, peer, table), NewPins(d, peer, table), OldPlains(d, peer, table);
    TableInRange(d, table);
    ListsInOrder(d, peer, table);
    if PlainRule(peer, table) in d.k.rules {
      assert RouteBody(d, peer, table)[i] == RuleDel(pins[i]) && pins[i] in pins;
    } else {
      MoveFront(peer, table, pins, news, olds, i);
      if i < |pins| {
        assert pins[i] in pins;
      } else {
        EarlyAdd(d, peer, table, i - |pins|);
      }
    }
  }

  lemma TableInRange(d: Dp, table: nat)
    requires GoodDp(d) && table in d.tables.Values
    ensures InRange(table)
  {
  }

  lemma EarlyAdd(d: Dp, peer: Addr, table: nat, j: nat)
    requires GoodDp(d) && table in d.tables.Values && j < |NewPins(d, peer, table)|
    ensures InRange(NewPins(d, peer, table)[j].table)
  {
    hide GoodDp, NewPins, OldPlains, Pick;
    var r := NewPins(d, peer, table)[j];
    PickedRule(d, peer, table, r);
    TableInRange(d, r.table);
  }

  /** What a move starts with. */
  lemma MoveFront(peer: Addr, table: nat, pins: seq<Rule>, news: seq<Rule>, olds: seq<Rule>, i: nat)
    requires i < |pins| + |news|
    ensures i < |Move(peer, table, pins, news, olds)|
    ensures Move(peer, table, pins, news, olds)[i] ==
            if i < |pins| then RuleDel(pins[i]) else RuleAdd(PinRule(peer, news[i - |pins|].table))
  {
    var a, b := Dels(pins), PinAdds(peer, news);
    assert (a + b)[i] == if i < |pins| then a[i] else b[i - |pins|];
  }

  /** When a `Route` that returns nil moves new flows: if and only if it found no plain rule of the new
      table, or new flows went there already. */
  lemma RouteMovesUnmarked(d: Dp, peer: Addr, name: string, p: Packet)
    requires GoodDp(d) && Guarded(d) && name in d.tables
    requires p.src == peer && p.mark == 0 && Clear(d, p)
    ensures var d' := Routed(d, peer, name);
            Lookup(d'.k.rules, d'.k.routes, p) == Some(d.tables[name]) <==>
              || PlainRule(peer, d.tables[name]) !in d.k.rules
              || Lookup(d.k.rules, d.k.routes, p) == Some(d.tables[name])
  {
    hide GoodRules, RoutePlan, RouteBody, Lookup, Clear;
    if PlainRule(peer, d.tables[name]) in d.k.rules {
      AlreadyThere(d, peer, name, p);
    } else {
      AfterGrows(d, RouteCall(peer, name));
      ClearAfterGrowth(d, Routed(d, peer, name), p);
      OnlyPlainDecides(d, peer, name, p);
      RouteFrame(d, peer, d.tables[name]);
    }
  }

  /** With a plain rule of the new table in place, `Route` leaves unmarked packets alone. */
  lemma AlreadyThere(d: Dp, peer: Addr, name: string, p: Packet)
    requires GoodDp(d) && Guarded(d) && name in d.tables && p.mark == 0 && PlainRule(peer, d.tables[name]) in d.k.rules
    ensures var k := Routed(d, peer, name).k; Lookup(k.rules, k.routes, p) == Lookup(d.k.rules, d.k.routes, p)
  {
    hide GoodRules, RouteBody, Lookup;
    var table, body := d.tables[name], RouteBody(d, peer, d.tables[name]);
    RouteStep(d, peer, table, |RoutePlan(d, peer, table)|);
    assert RoutePlan(d, peer, table)[..|RoutePlan(d, peer, table)|] == RoutePlan(d, peer, table);
    assert body[..|body|] == body;
    RouteFrame(d, peer, table);
    UnmarkedUntilAdd(d, peer, table, p, |body|);
  }

  /** After a move from elsewhere, the new plain rule is the only rule of ours an unmarked packet hits. */
  lemma OnlyPlainDecides(d: Dp, peer: Addr, name: string, p: Packet)
    requires GoodDp(d) && Guarded(d) && name in d.tables && PlainRule(peer, d.tables[name]) !in d.k.rules
    requires p.src == peer && p.mark == 0 && Clear(Routed(d, peer, name), p)
    ensures Lookup(Routed(d, peer, name).k.rules, d.k.routes, p) == Some(d.tables[name])
  {
    hide RoutePlan;
    var table, k := d.tables[name], Routed(d, peer, name).k;
    RouteFrame(d, peer, table);
    PlainsAfterRoute(d, peer, table, table);
    var i :| 0 <= i < |k.rules| && k.rules[i] == PlainRule(peer, table);
    forall j | 0 <= j < i && Hits(k.rules[j], p) && HasDefault(k.routes, k.rules[j].table)
      ensures k.rules[j].table == table
    {
      var r := k.rules[j];
      assert r.priority <= PEER_PRIORITY;
      PlainsAfterRoute(d, peer, table, r.table);
    }
    LookupAt(k.rules, k.routes, p, i);
  }

  /** How many operations of a move took effect when deleting the first old plain rule fails. */
  ghost function FailsAt(d: Dp, peer: Addr, table: nat): nat {
    |OldPins(d, peer, table)| + |NewPins(d, peer, table)| + 1
  }

  /** The dataplane a `Route` leaves that fails there. */
  ghost function FailedDelete(d: Dp, peer: Addr, table: nat): (failed: Dp)
    requires PlainRule(peer, table) !in d.k.rules
    ensures failed.tables == d.tables
  {
    AtPlain(d, peer, table);
    d.(k := Exec(d.k, RoutePlan(d, peer, table)[..FailsAt(d, peer, table)]))
  }

  lemma FailedShape(d: Dp, peer: Addr, table: nat)
    requires GoodDp(d) && Guarded(d) && table in d.tables.Values && PlainRule(peer, table) !in d.k.rules
    ensures var m, body := FailsAt(d, peer, table) - 1, RouteBody(d, peer, table);
            && m < |body| && FailedDelete(d, peer, table).k ==
              Apply(Exec(d.k, body[..m]), RuleAdd(PlainRule(peer, table)))
  {
    hide OldPins, NewPins, OldPlains, GoodRules;
    var m, body, plan := FailsAt(d, peer, table) - 1, RouteBody(d, peer, table), RoutePlan(d, peer, table);
    AtPlain(d, peer, table);
    PlanShape(d, peer, table);
    assert plan[..m + 1] == body[..m] + [RuleAdd(PlainRule(peer, table))];
    ExecSnoc(d.k, body[..m], RuleAdd(PlainRule(peer, table)));
  }

  /** Before the addition only pins have changed. */
  lemma PlainsUntilAdd(d: Dp, peer: Addr, table: nat, u: nat)
    requires GoodDp(d) && table in d.tables.Values && PlainRule(peer, table) !in d.k.rules
    requires FailsAt(d, peer, table) - 1 <= |RouteBody(d, peer, table)|
    ensures var k := Exec(d.k, RouteBody(d, peer, table)[..FailsAt(d, peer, table) - 1]);
            && GoodRules(k.rules) && k == d.k.(rules := k.rules)
            && (PlainRule(peer, u) in k.rules <==> PlainRule(peer, u) in d.k.rules)
  {
    hide GoodRules, RouteBody;
    var m, body := FailsAt(d, peer, table) - 1, RouteBody(d, peer, table);
    RouteBodyStep(d, peer, table, m);
    RouteBodyOps(d, peer, table);
    assert forall op :: op in body[..m] ==> op in body;
    RulesAfter(d.k, body[..m]);
    var r := PlainRule(peer, u);
    forall i | 0 <= i < m ensures body[i] != RuleAdd(r) && body[i] != RuleDel(r) {
      EarlyOps(d, peer, table, i);
    }
  }

  /** After the failure both plain rules are there, and unmarked packets still go the old way. */
  lemma FailedDeleteState(d: Dp, peer: Addr, from: string, name: string, p: Packet)
    requires GoodDp(d) && Guarded(d) && from in d.tables && name in d.tables
    requires PlainRule(peer, d.tables[from]) in d.k.rules && PlainRule(peer, d.tables[name]) !in d.k.rules
    requires p.src == peer && p.mark == 0 && Clear(d, p)
    ensures var failed := FailedDelete(d, peer, d.tables[name]);
            && GoodDp(failed) && Guarded(failed)
            && PlainRule(peer, d.tables[from]) in failed.k.rules && PlainRule(peer, d.tables[name]) in failed.k.rules
            && failed.k.routes == d.k.routes
            && Lookup(failed.k.rules, d.k.routes, p) == Lookup(d.k.rules, d.k.routes, p)
  {
    var table := d.tables[name];
    FailedShape(d, peer, table);
    var m := FailsAt(d, peer, table) - 1;
    hide RouteBody, RoutePlan, FailedDelete, GoodRules, Lookup, OldPins, NewPins, Exec, FailsAt;
    var k := Exec(d.k, RouteBody(d, peer, table)[..m]);
    PlainsUntilAdd(d, peer, table, d.tables[from]);
    UnmarkedBefore(d, peer, table, p);
    AddOne(k, PlainRule(peer, table), PlainRule(peer, d.tables[from]), p);
  }

  lemma UnmarkedBefore(d: Dp, peer: Addr, table: nat, p: Packet)
    requires GoodDp(d) && Guarded(d) && table in d.tables.Values && PlainRule(peer, table) !in d.k.rules && p.mark == 0
    ensures var m, body := FailsAt(d, peer, table) - 1, RouteBody(d, peer, table);
            m <= |body| && Lookup(Exec(d.k, body[..m]).rules, d.k.routes, p) == Lookup(d.k.rules, d.k.routes, p)
  {
    hide GoodDp, Guarded, RouteBody, RoutePlan, Exec, Lookup, OldPins, NewPins, FailedDelete, PlainRule;
    FailedShape(d, peer, table);
    UnmarkedUntilAdd(d, peer, table, p, FailsAt(d, peer, table) - 1);
  }

  /** A rule added behind one that decides the packet. */
  lemma AddOne(k: State, r: Rule, front: Rule, p: Packet)
    requires GoodRules(k.rules) && IsPeerRule(r) && front in k.rules && Decides(front, k.routes, p) &&
             front.priority <= r.priority
    ensures var k' := Apply(k, RuleAdd(r));
            && GoodRules(k'.rules) && k' == k.(rules := k'.rules) && r in k'.rules && front in k'.rules
            && Lookup(k'.rules, k.routes, p) == Lookup(k.rules, k.routes, p)
  {
    InsertKeepsOrder(k.rules, r);
    LookupInsert(k.rules, r, k.routes, p);
  }

  /** The retry in full, for every peer with one plain rule that is moved to another upstream: `Route`
      fails when it deletes the old plain rule, and is called again. The second call returns nil and
      authorises the peer, but both plain rules stay and new flows keep the old upstream. */
  lemma RetryLeavesOldRoute(d: Dp, f: Fake.Maps, peer: Addr, name: string, p: Packet)
    requires Refines(d, f) && peer in f.routes && name in d.tables && f.routes[peer] != name
    requires p.src == peer && p.mark == 0 && Clear(d, p)
    ensures PlainRule(peer, d.tables[name]) !in d.k.rules
    ensures var from, failed := d.tables[f.routes[peer]], FailedDelete(d, peer, d.tables[name]);
            && GoodDp(failed) && Guarded(failed)
            && Lookup(Routed(failed, peer, name).k.rules, d.k.routes, p) == Some(from)
            && !OnePlain(Routed(failed, peer, name))
  {
    hide RouteBody, RoutePlan, FailedDelete, GoodRules, Lookup, Exec;
    var from, table := f.routes[peer], d.tables[name];
    assert SameAt(d, f, peer, name) && SameAt(d, f, peer, from);
    FailedDeleteState(d, peer, from, name, p);
    var failed := FailedDelete(d, peer, table);
    LookupResolves(d, f, p, name);
    AlreadyThere(failed, peer, name, p);
    PlainsAfterRoute(failed, peer, table, d.tables[from]);
    PlainsAfterRoute(failed, peer, table, table);
    RouteFrame(failed, peer, table);
  }
}
