/**
What every prefix of a `Route`, `Unroute` or `SetAlive` call leaves in the kernel. A call that fails
stops behind some prefix of its plan, and every kernel state in between is one too, so these lemmas
speak of each intermediate state of each call, failing or not.
 */
module RouteSteps {
  import opened Kernel
  import opened LinuxRules

  ghost predicate HasPlain(rules: seq<Rule>, tables: Tables, peer: Addr) {
    exists n :: n in tables && PlainRule(peer, tables[n]) in rules
  }

  ghost predicate AliveAt(d: Dp, table: nat) {
    exists n :: n in d.alive && n in d.tables && d.tables[n] == table
  }

  /** Which rules belong to a peer. */
  lemma PeerRule(d: Dp, peer: Addr, r: Rule)
    requires GoodDp(d)
    ensures r in RulesFor(d.k.rules, d.tables, peer) <==>
            r in d.k.rules && IsPeerRuleOf(r, peer) && r.table in d.tables.Values
  {
    Picked(Own(d.tables), d.k.rules, r);
    Picked(OfPeer(peer), OwnRules(d.k.rules, d.tables), r);
    hide Pick;
  }

  /** Whether a rule is among the rules a move handles, in one place and without listings. */
  lemma PickedRule(d: Dp, peer: Addr, table: nat, r: Rule)
    requires GoodDp(d) && table in d.tables.Values
    ensures r in OldPins(d, peer, table) <==> r in d.k.rules && r == PinRule(peer, table)
    ensures r in OldPlains(d, peer, table) <==>
            r in d.k.rules && r == PlainRule(peer, r.table) && r.table != table && r.table in d.tables.Values
    ensures r in NewPins(d, peer, table) <==> r in OldPlains(d, peer, table) && AliveAt(d, r.table)
  {
    PickedOld(d, peer, table, r);
    Picked(AliveTable(d.tables, d.alive), OldPlains(d, peer, table), r);
    hide Pick, RulesFor, OldPins, OldPlains, GoodRules;
  }

  lemma PickedOld(d: Dp, peer: Addr, table: nat, r: Rule)
    requires GoodDp(d) && table in d.tables.Values
    ensures r in OldPins(d, peer, table) <==> r in d.k.rules && r == PinRule(peer, table)
    ensures r in OldPlains(d, peer, table) <==>
            r in d.k.rules && r == PlainRule(peer, r.table) && r.table != table && r.table in d.tables.Values
  {
    var mine := RulesFor(d.k.rules, d.tables, peer);
    PeerRule(d, peer, r);
    Picked(PinTo(table), mine, r);
    Picked(PlainBut(table), mine, r);
    hide Pick, RulesFor, GoodRules;
  }

  lemma ListsInOrder(d: Dp, peer: Addr, table: nat)
    requires GoodDp(d) && table in d.tables.Values
    ensures NoDup(OldPins(d, peer, table)) && NoDup(OldPlains(d, peer, table))
    ensures forall r :: r in OldPins(d, peer, table) ==> r == PinRule(peer, table) && r in d.k.rules
    ensures forall r :: r in OldPlains(d, peer, table) ==> r.priority == PEER_PRIORITY && r in d.k.rules
  {
    PickKeepsOrder(Own(d.tables), d.k.rules);
    PickKeepsOrder(OfPeer(peer), OwnRules(d.k.rules, d.tables));
    PickKeepsOrder(PinTo(table), RulesFor(d.k.rules, d.tables, peer));
    PickKeepsOrder(PlainBut(table), RulesFor(d.k.rules, d.tables, peer));
    forall r ensures r in OldPins(d, peer, table) ==> r == PinRule(peer, table) && r in d.k.rules {
      PickedRule(d, peer, table, r);
    }
    forall r ensures r in OldPlains(d, peer, table) ==> r.priority == PEER_PRIORITY && r in d.k.rules {
      PickedRule(d, peer, table, r);
    }
  }

  /** The pins to a table, as `SetAlive` lists them. */
  lemma PinListing(d: Dp, table: nat)
    requires GoodDp(d) && table in d.tables.Values
    ensures NoDup(Pick(PinTo(table), OwnRules(d.k.rules, d.tables)))
    ensures forall r :: r in Pick(PinTo(table), OwnRules(d.k.rules, d.tables)) <==>
                        r in d.k.rules && Ours(r) && r.priority == PIN_PRIORITY && r.table == table
  {
    PickKeepsOrder(Own(d.tables), d.k.rules);
    PickKeepsOrder(PinTo(table), OwnRules(d.k.rules, d.tables));
    forall r ensures r in Pick(PinTo(table), OwnRules(d.k.rules, d.tables)) <==>
                     r in d.k.rules && Ours(r) && r.priority == PIN_PRIORITY && r.table == table {
      Picked(Own(d.tables), d.k.rules, r);
      Picked(PinTo(table), OwnRules(d.k.rules, d.tables), r);
    }
  }

  ghost predicate AddsPin(d: Dp, peer: Addr, table: nat, r: Rule) {
    && r == PinRule(peer, r.table) && r.table != table
    && PlainRule(peer, r.table) in d.k.rules && AliveAt(d, r.table)
  }

  lemma MoveOp(peer: Addr, table: nat, pins: seq<Rule>, news: seq<Rule>, olds: seq<Rule>, op: Op)
    ensures op in Move(peer, table, pins, news, olds) <==>
            || (op.RuleDel? && (op.rule in pins || op.rule in olds))
            || op == RuleAdd(PlainRule(peer, table))
            || (exists r :: r in news && op == RuleAdd(PinRule(peer, r.table)))
  {
    var a, b, c, e := Dels(pins), PinAdds(peer, news), [RuleAdd(PlainRule(peer, table))], Dels(olds);
    assert op in Move(peer, table, pins, news, olds) <==> op in a || op in b || op in c || op in e;
    if r :| r in news && op == RuleAdd(PinRule(peer, r.table)) {
      var i :| 0 <= i < |news| && news[i] == r;
      assert b[i] == op;
    }
  }

  /** The deletions of a `Route` call. */
  lemma RouteDels(d: Dp, peer: Addr, table: nat, r: Rule)
    requires GoodDp(d) && table in d.tables.Values
    ensures RuleDel(r) in RouteBody(d, peer, table) <==>
            || (r in d.k.rules && r == PinRule(peer, table))
            || (PlainRule(peer, table) !in d.k.rules && r in OldPlains(d, peer, table))
  {
    MoveOp(peer, table, OldPins(d, peer, table), NewPins(d, peer, table), OldPlains(d, peer, table), RuleDel(r));
    PickedRule(d, peer, table, r);
  }

  /** The additions of a `Route` call. */
  lemma RouteAdds(d: Dp, peer: Addr, table: nat, r: Rule)
    requires GoodDp(d) && table in d.tables.Values
    ensures RuleAdd(r) in RouteBody(d, peer, table) <==>
            PlainRule(peer, table) !in d.k.rules && (r == PlainRule(peer, table) || AddsPin(d, peer, table, r))
  {
    var news := NewPins(d, peer, table);
    MoveOp(peer, table, OldPins(d, peer, table), news, OldPlains(d, peer, table), RuleAdd(r));
    PickedRule(d, peer, table, PlainRule(peer, r.table));
    if x :| x in news && r == PinRule(peer, x.table) {
      PickedRule(d, peer, table, x);
    }
  }

  predicate RuleOp(op: Op) { op.RuleAdd? || op.RuleDel? }

  lemma RouteBodyOps(d: Dp, peer: Addr, table: nat)
    requires GoodDp(d) && table in d.tables.Values
    ensures PeerOps(RouteBody(d, peer, table))
    ensures forall op :: op in RouteBody(d, peer, table) ==> RuleOp(op)
  {
    var body := RouteBody(d, peer, table);
    forall op | op in body ensures PeerOp(op) && RuleOp(op) {
      match op {
        case RuleAdd(r) => RouteAdds(d, peer, table, r);
        case RuleDel(r) =>
          RouteDels(d, peer, table, r);
          PickedRule(d, peer, table, r);
        case _ =>
          MoveOp(peer, table, OldPins(d, peer, table), NewPins(d, peer, table), OldPlains(d, peer, table), op);
      }
    }
    forall r | RuleAdd(r) in body ensures RuleDel(r) !in body {
      RouteAdds(d, peer, table, r);
      RouteDels(d, peer, table, r);
      PickedRule(d, peer, table, r);
    }
  }

  /** The plain rule of the new table is added before any other plain rule goes. */
  lemma MoveOrder(peer: Addr, table: nat, pins: seq<Rule>, news: seq<Rule>, olds: seq<Rule>, n: nat)
    requires forall r :: r in pins ==> r.priority != PEER_PRIORITY
    requires n <= |Move(peer, table, pins, news, olds)|
    ensures var ops := Move(peer, table, pins, news, olds)[..n];
            (exists r :: RuleDel(r) in ops && r.priority == PEER_PRIORITY) ==> RuleAdd(PlainRule(peer, table)) in ops
  {
    var plan := Move(peer, table, pins, news, olds);
    var a, b := Dels(pins), PinAdds(peer, news);
    var j := |a| + |b|;
    assert plan[j] == RuleAdd(PlainRule(peer, table));
    if r :| RuleDel(r) in plan[..n] && r.priority == PEER_PRIORITY {
      var i :| 0 <= i < n && plan[i] == RuleDel(r);
      assert j < i;
      assert plan[..n][j] == plan[j];
    }
  }

  /** A plain rule goes only once the new one is there. */
  lemma RoutePlains(d: Dp, peer: Addr, table: nat, n: nat)
    requires GoodDp(d) && table in d.tables.Values && n <= |RouteBody(d, peer, table)|
    ensures var ops := RouteBody(d, peer, table)[..n];
            || (PlainRule(peer, table) !in d.k.rules
                && RuleAdd(PlainRule(peer, table)) in ops && RuleDel(PlainRule(peer, table)) !in ops)
            || (forall u :: RuleAdd(PlainRule(peer, u)) !in ops && RuleDel(PlainRule(peer, u)) !in ops)
  {
    var body := RouteBody(d, peer, table);
    var ops := body[..n];
    assert forall op :: op in ops ==> op in body;
    forall u | RuleAdd(PlainRule(peer, u)) in body ensures u == table {
      RouteAdds(d, peer, table, PlainRule(peer, u));
    }
    RouteDels(d, peer, table, PlainRule(peer, table));
    PickedRule(d, peer, table, PlainRule(peer, table));
    if PlainRule(peer, table) in d.k.rules {
      forall u ensures RuleDel(PlainRule(peer, u)) !in body {
        RouteDels(d, peer, table, PlainRule(peer, u));
      }
      RouteAdds(d, peer, table, PlainRule(peer, table));
    } else if u :| RuleDel(PlainRule(peer, u)) in ops {
      ListsInOrder(d, peer, table);
      MoveOrder(peer, table, OldPins(d, peer, table), NewPins(d, peer, table), OldPlains(d, peer, table), n);
    }
  }

  /** What a prefix of `Route`'s rule operations keeps: other peers and probes are untouched, only
      alive upstreams gain pins, and a peer that had a plain rule still has one. */
  lemma RouteBodyStep(d: Dp, peer: Addr, table: nat, n: nat)
    requires GoodDp(d) && table in d.tables.Values && n <= |RouteBody(d, peer, table)|
    ensures var k := Exec(d.k, RouteBody(d, peer, table)[..n]);
            && GoodRules(k.rules)
            && k == d.k.(rules := k.rules)
            && (forall r :: !IsPeerRuleOf(r, peer) ==> (r in k.rules <==> r in d.k.rules))
            && (forall u :: PinRule(peer, u) in k.rules ==> PinRule(peer, u) in d.k.rules || AliveAt(d, u))
            && ((PlainRule(peer, table) in k.rules && PlainRule(peer, table) !in d.k.rules) ||
                forall u :: PlainRule(peer, u) in k.rules <==> PlainRule(peer, u) in d.k.rules)
  {
    var body := RouteBody(d, peer, table);
    var ops := body[..n];
    RouteBodyOps(d, peer, table);
    assert forall op :: op in ops ==> op in body;
    RulesAfter(d.k, ops);
    forall r | !IsPeerRuleOf(r, peer) ensures RuleAdd(r) !in body && RuleDel(r) !in body {
      RouteAdds(d, peer, table, r);
      RouteDels(d, peer, table, r);
      PickedRule(d, peer, table, r);
    }
    forall u | RuleAdd(PinRule(peer, u)) in ops ensures AliveAt(d, u) {
      RouteAdds(d, peer, table, PinRule(peer, u));
    }
    RoutePlains(d, peer, table, n);
  }

  lemma SplitAuth(s: State, body: seq<Op>, auth: seq<Op>, n: nat)
    requires |auth| <= 1 && n <= |body + auth|
    ensures n <= |body| ==> Exec(s, (body + auth)[..n]) == Exec(s, body[..n])
    ensures n > |body| ==> auth != [] && Exec(s, (body + auth)[..n]) == Apply(Exec(s, body[..n - 1]), auth[0])
  {
    if n <= |body| {
      assert (body + auth)[..n] == body[..n];
    } else {
      assert (body + auth)[..n] == body + [auth[0]];
      assert body[..n - 1] == body;
      ExecSnoc(s, body, auth[0]);
    }
  }

  /** Access is granted last: every proper prefix of `Route` leaves the authorised set alone. */
  lemma RouteStep(d: Dp, peer: Addr, table: nat, n: nat)
    requires GoodDp(d) && Guarded(d) && table in d.tables.Values && n <= |RoutePlan(d, peer, table)|
    ensures var k, m := Exec(d.k, RoutePlan(d, peer, table)[..n]),
            if n <= |RouteBody(d, peer, table)| then n else n - 1;
            && m <= |RouteBody(d, peer, table)|
            && k == Exec(d.k, RouteBody(d, peer, table)[..m]).(peers := k.peers)
            && k.peers == (if n == |RoutePlan(d, peer, table)| then d.k.peers + {peer} else d.k.peers)
  {
    hide RouteBody, GoodDp;
    var body, auth := RouteBody(d, peer, table), Auth(d, peer, true);
    var m := if n <= |body| then n else n - 1;
    SplitAuth(d.k, body, auth, n);
    KeepsPeers(d, peer, table, m);
    assert peer in d.k.peers ==> d.k.peers + {peer} == d.k.peers;
  }

  lemma KeepsPeers(d: Dp, peer: Addr, table: nat, m: nat)
    requires GoodDp(d) && table in d.tables.Values && m <= |RouteBody(d, peer, table)|
    ensures Exec(d.k, RouteBody(d, peer, table)[..m]).peers == d.k.peers
  {
    RouteBodyStep(d, peer, table, m);
  }

  /** Make before break: after every prefix of `Route`, hence in every intermediate kernel state and
      after every failure, a peer that had a plain rule has one. */
  lemma RouteMakesBeforeBreak(d: Dp, peer: Addr, other: Addr, table: nat, n: nat)
    requires GoodDp(d) && Guarded(d) && table in d.tables.Values && n <= |RoutePlan(d, peer, table)|
    requires HasPlain(d.k.rules, d.tables, other)
    ensures HasPlain(Exec(d.k, RoutePlan(d, peer, table)[..n]).rules, d.tables, other)
  {
    var m := if n <= |RouteBody(d, peer, table)| then n else n - 1;
    RouteStep(d, peer, table, n);
    RouteBodyStep(d, peer, table, m);
    var name :| name in d.tables && PlainRule(other, d.tables[name]) in d.k.rules;
    var to :| to in d.tables && d.tables[to] == table;
  }

  lemma RouteLengths(d: Dp, peer: Addr, table: nat)
    ensures |RouteBody(d, peer, table)| <= |RoutePlan(d, peer, table)| <= |RouteBody(d, peer, table)| + 1
  {
    hide RouteBody;
  }

  lemma AfterRoute(d: Dp, peer: Addr, table: nat, r: Rule)
    requires GoodDp(d) && Guarded(d) && table in d.tables.Values
    ensures r in Exec(d.k, RoutePlan(d, peer, table)).rules <==>
            (r in d.k.rules || RuleAdd(r) in RouteBody(d, peer, table)) && RuleDel(r) !in RouteBody(d, peer, table)
  {
    hide RouteBody, RoutePlan, PeerOps, GoodRules, Exec;
    var body, plan := RouteBody(d, peer, table), RoutePlan(d, peer, table);
    RouteStep(d, peer, table, |plan|);
    RouteBodyOps(d, peer, table);
    RouteLengths(d, peer, table);
    assert plan[..|plan|] == plan && body[..|body|] == body;
    RulesAfter(d.k, body);
  }

  /** The plain rules of the peer after a complete `Route`. */
  lemma PlainsAfterRoute(d: Dp, peer: Addr, table: nat, u: nat)
    requires GoodDp(d) && Guarded(d) && table in d.tables.Values && u in d.tables.Values
    ensures PlainRule(peer, u) in Exec(d.k, RoutePlan(d, peer, table)).rules <==>
            if PlainRule(peer, table) in d.k.rules then PlainRule(peer, u) in d.k.rules else u == table
  {
    var r := PlainRule(peer, u);
    AfterRoute(d, peer, table, r);
    RouteAdds(d, peer, table, r);
    RouteDels(d, peer, table, r);
    PickedRule(d, peer, table, r);
    hide RouteBody, OldPlains;
  }

  /** The pins of the peer after a complete `Route`. */
  lemma PinsAfterRoute(d: Dp, peer: Addr, table: nat, u: nat)
    requires GoodDp(d) && Guarded(d) && table in d.tables.Values && u in d.tables.Values
    ensures PinRule(peer, u) in Exec(d.k, RoutePlan(d, peer, table)).rules <==>
            && u != table
            && (|| PinRule(peer, u) in d.k.rules
                || (PlainRule(peer, table) !in d.k.rules && PlainRule(peer, u) in d.k.rules && AliveAt(d, u)))
  {
    var r := PinRule(peer, u);
    AfterRoute(d, peer, table, r);
    RouteAdds(d, peer, table, r);
    RouteDels(d, peer, table, r);
    PickedRule(d, peer, table, r);
    hide RouteBody, OldPlains;
  }

  // ---------------------------------------------------------------- Unroute and SetAlive

  lemma {:induction false} DeletePrefix(s: State, dead: seq<Rule>, n: nat)
    requires GoodRules(s.rules) && n <= |dead|
    requires forall r :: r in dead ==> IsPeerRule(r)
    ensures var k := Exec(s, Dels(dead)[..n]);
            && GoodRules(k.rules) && k == s.(rules := k.rules)
            && (forall r :: r in k.rules <==> r in s.rules && r !in dead[..n])
  {
    assert Dels(dead)[..n] == Dels(dead[..n]);
    RulesAfter(s, Dels(dead[..n]));
  }

  lemma ExecRevoke(s: State, peer: Addr, auth: seq<Op>)
    requires auth == if peer in s.peers then [Revoke(peer)] else []
    ensures Exec(s, auth) == s.(peers := s.peers - {peer})
  {
    if peer in s.peers {
      ExecSnoc(s, [], Revoke(peer));
      assert [] + [Revoke(peer)] == auth;
    } else {
      assert s.peers - {peer} == s.peers;
    }
  }

  /** Any prefix of a revocation followed by deletions. */
  lemma RevokeThenDelete(s: State, peer: Addr, auth: seq<Op>, dead: seq<Rule>, n: nat)
    requires GoodRules(s.rules) && n <= |auth + Dels(dead)|
    requires auth == if peer in s.peers then [Revoke(peer)] else []
    requires forall r :: r in dead ==> IsPeerRule(r)
    ensures var k, m := Exec(s, (auth + Dels(dead))[..n]), if n < |auth| then 0 else n - |auth|;
            && GoodRules(k.rules)
            && k == s.(rules := k.rules, peers := k.peers)
            && k.peers == (if n == 0 then s.peers else s.peers - {peer})
            && m <= |dead|
            && (forall r :: r in k.rules <==> r in s.rules && r !in dead[..m])
  {
    if n < |auth| {
      assert (auth + Dels(dead))[..n] == [];
    } else {
      hide GoodRules, Exec;
      var m, s' := n - |auth|, s.(peers := s.peers - {peer});
      ExecRevoke(s, peer, auth);
      assert (auth + Dels(dead))[..n] == auth + Dels(dead)[..m];
      ExecConcat(s, auth, Dels(dead)[..m]);
      DeletePrefix(s', dead, m);
      assert n == 0 ==> s.peers - {peer} == s.peers;
    }
  }

  /** Any prefix of `Unroute`: access is revoked by the first operation, only rules of the peer go, and
      the complete call leaves none of them in an upstream table. */
  lemma UnrouteStep(d: Dp, peer: Addr, n: nat)
    requires GoodDp(d) && Guarded(d) && n <= |UnroutePlan(d, peer)|
    ensures var k := Exec(d.k, UnroutePlan(d, peer)[..n]);
            && GoodRules(k.rules)
            && k == d.k.(rules := k.rules, peers := k.peers)
            && k.peers == (if n == 0 then d.k.peers else d.k.peers - {peer})
            && (forall r :: r in k.rules ==> r in d.k.rules)
            && (forall r :: r in d.k.rules && !IsPeerRuleOf(r, peer) ==> r in k.rules)
            && (n == |UnroutePlan(d, peer)| ==>
                forall r :: r in k.rules && IsPeerRuleOf(r, peer) ==> r.table !in d.tables.Values)
  {
    var dead := RulesFor(d.k.rules, d.tables, peer);
    PeerRules(d, peer);
    hide RulesFor;
    RevokeThenDelete(d.k, peer, Auth(d, peer, false), dead, n);
    assert dead[..|dead|] == dead;
  }

  lemma PeerRules(d: Dp, peer: Addr)
    requires GoodDp(d)
    ensures forall r :: r in RulesFor(d.k.rules, d.tables, peer) <==>
                        r in d.k.rules && IsPeerRuleOf(r, peer) && r.table in d.tables.Values
  {
    forall r ensures r in RulesFor(d.k.rules, d.tables, peer) <==>
                     r in d.k.rules && IsPeerRuleOf(r, peer) && r.table in d.tables.Values {
      PeerRule(d, peer, r);
    }
  }

  /** Any prefix of dropping the pins to a table. */
  lemma UnpinStep(d: Dp, table: nat, n: nat)
    requires GoodDp(d) && table in d.tables.Values && n <= |UnpinPlan(d, table)|
    ensures var k := Exec(d.k, UnpinPlan(d, table)[..n]);
            && GoodRules(k.rules) && k == d.k.(rules := k.rules)
            && (forall r :: r in k.rules ==> r in d.k.rules)
            && (forall r :: r in d.k.rules && (r.priority != PIN_PRIORITY || r.table != table || !Ours(r)) ==>
                r in k.rules)
            && (n == |UnpinPlan(d, table)| ==> forall p :: PinRule(p, table) !in k.rules)
  {
    var dead := Pick(PinTo(table), OwnRules(d.k.rules, d.tables));
    PinListing(d, table);
    DeletePrefix(d.k, dead, n);
    if n == |dead| {
      assert dead[..n] == dead;
    }
  }

  /** Make before break for `Unroute`: whoever is still authorised keeps a plain rule, after every
      prefix. */
  lemma UnrouteMakesBeforeBreak(d: Dp, peer: Addr, other: Addr, n: nat)
    requires GoodDp(d) && Guarded(d) && n <= |UnroutePlan(d, peer)|
    requires HasPlain(d.k.rules, d.tables, other)
    ensures other in Exec(d.k, UnroutePlan(d, peer)[..n]).peers ==>
              HasPlain(Exec(d.k, UnroutePlan(d, peer)[..n]).rules, d.tables, other)
  {
    UnrouteStep(d, peer, n);
    var name :| name in d.tables && PlainRule(other, d.tables[name]) in d.k.rules;
    if n == 0 {
      assert UnroutePlan(d, peer)[..n] == [];
    } else if other != peer {
      assert PlainRule(other, d.tables[name]) in Exec(d.k, UnroutePlan(d, peer)[..n]).rules;
    }
  }

  // ---------------------------------------------------------------- Only faults make a call fail

  /** Deleting listed rules one by one, each is still there when its turn comes. */
  lemma DeletePossible(s: State, dead: seq<Rule>, n: nat)
    requires GoodRules(s.rules) && NoDup(dead) && n < |dead|
    requires forall r :: r in dead ==> IsPeerRule(r) && r in s.rules
    ensures Possible(Exec(s, Dels(dead)[..n]), Dels(dead)[n])
  {
    DeletePrefix(s, dead, n);
    assert dead[n] !in dead[..n];
    assert Matches(dead[n], dead[n]);
  }

  /** No rule is deleted twice by a move. */
  lemma MoveDeletesOnce(peer: Addr, table: nat, pins: seq<Rule>, news: seq<Rule>, olds: seq<Rule>, n: nat)
    requires NoDup(pins) && NoDup(olds) && n < |Move(peer, table, pins, news, olds)|
    requires forall r :: r in pins ==> r !in olds
    requires Move(peer, table, pins, news, olds)[n].RuleDel?
    ensures var plan := Move(peer, table, pins, news, olds); plan[n] !in plan[..n]
  {
    var plan, a := Move(peer, table, pins, news, olds), |pins| + |news| + 1;
    forall i | 0 <= i < n ensures plan[i] != plan[n] {
      if n < |pins| {
        assert plan[n] == RuleDel(pins[n]) && plan[i] == RuleDel(pins[i]);
      } else {
        assert plan[n] == RuleDel(olds[n - a]);
        assert i < |pins| ==> plan[i] == RuleDel(pins[i]);
        assert i >= a ==> plan[i] == RuleDel(olds[i - a]);
      }
    }
  }

  lemma MovePossible(s: State, peer: Addr, table: nat, pins: seq<Rule>, news: seq<Rule>, olds: seq<Rule>, n: nat)
    requires GoodRules(s.rules) && n < |Move(peer, table, pins, news, olds)|
    requires NoDup(pins) && NoDup(olds) && PeerOps(Move(peer, table, pins, news, olds))
    requires forall r :: r in pins ==> r !in olds
    requires forall r :: r in pins || r in olds ==> r in s.rules
    ensures var plan := Move(peer, table, pins, news, olds); Possible(Exec(s, plan[..n]), plan[n])
  {
    hide Move, GoodRules, NoDup, Exec;
    var plan := Move(peer, table, pins, news, olds);
    MoveOp(peer, table, pins, news, olds, plan[n]);
    if r :| plan[n] == RuleDel(r) {
      assert forall op :: op in plan[..n] ==> op in plan;
      RulesAfter(s, plan[..n]);
      MoveDeletesOnce(peer, table, pins, news, olds, n);
      assert Matches(r, r);
    }
  }

  /** In every state of a `Route` call the next operation is possible. */
  lemma RoutePossible(d: Dp, peer: Addr, table: nat, n: nat)
    requires GoodDp(d) && Guarded(d) && table in d.tables.Values && n < |RoutePlan(d, peer, table)|
    ensures var plan := RoutePlan(d, peer, table); Possible(Exec(d.k, plan[..n]), plan[n])
  {
    var body, plan := RouteBody(d, peer, table), RoutePlan(d, peer, table);
    RouteStep(d, peer, table, n);
    if n < |body| {
      assert plan[..n] == body[..n];
      BodyPossible(d, peer, table, n);
    } else {
      RouteBodyStep(d, peer, table, n);
    }
  }

  lemma BodyPossible(d: Dp, peer: Addr, table: nat, n: nat)
    requires GoodDp(d) && table in d.tables.Values && n < |RouteBody(d, peer, table)|
    ensures var body := RouteBody(d, peer, table); Possible(Exec(d.k, body[..n]), body[n])
  {
    RouteBodyOps(d, peer, table);
    ListsInOrder(d, peer, table);
    var pins, news, olds := OldPins(d, peer, table), NewPins(d, peer, table), OldPlains(d, peer, table);
    hide OldPins, NewPins, OldPlains;
    if PlainRule(peer, table) in d.k.rules {
      DeletePossible(d.k, pins, n);
    } else {
      MovePossible(d.k, peer, table, pins, news, olds, n);
    }
  }

  lemma RevokeThenDeletePossible(s: State, peer: Addr, auth: seq<Op>, dead: seq<Rule>, n: nat)
    requires GoodRules(s.rules) && s.firewall && NoDup(dead) && n < |auth + Dels(dead)|
    requires auth == if peer in s.peers then [Revoke(peer)] else []
    requires forall r :: r in dead ==> IsPeerRule(r) && r in s.rules
    ensures Possible(Exec(s, (auth + Dels(dead))[..n]), (auth + Dels(dead))[n])
  {
    var plan := auth + Dels(dead);
    if n < |auth| {
      assert plan[..n] == [];
    } else {
      hide GoodRules, Exec, Possible, Dels, IsPeerRule, NoDup;
      var m, s' := n - |auth|, s.(peers := s.peers - {peer});
      ExecRevoke(s, peer, auth);
      assert plan[..n] == auth + Dels(dead)[..m] && plan[n] == Dels(dead)[m];
      ExecConcat(s, auth, Dels(dead)[..m]);
      DeletePossible(s', dead, m);
    }
  }

  /** In every state of an `Unroute` call the next operation is possible. */
  lemma UnroutePossible(d: Dp, peer: Addr, n: nat)
    requires GoodDp(d) && Guarded(d) && n < |UnroutePlan(d, peer)|
    ensures var plan := UnroutePlan(d, peer); Possible(Exec(d.k, plan[..n]), plan[n])
  {
    PickKeepsOrder(Own(d.tables), d.k.rules);
    PickKeepsOrder(OfPeer(peer), OwnRules(d.k.rules, d.tables));
    PeerRules(d, peer);
    hide RulesFor;
    RevokeThenDeletePossible(d.k, peer, Auth(d, peer, false), RulesFor(d.k.rules, d.tables, peer), n);
  }

  /** In every state of dropping pins the next operation is possible. */
  lemma UnpinPossible(d: Dp, table: nat, n: nat)
    requires GoodDp(d) && table in d.tables.Values && n < |UnpinPlan(d, table)|
    ensures var plan := UnpinPlan(d, table); Possible(Exec(d.k, plan[..n]), plan[n])
  {
    PinListing(d, table);
    DeletePossible(d.k, Pick(PinTo(table), OwnRules(d.k.rules, d.tables)), n);
  }

  // ---------------------------------------------------------------- Where in its plan a call stands

  lemma PlanShape(d: Dp, peer: Addr, table: nat)
    ensures var plan, body := RoutePlan(d, peer, table), RouteBody(d, peer, table);
            && |body| == |OldPins(d, peer, table)| +
                 (if PlainRule(peer, table) in d.k.rules then 0
                  else |NewPins(d, peer, table)| + 1 + |OldPlains(d, peer, table)|)
            && plan[|body|..] == Auth(d, peer, true)
  {
  }

  /** Position of the deletion of a pin to the new table. */
  lemma AtOldPin(d: Dp, peer: Addr, table: nat, i: nat)
    requires i < |RulesFor(d.k.rules, d.tables, peer)|
    requires PinTo(table).Wants(RulesFor(d.k.rules, d.tables, peer)[i])
    ensures var rules, plan := RulesFor(d.k.rules, d.tables, peer), RoutePlan(d, peer, table);
            var n := |Pick(PinTo(table), rules[..i])|;
            n < |plan| && plan[n] == RuleDel(rules[i])
  {
    PickAt(PinTo(table), RulesFor(d.k.rules, d.tables, peer), i);
  }

  lemma MovePositions(peer: Addr, table: nat, pins: seq<Rule>, news: seq<Rule>, olds: seq<Rule>, rest: seq<Op>)
    ensures var n, plan := |pins| + |news|, Move(peer, table, pins, news, olds) + rest;
            && |plan| == n + 1 + |olds| + |rest| && plan[n] == RuleAdd(PlainRule(peer, table))
            && forall j :: 0 <= j < |olds| ==> plan[n + 1 + j] == RuleDel(olds[j])
  {
    var a, b, c := Dels(pins), PinAdds(peer, news), Dels(olds);
    var m := Move(peer, table, pins, news, olds);
    assert m == a + b + [RuleAdd(PlainRule(peer, table))] + c;
    forall j | 0 <= j < |olds| ensures (m + rest)[|a| + |b| + 1 + j] == c[j] {
      assert (m + rest)[|a| + |b| + 1 + j] == m[|a| + |b| + 1 + j];
    }
  }

  /** Position of the new plain rule and of the deletion of an old one. */
  lemma AtPlain(d: Dp, peer: Addr, table: nat)
    requires PlainRule(peer, table) !in d.k.rules
    ensures var olds, plan := OldPlains(d, peer, table), RoutePlan(d, peer, table);
            var n := |OldPins(d, peer, table)| + |NewPins(d, peer, table)|;
            && n + 1 + |olds| <= |plan| && plan[n] == RuleAdd(PlainRule(peer, table))
            && forall j :: 0 <= j < |olds| ==> plan[n + 1 + j] == RuleDel(olds[j])
  {
    MovePositions(peer, table, OldPins(d, peer, table), NewPins(d, peer, table), OldPlains(d, peer, table),
                  Auth(d, peer, true));
    hide OldPlains, OldPins, NewPins;
  }

  /** Pins come before plain rules in a listing, so a plain rule ends the search for pins. */
  lemma NoPinBehindPlain(d: Dp, peer: Addr, table: nat, i: nat)
    requires GoodDp(d) && table in d.tables.Values && i < |RulesFor(d.k.rules, d.tables, peer)|
    requires RulesFor(d.k.rules, d.tables, peer)[i].priority == PEER_PRIORITY
    ensures OldPins(d, peer, table) == Pick(PinTo(table), RulesFor(d.k.rules, d.tables, peer)[..i])
  {
    PickKeepsOrder(Own(d.tables), d.k.rules);
    PickKeepsOrder(OfPeer(peer), OwnRules(d.k.rules, d.tables));
    PickRest(PinTo(table), RulesFor(d.k.rules, d.tables, peer), i);
  }

  /** A move has decided about the first `j` old plain rules whether their flows are pinned. */
  ghost predicate Pinning(d: Dp, peer: Addr, table: nat, j: nat, n: nat) {
    var olds := OldPlains(d, peer, table);
    && PlainRule(peer, table) !in d.k.rules
    && j <= |olds|
    && n == |OldPins(d, peer, table)| + |Pick(AliveTable(d.tables, d.alive), olds[..j])|
  }

  lemma PinningStart(d: Dp, peer: Addr, table: nat)
    requires PlainRule(peer, table) !in d.k.rules
    ensures Pinning(d, peer, table, 0, |OldPins(d, peer, table)|)
  {
    hide OldPlains, OldPins;
  }

  lemma PinningNext(d: Dp, peer: Addr, table: nat, j: nat, n: nat)
    requires Pinning(d, peer, table, j, n) && j < |OldPlains(d, peer, table)|
    ensures var r, plan := OldPlains(d, peer, table)[j], RoutePlan(d, peer, table);
            if AliveTable(d.tables, d.alive).Wants(r) then
              n < |plan| && plan[n] == RuleAdd(PinRule(peer, r.table)) && Pinning(d, peer, table, j + 1, n + 1)
            else Pinning(d, peer, table, j + 1, n)
  {
    hide OldPlains, OldPins;
    PickAt(AliveTable(d.tables, d.alive), OldPlains(d, peer, table), j);
  }

  lemma PinningEnd(d: Dp, peer: Addr, table: nat, n: nat)
    requires Pinning(d, peer, table, |OldPlains(d, peer, table)|, n)
    ensures n == |OldPins(d, peer, table)| + |NewPins(d, peer, table)|
  {
    hide OldPlains, OldPins;
    var olds := OldPlains(d, peer, table);
    assert olds[..|olds|] == olds;
  }

  /** `Route` has gone through the first `i` rules of the peer without meeting a plain rule of the new
      table: `n` pins are gone and `olds` are the plain rules so far. */
  ghost predicate Scanned(d: Dp, peer: Addr, table: nat, i: nat, olds: seq<Rule>, n: nat) {
    var rules := RulesFor(d.k.rules, d.tables, peer);
    && i <= |rules|
    && n == |Pick(PinTo(table), rules[..i])|
    && olds == Pick(PlainBut(table), rules[..i])
    && PlainRule(peer, table) !in rules[..i]
  }

  lemma ScanStart(d: Dp, peer: Addr, table: nat)
    ensures Scanned(d, peer, table, 0, [], 0)
  {
  }

  lemma ScanPlain(d: Dp, peer: Addr, table: nat, i: nat, olds: seq<Rule>, n: nat)
    requires GoodDp(d) && table in d.tables.Values && Scanned(d, peer, table, i, olds, n)
    requires i < |RulesFor(d.k.rules, d.tables, peer)|
    requires RulesFor(d.k.rules, d.tables, peer)[i].priority == PEER_PRIORITY
    ensures var r := RulesFor(d.k.rules, d.tables, peer)[i];
            if r.table == table then PlainRule(peer, table) in d.k.rules && n == |OldPins(d, peer, table)|
            else Scanned(d, peer, table, i + 1, olds + [r], n)
  {
    PickAt(PinTo(table), RulesFor(d.k.rules, d.tables, peer), i);
    PickAt(PlainBut(table), RulesFor(d.k.rules, d.tables, peer), i);
    PeerRule(d, peer, RulesFor(d.k.rules, d.tables, peer)[i]);
    NoPinBehindPlain(d, peer, table, i);
  }

  lemma ScanPin(d: Dp, peer: Addr, table: nat, i: nat, olds: seq<Rule>, n: nat)
    requires GoodDp(d) && Guarded(d) && table in d.tables.Values && Scanned(d, peer, table, i, olds, n)
    requires i < |RulesFor(d.k.rules, d.tables, peer)|
    requires RulesFor(d.k.rules, d.tables, peer)[i].priority != PEER_PRIORITY
    ensures var r, plan := RulesFor(d.k.rules, d.tables, peer)[i], RoutePlan(d, peer, table);
            if r.priority == PIN_PRIORITY && r.table == table then
              && Scanned(d, peer, table, i + 1, olds, n + 1)
              && n < |plan| && plan[n] == RuleDel(r) && Possible(Exec(d.k, plan[..n]), plan[n])
            else Scanned(d, peer, table, i + 1, olds, n)
  {
    var rules := RulesFor(d.k.rules, d.tables, peer);
    PickAt(PinTo(table), rules, i);
    PickAt(PlainBut(table), rules, i);
    if rules[i].priority == PIN_PRIORITY && rules[i].table == table {
      AtOldPin(d, peer, table, i);
      RoutePossible(d, peer, table, n);
    }
  }

  lemma ScanEnd(d: Dp, peer: Addr, table: nat, olds: seq<Rule>, n: nat)
    requires GoodDp(d) && table in d.tables.Values
    requires Scanned(d, peer, table, |RulesFor(d.k.rules, d.tables, peer)|, olds, n)
    ensures PlainRule(peer, table) !in d.k.rules && n == |OldPins(d, peer, table)| && olds == OldPlains(d, peer, table)
  {
    var rules := RulesFor(d.k.rules, d.tables, peer);
    assert rules[..|rules|] == rules;
    PeerRule(d, peer, PlainRule(peer, table));
  }

  lemma ReachedStart(s: State, log: seq<Op>, plan: seq<Op>)
    ensures Reached(s, log, s, log, plan, 0)
  {
  }

  /** The kernel after `Route` stopped behind `n` operations. */
  lemma RouteReached(d: Dp, peer: Addr, table: nat, s: State, log: seq<Op>, before: seq<Op>, n: nat)
    requires GoodDp(d) && Guarded(d) && table in d.tables.Values
    requires Reached(s, log, d.k, before, RoutePlan(d, peer, table), n)
    ensures n <= |RoutePlan(d, peer, table)| && GoodRules(s.rules) && s.firewall
    ensures s.peers == if n == |RoutePlan(d, peer, table)| then d.k.peers + {peer} else d.k.peers
    ensures n == |RoutePlan(d, peer, table)| ==> s == Exec(d.k, RoutePlan(d, peer, table))
    ensures n == 0 ==> s == d.k && log == before
  {
    hide GoodDp, RoutePlan, RouteBody, GoodRules;
    var plan := RoutePlan(d, peer, table);
    RouteStep(d, peer, table, n);
    RouteBodyStep(d, peer, table, if n <= |RouteBody(d, peer, table)| then n else n - 1);
    assert plan[..|plan|] == plan;
  }

  /** The kernel after `Unroute` stopped behind `n` operations. */
  lemma UnrouteReached(d: Dp, peer: Addr, s: State, log: seq<Op>, before: seq<Op>, n: nat)
    requires GoodDp(d) && Guarded(d) && Reached(s, log, d.k, before, UnroutePlan(d, peer), n)
    ensures n <= |UnroutePlan(d, peer)| && GoodRules(s.rules) && s.firewall
    ensures s.peers == if n == 0 then d.k.peers else d.k.peers - {peer}
    ensures n == |UnroutePlan(d, peer)| ==> s == Exec(d.k, UnroutePlan(d, peer))
  {
    hide GoodDp, GoodRules, UnroutePlan;
    var plan := UnroutePlan(d, peer);
    UnrouteStep(d, peer, n);
    assert plan[..|plan|] == plan;
  }

  lemma UnpinReached(d: Dp, table: nat, s: State, log: seq<Op>, before: seq<Op>, n: nat)
    requires GoodDp(d) && table in d.tables.Values && Reached(s, log, d.k, before, UnpinPlan(d, table), n)
    ensures n <= |UnpinPlan(d, table)| && GoodRules(s.rules) && s.firewall == d.k.firewall && s.peers == d.k.peers
    ensures n == |UnpinPlan(d, table)| ==> s == Exec(d.k, UnpinPlan(d, table))
  {
    hide GoodDp, GoodRules, UnpinPlan;
    var plan := UnpinPlan(d, table);
    UnpinStep(d, table, n);
    assert plan[..|plan|] == plan;
  }

  lemma UnrouteShape(d: Dp, peer: Addr)
    ensures var auth, rules, plan := Auth(d, peer, false), RulesFor(d.k.rules, d.tables, peer), UnroutePlan(d, peer);
            && |plan| == |auth| + |rules| && auth <= plan
            && forall i :: 0 <= i < |rules| ==> plan[|auth| + i] == RuleDel(rules[i])
  {
    hide RulesFor;
  }

  /** `SetAlive` has looked at the first `i` of our rules. */
  ghost predicate Unpinning(d: Dp, table: nat, i: nat, n: nat) {
    var all := OwnRules(d.k.rules, d.tables);
    i <= |all| && n == |Pick(PinTo(table), all[..i])|
  }

  lemma UnpinStart(d: Dp, table: nat)
    ensures Unpinning(d, table, 0, 0)
  {
  }

  lemma UnpinNext(d: Dp, table: nat, i: nat, n: nat)
    requires GoodDp(d) && table in d.tables.Values && Unpinning(d, table, i, n) && i < |OwnRules(d.k.rules, d.tables)|
    ensures var r, plan := OwnRules(d.k.rules, d.tables)[i], UnpinPlan(d, table);
            if r.priority == PIN_PRIORITY && r.table == table then
              && n < |plan| && plan[n] == RuleDel(r) && Possible(Exec(d.k, plan[..n]), plan[n])
              && Unpinning(d, table, i + 1, n + 1)
            else Unpinning(d, table, i + 1, n)
  {
    var all := OwnRules(d.k.rules, d.tables);
    PickAt(PinTo(table), all, i);
    if all[i].priority == PIN_PRIORITY && all[i].table == table {
      UnpinPossible(d, table, n);
    }
  }

  lemma UnpinEnd(d: Dp, table: nat, n: nat)
    requires Unpinning(d, table, |OwnRules(d.k.rules, d.tables)|, n)
    ensures n == |UnpinPlan(d, table)|
  {
    hide OwnRules;
    var all := OwnRules(d.k.rules, d.tables);
    assert all[..|all|] == all;
  }
}
