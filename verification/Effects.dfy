/**
What a caller of the dataplane can rely on after each call, whether it succeeded or not, and the
property that spans the calls: whoever is authorised has a plain rule, in every state on the way.
 */
module Effects {
  import opened Kernel
  import opened LinuxRules
  import opened RouteSteps
  import opened LinuxDataplane

  ghost predicate SameOthers(rules: seq<Rule>, rules': seq<Rule>, peer: Addr) {
    forall r :: !IsPeerRuleOf(r, peer) ==> (r in rules' <==> r in rules)
  }

  ghost predicate RouteEffect(d: Dp, d': Dp, peer: Addr, table: nat, ok: bool) {
    && GoodDp(d') && Guarded(d')
    && d' == d.(k := d.k.(rules := d'.k.rules, peers := d'.k.peers), allowed := d'.k.peers)
    && d'.k.peers == (if ok then d.k.peers + {peer} else d.k.peers)
    && SameOthers(d.k.rules, d'.k.rules, peer)
    && (forall u :: PinRule(peer, u) in d'.k.rules ==> PinRule(peer, u) in d.k.rules || AliveAt(d, u))
    && ((PlainRule(peer, table) in d'.k.rules && PlainRule(peer, table) !in d.k.rules) ||
        forall u :: PlainRule(peer, u) in d'.k.rules <==> PlainRule(peer, u) in d.k.rules)
    && (ok ==> forall u :: u in d.tables.Values ==>
                 (PlainRule(peer, u) in d'.k.rules <==>
                  if PlainRule(peer, table) in d.k.rules then PlainRule(peer, u) in d.k.rules else u == table))
  }

  lemma RouteHasEffect(d: Dp, d': Dp, peer: Addr, table: nat, log: seq<Op>, before: seq<Op>, n: nat, ok: bool)
    requires GoodDp(d) && Guarded(d) && table in d.tables.Values && GoodDp(d') && Guarded(d')
    requires Reached(d'.k, log, d.k, before, RoutePlan(d, peer, table), n)
    requires d'.tables == d.tables && d'.alive == d.alive
    requires ok ==> n == |RoutePlan(d, peer, table)|
    requires !ok ==> d'.k.peers == d.k.peers
    ensures RouteEffect(d, d', peer, table, ok)
  {
    hide GoodRules, GoodTables, RoutePlan, RouteBody;
    var plan, body := RoutePlan(d, peer, table), RouteBody(d, peer, table);
    RouteStep(d, peer, table, n);
    RouteBodyStep(d, peer, table, if n <= |body| then n else n - 1);
    if ok {
      assert plan[..|plan|] == plan;
      forall u | u in d.tables.Values
        ensures PlainRule(peer, u) in d'.k.rules <==>
                if PlainRule(peer, table) in d.k.rules then PlainRule(peer, u) in d.k.rules else u == table
      {
        PlainsAfterRoute(d, peer, table, u);
      }
    }
  }

  ghost predicate UnrouteEffect(d: Dp, d': Dp, peer: Addr, ok: bool) {
    && GoodDp(d') && Guarded(d')
    && d' == d.(k := d.k.(rules := d'.k.rules, peers := d'.k.peers), allowed := d'.k.peers)
    && (d'.k == d.k || d'.k.peers == d.k.peers - {peer})
    && SameOthers(d.k.rules, d'.k.rules, peer)
    && (forall r :: r in d'.k.rules ==> r in d.k.rules)
    && (ok ==> peer !in d'.k.peers && forall r :: r in d'.k.rules && IsPeerRuleOf(r, peer) ==>
        r.table !in d.tables.Values)
  }

  lemma UnrouteHasEffect(d: Dp, d': Dp, peer: Addr, log: seq<Op>, before: seq<Op>, n: nat, ok: bool)
    requires GoodDp(d) && Guarded(d) && GoodDp(d') && Guarded(d')
    requires Reached(d'.k, log, d.k, before, UnroutePlan(d, peer), n)
    requires d'.tables == d.tables && d'.alive == d.alive
    requires ok ==> n == |UnroutePlan(d, peer)|
    ensures UnrouteEffect(d, d', peer, ok)
  {
    hide GoodRules, GoodTables, UnroutePlan, Auth;
    UnrouteStep(d, peer, n);
    if n == 0 {
      assert UnroutePlan(d, peer)[..n] == [];
      if ok {
        NothingToRevoke(d, peer);
      }
    }
  }

  lemma NothingToRevoke(d: Dp, peer: Addr)
    requires Guarded(d) && UnroutePlan(d, peer) == []
    ensures peer !in d.k.peers
  {
    hide RulesFor;
    UnrouteShape(d, peer);
  }

  ghost predicate AliveEffect(d: Dp, d': Dp, name: string, up: bool, ok: bool) {
    && GoodDp(d') && (Guarded(d) ==> Guarded(d'))
    && d' == d.(k := d.k.(rules := d'.k.rules), alive := d'.alive)
    && (name !in d.tables ==> !ok && d' == d)
    && (name in d.tables ==> d'.alive == (if up then d.alive + {name} else d.alive - {name}))
    && (forall r :: r in d'.k.rules ==> r in d.k.rules)
    && (forall r :: r in d.k.rules && r !in d'.k.rules ==>
          !up && name in d.tables && Ours(r) && r.priority == PIN_PRIORITY && r.table == d.tables[name])
    && (ok && !up ==> forall p :: PinRule(p, d.tables[name]) !in d'.k.rules)
  }

  lemma UnpinHasEffect(d: Dp, d': Dp, name: string, log: seq<Op>, before: seq<Op>, n: nat, ok: bool)
    requires GoodDp(d) && GoodDp(d') && name in d.tables
    requires Reached(d'.k, log, d.k, before, UnpinPlan(d, d.tables[name]), n)
    requires d'.tables == d.tables && d'.allowed == d.allowed && d'.alive == d.alive - {name}
    requires ok ==> n == |UnpinPlan(d, d.tables[name])|
    ensures AliveEffect(d, d', name, false, ok)
  {
    hide GoodRules, GoodTables, UnpinPlan;
    UnpinStep(d, d.tables[name], n);
  }

  // ---------------------------------------------------------------- Routing operations

  lemma RouteIsRouting(d: Dp, peer: Addr, table: nat, log: seq<Op>, before: seq<Op>, s: State, n: nat)
    requires GoodDp(d) && table in d.tables.Values && Reached(s, log, d.k, before, RoutePlan(d, peer, table), n)
    ensures Grown(before, log)
  {
    hide RouteBody;
    RouteBodyOps(d, peer, table);
    var plan := RoutePlan(d, peer, table);
    forall i | |before| <= i < |log| ensures RoutingOp(log[i]) {
      assert log[i] == plan[i - |before|];
      assert log[i] in RouteBody(d, peer, table) || log[i] in Auth(d, peer, true);
    }
  }

  lemma UnrouteIsRouting(d: Dp, peer: Addr, log: seq<Op>, before: seq<Op>, s: State, n: nat)
    requires GoodDp(d) && Reached(s, log, d.k, before, UnroutePlan(d, peer), n)
    ensures Grown(before, log)
  {
    hide RulesFor;
    var plan := UnroutePlan(d, peer);
    forall i | |before| <= i < |log| ensures RoutingOp(log[i]) {
      assert log[i] == plan[i - |before|];
    }
  }

  lemma UnpinIsRouting(d: Dp, table: nat, log: seq<Op>, before: seq<Op>, s: State, n: nat)
    requires Reached(s, log, d.k, before, UnpinPlan(d, table), n)
    ensures Grown(before, log)
  {
    hide OwnRules;
    var plan := UnpinPlan(d, table);
    forall i | |before| <= i < |log| ensures RoutingOp(log[i]) {
      assert log[i] == plan[i - |before|];
    }
  }

  // ---------------------------------------------------------------- Ambiguity

  /** Whether a listing of our rules is refused depends on probe rules alone. */
  lemma AmbiguityIgnoresPeerRules(d: Dp, d': Dp)
    requires d'.tables == d.tables
    requires forall r :: !IsPeerRule(r) ==> (r in d'.k.rules <==> r in d.k.rules)
    ensures Unambiguous(d) <==> Unambiguous(d')
  {
    AmbiguousThere(d, d');
    AmbiguousThere(d', d);
  }

  lemma AmbiguousThere(d: Dp, d': Dp)
    requires d'.tables == d.tables
    requires forall r :: !IsPeerRule(r) ==> (r in d'.k.rules <==> r in d.k.rules)
    ensures !Unambiguous(d) ==> !Unambiguous(d')
  {
    hide Pick;
    if !Unambiguous(d) {
      var r :| r in OwnRules(d.k.rules, d.tables) && ProbeAmbiguous(r, d.k.rules);
      Picked(Own(d.tables), d.k.rules, r);
      Picked(Own(d.tables), d'.k.rules, r);
      assert !IsPeerRule(r);
    }
  }

  // ---------------------------------------------------------------- Cover

  /** Everyone who is authorised has a plain rule of ours, so their packets do not fall through to the
      main table. */
  ghost predicate Covered(k: State, tables: Tables) {
    forall p :: p in k.peers ==> HasPlain(k.rules, tables, p)
  }

  /** If everyone was covered at first, everyone has been covered in every state since. */
  ghost predicate CoverKept(init: State, before: seq<Op>, after: seq<Op>, tables: Tables) {
    && before <= after
    && (Covered(Exec(init, before), tables) ==>
        forall i :: |before| <= i <= |after| ==> Covered(Exec(init, after[..i]), tables))
  }

  lemma CoverStart(init: State, log: seq<Op>, tables: Tables)
    ensures CoverKept(init, log, log, tables)
  {
    hide Exec, Covered;
    assert log[..|log|] == log;
  }

  lemma CoverContinues(init: State, a: seq<Op>, b: seq<Op>, tables: Tables)
    requires CoverKept(init, a, b, tables)
    ensures Continues(a, b)
  {
  }

  lemma CoverOn(init: State, a: seq<Op>, b: seq<Op>, c: seq<Op>, tables: Tables)
    requires CoverKept(init, a, b, tables) && CoverKept(init, b, c, tables)
    ensures CoverKept(init, a, c, tables)
  {
    hide Exec, Covered;
    if Covered(Exec(init, a), tables) {
      assert b[..|b|] == b;
      forall i | |a| <= i <= |c| ensures Covered(Exec(init, c[..i]), tables) {
        if i <= |b| {
          assert c[..i] == b[..i];
        }
      }
    }
  }

  /** An operation that touches neither rules nor authorisations. */
  lemma CoverStep(init: State, log: seq<Op>, op: Op, tables: Tables)
    requires var s := Exec(init, log); Apply(s, op).rules == s.rules && Apply(s, op).peers == s.peers
    ensures CoverKept(init, log, log + [op], tables)
  {
    hide Exec, Apply, HasPlain;
    ExecSnoc(init, log, op);
    if Covered(Exec(init, log), tables) {
      forall i | |log| <= i <= |log| + 1 ensures Covered(Exec(init, (log + [op])[..i]), tables) {
        assert (log + [op])[..i] == if i == |log| then log else log + [op];
      }
    }
  }

  lemma RouteCovers(init: State, d: Dp, peer: Addr, table: nat, s: State, log: seq<Op>, before: seq<Op>, n: nat)
    requires GoodDp(d) && Guarded(d) && table in d.tables.Values && d.k == Exec(init, before)
    requires Reached(s, log, d.k, before, RoutePlan(d, peer, table), n)
    ensures CoverKept(init, before, log, d.tables)
  {
    hide GoodDp, Guarded, HasPlain;
    var plan := RoutePlan(d, peer, table);
    hide RoutePlan;
    if Covered(d.k, d.tables) {
      forall i | |before| <= i <= |log| ensures Covered(Exec(init, log[..i]), d.tables) {
        assert log[..i] == before + plan[..i - |before|];
        ExecConcat(init, before, plan[..i - |before|]);
        RouteCoversAt(d, peer, table, i - |before|);
      }
    }
  }

  lemma RouteCoversAt(d: Dp, peer: Addr, table: nat, m: nat)
    requires GoodDp(d) && Guarded(d) && table in d.tables.Values && Covered(d.k, d.tables)
    requires m <= |RoutePlan(d, peer, table)|
    ensures Covered(Exec(d.k, RoutePlan(d, peer, table)[..m]), d.tables)
  {
    hide RoutePlan, RouteBody, GoodDp;
    var plan := RoutePlan(d, peer, table);
    var k := Exec(d.k, plan[..m]);
    RouteStep(d, peer, table, m);
    forall p | p in k.peers ensures HasPlain(k.rules, d.tables, p) {
      if p in d.k.peers {
        RouteMakesBeforeBreak(d, peer, p, table, m);
      } else {
        assert plan[..|plan|] == plan;
        PlainsAfterRoute(d, peer, table, table);
        var name :| name in d.tables && d.tables[name] == table;
      }
    }
  }

  lemma UnrouteCovers(init: State, d: Dp, peer: Addr, s: State, log: seq<Op>, before: seq<Op>, n: nat)
    requires GoodDp(d) && Guarded(d) && d.k == Exec(init, before)
    requires Reached(s, log, d.k, before, UnroutePlan(d, peer), n)
    ensures CoverKept(init, before, log, d.tables)
  {
    hide GoodDp, Guarded, HasPlain;
    var plan := UnroutePlan(d, peer);
    hide UnroutePlan;
    if Covered(d.k, d.tables) {
      forall i | |before| <= i <= |log| ensures Covered(Exec(init, log[..i]), d.tables) {
        var m := i - |before|;
        assert log[..i] == before + plan[..m];
        ExecConcat(init, before, plan[..m]);
        UnrouteStep(d, peer, m);
        forall p | p in Exec(d.k, plan[..m]).peers ensures HasPlain(Exec(d.k, plan[..m]).rules, d.tables, p) {
          UnrouteMakesBeforeBreak(d, peer, p, m);
        }
      }
    }
  }

  lemma UnpinCovers(init: State, d: Dp, table: nat, s: State, log: seq<Op>, before: seq<Op>, n: nat)
    requires GoodDp(d) && table in d.tables.Values && d.k == Exec(init, before)
    requires Reached(s, log, d.k, before, UnpinPlan(d, table), n)
    ensures CoverKept(init, before, log, d.tables)
  {
    hide GoodDp;
    var plan := UnpinPlan(d, table);
    hide UnpinPlan;
    if Covered(d.k, d.tables) {
      forall i | |before| <= i <= |log| ensures Covered(Exec(init, log[..i]), d.tables) {
        var m := i - |before|;
        assert log[..i] == before + plan[..m];
        ExecConcat(init, before, plan[..m]);
        UnpinStep(d, table, m);
        forall p | p in Exec(d.k, plan[..m]).peers ensures HasPlain(Exec(d.k, plan[..m]).rules, d.tables, p) {
          var n' :| n' in d.tables && PlainRule(p, d.tables[n']) in d.k.rules;
        }
      }
    }
  }

  // ---------------------------------------------------------------- What a reload keeps on its way

  /** Whoever is authorised in the later state was so in the earlier one, and has the plain rules of these
      tables that they had then. */
  ghost predicate Holds(s: State, s': State, kept: set<nat>) {
    && s'.peers <= s.peers
    && forall a: Addr, t :: t in kept && a in s'.peers && PlainRule(a, t) in s.rules ==> PlainRule(a, t) in s'.rules
  }

  /** In every state since. */
  ghost predicate HeldKept(init: State, before: seq<Op>, after: seq<Op>, kept: set<nat>) {
    && before <= after
    && forall i :: |before| <= i <= |after| ==> Holds(Exec(init, before), Exec(init, after[..i]), kept)
  }

  lemma HeldStart(init: State, log: seq<Op>, kept: set<nat>)
    ensures HeldKept(init, log, log, kept)
  {
    assert log[..|log|] == log;
  }

  lemma HeldContinues(init: State, a: seq<Op>, b: seq<Op>, kept: set<nat>)
    requires HeldKept(init, a, b, kept)
    ensures Continues(a, b)
  {
  }

  lemma HoldsOn(a: State, b: State, c: State, kept: set<nat>)
    requires Holds(a, b, kept) && Holds(b, c, kept)
    ensures Holds(a, c, kept)
  {
  }

  lemma HeldOn(init: State, a: seq<Op>, b: seq<Op>, c: seq<Op>, kept: set<nat>)
    requires HeldKept(init, a, b, kept) && HeldKept(init, b, c, kept)
    ensures HeldKept(init, a, c, kept)
  {
    hide Exec, Holds;
    assert b[..|b|] == b;
    forall i | |a| <= i <= |c| ensures Holds(Exec(init, a), Exec(init, c[..i]), kept) {
      if i <= |b| {
        assert c[..i] == b[..i];
      } else {
        HoldsOn(Exec(init, a), Exec(init, b), Exec(init, c[..i]), kept);
      }
    }
  }

  lemma HeldFewer(init: State, a: seq<Op>, b: seq<Op>, kept: set<nat>, fewer: set<nat>)
    requires HeldKept(init, a, b, kept) && fewer <= kept
    ensures HeldKept(init, a, b, fewer)
  {
    hide Exec;
  }

  /** An operation that touches neither rules nor authorisations. */
  lemma HeldStep(init: State, log: seq<Op>, op: Op, kept: set<nat>)
    requires var s := Exec(init, log); Apply(s, op).rules == s.rules && Apply(s, op).peers == s.peers
    ensures HeldKept(init, log, log + [op], kept)
  {
    hide Exec, Apply;
    ExecSnoc(init, log, op);
    forall i | |log| <= i <= |log| + 1 ensures Holds(Exec(init, log), Exec(init, (log + [op])[..i]), kept) {
      assert (log + [op])[..i] == if i == |log| then log else log + [op];
    }
  }

  lemma {:induction false} InsertKeeps(rules: seq<Rule>, r: Rule, x: Rule)
    requires x in rules
    ensures x in InsertRule(rules, r)
    decreases |rules|
  {
    if r !in rules && rules[|rules| - 1].priority > r.priority {
      var front, last := rules[..|rules| - 1], rules[|rules| - 1];
      assert rules == front + [last];
      if x in front {
        InsertKeeps(front, r, x);
      }
    }
  }

  lemma {:induction false} RemoveKeeps(rules: seq<Rule>, pattern: Rule, x: Rule)
    requires x in rules && !Matches(pattern, x)
    ensures x in RemoveRule(rules, pattern)
  {
    if !Matches(pattern, rules[0]) && x != rules[0] {
      assert x in rules[1..];
      RemoveKeeps(rules[1..], pattern, x);
    }
  }

  lemma SparingStepHolds(s: State, op: Op, gone: set<nat>, kept: set<nat>)
    requires Spares(op, gone) && kept !! gone
    ensures Holds(s, Apply(s, op), kept)
  {
    hide InsertRule, RemoveRule;
    forall a: Addr, t | t in kept && a in s.peers && PlainRule(a, t) in s.rules
      ensures PlainRule(a, t) in Apply(s, op).rules
    {
      match op
      case RuleAdd(r) => InsertKeeps(s.rules, r, PlainRule(a, t));
      case RuleDel(r) => RemoveKeeps(s.rules, r, PlainRule(a, t));
      case _ =>
    }
  }

  /** Operations that delete rules of other tables only. */
  lemma {:induction false} SparingHolds(init: State, before: seq<Op>, after: seq<Op>, gone: set<nat>, kept: set<nat>)
    requires Sparing(before, after, gone) && kept !! gone
    ensures HeldKept(init, before, after, kept)
    decreases |after|
  {
    hide Exec, Apply, Holds, Spares;
    if |before| == |after| {
      assert before == after;
      HeldStart(init, before, kept);
    } else {
      var front, last := after[..|after| - 1], after[|after| - 1];
      assert after == front + [last];
      assert Spares(after[|after| - 1], gone);
      SparingHolds(init, before, front, gone, kept);
      assert front[..|front|] == front;
      ExecSnoc(init, front, last);
      SparingStepHolds(Exec(init, front), last, gone, kept);
      HoldsOn(Exec(init, before), Exec(init, front), Exec(init, after), kept);
      forall i | |before| <= i <= |after| ensures Holds(Exec(init, before), Exec(init, after[..i]), kept) {
        if i < |after| {
          assert after[..i] == front[..i];
        } else {
          assert after[..i] == after;
        }
      }
    }
  }

  lemma UnrouteHolds(init: State, d: Dp, peer: Addr, s: State, log: seq<Op>, before: seq<Op>, n: nat, kept: set<nat>)
    requires GoodDp(d) && Guarded(d) && d.k == Exec(init, before)
    requires Reached(s, log, d.k, before, UnroutePlan(d, peer), n)
    ensures HeldKept(init, before, log, kept)
  {
    hide GoodDp, Guarded;
    var plan := UnroutePlan(d, peer);
    hide UnroutePlan, Exec;
    forall i | |before| <= i <= |log| ensures Holds(d.k, Exec(init, log[..i]), kept) {
      var m := i - |before|;
      assert log[..i] == before + plan[..m];
      ExecConcat(init, before, plan[..m]);
      UnrouteStepHolds(d, peer, m, kept);
    }
  }

  lemma UnrouteStepHolds(d: Dp, peer: Addr, m: nat, kept: set<nat>)
    requires GoodDp(d) && Guarded(d) && m <= |UnroutePlan(d, peer)|
    ensures Holds(d.k, Exec(d.k, UnroutePlan(d, peer)[..m]), kept)
  {
    hide GoodDp, Guarded, UnroutePlan;
    UnrouteStep(d, peer, m);
    var k := Exec(d.k, UnroutePlan(d, peer)[..m]);
    if m == 0 {
      assert UnroutePlan(d, peer)[..m] == [];
    } else {
      forall a: Addr, t | t in kept && a in k.peers && PlainRule(a, t) in d.k.rules ensures PlainRule(a, t) in k.rules {
        assert !IsPeerRuleOf(PlainRule(a, t), peer);
      }
    }
  }

  lemma UnpinHolds(init: State, d: Dp, table: nat, s: State, log: seq<Op>, before: seq<Op>, n: nat, kept: set<nat>)
    requires GoodDp(d) && table in d.tables.Values && d.k == Exec(init, before)
    requires Reached(s, log, d.k, before, UnpinPlan(d, table), n)
    ensures HeldKept(init, before, log, kept)
  {
    hide GoodDp;
    var plan := UnpinPlan(d, table);
    hide UnpinPlan, Exec;
    forall i | |before| <= i <= |log| ensures Holds(d.k, Exec(init, log[..i]), kept) {
      var m := i - |before|;
      assert log[..i] == before + plan[..m];
      ExecConcat(init, before, plan[..m]);
      UnpinStep(d, table, m);
    }
  }
}
