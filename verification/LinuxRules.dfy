/**
The rules Lotsman installs, how it recognises them, and what `Route`, `Unroute` and `SetAlive` do to
the kernel: each call is a fixed list of operations computed from the state it finds, of which it
carries out a prefix (all of it when nothing fails).
 */
module LinuxRules {
  import opened Wrappers
  import opened Kernel

  const TABLE_BASE: nat := 1000
  const TABLE_LIMIT: nat := 1100
  const PIN_PRIORITY: nat := 3000
  const PROBE_PRIORITY: nat := 4000
  const PEER_PRIORITY: nat := 5000
  const UP_PREFIX: string := "lm-up-"

  predicate InRange(table: nat) { TABLE_BASE <= table < TABLE_LIMIT }

  predicate IsUpName(name: string) { UP_PREFIX <= name }

  function PlainRule(peer: Addr, table: nat): Rule {
    Rule(PEER_PRIORITY, table, Some(peer), None, "", 0)
  }

  function PinRule(peer: Addr, table: nat): Rule {
    Rule(PIN_PRIORITY, table, Some(peer), Some(table), "", 0)
  }

  function ProbeRule(addr: Addr, table: nat, name: string): Rule {
    Rule(PROBE_PRIORITY, table, Some(addr), None, name, 0)
  }

  /** Exactly a shape Lotsman installs (or, for source-only probe rules, used to install). */
  predicate Ours(r: Rule) {
    && InRange(r.table)
    && r.src.Some?
    && match r.priority
       case 3000 => r == PinRule(r.src.value, r.table)
       case 4000 => (r.oif == "" || IsUpName(r.oif)) && r == ProbeRule(r.src.value, r.table, r.oif)
       case 5000 => r == PlainRule(r.src.value, r.table)
       case _ => false
  }

  predicate IsPeerRule(r: Rule) { Ours(r) && r.priority != PROBE_PRIORITY }

  predicate IsPeerRuleOf(r: Rule, peer: Addr) { IsPeerRule(r) && r.src == Some(peer) }

  /** A default route with no gateway over an upstream interface. */
  predicate OurRoute(rt: Route) { rt.dst == 0 && !rt.gateway && IsUpName(rt.link) }

  predicate OwnedTable(table: nat, routes: set<Route>) {
    InRange(table) && forall rt :: rt in routes && rt.table == table ==> OurRoute(rt)
  }

  predicate ProbeTableMatches(r: Rule, routes: set<Route>) {
    r.oif == "" || forall rt :: rt in routes && rt.table == r.table ==> rt.link == r.oif
  }

  /** The rules this program puts into a table, or used to: those of `Route`, and probe rules, with the name
      of an upstream interface or, as it once wrote them, without one. */
  ghost predicate Installed(r: Rule) {
    && 1000 <= r.table < 1100
    && exists a: Addr ::
         || r == PlainRule(a, r.table) || r == PinRule(a, r.table)
         || (r == ProbeRule(a, r.table, r.oif) && (r.oif == "" || "lm-up-" <= r.oif))
  }

  /** What it installs nowadays: probe rules name their interface. */
  ghost predicate Named(r: Rule) { Installed(r) && (r.priority == 4000 ==> r.oif != "") }

  /** The program takes for its own exactly what it installs: one more selector makes a rule foreign. */
  lemma OursAreInstalled(r: Rule)
    ensures Ours(r) <==> Installed(r)
  {
    if Ours(r) {
      var a := r.src.value;
      assert r == PlainRule(a, r.table) || r == PinRule(a, r.table) || r == ProbeRule(a, r.table, r.oif);
    }
  }

  /** A rule of this program in a table of one of these upstreams, and not of the interface of another. */
  ghost predicate Held(r: Rule, tables: map<string, nat>) {
    Installed(r) && exists n :: n in tables && tables[n] == r.table && (r.oif == "" || r.oif == n)
  }

  lemma OwnAreHeld(r: Rule, tables: map<string, nat>)
    ensures Own(tables).Wants(r) <==> Held(r, tables)
  {
    OursAreInstalled(r);
  }

  /** A route that is not one this program adds: a default route without gateway over an upstream. */
  ghost predicate Alien(rt: Route) { rt != Route(rt.table, 0, rt.link, false) || !("lm-up-" <= rt.link) }

  /** Something speaks for other software having put rules into the table, or for the rule being about the
      interface of another upstream. */
  ghost predicate Disputed(r: Rule, routes: set<Route>) {
    exists x :: x in routes && x.table == r.table && (Alien(x) || (r.oif != "" && x.link != r.oif))
  }

  /** What counts as left behind: exactly what this program installs, in a table in which nothing speaks
      against it. */
  lemma LeftoversAreInstalled(r: Rule, routes: set<Route>)
    ensures Leftover(r, routes) <==> Installed(r) && !Disputed(r, routes)
  {
    OursAreInstalled(r);
  }

  lemma OwnedTablesHoldNoAlien(table: nat, routes: set<Route>)
    ensures OwnedTable(table, routes) <==>
            1000 <= table < 1100 && forall x :: x in routes && Alien(x) ==> x.table != table
  {
  }

  /** A rule an earlier run left behind. */
  predicate Leftover(r: Rule, routes: set<Route>) {
    Ours(r) && OwnedTable(r.table, routes) && ProbeTableMatches(r, routes)
  }

  /** The modelling assumption about other software: no rule of theirs extends the selectors of a
      pin or peer rule into one of our tables. */
  ghost predicate Tidy(rules: seq<Rule>) {
    forall r :: r in rules && InRange(r.table) && r.src.Some? ==>
      && (r.priority == PEER_PRIORITY ==> r == PlainRule(r.src.value, r.table))
      && (r.priority == PIN_PRIORITY && r.mark == Some(r.table) ==> r == PinRule(r.src.value, r.table))
  }

  ghost predicate GoodRules(rules: seq<Rule>) { Ordered(rules) && Tidy(rules) }

  // ---------------------------------------------------------------- Picking rules from a listing

  type Tables = map<string, nat>

  ghost predicate Injective(tables: Tables) {
    forall a, b :: a in tables && b in tables && tables[a] == tables[b] ==> a == b
  }

  ghost predicate GoodTables(tables: Tables) {
    && Injective(tables)
    && (forall n :: n in tables ==> InRange(tables[n]) && IsUpName(n))
  }

  datatype Filter =
    | Own(tables: Tables)
    | OfPeer(peer: Addr)
    | PinTo(table: nat)
    | PlainBut(table: nat)
    | AliveTable(tables: Tables, alive: set<string>)
    | OfTable(table: nat)
    | LeftoverAmong(routes: set<Route>)
  {
    predicate Wants(r: Rule) {
      match this
      case Own(tables) => Ours(r) && exists n :: n in tables && tables[n] == r.table && (r.oif == "" || r.oif == n)
      case OfPeer(p) => (r.priority == PEER_PRIORITY || r.priority == PIN_PRIORITY) && r.src == Some(p)
      case PinTo(t) => r.priority == PIN_PRIORITY && r.table == t
      case PlainBut(t) => r.priority == PEER_PRIORITY && r.table != t
      case AliveTable(tables, alive) => exists n :: n in tables && tables[n] == r.table && n in alive
      case OfTable(t) => r.table == t
      case LeftoverAmong(routes) => Leftover(r, routes)
    }
  }

  function Pick(f: Filter, rules: seq<Rule>): seq<Rule>
    decreases |rules|
  {
    if rules == [] then []
    else
      var front, last := rules[..|rules| - 1], rules[|rules| - 1];
      Pick(f, front) + if f.Wants(last) then [last] else []
  }

  lemma {:induction false} Picked(f: Filter, rules: seq<Rule>, r: Rule)
    ensures r in Pick(f, rules) <==> r in rules && f.Wants(r)
    decreases |rules|
  {
    if rules != [] {
      assert rules == rules[..|rules| - 1] + [rules[|rules| - 1]];
      Picked(f, rules[..|rules| - 1], r);
    }
  }

  lemma {:induction false} PickPrefix(f: Filter, rules: seq<Rule>, i: nat)
    requires i <= |rules|
    ensures Pick(f, rules[..i]) <= Pick(f, rules)
    decreases |rules|
  {
    if i < |rules| {
      var front := rules[..|rules| - 1];
      assert front[..i] == rules[..i];
      PickPrefix(f, front, i);
    } else {
      assert rules[..i] == rules;
    }
  }

  /** Where a rule of the listing stands among the picked ones. */
  lemma PickAt(f: Filter, rules: seq<Rule>, i: nat)
    requires i < |rules|
    ensures f.Wants(rules[i]) ==>
              |Pick(f, rules[..i])| < |Pick(f, rules)| && Pick(f, rules)[|Pick(f, rules[..i])|] == rules[i]
    ensures Pick(f, rules[..i + 1]) == Pick(f, rules[..i]) + if f.Wants(rules[i]) then [rules[i]] else []
  {
    assert rules[..i + 1][..i] == rules[..i];
    PickPrefix(f, rules, i + 1);
  }

  lemma {:induction false} PickRest(f: Filter, rules: seq<Rule>, i: nat)
    requires i <= |rules| && forall j :: i <= j < |rules| ==> !f.Wants(rules[j])
    ensures Pick(f, rules) == Pick(f, rules[..i])
    decreases |rules|
  {
    if i < |rules| {
      assert rules[..|rules| - 1][..i] == rules[..i];
      PickRest(f, rules[..|rules| - 1], i);
    } else {
      assert rules[..i] == rules;
    }
  }

  lemma {:induction false} PickKeepsOrder(f: Filter, rules: seq<Rule>)
    requires Ordered(rules)
    ensures Ordered(Pick(f, rules))
    decreases |rules|
  {
    if rules != [] {
      hide Ordered;
      var front, last := rules[..|rules| - 1], rules[|rules| - 1];
      assert rules == front + [last];
      OrderedSnoc(front, last);
      PickKeepsOrder(f, front);
      forall x | x in Pick(f, front) ensures x in front {
        Picked(f, front, x);
      }
      OrderedSnoc(Pick(f, front), last);
    }
  }

  /** A probe rule whose deletion could select another rule, because selectors it omits are wildcards. */
  predicate ProbeAmbiguous(r: Rule, rules: seq<Rule>) {
    && r.priority == PROBE_PRIORITY
    && exists x :: x in rules && x.priority == r.priority && x.table == r.table && x.src == r.src
                   && (r.oif == "" || x.oif == r.oif) && x != r
  }

  /** A deletion is refused exactly if its selectors match another rule as well. */
  lemma AmbiguousMatches(r: Rule, rules: seq<Rule>)
    requires Ours(r) && r.priority == PROBE_PRIORITY
    ensures ProbeAmbiguous(r, rules) <==> exists x :: x in rules && x != r && Matches(r, x)
  {
  }

  /** Deleting any probe rule of these upstreams selects that rule alone. */
  ghost predicate Separate(rules: seq<Rule>, tables: map<string, nat>) {
    forall r, x :: r in rules && x in rules && Held(r, tables) && r.priority == 4000 && Matches(r, x) ==> x == r
  }

  lemma SeparateIsUnambiguous(rules: seq<Rule>, tables: Tables)
    ensures Separate(rules, tables) <==> !Ambiguous(OwnRules(rules, tables), rules)
  {
    forall r ensures r in OwnRules(rules, tables) <==> r in rules && Held(r, tables) {
      Picked(Own(tables), rules, r);
      OwnAreHeld(r, tables);
      OursAreInstalled(r);
    }
    hide OwnRules, Pick, Filter.Wants;
    if Ambiguous(OwnRules(rules, tables), rules) {
      var r :| r in OwnRules(rules, tables) && ProbeAmbiguous(r, rules);
      OursAreInstalled(r);
      AmbiguousMatches(r, rules);
    }
    forall r, x | r in rules && x in rules && Held(r, tables) && r.priority == 4000 && Matches(r, x) && x != r
      ensures Ambiguous(OwnRules(rules, tables), rules)
    {
      OursAreInstalled(r);
      AmbiguousMatches(r, rules);
      assert r in OwnRules(rules, tables);
    }
  }

  /** When nothing is ambiguous: if and only if no rule of other software extends a probe rule, and no probe
      rule of the old kind stands beside a probe rule of the same address and table. In particular, probe
      rules that name their interface are never in each other's way. */
  lemma WhenSeparate(rules: seq<Rule>, tables: Tables)
    ensures Separate(rules, tables) <==>
            forall r, x :: r in rules && x in rules && Held(r, tables) && r.priority == 4000 && Matches(r, x) ==>
              Installed(x) && (r.oif == "" ==> x == r)
  {
  }

  predicate Ambiguous(candidates: seq<Rule>, rules: seq<Rule>) {
    exists r :: r in candidates && ProbeAmbiguous(r, rules)
  }

  function OwnRules(rules: seq<Rule>, tables: Tables): seq<Rule> { Pick(Own(tables), rules) }

  function RulesFor(rules: seq<Rule>, tables: Tables, peer: Addr): seq<Rule> {
    Pick(OfPeer(peer), OwnRules(rules, tables))
  }

  /** What deleting one of our rules selects: itself only. */
  lemma DeletionIsExact(rules: seq<Rule>, r: Rule)
    requires Ours(r) && (r.priority == PROBE_PRIORITY || Tidy(rules)) && !ProbeAmbiguous(r, rules)
    ensures forall x :: x in rules && Matches(r, x) ==> x == r
  {
  }

  // ---------------------------------------------------------------- Operation lists

  function Dels(rules: seq<Rule>): (ops: seq<Op>)
    ensures |ops| == |rules| && forall i :: 0 <= i < |ops| ==> ops[i] == RuleDel(rules[i])
    ensures forall r :: RuleDel(r) in ops <==> r in rules
  {
    seq(|rules|, i requires 0 <= i < |rules| => RuleDel(rules[i]))
  }

  function PinAdds(peer: Addr, olds: seq<Rule>): (ops: seq<Op>)
    ensures |ops| == |olds| && forall i :: 0 <= i < |ops| ==> ops[i] == RuleAdd(PinRule(peer, olds[i].table))
  {
    seq(|olds|, i requires 0 <= i < |olds| => RuleAdd(PinRule(peer, olds[i].table)))
  }

  /** The dataplane: the kernel and what the program remembers. `alive` lists the upstreams marked
      alive, `allowed` the peers it has authorised. */
  datatype Dp = Dp(k: State, tables: Tables, alive: set<string>, allowed: set<Addr>)

  ghost predicate GoodDp(d: Dp) { GoodRules(d.k.rules) && GoodTables(d.tables) }

  /** Holds from a successful `Setup` on. */
  ghost predicate Guarded(d: Dp) { d.k.firewall && d.allowed == d.k.peers }

  function Auth(d: Dp, peer: Addr, permit: bool): seq<Op> {
    if (peer in d.allowed) == permit then [] else [if permit then Permit(peer) else Revoke(peer)]
  }

  /** The four lists of rules a move to `table` handles, in the order it handles them. */
  function OldPins(d: Dp, peer: Addr, table: nat): seq<Rule> { Pick(PinTo(table), RulesFor(d.k.rules, d.tables, peer)) }

  function OldPlains(d: Dp, peer: Addr, table: nat): seq<Rule> {
    Pick(PlainBut(table), RulesFor(d.k.rules, d.tables, peer))
  }

  function NewPins(d: Dp, peer: Addr, table: nat): seq<Rule> {
    Pick(AliveTable(d.tables, d.alive), OldPlains(d, peer, table))
  }

  /** A move off `olds`: drop the pins to the new table, pin old flows, add the new plain rule, drop
      the old ones. */
  function Move(peer: Addr, table: nat, pins: seq<Rule>, news: seq<Rule>, olds: seq<Rule>): seq<Op> {
    Dels(pins) + PinAdds(peer, news) + [RuleAdd(PlainRule(peer, table))] + Dels(olds)
  }

  /** The rule operations of `Route`: a peer already on the table only loses its pin to it. */
  function RouteBody(d: Dp, peer: Addr, table: nat): seq<Op> {
    if PlainRule(peer, table) in d.k.rules then Dels(OldPins(d, peer, table))
    else Move(peer, table, OldPins(d, peer, table), NewPins(d, peer, table), OldPlains(d, peer, table))
  }

  function RoutePlan(d: Dp, peer: Addr, table: nat): seq<Op> { RouteBody(d, peer, table) + Auth(d, peer, true) }

  function UnroutePlan(d: Dp, peer: Addr): seq<Op> {
    Auth(d, peer, false) + Dels(RulesFor(d.k.rules, d.tables, peer))
  }

  function UnpinPlan(d: Dp, table: nat): seq<Op> {
    Dels(Pick(PinTo(table), OwnRules(d.k.rules, d.tables)))
  }

  /** The first `n` operations of a plan have taken the kernel from `from` to `s`, and the log of
      operations from `before` to `log`. */
  ghost predicate Reached(s: State, log: seq<Op>, from: State, before: seq<Op>, plan: seq<Op>, n: nat) {
    n <= |plan| && s == Exec(from, plan[..n]) && log == before + plan[..n]
  }

  // ---------------------------------------------------------------- What operation lists do

  /** Operations on pin and peer rules and on the authorised set. */
  predicate PeerOp(op: Op) {
    match op
    case RuleAdd(r) => IsPeerRule(r)
    case RuleDel(r) => IsPeerRule(r)
    case Permit(_) => true
    case Revoke(_) => true
    case _ => false
  }

  ghost predicate PeerOps(ops: seq<Op>) {
    && (forall op :: op in ops ==> PeerOp(op))
    && (forall r :: RuleAdd(r) in ops ==> RuleDel(r) !in ops)
  }

  lemma {:induction false} RulesAfter(s: State, ops: seq<Op>)
    requires GoodRules(s.rules) && PeerOps(ops)
    ensures GoodRules(Exec(s, ops).rules)
    ensures forall r :: r in Exec(s, ops).rules <==> (r in s.rules || RuleAdd(r) in ops) && RuleDel(r) !in ops
    ensures Exec(s, ops) == s.(rules := Exec(s, ops).rules, peers := Exec(s, ops).peers)
    ensures (forall p :: Permit(p) !in ops && Revoke(p) !in ops) ==> Exec(s, ops).peers == s.peers
    decreases |ops|
  {
    if ops != [] {
      var front, last := ops[..|ops| - 1], ops[|ops| - 1];
      assert ops == front + [last];
      assert last in ops;
      assert forall op :: op in front ==> op in ops;
      RulesAfter(s, front);
      var rules := Exec(s, front).rules;
      match last {
        case RuleAdd(r) => InsertKeepsOrder(rules, r);
        case RuleDel(r) =>
          DeletionIsExact(rules, r);
          RemoveExact(rules, r);
          MinusKeepsOrder(rules, {r});
        case _ =>
      }
    }
  }
}
