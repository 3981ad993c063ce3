/** The Linux dataplane, one kernel operation at a time. */
module LinuxDataplane {
  import opened Kernel
  import opened LinuxRules
  import opened RouteSteps
  import opened Upstreams

  /** The state a call that returned no error leaves. */
  function Routed(d: Dp, peer: Addr, name: string): Dp
    requires name in d.tables
  {
    d.(k := Exec(d.k, RoutePlan(d, peer, d.tables[name])), allowed := d.allowed + {peer})
  }

  function Unrouted(d: Dp, peer: Addr): Dp {
    d.(k := Exec(d.k, UnroutePlan(d, peer)), allowed := d.allowed - {peer})
  }

  function Marked(d: Dp, name: string, alive: bool): Dp
    requires name in d.tables
  {
    if alive then d.(alive := d.alive + {name})
    else d.(alive := d.alive - {name}, k := Exec(d.k, UnpinPlan(d, d.tables[name])))
  }

  /** No probe rule of ours shadows another rule, so listing our rules cannot fail by itself. */
  ghost predicate Unambiguous(d: Dp) {
    !Ambiguous(OwnRules(d.k.rules, d.tables), d.k.rules)
  }

  ghost predicate UpNamed(marks: map<string, nat>) { forall n :: n in marks ==> IsUpName(n) }

  /** Operations on rules, routes, marks and the authorised set. */
  ghost predicate RoutingOp(op: Op) {
    match op
    case RuleAdd(r) => Named(r)
    case RuleDel(_) => true
    case RouteAdd(_) => true
    case RouteDel(_) => true
    case SetMarks(m) => UpNamed(m)
    case Permit(_) => true
    case Revoke(_) => true
    case _ => false
  }

  /** Operations of these that authorise nobody, revoke nobody, and delete rules of the given tables only. */
  ghost predicate Spares(op: Op, gone: set<nat>) {
    RoutingOp(op) && !op.Permit? && !op.Revoke? && (op.RuleDel? ==> op.rule.table in gone)
  }

  ghost predicate Sparing(before: seq<Op>, after: seq<Op>, gone: set<nat>) {
    before <= after && forall i :: |before| <= i < |after| ==> Spares(after[i], gone)
  }

  lemma SparingGrows(before: seq<Op>, after: seq<Op>, gone: set<nat>)
    requires Sparing(before, after, gone)
    ensures Grown(before, after)
  {
  }

  lemma SparingNothing(log: seq<Op>, gone: set<nat>)
    ensures Sparing(log, log, gone)
  {
  }

  lemma SparingStep(before: seq<Op>, log: seq<Op>, op: Op, gone: set<nat>)
    requires Sparing(before, log, gone) && Spares(op, gone)
    ensures Sparing(before, log + [op], gone)
  {
  }

  lemma MarksAreUps(d: Dp)
    requires GoodDp(d)
    ensures UpNamed(d.tables)
  {
  }

  lemma SparingOn(a: seq<Op>, b: seq<Op>, c: seq<Op>, gone: set<nat>, more: set<nat>)
    requires Sparing(a, b, gone) && Sparing(b, c, more) && more <= gone
    ensures Sparing(a, c, gone)
  {
  }

  /** The log has grown by routing operations only. */
  ghost predicate Grown(before: seq<Op>, after: seq<Op>) {
    before <= after && forall i :: |before| <= i < |after| ==> RoutingOp(after[i])
  }

  /** A downstream link that is up and has a configured peer is behind the firewall. */
  ghost predicate Protected(s: State) { s.lm0 == LinkUp && s.keys != {} ==> s.firewall }

  /** No two open devices share an interface name. */
  ghost predicate NamesDistinct(devices: map<DeviceId, string>) {
    forall i, j :: i in devices && j in devices && devices[i] == devices[j] ==> i == j
  }

  /** Besides, only upstreams are in the firewall's sets. */
  ghost predicate Safe(s: State) { Protected(s) && NamesDistinct(s.devices) && UpNamed(s.marks) }

  /** In every state the host has been in; and no rules have been added but those this program installs. */
  ghost predicate AlwaysSafe(init: State, log: seq<Op>) {
    (forall i :: 0 <= i <= |log| ==> Safe(Exec(init, log[..i]))) && AddsNamed(log)
  }

  ghost predicate AddsNamed(log: seq<Op>) { forall r :: RuleAdd(r) in log ==> Named(r) }

  /** Whatever rule is there that was not there before is one this program installs. */
  lemma {:induction false} NewAreNamed(init: State, before: seq<Op>, after: seq<Op>, r: Rule)
    requires before <= after && AddsNamed(after) && r in Exec(init, after).rules
    ensures r in Exec(init, before).rules || Named(r)
    decreases |after|
  {
    if |before| < |after| {
      var front, last := after[..|after| - 1], after[|after| - 1];
      assert after == front + [last] && before <= front;
      assert forall op :: op in front ==> op in after;
      assert last in after;
      hide Named, Exec, Apply;
      ExecSnoc(init, front, last);
      NewIsAdded(Exec(init, front), last, r);
      if r in Exec(init, front).rules {
        NewAreNamed(init, before, front, r);
      }
    } else {
      assert before == after;
    }
  }

  lemma NewIsAdded(s: State, op: Op, r: Rule)
    requires r in Apply(s, op).rules
    ensures r in s.rules || op == RuleAdd(r)
  {
    match op {
      case RuleAdd(x) => Inserted(s.rules, x);
      case RuleDel(x) => Reduced(s.rules, x);
      case _ =>
    }
  }

  /** All rules about the tables of the upstreams are this program's. */
  ghost predicate Tended(d: Dp) {
    forall n, r :: n in d.tables && r in d.k.rules && r.table == d.tables[n] ==> Named(r)
  }

  /** Then no listing is refused. */
  lemma TendedIsUnambiguous(d: Dp)
    requires Tended(d)
    ensures Unambiguous(d)
  {
    WhenSeparate(d.k.rules, d.tables);
    ListingIsHeld(d);
    hide Unambiguous;
  }

  lemma TendedSame(d: Dp, d': Dp)
    requires Tended(d) && d'.tables == d.tables && d'.k.rules == d.k.rules
    ensures Tended(d')
  {
    hide Named;
  }

  lemma TendedOn(init: State, before: seq<Op>, after: seq<Op>, d: Dp, d': Dp)
    requires Tended(d) && d'.tables == d.tables && before <= after && AddsNamed(after)
    requires d.k == Exec(init, before) && d'.k == Exec(init, after)
    ensures Tended(d')
  {
    hide Named, Exec;
    forall n, r | n in d'.tables && r in d'.k.rules && r.table == d'.tables[n] ensures Named(r) {
      NewAreNamed(init, before, after, r);
    }
  }

  /** A change of the upstreams keeps it so: a new table is one that no rule was about. */
  lemma TendedChange(init: State, before: seq<Op>, after: seq<Op>, d: Dp, d': Dp, keep: set<string>)
    requires Tended(d) && Changed(d, d', keep) && AddsOwn(d, d', keep) && before <= after && AddsNamed(after)
    requires d.k == Exec(init, before) && d'.k == Exec(init, after)
    ensures Tended(d')
  {
    hide Named, Exec, GoodUps;
    forall n, r | n in d'.tables && r in d'.k.rules && r.table == d'.tables[n] ensures Named(r) {
      NewAreNamed(init, before, after, r);
    }
  }

  /** The first upstreams get tables that no rule was about. */
  lemma FirstTended(d: Dp, e: Dp, ups: seq<Interface>)
    requires Grew(d, e, ups) && d.tables == map[]
    ensures Tended(e)
  {
    hide GoodRules, UniqueRoutes;
    forall n, r | n in e.tables && r in e.k.rules && r.table == e.tables[n] ensures Named(r) {
      assert Idle(e.tables[n], d) && r !in d.k.rules;
      var up :| up in ups && up.name in e.tables && r == ProbeRule(up.addr, e.tables[up.name], up.name);
      assert IsUpName(up.name) && InRange(e.tables[up.name]);
    }
  }

  lemma GrownIsLonger(before: seq<Op>, after: seq<Op>)
    requires Grown(before, after)
    ensures Continues(before, after)
  {
  }

  lemma SafeNow(init: State, log: seq<Op>)
    requires AlwaysSafe(init, log)
    ensures Safe(Exec(init, log))
  {
    assert log[..|log|] == log;
  }

  lemma SafeStep(init: State, log: seq<Op>, op: Op)
    requires AlwaysSafe(init, log) && Safe(Apply(Exec(init, log), op)) && (op.RuleAdd? ==> Named(op.rule))
    ensures AlwaysSafe(init, log + [op])
  {
    hide Named;
    forall i | 0 <= i <= |log| + 1 ensures Safe(Exec(init, (log + [op])[..i])) {
      if i <= |log| {
        assert (log + [op])[..i] == log[..i];
      } else {
        assert (log + [op])[..i] == log + [op];
        ExecSnoc(init, log, op);
      }
    }
  }

  /** Routing operations never end safety. */
  lemma {:induction false} RoutingKeepsSafety(init: State, before: seq<Op>, after: seq<Op>)
    requires AlwaysSafe(init, before) && Grown(before, after)
    ensures AlwaysSafe(init, after)
    ensures var s, s' := Exec(init, before), Exec(init, after);
            s'.lm0 == s.lm0 && s'.keys == s.keys && s'.firewall == s.firewall && s'.devices == s.devices
    decreases |after|
  {
    hide Named, NamesDistinct;
    if |before| < |after| {
      var front, last := after[..|after| - 1], after[|after| - 1];
      assert after == front + [last];
      RoutingKeepsSafety(init, before, front);
      assert front[..|front|] == front;
      assert Safe(Exec(init, front));
      ExecSnoc(init, front, last);
      SafeStep(init, front, last);
    } else {
      assert before == after;
    }
  }

  /** The next operation of a plan. */
  lemma ReachedNext(s: State, log: seq<Op>, from: State, before: seq<Op>, plan: seq<Op>, n: nat)
    requires Reached(s, log, from, before, plan, n) && n < |plan|
    ensures s == Exec(from, plan[..n])
    ensures Reached(Apply(s, plan[n]), log + [plan[n]], from, before, plan, n + 1)
  {
    hide Exec, Apply;
    ExecSnoc(from, plan[..n], plan[n]);
    assert plan[..n + 1] == plan[..n] + [plan[n]];
  }

  /** What a listing of our rules holds, and when it is refused. */
  lemma ListingIsHeld(d: Dp)
    ensures forall r :: r in OwnRules(d.k.rules, d.tables) <==> r in d.k.rules && Held(r, d.tables)
    ensures Unambiguous(d) <==> Separate(d.k.rules, d.tables)
  {
    SeparateIsUnambiguous(d.k.rules, d.tables);
    forall r ensures r in OwnRules(d.k.rules, d.tables) <==> r in d.k.rules && Held(r, d.tables) {
      Picked(Own(d.tables), d.k.rules, r);
      OwnAreHeld(r, d.tables);
    }
  }

  /** Nothing can be in the way of the first upstreams but a lack of tables. */
  lemma WhyNotFirst(d: Dp, e: Dp, ups: seq<Interface>, i: nat)
    requires GoodUps(d) && d.tables == map[] && i < |ups| && Grew(d, e, ups[..i])
    requires if ups[i].name in e.tables then Occupied(e.k.routes, e.tables[ups[i].name], ups[i].name)
             else forall t :: !FreeTable(t, e)
    ensures Crowded(d, ups) || Repeated(ups)
  {
    hide Grew, Occupied, Crowded, Repeated, FreeTable, GoodUps;
    WhyNotAdded(d, e, ups, i);
  }

  lemma FreeIsBare(d: Dp, table: nat, link: string)
    ensures FreeTable(table, d) ==> !Occupied(d.k.routes, table, link)
  {
  }

  /** No rule and no route has been added, and only our own are gone. */
  ghost predicate OnlyOwnGone(rules: seq<Rule>, routes: set<Route>, rules': seq<Rule>, routes': set<Route>,
                              tables: Tables) {
    && (forall r :: r in rules' ==> r in rules)
    && (forall r :: r in rules && r !in rules' ==> Own(tables).Wants(r))
    && routes' <= routes
    && (forall rt :: rt in routes && rt !in routes' ==> rt.table in tables.Values && OurRoute(rt))
  }

  lemma UnambiguousAlike(d: Dp, e: Dp)
    requires e.k.rules == d.k.rules && e.tables == d.tables
    ensures Unambiguous(e) <==> Unambiguous(d)
  {
  }

  /** Deleting rules makes no other ambiguous. */
  lemma OnlyOwnGoneUnambiguous(d: Dp, e: Dp)
    requires OnlyOwnGone(d.k.rules, d.k.routes, e.k.rules, e.k.routes, d.tables) && e.tables == d.tables
    ensures Unambiguous(d) ==> Unambiguous(e)
  {
    ListingIsHeld(d);
    ListingIsHeld(e);
    hide Unambiguous, Held;
  }

  lemma NothingGone(rules: seq<Rule>, routes: set<Route>, tables: Tables)
    ensures OnlyOwnGone(rules, routes, rules, routes, tables)
  {
  }

  lemma DeadAreOwn(s: State, s': State, tables: Tables, dead: set<Rule>)
    requires s'.rules == Minus(s.rules, dead) && dead <= Elems(OwnRules(s.rules, tables)) && s'.routes <= s.routes
    requires forall rt :: rt in s.routes && rt !in s'.routes ==> rt.table in tables.Values && OurRoute(rt)
    ensures OnlyOwnGone(s.rules, s.routes, s'.rules, s'.routes, tables)
  {
    forall r | r in dead ensures Own(tables).Wants(r) {
      Picked(Own(tables), s.rules, r);
    }
  }

  /** The tables of upstreams that are not kept. */
  function GoneTables(tables: Tables, keep: set<string>): set<nat> {
    set n | n in tables && n !in keep :: tables[n]
  }

  lemma GoneIsGone(d: Dp, e: Dp, keep: set<string>, name: string)
    requires Changed(d, e, keep) && name in e.tables && name !in keep
    ensures e.tables[name] in GoneTables(d.tables, keep)
  {
    hide GoodUps;
  }

  class Dataplane {
    const host: Host
    var down: string            // the downstream interface, "" until `Setup` has named it
    var tables: Tables
    var alive: set<string>
    var allowed: set<Addr>

    ghost function View(): Dp
      reads this, host
    {
      Dp(host.s, tables, alive, allowed)
    }

    ghost predicate Valid()
      reads this, host
    {
      host.Valid() && GoodDp(View())
    }

    constructor (host: Host)
      requires host.Valid() && GoodRules(host.s.rules)
      ensures Valid() && this.host == host && down == "" && tables == map[] && alive == {} && allowed == {}
    {
      this.host, down, tables, alive, allowed := host, "", map[], {}, {};
    }

    /** Carries out operation number `n` of a plan. */
    method Step(op: Op, ghost from: State, ghost before: seq<Op>, ghost plan: seq<Op>, ghost n: nat) returns (ok: bool)
      requires host.Valid() && n < |plan| && plan[n] == op
      requires Reached(host.s, host.log, from, before, plan, n)
      requires Possible(Exec(from, plan[..n]), op)
      modifies host`s, host`faults, host`log
      ensures host.Valid()
      ensures ok ==> Reached(host.s, host.log, from, before, plan, n + 1) && host.faults == old(host.faults)
      ensures !ok ==> Reached(host.s, host.log, from, before, plan, n) && host.faults < old(host.faults)
    {
      hide *;
      ReachedNext(host.s, host.log, from, before, plan, n);
      ok := host.Do(op);
    }

    /** Our rules that point at the tables of this instance; an ambiguous probe rule is an error. */
    method ListOwnRules() returns (ok: bool, out: seq<Rule>)
      requires host.Valid()
      modifies host`s, host`faults, host`log
      ensures host.Valid() && host.s == old(host.s) && host.log == old(host.log) && host.faults <= old(host.faults)
      ensures ok ==> out == OwnRules(host.s.rules, tables) && Unambiguous(View()) && host.faults == old(host.faults)
      ensures !ok ==> !Unambiguous(View()) || host.faults < old(host.faults)
      ensures ok ==> Separate(host.s.rules, tables) && forall r :: r in out <==> r in host.s.rules && Held(r, tables)
      ensures !ok ==> !Separate(host.s.rules, tables) || host.faults < old(host.faults)
    {
      out := [];
      ok := host.Query();
      if !ok {
        return;
      }
      ListingIsHeld(View());
      hide Separate, Held;
      var all, f := host.s.rules, Own(tables);
      assert Pick(f, all[..0]) == [];
      hide Pick, Filter.Wants, ProbeAmbiguous, GoodDp;
      for i := 0 to |all|
        modifies {}
        invariant out == Pick(f, all[..i]) && !Ambiguous(out, all)
      {
        PickAt(f, all, i);
        if f.Wants(all[i]) {
          if ProbeAmbiguous(all[i], all) {
            Picked(f, all, all[i]);
            return false, [];
          }
          out := out + [all[i]];
        }
      }
      assert all[..|all|] == all;
    }

    /** The peer's plain and pin rules. */
    method ListRulesFor(peer: Addr) returns (ok: bool, out: seq<Rule>)
      requires host.Valid()
      modifies host`s, host`faults, host`log
      ensures host.Valid() && host.s == old(host.s) && host.log == old(host.log) && host.faults <= old(host.faults)
      ensures ok ==> out == RulesFor(host.s.rules, tables, peer) && host.faults == old(host.faults)
      ensures !ok ==> !Unambiguous(View()) || host.faults < old(host.faults)
    {
      var all;
      ok, all := ListOwnRules();
      out := [];
      if !ok {
        return;
      }
      assert Pick(OfPeer(peer), all[..0]) == [];
      for i := 0 to |all|
        modifies {}
        invariant out == Pick(OfPeer(peer), all[..i])
      {
        PickAt(OfPeer(peer), all, i);
        if OfPeer(peer).Wants(all[i]) {
          out := out + [all[i]];
        }
      }
      assert all[..|all|] == all;
    }

    /** Adds the peer to the authorised set or takes it out, unless it already is where it should be. */
    method Authorize(peer: Addr, permit: bool, ghost from: State, ghost before: seq<Op>, ghost plan: seq<Op>,
                     ghost n: nat)
      returns (ok: bool)
      requires host.Valid() && Reached(host.s, host.log, from, before, plan, n)
      requires Auth(View(), peer, permit) <= plan[n..]
      requires Auth(View(), peer, permit) != [] ==> Possible(Exec(from, plan[..n]), plan[n])
      modifies this`allowed, host`s, host`faults, host`log
      ensures host.Valid()
      ensures ok ==>
                && Reached(host.s, host.log, from, before, plan, n + |old(Auth(View(), peer, permit))|)
                && allowed == (if permit then old(allowed) + {peer} else old(allowed) - {peer})
                && host.faults == old(host.faults)
      ensures !ok ==>
                && Reached(host.s, host.log, from, before, plan, n) && old(Auth(View(), peer, permit)) != []
                && allowed == old(allowed) && host.faults < old(host.faults)
    {
      if (peer in allowed) == permit {
        return true;
      }
      assert plan[n..][0] == plan[n];
      ok := Step(if permit then Permit(peer) else Revoke(peer), from, before, plan, n);
      if ok {
        allowed := if permit then allowed + {peer} else allowed - {peer};
      }
    }

    /** Goes through the peer's rules: drops pins to the new table, gathers the plain rules of other
        tables, and stops at a plain rule of the new table. */
    method ScanRules(peer: Addr, table: nat, rules: seq<Rule>, ghost d: Dp, ghost before: seq<Op>)
      returns (ok: bool, already: bool, olds: seq<Rule>, ghost n: nat)
      requires GoodDp(d) && Guarded(d) && table in d.tables.Values && rules == RulesFor(d.k.rules, d.tables, peer)
      requires host.Valid() && Reached(host.s, host.log, d.k, before, RoutePlan(d, peer, table), 0)
      modifies host`s, host`faults, host`log
      ensures host.Valid() && Reached(host.s, host.log, d.k, before, RoutePlan(d, peer, table), n)
      ensures host.faults <= old(host.faults)
      ensures ok ==>
                && already == (PlainRule(peer, table) in d.k.rules) && n == |OldPins(d, peer, table)|
                && host.faults == old(host.faults)
      ensures ok && !already ==> olds == OldPlains(d, peer, table)
      ensures !ok ==> n < |RoutePlan(d, peer, table)| && host.faults < old(host.faults)
    {
      hide *;
      ghost var plan := RoutePlan(d, peer, table);
      already, olds, n := false, [], 0;
      ScanStart(d, peer, table);
      for i := 0 to |rules|
        invariant Scanned(d, peer, table, i, olds, n)
        invariant host.Valid() && Reached(host.s, host.log, d.k, before, plan, n) && host.faults == old(host.faults)
      {
        var r := rules[i];
        if r.priority == PEER_PRIORITY {
          ScanPlain(d, peer, table, i, olds, n);
          if r.table == table {
            return true, true, olds, n;
          }
          olds := olds + [r];
        } else {
          ScanPin(d, peer, table, i, olds, n);
          if r.priority == PIN_PRIORITY && r.table == table {
            ok := Step(RuleDel(r), d.k, before, plan, n);
            if !ok {
              return;
            }
            n := n + 1;
          }
        }
      }
      ScanEnd(d, peer, table, olds, n);
      return true, false, olds, n;
    }

    /** Pins the flows of the old plain rules whose upstream is alive, adds the new plain rule, then
        deletes the old ones. */
    method MoveRules(peer: Addr, table: nat, olds: seq<Rule>, ghost d: Dp, ghost before: seq<Op>, ghost start: nat)
      returns (ok: bool, ghost n: nat)
      requires GoodDp(d) && Guarded(d) && table in d.tables.Values && PlainRule(peer, table) !in d.k.rules
      requires tables == d.tables && alive == d.alive && olds == OldPlains(d, peer, table) &&
               start == |OldPins(d, peer, table)|
      requires host.Valid() && Reached(host.s, host.log, d.k, before, RoutePlan(d, peer, table), start)
      modifies host`s, host`faults, host`log
      ensures host.Valid() && Reached(host.s, host.log, d.k, before, RoutePlan(d, peer, table), n)
      ensures host.faults <= old(host.faults)
      ensures ok ==> n == |RouteBody(d, peer, table)| && host.faults == old(host.faults)
      ensures !ok ==> n < |RoutePlan(d, peer, table)| && host.faults < old(host.faults)
    {
      hide *;
      ghost var plan := RoutePlan(d, peer, table);
      var keep := AliveTable(tables, alive);
      n := start;
      PinningStart(d, peer, table);
      for j := 0 to |olds|
        invariant Pinning(d, peer, table, j, n)
        invariant host.Valid() && Reached(host.s, host.log, d.k, before, plan, n) && host.faults == old(host.faults)
      {
        PinningNext(d, peer, table, j, n);
        if keep.Wants(olds[j]) {
          RoutePossible(d, peer, table, n);
          ok := Step(RuleAdd(PinRule(peer, olds[j].table)), d.k, before, plan, n);
          if !ok {
            return;
          }
          n := n + 1;
        }
      }
      PinningEnd(d, peer, table, n);
      AtPlain(d, peer, table);
      RoutePossible(d, peer, table, n);
      ok := Step(RuleAdd(PlainRule(peer, table)), d.k, before, plan, n);
      if !ok {
        return;
      }
      ghost var first := n + 1;
      n := first;
      for j := 0 to |olds|
        invariant n == first + j
        invariant host.Valid() && Reached(host.s, host.log, d.k, before, plan, n) && host.faults == old(host.faults)
      {
        RoutePossible(d, peer, table, n);
        ok := Step(RuleDel(olds[j]), d.k, before, plan, n);
        if !ok {
          return;
        }
        n := n + 1;
      }
      PlanShape(d, peer, table);
      return true, n;
    }

    /** The last step of `Route`: the rules are in place. */
    method FinishRoute(peer: Addr, ghost d: Dp, ghost before: seq<Op>, ghost table: nat, ghost n: nat)
      returns (ok: bool, ghost m: nat)
      requires GoodDp(d) && Guarded(d) && table in d.tables.Values && n == |RouteBody(d, peer, table)|
      requires allowed == d.allowed
      requires host.Valid() && Reached(host.s, host.log, d.k, before, RoutePlan(d, peer, table), n)
      modifies this`allowed, host`s, host`faults, host`log
      ensures host.Valid() && Reached(host.s, host.log, d.k, before, RoutePlan(d, peer, table), m)
      ensures host.faults <= old(host.faults)
      ensures ok ==>
                m == |RoutePlan(d, peer, table)| && allowed == d.allowed + {peer} && host.faults == old(host.faults)
      ensures !ok ==> m < |RoutePlan(d, peer, table)| && allowed == d.allowed && host.faults < old(host.faults)
    {
      PlanShape(d, peer, table);
      hide RouteBody, RoutePlan;
      ghost var plan := RoutePlan(d, peer, table);
      if n < |plan| {
        RoutePossible(d, peer, table, n);
      }
      ok := Authorize(peer, true, d.k, before, plan, n);
      m := if ok then |plan| else n;
    }

    /** Sends new flows of the peer through the upstream, and keeps its open flows on the upstreams
        they left through as long as these are alive. `n` operations of the plan took effect. */
    method Route(peer: Addr, upstream: string) returns (ok: bool, ghost n: nat)
      requires Valid() && Guarded(View())
      modifies this`allowed, host`s, host`faults, host`log
      ensures Valid() && Guarded(View()) && host.faults <= old(host.faults)
      ensures upstream !in tables ==> !ok && n == 0
      ensures upstream in tables ==>
                Reached(host.s, host.log, old(host.s), old(host.log), RoutePlan(old(View()), peer, tables[upstream]), n)
      ensures n == 0 ==> host.s == old(host.s) && host.log == old(host.log)
      ensures ok ==>
                && upstream in tables && n == |RoutePlan(old(View()), peer, tables[upstream])|
                && host.faults == old(host.faults)
      ensures ok ==> View() == Routed(old(View()), peer, upstream)
      ensures !ok ==> allowed == old(allowed) && host.s.peers == old(host.s.peers)
      ensures !ok && upstream in tables ==> !Unambiguous(old(View())) || host.faults < old(host.faults)
      ensures n == 0 || ok || host.faults < old(host.faults)
    {
      hide RoutePlan, RouteBody, RulesFor, OldPins, OldPlains, Reached, Exec, GoodRules, GoodTables, Host.Valid,
        Unambiguous;
      n := 0;
      if upstream !in tables {
        return false, 0;
      }
      ghost var d, before := View(), host.log;
      var table := tables[upstream];
      ghost var plan := RoutePlan(d, peer, table);
      ReachedStart(host.s, before, plan);
      var rules, already, olds;
      ok, rules := ListRulesFor(peer);
      if !ok {
        return;
      }
      ok, already, olds, n := ScanRules(peer, table, rules, d, before);
      if ok && !already {
        ok, n := MoveRules(peer, table, olds, d, before, n);
      } else if ok {
        PlanShape(d, peer, table);
      }
      if ok {
        ok, n := FinishRoute(peer, d, before, table, n);
      }
      RouteReached(d, peer, table, host.s, host.log, before, n);
    }

    /** Blocks the peer, then removes its rules, pins included. */
    method Unroute(peer: Addr) returns (ok: bool, ghost n: nat)
      requires Valid() && Guarded(View())
      modifies this`allowed, host`s, host`faults, host`log
      ensures Valid() && Guarded(View()) && host.faults <= old(host.faults)
      ensures Reached(host.s, host.log, old(host.s), old(host.log), UnroutePlan(old(View()), peer), n)
      ensures ok ==> n == |UnroutePlan(old(View()), peer)| && host.faults == old(host.faults)
      ensures ok ==> View() == Unrouted(old(View()), peer)
      ensures !ok ==> !Unambiguous(View()) || host.faults < old(host.faults)
    {
      hide UnroutePlan, RulesFor, Reached, Exec, GoodRules, GoodTables, Host.Valid, Unambiguous;
      ghost var d, before := View(), host.log;
      ghost var plan := UnroutePlan(d, peer);
      n := 0;
      ReachedStart(host.s, before, plan);
      UnrouteShape(d, peer);
      if 0 < |plan| {
        UnroutePossible(d, peer, 0);
      }
      ok := Authorize(peer, false, d.k, before, plan, 0);
      n := if ok then |Auth(d, peer, false)| else 0;
      UnrouteReached(d, peer, host.s, host.log, before, n);
      if !ok {
        return;
      }
      var rules;
      ok, rules := RevokedRules(peer, d, before, n);
      if ok {
        ok, n := DeleteAll(rules, d, peer, before);
      }
      UnrouteReached(d, peer, host.s, host.log, before, n);
    }

    /** The listing after a revocation is the one before it. */
    method RevokedRules(peer: Addr, ghost d: Dp, ghost before: seq<Op>, ghost n: nat)
      returns (ok: bool, rules: seq<Rule>)
      requires host.Valid() && tables == d.tables && alive == d.alive && n == |Auth(d, peer, false)|
      requires GoodDp(d) && Guarded(d) && Reached(host.s, host.log, d.k, before, UnroutePlan(d, peer), n)
      modifies host`s, host`faults, host`log
      ensures host.Valid() && host.s == old(host.s) && host.log == old(host.log) && host.faults <= old(host.faults)
      ensures ok ==> rules == RulesFor(d.k.rules, d.tables, peer) && host.faults == old(host.faults)
      ensures !ok ==> !Unambiguous(View()) || host.faults < old(host.faults)
    {
      UnrouteShape(d, peer);
      ghost var auth := Auth(d, peer, false);
      assert UnroutePlan(d, peer)[..n] == auth;
      ExecRevoke(d.k, peer, auth);
      assert host.s.rules == d.k.rules;
      hide *;
      ok, rules := ListRulesFor(peer);
    }

    method DeleteAll(rules: seq<Rule>, ghost d: Dp, ghost peer: Addr, ghost before: seq<Op>)
      returns (ok: bool, ghost n: nat)
      requires GoodDp(d) && Guarded(d) && rules == RulesFor(d.k.rules, d.tables, peer)
      requires host.Valid() && Reached(host.s, host.log, d.k, before, UnroutePlan(d, peer), |Auth(d, peer, false)|)
      modifies host`s, host`faults, host`log
      ensures host.Valid() && Reached(host.s, host.log, d.k, before, UnroutePlan(d, peer), n) &&
              host.faults <= old(host.faults)
      ensures n >= |Auth(d, peer, false)|
      ensures ok ==> n == |UnroutePlan(d, peer)| && host.faults == old(host.faults)
      ensures !ok ==> host.faults < old(host.faults)
    {
      hide *;
      UnrouteShape(d, peer);
      ghost var plan, first := UnroutePlan(d, peer), |Auth(d, peer, false)|;
      n := first;
      for i := 0 to |rules|
        invariant n == first + i
        invariant host.Valid() && Reached(host.s, host.log, d.k, before, plan, n) && host.faults == old(host.faults)
      {
        UnroutePossible(d, peer, n);
        ok := Step(RuleDel(rules[i]), d.k, before, plan, n);
        if !ok {
          return;
        }
        n := n + 1;
      }
      return true, n;
    }

    /** Marks whether flows may stay pinned to the upstream. Marking it dead drops every pin to it;
        the mark itself is set even if that fails. */
    method SetAlive(upstream: string, up: bool) returns (ok: bool, ghost n: nat)
      requires Valid()
      modifies this`alive, host`s, host`faults, host`log
      ensures Valid() && host.faults <= old(host.faults)
      ensures upstream !in tables ==>
                !ok && n == 0 && alive == old(alive) && host.s == old(host.s) && host.log == old(host.log)
      ensures upstream in tables ==> alive == (if up then old(alive) + {upstream} else old(alive) - {upstream})
      ensures upstream in tables && !up ==>
                Reached(host.s, host.log, old(host.s), old(host.log), UnpinPlan(old(View()), tables[upstream]), n)
      ensures up ==> n == 0 && host.s == old(host.s) && host.log == old(host.log) && ok == (upstream in tables)
      ensures ok ==>
                upstream in tables && View() == Marked(old(View()), upstream, up) && host.faults == old(host.faults)
      ensures ok && !up ==> n == |UnpinPlan(old(View()), tables[upstream])|
      ensures !ok && upstream in tables ==> !Unambiguous(old(View())) || host.faults < old(host.faults)
    {
      hide UnpinPlan, OwnRules, Reached, Exec, GoodRules, GoodTables, Host.Valid, Ambiguous, Filter.Wants;
      n := 0;
      if upstream !in tables {
        return false, 0;
      }
      ghost var d, before := View(), host.log;
      var table := tables[upstream];
      alive := if up then alive + {upstream} else alive - {upstream};
      if up {
        return true, 0;
      }
      ghost var plan := UnpinPlan(d, table);
      ReachedStart(host.s, before, plan);
      assert Unambiguous(View()) == Unambiguous(d);
      var all;
      ok, all := ListOwnRules();
      if ok {
        ok, n := DropPins(all, table, d, before);
      }
      UnpinReached(d, table, host.s, host.log, before, n);
    }

    method DropPins(all: seq<Rule>, table: nat, ghost d: Dp, ghost before: seq<Op>) returns (ok: bool, ghost n: nat)
      requires GoodDp(d) && table in d.tables.Values && all == OwnRules(d.k.rules, d.tables)
      requires host.Valid() && Reached(host.s, host.log, d.k, before, UnpinPlan(d, table), 0)
      modifies host`s, host`faults, host`log
      ensures host.Valid() && Reached(host.s, host.log, d.k, before, UnpinPlan(d, table), n) &&
              host.faults <= old(host.faults)
      ensures ok ==> n == |UnpinPlan(d, table)| && host.faults == old(host.faults)
      ensures !ok ==> host.faults < old(host.faults)
    {
      hide *;
      ghost var plan := UnpinPlan(d, table);
      n := 0;
      UnpinStart(d, table);
      for i := 0 to |all|
        invariant Unpinning(d, table, i, n)
        invariant host.Valid() && Reached(host.s, host.log, d.k, before, plan, n) && host.faults == old(host.faults)
      {
        UnpinNext(d, table, i, n);
        if all[i].priority == PIN_PRIORITY && all[i].table == table {
          ok := Step(RuleDel(all[i]), d.k, before, plan, n);
          if !ok {
            return;
          }
          n := n + 1;
        }
      }
      UnpinEnd(d, table, n);
      return true, n;
    }

    // -------------------------------------------------------------- Upstreams

    /** The lowest table of the range that no route, no rule and no upstream of ours uses. */
    method AllocateTable() returns (ok: bool, table: nat)
      requires host.Valid()
      modifies host`s, host`faults, host`log
      ensures host.Valid() && host.s == old(host.s) && host.log == old(host.log) && host.faults <= old(host.faults)
      ensures ok ==> FreeTable(table, View()) && forall t :: TABLE_BASE <= t < table ==> !FreeTable(t, View())
      ensures !ok && host.faults == old(host.faults) ==> forall t :: !FreeTable(t, View())
      ensures if ok then host.faults == old(host.faults) else table == 0
    {
      table := 0;
      ok := host.Query();
      if !ok {
        return;
      }
      ok := host.Query();
      if !ok {
        return;
      }
      for t := TABLE_BASE to TABLE_LIMIT
        invariant forall u :: TABLE_BASE <= u < t ==> !FreeTable(u, View())
        invariant host.faults == old(host.faults) && host.Valid() && host.s == old(host.s) && host.log == old(host.log)
      {
        if t !in tables.Values && !TableBusy(t, host.s) {
          return true, t;
        }
      }
      ok := false;
    }

    /** Adds the table's only route. An existing one is accepted only if it is exactly this one. */
    method AddDefaultRoute(link: string, table: nat) returns (ok: bool)
      requires host.Valid()
      modifies host`s, host`faults, host`log
      ensures host.Valid() && host.faults <= old(host.faults) && Sparing(old(host.log), host.log, {})
      ensures host.s == old(host.s).(routes := host.s.routes)
      ensures host.s.routes == old(host.s.routes) ||
              (!HasDefault(old(host.s.routes), table) &&
               host.s.routes == old(host.s.routes) + {DefaultRoute(table, link)})
      ensures ok ==> Leaves(host.s.routes, table, link) || !UniqueRoutes(old(host.s.routes))
      ensures !ok ==> host.faults < old(host.faults) || Occupied(old(host.s.routes), table, link)
      ensures Occupied(old(host.s.routes), table, link) ==> !ok
      ensures ok ==> host.faults == old(host.faults)
    {
      var rt := DefaultRoute(table, link);
      if !HasDefault(host.s.routes, table) {
        ok := host.Do(RouteAdd(rt));
        assert ok ==> rt in host.s.routes;
      } else {
        ok := host.Query();
        if ok {
          ok := forall x | x in host.s.routes && x.table == table :: x.link == link && x.dst == 0;
        }
      }
    }

    /** Gives the upstream an address, a table with a default route over it, and a probe rule. */
    method AddUpstream(up: Interface) returns (ok: bool)
      requires Valid() && UniqueRoutes(host.s.routes) && IsUpName(up.name)
      modifies this`tables, host`s, host`faults, host`log
      ensures Valid() && host.faults <= old(host.faults) && Sparing(old(host.log), host.log, {})
      ensures Added(old(View()), View(), up)
      ensures ok ==> up.name in tables && Leaves(host.s.routes, tables[up.name], up.name)
      ensures ok ==> ProbeRule(up.addr, tables[up.name], up.name) in host.s.rules
      ensures !ok ==>
                || host.faults < old(host.faults)
                || (if up.name in old(tables) then Occupied(old(host.s.routes), old(tables)[up.name], up.name)
                    else forall t :: !FreeTable(t, old(View())))
      ensures ok ==> host.faults == old(host.faults)
    {
      hide Added, GoodRules, GoodTables, UniqueRoutes, FreeTable, Apply, Possible, Host.Valid;
      ghost var d := View();
      AddedTable(d, up, 0);
      ok := host.Query(); // configureLink
      if !ok {
        return;
      }
      var table := 0;
      if up.name in tables {
        table := tables[up.name];
      } else {
        ok, table := AllocateTable();
        if !ok {
          return;
        }
        AddedTable(d, up, table);
        tables := tables[up.name := table];
      }
      AddedIsGood(d, View(), up);
      ok := host.Query(); // the link's index
      if !ok {
        return;
      }
      ghost var e := View();
      ok := AddDefaultRoute(up.name, table);
      AddedRoute(d, e, up, host.s.routes);
      AddedIsGood(d, View(), up);
      if !ok {
        FreeIsBare(d, table, up.name);
        return;
      }
      AddedProbe(d, View(), up);
      ok := host.Do(RuleAdd(ProbeRule(up.addr, table, up.name)));
      AddedIsGood(d, View(), up);
    }

    /** Deletes the routes of the table that are ours. */
    method FlushTable(table: nat) returns (ok: bool)
      requires host.Valid()
      modifies host`s, host`faults, host`log
      ensures host.Valid() && host.faults <= old(host.faults) && Sparing(old(host.log), host.log, {})
      ensures host.s == old(host.s).(routes := host.s.routes) && host.s.routes <= old(host.s.routes)
      ensures forall rt :: rt in old(host.s.routes) && rt !in host.s.routes ==> rt.table == table && OurRoute(rt)
      ensures ok ==> forall rt :: rt in host.s.routes && rt.table == table ==> !OurRoute(rt)
      ensures !ok ==> host.faults < old(host.faults)
      ensures ok ==> host.faults == old(host.faults)
    {
      ok := host.Query(); // the routes of the table
      if !ok {
        return;
      }
      ok := host.Query(); // the link names
      if !ok {
        return;
      }
      var todo := set rt | rt in host.s.routes && rt.table == table && OurRoute(rt);
      while todo != {}
        invariant host.Valid() && host.faults == old(host.faults) && Sparing(old(host.log), host.log, {})
        invariant host.s == old(host.s).(routes := host.s.routes) && host.s.routes <= old(host.s.routes)
        invariant forall rt :: rt in todo <==> rt in host.s.routes && rt.table == table && OurRoute(rt)
        invariant forall rt :: rt in old(host.s.routes) && rt !in host.s.routes ==> rt.table == table && OurRoute(rt)
        decreases |todo|
      {
        var rt :| rt in todo;
        ok := host.Do(RouteDel(rt));
        if !ok {
          return;
        }
        todo := todo - {rt};
      }
      ok := true;
    }

    /** Deletes our rules at the upstream's table and flushes it. The upstream is forgotten only once
        all of it is clean. */
    method RemoveUpstream(name: string) returns (ok: bool)
      requires Valid() && UniqueRoutes(host.s.routes) && name in tables
      modifies this`tables, this`alive, host`s, host`faults, host`log
      ensures Valid() && host.faults <= old(host.faults) && Sparing(old(host.log), host.log, {old(tables)[name]})
      ensures Removed(old(View()), View(), name, ok)
      ensures !ok ==> !Unambiguous(old(View())) || host.faults < old(host.faults)
      ensures !Unambiguous(old(View())) ==> !ok && host.s == old(host.s)
      ensures ok ==> host.faults == old(host.faults)
    {
      hide Sparing, Removed, Purged, GoodDp, UniqueRoutes, Host.Valid, Unambiguous, OwnRules;
      ghost var d, table, log := View(), tables[name], host.log;
      SparingNothing(log, {table});
      PurgeStart(d, table);
      PurgeRemoves(d, name, 0, d.k, d.k.routes, false);
      RemovedIsGood(d, d, name, false);
      var rules;
      ok, rules := ListOwnRules();
      if !ok {
        return;
      }
      ghost var n;
      ok, n := DeleteRulesAt(rules, tables[name], d);
      PurgeRemoves(d, name, n, host.s, d.k.routes, false);
      RemovedIsGood(d, View(), name, false);
      if !ok {
        return;
      }
      ghost var s, log1 := host.s, host.log;
      ok := FlushTable(tables[name]);
      SparingOn(log, log1, host.log, {table}, {});
      PurgeRemoves(d, name, n, s, host.s.routes, ok);
      if ok {
        tables := tables - {name};
        alive := alive - {name};
      }
      RemovedIsGood(d, View(), name, ok);
    }

    method DeleteRulesAt(rules: seq<Rule>, table: nat, ghost d: Dp) returns (ok: bool, ghost n: nat)
      requires host.Valid() && GoodDp(d) && rules == OwnRules(d.k.rules, d.tables) && Unambiguous(d) && host.s == d.k
      modifies host`s, host`faults, host`log
      ensures host.Valid() && host.faults <= old(host.faults) && Sparing(old(host.log), host.log, {table})
      ensures Purged(d, table, n, host.s) && host.s.routes == d.k.routes
      ensures ok ==> n == |rules| && host.faults == old(host.faults)
      ensures !ok ==> host.faults < old(host.faults)
    {
      hide Purged, GoodDp, OwnRules, Host.Valid, Possible;
      PurgeStart(d, table);
      n := 0;
      for i := 0 to |rules|
        invariant n == i && Purged(d, table, n, host.s) && host.s.routes == d.k.routes
        invariant host.Valid() && host.faults == old(host.faults) && Sparing(old(host.log), host.log, {table})
      {
        PurgeNext(d, table, i, host.s);
        if rules[i].table == table {
          ok := host.Do(RuleDel(rules[i]));
          if !ok {
            return;
          }
        }
        n := i + 1;
      }
      ok := true;
    }

    /** Makes the set of upstreams equal to `ups`. */
    method SetUpstreams(ups: seq<Interface>) returns (ok: bool)
      requires Valid() && Guarded(View()) && UniqueRoutes(host.s.routes)
      requires forall up :: up in ups ==> IsUpName(up.name)
      modifies this`tables, this`alive, host`s, host`faults, host`log
      ensures Valid() && Guarded(View()) && UniqueRoutes(host.s.routes)
      ensures host.faults <= old(host.faults) && Sparing(old(host.log), host.log, GoneTables(old(tables), Names(ups)))
      ensures Changed(old(View()), View(), Names(ups)) && AddsOwn(old(View()), View(), Names(ups))
      ensures ok ==> Complete(old(View()), View(), Names(ups)) && Probed(View(), ups)
      ensures !ok ==> host.faults < old(host.faults) || Blocked(old(View()), ups) || Repeated(ups)
      ensures ok ==> host.faults == old(host.faults)
    {
      hide AddsOwn, Changed, Added, Removed, GoodDp, UniqueRoutes, Host.Valid, Unambiguous, OwnRules, Leaves, Probed,
        Sparing, GoneTables, Grew, Occupied, Hampered, Crowded, Separate, Shadowed, FreeTable, Repeated;
      NoProbes(View(), ups);
      ghost var d, keep, log, gone := View(), Names(ups), host.log, GoneTables(tables, Names(ups));
      SparingNothing(log, gone);
      ChangedNothing(d, keep);
      AddsNothing(d, keep);
      ok := host.Query(); // find the downstream link
      if !ok {
        return;
      }
      ok := host.Query(); // set its MTU
      if !ok {
        return;
      }
      GrewNothing(d);
      assert ups[..0] == [];
      for i := 0 to |ups|
        invariant Grew(d, View(), ups[..i])
        invariant Changed(d, View(), keep) && AddsOwn(d, View(), keep) && Linked(View(), Names(ups[..i]))
        invariant forall r :: r in d.k.rules ==> r in host.s.rules
        invariant forall n :: n in d.tables ==> n in tables
        invariant Probed(View(), ups[..i])
        invariant Valid() && Guarded(View()) && UniqueRoutes(host.s.routes)
        invariant host.faults == old(host.faults) && Sparing(log, host.log, gone)
      {
        ghost var e, log1 := View(), host.log;
        ok := AddUpstream(ups[i]);
        SparingOn(log, log1, host.log, gone, {});
        AddKeepsChanged(d, e, View(), ups[i], keep);
        AddKeepsOwn(d, e, View(), ups[i], keep);
        ChangedIsGood(d, View(), keep);
        if !ok {
          if host.faults == old(host.faults) {
            WhyNotAdded(d, e, ups, i);
          }
          return;
        }
        GrewOn(d, e, View(), ups[..i], ups[i]);
        assert ups[..i + 1] == ups[..i] + [ups[i]];
        AddProbes(e, View(), ups, i);
        AddLinks(e, View(), ups[i], Names(ups[..i]));
        assert Names(ups[..i + 1]) == Names(ups[..i]) + {ups[i].name};
      }
      assert ups[..|ups|] == ups;
      ghost var log2, faults := host.log, host.faults;
      WhenSeparable(d, View(), ups);
      ok := DropOthers(Names(ups), d, ups);
      SparingOn(log, log2, host.log, gone, gone);
      if !ok {
        return;
      }
      var marks := map n | n in Names(ups) :: tables[n];
      assert tables.Keys == keep && marks == tables;
      CompleteUp(d, View(), keep);
      ghost var f := View();
      MarksAreUps(f);
      SparingStep(log, host.log, SetMarks(marks), gone);
      ok := host.Do(SetMarks(marks));
      SameProbes(f, View(), ups);
      ChangedIsGood(d, View(), keep);
    }

    /** Removes every upstream that is not wanted any more. */
    method DropOthers(wanted: set<string>, ghost d: Dp, ghost ups: seq<Interface>) returns (ok: bool)
      requires wanted == Names(ups) && Probed(View(), ups)
      requires Valid() && Guarded(d) && Guarded(View()) && UniqueRoutes(host.s.routes)
      requires Changed(d, View(), wanted) && AddsOwn(d, View(), wanted) && Linked(View(), wanted)
      requires forall n :: n in d.tables ==> n in tables
      modifies this`tables, this`alive, host`s, host`faults, host`log
      ensures Valid() && Guarded(View()) && UniqueRoutes(host.s.routes)
      ensures host.faults <= old(host.faults) && Sparing(old(host.log), host.log, GoneTables(d.tables, wanted))
      ensures Changed(d, View(), wanted) && AddsOwn(d, View(), wanted) && Probed(View(), ups)
      ensures ok ==> Linked(View(), wanted) && Dropped(d, View()) && tables.Keys <= wanted
      ensures !ok ==>
                || host.faults < old(host.faults)
                || (!Separate(old(host.s.rules), old(tables)) && exists n :: n in old(tables) && n !in wanted)
      ensures ok ==> host.faults == old(host.faults)
    {
      hide AddsOwn, Changed, Linked, Dropped, Removed, GoodRules, GoodTables, UniqueRoutes, Host.Valid, Unambiguous,
        Guarded, Probed, Names, Sparing, GoneTables, Separate;
      ghost var log, gone := host.log, GoneTables(d.tables, wanted);
      SparingNothing(log, gone);
      var todo := tables.Keys - wanted;
      DroppedNothing(d, View());
      while todo != {}
        invariant Valid() && Guarded(View()) && UniqueRoutes(host.s.routes)
        invariant host.faults == old(host.faults) && Sparing(log, host.log, gone)
        invariant todo == tables.Keys - wanted && Probed(View(), ups)
        invariant Changed(d, View(), wanted) && AddsOwn(d, View(), wanted) && Linked(View(), wanted)
        invariant Dropped(d, View())
        invariant Separate(old(host.s.rules), old(tables)) ==> Separate(host.s.rules, tables)
        invariant todo <= old(tables).Keys
        decreases |todo|
      {
        var name :| name in todo;
        ghost var e, log1 := View(), host.log;
        GoneIsGone(d, e, wanted, name);
        ListingIsHeld(e);
        ok := RemoveUpstream(name);
        if Separate(e.k.rules, e.tables) {
          RemovedSeparate(e, View(), name, ok);
        }
        SparingOn(log, log1, host.log, gone, {e.tables[name]});
        RemoveKeepsProbes(e, View(), name, ok, ups);
        RemoveKeepsChanged(d, e, View(), name, ok, wanted);
        RemoveKeepsOwn(d, e, View(), name, ok, wanted);
        ChangedIsGood(d, View(), wanted);
        if !ok {
          return;
        }
        RemoveDrops(d, e, View(), name, wanted);
        RemovedTables(e, View(), name);
        todo := todo - {name};
      }
      forall n | n in tables.Keys ensures n in wanted {
        assert n !in todo;
      }
      ok := true;
    }

    // -------------------------------------------------------------- Setup and teardown

    /** Deletes what an earlier run left behind: exactly the rules of our shape whose table we own and
        whose interface agrees, and the routes of owned tables. One ambiguous rule stops it before it
        has changed anything. */
    method RemoveLeftovers() returns (ok: bool)
      requires host.Valid() && GoodRules(host.s.rules)
      modifies host`s, host`faults, host`log
      ensures host.Valid() && host.faults <= old(host.faults) && Grown(old(host.log), host.log)
      ensures GoodRules(host.s.rules) && host.s == old(host.s).(rules := host.s.rules, routes := host.s.routes)
      ensures host.s.routes <= old(host.s.routes)
      ensures var owned := Pick(LeftoverAmong(old(host.s.routes)), old(host.s.rules));
              && (ok ==> host.s.rules == Minus(old(host.s.rules), Elems(owned)))
              && (Ambiguous(owned, old(host.s.rules)) ==> !ok && host.s == old(host.s))
              && exists dead :: dead <= Elems(owned) && host.s.rules == Minus(old(host.s.rules), dead)
      ensures forall rt :: rt in old(host.s.routes) && rt !in host.s.routes ==> OwnedTable(rt.table, old(host.s.routes))
      ensures ok ==> host.s.routes == set rt | rt in old(host.s.routes) && !OwnedTable(rt.table, old(host.s.routes))
      ensures Reclaimed(old(host.s.rules), old(host.s.routes), host.s.rules, host.s.routes, ok)
      ensures !ok ==> host.faults < old(host.faults) || Stuck(old(host.s.rules), old(host.s.routes))
      ensures ok ==> host.faults == old(host.faults)
    {
      hide Pick, Minus, Elems, Ambiguous, Ordered, Host.Valid, OwnedTable, Reclaimed, Stuck, Leftover;
      ghost var from := host.s;
      StuckIsAmbiguous(from.rules, from.routes);
      ReclaimedNothing(from);
      ok := host.Query(); // the routes
      if ok {
        ok := host.Query(); // the link names
      }
      if ok {
        ok := host.Query(); // the rules
      }
      var owned: seq<Rule>;
      if ok {
        ok, owned := FindLeftovers();
      }
      StartsWhole(from.rules, Pick(LeftoverAmong(from.routes), from.rules));
      if !ok {
        return;
      }
      var routes := host.s.routes;
      ghost var n;
      ok, n := DeleteOwned(owned, from);
      SomeOf(from.rules, owned, n);
      ReclaimedSome(from.rules, from.routes, owned, Elems(owned[..n]), host.s.routes, false);
      if !ok {
        return;
      }
      assert owned[..|owned|] == owned;
      ok := FlushOwned(routes);
      ReclaimedSome(from.rules, from.routes, owned, Elems(owned), host.s.routes, ok);
    }

    method DeleteOwned(owned: seq<Rule>, ghost from: State) returns (ok: bool, ghost n: nat)
      requires host.Valid() && host.s == from && GoodRules(from.rules) && !Ambiguous(owned, from.rules)
      requires owned == Pick(LeftoverAmong(from.routes), from.rules)
      modifies host`s, host`faults, host`log
      ensures host.Valid() && host.faults <= old(host.faults) && Grown(old(host.log), host.log)
      ensures n <= |owned| && Without(from, Elems(owned[..n]), host.s) && (ok ==> n == |owned|)
      ensures !ok ==> host.faults < old(host.faults)
      ensures ok ==> host.faults == old(host.faults)
    {
      hide Pick, Without, Elems, Ordered, Host.Valid;
      LeftoverListing(from.rules, from.routes);
      WithoutNothing(from);
      NoElems(owned);
      n := 0;
      for i := 0 to |owned|
        invariant n == i && Without(from, Elems(owned[..i]), host.s)
        invariant host.Valid() && host.faults == old(host.faults) && Grown(old(host.log), host.log)
      {
        ElemsSnoc(owned, i);
        WithoutOne(from, Elems(owned[..i]), host.s, owned[i]);
        ok := host.Do(RuleDel(owned[i]));
        if !ok {
          return;
        }
        n := i + 1;
      }
      ok := true;
    }

    /** Deletes the routes of the tables we own, judged by the listing. */
    method FlushOwned(routes: set<Route>) returns (ok: bool)
      requires host.Valid() && host.s.routes == routes
      modifies host`s, host`faults, host`log
      ensures host.Valid() && host.faults <= old(host.faults) && Grown(old(host.log), host.log)
      ensures host.s == old(host.s).(routes := host.s.routes) && host.s.routes <= routes
      ensures forall rt :: rt in routes && rt !in host.s.routes ==> OwnedTable(rt.table, routes)
      ensures ok ==> host.s.routes == set rt | rt in routes && !OwnedTable(rt.table, routes)
      ensures !ok ==> host.faults < old(host.faults)
      ensures ok ==> host.faults == old(host.faults)
    {
      var todo := set rt | rt in routes && OwnedTable(rt.table, routes);
      hide OwnedTable;
      while todo != {}
        invariant host.Valid() && host.faults == old(host.faults) && Grown(old(host.log), host.log)
        invariant host.s == old(host.s).(routes := host.s.routes) && host.s.routes <= routes
        invariant forall rt :: rt in todo <==> rt in host.s.routes && OwnedTable(rt.table, routes)
        invariant forall rt :: rt in routes && rt !in host.s.routes ==> OwnedTable(rt.table, routes)
        decreases |todo|
      {
        var rt :| rt in todo;
        ok := host.Do(RouteDel(rt));
        if !ok {
          return;
        }
        todo := todo - {rt};
      }
      ok := true;
    }

    method FindLeftovers() returns (ok: bool, owned: seq<Rule>)
      ensures ok ==> owned == Pick(LeftoverAmong(host.s.routes), host.s.rules)
      ensures ok <==> !Ambiguous(Pick(LeftoverAmong(host.s.routes), host.s.rules), host.s.rules)
    {
      var rules, f := host.s.rules, LeftoverAmong(host.s.routes);
      owned := [];
      assert Pick(f, rules[..0]) == [];
      hide Pick, Filter.Wants, ProbeAmbiguous;
      for i := 0 to |rules|
        invariant owned == Pick(f, rules[..i]) && !Ambiguous(owned, rules)
      {
        PickAt(f, rules, i);
        if f.Wants(rules[i]) {
          if ProbeAmbiguous(rules[i], rules) {
            Picked(f, rules, rules[i]);
            return false, [];
          }
          owned := owned + [rules[i]];
        }
      }
      assert rules[..|rules|] == rules;
      ok := true;
    }

    /** Replaces the firewall table. The authorised set starts empty again. */
    method InstallFirewall(ups: seq<Interface>) returns (ok: bool)
      requires host.Valid() && host.s.keys == {} && AlwaysSafe(host.init, host.log)
      requires UpNamed(tables) && forall up :: up in ups ==> up.name in tables
      modifies this`allowed, host`s, host`faults, host`log
      ensures Continues(old(host.log), host.log)
      ensures host.Valid() && AlwaysSafe(host.init, host.log) && host.faults <= old(host.faults)
      ensures host.s.rules == old(host.s.rules) && host.s.routes == old(host.s.routes)
      ensures host.s.keys == {} && host.s.lm0 == old(host.s.lm0) && host.s.devices == old(host.s.devices)
      ensures ok ==> Guarded(View()) && host.s.peers == {} && host.s.marks == map n | n in Names(ups) :: tables[n]
      ensures !ok ==> host.faults < old(host.faults)
      ensures ok ==> host.faults == old(host.faults)
    {
      hide Continues, AlwaysSafe, Host.Valid;
      ContinuesStart(host.log);
      ok := host.Query(); // close foreign forward chains
      if !ok {
        return;
      }
      ok := DoSafely(FirewallRemove);
      if !ok {
        return;
      }
      var marks := map n | n in Names(ups) :: tables[n];
      ghost var log := host.log;
      ok := DoSafely(FirewallInstall(marks));
      ContinuesOn(old(host.log), log, host.log);
      if !ok {
        return;
      }
      allowed := {};
      ok := host.Query(); // open foreign forward chains
    }

    /** One operation that keeps the downstream link protected, puts only upstreams into the firewall's
        sets, and opens or closes no device. */
    method DoSafely(op: Op) returns (ok: bool)
      requires host.Valid() && AlwaysSafe(host.init, host.log)
      requires Protected(Apply(host.s, op)) && Apply(host.s, op).devices == host.s.devices && !op.RuleAdd?
      requires UpNamed(Apply(host.s, op).marks) || Apply(host.s, op).marks == host.s.marks
      modifies host`s, host`faults, host`log
      ensures host.Valid() && AlwaysSafe(host.init, host.log) && host.faults <= old(host.faults)
      ensures ok ==> Possible(old(host.s), op) && host.s == Apply(old(host.s), op)
      ensures !ok ==> host.s == old(host.s)
      ensures !ok && Possible(old(host.s), op) ==> host.faults < old(host.faults)
      ensures Continues(old(host.log), host.log)
      ensures ok ==> host.faults == old(host.faults)
    {
      SafeNow(host.init, host.log);
      SafeStep(host.init, host.log, op);
      ok := host.Do(op);
    }

    /** Brings the downstream link and the routing of the upstreams up, then installs the firewall.
        No peer is configured yet. */
    method Setup(downstream: string, ups: seq<Interface>) returns (ok: bool)
      requires Valid() && UniqueRoutes(host.s.routes) && host.s.keys == {} && AlwaysSafe(host.init, host.log)
      requires downstream != "" && forall up :: up in ups ==> IsUpName(up.name)
      modifies this`down, this`tables, this`alive, this`allowed, host`s, host`faults, host`log
      ensures Continues(old(host.log), host.log)
      ensures Valid() && UniqueRoutes(host.s.routes) && AlwaysSafe(host.init, host.log)
      ensures host.s.keys == {} && host.s.devices == old(host.s.devices)
      ensures down == downstream || (down == old(down) && host.s == old(host.s))
      ensures ok ==> Guarded(View()) && host.s.peers == {} && host.s.marks == tables && tables.Keys == Names(ups)
      ensures ok ==> Linked(View(), Names(ups)) && Probed(View(), ups) && alive == {} && host.s.lm0 == LinkUp
      ensures ok ==> forall n :: n in tables ==> NoPeerRuleAt(host.s.rules, tables[n])
      ensures Resettled(old(host.s), View(), ups, ok) && host.faults <= old(host.faults)
      ensures ok ==> Tended(View())
      ensures !ok ==>
                || host.faults < old(host.faults) || old(host.s.lm0) == Absent || Repeated(ups)
                || Stuck(old(host.s.rules), old(host.s.routes)) || Scarce(old(host.s.rules), old(host.s.routes), ups)
      ensures ok ==> host.faults == old(host.faults)
    {
      hide GoodRules, Linked, NoPeerRuleAt, AlwaysSafe, Grown, Leftover, Pick, Minus, Host.Valid, UniqueRoutes,
        Continues, Probed, Resettled, Tended, Repeated, Stuck, Scarce;
      ResettledNothing(host.s, View(), ups);
      ok := host.Query(); // sysctl
      ContinuesStart(host.log);
      if !ok {
        return;
      }
      down := downstream;
      ok := host.Query(); // configureLink: address and MTU
      if !ok {
        return;
      }
      ok := DoSafely(DownstreamUp);
      if !ok {
        return;
      }
      tables, alive := map[], {};
      ghost var log, s := host.log, host.s;
      ok := ClearAndAdd(ups);
      ContinuesOn(old(host.log), log, host.log);
      ResettledSame(s, old(host.s), View(), View(), ups, ok, ok);
      if !ok {
        return;
      }
      ghost var d := View();
      log := host.log;
      MarksAreUps(View());
      ok := InstallFirewall(ups);
      ContinuesOn(old(host.log), log, host.log);
      ResettledSame(old(host.s), old(host.s), d, View(), ups, true, ok);
      TendedSame(d, View());
      LinkedSame(d, View(), Names(ups));
      if ok {
        SameProbes(d, View(), ups);
      }
    }

    /** Removes leftovers, then adds the upstreams. */
    method ClearAndAdd(ups: seq<Interface>) returns (ok: bool)
      requires Valid() && UniqueRoutes(host.s.routes) && AlwaysSafe(host.init, host.log) && tables == map[]
      requires forall up :: up in ups ==> IsUpName(up.name)
      modifies this`tables, host`s, host`faults, host`log
      ensures Continues(old(host.log), host.log)
      ensures Valid() && UniqueRoutes(host.s.routes) && AlwaysSafe(host.init, host.log)
      ensures host.s == old(host.s).(rules := host.s.rules, routes := host.s.routes)
      ensures ok ==> tables.Keys == Names(ups) && Linked(View(), Names(ups)) && Probed(View(), ups)
      ensures ok ==> forall n :: n in tables ==> NoPeerRuleAt(host.s.rules, tables[n])
      ensures Resettled(old(host.s), View(), ups, ok) && host.faults <= old(host.faults)
      ensures ok ==> Tended(View())
      ensures !ok ==>
                || host.faults < old(host.faults) || Repeated(ups)
                || Stuck(old(host.s.rules), old(host.s.routes)) || Scarce(old(host.s.rules), old(host.s.routes), ups)
      ensures ok ==> host.faults == old(host.faults)
    {
      hide GoodRules, Linked, NoPeerRuleAt, AlwaysSafe, Grown, Leftover, Pick, Minus, Host.Valid, UniqueRoutes,
        Continues, Probed, Resettled, Reclaimed, Grew, Tended, Repeated, Stuck, Scarce, Crowded;
      ghost var before, routes, s := host.log, host.s.routes, host.s;
      ok := RemoveLeftovers();
      ghost var d := View();
      RoutingKeepsSafety(host.init, before, host.log);
      GrownIsLonger(before, host.log);
      SubsetUnique(routes, host.s.routes);
      if !ok {
        GrewNothing(d);
        GrewMore(d, d, [], ups);
        ReclaimedThenGrew(s, d, d, ups, false);
        return;
      }
      ghost var log := host.log;
      ok := AddAll(ups);
      ContinuesOn(before, log, host.log);
      ReclaimedThenGrew(s, d, View(), ups, true);
      ResettledSame(s, s, View(), View(), ups, true, ok);
      FirstTended(d, View(), ups);
      if Crowded(d, ups) {
        ScarceIfCrowded(s, d, ups);
      }
    }

    method AddAll(ups: seq<Interface>) returns (ok: bool)
      requires Valid() && UniqueRoutes(host.s.routes) && AlwaysSafe(host.init, host.log) && tables == map[]
      requires forall up :: up in ups ==> IsUpName(up.name)
      modifies this`tables, host`s, host`faults, host`log
      ensures Continues(old(host.log), host.log)
      ensures Valid() && UniqueRoutes(host.s.routes) && AlwaysSafe(host.init, host.log)
      ensures host.s == old(host.s).(rules := host.s.rules, routes := host.s.routes)
      ensures ok ==> tables.Keys == Names(ups) && Linked(View(), Names(ups)) && Probed(View(), ups)
      ensures ok ==> forall n :: n in tables ==> NoPeerRuleAt(host.s.rules, tables[n])
      ensures Grew(old(View()), View(), ups) && host.faults <= old(host.faults)
      ensures !ok ==> host.faults < old(host.faults) || Repeated(ups) || Crowded(old(View()), ups)
      ensures ok ==> host.faults == old(host.faults)
    {
      hide Sparing, Added, Linked, GoodRules, GoodTables, UniqueRoutes, Host.Valid, AlwaysSafe, Protected, Grown,
        NoPeerRuleAt, Continues, Probed, Grew, Occupied, Crowded, Repeated, FreeTable;
      ghost var d := View();
      GrewNothing(d);
      assert ups[..0] == [];
      NoProbes(View(), ups);
      ContinuesStart(host.log);
      LinkedNone(View());
      assert Names(ups[..0]) == {};
      for i := 0 to |ups|
        invariant Valid() && UniqueRoutes(host.s.routes) && AlwaysSafe(host.init, host.log) &&
          Continues(old(host.log), host.log)
        invariant host.s == old(host.s).(rules := host.s.rules, routes := host.s.routes)
        invariant tables.Keys == Names(ups[..i]) && Linked(View(), Names(ups[..i])) && Probed(View(), ups[..i])
        invariant forall n :: n in tables ==> NoPeerRuleAt(host.s.rules, tables[n])
        invariant Grew(d, View(), ups[..i]) && host.faults == old(host.faults)
      {
        ghost var e, before := View(), host.log;
        ok := AddUpstream(ups[i]);
        SparingGrows(before, host.log, {});
        RoutingKeepsSafety(host.init, before, host.log);
        GrownIsLonger(before, host.log);
        ContinuesOn(old(host.log), before, host.log);
        AddedIsGood(e, View(), ups[i]);
        AddedFrame(e, View(), ups[i]);
        GrewOn(d, e, View(), ups[..i], ups[i]);
        assert ups[..i + 1] == ups[..i] + [ups[i]];
        if !ok {
          GrewMore(d, View(), ups[..i + 1], ups);
          if host.faults == old(host.faults) {
            WhyNotFirst(d, e, ups, i);
          }
          return;
        }
        AddProbes(e, View(), ups, i);
        AddLinks(e, View(), ups[i], Names(ups[..i]));
        assert Names(ups[..i + 1]) == Names(ups[..i]) + {ups[i].name};
      }
      assert ups[..|ups|] == ups;
      ok := true;
    }

    /** Stops ingress, then removes rules, routes and the firewall, carrying on past single failures.
        `stopped` says whether ingress was stopped; if not, nothing has changed. */
    method Teardown() returns (ok: bool, ghost stopped: bool)
      requires Valid() && UniqueRoutes(host.s.routes) && AlwaysSafe(host.init, host.log)
      requires down == "" ==> host.s.lm0 != LinkUp
      modifies host`s, host`faults, host`log
      ensures Continues(old(host.log), host.log)
      ensures Valid() && UniqueRoutes(host.s.routes) && AlwaysSafe(host.init, host.log)
      ensures host.s.keys == old(host.s.keys) && host.s.devices == old(host.s.devices)
      ensures !stopped ==> !ok && host.s == old(host.s)
      ensures stopped ==> host.s.lm0 == (if old(host.s.lm0) == LinkUp then LinkDown else old(host.s.lm0))
      ensures OnlyOwnGone(old(host.s.rules), old(host.s.routes), host.s.rules, host.s.routes, tables)
      ensures !Unambiguous(old(View())) ==>
                !ok && host.s.rules == old(host.s.rules) && host.s.routes == old(host.s.routes)
      ensures ok ==> !host.s.firewall &&
                     host.s.rules == Minus(old(host.s.rules), Elems(OwnRules(old(host.s.rules), tables)))
      ensures ok ==> forall rt :: rt in host.s.routes && rt.table in tables.Values ==> !OurRoute(rt)
      ensures !ok ==> !Unambiguous(old(View())) || host.faults < old(host.faults)
      ensures host.faults <= old(host.faults) && (Unambiguous(old(View())) ==> Unambiguous(View()))
      ensures ok ==> host.faults == old(host.faults)
    {
      hide Continues, AlwaysSafe, UniqueRoutes, Host.Valid, GoodRules, GoodTables, OwnRules, Minus, Elems, OnlyOwnGone,
        Unambiguous;
      ghost var d := View();
      ok := StopIngress();
      stopped := ok;
      NothingGone(host.s.rules, host.s.routes, tables);
      if !ok {
        return;
      }
      ghost var log, e := host.log, View();
      UnambiguousAlike(d, e);
      ok := Dismantle();
      ContinuesOn(old(host.log), log, host.log);
      OnlyOwnGoneUnambiguous(e, View());
    }

    /** Takes the downstream link down, if there is one. */
    method StopIngress() returns (ok: bool)
      requires Valid() && AlwaysSafe(host.init, host.log) && (down == "" ==> host.s.lm0 != LinkUp)
      modifies host`s, host`faults, host`log
      ensures Continues(old(host.log), host.log) && Valid() && AlwaysSafe(host.init, host.log)
      ensures !ok ==> host.s == old(host.s) && host.faults < old(host.faults)
      ensures ok ==> host.s == old(host.s).(lm0 := if old(host.s.lm0) == LinkUp then LinkDown else old(host.s.lm0))
      ensures host.faults <= old(host.faults)
      ensures ok ==> host.faults == old(host.faults)
    {
      hide Continues, AlwaysSafe, Host.Valid, GoodRules, GoodTables;
      ContinuesStart(host.log);
      if down == "" {
        return true;
      }
      ok := host.Query(); // find the link; a missing one is fine
      if ok && host.s.lm0 != Absent {
        ok := DoSafely(DownstreamDown);
      }
    }

    /** Removes rules, routes and the firewall. Ambiguous rules are kept, with the routes of their tables,
        for a retry. */
    method Dismantle() returns (ok: bool)
      requires Valid() && UniqueRoutes(host.s.routes) && AlwaysSafe(host.init, host.log) && host.s.lm0 != LinkUp
      modifies host`s, host`faults, host`log
      ensures Continues(old(host.log), host.log)
      ensures Valid() && UniqueRoutes(host.s.routes) && AlwaysSafe(host.init, host.log)
      ensures host.s == old(host.s).(rules := host.s.rules, routes := host.s.routes, firewall := host.s.firewall,
                                     peers := host.s.peers, marks := host.s.marks)
      ensures OnlyOwnGone(old(host.s.rules), old(host.s.routes), host.s.rules, host.s.routes, tables)
      ensures !Unambiguous(old(View())) ==>
                !ok && host.s.rules == old(host.s.rules) && host.s.routes == old(host.s.routes)
      ensures ok ==> !host.s.firewall &&
                     host.s.rules == Minus(old(host.s.rules), Elems(OwnRules(old(host.s.rules), tables)))
      ensures ok ==> forall rt :: rt in host.s.routes && rt.table in tables.Values ==> !OurRoute(rt)
      ensures !ok ==> !Unambiguous(old(View())) || host.faults < old(host.faults)
      ensures host.faults <= old(host.faults)
      ensures ok ==> host.faults == old(host.faults)
    {
      hide Continues, AlwaysSafe, UniqueRoutes, Host.Valid, GoodRules, GoodTables, OwnRules, Minus, Elems, OnlyOwnGone,
        Unambiguous;
      ContinuesStart(host.log);
      NothingGone(host.s.rules, host.s.routes, tables);
      var rules;
      ok, rules := ListOwnRules();
      if !ok {
        return;
      }
      ok := CleanUp(rules);
      var removed := host.Query(); // close foreign forward chains
      ok := ok && removed;
      ghost var log := host.log;
      removed := DoSafely(FirewallRemove);
      ContinuesOn(old(host.log), log, host.log);
      ok := ok && removed;
    }

    /** Deletes our rules and the routes of our tables, as many as possible. */
    method CleanUp(rules: seq<Rule>) returns (ok: bool)
      requires Valid() && UniqueRoutes(host.s.routes) && AlwaysSafe(host.init, host.log)
      requires rules == OwnRules(host.s.rules, tables) && Unambiguous(View())
      modifies host`s, host`faults, host`log
      ensures Continues(old(host.log), host.log)
      ensures Valid() && UniqueRoutes(host.s.routes) && AlwaysSafe(host.init, host.log)
      ensures host.s == old(host.s).(rules := host.s.rules, routes := host.s.routes)
      ensures OnlyOwnGone(old(host.s.rules), old(host.s.routes), host.s.rules, host.s.routes, tables)
      ensures ok ==> host.s.rules == Minus(old(host.s.rules), Elems(rules))
      ensures ok ==> forall rt :: rt in host.s.routes && rt.table in tables.Values ==> !OurRoute(rt)
      ensures host.faults <= old(host.faults) && (!ok ==> host.faults < old(host.faults))
      ensures ok ==> host.faults == old(host.faults)
    {
      hide GoodRules, GoodTables, Minus, Elems, AlwaysSafe, Grown, Continues, Host.Valid, UniqueRoutes, OwnRules,
        OnlyOwnGone;
      ghost var from, log := host.s, host.log;
      ghost var dead;
      ok, dead := DeleteListed(rules);
      RoutingKeepsSafety(host.init, log, host.log);
      GrownIsLonger(log, host.log);
      ghost var log1 := host.log;
      var flushed := FlushTables();
      RoutingKeepsSafety(host.init, log1, host.log);
      GrownIsLonger(log1, host.log);
      ContinuesOn(log, log1, host.log);
      SubsetUnique(from.routes, host.s.routes);
      DeadAreOwn(from, host.s, tables, dead);
      ok := ok && flushed;
    }

    method DeleteListed(rules: seq<Rule>) returns (ok: bool, ghost dead: set<Rule>)
      requires Valid() && rules == OwnRules(host.s.rules, tables) && Unambiguous(View())
      modifies host`s, host`faults, host`log
      ensures Valid() && Grown(old(host.log), host.log) &&
              host.s == old(host.s).(rules := Minus(old(host.s.rules), dead))
      ensures dead <= Elems(rules) && (ok ==> dead == Elems(rules))
      ensures host.faults <= old(host.faults) && (!ok ==> host.faults < old(host.faults))
      ensures ok ==> host.faults == old(host.faults)
    {
      hide GoodRules, GoodTables, Pick, Minus, Elems, Without, Host.Valid, OwnRules;
      ghost var from, before := host.s, host.log;
      dead := {};
      OwnListing(from.rules, tables);
      WithoutNothing(from);
      NoElems(rules);
      ok := true;
      for i := 0 to |rules|
        invariant dead <= Elems(rules[..i]) && (ok ==> dead == Elems(rules[..i]))
        invariant Without(from, dead, host.s) && host.Valid() && Grown(before, host.log)
        invariant if ok then host.faults == old(host.faults) else host.faults < old(host.faults)
      {
        ElemsSnoc(rules, i);
        WithoutOne(from, dead, host.s, rules[i]);
        var deleted := host.Do(RuleDel(rules[i]));
        if deleted {
          dead := dead + {rules[i]};
        } else {
          ok := false;
        }
      }
      assert rules[..|rules|] == rules;
      WithoutIsGood(from, dead, host.s);
    }

    method FlushTables() returns (ok: bool)
      requires host.Valid()
      modifies host`s, host`faults, host`log
      ensures host.Valid() && Grown(old(host.log), host.log)
      ensures host.s == old(host.s).(routes := host.s.routes) && host.s.routes <= old(host.s.routes)
      ensures forall rt :: rt in old(host.s.routes) && rt !in host.s.routes ==>
                rt.table in tables.Values && OurRoute(rt)
      ensures ok ==> forall rt :: rt in host.s.routes && rt.table in tables.Values ==> !OurRoute(rt)
      ensures host.faults <= old(host.faults) && (!ok ==> host.faults < old(host.faults))
      ensures ok ==> host.faults == old(host.faults)
    {
      hide Host.Valid, OurRoute;
      ok := true;
      var todo := tables.Values;
      while todo != {}
        invariant host.Valid() && Grown(old(host.log), host.log) && todo <= tables.Values
        invariant host.s == old(host.s).(routes := host.s.routes) && host.s.routes <= old(host.s.routes)
        invariant forall rt :: rt in old(host.s.routes) && rt !in host.s.routes ==>
            rt.table in tables.Values && OurRoute(rt)
        invariant ok ==> forall rt :: rt in host.s.routes && rt.table in tables.Values && rt.table !in todo ==>
            !OurRoute(rt)
        invariant if ok then host.faults == old(host.faults) else host.faults < old(host.faults)
        decreases |todo|
      {
        var table :| table in todo;
        var flushed := FlushTable(table);
        ok := ok && flushed;
        todo := todo - {table};
      }
    }
  }
}
