/**
The slice of the host that Lotsman programs: the ordered list of policy rules, the routes of the
upstream tables, the nftables state, the downstream link with its configured peers, and the open
upstream devices.

Every change is one operation. An operation takes effect as a whole or fails and changes nothing,
and `Host.Do` may make any operation fail as long as its fault budget lasts.
 */
module Kernel {
  import opened Wrappers

  type Addr = nat
  type Key = nat
  type DeviceId = nat

  /** A policy rule. `src` is a /32 source, `mark` a full-mask fwmark; `extra` is 0, or names whatever
      further selectors or actions a rule of other software may carry. */
  datatype Rule = Rule(priority: nat, table: nat, src: Option<Addr>, mark: Option<nat>, oif: string, extra: nat)

  /** A route: `dst` stands for its destination, 0 for 0.0.0.0/0. */
  datatype Route = Route(table: nat, dst: nat, link: string, gateway: bool)

  datatype Link = Absent | LinkDown | LinkUp

  /** `marks` stands for the "upstreams" set and the "pinmark" map, which always have the same keys. */
  datatype State = State(
    rules: seq<Rule>,
    routes: set<Route>,
    firewall: bool,
    peers: set<Addr>,
    marks: map<string, nat>,
    lm0: Link,
    keys: set<Key>,
    devices: map<DeviceId, string>)

  datatype Op =
    | RuleAdd(rule: Rule)
    | RuleDel(rule: Rule)
    | RouteAdd(route: Route)
    | RouteDel(route: Route)
    | Permit(peer: Addr)
    | Revoke(peer: Addr)
    | SetMarks(marks: map<string, nat>)
    | FirewallRemove
    | FirewallInstall(marks: map<string, nat>)
    | DownstreamOpen
    | DownstreamUp
    | DownstreamDown
    | DownstreamClose
    | PeerAdd(key: Key)
    | PeerRemove(key: Key)
    | DeviceOpen(id: DeviceId, name: string)
    | DeviceClose(id: DeviceId)

  /** Deletion compares the selectors that are given and treats omitted ones as wildcards. */
  predicate Matches(pattern: Rule, r: Rule) {
    && pattern.priority == r.priority
    && pattern.table == r.table
    && (pattern.src == None || pattern.src == r.src)
    && (pattern.mark == None || pattern.mark == r.mark)
    && (pattern.oif == "" || pattern.oif == r.oif)
    && (pattern.extra == 0 || pattern.extra == r.extra)
  }

  /** Rules are kept by ascending priority; a new one goes behind those of its own priority, and an
      exact duplicate is refused. */
  function InsertRule(rules: seq<Rule>, r: Rule): seq<Rule>
    decreases |rules|
  {
    if r in rules then rules
    else if rules == [] || rules[|rules| - 1].priority <= r.priority then rules + [r]
    else InsertRule(rules[..|rules| - 1], r) + [rules[|rules| - 1]]
  }

  /** Removes the first rule the pattern matches. */
  function RemoveRule(rules: seq<Rule>, pattern: Rule): seq<Rule> {
    if rules == [] then []
    else if Matches(pattern, rules[0]) then rules[1..]
    else [rules[0]] + RemoveRule(rules[1..], pattern)
  }

  predicate HasDefault(routes: set<Route>, table: nat) {
    exists rt :: rt in routes && rt.table == table && rt.dst == 0
  }

  /** The table's default route is there and leaves through that link. */
  ghost predicate Leaves(routes: set<Route>, table: nat, link: string) {
    HasDefault(routes, table) && forall rt :: rt in routes && rt.table == table && rt.dst == 0 ==> rt.link == link
  }

  /** Whether the operation can succeed at all in this state. */
  predicate Possible(s: State, op: Op) {
    match op
    case RuleAdd(_) => true
    case RuleDel(p) => exists r :: r in s.rules && Matches(p, r)
    case RouteAdd(rt) => forall x :: x in s.routes ==> x.table != rt.table || x.dst != rt.dst
    case RouteDel(rt) => rt in s.routes
    case Permit(_) => s.firewall
    case Revoke(p) => s.firewall && p in s.peers
    case SetMarks(_) => s.firewall
    case DownstreamUp => s.lm0 != Absent
    case DownstreamDown => s.lm0 != Absent
    case _ => true
  }

  function Apply(s: State, op: Op): State {
    match op
    case RuleAdd(r) => s.(rules := InsertRule(s.rules, r))
    case RuleDel(p) => s.(rules := RemoveRule(s.rules, p))
    case RouteAdd(rt) => s.(routes := s.routes + {rt})
    case RouteDel(rt) => s.(routes := s.routes - {rt})
    case Permit(p) => s.(peers := s.peers + {p})
    case Revoke(p) => s.(peers := s.peers - {p})
    case SetMarks(m) => s.(marks := m)
    case FirewallRemove => s.(firewall := false, peers := {}, marks := map[])
    case FirewallInstall(m) => s.(firewall := true, peers := {}, marks := m)
    case DownstreamOpen => s.(lm0 := LinkDown)
    case DownstreamUp => s.(lm0 := LinkUp)
    case DownstreamDown => s.(lm0 := LinkDown)
    case DownstreamClose => s.(lm0 := Absent, keys := {})
    case PeerAdd(k) => s.(keys := s.keys + {k})
    case PeerRemove(k) => s.(keys := s.keys - {k})
    case DeviceOpen(id, name) => s.(devices := s.devices[id := name])
    case DeviceClose(id) =>
      s.(devices := s.devices - {id},
         routes := set rt | rt in s.routes && !(id in s.devices && rt.link == s.devices[id]))
  }

  /** The state after a sequence of operations that all took effect. */
  function Exec(s: State, ops: seq<Op>): State
    decreases |ops|
  {
    if ops == [] then s else Apply(Exec(s, ops[..|ops| - 1]), ops[|ops| - 1])
  }

  lemma {:induction false} ExecConcat(s: State, a: seq<Op>, b: seq<Op>)
    ensures Exec(s, a + b) == Exec(Exec(s, a), b)
    decreases |b|
  {
    if b == [] {
      assert a + b == a;
    } else {
      var b' := b[..|b| - 1];
      assert (a + b)[..|a + b| - 1] == a + b';
      ExecConcat(s, a, b');
    }
  }

  lemma ExecSnoc(s: State, a: seq<Op>, op: Op)
    ensures Exec(s, a + [op]) == Apply(Exec(s, a), op)
  {
    assert (a + [op])[..|a|] == a;
  }

  /** A log only ever gets longer. */
  ghost predicate Continues(before: seq<Op>, after: seq<Op>) { before <= after }

  lemma ContinuesOn(a: seq<Op>, b: seq<Op>, c: seq<Op>)
    requires Continues(a, b) && Continues(b, c)
    ensures Continues(a, c)
  {
  }

  lemma ContinuesStart(a: seq<Op>)
    ensures Continues(a, a)
  {
  }

  // ---------------------------------------------------------------- Routing decisions

  /** A forwarded packet: its source, the mark restored from its flow, and the selectors of other
      software's rules that it happens to satisfy. It has no output interface yet. */
  datatype Packet = Packet(src: Addr, mark: nat, also: set<nat>)

  predicate Hits(r: Rule, p: Packet) {
    && (r.src == None || r.src == Some(p.src))
    && (r.mark == None || r.mark == Some(p.mark))
    && r.oif == ""
    && (r.extra == 0 || r.extra in p.also)
  }

  /** The table a packet is routed by: that of the first rule it hits whose table has a default
      route. None means that it falls through to the main table. */
  function Lookup(rules: seq<Rule>, routes: set<Route>, p: Packet): Option<nat> {
    if rules == [] then None
    else if Hits(rules[0], p) && HasDefault(routes, rules[0].table) then Some(rules[0].table)
    else Lookup(rules[1..], routes, p)
  }

  // ---------------------------------------------------------------- Rule lists

  ghost predicate Sorted(rules: seq<Rule>) {
    forall i, j :: 0 <= i < j < |rules| ==> rules[i].priority <= rules[j].priority
  }

  ghost predicate NoDup(rules: seq<Rule>) {
    forall i, j :: 0 <= i < j < |rules| ==> rules[i] != rules[j]
  }

  /** The rules without those of a set. */
  function Minus(rules: seq<Rule>, dead: set<Rule>): (out: seq<Rule>)
    ensures forall r :: r in out <==> r in rules && r !in dead
  {
    if rules == [] then []
    else (if rules[0] in dead then [] else [rules[0]]) + Minus(rules[1..], dead)
  }

  ghost predicate Ordered(rules: seq<Rule>) { Sorted(rules) && NoDup(rules) }

  /** Whether the rule may stand right in front of, or right behind, all those of a list. */
  ghost predicate Before(r: Rule, rules: seq<Rule>) {
    forall x :: x in rules ==> r.priority <= x.priority && r != x
  }

  ghost predicate Behind(rules: seq<Rule>, r: Rule) {
    forall x :: x in rules ==> x.priority <= r.priority && r != x
  }

  lemma OrderedParts(all: seq<Rule>, m: nat)
    requires Ordered(all) && m <= |all|
    ensures Ordered(all[..m]) && Ordered(all[m..])
    ensures forall i, j :: 0 <= i < m <= j < |all| ==> all[i].priority <= all[j].priority && all[i] != all[j]
  {
    forall i, j | 0 <= i < j < |all[m..]|
      ensures all[m..][i].priority <= all[m..][j].priority && all[m..][i] != all[m..][j]
    {
      assert all[m..][i] == all[m + i] && all[m..][j] == all[m + j];
    }
  }

  lemma OrderedCons(r: Rule, rest: seq<Rule>)
    ensures Ordered([r] + rest) <==> Ordered(rest) && Before(r, rest)
  {
    var all := [r] + rest;
    if Ordered(all) {
      OrderedTail(r, rest);
    }
    if Ordered(rest) && Before(r, rest) {
      forall i, j | 0 <= i < j < |all| ensures all[i].priority <= all[j].priority && all[i] != all[j] {
        assert all[j] == rest[j - 1] && (i > 0 ==> all[i] == rest[i - 1]);
      }
    }
  }

  lemma OrderedTail(r: Rule, rest: seq<Rule>)
    requires Ordered([r] + rest)
    ensures Ordered(rest) && Before(r, rest)
  {
    var all := [r] + rest;
    OrderedParts(all, 1);
    assert all[1..] == rest;
    forall x | x in rest ensures r.priority <= x.priority && r != x {
      var i :| 0 <= i < |rest| && rest[i] == x;
      assert all[0] == r && all[i + 1] == x;
    }
  }

  lemma OrderedSnoc(front: seq<Rule>, r: Rule)
    ensures Ordered(front + [r]) <==> Ordered(front) && Behind(front, r)
  {
    var all := front + [r];
    if Ordered(all) {
      OrderedParts(all, |front|);
      assert all[..|front|] == front;
      forall x | x in front ensures x.priority <= r.priority && r != x {
        var i :| 0 <= i < |front| && front[i] == x;
        assert all[i] == x && all[|front|] == r;
      }
    }
    if Ordered(front) && Behind(front, r) {
      forall i, j | 0 <= i < j < |all| ensures all[i].priority <= all[j].priority && all[i] != all[j] {
        assert all[i] == front[i] && (j < |front| ==> all[j] == front[j]);
      }
    }
  }

  lemma {:induction false} InsertKeepsOrder(rules: seq<Rule>, r: Rule)
    requires Ordered(rules)
    ensures Ordered(InsertRule(rules, r))
    ensures forall x :: x in InsertRule(rules, r) <==> x in rules || x == r
    decreases |rules|
  {
    hide Ordered;
    if r !in rules && rules != [] {
      var front, last := rules[..|rules| - 1], rules[|rules| - 1];
      assert rules == front + [last];
      OrderedSnoc(front, last);
      if last.priority > r.priority {
        InsertKeepsOrder(front, r);
        OrderedSnoc(InsertRule(front, r), last);
      } else {
        OrderedSnoc(rules, r);
      }
    } else if rules == [] {
      OrderedSnoc([], r);
      assert [] + [r] == [r];
    }
  }

  lemma {:induction false} Inserted(rules: seq<Rule>, r: Rule)
    ensures forall x :: x in InsertRule(rules, r) <==> x in rules || x == r
    decreases |rules|
  {
    if r !in rules && rules != [] && rules[|rules| - 1].priority > r.priority {
      var front, last := rules[..|rules| - 1], rules[|rules| - 1];
      assert rules == front + [last];
      Inserted(front, r);
    }
  }

  lemma {:induction false} Reduced(rules: seq<Rule>, pattern: Rule)
    ensures forall x :: x in RemoveRule(rules, pattern) ==> x in rules
  {
    if rules != [] && !Matches(pattern, rules[0]) {
      Reduced(rules[1..], pattern);
    }
  }

  lemma {:induction false} MinusKeepsOrder(rules: seq<Rule>, dead: set<Rule>)
    requires Ordered(rules)
    ensures Ordered(Minus(rules, dead))
  {
    if rules != [] {
      hide Ordered;
      var rest := Minus(rules[1..], dead);
      assert rules == [rules[0]] + rules[1..];
      OrderedCons(rules[0], rules[1..]);
      MinusKeepsOrder(rules[1..], dead);
      OrderedCons(rules[0], rest);
    }
  }

  lemma {:induction false} MinusNothing(rules: seq<Rule>, dead: set<Rule>)
    requires forall r :: r in rules ==> r !in dead
    ensures Minus(rules, dead) == rules
  {
    if rules != [] {
      MinusNothing(rules[1..], dead);
    }
  }

  lemma {:induction false} MinusMinus(rules: seq<Rule>, a: set<Rule>, b: set<Rule>)
    ensures Minus(Minus(rules, a), b) == Minus(rules, a + b)
  {
    if rules != [] {
      var rest := Minus(rules[1..], a);
      MinusMinus(rules[1..], a, b);
      if rules[0] in a {
        assert Minus(rules, a) == rest;
      } else {
        assert Minus(rules, a) == [rules[0]] + rest;
        assert ([rules[0]] + rest)[1..] == rest;
      }
    }
  }

  /** Deleting removes exactly the intended rule when nothing else answers to its selectors. */
  lemma {:induction false} RemoveExact(rules: seq<Rule>, r: Rule)
    requires Ordered(rules)
    requires forall x :: x in rules && Matches(r, x) ==> x == r
    ensures RemoveRule(rules, r) == Minus(rules, {r})
  {
    hide Ordered;
    if rules != [] {
      assert rules == [rules[0]] + rules[1..];
      OrderedCons(rules[0], rules[1..]);
      if rules[0] == r {
        MinusNothing(rules[1..], {r});
      } else {
        RemoveExact(rules[1..], r);
      }
    }
  }

  /** The first rule that decides a packet, when all rules in front of it miss. */
  lemma {:induction false} LookupAt(rules: seq<Rule>, routes: set<Route>, p: Packet, i: nat)
    requires i < |rules| && Hits(rules[i], p) && HasDefault(routes, rules[i].table)
    requires forall j :: 0 <= j < i && Hits(rules[j], p) && HasDefault(routes, rules[j].table) ==>
               rules[j].table == rules[i].table
    ensures Lookup(rules, routes, p) == Some(rules[i].table)
  {
    if i > 0 {
      LookupAt(rules[1..], routes, p, i - 1);
    }
  }

  lemma {:induction false} LookupNone(rules: seq<Rule>, routes: set<Route>, p: Packet)
    ensures Lookup(rules, routes, p) == None <==>
            forall r :: r in rules && Hits(r, p) ==> !HasDefault(routes, r.table)
  {
    if rules != [] {
      LookupNone(rules[1..], routes, p);
    }
  }

  lemma {:induction false} LookupSnoc(rules: seq<Rule>, r: Rule, routes: set<Route>, p: Packet)
    ensures Lookup(rules + [r], routes, p) ==
            if Lookup(rules, routes, p) != None then Lookup(rules, routes, p)
            else if Hits(r, p) && HasDefault(routes, r.table) then Some(r.table) else None
  {
    if rules != [] {
      assert (rules + [r])[1..] == rules[1..] + [r];
      LookupSnoc(rules[1..], r, routes, p);
    }
  }

  predicate Decides(r: Rule, routes: set<Route>, p: Packet) { Hits(r, p) && HasDefault(routes, r.table) }

  /** A new rule does not change where a packet goes if it misses the packet, or stands behind a rule
      that already decides it. */
  lemma {:induction false} LookupInsert(rules: seq<Rule>, r: Rule, routes: set<Route>, p: Packet)
    requires Ordered(rules)
    requires !Decides(r, routes, p) || exists x :: x in rules && Decides(x, routes, p) && x.priority <= r.priority
    ensures Lookup(InsertRule(rules, r), routes, p) == Lookup(rules, routes, p)
    decreases |rules|
  {
    hide Ordered;
    if r !in rules && rules != [] && rules[|rules| - 1].priority > r.priority {
      var front, last := rules[..|rules| - 1], rules[|rules| - 1];
      assert rules == front + [last];
      OrderedSnoc(front, last);
      LookupInsert(front, r, routes, p);
      LookupSnoc(front, last, routes, p);
      LookupSnoc(InsertRule(front, r), last, routes, p);
    } else {
      LookupSnoc(rules, r, routes, p);
      LookupNone(rules, routes, p);
    }
  }

  /** Deleting a rule that misses the packet does not change where it goes. */
  lemma {:induction false} LookupMinus(rules: seq<Rule>, dead: set<Rule>, routes: set<Route>, p: Packet)
    requires forall r :: r in dead ==> !Decides(r, routes, p)
    ensures Lookup(Minus(rules, dead), routes, p) == Lookup(rules, routes, p)
  {
    if rules != [] {
      var rest := Minus(rules[1..], dead);
      LookupMinus(rules[1..], dead, routes, p);
      if rules[0] in dead {
        assert Minus(rules, dead) == rest;
      } else {
        assert Minus(rules, dead) == [rules[0]] + rest;
      }
    }
  }

  // ---------------------------------------------------------------- The host

  class Host {
    var s: State
    var faults: nat            // how many more operations or queries may fail although they could succeed
    ghost var log: seq<Op>     // every operation that took effect, in order
    ghost var refused: seq<Op> // every operation on the downstream device that failed, in order
    ghost const init: State

    ghost predicate Valid()
      reads this
    {
      s == Exec(init, log)
    }

    constructor (s: State, faults: nat)
      ensures Valid() && this.s == s && this.faults == faults && init == s && log == [] && refused == []
    {
      this.s, this.faults, this.log, this.refused, this.init := s, faults, [], [], s;
    }

    /** One kernel operation. */
    method Do(op: Op) returns (ok: bool)
      requires Valid()
      modifies this`s, this`faults, this`log
      ensures Valid()
      ensures ok ==> Possible(old(s), op) && s == Apply(old(s), op) && log == old(log) + [op] && faults == old(faults)
      ensures !ok ==> s == old(s) && log == old(log) && faults <= old(faults)
      ensures !ok && Possible(old(s), op) ==> faults < old(faults)
    {
      var unlucky := *;
      if faults > 0 && unlucky {
        faults := faults - 1;
        return false;
      }
      if !Possible(s, op) {
        return false;
      }
      ExecSnoc(init, log, op);
      s := Apply(s, op);
      log := log + [op];
      ok := true;
    }

    /** Adds a peer to the downstream device or takes one off it. */
    method Configure(op: Op) returns (ok: bool)
      requires Valid() && (op.PeerAdd? || op.PeerRemove?)
      modifies this
      ensures Valid()
      ensures ok ==>
                s == Apply(old(s), op) && log == old(log) + [op] && refused == old(refused) && faults == old(faults)
      ensures !ok ==> s == old(s) && log == old(log) && refused == old(refused) + [op] && faults < old(faults)
    {
      ok := Do(op);
      if !ok {
        refused := refused + [op];
      }
    }

    /** Closing a device or the downstream link cannot fail. */
    method Close(op: Op)
      requires Valid() && (op.DeviceClose? || op == DownstreamClose)
      modifies this`s, this`log
      ensures Valid() && s == Apply(old(s), op) && log == old(log) + [op] && faults == old(faults)
    {
      ExecSnoc(init, log, op);
      s := Apply(s, op);
      log := log + [op];
    }

    /** A read of kernel or store state, or a call into a device that changes nothing modelled here. */
    method Query() returns (ok: bool)
      modifies this`faults
      ensures faults <= old(faults)
      ensures old(Valid()) ==> Valid()
      ensures ok ==> faults == old(faults)
      ensures !ok ==> faults < old(faults)
    {
      var unlucky := *;
      ok := !(faults > 0 && unlucky);
      if !ok {
        faults := faults - 1;
      }
    }
  }
}
