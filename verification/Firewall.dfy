/**
The forward chain, rule by rule, and what it lets through. It judges a packet after routing has
chosen where it leaves, so what it says holds whatever the routing rules contain.
 */
module Firewall {
  import opened Wrappers
  import opened Kernel
  import opened LinuxRules

  /** A packet in the forward hook. `established` is the conntrack state, `syn` marks the TCP segments
      whose MSS is clamped. */
  datatype Forwarded = Forwarded(iif: string, oif: string, ipv4: bool, src: Addr, dst: Addr, established: bool,
                                 syn: bool)

  datatype Test = IifIs(name: string) | IifInUps | OifIs(name: string) | OifInUps
                | SourceInPeers | DestinationInPeers | Established | TcpSyn

  datatype Verdict = Accept | Drop

  /** `verdict` is None for a statement that only edits the packet. */
  datatype ChainRule = ChainRule(tests: set<Test>, verdict: Option<Verdict>)

  predicate Passes(t: Test, s: State, p: Forwarded) {
    match t
    case IifIs(n) => p.iif == n
    case IifInUps => p.iif in s.marks
    case OifIs(n) => p.oif == n
    case OifInUps => p.oif in s.marks
    case SourceInPeers => p.ipv4 && p.src in s.peers
    case DestinationInPeers => p.ipv4 && p.dst in s.peers
    case Established => p.established
    case TcpSyn => p.syn
  }

  function ForwardChain(down: string): seq<ChainRule> {
    [ ChainRule({IifIs(down), OifInUps, TcpSyn}, None),
      ChainRule({IifIs(down), OifInUps, SourceInPeers}, Some(Accept)),
      ChainRule({IifInUps, OifIs(down), DestinationInPeers, Established}, Some(Accept)),
      ChainRule({IifIs(down)}, Some(Drop)),
      ChainRule({IifInUps}, Some(Drop)) ]
  }

  /** The first rule that gives a verdict and whose tests all pass decides; the chain's policy is to
      accept. */
  function Evaluate(chain: seq<ChainRule>, s: State, p: Forwarded): Verdict {
    if chain == [] then Accept
    else if chain[0].verdict.Some? && forall t :: t in chain[0].tests ==> Passes(t, s, p) then chain[0].verdict.value
    else Evaluate(chain[1..], s, p)
  }

  /** Without the table nothing is filtered. */
  function Judge(down: string, s: State, p: Forwarded): Verdict {
    if s.firewall then Evaluate(ForwardChain(down), s, p) else Accept
  }

  lemma EvaluateCons(r: ChainRule, rest: seq<ChainRule>, s: State, p: Forwarded)
    ensures Evaluate([r] + rest, s, p) ==
            if r.verdict.Some? && (forall t :: t in r.tests ==> Passes(t, s, p)) then r.verdict.value
            else Evaluate(rest, s, p)
  {
    assert ([r] + rest)[1..] == rest;
  }

  /** What the chain comes to. From the downstream link exactly the authorised sources get out, and
      only through upstreams; from an upstream exactly the replies to authorised peers get in. */
  lemma ForwardVerdict(down: string, s: State, p: Forwarded)
    requires s.firewall && down !in s.marks
    ensures p.iif == down ==> (Judge(down, s, p) == Accept <==> p.ipv4 && p.src in s.peers && p.oif in s.marks)
    ensures p.iif in s.marks ==>
              (Judge(down, s, p) == Accept <==> p.ipv4 && p.dst in s.peers && p.oif == down && p.established)
    ensures p.iif != down && p.iif !in s.marks ==> Judge(down, s, p) == Accept
  {
    var r0 := ChainRule({IifIs(down), OifInUps, TcpSyn}, None);
    var r1 := ChainRule({IifIs(down), OifInUps, SourceInPeers}, Some(Accept));
    var r2 := ChainRule({IifInUps, OifIs(down), DestinationInPeers, Established}, Some(Accept));
    var r3 := ChainRule({IifIs(down)}, Some(Drop));
    var r4 := ChainRule({IifInUps}, Some(Drop));
    assert ForwardChain(down) == [r0] + ([r1] + ([r2] + ([r3] + ([r4] + []))));
    hide ForwardChain, Evaluate;
    EvaluateCons(r0, [r1] + ([r2] + ([r3] + ([r4] + []))), s, p);
    EvaluateCons(r1, [r2] + ([r3] + ([r4] + [])), s, p);
    EvaluateCons(r2, [r3] + ([r4] + []), s, p);
    EvaluateCons(r3, [r4] + [], s, p);
    EvaluateCons(r4, [], s, p);
    EvaluateNone(s, p);
    assert IifIs(down) in r1.tests && OifInUps in r1.tests && SourceInPeers in r1.tests;
    assert IifInUps in r2.tests && OifIs(down) in r2.tests && DestinationInPeers in r2.tests && Established in r2.tests;
    assert IifIs(down) in r3.tests && IifInUps in r4.tests;
  }

  lemma EvaluateNone(s: State, p: Forwarded)
    ensures Evaluate([], s, p) == Accept
  {
  }
}
