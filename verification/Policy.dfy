/** Choosing an upstream for a profile from what is currently healthy. */
module Policy {
  import opened Wrappers

  /** An upstream as the operator configures it. */
  datatype Upstream = Upstream(name: string, conf: string, geo: string, provider: string)

  /** Empty fields match anything. */
  datatype Match = Match(geo: string, provider: string) {
    predicate Matches(u: Upstream) {
      (geo == "" || geo == u.geo) && (provider == "" || provider == u.provider)
    }
  }

  /** What each field asks for: nothing if it is empty, else exactly that value. */
  lemma MatchIsBoth(m: Match, u: Upstream)
    ensures m.Matches(u) <==> m.geo in {"", u.geo} && m.provider in {"", u.provider}
  {
  }

  datatype Profile = Profile(name: string, prefer: seq<Match>)

  datatype Candidate = Candidate(up: Upstream, healthy: bool, latency: int)

  /** The index of the first preference that matches, or -1; an empty list is one tier for all. */
  function TierOf(p: Profile, u: Upstream): (tier: int)
    ensures p.prefer == [] ==> tier == 0
    ensures p.prefer != [] ==>
              && -1 <= tier < |p.prefer|
              && (tier >= 0 ==> p.prefer[tier].Matches(u))
              && forall i :: 0 <= i < (if tier >= 0 then tier else |p.prefer|) ==> !p.prefer[i].Matches(u)
  {
    if p.prefer == [] then 0 else FirstMatch(p.prefer, u, 0)
  }

  function FirstMatch(prefer: seq<Match>, u: Upstream, from: nat): (tier: int)
    requires from <= |prefer|
    ensures tier == -1 || from <= tier < |prefer|
    ensures tier >= 0 ==> prefer[tier].Matches(u)
    ensures forall i :: from <= i < (if tier >= 0 then tier else |prefer|) ==> !prefer[i].Matches(u)
    decreases |prefer| - from
  {
    if from == |prefer| then -1
    else if prefer[from].Matches(u) then from
    else FirstMatch(prefer, u, from + 1)
  }

  // ---------------------------------------------------------------- Orders

  predicate StringLess(a: string, b: string) {
    if b == "" then false
    else if a == "" then true
    else a[0] < b[0] || (a[0] == b[0] && StringLess(a[1..], b[1..]))
  }

  lemma {:induction false} StringOrder(a: string, b: string, c: string)
    ensures !StringLess(a, a)
    ensures StringLess(a, b) || StringLess(b, a) || a == b
    ensures StringLess(a, b) && StringLess(b, c) ==> StringLess(a, c)
    decreases |a| + |b| + |c|
  {
    if a != "" && b != "" {
      if c != "" {
        StringOrder(a[1..], b[1..], c[1..]);
      } else {
        StringOrder(a[1..], b[1..], "");
      }
      assert a[0] == b[0] && a[1..] == b[1..] ==> a == b by {
        assert a == [a[0]] + a[1..] && b == [b[0]] + b[1..];
      }
    } else if a != "" {
      StringOrder(a[1..], "", "");
    }
  }

  /** In front of the first character in which they differ, or where the shorter one ends, both agree. */
  ghost predicate Precedes(a: string, b: string) {
    exists k: nat :: k <= |a| && k < |b| && a[..k] == b[..k] && (k == |a| || a[k] < b[k])
  }

  lemma {:induction false} StringLessPrecedes(a: string, b: string)
    ensures StringLess(a, b) <==> Precedes(a, b)
    decreases |a|
  {
    if a != "" && b != "" {
      StringLessPrecedes(a[1..], b[1..]);
      if Precedes(a[1..], b[1..]) && a[0] == b[0] {
        var k: nat :| k <= |a[1..]| && k < |b[1..]| && a[1..][..k] == b[1..][..k] &&
                      (k == |a[1..]| || a[1..][k] < b[1..][k]);
        assert a[..k + 1] == [a[0]] + a[1..][..k] && b[..k + 1] == [b[0]] + b[1..][..k];
      }
      if Precedes(a, b) {
        var k: nat :| k <= |a| && k < |b| && a[..k] == b[..k] && (k == |a| || a[k] < b[k]);
        if k > 0 {
          assert a[0] == a[..k][0] && b[0] == b[..k][0];
          assert a[1..][..k - 1] == a[..k][1..] && b[1..][..k - 1] == b[..k][1..];
        } else {
          assert a[0] < b[0];
        }
      }
    } else {
      assert b != "" ==> a[..0] == b[..0];
    }
  }

  /** Lower latency first, then the name. */
  predicate Better(a: Candidate, b: Candidate) {
    a.latency < b.latency || (a.latency == b.latency && StringLess(a.up.name, b.up.name))
  }

  /** Of two candidates the one with the lower latency is better, and of two that are equally fast the one
      whose name comes first, whatever else is known of them. */
  lemma BetterIsFaster(a: Candidate, b: Candidate)
    ensures a.latency != b.latency ==> (Better(a, b) <==> a.latency < b.latency)
    ensures a.latency == b.latency ==> (Better(a, b) <==> Precedes(a.up.name, b.up.name))
  {
    StringLessPrecedes(a.up.name, b.up.name);
  }

  // ---------------------------------------------------------------- What is selected

  predicate Usable(p: Profile, c: Candidate) { c.healthy && TierOf(p, c.up) >= 0 }

  /** A healthy upstream of the best tier that has one. */
  ghost predicate Eligible(p: Profile, ups: seq<Candidate>, c: Candidate) {
    c in ups && Usable(p, c) && forall x :: x in ups && Usable(p, x) ==> TierOf(p, c.up) <= TierOf(p, x.up)
  }

  ghost predicate Named(p: Profile, ups: seq<Candidate>, name: string) {
    exists c :: Eligible(p, ups, c) && c.up.name == name
  }

  ghost predicate BestNamed(p: Profile, ups: seq<Candidate>, name: string) {
    exists c :: Eligible(p, ups, c) && c.up.name == name && forall x :: Eligible(p, ups, x) ==> !Better(x, c)
  }

  /** The choice: keep the current upstream while it is eligible, else take the best eligible one, and
      nothing exactly when none is eligible. */
  ghost predicate Selected(p: Profile, ups: seq<Candidate>, current: string, choice: Option<string>) {
    match choice
    case None => forall c :: c in ups ==> !Usable(p, c)
    case Some(name) => if Named(p, ups, current) then name == current else BestNamed(p, ups, name)
  }

  /** One pass that keeps the candidates of the best tier so far, then the sticky choice, then the
      minimum. */
  method Select(profile: Profile, upstreams: seq<Candidate>, current: string) returns (choice: Option<string>)
    ensures Selected(profile, upstreams, current, choice)
  {
    var candidates: seq<Candidate> := [];
    var bestTier := -1;
    for i := 0 to |upstreams|
      invariant bestTier >= -1 && (bestTier < 0 <==> candidates == [])
      invariant forall c :: c in candidates <==>
                  c in upstreams[..i] && Usable(profile, c) && TierOf(profile, c.up) == bestTier
      invariant forall x :: x in upstreams[..i] && Usable(profile, x) ==> 0 <= bestTier <= TierOf(profile, x.up)
    {
      var u := upstreams[i];
      assert upstreams[..i + 1] == upstreams[..i] + [u];
      var tier := TierOf(profile, u.up);
      if u.healthy && tier >= 0 {
        if bestTier < 0 || tier < bestTier {
          bestTier := tier;
          candidates := [u];
        } else if tier == bestTier {
          candidates := candidates + [u];
        }
      }
    }
    assert upstreams[..|upstreams|] == upstreams;
    assert forall c :: c in candidates <==> Eligible(profile, upstreams, c) by {
      if candidates != [] {
        assert candidates[0] in candidates;
      }
    }
    if candidates == [] {
      return None;
    }
    assert candidates[0] in upstreams;
    for i := 0 to |candidates|
      invariant forall j :: 0 <= j < i ==> candidates[j].up.name != current
    {
      if candidates[i].up.name == current {
        assert candidates[i] in candidates;
        return Some(current);
      }
    }
    var best := Minimum(candidates);
    assert Eligible(profile, upstreams, best);
    return Some(best.up.name);
  }

  method Minimum(candidates: seq<Candidate>) returns (best: Candidate)
    requires candidates != []
    ensures best in candidates && forall x :: x in candidates ==> !Better(x, best)
  {
    best := candidates[0];
    StringOrder(best.up.name, best.up.name, best.up.name);
    for i := 1 to |candidates|
      invariant best in candidates && forall j :: 0 <= j < i ==> !Better(candidates[j], best)
    {
      forall j | 0 <= j < i
        ensures Better(candidates[i], best) ==> !Better(candidates[j], candidates[i])
      {
        StringOrder(candidates[j].up.name, candidates[i].up.name, best.up.name);
        StringOrder(candidates[i].up.name, candidates[i].up.name, best.up.name);
      }
      StringOrder(candidates[i].up.name, candidates[i].up.name, candidates[i].up.name);
      if Better(candidates[i], best) {
        best := candidates[i];
      }
    }
  }

  // ---------------------------------------------------------------- Properties of the choice

  /** The preference asks for nothing the upstream does not have. */
  ghost predicate Fits(m: Match, u: Upstream) { m.geo in {"", u.geo} && m.provider in {"", u.provider} }

  /** Number `t` is the first preference that the upstream fits; without preferences all are number 0. */
  ghost predicate InTier(p: Profile, u: Upstream, t: nat) {
    if p.prefer == [] then t == 0
    else t < |p.prefer| && Fits(p.prefer[t], u) && forall i :: 0 <= i < t ==> !Fits(p.prefer[i], u)
  }

  lemma TierIsFirstFit(p: Profile, u: Upstream, t: nat)
    ensures TierOf(p, u) == t <==> InTier(p, u, t)
  {
    forall m: Match ensures m.Matches(u) <==> Fits(m, u) {
      MatchIsBoth(m, u);
    }
    hide Match.Matches, Fits;
  }

  /** What the choice is, told by the fields alone: a healthy upstream that fits a preference of the profile,
      with no healthy one that fits an earlier preference; and unless it is the current one, it is at least
      as fast as all others of its tier, and of those as fast as it, none has a name that comes before. */
  lemma ChoiceFits(p: Profile, ups: seq<Candidate>, current: string, name: string)
    requires Selected(p, ups, current, Some(name))
    ensures exists c, t: nat :: c in ups && c.healthy && c.up.name == name && InTier(p, c.up, t) &&
              (forall x, s: nat :: x in ups && x.healthy && InTier(p, x.up, s) ==> t <= s) &&
              (name == current || forall x :: x in ups && x.healthy && InTier(p, x.up, t) ==>
                 c.latency < x.latency || (c.latency == x.latency && !Precedes(x.up.name, name)))
  {
    forall u: Upstream, t: nat ensures TierOf(p, u) == t <==> InTier(p, u, t) {
      TierIsFirstFit(p, u, t);
    }
    hide InTier, TierOf, Precedes;
    var c :| Eligible(p, ups, c) && c.up.name == name && (name == current || forall x :: Eligible(p, ups, x) ==>
                                                                                          !Better(x, c));
    var t: nat := TierOf(p, c.up);
    assert InTier(p, c.up, t);
    forall x | x in ups && x.healthy && InTier(p, x.up, t) && name != current
      ensures c.latency < x.latency || (c.latency == x.latency && !Precedes(x.up.name, name))
    {
      assert Eligible(p, ups, x);
      BetterIsFaster(x, c);
    }
  }

  /** There is no choice exactly if no healthy upstream fits a preference. */
  lemma NoChoice(p: Profile, ups: seq<Candidate>, current: string, choice: Option<string>)
    requires Selected(p, ups, current, choice)
    ensures choice == None <==> forall c, t: nat :: c in ups && c.healthy ==> !InTier(p, c.up, t)
  {
    forall u: Upstream, t: nat ensures TierOf(p, u) == t <==> InTier(p, u, t) {
      TierIsFirstFit(p, u, t);
    }
    hide InTier;
    if choice.Some? {
      var c :| Eligible(p, ups, c);
      assert InTier(p, c.up, TierOf(p, c.up));
    } else {
      forall c | c in ups && c.healthy ensures TierOf(p, c.up) < 0 {
        assert !Usable(p, c);
      }
    }
  }

  /** The choice is determined. */
  lemma SelectedUnique(p: Profile, ups: seq<Candidate>, current: string, a: Option<string>, b: Option<string>)
    requires Selected(p, ups, current, a) && Selected(p, ups, current, b)
    ensures a == b
  {
    if a.Some? && b.Some? && !Named(p, ups, current) {
      var c :| Eligible(p, ups, c) && c.up.name == a.value && forall x :: Eligible(p, ups, x) ==> !Better(x, c);
      var e :| Eligible(p, ups, e) && e.up.name == b.value && forall x :: Eligible(p, ups, x) ==> !Better(x, e);
      StringOrder(c.up.name, e.up.name, c.up.name);
    }
  }

  /** The order in which upstreams are listed does not matter. */
  lemma OrderDoesNotMatter(p: Profile, ups: seq<Candidate>, other: seq<Candidate>, current: string,
                           choice: Option<string>)
    requires multiset(ups) == multiset(other) && Selected(p, ups, current, choice)
    ensures Selected(p, other, current, choice)
  {
    assert forall c :: c in ups <==> c in multiset(ups);
    assert forall c :: c in other <==> c in multiset(other);
    assert forall c :: Eligible(p, ups, c) <==> Eligible(p, other, c);
  }

  /** Fed back as the current upstream, the choice is made again. */
  lemma FixedPoint(p: Profile, ups: seq<Candidate>, current: string, choice: Option<string>, again: Option<string>)
    requires Selected(p, ups, current, choice)
    requires Selected(p, ups, if choice.Some? then choice.value else "", again)
    ensures again == choice
  {
    if choice.Some? {
      assert Named(p, ups, choice.value);
    }
  }

  /** The choice stands when it is judged again as the current upstream. */
  lemma ChoiceStands(p: Profile, ups: seq<Candidate>, current: string, choice: Option<string>)
    requires Selected(p, ups, current, choice)
    ensures Selected(p, ups, if choice.Some? then choice.value else "", choice)
  {
    if choice.Some? {
      assert Named(p, ups, choice.value);
    }
  }

  /** The same upstreams with the same health, at whatever latencies. */
  ghost predicate SameButLatency(a: seq<Candidate>, b: seq<Candidate>) {
    |a| == |b| && forall i :: 0 <= i < |a| ==> a[i].up == b[i].up && a[i].healthy == b[i].healthy
  }

  lemma EligibleIgnoresLatency(p: Profile, a: seq<Candidate>, b: seq<Candidate>, i: nat)
    requires SameButLatency(a, b) && i < |a| && Eligible(p, a, a[i])
    ensures Eligible(p, b, b[i])
  {
    forall x | x in b && Usable(p, x) ensures TierOf(p, b[i].up) <= TierOf(p, x.up) {
      var j :| 0 <= j < |b| && b[j] == x;
      assert a[j] in a;
    }
  }

  /** A change of latency alone never moves a peer off its upstream. */
  lemma LatencyNeverMoves(p: Profile, a: seq<Candidate>, b: seq<Candidate>, current: string, choice: Option<string>)
    requires SameButLatency(a, b) && Named(p, a, current) && Selected(p, b, current, choice)
    ensures choice == Some(current)
  {
    var c :| Eligible(p, a, c) && c.up.name == current;
    var i :| 0 <= i < |a| && a[i] == c;
    EligibleIgnoresLatency(p, a, b, i);
    assert b[i] in b;
  }
}
