/** The in-memory dataplane: the simple map form of the dataplane contract. */
module Fake {
  import opened Kernel

  /** What the fake holds, with the pins as (peer, upstream) pairs. */
  datatype Maps = Maps(ups: set<string>, routes: map<Addr, string>, pins: set<(Addr, string)>, alive: set<string>)
  {
    function Route(peer: Addr, upstream: string): Maps {
      var kept := if peer in routes && routes[peer] != upstream && routes[peer] in alive
                  then pins + {(peer, routes[peer])} else pins;
      this.(routes := routes[peer := upstream], pins := kept - {(peer, upstream)})
    }

    function Unroute(peer: Addr): Maps {
      this.(routes := routes - {peer}, pins := set x | x in pins && x.0 != peer)
    }

    function SetAlive(upstream: string, up: bool): Maps {
      if up then this.(alive := alive + {upstream})
      else this.(alive := alive - {upstream}, pins := set x | x in pins && x.1 != upstream)
    }

    function SetUpstreams(upstreams: set<string>): Maps { this.(ups := upstreams) }

    /** The same without whatever belongs to other upstreams. */
    function Within(upstreams: set<string>): Maps {
      Maps(upstreams, map p | p in routes && routes[p] in upstreams :: routes[p],
           (set x | x in pins && x.1 in upstreams), alive * upstreams)
    }

    /** Only upstreams in service are alive, no pin points at the current route, and every pin points at
        an alive upstream. */
    ghost predicate Good() {
      alive <= ups && forall p, u :: (p, u) in pins ==> u in alive && (p in routes ==> routes[p] != u)
    }

    /** Where a flow of the peer goes that was opened through `stamp`. */
    function Resolve(peer: Addr, stamp: string): string
      requires peer in routes
    {
      if (peer, stamp) in pins then stamp else routes[peer]
    }
  }

  class Dataplane {
    var ups: seq<string>
    var routes: map<Addr, string>
    var pins: map<Addr, set<string>>
    var alive: map<string, bool>

    ghost function View(): Maps
      reads this
    {
      Maps((set u | u in ups), routes, (set p, u | p in pins && u in pins[p] :: (p, u)),
           (set u | u in alive && alive[u]))
    }

    constructor ()
      ensures View() == Maps({}, map[], {}, {})
    {
      ups, routes, pins, alive := [], map[], map[], map[];
    }

    /** `Setup` and `SetUpstreams` alike; routes, pins and health of upstreams that are gone stay. */
    method SetUpstreams(upstreams: seq<string>)
      modifies this`ups
      ensures View() == old(View()).SetUpstreams(set u | u in upstreams)
    {
      ups := upstreams;
    }

    method Route(peer: Addr, upstream: string) returns (ok: bool)
      modifies this
      ensures ok == (upstream in old(View()).ups)
      ensures View() == if ok then old(View()).Route(peer, upstream) else old(View())
    {
      for i := 0 to |ups|
        invariant unchanged(this) && upstream !in ups[..i]
      {
        if ups[i] == upstream {
          AddRoute(peer, upstream);
          return true;
        }
      }
      ok := false;
    }

    method AddRoute(peer: Addr, upstream: string)
      modifies this
      ensures View() == old(View()).Route(peer, upstream)
    {
      if peer in routes && routes[peer] != upstream && routes[peer] in alive && alive[routes[peer]] {
        if peer !in pins {
          pins := pins[peer := {}];
        }
        pins := pins[peer := pins[peer] + {routes[peer]}];
      }
      if peer in pins {
        pins := pins[peer := pins[peer] - {upstream}];
      }
      routes := routes[peer := upstream];
    }

    method SetAlive(upstream: string, up: bool)
      modifies this
      ensures View() == old(View()).SetAlive(upstream, up)
    {
      alive := alive[upstream := up];
      if !up {
        pins := map p | p in pins :: pins[p] - {upstream};
      }
    }

    method Unroute(peer: Addr)
      modifies this
      ensures View() == old(View()).Unroute(peer)
    {
      routes := routes - {peer};
      pins := pins - {peer};
    }
  }
}
