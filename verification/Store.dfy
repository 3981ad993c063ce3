/** The store of users and peers, and how it hands out addresses. */
module Store {
  import opened Wrappers
  import opened Kernel
  import DaemonState
  import Daemon
  import Lifecycle

  datatype Row = Row(user: string, device: string, profile: string, key: Key, ip: Addr)

  /** A subnet: its network address and how many addresses it has. */
  datatype Subnet = Subnet(base: Addr, size: nat) {
    predicate Contains(a: Addr) { base <= a < base + size }
  }

  predicate IsBroadcast(subnet: Subnet, a: Addr) { !subnet.Contains(a + 1) }

  /** What may be handed out: not the network address, not the gateway, not the broadcast address. */
  predicate Assignable(subnet: Subnet, a: Addr) {
    subnet.Contains(a) && a >= subnet.base + 2 && !IsBroadcast(subnet, a)
  }

  /** All addresses but the first two and the last. */
  lemma AssignableMeans(subnet: Subnet, a: Addr)
    ensures Assignable(subnet, a) <==> subnet.base + 2 <= a <= subnet.base + subnet.size - 2
  {
  }

  /** The least assignable address that is not used, or none if all are. */
  method FirstFree(subnet: Subnet, used: set<Addr>) returns (free: Option<Addr>)
    ensures free.Some? ==>
              && Assignable(subnet, free.value) && free.value !in used
              && forall b: Addr :: Assignable(subnet, b) && b !in used ==> free.value <= b
    ensures free == None ==> forall b: Addr :: Assignable(subnet, b) ==> b in used
  {
    var a := subnet.base + 2;
    while subnet.Contains(a)
      invariant a >= subnet.base + 2 && forall b: Addr :: Assignable(subnet, b) && b < a ==> b in used
      decreases subnet.base + subnet.size - a
    {
      if a !in used && !IsBroadcast(subnet, a) {
        return Some(a);
      }
      a := a + 1;
    }
    free := None;
  }

  /** `Database` stands for any failure of the database itself. */
  datatype Failure = NotFound | Exists | SubnetFull | Database

  /** Keys, addresses and places are taken once. */
  ghost predicate Unique(rows: seq<Row>) {
    forall i, j :: 0 <= i < j < |rows| ==>
                     && rows[i].key != rows[j].key && rows[i].ip != rows[j].ip
                     && (rows[i].user != rows[j].user || rows[i].device != rows[j].device ||
                         rows[i].profile != rows[j].profile)
  }

  /** The rows at some moment, and every key ever stored. */
  datatype Moment = Moment(rows: seq<Row>, issued: set<Key>)

  ghost predicate Proper(m: Moment) { Unique(m.rows) && forall r :: r in m.rows ==> r.key in m.issued }

  /** Keys that have been used are gone for good, and what is stored does not change. */
  ghost predicate Follows(before: Moment, after: Moment) {
    before.issued <= after.issued && forall r :: r in after.rows && r.key in before.issued ==> r in before.rows
  }

  /** The store over time, as its operations change it. */
  ghost predicate Evolves(ms: seq<Moment>) {
    && (forall i :: 0 <= i < |ms| ==> Proper(ms[i]))
    && (forall i :: 0 <= i < |ms| - 1 ==> Follows(ms[i], ms[i + 1]))
  }

  lemma EvolvesOn(ms: seq<Moment>, m: Moment)
    requires Evolves(ms) && ms != [] && Proper(m) && Follows(ms[|ms| - 1], m)
    ensures Evolves(ms + [m])
  {
    hide Proper, Follows;
    var all := ms + [m];
    forall i | 0 <= i < |all| - 1 ensures Follows(all[i], all[i + 1]) {
      assert all[i] == ms[i];
    }
  }

  function Keeping(rows: seq<Row>, gone: Row -> bool): (kept: seq<Row>)
    ensures forall r :: r in kept <==> r in rows && !gone(r)
  {
    if rows == [] then [] else (if gone(rows[0]) then [] else [rows[0]]) + Keeping(rows[1..], gone)
  }

  lemma {:induction false} KeepingIsUnique(rows: seq<Row>, gone: Row -> bool)
    requires Unique(rows)
    ensures Unique(Keeping(rows, gone))
  {
    if rows != [] {
      var kept := Keeping(rows[1..], gone);
      KeepingIsUnique(rows[1..], gone);
      if !gone(rows[0]) {
        var all := [rows[0]] + kept;
        forall i, j | 0 <= i < j < |all|
          ensures all[i].key != all[j].key && all[i].ip != all[j].ip
          ensures all[i].user != all[j].user || all[i].device != all[j].device || all[i].profile != all[j].profile
        {
          if i == 0 {
            assert all[j] == kept[j - 1] && kept[j - 1] in rows[1..];
            var m :| 0 <= m < |rows[1..]| && rows[1..][m] == all[j];
            assert rows[m + 1] == all[j];
          } else {
            assert all[i] == kept[i - 1] && all[j] == kept[j - 1];
          }
        }
      }
    }
  }

  class Store {
    var users: set<string>
    var rows: seq<Row>
    var faults: nat // how many more times the database may fail
    ghost var issued: set<Key>
    ghost var past: seq<Moment> // every moment so far, the present one last

    ghost function Now(): Moment
      reads this
    {
      Moment(rows, issued)
    }

    ghost predicate Valid()
      reads this
    {
      && Evolves(past) && past != [] && past[|past| - 1] == Now()
      && (forall r :: r in rows ==> r.user in users)
    }

    constructor (faults: nat)
      ensures Valid() && users == {} && rows == [] && issued == {} && past == [Now()] && this.faults == faults
    {
      users, rows, issued, past := {}, [], {}, [Moment([], {})];
      this.faults := faults;
    }

    /** Whether the database fails now, as it may while there are faults left. */
    method Fails() returns (broken: bool)
      modifies this`faults
      ensures if broken then faults < old(faults) else faults == old(faults)
    {
      broken := *;
      broken := broken && faults > 0;
      if broken {
        faults := faults - 1;
      }
    }

    /** Deletes rows, and records the moment. */
    method Keep(gone: Row -> bool) returns (none: bool)
      requires Valid()
      modifies this`rows, this`past
      ensures Valid() && past == old(past) + [Now()]
      ensures forall x :: x in rows <==> x in old(rows) && !gone(x)
      ensures none <==> forall x :: x in old(rows) ==> !gone(x)
    {
      hide Evolves;
      none := forall x | x in rows :: !gone(x);
      PresentIsProper(past);
      KeepingIsUnique(rows, gone);
      rows := Keeping(rows, gone);
      EvolvesOn(past, Now());
      past := past + [Now()];
    }

    method CreateUser(name: string) returns (r: Option<Failure>)
      requires Valid()
      modifies this`faults, this`users
      ensures Valid() && (r == None || r == Some(Exists) || r == Some(Database))
      ensures users == if r == None then old(users) + {name} else old(users)
      ensures r != Some(Database) ==> (r == Some(Exists) <==> name in old(users))
      ensures if r == Some(Database) then faults < old(faults) else faults == old(faults)
    {
      hide Evolves;
      var broken := Fails();
      if broken {
        return Some(Database);
      }
      if name in users {
        return Some(Exists);
      }
      users := users + {name};
      r := None;
    }

    /** Deletes the user with all their peers. */
    method DeleteUser(name: string) returns (r: Option<Failure>)
      requires Valid()
      modifies this`faults, this`users, this`rows, this`past
      ensures Valid() && (r == None || r == Some(NotFound) || r == Some(Database))
      ensures if r == None then past == old(past) + [Now()] else past == old(past)
      ensures users == if r == None then old(users) - {name} else old(users)
      ensures r != Some(Database) ==> (r == Some(NotFound) <==> name !in old(users))
      ensures forall x :: x in rows <==> x in old(rows) && (r == None ==> x.user != name)
      ensures if r == Some(Database) then faults < old(faults) else faults == old(faults)
    {
      hide Evolves;
      var broken := Fails();
      if broken {
        return Some(Database);
      }
      if name !in users {
        return Some(NotFound);
      }
      var none := Keep((x: Row) => x.user == name);
      users := users - {name};
      r := None;
    }

    /** Stores a peer under a fresh key, at the least free address. The database may fail before
        anything is read, and when the row is written. */
    method AddPeer(user: string, device: string, profile: string, subnet: Subnet, key: Key)
      returns (r: Result<Row, Failure>)
      requires Valid() && key !in issued
      modifies this`faults, this`rows, this`issued, this`past
      ensures Valid()
      ensures r.Ok? ==>
                && rows == old(rows) + [r.value] && issued == old(issued) + {key} && past == old(past) + [Now()]
                && r.value == Row(user, device, profile, key, r.value.ip)
                && Assignable(subnet, r.value.ip)
                && forall b: Addr :: Assignable(subnet, b) && (forall x :: x in old(rows) ==> x.ip != b) ==>
                    r.value.ip <= b
      ensures r.Err? ==> Now() == old(Now()) && past == old(past)
      ensures r != Err(Database) ==> (r == Err(NotFound) <==> user !in users)
      ensures r != Err(Database) ==>
                (r == Err(SubnetFull) <==>
                 user in users && forall b: Addr :: Assignable(subnet, b) ==> exists x :: x in old(rows) && x.ip == b)
      ensures r != Err(Database) ==>
                (r == Err(Exists) <==>
                 && user in users && (exists b: Addr :: Assignable(subnet, b) && forall x :: x in old(rows) ==>
                                      x.ip != b)
                 && exists x :: x in old(rows) && x.user == user && x.device == device && x.profile == profile)
      ensures if r == Err(Database) then faults < old(faults) else faults == old(faults)
    {
      hide Evolves, Unique, Assignable;
      var broken := Fails();
      if broken {
        return Err(Database);
      }
      if user !in users {
        return Err(NotFound);
      }
      var used := set x | x in rows :: x.ip;
      var ip := FirstFree(subnet, used);
      assert forall x :: x in rows ==> x.ip in used;
      if ip == None {
        return Err(SubnetFull);
      }
      assert Assignable(subnet, ip.value) && ip.value !in used;
      broken := Fails();
      if broken {
        return Err(Database);
      }
      if exists x :: x in rows && x.user == user && x.device == device && x.profile == profile {
        return Err(Exists);
      }
      var row := Row(user, device, profile, key, ip.value);
      StoredOn(past, Now(), row);
      rows := rows + [row];
      issued := issued + {key};
      past := past + [Now()];
      r := Ok(row);
    }

    method DeletePeer(user: string, device: string, profile: string) returns (r: Option<Failure>)
      requires Valid()
      modifies this`faults, this`rows, this`past
      ensures Valid() && (r == None || r == Some(NotFound) || r == Some(Database))
      ensures if r == Some(Database) then Now() == old(Now()) && past == old(past) else past == old(past) + [Now()]
      ensures var gone := (x: Row) => x.profile == profile && x.device == device && x.user == user;
              r != Some(Database) ==>
                && (forall x :: x in rows <==> x in old(rows) && !gone(x))
                && (r == Some(NotFound) <==> forall x :: x in old(rows) ==> !gone(x))
      ensures if r == Some(Database) then faults < old(faults) else faults == old(faults)
    {
      hide Evolves;
      var broken := Fails();
      if broken {
        return Some(Database);
      }
      var none := Keep((x: Row) => x.profile == profile && x.device == device && x.user == user);
      r := if none then Some(NotFound) else None;
    }

    /** Deletes every profile of one of the user's devices. */
    method DeleteDevice(user: string, device: string) returns (r: Option<Failure>)
      requires Valid()
      modifies this`faults, this`rows, this`past
      ensures Valid() && (r == None || r == Some(NotFound) || r == Some(Database))
      ensures if r == Some(Database) then Now() == old(Now()) && past == old(past) else past == old(past) + [Now()]
      ensures var gone := (x: Row) => x.device == device && x.user == user;
              r != Some(Database) ==>
                && (forall x :: x in rows <==> x in old(rows) && !gone(x))
                && (r == Some(NotFound) <==> forall x :: x in old(rows) ==> !gone(x))
      ensures if r == Some(Database) then faults < old(faults) else faults == old(faults)
    {
      hide Evolves;
      var broken := Fails();
      if broken {
        return Some(Database);
      }
      var none := Keep((x: Row) => x.device == device && x.user == user);
      r := if none then Some(NotFound) else None;
    }
  }

  lemma PresentIsProper(past: seq<Moment>)
    requires Evolves(past) && past != []
    ensures Proper(past[|past| - 1])
  {
    hide Proper, Follows;
  }

  /** A row at a free place and address under a fresh key. */
  lemma StoredOn(past: seq<Moment>, now: Moment, row: Row)
    requires Evolves(past) && past != [] && past[|past| - 1] == now && row.key !in now.issued
    requires forall x :: x in now.rows ==>
               x.ip != row.ip && (x.user != row.user || x.device != row.device || x.profile != row.profile)
    ensures Evolves(past + [Moment(now.rows + [row], now.issued + {row.key})])
  {
    hide Evolves, Unique;
    PresentIsProper(past);
    UniqueSnoc(now.rows, row);
    EvolvesOn(past, Moment(now.rows + [row], now.issued + {row.key}));
  }

  lemma UniqueSnoc(rows: seq<Row>, row: Row)
    requires Unique(rows)
    requires forall x :: x in rows ==>
               && x.key != row.key && x.ip != row.ip
               && (x.user != row.user || x.device != row.device || x.profile != row.profile)
    ensures Unique(rows + [row])
  {
  }

  // ---------------------------------------------------------------- What the daemon relies on

  function Listed(rows: seq<Row>): (peers: seq<DaemonState.Peer>)
    ensures |peers| == |rows|
    ensures forall i :: 0 <= i < |rows| ==> peers[i] == DaemonState.Peer(rows[i].key, rows[i].ip, rows[i].profile)
  {
    seq(|rows|, i requires 0 <= i < |rows| => DaemonState.Peer(rows[i].key, rows[i].ip, rows[i].profile))
  }

  /** The passes among the events were told what was stored when they came: event `n` at moment `at[n]`.
      Any number of moments may lie between two events, and any probes and reloads between two passes. */
  ghost predicate Told(ms: seq<Moment>, at: seq<nat>, events: seq<Lifecycle.Event>) {
    && |at| == |events|
    && (forall n :: 0 <= n < |at| ==> at[n] < |ms|)
    && (forall m, n :: 0 <= m < n < |at| ==> at[m] <= at[n])
    && (forall n :: 0 <= n < |at| && events[n].Pass? ==> events[n].rows == Listed(ms[at[n]].rows))
  }

  lemma {:induction false} IssuedGrows(ms: seq<Moment>, i: nat, n: nat)
    requires Evolves(ms) && i <= n < |ms|
    ensures ms[i].issued <= ms[n].issued
    decreases n
  {
    if i < n {
      IssuedGrows(ms, i, n - 1);
      assert Follows(ms[n - 1], ms[n - 1 + 1]);
    }
  }

  /** A row whose key was in use before was there before. */
  lemma {:induction false} WasThere(ms: seq<Moment>, i: nat, n: nat, r: Row)
    requires Evolves(ms) && i <= n < |ms| && r in ms[n].rows && r.key in ms[i].issued
    ensures r in ms[i].rows
    decreases n
  {
    if i < n {
      IssuedGrows(ms, i, n - 1);
      assert Follows(ms[n - 1], ms[n - 1 + 1]);
      WasThere(ms, i, n - 1, r);
    }
  }

  lemma ListedRow(rows: seq<Row>, p: DaemonState.Peer) returns (r: Row)
    requires p in Listed(rows)
    ensures r in rows && p == DaemonState.Peer(r.key, r.ip, r.profile)
  {
    var i :| 0 <= i < |rows| && Listed(rows)[i] == p;
    r := rows[i];
  }

  /** What the daemon is told by such a store, whatever else happens between, is the kind of history it
      relies on. With `Store.Valid` it applies to everything a store has been through. */
  lemma StoreHistory(ms: seq<Moment>, at: seq<nat>, events: seq<Lifecycle.Event>)
    requires Evolves(ms) && Told(ms, at, events)
    requires forall n :: 0 <= n < |events| && events[n].NewConfig? ==>
               DaemonState.DistinctConfs(events[n].config.upstreams)
    ensures Lifecycle.GoodHistory(events)
  {
    hide Evolves, DaemonState.DistinctConfs;
    forall n | 0 <= n < |events| && events[n].Pass?
      ensures forall i, j :: 0 <= i < j < |events[n].rows| ==>
                events[n].rows[i].key != events[n].rows[j].key && events[n].rows[i].ip != events[n].rows[j].ip
    {
      MomentIsProper(ms, at[n]);
    }
    forall n, p | 0 <= n < |events| && events[n].Pass? && p in events[n].rows
      ensures !Lifecycle.Vanished(events, n, p.key)
    {
      forall i, j | 0 <= i < j < n && Lifecycle.Lists(events[i], p.key) && events[j].Pass?
        ensures Lifecycle.Lists(events[j], p.key)
      {
        KeyStays(ms, at[i], at[j], at[n], p);
      }
    }
    forall n, p, q | 0 <= n < |events| && events[n].Pass? && p in events[n].rows && Lifecycle.Seen(events, n, q) &&
      p.key == q.key
      ensures p == q
    {
      var i :| 0 <= i < n && events[i].Pass? && q in events[i].rows;
      RowStays(ms, at[i], at[n], p, q);
    }
  }

  lemma MomentIsProper(ms: seq<Moment>, i: nat)
    requires Evolves(ms) && i < |ms|
    ensures Proper(ms[i])
  {
  }

  lemma KeyStays(ms: seq<Moment>, i: nat, j: nat, n: nat, p: DaemonState.Peer)
    requires Evolves(ms) && i <= j <= n < |ms| && p in Listed(ms[n].rows) && p.key in Daemon.Keys(Listed(ms[i].rows))
    ensures p.key in Daemon.Keys(Listed(ms[j].rows))
  {
    var q :| q in Listed(ms[i].rows) && q.key == p.key;
    var r := ListedRow(ms[n].rows, p);
    var x := ListedRow(ms[i].rows, q);
    MomentIsProper(ms, i);
    IssuedGrows(ms, i, j);
    WasThere(ms, j, n, r);
    var k :| 0 <= k < |ms[j].rows| && ms[j].rows[k] == r;
    assert Listed(ms[j].rows)[k] in Listed(ms[j].rows);
  }

  lemma RowStays(ms: seq<Moment>, i: nat, n: nat, p: DaemonState.Peer, q: DaemonState.Peer)
    requires Evolves(ms) && i <= n < |ms| && p in Listed(ms[n].rows) && q in Listed(ms[i].rows) && p.key == q.key
    ensures p == q
  {
    var r := ListedRow(ms[n].rows, p);
    var x := ListedRow(ms[i].rows, q);
    MomentIsProper(ms, i);
    WasThere(ms, i, n, r);
    var a :| 0 <= a < |ms[i].rows| && ms[i].rows[a] == r;
    var b :| 0 <= b < |ms[i].rows| && ms[i].rows[b] == x;
    assert a == b;
  }
}
