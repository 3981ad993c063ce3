/** Whole runs of the daemon: what holds from start to stop, and that passes converge. */
module Lifecycle {
  import opened Kernel
  import opened LinuxRules
  import opened Upstreams
  import opened LinuxDataplane
  import opened Effects
  import opened DaemonState
  import opened Daemon
  import Firewall

  // ---------------------------------------------------------------- Fail closed

  /**
   * Whatever the routing rules contain, a packet that gets out of the downstream link comes from an
   * authorised peer that is on the books and assigned, and leaves through an upstream; and one that
   * gets in is a reply to such a peer.
   */
  lemma FailClosed(c: Control, live: Live, p: Firewall.Forwarded)
    requires Sound(c, live) && Firewall.Judge("lm0", c.dp.k, p) == Firewall.Accept
    ensures p.iif == "lm0" ==>
              && p.ipv4 && p.src in c.dp.k.peers && p.src in c.assignments && Owned(c.peers, p.src)
              && p.oif in c.dp.k.marks && IsUpName(p.oif)
    ensures p.iif in c.dp.k.marks ==>
              p.oif == "lm0" && p.established && p.dst in c.assignments && Owned(c.peers, p.dst)
  {
    hide GoodDp, UniqueRoutes, Firewall.Judge, Booked, UpToDate, Synced;
    assert !IsUpName("lm0");
    Firewall.ForwardVerdict("lm0", c.dp.k, p);
  }

  /** If a packet can come in from the downstream link at all, because it is up and has a configured peer,
      one that gets out comes from an authorised source and leaves through an upstream. */
  ghost predicate FailsClosed(s: State) {
    forall p: Firewall.Forwarded ::
      s.lm0 == LinkUp && s.keys != {} && p.iif == "lm0" && Firewall.Judge("lm0", s, p) == Firewall.Accept ==>
        p.ipv4 && p.src in s.peers && IsUpName(p.oif)
  }

  lemma SafeFailsClosed(s: State)
    requires Safe(s)
    ensures FailsClosed(s)
  {
    hide Firewall.Judge, NamesDistinct;
    assert !IsUpName("lm0");
    forall p: Firewall.Forwarded
      | s.lm0 == LinkUp && s.keys != {} && p.iif == "lm0" && Firewall.Judge("lm0", s, p) == Firewall.Accept
      ensures p.ipv4 && p.src in s.peers && IsUpName(p.oif)
    {
      Firewall.ForwardVerdict("lm0", s, p);
    }
  }

  lemma AlwaysFailsClosed(init: State, log: seq<Op>)
    requires AlwaysSafe(init, log)
    ensures forall i :: 0 <= i <= |log| ==> FailsClosed(Exec(init, log[..i]))
  {
    hide Exec, FailsClosed, Safe;
    forall i | 0 <= i <= |log| ensures FailsClosed(Exec(init, log[..i])) {
      SafeFailsClosed(Exec(init, log[..i]));
    }
  }

  // ---------------------------------------------------------------- Convergence

  lemma StillGoodRows(rows: seq<Peer>, c: Control, c': Control)
    requires GoodRows(rows, c) && Booked(c')
    requires forall k :: k in c'.gone ==> k in c.gone || (k in c.peers && k !in Keys(rows))
    requires forall k :: k in c'.peers ==> (k in c.peers && c'.peers[k] == c.peers[k]) || c'.peers[k] in rows
    ensures GoodRows(rows, c')
  {
    forall p | p in rows ensures p.key !in c'.gone && (p.key in c'.peers ==> c'.peers[p.key] == p) {
      assert p.key in Keys(rows);
      assert forall q :: q in rows && q.key == p.key ==> q == p;
    }
  }

  /**
   * With store, health and configuration fixed and nothing in the way but faults, passes repeated until
   * one succeeds need at most one more than there are faults left. Then the device, the books and the
   * assignments are what they should be, and another pass makes no call to the dataplane.
   *
   * The kernel then routes an address exactly as it is assigned if and only if the address is not torn,
   * and each address that was torn meanwhile used up a fault of its own.
   */
  method Converge(d: Daemon, rows: seq<Peer>) returns (passes: nat)
    requires d.Running() && GoodRows(rows, d.Ctl()) && !Hindered(d.dp.View(), d.ups, d.cfg.profiles, rows)
    modifies d, d.dp, d.dp.host
    ensures d.Running() && d.ups == old(d.ups) && d.cfg == old(d.cfg)
    ensures 1 <= passes <= old(d.dp.host.faults) - d.dp.host.faults + 1
    ensures Converged(d.Ctl(), d.ups, d.cfg.profiles, rows) && GoodRows(rows, d.Ctl())
    ensures forall a: Addr :: InSync(d.Ctl(), a) <==> a !in d.torn
    ensures TornBy(old(d.torn), d.torn, old(d.dp.host.faults) - d.dp.host.faults)
    ensures CoverKept(d.dp.host.init, old(d.dp.host.log), d.dp.host.log, d.dp.tables)
    ensures d.dp.tables == old(d.dp.tables)
  {
    hide Daemon.Running, GoodRows, Converged, Obstructed, CoverKept, Unambiguous, Followed, InSync, TornBy, Refusing;
    ghost var dp0, log, torn := d.dp.View(), d.dp.host.log, d.torn;
    CoverStart(d.dp.host.init, log, d.dp.tables);
    NoneTorn(torn, torn, 0);
    passes := 0;
    var ok := false;
    while !ok
      invariant d.Running() && d.ups == old(d.ups) && d.cfg == old(d.cfg) && GoodRows(rows, d.Ctl())
      invariant d.dp.tables == dp0.tables
      invariant Unambiguous(d.dp.View()) <==> Unambiguous(dp0)
      invariant passes + d.dp.host.faults <= old(d.dp.host.faults) + (if ok then 1 else 0) && (ok ==> passes >= 1)
      invariant ok ==> Converged(d.Ctl(), d.ups, d.cfg.profiles, rows)
      invariant CoverKept(d.dp.host.init, log, d.dp.host.log, d.dp.tables)
      invariant TornBy(torn, d.torn, old(d.dp.host.faults) - d.dp.host.faults)
      decreases if ok then 0 else 1 + d.dp.host.faults
    {
      ghost var c, log1, faults1 := d.Ctl(), d.dp.host.log, d.dp.host.faults;
      ObstructedPass(dp0, d.dp.View(), d.ups, d.cfg.profiles, rows);
      ghost var listed, stuck;
      ok, listed, stuck := d.Reconcile(rows);
      passes := passes + 1;
      CoverOn(d.dp.host.init, log, log1, d.dp.host.log, d.dp.tables);
      TornOn(torn, c.torn, d.torn, old(d.dp.host.faults) - faults1, faults1 - d.dp.host.faults);
      d.RunningParts();
      StillGoodRows(rows, c, d.Ctl());
    }
    InSyncUnlessTorn(d, rows);
  }

  lemma InSyncUnlessTorn(d: Daemon, rows: seq<Peer>)
    requires d.Running() && Converged(d.Ctl(), d.ups, d.cfg.profiles, rows)
    ensures forall a: Addr :: InSync(d.Ctl(), a) <==> a !in d.torn
  {
    hide InSync, GoodDp, AlwaysSafe, Conserved, AllPinsKept, Settled, Booked, UpToDate, UniqueRoutes;
  }

  // ---------------------------------------------------------------- Whole runs

  datatype Event =
    | Pass(rows: seq<Peer>)
    | Probe(index: nat, success: bool, latency: int)
    | NewConfig(config: Config, files: Files)

  ghost predicate Lists(e: Event, k: Key) { e.Pass? && k in Keys(e.rows) }

  /** A listing before the n-th event had the row. */
  ghost predicate Seen(events: seq<Event>, n: nat, p: Peer) {
    exists i :: 0 <= i < n && i < |events| && events[i].Pass? && p in events[i].rows
  }

  /** A listing had the key, and a later one before the n-th event did not. */
  ghost predicate Vanished(events: seq<Event>, n: nat, k: Key) {
    exists i, j :: 0 <= i < j < n && j < |events| && Lists(events[i], k) && events[j].Pass? && !Lists(events[j], k)
  }

  /** What the store and `Validate` promise of a history: keys and addresses of a listing are unique, a
      row never changes, a key that was deleted never comes back, and names of upstreams are unique. */
  ghost predicate GoodHistory(events: seq<Event>) {
    && (forall n :: 0 <= n < |events| && events[n].Pass? ==>
          && (forall i, j :: 0 <= i < j < |events[n].rows| ==>
                events[n].rows[i].key != events[n].rows[j].key && events[n].rows[i].ip != events[n].rows[j].ip)
          && (forall p :: p in events[n].rows ==> !Vanished(events, n, p.key))
          && (forall p, q :: p in events[n].rows && Seen(events, n, q) && p.key == q.key ==> p == q))
    && (forall n :: 0 <= n < |events| && events[n].NewConfig? ==> DistinctConfs(events[n].config.upstreams))
  }

  ghost predicate Remembers(c: Control, events: seq<Event>, n: nat) {
    && (forall k :: k in c.peers ==> Seen(events, n, c.peers[k]))
    && (forall k :: k in c.gone ==> Vanished(events, n, k))
  }

  lemma HistoryFits(c: Control, events: seq<Event>, n: nat)
    requires GoodHistory(events) && Remembers(c, events, n) && Booked(c) && n < |events| && events[n].Pass?
    ensures GoodRows(events[n].rows, c)
  {
    hide Seen, Vanished;
  }

  lemma RemembersPass(c: Control, c': Control, events: seq<Event>, n: nat)
    requires Remembers(c, events, n) && Booked(c) && n < |events| && events[n].Pass?
    requires forall k :: k in c'.gone ==> k in c.gone || (k in c.peers && k !in Keys(events[n].rows))
    requires forall k :: k in c'.peers ==> (k in c.peers && c'.peers[k] == c.peers[k]) || c'.peers[k] in events[n].rows
    ensures Remembers(c', events, n + 1)
  {
    forall k | k in c'.gone ensures Vanished(events, n + 1, k) {
      if k !in c.gone {
        var i :| 0 <= i < n && events[i].Pass? && c.peers[k] in events[i].rows;
        assert Lists(events[i], k) && !Lists(events[n], k);
      }
    }
    forall k | k in c'.peers ensures Seen(events, n + 1, c'.peers[k]) {
    }
  }

  lemma RemembersOther(c: Control, c': Control, events: seq<Event>, n: nat)
    requires Remembers(c, events, n) && c'.peers == c.peers && c'.gone == c.gone
    ensures Remembers(c', events, n + 1)
  {
  }

  /** The daemon between two events. */
  datatype Snapshot = Snapshot(control: Control, ups: seq<Upstream>, unpushed: set<string>,
                               devices: map<DeviceId, string>)

  /** Everything the daemon promises between two events. */
  ghost predicate InOrder(s: Snapshot) {
    && DistinctUps(s.ups) && Sound(s.control, LiveOf(s.ups))
    && AllPinsKept(s.control.dp, s.control.stale + s.unpushed, s.ups)
    && s.devices.Keys == LiveOf(s.ups).Values
  }

  ghost function SnapshotOf(d: Daemon): Snapshot
    reads d, d.dp, d.dp.host
  {
    Snapshot(d.Ctl(), d.ups, d.unpushed, d.dp.host.s.devices)
  }

  lemma RunningInOrder(d: Daemon)
    requires d.Running()
    ensures InOrder(SnapshotOf(d)) && Booked(d.Ctl())
  {
    hide GoodDp, AlwaysSafe, AllPinsKept, Synced, UpToDate, UniqueRoutes, LiveOf;
    var live, devices := LiveOf(d.ups), d.dp.host.s.devices;
    forall id ensures id in devices <==> id in live.Values {
      if id in devices {
        var n :| n in live && live[n] == id;
      }
    }
  }

  /** One event. */
  method Handle(d: Daemon, e: Event, ghost events: seq<Event>, ghost n: nat)
    requires d.Running() && GoodHistory(events) && n < |events| && events[n] == e && Remembers(d.Ctl(), events, n)
    modifies d, d.dp, d.dp.host
    ensures d.Running() && Remembers(d.Ctl(), events, n + 1)
    ensures Continues(old(d.dp.host.log), d.dp.host.log)
    ensures !e.NewConfig? ==>
              && CoverKept(d.dp.host.init, old(d.dp.host.log), d.dp.host.log, d.dp.tables)
              && d.dp.tables == old(d.dp.tables)
    ensures Tended(old(d.dp.View())) ==> Tended(d.dp.View())
  {
    hide Tended, Daemon.Running, Remembers, Renewed, InOrder, CoverKept, Converged, Followed, Hindered, WiredUp,
      Continues,
      Unambiguous;
    ghost var c, log := d.Ctl(), d.dp.host.log;
    RunningLog(d);
    CoverStart(d.dp.host.init, log, d.dp.tables);
    CoverContinues(d.dp.host.init, log, log, d.dp.tables);
    d.RunningParts();
    match e {
      case Pass(rows) =>
        HistoryFits(c, events, n);
        hide GoodHistory, GoodRows;
        var ok;
        ghost var listed, stuck;
        ok, listed, stuck := d.Reconcile(rows);
        CoverContinues(d.dp.host.init, log, d.dp.host.log, d.dp.tables);
        StaysTended(d, c.dp, log);
        RemembersPass(c, d.Ctl(), events, n);
      case Probe(index, success, latency) =>
        hide GoodHistory;
        if index < |d.ups| {
          var ok := d.ProbeDone(index, success, latency);
          CoverContinues(d.dp.host.init, log, d.dp.host.log, d.dp.tables);
          StaysTended(d, c.dp, log);
        }
        RemembersOther(c, d.Ctl(), events, n);
      case NewConfig(config, files) =>
        var ok;
        ghost var reached;
        ok, reached := d.Reload(config, files);
        RemembersOther(c, d.Ctl(), events, n);
    }
  }

  lemma RunningLog(d: Daemon)
    requires d.Running()
    ensures d.dp.host.s == Exec(d.dp.host.init, d.dp.host.log) && AddsNamed(d.dp.host.log)
  {
    hide GoodDp, Sound, Conserved, AllPinsKept, Exec, AddsNamed;
  }

  /** Passes and probes only ever add rules of this program. */
  lemma StaysTended(d: Daemon, dp: Dp, log: seq<Op>)
    requires d.Running() && dp.k == Exec(d.dp.host.init, log) && dp.tables == d.dp.tables
    requires Continues(log, d.dp.host.log)
    ensures Tended(dp) ==> Tended(d.dp.View())
  {
    hide Tended, Daemon.Running, Exec, AddsNamed;
    RunningLog(d);
    if Tended(dp) {
      TendedOn(d.dp.host.init, log, d.dp.host.log, dp, d.dp.View());
    }
  }

  ghost predicate NoReload(events: seq<Event>, n: nat) {
    n <= |events| && forall i :: 0 <= i < n ==> !events[i].NewConfig?
  }

  /**
   * A whole run: start, any events, stop, with any failures. In every state of the host from first to
   * last, a downstream link that is up and has a configured peer is behind the firewall, packets get out
   * of it only from authorised sources and through upstreams, and no two open devices share a name;
   * between any two events the daemon is in order; in the end every device that was opened has been closed
   * exactly once.
   *
   * `first` and `last` are the logs when starting ended and when stopping began. Unless the
   * configuration was reloaded, everyone authorised has a plain rule in every state in between.
   */
  method Run(d: Daemon, files: Files, events: seq<Event>)
    returns (started: bool, ghost snaps: seq<Snapshot>, ghost first: seq<Op>, ghost last: seq<Op>)
    requires d.Fresh() && DistinctConfs(d.cfg.upstreams) && GoodHistory(events)
    modifies d, d.dp, d.dp.host
    ensures Continues(old(d.dp.host.log), first) && Continues(first, last) && Continues(last, d.dp.host.log)
    ensures AlwaysSafe(d.dp.host.init, d.dp.host.log)
    ensures forall i :: 0 <= i <= |d.dp.host.log| ==> FailsClosed(Exec(d.dp.host.init, d.dp.host.log[..i]))
    ensures started ==> |snaps| == |events| + 1
    ensures forall s :: s in snaps ==> InOrder(s) && Tended(s.control.dp) && Unambiguous(s.control.dp)
    ensures started && NoReload(events, |events|) ==>
              && |first| <= |last|
              && forall i :: |first| <= i <= |last| ==> Covered(Exec(d.dp.host.init, last[..i]), d.dp.tables)
    ensures d.dp.host.s.lm0 == Absent && d.dp.host.s.devices == map[]
    ensures forall id: DeviceId :: id in d.closed <==> id < d.nextDevice
    ensures forall i, j :: 0 <= i < j < |d.closed| ==> d.closed[i] != d.closed[j]
  {
    hide Daemon.Fresh, Daemon.Running, Daemon.Stoppable, GoodHistory, Remembers, InOrder, AlwaysSafe, WiredUp,
      DistinctConfs, Continues, FailsClosed, CoverKept, Covered, Exec, Tended, Unambiguous;
    snaps := [];
    started := d.Start(files);
    first, last := d.dp.host.log, d.dp.host.log;
    ContinuesStart(first);
    if started {
      RemembersNothing(d.Ctl(), events);
      RunningInOrder(d);
      TendedIsUnambiguous(d.dp.View());
      snaps := [SnapshotOf(d)];
      CoverStart(d.dp.host.init, first, d.dp.tables);
      NobodyYet(d);
      for n := 0 to |events|
        invariant d.Running() && Remembers(d.Ctl(), events, n) && |snaps| == n + 1
        invariant Tended(d.dp.View())
        invariant forall s :: s in snaps ==> InOrder(s) && Tended(s.control.dp) && Unambiguous(s.control.dp)
        invariant Continues(first, d.dp.host.log)
        invariant NoReload(events, n) ==>
                    && CoverKept(d.dp.host.init, first, d.dp.host.log, d.dp.tables)
                    && Covered(Exec(d.dp.host.init, first), d.dp.tables)
      {
        ghost var log := d.dp.host.log;
        Handle(d, events[n], events, n);
        ContinuesOn(first, log, d.dp.host.log);
        if NoReload(events, n + 1) {
          assert NoReload(events, n);
          CoverOn(d.dp.host.init, first, log, d.dp.host.log, d.dp.tables);
        }
        RunningInOrder(d);
        TendedIsUnambiguous(d.dp.View());
        snaps := snaps + [SnapshotOf(d)];
      }
      d.RunningIsStoppable();
      last := d.dp.host.log;
      if NoReload(events, |events|) {
        CoveredBetween(d.dp.host.init, first, last, d.dp.tables);
      }
    }
    var clean := d.Stop();
    AlwaysFailsClosed(d.dp.host.init, d.dp.host.log);
  }

  lemma CoveredBetween(init: State, first: seq<Op>, last: seq<Op>, tables: Tables)
    requires CoverKept(init, first, last, tables) && Covered(Exec(init, first), tables)
    ensures |first| <= |last| && forall i :: |first| <= i <= |last| ==> Covered(Exec(init, last[..i]), tables)
  {
    hide Covered, Exec;
  }

  lemma NobodyYet(d: Daemon)
    requires d.Running() && d.devicePeers == map[]
    ensures Covered(Exec(d.dp.host.init, d.dp.host.log), d.dp.tables)
  {
    hide GoodDp, AlwaysSafe, AllPinsKept, Synced, UpToDate, UniqueRoutes, LiveOf, Conserved, Exec, Booked;
    assert d.dp.host.s == Exec(d.dp.host.init, d.dp.host.log);
  }

  lemma RemembersNothing(c: Control, events: seq<Event>)
    requires c.peers == map[] && c.gone == {}
    ensures Remembers(c, events, 0)
  {
  }
}
