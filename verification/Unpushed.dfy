/**
A reload whose `SetUpstreams` fails returns before health is pushed, so an upstream that was replaced can
keep the marks and pins of its predecessor. `DaemonState.ReplacedPins` says exactly when; here is one
such reload.
 */
module Unpushed {
  import opened Kernel
  import opened LinuxRules
  import opened Upstreams
  import opened LinuxDataplane
  import opened DaemonState
  import Uncovered
  import Health

  /** Upstream "b" of `Uncovered.Start`, which is up, and what takes its place once its file has changed. */
  function Old(): Upstream { Uncovered.Ups()[1] }

  function Fresh(): Upstream { Upstream(Old().conf, "B2", 104, 3, Health.New(3, 2)) }

  /** The old device is closed and the new one open. */
  function Reopened(): Control {
    var c := Uncovered.Start();
    c.(dp := c.dp.(k := Apply(Apply(c.dp.k, DeviceClose(1)), DeviceOpen(3, InterfaceName("b")))))
  }

  /** `SetUpstreams` now fails at its first query and so changes nothing. Everything else the daemon promises
      holds, but the upstream that has just been opened, whose health is unknown, counts as alive. */
  lemma FailedReloadLeavesMark()
    ensures var c, live := Reopened(), LiveOf(Uncovered.Ups())["b" := 3];
            && Dropping(Uncovered.Start(), c, {"b"}) && Sound(c, live) && Changed(c.dp, c.dp, Interfaces(live))
            && PinsKept(Uncovered.Start().dp, {}, Old()) && !PinsKept(c.dp, c.stale, Fresh())
  {
    hide *;
    var c, live, live' := Reopened(), LiveOf(Uncovered.Ups()), LiveOf(Uncovered.Ups()) - {"b"};
    Uncovered.StartIsSound();
    Uncovered.UpsLive();
    OnlyDevicesDiffer();
    MarkStays();
    assert live'["b" := 3] == live["b" := 3];
    DropKeepsSound(Uncovered.Start(), "b", live, {});
    DevicesKeepSound(Uncovered.Start(), c.dp.k, live');
    OpenKeepsSound(c, "b", 3, live');
    SoundIsGrounded(c, live["b" := 3]);
    ChangedNothing(c.dp, Interfaces(live["b" := 3]));
  }

  lemma OnlyDevicesDiffer()
    ensures var c0, c := Uncovered.Start(), Reopened();
            && Dropping(c0, c, {"b"}) && c0.stale == {}
            && c == c0.(dp := c0.dp.(k := c.dp.k)) && c == c0.(stale := {}).(dp := c.dp)
            && c.dp.k == c0.dp.k.(routes := c.dp.k.routes, devices := c.dp.k.devices) && c.dp.k.routes <= c0.dp.k.routes
            && forall a :: a in c0.assignments ==> c0.assignments[a] != "b"
  {
    hide InterfaceName;
    var c0 := Uncovered.Start();
    assert c0.assignments[7] == "a";
    DroppingStart(c0, {"b"});
    hide Dropping;
    DroppingDevices(c0, c0, Reopened().dp.k, {}, {"b"});
  }

  lemma MarkStays()
    ensures PinsKept(Uncovered.Start().dp, {}, Old()) && !PinsKept(Reopened().dp, {}, Fresh())
  {
    Uncovered.StartHealth();
    assert Old() in Uncovered.Ups();
    hide InterfaceName;
    assert Old().conf.name == "b" && InterfaceName("b") in Reopened().dp.alive;
  }

  lemma SoundIsGrounded(c: Control, live: Live)
    requires Sound(c, live)
    ensures GoodUps(c.dp)
  {
  }
}
