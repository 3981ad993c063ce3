# Lotsman: verification of the routing control plane

Lotsman terminates users' AmneziaWG tunnels on one downstream link (`lm0`) and sends each user's
traffic out through one of several upstream tunnels. A daemon keeps the peers of the downstream
device in step with its store and the kernel's routing in step with the health of the upstreams; a
dataplane turns its decisions into policy rules, routing tables and nftables state. This project
models both layers as they change state step by step, with every operation able to fail, and proves
what the design promises: traffic never leaves unauthorised or outside a tunnel, flows keep their
upstream when their peer moves, failed cleanups are never forgotten, and passes converge.

`dafny verify dfyconfig.toml` checks everything.

## How it is organised

| file | subject |
|---|---|
| `Kernel.dfy` | the host: ordered rule list, routes, firewall state, links, devices; one operation at a time, each failing or taking effect as a whole, with a log of what took effect |
| `LinuxRules.dfy`, `RouteSteps.dfy`, `Upstreams.dfy`, `LinuxDataplane.dfy` | the Linux dataplane, and every intermediate kernel state of its calls |
| `Firewall.dfy` | the forward chain as a verdict |
| `Fake.dfy`, `Refinement.dfy` | the in-memory dataplane, the refinement between the two, flow continuity |
| `Retry.dfy`, `Uncovered.dfy`, `Unpushed.dfy` | where the code does less than its contract, with exact conditions |
| `Effects.dfy`, `DaemonState.dfy`, `Daemon.dfy`, `Lifecycle.dfy` | the daemon, its invariant, its passes, reloads, start and stop, whole runs |
| `Policy.dfy`, `Health.dfy` | selection and hysteresis |
| `Identity.dfy` | drawing and publishing the downstream identity |
| `Text.dfy`, `Decimal.dfy`, `Keys.dfy`, `Address.dfy`, `Params.dfy`, `AwgConf.dfy`, `AwgConfText.dfy`, `Layout.dfy` | AmneziaWG configuration files |
| `Wire.dfy`, `Load.dfy` | sizes on the wire, acceptance of provider files, the client MTU |
| `Store.dfy` | users, peers and address allocation |

The kernel is a value (`Kernel.State`) held by an object (`Kernel.Host`) with a budget of faults and a
ghost log of the operations that took effect. Whatever an operation or a query could do, it may also
fail and change nothing as long as the budget lasts, so what is proved holds for every failure
schedule. A dataplane call is proved to carry out a prefix of a list of operations computed from the
state it finds; lemmas about every prefix then speak of every intermediate kernel state, failing or
not. The daemon is a class over the dataplane class; its invariant is a predicate on a value
(`DaemonState.Control`) that joins what the daemon remembers with what is in the kernel.

## Model

| member | source | states |
|---|---|---|
| LinuxDataplane.Dataplane.Route | internal/dataplane/linux/linux.go:418-457 | carries out a prefix of the move's operations, all of it when nil is returned, and then the state is exactly that of the complete move; a failure leaves the authorised set alone and has used up a fault unless one of our probe rules is ambiguous |
| LinuxDataplane.Dataplane.Unroute | internal/dataplane/linux/linux.go:459-479 | the same for revoking a peer and then deleting its rules |
| LinuxDataplane.Dataplane.Authorize | internal/dataplane/linux/linux.go:481-506 | the remembered set changes exactly when the kernel set does, and no operation is made if it already is as wanted |
| LinuxDataplane.Dataplane.SetAlive | internal/dataplane/linux/linux.go:508-529 | the mark is set even when dropping pins fails; on success the dead upstream has lost exactly its pins |
| LinuxDataplane.Dataplane.ListOwnRules | internal/dataplane/linux/linux.go:312-330 | lists, in kernel order, exactly the rules this program installs that are about the tables of its upstreams and no other interface; refuses exactly if the selectors of one of its probe rules match another rule as well |
| LinuxDataplane.Dataplane.ListRulesFor | internal/dataplane/linux/linux.go:636-648 | exactly the peer's plain and pin rules of ours, in order |
| LinuxDataplane.Dataplane.AllocateTable | internal/dataplane/linux/linux.go:191-223 | the least table of the range that no route, rule or upstream uses; an error without a fault means there is none |
| LinuxDataplane.Dataplane.AddDefaultRoute | internal/dataplane/linux/linux.go:146-164 | on success the table leaves through the link and nothing else was changed; a foreign default route is never replaced; it fails exactly if a fault is used up or the table has a default route and also a route that is not this one |
| LinuxDataplane.Dataplane.AddUpstream | internal/dataplane/linux/linux.go:116-144 | a known upstream keeps its table, a new one gets a table that held nothing; nothing but its route and probe rule is added, and on success both are there; it fails only by a fault, such a route in the table it had, or if it had none and none is free |
| LinuxDataplane.Dataplane.FlushTable | internal/dataplane/linux/linux.go:399-416 | only default routes over upstream interfaces in that table go, and on success all of them |
| LinuxDataplane.Dataplane.RemoveUpstream | internal/dataplane/linux/linux.go:166-189 | only our rules and routes at its table go; it is forgotten only once all are gone; an ambiguous probe rule leaves everything as it was |
| LinuxDataplane.Dataplane.SetUpstreams | internal/dataplane/linux/linux.go:86-111 | at any failure point kept upstreams keep their tables and peer rules; on success exactly the wanted upstreams have a table, lead out through it, are probed and stamp with it, and no peer rule is left for a dropped one; on the way it authorises and revokes nobody and deletes only rules of tables of dropped upstreams; unless a fault is used up it fails only if, told from the state before, there are fewer free tables than new upstreams, a wanted upstream's table has a default route and another's route, or an upstream has to go and a probe rule could not be told from another |
| LinuxDataplane.Dataplane.RemoveLeftovers | internal/dataplane/linux/linux.go:361-396 | deletes only what this program installs, and nothing in or about a table with a route of other software, nor a probe rule of another interface than its table's routes have; if it succeeds, all the rest of what this program installs is gone; it fails only by a fault, or, with nothing changed, if a probe rule it would delete matches another rule as well |
| LinuxDataplane.Dataplane.InstallFirewall | internal/dataplane/linux/linux.go:667-774 | on success the remembered set agrees with the kernel's, both empty, and every upstream stamps with its table; it fails only by a fault |
| LinuxDataplane.Dataplane.Setup | internal/dataplane/linux/linux.go:65-84 | safe in every intermediate state; on success every upstream is wired and probed, no pin or peer rule is left in the table of an upstream, and nobody is authorised; whatever becomes of it, what is not this program's or is disputed stays, and on success all that is there besides is what it has added; it fails only by a fault, without a downstream link, because of an ambiguous leftover, or if fewer tables can be had than there are upstreams |
| LinuxDataplane.Dataplane.Teardown | internal/dataplane/linux/linux.go:540-578 | ingress stops first, and if it cannot be stopped nothing changes; only our rules and routes ever go, none of them while a probe rule is ambiguous; success leaves no firewall, none of our rules and none of our routes; it fails only by a fault or an ambiguous listing |
| LinuxDataplane.Dataplane.CleanUp | internal/dataplane/linux/linux.go:559-570 | carries on past failures; only our own rules and routes go, and on success all of them; it fails only by a fault |
| LinuxRules.OursAreInstalled | internal/dataplane/linux/linux.go:277-310 | the rules taken for the program's own are exactly those it installs: pin and peer rules, and probe rules with the name of an upstream interface or, as they once were, without one |
| LinuxRules.OwnAreHeld | internal/dataplane/linux/linux.go:312-330 | of these, an instance lists exactly those about the table of one of its upstreams that do not name the interface of another |
| LinuxRules.LeftoversAreInstalled | internal/dataplane/linux/linux.go:364-375 | what counts as left behind: exactly what the program installs, unless a route in its table is not the program's or has another interface than the rule |
| LinuxRules.OwnedTablesHoldNoAlien | internal/dataplane/linux/linux.go:259-275 | a table may be cleaned exactly if it is in the range and has no route but default routes without gateway over upstream interfaces |
| LinuxRules.AmbiguousMatches | internal/dataplane/linux/linux.go:330-343 | a probe rule is ambiguous exactly if its selectors match another rule |
| LinuxRules.SeparateIsUnambiguous | internal/dataplane/linux/linux.go:312-343 | a listing is refused exactly if some probe rule that would be listed matches another rule |
| LinuxRules.WhenSeparate | internal/dataplane/linux/linux.go:330-343 | nothing is ambiguous exactly if no rule of other software extends a probe rule and no probe rule without interface stands beside another probe rule of its address and table; so two addresses of one upstream never are |
| Upstreams.AlienTablesStay | internal/dataplane/linux/linux.go:361-396 | a table with a route of other software keeps all its routes and all rules about it |
| Upstreams.FreeIsIdle | internal/dataplane/linux/linux.go:191-223 | the free tables are those of 1000 to 1099 that no upstream has and that no route and no rule is about |
| Upstreams.GrewSeparate | internal/dataplane/linux/linux.go:116-144 | adding upstreams makes no listing refuse, unless a new probe rule comes beside a rule it cannot be told from |
| LinuxDataplane.TendedIsUnambiguous | internal/dataplane/linux/linux.go:312-343 | while all rules about the tables of the upstreams are the program's own, no listing is refused |
| LinuxDataplane.TendedChange | internal/dataplane/linux/linux.go:86-111 | a change of the upstreams, failed or not, keeps it so |
| LinuxRules.DeletionIsExact | internal/dataplane/linux/linux.go:332-343 | the selectors of an unambiguous rule of ours select that rule and no other |
| Upstreams.DeleteOne | internal/dataplane/linux/linux.go:384-389 | with some listed rules gone, deleting another takes that rule and no other |
| RouteSteps.RouteMakesBeforeBreak | internal/dataplane/linux/linux.go:418-457 | after every prefix of a move, hence in every kernel state on the way and after every failure, any peer that had a plain rule has one |
| RouteSteps.UnrouteMakesBeforeBreak | internal/dataplane/linux/linux.go:463-479 | after every prefix of a cleanup, whoever is still authorised keeps a plain rule |
| RouteSteps.RouteStep | internal/dataplane/linux/linux.go:453-456 | access is granted by the last operation: every proper prefix leaves the authorised set alone |
| RouteSteps.RouteBodyStep | internal/dataplane/linux/linux.go:427-455 | every prefix leaves other peers and probes untouched, gives pins to alive upstreams only, and changes plain rules only once the new one is there |
| RouteSteps.UnrouteStep | internal/dataplane/linux/linux.go:463-479 | access is revoked by the first operation, only the peer's rules go, and the complete call leaves none in an upstream table |
| RouteSteps.UnpinStep | internal/dataplane/linux/linux.go:508-529 | every prefix removes only pins to the dead upstream, the complete list all of them |
| RouteSteps.PlainsAfterRoute | internal/dataplane/linux/linux.go:427-455 | which plain rules a completed move leaves: only the new one, unless the new one was there before, when all stay |
| RouteSteps.PinsAfterRoute | internal/dataplane/linux/linux.go:431-447 | which pins a completed move leaves: never one to the new upstream, and new ones exactly for alive upstreams left behind |
| RouteSteps.RoutePossible | internal/dataplane/linux/linux.go:418-457 | in every intermediate state the next operation can succeed, so only faults make a move fail |
| RouteSteps.UnroutePossible | internal/dataplane/linux/linux.go:463-479 | the same for a cleanup |
| RouteSteps.UnpinPossible | internal/dataplane/linux/linux.go:517-527 | the same for dropping pins |
| Fake.Dataplane.SetUpstreams | internal/dataplane/fake/fake.go:37-43 | only the set of upstreams changes |
| Fake.Dataplane.Route | internal/dataplane/fake/fake.go:45-63 | the map update: the old route becomes a pin if its upstream is alive, the new upstream has none |
| Fake.Dataplane.SetAlive | internal/dataplane/fake/fake.go:65-76 | the map update: a dead upstream loses all pins |
| Fake.Dataplane.Unroute | internal/dataplane/fake/fake.go:85-92 | the map update: route and pins of the peer go |
| Refinement.AbsSimulates | internal/dataplane/fake/fake.go:14-23 | a kernel stands for maps exactly when no peer has two plain rules |
| Refinement.RouteRefines | internal/dataplane/linux/linux.go:418-457 | a move that returns nil is the map update |
| Refinement.UnrouteRefines | internal/dataplane/linux/linux.go:463-479 | a cleanup that returns nil is the map update |
| Refinement.SetAliveRefines | internal/dataplane/linux/linux.go:508-529 | pushing health successfully is the map update |
| Refinement.SetupRefines | internal/dataplane/linux/linux.go:65-84 | the base case: what a successful setup leaves is wired and stands for maps without routes, pins and health |
| Refinement.ChangeRefines | internal/dataplane/linux/linux.go:86-111 | a completed change of the upstreams is the map update that forgets exactly what belongs to upstreams that are gone, and leaves all wired |
| Refinement.FakeForgetsNothing | internal/dataplane/fake/fake.go:37-43 | the fake's own update forgets nothing, so the two agree if and only if nothing belongs to an upstream that is gone |
| Refinement.AlwaysStanding | internal/dataplane/linux/linux.go:65-111 | from a successful setup on, wherever successful calls lead, changes of the upstreams included, the kernel is wired and stands for maps with sound pins |
| Refinement.RunRefines | internal/dataplane/fake/fake.go:45-92 | after any sequence of successful calls the kernel still stands for the maps, no pin points at a current route, and every pin points at an alive upstream |
| Refinement.LookupResolves | internal/dataplane/linux/linux.go:606-633 | packets of a pinned flow go to the pinned table, all others of the peer to its route |
| Refinement.FlowContinuity | docs/ARCHITECTURE.md:107-119 | a flow stamped when it left through an upstream keeps resolving to it through any sequence of successful calls that neither marks it dead nor unroutes the peer, while new flows follow the last route |
| Refinement.FlowAcrossChanges | docs/ARCHITECTURE.md:107-119 | the same over any successful calls including changes of the upstreams, as long as neither its upstream nor the one its peer is routed to is dropped |
| Retry.RouteMovesUnmarked | internal/dataplane/linux/linux.go:427-456 | a move that returns nil moves new flows if and only if the new plain rule was not there before or they went there already |
| Retry.RetryLeavesOldRoute | internal/dataplane/linux/linux.go:451-455 | for every peer with one plain rule: a move that fails deleting it, retried, returns nil, leaves both plain rules, and new flows keep the old upstream |
| Uncovered.FailedMoveIsSound | internal/daemon/daemon.go:477-483 | a move may fail behind any operation but its last, and the daemon's invariant holds afterwards |
| Uncovered.FirstFailure | internal/dataplane/linux/linux.go:451-455 | for every peer with one plain rule, a move that fails at its first deletion leaves exactly the old and the new plain rule, the old one in front |
| Uncovered.SecondFailure | internal/dataplane/linux/linux.go:451-455 | a move to a third upstream that then fails at its second deletion has deleted the first upstream's plain rule and leaves those of the two others |
| Uncovered.StrayedIsSound | internal/daemon/daemon.go:477-483 | after both failures all the daemon promises holds, and the peer has plain rules of exactly the two upstreams it is not assigned to |
| Uncovered.ReloadUncovers | internal/daemon/daemon.go:271-279 | whatever else a reload does that keeps the peer's own upstream, drops the two others and is taken by the dataplane, the peer stays authorised, assigned and not pending, and has no plain rule |
| Uncovered.PeerIsUncovered | internal/daemon/daemon.go:234-314 | for every authorised peer that is routed as assigned, with two more upstreams nobody is assigned to, such a state is reached with the invariant intact |
| Uncovered.StartIsSound | internal/daemon/daemon.go:144-178 | a daemon with three upstreams up, open devices and one routed peer is one this applies to |
| Firewall.ForwardVerdict | internal/dataplane/linux/linux.go:741-753 | from the downstream link exactly IPv4 packets of authorised sources that leave through an upstream pass; from an upstream exactly established replies to authorised peers |
| Effects.RouteCovers | internal/dataplane/linux/linux.go:418-457 | if everyone authorised had a plain rule before a move, so it is in every state the move passes through |
| Effects.UnrouteCovers | internal/dataplane/linux/linux.go:463-479 | the same for a cleanup |
| Effects.SparingHolds | internal/dataplane/linux/linux.go:86-111 | in every state such a change of the upstreams passes through, whoever is authorised was so before and still has every plain rule of a kept table they had then |
| Effects.UnrouteHolds | internal/dataplane/linux/linux.go:459-479 | the same for a cleanup and all tables |
| Effects.AmbiguityIgnoresPeerRules | internal/dataplane/linux/linux.go:332-343 | moves and cleanups never make a listing refuse or stop refusing |
| DaemonState.RouteKeepsSound | internal/daemon/daemon.go:477-483 | the invariant survives a move, successful or not |
| DaemonState.RouteSyncs | internal/dataplane/linux/linux.go:427-456 | a move that returns nil leaves the kernel routing the address as assigned if and only if it found no plain rule of its target or none of another upstream; one that fails, if and only if the kernel did before and the new plain rule was not added |
| DaemonState.UnrouteKeepsSound | internal/daemon/daemon.go:488-496 | the invariant survives a cleanup, successful or not |
| DaemonState.DropKeepsSound | internal/daemon/daemon.go:304-314 | an upstream whose peers are all unrouted or pending can leave service: no assignment without unfinished cleanup refers to it any more |
| DaemonState.ChangeKeepsSound | internal/daemon/daemon.go:275-279 | the invariant survives a change of the set of upstreams at any failure point |
| DaemonState.ChangeSyncs | internal/dataplane/linux/linux.go:86-111 | after a completed change the kernel routes an address as assigned if and only if before it, at the kept upstreams, the address had the plain rule of its own upstream and no other |
| DaemonState.CarriedKeepsPins | internal/daemon/daemon.go:250-279 | an upstream that is carried over and held neither stale pins nor a wrong mark holds none after a change of the upstreams, failed or not |
| DaemonState.ReplacedPins | internal/daemon/daemon.go:256-279 | an upstream that was replaced, of which nothing was recorded as failed, starts with neither mark nor pins of its predecessor, before health is pushed, if and only if the predecessor was not up |
| DaemonState.ReloadKeepsPins | internal/daemon/daemon.go:234-279 | after any such change, no upstream in service holds stale pins or a wrong mark unless recorded as failed or among those whose health was not pushed, which the old upstreams, the configuration and the files determine |
| Unpushed.FailedReloadLeavesMark | internal/daemon/daemon.go:256-279 | a reload that replaces an upstream that is up and fails at the first query of `SetUpstreams` leaves the mark of the old one in place |
| DaemonState.BookKeepsSound | internal/daemon/daemon.go:434-444 | a new key may be added when its address is free on the books |
| DaemonState.ProfileIsFirstNamed | internal/config/config.go:195-202 | looking a profile up finds the first of its name, and nothing exactly if there is none |
| DaemonState.StrikeKeepsSound | internal/daemon/daemon.go:421-425 | a peer may be struck off when it is off the device and has neither assignment nor pending cleanup |
| DaemonState.AliveSetsPins | internal/daemon/daemon.go:384-398 | after pushing health, successful or recorded as failed, no pin to an upstream that is not up remains unrecorded |
| DaemonState.SoundIsCovered | internal/daemon/daemon.go:304-309 | an authorised peer without pending cleanup is routed exactly as assigned if and only if no torn move is left, and then has a plain rule |
| DaemonState.CoverInChange | internal/dataplane/linux/linux.go:86-111 | at any failure point of a change, an authorised peer that is not pending has a plain rule if one it had led to a kept upstream |
| DaemonState.CoverAfterChange | internal/dataplane/linux/linux.go:86-111 | after a completed change, an authorised peer that is not pending has a plain rule if and only if one it had led to a kept upstream |
| DaemonState.ReloadSpares | internal/daemon/daemon.go:229-300 | whoever is assigned to an upstream that is carried over keeps assignment, access, the plain rules of upstreams in service and the pins to those that are up, whatever fails |
| DaemonState.OpenConserves | internal/daemon/daemon.go:183-198 | opening under an unused name keeps open devices equal to those in service and interface names distinct |
| DaemonState.CloseConserves | internal/daemon/daemon.go:304-314 | closing keeps the same, and every device ever opened is open or closed exactly once |
| Daemon.Daemon.Unroute | internal/daemon/daemon.go:488-496 | on failure assignment and pending mark are kept, on success both go; the invariant holds either way |
| Daemon.Daemon.Route | internal/daemon/daemon.go:477-483 | never made for an address with unfinished cleanup; the assignment names the very device in service |
| Daemon.Daemon.Decide | internal/daemon/daemon.go:463-484 | on success the peer has what `Select` answers for its current upstream, and nothing but its own routing changed; if it already had, no call is made |
| Daemon.Daemon.RoutePeer | internal/daemon/daemon.go:450-484 | the same, finishing pending cleanup first; fails only by a fault, a missing profile, an upstream without a table, or an ambiguous rule; success means that the upstream is what the first configured profile of the peer's name selects; if no profile has the name it fails, with the peer unrouted or pending |
| Daemon.SettledIsServed | internal/daemon/daemon.go:450-484 | in all that is said of passes, a peer being settled means that it is on the books, not pending, and assigned what the first profile of its name selects |
| Daemon.Daemon.Revoke | internal/daemon/daemon.go:415-427 | of the keys the store no longer has, exactly those stay on the device whose removal the device refused, whatever became of their routes; unless a listing is ambiguous, each of them and each cleanup newly left unfinished used a fault of its own; only complete revocations are struck off the books; nobody else is touched |
| Daemon.Daemon.ServeOne | internal/daemon/daemon.go:433-446 | one row: a new key is left out while its address is on the books, everyone else is routed as `Select` answers, or a fault or an obstruction is the reason |
| Daemon.Daemon.Serve | internal/daemon/daemon.go:428-446 | a new key is added only at an address free of unfinished revocations; everyone served has what `Select` answers |
| Daemon.Daemon.Reconcile | internal/daemon/daemon.go:402-448 | keeps the invariant; success converges; failure has used up a fault unless obstructed; once converged a pass changes nothing and makes no dataplane call; of the keys the store no longer has, exactly those stay on the device whose removal the device refused, each of them and each cleanup of a revoked peer newly left unfinished having used a fault of its own unless a listing is ambiguous; every newly torn address used a fault of its own; whether the kernel then routes a peer that was on the books as assigned is told from before: as before if the assignment is the same, after a move if the move found no plain rule of its target or no other, always if there was a cleanup; everyone authorised stays covered in every state on the way |
| Daemon.PassConverges | internal/daemon/daemon.go:402-448 | flawless revocations and serving leave device keys, books and assignments exactly as store and `Select` say, with nothing pending |
| Daemon.Daemon.ApplyAlive | internal/daemon/daemon.go:384-398 | the failure record holds the upstream exactly when the push failed, and its health counts as pushed again; it fails only by a fault, an ambiguous listing, or an upstream without a table |
| Daemon.Daemon.ProbeDone | internal/daemon/daemon.go:354-365 | the tracker observes the probe; health is pushed exactly when the state changed or an earlier push failed, and then counts as pushed; no stale pin goes unrecorded |
| Daemon.Daemon.DropUpstream | internal/daemon/daemon.go:304-314 | afterwards no assignment without pending cleanup refers to the upstream, its device is closed once, who is still authorised and not pending keeps their plain rules, and nothing at all happens to peers of other upstreams; in every state on the way whoever is authorised has the plain rules they had |
| Daemon.Daemon.OpenUpstream | internal/daemon/daemon.go:183-198 | on success a fresh device and unknown health; on failure no device stays open; it fails only by a fault or for a file that is not accepted |
| Daemon.Daemon.Renew | internal/daemon/daemon.go:241-274 | upstreams with unchanged files are carried over with device and health, all others are fresh or absent, whatever fails; so many upstreams at most as faults were used are missing although their files were accepted, and it succeeds exactly if none is missing |
| DaemonState.RenewedContinues | internal/daemon/daemon.go:241-266 | an upstream whose file reads as before goes on with its device, its address and all that is known of its health, under the new thresholds; every other one in service was opened anew from an accepted file, and nothing is known of its health |
| Daemon.Daemon.SetDataplane | internal/daemon/daemon.go:277-279 | the invariant survives; on success exactly the upstreams in service are wired and probed; it fails only as `SetUpstreams` may |
| Daemon.Daemon.PushHealth | internal/daemon/daemon.go:280-288 | afterwards no stale pin to any upstream goes unrecorded, whatever fails; it fails only by a fault, an ambiguous listing, or an upstream without a table |
| Daemon.Daemon.Reload | internal/daemon/daemon.go:234-300 | changed restart-only settings reject it untouched; otherwise the invariant, device conservation and who is carried over hold for every failure; nobody whose upstream is carried over loses their tunnel; peers with a plain rule to a kept upstream stay covered whatever fails, in every state on the way, and exactly those once the dataplane took the change; if it did not, the upstreams whose health was not pushed are exactly determined, and of those replaced, exactly the ones whose predecessor was up hold a wrong mark or stale pins; it does not reach the dataplane only by a fault or what blocks `SetUpstreams` in the state it found, and fails beyond that only by a fault, an ambiguous listing or a missing upstream; so many upstreams at most as faults were used are missing although their files were accepted |
| Daemon.Daemon.Start | internal/daemon/daemon.go:144-178 | whatever fails, the daemon can be stopped safely; success establishes the invariant with exactly the configured upstreams; what was found and is not this program's stays; it fails only by a fault, a file that is not accepted, an ambiguous leftover, or a lack of tables |
| Daemon.Daemon.Stop | internal/daemon/daemon.go:208-228 | ends with no link and no open device, each closed once, safe in every state on the way; if cleanup succeeded, with no firewall and none of our rules; if cleanup did not succeed, a listing was ambiguous from the start or each of its two attempts used a fault |
| Lifecycle.FailClosed | internal/dataplane/linux/linux.go:741-753 | under the invariant any packet accepted from the downstream link has an authorised, assigned source that is on the books and leaves through an upstream, whatever the routing rules contain |
| Lifecycle.SafeFailsClosed | internal/dataplane/linux/linux.go:741-753 | in every safe state, if the downstream link is up and has a peer, a packet accepted from it has an authorised source and leaves through an upstream |
| Lifecycle.Converge | internal/daemon/daemon.go:115-142 | with everything fixed and f faults left, at most f passes fail and the next converges; the kernel then routes an address exactly as assigned if and only if it is not torn, and every address torn meanwhile used a fault of its own |
| Lifecycle.Run | internal/daemon/daemon.go:115-142 | over start, any events and stop, with any failures: a downstream link that is up and has a peer is always behind the firewall, and in every state of the host packets get out of it only from authorised sources and through upstreams; no two open devices ever share a name, the daemon is in order between events, without reloads everyone authorised is covered in every state, and all devices end closed once; no listing of rules is ever refused |
| Policy.Select | internal/policy/policy.go:31-59 | keeps the current upstream if it is healthy in the best healthy tier, else the least by latency and name of that tier, and none exactly if no healthy upstream matches |
| Policy.TierOf | internal/policy/policy.go:62-72 | the first preference that matches |
| Policy.TierIsFirstFit | internal/config/config.go:53-55 | a preference is met by upstreams that have what its fields ask for, an empty field asking for nothing |
| Policy.BetterIsFaster | internal/policy/policy.go:55-57 | lower latency is better, and at the same latency the name that comes first, compared character by character |
| Policy.ChoiceFits | internal/policy/policy.go:24-59 | told by the fields alone: the choice is healthy, meets a preference, no healthy upstream meets an earlier one, and unless it is the current upstream none of its tier is faster, or as fast with a name before it |
| Policy.NoChoice | internal/policy/policy.go:24-28 | there is none exactly if no healthy upstream meets a preference |
| Policy.SelectedUnique | internal/policy/policy.go:24-28 | the choice is determined |
| Policy.OrderDoesNotMatter | internal/policy/policy.go:24-28 | it is the same for every order of the upstreams |
| Policy.FixedPoint | internal/policy/policy.go:24-28 | fed back as current, the choice is made again |
| Policy.LatencyNeverMoves | internal/policy/policy.go:24-28 | a change of latencies alone never moves a peer |
| Health.Tracker.Observe | internal/health/tracker.go:39-57 | one probe's effect on the tracker, and whether the state changed |
| Health.Tracker.SetThresholds | internal/health/tracker.go:59-61 | only the thresholds change |
| Health.CountersAreRuns | internal/health/tracker.go:39-57 | along every trace the counters are the lengths of the trailing runs |
| Health.StateIsEarned | internal/health/tracker.go:39-57 | told by the trace alone: down exactly from the given number of failures in a row until the given number of successes in a row, unknown exactly during the first failures while they are fewer, up otherwise |
| Health.LatencyIsLast | internal/health/tracker.go:39-57 | the latency is that of the last success, 0 before the first |
| Health.ChangesAreEarned | internal/health/tracker.go:39-57 | every change to Down is preceded by that many consecutive failures, every change from Down to Up by that many consecutive successes since going Down |
| Health.FlappingIsBounded | internal/health/tracker.go:39-57 | c changes take at least the stated number of probes |
| Identity.LoadSave | internal/daemon/identity.go:54-88 | loading inverts saving |
| Identity.LoadReadsEachField | internal/daemon/identity.go:54-75 | each field is read on its own, and one that cannot be read is an error |
| Identity.NewIdentity | internal/daemon/identity.go:116-137 | the four header ranges are 4096 wide and 2^20 apart, pairwise disjoint, do not wrap and avoid the stock message types |
| Identity.FileStays | internal/daemon/identity.go:77-112 | for any number of processes, interleavings, failures and crashes, identity.json never changes once it is there |
| Identity.AbsentOrComplete | internal/daemon/identity.go:77-112 | it is at any time absent or complete |
| Identity.Agreement | internal/daemon/identity.go:33-52 | all callers that succeed, at whatever times, return the identity in the file |
| Identity.CanFinish | internal/daemon/identity.go:33-112 | wherever the others are, and whether they failed or crashed, a caller that is still at it returns after at most nine operations of its own if none of these fails, unless a file found at first cannot be loaded |
| Keys.ParsePrintKey | internal/awgconf/key.go:32-59 | a printed key is read back as itself and fits on a configuration line |
| Keys.KeysAreRead | internal/awgconf/key.go:32-44 | every text of 43 symbols of the alphabet and one '=' is a key, wherever lines are broken |
| Keys.KeysAreWritten | internal/awgconf/key.go:32-59 | what is read is written as the same symbols, but for the unused bits of the last |
| Keys.BreaksGo | internal/awgconf/key.go:32-44 | a line break inside a key changes nothing |
| Keys.EncodedNumber | internal/awgconf/key.go:59 | three bytes are written as the symbols for the four digits, to the base 64, of the number they are, most significant first |
| Keys.SymbolsAreTheAlphabet | internal/awgconf/key.go:59 | the symbols are the alphabet of RFC 4648 in its order |
| Decimal.ParsePrintUint | internal/awgconf/config.go:325-333 | a printed number within bounds is read back as itself |
| Decimal.NumeralsOf | internal/awgconf/config.go:325-333 | exactly the digits of the number, with any zeros in front, are read as it |
| Decimal.PrintedDigits | internal/awgconf/config.go:206 | numbers are printed in the ten digits, the last place worth one and each place ten times the next |
| Decimal.IntegersOf | internal/awgconf/config.go:145 | the same for signed numbers, with their signs |
| Params.RangeBack | internal/awgconf/params.go:14-38 | a printed header value is read back as itself |
| Params.RangesOf | internal/awgconf/params.go:14-31 | exactly two numerals in order with a minus sign between them, or one, each with white space around it, are read as the range |
| Address.AddrBack | internal/awgconf/config.go:141 | a printed address, with its zone, is read back as itself and fits into a list |
| Address.V4Exactly | internal/awgconf/config.go:141 | exactly one text is read as an IPv4 address |
| Address.V4Example | internal/awgconf/config.go:141 | 10.8.0.1 is 0x0A080001 |
| Address.V6Exactly | internal/awgconf/config.go:141 | what is read as an IPv6 address: its bits as text and, if there is a '%', a zone that is not empty |
| Address.PrefixBack | internal/awgconf/config.go:305-315 | a printed prefix is read back as itself and fits into a list |
| Address.V4PrefixExactly | internal/awgconf/config.go:305-315 | exactly one text is read as an IPv4 prefix, two if it is one address |
| Address.BareAddress | internal/awgconf/config.go:305-315 | an address without a length is a prefix of the width of its family, without its zone |
| AwgConf.ListBack | internal/awgconf/config.go:293-323 | a printed list is read back as itself |
| AwgConf.ReadEach | internal/awgconf/config.go:293-303 | a list is read exactly if each of its items is |
| AwgConf.InterfaceBack | internal/awgconf/config.go:134-239 | the printed settings of an interface, left out where zero, set exactly its fields |
| AwgConf.PeerBack | internal/awgconf/config.go:181-255 | the same for a peer |
| AwgConf.SetInterfaceKeepsGood | internal/awgconf/config.go:134-179 | every accepted value is within the bounds of its field and can be printed |
| AwgConfText.Parse | internal/awgconf/config.go:43-132 | computes the meaning of a text, line by line, with the line of the first error |
| AwgConfText.Check | internal/awgconf/config.go:90-131 | the checks on the whole, in their order, junk and packet counts included |
| AwgConfText.String | internal/awgconf/config.go:203-257 | writes the text that the round trip is about |
| AwgConfText.RoundTrip | internal/awgconf/config.go:43-257 | for every accepted text, what is written from what was read is accepted and read as the same |
| Layout.LineSays | internal/awgconf/config.go:47-88 | what a line does, told by what is in front of the first '#' without white space around it: nothing, a section, a setting of any case with any white space around its parts, or an error |
| Text.WhiteSpace | internal/awgconf/config.go:48-74 | what is trimmed: the code points with the property White_Space |
| Text.LowerLetters | internal/awgconf/config.go:54-73 | which letters lose their case in names of sections and settings |
| Layout.LayoutDoesNotMatter | internal/awgconf/config.go:43-132 | texts whose lines say the same are read as the same, or refused with the same error at the same line |
| Layout.KnownInterfaceKeys | internal/awgconf/config.go:33-41 | which settings of an interface there are, and that those for a client's own tools change nothing |
| Layout.KnownPeerKeys | internal/awgconf/config.go:181-201 | which settings of a peer there are |
| Layout.SettingsStay | internal/awgconf/config.go:76-84 | a setting changes the interface or the last peer only, and is an error outside of a section |
| Wire.CheckSignature | internal/awgconf/wire.go:50-104 | terminates, and accepts exactly chains that are inert or whose sizes are nonnegative and sum to at most the limit, with every partial sum within it |
| Wire.ChainSizes | internal/awgconf/wire.go:50-93 | a chain written from tags, with any text between them, adds up to 4 for the time, nothing for the payload, the bytes given, and the numbers of the others |
| Wire.GivenExactly | internal/awgconf/wire.go:79-84 | which values of a "b" tag count, and for how much |
| Wire.MadeExactly | internal/awgconf/wire.go:85-89 | which values of a tag of a given size count, whatever the sign |
| Wire.WordsBehind | internal/awgconf/wire.go:64-74 | a value that is missing counts as empty, and words behind it do not count |
| Wire.OtherTagsAreInert | internal/awgconf/wire.go:90-92 | a tag of no known kind makes the chain inert |
| Wire.CheckWireSizes | internal/awgconf/wire.go:22-43 | accepts exactly when every padded handshake message and every signature packet fits |
| Wire.FitsMonotone | internal/awgconf/wire.go:18-43 | what fits a limit fits any larger one |
| Load.LoadUpstream | internal/daemon/upstream.go:33-105 | accepts exactly the files that meet the stated bounds, with the first IPv4 address and the effective MTU |
| Load.RoutesEverything | internal/daemon/upstream.go:107-114 | whether some prefix is 0.0.0.0/0 |
| Load.FirstV4 | internal/daemon/upstream.go:116-123 | the first IPv4 prefix, or that there is none |
| Load.AcceptedFits | internal/daemon/upstream.go:57-95 | every handshake message, signature packet, junk packet and full data packet of an accepted tunnel fits a UDP datagram to its endpoint |
| Load.BoundsAreTight | internal/daemon/upstream.go:62-95 | the bounds on junk and MTU refuse nothing that would fit |
| Load.FamilyMonotone | internal/daemon/upstream.go:57-61 | what is accepted for IPv4 is accepted for IPv6 |
| Load.Client | internal/mtu/mtu.go:20-34 | the greatest size that survives every tunnel |
| Load.ClientIsEnough | internal/daemon/upstream.go:84-89 | with accepted upstreams it is at least 68 |
| Store.FirstFree | internal/store/store.go:371-383 | the least unused address that is neither network, gateway nor broadcast, or none exactly if all are used |
| Store.AssignableMeans | internal/store/store.go:371-383 | the addresses that may be handed out are all but the first two and the last of the subnet |
| Store.Store.AddPeer | internal/store/store.go:246-286 | keys, addresses and places stay unique, the address is the least free one, and unless the database fails, which it does only within its budget of faults, each error is returned exactly in its case; a failure changes nothing; the store has evolved by one step |
| Store.Store.DeletePeer | internal/store/store.go:288-306 | exactly the named rows go |
| Store.Store.DeleteDevice | internal/store/store.go:293-306 | exactly the rows of the device go |
| Store.Store.DeleteUser | internal/store/store.go:214-223 | the user goes with exactly their rows |
| Store.StoreHistory | internal/store/store.go:246-286 | what a store lists over time, with any operations, probes and reloads between two listings, is a history the daemon relies on: rows never change and deleted keys never return |

## Where the code does less than it promises

- A move that fails while deleting the old plain rule and is then retried returns early without
  deleting it (`internal/dataplane/linux/linux.go:430-431`). New flows stay on the old upstream
  although the daemon believes the peer has moved. `Retry.RetryLeavesOldRoute` shows it for every such
  peer; `Retry.RouteMovesUnmarked` says exactly when a successful move moves new flows. The refinement
  therefore starts from kernels with at most one plain rule per peer.
- For the same reason the kernel need not route everyone as the daemon has assigned them once a pass has
  succeeded. `DaemonState.RouteSyncs` says for each move exactly when it does: if the move found no plain
  rule of its target, or no other one. The daemon's invariant keeps the set `torn` of the addresses left
  out: one enters it exactly when a move fails behind its new plain rule, and leaves it by a cleanup, by a
  later move that meets that condition, or when a change of the upstreams takes the rules away that were
  left over (`DaemonState.ChangeSyncs` says when). Without unfinished cleanup, the kernel routes an address
  as assigned if and only if it is not torn (`Lifecycle.Converge`).
- After two failed moves, a reload that drops both upstreams the remaining plain rules lead to leaves the
  peer authorised and not pending without any plain rule (`Uncovered.PeerIsUncovered`), so its packets
  fall through to the main table, where the firewall still confines them. Without reloads this
  cannot happen (`Lifecycle.Run`); with them, `DaemonState.CoverAfterChange` and
  `Daemon.Daemon.Reload` say exactly who is affected.
- An error of `SetUpstreams` makes a reload return before health is pushed and devices are brought up
  (`internal/daemon/daemon.go:277-279`). An upstream that is carried over keeps what it had
  (`DaemonState.CarriedKeepsPins`); one that was replaced starts with its predecessor's mark, and may hold
  its pins, if and only if the predecessor was up (`DaemonState.ReplacedPins`; `Unpushed.FailedReloadLeavesMark`
  is such a reload). The ghost field `unpushed` holds the names concerned, `Daemon.Daemon.Reload` says which
  they are, and a name leaves it as soon as its health is pushed, by a probe or a later reload.

## Left out

- Daemon.Daemon.Reload: the order in which the upstreams are listed afterwards is not stated, because selection does not depend on it.
- Daemon.Daemon.ProbeDone: a probe that completes for an upstream that was already replaced is not modelled, and re-resolving an endpoint after a failed probe changes nothing that is.
- Load.LoadUpstream: which of several faults of a file is reported is not stated, and resolving the endpoint is a parameter.
- Store.Store.AddPeer: the key is a parameter that has not been used before, as random keys are; how the database fails is not told apart.
- Identity.NewIdentity: what the random source yields is a parameter within the documented bounds.
- Lifecycle.Run: names of links in a table of our name found at start are those of upstreams, as every table this program installs has (`Daemon.Fresh`).
- Other software: no foreign rule extends the selectors of a pin or peer rule into one of our tables (`LinuxRules.Tidy`), and rules, routes and links are not changed by others while a call runs. What other selectors a foreign rule has is a number in `Rule.extra`; a rule of ours has none.
- Kernel operations are atomic. An operation that takes effect but reports an error is not modelled.
- The "upstreams" set and the "pinmark" map are one map, since both are always written together; `alive` is a set instead of a map of booleans.
- Upstreams and trackers inside the daemon are values in a sequence, not shared objects; `Health.Tracker` shows the tracker as an object. Fields of a configuration that is being read are likewise values, so the pointer to the last peer is an index.
- Metrics, counters, status, logging, the wake channel and timing of the main loop.
- A second device named like an open one, links that vanish by themselves, and devices that fail while open.
- MSS clamping and masquerading as packet edits, foreign forward chains, IPv6 forwarding (never accepted from the downstream link by the modelled chain), connection tracking itself.
- Provider files do not change while one reload reads them.
- Text is Unicode: invalid UTF-8 and the scanner's line length limit are not modelled. `strconv.Atoi` is taken to have 64 bits. The text of the 128 bits of an IPv6 address is a pair of inverse functions.
- UAPI rendering, client configurations, the command line, migrations, backups, file modes and the SQL itself.
- `Validate` beyond distinct, non-empty upstream names and thresholds of at least one, which are preconditions.
- JSON itself: the identity file is its record of fields, complete or partial.
