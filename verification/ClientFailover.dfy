/**
 * The client's view of its configured servers: which one carries the tunnels,
 * which are usable, and when to change. Times are nanoseconds on one clock and
 * 0 means never.
 */
module ClientFailover {
  import opened Bytes

  const SECOND := 1_000_000_000

  datatype Endpoint = Endpoint(
    friend: int, online: bool, linkUp: bool, offlineSince: int, onlineSince: int, lastPong: int, probeBaseline: int)

  /** `keepaliveSeconds` is 0 when the keepalive is off. */
  datatype Config = Config(timeoutSeconds: nat, graceSeconds: nat, keepaliveSeconds: nat)

  datatype Client = Client(endpoints: seq<Endpoint>, active: nat, serverOnline: bool, generation: nat)

  /** A duration in whole seconds, rounded towards zero. */
  function WholeSeconds(d: int): int {
    if d >= 0 then d / SECOND else -((-d) / SECOND)
  }

  /** The first usable endpoint at or after `i` other than `exclude`. */
  function LowestOnline(eps: seq<Endpoint>, exclude: nat, i: nat): (r: Option<nat>)
    ensures match r
            case Some(k) => i <= k < |eps| && k != exclude && eps[k].online
                            && forall j :: i <= j < k && j != exclude ==> !eps[j].online
            case None => forall j :: i <= j < |eps| && j != exclude ==> !eps[j].online
    decreases |eps| - i
  {
    if i >= |eps| then None
    else if i != exclude && eps[i].online then Some(i)
    else LowestOnline(eps, exclude, i + 1)
  }

  predicate OfflineLongEnough(cfg: Config, e: Endpoint, now: int) {
    !e.online && e.offlineSince != 0 && WholeSeconds(now - e.offlineSince) >= cfg.timeoutSeconds
  }

  predicate OnlineLongEnough(cfg: Config, e: Endpoint, now: int) {
    e.online && e.onlineSince != 0 && WholeSeconds(now - e.onlineSince) >= cfg.graceSeconds
  }

  /** The endpoint to switch to: a replacement for a dead active server first, then back to the primary. */
  function Decide(cfg: Config, eps: seq<Endpoint>, active: nat, now: int): Option<nat> {
    if |eps| <= 1 || active >= |eps| then None
    else if OfflineLongEnough(cfg, eps[active], now) && LowestOnline(eps, active, 0).Some? then
      LowestOnline(eps, active, 0)
    else if active != 0 && OnlineLongEnough(cfg, eps[0], now) then Some(0)
    else None
  }

  function FriendAt(eps: seq<Endpoint>, friend: int, i: nat): (r: Option<nat>)
    ensures r.Some? ==> i <= r.value < |eps| && eps[r.value].friend == friend
    decreases |eps| - i
  {
    if i >= |eps| then None else if eps[i].friend == friend then Some(i) else FriendAt(eps, friend, i + 1)
  }

  function Connection(e: Endpoint, connected: bool, now: int): Endpoint {
    Endpoint(e.friend, connected, connected,
             if !connected && e.online then now else e.offlineSince,
             if connected && !e.online then now else e.onlineSince,
             e.lastPong,
             if connected && !e.linkUp then now else e.probeBaseline)
  }

  function OnFriendConnection(c: Client, friend: int, connected: bool, now: int): Client {
    var hit := FriendAt(c.endpoints, friend, 0);
    if hit.None? then c
    else
      var d := c.(endpoints := c.endpoints[hit.value := Connection(c.endpoints[hit.value], connected, now)]);
      if hit.value == c.active then d.(serverOnline := connected, generation := c.generation + 1) else d
  }

  /** The active server answers again; `route` is the friend the strand is pinned to. */
  function OnPeerAlive(c: Client, route: int, now: int): Client {
    if c.active < |c.endpoints| && c.endpoints[c.active].friend == route && c.endpoints[c.active].linkUp
       && !c.endpoints[c.active].online then
      c.(endpoints := c.endpoints[c.active := c.endpoints[c.active].(online := true, onlineSince := now)],
         serverOnline := true)
    else c
  }

  /** The keepalive judged a server dead; `latched` and `route` are what the strand finds when it applies this. */
  function OnDeadVerdict(c: Client, friend: int, latched: bool, route: int, now: int): Client {
    if !latched || friend != route then c
    else if c.active >= |c.endpoints| || c.endpoints[c.active].friend != friend || !c.endpoints[c.active].linkUp then c
    else
      var e := c.endpoints[c.active];
      c.(endpoints := c.endpoints[c.active := if e.online then e.(online := false, offlineSince := now) else e],
         serverOnline := false)
  }

  function OnStandbyPong(c: Client, friend: int, now: int): Client {
    var hit := FriendAt(c.endpoints, friend, 0);
    if hit.None? || hit.value == c.active then c
    else
      var e := c.endpoints[hit.value].(lastPong := now);
      var f := if e.linkUp && !e.online then e.(online := true, onlineSince := now) else e;
      c.(endpoints := c.endpoints[hit.value := f])
  }

  predicate Silent(cfg: Config, e: Endpoint, now: int) {
    e.linkUp && e.online && now - Max(e.lastPong, e.probeBaseline) > 3 * cfg.keepaliveSeconds * SECOND
  }

  function Expired(cfg: Config, active: nat, i: nat, e: Endpoint, now: int): Endpoint {
    if i != active && Silent(cfg, e, now) then e.(online := false, offlineSince := now) else e
  }

  function ExpireStandbys(cfg: Config, c: Client, now: int): Client {
    if cfg.keepaliveSeconds == 0 then c
    else
      c.(endpoints := seq(|c.endpoints|, i requires 0 <= i < |c.endpoints| =>
                            Expired(cfg, c.active, i, c.endpoints[i], now)))
  }

  function SwitchTo(c: Client, next: nat, now: int): Client {
    if next >= |c.endpoints| || next == c.active || c.active >= |c.endpoints| then c
    else
      Client(c.endpoints[c.active := c.endpoints[c.active].(probeBaseline := now)], next, c.endpoints[next].online,
             c.generation + 1)
  }

  /** One failover decision applied on the strand, read at `now`, with the switch's own clock reading `later`. */
  function ApplyFailover(cfg: Config, c: Client, now: int, later: int): Client {
    var d := ExpireStandbys(cfg, c, now);
    match Decide(cfg, d.endpoints, d.active, now)
    case Some(next) => SwitchTo(d, next, later)
    case None => d
  }

  // ---------------------------------------------------------------------------
  // The object
  // ---------------------------------------------------------------------------

  class EndpointTable {
    const cfg: Config
    var endpoints: seq<Endpoint>
    var active: nat
    var serverOnline: bool
    var generation: nat

    function View(): Client
      reads this
    {
      Client(endpoints, active, serverOnline, generation)
    }

    constructor (cfg: Config, friends: seq<int>, now: int)
      ensures this.cfg == cfg && View() == Started(friends, now)
    {
      this.cfg := cfg;
      endpoints := seq(|friends|, i requires 0 <= i < |friends| => Unseen(friends[i], now));
      active, serverOnline, generation := 0, false, 0;
    }

    method Find(friend: int) returns (hit: nat)
      ensures FriendAt(endpoints, friend, 0) == (if hit < |endpoints| then Some(hit) else None) && hit <= |endpoints|
    {
      hit := 0;
      while hit < |endpoints|
        invariant hit <= |endpoints| && FriendAt(endpoints, friend, 0) == FriendAt(endpoints, friend, hit)
      {
        if endpoints[hit].friend == friend {
          return;
        }
        hit := hit + 1;
      }
    }

    method FriendConnection(friend: int, connected: bool, now: int)
      modifies this
      ensures View() == OnFriendConnection(old(View()), friend, connected, now)
    {
      var hit := Find(friend);
      if hit == |endpoints| {
        return;
      }
      var e := endpoints[hit];
      if connected && !e.online {
        e := e.(onlineSince := now);
      }
      if connected && !e.linkUp {
        e := e.(probeBaseline := now);
      }
      if !connected && e.online {
        e := e.(offlineSince := now);
      }
      e := e.(online := connected, linkUp := connected);
      endpoints := endpoints[hit := e];
      if hit == active {
        serverOnline := connected;
        generation := generation + 1;
      }
    }

    method PeerAlive(route: int, now: int)
      modifies this
      ensures View() == OnPeerAlive(old(View()), route, now)
    {
      if active < |endpoints| && endpoints[active].friend == route && endpoints[active].linkUp
         && !endpoints[active].online {
        endpoints := endpoints[active := endpoints[active].(online := true, onlineSince := now)];
        serverOnline := true;
      }
    }

    method DeadVerdict(friend: int, latched: bool, route: int, now: int)
      modifies this
      ensures View() == OnDeadVerdict(old(View()), friend, latched, route, now)
    {
      if !latched || friend != route {
        return;
      }
      if active >= |endpoints| || endpoints[active].friend != friend || !endpoints[active].linkUp {
        return;
      }
      var e := endpoints[active];
      if e.online {
        e := e.(online := false, offlineSince := now);
      }
      endpoints := endpoints[active := e];
      serverOnline := false;
    }

    method StandbyPong(friend: int, now: int)
      modifies this
      ensures View() == OnStandbyPong(old(View()), friend, now)
    {
      var hit := Find(friend);
      if hit == |endpoints| || hit == active {
        return;
      }
      var e := endpoints[hit].(lastPong := now);
      if e.linkUp && !e.online {
        e := e.(online := true, onlineSince := now);
      }
      endpoints := endpoints[hit := e];
    }

    method Expire(now: int)
      modifies `endpoints
      ensures View() == ExpireStandbys(cfg, old(View()), now)
    {
      if cfg.keepaliveSeconds == 0 {
        return;
      }
      var i := 0;
      while i < |endpoints|
        invariant 0 <= i <= |endpoints| == |old(endpoints)|
        invariant forall j :: 0 <= j < i ==> endpoints[j] == Expired(cfg, active, j, old(endpoints)[j], now)
        invariant forall j :: i <= j < |endpoints| ==> endpoints[j] == old(endpoints)[j]
      {
        if i != active && Silent(cfg, endpoints[i], now) {
          endpoints := endpoints[i := endpoints[i].(online := false, offlineSince := now)];
        }
        i := i + 1;
      }
    }

    method LowestOnlineExcept(exclude: nat) returns (r: Option<nat>)
      ensures r == LowestOnline(endpoints, exclude, 0)
    {
      var i := 0;
      while i < |endpoints|
        invariant 0 <= i <= |endpoints| && LowestOnline(endpoints, exclude, 0) == LowestOnline(endpoints, exclude, i)
      {
        if i != exclude && endpoints[i].online {
          return Some(i);
        }
        i := i + 1;
      }
      r := None;
    }

    method DecideSwitch(now: int) returns (r: Option<nat>)
      ensures r == Decide(cfg, endpoints, active, now)
    {
      if |endpoints| <= 1 || active >= |endpoints| {
        return None;
      }
      if OfflineLongEnough(cfg, endpoints[active], now) {
        var candidate := LowestOnlineExcept(active);
        if candidate.Some? {
          return candidate;
        }
      }
      if active != 0 && OnlineLongEnough(cfg, endpoints[0], now) {
        return Some(0);
      }
      r := None;
    }

    method SwitchActive(next: nat, now: int)
      modifies this
      ensures View() == SwitchTo(old(View()), next, now)
    {
      if next >= |endpoints| || next == active || active >= |endpoints| {
        return;
      }
      endpoints := endpoints[active := endpoints[active].(probeBaseline := now)];
      active := next;
      generation := generation + 1;
      serverOnline := endpoints[next].online;
    }

    method FailoverOnStrand(now: int, later: int)
      modifies this
      ensures View() == ApplyFailover(cfg, old(View()), now, later)
    {
      Expire(now);
      var again := DecideSwitch(now);
      if again.Some? {
        SwitchActive(again.value, later);
      }
    }
  }

  /** An endpoint nobody has seen yet; its outage counts from start-up. */
  function Unseen(friend: int, now: int): Endpoint {
    Endpoint(friend, false, false, now, 0, 0, 0)
  }

  function Started(friends: seq<int>, now: int): Client {
    Client(seq(|friends|, i requires 0 <= i < |friends| => Unseen(friends[i], now)), 0, false, 0)
  }

  // ---------------------------------------------------------------------------
  // Every run
  // ---------------------------------------------------------------------------

  datatype What =
    | FriendConnection(friend: int, connected: bool)
    | PeerAlive(route: int)
    | DeadVerdict(friend: int, latched: bool, route: int)
    | StandbyPong(friend: int)
    | Failover(later: int)

  datatype Event = Event(now: int, what: What)

  function Step(cfg: Config, c: Client, e: Event): Client {
    match e.what
    case FriendConnection(friend, connected) => OnFriendConnection(c, friend, connected, e.now)
    case PeerAlive(route) => OnPeerAlive(c, route, e.now)
    case DeadVerdict(friend, latched, route) => OnDeadVerdict(c, friend, latched, route, e.now)
    case StandbyPong(friend) => OnStandbyPong(c, friend, e.now)
    case Failover(later) => ApplyFailover(cfg, c, e.now, later)
  }

  function Run(cfg: Config, friends: seq<int>, start: int, es: seq<Event>): Client {
    if es == [] then Started(friends, start)
    else Step(cfg, Run(cfg, friends, start, es[..|es| - 1]), es[|es| - 1])
  }

  /**
   * The active index is in range, the global online flag mirrors the active
   * endpoint's, and an endpoint is only online over a link that is up.
   */
  ghost predicate Inv(c: Client, n: nat) {
    && |c.endpoints| == n
    && c.active < n
    && c.serverOnline == c.endpoints[c.active].online
    && (forall i :: 0 <= i < n && c.endpoints[i].online ==> c.endpoints[i].linkUp)
  }

  lemma StepKeepsInv(cfg: Config, c: Client, e: Event, n: nat)
    requires Inv(c, n)
    ensures Inv(Step(cfg, c, e), n)
  {
    hide FriendAt, LowestOnline, Silent, WholeSeconds;
  }

  lemma {:induction false} RunKeepsInv(cfg: Config, friends: seq<int>, start: int, es: seq<Event>)
    requires friends != []
    ensures Inv(Run(cfg, friends, start, es), |friends|)
  {
    if es != [] {
      RunKeepsInv(cfg, friends, start, es[..|es| - 1]);
      hide Step, Inv;
      StepKeepsInv(cfg, Run(cfg, friends, start, es[..|es| - 1]), es[|es| - 1], |friends|);
    }
  }

  /** A decision names a usable endpoint that is not the active one. */
  lemma DecisionIsUsable(cfg: Config, eps: seq<Endpoint>, active: nat, now: int)
    requires Decide(cfg, eps, active, now).Some?
    ensures var k := Decide(cfg, eps, active, now).value;
            k < |eps| && k != active && eps[k].online
            && (k != 0 ==> forall j :: 0 <= j < k && j != active ==> !eps[j].online)
  {
  }

  /** Deciding again at the same instant, right after the switch, changes nothing. */
  lemma FailoverSettles(cfg: Config, c: Client, n: nat, now: int, later: int)
    requires Inv(c, n) && later >= now
    ensures ApplyFailover(cfg, ApplyFailover(cfg, c, now, later), now, later) == ApplyFailover(cfg, c, now, later)
    ensures var d := ApplyFailover(cfg, c, now, later); d.active != c.active ==> d.serverOnline
  {
    var d := ExpireStandbys(cfg, c, now);
    var r := ApplyFailover(cfg, c, now, later);
    assert ExpireStandbys(cfg, r, now) == r by {
      ExpireSettles(cfg, c, now, later, r);
    }
    match Decide(cfg, d.endpoints, d.active, now) {
      case Some(next) =>
        DecisionIsUsable(cfg, d.endpoints, d.active, now);
        NoSecondSwitch(cfg, d.endpoints, d.active, now, next, r.endpoints);
      case None =>
    }
  }

  /** The standbys were just judged; the server demoted since then counts its silence from now. */
  lemma ExpireSettles(cfg: Config, c: Client, now: int, later: int, r: Client)
    requires c.active < |c.endpoints| && later >= now && r == ApplyFailover(cfg, c, now, later)
    ensures ExpireStandbys(cfg, r, now) == r
  {
    hide Decide;
    if cfg.keepaliveSeconds != 0 {
      var x := ExpireStandbys(cfg, r, now);
      forall i | 0 <= i < |r.endpoints| ensures x.endpoints[i] == r.endpoints[i] {
        var limit := 3 * cfg.keepaliveSeconds * SECOND;
        assert limit >= 0;
      }
      assert x.endpoints == r.endpoints;
    }
  }

  lemma NoSecondSwitch(cfg: Config, eps: seq<Endpoint>, active: nat, now: int, next: nat, after: seq<Endpoint>)
    requires Decide(cfg, eps, active, now) == Some(next) && |after| == |eps|
    requires forall i :: 0 <= i < |eps| ==>
                           after[i].online == eps[i].online && after[i].onlineSince == eps[i].onlineSince
    ensures Decide(cfg, after, next, now) == None
  {
    hide WholeSeconds;
  }

  /** When the endpoint's usability last changed. */
  function Stamp(e: Endpoint): int {
    if e.online then e.onlineSince else e.offlineSince
  }

  /** Every event stamps exactly the endpoints it flips. */
  lemma FlipsAreStamped(cfg: Config, c: Client, e: Event, n: nat, i: nat)
    requires Inv(c, n) && i < n
    ensures var before, after := c.endpoints[i], Step(cfg, c, e).endpoints;
            && |after| == n
            && (after[i].online == before.online ==> Stamp(after[i]) == Stamp(before))
            && (after[i].online != before.online ==> Stamp(after[i]) == e.now)
  {
    hide FriendAt, Decide;
    if e.what.Failover? {
      var d := ExpireStandbys(cfg, c, e.now);
      assert cfg.keepaliveSeconds != 0 ==> d.endpoints[i] == Expired(cfg, c.active, i, c.endpoints[i], e.now);
      assert d.endpoints[i].online != c.endpoints[i].online ==> Stamp(d.endpoints[i]) == e.now;
      var t := Step(cfg, c, e).endpoints[i];
      assert t.online == d.endpoints[i].online && Stamp(t) == Stamp(d.endpoints[i]);
    }
  }

  ghost predicate InOrder(start: int, es: seq<Event>) {
    && (forall k :: 0 <= k < |es| ==> start <= es[k].now)
    && (forall j, k :: 0 <= j < k < |es| ==> es[j].now <= es[k].now)
  }

  /** The state after `k` events was still in force at some moment after `since`. */
  predicate InForceAfter(es: seq<Event>, k: nat, since: int) {
    k == |es| || (k < |es| && es[k].now > since)
  }

  /** In every run an endpoint has been as usable as it is now ever since its stamp. */
  lemma {:induction false} UnchangedSinceStamp(
    cfg: Config, friends: seq<int>, start: int, es: seq<Event>, i: nat, k: nat)
    requires i < |friends| && InOrder(start, es) && k <= |es|
    ensures |Run(cfg, friends, start, es).endpoints| == |friends| == |Run(cfg, friends, start, es[..k]).endpoints|
    ensures var e := Run(cfg, friends, start, es).endpoints[i];
            InForceAfter(es, k, Stamp(e)) ==> Run(cfg, friends, start, es[..k]).endpoints[i].online == e.online
  {
    RunKeepsInv(cfg, friends, start, es);
    RunKeepsInv(cfg, friends, start, es[..k]);
    if k == |es| {
      assert es[..k] == es;
    } else {
      var init, x := es[..|es| - 1], es[|es| - 1];
      RunKeepsInv(cfg, friends, start, init);
      FlipsAreStamped(cfg, Run(cfg, friends, start, init), x, |friends|, i);
      assert init[..k] == es[..k];
      UnchangedSinceStamp(cfg, friends, start, init, i, k);
      hide Step, Inv;
    }
  }

  lemma WholeSecondsBound(d: int, limit: nat)
    requires d >= 0 && WholeSeconds(d) >= limit
    ensures d >= limit * SECOND
  {
  }

  /** No endpoint's stamp lies in the future. */
  lemma {:induction false} StampsArePast(cfg: Config, friends: seq<int>, start: int, es: seq<Event>, i: nat, now: int)
    requires i < |friends| && InOrder(start, es) && start <= now && (es != [] ==> es[|es| - 1].now <= now)
    ensures |Run(cfg, friends, start, es).endpoints| == |friends|
    ensures Stamp(Run(cfg, friends, start, es).endpoints[i]) <= now
  {
    if es != [] {
      var init, x := es[..|es| - 1], es[|es| - 1];
      StampsArePast(cfg, friends, start, init, i, x.now);
      RunKeepsInv(cfg, friends, start, init);
      FlipsAreStamped(cfg, Run(cfg, friends, start, init), x, |friends|, i);
      hide Step, Inv;
    }
  }

  /**
   * Switches are earned. When a run's next decision replaces the active server,
   * that server was unusable through the whole configured timeout; when it goes
   * back to the primary instead, the primary was usable through the whole grace
   * period.
   */
  lemma SwitchesAreEarned(cfg: Config, friends: seq<int>, start: int, es: seq<Event>, now: int, k: nat)
    requires friends != [] && InOrder(start, es) && start <= now && (es != [] ==> es[|es| - 1].now <= now) && k <= |es|
    requires var c := Run(cfg, friends, start, es); Decide(cfg, c.endpoints, c.active, now).Some?
    ensures var c, past := Run(cfg, friends, start, es), Run(cfg, friends, start, es[..k]);
            && |past.endpoints| == |c.endpoints| > c.active
            && (if !c.serverOnline && OfflineLongEnough(cfg, c.endpoints[c.active], now) then
                  InForceAfter(es, k, now - cfg.timeoutSeconds * SECOND) ==> !past.endpoints[c.active].online
                else
                  && Decide(cfg, c.endpoints, c.active, now) == Some(0)
                  && (InForceAfter(es, k, now - cfg.graceSeconds * SECOND) ==> past.endpoints[0].online))
  {
    RunKeepsInv(cfg, friends, start, es);
    RunKeepsInv(cfg, friends, start, es[..k]);
    var c := Run(cfg, friends, start, es);
    UnchangedSinceStamp(cfg, friends, start, es, c.active, k);
    UnchangedSinceStamp(cfg, friends, start, es, 0, k);
    StampsArePast(cfg, friends, start, es, c.active, now);
    StampsArePast(cfg, friends, start, es, 0, now);
    hide Run, LowestOnline, InOrder;
    var e := c.endpoints[c.active];
    if OfflineLongEnough(cfg, e, now) {
      WholeSecondsBound(now - Stamp(e), cfg.timeoutSeconds);
    } else {
      WholeSecondsBound(now - Stamp(c.endpoints[0]), cfg.graceSeconds);
    }
  }

  // ---------------------------------------------------------------------------
  // What the history decides
  // ---------------------------------------------------------------------------

  /** Whether the endpoint was usable, or not, all the time since `since`, read off the states of the run. */
  ghost predicate Throughout(
    cfg: Config, friends: seq<int>, start: int, es: seq<Event>, i: nat, since: int, usable: bool)
  {
    && start <= since
    && forall k :: 0 <= k <= |es| && InForceAfter(es, k, since) ==> UsableAfter(cfg, friends, start, es, k, i) == usable
  }

  predicate UsableAfter(cfg: Config, friends: seq<int>, start: int, es: seq<Event>, k: nat, i: nat)
    requires k <= |es|
  {
    var eps := Run(cfg, friends, start, es[..k]).endpoints;
    i < |eps| && eps[i].online
  }

  /** The last flip is what the stamp says: the flag has stood since then, and not longer. */
  lemma {:induction false} StampIsLastFlip(
    cfg: Config, friends: seq<int>, start: int, es: seq<Event>, i: nat, since: int, usable: bool)
    requires i < |friends| && InOrder(start, es)
    ensures |Run(cfg, friends, start, es).endpoints| == |friends|
    ensures var e := Run(cfg, friends, start, es).endpoints[i];
            Throughout(cfg, friends, start, es, i, since, usable) <==> e.online == usable && Stamp(e) <= since
  {
    RunKeepsInv(cfg, friends, start, es);
    var e := Run(cfg, friends, start, es).endpoints[i];
    if e.online == usable && Stamp(e) <= since {
      StampsAfterStart(cfg, friends, start, es, i);
      forall k | 0 <= k <= |es| && InForceAfter(es, k, since)
        ensures UsableAfter(cfg, friends, start, es, k, i) == usable
      {
        UnchangedSinceStamp(cfg, friends, start, es, i, k);
      }
    }
    if Throughout(cfg, friends, start, es, i, since, usable) {
      assert es[..|es|] == es && UsableAfter(cfg, friends, start, es, |es|, i) == e.online;
      NoFlipSince(cfg, friends, start, es, i, since, usable);
    }
  }

  lemma {:induction false} StampsAfterStart(cfg: Config, friends: seq<int>, start: int, es: seq<Event>, i: nat)
    requires i < |friends| && InOrder(start, es)
    ensures |Run(cfg, friends, start, es).endpoints| == |friends|
    ensures Stamp(Run(cfg, friends, start, es).endpoints[i]) >= start
  {
    if es != [] {
      var init, x := es[..|es| - 1], es[|es| - 1];
      StampsAfterStart(cfg, friends, start, init, i);
      RunKeepsInv(cfg, friends, start, init);
      FlipsAreStamped(cfg, Run(cfg, friends, start, init), x, |friends|, i);
      hide Step, Inv;
    }
  }

  lemma {:induction false} NoFlipSince(
    cfg: Config, friends: seq<int>, start: int, es: seq<Event>, i: nat, since: int, usable: bool)
    requires i < |friends| && InOrder(start, es) && Throughout(cfg, friends, start, es, i, since, usable)
    ensures |Run(cfg, friends, start, es).endpoints| == |friends|
    ensures Stamp(Run(cfg, friends, start, es).endpoints[i]) <= since
  {
    RunKeepsInv(cfg, friends, start, es);
    if es != [] {
      var n, init, x := |es| - 1, es[..|es| - 1], es[|es| - 1];
      StampsArePast(cfg, friends, start, es, i, x.now);
      if x.now > since {
        RunKeepsInv(cfg, friends, start, init);
        FlipsAreStamped(cfg, Run(cfg, friends, start, init), x, |friends|, i);
        assert UsableAfter(cfg, friends, start, es, n, i) == usable;
        assert es[..|es|] == es && UsableAfter(cfg, friends, start, es, |es|, i) == usable;
        ShorterHistory(cfg, friends, start, es, i, since, usable);
        NoFlipSince(cfg, friends, start, init, i, since, usable);
        hide Step, Inv, Throughout;
      }
    }
  }

  lemma ShorterHistory(
    cfg: Config, friends: seq<int>, start: int, es: seq<Event>, i: nat, since: int, usable: bool)
    requires es != [] && es[|es| - 1].now > since && Throughout(cfg, friends, start, es, i, since, usable)
    ensures Throughout(cfg, friends, start, es[..|es| - 1], i, since, usable)
  {
    var init := es[..|es| - 1];
    hide Run;
    forall k | 0 <= k <= |init| && InForceAfter(init, k, since)
      ensures UsableAfter(cfg, friends, start, init, k, i) == usable
    {
      assert init[..k] == es[..k];
      assert InForceAfter(es, k, since) && UsableAfter(cfg, friends, start, es, k, i) == usable;
    }
  }

  /** An endpoint as the pass leaves it: its standby health is judged before the decision. */
  function UsableNow(cfg: Config, c: Client, now: int, i: nat): bool {
    i < |c.endpoints| && ExpireStandbys(cfg, c, now).endpoints[i].online
  }

  /**
   * The failover pass, decided by the history alone. If the active server was
   * unusable through the whole timeout and another is usable, the pass ends on
   * the lowest usable other; if not, and the primary was usable through the
   * whole grace period, it ends on the primary; and otherwise it stays.
   */
  lemma FailoverExactly(cfg: Config, friends: seq<int>, start: int, es: seq<Event>, now: int, later: int)
    requires friends != [] && start > 0 && InOrder(start, es) && start <= now && (es != [] ==> es[|es| - 1].now <= now)
    ensures var c, n := Run(cfg, friends, start, es), |friends|;
            var d := ApplyFailover(cfg, c, now, later);
            var dead := Throughout(cfg, friends, start, es, c.active, now - cfg.timeoutSeconds * SECOND, false);
            var settled := Throughout(cfg, friends, start, es, 0, now - cfg.graceSeconds * SECOND, true);
            && (forall j :: 0 <= j < n && j != c.active && UsableNow(cfg, c, now, j) && dead
                            && (forall k :: 0 <= k < j && k != c.active ==> !UsableNow(cfg, c, now, k)) ==>
                              d.active == j)
            && ((!dead || forall j :: 0 <= j < n && j != c.active ==> !UsableNow(cfg, c, now, j)) ==>
                  d.active == if c.active != 0 && settled && UsableNow(cfg, c, now, 0) then 0 else c.active)
            && d.generation == c.generation + (if d.active == c.active then 0 else 1)
  {
    var c := Run(cfg, friends, start, es);
    RunKeepsInv(cfg, friends, start, es);
    var t, g := now - cfg.timeoutSeconds * SECOND, now - cfg.graceSeconds * SECOND;
    StampIsLastFlip(cfg, friends, start, es, c.active, t, false);
    StampIsLastFlip(cfg, friends, start, es, 0, g, true);
    StampsArePast(cfg, friends, start, es, c.active, now);
    StampsArePast(cfg, friends, start, es, 0, now);
    StampsAfterStart(cfg, friends, start, es, c.active);
    StampsAfterStart(cfg, friends, start, es, 0);
    hide Run, Throughout, InOrder;
    var dead := Throughout(cfg, friends, start, es, c.active, t, false);
    PassExactly(cfg, c, now, later, dead, Throughout(cfg, friends, start, es, 0, g, true));
  }

  lemma PassExactly(cfg: Config, c: Client, now: int, later: int, dead: bool, settled: bool)
    requires Inv(c, |c.endpoints|)
    requires 0 < Stamp(c.endpoints[c.active]) <= now && 0 < Stamp(c.endpoints[0]) <= now
    requires var e := c.endpoints[c.active]; dead <==> !e.online && Stamp(e) <= now - cfg.timeoutSeconds * SECOND
    requires var p := c.endpoints[0]; settled <==> p.online && Stamp(p) <= now - cfg.graceSeconds * SECOND
    ensures var n, d := |c.endpoints|, ApplyFailover(cfg, c, now, later);
            && (forall j :: 0 <= j < n && j != c.active && UsableNow(cfg, c, now, j) && dead
                            && (forall k :: 0 <= k < j && k != c.active ==> !UsableNow(cfg, c, now, k)) ==>
                              d.active == j)
            && ((!dead || forall j :: 0 <= j < n && j != c.active ==> !UsableNow(cfg, c, now, j)) ==>
                  d.active == if c.active != 0 && settled && UsableNow(cfg, c, now, 0) then 0 else c.active)
            && d.generation == c.generation + (if d.active == c.active then 0 else 1)
  {
    var d := ExpireStandbys(cfg, c, now);
    ExpiryShape(cfg, c, now, c.active);
    ExpiryShape(cfg, c, now, 0);
    assert forall j :: 0 <= j < |c.endpoints| ==> UsableNow(cfg, c, now, j) == d.endpoints[j].online;
    SecondsExactly(now - c.endpoints[c.active].offlineSince, cfg.timeoutSeconds);
    SecondsExactly(now - c.endpoints[0].onlineSince, cfg.graceSeconds);
    hide ExpireStandbys, UsableNow, WholeSeconds;
  }

  lemma SecondsExactly(d: int, limit: nat)
    ensures d >= 0 ==> (WholeSeconds(d) >= limit <==> d >= limit * SECOND)
  {
  }

  /** Expiry takes usability from silent standbys and changes nothing else that decides a switch. */
  lemma ExpiryShape(cfg: Config, c: Client, now: int, i: nat)
    requires i < |c.endpoints|
    ensures var d := ExpireStandbys(cfg, c, now);
            && |d.endpoints| == |c.endpoints| && d.active == c.active && d.generation == c.generation
            && (i == c.active ==> d.endpoints[i] == c.endpoints[i])
            && (d.endpoints[i].online ==> d.endpoints[i] == c.endpoints[i])
  {
    hide Silent;
  }

  // ---------------------------------------------------------------------------
  // What makes an endpoint usable or not
  // ---------------------------------------------------------------------------

  /** The endpoint an event about this friend is about: the first configured with it. */
  predicate IsFor(c: Client, i: nat, friend: int) {
    i < |c.endpoints| && c.endpoints[i].friend == friend && forall j :: 0 <= j < i ==> c.endpoints[j].friend != friend
  }

  lemma FriendAtIs(eps: seq<Endpoint>, friend: int, from: nat, i: nat)
    requires from <= i < |eps| && forall j :: from <= j < i ==> eps[j].friend != friend
    ensures FriendAt(eps, friend, from) == Some(i) <==> eps[i].friend == friend
    decreases i - from
  {
    if from < i {
      FriendAtIs(eps, friend, from + 1, i);
    }
  }

  lemma {:induction false} FriendAtIsFirst(eps: seq<Endpoint>, friend: int, from: nat)
    ensures match FriendAt(eps, friend, from)
            case Some(i) => forall j :: from <= j < i ==> eps[j].friend != friend
            case None => forall j :: from <= j < |eps| ==> eps[j].friend != friend
    decreases |eps| - from
  {
    if from < |eps| && eps[from].friend != friend {
      FriendAtIsFirst(eps, friend, from + 1);
    }
  }

  lemma IsForFriendAt(c: Client, i: nat, friend: int)
    ensures IsFor(c, i, friend) <==> FriendAt(c.endpoints, friend, 0) == Some(i)
  {
    FriendAtIsFirst(c.endpoints, friend, 0);
  }

  /** Evidence that the endpoint answers over a live link, or that its link has come up. */
  predicate ComesUp(c: Client, i: nat, what: What)
    requires i < |c.endpoints|
  {
    match what
    case FriendConnection(friend, connected) => connected && IsFor(c, i, friend)
    case PeerAlive(route) => i == c.active && c.endpoints[i].friend == route && c.endpoints[i].linkUp
    case StandbyPong(friend) => i != c.active && IsFor(c, i, friend) && c.endpoints[i].linkUp
    case _ => false
  }

  /** Evidence against it: its link went down, a latched verdict on the server in use, or a standby's silence. */
  predicate GoesDown(cfg: Config, c: Client, i: nat, e: Event)
    requires i < |c.endpoints|
  {
    match e.what
    case FriendConnection(friend, connected) => !connected && IsFor(c, i, friend)
    case DeadVerdict(friend, latched, route) =>
      latched && friend == route && i == c.active && c.endpoints[i].friend == friend && c.endpoints[i].linkUp
    case Failover(_) =>
      cfg.keepaliveSeconds > 0 && i != c.active
      && e.now - Max(c.endpoints[i].lastPong, c.endpoints[i].probeBaseline) > 3 * cfg.keepaliveSeconds * SECOND
    case _ => false
  }

  /** The exact causes: an endpoint becomes usable, or stops being so, on that evidence and no other. */
  lemma UsabilityExactly(cfg: Config, c: Client, e: Event, n: nat, i: nat)
    requires Inv(c, n) && i < n
    ensures |Step(cfg, c, e).endpoints| == n
    ensures Step(cfg, c, e).endpoints[i].online
            <==> if c.endpoints[i].online then !GoesDown(cfg, c, i, e) else ComesUp(c, i, e.what)
  {
    hide Decide, FriendAt, IsFor;
    match e.what
    case FriendConnection(friend, _) => IsForFriendAt(c, i, friend);
    case PeerAlive(_) =>
    case DeadVerdict(_, _, _) =>
    case StandbyPong(friend) => IsForFriendAt(c, i, friend);
    case Failover(later) =>
      var d := ExpireStandbys(cfg, c, e.now);
      assert cfg.keepaliveSeconds != 0 ==> d.endpoints[i] == Expired(cfg, c.active, i, c.endpoints[i], e.now);
      assert Step(cfg, c, e).endpoints[i].online == d.endpoints[i].online;
  }

  // ---------------------------------------------------------------------------
  // How long a standby has been silent
  // ---------------------------------------------------------------------------

  /** The moment an event starts the endpoint's silence anew: its PONG as a standby, its link up, its demotion. */
  function HeardAt(cfg: Config, c: Client, i: nat, e: Event): Option<int> {
    match e.what
    case FriendConnection(friend, connected) =>
      if connected && IsFor(c, i, friend) && !c.endpoints[i].linkUp then Some(e.now) else None
    case StandbyPong(friend) => if i != c.active && IsFor(c, i, friend) then Some(e.now) else None
    case Failover(later) => if i == c.active && Step(cfg, c, e).active != i then Some(later) else None
    case _ => None
  }

  function LastHeard(cfg: Config, friends: seq<int>, start: int, es: seq<Event>, i: nat): int {
    if es == [] then 0
    else
      var init := es[..|es| - 1];
      match HeardAt(cfg, Run(cfg, friends, start, init), i, es[|es| - 1])
      case Some(at) => at
      case None => LastHeard(cfg, friends, start, init, i)
  }

  /** A pass's two clock readings come in order, and before the next event. */
  ghost predicate Sequenced(es: seq<Event>) {
    && (forall k :: 0 <= k < |es| ==> es[k].now <= Done(es[k]))
    && (forall j, k :: 0 <= j < k < |es| ==> Done(es[j]) <= es[k].now)
  }

  function Done(e: Event): int {
    if e.what.Failover? then e.what.later else e.now
  }

  lemma HeardIsKept(cfg: Config, c: Client, e: Event, n: nat, i: nat)
    requires Inv(c, n) && i < n && Max(c.endpoints[i].lastPong, c.endpoints[i].probeBaseline) <= e.now <= Done(e)
    ensures |Step(cfg, c, e).endpoints| == n
    ensures var x, y, at := c.endpoints[i], Step(cfg, c, e).endpoints[i], HeardAt(cfg, c, i, e);
            Max(y.lastPong, y.probeBaseline) == if at.Some? then at.value else Max(x.lastPong, x.probeBaseline)
  {
    hide Decide, FriendAt, IsFor, Silent;
    match e.what
    case FriendConnection(friend, _) => IsForFriendAt(c, i, friend);
    case PeerAlive(_) =>
    case DeadVerdict(_, _, _) =>
    case StandbyPong(friend) => IsForFriendAt(c, i, friend);
    case Failover(later) =>
  }

  /** In every run the silence a pass measures is the time since the standby was last heard. */
  lemma {:induction false} SilenceIsMeasured(cfg: Config, friends: seq<int>, start: int, es: seq<Event>, i: nat)
    requires i < |friends| && InOrder(start, es) && Sequenced(es) && start >= 0
    ensures |Run(cfg, friends, start, es).endpoints| == |friends|
    ensures var e := Run(cfg, friends, start, es).endpoints[i];
            var heard := LastHeard(cfg, friends, start, es, i);
            Max(e.lastPong, e.probeBaseline) == heard && (heard == 0 || (es != [] && heard <= Done(es[|es| - 1])))
  {
    RunKeepsInv(cfg, friends, start, es);
    if es != [] {
      var init, x := es[..|es| - 1], es[|es| - 1];
      SilenceIsMeasured(cfg, friends, start, init, i);
      RunKeepsInv(cfg, friends, start, init);
      assert init != [] ==> Done(es[|es| - 2]) <= x.now && init[|init| - 1] == es[|es| - 2];
      assert start <= x.now <= Done(x);
      HeardIsKept(cfg, Run(cfg, friends, start, init), x, |friends|, i);
      hide Step, Inv;
    }
  }

  /** A pass takes a usable standby's usability exactly if it has not been heard for three keepalive intervals. */
  lemma ExpiryExactly(cfg: Config, friends: seq<int>, start: int, es: seq<Event>, now: int, i: nat)
    requires i < |friends| && InOrder(start, es) && Sequenced(es) && start >= 0
    ensures var c := Run(cfg, friends, start, es);
            && |c.endpoints| == |friends|
            && (UsableNow(cfg, c, now, i) <==>
                  c.endpoints[i].online
                  && (cfg.keepaliveSeconds == 0 || i == c.active
                      || now - LastHeard(cfg, friends, start, es, i) <= 3 * cfg.keepaliveSeconds * SECOND))
  {
    RunKeepsInv(cfg, friends, start, es);
    SilenceIsMeasured(cfg, friends, start, es, i);
    hide Run, LastHeard, InOrder, Sequenced;
  }

  // ---------------------------------------------------------------------------
  // Links and sessions
  // ---------------------------------------------------------------------------

  /** The last link report about the endpoint: about its friend, if it is the first configured with it. */
  function LastReport(friends: seq<int>, es: seq<Event>, i: nat): bool
    requires i < |friends|
  {
    if es == [] then false
    else
      var what := es[|es| - 1].what;
      if what.FriendConnection? && what.friend == friends[i] && friends[i] !in friends[..i] then what.connected
      else LastReport(friends, es[..|es| - 1], i)
  }

  lemma LinkStep(cfg: Config, c: Client, e: Event, n: nat, i: nat)
    requires Inv(c, n) && i < n
    ensures var before, after := c.endpoints[i], Step(cfg, c, e).endpoints;
            && |after| == n && after[i].friend == before.friend
            && after[i].linkUp == (if e.what.FriendConnection? && IsFor(c, i, e.what.friend) then e.what.connected
                                   else before.linkUp)
  {
    hide Decide, FriendAt, IsFor, Silent;
    match e.what
    case FriendConnection(friend, _) => IsForFriendAt(c, i, friend);
    case PeerAlive(_) =>
    case DeadVerdict(_, _, _) =>
    case StandbyPong(_) =>
    case Failover(_) =>
  }

  lemma {:induction false} FriendsStay(cfg: Config, friends: seq<int>, start: int, es: seq<Event>)
    requires friends != []
    ensures var eps := Run(cfg, friends, start, es).endpoints;
            |eps| == |friends| && forall i :: 0 <= i < |friends| ==> eps[i].friend == friends[i]
  {
    if es != [] {
      var init := es[..|es| - 1];
      FriendsStay(cfg, friends, start, init);
      RunKeepsInv(cfg, friends, start, init);
      var c := Run(cfg, friends, start, init);
      hide Step, Inv;
      forall i | 0 <= i < |friends|
        ensures var eps := Step(cfg, c, es[|es| - 1]).endpoints; |eps| == |friends| && eps[i].friend == friends[i]
      {
        LinkStep(cfg, c, es[|es| - 1], |friends|, i);
      }
    }
  }

  /** In every run an endpoint's link is as last reported for its friend. */
  lemma {:induction false} LinkIsAsReported(cfg: Config, friends: seq<int>, start: int, es: seq<Event>, i: nat)
    requires i < |friends|
    ensures |Run(cfg, friends, start, es).endpoints| == |friends|
    ensures Run(cfg, friends, start, es).endpoints[i].linkUp == LastReport(friends, es, i)
  {
    RunKeepsInv(cfg, friends, start, es);
    if es != [] {
      var init, e := es[..|es| - 1], es[|es| - 1];
      LinkIsAsReported(cfg, friends, start, init, i);
      FriendsStay(cfg, friends, start, init);
      RunKeepsInv(cfg, friends, start, init);
      var c := Run(cfg, friends, start, init);
      LinkStep(cfg, c, e, |friends|, i);
      assert e.what.FriendConnection? ==>
          (IsFor(c, i, e.what.friend) <==> e.what.friend == friends[i] && friends[i] !in friends[..i]);
      hide Step, Inv, IsFor;
    }
  }

  /** How many sessions have begun: a link report about the server in use, or a switch to another. */
  function Sessions(cfg: Config, friends: seq<int>, start: int, es: seq<Event>): nat {
    if es == [] then 0
    else
      var init, e := es[..|es| - 1], es[|es| - 1];
      var c := Run(cfg, friends, start, init);
      Sessions(cfg, friends, start, init)
      + (if (e.what.FriendConnection? && IsFor(c, c.active, e.what.friend)) || Step(cfg, c, e).active != c.active
         then 1 else 0)
  }

  lemma SessionStep(cfg: Config, c: Client, e: Event, n: nat)
    requires Inv(c, n)
    ensures var d := Step(cfg, c, e);
            var begins := (e.what.FriendConnection? && IsFor(c, c.active, e.what.friend)) || d.active != c.active;
            d.generation == c.generation + if begins then 1 else 0
  {
    hide FriendAt, IsFor, Silent;
    match e.what
    case FriendConnection(friend, _) => IsForFriendAt(c, c.active, friend);
    case PeerAlive(_) =>
    case DeadVerdict(_, _, _) =>
    case StandbyPong(_) =>
    case Failover(_) =>
  }

  /** In every run the session generation counts exactly the sessions that began. */
  lemma {:induction false} GenerationCountsSessions(cfg: Config, friends: seq<int>, start: int, es: seq<Event>)
    requires friends != []
    ensures Run(cfg, friends, start, es).generation == Sessions(cfg, friends, start, es)
  {
    if es != [] {
      var init := es[..|es| - 1];
      GenerationCountsSessions(cfg, friends, start, init);
      RunKeepsInv(cfg, friends, start, init);
      SessionStep(cfg, Run(cfg, friends, start, init), es[|es| - 1], |friends|);
      hide Step, Inv;
    }
  }
}
