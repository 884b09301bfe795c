/**
 * Routing across a failover: packets are filtered against the active server on
 * the network thread, handled later on a strand that runs posted tasks in
 * order, and answered through a send handler the strand repins on a switch.
 */
module ClientRoute {
  import opened Bytes

  /**
   * A strand task. `activeAtPost` records which friend was active when a frame
   * was posted; no code reads it.
   */
  datatype Task =
    | Frame(sender: int, activeAtPost: int)
    | Repin(friend: int)
    | Switch(next: nat)

  /** A frame the network thread admitted but has not posted yet. */
  datatype Hand = Empty | Holding(sender: int)

  /** A reply on its way out: whose frame it answers and which friend it goes to. */
  datatype Reply = Reply(sender: int, to: int)

  /**
   * `route` and `handler` are the strand's route pin and the friend the
   * manager's send handler sends to; `pending` the manager's backpressured
   * replies, `draining` the one a drain took out with its own handler copy.
   */
  datatype Client = Client(
    friends: seq<int>, active: nat, route: int, handler: int, strand: seq<Task>, hand: Hand,
    pending: seq<int>, draining: seq<Reply>, sent: seq<Reply>, dropped: seq<Task>)

  function ActiveFriend(c: Client): int
    requires c.active < |c.friends|
  {
    c.friends[c.active]
  }

  /** The network thread, under the endpoint lock: only the active server's packets are taken. */
  function Ingress(c: Client, sender: int): Client {
    if c.hand == Empty && c.active < |c.friends| && ActiveFriend(c) == sender then c.(hand := Holding(sender)) else c
  }

  /** The network thread posts what it holds, with no lock held. */
  function Post(c: Client): Client {
    if c.hand == Empty || c.active >= |c.friends| then c
    else c.(hand := Empty, strand := c.strand + [Frame(c.hand.sender, ActiveFriend(c))])
  }

  /** Under the endpoint lock: publish the new active server and queue the repin. */
  function SwitchActive(c: Client, next: nat): Client {
    if next >= |c.friends| || next == c.active then c
    else c.(active := next, strand := c.strand + [Repin(c.friends[next])])
  }

  function RunRepin(c: Client, friend: int): Client {
    c.(route := friend, pending := [], handler := friend)
  }

  /** A frame passes the gate only if its sender is the route friend; its reply goes out or waits. */
  function RunFrame(c: Client, f: Task, backpressure: bool): Client
    requires f.Frame?
  {
    if f.sender != c.route then c.(dropped := c.dropped + [f])
    else if backpressure then c.(pending := c.pending + [f.sender])
    else c.(sent := c.sent + [Reply(f.sender, c.handler)])
  }

  function RunTask(c: Client, backpressure: bool): Client {
    if c.strand == [] then c
    else
      var d := c.(strand := c.strand[1..]);
      match c.strand[0]
      case Frame(_, _) => RunFrame(d, c.strand[0], backpressure)
      case Repin(friend) => RunRepin(d, friend)
      case Switch(next) => SwitchActive(d, next)
  }

  /** A drain takes one waiting reply together with a copy of the handler. */
  function DrainTakes(c: Client): Client {
    if c.pending == [] || c.draining != [] then c
    else c.(pending := c.pending[1..], draining := [Reply(c.pending[0], c.handler)])
  }

  function DrainSends(c: Client): Client {
    c.(sent := c.sent + c.draining, draining := [])
  }

  datatype Move =
    | Arrives(sender: int)
    | Posts
    | AskSwitch(next: nat)
    | Runs(backpressure: bool)
    | Takes
    | Sends

  function Step(c: Client, m: Move): Client {
    match m
    case Arrives(sender) => Ingress(c, sender)
    case Posts => Post(c)
    case AskSwitch(next) => c.(strand := c.strand + [Switch(next)])
    case Runs(backpressure) => RunTask(c, backpressure)
    case Takes => DrainTakes(c)
    case Sends => DrainSends(c)
  }

  function Started(friends: seq<int>): Client
    requires friends != []
  {
    Client(friends, 0, friends[0], friends[0], [], Empty, [], [], [], [])
  }

  function Run(friends: seq<int>, moves: seq<Move>): Client
    requires friends != []
  {
    if moves == [] then Started(friends) else Step(Run(friends, moves[..|moves| - 1]), moves[|moves| - 1])
  }

  // ---------------------------------------------------------------------------
  // The object
  // ---------------------------------------------------------------------------

  class Router {
    var friends: seq<int>
    var active: nat
    var route: int
    var handler: int
    var strand: seq<Task>
    var hand: Hand
    var pending: seq<int>
    var draining: seq<Reply>
    var sent: seq<Reply>
    var dropped: seq<Task>

    function View(): Client
      reads this
    {
      Client(friends, active, route, handler, strand, hand, pending, draining, sent, dropped)
    }

    constructor (friends: seq<int>)
      requires friends != []
      ensures View() == Started(friends)
    {
      this.friends := friends;
      active, route, handler, hand := 0, friends[0], friends[0], Empty;
      strand, pending, draining, sent, dropped := [], [], [], [], [];
    }

    method OnPacket(sender: int)
      modifies `hand
      ensures View() == Ingress(old(View()), sender)
    {
      if hand != Empty || active >= |friends| || friends[active] != sender {
        return;
      }
      hand := Holding(sender);
    }

    method SwitchActiveEndpoint(next: nat)
      modifies `active, `strand
      ensures View() == SwitchActive(old(View()), next)
    {
      if next >= |friends| || next == active {
        return;
      }
      active := next;
      strand := strand + [Repin(friends[next])];
    }

    method InstallSendHandler(friend: int)
      modifies `handler
      ensures View() == old(View()).(handler := friend)
    {
      handler := friend;
    }

    method RunOne(backpressure: bool)
      modifies this
      ensures View() == RunTask(old(View()), backpressure)
    {
      if strand == [] {
        return;
      }
      var task := strand[0];
      strand := strand[1..];
      match task {
        case Repin(friend) =>
          route := friend;
          pending := [];
          InstallSendHandler(friend);
        case Switch(next) =>
          SwitchActiveEndpoint(next);
        case Frame(sender, _) =>
          if sender != route {
            dropped := dropped + [task];
            return;
          }
          if backpressure {
            pending := pending + [sender];
          } else {
            sent := sent + [Reply(sender, handler)];
          }
      }
    }
  }

  // ---------------------------------------------------------------------------
  // Every run
  // ---------------------------------------------------------------------------

  /** The route pin once these tasks have run: the last repin among them, or the present one. */
  function RouteAfter(route: int, tasks: seq<Task>): int {
    if tasks == [] then route
    else
      var last := tasks[|tasks| - 1];
      if last.Repin? then last.friend else RouteAfter(route, tasks[..|tasks| - 1])
  }

  lemma {:induction false} RouteAfterFirst(route: int, t: Task, rest: seq<Task>)
    ensures RouteAfter(route, [t] + rest) == RouteAfter(if t.Repin? then t.friend else route, rest)
  {
    if rest == [] {
      assert [t] + rest == [t] && [t][..0] == [];
    } else {
      RouteAfterFirst(route, t, rest[..|rest| - 1]);
      assert ([t] + rest)[..|rest|] == [t] + rest[..|rest| - 1];
    }
  }

  /** When a posted frame's turn comes, the route is the friend that was active when it was posted. */
  ghost predicate Foreseen(c: Client) {
    forall k :: 0 <= k < |c.strand| && c.strand[k].Frame? ==>
                  c.strand[k].activeAtPost == RouteAfter(c.route, c.strand[..k])
  }

  ghost predicate Inv(c: Client) {
    && c.active < |c.friends|
    && c.handler == c.route
    && RouteAfter(c.route, c.strand) == c.friends[c.active]
    && Foreseen(c)
    && (forall i :: 0 <= i < |c.pending| ==> c.pending[i] == c.handler)
    && (forall i :: 0 <= i < |c.draining| ==> c.draining[i].sender == c.draining[i].to)
    && (forall i :: 0 <= i < |c.sent| ==> c.sent[i].sender == c.sent[i].to)
    && (forall i :: 0 <= i < |c.dropped| ==> c.dropped[i].Frame? && c.dropped[i].sender != c.dropped[i].activeAtPost)
  }

  lemma AppendKeeps(c: Client, d: Client, t: Task)
    requires Inv(c) && d.strand == c.strand + [t] && d.route == c.route
    requires t.Frame? ==> t.activeAtPost == c.friends[c.active]
    ensures Foreseen(d)
    ensures RouteAfter(d.route, d.strand) == (if t.Repin? then t.friend else c.friends[c.active])
  {
    assert d.strand[..|c.strand|] == c.strand;
    forall k | 0 <= k < |d.strand| && d.strand[k].Frame?
      ensures d.strand[k].activeAtPost == RouteAfter(d.route, d.strand[..k])
    {
      if k < |c.strand| {
        assert d.strand[..k] == c.strand[..k] && d.strand[k] == c.strand[k];
      }
    }
  }

  lemma PopKeeps(c: Client, d: Client)
    requires Inv(c) && c.strand != [] && d.strand == c.strand[1..]
    requires d.route == (if c.strand[0].Repin? then c.strand[0].friend else c.route)
    ensures Foreseen(d) && RouteAfter(d.route, d.strand) == c.friends[c.active]
  {
    var t := c.strand[0];
    assert c.strand == [t] + d.strand;
    RouteAfterFirst(c.route, t, d.strand);
    forall k | 0 <= k < |d.strand| && d.strand[k].Frame?
      ensures d.strand[k].activeAtPost == RouteAfter(d.route, d.strand[..k])
    {
      assert c.strand[k + 1] == d.strand[k];
      assert c.strand[..k + 1] == [t] + d.strand[..k];
      RouteAfterFirst(c.route, t, d.strand[..k]);
    }
  }

  lemma RunTaskKeeps(c: Client, backpressure: bool)
    requires Inv(c) && c.strand != []
    ensures Inv(RunTask(c, backpressure))
  {
    var d := c.(strand := c.strand[1..]);
    match c.strand[0] {
      case Frame(sender, posted) =>
        PopKeeps(c, d);
        assert c.strand[..0] == [];
        assert posted == c.route;
        hide RouteAfter;
        assert Foreseen(RunTask(c, backpressure));
        hide Foreseen;
      case Repin(friend) =>
        PopKeeps(c, RunRepin(d, friend));
      case Switch(next) =>
        PopKeeps(c, d);
        if next < |c.friends| && next != c.active {
          AppendKeeps(d, SwitchActive(d, next), Repin(c.friends[next]));
        }
    }
  }

  lemma StepKeeps(c: Client, m: Move)
    requires Inv(c)
    ensures Inv(Step(c, m))
  {
    match m {
      case Arrives(sender) =>
      case Posts => if c.hand != Empty { AppendKeeps(c, Post(c), Frame(c.hand.sender, ActiveFriend(c))); }
      case AskSwitch(next) => AppendKeeps(c, Step(c, m), Switch(next));
      case Runs(backpressure) => if c.strand != [] { RunTaskKeeps(c, backpressure); }
      case Takes =>
      case Sends =>
    }
  }

  lemma {:induction false} RunInv(friends: seq<int>, moves: seq<Move>)
    requires friends != []
    ensures Inv(Run(friends, moves))
  {
    if moves != [] {
      RunInv(friends, moves[..|moves| - 1]);
      hide Inv, Step;
      StepKeeps(Run(friends, moves[..|moves| - 1]), moves[|moves| - 1]);
    }
  }

  /** In every run handler and gate are pinned to the same friend, and every reply goes to its frame's sender. */
  lemma RepliesGoToTheSender(friends: seq<int>, moves: seq<Move>, i: nat)
    requires friends != [] && i < |Run(friends, moves).sent|
    ensures Run(friends, moves).handler == Run(friends, moves).route
    ensures Run(friends, moves).sent[i].to == Run(friends, moves).sent[i].sender
  {
    RunInv(friends, moves);
  }

  /**
   * Whether a frame passes is settled when it is posted: it is handled if and
   * only if its sender is the active server at that moment, however many
   * switches are queued or decided before its turn.
   */
  lemma PassesIfActiveWhenPosted(friends: seq<int>, moves: seq<Move>, backpressure: bool)
    requires friends != []
    requires var c := Run(friends, moves); c.strand != [] && c.strand[0].Frame?
    ensures var c := Run(friends, moves);
            var f, d := c.strand[0], RunTask(c, backpressure);
            if f.sender == f.activeAtPost then
              d.dropped == c.dropped
              && (if backpressure then d.pending == c.pending + [f.sender]
                  else d.sent == c.sent + [Reply(f.sender, f.sender)])
            else
              d.dropped == c.dropped + [f] && d.pending == c.pending && d.sent == c.sent
  {
    RunInv(friends, moves);
    hide Run;
    var c := Run(friends, moves);
    assert c.strand[..0] == [];
    assert c.strand[0].activeAtPost == c.route;
  }

  /**
   * Admission alone is not enough: the packet is posted after the lock is
   * released, and a switch in between makes the gate drop it.
   */
  lemma AdmittedFrameCanBeDropped()
    ensures var c := Run([10, 20], [AskSwitch(1)] + [Arrives(10)] + [Runs(false)] + [Posts] + [Runs(false)]
                                   + [Runs(false)]);
            c.dropped == [Frame(10, 20)] && c.sent == []
  {
    var f, m1 := [10, 20], [AskSwitch(1)];
    assert Run(f, []) == Started(f) && [] + m1 == m1;
    hide Run;
    var m2 := m1 + [Arrives(10)];
    var m3 := m2 + [Runs(false)];
    var m4 := m3 + [Posts];
    var m5 := m4 + [Runs(false)];
    RunSnoc(f, [], AskSwitch(1));
    RunSnoc(f, m1, Arrives(10));
    RunSnoc(f, m2, Runs(false));
    RunSnoc(f, m3, Posts);
    RunSnoc(f, m4, Runs(false));
    RunSnoc(f, m5, Runs(false));
    DropSteps();
    hide Step;
  }

  lemma DropSteps()
    ensures Step(Step(Step(Step(Step(Step(Started([10, 20]), AskSwitch(1)), Arrives(10)), Runs(false)), Posts),
                           Runs(false)), Runs(false))
            == Started([10, 20]).(active := 1, route := 20, handler := 20, dropped := [Frame(10, 20)])
  {
    var c0 := Started([10, 20]);
    var c1 := c0.(strand := [Switch(1)]);
    assert Step(c0, AskSwitch(1)) == c1;
    var c2 := c1.(hand := Holding(10));
    assert Step(c1, Arrives(10)) == c2;
    var c3 := c2.(active := 1, strand := [Repin(20)]);
    assert Step(c2, Runs(false)) == c3;
    var c4 := c3.(hand := Empty, strand := [Repin(20), Frame(10, 20)]);
    assert Step(c3, Posts) == c4;
    var c5 := c4.(route := 20, handler := 20, strand := [Frame(10, 20)]);
    assert Step(c4, Runs(false)) == c5;
    var c6 := c5.(strand := [], dropped := [Frame(10, 20)]);
    assert Step(c5, Runs(false)) == c6;
  }

  lemma RunSnoc(friends: seq<int>, moves: seq<Move>, m: Move)
    requires friends != []
    ensures Run(friends, moves + [m]) == Step(Run(friends, moves), m)
  {
    assert (moves + [m])[..|moves|] == moves;
  }

  // ---------------------------------------------------------------------------
  // Every admitted frame is accounted for
  // ---------------------------------------------------------------------------

  function FramesOf(tasks: seq<Task>, friend: int): nat {
    if tasks == [] then 0
    else
      var t := tasks[|tasks| - 1];
      FramesOf(tasks[..|tasks| - 1], friend) + (if t.Frame? && t.sender == friend then 1 else 0)
  }

  function Waiting(pending: seq<int>, friend: int): nat {
    if pending == [] then 0
    else Waiting(pending[..|pending| - 1], friend) + (if pending[|pending| - 1] == friend then 1 else 0)
  }

  function RepliesTo(replies: seq<Reply>, friend: int): nat {
    if replies == [] then 0
    else RepliesTo(replies[..|replies| - 1], friend) + (if replies[|replies| - 1].sender == friend then 1 else 0)
  }

  /** A friend's admitted frames: held, posted, dropped, or with a reply waiting, going out or sent. */
  function Whereabouts(c: Client, friend: int): nat {
    (if c.hand == Holding(friend) then 1 else 0) + FramesOf(c.strand, friend) + FramesOf(c.dropped, friend)
    + Waiting(c.pending, friend) + RepliesTo(c.draining, friend) + RepliesTo(c.sent, friend)
  }

  /** The friend's frames a move takes in: a packet that finds the hand free, while the friend is active. */
  function Taken(c: Client, m: Move, friend: int): nat {
    if m == Arrives(friend) && c.hand == Empty && c.active < |c.friends| && c.friends[c.active] == friend then 1 else 0
  }

  /** The replies still waiting when a move repins the strand. */
  function Cleared(c: Client, m: Move, friend: int): nat {
    if m.Runs? && c.strand != [] && c.strand[0].Repin? then Waiting(c.pending, friend) else 0
  }

  function Admitted(friends: seq<int>, moves: seq<Move>, friend: int): nat
    requires friends != []
  {
    if moves == [] then 0
    else
      var init := moves[..|moves| - 1];
      Admitted(friends, init, friend) + Taken(Run(friends, init), moves[|moves| - 1], friend)
  }

  function Forgotten(friends: seq<int>, moves: seq<Move>, friend: int): nat
    requires friends != []
  {
    if moves == [] then 0
    else
      var init := moves[..|moves| - 1];
      Forgotten(friends, init, friend) + Cleared(Run(friends, init), moves[|moves| - 1], friend)
  }

  lemma {:induction false} FramesFirst(t: Task, rest: seq<Task>, friend: int)
    ensures FramesOf([t] + rest, friend) == (if t.Frame? && t.sender == friend then 1 else 0) + FramesOf(rest, friend)
  {
    if rest == [] {
      assert [t] + rest == [t] && [t][..0] == [];
    } else {
      FramesFirst(t, rest[..|rest| - 1], friend);
      assert ([t] + rest)[..|rest|] == [t] + rest[..|rest| - 1];
    }
  }

  lemma FramesLast(rest: seq<Task>, t: Task, friend: int)
    ensures FramesOf(rest + [t], friend) == FramesOf(rest, friend) + (if t.Frame? && t.sender == friend then 1 else 0)
  {
    assert (rest + [t])[..|rest|] == rest;
  }

  lemma {:induction false} WaitingFirst(x: int, rest: seq<int>, friend: int)
    ensures Waiting([x] + rest, friend) == (if x == friend then 1 else 0) + Waiting(rest, friend)
  {
    if rest == [] {
      assert [x] + rest == [x] && [x][..0] == [];
    } else {
      WaitingFirst(x, rest[..|rest| - 1], friend);
      assert ([x] + rest)[..|rest|] == [x] + rest[..|rest| - 1];
    }
  }

  lemma WaitingLast(rest: seq<int>, x: int, friend: int)
    ensures Waiting(rest + [x], friend) == Waiting(rest, friend) + (if x == friend then 1 else 0)
  {
    assert (rest + [x])[..|rest|] == rest;
  }

  lemma {:induction false} RepliesConcat(a: seq<Reply>, b: seq<Reply>, friend: int)
    ensures RepliesTo(a + b, friend) == RepliesTo(a, friend) + RepliesTo(b, friend)
  {
    if b == [] {
      assert a + b == a;
    } else {
      RepliesConcat(a, b[..|b| - 1], friend);
      assert (a + b)[..|a + b| - 1] == a + b[..|b| - 1];
    }
  }

  lemma OneReply(r: Reply, friend: int)
    ensures RepliesTo([r], friend) == if r.sender == friend then 1 else 0
  {
    assert [r][..0] == [];
  }

  lemma FrameAccounts(c: Client, t: Task, backpressure: bool, friend: int)
    requires t.Frame?
    ensures Whereabouts(RunFrame(c, t, backpressure), friend)
            == Whereabouts(c, friend) + (if t.sender == friend then 1 else 0)
  {
    FramesLast(c.dropped, t, friend);
    WaitingLast(c.pending, t.sender, friend);
    RepliesConcat(c.sent, [Reply(t.sender, c.handler)], friend);
    OneReply(Reply(t.sender, c.handler), friend);
    hide FramesOf, RepliesTo, Waiting;
  }

  lemma TaskAccounts(c: Client, backpressure: bool, friend: int)
    requires c.strand != []
    ensures Whereabouts(c, friend)
            == Whereabouts(RunTask(c, backpressure), friend)
               + (if c.strand[0].Repin? then Waiting(c.pending, friend) else 0)
  {
    var t, rest := c.strand[0], c.strand[1..];
    assert c.strand == [t] + rest;
    FramesFirst(t, rest, friend);
    match t {
      case Frame(sender, _) =>
        FrameAccounts(c.(strand := rest), t, backpressure, friend);
        hide FramesOf, RepliesTo, Waiting, RunFrame;
      case Repin(to) =>
        hide FramesOf, RepliesTo;
      case Switch(next) =>
        if next < |c.friends| {
          FramesLast(rest, Repin(c.friends[next]), friend);
        }
        hide FramesOf, RepliesTo, Waiting;
    }
  }

  lemma MoveAccounts(c: Client, m: Move, friend: int)
    ensures Whereabouts(c, friend) + Taken(c, m, friend) == Whereabouts(Step(c, m), friend) + Cleared(c, m, friend)
  {
    match m {
      case Arrives(sender) => hide FramesOf, RepliesTo, Waiting;
      case Posts =>
        if c.hand != Empty && c.active < |c.friends| {
          FramesLast(c.strand, Frame(c.hand.sender, ActiveFriend(c)), friend);
        }
        hide FramesOf, RepliesTo, Waiting;
      case AskSwitch(next) =>
        FramesLast(c.strand, Switch(next), friend);
        hide FramesOf, RepliesTo, Waiting;
      case Runs(backpressure) =>
        if c.strand != [] {
          TaskAccounts(c, backpressure, friend);
        }
        hide FramesOf, RepliesTo, Waiting, RunTask;
      case Takes =>
        if c.pending != [] {
          OneReply(Reply(c.pending[0], c.handler), friend);
          WaitingFirst(c.pending[0], c.pending[1..], friend);
          assert c.pending == [c.pending[0]] + c.pending[1..];
        }
        assert c.draining == [] ==> RepliesTo(c.draining, friend) == 0;
        hide FramesOf, RepliesTo, Waiting;
      case Sends =>
        RepliesConcat(c.sent, c.draining, friend);
        assert RepliesTo([], friend) == 0;
        hide FramesOf, RepliesTo, Waiting;
    }
  }

  /**
   * In every run each packet of the server that was active when it arrived is
   * taken in once, no other is, and each one taken in is held, posted, dropped
   * at the gate, or answered, its reply waiting, going out, sent, or forgotten
   * at the one repin that found it waiting.
   */
  lemma {:induction false} FramesAreAccounted(friends: seq<int>, moves: seq<Move>, friend: int)
    requires friends != []
    ensures Admitted(friends, moves, friend)
            == Whereabouts(Run(friends, moves), friend) + Forgotten(friends, moves, friend)
  {
    if moves != [] {
      var init := moves[..|moves| - 1];
      FramesAreAccounted(friends, init, friend);
      MoveAccounts(Run(friends, init), moves[|moves| - 1], friend);
      hide Step, Whereabouts, Taken, Cleared;
    }
  }
}
