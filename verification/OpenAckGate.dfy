/**
 * The gate that publishes a tunnel only after its OPEN_ACK reached the
 * transport. Its methods hold a mutex for a few assignments at a time and call
 * out with no lock held, so a run is an interleaving of critical sections and
 * callbacks of any number of threads.
 */
module OpenAckGate {
  import opened Bytes

  datatype Phase = Pending | Sending | Committing | Committed | Abandoned

  datatype SendOutcome = Sent | Retry | PermanentFail

  /** The `has` flags say which callbacks the gate still holds; `armed` that a retry wait is registered. */
  datatype Gate = Gate(
    phase: Phase, goneRequested: bool, hasSend: bool, hasCommit: bool, hasAbandon: bool, hasPostClose: bool,
    armed: bool)

  const FRESH_GATE := Gate(Pending, false, true, true, true, true, false)

  /** What a thread does next; each value is one critical section or one callback away from the next. */
  datatype Thread =
    | Attempting                      // about to claim the send
    | InSend                          // inside the transport, no lock held
    | Judging(outcome: SendOutcome)   // about to record the verdict
    | Arming                          // about to arm the retry timer
    | AbandonDue                      // about to run the abandon callback
    | CommitDue                       // running the commit callback
    | CommitDone(published: bool)     // about to record the publication
    | CloseDue                        // about to run the post-commit close
    | GoneCalling                     // about to enter target_gone
    | DisarmCalling                   // about to enter disarm
    | Finished

  datatype Event =
    | SendStart | SendEnd(outcome: SendOutcome)
    | Recorded(outcome: SendOutcome)  // the verdict on a send that ended was recorded
    | AbandonRun | CommitRun(published: bool) | CloseRun
    | Gone           // target_gone was answered or handed over
    | CallerCloses   // target_gone returned false: its caller runs the ordinary close
    | Disarmed       // disarm returned true

  function Release(g: Gate): Gate {
    g.(armed := false, hasSend := false, hasCommit := false, hasAbandon := false)
  }

  // ---------------------------------------------------------------------------
  // The critical sections: the new gate and what the thread does after it
  // ---------------------------------------------------------------------------

  function Claim(g: Gate): (Gate, Thread) {
    if g.phase != Pending then (g, Finished)
    else if g.hasSend then (g.(phase := Sending), InSend)
    else (g.(phase := Sending), Judging(PermanentFail))
  }

  function ToAbandon(g: Gate): (Gate, Thread) {
    (Release(g).(phase := Abandoned, hasPostClose := false), if g.hasAbandon then AbandonDue else Finished)
  }

  function Judge(g: Gate, outcome: SendOutcome): (Gate, Thread) {
    if g.goneRequested then ToAbandon(g)
    else match outcome
      case Sent => (Release(g).(phase := Committing), if g.hasCommit then CommitDue else Finished)
      case PermanentFail => ToAbandon(g)
      case Retry => (g.(phase := Pending), Arming)
  }

  function Publish(g: Gate, published: bool): (Gate, Thread) {
    (g.(phase := if published then Committed else Abandoned, hasPostClose := false),
     if published && g.goneRequested && g.hasPostClose then CloseDue else Finished)
  }

  function Arm(g: Gate): Gate {
    if g.phase != Pending then g else g.(armed := true)
  }

  /** The third component is what target_gone returns: true when the gate owns the teardown. */
  function TargetGone(g: Gate): (Gate, Thread, bool) {
    match g.phase
    case Pending => var (h, t) := ToAbandon(g); (h, t, true)
    case Sending => (g.(goneRequested := true, armed := false), Finished, true)
    case Committing => (g.(goneRequested := true, armed := false), Finished, true)
    case Committed => (g, Finished, false)
    case Abandoned => (g, Finished, true)
  }

  function Disarm(g: Gate): (Gate, bool) {
    if g.phase != Pending then (g, false)
    else (Release(g).(phase := Abandoned, hasPostClose := false), true)
  }

  // ---------------------------------------------------------------------------
  // The object
  // ---------------------------------------------------------------------------

  class AckGate {
    var phase: Phase
    var goneRequested: bool
    var hasSend: bool
    var hasCommit: bool
    var hasAbandon: bool
    var hasPostClose: bool
    var armed: bool

    function View(): Gate
      reads this
    {
      Gate(phase, goneRequested, hasSend, hasCommit, hasAbandon, hasPostClose, armed)
    }

    constructor ()
      ensures View() == FRESH_GATE
    {
      phase, goneRequested, armed := Pending, false, false;
      hasSend, hasCommit, hasAbandon, hasPostClose := true, true, true, true;
    }

    method ReleaseCallbacks()
      modifies `armed, `hasSend, `hasCommit, `hasAbandon
      ensures View() == Release(old(View()))
    {
      armed := false;
      hasSend, hasCommit, hasAbandon := false, false, false;
    }

    /** Moves the abandon callback out and resolves the gate to Abandoned. */
    method TakeAbandon() returns (next: Thread)
      modifies this
      ensures (View(), next) == ToAbandon(old(View()))
    {
      phase := Abandoned;
      next := if hasAbandon then AbandonDue else Finished;
      ReleaseCallbacks();
      hasPostClose := false;
    }

    method ClaimSend() returns (next: Thread)
      modifies `phase
      ensures (View(), next) == Claim(old(View()))
    {
      if phase != Pending {
        return Finished;
      }
      phase := Sending;
      next := if hasSend then InSend else Judging(PermanentFail);
    }

    method RecordVerdict(outcome: SendOutcome) returns (next: Thread)
      modifies this
      ensures (View(), next) == Judge(old(View()), outcome)
    {
      if goneRequested {
        next := TakeAbandon();
      } else if outcome == Sent {
        phase := Committing;
        next := if hasCommit then CommitDue else Finished;
        ReleaseCallbacks();
      } else if outcome == PermanentFail {
        next := TakeAbandon();
      } else {
        phase := Pending;
        next := Arming;
      }
    }

    method RecordPublication(published: bool) returns (next: Thread)
      modifies `phase, `hasPostClose
      ensures (View(), next) == Publish(old(View()), published)
    {
      phase := if published then Committed else Abandoned;
      next := Finished;
      if published && goneRequested && hasPostClose {
        next := CloseDue;
      }
      hasPostClose := false;
    }

    method ArmRetry()
      modifies `armed
      ensures View() == Arm(old(View()))
    {
      if phase != Pending {
        return;
      }
      armed := true;
    }

    method OnTargetGone() returns (next: Thread, owned: bool)
      modifies this
      ensures (View(), next, owned) == TargetGone(old(View()))
    {
      next := Finished;
      match phase {
        case Pending =>
          next := TakeAbandon();
        case Sending =>
          goneRequested, armed := true, false;
          return Finished, true;
        case Committing =>
          goneRequested, armed := true, false;
          return Finished, true;
        case Committed =>
          return Finished, false;
        case Abandoned =>
          return Finished, true;
      }
      owned := true;
    }

    method OnDisarm() returns (done: bool)
      modifies this
      ensures (View(), done) == Disarm(old(View()))
    {
      if phase != Pending {
        return false;
      }
      phase := Abandoned;
      ReleaseCallbacks();
      hasPostClose := false;
      done := true;
    }
  }

  // ---------------------------------------------------------------------------
  // Every interleaving
  // ---------------------------------------------------------------------------

  datatype World = World(gate: Gate, threads: multiset<Thread>, log: seq<Event>)

  const START := World(FRESH_GATE, multiset{}, [])

  /** A call into the gate begins, the retry timer fires, or one thread takes its next step. */
  datatype Move =
    | Call(entry: Thread)
    | Fire
    | Go(thread: Thread, outcome: SendOutcome, published: bool)

  function After(w: World, from: Thread, g: Gate, next: Thread, events: seq<Event>): World
    requires from in w.threads
  {
    World(g, w.threads - multiset{from} + (if next == Finished then multiset{} else multiset{next}), w.log + events)
  }

  /** The world after a move; a move that is not possible changes nothing. */
  function Step(w: World, m: Move): World {
    match m
    case Call(entry) =>
      if entry == Attempting || entry == GoneCalling || entry == DisarmCalling then
        w.(threads := w.threads + multiset{entry})
      else w
    case Fire =>
      if w.gate.armed then w.(gate := w.gate.(armed := false), threads := w.threads + multiset{Attempting}) else w
    case Go(t, outcome, published) =>
      if t !in w.threads then w else Go1(w, t, outcome, published)
  }

  /** What the thread's next step does to the gate, and what the thread does after it. */
  function Act(g: Gate, t: Thread, outcome: SendOutcome, published: bool): (Gate, Thread) {
    match t
    case Attempting => Claim(g)
    case InSend => (g, Judging(outcome))
    case Judging(o) => Judge(g, o)
    case Arming => (Arm(g), Finished)
    case AbandonDue => (g, Finished)
    case CommitDue => (g, CommitDone(published))
    case CommitDone(p) => Publish(g, p)
    case CloseDue => (g, Finished)
    case GoneCalling => var (h, next, owned) := TargetGone(g); (h, next)
    case DisarmCalling => (Disarm(g).0, Finished)
    case Finished => (g, Finished)
  }

  /** What the thread's next step shows to the outside. */
  function Shows(g: Gate, t: Thread, outcome: SendOutcome, published: bool): (events: seq<Event>)
    ensures |events| <= 2
  {
    match t
    case Attempting => if Claim(g).1 == InSend then [SendStart] else []
    case InSend => [SendEnd(outcome)]
    case Judging(o) => [Recorded(o)]
    case AbandonDue => [AbandonRun]
    case CommitDue => [CommitRun(published)]
    case CloseDue => [CloseRun]
    case GoneCalling => if TargetGone(g).2 then [Gone] else [Gone, CallerCloses]
    case DisarmCalling => if Disarm(g).1 then [Disarmed] else []
    case _ => []
  }

  function Go1(w: World, t: Thread, outcome: SendOutcome, published: bool): World
    requires t in w.threads
  {
    var (g, next) := Act(w.gate, t, outcome, published);
    After(w, t, g, next, Shows(w.gate, t, outcome, published))
  }

  function Run(moves: seq<Move>): World {
    if moves == [] then START else Step(Run(moves[..|moves| - 1]), moves[|moves| - 1])
  }

  function Times(w: World, e: Event): nat {
    multiset(w.log)[e]
  }

  /** How many threads are about to do `t`. */
  function At(w: World, t: Thread): nat {
    w.threads[t]
  }

  /** Threads inside a send or holding its verdict. */
  function Senders(w: World): nat {
    At(w, InSend) + At(w, Judging(Sent)) + At(w, Judging(Retry)) + At(w, Judging(PermanentFail))
  }

  function Committers(w: World): nat {
    At(w, CommitDue) + At(w, CommitDone(true)) + At(w, CommitDone(false))
  }

  predicate Unresolved(p: Phase) {
    p == Pending || p == Sending
  }

  /** Who is in which callback, phase by phase. */
  ghost predicate Owners(w: World) {
    && Senders(w) == (if w.gate.phase == Sending then 1 else 0)
    && Committers(w) == (if w.gate.phase == Committing then 1 else 0)
    && At(w, Finished) == 0
    && (Unresolved(w.gate.phase) ==>
          w.gate.hasSend && w.gate.hasCommit && w.gate.hasAbandon && w.gate.hasPostClose)
    && (w.gate.phase == Committing ==> w.gate.hasPostClose)
    && (w.gate.phase == Pending ==> !w.gate.goneRequested)
    && (!Unresolved(w.gate.phase) ==> !w.gate.armed)
  }

  /** Which callbacks have run or are due, phase by phase. */
  ghost predicate Resolved(w: World) {
    var abandons := Times(w, AbandonRun) + At(w, AbandonDue);
    var closes := Times(w, CloseRun) + At(w, CloseDue);
    && Times(w, CommitRun(true)) == (if w.gate.phase == Committed then 1 else At(w, CommitDone(true)))
    && (Unresolved(w.gate.phase) ==> Times(w, CommitRun(false)) == 0)
    && (w.gate.phase == Committing ==> Times(w, CommitRun(false)) == At(w, CommitDone(false)))
    && (w.gate.phase == Committed ==> Times(w, CommitRun(false)) == 0)
    && (w.gate.phase != Abandoned ==> abandons == 0 && Times(w, Disarmed) == 0)
    && (w.gate.phase == Abandoned ==> abandons + Times(w, Disarmed) + Times(w, CommitRun(false)) == 1)
    && closes == (if w.gate.phase == Committed && w.gate.goneRequested then 1 else 0)
  }

  /** How the calls to target_gone were answered. */
  ghost predicate Answered(w: World) {
    && (w.gate.goneRequested ==> Times(w, Gone) > Times(w, CallerCloses))
    && (w.gate.phase != Committed ==> Times(w, CallerCloses) == 0)
    && (w.gate.phase != Committed && w.gate.phase != Abandoned && Times(w, Gone) > 0 ==> w.gate.goneRequested)
    && (w.gate.phase == Committed && !w.gate.goneRequested ==> Times(w, Gone) == Times(w, CallerCloses))
  }

  /** Every send that started has ended or is inside the transport. */
  ghost predicate Sends(w: World) {
    Times(w, SendStart)
    == Times(w, SendEnd(Sent)) + Times(w, SendEnd(Retry)) + Times(w, SendEnd(PermanentFail)) + At(w, InSend)
  }

  predicate IsSend(e: Event) {
    e == SendStart || e.SendEnd?
  }

  /** On the wire, nothing is sent after the terminal error. */
  ghost predicate Ordered(w: World) {
    forall i, j :: 0 <= i < j < |w.log| && w.log[i] == AbandonRun ==> !IsSend(w.log[j])
  }

  /** An unresolved gate that was started has a thread or the timer left to move it on. */
  ghost predicate Alive(w: World) {
    w.gate.phase == Pending && Times(w, SendStart) > 0 ==>
      w.gate.armed || At(w, Attempting) > 0 || At(w, Arming) > 0
  }

  /** All but the order of the log. */
  ghost predicate Book(w: World) {
    Owners(w) && Resolved(w) && Answered(w) && Sends(w) && Alive(w)
  }

  ghost predicate Inv(w: World) {
    Book(w) && Ordered(w)
  }

  function Occurs(events: seq<Event>, e: Event): nat {
    (if |events| > 0 && events[0] == e then 1 else 0) + (if |events| > 1 && events[1] == e then 1 else 0)
  }

  /** One thread went from `from` to `next`. */
  ghost predicate Moved(w: World, v: World, from: Thread, next: Thread) {
    forall t :: At(v, t)
                == At(w, t) - (if t == from then 1 else 0) + (if t == next && next != Finished then 1 else 0)
  }

  /** One thread went from `from` to `next` and the log grew by `events`. */
  ghost predicate Shifted(w: World, v: World, from: Thread, next: Thread, events: seq<Event>) {
    && |events| <= 2
    && Moved(w, v, from, next)
    && (forall e :: Times(v, e) == Times(w, e) + Occurs(events, e))
  }

  lemma AfterShifts(w: World, from: Thread, g: Gate, next: Thread, events: seq<Event>)
    requires from in w.threads && |events| <= 2
    ensures Shifted(w, After(w, from, g, next, events), from, next, events)
    ensures After(w, from, g, next, events).gate == g
  {
    var v := After(w, from, g, next, events);
    forall t
      ensures At(v, t) == At(w, t) - (if t == from then 1 else 0) + (if t == next && next != Finished then 1 else 0)
    {
      var rest := w.threads - multiset{from};
      assert rest[t] == w.threads[t] - (if t == from then 1 else 0);
    }
    forall e ensures Times(v, e) == Times(w, e) + Occurs(events, e) {
      EventsOccur(events, e);
    }
  }

  lemma EventsOccur(events: seq<Event>, e: Event)
    requires |events| <= 2
    ensures multiset(events)[e] == Occurs(events, e)
  {
    assert |events| == 1 ==> events == [events[0]];
    assert |events| == 2 ==> events == [events[0], events[1]];
  }

  lemma ClaimKeeps(w: World, v: World, next: Thread)
    requires Book(w) && (v.gate, next) == Claim(w.gate)
    requires Shifted(w, v, Attempting, next, if next == InSend then [SendStart] else [])
    ensures Book(v)
  {
    hide Times, At;
  }

  lemma JudgeKeeps(w: World, v: World, o: SendOutcome, next: Thread)
    requires Book(w) && At(w, Judging(o)) > 0 && (v.gate, next) == Judge(w.gate, o)
    requires Moved(w, v, Judging(o), next) && forall e: Event :: !e.Recorded? ==> Times(v, e) == Times(w, e)
    ensures Book(v)
  {
    hide Times, At;
  }

  lemma SendEndKeeps(w: World, v: World, o: SendOutcome)
    requires Book(w) && At(w, InSend) > 0 && v.gate == w.gate && Shifted(w, v, InSend, Judging(o), [SendEnd(o)])
    ensures Book(v)
  {
    hide Times, At;
  }

  lemma AbandonKeeps(w: World, v: World)
    requires Book(w) && At(w, AbandonDue) > 0 && v.gate == w.gate && Shifted(w, v, AbandonDue, Finished, [AbandonRun])
    ensures Book(v)
  {
    hide Times, At;
  }

  lemma CommitKeeps(w: World, v: World, p: bool)
    requires Book(w) && At(w, CommitDue) > 0 && v.gate == w.gate
    requires Shifted(w, v, CommitDue, CommitDone(p), [CommitRun(p)])
    ensures Book(v)
  {
    hide Times, At;
  }

  lemma PublishKeeps(w: World, v: World, p: bool, next: Thread)
    requires Book(w) && At(w, CommitDone(p)) > 0 && (v.gate, next) == Publish(w.gate, p)
    requires Shifted(w, v, CommitDone(p), next, [])
    ensures Book(v)
  {
    hide Times, At;
  }

  lemma CloseKeeps(w: World, v: World)
    requires Book(w) && At(w, CloseDue) > 0 && v.gate == w.gate && Shifted(w, v, CloseDue, Finished, [CloseRun])
    ensures Book(v)
  {
    hide Times, At;
  }

  lemma ArmKeeps(w: World, v: World)
    requires Book(w) && At(w, Arming) > 0 && v.gate == Arm(w.gate) && Shifted(w, v, Arming, Finished, [])
    ensures Book(v)
  {
    hide Times, At;
  }

  lemma GoneKeeps(w: World, v: World, next: Thread, owned: bool)
    requires Book(w) && At(w, GoneCalling) > 0 && (v.gate, next, owned) == TargetGone(w.gate)
    requires Shifted(w, v, GoneCalling, next, if owned then [Gone] else [Gone, CallerCloses])
    ensures Book(v)
  {
    hide Times, At;
  }

  lemma DisarmKeeps(w: World, v: World, done: bool)
    requires Book(w) && At(w, DisarmCalling) > 0 && (v.gate, done) == Disarm(w.gate)
    requires Shifted(w, v, DisarmCalling, Finished, if done then [Disarmed] else [])
    ensures Book(v)
  {
    hide Times, At;
  }

  lemma GoKeepsBook(w: World, t: Thread, outcome: SendOutcome, published: bool)
    requires Book(w) && t in w.threads
    ensures Book(Go1(w, t, outcome, published))
  {
    var v := Go1(w, t, outcome, published);
    var (g, next) := Act(w.gate, t, outcome, published);
    AfterShifts(w, t, g, next, Shows(w.gate, t, outcome, published));
    hide Book, Shifted, Moved, Claim, Judge, Publish, Arm, TargetGone, Disarm, After;
    match t {
      case Attempting => ClaimKeeps(w, v, next);
      case InSend => SendEndKeeps(w, v, outcome);
      case Judging(o) =>
        OnlyRecorded(w, v, o, next);
        JudgeKeeps(w, v, o, next);
      case Arming => ArmKeeps(w, v);
      case AbandonDue => AbandonKeeps(w, v);
      case CommitDue => CommitKeeps(w, v, published);
      case CommitDone(p) => PublishKeeps(w, v, p, next);
      case CloseDue => CloseKeeps(w, v);
      case GoneCalling => GoneKeeps(w, v, next, TargetGone(w.gate).2);
      case DisarmCalling => DisarmKeeps(w, v, Disarm(w.gate).1);
      case Finished => NoFinished(w);
    }
  }

  lemma OnlyRecorded(w: World, v: World, o: SendOutcome, next: Thread)
    requires Shifted(w, v, Judging(o), next, [Recorded(o)])
    ensures Moved(w, v, Judging(o), next) && forall e: Event :: !e.Recorded? ==> Times(v, e) == Times(w, e)
  {
    hide Times, At;
  }

  lemma NoFinished(w: World)
    requires Book(w)
    ensures Finished !in w.threads
  {
  }

  /** A call that begins, or the timer firing, only adds a thread. */
  lemma EntryKeepsBook(w: World, m: Move)
    requires Book(w) && !m.Go?
    ensures Book(Step(w, m))
  {
    var v := Step(w, m);
    if v != w {
      var t := if m.Fire? then Attempting else m.entry;
      assert forall u :: At(v, u) == At(w, u) + (if u == t then 1 else 0);
      assert forall e :: Times(v, e) == Times(w, e);
      EntryCounts(w, v, t);
    }
  }

  lemma EntryCounts(w: World, v: World, t: Thread)
    requires Book(w) && (t == Attempting || t == GoneCalling || t == DisarmCalling)
    requires v.gate == w.gate || (v.gate == w.gate.(armed := false) && w.gate.armed && t == Attempting)
    requires forall u :: At(v, u) == At(w, u) + (if u == t then 1 else 0)
    requires forall e :: Times(v, e) == Times(w, e)
    ensures Book(v)
  {
    hide At, Times;
  }

  lemma OrderedAppend(w: World, v: World, events: seq<Event>)
    requires Ordered(w) && v.log == w.log + events
    requires forall k :: 0 <= k < |events| ==> events[k] == AbandonRun ==> k == |events| - 1
    requires forall k :: 0 <= k < |events| && IsSend(events[k]) ==> AbandonRun !in w.log
    ensures Ordered(v)
  {
    forall i, j | 0 <= i < j < |v.log| && v.log[i] == AbandonRun ensures !IsSend(v.log[j]) {
      if j >= |w.log| {
        assert v.log[j] == events[j - |w.log|];
        if i < |w.log| {
          assert AbandonRun in w.log;
        }
      }
    }
  }

  /** The log grows by what the step says, and a send event only while a send is under way. */
  lemma StepKeepsOrder(w: World, m: Move)
    requires Book(w) && Ordered(w)
    ensures Ordered(Step(w, m))
  {
    var v := Step(w, m);
    NoSendAfterAbandon(w);
    hide Book, Ordered, Act, IsSend;
    if m.Go? && m.thread in w.threads {
      var events := Shows(w.gate, m.thread, m.outcome, m.published);
      ShowsShape(w.gate, m.thread, m.outcome, m.published);
      hide Shows;
      OrderedAppend(w, v, events);
    } else {
      OrderedAppend(w, v, []);
    }
  }

  lemma ShowsShape(g: Gate, t: Thread, outcome: SendOutcome, published: bool)
    ensures var events := Shows(g, t, outcome, published);
            && (forall k :: 0 <= k < |events| ==> events[k] == AbandonRun ==> k == |events| - 1)
            && (forall k :: 0 <= k < |events| && IsSend(events[k]) ==> t == InSend || g.phase == Pending)
  {
  }

  /** Once the abandon callback has run the gate is resolved, so no send can start or end. */
  lemma NoSendAfterAbandon(w: World)
    requires Book(w)
    ensures AbandonRun in w.log ==> w.gate.phase == Abandoned && InSend !in w.threads
  {
    assert AbandonRun in w.log <==> Times(w, AbandonRun) > 0;
    assert InSend in w.threads <==> At(w, InSend) > 0;
    hide At, Times;
  }

  lemma StepInv(w: World, m: Move)
    requires Inv(w)
    ensures Inv(Step(w, m))
  {
    StepKeepsOrder(w, m);
    hide Book, Ordered, Go1;
    if m.Go? {
      if m.thread in w.threads {
        GoKeepsBook(w, m.thread, m.outcome, m.published);
      }
    } else {
      EntryKeepsBook(w, m);
    }
  }

  /** Every run keeps the invariant. */
  lemma {:induction false} RunInv(moves: seq<Move>)
    ensures Inv(Run(moves))
  {
    if moves != [] {
      RunInv(moves[..|moves| - 1]);
      hide Inv, Step;
      StepInv(Run(moves[..|moves| - 1]), moves[|moves| - 1]);
    }
  }

  // ---------------------------------------------------------------------------
  // What every interleaving promises
  // ---------------------------------------------------------------------------

  /** Commit and abandon exclude each other, and each happens at most once. */
  lemma CommitOrAbandonOnce(moves: seq<Move>)
    ensures var w := Run(moves);
            Times(w, CommitRun(true)) + Times(w, CommitRun(false)) + Times(w, AbandonRun) <= 1
  {
    RunInv(moves);
    hide At, Times, Run;
  }

  /** At most one send is inside the transport, and none is once the abandon was chosen. */
  lemma OneSendAtATime(moves: seq<Move>)
    ensures var w := Run(moves);
            && Times(w, SendStart)
               - (Times(w, SendEnd(Sent)) + Times(w, SendEnd(Retry)) + Times(w, SendEnd(PermanentFail)))
               == At(w, InSend) <= 1
            && (At(w, AbandonDue) > 0 ==> At(w, InSend) == 0)
  {
    RunInv(moves);
    hide At, Times, Run;
  }

  /** The peer never sees an OPEN_ACK after the TUNNEL_ERROR: nothing is sent once the abandon callback ran. */
  lemma NeverErrorThenAck(moves: seq<Move>, i: nat, j: nat)
    requires i < j < |Run(moves).log| && Run(moves).log[i] == AbandonRun
    ensures !IsSend(Run(moves).log[j])
  {
    RunInv(moves);
    hide Book, Run;
  }

  // ---------------------------------------------------------------------------
  // What the transport answered decides
  // ---------------------------------------------------------------------------

  /** The last thing the log says about a send. */
  function LastSend(log: seq<Event>): Option<Event> {
    if log == [] then None
    else if IsSend(log[|log| - 1]) then Some(log[|log| - 1])
    else LastSend(log[..|log| - 1])
  }

  /** A delivered ACK was recorded before the target was reported gone. */
  ghost predicate Delivered(log: seq<Event>) {
    exists k :: 0 <= k < |log| && log[k] == Recorded(Sent) && Gone !in log[..k]
  }

  /** A verdict was recorded that leaves only the abandon. */
  ghost predicate Doomed(log: seq<Event>) {
    exists k :: 0 <= k < |log| && log[k].Recorded? && (log[k] == Recorded(PermanentFail) || Gone in log[..k])
  }

  /** A reason to abandon. */
  predicate Failed(log: seq<Event>) {
    Gone in log || SendEnd(PermanentFail) in log
  }

  /** What must have happened before an event. */
  ghost predicate Explained(before: seq<Event>, e: Event) {
    match e
    case CommitRun(_) => Delivered(before)
    case AbandonRun => Failed(before)
    case Recorded(o) => LastSend(before) == Some(SendEnd(o))
    case _ => true
  }

  ghost predicate AllExplained(log: seq<Event>) {
    log == [] || (AllExplained(log[..|log| - 1]) && Explained(log[..|log| - 1], log[|log| - 1]))
  }

  /** A thread with a verdict in hand has it from the last send, and no send that ended is forgotten. */
  ghost predicate Verdicts(w: World) {
    && (forall o :: At(w, Judging(o)) > 0 ==> LastSend(w.log) == Some(SendEnd(o)))
    && (forall o :: SendEnd(o) in w.log ==> Recorded(o) in w.log || At(w, Judging(o)) > 0)
  }

  /** What the phase and the callbacks due owe to the log so far, and what it still makes due. */
  ghost predicate Caused(w: World) {
    && AllExplained(w.log)
    && (w.gate.phase == Committing ==> Delivered(w.log))
    && (At(w, AbandonDue) > 0 ==> Failed(w.log))
    && (Delivered(w.log) ==> !Unresolved(w.gate.phase) && (At(w, CommitDue) > 0 || Commits(w.log)))
    && (Doomed(w.log) ==> At(w, AbandonDue) > 0 || AbandonRun in w.log)
  }

  predicate Commits(log: seq<Event>) {
    CommitRun(true) in log || CommitRun(false) in log
  }

  ghost predicate Justified(w: World) {
    Verdicts(w) && Caused(w)
  }

  lemma LogAppend(log: seq<Event>, e: Event)
    ensures var longer := log + [e];
            && longer[..|log|] == log && longer[|log|] == e
            && LastSend(longer) == (if IsSend(e) then Some(e) else LastSend(log))
            && (Delivered(longer) <==> Delivered(log) || (e == Recorded(Sent) && Gone !in log))
            && (Doomed(longer) <==> Doomed(log) || (e.Recorded? && (e == Recorded(PermanentFail) || Gone in log)))
            && (AllExplained(longer) <==> AllExplained(log) && Explained(log, e))
            && (forall x :: x in longer <==> x in log || x == e)
  {
    var longer := log + [e];
    assert longer[..|log|] == log && longer[|log|] == e;
    assert forall x :: x in longer <==> x in log || x == e;
    hide LastSend, AllExplained, Explained, Delivered, Doomed;
    LastSendStep(longer);
    AllExplainedStep(longer);
    DeliveredAppend(log, e);
    DoomedAppend(log, e);
  }

  lemma DeliveredAppend(log: seq<Event>, e: Event)
    ensures Delivered(log + [e]) <==> Delivered(log) || (e == Recorded(Sent) && Gone !in log)
  {
    var longer := log + [e];
    assert longer[..|log|] == log && longer[|log|] == e;
    assert forall k :: 0 <= k < |log| ==> longer[k] == log[k] && longer[..k] == log[..k];
  }

  lemma DoomedAppend(log: seq<Event>, e: Event)
    ensures Doomed(log + [e])
            <==> Doomed(log) || (e.Recorded? && (e == Recorded(PermanentFail) || Gone in log))
  {
    var longer := log + [e];
    assert longer[..|log|] == log && longer[|log|] == e;
    assert forall k :: 0 <= k < |log| ==> longer[k] == log[k] && longer[..k] == log[..k];
  }

  lemma LastSendStep(log: seq<Event>)
    requires log != []
    ensures LastSend(log) == (if IsSend(log[|log| - 1]) then Some(log[|log| - 1]) else LastSend(log[..|log| - 1]))
  {
  }

  lemma AllExplainedStep(log: seq<Event>)
    requires log != []
    ensures AllExplained(log) <==> AllExplained(log[..|log| - 1]) && Explained(log[..|log| - 1], log[|log| - 1])
  {
  }

  /** The log grew by one event, with what that adds to its reading. */
  ghost predicate Logged(w: World, v: World, e: Event) {
    && LastSend(v.log) == (if IsSend(e) then Some(e) else LastSend(w.log))
    && (Delivered(v.log) <==> Delivered(w.log) || (e == Recorded(Sent) && Gone !in w.log))
    && (Doomed(v.log) <==> Doomed(w.log) || (e.Recorded? && (e == Recorded(PermanentFail) || Gone in w.log)))
    && (AllExplained(v.log) <==> AllExplained(w.log) && Explained(w.log, e))
    && (forall x :: x in v.log <==> x in w.log || x == e)
  }

  ghost predicate Ready(w: World) {
    && Book(w) && Justified(w)
    && (forall e :: e in w.log <==> Times(w, e) > 0)
    && (LastSend(w.log).Some? ==> LastSend(w.log).value in w.log)
    && (forall o :: At(w, InSend) + At(w, Judging(o)) <= Senders(w))
  }

  /** Recording a verdict: the one step that adds to what is delivered or doomed. */
  lemma JudgeKeepsVerdicts(w: World, v: World, o: SendOutcome, next: Thread)
    requires Ready(w) && At(w, Judging(o)) > 0 && (v.gate, next) == Judge(w.gate, o)
    requires Moved(w, v, Judging(o), next) && Logged(w, v, Recorded(o))
    ensures Verdicts(v)
  {
    hide Times, At, Delivered, Doomed, LastSend, AllExplained, Caused, Resolved, Answered, Sends, Alive, Explained;
  }

  lemma JudgeKeepsCauses(w: World, v: World, o: SendOutcome, next: Thread)
    requires Ready(w) && At(w, Judging(o)) > 0 && (v.gate, next) == Judge(w.gate, o)
    requires Moved(w, v, Judging(o), next) && Logged(w, v, Recorded(o))
    ensures Caused(v)
  {
    hide Times, At, Delivered, Doomed, LastSend, AllExplained, Sends, Alive, Resolved;
  }

  lemma JudgeJustifies(w: World, v: World, o: SendOutcome, next: Thread)
    requires Ready(w) && At(w, Judging(o)) > 0 && (v.gate, next) == Judge(w.gate, o)
    requires Moved(w, v, Judging(o), next) && Logged(w, v, Recorded(o))
    ensures Justified(v)
  {
    JudgeKeepsVerdicts(w, v, o, next);
    JudgeKeepsCauses(w, v, o, next);
  }
  lemma ClaimJustifies(w: World, v: World, next: Thread)
    requires Ready(w) && (v.gate, next) == Claim(w.gate)
    requires Shifted(w, v, Attempting, next, if next == InSend then [SendStart] else [])
    requires if next == InSend then Logged(w, v, SendStart) else v.log == w.log
    ensures Justified(v)
  {
    hide Times, At, Delivered, Doomed, LastSend, AllExplained, Resolved, Answered, Sends, Alive;
  }

  lemma SendEndKeepsVerdicts(w: World, v: World, o: SendOutcome)
    requires Ready(w) && At(w, InSend) > 0 && v.gate == w.gate && Shifted(w, v, InSend, Judging(o), [SendEnd(o)])
    requires Logged(w, v, SendEnd(o))
    ensures Verdicts(v)
  {
    hide Times, At, Delivered, Doomed, LastSend, AllExplained, Caused, Resolved, Answered, Sends, Alive, Explained;
  }

  lemma SendEndKeepsCauses(w: World, v: World, o: SendOutcome)
    requires Ready(w) && At(w, InSend) > 0 && v.gate == w.gate && Shifted(w, v, InSend, Judging(o), [SendEnd(o)])
    requires Logged(w, v, SendEnd(o))
    ensures Caused(v)
  {
    hide Times, At, Delivered, Doomed, LastSend, AllExplained, Sends, Alive;
  }

  lemma SendEndJustifies(w: World, v: World, o: SendOutcome)
    requires Ready(w) && At(w, InSend) > 0 && v.gate == w.gate && Shifted(w, v, InSend, Judging(o), [SendEnd(o)])
    requires Logged(w, v, SendEnd(o))
    ensures Justified(v)
  {
    SendEndKeepsVerdicts(w, v, o);
    SendEndKeepsCauses(w, v, o);
  }
  lemma CommitJustifies(w: World, v: World, p: bool)
    requires Ready(w) && At(w, CommitDue) > 0 && v.gate == w.gate
    requires Shifted(w, v, CommitDue, CommitDone(p), [CommitRun(p)]) && Logged(w, v, CommitRun(p))
    ensures Justified(v)
  {
    hide Times, At, Delivered, Doomed, LastSend, AllExplained, Resolved, Answered, Sends, Alive;
  }

  lemma PublishJustifies(w: World, v: World, p: bool, next: Thread)
    requires Ready(w) && At(w, CommitDone(p)) > 0 && (v.gate, next) == Publish(w.gate, p)
    requires Shifted(w, v, CommitDone(p), next, []) && v.log == w.log
    ensures Justified(v)
  {
    hide Times, At, Delivered, Doomed, LastSend, AllExplained, Answered, Sends, Alive;
  }

  lemma AbandonJustifies(w: World, v: World)
    requires Ready(w) && At(w, AbandonDue) > 0 && v.gate == w.gate
    requires Moved(w, v, AbandonDue, Finished) && Logged(w, v, AbandonRun)
    ensures Justified(v)
  {
    hide Times, At, Delivered, Doomed, LastSend, AllExplained, Book;
  }

  lemma CloseJustifies(w: World, v: World)
    requires Ready(w) && At(w, CloseDue) > 0 && v.gate == w.gate
    requires Moved(w, v, CloseDue, Finished) && Logged(w, v, CloseRun)
    ensures Justified(v)
  {
    hide Times, At, Delivered, Doomed, LastSend, AllExplained, Book;
  }

  lemma ArmJustifies(w: World, v: World)
    requires Ready(w) && At(w, Arming) > 0 && v.gate == Arm(w.gate) && Shifted(w, v, Arming, Finished, [])
    requires v.log == w.log
    ensures Justified(v)
  {
    hide Times, At, Delivered, Doomed, LastSend, AllExplained, Resolved, Answered, Sends, Alive;
  }

  lemma GoneKeepsVerdicts(w: World, v: World, next: Thread)
    requires Ready(w) && At(w, GoneCalling) > 0 && (v.gate, next, true) == TargetGone(w.gate)
    requires Shifted(w, v, GoneCalling, next, [Gone]) && Logged(w, v, Gone)
    ensures Verdicts(v)
  {
    hide Times, At, Delivered, Doomed, LastSend, AllExplained, Caused, Resolved, Answered, Sends, Alive, Explained;
  }

  lemma GoneKeepsCauses(w: World, v: World, next: Thread)
    requires Ready(w) && At(w, GoneCalling) > 0 && (v.gate, next, true) == TargetGone(w.gate)
    requires Shifted(w, v, GoneCalling, next, [Gone]) && Logged(w, v, Gone)
    ensures Caused(v)
  {
    hide Times, At, Delivered, Doomed, LastSend, AllExplained, Sends, Alive, Verdicts;
  }

  lemma GoneJustifies(w: World, v: World, next: Thread)
    requires Ready(w) && At(w, GoneCalling) > 0 && (v.gate, next, true) == TargetGone(w.gate)
    requires Shifted(w, v, GoneCalling, next, [Gone]) && Logged(w, v, Gone)
    ensures Justified(v)
  {
    GoneKeepsVerdicts(w, v, next);
    GoneKeepsCauses(w, v, next);
  }
  /** A call on a live tunnel, which its caller has to follow up: `u` is the world between its two events. */
  lemma LiveGoneJustifies(w: World, v: World, u: World)
    requires Ready(w) && At(w, GoneCalling) > 0 && v.gate == w.gate && w.gate.phase == Committed
    requires Moved(w, v, GoneCalling, Finished) && Logged(w, u, Gone) && Logged(u, v, CallerCloses)
    ensures Justified(v)
  {
    hide Times, At, Delivered, Doomed, LastSend, AllExplained, Resolved, Answered, Sends, Alive;
  }

  lemma DisarmJustifies(w: World, v: World, done: bool)
    requires Ready(w) && At(w, DisarmCalling) > 0 && (v.gate, done) == Disarm(w.gate)
    requires Shifted(w, v, DisarmCalling, Finished, if done then [Disarmed] else [])
    requires if done then Logged(w, v, Disarmed) else v.log == w.log
    ensures Justified(v)
  {
    hide Times, At, Delivered, Doomed, LastSend, AllExplained, Sends, Alive;
  }

  lemma GoJustifies(w: World, t: Thread, outcome: SendOutcome, published: bool)
    requires Book(w) && Justified(w) && t in w.threads
    ensures Justified(Go1(w, t, outcome, published))
  {
    var v := Go1(w, t, outcome, published);
    var (g, next) := Act(w.gate, t, outcome, published);
    var events := Shows(w.gate, t, outcome, published);
    var u := if events == [] then w else w.(log := w.log + [events[0]]);
    assert v.log == w.log + events && (v.gate, next) == (g, next) && At(w, t) > 0;
    assert v == After(w, t, g, next, events);
    hide *;
    AfterShifts(w, t, g, next, events);
    MakeReady(w);
    LogSplits(w, v, u, events);
    GoCases(w, v, u, t, next, outcome, published);
  }

  lemma MakeReady(w: World)
    requires Book(w) && Justified(w)
    ensures Ready(w)
  {
    LogCounts(w);
    LastSendIsIn(w.log);
    SendersBound(w);
    hide Book, Justified, Times, At, Senders;
  }

  lemma GoCases(w: World, v: World, u: World, t: Thread, next: Thread, outcome: SendOutcome, published: bool)
    requires Ready(w) && At(w, t) > 0 && (v.gate, next) == Act(w.gate, t, outcome, published)
    requires var events := Shows(w.gate, t, outcome, published);
             && Shifted(w, v, t, next, events)
             && (|events| == 0 ==> v.log == w.log)
             && (|events| >= 1 ==> Logged(w, u, events[0]))
             && (|events| == 1 ==> Logged(w, v, events[0]))
             && (|events| == 2 ==> Logged(u, v, events[1]))
    ensures Justified(v)
  {
    hide Justified, Ready, Shifted, Moved, Logged, Claim, Judge, Publish, Arm, Disarm, At;
    match t {
      case Attempting => ClaimJustifies(w, v, next);
      case InSend => SendEndJustifies(w, v, outcome);
      case Judging(o) =>
        OnlyRecorded(w, v, o, next);
        JudgeJustifies(w, v, o, next);
      case Arming => ArmJustifies(w, v);
      case AbandonDue =>
        OnlyMoved(w, v, t, next, [AbandonRun]);
        AbandonJustifies(w, v);
      case CommitDue => CommitJustifies(w, v, published);
      case CommitDone(p) => PublishJustifies(w, v, p, next);
      case CloseDue =>
        OnlyMoved(w, v, t, next, [CloseRun]);
        CloseJustifies(w, v);
      case GoneCalling =>
        if TargetGone(w.gate).2 {
          GoneJustifies(w, v, next);
        } else {
          OnlyMoved(w, v, t, next, [Gone, CallerCloses]);
          LiveGoneJustifies(w, v, u);
        }
      case DisarmCalling => DisarmJustifies(w, v, Disarm(w.gate).1);
      case Finished => FinishedNever(w);
    }
  }

  lemma OnlyMoved(w: World, v: World, t: Thread, next: Thread, events: seq<Event>)
    requires Shifted(w, v, t, next, events)
    ensures Moved(w, v, t, next)
  {
  }

  lemma FinishedNever(w: World)
    requires Ready(w)
    ensures At(w, Finished) == 0
  {
  }

  lemma LogSplits(w: World, v: World, u: World, events: seq<Event>)
    requires v.log == w.log + events && |events| <= 2
    requires u.log == if events == [] then w.log else w.log + [events[0]]
    ensures |events| == 0 ==> v.log == w.log
    ensures |events| >= 1 ==> Logged(w, u, events[0])
    ensures |events| == 1 ==> v.log == u.log && Logged(w, v, events[0])
    ensures |events| == 2 ==> Logged(u, v, events[1])
  {
    hide Delivered, Doomed, LastSend, AllExplained, Explained;
    if |events| >= 1 {
      LogAppend(w.log, events[0]);
      if |events| == 1 {
        assert events == [events[0]];
      } else {
        LogAppend(u.log, events[1]);
        assert w.log + events == u.log + [events[1]];
      }
    }
  }

  lemma EntryJustifies(w: World, m: Move)
    requires Book(w) && Justified(w) && !m.Go?
    ensures Justified(Step(w, m))
  {
    var v := Step(w, m);
    assert forall t :: !(t in {Attempting, GoneCalling, DisarmCalling}) ==> At(v, t) == At(w, t);
    hide Delivered, Doomed, LastSend, AllExplained;
  }

  lemma StepJustifies(w: World, m: Move)
    requires Book(w) && Justified(w)
    ensures Justified(Step(w, m))
  {
    hide Book, Justified, Go1;
    if m.Go? {
      if m.thread in w.threads {
        GoJustifies(w, m.thread, m.outcome, m.published);
      }
    } else {
      EntryJustifies(w, m);
    }
  }

  lemma {:induction false} RunJustified(moves: seq<Move>)
    ensures Justified(Run(moves))
  {
    if moves != [] {
      RunJustified(moves[..|moves| - 1]);
      RunInv(moves[..|moves| - 1]);
      hide Justified, Step, Book;
      StepJustifies(Run(moves[..|moves| - 1]), moves[|moves| - 1]);
    }
  }

  lemma SendersBound(w: World)
    ensures forall o :: At(w, InSend) + At(w, Judging(o)) <= Senders(w)
  {
    forall o ensures At(w, InSend) + At(w, Judging(o)) <= Senders(w) {
      match o
      case Sent =>
      case Retry =>
      case PermanentFail =>
    }
  }

  lemma LogCounts(w: World)
    ensures forall e :: e in w.log <==> Times(w, e) > 0
  {
  }

  lemma LastSendIsIn(log: seq<Event>)
    ensures LastSend(log).Some? ==> LastSend(log).value in log
  {
    if log != [] {
      LastSendIsIn(log[..|log| - 1]);
    }
  }

  /** Nothing is left to happen: no thread is inside the gate and no retry is armed. */
  ghost predicate Quiescent(w: World) {
    w.threads == multiset{} && !w.gate.armed
  }

  /** A gate that was started comes to rest only resolved: some thread or the timer always carries it on. */
  lemma RestsResolved(moves: seq<Move>)
    requires Quiescent(Run(moves)) && Times(Run(moves), SendStart) > 0
    ensures Run(moves).gate.phase == Committed || Run(moves).gate.phase == Abandoned
  {
    RunInv(moves);
    assert forall t :: At(Run(moves), t) == 0;
    hide At, Times, Run;
  }

  /**
   * The target dies once (its disconnect callback fires once). When everything
   * has come to rest exactly one party has torn the tunnel down: the caller of
   * target_gone, the abandon callback, the post-commit close, the commit that
   * failed to publish, or whoever disarmed the gate.
   */
  lemma OneTeardownOwner(moves: seq<Move>)
    requires Quiescent(Run(moves)) && Times(Run(moves), Gone) == 1
    ensures var w := Run(moves);
            Times(w, CallerCloses) + Times(w, AbandonRun) + Times(w, CloseRun) + Times(w, CommitRun(false))
            + Times(w, Disarmed) == 1
  {
    RunInv(moves);
    assert forall t :: At(Run(moves), t) == 0;
    hide At, Times, Run;
  }

  /** The ordinary close and the post-commit close are only ever applied to a published tunnel. */
  lemma ClosesOnlyPublished(moves: seq<Move>)
    ensures var w := Run(moves);
            Times(w, CallerCloses) + Times(w, CloseRun) > 0 ==>
              Times(w, CommitRun(true)) == 1 && w.gate.phase == Committed
  {
    RunInv(moves);
    hide At, Times, Run;
  }

  // ---------------------------------------------------------------------------
  // Verdict and resolution, read from the log alone
  // ---------------------------------------------------------------------------

  lemma {:induction false} ExplainedAt(log: seq<Event>, i: nat)
    requires AllExplained(log) && i < |log|
    ensures Explained(log[..i], log[i]) && AllExplained(log[..i])
  {
    if i < |log| - 1 {
      var init := log[..|log| - 1];
      ExplainedAt(init, i);
      assert init[..i] == log[..i];
    }
  }

  /** A commit runs only after a send that ended Sent, and before any report that the target is gone was recorded. */
  lemma CommitNeedsSent(moves: seq<Move>, i: nat)
    requires i < |Run(moves).log| && Run(moves).log[i].CommitRun?
    ensures var log := Run(moves).log;
            exists j, k :: 0 <= j < k < i && log[j] == SendEnd(Sent) && log[k] == Recorded(Sent) && Gone !in log[..k]
  {
    RunJustified(moves);
    var log := Run(moves).log;
    hide Run;
    ExplainedAt(log, i);
    var k :| 0 <= k < i && log[..i][k] == Recorded(Sent) && Gone !in log[..i][..k];
    assert log[..i][..k] == log[..k];
    ExplainedAt(log, k);
    LastSendIsIn(log[..k]);
    var j :| 0 <= j < k && log[j] == SendEnd(Sent);
  }

  /** Every verdict recorded is the outcome of the send that ended last. */
  lemma VerdictIsTheSends(moves: seq<Move>, i: nat)
    requires i < |Run(moves).log| && Run(moves).log[i].Recorded?
    ensures LastSend(Run(moves).log[..i]) == Some(SendEnd(Run(moves).log[i].outcome))
  {
    RunJustified(moves);
    hide Run;
    ExplainedAt(Run(moves).log, i);
  }

  /** The abandon callback runs only after a send failed for good or the target was reported gone. */
  lemma AbandonNeedsFailure(moves: seq<Move>, i: nat)
    requires i < |Run(moves).log| && Run(moves).log[i] == AbandonRun
    ensures var log := Run(moves).log;
            exists k :: 0 <= k < i && (log[k] == SendEnd(PermanentFail) || log[k] == Gone)
  {
    RunJustified(moves);
    var log := Run(moves).log;
    hide Run;
    ExplainedAt(log, i);
    var e := if Gone in log[..i] then Gone else SendEnd(PermanentFail);
    var k :| 0 <= k < i && log[..i][k] == e;
    assert log[k] == e;
  }

  /**
   * The exact condition: when everything has come to rest, the commit has run
   * if and only if a delivered ACK was recorded with no report before it that
   * the target is gone.
   */
  lemma CommitExactlyIfDelivered(moves: seq<Move>)
    requires Quiescent(Run(moves))
    ensures var log := Run(moves).log;
            Commits(log) <==> exists k :: 0 <= k < |log| && log[k] == Recorded(Sent) && Gone !in log[..k]
  {
    RunJustified(moves);
    RunInv(moves);
    var w := Run(moves);
    hide Run;
    assert At(w, CommitDue) == 0;
    if Commits(w.log) {
      var p: bool := CommitRun(true) in w.log;
      var i :| 0 <= i < |w.log| && w.log[i] == CommitRun(p);
      ExplainedAt(w.log, i);
      DeliveredStays(w.log, i);
    }
    hide Book, AllExplained;
    assert Delivered(w.log) <==> Commits(w.log);
  }

  lemma DeliveredStays(log: seq<Event>, i: nat)
    requires i <= |log| && Delivered(log[..i])
    ensures Delivered(log)
  {
    var k :| 0 <= k < i && log[..i][k] == Recorded(Sent) && Gone !in log[..i][..k];
    assert log[..i][..k] == log[..k];
  }

  /**
   * And the abandon callback has run if and only if neither a commit nor a
   * disarm resolved the gate; then something had failed, and a verdict that
   * failed for good, or came after the target was reported gone, always ends
   * so.
   */
  lemma AbandonExactlyIfFailed(moves: seq<Move>)
    requires Quiescent(Run(moves)) && Times(Run(moves), SendStart) > 0
    ensures var log := Run(moves).log;
            && (AbandonRun in log <==> !Commits(log) && Disarmed !in log)
            && (AbandonRun in log ==> Gone in log || SendEnd(PermanentFail) in log)
            && (SendEnd(PermanentFail) in log ==> AbandonRun in log)
            && (forall k :: 0 <= k < |log| && log[k].Recorded? && Gone in log[..k] ==> AbandonRun in log)
  {
    RestsResolved(moves);
    RunJustified(moves);
    RunInv(moves);
    hide Run;
    RestCounts(Run(moves));
    RestReasons(Run(moves));
  }

  lemma RestCounts(w: World)
    requires Book(w) && Quiescent(w) && (w.gate.phase == Committed || w.gate.phase == Abandoned)
    ensures AbandonRun in w.log <==> !Commits(w.log) && Disarmed !in w.log
  {
    LogCounts(w);
    assert forall t :: At(w, t) == 0;
    hide At, Times, Owners, Answered, Sends, Alive;
  }

  lemma RestReasons(w: World)
    requires Justified(w) && Quiescent(w)
    ensures AbandonRun in w.log ==> Failed(w.log)
    ensures SendEnd(PermanentFail) in w.log ==> AbandonRun in w.log
    ensures forall k :: 0 <= k < |w.log| && w.log[k].Recorded? && Gone in w.log[..k] ==> AbandonRun in w.log
  {
    assert forall t :: At(w, t) == 0;
    if AbandonRun in w.log {
      var i :| 0 <= i < |w.log| && w.log[i] == AbandonRun;
      ExplainedAt(w.log, i);
    }
    hide At, AllExplained, LastSend;
    if SendEnd(PermanentFail) in w.log {
      var k :| 0 <= k < |w.log| && w.log[k] == Recorded(PermanentFail);
      assert Doomed(w.log);
    }
  }

  /** An ACK that was sent is committed unless the target was reported gone. */
  lemma SentCommitsUnlessGone(moves: seq<Move>)
    requires Quiescent(Run(moves)) && SendEnd(Sent) in Run(moves).log && Gone !in Run(moves).log
    ensures Commits(Run(moves).log)
  {
    RunJustified(moves);
    CommitExactlyIfDelivered(moves);
    var w := Run(moves);
    hide Run;
    assert At(w, Judging(Sent)) == 0;
    var k :| 0 <= k < |w.log| && w.log[k] == Recorded(Sent);
  }

  lemma Begins(moves: seq<Move>, w: World, entry: Thread)
    requires Run(moves) == w && (entry == Attempting || entry == GoneCalling)
    ensures Run(moves + [Call(entry)]) == w.(threads := w.threads + multiset{entry})
  {
    assert (moves + [Call(entry)])[..|moves|] == moves;
  }

  lemma Goes(moves: seq<Move>, w: World, t: Thread, g: Gate, next: Thread, rest: multiset<Thread>, event: Event)
    requires Run(moves) == w && w.threads == rest + multiset{t}
    requires Act(w.gate, t, Sent, true) == (g, next) && Shows(w.gate, t, Sent, true) == [event]
    ensures Run(moves + [Go(t, Sent, true)])
            == World(g, if next == Finished then rest else rest + multiset{next}, w.log + [event])
  {
    hide Act, Shows;
    assert (moves + [Go(t, Sent, true)])[..|moves|] == moves;
    assert w.threads - multiset{t} == rest;
  }

  /** A run in which an ACK has been sent and its verdict is about to be recorded. */
  lemma SendEnds() returns (moves: seq<Move>)
    ensures Run(moves)
            == World(FRESH_GATE.(phase := Sending), multiset{} + multiset{Judging(Sent)},
                     [] + [SendStart] + [SendEnd(Sent)])
  {
    var sending := FRESH_GATE.(phase := Sending);
    assert Run([]) == START;
    hide Run, Step, Claim;
    FreshClaims();
    Begins([], START, Attempting);
    moves := [] + [Call(Attempting)];
    Goes(moves, Run(moves), Attempting, sending, InSend, multiset{}, SendStart);
    moves := moves + [Go(Attempting, Sent, true)];
    Goes(moves, Run(moves), InSend, sending, Judging(Sent), multiset{}, SendEnd(Sent));
    moves := moves + [Go(InSend, Sent, true)];
  }

  lemma FreshClaims()
    ensures Claim(FRESH_GATE) == (FRESH_GATE.(phase := Sending), InSend)
  {
  }

  /**
   * What counts is the recording: with the target reported gone between the
   * end of a send and its verdict, the sent ACK is abandoned.
   */
  lemma SentCanBeAbandoned() returns (moves: seq<Move>)
    ensures Quiescent(Run(moves))
    ensures Run(moves).log == [] + [SendStart] + [SendEnd(Sent)] + [Gone] + [Recorded(Sent)] + [AbandonRun]
  {
    moves := SendEnds();
    hide Run, Step, TargetGone, Judge;
    var w := Run(moves);
    var gone := w.gate.(goneRequested := true);
    GoneWhileSending(w.gate);
    Begins(moves, w, GoneCalling);
    moves := moves + [Call(GoneCalling)];
    Goes(moves, Run(moves), GoneCalling, gone, Finished, multiset{Judging(Sent)}, Gone);
    moves := moves + [Go(GoneCalling, Sent, true)];
    Goes(moves, Run(moves), Judging(Sent), Judge(gone, Sent).0, AbandonDue, multiset{}, Recorded(Sent));
    moves := moves + [Go(Judging(Sent), Sent, true)];
    Goes(moves, Run(moves), AbandonDue, Judge(gone, Sent).0, Finished, multiset{}, AbandonRun);
    moves := moves + [Go(AbandonDue, Sent, true)];
  }

  lemma GoneWhileSending(g: Gate)
    requires g.phase == Sending && !g.armed && g.hasAbandon
    ensures TargetGone(g) == (g.(goneRequested := true), Finished, true)
    ensures var (h, next) := Judge(g.(goneRequested := true), Sent); next == AbandonDue && !h.armed
  {
  }
}
