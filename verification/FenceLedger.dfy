/**
 * The byte accounting of one friend: how much DATA toxcore accepted, how much
 * of it an echoed fence proved delivered, and the fences still outstanding.
 */
module FenceLedger {
  import opened Bytes

  /** The send-side clock and credit state recorded with a fence. */
  datatype Stamp = Stamp(sentNs: int, creditNs: int, creditSentNs: int)

  /** Fences lo..hi, all sent when `snapshot` bytes had been emitted; `lo` was sent with this backlog and stamp. */
  datatype Range = Range(
    lo: nat, hi: nat, snapshot: nat, loBacklog: nat, deliveredAtSend: nat, stamp: Stamp)

  datatype Book = Book(entries: seq<Range>, emitted: nat, delivered: nat, nextSeq: nat)

  const EMPTY_BOOK := Book([], 0, 0, 1)

  /** DATA bytes accepted by toxcore and not yet credited. */
  function Backlog(b: Book): nat {
    if b.delivered <= b.emitted then b.emitted - b.delivered else 0
  }

  function Emit(b: Book, size: nat): Book {
    b.(emitted := b.emitted + size)
  }

  /** How many entries thinning leaves of `n`. */
  function ThinnedSize(n: nat): nat {
    if n < 2 then 2 else n / 2 + 1
  }

  /** Both ends stay; of the entries between them, every other one does. */
  function Thin<T>(s: seq<T>): (r: seq<T>)
    requires s != []
    ensures |r| == ThinnedSize(|s|)
  {
    var k := ThinnedSize(|s|);
    seq(k, j requires 0 <= j < k => if j == k - 1 then s[|s| - 1] else s[2 * j])
  }

  function Extended(b: Book, stamp: Stamp): seq<Range> {
    var n := |b.entries|;
    if n > 0 && b.entries[n - 1].snapshot == b.emitted
    then b.entries[n - 1 := b.entries[n - 1].(hi := b.nextSeq)]
    else b.entries + [Range(b.nextSeq, b.nextSeq, b.emitted, Backlog(b), b.delivered, stamp)]
  }

  /** Record that fence `nextSeq` was sent now. `limit` is the entry limit; None never thins. */
  function Record(limit: Option<nat>, b: Book, stamp: Stamp): Book {
    var longer := Extended(b, stamp);
    var kept := if limit.Some? && |longer| > limit.value then Thin(longer) else longer;
    b.(entries := kept, nextSeq := b.nextSeq + 1)
  }

  predicate Covers(r: Range, fence: nat) {
    r.lo <= fence <= r.hi
  }

  /** Index of the first entry from `i` on that covers `fence`, or the number of entries. */
  function FindFrom(entries: seq<Range>, fence: nat, i: nat): (k: nat)
    requires i <= |entries|
    ensures i <= k <= |entries|
    ensures k < |entries| ==> Covers(entries[k], fence)
    ensures forall j :: i <= j < k ==> !Covers(entries[j], fence)
    decreases |entries| - i
  {
    if i == |entries| || Covers(entries[i], fence) then i else FindFrom(entries, fence, i + 1)
  }

  function Find(entries: seq<Range>, fence: nat): (k: nat)
    ensures k <= |entries|
    ensures k < |entries| ==> Covers(entries[k], fence)
    ensures forall j :: 0 <= j < k ==> !Covers(entries[j], fence)
  {
    FindFrom(entries, fence, 0)
  }

  /** An echo settles its entry and every older one; an echo of nothing outstanding changes nothing. */
  function Settle(b: Book, fence: nat): Book {
    var k := Find(b.entries, fence);
    if k == |b.entries| then b
    else b.(entries := b.entries[k + 1..], delivered := Max(b.delivered, b.entries[k].snapshot))
  }

  function Forget(b: Book): Book {
    b.(entries := [])
  }

  // ---------------------------------------------------------------------------
  // What every reachable book satisfies
  // ---------------------------------------------------------------------------

  predicate GoodRange(b: Book, r: Range) {
    && 1 <= r.lo <= r.hi < b.nextSeq
    && b.delivered <= r.snapshot <= b.emitted
    && r.deliveredAtSend <= b.delivered
    && r.loBacklog == r.snapshot - r.deliveredAtSend
  }

  predicate Before(r: Range, q: Range) {
    r.hi < q.lo && r.snapshot < q.snapshot
  }

  ghost predicate Valid(b: Book) {
    && 1 <= b.nextSeq
    && b.delivered <= b.emitted
    && (forall i :: 0 <= i < |b.entries| ==> GoodRange(b, b.entries[i]))
    && (forall i, j :: 0 <= i < j < |b.entries| ==> Before(b.entries[i], b.entries[j]))
    && (b.entries != [] ==> b.entries[|b.entries| - 1].hi == b.nextSeq - 1)
  }

  /** `sentAt[s]` is the number of bytes emitted when fence `s` was sent (index 0 is unused). */
  ghost predicate Traced(b: Book, sentAt: seq<nat>) {
    && |sentAt| == b.nextSeq
    && (forall s :: 0 <= s < |sentAt| ==> sentAt[s] <= b.emitted)
    && (forall i, s :: 0 <= i < |b.entries| && 0 <= s < |sentAt| && Covers(b.entries[i], s) ==>
                         sentAt[s] == b.entries[i].snapshot)
  }

  lemma ThinFacts<T>(s: seq<T>)
    requires |s| >= 2
    ensures var r := Thin(s);
            && (forall j :: 0 <= j < |r| - 1 ==> 2 * j < |s| - 1 && r[j] == s[2 * j])
            && r[|r| - 1] == s[|s| - 1]
  {
  }

  /** Thinning keeps, in order, every other entry from the first on, and the last. */
  lemma ThinExactly<T>(s: seq<T>)
    requires |s| >= 2
    ensures var r := Thin(s);
            && |r| == (|s| - 2) / 2 + 2
            && (forall i :: 0 <= i < |s| - 1 && i % 2 == 0 ==> i / 2 < |r| - 1 && r[i / 2] == s[i])
            && r[|r| - 1] == s[|s| - 1]
  {
  }

  /**
   * What recording a fence adds. Nothing emitted since the newest entry: that
   * entry now ends with this fence. Otherwise a new entry for this fence alone,
   * with what was emitted, owed and credited at the moment and its stamp.
   */
  lemma RecordExactly(b: Book, stamp: Stamp)
    ensures var c, n := Record(None, b, stamp), |b.entries|;
            && c.nextSeq == b.nextSeq + 1 && c.emitted == b.emitted && c.delivered == b.delivered
            && (if n > 0 && b.entries[n - 1].snapshot == b.emitted then
                  |c.entries| == n && c.entries[..n - 1] == b.entries[..n - 1]
                  && c.entries[n - 1] == b.entries[n - 1].(hi := b.nextSeq)
                else
                  c.entries == b.entries + [Range(b.nextSeq, b.nextSeq, b.emitted, Backlog(b), b.delivered, stamp)])
  {
  }

  /** A limit thins the same record, exactly when it is exceeded. */
  lemma LimitThinsExactly(limit: nat, b: Book, stamp: Stamp)
    ensures var full := Record(None, b, stamp);
            Record(Some(limit), b, stamp)
            == if |full.entries| > limit then full.(entries := Thin(full.entries)) else full
  {
  }

  lemma EmitKeeps(b: Book, size: nat, sentAt: seq<nat>)
    requires Valid(b) && Traced(b, sentAt)
    ensures Valid(Emit(b, size)) && Traced(Emit(b, size), sentAt)
  {
    var c := Emit(b, size);
    forall i | 0 <= i < |c.entries| ensures GoodRange(c, c.entries[i]) {
      assert GoodRange(b, b.entries[i]);
    }
  }

  lemma ExtendedKeeps(b: Book, stamp: Stamp, sentAt: seq<nat>)
    requires Valid(b) && Traced(b, sentAt)
    ensures var c := b.(entries := Extended(b, stamp), nextSeq := b.nextSeq + 1);
            Valid(c) && Traced(c, sentAt + [b.emitted])
  {
    var c := b.(entries := Extended(b, stamp), nextSeq := b.nextSeq + 1);
    var n := |b.entries|;
    forall i | 0 <= i < |c.entries| ensures GoodRange(c, c.entries[i]) {
      if i < n {
        assert GoodRange(b, b.entries[i]);
      }
    }
    forall i, j | 0 <= i < j < |c.entries| ensures Before(c.entries[i], c.entries[j]) {
      assert GoodRange(b, b.entries[i]);
      if j < n {
        assert Before(b.entries[i], b.entries[j]);
      } else if i < n - 1 {
        assert Before(b.entries[i], b.entries[n - 1]);
        assert GoodRange(b, b.entries[n - 1]);
      }
    }
    var h := sentAt + [b.emitted];
    forall i, s | 0 <= i < |c.entries| && 0 <= s < |h| && Covers(c.entries[i], s)
      ensures h[s] == c.entries[i].snapshot
    {
      if s < |sentAt| && i < n {
        assert Covers(b.entries[i], s);
      }
    }
  }

  lemma ThinKeeps(b: Book, sentAt: seq<nat>)
    requires Valid(b) && Traced(b, sentAt) && |b.entries| >= 2
    ensures var c := b.(entries := Thin(b.entries));
            Valid(c) && Traced(c, sentAt)
  {
    var s := b.entries;
    var r := Thin(s);
    var c := b.(entries := r);
    ThinFacts(s);
    forall i | 0 <= i < |r| ensures GoodRange(c, r[i]) {
      var k := if i == |r| - 1 then |s| - 1 else 2 * i;
      assert GoodRange(b, s[k]);
    }
    forall i, j | 0 <= i < j < |r| ensures Before(r[i], r[j]) {
      var k := if j == |r| - 1 then |s| - 1 else 2 * j;
      assert Before(s[2 * i], s[k]);
    }
    forall i, q | 0 <= i < |r| && 0 <= q < |sentAt| && Covers(r[i], q) ensures sentAt[q] == r[i].snapshot {
      var k := if i == |r| - 1 then |s| - 1 else 2 * i;
      assert Covers(s[k], q);
    }
  }

  /** Sending a fence keeps the book valid and traced, thinned or not, and keeps the entry count in bounds. */
  lemma RecordKeeps(limit: Option<nat>, b: Book, stamp: Stamp, sentAt: seq<nat>)
    requires Valid(b) && Traced(b, sentAt)
    requires limit.Some? ==> limit.value >= 1
    ensures Valid(Record(limit, b, stamp)) && Traced(Record(limit, b, stamp), sentAt + [b.emitted])
    ensures limit.Some? && |b.entries| <= Max(limit.value, 2) ==>
              |Record(limit, b, stamp).entries| <= Max(limit.value, 2)
  {
    ExtendedKeeps(b, stamp, sentAt);
    var longer := Extended(b, stamp);
    if limit.Some? && |longer| > limit.value {
      ThinKeeps(b.(entries := longer, nextSeq := b.nextSeq + 1), sentAt + [b.emitted]);
    }
  }

  /** With a limit of 0 thinning would record one fence twice; with 1 it would still keep two entries. */
  lemma LimitMattersBelowTwo(stamp: Stamp)
    ensures !Valid(Record(Some(0), EMPTY_BOOK, stamp))
    ensures |Record(Some(1), Emit(Record(Some(1), EMPTY_BOOK, stamp), 1), stamp).entries| == 2
  {
    var c := Record(Some(0), EMPTY_BOOK, stamp);
    assert |c.entries| == 2 && c.entries[0] == c.entries[1];
    assert !Before(c.entries[0], c.entries[1]);
  }

  lemma SettleKeeps(b: Book, fence: nat, sentAt: seq<nat>)
    requires Valid(b) && Traced(b, sentAt)
    ensures Valid(Settle(b, fence)) && Traced(Settle(b, fence), sentAt)
    ensures b.delivered <= Settle(b, fence).delivered
    ensures var k := Find(b.entries, fence);
            k < |b.entries| ==>
              fence < |sentAt| && Settle(b, fence).delivered == b.entries[k].snapshot == sentAt[fence]
  {
    var k := Find(b.entries, fence);
    if k < |b.entries| {
      var c := Settle(b, fence);
      assert GoodRange(b, b.entries[k]);
      forall i | 0 <= i < |c.entries| ensures GoodRange(c, c.entries[i]) {
        assert GoodRange(b, b.entries[k + 1 + i]);
        assert Before(b.entries[k], b.entries[k + 1 + i]);
      }
      forall i, j | 0 <= i < j < |c.entries| ensures Before(c.entries[i], c.entries[j]) {
        assert Before(b.entries[k + 1 + i], b.entries[k + 1 + j]);
      }
    }
  }

  lemma ForgetKeeps(b: Book, sentAt: seq<nat>)
    requires Valid(b) && Traced(b, sentAt)
    ensures Valid(Forget(b)) && Traced(Forget(b), sentAt)
  {
  }

  /** Distinct entries cover distinct fences, so the search finds the only match. */
  lemma CoverUnique(b: Book, fence: nat, i: nat)
    requires Valid(b) && i < |b.entries| && Covers(b.entries[i], fence)
    ensures Find(b.entries, fence) == i
  {
    assert forall j :: 0 <= j < i ==> Before(b.entries[j], b.entries[i]);
  }

  // ---------------------------------------------------------------------------
  // Echoes commute and are idempotent
  // ---------------------------------------------------------------------------

  /** A settled fence, and every fence older than it, matches nothing any more. */
  lemma SettledMatchesNothing(b: Book, fence: nat, older: nat)
    requires Valid(b) && Find(b.entries, fence) < |b.entries|
    requires Find(b.entries, older) <= Find(b.entries, fence)
    ensures Settle(Settle(b, fence), older) == Settle(b, fence)
  {
    var k, j, c := Find(b.entries, fence), Find(b.entries, older), Settle(b, fence);
    forall m | 0 <= m < |c.entries| ensures !Covers(c.entries[m], older) {
      assert Before(b.entries[j], b.entries[k + 1 + m]);
    }
  }

  lemma SettleAfterOlder(b: Book, fence: nat, older: nat)
    requires Valid(b) && Find(b.entries, fence) < |b.entries|
    requires Find(b.entries, older) < Find(b.entries, fence)
    ensures Settle(Settle(b, older), fence) == Settle(b, fence)
  {
    var k, m := Find(b.entries, fence), Find(b.entries, older);
    var c := Settle(b, older);
    SettleBookValid(b, older);
    assert c.entries[k - m - 1] == b.entries[k];
    CoverUnique(c, fence, k - m - 1);
    assert Before(b.entries[m], b.entries[k]);
    assert GoodRange(b, b.entries[k]) && GoodRange(b, b.entries[m]);
    assert c.entries[k - m..] == b.entries[k + 1..];
    hide Find, Valid;
  }

  lemma SettleBookValid(b: Book, fence: nat)
    requires Valid(b)
    ensures Valid(Settle(b, fence))
  {
    var k := Find(b.entries, fence);
    if k < |b.entries| {
      var c := Settle(b, fence);
      forall i | 0 <= i < |c.entries| ensures GoodRange(c, c.entries[i]) {
        assert GoodRange(b, b.entries[k + 1 + i]) && GoodRange(b, b.entries[k]);
        assert Before(b.entries[k], b.entries[k + 1 + i]);
      }
      forall i, j | 0 <= i < j < |c.entries| ensures Before(c.entries[i], c.entries[j]) {
        assert Before(b.entries[k + 1 + i], b.entries[k + 1 + j]);
      }
    }
  }

  lemma UnmatchedStaysUnmatched(b: Book, fence: nat, other: nat)
    requires Valid(b) && Find(b.entries, fence) == |b.entries|
    ensures Settle(Settle(b, other), fence) == Settle(b, other)
  {
    var k, c := Find(b.entries, other), Settle(b, other);
    forall m | 0 <= m < |c.entries| ensures !Covers(c.entries[m], fence) {
      assert k < |b.entries| ==> c.entries[m] == b.entries[k + 1 + m];
    }
  }

  /** The order in which two echoes arrive does not matter. */
  lemma EchoesCommute(b: Book, x: nat, y: nat)
    requires Valid(b)
    ensures Settle(Settle(b, x), y) == Settle(Settle(b, y), x)
  {
    var i, j, n := Find(b.entries, x), Find(b.entries, y), |b.entries|;
    if i == n {
      UnmatchedStaysUnmatched(b, x, y);
    } else if j == n {
      UnmatchedStaysUnmatched(b, y, x);
    } else if i == j {
      SettledMatchesNothing(b, x, y);
      SettledMatchesNothing(b, y, x);
    } else if i < j {
      SettledMatchesNothing(b, y, x);
      SettleAfterOlder(b, y, x);
    } else {
      SettledMatchesNothing(b, x, y);
      SettleAfterOlder(b, x, y);
    }
  }

  /** A duplicated echo changes nothing. */
  lemma EchoesIdempotent(b: Book, x: nat)
    requires Valid(b)
    ensures Settle(Settle(b, x), x) == Settle(b, x)
  {
    if Find(b.entries, x) < |b.entries| {
      SettledMatchesNothing(b, x, x);
    }
  }

  // ---------------------------------------------------------------------------
  // Thinning only ever delays credit
  // ---------------------------------------------------------------------------

  datatype Event = Sent(size: nat) | Fenced(stamp: Stamp) | Echoed(fence: nat) | Dropped

  function Apply(limit: Option<nat>, b: Book, e: Event): Book {
    match e
    case Sent(size) => Emit(b, size)
    case Fenced(stamp) => Record(limit, b, stamp)
    case Echoed(fence) => Settle(b, fence)
    case Dropped => Forget(b)
  }

  lemma ApplyKeeps(limit: Option<nat>, b: Book, e: Event, sentAt: seq<nat>)
    requires Valid(b) && Traced(b, sentAt) && (limit.Some? ==> limit.value >= 1)
    ensures Valid(Apply(limit, b, e))
    ensures Traced(Apply(limit, b, e), if e.Fenced? then sentAt + [b.emitted] else sentAt)
    ensures limit.Some? && |b.entries| <= Max(limit.value, 2) ==>
              |Apply(limit, b, e).entries| <= Max(limit.value, 2)
  {
    match e
    case Sent(size) => EmitKeeps(b, size, sentAt);
    case Fenced(stamp) => RecordKeeps(limit, b, stamp, sentAt);
    case Echoed(fence) => SettleKeeps(b, fence, sentAt);
    case Dropped => ForgetKeeps(b, sentAt);
  }

  predicate SameFences(r: Range, q: Range) {
    r.lo == q.lo && r.hi == q.hi && r.snapshot == q.snapshot
  }

  /** Entry `r` of the thinned book is either still outstanding in the full one or already settled there. */
  ghost predicate Accounted(u: Book, r: Range) {
    (exists k :: 0 <= k < |u.entries| && SameFences(r, u.entries[k])) || r.snapshot <= u.delivered
  }

  /** `t` is the thinned twin of the full book `u` after the same events. */
  ghost predicate Twin(t: Book, u: Book) {
    && t.emitted == u.emitted && t.nextSeq == u.nextSeq
    && t.delivered <= u.delivered
    && (t.entries == [] <==> u.entries == [])
    && (u.entries != [] ==> SameFences(t.entries[|t.entries| - 1], u.entries[|u.entries| - 1]))
    && (forall i :: 0 <= i < |t.entries| ==> Accounted(u, t.entries[i]))
  }

  lemma TwinFence(t: Book, u: Book, stamp: Stamp, limit: nat)
    requires Valid(t) && Valid(u) && Twin(t, u) && limit >= 1
    ensures Twin(Record(Some(limit), t, stamp), Record(None, u, stamp))
  {
    var t1 := t.(entries := Extended(t, stamp), nextSeq := t.nextSeq + 1);
    var u1 := Record(None, u, stamp);
    forall i | 0 <= i < |t1.entries| ensures Accounted(u1, t1.entries[i]) {
      if i == |t1.entries| - 1 {
        assert SameFences(t1.entries[i], u1.entries[|u1.entries| - 1]);
      } else {
        assert Accounted(u, t.entries[i]);
        if t.entries[i].snapshot > u.delivered {
          var k :| 0 <= k < |u.entries| && SameFences(t.entries[i], u.entries[k]);
          assert Before(t.entries[i], t.entries[|t.entries| - 1]) || i == |t.entries| - 1;
          assert SameFences(t1.entries[i], u1.entries[k]);
        }
      }
    }
    if |t1.entries| > limit {
      ThinFacts(t1.entries);
      var t2 := Record(Some(limit), t, stamp);
      forall i | 0 <= i < |t2.entries| ensures Accounted(u1, t2.entries[i]) {
        var k := if i == |t2.entries| - 1 then |t1.entries| - 1 else 2 * i;
        assert Accounted(u1, t1.entries[k]);
      }
    }
  }

  /** Whatever the thinned twin credits, the full book has credited by then. */
  lemma TwinEchoCredit(t: Book, u: Book, fence: nat)
    requires Valid(t) && Valid(u) && Twin(t, u)
    ensures Settle(t, fence).delivered <= Settle(u, fence).delivered
  {
    var i := Find(t.entries, fence);
    if i < |t.entries| {
      var r := t.entries[i];
      assert Accounted(u, r) && GoodRange(t, r);
      if k :| 0 <= k < |u.entries| && SameFences(r, u.entries[k]) {
        CoverUnique(u, fence, k);
      } else {
        SettleGrows(u, fence);
      }
    }
  }

  /** What the full book had accounted for stays accounted for after an echo. */
  lemma EchoKeepsAccounted(u: Book, fence: nat, r: Range)
    requires Valid(u) && Accounted(u, r)
    ensures Accounted(Settle(u, fence), r)
  {
    var j, u1 := Find(u.entries, fence), Settle(u, fence);
    if r.snapshot > u.delivered && j < |u.entries| {
      var k :| 0 <= k < |u.entries| && SameFences(r, u.entries[k]);
      if k > j {
        assert u1.entries[k - j - 1] == u.entries[k];
      } else {
        assert k == j || Before(u.entries[k], u.entries[j]);
      }
    }
  }

  lemma TwinEcho(t: Book, u: Book, fence: nat)
    requires Valid(t) && Valid(u) && Twin(t, u)
    ensures Twin(Settle(t, fence), Settle(u, fence))
  {
    var t1, u1 := Settle(t, fence), Settle(u, fence);
    TwinEchoCredit(t, u, fence);
    LastEntry(t, fence);
    LastEntry(u, fence);
    var i := Find(t.entries, fence);
    forall m | 0 <= m < |t1.entries| ensures Accounted(u1, t1.entries[m]) {
      var p := if i < |t.entries| then i + 1 + m else m;
      assert t1.entries[m] == t.entries[p] && Accounted(u, t.entries[p]);
      EchoKeepsAccounted(u, fence, t1.entries[m]);
    }
  }

  /** An echo settles the last entry exactly when that entry covers it. */
  lemma LastEntry(b: Book, fence: nat)
    requires Valid(b)
    ensures var n := |b.entries|;
            n > 0 && Settle(b, fence).entries == [] ==> Covers(b.entries[n - 1], fence)
    ensures var n := |b.entries|;
            n > 0 && Covers(b.entries[n - 1], fence) ==> Settle(b, fence).entries == []
    ensures var n := |b.entries|;
            Settle(b, fence).entries != [] ==>
              var m := |Settle(b, fence).entries|;
              n > 0 && Settle(b, fence).entries[m - 1] == b.entries[n - 1]
  {
    var n := |b.entries|;
    if n > 0 && Covers(b.entries[n - 1], fence) {
      CoverUnique(b, fence, n - 1);
    }
  }

  lemma SettleGrows(b: Book, fence: nat)
    ensures b.delivered <= Settle(b, fence).delivered
  {
  }

  lemma TwinStep(t: Book, u: Book, e: Event, limit: nat)
    requires Valid(t) && Valid(u) && Twin(t, u) && limit >= 1
    ensures Twin(Apply(Some(limit), t, e), Apply(None, u, e))
  {
    match e
    case Sent(size) =>
      forall i | 0 <= i < |t.entries| ensures Accounted(Emit(u, size), t.entries[i]) {
        assert Accounted(u, t.entries[i]);
      }
    case Fenced(stamp) => TwinFence(t, u, stamp, limit);
    case Echoed(fence) => TwinEcho(t, u, fence);
    case Dropped =>
  }

  /** A book together with the history of what had been emitted when each fence was sent. */
  datatype Account = Account(book: Book, sentAt: seq<nat>)

  /** The account after a run of events, oldest first. */
  ghost function Run(limit: Option<nat>, es: seq<Event>): (a: Account)
    requires limit.Some? ==> limit.value >= 1
    ensures Valid(a.book) && Traced(a.book, a.sentAt)
    ensures limit.Some? ==> |a.book.entries| <= Max(limit.value, 2)
  {
    if es == [] then Account(EMPTY_BOOK, [0])
    else
      var a, e := Run(limit, es[..|es| - 1]), es[|es| - 1];
      ApplyKeeps(limit, a.book, e, a.sentAt);
      Account(Apply(limit, a.book, e), if e.Fenced? then a.sentAt + [a.book.emitted] else a.sentAt)
  }

  lemma {:induction false} TwinRun(limit: nat, es: seq<Event>)
    requires limit >= 1
    ensures Twin(Run(Some(limit), es).book, Run(None, es).book)
  {
    if es != [] {
      TwinRun(limit, es[..|es| - 1]);
      TwinStep(Run(Some(limit), es[..|es| - 1]).book, Run(None, es[..|es| - 1]).book, es[|es| - 1], limit);
    }
  }

  /** The echo of the newest outstanding fence settles everything in both twins. */
  lemma NewestEchoLevels(t: Book, u: Book)
    requires Valid(t) && Valid(u) && Twin(t, u) && u.entries != []
    ensures var newest := u.nextSeq - 1;
            && Settle(t, newest).delivered == Settle(u, newest).delivered
            && Settle(t, newest).entries == [] == Settle(u, newest).entries
  {
    var newest := u.nextSeq - 1;
    assert GoodRange(t, t.entries[|t.entries| - 1]) && GoodRange(u, u.entries[|u.entries| - 1]);
    CoverUnique(t, newest, |t.entries| - 1);
    CoverUnique(u, newest, |u.entries| - 1);
  }

  /**
   * After the same events a thinned ledger has never credited more than the
   * full one, and the echo of the newest outstanding fence levels the two.
   */
  lemma {:induction false} ThinningOnlyDelays(limit: nat, es: seq<Event>)
    requires limit >= 1
    ensures var t, u := Run(Some(limit), es).book, Run(None, es).book;
            && t.delivered <= u.delivered
            && (u.entries != [] ==>
                  var newest := u.nextSeq - 1;
                  && Settle(t, newest).delivered == Settle(u, newest).delivered
                  && Settle(t, newest).entries == [] == Settle(u, newest).entries)
  {
    hide Run, Valid, Settle;
    TwinRun(limit, es);
    if Run(None, es).book.entries != [] {
      NewestEchoLevels(Run(Some(limit), es).book, Run(None, es).book);
    }
  }
}
