/**
 * The windowed extremum kept in two buckets: the best sample of the current
 * bucket and of the one before it. Both flow-control estimators use it, for the
 * smallest round trip and for the largest delivery rate.
 */
module TwoBucket {

  datatype Sample<T> = Sample(at: int, value: T)

  /** `start` is 0 until the first sample; a bucket without a sample holds the `none` value. */
  datatype Filter<T> = Filter(start: int, cur: T, prev: T)

  /** A strict total order on the values; `Better(a, b)` makes `a` the one to keep. */
  ghost predicate StrictOrder<T(!new)>(better: (T, T) -> bool) {
    && (forall a :: !better(a, a))
    && (forall a, b, c :: better(a, b) && better(b, c) ==> better(a, c))
    && (forall a, b :: a == b || better(a, b) || better(b, a))
  }

  function Smaller(a: int, b: int): bool {
    a < b
  }

  function Larger(a: real, b: real): bool {
    a > b
  }

  /** Start a new bucket at `now` when the current one is over, carrying it over only if it is recent. */
  function Rotate<T>(none: T, width: int, f: Filter<T>, now: int): Filter<T> {
    if f.start == 0 || now - f.start >= width then
      Filter(now, none, if f.start != 0 && now - f.start < 2 * width then f.cur else none)
    else f
  }

  function Observe<T(==)>(better: (T, T) -> bool, none: T, width: int, f: Filter<T>, s: Sample<T>): Filter<T> {
    var g := Rotate(none, width, f, s.at);
    if g.cur == none || better(s.value, g.cur) then g.(cur := s.value) else g
  }

  function Report<T(==)>(better: (T, T) -> bool, none: T, f: Filter<T>): T {
    if f.prev != none && better(f.prev, f.cur) then f.prev else f.cur
  }

  /** The filter after a log of samples, oldest first. */
  function After<T(==)>(better: (T, T) -> bool, none: T, width: int, log: seq<Sample<T>>): Filter<T> {
    if log == [] then Filter(0, none, none)
    else Observe(better, none, width, After(better, none, width, log[..|log| - 1]), log[|log| - 1])
  }

  /** Samples arrive in time order at positive times and are never the `none` value. */
  ghost predicate Clocked<T>(none: T, log: seq<Sample<T>>) {
    && (forall i :: 0 <= i < |log| ==> log[i].at > 0 && log[i].value != none)
    && (forall i, j :: 0 <= i < j < |log| ==> log[i].at <= log[j].at)
  }

  /** The current bucket's value is the best of the samples since its start. */
  ghost predicate CurTracks<T>(better: (T, T) -> bool, none: T, f: Filter<T>, log: seq<Sample<T>>) {
    && f.cur != none
    && (exists i :: 0 <= i < |log| && log[i].at >= f.start && log[i].value == f.cur)
    && (forall i :: 0 <= i < |log| && log[i].at >= f.start ==> !better(log[i].value, f.cur))
  }

  /** The carried-over value is a sample of the two widths before, and covers the one width before. */
  ghost predicate PrevTracks<T>(better: (T, T) -> bool, none: T, width: int, f: Filter<T>, log: seq<Sample<T>>) {
    && (f.prev != none ==>
          exists i :: 0 <= i < |log| && f.start - 2 * width < log[i].at < f.start && log[i].value == f.prev)
    && (forall i :: 0 <= i < |log| && f.start - width < log[i].at < f.start ==>
                      f.prev != none && !better(log[i].value, f.prev))
  }

  ghost predicate Tracks<T>(better: (T, T) -> bool, none: T, width: int, f: Filter<T>, log: seq<Sample<T>>) {
    && log != []
    && f.start > 0
    && f.start <= log[|log| - 1].at < f.start + width
    && CurTracks(better, none, f, log)
    && PrevTracks(better, none, width, f, log)
  }

  lemma ObserveCur<T(!new)>(
    better: (T, T) -> bool, none: T, width: int, f: Filter<T>, log: seq<Sample<T>>, s: Sample<T>)
    requires StrictOrder(better) && width > 0 && Clocked(none, log + [s])
    requires if log == [] then f == Filter(0, none, none) else Tracks(better, none, width, f, log)
    ensures CurTracks(better, none, Observe(better, none, width, f, s), log + [s])
  {
    hide PrevTracks;
    var g, more, n := Observe(better, none, width, f, s), log + [s], |log|;
    assert more[n] == s && forall i :: 0 <= i < n ==> more[i] == log[i] && more[i].at <= s.at;
    if g.cur == s.value {
      assert more[n].at >= g.start && more[n].value == g.cur;
    } else {
      var i :| 0 <= i < n && log[i].at >= f.start && log[i].value == f.cur;
      assert more[i].at >= g.start && more[i].value == g.cur;
    }
    assert n > 0 ==> forall i :: 0 <= i < n ==> more[i].at <= more[n - 1].at;
    assert g.start != f.start ==> forall i :: 0 <= i < n ==> more[i].at < g.start;
  }

  lemma ObservePrev<T(!new)>(
    better: (T, T) -> bool, none: T, width: int, f: Filter<T>, log: seq<Sample<T>>, s: Sample<T>)
    requires StrictOrder(better) && width > 0 && Clocked(none, log + [s])
    requires if log == [] then f == Filter(0, none, none) else Tracks(better, none, width, f, log)
    ensures PrevTracks(better, none, width, Observe(better, none, width, f, s), log + [s])
  {
    var g, more, n := Observe(better, none, width, f, s), log + [s], |log|;
    assert more[n] == s && forall i :: 0 <= i < n ==> more[i] == log[i];
    assert n > 0 ==> forall i :: 0 <= i < n ==> more[i].at <= more[n - 1].at;
    if g.prev != none {
      var i :| 0 <= i < n && log[i].value == g.prev && g.start - 2 * width < log[i].at < g.start;
      assert more[i].value == g.prev;
    }
    forall i | 0 <= i < |more| && g.start - width < more[i].at < g.start
      ensures g.prev != none && !better(more[i].value, g.prev)
    {
      assert i < n && more[i] == log[i];
    }
  }

  lemma ObserveTracks<T(!new)>(
    better: (T, T) -> bool, none: T, width: int, f: Filter<T>, log: seq<Sample<T>>, s: Sample<T>)
    requires StrictOrder(better) && width > 0 && Clocked(none, log + [s])
    requires if log == [] then f == Filter(0, none, none) else Tracks(better, none, width, f, log)
    ensures Tracks(better, none, width, Observe(better, none, width, f, s), log + [s])
  {
    ObserveCur(better, none, width, f, log, s);
    ObservePrev(better, none, width, f, log, s);
    hide CurTracks, PrevTracks, StrictOrder;
    assert (log + [s])[|log|] == s;
  }

  lemma {:induction false} AfterTracks<T(!new)>(better: (T, T) -> bool, none: T, width: int, log: seq<Sample<T>>)
    requires StrictOrder(better) && width > 0 && Clocked(none, log) && log != []
    ensures Tracks(better, none, width, After(better, none, width, log), log)
  {
    var init, s := log[..|log| - 1], log[|log| - 1];
    assert log == init + [s];
    if init != [] {
      AfterTracks(better, none, width, init);
    }
    ObserveTracks(better, none, width, After(better, none, width, init), init, s);
  }

  /**
   * Two buckets stand in for a sliding window: the reported value is a sample
   * of the last three widths, and no sample of the last one width beats it.
   */
  lemma RefinesSlidingWindow<T(!new)>(better: (T, T) -> bool, none: T, width: int, log: seq<Sample<T>>)
    requires StrictOrder(better) && width > 0 && Clocked(none, log) && log != []
    ensures var now, best := log[|log| - 1].at, Report(better, none, After(better, none, width, log));
            && (exists i :: 0 <= i < |log| && now - 3 * width < log[i].at && log[i].value == best)
            && (forall i :: 0 <= i < |log| && now - width < log[i].at ==> !better(log[i].value, best))
  {
    AfterTracks(better, none, width, log);
    var f := After(better, none, width, log);
    var now, best := log[|log| - 1].at, Report(better, none, f);
    if best == f.cur {
      var i :| 0 <= i < |log| && log[i].at >= f.start && log[i].value == f.cur;
      assert now - 3 * width < log[i].at && log[i].value == best;
    } else {
      var i :| 0 <= i < |log| && f.start - 2 * width < log[i].at < f.start && log[i].value == f.prev;
      assert now - 3 * width < log[i].at && log[i].value == best;
    }
    forall i | 0 <= i < |log| && now - width < log[i].at ensures !better(log[i].value, best) {
      assert log[i].at >= f.start || f.start - width < log[i].at < f.start;
    }
  }

  /** Emptying a filter that has seen nothing for two widths changes no later report. */
  lemma AgingIsInvisible<T>(better: (T, T) -> bool, none: T, width: int, f: Filter<T>, tick: int, s: Sample<T>)
    requires width > 0 && f.start != 0 && tick - f.start >= 2 * width && s.at >= tick
    ensures Observe(better, none, width, Filter(0, none, none), s) == Observe(better, none, width, f, s)
  {
  }
}
