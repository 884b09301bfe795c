/**
 * Per-friend rate limits: a bucket pair per lower-cased public key, driven by
 * the defaults with the friend's sparse override merged on top.
 */
module RateLimiter {
  import opened Bytes
  import opened TokenBucket

  const MAX_BYTE_BUDGET: U64 := 1_000_000_000
  const MIN_ACTIVE_BYTE_BURST: U64 := 65_535

  type U32 = x: int | 0 <= x < 0x1_0000_0000

  datatype Mode = Off | Report | Enforce

  datatype Spec = Spec(
    mode: Mode, openPerSec: U32, openBurst: U32, bytesPerSec: U64, bytesBurst: U64, maxTunnels: U32,
    defaultsPresent: bool)

  datatype Override = Override(
    mode: Option<Mode>, openPerSec: Option<U32>, openBurst: Option<U32>, bytesPerSec: Option<U64>,
    bytesBurst: Option<U64>, maxTunnels: Option<U32>)

  const NO_OVERRIDE := Override(None, None, None, None, None, None)

  predicate Empty(s: Spec) {
    s.mode == Off && s.openPerSec == 0 && s.openBurst == 0 && s.bytesPerSec == 0 && s.bytesBurst == 0
    && s.maxTunnels == 0
  }

  function Normalise(s: Spec): Spec {
    var burst: U64 := Min(s.bytesBurst, MAX_BYTE_BUDGET);
    s.(bytesPerSec := Min(s.bytesPerSec, MAX_BYTE_BUDGET),
       bytesBurst := if burst != 0 then Max(burst, MIN_ACTIVE_BYTE_BURST) else 0)
  }

  function Or<T>(o: Option<T>, base: T): T {
    match o case Some(v) => v case None => base
  }

  /** The override on top of the base, field by field. */
  function Merge(o: Override, base: Spec): Spec {
    var out := Spec(base.mode, Or(o.openPerSec, base.openPerSec), Or(o.openBurst, base.openBurst),
                    Or(o.bytesPerSec, base.bytesPerSec), Or(o.bytesBurst, base.bytesBurst),
                    Or(o.maxTunnels, base.maxTunnels), base.defaultsPresent);
    match o.mode
    case Some(m) => out.(mode := m)
    case None =>
      if !base.defaultsPresent && Empty(base) && !Empty(out) then out.(mode := Enforce) else out
  }

  function FromSpec(s: Spec): Override {
    Override(Some(s.mode), Some(s.openPerSec), Some(s.openBurst), Some(s.bytesPerSec), Some(s.bytesBurst),
             Some(s.maxTunnels))
  }

  function Resolve(o: Override, defaults: Spec): Spec {
    Normalise(Merge(o, defaults))
  }

  function LowerChar(c: char): char {
    if 'A' <= c <= 'Z' then c - 'A' + 'a' else c
  }

  function Lower(s: string): string {
    if s == "" then "" else Lower(s[..|s| - 1]) + [LowerChar(s[|s| - 1])]
  }

  // ---------------------------------------------------------------------------
  // One friend
  // ---------------------------------------------------------------------------

  datatype Bucket = Bucket(
    open: Meter, bytes: Meter, openRejected: nat, bytesThrottled: nat, spec: Spec, over: Override)

  /** A new bucket is full. */
  function Seeded(spec: Spec, over: Override): Bucket {
    Bucket(Meter(spec.openBurst, 0), Meter(spec.bytesBurst, 0), 0, 0, spec, over)
  }

  /** A new spec takes effect at once; only tokens above a shrunken capacity are given up. */
  function ApplySpec(b: Bucket, spec: Spec): Bucket {
    b.(spec := spec, open := b.open.(tokens := Min(b.open.tokens, spec.openBurst)),
       bytes := b.bytes.(tokens := Min(b.bytes.tokens, spec.bytesBurst)))
  }

  function RefillBoth(b: Bucket, now: int): Bucket {
    b.(open := Refill(b.open, b.spec.openPerSec, b.spec.openBurst, now),
       bytes := Refill(b.bytes, b.spec.bytesPerSec, b.spec.bytesBurst, now))
  }

  predicate OpensLimited(s: Spec) {
    s.mode != Off && s.openPerSec != 0 && s.openBurst != 0
  }

  predicate BytesLimited(s: Spec) {
    s.mode != Off && s.bytesPerSec != 0 && s.bytesBurst != 0
  }

  /** One TUNNEL_OPEN: the new bucket and whether it may proceed. */
  function OpenOne(b: Bucket, now: int): (Bucket, bool) {
    var r := RefillBoth(b, now);
    if !OpensLimited(b.spec) then (r, true)
    else if r.open.tokens <= 0 then (r.(openRejected := r.openRejected + 1), b.spec.mode == Report)
    else (r.(open := r.open.(tokens := r.open.tokens - 1)), true)
  }

  /** One data payload: the new bucket, whether it may proceed, and the wait announced otherwise. */
  function ChargeBytes(b: Bucket, bytes: U64, now: int, counted: bool): (Bucket, bool, int) {
    var r := RefillBoth(b, now);
    var need := Min(bytes, b.spec.bytesBurst);
    if !BytesLimited(b.spec) then (r, true, 0)
    else if r.bytes.tokens >= need then (r.(bytes := r.bytes.(tokens := r.bytes.tokens - need)), true, 0)
    else
      var c := if counted then r.(bytesThrottled := r.bytesThrottled + 1) else r;
      if b.spec.mode == Report then (c.(bytes := c.bytes.(tokens := Min(c.bytes.tokens, 0))), true, 0)
      else (c, false, Wait(b.spec.bytesPerSec, need - Max(r.bytes.tokens, 0)))
  }

  // ---------------------------------------------------------------------------
  // All friends
  // ---------------------------------------------------------------------------

  datatype Limiter = Limiter(defaults: Spec, buckets: map<string, Bucket>)

  datatype Op =
    | SetDefaults(spec: Spec)
    | SetFriend(pk: string, over: Override)
    | SetFriendSpec(pk: string, spec: Spec)
    | ReplaceAll(spec: Spec, overs: seq<(string, Override)>)
    | ClearAll
    | SetClock
    | ConsumeOpen(pk: string, now: int)
    | ConsumeBytes(pk: string, bytes: U64, now: int, counted: bool)
    | NoteThrottled(pk: string)

  function Lookup(l: Limiter, key: string): Bucket {
    if key in l.buckets then l.buckets[key] else Seeded(l.defaults, NO_OVERRIDE)
  }

  function Store(l: Limiter, key: string, b: Bucket): Limiter {
    l.(buckets := l.buckets[key := b])
  }

  lemma StoreTwice(l: Limiter, key: string, a: Bucket, b: Bucket)
    ensures Store(Store(l, key, a), key, b) == Store(l, key, b)
  {
  }

  function Install(l: Limiter, key: string, over: Override): Limiter {
    if over == NO_OVERRIDE then l.(buckets := l.buckets - {key})
    else if key !in l.buckets then Store(l, key, Seeded(Resolve(over, l.defaults), over))
    else Store(l, key, ApplySpec(l.buckets[key].(over := over), Resolve(over, l.defaults)))
  }

  function InstallAll(l: Limiter, overs: seq<(string, Override)>): Limiter {
    if overs == [] then l
    else
      var last := overs[|overs| - 1];
      Install(InstallAll(l, overs[..|overs| - 1]), Lower(last.0), last.1)
  }

  function WithDefaults(l: Limiter, spec: Spec): Limiter {
    var d := Normalise(spec);
    Limiter(d, map k | k in l.buckets :: ApplySpec(l.buckets[k], Resolve(l.buckets[k].over, d)))
  }

  function Unstamped(b: Bucket): Bucket {
    b.(open := b.open.(cursor := 0), bytes := b.bytes.(cursor := 0))
  }

  function Step(l: Limiter, op: Op): Limiter {
    match op
    case SetDefaults(spec) => WithDefaults(l, spec)
    case SetFriend(pk, over) => Install(l, Lower(pk), over)
    case SetFriendSpec(pk, spec) => Install(l, Lower(pk), if Empty(spec) then NO_OVERRIDE else FromSpec(spec))
    case ReplaceAll(spec, overs) => InstallAll(Limiter(Normalise(spec), map[]), overs)
    case ClearAll => l.(buckets := map[])
    case SetClock => l.(buckets := map k | k in l.buckets :: Unstamped(l.buckets[k]))
    case ConsumeOpen(pk, now) => Store(l, Lower(pk), OpenOne(Lookup(l, Lower(pk)), now).0)
    case ConsumeBytes(pk, bytes, now, counted) =>
      Store(l, Lower(pk), ChargeBytes(Lookup(l, Lower(pk)), bytes, now, counted).0)
    case NoteThrottled(pk) =>
      var b := Lookup(l, Lower(pk));
      Store(l, Lower(pk), if BytesLimited(b.spec) then b.(bytesThrottled := b.bytesThrottled + 1) else b)
  }

  function EffectiveSpec(l: Limiter, pk: string): Spec {
    Lookup(l, Lower(pk)).spec
  }

  // ---------------------------------------------------------------------------
  // The object
  // ---------------------------------------------------------------------------

  method NormaliseKey(pk: string) returns (key: string)
    ensures key == Lower(pk)
  {
    key := "";
    var i := 0;
    while i < |pk|
      invariant 0 <= i <= |pk| && key == Lower(pk[..i])
    {
      assert pk[..i + 1][..i] == pk[..i];
      key := key + [LowerChar(pk[i])];
      i := i + 1;
    }
    assert pk[..i] == pk;
  }

  method RefillOne(tokens: int, cursorNs: int, perSec: int, burst: int, now: int) returns (t: int, c: int)
    ensures Meter(t, c) == Refill(Meter(tokens, cursorNs), perSec, burst, now)
  {
    t, c := tokens, cursorNs;
    if c == 0 {
      c := now;
      return;
    }
    if perSec <= 0 || burst <= 0 {
      c := now;
      return;
    }
    var elapsed := now - c;
    if elapsed <= 0 {
      return;
    }
    if elapsed >= burst * NANOS_PER_SEC / perSec {
      t, c := burst, now;
      return;
    }
    if t >= burst {
      c := now;
      return;
    }
    MulNonNegative(perSec, elapsed);
    var add := perSec * elapsed / NANOS_PER_SEC;
    if add <= 0 {
      return;
    }
    t := Min(t + add, burst);
    if t == burst {
      c := now;
      return;
    }
    c := c + add * NANOS_PER_SEC / perSec;
  }

  class FriendLimiter {
    var defaultSpec: Spec
    var buckets: map<string, Bucket>

    function View(): Limiter
      reads this
    {
      Limiter(defaultSpec, buckets)
    }

    constructor ()
      ensures View() == Limiter(Spec(Off, 0, 0, 0, 0, 0, false), map[])
    {
      defaultSpec, buckets := Spec(Off, 0, 0, 0, 0, 0, false), map[];
    }

    method GetOrCreateBucket(key: string)
      modifies `buckets
      ensures key in buckets && buckets[key] == Lookup(old(View()), key)
      ensures View() == Store(old(View()), key, Lookup(old(View()), key))
    {
      if key !in buckets {
        buckets := buckets[key := Seeded(defaultSpec, NO_OVERRIDE)];
      }
      assert buckets == old(buckets)[key := buckets[key]];
    }

    method RefillBucket(key: string, now: int)
      requires key in buckets
      modifies `buckets
      ensures key in buckets && buckets[key] == RefillBoth(old(buckets)[key], now)
      ensures View() == Store(old(View()), key, RefillBoth(old(buckets)[key], now))
    {
      var b := buckets[key];
      var t, c := RefillOne(b.open.tokens, b.open.cursor, b.spec.openPerSec, b.spec.openBurst, now);
      b := b.(open := Meter(t, c));
      t, c := RefillOne(b.bytes.tokens, b.bytes.cursor, b.spec.bytesPerSec, b.spec.bytesBurst, now);
      buckets := buckets[key := b.(bytes := Meter(t, c))];
    }

    method Begin(pk: string, now: int) returns (key: string, b: Bucket)
      modifies `buckets
      ensures key == Lower(pk) && b == RefillBoth(Lookup(old(View()), key), now)
      ensures key in buckets && buckets[key] == b && View() == Store(old(View()), key, b)
    {
      key := NormaliseKey(pk);
      GetOrCreateBucket(key);
      hide Refill, RefillBoth, Lookup;
      RefillBucket(key, now);
      b := buckets[key];
    }

    /** Replaces the entry of a key that is the only one changed since `l`. */
    method Put(key: string, b: Bucket, ghost l: Limiter)
      requires key in buckets && View() == Store(l, key, buckets[key])
      modifies `buckets
      ensures View() == Store(l, key, b)
    {
      StoreTwice(l, key, buckets[key], b);
      buckets := buckets[key := b];
    }

    method TryConsumeOpen(pk: string, now: int) returns (ok: bool)
      modifies `buckets
      ensures View() == Step(old(View()), ConsumeOpen(pk, now))
      ensures ok == OpenOne(Lookup(old(View()), Lower(pk)), now).1
    {
      hide Refill, Seeded, Lower, Store;
      var key, b := Begin(pk, now);
      if b.spec.mode == Off || b.spec.openPerSec == 0 || b.spec.openBurst == 0 {
        return true;
      }
      if b.open.tokens <= 0 {
        Put(key, b.(openRejected := b.openRejected + 1), old(View()));
        return b.spec.mode == Report;
      }
      Put(key, b.(open := b.open.(tokens := b.open.tokens - 1)), old(View()));
      return true;
    }

    method TryConsumeBytes(pk: string, bytes: U64, now: int, counted: bool) returns (ok: bool, retryAfter: int)
      modifies `buckets
      ensures View() == Step(old(View()), ConsumeBytes(pk, bytes, now, counted))
      ensures var (_, granted, wait) := ChargeBytes(Lookup(old(View()), Lower(pk)), bytes, now, counted);
              ok == granted && retryAfter == wait
    {
      hide Refill, Seeded, Lower, Store, Wait;
      retryAfter := 0;
      var key, b := Begin(pk, now);
      if b.spec.mode == Off || b.spec.bytesPerSec == 0 || b.spec.bytesBurst == 0 {
        return true, 0;
      }
      var need := Min(bytes, b.spec.bytesBurst);
      var cur := b.bytes.tokens;
      if cur < need {
        if counted {
          b := b.(bytesThrottled := b.bytesThrottled + 1);
        }
        if b.spec.mode == Report {
          b := b.(bytes := b.bytes.(tokens := if cur > 0 then 0 else cur));
          Put(key, b, old(View()));
          return true, 0;
        }
        Put(key, b, old(View()));
        return false, Wait(b.spec.bytesPerSec, need - Max(cur, 0));
      }
      Put(key, b.(bytes := b.bytes.(tokens := cur - need)), old(View()));
      return true, 0;
    }

    method NoteBytesThrottled(pk: string)
      modifies `buckets
      ensures View() == Step(old(View()), NoteThrottled(pk))
    {
      var key := NormaliseKey(pk);
      GetOrCreateBucket(key);
      var b := buckets[key];
      if b.spec.mode == Off || b.spec.bytesPerSec == 0 || b.spec.bytesBurst == 0 {
        return;
      }
      buckets := buckets[key := b.(bytesThrottled := b.bytesThrottled + 1)];
    }

    method InstallFriendSpec(key: string, over: Override)
      modifies `buckets
      ensures View() == Install(old(View()), key, over)
    {
      if over == NO_OVERRIDE {
        buckets := buckets - {key};
        return;
      }
      var resolved := Normalise(Merge(over, defaultSpec));
      if key !in buckets {
        buckets := buckets[key := Seeded(resolved, over)];
        return;
      }
      buckets := buckets[key := ApplySpec(buckets[key].(over := over), resolved)];
    }

    method SetFriendOverride(pk: string, over: Override)
      modifies `buckets
      ensures View() == Step(old(View()), SetFriend(pk, over))
    {
      var key := NormaliseKey(pk);
      InstallFriendSpec(key, over);
    }

    method SetFriendWhole(pk: string, spec: Spec)
      modifies `buckets
      ensures View() == Step(old(View()), SetFriendSpec(pk, spec))
    {
      if Empty(spec) {
        SetFriendOverride(pk, NO_OVERRIDE);
        return;
      }
      SetFriendOverride(pk, FromSpec(spec));
    }

    method SetDefaultSpec(spec: Spec)
      modifies this
      ensures View() == Step(old(View()), SetDefaults(spec))
    {
      defaultSpec := Normalise(spec);
      var todo := buckets.Keys;
      while todo != {}
        invariant todo <= buckets.Keys == old(buckets).Keys && defaultSpec == Normalise(spec)
        invariant forall k :: k in todo ==> buckets[k] == old(buckets)[k]
        invariant forall k :: k in buckets && k !in todo ==>
                                buckets[k] == ApplySpec(old(buckets)[k], Resolve(old(buckets)[k].over, defaultSpec))
      {
        hide ApplySpec, Merge, Normalise;
        var k :| k in todo;
        var b := buckets[k];
        buckets := buckets[k := ApplySpec(b, Normalise(Merge(b.over, defaultSpec)))];
        todo := todo - {k};
      }
    }

    method ResetClock()
      modifies `buckets
      ensures View() == Step(old(View()), SetClock)
    {
      var todo := buckets.Keys;
      while todo != {}
        invariant todo <= buckets.Keys == old(buckets).Keys
        invariant forall k :: k in todo ==> buckets[k] == old(buckets)[k]
        invariant forall k :: k in buckets && k !in todo ==> buckets[k] == Unstamped(old(buckets)[k])
      {
        var k :| k in todo;
        var b := buckets[k];
        buckets := buckets[k := b.(open := b.open.(cursor := 0), bytes := b.bytes.(cursor := 0))];
        todo := todo - {k};
      }
    }

    method ClearAllFriendSpecs()
      modifies `buckets
      ensures View() == Step(old(View()), ClearAll)
    {
      buckets := map[];
    }

    method ReplaceEverything(spec: Spec, overs: seq<(string, Override)>)
      modifies this
      ensures View() == Step(old(View()), ReplaceAll(spec, overs))
    {
      buckets := map[];
      defaultSpec := Normalise(spec);
      var i := 0;
      while i < |overs|
        invariant 0 <= i <= |overs|
        invariant View() == InstallAll(Limiter(Normalise(spec), map[]), overs[..i])
      {
        hide Install, Normalise;
        assert overs[..i + 1][..i] == overs[..i];
        var key := NormaliseKey(overs[i].0);
        InstallFriendSpec(key, overs[i].1);
        i := i + 1;
      }
      assert overs[..i] == overs;
    }
  }

  // ---------------------------------------------------------------------------
  // Which spec governs a friend
  // ---------------------------------------------------------------------------

  /** The stored budgets are in range, and an engaged byte bucket holds any frame's payload. */
  predicate InRange(s: Spec) {
    s.bytesPerSec <= MAX_BYTE_BUDGET && s.bytesBurst <= MAX_BYTE_BUDGET
    && (s.bytesBurst != 0 ==> s.bytesBurst >= MIN_ACTIVE_BYTE_BURST)
  }

  /** Normalising is idempotent, and leaves alone exactly the specs in range. */
  lemma NormaliseFixpoint(s: Spec)
    ensures InRange(Normalise(s)) && Normalise(Normalise(s)) == Normalise(s)
    ensures Normalise(s) == s <==> InRange(s)
  {
  }

  ghost predicate CoherentBucket(b: Bucket, defaults: Spec) {
    b.spec == Resolve(b.over, defaults)
  }

  /** Every bucket's spec is the current defaults with the friend's own override on top. */
  ghost predicate Coherent(l: Limiter) {
    InRange(l.defaults) && forall k :: k in l.buckets ==> CoherentBucket(l.buckets[k], l.defaults)
  }

  /** A friend without an override is governed by the defaults as they are. */
  lemma LookupCoherent(l: Limiter, key: string)
    requires Coherent(l)
    ensures CoherentBucket(Lookup(l, key), l.defaults)
  {
    NormaliseFixpoint(l.defaults);
  }

  lemma InstallCoherent(l: Limiter, key: string, over: Override)
    requires Coherent(l)
    ensures Coherent(Install(l, key, over)) && Install(l, key, over).defaults == l.defaults
  {
    hide Resolve, InRange;
  }

  lemma {:induction false} InstallAllCoherent(l: Limiter, overs: seq<(string, Override)>)
    requires Coherent(l)
    ensures Coherent(InstallAll(l, overs)) && InstallAll(l, overs).defaults == l.defaults
  {
    if overs != [] {
      InstallAllCoherent(l, overs[..|overs| - 1]);
      hide Install, Coherent, Lower;
      var last := overs[|overs| - 1];
      InstallCoherent(InstallAll(l, overs[..|overs| - 1]), Lower(last.0), last.1);
    }
  }

  /** Every operation, whatever order they come in, keeps every effective spec in step with its two sources. */
  lemma StepCoherent(l: Limiter, op: Op)
    requires Coherent(l)
    ensures Coherent(Step(l, op))
  {
    match op {
      case SetDefaults(spec) => NormaliseFixpoint(spec);
      case SetFriend(pk, over) => InstallCoherent(l, Lower(pk), over);
      case SetFriendSpec(pk, spec) =>
        InstallCoherent(l, Lower(pk), if Empty(spec) then NO_OVERRIDE else FromSpec(spec));
      case ReplaceAll(spec, overs) =>
        NormaliseFixpoint(spec);
        InstallAllCoherent(Limiter(Normalise(spec), map[]), overs);
      case ClearAll =>
      case SetClock =>
      case ConsumeOpen(pk, now) => LookupCoherent(l, Lower(pk));
      case ConsumeBytes(pk, bytes, now, counted) => LookupCoherent(l, Lower(pk));
      case NoteThrottled(pk) => LookupCoherent(l, Lower(pk));
    }
  }

  /** The last override a batch lists for a key, if any. */
  function LastFor(overs: seq<(string, Override)>, key: string): Override {
    if overs == [] then NO_OVERRIDE
    else if Lower(overs[|overs| - 1].0) == key then overs[|overs| - 1].1
    else LastFor(overs[..|overs| - 1], key)
  }

  lemma {:induction false} InstallAllBucket(d: Spec, overs: seq<(string, Override)>, key: string)
    requires InRange(d)
    ensures Lookup(InstallAll(Limiter(d, map[]), overs), key).over == LastFor(overs, key)
    ensures InstallAll(Limiter(d, map[]), overs).defaults == d
  {
    if overs != [] {
      InstallAllBucket(d, overs[..|overs| - 1], key);
      hide Resolve, Lower;
    }
  }

  /**
   * A rules reload leaves each friend under the new defaults with the last
   * override the batch lists for its key on top, whatever was there before and
   * however the keys are capitalised.
   */
  lemma ReloadGoverns(l: Limiter, spec: Spec, overs: seq<(string, Override)>, pk: string)
    ensures EffectiveSpec(Step(l, ReplaceAll(spec, overs)), pk)
            == Resolve(LastFor(overs, Lower(pk)), Normalise(spec))
  {
    NormaliseFixpoint(spec);
    InstallAllBucket(Normalise(spec), overs, Lower(pk));
    var start := Limiter(Normalise(spec), map[]);
    InstallAllCoherent(start, overs);
    LookupCoherent(InstallAll(start, overs), Lower(pk));
  }

  /** A batch without its empty entries. */
  function SkipEmpties(overs: seq<(string, Override)>): seq<(string, Override)> {
    if overs == [] then []
    else
      var rest, last := SkipEmpties(overs[..|overs| - 1]), overs[|overs| - 1];
      if last.1 == NO_OVERRIDE then rest else rest + [last]
  }

  /** Every entry the batch lists for the key is empty. */
  predicate AllEmptyFor(overs: seq<(string, Override)>, key: string) {
    forall i :: 0 <= i < |overs| && Lower(overs[i].0) == key ==> overs[i].1 == NO_OVERRIDE
  }

  /** No empty entry for the key comes after one that is not. */
  predicate EmptiesComeFirst(overs: seq<(string, Override)>, key: string) {
    forall i, j :: 0 <= i < j < |overs| && Lower(overs[i].0) == Lower(overs[j].0) == key ==>
                     overs[j].1 == NO_OVERRIDE ==> overs[i].1 == NO_OVERRIDE
  }

  lemma {:induction false} SkippedLastFor(overs: seq<(string, Override)>, key: string)
    ensures LastFor(overs, key) != NO_OVERRIDE ==> LastFor(SkipEmpties(overs), key) == LastFor(overs, key)
    ensures LastFor(SkipEmpties(overs), key) == NO_OVERRIDE <==> AllEmptyFor(overs, key)
  {
    if overs != [] {
      var init, last := overs[..|overs| - 1], overs[|overs| - 1];
      SkippedLastFor(init, key);
      hide Lower;
      assert overs == init + [last];
      assert forall i :: 0 <= i < |init| ==> overs[i] == init[i];
      var rest := SkipEmpties(init);
      assert last.1 != NO_OVERRIDE ==> (rest + [last])[..|rest|] == rest;
    }
  }

  /**
   * A reload does not skip empty entries as documented: an empty entry clears
   * what the batch listed for its key before. The override that governs a key
   * is the one skipping would leave exactly when the key's last entry is not
   * empty, or all of them are.
   */
  lemma ReloadSkipsEmptiesExactly(d: Spec, overs: seq<(string, Override)>, key: string)
    requires InRange(d)
    ensures var start := Limiter(d, map[]);
            Lookup(InstallAll(start, overs), key).over == Lookup(InstallAll(start, SkipEmpties(overs)), key).over
            <==> LastFor(overs, key) != NO_OVERRIDE || AllEmptyFor(overs, key)
  {
    InstallAllBucket(d, overs, key);
    InstallAllBucket(d, SkipEmpties(overs), key);
    SkippedLastFor(overs, key);
    hide InstallAll, AllEmptyFor;
  }

  /** What a limiter holds for a key, if anything. */
  function Held(l: Limiter, key: string): Option<Bucket> {
    if key in l.buckets then Some(l.buckets[key]) else None
  }

  lemma InstallHeld(l: Limiter, m: Limiter, k: string, over: Override, key: string)
    requires l.defaults == m.defaults && Held(l, key) == Held(m, key)
    ensures Install(l, k, over).defaults == l.defaults
    ensures Held(Install(l, k, over), key) == Held(Install(m, k, over), key)
    ensures k != key ==> Held(Install(l, k, over), key) == Held(l, key)
    ensures k == key ==> (Held(Install(l, k, over), key).None? <==> over == NO_OVERRIDE)
  {
    hide Resolve, ApplySpec;
  }

  /** While no empty entry for a key follows another, the key's whole bucket comes out as if they were skipped. */
  lemma {:induction false} LeadingEmptiesAreSkipped(l: Limiter, overs: seq<(string, Override)>, key: string)
    requires Held(l, key).None? && EmptiesComeFirst(overs, key)
    ensures var a, b := InstallAll(l, overs), InstallAll(l, SkipEmpties(overs));
            && a.defaults == b.defaults == l.defaults && Held(a, key) == Held(b, key)
            && (Held(a, key).Some? ==> !AllEmptyFor(overs, key))
  {
    if overs != [] {
      var init, last := overs[..|overs| - 1], overs[|overs| - 1];
      var rest := SkipEmpties(init);
      assert forall i :: 0 <= i < |init| ==> overs[i] == init[i];
      assert EmptiesComeFirst(init, key);
      LeadingEmptiesAreSkipped(l, init, key);
      var a, b := InstallAll(l, init), InstallAll(l, rest);
      InstallHeld(a, b, Lower(last.0), last.1, key);
      InstallHeld(a, a, Lower(last.0), last.1, key);
      assert (rest + [last])[..|rest|] == rest;
      hide Install, Held, Lower;
    }
  }

  /** Listing a friend and then listing it empty leaves it under the defaults, though skipping keeps its block. */
  lemma EmptyEntryClears(d: Spec, pk: string, over: Override)
    requires InRange(d) && over != NO_OVERRIDE && over.mode == Some(Enforce) && d.mode == Off
    ensures var batch, start := [(pk, over), (pk, NO_OVERRIDE)], Limiter(d, map[]);
            && EffectiveSpec(InstallAll(start, batch), pk) == d
            && EffectiveSpec(InstallAll(start, SkipEmpties(batch)), pk).mode == Enforce
  {
    var one, batch, start := [(pk, over)], [(pk, over), (pk, NO_OVERRIDE)], Limiter(d, map[]);
    assert batch[..1] == one && one[..0] == [];
    assert SkipEmpties(one) == one && SkipEmpties(batch) == one;
    assert InstallAll(start, one) == Install(start, Lower(pk), over);
    assert InstallAll(start, batch) == Install(InstallAll(start, one), Lower(pk), NO_OVERRIDE);
  }

  function Steps(l: Limiter, ops: seq<Op>): Limiter {
    if ops == [] then l else Step(Steps(l, ops[..|ops| - 1]), ops[|ops| - 1])
  }

  function AsOps(overs: seq<(string, Override)>): (ops: seq<Op>)
    ensures |ops| == |overs|
  {
    if overs == [] then []
    else AsOps(overs[..|overs| - 1]) + [SetFriend(overs[|overs| - 1].0, overs[|overs| - 1].1)]
  }

  lemma {:induction false} StepsInstall(l: Limiter, overs: seq<(string, Override)>)
    ensures Steps(l, AsOps(overs)) == InstallAll(l, overs)
  {
    if overs != [] {
      StepsInstall(l, overs[..|overs| - 1]);
      hide Install, Lower;
      assert AsOps(overs)[..|overs| - 1] == AsOps(overs[..|overs| - 1]);
    }
  }

  lemma {:induction false} StepsAppend(l: Limiter, a: seq<Op>, b: seq<Op>)
    ensures Steps(l, a + b) == Steps(Steps(l, a), b)
  {
    hide Step;
    if b == [] {
      assert a + b == a;
    } else {
      StepsAppend(l, a, b[..|b| - 1]);
      assert (a + b)[..|a + b| - 1] == a + b[..|b| - 1];
    }
  }

  lemma ClearThenDefaults(l: Limiter, spec: Spec)
    ensures Steps(l, [ClearAll, SetDefaults(spec)]) == Limiter(Normalise(spec), map[])
  {
    var one, two := [ClearAll], [ClearAll, SetDefaults(spec)];
    assert two[..1] == one && one[..0] == [];
    assert Steps(l, one) == Step(l, ClearAll);
    hide Normalise, Resolve, ApplySpec;
  }

  /** The atomic reload does exactly what the calls it replaced do in sequence. */
  lemma ReloadIsTheSequence(l: Limiter, spec: Spec, overs: seq<(string, Override)>)
    ensures Steps(l, [ClearAll, SetDefaults(spec)] + AsOps(overs)) == Step(l, ReplaceAll(spec, overs))
  {
    var two := [ClearAll, SetDefaults(spec)];
    StepsAppend(l, two, AsOps(overs));
    ClearThenDefaults(l, spec);
    StepsInstall(Limiter(Normalise(spec), map[]), overs);
    hide Steps, InstallAll, Normalise, AsOps;
  }

  /**
   * A friend's block without a mode takes the mode of the defaults, with one
   * exception: limits written with no defaults to inherit from are enforced.
   * In particular explicit `mode: off` defaults stay off.
   */
  lemma ModeIsInherited(o: Override, defaults: Spec)
    requires o.mode.None?
    ensures Merge(o, defaults).mode
            == if !defaults.defaultsPresent && Empty(defaults)
                  && exists v: int | v > 0 :: o.openPerSec == Some(v) || o.openBurst == Some(v)
                                              || o.bytesPerSec == Some(v) || o.bytesBurst == Some(v)
                                              || o.maxTunnels == Some(v)
               then Enforce else defaults.mode
  {
    if Empty(defaults) && !Empty(Merge(o, defaults).(mode := Off)) {
      var fields := [Or(o.openPerSec, 0), Or(o.openBurst, 0), Or(o.bytesPerSec, 0), Or(o.bytesBurst, 0),
                     Or(o.maxTunnels, 0)];
      assert fields[0] > 0 || fields[1] > 0 || fields[2] > 0 || fields[3] > 0 || fields[4] > 0;
    }
  }

  /** Equal, or the upper and the lower case of one letter. */
  predicate SameLetter(a: char, b: char) {
    a == b || ('A' <= a <= 'Z' && b as int == a as int + 32) || ('A' <= b <= 'Z' && a as int == b as int + 32)
  }

  /** Two spellings of a key name the same bucket exactly if they differ in the case of letters only. */
  lemma {:induction false} CaseIsIgnored(a: string, b: string)
    ensures |Lower(a)| == |a|
    ensures Lower(a) == Lower(b) <==> |a| == |b| && forall i :: 0 <= i < |a| ==> SameLetter(a[i], b[i])
  {
    if a == "" || b == "" {
      LowerLength(a);
      LowerLength(b);
    } else {
      var m, n := |a| - 1, |b| - 1;
      CaseIsIgnored(a[..m], b[..n]);
      LowerLength(a);
      LowerLength(b);
      assert Lower(a)[..m] == Lower(a[..m]) && Lower(b)[..n] == Lower(b[..n]);
      assert Lower(a)[m] == LowerChar(a[m]) && Lower(b)[n] == LowerChar(b[n]);
      if m == n {
        assert Lower(a) == Lower(b) <==> Lower(a)[..m] == Lower(b)[..n] && Lower(a)[m] == Lower(b)[n];
      }
    }
  }

  lemma {:induction false} LowerLength(s: string)
    ensures |Lower(s)| == |s|
  {
    if s != "" {
      LowerLength(s[..|s| - 1]);
    }
  }

  /** A bucket whose spec was replaced: its tokens, but for those above the new capacity, and all else kept. */
  predicate Respecced(before: Bucket, after: Bucket) {
    && after.open == before.open.(tokens := Min(before.open.tokens, after.spec.openBurst))
    && after.bytes == before.bytes.(tokens := Min(before.bytes.tokens, after.spec.bytesBurst))
    && after.openRejected == before.openRejected && after.bytesThrottled == before.bytesThrottled
  }

  /**
   * Reconfiguring neither refills nor punishes: new defaults keep every
   * friend's tokens and counters, and so does a new override for a friend that
   * has a bucket; the others are not touched. A friend without one starts full.
   */
  lemma ReconfiguringKeepsTokens(l: Limiter, spec: Spec, pk: string, over: Override, key: string)
    ensures key in l.buckets ==>
              var after := Step(l, SetDefaults(spec));
              key in after.buckets && Respecced(l.buckets[key], after.buckets[key])
    ensures var after := Step(l, SetFriend(pk, over));
            && (key != Lower(pk) ==> Held(after, key) == Held(l, key))
            && (over != NO_OVERRIDE ==>
                  var b := Lookup(after, Lower(pk));
                  if Lower(pk) in l.buckets then Respecced(l.buckets[Lower(pk)], b)
                  else b.open == Meter(b.spec.openBurst, 0) && b.bytes == Meter(b.spec.bytesBurst, 0)
                       && b.openRejected == 0 && b.bytesThrottled == 0)
  {
    hide Resolve, Lower, Normalise;
  }

  /** The smallest capacity a key was given by a batch since it last listed the key as empty. */
  function Smallest(d: Spec, overs: seq<(string, Override)>, key: string, w: Kind): Option<int> {
    if overs == [] then None
    else
      var before, last := Smallest(d, overs[..|overs| - 1], key, w), overs[|overs| - 1];
      if Lower(last.0) != key then before
      else if last.1 == NO_OVERRIDE then None
      else
        var burst := Burst(Resolve(last.1, d), w);
        Some(if before.None? then burst else Min(before.value, burst))
  }

  /**
   * What a reload leaves a friend with: a full bucket and cleared counters if
   * the batch lists its key once or not at all, or empty last; a key listed
   * more often keeps the smallest capacity it was given on the way, so it
   * starts full exactly if no earlier capacity was smaller than its last.
   */
  lemma {:induction false} ReloadTokensExactly(d: Spec, overs: seq<(string, Override)>, key: string, w: Kind)
    ensures var l := InstallAll(Limiter(d, map[]), overs);
            var b, least := Lookup(l, key), Smallest(d, overs, key, w);
            && l.defaults == d
            && (key in l.buckets <==> least.Some?)
            && MeterOf(b, w) == Meter(if least.Some? then least.value else Burst(d, w), 0)
            && (least.Some? ==> least.value <= Burst(b.spec, w))
            && b.openRejected == 0 && b.bytesThrottled == 0
  {
    if overs != [] {
      ReloadTokensExactly(d, overs[..|overs| - 1], key, w);
      hide Resolve, Lower;
    }
  }

  /** A key listed with a small capacity and then a larger one starts with the small one's tokens. */
  lemma DuplicateStartsShort(d: Spec, pk: string, small: Override, large: Override, w: Kind)
    requires small != NO_OVERRIDE && large != NO_OVERRIDE
    requires Burst(Resolve(small, d), w) < Burst(Resolve(large, d), w)
    ensures var b := Lookup(InstallAll(Limiter(d, map[]), [(pk, small), (pk, large)]), Lower(pk));
            b.spec == Resolve(large, d) && MeterOf(b, w).tokens == Burst(Resolve(small, d), w)
  {
    var one, two, start := [(pk, small)], [(pk, small), (pk, large)], Limiter(d, map[]);
    assert two[..1] == one && one[..0] == [];
    assert InstallAll(start, one) == Install(start, Lower(pk), small);
    assert InstallAll(start, two) == Install(InstallAll(start, one), Lower(pk), large);
    hide Resolve, Lower;
  }

  /** An override of one field changes that field of what it is put on, and no other but an inherited mode. */
  lemma SparseOverrides(base: Spec, v: U32, w: U64, m: Mode)
    ensures var on := (o: Override) => Merge(o, base).(mode := base.mode);
            && on(NO_OVERRIDE.(openPerSec := Some(v))) == base.(openPerSec := v)
            && on(NO_OVERRIDE.(openBurst := Some(v))) == base.(openBurst := v)
            && on(NO_OVERRIDE.(bytesPerSec := Some(w))) == base.(bytesPerSec := w)
            && on(NO_OVERRIDE.(bytesBurst := Some(w))) == base.(bytesBurst := w)
            && on(NO_OVERRIDE.(maxTunnels := Some(v))) == base.(maxTunnels := v)
            && Merge(NO_OVERRIDE.(mode := Some(m)), base) == base.(mode := m)
            && Merge(NO_OVERRIDE, base) == base
  {
  }

  /** The fields of an override are independent: each lands where it does alone, whatever the others say. */
  lemma OverridesAreIndependent(o: Override, p: Override, base: Spec)
    ensures o.openPerSec == p.openPerSec ==> Merge(o, base).openPerSec == Merge(p, base).openPerSec
    ensures o.openBurst == p.openBurst ==> Merge(o, base).openBurst == Merge(p, base).openBurst
    ensures o.bytesPerSec == p.bytesPerSec ==> Merge(o, base).bytesPerSec == Merge(p, base).bytesPerSec
    ensures o.bytesBurst == p.bytesBurst ==> Merge(o, base).bytesBurst == Merge(p, base).bytesBurst
    ensures o.maxTunnels == p.maxTunnels ==> Merge(o, base).maxTunnels == Merge(p, base).maxTunnels
    ensures o.mode == p.mode && o.mode.Some? ==> Merge(o, base).mode == Merge(p, base).mode
    ensures Merge(o, base).defaultsPresent == base.defaultsPresent
  {
  }

  /** A whole spec as an override governs entirely, whatever the defaults. */
  lemma WholeSpecGoverns(s: Spec, base: Spec)
    ensures Merge(FromSpec(s), base) == s.(defaultsPresent := base.defaultsPresent)
  {
  }

  // ---------------------------------------------------------------------------
  // Every bucket in every run
  // ---------------------------------------------------------------------------

  ghost predicate SoundBucket(b: Bucket, t: int) {
    Sound(b.open, b.spec.openBurst, t) && Sound(b.bytes, b.spec.bytesBurst, t)
  }

  /** No bucket is in debt or over-full, and no cursor is ahead of the clock's last reading `t`. */
  ghost predicate SoundLimiter(l: Limiter, t: int) {
    forall k :: k in l.buckets ==> SoundBucket(l.buckets[k], t)
  }

  /** The clock's last reading after an operation; a replaced clock starts over. */
  function Clock(op: Op, t: int): int {
    match op
    case SetClock => 0
    case ConsumeOpen(_, now) => now
    case ConsumeBytes(_, _, now, _) => now
    case _ => t
  }

  lemma RefillBothSound(b: Bucket, t: int, now: int)
    requires SoundBucket(b, t) && now > 0 && now >= t
    ensures SoundBucket(RefillBoth(b, now), now)
  {
    RefillKeepsSound(b.open, b.spec.openPerSec, b.spec.openBurst, now);
    RefillKeepsSound(b.bytes, b.spec.bytesPerSec, b.spec.bytesBurst, now);
    hide Refill;
  }

  lemma ChargeSound(b: Bucket, t: int, bytes: U64, now: int, counted: bool)
    requires SoundBucket(b, t) && now > 0 && now >= t
    ensures SoundBucket(OpenOne(b, now).0, now)
    ensures SoundBucket(ChargeBytes(b, bytes, now, counted).0, now)
  {
    RefillBothSound(b, t, now);
    hide Refill, Wait;
  }

  lemma {:induction false} InstallAllSound(l: Limiter, overs: seq<(string, Override)>, t: int)
    requires SoundLimiter(l, t) && t >= 0
    ensures SoundLimiter(InstallAll(l, overs), t)
  {
    if overs != [] {
      InstallAllSound(l, overs[..|overs| - 1], t);
      hide Resolve, Lower;
    }
  }

  /** Every operation keeps every bucket sound: reconfiguring, reloading, requests in any mode. */
  lemma StepSound(l: Limiter, op: Op, t: int)
    requires SoundLimiter(l, t) && t >= 0
    requires op.ConsumeOpen? || op.ConsumeBytes? ==> op.now > 0 && op.now >= t
    ensures SoundLimiter(Step(l, op), Clock(op, t))
  {
    hide Resolve, Refill, Lower, OpenOne, ChargeBytes;
    match op {
      case ReplaceAll(spec, overs) => InstallAllSound(Limiter(Normalise(spec), map[]), overs, t);
      case ConsumeOpen(pk, now) => ChargeSound(Lookup(l, Lower(pk)), t, 0, now, false);
      case ConsumeBytes(pk, bytes, now, counted) => ChargeSound(Lookup(l, Lower(pk)), t, bytes, now, counted);
      case _ =>
    }
  }

  // ---------------------------------------------------------------------------
  // The rate each friend gets
  // ---------------------------------------------------------------------------

  datatype Kind = Opens | Payload

  function MeterOf(b: Bucket, w: Kind): Meter {
    if w == Opens then b.open else b.bytes
  }

  function Rate(s: Spec, w: Kind): int {
    if w == Opens then s.openPerSec else s.bytesPerSec
  }

  function Burst(s: Spec, w: Kind): int {
    if w == Opens then s.openBurst else s.bytesBurst
  }

  predicate Enforced(s: Spec, w: Kind) {
    s.mode == Enforce && Rate(s, w) > 0 && Burst(s, w) > 0 && InRange(s)
  }

  /** A request of any friend; payloads are at most one maximal frame's. */
  predicate Request(op: Op) {
    match op
    case ConsumeOpen(_, _) => true
    case ConsumeBytes(_, bytes, _, _) => bytes <= MIN_ACTIVE_BYTE_BURST
    case NoteThrottled(_) => true
    case _ => false
  }

  /** What a request draws from a friend's bucket of the given kind; none if it does not even refill it. */
  function Draw(op: Op, key: string, w: Kind): seq<Call> {
    match op
    case ConsumeOpen(pk, now) => if Lower(pk) == key then [Call(now, if w == Opens then 1 else 0)] else []
    case ConsumeBytes(pk, bytes, now, _) =>
      if Lower(pk) == key then [Call(now, if w == Payload then bytes else 0)] else []
    case _ => []
  }

  function Draws(ops: seq<Op>, key: string, w: Kind): seq<Call> {
    if ops == [] then [] else Draws(ops[..|ops| - 1], key, w) + Draw(ops[|ops| - 1], key, w)
  }

  /** What a friend's request puts through: one open, or the payload's own size, if it is allowed. */
  function Passed(l: Limiter, op: Op, key: string, w: Kind): int {
    match op
    case ConsumeOpen(pk, now) =>
      if w == Opens && Lower(pk) == key && OpenOne(Lookup(l, key), now).1 then 1 else 0
    case ConsumeBytes(pk, bytes, now, counted) =>
      if w == Payload && Lower(pk) == key && ChargeBytes(Lookup(l, key), bytes, now, counted).1 then bytes else 0
    case _ => 0
  }

  function PassedAll(l: Limiter, ops: seq<Op>, key: string, w: Kind): int {
    if ops == [] then 0
    else
      var init := ops[..|ops| - 1];
      PassedAll(l, init, key, w) + Passed(Steps(l, init), ops[|ops| - 1], key, w)
  }

  /** An enforced request, of whichever kind, is one call on the bucket of its friend. */
  lemma RequestIsTake(l: Limiter, op: Op, key: string, w: Kind)
    requires Request(op) && Enforced(Lookup(l, key).spec, w)
    ensures var b, b2 := Lookup(l, key), Lookup(Step(l, op), key);
            var c := Draw(op, key, w);
            && b2.spec == b.spec
            && (c == [] ==> MeterOf(b2, w) == MeterOf(b, w) && Passed(l, op, key, w) == 0)
            && (c != [] ==>
                  var o := Take(MeterOf(b, w), Rate(b.spec, w), Burst(b.spec, w), c[0].at, c[0].ask);
                  MeterOf(b2, w) == o.meter && Passed(l, op, key, w) == o.charged)
  {
    hide Refill, Lower, Wait, Seeded;
  }

  /** Over any interleaving of requests, a friend's bucket runs exactly on the friend's own calls. */
  lemma {:induction false} RequestsAreRun(l: Limiter, ops: seq<Op>, key: string, w: Kind)
    requires forall i :: 0 <= i < |ops| ==> Request(ops[i])
    requires Enforced(Lookup(l, key).spec, w)
    ensures var b, b2 := Lookup(l, key), Lookup(Steps(l, ops), key);
            var t := Run(Rate(b.spec, w), Burst(b.spec, w), MeterOf(b, w), Draws(ops, key, w));
            && b2.spec == b.spec
            && MeterOf(b2, w) == t.meter
            && PassedAll(l, ops, key, w) == t.granted
  {
    if ops != [] {
      var n, init, op := |ops| - 1, ops[..|ops| - 1], ops[|ops| - 1];
      assert Request(op);
      RequestsAreRun(l, init, key, w);
      StepsLast(l, ops);
      DrawIsAtMostOne(op, key, w);
      hide Lookup, Step, Steps, Passed, Take, Request, Draw, Run, Rate, Burst, MeterOf, InRange, Lower, Refill;
      assert Enforced(Lookup(Steps(l, init), key).spec, w);
      RequestIsTake(Steps(l, init), op, key, w);
      var b := Lookup(l, key);
      RunGrows(Rate(b.spec, w), Burst(b.spec, w), MeterOf(b, w), Draws(init, key, w), Draw(op, key, w));
    }
  }

  lemma RunGrows(rate: int, burst: int, m: Meter, before: seq<Call>, c: seq<Call>)
    requires rate > 0 && burst > 0 && |c| <= 1
    ensures var t, t2 := Run(rate, burst, m, before), Run(rate, burst, m, before + c);
            && (c == [] ==> t2 == t)
            && (c != [] ==>
                  var o := Take(t.meter, rate, burst, c[0].at, c[0].ask);
                  t2 == Tally(o.meter, t.granted + o.charged))
  {
    hide Take;
    if c == [] {
      assert before + c == before;
    } else {
      assert (before + c)[..|before + c| - 1] == before;
    }
  }

  lemma DrawIsAtMostOne(op: Op, key: string, w: Kind)
    ensures |Draw(op, key, w)| <= 1
  {
  }

  /**
   * The rate a friend is promised: under an enforced spec, whatever every other
   * friend sends and however requests of both kinds interleave, what a friend
   * puts through from a fresh bucket in T ns and k calls of its own is at most
   * burst + rate * (T + k) / 1e9.
   */
  lemma FriendRate(l: Limiter, ops: seq<Op>, key: string, w: Kind)
    requires forall i :: 0 <= i < |ops| ==> Request(ops[i])
    requires var b := Lookup(l, key); Enforced(b.spec, w) && MeterOf(b, w) == Meter(Burst(b.spec, w), 0)
    requires var calls := Draws(ops, key, w); calls != [] && calls[0].at > 0 && InOrder(calls[0].at, calls)
    ensures var s, calls := Lookup(l, key).spec, Draws(ops, key, w);
            PassedAll(l, ops, key, w) * NANOS_PER_SEC
            <= Burst(s, w) * NANOS_PER_SEC + Rate(s, w) * (calls[|calls| - 1].at - calls[0].at + |calls|)
  {
    hide Request, Lookup, Draws, PassedAll, Run, InOrder, Steps;
    var s := Lookup(l, key).spec;
    RequestsAreRun(l, ops, key, w);
    GrantedSinceCreation(Rate(s, w), Burst(s, w), Draws(ops, key, w));
  }

  /**
   * A deferred payload goes through on any retry from the announced time on,
   * whatever the other friends send in between and whatever the friend itself
   * opens or offers, as long as no other payload of its own is let through.
   */
  lemma DeferredPayloadPasses(l: Limiter, t: int, pk: string, bytes: U64, now: int, counted: bool, ops: seq<Op>,
                              retry: int, again: bool)
    requires var b := Lookup(l, Lower(pk));
             SoundBucket(b, t) && now > 0 && now >= t && b.bytes.cursor > 0 && InRange(b.spec)
    requires var (_, ok, wait) := ChargeBytes(Lookup(l, Lower(pk)), bytes, now, counted);
             var calls := Draws(ops, Lower(pk), Payload);
             !ok && InOrder(now, calls) && retry >= Max(now + wait, Latest(now, calls))
    requires forall i :: 0 <= i < |ops| ==> Request(ops[i])
    requires PassedAll(Step(l, ConsumeBytes(pk, bytes, now, counted)), ops, Lower(pk), Payload) == 0
    ensures var l2 := Steps(Step(l, ConsumeBytes(pk, bytes, now, counted)), ops);
            ChargeBytes(Lookup(l2, Lower(pk)), bytes, retry, again).1
  {
    hide Refill, Wait, Run, Draws, PassedAll, Steps, InOrder, Request, Lower;
    var key := Lower(pk);
    var b := Lookup(l, key);
    var rate, burst := b.spec.bytesPerSec, b.spec.bytesBurst;
    RequestsAreRun(Step(l, ConsumeBytes(pk, bytes, now, counted)), ops, key, Payload);
    RetryIsGranted(rate, burst, b.bytes, now, bytes, Draws(ops, key, Payload), retry);
  }

  // ---------------------------------------------------------------------------
  // Every answer, in every mode
  // ---------------------------------------------------------------------------

  /** A run of requests never changes the spec that governs a friend. */
  lemma {:induction false} RequestsKeepSpec(l: Limiter, ops: seq<Op>, key: string)
    requires forall i :: 0 <= i < |ops| ==> Request(ops[i])
    ensures Lookup(Steps(l, ops), key).spec == Lookup(l, key).spec
  {
    if ops != [] {
      var n := |ops| - 1;
      RequestsKeepSpec(l, ops[..n], key);
      assert Request(ops[n]);
      hide Refill, Lower, Wait, Steps;
      RequestKeepsSpec(Steps(l, ops[..n]), ops[n], key);
      StepsLast(l, ops);
    }
  }

  lemma StepsLast(l: Limiter, ops: seq<Op>)
    requires ops != []
    ensures Steps(l, ops) == Step(Steps(l, ops[..|ops| - 1]), ops[|ops| - 1])
  {
  }

  lemma RequestKeepsSpec(l: Limiter, op: Op, key: string)
    requires Request(op)
    ensures Lookup(Step(l, op), key).spec == Lookup(l, key).spec
  {
    hide Refill, Lower, Wait;
  }

  /** What a friend's own calls leave in a bucket that fills at this rate up to this capacity, refilled at `now`. */
  function LeftAfter(m: Meter, rate: int, burst: int, calls: seq<Call>, now: int): int
    requires rate > 0 && burst > 0
  {
    Refill(Run(rate, burst, m, calls).meter, rate, burst, now).tokens
  }

  /**
   * The exact answer to an open, after any interleaving of requests of all
   * friends: it is refused if and only if the friend's spec enforces a non-zero
   * rate and burst and its own calls leave no token.
   */
  lemma OpensRefusedExactly(l: Limiter, ops: seq<Op>, pk: string, now: int)
    requires InRange(EffectiveSpec(l, pk)) && forall i :: 0 <= i < |ops| ==> Request(ops[i])
    ensures var key, s := Lower(pk), EffectiveSpec(l, pk);
            var (_, ok) := OpenOne(Lookup(Steps(l, ops), key), now);
            !ok <==> s.mode == Enforce && s.openPerSec > 0 && s.openBurst > 0
                     && LeftAfter(Lookup(l, key).open, s.openPerSec, s.openBurst, Draws(ops, key, Opens), now) < 1
  {
    var key := Lower(pk);
    RequestsKeepSpec(l, ops, key);
    hide Refill, Lookup, Draws, Run, Lower, Steps, Request;
    if Enforced(EffectiveSpec(l, pk), Opens) {
      RequestsAreRun(l, ops, key, Opens);
    }
  }

  /**
   * The same for a payload, which needs its own size or, if that is more than
   * the bucket ever holds, a full bucket.
   */
  lemma PayloadsRefusedExactly(l: Limiter, ops: seq<Op>, pk: string, bytes: U64, now: int, counted: bool)
    requires InRange(EffectiveSpec(l, pk)) && forall i :: 0 <= i < |ops| ==> Request(ops[i])
    ensures var key, s := Lower(pk), EffectiveSpec(l, pk);
            var (_, ok, _) := ChargeBytes(Lookup(Steps(l, ops), key), bytes, now, counted);
            !ok <==> s.mode == Enforce && s.bytesPerSec > 0 && s.bytesBurst > 0
                     && LeftAfter(Lookup(l, key).bytes, s.bytesPerSec, s.bytesBurst, Draws(ops, key, Payload), now)
                        < Min(bytes, s.bytesBurst)
  {
    var key := Lower(pk);
    RequestsKeepSpec(l, ops, key);
    hide Refill, Lookup, Draws, Run, Lower, Steps, Request, Wait;
    if Enforced(EffectiveSpec(l, pk), Payload) {
      RequestsAreRun(l, ops, key, Payload);
    }
  }

  /** What a request finds missing: an open without a token, or a counted payload without its bytes, where limited. */
  function Shortfalls(l: Limiter, op: Op, key: string): (int, int) {
    var b, s := Lookup(l, key), Lookup(l, key).spec;
    match op
    case ConsumeOpen(pk, now) =>
      if Lower(pk) == key && s.mode != Off && s.openPerSec > 0 && s.openBurst > 0
         && Refill(b.open, s.openPerSec, s.openBurst, now).tokens < 1
      then (1, 0) else (0, 0)
    case ConsumeBytes(pk, bytes, now, counted) =>
      if Lower(pk) == key && s.mode != Off && s.bytesPerSec > 0 && s.bytesBurst > 0 && counted
         && Refill(b.bytes, s.bytesPerSec, s.bytesBurst, now).tokens < Min(bytes, s.bytesBurst)
      then (0, 1) else (0, 0)
    case NoteThrottled(pk) =>
      if Lower(pk) == key && s.mode != Off && s.bytesPerSec > 0 && s.bytesBurst > 0 then (0, 1) else (0, 0)
    case _ => (0, 0)
  }

  function ShortfallsAll(l: Limiter, ops: seq<Op>, key: string): (int, int) {
    if ops == [] then (0, 0)
    else
      var (o, p) := ShortfallsAll(l, ops[..|ops| - 1], key);
      var (x, y) := Shortfalls(Steps(l, ops[..|ops| - 1]), ops[|ops| - 1], key);
      (o + x, p + y)
  }

  /** In every run of requests the two counters grow by exactly the requests that found their bucket short. */
  lemma {:induction false} CountersAreExact(l: Limiter, ops: seq<Op>, key: string)
    requires forall i :: 0 <= i < |ops| ==> Request(ops[i])
    ensures Lookup(Steps(l, ops), key).openRejected == Lookup(l, key).openRejected + ShortfallsAll(l, ops, key).0
    ensures Lookup(Steps(l, ops), key).bytesThrottled == Lookup(l, key).bytesThrottled + ShortfallsAll(l, ops, key).1
  {
    hide Lookup, Shortfalls, Step, Request;
    if ops != [] {
      var n := |ops| - 1;
      CountersAreExact(l, ops[..n], key);
      StepsLast(l, ops);
      ShortfallsLast(l, ops, key);
      hide Steps, ShortfallsAll;
      RequestCounts(Steps(l, ops[..n]), ops[n], key);
    }
  }

  lemma ShortfallsLast(l: Limiter, ops: seq<Op>, key: string)
    requires ops != []
    ensures var init := ops[..|ops| - 1];
            var before, more := ShortfallsAll(l, init, key), Shortfalls(Steps(l, init), ops[|ops| - 1], key);
            ShortfallsAll(l, ops, key) == (before.0 + more.0, before.1 + more.1)
  {
    hide Shortfalls, Steps;
  }

  lemma RequestCounts(l: Limiter, op: Op, key: string)
    requires Request(op)
    ensures var b, b2 := Lookup(l, key), Lookup(Step(l, op), key);
            && b2.openRejected == b.openRejected + Shortfalls(l, op, key).0
            && b2.bytesThrottled == b.bytesThrottled + Shortfalls(l, op, key).1
  {
    hide Refill, Lower, Wait;
  }

  /** Without a limit in force a request takes nothing: every bucket is only refilled. */
  lemma UnlimitedTakesNothing(l: Limiter, op: Op, key: string, w: Kind)
    requires Request(op) && var s := Lookup(l, key).spec; s.mode == Off || Rate(s, w) == 0 || Burst(s, w) == 0
    ensures var b, b2, c := Lookup(l, key), Lookup(Step(l, op), key), Draw(op, key, w);
            MeterOf(b2, w) == if c == [] then MeterOf(b, w)
                              else Refill(MeterOf(b, w), Rate(b.spec, w), Burst(b.spec, w), c[0].at)
  {
    hide Refill, Lower, Wait;
  }

  /** In report mode nothing is refused and a request takes what it can of what is there. */
  lemma ReportTakesWhatIsThere(l: Limiter, op: Op, key: string, w: Kind, t: int)
    requires Request(op) && Draw(op, key, w) != [] && SoundBucket(Lookup(l, key), t)
    requires var s := Lookup(l, key).spec; s.mode == Report && Rate(s, w) > 0 && Burst(s, w) > 0
    requires op.ConsumeOpen? || op.ConsumeBytes? ==> op.now > 0 && op.now >= t
    ensures var b, b2, c := Lookup(l, key), Lookup(Step(l, op), key), Draw(op, key, w)[0];
            var full := Refill(MeterOf(b, w), Rate(b.spec, w), Burst(b.spec, w), c.at);
            MeterOf(b2, w) == full.(tokens := Max(full.tokens - Min(c.ask, Burst(b.spec, w)), 0))
  {
    RefillBothSound(Lookup(l, key), t, op.now);
    hide Refill, Lower, Wait;
  }
}
