/** The rate limiter: what its counters allow in any sliding interval, over every sequential trace of requests. */
module RateLimit {
  import opened Common

  const WINDOW_MS: int := 900_000
  const DAY_MS: int := 86_400_000

  // ---- Sliding intervals ----

  predicate Sorted(times: seq<int>) { forall i, j :: 0 <= i < j < |times| ==> times[i] <= times[j] }

  /** Any two entries `m` apart are at least `len` apart in time. */
  ghost predicate Spread(times: seq<int>, m: nat, len: int) {
    forall i, j :: 0 <= i <= j < |times| && i + m == j ==> times[j] - times[i] >= len
  }

  /** The entries inside the half-open interval `[from, from + len)`. */
  function Inside(times: seq<int>, from: int, len: int): set<nat> {
    set k | 0 <= k < |times| && from <= times[k] < from + len
  }

  /** Spread-out times put at most `m` entries into any interval of that length. */
  lemma SpreadBoundsEveryInterval(times: seq<int>, m: nat, len: int, from: int)
    requires Sorted(times) && Spread(times, m, len) && m > 0
    ensures |Inside(times, from, len)| <= m
  {
    var inside := Inside(times, from, len);
    if inside != {} {
      var lo := Earliest(inside);
      assert lo + m < |times| ==> times[lo + m] >= times[lo] + len;
      forall k | k in inside ensures k in Interval(lo, lo + m) {}
      SubsetSize(inside, Interval(lo, lo + m));
    }
  }

  lemma {:induction false} Earliest(s: set<nat>) returns (lo: nat)
    requires s != {}
    ensures lo in s && forall k :: k in s ==> lo <= k
  {
    lo := Pick(s);
    if s != {lo} {
      var rest := s - {lo};
      assert rest != {};
      var other := Earliest(rest);
      forall k | k in s ensures Min(lo, other) <= k { assert k == lo || k in rest; }
      lo := Min(lo, other);
    }
  }

  // ---- Counting windows ----

  /**
   * The admissions so far, cut by the last two windows: those up to and
   * including the request that opened the current window at `start`, and those
   * up to and including the one that opened the window before it at `prevStart`.
   */
  datatype Epochs = Epochs(admitted: seq<int>, base: nat, prevBase: nat, start: int, prevStart: int)

  ghost predicate EpochsOk(e: Epochs, m: nat, len: int) {
    && e.prevBase <= e.base <= |e.admitted| && m > 0 && len > 0
    && Sorted(e.admitted)
    && |e.admitted| - e.base <= m - 1
    && e.base - e.prevBase <= m
    && (forall k :: 0 <= k < e.prevBase ==> e.admitted[k] <= e.prevStart)
    && (forall k :: 0 <= k < e.base ==> e.admitted[k] <= e.start)
    && (e.prevBase > 0 ==> e.start >= e.prevStart + len)
    && Spread(e.admitted, 2 * m - 1, len)
  }

  ghost predicate Before(times: seq<int>, now: int) { forall k :: 0 <= k < |times| ==> times[k] <= now }

  function Admit(times: seq<int>, now: int, admitted: bool): seq<int> { if admitted then times + [now] else times }

  /** A request that opens a new window, at least one length after the last one opened. */
  lemma OpensWindow(e: Epochs, m: nat, len: int, now: int, admitted: bool) returns (e': Epochs)
    requires EpochsOk(e, m, len) && Before(e.admitted, now)
    requires e.base > 0 ==> now >= e.start + len
    ensures EpochsOk(e', m, len)
    ensures e'.admitted == Admit(e.admitted, now, admitted) && e'.base == |e'.admitted| && e'.start == now
  {
    var after := Admit(e.admitted, now, admitted);
    e' := Epochs(after, |after|, e.base, now, e.start);
  }

  /** A request inside the current window, admitted only if the window is not used up. */
  lemma StaysInWindow(e: Epochs, m: nat, len: int, now: int, admitted: bool) returns (e': Epochs)
    requires EpochsOk(e, m, len) && Before(e.admitted, now) && now >= e.start
    requires admitted ==> |e.admitted| - e.base < m - 1
    ensures EpochsOk(e', m, len)
    ensures e' == e.(admitted := Admit(e.admitted, now, admitted))
  {
    e' := e.(admitted := Admit(e.admitted, now, admitted));
  }

  // ---- The KV-backed limiter ----

  /** A stored value and the time it was last written; its lifetime restarts with every write. */
  datatype WindowEntry = WindowEntry(count: nat, windowStart: int, writtenAt: int)
  datatype DayEntry = DayEntry(count: nat, writtenAt: int)
  datatype Kv = Kv(window: Option<WindowEntry>, day: Option<DayEntry>)

  /** The KV call that throws, if any; a failing write may or may not have been applied. */
  datatype Fault = NoFault | WindowGet | WindowSet(applied: bool) | DayGet | DaySet(applied: bool)

  datatype Request = Request(now: int, fault: Fault)

  datatype Limits = Limits(perWindow: int, perDay: int)

  predicate WindowVisible(kv: Kv, now: int) { kv.window.Some? && now - kv.window.value.writtenAt < WINDOW_MS }

  predicate DayVisible(kv: Kv, now: int) { kv.day.Some? && now - kv.day.value.writtenAt < DAY_MS }

  predicate OpensNew(kv: Kv, now: int) { !WindowVisible(kv, now) || now - kv.window.value.windowStart > WINDOW_MS }

  /** The window entry a passing request writes. */
  function NextWindow(kv: Kv, now: int): WindowEntry {
    if OpensNew(kv, now) then WindowEntry(1, now, now)
    else WindowEntry(kv.window.value.count + 1, kv.window.value.windowStart, now)
  }

  function NextDay(kv: Kv, now: int): DayEntry {
    DayEntry(if DayVisible(kv, now) then kv.day.value.count + 1 else 1, now)
  }

  predicate WindowFull(kv: Kv, now: int, l: Limits) { !OpensNew(kv, now) && kv.window.value.count >= l.perWindow }

  predicate DayFull(kv: Kv, now: int, l: Limits) { DayVisible(kv, now) && kv.day.value.count >= l.perDay }

  predicate WritesWindow(kv: Kv, r: Request, l: Limits) {
    r.fault != WindowGet && !WindowFull(kv, r.now, l) && r.fault != WindowSet(false)
  }

  predicate WritesDay(kv: Kv, r: Request, l: Limits) {
    WritesWindow(kv, r, l) && !r.fault.WindowSet? && r.fault != DayGet && !DayFull(kv, r.now, l) &&
      r.fault != DaySet(false)
  }

  predicate Admits(kv: Kv, r: Request, l: Limits) { WritesDay(kv, r, l) && r.fault == NoFault }

  function AfterRequest(kv: Kv, r: Request, l: Limits): Kv {
    Kv(if WritesWindow(kv, r, l) then Some(NextWindow(kv, r.now)) else kv.window,
       if WritesDay(kv, r, l) then Some(NextDay(kv, r.now)) else kv.day)
  }

  /** One bucket of the limiter. `configured` says whether KV is set up. */
  class Limiter {
    const limits: Limits
    const configured: bool
    const production: bool
    var kv: Kv
    var bucket: Option<Bucket>

    constructor (limits: Limits, configured: bool, production: bool)
      ensures this.limits == limits && this.configured == configured && this.production == production
      ensures kv == Kv(None, None) && bucket == None
    {
      this.limits, this.configured, this.production := limits, configured, production;
      kv, bucket := Kv(None, None), None;
    }

    /** `_isRateLimited`; the `return true` of a failing KV call is the code's catch branch. */
    method IsRateLimited(r: Request) returns (limited: bool)
      modifies this
      ensures configured ==>
        limited == !Admits(old(kv), r, limits) && kv == AfterRequest(old(kv), r, limits) && bucket == old(bucket)
      ensures !configured && production ==> limited && kv == old(kv) && bucket == old(bucket)
      ensures !configured && !production ==>
        limited == !AdmitsInMemory(old(bucket), r.now, limits.perWindow) &&
        bucket == Some(NextBucket(old(bucket), r.now)) && kv == old(kv)
    {
      if !configured {
        if production { return true; }
        limited := IsRateLimitedInMemory(r.now);
        return;
      }
      var now := r.now;
      if r.fault == WindowGet { return true; }
      var next: WindowEntry;
      if WindowVisible(kv, now) {
        var data := kv.window.value;
        if now - data.windowStart > WINDOW_MS {
          next := WindowEntry(1, now, now);
        } else {
          if data.count >= limits.perWindow { return true; }
          next := WindowEntry(data.count + 1, data.windowStart, now);
        }
      } else {
        next := WindowEntry(1, now, now);
      }
      if r.fault == WindowSet(false) { return true; }
      kv := kv.(window := Some(next));
      if r.fault == WindowSet(true) { return true; }
      if r.fault == DayGet { return true; }
      var nextDay: DayEntry;
      if DayVisible(kv, now) {
        if kv.day.value.count >= limits.perDay { return true; }
        nextDay := DayEntry(kv.day.value.count + 1, now);
      } else {
        nextDay := DayEntry(1, now);
      }
      if r.fault == DaySet(false) { return true; }
      kv := kv.(day := Some(nextDay));
      limited := r.fault == DaySet(true);
    }

    /** `_isRateLimitedInMemory` */
    method IsRateLimitedInMemory(now: int) returns (limited: bool)
      modifies this`bucket
      ensures limited == !AdmitsInMemory(old(bucket), now, limits.perWindow)
      ensures bucket == Some(NextBucket(old(bucket), now))
    {
      if bucket.None? || now - bucket.value.windowStart > WINDOW_MS {
        bucket := Some(Bucket(1, now));
        return false;
      }
      bucket := Some(bucket.value.(count := bucket.value.count + 1));
      limited := bucket.value.count > limits.perWindow;
    }

    /** Serve a whole trace, keeping the times of the requests let through. */
    method ServeAll(trace: seq<Request>) returns (admitted: seq<int>)
      requires kv == Kv(None, None) && bucket == None
      modifies this
      ensures configured ==> admitted == Admissions(trace, limits)
      ensures !configured ==> admitted == if production then [] else AdmissionsInMemory(Times(trace), limits.perWindow)
    {
      hide Admits, AfterRequest, AdmitsInMemory, NextBucket;
      admitted := [];
      for i := 0 to |trace|
        invariant configured ==> admitted == Admissions(trace[..i], limits) && kv == KvAfter(trace[..i], limits)
        invariant !configured && production ==> admitted == []
        invariant !configured && !production ==>
          && admitted == AdmissionsInMemory(Times(trace)[..i], limits.perWindow)
          && bucket == BucketAfter(Times(trace)[..i])
      {
        assert trace[..i + 1][..i] == trace[..i] && Times(trace)[..i + 1][..i] == Times(trace)[..i];
        var limited := IsRateLimited(trace[i]);
        if !limited { admitted := admitted + [trace[i].now]; }
      }
      assert trace[..|trace|] == trace && Times(trace)[..|trace|] == Times(trace);
    }
  }

  // ---- Traces ----

  /** The clock never runs backwards. */
  predicate Ordered(trace: seq<Request>) { forall i, j :: 0 <= i < j < |trace| ==> trace[i].now <= trace[j].now }

  function Times(trace: seq<Request>): (times: seq<int>)
    ensures |times| == |trace| && forall k :: 0 <= k < |trace| ==> times[k] == trace[k].now
  {
    seq(|trace|, i requires 0 <= i < |trace| => trace[i].now)
  }

  /** The store after a trace, starting empty. */
  function KvAfter(trace: seq<Request>, l: Limits): Kv {
    if trace == [] then Kv(None, None)
    else AfterRequest(KvAfter(trace[..|trace| - 1], l), trace[|trace| - 1], l)
  }

  /** The times of the requests a trace gets admitted. */
  function Admissions(trace: seq<Request>, l: Limits): seq<int> {
    if trace == [] then []
    else
      var n := |trace| - 1;
      Admit(Admissions(trace[..n], l), trace[n].now, Admits(KvAfter(trace[..n], l), trace[n], l))
  }

  lemma {:induction false} AdmissionsInOrder(trace: seq<Request>, l: Limits)
    requires Ordered(trace)
    ensures Sorted(Admissions(trace, l))
    ensures forall now :: (forall i :: 0 <= i < |trace| ==> trace[i].now <= now) ==> Before(Admissions(trace, l), now)
  {
    hide Admits, KvAfter;
    if trace != [] {
      var n := |trace| - 1;
      AdmissionsInOrder(trace[..n], l);
      assert Before(Admissions(trace[..n], l), trace[n].now);
      forall now | forall i :: 0 <= i < |trace| ==> trace[i].now <= now ensures Before(Admissions(trace, l), now) {
        assert trace[n].now <= now;
      }
    }
  }

  // ---- The window bound ----

  function Cap(limit: int): nat { Max(1, limit) }

  /** The stored window accounts for the admissions since it opened. */
  ghost predicate TracksWindow(kv: Kv, e: Epochs, m: nat, last: int) {
    match kv.window
    case None => e.base == 0 && e.admitted == []
    case Some(w) =>
      && e.start == w.windowStart <= w.writtenAt <= last && 1 <= w.count <= m
      && |e.admitted| - e.base <= w.count - 1
  }

  lemma WindowStep(kv: Kv, r: Request, l: Limits, e: Epochs, last: int) returns (e': Epochs)
    requires EpochsOk(e, Cap(l.perWindow), WINDOW_MS) && TracksWindow(kv, e, Cap(l.perWindow), last)
    requires last <= r.now && Before(e.admitted, r.now)
    ensures EpochsOk(e', Cap(l.perWindow), WINDOW_MS)
    ensures TracksWindow(AfterRequest(kv, r, l), e', Cap(l.perWindow), r.now)
    ensures e'.admitted == Admit(e.admitted, r.now, Admits(kv, r, l))
  {
    hide EpochsOk, Before, DayFull, NextDay;
    var m := Cap(l.perWindow);
    if !WritesWindow(kv, r, l) {
      e' := e;
    } else if OpensNew(kv, r.now) {
      e' := OpensWindow(e, m, WINDOW_MS, r.now, Admits(kv, r, l));
    } else {
      e' := StaysInWindow(e, m, WINDOW_MS, r.now, Admits(kv, r, l));
    }
  }

  lemma {:induction false} WindowEpochs(trace: seq<Request>, l: Limits) returns (e: Epochs)
    requires Ordered(trace)
    ensures EpochsOk(e, Cap(l.perWindow), WINDOW_MS) && e.admitted == Admissions(trace, l)
    ensures trace != [] ==> TracksWindow(KvAfter(trace, l), e, Cap(l.perWindow), trace[|trace| - 1].now)
    ensures trace == [] ==> e.base == 0
  {
    hide Admits, AfterRequest;
    if trace == [] {
      e := Epochs([], 0, 0, 0, 0);
    } else {
      var n := |trace| - 1;
      e := WindowEpochs(trace[..n], l);
      AdmissionsInOrder(trace[..n], l);
      e := WindowStep(KvAfter(trace[..n], l), trace[n], l, e, if n == 0 then trace[0].now else trace[n - 1].now);
    }
  }

  /** Any half-open 15-minute interval admits fewer than twice the window limit. */
  lemma WindowBound(trace: seq<Request>, l: Limits, from: int)
    requires Ordered(trace)
    ensures |Inside(Admissions(trace, l), from, 900_000)| <= 2 * Max(1, l.perWindow) - 1
  {
    var e := WindowEpochs(trace, l);
    SpreadBoundsEveryInterval(e.admitted, 2 * Cap(l.perWindow) - 1, WINDOW_MS, from);
  }

  // ---- The day bound ----

  /**
   * The day counter lives until a full day passes without a write, so all the
   * admissions before the current counter are a day older than its first write.
   */
  ghost predicate TracksDay(kv: Kv, admitted: seq<int>, m: nat, base: nat, start: int) {
    && Sorted(admitted) && Spread(admitted, m, DAY_MS) && base <= |admitted|
    && (forall k :: 0 <= k < base ==> admitted[k] + DAY_MS <= start)
    && match kv.day
       case None => admitted == []
       case Some(d) => |admitted| - base <= d.count <= m && start <= d.writtenAt && Before(admitted, d.writtenAt)
  }

  lemma DayStep(kv: Kv, r: Request, l: Limits, admitted: seq<int>, base: nat, start: int)
    returns (base': nat, start': int)
    requires TracksDay(kv, admitted, Cap(l.perDay), base, start) && Before(admitted, r.now)
    requires kv.day.Some? ==> kv.day.value.writtenAt <= r.now
    ensures TracksDay(AfterRequest(kv, r, l), Admit(admitted, r.now, Admits(kv, r, l)), Cap(l.perDay), base', start')
  {
    hide WindowFull, NextWindow;
    if WritesDay(kv, r, l) && !DayVisible(kv, r.now) {
      base', start' := |admitted|, r.now;
    } else {
      base', start' := base, start;
    }
  }

  lemma {:induction false} DayChain(trace: seq<Request>, l: Limits) returns (base: nat, start: int)
    requires Ordered(trace)
    ensures TracksDay(KvAfter(trace, l), Admissions(trace, l), Cap(l.perDay), base, start)
    ensures KvAfter(trace, l).day.Some? ==>
      trace != [] && KvAfter(trace, l).day.value.writtenAt <= trace[|trace| - 1].now
  {
    hide TracksDay, Admits, WritesDay, WritesWindow;
    if trace == [] {
      base, start := 0, 0;
      EmptyDay(l);
    } else {
      var n := |trace| - 1;
      base, start := DayChain(trace[..n], l);
      AdmissionsInOrder(trace[..n], l);
      base, start := DayStep(KvAfter(trace[..n], l), trace[n], l, Admissions(trace[..n], l), base, start);
    }
  }

  lemma EmptyDay(l: Limits)
    ensures TracksDay(Kv(None, None), [], Cap(l.perDay), 0, 0)
  {
  }

  /** Any half-open 24-hour interval admits at most the day limit, or one request if the limit is lower. */
  lemma DayBound(trace: seq<Request>, l: Limits, from: int)
    requires Ordered(trace)
    ensures |Inside(Admissions(trace, l), from, 86_400_000)| <= Max(1, l.perDay)
  {
    var base, start := DayChain(trace, l);
    SpreadBoundsEveryInterval(Admissions(trace, l), Cap(l.perDay), DAY_MS, from);
  }

  // ---- The in-memory fallback ----

  datatype Bucket = Bucket(count: nat, windowStart: int)

  predicate Expired(b: Option<Bucket>, now: int) { b.None? || now - b.value.windowStart > WINDOW_MS }

  predicate AdmitsInMemory(b: Option<Bucket>, now: int, perWindow: int) {
    Expired(b, now) || b.value.count + 1 <= perWindow
  }

  function NextBucket(b: Option<Bucket>, now: int): Bucket {
    if Expired(b, now) then Bucket(1, now) else b.value.(count := b.value.count + 1)
  }

  function BucketAfter(times: seq<int>): Option<Bucket> {
    if times == [] then None
    else Some(NextBucket(BucketAfter(times[..|times| - 1]), times[|times| - 1]))
  }

  function AdmissionsInMemory(times: seq<int>, perWindow: int): seq<int> {
    if times == [] then []
    else
      var n := |times| - 1;
      Admit(AdmissionsInMemory(times[..n], perWindow), times[n],
        AdmitsInMemory(BucketAfter(times[..n]), times[n], perWindow))
  }

  ghost predicate TracksBucket(b: Option<Bucket>, e: Epochs, m: nat, last: int) {
    match b
    case None => e.base == 0 && e.admitted == []
    case Some(w) => e.start == w.windowStart <= last && 1 <= w.count && |e.admitted| - e.base <= Min(w.count, m) - 1
  }

  lemma {:induction false} BucketEpochs(times: seq<int>, perWindow: int) returns (e: Epochs)
    requires Sorted(times)
    ensures EpochsOk(e, Cap(perWindow), WINDOW_MS) && e.admitted == AdmissionsInMemory(times, perWindow)
    ensures forall now :: Before(times, now) ==> Before(e.admitted, now)
    ensures times == [] ==> e.base == 0
    ensures times != [] ==> TracksBucket(BucketAfter(times), e, Cap(perWindow), times[|times| - 1])
  {
    hide EpochsOk;
    if times == [] {
      e := Epochs([], 0, 0, 0, 0);
      NoEpochs(Cap(perWindow), WINDOW_MS);
    } else {
      var n := |times| - 1;
      e := BucketEpochs(times[..n], perWindow);
      assert Before(times[..n], times[n]);
      var b := BucketAfter(times[..n]);
      var admitted := AdmitsInMemory(b, times[n], perWindow);
      if Expired(b, times[n]) {
        e := OpensWindow(e, Cap(perWindow), WINDOW_MS, times[n], admitted);
      } else {
        e := StaysInWindow(e, Cap(perWindow), WINDOW_MS, times[n], admitted);
      }
      forall now | Before(times, now) ensures Before(e.admitted, now) {
        assert times[n] <= now && Before(times[..n], now);
      }
    }
  }

  lemma NoEpochs(m: nat, len: int)
    requires m > 0 && len > 0
    ensures EpochsOk(Epochs([], 0, 0, 0, 0), m, len)
  {
  }

  /** The window bound holds for the fallback too. */
  lemma InMemoryWindowBound(times: seq<int>, perWindow: int, from: int)
    requires Sorted(times)
    ensures |Inside(AdmissionsInMemory(times, perWindow), from, 900_000)| <= 2 * Max(1, perWindow) - 1
  {
    var e := BucketEpochs(times, perWindow);
    SpreadBoundsEveryInterval(e.admitted, 2 * Cap(perWindow) - 1, WINDOW_MS, from);
  }

  // ---- The window bound is attained ----

  function BurstTime(m: nat, i: nat): int { if i == 0 then 0 else if i < m then WINDOW_MS - 1 else WINDOW_MS + 1 }

  /** One request, then the rest of that window just before it ends, then a full window just after. */
  function Burst(m: nat): (trace: seq<Request>)
    ensures |trace| == 2 * m
    ensures forall i :: 0 <= i < 2 * m ==> trace[i] == Request(BurstTime(m, i), NoFault)
  {
    seq(2 * m, i requires 0 <= i => Request(BurstTime(m, i), NoFault))
  }

  /** The store after the first `n` requests of a burst. */
  function BurstKv(m: nat, n: nat): Kv {
    if n == 0 then Kv(None, None)
    else
      Kv(Some(if n <= m then WindowEntry(n, 0, BurstTime(m, n - 1))
              else WindowEntry(n - m, WINDOW_MS + 1, WINDOW_MS + 1)),
         Some(DayEntry(n, BurstTime(m, n - 1))))
  }

  lemma BurstStep(m: nat, l: Limits, n: nat)
    requires l.perWindow == m && l.perDay >= 2 * m && n < 2 * m
    ensures var r := Request(BurstTime(m, n), NoFault);
      AfterRequest(BurstKv(m, n), r, l) == BurstKv(m, n + 1) && Admits(BurstKv(m, n), r, l)
  {
  }

  lemma {:induction false} BurstAdmitted(m: nat, l: Limits, n: nat)
    requires l.perWindow == m && l.perDay >= 2 * m && n <= 2 * m
    ensures Admissions(Burst(m)[..n], l) == Times(Burst(m)[..n]) && KvAfter(Burst(m)[..n], l) == BurstKv(m, n)
  {
    hide AfterRequest, Admits, BurstTime;
    if n > 0 {
      BurstAdmitted(m, l, n - 1);
      BurstStep(m, l, n - 1);
      var trace := Burst(m)[..n];
      assert trace[..n - 1] == Burst(m)[..n - 1];
      assert Times(trace) == Times(trace[..n - 1]) + [trace[n - 1].now];
    } else {
      assert Burst(m)[..0] == [];
    }
  }

  /** For every window limit some trace admits exactly the bound inside one interval. */
  lemma WindowBoundIsAttained(m: nat, l: Limits)
    requires m > 0 && l.perWindow == m && l.perDay >= 2 * m
    ensures Ordered(Burst(m)) && |Inside(Admissions(Burst(m), l), 899_999, 900_000)| == 2 * m - 1
  {
    BurstAdmitted(m, l, 2 * m);
    assert Burst(m)[..2 * m] == Burst(m);
    hide Admissions;
    assert Inside(Admissions(Burst(m), l), WINDOW_MS - 1, WINDOW_MS) == Interval(1, 2 * m);
  }

  // ---- Under the limits every request is admitted ----

  /** The requests of a trace at or after `from`. */
  function Since(times: seq<int>, from: int): set<nat> { set i | 0 <= i < |times| && times[i] >= from }

  lemma SinceLast(times: seq<int>, from: int)
    requires times != []
    ensures var n := |times| - 1;
      && n !in Since(times[..n], from)
      && Since(times, from) == Since(times[..n], from) + if times[n] >= from then {n} else {}
  {
  }

  lemma SinceLater(times: seq<int>, from: int, to: int)
    requires from <= to
    ensures |Since(times, to)| <= |Since(times, from)|
  {
    SubsetSize(Since(times, to), Since(times, from));
  }

  lemma TimesLast(trace: seq<Request>)
    requires trace != []
    ensures var n := |trace| - 1;
      Times(trace)[..n] == Times(trace[..n]) && Times(trace)[n] == trace[n].now
  {
  }

  /** The stored window counts at most the requests since it opened. */
  lemma {:induction false} WindowCounts(trace: seq<Request>, l: Limits)
    requires Ordered(trace)
    ensures var w := KvAfter(trace, l).window;
      w.Some? ==>
        && trace != [] && w.value.windowStart <= trace[|trace| - 1].now
        && w.value.count <= |Since(Times(trace), w.value.windowStart)|
  {
    hide Since, WritesDay, Times;
    if trace != [] {
      var n := |trace| - 1;
      WindowCounts(trace[..n], l);
      TimesLast(trace);
      var before, after := KvAfter(trace[..n], l).window, KvAfter(trace, l).window;
      if after.Some? { SinceLast(Times(trace), after.value.windowStart); }
    }
  }

  /** The day counter, unless it was last written before the quiet day, counts at most the requests since. */
  lemma {:induction false} DayCounts(trace: seq<Request>, l: Limits, m: nat, k: nat)
    requires Ordered(trace) && m <= k <= |trace|
    requires m == 0 || (m < |trace| && trace[m].now - trace[m - 1].now >= 86_400_000)
    ensures var d := KvAfter(trace[..k], l).day;
      d.Some? ==>
        && k > 0 && d.value.writtenAt <= trace[k - 1].now
        && ((m > 0 && d.value.writtenAt <= trace[m - 1].now) || d.value.count <= k - m)
    decreases k
  {
    hide WritesDay, WritesWindow;
    if k > 0 {
      assert trace[..k][..k - 1] == trace[..k - 1];
      if k == m {
        assert Ordered(trace[..k]);
        LastWrite(trace[..k], l);
      } else {
        DayCounts(trace, l, m, k - 1);
      }
    }
  }

  lemma {:induction false} LastWrite(trace: seq<Request>, l: Limits)
    requires Ordered(trace)
    ensures KvAfter(trace, l).day.Some? ==>
      trace != [] && KvAfter(trace, l).day.value.writtenAt <= trace[|trace| - 1].now
  {
    hide WritesDay, WritesWindow;
    if trace != [] { LastWrite(trace[..|trace| - 1], l); }
  }

  /**
   * A client under both limits is let through: its request meets no fault, it
   * is at most the `perWindow`-th within the last 15 minutes, and at most the
   * `perDay`-th since the last 24 hours without one, request `m` being the first.
   */
  lemma UnderTheLimitsAdmitted(trace: seq<Request>, l: Limits, n: nat, m: nat)
    requires Ordered(trace) && n < |trace| && trace[n].fault == NoFault
    requires |Since(Times(trace[..n + 1]), trace[n].now - 900_000)| <= l.perWindow
    requires m <= n && (m == 0 || trace[m].now - trace[m - 1].now >= 86_400_000)
    requires n - m + 1 <= l.perDay
    ensures Admissions(trace[..n + 1], l) == Admissions(trace[..n], l) + [trace[n].now]
  {
    hide Since, KvAfter, Times;
    var now, kv := trace[n].now, KvAfter(trace[..n], l);
    assert trace[..n + 1][..n] == trace[..n];
    TimesLast(trace[..n + 1]);
    SinceLast(Times(trace[..n + 1]), now - 900_000);
    WindowCounts(trace[..n], l);
    if !OpensNew(kv, now) { SinceLater(Times(trace[..n]), now - 900_000, kv.window.value.windowStart); }
    DayCounts(trace, l, m, n);
  }

  /** A failing call to the store, whatever it left behind, refuses the request. */
  lemma FaultsRefuse(trace: seq<Request>, l: Limits, n: nat)
    requires n < |trace| && trace[n].fault != NoFault
    ensures Admissions(trace[..n + 1], l) == Admissions(trace[..n], l)
  {
    assert trace[..n + 1][..n] == trace[..n];
    hide KvAfter;
  }

  lemma {:induction false} BucketCounts(times: seq<int>)
    requires Sorted(times)
    ensures var b := BucketAfter(times);
      b.Some? ==>
        times != [] && b.value.windowStart <= times[|times| - 1] && b.value.count <= |Since(times, b.value.windowStart)|
  {
    hide Since;
    if times != [] {
      BucketCounts(times[..|times| - 1]);
      SinceLast(times, BucketAfter(times).value.windowStart);
    }
  }

  /** So it is with the fallback, by the window limit alone. */
  lemma UnderTheLimitAdmittedInMemory(times: seq<int>, perWindow: int, n: nat)
    requires Sorted(times) && n < |times|
    requires |Since(times[..n + 1], times[n] - 900_000)| <= perWindow
    ensures AdmissionsInMemory(times[..n + 1], perWindow) == AdmissionsInMemory(times[..n], perWindow) + [times[n]]
  {
    hide Since, BucketAfter;
    var b := BucketAfter(times[..n]);
    assert times[..n + 1][..n] == times[..n];
    SinceLast(times[..n + 1], times[n] - 900_000);
    BucketCounts(times[..n]);
    if !Expired(b, times[n]) { SinceLater(times[..n], times[n] - 900_000, b.value.windowStart); }
  }

  // ---- A refused request costs nothing ----

  predicate NoFaults(trace: seq<Request>) { forall i :: 0 <= i < |trace| ==> trace[i].fault == NoFault }

  /** Without faults and day refusals, the stored window counts admissions only. */
  lemma {:induction false} WindowCountsAdmissions(trace: seq<Request>, l: Limits)
    requires Ordered(trace) && NoFaults(trace) && |trace| <= l.perDay
    ensures var kv := KvAfter(trace, l);
      && (kv.day.Some? ==> kv.day.value.count <= |trace|)
      && (kv.window.Some? ==>
            && trace != [] && kv.window.value.windowStart <= trace[|trace| - 1].now
            && kv.window.value.count <= |Since(Admissions(trace, l), kv.window.value.windowStart)|)
  {
    hide Since;
    if trace != [] {
      var n := |trace| - 1;
      WindowCountsAdmissions(trace[..n], l);
      var kv := KvAfter(trace, l);
      if kv.window.Some? && Admits(KvAfter(trace[..n], l), trace[n], l) {
        assert Admissions(trace, l)[..|Admissions(trace, l)| - 1] == Admissions(trace[..n], l);
        SinceLast(Admissions(trace, l), kv.window.value.windowStart);
      }
    }
  }

  /**
   * Being refused by the window never counts against a client: while nothing
   * fails and the day limit is out of reach, a request is admitted whenever
   * fewer than `perWindow` requests were admitted in the last 15 minutes.
   */
  lemma RefusalsCostNothing(trace: seq<Request>, l: Limits, n: nat)
    requires Ordered(trace) && NoFaults(trace) && n < |trace| <= l.perDay
    requires |Since(Admissions(trace[..n], l), trace[n].now - 900_000)| < l.perWindow
    ensures Admissions(trace[..n + 1], l) == Admissions(trace[..n], l) + [trace[n].now]
  {
    hide Since, KvAfter;
    var now, kv := trace[n].now, KvAfter(trace[..n], l);
    assert trace[..n + 1][..n] == trace[..n];
    WindowCountsAdmissions(trace[..n], l);
    if !OpensNew(kv, now) { SinceLater(Admissions(trace[..n], l), now - 900_000, kv.window.value.windowStart); }
  }

  lemma {:induction false} DayWrittenByAdmissions(trace: seq<Request>, l: Limits)
    requires NoFaults(trace)
    ensures var d, admitted := KvAfter(trace, l).day, Admissions(trace, l);
      && (d.Some? <==> admitted != [])
      && (d.Some? ==> d.value.writtenAt == admitted[|admitted| - 1])
  {
    hide WritesWindow;
    if trace != [] { DayWrittenByAdmissions(trace[..|trace| - 1], l); }
  }

  /** Nor does being refused for the day: a day after the last admission the client starts afresh. */
  lemma AfreshADayLater(trace: seq<Request>, l: Limits, n: nat)
    requires Ordered(trace) && NoFaults(trace) && n < |trace|
    requires |Since(Times(trace[..n + 1]), trace[n].now - 900_000)| <= l.perWindow
    requires var admitted := Admissions(trace[..n], l);
      admitted == [] || trace[n].now - admitted[|admitted| - 1] >= 86_400_000
    ensures Admissions(trace[..n + 1], l) == Admissions(trace[..n], l) + [trace[n].now]
  {
    hide Since, KvAfter, Times;
    var now, kv := trace[n].now, KvAfter(trace[..n], l);
    assert trace[..n + 1][..n] == trace[..n];
    TimesLast(trace[..n + 1]);
    SinceLast(Times(trace[..n + 1]), now - 900_000);
    WindowCounts(trace[..n], l);
    if !OpensNew(kv, now) { SinceLater(Times(trace[..n]), now - 900_000, kv.window.value.windowStart); }
    DayWrittenByAdmissions(trace[..n], l);
  }
}
