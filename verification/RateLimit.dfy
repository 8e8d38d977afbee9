/** The fixed-window rate limiter over arbitrary histories of calls and retention sweeps.

    Clock readings are whole microseconds since the epoch; windows are in seconds. */
module RateLimit {
  import opened Records

  /** Limit and window length, fixed for each action. */
  datatype Policy = Policy(limit: nat, window: nat)

  predicate ValidPolicy(p: Policy) {
    p.window > 0
  }

  datatype BucketKey = BucketKey(action: string, subject: Digest, start: int)

  datatype Bucket = Bucket(count: nat, expires: int)

  type Buckets = map<BucketKey, Bucket>

  /** The start, in seconds, of the aligned window that holds the reading. */
  function WindowStart(now: nat, seconds: nat): (start: int)
    requires seconds > 0
    ensures start % seconds == 0 && start * SECOND <= now < (start + seconds) * SECOND
  {
    var epoch := now / SECOND;
    assert (epoch - epoch % seconds) % seconds == 0 by { FloorIsAligned(epoch, seconds); }
    epoch - epoch % seconds
  }

  lemma FloorIsAligned(n: nat, d: nat)
    requires d > 0
    ensures (n - n % d) % d == 0
  {
    var q := n / d;
    assert n - n % d == q * d;
    MultipleIsAligned(q, d);
  }

  lemma Scaled(x: int, d: nat)
    requires d > 0
    ensures x >= 1 ==> x * d >= d
    ensures x <= -1 ==> x * d + d <= 0
  {}

  lemma MultipleIsAligned(q: int, d: nat)
    requires d > 0
    ensures q * d % d == 0
  {
    var k := q * d / d;
    assert (q - k) * d == q * d % d;
    Scaled(q - k, d);
  }

  /** `round` of a number of microseconds to whole seconds: to the nearest, ties to even. */
  function RoundHalfEven(us: nat): (n: nat) {
    var q, r := us / SECOND, us % SECOND;
    if 2 * r < SECOND || (2 * r == SECOND && q % 2 == 0) then q else q + 1
  }

  datatype Outcome = Allowed(count: nat) | Exceeded(retryAfter: int)

  function CountOf(buckets: Buckets, key: BucketKey): (n: nat) {
    if key in buckets then buckets[key].count else 0
  }

  function Remaining(now: nat, p: Policy): (n: nat)
    requires ValidPolicy(p)
  {
    (WindowStart(now, p.window) + p.window) * SECOND - now
  }

  /** One call as a function: a rejected call leaves the buckets alone. */
  function Consume(buckets: Buckets, action: string, subject: Digest, p: Policy, now: nat): (Buckets, Outcome)
    requires ValidPolicy(p)
  {
    var start := WindowStart(now, p.window);
    var key := BucketKey(action, subject, start);
    var count := CountOf(buckets, key) + 1;
    if count > p.limit then (buckets, Exceeded(Max(1, RoundHalfEven(Remaining(now, p)))))
    else (buckets[key := Bucket(count, if key in buckets then buckets[key].expires else start + p.window)],
          Allowed(count))
  }

  function Swept(buckets: Buckets, now: nat): (after: Buckets) {
    buckets - set k | k in buckets && buckets[k].expires * SECOND < now
  }

  // ---------------------------------------------------------------- the table and its transactions

  class Limiter {
    var buckets: Buckets

    constructor ()
      ensures buckets == map[]
    {
      buckets := map[];
    }

    /** Counts first, then refuses; the refusal rolls the count back. */
    method ConsumeRateLimit(action: string, subject: Digest, p: Policy, now: nat) returns (outcome: Outcome)
      requires ValidPolicy(p)
      modifies this
      ensures (buckets, outcome) == Consume(old(buckets), action, subject, p, now)
    {
      var windowStart := WindowStart(now, p.window);
      var expiresAt := windowStart + p.window;
      var committed := buckets;
      var key := BucketKey(action, subject, windowStart);
      var bucket: Bucket;
      if key !in buckets {
        bucket := Bucket(1, expiresAt);
      } else {
        bucket := buckets[key].(count := buckets[key].count + 1);
      }
      buckets := buckets[key := bucket];
      if bucket.count > p.limit {
        buckets := committed;
        return Exceeded(Max(1, RoundHalfEven(expiresAt * SECOND - now)));
      }
      return Allowed(bucket.count);
    }

    method Sweep(now: nat)
      modifies this
      ensures buckets == Swept(old(buckets), now)
    {
      buckets := buckets - set k | k in buckets && buckets[k].expires * SECOND < now;
    }
  }

  // ---------------------------------------------------------------- histories

  /** One committed transaction. A call carries the clock reading it took before its transaction began,
      so later commits may carry earlier readings. */
  datatype Step = Call(action: string, subject: Digest, now: nat) | Sweep(now: nat)

  type Policies = map<string, Policy>

  predicate ValidPolicies(ps: Policies) {
    forall a :: a in ps ==> ValidPolicy(ps[a])
  }

  function After(ps: Policies, steps: seq<Step>): (buckets: Buckets)
    requires ValidPolicies(ps)
  {
    if steps == [] then map[]
    else
      var before := After(ps, steps[..|steps| - 1]);
      match steps[|steps| - 1]
      case Call(a, s, now) => if a in ps then Consume(before, a, s, ps[a], now).0 else before
      case Sweep(now) => Swept(before, now)
  }

  /** Whether the last step is an allowed call for this action and subject with lo <= time < hi. */
  predicate LastAllowed(ps: Policies, steps: seq<Step>, a: string, s: Digest, lo: int, hi: int)
    requires ValidPolicies(ps) && a in ps && steps != []
  {
    var step := steps[|steps| - 1];
    && step.Call? && step.action == a && step.subject == s && lo <= step.now < hi
    && Consume(After(ps, steps[..|steps| - 1]), a, s, ps[a], step.now).1.Allowed?
  }

  /** How many calls were allowed for this action and subject with lo <= time < hi. */
  function AllowedIn(ps: Policies, steps: seq<Step>, a: string, s: Digest, lo: int, hi: int): (n: nat)
    requires ValidPolicies(ps) && a in ps
  {
    if steps == [] then 0
    else AllowedIn(ps, steps[..|steps| - 1], a, s, lo, hi) + (if LastAllowed(ps, steps, a, s, lo, hi) then 1 else 0)
  }

  // ---------------------------------------------------------------- one window, counted by its calls alone

  /** An aligned window of one action and subject. */
  datatype Window = Window(action: string, subject: Digest, start: int, policy: Policy)

  predicate Aligned(ps: Policies, w: Window) {
    w.action in ps && ps[w.action] == w.policy && ValidPolicy(w.policy) && w.start % w.policy.window == 0
  }

  function Opens(w: Window): (t: int) {
    w.start * SECOND
  }

  function Ends(w: Window): (t: int) {
    (w.start + w.policy.window) * SECOND
  }

  function KeyOf(w: Window): (key: BucketKey) {
    BucketKey(w.action, w.subject, w.start)
  }

  function WindowOf(p: Policy, call: Step): (w: Window)
    requires call.Call? && ValidPolicy(p)
  {
    Window(call.action, call.subject, WindowStart(call.now, p.window), p)
  }

  predicate Belongs(step: Step, w: Window) {
    step.Call? && step.action == w.action && step.subject == w.subject && Opens(w) <= step.now < Ends(w)
  }

  /** A retention sweep that reads past the window's end removes its row. */
  predicate Wipes(step: Step, w: Window) {
    step.Sweep? && step.now > Ends(w)
  }

  /** The calls of the window since the last sweep past its end, allowed or not. */
  function CallsSince(steps: seq<Step>, w: Window): (n: nat) {
    if steps == [] then 0
    else
      var last := steps[|steps| - 1];
      if Wipes(last, w) then 0 else CallsSince(steps[..|steps| - 1], w) + (if Belongs(last, w) then 1 else 0)
  }

  /** The calls of the window made while fewer than the limit had been made since the last such sweep. */
  function Granted(steps: seq<Step>, w: Window): (n: nat) {
    if steps == [] then 0
    else
      var most := steps[..|steps| - 1];
      Granted(most, w) +
      (if Belongs(steps[|steps| - 1], w) && CallsSince(most, w) < w.policy.limit then 1 else 0)
  }

  /** What the table knows about the window. */
  predicate Tracks(buckets: Buckets, w: Window, calls: nat) {
    var count := Min(calls, w.policy.limit);
    && (KeyOf(w) in buckets <==> count > 0)
    && (KeyOf(w) in buckets ==> buckets[KeyOf(w)] == Bucket(count, w.start + w.policy.window))
  }

  lemma SameWindow(now: nat, seconds: nat, start: int)
    requires seconds > 0 && start % seconds == 0
    ensures start * SECOND <= now < (start + seconds) * SECOND <==> WindowStart(now, seconds) == start
  {
    if start * SECOND <= now < (start + seconds) * SECOND { MultiplesApart(start, WindowStart(now, seconds), seconds); }
  }

  lemma MultiplesApart(a: int, b: int, d: nat)
    requires d > 0 && a % d == 0 && b % d == 0 && a < b + d && b < a + d
    ensures a == b
  {
    assert a - b == (a / d - b / d) * d;
    Scaled(a / d - b / d, d);
  }

  lemma OwnCallTracks(buckets: Buckets, w: Window, calls: nat, now: nat)
    requires ValidPolicy(w.policy) && Tracks(buckets, w, calls) && WindowStart(now, w.policy.window) == w.start
    ensures var (after, outcome) := Consume(buckets, w.action, w.subject, w.policy, now);
            && Tracks(after, w, calls + 1)
            && (if calls < w.policy.limit then outcome == Allowed(calls + 1) else outcome.Exceeded?)
  {}

  lemma OtherCallTracks(buckets: Buckets, w: Window, calls: nat, a: string, s: Digest, p: Policy, now: nat)
    requires ValidPolicy(p) && Tracks(buckets, w, calls)
    requires BucketKey(a, s, WindowStart(now, p.window)) != KeyOf(w)
    ensures Tracks(Consume(buckets, a, s, p, now).0, w, calls)
  {}

  lemma SweepTracks(buckets: Buckets, w: Window, calls: nat, now: nat)
    requires Tracks(buckets, w, calls)
    ensures Tracks(Swept(buckets, now), w, if now > Ends(w) then 0 else calls)
  {}

  /** Over any history, in whatever order of readings, the table tracks the calls of every window. */
  lemma {:induction false} TracksAlways(ps: Policies, steps: seq<Step>, w: Window)
    requires ValidPolicies(ps) && Aligned(ps, w)
    ensures Tracks(After(ps, steps), w, CallsSince(steps, w))
  {
    if steps != [] {
      var most, last := steps[..|steps| - 1], steps[|steps| - 1];
      TracksAlways(ps, most, w);
      if last.Sweep? {
        SweepTracks(After(ps, most), w, CallsSince(most, w), last.now);
      } else if last.action in ps {
        SameWindow(last.now, w.policy.window, w.start);
        if Belongs(last, w) {
          OwnCallTracks(After(ps, most), w, CallsSince(most, w), last.now);
        } else {
          OtherCallTracks(After(ps, most), w, CallsSince(most, w), last.action, last.subject, ps[last.action],
                          last.now);
        }
      }
    }
  }

  // ---------------------------------------------------------------- the bounds

  /** A call is allowed exactly when fewer than `limit` calls of its aligned window have been made since
      the last sweep past the window's end; it then returns the next count. */
  lemma AllowedIffRoom(ps: Policies, steps: seq<Step>, call: Step, p: Policy)
    requires ValidPolicies(ps) && call.Call? && call.action in ps && p == ps[call.action]
    ensures var n := CallsSince(steps, WindowOf(p, call));
            var outcome := Consume(After(ps, steps), call.action, call.subject, p, call.now).1;
            if n < p.limit then outcome == Allowed(n + 1) else outcome.Exceeded?
  {
    var w := WindowOf(p, call);
    TracksAlways(ps, steps, w);
    OwnCallTracks(After(ps, steps), w, CallsSince(steps, w), call.now);
  }

  /** The number of calls allowed in a window, told from the calls and sweeps alone. */
  lemma {:induction false} AllowedIsGranted(ps: Policies, steps: seq<Step>, w: Window)
    requires ValidPolicies(ps) && Aligned(ps, w)
    ensures AllowedIn(ps, steps, w.action, w.subject, Opens(w), Ends(w)) == Granted(steps, w)
  {
    if steps != [] {
      var most, last := steps[..|steps| - 1], steps[|steps| - 1];
      AllowedIsGranted(ps, most, w);
      if Belongs(last, w) {
        SameWindow(last.now, w.policy.window, w.start);
        AllowedIffRoom(ps, most, last, w.policy);
      }
    }
  }

  /** The calls of the window, allowed or not. */
  function CallsOf(steps: seq<Step>, w: Window): (n: nat) {
    if steps == [] then 0
    else CallsOf(steps[..|steps| - 1], w) + (if Belongs(steps[|steps| - 1], w) then 1 else 0)
  }

  /** A sweep past the window's end commits after some call of it. */
  predicate Wiped(steps: seq<Step>, w: Window) {
    exists i, k :: 0 <= i < k < |steps| && Belongs(steps[i], w) && Wipes(steps[k], w)
  }

  /** A sweep past the window's end commits between two calls of it. */
  predicate Parted(steps: seq<Step>, w: Window) {
    exists i, k, j :: 0 <= i < k < j < |steps| && Belongs(steps[i], w) && Wipes(steps[k], w) && Belongs(steps[j], w)
  }

  lemma WipedLast(most: seq<Step>, last: Step, steps: seq<Step>, w: Window, earlier: bool)
    requires steps == most + [last] && earlier == exists i :: 0 <= i < |most| && Belongs(most[i], w)
    ensures Wiped(steps, w) <==> Wiped(most, w) || (Wipes(last, w) && earlier)
  {
    if Wiped(most, w) {
      var i, k :| 0 <= i < k < |most| && Belongs(most[i], w) && Wipes(most[k], w);
      assert Belongs(steps[i], w) && Wipes(steps[k], w);
    }
    if Wipes(last, w) && earlier {
      var i :| 0 <= i < |most| && Belongs(most[i], w);
      assert Belongs(steps[i], w) && Wipes(steps[|most|], w);
    }
    if Wiped(steps, w) {
      var i, k :| 0 <= i < k < |steps| && Belongs(steps[i], w) && Wipes(steps[k], w);
      assert steps[i] == most[i];
      if k < |most| { assert Belongs(most[i], w) && Wipes(most[k], w); }
    }
  }

  lemma PartedStays(most: seq<Step>, last: Step, w: Window)
    requires Parted(most, w) || (Belongs(last, w) && Wiped(most, w))
    ensures Parted(most + [last], w)
  {
    var steps := most + [last];
    if Parted(most, w) {
      var i, k, j :| 0 <= i < k < j < |most| && Belongs(most[i], w) && Wipes(most[k], w) && Belongs(most[j], w);
      assert steps[i] == most[i] && steps[k] == most[k] && steps[j] == most[j];
    } else {
      var i, k :| 0 <= i < k < |most| && Belongs(most[i], w) && Wipes(most[k], w);
      assert steps[i] == most[i] && steps[k] == most[k] && steps[|most|] == last;
    }
  }

  lemma PartedBefore(most: seq<Step>, last: Step, w: Window)
    requires Parted(most + [last], w)
    ensures Parted(most, w) || (Belongs(last, w) && Wiped(most, w))
  {
    var steps := most + [last];
    var i, k, j :| 0 <= i < k < j < |steps| && Belongs(steps[i], w) && Wipes(steps[k], w) && Belongs(steps[j], w);
    assert steps[i] == most[i] && steps[k] == most[k];
    if j < |most| { assert steps[j] == most[j]; }
  }

  lemma PartedLast(most: seq<Step>, last: Step, steps: seq<Step>, w: Window)
    requires steps == most + [last]
    ensures Parted(steps, w) <==> Parted(most, w) || (Belongs(last, w) && Wiped(most, w))
  {
    if Parted(steps, w) { PartedBefore(most, last, w); }
    if Parted(most, w) || (Belongs(last, w) && Wiped(most, w)) { PartedStays(most, last, w); }
  }

  lemma {:induction false} SomeCall(steps: seq<Step>, w: Window)
    ensures CallsOf(steps, w) > 0 <==> exists i :: 0 <= i < |steps| && Belongs(steps[i], w)
  {
    if steps != [] {
      var most := steps[..|steps| - 1];
      SomeCall(most, w);
      if i :| 0 <= i < |most| && Belongs(most[i], w) { assert Belongs(steps[i], w); }
      if i :| 0 <= i < |steps| && Belongs(steps[i], w) { assert i < |most| ==> Belongs(most[i], w); }
    }
  }

  /** How many calls a window grants, told by whether a sweep wipes or parts its calls. */
  predicate GrantsAsParted(limit: nat, wiped: bool, parted: bool, granted: nat, since: nat, calls: nat) {
    && since <= calls && granted <= calls && Min(since, limit) <= granted
    && (wiped <==> since < calls) && (parted ==> wiped)
    && (!parted ==> granted == Min(calls, limit) && (since == 0 || since == calls))
    && (since < calls && limit >= 1 ==> Min(since, limit) + 1 <= granted)
    && (parted && limit >= 1 ==> Min(calls, limit + 1) <= granted)
    && (limit == 0 ==> granted == 0)
  }

  predicate Grants(steps: seq<Step>, w: Window) {
    GrantsAsParted(w.policy.limit, Wiped(steps, w), Parted(steps, w), Granted(steps, w), CallsSince(steps, w),
                   CallsOf(steps, w))
  }

  lemma CountsLast(most: seq<Step>, last: Step, steps: seq<Step>, w: Window)
    requires steps == most + [last]
    ensures CallsOf(steps, w) == CallsOf(most, w) + (if Belongs(last, w) then 1 else 0)
    ensures CallsSince(steps, w) ==
            if Wipes(last, w) then 0 else CallsSince(most, w) + (if Belongs(last, w) then 1 else 0)
    ensures Granted(steps, w) ==
            Granted(most, w) + (if Belongs(last, w) && CallsSince(most, w) < w.policy.limit then 1 else 0)
  {
    assert steps[..|steps| - 1] == most;
  }

  lemma GrantsLast(most: seq<Step>, last: Step, steps: seq<Step>, w: Window)
    requires steps == most + [last] && Grants(most, w)
    ensures Grants(steps, w)
  {
    CountsLast(most, last, steps, w);
    SomeCall(most, w);
    WipedLast(most, last, steps, w, CallsOf(most, w) > 0);
    PartedLast(most, last, steps, w);
    OneMoreGrant(w.policy.limit, Wiped(most, w), Parted(most, w), Granted(most, w), CallsSince(most, w),
                 CallsOf(most, w),
                 Belongs(last, w), Wipes(last, w));
  }

  lemma OneMoreGrant(limit: nat, wiped: bool, parted: bool, granted: nat, since: nat, calls: nat, belongs: bool,
                     wipes: bool)
    requires GrantsAsParted(limit, wiped, parted, granted, since, calls) && !(belongs && wipes)
    ensures GrantsAsParted(limit, wiped || (wipes && calls > 0), parted || (belongs && wiped),
                           granted + (if belongs && since < limit then 1 else 0),
                           if wipes then 0 else since + (if belongs then 1 else 0),
                           calls + (if belongs then 1 else 0))
  {}

  lemma {:induction false} GrantsAlways(steps: seq<Step>, w: Window)
    ensures Grants(steps, w)
  {
    if steps != [] {
      var most := steps[..|steps| - 1];
      GrantsAlways(most, w);
      assert most + [steps[|steps| - 1]] == steps;
      GrantsLast(most, steps[|steps| - 1], steps, w);
    }
  }

  /** A window exceeds its limit exactly when more than the limit of its calls commit and a sweep that read
      past its end commits between two of them. */
  lemma ExceedsIffParted(ps: Policies, steps: seq<Step>, w: Window)
    requires ValidPolicies(ps) && Aligned(ps, w)
    ensures AllowedIn(ps, steps, w.action, w.subject, Opens(w), Ends(w)) > w.policy.limit
            <==> w.policy.limit >= 1 && CallsOf(steps, w) > w.policy.limit && Parted(steps, w)
  {
    AllowedIsGranted(ps, steps, w);
    GrantsAlways(steps, w);
  }

  /** No call of the window commits after a sweep that read past the window's end. */
  predicate NoLateCall(steps: seq<Step>, w: Window) {
    forall i, j :: 0 <= i < j < |steps| && Wipes(steps[i], w) ==> !Belongs(steps[j], w)
  }

  /** Without such a late call at most `limit` calls are allowed in the window. */
  lemma WindowBound(ps: Policies, steps: seq<Step>, w: Window)
    requires ValidPolicies(ps) && Aligned(ps, w) && NoLateCall(steps, w)
    ensures AllowedIn(ps, steps, w.action, w.subject, Opens(w), Ends(w)) <= w.policy.limit
  {
    ExceedsIffParted(ps, steps, w);
    UnpartedWithoutLateCall(steps, w);
  }

  lemma UnpartedWithoutLateCall(steps: seq<Step>, w: Window)
    requires NoLateCall(steps, w)
    ensures !Parted(steps, w)
  {}

  lemma {:induction false} AllowedSplits(ps: Policies, steps: seq<Step>, a: string, s: Digest, lo: int, mid: int,
                                         hi: int)
    requires ValidPolicies(ps) && a in ps && lo <= mid <= hi
    ensures AllowedIn(ps, steps, a, s, lo, hi) ==
            AllowedIn(ps, steps, a, s, lo, mid) + AllowedIn(ps, steps, a, s, mid, hi)
  {
    if steps != [] { AllowedSplits(ps, steps[..|steps| - 1], a, s, lo, mid, hi); }
  }

  lemma {:induction false} AllowedWidens(ps: Policies, steps: seq<Step>, a: string, s: Digest, lo: int, hi: int,
                                         lo': int, hi': int)
    requires ValidPolicies(ps) && a in ps && lo' <= lo && hi <= hi'
    ensures AllowedIn(ps, steps, a, s, lo, hi) <= AllowedIn(ps, steps, a, s, lo', hi')
  {
    if steps != [] { AllowedWidens(ps, steps[..|steps| - 1], a, s, lo, hi, lo', hi'); }
  }

  /** No call of this action and subject commits after a sweep past the end of the call's own window. */
  predicate SweepsTrail(steps: seq<Step>, a: string, s: Digest, p: Policy)
    requires ValidPolicy(p)
  {
    forall i, j ::
      && 0 <= i < j < |steps| && steps[i].Sweep?
      && steps[j].Call? && steps[j].action == a && steps[j].subject == s ==>
        !Wipes(steps[i], WindowOf(p, steps[j]))
  }

  lemma TrailingSweepsSpare(steps: seq<Step>, w: Window)
    requires ValidPolicy(w.policy) && w.start % w.policy.window == 0
             && SweepsTrail(steps, w.action, w.subject, w.policy)
    ensures NoLateCall(steps, w)
  {
    forall j | 0 <= j < |steps| && Belongs(steps[j], w) ensures WindowOf(w.policy, steps[j]) == w {
      SameWindow(steps[j].now, w.policy.window, w.start);
    }
  }

  /** At most twice the limit is allowed in any interval one window long, wherever it starts. */
  lemma SlidingBound(ps: Policies, steps: seq<Step>, a: string, s: Digest, from: nat)
    requires ValidPolicies(ps) && a in ps && SweepsTrail(steps, a, s, ps[a])
    ensures AllowedIn(ps, steps, a, s, from, from + ps[a].window * SECOND) <= 2 * ps[a].limit
  {
    var size := ps[a].window;
    var v := Window(a, s, WindowStart(from, size), ps[a]);
    var w := Window(a, s, v.start + size, ps[a]);
    NextAligned(v.start, size);
    TrailingSweepsSpare(steps, v);
    TrailingSweepsSpare(steps, w);
    WindowBound(ps, steps, v);
    WindowBound(ps, steps, w);
    AllowedSplits(ps, steps, a, s, Opens(v), Opens(w), Ends(w));
    AllowedWidens(ps, steps, a, s, from, from + size * SECOND, Opens(v), Ends(w));
  }

  lemma NextAligned(w: int, d: nat)
    requires d > 0 && w % d == 0
    ensures (w + d) % d == 0
  {
    assert w + d == (w / d + 1) * d;
    MultipleIsAligned(w / d + 1, d);
  }

  /** Every stored count lies within its action's limit, at every moment of every history. */
  lemma {:induction false} CountsWithinLimit(ps: Policies, steps: seq<Step>, key: BucketKey)
    requires ValidPolicies(ps) && key in After(ps, steps)
    ensures key.action in ps && 1 <= After(ps, steps)[key].count <= ps[key.action].limit
  {
    var most, step := steps[..|steps| - 1], steps[|steps| - 1];
    if key in After(ps, most) { CountsWithinLimit(ps, most, key); }
  }

  /** The advised wait lies in 1..window and is the time to the window's end, to the nearest second. */
  lemma RetryAfterIsNearest(buckets: Buckets, action: string, subject: Digest, p: Policy, now: nat)
    requires ValidPolicy(p) && Consume(buckets, action, subject, p, now).1.Exceeded?
    ensures var wait := Consume(buckets, action, subject, p, now).1.retryAfter;
            && 1 <= wait <= p.window
            && 2 * wait * SECOND <= 2 * Remaining(now, p) + 2 * SECOND
            && 2 * Remaining(now, p) <= 2 * wait * SECOND + SECOND
            && (Remaining(now, p) >= SECOND ==> 2 * wait * SECOND <= 2 * Remaining(now, p) + SECOND)
  {}

  /** A sweep is invisible to every call whose window it has not read past, and starts every other
      window afresh. */
  lemma SweepIsInvisible(ps: Policies, steps: seq<Step>, swept: nat, call: Step, p: Policy)
    requires ValidPolicies(ps) && call.Call? && call.action in ps && p == ps[call.action]
    ensures var before := Consume(After(ps, steps), call.action, call.subject, p, call.now).1;
            var after := Consume(Swept(After(ps, steps), swept), call.action, call.subject, p, call.now).1;
            if swept <= Ends(WindowOf(p, call)) then after == before
            else if p.limit >= 1 then after == Allowed(1) else after.Exceeded?
  {
    var w := WindowOf(p, call);
    TracksAlways(ps, steps, w);
    SweepTracks(After(ps, steps), w, CallsSince(steps, w), swept);
    OwnCallTracks(After(ps, steps), w, CallsSince(steps, w), call.now);
    OwnCallTracks(Swept(After(ps, steps), swept), w, if swept > Ends(w) then 0 else CallsSince(steps, w), call.now);
  }

  // ---------------------------------------------------------------- the bounds are reached

  /** A sweep between a call's reading and its commit lets a window exceed its limit. */
  lemma LateCallExceeds(a: string, s: Digest)
    ensures var ps := map[a := Policy(1, 10)];
            var w := Window(a, s, 0, Policy(1, 10));
            var steps := [Call(a, s, 9_000_000), Sweep(10_000_001), Call(a, s, 9_999_999)];
            Aligned(ps, w) && AllowedIn(ps, steps, a, s, Opens(w), Ends(w)) == 2
  {
    var ps := map[a := Policy(1, 10)];
    var w := Window(a, s, 0, Policy(1, 10));
    var steps := [Call(a, s, 9_000_000), Sweep(10_000_001), Call(a, s, 9_999_999)];
    AllowedIsGranted(ps, steps, w);
    assert steps == (([] + [steps[0]]) + [steps[1]]) + [steps[2]];
    CountLast([], steps[0], w);
    CountLast([] + [steps[0]], steps[1], w);
    CountLast(([] + [steps[0]]) + [steps[1]], steps[2], w);
  }

  lemma CountLast(before: seq<Step>, x: Step, w: Window)
    ensures CallsSince(before + [x], w) ==
            if Wipes(x, w) then 0 else CallsSince(before, w) + (if Belongs(x, w) then 1 else 0)
    ensures Granted(before + [x], w) ==
            Granted(before, w) + (if Belongs(x, w) && CallsSince(before, w) < w.policy.limit then 1 else 0)
  {
    assert (before + [x])[..|before|] == before;
  }

  function Repeated(call: Step, n: nat): (steps: seq<Step>) {
    if n == 0 then [] else Repeated(call, n - 1) + [call]
  }

  lemma AppendLast(a: seq<Step>, b: seq<Step>, x: Step)
    ensures a + (b + [x]) == (a + b) + [x]
  {}

  lemma {:induction false} RepeatedInside(before: seq<Step>, call: Step, n: nat, w: Window)
    requires Belongs(call, w) && CallsSince(before, w) == 0 && n <= w.policy.limit
    ensures CallsSince(before + Repeated(call, n), w) == n
    ensures Granted(before + Repeated(call, n), w) == Granted(before, w) + n
  {
    if n == 0 {
      assert before + [] == before;
    } else {
      RepeatedInside(before, call, n - 1, w);
      AppendLast(before, Repeated(call, n - 1), call);
      CountLast(before + Repeated(call, n - 1), call, w);
    }
  }

  lemma {:induction false} RepeatedOutside(before: seq<Step>, call: Step, n: nat, w: Window)
    requires call.Call? && !Belongs(call, w)
    ensures CallsSince(before + Repeated(call, n), w) == CallsSince(before, w)
    ensures Granted(before + Repeated(call, n), w) == Granted(before, w)
  {
    if n == 0 {
      assert before + [] == before;
    } else {
      RepeatedOutside(before, call, n - 1, w);
      AppendLast(before, Repeated(call, n - 1), call);
      CountLast(before + Repeated(call, n - 1), call, w);
    }
  }

  /** `limit` calls at the end of one window and `limit` at the start of the next. */
  function Burst(a: string, s: Digest, p: Policy): (steps: seq<Step>)
    requires ValidPolicy(p)
  {
    Repeated(Call(a, s, p.window * SECOND - 1), p.limit) + Repeated(Call(a, s, p.window * SECOND), p.limit)
  }

  lemma BurstFills(a: string, s: Digest, p: Policy)
    requires ValidPolicy(p)
    ensures Granted(Burst(a, s, p), Window(a, s, 0, p)) == p.limit
    ensures Granted(Burst(a, s, p), Window(a, s, p.window, p)) == p.limit
  {
    var v, w := Window(a, s, 0, p), Window(a, s, p.window, p);
    var first, second := Call(a, s, p.window * SECOND - 1), Call(a, s, p.window * SECOND);
    assert [] + Repeated(first, p.limit) == Repeated(first, p.limit);
    RepeatedInside([], first, p.limit, v);
    RepeatedOutside(Repeated(first, p.limit), second, p.limit, v);
    RepeatedOutside([], first, p.limit, w);
    RepeatedInside(Repeated(first, p.limit), second, p.limit, w);
  }

  lemma {:induction false} RepeatedAreAt(call: Step, n: nat)
    ensures forall i :: 0 <= i < |Repeated(call, n)| ==> Repeated(call, n)[i] == call
  {
    if n > 0 { RepeatedAreAt(call, n - 1); }
  }

  lemma {:induction false} NoneOutside(ps: Policies, steps: seq<Step>, a: string, s: Digest, lo: int, hi: int)
    requires ValidPolicies(ps) && a in ps
    requires forall i :: 0 <= i < |steps| && steps[i].Call? ==> !(lo <= steps[i].now < hi)
    ensures AllowedIn(ps, steps, a, s, lo, hi) == 0
  {
    if steps != [] { NoneOutside(ps, steps[..|steps| - 1], a, s, lo, hi); }
  }

  /** For every limit and window, twice the limit is allowed within one window's length. */
  lemma TwiceIsReached(a: string, s: Digest, p: Policy, from: nat)
    requires ValidPolicy(p) && from == p.window * SECOND - 1
    ensures AllowedIn(map[a := p], Burst(a, s, p), a, s, from, from + p.window * SECOND) == 2 * p.limit
  {
    var ps := map[a := p];
    var steps := Burst(a, s, p);
    var v, w := Window(a, s, 0, p), Window(a, s, p.window, p);
    NextAligned(0, p.window);
    BurstFills(a, s, p);
    AllowedIsGranted(ps, steps, v);
    AllowedIsGranted(ps, steps, w);
    RepeatedAreAt(Call(a, s, p.window * SECOND - 1), p.limit);
    RepeatedAreAt(Call(a, s, p.window * SECOND), p.limit);
    NoneOutside(ps, steps, a, s, Opens(v), from);
    NoneOutside(ps, steps, a, s, from + p.window * SECOND, Ends(w));
    AllowedSplits(ps, steps, a, s, Opens(v), from, Ends(v));
    AllowedSplits(ps, steps, a, s, from, Opens(w), from + p.window * SECOND);
    AllowedSplits(ps, steps, a, s, Opens(w), from + p.window * SECOND, Ends(w));
  }
}
