/**
 How many attempts the limiter lets through in a stretch of time, when the clocks of its
 replicas differ by up to `skew`: at most `limit` over stretches of up to window - skew with
 exact scores and window - 256 ns - skew with float64 scores, for every interleaving, and over
 no longer stretch. Attempts at the same nanosecond count as one.
 */
module RateBound {
  import opened RateLimit

  predicate InStretch(from: int, length: int, t: int) {
    from <= t < from + length
  }

  /** The n-th command is a count that let its attempt through. */
  ghost predicate GrantedAt(score: Rounding, limit: int, cmds: seq<Command>, n: int)
    requires 0 <= n < |cmds|
  {
    cmds[n].Card? && |After(score, cmds[..n])| <= limit
  }

  /** The distinct timestamps in [from, from + length) of attempts that were let through. */
  ghost function GrantedIn(score: Rounding, limit: int, cmds: seq<Command>, from: int, length: int): set<int> {
    set n | 0 <= n < |cmds| && GrantedAt(score, limit, cmds, n) && InStretch(from, length, cmds[n].t) :: cmds[n].t
  }

  /** No attempt of the stretch is removed before the last count of the stretch. */
  ghost predicate NothingLost(score: Rounding, cmds: seq<Command>, from: int, length: int) {
    forall i, j, n ::
      && 0 <= i < j < n < |cmds| && cmds[i].Add? && InStretch(from, length, cmds[i].t)
      && cmds[n].Card? && InStretch(from, length, cmds[n].t)
      ==> !Removes(score, cmds[j], cmds[i].t)
  }

  ghost predicate OwnAdds(cmds: seq<Command>) {
    forall n :: 0 <= n < |cmds| && cmds[n].Card? ==> Added(cmds[..n], cmds[n].t)
  }

  lemma SubsetCard(a: set<int>, b: set<int>)
    requires a <= b
    ensures |a| <= |b|
  {
    assert b == a + (b - a);
  }

  /** An attempt let through at the m-th command is still held at the n-th. */
  lemma StillHeld(score: Rounding, cmds: seq<Command>, from: int, length: int, m: nat, n: nat)
    requires OwnAdds(cmds) && NothingLost(score, cmds, from, length) && m <= n < |cmds|
    requires cmds[m].Card? && InStretch(from, length, cmds[m].t) && cmds[n].Card? && InStretch(from, length, cmds[n].t)
    ensures cmds[m].t in After(score, cmds[..n])
  {
    var u := cmds[m].t;
    assert Added(cmds[..m], u);
    var i :| 0 <= i < m && cmds[..m][i] == Add(u);
    assert cmds[..n][i] == Add(u) && cmds[i] == Add(u);
    assert NotRemovedSince(score, cmds[..n], u, i);
    SetIsKept(score, cmds[..n]);
  }

  lemma AllStillHeld(score: Rounding, limit: int, cmds: seq<Command>, from: int, length: int, n: nat)
    requires OwnAdds(cmds) && NothingLost(score, cmds, from, length) && n < |cmds|
    requires cmds[n].Card? && InStretch(from, length, cmds[n].t)
    requires forall m :: n < m < |cmds| && GrantedAt(score, limit, cmds, m) ==> !InStretch(from, length, cmds[m].t)
    ensures GrantedIn(score, limit, cmds, from, length) <= After(score, cmds[..n]).Keys
  {
    hide After, OwnAdds, NothingLost;
    forall u | u in GrantedIn(score, limit, cmds, from, length) ensures u in After(score, cmds[..n]).Keys {
      var m :|
        0 <= m < |cmds| && GrantedAt(score, limit, cmds, m) && InStretch(from, length, cmds[m].t) && cmds[m].t == u;
      StillHeld(score, cmds, from, length, m, n);
    }
  }

  /** So the last count of the stretch that lets an attempt through bounds them all. */
  lemma {:induction false} LimitHolds(score: Rounding, limit: int, cmds: seq<Command>, from: int, length: int, n: nat)
    requires OwnAdds(cmds) && NothingLost(score, cmds, from, length) && n <= |cmds| && limit >= 0
    requires forall m :: n <= m < |cmds| && GrantedAt(score, limit, cmds, m) ==> !InStretch(from, length, cmds[m].t)
    ensures |GrantedIn(score, limit, cmds, from, length)| <= limit
  {
    hide OwnAdds, NothingLost, After, InStretch;
    var granted := GrantedIn(score, limit, cmds, from, length);
    if n == 0 {
      assert granted == {};
    } else {
      hide GrantedIn;
      if GrantedAt(score, limit, cmds, n - 1) && InStretch(from, length, cmds[n-1].t) {
        AllStillHeld(score, limit, cmds, from, length, n - 1);
        var z := After(score, cmds[..n-1]);
        SubsetCard(granted, z.Keys);
        assert |z.Keys| == |z|;
      } else {
        LimitHolds(score, limit, cmds, from, length, n - 1);
      }
    }
  }

  // ----- Clocks that differ

  /** At time t the attempt made at time u is still in the window. */
  predicate Outlasts(score: Rounding, window: int, u: int, t: int) {
    score(t - window) < score(u)
  }

  /** An attempt less than `length` old is never pruned. */
  ghost predicate Keeps(score: Rounding, window: int, length: int) {
    forall t, u :: t < u + length ==> Outlasts(score, window, u, t)
  }

  /** By the n-th command, a count, nothing removes an attempt that its clock would keep with `skew` to spare. */
  lemma OutlastingIsSafe(score: Rounding, window: int, skew: int, cmds: seq<Command>, j: nat, i: nat, n: nat)
    requires Monotone(score) && OrderlyWithin(window, skew, cmds) && i < j < n < |cmds| && cmds[i].Add?
    requires cmds[n].Card? && Outlasts(score, window - skew, cmds[i].t, cmds[n].t)
    ensures !Removes(score, cmds[j], cmds[i].t)
  {
    assert InStepAt(window - skew, cmds[..n], cmds[n].t);
    assert cmds[..n][i] == cmds[i] && cmds[..n][j] == cmds[j];
  }

  lemma OrderlyAdds(window: int, skew: int, cmds: seq<Command>)
    requires OrderlyWithin(window, skew, cmds)
    ensures OwnAdds(cmds)
  {
    forall n | 0 <= n < |cmds| && cmds[n].Card? ensures Added(cmds[..n], cmds[n].t) {
      assert cmds[..n][n-2] == Add(cmds[n].t);
    }
  }

  lemma OrderlyLosesNothing(score: Rounding, window: int, skew: int, cmds: seq<Command>, from: int, length: int)
    requires Monotone(score) && OrderlyWithin(window, skew, cmds) && Keeps(score, window - skew, length)
    ensures OwnAdds(cmds) && NothingLost(score, cmds, from, length)
  {
    OrderlyAdds(window, skew, cmds);
    forall i, j, n | 0 <= i < j < n < |cmds| && cmds[i].Add? && InStretch(from, length, cmds[i].t)
                     && cmds[n].Card? && InStretch(from, length, cmds[n].t)
      ensures !Removes(score, cmds[j], cmds[i].t)
    {
      assert Outlasts(score, window - skew, cmds[i].t, cmds[n].t);
      hide OrderlyWithin, Keeps, Monotone;
      OutlastingIsSafe(score, window, skew, cmds, j, i, n);
    }
  }

  /**
   A limiter whose replicas' clocks differ by at most `skew` has let through at most `limit`
   distinct times in any stretch that its rounding keeps, counting the grants of all replicas.
   */
  lemma LimiterKeepsLimit(limiter: SlidingWindow, key: string, skew: nat, from: int, length: int)
    requires limiter.Valid() && key in limiter.history && limiter.limit >= 0
    requires Monotone(limiter.score) && OrderlyWithin(limiter.window, skew, limiter.history[key])
    requires Keeps(limiter.score, limiter.window - skew, length)
    ensures |GrantedIn(limiter.score, limiter.limit, limiter.history[key], from, length)| <= limiter.limit
    ensures |set t | t in limiter.Granted(key) && InStretch(from, length, t)| <= limiter.limit
  {
    var cmds := limiter.history[key];
    OrderlyLosesNothing(limiter.score, limiter.window, skew, cmds, from, length);
    LimitHolds(limiter.score, limiter.limit, cmds, from, length, |cmds|);
    var mine := set t | t in limiter.Granted(key) && InStretch(from, length, t);
    var all := GrantedIn(limiter.score, limiter.limit, cmds, from, length);
    forall t | t in mine ensures t in all {
      assert Grants(limiter.score, limiter.limit, cmds, t);
      var n :| 0 <= n < |cmds| && cmds[n] == Card(t) && |After(limiter.score, cmds[..n])| <= limiter.limit;
      assert GrantedAt(limiter.score, limiter.limit, cmds, n) && cmds[n].t == t;
    }
    SubsetCard(mine, all);
  }

  // ----- The time range where a float64 nanosecond is a multiple of 256 (mid-2006 to 2043)

  const TWO_60 := 0x1000_0000_0000_0000
  const TWO_61 := 0x2000_0000_0000_0000
  const MIDDLE := 0x1800_0000_0000_0000

  ghost predicate InRange(cmds: seq<Command>, window: int) {
    forall i :: 0 <= i < |cmds| && cmds[i].Add? ==> TWO_60 + window <= cmds[i].t < TWO_61
  }

  function Max(a: int, b: int): int {
    if a < b then b else a
  }

  /** In every history within the skew at most `limit` distinct timestamps get through in any stretch of that length. */
  ghost predicate Bounded(score: Rounding, window: int, skew: int, length: int) {
    forall limit: nat, cmds, from :: OrderlyWithin(window, skew, cmds) && InRange(cmds, window) ==>
      |GrantedIn(score, limit, cmds, from, length)| <= limit
  }

  lemma KeepsBounds(score: Rounding, window: int, skew: int, length: int)
    requires Monotone(score) && Keeps(score, window - skew, length)
    ensures Bounded(score, window, skew, length)
  {
    forall limit: nat, cmds, from | OrderlyWithin(window, skew, cmds) && InRange(cmds, window)
      ensures |GrantedIn(score, limit, cmds, from, length)| <= limit
    {
      OrderlyLosesNothing(score, window, skew, cmds, from, length);
      hide Monotone, OrderlyWithin, Keeps;
      LimitHolds(score, limit, cmds, from, length, |cmds|);
    }
  }

  /** No attempt is pruned by its own trim. */
  ghost predicate KeepsOwn(score: Rounding, window: int) {
    forall t :: score(t) > score(t - window)
  }

  /** A count sees at least its own attempt, so a limit of zero lets nothing through. */
  lemma CountsItself(score: Rounding, window: int, skew: int, cmds: seq<Command>, n: nat)
    requires OrderlyWithin(window, skew, cmds) && n < |cmds| && cmds[n].Card?
    requires score(cmds[n].t) > score(cmds[n].t - window)
    ensures |After(score, cmds[..n])| >= 1
  {
    var t := cmds[n].t;
    assert cmds[..n][n-2] == Add(t) && cmds[..n][n-1] == Trim(t - window);
    assert NotRemovedSince(score, cmds[..n], t, n - 2);
    SetIsKept(score, cmds[..n]);
    assert t in After(score, cmds[..n]);
  }

  lemma OneInstant(score: Rounding, limit: int, cmds: seq<Command>, from: int)
    ensures |GrantedIn(score, limit, cmds, from, 1)| <= 1
  {
    hide GrantedAt;
    SubsetCard(GrantedIn(score, limit, cmds, from, 1), {from});
  }

  /** One nanosecond holds one timestamp, whatever the clocks. */
  lemma OneInstantBounded(score: Rounding, limit: nat, window: int, skew: int, cmds: seq<Command>, from: int)
    requires OrderlyWithin(window, skew, cmds) && KeepsOwn(score, window)
    ensures |GrantedIn(score, limit, cmds, from, 1)| <= limit
  {
    hide OrderlyWithin, After;
    var granted := GrantedIn(score, limit, cmds, from, 1);
    if t :| t in granted {
      var n :| 0 <= n < |cmds| && GrantedAt(score, limit, cmds, n) && InStretch(from, 1, cmds[n].t) && cmds[n].t == t;
      CountsItself(score, window, skew, cmds, n);
      OneInstant(score, limit, cmds, from);
    }
  }

  lemma ShorterIsEasier(score: Rounding, limit: nat, cmds: seq<Command>, from: int, length: int, length': int)
    requires length <= length' && |GrantedIn(score, limit, cmds, from, length')| <= limit
    ensures |GrantedIn(score, limit, cmds, from, length)| <= limit
  {
    hide GrantedAt;
    SubsetCard(GrantedIn(score, limit, cmds, from, length), GrantedIn(score, limit, cmds, from, length'));
  }

  lemma InstantBounds(score: Rounding, window: int, skew: int, length: int)
    requires length <= 1 && KeepsOwn(score, window)
    ensures Bounded(score, window, skew, length)
  {
    forall limit: nat, cmds, from | OrderlyWithin(window, skew, cmds) && InRange(cmds, window)
      ensures |GrantedIn(score, limit, cmds, from, length)| <= limit
    {
      OneInstantBounded(score, limit, window, skew, cmds, from);
      ShorterIsEasier(score, limit, cmds, from, length, 1);
    }
  }

  // ----- No longer stretch will do

  /** Of all attempts only the given ones can be kept. */
  ghost predicate KeepsOnly(score: Rounding, cmds: seq<Command>, ts: set<int>) {
    forall u :: Kept(score, cmds, u) ==> u in ts
  }

  lemma CountsAtMost(score: Rounding, cmds: seq<Command>, ts: set<int>)
    requires KeepsOnly(score, cmds, ts)
    ensures |After(score, cmds)| <= |ts|
  {
    SetIsKept(score, cmds);
    var z := After(score, cmds);
    forall u | u in z.Keys ensures u in ts {
      assert Kept(score, cmds, u);
    }
    SubsetCard(z.Keys, ts);
    assert |z.Keys| == |z|;
  }

  /** An attempt, a trim by a clock `skew` ahead of the next attempt's, and that attempt. */
  function TwoAttempts(window: int, skew: int, u: int, t: int): seq<Command> {
    Pipeline(window, u) + [Trim(t + skew - window)] + Pipeline(window, t)
  }

  lemma TwoAttemptsWithin(window: int, skew: nat, u: int, t: int)
    requires 0 <= u <= t
    ensures OrderlyWithin(window, skew, TwoAttempts(window, skew, u, t))
  {
    var first := [] + Pipeline(window, u);
    assert OrderlyWithin(window, skew, []) && InStepAt(window - skew, [], u);
    PipelineKeepsOrder(window, skew, [], u);
    var trimmed := first + [Trim(t + skew - window)];
    OrderlySnoc(window, skew, first, Trim(t + skew - window));
    assert InStepAt(window - skew, trimmed, t);
    hide OrderlyWithin, InStepAt;
    PipelineKeepsOrder(window, skew, trimmed, t);
    assert trimmed + Pipeline(window, t) == TwoAttempts(window, skew, u, t);
  }

  /** With the first attempt pruned before the second counts, both pass a limit of one. */
  lemma BothGranted(score: Rounding, window: int, skew: int, u: int, t: int)
    requires u < t && 0 <= score(u) <= score(t + skew - window)
    ensures var cmds := TwoAttempts(window, skew, u, t); GrantedAt(score, 1, cmds, 2) && GrantedAt(score, 1, cmds, 6)
  {
    var cmds := TwoAttempts(window, skew, u, t);
    CountsAtMost(score, cmds[..2], {u});
    assert Removes(score, cmds[..6][3], u);
    CountsAtMost(score, cmds[..6], {t});
  }

  lemma TwoPassLimitOne(score: Rounding, window: int, skew: nat, length: int, u: int, t: int)
    requires window > 0 && TWO_60 + window <= u < t < TWO_61 && t < u + length
    requires 0 <= score(u) <= score(t + skew - window)
    ensures !Bounded(score, window, skew, length)
  {
    var cmds := TwoAttempts(window, skew, u, t);
    TwoAttemptsWithin(window, skew, u, t);
    BothGranted(score, window, skew, u, t);
    hide OrderlyWithin, GrantedAt;
    var granted := GrantedIn(score, 1, cmds, u, length);
    assert cmds[2].t in granted && cmds[6].t in granted;
    SubsetCard({u, t}, granted);
    assert InRange(cmds, window);
  }

  // ----- Exact scores

  function Exact(t: int): int {
    t
  }

  lemma ExactKeeps(window: int, length: int)
    requires length <= window
    ensures Monotone(Exact) && Keeps(Exact, window, length)
  {
  }

  /**
   With exact scores the limit holds over every stretch of a window less the skew of the clocks
   (a single nanosecond in any case), and over no longer one.
   */
  lemma ExactBoundIff(window: int, skew: nat, length: int)
    requires 0 < window < TWO_60 / 2
    ensures Bounded(Exact, window, skew, length) <==> length <= Max(1, window - skew)
  {
    if length <= window - skew {
      ExactKeeps(window - skew, length);
      KeepsBounds(Exact, window, skew, length);
    } else if length <= 1 {
      InstantBounds(Exact, window, skew, length);
    } else {
      TwoPassLimitOne(Exact, window, skew, length, MIDDLE, MIDDLE + Max(1, window - skew));
    }
  }

  // ----- Float64 scores

  /** The nearest multiple of 256, ties to the even multiple: int64 to float64 between 2^60 and 2^61. */
  function Round256(t: int): int {
    var q, r := t / 256, t % 256;
    if r < 128 || (r == 128 && q % 2 == 0) then 256 * q else 256 * (q + 1)
  }

  lemma Round256Near(t: int)
    ensures t - 128 <= Round256(t) <= t + 128
  {
  }

  lemma Round256Monotone()
    ensures Monotone(Round256)
  {
    forall x, y | x <= y ensures Round256(x) <= Round256(y) {
      assert x / 256 <= y / 256;
    }
  }

  lemma Round256Keeps(window: int, length: int)
    requires length <= window - 256
    ensures Monotone(Round256) && Keeps(Round256, window, length)
  {
    Round256Monotone();
    forall t, u | t < u + length ensures Outlasts(Round256, window, u, t) {
      Round256Near(t - window);
      Round256Near(u);
    }
  }

  /** The widest gap that rounding can close: 256 ns, from a tie that rounds up to one that rounds down. */
  lemma Round256Ties(cutoff: int)
    requires cutoff >= MIDDLE - 128
    ensures 0 <= Round256(MIDDLE + 128) == Round256(MIDDLE + 127) == MIDDLE <= Round256(cutoff)
  {
    Round256Monotone();
    assert Round256(MIDDLE - 128) == MIDDLE;
  }

  /** With float64 scores the stretch is shorter by another 256 ns, and again no longer one will do. */
  lemma Float64BoundIff(window: int, skew: nat, length: int)
    requires 256 < window < TWO_60 / 2
    ensures Bounded(Round256, window, skew, length) <==> length <= Max(1, window - 256 - skew)
  {
    if length <= window - 256 - skew {
      Round256Keeps(window - skew, length);
      KeepsBounds(Round256, window, skew, length);
    } else if length <= 1 {
      Round256Keeps(window, 1);
      InstantBounds(Round256, window, skew, length);
    } else {
      var t := MIDDLE + 128 + Max(1, window - 256 - skew);
      Round256Ties(t + skew - window);
      TwoPassLimitOne(Round256, window, skew, length, MIDDLE + 128, t);
    }
  }

  // ----- The limiter object

  /** What the limiter promises for each of the two roundings, whatever the skew of its replicas' clocks. */
  lemma LimiterBounds(limiter: SlidingWindow, key: string, skew: nat, from: int, length: int)
    requires limiter.Valid() && key in limiter.history && limiter.limit >= 0
    requires OrderlyWithin(limiter.window, skew, limiter.history[key])
    ensures limiter.score == Exact && length <= limiter.window - skew ==>
              |set t | t in limiter.Granted(key) && InStretch(from, length, t)| <= limiter.limit
    ensures limiter.score == Round256 && length <= limiter.window - 256 - skew ==>
              |set t | t in limiter.Granted(key) && InStretch(from, length, t)| <= limiter.limit
  {
    if limiter.score == Exact && length <= limiter.window - skew {
      ExactKeeps(limiter.window - skew, length);
      LimiterKeepsLimit(limiter, key, skew, from, length);
    }
    if limiter.score == Round256 && length <= limiter.window - 256 - skew {
      Round256Keeps(limiter.window - skew, length);
      LimiterKeepsLimit(limiter, key, skew, from, length);
    }
  }

  /** A count of what at most the given attempts can be kept of is at most their number. */
  lemma CountAtMost(score: Rounding, cmds: seq<Command>, ts: set<int>, count: nat)
    requires CountIs(score, cmds, count) && KeepsOnly(score, cmds, ts)
    ensures count <= |ts|
  {
    var held: set<int> :| AllKept(score, cmds, held) && count == |held|;
    forall t | t in held ensures t in ts {
      assert Kept(score, cmds, t);
    }
    SubsetCard(held, ts);
  }

  function NoGap(): nat -> seq<Command> {
    (i: nat) => []
  }

  function TrimFirst(cutoff: int): nat -> seq<Command> {
    (i: nat) => if i == 0 then [Trim(cutoff)] else []
  }

  lemma SentWithGap(window: int, now: int, gap: nat -> seq<Command>, past: seq<Command>)
    requires gap(1) == [] && gap(2) == []
    ensures past + Sent(window, now, gap, 3) == past + gap(0) + Pipeline(window, now)
    ensures past + Sent(window, now, gap, 2) + gap(2) == past + gap(0) + [Add(now), Trim(now - window)]
  {
    SentAll(window, now, gap, past);
  }

  /** The counts of the two attempts: each sees at most itself. */
  lemma EachCountsOne(score: Rounding, window: int, skew: int, u: int, t: int)
    requires u < t && 0 <= score(u) <= score(t + skew - window)
    ensures KeepsOnly(score, [Add(u), Trim(u - window)], {u})
    ensures KeepsOnly(score, Pipeline(window, u) + [Trim(t + skew - window), Add(t), Trim(t - window)], {t})
  {
    var second := Pipeline(window, u) + [Trim(t + skew - window), Add(t), Trim(t - window)];
    assert Removes(score, second[3], u);
  }

  /** A limiter of one lets two through: another replica prunes its first attempt just before its second. */
  method TwoThrough(score: Rounding, window: int, skew: nat, u: int, t: int) returns (limiter: SlidingWindow)
    requires 0 <= u < t && 0 <= score(u) <= score(t + skew - window)
    ensures limiter.Valid() && limiter.limit == 1 && limiter.window == window && limiter.score == score
    ensures limiter.History(":") == TwoAttempts(window, skew, u, t)
    ensures OrderlyWithin(window, skew, limiter.History(":"))
    ensures u in limiter.Granted(":") && t in limiter.Granted(":")
  {
    hide OrderlyWithin, KeepsOnly, CountIs, Orderly, Monotone, Window, Whole, Sent, After, Grants;
    EachCountsOne(score, window, skew, u, t);
    limiter := new SlidingWindow(1, window, "", score);
    assert limiter.Key("") == ":";
    SentWithGap(window, u, NoGap(), []);
    var first := limiter.Allow("", u, NoGap(), Answered);
    assert [] + NoGap()(0) + [Add(u), Trim(u - window)] == [Add(u), Trim(u - window)];
    CountAtMost(score, [Add(u), Trim(u - window)], {u}, first.value.1);
    assert limiter.History(":") == Pipeline(window, u);
    var gap := TrimFirst(t + skew - window);
    SentWithGap(window, t, gap, Pipeline(window, u));
    var second := limiter.Allow("", t, gap, Answered);
    var counted := Pipeline(window, u) + [Trim(t + skew - window), Add(t), Trim(t - window)];
    assert Pipeline(window, u) + gap(0) + [Add(t), Trim(t - window)] == counted;
    CountAtMost(score, counted, {t}, second.value.1);
    assert limiter.History(":") == TwoAttempts(window, skew, u, t);
    TwoAttemptsWithin(window, skew, u, t);
  }

  /** What the float64 rounding takes off the stretch. */
  function Slack(float64: bool): int {
    if float64 then 256 else 0
  }

  /**
   Beyond the stretches of LimiterBounds the promise fails: for each of the two roundings, any
   skew and any longer stretch there is a limiter, with clocks within the skew, that breaks it.
   */
  method LimiterBreaks(float64: bool, window: int, skew: nat, length: int) returns (limiter: SlidingWindow)
    requires Slack(float64) < window && length > Max(1, window - Slack(float64) - skew)
    ensures limiter.Valid() && limiter.window == window && limiter.limit == 1
    ensures limiter.score == if float64 then Round256 else Exact
    ensures OrderlyWithin(window, skew, limiter.History(":"))
    ensures |set t | t in limiter.Granted(":") && InStretch(MIDDLE + 128, length, t)| > limiter.limit
  {
    hide OrderlyWithin;
    var u := MIDDLE + 128;
    var t := u + Max(1, window - Slack(float64) - skew);
    Round256Ties(MIDDLE);
    if float64 {
      Round256Ties(t + skew - window);
    }
    limiter := TwoThrough(if float64 then Round256 else Exact, window, skew, u, t);
    SubsetCard({u, t}, set x | x in limiter.Granted(":") && InStretch(u, length, x));
  }

  // ----- Same nanosecond

  /** Attempts at one instant share a member, so any number of them passes a limit of one. */
  lemma SameInstantCountsOnce(score: Rounding, cmds: seq<Command>, now: int, n: nat)
    requires forall i :: 0 <= i < |cmds| && cmds[i].Add? ==> cmds[i].t == now
    requires n < |cmds| && cmds[n].Card?
    ensures GrantedAt(score, 1, cmds, n)
  {
    CountsAtMost(score, cmds[..n], {now});
  }
}
