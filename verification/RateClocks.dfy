/**
 The limiter as it is deployed: requests that run their whole pipeline against Redis, by
 replicas whose clocks stay within `drift` of Redis's clock, on a key that Redis lets expire a
 window after its last use. With one clock the expiry is invisible. With drift the limit holds
 over exactly the stretches named below.
 */
module RateClocks {
  import opened RateLimit
  import opened RateBound

  /** A request reaches Redis at `at` on its clock, stamped `now` by its replica; the key may have expired before. */
  datatype Request = Request(at: int, now: int, dropped: bool)

  /** What the requests send to the key. */
  function Commands(window: int, reqs: seq<Request>): seq<Command> {
    if reqs == [] then []
    else
      var r := reqs[|reqs|-1];
      Commands(window, reqs[..|reqs|-1]) + Attempt(window, r.now, r.dropped)
  }

  /** The set that the last request counts. */
  function Seen(score: Rounding, window: int, reqs: seq<Request>): ZSet
    requires reqs != []
  {
    var cmds := Commands(window, reqs);
    After(score, cmds[..|cmds|-1])
  }

  lemma CommandsEnd(window: int, reqs: seq<Request>)
    requires reqs != []
    ensures var cmds := Commands(window, reqs); cmds != [] && cmds[|cmds|-1] == Card(reqs[|reqs|-1].now)
  {
  }

  /** Only requests add to the set. */
  lemma {:induction false} AddsAreRequests(window: int, reqs: seq<Request>, i: nat) returns (k: nat)
    requires i < |Commands(window, reqs)| && Commands(window, reqs)[i].Add?
    ensures k < |reqs| && Commands(window, reqs)[i] == Add(reqs[k].now)
  {
    var before := reqs[..|reqs|-1];
    if i < |Commands(window, before)| {
      k := AddsAreRequests(window, before, i);
    } else {
      k := |reqs| - 1;
    }
  }

  // ----- One clock: the expiry cannot be seen

  /** One clock that does not run back; the key expires only after a window without requests. */
  ghost predicate InOrder(window: int, reqs: seq<Request>) {
    && (forall i :: 0 <= i < |reqs| ==> reqs[i].now >= 0)
    && (forall i, j :: 0 <= i < j < |reqs| ==> reqs[i].now <= reqs[j].now)
    && (forall i, j :: 0 <= i < j < |reqs| && reqs[j].dropped ==> reqs[i].now + window <= reqs[j].now)
  }

  lemma NextRequestInOrder(window: int, reqs: seq<Request>)
    requires reqs != [] && InOrder(window, reqs)
    ensures var before, r := reqs[..|reqs|-1], reqs[|reqs|-1];
            InOrder(window, before) && NextInOrder(window, Commands(window, before), r.now, r.dropped)
  {
    var before, r := reqs[..|reqs|-1], reqs[|reqs|-1];
    var cmds := Commands(window, before);
    if before != [] {
      CommandsEnd(window, before);
    }
    if r.dropped {
      forall i | 0 <= i < |cmds| && cmds[i].Add? ensures cmds[i].t + window <= r.now {
        var k := AddsAreRequests(window, before, i);
        assert before[k] == reqs[k];
      }
    }
  }

  lemma {:induction false} RequestsAreOrderly(window: int, reqs: seq<Request>)
    requires InOrder(window, reqs)
    ensures Orderly(window, Commands(window, reqs))
  {
    if reqs != [] {
      var before, r := reqs[..|reqs|-1], reqs[|reqs|-1];
      NextRequestInOrder(window, reqs);
      RequestsAreOrderly(window, before);
      AttemptKeepsOrder(window, Commands(window, before), r.now, r.dropped);
    }
  }

  /** The plain specification: all requests so far, allowed or not, stamped above the cutoff. */
  function InWindow(score: Rounding, reqs: seq<Request>, cutoff: int): set<int> {
    set i | 0 <= i < |reqs| && score(reqs[i].now) > score(cutoff) :: reqs[i].now
  }

  lemma InWindowSnoc(score: Rounding, reqs: seq<Request>, r: Request, cutoff: int)
    ensures InWindow(score, reqs + [r], cutoff)
            == InWindow(score, reqs, cutoff) + if score(r.now) > score(cutoff) then {r.now} else {}
  {
    var reqs' := reqs + [r];
    assert reqs'[|reqs|] == r;
    forall t | t in InWindow(score, reqs, cutoff) ensures t in InWindow(score, reqs', cutoff) {
      var i :| 0 <= i < |reqs| && score(reqs[i].now) > score(cutoff) && reqs[i].now == t;
      assert reqs'[i] == reqs[i];
    }
  }

  lemma WindowSkip(score: Rounding, cmds: seq<Command>, now: int, dropped: bool, window: int, cutoff: int)
    ensures Window(score, cmds + Attempt(window, now, dropped), cutoff)
            == Window(score, cmds, cutoff) + if score(now) > score(cutoff) then {now} else {}
  {
    hide Window;
    var started := if dropped then cmds + [Drop] else cmds;
    if dropped {
      WindowSnoc(score, cmds, Drop, cutoff);
    }
    WindowSnoc(score, started, Add(now), cutoff);
    WindowSnoc(score, started + [Add(now)], Trim(now - window), cutoff);
    WindowSnoc(score, started + [Add(now)] + [Trim(now - window)], Card(now), cutoff);
    assert cmds + Attempt(window, now, dropped) == started + [Add(now)] + [Trim(now - window)] + [Card(now)];
  }

  /** The window over the commands is the window over the requests, dropped keys or not. */
  lemma {:induction false} WindowIsInWindow(score: Rounding, window: int, reqs: seq<Request>, cutoff: int)
    ensures Window(score, Commands(window, reqs), cutoff) == InWindow(score, reqs, cutoff)
  {
    if reqs != [] {
      var before, r := reqs[..|reqs|-1], reqs[|reqs|-1];
      WindowIsInWindow(score, window, before, cutoff);
      WindowSkip(score, Commands(window, before), r.now, r.dropped, window, cutoff);
      InWindowSnoc(score, before, r, cutoff);
      assert before + [r] == reqs;
    }
  }

  lemma NextWindow(score: Rounding, window: int, reqs: seq<Request>, cutoff: int)
    requires reqs != []
    ensures Window(score, Commands(window, reqs[..|reqs|-1]) + [Add(reqs[|reqs|-1].now)], cutoff)
            == InWindow(score, reqs, cutoff)
  {
    var before, r := reqs[..|reqs|-1], reqs[|reqs|-1];
    hide Window, InWindow, Commands;
    WindowSnoc(score, Commands(window, before), Add(r.now), cutoff);
    WindowIsInWindow(score, window, before, cutoff);
    InWindowSnoc(score, before, r, cutoff);
    assert before + [r] == reqs;
  }

  /** Pruned and expiring, the set is at every request the plain window over the whole history. */
  lemma SeenIsInWindow(score: Rounding, window: int, reqs: seq<Request>)
    requires Monotone(score) && reqs != [] && InOrder(window, reqs)
    ensures Seen(score, window, reqs).Keys == InWindow(score, reqs, reqs[|reqs|-1].now - window)
  {
    hide InOrder, Orderly, NextInOrder, Monotone, Window, InWindow, After, Attempt;
    var before, r := reqs[..|reqs|-1], reqs[|reqs|-1];
    NextRequestInOrder(window, reqs);
    RequestsAreOrderly(window, before);
    AttemptCountsWindow(score, window, Commands(window, before), r.now, r.dropped);
    NextWindow(score, window, reqs, r.now - window);
  }

  /** The same requests against a Redis that never lets the key expire. */
  function NeverDropped(reqs: seq<Request>): (kept: seq<Request>)
    ensures |kept| == |reqs|
    ensures forall i :: 0 <= i < |reqs| ==> kept[i] == reqs[i].(dropped := false)
  {
    seq(|reqs|, i requires 0 <= i < |reqs| => reqs[i].(dropped := false))
  }

  /** Every request counts the same attempts whether or not idle keys expire. */
  lemma ExpiryInvisible(score: Rounding, window: int, reqs: seq<Request>, k: nat)
    requires Monotone(score) && InOrder(window, reqs) && k < |reqs|
    ensures Seen(score, window, reqs[..k+1]).Keys == Seen(score, window, NeverDropped(reqs)[..k+1]).Keys
  {
    var some, none := reqs[..k+1], NeverDropped(reqs)[..k+1];
    assert InOrder(window, some) && InOrder(window, none);
    SeenIsInWindow(score, window, some);
    SeenIsInWindow(score, window, none);
    SameStamps(score, some, none, reqs[k].now - window);
  }

  lemma SameStamps(score: Rounding, some: seq<Request>, none: seq<Request>, cutoff: int)
    requires |some| == |none| && forall i :: 0 <= i < |some| ==> some[i].now == none[i].now
    ensures InWindow(score, some, cutoff) == InWindow(score, none, cutoff)
  {
    forall t ensures t in InWindow(score, some, cutoff) <==> t in InWindow(score, none, cutoff) {
      if t in InWindow(score, some, cutoff) {
        var i :| 0 <= i < |some| && score(some[i].now) > score(cutoff) && some[i].now == t;
        assert none[i].now == t;
      }
      if t in InWindow(score, none, cutoff) {
        var i :| 0 <= i < |none| && score(none[i].now) > score(cutoff) && none[i].now == t;
        assert some[i].now == t;
      }
    }
  }

  // ----- Clocks within `drift` of Redis's

  predicate Stamped(drift: int, r: Request) {
    r.at - drift <= r.now <= r.at + drift && r.now >= 0
  }

  /** Redis sees the requests in its own time, and lets the key expire a window after its last use. */
  ghost predicate ClocksWithin(window: int, drift: int, reqs: seq<Request>) {
    && (forall i :: 0 <= i < |reqs| ==> Stamped(drift, reqs[i]))
    && (forall i, j :: 0 <= i < j < |reqs| ==> reqs[i].at <= reqs[j].at)
    && (forall i, j :: 0 <= i < j < |reqs| && reqs[j].dropped ==> reqs[i].at + window <= reqs[j].at)
  }

  lemma LaterInStep(window: int, cmds: seq<Command>, t: int, window': int, t': int)
    requires InStepAt(window, cmds, t) && t - window <= t' - window'
    ensures InStepAt(window', cmds, t')
  {
  }

  /** What an expiry removes was stamped no later than a window before Redis's time, plus the drift. */
  lemma DroppedAreOld(window: int, drift: nat, reqs: seq<Request>, r: Request)
    requires ClocksWithin(window, drift, reqs + [r]) && r.dropped
    ensures InStepAt(window, Commands(window, reqs), r.at + drift) ==>
              InStepAt(window, Commands(window, reqs) + [Drop], r.at + drift)
  {
    var cmds, all := Commands(window, reqs), reqs + [r];
    if InStepAt(window, cmds, r.at + drift) {
      forall i | 0 <= i < |cmds| && cmds[i].Add? ensures cmds[i].t <= r.at + drift - window {
        var k := AddsAreRequests(window, reqs, i);
        assert Stamped(drift, all[k]) && all[k] == reqs[k];
        assert all[|reqs|] == r && all[k].at + window <= all[|reqs|].at;
      }
      InStepSnoc(window, cmds, r.at + drift, Drop);
    }
  }

  lemma PipelineInStep(window: int, cmds: seq<Command>, now: int, t: int)
    requires InStepAt(window, cmds, t) && now <= t
    ensures InStepAt(window, cmds + Pipeline(window, now), t)
  {
    hide InStepAt;
    InStepSnoc(window, cmds, t, Add(now));
    InStepSnoc(window, cmds + [Add(now)], t, Trim(now - window));
    InStepSnoc(window, cmds + [Add(now)] + [Trim(now - window)], t, Card(now));
    assert cmds + [Add(now)] + [Trim(now - window)] + [Card(now)] == cmds + Pipeline(window, now);
  }

  /** One more request, after what an expiry may have done. */
  lemma RequestKeepsSkew(window: int, drift: nat, started: seq<Command>, r: Request)
    requires OrderlyWithin(window, 2 * drift, started) && InStepAt(window, started, r.at + drift) && Stamped(drift, r)
    ensures OrderlyWithin(window, 2 * drift, started + Pipeline(window, r.now))
    ensures InStepAt(window, started + Pipeline(window, r.now), r.at + drift)
  {
    hide OrderlyWithin, InStepAt;
    LaterInStep(window, started, r.at + drift, window - 2 * drift, r.now);
    PipelineKeepsOrder(window, 2 * drift, started, r.now);
    PipelineInStep(window, started, r.now, r.at + drift);
  }

  lemma EmptyWithin(window: int, skew: int, t: int)
    ensures OrderlyWithin(window, skew, []) && InStepAt(window, [], t)
  {
  }

  lemma ClocksSnoc(window: int, drift: nat, reqs: seq<Request>, r: Request)
    requires ClocksWithin(window, drift, reqs + [r])
    ensures ClocksWithin(window, drift, reqs) && Stamped(drift, r)
    ensures reqs != [] ==> reqs[|reqs|-1].at <= r.at
  {
    var all := reqs + [r];
    assert all[|reqs|] == r && forall i :: 0 <= i < |reqs| ==> all[i] == reqs[i];
  }

  lemma AttemptKeepsSkew(window: int, drift: nat, reqs: seq<Request>, r: Request)
    requires ClocksWithin(window, drift, reqs + [r]) && OrderlyWithin(window, 2 * drift, Commands(window, reqs))
    requires InStepAt(window, Commands(window, reqs), r.at + drift)
    ensures var cmds := Commands(window, reqs) + Attempt(window, r.now, r.dropped);
            OrderlyWithin(window, 2 * drift, cmds) && InStepAt(window, cmds, r.at + drift)
  {
    hide OrderlyWithin, InStepAt, Commands;
    ClocksSnoc(window, drift, reqs, r);
    var cmds := Commands(window, reqs);
    if r.dropped {
      DroppedAreOld(window, drift, reqs, r);
      hide ClocksWithin;
      OrderlySnoc(window, 2 * drift, cmds, Drop);
      RequestKeepsSkew(window, drift, cmds + [Drop], r);
      assert cmds + [Drop] + Pipeline(window, r.now) == cmds + Attempt(window, r.now, true);
    } else {
      hide ClocksWithin;
      RequestKeepsSkew(window, drift, cmds, r);
      assert cmds + Pipeline(window, r.now) == cmds + Attempt(window, r.now, false);
    }
  }

  /** Clocks within `drift` of Redis's are within twice that of each other. */
  lemma {:induction false} ClocksGiveSkew(window: int, drift: nat, reqs: seq<Request>)
    requires ClocksWithin(window, drift, reqs)
    ensures OrderlyWithin(window, 2 * drift, Commands(window, reqs))
    ensures reqs != [] ==> InStepAt(window, Commands(window, reqs), reqs[|reqs|-1].at + drift)
  {
    hide OrderlyWithin, InStepAt, ClocksWithin;
    if reqs == [] {
      EmptyWithin(window, 2 * drift, 0);
    } else {
      var before, r := reqs[..|reqs|-1], reqs[|reqs|-1];
      assert reqs == before + [r];
      ClocksSnoc(window, drift, before, r);
      ClocksGiveSkew(window, drift, before);
      if before == [] {
        EmptyWithin(window, 2 * drift, r.at + drift);
      } else {
        LaterInStep(window, Commands(window, before), before[|before|-1].at + drift, window, r.at + drift);
      }
      AttemptKeepsSkew(window, drift, before, r);
    }
  }

  /** At most `limit` distinct timestamps get through in any stretch of that length, whatever the requests. */
  ghost predicate BoundedWithin(score: Rounding, window: int, drift: int, length: int, expiry: bool) {
    forall limit: nat, reqs, from :: Permitted(window, drift, reqs, expiry) ==>
      |GrantedIn(score, limit, Commands(window, reqs), from, length)| <= limit
  }

  /** Requests by such clocks, in the time range of float64; without expiry the key is never idle for a window. */
  ghost predicate Permitted(window: int, drift: int, reqs: seq<Request>, expiry: bool) {
    && ClocksWithin(window, drift, reqs) && InRange(Commands(window, reqs), window)
    && (!expiry ==> forall k :: 0 <= k < |reqs| ==> !reqs[k].dropped)
  }

  lemma SkewBounds(score: Rounding, window: int, drift: nat, length: int, expiry: bool)
    requires Bounded(score, window, 2 * drift, length)
    ensures BoundedWithin(score, window, drift, length, expiry)
  {
    forall limit: nat, reqs, from | Permitted(window, drift, reqs, expiry)
      ensures |GrantedIn(score, limit, Commands(window, reqs), from, length)| <= limit
    {
      ClocksGiveSkew(window, drift, reqs);
    }
  }

  // ----- Exact scores, with keys that expire

  /** A request by a fast clock, and one by a slow clock just after Redis has let the key expire. */
  function ExpiryRequests(drift: int, at: int, at': int): seq<Request> {
    [Request(at, at + drift, false), Request(at', at' - drift, true)]
  }

  lemma ExpiryCommands(window: int, drift: int, at: int, at': int)
    ensures Commands(window, ExpiryRequests(drift, at, at'))
            == Pipeline(window, at + drift) + [Drop] + Pipeline(window, at' - drift)
  {
    var reqs := ExpiryRequests(drift, at, at');
    assert reqs[..1] == [reqs[0]] && [reqs[0]][..0] == [];
    assert Commands(window, [reqs[0]]) == [] + Attempt(window, at + drift, false);
  }

  lemma ExpiryPassesLimitOne(score: Rounding, window: int, drift: nat, at: int, at': int, length: int)
    requires at >= TWO_60 + window && window > 0 && at + window <= at' < TWO_61
    requires at + drift < at' - drift < at + drift + length && at + drift < TWO_61
    ensures !BoundedWithin(score, window, drift, length, true)
  {
    var reqs, u, t := ExpiryRequests(drift, at, at'), at + drift, at' - drift;
    var cmds := Commands(window, reqs);
    ExpiryCommands(window, drift, at, at');
    BothAfterDrop(score, window, u, t, length);
    ExpiryPermitted(window, drift, at, at');
    hide GrantedIn, Commands, Permitted, ExpiryRequests;
    assert Permitted(window, drift, reqs, true) && |GrantedIn(score, 1, cmds, u, length)| > 1;
  }

  lemma ExpiryPermitted(window: int, drift: nat, at: int, at': int)
    requires at >= TWO_60 + window && window > 0 && at + window <= at' < TWO_61
    requires at + drift < at' - drift && at + drift < TWO_61
    ensures Permitted(window, drift, ExpiryRequests(drift, at, at'), true)
  {
    ExpiryCommands(window, drift, at, at');
    hide Commands;
  }

  lemma TwoInStretch(score: Rounding, cmds: seq<Command>, i: nat, j: nat, length: int)
    requires i < |cmds| && j < |cmds| && GrantedAt(score, 1, cmds, i) && GrantedAt(score, 1, cmds, j)
    requires cmds[i].t < cmds[j].t < cmds[i].t + length
    ensures |GrantedIn(score, 1, cmds, cmds[i].t, length)| > 1
  {
    hide After;
    var granted := GrantedIn(score, 1, cmds, cmds[i].t, length);
    assert cmds[i].t in granted && cmds[j].t in granted;
    SubsetCard({cmds[i].t, cmds[j].t}, granted);
  }

  lemma BothAfterDrop(score: Rounding, window: int, u: int, t: int, length: int)
    requires u < t < u + length
    ensures |GrantedIn(score, 1, Pipeline(window, u) + [Drop] + Pipeline(window, t), u, length)| > 1
  {
    var cmds := Pipeline(window, u) + [Drop] + Pipeline(window, t);
    CountsAtMost(score, cmds[..2], {u});
    assert Removes(score, cmds[..6][3], u);
    CountsAtMost(score, cmds[..6], {t});
    hide After, GrantedIn;
    TwoInStretch(score, cmds, 2, 6, length);
  }

  /** With exact scores the limit holds over every stretch of a window less twice the drift, and over no longer one. */
  lemma ClockedExactIff(window: int, drift: nat, length: int)
    requires 0 < window < TWO_60 / 4 && drift < TWO_60 / 8
    ensures BoundedWithin(Exact, window, drift, length, true) <==> length <= Max(1, window - 2 * drift)
  {
    ExactBoundIff(window, 2 * drift, length);
    if length <= Max(1, window - 2 * drift) {
      SkewBounds(Exact, window, drift, length, true);
    } else {
      ExpiryPassesLimitOne(Exact, window, drift, MIDDLE, MIDDLE + Max(window, 2 * drift + 1), length);
    }
  }

  // ----- Whole pipelines: a clock that runs ahead prunes one attempt but leaves its own

  /** Each trim follows its own add. */
  ghost predicate OwnedTrims(window: int, cmds: seq<Command>) {
    forall j :: 0 <= j < |cmds| && cmds[j].Trim? ==> j > 0 && cmds[j-1] == Add(cmds[j].cutoff + window)
  }

  ghost predicate NoDrops(cmds: seq<Command>) {
    forall j :: 0 <= j < |cmds| ==> !cmds[j].Drop?
  }

  lemma {:induction false} CommandsOwnTrims(window: int, reqs: seq<Request>)
    ensures OwnedTrims(window, Commands(window, reqs))
    ensures (forall k :: 0 <= k < |reqs| ==> !reqs[k].dropped) ==> NoDrops(Commands(window, reqs))
  {
    if reqs != [] {
      CommandsOwnTrims(window, reqs[..|reqs|-1]);
    }
  }

  lemma HeldIfOutlasts(score: Rounding, window: int, skew: int, cmds: seq<Command>, i: nat, n: nat)
    requires Monotone(score) && OrderlyWithin(window, skew, cmds) && i < n < |cmds| && cmds[i].Add? && cmds[n].Card?
    requires Outlasts(score, window - skew, cmds[i].t, cmds[n].t)
    ensures cmds[i].t in After(score, cmds[..n])
  {
    hide OrderlyWithin, Monotone, Outlasts;
    var u := cmds[i].t;
    forall j | i < j < n ensures !Removes(score, cmds[..n][j], u) {
      OutlastingIsSafe(score, window, skew, cmds, j, i, n);
    }
    assert cmds[..n][i] == Add(u) && NotRemovedSince(score, cmds[..n], u, i);
    SetIsKept(score, cmds[..n]);
  }

  lemma {:induction false} LastGranted(score: Rounding, limit: int, cmds: seq<Command>, from: int, length: int, k: nat)
    returns (n: nat)
    requires k <= |cmds| && GrantedIn(score, limit, cmds, from, length) != {}
    requires forall m :: k <= m < |cmds| && GrantedAt(score, limit, cmds, m) ==> !InStretch(from, length, cmds[m].t)
    ensures n < |cmds| && GrantedAt(score, limit, cmds, n) && InStretch(from, length, cmds[n].t)
    ensures forall m :: n < m < |cmds| && GrantedAt(score, limit, cmds, m) ==> !InStretch(from, length, cmds[m].t)
  {
    hide After, InStretch;
    if k == 0 {
      assert false;
    } else if GrantedAt(score, limit, cmds, k - 1) && InStretch(from, length, cmds[k-1].t) {
      n := k - 1;
    } else {
      n := LastGranted(score, limit, cmds, from, length, k - 1);
    }
  }

  /** Whatever was let through after the first nanosecond of the stretch is still held at its last count. */
  lemma AllButFirstHeld(score: Rounding, limit: int, window: int, skew: int, cmds: seq<Command>, from: int, length: int,
                        n: nat, u: int)
    requires Monotone(score) && OrderlyWithin(window, skew, cmds) && Keeps(score, window - skew, length - 1)
    requires n < |cmds| && cmds[n].Card? && InStretch(from, length, cmds[n].t)
    requires forall m :: n < m < |cmds| && GrantedAt(score, limit, cmds, m) ==> !InStretch(from, length, cmds[m].t)
    requires u in GrantedIn(score, limit, cmds, from, length) && u != from
    ensures u in After(score, cmds[..n])
  {
    hide After;
    var m :|
      0 <= m < |cmds| && GrantedAt(score, limit, cmds, m) && InStretch(from, length, cmds[m].t) && cmds[m].t == u;
    assert m <= n && cmds[m-2] == Add(u);
    assert Outlasts(score, window - skew, u, cmds[n].t);
    hide OrderlyWithin, Keeps, Monotone;
    HeldIfOutlasts(score, window, skew, cmds, m - 2, n);
  }

  /** A count of the stretch finds its first nanosecond pruned only with the pruner's own attempt in the set. */
  lemma PrunerIsHeld(score: Rounding, window: int, skew: int, cmds: seq<Command>, from: int, length: int,
                     n: nat, i: nat)
    returns (c: int)
    requires Monotone(score) && OrderlyWithin(window, skew, cmds) && Keeps(score, window - skew, length - 1)
    requires OwnedTrims(window, cmds) && skew > 0 && (NoDrops(cmds) || length <= window - skew)
    requires i < n < |cmds| && cmds[i] == Add(from) && cmds[n].Card? && InStretch(from, length, cmds[n].t)
    requires from !in After(score, cmds[..n])
    ensures c in After(score, cmds[..n]) && c >= from + length
  {
    hide After;
    SetIsKept(score, cmds[..n]);
    assert cmds[..n][i] == Add(from) && !NotRemovedSince(score, cmds[..n], from, i);
    var j :| i < j < n && Removes(score, cmds[..n][j], from);
    assert cmds[..n][j] == cmds[j];
    assert InStepAt(window - skew, cmds[..n], cmds[n].t);
    assert cmds[j].Trim?;
    var cutoff, t := cmds[j].cutoff, cmds[n].t;
    assert cutoff <= t - (window - skew);
    assert !Outlasts(score, window - skew, from, cutoff + (window - skew));
    c := cutoff + window;
    assert Outlasts(score, window - skew, c, t);
    hide OrderlyWithin, Keeps, Monotone;
    HeldIfOutlasts(score, window, skew, cmds, j - 1, n);
  }

  lemma SwapOne(granted: set<int>, held: set<int>, gone: int, c: int)
    requires gone in granted && c !in granted && c in held
    requires forall u :: u in granted && u != gone ==> u in held
    ensures |granted| <= |held|
  {
    var swapped := granted - {gone} + {c};
    assert |swapped| == |granted|;
    forall u | u in swapped ensures u in held {
    }
    SubsetCard(swapped, held);
  }

  /** So with whole pipelines the stretch may be one nanosecond longer. */
  lemma OneLongerHolds(score: Rounding, limit: nat, window: int, skew: int, cmds: seq<Command>, from: int, length: int)
    requires Monotone(score) && OrderlyWithin(window, skew, cmds) && Keeps(score, window - skew, length - 1)
    requires OwnedTrims(window, cmds) && skew > 0 && (NoDrops(cmds) || length <= window - skew)
    ensures |GrantedIn(score, limit, cmds, from, length)| <= limit
  {
    var granted := GrantedIn(score, limit, cmds, from, length);
    if granted != {} {
      var n := LastGranted(score, limit, cmds, from, length, |cmds|);
      var z := After(score, cmds[..n]);
      assert |z.Keys| == |z| <= limit;
      forall u | u in granted && u != from ensures u in z.Keys {
        AllButFirstHeld(score, limit, window, skew, cmds, from, length, n, u);
      }
      if from in granted && from !in z.Keys {
        var i := FirstAdd(score, limit, window, skew, cmds, from, length, n);
        var c := PrunerIsHeld(score, window, skew, cmds, from, length, n, i);
        hide After, Keeps, OrderlyWithin, Monotone;
        SwapOne(granted, z.Keys, from, c);
      } else {
        hide After, Keeps, OrderlyWithin, Monotone;
        SubsetCard(granted, z.Keys);
      }
    }
  }

  lemma FirstAdd(score: Rounding, limit: int, window: int, skew: int, cmds: seq<Command>, from: int, length: int,
                 n: nat)
    returns (i: nat)
    requires OrderlyWithin(window, skew, cmds) && n < |cmds| && from in GrantedIn(score, limit, cmds, from, length)
    requires forall m :: n < m < |cmds| && GrantedAt(score, limit, cmds, m) ==> !InStretch(from, length, cmds[m].t)
    ensures i < n && cmds[i] == Add(from)
  {
    hide After;
    var m :|
      0 <= m < |cmds| && GrantedAt(score, limit, cmds, m) && InStretch(from, length, cmds[m].t) && cmds[m].t == from;
    i := m - 2;
  }

  lemma OneLongerBounds(score: Rounding, window: int, drift: nat, length: int, expiry: bool)
    requires Monotone(score) && Keeps(score, window - 2 * drift, length - 1) && drift > 0
    requires expiry ==> length <= window - 2 * drift
    ensures BoundedWithin(score, window, drift, length, expiry)
  {
    forall limit: nat, reqs, from | Permitted(window, drift, reqs, expiry)
      ensures |GrantedIn(score, limit, Commands(window, reqs), from, length)| <= limit
    {
      ClocksGiveSkew(window, drift, reqs);
      CommandsOwnTrims(window, reqs);
      hide Monotone, Keeps, OrderlyWithin, ClocksWithin, InRange, OwnedTrims, GrantedIn;
      OneLongerHolds(score, limit, window, 2 * drift, Commands(window, reqs), from, length);
    }
  }

  /** Two requests at u and u + 1, one stamped c by a fast clock, and at the same moment one by a slow clock. */
  function FastRequests(drift: int, u: int, c: int): seq<Request> {
    [Request(u, u, false), Request(u + 1, u + 1, false), Request(c - drift, c, false),
     Request(c - drift, c - 2 * drift, false)]
  }

  lemma FastCommands(window: int, drift: int, u: int, c: int)
    ensures Commands(window, FastRequests(drift, u, c))
            == Pipeline(window, u) + Pipeline(window, u + 1) + Pipeline(window, c) + Pipeline(window, c - 2 * drift)
  {
    var reqs := FastRequests(drift, u, c);
    assert reqs[..3] == [reqs[0], reqs[1], reqs[2]] && reqs[..3][..2] == [reqs[0], reqs[1]];
    assert reqs[..2][..1] == [reqs[0]] && reqs[..1][..0] == [];
    assert reqs[..3][..2] == reqs[..2] && reqs[..2][..1] == reqs[..1];
    assert Commands(window, reqs[..1]) == [] + Attempt(window, u, false);
    assert Commands(window, reqs[..2]) == Commands(window, reqs[..1]) + Attempt(window, u + 1, false);
    assert Commands(window, reqs[..3]) == Commands(window, reqs[..2]) + Attempt(window, c, false);
  }

  lemma ThreeGranted(score: Rounding, window: int, u: int, c: int, t: int)
    requires 0 <= score(u) <= score(c - window) && 0 <= score(u + 1) <= score(c - window)
    ensures var cmds := Pipeline(window, u) + Pipeline(window, u + 1) + Pipeline(window, c) + Pipeline(window, t);
            GrantedAt(score, 2, cmds, 2) && GrantedAt(score, 2, cmds, 5) && GrantedAt(score, 2, cmds, 11)
  {
    var two := Pipeline(window, u) + Pipeline(window, u + 1);
    var three := two + [Add(c), Trim(c - window)];
    var cmds := two + Pipeline(window, c) + Pipeline(window, t);
    hide After, KeepsOnly;
    FewAdds(score, cmds[..2], {u});
    FewAdds(score, cmds[..5], {u, u + 1});
    assert two[..5] == cmds[..5];
    forall x ensures !Kept(score, three, x) || x == c {
      PrunesBoth(score, window, u, c, x);
    }
    var rest := [Card(c), Add(t), Trim(t - window)];
    assert cmds[..11] == three + [rest[0]] + [rest[1]] + [rest[2]];
    forall x ensures Kept(score, cmds[..11], x) ==> x in {c, t} {
      KeptSnoc(score, three, rest[0], x);
      KeptSnoc(score, three + [rest[0]], rest[1], x);
      KeptSnoc(score, three + [rest[0]] + [rest[1]], rest[2], x);
    }
    CountsOnly(score, cmds[..11], c, t);
  }

  lemma ThreeInStretch(score: Rounding, window: int, u: int, c: int, t: int, length: int)
    requires 0 <= score(u) <= score(c - window) && 0 <= score(u + 1) <= score(c - window)
    requires u + 1 < t < u + length
    ensures var cmds := Pipeline(window, u) + Pipeline(window, u + 1) + Pipeline(window, c) + Pipeline(window, t);
            |GrantedIn(score, 2, cmds, u, length)| > 2
  {
    ThreeGranted(score, window, u, c, t);
    hide GrantedAt;
    var cmds := Pipeline(window, u) + Pipeline(window, u + 1) + Pipeline(window, c) + Pipeline(window, t);
    var granted := GrantedIn(score, 2, cmds, u, length);
    assert cmds[2].t in granted && cmds[5].t in granted && cmds[11].t in granted;
    SubsetCard({u, u + 1, t}, granted);
  }

  lemma CountsOnly(score: Rounding, cmds: seq<Command>, c: int, t: int)
    requires forall x :: Kept(score, cmds, x) ==> x == c || x == t
    ensures |After(score, cmds)| <= 2
  {
    CountsAtMost(score, cmds, {c, t});
  }

  lemma FewAdds(score: Rounding, cmds: seq<Command>, ts: set<int>)
    requires forall i :: 0 <= i < |cmds| && cmds[i].Add? ==> cmds[i].t in ts
    ensures |After(score, cmds)| <= |ts|
  {
    CountsAtMost(score, cmds, ts);
  }

  lemma PrunesBoth(score: Rounding, window: int, u: int, c: int, x: int)
    requires 0 <= score(u) <= score(c - window) && 0 <= score(u + 1) <= score(c - window)
    ensures Kept(score, Pipeline(window, u) + Pipeline(window, u + 1) + [Add(c), Trim(c - window)], x) ==> x == c
  {
    var cmds := Pipeline(window, u) + Pipeline(window, u + 1) + [Add(c), Trim(c - window)];
    assert Removes(score, cmds[7], u) && Removes(score, cmds[7], u + 1);
  }

  lemma FastPermitted(window: int, drift: nat, u: int, c: int, expiry: bool)
    requires window > 0 && TWO_60 + window <= u && c < TWO_61 && u + 1 < c - 2 * drift
    ensures Permitted(window, drift, FastRequests(drift, u, c), expiry)
  {
    FastCommands(window, drift, u, c);
    hide Commands;
  }

  /** One fast replica prunes two attempts for the one it adds: three get through a limit of two. */
  lemma FastReplicaBreaksLimit(score: Rounding, window: int, drift: nat, length: int, u: int, c: int, expiry: bool)
    requires window > 0 && drift > 0 && TWO_60 + window <= u && c < TWO_61
    requires 0 <= score(u) <= score(c - window) && 0 <= score(u + 1) <= score(c - window)
    requires u + 1 < c - 2 * drift < u + length
    ensures !BoundedWithin(score, window, drift, length, expiry)
  {
    var reqs, t := FastRequests(drift, u, c), c - 2 * drift;
    var cmds := Commands(window, reqs);
    FastCommands(window, drift, u, c);
    FastPermitted(window, drift, u, c, expiry);
    ThreeInStretch(score, window, u, c, t, length);
    hide GrantedIn, Commands, Permitted, FastRequests;
    assert Permitted(window, drift, reqs, expiry) && |GrantedIn(score, 2, cmds, u, length)| > 2;
  }

  /** With exact scores and a key that is never idle, the limit holds for one nanosecond more, and no longer. */
  lemma UnexpiredExactIff(window: int, drift: nat, length: int)
    requires 0 < drift && 2 * drift < window < TWO_60 / 4
    ensures BoundedWithin(Exact, window, drift, length, false) <==> length <= window - 2 * drift + 1
  {
    if length <= window - 2 * drift + 1 {
      ExactKeeps(window - 2 * drift, length - 1);
      OneLongerBounds(Exact, window, drift, length, false);
    } else {
      FastReplicaBreaksLimit(Exact, window, drift, length, MIDDLE, MIDDLE + 1 + window, false);
    }
  }

  // ----- Float64 scores

  /** Two requests of one clock, the first pruned by the second through rounding. */
  lemma RoundingPassesLimitOne(window: int, length: int)
    requires 256 < window < TWO_60 / 4 && length > Max(1, window - 256)
    ensures !BoundedWithin(Round256, window, 0, length, true)
  {
    var u := MIDDLE + 128;
    var t := u + Max(1, window - 256);
    var reqs := [Request(u, u, false), Request(t, t, false)];
    var cmds := Commands(window, reqs);
    assert reqs[..1] == [reqs[0]] && [reqs[0]][..0] == [];
    assert Commands(window, [reqs[0]]) == [] + Attempt(window, u, false);
    assert cmds == Pipeline(window, u) + Pipeline(window, t);
    Round256Ties(t - window);
    hide Commands, Round256, GrantedIn;
    BothAfterPrune(Round256, window, u, t, length);
    assert Permitted(window, 0, reqs, true) && |GrantedIn(Round256, 1, cmds, u, length)| > 1;
  }

  lemma BothAfterPrune(score: Rounding, window: int, u: int, t: int, length: int)
    requires u < t < u + length && 0 <= score(u) <= score(t - window)
    ensures |GrantedIn(score, 1, Pipeline(window, u) + Pipeline(window, t), u, length)| > 1
  {
    var cmds := Pipeline(window, u) + Pipeline(window, t);
    CountsAtMost(score, cmds[..2], {u});
    assert Removes(score, cmds[..5][4], u);
    CountsAtMost(score, cmds[..5], {t});
    hide After, GrantedIn;
    TwoInStretch(score, cmds, 2, 5, length);
  }

  /**
   With float64 scores the limit holds over stretches of up to window - 256 ns with clocks that
   agree with Redis's, of up to window - 255 ns - twice the drift with clocks that do not, and
   over no longer ones.
   */
  lemma ClockedFloat64Iff(window: int, drift: nat, length: int)
    requires 2 * drift + 257 < window < TWO_60 / 4
    ensures BoundedWithin(Round256, window, drift, length, true) <==>
            length <= window - 2 * drift - (if drift == 0 then 256 else 255)
  {
    if drift == 0 {
      Float64BoundIff(window, 0, length);
      if length <= window - 256 {
        SkewBounds(Round256, window, 0, length, true);
      } else {
        RoundingPassesLimitOne(window, length);
      }
    } else if length <= window - 2 * drift - 255 {
      Round256Keeps(window - 2 * drift, length - 1);
      OneLongerBounds(Round256, window, drift, length, true);
    } else {
      var c := MIDDLE - 128 + window;
      Round256Ties(c - window);
      FastReplicaBreaksLimit(Round256, window, drift, length, MIDDLE + 127, c, true);
    }
  }
}
