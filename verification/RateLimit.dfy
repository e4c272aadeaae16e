/**
 The sliding-window limiter of pkg/middleware, command by command: a sorted set per key that
 several replicas add to, prune and count, in any interleaving and with clocks that need not
 agree. What the set holds in general, exactly when that is the plain window, and the limiter
 that talks to it. Scores are what float64 makes of nanosecond times; any rounding is allowed.
 */
module RateLimit {
  import opened Options

  /** Sorted set: member (a timestamp) to score. */
  type ZSet = map<int, int>

  type Rounding = int -> int

  ghost predicate Monotone(score: Rounding) {
    score(0) >= 0 && forall x, y :: x <= y ==> score(x) <= score(y)
  }

  /** What reaches Redis for one key. `Card` is tagged with its attempt; `Drop` is the key's expiry. */
  datatype Command = Add(t: int) | Trim(cutoff: int) | Card(t: int) | Drop

  /** ZREMRANGEBYSCORE key 0 cut. */
  function Prune(z: ZSet, cut: int): ZSet {
    map m | m in z && !(0 <= z[m] <= cut) :: z[m]
  }

  function Apply(score: Rounding, z: ZSet, c: Command): ZSet {
    match c
    case Add(t) => z[t := score(t)]
    case Trim(cutoff) => Prune(z, score(cutoff))
    case Card(_) => z
    case Drop => map[]
  }

  /** The set after the given commands. */
  function After(score: Rounding, cmds: seq<Command>): ZSet {
    if cmds == [] then map[] else Apply(score, After(score, cmds[..|cmds|-1]), cmds[|cmds|-1])
  }

  // ----- What the set holds, for any clocks and any interleaving

  predicate Removes(score: Rounding, c: Command, t: int) {
    c.Drop? || (c.Trim? && 0 <= score(t) <= score(c.cutoff))
  }

  ghost predicate NotRemovedSince(score: Rounding, cmds: seq<Command>, t: int, i: int) {
    forall j :: i < j < |cmds| && 0 <= j ==> !Removes(score, cmds[j], t)
  }

  /** The attempt was added, and since then no expiry and no cutoff at or above its score. */
  ghost predicate Kept(score: Rounding, cmds: seq<Command>, t: int) {
    exists i :: 0 <= i < |cmds| && cmds[i] == Add(t) && NotRemovedSince(score, cmds, t, i)
  }

  lemma KeptSnoc(score: Rounding, cmds: seq<Command>, c: Command, t: int)
    ensures Kept(score, cmds + [c], t) <==> c == Add(t) || (Kept(score, cmds, t) && !Removes(score, c, t))
  {
    var cmds' := cmds + [c];
    assert cmds'[|cmds|] == c;
    if c == Add(t) {
      assert NotRemovedSince(score, cmds', t, |cmds|);
    } else if Kept(score, cmds', t) {
      var i :| 0 <= i < |cmds'| && cmds'[i] == Add(t) && NotRemovedSince(score, cmds', t, i);
      assert cmds[i] == Add(t) && !Removes(score, cmds'[|cmds|], t);
      assert NotRemovedSince(score, cmds, t, i) by {
        assert forall j :: 0 <= j < |cmds| ==> cmds[j] == cmds'[j];
      }
    } else if Kept(score, cmds, t) && !Removes(score, c, t) {
      var i :| 0 <= i < |cmds| && cmds[i] == Add(t) && NotRemovedSince(score, cmds, t, i);
      assert cmds'[i] == Add(t) && NotRemovedSince(score, cmds', t, i);
    }
  }

  /** The set holds exactly the attempts whose score lies above every cutoff applied since they were added. */
  lemma {:induction false} SetIsKept(score: Rounding, cmds: seq<Command>)
    ensures var z := After(score, cmds);
            && (forall t :: t in z <==> Kept(score, cmds, t))
            && (forall t :: t in z ==> z[t] == score(t))
  {
    if cmds != [] {
      var before, c := cmds[..|cmds|-1], cmds[|cmds|-1];
      assert cmds == before + [c];
      SetIsKept(score, before);
      var z, z' := After(score, before), After(score, cmds);
      hide Kept, After;
      forall t ensures t in z' <==> Kept(score, cmds, t) {
        KeptSnoc(score, before, c, t);
      }
    }
  }

  // ----- The plain reading: the attempts above a cutoff

  ghost predicate Added(cmds: seq<Command>, t: int) {
    exists i :: 0 <= i < |cmds| && cmds[i] == Add(t)
  }

  /** The distinct attempts so far, allowed or not, whose score lies above the cutoff's. */
  ghost function Window(score: Rounding, cmds: seq<Command>, cutoff: int): set<int> {
    set i | 0 <= i < |cmds| && cmds[i].Add? && score(cmds[i].t) > score(cutoff) :: cmds[i].t
  }

  /** The j-th command took an attempt out of the present window too early, and it was not made again. */
  ghost predicate Overtakes(score: Rounding, cmds: seq<Command>, cutoff: int, j: nat) {
    j < |cmds| && exists i :: 0 <= i < j && cmds[i].Add? && score(cmds[i].t) > score(cutoff)
                              && Removes(score, cmds[j], cmds[i].t) && !Added(cmds[j..], cmds[i].t)
  }

  lemma {:induction false} LastAdd(cmds: seq<Command>, t: int) returns (i: nat)
    requires Added(cmds, t)
    ensures i < |cmds| && cmds[i] == Add(t) && forall k :: i < k < |cmds| ==> cmds[k] != Add(t)
  {
    var n := |cmds| - 1;
    if cmds[n] == Add(t) {
      i := n;
    } else {
      var k :| 0 <= k < |cmds| && cmds[k] == Add(t);
      assert cmds[..n][k] == Add(t);
      i := LastAdd(cmds[..n], t);
    }
  }

  /** An attempt in the window that the set has lost was overtaken. */
  lemma LostWasOvertaken(score: Rounding, cmds: seq<Command>, cutoff: int, t: int) returns (j: nat)
    requires Added(cmds, t) && score(t) > score(cutoff) && !Kept(score, cmds, t)
    ensures Overtakes(score, cmds, cutoff, j)
  {
    var i := LastAdd(cmds, t);
    assert !NotRemovedSince(score, cmds, t, i);
    j :| i < j < |cmds| && Removes(score, cmds[j], t);
    assert !Added(cmds[j..], t) by {
      assert forall k :: 0 <= k < |cmds[j..]| ==> cmds[j..][k] == cmds[j+k];
    }
    assert cmds[i].t == t;
  }

  lemma OvertakenIsLost(score: Rounding, cmds: seq<Command>, cutoff: int, j: nat) returns (t: int)
    requires Overtakes(score, cmds, cutoff, j)
    ensures t in Window(score, cmds, cutoff) && !Kept(score, cmds, t)
  {
    var i :| 0 <= i < j && cmds[i].Add? && score(cmds[i].t) > score(cutoff)
             && Removes(score, cmds[j], cmds[i].t) && !Added(cmds[j..], cmds[i].t);
    t := cmds[i].t;
    assert forall k :: j <= k < |cmds| ==> cmds[k] == cmds[j..][k-j];
  }

  ghost predicate NonNegative(score: Rounding, cmds: seq<Command>) {
    forall i :: 0 <= i < |cmds| && cmds[i].Add? ==> score(cmds[i].t) >= 0
  }

  /** What a client's own trim leaves is the part of the set above its cutoff. */
  lemma TrimmedKeys(score: Rounding, cmds: seq<Command>, cutoff: int, t: int)
    requires NonNegative(score, cmds)
    ensures t in After(score, cmds + [Trim(cutoff)]) <==> Kept(score, cmds, t) && score(t) > score(cutoff)
  {
    SetIsKept(score, cmds + [Trim(cutoff)]);
    KeptSnoc(score, cmds, Trim(cutoff), t);
    if Kept(score, cmds, t) {
      var i :| 0 <= i < |cmds| && cmds[i] == Add(t) && NotRemovedSince(score, cmds, t, i);
      assert score(cmds[i].t) >= 0;
    }
  }

  /**
   After a client's own trim the set is the window of its cutoff exactly when no command
   overtook it: no later and higher cutoff, and no expiry, took an attempt out of the window.
   */
  lemma SetIsWindowIff(score: Rounding, cmds: seq<Command>, cutoff: int)
    requires NonNegative(score, cmds)
    ensures After(score, cmds + [Trim(cutoff)]).Keys == Window(score, cmds, cutoff) <==>
            forall j: nat :: !Overtakes(score, cmds, cutoff, j)
  {
    var z, w := After(score, cmds + [Trim(cutoff)]), Window(score, cmds, cutoff);
    forall t ensures t in z <==> Kept(score, cmds, t) && score(t) > score(cutoff) {
      TrimmedKeys(score, cmds, cutoff, t);
    }
    hide After, Overtakes, NonNegative;
    if j: nat :| Overtakes(score, cmds, cutoff, j) {
      var t := OvertakenIsLost(score, cmds, cutoff, j);
      assert t in w && t !in z.Keys;
    } else {
      forall t ensures t in z.Keys <==> t in w {
        if t in w && !Kept(score, cmds, t) {
          assert Added(cmds, t);
          var j := LostWasOvertaken(score, cmds, cutoff, t);
        }
      }
    }
  }

  // ----- One clock, commands in its order

  /** The commands of one attempt at time `now`. */
  function Pipeline(window: int, now: int): (cmds: seq<Command>)
    ensures |cmds| == 3
  {
    [Add(now), Trim(now - window), Card(now)]
  }

  /** Each count follows its own trim, after its own add. */
  ghost predicate OwnTrims(window: int, cmds: seq<Command>) {
    forall n :: 0 <= n < |cmds| && cmds[n].Card? ==>
      n >= 2 && cmds[n-1] == Trim(cmds[n].t - window) && cmds[n-2] == Add(cmds[n].t)
  }

  /**
   For a count at time `now`: nobody has trimmed by more than a window before `now`, and the
   key expired only after a window of rest.
   */
  ghost predicate InStepAt(window: int, cmds: seq<Command>, now: int) {
    forall i, j :: 0 <= i < j < |cmds| && cmds[i].Add? ==>
      && (cmds[j].Trim? ==> cmds[j].cutoff <= now - window)
      && (cmds[j].Drop? ==> cmds[i].t <= now - window)
  }

  ghost predicate InStep(window: int, cmds: seq<Command>) {
    forall n :: 0 <= n < |cmds| && cmds[n].Card? ==> InStepAt(window, cmds[..n], cmds[n].t)
  }

  /** Attempts are made after the epoch. */
  ghost predicate AfterEpoch(cmds: seq<Command>) {
    forall i :: 0 <= i < |cmds| && cmds[i].Add? ==> cmds[i].t >= 0
  }

  /** No count comes after a trim, or an expiry, by a clock more than `skew` ahead of its own. */
  ghost predicate OrderlyWithin(window: int, skew: int, cmds: seq<Command>) {
    OwnTrims(window, cmds) && InStep(window - skew, cmds) && AfterEpoch(cmds)
  }

  /** One clock. */
  ghost predicate Orderly(window: int, cmds: seq<Command>) {
    OrderlyWithin(window, 0, cmds)
  }

  /** In order, nothing in the window of a count was overtaken. */
  lemma OrderlyNotOvertaken(score: Rounding, window: int, cmds: seq<Command>, n: nat, j: nat)
    requires Monotone(score) && Orderly(window, cmds) && n < |cmds| && cmds[n].Card?
    ensures !Overtakes(score, cmds[..n-1], cmds[n].t - window, j)
  {
    var past, cutoff := cmds[..n-1], cmds[n].t - window;
    assert InStepAt(window, cmds[..n], cmds[n].t);
    forall i | 0 <= i < j < |past| && past[i].Add? && score(past[i].t) > score(cutoff)
      ensures !Removes(score, past[j], past[i].t)
    {
      assert past[i] == cmds[..n][i] && past[j] == cmds[..n][j];
    }
  }

  /**
   With one clock the count of every attempt is that of its window over the whole history of
   the key, pruned or not, expired or not.
   */
  lemma OrderlyCountsWindow(score: Rounding, window: int, cmds: seq<Command>, n: nat)
    requires Monotone(score) && Orderly(window, cmds) && n < |cmds| && cmds[n].Card?
    ensures After(score, cmds[..n]).Keys == Window(score, cmds[..n], cmds[n].t - window)
  {
    var past, cutoff := cmds[..n-1], cmds[n].t - window;
    assert cmds[..n] == past + [Trim(cutoff)];
    forall j: nat ensures !Overtakes(score, past, cutoff, j) {
      OrderlyNotOvertaken(score, window, cmds, n, j);
    }
    assert NonNegative(score, past) by {
      assert forall i :: 0 <= i < |past| ==> past[i] == cmds[i];
    }
    hide Orderly, Overtakes, After;
    SetIsWindowIff(score, past, cutoff);
    assert Window(score, past + [Trim(cutoff)], cutoff) == Window(score, past, cutoff) by {
      WindowSnoc(score, past, Trim(cutoff), cutoff);
    }
  }

  lemma WindowSnoc(score: Rounding, cmds: seq<Command>, c: Command, cutoff: int)
    ensures Window(score, cmds + [c], cutoff)
            == Window(score, cmds, cutoff) + if c.Add? && score(c.t) > score(cutoff) then {c.t} else {}
  {
    var cmds' := cmds + [c];
    assert cmds'[|cmds|] == c;
    var w, w' := Window(score, cmds, cutoff), Window(score, cmds', cutoff);
    forall t | t in w ensures t in w' {
      var i :| 0 <= i < |cmds| && cmds[i].Add? && score(cmds[i].t) > score(cutoff) && cmds[i].t == t;
      assert cmds'[i] == cmds[i];
    }
  }

  /** An attempt's pipeline, perhaps on a key that has just expired. */
  function Attempt(window: int, now: int, dropped: bool): seq<Command> {
    (if dropped then [Drop] else []) + Pipeline(window, now)
  }

  ghost predicate MayFollow(window: int, skew: int, cmds: seq<Command>, c: Command) {
    && (c.Add? ==> c.t >= 0)
    && (c.Card? ==> |cmds| >= 2 && cmds[|cmds|-1] == Trim(c.t - window) && cmds[|cmds|-2] == Add(c.t))
    && (c.Card? ==> InStepAt(window - skew, cmds, c.t))
  }

  lemma StepsSnoc(window: int, cmds: seq<Command>, c: Command)
    requires InStep(window, cmds) && (c.Card? ==> InStepAt(window, cmds, c.t))
    ensures InStep(window, cmds + [c])
  {
    var cmds' := cmds + [c];
    hide InStepAt;
    forall n | 0 <= n < |cmds'| && cmds'[n].Card? ensures InStepAt(window, cmds'[..n], cmds'[n].t) {
      if n < |cmds| {
        assert cmds'[..n] == cmds[..n] && cmds'[n] == cmds[n];
      } else {
        assert cmds'[..n] == cmds && cmds'[n] == c;
      }
    }
  }

  lemma OrderlySnoc(window: int, skew: int, cmds: seq<Command>, c: Command)
    requires OrderlyWithin(window, skew, cmds) && MayFollow(window, skew, cmds, c)
    ensures OrderlyWithin(window, skew, cmds + [c])
  {
    StepsSnoc(window - skew, cmds, c);
    OwnTrimsSnoc(window, cmds, c);
    hide InStep, InStepAt, OwnTrims;
    assert forall n :: 0 <= n < |cmds| ==> (cmds + [c])[n] == cmds[n];
  }

  lemma OwnTrimsSnoc(window: int, cmds: seq<Command>, c: Command)
    requires OwnTrims(window, cmds)
    requires c.Card? ==> |cmds| >= 2 && cmds[|cmds|-1] == Trim(c.t - window) && cmds[|cmds|-2] == Add(c.t)
    ensures OwnTrims(window, cmds + [c])
  {
    var cmds' := cmds + [c];
    forall n | 0 <= n < |cmds'| && cmds'[n].Card?
      ensures n >= 2 && cmds'[n-1] == Trim(cmds'[n].t - window) && cmds'[n-2] == Add(cmds'[n].t)
    {
      assert n < |cmds| ==> cmds'[n] == cmds[n];
    }
  }

  lemma InStepSnoc(window: int, cmds: seq<Command>, now: int, c: Command)
    requires InStepAt(window, cmds, now) && (c.Trim? ==> c.cutoff <= now - window)
    requires c.Drop? ==> forall i :: 0 <= i < |cmds| && cmds[i].Add? ==> cmds[i].t <= now - window
    ensures InStepAt(window, cmds + [c], now)
  {
    assert forall i :: 0 <= i < |cmds| ==> (cmds + [c])[i] == cmds[i];
  }

  lemma PipelineKeepsOrder(window: int, skew: nat, cmds: seq<Command>, now: int)
    requires OrderlyWithin(window, skew, cmds) && InStepAt(window - skew, cmds, now) && now >= 0
    ensures OrderlyWithin(window, skew, cmds + Pipeline(window, now))
  {
    hide OrderlyWithin, InStepAt;
    var added := cmds + [Add(now)];
    var trimmed := added + [Trim(now - window)];
    OrderlySnoc(window, skew, cmds, Add(now));
    InStepSnoc(window - skew, cmds, now, Add(now));
    OrderlySnoc(window, skew, added, Trim(now - window));
    InStepSnoc(window - skew, added, now, Trim(now - window));
    OrderlySnoc(window, skew, trimmed, Card(now));
    assert trimmed + [Card(now)] == cmds + Pipeline(window, now);
  }

  /** The last count was made no later than `now`, and if the key expired then a window after all attempts. */
  ghost predicate NextInOrder(window: int, cmds: seq<Command>, now: int, dropped: bool) {
    && now >= 0
    && (cmds == [] || (cmds[|cmds|-1].Card? && cmds[|cmds|-1].t <= now))
    && (dropped ==> forall i :: 0 <= i < |cmds| && cmds[i].Add? ==> cmds[i].t + window <= now)
  }

  lemma NextIsInStep(window: int, cmds: seq<Command>, now: int, dropped: bool)
    requires Orderly(window, cmds) && NextInOrder(window, cmds, now, dropped)
    ensures InStepAt(window, cmds, now)
  {
    if cmds != [] {
      var n := |cmds| - 1;
      assert InStepAt(window, cmds[..n], cmds[n].t);
      assert forall i :: 0 <= i < n ==> cmds[..n][i] == cmds[i];
    }
  }

  /** Whole pipelines with one clock that does not run back keep the history in order. */
  lemma AttemptKeepsOrder(window: int, cmds: seq<Command>, now: int, dropped: bool)
    requires Orderly(window, cmds) && NextInOrder(window, cmds, now, dropped)
    ensures Orderly(window, cmds + Attempt(window, now, dropped))
  {
    NextIsInStep(window, cmds, now, dropped);
    hide OrderlyWithin, InStepAt;
    if dropped {
      OrderlySnoc(window, 0, cmds, Drop);
      InStepSnoc(window, cmds, now, Drop);
      PipelineKeepsOrder(window, 0, cmds + [Drop], now);
      assert cmds + [Drop] + Pipeline(window, now) == cmds + Attempt(window, now, true);
    } else {
      PipelineKeepsOrder(window, 0, cmds, now);
      assert cmds + Pipeline(window, now) == cmds + Attempt(window, now, false);
    }
  }

  /** Of an attempt's commands only the add matters to the window. */
  lemma WindowOfAttempt(score: Rounding, window: int, cmds: seq<Command>, now: int, dropped: bool)
    ensures var cmds' := cmds + Attempt(window, now, dropped);
            Window(score, cmds'[..|cmds'|-1], now - window) == Window(score, cmds + [Add(now)], now - window)
  {
    hide Window;
    var cmds', started := cmds + Attempt(window, now, dropped), cmds + if dropped then [Drop] else [];
    assert cmds'[..|cmds'|-1] == started + [Add(now)] + [Trim(now - window)];
    WindowSnoc(score, started + [Add(now)], Trim(now - window), now - window);
    WindowSnoc(score, started, Add(now), now - window);
    WindowSnoc(score, cmds, Add(now), now - window);
    if dropped {
      WindowSnoc(score, cmds, Drop, now - window);
    } else {
      assert started == cmds;
    }
  }

  /** What the attempt at `now` counts, whether or not the key had expired. */
  lemma AttemptCountsWindow(score: Rounding, window: int, cmds: seq<Command>, now: int, dropped: bool)
    requires Monotone(score) && Orderly(window, cmds) && NextInOrder(window, cmds, now, dropped)
    ensures var cmds' := cmds + Attempt(window, now, dropped);
            After(score, cmds'[..|cmds'|-1]).Keys == Window(score, cmds + [Add(now)], now - window)
  {
    hide Orderly, After, Monotone, Window, NextInOrder;
    AttemptKeepsOrder(window, cmds, now, dropped);
    WindowOfAttempt(score, window, cmds, now, dropped);
    var cmds' := cmds + Attempt(window, now, dropped);
    assert cmds'[|cmds'|-1] == Card(now);
    OrderlyCountsWindow(score, window, cmds', |cmds'| - 1);
  }

  // ----- The limiter

  /** Some count of the attempt at time t was within the limit. */
  ghost predicate Grants(score: Rounding, limit: int, cmds: seq<Command>, t: int) {
    exists n :: 0 <= n < |cmds| && cmds[n] == Card(t) && |After(score, cmds[..n])| <= limit
  }

  lemma GrantsStay(score: Rounding, limit: int, cmds: seq<Command>, more: seq<Command>, t: int)
    requires Grants(score, limit, cmds, t)
    ensures Grants(score, limit, cmds + more, t)
  {
    var n :| 0 <= n < |cmds| && cmds[n] == Card(t) && |After(score, cmds[..n])| <= limit;
    assert (cmds + more)[n] == Card(t) && (cmds + more)[..n] == cmds[..n];
  }

  lemma GrantsNow(score: Rounding, limit: int, cmds: seq<Command>, t: int)
    requires |After(score, cmds)| <= limit
    ensures Grants(score, limit, cmds + [Card(t)], t)
  {
    assert (cmds + [Card(t)])[|cmds|] == Card(t) && (cmds + [Card(t)])[..|cmds|] == cmds;
  }

  /** How the pipeline fared: answered, or an error after some of its commands were applied. */
  datatype RedisFate = Answered | Lost(applied: nat)

  datatype RedisError = RedisError

  /** The first n commands of an attempt, each after what others did in the gap before it. */
  function Sent(window: int, now: int, gap: nat -> seq<Command>, n: nat): seq<Command>
    requires n <= 3
  {
    if n == 0 then [] else Sent(window, now, gap, n - 1) + gap(n - 1) + [Pipeline(window, now)[n-1]]
  }

  /** How many of the three commands were applied. */
  function Applied(fate: RedisFate): (n: nat)
    ensures fate == Answered ==> n == 3
    ensures fate.Lost? ==> n <= 3 && n <= fate.applied && (n < fate.applied ==> n == 3)
  {
    if fate.Answered? || fate.applied > 3 then 3 else fate.applied
  }

  ghost predicate AllKept(score: Rounding, cmds: seq<Command>, held: set<int>) {
    forall t :: t in held <==> Kept(score, cmds, t)
  }

  /** The count is that of the distinct attempts kept. */
  ghost predicate CountIs(score: Rounding, cmds: seq<Command>, count: nat) {
    exists held: set<int> :: AllKept(score, cmds, held) && count == |held|
  }

  /** Nobody else's commands come between those of the attempt; the key may have expired before it. */
  ghost predicate Whole(gap: nat -> seq<Command>) {
    (gap(0) == [] || gap(0) == [Drop]) && gap(1) == [] && gap(2) == []
  }

  lemma EmptySet(score: Rounding)
    ensures After(score, []) == map[]
  {
  }

  lemma CountOfSet(score: Rounding, cmds: seq<Command>)
    ensures CountIs(score, cmds, |After(score, cmds)|)
  {
    SetIsKept(score, cmds);
    var z := After(score, cmds);
    assert |z.Keys| == |z|;
    assert AllKept(score, cmds, z.Keys);
  }

  lemma SentNext(window: int, now: int, gap: nat -> seq<Command>, past: seq<Command>, n: nat)
    requires n < 3
    ensures past + Sent(window, now, gap, 0) == past
    ensures past + Sent(window, now, gap, n + 1)
            == past + Sent(window, now, gap, n) + gap(n) + [Pipeline(window, now)[n]]
  {
    assert Sent(window, now, gap, n + 1) == Sent(window, now, gap, n) + gap(n) + [Pipeline(window, now)[n]];
  }

  lemma SentAll(window: int, now: int, gap: nat -> seq<Command>, past: seq<Command>)
    ensures past + Sent(window, now, gap, 3) == past + Sent(window, now, gap, 2) + gap(2) + [Card(now)]
    ensures Sent(window, now, gap, 2) == gap(0) + [Add(now)] + gap(1) + [Trim(now - window)]
  {
    assert Sent(window, now, gap, 1) == gap(0) + [Add(now)];
  }

  lemma WholeCounts(score: Rounding, window: int, past: seq<Command>, now: int, gap: nat -> seq<Command>)
    requires Monotone(score) && Whole(gap) && Orderly(window, past) && NextInOrder(window, past, now, gap(0) != [])
    ensures Orderly(window, past + Sent(window, now, gap, 3))
    ensures |After(score, past + Sent(window, now, gap, 2) + gap(2))|
            == |Window(score, past + [Add(now)], now - window)|
  {
    hide Monotone, Orderly, After, NextInOrder;
    var dropped := gap(0) != [];
    AttemptKeepsOrder(window, past, now, dropped);
    AttemptCountsWindow(score, window, past, now, dropped);
    var whole := past + Attempt(window, now, dropped);
    SentAll(window, now, gap, past);
    assert Sent(window, now, gap, 3) == gap(0) + Pipeline(window, now) == Attempt(window, now, dropped);
    assert whole[..|whole|-1] == past + Sent(window, now, gap, 2) + gap(2);
    var z := After(score, past + Sent(window, now, gap, 2) + gap(2));
    assert |z.Keys| == |z|;
  }

  // ----- Keys

  /** The Redis key of one identity under a limiter's prefix. */
  function KeyOf(prefix: string, identity: string): string {
    prefix + ":" + identity
  }

  /** Under one prefix, no two identities share a key. */
  lemma KeysApart(prefix: string, a: string, b: string)
    ensures KeyOf(prefix, a) == KeyOf(prefix, b) <==> a == b
  {
    assert KeyOf(prefix, a)[|prefix| + 1..] == a && KeyOf(prefix, b)[|prefix| + 1..] == b;
  }

  /** Two limiters can share a key exactly when one's prefix, colon included, begins the other's. */
  lemma PrefixesShareIff(p: string, q: string)
    ensures (exists a: string, b: string :: KeyOf(p, a) == KeyOf(q, b)) <==> p + ":" <= q + ":" || q + ":" <= p + ":"
  {
    if p + ":" <= q + ":" {
      assert KeyOf(p, (q + ":")[|p| + 1..]) == q + ":" == KeyOf(q, "");
    }
    if q + ":" <= p + ":" {
      assert KeyOf(q, (p + ":")[|q| + 1..]) == p + ":" == KeyOf(p, "");
    }
    if a: string, b: string :| KeyOf(p, a) == KeyOf(q, b) {
      assert p + ":" == KeyOf(p, a)[..|p| + 1] && q + ":" == KeyOf(p, a)[..|q| + 1];
    }
  }

  /** One limiter and the Redis it shares with other replicas of the service. */
  class SlidingWindow {
    const limit: int
    const window: int
    const prefix: string
    const score: Rounding
    var keys: map<string, ZSet>
    /** History: the commands each key has seen, from all replicas, and the times this limiter let through. */
    ghost var history: map<string, seq<Command>>
    ghost var granted: map<string, set<int>>

    ghost predicate Valid()
      reads this
    {
      && keys.Keys == history.Keys && granted.Keys <= history.Keys
      && (forall k :: k in keys ==> keys[k] == After(score, history[k]))
      && (forall k, t :: k in granted && t in granted[k] ==> Grants(score, limit, history[k], t))
    }

    constructor (limit: int, window: int, prefix: string, score: Rounding)
      ensures Valid() && this.limit == limit && this.window == window && this.prefix == prefix && this.score == score
      ensures history == map[] && granted == map[]
    {
      this.limit, this.window, this.prefix, this.score := limit, window, prefix, score;
      keys, history, granted := map[], map[], map[];
    }

    function Key(identity: string): string {
      KeyOf(prefix, identity)
    }

    /** What Redis holds under a key. */
    ghost function Held(key: string): ZSet
      reads this
    {
      if key in keys then keys[key] else map[]
    }

    ghost function History(key: string): seq<Command>
      reads this
    {
      if key in history then history[key] else []
    }

    ghost function Granted(key: string): set<int>
      reads this
    {
      if key in granted then granted[key] else {}
    }

    /** Redis holds what the commands on the key have left. */
    lemma HeldIsLeft()
      requires Valid()
      ensures forall k: string :: Held(k) == After(score, History(k))
    {
      EmptySet(score);
    }

    lemma OthersApart(identity: string)
      ensures forall i: string :: i != identity ==> Key(i) != Key(identity)
    {
      forall i: string | i != identity ensures Key(i) != Key(identity) {
        KeysApart(prefix, i, identity);
      }
    }

    /** Redis applies one command to a key. */
    method Do(key: string, c: Command)
      requires Valid()
      modifies this`keys, this`history
      ensures Valid() && history == old(history)[key := old(History(key)) + [c]]
    {
      var zset := if key in keys then keys[key] else map[];
      assert (History(key) + [c])[..|History(key)|] == History(key);
      forall t | t in Granted(key) ensures Grants(score, limit, History(key) + [c], t) {
        GrantsStay(score, limit, History(key), [c], t);
      }
      keys, history := keys[key := Apply(score, zset, c)], history[key := History(key) + [c]];
    }

    /** The other replicas' commands on the key, and its expiry. */
    method Others(key: string, cmds: seq<Command>)
      requires Valid()
      modifies this`keys, this`history
      ensures Valid() && History(key) == old(History(key)) + cmds
      ensures forall k :: k != key ==> History(k) == old(History(k))
    {
      hide Valid;
      for i := 0 to |cmds|
        invariant Valid() && History(key) == old(History(key)) + cmds[..i]
        invariant forall k :: k != key ==> History(k) == old(History(k))
      {
        assert cmds[..i+1] == cmds[..i] + [cmds[i]];
        Do(key, cmds[i]);
      }
      assert cmds[..|cmds|] == cmds;
    }

    /** One command of ours, after what others did in the gap before it; `count` is what ZCARD would say. */
    method Turn(key: string, gap: seq<Command>, c: Command) returns (count: nat)
      requires Valid()
      modifies this`keys, this`history
      ensures Valid() && History(key) == old(History(key)) + gap + [c]
      ensures forall k :: k != key ==> History(k) == old(History(k))
      ensures count == |After(score, old(History(key)) + gap)|
    {
      hide After, Grants, Apply;
      Others(key, gap);
      EmptySet(score);
      count := if key in keys then |keys[key]| else 0;
      Do(key, c);
    }

    /** pipe.Exec: the first n commands of the attempt are applied; the last of three counts the set. */
    method Exec(key: string, now: int, gap: nat -> seq<Command>, n: nat) returns (count: nat)
      requires Valid() && n <= 3
      modifies this`keys, this`history
      ensures Valid() && History(key) == old(History(key)) + Sent(window, now, gap, n)
      ensures forall k :: k != key ==> History(k) == old(History(k))
      ensures n > 0 ==> count == |After(score, old(History(key)) + Sent(window, now, gap, n - 1) + gap(n - 1))|
    {
      hide Valid, After, Pipeline, Sent;
      ghost var past := History(key);
      count := 0;
      SentNext(window, now, gap, past, 0);
      for i := 0 to n
        invariant Valid() && History(key) == past + Sent(window, now, gap, i)
        invariant forall k :: k != key ==> History(k) == old(History(k))
        invariant i > 0 ==> count == |After(score, past + Sent(window, now, gap, i - 1) + gap(i - 1))|
      {
        SentNext(window, now, gap, past, i);
        count := Turn(key, gap(i), Pipeline(window, now)[i]);
      }
    }

    /** Keeps in mind that the attempt was let through. */
    ghost method Record(key: string, counted: seq<Command>, now: int)
      requires Valid() && History(key) == counted + [Card(now)] && |After(score, counted)| <= limit
      modifies this`granted
      ensures Valid() && granted == old(granted)[key := old(Granted(key)) + {now}]
    {
      hide After, Grants;
      GrantsNow(score, limit, counted, now);
      granted := granted[key := Granted(key) + {now}];
    }

    /**
     One attempt at time `now`, its commands interleaved with those of other replicas. The count
     is the number of attempts still kept by then; if the pipelines are whole and the clock is
     one, it is the number in the window over the whole history of the key.
     */
    method Allow(identity: string, now: int, gap: nat -> seq<Command>, fate: RedisFate)
      returns (res: Result<(bool, nat), RedisError>)
      requires Valid()
      modifies this
      ensures Valid()
      ensures History(Key(identity)) == old(History(Key(identity))) + Sent(window, now, gap, Applied(fate))
      ensures forall k :: k != Key(identity) ==> History(k) == old(History(k))
      ensures forall i: string :: i != identity ==>
                && History(Key(i)) == old(History(Key(i))) && Held(Key(i)) == old(Held(Key(i)))
                && Granted(Key(i)) == old(Granted(Key(i)))
      ensures res.Ok? <==> fate == Answered
      ensures res.Ok? ==> CountIs(score, old(History(Key(identity))) + Sent(window, now, gap, 2) + gap(2), res.value.1)
                          && res.value.0 == (res.value.1 <= limit)
      ensures res.Ok? && Monotone(score) && Whole(gap) && Orderly(window, old(History(Key(identity))))
              && NextInOrder(window, old(History(Key(identity))), now, gap(0) != []) ==>
                && Orderly(window, History(Key(identity)))
                && res.value.1 == |Window(score, old(History(Key(identity))) + [Add(now)], now - window)|
      ensures granted == if res.Ok? && res.value.0
                         then old(granted)[Key(identity) := old(Granted(Key(identity))) + {now}]
                         else old(granted)
    {
      hide After, Grants, Orderly, Monotone, NextInOrder, Window, Whole, CountIs, Sent, Valid;
      var key := Key(identity);
      ghost var past := History(key);
      OthersApart(identity);
      HeldIsLeft();
      var count := Exec(key, now, gap, Applied(fate));
      HeldIsLeft();
      if fate != Answered {
        return Err(RedisError);
      }
      ghost var counted := past + Sent(window, now, gap, 2) + gap(2);
      CountOfSet(score, counted);
      if Monotone(score) && Whole(gap) && Orderly(window, past) && NextInOrder(window, past, now, gap(0) != []) {
        WholeCounts(score, window, past, now, gap);
      }
      if count <= limit {
        SentNext(window, now, gap, past, 2);
        Record(key, counted, now);
      }
      return Ok((count <= limit, count));
    }
  }
}
