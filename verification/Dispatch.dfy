/**
 The relay's dispatch and tick loop, run against stores that others keep changing and over a
 connection that may drop in the middle of a batch; how fast the outbox drains when nobody
 else moves, and how long a row waits at most when writers go on.
 */
module Dispatch {
  import opened System
  import opened Relays
  import opened Cluster
  import opened Locking
  import opened Waiting

  /** The rows a dispatch may take, in the order it would take them. */
  function Backlog(s: State): seq<RowId> {
    PendingBelow(s, s.nextRow)
  }

  ghost predicate AllRows(s: State, batch: seq<RowId>) {
    forall j :: 0 <= j < |batch| ==> batch[j] in s.outbox
  }

  /** The row's message: its order and its event, unchanged. */
  ghost function Forwarded(s: State, id: RowId): Msg
    requires id in s.outbox
  {
    Msg(id, s.outbox[id].order, s.outbox[id].event)
  }

  /** What the first i publishes of a batch put in the log when all are acknowledged: the rows in order. */
  ghost function Sent(s: State, batch: seq<RowId>, fate: nat -> PublishFate, i: nat): seq<Msg>
    requires AllRows(s, batch) && i <= |batch|
  {
    if i == 0 then [] else Sent(s, batch, fate, i - 1) + Repeat(Forwarded(s, batch[i-1]), Landed(fate(i - 1)))
  }

  // ----- Sorted sequences are determined by their elements

  ghost predicate Sorted(ids: seq<RowId>) {
    forall i, j :: 0 <= i < j < |ids| ==> ids[i] < ids[j]
  }

  lemma {:induction false} SortedUnique(a: seq<RowId>, b: seq<RowId>)
    requires Sorted(a) && Sorted(b)
    requires forall id: RowId :: id in a <==> id in b
    ensures a == b
  {
    assert a != [] ==> a[0] in b;
    assert b != [] ==> b[0] in a;
    if a != [] {
      forall id: RowId ensures id in a[1..] <==> id in b[1..] {
        assert id in a <==> id == a[0] || id in a[1..];
        assert id in b <==> id == b[0] || id in b[1..];
      }
      SortedUnique(a[1..], b[1..]);
    }
  }

  lemma PartsDisjoint(ids: seq<RowId>, k: nat, id: RowId)
    requires Sorted(ids) && k <= |ids| && id in ids[k..]
    ensures id !in ids[..k]
  {
    var j :| k <= j < |ids| && ids[j] == id;
    assert forall i :: 0 <= i < k ==> ids[i] < ids[j];
  }

  /** Rows marked from the front of the backlog leave it; the rest stay in order. */
  lemma MarkedLeaveBacklog(s: State, s': State, k: nat)
    requires k <= |Backlog(s)| && s'.nextRow == s.nextRow
    requires forall id: RowId :: Pending(s', id) <==> Pending(s, id) && id !in Backlog(s)[..k]
    ensures Backlog(s') == Backlog(s)[k..]
  {
    var all := Backlog(s);
    assert all == all[..k] + all[k..];
    forall id: RowId ensures id in Backlog(s') <==> id in all[k..] {
      assert id in Backlog(s') <==> id in all && id !in all[..k];
      if id in all[k..] {
        PartsDisjoint(all, k, id);
      }
    }
    SortedUnique(Backlog(s'), all[k..]);
  }

  datatype DispatchResult = Dispatched(rows: seq<RowId>) | DispatchFailed

  lemma InFlightOk(acts: seq<Action>, r: RelayId)
    requires r in Exec(acts).relays
    ensures BatchOk(Exec(acts), Exec(acts).relays[r])
  {
    RelayInvAlways(acts);
  }

  // ----- The relay's own steps, whatever the rest of the state

  lemma OwnSelect(s: State, r: RelayId, limit: nat)
    requires r !in s.relays
    ensures r in Step(s, Select(r, limit)).relays ==>
              Step(s, Select(r, limit)).relays[r].published == 0 && Step(s, Select(r, limit)).relays[r].rows != []
    ensures Step(s, Select(r, limit)).lost == s.lost
  {
  }

  lemma OwnPublish(s: State, r: RelayId, fate: PublishFate)
    requires r in s.relays && BatchOk(s, s.relays[r]) && s.relays[r].published < |s.relays[r].rows|
    ensures var relays := Step(s, Publish(r, fate)).relays;
            if fate.Acked? then
              r in relays && relays[r] == s.relays[r].(published := s.relays[r].published + 1)
            else r !in relays
    ensures Step(s, Publish(r, fate)).lost == s.lost
  {
  }

  lemma OwnCrash(s: State, r: RelayId)
    requires r !in s.relays || r !in s.lost
    ensures r !in Step(s, CrashRelay(r)).relays && r !in Step(s, CrashRelay(r)).lost
  {
  }

  lemma OwnMarkSent(s: State, r: RelayId)
    requires r in s.relays && BatchOk(s, s.relays[r]) && s.relays[r].published == |s.relays[r].rows|
    ensures var s' := Step(s, MarkSent(r));
            && r !in s'.relays && s'.lost == s.lost && Marked(s.outbox, s'.outbox, s.relays[r].rows)
            && forall i :: 0 <= i < |s.relays[r].rows| ==>
                 s.relays[r].rows[i] in s'.outbox && s'.outbox[s.relays[r].rows[i]].sent
                 && InLog(s'.log, s.relays[r].rows[i])
  {
  }

  lemma OwnLoseTx(s: State, r: RelayId)
    requires r in s.relays
    ensures var s' := Step(s, LoseTx(r)); r !in s'.relays && r in s'.lost && s'.lost[r] == s.relays[r]
  {
  }

  lemma OwnStray(acts: seq<Action>, r: RelayId, fate: PublishFate)
    requires var s := Exec(acts); r in s.lost && s.lost[r].published < |s.lost[r].rows|
    ensures var s, s' := Exec(acts), Step(Exec(acts), Stray(r, fate));
            && r !in s'.relays
            && if fate.Acked? then
                 r in s'.lost && s'.lost[r] == s.lost[r].(published := s.lost[r].published + 1)
               else r !in s'.lost
  {
    LostAlways(acts);
    var s := Exec(acts);
    assert BatchShape(s, s.lost[r]);
    hide Exec, Wrote;
  }

  lemma PublishWritesRow(s: State, r: RelayId, fate: PublishFate)
    requires r in s.relays && BatchOk(s, s.relays[r]) && s.relays[r].published < |s.relays[r].rows|
    ensures WritesRow(s, Step(s, Publish(r, fate)), s.relays[r].rows[s.relays[r].published], fate)
  {
    hide Wrote, WritesRow;
    WroteWritesRow(s, s.relays[r].rows[s.relays[r].published], fate);
    SameWrites(s, Wrote(s, s.relays[r].rows[s.relays[r].published], fate), Step(s, Publish(r, fate)),
               s.relays[r].rows[s.relays[r].published], fate);
  }

  lemma StrayWritesRow(acts: seq<Action>, r: RelayId, fate: PublishFate)
    requires var s := Exec(acts); r in s.lost && s.lost[r].published < |s.lost[r].rows|
    ensures var s := Exec(acts);
            WritesRow(s, Step(s, Stray(r, fate)), s.lost[r].rows[s.lost[r].published], fate)
  {
    LostAlways(acts);
    var s := Exec(acts);
    assert BatchShape(s, s.lost[r]);
    hide Exec, Wrote, WritesRow;
    WroteWritesRow(s, s.lost[r].rows[s.lost[r].published], fate);
    SameWrites(s, Wrote(s, s.lost[r].rows[s.lost[r].published], fate), Step(s, Stray(r, fate)),
               s.lost[r].rows[s.lost[r].published], fate);
  }

  lemma SameWrites(s: State, s1: State, s2: State, id: RowId, fate: PublishFate)
    requires WritesRow(s, s1, id, fate) && s2.log == s1.log && s2.limbo == s1.limbo && s2.retries == s1.retries
    ensures WritesRow(s, s2, id, fate)
  {
  }

  // ----- The relay's steps when nobody else moves

  /** The state while a dispatch begun in `s` has published the first i rows of its batch. */
  ghost predicate MidDispatch(s: State, s': State, r: RelayId, batch: seq<RowId>, fate: nat -> PublishFate, i: nat) {
    && i <= |batch| && AllRows(s, batch)
    && s' == s.(relays := s.relays[r := Batch(batch, i)], log := s.log + Sent(s, batch, fate, i),
                limbo := s'.limbo, retries := s'.retries)
  }

  /** Nothing but the log may differ from before the dispatch. */
  ghost predicate GaveUp(s: State, s': State) {
    s'.outbox == s.outbox && s'.nextRow == s.nextRow && s'.relays == s.relays && s.log <= s'.log
  }

  ghost predicate Finished(s: State, s': State, batch: seq<RowId>, fate: nat -> PublishFate) {
    && |batch| <= |Backlog(s)| && AllRows(s, batch)
    && s'.nextRow == s.nextRow && s'.relays == s.relays && s'.log == s.log + Sent(s, batch, fate, |batch|)
    && Backlog(s') == Backlog(s)[|batch|..]
  }

  lemma QuietSelect(s: State, r: RelayId, limit: nat, fate: nat -> PublishFate)
    requires r !in s.relays && r !in s.lost
    ensures var s' := Step(s, Select(r, limit));
            if r in s'.relays then
              s'.relays[r].rows == Take(Backlog(s), limit) && MidDispatch(s, s', r, s'.relays[r].rows, fate, 0)
            else s' == s && Take(Backlog(s), limit) == []
  {
    SelectedRows(s, limit);
    var batch := Take(Backlog(s), limit);
    assert forall j :: 0 <= j < |batch| ==> Pending(s, batch[j]);
    assert AllRows(s, batch);
    assert s.log + Sent(s, batch, fate, 0) == s.log;
  }

  lemma WroteLog(s: State, id: RowId, fate: PublishFate)
    requires id in s.outbox
    ensures var s' := Wrote(s, id, fate);
            s' == s.(log := s.log + Repeat(MsgOf(s, id), Landed(fate)), limbo := s'.limbo, retries := s'.retries)
  {
  }

  lemma QuietPublish(s: State, s1: State, r: RelayId, batch: seq<RowId>, fate: nat -> PublishFate, i: nat)
    requires r !in s.relays && MidDispatch(s, s1, r, batch, fate, i) && i < |batch|
    ensures var s' := Step(s1, Publish(r, fate(i)));
            if fate(i).Acked? then MidDispatch(s, s', r, batch, fate, i + 1) else GaveUp(s, s')
  {
    WroteLog(s1, batch[i], fate(i));
    hide Wrote, Repeat, Landed;
    assert s1.relays - {r} == s.relays;
    assert MsgOf(s1, batch[i]) == Forwarded(s, batch[i]);
    assert Sent(s, batch, fate, i + 1) == Sent(s, batch, fate, i) + Repeat(Forwarded(s, batch[i]), Landed(fate(i)));
    assert s1.relays[r := Batch(batch, i + 1)] == s.relays[r := Batch(batch, i + 1)];
  }

  lemma QuietCrash(s: State, s1: State, r: RelayId, batch: seq<RowId>, fate: nat -> PublishFate, i: nat)
    requires r !in s.relays && MidDispatch(s, s1, r, batch, fate, i)
    ensures GaveUp(s, Step(s1, CrashRelay(r)))
  {
    assert s1.relays - {r} == s.relays;
  }

  lemma QuietLoseTx(s: State, s1: State, r: RelayId, batch: seq<RowId>, fate: nat -> PublishFate, i: nat)
    requires r !in s.relays && MidDispatch(s, s1, r, batch, fate, i)
    ensures GaveUp(s, Step(s1, LoseTx(r)))
  {
    assert s1.relays - {r} == s.relays;
  }

  /** Once its transaction is lost a dispatch can only add to the log. */
  lemma QuietStray(s: State, s1: State, r: RelayId, fate: PublishFate)
    requires GaveUp(s, s1) && r !in s1.relays
    ensures GaveUp(s, Step(s1, Stray(r, fate))) && GaveUp(s, Step(s1, CrashRelay(r)))
  {
    hide Landed, More, ExtraWrites;
  }

  lemma QuietMarkSent(s: State, s1: State, r: RelayId, limit: nat, fate: nat -> PublishFate)
    requires r !in s.relays && MidDispatch(s, s1, r, Take(Backlog(s), limit), fate, |Take(Backlog(s), limit)|)
    ensures Finished(s, Step(s1, MarkSent(r)), Take(Backlog(s), limit), fate)
  {
    var batch := Take(Backlog(s), limit);
    var s' := Step(s1, MarkSent(r));
    assert s1.relays - {r} == s.relays;
    assert batch[..|batch|] == batch && Backlog(s)[..|batch|] == batch;
    forall id: RowId ensures Pending(s', id) <==> Pending(s, id) && id !in batch {
      assert Held(s', id) <==> Held(s, id);
    }
    MarkedLeaveBacklog(s, s', |batch|);
  }

  lemma GaveUpBacklog(s: State, s': State)
    requires GaveUp(s, s')
    ensures Backlog(s') == Backlog(s)
  {
    assert Backlog(s)[0..] == Backlog(s);
    MarkedLeaveBacklog(s, s', 0);
  }

  // ----- Draining

  /** What one tick of the relay's loop meets. */
  datatype Round = Round(tick: nat -> Tick, fate: nat -> PublishFate)

  /** Every statement and every publish of the round succeeds. */
  ghost predicate Good(tick: nat -> Tick, fate: nat -> PublishFate) {
    Faultless(tick) && forall i: nat :: fate(i).Acked?
  }

  ghost function GoodRounds(rounds: seq<Round>): nat {
    if rounds == [] then 0
    else GoodRounds(rounds[..|rounds|-1]) + if Good(rounds[|rounds|-1].tick, rounds[|rounds|-1].fate) then 1 else 0
  }

  lemma NoRounds()
    ensures GoodRounds([]) == 0
  {
  }

  lemma GoodRoundsSnoc(rounds: seq<Round>, k: nat)
    requires k < |rounds|
    ensures GoodRounds(rounds[..k+1])
            == GoodRounds(rounds[..k]) + if Good(rounds[k].tick, rounds[k].fate) then 1 else 0
  {
    assert rounds[..k+1][..k] == rounds[..k];
  }

  function Min(a: nat, b: nat): nat {
    if a < b then a else b
  }

  /** The backlog after k more rounds of one relay have succeeded. */
  ghost predicate DrainedBy(s: State, s': State, size: nat, k: nat) {
    && s'.relays == s.relays && s.log <= s'.log
    && Backlog(s') == Backlog(s)[Min(k * size, |Backlog(s)|)..]
  }

  lemma DrainOne(s: State, s1: State, s2: State, size: nat, fate: nat -> PublishFate, k: nat)
    requires DrainedBy(s, s1, size, k) && Finished(s1, s2, Take(Backlog(s1), size), fate)
    ensures DrainedBy(s, s2, size, k + 1)
  {
    var all, cut := Backlog(s), Min(k * size, |Backlog(s)|);
    assert (k + 1) * size == k * size + size;
    assert all[cut..][|Take(all[cut..], size)|..] == all[Min((k + 1) * size, |all|)..];
  }

  lemma GaveUpKeepsDrained(s: State, s1: State, s2: State, size: nat, k: nat)
    requires DrainedBy(s, s1, size, k) && GaveUp(s1, s2)
    ensures DrainedBy(s, s2, size, k)
  {
    GaveUpBacklog(s1, s2);
  }

  lemma DrainedIff(s: State, s': State, size: nat, k: nat)
    requires size > 0 && DrainedBy(s, s', size, k)
    ensures Backlog(s') == [] <==> CeilDiv(|Backlog(s)|, size) <= k
  {
    EnoughRounds(|Backlog(s)|, size, k);
  }

  lemma DrainedAtStart(s: State, size: nat)
    ensures DrainedBy(s, s, size, 0)
  {
    assert 0 * size == 0 && Backlog(s)[0..] == Backlog(s);
  }

  /** With nothing held and nothing left to select, every committed row is in the log. */
  lemma DrainedMeansPublished(acts: seq<Action>)
    requires Exec(acts).relays == map[] && Backlog(Exec(acts)) == []
    ensures forall id :: id in Exec(acts).outbox ==> InLog(Exec(acts).log, id)
  {
    RelayInvAlways(acts);
    var s := Exec(acts);
    forall id | id in s.outbox ensures InLog(s.log, id) {
      assert id !in Backlog(s);
      assert !Held(s, id);
    }
  }

  /** Every publish is acknowledged and lands once. */
  ghost predicate Unretried(fate: nat -> PublishFate) {
    forall j: nat :: fate(j).Acked? && fate(j).extra == 0
  }

  /** The log has grown by exactly one message for each row, in order. */
  ghost predicate PlainlySent(s: State, s': State, rows: seq<RowId>) {
    AllRows(s, rows) && s'.log == s.log + seq(|rows|, j requires 0 <= j < |rows| => Forwarded(s, rows[j]))
  }

  lemma {:induction false} SentPlain(s: State, batch: seq<RowId>, fate: nat -> PublishFate, i: nat)
    requires AllRows(s, batch) && i <= |batch| && Unretried(fate)
    ensures Sent(s, batch, fate, i) == seq(i, j requires 0 <= j < i => Forwarded(s, batch[j]))
  {
    if i > 0 {
      SentPlain(s, batch, fate, i - 1);
      assert Repeat(Forwarded(s, batch[i-1]), 1) == [Forwarded(s, batch[i-1])];
    }
  }

  lemma FinishedPlainly(s: State, s': State, batch: seq<RowId>, fate: nat -> PublishFate)
    requires Finished(s, s', batch, fate) && Unretried(fate)
    ensures PlainlySent(s, s', batch)
  {
    SentPlain(s, batch, fate, |batch|);
  }

  lemma NothingToSend(s: State, fate: nat -> PublishFate)
    ensures Finished(s, s, [], fate) && PlainlySent(s, s, [])
  {
    assert Backlog(s)[0..] == Backlog(s);
    assert s.log + Sent(s, [], fate, 0) == s.log;
  }

  /** While its transaction lasts a dispatch is where it should be; then it can only add to the log. */
  ghost predicate Tracks(s: State, s': State, r: RelayId, batch: seq<RowId>, fate: nat -> PublishFate, i: nat,
                         live: bool) {
    if live then MidDispatch(s, s', r, batch, fate, i) else GaveUp(s, s')
  }

  lemma TracksAtStart(s: State, s': State, r: RelayId, batch: seq<RowId>, fate: nat -> PublishFate)
    requires MidDispatch(s, s', r, batch, fate, 0)
    ensures Tracks(s, s', r, batch, fate, 0, true)
  {
  }

  lemma TracksOver(s: State, s': State, r: RelayId, batch: seq<RowId>, fate: nat -> PublishFate, i: nat)
    requires Tracks(s, s', r, batch, fate, i, false)
    ensures Tracks(s, s', r, batch, fate, |batch|, false)
  {
  }

  lemma TracksOne(s: State, s1: State, mid: State, r: RelayId, batch: seq<RowId>, fate: nat -> PublishFate, i: nat,
                  was: bool, live: bool)
    requires r !in s.relays && i < |batch| && Tracks(s, s1, r, batch, fate, i, was) && (live ==> was)
    requires mid == if was && !live then Step(s1, LoseTx(r)) else s1
    requires !live ==> r !in mid.relays
    ensures var s' := Step(mid, if live then Publish(r, fate(i)) else Stray(r, fate(i)));
            Tracks(s, s', r, batch, fate, i + 1, live && fate(i).Acked?)
  {
    hide Step, MidDispatch, GaveUp;
    if live {
      QuietPublish(s, s1, r, batch, fate, i);
    } else {
      if was {
        QuietLoseTx(s, s1, r, batch, fate, i);
      }
      QuietStray(s, mid, r, fate(i));
    }
  }

  lemma TracksEnd(s: State, s1: State, r: RelayId, batch: seq<RowId>, fate: nat -> PublishFate, live: bool, ok: bool,
                  limit: nat)
    requires r !in s.relays && batch == Take(Backlog(s), limit) && (ok ==> live) && (!live ==> r !in s1.relays)
    requires Tracks(s, s1, r, batch, fate, |batch|, live)
    ensures var s' := Step(s1, if ok then MarkSent(r) else CrashRelay(r));
            && (if ok then Finished(s, s', batch, fate) else GaveUp(s, s'))
            && (ok && Unretried(fate) ==> PlainlySent(s, s', batch))
  {
    hide Step, MidDispatch, GaveUp, Finished, PlainlySent;
    if ok {
      QuietMarkSent(s, s1, r, limit, fate);
      if Unretried(fate) {
        FinishedPlainly(s, Step(s1, MarkSent(r)), batch, fate);
      }
    } else if live {
      QuietCrash(s, s1, r, batch, fate, |batch|);
    } else {
      QuietStray(s, s1, r, ACK);
    }
  }

  // ----- One relay among writers

  /** The others take no relay steps. */
  ghost predicate Alone(tick: nat -> Tick) {
    forall i: nat, k :: 0 <= k < |tick(i).env| ==> !RelayStep(tick(i).env[k])
  }

  /** From position n on, all relay steps of the run are relay r's. */
  ghost predicate OnlyBy(acts: seq<Action>, n: nat, r: RelayId, size: nat) {
    forall k :: n <= k < |acts| ==> ByRelay(acts[k], r, size)
  }

  lemma NoneYet(acts: seq<Action>, r: RelayId, size: nat)
    ensures OnlyBy(acts, |acts|, r, size)
  {
  }

  lemma OnlyByOn(acts: seq<Action>, acts1: seq<Action>, acts2: seq<Action>, r: RelayId, size: nat)
    requires acts1 <= acts2 && |acts| <= |acts1|
    requires OnlyBy(acts1, |acts|, r, size) && OnlyBy(acts2, |acts1|, r, size)
    ensures OnlyBy(acts2, |acts|, r, size)
  {
    forall k | |acts| <= k < |acts2| ensures ByRelay(acts2[k], r, size) {
      if k < |acts1| {
        assert acts2[k] == acts1[k];
      }
    }
  }

  lemma {:induction false} NoRelaySteps(acts: seq<Action>, n: nat, env: seq<Action>, r: RelayId, size: nat)
    requires OnlyBy(acts, n, r, size) && n <= |acts| && forall k :: 0 <= k < |env| ==> !RelayStep(env[k])
    ensures OnlyBy(acts + Others(env, RelayNo(r)), n, r, size)
  {
    if env == [] {
      assert acts + [] == acts;
    } else {
      NoRelaySteps(acts, n, env[..|env|-1], r, size);
      assert acts + Others(env, RelayNo(r)) ==
             acts + Others(env[..|env|-1], RelayNo(r))
             + if Foreign(env[|env|-1], RelayNo(r)) then [env[|env|-1]] else [];
    }
  }

  lemma {:induction false} DispatchesGrow(acts: seq<Action>, acts': seq<Action>)
    requires acts <= acts'
    ensures Dispatches(acts) <= Dispatches(acts')
    decreases |acts'|
  {
    hide Exec;
    if |acts| < |acts'| {
      DispatchesGrow(acts, acts'[..|acts'|-1]);
    } else {
      assert acts == acts';
    }
  }

  ghost predicate AllSent(s: State, s': State) {
    forall id :: id in s.outbox ==> id in s'.outbox && s'.outbox[id].sent
  }

  /** As many dispatches have marked rows as have succeeded, or all rows of the start are sent. */
  ghost predicate KeptUp(acts: seq<Action>, acts': seq<Action>, successes: nat) {
    Dispatches(acts) + successes <= Dispatches(acts') || AllSent(Exec(acts), Exec(acts'))
  }

  lemma KeptUpAtStart(acts: seq<Action>)
    ensures KeptUp(acts, acts, 0)
  {
  }

  lemma AllSentStays(acts: seq<Action>, acts1: seq<Action>, acts2: seq<Action>)
    requires AllSent(Exec(acts), Exec(acts1)) && acts1 <= acts2
    ensures AllSent(Exec(acts), Exec(acts2))
  {
    hide Exec;
    assert acts2 == acts1 + acts2[|acts1|..];
    forall id | id in Exec(acts).outbox ensures id in Exec(acts2).outbox && Exec(acts2).outbox[id].sent {
      RowsStay(acts1, acts2[|acts1|..], id);
    }
  }

  /** With the one relay idle and nothing to select, every row is sent. */
  lemma EmptyMeansSent(acts: seq<Action>, acts': seq<Action>, r: RelayId, size: nat)
    requires acts <= acts' && Exec(acts).relays == map[] && OnlyBy(acts', |acts|, r, size)
    requires r !in Exec(acts').relays && Backlog(Exec(acts')) == []
    ensures AllSent(Exec(acts), Exec(acts'))
  {
    hide Exec;
    var more := acts'[|acts|..];
    assert acts' == acts + more;
    OneBatch(acts, more, r, size);
    InvAlways(acts');
    var s := Exec(acts');
    forall id | id in Exec(acts).outbox ensures id in s.outbox && s.outbox[id].sent {
      RowsStay(acts, more, id);
      assert !Held(s, id) && id !in Backlog(s);
    }
  }

  lemma {:induction false} OneBatch(acts: seq<Action>, more: seq<Action>, r: RelayId, size: nat)
    requires Exec(acts).relays == map[] && forall k :: 0 <= k < |more| ==> ByRelay(more[k], r, size)
    ensures Exec(acts + more).relays.Keys <= {r}
  {
    hide Exec;
    if more == [] {
      assert acts + more == acts;
    } else {
      var prior, a := more[..|more|-1], more[|more|-1];
      assert acts + more == acts + prior + [a];
      OneBatch(acts, prior, r, size);
      ExecSnoc(acts + prior, a);
      BatchKeys(Exec(acts + prior), a);
    }
  }

  lemma BatchKeys(s: State, a: Action)
    ensures Step(s, a).relays.Keys <= s.relays.Keys + if RelayStep(a) then {a.relay} else {}
  {
    StepFrame(s, a);
    if !RelayStep(a) {
      hide Step;
    }
  }

  lemma DispatchKeepsUp(acts: seq<Action>, acts1: seq<Action>, acts2: seq<Action>, r: RelayId, size: nat,
                        res: DispatchResult, successes: nat)
    requires acts <= acts1 <= acts2 && KeptUp(acts, acts1, successes)
    requires Exec(acts).relays == map[] && OnlyBy(acts2, |acts|, r, size) && r !in Exec(acts2).relays
    requires res == Dispatched([]) ==> Backlog(Exec(acts2)) == []
    requires Dispatches(acts2) >= Dispatches(acts1) + if res.Dispatched? && res.rows != [] then 1 else 0
    ensures KeptUp(acts, acts2, if res.Dispatched? then successes + 1 else successes)
  {
    hide Exec, OnlyBy, AllSent, PendingBelow, Dispatches;
    if AllSent(Exec(acts), Exec(acts1)) {
      AllSentStays(acts, acts1, acts2);
    } else if res == Dispatched([]) {
      EmptyMeansSent(acts, acts2, r, size);
    }
  }

  lemma KeptUpMeansSent(acts: seq<Action>, acts': seq<Action>, r: RelayId, size: nat, successes: nat)
    requires acts <= acts' && size > 0 && KeptUp(acts, acts', successes)
    requires Exec(acts).relays == map[] && OnlyBy(acts', |acts|, r, size)
    ensures var s, s' := Exec(acts), Exec(acts');
            forall x :: x in s.outbox && NoneBelow(s, s', x) && CeilDiv(|Unsent(s, x)|, size) <= successes ==>
              x in s'.outbox && s'.outbox[x].sent && InLog(s'.log, x)
  {
    hide Exec, NoneBelow, Unsent, CeilDiv, Dispatches, InLog;
    var more := acts'[|acts|..];
    assert acts' == acts + more;
    var s, s' := Exec(acts), Exec(acts');
    RelayInvAlways(acts');
    forall x | x in s.outbox && NoneBelow(s, s', x) && CeilDiv(|Unsent(s, x)|, size) <= successes
      ensures x in s'.outbox && s'.outbox[x].sent && InLog(s'.log, x)
    {
      if !AllSent(s, s') {
        SentAfterEnoughDispatches(acts, more, r, x, size);
      }
    }
  }

  // ----- What a dispatch does among others

  /** The run as publish i of a dispatch of relay r finds it; if its connection drops in the gap the locks are gone. */
  ghost function AtPublish(acts: seq<Action>, r: RelayId, i: nat, was: bool, tick: nat -> Tick): seq<Action> {
    Met(acts, tick, i + 1, RelayNo(r)) + if was && !tick(i + 1).ok then [LoseTx(r)] else []
  }

  /** The dispatch has written the rows in order: the j-th at position at[j], after position n of the log. */
  ghost predicate SentAt(log: seq<Msg>, n: nat, rows: seq<RowId>, at: seq<nat>) {
    && |at| == |rows|
    && (forall j :: 0 <= j < |rows| ==> n <= at[j] < |log| && log[at[j]].row == rows[j])
    && (forall i, j :: 0 <= i < j < |rows| ==> at[i] < at[j])
  }

  /** And each of these messages says what its outbox row says. */
  ghost predicate Forwards(s: State, n: nat, rows: seq<RowId>, at: seq<nat>) {
    && SentAt(s.log, n, rows, at)
    && forall j :: 0 <= j < |rows| ==>
         && rows[j] in s.outbox
         && s.log[at[j]].order == s.outbox[rows[j]].order && s.log[at[j]].event == s.outbox[rows[j]].event
  }

  lemma SentAtNext(log: seq<Msg>, log1: seq<Msg>, log2: seq<Msg>, n: nat, rows: seq<RowId>, i: nat, at: seq<nat>)
    requires i < |rows| && SentAt(log, n, rows[..i], at) && n <= |log| && log <= log1 <= log2
    requires |log1| < |log2| && log2[|log2|-1].row == rows[i]
    ensures SentAt(log2, n, rows[..i+1], at + [|log2| - 1])
  {
  }

  lemma NoneSent(log: seq<Msg>, n: nat, rows: seq<RowId>)
    ensures SentAt(log, n, rows[..0], [])
  {
  }

  lemma NoneForwarded(s: State, n: nat)
    ensures Forwards(s, n, [], [])
  {
  }

  /** An acknowledged publish leaves the row's message at the end of the log. */
  lemma WroteLast(s: State, s': State, id: RowId, fate: PublishFate)
    requires WritesRow(s, s', id, fate) && fate.Acked?
    ensures s.log <= s'.log && |s.log| < |s'.log| && s'.log[|s'.log|-1].row == id
  {
  }

  lemma SentOne(acts: seq<Action>, s': State, r: RelayId, i: nat, was: bool, tick: nat -> Tick, batch: seq<RowId>,
                fate: PublishFate, n: nat, at: seq<nat>)
    requires i < |batch| && fate.Acked? && n <= |Exec(acts).log| && SentAt(Exec(acts).log, n, batch[..i], at)
    requires WritesRow(Exec(AtPublish(acts, r, i, was, tick)), s', batch[i], fate)
    ensures n < |s'.log| && SentAt(s'.log, n, batch[..i+1], at + [|s'.log| - 1])
  {
    hide Exec, WritesRow, SentAt;
    var run := AtPublish(acts, r, i, was, tick);
    RunLogGrows(acts, run);
    WroteLast(Exec(run), s', batch[i], fate);
    SentAtNext(Exec(acts).log, Exec(run).log, s'.log, n, batch, i, at);
  }

  /** Messages stay where they are in the log, and say what their rows say. */
  lemma SentInRun(start: seq<Action>, selected: seq<Action>, done: seq<Action>, end: seq<Action>, rows: seq<RowId>,
                  at: seq<nat>)
    requires start <= selected <= done <= end && SentAt(Exec(done).log, |Exec(selected).log|, rows, at)
    ensures Forwards(Exec(end), |Exec(start).log|, rows, at)
  {
    hide Exec;
    RunLogGrows(start, selected);
    RunLogGrows(done, end);
    InvAlways(end);
    assert LogOk(Exec(end));
    hide Inv;
    forall j | 0 <= j < |rows| ensures Carries(Exec(end).outbox, Exec(end).log[at[j]]) {
    }
  }

  lemma {:induction false} RunLogGrows(acts: seq<Action>, acts': seq<Action>)
    requires acts <= acts'
    ensures Exec(acts).log <= Exec(acts').log
    decreases |acts'|
  {
    hide Exec, Step;
    if |acts| < |acts'| {
      var before := acts'[..|acts'|-1];
      assert acts' == before + [acts'[|acts'|-1]];
      RunLogGrows(acts, before);
      ExecSnoc(before, acts'[|acts'|-1]);
      StepLogGrows(Exec(before), acts'[|acts'|-1]);
    } else {
      assert acts == acts';
    }
  }

  /** All publishes of the batch are acknowledged. */
  ghost predicate AllAcked(fate: nat -> PublishFate, count: nat) {
    forall i :: 0 <= i < count ==> fate(i).Acked?
  }

  /** The connection lasts through the publishes of the batch. */
  ghost predicate Lasts(tick: nat -> Tick, count: nat) {
    forall i :: 1 <= i <= count ==> tick(i).ok
  }

  lemma NoneYetPublished(tick: nat -> Tick, fate: nat -> PublishFate)
    ensures AllAcked(fate, 0) && Lasts(tick, 0)
  {
  }

  lemma PublishedNext(tick: nat -> Tick, fate: nat -> PublishFate, i: nat, count: nat)
    requires i < count
    ensures AllAcked(fate, i + 1) <==> AllAcked(fate, i) && fate(i).Acked?
    ensures Lasts(tick, i + 1) <==> Lasts(tick, i) && tick(i + 1).ok
    ensures !fate(i).Acked? ==> !AllAcked(fate, count)
  {
  }

  /** What the relay's selection finds after the gap before it. */
  ghost function Selected(acts: seq<Action>, r: RelayId, tick: nat -> Tick, limit: nat): seq<RowId> {
    Take(Backlog(Exec(Met(acts, tick, 0, RelayNo(r)))), limit)
  }

  /** The dispatch goes through: nothing to send, or every publish and the final commit succeed. */
  ghost predicate GoesThrough(rows: seq<RowId>, tick: nat -> Tick, fate: nat -> PublishFate) {
    tick(0).ok && (rows == [] || (AllAcked(fate, |rows|) && Lasts(tick, |rows|) && tick(|rows| + 1).ok))
  }

  lemma GoodGoesThrough(rows: seq<RowId>, tick: nat -> Tick, fate: nat -> PublishFate)
    requires Good(tick, fate)
    ensures GoesThrough(rows, tick, fate)
  {
  }

  /** Exactly the rows of the batch are marked; no row is otherwise touched. */
  ghost predicate Marked(outbox: map<RowId, Row>, outbox': map<RowId, Row>, batch: seq<RowId>) {
    && outbox'.Keys == outbox.Keys
    && forall x :: x in outbox ==>
         outbox'[x] == Row(outbox[x].order, outbox[x].event, outbox[x].sent || x in batch)
  }

  class Relay {
    const stores: Stores
    const id: RelayId
    const batchSize: nat

    constructor (stores: Stores, id: RelayId)
      ensures this.stores == stores && this.id == id && batchSize == 100
    {
      this.stores, this.id, batchSize := stores, id, 100;
    }

    /** No dispatch of this relay is under way, with or without its transaction. */
    ghost predicate Idle()
      reads this, stores
    {
      id !in stores.s.relays && id !in stores.s.lost
    }

    /** The dispatch is under way with i rows of its batch published. */
    ghost predicate Under(batch: seq<RowId>, i: nat, live: bool)
      reads this, stores
    {
      if live then id in stores.s.relays && stores.s.relays[id] == Batch(batch, i) && id !in stores.s.lost
      else id in stores.s.lost && stores.s.lost[id] == Batch(batch, i) && id !in stores.s.relays
    }

    /**
     One turn of the publish loop. A tick that is not ok is the loss of the connection: the loop
     does not notice, and goes on without its locks.
     */
    method PublishOne(batch: seq<RowId>, i: nat, was: bool, tick: nat -> Tick, fate: PublishFate, ghost n: nat)
      returns (live: bool, ghost mid: State)
      requires stores.Valid() && i < |batch| && Under(batch, i, was) && n <= |stores.acts|
      modifies stores
      ensures stores.Valid() && old(stores.acts) <= stores.acts
      ensures live == (was && tick(i + 1).ok)
      ensures var run := AtPublish(old(stores.acts), id, i, was, tick);
              && mid == Exec(run) && stores.acts == run + [if live then Publish(id, fate) else Stray(id, fate)]
      ensures WritesRow(mid, stores.s, batch[i], fate)
      ensures if fate.Acked? then Under(batch, i + 1, live) else Idle()
      ensures Undisturbed(tick) ==> mid == if was && !live then Step(old(stores.s), LoseTx(id)) else old(stores.s)
      ensures stores.s == Step(mid, if live then Publish(id, fate) else Stray(id, fate))
      ensures !live ==> id !in mid.relays
      ensures Alone(tick) && OnlyBy(old(stores.acts), n, id, batchSize) ==> OnlyBy(stores.acts, n, id, batchSize)
    {
      hide Step, Exec, BatchOk, Alone, OnlyBy;
      Pause(tick, i + 1, n);
      live := was && tick(i + 1).ok;
      if was && !live {
        OwnLoseTx(stores.s, id);
        Act(LoseTx(id), n);
      }
      mid := stores.s;
      assert stores.acts == AtPublish(old(stores.acts), id, i, was, tick);
      if live {
        InFlightOk(stores.acts, id);
        OwnPublish(stores.s, id, fate);
        PublishWritesRow(stores.s, id, fate);
        Act(Publish(id, fate), n);
      } else {
        OwnStray(stores.acts, id, fate);
        StrayWritesRow(stores.acts, id, fate);
        Act(Stray(id, fate), n);
      }
    }

    /** That turn as the loop sees it: the rows written so far, and where the dispatch is if nobody else moves. */
    method PublishNext(batch: seq<RowId>, i: nat, was: bool, tick: nat -> Tick, fate: nat -> PublishFate,
                       ghost before: State, ghost start: nat, ghost at: seq<nat>, ghost n: nat)
      returns (live: bool)
      requires stores.Valid() && i < |batch| && Under(batch, i, was) && n <= |stores.acts|
      requires start <= |stores.s.log| && SentAt(stores.s.log, start, batch[..i], at)
      modifies stores
      ensures stores.Valid() && old(stores.acts) <= stores.acts
      ensures live == (was && tick(i + 1).ok)
      ensures if fate(i).Acked? then Under(batch, i + 1, live) else Idle()
      ensures fate(i).Acked? ==>
                start < |stores.s.log| && SentAt(stores.s.log, start, batch[..i+1], at + [|stores.s.log| - 1])
      ensures Undisturbed(tick) && id !in before.relays && Tracks(before, old(stores.s), id, batch, fate, i, was) ==>
                Tracks(before, stores.s, id, batch, fate, i + 1, live && fate(i).Acked?)
      ensures Alone(tick) && OnlyBy(old(stores.acts), n, id, batchSize) ==> OnlyBy(stores.acts, n, id, batchSize)
    {
      hide Step, Exec, Tracks, Alone, OnlyBy, SentAt, WritesRow, AtPublish, Undisturbed;
      ghost var s, acts := stores.s, stores.acts;
      ghost var mid;
      live, mid := PublishOne(batch, i, was, tick, fate(i), n);
      if Undisturbed(tick) && id !in before.relays && Tracks(before, s, id, batch, fate, i, was) {
        TracksOne(before, s, mid, id, batch, fate, i, was, live);
      }
      if fate(i).Acked? {
        SentOne(acts, stores.s, id, i, was, tick, batch, fate(i), start, at);
      }
    }

    /** The publish loop over a selected batch; the first error abandons it. */
    method PublishAll(batch: seq<RowId>, tick: nat -> Tick, fate: nat -> PublishFate,
                      ghost before: State, ghost n: nat)
      returns (ok: bool, live: bool, ghost at: seq<nat>)
      requires stores.Valid() && Under(batch, 0, true) && n <= |stores.acts|
      modifies stores
      ensures stores.Valid() && old(stores.acts) <= stores.acts
      ensures ok <==> AllAcked(fate, |batch|)
      ensures ok ==> (live <==> Lasts(tick, |batch|)) && SentAt(stores.s.log, |old(stores.s.log)|, batch, at)
      ensures if ok then Under(batch, |batch|, live) else Idle()
      ensures Undisturbed(tick) && id !in before.relays && MidDispatch(before, old(stores.s), id, batch, fate, 0) ==>
                Tracks(before, stores.s, id, batch, fate, |batch|, ok && live)
      ensures Alone(tick) && OnlyBy(old(stores.acts), n, id, batchSize) ==> OnlyBy(stores.acts, n, id, batchSize)
    {
      hide Step, Exec, MidDispatch, GaveUp, Tracks, Alone, OnlyBy, SentAt, Undisturbed, AllAcked, Lasts;
      ghost var alone := Alone(tick) && OnlyBy(stores.acts, n, id, batchSize);
      ghost var tracked :=
        Undisturbed(tick) && id !in before.relays && MidDispatch(before, stores.s, id, batch, fate, 0);
      ghost var start := |stores.s.log|;
      live, at := true, [];
      NoneYetPublished(tick, fate);
      NoneSent(stores.s.log, start, batch);
      if tracked {
        TracksAtStart(before, stores.s, id, batch, fate);
      }
      for i := 0 to |batch|
        invariant stores.Valid() && old(stores.acts) <= stores.acts && Under(batch, i, live)
        invariant AllAcked(fate, i) && (live <==> Lasts(tick, i))
        invariant start <= |stores.s.log| && SentAt(stores.s.log, start, batch[..i], at)
        invariant tracked ==> Tracks(before, stores.s, id, batch, fate, i, live)
        invariant alone ==> OnlyBy(stores.acts, n, id, batchSize)
      {
        PublishedNext(tick, fate, i, |batch|);
        live := PublishNext(batch, i, live, tick, fate, before, start, at, n);
        if !fate(i).Acked? {
          if tracked {
            TracksOver(before, stores.s, id, batch, fate, i + 1);
          }
          return false, live, at;
        }
        at := at + [|stores.s.log| - 1];
      }
      assert batch[..|batch|] == batch;
      return true, live, at;
    }

    /** The others' turn before a statement of this relay. */
    method Pause(tick: nat -> Tick, n: nat, ghost from: nat)
      requires stores.Valid() && from <= |stores.acts|
      modifies stores
      ensures stores.Valid() && stores.acts == old(stores.acts) + Others(tick(n).env, RelayNo(id))
      ensures MineKept(old(stores.s), stores.s, RelayNo(id))
      ensures tick(n).env == [] ==> stores.s == old(stores.s)
      ensures Alone(tick) && OnlyBy(old(stores.acts), from, id, batchSize) ==>
                OnlyBy(stores.acts, from, id, batchSize)
    {
      hide Exec;
      stores.Interfere(tick(n).env, RelayNo(id));
      if Alone(tick) && OnlyBy(old(stores.acts), from, id, batchSize) {
        NoRelaySteps(old(stores.acts), from, tick(n).env, id, batchSize);
      }
    }

    /** One statement of this relay. */
    method Act(a: Action, ghost from: nat)
      requires stores.Valid() && from <= |stores.acts| && ByRelay(a, id, batchSize)
      modifies stores
      ensures stores.Valid() && stores.s == Step(old(stores.s), a) && stores.acts == old(stores.acts) + [a]
      ensures OnlyBy(old(stores.acts), from, id, batchSize) ==> OnlyBy(stores.acts, from, id, batchSize)
    {
      hide Exec, Step;
      stores.Do(a);
    }

    /** The mark-sent UPDATE and commit; without its transaction the dispatch ends in an error. */
    method Mark(batch: seq<RowId>, live: bool, tick: nat -> Tick, ghost n: nat) returns (ok: bool)
      requires stores.Valid() && Under(batch, |batch|, live) && n <= |stores.acts|
      modifies stores
      ensures stores.Valid() && Idle() && old(stores.acts) <= stores.acts
      ensures ok == (live && tick(|batch| + 1).ok)
      ensures ok ==> Marked(Exec(Met(old(stores.acts), tick, |batch| + 1, RelayNo(id))).outbox, stores.s.outbox, batch)
      ensures ok ==> forall i :: 0 <= i < |batch| ==>
                batch[i] in stores.s.outbox && stores.s.outbox[batch[i]].sent && InLog(stores.s.log, batch[i])
      ensures Undisturbed(tick) ==> stores.s == Step(old(stores.s), if ok then MarkSent(id) else CrashRelay(id))
      ensures Dispatches(stores.acts) >= Dispatches(old(stores.acts)) + if ok then 1 else 0
      ensures Alone(tick) && OnlyBy(old(stores.acts), n, id, batchSize) ==> OnlyBy(stores.acts, n, id, batchSize)
    {
      hide Step, Exec, BatchOk, InLog, Dispatches, Alone, OnlyBy;
      Pause(tick, |batch| + 1, n);
      DispatchesGrow(old(stores.acts), stores.acts);
      ok := live && tick(|batch| + 1).ok;
      if ok {
        InFlightOk(stores.acts, id);
        OwnMarkSent(stores.s, id);
        DispatchesSnoc(stores.acts, MarkSent(id));
        Act(MarkSent(id), n);
      } else {
        OwnCrash(stores.s, id);
        DispatchesSnoc(stores.acts, CrashRelay(id));
        Act(CrashRelay(id), n);
      }
    }

    /** The selection: the batch it locks, in flight if there is anything to send. */
    method SelectBatch(tick: nat -> Tick, fate: nat -> PublishFate, ghost n: nat)
      returns (batch: seq<RowId>, ghost before: State)
      requires stores.Valid() && Idle() && n <= |stores.acts|
      modifies stores
      ensures stores.Valid() && old(stores.acts) <= stores.acts
      ensures batch == Selected(old(stores.acts), id, tick, batchSize)
      ensures if batch == [] then Idle() else Under(batch, 0, true)
      ensures batch == [] && batchSize > 0 ==> Backlog(stores.s) == []
      ensures id !in before.relays && (Undisturbed(tick) ==> before == old(stores.s))
      ensures if batch == [] then stores.s == before && Take(Backlog(before), batchSize) == []
              else batch == Take(Backlog(before), batchSize) && MidDispatch(before, stores.s, id, batch, fate, 0)
      ensures Alone(tick) && OnlyBy(old(stores.acts), n, id, batchSize) ==> OnlyBy(stores.acts, n, id, batchSize)
    {
      hide Step, Exec, MidDispatch, PendingBelow, Alone, OnlyBy;
      Pause(tick, 0, n);
      before := stores.s;
      OwnSelect(stores.s, id, batchSize);
      QuietSelect(stores.s, id, batchSize, fate);
      Act(Select(id, batchSize), n);
      batch := if id in stores.s.relays then stores.s.relays[id].rows else [];
    }

    /**
     One dispatch. Whatever the others do meanwhile, success means every row of the batch is
     marked sent and in the log; undisturbed, it takes exactly the first rows of the backlog
     and publishes them in order, one message each if the writer does not retry, and a failure
     leaves the backlog as it was.
     */
    method Dispatch(tick: nat -> Tick, fate: nat -> PublishFate) returns (res: DispatchResult, ghost at: seq<nat>)
      requires stores.Valid() && Idle()
      modifies stores
      ensures stores.Valid() && Idle() && old(stores.acts) <= stores.acts
      ensures var rows := Selected(old(stores.acts), id, tick, batchSize);
              res == if GoesThrough(rows, tick, fate) then Dispatched(rows) else DispatchFailed
      ensures res.Dispatched? ==> Forwards(stores.s, |old(stores.s.log)|, res.rows, at)
      ensures res.Dispatched? ==> forall i :: 0 <= i < |res.rows| ==>
                res.rows[i] in stores.s.outbox && stores.s.outbox[res.rows[i]].sent && InLog(stores.s.log, res.rows[i])
      ensures Undisturbed(tick) ==>
                if res.Dispatched? then
                  res.rows == Take(old(Backlog(stores.s)), batchSize)
                  && Finished(old(stores.s), stores.s, res.rows, fate)
                else GaveUp(old(stores.s), stores.s)
      ensures Undisturbed(tick) && res.Dispatched? && Unretried(fate) ==>
                PlainlySent(old(stores.s), stores.s, res.rows)
      ensures Alone(tick) ==> OnlyBy(stores.acts, |old(stores.acts)|, id, batchSize)
      ensures res == Dispatched([]) && batchSize > 0 ==> Backlog(stores.s) == []
      ensures Dispatches(stores.acts)
              >= Dispatches(old(stores.acts)) + if res.Dispatched? && res.rows != [] then 1 else 0
    {
      hide Step, Exec, MidDispatch, PendingBelow, InLog, Dispatches, Alone, OnlyBy, Finished, PlainlySent, SentAt,
        Forwards, Marked, AllAcked, Lasts, Selected;
      ghost var n, start := |stores.acts|, stores.acts;
      at := [];
      NoneYet(stores.acts, id, batchSize);
      if !tick(0).ok {
        Pause(tick, 0, n);
        DispatchesGrow(start, stores.acts);
        return DispatchFailed, at;
      }
      ghost var before;
      var batch;
      batch, before := SelectBatch(tick, fate, n);
      DispatchesGrow(start, stores.acts);
      if batch == [] {
        NothingToSend(before, fate);
        assert Forwards(stores.s, |old(stores.s.log)|, [], []) by { NoneForwarded(stores.s, |old(stores.s.log)|); }
        return Dispatched([]), at;
      }
      ghost var selected := stores.acts;
      var published, live;
      published, live, at := PublishAll(batch, tick, fate, before, n);
      DispatchesGrow(start, stores.acts);
      if !published {
        return DispatchFailed, at;
      }
      ghost var s, done := stores.s, stores.acts;
      var marked := Mark(batch, live, tick, n);
      SentInRun(start, selected, done, stores.acts, batch, at);
      if Undisturbed(tick) {
        TracksEnd(before, s, id, batch, fate, live, marked, batchSize);
      }
      res := if marked then Dispatched(batch) else DispatchFailed;
    }

    /**
     The tick loop over any finite number of ticks. If nobody else moves, failures cost
     nothing and the backlog is empty exactly once ceil(backlog / batchSize) rounds succeeded.
     If writers go on, and this is the only relay, every row is sent once enough rounds have
     succeeded for the unsent rows up to it, provided no lower id was committed late.
     */
    method Run(rounds: seq<Round>) returns (successes: nat)
      requires stores.Valid() && Idle() && batchSize > 0
      modifies stores
      ensures stores.Valid() && Idle() && GoodRounds(rounds) <= successes <= |rounds|
      ensures (forall k :: 0 <= k < |rounds| ==> Undisturbed(rounds[k].tick)) ==>
                && DrainedBy(old(stores.s), stores.s, batchSize, successes)
                && (Backlog(stores.s) == [] <==> CeilDiv(|old(Backlog(stores.s))|, batchSize) <= successes)
                && (Backlog(stores.s) == [] && stores.s.relays == map[] ==>
                      forall id :: id in stores.s.outbox ==> InLog(stores.s.log, id))
      ensures (forall k :: 0 <= k < |rounds| ==> Alone(rounds[k].tick)) && old(stores.s.relays) == map[] ==>
                forall x :: x in old(stores.s.outbox) && NoneBelow(old(stores.s), stores.s, x)
                            && CeilDiv(|Unsent(old(stores.s), x)|, batchSize) <= successes ==>
                  x in stores.s.outbox && stores.s.outbox[x].sent && InLog(stores.s.log, x)
    {
      hide Exec, Forwards, GoesThrough, Selected, Finished, GaveUp, DrainedBy, Undisturbed, Good, GoodRounds, Alone,
        OnlyBy, KeptUp, Dispatches, PlainlySent, Backlog, Unretried, InLog, PendingBelow, NoneBelow, Unsent, CeilDiv;
      successes := 0;
      assert rounds[..0] == [] && GoodRounds([]) == 0 by { NoRounds(); }
      ghost var before, acts := stores.s, stores.acts;
      ghost var undisturbed := forall k :: 0 <= k < |rounds| ==> Undisturbed(rounds[k].tick);
      ghost var alone := (forall k :: 0 <= k < |rounds| ==> Alone(rounds[k].tick)) && stores.s.relays == map[];
      DrainedAtStart(before, batchSize);
      KeptUpAtStart(acts);
      NoneYet(acts, id, batchSize);
      for k := 0 to |rounds|
        invariant stores.Valid() && Idle() && GoodRounds(rounds[..k]) <= successes <= k && acts <= stores.acts
        invariant undisturbed ==> DrainedBy(before, stores.s, batchSize, successes)
        invariant alone ==> OnlyBy(stores.acts, |acts|, id, batchSize) && KeptUp(acts, stores.acts, successes)
      {
        ghost var s1, acts1 := stores.s, stores.acts;
        GoodRoundsSnoc(rounds, k);
        if Good(rounds[k].tick, rounds[k].fate) {
          GoodGoesThrough(Selected(acts1, id, rounds[k].tick, batchSize), rounds[k].tick, rounds[k].fate);
        }
        var res, at := Dispatch(rounds[k].tick, rounds[k].fate);
        if alone {
          OnlyByOn(acts, acts1, stores.acts, id, batchSize);
          DispatchKeepsUp(acts, acts1, stores.acts, id, batchSize, res, successes);
        }
        if res.Dispatched? {
          if undisturbed {
            DrainOne(before, s1, stores.s, batchSize, rounds[k].fate, successes);
          }
          successes := successes + 1;
        } else if undisturbed {
          GaveUpKeepsDrained(before, s1, stores.s, batchSize, successes);
        }
      }
      assert rounds[..|rounds|] == rounds;
      if undisturbed {
        DrainedIff(before, stores.s, batchSize, successes);
        if Backlog(stores.s) == [] && stores.s.relays == map[] {
          DrainedMeansPublished(stores.acts);
        }
      }
      if alone {
        KeptUpMeansSent(acts, stores.acts, id, batchSize, successes);
      }
    }
  }
}
