/**
 Per-order publishing order. Each order's rows commit in id order, because every writer
 holds the order row before it draws its outbox id; with a single relay they are first
 published in that order too. With two relays they need not be.
 */
module PublishOrder {
  import opened Options
  import opened Lifecycle
  import opened System
  import opened Locking
  import opened Relays
  import opened Runs

  // ----- Commit order is id order

  /** The journal holds exactly the outbox rows, and each order's rows committed in id order. */
  ghost predicate JournalOk(s: State) {
    && (forall k :: 0 <= k < |s.journal| && s.journal[k].RowCommit? ==>
          s.journal[k].row in s.outbox && Describes(s.journal[k], s.outbox[s.journal[k].row]))
    && (forall id :: id in s.outbox ==> Journaled(s.journal, id))
    && (forall i, j :: 0 <= i < j < |s.journal| && SameOrder(s.journal[i], s.journal[j]) ==>
          s.journal[i].row < s.journal[j].row)
  }

  predicate Describes(c: Commit, row: Row) {
    c.RowCommit? && c.order == row.order && c.event == row.event
  }

  predicate SameOrder(c: Commit, d: Commit) {
    c.RowCommit? && d.RowCommit? && c.order == d.order
  }

  ghost predicate Journaled(journal: seq<Commit>, id: RowId) {
    exists k :: 0 <= k < |journal| && journal[k].RowCommit? && journal[k].row == id
  }

  lemma JournaledStays(journal: seq<Commit>, c: Commit, id: RowId)
    ensures Journaled(journal, id) ==> Journaled(journal + [c], id)
    ensures c.RowCommit? ==> Journaled(journal + [c], c.row)
  {
    assert (journal + [c])[|journal|] == c;
    if Journaled(journal, id) {
      var k :| 0 <= k < |journal| && journal[k].RowCommit? && journal[k].row == id;
      assert (journal + [c])[k] == journal[k];
    }
  }

  lemma CommitKeepsJournal(s: State, p: ProcId)
    requires Inv(s) && JournalOk(s)
    ensures JournalOk(DoCommitTx(s, p))
  {
    if CanCommit(s, p) {
      var s' := DoCommitTx(s, p);
      var c := s'.journal[|s.journal|];
      assert DrawOk(s, s.procs[p]);
      forall id | id in s'.outbox ensures Journaled(s'.journal, id) {
        JournaledStays(s.journal, c, id);
      }
    }
  }

  lemma RiderWriteKeepsJournal(s: State, s': State, c: Commit)
    requires JournalOk(s) && c.RiderCommit? && s'.outbox == s.outbox && s'.journal == s.journal + [c]
    ensures JournalOk(s')
  {
    forall id | id in s'.outbox ensures Journaled(s'.journal, id) {
      JournaledStays(s.journal, c, id);
    }
  }

  lemma StepKeepsJournal(s: State, a: Action)
    requires Inv(s) && JournalOk(s)
    ensures JournalOk(Step(s, a))
  {
    StepFrame(s, a);
    if a.CommitTx? {
      CommitKeepsJournal(s, a.p);
    } else if a.RegisterRider? || a.SetRider? {
      if Step(s, a) != s {
        RiderWriteKeepsJournal(s, Step(s, a), Step(s, a).journal[|s.journal|]);
      }
    } else if !a.MarkSent? {
      hide Step;
    }
  }

  lemma {:induction false} JournalAlways(acts: seq<Action>)
    ensures JournalOk(Exec(acts))
  {
    if acts != [] {
      InvAlways(acts[..|acts|-1]);
      JournalAlways(acts[..|acts|-1]);
      StepKeepsJournal(Exec(acts[..|acts|-1]), acts[|acts|-1]);
    }
  }

  // ----- One relay

  ghost predicate Before(log: seq<Msg>, id: RowId, p: nat) {
    exists q :: 0 <= q < p && q < |log| && log[q].row == id
  }

  /** Every row in flight has all earlier rows of its order sent or in the same batch. */
  ghost predicate BatchesClosed(s: State) {
    forall r, j, i ::
      r in s.relays && j in s.relays[r].rows && j in s.outbox && i in s.outbox && i < j
      && s.outbox[i].order == s.outbox[j].order
      ==> s.outbox[i].sent || i in s.relays[r].rows
  }

  /** No row is in the log before all earlier rows of its order are. */
  ghost predicate LogClosed(s: State) {
    forall p, i ::
      0 <= p < |s.log| && i in s.outbox && i < s.log[p].row && s.outbox[i].order == s.log[p].order
      ==> Before(s.log, i, p)
  }

  /** A row with a write under way has all earlier rows of its order in the log. */
  ghost predicate LimboClosed(s: State) {
    forall j, i ::
      j in s.limbo && j in s.outbox && i in s.outbox && i < j && s.outbox[i].order == s.outbox[j].order
      ==> InLog(s.log, i)
  }

  /** Writes under way are writes of committed rows. */
  ghost predicate LimboKnown(s: State) {
    forall j :: j in s.limbo ==> j in s.outbox
  }

  /** A dispatch that lost its transaction has all earlier rows of its orders in the log or in its batch. */
  ghost predicate LostClosed(s: State) {
    forall r, j, i ::
      r in s.lost && j in s.lost[r].rows && j in s.outbox && i in s.outbox && i < j
      && s.outbox[i].order == s.outbox[j].order
      ==> InLog(s.log, i) || i in s.lost[r].rows
  }

  ghost predicate OneRelay(s: State) {
    && s.relays.Keys <= {0} && s.lost.Keys <= {0}
    && BatchesClosed(s) && LostClosed(s) && LogClosed(s) && LimboClosed(s) && LimboKnown(s)
  }

  /** A row newer than all rows of its order asks nothing of the batches that do not hold it. */
  lemma NewestKeepsBatches(s: State, p: ProcId)
    requires CanCommit(s, p) && DrawOk(s, s.procs[p]) && BatchesOk(s) && LostOk(s) && BatchesClosed(s) && LostClosed(s)
    ensures BatchesClosed(DoCommitTx(s, p)) && LostClosed(DoCommitTx(s, p))
  {
    hide InLog;
  }

  lemma NewestKeepsWrites(s: State, p: ProcId)
    requires CanCommit(s, p) && DrawOk(s, s.procs[p]) && LogOk(s) && LogClosed(s) && LimboClosed(s) && LimboKnown(s)
    ensures LogClosed(DoCommitTx(s, p)) && LimboClosed(DoCommitTx(s, p))
  {
    hide InLog, Before;
  }

  lemma CommitKeepsOneRelay(s: State, p: ProcId)
    requires Inv(s) && RelayInv(s) && LostOk(s) && OneRelay(s)
    ensures OneRelay(DoCommitTx(s, p))
  {
    if CanCommit(s, p) {
      assert DrawOk(s, s.procs[p]) && LogOk(s) && BatchesOk(s);
      hide Inv, RelayInv, BatchesClosed, LostClosed, LogClosed, LimboClosed;
      NewestKeepsBatches(s, p);
      NewestKeepsWrites(s, p);
    }
  }

  /** A selection that takes a row takes the unsent rows before it. */
  lemma SelectionClosed(s: State, limit: nat, i: RowId, j: RowId)
    requires Pending(s, i) && i < j && j in Take(PendingBelow(s, s.nextRow), limit)
    ensures i in Take(PendingBelow(s, s.nextRow), limit)
  {
    var all := PendingBelow(s, s.nextRow);
    var rows := Take(all, limit);
    hide PendingBelow, Pending;
    var x :| 0 <= x < |rows| && rows[x] == j;
    assert all[x] == j && j in all;
    assert i in all;
    var y :| 0 <= y < |all| && all[y] == i;
    assert y < x;
    assert rows[y] == i;
  }

  lemma SelectKeepsClosed(s: State, limit: nat)
    requires s.relays == map[]
    ensures BatchesClosed(DoSelect(s, 0, limit))
  {
    hide PendingBelow, Take;
    var rows := Take(PendingBelow(s, s.nextRow), limit);
    forall j, i | j in rows && j in s.outbox && i in s.outbox && i < j && s.outbox[i].order == s.outbox[j].order
      ensures s.outbox[i].sent || i in rows
    {
      if !s.outbox[i].sent {
        assert Pending(s, i);
        SelectionClosed(s, limit, i, j);
      }
    }
  }

  lemma SelectKeepsOneRelay(s: State, limit: nat)
    requires OneRelay(s)
    ensures OneRelay(DoSelect(s, 0, limit))
  {
    hide PendingBelow, BatchesClosed, LostClosed, Before;
    assert LostClosed(DoSelect(s, 0, limit)) by { SameLost(s, DoSelect(s, 0, limit)); }
    if 0 !in s.relays {
      assert s.relays == map[];
      SelectKeepsClosed(s, limit);
    }
  }

  lemma SameLost(s: State, s': State)
    requires LostClosed(s) && s'.lost == s.lost && s.log <= s'.log
    requires s'.outbox.Keys == s.outbox.Keys
    requires forall id :: id in s.outbox ==> s'.outbox[id].order == s.outbox[id].order
    ensures LostClosed(s')
  {
    assert s'.log == s.log + s'.log[|s.log|..];
    InLogStays(s.log, s'.log[|s.log|..]);
    hide InLog;
  }

  ghost predicate EarlierInLog(s: State, j: RowId) {
    forall i :: i in s.outbox && j in s.outbox && i < j && s.outbox[i].order == s.outbox[j].order ==> InLog(s.log, i)
  }

  lemma {:induction false} AppendKeepsOrder(s: State, j: RowId, n: nat)
    requires LogClosed(s) && j in s.outbox && EarlierInLog(s, j)
    ensures LogClosed(s.(log := s.log + Repeat(MsgOf(s, j), n)))
  {
    var log' := s.log + Repeat(MsgOf(s, j), n);
    forall p, i | 0 <= p < |log'| && i in s.outbox && i < log'[p].row && s.outbox[i].order == log'[p].order
      ensures Before(log', i, p)
    {
      if p < |s.log| {
        assert Before(s.log, i, p);
        var q :| 0 <= q < p && q < |s.log| && s.log[q].row == i;
        assert log'[q].row == i;
      } else {
        assert InLog(s.log, i);
        var q :| 0 <= q < |s.log| && s.log[q].row == i;
        assert log'[q].row == i;
      }
    }
  }

  lemma InLogStays(log: seq<Msg>, more: seq<Msg>)
    ensures forall i :: InLog(log, i) ==> InLog(log + more, i)
  {
    forall i | InLog(log, i) ensures InLog(log + more, i) {
      var k :| 0 <= k < |log| && log[k].row == i;
      assert (log + more)[k].row == i;
    }
  }

  /** Copies of row j may be appended, and writes of it may be under way, once its predecessors are in the log. */
  lemma WritesKeepOrder(s: State, s': State, j: RowId, n: nat)
    requires LogClosed(s) && LimboClosed(s) && LimboKnown(s) && j in s.outbox && EarlierInLog(s, j)
    requires s'.outbox == s.outbox && s'.log == s.log + Repeat(MsgOf(s, j), n)
    requires forall i :: i in s'.limbo ==> i in s.limbo || i == j
    ensures LogClosed(s') && LimboClosed(s') && LimboKnown(s')
  {
    AppendKeepsOrder(s, j, n);
    InLogStays(s.log, Repeat(MsgOf(s, j), n));
    hide Before;
  }

  lemma EarlierRowsPublished(s: State, i: RowId)
    requires SentInLog(s) && BatchesClosed(s) && 0 in s.relays && BatchOk(s, s.relays[0])
             && s.relays[0].published < |s.relays[0].rows|
    requires var j := s.relays[0].rows[s.relays[0].published];
             j in s.outbox && i in s.outbox && i < j && s.outbox[i].order == s.outbox[j].order
    ensures InLog(s.log, i)
  {
    var b := s.relays[0];
    assert b.rows[b.published] in b.rows;
    if !s.outbox[i].sent {
      assert i in b.rows;
      var x :| 0 <= x < |b.rows| && b.rows[x] == i;
      assert x < b.published;
    }
  }

  lemma NextIsDue(s: State)
    requires RelayInv(s) && BatchesClosed(s) && 0 in s.relays && s.relays[0].published < |s.relays[0].rows|
    ensures var j := s.relays[0].rows[s.relays[0].published]; j in s.outbox && EarlierInLog(s, j)
  {
    var j := s.relays[0].rows[s.relays[0].published];
    assert BatchOk(s, s.relays[0]);
    forall i | i in s.outbox && i < j && s.outbox[i].order == s.outbox[j].order ensures InLog(s.log, i) {
      EarlierRowsPublished(s, i);
    }
  }

  lemma PublishKeepsOneRelay(s: State, fate: PublishFate)
    requires RelayInv(s) && OneRelay(s)
    ensures OneRelay(DoPublish(s, 0, fate))
  {
    hide RelayInv, LogClosed, LimboClosed, LimboKnown, EarlierInLog, LostClosed;
    var s' := DoPublish(s, 0, fate);
    if s' != s {
      SameLost(s, s');
      NextIsDue(s);
      WritesKeepOrder(s, s', s.relays[0].rows[s.relays[0].published], Landed(fate));
    }
  }

  lemma LandKeepsOneRelay(s: State, id: RowId)
    requires OneRelay(s)
    ensures OneRelay(DoLand(s, id))
  {
    var s' := DoLand(s, id);
    if s' != s {
      assert Repeat(MsgOf(s, id), 1) == [MsgOf(s, id)];
      assert EarlierInLog(s, id);
      hide LogClosed, LimboClosed, LimboKnown, LostClosed;
      SameLost(s, s');
      WritesKeepOrder(s, s', id, 1);
    }
  }

  lemma MarkSentKeepsOneRelay(s: State)
    requires RelayInv(s) && OneRelay(s)
    ensures OneRelay(DoMarkSent(s, 0))
  {
    hide RelayInv;
  }

  lemma CrashKeepsOneRelay(s: State)
    requires OneRelay(s)
    ensures OneRelay(DoCrashRelay(s, 0))
  {
    hide Before, InLog;
  }

  lemma LoseTxKeepsOneRelay(s: State)
    requires RelayInv(s) && OneRelay(s)
    ensures OneRelay(DoLoseTx(s, 0))
  {
    assert SentInLog(s);
    hide RelayInv, Before, InLog;
  }

  /** The next row of a dispatch that lost its transaction is due as well: it goes on in order. */
  lemma NextStrayIsDue(s: State)
    requires LostOk(s) && LostClosed(s) && 0 in s.lost && s.lost[0].published < |s.lost[0].rows|
    ensures var j := s.lost[0].rows[s.lost[0].published]; j in s.outbox && EarlierInLog(s, j)
  {
    var b := s.lost[0];
    var j := b.rows[b.published];
    assert BatchShape(s, b) && j in b.rows;
    forall i | i in s.outbox && i < j && s.outbox[i].order == s.outbox[j].order ensures InLog(s.log, i) {
      if i in b.rows {
        var x :| 0 <= x < |b.rows| && b.rows[x] == i;
        assert x < b.published;
      }
    }
  }

  lemma StrayKeepsOneRelay(s: State, fate: PublishFate)
    requires LostOk(s) && OneRelay(s)
    ensures OneRelay(DoStray(s, 0, fate))
  {
    hide LostOk, LogClosed, LimboClosed, LimboKnown, EarlierInLog;
    var s' := DoStray(s, 0, fate);
    if s' != s {
      NextStrayIsDue(s);
      InLogStays(s.log, s'.log[|s.log|..]);
      assert s'.log == s.log + s'.log[|s.log|..];
      hide InLog;
      WritesKeepOrder(s, s', s.lost[0].rows[s.lost[0].published], Landed(fate));
    }
  }

  lemma FrameKeepsOneRelay(s: State, s': State)
    requires OneRelay(s)
    requires s'.relays == s.relays && s'.lost == s.lost
    requires s'.outbox == s.outbox && s'.log == s.log && s'.limbo == s.limbo
    ensures OneRelay(s')
  {
  }

  lemma StepKeepsOneRelay(s: State, a: Action)
    requires Inv(s) && RelayInv(s) && LostOk(s) && OneRelay(s)
    requires RelayStep(a) ==> a.relay == 0
    ensures OneRelay(Step(s, a))
  {
    hide Inv, RelayInv, LostOk, OneRelay;
    match a
    case CommitTx(p) => CommitKeepsOneRelay(s, p);
    case Select(_, limit) => SelectKeepsOneRelay(s, limit);
    case Publish(_, fate) => PublishKeepsOneRelay(s, fate);
    case MarkSent(_) => MarkSentKeepsOneRelay(s);
    case CrashRelay(_) => CrashKeepsOneRelay(s);
    case LoseTx(_) => LoseTxKeepsOneRelay(s);
    case Stray(_, fate) => StrayKeepsOneRelay(s, fate);
    case Land(id) => LandKeepsOneRelay(s, id);
    case _ => StepFrame(s, a); hide Step; FrameKeepsOneRelay(s, Step(s, a));
  }

  /** The relay actions of the run all belong to relays numbered below n. */
  ghost predicate UsesRelays(acts: seq<Action>, n: nat) {
    forall k :: 0 <= k < |acts| && RelayStep(acts[k]) ==> acts[k].relay < n
  }

  lemma {:induction false} OneRelayAlways(acts: seq<Action>)
    requires UsesRelays(acts, 1)
    ensures OneRelay(Exec(acts))
  {
    if acts != [] {
      RelayInvAlways(acts[..|acts|-1]);
      LostAlways(acts[..|acts|-1]);
      OneRelayAlways(acts[..|acts|-1]);
      StepKeepsOneRelay(Exec(acts[..|acts|-1]), acts[|acts|-1]);
    }
  }

  /** Whenever a row is in the log, the rows its order committed before it are in the log before it. */
  ghost predicate PublishedInCommitOrder(s: State) {
    forall c, d, p ::
      0 <= c < d < |s.journal| && SameOrder(s.journal[c], s.journal[d]) && 0 <= p < |s.log|
      && s.log[p].row == s.journal[d].row
      ==> Before(s.log, s.journal[c].row, p)
  }

  /** With one relay, first publications follow the commit order of each order's rows. */
  lemma OneRelayPublishesInOrder(acts: seq<Action>)
    requires UsesRelays(acts, 1)
    ensures PublishedInCommitOrder(Exec(acts))
  {
    OneRelayAlways(acts);
    JournalAlways(acts);
    InvAlways(acts);
  }

  // ----- Two relays

  /**
   Relay 0 locks the rows PLACED and ACCEPTED of order 7; PREPARING commits; relay 1 skips
   the locked rows, takes PREPARING and publishes it; relay 0 then publishes its two. Rows 1
   and 2 go to the same topic under the same key, and arrive in the wrong order.
   */
  const WRITES_TWO := CreateActs(0, 7) + MoveActs(1, 7, Accepted)
  const WRITES_THIRD := WRITES_TWO + [Select(0, 100)] + MoveActs(2, 7, Preparing)
  const TWO_RELAY_RUN := WRITES_THIRD + [Select(1, 100), Publish(1, ACK), Publish(0, ACK), Publish(0, ACK)]

  const COMMIT0 := RowCommit(0, 7, OrderPlaced)
  const COMMIT1 := RowCommit(1, 7, StatusUpdated(Accepted))
  const COMMIT2 := RowCommit(2, 7, StatusUpdated(Preparing))

  const ROW0 := Row(7, OrderPlaced, false)
  const ROW1 := Row(7, StatusUpdated(Accepted), false)
  const ROW2 := Row(7, StatusUpdated(Preparing), false)

  lemma TwoRowsCommit()
    ensures Exec(WRITES_TWO) == AfterTx(AfterTx(INIT, 7, OrderPlaced), 7, StatusUpdated(Accepted))
  {
    FirstCreate(0, 7);
    MoveUninterrupted(CreateActs(0, 7), 1, 7, Accepted);
  }

  /** Order 7 is placed and accepted, and relay 0 has locked both rows. */
  lemma RelayZeroSelects()
    ensures var s := Exec(WRITES_TWO + [Select(0, 100)]);
            && s.orders == map[7 := Order(Accepted, None)] && s.procs == map[] && s.nextRow == 2 && s.log == []
            && s.outbox == map[0 := ROW0, 1 := ROW1] && s.relays == map[0 := Batch([0, 1], 0)] && s.lost == map[]
            && s.journal == [COMMIT0, COMMIT1]
  {
    hide Exec;
    TwoRowsCommit();
    ExecSnoc(WRITES_TWO, Select(0, 100));
    var s := Exec(WRITES_TWO);
    assert PendingBelow(s, 1) == PendingBelow(s, 0) + [0];
    assert PendingBelow(s, 2) == [0, 1];
  }

  /** PREPARING commits while relay 0 holds the other two rows. */
  lemma ThirdRowCommits()
    ensures var s := Exec(WRITES_THIRD);
            && s.outbox == map[0 := ROW0, 1 := ROW1, 2 := ROW2] && s.nextRow == 3 && s.log == []
            && s.relays == map[0 := Batch([0, 1], 0)] && s.lost == map[]
            && s.journal == [COMMIT0, COMMIT1, COMMIT2]
  {
    RelayZeroSelects();
    MoveUninterrupted(WRITES_TWO + [Select(0, 100)], 2, 7, Preparing);
  }

  const MSG0 := Msg(0, 7, OrderPlaced)
  const MSG1 := Msg(1, 7, StatusUpdated(Accepted))
  const MSG2 := Msg(2, 7, StatusUpdated(Preparing))

  lemma RelayOneSkipsLocked(s: State)
    requires s.outbox == map[0 := ROW0, 1 := ROW1, 2 := ROW2] && s.nextRow == 3
             && s.relays == map[0 := Batch([0, 1], 0)] && s.lost == map[]
    ensures DoSelect(s, 1, 100) == s.(relays := s.relays[1 := Batch([2], 0)])
  {
    assert 0 in s.relays[0].rows && 1 in s.relays[0].rows;
    assert PendingBelow(s, 1) == PendingBelow(s, 0);
    assert PendingBelow(s, 2) == PendingBelow(s, 1);
    assert PendingBelow(s, 3) == [2];
  }

  /** Relay 1 publishes its row and then relay 0 its two. */
  lemma OvertakingPublishes(s: State)
    requires s.outbox == map[0 := ROW0, 1 := ROW1, 2 := ROW2] && s.log == []
    requires s.relays == map[0 := Batch([0, 1], 0), 1 := Batch([2], 0)]
    ensures var s' := DoPublish(DoPublish(DoPublish(s, 1, ACK), 0, ACK), 0, ACK);
            s'.log == [MSG2, MSG0, MSG1] && s'.journal == s.journal
  {
    hide DoPublish;
    PlainPublish(s, 1, ACK);
    var s1 := DoPublish(s, 1, ACK);
    PlainPublish(s1, 0, ACK);
    PlainPublish(DoPublish(s1, 0, ACK), 0, ACK);
  }

  lemma TwoRelayRunEnds()
    ensures UsesRelays(TWO_RELAY_RUN, 2)
    ensures Exec(TWO_RELAY_RUN)
            == DoPublish(DoPublish(DoPublish(DoSelect(Exec(WRITES_THIRD), 1, 100), 1, ACK), 0, ACK), 0, ACK)
  {
    hide Exec, DoSelect, DoPublish;
    ExecSnoc(WRITES_THIRD, Select(1, 100));
    ExecThree(WRITES_THIRD + [Select(1, 100)], Publish(1, ACK), Publish(0, ACK), Publish(0, ACK));
    assert WRITES_THIRD + [Select(1, 100)] + [Publish(1, ACK), Publish(0, ACK), Publish(0, ACK)] == TWO_RELAY_RUN;
  }

  /** Two events go to one topic exactly if both place orders, both assign riders, or both change statuses. */
  lemma OneTopicIff(e: Event, f: Event)
    ensures TopicOf(e) == TopicOf(f) <==>
            (e.OrderPlaced? <==> f.OrderPlaced?) && (e.OrderAssigned? <==> f.OrderAssigned?)
  {
  }

  lemma OvertakenIsOutOfOrder(s: State)
    requires s.journal == [COMMIT0, COMMIT1, COMMIT2]
    requires s.log == [MSG2, MSG0, MSG1]
    ensures !PublishedInCommitOrder(s)
  {
    assert SameOrder(s.journal[1], s.journal[2]) && s.log[0].row == s.journal[2].row;
    assert !Before(s.log, s.journal[1].row, 0);
  }

  /** PREPARING is in the log before ACCEPTED, which goes to the same topic under the same key. */
  lemma TwoRelaysReorder()
    ensures UsesRelays(TWO_RELAY_RUN, 2)
    ensures var s := Exec(TWO_RELAY_RUN);
            && s.log == [MSG2, MSG0, MSG1] && TopicOf(MSG1.event) == TopicOf(MSG2.event)
            && !PublishedInCommitOrder(s)
  {
    hide Exec, DoSelect, DoPublish, UsesRelays, PublishedInCommitOrder, TopicOf;
    OneTopicIff(MSG1.event, MSG2.event);
    ThirdRowCommits();
    TwoRelayRunEnds();
    var s := Exec(WRITES_THIRD);
    RelayOneSkipsLocked(s);
    OvertakingPublishes(DoSelect(s, 1, 100));
    OvertakenIsOutOfOrder(Exec(TWO_RELAY_RUN));
  }

  /** Publishing in commit order is guaranteed exactly when at most one relay runs. */
  lemma InOrderIffOneRelay(n: nat)
    ensures (forall acts :: UsesRelays(acts, n) ==> PublishedInCommitOrder(Exec(acts))) <==> n <= 1
  {
    if n <= 1 {
      forall acts | UsesRelays(acts, n) ensures PublishedInCommitOrder(Exec(acts)) {
        OneRelayPublishesInOrder(acts);
      }
    } else {
      TwoRelaysReorder();
      assert UsesRelays(TWO_RELAY_RUN, n);
    }
  }
}
