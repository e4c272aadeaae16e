/**
 Safety of the outbox relays for any number of them, with crashes, with publishes that fail
 ambiguously or are written several times, and with dispatches that go on publishing after
 the database has ended their transaction: no row is lost, none is locked twice, every message
 stands for a committed row, duplicates are paid for by failed dispatches and by the Kafka
 client's own retries, and exactly those dispatches can write a row that is already sent.
 */
module Relays {
  import opened System
  import opened Locking
  import opened Runs

  ghost predicate InLog(log: seq<Msg>, id: RowId) {
    exists k :: 0 <= k < |log| && log[k].row == id
  }

  /** Committed rows in id order, of which the first `published` are in the log. */
  ghost predicate BatchShape(s: State, b: Batch) {
    && 0 < |b.rows| && b.published <= |b.rows|
    && (forall i, j :: 0 <= i < j < |b.rows| ==> b.rows[i] < b.rows[j])
    && (forall i :: 0 <= i < |b.rows| ==> b.rows[i] in s.outbox)
    && (forall i :: 0 <= i < b.published ==> InLog(s.log, b.rows[i]))
  }

  ghost predicate BatchOk(s: State, b: Batch) {
    BatchShape(s, b) && forall i :: 0 <= i < |b.rows| ==> !s.outbox[b.rows[i]].sent
  }

  ghost predicate BatchesOk(s: State) {
    forall r :: r in s.relays ==> BatchOk(s, s.relays[r])
  }

  /** In-flight batches are pairwise disjoint: SKIP LOCKED gives each row to one relay at a time. */
  ghost predicate BatchesDisjoint(s: State) {
    forall r, t, id :: r in s.relays && t in s.relays && id in s.relays[r].rows && id in s.relays[t].rows ==> r == t
  }

  ghost predicate SentInLog(s: State) {
    forall id :: id in s.outbox && s.outbox[id].sent ==> InLog(s.log, id)
  }

  ghost predicate RelayInv(s: State) {
    BatchesOk(s) && BatchesDisjoint(s) && SentInLog(s)
  }

  /** A selection is sorted and takes only unsent rows that no relay holds. */
  lemma SelectedRows(s: State, limit: nat)
    ensures var rows := Take(PendingBelow(s, s.nextRow), limit);
            && (forall i :: 0 <= i < |rows| ==> Pending(s, rows[i]))
            && (forall i, j :: 0 <= i < j < |rows| ==> rows[i] < rows[j])
  {
    var all := PendingBelow(s, s.nextRow);
    assert forall i :: 0 <= i < |all| ==> all[i] in all;
  }

  lemma AddBatchKeeps(s: State, r: RelayId, rows: seq<RowId>)
    requires RelayInv(s) && r !in s.relays && rows != []
    requires forall i :: 0 <= i < |rows| ==> Pending(s, rows[i])
    requires forall i, j :: 0 <= i < j < |rows| ==> rows[i] < rows[j]
    ensures RelayInv(s.(relays := s.relays[r := Batch(rows, 0)]))
  {
    var s' := s.(relays := s.relays[r := Batch(rows, 0)]);
    assert forall id :: id in rows ==> Pending(s, id);
    forall t | t in s'.relays ensures BatchOk(s', s'.relays[t]) {
      assert t != r ==> BatchOk(s, s.relays[t]);
    }
  }

  lemma SelectKeeps(s: State, r: RelayId, limit: nat)
    requires RelayInv(s)
    ensures RelayInv(DoSelect(s, r, limit))
  {
    SelectedRows(s, limit);
    if DoSelect(s, r, limit) != s {
      AddBatchKeeps(s, r, Take(PendingBelow(s, s.nextRow), limit));
    }
  }

  lemma GiveUpKeeps(s: State, r: RelayId)
    requires RelayInv(s) && r in s.relays
    ensures RelayInv(GiveUp(s, r))
  {
  }

  lemma AppendKeeps(s: State, m: Msg, n: nat)
    requires RelayInv(s)
    ensures RelayInv(s.(log := s.log + Repeat(m, n)))
    ensures n > 0 ==> InLog(s.log + Repeat(m, n), m.row)
  {
    var log' := s.log + Repeat(m, n);
    forall id | InLog(s.log, id) ensures InLog(log', id) {
      var k :| 0 <= k < |s.log| && s.log[k].row == id;
      assert log'[k].row == id;
    }
    if n > 0 {
      assert log'[|s.log|] == m;
    }
  }

  /** The relays' invariant reads nothing of the writes under way or the consumer. */
  lemma FrameKeeps(s: State, s': State)
    requires RelayInv(s) && s'.relays == s.relays && s'.outbox == s.outbox && s'.log == s.log
    ensures RelayInv(s')
  {
  }

  lemma AdvanceKeeps(s: State, r: RelayId)
    requires RelayInv(s) && r in s.relays && s.relays[r].published < |s.relays[r].rows|
    requires InLog(s.log, s.relays[r].rows[s.relays[r].published])
    ensures RelayInv(s.(relays := s.relays[r := s.relays[r].(published := s.relays[r].published + 1)]))
  {
    assert BatchOk(s, s.relays[r]);
  }

  lemma WroteKeeps(s: State, id: RowId, fate: PublishFate)
    requires RelayInv(s) && id in s.outbox
    ensures RelayInv(Wrote(s, id, fate))
    ensures fate.Acked? ==> InLog(Wrote(s, id, fate).log, id)
  {
    hide RelayInv;
    AppendKeeps(s, MsgOf(s, id), Landed(fate));
    FrameKeeps(s.(log := s.log + Repeat(MsgOf(s, id), Landed(fate))), Wrote(s, id, fate));
  }

  lemma PublishKeeps(s: State, r: RelayId, fate: PublishFate)
    requires RelayInv(s)
    ensures RelayInv(DoPublish(s, r, fate))
  {
    hide RelayInv;
    if DoPublish(s, r, fate) != s {
      var id := s.relays[r].rows[s.relays[r].published];
      WroteKeeps(s, id, fate);
      var s1 := Wrote(s, id, fate);
      if fate.Acked? {
        AdvanceKeeps(s1, r);
      } else {
        GiveUpKeeps(s1, r);
      }
    }
  }

  lemma LandKeeps(s: State, id: RowId)
    requires RelayInv(s)
    ensures RelayInv(DoLand(s, id))
  {
    hide RelayInv;
    if DoLand(s, id) != s {
      AppendKeeps(s, MsgOf(s, id), 1);
      assert Repeat(MsgOf(s, id), 1) == [MsgOf(s, id)];
      FrameKeeps(s.(log := s.log + [MsgOf(s, id)]), DoLand(s, id));
    }
  }

  lemma MarkSentKeeps(s: State, r: RelayId)
    requires RelayInv(s)
    ensures RelayInv(DoMarkSent(s, r))
  {
    var s' := DoMarkSent(s, r);
    if s' != s {
      forall t | t in s'.relays ensures BatchOk(s', s'.relays[t]) {
        assert BatchOk(s, s.relays[t]);
        forall i | 0 <= i < |s.relays[t].rows| ensures s.relays[t].rows[i] !in s.relays[r].rows {
          assert s.relays[t].rows[i] in s.relays[t].rows;
        }
      }
    }
  }

  lemma LoseTxKeeps(s: State, r: RelayId)
    requires RelayInv(s)
    ensures RelayInv(DoLoseTx(s, r))
  {
  }

  lemma StrayKeeps(s: State, r: RelayId, fate: PublishFate)
    requires RelayInv(s)
    ensures RelayInv(DoStray(s, r, fate))
  {
    hide RelayInv;
    if DoStray(s, r, fate) != s {
      var id := s.lost[r].rows[s.lost[r].published];
      WroteKeeps(s, id, fate);
      FrameKeeps(Wrote(s, id, fate), DoStray(s, r, fate));
    }
  }

  lemma CommitKeeps(s: State, p: ProcId)
    requires Inv(s) && RelayInv(s)
    ensures RelayInv(DoCommitTx(s, p))
  {
    if CanCommit(s, p) {
      assert DrawOk(s, s.procs[p]);
    }
  }

  lemma StepKeepsRelayInv(s: State, a: Action)
    requires Inv(s) && RelayInv(s)
    ensures RelayInv(Step(s, a))
  {
    hide PendingBelow, Inv, RelayInv;
    match a
    case CommitTx(p) => CommitKeeps(s, p);
    case Select(r, limit) => SelectKeeps(s, r, limit);
    case Publish(r, fate) => PublishKeeps(s, r, fate);
    case MarkSent(r) => MarkSentKeeps(s, r);
    case CrashRelay(r) => if r in s.relays { GiveUpKeeps(s, r); } else { FrameKeeps(s, DoCrashRelay(s, r)); }
    case LoseTx(r) => LoseTxKeeps(s, r);
    case Stray(r, fate) => StrayKeeps(s, r, fate);
    case Land(id) => LandKeeps(s, id);
    case _ => StepFrame(s, a); hide Step; FrameKeeps(s, Step(s, a));
  }

  lemma {:induction false} RelayInvAlways(acts: seq<Action>)
    ensures RelayInv(Exec(acts)) && Inv(Exec(acts))
  {
    InvAlways(acts);
    if acts != [] {
      RelayInvAlways(acts[..|acts|-1]);
      StepKeepsRelayInv(Exec(acts[..|acts|-1]), acts[|acts|-1]);
    }
  }

  /**
   At-least-once publishing: a committed row is sent and in the log, or held by exactly one
   relay, or free for the next selection; and every message is a committed row's.
   */
  lemma NoRowIsLost(acts: seq<Action>)
    ensures var s := Exec(acts);
            && (forall id :: id in s.outbox ==>
                  if s.outbox[id].sent then InLog(s.log, id) && !Held(s, id)
                  else if Held(s, id) then exists r :: r in s.relays && id in s.relays[r].rows &&
                                                       forall t :: t in s.relays && id in s.relays[t].rows ==> t == r
                  else id in PendingBelow(s, s.nextRow))
            && (forall k :: 0 <= k < |s.log| ==>
                  && s.log[k].row in s.outbox
                  && s.log[k].order == s.outbox[s.log[k].row].order
                  && s.log[k].event == s.outbox[s.log[k].row].event)
  {
    RelayInvAlways(acts);
  }

  /** Rows stay: a later state still has every committed row, and a sent row stays sent. */
  lemma {:induction false} RowsStay(acts: seq<Action>, more: seq<Action>, id: RowId)
    requires id in Exec(acts).outbox
    ensures id in Exec(acts + more).outbox
    ensures Exec(acts + more).outbox[id].order == Exec(acts).outbox[id].order
    ensures Exec(acts + more).outbox[id].event == Exec(acts).outbox[id].event
    ensures Exec(acts).outbox[id].sent ==> Exec(acts + more).outbox[id].sent
  {
    if more == [] {
      assert acts + more == acts;
    } else {
      var prior, a := more[..|more|-1], more[|more|-1];
      assert acts + more == acts + prior + [a];
      RowsStay(acts, prior, id);
      ExecSnoc(acts + prior, a);
      InvAlways(acts + prior);
      StepRowsStay(Exec(acts + prior), a, id);
    }
  }

  lemma StepRowsStay(s: State, a: Action, id: RowId)
    requires Inv(s) && id in s.outbox
    ensures id in Step(s, a).outbox
    ensures Step(s, a).outbox[id].order == s.outbox[id].order && Step(s, a).outbox[id].event == s.outbox[id].event
    ensures s.outbox[id].sent ==> Step(s, a).outbox[id].sent
  {
    StepFrame(s, a);
    if a.CommitTx? && CanCommit(s, a.p) {
      assert DrawOk(s, s.procs[a.p]);
    } else if !a.MarkSent? {
      hide Step;
    }
  }

  // ----- Dispatches that lost their transaction

  ghost predicate LostOk(s: State) {
    forall r :: r in s.lost ==> r !in s.relays && BatchShape(s, s.lost[r])
  }

  lemma ShapeStays(s: State, s': State, b: Batch)
    requires BatchShape(s, b) && s.log <= s'.log && forall id :: id in s.outbox ==> id in s'.outbox
    ensures BatchShape(s', b)
  {
    forall i | 0 <= i < b.published ensures InLog(s'.log, b.rows[i]) {
      var k :| 0 <= k < |s.log| && s.log[k].row == b.rows[i];
      assert s'.log[k].row == b.rows[i];
    }
  }

  lemma LostStays(s: State, s': State)
    requires LostOk(s) && s.log <= s'.log && s'.lost == s.lost && forall id :: id in s.outbox ==> id in s'.outbox
    requires forall r :: r in s'.relays ==> r !in s.lost
    ensures LostOk(s')
  {
    forall r | r in s'.lost ensures r !in s'.relays && BatchShape(s', s'.lost[r]) {
      ShapeStays(s, s', s.lost[r]);
    }
  }

  lemma StrayKeepsLost(s: State, r: RelayId, fate: PublishFate)
    requires LostOk(s)
    ensures LostOk(DoStray(s, r, fate))
  {
    var s' := DoStray(s, r, fate);
    if s' != s {
      var b := s.lost[r];
      var id := b.rows[b.published];
      assert fate.Acked? ==> s'.log[|s.log|].row == id;
      forall t | t in s'.lost ensures t !in s'.relays && BatchShape(s', s'.lost[t]) {
        hide BatchShape;
        ShapeStays(s, s', s.lost[t]);
        if t == r {
          AdvanceShape(s', b);
        }
      }
    }
  }

  lemma AdvanceShape(s: State, b: Batch)
    requires BatchShape(s, b) && b.published < |b.rows| && InLog(s.log, b.rows[b.published])
    ensures BatchShape(s, b.(published := b.published + 1))
  {
  }

  lemma StepKeepsLost(s: State, a: Action)
    requires Inv(s) && RelayInv(s) && LostOk(s)
    ensures LostOk(Step(s, a))
  {
    hide Inv, BatchShape;
    match a
    case Stray(r, fate) => hide RelayInv, LostOk; StrayKeepsLost(s, r, fate);
    case LoseTx(r) =>
      if r in s.relays {
        assert BatchOk(s, s.relays[r]);
        LostShapes(s, DoLoseTx(s, r));
      }
    case CrashRelay(r) => LostShapes(s, DoCrashRelay(s, r));
    case _ => hide Step; OtherStepKeepsLost(s, a);
  }

  lemma OtherStepKeepsLost(s: State, a: Action)
    requires Inv(s) && LostOk(s) && !a.Stray? && !a.LoseTx? && !a.CrashRelay?
    ensures LostOk(Step(s, a))
  {
    hide Step, Inv, LostOk;
    StepLogGrows(s, a);
    forall id | id in s.outbox ensures id in Step(s, a).outbox {
      StepRowsStay(s, a, id);
    }
    RelaysStayOffLost(s, a);
    LostStays(s, Step(s, a));
  }

  lemma LostShapes(s: State, s': State)
    requires s'.log == s.log && s'.outbox == s.outbox
    ensures forall b :: BatchShape(s, b) ==> BatchShape(s', b)
  {
  }

  lemma RelaysStayOffLost(s: State, a: Action)
    requires LostOk(s) && !a.Stray? && !a.LoseTx? && !a.CrashRelay?
    ensures Step(s, a).lost == s.lost && forall r :: r in Step(s, a).relays ==> r !in s.lost
  {
    StepFrame(s, a);
    hide BatchShape;
    if !RelayStep(a) {
      hide Step;
    }
  }

  lemma StepLogGrows(s: State, a: Action)
    ensures s.log <= Step(s, a).log
  {
    if a.Publish? || a.Stray? || a.Land? {
      hide GiveUp, Landed, More, ExtraWrites;
    } else {
      StepFrame(s, a);
    }
  }

  lemma {:induction false} LostAlways(acts: seq<Action>)
    ensures LostOk(Exec(acts))
  {
    if acts != [] {
      RelayInvAlways(acts[..|acts|-1]);
      LostAlways(acts[..|acts|-1]);
      hide Step, LostOk, RelayInv, Inv;
      StepKeepsLost(Exec(acts[..|acts|-1]), acts[|acts|-1]);
    }
  }

  // ----- Duplicates

  function Copies(log: seq<Msg>, id: RowId): nat {
    if log == [] then 0
    else Copies(log[..|log|-1], id) + if log[|log|-1].row == id then 1 else 0
  }

  lemma {:induction false} CopiesAppend(log: seq<Msg>, m: Msg, n: nat, id: RowId)
    ensures Copies(log + Repeat(m, n), id) == Copies(log, id) + if m.row == id then n else 0
  {
    if n == 0 {
      assert log + Repeat(m, n) == log;
    } else {
      var log' := log + Repeat(m, n);
      assert log'[..|log'|-1] == log + Repeat(m, n - 1) && log'[|log'|-1] == m;
      CopiesAppend(log, m, n - 1, id);
    }
  }

  /** The writes made of a row's message, landed or still under way. */
  function Writes(s: State, id: RowId): nat {
    Copies(s.log, id) + s.limbo[id]
  }

  lemma LandWrites(s: State, id: RowId, i: RowId)
    ensures Writes(DoLand(s, id), i) == Writes(s, i)
  {
    if DoLand(s, id) != s {
      CopiesAppend(s.log, MsgOf(s, id), 1, i);
      assert Repeat(MsgOf(s, id), 1) == [MsgOf(s, id)];
    }
  }

  /** How many writes a publish makes. */
  function WritesOf(fate: PublishFate): nat {
    match fate
    case Acked(extra, late) => 1 + extra + late
    case Failed(copies, late) => copies + late
  }

  lemma WroteWrites(s: State, id: RowId, fate: PublishFate, i: RowId)
    requires id in s.outbox
    ensures var s' := Wrote(s, id, fate);
            && Writes(s', i) == Writes(s, i) + (if i == id then WritesOf(fate) else 0)
            && s'.retries[i] == s.retries[i] + (if i == id then ExtraWrites(fate) else 0)
    ensures WritesOf(fate) <= 1 + ExtraWrites(fate)
  {
    CopiesAppend(s.log, MsgOf(s, id), Landed(fate), i);
  }

  /**
   What one publish of a row leaves behind: its message, unchanged, as often in the log as landed
   at once, and the rest under way; all writes but one count as the client's retries.
   */
  ghost predicate WritesRow(s: State, s': State, id: RowId, fate: PublishFate) {
    && id in s.outbox && s.log <= s'.log
    && (forall k :: |s.log| <= k < |s'.log| ==>
          s'.log[k].row == id && s'.log[k].order == s.outbox[id].order && s'.log[k].event == s.outbox[id].event)
    && (match fate
        case Acked(extra, late) =>
          && |s'.log| == |s.log| + 1 + extra
          && (forall x: RowId :: s'.limbo[x] == s.limbo[x] + if x == id then late else 0)
          && (forall x: RowId :: s'.retries[x] == s.retries[x] + if x == id then extra + late else 0)
        case Failed(copies, late) =>
          && |s'.log| == |s.log| + copies
          && (forall x: RowId :: s'.limbo[x] == s.limbo[x] + if x == id then late else 0)
          && (forall x: RowId ::
                s'.retries[x] == s.retries[x] + if x == id && copies + late > 0 then copies + late - 1 else 0))
  }

  lemma WroteWritesRow(s: State, id: RowId, fate: PublishFate)
    requires id in s.outbox
    ensures WritesRow(s, Wrote(s, id, fate), id, fate)
  {
  }

  /** The row was published by a dispatch that has not failed: already marked, or still in flight. */
  ghost predicate Credited(s: State, id: RowId) {
    || (id in s.outbox && s.outbox[id].sent)
    || exists r :: r in s.relays && id in s.relays[r].rows[..Published(s.relays[r])]
  }

  function Published(b: Batch): nat {
    if b.published <= |b.rows| then b.published else |b.rows|
  }

  /** Every write of the row is paid for by a failed dispatch, a retry or the row's one credit. */
  ghost predicate Paid(s: State, id: RowId) {
    Writes(s, id) <= s.failed[id] + s.retries[id] + if Credited(s, id) then 1 else 0
  }

  ghost predicate DuplicatesPaid(s: State) {
    forall id: RowId :: Paid(s, id)
  }

  lemma GiveUpPays(s: State, r: RelayId)
    requires RelayInv(s) && r in s.relays && DuplicatesPaid(s)
    ensures DuplicatesPaid(GiveUp(s, r))
  {
    var s' := GiveUp(s, r);
    forall id: RowId ensures Paid(s', id) {
      assert Paid(s, id);
      if id in s.relays[r].rows {
        assert id in multiset(s.relays[r].rows);
      } else if Credited(s, id) && !(id in s.outbox && s.outbox[id].sent) {
        var t :| t in s.relays && id in s.relays[t].rows[..Published(s.relays[t])];
        assert t in s'.relays && s'.relays[t] == s.relays[t];
      }
    }
  }

  lemma NotYetCredited(s: State, r: RelayId, i: nat)
    requires RelayInv(s) && r in s.relays && s.relays[r].published <= i < |s.relays[r].rows|
    ensures !Credited(s, s.relays[r].rows[i])
  {
    var id := s.relays[r].rows[i];
    assert id in s.relays[r].rows;
    assert BatchOk(s, s.relays[r]);
    forall t | t in s.relays ensures id !in s.relays[t].rows[..Published(s.relays[t])] {
      assert id in s.relays[t].rows ==> t == r;
    }
  }

  lemma CreditKept(s: State, s': State, id: RowId)
    requires Credited(s, id)
    requires id in s.outbox && s.outbox[id].sent ==> id in s'.outbox && s'.outbox[id].sent
    requires forall r :: r in s.relays ==> r in s'.relays && s'.relays[r].rows == s.relays[r].rows
                                           && s.relays[r].published <= s'.relays[r].published
    ensures Credited(s', id)
  {
    if !(id in s.outbox && s.outbox[id].sent) {
      var r :| r in s.relays && id in s.relays[r].rows[..Published(s.relays[r])];
      assert id in s'.relays[r].rows[..Published(s'.relays[r])];
    }
  }

  /** An acknowledged publish turns the row's place in the batch into a credit. */
  lemma AckedPays(s: State, r: RelayId, fate: PublishFate)
    requires RelayInv(s) && DuplicatesPaid(s) && fate.Acked? && DoPublish(s, r, fate) != s
    ensures DuplicatesPaid(DoPublish(s, r, fate))
  {
    var s', b := DoPublish(s, r, fate), s.relays[r];
    var id := b.rows[b.published];
    assert BatchOk(s, b);
    NotYetCredited(s, r, b.published);
    assert id in s'.relays[r].rows[..Published(s'.relays[r])];
    hide RelayInv, Copies;
    forall i: RowId ensures Paid(s', i) {
      assert Paid(s, i);
      WroteWrites(s, id, fate, i);
      if Credited(s, i) {
        CreditKept(s, s', i);
      }
    }
  }

  /** The first write of a publish that then fails is paid for by the failed dispatch. */
  lemma FailedPays(s: State, r: RelayId, fate: PublishFate)
    requires RelayInv(s) && DuplicatesPaid(s) && fate.Failed? && DoPublish(s, r, fate) != s
    ensures DuplicatesPaid(DoPublish(s, r, fate))
  {
    var s', b, g := DoPublish(s, r, fate), s.relays[r], GiveUp(s, r);
    var id := b.rows[b.published];
    NotYetCredited(s, r, b.published);
    GiveUpPays(s, r);
    hide RelayInv, Copies;
    assert Paid(s, id) && id in multiset(b.rows);
    forall i: RowId ensures Paid(s', i) {
      assert Paid(g, i);
      assert Credited(g, i) <==> Credited(s', i);
      WroteWrites(s, id, fate, i);
    }
  }

  lemma PublishPays(s: State, r: RelayId, fate: PublishFate)
    requires RelayInv(s) && DuplicatesPaid(s)
    ensures DuplicatesPaid(DoPublish(s, r, fate))
  {
    hide RelayInv, DuplicatesPaid;
    if DoPublish(s, r, fate) != s {
      if fate.Acked? {
        AckedPays(s, r, fate);
      } else {
        FailedPays(s, r, fate);
      }
    }
  }

  /** What a dispatch published before it lost its transaction is paid for by its failure. */
  lemma LoseTxPays(s: State, r: RelayId)
    requires RelayInv(s) && DuplicatesPaid(s)
    ensures DuplicatesPaid(DoLoseTx(s, r))
  {
    var s' := DoLoseTx(s, r);
    if s' != s {
      var done := Done(s.relays[r]);
      assert done == s.relays[r].rows[..Published(s.relays[r])];
      forall id: RowId ensures Paid(s', id) {
        assert Paid(s, id);
        if id in done {
          assert id in multiset(done);
        } else if Credited(s, id) && !(id in s.outbox && s.outbox[id].sent) {
          var t :| t in s.relays && id in s.relays[t].rows[..Published(s.relays[t])];
          assert t in s'.relays && s'.relays[t] == s.relays[t];
        }
      }
    }
  }

  /** And what it publishes afterwards. */
  lemma StrayPays(s: State, r: RelayId, fate: PublishFate)
    requires DuplicatesPaid(s)
    ensures DuplicatesPaid(DoStray(s, r, fate))
  {
    var s' := DoStray(s, r, fate);
    if s' != s {
      var b := s.lost[r];
      var id := b.rows[b.published];
      assert b.rows[b.published..][0] == id;
      assert s'.failed[id] > s.failed[id] by {
        assert fate.Failed? ==> id in multiset(Left(b));
      }
      hide Copies;
      forall i: RowId ensures Paid(s', i) {
        assert Paid(s, i);
        assert Credited(s, i) <==> Credited(s', i);
        WroteWrites(s, id, fate, i);
      }
    }
  }

  lemma LandPays(s: State, id: RowId)
    requires DuplicatesPaid(s)
    ensures DuplicatesPaid(DoLand(s, id))
  {
    hide Copies;
    forall i: RowId ensures Paid(DoLand(s, id), i) {
      assert Paid(s, i);
      LandWrites(s, id, i);
      assert Credited(DoLand(s, id), i) <==> Credited(s, i);
    }
  }

  lemma MarkSentPays(s: State, r: RelayId)
    requires RelayInv(s) && DuplicatesPaid(s)
    ensures DuplicatesPaid(DoMarkSent(s, r))
  {
    var s' := DoMarkSent(s, r);
    if s' != s {
      forall id: RowId ensures Paid(s', id) {
        assert Paid(s, id);
        if Credited(s, id) && !(id in s.outbox && s.outbox[id].sent) {
          var t :| t in s.relays && id in s.relays[t].rows[..Published(s.relays[t])];
          assert BatchOk(s, s.relays[t]);
          assert t != r ==> t in s'.relays && s'.relays[t] == s.relays[t];
        }
      }
    }
  }

  lemma QuietStepPays(s: State, s': State)
    requires DuplicatesPaid(s) && s'.log == s.log && s'.limbo == s.limbo && s'.retries == s.retries
    requires forall id :: s.failed[id] <= s'.failed[id]
    requires forall r :: r in s.relays ==> r in s'.relays && s'.relays[r] == s.relays[r]
    requires forall id :: id in s.outbox && s.outbox[id].sent ==> id in s'.outbox && s'.outbox[id].sent
    ensures DuplicatesPaid(s')
  {
    forall id: RowId ensures Paid(s', id) {
      assert Paid(s, id);
      if Credited(s, id) {
        CreditKept(s, s', id);
      }
    }
  }

  lemma OtherStepPays(s: State, a: Action)
    requires Inv(s) && DuplicatesPaid(s) && !RelayStep(a) && !a.Land?
    ensures DuplicatesPaid(Step(s, a))
  {
    hide Inv, DuplicatesPaid, Step;
    StepFrame(s, a);
    forall id | id in s.outbox && s.outbox[id].sent ensures id in Step(s, a).outbox && Step(s, a).outbox[id].sent {
      StepRowsStay(s, a, id);
    }
    QuietStepPays(s, Step(s, a));
  }

  lemma StepPays(s: State, a: Action)
    requires Inv(s) && RelayInv(s) && DuplicatesPaid(s)
    ensures DuplicatesPaid(Step(s, a))
  {
    hide Inv, RelayInv, DuplicatesPaid;
    match a
    case Publish(r, fate) => PublishPays(s, r, fate);
    case MarkSent(r) => MarkSentPays(s, r);
    case CrashRelay(r) => if r in s.relays { GiveUpPays(s, r); } else { QuietStepPays(s, DoCrashRelay(s, r)); }
    case LoseTx(r) => LoseTxPays(s, r);
    case Stray(r, fate) => StrayPays(s, r, fate);
    case Land(id) => LandPays(s, id);
    case Select(r, limit) =>
      hide PendingBelow;
      QuietStepPays(s, DoSelect(s, r, limit));
    case _ => OtherStepPays(s, a);
  }

  lemma {:induction false} DuplicatesPaidAlways(acts: seq<Action>)
    ensures DuplicatesPaid(Exec(acts))
  {
    if acts != [] {
      var before := acts[..|acts|-1];
      RelayInvAlways(before);
      DuplicatesPaidAlways(before);
      StepPays(Exec(before), acts[|acts|-1]);
    }
  }

  /**
   A row is in the log, now or later, at most once more than the failed dispatches that held
   it and the retries the Kafka client made of it.
   */
  lemma DuplicatesBounded(acts: seq<Action>, id: RowId)
    ensures var s := Exec(acts); Copies(s.log, id) + s.limbo[id] <= 1 + s.failed[id] + s.retries[id]
  {
    DuplicatesPaidAlways(acts);
    assert Paid(Exec(acts), id);
  }

  // ----- Writes of rows that are already sent

  /** Some dispatch that lost its transaction has the row still to publish. */
  ghost predicate Owed(s: State, id: RowId) {
    exists r :: r in s.lost && id in Left(s.lost[r])
  }

  lemma StepNoWriteOfSent(s: State, a: Action, id: RowId)
    requires RelayInv(s) && id in s.outbox && s.outbox[id].sent && !Owed(s, id)
    ensures Writes(Step(s, a), id) == Writes(s, id)
  {
    if a.Publish? && DoPublish(s, a.relay, a.fate) != s {
      var b := s.relays[a.relay];
      assert BatchOk(s, b);
      WroteWrites(s, b.rows[b.published], a.fate, id);
    } else if a.Stray? && DoStray(s, a.relay, a.fate) != s {
      var b := s.lost[a.relay];
      assert b.rows[b.published..][0] == b.rows[b.published];
      WroteWrites(s, b.rows[b.published], a.fate, id);
    } else if a.Land? {
      LandWrites(s, a.row, id);
    } else {
      StepFrame(s, a);
    }
  }

  /** No dispatch holding a lock has a sent row, so none comes to owe one. */
  lemma StepKeepsUnowed(s: State, a: Action, id: RowId)
    requires RelayInv(s) && id in s.outbox && s.outbox[id].sent && !Owed(s, id)
    ensures !Owed(Step(s, a), id)
  {
    StepFrame(s, a);
    var s' := Step(s, a);
    forall r | r in s'.lost ensures id !in Left(s'.lost[r]) {
      if r in s.lost {
        assert id !in Left(s.lost[r]);
      }
      if a.LoseTx? {
        assert r in s.relays ==> BatchOk(s, s.relays[r]);
      }
    }
  }

  lemma {:induction false} NoCopyWhileUnowed(acts: seq<Action>, more: seq<Action>, id: RowId)
    requires id in Exec(acts).outbox && Exec(acts).outbox[id].sent && !Owed(Exec(acts), id)
    ensures Writes(Exec(acts + more), id) == Writes(Exec(acts), id) && !Owed(Exec(acts + more), id)
  {
    hide Exec, Owed;
    if more == [] {
      assert acts + more == acts;
    } else {
      var prior, a := more[..|more|-1], more[|more|-1];
      assert acts + more == acts + prior + [a];
      NoCopyWhileUnowed(acts, prior, id);
      ExecSnoc(acts + prior, a);
      RelayInvAlways(acts + prior);
      RowsStay(acts, prior, id);
      StepNoWriteOfSent(Exec(acts + prior), a, id);
      StepKeepsUnowed(Exec(acts + prior), a, id);
    }
  }

  /** A stray publish acknowledged at the first try. */
  lemma PlainStray(s: State, r: RelayId)
    requires r in s.lost && s.lost[r].published < |s.lost[r].rows| && s.lost[r].rows[s.lost[r].published] in s.outbox
    ensures var b := s.lost[r];
            Step(s, Stray(r, ACK)) == s.(log := s.log + [MsgOf(s, b.rows[b.published])],
                                         lost := s.lost[r := b.(published := b.published + 1)],
                                         failed := s.failed + multiset{b.rows[b.published]})
  {
    hide Wrote, MsgOf;
    PlainWrite(s, s.lost[r].rows[s.lost[r].published], ACK);
  }

  lemma NextLeft(b: Batch)
    requires b.published < |b.rows|
    ensures Left(b) == [b.rows[b.published]] + Left(b.(published := b.published + 1))
  {
  }

  lemma OneMoreWrite(s: State, s': State, m: Msg, id: RowId)
    requires s'.log == s.log + [m] && s'.limbo == s.limbo
    ensures Writes(s', id) == Writes(s, id) + if m.row == id then 1 else 0
  {
    assert Repeat(m, 1) == [m];
    CopiesAppend(s.log, m, 1, id);
  }

  lemma StrayStep(s: State, r: RelayId, id: RowId)
    requires LostOk(s) && r in s.lost && id in Left(s.lost[r])
    ensures var b, s' := s.lost[r], Step(s, Stray(r, ACK));
            && b.published < |b.rows| && r in s'.lost && |Left(s'.lost[r])| < |Left(b)|
            && Writes(s', id) == Writes(s, id) + (if b.rows[b.published] == id then 1 else 0)
            && (b.rows[b.published] != id ==> id in Left(s'.lost[r]))
  {
    var b := s.lost[r];
    assert BatchShape(s, b);
    NextLeft(b);
    PlainStray(s, r);
    var s' := Step(s, Stray(r, ACK));
    hide Step, Writes, Left, BatchShape;
    OneMoreWrite(s, s', MsgOf(s, b.rows[b.published]), id);
  }

  /** A dispatch that owes the row writes it if its next publishes go through. */
  lemma {:induction false} OwedIsWritten(acts: seq<Action>, r: RelayId, id: RowId) returns (more: seq<Action>)
    requires r in Exec(acts).lost && id in Left(Exec(acts).lost[r])
    ensures Writes(Exec(acts + more), id) > Writes(Exec(acts), id)
    decreases |Left(Exec(acts).lost[r])|
  {
    hide Exec, Step, LostOk, Left, Writes;
    var b := Exec(acts).lost[r];
    LostAlways(acts);
    ExecSnoc(acts, Stray(r, ACK));
    StrayStep(Exec(acts), r, id);
    if b.rows[b.published] == id {
      more := [Stray(r, ACK)];
    } else {
      var rest := OwedIsWritten(acts + [Stray(r, ACK)], r, id);
      more := [Stray(r, ACK)] + rest;
      assert acts + more == acts + [Stray(r, ACK)] + rest;
    }
  }

  /**
   Once a row is marked sent, no run writes it again (only writes already under way land)
   exactly when no dispatch that lost its transaction has it still to publish.
   */
  lemma NoCopyAfterSentIff(acts: seq<Action>, id: RowId)
    requires id in Exec(acts).outbox && Exec(acts).outbox[id].sent
    ensures (forall more :: Writes(Exec(acts + more), id) == Writes(Exec(acts), id)) <==> !Owed(Exec(acts), id)
  {
    hide Exec;
    if Owed(Exec(acts), id) {
      var r :| r in Exec(acts).lost && id in Left(Exec(acts).lost[r]);
      var more := OwedIsWritten(acts, r, id);
      assert Writes(Exec(acts + more), id) != Writes(Exec(acts), id);
    } else {
      forall more ensures Writes(Exec(acts + more), id) == Writes(Exec(acts), id) {
        NoCopyWhileUnowed(acts, more, id);
      }
    }
  }

  // ----- It does happen

  /** Relay 0 takes the row and loses its transaction; relay 1 takes it, publishes and marks it. */
  const TAKEN := CreateActs(0, 7) + [Select(0, 100)]
  const TAKEN_AGAIN := TAKEN + [LoseTx(0)] + [Select(1, 100)]
  const SENT_BY_OTHER := TAKEN_AGAIN + [Publish(1, ACK)] + [MarkSent(1)]
  const STRAY_RUN := SENT_BY_OTHER + [Stray(0, ACK)]

  const STRAY_MSG := Msg(0, 7, OrderPlaced)

  lemma TakenAgainEnds()
    ensures var s := Exec(TAKEN_AGAIN);
            && s.outbox == map[0 := Row(7, OrderPlaced, false)] && s.log == []
            && s.relays == map[1 := Batch([0], 0)] && s.lost == map[0 := Batch([0], 0)]
  {
    hide Exec, DoSelect;
    FirstCreate(0, 7);
    ExecSnoc(CreateActs(0, 7), Select(0, 100));
    SelectOnly(Exec(CreateActs(0, 7)), 0);
    ExecSnoc(TAKEN, LoseTx(0));
    var s := Exec(TAKEN + [LoseTx(0)]);
    assert s.relays == map[];
    SelectOnly(s, 1);
    ExecSnoc(TAKEN + [LoseTx(0)], Select(1, 100));
  }

  lemma SentByOtherEnds()
    ensures var s := Exec(SENT_BY_OTHER);
            && s.outbox == map[0 := Row(7, OrderPlaced, true)] && s.log == [STRAY_MSG]
            && s.relays == map[] && s.lost == map[0 := Batch([0], 0)]
  {
    hide Exec, DoPublish;
    TakenAgainEnds();
    ExecSnoc(TAKEN_AGAIN, Publish(1, ACK));
    PlainPublish(Exec(TAKEN_AGAIN), 1, ACK);
    ExecSnoc(TAKEN_AGAIN + [Publish(1, ACK)], MarkSent(1));
  }

  /** A row marked sent is published once more, by a relay that had lost its lock on it. */
  lemma SentRowIsWrittenAgain()
    ensures var s, s' := Exec(SENT_BY_OTHER), Exec(STRAY_RUN);
            && s.outbox == map[0 := Row(7, OrderPlaced, true)] && s.log == [STRAY_MSG]
            && s'.log == [STRAY_MSG, STRAY_MSG]
  {
    hide Exec;
    SentByOtherEnds();
    ExecSnoc(SENT_BY_OTHER, Stray(0, ACK));
    PlainStray(Exec(SENT_BY_OTHER), 0);
    hide Step;
  }
}
