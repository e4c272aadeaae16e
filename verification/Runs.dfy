/** Uninterrupted transactions: what the writers' statements do when nothing runs between them. */
module Runs {
  import opened Options
  import opened Lifecycle
  import opened System

  /** The state after one whole transaction of event `e` on order `o`. */
  function AfterTx(s: State, o: OrderId, e: Event): State {
    WriteTables(s.(nextRow := s.nextRow + 1), o, e, s.nextRow)
  }

  /** What a transaction writes does not depend on the other processes. */
  lemma TxIgnoresProcs(s: State, s': State, procs: map<ProcId, Proc>, o: OrderId, e: Event)
    requires s' == s.(procs := s'.procs)
    ensures AfterTx(s', o, e).(procs := procs) == AfterTx(s, o, e).(procs := procs)
  {
  }

  function CreateActs(p: ProcId, o: OrderId): seq<Action> {
    [BeginCreate(p, o), DrawRow(p), CommitTx(p)]
  }

  function MoveActs(p: ProcId, o: OrderId, to: Status): seq<Action> {
    [ReadOrder(p, o, to), LockOrder(p), DrawRow(p), CommitTx(p)]
  }

  lemma ExecThree(acts: seq<Action>, a: Action, b: Action, c: Action)
    ensures Exec(acts + [a, b, c]) == Step(Step(Step(Exec(acts), a), b), c)
  {
    ExecSnoc(acts, a);
    ExecSnoc(acts + [a], b);
    ExecSnoc(acts + [a] + [b], c);
    assert acts + [a] + [b] + [c] == acts + [a, b, c];
  }

  lemma DrawThenCommit(s: State, p: ProcId)
    requires p in s.procs && s.procs[p].hold.OrderRow? && s.procs[p].hold.draw == None && !s.procs[p].job.Assign?
    ensures DoCommitTx(DoDrawRow(s, p), p)
            == AfterTx(s, s.procs[p].job.order, s.procs[p].hold.event).(procs := s.procs - {p})
  {
    assert DoDrawRow(s, p).procs - {p} == s.procs - {p};
  }

  lemma ReadThenLock(s: State, p: ProcId, o: OrderId, to: Status)
    requires p !in s.procs && OrderFree(s, o) && o in s.orders && Legal(s.orders[o].status, to)
    ensures DoLockOrder(DoReadOrder(s, p, o, to), p)
            == s.(procs := s.procs[p := Proc(Transition(o, s.orders[o].status, to), OrderRow(StatusUpdated(to), None))])
  {
    var s1 := DoReadOrder(s, p, o, to);
    assert OrderFree(s1, o);
    assert s1.procs[p := DoLockOrder(s1, p).procs[p]] == s.procs[p := DoLockOrder(s1, p).procs[p]];
  }

  /** Repository.Create without interruption. */
  lemma CreateUninterrupted(acts: seq<Action>, p: ProcId, o: OrderId)
    requires var s := Exec(acts);
             p !in s.procs && o !in s.orders && forall q :: q in s.procs ==> s.procs[q].job.order != o
    ensures Exec(acts + CreateActs(p, o)) == AfterTx(Exec(acts), o, OrderPlaced)
  {
    hide Exec, DoDrawRow, DoCommitTx;
    var s := Exec(acts);
    ExecThree(acts, BeginCreate(p, o), DrawRow(p), CommitTx(p));
    var s1 := DoBeginCreate(s, p, o);
    assert s1.procs - {p} == s.procs;
    DrawThenCommit(s1, p);
  }

  lemma FirstCreate(p: ProcId, o: OrderId)
    ensures Exec(CreateActs(p, o)) == AfterTx(INIT, o, OrderPlaced)
  {
    CreateUninterrupted([], p, o);
    assert [] + CreateActs(p, o) == CreateActs(p, o);
  }

  /** Service.Transition without interruption. */
  lemma MoveUninterrupted(acts: seq<Action>, p: ProcId, o: OrderId, to: Status)
    requires var s := Exec(acts); p !in s.procs && OrderFree(s, o) && o in s.orders && Legal(s.orders[o].status, to)
    ensures Exec(acts + MoveActs(p, o, to)) == AfterTx(Exec(acts), o, StatusUpdated(to))
  {
    hide Exec, DoReadOrder, DoLockOrder, DoDrawRow, DoCommitTx;
    var s := Exec(acts);
    var locking := [ReadOrder(p, o, to), LockOrder(p), DrawRow(p)];
    ExecThree(acts, ReadOrder(p, o, to), LockOrder(p), DrawRow(p));
    ExecSnoc(acts + locking, CommitTx(p));
    assert acts + locking + [CommitTx(p)] == acts + MoveActs(p, o, to);
    ReadThenLock(s, p, o, to);
    var s2 := DoLockOrder(DoReadOrder(s, p, o, to), p);
    assert s2.procs - {p} == s.procs;
    DrawThenCommit(s2, p);
  }

  // ----- One relay dispatch

  lemma PlainWrite(s: State, id: RowId, fate: PublishFate)
    requires id in s.outbox && fate.Acked? && fate.extra == 0 && fate.late == 0
    ensures Wrote(s, id, fate) == s.(log := s.log + [MsgOf(s, id)])
  {
    assert Repeat(MsgOf(s, id), 1) == [MsgOf(s, id)];
  }

  /** A publish acknowledged at the first try. */
  lemma PlainPublish(s: State, r: RelayId, fate: PublishFate)
    requires fate.Acked? && fate.extra == 0 && fate.late == 0
    requires r in s.relays && s.relays[r].published < |s.relays[r].rows|
    requires s.relays[r].rows[s.relays[r].published] in s.outbox
    ensures var b := s.relays[r];
            DoPublish(s, r, fate) == s.(log := s.log + [MsgOf(s, b.rows[b.published])],
                                        relays := s.relays[r := b.(published := b.published + 1)])
  {
    hide Wrote, MsgOf, GiveUp;
    PlainWrite(s, s.relays[r].rows[s.relays[r].published], fate);
  }

  lemma SelectOnly(s: State, r: RelayId)
    requires s.outbox == map[0 := Row(7, OrderPlaced, false)] && s.nextRow == 1 && s.relays == map[] && r !in s.lost
    ensures DoSelect(s, r, 100) == s.(relays := map[r := Batch([0], 0)])
  {
    assert PendingBelow(s, 0) == [];
    assert PendingBelow(s, 1) == [0];
    assert s.relays[r := Batch([0], 0)] == map[r := Batch([0], 0)];
  }

  /** Order 7 is placed and its order.placed message published. */
  const PLACED_RUN := CreateActs(0, 7) + [Select(0, 100)] + [Publish(0, ACK)]

  lemma PlacedRunEnds()
    ensures Exec(PLACED_RUN)
            == AfterTx(INIT, 7, OrderPlaced).(relays := map[0 := Batch([0], 1)], log := [Msg(0, 7, OrderPlaced)])
  {
    hide Exec, DoSelect, DoPublish;
    FirstCreate(0, 7);
    ExecSnoc(CreateActs(0, 7), Select(0, 100));
    ExecSnoc(CreateActs(0, 7) + [Select(0, 100)], Publish(0, ACK));
    var s := Exec(CreateActs(0, 7));
    SelectOnly(s, 0);
    var s1 := DoSelect(s, 0, 100);
    PlainPublish(s1, 0, ACK);
    assert s1.relays[0 := Batch([0], 1)] == map[0 := Batch([0], 1)];
  }

  // ----- One delivery

  /** The rows of an assignment transaction drawn and committed. */
  lemma DeliveryCommits(s: State, p: ProcId)
    requires p in s.procs && s.procs[p].hold.OrderRow? && s.procs[p].hold.draw == None && s.procs[p].job.Assign?
    ensures var q := s.procs[p];
            var out := if q.hold.event.NoRider? then NoRiderCancelled(s.nextRow) else Claimed(s.nextRow);
            DoCommitTx(DoDrawRow(s, p), p)
            == AfterTx(s, q.job.order, q.hold.event).(procs := s.procs[p := Proc(q.job, Ended(out))])
  {
    var s1 := DoDrawRow(s, p);
    assert AfterCommit(s1, p) == s.procs[p := AfterCommit(s1, p)[p]];
  }

  /** The statements of markCancelled, and of a claim once the rider row is taken. */
  function TailActs(p: ProcId): seq<Action> {
    [LockOrder(p), DrawRow(p), CommitTx(p)]
  }

  /** markCancelled without interruption, on an order that is still PLACED. */
  lemma CancelUninterrupted(acts: seq<Action>, p: ProcId, o: OrderId)
    requires var s := Exec(acts);
             && p in s.procs && s.procs[p] == Proc(Assign(o, []), Nothing) && OrderFree(s, o)
             && o in s.orders && s.orders[o].status == Placed
    ensures var s := Exec(acts);
            Exec(acts + TailActs(p))
            == AfterTx(s, o, NoRider).(procs := s.procs[p := Proc(Assign(o, []), Ended(NoRiderCancelled(s.nextRow)))])
  {
    hide Exec, DoDrawRow, DoCommitTx;
    var s := Exec(acts);
    ExecThree(acts, LockOrder(p), DrawRow(p), CommitTx(p));
    var s1 := DoLockOrder(s, p);
    DeliveryCommits(s1, p);
    var q := DoCommitTx(DoDrawRow(s1, p), p).procs[p];
    assert s1.procs[p := q] == s.procs[p := q];
  }

  lemma TakeThenLock(s: State, p: ProcId, o: OrderId, r: RiderId)
    requires p in s.procs && s.procs[p] == Proc(Assign(o, [r]), Nothing) && OrderFree(s, o)
    requires RiderFree(s, r) && r in s.riders && s.riders[r] == Available
    ensures DoLockOrder(DoTryRider(s, p), p)
            == s.(procs := s.procs[p := Proc(Assign(o, []), OrderRow(OrderAssigned(r), None))])
  {
    var s1 := DoTryRider(s, p);
    assert [r][1..] == [];
    assert OrderFree(s1, o);
    assert s1.procs[p := DoLockOrder(s1, p).procs[p]] == s.procs[p := DoLockOrder(s1, p).procs[p]];
  }

  /** claimRider without interruption, on an AVAILABLE rider, whatever the order's status. */
  lemma ClaimUninterrupted(acts: seq<Action>, p: ProcId, o: OrderId, r: RiderId)
    requires var s := Exec(acts);
             && p in s.procs && s.procs[p] == Proc(Assign(o, [r]), Nothing) && OrderFree(s, o)
             && RiderFree(s, r) && r in s.riders && s.riders[r] == Available
    ensures var s := Exec(acts);
            Exec(acts + [TryRider(p)] + TailActs(p))
            == AfterTx(s, o, OrderAssigned(r)).(procs := s.procs[p := Proc(Assign(o, []), Ended(Claimed(s.nextRow)))])
  {
    hide Exec, DoTryRider, DoLockOrder, DoDrawRow, DoCommitTx;
    var s := Exec(acts);
    ExecSnoc(acts, TryRider(p));
    ExecThree(acts + [TryRider(p)], LockOrder(p), DrawRow(p), CommitTx(p));
    TakeThenLock(s, p, o, r);
    var s1 := DoLockOrder(DoTryRider(s, p), p);
    DeliveryCommits(s1, p);
    var q := DoCommitTx(DoDrawRow(s1, p), p).procs[p];
    assert s1.procs[p := q] == s.procs[p := q];
  }

  /** The handler starts on a message at an offset. */
  lemma DeliverStarts(acts: seq<Action>, p: ProcId, offset: nat, riders: seq<RiderId>)
    requires var s := Exec(acts); p !in s.procs && offset < |s.log| && s.log[offset].event.OrderPlaced?
    ensures var s := Exec(acts);
            Exec(acts + [Deliver(p, offset, Some(riders))])
            == s.(procs := s.procs[p := Proc(Assign(s.log[offset].order, riders), Nothing)])
  {
    hide Exec;
    ExecSnoc(acts, Deliver(p, offset, Some(riders)));
  }

  /** The consumer fetches the next order.placed message. */
  lemma FetchStarts(acts: seq<Action>, p: ProcId, search: Option<seq<RiderId>>)
    requires var s := Exec(acts); p !in s.procs && s.reader.busy == None && s.reader.position < |PlacedLog(s.log)|
    ensures var s := Exec(acts);
            Exec(acts + [Fetch(p, search)])
            == s.(procs := s.procs[p := NewDelivery(PlacedLog(s.log)[s.reader.position].order, search)],
                  reader := s.reader.(position := s.reader.position + 1, busy := Some(p)))
  {
    hide Exec;
    ExecSnoc(acts, Fetch(p, search));
  }

  function ShiftActs(r: RiderId): seq<Action> {
    [RegisterRider(r)] + [SetRider(r, Available)]
  }

  /** A new rider is registered and goes on shift. */
  lemma RiderGoesOnShift(acts: seq<Action>, r: RiderId)
    requires var s := Exec(acts); r !in s.riders && RiderFree(s, r)
    ensures var s := Exec(acts);
            Exec(acts + ShiftActs(r))
            == s.(riders := s.riders[r := Available],
                  journal := s.journal + [RiderCommit(r, Offline)] + [RiderCommit(r, Available)])
  {
    hide Exec;
    var s := Exec(acts);
    ExecSnoc(acts, RegisterRider(r));
    ExecSnoc(acts + [RegisterRider(r)], SetRider(r, Available));
    assert acts + [RegisterRider(r)] + [SetRider(r, Available)] == acts + ShiftActs(r);
    var s1 := DoRegisterRider(s, r);
    assert s1.riders[r := Available] == s.riders[r := Available];
  }
}
