/**
 How often deliveries of one order.placed message take effect, over whole runs with any
 redelivery. An order gets at most one assignment or no-rider row exactly when every delivery
 that goes on to commit finds none of either as its order UPDATE takes the row. Finding the
 order PLACED without a rider is enough, and is exact as long as nobody else moves the order.
 */
module DeliveredOnce {
  import opened Options
  import opened Lifecycle
  import opened System
  import opened Locking
  import opened RowLocks
  import opened Deliveries
  import opened Runs

  /** At most one delivery of the order has committed a row. */
  ghost predicate AnsweredOnce(s: State, o: OrderId) {
    forall i, j :: i in DeliveryRows(s, o) && j in DeliveryRows(s, o) ==> i == j
  }

  predicate NoAnswer(events: map<RowId, Event>) {
    forall id | id in events :: !FromDelivery(events[id])
  }

  /** Under the row lock of order o there is no assignment and no no-rider row of it. */
  function Unanswered(o: OrderId): Guard {
    (found: Found, job: Job, e: Event) => job.order == o && FromDelivery(e) ==> NoAnswer(found.events)
  }

  /** Under the row lock of order o it is PLACED and has no rider. */
  function StillWaiting(o: OrderId): Guard {
    (found: Found, job: Job, e: Event) =>
      job.order == o && FromDelivery(e) ==> found.order == Some(Order(Placed, None))
  }

  // ----- Exactly when

  lemma UnansweredMeans(s: State, o: OrderId)
    ensures NoAnswer(Finds(s, o).events) <==> DeliveryRows(s, o) == {}
  {
    var events := Finds(s, o).events;
    assert forall id :: id in DeliveryRows(s, o) <==> id in events && FromDelivery(events[id]);
    if !NoAnswer(events) {
      var id :| id in events && FromDelivery(events[id]);
      assert id in DeliveryRows(s, o);
    }
  }

  lemma CommitRows(s: State, p: ProcId, o: OrderId)
    requires CanCommit(s, p) && s.procs[p].hold.draw.value !in s.outbox
    ensures var q := s.procs[p];
            DeliveryRows(DoCommitTx(s, p), o) ==
            DeliveryRows(s, o) + if q.job.order == o && FromDelivery(q.hold.event) then {q.hold.draw.value} else {}
  {
  }

  lemma OneMoreRow(rows: set<RowId>, id: RowId)
    requires id !in rows
    ensures (forall i, j :: i in rows + {id} && j in rows + {id} ==> i == j) <==> rows == {}
  {
    if i :| i in rows {
      assert i in rows + {id} && id in rows + {id};
    }
  }

  lemma CommitAnswersIff(s: State, p: ProcId, o: OrderId)
    requires CanCommit(s, p) && DrawOk(s, s.procs[p]) && JobOk(s, s.procs[p])
    ensures AnsweredOnce(DoCommitTx(s, p), o) <==> AnsweredOnce(s, o) && CommitPasses(s, CommitTx(p), Unanswered(o))
  {
    var q := s.procs[p];
    CommitRows(s, p, o);
    UnansweredMeans(s, o);
    hide DoCommitTx, DeliveryRows;
    if q.job.order == o && FromDelivery(q.hold.event) {
      NewRowIsNew(s, o, q.hold.draw.value);
      OneMoreRow(DeliveryRows(s, o), q.hold.draw.value);
    } else {
      assert DeliveryRows(s, o) + {} == DeliveryRows(s, o);
    }
  }

  lemma NewRowIsNew(s: State, o: OrderId, id: RowId)
    requires id !in s.outbox
    ensures id !in DeliveryRows(s, o)
  {
  }

  lemma QuietRows(s: State, a: Action, o: OrderId)
    requires !a.CommitTx?
    ensures DeliveryRows(Step(s, a), o) == DeliveryRows(s, o)
  {
    StepFrame(s, a);
    if !a.MarkSent? {
      hide Step;
    }
  }

  lemma StepAnswersIff(s: State, a: Action, o: OrderId)
    requires Inv(s)
    ensures AnsweredOnce(Step(s, a), o) <==> AnsweredOnce(s, o) && CommitPasses(s, a, Unanswered(o))
  {
    hide AnsweredOnce;
    if a.CommitTx? {
      if CanCommit(s, a.p) {
        assert DrawOk(s, s.procs[a.p]) && JobOk(s, s.procs[a.p]);
        hide Inv, DoCommitTx, CommitPasses;
        CommitAnswersIff(s, a.p, o);
      }
    } else {
      QuietRows(s, a, o);
      hide Step;
      assert AnsweredOnce(Step(s, a), o) <==> AnsweredOnce(s, o) by { SameRowsSameAnswer(s, Step(s, a), o); }
    }
  }

  lemma SameRowsSameAnswer(s: State, s': State, o: OrderId)
    requires DeliveryRows(s', o) == DeliveryRows(s, o)
    ensures AnsweredOnce(s', o) <==> AnsweredOnce(s, o)
  {
  }

  lemma {:induction false} AnsweredOnceIffCommits(acts: seq<Action>, o: OrderId)
    ensures AnsweredOnce(Exec(acts), o) <==> GuardedCommits(acts, Unanswered(o))
  {
    if acts != [] {
      var before := acts[..|acts|-1];
      AnsweredOnceIffCommits(before, o);
      InvAlways(before);
      hide Inv, AnsweredOnce, CommitPasses, GuardedCommits, Unanswered;
      StepAnswersIff(Exec(before), acts[|acts|-1], o);
      GuardedCommitsSnoc(acts, Unanswered(o));
    }
  }

  /** In every run: at most one row, exactly when each committing delivery found none under its row lock. */
  lemma AnsweredOnceIff(acts: seq<Action>, o: OrderId)
    ensures AnsweredOnce(Exec(acts), o) <==> GuardedLocks(acts, Unanswered(o))
  {
    AnsweredOnceIffCommits(acts, o);
    GuardAtLockIff(acts, Unanswered(o));
  }

  // ----- What the order row tells

  /** An order with an assignment or no-rider row is resolved. */
  lemma RowsMeanResolved(acts: seq<Action>, o: OrderId)
    ensures DeliveryRows(Exec(acts), o) != {} ==> Resolved(Exec(acts), o)
  {
    OwnershipAlways(acts);
    HandledAlwaysResolved(acts);
    var s := Exec(acts);
    hide Exec;
    if id :| id in DeliveryRows(s, o) {
      var p :| OwnsRow(s, p, o, id);
      assert EndedWell(s, p);
    }
  }

  /** An order found PLACED without a rider has no such row yet. */
  lemma WaitingIsUnanswered(acts: seq<Action>, o: OrderId, a: Action)
    requires CommitPasses(Exec(acts), a, StillWaiting(o))
    ensures CommitPasses(Exec(acts), a, Unanswered(o))
  {
    hide Exec;
    RowsMeanResolved(acts, o);
    UnansweredMeans(Exec(acts), o);
  }

  /** So a check on the order row alone would do: PLACED, and no rider. */
  lemma WaitingSuffices(acts: seq<Action>, o: OrderId)
    requires GuardedLocks(acts, StillWaiting(o))
    ensures AnsweredOnce(Exec(acts), o)
  {
    hide Exec, CommitPasses, GuardedLocks, Unanswered, StillWaiting, AnsweredOnce;
    GuardAtLockIff(acts, StillWaiting(o));
    forall j | 0 <= j < |acts| ensures CommitPasses(Exec(acts[..j]), acts[j], Unanswered(o)) {
      assert CommitPasses(Exec(acts[..j]), acts[j], StillWaiting(o));
      WaitingIsUnanswered(acts[..j], o, acts[j]);
    }
    AnsweredOnceIffCommits(acts, o);
  }

  // ----- Orders that nobody else moves

  /** Nobody calls Transition on the order. */
  ghost predicate NoMoves(acts: seq<Action>, o: OrderId) {
    forall k :: 0 <= k < |acts| ==> !(acts[k].ReadOrder? && acts[k].order == o)
  }

  ghost predicate OnlyDelivered(s: State, o: OrderId) {
    && (forall p :: p in s.procs && s.procs[p].job.Transition? ==> s.procs[p].job.order != o)
    && (Resolved(s, o) ==> DeliveryRows(s, o) != {})
  }

  lemma NoMoverAppears(s: State, a: Action, o: OrderId, p: ProcId)
    requires !(a.ReadOrder? && a.order == o)
    requires p in Step(s, a).procs && Step(s, a).procs[p].job.Transition? && Step(s, a).procs[p].job.order == o
    ensures p in s.procs && s.procs[p].job == Step(s, a).procs[p].job
  {
    if Actor(a) != Some(p) {
      OthersUntouched(s, a, p);
      hide Step;
    }
  }

  lemma CommitResolvesByRow(s: State, p: ProcId, o: OrderId)
    requires CanCommit(s, p) && DrawOk(s, s.procs[p]) && JobOk(s, s.procs[p]) && OnlyDelivered(s, o)
    ensures Resolved(DoCommitTx(s, p), o) ==> DeliveryRows(DoCommitTx(s, p), o) != {}
  {
    CommitRows(s, p, o);
    hide DeliveryRows;
  }

  lemma StepOnlyDelivered(s: State, a: Action, o: OrderId)
    requires Inv(s) && OnlyDelivered(s, o) && !(a.ReadOrder? && a.order == o)
    ensures OnlyDelivered(Step(s, a), o)
  {
    var s' := Step(s, a);
    forall p | p in s'.procs && s'.procs[p].job.Transition? ensures s'.procs[p].job.order != o {
      if s'.procs[p].job.order == o {
        NoMoverAppears(s, a, o, p);
      }
    }
    if a.CommitTx? && CanCommit(s, a.p) {
      assert DrawOk(s, s.procs[a.p]) && JobOk(s, s.procs[a.p]);
      hide Inv;
      CommitResolvesByRow(s, a.p, o);
    } else if !a.CommitTx? {
      StepFrame(s, a);
      QuietRows(s, a, o);
      hide Step, DeliveryRows;
    }
  }

  lemma {:induction false} OnlyDeliveredAlways(acts: seq<Action>, o: OrderId)
    requires NoMoves(acts, o)
    ensures OnlyDelivered(Exec(acts), o)
  {
    if acts != [] {
      var before := acts[..|acts|-1];
      OnlyDeliveredAlways(before, o);
      InvAlways(before);
      hide Inv, OnlyDelivered, Step;
      StepOnlyDelivered(Exec(before), acts[|acts|-1], o);
    }
  }

  lemma UnansweredIsWaiting(acts: seq<Action>, o: OrderId, a: Action)
    requires NoMoves(acts, o) && CommitPasses(Exec(acts), a, Unanswered(o))
    ensures CommitPasses(Exec(acts), a, StillWaiting(o))
  {
    hide Exec;
    var s := Exec(acts);
    OnlyDeliveredAlways(acts, o);
    UnansweredMeans(s, o);
    InvAlways(acts);
    if CommitsUpdate(s, a) {
      assert JobOk(s, s.procs[a.p]);
    }
    hide Inv, DeliveryRows;
  }

  /** For an order that only deliveries write to, the check on the order row is exact. */
  lemma WaitingIffUnmoved(acts: seq<Action>, o: OrderId)
    requires NoMoves(acts, o)
    ensures AnsweredOnce(Exec(acts), o) <==> GuardedLocks(acts, StillWaiting(o))
  {
    hide Exec, CommitPasses, GuardedLocks, Unanswered, StillWaiting, AnsweredOnce;
    if GuardedLocks(acts, StillWaiting(o)) {
      WaitingSuffices(acts, o);
    }
    if AnsweredOnce(Exec(acts), o) {
      AnsweredOnceIffCommits(acts, o);
      forall j | 0 <= j < |acts| ensures CommitPasses(Exec(acts[..j]), acts[j], StillWaiting(o)) {
        assert CommitPasses(Exec(acts[..j]), acts[j], Unanswered(o));
        UnansweredIsWaiting(acts[..j], o, acts[j]);
      }
      GuardAtLockIff(acts, StillWaiting(o));
    }
  }

  // ----- With a move in between it is not

  /** Order 7 is ACCEPTED before its message is delivered, and then claimed once. */
  const ACCEPTED := PLACED_RUN + ShiftActs(1) + MoveActs(1, 7, Accepted)
  const ARRIVED := ACCEPTED + [Deliver(2, 0, Some([1]))]
  const CLAIM_OPEN := ARRIVED + [TryRider(2), LockOrder(2), DrawRow(2)]
  const MOVED_RUN := CLAIM_OPEN + [CommitTx(2)]

  lemma AcceptedEnds()
    ensures var s := Exec(ACCEPTED);
            && s.orders == map[7 := Order(Accepted, None)] && s.riders == map[1 := Available] && s.procs == map[]
            && s.log == [Msg(0, 7, OrderPlaced)] && s.nextRow == 2
            && s.outbox == map[0 := Row(7, OrderPlaced, false), 1 := Row(7, StatusUpdated(Accepted), false)]
  {
    hide Exec;
    PlacedRunEnds();
    RiderGoesOnShift(PLACED_RUN, 1);
    MoveUninterrupted(PLACED_RUN + ShiftActs(1), 1, 7, Accepted);
  }

  lemma ClaimOpens()
    ensures var s := Exec(CLAIM_OPEN);
            && s.orders == map[7 := Order(Accepted, None)]
            && s.outbox == map[0 := Row(7, OrderPlaced, false), 1 := Row(7, StatusUpdated(Accepted), false)]
            && s.procs == map[2 := Proc(Assign(7, []), OrderRow(OrderAssigned(1), Some(2)))]
  {
    hide Exec, DoTryRider, DoLockOrder;
    AcceptedEnds();
    DeliverStarts(ACCEPTED, 2, 0, [1]);
    ExecThree(ARRIVED, TryRider(2), LockOrder(2), DrawRow(2));
    TakeThenLock(Exec(ARRIVED), 2, 7, 1);
  }

  lemma OneRowFromNone(s: State)
    requires s.outbox == map[0 := Row(7, OrderPlaced, false), 1 := Row(7, StatusUpdated(Accepted), false)]
    requires s.procs == map[2 := Proc(Assign(7, []), OrderRow(OrderAssigned(1), Some(2)))]
    ensures AnsweredOnce(DoCommitTx(s, 2), 7)
  {
    assert DeliveryRows(s, 7) == {};
    CommitRows(s, 2, 7);
  }

  lemma NotWaiting(s: State)
    requires 7 in s.orders && s.orders[7] == Order(Accepted, None)
    requires s.procs == map[2 := Proc(Assign(7, []), OrderRow(OrderAssigned(1), Some(2)))]
    ensures !CommitPasses(s, CommitTx(2), StillWaiting(7))
  {
    var q, found := s.procs[2], Finds(s, 7);
    assert CommitsUpdate(s, CommitTx(2)) && found.order == Some(Order(Accepted, None));
    WaitingMeans(7, found, q.job, q.hold.event);
    assert !Passes(s, 2, found, StillWaiting(7));
  }

  lemma WaitingMeans(o: OrderId, found: Found, job: Job, e: Event)
    ensures StillWaiting(o)(found, job, e) <==>
            (job.order == o && FromDelivery(e) ==> found.order == Some(Order(Placed, None)))
  {
  }

  /** One row only, although the delivery did not find the order PLACED. */
  lemma MovedOrderIsClaimedOnce()
    ensures AnsweredOnce(Exec(MOVED_RUN), 7)
    ensures !GuardedLocks(MOVED_RUN, StillWaiting(7))
  {
    hide Exec, GuardedLocks;
    ClaimOpens();
    var s := Exec(CLAIM_OPEN);
    ExecSnoc(CLAIM_OPEN, CommitTx(2));
    OneRowFromNone(s);
    NotWaiting(s);
    assert MOVED_RUN[..|MOVED_RUN|-1] == CLAIM_OPEN;
    hide DoCommitTx, AnsweredOnce, CommitPasses, Step, StillWaiting;
    GuardedCommitsSnoc(MOVED_RUN, StillWaiting(7));
    GuardAtLockIff(MOVED_RUN, StillWaiting(7));
  }
}
