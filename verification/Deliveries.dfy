/**
 Deliveries of order.placed to the assignment handler, any number of times and in parallel:
 a handled order is resolved for good, and each delivery commits at most one row.
 */
module Deliveries {
  import opened Options
  import opened Lifecycle
  import opened System
  import opened Locking

  // ----- Handled means resolved

  /** The order has a rider or is no longer waiting for one. */
  predicate Resolved(s: State, o: OrderId) {
    o in s.orders && (s.orders[o].rider.Some? || s.orders[o].status != Placed)
  }

  ghost predicate HandledResolved(s: State) {
    forall p :: EndedWell(s, p) ==> Resolved(s, s.procs[p].job.order)
  }

  /** No step un-resolves an order: riders are never taken off, and PLACED is never written again. */
  lemma StepKeepsResolved(s: State, a: Action, o: OrderId)
    requires Inv(s) && Resolved(s, o)
    ensures Resolved(Step(s, a), o)
  {
    if a.CommitTx? && CanCommit(s, a.p) {
      assert JobOk(s, s.procs[a.p]);
    } else {
      StepFrame(s, a);
      hide Step;
    }
  }

  predicate EndedWell(s: State, p: ProcId) {
    p in s.procs && s.procs[p].hold.Ended? && HandledOk(s.procs[p].hold.outcome)
  }

  lemma CommitResolves(s: State, p: ProcId)
    requires CanCommit(s, p) && JobOk(s, s.procs[p]) && s.procs[p].job.Assign?
    ensures Resolved(DoCommitTx(s, p), s.procs[p].job.order)
  {
  }

  /** A delivery ends well only by committing a claim or a cancel, or by finding the order moved on. */
  lemma EndingResolves(s: State, a: Action, p: ProcId)
    requires Inv(s) && EndedWell(Step(s, a), p)
    ensures (p in s.procs && s.procs[p] == Step(s, a).procs[p]) || Resolved(Step(s, a), Step(s, a).procs[p].job.order)
  {
    if Actor(a) != Some(p) {
      OthersUntouched(s, a, p);
      hide Step;
    } else if p in s.procs {
      assert JobOk(s, s.procs[p]);
      hide Inv;
      if a.CommitTx? && CanCommit(s, p) {
        CommitResolves(s, p);
      }
    }
  }

  lemma {:induction false} HandledAlwaysResolved(acts: seq<Action>)
    ensures HandledResolved(Exec(acts))
  {
    if acts != [] {
      var s, a := Exec(acts[..|acts|-1]), acts[|acts|-1];
      var s' := Step(s, a);
      InvAlways(acts[..|acts|-1]);
      HandledAlwaysResolved(acts[..|acts|-1]);
      hide Step, Inv;
      forall p | EndedWell(s', p) ensures Resolved(s', s'.procs[p].job.order) {
        EndingResolves(s, a, p);
        if p in s.procs && s.procs[p] == s'.procs[p] {
          StepKeepsResolved(s, a, s.procs[p].job.order);
        }
      }
    }
  }

  lemma {:induction false} ResolvedForGood(acts: seq<Action>, more: seq<Action>, o: OrderId)
    requires Resolved(Exec(acts), o)
    ensures Resolved(Exec(acts + more), o)
  {
    if more == [] {
      assert acts + more == acts;
    } else {
      var prior, a := more[..|more|-1], more[|more|-1];
      assert acts + more == acts + prior + [a];
      ResolvedForGood(acts, prior, o);
      ExecSnoc(acts + prior, a);
      InvAlways(acts + prior);
      StepKeepsResolved(Exec(acts + prior), a, o);
    }
  }

  /** Once the handler has returned nil for an order, it has a rider or has moved on, ever after. */
  lemma HandledStaysResolved(acts: seq<Action>, more: seq<Action>, p: ProcId)
    requires EndedWell(Exec(acts), p)
    ensures Resolved(Exec(acts + more), Exec(acts).procs[p].job.order)
  {
    HandledAlwaysResolved(acts);
    ResolvedForGood(acts, more, Exec(acts).procs[p].job.order);
  }

  // ----- At most one row per delivery

  predicate Committed(q: Proc, id: RowId) {
    q.hold.Ended? && (q.hold.outcome == Claimed(id) || q.hold.outcome == NoRiderCancelled(id))
  }

  predicate FromDelivery(e: Event) {
    e.OrderAssigned? || e.NoRider?
  }

  predicate DeliveryOf(s: State, p: ProcId, o: OrderId) {
    p in s.procs && s.procs[p].job.Assign? && s.procs[p].job.order == o
  }

  ghost predicate OwnsRow(s: State, p: ProcId, o: OrderId, id: RowId) {
    DeliveryOf(s, p, o) && Committed(s.procs[p], id)
  }

  /** Each assignment or no-rider row was committed by a delivery of its order. */
  ghost predicate RowsOwned(s: State) {
    forall id :: id in s.outbox && FromDelivery(s.outbox[id].event) ==>
      exists p :: OwnsRow(s, p, s.outbox[id].order, id)
  }

  /** No row was committed by two deliveries. */
  ghost predicate OwnersUnique(s: State) {
    && (forall p, id :: p in s.procs && Committed(s.procs[p], id) ==> id in s.outbox)
    && (forall p, q, id ::
          p in s.procs && q in s.procs && Committed(s.procs[p], id) && Committed(s.procs[q], id) ==> p == q)
  }

  /** A no-rider row means the order left PLACED, so there is at most one. */
  ghost predicate NoRiderOnce(s: State) {
    && (forall id :: id in s.outbox && s.outbox[id].event.NoRider? ==>
          s.outbox[id].order in s.orders && s.orders[s.outbox[id].order].status != Placed)
    && (forall i, j ::
          i in s.outbox && j in s.outbox && s.outbox[i].event.NoRider? && s.outbox[j].event.NoRider?
          && s.outbox[i].order == s.outbox[j].order
          ==> i == j)
  }

  ghost predicate OwnershipOk(s: State) {
    RowsOwned(s) && OwnersUnique(s) && NoRiderOnce(s)
  }

  lemma CommitKeepsOwned(s: State, p: ProcId)
    requires CanCommit(s, p) && DrawOk(s, s.procs[p]) && JobOk(s, s.procs[p]) && RowsOwned(s)
    ensures RowsOwned(DoCommitTx(s, p))
  {
    var s' := DoCommitTx(s, p);
    forall id | id in s'.outbox && FromDelivery(s'.outbox[id].event)
      ensures exists q :: OwnsRow(s', q, s'.outbox[id].order, id)
    {
      if id in s.outbox {
        var q :| OwnsRow(s, q, s.outbox[id].order, id);
        assert OwnsRow(s', q, s'.outbox[id].order, id);
      } else {
        assert OwnsRow(s', p, s'.outbox[id].order, id);
      }
    }
  }

  lemma CommitKeepsUnique(s: State, p: ProcId)
    requires CanCommit(s, p) && DrawOk(s, s.procs[p]) && OwnersUnique(s)
    ensures OwnersUnique(DoCommitTx(s, p))
  {
  }

  lemma CommitKeepsNoRiderOnce(s: State, p: ProcId)
    requires CanCommit(s, p) && DrawOk(s, s.procs[p]) && JobOk(s, s.procs[p]) && NoRiderOnce(s)
    ensures NoRiderOnce(DoCommitTx(s, p))
  {
  }

  lemma EndedStays(s: State, a: Action, p: ProcId)
    requires p in s.procs && s.procs[p].hold.Ended?
    ensures p in Step(s, a).procs && Step(s, a).procs[p] == s.procs[p]
  {
    if Actor(a) != Some(p) {
      OthersUntouched(s, a, p);
      hide Step;
    }
  }

  /** Only a commit ends a delivery with a row. */
  lemma OnlyCommitsCommit(s: State, a: Action, p: ProcId, id: RowId)
    requires !a.CommitTx? && Actor(a) == Some(p) && p in Step(s, a).procs && Committed(Step(s, a).procs[p], id)
    ensures p in s.procs && s.procs[p].hold.Ended?
  {
  }

  /** Apart from commits, steps leave the deliveries that have committed a row as they are, and add none. */
  lemma EndedUntouched(s: State, a: Action, p: ProcId, id: RowId)
    requires !a.CommitTx?
    ensures (p in s.procs && Committed(s.procs[p], id)) ==> (p in Step(s, a).procs && Step(s, a).procs[p] == s.procs[p])
    ensures (p in Step(s, a).procs && Committed(Step(s, a).procs[p], id)) ==>
              (p in s.procs && Step(s, a).procs[p] == s.procs[p])
  {
    hide Step;
    if Actor(a) != Some(p) {
      OthersUntouched(s, a, p);
    } else {
      if p in Step(s, a).procs && Committed(Step(s, a).procs[p], id) {
        OnlyCommitsCommit(s, a, p, id);
      }
      if p in s.procs && s.procs[p].hold.Ended? {
        EndedStays(s, a, p);
      }
    }
  }

  lemma StepKeepsOwnership(s: State, a: Action)
    requires Inv(s) && OwnershipOk(s)
    ensures OwnershipOk(Step(s, a))
  {
    if a.CommitTx? {
      if CanCommit(s, a.p) {
        assert DrawOk(s, s.procs[a.p]) && JobOk(s, s.procs[a.p]);
        hide Inv, OwnershipOk;
        CommitKeepsOwned(s, a.p);
        CommitKeepsUnique(s, a.p);
        CommitKeepsNoRiderOnce(s, a.p);
      }
    } else {
      QuietStepKeepsOwnership(s, a);
    }
  }

  /** Same committed deliveries, same orders and same rows up to their sent marks: same ownership. */
  lemma OwnershipFrames(s: State, s': State)
    requires OwnershipOk(s) && s'.orders == s.orders && s'.outbox.Keys == s.outbox.Keys
    requires forall id :: id in s.outbox ==>
               s'.outbox[id].order == s.outbox[id].order && s'.outbox[id].event == s.outbox[id].event
    requires forall p, id :: p in s.procs && Committed(s.procs[p], id) ==> p in s'.procs && s'.procs[p] == s.procs[p]
    requires forall p, id :: p in s'.procs && Committed(s'.procs[p], id) ==> p in s.procs && s'.procs[p] == s.procs[p]
    ensures OwnershipOk(s')
  {
    forall id | id in s'.outbox && FromDelivery(s'.outbox[id].event)
      ensures exists p :: OwnsRow(s', p, s'.outbox[id].order, id)
    {
      var p :| OwnsRow(s, p, s.outbox[id].order, id);
      assert OwnsRow(s', p, s'.outbox[id].order, id);
    }
  }

  lemma QuietStepKeepsOwnership(s: State, a: Action)
    requires OwnershipOk(s) && !a.CommitTx?
    ensures OwnershipOk(Step(s, a))
  {
    hide OwnershipOk;
    var s' := Step(s, a);
    StepFrame(s, a);
    if !a.MarkSent? {
      hide Step;
    }
    forall p, id: RowId
      ensures (p in s.procs && Committed(s.procs[p], id)) ==> (p in s'.procs && s'.procs[p] == s.procs[p])
      ensures (p in s'.procs && Committed(s'.procs[p], id)) ==> (p in s.procs && s'.procs[p] == s.procs[p])
    {
      EndedUntouched(s, a, p, id);
    }
    OwnershipFrames(s, s');
  }

  lemma {:induction false} OwnershipAlways(acts: seq<Action>)
    ensures OwnershipOk(Exec(acts))
  {
    if acts != [] {
      InvAlways(acts[..|acts|-1]);
      OwnershipAlways(acts[..|acts|-1]);
      StepKeepsOwnership(Exec(acts[..|acts|-1]), acts[|acts|-1]);
    }
  }

  function DeliveryRows(s: State, o: OrderId): set<RowId> {
    set id | id in s.outbox && s.outbox[id].order == o && FromDelivery(s.outbox[id].event)
  }

  function DeliveriesOf(s: State, o: OrderId): set<ProcId> {
    set p | p in s.procs && DeliveryOf(s, p, o)
  }

  /** Rows with pairwise different owners are no more than the owners there are. */
  lemma {:induction false} OwnedRowsCount(s: State, rows: set<RowId>, owners: set<ProcId>)
    requires OwnersUnique(s)
    requires forall p :: p in owners ==> p in s.procs
    requires forall id :: id in rows ==> exists p :: p in owners && Committed(s.procs[p], id)
    ensures |rows| <= |owners|
  {
    if rows != {} {
      var id :| id in rows;
      var p :| p in owners && Committed(s.procs[p], id);
      forall i | i in rows - {id} ensures exists q :: q in owners - {p} && Committed(s.procs[q], i) {
        var q :| q in owners && Committed(s.procs[q], i);
        assert q != p;
      }
      OwnedRowsCount(s, rows - {id}, owners - {p});
    }
  }

  /**
   An order's assignment and no-rider rows never outnumber the deliveries of its message,
   and there is at most one no-rider row, under any redelivery.
   */
  lemma RowsBoundedByDeliveries(acts: seq<Action>, o: OrderId)
    ensures var s := Exec(acts);
            && |DeliveryRows(s, o)| <= |DeliveriesOf(s, o)|
            && (forall i, j ::
                  && i in DeliveryRows(s, o) && s.outbox[i].event.NoRider?
                  && j in DeliveryRows(s, o) && s.outbox[j].event.NoRider?
                  ==> i == j)
  {
    OwnershipAlways(acts);
    var s := Exec(acts);
    forall id | id in DeliveryRows(s, o) ensures exists p :: p in DeliveriesOf(s, o) && Committed(s.procs[p], id) {
      var p :| OwnsRow(s, p, o, id);
      assert p in DeliveriesOf(s, o);
    }
    OwnedRowsCount(s, DeliveryRows(s, o), DeliveriesOf(s, o));
  }
}
