/**
 Replaying order_events. The table is promised to hold an order's full history; markCancelled
 writes no event, so the replayed status is right exactly when the last status write was
 not a no-rider cancel. The replayed rider is always right.
 */
module AuditLog {
  import opened Options
  import opened Lifecycle
  import opened System
  import opened Locking
  import opened Runs

  /** The status an audit reader ends with for order `o`. */
  function AuditedStatus(audit: seq<AuditRow>, o: OrderId): Option<Status> {
    if audit == [] then None
    else
      var last := audit[|audit|-1];
      if last.order == o && last.event.OrderPlaced? then Some(Placed)
      else if last.order == o && last.event.StatusUpdated? then Some(last.event.to)
      else AuditedStatus(audit[..|audit|-1], o)
  }

  function AuditedRider(audit: seq<AuditRow>, o: OrderId): Option<RiderId> {
    if audit == [] then None
    else
      var last := audit[|audit|-1];
      if last.order == o && last.event.OrderAssigned? then Some(last.event.rider)
      else AuditedRider(audit[..|audit|-1], o)
  }

  /** The last commit that wrote the status of order `o`. */
  function LastStatusWrite(journal: seq<Commit>, o: OrderId): Option<Event> {
    if journal == [] then None
    else
      var last := journal[|journal|-1];
      if last.RowCommit? && last.order == o && !last.event.OrderAssigned? then Some(last.event)
      else LastStatusWrite(journal[..|journal|-1], o)
  }

  ghost predicate AuditOk(s: State, o: OrderId) {
    match LastStatusWrite(s.journal, o)
    case None => o !in s.orders
    case Some(NoRider) =>
      o in s.orders && s.orders[o].status == Cancelled && AuditedStatus(s.audit, o) == Some(Placed)
      && AuditedRider(s.audit, o) == s.orders[o].rider
    case Some(_) =>
      o in s.orders && AuditedStatus(s.audit, o) == Some(s.orders[o].status)
      && AuditedRider(s.audit, o) == s.orders[o].rider
  }

  /** Before an order exists nothing about it is audited. */
  ghost predicate Unaudited(s: State, o: OrderId) {
    o !in s.orders ==> AuditedRider(s.audit, o) == None
  }

  lemma SnocPrefix<T>(xs: seq<T>, x: T)
    ensures (xs + [x])[..|xs|] == xs
  {
  }

  lemma CommitKeepsAudit(s: State, p: ProcId, o: OrderId)
    requires CanCommit(s, p) && JobOk(s, s.procs[p]) && AuditOk(s, o) && Unaudited(s, o)
    ensures AuditOk(DoCommitTx(s, p), o) && Unaudited(DoCommitTx(s, p), o)
  {
    var q := s.procs[p];
    SnocPrefix(s.audit, AuditRow(q.job.order, q.hold.event));
    SnocPrefix(s.journal, RowCommit(q.hold.draw.value, q.job.order, q.hold.event));
  }

  ghost predicate AuditsOk(s: State) {
    forall o: OrderId :: AuditOk(s, o) && Unaudited(s, o)
  }

  lemma QuietStepKeepsAudit(s: State, a: Action, o: OrderId)
    requires AuditOk(s, o) && Unaudited(s, o) && !(a.CommitTx? && CanCommit(s, a.p))
    ensures AuditOk(Step(s, a), o) && Unaudited(Step(s, a), o)
  {
    StepFrame(s, a);
    if RiderStep(a) && Step(s, a) != s {
      SnocPrefix(s.journal, Step(s, a).journal[|s.journal|]);
    } else if !a.CommitTx? && !RiderStep(a) {
      hide Step;
    }
  }

  lemma StepKeepsAudit(s: State, a: Action)
    requires Inv(s) && AuditsOk(s)
    ensures AuditsOk(Step(s, a))
  {
    forall o: OrderId ensures AuditOk(Step(s, a), o) && Unaudited(Step(s, a), o) {
      assert AuditOk(s, o) && Unaudited(s, o);
      if a.CommitTx? && CanCommit(s, a.p) {
        assert JobOk(s, s.procs[a.p]);
        CommitKeepsAudit(s, a.p, o);
        hide AuditOk, Unaudited, DoCommitTx;
      } else {
        QuietStepKeepsAudit(s, a, o);
        hide Step;
      }
    }
  }

  lemma {:induction false} AuditAlways(acts: seq<Action>)
    ensures AuditsOk(Exec(acts))
  {
    if acts == [] {
      assert forall o: OrderId :: AuditOk(INIT, o) && Unaudited(INIT, o);
    } else {
      InvAlways(acts[..|acts|-1]);
      AuditAlways(acts[..|acts|-1]);
      StepKeepsAudit(Exec(acts[..|acts|-1]), acts[|acts|-1]);
    }
  }

  /**
   Replaying the audit log gives an order's rider always, and its status exactly when the
   last status write was not a no-rider cancel; then the log says PLACED, the row CANCELLED.
   */
  lemma AuditReplayIff(acts: seq<Action>, o: OrderId)
    requires o in Exec(acts).orders
    ensures var s := Exec(acts);
            && AuditedRider(s.audit, o) == s.orders[o].rider
            && (AuditedStatus(s.audit, o) == Some(s.orders[o].status) <==>
                  LastStatusWrite(s.journal, o) != Some(NoRider))
            && (LastStatusWrite(s.journal, o) == Some(NoRider) ==>
                  AuditedStatus(s.audit, o) == Some(Placed) && s.orders[o].status == Cancelled)
  {
    AuditAlways(acts);
    assert AuditOk(Exec(acts), o);
  }

  // ----- It does happen

  const SEARCHED := PLACED_RUN + [Deliver(1, 0, Some([]))]
  const NO_RIDER_RUN := SEARCHED + TailActs(1)

  /** With no rider on shift the order ends CANCELLED while its audit trail ends at PLACED. */
  lemma NoRiderCancelIsUnaudited()
    ensures var s := Exec(NO_RIDER_RUN);
            7 in s.orders && s.orders[7].status == Cancelled && AuditedStatus(s.audit, 7) == Some(Placed)
  {
    hide Exec;
    PlacedRunEnds();
    DeliverStarts(PLACED_RUN, 1, 0, []);
    CancelUninterrupted(SEARCHED, 1, 7);
    assert Exec(NO_RIDER_RUN).audit == [AuditRow(7, OrderPlaced)];
  }
}
