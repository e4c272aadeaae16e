/** internal/order: placing an order and moving it along, statement by statement among other writers. */
module OrderService {
  import opened Options
  import opened Lifecycle
  import opened System
  import opened Locking
  import opened Runs
  import opened Records
  import opened Cluster

  datatype OrderError = NotFound | Invalid(error: TransitionError) | Database

  lemma ReadStep(s: State, p: ProcId, o: OrderId, to: Status)
    requires p !in s.procs && o in s.orders && Legal(s.orders[o].status, to)
    ensures Step(s, ReadOrder(p, o, to))
            == s.(procs := s.procs[p := Proc(Transition(o, s.orders[o].status, to), Nothing)])
    ensures OrderFree(Step(s, ReadOrder(p, o, to)), o) <==> OrderFree(s, o)
  {
    var s' := Step(s, ReadOrder(p, o, to));
    assert forall q :: q in s.procs ==> s'.procs[q] == s.procs[q];
  }

  /** Locking the order for a validated move; the order cannot have gone. */
  lemma LockMoveStep(acts: seq<Action>, p: ProcId)
    requires var s := Exec(acts);
             p in s.procs && s.procs[p].job.Transition? && s.procs[p].hold == Nothing
             && OrderFree(s, s.procs[p].job.order)
    ensures var s := Exec(acts);
            var hold := OrderRow(StatusUpdated(s.procs[p].job.to), None);
            Step(s, LockOrder(p)) == s.(procs := s.procs[p := s.procs[p].(hold := hold)])
  {
    InvAlways(acts);
    assert JobOk(Exec(acts), Exec(acts).procs[p]);
  }

  lemma RollBackMove(s: State, p: ProcId)
    requires p in s.procs && !s.procs[p].job.Assign? && !s.procs[p].hold.Ended?
    ensures Step(s, FailTx(p)) == s.(procs := s.procs - {p})
  {
  }

  lemma MoveDone(s: State, p: ProcId, job: Job)
    requires job.Transition? && TxDone(s, p, job, StatusUpdated(job.to))
    ensures s.journal != [] && Shows(s, job.order, StatusUpdated(job.to))
    ensures var c := s.journal[|s.journal|-1]; c.RowCommit? && c.order == job.order && c.event == StatusUpdated(job.to)
  {
  }

  /** A process that is not a delivery is gone once its transaction has ended. */
  lemma EndedWriter(s: State, p: ProcId, job: Job, e: Event)
    requires !job.Assign? && (TxDone(s, p, job, e) || TxUndone(s, p, job, e))
    ensures p !in s.procs
    ensures TxDone(s, p, job, e) && e.OrderPlaced? ==>
              job.order in s.orders && s.orders[job.order] == Order(Placed, None)
  {
  }

  lemma BeginStep(s: State, p: ProcId, o: OrderId)
    requires p !in s.procs
    ensures var s' := Step(s, BeginCreate(p, o));
            if p in s'.procs then s' == s.(procs := s.procs[p := Proc(Create(o), OrderRow(OrderPlaced, None))])
            else s' == s
    ensures p in Step(s, BeginCreate(p, o)).procs <==>
              o !in s.orders && forall q :: q in s.procs ==> s.procs[q].job.order != o
  {
  }

  // ----- The runs as the statements find them

  /** Repository.Create goes through: the insert meets no such order, committed or not, and nothing fails. */
  ghost predicate Creates(start: seq<Action>, p: ProcId, o: OrderId, tick: nat -> Tick) {
    var s := Exec(Met(start, tick, 0, Process(p)));
    && tick(0).ok && o !in s.orders && (forall q :: q in s.procs ==> s.procs[q].job.order != o)
    && FinishOk(tick, 1)
  }

  ghost predicate CreateCommits(start: seq<Action>, acts: seq<Action>, p: ProcId, o: OrderId, tick: nat -> Tick) {
    CommitsAt(AtCommit(Met(start, tick, 0, Process(p)) + [BeginCreate(p, o)], p, tick, 1), acts, |start|, p, o,
              OrderPlaced)
  }

  /** UpdateStatus goes through: its UPDATE comes to a free row and nothing fails. */
  ghost predicate Updates(start: seq<Action>, p: ProcId, o: OrderId, tick: nat -> Tick) {
    tick(1).ok && OrderFree(Exec(Met(start, tick, 1, Process(p))), o) && FinishOk(tick, 2)
  }

  ghost predicate UpdateCommits(start: seq<Action>, acts: seq<Action>, n: nat, p: ProcId, o: OrderId, to: Status,
                                tick: nat -> Tick) {
    CommitsAt(AtCommit(Met(start, tick, 1, Process(p)) + [LockOrder(p)], p, tick, 2), acts, n, p, o,
              StatusUpdated(to))
  }

  /** The state that Transition's unlocked read finds. */
  ghost function AtRead(start: seq<Action>, p: ProcId, tick: nat -> Tick): State {
    Exec(Met(start, tick, 0, Process(p)))
  }

  /** The run as Transition comes to UpdateStatus. */
  ghost function AfterRead(start: seq<Action>, p: ProcId, o: OrderId, to: Status, tick: nat -> Tick): seq<Action> {
    Met(start, tick, 0, Process(p)) + [ReadOrder(p, o, to)]
  }

  /** What Transition's read and its lifecycle check answer. */
  ghost function ReadAnswer(start: seq<Action>, p: ProcId, o: OrderId, to: Status, tick: nat -> Tick)
    : Result<Order, OrderError>
  {
    var s := AtRead(start, p, tick);
    if !tick(0).ok then Err(Database)
    else if o !in s.orders then Err(NotFound)
    else
      match ValidateTransition(s.orders[o].status, to)
      case Err(e) => Err(Invalid(e))
      case Ok(_) => Ok(s.orders[o])
  }

  /** The answer of Transition, by what its read and its UPDATE find. */
  ghost predicate Answers(start: seq<Action>, p: ProcId, o: OrderId, to: Status, tick: nat -> Tick,
                          res: Result<Order, OrderError>) {
    match ReadAnswer(start, p, o, to, tick)
    case Err(e) => res == Err(e)
    case Ok(order) =>
      res == if Updates(AfterRead(start, p, o, to, tick), p, o, tick) then Ok(Order(to, order.rider))
             else Err(Database)
  }

  /** Between the two states order o has got the new status; riders and all other orders are as they were. */
  ghost predicate OnlyStatus(s: State, s': State, o: OrderId, to: Status) {
    && o in s.orders && s'.orders == s.orders[o := Order(to, s.orders[o].rider)]
    && s'.riders == s.riders && s'.audit == s.audit + [AuditRow(o, StatusUpdated(to))]
  }

  lemma UpdateFrom(start: seq<Action>, begun: seq<Action>, end: seq<Action>, p: ProcId, o: OrderId, to: Status,
                   tick: nat -> Tick)
    requires start <= begun <= end && NoCommitBy(begun, |start|, p)
    ensures NoCommitBy(end, |begun|, p) ==> NoCommitBy(end, |start|, p)
    ensures UpdateCommits(begun, end, |begun|, p, o, to, tick) ==> UpdateCommits(begun, end, |start|, p, o, to, tick)
  {
    hide Exec, OneWrite, RestKept;
    if NoCommitBy(end, |begun|, p) {
      NoCommitTwice(start, begun, end, p);
    }
    var at := AtCommit(Met(begun, tick, 1, Process(p)) + [LockOrder(p)], p, tick, 2);
    if UpdateCommits(begun, end, |begun|, p, o, to, tick) {
      assert begun <= at;
      NoCommitTwice(start, begun, at, p);
    }
  }

  lemma StatusFrom(before: State, started: State, end: State, o: OrderId, to: Status)
    requires started == before.(procs := started.procs) && OnlyStatus(started, end, o, to)
    ensures OnlyStatus(before, end, o, to) && end.orders[o] == Order(to, before.orders[o].rider)
  {
  }

  /** Without interference nothing has changed between the first state and the commit. */
  lemma UndisturbedUpdate(start: seq<Action>, acts: seq<Action>, n: nat, p: ProcId, o: OrderId, to: Status,
                          tick: nat -> Tick)
    requires Undisturbed(tick) && UpdateCommits(start, acts, n, p, o, to, tick)
    ensures OnlyStatus(Exec(start), Exec(acts), o, to)
  {
    hide Exec, Step;
    Quiet(start, tick, 1, Process(p));
    ExecSnoc(start, LockOrder(p));
    Quiet(start + [LockOrder(p)], tick, 2, Process(p));
    var drawn := start + [LockOrder(p)] + [DrawRow(p)];
    ExecSnoc(start + [LockOrder(p)], DrawRow(p));
    Quiet(drawn, tick, 3, Process(p));
    StepFrame(Exec(start), LockOrder(p));
    StepFrame(Exec(start + [LockOrder(p)]), DrawRow(p));
  }

  class Orders {
    const stores: Stores

    constructor (stores: Stores)
      ensures this.stores == stores
    {
      this.stores := stores;
    }

    /**
     Repository.Create under the new id `o`. Success means the PLACED order and its
     order.placed row are both there; failure, if nobody else moved, that neither is.
     */
    method Create(p: ProcId, o: OrderId, tick: nat -> Tick) returns (res: Result<Order, OrderError>)
      requires stores.Valid() && p !in stores.s.procs
      modifies stores
      ensures stores.Valid() && old(stores.acts) <= stores.acts && p !in stores.s.procs
      ensures res == if Creates(old(stores.acts), p, o, tick) then Ok(Order(Placed, None)) else Err(Database)
      ensures if res.Ok? then CreateCommits(old(stores.acts), stores.acts, p, o, tick)
              else NoCommitBy(stores.acts, |old(stores.acts)|, p)
      ensures res.Ok? ==> TxDone(stores.s, p, System.Create(o), OrderPlaced) && res.value == stores.s.orders[o]
      ensures Undisturbed(tick) && Faultless(tick) ==>
                (res.Ok? <==>
                  && o !in old(stores.s.orders)
                  && forall q :: q in old(stores.s.procs) ==> old(stores.s.procs)[q].job.order != o)
      ensures Undisturbed(tick) && res.Ok? ==>
                stores.s == AfterTx(old(stores.s), o, OrderPlaced).(procs := stores.s.procs)
      ensures Undisturbed(tick) && res.Err? ==>
                stores.s == old(stores.s).(procs := stores.s.procs, nextRow := stores.s.nextRow)
    {
      hide Exec, Step, AfterTx, TxDone, TxUndone, NoCommitBy, OneWrite, RestKept;
      ghost var start := stores.acts;
      NoneCommitted(start, p);
      GapNoCommit(start, |start|, tick, 0, p);
      stores.Interfere(tick(0).env, Process(p));
      if !tick(0).ok {
        return Err(Database);
      }
      ghost var before := stores.s;
      BeginStep(stores.s, p, o);
      OwnNoCommit(stores.acts, |start|, BeginCreate(p, o), p);
      stores.Do(BeginCreate(p, o));
      if p !in stores.s.procs {
        return Err(Database);
      }
      ghost var started, begun := stores.s, stores.acts;
      var ok := stores.FinishTx(p, tick, 1);
      FinishFrom(start, begun, stores.acts, p, tick, 1);
      EndedWriter(stores.s, p, System.Create(o), OrderPlaced);
      if !ok {
        return Err(Database);
      }
      TxIgnoresProcs(before, started, stores.s.procs, o, OrderPlaced);
      return Ok(Order(Placed, None));
    }

    /** The UPDATE of UpdateStatus for a move that process p has validated: the row is taken, whatever its status. */
    method LockForUpdate(p: ProcId, tick: nat -> Tick) returns (ok: bool)
      requires stores.Valid() && p in stores.s.procs && stores.s.procs[p].job.Transition?
               && stores.s.procs[p].hold == Nothing
      modifies stores
      ensures stores.Valid() && old(stores.acts) <= stores.acts && NoCommitBy(stores.acts, |old(stores.acts)|, p)
      ensures ok <==> tick(1).ok
                      && OrderFree(Exec(Met(old(stores.acts), tick, 1, Process(p))), old(stores.s.procs[p].job.order))
      ensures var job := old(stores.s.procs[p].job);
              if ok then
                && stores.acts == Met(old(stores.acts), tick, 1, Process(p)) + [LockOrder(p)]
                && p in stores.s.procs && stores.s.procs[p] == Proc(job, OrderRow(StatusUpdated(job.to), None))
              else p !in stores.s.procs
      ensures Undisturbed(tick) ==>
                && stores.s == old(stores.s).(procs := stores.s.procs)
                && stores.s.procs - {p} == old(stores.s.procs) - {p}
                && (ok <==> tick(1).ok && OrderFree(old(stores.s), old(stores.s.procs[p].job.order)))
    {
      hide Exec, Step, NoCommitBy;
      NoneCommitted(stores.acts, p);
      GapNoCommit(stores.acts, |stores.acts|, tick, 1, p);
      ghost var from := |stores.acts|;
      stores.Interfere(tick(1).env, Process(p));
      ok := tick(1).ok && OrderFree(stores.s, stores.s.procs[p].job.order);
      OwnNoCommit(stores.acts, from, if ok then LockOrder(p) else FailTx(p), p);
      if ok {
        LockMoveStep(stores.acts, p);
        stores.Do(LockOrder(p));
      } else {
        RollBackMove(stores.s, p);
        stores.Do(FailTx(p));
      }
    }

    /** Repository.UpdateStatus for a move that process p has validated: no check of the current status. */
    method UpdateStatus(p: ProcId, tick: nat -> Tick) returns (ok: bool)
      requires stores.Valid() && p in stores.s.procs && stores.s.procs[p].job.Transition?
               && stores.s.procs[p].hold == Nothing
      modifies stores
      ensures stores.Valid() && old(stores.acts) <= stores.acts && p !in stores.s.procs
      ensures var job := old(stores.s.procs[p].job);
              && (ok <==> Updates(old(stores.acts), p, job.order, tick))
              && (if ok then
                    UpdateCommits(old(stores.acts), stores.acts, |old(stores.acts)|, p, job.order, job.to, tick)
                  else NoCommitBy(stores.acts, |old(stores.acts)|, p))
              && (Undisturbed(tick) && ok ==> OnlyStatus(old(stores.s), stores.s, job.order, job.to))
      ensures ok ==> TxDone(stores.s, p, old(stores.s.procs[p].job), StatusUpdated(old(stores.s.procs[p].job.to)))
      ensures Undisturbed(tick) && Faultless(tick) ==>
                (ok <==> OrderFree(old(stores.s), old(stores.s.procs[p].job.order)))
      ensures Undisturbed(tick) && ok ==>
                var job := old(stores.s.procs[p].job);
                stores.s == AfterTx(old(stores.s), job.order, StatusUpdated(job.to)).(procs := stores.s.procs)
      ensures Undisturbed(tick) && !ok ==>
                stores.s == old(stores.s).(procs := stores.s.procs, nextRow := stores.s.nextRow)
    {
      hide Exec, Step, NoCommitBy, OneWrite, RestKept, Met, AfterTx, TxDone, TxUndone, OnlyStatus;
      ghost var s0, start, job := stores.s, stores.acts, stores.s.procs[p].job;
      ok := LockForUpdate(p, tick);
      if !ok {
        return;
      }
      ghost var s1 := stores.s;
      ghost var locked := stores.acts;
      ok := stores.FinishTx(p, tick, 2);
      FinishFrom(start, locked, stores.acts, p, tick, 2);
      EndedWriter(stores.s, p, job, StatusUpdated(job.to));
      if ok && Undisturbed(tick) {
        UndisturbedUpdate(start, stores.acts, |start|, p, job.order, job.to, tick);
        TxIgnoresProcs(s0, s1, stores.s.procs, job.order, StatusUpdated(job.to));
      }
    }

    /** Transition up to its validated read: GetByID and ValidateTransition. */
    method ReadForMove(p: ProcId, o: OrderId, to: Status, tick: nat -> Tick) returns (res: Result<Order, OrderError>)
      requires stores.Valid() && p !in stores.s.procs
      modifies stores
      ensures stores.Valid() && old(stores.acts) <= stores.acts && NoCommitBy(stores.acts, |old(stores.acts)|, p)
      ensures res == ReadAnswer(old(stores.acts), p, o, to, tick)
      ensures if res.Ok? then
                && stores.acts == AfterRead(old(stores.acts), p, o, to, tick)
                && p in stores.s.procs && stores.s.procs[p] == Proc(System.Transition(o, res.value.status, to), Nothing)
              else p !in stores.s.procs
      ensures Undisturbed(tick) ==>
                && stores.s == old(stores.s).(procs := stores.s.procs)
                && stores.s.procs - {p} == old(stores.s.procs)
                && (OrderFree(stores.s, o) <==> OrderFree(old(stores.s), o))
                && res == (if !tick(0).ok then Err(Database)
                           else if o !in old(stores.s.orders) then Err(NotFound)
                           else match ValidateTransition(old(stores.s.orders)[o].status, to)
                                case Err(e) => Err(Invalid(e))
                                case Ok(_) => Ok(old(stores.s.orders)[o]))
    {
      hide Exec, Step, ValidateTransition, NoCommitBy, OrderFree;
      NoneCommitted(stores.acts, p);
      GapNoCommit(stores.acts, |stores.acts|, tick, 0, p);
      ghost var from := |stores.acts|;
      stores.Interfere(tick(0).env, Process(p));
      if !tick(0).ok {
        return Err(Database);
      }
      if o !in stores.s.orders {
        return Err(NotFound);
      }
      var order := stores.s.orders[o];
      var check := ValidateTransition(order.status, to);
      if check.Err? {
        return Err(Invalid(check.error));
      }
      ReadStep(stores.s, p, o, to);
      OwnNoCommit(stores.acts, from, ReadOrder(p, o, to), p);
      stores.Do(ReadOrder(p, o, to));
      return Ok(order);
    }

    /**
     Service.Transition: an unlocked read, the lifecycle check, then the unguarded update.
     Success means the order now has the new status and the row saying so is committed;
     it does not mean the move was legal from the status the order had by then.
     */
    method Transition(p: ProcId, o: OrderId, to: Status, tick: nat -> Tick) returns (res: Result<Order, OrderError>)
      requires stores.Valid() && p !in stores.s.procs
      modifies stores
      ensures stores.Valid() && old(stores.acts) <= stores.acts && p !in stores.s.procs
      ensures Answers(old(stores.acts), p, o, to, tick, res)
      ensures if res.Ok? then
                UpdateCommits(AfterRead(old(stores.acts), p, o, to, tick), stores.acts, |old(stores.acts)|,
                              p, o, to, tick)
              else NoCommitBy(stores.acts, |old(stores.acts)|, p)
      ensures Undisturbed(tick) && res.Ok? ==>
                OnlyStatus(old(stores.s), stores.s, o, to) && res.value == stores.s.orders[o]
      ensures res.Ok? ==> stores.s.journal != [] && Shows(stores.s, o, StatusUpdated(to)) && res.value.status == to
      ensures res.Ok? ==>
                var c := stores.s.journal[|stores.s.journal|-1];
                c.RowCommit? && c.order == o && c.event == StatusUpdated(to)
      ensures Undisturbed(tick) && tick(0).ok ==> (res == Err(NotFound) <==> o !in old(stores.s.orders))
      ensures Undisturbed(tick) && tick(0).ok && o in old(stores.s.orders) ==>
                (res.Err? && res.error.Invalid? <==> !Legal(old(stores.s.orders)[o].status, to))
      ensures Undisturbed(tick) && Faultless(tick) ==>
                (res.Ok? <==>
                  o in old(stores.s.orders) && Legal(old(stores.s.orders)[o].status, to) && OrderFree(old(stores.s), o))
      ensures Undisturbed(tick) && res.Ok? ==>
                stores.s == AfterTx(old(stores.s), o, StatusUpdated(to)).(procs := stores.s.procs)
      ensures Undisturbed(tick) && res.Err? ==>
                stores.s == old(stores.s).(procs := stores.s.procs, nextRow := stores.s.nextRow)
    {
      hide Exec, Step, AfterTx, TxDone, Shows, OrderFree, NoCommitBy, UpdateCommits, Updates, ReadAnswer,
        ValidateTransition, OnlyStatus, AfterRead;
      ghost var before, start := stores.s, stores.acts;
      var read := ReadForMove(p, o, to, tick);
      if read.Err? {
        return read;
      }
      ghost var job, started, begun := stores.s.procs[p].job, stores.s, stores.acts;
      var ok := UpdateStatus(p, tick);
      UpdateFrom(start, begun, stores.acts, p, o, to, tick);
      if !ok {
        return Err(Database);
      }
      MoveDone(stores.s, p, job);
      if Undisturbed(tick) {
        TxIgnoresProcs(before, started, stores.s.procs, o, StatusUpdated(to));
        StatusFrom(before, started, stores.s, o, to);
      }
      return Ok(read.value.(status := to));
    }

    /** Service.Cancel. */
    method Cancel(p: ProcId, o: OrderId, tick: nat -> Tick) returns (res: Result<Order, OrderError>)
      requires stores.Valid() && p !in stores.s.procs
      modifies stores
      ensures stores.Valid() && old(stores.acts) <= stores.acts && p !in stores.s.procs
      ensures Answers(old(stores.acts), p, o, Cancelled, tick, res)
      ensures if res.Ok? then
                UpdateCommits(AfterRead(old(stores.acts), p, o, Cancelled, tick), stores.acts, |old(stores.acts)|,
                              p, o, Cancelled, tick)
              else NoCommitBy(stores.acts, |old(stores.acts)|, p)
      ensures Undisturbed(tick) && res.Ok? ==>
                OnlyStatus(old(stores.s), stores.s, o, Cancelled) && res.value == stores.s.orders[o]
      ensures res.Ok? ==> o in stores.s.orders && stores.s.orders[o].status == Cancelled
      ensures Undisturbed(tick) && Faultless(tick) ==>
                (res.Ok? <==>
                  o in old(stores.s.orders) && 0 <= Rank(old(stores.s.orders)[o].status) < 4
                  && OrderFree(old(stores.s), o))
      ensures Undisturbed(tick) && tick(0).ok && o in old(stores.s.orders) ==>
                (res.Err? && res.error.Invalid? <==>
                  Final(old(stores.s.orders)[o].status) || Rank(old(stores.s.orders)[o].status) < 0)
    {
      res := Transition(p, o, Cancelled, tick);
    }
  }
}
