/**
 The transactions never deadlock: claims lock a rider and then an order, all others only an
 order, and whoever holds an order row needs nothing more. From every reachable state each
 open process can run to its end by forward steps alone, without a rollback or a timeout.
 */
module Progress {
  import opened System
  import opened Locking

  predicate Forward(a: Action) {
    a.TryRider? || a.LockOrder? || a.DrawRow? || a.CommitTx?
  }

  ghost predicate ForwardOnly(acts: seq<Action>) {
    forall i :: 0 <= i < |acts| ==> Forward(acts[i])
  }

  predicate Over(s: State, p: ProcId) {
    p !in s.procs || s.procs[p].hold.Ended?
  }

  /**
   Between the states some processes have ended, the rest are as they were, and those
   holding nothing are untouched.
   */
  ghost predicate Settled(s: State, s': State) {
    && (forall p :: p in s'.procs ==> (p in s.procs && s'.procs[p] == s.procs[p]) || s'.procs[p].hold.Ended?)
    && (forall p :: p in s.procs && s.procs[p].hold.Nothing? ==> p in s'.procs && s'.procs[p] == s.procs[p])
  }

  /** Process p is over and every other process is as it was. */
  ghost predicate OnlyFinished(s: State, s': State, p: ProcId) {
    && Over(s', p)
    && (forall q :: q in s'.procs && q != p ==> q in s.procs)
    && (forall q :: q in s.procs && q != p ==> q in s'.procs && s'.procs[q] == s.procs[q])
  }

  lemma CommitFinishes(s: State, p: ProcId)
    requires CanCommit(s, p)
    ensures OnlyFinished(s, DoCommitTx(s, p), p)
  {
    hide WriteTables;
  }

  lemma FinishStep(acts: seq<Action>, p: ProcId)
    requires CanCommit(Exec(acts), p)
    ensures OnlyFinished(Exec(acts), Exec(acts + [CommitTx(p)]), p)
  {
    hide Exec, DoCommitTx, OnlyFinished;
    ExecSnoc(acts, CommitTx(p));
    CommitFinishes(Exec(acts), p);
  }

  /** Whoever holds an order row can commit. */
  lemma Finish(acts: seq<Action>, p: ProcId) returns (more: seq<Action>)
    requires p in Exec(acts).procs && Exec(acts).procs[p].hold.OrderRow?
    ensures ForwardOnly(more) && OnlyFinished(Exec(acts), Exec(acts + more), p)
  {
    if Exec(acts).procs[p].hold.draw.Some? {
      more := [CommitTx(p)];
      FinishStep(acts, p);
    } else {
      more := [DrawRow(p), CommitTx(p)];
      ExecSnoc(acts, DrawRow(p));
      FinishStep(acts + [DrawRow(p)], p);
      assert acts + [DrawRow(p)] + [CommitTx(p)] == acts + more;
    }
  }

  lemma SettledTransitive(s: State, s1: State, s2: State)
    requires Settled(s, s1) && Settled(s1, s2)
    ensures Settled(s, s2)
  {
  }

  lemma WritersDiffer(acts: seq<Action>, p: ProcId, q: ProcId)
    requires var s := Exec(acts); p in s.procs && q in s.procs && p != q && HoldsOrder(s.procs[p], s.procs[q].job.order)
    ensures !Exec(acts).procs[q].hold.OrderRow?
  {
    InvAlways(acts);
  }

  /** So any order row can be freed. */
  lemma FreeOrder(acts: seq<Action>, o: OrderId) returns (more: seq<Action>)
    ensures ForwardOnly(more) && OrderFree(Exec(acts + more), o) && Settled(Exec(acts), Exec(acts + more))
    ensures forall p :: p in Exec(acts).procs && !HoldsOrder(Exec(acts).procs[p], o) ==>
              p in Exec(acts + more).procs && Exec(acts + more).procs[p] == Exec(acts).procs[p]
  {
    hide Exec;
    var s := Exec(acts);
    if OrderFree(s, o) {
      more := [];
      assert acts + more == acts;
    } else {
      var q :| q in s.procs && HoldsOrder(s.procs[q], o);
      more := Finish(acts, q);
      forall p | p in s.procs && p != q ensures !HoldsOrder(s.procs[p], o) {
        if s.procs[p].job.order == o {
          WritersDiffer(acts, q, p);
        }
      }
    }
  }

  lemma AttachWhenFree(acts: seq<Action>, p: ProcId)
    requires var s := Exec(acts); p in s.procs && s.procs[p].hold.RiderRow? && OrderFree(s, s.procs[p].job.order)
    ensures var s, s' := Exec(acts), Exec(acts + [LockOrder(p)]);
            && s' == s.(procs := s'.procs) && p in s'.procs && s'.procs[p].hold.OrderRow?
            && s'.procs == s.procs[p := s'.procs[p]]
  {
    ExecSnoc(acts, LockOrder(p));
  }

  /** Whoever holds a rider row can get the order row and commit. */
  lemma FinishClaim(acts: seq<Action>, p: ProcId) returns (more: seq<Action>)
    requires p in Exec(acts).procs && Exec(acts).procs[p].hold.RiderRow?
    ensures ForwardOnly(more) && Over(Exec(acts + more), p) && Settled(Exec(acts), Exec(acts + more))
  {
    hide Exec;
    var freeing := FreeOrder(acts, Exec(acts).procs[p].job.order);
    var acts1 := acts + freeing;
    AttachWhenFree(acts1, p);
    var ending := Finish(acts1 + [LockOrder(p)], p);
    more := freeing + [LockOrder(p)] + ending;
    assert acts1 + [LockOrder(p)] + ending == acts + more;
    SettledTransitive(Exec(acts), Exec(acts1), Exec(acts + more));
  }

  lemma OnlyHolder(acts: seq<Action>, p: ProcId, r: RiderId)
    requires p in Exec(acts).procs && HoldsRider(Exec(acts).procs[p], r)
    ensures forall q :: q in Exec(acts).procs && q != p ==> !HoldsRider(Exec(acts).procs[q], r)
  {
    InvAlways(acts);
  }

  /** So any rider row can be freed. */
  lemma FreeRider(acts: seq<Action>, r: RiderId) returns (more: seq<Action>)
    ensures ForwardOnly(more) && RiderFree(Exec(acts + more), r) && Settled(Exec(acts), Exec(acts + more))
  {
    hide Exec;
    var s := Exec(acts);
    if RiderFree(s, r) {
      more := [];
      assert acts + more == acts;
    } else {
      var q :| q in s.procs && HoldsRider(s.procs[q], r);
      OnlyHolder(acts, q, r);
      if s.procs[q].hold.RiderRow? {
        more := FinishClaim(acts, q);
      } else {
        more := Finish(acts, q);
      }
    }
  }

  // ----- Every open process can end

  lemma LockWhenFree(acts: seq<Action>, p: ProcId)
    requires var s := Exec(acts); p in s.procs && s.procs[p].hold.Nothing? && OrderFree(s, s.procs[p].job.order)
    requires Exec(acts).procs[p].job.Assign? ==> Exec(acts).procs[p].job.todo == []
    ensures var s' := Exec(acts + [LockOrder(p)]); Over(s', p) || (p in s'.procs && s'.procs[p].hold.OrderRow?)
  {
    InvAlways(acts);
    ExecSnoc(acts, LockOrder(p));
    assert JobOk(Exec(acts), Exec(acts).procs[p]);
  }

  lemma FinishWaiting(acts: seq<Action>, p: ProcId) returns (more: seq<Action>)
    requires var s := Exec(acts); p in s.procs && s.procs[p].hold.Nothing?
    requires Exec(acts).procs[p].job.Assign? ==> Exec(acts).procs[p].job.todo == []
    ensures ForwardOnly(more) && Over(Exec(acts + more), p)
  {
    hide Exec;
    var freeing := FreeOrder(acts, Exec(acts).procs[p].job.order);
    var acts1 := acts + freeing;
    LockWhenFree(acts1, p);
    more := freeing + [LockOrder(p)];
    assert acts1 + [LockOrder(p)] == acts + more;
    if !Over(Exec(acts + more), p) {
      var ending := Finish(acts + more, p);
      assert acts + more + ending == acts + (more + ending);
      more := more + ending;
    }
  }

  lemma TryWhenFree(acts: seq<Action>, p: ProcId)
    requires var s := Exec(acts);
             p in s.procs && s.procs[p].job.Assign? && s.procs[p].hold.Nothing? && s.procs[p].job.todo != []
             && RiderFree(s, s.procs[p].job.todo[0])
    ensures var s, s' := Exec(acts), Exec(acts + [TryRider(p)]);
            && p in s'.procs && s'.procs[p].job == s.procs[p].job.(todo := s.procs[p].job.todo[1..])
            && (s'.procs[p].hold.RiderRow? || s'.procs[p].hold.Nothing?)
  {
    ExecSnoc(acts, TryRider(p));
  }

  /** In every reachable state, every process that has not ended can be run to its end by forward steps. */
  lemma {:induction false} NoDeadlock(acts: seq<Action>, p: ProcId) returns (more: seq<Action>)
    requires p in Exec(acts).procs
    ensures ForwardOnly(more) && Over(Exec(acts + more), p)
    decreases if Exec(acts).procs[p].job.Assign? then |Exec(acts).procs[p].job.todo| else 0
  {
    hide Exec;
    var q := Exec(acts).procs[p];
    match q.hold
    case Ended(_) => more := []; assert acts + more == acts;
    case OrderRow(_, _) => more := Finish(acts, p);
    case RiderRow(_) => more := FinishClaim(acts, p);
    case Nothing =>
      if q.job.Assign? && q.job.todo != [] {
        var freeing := FreeRider(acts, q.job.todo[0]);
        var acts1 := acts + freeing;
        TryWhenFree(acts1, p);
        var ending := NoDeadlock(acts1 + [TryRider(p)], p);
        more := freeing + [TryRider(p)] + ending;
        assert acts1 + [TryRider(p)] + ending == acts + more;
      } else {
        more := FinishWaiting(acts, p);
      }
  }

  // ----- Rolling back

  /**
   An error or the death of a process changes no table and frees exactly the rows it held; a
   dead process takes no further step in its transaction.
   */
  lemma RolledBack(acts: seq<Action>, p: ProcId, a: Action)
    requires a == FailTx(p) || a == Crash(p)
    ensures var s, s' := Exec(acts), Step(Exec(acts), a);
            && s' == s.(procs := s'.procs) && s'.procs - {p} == s.procs - {p}
            && (forall o: OrderId ::
                  OrderFree(s', o) <==> forall q | q in s.procs && q != p :: !HoldsOrder(s.procs[q], o))
            && (forall r: RiderId ::
                  RiderFree(s', r) <==> forall q | q in s.procs && q != p :: !HoldsRider(s.procs[q], r))
            && (a == Crash(p) && p in s'.procs ==> s'.procs[p].hold.Ended?)
            && (p in s.procs && s.procs[p].hold.Ended? ==> s' == s)
  {
    hide Exec;
    var s := Exec(acts);
    OthersKept(s, p, a);
  }

  lemma OthersKept(s: State, p: ProcId, a: Action)
    requires a == FailTx(p) || a == Crash(p)
    ensures var s' := Step(s, a);
            && LetsGo(s, s', p)
            && forall q :: q != p ==> (q in s'.procs <==> q in s.procs) && (q in s.procs ==> s'.procs[q] == s.procs[q])
  {
    hide DoFailTx, DoCrash;
    FailKeepsOthers(s, p);
    CrashKeepsOthers(s, p);
    OthersStay(s, Step(s, a), p);
  }

  lemma OthersStay(s: State, s': State, p: ProcId)
    requires s'.procs - {p} == s.procs - {p}
    ensures forall q :: q != p ==> (q in s'.procs <==> q in s.procs) && (q in s.procs ==> s'.procs[q] == s.procs[q])
  {
    forall q | q != p
      ensures (q in s'.procs <==> q in s.procs) && (q in s.procs ==> s'.procs[q] == s.procs[q])
    {
      assert q in s'.procs <==> q in s'.procs - {p};
      assert q in s.procs ==> (s'.procs - {p})[q] == (s.procs - {p})[q];
    }
  }

  ghost predicate LetsGo(s: State, s': State, p: ProcId) {
    && s'.procs - {p} == s.procs - {p}
    && (p in s'.procs ==> !s'.procs[p].hold.OrderRow? && !s'.procs[p].hold.RiderRow?)
  }

  lemma FailKeepsOthers(s: State, p: ProcId)
    ensures LetsGo(s, DoFailTx(s, p), p)
  {
  }

  lemma CrashKeepsOthers(s: State, p: ProcId)
    ensures LetsGo(s, DoCrash(s, p), p)
  {
  }
}
