/**
 What a transaction finds when its order UPDATE takes the row lock is what is there when it
 commits. So a check on the order belongs in the WHERE clause of that UPDATE: a condition on
 all commits of a run is the same condition on the locks that go on to commit.
 */
module RowLocks {
  import opened Options
  import opened System
  import opened Locking

  /** What an UPDATE can see of an order under its row lock: the row, and the order's outbox rows. */
  datatype Found = Found(order: Option<Order>, events: map<RowId, Event>)

  function Finds(s: State, o: OrderId): Found {
    Found(if o in s.orders then Some(s.orders[o]) else None,
          map id | id in s.outbox && s.outbox[id].order == o :: s.outbox[id].event)
  }

  /** A check on what is found, for the job at hand and the event it is about to write. */
  type Guard = (Found, Job, Event) -> bool

  predicate HasRow(s: State, p: ProcId) {
    p in s.procs && s.procs[p].hold.OrderRow?
  }

  predicate Passes(s: State, p: ProcId, found: Found, guard: Guard)
    requires HasRow(s, p)
  {
    guard(found, s.procs[p].job, s.procs[p].hold.event)
  }

  // ----- Guards at the commit

  /** A transaction that updates an existing order commits; Create inserts its order. */
  predicate CommitsUpdate(s: State, a: Action) {
    a.CommitTx? && CanCommit(s, a.p) && !s.procs[a.p].job.Create?
  }

  predicate CommitPasses(s: State, a: Action, guard: Guard) {
    CommitsUpdate(s, a) ==> Passes(s, a.p, Finds(s, s.procs[a.p].job.order), guard)
  }

  ghost predicate GuardedCommits(acts: seq<Action>, guard: Guard) {
    forall j :: 0 <= j < |acts| ==> CommitPasses(Exec(acts[..j]), acts[j], guard)
  }

  lemma GuardedCommitsSnoc(acts: seq<Action>, guard: Guard)
    requires acts != []
    ensures var before := acts[..|acts|-1];
            GuardedCommits(acts, guard) <==>
              GuardedCommits(before, guard) && CommitPasses(Exec(before), acts[|acts|-1], guard)
  {
    hide CommitPasses, Exec;
    var before := acts[..|acts|-1];
    forall j | 0 <= j < |before| ensures before[..j] == acts[..j] && before[j] == acts[j] {
    }
    if GuardedCommits(acts, guard) {
      forall j | 0 <= j < |before| ensures CommitPasses(Exec(before[..j]), before[j], guard) {
        assert CommitPasses(Exec(acts[..j]), acts[j], guard);
      }
    }
  }

  // ----- Guards at the lock

  /** The order UPDATE of process a.p takes the row lock. */
  predicate TakesRow(s: State, a: Action) {
    a.LockOrder? && !HasRow(s, a.p) && HasRow(Step(s, a), a.p)
  }

  /** What that UPDATE finds passes the check, as it would in its WHERE clause. */
  predicate LockPasses(s: State, a: Action, guard: Guard)
    requires TakesRow(s, a)
  {
    var s' := Step(s, a);
    Passes(s', a.p, Finds(s, s'.procs[a.p].job.order), guard)
  }

  ghost predicate HoldsFrom(acts: seq<Action>, i: nat, j: nat, p: ProcId)
    requires j <= |acts|
  {
    forall k :: i < k <= j ==> HasRow(Exec(acts[..k]), p)
  }

  /** The transaction that takes the row at step i commits at step j. */
  ghost predicate LockThenCommit(acts: seq<Action>, i: nat, j: nat) {
    && i < j < |acts| && TakesRow(Exec(acts[..i]), acts[i])
    && acts[j] == CommitTx(acts[i].p) && CanCommit(Exec(acts[..j]), acts[i].p)
    && HoldsFrom(acts, i, j, acts[i].p)
  }

  /** Every order UPDATE whose transaction goes on to commit finds what the check asks for. */
  ghost predicate GuardedLocks(acts: seq<Action>, guard: Guard) {
    forall i: nat, j: nat :: LockThenCommit(acts, i, j) ==> LockPasses(Exec(acts[..i]), acts[i], guard)
  }

  // ----- Nothing changes under the lock

  /** While p holds an order row, no step of anyone changes what p would find. */
  ghost predicate SameUnderLock(s: State, s': State, p: ProcId) {
    && HasRow(s, p) && HasRow(s', p)
    && s'.procs[p].job == s.procs[p].job && s'.procs[p].hold.event == s.procs[p].hold.event
    && Finds(s', s.procs[p].job.order) == Finds(s, s.procs[p].job.order)
  }

  lemma OwnStepUnderLock(s: State, a: Action, p: ProcId)
    requires HasRow(s, p) && HasRow(Step(s, a), p) && Actor(a) == Some(p)
    ensures Step(s, a).procs[p].job == s.procs[p].job && Step(s, a).procs[p].hold.event == s.procs[p].hold.event
    ensures Step(s, a).orders == s.orders && Step(s, a).outbox == s.outbox
  {
    assert HoldsOrder(s.procs[p], s.procs[p].job.order);
    if !a.CommitTx? {
      StepFrame(s, a);
    }
  }

  lemma OtherCommitUnderLock(s: State, q: ProcId, o: OrderId)
    requires CanCommit(s, q) && s.procs[q].job.order != o && s.procs[q].hold.draw.value !in s.outbox
    ensures Finds(DoCommitTx(s, q), o) == Finds(s, o)
  {
  }

  lemma MarkUnderLock(s: State, r: RelayId, o: OrderId)
    ensures Finds(DoMarkSent(s, r), o) == Finds(s, o)
  {
  }

  lemma StepUnderLock(s: State, a: Action, p: ProcId)
    requires Inv(s) && HasRow(s, p) && HasRow(Step(s, a), p)
    ensures SameUnderLock(s, Step(s, a), p)
  {
    if Actor(a) == Some(p) {
      OwnStepUnderLock(s, a, p);
    } else {
      OthersUntouched(s, a, p);
      StepFrame(s, a);
      if a.CommitTx? && CanCommit(s, a.p) {
        assert DrawOk(s, s.procs[a.p]);
        OtherCommitUnderLock(s, a.p, s.procs[p].job.order);
      } else if a.MarkSent? {
        MarkUnderLock(s, a.relay, s.procs[p].job.order);
      } else {
        hide Step;
      }
    }
  }

  lemma TakingLeavesTables(s: State, a: Action)
    requires TakesRow(s, a)
    ensures forall o: OrderId :: Finds(Step(s, a), o) == Finds(s, o)
  {
    StepFrame(s, a);
    hide Step;
  }

  /** What the UPDATE found at step i is what is there at step j, for the same job and event. */
  lemma {:induction false} FrozenUnderLock(acts: seq<Action>, i: nat, j: nat)
    requires i < j <= |acts| && TakesRow(Exec(acts[..i]), acts[i]) && HoldsFrom(acts, i, j, acts[i].p)
    ensures SameUnderLock(Exec(acts[..i+1]), Exec(acts[..j]), acts[i].p)
    decreases j
  {
    hide Exec, Step, Finds;
    assert acts[..j][..j-1] == acts[..j-1];
    if j > i + 1 {
      FrozenUnderLock(acts, i, j - 1);
      assert acts[..j] == acts[..j-1] + [acts[j-1]];
      ExecSnoc(acts[..j-1], acts[j-1]);
      InvAlways(acts[..j-1]);
      assert HasRow(Exec(acts[..j]), acts[i].p);
      StepUnderLock(Exec(acts[..j-1]), acts[j-1], acts[i].p);
    }
  }

  // ----- Every holder has taken its row

  /** Only an order UPDATE, or the insert of Create, makes a process hold an order row. */
  lemma HoldBegins(s: State, a: Action, p: ProcId)
    requires !HasRow(s, p) && HasRow(Step(s, a), p) && !Step(s, a).procs[p].job.Create?
    ensures a == LockOrder(p) && TakesRow(s, a)
  {
    if Actor(a) != Some(p) {
      OthersUntouched(s, a, p);
      hide Step;
      assert false;
    }
  }

  lemma {:induction false} RowWasTaken(acts: seq<Action>, p: ProcId) returns (i: nat)
    requires HasRow(Exec(acts), p) && !Exec(acts).procs[p].job.Create?
    ensures i < |acts| && acts[i] == LockOrder(p) && TakesRow(Exec(acts[..i]), acts[i])
    ensures HoldsFrom(acts, i, |acts|, p)
  {
    assert acts != [] by { NobodyHoldsAtFirst(p); }
    hide Exec, Step, TakesRow;
    var n := |acts| - 1;
    var before := acts[..n];
    assert acts == before + [acts[n]] && acts[..|acts|] == acts;
    ExecSnoc(before, acts[n]);
    if HasRow(Exec(before), p) {
      InvAlways(before);
      hide Inv;
      StepUnderLock(Exec(before), acts[n], p);
      i := RowWasTaken(before, p);
      assert before[..i] == acts[..i];
      HoldsLonger(before, acts, i, p);
    } else {
      HoldBegins(Exec(before), acts[n], p);
      i := n;
    }
  }

  lemma HoldsLonger(before: seq<Action>, acts: seq<Action>, i: nat, p: ProcId)
    requires |acts| == |before| + 1 && before == acts[..|before|]
    requires HoldsFrom(before, i, |before|, p) && HasRow(Exec(acts), p)
    ensures HoldsFrom(acts, i, |acts|, p)
  {
    hide Exec, HasRow;
    assert acts[..|acts|] == acts;
    forall k | i < k <= |acts| ensures HasRow(Exec(acts[..k]), p) {
      if k <= |before| {
        assert before[..k] == acts[..k];
      }
    }
  }

  lemma NobodyHoldsAtFirst(p: ProcId)
    ensures !HasRow(Exec([]), p)
  {
  }

  lemma TakerUpdates(acts: seq<Action>, a: Action)
    requires TakesRow(Exec(acts), a)
    ensures !Step(Exec(acts), a).procs[a.p].job.Create?
  {
    InvAlways(acts);
    assert JobOk(Exec(acts), Exec(acts).procs[a.p]);
  }

  lemma CommitLikeLock(acts: seq<Action>, i: nat, j: nat, guard: Guard)
    requires LockThenCommit(acts, i, j)
    ensures CommitsUpdate(Exec(acts[..j]), acts[j])
    ensures CommitPasses(Exec(acts[..j]), acts[j], guard) <==> LockPasses(Exec(acts[..i]), acts[i], guard)
  {
    hide Exec, Step, Finds;
    FrozenUnderLock(acts, i, j);
    assert acts[..i+1] == acts[..i] + [acts[i]];
    ExecSnoc(acts[..i], acts[i]);
    TakingLeavesTables(Exec(acts[..i]), acts[i]);
    TakerUpdates(acts[..i], acts[i]);
  }

  /** A check holds at all commits of updates exactly when the UPDATEs that led to them found it so. */
  lemma GuardAtLockIff(acts: seq<Action>, guard: Guard)
    ensures GuardedCommits(acts, guard) <==> GuardedLocks(acts, guard)
  {
    hide Exec, Step, CommitPasses, LockPasses, TakesRow, HoldsFrom;
    if GuardedCommits(acts, guard) {
      forall i: nat, j: nat | LockThenCommit(acts, i, j) ensures LockPasses(Exec(acts[..i]), acts[i], guard) {
        CommitLikeLock(acts, i, j, guard);
      }
    }
    if GuardedLocks(acts, guard) {
      forall j | 0 <= j < |acts| ensures CommitPasses(Exec(acts[..j]), acts[j], guard) {
        CommitWasLocked(acts, j, guard);
      }
    }
  }

  lemma CommitWasLocked(acts: seq<Action>, j: nat, guard: Guard)
    requires j < |acts| && GuardedLocks(acts, guard)
    ensures CommitPasses(Exec(acts[..j]), acts[j], guard)
  {
    hide Exec, Step, LockPasses, GuardedLocks, Finds;
    if CommitsUpdate(Exec(acts[..j]), acts[j]) {
      var i := RowWasTaken(acts[..j], acts[j].p);
      assert acts[..j][..i] == acts[..i];
      forall k | i < k <= j ensures HasRow(Exec(acts[..k]), acts[i].p) {
        assert acts[..j][..k] == acts[..k];
      }
      assert LockThenCommit(acts, i, j);
      hide CommitPasses;
      assert LockPasses(Exec(acts[..i]), acts[i], guard) by { GuardOf(acts, i, j, guard); }
      CommitLikeLock(acts, i, j, guard);
    }
  }

  lemma GuardOf(acts: seq<Action>, i: nat, j: nat, guard: Guard)
    requires GuardedLocks(acts, guard) && LockThenCommit(acts, i, j)
    ensures LockPasses(Exec(acts[..i]), acts[i], guard)
  {
  }
}
