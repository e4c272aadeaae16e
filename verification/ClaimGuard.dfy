/**
 Which orders get claimed. claimRider looks at the rider's status and never at the order's,
 so a rider can be sent for an order that was cancelled meanwhile. Every claim of a run is of
 a live order exactly when each order UPDATE of a claim that goes on to commit finds its order
 not final as it takes the row, which is what its WHERE clause could ask for.
 */
module ClaimGuard {
  import opened Options
  import opened Lifecycle
  import opened System
  import opened Locking
  import opened RowLocks
  import opened Runs
  import opened StatusHistory

  /** The last status written before was not a final one. */
  predicate Live(h: seq<Status>) {
    h != [] && !Final(h[|h|-1])
  }

  predicate Claims(c: Commit) {
    c.RowCommit? && c.event.OrderAssigned?
  }

  /** Each claim in the journal was of an order that was live by the commits before it. */
  ghost predicate LiveClaims(journal: seq<Commit>) {
    forall i :: 0 <= i < |journal| && Claims(journal[i]) ==> Live(Statuses(journal[..i], journal[i].order))
  }

  /** The check that the order UPDATE of claimRider lacks in its WHERE clause. */
  predicate NotFinal(found: Found, job: Job, e: Event) {
    e.OrderAssigned? ==> found.order.Some? && !Final(found.order.value.status)
  }

  lemma LiveClaimsSnoc(journal: seq<Commit>, c: Commit)
    ensures LiveClaims(journal + [c]) <==> LiveClaims(journal) && (Claims(c) ==> Live(Statuses(journal, c.order)))
  {
    var j' := journal + [c];
    assert j'[..|journal|] == journal && j'[|journal|] == c;
    forall i | 0 <= i < |journal| ensures j'[i] == journal[i] && j'[..i] == journal[..i] {
    }
    hide Live, Statuses;
    if LiveClaims(j') {
      forall i | 0 <= i < |journal| && Claims(journal[i]) ensures Live(Statuses(journal[..i], journal[i].order)) {
        assert Claims(j'[i]);
      }
    }
  }

  lemma CommitLiveIff(s: State, p: ProcId)
    requires CanCommit(s, p) && JobOk(s, s.procs[p]) && OrderHistoryOk(s, s.procs[p].job.order)
    ensures LiveClaims(DoCommitTx(s, p).journal) <==> LiveClaims(s.journal) && CommitPasses(s, CommitTx(p), NotFinal)
  {
    LiveClaimsSnoc(s.journal, CommitOf(s, p));
    hide LiveClaims, Supported, Statuses;
  }

  lemma StepLiveIff(s: State, a: Action)
    requires Inv(s) && HistoryOk(s)
    ensures LiveClaims(Step(s, a).journal) <==> LiveClaims(s.journal) && CommitPasses(s, a, NotFinal)
  {
    hide LiveClaims;
    if a.CommitTx? && CanCommit(s, a.p) {
      assert OrderHistoryOk(s, s.procs[a.p].job.order) && JobOk(s, s.procs[a.p]);
      hide HistoryOk, Inv, CommitPasses;
      CommitLiveIff(s, a.p);
    } else {
      StepFrame(s, a);
      if RiderStep(a) && Step(s, a) != s {
        LiveClaimsSnoc(s.journal, Step(s, a).journal[|s.journal|]);
      }
    }
  }

  lemma {:induction false} LiveClaimsIffCommits(acts: seq<Action>)
    ensures LiveClaims(Exec(acts).journal) <==> GuardedCommits(acts, NotFinal)
  {
    if acts != [] {
      var before := acts[..|acts|-1];
      HistoryAlways(before);
      LiveClaimsIffCommits(before);
      hide HistoryOk, Inv, LiveClaims, CommitPasses, GuardedCommits;
      StepLiveIff(Exec(before), acts[|acts|-1]);
      GuardedCommitsSnoc(acts, NotFinal);
    }
  }

  /**
   Every claim of the run is of a live order exactly when every order UPDATE of a claim that
   goes on to commit finds its order not final.
   */
  lemma LiveClaimsIffGuarded(acts: seq<Action>)
    ensures LiveClaims(Exec(acts).journal) <==> GuardedLocks(acts, NotFinal)
  {
    LiveClaimsIffCommits(acts);
    GuardAtLockIff(acts, NotFinal);
  }

  // ----- Without the guard

  /** Order 7 is published, rider 1 goes on shift, the customer cancels, and only then the message arrives. */
  const ON_SHIFT := PLACED_RUN + ShiftActs(1)
  const CALLED_OFF := ON_SHIFT + MoveActs(1, 7, Cancelled)
  const DELIVERED_LATE := CALLED_OFF + [Deliver(2, 0, Some([1]))]
  const LATE_CLAIM_RUN := DELIVERED_LATE + [TryRider(2)] + TailActs(2)

  lemma CalledOffEnds()
    ensures var s := Exec(CALLED_OFF);
            && s.orders == map[7 := Order(Cancelled, None)] && s.riders == map[1 := Available] && s.procs == map[]
            && s.log == [Msg(0, 7, OrderPlaced)] && s.nextRow == 2
            && s.journal == [RowCommit(0, 7, OrderPlaced), RiderCommit(1, Offline), RiderCommit(1, Available),
                             RowCommit(1, 7, StatusUpdated(Cancelled))]
  {
    hide Exec;
    PlacedRunEnds();
    RiderGoesOnShift(PLACED_RUN, 1);
    MoveUninterrupted(ON_SHIFT, 1, 7, Cancelled);
  }

  lemma LateClaimEnds()
    ensures var s := Exec(LATE_CLAIM_RUN);
            && s.orders == map[7 := Order(Cancelled, Some(1))] && s.riders == map[1 := Busy]
            && s.journal == Exec(CALLED_OFF).journal + [RowCommit(2, 7, OrderAssigned(1))]
  {
    hide Exec;
    CalledOffEnds();
    DeliverStarts(CALLED_OFF, 2, 0, [1]);
    ClaimUninterrupted(DELIVERED_LATE, 2, 7, 1);
  }

  /** A cancelled order gets a rider, who is BUSY with it. */
  lemma CancelledOrderIsClaimed()
    ensures var s := Exec(LATE_CLAIM_RUN);
            && s.orders == map[7 := Order(Cancelled, Some(1))] && s.riders == map[1 := Busy]
            && !LiveClaims(s.journal)
  {
    hide Exec;
    CalledOffEnds();
    LateClaimEnds();
    var journal, last := Exec(CALLED_OFF).journal, RowCommit(1, 7, StatusUpdated(Cancelled));
    LiveClaimsSnoc(journal, RowCommit(2, 7, OrderAssigned(1)));
    StatusesSnoc(journal[..3], last, 7);
    assert journal[..3] + [last] == journal;
  }
}
