/**
 The statuses an order goes through when Transition calls race each other and
 markCancelled: what every run keeps, and exactly which runs follow the lifecycle graph.
 */
module StatusHistory {
  import opened Options
  import opened Lifecycle
  import opened System
  import opened Locking
  import opened RowLocks
  import opened Runs

  /** The status a commit writes to order `o`, if any. */
  function Written(c: Commit, o: OrderId): seq<Status> {
    if c.RiderCommit? || c.order != o then []
    else
      match c.event
      case OrderPlaced => [Placed]
      case StatusUpdated(to) => [to]
      case NoRider => [Cancelled]
      case OrderAssigned(_) => []
  }

  /** All statuses written to order `o`, in commit order. */
  function Statuses(journal: seq<Commit>, o: OrderId): seq<Status> {
    if journal == [] then [] else Statuses(journal[..|journal|-1], o) + Written(journal[|journal|-1], o)
  }

  lemma StatusesSnoc(journal: seq<Commit>, c: Commit, o: OrderId)
    ensures Statuses(journal + [c], o) == Statuses(journal, o) + Written(c, o)
  {
    assert (journal + [c])[..|journal|] == journal;
  }

  function Current(s: State, o: OrderId): Option<Status> {
    if o in s.orders then Some(s.orders[o].status) else None
  }

  /** Each entry was legal from an earlier one, and the last entry is the order's status. */
  ghost predicate Explains(h: seq<Status>, current: Option<Status>) {
    && Supported(h)
    && (current.Some? <==> h != [])
    && (current.Some? ==> current.value == h[|h|-1])
  }

  ghost predicate OrderHistoryOk(s: State, o: OrderId) {
    Explains(Statuses(s.journal, o), Current(s, o))
  }

  /** A status read by an open Transition is one the order has had. */
  ghost predicate ReadsOk(s: State) {
    forall p :: p in s.procs && s.procs[p].job.Transition? ==>
      s.procs[p].job.read in Statuses(s.journal, s.procs[p].job.order)
  }

  ghost predicate HistoryOk(s: State) {
    (forall o: OrderId :: OrderHistoryOk(s, o)) && ReadsOk(s)
  }

  /** The jobs of open Transitions only appear by a validated read. */
  lemma TransitionsComeFromReads(s: State, a: Action, p: ProcId)
    requires p in Step(s, a).procs && Step(s, a).procs[p].job.Transition?
    ensures var job := Step(s, a).procs[p].job;
            || (p in s.procs && s.procs[p].job == job)
            || (job.order in s.orders && job.read == s.orders[job.order].status)
  {
    if Actor(a) != Some(p) {
      OthersUntouched(s, a, p);
      hide Step;
    }
  }

  lemma ExplainsExtend(h: seq<Status>, current: Option<Status>, read: Status, to: Status)
    requires Explains(h, current) && read in h && Legal(read, to)
    ensures Explains(h + [to], Some(to))
  {
    var i :| 0 <= i < |h| && h[i] == read;
    SupportedExtend(h, to);
  }

  function CommitOf(s: State, p: ProcId): Commit
    requires CanCommit(s, p)
  {
    RowCommit(s.procs[p].hold.draw.value, s.procs[p].job.order, s.procs[p].hold.event)
  }

  /** A commit writes at most one status, which becomes the order's status. */
  lemma CommitWritesStatus(s: State, p: ProcId, o: OrderId)
    requires CanCommit(s, p) && JobOk(s, s.procs[p])
    ensures var s', w := DoCommitTx(s, p), Written(CommitOf(s, p), o);
            && Statuses(s'.journal, o) == Statuses(s.journal, o) + w
            && Current(s', o) == if w == [] then Current(s, o) else Some(w[0])
  {
    StatusesSnoc(s.journal, CommitOf(s, p), o);
  }

  /** The status a process is about to write is explained by the statuses written before. */
  lemma WriteExplained(s: State, q: Proc, h: seq<Status>)
    requires JobOk(s, q) && q.hold.OrderRow? && Explains(h, Current(s, q.job.order))
    requires q.job.Transition? ==> q.job.read in h
    requires !q.hold.event.OrderAssigned?
    ensures var to := Written(RowCommit(0, q.job.order, q.hold.event), q.job.order)[0]; Explains(h + [to], Some(to))
  {
    match q.hold.event
    case StatusUpdated(to) => ExplainsExtend(h, Current(s, q.job.order), q.job.read, to);
    case NoRider => ExplainsExtend(h, Current(s, q.job.order), Placed, Cancelled);
    case OrderPlaced => FirstStatus(); assert h + [Placed] == [Placed];
  }

  lemma CommitExtendsHistory(s: State, p: ProcId, o: OrderId)
    requires CanCommit(s, p) && JobOk(s, s.procs[p]) && OrderHistoryOk(s, o)
    requires s.procs[p].job.Transition? ==> s.procs[p].job.read in Statuses(s.journal, s.procs[p].job.order)
    ensures OrderHistoryOk(DoCommitTx(s, p), o)
  {
    hide Explains, DoCommitTx, Statuses;
    var q, h := s.procs[p], Statuses(s.journal, o);
    CommitWritesStatus(s, p, o);
    if q.job.order == o && !q.hold.event.OrderAssigned? {
      WriteExplained(s, q, h);
    } else {
      assert h + [] == h;
    }
  }

  lemma FirstStatus()
    ensures Explains([Placed], Some(Placed))
  {
  }

  /** A step writes at most one status to an order, and only a commit writes any. */
  lemma StatusesGrow(s: State, a: Action, o: OrderId)
    ensures Statuses(s.journal, o) <= Statuses(Step(s, a).journal, o)
    ensures !a.CommitTx? ==> Statuses(s.journal, o) == Statuses(Step(s, a).journal, o)
  {
    StepFrame(s, a);
    if (a.CommitTx? || RiderStep(a)) && Step(s, a) != s {
      var c := Step(s, a).journal[|s.journal|];
      assert Step(s, a).journal == s.journal + [c];
      StatusesSnoc(s.journal, c, o);
    }
  }

  lemma StepKeepsHistory(s: State, a: Action)
    requires Inv(s) && HistoryOk(s)
    ensures HistoryOk(Step(s, a))
  {
    var s' := Step(s, a);
    hide Explains;
    forall o: OrderId ensures OrderHistoryOk(s', o) {
      if a.CommitTx? && CanCommit(s, a.p) {
        CommitExtendsHistory(s, a.p, o);
      } else {
        assert OrderHistoryOk(s, o);
        StatusesGrow(s, a, o);
        StepFrame(s, a);
        hide Step;
      }
    }
    forall p | p in s'.procs && s'.procs[p].job.Transition?
      ensures s'.procs[p].job.read in Statuses(s'.journal, s'.procs[p].job.order)
    {
      ReadStaysInHistory(s, a, p);
    }
  }

  lemma ReadStaysInHistory(s: State, a: Action, p: ProcId)
    requires HistoryOk(s) && p in Step(s, a).procs && Step(s, a).procs[p].job.Transition?
    ensures var job := Step(s, a).procs[p].job; job.read in Statuses(Step(s, a).journal, job.order)
  {
    TransitionsComeFromReads(s, a, p);
    var job := Step(s, a).procs[p].job;
    StatusesGrow(s, a, job.order);
    hide Step;
    assert OrderHistoryOk(s, job.order);
  }

  lemma {:induction false} HistoryAlways(acts: seq<Action>)
    ensures HistoryOk(Exec(acts)) && Inv(Exec(acts))
  {
    InvAlways(acts);
    if acts == [] {
      assert forall o: OrderId :: OrderHistoryOk(INIT, o);
    } else {
      HistoryAlways(acts[..|acts|-1]);
      StepKeepsHistory(Exec(acts[..|acts|-1]), acts[|acts|-1]);
    }
  }

  /**
   In every run: each status an order ever gets was legal from some earlier status of that
   order, PLACED comes first and never again, and DELIVERED comes only after the whole line.
   */
  lemma HistoryOfRacingWriters(acts: seq<Action>, o: OrderId)
    ensures var s := Exec(acts);
            var h := Statuses(s.journal, o);
            && Explains(h, Current(s, o))
            && (forall k :: 0 < k < |h| ==> h[k] != Placed)
            && (forall d :: 0 <= d < |h| && h[d] == Delivered ==>
                  WentThroughAll(h, d))
  {
    HistoryAlways(acts);
    var h := Statuses(Exec(acts).journal, o);
    assert OrderHistoryOk(Exec(acts), o);
    forall k | 0 < k < |h| ensures h[k] != Placed {
      PlacedNeverRecurs(h, k);
    }
    forall d | 0 <= d < |h| && h[d] == Delivered
      ensures WentThroughAll(h, d)
    {
      DeliveredWentThroughAll(h, d);
    }
  }

  // ----- Exactly which runs follow the graph

  /** The check UpdateStatus lacks: the status is as read, or it is a cancel of a live order. */
  predicate StillLegal(current: Status, read: Status, to: Status) {
    current == read || (to == Cancelled && !Final(current))
  }

  /** For the WHERE clause of UpdateStatus: the order is still fit for the move that was validated. */
  predicate StillFits(found: Found, job: Job, e: Event) {
    job.Transition? && found.order.Some? ==> StillLegal(found.order.value.status, job.read, job.to)
  }

  /** Every UpdateStatus whose transaction goes on to commit finds the order still fit as it takes the row. */
  ghost predicate GuardedRun(acts: seq<Action>) {
    GuardedLocks(acts, StillFits)
  }

  ghost predicate FollowsGraph(s: State) {
    forall o: OrderId :: Path(Statuses(s.journal, o))
  }

  lemma PathExtend(h: seq<Status>, to: Status)
    requires h != []
    ensures Path(h + [to]) <==> Path(h) && Legal(h[|h|-1], to)
  {
    var h' := h + [to];
    assert h' [|h|] == to && h'[|h|-1] == h[|h|-1];
    if Path(h') {
      forall k | 0 < k < |h| ensures Legal(h[k-1], h[k]) {
        assert Legal(h'[k-1], h'[k]);
      }
    }
  }

  lemma KnownStatus(h: seq<Status>, k: nat)
    requires Supported(h) && k < |h|
    ensures Rank(h[k]) >= 0
  {
    if k > 0 {
      assert HasSource(h[..k], h[k]);
    }
  }

  /** A validated move is still an edge from the current status exactly when the missing check would pass. */
  lemma EdgeIff(current: Status, read: Status, to: Status)
    requires Legal(read, to) && Rank(current) >= 0
    ensures Legal(current, to) <==> StillLegal(current, read, to)
  {
  }

  /** Appending the status a process writes keeps the history a path exactly when the process is guarded. */
  lemma WritePathIff(s: State, p: ProcId, h: seq<Status>)
    requires CanCommit(s, p) && JobOk(s, s.procs[p]) && Explains(h, Current(s, s.procs[p].job.order))
    requires !s.procs[p].hold.event.OrderAssigned?
    ensures Path(h + Written(CommitOf(s, p), s.procs[p].job.order)) <==>
            Path(h) && CommitPasses(s, CommitTx(p), StillFits)
  {
    var q := s.procs[p];
    var to := Written(CommitOf(s, p), q.job.order)[0];
    if h == [] {
      assert q.job.Create? && h + [to] == [Placed];
    } else {
      KnownStatus(h, |h| - 1);
      PathExtend(h, to);
      hide Path, Supported;
      if q.job.Transition? {
        EdgeIff(h[|h|-1], q.job.read, to);
      }
    }
  }

  lemma CommitPathIff(s: State, p: ProcId, o: OrderId)
    requires CanCommit(s, p) && JobOk(s, s.procs[p]) && OrderHistoryOk(s, o)
    ensures Path(Statuses(DoCommitTx(s, p).journal, o)) <==>
            Path(Statuses(s.journal, o)) && (s.procs[p].job.order == o ==> CommitPasses(s, CommitTx(p), StillFits))
  {
    hide Path, Explains, DoCommitTx, Statuses;
    var q, h := s.procs[p], Statuses(s.journal, o);
    CommitWritesStatus(s, p, o);
    if q.job.order == o && !q.hold.event.OrderAssigned? {
      WritePathIff(s, p, h);
    } else {
      assert h + [] == h;
    }
  }

  lemma StepPathIff(s: State, a: Action)
    requires Inv(s) && HistoryOk(s)
    ensures FollowsGraph(Step(s, a)) <==> FollowsGraph(s) && CommitPasses(s, a, StillFits)
  {
    if a.CommitTx? && CanCommit(s, a.p) {
      forall o: OrderId
        ensures Path(Statuses(Step(s, a).journal, o)) <==>
                Path(Statuses(s.journal, o)) && (s.procs[a.p].job.order == o ==> CommitPasses(s, a, StillFits))
      {
        assert OrderHistoryOk(s, o) && JobOk(s, s.procs[a.p]);
        CommitPathIff(s, a.p, o);
      }
      hide Path;
      assert Path(Statuses(Step(s, a).journal, s.procs[a.p].job.order)) ==> CommitPasses(s, a, StillFits);
    } else {
      forall o: OrderId ensures Statuses(Step(s, a).journal, o) == Statuses(s.journal, o) {
        StatusesGrow(s, a, o);
      }
    }
  }

  lemma {:induction false} FollowsGraphIffCommits(acts: seq<Action>)
    ensures FollowsGraph(Exec(acts)) <==> GuardedCommits(acts, StillFits)
  {
    if acts == [] {
      assert forall o: OrderId :: Path(Statuses(INIT.journal, o));
    } else {
      hide Exec, Step, Inv, HistoryOk, FollowsGraph, CommitPasses, GuardedCommits;
      var before := acts[..|acts|-1];
      assert acts == before + [acts[|acts|-1]];
      ExecSnoc(before, acts[|acts|-1]);
      HistoryAlways(before);
      FollowsGraphIffCommits(before);
      StepPathIff(Exec(before), acts[|acts|-1]);
      GuardedCommitsSnoc(acts, StillFits);
    }
  }

  /**
   Every order's history is a path of the lifecycle graph exactly when each UpdateStatus that
   commits found, under its row lock, the status that was read, or cancels an order not final.
   */
  lemma FollowsGraphIffGuarded(acts: seq<Action>)
    ensures FollowsGraph(Exec(acts)) <==> GuardedRun(acts)
  {
    FollowsGraphIffCommits(acts);
    GuardAtLockIff(acts, StillFits);
  }

  /** What the guard buys: no repeats, rank rising, at most five statuses, final means final. */
  lemma GuardedHistoryIsShort(acts: seq<Action>, o: OrderId)
    requires GuardedRun(acts)
    ensures var h := Statuses(Exec(acts).journal, o);
            && |h| <= 5
            && (forall i, j :: 0 <= i < j < |h| ==> Rank(h[i]) < Rank(h[j]) && h[i] != h[j])
            && (forall i :: 0 <= i < |h| && Final(h[i]) ==> i == |h| - 1)
  {
    FollowsGraphIffGuarded(acts);
    PathIsShort(Statuses(Exec(acts).journal, o));
  }

  // ----- Without the guard

  const STALE_READ := CreateActs(0, 7) + [ReadOrder(1, 7, Accepted)]
  const RACE := STALE_READ + MoveActs(2, 7, Cancelled) + [LockOrder(1), DrawRow(1), CommitTx(1)]

  const RACE0 := RowCommit(0, 7, OrderPlaced)
  const RACE1 := RowCommit(1, 7, StatusUpdated(Cancelled))
  const RACE2 := RowCommit(2, 7, StatusUpdated(Accepted))

  lemma StaleRead()
    ensures Exec(STALE_READ)
            == AfterTx(INIT, 7, OrderPlaced).(procs := map[1 := Proc(Transition(7, Placed, Accepted), Nothing)])
  {
    FirstCreate(0, 7);
    ExecSnoc(CreateActs(0, 7), ReadOrder(1, 7, Accepted));
  }

  lemma StaleWrite(s: State)
    requires s.procs == map[1 := Proc(Transition(7, Placed, Accepted), Nothing)] && 7 in s.orders
    ensures DoCommitTx(DoDrawRow(DoLockOrder(s, 1), 1), 1).journal
            == s.journal + [RowCommit(s.nextRow, 7, StatusUpdated(Accepted))]
  {
    var s1 := DoLockOrder(s, 1);
    assert s1.procs[1] == Proc(Transition(7, Placed, Accepted), OrderRow(StatusUpdated(Accepted), None));
    DrawThenCommit(s1, 1);
  }

  lemma RaceJournal()
    ensures Exec(RACE).journal == [RACE0] + [RACE1] + [RACE2]
  {
    hide Exec, DoLockOrder, DoDrawRow, DoCommitTx;
    StaleRead();
    MoveUninterrupted(STALE_READ, 2, 7, Cancelled);
    var acts := STALE_READ + MoveActs(2, 7, Cancelled);
    ExecThree(acts, LockOrder(1), DrawRow(1), CommitTx(1));
    StaleWrite(Exec(acts));
  }

  /** A cancelled order comes back to life: ACCEPTED was validated against PLACED before the cancel. */
  lemma CancelledOrderRevives()
    ensures Statuses(Exec(RACE).journal, 7) == [Placed, Cancelled, Accepted]
    ensures !FollowsGraph(Exec(RACE))
  {
    RaceJournal();
    hide Exec;
    StatusesSnoc([], RACE0, 7);
    assert [] + [RACE0] == [RACE0];
    StatusesSnoc([RACE0], RACE1, 7);
    StatusesSnoc([RACE0] + [RACE1], RACE2, 7);
    var h := Statuses(Exec(RACE).journal, 7);
    assert h == [Placed, Cancelled, Accepted] && !Legal(h[1], h[2]);
  }
}
