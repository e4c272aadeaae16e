/**
 What the tables hold: each commit makes one write and leaves all else alone, and in every run
 the audit log, the orders and the riders are what the commits so far say, read one by one.
 */
module Records {
  import opened Options
  import opened Lifecycle
  import opened System
  import opened Locking
  import opened OutboxReplay

  // ----- One commit

  /** The order and rider rows, and the audit log, after event e on order o: nothing else in them has changed. */
  ghost predicate RowsWritten(s: State, s': State, o: OrderId, e: Event) {
    match e
    case OrderPlaced =>
      o !in s.orders && s'.orders == s.orders[o := Order(Placed, None)]
      && s'.riders == s.riders && s'.audit == s.audit + [AuditRow(o, e)]
    case StatusUpdated(to) =>
      o in s.orders && s'.orders == s.orders[o := Order(to, s.orders[o].rider)]
      && s'.riders == s.riders && s'.audit == s.audit + [AuditRow(o, e)]
    case NoRider =>
      o in s.orders && s.orders[o].status == Placed && s'.orders == s.orders[o := Order(Cancelled, s.orders[o].rider)]
      && s'.riders == s.riders && s'.audit == s.audit
    case OrderAssigned(r) =>
      o in s.orders && s'.orders == s.orders[o := Order(s.orders[o].status, Some(r))]
      && r in s.riders && s.riders[r] == Available && s'.riders == s.riders[r := Busy]
      && s'.audit == s.audit + [AuditRow(o, e)]
  }

  /** Exactly one write of event e on order o lies between the two states, with one new, unsent outbox row. */
  ghost predicate OneWrite(s: State, s': State, o: OrderId, e: Event) {
    && RowsWritten(s, s', o, e)
    && s'.journal != []
    && var c := s'.journal[|s'.journal|-1];
       && c.RowCommit? && c.order == o && c.event == e && s'.journal == s.journal + [c]
       && c.row !in s.outbox && s'.outbox == s.outbox[c.row := Row(o, e, false)]
       && forall id :: id in s.outbox && s.outbox[id].order == o ==> id < c.row
  }

  /** Relays, log and reader are as they were, and so is every process but p. */
  ghost predicate RestKept(s: State, s': State, p: ProcId) {
    && s'.nextRow == s.nextRow && s'.relays == s.relays && s'.lost == s.lost && s'.log == s.log && s'.limbo == s.limbo
    && s'.reader == s.reader && s'.failed == s.failed && s'.retries == s.retries
    && s'.procs - {p} == s.procs - {p}
  }

  /** In every run a commit is one write for its job, and leaves all else alone. */
  lemma CommitIsOneWrite(acts: seq<Action>, p: ProcId)
    requires CanCommit(Exec(acts), p)
    ensures var s, s' := Exec(acts), Step(Exec(acts), CommitTx(p));
            OneWrite(s, s', s.procs[p].job.order, s.procs[p].hold.event) && RestKept(s, s', p)
  {
    InvAlways(acts);
    CommitWrites(Exec(acts), p);
  }

  lemma CommitWrites(s: State, p: ProcId)
    requires Inv(s) && CanCommit(s, p)
    ensures OneWrite(s, DoCommitTx(s, p), s.procs[p].job.order, s.procs[p].hold.event)
    ensures RestKept(s, DoCommitTx(s, p), p)
  {
    var q := s.procs[p];
    assert JobOk(s, q) && DrawOk(s, q);
    assert q.hold.event.OrderAssigned? ==> HoldsRider(q, q.hold.event.rider);
    hide Inv, JobOk, DrawOk;
  }

  // ----- The tables of every run

  /** The audit rows of the commits so far: markCancelled writes none. */
  function Audited(journal: seq<Commit>): seq<AuditRow> {
    if journal == [] then []
    else
      var c := journal[|journal|-1];
      Audited(journal[..|journal|-1])
      + if c.RowCommit? && !c.event.NoRider? then [AuditRow(c.order, c.event)] else []
  }

  /** Reading the commits about order `o` in commit order. */
  function OrderOf(journal: seq<Commit>, o: OrderId): Option<Order> {
    if journal == [] then None
    else
      var c, known := journal[|journal|-1], OrderOf(journal[..|journal|-1], o);
      if c.RowCommit? && c.order == o then Absorb(known, c.event) else known
  }

  predicate Concerns(c: Commit, r: RiderId) {
    match c
    case RowCommit(_, _, e) => e == OrderAssigned(r)
    case RiderCommit(rider, _) => rider == r
  }

  /** The commits that wrote the status of rider r, in commit order. */
  function RiderHistory(journal: seq<Commit>, r: RiderId): seq<Commit> {
    if journal == [] then []
    else
      var c := journal[|journal|-1];
      RiderHistory(journal[..|journal|-1], r) + if Concerns(c, r) then [c] else []
  }

  /** A claim makes its rider BUSY. */
  function RiderStatusOf(c: Commit): RiderStatus {
    if c.RiderCommit? then c.status else Busy
  }

  /**
   A rider starts OFFLINE, has the status last written, and each claim came right after a
   write of AVAILABLE.
   */
  ghost predicate RiderOk(s: State, r: RiderId) {
    var h := RiderHistory(s.journal, r);
    && (r in s.riders <==> h != [])
    && (h != [] ==> h[0] == RiderCommit(r, Offline) && s.riders[r] == RiderStatusOf(h[|h|-1]))
    && forall k :: 0 <= k < |h| && h[k].RowCommit? ==> k > 0 && h[k-1] == RiderCommit(r, Available)
  }

  ghost predicate TablesOk(s: State) {
    && s.audit == Audited(s.journal)
    && (forall o: OrderId :: OrderOf(s.journal, o) == Stored(s, o))
    && (forall r: RiderId :: RiderOk(s, r))
  }

  lemma ReadingsSnoc(journal: seq<Commit>, c: Commit, o: OrderId, r: RiderId)
    ensures var j' := journal + [c];
            && Audited(j') == Audited(journal)
                              + (if c.RowCommit? && !c.event.NoRider? then [AuditRow(c.order, c.event)] else [])
            && OrderOf(j', o) == (if c.RowCommit? && c.order == o then Absorb(OrderOf(journal, o), c.event)
                                  else OrderOf(journal, o))
            && RiderHistory(j', r) == RiderHistory(journal, r) + (if Concerns(c, r) then [c] else [])
  {
    assert (journal + [c])[..|journal|] == journal;
  }

  lemma RowKeepsTables(s: State, s': State, o: OrderId, e: Event)
    requires TablesOk(s) && OneWrite(s, s', o, e)
    ensures TablesOk(s')
  {
    var c := s'.journal[|s'.journal|-1];
    ReadingsSnoc(s.journal, c, 0, 0);
    forall x: OrderId ensures OrderOf(s'.journal, x) == Stored(s', x) {
      ReadingsSnoc(s.journal, c, x, 0);
      assert OrderOf(s.journal, x) == Stored(s, x);
    }
    forall r: RiderId ensures RiderOk(s', r) {
      ReadingsSnoc(s.journal, c, 0, r);
      assert RiderOk(s, r);
      HistoryConcerns(s.journal, r);
    }
  }

  /** The history of a rider holds only commits that concern the rider. */
  lemma {:induction false} HistoryConcerns(journal: seq<Commit>, r: RiderId)
    ensures forall k :: 0 <= k < |RiderHistory(journal, r)| ==> Concerns(RiderHistory(journal, r)[k], r)
  {
    if journal != [] {
      HistoryConcerns(journal[..|journal|-1], r);
    }
  }

  lemma RiderKeepsTables(s: State, s': State, r: RiderId, status: RiderStatus)
    requires TablesOk(s) && (r in s.riders || status == Offline)
    requires s' == s.(riders := s.riders[r := status], journal := s.journal + [RiderCommit(r, status)])
    ensures TablesOk(s')
  {
    var c := RiderCommit(r, status);
    ReadingsSnoc(s.journal, c, 0, 0);
    forall o: OrderId ensures OrderOf(s'.journal, o) == Stored(s', o) {
      ReadingsSnoc(s.journal, c, o, 0);
      assert OrderOf(s.journal, o) == Stored(s, o);
    }
    forall x: RiderId ensures RiderOk(s', x) {
      ReadingsSnoc(s.journal, c, 0, x);
      assert RiderOk(s, x);
    }
  }

  lemma SameTablesStayOk(s: State, s': State)
    requires TablesOk(s)
    requires s'.journal == s.journal && s'.audit == s.audit && s'.orders == s.orders && s'.riders == s.riders
    ensures TablesOk(s')
  {
    forall o: OrderId ensures OrderOf(s'.journal, o) == Stored(s', o) {
      assert OrderOf(s.journal, o) == Stored(s, o);
    }
    forall r: RiderId ensures RiderOk(s', r) {
      assert RiderOk(s, r);
    }
  }

  lemma StepKeepsTables(s: State, a: Action)
    requires Inv(s) && TablesOk(s)
    ensures TablesOk(Step(s, a))
  {
    hide Inv, TablesOk, DoCommitTx;
    var s' := Step(s, a);
    if a.CommitTx? && CanCommit(s, a.p) {
      CommitWrites(s, a.p);
      RowKeepsTables(s, s', s.procs[a.p].job.order, s.procs[a.p].hold.event);
    } else if a.RegisterRider? && s' != s {
      RiderKeepsTables(s, s', a.rider, Offline);
    } else if a.SetRider? && s' != s {
      RiderKeepsTables(s, s', a.rider, a.status);
    } else if s' != s {
      StepFrame(s, a);
      if a.CommitTx? {
        NoCommitNoChange(s, a.p);
      }
      hide Step;
      SameTablesStayOk(s, s');
    }
  }

  lemma NoCommitNoChange(s: State, p: ProcId)
    requires !CanCommit(s, p)
    ensures DoCommitTx(s, p) == s
  {
  }

  /**
   In every run the audit log lists the commits that are audited, every order is what the
   commits about it say, and every rider has the status last written, from OFFLINE on.
   */
  lemma {:induction false} TablesAreTheCommits(acts: seq<Action>)
    ensures TablesOk(Exec(acts))
  {
    if acts == [] {
      assert forall o: OrderId :: OrderOf(INIT.journal, o) == Stored(INIT, o);
      assert forall r: RiderId :: RiderOk(INIT, r);
    } else {
      var s := Exec(acts[..|acts|-1]);
      InvAlways(acts[..|acts|-1]);
      TablesAreTheCommits(acts[..|acts|-1]);
      hide Inv, TablesOk, Step;
      StepKeepsTables(s, acts[|acts|-1]);
    }
  }
}
