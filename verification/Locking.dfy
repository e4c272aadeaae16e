/**
 What the row locks guarantee in every interleaving: one writer per row, reserved riders
 stay AVAILABLE, a drawn outbox id is newer than every committed row of its order, and a
 log message always stands for a committed row of an existing order.
 */
module Locking {
  import opened Options
  import opened Lifecycle
  import opened System

  ghost predicate OneWriterPerOrder(s: State) {
    forall p, q :: p in s.procs && q in s.procs && p != q && s.procs[p].hold.OrderRow? && s.procs[q].hold.OrderRow?
                   ==> s.procs[p].job.order != s.procs[q].job.order
  }

  ghost predicate OneClaimPerRider(s: State) {
    forall p, q, r :: p in s.procs && q in s.procs && HoldsRider(s.procs[p], r) && HoldsRider(s.procs[q], r) ==> p == q
  }

  /** A rider row locked by a claim stays AVAILABLE until that claim ends. */
  ghost predicate ReservedAvailable(s: State) {
    forall p, r :: p in s.procs && HoldsRider(s.procs[p], r) ==> r in s.riders && s.riders[r] == Available
  }

  /** Each process writes what its job says, about an order that is there (or, for Create, not yet). */
  ghost predicate JobOk(s: State, q: Proc) {
    match q.job
    case Create(o) => o !in s.orders && q.hold.OrderRow? && q.hold.event == OrderPlaced
    case Transition(o, read, to) =>
      o in s.orders && Legal(read, to) && (q.hold.Nothing? || (q.hold.OrderRow? && q.hold.event == StatusUpdated(to)))
    case Assign(o, _) =>
      && o in s.orders
      && (q.hold.OrderRow? ==> q.hold.event.OrderAssigned? || (q.hold.event.NoRider? && s.orders[o].status == Placed))
  }

  ghost predicate JobsOk(s: State) {
    forall p :: p in s.procs ==> JobOk(s, s.procs[p])
  }

  ghost predicate RowsOk(s: State) {
    forall id :: id in s.outbox ==> id < s.nextRow && s.outbox[id].order in s.orders
  }

  predicate Drew(q: Proc, id: RowId) {
    q.hold.OrderRow? && q.hold.draw == Some(id)
  }

  /** A drawn id is unused, and newer than every committed row of the order it will describe. */
  ghost predicate DrawOk(s: State, q: Proc) {
    q.hold.OrderRow? && q.hold.draw.Some? ==>
      && q.hold.draw.value < s.nextRow
      && q.hold.draw.value !in s.outbox
      && forall id :: id in s.outbox && s.outbox[id].order == q.job.order ==> id < q.hold.draw.value
  }

  ghost predicate DrawsOk(s: State) {
    && (forall p :: p in s.procs ==> DrawOk(s, s.procs[p]))
    && (forall p, q, id :: p in s.procs && q in s.procs && Drew(s.procs[p], id) && Drew(s.procs[q], id) ==> p == q)
  }

  /** The message says what the outbox row it was published from says, unchanged. */
  ghost predicate Carries(outbox: map<RowId, Row>, m: Msg) {
    m.row in outbox && m.order == outbox[m.row].order && m.event == outbox[m.row].event
  }

  ghost predicate LogOk(s: State) {
    forall k :: 0 <= k < |s.log| ==> Carries(s.outbox, s.log[k])
  }

  ghost predicate Inv(s: State) {
    OneWriterPerOrder(s) && OneClaimPerRider(s) && ReservedAvailable(s) && JobsOk(s) && RowsOk(s) && DrawsOk(s)
    && LogOk(s)
  }

  // ----- Every step keeps the invariant

  /** Replacing the process at p keeps the invariant if its new locks were free or already its own. */
  lemma PutProc(s: State, p: ProcId, q: Proc)
    requires Inv(s) && JobOk(s, q) && DrawOk(s, q)
    requires q.hold.OrderRow? ==> OrderFree(s, q.job.order) || (p in s.procs && HoldsOrder(s.procs[p], q.job.order))
    requires forall r :: HoldsRider(q, r) ==>
      (RiderFree(s, r) || (p in s.procs && HoldsRider(s.procs[p], r))) && r in s.riders && s.riders[r] == Available
    requires q.hold.OrderRow? ==> q.hold.draw == None
    ensures Inv(s.(procs := s.procs[p := q]))
  {
  }

  lemma DropProc(s: State, p: ProcId)
    requires Inv(s)
    ensures Inv(s.(procs := s.procs - {p}))
  {
  }

  lemma BeginCreateKeepsInv(s: State, p: ProcId, o: OrderId)
    requires Inv(s)
    ensures Inv(DoBeginCreate(s, p, o))
  {
    if DoBeginCreate(s, p, o) != s {
      PutProc(s, p, Proc(Create(o), OrderRow(OrderPlaced, None)));
    }
  }

  lemma ReadOrderKeepsInv(s: State, p: ProcId, o: OrderId, to: Status)
    requires Inv(s)
    ensures Inv(DoReadOrder(s, p, o, to))
  {
    if DoReadOrder(s, p, o, to) != s {
      PutProc(s, p, Proc(Transition(o, s.orders[o].status, to), Nothing));
    }
  }

  lemma DeliverKeepsInv(s: State, p: ProcId, offset: nat, search: Option<seq<RiderId>>)
    requires Inv(s)
    ensures Inv(DoDeliver(s, p, offset, search))
  {
    if DoDeliver(s, p, offset, search) != s {
      assert s.log[offset].order in s.orders;
      PutProc(s, p, DoDeliver(s, p, offset, search).procs[p]);
    }
  }

  lemma TryRiderKeepsInv(s: State, p: ProcId)
    requires Inv(s)
    ensures Inv(DoTryRider(s, p))
  {
    if DoTryRider(s, p) != s {
      PutProc(s, p, DoTryRider(s, p).procs[p]);
    }
  }

  lemma AfterLockOk(s: State, q: Proc)
    requires JobOk(s, q)
    ensures AfterLock(s.orders, q).Some? && JobOk(s, AfterLock(s.orders, q).value)
    ensures forall r :: HoldsRider(AfterLock(s.orders, q).value, r) <==> HoldsRider(q, r)
    ensures AfterLock(s.orders, q).value.job == q.job
    ensures var h := AfterLock(s.orders, q).value.hold; h == q.hold || h.Ended? || (h.OrderRow? && h.draw == None)
  {
  }

  lemma LockOrderKeepsInv(s: State, p: ProcId)
    requires Inv(s)
    ensures Inv(DoLockOrder(s, p))
  {
    if p in s.procs && OrderFree(s, s.procs[p].job.order) {
      assert JobOk(s, s.procs[p]);
      hide AfterLock;
      AfterLockOk(s, s.procs[p]);
      PutProc(s, p, AfterLock(s.orders, s.procs[p]).value);
    }
  }

  lemma DrawKeepsLocks(s: State, p: ProcId)
    requires OneWriterPerOrder(s) && JobsOk(s)
    ensures OneWriterPerOrder(DoDrawRow(s, p)) && JobsOk(DoDrawRow(s, p))
  {
  }

  lemma DrawKeepsClaims(s: State, p: ProcId)
    requires OneClaimPerRider(s) && ReservedAvailable(s)
    ensures OneClaimPerRider(DoDrawRow(s, p)) && ReservedAvailable(DoDrawRow(s, p))
  {
    var s' := DoDrawRow(s, p);
    assert forall q, r :: q in s.procs ==> (HoldsRider(s'.procs[q], r) <==> HoldsRider(s.procs[q], r));
  }

  lemma DrawRowKeepsInv(s: State, p: ProcId)
    requires Inv(s)
    ensures Inv(DoDrawRow(s, p))
  {
    DrawKeepsLocks(s, p);
    DrawKeepsClaims(s, p);
    hide OneWriterPerOrder, OneClaimPerRider, ReservedAvailable, JobsOk;
  }

  lemma WriteKeepsClaims(s: State, o: OrderId, e: Event, id: RowId)
    requires OneWriterPerOrder(s) && OneClaimPerRider(s) && ReservedAvailable(s)
    requires e.OrderAssigned? ==> RiderFree(s, e.rider)
    ensures var s' := WriteTables(s, o, e, id); OneWriterPerOrder(s') && OneClaimPerRider(s') && ReservedAvailable(s')
  {
  }

  /** No open process writes the order, so what each of them says of its own order stays true. */
  lemma WriteKeepsJobs(s: State, o: OrderId, e: Event, id: RowId)
    requires JobsOk(s) && OrderFree(s, o)
    ensures JobsOk(WriteTables(s, o, e, id))
  {
  }

  lemma WriteKeepsDraws(s: State, o: OrderId, e: Event, id: RowId)
    requires DrawsOk(s) && OrderFree(s, o)
    requires forall p :: p in s.procs ==> !Drew(s.procs[p], id)
    ensures DrawsOk(WriteTables(s, o, e, id))
  {
  }

  lemma WriteKeepsRows(s: State, o: OrderId, e: Event, id: RowId)
    requires RowsOk(s) && LogOk(s) && id < s.nextRow && id !in s.outbox && (e.OrderPlaced? || o in s.orders)
    ensures RowsOk(WriteTables(s, o, e, id)) && LogOk(WriteTables(s, o, e, id))
  {
  }

  /** The tables can be written for an order and a rider that no other process holds. */
  lemma WriteKeepsInv(s: State, o: OrderId, e: Event, id: RowId)
    requires Inv(s) && OrderFree(s, o) && id < s.nextRow && id !in s.outbox
    requires forall p :: p in s.procs ==> !Drew(s.procs[p], id)
    requires e.OrderPlaced? || o in s.orders
    requires e.OrderAssigned? ==> RiderFree(s, e.rider)
    ensures Inv(WriteTables(s, o, e, id))
  {
    WriteKeepsClaims(s, o, e, id);
    WriteKeepsJobs(s, o, e, id);
    WriteKeepsDraws(s, o, e, id);
    WriteKeepsRows(s, o, e, id);
    hide WriteTables, OneWriterPerOrder, OneClaimPerRider, ReservedAvailable, JobsOk, RowsOk, DrawsOk, LogOk;
  }

  /** Nobody but p held what p is about to write. */
  lemma CommitterWasAlone(s: State, p: ProcId)
    requires Inv(s) && CanCommit(s, p)
    ensures var q, s1 := s.procs[p], s.(procs := s.procs - {p});
            && OrderFree(s1, q.job.order) && q.hold.draw.value < s.nextRow && q.hold.draw.value !in s.outbox
            && (forall t :: t in s1.procs ==> !Drew(s1.procs[t], q.hold.draw.value))
            && (q.hold.event.OrderPlaced? || q.job.order in s.orders)
            && (q.hold.event.OrderAssigned? ==> RiderFree(s1, q.hold.event.rider))
  {
    var q := s.procs[p];
    assert JobOk(s, q) && DrawOk(s, q);
    if q.hold.event.OrderAssigned? {
      assert HoldsRider(q, q.hold.event.rider);
    }
  }

  /** A delivery that has ended holds nothing. */
  lemma EndKeepsInv(s: State, p: ProcId, q: Proc)
    requires Inv(s) && q.job.Assign? && q.hold.Ended? && q.job.order in s.orders
    ensures Inv(s.(procs := s.procs[p := q]))
  {
    PutProc(s, p, q);
  }

  lemma AfterCommitIs(s: State, p: ProcId)
    requires CanCommit(s, p)
    ensures var q, after := s.procs[p], AfterCommit(s, p);
            if q.job.Assign? then
              p in after && after == (s.procs - {p})[p := after[p]] && after[p].job == q.job && after[p].hold.Ended?
            else after == s.procs - {p}
  {
  }

  lemma CommitKeepsInv(s: State, p: ProcId)
    requires Inv(s)
    ensures Inv(DoCommitTx(s, p))
  {
    if CanCommit(s, p) {
      var q := s.procs[p];
      var s1 := s.(procs := s.procs - {p});
      DropProc(s, p);
      CommitterWasAlone(s, p);
      AfterCommitIs(s, p);
      hide Inv, AfterCommit, OrderFree, RiderFree;
      WriteKeepsInv(s1, q.job.order, q.hold.event, q.hold.draw.value);
      if q.job.Assign? {
        EndKeepsInv(WriteTables(s1, q.job.order, q.hold.event, q.hold.draw.value), p, AfterCommit(s, p)[p]);
      }
    }
  }

  lemma FailKeepsInv(s: State, p: ProcId)
    requires Inv(s)
    ensures Inv(DoFailTx(s, p)) && Inv(DoCrash(s, p))
  {
    if p in s.procs && !s.procs[p].hold.Ended? {
      DropProc(s, p);
      assert JobOk(s, s.procs[p]);
      if s.procs[p].job.Assign? {
        PutProc(s, p, DoFailTx(s, p).procs[p]);
        PutProc(s, p, DoCrash(s, p).procs[p]);
      }
    }
  }

  lemma RiderWriteKeepsInv(s: State, r: RiderId, status: RiderStatus)
    requires Inv(s) && RiderFree(s, r)
    ensures Inv(s.(riders := s.riders[r := status], journal := s.journal + [RiderCommit(r, status)]))
  {
  }

  lemma RegisterKeepsInv(s: State, r: RiderId)
    requires Inv(s)
    ensures Inv(DoRegisterRider(s, r))
  {
    if r !in s.riders {
      assert RiderFree(s, r);
      RiderWriteKeepsInv(s, r, Offline);
    }
  }

  /** The writers' invariant reads nothing of the relays, the writes under way or the consumer. */
  lemma FrameKeepsInv(s: State, s': State)
    requires Inv(s)
    requires s' == s.(relays := s'.relays, lost := s'.lost, limbo := s'.limbo, reader := s'.reader,
                      failed := s'.failed, retries := s'.retries)
    ensures Inv(s')
  {
  }

  lemma AppendKeepsInv(s: State, id: RowId, n: nat)
    requires Inv(s) && id in s.outbox
    ensures Inv(s.(log := s.log + Repeat(MsgOf(s, id), n)))
  {
  }

  lemma PublishKeepsInv(s: State, r: RelayId, fate: PublishFate)
    requires Inv(s)
    ensures Inv(DoPublish(s, r, fate))
  {
    hide Inv;
    var s' := DoPublish(s, r, fate);
    if s' != s {
      var id := s.relays[r].rows[s.relays[r].published];
      AppendKeepsInv(s, id, Landed(fate));
      FrameKeepsInv(s.(log := s.log + Repeat(MsgOf(s, id), Landed(fate))), s');
    }
  }

  lemma StrayKeepsInv(s: State, r: RelayId, fate: PublishFate)
    requires Inv(s)
    ensures Inv(DoStray(s, r, fate))
  {
    hide Inv;
    var s' := DoStray(s, r, fate);
    if s' != s {
      var id := s.lost[r].rows[s.lost[r].published];
      AppendKeepsInv(s, id, Landed(fate));
      FrameKeepsInv(s.(log := s.log + Repeat(MsgOf(s, id), Landed(fate))), s');
    }
  }

  lemma LandKeepsInv(s: State, id: RowId)
    requires Inv(s)
    ensures Inv(DoLand(s, id))
  {
    hide Inv;
    var s' := DoLand(s, id);
    if s' != s {
      AppendKeepsInv(s, id, 1);
      assert Repeat(MsgOf(s, id), 1) == [MsgOf(s, id)];
      FrameKeepsInv(s.(log := s.log + [MsgOf(s, id)]), s');
    }
  }

  /** Every message of the order.placed topic is a message of the log. */
  lemma {:induction false} PlacedLogSound(log: seq<Msg>, k: nat)
    requires k < |PlacedLog(log)|
    ensures PlacedLog(log)[k] in log && PlacedLog(log)[k].event.OrderPlaced?
  {
    var n := |log| - 1;
    if k < |PlacedLog(log[..n])| {
      PlacedLogSound(log[..n], k);
    }
  }

  lemma FetchKeepsInv(s: State, p: ProcId, search: Option<seq<RiderId>>)
    requires Inv(s)
    ensures Inv(DoFetch(s, p, search))
  {
    var s' := DoFetch(s, p, search);
    if s' != s {
      PlacedLogSound(s.log, s.reader.position);
      assert PlacedLog(s.log)[s.reader.position].order in s.orders;
      var s1 := s.(procs := s'.procs);
      PutProc(s, p, s'.procs[p]);
      hide Inv;
      FrameKeepsInv(s1, s');
    }
  }

  lemma MarkSentKeepsInv(s: State, r: RelayId)
    requires Inv(s)
    ensures Inv(DoMarkSent(s, r))
  {
  }

  lemma LogStepKeepsInv(s: State, a: Action)
    requires Inv(s) && (RelayStep(a) || ReaderStep(a) || a.Land?)
    ensures Inv(Step(s, a))
  {
    hide Inv, DoSelect, DoPublish, DoMarkSent, DoCrashRelay, DoLoseTx, DoStray, DoLand, DoFetch, DoSettle,
      DoRestartReader;
    match a
    case Publish(r, fate) => PublishKeepsInv(s, r, fate);
    case MarkSent(r) => MarkSentKeepsInv(s, r);
    case Land(id) => LandKeepsInv(s, id);
    case Fetch(p, search) => FetchKeepsInv(s, p, search);
    case Select(r, limit) => FrameKeepsInv(s, DoSelect(s, r, limit));
    case CrashRelay(r) => FrameKeepsInv(s, DoCrashRelay(s, r));
    case LoseTx(r) => FrameKeepsInv(s, DoLoseTx(s, r));
    case Stray(r, fate) => StrayKeepsInv(s, r, fate);
    case Settle(commitOk) => FrameKeepsInv(s, DoSettle(s, commitOk));
    case RestartReader => FrameKeepsInv(s, DoRestartReader(s));
  }

  lemma WriterStepKeepsInv(s: State, a: Action)
    requires Inv(s) && !RelayStep(a) && !ReaderStep(a) && !a.Land?
    ensures Inv(Step(s, a))
  {
    hide Inv, DoBeginCreate, DoReadOrder, DoDeliver, DoTryRider, DoLockOrder, DoDrawRow, DoCommitTx, DoFailTx, DoCrash,
      DoRegisterRider;
    match a
    case BeginCreate(p, o) => BeginCreateKeepsInv(s, p, o);
    case ReadOrder(p, o, to) => ReadOrderKeepsInv(s, p, o, to);
    case Deliver(p, offset, search) => DeliverKeepsInv(s, p, offset, search);
    case TryRider(p) => TryRiderKeepsInv(s, p);
    case LockOrder(p) => LockOrderKeepsInv(s, p);
    case DrawRow(p) => DrawRowKeepsInv(s, p);
    case CommitTx(p) => CommitKeepsInv(s, p);
    case FailTx(p) => FailKeepsInv(s, p);
    case Crash(p) => FailKeepsInv(s, p);
    case RegisterRider(r) => RegisterKeepsInv(s, r);
    case SetRider(r, status) => if Step(s, a) != s { RiderWriteKeepsInv(s, r, status); }
  }

  lemma StepKeepsInv(s: State, a: Action)
    requires Inv(s)
    ensures Inv(Step(s, a))
  {
    hide Inv, Step;
    if RelayStep(a) || ReaderStep(a) || a.Land? {
      LogStepKeepsInv(s, a);
    } else {
      WriterStepKeepsInv(s, a);
    }
  }

  lemma {:induction false} InvAlways(acts: seq<Action>)
    ensures Inv(Exec(acts))
  {
    if acts != [] {
      InvAlways(acts[..|acts|-1]);
      StepKeepsInv(Exec(acts[..|acts|-1]), acts[|acts|-1]);
    }
  }
}
