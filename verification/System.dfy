/**
 The order pipeline as one step system: Postgres tables, row locks, the Kafka log, the
 outbox relays and every process that writes, interleaved statement by statement.

 What the stores are taken to do:
 - Postgres: a row lock is held from the statement that takes it to commit or rollback, a
   waiting UPDATE re-reads the latest committed row, commit is atomic, a failed commit has
   no effect, serial ids are drawn once and never handed out again, and one
   SELECT ... FOR UPDATE SKIP LOCKED is one step.
 - Kafka: the log only grows; the client may write a message any number of times for one
   publish, and any of those writes may land late, even after the publish has returned.
   The order.placed topic has one partition and one consumer, which commits cumulatively.
 - Redis: the geo index is left free, so a search may return any list of riders.
 */
module System {
  import opened Options
  import opened Lifecycle

  type OrderId = nat
  type RiderId = nat
  type RowId = nat
  type ProcId = nat
  type RelayId = nat

  datatype RiderStatus = Offline | Available | Busy

  /** The columns of `orders` that the pipeline decides on. */
  datatype Order = Order(status: Status, rider: Option<RiderId>)

  /** What an outbox row says. `NoRider` is the status update written by markCancelled. */
  datatype Event = OrderPlaced | StatusUpdated(to: Status) | NoRider | OrderAssigned(rider: RiderId)

  datatype Topic = TopicOrderPlaced | TopicOrderStatusUpdated | TopicOrderAssigned

  function TopicOf(e: Event): Topic {
    match e
    case OrderPlaced => TopicOrderPlaced
    case StatusUpdated(_) => TopicOrderStatusUpdated
    case NoRider => TopicOrderStatusUpdated
    case OrderAssigned(_) => TopicOrderAssigned
  }

  datatype Row = Row(order: OrderId, event: Event, sent: bool)

  datatype AuditRow = AuditRow(order: OrderId, event: Event)

  /** A log message; `row` records which outbox row it was published from. */
  datatype Msg = Msg(row: RowId, order: OrderId, event: Event)

  /** A relay transaction in flight: the rows it locked and how many it has published. */
  datatype Batch = Batch(rows: seq<RowId>, published: nat)

  /** How an assignment delivery ended; the row is the one outbox row it committed. */
  datatype Outcome = Claimed(row: RowId) | NoRiderCancelled(row: RowId) | AlreadyMoved | Errored

  /** The handler returns nil when Assign succeeds or reports ErrNoRiderAvailable. */
  predicate HandledOk(out: Outcome) {
    !out.Errored?
  }

  /** `read` is the status Transition saw in its unlocked read; `todo` the candidates not yet tried. */
  datatype Job =
    | Create(order: OrderId)
    | Transition(order: OrderId, read: Status, to: Status)
    | Assign(order: OrderId, todo: seq<RiderId>)

  /** What the open transaction of a process holds; `draw` is its outbox id once inserted. */
  datatype Hold =
    | Nothing
    | RiderRow(rider: RiderId)
    | OrderRow(event: Event, draw: Option<RowId>)
    | Ended(outcome: Outcome)

  datatype Proc = Proc(job: Job, hold: Hold)

  /** A committed write: an outbox row with its table writes, or a rider status write. */
  datatype Commit =
    | RowCommit(row: RowId, order: OrderId, event: Event)
    | RiderCommit(rider: RiderId, status: RiderStatus)

  /**
   The assignment consumer's place in the order.placed topic: the next offset to fetch, the
   committed offset, and the delivery in hand. `handled` and `failed` are history: the offsets
   whose handler returned nil, and those for which it returned an error, to this consumer.
   */
  datatype Reader = Reader(position: nat, committed: nat, busy: Option<ProcId>, handled: set<nat>, failed: set<nat>)

  /**
   `lost` holds the dispatches whose transaction the database has ended and which go on
   publishing. `limbo` holds writes of messages that have not landed yet. `journal`, `failed` and
   `retries` are history: all commits in order, the rows of failed dispatches, and the writes
   beyond one per publish.
   */
  datatype State = State(
    orders: map<OrderId, Order>,
    riders: map<RiderId, RiderStatus>,
    audit: seq<AuditRow>,
    outbox: map<RowId, Row>,
    nextRow: RowId,
    procs: map<ProcId, Proc>,
    relays: map<RelayId, Batch>,
    lost: map<RelayId, Batch>,
    log: seq<Msg>,
    limbo: multiset<RowId>,
    reader: Reader,
    journal: seq<Commit>,
    failed: multiset<RowId>,
    retries: multiset<RowId>)

  const INIT := State(map[], map[], [], map[], 0, map[], map[], map[], [], multiset{}, Reader(0, 0, None, {}, {}), [],
                      multiset{}, multiset{})

  /**
   How one publish went: acknowledged, with `extra` copies besides the one it needed, or failed
   with some copies in the log all the same; `late` more writes may land at any later time.
   */
  datatype PublishFate = Acked(extra: nat, late: nat) | Failed(copies: nat, late: nat)

  const ACK := Acked(0, 0)

  datatype Action =
    | BeginCreate(p: ProcId, order: OrderId)
    | ReadOrder(p: ProcId, order: OrderId, to: Status)
    | Deliver(p: ProcId, offset: nat, search: Option<seq<RiderId>>)
    | TryRider(p: ProcId)
    | LockOrder(p: ProcId)
    | DrawRow(p: ProcId)
    | CommitTx(p: ProcId)
    | FailTx(p: ProcId)
    | Crash(p: ProcId)
    | RegisterRider(rider: RiderId)
    | SetRider(rider: RiderId, status: RiderStatus)
    | Select(relay: RelayId, limit: nat)
    | Publish(relay: RelayId, fate: PublishFate)
    | MarkSent(relay: RelayId)
    | CrashRelay(relay: RelayId)
    | LoseTx(relay: RelayId)
    | Stray(relay: RelayId, fate: PublishFate)
    | Land(row: RowId)
    | Fetch(p: ProcId, search: Option<seq<RiderId>>)
    | Settle(commitOk: bool)
    | RestartReader

  // ----- Row locks

  predicate HoldsOrder(q: Proc, o: OrderId) {
    q.hold.OrderRow? && q.job.order == o
  }

  predicate HoldsRider(q: Proc, r: RiderId) {
    q.hold == RiderRow(r) || (q.hold.OrderRow? && q.hold.event == OrderAssigned(r))
  }

  predicate OrderFree(s: State, o: OrderId) {
    forall p | p in s.procs :: !HoldsOrder(s.procs[p], o)
  }

  predicate RiderFree(s: State, r: RiderId) {
    forall p | p in s.procs :: !HoldsRider(s.procs[p], r)
  }

  predicate Held(s: State, id: RowId) {
    exists r | r in s.relays :: id in s.relays[r].rows
  }

  // ----- Writers

  /** Repository.Create inserts the new order, invisible to others until it commits. */
  function DoBeginCreate(s: State, p: ProcId, o: OrderId): (s': State)
    ensures s' == s.(procs := s'.procs)
  {
    if p in s.procs || o in s.orders || exists q | q in s.procs :: s.procs[q].job.order == o then s
    else s.(procs := s.procs[p := Proc(Create(o), OrderRow(OrderPlaced, None))])
  }

  /** Service.Transition up to its validated read, which takes no lock. */
  function DoReadOrder(s: State, p: ProcId, o: OrderId, to: Status): (s': State)
    ensures s' == s.(procs := s'.procs)
  {
    if p in s.procs || o !in s.orders || !Legal(s.orders[o].status, to) then s
    else s.(procs := s.procs[p := Proc(Transition(o, s.orders[o].status, to), Nothing)])
  }

  /** The handler starts on an order; a failed geo search ends it at once. */
  function NewDelivery(o: OrderId, search: Option<seq<RiderId>>): Proc {
    match search
    case None => Proc(Assign(o, []), Ended(Errored))
    case Some(riders) => Proc(Assign(o, riders), Nothing)
  }

  /** Any order.placed message may be delivered at any time, by whatever owner of the partition. */
  function DoDeliver(s: State, p: ProcId, offset: nat, search: Option<seq<RiderId>>): (s': State)
    ensures s' == s.(procs := s'.procs)
  {
    if p in s.procs || offset >= |s.log| || !s.log[offset].event.OrderPlaced? then s
    else
      s.(procs := s.procs[p := NewDelivery(s.log[offset].order, search)])
  }

  /** claimRider's guarded rider UPDATE: locks the next candidate if AVAILABLE, else skips it. */
  function DoTryRider(s: State, p: ProcId): (s': State)
    ensures s' == s.(procs := s'.procs)
  {
    if p !in s.procs || !s.procs[p].job.Assign? || s.procs[p].hold != Nothing || s.procs[p].job.todo == [] then s
    else
      var q := s.procs[p];
      var r := q.job.todo[0];
      var rest := q.job.(todo := q.job.todo[1..]);
      if !RiderFree(s, r) then s
      else if r in s.riders && s.riders[r] == Available then s.(procs := s.procs[p := Proc(rest, RiderRow(r))])
      else s.(procs := s.procs[p := Proc(rest, Nothing)])
  }

  /** What the order UPDATE of each transaction finds; None when UpdateStatus returns ErrNotFound. */
  function AfterLock(orders: map<OrderId, Order>, q: Proc): Option<Proc> {
    if q.hold.RiderRow? then Some(q.(hold := OrderRow(OrderAssigned(q.hold.rider), None)))
    else if !q.hold.Nothing? then Some(q)
    else
      match q.job
      case Create(_) => Some(q)
      case Transition(o, _, to) => if o in orders then Some(q.(hold := OrderRow(StatusUpdated(to), None))) else None
      case Assign(o, todo) =>
        if todo != [] then Some(q)
        else if o in orders && orders[o].status == Placed then Some(q.(hold := OrderRow(NoRider, None)))
        else Some(q.(hold := Ended(AlreadyMoved)))
  }

  /** The order UPDATE waits until no other transaction holds the row. */
  function DoLockOrder(s: State, p: ProcId): (s': State)
    ensures s' == s.(procs := s'.procs)
  {
    if p !in s.procs || !OrderFree(s, s.procs[p].job.order) then s
    else
      match AfterLock(s.orders, s.procs[p])
      case None => s.(procs := s.procs - {p})
      case Some(q) => s.(procs := s.procs[p := q])
  }

  /** outbox.Write: the insert draws the next serial id; a rolled-back draw leaves a gap. */
  function DoDrawRow(s: State, p: ProcId): (s': State)
    ensures s' == s.(procs := s'.procs, nextRow := s'.nextRow)
  {
    if p !in s.procs || !s.procs[p].hold.OrderRow? || s.procs[p].hold.draw.Some? then s
    else s.(nextRow := s.nextRow + 1,
            procs := s.procs[p := s.procs[p].(hold := s.procs[p].hold.(draw := Some(s.nextRow)))])
  }

  /** The order write each transaction makes; an UPDATE of a missing order changes nothing. */
  function WriteOrder(orders: map<OrderId, Order>, o: OrderId, e: Event): map<OrderId, Order> {
    if e.OrderPlaced? then orders[o := Order(Placed, None)]
    else if o !in orders then orders
    else
      match e
      case StatusUpdated(to) => orders[o := orders[o].(status := to)]
      case NoRider => orders[o := orders[o].(status := Cancelled)]
      case OrderAssigned(r) => orders[o := orders[o].(rider := Some(r))]
  }

  predicate CanCommit(s: State, p: ProcId) {
    p in s.procs && s.procs[p].hold.OrderRow? && s.procs[p].hold.draw.Some?
  }

  function AfterCommit(s: State, p: ProcId): map<ProcId, Proc>
    requires CanCommit(s, p)
  {
    var q := s.procs[p];
    var id := q.hold.draw.value;
    if !q.job.Assign? then s.procs - {p}
    else if q.hold.event.NoRider? then s.procs[p := q.(hold := Ended(NoRiderCancelled(id)))]
    else s.procs[p := q.(hold := Ended(Claimed(id)))]
  }

  /** The order row, rider row, audit row and outbox row of a transaction appear together. */
  function WriteTables(s: State, o: OrderId, e: Event, id: RowId): State {
    s.(orders := WriteOrder(s.orders, o, e),
       riders := if e.OrderAssigned? then s.riders[e.rider := Busy] else s.riders,
       audit := if e.NoRider? then s.audit else s.audit + [AuditRow(o, e)],
       outbox := s.outbox[id := Row(o, e, false)],
       journal := s.journal + [RowCommit(id, o, e)])
  }

  function DoCommitTx(s: State, p: ProcId): (s': State)
    ensures s' == s.(orders := s'.orders, riders := s'.riders, audit := s'.audit, outbox := s'.outbox,
                     journal := s'.journal, procs := s'.procs)
  {
    if !CanCommit(s, p) then s
    else
      var q := s.procs[p];
      WriteTables(s, q.job.order, q.hold.event, q.hold.draw.value).(procs := AfterCommit(s, p))
  }

  /**
   An error in the open transaction, or in opening one: rolled back. Assign goes on to the
   next candidate after a failed claim and gives up after a failed cancel.
   */
  function DoFailTx(s: State, p: ProcId): (s': State)
    ensures s' == s.(procs := s'.procs)
  {
    if p !in s.procs || s.procs[p].hold.Ended? then s
    else
      var q := s.procs[p];
      if !q.job.Assign? then s.(procs := s.procs - {p})
      else if q.hold == Nothing && q.job.todo != [] then
        s.(procs := s.procs[p := Proc(q.job.(todo := q.job.todo[1..]), Nothing)])
      else if q.hold == Nothing || (q.hold.OrderRow? && q.hold.event == NoRider) then
        s.(procs := s.procs[p := q.(hold := Ended(Errored))])
      else s.(procs := s.procs[p := q.(hold := Nothing)])
  }

  /** The process dies; its open transaction is rolled back. */
  function DoCrash(s: State, p: ProcId): (s': State)
    ensures s' == s.(procs := s'.procs)
  {
    if p !in s.procs || s.procs[p].hold.Ended? then s
    else if s.procs[p].job.Assign? then s.(procs := s.procs[p := s.procs[p].(hold := Ended(Errored))])
    else s.(procs := s.procs - {p})
  }

  /** rider.Repository.Create. */
  function DoRegisterRider(s: State, r: RiderId): (s': State)
    ensures s' == s.(riders := s'.riders, journal := s'.journal)
  {
    if r in s.riders then s else s.(riders := s.riders[r := Offline], journal := s.journal + [RiderCommit(r, Offline)])
  }

  /** rider.Repository.SetStatus: one unguarded UPDATE, which waits for a claim holding the row. */
  function DoSetRider(s: State, r: RiderId, status: RiderStatus): (s': State)
    ensures s' == s.(riders := s'.riders, journal := s'.journal)
  {
    if r !in s.riders || !RiderFree(s, r) then s
    else s.(riders := s.riders[r := status], journal := s.journal + [RiderCommit(r, status)])
  }

  // ----- Relays

  predicate Pending(s: State, id: RowId) {
    id in s.outbox && !s.outbox[id].sent && !Held(s, id)
  }

  /** The unsent, unlocked rows with ids below n, in id order. */
  function PendingBelow(s: State, n: nat): (ids: seq<RowId>)
    ensures forall id: RowId :: id in ids <==> id < n && Pending(s, id)
    ensures forall i, j :: 0 <= i < j < |ids| ==> ids[i] < ids[j]
  {
    if n == 0 then []
    else
      var below := PendingBelow(s, n - 1);
      assert forall i :: 0 <= i < |below| ==> below[i] in below;
      if Pending(s, n - 1) then below + [n - 1] else below
  }

  function Take<T>(xs: seq<T>, n: nat): seq<T> {
    if n < |xs| then xs[..n] else xs
  }

  /** WHERE sent_at IS NULL ORDER BY id LIMIT n FOR UPDATE SKIP LOCKED. */
  function DoSelect(s: State, r: RelayId, limit: nat): (s': State)
    ensures s' == s.(relays := s'.relays)
  {
    var rows := Take(PendingBelow(s, s.nextRow), limit);
    if r in s.relays || r in s.lost || rows == [] then s else s.(relays := s.relays[r := Batch(rows, 0)])
  }

  function GiveUp(s: State, r: RelayId): State
    requires r in s.relays
  {
    s.(relays := s.relays - {r}, failed := s.failed + multiset(s.relays[r].rows))
  }

  function MsgOf(s: State, id: RowId): Msg
    requires id in s.outbox
  {
    Msg(id, s.outbox[id].order, s.outbox[id].event)
  }

  function Repeat(m: Msg, n: nat): seq<Msg> {
    seq(n, _ => m)
  }

  function More(ids: multiset<RowId>, id: RowId, n: nat): multiset<RowId> {
    if n == 0 then ids else ids[id := ids[id] + n]
  }

  /** The copies in the log by the time the publish returns. */
  function Landed(fate: PublishFate): nat {
    match fate
    case Acked(extra, _) => 1 + extra
    case Failed(copies, _) => copies
  }

  /** The writes beyond the one that a publish needs. */
  function ExtraWrites(fate: PublishFate): nat {
    match fate
    case Acked(extra, late) => extra + late
    case Failed(copies, late) => if copies + late > 0 then copies + late - 1 else 0
  }

  /** The row's message written as the fate says, some of it perhaps to land later. */
  function Wrote(s: State, id: RowId, fate: PublishFate): State
    requires id in s.outbox
  {
    s.(log := s.log + Repeat(MsgOf(s, id), Landed(fate)),
       limbo := More(s.limbo, id, fate.late),
       retries := More(s.retries, id, ExtraWrites(fate)))
  }

  /** One PublishRaw; any error abandons the whole batch, whether or not the message arrived. */
  function DoPublish(s: State, r: RelayId, fate: PublishFate): (s': State)
    ensures s' == s.(relays := s'.relays, log := s'.log, limbo := s'.limbo, failed := s'.failed, retries := s'.retries)
  {
    if r !in s.relays || s.relays[r].published >= |s.relays[r].rows| then s
    else
      var b := s.relays[r];
      var id := b.rows[b.published];
      if id !in s.outbox then s
      else if fate.Acked? then Wrote(s, id, fate).(relays := s.relays[r := b.(published := b.published + 1)])
      else GiveUp(Wrote(s, id, fate), r)
  }

  /** A write still under way lands in the log. */
  function DoLand(s: State, id: RowId): (s': State)
    ensures s' == s.(log := s'.log, limbo := s'.limbo)
  {
    if id !in s.limbo || id !in s.outbox then s
    else s.(log := s.log + [MsgOf(s, id)], limbo := s.limbo - multiset{id})
  }

  /** UPDATE outbox SET sent_at and commit, once the whole batch is published. */
  function DoMarkSent(s: State, r: RelayId): (s': State)
    ensures s' == s.(relays := s'.relays, outbox := s'.outbox)
  {
    if r !in s.relays || s.relays[r].published != |s.relays[r].rows| then s
    else
      s.(relays := s.relays - {r},
         outbox := map id | id in s.outbox ::
           if id in s.relays[r].rows then s.outbox[id].(sent := true) else s.outbox[id])
  }

  /** The dispatch ends without marking: its rows are free again, or were already. */
  function DoCrashRelay(s: State, r: RelayId): (s': State)
    ensures s' == s.(relays := s'.relays, lost := s'.lost, failed := s'.failed)
  {
    if r in s.relays then GiveUp(s, r)
    else if r in s.lost then s.(lost := s.lost - {r}, failed := s.failed + multiset(Left(s.lost[r])))
    else s
  }

  /** The rows a dispatch has published, and those it has still to publish. */
  function Done(b: Batch): seq<RowId> {
    Take(b.rows, b.published)
  }

  function Left(b: Batch): seq<RowId> {
    if b.published <= |b.rows| then b.rows[b.published..] else []
  }

  /**
   The database ends the relay's transaction, say because its connection dropped: the locks
   are gone, and the publish loop, which does not touch the database, goes on.
   */
  function DoLoseTx(s: State, r: RelayId): (s': State)
    ensures s' == s.(relays := s'.relays, lost := s'.lost, failed := s'.failed)
  {
    if r !in s.relays then s
    else
      s.(relays := s.relays - {r}, lost := s.lost[r := s.relays[r]],
         failed := s.failed + multiset(Done(s.relays[r])))
  }

  /** One PublishRaw of such a dispatch. */
  function DoStray(s: State, r: RelayId, fate: PublishFate): (s': State)
    ensures s' == s.(lost := s'.lost, log := s'.log, limbo := s'.limbo, failed := s'.failed, retries := s'.retries)
  {
    if r !in s.lost || s.lost[r].published >= |s.lost[r].rows| then s
    else
      var b := s.lost[r];
      var id := b.rows[b.published];
      if id !in s.outbox then s
      else if fate.Acked? then
        Wrote(s, id, fate).(lost := s.lost[r := b.(published := b.published + 1)], failed := s.failed + multiset{id})
      else Wrote(s, id, fate).(lost := s.lost - {r}, failed := s.failed + multiset(Left(b)))
  }

  // ----- The assignment consumer

  /** The messages of the order.placed topic, by offset. */
  function PlacedLog(log: seq<Msg>): seq<Msg> {
    if log == [] then []
    else PlacedLog(log[..|log|-1]) + if log[|log|-1].event.OrderPlaced? then [log[|log|-1]] else []
  }

  /** FetchMessage hands the next message to the handler, one at a time. */
  function DoFetch(s: State, p: ProcId, search: Option<seq<RiderId>>): (s': State)
    ensures s' == s.(procs := s'.procs, reader := s'.reader)
  {
    var placed := PlacedLog(s.log);
    if p in s.procs || s.reader.busy.Some? || s.reader.position >= |placed| then s
    else
      s.(procs := s.procs[p := NewDelivery(placed[s.reader.position].order, search)],
         reader := s.reader.(position := s.reader.position + 1, busy := Some(p)))
  }

  predicate HandlerReturned(s: State) {
    s.reader.busy.Some? && s.reader.busy.value in s.procs && s.procs[s.reader.busy.value].hold.Ended?
  }

  predicate HandlerSucceeded(s: State) {
    HandlerReturned(s) && HandledOk(s.procs[s.reader.busy.value].hold.outcome)
  }

  /** The handler has returned: nil is followed by a commit, which may fail; an error by the next fetch. */
  function DoSettle(s: State, commitOk: bool): (s': State)
    ensures s' == s.(reader := s'.reader)
  {
    if !HandlerReturned(s) || s.reader.position == 0 then s
    else if !HandlerSucceeded(s) then
      s.(reader := s.reader.(busy := None, failed := s.reader.failed + {s.reader.position - 1}))
    else
      s.(reader := s.reader.(busy := None,
                             committed := if commitOk then s.reader.position else s.reader.committed,
                             handled := s.reader.handled + {s.reader.position - 1}))
  }

  /** A new consumer process resumes at the committed offset; the old one's delivery is over. */
  function DoRestartReader(s: State): (s': State)
    ensures s' == s.(reader := s'.reader)
  {
    if s.reader.busy.Some? && !HandlerReturned(s) then s
    else s.(reader := s.reader.(position := s.reader.committed, busy := None))
  }

  // ----- Runs

  /** One step; an action that is not possible in `s` leaves it unchanged. */
  function Step(s: State, a: Action): State {
    match a
    case BeginCreate(p, o) => DoBeginCreate(s, p, o)
    case ReadOrder(p, o, to) => DoReadOrder(s, p, o, to)
    case Deliver(p, offset, search) => DoDeliver(s, p, offset, search)
    case TryRider(p) => DoTryRider(s, p)
    case LockOrder(p) => DoLockOrder(s, p)
    case DrawRow(p) => DoDrawRow(s, p)
    case CommitTx(p) => DoCommitTx(s, p)
    case FailTx(p) => DoFailTx(s, p)
    case Crash(p) => DoCrash(s, p)
    case RegisterRider(r) => DoRegisterRider(s, r)
    case SetRider(r, status) => DoSetRider(s, r, status)
    case Select(r, limit) => DoSelect(s, r, limit)
    case Publish(r, fate) => DoPublish(s, r, fate)
    case MarkSent(r) => DoMarkSent(s, r)
    case CrashRelay(r) => DoCrashRelay(s, r)
    case LoseTx(r) => DoLoseTx(s, r)
    case Stray(r, fate) => DoStray(s, r, fate)
    case Land(id) => DoLand(s, id)
    case Fetch(p, search) => DoFetch(s, p, search)
    case Settle(commitOk) => DoSettle(s, commitOk)
    case RestartReader => DoRestartReader(s)
  }

  /** The state after a run. Every state the pipeline can reach is Exec(acts) for some acts. */
  function Exec(acts: seq<Action>): State {
    if acts == [] then INIT else Step(Exec(acts[..|acts|-1]), acts[|acts|-1])
  }

  lemma ExecSnoc(acts: seq<Action>, a: Action)
    ensures Exec(acts + [a]) == Step(Exec(acts), a)
  {
    assert (acts + [a])[..|acts|] == acts;
  }

  // ----- What each kind of step leaves alone

  predicate RelayStep(a: Action) {
    a.Select? || a.Publish? || a.MarkSent? || a.CrashRelay? || a.LoseTx? || a.Stray?
  }

  predicate RiderStep(a: Action) {
    a.RegisterRider? || a.SetRider?
  }

  predicate ReaderStep(a: Action) {
    a.Fetch? || a.Settle? || a.RestartReader?
  }

  /** The process a step belongs to, if any. */
  function Actor(a: Action): Option<ProcId> {
    if RelayStep(a) || RiderStep(a) || a.Land? || a.Settle? || a.RestartReader? then None else Some(a.p)
  }

  lemma StepFrame(s: State, a: Action)
    ensures !a.CommitTx? ==> Step(s, a).orders == s.orders && Step(s, a).audit == s.audit
    ensures !a.CommitTx? && !a.MarkSent? ==> Step(s, a).outbox == s.outbox
    ensures !a.CommitTx? && !RiderStep(a) ==> Step(s, a).riders == s.riders && Step(s, a).journal == s.journal
    ensures !a.DrawRow? ==> Step(s, a).nextRow == s.nextRow
    ensures !a.Publish? && !a.Stray? && !a.Land? ==> Step(s, a).log == s.log && Step(s, a).limbo == s.limbo
    ensures !a.Publish? && !a.Stray? ==> Step(s, a).retries == s.retries
    ensures !RelayStep(a) ==>
              Step(s, a).relays == s.relays && Step(s, a).lost == s.lost && Step(s, a).failed == s.failed
    ensures a.Stray? ==> Step(s, a).relays == s.relays
    ensures a.Select? || a.Publish? || a.MarkSent? ==> Step(s, a).lost == s.lost
    ensures !ReaderStep(a) ==> Step(s, a).reader == s.reader
    ensures Actor(a) == None ==> Step(s, a).procs == s.procs
  {
    hide DoBeginCreate, DoReadOrder, DoDeliver, DoTryRider, DoLockOrder, DoDrawRow, DoCommitTx, DoFailTx, DoCrash,
      DoRegisterRider, DoSetRider, DoSelect, DoPublish, DoMarkSent, DoCrashRelay, DoLoseTx, DoStray, DoLand,
      DoFetch, DoSettle, DoRestartReader;
  }

  lemma OthersUntouched(s: State, a: Action, p: ProcId)
    requires Actor(a) != Some(p)
    ensures p in s.procs <==> p in Step(s, a).procs
    ensures p in s.procs ==> Step(s, a).procs[p] == s.procs[p]
  {
    if Actor(a) == None {
      StepFrame(s, a);
      hide Step;
    } else {
      hide DoRegisterRider, DoSetRider, DoSelect, DoPublish, DoMarkSent, DoCrashRelay, DoLoseTx, DoStray, DoLand,
        DoSettle, DoRestartReader, RiderFree, OrderFree, AfterLock, WriteTables, NewDelivery, PlacedLog;
    }
  }
}
