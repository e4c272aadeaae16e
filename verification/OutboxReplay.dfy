/**
 The outbox is a faithful record: read in id order, an order's rows rebuild exactly its
 current status and rider, however the writers interleaved and whatever ids they lost.
 */
module OutboxReplay {
  import opened Options
  import opened Lifecycle
  import opened System
  import opened Locking

  /** What a consumer knows about an order after one more event; an order is known once placed. */
  function Absorb(known: Option<Order>, e: Event): Option<Order> {
    match (known, e)
    case (None, OrderPlaced) => Some(Order(Placed, None))
    case (None, _) => None
    case (Some(o), OrderPlaced) => Some(o)
    case (Some(o), StatusUpdated(to)) => Some(Order(to, o.rider))
    case (Some(o), NoRider) => Some(Order(Cancelled, o.rider))
    case (Some(o), OrderAssigned(r)) => Some(Order(o.status, Some(r)))
  }

  /** Reading the rows of order `o` with ids below n, in id order. */
  function Replay(outbox: map<RowId, Row>, o: OrderId, n: nat): Option<Order> {
    if n == 0 then None
    else if n - 1 in outbox && outbox[n-1].order == o then Absorb(Replay(outbox, o, n - 1), outbox[n-1].event)
    else Replay(outbox, o, n - 1)
  }

  function Stored(s: State, o: OrderId): Option<Order> {
    if o in s.orders then Some(s.orders[o]) else None
  }

  /** Every order's stored row is the replay of its outbox rows in id order. */
  ghost predicate Replayable(s: State) {
    forall o: OrderId :: Replay(s.outbox, o, s.nextRow) == Stored(s, o)
  }

  lemma {:induction false} ReplayIgnoresSent(outbox: map<RowId, Row>, outbox': map<RowId, Row>, o: OrderId, n: nat)
    requires outbox.Keys == outbox'.Keys
    requires forall id :: id in outbox ==>
               outbox[id].order == outbox'[id].order && outbox[id].event == outbox'[id].event
    ensures Replay(outbox, o, n) == Replay(outbox', o, n)
  {
    if n > 0 {
      ReplayIgnoresSent(outbox, outbox', o, n - 1);
    }
  }

  /** A row newer than all rows of its order is read last, even if others' newer ids committed first. */
  lemma {:induction false} ReplayNewest(outbox: map<RowId, Row>, id: RowId, row: Row, o: OrderId, n: nat)
    requires id !in outbox
    requires forall i :: i in outbox && outbox[i].order == row.order ==> i < id
    ensures Replay(outbox[id := row], o, n) ==
            if row.order == o && id < n then Absorb(Replay(outbox, o, n), row.event) else Replay(outbox, o, n)
  {
    if n > 0 {
      ReplayNewest(outbox, id, row, o, n - 1);
    }
  }

  lemma CommitKeepsReplayable(s: State, p: ProcId)
    requires Inv(s) && Replayable(s)
    ensures Replayable(DoCommitTx(s, p))
  {
    if CanCommit(s, p) {
      var q := s.procs[p];
      var id, row := q.hold.draw.value, Row(q.job.order, q.hold.event, false);
      assert JobOk(s, q) && DrawOk(s, q);
      forall o: OrderId
        ensures Replay(DoCommitTx(s, p).outbox, o, s.nextRow) == Stored(DoCommitTx(s, p), o)
      {
        ReplayNewest(s.outbox, id, row, o, s.nextRow);
        assert Replay(s.outbox, o, s.nextRow) == Stored(s, o);
      }
    }
  }

  lemma MarkSentKeepsReplayable(s: State, r: RelayId)
    requires Replayable(s)
    ensures Replayable(DoMarkSent(s, r))
  {
    forall o: OrderId ensures Replay(DoMarkSent(s, r).outbox, o, s.nextRow) == Stored(DoMarkSent(s, r), o) {
      ReplayIgnoresSent(s.outbox, DoMarkSent(s, r).outbox, o, s.nextRow);
    }
  }

  lemma StepKeepsReplayable(s: State, a: Action)
    requires Inv(s) && Replayable(s)
    ensures Replayable(Step(s, a))
  {
    StepFrame(s, a);
    if a.CommitTx? {
      CommitKeepsReplayable(s, a.p);
    } else if a.MarkSent? {
      MarkSentKeepsReplayable(s, a.relay);
    } else if a.DrawRow? {
      var s' := DoDrawRow(s, a.p);
      forall o: OrderId ensures Replay(s'.outbox, o, s'.nextRow) == Stored(s', o) {
        assert s.nextRow !in s.outbox;
        assert Replay(s.outbox, o, s.nextRow) == Stored(s, o);
      }
    } else {
      hide Step;
    }
  }

  /** In every run, replaying an order's rows in id order yields its current status and rider. */
  lemma {:induction false} ReplayYieldsCurrentOrder(acts: seq<Action>)
    ensures Replayable(Exec(acts))
  {
    if acts == [] {
      forall o: OrderId ensures Replay(INIT.outbox, o, 0) == Stored(INIT, o) {
      }
    } else {
      var before := acts[..|acts|-1];
      InvAlways(before);
      ReplayYieldsCurrentOrder(before);
      StepKeepsReplayable(Exec(before), acts[|acts|-1]);
    }
  }

  /** An order is known from its rows as soon as, and only if, its order.placed row is among them. */
  lemma {:induction false} KnownIffPlaced(outbox: map<RowId, Row>, o: OrderId, n: nat)
    ensures Replay(outbox, o, n).Some? <==>
              exists id :: id in outbox && id < n && outbox[id].order == o && outbox[id].event == OrderPlaced
  {
    if n > 0 {
      KnownIffPlaced(outbox, o, n - 1);
    }
  }

  /** The order and its order.placed row exist together or not at all, in every run. */
  lemma OrderAndEventTogether(acts: seq<Action>, o: OrderId)
    ensures var s := Exec(acts);
            o in s.orders <==>
              exists id :: id in s.outbox && s.outbox[id].order == o && s.outbox[id].event == OrderPlaced
  {
    ReplayYieldsCurrentOrder(acts);
    InvAlways(acts);
    var s := Exec(acts);
    assert Replay(s.outbox, o, s.nextRow) == Stored(s, o);
    KnownIffPlaced(s.outbox, o, s.nextRow);
  }
}
