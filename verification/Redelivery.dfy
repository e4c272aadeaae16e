/**
 Delivering an order.placed message twice. The design asks consumers to be idempotent; the
 assignment handler is so exactly when the first delivery left the order out of PLACED and
 the second finds nobody AVAILABLE, and after a claim it never is.
 */
module Redelivery {
  import opened Options
  import opened Lifecycle
  import opened System
  import opened Locking
  import opened Runs
  import opened Cluster
  import opened Assignment

  /**
   Delivering the same message again is harmless exactly when the first delivery left the
   order out of PLACED and no candidate of the second is AVAILABLE. A claim does not move
   the order out of PLACED, so after a claim a redelivery always does harm.
   */
  lemma RedeliveryHarmlessIff(s: State, o: OrderId, first: seq<RiderId>, second: seq<RiderId>)
    requires o in s.orders
    ensures var s1 := AfterDelivery(s, o, first);
            AfterDelivery(s1, o, second) == s1 <==>
            (s.orders[o].status != Placed || FirstAvailable(s.riders, first) == None)
            && FirstAvailable(s1.riders, second) == None
  {
    var s1 := AfterDelivery(s, o, first);
    var s2 := AfterDelivery(s1, o, second);
    assert s2 != s1 ==> |s2.journal| == |s1.journal| + 1;
  }

  /** The harm: a second rider replaces rider r, who stays BUSY, or the assigned order is cancelled. */
  ghost predicate Harmed(mid: State, end: State, o: OrderId, r: RiderId, second: seq<RiderId>) {
    && r in end.riders && end.riders[r] == Busy && o in end.orders
    && match FirstAvailable(mid.riders, second)
       case Some(x) => x != r && end.orders[o] == Order(Placed, Some(x))
       case None => end.orders[o] == Order(Cancelled, Some(r))
  }

  lemma RedeliveryAfterClaim(s: State, o: OrderId, first: seq<RiderId>, second: seq<RiderId>)
    requires o in s.orders && s.orders[o].status == Placed && FirstAvailable(s.riders, first).Some?
    ensures var s1 := AfterDelivery(s, o, first);
            Harmed(s1, AfterDelivery(s1, o, second), o, FirstAvailable(s.riders, first).value, second)
  {
    FirstIsAvailable(AfterDelivery(s, o, first).riders, second);
  }

  lemma OrderOfMessage(acts: seq<Action>, offset: nat)
    requires offset < |Exec(acts).log|
    ensures Exec(acts).log[offset].order in Exec(acts).orders
  {
    InvAlways(acts);
  }

  lemma DeliveryKeepsLog(s: State, o: OrderId, candidates: seq<RiderId>)
    ensures AfterDelivery(s, o, candidates).log == s.log
  {
  }

  /** A second delivery writes a commit, or nothing. */
  lemma DeliveryChangesJournal(s: State, o: OrderId, candidates: seq<RiderId>)
    ensures AfterDelivery(s, o, candidates) == s || AfterDelivery(s, o, candidates).journal != s.journal
  {
    var s' := AfterDelivery(s, o, candidates);
    assert s' != s ==> |s'.journal| == |s.journal| + 1;
  }

  lemma StillCalm(s: State, s': State, p: ProcId, tick: nat -> Tick, again: nat -> Tick)
    requires Calm(s, tick) && Undisturbed(again) && Faultless(again)
    requires p in s'.procs && s'.procs[p].hold.Ended? && s'.procs - {p} == s.procs
    ensures Calm(s', again)
  {
    forall q | q in s'.procs ensures s'.procs[q].hold.Nothing? || s'.procs[q].hold.Ended? {
      if q != p {
        assert q in s'.procs - {p};
      }
    }
  }

  /** Two deliveries and their processes, against the tables alone. */
  lemma TwiceOnTables(s: State, mid: State, end: State, o: OrderId, first: seq<RiderId>, second: seq<RiderId>)
    requires o in s.orders && mid == AfterDelivery(s, o, first).(procs := mid.procs)
    requires end == AfterDelivery(mid, o, second).(procs := end.procs)
    ensures end == mid.(procs := end.procs) <==>
            (s.orders[o].status != Placed || FirstAvailable(s.riders, first) == None)
            && FirstAvailable(mid.riders, second) == None
  {
    hide AfterDelivery;
    var s1 := AfterDelivery(s, o, first);
    RedeliveryHarmlessIff(s, o, first, second);
    DeliveryIgnoresProcs(s1, mid, end.procs, o, second);
    DeliveryChangesJournal(s1, o, second);
  }

  lemma HarmOnTables(s: State, mid: State, end: State, o: OrderId, first: seq<RiderId>, second: seq<RiderId>)
    requires o in s.orders && mid == AfterDelivery(s, o, first).(procs := mid.procs)
    requires end == AfterDelivery(mid, o, second).(procs := end.procs)
    requires s.orders[o].status == Placed && FirstAvailable(s.riders, first).Some?
    ensures Harmed(mid, end, o, FirstAvailable(s.riders, first).value, second)
  {
    hide AfterDelivery;
    RedeliveryAfterClaim(s, o, first, second);
    DeliveryIgnoresProcs(AfterDelivery(s, o, first), mid, end.procs, o, second);
  }

  /**
   The handler run twice on one message, calmly: the second run leaves the tables as the
   first left them exactly under the condition above, and after a claim it does the harm.
   */
  method DeliverTwice(service: Assignments, p: ProcId, q: ProcId, offset: nat,
                      first: seq<RiderId>, second: seq<RiderId>,
                      tick: nat -> Tick, again: nat -> Tick)
    returns (ghost mid: State)
    requires service.stores.Valid() && p != q && p !in service.stores.s.procs && q !in service.stores.s.procs
    requires offset < |service.stores.s.log| && service.stores.s.log[offset].event.OrderPlaced?
    requires Calm(service.stores.s, tick) && Undisturbed(again) && Faultless(again)
    modifies service.stores
    ensures service.stores.Valid()
    ensures var s, o := old(service.stores.s), old(service.stores.s.log[offset].order);
            && o in s.orders && mid == AfterDelivery(s, o, first).(procs := mid.procs)
            && (service.stores.s == mid.(procs := service.stores.s.procs) <==>
                  && (s.orders[o].status != Placed || FirstAvailable(s.riders, first) == None)
                  && FirstAvailable(mid.riders, second) == None)
            && (s.orders[o].status == Placed && FirstAvailable(s.riders, first).Some? ==>
                  Harmed(mid, service.stores.s, o, FirstAvailable(s.riders, first).value, second))
  {
    hide Exec, AfterDelivery, FirstAvailable, Calm, Undisturbed, Faultless;
    ghost var s, o := service.stores.s, service.stores.s.log[offset].order;
    assert q !in s.procs;
    OrderOfMessage(service.stores.acts, offset);
    var out, _, _ := service.Assign(p, offset, Some(first), tick);
    mid := service.stores.s;
    StillCalm(s, mid, p, tick, again);
    DeliveryKeepsLog(s, o, first);
    var out', _, _ := service.Assign(q, offset, Some(second), again);
    TwiceOnTables(s, mid, service.stores.s, o, first, second);
    if s.orders[o].status == Placed && FirstAvailable(s.riders, first).Some? {
      HarmOnTables(s, mid, service.stores.s, o, first, second);
    }
  }

  // ----- It does happen

  /** Order 7 is placed and published, riders 1 and 2 are on shift. */
  const READY := PLACED_RUN + ShiftActs(1) + ShiftActs(2)

  /** The consumer's first delivery claims rider 1. */
  const FETCHED := READY + [Fetch(1, Some([1]))]
  const CLAIMED := FETCHED + [TryRider(1)] + TailActs(1)

  /** The offset commit fails, and a new consumer process starts at the committed offset. */
  const RESTARTED := CLAIMED + [Settle(false)] + [RestartReader]

  /** The second delivery claims rider 2, or finds no rider and cancels the order. */
  const REFETCHED := RESTARTED + [Fetch(2, Some([2]))]
  const SECOND_RIDER_RUN := REFETCHED + [TryRider(2)] + TailActs(2)
  const REFETCHED_NONE := RESTARTED + [Fetch(2, Some([]))]
  const CANCEL_ASSIGNED_RUN := REFETCHED_NONE + TailActs(2)

  lemma ReadyEnds()
    ensures var s := Exec(READY);
            && s.orders == map[7 := Order(Placed, None)] && s.riders == map[1 := Available, 2 := Available]
            && s.procs == map[] && s.log == [Msg(0, 7, OrderPlaced)] && s.reader == Reader(0, 0, None, {}, {})
  {
    hide Exec;
    PlacedRunEnds();
    RiderGoesOnShift(PLACED_RUN, 1);
    RiderGoesOnShift(PLACED_RUN + ShiftActs(1), 2);
  }

  lemma OnePlaced(log: seq<Msg>)
    requires |log| == 1 && log[0].event.OrderPlaced?
    ensures PlacedLog(log) == log
  {
    assert log[..0] == [] && PlacedLog([]) == [];
  }

  /** A rider whose row no transaction holds, of an order whose row none holds. */
  lemma AllFree(s: State, o: OrderId, r: RiderId)
    requires forall p :: p in s.procs ==> s.procs[p].hold.Nothing? || s.procs[p].hold.Ended?
    ensures OrderFree(s, o) && RiderFree(s, r)
  {
  }

  lemma ClaimedEnds()
    ensures var s := Exec(CLAIMED);
            && s.orders == map[7 := Order(Placed, Some(1))] && s.riders == map[1 := Busy, 2 := Available]
            && s.procs == map[1 := Proc(Assign(7, []), Ended(Claimed(Exec(READY).nextRow)))]
            && s.log == [Msg(0, 7, OrderPlaced)] && s.reader == Reader(1, 0, Some(1), {}, {})
  {
    hide Exec;
    ReadyEnds();
    OnePlaced(Exec(READY).log);
    FetchStarts(READY, 1, Some([1]));
    AllFree(Exec(FETCHED), 7, 1);
    ClaimUninterrupted(FETCHED, 1, 7, 1);
  }

  lemma RestartedEnds()
    ensures var s := Exec(RESTARTED);
            && s.orders == map[7 := Order(Placed, Some(1))] && s.riders == map[1 := Busy, 2 := Available]
            && s.procs.Keys == {1} && s.procs[1].hold.Ended?
            && s.log == [Msg(0, 7, OrderPlaced)] && s.reader == Reader(0, 0, None, {0}, {})
  {
    hide Exec;
    ClaimedEnds();
    ExecSnoc(CLAIMED, Settle(false));
    ExecSnoc(CLAIMED + [Settle(false)], RestartReader);
  }

  /** Rider 2 is on the order that rider 1 was sent for, and both are BUSY. */
  lemma RedeliveryTakesSecondRider()
    ensures var s := Exec(SECOND_RIDER_RUN);
            s.orders == map[7 := Order(Placed, Some(2))] && s.riders == map[1 := Busy, 2 := Busy]
  {
    hide Exec;
    RestartedEnds();
    OnePlaced(Exec(RESTARTED).log);
    FetchStarts(RESTARTED, 2, Some([2]));
    AllFree(Exec(REFETCHED), 7, 2);
    ClaimUninterrupted(REFETCHED, 2, 7, 2);
  }

  /** The order is CANCELLED for want of a rider while rider 1 is on it and BUSY. */
  lemma RedeliveryCancelsAssigned()
    ensures var s := Exec(CANCEL_ASSIGNED_RUN);
            s.orders == map[7 := Order(Cancelled, Some(1))] && s.riders == map[1 := Busy, 2 := Available]
  {
    hide Exec;
    RestartedEnds();
    OnePlaced(Exec(RESTARTED).log);
    FetchStarts(RESTARTED, 2, Some([]));
    AllFree(Exec(REFETCHED_NONE), 7, 2);
    CancelUninterrupted(REFETCHED_NONE, 2, 7);
  }
}
