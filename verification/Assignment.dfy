/**
 internal/assignment: Assign against stores that other deliveries, order moves and rider
 status changes keep changing. The list of candidates is whatever the geo index offered.
 */
module Assignment {
  import opened Options
  import opened Lifecycle
  import opened System
  import opened Runs
  import opened Records
  import opened Cluster
  import opened Deliveries

  // ----- The claim and cancel statements as steps of a delivery

  predicate Delivering(s: State, p: ProcId) {
    p in s.procs && s.procs[p].job.Assign? && s.procs[p].hold == Nothing
  }

  function Dropped(job: Job): Job
    requires job.Assign? && job.todo != []
  {
    job.(todo := job.todo[1..])
  }

  lemma SkipStep(s: State, p: ProcId)
    requires Delivering(s, p) && s.procs[p].job.todo != []
    ensures Step(s, FailTx(p)) == s.(procs := s.procs[p := Proc(Dropped(s.procs[p].job), Nothing)])
  {
  }

  lemma TryStep(s: State, p: ProcId)
    requires Delivering(s, p) && s.procs[p].job.todo != [] && RiderFree(s, s.procs[p].job.todo[0])
    ensures var r, job := s.procs[p].job.todo[0], Dropped(s.procs[p].job);
            var hold := if r in s.riders && s.riders[r] == Available then RiderRow(r) else Nothing;
            Step(s, TryRider(p)) == s.(procs := s.procs[p := Proc(job, hold)])
  {
  }

  lemma ReleaseStep(s: State, p: ProcId)
    requires p in s.procs && s.procs[p].job.Assign? && s.procs[p].hold.RiderRow?
    ensures Step(s, FailTx(p)) == s.(procs := s.procs[p := s.procs[p].(hold := Nothing)])
  {
  }

  lemma AttachStep(s: State, p: ProcId)
    requires p in s.procs && s.procs[p].hold.RiderRow? && OrderFree(s, s.procs[p].job.order)
    ensures Step(s, LockOrder(p))
            == s.(procs := s.procs[p := s.procs[p].(hold := OrderRow(OrderAssigned(s.procs[p].hold.rider), None))])
  {
  }

  lemma GiveUpStep(s: State, p: ProcId)
    requires Delivering(s, p) && s.procs[p].job.todo == []
    ensures Step(s, FailTx(p)) == s.(procs := s.procs[p := s.procs[p].(hold := Ended(Errored))])
  {
  }

  lemma CancelStep(s: State, p: ProcId)
    requires Delivering(s, p) && s.procs[p].job.todo == [] && OrderFree(s, s.procs[p].job.order)
    ensures var o := s.procs[p].job.order;
            Step(s, LockOrder(p)) ==
            s.(procs := s.procs[p := s.procs[p].(hold :=
              if o in s.orders && s.orders[o].status == Placed then OrderRow(NoRider, None) else Ended(AlreadyMoved))])
  {
  }

  // ----- What an undisturbed delivery does

  /** No transaction holds a row, and no statement fails. */
  ghost predicate Calm(s: State, tick: nat -> Tick) {
    && Undisturbed(tick) && Faultless(tick)
    && forall p :: p in s.procs ==> s.procs[p].hold.Nothing? || s.procs[p].hold.Ended?
  }

  lemma StaysCalm(s: State, s': State, p: ProcId, tick: nat -> Tick)
    requires Calm(s, tick) && p in s'.procs && s'.procs[p].hold.Nothing?
    requires forall q :: q in s'.procs && q != p ==> q in s.procs && s'.procs[q] == s.procs[q]
    ensures Calm(s', tick)
  {
  }

  predicate IsAvailable(riders: map<RiderId, RiderStatus>, r: RiderId) {
    r in riders && riders[r] == Available
  }

  function FirstAvailable(riders: map<RiderId, RiderStatus>, candidates: seq<RiderId>): Option<RiderId> {
    if candidates == [] then None
    else if IsAvailable(riders, candidates[0]) then Some(candidates[0])
    else FirstAvailable(riders, candidates[1..])
  }

  /** The tables after a whole delivery: the first AVAILABLE candidate is claimed, else a PLACED order is cancelled. */
  function AfterDelivery(s: State, o: OrderId, candidates: seq<RiderId>): State {
    match FirstAvailable(s.riders, candidates)
    case Some(r) => AfterTx(s, o, OrderAssigned(r))
    case None => if o in s.orders && s.orders[o].status == Placed then AfterTx(s, o, NoRider) else s
  }

  /** What a delivery writes does not depend on the other processes. */
  lemma DeliveryIgnoresProcs(s: State, s': State, procs: map<ProcId, Proc>, o: OrderId, candidates: seq<RiderId>)
    requires s' == s.(procs := s'.procs)
    ensures AfterDelivery(s', o, candidates).(procs := procs) == AfterDelivery(s, o, candidates).(procs := procs)
  {
    match FirstAvailable(s.riders, candidates)
    case Some(r) => TxIgnoresProcs(s, s', procs, o, OrderAssigned(r));
    case None => TxIgnoresProcs(s, s', procs, o, NoRider);
  }

  lemma {:induction false} FirstIsAvailable(riders: map<RiderId, RiderStatus>, candidates: seq<RiderId>)
    ensures var first := FirstAvailable(riders, candidates);
            first.Some? ==> first.value in candidates && first.value in riders && riders[first.value] == Available
  {
    if candidates != [] {
      FirstIsAvailable(riders, candidates[1..]);
    }
  }

  // ----- What a delivery does among others

  /** The run as the rider UPDATE of a claim begun at the end of `start` finds it. */
  ghost function AtRider(start: seq<Action>, p: ProcId, tick: nat -> Tick, n: nat): seq<Action> {
    Met(start, tick, n, Process(p))
  }

  /** As its order UPDATE finds it, if the rider was taken. */
  ghost function AtAttach(start: seq<Action>, p: ProcId, tick: nat -> Tick, n: nat): seq<Action> {
    Met(AtRider(start, p, tick, n) + [TryRider(p)], tick, n + 1, Process(p))
  }

  /** The rider UPDATE goes through and finds the row free and AVAILABLE. */
  ghost predicate Takes(start: seq<Action>, p: ProcId, r: RiderId, tick: nat -> Tick, n: nat) {
    var s := Exec(AtRider(start, p, tick, n));
    tick(n).ok && RiderFree(s, r) && IsAvailable(s.riders, r)
  }

  /** And the rest of the transaction goes through. */
  ghost predicate Wins(start: seq<Action>, p: ProcId, o: OrderId, r: RiderId, tick: nat -> Tick, n: nat) {
    && Takes(start, p, r, tick, n)
    && tick(n + 1).ok && OrderFree(Exec(AtAttach(start, p, tick, n)), o) && FinishOk(tick, n + 2)
  }

  /** The run then ends with the one write of the claim. */
  ghost predicate ClaimCommits(start: seq<Action>, acts: seq<Action>, p: ProcId, o: OrderId, r: RiderId,
                               tick: nat -> Tick, n: nat) {
    CommitsAt(AtCommit(AtAttach(start, p, tick, n) + [LockOrder(p)], p, tick, n + 2), acts, |start|, p, o,
              OrderAssigned(r))
  }

  /** The order UPDATE of markCancelled goes through and takes the row of a still PLACED order, or does not. */
  ghost predicate Reaches(start: seq<Action>, p: ProcId, o: OrderId, tick: nat -> Tick, n: nat) {
    tick(n).ok && OrderFree(Exec(Met(start, tick, n, Process(p))), o)
  }

  ghost predicate FindsPlaced(start: seq<Action>, p: ProcId, o: OrderId, tick: nat -> Tick, n: nat) {
    var s := Exec(Met(start, tick, n, Process(p)));
    o in s.orders && s.orders[o].status == Placed
  }

  /** How markCancelled ends, and that it writes its cancel or nothing. */
  ghost predicate CancelEnds(start: seq<Action>, acts: seq<Action>, p: ProcId, o: OrderId, tick: nat -> Tick, n: nat,
                             out: Outcome) {
    && (out == AlreadyMoved <==> Reaches(start, p, o, tick, n) && !FindsPlaced(start, p, o, tick, n))
    && (out.NoRiderCancelled? <==>
          Reaches(start, p, o, tick, n) && FindsPlaced(start, p, o, tick, n) && FinishOk(tick, n + 1))
    && !out.Claimed?
    && (if out.NoRiderCancelled? then
          CommitsAt(AtCommit(Met(start, tick, n, Process(p)) + [LockOrder(p)], p, tick, n + 1), acts, |start|, p, o,
                    NoRider)
        else NoCommitBy(acts, |start|, p))
  }

  /** Earlier and earlier starts, all of one run, from position n on. */
  ghost predicate Successive(starts: seq<seq<Action>>, first: seq<Action>, acts: seq<Action>) {
    && (forall i :: 0 <= i < |starts| ==> first <= starts[i] <= acts)
    && (starts != [] ==> starts[0] == first)
    && (forall i, j :: 0 <= i < j < |starts| ==> starts[i] <= starts[j])
  }

  /**
   The candidates are tried in turn, candidate i from the run starts[i] on, until one wins. The
   losers write nothing, the winner its claim.
   */
  ghost predicate Tried(first: seq<Action>, acts: seq<Action>, p: ProcId, o: OrderId, todo: seq<RiderId>,
                        tick: nat -> Tick, starts: seq<seq<Action>>, claimed: bool) {
    && Successive(starts, first, acts) && |starts| <= |todo|
    && var lost := if claimed then |starts| - 1 else |starts|;
       && (forall i :: 0 <= i < lost ==> !Wins(starts[i], p, o, todo[i], tick, 4 * i))
       && (if claimed then
             && starts != [] && NoCommitBy(starts[lost], |first|, p)
             && Wins(starts[lost], p, o, todo[lost], tick, 4 * lost)
             && ClaimCommits(starts[lost], acts, p, o, todo[lost], tick, 4 * lost)
           else |starts| == |todo| && NoCommitBy(acts, |first|, p))
  }

  lemma NoneTried(acts: seq<Action>, p: ProcId, o: OrderId, todo: seq<RiderId>, tick: nat -> Tick)
    ensures Tried(acts, acts, p, o, todo[..0], tick, [], false)
  {
    NoneCommitted(acts, p);
  }

  lemma TriedOne(first: seq<Action>, start: seq<Action>, acts: seq<Action>, p: ProcId, o: OrderId, todo: seq<RiderId>,
                 i: nat, tick: nat -> Tick, starts: seq<seq<Action>>, claimed: bool)
    requires i < |todo| && first <= start <= acts && (i == 0 ==> start == first)
    requires Tried(first, start, p, o, todo[..i], tick, starts, false)
    requires claimed <==> Wins(start, p, o, todo[i], tick, 4 * i)
    requires if claimed then ClaimCommits(start, acts, p, o, todo[i], tick, 4 * i) else NoCommitBy(acts, |start|, p)
    ensures Tried(first, acts, p, o, if claimed then todo else todo[..i+1], tick, starts + [start], claimed)
  {
    hide Wins, ClaimCommits, NoCommitBy;
    assert Successive(starts + [start], first, acts);
    if !claimed {
      NoCommitTwice(first, start, acts, p);
    }
  }

  /** Then, if none did, the fallback runs from `last` on. */
  ghost predicate WholeDelivery(first: seq<Action>, acts: seq<Action>, p: ProcId, o: OrderId, todo: seq<RiderId>,
                            tick: nat -> Tick, starts: seq<seq<Action>>, last: seq<Action>, out: Outcome) {
    && first <= last <= acts
    && Tried(first, last, p, o, todo, tick, starts, out.Claimed?)
    && (if out.Claimed? then acts == last else CancelEnds(last, acts, p, o, tick, 4 * |todo|, out))
  }

  /** The candidate's row and the order's were free when the UPDATEs of its claim came to them. */
  ghost predicate RowsFree(start: seq<Action>, p: ProcId, o: OrderId, r: RiderId, tick: nat -> Tick, n: nat) {
    RiderFree(Exec(AtRider(start, p, tick, n)), r) && OrderFree(Exec(AtAttach(start, p, tick, n)), o)
  }

  /** Only candidates that are not AVAILABLE were passed over, and the fallback counts as handled. */
  ghost predicate PassesOnlyUnavailable(p: ProcId, o: OrderId, todo: seq<RiderId>, tick: nat -> Tick,
                                        starts: seq<seq<Action>>, last: seq<Action>, out: Outcome) {
    && |starts| == |todo|
    && (forall i :: 0 <= i < |todo| && RowsFree(starts[i], p, o, todo[i], tick, 4 * i) ==>
          !IsAvailable(Exec(AtRider(starts[i], p, tick, 4 * i)).riders, todo[i]))
    && (OrderFree(Exec(Met(last, tick, 4 * |todo|, Process(p))), o) ==> HandledOk(out))
  }

  /** If no statement fails, a delivery passes over only candidates that are not AVAILABLE, and is handled. */
  lemma FaultlessDelivery(first: seq<Action>, acts: seq<Action>, p: ProcId, o: OrderId, todo: seq<RiderId>,
                          tick: nat -> Tick, starts: seq<seq<Action>>, last: seq<Action>, out: Outcome)
    requires WholeDelivery(first, acts, p, o, todo, tick, starts, last, out) && Faultless(tick) && !out.Claimed?
    ensures PassesOnlyUnavailable(p, o, todo, tick, starts, last, out)
  {
    forall i | 0 <= i < |todo| && RowsFree(starts[i], p, o, todo[i], tick, 4 * i)
      ensures !IsAvailable(Exec(AtRider(starts[i], p, tick, 4 * i)).riders, todo[i])
    {
      assert !Wins(starts[i], p, o, todo[i], tick, 4 * i);
    }
  }

  lemma ClaimDone(s: State, p: ProcId, job: Job, r: RiderId)
    requires job.Assign? && TxDone(s, p, job, OrderAssigned(r))
    ensures DeliveryOf(s, p, job.order) && s.procs[p].hold.Ended? && s.procs[p].hold.outcome.Claimed?
  {
  }

  lemma DeliverStep(s: State, p: ProcId, offset: nat, search: Option<seq<RiderId>>)
    requires p !in s.procs && offset < |s.log| && s.log[offset].event.OrderPlaced?
    ensures var o := s.log[offset].order;
            Step(s, Deliver(p, offset, search)) ==
            s.(procs := s.procs[p := if search.Some? then Proc(Assign(o, search.value), Nothing)
                                     else Proc(Assign(o, []), Ended(Errored))])
  {
  }

  lemma EndedWellResolved(acts: seq<Action>, p: ProcId)
    requires EndedWell(Exec(acts), p)
    ensures Resolved(Exec(acts), Exec(acts).procs[p].job.order)
  {
    HandledAlwaysResolved(acts);
  }

  class Assignments {
    const stores: Stores

    constructor (stores: Stores)
      ensures this.stores == stores
    {
      this.stores := stores;
    }

    /** The guarded rider UPDATE of claimRider: the candidate's row is locked only if AVAILABLE. */
    method TakeRider(p: ProcId, tick: nat -> Tick, n: nat) returns (taken: bool)
      requires stores.Valid() && Delivering(stores.s, p) && stores.s.procs[p].job.todo != []
      modifies stores
      ensures stores.Valid() && old(stores.acts) <= stores.acts
      ensures var job := old(stores.s.procs[p].job);
              p in stores.s.procs
              && stores.s.procs[p] == Proc(Dropped(job), if taken then RiderRow(job.todo[0]) else Nothing)
      ensures taken <==> Takes(old(stores.acts), p, old(stores.s.procs[p].job.todo[0]), tick, n)
      ensures NoCommitBy(stores.acts, |old(stores.acts)|, p)
      ensures taken ==> stores.acts == AtRider(old(stores.acts), p, tick, n) + [TryRider(p)]
      ensures Calm(old(stores.s), tick) ==>
                && (taken <==> IsAvailable(old(stores.s.riders), old(stores.s.procs[p].job.todo[0])))
                && stores.s == old(stores.s).(procs := old(stores.s.procs)[p := stores.s.procs[p]])
    {
      hide Exec, Step, NoCommitBy;
      NoneCommitted(stores.acts, p);
      GapNoCommit(stores.acts, |stores.acts|, tick, n, p);
      ghost var from := |stores.acts|;
      stores.Interfere(tick(n).env, Process(p));
      if !tick(n).ok || !RiderFree(stores.s, stores.s.procs[p].job.todo[0]) {
        SkipStep(stores.s, p);
        OwnNoCommit(stores.acts, from, FailTx(p), p);
        stores.Do(FailTx(p));
        return false;
      }
      TryStep(stores.s, p);
      OwnNoCommit(stores.acts, from, TryRider(p), p);
      stores.Do(TryRider(p));
      taken := stores.s.procs[p].hold.RiderRow?;
    }

    /** The order UPDATE of claimRider, on a rider row just taken. */
    method AttachRider(p: ProcId, tick: nat -> Tick, n: nat) returns (ok: bool)
      requires stores.Valid() && p in stores.s.procs
      requires stores.s.procs[p].job.Assign? && stores.s.procs[p].hold.RiderRow?
      modifies stores
      ensures stores.Valid() && old(stores.acts) <= stores.acts && NoCommitBy(stores.acts, |old(stores.acts)|, p)
      ensures ok <==> Reaches(old(stores.acts), p, old(stores.s.procs[p].job.order), tick, n)
      ensures ok ==> stores.acts == Met(old(stores.acts), tick, n, Process(p)) + [LockOrder(p)]
      ensures var q := old(stores.s.procs[p]);
              p in stores.s.procs
              && stores.s.procs[p] == q.(hold := if ok then OrderRow(OrderAssigned(q.hold.rider), None) else Nothing)
      ensures Undisturbed(tick) ==> stores.s == old(stores.s).(procs := old(stores.s.procs)[p := stores.s.procs[p]])
      ensures Undisturbed(tick) ==>
                (ok <==> tick(n).ok && OrderFree(old(stores.s), old(stores.s.procs[p].job.order)))
    {
      hide Exec, Step, NoCommitBy;
      NoneCommitted(stores.acts, p);
      GapNoCommit(stores.acts, |stores.acts|, tick, n, p);
      ghost var from := |stores.acts|;
      stores.Interfere(tick(n).env, Process(p));
      ok := tick(n).ok && OrderFree(stores.s, stores.s.procs[p].job.order);
      OwnNoCommit(stores.acts, from, if ok then LockOrder(p) else FailTx(p), p);
      if ok {
        AttachStep(stores.s, p);
        stores.Do(LockOrder(p));
      } else {
        ReleaseStep(stores.s, p);
        stores.Do(FailTx(p));
      }
    }

    /** claimRider for the next candidate; an error and a lost race both mean "try the next". */
    method ClaimRider(p: ProcId, tick: nat -> Tick, n: nat) returns (claimed: bool)
      requires stores.Valid() && Delivering(stores.s, p) && stores.s.procs[p].job.todo != []
      modifies stores
      ensures stores.Valid() && old(stores.acts) <= stores.acts
      ensures var job := old(stores.s.procs[p].job);
              && (claimed <==> Wins(old(stores.acts), p, job.order, job.todo[0], tick, n))
              && (if claimed then ClaimCommits(old(stores.acts), stores.acts, p, job.order, job.todo[0], tick, n)
                  else NoCommitBy(stores.acts, |old(stores.acts)|, p))
      ensures var job := old(stores.s.procs[p].job);
              if claimed then TxDone(stores.s, p, Dropped(job), OrderAssigned(job.todo[0]))
              else p in stores.s.procs && stores.s.procs[p] == Proc(Dropped(job), Nothing)
      ensures Calm(old(stores.s), tick) ==>
                var job := old(stores.s.procs[p].job);
                var r := job.todo[0];
                && (claimed <==> r in old(stores.s.riders) && old(stores.s.riders)[r] == Available)
                && (if claimed then
                      stores.s == AfterTx(old(stores.s), job.order, OrderAssigned(r)).(procs := stores.s.procs)
                    else stores.s == old(stores.s).(procs := old(stores.s.procs)[p := Proc(Dropped(job), Nothing)]))
                && stores.s.procs - {p} == old(stores.s.procs) - {p}
    {
      hide Exec, Step, TxDone, NoCommitBy, OneWrite, RestKept, Met;
      ghost var start := stores.acts;
      var taken := TakeRider(p, tick, n);
      if !taken {
        return false;
      }
      ghost var took := stores.acts;
      var ok := AttachRider(p, tick, n + 1);
      NoCommitTwice(start, took, stores.acts, p);
      if !ok {
        return false;
      }
      ghost var attached := stores.acts;
      claimed := stores.FinishTx(p, tick, n + 2);
      FinishFrom(start, attached, stores.acts, p, tick, n + 2);
    }

    /** The order UPDATE of markCancelled, which takes the row of a still PLACED order only. */
    method LockPlaced(p: ProcId, tick: nat -> Tick, n: nat)
      requires stores.Valid() && Delivering(stores.s, p) && stores.s.procs[p].job.todo == []
      modifies stores
      ensures stores.Valid() && old(stores.acts) <= stores.acts && NoCommitBy(stores.acts, |old(stores.acts)|, p)
      ensures var job := old(stores.s.procs[p].job);
              && p in stores.s.procs
              && stores.s.procs[p] == Proc(job, if !Reaches(old(stores.acts), p, job.order, tick, n) then Ended(Errored)
                                                else if FindsPlaced(old(stores.acts), p, job.order, tick, n)
                                                then OrderRow(NoRider, None) else Ended(AlreadyMoved))
      ensures Reaches(old(stores.acts), p, old(stores.s.procs[p].job.order), tick, n) ==>
                stores.acts == Met(old(stores.acts), tick, n, Process(p)) + [LockOrder(p)]
      ensures Undisturbed(tick) ==> stores.s == old(stores.s).(procs := old(stores.s.procs)[p := stores.s.procs[p]])
    {
      hide Exec, Step, NoCommitBy;
      NoneCommitted(stores.acts, p);
      GapNoCommit(stores.acts, |stores.acts|, tick, n, p);
      ghost var from := |stores.acts|;
      stores.Interfere(tick(n).env, Process(p));
      if !tick(n).ok || !OrderFree(stores.s, stores.s.procs[p].job.order) {
        GiveUpStep(stores.s, p);
        OwnNoCommit(stores.acts, from, FailTx(p), p);
        stores.Do(FailTx(p));
      } else {
        CancelStep(stores.s, p);
        OwnNoCommit(stores.acts, from, LockOrder(p), p);
        stores.Do(LockOrder(p));
      }
    }

    /** markCancelled: only a still-PLACED order is cancelled. */
    method MarkCancelled(p: ProcId, tick: nat -> Tick, n: nat) returns (out: Outcome)
      requires stores.Valid() && Delivering(stores.s, p) && stores.s.procs[p].job.todo == []
      modifies stores
      ensures stores.Valid() && old(stores.acts) <= stores.acts
      ensures p in stores.s.procs && stores.s.procs[p] == Proc(old(stores.s.procs[p].job), Ended(out)) && !out.Claimed?
      ensures CancelEnds(old(stores.acts), stores.acts, p, old(stores.s.procs[p].job.order), tick, n, out)
      ensures out.NoRiderCancelled? ==> TxDone(stores.s, p, old(stores.s.procs[p].job), NoRider)
      ensures Calm(old(stores.s), tick) ==>
                var o := old(stores.s.procs[p].job.order);
                if o in old(stores.s.orders) && old(stores.s.orders)[o].status == Placed then
                  out.NoRiderCancelled? && stores.s == AfterTx(old(stores.s), o, NoRider).(procs := stores.s.procs)
                else out == AlreadyMoved && stores.s == old(stores.s).(procs := stores.s.procs)
      ensures Calm(old(stores.s), tick) ==> stores.s.procs - {p} == old(stores.s.procs) - {p}
    {
      hide Exec, Step, NoCommitBy, OneWrite, RestKept, Met, AfterTx;
      ghost var s0, start, o, quiet := stores.s, stores.acts, stores.s.procs[p].job.order, Undisturbed(tick);
      if quiet {
        Quiet(start, tick, n, Process(p));
      }
      LockPlaced(p, tick, n);
      if stores.s.procs[p].hold.Ended? {
        return stores.s.procs[p].hold.outcome;
      }
      ghost var s1 := stores.s;
      ghost var locked := stores.acts;
      var ok := stores.FinishTx(p, tick, n + 1);
      FinishFrom(start, locked, stores.acts, p, tick, n + 1);
      if quiet {
        TxIgnoresProcs(s0, s1, stores.s.procs, o, NoRider);
      }
      out := stores.s.procs[p].hold.outcome;
    }

    /** The candidate loop of Assign: stops at the first claim won. */
    method TryCandidates(p: ProcId, tick: nat -> Tick) returns (claimed: bool, ghost starts: seq<seq<Action>>)
      requires stores.Valid() && Delivering(stores.s, p)
      modifies stores
      ensures stores.Valid() && old(stores.acts) <= stores.acts
      ensures Tried(old(stores.acts), stores.acts, p, old(stores.s.procs[p].job.order), old(stores.s.procs[p].job.todo),
                    tick, starts, claimed)
      ensures var o := old(stores.s.procs[p].job.order);
              if claimed then
                DeliveryOf(stores.s, p, o) && stores.s.procs[p].hold.Ended? && stores.s.procs[p].hold.outcome.Claimed?
              else p in stores.s.procs && stores.s.procs[p] == Proc(System.Assign(o, []), Nothing)
      ensures Calm(old(stores.s), tick) ==>
                var first := FirstAvailable(old(stores.s.riders), old(stores.s.procs[p].job.todo));
                && (claimed <==> first.Some?)
                && (if claimed then
                      stores.s == AfterTx(old(stores.s), old(stores.s.procs[p].job.order),
                                          OrderAssigned(first.value)).(procs := stores.s.procs)
                    else stores.s == old(stores.s).(procs := old(stores.s.procs)[p := stores.s.procs[p]]))
                && stores.s.procs - {p} == old(stores.s.procs) - {p}
    {
      hide Exec, Step, TxDone, NoCommitBy, Wins, ClaimCommits, Tried;
      ghost var before, calm, o := stores.s, Calm(stores.s, tick), stores.s.procs[p].job.order;
      ghost var first := stores.acts;
      var candidates := stores.s.procs[p].job.todo;
      starts := [];
      NoneTried(first, p, o, candidates, tick);
      for i := 0 to |candidates|
        invariant stores.Valid() && first <= stores.acts && |starts| == i && (i == 0 ==> stores.acts == first)
        invariant Tried(first, stores.acts, p, o, candidates[..i], tick, starts, false)
        invariant p in stores.s.procs && stores.s.procs[p] == Proc(System.Assign(o, candidates[i..]), Nothing)
        invariant calm ==> stores.s == before.(procs := before.procs[p := stores.s.procs[p]])
        invariant calm ==> FirstAvailable(before.riders, candidates) == FirstAvailable(before.riders, candidates[i..])
      {
        assert calm ==> Calm(stores.s, tick);
        ghost var job, start := stores.s.procs[p].job, stores.acts;
        claimed := ClaimRider(p, tick, 4 * i);
        TriedOne(first, start, stores.acts, p, o, candidates, i, tick, starts, claimed);
        starts := starts + [start];
        if claimed {
          ClaimDone(stores.s, p, Dropped(job), job.todo[0]);
          return;
        }
      }
      assert candidates[..|candidates|] == candidates;
      claimed := false;
    }

    /** Assign from the search answer on: the candidates in turn, then the fallback cancel. */
    method FindRider(p: ProcId, tick: nat -> Tick)
      returns (out: Outcome, ghost starts: seq<seq<Action>>, ghost last: seq<Action>)
      requires stores.Valid() && Delivering(stores.s, p)
      modifies stores
      ensures stores.Valid() && old(stores.acts) <= stores.acts
      ensures WholeDelivery(old(stores.acts), stores.acts, p, old(stores.s.procs[p].job.order),
                        old(stores.s.procs[p].job.todo), tick, starts, last, out)
      ensures DeliveryOf(stores.s, p, old(stores.s.procs[p].job.order)) && stores.s.procs[p].hold == Ended(out)
      ensures Calm(old(stores.s), tick) ==>
                var job := old(stores.s.procs[p].job);
                && stores.s == AfterDelivery(old(stores.s), job.order, job.todo).(procs := stores.s.procs)
                && (out.Claimed? <==> FirstAvailable(old(stores.s.riders), job.todo).Some?)
                && stores.s.procs - {p} == old(stores.s.procs) - {p}
    {
      hide Exec, Step, AfterTx, TxDone, Others, Calm, FirstAvailable, Tried, CancelEnds;
      ghost var calm, started, job := Calm(stores.s, tick), stores.s, stores.s.procs[p].job;
      var count := |stores.s.procs[p].job.todo|;
      var claimed;
      claimed, starts := TryCandidates(p, tick);
      last := stores.acts;
      if claimed {
        out := stores.s.procs[p].hold.outcome;
        return;
      }
      ghost var tried := stores.s;
      if calm {
        StaysCalm(started, tried, p, tick);
      }
      out := MarkCancelled(p, tick, 4 * count);
      if calm {
        TxIgnoresProcs(started, tried, stores.s.procs, job.order, NoRider);
      }
    }

    /**
     Assign, as the handler runs it on an order.placed message. Whatever happens meanwhile,
     a nil or no-rider outcome leaves the order with a rider or moved on; and when nothing
     else happens the first AVAILABLE candidate gets it.
     */
    method Assign(p: ProcId, offset: nat, search: Option<seq<RiderId>>, tick: nat -> Tick)
      returns (out: Outcome, ghost starts: seq<seq<Action>>, ghost last: seq<Action>)
      requires stores.Valid() && p !in stores.s.procs
      requires offset < |stores.s.log| && stores.s.log[offset].event.OrderPlaced?
      modifies stores
      ensures stores.Valid() && old(stores.acts) <= stores.acts
      ensures DeliveryOf(stores.s, p, old(stores.s.log[offset].order)) && stores.s.procs[p].hold == Ended(out)
      ensures search.Some? ==>
                WholeDelivery(old(stores.acts) + [Deliver(p, offset, search)], stores.acts, p,
                          old(stores.s.log[offset].order), search.value, tick, starts, last, out)
      ensures search.Some? && Faultless(tick) && !out.Claimed? ==>
                PassesOnlyUnavailable(p, old(stores.s.log[offset].order), search.value, tick, starts, last, out)
      ensures HandledOk(out) ==> Resolved(stores.s, old(stores.s.log[offset].order))
      ensures search == None ==> out == Errored && stores.s == old(stores.s).(procs := stores.s.procs)
      ensures Calm(old(stores.s), tick) && search.Some? ==>
                && stores.s == AfterDelivery(old(stores.s), old(stores.s.log[offset].order),
                                             search.value).(procs := stores.s.procs)
                && (out.Claimed? <==> FirstAvailable(old(stores.s.riders), search.value).Some?)
                && stores.s.procs - {p} == old(stores.s.procs)
    {
      hide Exec, Step, AfterDelivery, FirstAvailable, Resolved, Calm, WholeDelivery,
        PassesOnlyUnavailable;
      ghost var before, o := stores.s, stores.s.log[offset].order;
      DeliverStep(stores.s, p, offset, search);
      stores.Do(Deliver(p, offset, search));
      ghost var begun := stores.acts;
      starts, last := [], stores.acts;
      if search == None {
        return Errored, starts, last;
      }
      ghost var calm, started := Calm(before, tick), stores.s;
      if calm {
        StaysCalm(before, started, p, tick);
      }
      out, starts, last := FindRider(p, tick);
      if calm {
        DeliveryIgnoresProcs(before, started, stores.s.procs, o, search.value);
      }
      if HandledOk(out) {
        EndedWellResolved(stores.acts, p);
      }
      if Faultless(tick) && !out.Claimed? {
        FaultlessDelivery(begun, stores.acts, p, o, search.value, tick, starts, last, out);
      }
    }
  }
}
