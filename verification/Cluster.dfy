/**
 The shared stores as an object, and what runs against them. A `Tick` stands for the gap
 before a statement: the steps others take in it, while the statement may wait for a row lock,
 and whether it then succeeds. A statement whose row is still locked after the gap has failed,
 by a timeout or a cancelled context.
 The state is at all times that of a run of the step system, so everything proved of runs
 holds of it.
 */
module Cluster {
  import opened Options
  import opened Lifecycle
  import opened System
  import opened Locking
  import opened Runs
  import opened Records

  datatype Tick = Tick(env: seq<Action>, ok: bool)

  /** Who is running: the others may take any step but theirs. A request of single statements holds nothing. */
  datatype Me = Process(p: ProcId) | RelayNo(r: RelayId) | Request

  predicate Foreign(a: Action, me: Me) {
    match me
    case Process(p) => Actor(a) != Some(p)
    case RelayNo(r) => RelayStep(a) ==> a.relay != r
    case Request => true
  }

  /** What is `me`'s own is the same in both states. */
  ghost predicate MineKept(s: State, s': State, me: Me) {
    match me
    case Process(p) => (p in s.procs <==> p in s'.procs) && (p in s.procs ==> s'.procs[p] == s.procs[p])
    case RelayNo(r) =>
      && (r in s.relays <==> r in s'.relays) && (r in s.relays ==> s'.relays[r] == s.relays[r])
      && (r in s.lost <==> r in s'.lost) && (r in s.lost ==> s'.lost[r] == s.lost[r])
    case Request => true
  }

  lemma ForeignStepKeepsMine(s: State, a: Action, me: Me)
    requires Foreign(a, me)
    ensures MineKept(s, Step(s, a), me)
  {
    match me
    case Process(p) => OthersUntouched(s, a, p); hide Step;
    case RelayNo(r) => OtherRelaysUntouched(s, a, r);
    case Request => hide Step;
  }

  lemma OtherRelaysUntouched(s: State, a: Action, r: RelayId)
    requires RelayStep(a) ==> a.relay != r
    ensures MineKept(s, Step(s, a), RelayNo(r))
  {
    hide DoSelect, DoPublish, DoMarkSent, DoCrashRelay, DoLoseTx, DoStray, MineKept;
    if !RelayStep(a) {
      OthersLeaveRelays(s, a, r);
      hide Step;
      return;
    }
    match a
    case Select(q, limit) => QuietOfOther(s, q, limit, r);
    case Publish(q, fate) => PublishOfOther(s, q, fate, r);
    case Stray(q, fate) => StrayOfOther(s, q, fate, r);
    case MarkSent(q) => QuietOfOther(s, q, 0, r);
    case CrashRelay(q) => QuietOfOther(s, q, 0, r);
    case LoseTx(q) => QuietOfOther(s, q, 0, r);
  }

  lemma OthersLeaveRelays(s: State, a: Action, r: RelayId)
    requires !RelayStep(a)
    ensures MineKept(s, Step(s, a), RelayNo(r))
  {
    StepFrame(s, a);
    hide Step;
  }

  lemma QuietOfOther(s: State, q: RelayId, limit: nat, r: RelayId)
    requires q != r
    ensures MineKept(s, DoSelect(s, q, limit), RelayNo(r)) && MineKept(s, DoMarkSent(s, q), RelayNo(r))
    ensures MineKept(s, DoCrashRelay(s, q), RelayNo(r)) && MineKept(s, DoLoseTx(s, q), RelayNo(r))
  {
    hide PendingBelow, Take, Left, Done;
  }

  lemma PublishOfOther(s: State, q: RelayId, fate: PublishFate, r: RelayId)
    requires q != r
    ensures MineKept(s, DoPublish(s, q, fate), RelayNo(r))
  {
    hide MsgOf, Repeat, Landed, More, ExtraWrites;
  }

  lemma StrayOfOther(s: State, q: RelayId, fate: PublishFate, r: RelayId)
    requires q != r
    ensures MineKept(s, DoStray(s, q, fate), RelayNo(r))
  {
    hide MsgOf, Repeat, Landed, More, ExtraWrites, Left;
  }

  /** Nobody else takes a step; statements may still fail. */
  ghost predicate Undisturbed(tick: nat -> Tick) {
    forall i: nat :: tick(i).env == []
  }

  /** No statement fails. */
  ghost predicate Faultless(tick: nat -> Tick) {
    forall i: nat :: tick(i).ok
  }

  /** The steps of `env` that others may take: all of them, but for those of `me`. */
  function Others(env: seq<Action>, me: Me): (steps: seq<Action>)
    ensures (forall k :: 0 <= k < |env| ==> Foreign(env[k], me)) ==> steps == env
  {
    if env == [] then []
    else Others(env[..|env|-1], me) + if Foreign(env[|env|-1], me) then [env[|env|-1]] else []
  }

  /** The run as the statement of tick n finds it, once the others have taken their steps. */
  ghost function Met(acts: seq<Action>, tick: nat -> Tick, n: nat, me: Me): seq<Action> {
    acts + Others(tick(n).env, me)
  }

  lemma {:induction false} OthersAreForeign(env: seq<Action>, me: Me)
    ensures forall k :: 0 <= k < |Others(env, me)| ==> Foreign(Others(env, me)[k], me)
  {
    if env != [] {
      OthersAreForeign(env[..|env|-1], me);
    }
  }

  // ----- The tail every writing transaction shares

  /** The run as the commit of process p finds it, from the run at whose end p locked the order row. */
  ghost function AtCommit(acts: seq<Action>, p: ProcId, tick: nat -> Tick, n: nat): seq<Action> {
    Met(Met(acts, tick, n, Process(p)) + [DrawRow(p)], tick, n + 1, Process(p))
  }

  /** The insert into the outbox and the commit both go through. */
  predicate FinishOk(tick: nat -> Tick, n: nat) {
    tick(n).ok && tick(n + 1).ok
  }

  /** Process p has committed nothing since position n of the run. */
  ghost predicate NoCommitBy(acts: seq<Action>, n: nat, p: ProcId) {
    forall k :: n <= k < |acts| ==> acts[k] != CommitTx(p)
  }

  /** The run ends with p's only commit since position n, which found the run as in `at` and made one write. */
  ghost predicate CommitsAt(at: seq<Action>, acts: seq<Action>, n: nat, p: ProcId, o: OrderId, e: Event) {
    && n <= |at| && NoCommitBy(at, n, p) && acts == at + [CommitTx(p)]
    && OneWrite(Exec(at), Exec(acts), o, e) && RestKept(Exec(at), Exec(acts), p)
  }

  /** What others do in a gap is no commit of p. */
  lemma GapNoCommit(acts: seq<Action>, n: nat, tick: nat -> Tick, k: nat, p: ProcId)
    requires NoCommitBy(acts, n, p) && n <= |acts|
    ensures NoCommitBy(Met(acts, tick, k, Process(p)), n, p)
  {
    OthersAreForeign(tick(k).env, Process(p));
  }

  lemma NoneCommitted(acts: seq<Action>, p: ProcId)
    ensures NoCommitBy(acts, |acts|, p)
  {
  }

  lemma OwnNoCommit(acts: seq<Action>, n: nat, a: Action, p: ProcId)
    requires NoCommitBy(acts, n, p) && a != CommitTx(p)
    ensures NoCommitBy(acts + [a], n, p)
  {
  }

  /** Two stretches without a commit of p make one. */
  lemma NoCommitTwice(acts: seq<Action>, acts1: seq<Action>, acts2: seq<Action>, p: ProcId)
    requires acts <= acts1 <= acts2 && NoCommitBy(acts1, |acts|, p) && NoCommitBy(acts2, |acts1|, p)
    ensures NoCommitBy(acts2, |acts|, p)
  {
    forall k | |acts| <= k < |acts2| ensures acts2[k] != CommitTx(p) {
      assert k < |acts1| ==> acts2[k] == acts1[k];
    }
  }

  /** What holds of the tail since the order row was locked holds of the whole transaction. */
  lemma FinishFrom(acts: seq<Action>, locked: seq<Action>, end: seq<Action>, p: ProcId, tick: nat -> Tick, n: nat)
    requires acts <= locked && NoCommitBy(locked, |acts|, p)
    ensures locked <= end && NoCommitBy(end, |locked|, p) ==> NoCommitBy(end, |acts|, p)
    ensures forall o, e :: CommitsAt(AtCommit(locked, p, tick, n), end, |locked|, p, o, e) ==>
              CommitsAt(AtCommit(locked, p, tick, n), end, |acts|, p, o, e)
  {
    hide Exec, OneWrite, RestKept;
    if locked <= end && NoCommitBy(end, |locked|, p) {
      NoCommitTwice(acts, locked, end, p);
    }
    var at := AtCommit(locked, p, tick, n);
    assert locked <= at;
    if NoCommitBy(at, |locked|, p) {
      NoCommitTwice(acts, locked, at, p);
    }
  }

  lemma CommitOn(acts: seq<Action>, drawn: seq<Action>, tick: nat -> Tick, n: nat, p: ProcId)
    requires acts <= drawn && NoCommitBy(drawn, |acts|, p)
    ensures NoCommitBy(Met(drawn, tick, n, Process(p)), |acts|, p) && drawn <= Met(drawn, tick, n, Process(p))
  {
    GapNoCommit(drawn, |acts|, tick, n, p);
  }

  lemma Quiet(acts: seq<Action>, tick: nat -> Tick, n: nat, me: Me)
    requires Undisturbed(tick)
    ensures Met(acts, tick, n, me) == acts
  {
    assert Others([], me) == [];
  }

  /** The order row shows what the event says. */
  predicate Shows(s: State, o: OrderId, e: Event) {
    o in s.orders &&
    match e
    case OrderPlaced => s.orders[o] == Order(Placed, None)
    case StatusUpdated(to) => s.orders[o].status == to
    case NoRider => s.orders[o].status == Cancelled
    case OrderAssigned(r) => s.orders[o].rider == Some(r)
  }

  function CommittedAs(e: Event, row: RowId): Outcome {
    if e.NoRider? then NoRiderCancelled(row) else Claimed(row)
  }

  /** The transaction that wrote event `e` for process p has just committed. */
  ghost predicate TxDone(s: State, p: ProcId, job: Job, e: Event) {
    && s.journal != []
    && var c := s.journal[|s.journal|-1];
       && c.RowCommit? && c.order == job.order && c.event == e && Shows(s, c.order, e)
       && c.row in s.outbox && s.outbox[c.row] == Row(c.order, e, false)
       && if job.Assign? then p in s.procs && s.procs[p] == Proc(job, Ended(CommittedAs(e, c.row))) else p !in s.procs
  }

  /** It was rolled back; Assign goes on after a failed claim and gives up after a failed cancel. */
  ghost predicate TxUndone(s: State, p: ProcId, job: Job, e: Event) {
    if job.Assign? then p in s.procs && s.procs[p] == Proc(job, if e.NoRider? then Ended(Errored) else Nothing)
    else p !in s.procs
  }

  lemma DrawStep(s: State, p: ProcId)
    requires p in s.procs && s.procs[p].hold.OrderRow? && s.procs[p].hold.draw == None
    ensures var hold := s.procs[p].hold.(draw := Some(s.nextRow));
            Step(s, DrawRow(p)) == s.(nextRow := s.nextRow + 1, procs := s.procs[p := s.procs[p].(hold := hold)])
  {
  }

  lemma CommitDone(s: State, p: ProcId)
    requires CanCommit(s, p) && JobOk(s, s.procs[p])
    ensures var q, s' := s.procs[p], DoCommitTx(s, p);
            && TxDone(s', p, q.job, q.hold.event) && s'.procs - {p} == s.procs - {p}
            && s' == WriteTables(s, q.job.order, q.hold.event, q.hold.draw.value).(procs := s'.procs)
  {
  }

  lemma CommitStep(acts: seq<Action>, p: ProcId)
    requires CanCommit(Exec(acts), p)
    ensures var s := Exec(acts);
            var q, s' := s.procs[p], Step(s, CommitTx(p));
            && TxDone(s', p, q.job, q.hold.event) && s'.procs - {p} == s.procs - {p}
            && s' == WriteTables(s, q.job.order, q.hold.event, q.hold.draw.value).(procs := s'.procs)
  {
    hide Exec, DoCommitTx, TxDone, WriteTables;
    InvAlways(acts);
    assert JobOk(Exec(acts), Exec(acts).procs[p]);
    hide Inv, JobOk;
    CommitDone(Exec(acts), p);
  }

  lemma FailStep(s: State, p: ProcId)
    requires p in s.procs && s.procs[p].hold.OrderRow?
    ensures TxUndone(Step(s, FailTx(p)), p, s.procs[p].job, s.procs[p].hold.event)
    ensures Step(s, FailTx(p)) == s.(procs := Step(s, FailTx(p)).procs)
    ensures Step(s, FailTx(p)).procs - {p} == s.procs - {p}
  {
  }

  class Stores {
    var s: State
    ghost var acts: seq<Action>

    ghost predicate Valid()
      reads this
    {
      s == Exec(acts)
    }

    constructor ()
      ensures Valid() && s == INIT && acts == []
    {
      s, acts := INIT, [];
    }

    method Do(a: Action)
      requires Valid()
      modifies this
      ensures Valid() && s == Step(old(s), a) && acts == old(acts) + [a]
    {
      ExecSnoc(acts, a);
      s, acts := Step(s, a), acts + [a];
    }

    /** The others take the given steps; what is `me`'s stays. */
    method Interfere(env: seq<Action>, me: Me)
      requires Valid()
      modifies this
      ensures Valid() && acts == old(acts) + Others(env, me) && MineKept(old(s), s, me)
      ensures env == [] ==> s == old(s)
    {
      hide Exec, Step;
      for i := 0 to |env|
        invariant Valid() && acts == old(acts) + Others(env[..i], me) && MineKept(old(s), s, me)
        invariant env == [] ==> s == old(s)
      {
        assert env[..i+1][..i] == env[..i];
        if Foreign(env[i], me) {
          ForeignStepKeepsMine(s, env[i], me);
          Do(env[i]);
        }
      }
      assert env[..|env|] == env;
    }

    /** outbox.Write, from the order row just locked; an error rolls the transaction back. */
    method Insert(p: ProcId, tick: nat -> Tick, n: nat) returns (ok: bool)
      requires Valid() && p in s.procs && s.procs[p].hold.OrderRow? && s.procs[p].hold.draw == None
      modifies this
      ensures Valid() && old(acts) <= acts && NoCommitBy(acts, |old(acts)|, p)
      ensures ok == tick(n).ok
      ensures ok ==> acts == Met(old(acts), tick, n, Process(p)) + [DrawRow(p)]
      ensures ok ==> CanCommit(s, p) && s.procs[p].job == old(s.procs[p].job)
                     && s.procs[p].hold.event == old(s.procs[p].hold.event)
      ensures !ok ==> TxUndone(s, p, old(s.procs[p].job), old(s.procs[p].hold.event))
      ensures Undisturbed(tick) && !ok ==> s == old(s).(procs := s.procs)
      ensures Undisturbed(tick) && ok ==>
                s == old(s).(procs := s.procs, nextRow := s.nextRow) && s.nextRow == old(s.nextRow) + 1
                && s.procs[p].hold.draw == Some(old(s.nextRow))
      ensures Undisturbed(tick) ==> s.procs - {p} == old(s.procs) - {p}
    {
      hide Exec, Step, TxUndone, NoCommitBy;
      NoneCommitted(acts, p);
      GapNoCommit(acts, |acts|, tick, n, p);
      ghost var from := |acts|;
      Interfere(tick(n).env, Process(p));
      ok := tick(n).ok;
      OwnNoCommit(acts, from, if ok then DrawRow(p) else FailTx(p), p);
      if ok {
        DrawStep(s, p);
        Do(DrawRow(p));
      } else {
        FailStep(s, p);
        Do(FailTx(p));
      }
    }

    /** The commit of a transaction whose rows are written. */
    method Commit(p: ProcId, tick: nat -> Tick, n: nat) returns (ok: bool)
      requires Valid() && CanCommit(s, p)
      modifies this
      ensures Valid() && old(acts) <= acts
      ensures ok == tick(n).ok
      ensures ok ==> CommitsAt(Met(old(acts), tick, n, Process(p)), acts, |old(acts)|, p,
                               old(s.procs[p].job.order), old(s.procs[p].hold.event))
      ensures ok ==> TxDone(s, p, old(s.procs[p].job), old(s.procs[p].hold.event))
      ensures !ok ==> NoCommitBy(acts, |old(acts)|, p)
      ensures !ok ==> TxUndone(s, p, old(s.procs[p].job), old(s.procs[p].hold.event))
      ensures Undisturbed(tick) && !ok ==> s == old(s).(procs := s.procs)
      ensures Undisturbed(tick) && ok ==>
                s == WriteTables(old(s), old(s.procs[p].job.order), old(s.procs[p].hold.event),
                                 old(s.procs[p].hold.draw.value)).(procs := s.procs)
      ensures Undisturbed(tick) ==> s.procs - {p} == old(s.procs) - {p}
    {
      hide Exec, Step, TxDone, TxUndone, NoCommitBy, OneWrite, RestKept, WriteTables;
      NoneCommitted(acts, p);
      GapNoCommit(acts, |acts|, tick, n, p);
      ghost var from := |acts|;
      Interfere(tick(n).env, Process(p));
      ok := tick(n).ok;
      if ok {
        CommitStep(acts, p);
        CommitIsOneWrite(acts, p);
        Do(CommitTx(p));
      } else {
        FailStep(s, p);
        OwnNoCommit(acts, from, FailTx(p), p);
        Do(FailTx(p));
      }
    }

    /**
     outbox.Write and commit. Both statements succeed or the transaction is rolled back; the
     commit makes one write to the tables as they then are.
     */
    method FinishTx(p: ProcId, tick: nat -> Tick, n: nat) returns (ok: bool)
      requires Valid() && p in s.procs && s.procs[p].hold.OrderRow? && s.procs[p].hold.draw == None
      modifies this
      ensures Valid() && old(acts) <= acts
      ensures ok <==> FinishOk(tick, n)
      ensures ok ==> CommitsAt(AtCommit(old(acts), p, tick, n), acts, |old(acts)|, p,
                               old(s.procs[p].job.order), old(s.procs[p].hold.event))
      ensures !ok ==> NoCommitBy(acts, |old(acts)|, p)
      ensures ok ==> TxDone(s, p, old(s.procs[p].job), old(s.procs[p].hold.event))
      ensures !ok ==> TxUndone(s, p, old(s.procs[p].job), old(s.procs[p].hold.event))
      ensures Undisturbed(tick) && ok ==>
                s == AfterTx(old(s), old(s.procs[p].job.order), old(s.procs[p].hold.event)).(procs := s.procs)
      ensures Undisturbed(tick) && !ok ==> s == old(s).(procs := s.procs, nextRow := s.nextRow)
      ensures Undisturbed(tick) ==> s.procs - {p} == old(s.procs) - {p}
    {
      hide Exec, Step, TxDone, TxUndone, NoCommitBy, OneWrite, RestKept, Met;
      ok := Insert(p, tick, n);
      if !ok {
        return;
      }
      ghost var drawn := acts;
      ok := Commit(p, tick, n + 1);
      if ok {
        CommitOn(old(acts), drawn, tick, n + 1, p);
      } else {
        NoCommitTwice(old(acts), drawn, acts, p);
      }
    }
  }
}
