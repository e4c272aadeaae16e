/**
 The consumer loop on the order.placed topic, inside the step system. Every message below the
 committed offset was handled, and its order resolved, unless a later message was committed
 over it after its handler had failed; and an order passed over so is left PLACED for good.
 */
module PlacedConsumer {
  import opened Options
  import opened Lifecycle
  import opened System
  import opened Locking
  import opened Relays
  import opened Deliveries
  import opened Runs

  // ----- The topic only grows

  lemma {:induction false} PlacedLogAppend(log: seq<Msg>, more: seq<Msg>)
    ensures PlacedLog(log + more) == PlacedLog(log) + PlacedLog(more)
    decreases |more|
  {
    if more == [] {
      assert log + more == log;
    } else {
      var n := |more| - 1;
      assert (log + more)[..|log + more|-1] == log + more[..n] && (log + more)[|log + more|-1] == more[n];
      PlacedLogAppend(log, more[..n]);
    }
  }

  lemma StepTopicGrows(s: State, a: Action)
    ensures PlacedLog(s.log) <= PlacedLog(Step(s, a).log)
  {
    StepLogGrows(s, a);
    var more := Step(s, a).log[|s.log|..];
    assert Step(s, a).log == s.log + more;
    PlacedLogAppend(s.log, more);
  }

  /** A delivery is never forgotten, and stays a delivery of the same order. */
  lemma DeliveryStays(s: State, a: Action, p: ProcId, o: OrderId)
    requires DeliveryOf(s, p, o)
    ensures DeliveryOf(Step(s, a), p, o)
  {
    if Actor(a) != Some(p) {
      OthersUntouched(s, a, p);
      hide Step;
    }
  }

  // ----- The reader's place

  ghost predicate BusyOk(s: State) {
    s.reader.busy.Some? ==>
      && s.reader.committed < s.reader.position <= |PlacedLog(s.log)|
      && DeliveryOf(s, s.reader.busy.value, PlacedLog(s.log)[s.reader.position-1].order)
  }

  ghost predicate HandledOffset(s: State, k: nat) {
    k < |PlacedLog(s.log)| && Resolved(s, PlacedLog(s.log)[k].order)
  }

  ghost predicate ReaderOk(s: State) {
    && s.reader.committed <= s.reader.position <= |PlacedLog(s.log)|
    && BusyOk(s)
    && forall k :: k in s.reader.handled ==> HandledOffset(s, k)
  }

  /** A step that leaves the reader alone keeps its place: the topic, the deliveries and what is resolved stay. */
  lemma OtherStepKeepsReader(s: State, a: Action)
    requires Inv(s) && ReaderOk(s) && !ReaderStep(a)
    ensures ReaderOk(Step(s, a))
  {
    hide Inv, Step, PlacedLog, Resolved;
    StepFrame(s, a);
    StepTopicGrows(s, a);
    if s.reader.busy.Some? {
      DeliveryStays(s, a, s.reader.busy.value, PlacedLog(s.log)[s.reader.position-1].order);
    }
    forall k | k in s.reader.handled ensures HandledOffset(Step(s, a), k) {
      assert HandledOffset(s, k);
      StepKeepsResolved(s, a, PlacedLog(s.log)[k].order);
    }
  }

  lemma SameTablesSameHandled(s: State, s': State)
    requires s'.orders == s.orders && s'.log == s.log
    ensures forall k: nat :: HandledOffset(s', k) <==> HandledOffset(s, k)
  {
  }

  lemma FetchKeepsReader(s: State, p: ProcId, search: Option<seq<RiderId>>)
    requires ReaderOk(s)
    ensures ReaderOk(DoFetch(s, p, search))
  {
    SameTablesSameHandled(s, DoFetch(s, p, search));
    hide PlacedLog, HandledOffset;
  }

  lemma SettleKeepsReader(s: State, commitOk: bool)
    requires ReaderOk(s) && HandledResolved(s)
    ensures ReaderOk(DoSettle(s, commitOk))
  {
    var s' := DoSettle(s, commitOk);
    SameTablesSameHandled(s, s');
    hide PlacedLog, Resolved;
    if s.reader.position > 0 && HandlerSucceeded(s) {
      assert EndedWell(s, s.reader.busy.value);
      assert HandledOffset(s, s.reader.position - 1);
    }
    hide HandledOffset, HandledResolved;
  }

  lemma RestartKeepsReader(s: State)
    requires ReaderOk(s)
    ensures ReaderOk(DoRestartReader(s))
  {
    SameTablesSameHandled(s, DoRestartReader(s));
    hide PlacedLog, HandledOffset;
  }

  lemma StepKeepsReader(s: State, a: Action)
    requires Inv(s) && ReaderOk(s) && HandledResolved(s)
    ensures ReaderOk(Step(s, a))
  {
    hide Inv, ReaderOk, HandledResolved, DoFetch, DoSettle, DoRestartReader;
    match a
    case Fetch(p, search) => FetchKeepsReader(s, p, search);
    case Settle(commitOk) => SettleKeepsReader(s, commitOk);
    case RestartReader => RestartKeepsReader(s);
    case _ => OtherStepKeepsReader(s, a);
  }

  lemma {:induction false} ReaderAlways(acts: seq<Action>)
    ensures ReaderOk(Exec(acts))
  {
    if acts != [] {
      var s, a := Exec(acts[..|acts|-1]), acts[|acts|-1];
      ReaderAlways(acts[..|acts|-1]);
      InvAlways(acts[..|acts|-1]);
      HandledAlwaysResolved(acts[..|acts|-1]);
      hide Inv, ReaderOk, HandledResolved, Step;
      StepKeepsReader(s, a);
    }
  }

  // ----- What is handed out between restarts

  /** The topic of the consumer holds exactly the messages published to it, in log order. */
  lemma {:induction false} TopicIsPlacedMessages(log: seq<Msg>, i: nat)
    requires i < |log| && TopicOf(log[i].event) == TopicOrderPlaced
    ensures |PlacedLog(log[..i])| < |PlacedLog(log)| && PlacedLog(log)[|PlacedLog(log[..i])|] == log[i]
    ensures forall k :: 0 <= k < |PlacedLog(log)| ==>
              PlacedLog(log)[k] in log && TopicOf(PlacedLog(log)[k].event) == TopicOrderPlaced
  {
    assert log == log[..i] + [log[i]] + log[i+1..];
    PlacedLogAppend(log[..i], [log[i]]);
    PlacedLogAppend(log[..i] + [log[i]], log[i+1..]);
    assert [log[i]][..0] == [];
    forall k | 0 <= k < |PlacedLog(log)| ensures PlacedLog(log)[k] in log && PlacedLog(log)[k].event.OrderPlaced? {
      PlacedLogSound(log, k);
    }
  }

  /** Step k of the run fetches a message: a new delivery starts. */
  predicate FetchesAt(acts: seq<Action>, k: nat)
    requires k < |acts|
  {
    acts[k].Fetch? && acts[k].p !in Exec(acts[..k]).procs && acts[k].p in Step(Exec(acts[..k]), acts[k]).procs
  }

  /** How many messages are fetched by steps n to k of the run. */
  function FetchCount(acts: seq<Action>, n: nat, k: nat): nat
    requires k <= |acts|
    decreases k
  {
    if k <= n then 0 else FetchCount(acts, n, k - 1) + if FetchesAt(acts, k - 1) then 1 else 0
  }

  lemma ExecAt(acts: seq<Action>, k: nat)
    requires k < |acts|
    ensures Exec(acts[..k+1]) == Step(Exec(acts[..k]), acts[k])
  {
    assert acts[..k+1] == acts[..k] + [acts[k]];
    ExecSnoc(acts[..k], acts[k]);
  }

  /** A step moves the reader's place by a fetch, or by a restart, and not otherwise. */
  lemma StepMovesPlace(s: State, a: Action)
    ensures a.Fetch? && a.p !in s.procs && a.p in Step(s, a).procs ==>
              Step(s, a).reader.position == s.reader.position + 1
    ensures !(a.Fetch? && a.p !in s.procs && a.p in Step(s, a).procs) && a != RestartReader ==>
              Step(s, a).reader.position == s.reader.position
    ensures a == RestartReader && Step(s, a) != s ==> Step(s, a).reader.position == s.reader.committed
  {
    if ReaderStep(a) {
      hide PlacedLog, NewDelivery;
    } else {
      StepFrame(s, a);
      hide Step;
    }
  }

  lemma {:induction false} PlaceAdvances(acts: seq<Action>, n: nat, k: nat)
    requires n <= k <= |acts| && forall j :: n <= j < k ==> acts[j] != RestartReader
    ensures Exec(acts[..k]).reader.position == Exec(acts[..n]).reader.position + FetchCount(acts, n, k)
    decreases k
  {
    if k > n {
      hide Exec, Step;
      PlaceAdvances(acts, n, k - 1);
      ExecAt(acts, k - 1);
      StepMovesPlace(Exec(acts[..k-1]), acts[k-1]);
    }
  }

  lemma FetchHandsOver(s: State, p: ProcId, search: Option<seq<RiderId>>)
    requires p !in s.procs && p in Step(s, Fetch(p, search)).procs
    ensures s.reader.position < |PlacedLog(s.log)|
    ensures var o := PlacedLog(s.log)[s.reader.position].order;
            Step(s, Fetch(p, search)).procs[p] ==
            if search.Some? then Proc(Assign(o, search.value), Nothing) else Proc(Assign(o, []), Ended(Errored))
  {
    hide PlacedLog;
  }

  /**
   Between restarts the consumer hands out the messages of consecutive offsets, each once and
   whether or not their handlers or commits succeed; after a restart it goes on at the committed offset.
   */
  lemma FetchesAreConsecutive(acts: seq<Action>, n: nat, k: nat)
    requires n <= k < |acts| && FetchesAt(acts, k) && forall j :: n <= j < k ==> acts[j] != RestartReader
    requires n > 0 ==> acts[n-1] == RestartReader && Exec(acts[..n]) != Exec(acts[..n-1])
    ensures var s, s' := Exec(acts[..k]), Exec(acts[..k+1]);
            var offset := (if n > 0 then Exec(acts[..n]).reader.committed else 0) + FetchCount(acts, n, k);
            && offset < |PlacedLog(s.log)|
            && var o := PlacedLog(s.log)[offset].order;
               acts[k].p in s'.procs && s'.procs[acts[k].p] ==
               match acts[k].search
               case Some(riders) => Proc(Assign(o, riders), Nothing)
               case None => Proc(Assign(o, []), Ended(Errored))
  {
    hide Exec, Step, PlacedLog, FetchCount;
    PlaceAdvances(acts, n, k);
    StartOfRun(acts, n);
    ExecAt(acts, k);
    FetchHandsOver(Exec(acts[..k]), acts[k].p, acts[k].search);
  }

  lemma StartOfRun(acts: seq<Action>, n: nat)
    requires n <= |acts| && (n > 0 ==> acts[n-1] == RestartReader && Exec(acts[..n]) != Exec(acts[..n-1]))
    ensures Exec(acts[..n]).reader.position == if n > 0 then Exec(acts[..n]).reader.committed else 0
  {
    if n > 0 {
      hide Exec;
      ExecAt(acts, n - 1);
    }
  }

  lemma SettleGoesOn(s: State, commitOk: bool)
    requires BusyOk(s) && HandlerReturned(s)
    ensures var s', k := Step(s, Settle(commitOk)), s.reader.position - 1;
            && s'.reader.busy == None && s'.reader.position == s.reader.position
            && (if s.procs[s.reader.busy.value].hold.outcome == Errored then
                  s'.reader.failed == s.reader.failed + {k} && s'.reader.handled == s.reader.handled
                else s'.reader.handled == s.reader.handled + {k} && s'.reader.failed == s.reader.failed)
  {
    hide PlacedLog;
  }

  lemma FetchGoesOn(s: State, p: ProcId, search: Option<seq<RiderId>>)
    requires p !in s.procs && s.reader.busy == None && s.reader.position < |PlacedLog(s.log)|
    ensures var s' := Step(s, Fetch(p, search));
            p in s'.procs && s'.reader == s.reader.(position := s.reader.position + 1, busy := Some(p))
  {
    hide PlacedLog, NewDelivery;
  }

  lemma RestartResumes(s: State)
    requires s.reader.busy == None || HandlerReturned(s)
    ensures Step(s, RestartReader).reader == s.reader.(position := s.reader.committed, busy := None)
  {
  }

  /**
   In every reachable state the consumer can go on: it settles a handler that has returned, fetches
   if a message is left, and a restart with no handler running resumes at the committed offset.
   */
  lemma ReaderNeverStuck(acts: seq<Action>, p: ProcId, search: Option<seq<RiderId>>, commitOk: bool)
    requires p !in Exec(acts).procs
    ensures var s := Exec(acts);
            && (HandlerReturned(s) ==> Step(s, Settle(commitOk)).reader.busy == None)
            && (s.reader.busy == None ==>
                  || s.reader.position == |PlacedLog(s.log)|
                  || Step(s, Fetch(p, search)).reader.position == s.reader.position + 1)
            && (s.reader.busy == None || HandlerReturned(s) ==>
                  Step(s, RestartReader).reader == s.reader.(position := s.reader.committed, busy := None))
  {
    ReaderAlways(acts);
    hide Exec, Step, PlacedLog, HandledOffset, HandlerReturned, BusyOk;
    var s := Exec(acts);
    if HandlerReturned(s) {
      SettleGoesOn(s, commitOk);
    }
    if s.reader.busy == None && s.reader.position < |PlacedLog(s.log)| {
      FetchGoesOn(s, p, search);
    }
    if s.reader.busy == None || HandlerReturned(s) {
      RestartResumes(s);
    }
  }

  /** The place after the last message that was handled and whose commit went through. */
  function CommittedPlace(acts: seq<Action>): nat {
    if acts == [] then 0
    else
      var s := Exec(acts[..|acts|-1]);
      if acts[|acts|-1] == Settle(true) && HandlerSucceeded(s) then s.reader.position
      else CommittedPlace(acts[..|acts|-1])
  }

  lemma StepCommits(s: State, a: Action)
    requires BusyOk(s)
    ensures Step(s, a).reader.committed ==
            if a == Settle(true) && HandlerSucceeded(s) then s.reader.position else s.reader.committed
  {
    if ReaderStep(a) {
      hide PlacedLog, NewDelivery;
    } else {
      StepFrame(s, a);
      hide Step;
    }
  }

  /** In every run the committed offset is that place. */
  lemma {:induction false} CommittedIsLastCommit(acts: seq<Action>)
    ensures Exec(acts).reader.committed == CommittedPlace(acts)
  {
    if acts != [] {
      var s, a := Exec(acts[..|acts|-1]), acts[|acts|-1];
      CommittedIsLastCommit(acts[..|acts|-1]);
      ReaderAlways(acts[..|acts|-1]);
      hide Step, BusyOk, HandledOffset, HandlerSucceeded;
      StepCommits(s, a);
    }
  }

  // ----- Which messages are skipped

  /** The commit of the delivery in hand passes over offset k, whose handler has never returned nil. */
  predicate PassesOver(s: State, a: Action, k: nat) {
    && a == Settle(true) && HandlerSucceeded(s)
    && s.reader.committed <= k && k + 1 < s.reader.position && k !in s.reader.handled
  }

  ghost predicate PassedOver(acts: seq<Action>, k: nat) {
    acts != [] && (PassedOver(acts[..|acts|-1], k) || PassesOver(Exec(acts[..|acts|-1]), acts[|acts|-1], k))
  }

  predicate Skipped(s: State, k: nat) {
    k < s.reader.committed && k !in s.reader.handled
  }

  lemma SettleSkips(s: State, commitOk: bool, k: nat)
    requires s.reader.committed <= s.reader.position && BusyOk(s)
    ensures Skipped(DoSettle(s, commitOk), k) <==> Skipped(s, k) || PassesOver(s, Settle(commitOk), k)
  {
    hide PlacedLog;
  }

  lemma PlaceSkips(s: State, a: Action, k: nat)
    requires a.Fetch? || a.RestartReader?
    ensures Skipped(Step(s, a), k) <==> Skipped(s, k)
  {
    hide PlacedLog, NewDelivery;
  }

  lemma StepSkips(s: State, a: Action, k: nat)
    requires s.reader.committed <= s.reader.position && BusyOk(s)
    ensures Skipped(Step(s, a), k) <==> Skipped(s, k) || PassesOver(s, a, k)
  {
    hide DoFetch, DoSettle, DoRestartReader;
    match a
    case Settle(commitOk) => SettleSkips(s, commitOk, k);
    case Fetch(_, _) => PlaceSkips(s, a, k);
    case RestartReader => PlaceSkips(s, a, k);
    case _ => StepFrame(s, a); hide Step, BusyOk;
  }

  lemma {:induction false} SkippedIff(acts: seq<Action>, k: nat)
    ensures Skipped(Exec(acts), k) <==> PassedOver(acts, k)
  {
    if acts != [] {
      ReaderAlways(acts[..|acts|-1]);
      SkippedIff(acts[..|acts|-1], k);
      hide BusyOk, Step, Skipped, PassesOver;
      StepSkips(Exec(acts[..|acts|-1]), acts[|acts|-1], k);
    }
  }

  // ----- Skipped messages had failed

  predicate InHand(reader: Reader, k: nat) {
    reader.busy.Some? && k + 1 == reader.position
  }

  /** Whatever was fetched and is not in hand was handled, or its handler failed. */
  ghost predicate FailuresOk(reader: Reader) {
    forall k: nat :: k < reader.position && k !in reader.handled && !InHand(reader, k) ==> k in reader.failed
  }

  lemma StepKeepsFailures(s: State, a: Action)
    requires BusyOk(s) && s.reader.committed <= s.reader.position && FailuresOk(s.reader)
    ensures FailuresOk(Step(s, a).reader)
  {
    if ReaderStep(a) {
      hide PlacedLog;
    } else {
      StepFrame(s, a);
      hide Step;
    }
  }

  lemma {:induction false} FailuresAlways(acts: seq<Action>)
    ensures FailuresOk(Exec(acts).reader)
  {
    if acts != [] {
      ReaderAlways(acts[..|acts|-1]);
      FailuresAlways(acts[..|acts|-1]);
      hide Step, BusyOk, FailuresOk;
      StepKeepsFailures(Exec(acts[..|acts|-1]), acts[|acts|-1]);
    }
  }

  /**
   In every run, a message below the committed offset was handled, and its order has a rider or
   has moved on, exactly unless a commit passed over it; and then its own handler call, for
   this consumer's fetch of that offset, had returned an error.
   */
  lemma CommittedIsHandledUnlessSkipped(acts: seq<Action>, k: nat)
    requires k < Exec(acts).reader.committed
    ensures var s := Exec(acts);
            && k < |PlacedLog(s.log)|
            && (k in s.reader.handled <==> !PassedOver(acts, k))
            && (if PassedOver(acts, k) then k in s.reader.failed
                else Resolved(s, PlacedLog(s.log)[k].order))
  {
    ReaderAlways(acts);
    FailuresAlways(acts);
    SkippedIff(acts, k);
    hide PassedOver, Exec;
    assert k in Exec(acts).reader.handled ==> HandledOffset(Exec(acts), k);
  }

  // ----- Skipped for good

  /**
   The order waits for a rider and nothing will look for one: no delivery or move of it is
   open, its messages are all published and all below the committed offset.
   */
  ghost predicate Stuck(s: State, o: OrderId) {
    && o in s.orders && s.orders[o] == Order(Placed, None)
    && (forall p :: p in s.procs && s.procs[p].job.order == o ==> s.procs[p].hold.Ended?)
    && NoMoreMessages(s, o)
    && AllCommitted(s, o)
  }

  ghost predicate NoMoreMessages(s: State, o: OrderId) {
    forall id :: id in s.outbox && s.outbox[id].order == o && s.outbox[id].event.OrderPlaced? ==>
      s.outbox[id].sent && id !in s.limbo && !Owed(s, id)
  }

  ghost predicate AllCommitted(s: State, o: OrderId) {
    forall k :: 0 <= k < |PlacedLog(s.log)| && PlacedLog(s.log)[k].order == o ==> k < s.reader.committed
  }

  /** Nobody calls Transition on the order, and no other consumer is handed the topic. */
  ghost predicate LeavesAlone(a: Action, o: OrderId) {
    !(a.ReadOrder? && a.order == o) && !a.Deliver?
  }

  lemma CommitKeepsStuck(s: State, p: ProcId, o: OrderId)
    requires Stuck(s, o)
    ensures Stuck(DoCommitTx(s, p), o)
  {
    if CanCommit(s, p) {
      assert s.procs[p].job.order != o;
      hide AllCommitted;
      assert AllCommitted(DoCommitTx(s, p), o) by {
        SameTopic(s, DoCommitTx(s, p), o);
      }
    }
  }

  lemma SameTopic(s: State, s': State, o: OrderId)
    requires AllCommitted(s, o) && s'.log == s.log && s.reader.committed <= s'.reader.committed
    ensures AllCommitted(s', o)
  {
  }

  /** Messages of other orders, or of other topics, may be appended. */
  lemma AppendKeepsCommitted(s: State, s': State, o: OrderId, more: seq<Msg>)
    requires AllCommitted(s, o) && s'.log == s.log + more && s'.reader == s.reader
    requires forall k :: 0 <= k < |more| && more[k].event.OrderPlaced? ==> more[k].order != o
    ensures AllCommitted(s', o)
  {
    PlacedLogAppend(s.log, more);
    var placed := PlacedLog(s.log);
    forall k | 0 <= k < |PlacedLog(s'.log)| && PlacedLog(s'.log)[k].order == o ensures k < s.reader.committed {
      if k >= |placed| {
        PlacedLogSound(more, k - |placed|);
      } else {
        assert placed[k].order == o;
      }
    }
  }

  lemma PublishKeepsStuck(s: State, r: RelayId, fate: PublishFate, o: OrderId)
    requires RelayInv(s) && Stuck(s, o)
    ensures Stuck(DoPublish(s, r, fate), o)
  {
    var s' := DoPublish(s, r, fate);
    if s' != s {
      var b := s.relays[r];
      var id := b.rows[b.published];
      assert BatchOk(s, b);
      hide RelayInv, AllCommitted;
      AppendKeepsCommitted(s, s', o, Repeat(MsgOf(s, id), Landed(fate)));
    }
  }

  lemma StrayKeepsStuck(s: State, r: RelayId, fate: PublishFate, o: OrderId)
    requires RelayInv(s) && Stuck(s, o)
    ensures Stuck(DoStray(s, r, fate), o)
  {
    var s' := DoStray(s, r, fate);
    if s' != s {
      var b := s.lost[r];
      var id := b.rows[b.published];
      assert b.rows[b.published..][0] == id;
      assert Owed(s, id);
      UnowedStays(s, Stray(r, fate), o);
      hide RelayInv, AllCommitted, Owed;
      AppendKeepsCommitted(s, s', o, Repeat(MsgOf(s, id), Landed(fate)));
    }
  }

  lemma UnowedStays(s: State, a: Action, o: OrderId)
    requires RelayInv(s) && NoMoreMessages(s, o)
    ensures forall id :: id in s.outbox && s.outbox[id].order == o && s.outbox[id].event.OrderPlaced? ==>
              !Owed(Step(s, a), id)
  {
    hide RelayInv, Step, Owed;
    forall id | id in s.outbox && s.outbox[id].order == o && s.outbox[id].event.OrderPlaced?
      ensures !Owed(Step(s, a), id)
    {
      StepKeepsUnowed(s, a, id);
    }
  }

  lemma LandKeepsStuck(s: State, id: RowId, o: OrderId)
    requires Stuck(s, o)
    ensures Stuck(DoLand(s, id), o)
  {
    var s' := DoLand(s, id);
    if s' != s {
      hide AllCommitted;
      AppendKeepsCommitted(s, s', o, [MsgOf(s, id)]);
    }
  }

  lemma FetchKeepsStuck(s: State, p: ProcId, search: Option<seq<RiderId>>, o: OrderId)
    requires s.reader.committed <= s.reader.position && Stuck(s, o)
    ensures Stuck(DoFetch(s, p, search), o)
  {
    hide PlacedLog;
  }

  lemma ReaderKeepsStuck(s: State, a: Action, o: OrderId)
    requires s.reader.committed <= s.reader.position && Stuck(s, o) && (a.Settle? || a.RestartReader?)
    ensures Stuck(Step(s, a), o)
  {
    hide PlacedLog;
  }

  lemma MarkSentKeepsStuck(s: State, r: RelayId, o: OrderId)
    requires Stuck(s, o)
    ensures Stuck(DoMarkSent(s, r), o)
  {
    hide AllCommitted;
    SameTopic(s, DoMarkSent(s, r), o);
  }

  /** The open processes of other orders move on; none turns to this order. */
  lemma ProcStepKeepsEnded(s: State, a: Action, o: OrderId, p: ProcId)
    requires Stuck(s, o) && LeavesAlone(a, o) && !a.Fetch?
    requires p in Step(s, a).procs && Step(s, a).procs[p].job.order == o
    ensures Step(s, a).procs[p].hold.Ended?
  {
    hide AllCommitted, NoMoreMessages;
    if Actor(a) != Some(p) {
      OthersUntouched(s, a, p);
      hide Step;
    }
  }

  lemma QuietKeepsStuck(s: State, a: Action, o: OrderId)
    requires RelayInv(s) && Stuck(s, o) && LeavesAlone(a, o)
    requires !a.CommitTx? && !a.Publish? && !a.Stray? && !a.Land? && !a.MarkSent? && !ReaderStep(a)
    ensures Stuck(Step(s, a), o)
  {
    UnowedStays(s, a, o);
    hide Step, AllCommitted, Owed, RelayInv;
    StepFrame(s, a);
    SameTopic(s, Step(s, a), o);
    forall p | p in Step(s, a).procs && Step(s, a).procs[p].job.order == o ensures Step(s, a).procs[p].hold.Ended? {
      ProcStepKeepsEnded(s, a, o, p);
    }
  }

  lemma StepKeepsStuck(s: State, a: Action, o: OrderId)
    requires RelayInv(s) && s.reader.committed <= s.reader.position && Stuck(s, o) && LeavesAlone(a, o)
    ensures Stuck(Step(s, a), o)
  {
    hide RelayInv, Stuck, DoCommitTx, DoPublish, DoStray, DoLand, DoMarkSent, DoFetch;
    match a
    case CommitTx(p) => CommitKeepsStuck(s, p, o);
    case Publish(r, fate) => PublishKeepsStuck(s, r, fate, o);
    case Stray(r, fate) => StrayKeepsStuck(s, r, fate, o);
    case Land(id) => LandKeepsStuck(s, id, o);
    case MarkSent(r) => MarkSentKeepsStuck(s, r, o);
    case Fetch(p, search) => FetchKeepsStuck(s, p, search, o);
    case Settle(_) => ReaderKeepsStuck(s, a, o);
    case RestartReader => ReaderKeepsStuck(s, a, o);
    case _ => QuietKeepsStuck(s, a, o);
  }

  /** No relay, restart, redelivery or crash brings the order back: it stays PLACED without a rider. */
  lemma {:induction false} StuckForGood(acts: seq<Action>, more: seq<Action>, o: OrderId)
    requires Stuck(Exec(acts), o) && forall k :: 0 <= k < |more| ==> LeavesAlone(more[k], o)
    ensures Stuck(Exec(acts + more), o)
  {
    hide Exec, Stuck;
    if more == [] {
      assert acts + more == acts;
    } else {
      var prior, a := more[..|more|-1], more[|more|-1];
      assert acts + more == acts + prior + [a];
      StuckForGood(acts, prior, o);
      ExecSnoc(acts + prior, a);
      RelayInvAlways(acts + prior);
      ReaderAlways(acts + prior);
      StepKeepsStuck(Exec(acts + prior), a, o);
    }
  }

  // ----- It does happen

  /** Orders 7 and 8 are placed, published and marked. */
  const TWO_PLACED := CreateActs(0, 7) + CreateActs(1, 8)
  const TWO_TAKEN := TWO_PLACED + [Select(0, 100)]
  const TWO_SENT := TWO_TAKEN + [Publish(0, ACK), Publish(0, ACK), MarkSent(0)]

  /** The geo search fails for 7; the loop goes on to 8, finds no rider, and commits past 7. */
  const FIRST_FAILED := TWO_SENT + [Fetch(10, None)] + [Settle(true)]
  const SECOND_FETCHED := FIRST_FAILED + [Fetch(11, Some([]))]
  const SKIP_RUN := SECOND_FETCHED + TailActs(11) + [Settle(true)]

  const MSG7 := Msg(0, 7, OrderPlaced)
  const MSG8 := Msg(1, 8, OrderPlaced)

  lemma SelectTwo(s: State)
    requires s.outbox == map[0 := Row(7, OrderPlaced, false), 1 := Row(8, OrderPlaced, false)]
    requires s.nextRow == 2 && s.relays == map[] && 0 !in s.lost
    ensures DoSelect(s, 0, 100) == s.(relays := map[0 := Batch([0, 1], 0)])
  {
    assert PendingBelow(s, 1) == PendingBelow(s, 0) + [0];
    assert PendingBelow(s, 2) == [0, 1];
    assert s.relays[0 := Batch([0, 1], 0)] == map[0 := Batch([0, 1], 0)];
  }

  lemma TwoTakenEnds()
    ensures Exec(TWO_TAKEN)
            == AfterTx(AfterTx(INIT, 7, OrderPlaced), 8, OrderPlaced).(relays := map[0 := Batch([0, 1], 0)])
  {
    hide Exec, DoSelect;
    FirstCreate(0, 7);
    CreateUninterrupted(CreateActs(0, 7), 1, 8);
    ExecSnoc(TWO_PLACED, Select(0, 100));
    SelectTwo(Exec(TWO_PLACED));
  }

  lemma PublishTwo(s: State)
    requires s.outbox == map[0 := Row(7, OrderPlaced, false), 1 := Row(8, OrderPlaced, false)]
    requires s.log == [] && s.relays == map[0 := Batch([0, 1], 0)]
    ensures DoPublish(DoPublish(s, 0, ACK), 0, ACK) == s.(log := [MSG7, MSG8], relays := map[0 := Batch([0, 1], 2)])
  {
    hide DoPublish;
    PlainPublish(s, 0, ACK);
    PlainPublish(DoPublish(s, 0, ACK), 0, ACK);
    assert s.relays[0 := Batch([0, 1], 2)] == map[0 := Batch([0, 1], 2)];
  }

  lemma MarkTwo(s: State)
    requires s.outbox == map[0 := Row(7, OrderPlaced, false), 1 := Row(8, OrderPlaced, false)]
    requires s.relays == map[0 := Batch([0, 1], 2)]
    ensures DoMarkSent(s, 0)
            == s.(relays := map[], outbox := map[0 := Row(7, OrderPlaced, true), 1 := Row(8, OrderPlaced, true)])
  {
    assert s.relays - {0} == map[];
  }

  /** What the run needs to know of the state: nothing more is coming for order 7. */
  ghost predicate BothSent(s: State) {
    && s.outbox == map[0 := Row(7, OrderPlaced, true), 1 := Row(8, OrderPlaced, true)]
    && s.log == [MSG7, MSG8] && s.limbo == multiset{} && s.lost == map[]
    && s.orders == map[7 := Order(Placed, None), 8 := Order(Placed, None)]
  }

  lemma TwoSentEnds()
    ensures var s := Exec(TWO_SENT); BothSent(s) && s.procs == map[] && s.reader == Reader(0, 0, None, {}, {})
  {
    hide Exec, DoPublish, DoMarkSent;
    TwoTakenEnds();
    ExecThree(TWO_TAKEN, Publish(0, ACK), Publish(0, ACK), MarkSent(0));
    var s := Exec(TWO_TAKEN);
    PublishTwo(s);
    MarkTwo(DoPublish(DoPublish(s, 0, ACK), 0, ACK));
  }

  lemma TopicOfTwo()
    ensures PlacedLog([MSG7, MSG8]) == [MSG7, MSG8]
  {
    assert [MSG7, MSG8] == [] + [MSG7] + [MSG8];
    assert ([MSG7] + [MSG8])[..1] == [MSG7] && [MSG7][..0] == [];
    assert PlacedLog([MSG7]) == [MSG7];
  }

  lemma FirstFailedEnds()
    ensures var s := Exec(FIRST_FAILED);
            && BothSent(s) && s.reader == Reader(1, 0, None, {}, {0})
            && s.procs == map[10 := Proc(Assign(7, []), Ended(Errored))]
  {
    hide Exec, PlacedLog;
    TwoSentEnds();
    TopicOfTwo();
    FetchStarts(TWO_SENT, 10, None);
    ExecSnoc(TWO_SENT + [Fetch(10, None)], Settle(true));
  }

  lemma SecondFetchedEnds()
    ensures var s := Exec(SECOND_FETCHED);
            && BothSent(s) && s.reader == Reader(2, 0, Some(11), {}, {0})
            && s.procs == map[10 := Proc(Assign(7, []), Ended(Errored)), 11 := Proc(Assign(8, []), Nothing)]
  {
    hide Exec, PlacedLog;
    FirstFailedEnds();
    TopicOfTwo();
    FetchStarts(FIRST_FAILED, 11, Some([]));
  }

  lemma SecondCancelled()
    ensures var s := Exec(SECOND_FETCHED + TailActs(11));
            && s.orders == map[7 := Order(Placed, None), 8 := Order(Cancelled, None)]
            && s.outbox == map[0 := Row(7, OrderPlaced, true), 1 := Row(8, OrderPlaced, true),
                               Exec(SECOND_FETCHED).nextRow := Row(8, NoRider, false)]
            && s.log == [MSG7, MSG8] && s.limbo == multiset{} && s.lost == map[]
            && s.reader == Reader(2, 0, Some(11), {}, {0})
            && s.procs.Keys == {10, 11} && s.procs[10].hold.Ended? && s.procs[11].hold.Ended?
            && HandledOk(s.procs[11].hold.outcome)
  {
    hide Exec;
    SecondFetchedEnds();
    CancelUninterrupted(SECOND_FETCHED, 11, 8);
  }

  lemma SkipRunEnds()
    ensures var before, s := Exec(SECOND_FETCHED + TailActs(11)), Exec(SKIP_RUN);
            s == before.(reader := Reader(2, 2, None, {1}, {0}))
  {
    hide Exec;
    SecondCancelled();
    ExecSnoc(SECOND_FETCHED + TailActs(11), Settle(true));
  }

  /**
   Order 7 is below the committed offset, waiting for a rider that nobody will look for,
   although the design wants every order resolved instead of left in PLACED.
   */
  lemma OrderLeftInPlaced()
    ensures var s := Exec(SKIP_RUN);
            && s.orders == map[7 := Order(Placed, None), 8 := Order(Cancelled, None)]
            && s.reader.committed == 2 && Skipped(s, 0) && Stuck(s, 7)
  {
    hide Exec, PlacedLog;
    SecondCancelled();
    SkipRunEnds();
    TopicOfTwo();
  }

  /** And so it stays, whatever follows but a move of the order itself or a second consumer. */
  lemma OrderLeftForGood(more: seq<Action>)
    requires forall k :: 0 <= k < |more| ==> LeavesAlone(more[k], 7)
    ensures var s := Exec(SKIP_RUN + more); 7 in s.orders && s.orders[7] == Order(Placed, None)
  {
    hide Exec;
    OrderLeftInPlaced();
    StuckForGood(SKIP_RUN, more, 7);
  }
}
