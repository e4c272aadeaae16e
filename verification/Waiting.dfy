/**
 How long an outbox row waits while writers go on committing. With one relay at work, and no
 lower id committed meanwhile, a row is sent once as many dispatches have succeeded as the
 unsent rows up to it fill batches, whatever else happens: failed and lost dispatches, retries,
 any number of newer rows.
 */
module Waiting {
  import opened System
  import opened Locking
  import opened Relays
  import opened PublishOrder

  /** The unsent rows up to x. */
  function Unsent(s: State, x: RowId): set<RowId> {
    set id | id in s.outbox && id <= x && !s.outbox[id].sent
  }

  /** Every row up to x that is there now was there before. */
  ghost predicate NoneBelow(s: State, s': State, x: RowId) {
    forall id :: id in s'.outbox && id <= x ==> id in s.outbox
  }

  /** The step ends a dispatch with its rows marked. */
  predicate Marks(s: State, a: Action) {
    a.MarkSent? && a.relay in s.relays && s.relays[a.relay].published == |s.relays[a.relay].rows|
  }

  /** The dispatches that have succeeded in a run. */
  function Dispatches(acts: seq<Action>): nat {
    if acts == [] then 0
    else Dispatches(acts[..|acts|-1]) + if Marks(Exec(acts[..|acts|-1]), acts[|acts|-1]) then 1 else 0
  }

  lemma DispatchesSnoc(acts: seq<Action>, a: Action)
    ensures Dispatches(acts + [a]) == Dispatches(acts) + if Marks(Exec(acts), a) then 1 else 0
  {
    assert (acts + [a])[..|acts|] == acts;
  }

  /** Of the relays only relay r takes steps, and it selects at least `size` rows if there are so many. */
  predicate ByRelay(a: Action, r: RelayId, size: nat) {
    RelayStep(a) ==> a.relay == r && (a.Select? ==> a.limit >= size)
  }

  function Less(n: nat, d: nat): nat {
    if d <= n then n - d else 0
  }

  function Members(ids: seq<RowId>): set<RowId> {
    set id | id in ids
  }

  /** At most n rows up to x are unsent, and at most n - size of them outside the batch in flight. */
  ghost predicate WaitsFor(s: State, r: RelayId, x: RowId, size: nat, n: nat) {
    && s.relays.Keys <= {r}
    && |Unsent(s, x)| <= n
    && (r in s.relays ==> |Unsent(s, x) - Members(s.relays[r].rows)| <= Less(n, size))
  }

  lemma SubsetSmaller(a: set<RowId>, b: set<RowId>)
    requires a <= b
    ensures |a| <= |b|
  {
    assert b == a + (b - a);
  }

  lemma {:induction false} SortedCount(ids: seq<RowId>)
    requires forall i, j :: 0 <= i < j < |ids| ==> ids[i] < ids[j]
    ensures |Members(ids)| == |ids|
  {
    if ids != [] {
      var rest, last := ids[..|ids|-1], ids[|ids|-1];
      SortedCount(rest);
      assert ids == rest + [last];
      assert Members(ids) == Members(rest) + {last};
      assert last !in Members(rest);
    }
  }

  /** With nothing in flight the unsent rows are those a selection ranges over. */
  lemma UnsentIsPending(s: State, x: RowId, id: RowId)
    requires RowsOk(s) && s.relays == map[]
    ensures id in Unsent(s, x) <==> id in PendingBelow(s, s.nextRow) && id <= x
  {
    assert !Held(s, id);
  }

  /** A selection that stops at its limit short of x took `limit` of the unsent rows up to x. */
  lemma FullSelection(s: State, x: RowId, rows: seq<RowId>)
    requires forall i, j :: 0 <= i < j < |rows| ==> rows[i] < rows[j]
    requires forall id :: id in rows ==> id in Unsent(s, x)
    ensures |Unsent(s, x) - Members(rows)| == |Unsent(s, x)| - |rows|
  {
    SortedCount(rows);
    assert Members(rows) <= Unsent(s, x);
  }

  /** A selection of at least `size` rows takes that many of the unsent rows up to x, or all of them. */
  lemma SelectionTakes(s: State, x: RowId, limit: nat, size: nat)
    requires RowsOk(s) && s.relays == map[] && size <= limit
    ensures var rows := Take(PendingBelow(s, s.nextRow), limit);
            |Unsent(s, x) - Members(rows)| <= Less(|Unsent(s, x)|, size)
  {
    var all := PendingBelow(s, s.nextRow);
    var rows := Take(all, limit);
    var unsent := Unsent(s, x);
    forall id: RowId ensures id in unsent <==> id in all && id <= x {
      UnsentIsPending(s, x, id);
    }
    hide PendingBelow, Unsent, RowsOk;
    if rows != all && forall id :: id in rows ==> id <= x {
      FullSelection(s, x, rows);
    } else {
      forall id | id in unsent ensures id in rows {
        if rows != all {
          var j :| j in rows && j > x;
          SelectionClosed(s, limit, id, j);
        }
      }
      assert unsent - Members(rows) == {};
    }
  }

  lemma LessMonotone(a: nat, b: nat, d: nat)
    requires a <= b
    ensures Less(a, d) <= Less(b, d)
  {
  }

  lemma SelectWaits(s: State, r: RelayId, x: RowId, size: nat, n: nat, limit: nat)
    requires RowsOk(s) && WaitsFor(s, r, x, size, n) && size <= limit
    ensures WaitsFor(DoSelect(s, r, limit), r, x, size, n)
  {
    if r !in s.relays {
      assert s.relays == map[];
      SelectionTakes(s, x, limit, size);
      hide RowsOk, PendingBelow, Take, Members, Less;
      assert Unsent(DoSelect(s, r, limit), x) == Unsent(s, x);
      LessMonotone(|Unsent(s, x)|, n, size);
    }
  }

  lemma MarkWaits(s: State, r: RelayId, x: RowId, size: nat, n: nat)
    requires WaitsFor(s, r, x, size, n) && Marks(s, MarkSent(r))
    ensures WaitsFor(DoMarkSent(s, r), r, x, size, Less(n, size))
  {
    assert Unsent(DoMarkSent(s, r), x) == Unsent(s, x) - Members(s.relays[r].rows);
  }

  /** Fewer unsent rows, and the batch in flight as it was or gone. */
  lemma FewerWaits(s: State, s': State, r: RelayId, x: RowId, size: nat, n: nat)
    requires WaitsFor(s, r, x, size, n) && Unsent(s', x) <= Unsent(s, x)
    requires s'.relays.Keys <= s.relays.Keys
    requires forall t :: t in s'.relays ==> s'.relays[t].rows == s.relays[t].rows
    ensures WaitsFor(s', r, x, size, n)
  {
    SubsetSmaller(Unsent(s', x), Unsent(s, x));
    if r in s'.relays {
      SubsetSmaller(Unsent(s', x) - Members(s'.relays[r].rows),
                    Unsent(s, x) - Members(s.relays[r].rows));
    }
  }

  lemma StepUnsent(s: State, a: Action, x: RowId)
    requires Inv(s) && NoneBelow(s, Step(s, a), x)
    ensures Unsent(Step(s, a), x) <= Unsent(s, x)
  {
    hide Step;
    forall id | id in Unsent(Step(s, a), x) ensures id in Unsent(s, x) {
      StepRowsStay(s, a, id);
    }
  }

  lemma BatchStays(s: State, a: Action)
    requires !a.Select?
    ensures Step(s, a).relays.Keys <= s.relays.Keys
    ensures forall t :: t in Step(s, a).relays ==> Step(s, a).relays[t].rows == s.relays[t].rows
  {
    StepFrame(s, a);
    if a.Stray? || !RelayStep(a) {
      hide Step;
    }
  }

  lemma StepWaits(s: State, a: Action, r: RelayId, x: RowId, size: nat, n: nat)
    requires Inv(s) && WaitsFor(s, r, x, size, n) && ByRelay(a, r, size) && NoneBelow(s, Step(s, a), x)
    ensures WaitsFor(Step(s, a), r, x, size, if Marks(s, a) then Less(n, size) else n)
  {
    assert RowsOk(s);
    hide Inv, WaitsFor, DoSelect, DoMarkSent, NoneBelow;
    if a.Select? {
      SelectWaits(s, r, x, size, n, a.limit);
    } else if Marks(s, a) {
      MarkWaits(s, r, x, size, n);
    } else {
      hide Step;
      BatchStays(s, a);
      StepUnsent(s, a, x);
      FewerWaits(s, Step(s, a), r, x, size, n);
    }
  }

  /** The dispatches that succeed in the second part of a run. */
  function Since(acts: seq<Action>, more: seq<Action>): nat {
    Less(Dispatches(acts + more), Dispatches(acts))
  }

  lemma SinceSnoc(acts: seq<Action>, prior: seq<Action>, a: Action)
    requires Dispatches(acts) <= Dispatches(acts + prior)
    ensures Dispatches(acts) <= Dispatches(acts + (prior + [a]))
    ensures Since(acts, prior + [a]) == Since(acts, prior) + if Marks(Exec(acts + prior), a) then 1 else 0
  {
    assert acts + (prior + [a]) == acts + prior + [a];
    DispatchesSnoc(acts + prior, a);
  }

  /** What d batches leave of m rows. */
  function Rest(m: nat, d: nat, size: nat): nat {
    Less(m, d * size)
  }

  lemma RestStep(m: nat, d: nat, size: nat)
    ensures Rest(m, 0, size) == m && Less(Rest(m, d, size), size) == Rest(m, d + 1, size)
  {
    assert 0 * size == 0;
    assert (d + 1) * size == d * size + size;
  }

  /** Over a run of relay r the unsent rows up to x shrink by a batch with every dispatch that succeeds. */
  lemma {:induction false} RunWaits(acts: seq<Action>, more: seq<Action>, r: RelayId, x: RowId, size: nat)
    requires Exec(acts).relays == map[] && NoneBelow(Exec(acts), Exec(acts + more), x)
    requires forall k :: 0 <= k < |more| ==> ByRelay(more[k], r, size)
    ensures Dispatches(acts) <= Dispatches(acts + more)
    ensures WaitsFor(Exec(acts + more), r, x, size, Rest(|Unsent(Exec(acts), x)|, Since(acts, more), size))
  {
    hide Exec, Dispatches, NoneBelow, Rest;
    var m := |Unsent(Exec(acts), x)|;
    RestStep(m, Since(acts, more), size);
    if more == [] {
      assert acts + more == acts;
    } else {
      var prior, a := more[..|more|-1], more[|more|-1];
      assert more == prior + [a] && acts + more == acts + prior + [a];
      ExecSnoc(acts + prior, a);
      NoneBelowBefore(acts, prior, a, x);
      RunWaits(acts, prior, r, x, size);
      InvAlways(acts + prior);
      hide WaitsFor, Inv, Step, Unsent, Since;
      StepWaits(Exec(acts + prior), a, r, x, size, Rest(m, Since(acts, prior), size));
      hide Marks;
      SinceSnoc(acts, prior, a);
      RestStep(m, Since(acts, prior), size);
    }
  }

  lemma NoneBelowBefore(acts: seq<Action>, prior: seq<Action>, a: Action, x: RowId)
    requires NoneBelow(Exec(acts), Step(Exec(acts + prior), a), x)
    ensures NoneBelow(Exec(acts), Exec(acts + prior), x)
    ensures NoneBelow(Exec(acts + prior), Step(Exec(acts + prior), a), x)
  {
    hide Exec, Step;
    InvAlways(acts + prior);
    hide Inv;
    forall id | id in Exec(acts + prior).outbox && id <= x ensures id in Exec(acts).outbox {
      StepRowsStay(Exec(acts + prior), a, id);
    }
    forall id | id in Exec(acts).outbox ensures id in Exec(acts + prior).outbox {
      RowsStay(acts, prior, id);
    }
  }

  function CeilDiv(n: nat, size: nat): nat
    requires size > 0
  {
    (n + size - 1) / size
  }

  lemma {:induction false} MulMonotone(a: nat, b: nat, size: nat)
    requires a <= b
    ensures a * size <= b * size
  {
    if a < b {
      MulMonotone(a, b - 1, size);
      assert b * size == (b - 1) * size + size;
    }
  }

  lemma EnoughRounds(n: nat, size: nat, k: nat)
    requires size > 0
    ensures n <= k * size <==> CeilDiv(n, size) <= k
  {
    var a := n + size - 1;
    var c := a / size;
    assert a == c * size + a % size;
    if c <= k {
      MulMonotone(c, k, size);
    } else {
      MulMonotone(k + 1, c, size);
      assert (k + 1) * size == k * size + size;
    }
  }

  /**
   A row with m unsent rows below it is sent and in the log after ceil((m + 1) / size) dispatches
   of the one relay at work have succeeded, under any traffic of writers and any failures, as
   long as no lower id is committed late.
   */
  lemma SentAfterEnoughDispatches(acts: seq<Action>, more: seq<Action>, r: RelayId, x: RowId, size: nat)
    requires size > 0 && x in Exec(acts).outbox && Exec(acts).relays == map[]
    requires forall k :: 0 <= k < |more| ==> ByRelay(more[k], r, size)
    requires NoneBelow(Exec(acts), Exec(acts + more), x)
    requires CeilDiv(|Unsent(Exec(acts), x)|, size) <= Since(acts, more)
    ensures var s := Exec(acts + more); x in s.outbox && s.outbox[x].sent && InLog(s.log, x)
  {
    hide Exec, Since;
    RunWaits(acts, more, r, x, size);
    EnoughRounds(|Unsent(Exec(acts), x)|, size, Since(acts, more));
    RowsStay(acts, more, x);
    RelayInvAlways(acts + more);
    var s := Exec(acts + more);
    assert Unsent(s, x) == {};
    assert x !in Unsent(s, x);
  }
}
