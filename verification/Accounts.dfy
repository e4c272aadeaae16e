/**
 The duplicates of a row counted on the run itself: every write is one that some publish of the
 run made, and beyond the first they are no more than the dispatches that failed while they
 held the row and the writes their publishes made too many.
 */
module Accounts {
  import opened Options
  import opened System
  import opened Locking
  import opened Relays

  // ----- What the steps of a run do about one row

  /** The row that the step publishes, if it publishes one. */
  function PublishedRow(s: State, a: Action): Option<RowId> {
    match a
    case Publish(r, _) =>
      if r in s.relays && s.relays[r].published < |s.relays[r].rows| then Some(s.relays[r].rows[s.relays[r].published])
      else None
    case Stray(r, _) =>
      if r in s.lost && s.lost[r].published < |s.lost[r].rows| then Some(s.lost[r].rows[s.lost[r].published]) else None
    case _ => None
  }

  /** All writes that the publishes of the run made of the row. */
  function WritesIn(acts: seq<Action>, id: RowId): nat {
    if acts == [] then 0
    else
      var a := acts[|acts|-1];
      WritesIn(acts[..|acts|-1], id)
      + if PublishedRow(Exec(acts[..|acts|-1]), a) == Some(id) then WritesOf(a.fate) else 0
  }

  /** Those that each of these publishes made beyond the one it needed. */
  function RetriesIn(acts: seq<Action>, id: RowId): nat {
    if acts == [] then 0
    else
      var a := acts[|acts|-1];
      RetriesIn(acts[..|acts|-1], id)
      + if PublishedRow(Exec(acts[..|acts|-1]), a) == Some(id) && WritesOf(a.fate) > 0 then WritesOf(a.fate) - 1 else 0
  }

  /** A dispatch that holds the row ends, or loses its transaction, without having marked it. */
  ghost predicate FailsWith(s: State, a: Action, id: RowId) {
    exists r :: r in s.relays && id in s.relays[r].rows && r !in Step(s, a).relays && a != MarkSent(r)
  }

  ghost function FailuresIn(acts: seq<Action>, id: RowId): nat {
    if acts == [] then 0
    else
      FailuresIn(acts[..|acts|-1], id)
      + if FailsWith(Exec(acts[..|acts|-1]), acts[|acts|-1], id) then 1 else 0
  }

  // ----- Every write is one of a publish

  lemma StepWrites(s: State, a: Action, id: RowId)
    requires RelayInv(s) && LostOk(s)
    ensures Writes(Step(s, a), id)
            == Writes(s, id) + (if PublishedRow(s, a) == Some(id) then WritesOf(a.fate) else 0)
    ensures Step(s, a).retries[id] == s.retries[id] +
            if PublishedRow(s, a) == Some(id) && WritesOf(a.fate) > 0 then WritesOf(a.fate) - 1 else 0
  {
    if PublishedRow(s, a).Some? {
      PublishWrites(s, a, id);
    } else if a.Land? {
      LandWrites(s, a.row, id);
    } else {
      StepFrame(s, a);
    }
  }

  lemma PublishWrites(s: State, a: Action, id: RowId)
    requires RelayInv(s) && LostOk(s) && PublishedRow(s, a).Some?
    ensures Writes(Step(s, a), id)
            == Writes(s, id) + (if PublishedRow(s, a) == Some(id) then WritesOf(a.fate) else 0)
    ensures Step(s, a).retries[id] == s.retries[id] +
            if PublishedRow(s, a) == Some(id) && WritesOf(a.fate) > 0 then WritesOf(a.fate) - 1 else 0
  {
    var row := PublishedRow(s, a).value;
    if a.Publish? {
      assert BatchOk(s, s.relays[a.relay]);
    } else {
      assert BatchShape(s, s.lost[a.relay]);
    }
    assert row in s.outbox;
    hide RelayInv, LostOk, BatchShape, BatchOk, Copies;
    PublishIsWrite(s, a, row);
    hide Step, PublishedRow, Wrote;
    WroteWrites(s, row, a.fate, id);
  }

  lemma PublishIsWrite(s: State, a: Action, row: RowId)
    requires PublishedRow(s, a) == Some(row) && row in s.outbox
    ensures var w := Wrote(s, row, a.fate);
            Step(s, a).log == w.log && Step(s, a).limbo == w.limbo && Step(s, a).retries == w.retries
  {
    hide Repeat, MsgOf, Landed, More, ExtraWrites;
  }

  /** In every run the row's messages, landed or under way, are exactly the writes its publishes made. */
  lemma {:induction false} EveryWriteIsOfAPublish(acts: seq<Action>, id: RowId)
    ensures var s := Exec(acts); Copies(s.log, id) + s.limbo[id] == WritesIn(acts, id)
    ensures Exec(acts).retries[id] == RetriesIn(acts, id)
  {
    if acts != [] {
      var before := acts[..|acts|-1];
      EveryWriteIsOfAPublish(before, id);
      RelayInvAlways(before);
      LostAlways(before);
      hide RelayInv, LostOk, Step, Copies, PublishedRow;
      StepWrites(Exec(before), acts[|acts|-1], id);
    }
  }

  // ----- Failed dispatches

  /** The dispatches that have lost their transaction and have the row still to publish. */
  ghost function Owing(s: State, id: RowId): set<RelayId> {
    set r | r in s.lost && id in Left(s.lost[r])
  }

  lemma {:induction false} OnceInSorted(rows: seq<RowId>, id: RowId)
    requires forall i, j :: 0 <= i < j < |rows| ==> rows[i] < rows[j]
    ensures multiset(rows)[id] == if id in rows then 1 else 0
  {
    if rows != [] {
      assert rows == [rows[0]] + rows[1..];
      OnceInSorted(rows[1..], id);
    }
  }

  /** A batch's rows are those done and those left, each once. */
  lemma DoneOrLeft(s: State, b: Batch, id: RowId)
    requires BatchShape(s, b)
    ensures multiset(b.rows)[id] == if id in b.rows then 1 else 0
    ensures multiset(Done(b))[id] == if id in Done(b) then 1 else 0
    ensures multiset(Left(b))[id] == if id in Left(b) then 1 else 0
    ensures id in b.rows <==> id in Done(b) || id in Left(b)
    ensures !(id in Done(b) && id in Left(b))
  {
    assert Done(b) == b.rows[..b.published] && Left(b) == b.rows[b.published..];
    SortedParts(b.rows, Done(b), Left(b), id);
  }

  lemma SortedParts(rows: seq<RowId>, done: seq<RowId>, left: seq<RowId>, id: RowId)
    requires rows == done + left && forall i, j :: 0 <= i < j < |rows| ==> rows[i] < rows[j]
    ensures multiset(rows)[id] == if id in rows then 1 else 0
    ensures multiset(done)[id] == if id in done then 1 else 0
    ensures multiset(left)[id] == if id in left then 1 else 0
    ensures id in rows <==> id in done || id in left
    ensures !(id in done && id in left)
  {
    OnceInSorted(rows, id);
    assert multiset(rows) == multiset(done) + multiset(left);
    assert id in done <==> multiset(done)[id] > 0;
    assert id in left <==> multiset(left)[id] > 0;
    assert id in rows <==> multiset(rows)[id] > 0;
  }

  lemma GiveUpCounts(s: State, r: RelayId, id: RowId, a: Action)
    requires RelayInv(s) && r in s.relays && RelayStep(a) && a.relay == r && a != MarkSent(r)
    requires Step(s, a).relays == s.relays - {r} && Step(s, a).lost == s.lost
    requires Step(s, a).failed == s.failed + multiset(s.relays[r].rows)
    ensures Step(s, a).failed[id] + |Owing(Step(s, a), id)|
            == s.failed[id] + |Owing(s, id)| + if FailsWith(s, a, id) then 1 else 0
  {
    hide Step;
    assert BatchOk(s, s.relays[r]);
    DoneOrLeft(s, s.relays[r], id);
    hide RelayInv, BatchOk, BatchShape, Left;
    assert Owing(Step(s, a), id) == Owing(s, id);
    hide Owing;
    assert FailsWith(s, a, id) <==> id in s.relays[r].rows;
  }

  lemma DifferAtOne(xs: set<RelayId>, ys: set<RelayId>, r: RelayId)
    requires xs - {r} == ys - {r}
    ensures |ys| + (if r in xs then 1 else 0) == |xs| + if r in ys then 1 else 0
  {
    assert |xs - {r}| == |xs| - if r in xs then 1 else 0;
    assert |ys - {r}| == |ys| - if r in ys then 1 else 0;
  }

  ghost predicate SameLostBut(s: State, s': State, r: RelayId) {
    forall t :: t != r ==> (t in s'.lost <==> t in s.lost) && (t in s.lost ==> s'.lost[t] == s.lost[t])
  }

  /** Who owes the row changes at most at the one relay whose lost dispatch changes. */
  lemma OwingChanges(s: State, s': State, r: RelayId, id: RowId)
    requires SameLostBut(s, s', r)
    ensures |Owing(s', id)| + (if r in Owing(s, id) then 1 else 0)
            == |Owing(s, id)| + if r in Owing(s', id) then 1 else 0
  {
    hide Left;
    forall t | t != r ensures t in Owing(s', id) <==> t in Owing(s, id) {
    }
    hide Owing;
    assert Owing(s, id) - {r} == Owing(s', id) - {r};
    DifferAtOne(Owing(s, id), Owing(s', id), r);
  }

  lemma LoseCounts(s: State, r: RelayId, id: RowId)
    requires RelayInv(s) && LostOk(s) && r in s.relays
    ensures var s' := Step(s, LoseTx(r));
            s'.failed[id] + |Owing(s', id)|
            == s.failed[id] + |Owing(s, id)| + if FailsWith(s, LoseTx(r), id) then 1 else 0
  {
    var b, s' := s.relays[r], Step(s, LoseTx(r));
    assert BatchOk(s, b) && r !in s.lost;
    DoneOrLeft(s, b, id);
    OwingChanges(s, s', r, id);
    assert r in Owing(s', id) <==> id in Left(b);
    assert r !in Owing(s, id);
    assert FailsWith(s, LoseTx(r), id) <==> id in b.rows by {
      hide BatchOk, Left, Done, LostOk, RelayInv;
    }
    hide BatchOk, Left, Done, LostOk, RelayInv, Owing, FailsWith;
  }

  /** A lost dispatch that publishes or ends counts for the rows it leaves behind. */
  lemma LeaveCounts(s: State, s': State, r: RelayId, id: RowId, gone: seq<RowId>)
    requires LostOk(s) && r in s.lost && s'.failed == s.failed + multiset(gone)
    requires SameLostBut(s, s', r)
    requires Left(s.lost[r]) == gone + if r in s'.lost then Left(s'.lost[r]) else []
    ensures s'.failed[id] + |Owing(s', id)| == s.failed[id] + |Owing(s, id)|
  {
    var rest := if r in s'.lost then Left(s'.lost[r]) else [];
    assert BatchShape(s, s.lost[r]);
    hide LostOk;
    DoneOrLeft(s, s.lost[r], id);
    hide BatchShape, Left;
    OwingChanges(s, s', r, id);
    assert multiset(gone + rest) == multiset(gone) + multiset(rest);
    assert r in Owing(s, id) <==> id in gone + rest;
    assert r in Owing(s', id) <==> id in rest;
    assert id in rest <==> multiset(rest)[id] > 0;
    assert id in gone + rest <==> multiset(gone + rest)[id] > 0;
    hide Owing;
  }

  lemma StrayCounts(s: State, r: RelayId, fate: PublishFate, id: RowId)
    requires LostOk(s) && r in s.lost && s.lost[r].published < |s.lost[r].rows|
    ensures var s' := Step(s, Stray(r, fate)); s'.failed[id] + |Owing(s', id)| == s.failed[id] + |Owing(s, id)|
  {
    var s', gone := StrayLeaves(s, r, fate);
    hide Step, LostOk, SameLostBut, Left, Owing;
    LeaveCounts(s, s', r, id, gone);
  }

  /** What a stray publish does to its dispatch: the row published is done with, or all that was left is. */
  lemma StrayLeaves(s: State, r: RelayId, fate: PublishFate) returns (s': State, gone: seq<RowId>)
    requires LostOk(s) && r in s.lost && s.lost[r].published < |s.lost[r].rows|
    ensures s' == Step(s, Stray(r, fate)) && s'.failed == s.failed + multiset(gone) && SameLostBut(s, s', r)
    ensures Left(s.lost[r]) == gone + if r in s'.lost then Left(s'.lost[r]) else []
  {
    var b := s.lost[r];
    var row := b.rows[b.published];
    s' := Step(s, Stray(r, fate));
    assert row in s.outbox by {
      assert BatchShape(s, b);
    }
    hide LostOk, Repeat, MsgOf, Landed, More, ExtraWrites;
    if fate.Acked? {
      gone := [row];
      assert b.rows[b.published..] == [row] + b.rows[b.published + 1..];
      assert multiset([row]) == multiset{row};
    } else {
      gone := Left(b);
      assert Left(b) + [] == Left(b);
    }
  }

  lemma CrashLostCounts(s: State, r: RelayId, id: RowId)
    requires LostOk(s) && r in s.lost && r !in s.relays
    ensures Step(s, CrashRelay(r)).relays == s.relays
    ensures var s' := Step(s, CrashRelay(r)); s'.failed[id] + |Owing(s', id)| == s.failed[id] + |Owing(s, id)|
  {
    hide LostOk, BatchShape;
    assert Left(s.lost[r]) == Left(s.lost[r]) + [];
    LeaveCounts(s, Step(s, CrashRelay(r)), r, id, Left(s.lost[r]));
  }

  lemma QuietCounts(s: State, a: Action, id: RowId)
    requires Step(s, a).failed == s.failed && Step(s, a).lost == s.lost
    requires forall r :: r in s.relays && a != MarkSent(r) ==> r in Step(s, a).relays
    ensures Step(s, a).failed[id] + |Owing(Step(s, a), id)|
            == s.failed[id] + |Owing(s, id)| + if FailsWith(s, a, id) then 1 else 0
  {
    hide Step;
    assert Owing(Step(s, a), id) == Owing(s, id);
  }

  lemma PublishCounts(s: State, r: RelayId, fate: PublishFate, id: RowId)
    requires RelayInv(s)
    ensures var s' := Step(s, Publish(r, fate));
            s'.failed[id] + |Owing(s', id)|
            == s.failed[id] + |Owing(s, id)| + if FailsWith(s, Publish(r, fate), id) then 1 else 0
  {
    hide Repeat, MsgOf, Landed, More, ExtraWrites, FailsWith, Owing;
    if DoPublish(s, r, fate) != s && fate.Failed? {
      GiveUpCounts(s, r, id, Publish(r, fate));
    } else {
      QuietCounts(s, Publish(r, fate), id);
    }
  }

  lemma CrashHoldingCounts(s: State, r: RelayId, id: RowId)
    requires RelayInv(s) && r in s.relays
    ensures Step(s, CrashRelay(r)).failed[id] + |Owing(Step(s, CrashRelay(r)), id)|
            == s.failed[id] + |Owing(s, id)| + if FailsWith(s, CrashRelay(r), id) then 1 else 0
  {
    hide RelayInv, FailsWith, Owing;
    GiveUpCounts(s, r, id, CrashRelay(r));
  }

  /** A step of a dispatch that has lost its transaction fails nobody else. */
  lemma OnlyLostMoves(s: State, a: Action, id: RowId)
    requires Step(s, a).relays == s.relays
    ensures !FailsWith(s, a, id)
  {
    hide Step;
  }

  lemma StepCounts(s: State, a: Action, id: RowId)
    requires RelayInv(s) && LostOk(s)
    ensures Step(s, a).failed[id] + |Owing(Step(s, a), id)|
            == s.failed[id] + |Owing(s, id)| + if FailsWith(s, a, id) then 1 else 0
  {
    hide Step, FailsWith, Owing, Left, Done;
    if a.Publish? {
      PublishCounts(s, a.relay, a.fate, id);
    } else if a.LoseTx? && a.relay in s.relays {
      LoseCounts(s, a.relay, id);
    } else if a.CrashRelay? && a.relay in s.relays {
      CrashHoldingCounts(s, a.relay, id);
    } else if a.CrashRelay? && a.relay in s.lost {
      CrashLostCounts(s, a.relay, id);
      OnlyLostMoves(s, a, id);
    } else if a.Stray? && a.relay in s.lost && s.lost[a.relay].published < |s.lost[a.relay].rows| {
      StrayCounts(s, a.relay, a.fate, id);
      StepFrame(s, a);
      OnlyLostMoves(s, a, id);
    } else {
      QuietStepCounts(s, a, id);
    }
  }

  /** A step that ends no dispatch and publishes for none that has lost its transaction. */
  lemma QuietStepCounts(s: State, a: Action, id: RowId)
    requires !a.Publish? && !(a.LoseTx? && a.relay in s.relays)
    requires !(a.CrashRelay? && (a.relay in s.relays || a.relay in s.lost))
    requires !(a.Stray? && a.relay in s.lost && s.lost[a.relay].published < |s.lost[a.relay].rows|)
    ensures Step(s, a).failed[id] + |Owing(Step(s, a), id)|
            == s.failed[id] + |Owing(s, id)| + if FailsWith(s, a, id) then 1 else 0
  {
    StepFrame(s, a);
    hide FailsWith, Owing, PendingBelow;
    QuietCounts(s, a, id);
  }

  lemma {:induction false} FailuresAreCounted(acts: seq<Action>, id: RowId)
    ensures Exec(acts).failed[id] + |Owing(Exec(acts), id)| == FailuresIn(acts, id)
  {
    if acts == [] {
      assert Owing(INIT, id) == {};
    } else {
      var before := acts[..|acts|-1];
      FailuresAreCounted(before, id);
      RelayInvAlways(before);
      LostAlways(before);
      hide RelayInv, LostOk, Step, FailsWith, Owing;
      StepCounts(Exec(before), acts[|acts|-1], id);
    }
  }

  /**
   In every run a row is written, now or later, at most once more than there are dispatches that
   failed holding it and writes that single publishes made of it too many.
   */
  lemma DuplicatesAreFailures(acts: seq<Action>, id: RowId)
    ensures var s := Exec(acts);
            Copies(s.log, id) + s.limbo[id] <= 1 + FailuresIn(acts, id) + RetriesIn(acts, id)
  {
    DuplicatesBounded(acts, id);
    EveryWriteIsOfAPublish(acts, id);
    FailuresAreCounted(acts, id);
  }
}
