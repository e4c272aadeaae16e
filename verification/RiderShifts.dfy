/**
 No rider is claimed twice in one shift, whatever the geo index offered and however many
 deliveries, redeliveries and status changes race for the rider.
 */
module RiderShifts {
  import opened System
  import opened Locking

  predicate IsClaim(c: Commit, r: RiderId) {
    c.RowCommit? && c.event == OrderAssigned(r)
  }

  predicate IsShiftStart(c: Commit, r: RiderId) {
    c == RiderCommit(r, Available)
  }

  function Claims(journal: seq<Commit>, r: RiderId): nat {
    if journal == [] then 0
    else Claims(journal[..|journal|-1], r) + if IsClaim(journal[|journal|-1], r) then 1 else 0
  }

  function ShiftStarts(journal: seq<Commit>, r: RiderId): nat {
    if journal == [] then 0
    else ShiftStarts(journal[..|journal|-1], r) + if IsShiftStart(journal[|journal|-1], r) then 1 else 0
  }

  lemma CountsSnoc(journal: seq<Commit>, c: Commit, r: RiderId)
    ensures Claims(journal + [c], r) == Claims(journal, r) + if IsClaim(c, r) then 1 else 0
    ensures ShiftStarts(journal + [c], r) == ShiftStarts(journal, r) + if IsShiftStart(c, r) then 1 else 0
  {
    assert (journal + [c])[..|journal|] == journal;
  }

  predicate IsAvailable(s: State, r: RiderId) {
    r in s.riders && s.riders[r] == Available
  }

  /** Some AVAILABLE write to the rider lies strictly between the two journal positions. */
  ghost predicate StartsBetween(journal: seq<Commit>, r: RiderId, i: int, j: int) {
    exists k :: i < k < j && 0 <= k < |journal| && IsShiftStart(journal[k], r)
  }

  ghost predicate ClaimsSeparated(journal: seq<Commit>, r: RiderId) {
    forall i, j :: 0 <= i < j < |journal| && IsClaim(journal[i], r) && IsClaim(journal[j], r) ==>
      StartsBetween(journal, r, i, j)
  }

  /** While the rider is AVAILABLE, every claim so far has been followed by an AVAILABLE write. */
  ghost predicate ClaimsClosed(journal: seq<Commit>, r: RiderId) {
    forall i :: 0 <= i < |journal| && IsClaim(journal[i], r) ==> StartsBetween(journal, r, i, |journal|)
  }

  ghost predicate ShiftOk(s: State, r: RiderId) {
    && Claims(s.journal, r) + (if IsAvailable(s, r) then 1 else 0) <= ShiftStarts(s.journal, r)
    && ClaimsSeparated(s.journal, r)
    && (IsAvailable(s, r) ==> ClaimsClosed(s.journal, r))
  }

  lemma StartsBetweenSnoc(journal: seq<Commit>, c: Commit, r: RiderId, i: int, j: int)
    requires StartsBetween(journal, r, i, j)
    ensures StartsBetween(journal + [c], r, i, j)
  {
    var k :| i < k < j && 0 <= k < |journal| && IsShiftStart(journal[k], r);
    assert (journal + [c])[k] == journal[k];
  }

  /** A commit extends the journal; a claim of `r` needs `r` AVAILABLE, an AVAILABLE write opens a shift. */
  lemma SnocKeepsShift(s: State, s': State, c: Commit, r: RiderId)
    requires ShiftOk(s, r) && s'.journal == s.journal + [c]
    requires IsClaim(c, r) ==> IsAvailable(s, r) && !IsAvailable(s', r)
    requires IsAvailable(s', r) ==> IsAvailable(s, r) || IsShiftStart(c, r)
    ensures ShiftOk(s', r)
  {
    CountsSnoc(s.journal, c, r);
    var j' := s'.journal;
    assert j'[|s.journal|] == c;
    forall i, j | 0 <= i < j < |j'| && IsClaim(j'[i], r) && IsClaim(j'[j], r) ensures StartsBetween(j', r, i, j) {
      if j < |s.journal| {
        assert StartsBetween(s.journal, r, i, j);
        StartsBetweenSnoc(s.journal, c, r, i, j);
      } else {
        assert StartsBetween(s.journal, r, i, |s.journal|);
        StartsBetweenSnoc(s.journal, c, r, i, |s.journal|);
      }
    }
    if IsAvailable(s', r) {
      forall i | 0 <= i < |j'| && IsClaim(j'[i], r) ensures StartsBetween(j', r, i, |j'|) {
        if IsShiftStart(c, r) {
          assert IsShiftStart(j'[|s.journal|], r);
        } else {
          StartsBetweenSnoc(s.journal, c, r, i, |s.journal|);
        }
      }
    }
  }

  ghost predicate ShiftsOk(s: State) {
    forall r: RiderId :: ShiftOk(s, r)
  }

  lemma StepKeepsShift(s: State, a: Action, r: RiderId)
    requires Inv(s) && ShiftOk(s, r)
    ensures ShiftOk(Step(s, a), r)
  {
    StepFrame(s, a);
    hide ShiftOk;
    var s' := Step(s, a);
    if (a.CommitTx? || RiderStep(a)) && s' != s {
      if a.CommitTx? && s.procs[a.p].hold.event == OrderAssigned(r) {
        assert HoldsRider(s.procs[a.p], r);
      }
      SnocKeepsShift(s, s', s'.journal[|s.journal|], r);
    } else {
      hide Step;
      SameJournalSameShift(s, s', r);
    }
  }

  lemma SameJournalSameShift(s: State, s': State, r: RiderId)
    requires ShiftOk(s, r) && s'.journal == s.journal && s'.riders == s.riders
    ensures ShiftOk(s', r)
  {
  }

  lemma {:induction false} ShiftsAlways(acts: seq<Action>)
    ensures ShiftsOk(Exec(acts))
  {
    if acts == [] {
      assert forall r: RiderId :: ShiftOk(INIT, r);
    } else {
      var s := Exec(acts[..|acts|-1]);
      InvAlways(acts[..|acts|-1]);
      ShiftsAlways(acts[..|acts|-1]);
      var s' := Step(s, acts[|acts|-1]);
      forall r: RiderId ensures ShiftOk(s', r) {
        StepKeepsShift(s, acts[|acts|-1], r);
      }
    }
  }

  /** Claims never outnumber AVAILABLE writes, and between two claims of a rider there is one. */
  lemma OneClaimPerShift(acts: seq<Action>, r: RiderId)
    ensures var s := Exec(acts);
            && Claims(s.journal, r) + (if IsAvailable(s, r) then 1 else 0) <= ShiftStarts(s.journal, r)
            && ClaimsSeparated(s.journal, r)
  {
    ShiftsAlways(acts);
    assert ShiftOk(Exec(acts), r);
  }
}
