/**
 The order lifecycle graph of internal/order/statemachine.go, and what follows for a
 sequence of statuses from knowing only that its steps, or its entries, respect the graph.
 */
module Lifecycle {
  import opened Options

  /** `Other` stands for every string that is not one of the six known statuses. */
  datatype Status = Placed | Accepted | Preparing | PickedUp | Delivered | Cancelled | Other(name: string)

  datatype TransitionError = UnknownState(from: Status) | IllegalTransition(from: Status, to: Status)

  /** The transition table: the allowed successors of each known status. */
  function Successors(from: Status): Option<set<Status>> {
    match from
    case Placed => Some({Accepted, Cancelled})
    case Accepted => Some({Preparing, Cancelled})
    case Preparing => Some({PickedUp, Cancelled})
    case PickedUp => Some({Delivered, Cancelled})
    case Delivered => Some({})
    case Cancelled => Some({})
    case Other(_) => None
  }

  /** How far along its life an order is; both final statuses share the last rank. */
  function Rank(s: Status): int {
    match s
    case Placed => 0
    case Accepted => 1
    case Preparing => 2
    case PickedUp => 3
    case Delivered => 4
    case Cancelled => 4
    case Other(_) => -1
  }

  predicate Final(s: Status) {
    s == Delivered || s == Cancelled
  }

  /**
   A move is accepted exactly when the order is active and moves one rank up the main line
   or is cancelled; the two errors separate unknown sources from illegal targets.
   */
  function ValidateTransition(from: Status, to: Status): (r: Result<(), TransitionError>)
    ensures r.Ok? <==> 0 <= Rank(from) < 4 && (to == Cancelled || (Rank(to) == Rank(from) + 1 && to != Cancelled))
    ensures r.Err? ==> r.error == if Rank(from) == -1 then UnknownState(from) else IllegalTransition(from, to)
  {
    match Successors(from)
    case None => Err(UnknownState(from))
    case Some(allowed) => if to in allowed then Ok(()) else Err(IllegalTransition(from, to))
  }

  predicate Legal(from: Status, to: Status) {
    ValidateTransition(from, to).Ok?
  }

  // ----- Histories whose every entry was legal from some earlier entry

  /** The history starts with PLACED and each later entry has an earlier entry with an edge to it. */
  ghost predicate Supported(h: seq<Status>) {
    && (|h| > 0 ==> h[0] == Placed)
    && forall k :: 0 < k < |h| ==> HasSource(h[..k], h[k])
  }

  ghost predicate HasSource(past: seq<Status>, to: Status) {
    exists i :: 0 <= i < |past| && Legal(past[i], to)
  }

  lemma SupportedExtend(h: seq<Status>, to: Status)
    requires Supported(h) && |h| > 0 && HasSource(h, to)
    ensures Supported(h + [to])
  {
    var h' := h + [to];
    forall k | 0 < k < |h'| ensures HasSource(h'[..k], h'[k]) {
      if k < |h| {
        assert h'[..k] == h[..k];
      } else {
        assert h'[..k] == h;
      }
    }
  }

  /** PLACED is the first entry and never comes back, however the writers raced. */
  lemma PlacedNeverRecurs(h: seq<Status>, k: nat)
    requires Supported(h) && 0 < k < |h|
    ensures h[k] != Placed
  {
    var i :| 0 <= i < |h[..k]| && Legal(h[..k][i], h[k]);
  }

  /** An entry of rank k on the main line has the entry one rank below it somewhere before it. */
  lemma PredecessorBefore(h: seq<Status>, k: nat) returns (i: nat)
    requires Supported(h) && 0 < k < |h| && h[k] != Cancelled
    ensures i < k && Rank(h[i]) == Rank(h[k]) - 1 && Rank(h[i]) >= 0 && h[i] != Cancelled
  {
    assert HasSource(h[..k], h[k]);
    i :| 0 <= i < |h[..k]| && Legal(h[..k][i], h[k]);
  }

  ghost predicate WentThroughAll(h: seq<Status>, d: nat) {
    d < |h| && exists a, p, u ::
      0 < a < p < u < d && h[0] == Placed && h[a] == Accepted && h[p] == Preparing && h[u] == PickedUp
  }

  /** A delivered order went through every stage of the main line, in order. */
  lemma DeliveredWentThroughAll(h: seq<Status>, d: nat)
    requires Supported(h) && d < |h| && h[d] == Delivered
    ensures WentThroughAll(h, d)
  {
    var u := PredecessorBefore(h, d);
    var p := PredecessorBefore(h, u);
    var a := PredecessorBefore(h, p);
    assert h[u] == PickedUp && h[p] == Preparing && h[a] == Accepted && a > 0;
  }

  // ----- Histories that are paths of the graph

  ghost predicate Path(h: seq<Status>) {
    && (|h| > 0 ==> h[0] == Placed)
    && forall k :: 0 < k < |h| ==> Legal(h[k-1], h[k])
  }

  lemma {:induction false} RankIncreases(h: seq<Status>, i: nat, j: nat)
    requires Path(h) && i < j < |h|
    ensures 0 <= Rank(h[i]) && Rank(h[i]) + (j - i) <= Rank(h[j]) <= 4
  {
    assert Legal(h[j-1], h[j]);
    if i < j - 1 {
      RankIncreases(h, i, j - 1);
    }
  }

  /** A path rises in rank at every step, so it is short, never repeats, and ends at a final status. */
  lemma PathIsShort(h: seq<Status>)
    requires Path(h)
    ensures |h| <= 5
    ensures forall i, j :: 0 <= i < j < |h| ==> Rank(h[i]) < Rank(h[j]) && h[i] != h[j]
    ensures forall i :: 0 <= i < |h| && Final(h[i]) ==> i == |h| - 1
  {
    forall i, j | 0 <= i < j < |h| ensures Rank(h[i]) < Rank(h[j]) && h[i] != h[j] {
      RankIncreases(h, i, j);
    }
    if |h| > 5 {
      RankIncreases(h, 0, |h| - 1);
    }
    forall i | 0 <= i < |h| && Final(h[i]) ensures i == |h| - 1 {
      if i < |h| - 1 {
        RankIncreases(h, i, i + 1);
      }
    }
  }
}
