/**
 The Kafka consumer loop of pkg/kafka: one partition, one consumer, cumulative offset
 commits that may fail, and restarts that resume from the committed offset.
 */
module Consumer {

  /** One turn of the loop, or a restart of the process between two runs of it. */
  datatype Turn = FetchFailed | Message(handled: bool, commitOk: bool) | Restart

  datatype Delivery = Delivery(offset: nat, handled: bool)

  /** `delivered` is history: every message handed to the handler, in order. */
  datatype Progress = Progress(position: nat, committed: nat, delivered: seq<Delivery>)

  const START := Progress(0, 0, [])

  function Turned(c: Progress, t: Turn): Progress {
    match t
    case FetchFailed => c
    case Message(handled, commitOk) =>
      Progress(c.position + 1,
               if handled && commitOk then c.position + 1 else c.committed,
               c.delivered + [Delivery(c.position, handled)])
    case Restart => c.(position := c.committed)
  }

  function After(c: Progress, turns: seq<Turn>): Progress
    decreases |turns|
  {
    if turns == [] then c else After(Turned(c, turns[0]), turns[1..])
  }

  lemma {:induction false} AfterAppend(c: Progress, turns: seq<Turn>, more: seq<Turn>)
    ensures After(c, turns + more) == After(After(c, turns), more)
    decreases |turns|
  {
    if turns == [] {
      assert turns + more == more;
    } else {
      assert (turns + more)[1..] == turns[1..] + more;
      AfterAppend(Turned(c, turns[0]), turns[1..], more);
    }
  }

  // ----- Between restarts

  /** The turns in which a message was handed to the handler. */
  function Messages(turns: seq<Turn>): seq<Turn> {
    if turns == [] then [] else (if turns[0].Message? then [turns[0]] else []) + Messages(turns[1..])
  }

  /** How many messages there are up to the last one whose commit went through. */
  function LastCommitted(messages: seq<Turn>): nat {
    if messages == [] then 0
    else if SuccessfulCommit(messages[|messages|-1]) then |messages|
    else LastCommitted(messages[..|messages|-1])
  }

  /**
   Consecutive offsets were handed out, each once and whether or not the commits went through;
   the committed offset is the one after the last message that was handled and committed.
   */
  ghost predicate Advanced(c: Progress, c': Progress, messages: seq<Turn>) {
    && c'.position == c.position + |messages|
    && |c'.delivered| == |c.delivered| + |messages| && c.delivered <= c'.delivered
    && (forall i :: 0 <= i < |messages| && messages[i].Message? ==>
          c'.delivered[|c.delivered| + i] == Delivery(c.position + i, messages[i].handled))
    && c'.committed == if LastCommitted(messages) == 0 then c.committed else c.position + LastCommitted(messages)
  }

  lemma {:induction false} LastCommittedCons(t: Turn, messages: seq<Turn>)
    ensures LastCommitted([t] + messages) ==
            if LastCommitted(messages) > 0 then 1 + LastCommitted(messages)
            else if SuccessfulCommit(t) then 1 else 0
  {
    var all := [t] + messages;
    if messages == [] {
      assert all[..0] == [];
    } else {
      assert all[..|all|-1] == [t] + messages[..|messages|-1];
      LastCommittedCons(t, messages[..|messages|-1]);
    }
  }

  /** Between restarts the loop hands out consecutive offsets, each once. */
  lemma {:induction false} OffsetsAreConsecutive(c: Progress, turns: seq<Turn>)
    requires forall i :: 0 <= i < |turns| ==> turns[i] != Restart
    ensures Advanced(c, After(c, turns), Messages(turns))
    decreases |turns|
  {
    if turns != [] {
      OffsetsAreConsecutive(Turned(c, turns[0]), turns[1..]);
      if turns[0].Message? {
        LastCommittedCons(turns[0], Messages(turns[1..]));
        assert Messages(turns) == [turns[0]] + Messages(turns[1..]);
      } else {
        assert Messages(turns) == Messages(turns[1..]);
      }
    }
  }

  /** The loop as the code runs it, on a reader that keeps its own fetch position. */
  class Loop {
    var position: nat
    var committed: nat
    ghost var delivered: seq<Delivery>

    ghost function State(): Progress
      reads this
    {
      Progress(position, committed, delivered)
    }

    constructor ()
      ensures State() == START
    {
      position, committed, delivered := 0, 0, [];
    }

    /** Consumer.Run until its context is cancelled, after any number of turns. */
    method Run(turns: seq<Turn>)
      requires forall i :: 0 <= i < |turns| ==> turns[i] != Restart
      modifies this
      ensures State() == After(old(State()), turns)
      ensures Advanced(old(State()), State(), Messages(turns))
    {
      for i := 0 to |turns|
        invariant State() == After(old(State()), turns[..i])
      {
        AfterAppend(old(State()), turns[..i], [turns[i]]);
        assert turns[..i] + [turns[i]] == turns[..i+1];
        if turns[i] == FetchFailed {
          continue;
        }
        var offset := position;
        position := position + 1;
        delivered := delivered + [Delivery(offset, turns[i].handled)];
        if !turns[i].handled {
          continue;
        }
        if turns[i].commitOk {
          committed := offset + 1;
        }
      }
      assert turns[..|turns|] == turns;
      OffsetsAreConsecutive(old(State()), turns);
    }

    /** A new reader joins the group at the committed offset. */
    method Reopen()
      modifies this
      ensures State() == After(old(State()), [Restart])
      ensures position == committed == old(committed) && delivered == old(delivered)
    {
      position := committed;
    }
  }

  // ----- Offsets over all runs

  ghost predicate WasDelivered(delivered: seq<Delivery>, k: nat) {
    exists i :: 0 <= i < |delivered| && delivered[i].offset == k
  }

  /** The fetch position is never behind the commits, and nothing before it was passed over unseen. */
  ghost predicate ProgressOk(c: Progress) {
    c.committed <= c.position && forall k: nat :: k < c.position ==> WasDelivered(c.delivered, k)
  }

  lemma TurnKeepsOk(c: Progress, t: Turn)
    requires ProgressOk(c)
    ensures ProgressOk(Turned(c, t)) && c.committed <= Turned(c, t).committed && c.delivered <= Turned(c, t).delivered
  {
    var c' := Turned(c, t);
    forall k: nat | k < c'.position ensures WasDelivered(c'.delivered, k) {
      if k < c.position {
        assert WasDelivered(c.delivered, k);
        var i :| 0 <= i < |c.delivered| && c.delivered[i].offset == k;
        assert c'.delivered[i].offset == k;
      } else {
        assert c'.delivered[|c.delivered|].offset == k;
      }
    }
  }

  lemma {:induction false} RunKeepsOk(c: Progress, turns: seq<Turn>)
    requires ProgressOk(c)
    ensures ProgressOk(After(c, turns)) && c.committed <= After(c, turns).committed
            && c.delivered <= After(c, turns).delivered
    decreases |turns|
  {
    if turns != [] {
      TurnKeepsOk(c, turns[0]);
      RunKeepsOk(Turned(c, turns[0]), turns[1..]);
    }
  }

  /**
   Over any run with restarts and failing commits the committed offset never moves back,
   and all below it was delivered.
   */
  lemma CommittedOffsetsAreSound(turns: seq<Turn>, more: seq<Turn>)
    ensures After(START, turns).committed <= After(START, turns + more).committed
    ensures forall k: nat :: k < After(START, turns).committed ==> WasDelivered(After(START, turns).delivered, k)
  {
    RunKeepsOk(START, turns);
    RunKeepsOk(After(START, turns), more);
    AfterAppend(START, turns, more);
  }

  // ----- When a failed message comes back

  /** Offset k was handed to the handler during the turns that led from c to c'. */
  ghost predicate DeliveredSince(c: Progress, c': Progress, k: nat) {
    exists i :: |c.delivered| <= i < |c'.delivered| && c'.delivered[i].offset == k
  }

  /** Delivered again, or next in line to be. */
  ghost predicate ComesBack(c: Progress, c': Progress, k: nat) {
    DeliveredSince(c, c', k) || c'.position <= k
  }

  predicate SuccessfulCommit(t: Turn) {
    t.Message? && t.handled && t.commitOk
  }

  ghost predicate RestartBeforeCommit(turns: seq<Turn>) {
    turns != [] && !SuccessfulCommit(turns[0]) && (turns[0] == Restart || RestartBeforeCommit(turns[1..]))
  }

  lemma {:induction false} StaysDue(origin: Progress, c: Progress, turns: seq<Turn>, k: nat)
    requires ProgressOk(c) && origin.delivered <= c.delivered && ComesBack(origin, c, k)
    ensures ComesBack(origin, After(c, turns), k)
    decreases |turns|
  {
    if turns != [] {
      var c1 := Turned(c, turns[0]);
      TurnKeepsOk(c, turns[0]);
      if DeliveredSince(origin, c, k) {
        var i :| |origin.delivered| <= i < |c.delivered| && c.delivered[i].offset == k;
        assert c1.delivered[i].offset == k;
      } else if c1.position > k {
        assert c1.delivered[|c.delivered|].offset == k;
      }
      StaysDue(origin, c1, turns[1..], k);
    }
  }

  lemma {:induction false} NeverAgain(origin: Progress, c: Progress, turns: seq<Turn>, k: nat)
    requires ProgressOk(c) && origin.delivered <= c.delivered && !DeliveredSince(origin, c, k) && k < c.committed
    ensures !ComesBack(origin, After(c, turns), k)
    decreases |turns|
  {
    if turns != [] {
      var c1 := Turned(c, turns[0]);
      TurnKeepsOk(c, turns[0]);
      assert forall i :: 0 <= i < |c.delivered| ==> c1.delivered[i] == c.delivered[i];
      NeverAgain(origin, c1, turns[1..], k);
    }
  }

  lemma {:induction false} ComesBackIff(origin: Progress, c: Progress, turns: seq<Turn>, k: nat)
    requires ProgressOk(c) && origin.delivered <= c.delivered && !DeliveredSince(origin, c, k)
             && c.committed <= k < c.position
    ensures ComesBack(origin, After(c, turns), k) <==> RestartBeforeCommit(turns)
    decreases |turns|
  {
    if turns != [] {
      var c1 := Turned(c, turns[0]);
      TurnKeepsOk(c, turns[0]);
      assert forall i :: 0 <= i < |c.delivered| ==> c1.delivered[i] == c.delivered[i];
      if turns[0] == Restart {
        StaysDue(origin, c1, turns[1..], k);
      } else if SuccessfulCommit(turns[0]) {
        NeverAgain(origin, c1, turns[1..], k);
      } else {
        ComesBackIff(origin, c1, turns[1..], k);
      }
    }
  }

  /**
   A message whose handler failed is delivered again, or is the next to be, exactly when a
   restart comes before any later successful commit. Otherwise it is skipped for good.
   */
  lemma FailedMessageComesBackIff(turns: seq<Turn>, commitOk: bool, more: seq<Turn>)
    ensures var c := After(START, turns);
            var failed := After(START, turns + [Message(false, commitOk)]);
            ComesBack(failed, After(failed, more), c.position) <==> RestartBeforeCommit(more)
  {
    RunKeepsOk(START, turns);
    AfterAppend(START, turns, [Message(false, commitOk)]);
    var c := After(START, turns);
    TurnKeepsOk(c, Message(false, commitOk));
    var failed := Turned(c, Message(false, commitOk));
    assert After(c, [Message(false, commitOk)]) == failed;
    ComesBackIff(failed, failed, more, c.position);
  }

  /** So a failed message followed by a committed one is lost to the handler, whatever comes after. */
  lemma FailureThenCommitSkips(turns: seq<Turn>, more: seq<Turn>)
    ensures var k := After(START, turns).position;
            var failed := After(START, turns + [Message(false, false)]);
            !DeliveredSince(failed, After(failed, [Message(true, true)] + more), k)
  {
    FailedMessageComesBackIff(turns, false, [Message(true, true)] + more);
  }

  /** A message that was handled and whose commit succeeded is never delivered again. */
  lemma HandledAndCommittedIsFinal(turns: seq<Turn>, more: seq<Turn>)
    ensures var k := After(START, turns).position;
            var done := After(START, turns + [Message(true, true)]);
            !ComesBack(done, After(done, more), k)
  {
    RunKeepsOk(START, turns);
    AfterAppend(START, turns, [Message(true, true)]);
    var c := After(START, turns);
    TurnKeepsOk(c, Message(true, true));
    var done := Turned(c, Message(true, true));
    assert After(c, [Message(true, true)]) == done;
    NeverAgain(done, done, more, c.position);
  }
}
