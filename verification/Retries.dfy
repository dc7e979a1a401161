/** The retry loop around a payment transaction is one attempt: the attempts that fail to serialize
    leave nothing behind that any other call could see. */
module Retries {
  import opened Posting
  import opened Protocol
  import opened Frames

  /** Equal but for the attempt counter of one executing call. */
  ghost predicate SameButAttempt(s: System, q: System, id: nat) {
    && q == s.(calls := q.calls) && id in s.calls && id in q.calls && q.calls == s.calls[id := q.calls[id]]
    && s.calls[id].Executing? && q.calls[id].Executing? && q.calls[id] == s.calls[id].(attempt := q.calls[id].attempt)
  }

  lemma OtherStepAlike(s: System, q: System, id: nat, a: Action)
    requires SameButAttempt(s, q, id) && !(a.Advance? && a.id == id)
    ensures SameButAttempt(Next(s, a), Next(q, a), id)
  {
    match a
    case Expire(_) =>
    case Arrive(k, m) => if k !in s.calls { hide Begin; ArrivalAlike(s, q, k, m); }
    case Advance(k, t) => if k in s.calls { hide Resume; ResumeAlike(s, q, k, t); }
  }

  lemma {:induction false} OtherStepsAlike(s: System, q: System, id: nat, run: seq<Action>)
    requires SameButAttempt(s, q, id) && forall a :: a in run ==> !(a.Advance? && a.id == id)
    ensures SameButAttempt(Exec(s, run), Exec(q, run), id)
    decreases |run|
  {
    hide Next;
    if run != [] {
      OtherStepsAlike(s, q, id, run[..|run| - 1]);
      OtherStepAlike(Exec(s, run[..|run| - 1]), Exec(q, run[..|run| - 1]), id, run[|run| - 1]);
    }
  }

  // ---- The loop ----

  /** The run of a retry loop: before each of its first n attempts, whatever others do. */
  function Interleaved(id: nat, turns: seq<Turn>, others: seq<seq<Action>>, n: nat): seq<Action>
    requires n <= |turns| && n <= |others|
  {
    if n == 0 then [] else Interleaved(id, turns, others, n - 1) + (others[n - 1] + [Advance(id, turns[n - 1])])
  }

  /** What others do before the first n attempts, without the attempts. */
  function Without(others: seq<seq<Action>>, n: nat): seq<Action>
    requires n <= |others|
  {
    if n == 0 then [] else Without(others, n - 1) + others[n - 1]
  }

  predicate LacksAdvance(id: nat, run: seq<Action>) {
    forall a :: a in run ==> !(a.Advance? && a.id == id)
  }

  /** A call at the start of its loop, what the environment decides for each attempt, and what others
      do before each. */
  predicate LoopOf(s: System, id: nat, turns: seq<Turn>, others: seq<seq<Action>>) {
    && id in s.calls && s.calls[id].Executing? && s.calls[id].attempt == 1
    && |turns| == |others| == 5
    && forall i :: 0 <= i < |others| ==> LacksAdvance(id, others[i])
  }

  lemma InterleavedStep(s: System, id: nat, turns: seq<Turn>, others: seq<seq<Action>>, n: nat)
    requires n < |turns| && n < |others|
    ensures Exec(s, Interleaved(id, turns, others, n + 1))
         == Next(Exec(Exec(s, Interleaved(id, turns, others, n)), others[n]), Advance(id, turns[n]))
  {
    hide Next;
    var last := others[n] + [Advance(id, turns[n])];
    ExecAppend(s, Interleaved(id, turns, others, n), last);
    assert last[..|last| - 1] == others[n];
  }

  /** The n failed attempts so far show in the attempt counter only. */
  ghost predicate NoTrace(s: System, id: nat, turns: seq<Turn>, others: seq<seq<Action>>, n: nat)
    requires n <= |turns| && n <= |others|
  {
    var y := Exec(s, Interleaved(id, turns, others, n));
    SameButAttempt(Exec(s, Without(others, n)), y, id) && y.calls[id].attempt == n + 1
  }

  /** So they do while others go on before the next attempt. */
  ghost predicate NoTraceThen(s: System, id: nat, turns: seq<Turn>, others: seq<seq<Action>>, n: nat)
    requires n <= |turns| && n < |others|
  {
    var y := Exec(Exec(s, Interleaved(id, turns, others, n)), others[n]);
    SameButAttempt(Exec(s, Without(others, n + 1)), y, id) && y.calls[id].attempt == n + 1
  }

  lemma OthersGoOn(s: System, id: nat, turns: seq<Turn>, others: seq<seq<Action>>, n: nat)
    requires n <= |turns| && n < |others| && LacksAdvance(id, others[n]) && NoTrace(s, id, turns, others, n)
    ensures NoTraceThen(s, id, turns, others, n)
  {
    var x, y := Exec(s, Without(others, n)), Exec(s, Interleaved(id, turns, others, n));
    assert Without(others, n + 1) == Without(others, n) + others[n];
    hide Exec, Next, Interleaved, Without;
    ExecAppend(s, Without(others, n), others[n]);
    OtherStepsAlike(x, y, id, others[n]);
    OthersKeepCallOverRun(y, others[n], id);
  }

  lemma OneMoreFailure(s: System, id: nat, turns: seq<Turn>, others: seq<seq<Action>>, n: nat)
    requires n < |turns| && n < |others| && n < SERIALIZABLE_RETRIES - 1 && turns[n].conflict
    requires NoTraceThen(s, id, turns, others, n)
    ensures NoTrace(s, id, turns, others, n + 1)
  {
    hide Exec, Next, Interleaved, Without;
    InterleavedStep(s, id, turns, others, n);
    ConflictOnlyCounts(Exec(Exec(s, Interleaved(id, turns, others, n)), others[n]), id, turns[n]);
  }

  lemma NothingFailed(s: System, id: nat, turns: seq<Turn>, others: seq<seq<Action>>)
    requires LoopOf(s, id, turns, others)
    ensures NoTrace(s, id, turns, others, 0)
  {
    hide Next;
  }

  /** Any number of failed attempts short of the limit is as if they had not been made, also while
      others go on before the next attempt. */
  lemma {:induction false} FailedAttemptsLeaveNoTrace(
    s: System, id: nat, turns: seq<Turn>, others: seq<seq<Action>>, n: nat)
    requires LoopOf(s, id, turns, others) && n < 5
    requires forall i :: 0 <= i < n ==> turns[i].conflict
    ensures NoTrace(s, id, turns, others, n) && NoTraceThen(s, id, turns, others, n)
    decreases n
  {
    hide NoTrace, NoTraceThen;
    if n == 0 {
      NothingFailed(s, id, turns, others);
    } else {
      FailedAttemptsLeaveNoTrace(s, id, turns, others, n - 1);
      OneMoreFailure(s, id, turns, others, n - 1);
    }
    OthersGoOn(s, id, turns, others, n);
  }

  lemma ConflictOnlyCounts(s: System, id: nat, t: Turn)
    requires id in s.calls && s.calls[id].Executing? && s.calls[id].attempt < SERIALIZABLE_RETRIES && t.conflict
    ensures Next(s, Advance(id, t)) == s.(calls := s.calls[id := s.calls[id].(attempt := s.calls[id].attempt + 1)])
  {
    var s' := AttemptStep(s, id, t);
  }

  /** The loop refines one atomic attempt: for every pattern of serialization failures and whatever
      others do before each attempt, the last included, the state after its last attempt is the
      state after that attempt alone. */
  lemma LoopIsOneAttempt(s: System, id: nat, turns: seq<Turn>, others: seq<seq<Action>>, n: nat)
    requires LoopOf(s, id, turns, others) && n < 5
    requires (forall i :: 0 <= i < n ==> turns[i].conflict) && !turns[n].conflict
    ensures Exec(s, Interleaved(id, turns, others, n + 1)) == Exec(s, Without(others, n + 1) + [Advance(id, turns[n])])
  {
    hide Next;
    FailedAttemptsLeaveNoTrace(s, id, turns, others, n);
    InterleavedStep(s, id, turns, others, n);
    var quiet := Without(others, n + 1);
    assert (quiet + [Advance(id, turns[n])])[..|quiet|] == quiet;
    SameOutcome(Exec(s, quiet), Exec(Exec(s, Interleaved(id, turns, others, n)), others[n]), id, turns[n]);
  }

  lemma SameOutcome(x: System, y: System, id: nat, t: Turn)
    requires SameButAttempt(x, y, id) && !t.conflict
    ensures Next(x, Advance(id, t)) == Next(y, Advance(id, t))
  {
    hide Next, PaymentTx, Commits;
    var x' := AttemptStep(x, id, t);
    var y' := AttemptStep(y, id, t);
    assert y.calls[id := x'.calls[id]] == x.calls[id := x'.calls[id]];
  }

  /** When all five attempts fail the call throws and nothing has happened but what others did. */
  lemma ExhaustedLoopLeavesNoTrace(s: System, id: nat, turns: seq<Turn>, others: seq<seq<Action>>)
    requires LoopOf(s, id, turns, others) && forall i :: 0 <= i < 5 ==> turns[i].conflict
    ensures var e, c := Exec(s, Without(others, 5)), s.calls[id];
            Exec(s, Interleaved(id, turns, others, 5))
            == e.(calls := e.calls[id := Paid(c.user, c.key, c.request, Throw(SerializationFailure))])
  {
    var n := 5 - 1;
    hide Next, PaymentTx, Commits;
    FailedAttemptsLeaveNoTrace(s, id, turns, others, n);
    InterleavedStep(s, id, turns, others, n);
    WithoutLacks(id, others, n + 1);
    OthersKeepCallOverRun(s, Without(others, n + 1), id);
    LastConflictThrows(Exec(s, Without(others, n + 1)), Exec(Exec(s, Interleaved(id, turns, others, n)), others[n]), id,
      turns[n]);
  }

  lemma LastConflictThrows(x: System, y: System, id: nat, t: Turn)
    requires SameButAttempt(x, y, id) && y.calls[id].attempt == SERIALIZABLE_RETRIES && t.conflict
    ensures var c := x.calls[id];
            Next(y, Advance(id, t))
              == x.(calls := x.calls[id := Paid(c.user, c.key, c.request, Throw(SerializationFailure))])
  {
    hide Next, PaymentTx, Commits;
    var y' := AttemptStep(y, id, t);
    assert y.calls[id := y'.calls[id]] == x.calls[id := y'.calls[id]];
  }

  lemma {:induction false} WithoutLacks(id: nat, others: seq<seq<Action>>, n: nat)
    requires n <= |others| && forall i :: 0 <= i < |others| ==> LacksAdvance(id, others[i])
    ensures LacksAdvance(id, Without(others, n))
    decreases n
  {
    if n > 0 {
      WithoutLacks(id, others, n - 1);
      assert LacksAdvance(id, others[n - 1]);
    }
  }
}
