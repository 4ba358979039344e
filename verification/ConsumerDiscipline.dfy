/** What holds inside a session: worker bound, single settlement, honest reports, orderly shutdown. */
module ConsumerDiscipline {
  import opened Sums
  import opened Settlement
  import opened ConsumerMachine
  import opened ConsumerInvariant

  function HandlersOf(x: nat): Attempt -> int {
    (a: Attempt) => if a.session == x && a.pc.Handling? then 1 else 0
  }

  /** Never more handlers at once than workers, and never more than one in a sequential session. */
  lemma {:induction false} HandlersBounded(p: Params, run: seq<Action>, x: nat)
    requires Exec(p, run).Some? && x < |Exec(p, run).value.sessions|
    ensures
      var s := Exec(p, run).value;
      && 0 <= Sum(s.attempts, HandlersOf(x)) <= s.sessions[x].workers
      && (s.sessions[x].inline ==> Sum(s.attempts, HandlersOf(x)) <= 1)
  {
    var s := Exec(p, run).value;
    RunsKeepInvariant(p, run);
    assert SessionOk(s, x);
    SumMonotone(s.attempts, HandlersOf(x), SlotsOf(x));
    SumNonNegative(s.attempts, HandlersOf(x));
  }

  /** The bound is used up: a delivery waiting for a slot gets one exactly when fewer than all workers are busy. */
  lemma {:induction false} FreeSlotIsTaken(p: Params, run: seq<Action>, x: nat)
    requires Exec(p, run).Some? && x < |Exec(p, run).value.sessions|
    requires Exec(p, run).value.sessions[x].loop.AwaitingSlot?
    ensures
      var s := Exec(p, run).value;
      Step(p, s, TakeSlot(x)).Some? <==> Sum(s.attempts, SlotsOf(x)) < s.sessions[x].workers
  {
    RunsKeepInvariant(p, run);
    assert SessionOk(Exec(p, run).value, x);
  }

  /** The settlement calls among a delivery's calls. */
  function Settlements(calls: seq<Call>): nat {
    if calls == [] then 0
    else Settlements(calls[..|calls| - 1]) + if calls[|calls| - 1].PublishRetry? then 0 else 1
  }

  /**
   * A delivery is settled at most once in any run; exactly once when its worker is through, and never when
   * it was not handled, so in particular not when it was abandoned waiting for a slot.
   */
  lemma {:induction false} SettledOnce(p: Params, run: seq<Action>, t: nat)
    requires Exec(p, run).Some? && t < |Exec(p, run).value.attempts|
    ensures
      var a := Exec(p, run).value.attempts[t];
      Settlements(a.calls) == if Issued(a.pc) then 1 else 0
  {
    RunsKeepInvariant(p, run);
    assert AttemptOk(p, Exec(p, run).value, t);
    SettledOnceOf(p, Exec(p, run).value.attempts[t]);
  }

  lemma SettledOnceOf(p: Params, a: Attempt)
    requires PhaseOk(p, a)
    ensures Settlements(a.calls) == if Issued(a.pc) then 1 else 0
  {
    if Issued(a.pc) {
      var before := a.calls[..|a.calls| - 1];
      assert SettledOk(p, a, a.pc.how);
      assert before != [] ==> before[..|before| - 1] == [];
      assert Settlements(before) == 0;
      assert Settlements(a.calls) == Settlements(before) + 1;
    } else if a.calls != [] {
      assert a.calls[..|a.calls| - 1] == [];
    }
  }

  /** The report handed to the instrumentation says what was really done, on every path of every run. */
  lemma {:induction false} ReportsAreHonest(p: Params, run: seq<Action>, t: nat)
    requires Exec(p, run).Some? && t < |Exec(p, run).value.attempts| && Issued(Exec(p, run).value.attempts[t].pc)
    ensures
      var a := Exec(p, run).value.attempts[t];
      && Honest(a.result, a.calls, a.frame.Enqueued? || a.frame.Unroutable?)
      && (a.result.failed <==> a.outcome != Succeeded)
      && (a.result.nonRetryable <==> a.outcome == NonRetryable)
  {
    RunsKeepInvariant(p, run);
    assert AttemptOk(p, Exec(p, run).value, t);
    HonestOf(p, Exec(p, run).value.attempts[t]);
  }

  lemma HonestOf(p: Params, a: Attempt)
    requires PhaseOk(p, a) && Issued(a.pc)
    ensures Honest(a.result, a.calls, a.frame.Enqueued? || a.frame.Unroutable?)
    ensures a.result.failed <==> a.outcome != Succeeded
    ensures a.result.nonRetryable <==> a.outcome == NonRetryable
  {
    assert SettledOk(p, a, a.pc.how);
  }

  /**
   * Our own close of a channel comes after everything its workers do: each delivery of a closed session
   * was either never handed to a worker, or is settled and its worker gone.
   */
  lemma {:induction false} CloseAfterWorkers(p: Params, run: seq<Action>, t: nat)
    requires Exec(p, run).Some? && t < |Exec(p, run).value.attempts|
    ensures
      var s := Exec(p, run).value;
      var a := s.attempts[t];
      && a.session < |s.sessions|
      && (s.sessions[a.session].loop.ChannelClosed? ==> a.pc.Buffered? || a.pc.Abandoned? || a.pc.Finished?)
  {
    var s := Exec(p, run).value;
    RunsKeepInvariant(p, run);
    assert AttemptOk(p, s, t);
    SlotCounted(s, t);
    assert SessionOk(s, s.attempts[t].session);
  }

  /** So a session that closes its channel in order never costs a handled delivery its settlement. */
  lemma {:induction false} OrderlyCloseNeverFaults(p: Params, run: seq<Action>, t: nat)
    requires Exec(p, run).Some? && t < |Exec(p, run).value.attempts|
    requires
      var s := Exec(p, run).value;
      s.attempts[t].session < |s.sessions| && !s.sessions[s.attempts[t].session].lost
    requires DoReturnToQueue(Exec(p, run).value, t).Some?
    ensures DoReturnToQueue(Exec(p, run).value, t).value.origins == Exec(p, run).value.origins
  {
    CloseAfterWorkers(p, run, t);
  }

  /**
   * An abandoned delivery sits on a channel whose loop is over. The channel can be closed as soon as the
   * session's workers are gone, and once it is, the broker can take the delivery back.
   */
  lemma {:induction false} AbandonedIsReturned(p: Params, run: seq<Action>, t: nat)
    requires Exec(p, run).Some? && t < |Exec(p, run).value.attempts| && Exec(p, run).value.attempts[t].pc.Abandoned?
    ensures
      var s := Exec(p, run).value;
      var a := s.attempts[t];
      && a.session < |s.sessions|
      && LoopOver(s.sessions[a.session].loop)
      && (s.sessions[a.session].loop.Exited? && s.sessions[a.session].inflight == 0 ==>
            DoCloseChannel(s, a.session).Some?)
      && (s.sessions[a.session].loop.ChannelClosed? && a.holds ==>
            && DoReturnToQueue(s, t).Some?
            && DoReturnToQueue(s, t).value.copies[a.copy].loc == Ready)
  {
    RunsKeepInvariant(p, run);
    assert AttemptOk(p, Exec(p, run).value, t);
  }

  // ----- the drain at the end of a session terminates -----

  /** The steps a worker still has to take at most. */
  function StepsLeft(pc: Pc): nat {
    match pc
    case Buffered | Waiting | Abandoned => 0
    case Started => 7
    case Handling => 6
    case Retrying => 5
    case Confirming => 4
    case Settling(_) => 3
    case Settled(_) => 2
    case Released(_) => 1
    case Finished(_) => 0
  }

  /** The next step of a running worker, given how its handler ends; a confirm that does not come times out. */
  function OwnStep(t: nat, pc: Pc, outcome: Outcome): Action {
    match pc
    case Started => CallHandler(t)
    case Handling => Return(t, outcome)
    case Retrying => Publish(t, true, false)
    case Confirming => Confirm(t, false)
    case Settling(_) => Settle(t)
    case Settled(_) => ReleaseSlot(t)
    case _ => FinishWorker(t)
  }

  /**
   * A running worker can always take its next step, whatever the other workers, the broker and the channel
   * do, and each of its steps brings it closer to its end: waiting for the workers before closing the
   * channel ends once the handlers return.
   */
  lemma {:induction false} WorkersFinish(p: Params, run: seq<Action>, t: nat, outcome: Outcome)
    requires Exec(p, run).Some? && t < |Exec(p, run).value.attempts| && Running(Exec(p, run).value.attempts[t].pc)
    ensures
      var s := Exec(p, run).value;
      var next := Step(p, s, OwnStep(t, s.attempts[t].pc, outcome));
      next.Some? && t < |next.value.attempts| && StepsLeft(next.value.attempts[t].pc) < StepsLeft(s.attempts[t].pc)
  {
    RunsKeepInvariant(p, run);
    var s := Exec(p, run).value;
    assert AttemptOk(p, s, t);
    if HoldsSlot(s.attempts[t].pc) && !s.attempts[t].pc.Settled? && !s.attempts[t].pc.Settling? {
      HandlingMovesOn(p, s, t, outcome);
    } else {
      SlotCounted(s, t);
      WindDownMovesOn(p, s, t, outcome);
    }
  }

  lemma HandlingMovesOn(p: Params, s: State, t: nat, outcome: Outcome)
    requires ValidTag(s, t) && PhaseOk(p, s.attempts[t])
    requires
      var pc := s.attempts[t].pc;
      pc.Started? || pc.Handling? || pc.Retrying? || pc.Confirming?
    ensures
      var next := Step(p, s, OwnStep(t, s.attempts[t].pc, outcome));
      next.Some? && t < |next.value.attempts| && StepsLeft(next.value.attempts[t].pc) < StepsLeft(s.attempts[t].pc)
  {
    match s.attempts[t].pc {
      case Started => assert DoCallHandler(s, t).Some?;
      case Handling => assert DoReturn(p, s, t, outcome).Some?;
      case Retrying => assert DoPublish(p, s, t, true, false).Some?;
      case Confirming => assert DoConfirm(s, t, false).Some?;
    }
  }

  lemma WindDownMovesOn(p: Params, s: State, t: nat, outcome: Outcome)
    requires ValidTag(s, t)
    requires s.attempts[t].pc.Settling? || s.attempts[t].pc.Settled? || s.attempts[t].pc.Released?
    requires s.attempts[t].pc.Settled? ==> s.sessions[s.attempts[t].session].sem > 0
    requires s.attempts[t].pc.Released? ==> s.sessions[s.attempts[t].session].inflight > 0
    ensures
      var next := Step(p, s, OwnStep(t, s.attempts[t].pc, outcome));
      next.Some? && t < |next.value.attempts| && StepsLeft(next.value.attempts[t].pc) < StepsLeft(s.attempts[t].pc)
  {
  }

  /** Worker `t` is where it was or further on. */
  predicate NotSetBack(s: State, n: State, t: nat)
    requires t < |s.attempts|
  {
    t < |n.attempts| && StepsLeft(n.attempts[t].pc) <= StepsLeft(s.attempts[t].pc)
  }

  predicate ByLoop(action: Action) {
    action.TakeSlot? || action.ExitLoop? || action.Receive? || action.Deliver?
  }

  lemma LoopSetsNobodyBack(p: Params, s: State, t: nat, action: Action)
    requires SessionInv(s) && t < |s.attempts| && Running(s.attempts[t].pc)
    requires ByLoop(action) && Step(p, s, action).Some?
    ensures NotSetBack(s, Step(p, s, action).value, t)
  {
    if (action.TakeSlot? || action.ExitLoop?) && s.sessions[action.session].loop.AwaitingSlot? {
      assert SessionOk(s, action.session);
    }
  }

  lemma WorkerSetsNobodyBack(p: Params, s: State, t: nat, action: Action)
    requires t < |s.attempts| && ByWorker(action) && Step(p, s, action).Some?
    ensures NotSetBack(s, Step(p, s, action).value, t)
  {
  }

  lemma BrokerSetsNobodyBack(p: Params, s: State, t: nat, action: Action)
    requires t < |s.attempts| && !ByWorker(action) && !ByLoop(action) && Step(p, s, action).Some?
    ensures NotSetBack(s, Step(p, s, action).value, t)
  {
  }

  /** No step of anyone else sets a worker back. */
  lemma {:induction false} WorkersNeverSetBack(p: Params, run: seq<Action>, t: nat, action: Action)
    requires Exec(p, run).Some? && t < |Exec(p, run).value.attempts| && Running(Exec(p, run).value.attempts[t].pc)
    requires Step(p, Exec(p, run).value, action).Some?
    ensures NotSetBack(Exec(p, run).value, Step(p, Exec(p, run).value, action).value, t)
  {
    var s := Exec(p, run).value;
    RunsKeepInvariant(p, run);
    if ByLoop(action) {
      LoopSetsNobodyBack(p, s, t, action);
    } else if ByWorker(action) {
      WorkerSetsNobodyBack(p, s, t, action);
    } else {
      BrokerSetsNobodyBack(p, s, t, action);
    }
  }
}
