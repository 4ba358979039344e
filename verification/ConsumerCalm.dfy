/** Runs that nothing outside disturbs: for which messages the code itself brings every failure to an end. */
module ConsumerCalm {
  import opened Options
  import opened Retry
  import opened ConsumerMachine
  import opened ConsumerInvariant
  import opened ConsumerRuns
  import opened ConsumerSafety
  import opened ConsumerWork

  /**
   * Every retry of this message can be encoded and confirmed: none is due, or confirms are on and the counter
   * stays in int32 as far as it can get.
   */
  predicate RetriesWork(p: Params, msg: Delivery) {
    || Count(msg) >= p.cfg.maxRetries
    || (&& 0 < p.cfg.maxRetries && MIN_INT32 - 1 <= Count(msg)
        && (p.cfg.maxRetries <= MAX_INT32 || (Count(msg) < MAX_INT32 && !RetryReturns(p, msg))))
  }

  /**
   * No channel is lost, a delivery that was taken back unsettled is on a channel that was closed in order, and
   * one that waits for a confirm has been published.
   */
  ghost predicate CalmInv(p: Params, s: State) {
    && (forall x :: 0 <= x < |s.sessions| ==> !s.sessions[x].lost)
    && (forall t :: 0 <= t < |s.attempts| ==> InOrder(s, s.attempts[t]))
    && (forall o :: 0 <= o < |s.origins| ==> FaultFree(p, s.origins[o]))
  }

  predicate InOrder(s: State, a: Attempt) {
    && (!a.holds && !Issued(a.pc) && a.session < |s.sessions| ==> s.sessions[a.session].loop.ChannelClosed?)
    && (a.pc == Confirming ==> a.frame != NoFrame)
  }

  predicate FaultFree(p: Params, o: Origin) {
    RetriesWork(p, o.msg) ==> o.faults == 0
  }

  /** A running worker that has not settled its delivery yet still holds it. */
  lemma RunningHolds(p: Params, s: State, t: nat)
    requires DataInv(p, s) && SessionInv(s) && CalmInv(p, s)
    requires t < |s.attempts| && Running(s.attempts[t].pc) && !Issued(s.attempts[t].pc)
    ensures s.attempts[t].holds
  {
    assert AttemptOk(p, s, t) && InOrder(s, s.attempts[t]);
    assert SessionOk(s, s.attempts[t].session);
    SlotCounted(s, t);
  }

  /** The retry of a message whose retries work gets a counter that fits, on a channel with confirms. */
  lemma RetryWorks(p: Params, s: State, t: nat)
    requires DataInv(p, s) && t < |s.attempts| && s.attempts[t].pc == Retrying && AttemptOk(p, s, t)
    requires RetriesWork(p, s.origins[s.attempts[t].origin].msg)
    ensures
      var a := s.attempts[t];
      && 0 < p.cfg.maxRetries && a.count < MAX_INT64
      && RetryPublishing(s.copies[a.copy].msg, a.count + 1).Some?
  {
    var a := s.attempts[t];
    assert CopyOk(p, s, a.copy) && OriginOk(s, a.origin);
    assert a.copy == s.origins[a.origin].first || RetryReturns(p, s.origins[a.origin].msg);
    RetryEncodesIff(s.copies[a.copy].msg, p.cfg.exchange, p.key, p.cfg.maxRetries);
  }

  /** What a step must leave as it is for the calm to last. */
  ghost predicate StaysCalm(p: Params, s: State, n: State) {
    && |s.sessions| <= |n.sessions| && |s.attempts| <= |n.attempts|
    && (forall x :: 0 <= x < |n.sessions| ==> !n.sessions[x].lost)
    && (forall x :: 0 <= x < |s.sessions| && s.sessions[x].loop.ChannelClosed? ==> n.sessions[x].loop.ChannelClosed?)
  }

  lemma LoopStepStaysCalm(p: Params, s: State, action: Action)
    requires DataInv(p, s) && SessionInv(s) && CalmInv(p, s) && !ByWorker(action) && Quiet(action)
    requires Step(p, s, action).Some?
    ensures StaysCalm(p, s, Step(p, s, action).value)
  {
  }

  lemma WorkerStepStaysCalm(p: Params, s: State, action: Action)
    requires CalmInv(p, s) && ByWorker(action) && Step(p, s, action).Some?
    ensures StaysCalm(p, s, Step(p, s, action).value)
  {
  }

  /** Deliveries are taken back unsettled only from a closed channel. */
  lemma InOrderStays(p: Params, s: State, action: Action, t: nat)
    requires DataInv(p, s) && SessionInv(s) && CalmInv(p, s) && Quiet(action) && Step(p, s, action).Some?
    requires StaysCalm(p, s, Step(p, s, action).value) && t < |Step(p, s, action).value.attempts|
    ensures InOrder(Step(p, s, action).value, Step(p, s, action).value.attempts[t])
  {
    if t < |s.attempts| {
      assert AttemptOk(p, s, t) && InOrder(s, s.attempts[t]);
      ConfirmingWasPublished(p, s, action, t);
      if ByWorker(action) {
        WorkerKeepsHold(p, s, action, t);
      } else {
        OtherKeepsHold(p, s, action, t);
      }
    } else {
      NewAttemptIsHeld(p, s, action, t);
    }
  }

  lemma NewAttemptIsHeld(p: Params, s: State, action: Action, t: nat)
    requires Step(p, s, action).Some? && |s.attempts| <= t < |Step(p, s, action).value.attempts|
    ensures Step(p, s, action).value.attempts[t].holds && Step(p, s, action).value.attempts[t].pc == Buffered
  {
  }

  lemma ConfirmingWasPublished(p: Params, s: State, action: Action, t: nat)
    requires (forall x :: 0 <= x < |s.sessions| ==> !s.sessions[x].lost) && Quiet(action) && Step(p, s, action).Some?
    requires t < |s.attempts| && (s.attempts[t].pc == Confirming ==> s.attempts[t].frame != NoFrame)
    ensures
      var n := Step(p, s, action).value;
      t < |n.attempts| && (n.attempts[t].pc == Confirming ==> n.attempts[t].frame != NoFrame)
  {
    if ByWorker(action) {
      WorkerConfirming(p, s, action, t);
    } else {
      OtherConfirming(p, s, action, t);
    }
  }

  lemma WorkerConfirming(p: Params, s: State, action: Action, t: nat)
    requires ByWorker(action)
    requires (forall x :: 0 <= x < |s.sessions| ==> !s.sessions[x].lost) && Quiet(action) && Step(p, s, action).Some?
    requires t < |s.attempts| && (s.attempts[t].pc == Confirming ==> s.attempts[t].frame != NoFrame)
    ensures
      var n := Step(p, s, action).value;
      t < |n.attempts| && (n.attempts[t].pc == Confirming ==> n.attempts[t].frame != NoFrame)
  {
  }

  lemma OtherConfirming(p: Params, s: State, action: Action, t: nat)
    requires !ByWorker(action) && Step(p, s, action).Some?
    requires t < |s.attempts| && (s.attempts[t].pc == Confirming ==> s.attempts[t].frame != NoFrame)
    ensures
      var n := Step(p, s, action).value;
      t < |n.attempts| && (n.attempts[t].pc == Confirming ==> n.attempts[t].frame != NoFrame)
  {
  }

  lemma WorkerKeepsHold(p: Params, s: State, action: Action, t: nat)
    requires ByWorker(action) && Step(p, s, action).Some? && t < |s.attempts|
    ensures
      var n := Step(p, s, action).value;
      && t < |n.attempts| && n.attempts[t].holds == s.attempts[t].holds
      && n.attempts[t].session == s.attempts[t].session
      && (Issued(s.attempts[t].pc) ==> Issued(n.attempts[t].pc))
  {
  }

  lemma OtherKeepsHold(p: Params, s: State, action: Action, t: nat)
    requires SessionInv(s) && !ByWorker(action) && Step(p, s, action).Some? && t < |s.attempts|
    requires forall x :: 0 <= x < |s.sessions| ==> !s.sessions[x].lost
    ensures
      var n := Step(p, s, action).value;
      && t < |n.attempts| && n.attempts[t].session == s.attempts[t].session
      && (Issued(s.attempts[t].pc) ==> Issued(n.attempts[t].pc))
      && (n.attempts[t].holds == s.attempts[t].holds
          || Issued(s.attempts[t].pc)
          || (action.ReturnToQueue? && s.attempts[t].session < |s.sessions|
              && s.sessions[s.attempts[t].session].loop.ChannelClosed?))
  {
    if (action.TakeSlot? || action.ExitLoop?) && s.sessions[action.session].loop.AwaitingSlot? {
      assert SessionOk(s, action.session);
    }
  }

  /** The steps that can put the blame on a message do not, if its retries work. */
  lemma NoBlame(p: Params, s: State, action: Action, o: nat)
    requires DataInv(p, s) && SessionInv(s) && CalmInv(p, s) && Quiet(action) && Step(p, s, action).Some?
    requires o < |s.origins| && RetriesWork(p, s.origins[o].msg)
    ensures
      var n := Step(p, s, action).value;
      o < |n.origins| && n.origins[o].msg == s.origins[o].msg && n.origins[o].faults == s.origins[o].faults
  {
    if action.CallHandler? {
      RunningHolds(p, s, action.tag);
    } else if action.Publish? {
      assert AttemptOk(p, s, action.tag);
      PublishNoBlame(p, s, action.tag, o);
    } else if action.ReturnToQueue? {
      ReturnNoBlame(p, s, action.tag);
    } else {
      OthersNoBlame(p, s, action, o);
    }
  }

  lemma PublishNoBlame(p: Params, s: State, t: nat, o: nat)
    requires DataInv(p, s) && DoPublish(p, s, t, true, false).Some? && AttemptOk(p, s, t)
    requires o < |s.origins| && RetriesWork(p, s.origins[o].msg)
    ensures
      var n := DoPublish(p, s, t, true, false).value;
      o < |n.origins| && n.origins[o].msg == s.origins[o].msg && n.origins[o].faults == s.origins[o].faults
  {
    if s.attempts[t].origin == o {
      RetryWorks(p, s, t);
    }
  }

  lemma ReturnNoBlame(p: Params, s: State, t: nat)
    requires DataInv(p, s) && SessionInv(s) && CalmInv(p, s) && DoReturnToQueue(s, t).Some?
    ensures DoReturnToQueue(s, t).value.origins == s.origins
  {
    assert AttemptOk(p, s, t) && SessionOk(s, s.attempts[t].session);
    SlotCounted(s, t);
  }

  lemma OthersNoBlame(p: Params, s: State, action: Action, o: nat)
    requires !action.CallHandler? && !action.Publish? && !action.ReturnToQueue? && Quiet(action)
    requires Step(p, s, action).Some? && o < |s.origins|
    ensures
      var n := Step(p, s, action).value;
      o < |n.origins| && n.origins[o].msg == s.origins[o].msg && n.origins[o].faults == s.origins[o].faults
  {
  }

  lemma StepKeepsCalm(p: Params, s: State, action: Action)
    requires DataInv(p, s) && SessionInv(s) && CalmInv(p, s) && Quiet(action) && Step(p, s, action).Some?
    ensures CalmInv(p, Step(p, s, action).value)
  {
    var n := Step(p, s, action).value;
    if ByWorker(action) {
      WorkerStepStaysCalm(p, s, action);
    } else {
      LoopStepStaysCalm(p, s, action);
    }
    forall t | 0 <= t < |n.attempts| ensures InOrder(n, n.attempts[t]) {
      InOrderStays(p, s, action, t);
    }
    forall o | 0 <= o < |n.origins| ensures FaultFree(p, n.origins[o]) {
      if o < |s.origins| {
        StepShapes(p, s, action);
        assert FaultFree(p, s.origins[o]);
        if RetriesWork(p, s.origins[o].msg) {
          NoBlame(p, s, action, o);
        }
      } else {
        StepAddsNoOrigin(p, s, action);
      }
    }
  }

  lemma {:induction false} CalmRunsKeepCalm(p: Params, run: seq<Action>)
    requires Exec(p, run).Some? && Calm(run)
    ensures CalmInv(p, Exec(p, run).value)
  {
    if run != [] {
      var before := run[..|run| - 1];
      CalmRunsKeepCalm(p, before);
      RunsKeepInvariant(p, before);
      StepKeepsCalm(p, Exec(p, before).value, run[|run| - 1]);
    }
  }

  /**
   * In a run that nothing outside disturbs, a message whose retries work has no fault: none of its retry
   * publishes is reported failed, and none of its settlements is lost with a channel.
   */
  lemma {:induction false} CalmRunsFaultless(p: Params, run: seq<Action>, o: nat)
    requires Exec(p, run).Some? && Calm(run) && o < |Exec(p, run).value.origins|
    requires RetriesWork(p, Exec(p, run).value.origins[o].msg)
    ensures Exec(p, run).value.origins[o].faults == 0
  {
    CalmRunsKeepCalm(p, run);
    assert FaultFree(p, Exec(p, run).value.origins[o]);
  }

  /** All messages that came with a non-negative count, as far as MaxRetries is positive and within int32. */
  lemma {:induction false} CountsFromZeroFaultless(p: Params, run: seq<Action>)
    requires Exec(p, run).Some? && Calm(run)
    requires 0 < p.cfg.maxRetries <= MAX_INT32 && CountsFromZero(Exec(p, run).value.origins)
    ensures forall o :: 0 <= o < |Exec(p, run).value.origins| ==> Exec(p, run).value.origins[o].faults == 0
  {
    var s := Exec(p, run).value;
    forall o | 0 <= o < |s.origins| ensures s.origins[o].faults == 0 {
      CalmRunsFaultless(p, run, o);
    }
  }

  // ----- bounded exactly when retries work -----

  /** No run that nothing outside disturbs calls the handler more often than this for such a message. */
  ghost predicate CallsBoundedBy(p: Params, msg: Delivery, bound: nat) {
    forall run, o: nat | Exec(p, run).Some? && Calm(run) && o < |Exec(p, run).value.origins|
                         && Exec(p, run).value.origins[o].msg == msg ::
      Exec(p, run).value.origins[o].calls <= bound
  }

  lemma OneCourseOfRetries(p: Params, msg: Delivery)
    requires RetriesWork(p, msg)
    ensures CallsBoundedBy(p, msg, Weight(p.cfg.maxRetries, Count(msg)))
  {
    forall run, o: nat | Exec(p, run).Some? && Calm(run) && o < |Exec(p, run).value.origins|
                         && Exec(p, run).value.origins[o].msg == msg
      ensures Exec(p, run).value.origins[o].calls <= Weight(p.cfg.maxRetries, Count(msg))
    {
      CallsBounded(p, run, o);
      CalmRunsFaultless(p, run, o);
    }
  }

  /** A stuck message is requeued and fails as often as one likes. */
  lemma {:induction false} RequeuedForever(p: Params, s: State, c: nat, times: nat) returns (n: State)
    requires Reached(p, s) && Poised(s, c) && Stuck(p, s.copies[c].msg)
    ensures Reached(p, n) && Poised(n, c) && n.copies[c].msg == s.copies[c].msg
    ensures n.origins[0].msg == s.origins[0].msg && n.origins[0].calls == s.origins[0].calls + times
  {
    n := s;
    if times > 0 {
      var m := RequeuedForever(p, s, c, times - 1);
      n := RequeueRound(p, m, c);
    }
  }

  /** With MaxRetries beyond int32, retries bring the counter to the top of it, and there the message is stuck. */
  lemma {:induction false} ClimbsToTop(p: Params, s: State, c: nat) returns (n: State, d: nat)
    requires Reached(p, s) && Poised(s, c) && MAX_INT32 < p.cfg.maxRetries && RetryReturns(p, s.copies[c].msg)
    requires MIN_INT32 - 1 <= Count(s.copies[c].msg) <= MAX_INT32
    ensures Reached(p, n) && Poised(n, d) && Stuck(p, n.copies[d].msg)
    ensures n.origins[0].msg == s.origins[0].msg && n.origins[0].calls >= s.origins[0].calls
    decreases MAX_INT32 - Count(s.copies[c].msg)
  {
    var msg := s.copies[c].msg;
    RetryEncodesIff(msg, p.cfg.exchange, p.key, p.cfg.maxRetries);
    if Count(msg) == MAX_INT32 {
      n, d := s, c;
    } else {
      var m := RetryRound(p, s, c);
      NextRetryReturns(p, msg);
      n, d := ClimbsToTop(p, m, |s.copies|);
    }
  }

  lemma NextRetryReturns(p: Params, msg: Delivery)
    requires RetryReturns(p, msg) && Count(msg) < MAX_INT64 && NextDelivery(msg, p.cfg.exchange, p.key).Some?
    ensures
      var next := NextDelivery(msg, p.cfg.exchange, p.key).value;
      RetryReturns(p, next) && Count(next) == Count(msg) + 1
  {
    ChainFidelity(msg, p.cfg.exchange, p.key, 1);
    assert Chain(msg, p.cfg.exchange, p.key, 0) == Some(msg);
    assert Chain(msg, p.cfg.exchange, p.key, 1) == NextDelivery(msg, p.cfg.exchange, p.key);
  }

  lemma CallsUnbounded(p: Params, msg: Delivery, bound: nat)
    requires !RetriesWork(p, msg)
    ensures !CallsBoundedBy(p, msg, bound)
  {
    Produced(p, msg);
    var s, c := State([Origin(0, msg, 0, 0, true)], [Copy(0, msg, Ready)], [], [IDLE]), 0;
    RetryEncodesIff(msg, p.cfg.exchange, p.key, p.cfg.maxRetries);
    if !Stuck(p, msg) {
      s, c := ClimbsToTop(p, s, 0);
    }
    var n := RequeuedForever(p, s, c, bound + 1);
    var run :| Exec(p, run) == Some(n) && Calm(run);
    assert n.origins[0].msg == msg && n.origins[0].calls > bound;
  }

  /**
   * The number of handler calls that a message can cause without any disturbance is bounded exactly when its
   * retries work. It is not for a counter below int32, for a negative one without confirms, or when MaxRetries
   * lies beyond int32 and the counter can get to the top of it.
   */
  lemma BoundedIffRetriesWork(p: Params, msg: Delivery)
    ensures (exists bound: nat :: CallsBoundedBy(p, msg, bound)) <==> RetriesWork(p, msg)
  {
    if RetriesWork(p, msg) {
      OneCourseOfRetries(p, msg);
    } else {
      forall bound: nat ensures !CallsBoundedBy(p, msg, bound) {
        CallsUnbounded(p, msg, bound);
      }
    }
  }
}
