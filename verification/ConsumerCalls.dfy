/** Every settled delivery of every run has made exactly the calls that handling one delivery is specified to make. */
module ConsumerCalls {
  import opened Options
  import opened Retry
  import opened Settlement
  import opened ConsumerMachine
  import opened ConsumerInvariant
  import opened ConsumerSafety

  /** Requeued without a publish. */
  predicate GaveUp(a: Attempt) {
    || (a.pc == Settling(Requeue) && a.calls == [])
    || (Issued(a.pc) && a.pc.how == Requeue && |a.calls| == 1)
  }

  /** Whatever was published is the retry of this message, and nothing was only if that could not be encoded. */
  predicate CallsFit(p: Params, msg: Delivery, a: Attempt) {
    && (forall i :: 0 <= i < |a.calls| && a.calls[i].PublishRetry? ==>
          IsRetryOf(p, msg, a.calls[i].key, a.calls[i].pub))
    && (GaveUp(a) ==> Count(msg) < MAX_INT64 && RetryPublishing(msg, Count(msg) + 1) == None)
  }

  ghost predicate CallsInv(p: Params, s: State) {
    forall t :: 0 <= t < |s.attempts| && s.attempts[t].copy < |s.copies| ==>
      CallsFit(p, s.copies[s.attempts[t].copy].msg, s.attempts[t])
  }

  /** The steps that make a call or decide on a requeue. */
  predicate MakesCall(action: Action, t: nat) {
    (action.Publish? || action.Confirm? || action.Settle?) && action.tag == t
  }

  predicate SameCalls(a: Attempt, b: Attempt) {
    && b.calls == a.calls && b.copy == a.copy
    && (Issued(b.pc) ==> Issued(a.pc) && b.pc.how == a.pc.how)
    && (b.pc == Settling(Requeue) ==> a.pc == Settling(Requeue))
  }

  lemma WorkerKeepsCalls(p: Params, s: State, action: Action, t: nat)
    requires ByWorker(action) && !MakesCall(action, t) && Step(p, s, action).Some? && t < |s.attempts|
    ensures t < |Step(p, s, action).value.attempts| && SameCalls(s.attempts[t], Step(p, s, action).value.attempts[t])
  {
  }

  lemma OtherKeepsCalls(p: Params, s: State, action: Action, t: nat)
    requires SessionInv(s) && !ByWorker(action) && Step(p, s, action).Some? && t < |s.attempts|
    ensures t < |Step(p, s, action).value.attempts| && SameCalls(s.attempts[t], Step(p, s, action).value.attempts[t])
  {
  }

  lemma PublishFits(p: Params, s: State, t: nat, sent: bool, failed: bool)
    requires DataInv(p, s) && DoPublish(p, s, t, sent, failed).Some?
    ensures CallsFit(p, s.copies[s.attempts[t].copy].msg, DoPublish(p, s, t, sent, failed).value.attempts[t])
  {
    assert AttemptOk(p, s, t);
  }

  lemma ConfirmFits(p: Params, s: State, t: nat, positive: bool)
    requires DataInv(p, s) && DoConfirm(s, t, positive).Some?
    requires CallsFit(p, s.copies[s.attempts[t].copy].msg, s.attempts[t])
    ensures CallsFit(p, s.copies[s.attempts[t].copy].msg, DoConfirm(s, t, positive).value.attempts[t])
  {
    assert AttemptOk(p, s, t);
  }

  lemma SettleFits(p: Params, s: State, t: nat)
    requires DataInv(p, s) && DoSettle(s, t).Some?
    requires CallsFit(p, s.copies[s.attempts[t].copy].msg, s.attempts[t])
    ensures CallsFit(p, s.copies[s.attempts[t].copy].msg, DoSettle(s, t).value.attempts[t])
  {
    assert AttemptOk(p, s, t);
  }

  lemma CallFits(p: Params, s: State, action: Action, t: nat)
    requires DataInv(p, s) && MakesCall(action, t) && Step(p, s, action).Some?
    requires CallsFit(p, s.copies[s.attempts[t].copy].msg, s.attempts[t])
    ensures
      var n := Step(p, s, action).value;
      && t < |n.attempts| && n.attempts[t].copy == s.attempts[t].copy
      && CallsFit(p, s.copies[s.attempts[t].copy].msg, n.attempts[t])
  {
    if action.Publish? {
      PublishFits(p, s, t, action.sent, action.failed);
    } else if action.Confirm? {
      ConfirmFits(p, s, t, action.positive);
    } else {
      SettleFits(p, s, t);
    }
  }

  lemma StepKeepsCalls(p: Params, s: State, action: Action, t: nat)
    requires DataInv(p, s) && SessionInv(s) && CallsInv(p, s) && Step(p, s, action).Some?
    requires t < |s.attempts|
    ensures
      var n := Step(p, s, action).value;
      && t < |n.attempts| && n.attempts[t].copy == s.attempts[t].copy < |s.copies|
      && CallsFit(p, s.copies[s.attempts[t].copy].msg, n.attempts[t])
  {
    assert AttemptOk(p, s, t);
    if MakesCall(action, t) {
      CallFits(p, s, action, t);
    } else if ByWorker(action) {
      WorkerKeepsCalls(p, s, action, t);
    } else {
      OtherKeepsCalls(p, s, action, t);
    }
  }

  lemma NewAttemptsAreSilent(p: Params, s: State, action: Action, t: nat)
    requires Step(p, s, action).Some? && |s.attempts| <= t < |Step(p, s, action).value.attempts|
    ensures Step(p, s, action).value.attempts[t].calls == [] && Step(p, s, action).value.attempts[t].pc == Buffered
  {
  }

  lemma {:induction false} RunsKeepCalls(p: Params, run: seq<Action>)
    requires Exec(p, run).Some?
    ensures CallsInv(p, Exec(p, run).value)
  {
    if run != [] {
      var before, action := run[..|run| - 1], run[|run| - 1];
      var s, n := Exec(p, before).value, Exec(p, run).value;
      RunsKeepCalls(p, before);
      RunsKeepInvariant(p, before);
      StepShapes(p, s, action);
      forall t | 0 <= t < |n.attempts| && n.attempts[t].copy < |n.copies|
        ensures CallsFit(p, n.copies[n.attempts[t].copy].msg, n.attempts[t])
      {
        if t < |s.attempts| {
          StepKeepsCalls(p, s, action, t);
        } else {
          NewAttemptsAreSilent(p, s, action, t);
        }
      }
    }
  }

  /** What became of the retry publish, as the delivery was told. */
  function ReplyTo(how: How): PublishReply {
    if how == AckRetried then Confirmed else Refused
  }

  /**
   * The machine's deliveries do what the code for one delivery does: once settled, a delivery has made exactly
   * the calls specified for its message, the way its handler ended and the reply to its retry publish.
   */
  lemma {:induction false} DeliveriesMakeExpectedCalls(p: Params, run: seq<Action>, t: nat)
    requires Exec(p, run).Some? && t < |Exec(p, run).value.attempts| && Issued(Exec(p, run).value.attempts[t].pc)
    ensures
      var s := Exec(p, run).value;
      var a := s.attempts[t];
      && a.copy < |s.copies|
      && a.calls == ExpectedCalls(p.cfg.maxRetries, p.key, s.copies[a.copy].msg, a.outcome, ReplyTo(a.pc.how))
  {
    var s := Exec(p, run).value;
    RunsKeepInvariant(p, run);
    RunsKeepCalls(p, run);
    assert AttemptOk(p, s, t);
    var a := s.attempts[t];
    SettledAsExpected(p, s.copies[a.copy].msg, a);
  }

  lemma SettledAsExpected(p: Params, msg: Delivery, a: Attempt)
    requires Issued(a.pc) && SettledOk(p, a, a.pc.how) && CallsFit(p, msg, a) && Count(msg) == a.count
    ensures a.calls == ExpectedCalls(p.cfg.maxRetries, p.key, msg, a.outcome, ReplyTo(a.pc.how))
  {
    if a.pc.how == AckSuccess || a.pc.how == DeadLetter {
      SettledCalls(p, a);
    } else {
      RetriedAsExpected(p, msg, a);
    }
  }

  lemma RetriedAsExpected(p: Params, msg: Delivery, a: Attempt)
    requires Issued(a.pc) && SettledOk(p, a, a.pc.how) && CallsFit(p, msg, a) && Count(msg) == a.count
    requires a.pc.how == AckRetried || a.pc.how == Requeue
    ensures a.calls == ExpectedCalls(p.cfg.maxRetries, p.key, msg, a.outcome, ReplyTo(a.pc.how))
  {
    var n := |a.calls| - 1;
    assert a.calls == a.calls[..n] + [a.calls[n]];
    if n == 1 {
      assert a.calls[..n] == [a.calls[0]] && IsRetryOf(p, msg, a.calls[0].key, a.calls[0].pub);
    }
  }

  /** What is done about a delivery, by how its handler ended and how often it was retried before. */
  predicate SettledAccordingly(p: Params, msg: Delivery, a: Attempt) {
    && a.calls != []
    && (a.outcome == Outcome.Succeeded ==> a.calls == [Ack])
    && (a.outcome != Outcome.Succeeded && (a.outcome == NonRetryable || Count(msg) >= p.cfg.maxRetries) ==>
          a.calls == [Nack(false)])
    && (a.outcome != Outcome.Succeeded && a.outcome != NonRetryable && Count(msg) < p.cfg.maxRetries ==>
          a.calls[|a.calls| - 1] == if a.result.retried then Ack else Nack(true))
    && (a.result.retried ==> |a.calls| == 2)
    && (forall i :: 0 <= i < |a.calls| && a.calls[i].PublishRetry? ==>
          && a.calls[i].key == (if msg.routingKey != "" then msg.routingKey else p.key)
          && a.calls[i].pub.body == msg.body && Carries(a.calls[i].pub.headers, Count(msg) + 1))
  }

  /**
   * In every run a settled delivery is acknowledged after success; rejected after a failure that may not be
   * retried, or not any more; and otherwise acknowledged or requeued, as its retry was confirmed or not. The
   * retry has the message's key, or the binding key if that is empty, its body, and the next count.
   */
  lemma {:induction false} DeliveriesSettledAccordingly(p: Params, run: seq<Action>, t: nat)
    requires Exec(p, run).Some? && t < |Exec(p, run).value.attempts| && Issued(Exec(p, run).value.attempts[t].pc)
    ensures
      var s := Exec(p, run).value;
      s.attempts[t].copy < |s.copies| && SettledAccordingly(p, s.copies[s.attempts[t].copy].msg, s.attempts[t])
  {
    var s := Exec(p, run).value;
    RunsKeepInvariant(p, run);
    DeliveriesMakeExpectedCalls(p, run, t);
    assert AttemptOk(p, s, t);
    Accordingly(p, s.copies[s.attempts[t].copy].msg, s.attempts[t]);
  }

  lemma Accordingly(p: Params, msg: Delivery, a: Attempt)
    requires Issued(a.pc) && SettledOk(p, a, a.pc.how) && Count(msg) == a.count
    requires a.calls == ExpectedCalls(p.cfg.maxRetries, p.key, msg, a.outcome, ReplyTo(a.pc.how))
    ensures SettledAccordingly(p, msg, a)
  {
    if PlanFor(p.cfg.maxRetries, a.count, a.outcome) == Republish && FitsInt32(a.count + 1) {
      RetryCountRoundTrip(msg.headers, a.count + 1);
    }
  }
}
