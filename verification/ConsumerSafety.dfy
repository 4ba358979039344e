/** No message is lost: safety of the retry and dead-letter protocol over every run. */
module ConsumerSafety {
  import opened Options
  import opened Retry
  import opened Topology
  import opened Settlement
  import opened ConsumerMachine
  import opened ConsumerInvariant
  import opened ConsumerRuns

  /** Still at the broker. */
  predicate Live(copy: Copy) {
    copy.loc.Ready? || copy.loc.Unacked?
  }

  /** The broker has let go of the copy because a delivery of it was acknowledged after its handler succeeded. */
  predicate Succeeded(s: State, c: nat)
    requires c < |s.copies|
  {
    && s.copies[c].loc.Done?
    && var t := s.copies[c].loc.via;
    && t < |s.attempts| && s.attempts[t].copy == c
    && s.attempts[t].outcome == Outcome.Succeeded && s.attempts[t].calls == [Ack]
  }

  /** ... or because a delivery of it was rejected without requeue. */
  predicate Rejected(s: State, c: nat)
    requires c < |s.copies|
  {
    && (s.copies[c].loc.DeadLettered? || s.copies[c].loc.Dropped?)
    && var t := s.copies[c].loc.via;
    && t < |s.attempts| && s.attempts[t].copy == c
    && s.attempts[t].calls == [Nack(false)]
  }

  /** Some copy of message `o` is still there, or was processed, or was rejected. */
  ghost predicate Accounted(s: State, o: nat) {
    exists c :: 0 <= c < |s.copies| && s.copies[c].origin == o
        && (Live(s.copies[c]) || Succeeded(s, c) || Rejected(s, c))
  }

  /** The retry of a message under this key comes back to the queue. */
  predicate RetryReturns(p: Params, msg: Delivery) {
    p.queue in RouteTo(p.broker, p.cfg.exchange, RetryKey(msg.routingKey, p.key))
  }

  /** Following retries from a copy ends at a copy that was not acknowledged in favour of another. */
  lemma {:induction false} LastRetry(p: Params, s: State, c: nat) returns (last: nat)
    requires DataInv(p, s) && c < |s.copies|
    ensures c <= last < |s.copies| && s.copies[last].origin == s.copies[c].origin && !s.copies[last].loc.RetriedAs?
    decreases |s.copies| - c
  {
    assert CopyOk(p, s, c);
    if s.copies[c].loc.RetriedAs? {
      last := LastRetry(p, s, s.copies[c].loc.next);
    } else {
      last := c;
    }
  }

  lemma SettledCalls(p: Params, a: Attempt)
    requires Issued(a.pc) && SettledOk(p, a, a.pc.how)
    ensures a.pc.how == AckSuccess ==> a.outcome == Outcome.Succeeded && a.calls == [Ack]
    ensures a.pc.how == DeadLetter ==> a.calls == [Nack(false)]
  {
    assert a.calls == a.calls[..|a.calls| - 1] + [a.calls[|a.calls| - 1]];
  }

  /** A copy acknowledged for nothing is a first copy whose own retry key reaches no queue. */
  lemma VanishedIsFirst(p: Params, s: State, c: nat)
    requires DataInv(p, s) && c < |s.copies| && s.copies[c].loc.Vanished?
    ensures s.copies[c].origin < |s.origins|
    ensures s.copies[c].msg == s.origins[s.copies[c].origin].msg
    ensures !RetryReturns(p, s.copies[c].msg)
  {
    assert CopyOk(p, s, c) && OriginOk(s, s.copies[c].origin);
  }

  /** One message: if its retry comes back, it is accounted for, whatever happens. */
  lemma MessageNotLost(p: Params, s: State, o: nat)
    requires DataInv(p, s) && o < |s.origins| && RetryReturns(p, s.origins[o].msg)
    ensures Accounted(s, o)
  {
    assert OriginOk(s, o);
    var last := LastRetry(p, s, s.origins[o].first);
    assert CopyOk(p, s, last);
    if s.copies[last].loc.Vanished? {
      VanishedIsFirst(p, s, last);
    } else if !Live(s.copies[last]) {
      assert AttemptOk(p, s, s.copies[last].loc.via);
      SettledCalls(p, s.attempts[s.copies[last].loc.via]);
    }
  }

  /**
   * No loss. On a broker where this queue's topology has been declared, every message that reached the
   * queue through its exchange is, after any run, still ready or unacknowledged, or was acknowledged
   * after its handler succeeded, or was rejected without requeue.
   */
  lemma {:induction false} NoLoss(p: Params, run: seq<Action>, o: nat)
    requires Declared(p.broker, p.cfg, p.kind, p.queue, p.key)
    requires Exec(p, run).Some? && o < |Exec(p, run).value.origins|
    requires p.queue in RouteTo(p.broker, p.cfg.exchange, Exec(p, run).value.origins[o].msg.routingKey)
    ensures Accounted(Exec(p, run).value, o)
  {
    var s := Exec(p, run).value;
    RunsKeepInvariant(p, run);
    RetryReachesQueue(p.broker, p.cfg, p.kind, p.queue, p.key, s.origins[o].msg.routingKey);
    MessageNotLost(p, s, o);
  }

  /** With dead-lettering on, a rejected message is never dropped: it is on the queue's dead-letter queue. */
  lemma {:induction false} RejectedMeansDeadLettered(p: Params, run: seq<Action>, c: nat)
    requires Declared(p.broker, p.cfg, p.kind, p.queue, p.key) && !p.cfg.disableDeadLetter
    requires Exec(p, run).Some? && c < |Exec(p, run).value.copies|
    ensures
      var copy := Exec(p, run).value.copies[c];
      && !copy.loc.Dropped?
      && (copy.loc.DeadLettered? ==>
            DlqName(p.cfg, p.queue) in DeadLetterTargets(p.broker, p.queue, copy.msg.routingKey))
  {
    var s := Exec(p, run).value;
    RunsKeepInvariant(p, run);
    assert CopyOk(p, s, c);
    DeadLetterReachesDlq(p.broker, p.cfg, p.kind, p.queue, p.key, s.copies[c].msg.routingKey);
  }

  /** Every copy in every run is the k-th retry, for some k, of the message it stems from. */
  lemma {:induction false} CopiesAreRetries(p: Params, run: seq<Action>, c: nat)
    requires Exec(p, run).Some? && c < |Exec(p, run).value.copies|
    ensures
      var s := Exec(p, run).value;
      && s.copies[c].origin < |s.origins|
      && exists k: nat :: Chain(s.origins[s.copies[c].origin].msg, p.cfg.exchange, p.key, k) == Some(s.copies[c].msg)
  {
    ChainInRun(p, run);
    assert Chained(p, Exec(p, run).value, c);
  }

  /**
   * Every copy in every run has the payload of the message it stems from, and its routing key; for a message
   * with an empty one, retries carry the binding key.
   */
  lemma {:induction false} CopiesKeepMessage(p: Params, run: seq<Action>, c: nat)
    requires Exec(p, run).Some? && c < |Exec(p, run).value.copies|
    ensures
      var s := Exec(p, run).value;
      && s.copies[c].origin < |s.origins|
      && KeepsMessage(p, s.origins[s.copies[c].origin].msg, s.copies[c].msg)
  {
    CopiesAreRetries(p, run, c);
    var s := Exec(p, run).value;
    var msg := s.origins[s.copies[c].origin].msg;
    var k: nat :| Chain(msg, p.cfg.exchange, p.key, k) == Some(s.copies[c].msg);
    ChainFidelity(msg, p.cfg.exchange, p.key, k);
  }

  predicate KeepsMessage(p: Params, msg: Delivery, copy: Delivery) {
    && SamePayload(copy, msg)
    && (msg.routingKey != "" ==> copy.routingKey == msg.routingKey)
    && (msg.routingKey == "" ==> copy.routingKey == "" || copy.routingKey == p.key)
    && (copy != msg ==> copy.routingKey == (if msg.routingKey != "" then msg.routingKey else p.key))
  }

  ghost predicate AllChained(p: Params, s: State) {
    forall c :: 0 <= c < |s.copies| ==> Chained(p, s, c)
  }

  ghost predicate Chained(p: Params, s: State, c: nat)
    requires c < |s.copies|
  {
    && s.copies[c].origin < |s.origins|
    && exists k: nat :: Chain(s.origins[s.copies[c].origin].msg, p.cfg.exchange, p.key, k) == Some(s.copies[c].msg)
  }

  lemma {:induction false} ChainInRun(p: Params, run: seq<Action>)
    requires Exec(p, run).Some?
    ensures AllChained(p, Exec(p, run).value)
  {
    if run != [] {
      var before := run[..|run| - 1];
      ChainInRun(p, before);
      RunsKeepInvariant(p, before);
      RunsKeepInvariant(p, run);
      StepKeepsChains(p, Exec(p, before).value, run[|run| - 1]);
    }
  }

  lemma StepShapes(p: Params, s: State, action: Action)
    requires Step(p, s, action).Some?
    ensures CopiesGrow(s, Step(p, s, action).value) && OriginsKeep(s, Step(p, s, action).value)
    ensures |Step(p, s, action).value.copies| <= |s.copies| + 1
    ensures !action.Produce? && !action.Enqueue? ==> |Step(p, s, action).value.copies| == |s.copies|
  {
    if ByWorker(action) {
      WorkerStepShapes(p, s, action);
    } else {
      OtherStepShapes(p, s, action);
    }
  }

  lemma WorkerStepShapes(p: Params, s: State, action: Action)
    requires ByWorker(action) && Step(p, s, action).Some?
    ensures CopiesGrow(s, Step(p, s, action).value) && OriginsKeep(s, Step(p, s, action).value)
    ensures |Step(p, s, action).value.copies| == |s.copies|
  {
  }

  lemma OtherStepShapes(p: Params, s: State, action: Action)
    requires !ByWorker(action) && Step(p, s, action).Some?
    ensures CopiesGrow(s, Step(p, s, action).value) && OriginsKeep(s, Step(p, s, action).value)
    ensures |Step(p, s, action).value.copies| <= |s.copies| + 1
    ensures !action.Produce? && !action.Enqueue? ==> |Step(p, s, action).value.copies| == |s.copies|
  {
  }

  lemma StepKeepsChains(p: Params, s: State, action: Action)
    requires DataInv(p, s) && AllChained(p, s) && Step(p, s, action).Some?
    ensures AllChained(p, Step(p, s, action).value)
  {
    var n := Step(p, s, action).value;
    StepShapes(p, s, action);
    forall c | 0 <= c < |n.copies| ensures Chained(p, n, c) {
      if c < |s.copies| {
        assert Chained(p, s, c);
      } else if action.Produce? {
        assert Chain(n.origins[|s.origins|].msg, p.cfg.exchange, p.key, 0) == Some(n.copies[c].msg);
      } else {
        var a := s.attempts[action.tag];
        assert AttemptOk(p, s, action.tag) && Chained(p, s, a.copy);
        var k: nat :| Chain(s.origins[a.origin].msg, p.cfg.exchange, p.key, k) == Some(s.copies[a.copy].msg);
        assert Chain(s.origins[a.origin].msg, p.cfg.exchange, p.key, k + 1) == Some(n.copies[c].msg);
      }
    }
  }

  // ----- the promise fails exactly for messages whose retry is routed nowhere -----

  ghost predicate LosesMessage(p: Params, run: seq<Action>, msg: Delivery) {
    && Exec(p, run).Some?
    && exists o :: 0 <= o < |Exec(p, run).value.origins| && Exec(p, run).value.origins[o].msg == msg
                   && !Accounted(Exec(p, run).value, o)
  }

  lemma VanishedIsLost(s: State)
    requires |s.copies| == 1 && s.copies[0].loc.Vanished?
    ensures !Accounted(s, 0)
  {
  }

  /** The retry copy is confirmed though routed nowhere, and the original is acknowledged: no disturbance is needed. */
  lemma UnroutableIsLost(p: Params, msg: Delivery)
    requires 0 < p.cfg.maxRetries && Count(msg) < p.cfg.maxRetries
    requires MIN_INT32 - 1 <= Count(msg) < MAX_INT32
    requires !RetryReturns(p, msg)
    ensures exists run :: LosesMessage(p, run, msg) && Calm(run)
  {
    Produced(p, msg);
    var n := LosingRound(p, State([Origin(0, msg, 0, 0, true)], [Copy(0, msg, Ready)], [], [IDLE]), 0);
    var run :| Exec(p, run) == Some(n) && Calm(run);
    VanishedIsLost(n);
    assert n.origins[0].msg == msg;
    assert LosesMessage(p, run, msg);
  }

  /**
   * A message can be lost exactly when a failed delivery of it is retried, its counter can be encoded, and
   * the key of the retry copy is routed nowhere near the queue, as for a message that did not come through
   * the configured exchange: the confirm does not say that the copy was routed.
   */
  lemma LostIffRetryUnroutable(p: Params, msg: Delivery)
    ensures (exists run :: LosesMessage(p, run, msg)) <==>
            (&& 0 < p.cfg.maxRetries
             && Count(msg) < p.cfg.maxRetries
             && MIN_INT32 - 1 <= Count(msg) < MAX_INT32
             && p.queue !in RouteTo(p.broker, p.cfg.exchange, RetryKey(msg.routingKey, p.key)))
  {
    if run :| LosesMessage(p, run, msg) {
      var s := Exec(p, run).value;
      RunsKeepInvariant(p, run);
      var o :| 0 <= o < |s.origins| && s.origins[o].msg == msg && !Accounted(s, o);
      if RetryReturns(p, msg) {
        MessageNotLost(p, s, o);
      }
      assert OriginOk(s, o);
      var last := LastRetry(p, s, s.origins[o].first);
      assert CopyOk(p, s, last);
      if !s.copies[last].loc.Vanished? && !Live(s.copies[last]) {
        assert AttemptOk(p, s, s.copies[last].loc.via);
        SettledCalls(p, s.attempts[s.copies[last].loc.via]);
      }
      VanishedIsFirst(p, s, last);
      RetryEncodesIff(msg, p.cfg.exchange, p.key, p.cfg.maxRetries);
    }
    if && 0 < p.cfg.maxRetries && Count(msg) < p.cfg.maxRetries && MIN_INT32 - 1 <= Count(msg) < MAX_INT32
       && !RetryReturns(p, msg)
    {
      UnroutableIsLost(p, msg);
    }
  }
}
