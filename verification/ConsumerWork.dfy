/** Bounded work: how often handlers run, as a potential carried by copies and deliveries. */
module ConsumerWork {
  import opened Sums
  import opened Retry
  import opened Topology
  import opened Settlement
  import opened ConsumerMachine
  import opened ConsumerInvariant
  import opened ConsumerSafety

  /** The handler calls a copy with this count can still cause, itself and its retries together. */
  function Weight(maxRetries: Int64, count: Int64): nat {
    if count < maxRetries then maxRetries - count + 1 else 1
  }

  /** The handler has been called and the retry, if there is to be one, is not published yet. */
  predicate RetryPending(a: Attempt) {
    a.pc.Handling? || a.pc.Retrying? || (a.pc.Confirming? && a.frame == NoFrame)
  }

  /** The calls a delivery still stands for: its own copy if that may come back, and its unpublished retry. */
  function Owed(maxRetries: Int64, a: Attempt): nat {
    var w := Weight(maxRetries, a.count);
    (if a.holds && (!Called(a.pc) || a.faulted) then w else 0)
    + (if RetryPending(a) || a.frame.InTransit? then w - 1 else 0)
  }

  function CopyWork(p: Params, c: Copy): nat {
    if c.loc.Ready? then Weight(p.cfg.maxRetries, Count(c.msg)) else 0
  }

  function ReadyWork(p: Params, o: nat): Copy -> int {
    (c: Copy) => if c.origin == o then CopyWork(p, c) else 0
  }

  function OwedWork(p: Params, o: nat): Attempt -> int {
    (a: Attempt) => if a.origin == o then Owed(p.cfg.maxRetries, a) else 0
  }

  /** Handler calls made and still to be made for message `o`. */
  function Tally(p: Params, s: State, o: nat): int
    requires o < |s.origins|
  {
    s.origins[o].calls + Sum(s.copies, ReadyWork(p, o)) + Sum(s.attempts, OwedWork(p, o))
  }

  function CopyTokens(c: Copy): nat {
    if c.loc.Ready? || c.loc.DeadLettered? || c.loc.Dropped? then 1 else 0
  }

  /** One token for the current incarnation of a message: its ready or rejected copy ... */
  function CopyToken(o: nat): Copy -> int {
    (c: Copy) => if c.origin == o then CopyTokens(c) else 0
  }

  /** ... or the delivery that has it in hand, until its retry copy is on the queue. */
  predicate InHand(a: Attempt) {
    || a.frame.InTransit?
    || (&& a.holds && a.frame == NoFrame
        && (a.pc.Settling? || Issued(a.pc) ==> a.pc.how == DeadLetter))
  }

  function AttemptTokens(a: Attempt): nat {
    if InHand(a) then 1 else 0
  }

  function AttemptToken(o: nat): Attempt -> int {
    (a: Attempt) => if a.origin == o then AttemptTokens(a) else 0
  }

  function Tokens(s: State, o: nat): int {
    Sum(s.copies, CopyToken(o)) + Sum(s.attempts, AttemptToken(o))
  }

  /** No fault so far, every handler failure was retryable, and retries come back to the queue. */
  predicate Undisturbed(p: Params, s: State, o: nat)
    requires o < |s.origins|
  {
    s.origins[o].allRetryable && s.origins[o].faults == 0 && RetryReturns(p, s.origins[o].msg)
  }

  /** What one step may do to the tally of a message: only a fault may raise it, by at most the message's weight. */
  ghost predicate TallyStep(p: Params, s: State, n: State, o: nat)
    requires o < |s.origins| && o < |n.origins|
  {
    && n.origins[o].msg == s.origins[o].msg
    && s.origins[o].faults <= n.origins[o].faults <= s.origins[o].faults + 1
    && Tally(p, n, o) <= Tally(p, s, o) + (if n.origins[o].faults > s.origins[o].faults
                                           then Weight(p.cfg.maxRetries, Count(s.origins[o].msg)) else 0)
    && (Undisturbed(p, n, o) ==>
          Undisturbed(p, s, o) && Tally(p, n, o) == Tally(p, s, o) && Tokens(n, o) == Tokens(s, o))
  }

  lemma AttemptSums(p: Params, s: State, n: State, t: nat, o: nat)
    requires t < |s.attempts| && |n.attempts| == |s.attempts| && n.attempts == s.attempts[t := n.attempts[t]]
    ensures Sum(n.attempts, OwedWork(p, o)) ==
            Sum(s.attempts, OwedWork(p, o)) - OwedWork(p, o)(s.attempts[t]) + OwedWork(p, o)(n.attempts[t])
    ensures Sum(n.attempts, AttemptToken(o)) ==
            Sum(s.attempts, AttemptToken(o)) - AttemptToken(o)(s.attempts[t]) + AttemptToken(o)(n.attempts[t])
  {
    SumUpdate(s.attempts, t, n.attempts[t], OwedWork(p, o));
    SumUpdate(s.attempts, t, n.attempts[t], AttemptToken(o));
  }

  lemma CopySums(p: Params, s: State, n: State, c: nat, o: nat)
    requires c < |s.copies| && |n.copies| == |s.copies| && n.copies == s.copies[c := n.copies[c]]
    ensures Sum(n.copies, ReadyWork(p, o)) ==
            Sum(s.copies, ReadyWork(p, o)) - ReadyWork(p, o)(s.copies[c]) + ReadyWork(p, o)(n.copies[c])
    ensures Sum(n.copies, CopyToken(o)) ==
            Sum(s.copies, CopyToken(o)) - CopyToken(o)(s.copies[c]) + CopyToken(o)(n.copies[c])
  {
    SumUpdate(s.copies, c, n.copies[c], ReadyWork(p, o));
    SumUpdate(s.copies, c, n.copies[c], CopyToken(o));
  }

  /** Retries only make a message lighter, and no retry is lighter than nothing. */
  lemma WeightShrinks(p: Params, s: State, t: nat)
    requires DataInv(p, s) && t < |s.attempts|
    ensures
      var a := s.attempts[t];
      && a.origin < |s.origins|
      && Weight(p.cfg.maxRetries, a.count) <= Weight(p.cfg.maxRetries, Count(s.origins[a.origin].msg))
  {
    assert AttemptOk(p, s, t);
    assert CopyOk(p, s, s.attempts[t].copy);
  }

  /** An unroutable retry publish does not happen to a message whose retries come back. */
  lemma NotUnroutable(p: Params, s: State, t: nat)
    requires DataInv(p, s) && t < |s.attempts|
    ensures
      var a := s.attempts[t];
      && a.origin < |s.origins|
      && (RetryReturns(p, s.origins[a.origin].msg) ==>
            && !a.frame.Unroutable?
            && (a.frame.InTransit? ==> p.queue in RouteTo(p.broker, p.cfg.exchange, a.frame.key)))
  {
    assert AttemptOk(p, s, t);
    assert CopyOk(p, s, s.attempts[t].copy) && OriginOk(s, s.attempts[t].origin);
  }

  /** A step that moves one delivery and no copy. */
  lemma MoveTally(p: Params, s: State, n: State, t: nat, o: nat)
    requires DataInv(p, s) && t < |s.attempts| && o < |s.origins|
    requires n.copies == s.copies && |n.attempts| == |s.attempts| && n.attempts == s.attempts[t := n.attempts[t]]
    requires s.attempts[t].origin < |s.origins| && n.attempts[t].origin == s.attempts[t].origin
    requires |n.origins| == |s.origins|
    requires o != s.attempts[t].origin ==> n.origins[o] == s.origins[o]
    requires o == s.attempts[t].origin ==> MoveFits(p, s.origins[o], n.origins[o], s.attempts[t], n.attempts[t])
    ensures TallyStep(p, s, n, o)
  {
    AttemptSums(p, s, n, t, o);
    WeightShrinks(p, s, t);
  }

  /** A delivery's move, with what it does to the calls and faults of its message. */
  predicate MoveFits(p: Params, before: Origin, after: Origin, a: Attempt, b: Attempt) {
    var w := Weight(p.cfg.maxRetries, a.count);
    && after.msg == before.msg
    && before.faults <= after.faults <= before.faults + 1
    && (after.allRetryable ==> before.allRetryable)
    && after.calls + Owed(p.cfg.maxRetries, b) <=
       before.calls + Owed(p.cfg.maxRetries, a) + (if after.faults > before.faults then w else 0)
    && (after.allRetryable && after.faults == 0 && RetryReturns(p, after.msg) ==>
          && after.calls + Owed(p.cfg.maxRetries, b) == before.calls + Owed(p.cfg.maxRetries, a)
          && InHand(a) == InHand(b))
  }

  /** A faulted attempt is on record. */
  predicate FaultsRecorded(s: State) {
    forall t :: 0 <= t < |s.attempts| && s.attempts[t].faulted && s.attempts[t].origin < |s.origins|
                ==> s.origins[s.attempts[t].origin].faults > 0
  }

  lemma ReceiveTally(p: Params, s: State, t: nat, o: nat)
    requires DataInv(p, s) && DoReceive(s, t).Some? && o < |s.origins|
    ensures TallyStep(p, s, DoReceive(s, t).value, o)
  {
    MoveTally(p, s, DoReceive(s, t).value, t, o);
  }

  lemma LoopTally(p: Params, s: State, action: Action, o: nat)
    requires action.TakeSlot? || action.ExitLoop?
    requires DataInv(p, s) && SessionInv(s) && Step(p, s, action).Some? && o < |s.origins|
    ensures TallyStep(p, s, Step(p, s, action).value, o)
  {
    var n := Step(p, s, action).value;
    var x := action.session;
    assert SessionOk(s, x);
    if s.sessions[x].loop.AwaitingSlot? {
      assert AttemptOk(p, s, s.sessions[x].loop.tag);
      MoveTally(p, s, n, s.sessions[x].loop.tag, o);
    }
  }

  lemma CallHandlerTally(p: Params, s: State, t: nat, o: nat)
    requires DataInv(p, s) && DoCallHandler(s, t).Some? && o < |s.origins|
    ensures TallyStep(p, s, DoCallHandler(s, t).value, o)
  {
    assert AttemptOk(p, s, t);
    MoveTally(p, s, DoCallHandler(s, t).value, t, o);
  }

  lemma ReturnTally(p: Params, s: State, t: nat, outcome: Outcome, o: nat)
    requires DataInv(p, s) && DoReturn(p, s, t, outcome).Some? && o < |s.origins|
    ensures TallyStep(p, s, DoReturn(p, s, t, outcome).value, o)
  {
    assert AttemptOk(p, s, t);
    MoveTally(p, s, DoReturn(p, s, t, outcome).value, t, o);
  }

  lemma PublishTally(p: Params, s: State, t: nat, sent: bool, failed: bool, o: nat)
    requires DataInv(p, s) && DoPublish(p, s, t, sent, failed).Some? && o < |s.origins| && FaultsRecorded(s)
    ensures TallyStep(p, s, DoPublish(p, s, t, sent, failed).value, o)
  {
    var n := DoPublish(p, s, t, sent, failed).value;
    var a := s.attempts[t];
    assert AttemptOk(p, s, t);
    PublishedPhaseOk(p, a, s.copies[a.copy].msg, sent && !s.sessions[a.session].lost, failed);
    MoveTally(p, s, n, t, o);
  }

  lemma ConfirmTally(p: Params, s: State, t: nat, positive: bool, o: nat)
    requires DataInv(p, s) && DoConfirm(s, t, positive).Some? && o < |s.origins| && FaultsRecorded(s)
    ensures TallyStep(p, s, DoConfirm(s, t, positive).value, o)
  {
    assert AttemptOk(p, s, t);
    NotUnroutable(p, s, t);
    MoveTally(p, s, DoConfirm(s, t, positive).value, t, o);
  }

  lemma SettleTally(p: Params, s: State, t: nat, o: nat)
    requires DataInv(p, s) && DoSettle(s, t).Some? && o < |s.origins|
    ensures TallyStep(p, s, DoSettle(s, t).value, o)
  {
    assert AttemptOk(p, s, t);
    MoveTally(p, s, DoSettle(s, t).value, t, o);
  }

  lemma ReleaseSlotTally(p: Params, s: State, t: nat, o: nat)
    requires DataInv(p, s) && DoReleaseSlot(s, t).Some? && o < |s.origins|
    ensures TallyStep(p, s, DoReleaseSlot(s, t).value, o)
  {
    assert AttemptOk(p, s, t);
    MoveTally(p, s, DoReleaseSlot(s, t).value, t, o);
  }

  lemma FinishWorkerTally(p: Params, s: State, t: nat, o: nat)
    requires DataInv(p, s) && DoFinishWorker(s, t).Some? && o < |s.origins|
    ensures TallyStep(p, s, DoFinishWorker(s, t).value, o)
  {
    assert AttemptOk(p, s, t);
    MoveTally(p, s, DoFinishWorker(s, t).value, t, o);
  }

  lemma EnqueueTally(p: Params, s: State, t: nat, o: nat)
    requires DataInv(p, s) && DoEnqueue(p, s, t).Some? && o < |s.origins|
    ensures TallyStep(p, s, DoEnqueue(p, s, t).value, o)
  {
    assert AttemptOk(p, s, t);
    NotUnroutable(p, s, t);
    if p.queue in RouteTo(p.broker, p.cfg.exchange, s.attempts[t].frame.key) {
      RoutedTally(p, s, t, o);
    } else {
      MoveTally(p, s, DoEnqueue(p, s, t).value, t, o);
    }
  }

  lemma RoutedTally(p: Params, s: State, t: nat, o: nat)
    requires DataInv(p, s) && DoEnqueue(p, s, t).Some? && o < |s.origins|
    requires AttemptOk(p, s, t) && p.queue in RouteTo(p.broker, p.cfg.exchange, s.attempts[t].frame.key)
    ensures TallyStep(p, s, DoEnqueue(p, s, t).value, o)
  {
    var n := DoEnqueue(p, s, t).value;
    AttemptSums(p, s, n, t, o);
    EnqueuedCounts(p, s, t);
    SumAppend(s.copies, n.copies[|s.copies|], ReadyWork(p, o));
    SumAppend(s.copies, n.copies[|s.copies|], CopyToken(o));
  }

  /** The copy put on the queue carries the count of its delivery plus one. */
  lemma EnqueuedCounts(p: Params, s: State, t: nat)
    requires t < |s.attempts| && AttemptOk(p, s, t) && DoEnqueue(p, s, t).Some?
    ensures
      var n := DoEnqueue(p, s, t).value;
      |n.copies| > |s.copies| ==>
        Count(n.copies[|s.copies|].msg) == s.attempts[t].count + 1 && s.attempts[t].count < p.cfg.maxRetries
  {
    var a := s.attempts[t];
    var msg := s.copies[a.copy].msg;
    assert IsRetryOf(p, msg, a.frame.key, a.frame.pub);
    RetryCountRoundTrip(msg.headers, a.count + 1);
  }

  lemma DeliverTally(p: Params, s: State, c: nat, x: nat, o: nat)
    requires DataInv(p, s) && DoDeliver(s, c, x).Some? && o < |s.origins|
    ensures TallyStep(p, s, DoDeliver(s, c, x).value, o)
  {
    var n := DoDeliver(s, c, x).value;
    CopySums(p, s, n, c, o);
    SumAppend(s.attempts, n.attempts[|s.attempts|], OwedWork(p, o));
    SumAppend(s.attempts, n.attempts[|s.attempts|], AttemptToken(o));
  }

  /** As MoveFits, for a delivery the broker lets go of together with its copy. */
  predicate LetGoFits(p: Params, before: Origin, after: Origin, a: Attempt, b: Attempt, c: Copy, d: Copy) {
    var owed := Owed(p.cfg.maxRetries, b) + CopyWork(p, d) - Owed(p.cfg.maxRetries, a) - CopyWork(p, c);
    && after.msg == before.msg && after.calls == before.calls
    && before.faults <= after.faults <= before.faults + 1
    && (after.allRetryable ==> before.allRetryable)
    && owed <= (if after.faults > before.faults then Weight(p.cfg.maxRetries, a.count) else 0)
    && (after.allRetryable && after.faults == 0 && RetryReturns(p, after.msg) ==>
          owed == 0 && AttemptTokens(b) + CopyTokens(d) == AttemptTokens(a) + CopyTokens(c))
  }

  lemma LetGoTally(p: Params, s: State, n: State, t: nat, o: nat)
    requires DataInv(p, s) && t < |s.attempts| && o < |s.origins| && AttemptOk(p, s, t)
    requires |n.attempts| == |s.attempts| && n.attempts == s.attempts[t := n.attempts[t]]
    requires |n.copies| == |s.copies| && n.copies == s.copies[s.attempts[t].copy := n.copies[s.attempts[t].copy]]
    requires n.attempts[t].origin == s.attempts[t].origin == n.copies[s.attempts[t].copy].origin
    requires |n.origins| == |s.origins|
    requires o != s.attempts[t].origin ==> n.origins[o] == s.origins[o]
    requires
      var c := s.attempts[t].copy;
      o == s.attempts[t].origin ==>
        LetGoFits(p, s.origins[o], n.origins[o], s.attempts[t], n.attempts[t], s.copies[c], n.copies[c])
    ensures TallyStep(p, s, n, o)
  {
    AttemptSums(p, s, n, t, o);
    CopySums(p, s, n, s.attempts[t].copy, o);
    WeightShrinks(p, s, t);
  }

  lemma BrokerSettleFits(p: Params, s: State, t: nat)
    requires DataInv(p, s) && DoBrokerSettle(p, s, t).Some? && FaultsRecorded(s)
    ensures
      var n, a := DoBrokerSettle(p, s, t).value, s.attempts[t];
      LetGoFits(p, s.origins[a.origin], n.origins[a.origin], a, n.attempts[t], s.copies[a.copy], n.copies[a.copy])
  {
    assert AttemptOk(p, s, t);
    NotUnroutable(p, s, t);
  }

  lemma BrokerSettleTally(p: Params, s: State, t: nat, o: nat)
    requires DataInv(p, s) && DoBrokerSettle(p, s, t).Some? && o < |s.origins| && FaultsRecorded(s)
    ensures TallyStep(p, s, DoBrokerSettle(p, s, t).value, o)
  {
    assert AttemptOk(p, s, t);
    BrokerSettleFits(p, s, t);
    LetGoTally(p, s, DoBrokerSettle(p, s, t).value, t, o);
  }

  lemma ReturnToQueueFits(p: Params, s: State, t: nat)
    requires DataInv(p, s) && DoReturnToQueue(s, t).Some? && FaultsRecorded(s)
    ensures
      var n, a := DoReturnToQueue(s, t).value, s.attempts[t];
      LetGoFits(p, s.origins[a.origin], n.origins[a.origin], a, n.attempts[t], s.copies[a.copy], n.copies[a.copy])
  {
    assert AttemptOk(p, s, t);
  }

  lemma ReturnToQueueTally(p: Params, s: State, t: nat, o: nat)
    requires DataInv(p, s) && DoReturnToQueue(s, t).Some? && o < |s.origins| && FaultsRecorded(s)
    ensures TallyStep(p, s, DoReturnToQueue(s, t).value, o)
  {
    assert AttemptOk(p, s, t);
    ReturnToQueueFits(p, s, t);
    LetGoTally(p, s, DoReturnToQueue(s, t).value, t, o);
  }

  /** A copy of another message adds nothing to the sums of this one. */
  lemma ForeignCopySums(p: Params, copies: seq<Copy>, c: Copy, o: nat)
    requires c.origin != o
    ensures Sum(copies + [c], ReadyWork(p, o)) == Sum(copies, ReadyWork(p, o))
    ensures Sum(copies + [c], CopyToken(o)) == Sum(copies, CopyToken(o))
  {
    SumAppend(copies, c, ReadyWork(p, o));
    SumAppend(copies, c, CopyToken(o));
  }

  /** A step that changes no sum of the message, nor the message. */
  lemma SameSumsTally(p: Params, s: State, n: State, o: nat)
    requires o < |s.origins| && o < |n.origins| && n.origins[o] == s.origins[o] && n.attempts == s.attempts
    requires Sum(n.copies, ReadyWork(p, o)) == Sum(s.copies, ReadyWork(p, o))
    requires Sum(n.copies, CopyToken(o)) == Sum(s.copies, CopyToken(o))
    ensures TallyStep(p, s, n, o)
  {
  }

  lemma ProduceTally(p: Params, s: State, msg: Delivery, o: nat)
    requires DataInv(p, s) && o < |s.origins|
    ensures TallyStep(p, s, DoProduce(s, msg), o)
  {
    ForeignCopySums(p, s.copies, Copy(|s.origins|, msg, Ready), o);
    SameSumsTally(p, s, DoProduce(s, msg), o);
  }

  lemma SessionTally(p: Params, s: State, n: State, o: nat)
    requires n.copies == s.copies && n.attempts == s.attempts && n.origins == s.origins && o < |s.origins|
    ensures TallyStep(p, s, n, o)
  {
  }

  lemma WorkerTally(p: Params, s: State, action: Action, o: nat)
    requires DataInv(p, s) && FaultsRecorded(s) && ByWorker(action) && Step(p, s, action).Some? && o < |s.origins|
    ensures TallyOf(p, s, action, o)
  {
    if action.CallHandler? {
      CallHandlerTally(p, s, action.tag, o);
    } else if action.Return? {
      ReturnTally(p, s, action.tag, action.outcome, o);
    } else if action.Publish? {
      PublishTally(p, s, action.tag, action.sent, action.failed, o);
    } else if action.Confirm? {
      ConfirmTally(p, s, action.tag, action.positive, o);
    } else {
      WindDownTally(p, s, action, o);
    }
  }

  lemma WindDownTally(p: Params, s: State, action: Action, o: nat)
    requires action.Settle? || action.ReleaseSlot? || action.FinishWorker?
    requires DataInv(p, s) && Step(p, s, action).Some? && o < |s.origins|
    ensures TallyOf(p, s, action, o)
  {
    if action.Settle? {
      SettleTally(p, s, action.tag, o);
    } else if action.ReleaseSlot? {
      ReleaseSlotTally(p, s, action.tag, o);
    } else {
      FinishWorkerTally(p, s, action.tag, o);
    }
  }

  lemma BrokerTally(p: Params, s: State, action: Action, o: nat)
    requires action.Deliver? || action.Enqueue? || action.BrokerSettle? || action.ReturnToQueue? || action.Produce?
    requires DataInv(p, s) && FaultsRecorded(s) && Step(p, s, action).Some? && o < |s.origins|
    ensures TallyOf(p, s, action, o)
  {
    if action.Deliver? {
      DeliverTally(p, s, action.copy, action.session, o);
    } else if action.Enqueue? {
      EnqueueTally(p, s, action.tag, o);
    } else if action.BrokerSettle? {
      BrokerSettleTally(p, s, action.tag, o);
    } else if action.ReturnToQueue? {
      ReturnToQueueTally(p, s, action.tag, o);
    } else {
      ProduceTally(p, s, action.msg, o);
    }
  }

  ghost predicate TallyOf(p: Params, s: State, action: Action, o: nat)
    requires Step(p, s, action).Some? && o < |s.origins|
  {
    o < |Step(p, s, action).value.origins| && TallyStep(p, s, Step(p, s, action).value, o)
  }

  lemma StepTally(p: Params, s: State, action: Action, o: nat)
    requires DataInv(p, s) && SessionInv(s) && FaultsRecorded(s) && Step(p, s, action).Some? && o < |s.origins|
    ensures TallyOf(p, s, action, o)
  {
    if ByWorker(action) {
      WorkerTally(p, s, action, o);
    } else if action.Deliver? || action.Enqueue? || action.BrokerSettle? || action.ReturnToQueue? || action.Produce? {
      BrokerTally(p, s, action, o);
    } else if action.Receive? {
      ReceiveTally(p, s, action.tag, o);
    } else if action.TakeSlot? || action.ExitLoop? {
      LoopTally(p, s, action, o);
    } else {
      SessionTally(p, s, Step(p, s, action).value, o);
    }
  }

  // ----- the faults of a message are its faulted attempts -----

  function FaultsIn(o: nat): Attempt -> int {
    (a: Attempt) => if a.origin == o && a.faulted then 1 else 0
  }

  function AnyFault(): Attempt -> int {
    (a: Attempt) => if a.faulted then 1 else 0
  }

  function CallsOf(): Origin -> int { (o: Origin) => o.calls }

  function FaultsOf(): Origin -> int { (o: Origin) => o.faults }

  /** The faults booked for each message, and for all together, are as many as its attempts that are faulted. */
  ghost predicate FaultsCounted(s: State) {
    && (forall o :: 0 <= o < |s.origins| ==> s.origins[o].faults == Sum(s.attempts, FaultsIn(o)))
    && Sum(s.origins, FaultsOf()) == Sum(s.attempts, AnyFault())
  }

  lemma CountedIsRecorded(s: State)
    requires FaultsCounted(s)
    ensures FaultsRecorded(s)
  {
    forall t | 0 <= t < |s.attempts| && s.attempts[t].faulted && s.attempts[t].origin < |s.origins|
      ensures s.origins[s.attempts[t].origin].faults > 0
    {
      SumAtLeast(s.attempts, t, FaultsIn(s.attempts[t].origin));
    }
  }

  /** Only delivery `t` and its message change, and a fault of the one is a fault of the other. */
  predicate BlameStep(s: State, n: State, t: nat) {
    && t < |s.attempts| && |n.attempts| == |s.attempts| && n.attempts == s.attempts[t := n.attempts[t]]
    && var a, b := s.attempts[t], n.attempts[t];
    && a.origin < |s.origins| && b.origin == a.origin && (a.faulted ==> b.faulted)
    && |n.origins| == |s.origins| && n.origins == s.origins[a.origin := n.origins[a.origin]]
    && n.origins[a.origin].faults == s.origins[a.origin].faults + (if b.faulted && !a.faulted then 1 else 0)
  }

  lemma BlameStepCounts(s: State, n: State, t: nat)
    requires FaultsCounted(s) && BlameStep(s, n, t)
    ensures FaultsCounted(n)
  {
    var x := s.attempts[t].origin;
    SumUpdate(s.attempts, t, n.attempts[t], AnyFault());
    SumUpdate(s.origins, x, n.origins[x], FaultsOf());
    forall o | 0 <= o < |n.origins| ensures n.origins[o].faults == Sum(n.attempts, FaultsIn(o)) {
      SumUpdate(s.attempts, t, n.attempts[t], FaultsIn(o));
    }
  }

  /** The steps that can put the blame on an attempt, and the return of a handler. */
  predicate CanBlame(action: Action) {
    action.CallHandler? || action.Publish? || action.Confirm? || action.ReturnToQueue? || action.Return?
  }

  lemma CallBlames(s: State, t: nat)
    requires DoCallHandler(s, t).Some?
    ensures BlameStep(s, DoCallHandler(s, t).value, t)
  {
  }

  lemma ReturnToQueueBlames(s: State, t: nat)
    requires DoReturnToQueue(s, t).Some?
    ensures BlameStep(s, DoReturnToQueue(s, t).value, t)
  {
  }

  lemma PublishBlames(p: Params, s: State, t: nat, sent: bool, failed: bool)
    requires DoPublish(p, s, t, sent, failed).Some?
    ensures BlameStep(s, DoPublish(p, s, t, sent, failed).value, t)
  {
    var a := s.attempts[t];
    var b := AfterPublish(p, a, s.copies[a.copy].msg, sent && !s.sessions[a.session].lost, failed);
    assert b.faulted == a.faulted && b.origin == a.origin;
  }

  lemma ConfirmBlames(s: State, t: nat, positive: bool)
    requires DoConfirm(s, t, positive).Some?
    ensures BlameStep(s, DoConfirm(s, t, positive).value, t)
  {
  }

  lemma StepBlames(p: Params, s: State, action: Action)
    requires CanBlame(action) && Step(p, s, action).Some?
    ensures BlameStep(s, Step(p, s, action).value, action.tag)
  {
    if action.CallHandler? {
      CallBlames(s, action.tag);
    } else if action.Publish? {
      PublishBlames(p, s, action.tag, action.sent, action.failed);
    } else if action.Confirm? {
      ConfirmBlames(s, action.tag, action.positive);
    } else if action.ReturnToQueue? {
      ReturnToQueueBlames(s, action.tag);
    }
  }

  /** Deliveries and messages that were there keep their faults, and new ones, at most one, have none. */
  predicate FaultsAgree(s: State, n: State) {
    && |s.attempts| <= |n.attempts| <= |s.attempts| + 1 && |s.origins| <= |n.origins| <= |s.origins| + 1
    && (forall t :: 0 <= t < |s.attempts| ==>
          n.attempts[t].faulted == s.attempts[t].faulted && n.attempts[t].origin == s.attempts[t].origin)
    && (forall t :: |s.attempts| <= t < |n.attempts| ==> !n.attempts[t].faulted)
    && (forall o :: 0 <= o < |s.origins| ==> n.origins[o] == s.origins[o])
    && (forall o :: |s.origins| <= o < |n.origins| ==> n.origins[o].faults == 0)
  }

  lemma SameFaults(p: Params, s: State, action: Action)
    requires !CanBlame(action) && Step(p, s, action).Some?
    ensures FaultsAgree(s, Step(p, s, action).value)
  {
  }

  /** A count over the deliveries that does not look at more than whose they are and whether they are faulted. */
  lemma SameFaultSum(s: State, n: State, f: Attempt -> int)
    requires FaultsAgree(s, n)
    requires forall a: Attempt, b: Attempt :: a.faulted == b.faulted && a.origin == b.origin ==> f(a) == f(b)
    requires forall a: Attempt :: !a.faulted ==> f(a) == 0
    ensures Sum(n.attempts, f) == Sum(s.attempts, f)
  {
    var k := |s.attempts|;
    SumEqual(s.attempts, n.attempts[..k], f);
    if |n.attempts| > k {
      assert n.attempts == n.attempts[..k] + [n.attempts[k]];
      SumAppend(n.attempts[..k], n.attempts[k], f);
    } else {
      assert n.attempts == n.attempts[..k];
    }
  }

  lemma SameOriginSum(s: State, n: State)
    requires FaultsAgree(s, n)
    ensures Sum(n.origins, FaultsOf()) == Sum(s.origins, FaultsOf())
  {
    var k := |s.origins|;
    assert n.origins[..k] == s.origins;
    if |n.origins| > k {
      assert n.origins == s.origins + [n.origins[k]];
      SumAppend(s.origins, n.origins[k], FaultsOf());
    } else {
      assert n.origins == n.origins[..k];
    }
  }

  lemma AgreeingStepCounts(s: State, n: State)
    requires FaultsCounted(s) && FaultsAgree(s, n)
    requires forall t :: 0 <= t < |s.attempts| ==> s.attempts[t].origin < |s.origins|
    ensures FaultsCounted(n)
  {
    SameFaultSum(s, n, AnyFault());
    SameOriginSum(s, n);
    forall o | 0 <= o < |n.origins| ensures n.origins[o].faults == Sum(n.attempts, FaultsIn(o)) {
      SameFaultSum(s, n, FaultsIn(o));
      if o >= |s.origins| {
        SumZero(s.attempts, FaultsIn(o));
      }
    }
  }

  lemma StepCountsFaults(p: Params, s: State, action: Action)
    requires DataInv(p, s) && FaultsCounted(s) && Step(p, s, action).Some?
    ensures FaultsCounted(Step(p, s, action).value)
  {
    if CanBlame(action) {
      StepBlames(p, s, action);
      BlameStepCounts(s, Step(p, s, action).value, action.tag);
    } else {
      forall t | 0 <= t < |s.attempts| ensures s.attempts[t].origin < |s.origins| {
        assert AttemptOk(p, s, t);
      }
      SameFaults(p, s, action);
      AgreeingStepCounts(s, Step(p, s, action).value);
    }
  }

  /**
   * In every run the faults that a message's calls are bounded by are its faulted attempts, and so for all
   * messages together.
   */
  lemma {:induction false} FaultsAreFaultedAttempts(p: Params, run: seq<Action>)
    requires Exec(p, run).Some?
    ensures FaultsCounted(Exec(p, run).value)
  {
    if run != [] {
      var before := run[..|run| - 1];
      FaultsAreFaultedAttempts(p, before);
      RunsKeepInvariant(p, before);
      StepCountsFaults(p, Exec(p, before).value, run[|run| - 1]);
    }
  }

  /** A message that has just been produced has its whole weight ahead of it, and one token. */
  lemma FreshTally(p: Params, s: State, msg: Delivery)
    requires DataInv(p, s)
    ensures
      var n := DoProduce(s, msg);
      && Tally(p, n, |s.origins|) == Weight(p.cfg.maxRetries, Count(msg))
      && Tokens(n, |s.origins|) == 1
  {
    var o := |s.origins|;
    forall c | 0 <= c < |s.copies| ensures s.copies[c].origin < o { assert CopyOk(p, s, c); }
    forall t | 0 <= t < |s.attempts| ensures s.attempts[t].origin < o { assert AttemptOk(p, s, t); }
    SumZero(s.copies, ReadyWork(p, o));
    SumZero(s.copies, CopyToken(o));
    SumZero(s.attempts, OwedWork(p, o));
    SumZero(s.attempts, AttemptToken(o));
    SumAppend(s.copies, Copy(o, msg, Ready), ReadyWork(p, o));
    SumAppend(s.copies, Copy(o, msg, Ready), CopyToken(o));
  }

  /** The bound kept for a message, and the exact balance while nothing disturbs it. */
  ghost predicate WorkOk(p: Params, s: State, o: nat)
    requires o < |s.origins|
  {
    var w := Weight(p.cfg.maxRetries, Count(s.origins[o].msg));
    && Tally(p, s, o) <= w * (1 + s.origins[o].faults)
    && (Undisturbed(p, s, o) ==> Tally(p, s, o) == w && Tokens(s, o) == 1)
  }

  lemma TallyStepKeepsWork(p: Params, s: State, n: State, o: nat)
    requires o < |s.origins| && o < |n.origins| && WorkOk(p, s, o) && TallyStep(p, s, n, o)
    ensures WorkOk(p, n, o)
  {
    var w := Weight(p.cfg.maxRetries, Count(s.origins[o].msg));
    if n.origins[o].faults > s.origins[o].faults {
      assert w * (1 + n.origins[o].faults) == w * (1 + s.origins[o].faults) + w;
    }
  }

  lemma StepKeepsWork(p: Params, s: State, action: Action, o: nat)
    requires DataInv(p, s) && SessionInv(s) && FaultsRecorded(s) && Step(p, s, action).Some?
    requires o < |s.origins| ==> WorkOk(p, s, o)
    requires o < |Step(p, s, action).value.origins|
    ensures WorkOk(p, Step(p, s, action).value, o)
  {
    if o < |s.origins| {
      StepTally(p, s, action, o);
      TallyStepKeepsWork(p, s, Step(p, s, action).value, o);
    } else {
      StepAddsNoOrigin(p, s, action);
      FreshTally(p, s, action.msg);
    }
  }

  ghost predicate WorkInv(p: Params, s: State) {
    FaultsRecorded(s) && forall o :: 0 <= o < |s.origins| ==> WorkOk(p, s, o)
  }

  lemma {:induction false} RunsKeepWork(p: Params, run: seq<Action>)
    requires Exec(p, run).Some?
    ensures WorkInv(p, Exec(p, run).value)
  {
    FaultsAreFaultedAttempts(p, run);
    CountedIsRecorded(Exec(p, run).value);
    if run != [] {
      var before := run[..|run| - 1];
      RunsKeepWork(p, before);
      RunsKeepInvariant(p, before);
      forall o | 0 <= o < |Exec(p, run).value.origins| ensures WorkOk(p, Exec(p, run).value, o) {
        StepKeepsWork(p, Exec(p, before).value, run[|run| - 1], o);
      }
    }
  }

  lemma StepAddsNoOrigin(p: Params, s: State, action: Action)
    requires Step(p, s, action).Some?
    ensures |Step(p, s, action).value.origins| == |s.origins| + if action.Produce? then 1 else 0
  {
  }

  // ----- the results -----

  lemma TallyCoversCalls(p: Params, s: State, o: nat)
    requires o < |s.origins|
    ensures s.origins[o].calls <= Tally(p, s, o)
  {
    SumNonNegative(s.copies, ReadyWork(p, o));
    SumNonNegative(s.attempts, OwedWork(p, o));
  }

  /**
   * Handler calls for one message: in every run at most one full course of retries, plus one for every
   * faulted attempt (a retry publish reported failed, or a settlement lost with the channel).
   */
  lemma {:induction false} CallsBounded(p: Params, run: seq<Action>, o: nat)
    requires Exec(p, run).Some? && o < |Exec(p, run).value.origins|
    ensures WithinBudget(p, Exec(p, run).value.origins[o])
  {
    RunsKeepWork(p, run);
    BudgetFromWork(p, Exec(p, run).value, o);
  }

  predicate WithinBudget(p: Params, m: Origin) {
    m.calls <= Weight(p.cfg.maxRetries, Count(m.msg)) * (1 + m.faults)
  }

  lemma BudgetFromWork(p: Params, s: State, o: nat)
    requires o < |s.origins| && WorkOk(p, s, o)
    ensures WithinBudget(p, s.origins[o])
  {
    TallyCoversCalls(p, s, o);
  }

  lemma {:induction false} SumBound(origins: seq<Origin>, bound: nat)
    requires forall o :: 0 <= o < |origins| ==> origins[o].calls <= bound * (1 + origins[o].faults)
    ensures Sum(origins, CallsOf()) <= bound * (|origins| + Sum(origins, FaultsOf()))
  {
    if origins != [] {
      var rest, last := origins[..|origins| - 1], origins[|origins| - 1];
      SumBound(rest, bound);
      var f := Sum(rest, FaultsOf());
      assert bound * (|rest| + f) + bound * (1 + last.faults) == bound * (|origins| + f + last.faults);
    }
  }

  /** At most (N + F) * (MaxRetries + 1) calls for N messages with F faulted attempts. */
  predicate WithinTotal(p: Params, s: State) {
    var perMessage := if p.cfg.maxRetries > 0 then p.cfg.maxRetries + 1 else 1;
    Sum(s.origins, CallsOf()) <= perMessage * (|s.origins| + Sum(s.attempts, AnyFault()))
  }

  predicate CountsFromZero(origins: seq<Origin>) {
    forall o :: 0 <= o < |origins| ==> Count(origins[o].msg) >= 0
  }

  /** All handler calls of a run together, for messages that came with non-negative counts. */
  lemma {:induction false} TotalCallsBounded(p: Params, run: seq<Action>)
    requires Exec(p, run).Some? && CountsFromZero(Exec(p, run).value.origins)
    ensures WithinTotal(p, Exec(p, run).value)
  {
    RunsKeepWork(p, run);
    FaultsAreFaultedAttempts(p, run);
    SumOfBudgets(p, Exec(p, run).value);
  }

  lemma SumOfBudgets(p: Params, s: State)
    requires CountsFromZero(s.origins) && FaultsCounted(s) && forall o :: 0 <= o < |s.origins| ==> WorkOk(p, s, o)
    ensures WithinTotal(p, s)
  {
    var origins := s.origins;
    var perMessage: nat := if p.cfg.maxRetries > 0 then p.cfg.maxRetries + 1 else 1;
    forall o | 0 <= o < |origins| ensures origins[o].calls <= perMessage * (1 + origins[o].faults) {
      BudgetFromWork(p, s, o);
      WeightTimes(Weight(p.cfg.maxRetries, Count(origins[o].msg)), perMessage, 1 + origins[o].faults);
    }
    SumBound(origins, perMessage);
  }

  lemma WeightTimes(a: nat, b: nat, k: nat)
    requires a <= b
    ensures a * k <= b * k
  {
  }

  /** No copy of the message is left at the broker. */
  predicate Over(s: State, o: nat) {
    forall c :: 0 <= c < |s.copies| && s.copies[c].origin == o ==> !Live(s.copies[c])
  }

  function RejectedCopies(o: nat): Copy -> int {
    (c: Copy) => if c.origin == o && (c.loc.DeadLettered? || c.loc.Dropped?) then 1 else 0
  }

  lemma NothingOwed(p: Params, s: State, o: nat)
    requires DataInv(p, s) && FaultsRecorded(s) && o < |s.origins| && s.origins[o].faults == 0 && Over(s, o)
    ensures Sum(s.copies, ReadyWork(p, o)) == 0 && Sum(s.attempts, OwedWork(p, o)) == 0
    ensures Sum(s.attempts, AttemptToken(o)) == 0
    ensures Sum(s.copies, CopyToken(o)) == Sum(s.copies, RejectedCopies(o))
  {
    forall t | 0 <= t < |s.attempts| ensures OwedWork(p, o)(s.attempts[t]) == 0 && AttemptToken(o)(s.attempts[t]) == 0 {
      assert AttemptOk(p, s, t);
      if s.attempts[t].origin == o {
        QuietAttempt(p, s.attempts[t]);
      }
    }
    SumZero(s.copies, ReadyWork(p, o));
    SumZero(s.attempts, OwedWork(p, o));
    SumZero(s.attempts, AttemptToken(o));
    SumMonotone(s.copies, CopyToken(o), RejectedCopies(o));
    SumMonotone(s.copies, RejectedCopies(o), CopyToken(o));
  }

  lemma QuietAttempt(p: Params, a: Attempt)
    requires PhaseOk(p, a) && !a.holds && !a.faulted
    requires a.frame != NoFrame ==> PlanFor(p.cfg.maxRetries, a.count, a.outcome) == Republish && Called(a.pc)
    ensures Owed(p.cfg.maxRetries, a) == 0 && !InHand(a)
  {
  }

  /**
   * Without faults, a message whose handler always fails retryably is tried exactly max(0, MaxRetries - r) + 1
   * times, r being the count it came with, and then rejected exactly once.
   */
  lemma {:induction false} AlwaysFailingMessage(p: Params, run: seq<Action>, o: nat)
    requires Exec(p, run).Some? && o < |Exec(p, run).value.origins|
    requires Undisturbed(p, Exec(p, run).value, o) && Over(Exec(p, run).value, o)
    ensures
      var s := Exec(p, run).value;
      var r := Count(s.origins[o].msg);
      && s.origins[o].calls == (if r < p.cfg.maxRetries then p.cfg.maxRetries - r else 0) + 1
      && Sum(s.copies, RejectedCopies(o)) == 1
  {
    var s := Exec(p, run).value;
    RunsKeepWork(p, run);
    RunsKeepInvariant(p, run);
    assert WorkOk(p, s, o);
    NothingOwed(p, s, o);
  }
}
