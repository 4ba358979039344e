/** The invariant every run of the consumer machine keeps, one lemma per step. */
module ConsumerInvariant {
  import opened Options
  import opened Sums
  import opened Retry
  import opened Topology
  import opened Settlement
  import opened ConsumerMachine

  /** The retry copy of this delivery, published under this key. */
  predicate IsRetryOf(p: Params, msg: Delivery, key: string, pub: Publishing) {
    && Count(msg) < MAX_INT64
    && RetryPublishing(msg, Count(msg) + 1) == Some(pub)
    && key == RetryKey(msg.routingKey, p.key)
  }

  /** The calls made before the settlement, and what justifies the way a delivery is settled. */
  predicate JustifiedBefore(p: Params, a: Attempt, how: How, before: seq<Call>) {
    match how
    case AckSuccess => before == [] && a.outcome == Succeeded
    case AckRetried => |before| == 1 && before[0].PublishRetry? && (a.frame.Enqueued? || a.frame.Unroutable?)
                       && PlanFor(p.cfg.maxRetries, a.count, a.outcome) == Republish && p.cfg.maxRetries > 0
    case DeadLetter => before == [] && PlanFor(p.cfg.maxRetries, a.count, a.outcome) == Reject
    case Requeue => (before == [] || (|before| == 1 && before[0].PublishRetry?)) && a.faulted
                    && PlanFor(p.cfg.maxRetries, a.count, a.outcome) == Republish
  }

  /** The phase of a delivery fits the calls it has made. */
  predicate PhaseOk(p: Params, a: Attempt) {
    match a.pc
    case Buffered | Waiting | Abandoned | Started => a.calls == [] && a.frame == NoFrame && !a.faulted
    case Handling => a.calls == [] && a.frame == NoFrame && (!a.holds ==> a.faulted) && (a.holds ==> !a.faulted)
    case Retrying =>
      && a.calls == [] && a.frame == NoFrame && (!a.holds ==> a.faulted) && (a.holds ==> !a.faulted)
      && PlanFor(p.cfg.maxRetries, a.count, a.outcome) == Republish
    case Confirming =>
      && |a.calls| == 1 && a.calls[0].PublishRetry? && (!a.holds ==> a.faulted) && (a.holds ==> !a.faulted)
      && p.cfg.maxRetries > 0
      && PlanFor(p.cfg.maxRetries, a.count, a.outcome) == Republish
    case Settling(how) => JustifiedBefore(p, a, how, a.calls)
    case Settled(how) => SettledOk(p, a, how)
    case Released(how) => SettledOk(p, a, how)
    case Finished(how) => SettledOk(p, a, how)
  }

  predicate SettledOk(p: Params, a: Attempt, how: How) {
    && |a.calls| > 0
    && a.calls[|a.calls| - 1] == SettleCall(how)
    && JustifiedBefore(p, a, how, a.calls[..|a.calls| - 1])
    && a.result == Report(how, a.outcome == NonRetryable)
  }

  predicate FrameOk(p: Params, s: State, a: Attempt)
    requires a.copy < |s.copies|
  {
    var msg := s.copies[a.copy].msg;
    && (a.frame != NoFrame ==> PlanFor(p.cfg.maxRetries, a.count, a.outcome) == Republish && Called(a.pc))
    && (a.frame.InTransit? ==> IsRetryOf(p, msg, a.frame.key, a.frame.pub))
    && (a.frame.Enqueued? ==> IsRetryCopy(p, s, a.copy, a.frame.at))
    && (a.frame.Unroutable? ==>
          && NextDelivery(msg, p.cfg.exchange, p.key).Some?
          && p.queue !in RouteTo(p.broker, p.cfg.exchange, RetryKey(msg.routingKey, p.key)))
  }

  /** Copy `next` is the retry of copy `c`: later, of the same message, one count further, otherwise unchanged. */
  predicate IsRetryCopy(p: Params, s: State, c: nat, next: nat) {
    && c < next < |s.copies|
    && s.copies[next].origin == s.copies[c].origin
    && NextDelivery(s.copies[c].msg, p.cfg.exchange, p.key) == Some(s.copies[next].msg)
  }

  predicate LoopOver(loop: Loop) {
    loop.Exited? || loop.ChannelClosed?
  }

  predicate AttemptOk(p: Params, s: State, t: nat)
    requires t < |s.attempts|
  {
    var a := s.attempts[t];
    && a.copy < |s.copies| && a.origin < |s.origins| && a.session < |s.sessions|
    && s.copies[a.copy].origin == a.origin
    && Count(s.copies[a.copy].msg) == a.count
    && (a.holds <==> s.copies[a.copy].loc == Unacked(t))
    && PhaseOk(p, a)
    && FrameOk(p, s, a)
    && (a.pc.Waiting? ==> s.sessions[a.session].loop == AwaitingSlot(t))
    && (a.pc.Abandoned? ==> LoopOver(s.sessions[a.session].loop))
    && (a.holds && a.faulted ==> a.pc == Settling(Requeue) || (Issued(a.pc) && a.pc.how == Requeue))
  }

  /** Delivery `t` of copy `c` was settled in this way, and the broker has processed it. */
  predicate SettledBy(s: State, c: nat, t: nat, how: How) {
    && t < |s.attempts|
    && s.attempts[t].copy == c
    && !s.attempts[t].holds
    && Issued(s.attempts[t].pc) && s.attempts[t].pc.how == how
  }

  predicate CopyOk(p: Params, s: State, c: nat)
    requires c < |s.copies|
  {
    var copy := s.copies[c];
    && copy.origin < |s.origins|
    && Count(s.origins[copy.origin].msg) <= Count(copy.msg)
    && (copy.loc.Unacked? ==>
          copy.loc.tag < |s.attempts| && s.attempts[copy.loc.tag].copy == c && s.attempts[copy.loc.tag].holds)
    && (copy.loc.Done? ==> SettledBy(s, c, copy.loc.via, AckSuccess))
    && (copy.loc.RetriedAs? ==> SettledBy(s, c, copy.loc.via, AckRetried) && IsRetryCopy(p, s, c, copy.loc.next))
    && (copy.loc.Vanished? ==>
          && SettledBy(s, c, copy.loc.via, AckRetried)
          && 0 < p.cfg.maxRetries && Count(copy.msg) < p.cfg.maxRetries
          && NextDelivery(copy.msg, p.cfg.exchange, p.key).Some?
          && p.queue !in RouteTo(p.broker, p.cfg.exchange, RetryKey(copy.msg.routingKey, p.key)))
    && (copy.loc.DeadLettered? ==>
          SettledBy(s, c, copy.loc.via, DeadLetter) && DeadLetterTargets(p.broker, p.queue, copy.msg.routingKey) != {})
    && (copy.loc.Dropped? ==>
          SettledBy(s, c, copy.loc.via, DeadLetter) && DeadLetterTargets(p.broker, p.queue, copy.msg.routingKey) == {})
    && (c != s.origins[copy.origin].first ==>
          p.queue in RouteTo(p.broker, p.cfg.exchange, copy.msg.routingKey)
          && copy.msg.routingKey == RetryKey(s.origins[copy.origin].msg.routingKey, p.key))
  }

  predicate OriginOk(s: State, o: nat)
    requires o < |s.origins|
  {
    && s.origins[o].first < |s.copies|
    && s.copies[s.origins[o].first].origin == o
    && s.copies[s.origins[o].first].msg == s.origins[o].msg
  }

  ghost predicate DataInv(p: Params, s: State) {
    && (forall t :: 0 <= t < |s.attempts| ==> AttemptOk(p, s, t))
    && (forall c :: 0 <= c < |s.copies| ==> CopyOk(p, s, c))
    && (forall o :: 0 <= o < |s.origins| ==> OriginOk(s, o))
  }

  /** Copies are only added, and what a copy is never changes. */
  predicate CopiesGrow(s: State, n: State) {
    && |s.copies| <= |n.copies|
    && forall c :: 0 <= c < |s.copies| ==>
          n.copies[c].origin == s.copies[c].origin && n.copies[c].msg == s.copies[c].msg
  }

  lemma AttemptUntouched(p: Params, s: State, n: State, u: nat)
    requires u < |s.attempts| && AttemptOk(p, s, u) && CopiesGrow(s, n)
    requires u < |n.attempts| && n.attempts[u] == s.attempts[u]
    requires |s.origins| <= |n.origins| && |s.sessions| <= |n.sessions|
    requires s.attempts[u].holds <==> n.copies[s.attempts[u].copy].loc == Unacked(u)
    requires
      var before, after := s.sessions[s.attempts[u].session].loop, n.sessions[s.attempts[u].session].loop;
      (s.attempts[u].pc.Waiting? && before == AwaitingSlot(u) ==> after == before) && (LoopOver(before) ==>
          LoopOver(after))
    ensures AttemptOk(p, n, u)
  {
  }

  /** Deliveries are only added, keep their copy and their settlement, and are not taken back. */
  predicate AttemptsKeep(s: State, n: State) {
    && |s.attempts| <= |n.attempts|
    && forall t :: 0 <= t < |s.attempts| ==>
                     && n.attempts[t].copy == s.attempts[t].copy
                     && n.attempts[t].holds == s.attempts[t].holds
                     && (Issued(s.attempts[t].pc) ==>
                           Issued(n.attempts[t].pc) && n.attempts[t].pc.how == s.attempts[t].pc.how)
  }

  predicate OriginsKeep(s: State, n: State) {
    && |s.origins| <= |n.origins|
    && forall o :: 0 <= o < |s.origins| ==>
          n.origins[o].first == s.origins[o].first && n.origins[o].msg == s.origins[o].msg
  }

  lemma CopyUntouched(p: Params, s: State, n: State, c: nat)
    requires c < |s.copies| && CopyOk(p, s, c)
    requires CopiesGrow(s, n) && AttemptsKeep(s, n) && OriginsKeep(s, n)
    requires n.copies[c] == s.copies[c]
    ensures CopyOk(p, n, c)
  {
  }

  lemma ProduceKeepsData(p: Params, s: State, msg: Delivery)
    requires DataInv(p, s)
    ensures DataInv(p, DoProduce(s, msg))
  {
    var n := DoProduce(s, msg);
    forall t | 0 <= t < |n.attempts| ensures AttemptOk(p, n, t) { assert AttemptOk(p, s, t); }
    forall c | 0 <= c < |n.copies| ensures CopyOk(p, n, c) { if c < |s.copies| { assert CopyOk(p, s, c); } }
    forall o | 0 <= o < |n.origins| ensures OriginOk(n, o) { if o < |s.origins| { assert OriginOk(s, o); } }
  }

  lemma DeliverKeepsData(p: Params, s: State, c: nat, x: nat)
    requires DataInv(p, s) && DoDeliver(s, c, x).Some?
    ensures DataInv(p, DoDeliver(s, c, x).value)
  {
    var n := DoDeliver(s, c, x).value;
    assert CopyOk(p, s, c);
    forall t | 0 <= t < |n.attempts| ensures AttemptOk(p, n, t) { if t < |s.attempts| { assert AttemptOk(p, s, t); } }
    forall d | 0 <= d < |n.copies| ensures CopyOk(p, n, d) { assert CopyOk(p, s, d); }
    forall o | 0 <= o < |n.origins| ensures OriginOk(n, o) { assert OriginOk(s, o); }
  }

  /** Steps that change one delivery's phase, possibly a session or the tallies of its message, but no existing copy. */
  ghost predicate OnlyAttemptMoves(s: State, n: State, t: nat) {
    && t < |s.attempts| && |n.attempts| == |s.attempts| && n.attempts[t].copy == s.attempts[t].copy
    && |n.sessions| == |s.sessions| && |n.origins| == |s.origins|
    && (forall o :: 0 <= o < |s.origins| ==>
          n.origins[o].first == s.origins[o].first && n.origins[o].msg == s.origins[o].msg)
    && (forall u :: 0 <= u < |s.attempts| && u != t ==> n.attempts[u] == s.attempts[u])
    && (forall u :: 0 <= u < |s.attempts| && u != t && s.attempts[u].pc.Waiting? && s.attempts[u].session < |s.sessions|
                    && s.sessions[s.attempts[u].session].loop == AwaitingSlot(u)
                    ==> n.sessions[s.attempts[u].session].loop == AwaitingSlot(u))
    && (forall x :: 0 <= x < |s.sessions| && LoopOver(s.sessions[x].loop) ==> LoopOver(n.sessions[x].loop))
    && n.attempts[t].holds == s.attempts[t].holds
    && (Issued(s.attempts[t].pc) ==> Issued(n.attempts[t].pc) && n.attempts[t].pc.how == s.attempts[t].pc.how)
  }

  lemma MoveKeepsData(p: Params, s: State, n: State, t: nat)
    requires DataInv(p, s) && OnlyAttemptMoves(s, n, t) && AttemptOk(p, n, t)
    requires n.copies == s.copies
    ensures DataInv(p, n)
  {
    MoveAndGrowKeepsData(p, s, n, t);
  }

  lemma MoveAndGrowKeepsData(p: Params, s: State, n: State, t: nat)
    requires DataInv(p, s) && OnlyAttemptMoves(s, n, t) && AttemptOk(p, n, t)
    requires |s.copies| <= |n.copies| && s.copies == n.copies[..|s.copies|]
    requires forall c :: |s.copies| <= c < |n.copies| ==> CopyOk(p, n, c)
    ensures DataInv(p, n)
  {
    assert forall c :: 0 <= c < |s.copies| ==> n.copies[c] == n.copies[..|s.copies|][c];
    forall u | 0 <= u < |n.attempts| ensures AttemptOk(p, n, u) {
      if u != t {
        assert AttemptOk(p, s, u);
        AttemptUntouched(p, s, n, u);
      }
    }
    forall d | 0 <= d < |n.copies| ensures CopyOk(p, n, d) {
      if d < |s.copies| {
        assert CopyOk(p, s, d);
        CopyUntouched(p, s, n, d);
      }
    }
    forall o | 0 <= o < |n.origins| ensures OriginOk(n, o) { assert OriginOk(s, o); }
  }

  lemma SessionStepKeepsData(p: Params, s: State, n: State)
    requires DataInv(p, s)
    requires n.attempts == s.attempts && n.copies == s.copies && n.origins == s.origins && |n.sessions| >= |s.sessions|
    requires forall x :: 0 <= x < |s.sessions| && s.sessions[x].loop.AwaitingSlot? ==>
        n.sessions[x].loop == s.sessions[x].loop
    requires forall x :: 0 <= x < |s.sessions| && LoopOver(s.sessions[x].loop) ==> LoopOver(n.sessions[x].loop)
    ensures DataInv(p, n)
  {
    forall t | 0 <= t < |n.attempts| ensures AttemptOk(p, n, t) { assert AttemptOk(p, s, t); }
    forall c | 0 <= c < |n.copies| ensures CopyOk(p, n, c) { assert CopyOk(p, s, c); }
    forall o | 0 <= o < |n.origins| ensures OriginOk(n, o) { assert OriginOk(s, o); }
  }

  lemma ReceiveKeepsData(p: Params, s: State, t: nat)
    requires DataInv(p, s) && DoReceive(s, t).Some?
    ensures DataInv(p, DoReceive(s, t).value)
  {
    assert AttemptOk(p, s, t);
    MoveKeepsData(p, s, DoReceive(s, t).value, t);
  }

  lemma TakeSlotKeepsData(p: Params, s: State, x: nat)
    requires DataInv(p, s) && SessionInv(s) && DoTakeSlot(s, x).Some?
    ensures DataInv(p, DoTakeSlot(s, x).value)
  {
    var t := s.sessions[x].loop.tag;
    assert SessionOk(s, x) && AttemptOk(p, s, t);
    MoveKeepsData(p, s, DoTakeSlot(s, x).value, t);
  }

  lemma ExitLoopKeepsData(p: Params, s: State, x: nat)
    requires DataInv(p, s) && SessionInv(s) && DoExitLoop(s, x).Some?
    ensures DataInv(p, DoExitLoop(s, x).value)
  {
    var n := DoExitLoop(s, x).value;
    if s.sessions[x].loop.AwaitingSlot? {
      var t := s.sessions[x].loop.tag;
      assert SessionOk(s, x) && AttemptOk(p, s, t);
      MoveKeepsData(p, s, n, t);
    } else {
      SessionStepKeepsData(p, s, n);
    }
  }

  lemma CallHandlerKeepsData(p: Params, s: State, t: nat)
    requires DataInv(p, s) && DoCallHandler(s, t).Some?
    ensures DataInv(p, DoCallHandler(s, t).value)
  {
    assert AttemptOk(p, s, t);
    MoveKeepsData(p, s, DoCallHandler(s, t).value, t);
  }

  lemma HandlerReturnKeepsData(p: Params, s: State, t: nat, outcome: Outcome)
    requires DataInv(p, s) && DoReturn(p, s, t, outcome).Some?
    ensures DataInv(p, DoReturn(p, s, t, outcome).value)
  {
    assert AttemptOk(p, s, t);
    MoveKeepsData(p, s, DoReturn(p, s, t, outcome).value, t);
  }

  lemma PublishedAttemptOk(p: Params, s: State, t: nat, sent: bool, failed: bool)
    requires t < |s.attempts| && AttemptOk(p, s, t) && DoPublish(p, s, t, sent, failed).Some?
    ensures AttemptOk(p, DoPublish(p, s, t, sent, failed).value, t)
  {
    var a := s.attempts[t];
    PublishedPhaseOk(p, a, s.copies[a.copy].msg, sent && !s.sessions[a.session].lost, failed);
  }

  lemma PublishKeepsData(p: Params, s: State, t: nat, sent: bool, failed: bool)
    requires DataInv(p, s) && DoPublish(p, s, t, sent, failed).Some?
    ensures DataInv(p, DoPublish(p, s, t, sent, failed).value)
  {
    var a := s.attempts[t];
    PublishedAttemptOk(p, s, t, sent, failed);
    PublishedPhaseOk(p, a, s.copies[a.copy].msg, sent && !s.sessions[a.session].lost, failed);
    MoveKeepsData(p, s, DoPublish(p, s, t, sent, failed).value, t);
  }

  lemma PublishedPhaseOk(p: Params, a: Attempt, msg: Delivery, sent: bool, failed: bool)
    requires a.pc.Retrying? && PhaseOk(p, a) && Count(msg) == a.count < MAX_INT64
    ensures
      var b := AfterPublish(p, a, msg, sent, failed);
      && (b.pc.Confirming? ==> PhaseOk(p, b))
      && (!b.pc.Confirming? ==> b.pc == Settling(Requeue) && PhaseOk(p, b.(faulted := true)))
      && (b.frame == NoFrame || (b.frame.InTransit? && IsRetryOf(p, msg, b.frame.key, b.frame.pub)))
      && b == a.(calls := b.calls, frame := b.frame, pc := b.pc)
  {
    var b := AfterPublish(p, a, msg, sent, failed);
    match RetryPublishing(msg, a.count + 1) {
      case None =>
      case Some(pub) => assert b.calls == [PublishRetry(RetryKey(msg.routingKey, p.key), pub)];
    }
  }

  lemma ConfirmKeepsData(p: Params, s: State, t: nat, positive: bool)
    requires DataInv(p, s) && DoConfirm(s, t, positive).Some?
    ensures DataInv(p, DoConfirm(s, t, positive).value)
  {
    assert AttemptOk(p, s, t);
    MoveKeepsData(p, s, DoConfirm(s, t, positive).value, t);
  }

  lemma SettledPhaseOk(p: Params, a: Attempt)
    requires a.pc.Settling? && PhaseOk(p, a)
    ensures PhaseOk(p, AfterSettle(a))
  {
    var b := AfterSettle(a);
    assert b.calls[..|b.calls| - 1] == a.calls;
  }

  lemma SettledAttemptOk(p: Params, s: State, t: nat)
    requires t < |s.attempts| && AttemptOk(p, s, t) && DoSettle(s, t).Some?
    ensures AttemptOk(p, DoSettle(s, t).value, t)
  {
    SettledPhaseOk(p, s.attempts[t]);
  }

  lemma SettleKeepsData(p: Params, s: State, t: nat)
    requires DataInv(p, s) && DoSettle(s, t).Some?
    ensures DataInv(p, DoSettle(s, t).value)
  {
    SettledAttemptOk(p, s, t);
    MoveKeepsData(p, s, DoSettle(s, t).value, t);
  }

  lemma ReleaseSlotKeepsData(p: Params, s: State, t: nat)
    requires DataInv(p, s) && DoReleaseSlot(s, t).Some?
    ensures DataInv(p, DoReleaseSlot(s, t).value)
  {
    assert AttemptOk(p, s, t);
    MoveKeepsData(p, s, DoReleaseSlot(s, t).value, t);
  }

  lemma FinishWorkerKeepsData(p: Params, s: State, t: nat)
    requires DataInv(p, s) && DoFinishWorker(s, t).Some?
    ensures DataInv(p, DoFinishWorker(s, t).value)
  {
    assert AttemptOk(p, s, t);
    MoveKeepsData(p, s, DoFinishWorker(s, t).value, t);
  }

  lemma EnqueueKeepsData(p: Params, s: State, t: nat)
    requires DataInv(p, s) && DoEnqueue(p, s, t).Some?
    ensures DataInv(p, DoEnqueue(p, s, t).value)
  {
    var a := s.attempts[t];
    assert AttemptOk(p, s, t) && CopyOk(p, s, a.copy) && OriginOk(s, a.origin);
    EnqueuedCopyOk(p, s, t);
    MoveAndGrowKeepsData(p, s, DoEnqueue(p, s, t).value, t);
  }

  /** What the broker appends for a retry publish is the retry copy of the delivery's own copy. */
  lemma EnqueuedCopyOk(p: Params, s: State, t: nat)
    requires t < |s.attempts| && AttemptOk(p, s, t) && DoEnqueue(p, s, t).Some?
    requires CopyOk(p, s, s.attempts[t].copy) && OriginOk(s, s.attempts[t].origin)
    ensures OnlyAttemptMoves(s, DoEnqueue(p, s, t).value, t)
    ensures AttemptOk(p, DoEnqueue(p, s, t).value, t)
    ensures |s.copies| <= |DoEnqueue(p, s, t).value.copies| <= |s.copies| + 1
    ensures s.copies == DoEnqueue(p, s, t).value.copies[..|s.copies|]
    ensures |DoEnqueue(p, s, t).value.copies| > |s.copies| ==> CopyOk(p, DoEnqueue(p, s, t).value, |s.copies|)
  {
    var n := DoEnqueue(p, s, t).value;
    var a := s.attempts[t];
    var msg := s.copies[a.copy].msg;
    assert NextDelivery(msg, p.cfg.exchange, p.key) == Some(Delivered(a.frame.pub, p.cfg.exchange, a.frame.key));
    ChainFidelity(msg, p.cfg.exchange, p.key, 1);
    assert Chain(msg, p.cfg.exchange, p.key, 1) == NextDelivery(msg, p.cfg.exchange, p.key) by {
      assert Chain(msg, p.cfg.exchange, p.key, 0) == Some(msg);
    }
    assert FrameOk(p, n, n.attempts[t]);
  }

  /** The broker lets go of an unacknowledged delivery. */
  ghost predicate LetsGo(s: State, n: State, t: nat, loc: Loc) {
    && t < |s.attempts| && s.attempts[t].holds && s.attempts[t].copy < |s.copies|
    && !loc.Unacked?
    && n.copies == s.copies[s.attempts[t].copy := s.copies[s.attempts[t].copy].(loc := loc)]
    && n.sessions == s.sessions && |n.origins| == |s.origins|
    && (forall o :: 0 <= o < |s.origins| ==>
          n.origins[o].first == s.origins[o].first && n.origins[o].msg == s.origins[o].msg)
    && |n.attempts| == |s.attempts|
    && (forall u :: 0 <= u < |s.attempts| && u != t ==> n.attempts[u] == s.attempts[u])
    && n.attempts[t] == s.attempts[t].(holds := false, faulted := n.attempts[t].faulted)
    && (s.attempts[t].faulted ==> n.attempts[t].faulted)
    && (n.attempts[t].faulted || Issued(s.attempts[t].pc) || !Called(s.attempts[t].pc))
    && (n.attempts[t].faulted ==> s.attempts[t].faulted || Called(s.attempts[t].pc))
  }

  lemma LetGoKeepsAttempt(p: Params, s: State, n: State, t: nat, loc: Loc)
    requires LetsGo(s, n, t, loc) && AttemptOk(p, s, t)
    ensures AttemptOk(p, n, t)
  {
  }

  lemma LetGoKeepsAttempts(p: Params, s: State, n: State, t: nat, loc: Loc)
    requires DataInv(p, s) && LetsGo(s, n, t, loc)
    ensures forall u :: 0 <= u < |n.attempts| ==> AttemptOk(p, n, u)
  {
    forall u | 0 <= u < |n.attempts| ensures AttemptOk(p, n, u) {
      assert AttemptOk(p, s, u) && AttemptOk(p, s, t);
      if u == t {
        LetGoKeepsAttempt(p, s, n, t, loc);
      } else {
        AttemptUntouched(p, s, n, u);
      }
    }
  }

  lemma LetGoKeepsData(p: Params, s: State, n: State, t: nat, loc: Loc)
    requires DataInv(p, s) && LetsGo(s, n, t, loc)
    requires CopyOk(p, n, s.attempts[t].copy)
    ensures DataInv(p, n)
  {
    LetGoKeepsAttempts(p, s, n, t, loc);
    forall c | 0 <= c < |n.copies| ensures CopyOk(p, n, c) { assert CopyOk(p, s, c); }
    forall o | 0 <= o < |n.origins| ensures OriginOk(n, o) { assert OriginOk(s, o); }
  }

  lemma BrokerSettleKeepsData(p: Params, s: State, t: nat)
    requires DataInv(p, s) && DoBrokerSettle(p, s, t).Some?
    ensures DataInv(p, DoBrokerSettle(p, s, t).value)
  {
    var n := DoBrokerSettle(p, s, t).value;
    var a := s.attempts[t];
    assert AttemptOk(p, s, t) && CopyOk(p, s, a.copy);
    LetGoKeepsData(p, s, n, t, n.copies[a.copy].loc);
  }

  lemma ReturnToQueueKeepsData(p: Params, s: State, t: nat)
    requires DataInv(p, s) && DoReturnToQueue(s, t).Some?
    ensures DataInv(p, DoReturnToQueue(s, t).value)
  {
    var n := DoReturnToQueue(s, t).value;
    var a := s.attempts[t];
    assert AttemptOk(p, s, t) && CopyOk(p, s, a.copy);
    LetGoKeepsData(p, s, n, t, Ready);
  }

  lemma StepKeepsData(p: Params, s: State, action: Action)
    requires DataInv(p, s) && SessionInv(s) && Step(p, s, action).Some?
    ensures DataInv(p, Step(p, s, action).value)
  {
    match action {
      case Produce(msg) => ProduceKeepsData(p, s, msg);
      case Deliver(c, x) => DeliverKeepsData(p, s, c, x);
      case Publish(t, sent, failed) => PublishKeepsData(p, s, t, sent, failed);
      case Enqueue(t) => EnqueueKeepsData(p, s, t);
      case Confirm(t, positive) => ConfirmKeepsData(p, s, t, positive);
      case BrokerSettle(t) => BrokerSettleKeepsData(p, s, t);
      case ReturnToQueue(t) => ReturnToQueueKeepsData(p, s, t);
      case CallHandler(t) => CallHandlerKeepsData(p, s, t);
      case Return(t, outcome) => HandlerReturnKeepsData(p, s, t, outcome);
      case Settle(t) => SettleKeepsData(p, s, t);
      case ReleaseSlot(t) => ReleaseSlotKeepsData(p, s, t);
      case FinishWorker(t) => FinishWorkerKeepsData(p, s, t);
      case Receive(t) => ReceiveKeepsData(p, s, t);
      case TakeSlot(x) => TakeSlotKeepsData(p, s, x);
      case ExitLoop(x) => ExitLoopKeepsData(p, s, x);
      case CloseChannel(x) => SessionStepKeepsData(p, s, Step(p, s, action).value);
      case Lose(x) => SessionStepKeepsData(p, s, Step(p, s, action).value);
      case Open(_, _) => SessionStepKeepsData(p, s, Step(p, s, action).value);
    }
  }

  // ----- sessions: slots and workers -----

  function SlotsOf(x: nat): Attempt -> int {
    (a: Attempt) => if a.session == x && HoldsSlot(a.pc) then 1 else 0
  }

  function WorkersOf(x: nat): Attempt -> int {
    (a: Attempt) => if a.session == x && Running(a.pc) then 1 else 0
  }

  ghost predicate SessionOk(s: State, x: nat)
    requires x < |s.sessions|
  {
    var session := s.sessions[x];
    && session.sem == Sum(s.attempts, SlotsOf(x))
    && session.inflight == Sum(s.attempts, WorkersOf(x))
    && session.sem <= session.workers && session.workers > 0
    && session.sem <= session.inflight
    && (session.inline ==> session.workers == 1 && !session.loop.AwaitingSlot?)
    && (session.loop.ChannelClosed? ==> session.inflight == 0)
    && (session.loop.AwaitingSlot? ==>
          && session.loop.tag < |s.attempts|
          && s.attempts[session.loop.tag].session == x
          && s.attempts[session.loop.tag].pc.Waiting?)
  }

  ghost predicate SessionInv(s: State) {
    forall x :: 0 <= x < |s.sessions| ==> SessionOk(s, x)
  }

  /** How the two counters of every session follow the phase of one delivery. */
  lemma CountersFollow(s: State, n: State, t: nat, x: nat)
    requires t < |s.attempts| && |n.attempts| == |s.attempts| && n.attempts == s.attempts[t := n.attempts[t]]
    ensures Sum(n.attempts, SlotsOf(x)) ==
            Sum(s.attempts, SlotsOf(x)) - SlotsOf(x)(s.attempts[t]) + SlotsOf(x)(n.attempts[t])
    ensures Sum(n.attempts, WorkersOf(x)) ==
            Sum(s.attempts, WorkersOf(x)) - WorkersOf(x)(s.attempts[t]) + WorkersOf(x)(n.attempts[t])
  {
    SumUpdate(s.attempts, t, n.attempts[t], SlotsOf(x));
    SumUpdate(s.attempts, t, n.attempts[t], WorkersOf(x));
  }

  /** A step that leaves a delivery in its phase, or in one with the same slot and worker, keeps the sessions. */
  lemma QuietStepKeepsSessions(s: State, n: State, t: nat)
    requires SessionInv(s) && n.sessions == s.sessions
    requires t < |s.attempts| && |n.attempts| == |s.attempts| && n.attempts == s.attempts[t := n.attempts[t]]
    requires n.attempts[t].session == s.attempts[t].session
    requires HoldsSlot(n.attempts[t].pc) == HoldsSlot(s.attempts[t].pc)
        && Running(n.attempts[t].pc) == Running(s.attempts[t].pc)
    requires s.attempts[t].pc.Waiting? ==> n.attempts[t].pc.Waiting?
    ensures SessionInv(n)
  {
    forall x | 0 <= x < |n.sessions| ensures SessionOk(n, x) {
      assert SessionOk(s, x);
      CountersFollow(s, n, t, x);
    }
  }

  lemma NewAttemptKeepsSessions(s: State, n: State, a: Attempt)
    requires SessionInv(s) && n.sessions == s.sessions && n.attempts == s.attempts + [a] && !Running(a.pc)
    ensures SessionInv(n)
  {
    forall x | 0 <= x < |n.sessions| ensures SessionOk(n, x) {
      assert SessionOk(s, x);
      SumAppend(s.attempts, a, SlotsOf(x));
      SumAppend(s.attempts, a, WorkersOf(x));
    }
  }

  /** A step that moves one delivery and its own session. */
  lemma SessionMoveKeepsSessions(s: State, n: State, t: nat, x: nat)
    requires SessionInv(s) && x < |s.sessions| && |n.sessions| == |s.sessions|
    requires t < |s.attempts| && |n.attempts| == |s.attempts| && n.attempts == s.attempts[t := n.attempts[t]]
    requires s.attempts[t].session == x && n.attempts[t].session == x
    requires forall y :: 0 <= y < |s.sessions| && y != x ==> n.sessions[y] == s.sessions[y]
    requires
      var m, m' := s.sessions[x], n.sessions[x];
      && m'.sem == m.sem - SlotsOf(x)(s.attempts[t]) + SlotsOf(x)(n.attempts[t])
      && m'.inflight == m.inflight - WorkersOf(x)(s.attempts[t]) + WorkersOf(x)(n.attempts[t])
      && m'.sem <= m'.workers == m.workers && m'.inline == m.inline
      && m'.sem <= m'.inflight
      && (m'.loop.ChannelClosed? ==> m'.inflight == 0)
      && (m'.loop.AwaitingSlot? ==> !m'.inline && (m'.loop == m.loop || m'.loop == AwaitingSlot(t)))
      && (m'.loop == AwaitingSlot(t) ==> n.attempts[t].pc.Waiting?)
    requires s.attempts[t].pc.Waiting? && !n.attempts[t].pc.Waiting? ==> !n.sessions[x].loop.AwaitingSlot?
    ensures SessionInv(n)
  {
    forall y | 0 <= y < |n.sessions| ensures SessionOk(n, y) {
      assert SessionOk(s, y);
      CountersFollow(s, n, t, y);
    }
  }

  lemma ReceiveKeepsSessions(s: State, t: nat)
    requires SessionInv(s) && DoReceive(s, t).Some?
    ensures SessionInv(DoReceive(s, t).value)
  {
    assert SessionOk(s, s.attempts[t].session);
    SessionMoveKeepsSessions(s, DoReceive(s, t).value, t, s.attempts[t].session);
  }

  lemma TakeSlotKeepsSessions(s: State, x: nat)
    requires SessionInv(s) && DoTakeSlot(s, x).Some?
    ensures SessionInv(DoTakeSlot(s, x).value)
  {
    assert SessionOk(s, x);
    SessionMoveKeepsSessions(s, DoTakeSlot(s, x).value, s.sessions[x].loop.tag, x);
  }

  lemma ExitLoopKeepsSessions(s: State, x: nat)
    requires SessionInv(s) && DoExitLoop(s, x).Some?
    ensures SessionInv(DoExitLoop(s, x).value)
  {
    var n := DoExitLoop(s, x).value;
    assert SessionOk(s, x);
    if s.sessions[x].loop.AwaitingSlot? {
      SessionMoveKeepsSessions(s, n, s.sessions[x].loop.tag, x);
    } else {
      forall y | 0 <= y < |n.sessions| ensures SessionOk(n, y) { assert SessionOk(s, y); }
    }
  }

  lemma OpenKeepsSessions(p: Params, s: State, workers: nat, inline: bool)
    requires DataInv(p, s) && SessionInv(s) && DoOpen(s, workers, inline).Some?
    ensures SessionInv(DoOpen(s, workers, inline).value)
  {
    var n := DoOpen(s, workers, inline).value;
    var x := |s.sessions|;
    forall t | 0 <= t < |s.attempts| ensures SlotsOf(x)(s.attempts[t]) == 0 && WorkersOf(x)(s.attempts[t]) == 0 {
      assert AttemptOk(p, s, t);
    }
    SumZero(s.attempts, SlotsOf(x));
    SumZero(s.attempts, WorkersOf(x));
    forall y | 0 <= y < |n.sessions| ensures SessionOk(n, y) { if y < x { assert SessionOk(s, y); } }
  }

  lemma SameAttemptsKeepSessions(s: State, n: State)
    requires SessionInv(s) && n.attempts == s.attempts && |n.sessions| == |s.sessions|
    requires forall x :: 0 <= x < |s.sessions| ==>
                           && n.sessions[x] == s.sessions[x].(loop := n.sessions[x].loop, lost := n.sessions[x].lost)
                           && (n.sessions[x].loop == s.sessions[x].loop
                               || (n.sessions[x].loop == ChannelClosed && s.sessions[x].inflight == 0))
    ensures SessionInv(n)
  {
    forall y | 0 <= y < |n.sessions| ensures SessionOk(n, y) { assert SessionOk(s, y); }
  }

  /** The steps of a delivery that change neither its slot nor its worker. */
  lemma PhaseStepKeepsSessions(p: Params, s: State, action: Action)
    requires action.CallHandler? || action.Return? || action.Enqueue? || action.Confirm? || action.Settle?
             || action.BrokerSettle? || action.ReturnToQueue? || action.Publish?
    requires SessionInv(s) && Step(p, s, action).Some?
    ensures SessionInv(Step(p, s, action).value)
  {
    QuietStepKeepsSessions(s, Step(p, s, action).value, action.tag);
  }

  lemma ReleaseSlotKeepsSessions(s: State, t: nat)
    requires SessionInv(s) && DoReleaseSlot(s, t).Some?
    ensures SessionInv(DoReleaseSlot(s, t).value)
  {
    assert SessionOk(s, s.attempts[t].session);
    SessionMoveKeepsSessions(s, DoReleaseSlot(s, t).value, t, s.attempts[t].session);
  }

  lemma FinishWorkerKeepsSessions(s: State, t: nat)
    requires SessionInv(s) && DoFinishWorker(s, t).Some?
    ensures SessionInv(DoFinishWorker(s, t).value)
  {
    SlotCounted(s, t);
    assert SessionOk(s, s.attempts[t].session);
    SessionMoveKeepsSessions(s, DoFinishWorker(s, t).value, t, s.attempts[t].session);
  }

  /** A delivery in a phase that holds a slot is one of those its session's semaphore counts. */
  lemma SlotCounted(s: State, t: nat)
    requires SessionInv(s) && t < |s.attempts| && s.attempts[t].session < |s.sessions|
    ensures HoldsSlot(s.attempts[t].pc) ==> s.sessions[s.attempts[t].session].sem > 0
    ensures Running(s.attempts[t].pc) ==> s.sessions[s.attempts[t].session].inflight > 0
    ensures Running(s.attempts[t].pc) && !HoldsSlot(s.attempts[t].pc) ==>
              s.sessions[s.attempts[t].session].inflight > s.sessions[s.attempts[t].session].sem
  {
    var x := s.attempts[t].session;
    assert SessionOk(s, x);
    SumAtLeast(s.attempts, t, SlotsOf(x));
    SumAtLeast(s.attempts, t, WorkersOf(x));
    var slack := (a: Attempt) => WorkersOf(x)(a) - SlotsOf(x)(a);
    SumDifference(s.attempts, WorkersOf(x), SlotsOf(x), slack);
    SumAtLeast(s.attempts, t, slack);
  }

  lemma {:induction false} SumDifference<T>(s: seq<T>, f: T -> int, g: T -> int, h: T -> int)
    requires forall x :: h(x) == f(x) - g(x)
    ensures Sum(s, h) == Sum(s, f) - Sum(s, g)
  {
    if s != [] {
      SumDifference(s[..|s| - 1], f, g, h);
    }
  }

  lemma StepKeepsSessions(p: Params, s: State, action: Action)
    requires DataInv(p, s) && SessionInv(s) && Step(p, s, action).Some?
    ensures SessionInv(Step(p, s, action).value)
  {
    match action {
      case Produce(msg) => SameAttemptsKeepSessions(s, Step(p, s, action).value);
      case Open(workers, inline) => OpenKeepsSessions(p, s, workers, inline);
      case Deliver(c, x) =>
        var n := DoDeliver(s, c, x).value;
        NewAttemptKeepsSessions(s, n, n.attempts[|s.attempts|]);
      case Receive(t) => ReceiveKeepsSessions(s, t);
      case TakeSlot(x) => TakeSlotKeepsSessions(s, x);
      case ExitLoop(x) => ExitLoopKeepsSessions(s, x);
      case CloseChannel(_) => SameAttemptsKeepSessions(s, Step(p, s, action).value);
      case Lose(_) => SameAttemptsKeepSessions(s, Step(p, s, action).value);
      case ReleaseSlot(t) => ReleaseSlotKeepsSessions(s, t);
      case FinishWorker(t) => FinishWorkerKeepsSessions(s, t);
      case _ => PhaseStepKeepsSessions(p, s, action);
    }
  }

  /** Every run ends in a state satisfying the invariant. */
  lemma {:induction false} RunsKeepInvariant(p: Params, run: seq<Action>)
    requires Exec(p, run).Some?
    ensures DataInv(p, Exec(p, run).value) && SessionInv(Exec(p, run).value)
  {
    if run != [] {
      var before := run[..|run| - 1];
      RunsKeepInvariant(p, before);
      StepKeepsData(p, Exec(p, before).value, run[|run| - 1]);
      StepKeepsSessions(p, Exec(p, before).value, run[|run| - 1]);
    }
  }
}
