/**
 * Runs of the consumer machine that nothing outside disturbs, and how one failing message fares in them, step
 * by step: one idle session, one delivery at a time.
 */
module ConsumerRuns {
  import opened Options
  import opened Retry
  import opened Topology
  import opened Settlement
  import opened ConsumerMachine

  /** Not a fault from outside: no channel is lost, every publish gets through and every confirm is positive. */
  predicate Quiet(action: Action) {
    && !action.Lose?
    && (action.Publish? ==> action.sent && !action.failed)
    && (action.Confirm? ==> action.positive)
  }

  predicate Calm(run: seq<Action>) {
    forall i :: 0 <= i < |run| ==> Quiet(run[i])
  }

  /** If a handler returns, then with a failure that may be retried. */
  predicate Failing(action: Action) {
    action.Return? ==> action.outcome == Errored || action.outcome == Panicked
  }

  predicate AlwaysFails(run: seq<Action>) {
    forall i :: 0 <= i < |run| ==> Failing(run[i])
  }

  /** In a calm run whose handlers always fail. */
  ghost predicate Reached(p: Params, s: State) {
    exists run :: Exec(p, run) == Some(s) && Calm(run) && AlwaysFails(run)
  }

  lemma Advance(p: Params, s: State, action: Action, n: State)
    requires Reached(p, s) && Step(p, s, action) == Some(n) && Quiet(action) && Failing(action)
    ensures Reached(p, n)
  {
    var run :| Exec(p, run) == Some(s) && Calm(run) && AlwaysFails(run);
    var longer := run + [action];
    assert longer[..|run|] == run;
    assert Exec(p, longer) == Some(n);
  }

  const IDLE: Session := Session(1, true, Selecting, 0, 0, false)
  const BUSY: Session := Session(1, true, Selecting, 1, 1, false)

  /** One message, of which copy `c` is ready for the one, idle session. */
  predicate Poised(s: State, c: nat) {
    && |s.origins| == 1 && s.sessions == [IDLE]
    && c < |s.copies| && s.copies[c].origin == 0 && s.copies[c].loc == Ready
  }

  lemma Produced(p: Params, msg: Delivery)
    ensures Reached(p, State([Origin(0, msg, 0, 0, true)], [Copy(0, msg, Ready)], [], [IDLE]))
  {
    var s := State([Origin(0, msg, 0, 0, true)], [Copy(0, msg, Ready)], [], []);
    assert Exec(p, []) == Some(INITIAL) && Calm([]) && AlwaysFails([]);
    assert DoProduce(INITIAL, msg) == s;
    Advance(p, INITIAL, Produce(msg), s);
    assert s.sessions + [IDLE] == [IDLE];
    Advance(p, s, Open(1, true), s.(sessions := [IDLE]));
  }

  /** The state with copy `c` elsewhere, one more delivery, and the session and the message as given. */
  function Held(s: State, c: nat, loc: Loc, a: Attempt, session: Session, o: Origin): State
    requires c < |s.copies|
  {
    State([o], s.copies[c := s.copies[c].(loc := loc)], s.attempts + [a], [session])
  }

  /** What a step on the last delivery, its copy, the session and the message leads to. */
  lemma HeldAgain(s: State, c: nat, loc: Loc, later: Loc, a: Attempt, b: Attempt, session: Session, o: Origin)
    requires c < |s.copies|
    ensures
      var h := Held(s, c, loc, a, session, o);
      && h.attempts[|s.attempts| := b] == s.attempts + [b]
      && h.copies[c := h.copies[c].(loc := later)] == s.copies[c := s.copies[c].(loc := later)]
      && (forall x: Session :: h.sessions[0 := x] == [x])
      && (forall x: Origin :: h.origins[0 := x] == [x])
  {
  }

  function Buffering(s: State, c: nat): Attempt
    requires c < |s.copies|
  {
    Attempt(c, 0, Count(s.copies[c].msg), 0, Buffered, true, NoFrame, false, Outcome.Succeeded, [], NO_RESULT)
  }

  lemma Delivers(p: Params, s: State, c: nat)
    requires Reached(p, s) && Poised(s, c)
    ensures Reached(p, Held(s, c, Unacked(|s.attempts|), Buffering(s, c), IDLE, s.origins[0]))
  {
    var n := Held(s, c, Unacked(|s.attempts|), Buffering(s, c), IDLE, s.origins[0]);
    assert s.origins == [s.origins[0]];
    assert DoDeliver(s, c, 0) == Some(n);
    Advance(p, s, Deliver(c, 0), n);
  }

  lemma Receives(p: Params, s: State, c: nat)
    requires Reached(p, s) && Poised(s, c)
    ensures Reached(p, Held(s, c, Unacked(|s.attempts|), Buffering(s, c).(pc := Started), BUSY, s.origins[0]))
  {
    Delivers(p, s, c);
    var a, loc, o := Buffering(s, c), Unacked(|s.attempts|), s.origins[0];
    ReceivesIt(s, c, loc, o);
    Advance(p, Held(s, c, loc, a, IDLE, o), Receive(|s.attempts|), Held(s, c, loc, a.(pc := Started), BUSY, o));
  }

  lemma ReceivesIt(s: State, c: nat, loc: Loc, o: Origin)
    requires c < |s.copies|
    ensures
      DoReceive(Held(s, c, loc, Buffering(s, c), IDLE, o), |s.attempts|) ==
      Some(Held(s, c, loc, Buffering(s, c).(pc := Started), BUSY, o))
  {
    HeldAgain(s, c, loc, loc, Buffering(s, c), Buffering(s, c).(pc := Started), IDLE, o);
  }

  /** What the delivery is once its handler was called. */
  function InHandler(s: State, c: nat): Attempt
    requires c < |s.copies|
  {
    Buffering(s, c).(pc := Handling)
  }

  function CalledOnce(o: Origin): Origin {
    o.(calls := o.calls + 1)
  }

  lemma CallsHandler(p: Params, s: State, c: nat)
    requires Reached(p, s) && Poised(s, c)
    ensures Reached(p, Held(s, c, Unacked(|s.attempts|), InHandler(s, c), BUSY, CalledOnce(s.origins[0])))
  {
    Receives(p, s, c);
    var t, loc, a := |s.attempts|, Unacked(|s.attempts|), Buffering(s, c).(pc := Started);
    HeldAgain(s, c, loc, loc, a, InHandler(s, c), BUSY, s.origins[0]);
    var s0 := Held(s, c, loc, a, BUSY, s.origins[0]);
    var s1 := Held(s, c, loc, InHandler(s, c), BUSY, CalledOnce(s.origins[0]));
    assert DoCallHandler(s0, t) == Some(s1);
    Advance(p, s0, CallHandler(t), s1);
  }

  /** The delivery whose handler has failed. */
  function Failed(p: Params, s: State, c: nat): Attempt
    requires c < |s.copies|
  {
    Buffering(s, c).(pc := if Count(s.copies[c].msg) < p.cfg.maxRetries then Retrying else Settling(DeadLetter),
                     outcome := Errored)
  }

  lemma HandlerFails(p: Params, s: State, c: nat)
    requires Reached(p, s) && Poised(s, c)
    ensures Reached(p, Held(s, c, Unacked(|s.attempts|), Failed(p, s, c), BUSY, CalledOnce(s.origins[0])))
  {
    CallsHandler(p, s, c);
    var t, loc, o := |s.attempts|, Unacked(|s.attempts|), CalledOnce(s.origins[0]);
    HeldAgain(s, c, loc, loc, InHandler(s, c), Failed(p, s, c), BUSY, o);
    var s0, s1 := Held(s, c, loc, InHandler(s, c), BUSY, o), Held(s, c, loc, Failed(p, s, c), BUSY, o);
    assert DoReturn(p, s0, t, Errored) == Some(s1);
    Advance(p, s0, Return(t, Errored), s1);
  }

  // ----- the retry publish -----

  /** After a publish that gets through: waiting for its confirm, or on its way to a requeue, at fault itself. */
  function Published(p: Params, s: State, c: nat): Attempt
    requires c < |s.copies| && Count(s.copies[c].msg) < MAX_INT64
  {
    var b := AfterPublish(p, Failed(p, s, c), s.copies[c].msg, true, false);
    if b.pc == Confirming then b else b.(faulted := true)
  }

  /** A publish that counts as failed is a fault of the message. */
  function BlamedFor(a: Attempt, o: Origin): Origin {
    if a.faulted then o.(faults := o.faults + 1) else o
  }

  lemma PublishesIt(p: Params, s: State, c: nat, loc: Loc, o: Origin)
    requires c < |s.copies| && Count(s.copies[c].msg) < p.cfg.maxRetries
    ensures
      DoPublish(p, Held(s, c, loc, Failed(p, s, c), BUSY, o), |s.attempts|, true, false) ==
      Some(Held(s, c, loc, Published(p, s, c), BUSY, BlamedFor(Published(p, s, c), o)))
  {
    HeldAgain(s, c, loc, loc, Failed(p, s, c), Published(p, s, c), BUSY, o);
  }

  lemma Publishes(p: Params, s: State, c: nat)
    requires Reached(p, s) && Poised(s, c) && Count(s.copies[c].msg) < p.cfg.maxRetries
    ensures
      var b := Published(p, s, c);
      Reached(p, Held(s, c, Unacked(|s.attempts|), b, BUSY, BlamedFor(b, CalledOnce(s.origins[0]))))
  {
    HandlerFails(p, s, c);
    var loc, o := Unacked(|s.attempts|), CalledOnce(s.origins[0]);
    PublishesIt(p, s, c, loc, o);
    Advance(p, Held(s, c, loc, Failed(p, s, c), BUSY, o), Publish(|s.attempts|, true, false),
            Held(s, c, loc, Published(p, s, c), BUSY, BlamedFor(Published(p, s, c), o)));
  }

  /** The broker has put the retry copy on the queue, if it is routed there. */
  function Extended(p: Params, s: State, c: nat): State
    requires c < |s.copies| && Count(s.copies[c].msg) < MAX_INT64
  {
    var frame := Published(p, s, c).frame;
    if frame.InTransit? && p.queue in RouteTo(p.broker, p.cfg.exchange, frame.key)
    then s.(copies := s.copies + [Copy(0, Delivered(frame.pub, p.cfg.exchange, frame.key), Ready)])
    else s
  }

  function Routed(p: Params, s: State, c: nat): Attempt
    requires c < |s.copies| && Count(s.copies[c].msg) < MAX_INT64
  {
    var b := Published(p, s, c);
    if !b.frame.InTransit? then b
    else if p.queue in RouteTo(p.broker, p.cfg.exchange, b.frame.key) then b.(frame := Enqueued(|s.copies|))
    else b.(frame := Unroutable)
  }

  lemma EnqueuesIt(p: Params, s: State, c: nat, loc: Loc, o: Origin)
    requires c < |s.copies| && Count(s.copies[c].msg) < MAX_INT64 && Published(p, s, c).frame.InTransit?
    ensures
      DoEnqueue(p, Held(s, c, loc, Published(p, s, c), BUSY, o), |s.attempts|) ==
      Some(Held(Extended(p, s, c), c, loc, Routed(p, s, c), BUSY, o))
  {
    var n, s0 := Extended(p, s, c), Held(s, c, loc, Published(p, s, c), BUSY, o);
    HeldAgain(s, c, loc, loc, Published(p, s, c), Routed(p, s, c), BUSY, o);
    assert n.copies[c := n.copies[c].(loc := loc)] == s0.copies + n.copies[|s.copies|..];
  }

  lemma RoutesIt(p: Params, s: State, c: nat, loc: Loc, o: Origin)
    requires c < |s.copies| && Count(s.copies[c].msg) < MAX_INT64
    requires Reached(p, Held(s, c, loc, Published(p, s, c), BUSY, o))
    ensures Reached(p, Held(Extended(p, s, c), c, loc, Routed(p, s, c), BUSY, o))
  {
    if Published(p, s, c).frame.InTransit? {
      EnqueuesIt(p, s, c, loc, o);
      Advance(p, Held(s, c, loc, Published(p, s, c), BUSY, o), Enqueue(|s.attempts|),
              Held(Extended(p, s, c), c, loc, Routed(p, s, c), BUSY, o));
    }
  }

  lemma Routes(p: Params, s: State, c: nat)
    requires Reached(p, s) && Poised(s, c) && Count(s.copies[c].msg) < p.cfg.maxRetries
    ensures
      Reached(p, Held(Extended(p, s, c), c, Unacked(|s.attempts|), Routed(p, s, c), BUSY,
                      BlamedFor(Published(p, s, c), CalledOnce(s.origins[0]))))
  {
    Publishes(p, s, c);
    RoutesIt(p, s, c, Unacked(|s.attempts|), BlamedFor(Published(p, s, c), CalledOnce(s.origins[0])));
  }

  /** The confirm of a publish the broker has handled. */
  lemma Confirms(p: Params, s: State, c: nat, loc: Loc, a: Attempt, o: Origin)
    requires c < |s.copies| && a.pc == Confirming && a.copy == c && a.origin == 0 && a.session == 0
    requires a.frame.Enqueued? || a.frame.Unroutable?
    requires Reached(p, Held(s, c, loc, a, BUSY, o))
    ensures Reached(p, Held(s, c, loc, a.(pc := Settling(AckRetried)), BUSY, o))
  {
    var t, b := |s.attempts|, a.(pc := Settling(AckRetried));
    HeldAgain(s, c, loc, loc, a, b, BUSY, o);
    assert DoConfirm(Held(s, c, loc, a, BUSY, o), t, true) == Some(Held(s, c, loc, b, BUSY, o));
    Advance(p, Held(s, c, loc, a, BUSY, o), Confirm(t, true), Held(s, c, loc, b, BUSY, o));
  }

  // ----- settling -----

  function AllDone(a: Attempt): Attempt
    requires a.pc.Settling?
  {
    AfterSettle(a).(pc := Finished(a.pc.how))
  }

  lemma Settles(p: Params, s: State, c: nat, loc: Loc, a: Attempt, o: Origin)
    requires c < |s.copies| && a.pc.Settling? && a.copy == c && a.origin == 0 && a.session == 0
    requires Reached(p, Held(s, c, loc, a, BUSY, o))
    ensures Reached(p, Held(s, c, loc, AfterSettle(a), BUSY, o))
  {
    var t, b := |s.attempts|, AfterSettle(a);
    HeldAgain(s, c, loc, loc, a, b, BUSY, o);
    assert DoSettle(Held(s, c, loc, a, BUSY, o), t) == Some(Held(s, c, loc, b, BUSY, o));
    Advance(p, Held(s, c, loc, a, BUSY, o), Settle(t), Held(s, c, loc, b, BUSY, o));
  }

  /** The settlement is sent and the worker ends. */
  lemma WindsDown(p: Params, s: State, c: nat, loc: Loc, a: Attempt, o: Origin)
    requires c < |s.copies| && a.pc.Settling? && a.copy == c && a.origin == 0 && a.session == 0
    requires Reached(p, Held(s, c, loc, a, BUSY, o))
    ensures Reached(p, Held(s, c, loc, AllDone(a), IDLE, o))
  {
    Settles(p, s, c, loc, a, o);
    var t, b, d, e := |s.attempts|, AfterSettle(a), AllDone(a).(pc := Released(a.pc.how)), AllDone(a);
    var halfway := BUSY.(sem := 0);
    var s1, s2 := Held(s, c, loc, b, BUSY, o), Held(s, c, loc, d, halfway, o);
    HeldAgain(s, c, loc, loc, b, d, BUSY, o);
    assert DoReleaseSlot(s1, t) == Some(s2);
    Advance(p, s1, ReleaseSlot(t), s2);
    HeldAgain(s, c, loc, loc, d, e, halfway, o);
    assert DoFinishWorker(s2, t) == Some(Held(s, c, loc, e, IDLE, o));
    Advance(p, s2, FinishWorker(t), Held(s, c, loc, e, IDLE, o));
  }

  /** Where the broker puts the copy of a settled delivery. */
  function SettledLoc(p: Params, t: nat, msg: Delivery, how: How, frame: Frame): Loc {
    match how
    case AckSuccess => Done(t)
    case AckRetried => if frame.Enqueued? then RetriedAs(frame.at, t) else Vanished(t)
    case Requeue => Ready
    case DeadLetter =>
      if DeadLetterTargets(p.broker, p.queue, msg.routingKey) != {} then DeadLettered(t) else Dropped(t)
  }

  /** ... and the broker processes it. */
  lemma BrokerSettles(p: Params, s: State, c: nat, a: Attempt, o: Origin)
    requires c < |s.copies| && a.pc.Settling? && a.copy == c && a.origin == 0 && a.session == 0
    requires a.holds && !a.frame.InTransit?
    requires Reached(p, Held(s, c, Unacked(|s.attempts|), a, BUSY, o))
    ensures
      Reached(p, Held(s, c, SettledLoc(p, |s.attempts|, s.copies[c].msg, a.pc.how, a.frame),
                      AllDone(a).(holds := false), IDLE, o))
  {
    var t, loc := |s.attempts|, SettledLoc(p, |s.attempts|, s.copies[c].msg, a.pc.how, a.frame);
    var e := AllDone(a);
    WindsDown(p, s, c, Unacked(t), a, o);
    HeldAgain(s, c, Unacked(t), loc, e, e.(holds := false), IDLE, o);
    var s0, s1 := Held(s, c, Unacked(t), e, IDLE, o), Held(s, c, loc, e.(holds := false), IDLE, o);
    assert DoBrokerSettle(p, s0, t) == Some(s1);
    Advance(p, s0, BrokerSettle(t), s1);
  }

  // ----- rounds: from one failure to the next -----

  /** A failed delivery of this message goes back to the queue, although nothing outside goes wrong. */
  predicate Stuck(p: Params, msg: Delivery) {
    && Count(msg) < p.cfg.maxRetries
    && (p.cfg.maxRetries <= 0 || RetryPublishing(msg, Count(msg) + 1) == None)
  }

  /** The counter does not fit, or the channel has no confirms: the delivery is requeued, and fails again. */
  lemma RequeueRound(p: Params, s: State, c: nat) returns (n: State)
    requires Reached(p, s) && Poised(s, c) && Stuck(p, s.copies[c].msg)
    ensures Reached(p, n) && Poised(n, c) && n.copies[c].msg == s.copies[c].msg
    ensures n.origins[0].msg == s.origins[0].msg && n.origins[0].calls == s.origins[0].calls + 1
  {
    Routes(p, s, c);
    var a := Routed(p, s, c);
    var x, o := Extended(p, s, c), BlamedFor(Published(p, s, c), CalledOnce(s.origins[0]));
    BrokerSettles(p, x, c, a, o);
    n := Held(x, c, Ready, AllDone(a).(holds := false), IDLE, o);
  }

  /** The counter fits and the retry is routed to the queue: its copy takes the place of the message. */
  predicate Climbs(p: Params, msg: Delivery) {
    && 0 < p.cfg.maxRetries && Count(msg) < p.cfg.maxRetries
    && RetryPublishing(msg, Count(msg) + 1).Some?
    && p.queue in RouteTo(p.broker, p.cfg.exchange, RetryKey(msg.routingKey, p.key))
  }

  lemma RoutedBack(p: Params, s: State, c: nat)
    requires Poised(s, c) && Climbs(p, s.copies[c].msg)
    ensures
      var a, x := Routed(p, s, c), Extended(p, s, c);
      && a.pc == Confirming && a.frame == Enqueued(|s.copies|) && a.holds && !Published(p, s, c).faulted
      && a.copy == c && a.origin == 0 && a.session == 0
      && |x.copies| == |s.copies| + 1 && x == s.(copies := s.copies + [x.copies[|s.copies|]])
      && x.copies[|s.copies|].origin == 0 && x.copies[|s.copies|].loc == Ready
      && Some(x.copies[|s.copies|].msg) == NextDelivery(s.copies[c].msg, p.cfg.exchange, p.key)
  {
  }

  lemma RetryRound(p: Params, s: State, c: nat) returns (n: State)
    requires Reached(p, s) && Poised(s, c) && Climbs(p, s.copies[c].msg)
    ensures Reached(p, n) && Poised(n, |s.copies|)
    ensures Some(n.copies[|s.copies|].msg) == NextDelivery(s.copies[c].msg, p.cfg.exchange, p.key)
    ensures n.origins == [CalledOnce(s.origins[0])]
    ensures n.copies == s.copies[c := s.copies[c].(loc := n.copies[c].loc)] + [n.copies[|s.copies|]]
    ensures n.copies[c].loc.RetriedAs?
  {
    Routes(p, s, c);
    RoutedBack(p, s, c);
    var a, x, o := Routed(p, s, c), Extended(p, s, c), CalledOnce(s.origins[0]);
    Confirms(p, x, c, Unacked(|s.attempts|), a, o);
    var b := a.(pc := Settling(AckRetried));
    BrokerSettles(p, x, c, b, o);
    n := Held(x, c, RetriedAs(|s.copies|, |s.attempts|), AllDone(b).(holds := false), IDLE, o);
  }

  /** A confirmed retry that is routed nowhere. */
  lemma LosingRound(p: Params, s: State, c: nat) returns (n: State)
    requires Reached(p, s) && Poised(s, c)
    requires 0 < p.cfg.maxRetries && Count(s.copies[c].msg) < p.cfg.maxRetries
    requires RetryPublishing(s.copies[c].msg, Count(s.copies[c].msg) + 1).Some?
    requires p.queue !in RouteTo(p.broker, p.cfg.exchange, RetryKey(s.copies[c].msg.routingKey, p.key))
    ensures Reached(p, n) && n.origins == [CalledOnce(s.origins[0])]
    ensures n.copies == s.copies[c := s.copies[c].(loc := Vanished(|s.attempts|))]
  {
    Routes(p, s, c);
    var a, o := Routed(p, s, c), CalledOnce(s.origins[0]);
    Confirms(p, s, c, Unacked(|s.attempts|), a, o);
    var b := a.(pc := Settling(AckRetried));
    BrokerSettles(p, s, c, b, o);
    n := Held(s, c, Vanished(|s.attempts|), AllDone(b).(holds := false), IDLE, o);
  }
}
