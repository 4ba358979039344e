/**
 * Consumers and the broker as one state machine. Sessions, worker goroutines, the broker and the
 * network take single steps in any order; every choice the environment makes is in the action, so a run
 * is a sequence of actions.
 */
module ConsumerMachine {
  import opened Options
  import opened Retry
  import opened Routing
  import opened Config
  import opened Topology
  import opened Settlement

  /** The consumed queue, its binding key, and the broker's (fixed) topology. */
  datatype Params = Params(cfg: Config, kind: Kind, queue: string, key: string, broker: Broker)

  /** A message as it first entered the queue, with counts of the handler calls and faults in its name. */
  datatype Origin = Origin(first: nat, msg: Delivery, calls: nat, faults: nat, allRetryable: bool)

  /**
   * Where a copy of a message is: ready in the queue, held unacknowledged by a delivery, or settled.
   * (`via` is the delivery that settled it). `RetriedAs` was acknowledged in favour of a retry copy; `Vanished`
   * was so although the broker had routed the retry copy nowhere.
   */
  datatype Loc =
    | Ready
    | Unacked(tag: nat)
    | Done(via: nat)
    | RetriedAs(next: nat, via: nat)
    | Vanished(via: nat)
    | DeadLettered(via: nat)
    | Dropped(via: nat)

  datatype Copy = Copy(origin: nat, msg: Delivery, loc: Loc)

  /** The consume loop of a session. `Exited` still waits for its workers; `ChannelClosed` has closed the channel. */
  datatype Loop = Selecting | AwaitingSlot(tag: nat) | Exited | ChannelClosed

  /** An `inline` session handles deliveries inside its loop; `lost` says the broker has lost its channel. */
  datatype Session = Session(workers: nat, inline: bool, loop: Loop, sem: nat, inflight: nat, lost: bool)

  /** The retry publish of a delivery, as the broker sees it. */
  datatype Frame = NoFrame | InTransit(key: string, pub: Publishing) | Enqueued(at: nat) | Unroutable

  /** Where the handling of a delivery is. */
  datatype Pc =
    | Buffered                 // on the consumer's delivery stream
    | Waiting                  // taken by the loop, waiting for a worker slot
    | Abandoned                // the loop returned while it waited
    | Started                  // its worker runs, the handler is not called yet
    | Handling                 // inside the handler
    | Retrying                 // about to publish the retry copy
    | Confirming               // waiting for the publisher confirm
    | Settling(how: How)       // about to acknowledge or reject
    | Settled(how: How)        // settlement frame sent
    | Released(how: How)       // semaphore slot given back
    | Finished(how: How)       // worker done

  /** One delivery of a copy to a session; its position is the delivery tag. `holds`: unacknowledged at the broker. */
  datatype Attempt = Attempt(
    copy: nat, origin: nat, count: Int64, session: nat, pc: Pc, holds: bool, frame: Frame, faulted: bool,
    outcome: Outcome, calls: seq<Call>, result: ConsumeResult)

  datatype State = State(origins: seq<Origin>, copies: seq<Copy>, attempts: seq<Attempt>, sessions: seq<Session>)

  datatype Action =
    | Produce(msg: Delivery)
    | Open(workers: nat, inline: bool)
    | Deliver(copy: nat, session: nat)
    | Receive(tag: nat)
    | TakeSlot(session: nat)
    | ExitLoop(session: nat)
    | CloseChannel(session: nat)
    | Lose(session: nat)
    | CallHandler(tag: nat)
    | Return(tag: nat, outcome: Outcome)
    | Publish(tag: nat, sent: bool, failed: bool)
    | Enqueue(tag: nat)
    | Confirm(tag: nat, positive: bool)
    | Settle(tag: nat)
    | ReleaseSlot(tag: nat)
    | FinishWorker(tag: nat)
    | BrokerSettle(tag: nat)
    | ReturnToQueue(tag: nat)

  /** The steps of a worker goroutine. */
  predicate ByWorker(action: Action) {
    action.CallHandler? || action.Return? || action.Publish? || action.Confirm? || action.Settle?
    || action.ReleaseSlot? || action.FinishWorker?
  }

  // ----- phases of a delivery -----

  predicate Called(pc: Pc) {
    !(pc.Buffered? || pc.Waiting? || pc.Abandoned? || pc.Started?)
  }

  /** The settlement call has been made. */
  predicate Issued(pc: Pc) {
    pc.Settled? || pc.Released? || pc.Finished?
  }

  predicate HoldsSlot(pc: Pc) {
    pc.Started? || pc.Handling? || pc.Retrying? || pc.Confirming? || pc.Settling? || pc.Settled?
  }

  predicate Running(pc: Pc) {
    HoldsSlot(pc) || pc.Released?
  }

  // ----- the steps -----

  function SetAttempt(s: State, t: nat, a: Attempt): State
    requires t < |s.attempts|
  {
    s.(attempts := s.attempts[t := a])
  }

  function SetLoc(s: State, c: nat, loc: Loc): State
    requires c < |s.copies|
  {
    s.(copies := s.copies[c := s.copies[c].(loc := loc)])
  }

  function SetSession(s: State, x: nat, session: Session): State
    requires x < |s.sessions|
  {
    s.(sessions := s.sessions[x := session])
  }

  /** The delivery moves on and its attempt counts as faulted, once. */
  function Blame(s: State, t: nat, a: Attempt): State
    requires t < |s.attempts|
  {
    if a.faulted || a.origin >= |s.origins| then SetAttempt(s, t, a)
    else
      var o := s.origins[a.origin];
      SetAttempt(s, t, a.(faulted := true)).(origins := s.origins[a.origin := o.(faults := o.faults + 1)])
  }

  predicate ValidTag(s: State, t: nat) {
    && t < |s.attempts|
    && s.attempts[t].session < |s.sessions|
    && s.attempts[t].copy < |s.copies|
    && s.attempts[t].origin < |s.origins|
  }

  function DoProduce(s: State, msg: Delivery): State {
    s.(origins := s.origins + [Origin(|s.copies|, msg, 0, 0, true)],
       copies := s.copies + [Copy(|s.origins|, msg, Ready)])
  }

  function DoOpen(s: State, workers: nat, inline: bool): Option<State> {
    if !inline && workers <= 1 then None
    else Some(s.(sessions := s.sessions + [Session(if inline then 1 else workers, inline, Selecting, 0, 0, false)]))
  }

  function DoDeliver(s: State, c: nat, x: nat): Option<State> {
    if c >= |s.copies| || x >= |s.sessions| || !s.copies[c].loc.Ready?
       || s.sessions[x].lost || s.sessions[x].loop.ChannelClosed?
    then None
    else
      var copy := s.copies[c];
      var a := Attempt(c, copy.origin, Count(copy.msg), x, Buffered, true, NoFrame, false, Succeeded, [], NO_RESULT);
      Some(SetLoc(s, c, Unacked(|s.attempts|)).(attempts := s.attempts + [a]))
  }

  /** The loop takes a delivery: an inline session handles it at once, a concurrent one first needs a slot. */
  function DoReceive(s: State, t: nat): Option<State> {
    if !ValidTag(s, t) || !s.attempts[t].pc.Buffered? then None
    else
      var a := s.attempts[t];
      var x := s.sessions[a.session];
      if !x.loop.Selecting? || (x.inline && x.inflight > 0) then None
      else if x.inline then
        Some(SetSession(SetAttempt(s, t, a.(pc := Started)), a.session,
                        x.(sem := x.sem + 1, inflight := x.inflight + 1)))
      else
        Some(SetSession(SetAttempt(s, t, a.(pc := Waiting)), a.session, x.(loop := AwaitingSlot(t))))
  }

  function DoTakeSlot(s: State, x: nat): Option<State> {
    if x >= |s.sessions| || !s.sessions[x].loop.AwaitingSlot? || s.sessions[x].sem >= s.sessions[x].workers
       || s.sessions[x].loop.tag >= |s.attempts|
    then None
    else
      var session := s.sessions[x];
      var t := session.loop.tag;
      Some(SetSession(SetAttempt(s, t, s.attempts[t].(pc := Started)), x,
                      session.(loop := Selecting, sem := session.sem + 1, inflight := session.inflight + 1)))
  }

  /** Cancellation, a closed channel or a closed stream ends the loop; a delivery waiting for a slot is abandoned. */
  function DoExitLoop(s: State, x: nat): Option<State> {
    if x >= |s.sessions| || (s.sessions[x].inline && s.sessions[x].inflight > 0) then None
    else
      var session := s.sessions[x];
      match session.loop
      case Selecting => Some(SetSession(s, x, session.(loop := Exited)))
      case AwaitingSlot(t) =>
        if t >= |s.attempts| then None
        else Some(SetSession(SetAttempt(s, t, s.attempts[t].(pc := Abandoned)), x, session.(loop := Exited)))
      case _ => None
  }

  function DoCloseChannel(s: State, x: nat): Option<State> {
    if x >= |s.sessions| || !s.sessions[x].loop.Exited? || s.sessions[x].inflight > 0 then None
    else Some(SetSession(s, x, s.sessions[x].(loop := ChannelClosed)))
  }

  function DoLose(s: State, x: nat): Option<State> {
    if x >= |s.sessions| then None else Some(SetSession(s, x, s.sessions[x].(lost := true)))
  }

  /** A call for a delivery the broker has already taken back cannot be settled: it is faulted from the start. */
  function DoCallHandler(s: State, t: nat): Option<State> {
    if !ValidTag(s, t) || !s.attempts[t].pc.Started? then None
    else
      var a := s.attempts[t].(pc := Handling);
      var o := s.origins[a.origin];
      var called := s.(origins := s.origins[a.origin := o.(calls := o.calls + 1)]);
      Some(if a.holds then SetAttempt(called, t, a) else Blame(called, t, a))
  }

  function DoReturn(p: Params, s: State, t: nat, outcome: Outcome): Option<State> {
    if !ValidTag(s, t) || !s.attempts[t].pc.Handling? then None
    else
      var a := s.attempts[t].(outcome := outcome);
      var o := s.origins[a.origin];
      var next := match PlanFor(p.cfg.maxRetries, a.count, outcome)
                  case Accept => Settling(AckSuccess)
                  case Reject => Settling(DeadLetter)
                  case Republish => Retrying;
      Some(SetAttempt(s, t, a.(pc := next)).(
           origins := s.origins[a.origin := o.(allRetryable := o.allRetryable
               && (outcome.Errored? || outcome.Panicked?))]))
  }

  /** A delivery after its retry publish; see `DoPublish`. */
  function AfterPublish(p: Params, a: Attempt, msg: Delivery, sent: bool, failed: bool): Attempt
    requires a.count < MAX_INT64
  {
    match RetryPublishing(msg, a.count + 1)
    case None => a.(pc := Settling(Requeue))
    case Some(pub) =>
      var key := RetryKey(msg.routingKey, p.key);
      a.(calls := a.calls + [PublishRetry(key, pub)],
         frame := if sent then InTransit(key, pub) else NoFrame,
         pc := if failed || p.cfg.maxRetries <= 0 then Settling(Requeue) else Confirming)
  }

  /**
   * Publishes the retry copy: `sent` says the frame leaves for the broker, `failed` that the call returns an
   * error. Confirms are on only when MaxRetries is positive; without them the publish counts as failed.
   */
  function DoPublish(p: Params, s: State, t: nat, sent: bool, failed: bool): Option<State> {
    if !ValidTag(s, t) || !s.attempts[t].pc.Retrying? || s.attempts[t].count == MAX_INT64 then None
    else
      var a := s.attempts[t];
      var b := AfterPublish(p, a, s.copies[a.copy].msg, sent && !s.sessions[a.session].lost, failed);
      Some(if b.pc.Confirming? then SetAttempt(s, t, b) else Blame(s, t, b))
  }

  /** The broker routes the retry copy, unless the channel was lost first. */
  function DoEnqueue(p: Params, s: State, t: nat): Option<State> {
    if !ValidTag(s, t) || !s.attempts[t].frame.InTransit? || s.sessions[s.attempts[t].session].lost then None
    else
      var a := s.attempts[t];
      if p.queue in RouteTo(p.broker, p.cfg.exchange, a.frame.key) then
        var copy := Copy(a.origin, Delivered(a.frame.pub, p.cfg.exchange, a.frame.key), Ready);
        Some(SetAttempt(s, t, a.(frame := Enqueued(|s.copies|))).(copies := s.copies + [copy]))
      else
        Some(SetAttempt(s, t, a.(frame := Unroutable)))
  }

  /** A positive confirm follows the broker's handling of the publish, routed or not; anything else is a failure. */
  function DoConfirm(s: State, t: nat, positive: bool): Option<State> {
    if !ValidTag(s, t) || !s.attempts[t].pc.Confirming? then None
    else
      var a := s.attempts[t];
      if !positive then Some(Blame(s, t, a.(pc := Settling(Requeue))))
      else if a.frame.Enqueued? || a.frame.Unroutable? then Some(SetAttempt(s, t, a.(pc := Settling(AckRetried))))
      else None
  }

  /** A delivery after its settlement call, with its report. */
  function AfterSettle(a: Attempt): Attempt
    requires a.pc.Settling?
  {
    a.(pc := Settled(a.pc.how), calls := a.calls + [SettleCall(a.pc.how)],
       result := Report(a.pc.how, a.outcome == NonRetryable))
  }

  function DoSettle(s: State, t: nat): Option<State> {
    if !ValidTag(s, t) || !s.attempts[t].pc.Settling? then None
    else Some(SetAttempt(s, t, AfterSettle(s.attempts[t])))
  }

  function DoReleaseSlot(s: State, t: nat): Option<State> {
    if !ValidTag(s, t) || !s.attempts[t].pc.Settled? || s.sessions[s.attempts[t].session].sem == 0 then None
    else
      var a := s.attempts[t];
      var x := s.sessions[a.session];
      Some(SetSession(SetAttempt(s, t, a.(pc := Released(a.pc.how))), a.session, x.(sem := x.sem - 1)))
  }

  function DoFinishWorker(s: State, t: nat): Option<State> {
    if !ValidTag(s, t) || !s.attempts[t].pc.Released? || s.sessions[s.attempts[t].session].inflight == 0 then None
    else
      var a := s.attempts[t];
      var x := s.sessions[a.session];
      Some(SetSession(SetAttempt(s, t, a.(pc := Finished(a.pc.how))), a.session, x.(inflight := x.inflight - 1)))
  }

  /** Frames of a channel are processed in order: the settlement after the retry publish. */
  function DoBrokerSettle(p: Params, s: State, t: nat): Option<State> {
    if !ValidTag(s, t) || !s.attempts[t].holds || !Issued(s.attempts[t].pc) || s.attempts[t].frame.InTransit?
       || s.sessions[s.attempts[t].session].lost
    then None
    else
      var a := s.attempts[t];
      var msg := s.copies[a.copy].msg;
      var loc := match a.pc.how
                 case AckSuccess => Done(t)
                 case AckRetried => if a.frame.Enqueued? then RetriedAs(a.frame.at, t) else Vanished(t)
                 case Requeue => Ready
                 case DeadLetter =>
                   if DeadLetterTargets(p.broker, p.queue, msg.routingKey) != {} then DeadLettered(t) else Dropped(t);
      Some(SetLoc(SetAttempt(s, t, a.(holds := false)), a.copy, loc))
  }

  /**
   * The broker takes an unacknowledged delivery back: its channel was lost, or was closed with the delivery
   * never settled. An attempt whose handler had been called is faulted by that.
   */
  function DoReturnToQueue(s: State, t: nat): Option<State> {
    if !ValidTag(s, t) || !s.attempts[t].holds then None
    else
      var a := s.attempts[t];
      var x := s.sessions[a.session];
      if !x.lost && !(x.loop.ChannelClosed? && !Issued(a.pc)) then None
      else
        var back := SetLoc(s, a.copy, Ready);
        Some(if Called(a.pc) then Blame(back, t, a.(holds := false)) else SetAttempt(back, t, a.(holds := false)))
  }

  function Step(p: Params, s: State, action: Action): Option<State> {
    match action
    case Produce(msg) => Some(DoProduce(s, msg))
    case Open(workers, inline) => DoOpen(s, workers, inline)
    case Deliver(c, x) => DoDeliver(s, c, x)
    case Receive(t) => DoReceive(s, t)
    case TakeSlot(x) => DoTakeSlot(s, x)
    case ExitLoop(x) => DoExitLoop(s, x)
    case CloseChannel(x) => DoCloseChannel(s, x)
    case Lose(x) => DoLose(s, x)
    case CallHandler(t) => DoCallHandler(s, t)
    case Return(t, outcome) => DoReturn(p, s, t, outcome)
    case Publish(t, sent, failed) => DoPublish(p, s, t, sent, failed)
    case Enqueue(t) => DoEnqueue(p, s, t)
    case Confirm(t, positive) => DoConfirm(s, t, positive)
    case Settle(t) => DoSettle(s, t)
    case ReleaseSlot(t) => DoReleaseSlot(s, t)
    case FinishWorker(t) => DoFinishWorker(s, t)
    case BrokerSettle(t) => DoBrokerSettle(p, s, t)
    case ReturnToQueue(t) => DoReturnToQueue(s, t)
  }

  const INITIAL: State := State([], [], [], [])

  /** The state a run ends in, or `None` when one of its actions was not possible. */
  function Exec(p: Params, run: seq<Action>): Option<State> {
    if run == [] then Some(INITIAL)
    else
      match Exec(p, run[..|run| - 1])
      case None => None
      case Some(s) => Step(p, s, run[|run| - 1])
  }
}
