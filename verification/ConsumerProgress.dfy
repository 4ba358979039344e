/**
 * A message can always be brought to its end: as long as the broker has a copy of it, some step that is no
 * fault brings it closer, whatever other messages and sessions are doing.
 */
module ConsumerProgress {
  import opened Sums
  import opened Retry
  import opened Settlement
  import opened ConsumerMachine
  import opened ConsumerInvariant
  import opened ConsumerRuns
  import opened ConsumerSafety
  import opened ConsumerDiscipline
  import opened ConsumerWork
  import opened ConsumerCalm

  // ----- what is still to be done -----

  /** The steps of a delivery before its handler is called count more than those after. */
  function PcWork(pc: Pc): nat {
    match pc
    case Buffered => 54
    case Waiting => 52
    case Abandoned => 52
    case Started => 47
    case _ => StepsLeft(pc)
  }

  /** The retry publish still ahead, of the message we look at or of another. */
  function PublishWork(a: Attempt, own: bool): nat {
    if a.frame.InTransit? then (if own then 200 else 20)
    else if a.pc.Handling? || a.pc.Retrying? then (if own then 300 else 30)
    else 0
  }

  /** A delivery that its session will not take any more has to go back to the queue. */
  predicate Stranded(sessions: seq<Session>, a: Attempt) {
    a.holds && !Called(a.pc) && a.session < |sessions| && LoopOver(sessions[a.session].loop)
  }

  function AttemptWork(sessions: seq<Session>, o: nat): Attempt -> int {
    (a: Attempt) => PcWork(a.pc) + PublishWork(a, a.origin == o) + (if a.holds then 1 else 0)
                    + (if a.origin == o && Stranded(sessions, a) then 200 else 0)
  }

  function CopyReady(o: nat): Copy -> int {
    (c: Copy) => if c.origin == o && c.loc.Ready? then 100 else 0
  }

  function ClosePending(): Session -> int {
    (x: Session) => if x.loop.Exited? then 1 else 0
  }

  /** No session takes deliveries. */
  predicate NobodyListens(s: State) {
    forall x :: 0 <= x < |s.sessions| ==> !s.sessions[x].loop.Selecting?
  }

  function Ahead(s: State, o: nat): int {
    Sum(s.attempts, AttemptWork(s.sessions, o)) + Sum(s.copies, CopyReady(o)) + Sum(s.sessions, ClosePending())
    + (if NobodyListens(s) then 1 else 0)
  }

  /** One handler call less to go, or the same number and less work before the next. */
  predicate Closer(s: State, n: State, o: nat)
    requires o < |s.origins| && o < |n.origins|
  {
    || n.origins[o].calls > s.origins[o].calls
    || (n.origins[o].calls == s.origins[o].calls && Ahead(n, o) < Ahead(s, o))
  }

  /** The loops go on or are over as before. */
  predicate SameLoops(s: State, n: State) {
    && |s.sessions| == |n.sessions|
    && forall x :: 0 <= x < |s.sessions| ==> LoopOver(s.sessions[x].loop) == LoopOver(n.sessions[x].loop)
  }

  lemma SameLoopsSameWork(s: State, n: State, attempts: seq<Attempt>, o: nat)
    requires SameLoops(s, n)
    ensures Sum(attempts, AttemptWork(n.sessions, o)) == Sum(attempts, AttemptWork(s.sessions, o))
  {
    SumSame(attempts, AttemptWork(n.sessions, o), AttemptWork(s.sessions, o));
  }

  // ----- the ways of getting closer -----

  /** Some step that is no fault brings the message closer to its end. */
  ghost predicate CanGetCloser(p: Params, s: State, o: nat)
    requires o < |s.origins|
  {
    exists action :: Brings(p, s, action, o)
  }

  predicate Brings(p: Params, s: State, action: Action, o: nat)
    requires o < |s.origins|
  {
    && Quiet(action) && Failing(action) && !action.Produce?
    && Step(p, s, action).Some? && o < |Step(p, s, action).value.origins| && Closer(s, Step(p, s, action).value, o)
  }

  lemma ByAction(p: Params, s: State, action: Action, o: nat)
    requires o < |s.origins| && Brings(p, s, action, o)
    ensures CanGetCloser(p, s, o)
  {
  }

  /** One delivery moves on; sessions may change, but not whether they are over or waiting to close. */
  lemma MoveIsCloser(s: State, n: State, t: nat, o: nat)
    requires t < |s.attempts| && |n.attempts| == |s.attempts| && n.attempts == s.attempts[t := n.attempts[t]]
    requires SameLoops(s, n) && Sum(n.sessions, ClosePending()) == Sum(s.sessions, ClosePending())
    requires Sum(n.copies, CopyReady(o)) <= Sum(s.copies, CopyReady(o))
    requires o < |s.origins| && o < |n.origins| && n.origins[o].calls >= s.origins[o].calls
    requires n.origins[o].calls == s.origins[o].calls ==>
               AttemptWork(s.sessions, o)(n.attempts[t]) + (if NobodyListens(n) && !NobodyListens(s) then 1 else 0)
               < AttemptWork(s.sessions, o)(s.attempts[t])
    ensures Closer(s, n, o)
  {
    SameLoopsSameWork(s, n, n.attempts, o);
    SumUpdate(s.attempts, t, n.attempts[t], AttemptWork(s.sessions, o));
  }

  /** ... and its session with it. */
  lemma SessionMoveIsCloser(s: State, n: State, t: nat, x: nat, o: nat)
    requires t < |s.attempts| && |n.attempts| == |s.attempts| && n.attempts == s.attempts[t := n.attempts[t]]
    requires x < |s.sessions| && |n.sessions| == |s.sessions| && n.sessions == s.sessions[x := n.sessions[x]]
    requires
      var before, after := s.sessions[x].loop, n.sessions[x].loop;
      (!LoopOver(before) && !LoopOver(after)) || after == before
    requires n.copies == s.copies && n.origins == s.origins && o < |s.origins|
    requires AttemptWork(s.sessions, o)(n.attempts[t]) + (if NobodyListens(n) && !NobodyListens(s) then 1 else 0)
             < AttemptWork(s.sessions, o)(s.attempts[t])
    ensures Closer(s, n, o)
  {
    SumUpdate(s.sessions, x, n.sessions[x], ClosePending());
    MoveIsCloser(s, n, t, o);
  }

  lemma ListenersStay(s: State, n: State)
    requires |n.sessions| == |s.sessions|
    requires forall x :: 0 <= x < |s.sessions| ==> n.sessions[x].loop.Selecting? == s.sessions[x].loop.Selecting?
    ensures NobodyListens(n) == NobodyListens(s)
  {
    if !NobodyListens(s) {
      var x :| 0 <= x < |s.sessions| && s.sessions[x].loop.Selecting?;
      assert n.sessions[x].loop.Selecting?;
    }
  }

  lemma StarterCloser(p: Params, s: State, t: nat, o: nat)
    requires t < |s.attempts| && AttemptOk(p, s, t) && o < |s.origins| && s.attempts[t].pc.Started?
    ensures CanGetCloser(p, s, o)
  {
    MoveIsCloser(s, DoCallHandler(s, t).value, t, o);
    ByAction(p, s, CallHandler(t), o);
  }

  lemma HandlerCloser(p: Params, s: State, t: nat, o: nat)
    requires t < |s.attempts| && AttemptOk(p, s, t) && o < |s.origins| && s.attempts[t].pc.Handling?
    ensures CanGetCloser(p, s, o)
  {
    MoveIsCloser(s, DoReturn(p, s, t, Errored).value, t, o);
    ByAction(p, s, Return(t, Errored), o);
  }

  lemma PublishLess(p: Params, s: State, t: nat, o: nat)
    requires t < |s.attempts| && AttemptOk(p, s, t) && s.attempts[t].pc.Retrying?
    ensures
      var next := DoPublish(p, s, t, true, false);
      && next.Some? && |next.value.attempts| == |s.attempts|
      && AttemptWork(s.sessions, o)(next.value.attempts[t]) < AttemptWork(s.sessions, o)(s.attempts[t])
  {
    var a := s.attempts[t];
    PublishedPhaseOk(p, a, s.copies[a.copy].msg, !s.sessions[a.session].lost, false);
  }

  lemma PublisherCloser(p: Params, s: State, t: nat, o: nat)
    requires t < |s.attempts| && AttemptOk(p, s, t) && o < |s.origins| && s.attempts[t].pc.Retrying?
    ensures CanGetCloser(p, s, o)
  {
    PublishLess(p, s, t, o);
    MoveIsCloser(s, DoPublish(p, s, t, true, false).value, t, o);
    ByAction(p, s, Publish(t, true, false), o);
  }

  lemma EnqueueWork(p: Params, s: State, t: nat, o: nat)
    requires t < |s.attempts| && AttemptOk(p, s, t) && DoEnqueue(p, s, t).Some?
    ensures
      var n := DoEnqueue(p, s, t).value;
      && |n.attempts| == |s.attempts| && n.attempts == s.attempts[t := n.attempts[t]] && n.sessions == s.sessions
      && AttemptWork(s.sessions, o)(n.attempts[t]) ==
         AttemptWork(s.sessions, o)(s.attempts[t]) - (if s.attempts[t].origin == o then 200 else 20)
      && Sum(n.copies, CopyReady(o)) <= Sum(s.copies, CopyReady(o)) + (if s.attempts[t].origin == o then 100 else 0)
  {
    var n := DoEnqueue(p, s, t).value;
    if |n.copies| > |s.copies| {
      SumAppend(s.copies, n.copies[|s.copies|], CopyReady(o));
    }
  }

  lemma EnqueueAhead(p: Params, s: State, t: nat, o: nat)
    requires t < |s.attempts| && AttemptOk(p, s, t) && DoEnqueue(p, s, t).Some?
    ensures Ahead(DoEnqueue(p, s, t).value, o) < Ahead(s, o)
  {
    var n := DoEnqueue(p, s, t).value;
    EnqueueWork(p, s, t, o);
    SumUpdate(s.attempts, t, n.attempts[t], AttemptWork(s.sessions, o));
  }

  lemma EnqueueCloser(p: Params, s: State, t: nat, o: nat)
    requires CalmInv(p, s) && t < |s.attempts| && AttemptOk(p, s, t) && o < |s.origins|
    requires s.attempts[t].frame.InTransit?
    ensures CanGetCloser(p, s, o)
  {
    EnqueueAhead(p, s, t, o);
    ByAction(p, s, Enqueue(t), o);
  }

  lemma ConfirmCloser(p: Params, s: State, t: nat, o: nat)
    requires DataInv(p, s) && CalmInv(p, s) && t < |s.attempts| && AttemptOk(p, s, t) && o < |s.origins|
    requires s.attempts[t].pc.Confirming? && !s.attempts[t].frame.InTransit?
    ensures CanGetCloser(p, s, o)
  {
    assert InOrder(s, s.attempts[t]);
    MoveIsCloser(s, DoConfirm(s, t, true).value, t, o);
    ByAction(p, s, Confirm(t, true), o);
  }

  lemma SettleCloser(p: Params, s: State, t: nat, o: nat)
    requires t < |s.attempts| && AttemptOk(p, s, t) && o < |s.origins| && s.attempts[t].pc.Settling?
    ensures CanGetCloser(p, s, o)
  {
    MoveIsCloser(s, DoSettle(s, t).value, t, o);
    ByAction(p, s, Settle(t), o);
  }

  lemma ReleaseCloser(p: Params, s: State, t: nat, o: nat)
    requires SessionInv(s) && t < |s.attempts| && AttemptOk(p, s, t) && o < |s.origins| && s.attempts[t].pc.Settled?
    ensures CanGetCloser(p, s, o)
  {
    SlotCounted(s, t);
    var n, x := DoReleaseSlot(s, t).value, s.attempts[t].session;
    ListenersStay(s, n);
    SessionMoveIsCloser(s, n, t, x, o);
    ByAction(p, s, ReleaseSlot(t), o);
  }

  lemma FinishCloser(p: Params, s: State, t: nat, o: nat)
    requires SessionInv(s) && t < |s.attempts| && AttemptOk(p, s, t) && o < |s.origins| && s.attempts[t].pc.Released?
    ensures CanGetCloser(p, s, o)
  {
    SlotCounted(s, t);
    var n, x := DoFinishWorker(s, t).value, s.attempts[t].session;
    ListenersStay(s, n);
    SessionMoveIsCloser(s, n, t, x, o);
    ByAction(p, s, FinishWorker(t), o);
  }

  lemma WorkerCloser(p: Params, s: State, t: nat, o: nat)
    requires DataInv(p, s) && SessionInv(s) && CalmInv(p, s) && o < |s.origins|
    requires t < |s.attempts| && Running(s.attempts[t].pc)
    ensures CanGetCloser(p, s, o)
  {
    assert AttemptOk(p, s, t);
    if s.attempts[t].pc.Started? {
      StarterCloser(p, s, t, o);
    } else if s.attempts[t].pc.Handling? {
      HandlerCloser(p, s, t, o);
    } else if s.attempts[t].pc.Retrying? {
      PublisherCloser(p, s, t, o);
    } else if s.attempts[t].frame.InTransit? {
      EnqueueCloser(p, s, t, o);
    } else if s.attempts[t].pc.Confirming? {
      ConfirmCloser(p, s, t, o);
    } else if s.attempts[t].pc.Settling? {
      SettleCloser(p, s, t, o);
    } else if s.attempts[t].pc.Settled? {
      ReleaseCloser(p, s, t, o);
    } else {
      FinishCloser(p, s, t, o);
    }
  }

  // ----- when no worker is running -----

  ghost predicate AllAtRest(s: State) {
    forall t :: 0 <= t < |s.attempts| ==> !Running(s.attempts[t].pc)
  }

  lemma RestingSession(s: State, x: nat)
    requires SessionInv(s) && AllAtRest(s) && x < |s.sessions|
    ensures s.sessions[x].sem == 0 && s.sessions[x].inflight == 0 && s.sessions[x].workers > 0
  {
    assert SessionOk(s, x);
    SumZero(s.attempts, SlotsOf(x));
    SumZero(s.attempts, WorkersOf(x));
  }

  /** The broker processes a settlement. The message is not requeued, as its retries work. */
  lemma BrokerLess(p: Params, s: State, t: nat, o: nat)
    requires DataInv(p, s) && CalmInv(p, s) && FaultsRecorded(s) && o < |s.origins| && RetriesWork(p, s.origins[o].msg)
    requires t < |s.attempts| && s.attempts[t].holds && Issued(s.attempts[t].pc) && !s.attempts[t].frame.InTransit?
    ensures
      var next := DoBrokerSettle(p, s, t);
      && next.Some? && Sum(next.value.copies, CopyReady(o)) <= Sum(s.copies, CopyReady(o))
  {
    assert AttemptOk(p, s, t) && FaultFree(p, s.origins[o]);
    var n, a := DoBrokerSettle(p, s, t).value, s.attempts[t];
    SumUpdate(s.copies, a.copy, n.copies[a.copy], CopyReady(o));
  }

  lemma BrokerCloser(p: Params, s: State, t: nat, o: nat)
    requires DataInv(p, s) && CalmInv(p, s) && FaultsRecorded(s) && o < |s.origins| && RetriesWork(p, s.origins[o].msg)
    requires t < |s.attempts| && s.attempts[t].holds && Issued(s.attempts[t].pc) && !s.attempts[t].frame.InTransit?
    ensures CanGetCloser(p, s, o)
  {
    BrokerLess(p, s, t, o);
    MoveIsCloser(s, DoBrokerSettle(p, s, t).value, t, o);
    ByAction(p, s, BrokerSettle(t), o);
  }

  lemma SlotCloser(p: Params, s: State, x: nat, o: nat)
    requires DataInv(p, s) && SessionInv(s) && AllAtRest(s) && o < |s.origins|
    requires x < |s.sessions| && s.sessions[x].loop.AwaitingSlot?
    ensures CanGetCloser(p, s, o)
  {
    RestingSession(s, x);
    assert SessionOk(s, x);
    var t, n := s.sessions[x].loop.tag, DoTakeSlot(s, x).value;
    assert AttemptOk(p, s, t);
    assert n.sessions[x].loop.Selecting?;
    SessionMoveIsCloser(s, n, t, x, o);
    ByAction(p, s, TakeSlot(x), o);
  }

  lemma ReceiveCloser(p: Params, s: State, t: nat, o: nat)
    requires DataInv(p, s) && SessionInv(s) && AllAtRest(s) && o < |s.origins|
    requires t < |s.attempts| && AttemptOk(p, s, t) && s.attempts[t].pc.Buffered?
    requires s.sessions[s.attempts[t].session].loop.Selecting?
    ensures CanGetCloser(p, s, o)
  {
    var x := s.attempts[t].session;
    RestingSession(s, x);
    var n := DoReceive(s, t).value;
    SessionMoveIsCloser(s, n, t, x, o);
    ByAction(p, s, Receive(t), o);
  }

  /** A session that has left its loop closes its channel. */
  lemma CloseCloser(p: Params, s: State, x: nat, o: nat)
    requires SessionInv(s) && AllAtRest(s) && o < |s.origins|
    requires x < |s.sessions| && s.sessions[x].loop.Exited?
    ensures CanGetCloser(p, s, o)
  {
    RestingSession(s, x);
    var n := DoCloseChannel(s, x).value;
    SameLoopsSameWork(s, n, s.attempts, o);
    SumUpdate(s.sessions, x, n.sessions[x], ClosePending());
    ListenersStay(s, n);
    ByAction(p, s, CloseChannel(x), o);
  }

  /** The broker takes a delivery of the message back from a closed channel. */
  lemma ReturnCloser(p: Params, s: State, t: nat, o: nat)
    requires DataInv(p, s) && o < |s.origins| && t < |s.attempts| && AttemptOk(p, s, t)
    requires s.attempts[t].origin == o && s.attempts[t].holds && !Called(s.attempts[t].pc)
    requires s.sessions[s.attempts[t].session].loop.ChannelClosed?
    ensures CanGetCloser(p, s, o)
  {
    var n, a := DoReturnToQueue(s, t).value, s.attempts[t];
    SameLoopsSameWork(s, n, n.attempts, o);
    SumUpdate(s.attempts, t, n.attempts[t], AttemptWork(s.sessions, o));
    SumUpdate(s.copies, a.copy, n.copies[a.copy], CopyReady(o));
    ByAction(p, s, ReturnToQueue(t), o);
  }

  lemma DeliverCloser(p: Params, s: State, c: nat, x: nat, o: nat)
    requires DataInv(p, s) && CalmInv(p, s) && o < |s.origins|
    requires c < |s.copies| && s.copies[c].origin == o && s.copies[c].loc.Ready?
    requires x < |s.sessions| && s.sessions[x].loop.Selecting?
    ensures CanGetCloser(p, s, o)
  {
    var n := DoDeliver(s, c, x).value;
    SumAppend(s.attempts, n.attempts[|s.attempts|], AttemptWork(s.sessions, o));
    SumUpdate(s.copies, c, n.copies[c], CopyReady(o));
    ByAction(p, s, Deliver(c, x), o);
  }

  lemma OpenCloser(p: Params, s: State, o: nat)
    requires DataInv(p, s) && o < |s.origins| && NobodyListens(s)
    ensures CanGetCloser(p, s, o)
  {
    var n := DoOpen(s, 1, true).value;
    forall t | 0 <= t < |s.attempts|
      ensures AttemptWork(n.sessions, o)(s.attempts[t]) == AttemptWork(s.sessions, o)(s.attempts[t])
    {
      assert AttemptOk(p, s, t);
    }
    SumSame(s.attempts, AttemptWork(n.sessions, o), AttemptWork(s.sessions, o));
    SumAppend(s.sessions, n.sessions[|s.sessions|], ClosePending());
    assert n.sessions[|s.sessions|].loop.Selecting?;
    ByAction(p, s, Open(1, true), o);
  }

  /** A copy that the broker has not let go of, with nobody at work. */
  lemma LiveCopyCloser(p: Params, s: State, c: nat, o: nat)
    requires DataInv(p, s) && SessionInv(s) && CalmInv(p, s) && FaultsRecorded(s) && AllAtRest(s)
    requires o < |s.origins| && RetriesWork(p, s.origins[o].msg)
    requires c < |s.copies| && s.copies[c].origin == o && Live(s.copies[c])
    ensures CanGetCloser(p, s, o)
  {
    assert CopyOk(p, s, c);
    if s.copies[c].loc.Ready? {
      if NobodyListens(s) {
        OpenCloser(p, s, o);
      } else {
        var x :| 0 <= x < |s.sessions| && s.sessions[x].loop.Selecting?;
        DeliverCloser(p, s, c, x, o);
      }
    } else {
      assert AttemptOk(p, s, s.copies[c].loc.tag);
      HeldCopyCloser(p, s, s.copies[c].loc.tag, o);
    }
  }

  lemma HeldCopyCloser(p: Params, s: State, t: nat, o: nat)
    requires DataInv(p, s) && SessionInv(s) && CalmInv(p, s) && FaultsRecorded(s) && AllAtRest(s)
    requires o < |s.origins| && RetriesWork(p, s.origins[o].msg)
    requires t < |s.attempts| && s.attempts[t].holds && s.attempts[t].origin == o
    ensures CanGetCloser(p, s, o)
  {
    assert AttemptOk(p, s, t);
    var a, x := s.attempts[t], s.attempts[t].session;
    if a.frame.InTransit? {
      EnqueueCloser(p, s, t, o);
    } else if Issued(a.pc) {
      BrokerCloser(p, s, t, o);
    } else if s.sessions[x].loop.AwaitingSlot? {
      SlotCloser(p, s, x, o);
    } else if s.sessions[x].loop.Exited? {
      CloseCloser(p, s, x, o);
    } else if s.sessions[x].loop.ChannelClosed? {
      ReturnCloser(p, s, t, o);
    } else {
      ReceiveCloser(p, s, t, o);
    }
  }

  /** In a calm run, a message whose retries work and that is not over can always get closer to its end. */
  lemma {:induction false} NeverStranded(p: Params, run: seq<Action>, o: nat)
    requires Exec(p, run).Some? && Calm(run) && o < |Exec(p, run).value.origins|
    requires RetriesWork(p, Exec(p, run).value.origins[o].msg) && !Over(Exec(p, run).value, o)
    ensures CanGetCloser(p, Exec(p, run).value, o)
  {
    var s := Exec(p, run).value;
    RunsKeepInvariant(p, run);
    CalmRunsKeepCalm(p, run);
    RunsKeepWork(p, run);
    if AllAtRest(s) {
      var c :| 0 <= c < |s.copies| && s.copies[c].origin == o && Live(s.copies[c]);
      LiveCopyCloser(p, s, c, o);
    } else {
      var t :| 0 <= t < |s.attempts| && Running(s.attempts[t].pc);
      WorkerCloser(p, s, t, o);
    }
  }

  // ----- to the end -----

  function CallsLeft(p: Params, s: State, o: nat): nat
    requires o < |s.origins|
  {
    var w := Weight(p.cfg.maxRetries, Count(s.origins[o].msg));
    if s.origins[o].calls < w then w - s.origins[o].calls else 0
  }

  lemma AheadNonNegative(s: State, o: nat)
    ensures Ahead(s, o) >= 0
  {
    SumNonNegative(s.attempts, AttemptWork(s.sessions, o));
    SumNonNegative(s.copies, CopyReady(o));
    SumNonNegative(s.sessions, ClosePending());
  }

  lemma FailingKeepsMessage(p: Params, s: State, action: Action, o: nat)
    requires o < |s.origins| && Failing(action) && Step(p, s, action).Some?
    ensures
      var n := Step(p, s, action).value;
      && o < |n.origins| && n.origins[o].msg == s.origins[o].msg
      && n.origins[o].allRetryable == s.origins[o].allRetryable
  {
  }

  /** Every handler failure was retryable, retries work, and nothing outside has disturbed the run. */
  ghost predicate Failable(p: Params, run: seq<Action>, o: nat) {
    && Exec(p, run).Some? && Calm(run) && o < |Exec(p, run).value.origins|
    && RetriesWork(p, Exec(p, run).value.origins[o].msg) && Exec(p, run).value.origins[o].allRetryable
  }

  lemma {:induction false} WithinCourse(p: Params, run: seq<Action>, o: nat)
    requires Failable(p, run, o)
    ensures Exec(p, run).value.origins[o].calls <= Weight(p.cfg.maxRetries, Count(Exec(p, run).value.origins[o].msg))
  {
    CallsBounded(p, run, o);
    CalmRunsFaultless(p, run, o);
  }

  /** The measures of a run that ends in such a state. */
  ghost function CallsToGo(p: Params, run: seq<Action>, o: nat): nat
    requires Failable(p, run, o)
  {
    CallsLeft(p, Exec(p, run).value, o)
  }

  ghost function WorkToGo(p: Params, run: seq<Action>, o: nat): nat
    requires Failable(p, run, o)
  {
    AheadNonNegative(Exec(p, run).value, o);
    Ahead(Exec(p, run).value, o)
  }

  ghost predicate Ended(p: Params, run: seq<Action>, o: nat)
    requires Failable(p, run, o)
  {
    Over(Exec(p, run).value, o)
  }

  ghost function MessageOf(p: Params, run: seq<Action>, o: nat): Delivery
    requires Failable(p, run, o)
  {
    Exec(p, run).value.origins[o].msg
  }

  lemma {:induction false} NextStep(p: Params, run: seq<Action>, o: nat) returns (action: Action)
    requires Failable(p, run, o) && !Ended(p, run, o)
    ensures Failable(p, run + [action], o) && MessageOf(p, run + [action], o) == MessageOf(p, run, o)
    ensures Closer(Exec(p, run).value, Exec(p, run + [action]).value, o)
  {
    var s := Exec(p, run).value;
    NeverStranded(p, run, o);
    action :| Brings(p, s, action, o);
    assert (run + [action])[..|run|] == run;
    FailingKeepsMessage(p, s, action, o);
  }

  lemma {:induction false} NextIsLess(p: Params, run: seq<Action>, o: nat) returns (action: Action)
    requires Failable(p, run, o) && !Ended(p, run, o)
    ensures Failable(p, run + [action], o) && MessageOf(p, run + [action], o) == MessageOf(p, run, o)
    ensures CallsToGo(p, run + [action], o) < CallsToGo(p, run, o)
            || (CallsToGo(p, run + [action], o) == CallsToGo(p, run, o)
                && WorkToGo(p, run + [action], o) < WorkToGo(p, run, o))
  {
    action := NextStep(p, run, o);
    WithinCourse(p, run + [action], o);
  }

  /** From wherever it is, a message can be brought to its end without a fault, its handler failing every time. */
  lemma {:induction false} CanEnd(p: Params, run: seq<Action>, o: nat, calls: nat, work: nat)
    returns (longer: seq<Action>)
    requires Failable(p, run, o) && CallsToGo(p, run, o) == calls && WorkToGo(p, run, o) == work
    ensures run <= longer && Failable(p, longer, o) && Ended(p, longer, o)
    ensures MessageOf(p, longer, o) == MessageOf(p, run, o)
    decreases calls, work
  {
    if Ended(p, run, o) {
      longer := run;
    } else {
      var action := NextIsLess(p, run, o);
      var next := run + [action];
      longer := CanEnd(p, next, o, CallsToGo(p, next, o), WorkToGo(p, next, o));
    }
  }

  /**
   * Whenever a message whose handler fails each time is over in a run that nothing disturbs, it has been tried
   * exactly max(0, MaxRetries - r) + 1 times and rejected once; and every such run can be continued to there.
   */
  lemma {:induction false} FailingMessageEnds(p: Params, run: seq<Action>, o: nat) returns (longer: seq<Action>)
    requires Failable(p, run, o) && RetryReturns(p, MessageOf(p, run, o))
    ensures run <= longer && Failable(p, longer, o) && Ended(p, longer, o)
    ensures RejectedOnce(p, Exec(p, longer).value, o)
    ensures Ended(p, run, o) ==> RejectedOnce(p, Exec(p, run).value, o)
  {
    longer := CanEnd(p, run, o, CallsToGo(p, run, o), WorkToGo(p, run, o));
    OverMeansRejected(p, longer, o);
    if Ended(p, run, o) {
      OverMeansRejected(p, run, o);
    }
  }

  predicate RejectedOnce(p: Params, s: State, o: nat)
    requires o < |s.origins|
  {
    && s.origins[o].calls == Weight(p.cfg.maxRetries, Count(s.origins[o].msg))
    && Sum(s.copies, RejectedCopies(o)) == 1
  }

  lemma {:induction false} OverMeansRejected(p: Params, run: seq<Action>, o: nat)
    requires Failable(p, run, o) && RetryReturns(p, MessageOf(p, run, o)) && Ended(p, run, o)
    ensures RejectedOnce(p, Exec(p, run).value, o)
  {
    CalmRunsFaultless(p, run, o);
    AlwaysFailingMessage(p, run, o);
  }
}
