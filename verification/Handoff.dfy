/**
 * Opening one confirm channel: a helper goroutine hands the opened channel over an unbuffered Go channel, a
 * second one enables confirms; the caller waits for each for a limited time. The timers may fire at any moment.
 */
module Handoff {
  import opened Options

  datatype Caller =
    | Starting
    | AwaitOpen
    | Received(ok: bool)      // result taken, `done` not closed yet
    | GivingUp                // open timed out, `done` not closed yet
    | AwaitConfirm
    | Rejecting               // confirm failed or timed out, channel not closed yet
    | ReturnedNil
    | ReturnedChannel

  /** A network call succeeds or fails; the opener has a channel exactly when its call succeeded. */
  datatype Opener = NotAsked | Opening | Offering(ok: bool) | Dropping(ok: bool) | OpenerDone
  datatype Confirmer = NotStarted | Confirming | Sending(ok: bool) | ConfirmerDone

  /** `doneCloses` and `closes` count the closes of `done` and of the opened channel; `answer` is the buffer of one. */
  datatype State = State(
    caller: Caller, opener: Opener, confirmer: Confirmer, doneCloses: nat, answer: Option<bool>,
    created: bool, confirmed: bool, closes: nat)

  datatype Action =
    | ReadConnection(up: bool)
    | OpenEnds(ok: bool)
    | HandOver
    | OpenTimesOut
    | CloseDone
    | SeeDone
    | DropResult
    | ConfirmEnds(ok: bool)
    | SendAnswer
    | TakeAnswer
    | ConfirmTimesOut
    | Reject

  const INITIAL: State := State(Starting, NotAsked, NotStarted, 0, None, false, false, 0)

  function OpenerStep(s: State, action: Action): Option<State> {
    if action.OpenEnds? && s.opener == Opening then
      Some(s.(opener := Offering(action.ok), created := action.ok))
    else if action.SeeDone? && s.opener.Offering? && s.doneCloses > 0 then
      Some(s.(opener := Dropping(s.opener.ok)))
    else if action.DropResult? && s.opener.Dropping? then
      Some(s.(opener := OpenerDone, closes := if s.opener.ok then s.closes + 1 else s.closes))
    else None
  }

  function ConfirmerStep(s: State, action: Action): Option<State> {
    if action.ConfirmEnds? && s.confirmer == Confirming then
      Some(s.(confirmer := Sending(action.ok), confirmed := action.ok))
    else if action.SendAnswer? && s.confirmer.Sending? && s.answer == None then
      Some(s.(confirmer := ConfirmerDone, answer := Some(s.confirmer.ok)))
    else None
  }

  function CallerStep(s: State, action: Action): Option<State> {
    if action.ReadConnection? && s.caller == Starting then
      Some(if action.up then s.(caller := AwaitOpen, opener := Opening) else s.(caller := ReturnedNil))
    else if action.HandOver? && s.caller == AwaitOpen && s.opener.Offering? then
      Some(s.(caller := Received(s.opener.ok), opener := OpenerDone))
    else if action.OpenTimesOut? && s.caller == AwaitOpen then
      Some(s.(caller := GivingUp))
    else if action.CloseDone? && s.caller == GivingUp then
      Some(s.(caller := ReturnedNil, doneCloses := s.doneCloses + 1))
    else if action.CloseDone? && s.caller.Received? then
      Some(if s.caller.ok then s.(caller := AwaitConfirm, confirmer := Confirming, doneCloses := s.doneCloses + 1)
           else s.(caller := ReturnedNil, doneCloses := s.doneCloses + 1))
    else if action.TakeAnswer? && s.caller == AwaitConfirm && s.answer != None then
      Some(s.(caller := if s.answer.value then ReturnedChannel else Rejecting, answer := None))
    else if action.ConfirmTimesOut? && s.caller == AwaitConfirm then
      Some(s.(caller := Rejecting))
    else if action.Reject? && s.caller == Rejecting then
      Some(s.(caller := ReturnedNil, closes := s.closes + 1))
    else None
  }

  predicate ByOpener(action: Action) {
    action.OpenEnds? || action.SeeDone? || action.DropResult?
  }

  predicate ByConfirmer(action: Action) {
    action.ConfirmEnds? || action.SendAnswer?
  }

  function Step(s: State, action: Action): Option<State> {
    if ByOpener(action) then OpenerStep(s, action)
    else if ByConfirmer(action) then ConfirmerStep(s, action)
    else CallerStep(s, action)
  }

  function Exec(run: seq<Action>): Option<State> {
    if run == [] then Some(INITIAL)
    else
      match Exec(run[..|run| - 1])
      case None => None
      case Some(s) => Step(s, run[|run| - 1])
  }

  predicate OpenerHas(s: State) {
    s.opener == Offering(true) || s.opener == Dropping(true)
  }

  predicate CallerHas(s: State) {
    s.caller == Received(true) || s.caller == AwaitConfirm || s.caller == Rejecting
  }

  predicate CallerFinished(s: State) {
    s.caller == ReturnedNil || s.caller == ReturnedChannel
  }

  predicate Finished(s: State) {
    CallerFinished(s) && (s.opener == NotAsked || s.opener == OpenerDone)
    && (s.confirmer == NotStarted || s.confirmer == ConfirmerDone)
  }

  /** In how many places the opened channel is: with a goroutine, handed to the caller of the function, or closed. */
  function Places(s: State): nat {
    (if OpenerHas(s) then 1 else 0) + (if CallerHas(s) then 1 else 0)
    + (if s.caller == ReturnedChannel then 1 else 0) + s.closes
  }

  predicate BeforeConfirm(c: Caller) {
    c == Starting || c == AwaitOpen || c.Received? || c == GivingUp
  }

  ghost predicate Inv(s: State) {
    && Places(s) == (if s.created then 1 else 0)
    && (s.caller == Starting <==> s.opener == NotAsked && !CallerFinished(s))
    && s.doneCloses == (if s.caller == AwaitConfirm || s.caller == Rejecting || s.caller == ReturnedChannel
                        || (s.caller == ReturnedNil && s.opener != NotAsked) then 1 else 0)
    && (s.caller == AwaitOpen ==> s.opener == Opening || s.opener.Offering?)
    && (CallerHas(s) || s.caller.Received? || s.caller == ReturnedChannel ==> s.opener == OpenerDone)
    && (s.opener.Dropping? ==> s.doneCloses > 0)
    && (s.opener == NotAsked || s.opener == Opening ==> !s.created)
    && (BeforeConfirm(s.caller) ==> s.confirmer == NotStarted)
    && (s.caller == AwaitConfirm || s.caller == Rejecting ==> s.confirmer != NotStarted)
    && (s.confirmer == NotStarted || s.confirmer == Confirming ==> !s.confirmed)
    && (s.confirmer != ConfirmerDone ==> s.answer == None)
    && (s.answer != None ==> s.confirmed == s.answer.value)
    && (s.confirmer.Sending? ==> s.confirmed == s.confirmer.ok)
    && (s.caller == ReturnedChannel ==> s.confirmed && s.confirmer == ConfirmerDone)
  }

  function CallerRank(c: Caller): nat {
    match c
    case Starting => 12
    case AwaitOpen => 8
    case Received(_) => 7
    case AwaitConfirm => 4
    case GivingUp => 1
    case Rejecting => 1
    case ReturnedNil => 0
    case ReturnedChannel => 0
  }

  function OpenerRank(o: Opener): nat {
    match o
    case Opening => 3
    case Offering(_) => 2
    case Dropping(_) => 1
    case NotAsked => 0
    case OpenerDone => 0
  }

  function ConfirmerRank(c: Confirmer): nat {
    match c
    case Confirming => 2
    case Sending(_) => 1
    case NotStarted => 0
    case ConfirmerDone => 0
  }

  function Rank(s: State): nat {
    CallerRank(s.caller) + OpenerRank(s.opener) + ConfirmerRank(s.confirmer)
  }

  lemma OpenerKeepsInv(s: State, action: Action)
    requires Inv(s) && OpenerStep(s, action).Some?
    ensures Inv(OpenerStep(s, action).value) && Rank(OpenerStep(s, action).value) < Rank(s)
  {
  }

  lemma ConfirmerKeepsInv(s: State, action: Action)
    requires Inv(s) && ConfirmerStep(s, action).Some?
    ensures Inv(ConfirmerStep(s, action).value) && Rank(ConfirmerStep(s, action).value) < Rank(s)
  {
  }

  lemma CallerKeepsInv(s: State, action: Action)
    requires Inv(s) && CallerStep(s, action).Some?
    ensures Inv(CallerStep(s, action).value) && Rank(CallerStep(s, action).value) < Rank(s)
  {
  }

  lemma StepKeepsInv(s: State, action: Action)
    requires Inv(s) && Step(s, action).Some?
    ensures Inv(Step(s, action).value) && Rank(Step(s, action).value) < Rank(s)
  {
    if ByOpener(action) {
      OpenerKeepsInv(s, action);
    } else if ByConfirmer(action) {
      ConfirmerKeepsInv(s, action);
    } else {
      CallerKeepsInv(s, action);
    }
  }

  /** Every run keeps the bookkeeping and is short. */
  lemma {:induction false} RunsKeepInv(run: seq<Action>)
    requires Exec(run).Some?
    ensures Inv(Exec(run).value) && |run| + Rank(Exec(run).value) <= 12
  {
    if run != [] {
      RunsKeepInv(run[..|run| - 1]);
      StepKeepsInv(Exec(run[..|run| - 1]).value, run[|run| - 1]);
    }
  }

  /** At every moment of every run an opened channel is in exactly one place, and `done` is closed at most once. */
  lemma {:induction false} OneOwner(run: seq<Action>)
    requires Exec(run).Some?
    ensures var s := Exec(run).value;
            Places(s) == (if s.created then 1 else 0) && s.doneCloses <= 1
  {
    RunsKeepInv(run);
  }

  /** When everybody has finished, an opened channel was returned or closed once: never both, never neither. */
  lemma {:induction false} ReturnedXorClosed(run: seq<Action>)
    requires Exec(run).Some? && Finished(Exec(run).value)
    ensures var s := Exec(run).value;
            && (s.created ==> s.closes == (if s.caller == ReturnedChannel then 0 else 1))
            && (!s.created ==> s.closes == 0 && s.caller == ReturnedNil)
  {
    RunsKeepInv(run);
  }

  /** A returned channel had its confirms enabled, and is not closed behind the caller's back by a helper. */
  lemma {:induction false} ReturnedIsUsable(run: seq<Action>)
    requires Exec(run).Some? && Exec(run).value.caller == ReturnedChannel
    ensures var s := Exec(run).value;
            && s.created && s.confirmed && s.closes == 0
            && forall action :: Step(s, action) == None
  {
    RunsKeepInv(run);
  }

  /** Runs end after at most twelve steps, and only when the caller and both helpers have finished. */
  lemma {:induction false} HelpersFinish(run: seq<Action>)
    requires Exec(run).Some?
    ensures |run| <= 12
    ensures Finished(Exec(run).value) <==> forall action :: Step(Exec(run).value, action) == None
  {
    RunsKeepInv(run);
    var s := Exec(run).value;
    if !Finished(s) {
      var action :=
        if s.caller == Starting then ReadConnection(true)
        else if s.caller == AwaitOpen then OpenTimesOut
        else if s.caller.Received? || s.caller == GivingUp then CloseDone
        else if s.caller == AwaitConfirm then ConfirmTimesOut
        else if s.caller == Rejecting then Reject
        else if s.opener == Opening then OpenEnds(true)
        else if s.opener.Offering? then SeeDone
        else if s.opener.Dropping? then DropResult
        else if s.confirmer == Confirming then ConfirmEnds(true)
        else SendAnswer;
      assert Step(s, action).Some?;
    }
  }

  /** The caller never has to wait for a helper: it has a step of its own until it has returned. */
  lemma {:induction false} CallerNeverStuck(run: seq<Action>)
    requires Exec(run).Some? && !CallerFinished(Exec(run).value)
    ensures exists action :: !ByOpener(action) && !ByConfirmer(action) && !action.HandOver? && !action.TakeAnswer?
                             && Step(Exec(run).value, action).Some?
  {
    var s := Exec(run).value;
    var action :=
      if s.caller == Starting then ReadConnection(true)
      else if s.caller == AwaitOpen then OpenTimesOut
      else if s.caller.Received? || s.caller == GivingUp then CloseDone
      else if s.caller == AwaitConfirm then ConfirmTimesOut
      else Reject;
    assert Step(s, action).Some?;
  }

  // ----- when a channel is returned -----

  /** What the actions of a run say about its last state. */
  ghost predicate FollowsRun(run: seq<Action>, s: State) {
    && (s.created <==> OpenEnds(true) in run)
    && (s.confirmed <==> ConfirmEnds(true) in run)
    && (s.opener != NotAsked <==> ReadConnection(true) in run)
    && (OpenTimesOut in run ==> s.caller == GivingUp || s.caller == ReturnedNil)
    && (ConfirmTimesOut in run ==> s.caller == Rejecting || s.caller == ReturnedNil)
  }

  lemma {:induction false} StateFollowsRun(run: seq<Action>)
    requires Exec(run).Some?
    ensures FollowsRun(run, Exec(run).value)
  {
    if run != [] {
      var before, action := run[..|run| - 1], run[|run| - 1];
      StateFollowsRun(before);
      RunsKeepInv(before);
      assert run == before + [action];
      FollowsStep(before, Exec(before).value, action);
    }
  }

  lemma FollowsStep(run: seq<Action>, s: State, action: Action)
    requires FollowsRun(run, s) && Inv(s) && Step(s, action).Some?
    ensures FollowsRun(run + [action], Step(s, action).value)
  {
    assert forall a :: a in run + [action] <==> a in run || a == action;
  }

  /** Neither of the two waits has timed out. */
  predicate InTime(run: seq<Action>) {
    OpenTimesOut !in run && ConfirmTimesOut !in run
  }

  /** Without time-outs the caller follows the helpers' results. */
  predicate Obeys(s: State) {
    && s.caller != GivingUp
    && (s.caller == Received(true) ==> s.created) && (s.caller == Received(false) ==> !s.created)
    && (s.opener.Offering? ==> s.opener.ok == s.created)
    && (s.caller == Rejecting ==> !s.confirmed && s.confirmer == ConfirmerDone)
    && (s.caller == ReturnedNil ==> !s.confirmed)
    && (s.caller == AwaitConfirm && s.confirmer == ConfirmerDone ==> s.answer != None)
    && (s.caller == AwaitConfirm ==> s.created)
    && (s.caller == ReturnedNil && s.created ==> s.confirmer == ConfirmerDone)
    && (s.caller == ReturnedNil ==> s.opener == NotAsked || s.opener == OpenerDone)
    && (s.caller == ReturnedNil ==> s.confirmer == NotStarted || s.confirmer == ConfirmerDone)
  }

  lemma ObeysStep(s: State, action: Action)
    requires Inv(s) && Obeys(s) && action != OpenTimesOut && action != ConfirmTimesOut && Step(s, action).Some?
    ensures Obeys(Step(s, action).value)
  {
    if ByOpener(action) {
      OpenerObeys(s, action);
    } else if ByConfirmer(action) {
      ConfirmerObeys(s, action);
    } else {
      CallerObeys(s, action);
    }
  }

  lemma OpenerObeys(s: State, action: Action)
    requires Inv(s) && Obeys(s) && OpenerStep(s, action).Some?
    ensures Obeys(OpenerStep(s, action).value)
  {
  }

  lemma ConfirmerObeys(s: State, action: Action)
    requires Inv(s) && Obeys(s) && ConfirmerStep(s, action).Some?
    ensures Obeys(ConfirmerStep(s, action).value)
  {
  }

  lemma CallerObeys(s: State, action: Action)
    requires Inv(s) && Obeys(s) && action != OpenTimesOut && action != ConfirmTimesOut && CallerStep(s, action).Some?
    ensures Obeys(CallerStep(s, action).value)
  {
  }

  lemma {:induction false} InTimeObeys(run: seq<Action>)
    requires Exec(run).Some? && InTime(run)
    ensures Obeys(Exec(run).value)
  {
    if run != [] {
      var before := run[..|run| - 1];
      InTimeObeys(before);
      RunsKeepInv(before);
      ObeysStep(Exec(before).value, run[|run| - 1]);
    }
  }

  /**
   * When everybody has finished, the caller has a channel exactly if the connection was up, the channel was opened,
   * its confirms were enabled, and neither wait timed out.
   */
  lemma {:induction false} ReturnedIffEnabled(run: seq<Action>)
    requires Exec(run).Some? && Finished(Exec(run).value)
    ensures Exec(run).value.caller == ReturnedChannel
            <==> ReadConnection(true) in run && OpenEnds(true) in run && ConfirmEnds(true) in run
                 && OpenTimesOut !in run && ConfirmTimesOut !in run
  {
    RunsKeepInv(run);
    StateFollowsRun(run);
    if InTime(run) {
      InTimeObeys(run);
    }
  }

  lemma Extend(run: seq<Action>, s: State, action: Action, n: State)
    requires Exec(run) == Some(s) && Step(s, action) == Some(n)
    ensures Exec(run + [action]) == Some(n)
  {
    assert (run + [action])[..|run|] == run;
  }

  /** Such runs exist: a channel is opened and returned with its confirms enabled. */
  lemma ChannelIsReturned() returns (run: seq<Action>)
    ensures Exec(run).Some? && Finished(Exec(run).value) && InTime(run)
    ensures Exec(run).value.caller == ReturnedChannel
  {
    run := [ReadConnection(true)];
    Extend([], INITIAL, ReadConnection(true), INITIAL.(caller := AwaitOpen, opener := Opening));
    assert run == [] + [ReadConnection(true)];
    var s := INITIAL.(caller := AwaitOpen, opener := Opening);
    var more := [OpenEnds(true), HandOver, CloseDone, ConfirmEnds(true), SendAnswer, TakeAnswer];
    for i := 0 to |more|
      invariant Exec(run) == Some(s) && InTime(run)
      invariant s == [INITIAL.(caller := AwaitOpen, opener := Opening),
                      State(AwaitOpen, Offering(true), NotStarted, 0, None, true, false, 0),
                      State(Received(true), OpenerDone, NotStarted, 0, None, true, false, 0),
                      State(AwaitConfirm, OpenerDone, Confirming, 1, None, true, false, 0),
                      State(AwaitConfirm, OpenerDone, Sending(true), 1, None, true, true, 0),
                      State(AwaitConfirm, OpenerDone, ConfirmerDone, 1, Some(true), true, true, 0),
                      State(ReturnedChannel, OpenerDone, ConfirmerDone, 1, None, true, true, 0)][i]
    {
      Extend(run, s, more[i], Step(s, more[i]).value);
      s := Step(s, more[i]).value;
      run := run + [more[i]];
    }
  }
}
