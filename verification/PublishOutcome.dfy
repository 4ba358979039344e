/**
 * One confirm channel of the publisher: publishes made on it one after the other, the broker that handles
 * them, the frames on their way back, and the waits that turn those frames into the result of each publish.
 * The broker sends a return before the confirm of the same publish, and closing a channel fails its pending
 * confirms and closes its return listener.
 */
module PublishOutcome {
  import opened Options

  datatype Message = Message(mandatory: bool, waitForConfirm: bool)

  /** `Unroutable(None)` is what a closed return listener yields. */
  datatype Result = Ok | Unroutable(tag: Option<nat>) | Rejected | TimedOut | Cancelled

  /** `late`: the timer of the select had fired before the select looked at it. */
  datatype Pub = Pub(msg: Message, result: Option<Result>, late: bool)

  datatype Answer = Pending | Acked | Nacked

  /** What the broker did with a publish; tags number the publishes of the channel. */
  datatype Fate = Fate(routable: bool, returned: bool, answer: Answer)

  datatype Frame = Return(tag: nat) | Confirm(tag: nat, multiple: bool, ack: bool)

  /** Once a mandatory publish is over the channel is closed and no longer used. */
  datatype Pc = Ready | AwaitingConfirm | Selecting(timer: bool, blocked: bool) | Retired

  /** `listener` is the return listener of a mandatory publish, a buffer of one. */
  datatype State = State(
    pc: Pc, open: bool, pubs: seq<Pub>, fates: seq<Fate>, wire: seq<Frame>,
    confirms: seq<Answer>, listener: Option<seq<nat>>)

  datatype Choice = TakeReturn | TakeTimer | TakeContext | Block

  datatype Action =
    | Send(msg: Message)
    | SendFails(mandatory: bool)
    | BrokerHandles(routable: bool)
    | BrokerConfirms(tag: nat, multiple: bool, ack: bool)
    | ReadFrame
    | ChannelDies
    | SeeConfirm
    | ConfirmTimesOut(cancelled: bool)
    | TimerFires
    | Select(choice: Choice)

  const INITIAL: State := State(Ready, true, [], [], [], [], None)

  predicate Covers(f: Frame, k: nat) {
    f.Confirm? && (f.tag == k || (f.multiple && k <= f.tag))
  }

  function Verdict(ack: bool): Answer {
    if ack then Acked else Nacked
  }

  /** A confirm settles every pending publish it covers. */
  function Resolve(confirms: seq<Answer>, f: Frame): (r: seq<Answer>) {
    seq(|confirms|, k requires 0 <= k < |confirms| =>
      if Covers(f, k) && confirms[k] == Pending && f.Confirm? then Verdict(f.ack) else confirms[k])
  }

  /** The answers of the broker, Pending for a publish it has not answered or not seen. */
  function Answers(fates: seq<Fate>, n: nat): seq<Answer> {
    seq(n, k requires 0 <= k < n => if k < |fates| then fates[k].answer else Pending)
  }

  function Decide(fates: seq<Fate>, f: Frame): (r: seq<Fate>) {
    seq(|fates|, k requires 0 <= k < |fates| =>
      if Covers(f, k) && fates[k].answer == Pending && f.Confirm? then fates[k].(answer := Verdict(f.ack))
      else fates[k])
  }

  function Last(s: State): nat
    requires s.pubs != []
  {
    |s.pubs| - 1
  }

  /** The current publish ends: a channel that served a mandatory publish is closed, any other is used again. */
  function Conclude(s: State, result: Result, late: bool): State
    requires s.pubs != []
  {
    var pub := s.pubs[Last(s)];
    s.(pubs := s.pubs[Last(s) := pub.(result := Some(result), late := late)],
       pc := if pub.msg.mandatory then Retired else Ready)
  }

  function SendStep(s: State, msg: Message): Option<State> {
    if s.pc != Ready || !s.open then None
    else
      var result := if msg.waitForConfirm || msg.mandatory then None else Some(Ok);
      Some(s.(pubs := s.pubs + [Pub(msg, result, false)], confirms := s.confirms + [Pending],
              listener := if msg.mandatory then Some([]) else s.listener,
              pc := if msg.waitForConfirm then AwaitingConfirm
                    else if msg.mandatory then Selecting(false, false)
                    else Ready))
  }

  function HandleStep(s: State, routable: bool): Option<State> {
    if !s.open || |s.fates| >= |s.pubs| then None
    else
      var returned := !routable && s.pubs[|s.fates|].msg.mandatory;
      Some(s.(fates := s.fates + [Fate(routable, returned, Pending)],
              wire := if returned then s.wire + [Return(|s.fates|)] else s.wire))
  }

  function ConfirmStep(s: State, f: Frame): Option<State> {
    if !f.Confirm? || !s.open || f.tag >= |s.fates| || s.fates[f.tag].answer != Pending then None
    else Some(s.(fates := Decide(s.fates, f), wire := s.wire + [f]))
  }

  /** The reader of the connection takes the next frame; a full listener holds it up. */
  function ReadStep(s: State): Option<State> {
    if !s.open || s.wire == [] then None
    else
      var n := s.(wire := s.wire[1..]);
      match s.wire[0]
      case Confirm(_, _, _) => Some(n.(confirms := Resolve(s.confirms, s.wire[0])))
      case Return(tag) =>
        if s.listener == None then Some(n)
        else if s.listener.value == [] then Some(n.(listener := Some([tag])))
        else None
  }

  function DieStep(s: State): State {
    s.(open := false, wire := [],
       confirms := seq(|s.confirms|, k requires 0 <= k < |s.confirms| =>
         if s.confirms[k] == Pending then Nacked else s.confirms[k]))
  }

  /** publishOnChannel: the wait for the confirm. */
  function WaitStep(s: State, action: Action): Option<State> {
    if s.pc != AwaitingConfirm || s.pubs == [] || |s.confirms| != |s.pubs| then None
    else if action.ConfirmTimesOut? then Some(Conclude(s, if action.cancelled then Cancelled else TimedOut, false))
    else if s.confirms[Last(s)] == Pending then None
    else if s.confirms[Last(s)] == Nacked then Some(Conclude(s, Rejected, false))
    else if s.pubs[Last(s)].msg.mandatory then Some(s.(pc := Selecting(false, false)))
    else Some(Conclude(s, Ok, false))
  }

  /** A receive from the listener would not block. */
  predicate ReturnReady(s: State) {
    s.listener != None && (s.listener.value != [] || !s.open)
  }

  /**
   * publish: the select after a mandatory publish. It takes one of the cases that are ready when it looks; if
   * none is, it blocks until the first becomes ready.
   */
  function SelectStep(s: State, choice: Choice): Option<State> {
    if !s.pc.Selecting? || s.pubs == [] then None
    else
      match choice
      case TakeReturn =>
        if !ReturnReady(s) then None
        else Some(Conclude(s, Unroutable(if s.listener.value == [] then None else Some(s.listener.value[0])), false))
      case TakeTimer =>
        if s.pc.blocked then (if ReturnReady(s) then None else Some(Conclude(s, Ok, false)))
        else if s.pc.timer then Some(Conclude(s, Ok, true))
        else None
      case TakeContext =>
        if s.pc.blocked && ReturnReady(s) then None else Some(Conclude(s, Cancelled, false))
      case Block =>
        if s.pc.blocked || s.pc.timer || ReturnReady(s) then None else Some(s.(pc := Selecting(false, true)))
  }

  function Step(s: State, action: Action): Option<State> {
    match action
    case Send(msg) => SendStep(s, msg)
    case SendFails(mandatory) => if s.pc != Ready then None else Some(s.(pc := if mandatory then Retired else Ready))
    case BrokerHandles(routable) => HandleStep(s, routable)
    case BrokerConfirms(tag, multiple, ack) => ConfirmStep(s, Confirm(tag, multiple, ack))
    case ReadFrame => ReadStep(s)
    case ChannelDies => Some(DieStep(s))
    case SeeConfirm => WaitStep(s, action)
    case ConfirmTimesOut(_) => WaitStep(s, action)
    case TimerFires => if s.pc == Selecting(false, false) then Some(s.(pc := Selecting(true, false))) else None
    case Select(choice) => SelectStep(s, choice)
  }

  function Exec(run: seq<Action>): Option<State> {
    if run == [] then Some(INITIAL)
    else
      match Exec(run[..|run| - 1])
      case None => None
      case Some(s) => Step(s, run[|run| - 1])
  }

  // ----- the client's view of the confirms follows the broker's -----

  function Fold(confirms: seq<Answer>, wire: seq<Frame>): seq<Answer> {
    if wire == [] then confirms else Resolve(Fold(confirms, wire[..|wire| - 1]), wire[|wire| - 1])
  }

  lemma {:induction false} FoldSize(confirms: seq<Answer>, wire: seq<Frame>)
    ensures |Fold(confirms, wire)| == |confirms|
  {
    if wire != [] {
      FoldSize(confirms, wire[..|wire| - 1]);
    }
  }

  lemma {:induction false} FoldFirst(confirms: seq<Answer>, wire: seq<Frame>)
    requires wire != []
    ensures Fold(confirms, wire) == Fold(Resolve(confirms, wire[0]), wire[1..])
  {
    if |wire| > 1 {
      FoldFirst(confirms, wire[..|wire| - 1]);
      assert wire[..|wire| - 1][1..] == wire[1..][..|wire| - 2];
    } else {
      assert wire[..0] == [];
    }
  }

  /** A new publish is not covered by the frames already sent. */
  lemma {:induction false} FoldFresh(confirms: seq<Answer>, wire: seq<Frame>)
    requires forall i :: 0 <= i < |wire| ==> !Covers(wire[i], |confirms|)
    ensures Fold(confirms + [Pending], wire) == Fold(confirms, wire) + [Pending]
  {
    FoldSize(confirms, wire);
    FoldSize(confirms + [Pending], wire);
    if wire != [] {
      FoldSize(confirms, wire[..|wire| - 1]);
      FoldFresh(confirms, wire[..|wire| - 1]);
    }
  }

  lemma {:induction false} FoldKeeps(confirms: seq<Answer>, wire: seq<Frame>, k: nat)
    requires k < |confirms| && confirms[k] != Pending
    ensures |Fold(confirms, wire)| == |confirms| && Fold(confirms, wire)[k] == confirms[k]
  {
    if wire != [] {
      FoldKeeps(confirms, wire[..|wire| - 1], k);
    }
  }

  lemma {:induction false} FoldPending(confirms: seq<Answer>, wire: seq<Frame>, k: nat)
    requires k < |Fold(confirms, wire)| == |confirms| && Fold(confirms, wire)[k] == Pending
    ensures confirms[k] == Pending
  {
    if wire != [] {
      FoldSize(confirms, wire[..|wire| - 1]);
      FoldPending(confirms, wire[..|wire| - 1], k);
    }
  }

  // ----- the invariant -----

  /** The return of publish `k` comes before every confirm that covers it. */
  predicate ReturnAhead(wire: seq<Frame>, k: nat) {
    wire != [] && (wire[0] == Return(k) || (!Covers(wire[0], k) && ReturnAhead(wire[1..], k)))
  }

  ghost predicate Shape(s: State) {
    && |s.confirms| == |s.pubs| && |s.fates| <= |s.pubs|
    && (s.pc == AwaitingConfirm || s.pc.Selecting? ==> s.pubs != [] && s.pubs[Last(s)].result == None)
    && (forall i :: 0 <= i < |s.pubs| && s.pubs[i].result == None ==>
          i == Last(s) && (s.pc == AwaitingConfirm || s.pc.Selecting?))
    && (s.pc == AwaitingConfirm ==> s.pubs[Last(s)].msg.waitForConfirm)
    && (s.pc.Selecting? ==> s.pubs[Last(s)].msg.mandatory)
    && (forall i :: 0 <= i < |s.pubs| && s.pubs[i].msg.mandatory ==>
          i == Last(s) && s.pc != Ready && s.listener != None)
    && (s.listener != None ==> s.pc != Ready && s.pubs != [] && s.pubs[Last(s)].msg.mandatory)
  }

  ghost predicate BrokerInv(s: State) {
    && |s.fates| <= |s.pubs|
    && (forall i :: 0 <= i < |s.fates| ==>
          (s.fates[i].returned <==> s.pubs[i].msg.mandatory && !s.fates[i].routable))
    && (forall i :: 0 <= i < |s.wire| ==> s.wire[i].tag < |s.fates|)
    && (forall i :: 0 <= i < |s.wire| && s.wire[i].Return? ==> s.fates[s.wire[i].tag].returned)
    && (s.listener != None ==> forall t :: t in s.listener.value ==> t < |s.fates| && s.fates[t].returned)
    && (s.listener != None && |s.fates| < |s.pubs| ==> s.listener.value == [])
    && (forall i, j :: 0 <= i < |s.wire| && 0 <= j < |s.wire| && s.wire[i].Return? && s.wire[j].Return? ==> i == j)
    && (s.listener != None && s.listener.value != [] ==> forall i :: 0 <= i < |s.wire| ==> s.wire[i].Confirm?)
  }

  ghost predicate ConfirmInv(s: State) {
    && |s.confirms| == |s.pubs| && |s.fates| <= |s.pubs|
    && (s.open ==> Fold(s.confirms, s.wire) == Answers(s.fates, |s.pubs|))
    && (forall k :: 0 <= k < |s.confirms| && s.confirms[k] != Pending ==>
          (s.confirms[k] == Nacked && !s.open) || (k < |s.fates| && s.fates[k].answer == s.confirms[k]))
    && (!s.open ==> forall k :: 0 <= k < |s.confirms| ==> s.confirms[k] != Pending)
  }

  /** Of a mandatory publish under way: the listener has its return, or the return comes before the confirm. */
  ghost predicate ReturnInv(s: State) {
    s.listener != None && s.pc != Retired && s.pubs != [] && |s.pubs| == |s.fates| == |s.confirms|
      && s.fates[Last(s)].returned ==>
      || s.listener.value == [Last(s)]
      || (s.confirms[Last(s)] == Pending && s.open && s.listener.value == [] && ReturnAhead(s.wire, Last(s)))
      || (s.confirms[Last(s)] == Nacked && !s.open)
  }

  ghost predicate ResultOk(s: State, i: nat)
    requires i < |s.pubs| == |s.confirms| && |s.fates| <= |s.pubs|
  {
    var pub := s.pubs[i];
    && (pub.result == Some(Ok) && pub.msg.waitForConfirm ==> s.confirms[i] == Acked)
    && (pub.result == Some(Ok) && pub.msg.waitForConfirm && pub.msg.mandatory && i < |s.fates|
          && s.fates[i].returned ==>
          pub.late)
    && (pub.result.Some? && pub.result.value.Unroutable? && pub.result.value.tag.Some? ==>
          pub.result.value.tag.value == i < |s.fates| && s.fates[i].returned)
    && (pub.result == Some(Unroutable(None)) ==> !s.open)
    && (pub.result.Some? && pub.result.value.Unroutable? ==>
          pub.msg.mandatory && (pub.msg.waitForConfirm ==> s.confirms[i] == Acked))
    && (pub.result == Some(Rejected) ==> s.confirms[i] == Nacked)
    && (pub.result == Some(Rejected) || pub.result == Some(TimedOut) ==> pub.msg.waitForConfirm)
    && (!pub.msg.waitForConfirm && !pub.msg.mandatory ==> pub.result == Some(Ok))
  }

  ghost predicate ResultInv(s: State) {
    && |s.confirms| == |s.pubs| && |s.fates| <= |s.pubs|
    && (forall i :: 0 <= i < |s.pubs| ==> ResultOk(s, i))
    && (s.pc.Selecting? && s.pubs != [] && s.pubs[Last(s)].msg.waitForConfirm ==> s.confirms[Last(s)] == Acked)
  }

  ghost predicate Inv(s: State) {
    Shape(s) && BrokerInv(s) && ConfirmInv(s) && ReturnInv(s) && ResultInv(s)
  }

  // ----- every step keeps it -----

  lemma {:induction false} AheadGrows(wire: seq<Frame>, f: Frame, k: nat)
    requires ReturnAhead(wire, k)
    ensures ReturnAhead(wire + [f], k)
  {
    if wire[0] != Return(k) {
      AheadGrows(wire[1..], f, k);
      assert (wire + [f])[1..] == wire[1..] + [f];
    }
  }

  lemma {:induction false} AheadFresh(wire: seq<Frame>, k: nat)
    requires forall i :: 0 <= i < |wire| ==> !Covers(wire[i], k)
    ensures ReturnAhead(wire + [Return(k)], k)
  {
    if wire != [] {
      AheadFresh(wire[1..], k);
      assert (wire + [Return(k)])[1..] == wire[1..] + [Return(k)];
    }
  }

  /** A channel that is published on again has had no mandatory publish, and so has no foreign listener. */
  lemma ListenerNeverShared(s: State)
    requires Shape(s) && s.pc == Ready
    ensures s.listener == None && forall i :: 0 <= i < |s.pubs| ==> !s.pubs[i].msg.mandatory
  {
  }

  lemma SendKeeps(s: State, msg: Message)
    requires Inv(s) && SendStep(s, msg).Some?
    ensures Inv(SendStep(s, msg).value)
  {
    var n := SendStep(s, msg).value;
    ListenerNeverShared(s);
    FoldFresh(s.confirms, s.wire);
    assert Answers(n.fates, |n.pubs|) == Answers(s.fates, |s.pubs|) + [Pending];
    forall i | 0 <= i < |n.pubs| ensures ResultOk(n, i) {
      if i < |s.pubs| {
        assert ResultOk(s, i);
      }
    }
  }

  lemma ReturnIsAhead(s: State, routable: bool)
    requires Inv(s) && HandleStep(s, routable).Some?
    ensures ReturnInv(HandleStep(s, routable).value)
  {
    var n := HandleStep(s, routable).value;
    var k := |s.fates|;
    if n.fates[k].returned && k == Last(s) && s.listener != None {
      FoldSize(s.confirms, s.wire);
      FoldPending(s.confirms, s.wire, k);
      AheadFresh(s.wire, k);
    }
  }

  lemma HandleKeeps(s: State, routable: bool)
    requires Inv(s) && HandleStep(s, routable).Some?
    ensures Inv(HandleStep(s, routable).value)
  {
    var n := HandleStep(s, routable).value;
    ReturnIsAhead(s, routable);
    assert Answers(n.fates, |n.pubs|) == Answers(s.fates, |s.pubs|);
    if n.wire != s.wire {
      assert n.wire[..|n.wire| - 1] == s.wire;
      FoldSize(s.confirms, s.wire);
      assert Fold(s.confirms, n.wire) == Fold(s.confirms, s.wire);
    }
    forall i | 0 <= i < |n.pubs| ensures ResultOk(n, i) {
      assert ResultOk(s, i);
    }
  }

  lemma ConfirmKeepsAnswers(s: State, f: Frame)
    requires Inv(s) && ConfirmStep(s, f).Some?
    ensures ConfirmInv(ConfirmStep(s, f).value)
  {
    var n := ConfirmStep(s, f).value;
    assert n.wire[..|n.wire| - 1] == s.wire;
    FoldSize(s.confirms, s.wire);
    assert Fold(n.confirms, n.wire) == Answers(n.fates, |n.pubs|);
  }

  lemma ConfirmKeepsReturns(s: State, f: Frame)
    requires Inv(s) && ConfirmStep(s, f).Some?
    ensures ReturnInv(ConfirmStep(s, f).value)
  {
    if s.pubs != [] && ReturnAhead(s.wire, Last(s)) {
      AheadGrows(s.wire, f, Last(s));
    }
  }

  lemma ConfirmKeeps(s: State, f: Frame)
    requires Inv(s) && ConfirmStep(s, f).Some?
    ensures Inv(ConfirmStep(s, f).value)
  {
    var n := ConfirmStep(s, f).value;
    ConfirmKeepsAnswers(s, f);
    ConfirmKeepsReturns(s, f);
    forall i | 0 <= i < |n.pubs| ensures ResultOk(n, i) {
      assert ResultOk(s, i);
    }
  }

  lemma ReadKeeps(s: State)
    requires Inv(s) && ReadStep(s).Some?
    ensures Inv(ReadStep(s).value)
  {
    var n := ReadStep(s).value;
    var f := s.wire[0];
    FoldFirst(s.confirms, s.wire);
    if f.Return? {
      assert Resolve(s.confirms, f) == s.confirms;
    } else {
      forall k | 0 <= k < |n.confirms| && n.confirms[k] != Pending
        ensures k < |n.fates| && n.fates[k].answer == n.confirms[k]
      {
        FoldKeeps(n.confirms, n.wire, k);
        assert Answers(n.fates, |n.pubs|)[k] == n.confirms[k];
      }
    }
    forall i | 0 <= i < |n.pubs| ensures ResultOk(n, i) {
      assert ResultOk(s, i);
    }
  }

  lemma DieKeeps(s: State)
    requires Inv(s)
    ensures Inv(DieStep(s))
  {
    var n := DieStep(s);
    forall i | 0 <= i < |n.pubs| ensures ResultOk(n, i) {
      assert ResultOk(s, i);
    }
  }

  lemma ConcludeKeeps(s: State, result: Result, late: bool)
    requires Inv(s) && s.pubs != [] && (s.pc == AwaitingConfirm || s.pc.Selecting?)
    requires ResultOk(Conclude(s, result, late), Last(s))
    ensures Inv(Conclude(s, result, late))
  {
    var n := Conclude(s, result, late);
    assert Answers(n.fates, |n.pubs|) == Answers(s.fates, |s.pubs|);
    forall i | 0 <= i < |n.pubs| ensures ResultOk(n, i) {
      assert ResultOk(s, i);
    }
  }

  lemma SelectKeeps(s: State, choice: Choice)
    requires Inv(s) && SelectStep(s, choice).Some?
    ensures Inv(SelectStep(s, choice).value)
  {
    var n := SelectStep(s, choice).value;
    if choice == Block {
      forall i | 0 <= i < |n.pubs| ensures ResultOk(n, i) {
        assert ResultOk(s, i);
      }
    } else {
      assert s.listener != None && s.listener.value != [] ==> s.listener.value[0] in s.listener.value;
      ConcludeKeeps(s, n.pubs[Last(s)].result.value, n.pubs[Last(s)].late);
    }
  }

  lemma WaitKeeps(s: State, action: Action)
    requires Inv(s) && WaitStep(s, action).Some?
    ensures Inv(WaitStep(s, action).value)
  {
    var n := WaitStep(s, action).value;
    if n.pc.Selecting? {
      forall i | 0 <= i < |n.pubs| ensures ResultOk(n, i) {
        assert ResultOk(s, i);
      }
    } else {
      ConcludeKeeps(s, n.pubs[Last(s)].result.value, false);
    }
  }

  lemma StepKeeps(s: State, action: Action)
    requires Inv(s) && Step(s, action).Some?
    ensures Inv(Step(s, action).value)
  {
    match action
    case Send(msg) => SendKeeps(s, msg);
    case BrokerHandles(routable) => HandleKeeps(s, routable);
    case BrokerConfirms(tag, multiple, ack) => ConfirmKeeps(s, Confirm(tag, multiple, ack));
    case ReadFrame => ReadKeeps(s);
    case ChannelDies => DieKeeps(s);
    case SeeConfirm => WaitKeeps(s, action);
    case ConfirmTimesOut(_) => WaitKeeps(s, action);
    case Select(choice) => SelectKeeps(s, choice);
    case SendFails(_) =>
      var n := Step(s, action).value;
      forall i | 0 <= i < |n.pubs| ensures ResultOk(n, i) {
        assert ResultOk(s, i);
      }
    case TimerFires =>
      var n := Step(s, action).value;
      forall i | 0 <= i < |n.pubs| ensures ResultOk(n, i) {
        assert ResultOk(s, i);
      }
  }

  lemma {:induction false} RunsKeepInv(run: seq<Action>)
    requires Exec(run).Some?
    ensures Inv(Exec(run).value)
  {
    if run == [] {
      assert Fold(INITIAL.confirms, INITIAL.wire) == Answers(INITIAL.fates, 0);
    } else {
      RunsKeepInv(run[..|run| - 1]);
      StepKeeps(Exec(run[..|run| - 1]).value, run[|run| - 1]);
    }
  }

  // ----- which result a publish gets -----

  predicate Reported(run: seq<Action>, i: nat, result: Result) {
    Exec(run).Some? && i < |Exec(run).value.pubs| && Exec(run).value.pubs[i].result == Some(result)
  }

  /** The result that the broker's answer to a confirmed publish calls for. */
  function Due(s: State, i: nat): Result
    requires i < |s.pubs| && i < |s.fates|
  {
    if s.fates[i].answer == Nacked then Rejected
    else if s.pubs[i].msg.mandatory && !s.fates[i].routable then Unroutable(Some(i))
    else Ok
  }

  /** What the state owes to the actions of the run. */
  ghost predicate PcFollows(run: seq<Action>, s: State) {
    && (!s.open ==> ChannelDies in run)
    && (s.pc == Selecting(true, false) ==> TimerFires in run)
    && s.pc != Selecting(true, true)
    && (SendFails(true) in run ==> s.pc == Retired)
    && (s.pc == Retired ==> SendFails(true) in run || (s.pubs != [] && s.pubs[Last(s)].msg.mandatory))
  }

  predicate ResultFollows(run: seq<Action>, pub: Pub) {
    && (pub.late ==> TimerFires in run && pub.result == Some(Ok))
    && (pub.result == Some(TimedOut) ==> ConfirmTimesOut(false) in run)
    && (pub.result == Some(Cancelled) ==> ConfirmTimesOut(true) in run || Select(TakeContext) in run)
  }

  ghost predicate FollowsRun(run: seq<Action>, s: State) {
    PcFollows(run, s) && forall i :: 0 <= i < |s.pubs| ==> ResultFollows(run, s.pubs[i])
  }

  lemma PcStep(run: seq<Action>, s: State, action: Action)
    requires PcFollows(run, s) && Step(s, action).Some?
    ensures PcFollows(run + [action], Step(s, action).value)
  {
    assert forall a :: a in run + [action] <==> a in run || a == action;
  }

  lemma ResultsStep(run: seq<Action>, s: State, action: Action)
    requires FollowsRun(run, s) && Step(s, action).Some?
    ensures var n := Step(s, action).value;
            forall i :: 0 <= i < |n.pubs| ==> ResultFollows(run + [action], n.pubs[i])
  {
    var n := Step(s, action).value;
    assert forall a :: a in run + [action] <==> a in run || a == action;
    forall i | 0 <= i < |n.pubs| ensures ResultFollows(run + [action], n.pubs[i]) {
      assert i < |s.pubs| ==> ResultFollows(run, s.pubs[i]);
    }
  }

  lemma {:induction false} StateFollowsRun(run: seq<Action>)
    requires Exec(run).Some?
    ensures FollowsRun(run, Exec(run).value)
  {
    if run != [] {
      var before, action := run[..|run| - 1], run[|run| - 1];
      StateFollowsRun(before);
      assert run == before + [action];
      PcStep(before, Exec(before).value, action);
      ResultsStep(before, Exec(before).value, action);
    }
  }

  /**
   * In every run, a publish that waits for its confirm gets the result that the broker's answer calls for, unless
   * the channel dies, a wait times out or is cancelled, or the timer fires before the select is reached.
   */
  lemma {:induction false} DueOrDisturbed(run: seq<Action>, i: nat, result: Result)
    requires Reported(run, i, result) && Exec(run).value.pubs[i].msg.waitForConfirm
    ensures var s := Exec(run).value;
            || (i < |s.fates| && s.fates[i].answer != Pending && result == Due(s, i))
            || ChannelDies in run
            || (result == TimedOut && ConfirmTimesOut(false) in run)
            || (result == Cancelled && (ConfirmTimesOut(true) in run || Select(TakeContext) in run))
            || (result == Ok && TimerFires in run)
  {
    RunsKeepInv(run);
    StateFollowsRun(run);
    assert ResultOk(Exec(run).value, i) && ResultFollows(run, Exec(run).value.pubs[i]);
  }

  /** A publish is reported as rejected only if the broker refused it or the channel closed with no confirm read. */
  lemma {:induction false} RejectedMeansRefused(run: seq<Action>, i: nat)
    requires Reported(run, i, Rejected)
    ensures var s := Exec(run).value;
            i < |s.confirms| && s.confirms[i] == Nacked
            && (!s.open || (i < |s.fates| && s.fates[i].answer == Nacked))
  {
    RunsKeepInv(run);
    assert ResultOk(Exec(run).value, i);
  }

  /** A publish that neither waits for a confirm nor is mandatory is a success as soon as it is sent. */
  lemma {:induction false} FireAndForget(run: seq<Action>, i: nat)
    requires Exec(run).Some? && i < |Exec(run).value.pubs|
    requires !Exec(run).value.pubs[i].msg.waitForConfirm && !Exec(run).value.pubs[i].msg.mandatory
    ensures Reported(run, i, Ok)
  {
    RunsKeepInv(run);
    assert ResultOk(Exec(run).value, i);
  }

  /** The listener's buffer of one suffices: in no run does the reader of the connection wait for room in it. */
  lemma {:induction false} ReaderNeverBlocks(run: seq<Action>)
    requires Exec(run).Some? && Exec(run).value.open && Exec(run).value.wire != []
    ensures Step(Exec(run).value, ReadFrame).Some?
  {
    RunsKeepInv(run);
  }

  lemma {:induction false} Extend(run: seq<Action>, s: State, action: Action, n: State)
    requires Exec(run) == Some(s) && Step(s, action) == Some(n)
    ensures Exec(run + [action]) == Some(n)
  {
    assert (run + [action])[..|run|] == run;
  }

  /** The channel is open, the client waits for the confirm of its last publish, and the broker has answered it. */
  predicate Answered(s: State) {
    s.open && s.pc == AwaitingConfirm && s.pubs != [] && |s.fates| == |s.pubs| && s.fates[Last(s)].answer != Pending
  }

  predicate Quiet(action: Action) {
    action == ReadFrame || action == SeeConfirm || action == Select(Block)
    || action == Select(TakeReturn) || action == Select(TakeTimer)
  }

  predicate QuietAfter(run: seq<Action>, more: seq<Action>) {
    run <= more && forall i :: |run| <= i < |more| ==> Quiet(more[i])
  }

  /** The client can read all the frames on their way, and then knows the broker's answers. */
  lemma {:induction false} ReadAll(run: seq<Action>) returns (more: seq<Action>)
    requires Exec(run).Some? && Answered(Exec(run).value)
    ensures QuietAfter(run, more) && Exec(more).Some?
    ensures var s, t := Exec(run).value, Exec(more).value;
            t.wire == [] && Answered(t) && t.pubs == s.pubs && t.fates == s.fates
    decreases |Exec(run).value.wire|
  {
    var s := Exec(run).value;
    if s.wire == [] {
      more := run;
    } else {
      ReaderNeverBlocks(run);
      Extend(run, s, ReadFrame, ReadStep(s).value);
      more := ReadAll(run + [ReadFrame]);
    }
  }

  /** With nothing left to read, the client has the broker's answer and the return of the publish. */
  lemma {:induction false} AllRead(run: seq<Action>)
    requires Exec(run).Some? && Answered(Exec(run).value) && Exec(run).value.wire == []
    ensures var s := Exec(run).value;
            && Inv(s) && s.confirms[Last(s)] == s.fates[Last(s)].answer
            && (s.pubs[Last(s)].msg.mandatory ==>
                  s.listener == Some(if s.fates[Last(s)].routable then [] else [Last(s)]))
  {
    RunsKeepInv(run);
    var s := Exec(run).value;
    assert Answers(s.fates, |s.pubs|)[Last(s)] == s.fates[Last(s)].answer;
    if s.listener != None && s.listener.value != [] {
      assert s.listener.value[0] in s.listener.value;
    }
  }

  /** The last publish has ended with this result, and no timer came too early. */
  predicate EndsWith(run: seq<Action>, before: State, result: Result)
    requires before.pubs != []
  {
    Exec(run).Some? && |Exec(run).value.pubs| == |before.pubs|
    && Exec(run).value.pubs[Last(before)] == Pub(before.pubs[Last(before)].msg, Some(result), false)
  }

  /** The select of a mandatory publish reports a return that is there, and success if it stays away. */
  lemma {:induction false} SelectDecides(run: seq<Action>) returns (more: seq<Action>)
    requires Exec(run).Some?
    requires var s := Exec(run).value;
             s.open && s.pc == Selecting(false, false) && s.pubs != [] && s.listener != None
    ensures QuietAfter(run, more)
    ensures var s := Exec(run).value;
            EndsWith(more, s, if s.listener.value == [] then Ok else Unroutable(Some(s.listener.value[0])))
  {
    var s := Exec(run).value;
    if s.listener.value == [] {
      var b := s.(pc := Selecting(false, true));
      Extend(run, s, Select(Block), b);
      Extend(run + [Select(Block)], b, Select(TakeTimer), Conclude(b, Ok, false));
      more := run + [Select(Block)] + [Select(TakeTimer)];
    } else {
      Extend(run, s, Select(TakeReturn), Conclude(s, Unroutable(Some(s.listener.value[0])), false));
      more := run + [Select(TakeReturn)];
    }
  }

  /**
   * From every moment at which the broker has answered a publish that the client waits for, the client alone can
   * go on, and the publish ends with the result that the answer calls for.
   */
  lemma {:induction false} DueIsReported(run: seq<Action>) returns (more: seq<Action>)
    requires Exec(run).Some? && Answered(Exec(run).value)
    ensures QuietAfter(run, more)
    ensures var s := Exec(run).value;
            EndsWith(more, s, Due(s, Last(s)))
  {
    var read := ReadAll(run);
    AllRead(read);
    var s := Exec(read).value;
    var n := WaitStep(s, SeeConfirm).value;
    Extend(read, s, SeeConfirm, n);
    more := read + [SeeConfirm];
    if n.pc.Selecting? {
      more := SelectDecides(more);
    }
  }

  /** A dying channel leaves nobody waiting: the wait for the confirm ends, and so does the select. */
  lemma {:induction false} DeathEndsWaits(run: seq<Action>)
    requires Exec(run).Some? && !Exec(run).value.open
    ensures Exec(run).value.pc == AwaitingConfirm ==> Step(Exec(run).value, SeeConfirm).Some?
    ensures Exec(run).value.pc.Selecting? ==> Step(Exec(run).value, Select(TakeReturn)).Some?
  {
    RunsKeepInv(run);
  }

  /** A confirm answers its own publish, and with `multiple` all earlier ones; answers given stay as they are. */
  lemma ConfirmAnswers(s: State, tag: nat, multiple: bool, ack: bool)
    requires Step(s, BrokerConfirms(tag, multiple, ack)).Some?
    ensures var fates := Step(s, BrokerConfirms(tag, multiple, ack)).value.fates;
            && |fates| == |s.fates| && fates[tag].answer == (if ack then Acked else Nacked)
            && (multiple ==> forall k :: 0 <= k <= tag ==> fates[k].answer != Pending)
            && (forall k :: 0 <= k < |fates| && fates[k] != s.fates[k] ==>
                  s.fates[k].answer == Pending && fates[k] == s.fates[k].(answer := fates[tag].answer)
                  && (k == tag || (multiple && k < tag)))
  {
  }

  /** Between publishes the channel is used again exactly if nothing mandatory was published or tried on it. */
  lemma {:induction false} ReusedUnlessMandatory(run: seq<Action>)
    requires Exec(run).Some? && forall p :: p in Exec(run).value.pubs ==> p.result != None
    ensures Exec(run).value.pc == Ready
            <==> SendFails(true) !in run && forall p :: p in Exec(run).value.pubs ==> !p.msg.mandatory
  {
    RunsKeepInv(run);
    StateFollowsRun(run);
  }

  /** Every kind of answer to every kind of publish does come about. */
  lemma {:induction false} AnsweredIsReachable(mandatory: bool, routable: bool, ack: bool) returns (run: seq<Action>)
    ensures Exec(run).Some? && Answered(Exec(run).value)
    ensures Exec(run).value.pubs == [Pub(Message(mandatory, true), None, false)]
    ensures Exec(run).value.fates == [Fate(routable, mandatory && !routable, Verdict(ack))]
  {
    var m := Message(mandatory, true);
    var s := SendStep(INITIAL, m).value;
    Extend([], INITIAL, Send(m), s);
    run := [] + [Send(m)];
    var h := HandleStep(s, routable).value;
    Extend(run, s, BrokerHandles(routable), h);
    run := run + [BrokerHandles(routable)];
    var c := ConfirmStep(h, Confirm(0, false, ack)).value;
    assert c.fates == [Fate(routable, mandatory && !routable, Verdict(ack))];
    Extend(run, h, BrokerConfirms(0, false, ack), c);
    run := run + [BrokerConfirms(0, false, ack)];
  }

  /** An acknowledged mandatory publish at its select, with the return if there is one. */
  lemma {:induction false} SelectIsReachable(routable: bool) returns (run: seq<Action>)
    ensures Exec(run).Some?
    ensures var s := Exec(run).value;
            && s.open && s.pc == Selecting(false, false) && s.pubs == [Pub(Message(true, true), None, false)]
            && s.fates == [Fate(routable, !routable, Acked)] && s.listener == Some(if routable then [] else [0])
  {
    run := AnsweredIsReachable(true, routable, true);
    run := ReadAll(run);
    AllRead(run);
    var s := Exec(run).value;
    Extend(run, s, SeeConfirm, s.(pc := Selecting(false, false)));
    run := run + [SeeConfirm];
  }

  // ----- what a result means -----

  /** The broker sent this publish back as unroutable. */
  predicate WasReturned(s: State, i: nat) {
    i < |s.fates| && s.fates[i].returned
  }

  /**
   * A publish that waits for its confirm reports success only when the broker acknowledged that publish, not an
   * earlier one on the same channel.
   */
  lemma {:induction false} SuccessMeansAcked(run: seq<Action>, i: nat)
    requires Reported(run, i, Ok) && Exec(run).value.pubs[i].msg.waitForConfirm
    ensures i < |Exec(run).value.fates| && Exec(run).value.fates[i].answer == Acked
  {
    RunsKeepInv(run);
    assert ResultOk(Exec(run).value, i);
  }

  /** A publish reported as unroutable was returned itself, or the channel died during the wait. */
  lemma {:induction false} UnroutableMeansReturned(run: seq<Action>, i: nat, tag: Option<nat>)
    requires Reported(run, i, Unroutable(tag))
    ensures if tag == None then !Exec(run).value.open else tag.value == i && WasReturned(Exec(run).value, i)
  {
    RunsKeepInv(run);
    assert ResultOk(Exec(run).value, i);
  }

  predicate WasRouted(s: State, i: nat) {
    i < |s.fates| && s.fates[i].routable
  }

  /** In every run a successful mandatory publish of this kind has been routed to a queue. */
  ghost predicate Trustworthy(waitForConfirm: bool, late: bool) {
    forall run, i: nat | Reported(run, i, Ok) && Exec(run).value.pubs[i] == Pub(Message(true, waitForConfirm),
        Some(Ok), late) ::
      WasRouted(Exec(run).value, i)
  }

  lemma ConfirmedAndPrompt()
    ensures Trustworthy(true, false)
  {
    forall run, i: nat | Reported(run, i, Ok) && Exec(run).value.pubs[i] == Pub(Message(true, true), Some(Ok), false)
      ensures WasRouted(Exec(run).value, i)
    {
      RunsKeepInv(run);
      assert ResultOk(Exec(run).value, i);
    }
  }

  /** The timer had fired before the select looked: it may take the timer although the return is there. */
  lemma LateTimerHidesReturn()
    ensures !Trustworthy(true, true)
  {
    var run := SelectIsReachable(false);
    var s := Exec(run).value;
    var f := s.(pc := Selecting(true, false));
    Extend(run, s, TimerFires, f);
    run := run + [TimerFires];
    Extend(run, f, Select(TakeTimer), Conclude(f, Ok, true));
    run := run + [Select(TakeTimer)];
    assert Reported(run, 0, Ok) && !WasRouted(Exec(run).value, 0);
  }

  /** A mandatory publish that does not wait for its confirm, not handled by the broker yet. */
  function UnconfirmedPublish(pc: Pc): State {
    State(pc, true, [Pub(Message(true, false), None, false)], [], [], [Pending], Some([]))
  }

  lemma UnconfirmedRun(late: bool) returns (run: seq<Action>, s: State)
    ensures Exec(run) == Some(s)
    ensures s == UnconfirmedPublish(if late then Selecting(true, false) else Selecting(false, true))
  {
    var m := Message(true, false);
    var s1 := UnconfirmedPublish(Selecting(false, false));
    assert INITIAL.pubs + s1.pubs == s1.pubs && INITIAL.confirms + [Pending] == [Pending];
    Extend([], INITIAL, Send(m), s1);
    run := [] + [Send(m)];
    var pause := if late then TimerFires else Select(Block);
    s := UnconfirmedPublish(if late then Selecting(true, false) else Selecting(false, true));
    Extend(run, s1, pause, s);
    run := run + [pause];
  }

  /** Without waiting for the confirm, the wait can be over before the return arrives. */
  lemma UnconfirmedHidesReturn(late: bool)
    ensures !Trustworthy(false, late)
  {
    var run, s := UnconfirmedRun(late);
    var n := Conclude(s, Ok, late);
    Extend(run, s, Select(TakeTimer), n);
    run := run + [Select(TakeTimer)];
    assert n.fates + [Fate(false, true, Pending)] == [Fate(false, true, Pending)];
    assert n.wire + [Return(0)] == [Return(0)];
    Extend(run, n, BrokerHandles(false), n.(fates := [Fate(false, true, Pending)], wire := [Return(0)]));
    run := run + [BrokerHandles(false)];
    assert Reported(run, 0, Ok) && !WasRouted(Exec(run).value, 0);
  }

  /**
   * Success of a mandatory publish means that it was routed exactly for publishes that wait for the confirm and
   * whose select was reached before the timer fired.
   */
  lemma SuccessMeansRoutedIff(waitForConfirm: bool, late: bool)
    ensures Trustworthy(waitForConfirm, late) <==> waitForConfirm && !late
  {
    if !waitForConfirm {
      UnconfirmedHidesReturn(late);
    } else if late {
      LateTimerHidesReturn();
    } else {
      ConfirmedAndPrompt();
    }
  }

  // ----- what a report of a return means -----

  /** In no run is a publish reported as unroutable this way although it was not returned. */
  ghost predicate TrueReport(tagged: bool) {
    forall run, i: nat, tag: Option<nat> | Reported(run, i, Unroutable(tag)) && tag.Some? == tagged ::
      WasReturned(Exec(run).value, i)
  }

  lemma TaggedIsTrue()
    ensures TrueReport(true)
  {
    forall run, i: nat, tag: Option<nat> | Reported(run, i, Unroutable(tag)) && tag.Some?
      ensures WasReturned(Exec(run).value, i)
    {
      UnroutableMeansReturned(run, i, tag);
    }
  }

  /** The channel dies before the select: the closed listener yields a return that the broker never sent. */
  lemma DeadChannelFakesReturn()
    ensures !TrueReport(false)
  {
    var run := SelectIsReachable(true);
    var s := Exec(run).value;
    var d := DieStep(s);
    Extend(run, s, ChannelDies, d);
    run := run + [ChannelDies];
    Extend(run, d, Select(TakeReturn), Conclude(d, Unroutable(None), false));
    run := run + [Select(TakeReturn)];
    assert Reported(run, 0, Unroutable(None)) && !WasReturned(Exec(run).value, 0);
  }

  /** A reported return means, in all runs, that the publish was returned exactly if the report carries a message. */
  lemma ReportMeansReturnedIff(tagged: bool)
    ensures TrueReport(tagged) <==> tagged
  {
    if tagged {
      TaggedIsTrue();
    } else {
      DeadChannelFakesReturn();
    }
  }
}
