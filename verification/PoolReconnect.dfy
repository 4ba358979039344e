/** When a publisher that has been closed connects again. */
module PoolReconnect {
  import opened Options
  import opened PoolMachine
  import opened PoolLocks
  import opened PoolOwnership
  import opened PoolResults
  import opened PoolClose
  import opened PoolSequential
  import opened PoolAlone
  import opened PoolRefill

  /** Past its last look at `closed` before a dial. */
  predicate OnWayToDial(pc: Pc) {
    || pc == Watching(ReconnectWait)
    || pc == Connecting(ConnLock) || pc == Connecting(ConnWait) || pc == Connecting(Dialing)
  }

  predicate MayDial(s: State) {
    |s.threads| > 0 && OnWayToDial(s.threads[0])
  }

  // ----- without a dial ahead the connection stays down -----

  predicate Silent(s: State) {
    |s.threads| > 0 && s.closed && s.conn != Up && !MayDial(s)
  }

  /** What the steps of other threads leave alone. */
  lemma OthersNeverDial(m: Params, s: State, t: nat, ok: bool)
    requires 0 < t < |s.threads| && ThreadOk(s, t) && ThreadStep(m, s, t, ok).Some? && s.conn != Up
    ensures
      var n := ThreadStep(m, s, t, ok).value;
      n.conn == s.conn
  {
    var pc := s.threads[t];
    if pc.UsePool? {
      var n := PoolStep(m, s, t, pc.job, pc.phase).value;
      assert n.conn == s.conn;
    } else if pc.Drain? {
      var n := DrainStep(s, t, pc.pool, pc.who);
      assert n.conn == s.conn;
    } else if pc.Shutting? {
      var n := CloseStep(s, t, pc.shut).value;
      assert n.conn == s.conn;
    } else if pc.Opening? {
      var n := OpenStep(s, t, pc.why, pc.open, ok).value;
      assert n.conn == s.conn;
    }
  }

  lemma SilentConnect(m: Params, s: State, c: ConnectPc, ok: bool)
    requires Silent(s) && s.threads[0] == Connecting(c) && ConnectStep(m, s, 0, c, ok).Some?
    ensures Silent(ConnectStep(m, s, 0, c, ok).value)
  {
  }

  lemma SilentWatch(s: State, w: WatchPc, ok: bool)
    requires Silent(s) && s.threads[0] == Watching(w) && WatchStep(s, 0, w, ok).Some?
    ensures Silent(WatchStep(s, 0, w, ok).value)
  {
  }

  lemma SilentPool(m: Params, s: State, job: Job, phase: Phase)
    requires Silent(s) && s.threads[0] == UsePool(job, phase) && PoolStep(m, s, 0, job, phase).Some?
    ensures Silent(PoolStep(m, s, 0, job, phase).value)
  {
    if phase.Using? {
      var n := UseStep(m, s, 0, job, phase.pool);
      assert n.threads[0].UsePool? && n.conn == s.conn && n.closed;
    }
  }

  lemma SilentDrain(s: State, p: nat, who: Drainer)
    requires Silent(s) && s.threads[0] == Drain(p, who)
    ensures Silent(DrainStep(s, 0, p, who))
  {
  }

  lemma SilentOpen(s: State, why: Why, open: OpenPhase, ok: bool)
    requires Silent(s) && s.threads[0] == Opening(why, open) && OpenStep(s, 0, why, open, ok).Some?
    ensures Silent(OpenStep(s, 0, why, open, ok).value)
  {
  }

  lemma SilentOther(m: Params, s: State, ok: bool)
    requires Silent(s) && ThreadStep(m, s, 0, ok).Some?
    requires
      var pc := s.threads[0];
      !pc.Connecting? && !pc.Watching? && !pc.UsePool? && !pc.Drain? && !pc.Opening?
    ensures Silent(ThreadStep(m, s, 0, ok).value)
  {
  }

  lemma SilentMain(m: Params, s: State, ok: bool)
    requires Silent(s) && ThreadStep(m, s, 0, ok).Some?
    ensures Silent(ThreadStep(m, s, 0, ok).value)
  {
    match s.threads[0] {
      case Connecting(c) => SilentConnect(m, s, c, ok);
      case Watching(w) => SilentWatch(s, w, ok);
      case UsePool(job, phase) => SilentPool(m, s, job, phase);
      case Drain(p, who) => SilentDrain(s, p, who);
      case Opening(why, open) => SilentOpen(s, why, open, ok);
      case _ => SilentOther(m, s, ok);
    }
  }

  lemma SilentStep(m: Params, s: State, action: Action)
    requires Silent(s) && OwnInv(m, s) && Step(m, s, action).Some?
    ensures Silent(Step(m, s, action).value)
  {
    if action.Run? && action.thread == 0 {
      SilentMain(m, s, action.ok);
    } else if action.Run? {
      var t := action.thread;
      assert ThreadOk(s, t);
      OthersNeverDial(m, s, t, action.ok);
      StepByOne(m, s, t, action.ok);
      ThreadMovesLocks(m, s, t, action.ok);
    }
  }

  lemma {:induction false} SilentForever(m: Params, run: seq<Action>, more: seq<Action>)
    requires Exec(m, run).Some? && Exec(m, run + more).Some? && Silent(Exec(m, run).value)
    ensures Silent(Exec(m, run + more).value)
  {
    if more == [] {
      assert run + more == run;
    } else {
      var less, action := more[..|more| - 1], more[|more| - 1];
      assert (run + more)[..|run + more| - 1] == run + less;
      SilentForever(m, run, less);
      RunsKeepOwnership(m, run + less);
      SilentStep(m, Exec(m, run + less).value, action);
    }
  }

  // ----- with a dial ahead it can come up again -----

  /** Every call of Close is over, the publisher is closed, its connection is not up, and a dial is ahead. */
  ghost predicate Looming(s: State) {
    s.closed && s.conn != Up && MayDial(s) && forall t :: 0 <= t < |s.threads| ==> !InClose(s.threads[t])
  }

  function Stage(pc: Pc): nat {
    if pc == Watching(ReconnectWait) then 4
    else if pc == Connecting(ConnLock) then 3
    else if pc == Connecting(ConnWait) then 2
    else 1
  }

  predicate Closer(s: State, n: State) {
    && |s.threads| > 0 && |n.threads| > 0
    && (Stage(n.threads[0]) < Stage(s.threads[0])
        || (Stage(n.threads[0]) == Stage(s.threads[0]) && |n.connMu.readers| < |s.connMu.readers|))
  }

  /** The step connects, or brings the dial closer. */
  ghost predicate Advances(s: State, n: State) {
    n.conn == Up || (Looming(n) && Closer(s, n))
  }

  /** Nobody but the connecting thread is a writer. */
  lemma OnlyWriter(s: State)
    requires LockInv(s) && Looming(s) && forall t :: 0 <= t < |s.threads| ==> ThreadOk(s, t)
    ensures s.connMu.writer == None || s.connMu.writer == Some(0)
    ensures s.threads[0] == Connecting(ConnLock) ==> s.connMu.writer == None
  {
    forall t | 0 < t < |s.threads| ensures s.connMu.writer != Some(t) {
      assert ThreadOk(s, t) && !InClose(s.threads[t]);
      assert ConnMode(s.threads[t]) == Off || ConnMode(s.threads[t]) == Shared;
    }
  }

  lemma MainAdvances(m: Params, s: State)
    requires Looming(s) && (s.threads[0] == Connecting(ConnLock) ==> s.connMu.writer == None)
    requires s.threads[0] == Connecting(ConnWait) ==> s.connMu.readers == {}
    ensures ThreadStep(m, s, 0, true).Some? && Advances(s, ThreadStep(m, s, 0, true).value)
  {
  }

  /** The connection lock is waited for: its readers can leave. */
  lemma ReaderAdvances(m: Params, s: State, t: nat)
    requires LockInv(s) && Looming(s) && s.threads[0] == Connecting(ConnWait)
    requires t in s.connMu.readers && t < |s.threads| && ThreadOk(s, t)
    ensures ThreadStep(m, s, t, true).Some? && Advances(s, ThreadStep(m, s, t, true).value)
  {
    assert ConnMode(s.threads[t]) == Shared && t != 0;
  }

  lemma SomeoneAdvances(m: Params, s: State) returns (t: nat)
    requires OwnInv(m, s) && LockInv(s) && Looming(s)
    ensures t < |s.threads| && ThreadStep(m, s, t, true).Some? && Advances(s, ThreadStep(m, s, t, true).value)
  {
    OnlyWriter(s);
    if s.threads[0] == Connecting(ConnWait) && s.connMu.readers != {} {
      t :| t in s.connMu.readers;
      assert ThreadOk(s, t);
      ReaderAdvances(m, s, t);
    } else {
      t := 0;
      MainAdvances(m, s);
    }
  }

  lemma {:induction false} RunAdvances(m: Params, run: seq<Action>) returns (longer: seq<Action>)
    requires Exec(m, run).Some? && Looming(Exec(m, run).value)
    ensures run <= longer && Exec(m, longer).Some?
    ensures Advances(Exec(m, run).value, Exec(m, longer).value)
  {
    RunsKeepOwnership(m, run);
    RunsKeepLocks(m, run);
    var t := SomeoneAdvances(m, Exec(m, run).value);
    Extend(m, run, Run(t, true));
    longer := run + [Run(t, true)];
  }

  /** From every such state the publisher can be led to connect. */
  lemma {:induction false} Reconnects(m: Params, run: seq<Action>) returns (longer: seq<Action>)
    requires Exec(m, run).Some? && Looming(Exec(m, run).value)
    ensures run <= longer && Exec(m, longer).Some? && Exec(m, longer).value.conn == Up
    decreases Stage(Exec(m, run).value.threads[0]), |Exec(m, run).value.connMu.readers|
  {
    longer := RunAdvances(m, run);
    if Exec(m, longer).value.conn != Up {
      longer := Reconnects(m, longer);
    }
  }

  /**
   * Once every call of Close is over and the connection is not up, it comes up again in some continuation exactly
   * if the watcher is in the wait of its reconnect loop, or between that wait and its dial.
   */
  lemma {:induction false} ReconnectsAfterCloseIff(m: Params, run: seq<Action>)
    requires Exec(m, run).Some? && Exec(m, run).value.closed && Exec(m, run).value.conn != Up
    requires forall t :: 0 <= t < |Exec(m, run).value.threads| ==> !InClose(Exec(m, run).value.threads[t])
    ensures (exists more :: Exec(m, run + more).Some? && Exec(m, run + more).value.conn == Up)
            <==> MayDial(Exec(m, run).value)
  {
    RunsKeepLocks(m, run);
    if MayDial(Exec(m, run).value) {
      var longer := Reconnects(m, run);
      assert run + longer[|run|..] == longer;
    } else {
      forall more | Exec(m, run + more).Some? ensures Exec(m, run + more).value.conn != Up {
        SilentForever(m, run, more);
      }
    }
  }

  // ----- such states are reached -----

  lemma WatchesAlone(m: Params, s: State, t: nat)
    requires Unlocked(s, t) && !s.closed && s.conn == Up
    ensures Leads(m, Go(s, t, Watching(WatchCheck)), t, true, Go(s, t, Watching(WatchWait)))
  {
    var s0 := Go(s, t, Watching(WatchCheck));
    AtStart(m, s0, t, true);
    OneMore(m, s0, t, true, s, Watching(WatchCheck), s, Watching(WatchLock));
    OneMore(m, s0, t, true, s, Watching(WatchLock), ReadConn(s, t), Watching(WatchRead));
    assert s.connMu.readers + {t} - {t} == s.connMu.readers;
    OneMore(m, s0, t, true, ReadConn(s, t), Watching(WatchRead), s, Watching(WatchWait));
  }

  /** The connection is lost, and the watcher waits before it dials again. */
  const LOST: State := Go(OPEN_FOR_USE.(conn := Down), 0, Watching(ReconnectWait))

  lemma WatcherWaits(m: Params)
    ensures Reached(m, LOST)
  {
    OpenForUse(m);
    var s, d := OPEN_FOR_USE, OPEN_FOR_USE.(conn := Down);
    assert Go(s, 0, Watching(WatchCheck)) == s;
    WatchesAlone(m, s, 0);
    ReachedAlone(m, s, 0, true, Go(s, 0, Watching(WatchWait)));
    ReachedByStep(m, Go(s, 0, Watching(WatchWait)), ConnDies, Go(d, 0, Watching(WatchWait)));
    var drained := LostAlone(m, d, 0);
    ReachedAlone(m, Go(d, 0, Watching(WatchWait)), 0, true, LOST);
  }

  lemma CloseWhileLost(m: Params) returns (s: State)
    ensures Reached(m, s) && s.closed && s.conn == Down
    ensures s.threads == [Watching(ReconnectWait), Idle, Idle]
  {
    WatcherWaits(m);
    ReachedByStep(m, LOST, Begin(2, DoClose), Go(LOST, 2, Shutting(CloseCheck)));
    var n := CloseAlone(m, LOST, 2, true);
    s := Go(n, 2, Idle);
    ReachedAlone(m, Go(LOST, 2, Shutting(CloseCheck)), 2, true, s);
  }

  /** In some run the connection is up after every call of Close is over. */
  lemma ClosedPublisherConnects(m: Params)
    ensures exists run, more ::
              && Exec(m, run).Some? && Exec(m, run).value.closed
              && (forall t :: 0 <= t < |Exec(m, run).value.threads| ==> !InClose(Exec(m, run).value.threads[t]))
              && Exec(m, run + more).Some? && Exec(m, run + more).value.conn == Up
  {
    var s := CloseWhileLost(m);
    var run :| Exec(m, run) == Some(s);
    ReconnectsAfterCloseIff(m, run);
    var more :| Exec(m, run + more).Some? && Exec(m, run + more).value.conn == Up;
  }
}
