/** The two locks of the publisher: mutual exclusion, lock order and freedom from deadlock. */
module PoolLocks {
  import opened Options
  import opened PoolMachine

  /** What a thread is doing with a lock. */
  datatype Mode = Off | Shared | Announced | Exclusive

  function PoolMode(pc: Pc): Mode {
    match pc
    case UsePool(_, phase) => if phase == Locking then Off else Shared
    case Connecting(c) => if c == SwapWait then Announced else if c == Swap || c.SwapUnlock? then Exclusive else Off
    case _ => Off
  }

  function DrainerMode(who: Drainer): Mode {
    if who == ByWatcher then Off else Exclusive
  }

  function ConnectMode(c: ConnectPc): Mode {
    if c == ConnLock then Off else if c == ConnWait then Announced else Exclusive
  }

  function ShutMode(c: ClosePc): Mode {
    if c == CloseCheck || c == CloseLock then Off else if c == CloseWait then Announced else Exclusive
  }

  function ConnMode(pc: Pc): Mode {
    match pc
    case Opening(_, open) => if open == ConnReading then Shared else Off
    case UsePool(job, _) => if job.Find? then DrainerMode(job.who) else Off
    case Drain(_, who) => DrainerMode(who)
    case Closing(_, next) => if next.DrainMore? then DrainerMode(next.who) else Off
    case Forgetting(_, next) => if next.DrainMore? then DrainerMode(next.who) else Off
    case Connecting(c) => ConnectMode(c)
    case Watching(w) => if w == WatchRead then Shared else Off
    case Shutting(c) => ShutMode(c)
    case _ => Off
  }

  /** The lock's state is what the threads' counters say, and a writer that is in excludes everybody. */
  ghost predicate LockOk(l: RWLock, threads: seq<Pc>, mode: Pc -> Mode) {
    && (forall t :: 0 <= t < |threads| ==>
                      && (t in l.readers <==> mode(threads[t]) == Shared)
                      && (l.writer == Some(t) && !l.active <==> mode(threads[t]) == Announced)
                      && (l.writer == Some(t) && l.active <==> mode(threads[t]) == Exclusive))
    && (forall t :: t in l.readers ==> t < |threads|)
    && (l.writer.Some? ==> l.writer.value < |threads|)
    && (l.active ==> l.writer.Some? && l.readers == {})
  }

  /** How a thread may change its dealings with a lock. */
  predicate LockMove(l: RWLock, n: RWLock, t: nat, from: Mode, to: Mode) {
    || (from == to && n == l)
    || (from == Off && to == Shared && l.writer == None && n == l.(readers := l.readers + {t}))
    || (from == Shared && to == Off && n == l.(readers := l.readers - {t}))
    || (from == Off && to == Announced && l.writer == None && n == l.(writer := Some(t)))
    || (from == Announced && to == Exclusive && l.readers == {} && n == l.(active := true))
    || (from == Exclusive && to == Off && n == l.(writer := None, active := false))
  }

  lemma LockMoveKeepsLock(l: RWLock, n: RWLock, threads: seq<Pc>, t: nat, pc: Pc, mode: Pc -> Mode)
    requires t < |threads| && LockOk(l, threads, mode) && LockMove(l, n, t, mode(threads[t]), mode(pc))
    ensures LockOk(n, threads[t := pc], mode)
  {
  }

  ghost predicate LockInv(s: State) {
    && |s.threads| > 0
    && LockOk(s.poolMu, s.threads, PoolMode)
    && LockOk(s.connMu, s.threads, ConnMode)
  }

  /** A thread's step changes only its own counter, and moves both locks as that says. */
  ghost predicate LocksMove(s: State, n: State, t: nat) {
    && t < |s.threads| && |n.threads| == |s.threads|
    && n.threads == s.threads[t := n.threads[t]]
    && LockMove(s.poolMu, n.poolMu, t, PoolMode(s.threads[t]), PoolMode(n.threads[t]))
    && LockMove(s.connMu, n.connMu, t, ConnMode(s.threads[t]), ConnMode(n.threads[t]))
  }

  lemma PoolStepMovesLocks(m: Params, s: State, t: nat, job: Job, phase: Phase)
    requires t < |s.threads| && s.threads[t] == UsePool(job, phase) && PoolStep(m, s, t, job, phase).Some?
    ensures LocksMove(s, PoolStep(m, s, t, job, phase).value, t)
  {
    if phase.Using? {
      SelectMovesNoLock(m, s, t, job, phase.pool);
    } else if phase == Unlocking {
      UnlockMovesLocks(m, s, t, job);
    }
  }

  lemma SelectMovesNoLock(m: Params, s: State, t: nat, job: Job, p: nat)
    requires t < |s.threads| && s.threads[t] == UsePool(job, Using(p))
    ensures LocksMove(s, UseStep(m, s, t, job, p), t)
  {
    var n := UseStep(m, s, t, job, p);
    assert n.poolMu == s.poolMu && n.connMu == s.connMu;
  }

  lemma UnlockMovesLocks(m: Params, s: State, t: nat, job: Job)
    requires t < |s.threads| && s.threads[t] == UsePool(job, Unlocking)
    ensures LocksMove(s, PoolStep(m, s, t, job, Unlocking).value, t)
  {
  }

  lemma ConnectMovesPoolLock(m: Params, s: State, t: nat, c: ConnectPc, ok: bool)
    requires t < |s.threads| && s.threads[t] == Connecting(c) && ConnectStep(m, s, t, c, ok).Some?
    ensures
      var n := ConnectStep(m, s, t, c, ok).value;
      && |n.threads| == |s.threads| && n.threads == s.threads[t := n.threads[t]]
      && LockMove(s.poolMu, n.poolMu, t, PoolMode(s.threads[t]), PoolMode(n.threads[t]))
  {
  }

  lemma ConnectMovesConnLock(m: Params, s: State, t: nat, c: ConnectPc, ok: bool)
    requires t < |s.threads| && s.threads[t] == Connecting(c) && ConnectStep(m, s, t, c, ok).Some?
    ensures
      var n := ConnectStep(m, s, t, c, ok).value;
      |n.threads| == |s.threads| && LockMove(s.connMu, n.connMu, t, ConnMode(s.threads[t]), ConnMode(n.threads[t]))
  {
  }

  lemma ConnectMovesLocks(m: Params, s: State, t: nat, c: ConnectPc, ok: bool)
    requires t < |s.threads| && s.threads[t] == Connecting(c) && ConnectStep(m, s, t, c, ok).Some?
    ensures LocksMove(s, ConnectStep(m, s, t, c, ok).value, t)
  {
    ConnectMovesPoolLock(m, s, t, c, ok);
    ConnectMovesConnLock(m, s, t, c, ok);
  }

  lemma WatchMovesLocks(s: State, t: nat, w: WatchPc, ok: bool)
    requires t < |s.threads| && s.threads[t] == Watching(w) && WatchStep(s, t, w, ok).Some?
    ensures LocksMove(s, WatchStep(s, t, w, ok).value, t)
  {
  }

  lemma CloseMovesLocks(s: State, t: nat, c: ClosePc)
    requires t < |s.threads| && s.threads[t] == Shutting(c) && CloseStep(s, t, c).Some?
    ensures LocksMove(s, CloseStep(s, t, c).value, t)
  {
  }

  lemma OpenMovesLocks(s: State, t: nat, why: Why, open: OpenPhase, ok: bool)
    requires t < |s.threads| && s.threads[t] == Opening(why, open) && OpenStep(s, t, why, open, ok).Some?
    ensures LocksMove(s, OpenStep(s, t, why, open, ok).value, t)
  {
  }

  /** The steps of closing and forgetting a channel. */
  predicate Discarding(pc: Pc) {
    pc.Closing? || pc.Forgetting?
  }

  /** Where a thread is when its next step touches no lock. */
  predicate LockFree(pc: Pc) {
    && !pc.UsePool? && !pc.Connecting? && !pc.Watching? && !pc.Shutting? && !pc.Opening?
    && !pc.Drain? && !Discarding(pc)
  }

  predicate SameLocks(s: State, n: State, t: nat) {
    && t < |s.threads|
    && n.poolMu == s.poolMu && n.connMu == s.connMu
    && |n.threads| == |s.threads| && n.threads == s.threads[t := n.threads[t]]
  }

  lemma DrainLeavesLocks(m: Params, s: State, t: nat, p: nat, who: Drainer)
    requires t < |s.threads| && s.threads[t] == Drain(p, who)
    ensures LocksMove(s, DrainStep(s, t, p, who), t)
  {
  }

  lemma DiscardingLeavesLocks(m: Params, s: State, t: nat, ok: bool)
    requires t < |s.threads| && ThreadStep(m, s, t, ok).Some? && Discarding(s.threads[t])
    ensures LocksMove(s, ThreadStep(m, s, t, ok).value, t)
  {
  }

  lemma LockFreeLeavesLocks(m: Params, s: State, t: nat, ok: bool)
    requires t < |s.threads| && ThreadStep(m, s, t, ok).Some? && LockFree(s.threads[t])
    ensures SameLocks(s, ThreadStep(m, s, t, ok).value, t)
  {
  }

  lemma LockFreeKeepsModes(m: Params, s: State, t: nat, ok: bool)
    requires t < |s.threads| && ThreadStep(m, s, t, ok).Some? && LockFree(s.threads[t])
    ensures
      var n := ThreadStep(m, s, t, ok).value;
      |n.threads| == |s.threads| && PoolMode(n.threads[t]) == Off && ConnMode(n.threads[t]) == Off
  {
  }

  lemma ThreadMovesLocks(m: Params, s: State, t: nat, ok: bool)
    requires t < |s.threads| && ThreadStep(m, s, t, ok).Some?
    ensures LocksMove(s, ThreadStep(m, s, t, ok).value, t)
  {
    var pc := s.threads[t];
    if pc.UsePool? {
      PoolStepMovesLocks(m, s, t, pc.job, pc.phase);
    } else if pc.Connecting? {
      ConnectMovesLocks(m, s, t, pc.connect, ok);
    } else if pc.Watching? {
      WatchMovesLocks(s, t, pc.watch, ok);
    } else if pc.Shutting? {
      CloseMovesLocks(s, t, pc.shut);
    } else if pc.Opening? {
      OpenMovesLocks(s, t, pc.why, pc.open, ok);
    } else if pc.Drain? {
      DrainLeavesLocks(m, s, t, pc.pool, pc.who);
    } else if Discarding(pc) {
      DiscardingLeavesLocks(m, s, t, ok);
    } else {
      LockFreeLeavesLocks(m, s, t, ok);
      LockFreeKeepsModes(m, s, t, ok);
    }
  }

  lemma MoveKeepsLocks(s: State, n: State, t: nat)
    requires LockInv(s) && LocksMove(s, n, t)
    ensures LockInv(n)
  {
    LockMoveKeepsLock(s.poolMu, n.poolMu, s.threads, t, n.threads[t], PoolMode);
    LockMoveKeepsLock(s.connMu, n.connMu, s.threads, t, n.threads[t], ConnMode);
  }

  lemma StepKeepsLocks(m: Params, s: State, action: Action)
    requires LockInv(s) && Step(m, s, action).Some?
    ensures LockInv(Step(m, s, action).value)
  {
    var n := Step(m, s, action).value;
    if action.Run? {
      ThreadMovesLocks(m, s, action.thread, action.ok);
      MoveKeepsLocks(s, n, action.thread);
    } else if action.Begin? {
      MoveKeepsLocks(s, n, action.thread);
    } else if action.Spawn? {
      assert forall t :: 0 <= t < |s.threads| ==> n.threads[t] == s.threads[t];
    }
  }

  lemma {:induction false} RunsKeepLocks(m: Params, run: seq<Action>)
    requires Exec(m, run).Some?
    ensures LockInv(Exec(m, run).value)
  {
    if run != [] {
      RunsKeepLocks(m, run[..|run| - 1]);
      StepKeepsLocks(m, Exec(m, run[..|run| - 1]).value, run[|run| - 1]);
    }
  }

  /** While a pool is being swapped nobody else looks at pools under the lock, nor holds the connection lock. */
  lemma {:induction false} WriterIsAlone(m: Params, run: seq<Action>, t: nat, u: nat)
    requires Exec(m, run).Some?
    requires
      var threads := Exec(m, run).value.threads;
      t < |threads| && u < |threads| && t != u && PoolMode(threads[t]) == Exclusive
    ensures
      var threads := Exec(m, run).value.threads;
      && (PoolMode(threads[u]) == Off) && ConnMode(threads[t]) == Exclusive
      && (ConnMode(threads[u]) == Off)
  {
    RunsKeepLocks(m, run);
    WriterIsAloneIn(Exec(m, run).value, t, u);
  }

  lemma WriterIsAloneIn(s: State, t: nat, u: nat)
    requires LockInv(s) && t < |s.threads| && u < |s.threads| && t != u
    ensures ConnMode(s.threads[t]) == Exclusive ==> ConnMode(s.threads[u]) == Off
    ensures PoolMode(s.threads[t]) == Exclusive ==> PoolMode(s.threads[u]) == Off && ConnMode(s.threads[t]) == Exclusive
  {
    assert ConnMode(s.threads[t]) == Exclusive ==> s.connMu.writer == Some(t) && u !in s.connMu.readers;
    assert PoolMode(s.threads[t]) == Exclusive ==> s.poolMu.writer == Some(t) && u !in s.poolMu.readers;
  }

  // ----- deadlock freedom -----

  /** The next step asks for the connection lock. */
  predicate WantsConn(pc: Pc) {
    || (pc.Opening? && pc.open == ConnLocking)
    || (pc.Connecting? && (pc.connect == ConnLock || pc.connect == ConnWait))
    || (pc.Watching? && pc.watch == WatchLock)
    || (pc.Shutting? && (pc.shut == CloseLock || pc.shut == CloseWait))
  }

  /** The next step asks for the pool lock. */
  predicate WantsPool(pc: Pc) {
    || (pc.UsePool? && pc.phase == Locking)
    || (pc.Connecting? && (pc.connect == SwapLock || pc.connect == SwapWait))
  }

  /** The connection lock is never asked for while the pool lock is held or asked for. */
  lemma LockOrder(pc: Pc)
    ensures WantsConn(pc) ==> PoolMode(pc) == Off && !WantsPool(pc)
    ensures PoolMode(pc) == Shared || PoolMode(pc) == Exclusive ==> !WantsPool(pc)
  {
  }

  /** The thread has something to do: it is neither idle nor done, nor the watcher with nothing to watch for. */
  predicate Busy(s: State, t: nat) {
    && t < |s.threads|
    && s.threads[t] != Idle && s.threads[t] != Terminated
    && (s.threads[t] == Watching(WatchWait) ==> s.closed || s.conn == Down || s.conn == Ended)
  }

  predicate CanMove(m: Params, s: State, t: nat) {
    t < |s.threads| && ThreadStep(m, s, t, true).Some?
  }

  /** Only locks hold a busy thread up: every channel operation under a lock is non-blocking. */
  lemma OnlyLocksBlock(m: Params, s: State, t: nat)
    requires Busy(s, t) && !WantsConn(s.threads[t]) && !WantsPool(s.threads[t])
    ensures CanMove(m, s, t)
  {
  }

  lemma LockHolderIsBusy(s: State, t: nat)
    requires t < |s.threads| && (PoolMode(s.threads[t]) != Off || ConnMode(s.threads[t]) != Off)
    ensures Busy(s, t)
  {
  }

  // ----- who waits for whom -----

  /** A lock is not to be had because of thread `u`: it reads while a writer waits, or it is the writer. */
  predicate InTheWay(l: RWLock, mode: Mode, u: nat) {
    if mode == Announced then u in l.readers else l.writer == Some(u)
  }

  /** The next step of `t` needs a lock that it cannot have before `u` has moved. */
  predicate WaitsFor(s: State, t: nat, u: nat) {
    && t < |s.threads|
    && var pc := s.threads[t];
    || (WantsConn(pc) && InTheWay(s.connMu, ConnMode(pc), u))
    || (WantsPool(pc) && InTheWay(s.poolMu, PoolMode(pc), u))
  }

  /** Who holds more, or asks for a later lock, comes first. */
  function WaitRank(pc: Pc): nat {
    if PoolMode(pc) == Shared || PoolMode(pc) == Exclusive then 0
    else if PoolMode(pc) == Announced then 1
    else if WantsPool(pc) then 2
    else if ConnMode(pc) == Shared || ConnMode(pc) == Exclusive then 3
    else if ConnMode(pc) == Announced then 4
    else 5
  }

  predicate Below(s: State, u: nat, t: nat) {
    u < |s.threads| && t < |s.threads| && Busy(s, u) && WaitRank(s.threads[u]) < WaitRank(s.threads[t])
  }

  lemma WaitGoesDown(s: State, t: nat, u: nat)
    requires LockInv(s) && WaitsFor(s, t, u)
    ensures Below(s, u, t)
  {
    LockOrder(s.threads[t]);
    assert u < |s.threads|;
    LockHolderIsBusy(s, u);
  }

  lemma StuckMeansWaiting(m: Params, s: State, t: nat) returns (u: nat)
    requires LockInv(s) && Busy(s, t) && !CanMove(m, s, t)
    ensures WaitsFor(s, t, u)
  {
    var pc := s.threads[t];
    LockOrder(pc);
    if !WantsConn(pc) && !WantsPool(pc) {
      OnlyLocksBlock(m, s, t);
    }
    var l, mode := if WantsConn(pc) then s.connMu else s.poolMu, if WantsConn(pc) then ConnMode(pc) else PoolMode(pc);
    if mode == Announced {
      u :| u in l.readers;
    } else {
      u := l.writer.value;
    }
  }

  /** The thread can move or waits for some thread, and every thread it waits for is busy and of a smaller rank. */
  ghost predicate WaitsInOrder(m: Params, s: State, t: nat) {
    && (CanMove(m, s, t) || exists u: nat :: WaitsFor(s, t, u))
    && (forall u: nat :: WaitsFor(s, t, u) ==> Below(s, u, t))
  }

  lemma WaitsInOrderIn(m: Params, s: State, t: nat)
    requires LockInv(s) && Busy(s, t)
    ensures WaitsInOrder(m, s, t)
  {
    if !CanMove(m, s, t) {
      var u := StuckMeansWaiting(m, s, t);
    }
    forall u: nat | WaitsFor(s, t, u) ensures Below(s, u, t) {
      WaitGoesDown(s, t, u);
    }
  }

  /** Nobody waits, directly or through others, for itself. */
  lemma {:induction false} WaitsGoDown(m: Params, run: seq<Action>, t: nat)
    requires Exec(m, run).Some? && Busy(Exec(m, run).value, t)
    ensures WaitsInOrder(m, Exec(m, run).value, t)
  {
    RunsKeepLocks(m, run);
    WaitsInOrderIn(m, Exec(m, run).value, t);
  }

  /** Each waits for the next. */
  predicate WaitChain(s: State, chain: seq<nat>) {
    forall i :: 0 < i < |chain| ==> WaitsFor(s, chain[i - 1], chain[i])
  }

  lemma {:induction false} ChainGoesDown(s: State, chain: seq<nat>, i: nat, j: nat)
    requires LockInv(s) && WaitChain(s, chain) && i < j < |chain|
    ensures chain[i] < |s.threads| && chain[j] < |s.threads|
    ensures WaitRank(s.threads[chain[j]]) + (j - i) <= WaitRank(s.threads[chain[i]])
    decreases j - i
  {
    assert WaitsFor(s, chain[j - 1], chain[j]);
    WaitGoesDown(s, chain[j - 1], chain[j]);
    if i < j - 1 {
      ChainGoesDown(s, chain, i, j - 1);
    }
  }

  /** No cycle of waiting threads is ever reached, and no chain of them has more than six. */
  lemma {:induction false} NoWaitCycle(m: Params, run: seq<Action>, chain: seq<nat>)
    requires Exec(m, run).Some? && WaitChain(Exec(m, run).value, chain)
    ensures forall i, j :: 0 <= i < j < |chain| ==> chain[i] != chain[j]
    ensures |chain| <= 6
  {
    var s := Exec(m, run).value;
    RunsKeepLocks(m, run);
    forall i, j | 0 <= i < j < |chain| ensures chain[i] != chain[j] {
      ChainGoesDown(s, chain, i, j);
    }
    if |chain| > 1 {
      ChainGoesDown(s, chain, 0, |chain| - 1);
    }
  }

  lemma {:induction false} WaitsEnd(m: Params, s: State, t: nat) returns (chain: seq<nat>)
    requires LockInv(s) && Busy(s, t)
    ensures chain != [] && chain[0] == t && WaitChain(s, chain) && CanMove(m, s, chain[|chain| - 1])
    decreases WaitRank(s.threads[t])
  {
    if CanMove(m, s, t) {
      chain := [t];
    } else {
      var u := StuckMeansWaiting(m, s, t);
      WaitGoesDown(s, t, u);
      var rest := WaitsEnd(m, s, u);
      chain := [t] + rest;
    }
  }

  /**
   * No deadlock: as long as network calls return, whenever a publisher, the watcher or a closer is not
   * finished, it can take a step, or it waits, at the end of a chain of waiting threads, for one that can.
   */
  lemma {:induction false} DeadlockFree(m: Params, run: seq<Action>, t: nat)
    requires Exec(m, run).Some? && Busy(Exec(m, run).value, t)
    ensures
      var s := Exec(m, run).value;
      exists chain: seq<nat> ::
        chain != [] && chain[0] == t && WaitChain(s, chain) && CanMove(m, s, chain[|chain| - 1])
  {
    RunsKeepLocks(m, run);
    var chain := WaitsEnd(m, Exec(m, run).value, t);
  }
}
