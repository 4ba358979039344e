/** Close in the pool machine, with every other thread at work in between. */
module PoolClose {
  import opened Options
  import opened PoolMachine
  import opened PoolLocks
  import opened PoolOwnership
  import opened PoolResults

  /** Past the check of `closed`, on the way through Close. */
  predicate InClose(pc: Pc) {
    match pc
    case Shutting(c) => c != CloseCheck
    case UsePool(job, _) => job.Find? && job.who == ByClose
    case Drain(_, who) => who == ByClose
    case Closing(_, next) => next.DrainMore? && next.who == ByClose
    case Forgetting(_, next) => next.DrainMore? && next.who == ByClose
    case _ => false
  }

  ghost predicate CloseInv(s: State) {
    forall t :: 0 <= t < |s.threads| ==>
                  && (InClose(s.threads[t]) ==> s.closed)
                  && (s.threads[t] == Shutting(CloseUnlock) ==> s.conn != Up)
  }

  /** The connection comes up only under the connection lock, held for writing; a closed publisher stays closed. */
  predicate ByOne(s: State, n: State, t: nat)
    requires t < |s.threads|
  {
    && (s.closed ==> n.closed)
    && (n.conn == Up ==> s.conn == Up || ConnMode(s.threads[t]) == Exclusive)
    && |n.threads| == |s.threads|
    && (InClose(n.threads[t]) ==> n.closed || InClose(s.threads[t]))
    && (n.threads[t] == Shutting(CloseUnlock) ==> n.conn != Up)
    && (n.threads[t] == Shutting(Disconnect) ==> s.threads[t].UsePool? || s.threads[t].Drain?)
  }

  lemma PoolByOne(m: Params, s: State, t: nat, job: Job, phase: Phase)
    requires t < |s.threads| && s.threads[t] == UsePool(job, phase) && PoolStep(m, s, t, job, phase).Some?
    ensures ByOne(s, PoolStep(m, s, t, job, phase).value, t)
  {
    if phase.Using? {
      assert UseStep(m, s, t, job, phase.pool).threads[t].UsePool?;
    }
  }

  lemma ConnectByOne(m: Params, s: State, t: nat, c: ConnectPc, ok: bool)
    requires t < |s.threads| && s.threads[t] == Connecting(c) && ConnectStep(m, s, t, c, ok).Some?
    ensures ByOne(s, ConnectStep(m, s, t, c, ok).value, t)
  {
  }

  lemma WatchByOne(s: State, t: nat, w: WatchPc, ok: bool)
    requires t < |s.threads| && s.threads[t] == Watching(w) && WatchStep(s, t, w, ok).Some?
    ensures ByOne(s, WatchStep(s, t, w, ok).value, t)
  {
  }

  lemma ShutByOne(s: State, t: nat, c: ClosePc)
    requires t < |s.threads| && s.threads[t] == Shutting(c) && CloseStep(s, t, c).Some?
    ensures ByOne(s, CloseStep(s, t, c).value, t)
  {
  }

  lemma DrainByOne(s: State, t: nat, p: nat, who: Drainer)
    requires t < |s.threads| && s.threads[t] == Drain(p, who)
    ensures ByOne(s, DrainStep(s, t, p, who), t)
  {
  }

  lemma OpenByOne(s: State, t: nat, why: Why, open: OpenPhase, ok: bool)
    requires t < |s.threads| && s.threads[t] == Opening(why, open) && OpenStep(s, t, why, open, ok).Some?
    ensures ByOne(s, OpenStep(s, t, why, open, ok).value, t)
  {
  }

  lemma OtherByOne(m: Params, s: State, t: nat, ok: bool)
    requires t < |s.threads| && ThreadStep(m, s, t, ok).Some?
    requires
      var pc := s.threads[t];
      !pc.UsePool? && !pc.Connecting? && !pc.Watching? && !pc.Shutting? && !pc.Drain? && !pc.Opening?
    ensures ByOne(s, ThreadStep(m, s, t, ok).value, t)
  {
  }

  lemma StepByOne(m: Params, s: State, t: nat, ok: bool)
    requires t < |s.threads| && ThreadStep(m, s, t, ok).Some?
    ensures ByOne(s, ThreadStep(m, s, t, ok).value, t)
  {
    match s.threads[t] {
      case UsePool(job, phase) => PoolByOne(m, s, t, job, phase);
      case Connecting(c) => ConnectByOne(m, s, t, c, ok);
      case Watching(w) => WatchByOne(s, t, w, ok);
      case Shutting(c) => ShutByOne(s, t, c);
      case Drain(p, who) => DrainByOne(s, t, p, who);
      case Opening(why, open) => OpenByOne(s, t, why, open, ok);
      case _ => OtherByOne(m, s, t, ok);
    }
  }

  lemma ThreadKeepsClose(m: Params, s: State, t: nat, ok: bool)
    requires CloseInv(s) && LockInv(s) && t < |s.threads| && ThreadStep(m, s, t, ok).Some?
    ensures CloseInv(ThreadStep(m, s, t, ok).value)
  {
    var n := ThreadStep(m, s, t, ok).value;
    StepByOne(m, s, t, ok);
    ThreadMovesLocks(m, s, t, ok);
    forall u | 0 <= u < |n.threads| && u != t
      ensures InClose(n.threads[u]) ==> n.closed
      ensures n.threads[u] == Shutting(CloseUnlock) ==> n.conn != Up
    {
      assert n.threads[u] == s.threads[u];
      WriterIsAloneIn(s, t, u);
    }
  }

  lemma StepKeepsClose(m: Params, s: State, action: Action)
    requires CloseInv(s) && LockInv(s) && Step(m, s, action).Some?
    ensures CloseInv(Step(m, s, action).value)
  {
    if action.Run? {
      ThreadKeepsClose(m, s, action.thread, action.ok);
    }
  }

  lemma {:induction false} RunsKeepClose(m: Params, run: seq<Action>)
    requires Exec(m, run).Some?
    ensures CloseInv(Exec(m, run).value)
  {
    if run != [] {
      RunsKeepClose(m, run[..|run| - 1]);
      RunsKeepLocks(m, run[..|run| - 1]);
      StepKeepsClose(m, Exec(m, run[..|run| - 1]).value, run[|run| - 1]);
    }
  }

  /** The last step of the drain finds the current pool empty, or that there is none. */
  ghost predicate LastLook(s: State, n: State, t: nat)
    requires t < |s.threads|
  {
    && n.pools == s.pools && n.closed == s.closed && n.connMu == s.connMu
    && InClose(s.threads[t]) && ConnMode(s.threads[t]) == Exclusive
    && (s.pools == [] || s.pools[|s.pools| - 1] == [])
  }

  lemma PoolLastLook(m: Params, s: State, t: nat, job: Job, phase: Phase)
    requires t < |s.threads| && s.threads[t] == UsePool(job, phase) && PoolStep(m, s, t, job, phase).Some?
    requires ThreadOk(s, t)
    requires
      var n := PoolStep(m, s, t, job, phase).value;
      |n.threads| == |s.threads| && n.threads[t] == Shutting(Disconnect)
    ensures LastLook(s, PoolStep(m, s, t, job, phase).value, t)
  {
  }

  lemma DrainLastLook(s: State, t: nat, p: nat, who: Drainer)
    requires t < |s.threads| && s.threads[t] == Drain(p, who) && ThreadOk(s, t)
    requires |DrainStep(s, t, p, who).threads| == |s.threads|
    requires DrainStep(s, t, p, who).threads[t] == Shutting(Disconnect)
    ensures LastLook(s, DrainStep(s, t, p, who), t)
  {
  }

  lemma RetiredAreEmpty(m: Params, s: State, t: nat)
    requires OwnInv(m, s) && LockInv(s) && t < |s.threads|
    requires InClose(s.threads[t]) && ConnMode(s.threads[t]) == Exclusive
    ensures forall p :: 0 <= p < |s.pools| - 1 ==> s.pools[p] == []
  {
    if t != 0 {
      WriterIsAloneIn(s, t, 0);
    }
    forall p | 0 <= p < |s.pools| - 1 ensures s.pools[p] == [] {
      assert PoolOk(m, s, p);
    }
  }

  lemma LastLookIn(m: Params, s: State, t: nat, ok: bool)
    requires OwnInv(m, s) && t < |s.threads| && ThreadStep(m, s, t, ok).Some?
    requires
      var n := ThreadStep(m, s, t, ok).value;
      t < |n.threads| && n.threads[t] == Shutting(Disconnect)
    ensures LastLook(s, ThreadStep(m, s, t, ok).value, t)
  {
    StepByOne(m, s, t, ok);
    assert ThreadOk(s, t);
    var pc := s.threads[t];
    if pc.UsePool? {
      PoolLastLook(m, s, t, pc.job, pc.phase);
    } else {
      DrainLastLook(s, t, pc.pool, pc.who);
    }
  }

  lemma HeldByOne(s: State, t: nat)
    requires LockInv(s) && t < |s.threads| && ConnMode(s.threads[t]) == Exclusive
    ensures s.connMu == RWLock({}, Some(t), true)
  {
  }

  lemma EmptiedIn(m: Params, s: State, t: nat, ok: bool)
    requires OwnInv(m, s) && LockInv(s) && CloseInv(s) && t < |s.threads| && ThreadStep(m, s, t, ok).Some?
    requires
      var n := ThreadStep(m, s, t, ok).value;
      t < |n.threads| && n.threads[t] == Shutting(Disconnect)
    ensures
      var n := ThreadStep(m, s, t, ok).value;
      n.closed && AllEmpty(n) && n.connMu == RWLock({}, Some(t), true)
  {
    LastLookIn(m, s, t, ok);
    RetiredAreEmpty(m, s, t);
    HeldByOne(s, t);
  }

  /**
   * Whatever the other threads do meanwhile, at the moment Close goes on to the connection every pool is empty, no
   * reconnect is under way, and the publisher is closed.
   */
  lemma {:induction false} CloseEmptiesPools(m: Params, run: seq<Action>, t: nat, ok: bool)
    requires Exec(m, run).Some? && t < |Exec(m, run).value.threads|
    requires
      var next := ThreadStep(m, Exec(m, run).value, t, ok);
      next.Some? && t < |next.value.threads| && next.value.threads[t] == Shutting(Disconnect)
    ensures
      var n := ThreadStep(m, Exec(m, run).value, t, ok).value;
      n.closed && AllEmpty(n) && n.connMu == RWLock({}, Some(t), true)
  {
    RunsKeepClose(m, run);
    RunsKeepOwnership(m, run);
    RunsKeepLocks(m, run);
    EmptiedIn(m, Exec(m, run).value, t, ok);
  }

  /** Close leaves the publisher closed and without a connection. */
  lemma {:induction false} CloseDisconnects(m: Params, run: seq<Action>, t: nat)
    requires Exec(m, run).Some? && t < |Exec(m, run).value.threads|
    requires Exec(m, run).value.threads[t] == Shutting(CloseUnlock)
    ensures Exec(m, run).value.closed && Exec(m, run).value.conn != Up
  {
    RunsKeepClose(m, run);
  }

  /** A publisher that is closed stays closed, and every borrow that begins then is refused. */
  lemma {:induction false} ClosedForGood(m: Params, run: seq<Action>, more: seq<Action>)
    requires Exec(m, run).Some? && Exec(m, run).value.closed && Exec(m, run + more).Some?
    ensures
      var s := Exec(m, run + more).value;
      && s.closed
      && forall t, ok :: 0 <= t < |s.threads| && s.threads[t].BorrowCheck? ==>
                           ThreadStep(m, s, t, ok) == Some(Go(s, t, Idle))
  {
    if more == [] {
      assert run + more == run;
    } else {
      var less, action := more[..|more| - 1], more[|more| - 1];
      assert (run + more)[..|run + more| - 1] == run + less;
      ClosedForGood(m, run, less);
      if action.Run? {
        StepByOne(m, Exec(m, run + less).value, action.thread, action.ok);
      }
    }
  }
}
