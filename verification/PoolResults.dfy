/** What the ownership and lock invariants of the pool machine amount to. */
module PoolResults {
  import opened Options
  import opened PoolMachine
  import opened PoolLocks
  import opened PoolOwnership

  // ----- exclusive ownership -----

  predicate InSlot(s: State, c: nat, p: nat, i: nat) {
    p < |s.pools| && i < |s.pools[p]| && s.pools[p][i].ch == c
  }

  predicate InHand(s: State, c: nat, t: nat) {
    t < |s.threads| && Hand(s.threads[t]) == Some(c)
  }

  predicate IsLent(s: State, c: nat) {
    c < |s.chans| && s.chans[c].place == Lent
  }

  /** Done with: closed, forgotten and with nobody. */
  predicate IsDiscarded(s: State, c: nat) {
    c < |s.chans| && s.chans[c].place == Discarded && !s.chans[c].open && c !in s.meta
  }

  /** Every channel ever created is in a pool slot, in a thread's hand or lent to a user, or it is done with. */
  lemma {:induction false} EveryChannelHasAPlace(m: Params, run: seq<Action>, c: nat)
    requires Exec(m, run).Some? && c < |Exec(m, run).value.chans|
    ensures
      var s := Exec(m, run).value;
      || (exists p, i :: InSlot(s, c, p, i))
      || (exists t :: InHand(s, c, t))
      || IsLent(s, c)
      || IsDiscarded(s, c)
  {
    var s := Exec(m, run).value;
    RunsKeepOwnership(m, run);
    assert ChannelOk(s, c);
    match s.chans[c].place {
      case InPool(p) =>
        var i :| 0 <= i < |s.pools[p]| && s.pools[p][i].ch == c;
        assert InSlot(s, c, p, i);
      case With(t) => assert InHand(s, c, t);
      case Lent =>
      case Discarded =>
    }
  }

  /** The channel is in at most one slot or with one holder: never in two slots, with two holders, or in both. */
  ghost predicate OneOwner(s: State, c: nat) {
    && (forall p: nat, i: nat, q: nat, j: nat :: InSlot(s, c, p, i) && InSlot(s, c, q, j) ==> p == q && i == j)
    && (forall t: nat, u: nat :: InHand(s, c, t) && InHand(s, c, u) ==> t == u)
    && (forall p: nat, i: nat, t: nat :: InSlot(s, c, p, i) ==> !InHand(s, c, t) && !IsLent(s, c))
    && (forall t: nat :: InHand(s, c, t) ==> !IsLent(s, c))
  }

  /** Exclusive ownership in every interleaving, and no pool ever exceeds its size. */
  lemma {:induction false} ExclusiveOwnership(m: Params, run: seq<Action>, c: nat)
    requires Exec(m, run).Some?
    ensures OneOwner(Exec(m, run).value, c)
    ensures forall p :: 0 <= p < |Exec(m, run).value.pools| ==> |Exec(m, run).value.pools[p]| <= m.size
  {
    RunsKeepOwnership(m, run);
    ExclusiveIn(m, Exec(m, run).value, c);
    forall p | 0 <= p < |Exec(m, run).value.pools| ensures |Exec(m, run).value.pools[p]| <= m.size {
      assert PoolOk(m, Exec(m, run).value, p);
    }
  }

  lemma SlotIsPlace(m: Params, s: State, c: nat, p: nat, i: nat)
    requires OwnInv(m, s) && InSlot(s, c, p, i)
    ensures c < |s.chans| && s.chans[c].place == InPool(p)
    ensures forall j: nat :: InSlot(s, c, p, j) ==> i == j
  {
    assert PoolOk(m, s, p) && EntryOk(s, p, s.pools[p][i]);
  }

  lemma HandIsPlace(m: Params, s: State, c: nat, t: nat)
    requires OwnInv(m, s) && InHand(s, c, t)
    ensures c < |s.chans| && s.chans[c].place == With(t)
  {
    assert ThreadOk(s, t);
  }

  lemma ExclusiveIn(m: Params, s: State, c: nat)
    requires OwnInv(m, s)
    ensures OneOwner(s, c)
  {
    forall p: nat, i: nat, q: nat, j: nat | InSlot(s, c, p, i) && InSlot(s, c, q, j) ensures p == q && i == j {
      SlotIsPlace(m, s, c, p, i);
      SlotIsPlace(m, s, c, q, j);
    }
    forall t: nat, u: nat | InHand(s, c, t) && InHand(s, c, u) ensures t == u {
      HandIsPlace(m, s, c, t);
      HandIsPlace(m, s, c, u);
    }
    forall p: nat, i: nat | InSlot(s, c, p, i) ensures !IsLent(s, c) && forall t: nat :: !InHand(s, c, t) {
      SlotIsPlace(m, s, c, p, i);
      forall t: nat ensures !InHand(s, c, t) {
        if InHand(s, c, t) {
          HandIsPlace(m, s, c, t);
        }
      }
    }
    forall t: nat | InHand(s, c, t) ensures !IsLent(s, c) {
      HandIsPlace(m, s, c, t);
    }
  }

  // ----- creation times -----

  /** Somebody has the channel: a pool, a thread or a user. */
  ghost predicate IsHeld(s: State, c: nat) {
    (exists p, i :: InSlot(s, c, p, i)) || (exists t :: InHand(s, c, t)) || IsLent(s, c)
  }

  /** A pooled entry carries the true creation time of its channel, and no return listener left by a publish. */
  lemma {:induction false} PooledAgesAreTrue(m: Params, run: seq<Action>, p: nat, i: nat)
    requires Exec(m, run).Some? && p < |Exec(m, run).value.pools| && i < |Exec(m, run).value.pools[p]|
    ensures
      var s := Exec(m, run).value;
      var e := s.pools[p][i];
      && e.ch < |s.chans|
      && e.createdAt == s.chans[e.ch].born
      && !s.chans[e.ch].listening
  {
    var s := Exec(m, run).value;
    RunsKeepOwnership(m, run);
    assert PoolOk(m, s, p) && EntryOk(s, p, s.pools[p][i]);
  }

  /**
   * Recorded creation times are true and kept only for channels somebody has; a lent channel always has one,
   * and no return listener left by a publish.
   */
  lemma {:induction false} RecordedAgesAreTrue(m: Params, run: seq<Action>, c: nat)
    requires Exec(m, run).Some?
    ensures
      var s := Exec(m, run).value;
      && (c in s.meta ==> c < |s.chans| && s.meta[c] == s.chans[c].born && IsHeld(s, c))
      && (IsLent(s, c) ==> c in s.meta && !s.chans[c].listening)
  {
    RunsKeepOwnership(m, run);
    if c < |Exec(m, run).value.chans| {
      RecordedAgeIn(m, Exec(m, run).value, c);
    }
  }

  lemma RecordedAgeIn(m: Params, s: State, c: nat)
    requires OwnInv(m, s) && c < |s.chans|
    ensures c in s.meta ==> s.meta[c] == s.chans[c].born && IsHeld(s, c)
    ensures IsLent(s, c) ==> c in s.meta && !s.chans[c].listening
  {
    assert ChannelOk(s, c);
    match s.chans[c].place {
      case InPool(p) =>
        var i :| 0 <= i < |s.pools[p]| && s.pools[p][i].ch == c;
        assert InSlot(s, c, p, i);
      case With(t) => assert InHand(s, c, t);
      case Lent =>
      case Discarded =>
    }
  }

  /** A channel handed out from the pool was seen open just then, and its total age is at most the maximum. */
  lemma {:induction false} HandedOutFresh(m: Params, run: seq<Action>, t: nat, ok: bool)
    requires Exec(m, run).Some? && t < |Exec(m, run).value.threads| && Exec(m, run).value.threads[t].Inspect?
    ensures
      var s := Exec(m, run).value;
      var n := ThreadStep(m, s, t, ok).value;
      var e := s.threads[t].entry;
      && ThreadStep(m, s, t, ok).Some? && t < |n.threads|
      && (n.threads[t].Borrowed? <==> IsOpen(s, e.ch) && e.ch < |s.chans| && s.now - s.chans[e.ch].born <= m.maxAge)
      && (!n.threads[t].Borrowed? ==> n.threads[t].Closing? && n.threads[t].ch == e.ch)
  {
    RunsKeepOwnership(m, run);
    assert ThreadOk(Exec(m, run).value, t);
  }

  // ----- the swap -----

  /** The only step that touches a retired pool is the swapping thread's own drain. */
  lemma {:induction false} RetiredPoolUntouched(m: Params, run: seq<Action>, action: Action, p: nat)
    requires Exec(m, run).Some? && Step(m, Exec(m, run).value, action).Some?
    requires p + 1 < |Exec(m, run).value.pools|
    ensures
      var s, n := Exec(m, run).value, Step(m, Exec(m, run).value, action).value;
      && p < |n.pools|
      && (n.pools[p] == s.pools[p]
          || (&& action.Run? && action.thread == 0 && s.threads[0] == Drain(p, BySwap)
              && s.pools[p] != [] && n.pools[p] == s.pools[p][1..]))
  {
    var s := Exec(m, run).value;
    RunsKeepOwnership(m, run);
    if action.Run? {
      assert ThreadOk(s, action.thread);
      RetiredUntouchedByThread(m, s, action.thread, action.ok, p);
    }
  }

  lemma RetiredUntouchedByThread(m: Params, s: State, t: nat, ok: bool, p: nat)
    requires t < |s.threads| && ThreadOk(s, t) && ThreadStep(m, s, t, ok).Some? && p + 1 < |s.pools|
    ensures
      var n := ThreadStep(m, s, t, ok).value;
      && p < |n.pools|
      && (n.pools[p] == s.pools[p]
          || (t == 0 && s.threads[0] == Drain(p, BySwap) && s.pools[p] != [] && n.pools[p] == s.pools[p][1..]))
  {
    var pc := s.threads[t];
    if pc.UsePool? {
      if pc.phase.Using? {
        UseTouchesCurrent(m, s, t, pc.job, pc.phase.pool, p);
      }
    } else if pc == Connecting(Swap) {
      assert (s.pools + [[]])[p] == s.pools[p];
    } else if !pc.Drain? {
      assert ThreadStep(m, s, t, ok).value.pools == s.pools;
    }
  }

  lemma UseTouchesCurrent(m: Params, s: State, t: nat, job: Job, q: nat, p: nat)
    requires t < |s.threads| && q + 1 == |s.pools| && p < q
    ensures |UseStep(m, s, t, job, q).pools| == |s.pools| && UseStep(m, s, t, job, q).pools[p] == s.pools[p]
  {
  }

  /** Once a retired pool is empty it stays empty, whatever happens later. */
  lemma {:induction false} RetiredStaysEmpty(m: Params, run: seq<Action>, more: seq<Action>, p: nat)
    requires Exec(m, run).Some? && Exec(m, run + more).Some?
    requires p + 1 < |Exec(m, run).value.pools| && Exec(m, run).value.pools[p] == []
    ensures p + 1 < |Exec(m, run + more).value.pools| && Exec(m, run + more).value.pools[p] == []
  {
    if more == [] {
      assert run + more == run;
    } else {
      var less, action := more[..|more| - 1], more[|more| - 1];
      assert (run + more)[..|run + more| - 1] == run + less;
      RetiredStaysEmpty(m, run, less, p);
      RetiredPoolUntouched(m, run + less, action, p);
      PoolsOnlyGrow(m, Exec(m, run + less).value, action);
    }
  }

  lemma PoolsOnlyGrow(m: Params, s: State, action: Action)
    requires Step(m, s, action).Some?
    ensures |s.pools| <= |Step(m, s, action).value.pools|
  {
    if action.Run? {
      ThreadPoolsOnlyGrow(m, s, action.thread, action.ok);
    }
  }

  lemma ThreadPoolsOnlyGrow(m: Params, s: State, t: nat, ok: bool)
    requires t < |s.threads| && ThreadStep(m, s, t, ok).Some?
    ensures |s.pools| <= |ThreadStep(m, s, t, ok).value.pools|
  {
    var pc := s.threads[t];
    if pc.UsePool? {
      assert |PoolStep(m, s, t, pc.job, pc.phase).value.pools| == |s.pools|;
    } else if pc.Connecting? {
      assert |ConnectStep(m, s, t, pc.connect, ok).value.pools| >= |s.pools|;
    } else {
      assert |ThreadStep(m, s, t, ok).value.pools| == |s.pools|;
    }
  }

  /** A retired pool is empty, unless the swapping thread is still at it. */
  lemma {:induction false} RetiredIsEmpty(m: Params, run: seq<Action>, p: nat)
    requires Exec(m, run).Some? && p + 1 < |Exec(m, run).value.pools|
    ensures
      var s := Exec(m, run).value;
      s.pools[p] == [] || (|s.threads| > 0 && Emptying(s.threads[0], p))
  {
    RunsKeepOwnership(m, run);
    assert PoolOk(m, Exec(m, run).value, p);
  }

  /** What the swapping thread still has to do for a retired pool. */
  function DrainWork(s: State, p: nat): nat
    requires p < |s.pools| && |s.threads| > 0
  {
    3 * |s.pools[p]| + match s.threads[0]
                       case Closing(_, _) => 2
                       case Forgetting(_, _) => 1
                       case Connecting(_) => 1
                       case _ => 0
  }

  /** Thread 0 at its drain has a step, which leaves it less to do or ends it with the pool empty. */
  lemma DrainerMoves(m: Params, s: State, ok: bool, p: nat)
    requires |s.threads| > 0 && ThreadOk(s, 0) && p + 1 < |s.pools| && Emptying(s.threads[0], p)
    ensures
      var next := ThreadStep(m, s, 0, ok);
      && next.Some? && |next.value.threads| == |s.threads| && p < |next.value.pools|
      && (if Emptying(next.value.threads[0], p) then DrainWork(next.value, p) < DrainWork(s, p)
          else next.value.pools[p] == [])
  {
  }

  lemma OthersAddNothing(m: Params, s: State, t: nat, ok: bool, p: nat)
    requires 0 < t < |s.threads| && ThreadOk(s, t) && ThreadStep(m, s, t, ok).Some? && p + 1 < |s.pools|
    ensures
      var n := ThreadStep(m, s, t, ok).value;
      && |n.threads| == |s.threads| && n.threads[0] == s.threads[0]
      && p < |n.pools| && DrainWork(n, p) == DrainWork(s, p)
  {
    ThreadMovesLocks(m, s, t, ok);
    RetiredUntouchedByThread(m, s, t, ok, p);
  }

  /**
   * The drain after a swap terminates: no step of another thread gives it more to do, and each of its own
   * steps leaves less, or ends it with the pool empty. It is never blocked.
   */
  lemma {:induction false} SwapDrainTerminates(m: Params, run: seq<Action>, t: nat, ok: bool, p: nat)
    requires Exec(m, run).Some? && p + 1 < |Exec(m, run).value.pools|
    requires t < |Exec(m, run).value.threads| && Emptying(Exec(m, run).value.threads[0], p)
    ensures
      var s := Exec(m, run).value;
      var next := ThreadStep(m, s, t, ok);
      && (t == 0 ==> next.Some?)
      && (next.Some? ==>
            && |next.value.threads| == |s.threads| && p < |next.value.pools|
            && (if t != 0 then DrainWork(next.value, p) == DrainWork(s, p) && next.value.threads[0] == s.threads[0]
                else if Emptying(next.value.threads[0], p) then DrainWork(next.value, p) < DrainWork(s, p)
                else next.value.pools[p] == []))
  {
    var s := Exec(m, run).value;
    RunsKeepOwnership(m, run);
    assert ThreadOk(s, t) && ThreadOk(s, 0);
    if t == 0 {
      DrainerMoves(m, s, ok, p);
    } else if ThreadStep(m, s, t, ok).Some? {
      OthersAddNothing(m, s, t, ok, p);
    }
  }

  // ----- after Close -----

  /** Past every look at `closed`, with a channel on its way into the pool. */
  predicate Committed(pc: Pc) {
    pc.UsePool? && pc.job.Give? && pc.phase != Unlocking
  }

  predicate AllEmpty(s: State) {
    forall p :: 0 <= p < |s.pools| ==> s.pools[p] == []
  }

  /** Closed, drained, and the connection's own thread gone. */
  predicate ShutDown(s: State) {
    s.closed && |s.threads| > 0 && s.threads[0] == Terminated && s.pools != [] && AllEmpty(s)
  }

  predicate NobodyCommitted(s: State) {
    forall t :: 0 <= t < |s.threads| ==> !Committed(s.threads[t])
  }

  lemma QuietPoolStep(m: Params, s: State, t: nat, job: Job, phase: Phase)
    requires ShutDown(s) && t < |s.threads| && s.threads[t] == UsePool(job, phase) && !Committed(s.threads[t])
    requires ThreadOk(s, t) && PoolStep(m, s, t, job, phase).Some?
    ensures
      var n := PoolStep(m, s, t, job, phase).value;
      n.closed && n.pools == s.pools && t < |n.threads| && !Committed(n.threads[t])
  {
  }

  lemma QuietOtherStep(m: Params, s: State, t: nat, ok: bool)
    requires ShutDown(s) && t < |s.threads| && t != 0 && !s.threads[t].UsePool?
    requires ThreadOk(s, t) && ThreadStep(m, s, t, ok).Some?
    ensures
      var n := ThreadStep(m, s, t, ok).value;
      n.closed && n.pools == s.pools && t < |n.threads| && !Committed(n.threads[t])
  {
  }

  lemma QuietStep(m: Params, s: State, t: nat, ok: bool)
    requires ShutDown(s) && NobodyCommitted(s) && t < |s.threads| && ThreadOk(s, t) && ThreadStep(m, s, t, ok).Some?
    ensures ShutDown(ThreadStep(m, s, t, ok).value) && NobodyCommitted(ThreadStep(m, s, t, ok).value)
  {
    ThreadMovesLocks(m, s, t, ok);
    if s.threads[t].UsePool? {
      QuietPoolStep(m, s, t, s.threads[t].job, s.threads[t].phase);
    } else {
      QuietOtherStep(m, s, t, ok);
    }
  }

  lemma {:induction false} QuietForever(m: Params, run: seq<Action>, more: seq<Action>)
    requires Exec(m, run).Some? && Exec(m, run + more).Some?
    requires ShutDown(Exec(m, run).value) && NobodyCommitted(Exec(m, run).value)
    ensures ShutDown(Exec(m, run + more).value) && NobodyCommitted(Exec(m, run + more).value)
  {
    if more == [] {
      assert run + more == run;
    } else {
      var less, action := more[..|more| - 1], more[|more| - 1];
      assert (run + more)[..|run + more| - 1] == run + less;
      QuietForever(m, run, less);
      var s := Exec(m, run + less).value;
      RunsKeepOwnership(m, run + less);
      if action.Run? {
        assert ThreadOk(s, action.thread);
        QuietStep(m, s, action.thread, action.ok);
      }
    }
  }

  lemma {:induction false} Extend(m: Params, run: seq<Action>, action: Action)
    requires Exec(m, run).Some? && Step(m, Exec(m, run).value, action).Some?
    ensures Exec(m, run + [action]) == Step(m, Exec(m, run).value, action)
  {
    assert (run + [action])[..|run|] == run;
  }

  /** A committed thread is not held up: it sends at its select, and moves on towards it before that. */
  lemma CommittedMoves(m: Params, s: State, t: nat)
    requires m.size > 0 && OwnInv(m, s) && LockInv(s) && ShutDown(s)
    requires t < |s.threads| && Committed(s.threads[t])
    ensures ThreadStep(m, s, t, true).Some?
    ensures
      var n := ThreadStep(m, s, t, true).value;
      if s.threads[t].phase.Using? then !AllEmpty(n)
      else ShutDown(n) && t < |n.threads| && Committed(n.threads[t])
           && PhaseRank(n.threads[t].phase) < PhaseRank(s.threads[t].phase)
  {
    assert ThreadOk(s, t);
    NoSwapper(s);
    var n := ThreadStep(m, s, t, true).value;
    if s.threads[t].phase.Using? {
      var p := s.threads[t].phase.pool;
      assert s.pools[p] == [] && |n.pools[p]| == 1;
    } else {
      assert n.pools == s.pools && n.closed && t != 0 && n.threads[0] == s.threads[0];
    }
  }

  function PhaseRank(phase: Phase): nat {
    if phase == Locking then 2 else if phase == Reading then 1 else 0
  }

  lemma {:induction false} CommittedRuns(m: Params, run: seq<Action>, t: nat)
    requires m.size > 0
    requires Exec(m, run).Some? && ShutDown(Exec(m, run).value)
    requires t < |Exec(m, run).value.threads| && Committed(Exec(m, run).value.threads[t])
    ensures Exec(m, run + [Run(t, true)]).Some?
    ensures
      var s, n := Exec(m, run).value, Exec(m, run + [Run(t, true)]).value;
      if s.threads[t].phase.Using? then !AllEmpty(n)
      else ShutDown(n) && t < |n.threads| && Committed(n.threads[t])
           && PhaseRank(n.threads[t].phase) < PhaseRank(s.threads[t].phase)
  {
    RunsKeepOwnership(m, run);
    RunsKeepLocks(m, run);
    CommittedMoves(m, Exec(m, run).value, t);
    Extend(m, run, Run(t, true));
  }

  /** A committed thread can go through with its send. */
  lemma {:induction false} CommittedSends(m: Params, run: seq<Action>, t: nat) returns (longer: seq<Action>)
    requires m.size > 0
    requires Exec(m, run).Some? && ShutDown(Exec(m, run).value)
    requires t < |Exec(m, run).value.threads| && Committed(Exec(m, run).value.threads[t])
    ensures run <= longer && Exec(m, longer).Some? && !AllEmpty(Exec(m, longer).value)
    decreases PhaseRank(Exec(m, run).value.threads[t].phase)
  {
    CommittedRuns(m, run, t);
    longer := run + [Run(t, true)];
    if !Exec(m, run).value.threads[t].phase.Using? {
      longer := CommittedSends(m, longer, t);
    }
  }

  lemma NoSwapper(s: State)
    requires LockInv(s) && ShutDown(s) && forall t :: 0 <= t < |s.threads| ==> ThreadOk(s, t)
    ensures s.poolMu.writer == None
  {
    forall w | 0 <= w < |s.threads|
      ensures PoolMode(s.threads[w]) != Announced && PoolMode(s.threads[w]) != Exclusive
    {
      assert ThreadOk(s, w);
    }
  }

  /**
   * After Close has drained the pool and the watcher is gone, the pool can hold a channel again exactly when
   * some return had passed its check of `closed` before: the check and the send are not one step.
   */
  lemma {:induction false} RefilledAfterCloseIff(m: Params, run: seq<Action>)
    requires m.size > 0 && Exec(m, run).Some? && ShutDown(Exec(m, run).value)
    ensures (exists more :: Exec(m, run + more).Some? && !AllEmpty(Exec(m, run + more).value))
            <==> (exists t :: 0 <= t < |Exec(m, run).value.threads| && Committed(Exec(m, run).value.threads[t]))
  {
    var s := Exec(m, run).value;
    if t :| 0 <= t < |s.threads| && Committed(s.threads[t]) {
      var longer := CommittedSends(m, run, t);
      assert run + longer[|run|..] == longer;
    } else {
      forall more | Exec(m, run + more).Some? ensures AllEmpty(Exec(m, run + more).value) {
        QuietForever(m, run, more);
      }
    }
  }
}
