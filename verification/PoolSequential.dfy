/**
 * One thread of the pool machine running alone: from its first step to its last, a borrow and a return have the
 * effects specified in PoolView, which the methods of class Pool.Publisher have too.
 */
module PoolSequential {
  import opened Options
  import opened PoolView
  import opened PoolMachine

  function Iterate<S>(step: S -> Option<S>, s: S, n: nat): Option<S> {
    if n == 0 then Some(s)
    else
      match Iterate(step, s, n - 1)
      case None => None
      case Some(before) => step(before)
  }

  lemma {:induction false} IterateTwice<S>(step: S -> Option<S>, s: S, k: nat, n: nat)
    requires Iterate(step, s, k).Some?
    ensures Iterate(step, s, k + n) == Iterate(step, Iterate(step, s, k).value, n)
  {
    if n > 0 {
      IterateTwice(step, s, k, n - 1);
    }
  }

  /** What every step keeps, any number of steps keeps. */
  lemma {:induction false} IterateKeeps<S(!new)>(step: S -> Option<S>, good: S -> bool, s: S, n: nat)
    requires good(s) && forall x :: good(x) && step(x).Some? ==> good(step(x).value)
    requires Iterate(step, s, n).Some?
    ensures good(Iterate(step, s, n).value)
  {
    if n > 0 {
      IterateKeeps(step, good, s, n - 1);
    }
  }

  /** The step of one thread; its network calls succeed if `ok`. */
  function StepOf(m: Params, t: nat, ok: bool): State -> Option<State> {
    (s: State) => if t < |s.threads| then ThreadStep(m, s, t, ok) else None
  }

  /** Thread `t` takes `n` steps with nobody in between. */
  function Alone(m: Params, s: State, t: nat, ok: bool, n: nat): Option<State> {
    Iterate(StepOf(m, t, ok), s, n)
  }

  ghost predicate Leads(m: Params, s: State, t: nat, ok: bool, n: State) {
    exists k :: Alone(m, s, t, ok, k) == Some(n)
  }

  lemma ByStep(m: Params, s: State, t: nat, ok: bool, n: State)
    requires t < |s.threads| && ThreadStep(m, s, t, ok) == Some(n)
    ensures Leads(m, s, t, ok, n)
  {
    assert Alone(m, s, t, ok, 0) == Some(s);
    assert Alone(m, s, t, ok, 1) == Some(n);
  }

  lemma Then(m: Params, s: State, t: nat, ok: bool, u: State, n: State)
    requires Leads(m, s, t, ok, u) && Leads(m, u, t, ok, n)
    ensures Leads(m, s, t, ok, n)
  {
    var j: nat :| Alone(m, s, t, ok, j) == Some(u);
    var k: nat :| Alone(m, u, t, ok, k) == Some(n);
    IterateTwice(StepOf(m, t, ok), s, j, k);
    assert Alone(m, s, t, ok, j + k) == Some(n);
  }

  lemma GoAgain(s: State, t: nat, a: Pc, b: Pc)
    requires t < |s.threads|
    ensures Go(Go(s, t, a), t, b) == Go(s, t, b)
  {
    assert s.threads[t := a][t := b] == s.threads[t := b];
  }

  /** No writer is at the pool lock, and the thread does not hold it. */
  predicate PoolFree(s: State, t: nat) {
    t < |s.threads| && s.poolMu.writer == None && t !in s.poolMu.readers
  }

  /** Nor at the connection lock. */
  predicate Unlocked(s: State, t: nat) {
    PoolFree(s, t) && s.connMu.writer == None && t !in s.connMu.readers
  }

  /** What the publisher's methods see of a state of the machine. */
  function ViewOf(m: Params, s: State): View {
    View(if s.pools == [] then None else Some(s.pools[|s.pools| - 1]), m.size, m.maxAge, s.closed, s.meta,
         seq(|s.chans|, c requires 0 <= c < |s.chans| => s.chans[c].born),
         set c | 0 <= c < |s.chans| && s.chans[c].open)
  }

  // ----- closing and forgetting -----

  function Drop(s: State, c: nat): State {
    Move(Shut(s, c).(meta := s.meta - {c}), c, Discarded)
  }

  lemma DropAlone(m: Params, s: State, t: nat, ok: bool, c: nat, next: Next)
    requires t < |s.threads|
    ensures Leads(m, Go(s, t, Closing(c, next)), t, ok, Go(Drop(s, c), t, AfterForget(next)))
  {
    var s0, s1 := Go(s, t, Closing(c, next)), Go(Shut(s, c), t, Forgetting(c, next));
    GoAgain(Shut(s, c), t, Closing(c, next), Forgetting(c, next));
    ByStep(m, s0, t, ok, s1);
    GoAgain(Drop(s, c), t, Forgetting(c, next), AfterForget(next));
    ByStep(m, s1, t, ok, Go(Drop(s, c), t, AfterForget(next)));
    Then(m, s0, t, ok, s1, Go(Drop(s, c), t, AfterForget(next)));
  }

  // ----- the pool under the read lock -----

  /** One receive or send on the current pool. */
  function Used(m: Params, s: State, t: nat, job: Job): (State, Job) {
    if s.pools == [] then (s, job)
    else
      match job
      case Take(use, _) => var (n, got) := Receive(s, t, |s.pools| - 1); (n, Take(use, got))
      case Give(None, _) => (s, job)
      case Give(Some(e), giver) => var (n, rest) := Send(m, s, |s.pools| - 1, e); (n, Give(rest, giver))
      case Find(who, _) => (s, Find(who, Some(|s.pools| - 1)))
  }

  lemma LockAlone(m: Params, s: State, t: nat, ok: bool, job: Job)
    requires PoolFree(s, t)
    ensures Leads(m, Go(s, t, UsePool(job, Locking)), t, ok, Go(ReadPool(s, t), t, UsePool(job, Reading)))
  {
    GoAgain(ReadPool(s, t), t, UsePool(job, Locking), UsePool(job, Reading));
    ByStep(m, Go(s, t, UsePool(job, Locking)), t, ok, Go(ReadPool(s, t), t, UsePool(job, Reading)));
  }

  lemma SelectAlone(m: Params, s: State, t: nat, ok: bool, job: Job)
    requires t < |s.threads| && s.pools != []
    ensures
      Leads(m, Go(s, t, UsePool(job, Using(|s.pools| - 1))), t, ok,
            Go(Used(m, s, t, job).0, t, UsePool(Used(m, s, t, job).1, Unlocking)))
  {
    var (n, last) := Used(m, s, t, job);
    GoAgain(n, t, UsePool(job, Using(|s.pools| - 1)), UsePool(last, Unlocking));
    ByStep(m, Go(s, t, UsePool(job, Using(|s.pools| - 1))), t, ok, Go(n, t, UsePool(last, Unlocking)));
  }

  lemma ReadAlone(m: Params, s: State, t: nat, ok: bool, job: Job)
    requires t < |s.threads|
    ensures
      Leads(m, Go(s, t, UsePool(job, Reading)), t, ok,
            Go(Used(m, s, t, job).0, t, UsePool(Used(m, s, t, job).1, Unlocking)))
  {
    var s0 := Go(s, t, UsePool(job, Reading));
    var phase := if s.pools == [] then Unlocking else Using(|s.pools| - 1);
    GoAgain(s, t, UsePool(job, Reading), UsePool(job, phase));
    ByStep(m, s0, t, ok, Go(s, t, UsePool(job, phase)));
    if s.pools != [] {
      SelectAlone(m, s, t, ok, job);
      Then(m, s0, t, ok, Go(s, t, UsePool(job, phase)), Go(Used(m, s, t, job).0, t,
          UsePool(Used(m, s, t, job).1, Unlocking)));
    }
  }

  lemma UnlockAlone(m: Params, s: State, t: nat, ok: bool, job: Job)
    requires t < |s.threads| && t !in s.poolMu.readers
    ensures Leads(m, Go(ReadPool(s, t), t, UsePool(job, Unlocking)), t, ok, Go(s, t, AfterPool(job)))
  {
    assert s.poolMu.readers + {t} - {t} == s.poolMu.readers;
    GoAgain(s, t, UsePool(job, Unlocking), AfterPool(job));
    ByStep(m, Go(ReadPool(s, t), t, UsePool(job, Unlocking)), t, ok, Go(s, t, AfterPool(job)));
  }

  /** The select does not look at the lock. */
  lemma UsedInside(m: Params, s: State, t: nat, job: Job)
    ensures Used(m, ReadPool(s, t), t, job) == (ReadPool(Used(m, s, t, job).0, t), Used(m, s, t, job).1)
    ensures Used(m, s, t, job).0.poolMu == s.poolMu && |Used(m, s, t, job).0.threads| == |s.threads|
  {
  }

  lemma UseAlone(m: Params, s: State, t: nat, ok: bool, job: Job)
    requires PoolFree(s, t)
    ensures
      Leads(m, Go(s, t, UsePool(job, Locking)), t, ok, Go(Used(m, s, t, job).0, t, AfterPool(Used(m, s, t, job).1)))
  {
    var s0 := Go(s, t, UsePool(job, Locking));
    var (n, last) := Used(m, s, t, job);
    UsedInside(m, s, t, job);
    LockAlone(m, s, t, ok, job);
    ReadAlone(m, ReadPool(s, t), t, ok, job);
    Then(m, s0, t, ok, Go(ReadPool(s, t), t, UsePool(job, Reading)), Go(ReadPool(n, t), t, UsePool(last, Unlocking)));
    UnlockAlone(m, n, t, ok, last);
    Then(m, s0, t, ok, Go(ReadPool(n, t), t, UsePool(last, Unlocking)), Go(n, t, AfterPool(last)));
  }

  // ----- a return -----

  /** Does a return of this entry put it in the pool? */
  predicate Pooled(m: Params, s: State, e: Entry) {
    !s.closed && IsOpen(s, e.ch) && s.pools != [] && |s.pools[|s.pools| - 1]| < m.size
  }

  /** Where a return leaves the entry: at the back of the current pool, or closed and forgotten. */
  function Returned(m: Params, s: State, e: Entry): State {
    if Pooled(m, s, e) then Send(m, s, |s.pools| - 1, e).0 else Drop(s, e.ch)
  }

  lemma DropView(m: Params, s: State, c: nat)
    ensures ViewOf(m, Drop(s, c)) == Without(ViewOf(m, s), c)
  {
    assert ViewOf(m, Drop(s, c)).born == ViewOf(m, s).born;
  }

  lemma SendView(m: Params, s: State, e: Entry)
    requires Pooled(m, s, e)
    ensures ViewOf(m, Returned(m, s, e)) == AfterReturn(ViewOf(m, s), e)
  {
    assert e.ch in ViewOf(m, s).live;
    assert ViewOf(m, Returned(m, s, e)).born == ViewOf(m, s).born;
    assert ViewOf(m, Returned(m, s, e)).live == ViewOf(m, s).live;
  }

  lemma ReturnedView(m: Params, s: State, e: Entry)
    ensures ViewOf(m, Returned(m, s, e)) == AfterReturn(ViewOf(m, s), e)
  {
    assert e.ch in ViewOf(m, s).live <==> IsOpen(s, e.ch);
    if Pooled(m, s, e) {
      SendView(m, s, e);
    } else {
      DropView(m, s, e.ch);
    }
  }

  lemma GiveAlone(m: Params, s: State, t: nat, ok: bool, e: Entry)
    requires Unlocked(s, t) && IsOpen(s, e.ch) && !s.closed
    ensures Leads(m, Go(s, t, UsePool(Give(Some(e), Back), Locking)), t, ok, Go(Returned(m, s, e), t, Idle))
  {
    UseAlone(m, s, t, ok, Give(Some(e), Back));
    if !Pooled(m, s, e) {
      DropAlone(m, s, t, ok, e.ch, Stop);
      Then(m, Go(s, t, UsePool(Give(Some(e), Back), Locking)), t, ok, Go(s, t, Closing(e.ch, Stop)),
           Go(Drop(s, e.ch), t, Idle));
    }
  }

  /** A thread can get from here to its end at `end` alone, and then the publisher's methods see `view`. */
  ghost predicate LeadsToView(m: Params, s: State, t: nat, ok: bool, end: Pc, view: View) {
    exists n: State :: t < |n.threads| && Leads(m, s, t, ok, Go(n, t, end)) && ViewOf(m, n) == view
  }

  lemma SeenAtEnd(m: Params, s: State, t: nat, ok: bool, n: State, end: Pc, view: View)
    requires t < |n.threads| && Leads(m, s, t, ok, Go(n, t, end)) && ViewOf(m, n) == view
    ensures LeadsToView(m, s, t, ok, end, view)
  {
  }

  lemma ReturnLeads(m: Params, s: State, t: nat, ok: bool, e: Entry)
    requires Unlocked(s, t)
    ensures Leads(m, Go(s, t, ReturnCheck(e)), t, ok, Go(Returned(m, s, e), t, Idle))
  {
    var s0 := Go(s, t, ReturnCheck(e));
    var next := if !IsOpen(s, e.ch) || s.closed then Closing(e.ch, Stop) else UsePool(Give(Some(e), Back), Locking);
    GoAgain(s, t, ReturnCheck(e), next);
    ByStep(m, s0, t, ok, Go(s, t, next));
    if next.Closing? {
      DropAlone(m, s, t, ok, e.ch, Stop);
    } else {
      GiveAlone(m, s, t, ok, e);
    }
    Then(m, s0, t, ok, Go(s, t, next), Go(Returned(m, s, e), t, Idle));
  }

  /** A return alone has the effect of method ReturnPooled. */
  lemma ReturnAlone(m: Params, s: State, t: nat, ok: bool, e: Entry)
    requires Unlocked(s, t)
    ensures LeadsToView(m, Go(s, t, ReturnCheck(e)), t, ok, Idle, AfterReturn(ViewOf(m, s), e))
  {
    ReturnLeads(m, s, t, ok, e);
    ReturnedView(m, s, e);
    SeenAtEnd(m, Go(s, t, ReturnCheck(e)), t, ok, Returned(m, s, e), Idle, AfterReturn(ViewOf(m, s), e));
  }

  // ----- a borrow -----

  /** A new channel for the borrower, if the connection is up and the network calls succeed. */
  function Fresh(s: State, t: nat, ok: bool): (State, Option<Entry>) {
    if s.conn != Up || !ok then (s, None)
    else (s.(chans := s.chans + [Channel(s.now, true, false, With(t))]), Some(Entry(|s.chans|, s.now)))
  }

  predicate IsUsable(m: Params, s: State, e: Entry) {
    IsOpen(s, e.ch) && s.now - e.createdAt <= m.maxAge
  }

  /** What a borrow gets: the head of the current pool if it is usable, else a new channel, the head being dropped. */
  function Borrow(m: Params, s: State, t: nat, ok: bool): (State, Option<Entry>) {
    if s.closed then (s, None)
    else if s.pools == [] || s.pools[|s.pools| - 1] == [] then Fresh(s, t, ok)
    else
      var (n, got) := Receive(s, t, |s.pools| - 1);
      if IsUsable(m, n, got.value) then (n, got) else Fresh(Drop(n, got.value.ch), t, ok)
  }

  function NextPc(use: Use, got: Option<Entry>): Pc {
    if got == None then Idle else Borrowed(use, got.value)
  }

  lemma NetworkAlone(m: Params, s: State, t: nat, ok: bool, use: Use)
    requires t < |s.threads| && s.conn == Up
    ensures
      Leads(m, Go(s, t, Opening(ForBorrow(use), Network)), t, ok,
            Go(Fresh(s, t, ok).0, t, NextPc(use, Fresh(s, t, ok).1)))
  {
    var (n, got) := Fresh(s, t, ok);
    GoAgain(n, t, Opening(ForBorrow(use), Network), NextPc(use, got));
    ByStep(m, Go(s, t, Opening(ForBorrow(use), Network)), t, ok, Go(n, t, NextPc(use, got)));
  }

  lemma LookAlone(m: Params, s: State, t: nat, ok: bool, why: Why)
    requires Unlocked(s, t)
    ensures
      Leads(m, Go(s, t, Opening(why, ConnLocking)), t, ok,
            Go(s, t, if s.conn == Up then Opening(why, Network) else OpenFailed(why)))
  {
    var s0, s1 := Go(s, t, Opening(why, ConnLocking)), Go(ReadConn(s, t), t, Opening(why, ConnReading));
    var pc := if s.conn == Up then Opening(why, Network) else OpenFailed(why);
    GoAgain(ReadConn(s, t), t, Opening(why, ConnLocking), Opening(why, ConnReading));
    ByStep(m, s0, t, ok, s1);
    assert s.connMu.readers + {t} - {t} == s.connMu.readers;
    GoAgain(s, t, Opening(why, ConnReading), pc);
    ByStep(m, s1, t, ok, Go(s, t, pc));
    Then(m, s0, t, ok, s1, Go(s, t, pc));
  }

  lemma OpenAlone(m: Params, s: State, t: nat, ok: bool, use: Use)
    requires Unlocked(s, t)
    ensures
      Leads(m, Go(s, t, Opening(ForBorrow(use), ConnLocking)), t, ok,
            Go(Fresh(s, t, ok).0, t, NextPc(use, Fresh(s, t, ok).1)))
  {
    LookAlone(m, s, t, ok, ForBorrow(use));
    if s.conn == Up {
      NetworkAlone(m, s, t, ok, use);
      Then(m, Go(s, t, Opening(ForBorrow(use), ConnLocking)), t, ok, Go(s, t, Opening(ForBorrow(use), Network)),
           Go(Fresh(s, t, ok).0, t, NextPc(use, Fresh(s, t, ok).1)));
    }
  }

  /** The head of the pool is looked at, and dropped for a new channel if it is no longer usable. */
  lemma InspectAlone(m: Params, s: State, t: nat, ok: bool, use: Use, e: Entry)
    requires Unlocked(s, t)
    ensures
      var (n, got) := if IsUsable(m, s, e) then (s, Some(e)) else Fresh(Drop(s, e.ch), t, ok);
      Leads(m, Go(s, t, Inspect(use, e)), t, ok, Go(n, t, NextPc(use, got)))
  {
    var s0, next := Go(s, t, Inspect(use, e)), if IsUsable(m, s, e) then Borrowed(use, e) else Closing(e.ch,
        OpenNew(use));
    GoAgain(s, t, Inspect(use, e), next);
    ByStep(m, s0, t, ok, Go(s, t, next));
    if !IsUsable(m, s, e) {
      var d := Drop(s, e.ch);
      var n := Go(Fresh(d, t, ok).0, t, NextPc(use, Fresh(d, t, ok).1));
      DropAlone(m, s, t, ok, e.ch, OpenNew(use));
      Then(m, s0, t, ok, Go(s, t, next), Go(d, t, Opening(ForBorrow(use), ConnLocking)));
      OpenAlone(m, d, t, ok, use);
      Then(m, s0, t, ok, Go(d, t, Opening(ForBorrow(use), ConnLocking)), n);
    }
  }

  lemma TakeAlone(m: Params, s: State, t: nat, ok: bool, use: Use)
    requires Unlocked(s, t) && !s.closed
    ensures
      var (n, got) := Borrow(m, s, t, ok);
      Leads(m, Go(s, t, UsePool(Take(use, None), Locking)), t, ok, Go(n, t, NextPc(use, got)))
  {
    var s0 := Go(s, t, UsePool(Take(use, None), Locking));
    var (n, got) := Borrow(m, s, t, ok);
    UseAlone(m, s, t, ok, Take(use, None));
    if s.pools == [] || s.pools[|s.pools| - 1] == [] {
      OpenAlone(m, s, t, ok, use);
      Then(m, s0, t, ok, Go(s, t, Opening(ForBorrow(use), ConnLocking)), Go(n, t, NextPc(use, got)));
    } else {
      var (r, e) := Receive(s, t, |s.pools| - 1);
      InspectAlone(m, r, t, ok, use, e.value);
      Then(m, s0, t, ok, Go(r, t, Inspect(use, e.value)), Go(n, t, NextPc(use, got)));
    }
  }

  lemma BorrowLeads(m: Params, s: State, t: nat, ok: bool, use: Use)
    requires Unlocked(s, t)
    ensures
      var (n, got) := Borrow(m, s, t, ok);
      Leads(m, Go(s, t, BorrowCheck(use)), t, ok, Go(n, t, NextPc(use, got)))
  {
    var s0 := Go(s, t, BorrowCheck(use));
    var (n, got) := Borrow(m, s, t, ok);
    var next := if s.closed then Idle else UsePool(Take(use, None), Locking);
    GoAgain(s, t, BorrowCheck(use), next);
    ByStep(m, s0, t, ok, Go(s, t, next));
    if !s.closed {
      TakeAlone(m, s, t, ok, use);
      Then(m, s0, t, ok, Go(s, t, next), Go(n, t, NextPc(use, got)));
    }
  }

  lemma FreshView(m: Params, s: State, t: nat, ok: bool)
    ensures
      var (n, got) := Fresh(s, t, ok);
      (ViewOf(m, n), got) == WithNew(ViewOf(m, s), s.now, s.conn == Up && ok)
  {
    var (n, got) := Fresh(s, t, ok);
    if got != None {
      assert ViewOf(m, n).born == ViewOf(m, s).born + [s.now];
      assert ViewOf(m, n).live == ViewOf(m, s).live + {|s.chans|};
    }
  }

  lemma ReceiveView(m: Params, s: State, t: nat)
    requires s.pools != [] && s.pools[|s.pools| - 1] != []
    ensures
      var (n, got) := Receive(s, t, |s.pools| - 1);
      && got == Some(s.pools[|s.pools| - 1][0])
      && ViewOf(m, n) == ViewOf(m, s).(slots := Some(s.pools[|s.pools| - 1][1..]))
      && n.now == s.now && n.conn == s.conn
  {
    var (n, got) := Receive(s, t, |s.pools| - 1);
    assert ViewOf(m, n).born == ViewOf(m, s).born;
    assert ViewOf(m, n).live == ViewOf(m, s).live;
  }

  lemma BorrowView(m: Params, s: State, t: nat, ok: bool)
    ensures
      var (n, got) := Borrow(m, s, t, ok);
      (ViewOf(m, n), got) == AfterBorrow(ViewOf(m, s), s.now, s.conn == Up && ok)
  {
    if !s.closed {
      if s.pools == [] || s.pools[|s.pools| - 1] == [] {
        FreshView(m, s, t, ok);
      } else {
        ReceiveView(m, s, t);
        var (n, got) := Receive(s, t, |s.pools| - 1);
        DropView(m, n, got.value.ch);
        FreshView(m, Drop(n, got.value.ch), t, ok);
      }
    }
  }

  /** A borrow alone has the effect of method BorrowChannel and gets what that returns. */
  lemma BorrowAlone(m: Params, s: State, t: nat, ok: bool, use: Use)
    requires Unlocked(s, t)
    ensures
      var (view, got) := AfterBorrow(ViewOf(m, s), s.now, s.conn == Up && ok);
      LeadsToView(m, Go(s, t, BorrowCheck(use)), t, ok, NextPc(use, got), view)
  {
    var (n, got) := Borrow(m, s, t, ok);
    BorrowLeads(m, s, t, ok, use);
    BorrowView(m, s, t, ok);
    SeenAtEnd(m, Go(s, t, BorrowCheck(use)), t, ok, n, NextPc(use, got), ViewOf(m, n));
  }
}
