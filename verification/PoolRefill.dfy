/** A run after which the pool of a closed publisher holds a channel again. */
module PoolRefill {
  import opened Options
  import opened PoolView
  import opened PoolMachine
  import opened PoolSequential
  import opened PoolAlone
  import opened PoolResults

  ghost predicate Reached(m: Params, s: State) {
    exists run :: Exec(m, run) == Some(s)
  }

  lemma ReachedByStep(m: Params, s: State, action: Action, n: State)
    requires Reached(m, s) && Step(m, s, action) == Some(n)
    ensures Reached(m, n)
  {
    var run :| Exec(m, run) == Some(s);
    Extend(m, run, action);
    assert Exec(m, run + [action]) == Some(n);
  }

  lemma ReachedByThread(m: Params, s: State, t: nat, ok: bool)
    requires Reached(m, s) && StepOf(m, t, ok)(s).Some?
    ensures Reached(m, StepOf(m, t, ok)(s).value)
  {
    ReachedByStep(m, s, Run(t, ok), StepOf(m, t, ok)(s).value);
  }

  lemma ReachedAlone(m: Params, s: State, t: nat, ok: bool, n: State)
    requires Reached(m, s) && Leads(m, s, t, ok, n)
    ensures Reached(m, n)
  {
    var k: nat :| Alone(m, s, t, ok, k) == Some(n);
    forall x | Reached(m, x) && StepOf(m, t, ok)(x).Some? ensures Reached(m, StepOf(m, t, ok)(x).value) {
      ReachedByThread(m, x, t, ok);
    }
    IterateKeeps(StepOf(m, t, ok), x => Reached(m, x), s, k);
  }

  // ----- connecting -----

  function Starting(conn: Conn, connMu: RWLock, poolMu: RWLock, pools: seq<seq<Entry>>, pc: Pc): State {
    State(0, false, conn, connMu, poolMu, pools, map[], [], [pc])
  }

  const WAITING: RWLock := RWLock({}, Some(0), false)
  const WRITING: RWLock := RWLock({}, Some(0), true)

  lemma StartStep(m: Params, s: State, n: State)
    requires Reached(m, s) && |s.threads| == 1 && |n.threads| == 1
    requires
      var next := ThreadStep(m, s, 0, true);
      next.Some? && next.value == n.(threads := s.threads[0 := n.threads[0]])
    ensures Reached(m, n)
  {
    assert s.threads[0 := n.threads[0]] == n.threads;
    ReachedByStep(m, s, Run(0, true), n);
  }

  lemma Dialed(m: Params)
    ensures Reached(m, Starting(Up, WRITING, UNLOCKED, [], Connecting(SwapLock)))
  {
    assert Exec(m, []) == Some(INITIAL);
    var s1 := Starting(NoConn, WAITING, UNLOCKED, [], Connecting(ConnWait));
    StartStep(m, INITIAL, s1);
    var s2 := Starting(NoConn, WRITING, UNLOCKED, [], Connecting(Dialing));
    StartStep(m, s1, s2);
    var s3 := Starting(Up, WRITING, UNLOCKED, [], Connecting(Declaring));
    StartStep(m, s2, s3);
    StartStep(m, s3, Starting(Up, WRITING, UNLOCKED, [], Connecting(SwapLock)));
  }

  lemma Swapped(m: Params)
    ensures Reached(m, Starting(Up, WRITING, UNLOCKED, [[]], Connecting(ConnUnlock(true))))
  {
    Dialed(m);
    var s1 := Starting(Up, WRITING, WAITING, [], Connecting(SwapWait));
    StartStep(m, Starting(Up, WRITING, UNLOCKED, [], Connecting(SwapLock)), s1);
    var s2 := Starting(Up, WRITING, WRITING, [], Connecting(Swap));
    StartStep(m, s1, s2);
    var s3 := Starting(Up, WRITING, WRITING, [[]], Connecting(SwapUnlock(None)));
    assert s2.pools + [[]] == [[]];
    StartStep(m, s2, s3);
    StartStep(m, s3, Starting(Up, WRITING, UNLOCKED, [[]], Connecting(ConnUnlock(true))));
  }

  lemma FirstConnect(m: Params)
    ensures Reached(m, Starting(Up, UNLOCKED, UNLOCKED, [[]], Warm(m.size)))
  {
    Swapped(m);
    StartStep(m, Starting(Up, WRITING, UNLOCKED, [[]], Connecting(ConnUnlock(true))),
              Starting(Up, UNLOCKED, UNLOCKED, [[]], Warm(m.size)));
  }

  /** Connected, with two callers about to come. */
  const OPEN_FOR_USE: State :=
    State(0, false, Up, UNLOCKED, UNLOCKED, [[]], map[], [], [Watching(WatchCheck), Idle, Idle])

  lemma OpenForUse(m: Params)
    ensures Reached(m, OPEN_FOR_USE)
  {
    FirstConnect(m);
    var s := Starting(Up, UNLOCKED, UNLOCKED, [[]], Warm(m.size));
    var warmed := WarmAlone(m, s, 0, false, m.size);
    assert s.threads[0 := Warm(m.size)] == s.threads;
    var w := Go(s, 0, Watching(WatchCheck));
    ReachedAlone(m, s, 0, false, w);
    var w1 := w.(threads := w.threads + [Idle]);
    ReachedByStep(m, w, Spawn, w1);
    assert w1.threads + [Idle] == OPEN_FOR_USE.threads;
    ReachedByStep(m, w1, Spawn, OPEN_FOR_USE);
  }

  // ----- a publish that is about to return its channel -----

  const ENTRY: Entry := Entry(0, 0)

  const RETURNING: Pc := UsePool(Give(Some(ENTRY), Back), Locking)

  const CHANNEL_OPENED: State := OPEN_FOR_USE.(chans := [Channel(0, true, false, With(1))])

  lemma PublishBorrows(m: Params)
    ensures Reached(m, Go(CHANNEL_OPENED, 1, Borrowed(Use.Publish(false), ENTRY)))
  {
    OpenForUse(m);
    var use, s, n := Use.Publish(false), OPEN_FOR_USE, CHANNEL_OPENED;
    ReachedByStep(m, s, Begin(1, DoPublish(false)), Go(s, 1, BorrowCheck(use)));
    BorrowLeads(m, s, 1, true, use);
    assert s.chans + [Channel(0, true, false, With(1))] == n.chans;
    assert Borrow(m, s, 1, true) == (n, Some(ENTRY));
    ReachedAlone(m, Go(s, 1, BorrowCheck(use)), 1, true, Go(n, 1, Borrowed(use, ENTRY)));
  }

  /** It has looked at `closed`, and not at the pool yet. */
  lemma PublishReturns(m: Params)
    ensures Reached(m, Go(CHANNEL_OPENED, 1, RETURNING))
  {
    PublishBorrows(m);
    var use, n := Use.Publish(false), CHANNEL_OPENED;
    GoAgain(n, 1, Borrowed(use, ENTRY), ReturnCheck(ENTRY));
    ReachedByStep(m, Go(n, 1, Borrowed(use, ENTRY)), Run(1, true), Go(n, 1, ReturnCheck(ENTRY)));
    GoAgain(n, 1, ReturnCheck(ENTRY), RETURNING);
    ReachedByStep(m, Go(n, 1, ReturnCheck(ENTRY)), Run(1, true), Go(n, 1, RETURNING));
  }

  // ----- closing meanwhile -----

  /** What Close leaves while the publish still has its channel. */
  const CLOSED: State := Go(Go(CHANNEL_OPENED, 1, RETURNING).(closed := true, conn := Ended), 2, Idle)

  lemma CloseIsThrough(m: Params)
    ensures Reached(m, CLOSED)
  {
    PublishReturns(m);
    var p := Go(CHANNEL_OPENED, 1, RETURNING);
    ReachedByStep(m, p, Begin(2, DoClose), Go(p, 2, Shutting(CloseCheck)));
    var n := CloseAlone(m, p, 2, true);
    ReachedAlone(m, Go(p, 2, Shutting(CloseCheck)), 2, true, CLOSED);
  }

  /** Close is through, the watcher is gone, and the publish is still about to return its channel. */
  lemma ShutDownWithReturn(m: Params) returns (s: State)
    ensures Reached(m, s) && ShutDown(s) && |s.threads| == 3 && Committed(s.threads[1])
  {
    CloseIsThrough(m);
    s := Go(CLOSED, 0, Terminated);
    ReachedByStep(m, CLOSED, Run(0, true), s);
  }

  /** Whatever the size of the pool, a channel can be in it after Close has drained it and nobody reconnects. */
  lemma ClosedPoolRefills(m: Params)
    requires m.size > 0
    ensures exists run, more ::
              && Exec(m, run).Some? && ShutDown(Exec(m, run).value)
              && Exec(m, run + more).Some? && !AllEmpty(Exec(m, run + more).value)
  {
    var s := ShutDownWithReturn(m);
    var run :| Exec(m, run) == Some(s);
    var longer := CommittedSends(m, run, 1);
    assert run + longer[|run|..] == longer;
  }
}
