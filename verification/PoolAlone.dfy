/**
 * The longer operations of the pool machine, each run by its thread alone: from the call to the end they have the
 * effects that the methods of class Pool.Publisher ensure.
 */
module PoolAlone {
  import opened Options
  import opened PoolView
  import opened PoolMachine
  import opened PoolSequential

  /** One more step. */
  lemma OneMore(m: Params, s0: State, t: nat, ok: bool, s: State, a: Pc, n: State, b: Pc)
    requires t < |s.threads| && t < |n.threads| && Leads(m, s0, t, ok, Go(s, t, a))
    requires ThreadStep(m, Go(s, t, a), t, ok) == Some(Go(Go(n, t, a), t, b))
    ensures Leads(m, s0, t, ok, Go(n, t, b))
  {
    GoAgain(n, t, a, b);
    ByStep(m, Go(s, t, a), t, ok, Go(n, t, b));
    Then(m, s0, t, ok, Go(s, t, a), Go(n, t, b));
  }

  lemma AtStart(m: Params, s: State, t: nat, ok: bool)
    ensures Leads(m, s, t, ok, s)
  {
    assert Alone(m, s, t, ok, 0) == Some(s);
  }

  /** Nobody has changed the locks, the connection, the clock or the threads. */
  predicate SameRest(s: State, n: State) {
    && n.connMu == s.connMu && n.poolMu == s.poolMu && n.conn == s.conn && n.now == s.now
    && n.threads == s.threads && |n.pools| == |s.pools|
  }

  /** A view does not show who has a channel, nor its listener. */
  lemma SameLook(m: Params, s: State, n: State)
    requires |n.chans| == |s.chans|
    requires forall c :: 0 <= c < |s.chans| ==> n.chans[c].born == s.chans[c].born && n.chans[c].open == s.chans[c].open
    ensures ViewOf(m, n).born == ViewOf(m, s).born && ViewOf(m, n).live == ViewOf(m, s).live
  {
  }

  // ----- publish, GetChannel and ReturnChannel -----

  lemma BorrowKeepsRest(m: Params, s: State, t: nat, ok: bool)
    ensures SameRest(s, Borrow(m, s, t, ok).0)
  {
  }

  /** publish alone: its channel goes back to the pool, or is closed and forgotten if the message is mandatory. */
  lemma PublishAlone(m: Params, s: State, t: nat, ok: bool, mandatory: bool)
    requires Unlocked(s, t)
    ensures
      var (v, used) := AfterBorrow(ViewOf(m, s), s.now, s.conn == Up && ok);
      LeadsToView(m, Go(s, t, BorrowCheck(Publish(mandatory))), t, ok, Idle,
                  if used == None then v else if mandatory then Without(v, used.value.ch)
                  else AfterReturn(v, used.value))
  {
    var use, s0 := Use.Publish(mandatory), Go(s, t, BorrowCheck(Publish(mandatory)));
    var (n, got) := Borrow(m, s, t, ok);
    BorrowLeads(m, s, t, ok, use);
    BorrowView(m, s, t, ok);
    BorrowKeepsRest(m, s, t, ok);
    if got == None {
      SeenAtEnd(m, s0, t, ok, n, Idle, ViewOf(m, n));
    } else if mandatory {
      SpoiltLeads(m, s0, t, ok, n, got.value);
    } else {
      var e := got.value;
      OneMore(m, s0, t, ok, n, Borrowed(use, e), n, ReturnCheck(e));
      ReturnLeads(m, n, t, ok, e);
      Then(m, s0, t, ok, Go(n, t, ReturnCheck(e)), Go(Returned(m, n, e), t, Idle));
      ReturnedView(m, n, e);
      SeenAtEnd(m, s0, t, ok, Returned(m, n, e), Idle, AfterReturn(ViewOf(m, n), e));
    }
  }

  lemma SpoiltLeads(m: Params, s0: State, t: nat, ok: bool, n: State, e: Entry)
    requires t < |n.threads| && Leads(m, s0, t, ok, Go(n, t, Borrowed(Publish(true), e)))
    ensures LeadsToView(m, s0, t, ok, Idle, Without(ViewOf(m, n), e.ch))
  {
    var l := Listen(n, e.ch);
    OneMore(m, s0, t, ok, n, Borrowed(Publish(true), e), l, Closing(e.ch, Stop));
    DropAlone(m, l, t, ok, e.ch, Stop);
    Then(m, s0, t, ok, Go(l, t, Closing(e.ch, Stop)), Go(Drop(l, e.ch), t, Idle));
    DropView(m, l, e.ch);
    SameLook(m, n, l);
    SeenAtEnd(m, s0, t, ok, Drop(l, e.ch), Idle, Without(ViewOf(m, n), e.ch));
  }

  /** Lent to a user, with its creation time recorded. */
  function LentOut(s: State, e: Entry): State {
    Move(s.(meta := s.meta[e.ch := e.createdAt]), e.ch, Lent)
  }

  lemma LentLeads(m: Params, s0: State, s: State, t: nat, ok: bool, e: Entry)
    requires t < |s.threads| && Leads(m, s0, t, ok, Go(s, t, Borrowed(User, e)))
    ensures Leads(m, s0, t, ok, Go(LentOut(s, e), t, Idle))
    ensures ViewOf(m, LentOut(s, e)) == ViewOf(m, s).(meta := s.meta[e.ch := e.createdAt])
  {
    OneMore(m, s0, t, ok, s, Borrowed(User, e), LentOut(s, e), Idle);
    SameLook(m, s, LentOut(s, e));
  }

  /** GetChannel alone: what a borrow gets is lent to the user, and its creation time recorded. */
  lemma GetAlone(m: Params, s: State, t: nat, ok: bool) returns (n: State)
    requires Unlocked(s, t)
    ensures t < |n.threads| && Leads(m, Go(s, t, BorrowCheck(User)), t, ok, Go(n, t, Idle))
    ensures
      var (v, got) := AfterBorrow(ViewOf(m, s), s.now, s.conn == Up && ok);
      && ViewOf(m, n) == (if got == None then v else v.(meta := v.meta[got.value.ch := got.value.createdAt]))
      && (got != None && got.value.ch < |n.chans| ==> n.chans[got.value.ch].place == Lent)
  {
    var (b, got) := Borrow(m, s, t, ok);
    BorrowLeads(m, s, t, ok, User);
    BorrowView(m, s, t, ok);
    BorrowKeepsRest(m, s, t, ok);
    n := b;
    if got != None {
      LentLeads(m, Go(s, t, BorrowCheck(User)), b, t, ok, got.value);
      n := LentOut(b, got.value);
    }
  }

  /** ReturnChannel alone: an open channel is returned under its recorded creation time. */
  lemma GiveBackAlone(m: Params, s: State, t: nat, ok: bool, c: nat)
    requires Unlocked(s, t) && IsOpen(s, c)
    ensures
      var e := Entry(c, if c in s.meta then s.meta[c] else s.now);
      LeadsToView(m, Go(s, t, GiveBack(c)), t, ok, Idle, AfterReturn(ViewOf(m, s), e))
  {
    var s0, e := Go(s, t, GiveBack(c)), Entry(c, if c in s.meta then s.meta[c] else s.now);
    AtStart(m, s0, t, ok);
    OneMore(m, s0, t, ok, s, GiveBack(c), s, GiveLoad(c));
    OneMore(m, s0, t, ok, s, GiveLoad(c), s, ReturnCheck(e));
    ReturnLeads(m, s, t, ok, e);
    Then(m, s0, t, ok, Go(s, t, ReturnCheck(e)), Go(Returned(m, s, e), t, Idle));
    ReturnedView(m, s, e);
    SeenAtEnd(m, s0, t, ok, Returned(m, s, e), Idle, AfterReturn(ViewOf(m, s), e));
  }

  /** ReturnChannel alone: a closed channel is forgotten. */
  lemma GiveBackClosedAlone(m: Params, s: State, t: nat, ok: bool, c: nat)
    requires t < |s.threads| && !IsOpen(s, c)
    ensures LeadsToView(m, Go(s, t, GiveBack(c)), t, ok, Idle, ViewOf(m, s).(meta := s.meta - {c}))
  {
    var s0, n := Go(s, t, GiveBack(c)), Move(s.(meta := s.meta - {c}), c, Discarded);
    AtStart(m, s0, t, ok);
    OneMore(m, s0, t, ok, s, GiveBack(c), s, Forgetting(c, Stop));
    OneMore(m, s0, t, ok, s, Forgetting(c, Stop), n, Idle);
    SameLook(m, s, n);
    SeenAtEnd(m, s0, t, ok, n, Idle, ViewOf(m, s).(meta := s.meta - {c}));
  }

  // ----- draining -----

  /** Pool `p` is empty, and exactly its channels are closed and forgotten. */
  ghost predicate Drained(m: Params, s: State, n: State, p: nat)
    requires p < |s.pools|
  {
    var v, w, gone := ViewOf(m, s), ViewOf(m, n), Chans(s.pools[p]);
    && SameRest(s, n) && n.pools == s.pools[p := []] && n.closed == s.closed
    && w.live == v.live - gone && w.meta == v.meta - gone && w.born == v.born
  }

  /** The first entry of a pool, received, closed and forgotten. */
  function Dropped(s: State, t: nat, p: nat): State
    requires p < |s.pools| && s.pools[p] != []
  {
    Drop(Receive(s, t, p).0, s.pools[p][0].ch)
  }

  lemma DroppedLook(m: Params, s: State, t: nat, p: nat)
    requires p < |s.pools| && s.pools[p] != []
    ensures
      var d, c := Dropped(s, t, p), s.pools[p][0].ch;
      && ViewOf(m, d).live == ViewOf(m, s).live - {c} && ViewOf(m, d).born == ViewOf(m, s).born
      && d.meta == s.meta - {c}
      && SameRest(s, d) && d.closed == s.closed && d.pools == s.pools[p := s.pools[p][1..]]
  {
    var r := Receive(s, t, p).0;
    SameLook(m, s, r);
    DropView(m, r, s.pools[p][0].ch);
  }

  lemma ReceiveDrained(m: Params, s: State, t: nat, p: nat, n: State)
    requires p < |s.pools| && s.pools[p] != []
    requires p < |Dropped(s, t, p).pools| && Drained(m, Dropped(s, t, p), n, p)
    ensures Drained(m, s, n, p)
  {
    DroppedLook(m, s, t, p);
    assert s.pools[p := s.pools[p][1..]][p := []] == s.pools[p := []];
    assert Chans(s.pools[p]) == {s.pools[p][0].ch} + Chans(s.pools[p][1..]);
  }

  /** drainPool alone. */
  lemma {:induction false} DrainAlone(m: Params, s: State, t: nat, ok: bool, p: nat, who: Drainer) returns (n: State)
    requires t < |s.threads| && p < |s.pools|
    ensures Drained(m, s, n, p) && Leads(m, Go(s, t, Drain(p, who)), t, ok, Go(n, t, AfterDrain(who)))
    ensures s.pools[p] == [] ==> n == s
    decreases |s.pools[p]|
  {
    var s0 := Go(s, t, Drain(p, who));
    AtStart(m, s0, t, ok);
    if s.pools[p] == [] {
      n := s;
      assert s.pools[p := []] == s.pools;
      OneMore(m, s0, t, ok, s, Drain(p, who), s, AfterDrain(who));
    } else {
      var e, r := s.pools[p][0], Receive(s, t, p).0;
      OneMore(m, s0, t, ok, s, Drain(p, who), r, Closing(e.ch, DrainMore(p, who)));
      DropAlone(m, r, t, ok, e.ch, DrainMore(p, who));
      var d := Dropped(s, t, p);
      Then(m, s0, t, ok, Go(r, t, Closing(e.ch, DrainMore(p, who))), Go(d, t, Drain(p, who)));
      n := DrainAlone(m, d, t, ok, p, who);
      Then(m, s0, t, ok, Go(d, t, Drain(p, who)), Go(n, t, AfterDrain(who)));
      ReceiveDrained(m, s, t, p, n);
    }
  }

  // ----- warming up -----

  predicate HasRoom(m: Params, s: State) {
    s.pools != [] && |s.pools[|s.pools| - 1]| < m.size
  }

  /** One attempt: a new channel at the back of the pool, or closed at once when there is no room. */
  function WarmOnce(m: Params, s: State, t: nat, opens: bool): State {
    if !opens then s
    else
      var c, e := s.(chans := s.chans + [Channel(s.now, true, false, With(t))]), Entry(|s.chans|, s.now);
      if HasRoom(m, s) then Send(m, c, |s.pools| - 1, e).0 else Move(Shut(c, e.ch), e.ch, Discarded)
  }

  lemma AttemptEnds(m: Params, s0: State, s: State, t: nat, ok: bool, left: nat)
    requires Unlocked(s, t) && s.conn == Up && Leads(m, s0, t, ok, Go(s, t, Opening(ForWarm(left), Network)))
    ensures Leads(m, s0, t, ok, Go(WarmOnce(m, s, t, ok), t, Warm(left)))
  {
    var e, give := Entry(|s.chans|, s.now), Give(Some(Entry(|s.chans|, s.now)), Warming(left));
    var c := s.(chans := s.chans + [Channel(s.now, true, false, With(t))]);
    if !ok {
      OneMore(m, s0, t, ok, s, Opening(ForWarm(left), Network), s, Warm(left));
    } else {
      OneMore(m, s0, t, ok, s, Opening(ForWarm(left), Network), c, UsePool(give, Locking));
      UseAlone(m, c, t, ok, give);
      var (u, job) := Used(m, c, t, give);
      Then(m, s0, t, ok, Go(c, t, UsePool(give, Locking)), Go(u, t, AfterPool(job)));
      if !HasRoom(m, s) {
        OneMore(m, s0, t, ok, c, WarmClose(e.ch, left), WarmOnce(m, s, t, ok), Warm(left));
      }
    }
  }

  lemma AttemptAlone(m: Params, s: State, t: nat, ok: bool, left: nat)
    requires Unlocked(s, t)
    ensures Leads(m, Go(s, t, Warm(left + 1)), t, ok, Go(WarmOnce(m, s, t, s.conn == Up && ok), t, Warm(left)))
  {
    var s0, open := Go(s, t, Warm(left + 1)), Opening(ForWarm(left), ConnLocking);
    AtStart(m, s0, t, ok);
    OneMore(m, s0, t, ok, s, Warm(left + 1), s, open);
    LookAlone(m, s, t, ok, ForWarm(left));
    if s.conn == Up {
      Then(m, s0, t, ok, Go(s, t, open), Go(s, t, Opening(ForWarm(left), Network)));
      AttemptEnds(m, s0, s, t, ok, left);
    } else {
      Then(m, s0, t, ok, Go(s, t, open), Go(s, t, Warm(left)));
    }
  }

  /** `k` new channels, opened now. */
  function NewEntries(first: nat, now: int, k: nat): seq<Entry> {
    seq(k, i requires 0 <= i < k => Entry(first + i, now))
  }

  /** How many of `left` new channels the current pool has room for. */
  function Room(m: Params, s: State, left: nat): nat {
    if !HasRoom(m, s) then 0
    else if left < m.size - |s.pools[|s.pools| - 1]| then left
    else m.size - |s.pools[|s.pools| - 1]|
  }

  /** More entries in the current pool. */
  function Stocked(pools: seq<seq<Entry>>, more: seq<Entry>): seq<seq<Entry>> {
    if pools == [] then [] else pools[|pools| - 1 := pools[|pools| - 1] + more]
  }

  /** Of `left` new channels those that fit are in the pool, behind what it held, and the others are closed. */
  ghost predicate Warmed(m: Params, s: State, n: State, left: nat) {
    var v, w, k, first := ViewOf(m, s), ViewOf(m, n), Room(m, s, left), |s.chans|;
    && SameRest(s, n) && n.closed == s.closed && n.meta == s.meta
    && |n.chans| == first + left
    && n.pools == Stocked(s.pools, NewEntries(first, s.now, k))
    && w.born == v.born + seq(left, _ => s.now)
    && w.live == v.live + Chans(NewEntries(first, s.now, k))
  }

  lemma FirstNewEntry(first: nat, now: int, k: nat)
    requires k > 0
    ensures NewEntries(first, now, k) == [Entry(first, now)] + NewEntries(first + 1, now, k - 1)
    ensures Chans(NewEntries(first, now, k)) == {first} + Chans(NewEntries(first + 1, now, k - 1))
  {
    var all := NewEntries(first, now, k);
    assert all == [Entry(first, now)] + NewEntries(first + 1, now, k - 1);
    assert all[1..] == NewEntries(first + 1, now, k - 1);
  }

  lemma StockedTwice(pools: seq<seq<Entry>>, a: seq<Entry>, b: seq<Entry>)
    ensures Stocked(Stocked(pools, a), b) == Stocked(pools, a + b) && Stocked(pools, []) == pools
  {
    if pools != [] {
      assert pools[|pools| - 1] + a + b == pools[|pools| - 1] + (a + b);
      assert pools[|pools| - 1] + [] == pools[|pools| - 1];
    }
  }

  lemma OnceLooks(m: Params, s: State, t: nat)
    ensures
      var v, w := ViewOf(m, s), ViewOf(m, WarmOnce(m, s, t, true));
      w.born == v.born + [s.now] && w.live == v.live + if HasRoom(m, s) then {|s.chans|} else {}
  {
    var w := ViewOf(m, WarmOnce(m, s, t, true));
    assert w.born == ViewOf(m, s).born + [s.now];
    assert w.live == ViewOf(m, s).live + if HasRoom(m, s) then {|s.chans|} else {};
  }

  lemma OncePools(m: Params, s: State, t: nat)
    ensures
      var o := WarmOnce(m, s, t, true);
      && SameRest(s, o) && o.closed == s.closed && o.meta == s.meta && |o.chans| == |s.chans| + 1
      && o.pools == if HasRoom(m, s) then Stocked(s.pools, [Entry(|s.chans|, s.now)]) else s.pools
  {
  }

  lemma WarmedMore(m: Params, s: State, t: nat, n: State, left: nat)
    requires Warmed(m, WarmOnce(m, s, t, true), n, left)
    ensures Warmed(m, s, n, left + 1)
  {
    OnceLooks(m, s, t);
    OncePools(m, s, t);
    if HasRoom(m, s) {
      var k := Room(m, s, left + 1);
      FirstNewEntry(|s.chans|, s.now, k);
      StockedTwice(s.pools, [Entry(|s.chans|, s.now)], NewEntries(|s.chans| + 1, s.now, k - 1));
    } else {
      assert NewEntries(|s.chans|, s.now, 0) == NewEntries(|s.chans| + 1, s.now, 0) == [];
    }
    assert [s.now] + seq(left, _ => s.now) == seq(left + 1, _ => s.now);
  }

  lemma NothingWarmed(m: Params, s: State)
    ensures Warmed(m, s, s, 0)
  {
    assert NewEntries(|s.chans|, s.now, 0) == [];
    StockedTwice(s.pools, [], []);
  }

  lemma WarmEnds(m: Params, s: State, t: nat, ok: bool)
    requires t < |s.threads|
    ensures Leads(m, Go(s, t, Warm(0)), t, ok, Go(s, t, Watching(WatchCheck)))
  {
    AtStart(m, Go(s, t, Warm(0)), t, ok);
    OneMore(m, Go(s, t, Warm(0)), t, ok, s, Warm(0), s, Watching(WatchCheck));
  }

  /** What `left` attempts leave, all of which succeed if `opens` and fail otherwise. */
  ghost predicate WarmedIf(m: Params, s: State, n: State, left: nat, opens: bool) {
    if opens then Warmed(m, s, n, left) else n == s
  }

  lemma WarmedIfMore(m: Params, s: State, t: nat, n: State, left: nat, opens: bool)
    requires WarmedIf(m, WarmOnce(m, s, t, opens), n, left, opens)
    ensures WarmedIf(m, s, n, left + 1, opens)
  {
    if opens {
      WarmedMore(m, s, t, n, left);
    }
  }

  lemma OnceStaysFree(m: Params, s: State, t: nat, opens: bool)
    requires Unlocked(s, t)
    ensures Unlocked(WarmOnce(m, s, t, opens), t) && WarmOnce(m, s, t, opens).conn == s.conn
  {
    OncePools(m, s, t);
  }

  lemma OneAttemptMore(m: Params, s: State, t: nat, ok: bool, left: nat, end: State)
    requires Unlocked(s, t) && t < |WarmOnce(m, s, t, s.conn == Up && ok).threads|
    requires Leads(m, Go(WarmOnce(m, s, t, s.conn == Up && ok), t, Warm(left)), t, ok, end)
    ensures Leads(m, Go(s, t, Warm(left + 1)), t, ok, end)
  {
    AttemptAlone(m, s, t, ok, left);
    Then(m, Go(s, t, Warm(left + 1)), t, ok, Go(WarmOnce(m, s, t, s.conn == Up && ok), t, Warm(left)), end);
  }

  function WarmAll(m: Params, s: State, t: nat, opens: bool, left: nat): State
    decreases left
  {
    if left == 0 then s else WarmAll(m, WarmOnce(m, s, t, opens), t, opens, left - 1)
  }

  lemma {:induction false} WarmLeads(m: Params, s: State, t: nat, ok: bool, left: nat)
    requires Unlocked(s, t)
    ensures
      var n := WarmAll(m, s, t, s.conn == Up && ok, left);
      t < |n.threads| && Leads(m, Go(s, t, Warm(left)), t, ok, Go(n, t, Watching(WatchCheck)))
    decreases left
  {
    if left == 0 {
      WarmEnds(m, s, t, ok);
    } else {
      var opens := s.conn == Up && ok;
      OnceStaysFree(m, s, t, opens);
      WarmLeads(m, WarmOnce(m, s, t, opens), t, ok, left - 1);
      OneAttemptMore(m, s, t, ok, left - 1, Go(WarmAll(m, s, t, opens, left), t, Watching(WatchCheck)));
    }
  }

  lemma {:induction false} WarmResult(m: Params, s: State, t: nat, opens: bool, left: nat)
    ensures WarmedIf(m, s, WarmAll(m, s, t, opens, left), left, opens)
    decreases left
  {
    if left == 0 {
      NothingWarmed(m, s);
    } else {
      WarmResult(m, WarmOnce(m, s, t, opens), t, opens, left - 1);
      WarmedIfMore(m, s, t, WarmAll(m, s, t, opens, left), left - 1, opens);
    }
  }

  /** warmChannelPool alone. */
  lemma WarmAlone(m: Params, s: State, t: nat, ok: bool, left: nat) returns (n: State)
    requires Unlocked(s, t)
    ensures t < |n.threads| && Leads(m, Go(s, t, Warm(left)), t, ok, Go(n, t, Watching(WatchCheck)))
    ensures WarmedIf(m, s, n, left, s.conn == Up && ok)
  {
    WarmLeads(m, s, t, ok, left);
    WarmResult(m, s, t, s.conn == Up && ok, left);
    n := WarmAll(m, s, t, s.conn == Up && ok, left);
  }

  // ----- connecting -----

  /** Held for writing by `t`. */
  function Writing(t: nat): RWLock {
    RWLock({}, Some(t), true)
  }

  predicate NobodyAtLocks(s: State) {
    s.connMu == UNLOCKED && s.poolMu == UNLOCKED
  }

  lemma ConnLockAlone(m: Params, s0: State, s: State, t: nat, ok: bool)
    requires t < |s.threads| && NobodyAtLocks(s) && Leads(m, s0, t, ok, Go(s, t, Connecting(ConnLock)))
    ensures Leads(m, s0, t, ok, Go(s.(connMu := Writing(t)), t, Connecting(Dialing)))
  {
    var w := s.(connMu := RWLock({}, Some(t), false));
    OneMore(m, s0, t, ok, s, Connecting(ConnLock), w, Connecting(ConnWait));
    OneMore(m, s0, t, ok, w, Connecting(ConnWait), s.(connMu := Writing(t)), Connecting(Dialing));
  }

  lemma SwapLockAlone(m: Params, s0: State, s: State, t: nat)
    requires t < |s.threads| && s.poolMu == UNLOCKED && Leads(m, s0, t, true, Go(s, t, Connecting(SwapLock)))
    ensures Leads(m, s0, t, true, Go(s.(poolMu := Writing(t)), t, Connecting(Swap)))
  {
    var l := s.(poolMu := RWLock({}, Some(t), false));
    OneMore(m, s0, t, true, s, Connecting(SwapLock), l, Connecting(SwapWait));
    OneMore(m, s0, t, true, l, Connecting(SwapWait), s.(poolMu := Writing(t)), Connecting(Swap));
  }

  /** The new pool is in place, the old one not drained yet. */
  lemma SwapAlone(m: Params, s0: State, s: State, t: nat)
    requires t < |s.threads| && s.poolMu == UNLOCKED && Leads(m, s0, t, true, Go(s, t, Connecting(SwapLock)))
    ensures
      Leads(m, s0, t, true,
            Go(s.(pools := s.pools + [[]]), t,
               if s.pools == [] then Connecting(ConnUnlock(true)) else Drain(|s.pools| - 1, BySwap)))
  {
    SwapLockAlone(m, s0, s, t);
    var w, n, previous := s.(poolMu := Writing(t)), s.(pools := s.pools + [[]]), CurrentPool(s);
    OneMore(m, s0, t, true, w, Connecting(Swap), n.(poolMu := Writing(t)), Connecting(SwapUnlock(previous)));
    OneMore(m, s0, t, true, n.(poolMu := Writing(t)), Connecting(SwapUnlock(previous)), n,
         if previous == None then Connecting(ConnUnlock(true)) else Drain(previous.value, BySwap));
  }

  /** A new, empty pool, and every channel of the pool it replaces closed and forgotten. */
  ghost predicate Replaced(m: Params, s: State, n: State) {
    var v, w, gone := ViewOf(m, s), ViewOf(m, n), if s.pools == [] then {} else Chans(s.pools[|s.pools| - 1]);
    && NobodyAtLocks(n) && n.conn == Up && n.now == s.now && n.threads == s.threads && n.closed == s.closed
    && |n.pools| == |s.pools| + 1 && n.pools[|s.pools|] == []
    && (s.pools != [] ==> n.pools[|s.pools| - 1] == [])
    && |n.chans| == |s.chans| && w.live == v.live - gone && w.meta == v.meta - gone && w.born == v.born
  }

  lemma DialAlone(m: Params, s0: State, s: State, t: nat)
    requires t < |s.threads| && NobodyAtLocks(s) && Leads(m, s0, t, true, Go(s, t, Connecting(ConnLock)))
    ensures Leads(m, s0, t, true, Go(s.(connMu := Writing(t), conn := Up), t, Connecting(SwapLock)))
  {
    ConnLockAlone(m, s0, s, t, true);
    var l, u := s.(connMu := Writing(t)), s.(connMu := Writing(t), conn := Up);
    OneMore(m, s0, t, true, l, Connecting(Dialing), u, Connecting(Declaring));
    OneMore(m, s0, t, true, u, Connecting(Declaring), u, Connecting(SwapLock));
  }

  lemma ReplacedBy(m: Params, s: State, u: State, d: State, t: nat)
    requires u == s.(connMu := Writing(t), conn := Up, pools := s.pools + [[]]) && s.poolMu == UNLOCKED
    requires if s.pools == [] then d == u else Drained(m, u, d, |s.pools| - 1)
    ensures Replaced(m, s, d.(connMu := UNLOCKED))
  {
    SameLook(m, s, u);
    SameLook(m, d, d.(connMu := UNLOCKED));
  }

  /** establishConnection alone, with a broker that answers. */
  lemma EstablishAlone(m: Params, s0: State, s: State, t: nat) returns (n: State)
    requires t < |s.threads| && NobodyAtLocks(s) && Leads(m, s0, t, true, Go(s, t, Connecting(ConnLock)))
    ensures Replaced(m, s, n) && Leads(m, s0, t, true, Go(n, t, Warm(m.size)))
  {
    DialAlone(m, s0, s, t);
    SwapAlone(m, s0, s.(connMu := Writing(t), conn := Up), t);
    var u := s.(connMu := Writing(t), conn := Up, pools := s.pools + [[]]);
    var d := u;
    if s.pools != [] {
      d := DrainAlone(m, u, t, true, |s.pools| - 1, BySwap);
      Then(m, s0, t, true, Go(u, t, Drain(|s.pools| - 1, BySwap)), Go(d, t, Connecting(ConnUnlock(true))));
    }
    ReplacedBy(m, s, u, d, t);
    n := d.(connMu := UNLOCKED);
    OneMore(m, s0, t, true, d, Connecting(ConnUnlock(true)), n, Warm(m.size));
  }

  /** Without a broker the connection and the pool stay as they are; only the first connect gives up. */
  lemma DialFailsAlone(m: Params, s: State, t: nat)
    requires t < |s.threads| && NobodyAtLocks(s)
    ensures
      Leads(m, Go(s, t, Connecting(ConnLock)), t, false,
            Go(s, t, if s.pools == [] then Terminated else Watching(ReconnectCheck)))
  {
    var s0, l := Go(s, t, Connecting(ConnLock)), s.(connMu := Writing(t));
    AtStart(m, s0, t, false);
    ConnLockAlone(m, s0, s, t, false);
    OneMore(m, s0, t, false, l, Connecting(Dialing), l, Connecting(ConnUnlock(false)));
    OneMore(m, s0, t, false, l, Connecting(ConnUnlock(false)), s,
         if s.pools == [] then Terminated else Watching(ReconnectCheck));
  }

  /** When the exchange cannot be declared the new connection is closed, and the pool stays as it is. */
  lemma DeclareFailsAlone(m: Params, s: State, t: nat)
    requires t < |s.threads| && s.connMu == Writing(t)
    ensures
      Leads(m, Go(s, t, Connecting(Declaring)), t, false,
            Go(s.(conn := Ended, connMu := UNLOCKED), t,
               if s.pools == [] then Terminated else Watching(ReconnectCheck)))
  {
    var s0, d := Go(s, t, Connecting(Declaring)), s.(conn := Ended);
    AtStart(m, s0, t, false);
    OneMore(m, s0, t, false, s, Connecting(Declaring), d, Connecting(ConnUnlock(false)));
    OneMore(m, s0, t, false, d, Connecting(ConnUnlock(false)), d.(connMu := UNLOCKED),
         if s.pools == [] then Terminated else Watching(ReconnectCheck));
  }

  /** connect alone: the connection is up, with a new pool full of new channels; the old pool's are gone. */
  ghost predicate Connected(m: Params, s: State, n: State) {
    var v, w, gone := ViewOf(m, s), ViewOf(m, n), if s.pools == [] then {} else Chans(s.pools[|s.pools| - 1]);
    var added := NewEntries(|s.chans|, s.now, m.size);
    && NobodyAtLocks(n) && n.conn == Up && n.threads == s.threads
    && w.slots == Some(added) && w.closed == v.closed
    && w.live == v.live - gone + Chans(added) && w.meta == v.meta - gone
    && w.born == v.born + seq(m.size, _ => s.now)
  }

  lemma ConnectedBy(m: Params, s: State, e: State, n: State)
    requires Replaced(m, s, e) && Warmed(m, e, n, m.size)
    ensures Connected(m, s, n)
  {
    assert [] + NewEntries(|s.chans|, s.now, m.size) == NewEntries(|s.chans|, s.now, m.size);
    if m.size == 0 {
      assert Stocked(e.pools, NewEntries(|s.chans|, s.now, 0)) == e.pools;
    }
  }

  lemma ConnectAlone(m: Params, s0: State, s: State, t: nat) returns (n: State)
    requires t < |s.threads| && NobodyAtLocks(s) && Leads(m, s0, t, true, Go(s, t, Connecting(ConnLock)))
    ensures Connected(m, s, n) && Leads(m, s0, t, true, Go(n, t, Watching(WatchCheck)))
  {
    var e := EstablishAlone(m, s0, s, t);
    n := WarmAlone(m, e, t, true, m.size);
    Then(m, s0, t, true, Go(e, t, Warm(m.size)), Go(n, t, Watching(WatchCheck)));
    ConnectedBy(m, s, e, n);
  }

  lemma FindLeads(m: Params, s0: State, s: State, t: nat, ok: bool, who: Drainer)
    requires PoolFree(s, t) && Leads(m, s0, t, ok, Go(s, t, UsePool(Find(who, None), Locking)))
    ensures Leads(m, s0, t, ok, Go(s, t, if s.pools == [] then AfterDrain(who) else Drain(|s.pools| - 1, who)))
  {
    UseAlone(m, s, t, ok, Find(who, None));
    Then(m, s0, t, ok, Go(s, t, UsePool(Find(who, None), Locking)),
         Go(s, t, if s.pools == [] then AfterDrain(who) else Drain(|s.pools| - 1, who)));
  }

  /** The watcher alone, when it has lost the connection: it drains the pool and gets ready to reconnect. */
  lemma LostAlone(m: Params, s: State, t: nat) returns (d: State)
    requires PoolFree(s, t) && s.conn == Down && s.pools != [] && !s.closed
    ensures Drained(m, s, d, |s.pools| - 1) && (s.pools[|s.pools| - 1] == [] ==> d == s)
    ensures Leads(m, Go(s, t, Watching(WatchWait)), t, true, Go(d, t, Watching(ReconnectWait)))
  {
    var s0 := Go(s, t, Watching(WatchWait));
    AtStart(m, s0, t, true);
    OneMore(m, s0, t, true, s, Watching(WatchWait), s, UsePool(Find(ByWatcher, None), Locking));
    FindLeads(m, s0, s, t, true, ByWatcher);
    d := DrainAlone(m, s, t, true, |s.pools| - 1, ByWatcher);
    Then(m, s0, t, true, Go(s, t, Drain(|s.pools| - 1, ByWatcher)), Go(d, t, Watching(ReconnectCheck)));
    OneMore(m, s0, t, true, d, Watching(ReconnectCheck), d, Watching(ReconnectWait));
  }

  lemma DrainedThenConnected(m: Params, s: State, d: State, n: State)
    requires s.pools != [] && Drained(m, s, d, |s.pools| - 1) && Connected(m, d, n)
    ensures Connected(m, s, n)
  {
    assert Chans([]) == {};
  }

  /**
   * The watcher alone, from the lost connection to its next look: it drains the pool, reconnects, and leaves the
   * connection up with a new pool full of new channels.
   */
  lemma ReconnectAlone(m: Params, s: State, t: nat) returns (n: State)
    requires t < |s.threads| && NobodyAtLocks(s) && s.conn == Down && s.pools != [] && !s.closed
    ensures Connected(m, s, n) && Leads(m, Go(s, t, Watching(WatchWait)), t, true, Go(n, t, Watching(WatchCheck)))
  {
    var s0 := Go(s, t, Watching(WatchWait));
    var d := LostAlone(m, s, t);
    OneMore(m, s0, t, true, d, Watching(ReconnectWait), d, Connecting(ConnLock));
    n := ConnectAlone(m, s0, d, t);
    DrainedThenConnected(m, s, d, n);
  }

  // ----- Close -----

  lemma CloseLockAlone(m: Params, s: State, t: nat, ok: bool)
    requires t < |s.threads| && NobodyAtLocks(s) && !s.closed
    ensures
      Leads(m, Go(s, t, Shutting(CloseCheck)), t, ok,
            Go(s.(closed := true, connMu := Writing(t)), t, UsePool(Find(ByClose, None), Locking)))
  {
    var s0, c, w := Go(s, t, Shutting(CloseCheck)), s.(closed := true), RWLock({}, Some(t), false);
    AtStart(m, s0, t, ok);
    OneMore(m, s0, t, ok, s, Shutting(CloseCheck), c, Shutting(CloseLock));
    OneMore(m, s0, t, ok, c, Shutting(CloseLock), c.(connMu := w), Shutting(CloseWait));
    OneMore(m, s0, t, ok, c.(connMu := w), Shutting(CloseWait), c.(connMu := Writing(t)),
         UsePool(Find(ByClose, None), Locking));
  }

  function Disconnected(conn: Conn): Conn {
    if conn == Up then Ended else conn
  }

  lemma CloseEndsAlone(m: Params, s0: State, s: State, t: nat, ok: bool)
    requires t < |s.threads| && s.connMu == Writing(t) && Leads(m, s0, t, ok, Go(s, t, Shutting(Disconnect)))
    ensures Leads(m, s0, t, ok, Go(s.(conn := Disconnected(s.conn), connMu := UNLOCKED), t, Idle))
  {
    var x := s.(conn := Disconnected(s.conn));
    OneMore(m, s0, t, ok, s, Shutting(Disconnect), x, Shutting(CloseUnlock));
    OneMore(m, s0, t, ok, x, Shutting(CloseUnlock), x.(connMu := UNLOCKED), Idle);
  }

  /** Close alone, for the first time: closed, the current pool drained and the connection shut. */
  lemma CloseAlone(m: Params, s: State, t: nat, ok: bool) returns (n: State)
    requires t < |s.threads| && NobodyAtLocks(s) && !s.closed
    ensures t < |n.threads| && Leads(m, Go(s, t, Shutting(CloseCheck)), t, ok, Go(n, t, Idle))
    ensures
      var c := s.(closed := true, conn := Disconnected(s.conn));
      if s.pools == [] || s.pools[|s.pools| - 1] == [] then n == c else Drained(m, c, n, |s.pools| - 1)
  {
    var s0, l := Go(s, t, Shutting(CloseCheck)), s.(closed := true, connMu := Writing(t));
    CloseLockAlone(m, s, t, ok);
    FindLeads(m, s0, l, t, ok, ByClose);
    var d := l;
    if s.pools != [] {
      d := DrainAlone(m, l, t, ok, |s.pools| - 1, ByClose);
      Then(m, s0, t, ok, Go(l, t, Drain(|s.pools| - 1, ByClose)), Go(d, t, Shutting(Disconnect)));
    }
    CloseEndsAlone(m, s0, d, t, ok);
    n := d.(conn := Disconnected(s.conn), connMu := UNLOCKED);
    SameLook(m, s, l);
    SameLook(m, d, n);
  }
}
