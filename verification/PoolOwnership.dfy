/** Who has which channel: the ownership invariant of the pool, kept by every step of every thread. */
module PoolOwnership {
  import opened Options
  import opened PoolView
  import opened PoolMachine
  import opened PoolLocks

  // ----- what a thread has in hand -----

  function EntryChannel(e: Option<Entry>): Option<nat> {
    if e == None then None else Some(e.value.ch)
  }

  function EntryOf(pc: Pc): Option<Entry> {
    match pc
    case Inspect(_, e) => Some(e)
    case Borrowed(_, e) => Some(e)
    case ReturnCheck(e) => Some(e)
    case UsePool(job, _) => if job.Take? then job.got else if job.Give? then job.rest else None
    case _ => None
  }

  /** The channel a thread is working with. */
  function Hand(pc: Pc): Option<nat> {
    match pc
    case GiveBack(c) => Some(c)
    case GiveLoad(c) => Some(c)
    case Closing(c, _) => Some(c)
    case Forgetting(c, _) => Some(c)
    case WarmClose(c, _) => Some(c)
    case _ => EntryChannel(EntryOf(pc))
  }

  /** A pool under the read lock: the job's result appears only after the select. */
  predicate JobOk(s: State, job: Job, phase: Phase) {
    && (phase.Using? ==> phase.pool + 1 == |s.pools|)
    && match job
       case Take(_, got) => phase != Unlocking ==> got == None
       case Give(rest, _) => phase != Unlocking ==> rest.Some?
       case Find(who, found) =>
         && who != BySwap
         && (if phase != Unlocking then found == None
             else if found == None then s.pools == [] else found.value + 1 == |s.pools|)
  }

  /** Which pool a drainer works on: the retired one after a swap, the current one otherwise. */
  predicate DrainOk(s: State, p: nat, who: Drainer) {
    if who == BySwap then p + 2 == |s.pools| else p + 1 == |s.pools|
  }

  predicate PoolRefOk(s: State, pc: Pc) {
    match pc
    case UsePool(job, phase) => JobOk(s, job, phase)
    case Drain(p, who) => DrainOk(s, p, who)
    case Closing(_, next) => next.DrainMore? ==> DrainOk(s, next.pool, next.who)
    case Forgetting(_, next) => next.DrainMore? ==> DrainOk(s, next.pool, next.who)
    case Connecting(c) =>
      c.SwapUnlock? ==> if c.previous == None then |s.pools| == 1 else c.previous.value + 2 == |s.pools|
    case _ => true
  }

  /** Connecting, warming and watching are done by thread 0 alone; it drains as watcher or after a swap. */
  predicate MainOnly(pc: Pc) {
    match pc
    case Connecting(_) => true
    case Watching(_) => true
    case Warm(_) => true
    case WarmClose(_, _) => true
    case Opening(why, _) => why.ForWarm?
    case UsePool(job, _) => (job.Give? && job.giver.Warming?) || (job.Find? && job.who != ByClose)
    case Drain(_, who) => who != ByClose
    case Closing(_, next) => next.DrainMore? && next.who != ByClose
    case Forgetting(_, next) => next.DrainMore? && next.who != ByClose
    case _ => false
  }

  /** Thread 0 is emptying retired pool p. */
  predicate Emptying(pc: Pc, p: nat) {
    || pc == Connecting(SwapUnlock(Some(p)))
    || pc == Drain(p, BySwap)
    || (pc.Closing? && pc.next == DrainMore(p, BySwap))
    || (pc.Forgetting? && pc.next == DrainMore(p, BySwap))
  }

  predicate HandOk(s: State, t: nat, pc: Pc) {
    && (Hand(pc).Some? ==> Hand(pc).value < |s.chans| && s.chans[Hand(pc).value].place == With(t))
    && (EntryOf(pc).Some? ==> EntryOf(pc).value.ch < |s.chans|
                              && EntryOf(pc).value.createdAt == s.chans[EntryOf(pc).value.ch].born
                              && !s.chans[EntryOf(pc).value.ch].listening)
    && (pc.GiveBack? || pc.GiveLoad? ==> pc.ch in s.meta && pc.ch < |s.chans| && !s.chans[pc.ch].listening)
    && (pc.Forgetting? ==> !IsOpen(s, pc.ch))
    && (pc.WarmClose? ==> pc.ch !in s.meta)
    && (pc.UsePool? && pc.job.Give? && pc.job.giver.Warming? && pc.job.rest.Some? ==> pc.job.rest.value.ch !in s.meta)
  }

  predicate ThreadOk(s: State, t: nat)
    requires t < |s.threads|
  {
    && HandOk(s, t, s.threads[t])
    && PoolRefOk(s, s.threads[t])
    && (MainOnly(s.threads[t]) ==> t == 0)
  }

  // ----- channels and pools -----

  ghost predicate Holds(pool: seq<Entry>, c: nat) {
    exists i :: 0 <= i < |pool| && pool[i].ch == c
  }

  ghost predicate ChannelOk(s: State, c: nat)
    requires c < |s.chans|
  {
    && (c in s.meta ==> s.meta[c] == s.chans[c].born)
    && match s.chans[c].place
       case With(t) => t < |s.threads| && Hand(s.threads[t]) == Some(c)
       case InPool(p) => p < |s.pools| && Holds(s.pools[p], c)
       case Lent => c in s.meta && !s.chans[c].listening
       case Discarded => c !in s.meta && !s.chans[c].open
  }

  predicate EntryOk(s: State, p: nat, e: Entry) {
    && e.ch < |s.chans|
    && s.chans[e.ch].place == InPool(p)
    && s.chans[e.ch].born == e.createdAt
    && !s.chans[e.ch].listening
  }

  ghost predicate PoolOk(m: Params, s: State, p: nat)
    requires p < |s.pools|
  {
    && |s.pools[p]| <= m.size
    && (forall i :: 0 <= i < |s.pools[p]| ==> EntryOk(s, p, s.pools[p][i]))
    && (forall i, j :: 0 <= i < j < |s.pools[p]| ==> s.pools[p][i].ch != s.pools[p][j].ch)
    && (p + 1 < |s.pools| && s.pools[p] != [] ==> |s.threads| > 0 && Emptying(s.threads[0], p))
  }

  ghost predicate OwnInv(m: Params, s: State) {
    && |s.threads| > 0
    && (forall t :: 0 <= t < |s.threads| ==> ThreadOk(s, t))
    && (forall c :: 0 <= c < |s.chans| ==> ChannelOk(s, c))
    && (forall p :: 0 <= p < |s.pools| ==> PoolOk(m, s, p))
    && (forall c :: c in s.meta ==> c < |s.chans|)
  }

  // ----- the ways ownership changes -----

  predicate OneThread(s: State, n: State, t: nat) {
    t < |s.threads| && |n.threads| == |s.threads| && n.threads == s.threads[t := n.threads[t]]
  }

  /** Channels stay what and where they are; they may close, and thread t may set a listener on its own. */
  predicate SameChannels(s: State, n: State, t: nat) {
    && |n.chans| == |s.chans|
    && forall c :: 0 <= c < |s.chans| ==>
                     && n.chans[c].born == s.chans[c].born && n.chans[c].place == s.chans[c].place
                     && (n.chans[c].open ==> s.chans[c].open)
                     && (n.chans[c].listening == s.chans[c].listening || s.chans[c].place == With(t))
  }

  /** A step in which no channel changes hands. */
  lemma KeepKeeps(m: Params, s: State, n: State, t: nat)
    requires OwnInv(m, s) && OneThread(s, n, t) && SameChannels(s, n, t)
    requires n.pools == s.pools && n.meta == s.meta && Hand(n.threads[t]) == Hand(s.threads[t])
    requires ThreadOk(n, t)
    requires t == 0 ==> forall p :: 0 <= p < |s.pools| - 1 && s.pools[p] != [] && Emptying(s.threads[0], p) ==>
        Emptying(n.threads[0], p)
    ensures OwnInv(m, n)
  {
    forall u | 0 <= u < |n.threads| ensures ThreadOk(n, u) { assert ThreadOk(s, u); }
    forall c | 0 <= c < |n.chans| ensures ChannelOk(n, c) { assert ChannelOk(s, c); }
    forall p | 0 <= p < |n.pools| ensures PoolOk(m, n, p) { assert PoolOk(m, s, p); }
  }

  /** Thread t takes the first entry of a pool. */
  lemma ReceiveKeeps(m: Params, s: State, n: State, t: nat, p: nat)
    requires OwnInv(m, s) && OneThread(s, n, t) && n.meta == s.meta
    requires p < |s.pools| && s.pools[p] != [] && Hand(s.threads[t]) == None
    requires n.pools == s.pools[p := s.pools[p][1..]]
    requires s.pools[p][0].ch < |s.chans|
    requires n.chans == s.chans[s.pools[p][0].ch := s.chans[s.pools[p][0].ch].(place := With(t))]
    requires Hand(n.threads[t]) == Some(s.pools[p][0].ch) && ThreadOk(n, t)
    requires t == 0 ==> forall q :: 0 <= q < |s.pools| - 1 && s.pools[q] != [] && Emptying(s.threads[0], q) ==>
        Emptying(n.threads[0], q)
    ensures OwnInv(m, n)
  {
    var e := s.pools[p][0];
    assert PoolOk(m, s, p) && EntryOk(s, p, e);
    forall u | 0 <= u < |n.threads| ensures ThreadOk(n, u) { assert ThreadOk(s, u); }
    forall c | 0 <= c < |n.chans| ensures ChannelOk(n, c) {
      assert ChannelOk(s, c);
      if c != e.ch && s.chans[c].place == InPool(p) {
        var i :| 0 <= i < |s.pools[p]| && s.pools[p][i].ch == c;
        assert n.pools[p][i - 1].ch == c;
      }
    }
    forall q | 0 <= q < |n.pools| ensures PoolOk(m, n, q) {
      assert PoolOk(m, s, q);
      if q == p {
        forall i | 0 <= i < |n.pools[p]| ensures EntryOk(n, p, n.pools[p][i]) {
          assert n.pools[p][i] == s.pools[p][i + 1] && EntryOk(s, p, s.pools[p][i + 1]);
        }
      } else {
        forall i | 0 <= i < |n.pools[q]| ensures EntryOk(n, q, n.pools[q][i]) {
          assert EntryOk(s, q, s.pools[q][i]);
        }
      }
    }
  }

  /** Thread t puts the entry in its hand at the end of the current pool. */
  lemma SendKeeps(m: Params, s: State, n: State, t: nat, p: nat, e: Entry)
    requires OwnInv(m, s) && OneThread(s, n, t) && n.meta == s.meta
    requires p + 1 == |s.pools| && |s.pools[p]| < m.size && EntryOf(s.threads[t]) == Some(e)
    requires n.pools == s.pools[p := s.pools[p] + [e]]
    requires e.ch < |s.chans| && n.chans == s.chans[e.ch := s.chans[e.ch].(place := InPool(p))]
    requires Hand(n.threads[t]) == None && ThreadOk(n, t)
    requires t == 0 ==> forall q :: 0 <= q < |s.pools| - 1 ==> !Emptying(s.threads[0], q)
    ensures OwnInv(m, n)
  {
    assert ThreadOk(s, t) && Hand(s.threads[t]) == Some(e.ch);
    forall u | 0 <= u < |n.threads| ensures ThreadOk(n, u) { assert ThreadOk(s, u); }
    assert n.pools[p][|s.pools[p]|] == e;
    forall c | 0 <= c < |n.chans| ensures ChannelOk(n, c) {
      assert ChannelOk(s, c);
      if s.chans[c].place == InPool(p) {
        var i :| 0 <= i < |s.pools[p]| && s.pools[p][i].ch == c;
        assert n.pools[p][i].ch == c;
      }
    }
    forall q | 0 <= q < |n.pools| ensures PoolOk(m, n, q) {
      assert PoolOk(m, s, q);
      forall i | 0 <= i < |n.pools[q]| ensures EntryOk(n, q, n.pools[q][i]) {
        if i < |s.pools[q]| { assert EntryOk(s, q, s.pools[q][i]); }
      }
      if q == p {
        forall i, j | 0 <= i < j < |n.pools[p]| ensures n.pools[p][i].ch != n.pools[p][j].ch {
          assert EntryOk(s, p, s.pools[p][i]);
        }
      }
    }
  }

  /** Thread t has opened a channel. */
  lemma NewKeeps(m: Params, s: State, n: State, t: nat, born: int)
    requires OwnInv(m, s) && OneThread(s, n, t) && n.meta == s.meta && n.pools == s.pools
    requires n.chans == s.chans + [Channel(born, true, false, With(t))]
    requires Hand(s.threads[t]) == None && Hand(n.threads[t]) == Some(|s.chans|) && ThreadOk(n, t)
    requires t == 0 ==> forall p :: 0 <= p < |s.pools| ==> !Emptying(s.threads[0], p)
    ensures OwnInv(m, n)
  {
    forall u | 0 <= u < |n.threads| ensures ThreadOk(n, u) { assert ThreadOk(s, u); }
    forall c | 0 <= c < |n.chans| ensures ChannelOk(n, c) { if c < |s.chans| { assert ChannelOk(s, c); } }
    forall p | 0 <= p < |n.pools| ensures PoolOk(m, n, p) {
      assert PoolOk(m, s, p);
      forall i | 0 <= i < |n.pools[p]| ensures EntryOk(n, p, n.pools[p][i]) { assert EntryOk(s, p, s.pools[p][i]); }
    }
  }

  /** Thread t gives its channel away: to a user, or for good. */
  lemma GiveAwayKeeps(m: Params, s: State, n: State, t: nat, c: nat)
    requires OwnInv(m, s) && OneThread(s, n, t) && n.pools == s.pools
    requires Hand(s.threads[t]) == Some(c) && Hand(n.threads[t]) == None && ThreadOk(n, t)
    requires c < |s.chans| && |n.chans| == |s.chans| && n.chans == s.chans[c := n.chans[c]]
    requires n.chans[c].born == s.chans[c].born && (n.chans[c].place == Lent || n.chans[c].place == Discarded)
    requires forall d :: d != c ==> (d in n.meta <==> d in s.meta)
    requires forall d :: d != c && d in s.meta ==> n.meta[d] == s.meta[d]
    requires ChannelOk(n, c)
    requires t == 0 ==> forall p :: 0 <= p < |s.pools| - 1 && s.pools[p] != [] && Emptying(s.threads[0], p) ==>
        Emptying(n.threads[0], p)
    ensures OwnInv(m, n)
  {
    assert ThreadOk(s, t);
    forall u | 0 <= u < |n.threads| ensures ThreadOk(n, u) { assert ThreadOk(s, u); }
    forall d | 0 <= d < |n.chans| ensures ChannelOk(n, d) { assert ChannelOk(s, d); }
    forall p | 0 <= p < |n.pools| ensures PoolOk(m, n, p) {
      assert PoolOk(m, s, p);
      forall i | 0 <= i < |n.pools[p]| ensures EntryOk(n, p, n.pools[p][i]) { assert EntryOk(s, p, s.pools[p][i]); }
    }
  }

  /** A user's channel comes back to thread t. */
  lemma TakeBackKeeps(m: Params, s: State, n: State, t: nat, c: nat)
    requires OwnInv(m, s) && OneThread(s, n, t) && t != 0 && n.pools == s.pools && n.meta == s.meta
    requires s.threads[t] == Idle && n.threads[t] == GiveBack(c)
    requires c < |s.chans| && s.chans[c].place == Lent && n.chans == s.chans[c := s.chans[c].(place := With(t))]
    ensures OwnInv(m, n)
  {
    assert ChannelOk(s, c);
    forall u | 0 <= u < |n.threads| ensures ThreadOk(n, u) { assert ThreadOk(s, u); }
    forall d | 0 <= d < |n.chans| ensures ChannelOk(n, d) { assert ChannelOk(s, d); }
    forall p | 0 <= p < |n.pools| ensures PoolOk(m, n, p) {
      assert PoolOk(m, s, p);
      forall i | 0 <= i < |n.pools[p]| ensures EntryOk(n, p, n.pools[p][i]) { assert EntryOk(s, p, s.pools[p][i]); }
    }
  }

  /** The swap: nobody else refers to a pool while the writer is in. */
  lemma SwapKeeps(m: Params, s: State, n: State)
    requires OwnInv(m, s) && LockInv(s)
    requires OneThread(s, n, 0) && s.threads[0] == Connecting(Swap)
        && n.threads[0] == Connecting(SwapUnlock(CurrentPool(s)))
    requires n.pools == s.pools + [[]] && n.chans == s.chans && n.meta == s.meta
    ensures OwnInv(m, n)
  {
    forall u | 0 <= u < |n.threads| ensures ThreadOk(n, u) {
      assert ThreadOk(s, u);
      if u != 0 {
        WriterIsAloneIn(s, 0, u);
        NoPoolRef(s, u);
      }
    }
    forall c | 0 <= c < |n.chans| ensures ChannelOk(n, c) { assert ChannelOk(s, c); }
    forall p | 0 <= p < |n.pools| ensures PoolOk(m, n, p) {
      if p < |s.pools| {
        assert PoolOk(m, s, p);
        forall i | 0 <= i < |n.pools[p]| ensures EntryOk(n, p, n.pools[p][i]) { assert EntryOk(s, p, s.pools[p][i]); }
      }
    }
  }

  /** A thread other than the main one that is at neither lock refers to no pool. */
  lemma NoPoolRef(s: State, u: nat)
    requires u < |s.threads| && u != 0 && ThreadOk(s, u)
    requires PoolMode(s.threads[u]) == Off && ConnMode(s.threads[u]) == Off
    ensures forall n: State :: PoolRefOk(n, s.threads[u])
  {
  }

  // ----- one lemma per part of a thread -----

  lemma CheckStepKeeps(m: Params, s: State, t: nat, ok: bool)
    requires OwnInv(m, s) && t < |s.threads| && ThreadStep(m, s, t, ok).Some?
    requires s.threads[t].BorrowCheck? || s.threads[t].Inspect? || s.threads[t].GiveBack? || s.threads[t].ReturnCheck?
    ensures OwnInv(m, ThreadStep(m, s, t, ok).value)
  {
    assert ThreadOk(s, t);
    KeepKeeps(m, s, ThreadStep(m, s, t, ok).value, t);
  }

  /** The creation time restored by ReturnChannel is the recorded one: there always is one. */
  lemma GiveLoadKeeps(m: Params, s: State, t: nat, c: nat, ok: bool)
    requires OwnInv(m, s) && t < |s.threads| && s.threads[t] == GiveLoad(c)
    ensures ThreadStep(m, s, t, ok).Some? && OwnInv(m, ThreadStep(m, s, t, ok).value)
  {
    assert ThreadOk(s, t) && ChannelOk(s, c);
    KeepKeeps(m, s, ThreadStep(m, s, t, ok).value, t);
  }

  lemma OpenStepKeeps(m: Params, s: State, t: nat, why: Why, open: OpenPhase, ok: bool)
    requires OwnInv(m, s) && t < |s.threads| && s.threads[t] == Opening(why, open)
        && OpenStep(s, t, why, open, ok).Some?
    ensures OwnInv(m, OpenStep(s, t, why, open, ok).value)
  {
    var n := OpenStep(s, t, why, open, ok).value;
    assert ThreadOk(s, t);
    if open == Network && ok {
      assert |s.chans| !in s.meta;
      NewKeeps(m, s, n, t, s.now);
    } else {
      KeepKeeps(m, s, n, t);
    }
  }

  lemma BorrowedKeeps(m: Params, s: State, t: nat, use: Use, e: Entry)
    requires OwnInv(m, s) && t < |s.threads| && s.threads[t] == Borrowed(use, e)
    ensures OwnInv(m, UseChannel(s, t, use, e))
  {
    var n := UseChannel(s, t, use, e);
    assert ThreadOk(s, t) && ChannelOk(s, e.ch);
    if use == User {
      GiveAwayKeeps(m, s, n, t, e.ch);
    } else {
      KeepKeeps(m, s, n, t);
    }
  }

  lemma TakeStepKeeps(m: Params, s: State, t: nat, use: Use, got: Option<Entry>, p: nat)
    requires OwnInv(m, s) && t < |s.threads| && s.threads[t] == UsePool(Take(use, got), Using(p))
    ensures OwnInv(m, UseStep(m, s, t, Take(use, got), p))
  {
    var n := UseStep(m, s, t, Take(use, got), p);
    assert ThreadOk(s, t) && PoolOk(m, s, p);
    if s.pools[p] == [] {
      KeepKeeps(m, s, n, t);
    } else {
      assert EntryOk(s, p, s.pools[p][0]);
      ReceiveKeeps(m, s, n, t, p);
    }
  }

  lemma GiveStepKeeps(m: Params, s: State, t: nat, e: Entry, giver: Giver, p: nat)
    requires OwnInv(m, s) && t < |s.threads| && s.threads[t] == UsePool(Give(Some(e), giver), Using(p))
    ensures OwnInv(m, UseStep(m, s, t, Give(Some(e), giver), p))
  {
    var n := UseStep(m, s, t, Give(Some(e), giver), p);
    assert ThreadOk(s, t) && PoolOk(m, s, p);
    if |s.pools[p]| >= m.size {
      KeepKeeps(m, s, n, t);
    } else {
      SendKeeps(m, s, n, t, p, e);
    }
  }

  lemma PoolStepKeeps(m: Params, s: State, t: nat, job: Job, phase: Phase)
    requires OwnInv(m, s) && t < |s.threads| && s.threads[t] == UsePool(job, phase)
        && PoolStep(m, s, t, job, phase).Some?
    ensures OwnInv(m, PoolStep(m, s, t, job, phase).value)
  {
    var n := PoolStep(m, s, t, job, phase).value;
    assert ThreadOk(s, t);
    if phase.Using? && job.Take? {
      TakeStepKeeps(m, s, t, job.use, job.got, phase.pool);
    } else if phase.Using? && job.Give? {
      GiveStepKeeps(m, s, t, job.rest.value, job.giver, phase.pool);
    } else if phase == Unlocking {
      ReleaseKeeps(m, s, t, job);
    } else {
      KeepKeeps(m, s, n, t);
    }
  }

  lemma ReleaseKeeps(m: Params, s: State, t: nat, job: Job)
    requires OwnInv(m, s) && t < |s.threads| && s.threads[t] == UsePool(job, Unlocking)
    ensures OwnInv(m, Go(UnreadPool(s, t), t, AfterPool(job)))
  {
    assert ThreadOk(s, t);
    KeepKeeps(m, s, Go(UnreadPool(s, t), t, AfterPool(job)), t);
  }

  lemma ClosingKeeps(m: Params, s: State, t: nat, ok: bool)
    requires OwnInv(m, s) && t < |s.threads| && s.threads[t].Closing?
    ensures ThreadStep(m, s, t, ok).Some? && OwnInv(m, ThreadStep(m, s, t, ok).value)
  {
    assert ThreadOk(s, t) && ChannelOk(s, s.threads[t].ch);
    KeepKeeps(m, s, ThreadStep(m, s, t, ok).value, t);
  }

  lemma ForgettingKeeps(m: Params, s: State, t: nat, ok: bool)
    requires OwnInv(m, s) && t < |s.threads| && s.threads[t].Forgetting?
    ensures ThreadStep(m, s, t, ok).Some? && OwnInv(m, ThreadStep(m, s, t, ok).value)
  {
    assert ThreadOk(s, t) && ChannelOk(s, s.threads[t].ch);
    GiveAwayKeeps(m, s, ThreadStep(m, s, t, ok).value, t, s.threads[t].ch);
  }

  lemma WarmCloseKeeps(m: Params, s: State, t: nat, ok: bool)
    requires OwnInv(m, s) && t < |s.threads| && s.threads[t].WarmClose?
    ensures ThreadStep(m, s, t, ok).Some? && OwnInv(m, ThreadStep(m, s, t, ok).value)
  {
    assert ThreadOk(s, t) && ChannelOk(s, s.threads[t].ch);
    GiveAwayKeeps(m, s, ThreadStep(m, s, t, ok).value, t, s.threads[t].ch);
  }

  lemma DrainKeeps(m: Params, s: State, t: nat, p: nat, who: Drainer)
    requires OwnInv(m, s) && t < |s.threads| && s.threads[t] == Drain(p, who)
    ensures OwnInv(m, DrainStep(s, t, p, who))
  {
    var n := DrainStep(s, t, p, who);
    assert ThreadOk(s, t) && PoolOk(m, s, p);
    if s.pools[p] == [] {
      KeepKeeps(m, s, n, t);
    } else {
      assert EntryOk(s, p, s.pools[p][0]);
      ReceiveKeeps(m, s, n, t, p);
    }
  }

  lemma WarmKeeps(m: Params, s: State, t: nat, left: nat, ok: bool)
    requires OwnInv(m, s) && t < |s.threads| && s.threads[t] == Warm(left)
    ensures ThreadStep(m, s, t, ok).Some? && OwnInv(m, ThreadStep(m, s, t, ok).value)
  {
    assert ThreadOk(s, t);
    KeepKeeps(m, s, ThreadStep(m, s, t, ok).value, t);
  }

  lemma SwapStepKeeps(m: Params, s: State, t: nat, ok: bool)
    requires OwnInv(m, s) && LockInv(s) && t < |s.threads| && s.threads[t] == Connecting(Swap)
    ensures ConnectStep(m, s, t, Swap, ok).Some? && OwnInv(m, ConnectStep(m, s, t, Swap, ok).value)
  {
    assert ThreadOk(s, t);
    SwapKeeps(m, s, ConnectStep(m, s, t, Swap, ok).value);
  }

  predicate ForLock(c: ConnectPc) {
    c == ConnLock || c == ConnWait || c == SwapLock || c == SwapWait
  }

  lemma ConnectLockKeeps(m: Params, s: State, t: nat, c: ConnectPc, ok: bool)
    requires OwnInv(m, s) && ForLock(c)
    requires t < |s.threads| && s.threads[t] == Connecting(c) && ConnectStep(m, s, t, c, ok).Some?
    ensures OwnInv(m, ConnectStep(m, s, t, c, ok).value)
  {
    assert ThreadOk(s, t);
    KeepKeeps(m, s, ConnectStep(m, s, t, c, ok).value, t);
  }

  lemma ConnectKeeps(m: Params, s: State, t: nat, c: ConnectPc, ok: bool)
    requires OwnInv(m, s) && c != Swap && !ForLock(c)
    requires t < |s.threads| && s.threads[t] == Connecting(c) && ConnectStep(m, s, t, c, ok).Some?
    ensures OwnInv(m, ConnectStep(m, s, t, c, ok).value)
  {
    assert ThreadOk(s, t);
    KeepKeeps(m, s, ConnectStep(m, s, t, c, ok).value, t);
  }

  lemma WatchKeeps(m: Params, s: State, t: nat, w: WatchPc, ok: bool)
    requires OwnInv(m, s) && t < |s.threads| && s.threads[t] == Watching(w) && WatchStep(s, t, w, ok).Some?
    ensures OwnInv(m, WatchStep(s, t, w, ok).value)
  {
    assert ThreadOk(s, t);
    KeepKeeps(m, s, WatchStep(s, t, w, ok).value, t);
  }

  lemma ShutKeeps(m: Params, s: State, t: nat, c: ClosePc)
    requires OwnInv(m, s) && t < |s.threads| && s.threads[t] == Shutting(c) && CloseStep(s, t, c).Some?
    ensures OwnInv(m, CloseStep(s, t, c).value)
  {
    assert ThreadOk(s, t);
    KeepKeeps(m, s, CloseStep(s, t, c).value, t);
  }

  lemma ThreadStepKeeps(m: Params, s: State, t: nat, ok: bool)
    requires OwnInv(m, s) && LockInv(s) && t < |s.threads| && ThreadStep(m, s, t, ok).Some?
    ensures OwnInv(m, ThreadStep(m, s, t, ok).value)
  {
    match s.threads[t] {
      case Opening(why, open) => OpenStepKeeps(m, s, t, why, open, ok);
      case Borrowed(use, e) => BorrowedKeeps(m, s, t, use, e);
      case GiveLoad(c) => GiveLoadKeeps(m, s, t, c, ok);
      case UsePool(job, phase) => PoolStepKeeps(m, s, t, job, phase);
      case Closing(_, _) => ClosingKeeps(m, s, t, ok);
      case Forgetting(_, _) => ForgettingKeeps(m, s, t, ok);
      case WarmClose(_, _) => WarmCloseKeeps(m, s, t, ok);
      case Warm(left) => WarmKeeps(m, s, t, left, ok);
      case Drain(p, who) => DrainKeeps(m, s, t, p, who);
      case Connecting(c) =>
        if c == Swap {
          SwapStepKeeps(m, s, t, ok);
        } else if ForLock(c) {
          ConnectLockKeeps(m, s, t, c, ok);
        } else {
          ConnectKeeps(m, s, t, c, ok);
        }
      case Watching(w) => WatchKeeps(m, s, t, w, ok);
      case Shutting(c) => ShutKeeps(m, s, t, c);
      case _ => CheckStepKeeps(m, s, t, ok);
    }
  }

  lemma EnvironmentKeeps(m: Params, s: State, n: State)
    requires OwnInv(m, s) && n.pools == s.pools && n.meta == s.meta
    requires |s.threads| <= |n.threads| && s.threads == n.threads[..|s.threads|]
    requires forall t :: |s.threads| <= t < |n.threads| ==> n.threads[t] == Idle
    requires |n.chans| == |s.chans|
    requires forall c :: 0 <= c < |s.chans| ==> n.chans[c] == s.chans[c] || n.chans[c] == s.chans[c].(open := false)
    ensures OwnInv(m, n)
  {
    assert forall t :: 0 <= t < |s.threads| ==> n.threads[t] == n.threads[..|s.threads|][t];
    forall u | 0 <= u < |n.threads| ensures ThreadOk(n, u) { if u < |s.threads| { assert ThreadOk(s, u); } }
    forall d | 0 <= d < |n.chans| ensures ChannelOk(n, d) { assert ChannelOk(s, d); }
    forall p | 0 <= p < |n.pools| ensures PoolOk(m, n, p) {
      assert PoolOk(m, s, p);
      forall i | 0 <= i < |n.pools[p]| ensures EntryOk(n, p, n.pools[p][i]) { assert EntryOk(s, p, s.pools[p][i]); }
    }
  }

  lemma BeginKeeps(m: Params, s: State, t: nat, op: Op)
    requires OwnInv(m, s) && BeginOp(s, t, op).Some?
    ensures OwnInv(m, BeginOp(s, t, op).value)
  {
    var n := BeginOp(s, t, op).value;
    assert ThreadOk(s, t);
    if op.DoReturn? {
      TakeBackKeeps(m, s, n, t, op.ch);
    } else {
      KeepKeeps(m, s, n, t);
    }
  }

  lemma StepKeepsOwnership(m: Params, s: State, action: Action)
    requires OwnInv(m, s) && LockInv(s) && Step(m, s, action).Some?
    ensures OwnInv(m, Step(m, s, action).value)
  {
    match action {
      case Run(t, ok) => ThreadStepKeeps(m, s, t, ok);
      case Begin(t, op) => BeginKeeps(m, s, t, op);
      case _ => EnvironmentKeeps(m, s, Step(m, s, action).value);
    }
  }

  lemma {:induction false} RunsKeepOwnership(m: Params, run: seq<Action>)
    requires Exec(m, run).Some?
    ensures OwnInv(m, Exec(m, run).value)
  {
    if run != [] {
      RunsKeepOwnership(m, run[..|run| - 1]);
      RunsKeepLocks(m, run[..|run| - 1]);
      StepKeepsOwnership(m, Exec(m, run[..|run| - 1]).value, run[|run| - 1]);
    }
  }
}
