/**
 * The publisher's pool of confirm channels as a state machine of threads. A thread's program counter says
 * which lock, select or check of the source it is at; every interleaving is a sequence of actions.
 */
module PoolMachine {
  import opened Options
  import opened PoolView

  /** Who has a channel: a pool, the thread working with it, a user of GetChannel, or nobody any more. */
  datatype Place = InPool(pool: nat) | With(thread: nat) | Lent | Discarded

  /** `born` is the time of creation, `listening` whether a publish registered a return listener on it. */
  datatype Channel = Channel(born: int, open: bool, listening: bool, place: Place)

  /** What a channel is borrowed for. */
  datatype Use = Publish(mandatory: bool) | User

  /** What a channel is opened for: a borrower, or the warm-up loop with `left` attempts to go. */
  datatype Why = ForBorrow(use: Use) | ForWarm(left: nat)

  /** Who drains a pool. */
  datatype Drainer = ByWatcher | ByClose | BySwap

  /** What follows after closing and forgetting a channel. */
  datatype Next = Stop | OpenNew(use: Use) | DrainMore(pool: nat, who: Drainer)

  /** Where a channel that goes to the pool comes from: a return, or the warm-up loop. */
  datatype Giver = Back | Warming(left: nat)

  /**
   * What is done with the pool under the read lock: a receive with what it got, a send with what is still to
   * be placed, or only finding the current pool.
   */
  datatype Job =
    | Take(use: Use, got: Option<Entry>)
    | Give(rest: Option<Entry>, giver: Giver)
    | Find(who: Drainer, found: Option<nat>)

  /** RLock, then `pool := p.channelPool`, then the select on that pool, then RUnlock. */
  datatype Phase = Locking | Reading | Using(pool: nat) | Unlocking

  /** createConfirmChannel: read the connection under its lock, then open the channel. */
  datatype OpenPhase = ConnLocking | ConnReading | Network

  /** establishConnection. */
  datatype ConnectPc =
    | ConnLock | ConnWait | Dialing | Declaring
    | SwapLock | SwapWait | Swap | SwapUnlock(previous: Option<nat>)
    | ConnUnlock(ok: bool)

  /** watchConnection and reconnect. */
  datatype WatchPc = WatchCheck | WatchLock | WatchRead | WatchWait | ReconnectCheck | ReconnectWait

  /** Close. */
  datatype ClosePc = CloseCheck | CloseLock | CloseWait | Disconnect | CloseUnlock

  datatype Pc =
    | Idle
    | Terminated
    | BorrowCheck(use: Use)                          // borrowChannel: closed?
    | Inspect(use: Use, entry: Entry)                // borrowChannel: still open and young enough?
    | Opening(why: Why, open: OpenPhase)
    | Borrowed(use: Use, entry: Entry)
    | GiveBack(ch: nat)                              // ReturnChannel: closed meanwhile?
    | GiveLoad(ch: nat)                              // ReturnChannel: look up the creation time
    | ReturnCheck(entry: Entry)                      // returnPooled: channel or publisher closed?
    | UsePool(job: Job, phase: Phase)
    | Closing(ch: nat, next: Next)                   // ch.Close
    | Forgetting(ch: nat, next: Next)                // channelMeta.Delete
    | Warm(left: nat)                                // warmChannelPool: next attempt
    | WarmClose(ch: nat, left: nat)
    | Drain(pool: nat, who: Drainer)                 // drainPool: next receive
    | Connecting(connect: ConnectPc)
    | Watching(watch: WatchPc)
    | Shutting(shut: ClosePc)

  /**
   * A reader-writer lock as Go has it: a writer first announces itself, which holds off new readers, and is
   * `active` once the readers are gone.
   */
  datatype RWLock = RWLock(readers: set<nat>, writer: Option<nat>, active: bool)

  const UNLOCKED: RWLock := RWLock({}, None, false)

  /** The connection is lost (`Down`), or the publisher has closed it itself (`Ended`). */
  datatype Conn = NoConn | Up | Down | Ended

  datatype Params = Params(size: nat, maxAge: int)

  /** `pools` lists every pool ever made; the last one is the publisher's current pool. */
  datatype State = State(
    now: int, closed: bool, conn: Conn, connMu: RWLock, poolMu: RWLock,
    pools: seq<seq<Entry>>, meta: map<nat, int>, chans: seq<Channel>, threads: seq<Pc>)

  datatype Op = DoPublish(mandatory: bool) | DoGet | DoReturn(ch: nat) | DoClose

  datatype Action =
    | Tick(elapsed: nat)
    | ChannelDies(ch: nat)
    | ConnDies
    | Spawn
    | Begin(thread: nat, op: Op)
    | Run(thread: nat, ok: bool)

  function CurrentPool(s: State): Option<nat> {
    if s.pools == [] then None else Some(|s.pools| - 1)
  }

  // ----- small updates -----

  function Go(s: State, t: nat, pc: Pc): State
    requires t < |s.threads|
  {
    s.(threads := s.threads[t := pc])
  }

  function Move(s: State, c: nat, place: Place): State {
    if c < |s.chans| then s.(chans := s.chans[c := s.chans[c].(place := place)]) else s
  }

  function Shut(s: State, c: nat): State {
    if c < |s.chans| then s.(chans := s.chans[c := s.chans[c].(open := false)]) else s
  }

  function Listen(s: State, c: nat): State {
    if c < |s.chans| then s.(chans := s.chans[c := s.chans[c].(listening := true)]) else s
  }

  predicate IsOpen(s: State, c: nat) {
    c < |s.chans| && s.chans[c].open
  }

  function ReadPool(s: State, t: nat): State { s.(poolMu := s.poolMu.(readers := s.poolMu.readers + {t})) }
  function UnreadPool(s: State, t: nat): State { s.(poolMu := s.poolMu.(readers := s.poolMu.readers - {t})) }
  function ReadConn(s: State, t: nat): State { s.(connMu := s.connMu.(readers := s.connMu.readers + {t})) }
  function UnreadConn(s: State, t: nat): State { s.(connMu := s.connMu.(readers := s.connMu.readers - {t})) }

  /** A non-blocking receive from a pool. */
  function Receive(s: State, t: nat, p: nat): (State, Option<Entry>) {
    if p >= |s.pools| || s.pools[p] == [] then (s, None)
    else
      var e := s.pools[p][0];
      (Move(s.(pools := s.pools[p := s.pools[p][1..]]), e.ch, With(t)), Some(e))
  }

  /** A non-blocking send to a pool; what is left over when it is full. */
  function Send(m: Params, s: State, p: nat, e: Entry): (State, Option<Entry>) {
    if p >= |s.pools| || |s.pools[p]| >= m.size then (s, Some(e))
    else (Move(s.(pools := s.pools[p := s.pools[p] + [e]]), e.ch, InPool(p)), None)
  }

  /** Where a thread goes when opening a channel fails. */
  function OpenFailed(why: Why): Pc {
    match why
    case ForBorrow(_) => Idle
    case ForWarm(left) => Warm(left)
  }

  function Opened(why: Why, e: Entry): Pc {
    match why
    case ForBorrow(use) => Borrowed(use, e)
    case ForWarm(left) => UsePool(Give(Some(e), Warming(left)), Locking)
  }

  function AfterForget(next: Next): Pc {
    match next
    case Stop => Idle
    case OpenNew(use) => Opening(ForBorrow(use), ConnLocking)
    case DrainMore(p, who) => Drain(p, who)
  }

  function AfterDrain(who: Drainer): Pc {
    match who
    case ByWatcher => Watching(ReconnectCheck)
    case ByClose => Shutting(Disconnect)
    case BySwap => Connecting(ConnUnlock(true))
  }

  /** Where a thread goes once it has released the read lock. */
  function AfterPool(job: Job): Pc {
    match job
    case Take(use, None) => Opening(ForBorrow(use), ConnLocking)
    case Take(use, Some(e)) => Inspect(use, e)
    case Give(None, Back) => Idle
    case Give(Some(e), Back) => Closing(e.ch, Stop)
    case Give(None, Warming(left)) => Warm(left)
    case Give(Some(e), Warming(left)) => WarmClose(e.ch, left)
    case Find(who, None) => AfterDrain(who)
    case Find(who, Some(p)) => Drain(p, who)
  }

  // ----- the steps of a thread; None while it cannot move -----

  function PoolStep(m: Params, s: State, t: nat, job: Job, phase: Phase): Option<State>
    requires t < |s.threads|
  {
    match phase
    case Locking => if s.poolMu.writer != None then None else Some(Go(ReadPool(s, t), t, UsePool(job, Reading)))
    case Reading =>
      Some(Go(s, t, UsePool(job, if CurrentPool(s) == None then Unlocking else Using(CurrentPool(s).value))))
    case Using(p) => Some(UseStep(m, s, t, job, p))
    case Unlocking => Some(Go(UnreadPool(s, t), t, AfterPool(job)))
  }

  function UseStep(m: Params, s: State, t: nat, job: Job, p: nat): State
    requires t < |s.threads|
  {
    match job
    case Take(use, _) =>
      var (n, got) := Receive(s, t, p);
      Go(n, t, UsePool(Take(use, got), Unlocking))
    case Give(None, _) => Go(s, t, UsePool(job, Unlocking))
    case Give(Some(e), giver) =>
      var (n, rest) := Send(m, s, p, e);
      Go(n, t, UsePool(Give(rest, giver), Unlocking))
    case Find(who, _) => Go(s, t, UsePool(Find(who, Some(p)), Unlocking))
  }

  function OpenStep(s: State, t: nat, why: Why, open: OpenPhase, ok: bool): Option<State>
    requires t < |s.threads|
  {
    match open
    case ConnLocking =>
      if s.connMu.writer != None then None else Some(Go(ReadConn(s, t), t, Opening(why, ConnReading)))
    case ConnReading =>
      Some(Go(UnreadConn(s, t), t, if s.conn == Up then Opening(why, Network) else OpenFailed(why)))
    case Network =>
      if !ok then Some(Go(s, t, OpenFailed(why)))
      else
        var e := Entry(|s.chans|, s.now);
        Some(Go(s.(chans := s.chans + [Channel(s.now, true, false, With(t))]), t, Opened(why, e)))
  }

  function UseChannel(s: State, t: nat, use: Use, e: Entry): State
    requires t < |s.threads|
  {
    match use
    case Publish(true) => Go(Listen(s, e.ch), t, Closing(e.ch, Stop))
    case Publish(false) => Go(s, t, ReturnCheck(e))
    case User => Go(Move(s.(meta := s.meta[e.ch := e.createdAt]), e.ch, Lent), t, Idle)
  }

  function ConnectStep(m: Params, s: State, t: nat, c: ConnectPc, ok: bool): Option<State>
    requires t < |s.threads|
  {
    match c
    case ConnLock =>
      if s.connMu.writer != None then None
      else Some(Go(s.(connMu := s.connMu.(writer := Some(t))), t, Connecting(ConnWait)))
    case ConnWait =>
      if s.connMu.readers != {} then None else Some(Go(s.(connMu := s.connMu.(active := true)), t, Connecting(Dialing)))
    case Dialing =>
      Some(if ok then Go(s.(conn := Up), t, Connecting(Declaring)) else Go(s, t, Connecting(ConnUnlock(false))))
    case Declaring =>
      Some(if ok then Go(s, t, Connecting(SwapLock)) else Go(s.(conn := Ended), t, Connecting(ConnUnlock(false))))
    case SwapLock =>
      if s.poolMu.writer != None then None
      else Some(Go(s.(poolMu := s.poolMu.(writer := Some(t))), t, Connecting(SwapWait)))
    case SwapWait =>
      if s.poolMu.readers != {} then None else Some(Go(s.(poolMu := s.poolMu.(active := true)), t, Connecting(Swap)))
    case Swap => Some(Go(s.(pools := s.pools + [[]]), t, Connecting(SwapUnlock(CurrentPool(s)))))
    case SwapUnlock(previous) =>
      Some(Go(s.(poolMu := s.poolMu.(writer := None, active := false)), t,
              if previous == None then Connecting(ConnUnlock(true)) else Drain(previous.value, BySwap)))
    case ConnUnlock(connected) =>
      Some(Go(s.(connMu := s.connMu.(writer := None, active := false)), t,
              if connected then Warm(m.size) else if s.pools == [] then Terminated else Watching(ReconnectCheck)))
  }

  /**
   * The watcher sees a lost connection (`ok`) or a graceful close, which is also what it sees of a connection that
   * has ended before it listens. A reconnect looks at `closed` before it waits; the wait may end by its timer (`ok`)
   * although the publisher has been closed meanwhile.
   */
  function WatchStep(s: State, t: nat, w: WatchPc, ok: bool): Option<State>
    requires t < |s.threads|
  {
    match w
    case WatchCheck => Some(Go(s, t, if s.closed then Terminated else Watching(WatchLock)))
    case WatchLock =>
      if s.connMu.writer != None then None else Some(Go(ReadConn(s, t), t, Watching(WatchRead)))
    case WatchRead =>
      Some(Go(UnreadConn(s, t), t,
              if s.conn == NoConn then Watching(WatchCheck)
              else if s.conn == Up then Watching(WatchWait)
              else Terminated))
    case WatchWait =>
      if s.conn == Down then Some(Go(s, t, if ok then UsePool(Find(ByWatcher, None), Locking) else Terminated))
      else if s.conn == Ended || s.closed then Some(Go(s, t, Terminated))
      else None
    case ReconnectCheck => Some(Go(s, t, if s.closed then Terminated else Watching(ReconnectWait)))
    case ReconnectWait => Some(Go(s, t, if s.closed && !ok then Terminated else Connecting(ConnLock)))
  }

  function CloseStep(s: State, t: nat, c: ClosePc): Option<State>
    requires t < |s.threads|
  {
    match c
    case CloseCheck => Some(if s.closed then Go(s, t, Idle) else Go(s.(closed := true), t, Shutting(CloseLock)))
    case CloseLock =>
      if s.connMu.writer != None then None
      else Some(Go(s.(connMu := s.connMu.(writer := Some(t))), t, Shutting(CloseWait)))
    case CloseWait =>
      if s.connMu.readers != {} then None
      else Some(Go(s.(connMu := s.connMu.(active := true)), t, UsePool(Find(ByClose, None), Locking)))
    case Disconnect => Some(Go(s.(conn := if s.conn == Up then Ended else s.conn), t, Shutting(CloseUnlock)))
    case CloseUnlock => Some(Go(s.(connMu := s.connMu.(writer := None, active := false)), t, Idle))
  }

  function DrainStep(s: State, t: nat, p: nat, who: Drainer): State
    requires t < |s.threads|
  {
    var (n, got) := Receive(s, t, p);
    Go(n, t, if got == None then AfterDrain(who) else Closing(got.value.ch, DrainMore(p, who)))
  }

  function ThreadStep(m: Params, s: State, t: nat, ok: bool): Option<State>
    requires t < |s.threads|
  {
    match s.threads[t]
    case Idle => None
    case Terminated => None
    case BorrowCheck(use) => Some(Go(s, t, if s.closed then Idle else UsePool(Take(use, None), Locking)))
    case Inspect(use, e) =>
      Some(Go(s, t, if !IsOpen(s, e.ch) || s.now - e.createdAt > m.maxAge then Closing(e.ch, OpenNew(use))
                    else Borrowed(use, e)))
    case Opening(why, open) => OpenStep(s, t, why, open, ok)
    case Borrowed(use, e) => Some(UseChannel(s, t, use, e))
    case GiveBack(c) => Some(Go(s, t, if IsOpen(s, c) then GiveLoad(c) else Forgetting(c, Stop)))
    case GiveLoad(c) => Some(Go(s, t, ReturnCheck(Entry(c, if c in s.meta then s.meta[c] else s.now))))
    case ReturnCheck(e) =>
      Some(Go(s, t, if !IsOpen(s, e.ch) || s.closed then Closing(e.ch, Stop) else UsePool(Give(Some(e), Back),
          Locking)))
    case UsePool(job, phase) => PoolStep(m, s, t, job, phase)
    case Closing(c, next) => Some(Go(Shut(s, c), t, Forgetting(c, next)))
    case Forgetting(c, next) => Some(Go(Move(s.(meta := s.meta - {c}), c, Discarded), t, AfterForget(next)))
    case Warm(left) => Some(Go(s, t, if left == 0 then Watching(WatchCheck) else Opening(ForWarm(left - 1),
        ConnLocking)))
    case WarmClose(c, left) => Some(Go(Move(Shut(s, c), c, Discarded), t, Warm(left)))
    case Drain(p, who) => Some(DrainStep(s, t, p, who))
    case Connecting(c) => ConnectStep(m, s, t, c, ok)
    case Watching(w) => WatchStep(s, t, w, ok)
    case Shutting(c) => CloseStep(s, t, c)
  }

  /** The first connect comes before any call. A user returns only a channel it has borrowed and not returned yet. */
  function BeginOp(s: State, t: nat, op: Op): Option<State> {
    if t >= |s.threads| || t == 0 || s.threads[t] != Idle || s.pools == [] then None
    else
      match op
      case DoPublish(mandatory) => Some(Go(s, t, BorrowCheck(Publish(mandatory))))
      case DoGet => Some(Go(s, t, BorrowCheck(User)))
      case DoClose => Some(Go(s, t, Shutting(CloseCheck)))
      case DoReturn(c) =>
        if c < |s.chans| && s.chans[c].place == Lent then Some(Go(Move(s, c, With(t)), t, GiveBack(c))) else None
  }

  function Step(m: Params, s: State, action: Action): Option<State> {
    match action
    case Tick(d) => Some(s.(now := s.now + d))
    case ChannelDies(c) => Some(Shut(s, c))
    case ConnDies => if s.conn == Up then Some(s.(conn := Down)) else None
    case Spawn => Some(s.(threads := s.threads + [Idle]))
    case Begin(t, op) => BeginOp(s, t, op)
    case Run(t, ok) => if t < |s.threads| then ThreadStep(m, s, t, ok) else None
  }

  /** Thread 0 is the constructor's connect and then the watcher. */
  const INITIAL: State := State(0, false, NoConn, UNLOCKED, UNLOCKED, [], map[], [], [Connecting(ConnLock)])

  function Exec(m: Params, run: seq<Action>): Option<State> {
    if run == [] then Some(INITIAL)
    else
      match Exec(m, run[..|run| - 1])
      case None => None
      case Some(s) => Step(m, s, run[|run| - 1])
  }
}
