/**
 * The pool of confirm channels as the publisher's methods work on it, one call at a time: a bounded buffer that
 * a reconnect replaces, a side table of creation times, and the channels of the client library. (PoolMachine
 * interleaves the same methods step by step.)
 */
module Pool {
  import opened Options
  import opened PoolView

  /** The client library: `born` lists the creation times of all channels ever opened, `live` the open ones. */
  class Amqp {
    var up: bool
    var born: seq<int>
    var live: set<nat>

    constructor ()
      ensures !up && born == [] && live == {}
    {
      up, born, live := false, [], {};
    }

    /** createConfirmChannel; the goroutines inside it are the subject of module Handoff. */
    method Open(now: int, ok: bool) returns (ch: Option<nat>)
      modifies this
      ensures up == old(up)
      ensures ch == if up && ok then Some(|old(born)|) else None
      ensures born == if ch == None then old(born) else old(born) + [now]
      ensures live == if ch == None then old(live) else old(live) + {|old(born)|}
    {
      if !up || !ok {
        return None;
      }
      ch := Some(|born|);
      live := live + {|born|};
      born := born + [now];
    }

    /** Closing a closed channel changes nothing. */
    method Close(ch: nat)
      modifies this`live
      ensures live == old(live) - {ch}
    {
      live := live - {ch};
    }

    /** Closing the connection closes its channels. */
    method Disconnect()
      modifies `up, `live
      ensures !up && live == {}
    {
      up, live := false, {};
    }
  }

  /** A Go channel of pooled channels, with its non-blocking operations. */
  class Buffer {
    const capacity: nat
    var slots: seq<Entry>

    constructor (capacity: nat)
      ensures this.capacity == capacity && slots == []
    {
      this.capacity := capacity;
      slots := [];
    }

    method TryReceive() returns (e: Option<Entry>)
      modifies this
      ensures old(slots) == [] ==> e == None && slots == []
      ensures old(slots) != [] ==> e == Some(old(slots)[0]) && slots == old(slots)[1..]
    {
      if slots == [] {
        return None;
      }
      e := Some(slots[0]);
      slots := slots[1..];
    }

    method TrySend(e: Entry) returns (stored: bool)
      modifies this
      ensures stored == (|old(slots)| < capacity)
      ensures slots == if stored then old(slots) + [e] else old(slots)
    {
      stored := |slots| < capacity;
      if stored {
        slots := slots + [e];
      }
    }
  }

  /** How many of the attempts succeed. */
  function Successes(opens: seq<bool>, n: nat): nat
    requires n <= |opens|
  {
    if n == 0 then 0 else Successes(opens, n - 1) + if opens[n - 1] then 1 else 0
  }

  lemma {:induction false} SuccessesBounded(opens: seq<bool>, n: nat)
    requires n <= |opens|
    ensures Successes(opens, n) <= n
  {
    if n > 0 {
      SuccessesBounded(opens, n - 1);
    }
  }

  function Min(a: int, b: int): int {
    if a < b then a else b
  }

  /** No channel twice, and every entry carries the true creation time. */
  ghost predicate WellKept(slots: seq<Entry>, born: seq<int>) {
    slots == []
    || (slots[0].ch !in Chans(slots[1..]) && slots[0].ch < |born| && slots[0].createdAt == born[slots[0].ch]
        && WellKept(slots[1..], born))
  }

  lemma {:induction false} ChansOfBoth(a: seq<Entry>, b: seq<Entry>)
    ensures Chans(a + b) == Chans(a) + Chans(b)
  {
    if a == [] {
      assert a + b == b;
    } else {
      assert (a + b)[1..] == a[1..] + b;
      ChansOfBoth(a[1..], b);
    }
  }

  /** One more channel behind those added to a pool. */
  lemma OneMoreAdded(before: seq<Entry>, added: seq<Entry>, pch: Entry)
    ensures before + added + [pch] == before + (added + [pch]) && before + added + [] == before + added
    ensures |added + [pch]| == |added| + 1
    ensures Chans(added + [pch]) == Chans(added) + {pch.ch} && Chans(before + added) == Chans(before) + Chans(added)
  {
    ChansOfBoth(before, added);
    ChansOfBoth(added, [pch]);
  }

  lemma {:induction false} WellKeptGrows(slots: seq<Entry>, born: seq<int>, e: Entry)
    requires WellKept(slots, born) && e.ch !in Chans(slots) && e.ch < |born| && e.createdAt == born[e.ch]
    ensures WellKept(slots + [e], born)
  {
    if slots != [] {
      WellKeptGrows(slots[1..], born, e);
      ChansOfBoth(slots[1..], [e]);
      assert (slots + [e])[1..] == slots[1..] + [e];
    }
  }

  lemma {:induction false} WellKeptLater(slots: seq<Entry>, born: seq<int>, now: int)
    requires WellKept(slots, born)
    ensures WellKept(slots, born + [now]) && |born| !in Chans(slots)
  {
    if slots != [] {
      WellKeptLater(slots[1..], born, now);
    }
  }

  class Publisher {
    const size: nat
    const maxAge: nat
    const amqp: Amqp
    var channelPool: Buffer?
    var channelMeta: map<nat, int>
    var closed: bool
    ghost var held: set<nat>     // borrowed and not returned yet
    ghost var lent: set<nat>     // those of them that GetChannel handed out

    ghost function Look(): View
      reads this, channelPool, amqp
    {
      View(if channelPool == null then None else Some(channelPool.slots), size, maxAge, closed, channelMeta,
           amqp.born, amqp.live)
    }

    ghost function Slots(): seq<Entry>
      reads this, channelPool
    {
      if channelPool == null then [] else channelPool.slots
    }

    /** Who owns what: no open channel is forgotten, none has two owners, and the table has nothing but the truth. */
    ghost predicate Owned(slots: seq<Entry>)
      reads this, amqp
    {
      && WellKept(slots, amqp.born)
      && held !! Chans(slots)
      && lent <= held
      && (forall c :: c in held ==> c < |amqp.born|)
      && amqp.live <= held + Chans(slots)
      && lent <= channelMeta.Keys <= held + Chans(slots)
      && (forall c :: c in channelMeta ==> c < |amqp.born| && channelMeta[c] == amqp.born[c])
    }

    ghost predicate Valid()
      reads this, channelPool, amqp
    {
      && (channelPool != null ==> channelPool.capacity == size && |channelPool.slots| <= size)
      && Owned(Slots())
    }

    constructor (size: nat, maxAge: nat, amqp: Amqp)
      requires amqp.born == [] && amqp.live == {}
      ensures Valid() && this.amqp == amqp && this.size == size && this.maxAge == maxAge
      ensures channelPool == null && !closed && held == {} && lent == {}
    {
      this.size, this.maxAge, this.amqp := size, maxAge, amqp;
      channelPool, channelMeta, closed, held, lent := null, map[], false, {}, {};
    }

    method NewChannelOrError(now: int, ok: bool) returns (r: Option<Entry>)
      requires Valid()
      modifies `held, amqp
      ensures Valid() && amqp.up == old(amqp.up)
      ensures r == if amqp.up && ok then Some(Entry(|old(amqp.born)|, now)) else None
      ensures r == None ==> amqp.born == old(amqp.born) && amqp.live == old(amqp.live) && held == old(held)
      ensures r != None ==> amqp.born == old(amqp.born) + [now] && amqp.live == old(amqp.live) + {r.value.ch}
                            && held == old(held) + {r.value.ch}
    {
      WellKeptLater(Slots(), amqp.born, now);
      var ch := amqp.Open(now, ok);
      if ch == None {
        return None;
      }
      held := held + {ch.value};
      r := Some(Entry(ch.value, now));
    }

    /** The receive from the pool makes the caller the owner. */
    method Receive() returns (e: Option<Entry>)
      requires Valid()
      modifies `held, channelPool
      ensures Valid()
      ensures old(Slots()) == [] ==> e == None && Slots() == [] && held == old(held)
      ensures old(Slots()) != [] ==>
                && e == Some(old(Slots())[0]) && Slots() == old(Slots())[1..]
                && held == old(held) + {e.value.ch} && e.value.ch !in old(held) && e.value.ch !in Chans(Slots())
                && e.value.ch < |amqp.born| && e.value.createdAt == amqp.born[e.value.ch]
    {
      if channelPool == null {
        return None;
      }
      e := channelPool.TryReceive();
      if e != None {
        held := held + {e.value.ch};
      }
    }

    /** The owner closes a channel and forgets its creation time. */
    method Discard(ch: nat)
      requires Valid() && ch in held
      modifies `held, `lent, amqp`live, `channelMeta
      ensures Valid() && held == old(held) - {ch} && lent == old(lent) - {ch}
      ensures amqp.live == old(amqp.live) - {ch} && channelMeta == old(channelMeta) - {ch}
    {
      amqp.Close(ch);
      channelMeta := channelMeta - {ch};
      held, lent := held - {ch}, lent - {ch};
    }

    /**
     * A borrow has the specified effect, and what it borrows is open, not too old, of a known age, and nobody
     * else's.
     */
    method BorrowChannel(now: int, ok: bool) returns (r: Option<Entry>)
      requires Valid()
      modifies `channelMeta, `held, `lent, channelPool, amqp
      ensures Valid() && amqp.up == old(amqp.up)
      ensures (Look(), r) == AfterBorrow(old(Look()), now, amqp.up && ok)
      ensures closed ==> r == None
      ensures !closed && amqp.up && ok ==> r != None
      ensures !closed && old(Slots()) != [] ==>
                var head := old(Slots())[0];
                && Slots() == old(Slots())[1..]
                && (if head.ch in old(amqp.live) && now - head.createdAt <= maxAge
                    then r == Some(head) && amqp.live == old(amqp.live) && amqp.born == old(amqp.born)
                    else r != Some(head) && head.ch !in amqp.live && head.ch !in channelMeta)
      ensures r == None ==> held == old(held)
      ensures lent == old(lent)
      ensures r != None ==>
                && held == old(held) + {r.value.ch} && r.value.ch !in old(held) && r.value.ch !in Chans(Slots())
                && r.value.ch < |amqp.born| && r.value.createdAt == amqp.born[r.value.ch]
                && Usable(Look(), r.value, now)
    {
      if closed {
        return None;
      }
      if channelPool == null {
        r := NewChannelOrError(now, ok);
        return;
      }
      var got := Receive();
      if got == None {
        r := NewChannelOrError(now, ok);
        return;
      }
      if got.value.ch !in amqp.live || now - got.value.createdAt > maxAge {
        Discard(got.value.ch);
        r := NewChannelOrError(now, ok);
        return;
      }
      r := got;
    }

    /** A return has the specified effect: the back of the pool, or closed and forgotten. */
    method ReturnPooled(e: Entry)
      requires Valid() && e.ch in held && e.createdAt == amqp.born[e.ch]
      modifies `channelMeta, `held, `lent, channelPool, amqp`live
      ensures Valid() && held == old(held) - {e.ch} && lent == old(lent) - {e.ch}
      ensures Look() == AfterReturn(old(Look()), e)
      ensures if e.ch in old(amqp.live) && !closed && channelPool != null && |old(Slots())| < size
              then Slots() == old(Slots()) + [e] && amqp.live == old(amqp.live) && channelMeta == old(channelMeta)
              else Slots() == old(Slots()) && e.ch !in amqp.live && e.ch !in channelMeta
    {
      if e.ch !in amqp.live || closed {
        Discard(e.ch);
        return;
      }
      if channelPool == null {
        Discard(e.ch);
        return;
      }
      WellKeptGrows(Slots(), amqp.born, e);
      ChansOfBoth(Slots(), [e]);
      var stored := channelPool.TrySend(e);
      if stored {
        held, lent := held - {e.ch}, lent - {e.ch};
      } else {
        Discard(e.ch);
      }
    }

    /**
     * Hands what a borrow gets to a user, or reports the error, and records the channel's age, so that a later
     * return can restore it.
     */
    method GetChannel(now: int, ok: bool) returns (ch: Option<nat>)
      requires Valid()
      modifies `channelMeta, `held, `lent, channelPool, amqp
      ensures Valid() && amqp.up == old(amqp.up)
      ensures
        var (v, r) := AfterBorrow(old(Look()), now, old(amqp.up) && ok);
        if r == None then ch == None && Look() == v
        else ch == Some(r.value.ch) && Look() == v.(meta := v.meta[r.value.ch := r.value.createdAt])
      ensures !closed && amqp.up && ok ==> ch != None
      ensures !closed && old(Slots()) != [] && old(Usable(Look(), Slots()[0], now)) ==>
                && ch == Some(old(Slots())[0].ch)
                && amqp.live == old(amqp.live) && amqp.born == old(amqp.born)
      ensures ch == None ==> held == old(held) && lent == old(lent)
      ensures ch != None ==>
                && held == old(held) + {ch.value} && lent == old(lent) + {ch.value} && ch.value !in old(held)
                && ch.value in amqp.live && ch.value in channelMeta && channelMeta[ch.value] == amqp.born[ch.value]
                && now - amqp.born[ch.value] <= maxAge
    {
      var pch := BorrowChannel(now, ok);
      if pch == None {
        return None;
      }
      channelMeta := channelMeta[pch.value.ch := pch.value.createdAt];
      lent := lent + {pch.value.ch};
      ch := Some(pch.value.ch);
    }

    /** A user gives a channel back, once: an open one goes to the pool with its true creation time. */
    method ReturnChannel(ch: Option<nat>, now: int)
      requires Valid() && (ch != None ==> ch.value in lent)
      modifies `channelMeta, `held, `lent, channelPool, amqp`live
      ensures Valid()
      ensures ch == None ==> Slots() == old(Slots()) && amqp.live == old(amqp.live)
                             && channelMeta == old(channelMeta) && held == old(held) && lent == old(lent)
      ensures ch != None ==>
                && held == old(held) - {ch.value} && lent == old(lent) - {ch.value}
                && Look() == AfterReturn(old(Look()), Entry(ch.value, amqp.born[ch.value]))
    {
      if ch == None {
        return;
      }
      if ch.value !in amqp.live {
        channelMeta := channelMeta - {ch.value};
        held, lent := held - {ch.value}, lent - {ch.value};
        return;
      }
      var createdAt := now;
      if ch.value in channelMeta {
        createdAt := channelMeta[ch.value];
      }
      ReturnPooled(Entry(ch.value, createdAt));
    }

    /** A channel can close at any time; the publisher only finds out when it looks. */
    method LoseChannel(ch: nat)
      requires Valid()
      modifies amqp`live
      ensures Valid() && Look() == old(Look()).(live := old(amqp.live) - {ch})
    {
      amqp.Close(ch);
    }

    /** The deferred end of a publish. */
    method Release(pch: Entry, returnToPool: bool)
      requires Valid() && pch.ch in held && pch.createdAt == amqp.born[pch.ch]
      modifies `channelMeta, `held, `lent, channelPool, amqp`live
      ensures Valid() && held == old(held) - {pch.ch} && lent == old(lent) - {pch.ch}
      ensures Look() == if returnToPool then AfterReturn(old(Look()), pch) else Without(old(Look()), pch.ch)
    {
      if returnToPool {
        ReturnPooled(pch);
        return;
      }
      Discard(pch.ch);
    }

    /**
     * publish: the channel it borrows is its own for the call, and afterwards nobody's: back in the pool, or closed,
     * as it always is after a mandatory publish, whose return listener stays on it, and when it `dies` meanwhile.
     */
    method Publish(mandatory: bool, dies: bool, now: int, ok: bool) returns (used: Option<Entry>)
      requires Valid()
      modifies `channelMeta, `held, `lent, channelPool, amqp
      ensures Valid() && held == old(held) && lent == old(lent)
      ensures
        var (v, r) := AfterBorrow(old(Look()), now, old(amqp.up) && ok);
        && used == r
        && Look() == (if used == None then v
                      else if mandatory || dies then Without(v, used.value.ch)
                      else AfterReturn(v, used.value))
      ensures used != None && (mandatory || dies) ==> used.value.ch !in amqp.live && used.value.ch !in Chans(Slots())
      ensures used != None && !mandatory && !dies && channelPool != null && 0 < size && |old(Slots())| <= size ==>
                used.value.ch in amqp.live && Slots() != [] && Slots()[|Slots()| - 1] == used.value
    {
      used := BorrowChannel(now, ok);
      if used == None {
        return;
      }
      if dies {
        LoseChannel(used.value.ch);
      }
      Release(used.value, !mandatory);
    }

    /** Closes and forgets every channel of a pool: of the current one, or of the one just replaced. */
    method DrainPool(pool: Buffer?)
      modifies pool, amqp`live, `channelMeta
      ensures pool == null ==> amqp.live == old(amqp.live) && channelMeta == old(channelMeta)
      ensures pool != null ==>
                && pool.slots == []
                && amqp.live == old(amqp.live) - Chans(old(pool.slots))
                && channelMeta == old(channelMeta) - Chans(old(pool.slots))
    {
      if pool == null {
        return;
      }
      ghost var gone: set<nat> := {};
      while pool.slots != []
        invariant Chans(old(pool.slots)) == gone + Chans(pool.slots)
        invariant amqp.live == old(amqp.live) - gone
        invariant channelMeta == old(channelMeta) - gone
        decreases |pool.slots|
      {
        var pch := pool.TryReceive();
        amqp.Close(pch.value.ch);
        channelMeta := channelMeta - {pch.value.ch};
        gone := gone + {pch.value.ch};
      }
    }

    /**
     * A reconnect: on success there is a new, empty pool, and every channel of the pool it replaces is closed and
     * forgotten, while borrowed ones stay with their borrowers. On failure the pool is untouched.
     */
    method EstablishConnection(dialed: bool, declared: bool) returns (ok: bool)
      requires Valid()
      modifies `channelPool, `channelMeta, channelPool, amqp`up, amqp`live
      ensures Valid() && ok == (dialed && declared)
      ensures amqp.up == (if dialed then declared else old(amqp.up))
      ensures !ok ==> channelPool == old(channelPool) && Slots() == old(Slots()) && channelMeta == old(channelMeta)
                      && amqp.live == old(amqp.live)
      ensures ok ==>
                && channelPool != null && fresh(channelPool) && channelPool.slots == []
                && (old(channelPool) != null ==> old(channelPool).slots == [])
                && amqp.live == old(amqp.live) - old(Chans(Slots()))
                      && channelMeta == old(channelMeta) - old(Chans(Slots()))
    {
      if !dialed {
        return false;
      }
      amqp.up := true;
      if !declared {
        amqp.up := false;
        return false;
      }
      var previous := channelPool;
      channelPool := new Buffer(size);
      DrainPool(previous);
      ok := true;
    }

    /** One attempt of the warm-up: a channel that finds no pool or a full one is closed again. */
    method WarmOnce(now: int, ok: bool) returns (stored: bool)
      requires Valid()
      modifies channelPool, amqp
      ensures Valid() && amqp.up == old(amqp.up)
      ensures stored == (amqp.up && ok && channelPool != null && |old(Slots())| < size)
      ensures Slots() == old(Slots()) + (if stored then [Entry(|old(amqp.born)|, now)] else [])
      ensures amqp.live == old(amqp.live) + (if stored then {|old(amqp.born)|} else {})
      ensures |old(amqp.born)| !in held + old(Chans(Slots()))
    {
      ghost var slots := Slots();
      WellKeptLater(slots, amqp.born, now);
      stored := false;
      var ch := amqp.Open(now, ok);
      if ch == None {
        return;
      }
      if channelPool != null {
        var pch := Entry(ch.value, now);
        WellKeptGrows(slots, amqp.born, pch);
        ChansOfBoth(slots, [pch]);
        stored := channelPool.TrySend(pch);
      }
      if !stored {
        amqp.Close(ch.value);
      }
    }

    /**
     * warmChannelPool: as many attempts as the pool has places. Channels that find the pool full are closed again;
     * the others are in the pool, behind what it held before.
     */
    method WarmChannelPool(opens: seq<bool>, times: seq<int>) returns (warmed: nat)
      requires Valid() && |opens| == |times| == size
      modifies channelPool, amqp
      ensures Valid() && amqp.up == old(amqp.up)
      ensures warmed == if amqp.up && channelPool != null then Min(Successes(opens, size), size - |old(Slots())|) else 0
      ensures |Slots()| == |old(Slots())| + warmed && Slots()[..|old(Slots())|] == old(Slots())
      ensures amqp.live == old(amqp.live) + Chans(Slots()[|old(Slots())|..])
      ensures Chans(Slots()[|old(Slots())|..]) !! old(held + Chans(Slots()))
    {
      warmed := 0;
      ghost var before, added: seq<Entry> := Slots(), [];
      for i := 0 to size
        invariant Valid() && amqp.up == old(amqp.up)
        invariant warmed == if amqp.up && channelPool != null then Min(Successes(opens, i), size - |before|) else 0
        invariant Slots() == before + added && |added| == warmed
        invariant amqp.live == old(amqp.live) + Chans(added)
        invariant Chans(added) !! held + Chans(before)
      {
        ghost var pch := Entry(|amqp.born|, times[i]);
        OneMoreAdded(before, added, pch);
        var stored := WarmOnce(times[i], opens[i]);
        assert |before + added| == |before| + warmed && pch.ch !in held + Chans(before);
        if stored {
          added := added + [pch];
          warmed := warmed + 1;
        }
      }
      assert Slots()[|before|..] == added;
    }

    /** connect: a reconnect that succeeds leaves a pool with a channel for every successful attempt. */
    method Connect(dialed: bool, declared: bool, opens: seq<bool>, times: seq<int>) returns (ok: bool)
      requires Valid() && |opens| == |times| == size
      modifies `channelPool, `channelMeta, channelPool, amqp
      ensures Valid() && ok == (dialed && declared)
      ensures ok ==> amqp.up && fresh(channelPool) && |Slots()| == Successes(opens, size)
                     && Chans(Slots()) !! held && Chans(Slots()) <= amqp.live
                     && (old(channelPool) != null ==> old(channelPool).slots == [])
      ensures !ok ==> channelPool == old(channelPool) && Slots() == old(Slots()) && amqp.live == old(amqp.live)
    {
      ok := EstablishConnection(dialed, declared);
      if ok {
        var warmed := WarmChannelPool(opens, times);
        SuccessesBounded(opens, size);
        assert Slots()[0..] == Slots();
      }
    }

    /** Close: the pool is drained and the connection closed, the first time only. */
    method Close()
      requires Valid()
      modifies `closed, `channelMeta, channelPool, amqp`up, amqp`live
      ensures Valid() && closed
      ensures old(closed) ==> Slots() == old(Slots()) && amqp.live == old(amqp.live) && amqp.up == old(amqp.up)
                              && channelMeta == old(channelMeta)
      ensures !old(closed) ==>
                && !amqp.up && Slots() == []
                && amqp.live == {} && channelMeta == old(channelMeta) - old(Chans(Slots()))
    {
      if closed {
        return;
      }
      closed := true;
      DrainPool(channelPool);
      amqp.Disconnect();
    }
  }
}
