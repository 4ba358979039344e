/** What a borrow and a return do to the pool, for the methods of the publisher and for the machine of its threads. */
module PoolView {
  import opened Options

  /** A pooled channel with the creation time recorded for it. */
  datatype Entry = Entry(ch: nat, createdAt: int)

  /**
   * All that a borrow and a return look at: the current pool, None while there is none, with its limits; the
   * table of creation times; and of the client library the creation times of all channels and the open ones.
   */
  datatype View = View(
    slots: Option<seq<Entry>>, size: nat, maxAge: int, closed: bool, meta: map<nat, int>,
    born: seq<int>, live: set<nat>)

  /** May a pooled channel be handed out? */
  predicate Usable(v: View, e: Entry, now: int) {
    e.ch in v.live && now - e.createdAt <= v.maxAge
  }

  function Chans(slots: seq<Entry>): set<nat> {
    if slots == [] then {} else {slots[0].ch} + Chans(slots[1..])
  }

  /** Closed and forgotten. */
  function Without(v: View, c: nat): View {
    v.(live := v.live - {c}, meta := v.meta - {c})
  }

  /** A new channel, unless the connection is down or a network call fails. */
  function WithNew(v: View, now: int, opens: bool): (View, Option<Entry>) {
    if !opens then (v, None)
    else (v.(born := v.born + [now], live := v.live + {|v.born|}), Some(Entry(|v.born|, now)))
  }

  /** The head of the pool if it is usable, else a new channel, with an unusable head closed and forgotten. */
  function AfterBorrow(v: View, now: int, opens: bool): (View, Option<Entry>) {
    if v.closed then (v, None)
    else if v.slots == None || v.slots.value == [] then WithNew(v, now, opens)
    else
      var head, rest := v.slots.value[0], v.(slots := Some(v.slots.value[1..]));
      if Usable(v, head, now) then (rest, Some(head)) else WithNew(Without(rest, head.ch), now, opens)
  }

  /** The back of the pool, or closed and forgotten. */
  function AfterReturn(v: View, e: Entry): View {
    if !v.closed && e.ch in v.live && v.slots != None && |v.slots.value| < v.size
    then v.(slots := Some(v.slots.value + [e]))
    else Without(v, e.ch)
  }
}
