/** The exponential backoff between reconnect attempts, with 64-bit durations. */
module Backoff {
  import opened Retry

  const INITIAL_BACKOFF: Int64 := 1_000_000_000

  /** Twice a 64-bit duration, with two's-complement wrap-around. */
  function TwiceWrapped(x: Int64): Int64 {
    if 2 * x > MAX_INT64 then 2 * x - 0x1_0000_0000_0000_0000
    else if 2 * x < MIN_INT64 then 2 * x + 0x1_0000_0000_0000_0000
    else 2 * x
  }

  /** One round of the loop. */
  datatype Round = Stopped | StoppedAsleep | ConnectFails | Connects

  function NextWait(wait: Int64, cap: Int64): Int64 {
    if TwiceWrapped(wait) > cap then cap else TwiceWrapped(wait)
  }

  /** The wait before attempt `k` as the loop computes it. */
  function Wait(k: nat, cap: Int64): Int64 {
    if k == 0 then INITIAL_BACKOFF else NextWait(Wait(k - 1, cap), cap)
  }

  /**
   * The reconnect loop of the consumer and of the publisher; returns how long it slept each time. It goes on as
   * long as connecting fails, and ends with the first round in which it is stopped or connects.
   */
  method Reconnect(cap: Int64, rounds: seq<Round>) returns (waits: seq<Int64>, connected: bool)
    ensures |waits| <= |rounds|
    ensures forall k {:trigger waits[k]} :: 0 <= k < |waits| ==> waits[k] == Wait(k, cap)
    ensures forall k :: 0 <= k < |waits| ==> rounds[k] != Stopped && (k + 1 < |waits| ==> rounds[k] == ConnectFails)
    ensures |waits| < |rounds| ==> rounds[|waits|] == Stopped || (|waits| > 0 && rounds[|waits| - 1] != ConnectFails)
    ensures connected <==> |waits| > 0 && rounds[|waits| - 1] == Connects
  {
    waits, connected := [], false;
    var backoff: Int64 := INITIAL_BACKOFF;
    var i := 0;
    while i < |rounds|
      invariant 0 <= i <= |rounds| && |waits| == i
      invariant backoff == Wait(i, cap)
      invariant forall k {:trigger waits[k]} :: 0 <= k < i ==> waits[k] == Wait(k, cap)
      invariant forall k :: 0 <= k < i ==> rounds[k] == ConnectFails
      invariant !connected
    {
      if rounds[i] == Stopped {
        return;
      }
      waits := waits + [backoff];
      if rounds[i] == StoppedAsleep {
        return;
      }
      if rounds[i] == Connects {
        connected := true;
        return;
      }
      ghost var slept := backoff;
      backoff := TwiceWrapped(backoff);
      if backoff > cap {
        backoff := cap;
      }
      assert backoff == NextWait(slept, cap);
      i := i + 1;
    }
  }

  /** One second, doubled k times. */
  function Doubled(k: nat): nat {
    if k == 0 then 1_000_000_000 else 2 * Doubled(k - 1)
  }

  /** The intended wait: a second first, then doubling up to the cap. */
  function ClosedForm(k: nat, cap: Int64): int {
    if k == 0 || Doubled(k) <= cap then Doubled(k) else cap
  }

  lemma {:induction false} DoubledPositive(k: nat)
    ensures Doubled(k) >= INITIAL_BACKOFF
  {
    if k > 0 {
      DoubledPositive(k - 1);
    }
  }

  lemma {:induction false} WaitIsClosedForm(k: nat, cap: Int64)
    requires 0 < cap <= MAX_INT64 / 2
    ensures Wait(k, cap) == ClosedForm(k, cap)
    ensures 0 < Wait(k, cap) <= (if cap < INITIAL_BACKOFF then INITIAL_BACKOFF else cap)
    ensures 2 * Wait(k, cap) <= MAX_INT64
    ensures k > 0 && Wait(k, cap) == cap ==> Wait(k + 1, cap) == cap
  {
    DoubledPositive(k);
    if k > 0 {
      WaitIsClosedForm(k - 1, cap);
    }
  }

  lemma {:induction false} DoubledTimes(j: nat, k: nat)
    ensures Doubled(j + k) * INITIAL_BACKOFF == Doubled(j) * Doubled(k)
  {
    if k > 0 {
      DoubledTimes(j, k - 1);
      assert Doubled(j + k) == 2 * Doubled(j + (k - 1));
    }
  }

  lemma DoubledAt32()
    ensures Doubled(32) == 4294967296_000000000
  {
    assert Doubled(8) == 256_000000000;
    DoubledTimes(8, 8);
    assert Doubled(16) == 65536_000000000;
    DoubledTimes(16, 16);
  }

  lemma {:induction false} DoubledGrows(j: nat, k: nat)
    requires j <= k
    ensures Doubled(j) <= Doubled(k)
    decreases k - j
  {
    if j < k {
      DoubledGrows(j + 1, k);
    }
  }

  lemma {:induction false} EarlyWaits(k: nat, cap: Int64)
    requires MAX_INT64 / 2 < cap && k <= 32
    ensures Wait(k, cap) == Doubled(k)
  {
    if k > 0 {
      EarlyWaits(k - 1, cap);
      DoubledGrows(k, 32);
      DoubledAt32();
    }
  }

  /** A larger cap lets the doubling overflow: the wait before attempt 34 is negative. */
  lemma LargeCapOverflows(cap: Int64)
    requires MAX_INT64 / 2 < cap
    ensures Wait(34, cap) < 0
  {
    EarlyWaits(32, cap);
    DoubledAt32();
    var v := Wait(33, cap);
    assert v == if 8589934592_000000000 > cap then cap else 8589934592_000000000;
    assert TwiceWrapped(v) < 0;
  }

  /** The loop waits as intended before every attempt exactly when the cap is at most half the largest duration. */
  lemma ClosedFormIff(cap: Int64)
    requires 0 < cap
    ensures (forall k :: Wait(k, cap) == ClosedForm(k, cap)) <==> cap <= MAX_INT64 / 2
  {
    if cap <= MAX_INT64 / 2 {
      forall k ensures Wait(k, cap) == ClosedForm(k, cap) {
        WaitIsClosedForm(k, cap);
      }
    } else {
      LargeCapOverflows(cap);
      DoubledPositive(34);
      assert ClosedForm(34, cap) > 0;
    }
  }
}
