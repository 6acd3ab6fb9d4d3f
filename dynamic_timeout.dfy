/** `DynamicTimeout`: a backoff timer whose timeout grows by one base unit
    on every expiry and wraps back to the base once past the maximum. The
    clock is not modelled: the current time `now` and the elapsed time are
    parameters. */
module Timeouts {
  import opened Uint

  /** The timeout after an expiry: `timeout += timeoutBase` in 16-bit
      unsigned arithmetic, then back to the base if it exceeds the maximum. */
  function NextTimeout(timeout: u16, timeoutBase: u16, timeoutMax: u16): (r: u16)
    ensures r == timeoutBase || r <= timeoutMax
    ensures timeout as int + timeoutBase as int < U16Limit ==>
      r == if timeout as int + timeoutBase as int <= timeoutMax as int then timeout + timeoutBase else timeoutBase
  {
    var t := Add16(timeout, timeoutBase);
    if t > timeoutMax then timeoutBase else t
  }

  function Max(a: int, b: int): int
  {
    if a < b then b else a
  }

  /** The parameters never let `timeout += timeoutBase` overflow: the largest
      timeout reachable plus one base unit fits in 16 bits. */
  predicate NoOverflow(timeoutBase: u16, timeoutMax: u16)
  {
    timeoutBase as int + Max(timeoutBase as int, timeoutMax as int) < U16Limit
  }

  /** `t` is a whole number of units `b`. */
  predicate IsMultiple(t: nat, b: nat)
    requires b > 0
    decreases t
  {
    t == 0 || (t >= b && IsMultiple(t - b, b))
  }

  /** The timeouts the timer can hold: positive multiples of the base, up to
      the maximum (or the base itself when the base exceeds the maximum). */
  predicate Reachable(timeout: u16, timeoutBase: u16, timeoutMax: u16)
  {
    if timeoutBase == 0 then timeout == 0
    else
      IsMultiple(timeout as nat, timeoutBase as nat) &&
      timeoutBase <= timeout && timeout as int <= Max(timeoutBase as int, timeoutMax as int)
  }

  /** Without overflow an expiry keeps the timeout reachable. */
  lemma NextTimeoutReachable(timeout: u16, timeoutBase: u16, timeoutMax: u16)
    requires NoOverflow(timeoutBase, timeoutMax) && Reachable(timeout, timeoutBase, timeoutMax)
    ensures Reachable(NextTimeout(timeout, timeoutBase, timeoutMax), timeoutBase, timeoutMax)
  {
    if timeoutBase > 0 {
      var t := timeout as nat + timeoutBase as nat;
      assert t - timeoutBase as nat == timeout as nat;
      assert IsMultiple(t, timeoutBase as nat);
    }
  }

  /** With a base within the maximum, an expiry never takes the timeout past
      the maximum, whether or not the addition wraps. */
  lemma NextTimeoutWithinMax(timeout: u16, timeoutBase: u16, timeoutMax: u16)
    requires timeoutBase <= timeoutMax
    ensures NextTimeout(timeout, timeoutBase, timeoutMax) <= timeoutMax
  {
  }

  /** With overflow the backoff breaks: base 40000 and maximum 50000 take the
      timeout from 40000 to 14464, which is no multiple of the base. */
  lemma OverflowExample()
    ensures NextTimeout(40000, 40000, 50000) == 14464
    ensures !Reachable(14464, 40000, 50000)
  {
  }

  class DynamicTimeout {
    var begin: u32
    var timeoutBase: u16
    var timeout: u16
    var timeoutMax: u16

    /** A base within the maximum keeps the timeout within the maximum, and
        whenever the parameters exclude overflow the timeout is reachable. */
    ghost predicate Valid()
      reads this
    {
      (timeoutBase <= timeoutMax ==> timeout <= timeoutMax) &&
      (NoOverflow(timeoutBase, timeoutMax) ==> Reachable(timeout, timeoutBase, timeoutMax))
    }

    /** Stores the base and the maximum, then resets at time `now`. */
    constructor (base: u16, max: u16, now: u32)
      ensures Valid()
      ensures timeoutBase == base && timeoutMax == max
      ensures timeout == base && begin == now
    {
      timeoutBase := base;
      timeoutMax := max;
      begin := 0;
      timeout := 0;
      new;
      Reset(now);
    }

    /** Anchors the start at `now` and puts the timeout back to the base. */
    method Reset(now: u32)
      modifies this
      ensures Valid()
      ensures begin == now && timeout == timeoutBase
      ensures timeoutBase == old(timeoutBase) && timeoutMax == old(timeoutMax)
    {
      begin := now;
      timeout := timeoutBase;
    }

    /** `elapsed` is the time since `begin` at `now`. Reports whether it
        exceeds the timeout; if so the timeout backs off and the start is
        re-anchored at `now`, otherwise nothing changes. */
    method Expired(now: u32, elapsed: u32) returns (timedout: bool)
      requires Valid()
      modifies this
      ensures Valid()
      ensures timedout <==> elapsed as int > old(timeout) as int
      ensures timedout ==> timeout == NextTimeout(old(timeout), timeoutBase, timeoutMax) && begin == now
      ensures !timedout ==> timeout == old(timeout) && begin == old(begin)
      ensures timeoutBase == old(timeoutBase) && timeoutMax == old(timeoutMax)
    {
      timedout := elapsed as int > timeout as int;
      if timedout {
        timeout := Add16(timeout, timeoutBase);
        if timeout > timeoutMax {
          timeout := timeoutBase;
        }
        begin := now;
        if timeoutBase <= timeoutMax {
          NextTimeoutWithinMax(old(timeout), timeoutBase, timeoutMax);
        }
        if NoOverflow(timeoutBase, timeoutMax) {
          NextTimeoutReachable(old(timeout), timeoutBase, timeoutMax);
        }
      }
    }
  }
}
