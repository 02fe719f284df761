/** A minimal stand-in for the fake timers that drive the counter: a virtual
    clock with a single slot for a repeating interval. `setInterval`,
    `clearInterval` and `clearAllTimers` are methods here; advancing time
    needs the interval's callback and lives beside the counter. */
module FakeTimers {
  import opened Wrappers

  /** A registered repeating timer: its handle, its period in virtual
      milliseconds, and the virtual time at which it fires next. */
  datatype Interval = Interval(id: nat, period: nat, fireAt: int)

  /** How many times a timer that fires first at `fireAt` and then every
      `period` milliseconds fires up to and including virtual time `target`. */
  function FiresWithin(fireAt: int, period: nat, target: int): nat
    requires period > 0
    decreases target - fireAt
  {
    if fireAt > target then 0 else 1 + FiresWithin(fireAt + period, period, target)
  }

  /** How many times the pending timer, if any, fires up to time `target`. */
  function Due(p: Option<Interval>, target: int): nat
    requires p.Some? ==> p.value.period > 0
  {
    if p.None? then 0 else FiresWithin(p.value.fireAt, p.value.period, target)
  }

  /** The pending timer after it has fired `k` times. */
  function Later(p: Option<Interval>, k: nat): Option<Interval>
  {
    match p
    case None => None
    case Some(t) => Some(t.(fireAt := t.fireAt + k * t.period))
  }

  /** The firings are exactly the multiples of the period that fit: after
      `k` firings the next one lies beyond `target`, and the last of them
      did not. */
  lemma {:induction false} FiresWithinBounds(fireAt: int, period: nat, target: int)
    requires period > 0
    ensures fireAt + FiresWithin(fireAt, period, target) * period > target
    ensures FiresWithin(fireAt, period, target) > 0 ==>
              fireAt + (FiresWithin(fireAt, period, target) - 1) * period <= target
    decreases target - fireAt
  {
    if fireAt <= target {
      FiresWithinBounds(fireAt + period, period, target);
      var k := FiresWithin(fireAt + period, period, target);
      assert fireAt + period + k * period == fireAt + (k + 1) * period;
      assert k > 0 ==> fireAt + period + (k - 1) * period == fireAt + k * period;
    }
  }

  /** An interval registered at time `now` with period `p` fires exactly
      `ms / p` times while time advances by `ms`. */
  lemma FiresWithinFromRegistration(now: int, p: nat, ms: nat)
    requires p > 0
    ensures FiresWithin(now + p, p, now + ms) == ms / p
  {
    var k := FiresWithin(now + p, p, now + ms);
    FiresWithinBounds(now + p, p, now + ms);
    DivisionByBounds(ms, p, k);
  }

  /** `k` is `n / p` when `k * p <= n < (k + 1) * p`. */
  lemma DivisionByBounds(n: nat, p: nat, k: nat)
    requires p > 0
    requires k * p <= n < (k + 1) * p
    ensures n / p == k
  {
    var q := n / p;
    MultiplyMonotone(q + 1, k, p);
    MultiplyMonotone(k + 1, q, p);
  }

  lemma MultiplyMonotone(a: int, b: int, p: nat)
    ensures a <= b ==> a * p <= b * p
  {
    if a <= b {
      assert b * p == a * p + (b - a) * p;
    }
  }

  /** The virtual clock and its single interval slot. */
  class Timers {
    var now: int
    var nextId: nat
    var pending: Option<Interval>

    /** Handles are positive and below `nextId`; a pending interval has a
        positive period and fires strictly in the future. */
    ghost predicate Valid()
      reads this
    {
      nextId > 0 &&
      (pending.Some? ==>
         pending.value.period > 0 && now < pending.value.fireAt && pending.value.id < nextId)
    }

    /** Fake timers switched on at virtual time `start`, with nothing pending. */
    constructor (start: int)
      ensures Valid()
      ensures now == start && pending == None
    {
      now := start;
      nextId := 1;
      pending := None;
    }

    /** `setInterval(callback, period)`: registers the interval, first due one
        period from now, and returns a fresh handle. */
    method SetInterval(period: nat) returns (id: nat)
      requires Valid() && period > 0
      requires pending.None?
      modifies this
      ensures Valid()
      ensures id == old(nextId) && nextId == id + 1
      ensures pending == Some(Interval(id, period, now + period))
      ensures now == old(now)
    {
      id := nextId;
      nextId := nextId + 1;
      pending := Some(Interval(id, period, now + period));
    }

    /** `clearInterval(id)`: cancels the pending interval if it has that handle. */
    method ClearInterval(id: nat)
      requires Valid()
      modifies this`pending
      ensures Valid()
      ensures pending == if old(pending).Some? && old(pending).value.id == id then None else old(pending)
    {
      if pending.Some? && pending.value.id == id {
        pending := None;
      }
    }

    /** `clearAllTimers()`: drops every pending timer without firing it. */
    method ClearAllTimers()
      requires Valid()
      modifies this`pending
      ensures Valid() && pending == None
    {
      pending := None;
    }

    /** One step of an advance: the clock moves to the interval's due time
        and the interval is rescheduled one period later. */
    method FireDue()
      requires Valid() && pending.Some?
      modifies this`now, this`pending
      ensures Valid()
      ensures now == old(pending).value.fireAt
      ensures pending == Some(old(pending).value.(fireAt := old(pending).value.fireAt + old(pending).value.period))
    {
      var t := pending.value;
      now := t.fireAt;
      pending := Some(t.(fireAt := t.fireAt + t.period));
    }
  }
}
