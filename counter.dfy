/** The counter of the "fake timers" chapter: `start` registers a one-second
    interval whose callback is `tick`, `tick` counts, `stop` cancels the
    interval and zeroes the count. The global timer functions are the
    injected `Timers` object, chosen once when the counter is built. */
module CounterModel {
  import opened Wrappers
  import opened FakeTimers

  /** The interval `start` registers, in milliseconds. */
  const Period: nat := 1000

  class Counter {
    /** The timer functions `setInterval` and `clearInterval` go to. */
    const timers: Timers
    /** The handle of the registered interval; a handle is always truthy. */
    var timerId: Option<nat>
    var value: int

    /** The timers are consistent, and the pending interval, if any, is the
        one this counter registered: period `Period`, handle `timerId`. */
    ghost predicate Valid()
      reads this, timers
    {
      timers.Valid() &&
      (timers.pending.Some? ==>
         timerId == Some(timers.pending.value.id) && timers.pending.value.period == Period)
    }

    /** `new Counter()`: no interval, count 0. */
    constructor (timers: Timers)
      requires timers.Valid() && timers.pending.None?
      ensures Valid() && this.timers == timers
      ensures timerId == None && value == 0
    {
      this.timers := timers;
      timerId := None;
      value := 0;
    }

    /** `start()`: registers the interval only if no handle is held yet;
        otherwise nothing at all changes. The count is never touched. */
    method Start()
      requires Valid()
      modifies this`timerId, timers
      ensures Valid()
      ensures value == old(value)
      ensures old(timerId).Some? ==> timerId == old(timerId) && unchanged(timers)
      ensures old(timerId).None? ==>
                timerId == Some(old(timers.nextId)) &&
                timers.nextId == old(timers.nextId) + 1 &&
                timers.now == old(timers.now) &&
                timers.pending == Some(Interval(old(timers.nextId), Period, old(timers.now) + Period))
    {
      if timerId.None? {
        var id := timers.SetInterval(Period);
        timerId := Some(id);
      }
    }

    /** `stop()`: cancels the interval if a handle is held and sets the count
        to 0 in every case. The handle itself is kept, so a later `start`
        registers nothing. */
    method Stop()
      requires Valid()
      modifies this`value, timers`pending
      ensures Valid()
      ensures value == 0
      ensures timerId == old(timerId)
      ensures timers.pending == None
      ensures old(timerId).None? ==> unchanged(timers)
    {
      if timerId.Some? {
        timers.ClearInterval(timerId.value);
      }
      value := 0;
    }

    /** `getCount()`: the current count; nothing changes. */
    method GetCount() returns (r: int)
      ensures r == value
    {
      r := value;
    }

    /** `tick()`: the count goes up by one; the handle stays as it is. */
    method Tick()
      modifies this`value
      ensures value == old(value) + 1
      ensures timerId == old(timerId)
    {
      value := value + 1;
    }
  }

  /** `advanceTimersByTime(ms)` for a counter's interval: every period that
      completes within the next `ms` milliseconds while the interval is
      pending runs its callback `tick` once; `fired` is the number of runs. */
  method AdvanceTimersByTime(c: Counter, ms: nat) returns (fired: nat)
    requires c.Valid()
    modifies c`value, c.timers
    ensures c.Valid()
    ensures fired == Due(old(c.timers.pending), old(c.timers.now) + ms)
    ensures c.value == old(c.value) + fired
    ensures c.timerId == old(c.timerId)
    ensures c.timers.now == old(c.timers.now) + ms
    ensures c.timers.nextId == old(c.timers.nextId)
    ensures c.timers.pending == Later(old(c.timers.pending), fired)
  {
    var target := c.timers.now + ms;
    ghost var p0 := c.timers.pending;
    fired := 0;
    while c.timers.pending.Some? && c.timers.pending.value.fireAt <= target
      invariant c.Valid()
      invariant c.timers.now <= target
      invariant c.timers.pending == Later(p0, fired)
      invariant fired + Due(c.timers.pending, target) == Due(p0, target)
      invariant c.value == old(c.value) + fired
      invariant c.timerId == old(c.timerId)
      invariant c.timers.nextId == old(c.timers.nextId)
      decreases Due(c.timers.pending, target)
    {
      c.timers.FireDue();
      c.Tick();
      fired := fired + 1;
    }
    c.timers.now := target;
  }

  /** After `start`, advancing by `ms` runs `tick` once per whole second. */
  method StartThenAdvance(start: int, ms: nat) returns (ticks: nat, count: int)
    ensures ticks == ms / Period
    ensures count == ticks
  {
    var timers := new Timers(start);
    timers.ClearAllTimers();
    var c := new Counter(timers);
    c.Start();
    ticks := AdvanceTimersByTime(c, ms);
    FiresWithinFromRegistration(start, Period, ms);
    count := c.GetCount();
  }

  /** The chapter's test: one hour after `start` the count and the number of
      `tick` calls are 3600; after `stop` the count is 0. */
  method OneHourScenario(start: int) returns (ticks: nat, count: int, afterStop: int)
    ensures ticks == 3600 && count == 3600
    ensures afterStop == 0
  {
    var timers := new Timers(start);
    timers.ClearAllTimers();
    var c := new Counter(timers);
    c.Start();
    ticks := AdvanceTimersByTime(c, 3600 * 1000);
    FiresWithinFromRegistration(start, Period, 3600 * 1000);
    count := c.GetCount();
    c.Stop();
    afterStop := c.GetCount();
  }

  /** A second `start` registers nothing: the count after an hour is 3600,
      not twice that. */
  method StartTwiceScenario(start: int) returns (count: int)
    ensures count == 3600
  {
    var timers := new Timers(start);
    timers.ClearAllTimers();
    var c := new Counter(timers);
    c.Start();
    c.Start();
    var ticks := AdvanceTimersByTime(c, 3600 * 1000);
    FiresWithinFromRegistration(start, Period, 3600 * 1000);
    count := c.GetCount();
  }

  /** Time that passes before `start` runs no `tick`. */
  method AdvanceBeforeStartScenario(start: int, ms: nat) returns (ticks: nat, count: int)
    ensures ticks == 0 && count == 0
  {
    var timers := new Timers(start);
    timers.ClearAllTimers();
    var c := new Counter(timers);
    ticks := AdvanceTimersByTime(c, ms);
    count := c.GetCount();
  }

  /** `stop` without `start` still zeroes the count, and leaves nothing pending. */
  method StopWithoutStartScenario(start: int, ms: nat) returns (count: int, ticks: nat)
    ensures count == 0 && ticks == 0
  {
    var timers := new Timers(start);
    timers.ClearAllTimers();
    var c := new Counter(timers);
    c.Tick();
    c.Stop();
    count := c.GetCount();
    ticks := AdvanceTimersByTime(c, ms);
  }

  /** As written, `stop` keeps the handle: after `stop`, a `start` is a
      no-op and no amount of time makes the counter count again. */
  method RestartAfterStopScenario(start: int, ms1: nat, ms2: nat) returns (ticks: nat, count: int)
    ensures ticks == 0 && count == 0
  {
    var timers := new Timers(start);
    timers.ClearAllTimers();
    var c := new Counter(timers);
    c.Start();
    var first := AdvanceTimersByTime(c, ms1);
    c.Stop();
    c.Start();
    ticks := AdvanceTimersByTime(c, ms2);
    count := c.GetCount();
  }
}
