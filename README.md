# deepdive-jest core, modelled in Dafny

The repository is a tutorial for the Jest test framework. Two of its source
files hold logic of their own, and this project models both and proves what
their tests assert.

- **`Counter`** (`src/05-mock-timer/counter.ts`) is a small state machine
  driven by a repeating timer. `start` registers a 1000 ms interval whose
  callback is `tick`, and only does this if no handle is held yet. `tick`
  adds one to the count. `getCount` reads the count. `stop` cancels the
  interval if a handle is held and sets the count to 0. `stop` never clears
  the handle, so a `start` after a `stop` does nothing. The model is the
  class `CounterModel.Counter` in `counter.dfy`.
- **Fake timers.** Timers become an explicit `FakeTimers.Timers` object
  (`fake_timers.dfy`), given to the counter once at construction. It holds a
  virtual clock and a single slot for one repeating interval.
  `CounterModel.AdvanceTimersByTime` plays `jest.advanceTimersByTime`. It fires
  the pending interval once for each period that ends within the advance,
  calling `Counter.Tick` each time. The count of firings is specified by the
  recursive function `FiresWithin`. Lemmas prove that this count is
  `ms / period` when the advance starts as the interval is registered.
- **`sum` and `throwOrReturn`** (`src/03-expect-func/logic.ts`) are pure
  functions in module `Logic` (`logic.dfy`). A thrown Error is a value of the
  `Outcome` datatype (`Returned(value)` / `Threw(message)`). This is the same
  shape in which a Jest spy records each call's result. `Outcomes` folds
  `throwOrReturn` over a list of `(data, op)` pairs, as the chapter's test
  does. Lemmas relate the returned values and the return count to the
  operators in the list.

The chapter tests are modelled as methods. Each one builds a fresh timer
object and a fresh counter, runs the test's steps, and promises the values
the test expects.

## Model

| member | source | states |
|---|---|---|
| `CounterModel.Counter.constructor` | src/05-mock-timer/counter.ts:2-3 | a new counter holds no interval handle and its count is 0 |
| `CounterModel.Counter.Start` | src/05-mock-timer/counter.ts:5-9 | with no handle held, registers one interval of period 1000 due one period from now and keeps its fresh handle; with a handle held, changes nothing at all; the count is never changed |
| `CounterModel.Counter.Stop` | src/05-mock-timer/counter.ts:11-16 | the count becomes 0 in every case; the handle is kept as it was; afterwards no interval is pending; with no handle held, the timers are untouched |
| `CounterModel.Counter.GetCount` | src/05-mock-timer/counter.ts:18-20 | returns the count and changes nothing |
| `CounterModel.Counter.Tick` | src/05-mock-timer/counter.ts:22-24 | the count increases by exactly 1 and the handle is unchanged |
| `CounterModel.AdvanceTimersByTime` | src/05-mock-timer/counter.ts:7 | advancing by `ms` calls `tick` once per firing of the pending interval up to the target time, exactly `FiresWithin` times (zero if nothing is pending); the count grows by that number; the clock ends at `now + ms`; the interval stays pending, moved forward by that many periods |
| `CounterModel.StartThenAdvance` | src/05-mock-timer/counter.ts:5-9 | after `start`, advancing by `ms` runs `tick` `ms / 1000` times, and that is the count |
| `CounterModel.OneHourScenario` | src/05-mock-timer/mock-timer.spec.ts:76-93 | one hour after `start`, `tick` has run 3600 times and `getCount()` is 3600; after `stop`, `getCount()` is 0 |
| `CounterModel.StartTwiceScenario` | src/05-mock-timer/counter.ts:6 | a second `start` registers nothing, so the count after an hour is 3600, not 7200 |
| `CounterModel.AdvanceBeforeStartScenario` | src/05-mock-timer/counter.ts:7 | time that passes before `start` runs no `tick` and leaves the count at 0 |
| `CounterModel.StopWithoutStartScenario` | src/05-mock-timer/counter.ts:11-16 | `stop` without `start` still sets the count to 0, and no later advance runs `tick` |
| `CounterModel.RestartAfterStopScenario` | src/05-mock-timer/counter.ts:6-15 | after `start`, advance and `stop`, a second `start` is a no-op because the handle was kept; no later advance runs `tick` and the count stays 0 |
| `FakeTimers.Timers.constructor` | src/05-mock-timer/mock-timer.spec.ts:76 | switching on fake timers gives a clock at the given start time with nothing pending |
| `FakeTimers.Timers.SetInterval` | src/05-mock-timer/counter.ts:7 | registers the interval, first due one period after now, under a fresh handle, which is returned; the clock does not move |
| `FakeTimers.Timers.ClearInterval` | src/05-mock-timer/counter.ts:13 | cancels the pending interval exactly when its handle is the one given; otherwise nothing changes |
| `FakeTimers.Timers.ClearAllTimers` | src/05-mock-timer/mock-timer.spec.ts:9 | afterwards no timer is pending; every scenario calls it first, as the tests' `beforeEach` does |
| `FakeTimers.Timers.FireDue` | src/05-mock-timer/counter.ts:7 | one firing: the clock moves to the interval's due time and the interval is next due one period later |
| `FakeTimers.FiresWithinBounds` | src/05-mock-timer/mock-timer.spec.ts:39-49 | the number of firings `k` satisfies `fireAt + (k-1)*period <= target < fireAt + k*period`: each firing is on time, and the next one is past the target |
| `FakeTimers.FiresWithinFromRegistration` | src/05-mock-timer/mock-timer.spec.ts:39-49 | an interval of period `p` registered at time `now` fires exactly `ms / p` times while the clock advances by `ms` (3600 times for 1000 ms over one hour) |
| `Logic.Sum` | src/03-expect-func/logic.ts:1-3 | `sum(a, b)` is `a + b` over unbounded integers |
| `Logic.SumTestResults` | src/03-expect-func/expect-func.spec.ts:50-54 | `sum(10,20) = 30`, `sum(20,40) = 60`, `sum(30,60) = 90` |
| `Logic.ThrowOrReturn` | src/03-expect-func/logic.ts:5-9 | returns exactly when the operator is "return", and then returns the datum; with "throw" it throws the datum as the message; with any other operator it throws "`<op>` is invaild operator." |
| `Logic.OutcomeDependsOnlyOnOperator` | src/03-expect-func/logic.ts:5-9 | whether a call returns or throws is decided by the operator alone, whatever the datum; that it does exactly one of the two is the two-constructor shape of `Outcome` |
| `Logic.Outcomes` | src/03-expect-func/expect-func.spec.ts:65-69 | the recorded outcomes of calling `throwOrReturn` once per pair: one per pair, in order, each the outcome of that pair |
| `Logic.ReturnCountIsReturnedValues` | src/03-expect-func/expect-func.spec.ts:77 | the number of returns equals the number of returned values |
| `Logic.ReturnedValuesAreReturnData` | src/03-expect-func/expect-func.spec.ts:73-87 | over any list of pairs, the returned values are exactly the data paired with "return", in order, and there are as many returns as "return" operators |
| `Logic.ThrownDatumNeverReturned` | src/03-expect-func/expect-func.spec.ts:86-87 | a datum never paired with an operator other than "throw" is never among the returned values, for every list |
| `Logic.TestParamsOutcomes` | src/03-expect-func/expect-func.spec.ts:58-96 | for `[a,throw],[b,return],[c,throw],[d,return]` the outcomes are `Threw(a), Returned(b), Threw(c), Returned(d)`: two returns, "b" and "d" returned, "a" and "c" not |

## Left out

- Jest's mock and spy runtime is library code that this repository does not contain. That covers the `jest.fn` behaviour queue, `mockImplementationOnce`/`mockReturnValue`, `mockReset`/`mockRestore`, `invocationCallOrder` and `jest.mock` auto-mocking in `src/04-mock/mock.spec.ts`. A spy's call count appears only as the `ticks` result of the advance and the `Outcome` lists.
- Jest's fake-timer engine is not modelled beyond one interval slot. `setTimeout`, several timers at once, and timer ordering are left out. `FakeTimers.Timers.SetInterval` requires an empty slot. `CounterModel.Counter.constructor` requires that nothing is pending, so the counter is the timers' only client, as it is after `clearAllTimers` in `beforeEach`.
- The interval's callback is not stored in the slot. `AdvanceTimersByTime` takes the counter whose `tick` the interval runs.
- The matcher demonstrations in `src/01-basic-usages` and `src/02-expect-data` are left out. They test Jest's equality, regex and floating-point matchers, not repository logic.
- `src/04-mock/httpGetter.ts` (a network call through axios), `src/04-mock/calc.ts` (floating-point `Math.log2`, and a copy of `sum`) and `src/06-hello-nest` (NestJS and HTTP) are not part of this model.
- The real-time wait, the asynchronous fake sleep and the `Promise.all` ordering test are left out. They are about wall-clock time, promises and concurrency.
- JavaScript numbers are modelled as unbounded integers. Floating-point rounding and the 2^53 limit are not modelled.
- `Logic.ThrowOrReturn` takes a string datum where the source accepts any value. `new Error(data)` converts its argument to a string, and with a string datum the message is the datum itself.
- Timer handles are `Option<nat>`. A Node `Timeout` object is always truthy, so the test `!this.timerId` is "no handle yet".
- The clock's start time is a parameter. Under fake timers it comes from the real clock, and its value does not affect the counter.
