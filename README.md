# A memoising cache and a repeating decorator, in Dafny

This project models two Python decorators and proves what they promise.

- `SimpleCache` (learn3.py) is a memoiser object. It holds two dictionaries: `cache`, from key to result, and `call_count`, from key to number of calls. Its `cached` decorator wraps a function. The wrapper builds the key `(func.__name__, args)` and counts the call. It then answers from `cache` if it can; otherwise it runs the function and stores what it returned. The test script wraps `expensive_compute`, and also `fibonacci`, whose recursive calls go back through the wrapper.
- `repeat(times)` (learn4.py) is a decorator factory. The wrapper it builds calls the function `times` times in a row with the same arguments and returns the list of results.

`memo.dfy`, module `Memo`, has two layers:

- **A functional model.** `State` holds the two dictionaries, plus a ghost record `runs` of the bodies run. `Enter` and `Leave` are the two halves of the wrapper, and `Invoke` is one wrapped call. `FibRun`/`FibExec` are the wrapped `fibonacci`. These functions and the lemmas about them state the properties.
- **The class `SimpleCache`.** Its fields are the two dictionaries, updated in place. Each of its methods is proved to move the object's state exactly as the functional model says.

`repetition.dfy`, module `Repetition`, models the repeating wrapper as a method with a loop, `Repeat`. It is proved against the function `Calls`, which describes the first `k` calls. The wrapped function works on a "world" that it may read and change, such as a counter of its own calls. This makes the number and the order of the calls observable. A pure function is the special case `Counted`, which only counts its calls. A call may raise an exception. The loop then stops, and the exception propagates, as a Python exception leaves the `for` loop.

## Model

| member | source | states |
|---|---|---|
| Memo.Enter | learn3.py:21-28 | counting the call leaves the cache as it was. The lookup is a hit exactly when the key is cached, and a hit carries the stored value. |
| Memo.Invoke | learn3.py:16-34 | the key's counter rises by exactly 1, hit or miss, and no other counter changes. A hit returns the stored value without running the body. A miss runs the body exactly once and returns what it gave. No entry is removed or changed, and only this key can be added. The key is cached afterwards iff it was cached before or the body returned, so a raise caches nothing. The call keeps `Valid` (every cached key has a counter, and every counter is at least 1). A cache that agrees with the body stays in agreement, and the call then returns the body's own result. |
| Memo.Leave | learn3.py:32-34 | the store after the body ran: a returned value goes into the cache, an exception stores nothing. No contract of its own; what a call stores is stated by `Invoke` and `FibRun*`. |
| Memo.Square | learn3.py:54-55 | `expensive_compute` as a body: the square of its one argument, and `TypeError` for any other number of arguments. No contract of its own; the calls of the script are stated by `ComputeTwice`. |
| Memo.FibRun | learn3.py:57-61 | the wrapped `fibonacci(n)`: count the call and answer a hit from the cache. On a miss, run `FibExec` and then store its result. No contract of its own; its properties are `FibRunKeeps`, `FibRunAdds`, `FibRunCount`, `FibRunValid`, `FibRunCorrect`, `FibRunRuns` and the `ColdFib*` lemmas. |
| Memo.FibExec | learn3.py:59-61 | the body of `fibonacci(n)` alone, whose two recursive calls go back through `FibRun`. No contract of its own; it is described together with `FibRun`. |
| Memo.RepeatedCall | learn3.py:26-34 | two identical calls raise the counter by 2. After a call that returned, the next one returns the same value and runs nothing. After a miss that raised, the next call runs the body again. |
| Memo.FibRunKeeps | learn3.py:26-34 | the wrapped `fibonacci(n)` never removes or overwrites a cache entry |
| Memo.FibRunAdds | learn3.py:57-61 | the entries `fibonacci(n)` adds are all keys of `fibonacci(j)` with `j == n` or `0 <= j <= n`, and its own key is cached afterwards |
| Memo.FibRunCount | learn3.py:18-23 | the counters `fibonacci(n)` changes never drop, and only keys of `fibonacci(j)` with `j == n` or `0 <= j <= n` move. Its own counter rises by exactly 1. Counters are never removed, and a new one is at least 1. |
| Memo.FibRunValidAt | learn3.py:21-34 | `fibonacci(n)` keeps the invariant at every key |
| Memo.FibRunValid | learn3.py:21-34 | `fibonacci(n)` keeps `Valid` |
| Memo.FibAgreesMemoizes | learn3.py:57-61 | an agreeing cache (every `fibonacci` entry is the Fibonacci number of its argument) is exactly a cache that memoises `fibonacci`'s plain body |
| Memo.FibRunCorrect | learn3.py:57-61 | on an agreeing cache the wrapped `fibonacci(n)` returns the Fibonacci number of `n` (with `n` itself for `n <= 1`), and it leaves the cache agreeing |
| Memo.FibRunRuns | learn3.py:26-34 | a body runs during `fibonacci(n)` exactly when `fibonacci(n)` newly caches its key, and exactly once: a cached key's body never runs again |
| Memo.ColdFibCache | learn3.py:57-61 | from a cache with no `fibonacci` entry, `fibonacci(n)` for `n >= 2` adds exactly the entries of `fibonacci(0)` to `fibonacci(n)` |
| Memo.ColdFibCount | learn3.py:57-61 | from the same cache, the counter of `fibonacci(j)` rises by 1 for `j` in `{n, n-1, 0}`, by 2 for `0 < j < n-1`, and no other counter moves |
| Memo.ColdFibRuns | learn3.py:57-61 | from the same cache, the body of each `fibonacci(j)` with `0 <= j <= n` runs exactly once, and no other body runs |
| Memo.ComputeTwice | learn3.py:51-65 | on a fresh cache, `expensive_compute(5)` runs its body and returns 25. Called again, it is a hit: it returns 25, runs nothing, and its counter is 2. |
| Memo.FibFiveCountsAt | learn3.py:67-68 | on a cache with no `fibonacci` entry, `fibonacci(5)` raises the counters by {5: 1, 4: 1, 3: 2, 2: 2, 1: 2, 0: 1}. It creates exactly those counters that were missing, and touches no other counter. (That it returns 5 is `FibRunCorrect` with the Fibonacci number of 5.) |
| Memo.FibFiveRunsAt | learn3.py:67-68 | in that scenario the bodies of `fibonacci(0)` to `fibonacci(5)` each run exactly once, and nothing else runs |
| Memo.FibFiveCacheAt | learn3.py:67-68 | in that scenario the cache keeps its entries and gains exactly {5: 5, 4: 3, 3: 2, 2: 1, 1: 1, 0: 0} |
| Memo.FibFiveCounts | learn3.py:67-68 | the counter part of that scenario, for all keys at once |
| Memo.FibFiveRuns | learn3.py:67-68 | the runs part of that scenario, for all keys at once |
| Memo.FibFiveCache | learn3.py:67-68 | the cache part of that scenario, for all keys at once |
| Memo.WarmFiveCounts | learn3.py:51-70 | after the whole test script, `call_count` is exactly {`expensive_compute(5)`: 2} plus the `fibonacci` counts above |
| Memo.WarmFiveRuns | learn3.py:51-70 | over the whole script, the bodies run are `expensive_compute(5)` and `fibonacci(0)` to `fibonacci(5)`, each once |
| Memo.WarmFiveCache | learn3.py:51-70 | after the whole script, `cache` is exactly {`expensive_compute(5)`: 25} plus the six `fibonacci` entries |
| Memo.SimpleCache.constructor | learn3.py:9-11 | a new cache has both dictionaries empty, and the invariant `Valid` (every cached key has a counter, every counter is at least 1) holds from construction on |
| Memo.SimpleCache.Lookup | learn3.py:18-28 | the in-place counter bump and lookup move the object exactly as `Enter` |
| Memo.SimpleCache.Store | learn3.py:32-34 | the in-place store moves the object exactly as `Leave` (nothing is stored on a raise) |
| Memo.SimpleCache.Call | learn3.py:16-34 | one call of the in-place wrapper moves the object and returns exactly as `Invoke`, and it keeps `Valid` |
| Memo.SimpleCache.Fibonacci | learn3.py:57-61 | the decorated `fibonacci` as a recursive method over the object: it counts the call and looks the key up in place, and on a miss it runs `Body` and then stores the result in place. It moves the object and returns exactly as `FibRun`. |
| Memo.SimpleCache.Body | learn3.py:59-61 | the body of `fibonacci` over the object: its two recursive calls go back through `Fibonacci`. It moves the object and returns exactly as `FibExec`. |
| Memo.FibonacciFive | learn3.py:67-68 | `fibonacci(5)` on an object with no `fibonacci` entry returns 5 and changes counters, runs and cache as in the scenario above |
| Memo.Script | learn3.py:51-70 | the test script on a new object: 25, then 25, then 5. The object ends with `call_count` {`expensive_compute(5)`: 2, 5: 1, 4: 1, 3: 2, 2: 2, 1: 2, 0: 1}, the matching seven entries in `cache`, and each of those seven bodies run once. |
| Repetition.Repeat | learn4.py:7-19 | the loop returns exactly what `Calls` gives for `range(times)` calls (none for `times <= 0`), and the world those calls leave. For `times <= 0` it gives `[]` and leaves the world untouched. When no call raises, the list has exactly `times` elements (0 for `times <= 0`). Element `i` is what the `(i+1)`-th call returned, made with the same arguments on the world the first `i` calls left. |
| Repetition.Calls | learn4.py:12-17 | the reference for the `for` loop: the first `k` calls in order, each on the world the previous one left, stopping at the first exception. No contract of its own; `Repeat` is proved equal to it, and `StopsAfterError`, `CallsLength`, `CallsPrefix` and `CallsElement` state its properties. |
| Repetition.Counted | learn4.py:15 | a pure wrapped function, as a function over a world that only counts its calls. No contract of its own; `CountedCalls` states what `k` calls of it give. |
| Repetition.StopsAfterError | learn4.py:13-17 | once a call raises, no later call is made: the outcome is that exception, and the world is the one the raising call left |
| Repetition.CallsLength | learn4.py:12-17 | when no call raises, the list has exactly one element per call |
| Repetition.CallsPrefix | learn4.py:13-16 | the calls happen in order: the first `j` calls of `k` raise nothing, and their results are the first `j` elements of the list |
| Repetition.CallsElement | learn4.py:15-16 | element `i` of the list is the result of the `(i+1)`-th call, made with the same arguments on the world the first `i` calls left |
| Repetition.CountedCalls | learn4.py:13-16 | a function that returns `v` on the arguments, called `k` times, gives `k` copies of `v` and is counted exactly `k` times |
| Repetition.SayHelloAlice | learn4.py:23-39 | `say_hello("Alice")` under `repeat(3)` gives ["done", "done", "done"] and is called 3 times |
| Repetition.ComputeFive | learn4.py:28-43 | `compute(5)` (its body `Compute`: twice the argument) under `repeat(2)` gives [10, 10] and is called twice |
| Repetition.RepeatNone | learn4.py:12-13 | with `times <= 0` the function is never called, and the result is `[]` |

## Left out

- `SimpleCache.stats` (learn3.py:38-43) and every `print` in both files are console output only. The result lines the two scripts print are stated by the scenario members instead.
- Keyword arguments are not modelled. learn3.py's wrapper accepts only positional arguments. learn4.py's wrapper forwards keyword arguments unchanged, and `Repeat` folds all of its arguments into one value `args`.
- Arguments and results of functions wrapped by `SimpleCache` are integers (`seq<int>` and `int`), which is all the test script uses. Python's hashing of arbitrary tuples is not modelled.
- Two different functions with the same `__name__` share cache entries and counters, because the key holds only the name. The model keeps this behaviour but does not model function objects.
- In `SimpleCache`, a body is a function of its arguments only. A body with side effects, or that reads the cache itself, is modelled only for `fibonacci`, through the dedicated `FibRun`/`SimpleCache.Fibonacci`.
- Python's recursion limit and any other interpreter error are not modelled.
- `functools.wraps` metadata (`__name__`, `__doc__` of the wrapper) is not modelled.
- learn1.py, learn2.py, learn5.py and test.py are not part of this model.
