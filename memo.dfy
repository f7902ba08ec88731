/** A model of `SimpleCache` (learn3.py): a memoiser that keeps two dictionaries,
    `cache` (key to result) and `call_count` (key to number of calls), and whose
    `cached` decorator wraps a function so that every call is counted and a result
    already stored is returned without running the body again.

    The module has two layers. `State`, `Enter`, `Leave`, `Invoke` and `FibRun` are a
    functional model of the two dictionaries and of one wrapped call; the lemmas state
    what the memoiser promises about them. `SimpleCache` is the class itself, whose
    methods update the dictionaries in place and are proved to move its state exactly
    as the functional model says. */
module Memo {

  /** The key built by the wrapper (learn3.py:18): the wrapped function's `__name__`
      and the tuple of its positional arguments. The name stands for the function, so
      two different functions that share a `__name__` also share their cache entries
      and their counters; the model keeps that behaviour and does not model function
      objects. Arguments are restricted to integers here. */
  datatype Key = Key(name: string, args: seq<int>)

  /** What one execution of a wrapped function's body gives: a value, or an exception
      that the wrapper lets propagate to its caller. */
  datatype Outcome = Returned(value: int) | Raised(error: string)

  datatype Option<T> = None | Some(value: T)

  /** The state of one `SimpleCache`: its two dictionaries, and `runs`, how many times
      the body has run for each key. `runs` is not a field of the Python
      object; it records the observation "the body ran" that the properties below are
      about. */
  datatype State = State(cache: map<Key, int>, callCount: map<Key, nat>, runs: multiset<Key>)

  /** A freshly constructed cache (learn3.py:9-11). */
  const Empty := State(map[], map[], multiset{})

  /** `call_count.get(key, 0)`. */
  function Count(m: map<Key, nat>, k: Key): nat {
    if k in m then m[k] else 0
  }

  /** The invariant every call keeps: a key is cached only after it has been counted,
      and a counter that exists is at least 1. */
  predicate Valid(s: State) {
    (forall k :: k in s.callCount ==> s.callCount[k] >= 1) &&
    (forall k :: k in s.cache ==> k in s.callCount)
  }

  /** `Valid` for one key. */
  predicate ValidAt(s: State, k: Key) {
    (k in s.callCount ==> s.callCount[k] >= 1) && (k in s.cache ==> k in s.callCount)
  }

  /** The cache agrees with `body`: every entry stored under `name` is what `body`
      returns for those arguments. */
  predicate Memoizes(s: State, name: string, body: seq<int> -> Outcome) {
    forall k :: k in s.cache && k.name == name ==> body(k.args) == Returned(s.cache[k])
  }

  /** The first half of the wrapper (learn3.py:21-28): count the call, then look the
      key up. A miss means the body is about to run, which `runs` records. */
  function Enter(s: State, key: Key): (r: (State, Option<int>))
    ensures r.0.cache == s.cache
    ensures r.1.Some? <==> key in s.cache
    ensures r.1.Some? ==> r.1.value == s.cache[key]
  {
    var counted := s.(callCount := s.callCount[key := Count(s.callCount, key) + 1]);
    if key in s.cache then (counted, Some(s.cache[key]))
    else (counted.(runs := s.runs + multiset{key}), None)
  }

  /** The second half of the wrapper (learn3.py:32-34): store what the body returned;
      an exception propagates and stores nothing. */
  function Leave(s: State, key: Key, out: Outcome): State {
    if out.Returned? then s.(cache := s.cache[key := out.value]) else s
  }

  /** One call of the function `body`, decorated with `cached` under the name `name`,
      on the positional arguments `args` (learn3.py:16-34). */
  function Invoke(s: State, name: string, body: seq<int> -> Outcome, args: seq<int>): (r: (State, Outcome))
    // every call counts exactly once, hit or miss, and no other counter moves
    ensures Count(r.0.callCount, Key(name, args)) == Count(s.callCount, Key(name, args)) + 1
    ensures forall k :: k != Key(name, args) ==> Count(r.0.callCount, k) == Count(s.callCount, k)
    ensures r.0.callCount.Keys == s.callCount.Keys + {Key(name, args)}
    // a hit returns the stored value and does not run the body
    ensures Key(name, args) in s.cache ==>
      r.1 == Returned(s.cache[Key(name, args)]) && r.0.cache == s.cache && r.0.runs == s.runs
    // a miss runs the body exactly once and passes on what it gives
    ensures Key(name, args) !in s.cache ==> r.1 == body(args) && r.0.runs == s.runs + multiset{Key(name, args)}
    // only this key's entry can appear; no entry disappears or changes
    ensures forall k :: k in s.cache ==> k in r.0.cache && r.0.cache[k] == s.cache[k]
    ensures forall k :: k in r.0.cache && k !in s.cache ==> k == Key(name, args)
    // the key is cached afterwards exactly when it was before or the body returned,
    // and whatever is cached under it is what this call returned
    ensures Key(name, args) in r.0.cache <==> Key(name, args) in s.cache || r.1.Returned?
    ensures Key(name, args) in r.0.cache ==> r.1 == Returned(r.0.cache[Key(name, args)])
    ensures Valid(s) ==> Valid(r.0)
    // a cache that agrees with the body is invisible: the result is the body's own
    ensures Memoizes(s, name, body) ==> r.1 == body(args) && Memoizes(r.0, name, body)
  {
    var key := Key(name, args);
    var (s1, hit) := Enter(s, key);
    if hit.Some? then (s1, Returned(hit.value))
    else
      var out := body(args);
      (Leave(s1, key, out), out)
  }

  /** A repeated identical call (learn3.py:64-65): after a call that returned, the next
      identical call is a hit that returns the same value and runs nothing; after a
      call that raised, nothing was cached and the next call runs the body again. */
  lemma RepeatedCall(s: State, name: string, body: seq<int> -> Outcome, args: seq<int>)
    ensures var (s1, first) := Invoke(s, name, body, args);
            var (s2, second) := Invoke(s1, name, body, args);
            Count(s2.callCount, Key(name, args)) == Count(s.callCount, Key(name, args)) + 2 &&
            (first.Returned? ==> second == first && s2.runs == s1.runs && s2.cache == s1.cache) &&
            (first.Raised? && Key(name, args) !in s.cache ==>
               second == body(args) && s2.runs == s1.runs + multiset{Key(name, args)} && Key(name, args) !in s1.cache)
  {
  }

  /** `expensive_compute` (learn3.py:54-55) as a body; any other number of arguments
      is Python's `TypeError`. */
  function Square(args: seq<int>): Outcome {
    if |args| == 1 then Returned(args[0] * args[0]) else Raised("TypeError")
  }

  /** The Fibonacci numbers as `fibonacci` (learn3.py:58-61) defines them, including
      its choice to return `n` itself for every `n <= 1`. */
  function Fib(n: int): int
    decreases if n < 0 then 0 else n
  {
    if n <= 1 then n else Fib(n - 1) + Fib(n - 2)
  }

  /** `fibonacci`'s body without the cache, as a body `Invoke` could run. */
  function FibBody(args: seq<int>): Outcome {
    if |args| == 1 then Returned(Fib(args[0])) else Raised("TypeError")
  }

  const FibName := "fibonacci"

  function FibKey(n: int): Key {
    Key(FibName, [n])
  }

  predicate IsFibKey(k: Key) {
    k.name == FibName && |k.args| == 1
  }

  /** `fibonacci(n)` decorated with `cached` (learn3.py:57-61): its two recursive
      calls go back through the wrapper, so they are counted and may hit. */
  function FibRun(s: State, n: int): (r: (State, int))
    decreases if n < 0 then 0 else n, 1
  {
    var entered := Enter(s, FibKey(n));
    if entered.1.Some? then (entered.0, entered.1.value)
    else
      var body := FibExec(entered.0, n);
      (Leave(body.0, FibKey(n), Returned(body.1)), body.1)
  }

  /** The body of `fibonacci` (learn3.py:59-61) on its own, without the wrapper's store. */
  function FibExec(s: State, n: int): (r: (State, int))
    decreases if n < 0 then 0 else n, 0
  {
    if n <= 1 then (s, n)
    else
      var first := FibRun(s, n - 1);
      var second := FibRun(first.0, n - 2);
      (second.0, first.1 + second.1)
  }

  /** `fibonacci(n)` never removes or overwrites a cache entry. */
  lemma {:induction false} FibRunKeeps(s: State, n: int, k: Key)
    decreases if n < 0 then 0 else n
    requires k in s.cache
    ensures k in FibRun(s, n).0.cache && FibRun(s, n).0.cache[k] == s.cache[k]
  {
    var key := FibKey(n);
    var s1 := Enter(s, key).0;
    if key !in s.cache && n > 1 {
      var first := FibRun(s1, n - 1);
      var second := FibRun(first.0, n - 2);
      assert FibRun(s, n).0 == Leave(second.0, key, Returned(first.1 + second.1));
      FibRunKeeps(s1, n - 1, k);
      FibRunKeeps(first.0, n - 2, k);
    }
  }

  /** The entries `fibonacci(n)` adds are those of `fibonacci(j)` for `j == n` or
      `0 <= j <= n`, and `fibonacci(n)`'s own is among them. */
  lemma {:induction false} FibRunAdds(s: State, n: int, k: Key)
    decreases if n < 0 then 0 else n
    ensures k in FibRun(s, n).0.cache && k !in s.cache ==>
      IsFibKey(k) && k.args[0] <= n && (k.args[0] == n || 0 <= k.args[0])
    ensures k == FibKey(n) ==> k in FibRun(s, n).0.cache
  {
    var key := FibKey(n);
    var s1 := Enter(s, key).0;
    if key in s.cache {
      assert FibRun(s, n).0 == s1;
    } else if n <= 1 {
      assert FibRun(s, n).0.cache == s.cache[key := n];
    } else {
      var first := FibRun(s1, n - 1);
      var second := FibRun(first.0, n - 2);
      assert FibRun(s, n).0 == Leave(second.0, key, Returned(first.1 + second.1));
      if k != key && k in second.0.cache && k !in s.cache {
        // the entry was added by one of the two nested calls
        var j := if k in first.0.cache then n - 1 else n - 2;
        var before := if k in first.0.cache then s1 else first.0;
        assert k in FibRun(before, j).0.cache && k !in before.cache;
        FibRunAdds(before, j, k);
      }
    }
  }

  /** What `fibonacci(n)` does to the counter of one key `k`: it never decreases, it
      moves only for some `fibonacci(j)` with `j == n` or `0 <= j <= n`,
      `fibonacci(n)`'s own moves by exactly 1, and a counter that exists afterwards
      but not before is at least 1. */
  lemma {:induction false} FibRunCount(s: State, n: int, k: Key)
    decreases if n < 0 then 0 else n
    ensures Count(s.callCount, k) <= Count(FibRun(s, n).0.callCount, k)
    ensures Count(FibRun(s, n).0.callCount, k) != Count(s.callCount, k) ==>
      IsFibKey(k) && k.args[0] <= n && (k.args[0] == n || 0 <= k.args[0])
    ensures k == FibKey(n) ==> Count(FibRun(s, n).0.callCount, k) == Count(s.callCount, k) + 1
    ensures k in s.callCount ==> k in FibRun(s, n).0.callCount
    ensures k in FibRun(s, n).0.callCount && k !in s.callCount ==> FibRun(s, n).0.callCount[k] >= 1
  {
    var key := FibKey(n);
    var s1 := Enter(s, key).0;
    if key !in s.cache && n > 1 {
      var first := FibRun(s1, n - 1);
      var second := FibRun(first.0, n - 2);
      assert FibRun(s, n).0.callCount == second.0.callCount;
      FibRunCount(s1, n - 1, k);
      FibRunCount(first.0, n - 2, k);
    }
  }

  /** `fibonacci(n)` keeps the invariant, key by key. */
  lemma {:induction false} FibRunValidAt(s: State, n: int, k: Key)
    decreases if n < 0 then 0 else n
    requires ValidAt(s, k)
    ensures ValidAt(FibRun(s, n).0, k)
  {
    var key := FibKey(n);
    var s1 := Enter(s, key).0;
    FibRunCount(s, n, k);
    if key !in s.cache && n > 1 {
      var first := FibRun(s1, n - 1);
      var second := FibRun(first.0, n - 2);
      assert FibRun(s, n).0 == Leave(second.0, key, Returned(first.1 + second.1));
      FibRunValidAt(s1, n - 1, k);
      FibRunValidAt(first.0, n - 2, k);
      FibRunCount(s1, n - 1, key);
      FibRunCount(first.0, n - 2, key);
    }
  }

  /** Every call of the wrapped `fibonacci` keeps `Valid`. */
  lemma FibRunValid(s: State, n: int)
    requires Valid(s)
    ensures Valid(FibRun(s, n).0)
  {
    var r := FibRun(s, n).0;
    forall k ensures (k in r.callCount ==> r.callCount[k] >= 1) && (k in r.cache ==> k in r.callCount) {
      FibRunValidAt(s, n, k);
    }
  }

  /** Every entry cached under the name `fibonacci` holds the Fibonacci number of its
      one argument. */
  predicate FibAgrees(s: State) {
    forall k :: k in s.cache && k.name == FibName ==> IsFibKey(k) && s.cache[k] == Fib(k.args[0])
  }

  /** `FibAgrees` is `Memoizes` for the body of `fibonacci`. */
  lemma FibAgreesMemoizes(s: State)
    ensures FibAgrees(s) <==> Memoizes(s, FibName, FibBody)
  {
    if Memoizes(s, FibName, FibBody) {
      forall k | k in s.cache && k.name == FibName ensures IsFibKey(k) && s.cache[k] == Fib(k.args[0]) {
        assert FibBody(k.args) == Returned(s.cache[k]);
      }
    }
  }

  /** Counting a call keeps an agreeing cache agreeing, and a hit on `fibonacci(n)`
      there answers the Fibonacci number. */
  lemma EnterAgrees(s: State, n: int)
    requires FibAgrees(s)
    ensures FibAgrees(Enter(s, FibKey(n)).0)
    ensures FibKey(n) in s.cache ==> s.cache[FibKey(n)] == Fib(n)
  {
    assert Enter(s, FibKey(n)).0.cache == s.cache;
  }

  /** Storing the Fibonacci number of `n` under `fibonacci(n)` keeps the cache agreeing. */
  lemma LeaveAgrees(s: State, n: int)
    requires FibAgrees(s)
    ensures FibAgrees(Leave(s, FibKey(n), Returned(Fib(n))))
  {
    var t := Leave(s, FibKey(n), Returned(Fib(n)));
    forall k | k in t.cache && k.name == FibName ensures IsFibKey(k) && t.cache[k] == Fib(k.args[0]) {
      if k != FibKey(n) {
        assert k in s.cache;
      }
    }
  }

  /** Under a cache that agrees with `fibonacci`, the wrapped `fibonacci(n)` returns
      the Fibonacci number and leaves the cache agreeing. */
  lemma {:induction false} FibRunCorrect(s: State, n: int)
    decreases if n < 0 then 0 else n
    requires FibAgrees(s)
    ensures FibRun(s, n).1 == Fib(n) && FibAgrees(FibRun(s, n).0)
  {
    var key := FibKey(n);
    var s1 := Enter(s, key).0;
    EnterAgrees(s, n);
    if key in s.cache {
      assert FibRun(s, n) == (s1, s.cache[key]);
    } else if n <= 1 {
      assert FibRun(s, n) == (Leave(s1, key, Returned(n)), n);
      LeaveAgrees(s1, n);
    } else {
      var first := FibRun(s1, n - 1);
      FibRunCorrect(s1, n - 1);
      var second := FibRun(first.0, n - 2);
      FibRunCorrect(first.0, n - 2);
      assert FibRun(s, n) == (Leave(second.0, key, Returned(Fib(n))), Fib(n));
      LeaveAgrees(second.0, n);
    }
  }

  /** For every key, the number of times `fibonacci(n)` runs its body grows by one
      exactly when `fibonacci(n)` newly caches that key, and by nothing otherwise: no
      body of a key already cached runs again, and no body runs twice. */
  lemma {:induction false} FibRunRuns(s: State, n: int, k: Key)
    decreases if n < 0 then 0 else n
    ensures FibRun(s, n).0.runs[k] == s.runs[k] + if k in FibRun(s, n).0.cache && k !in s.cache then 1 else 0
  {
    var key := FibKey(n);
    var s1 := Enter(s, key).0;
    if key !in s.cache && n > 1 {
      var first := FibRun(s1, n - 1);
      var second := FibRun(first.0, n - 2);
      assert FibRun(s, n).0 == Leave(second.0, key, Returned(first.1 + second.1));
      FibRunRuns(s1, n - 1, k);
      FibRunRuns(first.0, n - 2, k);
      FibRunAdds(s1, n - 1, k);
      FibRunAdds(first.0, n - 2, k);
      if k in s1.cache { FibRunKeeps(s1, n - 1, k); }
      if k in first.0.cache { FibRunKeeps(first.0, n - 2, k); }
    }
  }

  /** No entry is cached under the name `fibonacci` yet. */
  predicate NoFibCached(s: State) {
    forall k :: k in s.cache ==> k.name != FibName
  }

  /** How many calls `fibonacci(n)`, for `n >= 2` and with nothing of `fibonacci`
      cached, makes through the wrapper with the argument `j`: one each for `n`, `n - 1`
      and 0, and two for every `j` strictly between 0 and `n - 1` (once computed and once
      as a hit). */
  function ColdCalls(n: int, j: int): nat {
    if j == n || j == n - 1 || j == 0 then 1
    else if 1 <= j <= n - 2 then 2
    else 0
  }

  /** Whether `k` is the key of some `fibonacci(j)` with `0 <= j <= n`. */
  predicate FibUpTo(k: Key, n: int) {
    IsFibKey(k) && 0 <= k.args[0] <= n
  }

  lemma FibKeyOf(k: Key)
    requires IsFibKey(k)
    ensures k == FibKey(k.args[0])
  {
    assert k.args == [k.args[0]];
  }

  lemma FibKeyInjective(a: int, b: int)
    ensures FibKey(a) == FibKey(b) <==> a == b
  {
    if FibKey(a) == FibKey(b) {
      assert FibKey(a).args[0] == FibKey(b).args[0];
    }
  }

  /** `fibonacci(2)` from a cache that holds nothing of `fibonacci`, unfolded: it runs
      the bodies of `fibonacci(1)` and `fibonacci(0)` through the wrapper, then stores
      its own result. */
  lemma ColdFibTwo(s: State)
    requires NoFibCached(s)
    ensures var s1 := Enter(s, FibKey(2)).0;
            var first := Leave(Enter(s1, FibKey(1)).0, FibKey(1), Returned(1));
            var second := Leave(Enter(first, FibKey(0)).0, FibKey(0), Returned(0));
            FibRun(s, 2).0 == Leave(second, FibKey(2), Returned(1))
  {
    var s1 := Enter(s, FibKey(2)).0;
    var first := Leave(Enter(s1, FibKey(1)).0, FibKey(1), Returned(1));
    assert FibRun(s1, 1) == (first, 1);
    var second := Leave(Enter(first, FibKey(0)).0, FibKey(0), Returned(0));
    assert FibRun(first, 0) == (second, 0);
  }

  /** `fibonacci(n)` for `n >= 3` from a cache that holds nothing of `fibonacci`,
      unfolded: after the first nested call, the second one is a hit. */
  lemma ColdFibStep(s: State, n: int)
    requires n >= 3 && NoFibCached(s)
    requires FibKey(n - 2) in FibRun(Enter(s, FibKey(n)).0, n - 1).0.cache
    ensures var first := FibRun(Enter(s, FibKey(n)).0, n - 1);
            var s3 := Enter(first.0, FibKey(n - 2)).0;
            FibRun(s, n).0 == Leave(s3, FibKey(n), Returned(first.1 + first.0.cache[FibKey(n - 2)]))
  {
    var s1 := Enter(s, FibKey(n)).0;
    var first := FibRun(s1, n - 1);
    assert FibRun(first.0, n - 2) == (Enter(first.0, FibKey(n - 2)).0, first.0.cache[FibKey(n - 2)]);
  }

  /** The change `fibonacci(n)` makes to the counter of `k`, from a cache that holds
      nothing of `fibonacci`. */
  function ColdDelta(n: int, k: Key): nat {
    if IsFibKey(k) then ColdCalls(n, k.args[0]) else 0
  }

  lemma ColdFibTwoCount(s: State, k: Key)
    requires NoFibCached(s)
    ensures Count(FibRun(s, 2).0.callCount, k) == Count(s.callCount, k) + ColdDelta(2, k)
  {
    ColdFibTwo(s);
    var hits := (if k == FibKey(2) then 1 else 0) + (if k == FibKey(1) then 1 else 0) + (if k == FibKey(0) then 1 else 0);
    assert Count(FibRun(s, 2).0.callCount, k) == Count(s.callCount, k) + hits;
    if IsFibKey(k) {
      FibKeyOf(k);
      FibKeyInjective(k.args[0], 2);
      FibKeyInjective(k.args[0], 1);
      FibKeyInjective(k.args[0], 0);
    }
  }

  lemma ColdFibTwoRuns(s: State, k: Key)
    requires NoFibCached(s)
    ensures FibRun(s, 2).0.runs[k] == s.runs[k] + if FibUpTo(k, 2) then 1 else 0
    ensures k in FibRun(s, 2).0.cache <==> k in s.cache || FibUpTo(k, 2)
  {
    ColdFibTwo(s);
    var added := k == FibKey(2) || k == FibKey(1) || k == FibKey(0);
    assert FibRun(s, 2).0.runs[k] == s.runs[k] + if added then 1 else 0;
    assert k in FibRun(s, 2).0.cache <==> k in s.cache || added;
    if IsFibKey(k) {
      FibKeyOf(k);
      FibKeyInjective(k.args[0], 2);
      FibKeyInjective(k.args[0], 1);
      FibKeyInjective(k.args[0], 0);
    }
  }

  /** `fibonacci(n)` for `n >= 2` from a cache that holds nothing of `fibonacci` adds
      exactly the entries of `fibonacci(j)` for `0 <= j <= n`. */
  lemma {:induction false} ColdFibCache(s: State, n: int, k: Key)
    decreases n
    requires n >= 2 && NoFibCached(s)
    ensures k in FibRun(s, n).0.cache <==> k in s.cache || FibUpTo(k, n)
  {
    if n == 2 {
      ColdFibTwoRuns(s, k);
    } else {
      var s1 := Enter(s, FibKey(n)).0;
      ColdFibCache(s1, n - 1, k);
      ColdFibCache(s1, n - 1, FibKey(n - 2));
      ColdFibStep(s, n);
      if IsFibKey(k) {
        FibKeyOf(k);
        FibKeyInjective(k.args[0], n);
      }
    }
  }

  /** One step of `ColdFibCount` for `n >= 3`, given what the first nested call does. */
  lemma ColdFibCountStep(s: State, n: int, k: Key)
    requires n >= 3 && NoFibCached(s)
    requires FibKey(n - 2) in FibRun(Enter(s, FibKey(n)).0, n - 1).0.cache
    requires Count(FibRun(Enter(s, FibKey(n)).0, n - 1).0.callCount, k) ==
      Count(Enter(s, FibKey(n)).0.callCount, k) + ColdDelta(n - 1, k)
    ensures Count(FibRun(s, n).0.callCount, k) == Count(s.callCount, k) + ColdDelta(n, k)
  {
    ColdFibStep(s, n);
    var s1 := Enter(s, FibKey(n)).0;
    var first := FibRun(s1, n - 1).0;
    var s3 := Enter(first, FibKey(n - 2)).0;
    var outer := if k == FibKey(n) then 1 else 0;
    var inner := if k == FibKey(n - 2) then 1 else 0;
    assert Count(s1.callCount, k) == Count(s.callCount, k) + outer;
    assert Count(s3.callCount, k) == Count(first.callCount, k) + inner;
    if IsFibKey(k) {
      FibKeyOf(k);
      FibKeyInjective(k.args[0], n);
      FibKeyInjective(k.args[0], n - 2);
    }
    assert outer + ColdDelta(n - 1, k) + inner == ColdDelta(n, k);
  }

  /** `fibonacci(n)` for `n >= 2` from a cache that holds nothing of `fibonacci`
      raises the counter of every `fibonacci(j)` by `ColdCalls(n, j)` and no other. */
  lemma {:induction false} ColdFibCount(s: State, n: int, k: Key)
    decreases n
    requires n >= 2 && NoFibCached(s)
    ensures Count(FibRun(s, n).0.callCount, k) == Count(s.callCount, k) + ColdDelta(n, k)
  {
    if n == 2 {
      ColdFibTwoCount(s, k);
    } else {
      var s1 := Enter(s, FibKey(n)).0;
      ColdFibCount(s1, n - 1, k);
      ColdFibCache(s1, n - 1, FibKey(n - 2));
      ColdFibCountStep(s, n, k);
    }
  }

  /** One step of `ColdFibRuns` for `n >= 3`, given what the first nested call does. */
  lemma ColdFibRunsStep(s: State, n: int, k: Key)
    requires n >= 3 && NoFibCached(s)
    requires FibKey(n - 2) in FibRun(Enter(s, FibKey(n)).0, n - 1).0.cache
    requires FibRun(Enter(s, FibKey(n)).0, n - 1).0.runs[k] ==
      Enter(s, FibKey(n)).0.runs[k] + if FibUpTo(k, n - 1) then 1 else 0
    ensures FibRun(s, n).0.runs[k] == s.runs[k] + if FibUpTo(k, n) then 1 else 0
  {
    ColdFibStep(s, n);
    var s1 := Enter(s, FibKey(n)).0;
    assert s1.runs[k] == s.runs[k] + if k == FibKey(n) then 1 else 0;
    if IsFibKey(k) {
      FibKeyOf(k);
      FibKeyInjective(k.args[0], n);
    }
  }

  /** `fibonacci(n)` for `n >= 2` from a cache that holds nothing of `fibonacci` runs
      the body of every `fibonacci(j)` with `0 <= j <= n` exactly once, and no other. */
  lemma {:induction false} ColdFibRuns(s: State, n: int, k: Key)
    decreases n
    requires n >= 2 && NoFibCached(s)
    ensures FibRun(s, n).0.runs[k] == s.runs[k] + if FibUpTo(k, n) then 1 else 0
  {
    if n == 2 {
      ColdFibTwoRuns(s, k);
    } else {
      var s1 := Enter(s, FibKey(n)).0;
      ColdFibRuns(s1, n - 1, k);
      ColdFibCache(s1, n - 1, FibKey(n - 2));
      ColdFibRunsStep(s, n, k);
    }
  }

  const ComputeName := "expensive_compute"

  /** The key of `expensive_compute(5)`. */
  const ComputeKey := Key(ComputeName, [5])

  /** The cache after the first part of the learn3.py test script. */
  const Warm := State(map[ComputeKey := 25], map[ComputeKey := 2], multiset{ComputeKey})

  /** The first part of the test script of learn3.py (lines 51-65), on a fresh cache:
      `expensive_compute(5)` runs its body and returns 25; called again, it is a hit
      and returns 25 without running; its counter is then 2. */
  lemma ComputeTwice()
    ensures Invoke(Empty, ComputeName, Square, [5]) ==
      (State(map[ComputeKey := 25], map[ComputeKey := 1], multiset{ComputeKey}), Returned(25))
    ensures Invoke(Invoke(Empty, ComputeName, Square, [5]).0, ComputeName, Square, [5]) == (Warm, Returned(25))
  {
    var c1 := Invoke(Empty, ComputeName, Square, [5]);
    assert c1.0.callCount == map[ComputeKey := 1];
    assert c1.0.runs == multiset{ComputeKey};
    var c2 := Invoke(c1.0, ComputeName, Square, [5]);
    assert c2.0.callCount == map[ComputeKey := 2];
  }

  /** The calls `fibonacci(5)` makes through the wrapper when nothing of `fibonacci`
      is cached: {5: 1, 4: 1, 3: 2, 2: 2, 1: 2, 0: 1}. */
  const FiveCalls: map<Key, nat> := map[FibKey(5) := 1, FibKey(4) := 1, FibKey(3) := 2,
                         FibKey(2) := 2, FibKey(1) := 2, FibKey(0) := 1]

  /** The entries `fibonacci(5)` caches when nothing of `fibonacci` is cached. */
  const FiveEntries := map[FibKey(5) := 5, FibKey(4) := 3, FibKey(3) := 2,
                           FibKey(2) := 1, FibKey(1) := 1, FibKey(0) := 0]

  /** The bodies `fibonacci(5)` runs when nothing of `fibonacci` is cached: each of
      `fibonacci(0)` to `fibonacci(5)` once. */
  const FiveRuns := multiset{FibKey(5), FibKey(4), FibKey(3), FibKey(2), FibKey(1), FibKey(0)}

  /** Which of the six keys of `fibonacci(0)` to `fibonacci(5)` a key is, if any. */
  lemma FiveKeys(k: Key)
    ensures FibUpTo(k, 5) <==> k in FiveCalls
    ensures k in FiveCalls <==> k in FiveEntries
    ensures k in FiveCalls <==> k in FiveRuns
    ensures k in FiveCalls ==> FiveCalls[k] == ColdCalls(5, k.args[0])
    ensures k in FiveCalls ==> FiveEntries[k] == Fib(k.args[0]) && FiveRuns[k] == 1
    ensures k !in FiveCalls ==> FiveRuns[k] == 0
  {
    if IsFibKey(k) {
      FibKeyOf(k);
      var j := k.args[0];
      FibKeyInjective(j, 0); FibKeyInjective(j, 1); FibKeyInjective(j, 2);
      FibKeyInjective(j, 3); FibKeyInjective(j, 4); FibKeyInjective(j, 5);
    } else {
      assert k != FibKey(0) && k != FibKey(1) && k != FibKey(2) && k != FibKey(3) && k != FibKey(4) && k != FibKey(5);
    }
  }

  /** The scenario of learn3.py:67-68, on a cache holding nothing of `fibonacci` (the
      test script has only `expensive_compute(5)` in it by then): `fibonacci(5)`
      raises the counters by `FiveCalls` and leaves every other counter alone. */
  lemma FibFiveCountsAt(s: State, k: Key)
    requires NoFibCached(s)
    ensures Count(FibRun(s, 5).0.callCount, k) == Count(s.callCount, k) + Count(FiveCalls, k)
    ensures k in FibRun(s, 5).0.callCount <==> k in s.callCount || k in FiveCalls
  {
    ColdFibCount(s, 5, k);
    FibRunCount(s, 5, k);
    FiveKeys(k);
  }

  /** In the same scenario each body of `fibonacci(0)` to `fibonacci(5)` runs exactly
      once and no other body runs. */
  lemma FibFiveRunsAt(s: State, k: Key)
    requires NoFibCached(s)
    ensures FibRun(s, 5).0.runs[k] == s.runs[k] + FiveRuns[k]
  {
    ColdFibRuns(s, 5, k);
    FiveKeys(k);
  }

  /** In the same scenario the cache keeps its entries and gains exactly `FiveEntries`. */
  lemma FibFiveCacheAt(s: State, k: Key)
    requires NoFibCached(s)
    ensures k in FibRun(s, 5).0.cache <==> k in s.cache || k in FiveEntries
    ensures k in s.cache ==> FibRun(s, 5).0.cache[k] == s.cache[k]
    ensures k in FiveEntries ==> FibRun(s, 5).0.cache[k] == FiveEntries[k]
  {
    assert FibAgrees(s);
    FibRunCorrect(s, 5);
    ColdFibCache(s, 5, k);
    if k in s.cache { FibRunKeeps(s, 5, k); }
    FiveKeys(k);
  }

  /** The memoiser object itself (learn3.py:6-36): the two dictionaries are fields the
      wrapper updates in place; `runs` is the ghost record of the bodies run. */
  class SimpleCache {
    var cache: map<Key, int>
    var callCount: map<Key, nat>
    ghost var runs: multiset<Key>

    ghost function Model(): State
      reads this
    {
      State(cache, callCount, runs)
    }

    /** learn3.py:9-11: both dictionaries start empty. */
    constructor ()
      ensures Model() == Empty
      ensures Valid(Model())
    {
      cache := map[];
      callCount := map[];
      runs := multiset{};
    }

    /** learn3.py:21-28: create the counter at 0 if it is missing, add 1, then answer
        from the cache if the key is there. */
    method Lookup(key: Key) returns (hit: Option<int>)
      modifies this
      ensures (Model(), hit) == Enter(old(Model()), key)
    {
      ghost var before := callCount;
      if key !in callCount {
        callCount := callCount[key := 0];
      }
      callCount := callCount[key := callCount[key] + 1];
      assert callCount == before[key := Count(before, key) + 1];
      if key in cache {
        return Some(cache[key]);
      }
      runs := runs + multiset{key};
      return None;
    }

    /** learn3.py:33: store a result the body returned; an exception skips the store. */
    method Store(key: Key, out: Outcome)
      modifies this
      ensures Model() == Leave(old(Model()), key, out)
    {
      if out.Returned? {
        cache := cache[key := out.value];
      }
    }

    /** The wrapper `cached` builds around `body` under the name `name`, called on
        `args` (learn3.py:16-34). */
    method Call(name: string, body: seq<int> -> Outcome, args: seq<int>) returns (r: Outcome)
      modifies this
      ensures (Model(), r) == Invoke(old(Model()), name, body, args)
      ensures Valid(old(Model())) ==> Valid(Model())
    {
      var key := Key(name, args);
      var hit := Lookup(key);
      if hit.Some? {
        return Returned(hit.value);
      }
      r := body(args);
      Store(key, r);
    }

    /** The decorated `fibonacci` (learn3.py:57-61), whose recursive calls go back
        through this cache: the wrapper's count and lookup, then on a miss the body
        and the store of its result (learn3.py:33). */
    method Fibonacci(n: int) returns (r: int)
      modifies this
      decreases if n < 0 then 0 else n, 1
      ensures (Model(), r) == FibRun(old(Model()), n)
    {
      var hit := Lookup(FibKey(n));
      if hit.Some? {
        return hit.value;
      }
      r := Body(n);
      Store(FibKey(n), Returned(r));
    }

    /** The body of `fibonacci` (learn3.py:59-61), run on a miss. */
    method Body(n: int) returns (r: int)
      modifies this
      decreases if n < 0 then 0 else n, 0
      ensures (Model(), r) == FibExec(old(Model()), n)
    {
      if n <= 1 {
        r := n;
      } else {
        var first := Fibonacci(n - 1);
        var second := Fibonacci(n - 2);
        r := first + second;
      }
    }
  }

  /** `t` is `s` after the calls of `fibonacci(5)` on a cache holding nothing of
      `fibonacci`, as far as the counters go: they rise by `FiveCalls` and no others. */
  ghost predicate FiveCounted(s: State, t: State) {
    (forall k :: Count(t.callCount, k) == Count(s.callCount, k) + Count(FiveCalls, k)) &&
    (forall k :: k in t.callCount <==> k in s.callCount || k in FiveCalls)
  }

  /** The same for the bodies run: `FiveRuns` and no others. */
  ghost predicate FiveRan(s: State, t: State) {
    forall k :: t.runs[k] == s.runs[k] + FiveRuns[k]
  }

  /** The same for the cache: it keeps its entries and gains exactly `FiveEntries`. */
  ghost predicate FiveCached(s: State, t: State) {
    (forall k :: k in t.cache <==> k in s.cache || k in FiveEntries) &&
    (forall k :: k in s.cache ==> t.cache[k] == s.cache[k]) &&
    (forall k :: k in FiveEntries ==> t.cache[k] == FiveEntries[k])
  }

  lemma FibFiveCounts(s: State)
    requires NoFibCached(s)
    ensures FiveCounted(s, FibRun(s, 5).0)
  {
    var t := FibRun(s, 5).0;
    forall k ensures Count(t.callCount, k) == Count(s.callCount, k) + Count(FiveCalls, k) {
      FibFiveCountsAt(s, k);
    }
    forall k ensures k in t.callCount <==> k in s.callCount || k in FiveCalls {
      FibFiveCountsAt(s, k);
    }
  }

  lemma FibFiveRuns(s: State)
    requires NoFibCached(s)
    ensures FiveRan(s, FibRun(s, 5).0)
  {
    var t := FibRun(s, 5).0;
    forall k ensures t.runs[k] == s.runs[k] + FiveRuns[k] {
      FibFiveRunsAt(s, k);
    }
  }

  lemma FibFiveCache(s: State)
    requires NoFibCached(s)
    ensures FiveCached(s, FibRun(s, 5).0)
  {
    var t := FibRun(s, 5).0;
    forall k ensures (k in t.cache <==> k in s.cache || k in FiveEntries) &&
                     (k in s.cache ==> t.cache[k] == s.cache[k]) &&
                     (k in FiveEntries ==> t.cache[k] == FiveEntries[k]) {
      FibFiveCacheAt(s, k);
    }
  }

  /** The counters the learn3.py script ends with (as `stats`, learn3.py:70, would
      print them), from those after the two calls of `expensive_compute(5)`. */
  lemma WarmFiveCounts(t: State)
    requires FiveCounted(Warm, t)
    ensures t.callCount == FiveCalls[ComputeKey := 2]
  {
    forall k ensures (k in t.callCount <==> k in FiveCalls[ComputeKey := 2]) &&
                     Count(t.callCount, k) == Count(FiveCalls[ComputeKey := 2], k) {
      FiveKeys(k);
    }
  }

  /** The bodies run over the whole script. */
  lemma WarmFiveRuns(t: State)
    requires FiveRan(Warm, t)
    ensures t.runs == FiveRuns + multiset{ComputeKey}
  {
    forall k ensures t.runs[k] == (FiveRuns + multiset{ComputeKey})[k] {
      FiveKeys(k);
    }
  }

  /** The cache at the end of the script. */
  lemma WarmFiveCache(t: State)
    requires FiveCached(Warm, t)
    ensures t.cache == FiveEntries[ComputeKey := 25]
  {
    forall k ensures (k in t.cache <==> k in FiveEntries[ComputeKey := 25]) &&
                     (k in t.cache ==> t.cache[k] == FiveEntries[ComputeKey := 25][k]) {
      FiveKeys(k);
    }
  }

  /** The second part of the test script of learn3.py (lines 67-68) on a cache that
      holds nothing of `fibonacci`. */
  method FibonacciFive(c: SimpleCache) returns (fib: int)
    requires NoFibCached(c.Model())
    modifies c
    ensures fib == 5
    ensures FiveCounted(old(c.Model()), c.Model())
    ensures FiveRan(old(c.Model()), c.Model())
    ensures FiveCached(old(c.Model()), c.Model())
  {
    assert FibAgrees(c.Model());
    FibRunCorrect(c.Model(), 5);
    FibFiveCounts(c.Model());
    FibFiveRuns(c.Model());
    FibFiveCache(c.Model());
    fib := c.Fibonacci(5);
  }

  /** The test script of learn3.py (lines 51-68) run on a fresh `SimpleCache`:
      `expensive_compute(5)` twice gives 25 both times, `fibonacci(5)` gives 5, and the
      counters end as `stats` would print them: 2 for `expensive_compute(5)` and
      {5: 1, 4: 1, 3: 2, 2: 2, 1: 2, 0: 1} for `fibonacci`. */
  method Script() returns (c: SimpleCache, first: Outcome, second: Outcome, fib: int)
    ensures first == Returned(25) && second == Returned(25) && fib == 5
    ensures c.Model() == State(FiveEntries[ComputeKey := 25], FiveCalls[ComputeKey := 2], FiveRuns + multiset{ComputeKey})
  {
    c := new SimpleCache();
    first := c.Call(ComputeName, Square, [5]);
    second := c.Call(ComputeName, Square, [5]);
    ComputeTwice();
    fib := FibonacciFive(c);
    WarmFiveCounts(c.Model());
    WarmFiveRuns(c.Model());
    WarmFiveCache(c.Model());
  }
}
