/** A model of the decorator factory `repeat(times)` (learn4.py:7-19): the wrapper it
    builds calls the wrapped function `times` times in a row with the same arguments
    and returns the list of the results, in call order.

    The wrapped function is modelled as a function over a world `W` — whatever it can
    observe and change, such as output written or a counter of its calls — so that
    the number and the order of the calls can be stated. An exception raised by one
    call leaves the loop at once and propagates; the results gathered so far are
    lost. */
module Repetition {

  /** What one call of the wrapped function gives. */
  datatype Reply<R> = Value(value: R) | Error(error: string)

  /** What a call of the wrapper gives: the list `results`, or the exception of the
      call that raised. */
  datatype Outcome<R> = Done(results: seq<R>) | Raised(error: string)

  /** How many times `for i in range(times)` runs its body: never for `times <= 0`. */
  function Times(times: int): nat {
    if times <= 0 then 0 else times
  }

  /** The first `k` calls of `f` on `args`, one after the other, each on the world
      the previous one left; the calls stop at the first exception. */
  function Calls<W, A, R>(f: (W, A) -> (W, Reply<R>), w: W, args: A, k: nat): (W, Outcome<R>)
    decreases k
  {
    if k == 0 then (w, Done([]))
    else
      var before := Calls(f, w, args, k - 1);
      if before.1.Raised? then before
      else
        var call := f(before.0, args);
        if call.1.Error? then (call.0, Raised(call.1.error))
        else (call.0, Done(before.1.results + [call.1.value]))
  }

  /** The wrapper built by `repeat(times)` around `f`, called on `args`, in the world
      `w`; it returns what the calls give and the world they leave. */
  method Repeat<W, A, R>(times: int, f: (W, A) -> (W, Reply<R>), w: W, args: A) returns (out: Outcome<R>, world: W)
    ensures (world, out) == Calls(f, w, args, Times(times))
    ensures times <= 0 ==> out == Done([]) && world == w
    ensures out.Done? ==> |out.results| == Times(times)
    ensures out.Done? ==> forall i :: 0 <= i < |out.results| ==>
      f(Calls(f, w, args, i).0, args).1 == Value(out.results[i])
  {
    var results: seq<R> := [];
    world := w;
    var i := 0;
    while i < Times(times)
      invariant 0 <= i <= Times(times)
      invariant (world, Done(results)) == Calls(f, w, args, i)
    {
      var call := f(world, args);
      world := call.0;
      if call.1.Error? {
        out := Raised(call.1.error);
        StopsAfterError(f, w, args, i, Times(times));
        return;
      }
      results := results + [call.1.value];
      i := i + 1;
    }
    out := Done(results);
    CallsLength(f, w, args, i);
    forall j | 0 <= j < |results| ensures f(Calls(f, w, args, j).0, args).1 == Value(results[j]) {
      CallsElement(f, w, args, i, j);
    }
  }

  /** Once a call has raised, no later call is made: the wrapper's outcome is that
      exception and its world is the one the raising call left. */
  lemma {:induction false} StopsAfterError<W, A, R>(f: (W, A) -> (W, Reply<R>), w: W, args: A, j: nat, k: nat)
    requires j < k
    requires Calls(f, w, args, j).1.Done?
    requires f(Calls(f, w, args, j).0, args).1.Error?
    ensures Calls(f, w, args, k) ==
      (f(Calls(f, w, args, j).0, args).0, Raised(f(Calls(f, w, args, j).0, args).1.error))
    decreases k
  {
    if k - 1 > j {
      StopsAfterError(f, w, args, j, k - 1);
    }
  }

  /** The list holds one result per call: if no call raised, its length is `k`. */
  lemma {:induction false} CallsLength<W, A, R>(f: (W, A) -> (W, Reply<R>), w: W, args: A, k: nat)
    ensures Calls(f, w, args, k).1.Done? ==> |Calls(f, w, args, k).1.results| == k
    decreases k
  {
    if k > 0 {
      CallsLength(f, w, args, k - 1);
    }
  }

  /** Fewer calls are a prefix of more: if `k` calls raise nothing, neither do the
      first `j`, and their results are the first `j` of the list. */
  lemma {:induction false} CallsPrefix<W, A, R>(f: (W, A) -> (W, Reply<R>), w: W, args: A, j: nat, k: nat)
    requires j <= k
    requires Calls(f, w, args, k).1.Done?
    ensures Calls(f, w, args, j).1.Done?
    ensures j <= |Calls(f, w, args, k).1.results|
    ensures Calls(f, w, args, j).1.results == Calls(f, w, args, k).1.results[..j]
    decreases k
  {
    CallsLength(f, w, args, k);
    if j < k {
      var before := Calls(f, w, args, k - 1);
      assert before.1.Done?;
      CallsLength(f, w, args, k - 1);
      CallsPrefix(f, w, args, j, k - 1);
      assert Calls(f, w, args, k).1.results[..k - 1] == before.1.results;
    }
  }

  /** Element `i` of the list is the result of call number `i + 1`, made on the world
      the first `i` calls left. */
  lemma CallsElement<W, A, R>(f: (W, A) -> (W, Reply<R>), w: W, args: A, k: nat, i: nat)
    requires i < k
    requires Calls(f, w, args, k).1.Done?
    ensures i < |Calls(f, w, args, k).1.results|
    ensures f(Calls(f, w, args, i).0, args).1 == Value(Calls(f, w, args, k).1.results[i])
  {
    CallsLength(f, w, args, k);
    CallsPrefix(f, w, args, i + 1, k);
    CallsLength(f, w, args, i);
  }

  /** A wrapped function that only computes `g` and counts its calls in the world. */
  function Counted<A, R>(g: A -> Reply<R>): (nat, A) -> (nat, Reply<R>) {
    (c: nat, a: A) => (c + 1, g(a))
  }

  /** The list of `k` copies of `v`. */
  function Copies<R>(v: R, k: nat): (r: seq<R>)
    ensures |r| == k && forall i :: 0 <= i < k ==> r[i] == v
  {
    if k == 0 then [] else Copies(v, k - 1) + [v]
  }

  /** A function that returns `v` on `args` (and so always does, having nothing else to
      depend on): `k` calls make the list of `k` copies of `v` and are all counted. */
  lemma {:induction false} CountedCalls<A, R>(g: A -> Reply<R>, c: nat, args: A, v: R, k: nat)
    requires g(args) == Value(v)
    ensures Calls(Counted(g), c, args, k) == (c + k, Done(Copies(v, k)))
    decreases k
  {
    if k > 0 {
      CountedCalls(g, c, args, v, k - 1);
      var before := Calls(Counted(g), c, args, k - 1);
      assert Counted(g)(before.0, args) == (before.0 + 1, Value(v));
    }
  }

  /** `say_hello` (learn4.py:23-26): it greets and returns "done". */
  function SayHello(name: string): Reply<string> {
    Value("done")
  }

  /** `compute` (learn4.py:28-31): twice its argument. */
  function Compute(x: int): Reply<int> {
    Value(x * 2)
  }

  /** learn4.py:39: `say_hello("Alice")`, decorated with `repeat(3)`, greets three
      times and gives ["done", "done", "done"]. */
  method SayHelloAlice() returns (out: Outcome<string>, calls: nat)
    ensures out == Done(["done", "done", "done"]) && calls == 3
  {
    CountedCalls(SayHello, 0, "Alice", "done", 3);
    out, calls := Repeat(3, Counted(SayHello), 0, "Alice");
  }

  /** learn4.py:43: `compute(5)`, decorated with `repeat(2)`, computes twice and
      gives [10, 10]. */
  method ComputeFive() returns (out: Outcome<int>, calls: nat)
    ensures out == Done([10, 10]) && calls == 2
  {
    CountedCalls(Compute, 0, 5, 10, 2);
    out, calls := Repeat(2, Counted(Compute), 0, 5);
  }

  /** `repeat(0)`, or any `times <= 0`, makes no call at all and gives []. */
  method RepeatNone<A, R>(times: int, g: A -> Reply<R>, args: A) returns (out: Outcome<R>, calls: nat)
    requires times <= 0
    ensures out == Done([]) && calls == 0
  {
    out, calls := Repeat(times, Counted(g), 0, args);
  }
}
