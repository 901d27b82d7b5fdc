/**
 * The bounded retry combinator: call a function up to `n` times, sleeping
 * between attempts, and give back the first outcome that is not a failure.
 */
module Retry {
  import opened Wrappers

  /** What one call of the retried function does: return a value, or throw or reject. */
  datatype Attempt<+T, +E> = Returned(value: T) | Threw(error: E)

  /** What the combinator does, in order: sleep for a delay, or call the function. */
  datatype Effect = Sleep(ms: int) | Call(attempt: nat)

  /** The effects of `k` calls: a sleep goes before every call but the first. */
  function Schedule(k: nat, delay: int): seq<Effect>
  {
    if k == 0 then []
    else Schedule(k - 1, delay) + (if k > 1 then [Sleep(delay)] else []) + [Call(k - 1)]
  }

  function Sleeps(effects: seq<Effect>): nat {
    if |effects| == 0 then 0 else (if effects[0].Sleep? then 1 else 0) + Sleeps(effects[1..])
  }

  function Calls(effects: seq<Effect>): nat {
    if |effects| == 0 then 0 else (if effects[0].Call? then 1 else 0) + Calls(effects[1..])
  }

  lemma {:induction false} CountsAppend(a: seq<Effect>, b: seq<Effect>)
    ensures Sleeps(a + b) == Sleeps(a) + Sleeps(b)
    ensures Calls(a + b) == Calls(a) + Calls(b)
  {
    if |a| == 0 {
      assert a + b == b;
    } else {
      assert (a + b)[0] == a[0];
      assert (a + b)[1..] == a[1..] + b;
      CountsAppend(a[1..], b);
    }
  }

  /** `k` calls come with exactly `k - 1` sleeps. */
  lemma {:induction false} ScheduleCounts(k: nat, delay: int)
    ensures Calls(Schedule(k, delay)) == k
    ensures k > 0 ==> Sleeps(Schedule(k, delay)) == k - 1
  {
    if k > 0 {
      ScheduleCounts(k - 1, delay);
      var pause: seq<Effect> := if k > 1 then [Sleep(delay)] else [];
      CountsAppend(Schedule(k - 1, delay), pause);
      CountsAppend(Schedule(k - 1, delay) + pause, [Call(k - 1)]);
      assert Calls([Call(k - 1)]) == 1 && Sleeps([Call(k - 1)]) == 0;
      assert Calls(pause) == 0 && Sleeps(pause) == (if k > 1 then 1 else 0);
    }
  }

  /**
   * `retry(n, delay)(fn)`, where `outcome(i)` is what the i-th call of `fn`
   * does. The result is the first returned value, or else the error of the
   * last attempt; with no attempt at all it is the never-assigned error,
   * `undefined`, which is `None` here.
   */
  method Run<T, E>(n: int, delay: int, outcome: nat -> Attempt<T, E>)
    returns (r: Result<T, Option<E>>, calls: nat, effects: seq<Effect>)
    ensures calls <= (if n < 0 then 0 else n)
    ensures effects == Schedule(calls, delay)
    ensures forall i :: 0 <= i < calls - 1 ==> outcome(i).Threw?
    ensures r.Success? ==> calls > 0 && outcome(calls - 1) == Returned(r.value)
    ensures r.Failure? ==> calls == (if n < 0 then 0 else n)
    ensures r.Failure? && calls == 0 ==> r.error == None
    ensures r.Failure? && calls > 0 ==>
              outcome(calls - 1).Threw? && r.error == Some(outcome(calls - 1).error)
  {
    var lastErr: Option<E> := None;
    var i := 0;
    effects := [];
    while i < n
      invariant 0 <= i && (i <= n || i == 0)
      invariant effects == Schedule(i, delay)
      invariant forall j :: 0 <= j < i ==> outcome(j).Threw?
      invariant i == 0 ==> lastErr == None
      invariant i > 0 ==> lastErr == Some(outcome(i - 1).error)
    {
      if i > 0 {
        effects := effects + [Sleep(delay)];
      }
      effects := effects + [Call(i)];
      match outcome(i)
      case Returned(v) =>
        r, calls := Success(v), i + 1;
        return;
      case Threw(e) =>
        lastErr := Some(e);
      i := i + 1;
    }
    r, calls := Failure(lastErr), i;
  }
}
