/** Values shared by every module. */
module Prelude {
  datatype Option<+T> = None | Some(value: T)

  datatype Result<+T, +E> = Ok(value: T) | Err(error: E)

  /** uuid4 values: only freshness and equality matter, so they come from a counter. */
  type Uuid = nat

  /** Timestamps and durations, in seconds. */
  type Time = real

  /** A number in decimal notation. */
  function Digits(n: nat): string {
    (if n < 10 then "" else Digits(n / 10)) + ["0123456789"[n % 10]]
  }

  lemma {:induction false} SubsetIsSmaller<T>(a: set<T>, b: set<T>)
    requires a <= b
    ensures |a| <= |b|
    decreases |a|
  {
    if a != {} {
      var x :| x in a;
      SubsetIsSmaller(a - {x}, b - {x});
    }
  }

  function Sum(xs: seq<real>): real {
    if xs == [] then 0.0 else xs[0] + Sum(xs[1..])
  }

  lemma {:induction false} SumEndsWith(xs: seq<real>, x: real)
    ensures Sum(xs + [x]) == Sum(xs) + x
  {
    if xs == [] {
      assert Sum([x]) == x + Sum([]);
    } else {
      assert (xs + [x])[1..] == xs[1..] + [x];
      SumEndsWith(xs[1..], x);
    }
  }
}
