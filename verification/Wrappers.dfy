/** Result types shared by the modules: a Go `(T, bool)` or a nilable value is an
    Option, a Go `(T, error)` is a Result. Attempts that can fail are numbered. */
module Wrappers {
  datatype Option<+T> = None | Some(value: T)

  datatype Result<+T, +E> = Ok(value: T) | Err(error: E)

  /** One of these attempts failed. */
  ghost predicate SomeFail(fails: nat -> bool, from: nat, to: nat) {
    exists n :: from <= n < to && fails(n)
  }

  lemma SomeFailJoin(fails: nat -> bool, from: nat, mid: nat, to: nat)
    requires from <= mid <= to
    ensures SomeFail(fails, from, to) <==> SomeFail(fails, from, mid) || SomeFail(fails, mid, to)
  {
  }

  lemma SomeFailOnce(fails: nat -> bool, n: nat)
    ensures SomeFail(fails, n, n + 1) <==> fails(n)
  {
  }
}
