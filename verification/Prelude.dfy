// Small vocabulary shared by every module: optional values, the reducer's two
// error classes, and the suffix bound that the source writes as `items[-n:]`.
module Prelude {

  datatype Option<+T> = None | Some(value: T)

  // DomainInvariantError and its subclass DomainCapacityError.  The bridge
  // commit retries only after the second one, so the model keeps them apart.
  datatype Error = Invariant | Capacity

  datatype Result<+T> = Ok(value: T) | Err(error: Error) {
    predicate IsFailure() {
      Err?
    }

    function PropagateFailure<U>(): Result<U>
      requires Err?
    {
      Err(error)
    }

    function Extract(): T
      requires Ok?
    {
      value
    }
  }

  function Max(a: nat, b: nat): nat {
    if a >= b then a else b
  }

  // The newest `n` entries: Python's `items[-n:]` for a positive n.
  function KeepLast<T>(items: seq<T>, n: nat): (kept: seq<T>)
    ensures |kept| == if |items| <= n then |items| else n
    ensures forall x :: x in kept ==> x in items
  {
    if |items| <= n then items else items[|items| - n..]
  }

  // Cutting to the newest n, appending, and cutting again is the same as
  // appending to the whole history and cutting once.
  lemma KeepLastAppend<T>(items: seq<T>, x: T, n: nat)
    requires 0 < n
    ensures KeepLast(KeepLast(items, n) + [x], n) == KeepLast(items + [x], n)
  {
  }

  predicate NoDuplicates<T(==)>(items: seq<T>) {
    forall i, j :: 0 <= i < j < |items| ==> items[i] != items[j]
  }
}
