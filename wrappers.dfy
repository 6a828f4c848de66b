/** Failure-compatible wrappers shared by every module of the model. */
module Wrappers {

  /** A value that may be absent (JavaScript `null`/`undefined` where that is all it means). */
  datatype Option<+T> = None | Some(value: T) {
    function GetOr(default: T): T {
      match this
      case Some(v) => v
      case None => default
    }
  }

  /** The outcome of an operation that either resolves with a value or rejects with an error. */
  datatype Result<+T, +E> = Ok(value: T) | Err(error: E)

  /** Element `i` of an oracle queue, or `default` once the queue is exhausted. */
  function At<T>(q: seq<T>, i: nat, default: T): T {
    if i < |q| then q[i] else default
  }

  /** The queue left after `n` elements have been consumed. */
  function Drop<T>(q: seq<T>, n: nat): (r: seq<T>)
    ensures |r| == if n <= |q| then |q| - n else 0
  {
    if n <= |q| then q[n..] else []
  }

  lemma DropAt<T>(q: seq<T>, n: nat, i: nat, d: T)
    ensures At(Drop(q, n), i, d) == At(q, n + i, d)
  {
  }

  lemma DropDrop<T>(q: seq<T>, n: nat, m: nat)
    ensures Drop(Drop(q, n), m) == Drop(q, n + m)
  {
    if n <= |q| && m <= |q| - n {
      assert q[n..][m..] == q[n + m..];
    }
  }

  lemma AppendAssoc<T>(a: seq<T>, b: seq<T>, c: seq<T>)
    ensures a + b + c == a + (b + c)
  {
  }
}
