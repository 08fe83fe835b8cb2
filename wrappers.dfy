/** Failure-carrying values shared by every module of the model. */
module Wrappers {

  /** A present value, or nothing (Python's `None`, or a key that is absent). */
  datatype Option<+T> = None | Some(value: T) {
    function GetOr(default: T): T {
      match this
      case Some(v) => v
      case None => default
    }
  }

  /** A value, or the exception the source would have raised instead. */
  datatype Result<+T, +E> = Ok(value: T) | Err(error: E)

  // ----- Sequence facts the proofs share -----

  /** The last element of a non-empty sequence. */
  function Last<T>(s: seq<T>): T
    requires s != []
  {
    s[|s| - 1]
  }

  lemma Regroup<T>(a: seq<T>, b: seq<T>, c: seq<T>)
    ensures a + b + c == a + (b + c)
  {}

  lemma EmptyConcat<T>(s: seq<T>)
    ensures [] + s == s
  {}

  lemma RightEmpty<T>(s: seq<T>)
    ensures s + [] == s
  {}

  lemma TailOf<T>(x: T, s: seq<T>)
    ensures ([x] + s)[1..] == s
  {}

  lemma ConsLast<T>(x: T, s: seq<T>)
    requires s != []
    ensures Last([x] + s) == Last(s)
  {}

  lemma SplitAt<T>(s: seq<T>, i: nat)
    requires i < |s|
    ensures s[i..] == [s[i]] + s[i + 1..]
  {}

  /** The first k + 1 elements are the first k followed by element k. */
  lemma PrefixStep<T>(s: seq<T>, k: nat)
    requires k < |s|
    ensures s[..k + 1] == s[..k] + [s[k]]
  {}

  /** The prefix as long as the sequence is the sequence. */
  lemma WholePrefix<T>(s: seq<T>, n: nat)
    requires |s| == n
    ensures s[..n] == s
  {}

  /** Appending the element equal to element k extends a prefix by one more element. */
  lemma ExtendStep<T>(before: seq<T>, s: seq<T>, k: nat, x: T)
    requires k < |s| && s[k] == x
    ensures before + s[..k] + [x] == before + s[..k + 1]
  {
    assert s[..k + 1] == s[..k] + [x];
  }
}
