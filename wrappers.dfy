/** Option and Result, the two ways the model reports a missing value or an error. */
module Wrappers {

  datatype Option<T> = None | Some(value: T)
  {
    function GetOr(default: T): T
    {
      match this
      case None => default
      case Some(v) => v
    }
  }

  /** The source raises an exception or returns an error message; the model returns Err(message). */
  datatype Result<T> = Ok(value: T) | Err(error: string)
  {
    predicate IsFailure() { Err? }

    function PropagateFailure<U>(): Result<U>
      requires Err?
    {
      Err(error)
    }

    function Extract(): T
      requires Ok?
    {
      value
    }
  }

  /** One more element of a prefix; stated on any element type so that no property of the elements gets in the way. */
  lemma TakeSnoc<T>(s: seq<T>, i: nat)
    requires i < |s|
    ensures s[..i + 1] == s[..i] + [s[i]]
  {
  }

  lemma SnocTail<T>(s: seq<T>, x: T)
    requires s != []
    ensures (s + [x])[0] == s[0] && (s + [x])[1..] == s[1..] + [x]
  {
  }

  /** Two prefix steps compose, and what the second adds follows what the first added. */
  lemma PrefixChain<T>(a: seq<T>, b: seq<T>, c: seq<T>)
    requires |a| <= |b| && b[..|a|] == a && |b| <= |c| && c[..|b|] == b
    ensures c[..|a|] == a && c[|a|..] == b[|a|..] + c[|b|..]
  {
  }

  /** A concatenation without its last element, and that element. */
  lemma ConcatInit<T>(a: seq<T>, b: seq<T>)
    requires b != []
    ensures (a + b)[..|a + b| - 1] == a + b[..|b| - 1] && (a + b)[|a + b| - 1] == b[|b| - 1]
  {
  }

  /** The middle part of a concatenation of three. */
  lemma MiddleSlice<T>(a: seq<T>, b: seq<T>, c: seq<T>)
    ensures (a + b + c)[|a|..|a| + |b|] == b && (a + b + c)[|a|..] == b + c
  {
  }

  lemma TakeAll<T>(s: seq<T>)
    ensures s[..|s|] == s
  {
  }

  lemma AppendAssoc<T>(a: seq<T>, b: seq<T>, c: seq<T>)
    ensures a + b + c == a + (b + c)
  {
  }

  lemma AppendThree<T>(y: seq<T>, a: seq<T>, b: seq<T>, c: seq<T>)
    ensures y + (a + b + c) == y + a + b + c
  {
  }

  lemma AppendFour<T>(y: seq<T>, a: seq<T>, b: seq<T>, c: seq<T>, d: seq<T>)
    ensures y + (a + b + c + d) == y + a + b + c + d
  {
  }

  lemma AppendFive<T>(y: seq<T>, a: seq<T>, b: seq<T>, c: seq<T>, d: seq<T>, e: seq<T>)
    ensures y + (a + b + c + d + e) == y + a + b + c + d + e
  {
  }
}
