/** Small value wrappers used throughout the model: absence, a value-or-error, and a pass-or-error. */
module Common {

  datatype Option<+T> = None | Some(value: T)

  datatype Result<+T, +E> = Success(value: T) | Failure(error: E)

  datatype Outcome<+E> = Pass | Fail(error: E)

  function Min(a: nat, b: nat): nat { if a <= b then a else b }

  /** Concatenation of a sequence of byte strings. */
  function Flatten(chunks: seq<seq<bv8>>): (r: seq<bv8>)
  {
    if chunks == [] then [] else chunks[0] + Flatten(chunks[1..])
  }

  lemma {:induction false} FlattenAppend(a: seq<seq<bv8>>, b: seq<seq<bv8>>)
    ensures Flatten(a + b) == Flatten(a) + Flatten(b)
  {
    if a == [] {
      assert a + b == b;
    } else {
      assert (a + b)[1..] == a[1..] + b;
      FlattenAppend(a[1..], b);
    }
  }

  /** Putting a sequence's head back in front of its tail, ahead of more elements. */
  lemma ConsTail<T>(q: seq<T>, y: seq<T>)
    requires q != []
    ensures [q[0]] + (q[1..] + y) == q + y
  {
    assert q == [q[0]] + q[1..];
  }

  /** Moving one element from the front of a suffix to the end of the prefix. */
  lemma ShiftOne<T>(a: seq<T>, x: T, b: seq<T>)
    ensures a + ([x] + b) == (a + [x]) + b
  {
  }

  /** Regrouping a concatenation that starts with one element. */
  lemma ConsAssoc<T>(x: T, a: seq<T>, b: seq<T>)
    ensures [x] + (a + b) == ([x] + a) + b
  {
  }

  /** Regrouping a concatenation that ends with one element. */
  lemma SnocAssoc<T>(a: seq<T>, b: seq<T>, x: T)
    ensures (a + b) + [x] == a + (b + [x])
  {
  }

  /** Regrouping a concatenation of three sequences. */
  lemma AppendAssoc<T>(a: seq<T>, b: seq<T>, c: seq<T>)
    ensures (a + b) + c == a + (b + c)
  {
  }
}
