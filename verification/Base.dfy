/** Vocabulary shared by every part of the model: Python values as far as the
    runtime looks at them, results, and strictly increasing sequences. */
module Base {

  datatype Option<+T> = None | Some(value: T)

  datatype Result<+T, +E> = Ok(value: T) | Err(error: E)

  type Byte = x: int | 0 <= x < 256

  /** A Python value. Messages are dictionaries; anything else a user program
      handles is an opaque object. */
  datatype Value =
    | Null
    | Bool(b: bool)
    | Int(n: int)
    | Text(s: string)
    | List(items: seq<Value>)
    | Dict(entries: map<string, Value>)
    | Object(id: nat)

  /** The class name and text of an exception. */
  datatype Error = Error(kind: string, message: string)

  /** What a remote call produced. */
  datatype Outcome = Returned(value: Value) | Raised(error: Error)

  ghost predicate Increasing(s: seq<nat>) {
    forall i, j :: 0 <= i < j < |s| ==> s[i] < s[j]
  }

  ghost predicate NoDuplicates<T>(s: seq<T>) {
    forall i, j :: 0 <= i < j < |s| ==> s[i] != s[j]
  }

  /** `s` without the first occurrence of `x`. */
  function Removing<T(==)>(s: seq<T>, x: T): seq<T> {
    if s == [] then [] else if s[0] == x then s[1..] else [s[0]] + Removing(s[1..], x)
  }

  lemma {:induction false} RemovingPlace<T>(s: seq<T>, x: T) returns (i: nat)
    ensures x !in s ==> Removing(s, x) == s
    ensures x in s ==> i < |s| && s[i] == x && Removing(s, x) == s[..i] + s[i + 1..]
  {
    i := 0;
    if s != [] && s[0] != x {
      var k := RemovingPlace(s[1..], x);
      i := k + 1;
      if x in s {
        assert x in s[1..];
        assert s[..i] == [s[0]] + s[1..][..k];
        assert s[i + 1..] == s[1..][k + 1..];
      }
    }
  }
}
