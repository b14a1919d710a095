/** Small datatypes shared by the other modules. */
module Wrappers {
  datatype Option<+T> = None | Some(value: T)

  datatype List<T> = Nil | Cons(head: T, tail: List<T>)

  lemma Concat<T>(a: seq<T>, b: seq<T>, c: seq<T>)
    ensures a + b + c == a + (b + c)
  {}

  lemma Regroup<T>(a: seq<T>, b: seq<T>, c: seq<T>, d: seq<T>, e: seq<T>)
    ensures a + b + c + d + e == a + ((b + c + d) + e) == a + (b + (c + d + e))
    ensures a + b + (c + d) + e == a + ((b + c + d) + e) && a + b + c + d == a + (b + c + d)
  {}

  lemma Enclosed<T>(a: T, b: seq<T>, c: seq<T>, z: T, tail: seq<T>)
    ensures [] + ([a] + b + c + [z]) + tail == [a] + (b + (c + ([z] + tail)))
    ensures c == [] ==> c + ([z] + tail) == [z] + tail
  {
    var end := [z] + tail;
    assert [a] + b + c + [z] + tail == [a] + b + c + end;
    assert [a] + b + c + end == [a] + (b + (c + end));
  }
}
