/** The two datatypes every other module shares. */
module Prelude {

  /** A nullable column or an optional value. */
  datatype Option<+T> = None | Some(value: T)

  /** The outcome of an operation that may throw. */
  datatype Result<+T, +E> = Ok(value: T) | Err(error: E)

  /** JavaScript's truthiness of a nullable string: null and "" are both false. */
  predicate Truthy(s: Option<string>) {
    s.Some? && s.value != ""
  }

  predicate NoDup<T(==)>(s: seq<T>) {
    forall i, k :: 0 <= i < k < |s| ==> s[i] != s[k]
  }

  function ToSet<T>(s: seq<T>): set<T> {
    set x | x in s
  }

  /** A list without repetitions has as many elements as its set. */
  lemma {:induction false} SetOfSeq<T>(s: seq<T>)
    requires NoDup(s)
    ensures |ToSet(s)| == |s|
  {
    if s != [] {
      SetOfSeq(s[1..]);
      assert s == [s[0]] + s[1..];
      assert ToSet(s) == ToSet(s[1..]) + {s[0]};
      assert s[0] !in s[1..];
    }
  }

  lemma SubsetSameSize<T>(a: set<T>, b: set<T>)
    requires a <= b && |a| == |b|
    ensures a == b
  {
    assert |b - a| == |b| - |a|;
  }

  lemma SubsetSize<T>(a: set<T>, b: set<T>)
    requires a <= b
    ensures |a| <= |b|
  {
    assert b == a + (b - a);
  }

  /** A number above all of these: fresh ids never run out. */
  ghost function Unused(ids: set<nat>): (n: nat)
    ensures forall x :: x in ids ==> x < n
  {
    if ids == {} then 0
    else
      var x :| x in ids;
      var rest := Unused(ids - {x});
      assert forall y :: y in ids ==> y == x || y in ids - {x};
      if x < rest then rest else x + 1
  }
}
