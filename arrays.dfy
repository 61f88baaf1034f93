/** Growing a Java array by one slot, as `Parent.addChild` and `Child.addSibling`
    both do: allocate an array one longer, copy the old elements in order with an
    index loop, and write the new element into the last slot. */
module Arrays {

  /** Returns a new array holding the elements of `a`, in order, followed by `x`.
      The method modifies nothing, so `a` keeps its contents, and `b` is newly
      allocated, so nothing else refers to it. */
  method AppendCopy<T(0)>(a: array<T>, x: T) returns (b: array<T>)
    ensures fresh(b)
    ensures b.Length == a.Length + 1
    ensures b[..a.Length] == a[..]
    ensures b[a.Length] == x
    ensures b[..] == a[..] + [x]
  {
    b := new T[a.Length + 1];
    var i := 0;
    while i < a.Length
      invariant 0 <= i <= a.Length
      invariant b[..i] == a[..i]
    {
      b[i] := a[i];
      i := i + 1;
    }
    b[a.Length] := x;
  }
}
