/** Small helpers shared by every component model. */
module Optional {

  /** A value that may be absent: JavaScript's `undefined`/`null` or a failed fetch. */
  datatype Option<T> = None | Some(value: T)

  /** `Array.prototype.map`: applies `f` to every element, keeping count and order. */
  function MapSeq<A, B>(f: A -> B, s: seq<A>): (r: seq<B>)
    ensures |r| == |s|
    ensures forall i :: 0 <= i < |s| ==> r[i] == f(s[i])
  {
    if s == [] then [] else [f(s[0])] + MapSeq(f, s[1..])
  }

  function Min(a: int, b: int): int { if a <= b then a else b }

  function Max(a: int, b: int): int { if a >= b then a else b }
}
