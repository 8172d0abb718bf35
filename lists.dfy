/** List operations the front-end performs with `Array.prototype` methods:
    `filter` by id (every delete handler), `reverse`, and `slice` from either end. */
module Lists {

  function Min(a: int, b: int): int {
    if a <= b then a else b
  }

  /** `xs.filter(x => key(x) !== id)`: the list a delete handler keeps. */
  function RemoveById<T>(xs: seq<T>, key: T -> string, id: string): (r: seq<T>)
    ensures |r| <= |xs|
    ensures forall x :: x in r ==> x in xs && key(x) != id
    ensures forall x :: x in xs && key(x) != id ==> x in r
  {
    if xs == [] then []
    else if key(xs[0]) == id then RemoveById(xs[1..], key, id)
    else [xs[0]] + RemoveById(xs[1..], key, id)
  }

  /** Filtering keeps the relative order: filtering a concatenation is
      concatenating the filtered parts. */
  lemma {:induction false} RemoveByIdAppend<T>(xs: seq<T>, ys: seq<T>, key: T -> string, id: string)
    ensures RemoveById(xs + ys, key, id) == RemoveById(xs, key, id) + RemoveById(ys, key, id)
  {
    if xs != [] {
      assert (xs + ys)[1..] == xs[1..] + ys;
      RemoveByIdAppend(xs[1..], ys, key, id);
    } else {
      assert xs + ys == ys;
    }
  }

  /** A list in which no entry carries the id is left exactly as it was. */
  lemma {:induction false} RemoveByIdAbsent<T>(xs: seq<T>, key: T -> string, id: string)
    requires forall x :: x in xs ==> key(x) != id
    ensures RemoveById(xs, key, id) == xs
  {
    if xs != [] {
      assert forall x :: x in xs[1..] ==> x in xs;
      RemoveByIdAbsent(xs[1..], key, id);
    }
  }

  /** Deleting the same id twice is deleting it once. */
  lemma RemoveByIdIdempotent<T>(xs: seq<T>, key: T -> string, id: string)
    ensures RemoveById(RemoveById(xs, key, id), key, id) == RemoveById(xs, key, id)
  {
    RemoveByIdAbsent(RemoveById(xs, key, id), key, id);
  }

  /** `xs.slice().reverse()`: the same entries, last first. */
  function Reverse<T>(xs: seq<T>): (r: seq<T>)
    ensures |r| == |xs|
    ensures forall i :: 0 <= i < |xs| ==> r[i] == xs[|xs| - 1 - i]
  {
    if xs == [] then [] else Reverse(xs[1..]) + [xs[0]]
  }

  /** `xs.slice(0, k)` for `k >= 0`: the first `k` entries, or all of them. */
  function Take<T>(xs: seq<T>, k: nat): (r: seq<T>)
    ensures |r| == Min(k, |xs|)
    ensures r == xs[..|r|]
  {
    xs[..Min(k, |xs|)]
  }

  /** `xs.slice(-k)` for `k > 0`: the last `k` entries, or all of them. */
  function TakeLast<T>(xs: seq<T>, k: nat): (r: seq<T>)
    requires k > 0
    ensures |r| == Min(k, |xs|)
    ensures r == xs[|xs| - |r|..]
  {
    xs[|xs| - Min(k, |xs|)..]
  }
}
