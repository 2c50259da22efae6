/** The array idioms the suite applies to its id-keyed lists:
    `xs.map(x => x.id === y.id ? y : x)`, `xs.filter(x => x.id !== id)` and
    `xs.find(x => x.id === id)`. `key` reads an element's id. */
module Lists {
  import opened Wrappers

  /** Replace every element whose key equals `y`'s key by `y`. */
  function Replace<T>(xs: seq<T>, key: T -> string, y: T): (r: seq<T>)
    ensures |r| == |xs|
    ensures forall i :: 0 <= i < |xs| && key(xs[i]) == key(y) ==> r[i] == y
    ensures forall i :: 0 <= i < |xs| && key(xs[i]) != key(y) ==> r[i] == xs[i]
  {
    if xs == [] then []
    else [if key(xs[0]) == key(y) then y else xs[0]] + Replace(xs[1..], key, y)
  }

  /** The number of elements with key `id`. */
  function Count<T>(xs: seq<T>, key: T -> string, id: string): (n: nat)
    ensures n <= |xs|
  {
    if xs == [] then 0
    else (if key(xs[0]) == id then 1 else 0) + Count(xs[1..], key, id)
  }

  /** Keep exactly the elements whose key differs from `id`, in order. */
  function RemoveAll<T>(xs: seq<T>, key: T -> string, id: string): (r: seq<T>)
    ensures forall i :: 0 <= i < |r| ==> key(r[i]) != id
    ensures forall x :: x in r ==> x in xs
    ensures forall i :: 0 <= i < |xs| && key(xs[i]) != id ==> xs[i] in r
    ensures |r| == |xs| - Count(xs, key, id)
    ensures Count(xs, key, id) == 0 ==> r == xs
  {
    if xs == [] then []
    else if key(xs[0]) == id then RemoveAll(xs[1..], key, id)
    else [xs[0]] + RemoveAll(xs[1..], key, id)
  }

  /** Removal keeps the relative order of the survivors: it distributes over
      concatenation. */
  lemma {:induction false} RemoveAllConcat<T>(a: seq<T>, b: seq<T>, key: T -> string, id: string)
    ensures RemoveAll(a + b, key, id) == RemoveAll(a, key, id) + RemoveAll(b, key, id)
  {
    if a == [] {
      assert a + b == b;
    } else {
      assert (a + b)[0] == a[0];
      assert (a + b)[1..] == a[1..] + b;
      RemoveAllConcat(a[1..], b, key, id);
    }
  }

  /** The index of the first element with key `id`, if any. */
  function FindIndex<T>(xs: seq<T>, key: T -> string, id: string): (r: Option<nat>)
    ensures r.Some? ==> r.value < |xs| && key(xs[r.value]) == id
    ensures r.Some? ==> forall j :: 0 <= j < r.value ==> key(xs[j]) != id
    ensures r.None? <==> forall j :: 0 <= j < |xs| ==> key(xs[j]) != id
  {
    if xs == [] then None
    else if key(xs[0]) == id then Some(0)
    else match FindIndex(xs[1..], key, id)
      case None => None
      case Some(k) => Some(k + 1)
  }

  /** `xs.find(x => key(x) === id)`: the first element with key `id`. */
  function Find<T>(xs: seq<T>, key: T -> string, id: string): (r: Option<T>)
    ensures r.Some? ==> r.value in xs && key(r.value) == id
    ensures r.None? <==> forall j :: 0 <= j < |xs| ==> key(xs[j]) != id
    ensures forall j :: 0 <= j < |xs| && key(xs[j]) == id ==>
              r.Some? && exists i :: 0 <= i <= j && xs[i] == r.value
  {
    match FindIndex(xs, key, id)
    case None => None
    case Some(i) => Some(xs[i])
  }
}
