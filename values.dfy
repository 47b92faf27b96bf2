/** Python values as the configuration model stores them, and the few
    library operations on them that the model relies on (`zip`, `dict.get`,
    lookup in a dict). Encoding to and decoding from JSON text is not part
    of this model: a serialised form is the `Value` it would encode. */
module Values {

  datatype Option<T> = None | Some(value: T)

  datatype Result<T, E> = Ok(value: T) | Err(error: E)

  /** An untyped Python value. `Null` is `None`. A `Dict` keeps its items in
      insertion order, as Python dicts iterate. */
  datatype Value =
    | Null
    | Bool(b: bool)
    | Int(i: int)
    | Str(s: string)
    | List(elems: seq<Value>)
    | Dict(items: seq<(Value, Value)>)

  /** Exceptions the source raises on the paths the model follows. */
  datatype PyError =
    | AttributeError(attribute: string)  // a method looked up on the object does not exist
    | TypeError                          // an unknown keyword argument, or an unhashable dict key

  /** Whether a value may be a dict key: lists and dicts may not. */
  predicate Hashable(v: Value)
  {
    !v.List? && !v.Dict?
  }

  function Min(a: nat, b: nat): nat { if a <= b then a else b }

  /** Python's `zip`: pairs elements up to the end of the shorter input. */
  function Zip<A, B>(xs: seq<A>, ys: seq<B>): (z: seq<(A, B)>)
    ensures |z| == Min(|xs|, |ys|)
    ensures forall i :: 0 <= i < |z| ==> z[i] == (xs[i], ys[i])
  {
    if xs == [] || ys == [] then [] else [(xs[0], ys[0])] + Zip(xs[1..], ys[1..])
  }

  /** The keys of a dict's items, in order. */
  function Keys(items: seq<(Value, Value)>): seq<Value>
  {
    seq(|items|, i requires 0 <= i < |items| => items[i].0)
  }

  /** `d.get(k)` on a dict whose keys are distinct: the value stored under `k`. */
  function Lookup(items: seq<(Value, Value)>, k: Value): (r: Option<Value>)
    ensures r.None? <==> forall i :: 0 <= i < |items| ==> items[i].0 != k
    ensures r.Some? ==> exists i :: 0 <= i < |items| && items[i] == (k, r.value)
  {
    if items == [] then None
    else if items[0].0 == k then Some(items[0].1)
    else Lookup(items[1..], k)
  }

  predicate DistinctKeys(items: seq<(Value, Value)>)
  {
    forall i, j :: 0 <= i < j < |items| ==> items[i].0 != items[j].0
  }

  /** In a dict with distinct keys, each key finds the value stored with it. */
  lemma {:induction false} LookupDistinct(items: seq<(Value, Value)>, i: nat)
    requires DistinctKeys(items)
    requires i < |items|
    ensures Lookup(items, items[i].0) == Some(items[i].1)
  {
    if i > 0 {
      assert items[1..][i - 1] == items[i];
      LookupDistinct(items[1..], i - 1);
    }
  }

  /** `kwargs.get(key, default)`. */
  function GetOr(kwargs: map<string, Value>, key: string, default: Value): Value
  {
    if key in kwargs then kwargs[key] else default
  }
}
