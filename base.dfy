/** Small shared vocabulary: an optional value, JavaScript's numeric clamp and
    the part of JavaScript's number type the handlers depend on. */
module Base {

  datatype Option<+T> = None | Some(value: T)

  /** A handler's answer: a value, or the error it reports. */
  datatype Result<+T, +E> = Ok(value: T) | Err(error: E)

  /** The value of a JavaScript `Number(...)` conversion, restricted to the
      integers the model needs, or NaN when the conversion fails. */
  datatype JsNum = Num(n: int) | NaN

  function Min(a: int, b: int): int { if a <= b then a else b }

  function Max(a: int, b: int): int { if a >= b then a else b }

  /** `Math.max(lo, Math.min(hi, n))`: the clamp shared by the webhook
      dispatcher and the contact list. With `lo > hi` it answers `lo`. */
  function Clamp(n: int, lo: int, hi: int): (r: int)
    ensures lo <= hi ==> lo <= r <= hi
    ensures lo <= n <= hi ==> r == n
    ensures n < lo ==> r == lo
    ensures lo <= hi && n > hi ==> r == hi
    ensures lo > hi ==> r == lo
  {
    Max(lo, Min(hi, n))
  }

  /** The same clamp applied to a JavaScript number: `Math.min` and
      `Math.max` propagate NaN, so a NaN input comes out as NaN. */
  function ClampJs(x: JsNum, lo: int, hi: int): (r: JsNum)
    ensures x.NaN? <==> r.NaN?
    ensures x.Num? && lo <= hi ==> lo <= r.n <= hi
  {
    match x
    case NaN => NaN
    case Num(n) => Num(Clamp(n, lo, hi))
  }

  /** 2 to the power n. */
  function Pow2(n: nat): (r: nat)
    ensures r >= 1
  {
    if n == 0 then 1 else 2 * Pow2(n - 1)
  }

  lemma {:induction false} Pow2Monotonic(a: nat, b: nat)
    requires a <= b
    ensures Pow2(a) <= Pow2(b)
  {
    if a < b {
      Pow2Monotonic(a, b - 1);
    }
  }

  /** Elements pairwise distinct. */
  predicate NoDup<T(==)>(s: seq<T>)
  {
    forall i, j :: 0 <= i < j < |s| ==> s[i] != s[j]
  }

  /** The number of occurrences of x in s. */
  function Count<T(==)>(s: seq<T>, x: T): (r: nat)
    ensures r <= |s|
    ensures r == 0 <==> x !in s
  {
    if s == [] then 0 else (if s[0] == x then 1 else 0) + Count(s[1..], x)
  }

  lemma {:induction false} CountAppend<T>(s: seq<T>, t: seq<T>, x: T)
    ensures Count(s + t, x) == Count(s, x) + Count(t, x)
  {
    if s == [] {
      assert s + t == t;
    } else {
      assert (s + t)[1..] == s[1..] + t;
      CountAppend(s[1..], t, x);
    }
  }

  lemma {:induction false} NoDupCountOne<T>(s: seq<T>, x: T)
    requires NoDup(s)
    requires x in s
    ensures Count(s, x) == 1
  {
    if s[0] == x {
      assert x !in s[1..];
    } else {
      NoDupCountOne(s[1..], x);
    }
  }

  lemma NoDupAppend<T>(a: seq<T>, b: seq<T>)
    requires NoDup(a) && NoDup(b)
    requires forall x :: x in b ==> x !in a
    ensures NoDup(a + b)
  {
    forall i, j | 0 <= i < j < |a + b|
      ensures (a + b)[i] != (a + b)[j]
    {
      if i < |a| && j >= |a| {
        assert (a + b)[j] in b;
      }
    }
  }

  /** The values stored under the given keys, in key order, skipping keys
      with nothing stored: a loop that reads each key and keeps what it
      finds. */
  function Present<K, V>(keys: seq<K>, m: map<K, V>): (r: seq<V>)
    ensures |r| <= |keys|
    ensures forall v :: v in r ==> exists k :: k in keys && k in m && m[k] == v
  {
    if keys == [] then []
    else
      var rest := Present(keys[1..], m);
      if keys[0] in m then [m[keys[0]]] + rest else rest
  }

  /** The loop that reads the record stored under each key of a page, in
      order, and keeps the ones found. */
  method LoadPresent<K, V>(keys: seq<K>, m: map<K, V>) returns (items: seq<V>)
    ensures items == Present(keys, m)
  {
    items := [];
    var i := 0;
    while i < |keys|
      invariant 0 <= i <= |keys|
      invariant items + Present(keys[i..], m) == Present(keys, m)
    {
      assert keys[i..][1..] == keys[i + 1..];
      if keys[i] in m {
        items := items + [m[keys[i]]];
      }
      i := i + 1;
    }
  }
}
