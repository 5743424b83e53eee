/** Sorting by a numeric key, as the store uses it for `.sort({deudaTotal: -1})`
    and the report uses `Array.prototype.sort`. An insertion sort that keeps
    equal keys in their input order, like the stable sort of JavaScript. */
module Orden {

  /** `s` is in non-increasing order of `clave`. */
  predicate OrdenadoDesc<T>(s: seq<T>, clave: T -> real) {
    forall i, j :: 0 <= i < j < |s| ==> clave(s[i]) >= clave(s[j])
  }

  /** Inserts `x` before the first element whose key is not above it. */
  function Insertar<T>(x: T, s: seq<T>, clave: T -> real): (r: seq<T>)
    requires OrdenadoDesc(s, clave)
    ensures OrdenadoDesc(r, clave)
    ensures multiset(r) == multiset(s) + multiset{x}
    ensures forall k :: 0 <= k < |r| ==> r[k] == x || r[k] in s
    ensures |r| == |s| + 1
  {
    if s == [] || clave(x) >= clave(s[0]) then
      [x] + s
    else
      var rest := Insertar(x, s[1..], clave);
      assert s == [s[0]] + s[1..];
      CabezaPrimero(s, x, rest, clave);
      [s[0]] + rest
  }

  /** The head of a sorted sequence stays first when the rest gains an element
      with a smaller key. */
  lemma CabezaPrimero<T>(s: seq<T>, x: T, rest: seq<T>, clave: T -> real)
    requires s != [] && OrdenadoDesc(s, clave) && clave(x) < clave(s[0])
    requires OrdenadoDesc(rest, clave)
    requires forall k :: 0 <= k < |rest| ==> rest[k] == x || rest[k] in s[1..]
    ensures OrdenadoDesc([s[0]] + rest, clave)
  {
    forall k | 0 <= k < |rest| ensures clave(s[0]) >= clave(rest[k]) {
      if rest[k] != x {
        var m :| 0 <= m < |s[1..]| && s[1..][m] == rest[k];
        assert s[m + 1] == rest[k];
      }
    }
    var r := [s[0]] + rest;
    forall i, j | 0 <= i < j < |r| ensures clave(r[i]) >= clave(r[j]) {
      if i > 0 {
        assert r[i] == rest[i - 1] && r[j] == rest[j - 1];
      } else {
        assert r[j] == rest[j - 1];
      }
    }
  }

  /** Sorts `s` into non-increasing order of `clave`. */
  function Ordenar<T>(s: seq<T>, clave: T -> real): (r: seq<T>)
    ensures OrdenadoDesc(r, clave)
    ensures multiset(r) == multiset(s)
    ensures |r| == |s|
  {
    if s == [] then []
    else
      assert s == [s[0]] + s[1..];
      Insertar(s[0], Ordenar(s[1..], clave), clave)
  }

  /** Sorting keeps exactly the elements of the input. */
  lemma OrdenarMismosElementos<T>(s: seq<T>, clave: T -> real)
    ensures forall x :: x in Ordenar(s, clave) <==> x in s
  {
    var r := Ordenar(s, clave);
    forall x ensures x in r <==> x in s {
      assert x in r <==> x in multiset(r);
      assert x in s <==> x in multiset(s);
    }
  }
}
