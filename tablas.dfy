/** Repository tables: an id-keyed map, read back as a sequence of rows in
    ascending id order, plus the WHERE / ORDER BY building blocks the
    repository queries are made of. */
module Tablas {

  // ---------------------------------------------------------------------------
  // Scanning an id-keyed table

  /** The rows of table m whose ids lie in [0, n), in ascending id order. With
      every id of m below n this is the whole table (a findAll). */
  function Filas<V>(m: map<int, V>, n: nat): (r: seq<V>)
    ensures |r| <= n
  {
    if n == 0 then [] else Filas(m, n - 1) + (if n - 1 in m then [m[n - 1]] else [])
  }

  /** Every row whose id is below n is in the scan. */
  lemma {:induction false} FilaEnFilas<V>(m: map<int, V>, n: nat, k: int)
    requires 0 <= k < n && k in m
    ensures m[k] in Filas(m, n)
  {
    if k < n - 1 {
      FilaEnFilas(m, n - 1, k);
    }
  }

  /** Every row of the scan is the row of some id below n. */
  lemma {:induction false} DeFilas<V>(m: map<int, V>, n: nat, v: V)
    requires v in Filas(m, n)
    ensures exists k :: 0 <= k < n && k in m && m[k] == v
  {
    var ant := Filas(m, n - 1);
    if v in ant {
      DeFilas(m, n - 1, v);
      var k :| 0 <= k < n - 1 && k in m && m[k] == v;
      assert 0 <= k < n && k in m && m[k] == v;
    } else {
      var k := n - 1;
      assert k in m && m[k] == v;
    }
  }

  /** The scan below n sees only the ids below n. */
  lemma {:induction false} FilasIguales<V>(m: map<int, V>, m': map<int, V>, n: nat)
    requires forall k | 0 <= k < n :: (k in m <==> k in m') && (k in m ==> m[k] == m'[k])
    ensures Filas(m, n) == Filas(m', n)
  {
    if n > 0 {
      FilasIguales(m, m', n - 1);
    }
  }

  /** Inserting a row under a fresh id n, above every id in use, appends it. */
  lemma FilasInsertar<V>(m: map<int, V>, n: nat, v: V)
    requires forall k | k in m :: k < n
    ensures Filas(m[n := v], n + 1) == Filas(m, n) + [v]
  {
    FilasIguales(m, m[n := v], n);
  }

  /** Replacing the row of id k changes that one position of the scan. */
  lemma {:induction false} FilasActualizar<V>(m: map<int, V>, n: nat, k: int, v: V) returns (i: nat)
    requires 0 <= k < n && k in m
    ensures i < |Filas(m, n)| && Filas(m, n)[i] == m[k]
    ensures Filas(m[k := v], n) == Filas(m, n)[i := v]
  {
    var m' := m[k := v];
    if k == n - 1 {
      FilasIguales(m, m', n - 1);
      i := |Filas(m, n - 1)|;
    } else {
      i := FilasActualizar(m, n - 1, k, v);
      var resto := if n - 1 in m then [m[n - 1]] else [];
      assert Filas(m', n) == Filas(m', n - 1) + resto;
      assert Filas(m, n) == Filas(m, n - 1) + resto;
      assert (Filas(m, n - 1) + resto)[i := v] == Filas(m, n - 1)[i := v] + resto;
    }
  }

  /** Deleting the row of id k removes that one position of the scan. */
  lemma {:induction false} FilasEliminar<V>(m: map<int, V>, n: nat, k: int) returns (i: nat)
    requires 0 <= k < n && k in m
    ensures i < |Filas(m, n)| && Filas(m, n)[i] == m[k]
    ensures Filas(m - {k}, n) == Filas(m, n)[..i] + Filas(m, n)[i + 1..]
  {
    var m' := m - {k};
    if k == n - 1 {
      FilasIguales(m, m', n - 1);
      i := |Filas(m, n - 1)|;
      assert Filas(m, n)[..i] == Filas(m, n - 1);
    } else {
      i := FilasEliminar(m, n - 1, k);
      var a := Filas(m, n - 1);
      var resto := if n - 1 in m then [m[n - 1]] else [];
      assert Filas(m', n) == Filas(m', n - 1) + resto;
      assert Filas(m, n) == a + resto;
      assert (a + resto)[..i] == a[..i];
      assert (a + resto)[i + 1..] == a[i + 1..] + resto;
    }
  }

  // ---------------------------------------------------------------------------
  // Filtering and sorting a scan

  /** The rows of s that satisfy p, in their original order (a WHERE clause). */
  function Filtrar<T(!new)>(s: seq<T>, p: T -> bool): (r: seq<T>)
    ensures |r| <= |s|
    ensures forall x :: x in r <==> x in s && p(x)
    ensures forall x :: multiset(r)[x] == if p(x) then multiset(s)[x] else 0
  {
    if s == [] then []
    else
      assert s == [s[0]] + s[1..];
      (if p(s[0]) then [s[0]] else []) + Filtrar(s[1..], p)
  }

  /** Filtering depends only on the values of the condition. */
  lemma {:induction false} FiltrarExtensional<T(!new)>(s: seq<T>, p: T -> bool, q: T -> bool)
    requires forall x :: p(x) == q(x)
    ensures Filtrar(s, p) == Filtrar(s, q)
  {
    if s != [] {
      FiltrarExtensional(s[1..], p, q);
    }
  }

  ghost predicate Total<T(!new)>(le: (T, T) -> bool) {
    forall a, b :: le(a, b) || le(b, a)
  }

  ghost predicate Transitiva<T(!new)>(le: (T, T) -> bool) {
    forall a, b, c :: le(a, b) && le(b, c) ==> le(a, c)
  }

  /** s is ordered by le: every row comes no later than the rows after it. */
  ghost predicate OrdenadaPor<T>(s: seq<T>, le: (T, T) -> bool) {
    forall i, j | 0 <= i < j < |s| :: le(s[i], s[j])
  }

  function Insertar<T>(x: T, s: seq<T>, le: (T, T) -> bool): (r: seq<T>)
    ensures multiset(r) == multiset(s) + multiset{x}
  {
    if s == [] then [x]
    else if le(x, s[0]) then [x] + s
    else
      assert s == [s[0]] + s[1..];
      [s[0]] + Insertar(x, s[1..], le)
  }

  /** The rows of s sorted by le (an ORDER BY clause); a permutation of s. */
  function Ordenar<T>(s: seq<T>, le: (T, T) -> bool): (r: seq<T>)
    ensures multiset(r) == multiset(s)
  {
    if s == [] then []
    else
      assert s == [s[0]] + s[1..];
      Insertar(s[0], Ordenar(s[1..], le), le)
  }

  /** A lower bound of an ordered sequence can be put in front of it. */
  lemma AntepuestoOrdenado<T>(y: T, t: seq<T>, le: (T, T) -> bool)
    requires OrdenadaPor(t, le) && forall j | 0 <= j < |t| :: le(y, t[j])
    ensures OrdenadaPor([y] + t, le)
  {
    var r := [y] + t;
    forall i, j | 0 <= i < j < |r| ensures le(r[i], r[j]) {
      assert r[j] == t[j - 1];
      if i > 0 {
        assert r[i] == t[i - 1];
      }
    }
  }

  lemma ColaOrdenada<T>(s: seq<T>, le: (T, T) -> bool)
    requires s != [] && OrdenadaPor(s, le)
    ensures OrdenadaPor(s[1..], le)
  {
    forall i, j | 0 <= i < j < |s[1..]| ensures le(s[1..][i], s[1..][j]) {
      assert s[1..][i] == s[i + 1] && s[1..][j] == s[j + 1];
    }
  }

  /** A bound of every element of u and of x bounds every element of a
      sequence holding exactly u and x. */
  lemma CotaPorMultiset<T>(y: T, x: T, u: seq<T>, t: seq<T>, le: (T, T) -> bool)
    requires multiset(t) == multiset(u) + multiset{x}
    requires le(y, x) && forall j | 0 <= j < |u| :: le(y, u[j])
    ensures forall j | 0 <= j < |t| :: le(y, t[j])
  {
    forall j | 0 <= j < |t| ensures le(y, t[j]) {
      assert t[j] in multiset(t);
      if t[j] != x {
        assert t[j] in multiset(u);
        var q :| 0 <= q < |u| && u[q] == t[j];
      }
    }
  }

  lemma {:induction false} InsertarOrdena<T(!new)>(x: T, s: seq<T>, le: (T, T) -> bool)
    requires Total(le) && Transitiva(le) && OrdenadaPor(s, le)
    ensures OrdenadaPor(Insertar(x, s, le), le)
  {
    if s == [] {
    } else if le(x, s[0]) {
      forall j | 0 <= j < |s| ensures le(x, s[j]) {
        if j > 0 {
          assert le(s[0], s[j]);
        }
      }
      AntepuestoOrdenado(x, s, le);
    } else {
      ColaOrdenada(s, le);
      InsertarOrdena(x, s[1..], le);
      assert forall j | 0 <= j < |s[1..]| :: le(s[0], s[1..][j]) by {
        forall j | 0 <= j < |s[1..]| ensures le(s[0], s[1..][j]) {
          assert s[1..][j] == s[j + 1];
        }
      }
      CotaPorMultiset(s[0], x, s[1..], Insertar(x, s[1..], le), le);
      AntepuestoOrdenado(s[0], Insertar(x, s[1..], le), le);
    }
  }

  /** Under a total preorder, Ordenar yields an ordered sequence. */
  lemma {:induction false} OrdenarOrdena<T(!new)>(s: seq<T>, le: (T, T) -> bool)
    requires Total(le) && Transitiva(le)
    ensures OrdenadaPor(Ordenar(s, le), le)
  {
    if s != [] {
      OrdenarOrdena(s[1..], le);
      InsertarOrdena(s[0], Ordenar(s[1..], le), le);
    }
  }
}
