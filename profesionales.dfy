/** The professional entity and the rating aggregate it maintains: the mean of
    the scores of its reviews, or 0 when it has none. */
module Profesionales {
  import opened Comun

  /** The sum of a sequence of scores (the stream sum). */
  function Suma(s: seq<int>): int {
    if s == [] then 0 else s[0] + Suma(s[1..])
  }

  /** The average rating: the sum over the count, or 0 without scores. */
  function Promedio(s: seq<int>): (p: real)
    ensures s == [] ==> p == 0.0
    ensures s != [] ==> p * (|s| as real) == Suma(s) as real
  {
    if s == [] then 0.0 else Cociente(Suma(s), |s|)
  }

  /** The quotient of two integers as a real, the divisor being positive. */
  function Cociente(a: int, b: int): real
    requires b > 0
  {
    a as real / (b as real)
  }

  lemma {:induction false} SumaConcat(a: seq<int>, b: seq<int>)
    ensures Suma(a + b) == Suma(a) + Suma(b)
  {
    if a == [] {
      assert a + b == b;
    } else {
      assert (a + b)[1..] == a[1..] + b;
      SumaConcat(a[1..], b);
    }
  }

  /** Taking the score at position i out of the sequence. */
  lemma SumaSinPosicion(b: seq<int>, i: int)
    requires 0 <= i < |b|
    ensures Suma(b) == b[i] + Suma(b[..i] + b[i + 1..])
  {
    var izq, der := b[..i], b[i + 1..];
    var medio := izq + [b[i]];
    assert medio + der == b;
    assert Suma(b) == Suma(medio) + Suma(der) by {
      SumaConcat(medio, der);
    }
    assert Suma(medio) == Suma(izq) + b[i] by {
      SumaConcat(izq, [b[i]]);
      SumaUno(b[i]);
    }
    SumaConcat(izq, der);
  }

  lemma SumaUno(x: int)
    ensures Suma([x]) == x
  {
    assert [x][1..] == [];
  }

  lemma MultisetSinPosicion(b: seq<int>, i: int)
    requires 0 <= i < |b|
    ensures multiset(b[..i] + b[i + 1..]) == multiset(b) - multiset{b[i]}
  {
    assert b == b[..i] + [b[i]] + b[i + 1..];
    assert multiset(b) == multiset(b[..i]) + multiset{b[i]} + multiset(b[i + 1..]);
  }

  /** The sum does not depend on the order of the scores. */
  lemma {:induction false} SumaPermutacion(a: seq<int>, b: seq<int>)
    requires multiset(a) == multiset(b)
    ensures Suma(a) == Suma(b)
  {
    if a == [] {
      assert |b| == |multiset(b)| == 0;
    } else {
      var x := a[0];
      var i := Posicion(b, x, multiset(a));
      var resto := b[..i] + b[i + 1..];
      RestoPermutacion(a, b, i);
      SumaPermutacion(a[1..], resto);
      SumaSinPosicion(b, i);
    }
  }

  /** A value of the multiset of b occurs at some position of b. */
  lemma Posicion(b: seq<int>, x: int, m: multiset<int>) returns (i: int)
    requires m == multiset(b) && x in m
    ensures 0 <= i < |b| && b[i] == x
  {
    assert x in b;
    i :| 0 <= i < |b| && b[i] == x;
  }

  /** Removing the first score of a and an equal score of b keeps them permutations. */
  lemma RestoPermutacion(a: seq<int>, b: seq<int>, i: int)
    requires a != [] && multiset(a) == multiset(b) && 0 <= i < |b| && b[i] == a[0]
    ensures multiset(a[1..]) == multiset(b[..i] + b[i + 1..])
  {
    assert a == [a[0]] + a[1..];
    assert multiset(a) == multiset{a[0]} + multiset(a[1..]);
    MultisetSinPosicion(b, i);
  }

  /** The average does not depend on the order of the scores. */
  lemma PromedioPermutacion(a: seq<int>, b: seq<int>)
    requires multiset(a) == multiset(b)
    ensures Promedio(a) == Promedio(b)
  {
    SumaPermutacion(a, b);
    assert |a| == |multiset(a)| == |multiset(b)| == |b|;
  }

  /** Scores between lo and hi sum to between lo and hi times their count. */
  lemma {:induction false} SumaAcotada(s: seq<int>, lo: int, hi: int)
    requires forall i | 0 <= i < |s| :: lo <= s[i] <= hi
    ensures lo * |s| <= Suma(s) <= hi * |s|
  {
    if s != [] {
      SumaAcotada(s[1..], lo, hi);
    }
  }

  /** With every score in 1..5, a non-empty average lies in [1, 5]. */
  lemma PromedioEnRango(s: seq<int>)
    requires s != []
    requires forall i | 0 <= i < |s| :: 1 <= s[i] <= 5
    ensures 1.0 <= Promedio(s) <= 5.0
  {
    SumaAcotada(s, 1, 5);
    CocienteEnRango(Suma(s) as real, |s| as real);
  }

  /** A quotient by a positive n of a value between n and 5n lies in [1, 5]. */
  lemma CocienteEnRango(x: real, n: real)
    requires n > 0.0 && n <= x <= 5.0 * n
    ensures 1.0 <= x / n <= 5.0
  {
  }

  /** Adding a score x to the reviews makes the average (sum + x) / (count + 1). */
  lemma PromedioAlAgregar(s: seq<int>, x: int)
    ensures Promedio(s + [x]) == Cociente(Suma(s) + x, |s| + 1)
  {
    var t := s + [x];
    assert Suma(t) == Suma(s) + x by {
      SumaConcat(s, [x]);
      SumaUno(x);
    }
    PromedioDe(t, Suma(s) + x, |s| + 1);
  }

  /** A non-empty average is the quotient of its sum by its count. */
  lemma PromedioDe(t: seq<int>, suma: int, n: int)
    requires t != [] && Suma(t) == suma && |t| == n
    ensures Promedio(t) == Cociente(suma, n)
  {
  }

  /** The editable fields of a profile other than its average. */
  datatype DatosPerfil = DatosPerfil(
    especialidad: string,
    horarioDisponible: Option<string>,
    biografia: Option<string>,
    fotoPerfil: Option<string>,
    activo: bool)

  /** A professional profile. usuarioId is the one-to-one link to the user. */
  class Profesional {
    const id: int
    const usuarioId: int
    var especialidad: string
    var horarioDisponible: Option<string>
    var biografia: Option<string>
    var fotoPerfil: Option<string>
    var activo: bool
    var calificacionPromedio: real

    /** Every field of this profile except the average. */
    function Datos(): DatosPerfil
      reads this
    {
      DatosPerfil(especialidad, horarioDisponible, biografia, fotoPerfil, activo)
    }

    /** The builder call of the profile service: active, with an average of 0
        and no photo. */
    constructor(id: int, usuarioId: int, especialidad: string,
                horarioDisponible: Option<string>, biografia: Option<string>)
      ensures this.id == id && this.usuarioId == usuarioId
      ensures this.especialidad == especialidad && this.horarioDisponible == horarioDisponible
      ensures this.biografia == biografia && this.fotoPerfil == None
      ensures activo && calificacionPromedio == 0.0
    {
      this.id := id;
      this.usuarioId := usuarioId;
      this.especialidad := especialidad;
      this.horarioDisponible := horarioDisponible;
      this.biografia := biografia;
      fotoPerfil := None;
      activo := true;
      calificacionPromedio := 0.0;
    }

    /** actualizarCalificacionPromedio over the scores of the profile's reviews. */
    method ActualizarCalificacionPromedio(calificaciones: seq<int>)
      modifies this`calificacionPromedio
      ensures calificacionPromedio == Promedio(calificaciones)
    {
      if |calificaciones| == 0 {
        calificacionPromedio := 0.0;
        return;
      }
      var suma := Suma(calificaciones);
      calificacionPromedio := suma as real / (|calificaciones| as real);
    }
  }
}
