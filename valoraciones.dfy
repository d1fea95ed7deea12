/** The review entity, its score check, and the review-table queries the
    rating recompute reads. */
module Valoraciones {
  import opened Comun
  import opened Tablas
  import opened Profesionales

  /** One row of the review table. The score is required; the link to an
      appointment is optional. */
  datatype Valoracion = Valoracion(
    id: int,
    calificacion: int,
    comentario: Option<string>,
    fechaValoracion: int,
    profesionalId: int,
    usuarioId: int,
    citaId: Option<int>)

  /** validarCalificacion: the check run before insert and before update. */
  function ValidarCalificacion(calificacion: int): (err: Option<Error>)
    ensures err.None? <==> 1 <= calificacion <= 5
    ensures err.Some? ==> err.value == IllegalArgument(CalificacionFueraDeRango)
  {
    if calificacion < 1 || calificacion > 5 then Some(IllegalArgument(CalificacionFueraDeRango)) else None
  }

  /** The boundary scores: 1 and 5 are accepted, 0 and 6 rejected. */
  lemma BordesCalificacion()
    ensures ValidarCalificacion(1).None? && ValidarCalificacion(5).None?
    ensures ValidarCalificacion(0).Some? && ValidarCalificacion(6).Some?
  {
  }

  /** existsByCitaId. */
  function ExistsByCitaId(filas: seq<Valoracion>, citaId: int): (b: bool)
    ensures !b <==> forall v | v in filas :: v.citaId != Some(citaId)
  {
    if filas == [] then false
    else
      assert filas == [filas[0]] + filas[1..];
      filas[0].citaId == Some(citaId) || ExistsByCitaId(filas[1..], citaId)
  }

  /** findByProfesionalId. */
  function FindByProfesionalId(filas: seq<Valoracion>, profesionalId: int): (r: seq<Valoracion>)
    ensures forall v :: v in r <==> v in filas && v.profesionalId == profesionalId
    ensures forall v :: multiset(r)[v] == if v.profesionalId == profesionalId then multiset(filas)[v] else 0
  {
    Filtrar(filas, (v: Valoracion) => v.profesionalId == profesionalId)
  }

  /** The scores of a professional's reviews, in scan order. */
  function CalificacionesDe(filas: seq<Valoracion>, profesionalId: int): seq<int>
  {
    if filas == [] then []
    else
      var propia := if filas[0].profesionalId == profesionalId then [filas[0].calificacion] else [];
      propia + CalificacionesDe(filas[1..], profesionalId)
  }

  /** There is one score per review of the professional. */
  lemma {:induction false} UnaCalificacionPorValoracion(filas: seq<Valoracion>, profesionalId: int)
    ensures |CalificacionesDe(filas, profesionalId)| == |FindByProfesionalId(filas, profesionalId)|
  {
    if filas != [] {
      UnaCalificacionPorValoracion(filas[1..], profesionalId);
    }
  }

  lemma {:induction false} CalificacionesConcat(a: seq<Valoracion>, b: seq<Valoracion>, profesionalId: int)
    ensures CalificacionesDe(a + b, profesionalId) == CalificacionesDe(a, profesionalId) + CalificacionesDe(b, profesionalId)
  {
    if a == [] {
      assert a + b == b;
    } else {
      var propia := if a[0].profesionalId == profesionalId then [a[0].calificacion] else [];
      assert (a + b)[0] == a[0];
      assert (a + b)[1..] == a[1..] + b;
      assert CalificacionesDe(a + b, profesionalId) == propia + CalificacionesDe(a[1..] + b, profesionalId);
      CalificacionesConcat(a[1..], b, profesionalId);
    }
  }

  /** Every score of every review in the scan lies in 1..5. */
  ghost predicate CalificacionesValidas(filas: seq<Valoracion>) {
    forall i | 0 <= i < |filas| :: 1 <= filas[i].calificacion <= 5
  }

  lemma {:induction false} CalificacionesEnRango(filas: seq<Valoracion>, profesionalId: int)
    requires CalificacionesValidas(filas)
    ensures forall i | 0 <= i < |CalificacionesDe(filas, profesionalId)| :: 1 <= CalificacionesDe(filas, profesionalId)[i] <= 5
  {
    if filas != [] {
      assert CalificacionesValidas(filas[1..]) by {
        forall i | 0 <= i < |filas[1..]| ensures 1 <= filas[1..][i].calificacion <= 5 {
          assert filas[1..][i] == filas[i + 1];
        }
      }
      CalificacionesEnRango(filas[1..], profesionalId);
    }
  }

  /** With valid scores in the table, a professional with reviews has an
      average in [1, 5]. */
  lemma PromedioDeTablaEnRango(filas: seq<Valoracion>, profesionalId: int)
    requires CalificacionesValidas(filas)
    requires CalificacionesDe(filas, profesionalId) != []
    ensures 1.0 <= Promedio(CalificacionesDe(filas, profesionalId)) <= 5.0
  {
    CalificacionesEnRango(filas, profesionalId);
    PromedioEnRango(CalificacionesDe(filas, profesionalId));
  }

  // ---------------------------------------------------------------------------
  // How each write to the review table changes a professional's scores

  /** Inserting a review under a fresh id adds its score to its professional's
      scores (at the end) and leaves every other professional's scores alone. */
  lemma CalificacionesAlInsertar(m: map<int, Valoracion>, n: nat, v: Valoracion, profesionalId: int)
    requires forall k | k in m :: k < n
    ensures CalificacionesDe(Filas(m[n := v], n + 1), profesionalId) ==
      CalificacionesDe(Filas(m, n), profesionalId) + (if v.profesionalId == profesionalId then [v.calificacion] else [])
  {
    FilasInsertar(m, n, v);
    CalificacionesConcat(Filas(m, n), [v], profesionalId);
  }

  /** The scores of x + [y] + z are those of x, then y's own, then those of z. */
  lemma CalificacionesTres(x: seq<Valoracion>, y: Valoracion, z: seq<Valoracion>, profesionalId: int)
    ensures CalificacionesDe(x + [y] + z, profesionalId) ==
      CalificacionesDe(x, profesionalId) + CalificacionesDe([y], profesionalId) + CalificacionesDe(z, profesionalId)
  {
    CalificacionesConcat(x + [y], z, profesionalId);
    CalificacionesConcat(x, [y], profesionalId);
  }

  /** A single review of the professional contributes exactly its score. */
  lemma CalificacionesUna(y: Valoracion)
    ensures CalificacionesDe([y], y.profesionalId) == [y.calificacion]
  {
    assert [y][1..] == [];
  }

  /** Replacing the review of id k, keeping its professional, replaces one
      occurrence of its old score by the new score. */
  lemma CalificacionesAlActualizar(m: map<int, Valoracion>, n: nat, k: int, v: Valoracion)
    requires 0 <= k < n && k in m && v.profesionalId == m[k].profesionalId
    ensures multiset(CalificacionesDe(Filas(m[k := v], n), v.profesionalId)) ==
      multiset(CalificacionesDe(Filas(m, n), v.profesionalId)) - multiset{m[k].calificacion} + multiset{v.calificacion}
    ensures |CalificacionesDe(Filas(m[k := v], n), v.profesionalId)| == |CalificacionesDe(Filas(m, n), v.profesionalId)|
  {
    var i := FilasActualizar(m, n, k, v);
    var a := Filas(m, n);
    var pid := v.profesionalId;
    var x, z := a[..i], a[i + 1..];
    assert a == x + [m[k]] + z;
    assert a[i := v] == x + [v] + z;
    CalificacionesTres(x, m[k], z, pid);
    CalificacionesTres(x, v, z, pid);
    CalificacionesUna(m[k]);
    CalificacionesUna(v);
  }

  /** Deleting the review of id k removes one occurrence of its score from its
      professional's scores. */
  lemma CalificacionesAlEliminar(m: map<int, Valoracion>, n: nat, k: int)
    requires 0 <= k < n && k in m
    ensures multiset(CalificacionesDe(Filas(m - {k}, n), m[k].profesionalId)) ==
      multiset(CalificacionesDe(Filas(m, n), m[k].profesionalId)) - multiset{m[k].calificacion}
    ensures |CalificacionesDe(Filas(m - {k}, n), m[k].profesionalId)| + 1 == |CalificacionesDe(Filas(m, n), m[k].profesionalId)|
  {
    var i := FilasEliminar(m, n, k);
    var a := Filas(m, n);
    var pid := m[k].profesionalId;
    assert a == a[..i] + [m[k]] + a[i + 1..];
    CalificacionesConcat(a[..i] + [m[k]], a[i + 1..], pid);
    CalificacionesConcat(a[..i], [m[k]], pid);
    CalificacionesConcat(a[..i], a[i + 1..], pid);
  }
}
