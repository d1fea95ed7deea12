/** The review service: create, update and delete reviews, each followed by
    the recompute of the reviewed professional's average. */
module ValoracionServicio {
  import opened Comun
  import opened Tablas
  import opened Citas
  import opened Profesionales
  import opened Valoraciones
  import opened ProfesionalServicio

  /** The appointment checks run when a review names an appointment, in order:
      it must exist, it must not be reviewed yet, and it must be completed. */
  function ComprobarCita(citaId: Option<int>, citas: map<int, Cita>, filas: seq<Valoracion>): (err: Option<Error>)
    ensures citaId.None? ==> err.None?
    ensures citaId.Some? && citaId.value !in citas ==> err == Some(NotFound("Cita", citaId.value))
    ensures citaId.Some? && citaId.value in citas && ExistsByCitaId(filas, citaId.value) ==>
              err == Some(Conflict(ValoracionDuplicada))
    ensures citaId.Some? && citaId.value in citas && !ExistsByCitaId(filas, citaId.value) ==>
              (err.None? <==> citas[citaId.value].estado == Completada) &&
              (err.Some? ==> err == Some(BadRequest(SoloCitasCompletadas)))
  {
    if citaId.None? then None
    else if citaId.value !in citas then Some(NotFound("Cita", citaId.value))
    else if ExistsByCitaId(filas, citaId.value) then Some(Conflict(ValoracionDuplicada))
    else if citas[citaId.value].estado != Completada then Some(BadRequest(SoloCitasCompletadas))
    else None
  }

  class ValoracionService {
    var valoraciones: map<int, Valoracion>
    var siguienteId: nat
    const profesionales: ProfesionalService

    /** Ids are key-consistent, every stored score passed the 1..5 check, and
        no appointment has two reviews. */
    ghost predicate Valid()
      reads this
    {
      1 <= siguienteId &&
      (forall k | k in valoraciones :: 1 <= k < siguienteId && valoraciones[k].id == k) &&
      (forall k | k in valoraciones :: 1 <= valoraciones[k].calificacion <= 5) &&
      (forall i, j | i in valoraciones && j in valoraciones && i != j && valoraciones[i].citaId.Some? ::
         valoraciones[j].citaId != valoraciones[i].citaId)
    }

    /** The table as a repository scan sees it. */
    function Tabla(): seq<Valoracion>
      reads this
    {
      Filas(valoraciones, siguienteId)
    }

    constructor(profesionales: ProfesionalService)
      ensures Valid() && valoraciones == map[] && siguienteId == 1 && this.profesionales == profesionales
    {
      valoraciones := map[];
      siguienteId := 1;
      this.profesionales := profesionales;
    }

    /** Every score in the table is in 1..5, so every professional's average is
        0 or lies in [1, 5]. */
    lemma PromedioAcotado(profesionalId: int)
      requires Valid()
      ensures var s := CalificacionesDe(Tabla(), profesionalId);
              s == [] || 1.0 <= Promedio(s) <= 5.0
    {
      var t := Tabla();
      forall i | 0 <= i < |t| ensures 1 <= t[i].calificacion <= 5 {
        var v := t[i];
        assert v in t;
        DeFilas(valoraciones, siguienteId, v);
      }
      if CalificacionesDe(t, profesionalId) != [] {
        PromedioDeTablaEnRango(t, profesionalId);
      }
    }

    /** crear: the professional, then the user, must exist; a named appointment
        passes ComprobarCita; the score passes the 1..5 check. The professional's
        average is then recomputed and includes the new score. usuarios holds
        the user ids; citas is the appointment table. */
    method Crear(profesionalId: int, usuarioId: int, citaId: Option<int>, calificacion: int,
                 comentario: Option<string>, ahora: int, usuarios: set<int>, citas: map<int, Cita>)
      returns (r: Result<Valoracion>)
      requires Valid() && profesionales.Valid()
      modifies this, profesionales.Perfil(profesionalId)
      ensures Valid()
      ensures profesionalId !in profesionales.profesionales ==> r == Err(NotFound("Profesional", profesionalId))
      ensures profesionalId in profesionales.profesionales && usuarioId !in usuarios ==>
                r == Err(NotFound("Usuario", usuarioId))
      ensures profesionalId in profesionales.profesionales && usuarioId in usuarios ==>
                var e := ComprobarCita(citaId, citas, old(Tabla()));
                (e.Some? ==> r == Err(e.value)) &&
                (e.None? && ValidarCalificacion(calificacion).Some? ==> r == Err(ValidarCalificacion(calificacion).value)) &&
                (e.None? && ValidarCalificacion(calificacion).None? ==> r.Ok?)
      ensures r.Err? ==>
                valoraciones == old(valoraciones) && siguienteId == old(siguienteId) &&
                (profesionalId in profesionales.profesionales ==>
                   profesionales.profesionales[profesionalId].calificacionPromedio ==
                   old(profesionales.profesionales[profesionalId].calificacionPromedio))
      ensures profesionalId in profesionales.profesionales ==>
                profesionales.profesionales[profesionalId].Datos() == old(profesionales.profesionales[profesionalId].Datos())
      ensures r.Ok? ==>
                profesionalId in profesionales.profesionales && usuarioId in usuarios &&
                r.value == Valoracion(old(siguienteId), calificacion, comentario, ahora, profesionalId, usuarioId, citaId) &&
                valoraciones == old(valoraciones)[old(siguienteId) := r.value] &&
                siguienteId == old(siguienteId) + 1 &&
                Tabla() == old(Tabla()) + [r.value] &&
                profesionales.profesionales[profesionalId].calificacionPromedio ==
                  Promedio(CalificacionesDe(Tabla(), profesionalId)) &&
                CalificacionesDe(Tabla(), profesionalId) == CalificacionesDe(old(Tabla()), profesionalId) + [calificacion]
    {
      if profesionalId !in profesionales.profesionales {
        return Err(NotFound("Profesional", profesionalId));
      }
      if usuarioId !in usuarios {
        return Err(NotFound("Usuario", usuarioId));
      }
      var e := ComprobarCita(citaId, citas, Tabla());
      if e.Some? {
        return Err(e.value);
      }
      var invalida := ValidarCalificacion(calificacion);
      if invalida.Some? {
        return Err(invalida.value);
      }
      var v := Valoracion(siguienteId, calificacion, comentario, ahora, profesionalId, usuarioId, citaId);
      if citaId.Some? {
        forall k | k in valoraciones ensures valoraciones[k].citaId != citaId {
          FilaEnFilas(valoraciones, siguienteId, k);
        }
      }
      Agregar(v);
      r := Ok(v);
    }

    /** Saves a new review, then recomputes its professional's average: the
        new score joins that professional's scores. */
    method Agregar(v: Valoracion)
      requires Valid() && profesionales.Valid() && v.id == siguienteId && 1 <= v.calificacion <= 5
      requires v.citaId.Some? ==> forall k | k in valoraciones :: valoraciones[k].citaId != v.citaId
      requires v.profesionalId in profesionales.profesionales
      modifies this, profesionales.Perfil(v.profesionalId)
      ensures Valid()
      ensures valoraciones == old(valoraciones)[old(siguienteId) := v] && siguienteId == old(siguienteId) + 1
      ensures Tabla() == old(Tabla()) + [v]
      ensures profesionales.profesionales[v.profesionalId].calificacionPromedio ==
                Promedio(CalificacionesDe(Tabla(), v.profesionalId))
      ensures CalificacionesDe(Tabla(), v.profesionalId) == CalificacionesDe(old(Tabla()), v.profesionalId) + [v.calificacion]
      ensures profesionales.profesionales[v.profesionalId].Datos() == old(profesionales.profesionales[v.profesionalId].Datos())
    {
      CalificacionesAlInsertar(valoraciones, siguienteId, v, v.profesionalId);
      Insertar(v);
      var _ := profesionales.ActualizarCalificacion(v.profesionalId, Tabla());
    }

    /** The repository's save of a new row: the row gets the next id. */
    method Insertar(v: Valoracion)
      requires Valid() && v.id == siguienteId && 1 <= v.calificacion <= 5
      requires v.citaId.Some? ==> forall k | k in valoraciones :: valoraciones[k].citaId != v.citaId
      modifies this
      ensures Valid()
      ensures valoraciones == old(valoraciones)[old(siguienteId) := v] && siguienteId == old(siguienteId) + 1
      ensures Tabla() == old(Tabla()) + [v]
    {
      FilasInsertar(valoraciones, siguienteId, v);
      valoraciones := valoraciones[siguienteId := v];
      siguienteId := siguienteId + 1;
    }

    /** The repository's save of an existing row that keeps its appointment. */
    method Guardar(id: int, v: Valoracion)
      requires Valid() && id in valoraciones && v.id == id && 1 <= v.calificacion <= 5
      requires v.citaId == valoraciones[id].citaId
      modifies this
      ensures Valid()
      ensures valoraciones == old(valoraciones)[id := v] && siguienteId == old(siguienteId)
    {
      valoraciones := valoraciones[id := v];
    }

    /** Saves an edited review of the same professional and appointment, then
        recomputes that professional's average: one occurrence of the old score
        is replaced by the new one. */
    method Reemplazar(id: int, v: Valoracion)
      requires Valid() && profesionales.Valid()
      requires id in valoraciones && v.id == id && 1 <= v.calificacion <= 5
      requires v.citaId == valoraciones[id].citaId && v.profesionalId == valoraciones[id].profesionalId
      requires v.profesionalId in profesionales.profesionales
      modifies this, profesionales.Perfil(v.profesionalId)
      ensures Valid() && siguienteId == old(siguienteId)
      ensures valoraciones == old(valoraciones)[id := v]
      ensures profesionales.profesionales[v.profesionalId].calificacionPromedio ==
                Promedio(CalificacionesDe(Tabla(), v.profesionalId))
      ensures multiset(CalificacionesDe(Tabla(), v.profesionalId)) ==
                multiset(CalificacionesDe(old(Tabla()), v.profesionalId)) - multiset{old(valoraciones)[id].calificacion} +
                multiset{v.calificacion}
      ensures profesionales.profesionales[v.profesionalId].Datos() == old(profesionales.profesionales[v.profesionalId].Datos())
    {
      ghost var antes := valoraciones;
      Guardar(id, v);
      CalificacionesAlActualizar(antes, siguienteId, id, v);
      var _ := profesionales.ActualizarCalificacion(v.profesionalId, Tabla());
    }

    /** actualizar: replaces the score and the comment (the comment even when
        absent), keeping the professional and the appointment, then recomputes
        that professional's average. A missing review or professional, or a
        score outside 1..5, fails with nothing changed (the transaction rolls
        back). */
    method Actualizar(id: int, calificacion: int, comentario: Option<string>) returns (r: Result<Valoracion>)
      requires Valid() && profesionales.Valid()
      modifies this, if id in valoraciones then profesionales.Perfil(valoraciones[id].profesionalId) else {}
      ensures Valid() && siguienteId == old(siguienteId)
      ensures id !in old(valoraciones) ==> r == Err(NotFound("Valoracion", id))
      ensures id in old(valoraciones) && old(valoraciones)[id].profesionalId !in profesionales.profesionales ==>
                r == Err(NotFound("Profesional", old(valoraciones)[id].profesionalId))
      ensures id in old(valoraciones) && old(valoraciones)[id].profesionalId in profesionales.profesionales ==>
                (ValidarCalificacion(calificacion).Some? ==> r == Err(ValidarCalificacion(calificacion).value)) &&
                (ValidarCalificacion(calificacion).None? ==> r.Ok?)
      ensures r.Err? ==> valoraciones == old(valoraciones)
      ensures r.Err? && id in old(valoraciones) && old(valoraciones)[id].profesionalId in profesionales.profesionales ==>
                var p := profesionales.profesionales[old(valoraciones)[id].profesionalId];
                p.calificacionPromedio == old(p.calificacionPromedio)
      ensures id in old(valoraciones) && old(valoraciones)[id].profesionalId in profesionales.profesionales ==>
                var p := profesionales.profesionales[old(valoraciones)[id].profesionalId];
                p.Datos() == old(p.Datos())
      ensures r.Ok? ==>
                var pid := old(valoraciones)[id].profesionalId;
                r.value == old(valoraciones)[id].(calificacion := calificacion, comentario := comentario) &&
                valoraciones == old(valoraciones)[id := r.value] &&
                profesionales.profesionales[pid].calificacionPromedio == Promedio(CalificacionesDe(Tabla(), pid)) &&
                multiset(CalificacionesDe(Tabla(), pid)) ==
                  multiset(CalificacionesDe(old(Tabla()), pid)) - multiset{old(valoraciones)[id].calificacion} +
                  multiset{calificacion}
    {
      if id !in valoraciones {
        return Err(NotFound("Valoracion", id));
      }
      var v := valoraciones[id];
      if v.profesionalId !in profesionales.profesionales {
        return Err(NotFound("Profesional", v.profesionalId));
      }
      var invalida := ValidarCalificacion(calificacion);
      if invalida.Some? {
        return Err(invalida.value);
      }
      var v' := v.(calificacion := calificacion, comentario := comentario);
      Reemplazar(id, v');
      r := Ok(v');
    }

    /** eliminar: removes the review and recomputes the average of the
        professional it belonged to. */
    method Eliminar(id: int) returns (err: Option<Error>)
      requires Valid() && profesionales.Valid()
      modifies this, if id in valoraciones then profesionales.Perfil(valoraciones[id].profesionalId) else {}
      ensures Valid() && siguienteId == old(siguienteId)
      ensures id !in old(valoraciones) ==> err == Some(NotFound("Valoracion", id))
      ensures id in old(valoraciones) && old(valoraciones)[id].profesionalId !in profesionales.profesionales ==>
                err == Some(NotFound("Profesional", old(valoraciones)[id].profesionalId))
      ensures err.Some? ==> valoraciones == old(valoraciones)
      ensures id in old(valoraciones) && old(valoraciones)[id].profesionalId in profesionales.profesionales ==>
                var p := profesionales.profesionales[old(valoraciones)[id].profesionalId];
                p.Datos() == old(p.Datos())
      ensures err.None? ==>
                id in old(valoraciones) &&
                var pid := old(valoraciones)[id].profesionalId;
                valoraciones == old(valoraciones) - {id} &&
                profesionales.profesionales[pid].calificacionPromedio == Promedio(CalificacionesDe(Tabla(), pid)) &&
                multiset(CalificacionesDe(Tabla(), pid)) ==
                  multiset(CalificacionesDe(old(Tabla()), pid)) - multiset{old(valoraciones)[id].calificacion}
    {
      if id !in valoraciones {
        return Some(NotFound("Valoracion", id));
      }
      var pid := valoraciones[id].profesionalId;
      if pid !in profesionales.profesionales {
        return Some(NotFound("Profesional", pid));
      }
      CalificacionesAlEliminar(valoraciones, siguienteId, id);
      valoraciones := valoraciones - {id};
      var _ := profesionales.ActualizarCalificacion(pid, Tabla());
      err := None;
    }
  }
}
