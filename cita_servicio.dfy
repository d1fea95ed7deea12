/** The appointment service: booking, the status setter, rescheduling,
    cancellation and deletion over the appointment table, with the one-hour
    availability check that guards booking and rescheduling. */
module CitaServicio {
  import opened Comun
  import opened Tablas
  import opened Citas
  import opened CitaConsultas
  import opened Ofertas

  /** Half-width of the availability window, in minutes (one hour). */
  const VentanaMinutos: int := 60

  predicate Excluida(c: Cita, citaIdExcluir: Option<int>) {
    citaIdExcluir.Some? && c.id == citaIdExcluir.value
  }

  /** c blocks booking professional profesionalId at fechaHora: it is an active
      appointment of that professional at most one hour away, and it is not
      the appointment being rescheduled. */
  predicate ChocaCon(c: Cita, profesionalId: int, fechaHora: int, citaIdExcluir: Option<int>) {
    c.profesionalId == profesionalId && EstaActiva(c) &&
    fechaHora - VentanaMinutos <= c.fechaHora <= fechaHora + VentanaMinutos &&
    !Excluida(c, citaIdExcluir)
  }

  /** validarDisponibilidadHorario: queries the active appointments in the
      window, drops the excluded one and fails when any remain. */
  function ValidarDisponibilidadHorario(filas: seq<Cita>, profesionalId: int, fechaHora: int,
                                        citaIdExcluir: Option<int>): (err: Option<Error>)
    ensures err.None? || err == Some(BadRequest(HorarioOcupado))
    ensures err.None? <==> forall c | c in filas :: !ChocaCon(c, profesionalId, fechaHora, citaIdExcluir)
  {
    var enVentana := FindCitasActivasByProfesionalAndFecha(
      filas, profesionalId, fechaHora - VentanaMinutos, fechaHora + VentanaMinutos);
    var restantes :=
      if citaIdExcluir.Some? then Filtrar(enVentana, (c: Cita) => c.id != citaIdExcluir.value)
      else enVentana;
    assert forall c :: c in restantes <==> c in filas && ChocaCon(c, profesionalId, fechaHora, citaIdExcluir);
    if restantes != [] then
      var c := restantes[0];
      assert c in filas && ChocaCon(c, profesionalId, fechaHora, citaIdExcluir);
      Some(BadRequest(HorarioOcupado))
    else
      None
  }

  /** Two active appointments of the same professional at most one hour apart. */
  predicate Solapan(a: Cita, b: Cita) {
    a.profesionalId == b.profesionalId && EstaActiva(a) && EstaActiva(b) &&
    b.fechaHora - VentanaMinutos <= a.fechaHora <= b.fechaHora + VentanaMinutos
  }

  /** No two distinct appointments of the table overlap. */
  ghost predicate SinSolapes(m: map<int, Cita>) {
    forall i, j | i in m && j in m && i != j :: !Solapan(m[i], m[j])
  }

  /** Overlap does not depend on the order of the two appointments. */
  lemma SolapanSimetrica(a: Cita, b: Cita)
    ensures Solapan(a, b) <==> Solapan(b, a)
  {
  }

  /** Storing c under id keeps the table free of overlaps when c overlaps no
      other appointment of the table. */
  lemma ReemplazarSinSolapes(m: map<int, Cita>, id: int, c: Cita)
    requires SinSolapes(m)
    requires forall k | k in m && k != id :: !Solapan(m[k], c)
    ensures SinSolapes(m[id := c])
  {
    var m' := m[id := c];
    forall i, j | i in m' && j in m' && i != j ensures !Solapan(m'[i], m'[j]) {
      if i == id {
        SolapanSimetrica(m[j], c);
      }
    }
  }

  /** A free slot, as the availability check reports it on a scan of the
      whole table, overlaps no stored appointment other than the excluded one. */
  lemma HorarioLibreNoSolapa(m: map<int, Cita>, n: nat, c: Cita, citaIdExcluir: Option<int>)
    requires forall k | k in m :: 0 <= k < n && m[k].id == k
    requires EstaActiva(c)
    requires ValidarDisponibilidadHorario(Filas(m, n), c.profesionalId, c.fechaHora, citaIdExcluir).None?
    ensures forall k | k in m && !(citaIdExcluir.Some? && k == citaIdExcluir.value) :: !Solapan(m[k], c)
  {
    forall k | k in m && !(citaIdExcluir.Some? && k == citaIdExcluir.value) ensures !Solapan(m[k], c) {
      FilaEnFilas(m, n, k);
      assert !ChocaCon(m[k], c.profesionalId, c.fechaHora, citaIdExcluir);
    }
  }

  /** Rescheduling an active appointment to a time the availability check
      (excluding the appointment itself) reports free, or keeping its time,
      keeps the table free of overlaps. */
  lemma ReprogramarSinSolapes(m: map<int, Cita>, n: nat, id: int, fechaHora: Option<int>, d: Cita)
    requires forall k | k in m :: 0 <= k < n && m[k].id == k
    requires SinSolapes(m) && id in m && EstaActiva(m[id])
    requires d.profesionalId == m[id].profesionalId && d.estado == m[id].estado
    requires fechaHora.None? ==> d.fechaHora == m[id].fechaHora
    requires fechaHora.Some? ==>
      d.fechaHora == fechaHora.value &&
      ValidarDisponibilidadHorario(Filas(m, n), d.profesionalId, d.fechaHora, Some(id)).None?
    ensures SinSolapes(m[id := d])
  {
    if fechaHora.Some? {
      HorarioLibreNoSolapa(m, n, d, Some(id));
    } else {
      forall k | k in m && k != id ensures !Solapan(m[k], d) {
        assert !Solapan(m[k], m[id]);
      }
    }
    ReemplazarSinSolapes(m, id, d);
  }

  /** The status setter on one record: any target state is accepted, the notes
      are replaced only when given, and the completion stamp is set to now only
      when the target is completed; nothing else changes. */
  function ConEstado(c: Cita, estado: EstadoCita, notas: Option<string>, ahora: int): (d: Cita)
    ensures d.estado == estado
    ensures notas.Some? ==> d.notas == notas
    ensures notas.None? ==> d.notas == c.notas
    ensures estado == Completada ==> d.fechaCompletada == Some(ahora)
    ensures estado != Completada ==> d.fechaCompletada == c.fechaCompletada
    ensures c.fechaCompletada.Some? ==> d.fechaCompletada.Some?
    ensures d.(estado := c.estado, notas := c.notas, fechaCompletada := c.fechaCompletada) == c
  {
    var d := c.(estado := estado);
    var d := if notas.Some? then d.(notas := notas) else d;
    if estado == Completada then d.(fechaCompletada := Some(ahora)) else d
  }

  /** Two appointments that show the status setter does not keep the table
      free of overlaps: reviving a cancelled appointment next to a pending one. */
  function CitaCanceladaEjemplo(): Cita {
    Cita(1, 600, Cancelada, None, 10.0, 0, None, 5, 3, 7)
  }

  function CitaPendienteEjemplo(): Cita {
    Cita(2, 600, Pendiente, None, 10.0, 0, None, 6, 3, 7)
  }

  lemma EstadoPermisivoRompeSinSolapes()
    ensures SinSolapes(map[1 := CitaCanceladaEjemplo(), 2 := CitaPendienteEjemplo()])
    ensures !SinSolapes(map[1 := ConEstado(CitaCanceladaEjemplo(), Pendiente, None, 0), 2 := CitaPendienteEjemplo()])
  {
    var m' := map[1 := ConEstado(CitaCanceladaEjemplo(), Pendiente, None, 0), 2 := CitaPendienteEjemplo()];
    assert 1 in m' && 2 in m' && Solapan(m'[1], m'[2]);
  }

  class CitaService {
    var citas: map<int, Cita>
    var siguienteId: nat

    ghost predicate Valid()
      reads this
    {
      1 <= siguienteId &&
      forall k | k in citas :: 1 <= k < siguienteId && citas[k].id == k
    }

    /** The table as a repository scan sees it. */
    function Tabla(): seq<Cita>
      reads this
    {
      Filas(citas, siguienteId)
    }

    constructor()
      ensures Valid() && citas == map[] && siguienteId == 1
    {
      citas := map[];
      siguienteId := 1;
    }

    /** crear: customer, service and professional must exist (in that order);
        the professional must offer the service and the offering must be
        enabled; the slot must be free. The new appointment is pending and
        costs the offering's price. usuarios, servicios and profesionales are
        the ids of the other tables; ofertas is a scan of the offering table. */
    method Crear(usuarioId: int, servicioId: int, profesionalId: int, fechaHora: int,
                 notas: Option<string>, ahora: int,
                 usuarios: set<int>, servicios: set<int>, profesionales: set<int>,
                 ofertas: seq<BarberoServicio>) returns (r: Result<Cita>)
      requires Valid()
      modifies this
      ensures Valid()
      ensures usuarioId !in usuarios ==> r == Err(NotFound("Usuario", usuarioId))
      ensures usuarioId in usuarios && servicioId !in servicios ==> r == Err(NotFound("Servicio", servicioId))
      ensures usuarioId in usuarios && servicioId in servicios && profesionalId !in profesionales ==>
                r == Err(NotFound("Profesional", profesionalId))
      ensures usuarioId in usuarios && servicioId in servicios && profesionalId in profesionales ==>
                var o := FindByProfesionalIdAndServicioId(ofertas, profesionalId, servicioId);
                (o.None? ==> r == Err(BadRequest(NoOfreceServicio))) &&
                (o.Some? && !o.value.disponible ==> r == Err(BadRequest(ServicioNoDisponible))) &&
                (o.Some? && o.value.disponible &&
                 ValidarDisponibilidadHorario(old(Tabla()), profesionalId, fechaHora, None).Some? ==>
                   r == Err(BadRequest(HorarioOcupado))) &&
                (o.Some? && o.value.disponible &&
                 ValidarDisponibilidadHorario(old(Tabla()), profesionalId, fechaHora, None).None? ==>
                   r.Ok? && r.value == NuevaCita(old(siguienteId), fechaHora, notas, o.value.precio, ahora,
                                                 usuarioId, servicioId, profesionalId))
      ensures r.Err? ==> citas == old(citas) && siguienteId == old(siguienteId)
      ensures r.Ok? ==> citas == old(citas)[old(siguienteId) := r.value] && siguienteId == old(siguienteId) + 1 &&
                        Tabla() == old(Tabla()) + [r.value]
      ensures SinSolapes(old(citas)) ==> SinSolapes(citas)
    {
      if usuarioId !in usuarios {
        return Err(NotFound("Usuario", usuarioId));
      }
      if servicioId !in servicios {
        return Err(NotFound("Servicio", servicioId));
      }
      if profesionalId !in profesionales {
        return Err(NotFound("Profesional", profesionalId));
      }
      var oferta := FindByProfesionalIdAndServicioId(ofertas, profesionalId, servicioId);
      if oferta.None? {
        return Err(BadRequest(NoOfreceServicio));
      }
      if !oferta.value.disponible {
        return Err(BadRequest(ServicioNoDisponible));
      }
      var conflicto := ValidarDisponibilidadHorario(Tabla(), profesionalId, fechaHora, None);
      if conflicto.Some? {
        return Err(conflicto.value);
      }
      var cita := NuevaCita(siguienteId, fechaHora, notas, oferta.value.precio, ahora, usuarioId, servicioId, profesionalId);
      HorarioLibreNoSolapa(citas, siguienteId, cita, None);
      if SinSolapes(citas) {
        ReemplazarSinSolapes(citas, siguienteId, cita);
      }
      Insertar(cita);
      r := Ok(cita);
    }

    /** The repository's save of an existing row. */
    method Guardar(id: int, c: Cita)
      requires Valid() && id in citas && c.id == id
      modifies this
      ensures Valid()
      ensures citas == old(citas)[id := c] && siguienteId == old(siguienteId)
    {
      citas := citas[id := c];
    }

    /** The repository's save of a new row: the row gets the next id. */
    method Insertar(cita: Cita)
      requires Valid() && cita.id == siguienteId
      modifies this
      ensures Valid()
      ensures citas == old(citas)[old(siguienteId) := cita] && siguienteId == old(siguienteId) + 1
      ensures Tabla() == old(Tabla()) + [cita]
    {
      var id := siguienteId;
      FilasInsertar(citas, id, cita);
      citas := citas[id := cita];
      siguienteId := id + 1;
    }

    /** actualizarEstado: the permissive status setter (see ConEstado). */
    method ActualizarEstado(id: int, estado: EstadoCita, notas: Option<string>, ahora: int)
      returns (r: Result<Cita>)
      requires Valid()
      modifies this
      ensures Valid() && siguienteId == old(siguienteId)
      ensures id !in old(citas) ==> r == Err(NotFound("Cita", id)) && citas == old(citas)
      ensures id in old(citas) ==>
                r == Ok(ConEstado(old(citas)[id], estado, notas, ahora)) && citas == old(citas)[id := r.value]
      ensures estado == Completada && r.Ok? ==> citas[id].fechaCompletada == Some(ahora)
    {
      if id !in citas {
        return Err(NotFound("Cita", id));
      }
      var c := ConEstado(citas[id], estado, notas, ahora);
      Guardar(id, c);
      r := Ok(c);
    }

    /** actualizar: only a pending or confirmed appointment may change; a new
        time is checked against the others with this appointment excluded. Only
        the time and the notes can change. */
    method Actualizar(id: int, fechaHora: Option<int>, notas: Option<string>) returns (r: Result<Cita>)
      requires Valid()
      modifies this
      ensures Valid() && siguienteId == old(siguienteId)
      ensures id !in old(citas) ==> r == Err(NotFound("Cita", id))
      ensures id in old(citas) && !PuedeSerModificada(old(citas)[id]) ==> r == Err(BadRequest(CitaNoModificable))
      ensures id in old(citas) && PuedeSerModificada(old(citas)[id]) && fechaHora.Some? &&
              ValidarDisponibilidadHorario(old(Tabla()), old(citas)[id].profesionalId, fechaHora.value, Some(id)).Some? ==>
                r == Err(BadRequest(HorarioOcupado))
      ensures r.Err? ==> citas == old(citas)
      ensures r.Ok? ==>
                id in old(citas) && PuedeSerModificada(old(citas)[id]) &&
                r.value == old(citas)[id].(fechaHora := if fechaHora.Some? then fechaHora.value else old(citas)[id].fechaHora,
                                           notas := if notas.Some? then notas else old(citas)[id].notas) &&
                citas == old(citas)[id := r.value]
      ensures id in old(citas) && PuedeSerModificada(old(citas)[id]) &&
              (fechaHora.None? ||
               ValidarDisponibilidadHorario(old(Tabla()), old(citas)[id].profesionalId, fechaHora.value, Some(id)).None?) ==>
                r.Ok?
      ensures SinSolapes(old(citas)) ==> SinSolapes(citas)
    {
      if id !in citas {
        return Err(NotFound("Cita", id));
      }
      var c := citas[id];
      if !PuedeSerModificada(c) {
        return Err(BadRequest(CitaNoModificable));
      }
      var d := c;
      if fechaHora.Some? {
        var conflicto := ValidarDisponibilidadHorario(Tabla(), c.profesionalId, fechaHora.value, Some(id));
        if conflicto.Some? {
          return Err(conflicto.value);
        }
        d := d.(fechaHora := fechaHora.value);
      }
      if notas.Some? {
        d := d.(notas := notas);
      }
      if SinSolapes(citas) {
        ReprogramarSinSolapes(citas, siguienteId, id, fechaHora, d);
      }
      Guardar(id, d);
      r := Ok(d);
    }

    /** cancelar: only a pending or confirmed appointment can be cancelled. */
    method Cancelar(id: int) returns (err: Option<Error>)
      requires Valid()
      modifies this
      ensures Valid() && siguienteId == old(siguienteId)
      ensures id !in old(citas) ==> err == Some(NotFound("Cita", id)) && citas == old(citas)
      ensures id in old(citas) && !PuedeSerModificada(old(citas)[id]) ==>
                err == Some(BadRequest(CitaNoCancelable)) && citas == old(citas)
      ensures id in old(citas) && PuedeSerModificada(old(citas)[id]) ==>
                err == None && citas == old(citas)[id := old(citas)[id].(estado := Cancelada)]
      ensures SinSolapes(old(citas)) ==> SinSolapes(citas)
    {
      if id !in citas {
        return Some(NotFound("Cita", id));
      }
      if !PuedeSerModificada(citas[id]) {
        return Some(BadRequest(CitaNoCancelable));
      }
      if SinSolapes(citas) {
        ReemplazarSinSolapes(citas, id, citas[id].(estado := Cancelada));
      }
      Guardar(id, citas[id].(estado := Cancelada));
      err := None;
    }

    /** eliminar: removes an existing appointment whatever its state. */
    method Eliminar(id: int) returns (err: Option<Error>)
      requires Valid()
      modifies this
      ensures Valid() && siguienteId == old(siguienteId)
      ensures id !in old(citas) ==> err == Some(NotFound("Cita", id)) && citas == old(citas)
      ensures id in old(citas) ==> err == None && citas == old(citas) - {id}
      ensures SinSolapes(old(citas)) ==> SinSolapes(citas)
    {
      if id !in citas {
        return Some(NotFound("Cita", id));
      }
      citas := citas - {id};
      err := None;
    }
  }
}
