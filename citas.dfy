/** The appointment entity: its lifecycle states, its record and the two
    state predicates the services rely on. */
module Citas {
  import opened Comun

  /** The lifecycle of an appointment. */
  datatype EstadoCita = Pendiente | Confirmada | EnProceso | Completada | Cancelada | NoAsistio

  /** The lifecycle states in declaration order. */
  const Estados: seq<EstadoCita> := [Pendiente, Confirmada, EnProceso, Completada, Cancelada, NoAsistio]

  /** One row of the appointment table. Times are minute counts; the customer,
      service and professional are referenced by id. */
  datatype Cita = Cita(
    id: int,
    fechaHora: int,
    estado: EstadoCita,
    notas: Option<string>,
    precioFinal: real,
    fechaCreacion: int,
    fechaCompletada: Option<int>,
    usuarioId: int,
    servicioId: int,
    profesionalId: int)

  /** An appointment may be rescheduled or cancelled only while pending or confirmed. */
  function PuedeSerModificada(c: Cita): (b: bool)
    ensures b <==> c.estado in {Pendiente, Confirmada}
    ensures b ==> EstaActiva(c)
  {
    c.estado == Pendiente || c.estado == Confirmada
  }

  /** An appointment is active unless it is cancelled, completed or a no-show. */
  function EstaActiva(c: Cita): (b: bool)
    ensures b <==> c.estado in {Pendiente, Confirmada, EnProceso}
  {
    c.estado != Cancelada && c.estado != Completada && c.estado != NoAsistio
  }

  /** The builder with its default state: a new appointment is pending and has
      no completion stamp; fechaCreacion is the creation timestamp. */
  function NuevaCita(id: int, fechaHora: int, notas: Option<string>, precio: real, ahora: int,
                     usuarioId: int, servicioId: int, profesionalId: int): (c: Cita)
    ensures c.estado == Pendiente && c.fechaCompletada == None
    ensures PuedeSerModificada(c) && EstaActiva(c)
    ensures c.id == id && c.fechaHora == fechaHora && c.notas == notas && c.precioFinal == precio
    ensures c.fechaCreacion == ahora
    ensures c.usuarioId == usuarioId && c.servicioId == servicioId && c.profesionalId == profesionalId
  {
    Cita(id, fechaHora, Pendiente, notas, precio, ahora, None, usuarioId, servicioId, profesionalId)
  }

  /** The lifecycle has exactly six distinct states. */
  lemma SeisEstados()
    ensures |Estados| == 6
    ensures forall e: EstadoCita :: e in Estados
    ensures forall i, j | 0 <= i < j < |Estados| :: Estados[i] != Estados[j]
  {
    forall e: EstadoCita ensures e in Estados {
      var i := match e
        case Pendiente => 0 case Confirmada => 1 case EnProceso => 2
        case Completada => 3 case Cancelada => 4 case NoAsistio => 5;
      assert Estados[i] == e;
    }
  }

  /** The active states are exactly pending, confirmed and in progress. */
  lemma ActivaSiiEstadoVivo(c: Cita)
    ensures EstaActiva(c) <==> c.estado in {Pendiente, Confirmada, EnProceso}
  {
  }

  /** The modifiable states are exactly pending and confirmed, and every
      modifiable appointment is active. */
  lemma ModificableEsActiva(c: Cita)
    ensures PuedeSerModificada(c) <==> c.estado in {Pendiente, Confirmada}
    ensures PuedeSerModificada(c) ==> EstaActiva(c)
    ensures EstaActiva(c) && !PuedeSerModificada(c) <==> c.estado == EnProceso
  {
  }
}
