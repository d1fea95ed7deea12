/** Sequences of service calls whose combined outcome follows from the
    operations' contracts alone. */
module Escenarios {
  import opened Comun
  import opened Citas
  import opened Ofertas
  import opened CitaServicio
  import opened Productos
  import opened Profesionales
  import opened ProfesionalServicio

  /** A pending or confirmed appointment can be cancelled once; the second
      attempt finds it cancelled and is refused without changing anything. */
  method CancelarDosVeces(servicio: CitaService, id: int) returns (primero: Option<Error>, segundo: Option<Error>)
    requires servicio.Valid() && id in servicio.citas && PuedeSerModificada(servicio.citas[id])
    modifies servicio
    ensures primero == None && segundo == Some(BadRequest(CitaNoCancelable))
    ensures servicio.citas == old(servicio.citas)[id := old(servicio.citas)[id].(estado := Cancelada)]
  {
    primero := servicio.Cancelar(id);
    segundo := servicio.Cancelar(id);
  }

  /** An appointment keeps the price it was booked at when the offering's price
      changes afterwards. */
  method PrecioFijadoAlReservar(citas: CitaService, ofertas: BarberoServicioService, ofertaId: int,
                                usuarioId: int, fechaHora: int, ahora: int, nuevoPrecio: real,
                                usuarios: set<int>, servicios: set<int>, profesionales: set<int>)
    returns (reserva: Result<Cita>, precioReservado: real)
    requires citas.Valid() && ofertas.Valid() && ofertaId in ofertas.ofertas
    modifies citas, ofertas
    ensures reserva.Ok? ==>
              reserva.value.id in citas.citas && citas.citas[reserva.value.id].precioFinal == precioReservado &&
              ofertaId in ofertas.ofertas && ofertas.ofertas[ofertaId].precio == nuevoPrecio
  {
    var oferta := ofertas.ofertas[ofertaId];
    reserva := citas.Crear(usuarioId, oferta.servicioId, oferta.profesionalId, fechaHora, None, ahora,
                           usuarios, servicios, profesionales, ofertas.Tabla());
    if reserva.Err? {
      return reserva, 0.0;
    }
    precioReservado := reserva.value.precioFinal;
    var _ := ofertas.ActualizarPrecio(ofertaId, nuevoPrecio, oferta.notasEspeciales);
  }

  /** Taking units out of stock and putting them back restores the count, and
      the product is available again whenever units remain. */
  method ReducirYDevolver(p: Producto, cantidad: int) returns (err: Option<Error>)
    requires 0 <= cantidad && 0 <= p.stock
    modifies p
    ensures err.None? <==> cantidad <= old(p.stock)
    ensures p.stock == old(p.stock)
    ensures err.None? && p.stock > 0 ==> p.disponible
  {
    err := p.ReducirStock(cantidad);
    if err.None? {
      p.AumentarStock(cantidad);
    }
  }

  /** Recomputing a professional's average from the same scores twice leaves
      the same value as doing it once. */
  method RecalcularDosVeces(p: Profesional, calificaciones: seq<int>) returns (primero: real, segundo: real)
    modifies p
    ensures primero == segundo == Promedio(calificaciones)
  {
    p.ActualizarCalificacionPromedio(calificaciones);
    primero := p.calificacionPromedio;
    p.ActualizarCalificacionPromedio(calificaciones);
    segundo := p.calificacionPromedio;
  }

  /** Deactivating a profile twice succeeds both times and leaves it inactive
      with the same average. */
  method DesactivarDosVeces(servicio: ProfesionalService, id: int) returns (primero: Option<Error>, segundo: Option<Error>)
    requires servicio.Valid() && id in servicio.profesionales
    modifies servicio.Perfil(id)
    ensures primero == None && segundo == None
    ensures !servicio.profesionales[id].activo
    ensures servicio.profesionales[id].calificacionPromedio == old(servicio.profesionales[id].calificacionPromedio)
  {
    primero := servicio.Desactivar(id);
    segundo := servicio.Desactivar(id);
  }
}
