/** The appointment repository's queries, read as filters, sorts and counts
    over a scan of the appointment table. */
module CitaConsultas {
  import opened Tablas
  import opened Citas

  // ---------------------------------------------------------------------------
  // Derived finders

  function FindByUsuarioId(filas: seq<Cita>, usuarioId: int): (r: seq<Cita>)
    ensures forall c :: c in r <==> c in filas && c.usuarioId == usuarioId
    ensures forall c :: multiset(r)[c] == if c.usuarioId == usuarioId then multiset(filas)[c] else 0
  {
    Filtrar(filas, (c: Cita) => c.usuarioId == usuarioId)
  }

  function FindByProfesionalId(filas: seq<Cita>, profesionalId: int): (r: seq<Cita>)
    ensures forall c :: c in r <==> c in filas && c.profesionalId == profesionalId
    ensures forall c :: multiset(r)[c] == if c.profesionalId == profesionalId then multiset(filas)[c] else 0
  {
    Filtrar(filas, (c: Cita) => c.profesionalId == profesionalId)
  }

  function FindByEstado(filas: seq<Cita>, estado: EstadoCita): (r: seq<Cita>)
    ensures forall c :: c in r <==> c in filas && c.estado == estado
    ensures forall c :: multiset(r)[c] == if c.estado == estado then multiset(filas)[c] else 0
  {
    Filtrar(filas, (c: Cita) => c.estado == estado)
  }

  function FindByUsuarioIdAndEstado(filas: seq<Cita>, usuarioId: int, estado: EstadoCita): (r: seq<Cita>)
    ensures forall c :: c in r <==> c in filas && c.usuarioId == usuarioId && c.estado == estado
    ensures forall c :: multiset(r)[c] ==
              if c.usuarioId == usuarioId && c.estado == estado then multiset(filas)[c] else 0
  {
    Filtrar(filas, (c: Cita) => c.usuarioId == usuarioId && c.estado == estado)
  }

  function FindByProfesionalIdAndEstado(filas: seq<Cita>, profesionalId: int, estado: EstadoCita): (r: seq<Cita>)
    ensures forall c :: c in r <==> c in filas && c.profesionalId == profesionalId && c.estado == estado
    ensures forall c :: multiset(r)[c] ==
              if c.profesionalId == profesionalId && c.estado == estado then multiset(filas)[c] else 0
  {
    Filtrar(filas, (c: Cita) => c.profesionalId == profesionalId && c.estado == estado)
  }

  // ---------------------------------------------------------------------------
  // Active appointments of a professional in a time window

  /** The literal state list of the query's IN clause. */
  predicate EnListaActiva(e: EstadoCita) {
    e == Pendiente || e == Confirmada || e == EnProceso
  }

  /** The appointments of the professional in the closed interval [inicio, fin]
      whose state is in the query's IN list. */
  function FindCitasActivasByProfesionalAndFecha(filas: seq<Cita>, profesionalId: int, inicio: int, fin: int)
    : (r: seq<Cita>)
    ensures forall c :: c in r <==>
              c in filas && c.profesionalId == profesionalId && inicio <= c.fechaHora <= fin && EstaActiva(c)
    ensures forall c :: multiset(r)[c] ==
              if c.profesionalId == profesionalId && inicio <= c.fechaHora <= fin && EnListaActiva(c.estado)
              then multiset(filas)[c] else 0
  {
    Filtrar(filas, (c: Cita) =>
      c.profesionalId == profesionalId && inicio <= c.fechaHora <= fin && EnListaActiva(c.estado))
  }

  /** The IN list of the query selects exactly the appointments that
      Cita.estaActiva calls active, so the query is the same filter with
      EstaActiva in its place. */
  lemma ListaActivaEsEstaActiva(filas: seq<Cita>, profesionalId: int, inicio: int, fin: int)
    ensures forall c: Cita :: EnListaActiva(c.estado) <==> EstaActiva(c)
    ensures FindCitasActivasByProfesionalAndFecha(filas, profesionalId, inicio, fin) ==
      Filtrar(filas, (c: Cita) => c.profesionalId == profesionalId && inicio <= c.fechaHora <= fin && EstaActiva(c))
  {
    FiltrarExtensional(filas,
      (c: Cita) => c.profesionalId == profesionalId && inicio <= c.fechaHora <= fin && EnListaActiva(c.estado),
      (c: Cita) => c.profesionalId == profesionalId && inicio <= c.fechaHora <= fin && EstaActiva(c));
  }

  // ---------------------------------------------------------------------------
  // Upcoming appointments and history

  /** ORDER BY fechaHora ASC. */
  predicate AntesEnFecha(a: Cita, b: Cita) {
    a.fechaHora <= b.fechaHora
  }

  /** ORDER BY fechaCompletada DESC; a row without a completion stamp sorts last. */
  predicate MasRecienteCompletada(a: Cita, b: Cita) {
    match (a.fechaCompletada, b.fechaCompletada)
    case (Some(x), Some(y)) => x >= y
    case (Some(_), None) => true
    case (None, Some(_)) => false
    case (None, None) => true
  }

  lemma AntesEnFechaEsOrden()
    ensures Total(AntesEnFecha) && Transitiva(AntesEnFecha)
  {
  }

  lemma MasRecienteCompletadaEsOrden()
    ensures Total(MasRecienteCompletada) && Transitiva(MasRecienteCompletada)
  {
  }

  /** A customer's appointments from fechaActual on, earliest first. */
  function FindProximasCitasByUsuario(filas: seq<Cita>, usuarioId: int, fechaActual: int): (r: seq<Cita>)
    ensures forall c :: multiset(r)[c] ==
              if c.usuarioId == usuarioId && c.fechaHora >= fechaActual then multiset(filas)[c] else 0
    ensures forall c :: c in r <==> c in filas && c.usuarioId == usuarioId && c.fechaHora >= fechaActual
    ensures forall i, j | 0 <= i < j < |r| :: r[i].fechaHora <= r[j].fechaHora
  {
    var s := Filtrar(filas, (c: Cita) => c.usuarioId == usuarioId && c.fechaHora >= fechaActual);
    AntesEnFechaEsOrden();
    OrdenarOrdena(s, AntesEnFecha);
    Ordenar(s, AntesEnFecha)
  }

  /** A professional's appointments from fechaActual on, earliest first. */
  function FindProximasCitasByProfesional(filas: seq<Cita>, profesionalId: int, fechaActual: int)
    : (r: seq<Cita>)
    ensures forall c :: multiset(r)[c] ==
              if c.profesionalId == profesionalId && c.fechaHora >= fechaActual then multiset(filas)[c] else 0
    ensures forall c :: c in r <==> c in filas && c.profesionalId == profesionalId && c.fechaHora >= fechaActual
    ensures forall i, j | 0 <= i < j < |r| :: r[i].fechaHora <= r[j].fechaHora
  {
    var s := Filtrar(filas, (c: Cita) => c.profesionalId == profesionalId && c.fechaHora >= fechaActual);
    AntesEnFechaEsOrden();
    OrdenarOrdena(s, AntesEnFecha);
    Ordenar(s, AntesEnFecha)
  }

  /** A customer's completed appointments, most recently completed first. */
  function FindHistorialByUsuario(filas: seq<Cita>, usuarioId: int): (r: seq<Cita>)
    ensures forall c :: multiset(r)[c] ==
              if c.usuarioId == usuarioId && c.estado == Completada then multiset(filas)[c] else 0
    ensures forall c :: c in r <==> c in filas && c.usuarioId == usuarioId && c.estado == Completada
    ensures forall i, j | 0 <= i < j < |r| :: MasRecienteCompletada(r[i], r[j])
  {
    var s := Filtrar(filas, (c: Cita) => c.usuarioId == usuarioId && c.estado == Completada);
    MasRecienteCompletadaEsOrden();
    OrdenarOrdena(s, MasRecienteCompletada);
    Ordenar(s, MasRecienteCompletada)
  }

  // ---------------------------------------------------------------------------
  // Counts

  /** SELECT COUNT(c) ... WHERE c.estado = :estado: the length of the state
      filter. */
  function ContarPorEstado(filas: seq<Cita>, estado: EstadoCita): (n: nat)
    ensures n == |FindByEstado(filas, estado)|
  {
    if filas == [] then 0
    else
      var uno := if filas[0].estado == estado then 1 else 0;
      uno + ContarPorEstado(filas[1..], estado)
  }

  /** SELECT COUNT(c) ... WHERE profesional = :profesionalId AND estado = 'COMPLETADA':
      the length of the matching filter. */
  function ContarCitasCompletadasByProfesional(filas: seq<Cita>, profesionalId: int): (n: nat)
    ensures n == |FindByProfesionalIdAndEstado(filas, profesionalId, Completada)|
  {
    if filas == [] then 0
    else
      var uno := if filas[0].profesionalId == profesionalId && filas[0].estado == Completada then 1 else 0;
      uno + ContarCitasCompletadasByProfesional(filas[1..], profesionalId)
  }
}
