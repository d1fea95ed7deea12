/** The offering registry: which professional offers which service, at what
    price, and whether the offering is currently enabled. */
module Ofertas {
  import opened Comun
  import opened Tablas

  /** One row of the offering table (a professional-service pair). */
  datatype BarberoServicio = BarberoServicio(
    id: int,
    profesionalId: int,
    servicioId: int,
    precio: real,
    disponible: bool,
    notasEspeciales: Option<string>)

  predicate DelPar(b: BarberoServicio, profesionalId: int, servicioId: int) {
    b.profesionalId == profesionalId && b.servicioId == servicioId
  }

  /** findByProfesionalIdAndServicioId: the offering of the pair, if the scan has one. */
  function FindByProfesionalIdAndServicioId(filas: seq<BarberoServicio>, profesionalId: int, servicioId: int)
    : (r: Option<BarberoServicio>)
    ensures r.Some? ==> r.value in filas && DelPar(r.value, profesionalId, servicioId)
    ensures r.None? <==> forall b | b in filas :: !DelPar(b, profesionalId, servicioId)
  {
    if filas == [] then None
    else if DelPar(filas[0], profesionalId, servicioId) then Some(filas[0])
    else
      assert filas == [filas[0]] + filas[1..];
      FindByProfesionalIdAndServicioId(filas[1..], profesionalId, servicioId)
  }

  /** existsByProfesionalIdAndServicioId. */
  function ExistsByProfesionalIdAndServicioId(filas: seq<BarberoServicio>, profesionalId: int, servicioId: int)
    : (b: bool)
    ensures !b <==> forall x | x in filas :: !DelPar(x, profesionalId, servicioId)
  {
    FindByProfesionalIdAndServicioId(filas, profesionalId, servicioId).Some?
  }

  /** No two offerings of the table are for the same pair (the table's unique
      constraint on profesional_id and servicio_id). */
  ghost predicate ParesUnicos(m: map<int, BarberoServicio>) {
    forall i, j | i in m && j in m && i != j ::
      !DelPar(m[j], m[i].profesionalId, m[i].servicioId)
  }

  /** In a table without duplicate pairs, the lookup of a pair finds the one
      offering stored for it. */
  lemma BuscarEnTablaUnica(m: map<int, BarberoServicio>, n: nat, k: int)
    requires ParesUnicos(m) && 0 <= k < n && k in m
    ensures FindByProfesionalIdAndServicioId(Filas(m, n), m[k].profesionalId, m[k].servicioId) == Some(m[k])
  {
    FilaEnFilas(m, n, k);
    var r := FindByProfesionalIdAndServicioId(Filas(m, n), m[k].profesionalId, m[k].servicioId);
    var b := r.value;
    DeFilas(m, n, b);
    var j :| 0 <= j < n && j in m && m[j] == b;
    assert j == k;
  }

  /** The offering service over its table. */
  class BarberoServicioService {
    var ofertas: map<int, BarberoServicio>
    var siguienteId: nat

    ghost predicate Valid()
      reads this
    {
      1 <= siguienteId &&
      (forall k | k in ofertas :: 1 <= k < siguienteId && ofertas[k].id == k) &&
      ParesUnicos(ofertas)
    }

    /** The table as a repository scan sees it. */
    function Tabla(): seq<BarberoServicio>
      reads this
    {
      Filas(ofertas, siguienteId)
    }

    constructor()
      ensures Valid() && ofertas == map[] && siguienteId == 1
    {
      ofertas := map[];
      siguienteId := 1;
    }

    /** crear: professional, then service, must exist; the pair must be new. The
        new offering is enabled, with the given price and notes. */
    method Crear(profesionalId: int, servicioId: int, precio: real, notas: Option<string>,
                 profesionales: set<int>, servicios: set<int>) returns (r: Result<BarberoServicio>)
      requires Valid()
      modifies this
      ensures Valid()
      ensures profesionalId !in profesionales ==> r == Err(NotFound("Profesional", profesionalId))
      ensures profesionalId in profesionales && servicioId !in servicios ==>
                r == Err(NotFound("Servicio", servicioId))
      ensures profesionalId in profesionales && servicioId in servicios &&
              ExistsByProfesionalIdAndServicioId(old(Tabla()), profesionalId, servicioId) ==>
                r == Err(Conflict(ServicioYaOfrecido))
      ensures r.Err? ==> ofertas == old(ofertas) && siguienteId == old(siguienteId)
      ensures r.Ok? ==>
                profesionalId in profesionales && servicioId in servicios &&
                !ExistsByProfesionalIdAndServicioId(old(Tabla()), profesionalId, servicioId) &&
                r.value == BarberoServicio(old(siguienteId), profesionalId, servicioId, precio, true, notas) &&
                ofertas == old(ofertas)[old(siguienteId) := r.value] &&
                siguienteId == old(siguienteId) + 1 &&
                Tabla() == old(Tabla()) + [r.value]
    {
      if profesionalId !in profesionales {
        return Err(NotFound("Profesional", profesionalId));
      }
      if servicioId !in servicios {
        return Err(NotFound("Servicio", servicioId));
      }
      if ExistsByProfesionalIdAndServicioId(Tabla(), profesionalId, servicioId) {
        return Err(Conflict(ServicioYaOfrecido));
      }
      var id := siguienteId;
      var b := BarberoServicio(id, profesionalId, servicioId, precio, true, notas);
      forall k | k in ofertas ensures !DelPar(ofertas[k], profesionalId, servicioId) {
        FilaEnFilas(ofertas, siguienteId, k);
      }
      FilasInsertar(ofertas, id, b);
      ofertas := ofertas[id := b];
      siguienteId := id + 1;
      r := Ok(b);
    }

    /** actualizarPrecio: replaces the price and the notes (the notes even when
        absent) and nothing else. */
    method ActualizarPrecio(id: int, precio: real, notas: Option<string>) returns (r: Result<BarberoServicio>)
      requires Valid()
      modifies this
      ensures Valid() && siguienteId == old(siguienteId)
      ensures id !in old(ofertas) ==> r == Err(NotFound("BarberoServicio", id)) && ofertas == old(ofertas)
      ensures id in old(ofertas) ==>
                r == Ok(old(ofertas)[id].(precio := precio, notasEspeciales := notas)) &&
                ofertas == old(ofertas)[id := r.value]
    {
      if id !in ofertas {
        return Err(NotFound("BarberoServicio", id));
      }
      var b := ofertas[id].(precio := precio, notasEspeciales := notas);
      ofertas := ofertas[id := b];
      r := Ok(b);
    }

    /** cambiarDisponibilidad: sets the flag and nothing else. */
    method CambiarDisponibilidad(id: int, disponible: bool) returns (err: Option<Error>)
      requires Valid()
      modifies this
      ensures Valid() && siguienteId == old(siguienteId)
      ensures id !in old(ofertas) ==> err == Some(NotFound("BarberoServicio", id)) && ofertas == old(ofertas)
      ensures id in old(ofertas) ==>
                err == None && ofertas == old(ofertas)[id := old(ofertas)[id].(disponible := disponible)]
    {
      if id !in ofertas {
        return Some(NotFound("BarberoServicio", id));
      }
      ofertas := ofertas[id := ofertas[id].(disponible := disponible)];
      err := None;
    }

    /** eliminar: removes an existing offering. */
    method Eliminar(id: int) returns (err: Option<Error>)
      requires Valid()
      modifies this
      ensures Valid() && siguienteId == old(siguienteId)
      ensures id !in old(ofertas) ==> err == Some(NotFound("BarberoServicio", id)) && ofertas == old(ofertas)
      ensures id in old(ofertas) ==> err == None && ofertas == old(ofertas) - {id}
    {
      if id !in ofertas {
        return Some(NotFound("BarberoServicio", id));
      }
      ofertas := ofertas - {id};
      err := None;
    }
  }
}
