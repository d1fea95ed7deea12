/** The professional-profile service: one profile per user, profile edits,
    the rating recompute, activation and deletion. */
module ProfesionalServicio {
  import opened Comun
  import opened Profesionales
  import Valoraciones

  /** The role granted to a user when a profile is created for them. */
  const RolProfesional: string := "ROLE_PROFESIONAL"

  /** The user table as far as profiles need it: which users exist and the
      set of roles each one holds. */
  class Usuarios {
    var roles: map<int, set<string>>

    constructor(roles: map<int, set<string>>)
      ensures this.roles == roles
    {
      this.roles := roles;
    }

    /** agregarRol followed by the save of the user. */
    method AgregarRol(usuarioId: int, rol: string)
      requires usuarioId in roles
      modifies this
      ensures roles == old(roles)[usuarioId := old(roles)[usuarioId] + {rol}]
    {
      roles := roles[usuarioId := roles[usuarioId] + {rol}];
    }
  }

  class ProfesionalService {
    var profesionales: map<int, Profesional>
    var siguienteId: nat
    const usuarios: Usuarios

    /** Ids are key-consistent and below the next id, and no user has two
        profiles (which also makes the profile objects pairwise distinct). */
    ghost predicate Valid()
      reads this
    {
      1 <= siguienteId &&
      (forall k | k in profesionales :: 1 <= k < siguienteId && profesionales[k].id == k) &&
      (forall i, j | i in profesionales && j in profesionales && i != j ::
         profesionales[i].usuarioId != profesionales[j].usuarioId)
    }

    /** existsByUsuarioId: some stored profile belongs to the user. */
    function ExistsByUsuarioId(usuarioId: int): (b: bool)
      reads this
      ensures !b <==> forall k | k in profesionales :: profesionales[k].usuarioId != usuarioId
    {
      exists k | k in profesionales :: profesionales[k].usuarioId == usuarioId
    }

    /** The profile object stored under id, as a frame. */
    function Perfil(id: int): set<object>
      reads this
    {
      if id in profesionales then {profesionales[id]} else {}
    }

    constructor(usuarios: Usuarios)
      ensures Valid() && profesionales == map[] && siguienteId == 1 && this.usuarios == usuarios
    {
      profesionales := map[];
      siguienteId := 1;
      this.usuarios := usuarios;
    }

    /** crear: the user must exist and must not have a profile yet. The new
        profile is active with an average of 0, and the user gains the
        professional role. */
    method Crear(usuarioId: int, especialidad: string, horarioDisponible: Option<string>,
                 biografia: Option<string>) returns (r: Result<Profesional>)
      requires Valid()
      modifies this, usuarios
      ensures Valid()
      ensures usuarioId !in old(usuarios.roles) ==> r == Err(NotFound("Usuario", usuarioId))
      ensures usuarioId in old(usuarios.roles) && old(ExistsByUsuarioId(usuarioId)) ==>
                r == Err(Conflict(PerfilDuplicado))
      ensures r.Err? ==> profesionales == old(profesionales) && siguienteId == old(siguienteId) &&
                         usuarios.roles == old(usuarios.roles)
      ensures r.Ok? ==>
                usuarioId in old(usuarios.roles) && !old(ExistsByUsuarioId(usuarioId)) &&
                fresh(r.value) && r.value.id == old(siguienteId) && r.value.usuarioId == usuarioId &&
                r.value.especialidad == especialidad && r.value.horarioDisponible == horarioDisponible &&
                r.value.biografia == biografia && r.value.fotoPerfil == None &&
                r.value.activo && r.value.calificacionPromedio == 0.0 &&
                profesionales == old(profesionales)[old(siguienteId) := r.value] &&
                siguienteId == old(siguienteId) + 1 &&
                usuarios.roles == old(usuarios.roles)[usuarioId := old(usuarios.roles)[usuarioId] + {RolProfesional}]
    {
      if usuarioId !in usuarios.roles {
        return Err(NotFound("Usuario", usuarioId));
      }
      if ExistsByUsuarioId(usuarioId) {
        return Err(Conflict(PerfilDuplicado));
      }
      var p := new Profesional(siguienteId, usuarioId, especialidad, horarioDisponible, biografia);
      usuarios.AgregarRol(usuarioId, RolProfesional);
      profesionales := profesionales[siguienteId := p];
      siguienteId := siguienteId + 1;
      r := Ok(p);
    }

    /** actualizar: sets the speciality, the schedule and the biography, and the
        photo only when one is given. */
    method Actualizar(id: int, especialidad: string, horarioDisponible: Option<string>,
                      biografia: Option<string>, fotoPerfil: Option<string>) returns (err: Option<Error>)
      requires Valid()
      modifies Perfil(id)
      ensures id !in profesionales ==> err == Some(NotFound("Profesional", id))
      ensures id in profesionales ==>
                var p := profesionales[id];
                err == None &&
                p.especialidad == especialidad && p.horarioDisponible == horarioDisponible &&
                p.biografia == biografia &&
                p.fotoPerfil == (if fotoPerfil.Some? then fotoPerfil else old(p.fotoPerfil)) &&
                p.activo == old(p.activo) && p.calificacionPromedio == old(p.calificacionPromedio)
    {
      if id !in profesionales {
        return Some(NotFound("Profesional", id));
      }
      var p := profesionales[id];
      p.especialidad := especialidad;
      p.horarioDisponible := horarioDisponible;
      p.biografia := biografia;
      if fotoPerfil.Some? {
        p.fotoPerfil := fotoPerfil;
      }
      err := None;
    }

    /** actualizarCalificacion: recomputes the average of the profile from the
        scores of its reviews, that is, of the rows of the review table that
        name this profile. */
    method ActualizarCalificacion(id: int, filas: seq<Valoraciones.Valoracion>) returns (err: Option<Error>)
      requires Valid()
      modifies Perfil(id)
      ensures id !in profesionales ==> err == Some(NotFound("Profesional", id))
      ensures id in profesionales ==>
                var p := profesionales[id];
                err == None && p.calificacionPromedio == Promedio(Valoraciones.CalificacionesDe(filas, id)) &&
                p.Datos() == old(p.Datos())
    {
      if id !in profesionales {
        return Some(NotFound("Profesional", id));
      }
      profesionales[id].ActualizarCalificacionPromedio(Valoraciones.CalificacionesDe(filas, id));
      err := None;
    }

    /** desactivar / activar: set the flag and nothing else. */
    method CambiarActivo(id: int, activo: bool) returns (err: Option<Error>)
      requires Valid()
      modifies Perfil(id)
      ensures id !in profesionales ==> err == Some(NotFound("Profesional", id))
      ensures id in profesionales ==>
                var p := profesionales[id];
                err == None && p.activo == activo &&
                p.especialidad == old(p.especialidad) && p.horarioDisponible == old(p.horarioDisponible) &&
                p.biografia == old(p.biografia) && p.fotoPerfil == old(p.fotoPerfil) &&
                p.calificacionPromedio == old(p.calificacionPromedio)
    {
      if id !in profesionales {
        return Some(NotFound("Profesional", id));
      }
      profesionales[id].activo := activo;
      err := None;
    }

    method Desactivar(id: int) returns (err: Option<Error>)
      requires Valid()
      modifies Perfil(id)
      ensures id !in profesionales ==> err == Some(NotFound("Profesional", id))
      ensures id in profesionales ==>
                var p := profesionales[id];
                err == None && !p.activo &&
                p.especialidad == old(p.especialidad) && p.horarioDisponible == old(p.horarioDisponible) &&
                p.biografia == old(p.biografia) && p.fotoPerfil == old(p.fotoPerfil) &&
                p.calificacionPromedio == old(p.calificacionPromedio)
    {
      err := CambiarActivo(id, false);
    }

    method Activar(id: int) returns (err: Option<Error>)
      requires Valid()
      modifies Perfil(id)
      ensures id !in profesionales ==> err == Some(NotFound("Profesional", id))
      ensures id in profesionales ==>
                var p := profesionales[id];
                err == None && p.activo &&
                p.especialidad == old(p.especialidad) && p.horarioDisponible == old(p.horarioDisponible) &&
                p.biografia == old(p.biografia) && p.fotoPerfil == old(p.fotoPerfil) &&
                p.calificacionPromedio == old(p.calificacionPromedio)
    {
      err := CambiarActivo(id, true);
    }

    /** eliminar: removes an existing profile. */
    method Eliminar(id: int) returns (err: Option<Error>)
      requires Valid()
      modifies this
      ensures Valid() && siguienteId == old(siguienteId)
      ensures id !in old(profesionales) ==> err == Some(NotFound("Profesional", id)) && profesionales == old(profesionales)
      ensures id in old(profesionales) ==> err == None && profesionales == old(profesionales) - {id}
    {
      if id !in profesionales {
        return Some(NotFound("Profesional", id));
      }
      profesionales := profesionales - {id};
      err := None;
    }
  }
}
