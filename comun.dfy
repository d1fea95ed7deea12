/** Values shared by every part of the model: optional values, the results of
    service operations, and the exceptions the services throw. */
module Comun {

  /** A nullable reference (a Java field or parameter that may be null). */
  datatype Option<+T> = None | Some(value: T)

  /** Why a BadRequestException, ConflictException, IllegalArgumentException or
      IllegalStateException was thrown; one value per distinct message. */
  datatype Motivo =
    | NoOfreceServicio        // "El profesional no ofrece este servicio"
    | ServicioNoDisponible    // "El servicio no está disponible con este profesional"
    | HorarioOcupado          // "El profesional ya tiene una cita programada en ese horario"
    | CitaNoModificable       // "La cita no puede ser modificada en su estado actual"
    | CitaNoCancelable        // "La cita no puede ser cancelada en su estado actual"
    | ValoracionDuplicada     // "Ya existe una valoración para esta cita"
    | SoloCitasCompletadas    // "Solo se pueden valorar citas completadas"
    | PerfilDuplicado         // "Ya existe un perfil profesional para este usuario"
    | ServicioYaOfrecido      // "El profesional ya ofrece este servicio"
    | CalificacionFueraDeRango
    | StockInsuficiente

  /** The exceptions of the services. NotFound carries the entity name and the
      key, as ResourceNotFoundException(entity, "id", key) does. */
  datatype Error =
    | NotFound(entidad: string, id: int)
    | BadRequest(motivo: Motivo)
    | Conflict(motivo: Motivo)
    | IllegalArgument(motivo: Motivo)
    | IllegalState(motivo: Motivo)

  /** The outcome of an operation that either returns a value or throws. */
  datatype Result<+T> = Ok(value: T) | Err(error: Error)
}
