# Barbershop booking service: a verified model of its core

The system is a booking back end for a barbershop. Customers book appointments
(citas) with a professional (profesional) for a service (servicio). A
professional offers a service through an offering (barbero-servicio) that
carries its own price and an enabled flag. Customers rate professionals with
reviews (valoraciones), and each professional keeps the average of their
scores. The shop also sells products with a stock counter. Request bodies are
checked by length and pattern rules before they reach the services.

The model covers these rules:

- **Appointment lifecycle.** Booking resolves the customer, the service, the
  professional and the offering, in that order. It refuses a disabled
  offering, and it refuses a slot within one hour of another active
  appointment of the same professional. Rescheduling and cancelling are
  allowed only from pending or confirmed. The status setter accepts any target
  state.
- **Appointment queries.** The repository queries are filters and sorts over a
  scan of the table.
- **Reviews.** A review is checked for its professional, its user and its
  appointment. Its score must be in 1 to 5. Every create, update or delete
  recomputes the professional's average.
- **Offerings and profiles.** There is at most one offering per
  (professional, service) pair. There is at most one professional profile per
  user, and creating one grants the user the professional role.
- **Products.** Stock is increased or decreased by amount and sign, and
  availability is coupled to stock.
- **Request validators.** These cover durations, phone numbers, names, email
  length and password strength.

Layout, one module per file:

- `comun.dfy` (Comun) has optional values, results and the service exceptions.
- `tablas.dfy` (Tablas) models an id-keyed table as a `map<int, V>` read back
  in ascending id order (`Filas`). It also has the generic WHERE (`Filtrar`)
  and ORDER BY (`Ordenar`, an insertion sort proved to be a sorted
  permutation).
- `citas.dfy` (Citas) is the appointment entity. `cita_consultas.dfy`
  (CitaConsultas) holds its repository queries. `cita_servicio.dfy`
  (CitaServicio) is the appointment service, a class owning the appointment
  table.
- `ofertas.dfy` (Ofertas) is the offering entity, its lookups and its service.
- `profesionales.dfy` (Profesionales) is the profile class and the average it
  keeps. `profesional_servicio.dfy` (ProfesionalServicio) is the profile
  service and the users' roles.
- `valoraciones.dfy` (Valoraciones) is the review entity, the score check and
  how table writes change a professional's scores. `valoracion_servicio.dfy`
  (ValoracionServicio) is the review service.
- `productos.dfy` (Productos) is the product class and its stock rules.
  `producto_servicio.dfy` (ProductoServicio) is the product service.
- `validaciones.dfy` (Validaciones) holds the request-body constraints as
  string predicates.
- `escenarios.dfy` (Escenarios) has short call sequences whose outcome follows
  from the contracts.

Modelling conventions:

- **Time.** A `LocalDateTime` is an integer count of minutes. "Now" is a
  parameter (`ahora`).
- **Money and averages.** Prices are `real`s that are only copied. The average
  is the real quotient of sum by count.
- **Errors.** A thrown exception is an `Err` result or a `Some` error. Every
  operation that fails changes nothing, which models the transaction rolling
  back.
- **Other tables.** Tables a service only reads are parameters. These are the
  customer, service and professional ids, the offering scan, and the
  appointment table for reviews.
- **Saves.** A save under a new id uses the next free id, as an identity
  column does.

## Model

| member | source | states |
|---|---|---|
| Citas.NuevaCita | src/main/java/com/Neita/sistemacitasbarberia/entity/Cita.java:27-28 | A newly built appointment is pending, carries no completion stamp, and holds the supplied customer, service, professional, time, notes and price, stamped with the creation time. |
| Citas.PuedeSerModificada | src/main/java/com/Neita/sistemacitasbarberia/entity/Cita.java:65-68 | An appointment may be modified exactly when pending or confirmed, and a modifiable appointment is active. |
| Citas.EstaActiva | src/main/java/com/Neita/sistemacitasbarberia/entity/Cita.java:70-73 | An appointment is active exactly when pending, confirmed or in progress. |
| Citas.SeisEstados | src/main/java/com/Neita/sistemacitasbarberia/entity/Cita.java:56-63 | The lifecycle has exactly six distinct states and every state is one of them. |
| Citas.ActivaSiiEstadoVivo | src/main/java/com/Neita/sistemacitasbarberia/entity/Cita.java:71-73 | An appointment is active exactly when its state is pending, confirmed or in progress. |
| Citas.ModificableEsActiva | src/main/java/com/Neita/sistemacitasbarberia/entity/Cita.java:66-73 | An appointment is modifiable exactly when pending or confirmed; every modifiable appointment is active; the only active state that is not modifiable is in progress. |
| CitaConsultas.FindByUsuarioId | src/main/java/com/Neita/sistemacitasbarberia/repository/CitaRepository.java:16 | Returns exactly the rows of the customer, each as often as in the table. |
| CitaConsultas.FindByProfesionalId | src/main/java/com/Neita/sistemacitasbarberia/repository/CitaRepository.java:18 | Returns exactly the rows of the professional, each as often as in the table. |
| CitaConsultas.FindByEstado | src/main/java/com/Neita/sistemacitasbarberia/repository/CitaRepository.java:20 | Returns exactly the rows in the given state, each as often as in the table. |
| CitaConsultas.FindByUsuarioIdAndEstado | src/main/java/com/Neita/sistemacitasbarberia/repository/CitaRepository.java:22-24 | Returns exactly the rows of the customer in the given state, with their multiplicities. |
| CitaConsultas.FindByProfesionalIdAndEstado | src/main/java/com/Neita/sistemacitasbarberia/repository/CitaRepository.java:26-28 | Returns exactly the rows of the professional in the given state, with their multiplicities. |
| CitaConsultas.FindCitasActivasByProfesionalAndFecha | src/main/java/com/Neita/sistemacitasbarberia/repository/CitaRepository.java:30-36 | Returns exactly the appointments of the professional with time in the closed interval [inicio, fin] and state pending, confirmed or in progress, with their multiplicities. |
| CitaConsultas.ListaActivaEsEstaActiva | src/main/java/com/Neita/sistemacitasbarberia/repository/CitaRepository.java:33 | The state list of the query selects the same rows as the entity's active check. |
| CitaConsultas.AntesEnFechaEsOrden | src/main/java/com/Neita/sistemacitasbarberia/repository/CitaRepository.java:41 | Ordering by appointment time ascending is a total preorder. |
| CitaConsultas.MasRecienteCompletadaEsOrden | src/main/java/com/Neita/sistemacitasbarberia/repository/CitaRepository.java:55 | Ordering by completion time descending, rows without a stamp last, is a total preorder. |
| CitaConsultas.FindProximasCitasByUsuario | src/main/java/com/Neita/sistemacitasbarberia/repository/CitaRepository.java:38-43 | Returns a permutation of the customer's appointments at or after now, sorted by time ascending. |
| CitaConsultas.FindProximasCitasByProfesional | src/main/java/com/Neita/sistemacitasbarberia/repository/CitaRepository.java:45-50 | Returns a permutation of the professional's appointments at or after now, sorted by time ascending. |
| CitaConsultas.FindHistorialByUsuario | src/main/java/com/Neita/sistemacitasbarberia/repository/CitaRepository.java:52-56 | Returns a permutation of the customer's completed appointments, sorted by completion time descending. |
| CitaConsultas.ContarPorEstado | src/main/java/com/Neita/sistemacitasbarberia/repository/CitaRepository.java:58-59 | The count by state equals the length of the state filter. |
| CitaConsultas.ContarCitasCompletadasByProfesional | src/main/java/com/Neita/sistemacitasbarberia/repository/CitaRepository.java:61-64 | The count of a professional's completed appointments equals the length of the corresponding filter. |
| CitaServicio.ValidarDisponibilidadHorario | src/main/java/com/Neita/sistemacitasbarberia/service/CitaService.java:208-224 | Fails, with the busy-slot error only, exactly when some active appointment of the professional lies within one hour either side of the time and is not the excluded one. |
| CitaServicio.SolapanSimetrica | src/main/java/com/Neita/sistemacitasbarberia/service/CitaService.java:208-213 | Two appointments overlap regardless of the order they are compared in. |
| CitaServicio.HorarioLibreNoSolapa | src/main/java/com/Neita/sistemacitasbarberia/service/CitaService.java:208-224 | When the check passes on a scan of the whole table, the time overlaps no stored appointment other than the excluded one. |
| CitaServicio.ReemplazarSinSolapes | src/main/java/com/Neita/sistemacitasbarberia/service/CitaService.java:112-124 | Storing an appointment that overlaps no other keeps the table free of overlapping active appointments. |
| CitaServicio.ReprogramarSinSolapes | src/main/java/com/Neita/sistemacitasbarberia/service/CitaService.java:162-165 | Rescheduling to a time the check (excluding the appointment itself) passes, or keeping the time, keeps the table free of overlaps. |
| CitaServicio.ConEstado | src/main/java/com/Neita/sistemacitasbarberia/service/CitaService.java:136-144 | Sets any requested state; replaces the notes only when given; stamps completion with now exactly when the target is completed, otherwise keeps the old stamp, so a stamp is never cleared; changes nothing else. |
| CitaServicio.EstadoPermisivoRompeSinSolapes | src/main/java/com/Neita/sistemacitasbarberia/service/CitaService.java:136 | Because the setter checks no transition, reviving a cancelled appointment next to a pending one at the same time produces an overlap the booking check would have refused. |
| CitaServicio.CitaService.Crear | src/main/java/com/Neita/sistemacitasbarberia/service/CitaService.java:90-128 | Fails with NotFound for a missing customer, service, professional in that order, then BadRequest for a missing or disabled offering, then for a busy slot, storing nothing; otherwise appends one pending appointment priced at the offering, with the supplied data, and keeps the table free of overlaps. |
| CitaServicio.CitaService.ActualizarEstado | src/main/java/com/Neita/sistemacitasbarberia/service/CitaService.java:130-150 | Fails with NotFound for a missing id; otherwise replaces the appointment by the status-setter result; after a completion the stamp is now. |
| CitaServicio.CitaService.Actualizar | src/main/java/com/Neita/sistemacitasbarberia/service/CitaService.java:152-175 | NotFound, then BadRequest unless pending or confirmed, then BadRequest for a busy new time (self excluded); otherwise changes only the time (when given) and the notes (when given), and keeps the table free of overlaps. |
| CitaServicio.CitaService.Cancelar | src/main/java/com/Neita/sistemacitasbarberia/service/CitaService.java:177-191 | NotFound, then BadRequest unless pending or confirmed; otherwise the state becomes cancelled and nothing else changes. |
| CitaServicio.CitaService.Eliminar | src/main/java/com/Neita/sistemacitasbarberia/service/CitaService.java:193-202 | NotFound for an absent id; otherwise removes that appointment in any state and leaves every other one unchanged. |
| Ofertas.FindByProfesionalIdAndServicioId | src/main/java/com/Neita/sistemacitasbarberia/repository/BarberoServicioRepository.java:19 | Returns an offering of the table for the pair when there is one, and nothing exactly when none exists. |
| Ofertas.ExistsByProfesionalIdAndServicioId | src/main/java/com/Neita/sistemacitasbarberia/repository/BarberoServicioRepository.java:33 | True exactly when some offering of the table is for the pair. |
| Ofertas.BuscarEnTablaUnica | src/main/java/com/Neita/sistemacitasbarberia/entity/BarberoServicio.java:10-11 | With at most one offering per pair, the lookup returns the stored offering of that pair. |
| Ofertas.BarberoServicioService.Crear | src/main/java/com/Neita/sistemacitasbarberia/service/BarberoServicioService.java:66-92 | NotFound for a missing professional, then a missing service, then Conflict when the pair is already offered; otherwise appends an enabled offering with the supplied price and notes; the table never holds two offerings for one pair. |
| Ofertas.BarberoServicioService.ActualizarPrecio | src/main/java/com/Neita/sistemacitasbarberia/service/BarberoServicioService.java:94-107 | NotFound for a missing id; otherwise replaces only the price and the notes. |
| Ofertas.BarberoServicioService.CambiarDisponibilidad | src/main/java/com/Neita/sistemacitasbarberia/service/BarberoServicioService.java:109-119 | NotFound for a missing id; otherwise sets only the flag. |
| Ofertas.BarberoServicioService.Eliminar | src/main/java/com/Neita/sistemacitasbarberia/service/BarberoServicioService.java:121-130 | NotFound for an absent id; otherwise removes that offering only. |
| Profesionales.Promedio | src/main/java/com/Neita/sistemacitasbarberia/entity/Profesional.java:62-72 | The average is 0 with no scores, and otherwise times the number of scores equals their sum. |
| Profesionales.SumaPermutacion | src/main/java/com/Neita/sistemacitasbarberia/entity/Profesional.java:68-70 | The sum of the scores does not depend on their order. |
| Profesionales.PromedioPermutacion | src/main/java/com/Neita/sistemacitasbarberia/entity/Profesional.java:62-72 | The average does not depend on the order of the scores (the source reads them from an unordered set). |
| Profesionales.PromedioEnRango | src/main/java/com/Neita/sistemacitasbarberia/entity/Profesional.java:62-72 | A non-empty average of scores in 1..5 lies in [1, 5]. |
| Profesionales.PromedioAlAgregar | src/main/java/com/Neita/sistemacitasbarberia/entity/Profesional.java:68-71 | Adding a score x to n scores gives the average (sum + x) / (n + 1). |
| Profesionales.Profesional.constructor | src/main/java/com/Neita/sistemacitasbarberia/entity/Profesional.java:34-39 | A new profile is active, with an average of 0 and no photo. |
| Profesionales.Profesional.ActualizarCalificacionPromedio | src/main/java/com/Neita/sistemacitasbarberia/entity/Profesional.java:62-72 | Sets the average to the mean of the given scores, 0 when there are none, and changes nothing else. |
| ProfesionalServicio.Usuarios.AgregarRol | src/main/java/com/Neita/sistemacitasbarberia/service/ProfesionalService.java:111-112 | Adds the role to the user's set of roles and changes no other user. |
| ProfesionalServicio.ProfesionalService.Crear | src/main/java/com/Neita/sistemacitasbarberia/service/ProfesionalService.java:92-118 | NotFound for a missing user, then Conflict when the user already has a profile; otherwise adds a fresh active profile with average 0 and grants the user the professional role; no user ever has two profiles. |
| ProfesionalServicio.ProfesionalService.ExistsByUsuarioId | src/main/java/com/Neita/sistemacitasbarberia/service/ProfesionalService.java:97 | False exactly when no stored profile belongs to the user. |
| ProfesionalServicio.ProfesionalService.Actualizar | src/main/java/com/Neita/sistemacitasbarberia/service/ProfesionalService.java:121-139 | NotFound for a missing id; otherwise sets speciality, schedule and biography, the photo only when given, and keeps the flag and the average. |
| ProfesionalServicio.ProfesionalService.ActualizarCalificacion | src/main/java/com/Neita/sistemacitasbarberia/service/ProfesionalService.java:142-152 | NotFound for a missing id; otherwise sets the average to the mean of the scores of the reviews in the given table scan that name this profile, and keeps every other field. |
| ProfesionalServicio.ProfesionalService.Desactivar | src/main/java/com/Neita/sistemacitasbarberia/service/ProfesionalService.java:155-165 | NotFound for a missing id; otherwise the profile is inactive and every other field is kept. |
| ProfesionalServicio.ProfesionalService.Activar | src/main/java/com/Neita/sistemacitasbarberia/service/ProfesionalService.java:168-178 | NotFound for a missing id; otherwise the profile is active and every other field is kept. |
| ProfesionalServicio.ProfesionalService.Eliminar | src/main/java/com/Neita/sistemacitasbarberia/service/ProfesionalService.java:181-190 | NotFound for an absent id; otherwise removes that profile and no other profile. |
| Valoraciones.ValidarCalificacion | src/main/java/com/Neita/sistemacitasbarberia/entity/Valoracion.java:44-51 | Passes exactly for scores 1 to 5 and otherwise fails with IllegalArgument. |
| Valoraciones.BordesCalificacion | src/main/java/com/Neita/sistemacitasbarberia/entity/Valoracion.java:48 | Scores 1 and 5 are accepted; 0 and 6 are rejected. |
| Valoraciones.ExistsByCitaId | src/main/java/com/Neita/sistemacitasbarberia/repository/ValoracionRepository.java:32 | True exactly when some review of the table names the appointment. |
| Valoraciones.FindByProfesionalId | src/main/java/com/Neita/sistemacitasbarberia/repository/ValoracionRepository.java:15 | Returns exactly the reviews of the professional, with their multiplicities. |
| Valoraciones.UnaCalificacionPorValoracion | src/main/java/com/Neita/sistemacitasbarberia/entity/Profesional.java:68-71 | A professional has one score per review, so the average divides by the number of reviews. |
| Valoraciones.PromedioDeTablaEnRango | src/main/java/com/Neita/sistemacitasbarberia/entity/Profesional.java:62-72 | When every stored score is in 1..5, a professional with at least one review has an average in [1, 5]. |
| Valoraciones.CalificacionesAlInsertar | src/main/java/com/Neita/sistemacitasbarberia/service/ValoracionService.java:94-97 | Inserting a review appends its score to its professional's scores and leaves the others' scores unchanged. |
| Valoraciones.CalificacionesAlActualizar | src/main/java/com/Neita/sistemacitasbarberia/service/ValoracionService.java:110-116 | Replacing a review's score swaps that one score in its professional's scores. |
| Valoraciones.CalificacionesAlEliminar | src/main/java/com/Neita/sistemacitasbarberia/service/ValoracionService.java:126-134 | Deleting a review drops exactly its score from its professional's scores. |
| ValoracionServicio.ComprobarCita | src/main/java/com/Neita/sistemacitasbarberia/service/ValoracionService.java:72-84 | Without an appointment no check runs; with one: NotFound, then Conflict when already reviewed, then BadRequest unless completed. |
| ValoracionServicio.ValoracionService.PromedioAcotado | src/main/java/com/Neita/sistemacitasbarberia/entity/Profesional.java:62-72 | In a valid review table every professional's average lies in [1, 5] or is 0. |
| ValoracionServicio.ValoracionService.Crear | src/main/java/com/Neita/sistemacitasbarberia/service/ValoracionService.java:63-102 | NotFound for a missing professional, then user, then the appointment checks, then IllegalArgument for a score outside 1..5, storing nothing and keeping the average; otherwise appends the review and the professional's average becomes the mean of its old scores plus the new one. The profile's other fields are kept in every case. |
| ValoracionServicio.ValoracionService.Actualizar | src/main/java/com/Neita/sistemacitasbarberia/service/ValoracionService.java:104-121 | NotFound for a missing review, then for its missing professional, then IllegalArgument for a score outside 1..5, changing no review and no average; otherwise replaces only score and comment (professional and appointment kept) and recomputes that professional's average, with the old score swapped for the new one. The profile's other fields are kept in every case. |
| ValoracionServicio.ValoracionService.Eliminar | src/main/java/com/Neita/sistemacitasbarberia/service/ValoracionService.java:123-137 | NotFound for a missing review, then for its missing professional, changing nothing; otherwise removes it and recomputes its former professional's average without its score, keeping the profile's other fields. |
| Productos.TrasReducir | src/main/java/com/Neita/sistemacitasbarberia/entity/Producto.java:58-67 | With enough stock, subtracts exactly the amount and clears the flag when stock reaches 0; otherwise fails with IllegalState and changes nothing. |
| Productos.EstaDisponible | src/main/java/com/Neita/sistemacitasbarberia/entity/Producto.java:53-55 | A product is available exactly when it is enabled and one unit can be taken from its stock. |
| Productos.TrasAumentar | src/main/java/com/Neita/sistemacitasbarberia/entity/Producto.java:70-75 | Adds the amount and sets the flag when the result is positive, otherwise keeps it. |
| Productos.AgotarDesactiva | src/main/java/com/Neita/sistemacitasbarberia/entity/Producto.java:61-63 | Reducing stock to 0 makes the product unavailable. |
| Productos.StockNoNegativo | src/main/java/com/Neita/sistemacitasbarberia/entity/Producto.java:58-67 | From a non-negative stock and a non-negative amount the stock never becomes negative. |
| Productos.ReducirYAumentar | src/main/java/com/Neita/sistemacitasbarberia/entity/Producto.java:60-71 | A successful reduction by n followed by an increase by n restores the stock. |
| Productos.Producto.ReducirStock | src/main/java/com/Neita/sistemacitasbarberia/entity/Producto.java:58-67 | Updates stock and flag as the reduction rule says, or fails leaving both unchanged. |
| Productos.Producto.AumentarStock | src/main/java/com/Neita/sistemacitasbarberia/entity/Producto.java:70-75 | Updates stock and flag as the increase rule says. |
| ProductoServicio.ProductoService.Crear | src/main/java/com/Neita/sistemacitasbarberia/service/ProductoService.java:80-97 | Adds a fresh product with the supplied fields, available exactly when its initial stock is positive. |
| ProductoServicio.ProductoService.Actualizar | src/main/java/com/Neita/sistemacitasbarberia/service/ProductoService.java:100-120 | NotFound for a missing id; otherwise sets name, description, price, brand and category, the image only when given, and never stock or flag. |
| ProductoServicio.ProductoService.ActualizarStock | src/main/java/com/Neita/sistemacitasbarberia/service/ProductoService.java:123-139 | NotFound for a missing id; a non-negative amount increases stock, a negative one reduces it by its absolute value, failing when stock is insufficient; name, description, price, brand, category and image are kept. |
| ProductoServicio.ProductoService.CambiarDisponibilidad | src/main/java/com/Neita/sistemacitasbarberia/service/ProductoService.java:142-152 | NotFound for a missing id; otherwise sets the flag and keeps the stock. |
| ProductoServicio.ProductoService.Eliminar | src/main/java/com/Neita/sistemacitasbarberia/service/ProductoService.java:155-164 | NotFound for an absent id; otherwise removes that product only. |
| Validaciones.NoEnBlanco | src/main/java/com/Neita/sistemacitasbarberia/dto/ServicioDTO.java:16 | A present string is not blank exactly when some character is above U+0020; an absent one is blank. |
| Validaciones.NoEnBlancoSiiRecorteNoVacio | src/main/java/com/Neita/sistemacitasbarberia/dto/UsuarioDTO.java:20 | Not blank agrees with the string surviving String.trim() non-empty. |
| Validaciones.NombreServicioValido | src/main/java/com/Neita/sistemacitasbarberia/dto/ServicioDTO.java:16-18 | A service name is valid exactly when present, non-empty after trimming and at most 255 characters long. |
| Validaciones.NombreUsuarioValido | src/main/java/com/Neita/sistemacitasbarberia/dto/UsuarioDTO.java:20-22 | A user name is valid exactly when present, non-empty after trimming and 3 to 255 characters long. |
| Validaciones.EmailValido | src/main/java/com/Neita/sistemacitasbarberia/dto/UsuarioDTO.java:24-27 | An email is accepted exactly when present, non-empty after trimming and at most 255 characters long. |
| Validaciones.DuracionValidaSiiPatron | src/main/java/com/Neita/sistemacitasbarberia/dto/ServicioDTO.java:22-25 | The duration recogniser accepts exactly the strings split into one or more digits, optional whitespace and one of min, minutos, hora, horas. |
| Validaciones.ParticionUnica | src/main/java/com/Neita/sistemacitasbarberia/dto/ServicioDTO.java:23 | A matching split is unique, and it is the one the greedy recogniser finds. |
| Validaciones.DuracionNoEnBlanco | src/main/java/com/Neita/sistemacitasbarberia/dto/ServicioDTO.java:22-25 | On a present duration, the not-blank constraint adds nothing to the pattern. |
| Validaciones.ServicioValido | src/main/java/com/Neita/sistemacitasbarberia/dto/ServicioDTO.java:16-25 | A service body is valid exactly when its name is valid and its duration is present and matches the duration pattern. |
| Validaciones.EjemploDuracionMin | src/main/java/com/Neita/sistemacitasbarberia/dto/ServicioDTO.java:23-24 | "30 min" is accepted. |
| Validaciones.EjemploDuracionHora | src/main/java/com/Neita/sistemacitasbarberia/dto/ServicioDTO.java:23-24 | "1 hora" is accepted. |
| Validaciones.EjemploDuracionSinEspacio | src/main/java/com/Neita/sistemacitasbarberia/dto/ServicioDTO.java:23-24 | "45minutos" is accepted: the space between number and unit is optional. |
| Validaciones.EjemploDuracionVariosEspacios | src/main/java/com/Neita/sistemacitasbarberia/dto/ServicioDTO.java:23-24 | "2  horas" is accepted: several spaces may separate number and unit. |
| Validaciones.EjemplosDuracionSinDigito | src/main/java/com/Neita/sistemacitasbarberia/dto/ServicioDTO.java:23 | "min", " 30 min" and the empty string are rejected: the duration must start with a digit. |
| Validaciones.EjemploDuracionOtraUnidad | src/main/java/com/Neita/sistemacitasbarberia/dto/ServicioDTO.java:23 | "30 seg" is rejected: only min, minutos, hora and horas are units. |
| Validaciones.EjemploDuracionEspacioFinal | src/main/java/com/Neita/sistemacitasbarberia/dto/ServicioDTO.java:23 | "30 min " is rejected: the whole string must match, so no trailing space. |
| Validaciones.TelefonoValido | src/main/java/com/Neita/sistemacitasbarberia/dto/UsuarioDTO.java:29 | A phone number is valid exactly when absent or made of 7 to 20 ASCII digits. |
| Validaciones.PasswordFuerte | src/main/java/com/Neita/sistemacitasbarberia/dto/UsuarioDTO.java:52-56 | A password is strong exactly when present, 8 to 100 characters long and matching the pattern; the not-blank constraint adds nothing. |
| Validaciones.EjemplosTelefonoAceptados | src/main/java/com/Neita/sistemacitasbarberia/dto/UsuarioDTO.java:58-59 | An absent number and a seven-digit number are accepted. |
| Validaciones.EjemplosTelefonoRechazados | src/main/java/com/Neita/sistemacitasbarberia/dto/UsuarioDTO.java:58-59 | Six digits, a number with dashes and the empty string are rejected. |
| Validaciones.PasswordFuerteContiene | src/main/java/com/Neita/sistemacitasbarberia/dto/UsuarioDTO.java:52-56 | A strong password has 8 to 100 characters and contains a digit, a lower-case letter, an upper-case letter and one of @#$%^&+=. |
| Validaciones.EjemploPasswordAceptado | src/main/java/com/Neita/sistemacitasbarberia/dto/UsuarioDTO.java:52-56 | A password with all four classes and eight characters is accepted. |
| Validaciones.EjemplosPasswordRechazados | src/main/java/com/Neita/sistemacitasbarberia/dto/UsuarioDTO.java:52-56 | Passwords missing an upper-case letter, shorter than eight, or holding a line terminator are rejected, as is an absent one. |
| Validaciones.MismaReglaDePassword | src/main/java/com/Neita/sistemacitasbarberia/dto/UsuarioDTO.java:85-89 | Registration and password change accept the same new passwords. |
| Validaciones.RegistroValido | src/main/java/com/Neita/sistemacitasbarberia/dto/UsuarioDTO.java:42-60 | A registration is valid exactly when name, email and password are present, the name trims to non-empty and has 3 to 255 characters, the email trims to non-empty (no length limit; the @Email syntax is not modelled), the password has 8 to 100 characters and matches the pattern, and the phone is absent or 7 to 20 digits. |
| Validaciones.ActualizarPerfilValido | src/main/java/com/Neita/sistemacitasbarberia/dto/UsuarioDTO.java:66-74 | A profile update is valid exactly when the name is present, trims to non-empty and has 3 to 255 characters, and the phone is absent or 7 to 20 digits. |
| Validaciones.CambioPasswordValido | src/main/java/com/Neita/sistemacitasbarberia/dto/UsuarioDTO.java:80-90 | A password change is valid exactly when the current password is present and trims to non-empty, and the new one is present, 8 to 100 characters long and matches the pattern. |
| Escenarios.CancelarDosVeces | src/main/java/com/Neita/sistemacitasbarberia/service/CitaService.java:183-187 | Cancelling a pending or confirmed appointment succeeds once and the second attempt fails with the not-cancellable error. |
| Escenarios.PrecioFijadoAlReservar | src/main/java/com/Neita/sistemacitasbarberia/service/BarberoServicioService.java:100-101 | After booking, changing the offering's price leaves the booked appointment's price as it was. |
| Escenarios.ReducirYDevolver | src/main/java/com/Neita/sistemacitasbarberia/entity/Producto.java:58-75 | Taking n units out of a stock of at least n and putting them back restores the stock, and a positive stock is available. |
| Escenarios.RecalcularDosVeces | src/main/java/com/Neita/sistemacitasbarberia/entity/Profesional.java:62-72 | Recomputing the average twice on the same scores gives the same value. |
| Escenarios.DesactivarDosVeces | src/main/java/com/Neita/sistemacitasbarberia/service/ProfesionalService.java:155-165 | Deactivating twice succeeds both times and leaves the profile inactive with its average kept. |

## Left out

- **Controllers, views, security and JWT.** The HTTP controllers, the views,
  security, JWT and the password encoder are not part of this model. Neither
  are the user, service and gallery services. These are plumbing and foreign
  library calls.
- **DTO conversion, logging and caching.** DTO conversion (ModelMapper),
  logging and the cache annotations do not change behaviour, so they are not
  modelled.
- **Concurrency.** Transactions and concurrent bookings are not modelled.
  Every operation is one atomic step, so the race between two simultaneous
  bookings of one slot is not captured.
- **Clock and the future-date check.** The clock is a parameter. The `@Future`
  check on the booking request is not modelled.
- **Sub-minute times.** Times are whole minutes, so the seconds of a
  `LocalDateTime` are lost at the inclusive ±60-minute window of the
  availability query. For example, 10:00:00 and 11:00:30 do not clash in the
  source but clash at minute precision.
- **JPA mechanics.** Cascades, orphan removal and lazy loading are not
  modelled. Deleting a professional does not delete their appointments,
  offerings or reviews. Those rows keep a dangling id, and the review service
  then reports the professional as not found. So the `NotFound("Profesional")`
  branches of `ValoracionService.Actualizar` and `ValoracionService.Eliminar`
  are reachable only in the model: in the source, the cascade has already
  removed such reviews.
- **The average's source.** The entity recomputes the average from its
  in-memory review collection. The model recomputes it from the review table
  (`CalificacionesDe`), the mean the service evidently intends. Whether that
  collection reflects the write just made is a JPA session detail the model
  does not capture. This holds for a save. It also holds for a delete: the
  review service deletes by id and then recomputes without flushing, so
  whether the deleted review is still in the collection, and so counted in
  the average, depends on the session.
- **Floating point.** The average and prices use `real`, not IEEE double
  rounding.
- **Machine integers.** Stock is an unbounded integer. The 32-bit overflow of
  `stock += cantidad` is not modelled. Neither is `Math.abs(Integer.MIN_VALUE)`
  staying negative.
- `ProductoServicio.ProductoService.Crear` requires a non-negative stock. The
  request body's `@Min(0)` constraint
  (src/main/java/com/Neita/sistemacitasbarberia/dto/ProductoDTO.java:62-64)
  guarantees this before the service runs, and it is what keeps every stored
  stock non-negative.
- **Null ordering.** The history query sorts appointments without a completion
  stamp last. That is the order of a descending sort on most databases, and it
  depends on the database.
- **Roles.** The user entity file shows no role set and no `agregarRol`.
  Roles are modelled as a map from user id to a set of role names (`Usuarios`).
- **Repository finders not used by the core.** The offering and review finders
  other than those modelled here are not modelled. This covers available
  services, top rated, search by speciality and the review ordering by date.
  The core services do not call them.
- **`getPrecioFormateado`.** Its string formatting is not modelled.
- `Validaciones.EmailValido` and `Validaciones.RegistroValido` check only the
  email's non-blankness (and, for `EmailValido`, its length). The `@Email`
  address syntax belongs to the validation library and is not modelled, so,
  for example, an email without '@' is accepted.
- **String lengths.** `@Size` counts UTF-16 code units. The model counts
  characters, which differ only for characters outside the Basic Multilingual
  Plane.
- **Persisted ids.** An appointment, review or offering is stored as a value,
  so the model does not capture aliasing between two loaded copies of one row.
  Profiles and products are objects updated in place, as in the source.
