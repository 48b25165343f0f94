# Veterinary billing: a Dafny model

This project models the domain core of a small veterinary-clinic billing
service. Services (`Servicio`: id, name, cost) are registered. A list of
service ids is bundled into an invoice (`Factura`: id, services, total,
paid flag). An invoice is paid once. Three layers are modelled:

- `Modelo` (`modelo.dfy`): the `Servicio` value and the `Factura` class.
  The class keeps the invariant that `total` is the sum of its services'
  costs (`Suma`).
- `Negocio` (`negocio.dfy`): `FacturaService`, a class holding the two
  id-keyed stores as maps. A map update plays the part of the
  repositories' insert-or-overwrite `save`, and map lookup plays
  `findById`. Generated UUIDs are method parameters (`uuid`). A `requires`
  says a generated id is not already a key: the source assumes this and
  never checks it. `Valid()` is the store invariant. Every service sits
  under its own id and passed validation. Every invoice sits under its own
  id, keeps its total equal to its sum, and lists at least one valid
  service. The `modifies` clauses carry the "nothing else changes" part:
  `CrearFactura` may change only the `FacturaService` object itself, and
  `PagarFactura` only that and the one invoice it pays.
- `Controlador` (`controlador.dfy`): the DTOs, the field-by-field copy of
  a service DTO into a `Servicio`, and one pure function per endpoint. Each
  function maps a service-layer outcome (a value or the kind of exception
  thrown) to a response body and HTTP status.

`Comun` (`comun.dfy`) holds the shared types. Nullable Java strings are
`Option<string>`. Exceptions are `Error` (`IllegalArgument`,
`IllegalState`, `Unexpected` for any other exception), and outcomes are
`Result`. `Escenario` (`escenario.dfy`) composes the endpoints with the
service layer for the walk-through: register "Consulta" at 50000, bill it,
pay it, pay again, and bill an unknown id.

Java `double` costs and totals are exact `real`s.

## Model

| member | source | states |
|---|---|---|
| `Modelo.SumaPositiva` | src/main/java/com/servicios/vet/model/Factura.java:64-66 | a non-empty list of positive costs has a positive total |
| `Modelo.Factura.Vacia` | src/main/java/com/servicios/vet/model/Factura.java:46-48 | the no-argument constructor gives an unpaid invoice with no id, no services and total 0, and the invariant holds |
| `Modelo.Factura.constructor` | src/main/java/com/servicios/vet/model/Factura.java:54-59 | stores the given id and list, is unpaid, and has total equal to the sum of the list's costs |
| `Modelo.Factura.CalcularTotal` | src/main/java/com/servicios/vet/model/Factura.java:64-66 | re-establishes total == sum of costs, changing only `total` |
| `Modelo.Factura.SetId` | src/main/java/com/servicios/vet/model/Factura.java:78-80 | only the id changes; services, total and flag are kept and so is the invariant |
| `Modelo.Factura.SetServicios` | src/main/java/com/servicios/vet/model/Factura.java:92-95 | replaces the list and recomputes the total; id and flag are kept |
| `Modelo.Factura.SetPagada` | src/main/java/com/servicios/vet/model/Factura.java:114-116 | only the paid flag changes; services and total are untouched and the invariant holds |
| `Negocio.ConId` | src/main/java/com/servicios/vet/service/FacturaService.java:49-51 | a null or empty id is replaced by the generated one; a non-empty id is kept unchanged; name and cost are never touched |
| `Negocio.PrimerFaltante` | src/main/java/com/servicios/vet/service/FacturaService.java:99-101 | when some id is unknown, the position of the first one: it is unknown and every id before it is known |
| `Negocio.Resolver` | src/main/java/com/servicios/vet/service/FacturaService.java:98-103 | resolving known ids gives a list with the same length and order as the ids, repeats included, each entry the stored service for that id |
| `Negocio.FacturaService.ResolverServicios` | src/main/java/com/servicios/vet/service/FacturaService.java:98-103 | the loop looks the ids up in order: when all are stored it returns exactly `Resolver`'s list; otherwise it fails with the argument error naming the first unknown id; every service it returns passed validation |
| `Negocio.FacturaService.constructor` | src/main/java/com/servicios/vet/service/FacturaService.java:29-33 | both stores start empty and the store invariant holds |
| `Negocio.FacturaService.AgregarServicio` | src/main/java/com/servicios/vet/service/FacturaService.java:47-65 | cost `<= 0` fails with the cost message whatever the name; a positive cost with a null or empty name fails with the name message; on failure nothing is stored; otherwise the service with its id (kept or generated) is returned and stored under that id, overwriting any old entry, and a generated id is a new key; invoices are unchanged; `ObtenerServicio` then returns it |
| `Negocio.FacturaService.ObtenerServicio` | src/main/java/com/servicios/vet/service/FacturaService.java:74-77 | succeeds exactly when the id is stored and returns that service; otherwise an argument error naming the id |
| `Negocio.FacturaService.ListarServicios` | src/main/java/com/servicios/vet/service/FacturaService.java:84-86 | every stored service appears, each once (as many as keys), and each is found again by `ObtenerServicio` under its own id |
| `Negocio.FacturaService.CrearFactura` | src/main/java/com/servicios/vet/service/FacturaService.java:90-113 | a null or empty list fails with the empty-list message; otherwise it succeeds exactly when every id is known, and else fails naming the first unknown id; a failure stores nothing; on success exactly one new key (the fresh id) maps to a new unpaid invoice of the resolved services with total their sum; the service store and every existing invoice are unchanged (the latter by the frame), and `ObtenerFactura` returns it |
| `Negocio.FacturaService.ObtenerFactura` | src/main/java/com/servicios/vet/service/FacturaService.java:115-119 | succeeds exactly when the id is stored and returns that invoice; otherwise an argument error naming the id |
| `Negocio.FacturaService.PagarFactura` | src/main/java/com/servicios/vet/service/FacturaService.java:121-133 | a missing id is an argument error; a paid invoice is a state error; both leave every invoice unchanged; otherwise only that invoice's flag becomes true (its id, services and total are kept, other invoices are outside the frame) and it is returned, so a second pay of the same id hits the state error |
| `Negocio.FacturaService.ListarFacturas` | src/main/java/com/servicios/vet/service/FacturaService.java:135-138 | every stored invoice appears, each once (as many as keys), and each is found again by `ObtenerFactura` under its own id |
| `Negocio.FacturaService.TotalPositivo` | src/main/java/com/servicios/vet/service/FacturaService.java:91-112 | every stored invoice has a positive total: the cost check (line 54) and the non-empty list check (line 93) together with total == sum |
| `Controlador.ServicioDesdeDto` | src/main/java/com/servicios/vet/controller/FacturaController.java:60-64 | the service is built from the DTO's id, name and cost, each unaltered (null id or name included) |
| `Controlador.AgregarServicio` | src/main/java/com/servicios/vet/controller/FacturaController.java:57-79 | 201 with the stored service exactly on success; 400 with the message exactly for an argument error; every other exception is 500 with the prefixed message |
| `Controlador.ListarServicios` | src/main/java/com/servicios/vet/controller/FacturaController.java:88-92 | always 200 with the service layer's list unchanged |
| `Controlador.ObtenerServicio` | src/main/java/com/servicios/vet/controller/FacturaController.java:102-115 | 200 with the service exactly when found; 404 with the exception's message exactly for the argument (not-found) error; every other exception is 500 with the prefixed message |
| `Controlador.CrearFactura` | src/main/java/com/servicios/vet/controller/FacturaController.java:129-142 | 201 with the invoice exactly on success; every argument error (empty list or unknown id) is 400 with its message, never 404; every other exception is 500 with the prefixed message |
| `Controlador.ObtenerFactura` | src/main/java/com/servicios/vet/controller/FacturaController.java:152-165 | 200 with the invoice exactly when found; 404 with the exception's message exactly when not found; every other exception is 500 with the prefixed message |
| `Controlador.PagarFactura` | src/main/java/com/servicios/vet/controller/FacturaController.java:175-191 | 200 with the paid invoice exactly on success; 404 exactly for not found and 400 exactly for already paid, both with the exception's message; 500 with the prefixed message exactly for any other exception |
| `Controlador.ListarFacturas` | src/main/java/com/servicios/vet/controller/FacturaController.java:200-204 | always 200 with the service layer's list unchanged |
| `Escenario.ConsultaPagadaDosVeces` | src/main/java/com/servicios/vet/service/FacturaService.java:121-133 | registering "Consulta" at 50000 gives 201; billing it (through the request body) gives 201 with an unpaid invoice of total 50000; the first pay gives 200 and the invoice is then paid; the second pay gives 400; billing an unknown id gives 400; one invoice is left stored |

## Left out

- Persistence, transactions and HTTP plumbing are not modelled: JPA repositories, `@Transactional`, connection pools, CORS and JSON binding. The repositories are the two maps. `findAll` is modelled as a set, so list order is not captured.
- `UUID.randomUUID()` is not modelled: the generated id is a parameter, and a `requires` assumes it is fresh.
- Floating point is not modelled: costs and totals are exact reals, so rounding, NaN and the stream-sum accuracy are out.
- Aliasing through `@ManyToMany` is not modelled. Invoices hold value snapshots of their services. Re-saving a service under an existing id therefore does not change the list an already stored invoice shows. In the source it might, without the stored total being recomputed.
- AgregarServicio: the source writes the generated id into the caller's `Servicio` object, even when validation then fails. The model works on a value, so only the returned service carries the id.
- CrearFactura: a null element inside the id list is not modelled. Ids in the list are plain strings.
- Factura.Vacia: the source's no-argument constructor leaves the service list null. The model uses the empty list. Both have total 0, and a later `calcularTotal` on a null list would throw.
- The browser client, the configuration classes and the pass-through `ServicioService` are not part of this model. So are the HATEOAS links that the controller test expects.
- Modelo.Factura.constructor: a null service list is not modelled. In the source, `new Factura(id, null)` throws a NullPointerException inside `calcularTotal`; the model's list is a sequence and is never null.
- Modelo.Factura.SetServicios: a null service list is not modelled. In the source, `setServicios(null)` stores the null and then throws a NullPointerException inside `calcularTotal`, leaving the list null and the total stale.
- Negocio.FacturaService.PagarFactura: calls are sequential and each is atomic. The source holds no lock or version field, so two concurrent pays of one unpaid invoice could both return 200; lost updates between concurrent calls are out. "A second pay fails" holds for sequential calls only.
- Negocio.FacturaService.constructor: the stores start empty and are written only through these methods, so `Valid()` holds. In the source, the repositories are injected and backed by a persistent database, and `ServicioService.agregarServicio` saves into the same repository without validating. Rows written that way need not satisfy `Valid()`; `TotalPositivo` and the once-each listings assume they do.
