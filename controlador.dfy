/**
 * The HTTP boundary (`FacturaController`): request bodies, the copy of a
 * service DTO into a `Servicio`, and, per endpoint, the response that one
 * service-layer outcome becomes.
 */
module Controlador {
  import opened Comun
  import opened Modelo

  const HttpOk := 200
  const HttpCreated := 201
  const HttpBadRequest := 400
  const HttpNotFound := 404
  const HttpInternalServerError := 500

  const MsgErrorInterno := "Error al procesar la solicitud: "

  /** Body of `POST /api/servicio`. */
  datatype ServicioDTO = ServicioDTO(id: Option<string>, nombre: Option<string>, costo: real)

  /** Body of `POST /api/factura`. */
  datatype FacturaRequestDTO = FacturaRequestDTO(serviciosIds: Option<seq<string>>)

  /** A response body: the entity (or list), or a plain-text error message. */
  datatype Cuerpo<T> = Valor(valor: T) | Mensaje(texto: string)

  datatype Respuesta<T> = Respuesta(cuerpo: Cuerpo<T>, estado: int)

  /** The `Servicio` built from the request body, each field copied as it is. */
  function ServicioDesdeDto(dto: ServicioDTO): (s: Servicio)
    ensures s.id == dto.id && s.nombre == dto.nombre && s.costo == dto.costo
  {
    Servicio(dto.id, dto.nombre, dto.costo)
  }

  /**
   * One try/catch ladder: success gives `exito` with the value; an argument
   * error gives `siArgumento` with the exception's message; a state error
   * gives 400 with its message when the endpoint catches it
   * (`atrapaEstado`); anything else 500 with a prefixed message.
   */
  function Responder<T>(r: Result<T>, exito: int, siArgumento: int, atrapaEstado: bool): Respuesta<T>
  {
    match r
    case Ok(v) => Respuesta(Valor(v), exito)
    case Err(IllegalArgument(m)) => Respuesta(Mensaje(m), siArgumento)
    case Err(IllegalState(m)) =>
      if atrapaEstado then Respuesta(Mensaje(m), HttpBadRequest)
      else Respuesta(Mensaje(MsgErrorInterno + m), HttpInternalServerError)
    case Err(Unexpected(m)) => Respuesta(Mensaje(MsgErrorInterno + m), HttpInternalServerError)
  }

  /** `POST /api/servicio`: 201 with the stored service, 400 on invalid data, otherwise 500. */
  function AgregarServicio(r: Result<Servicio>): (resp: Respuesta<Servicio>)
    ensures resp.estado in {HttpCreated, HttpBadRequest, HttpInternalServerError}
    ensures resp.estado == HttpCreated <==> r.Ok?
    ensures r.Ok? ==> resp.cuerpo == Valor(r.value)
    ensures resp.estado == HttpBadRequest <==> r.Err? && r.error.IllegalArgument?
    ensures r.Err? && r.error.IllegalArgument? ==> resp.cuerpo == Mensaje(r.error.message)
    ensures r.Err? && !r.error.IllegalArgument? ==> resp.cuerpo == Mensaje(MsgErrorInterno + r.error.message)
  {
    Responder(r, HttpCreated, HttpBadRequest, false)
  }

  /** `GET /api/servicio`: always 200 with the list as the service layer gave it. */
  function ListarServicios(l: set<Servicio>): (resp: Respuesta<set<Servicio>>)
    ensures resp.estado == HttpOk && resp.cuerpo == Valor(l)
  {
    Respuesta(Valor(l), HttpOk)
  }

  /** `GET /api/servicio/{id}`: 200 when found, 404 for the not-found argument error, otherwise 500. */
  function ObtenerServicio(r: Result<Servicio>): (resp: Respuesta<Servicio>)
    ensures resp.estado in {HttpOk, HttpNotFound, HttpInternalServerError}
    ensures resp.estado == HttpOk <==> r.Ok?
    ensures r.Ok? ==> resp.cuerpo == Valor(r.value)
    ensures resp.estado == HttpNotFound <==> r.Err? && r.error.IllegalArgument?
    ensures r.Err? && r.error.IllegalArgument? ==> resp.cuerpo == Mensaje(r.error.message)
    ensures r.Err? && !r.error.IllegalArgument? ==> resp.cuerpo == Mensaje(MsgErrorInterno + r.error.message)
  {
    Responder(r, HttpOk, HttpNotFound, false)
  }

  /**
   * `POST /api/factura`: 201 with the new invoice; every argument error,
   * an unknown id included, is 400 and never 404; otherwise 500.
   */
  function CrearFactura(r: Result<Factura>): (resp: Respuesta<Factura>)
    ensures resp.estado in {HttpCreated, HttpBadRequest, HttpInternalServerError}
    ensures resp.estado != HttpNotFound
    ensures resp.estado == HttpCreated <==> r.Ok?
    ensures r.Ok? ==> resp.cuerpo == Valor(r.value)
    ensures resp.estado == HttpBadRequest <==> r.Err? && r.error.IllegalArgument?
    ensures r.Err? && r.error.IllegalArgument? ==> resp.cuerpo == Mensaje(r.error.message)
    ensures r.Err? && !r.error.IllegalArgument? ==> resp.cuerpo == Mensaje(MsgErrorInterno + r.error.message)
  {
    Responder(r, HttpCreated, HttpBadRequest, false)
  }

  /** `GET /api/factura/{id}`: 200 when found, 404 when not, otherwise 500. */
  function ObtenerFactura(r: Result<Factura>): (resp: Respuesta<Factura>)
    ensures resp.estado in {HttpOk, HttpNotFound, HttpInternalServerError}
    ensures resp.estado == HttpOk <==> r.Ok?
    ensures r.Ok? ==> resp.cuerpo == Valor(r.value)
    ensures resp.estado == HttpNotFound <==> r.Err? && r.error.IllegalArgument?
    ensures r.Err? && r.error.IllegalArgument? ==> resp.cuerpo == Mensaje(r.error.message)
    ensures r.Err? && !r.error.IllegalArgument? ==> resp.cuerpo == Mensaje(MsgErrorInterno + r.error.message)
  {
    Responder(r, HttpOk, HttpNotFound, false)
  }

  /**
   * `PUT /api/factura/{id}/pagar`: 200 with the paid invoice, 404 when it
   * does not exist, 400 when it was already paid, otherwise 500.
   */
  function PagarFactura(r: Result<Factura>): (resp: Respuesta<Factura>)
    ensures resp.estado in {HttpOk, HttpNotFound, HttpBadRequest, HttpInternalServerError}
    ensures resp.estado == HttpOk <==> r.Ok?
    ensures r.Ok? ==> resp.cuerpo == Valor(r.value)
    ensures resp.estado == HttpNotFound <==> r.Err? && r.error.IllegalArgument?
    ensures resp.estado == HttpBadRequest <==> r.Err? && r.error.IllegalState?
    ensures resp.estado == HttpInternalServerError <==> r.Err? && r.error.Unexpected?
    ensures r.Err? && !r.error.Unexpected? ==> resp.cuerpo == Mensaje(r.error.message)
    ensures r.Err? && r.error.Unexpected? ==> resp.cuerpo == Mensaje(MsgErrorInterno + r.error.message)
  {
    Responder(r, HttpOk, HttpNotFound, true)
  }

  /** `GET /api/factura`: always 200 with the list as the service layer gave it. */
  function ListarFacturas(l: set<Factura>): (resp: Respuesta<set<Factura>>)
    ensures resp.estado == HttpOk && resp.cuerpo == Valor(l)
  {
    Respuesta(Valor(l), HttpOk)
  }
}
