/**
 * A client of the contracts: the controller endpoints composed with the
 * service layer, for the register / bill / pay / pay-again walk-through and
 * for billing an id nobody registered.
 */
module Escenario {
  import opened Comun
  import opened Negocio
  import Controlador

  /**
   * Registers "Consulta" at 50000 without an id, bills it, pays the
   * invoice twice, then bills an unknown id. The statuses, the paid flag
   * after billing and after the first pay, and the invoice count after the
   * walk-through follow from the contracts alone.
   */
  method ConsultaPagadaDosVeces()
    returns (alta: int, creada: int, total: real, pagadaAlCrear: bool, pago: int, pagadaAlPagar: bool,
             segundoPago: int, desconocida: int, facturasAlFinal: nat)
    ensures alta == Controlador.HttpCreated && creada == Controlador.HttpCreated
    ensures total == 50000.0 && !pagadaAlCrear
    ensures pago == Controlador.HttpOk && pagadaAlPagar
    ensures segundoPago == Controlador.HttpBadRequest
    ensures desconocida == Controlador.HttpBadRequest
    ensures facturasAlFinal == 1
  {
    var facturaService := new FacturaService();

    var dto := Controlador.ServicioDTO(None, Some("Consulta"), 50000.0);
    var servicio := facturaService.AgregarServicio(Controlador.ServicioDesdeDto(dto), "S1");
    alta := Controlador.AgregarServicio(servicio).estado;

    var pedido := Controlador.FacturaRequestDTO(Some(["S1"]));
    var factura := facturaService.CrearFactura(pedido.serviciosIds, "F1");
    creada := Controlador.CrearFactura(factura).estado;
    total := factura.value.total;
    pagadaAlCrear := factura.value.pagada;

    var primero := facturaService.PagarFactura("F1");
    pago := Controlador.PagarFactura(primero).estado;
    pagadaAlPagar := primero.value.pagada;
    var segundo := facturaService.PagarFactura("F1");
    segundoPago := Controlador.PagarFactura(segundo).estado;

    var otroPedido := Controlador.FacturaRequestDTO(Some(["unknown-id"]));
    var otra := facturaService.CrearFactura(otroPedido.serviciosIds, "F2");
    desconocida := Controlador.CrearFactura(otra).estado;
    facturasAlFinal := |facturaService.ListarFacturas()|;
  }
}
