/**
 * The entities: a billable veterinary service (a plain value) and an
 * invoice (an object whose fields the setters update in place), with the
 * invariant that an invoice's total is the sum of its services' costs.
 */
module Modelo {
  import opened Comun

  /** A billable service. Ids and names are nullable Java strings; the cost is exact. */
  datatype Servicio = Servicio(id: Option<string>, nombre: Option<string>, costo: real)

  /** The sum of the costs of `servicios` (`calcularTotal`). */
  function Suma(servicios: seq<Servicio>): real
  {
    if servicios == [] then 0.0 else servicios[0].costo + Suma(servicios[1..])
  }

  /** Costs that are all positive add up to a positive total on a non-empty list. */
  lemma {:induction false} SumaPositiva(servicios: seq<Servicio>)
    requires |servicios| > 0
    requires forall i :: 0 <= i < |servicios| ==> servicios[i].costo > 0.0
    ensures Suma(servicios) > 0.0
  {
    if |servicios| > 1 {
      assert forall i :: 0 <= i < |servicios| - 1 ==> servicios[1..][i] == servicios[i + 1];
      SumaPositiva(servicios[1..]);
    } else {
      assert servicios[1..] == [];
    }
  }

  /** The persisted (and serialised) shape of an invoice: `{id, servicios, total, pagada}`. */
  datatype FacturaDatos = FacturaDatos(id: Option<string>, servicios: seq<Servicio>, total: real, pagada: bool)

  /** An invoice. The services are held as value snapshots. */
  class Factura {
    var id: Option<string>
    var servicios: seq<Servicio>
    var total: real
    var pagada: bool

    /** The class invariant: the total is never set independently of the services. */
    ghost predicate Valid()
      reads this
    {
      total == Suma(servicios)
    }

    /** The current field values. */
    function Datos(): FacturaDatos
      reads this
    {
      FacturaDatos(id, servicios, total, pagada)
    }

    /** `Factura()`: no id, unpaid; the list the source leaves null is empty here. */
    constructor Vacia()
      ensures Valid()
      ensures Datos() == FacturaDatos(None, [], 0.0, false)
    {
      id := None;
      servicios := [];
      total := 0.0;
      pagada := false;
    }

    /** `Factura(id, servicios)`: stores both, unpaid, total computed from the list. */
    constructor (id: Option<string>, servicios: seq<Servicio>)
      ensures Valid()
      ensures this.id == id && this.servicios == servicios && !pagada
    {
      this.id := id;
      this.servicios := servicios;
      this.pagada := false;
      new;
      CalcularTotal();
    }

    /** Recomputes the total from the current services. */
    method CalcularTotal()
      modifies this`total
      ensures Valid()
    {
      total := Suma(servicios);
    }

    method SetId(id: Option<string>)
      requires Valid()
      modifies this`id
      ensures Valid()
      ensures Datos() == old(Datos()).(id := id)
    {
      this.id := id;
    }

    /** Replaces the list and recomputes the total; id and flag stay. */
    method SetServicios(servicios: seq<Servicio>)
      modifies this`servicios, this`total
      ensures Valid()
      ensures Datos() == old(Datos()).(servicios := servicios, total := Suma(servicios))
    {
      this.servicios := servicios;
      CalcularTotal();
    }

    method SetPagada(pagada: bool)
      requires Valid()
      modifies this`pagada
      ensures Valid()
      ensures Datos() == old(Datos()).(pagada := pagada)
    {
      this.pagada := pagada;
    }
  }
}
