/**
 * The business logic (`FacturaService`): registering services, bundling
 * them into invoices and paying invoices, over two id-keyed stores. The
 * stores are maps; `save` is insert-or-overwrite and `findById` a lookup.
 */
module Negocio {
  import opened Comun
  import opened Modelo

  const MsgCostoInvalido := "El costo del servicio debe ser mayor que cero"
  const MsgNombreVacio := "El nombre del servicio no puede estar vacío"
  const MsgSinServicios := "Debe incluir al menos un servicio en la factura"
  const MsgYaPagada := "La factura ya ha sido pagada"

  function MsgNoServicio(id: string): string
  {
    "No existe servicio con ID: " + id
  }

  function MsgNoFactura(id: string): string
  {
    "No existe factura con ID: " + id
  }

  /** A service that has an id and passes `agregarServicio`'s checks. */
  predicate Registrable(s: Servicio)
  {
    !Blank(s.id) && s.costo > 0.0 && !Blank(s.nombre)
  }

  /** The service `agregarServicio` tries to store: its own id if it has one, else the generated one. */
  function ConId(s: Servicio, uuid: string): (r: Servicio)
    ensures r.nombre == s.nombre && r.costo == s.costo
    ensures !Blank(s.id) ==> r == s
    ensures Blank(s.id) ==> r.id == Some(uuid)
  {
    if Blank(s.id) then s.(id := Some(uuid)) else s
  }

  /** Every id of `ids` names a stored service. */
  predicate Registrados(servicios: map<string, Servicio>, ids: seq<string>)
  {
    forall i :: 0 <= i < |ids| ==> ids[i] in servicios
  }

  /** The position of the first id that names no stored service. */
  function PrimerFaltante(servicios: map<string, Servicio>, ids: seq<string>): (i: nat)
    requires !Registrados(servicios, ids)
    ensures i < |ids| && ids[i] !in servicios
    ensures forall j :: 0 <= j < i ==> ids[j] in servicios
  {
    if ids[0] !in servicios then 0
    else
      assert !Registrados(servicios, ids[1..]) by {
        var k :| 0 <= k < |ids| && ids[k] !in servicios;
        assert ids[1..][k - 1] == ids[k];
      }
      1 + PrimerFaltante(servicios, ids[1..])
  }

  /** The services the ids name, in the same order and with repeats kept. */
  function Resolver(servicios: map<string, Servicio>, ids: seq<string>): (r: seq<Servicio>)
    requires Registrados(servicios, ids)
    ensures |r| == |ids|
    ensures forall i :: 0 <= i < |ids| ==> r[i] == servicios[ids[i]]
  {
    if ids == [] then []
    else
      assert Registrados(servicios, ids[1..]) by {
        forall k | 0 <= k < |ids| - 1 ensures ids[1..][k] in servicios {
          assert ids[1..][k] == ids[k + 1];
        }
      }
      [servicios[ids[0]]] + Resolver(servicios, ids[1..])
  }

  /** A stored service entry: keyed by its own id, and valid. */
  predicate ServicioEnOrden(k: string, s: Servicio)
  {
    s.id == Some(k) && Registrable(s)
  }

  /** Every service of the list passes `agregarServicio`'s checks. */
  predicate TodosRegistrables(servicios: seq<Servicio>)
  {
    forall i :: 0 <= i < |servicios| ==> Registrable(servicios[i])
  }

  /** A stored invoice entry: keyed by its own id, total == sum, at least one valid service. */
  ghost predicate FacturaEnOrden(k: string, f: Factura)
    reads f
  {
    f.id == Some(k) && f.Valid() && |f.servicios| > 0 && TodosRegistrables(f.servicios)
  }

  class FacturaService {
    /** The service store, keyed by id. */
    var servicios: map<string, Servicio>
    /** The invoice store, keyed by id. */
    var facturas: map<string, Factura>

    /**
     * Every stored service sits under its own id and passed the checks;
     * every stored invoice sits under its own id, keeps its total equal to
     * the sum of its costs, and lists at least one such service.
     */
    ghost predicate Valid()
      reads this, facturas.Values
    {
      && (forall k :: k in servicios ==> ServicioEnOrden(k, servicios[k]))
      && (forall k :: k in facturas ==> FacturaEnOrden(k, facturas[k]))
    }

    constructor ()
      ensures Valid()
      ensures servicios == map[] && facturas == map[]
    {
      servicios := map[];
      facturas := map[];
    }

    /**
     * `agregarServicio`: generates the id when it is missing, then rejects a
     * non-positive cost, then a missing name, and only then saves. `uuid`
     * stands for the generated id.
     */
    method AgregarServicio(servicio: Servicio, uuid: string) returns (r: Result<Servicio>)
      requires Valid()
      requires Blank(servicio.id) ==> uuid != "" && uuid !in servicios
      modifies this
      ensures Valid()
      ensures facturas == old(facturas)
      ensures servicio.costo <= 0.0 ==> r == Err(IllegalArgument(MsgCostoInvalido))
      ensures servicio.costo > 0.0 && Blank(servicio.nombre) ==> r == Err(IllegalArgument(MsgNombreVacio))
      ensures r.Err? ==> servicios == old(servicios)
      ensures Registrable(ConId(servicio, uuid)) ==> r == Ok(ConId(servicio, uuid))
      ensures r.Ok? ==> Registrable(r.value) && servicios == old(servicios)[r.value.id.value := r.value]
      ensures r.Ok? ==> ObtenerServicio(r.value.id.value) == r
      ensures r.Ok? && Blank(servicio.id) ==> r.value.id.value !in old(servicios)
    {
      var s := ConId(servicio, uuid);
      if s.costo <= 0.0 {
        return Err(IllegalArgument(MsgCostoInvalido));
      }
      if Blank(s.nombre) {
        return Err(IllegalArgument(MsgNombreVacio));
      }
      servicios := servicios[s.id.value := s];
      r := Ok(s);
    }

    /** `obtenerServicio`: the stored service, or an argument error naming the id. */
    function ObtenerServicio(id: string): (r: Result<Servicio>)
      reads this
      ensures r.Ok? <==> id in servicios
      ensures r.Ok? ==> r.value == servicios[id]
      ensures r.Err? ==> r.error == IllegalArgument(MsgNoServicio(id))
    {
      if id in servicios then Ok(servicios[id]) else Err(IllegalArgument(MsgNoServicio(id)))
    }

    /** `listarServicios`: every stored service once; each is found again under its own id. */
    function ListarServicios(): (r: set<Servicio>)
      requires Valid()
      reads this, facturas.Values
      ensures |r| == |servicios|
      ensures forall k :: k in servicios ==> servicios[k] in r
      ensures forall s :: s in r ==> s.id.Some? && ObtenerServicio(s.id.value) == Ok(s)
    {
      assert Injective(servicios) by {
        forall a, b | a in servicios && b in servicios && a != b ensures servicios[a] != servicios[b] {
          assert servicios[a].id == Some(a) && servicios[b].id == Some(b);
        }
      }
      InjectiveValuesCount(servicios);
      servicios.Values
    }

    /**
     * `crearFactura`: all or nothing. A null or empty list is refused; the
     * ids are resolved in order and the first unknown one is reported;
     * only then one new unpaid invoice is stored under `uuid`, which stands
     * for the generated id. Only `this` may change, so every invoice already
     * stored keeps its state.
     */
    method CrearFactura(ids: Option<seq<string>>, uuid: string) returns (r: Result<Factura>)
      requires Valid()
      requires uuid !in facturas
      modifies this
      ensures Valid()
      ensures servicios == old(servicios)
      ensures ids.None? || ids == Some([]) ==> r == Err(IllegalArgument(MsgSinServicios))
      ensures ids.Some? && ids.value != [] ==> (r.Ok? <==> Registrados(servicios, ids.value))
      ensures ids.Some? && !Registrados(servicios, ids.value) ==>
                r == Err(IllegalArgument(MsgNoServicio(ids.value[PrimerFaltante(servicios, ids.value)])))
      ensures r.Err? ==> facturas == old(facturas)
      ensures r.Ok? ==>
                && ids.Some? && Registrados(servicios, ids.value)
                && fresh(r.value)
                && facturas == old(facturas)[uuid := r.value]
                && r.value.Datos() == FacturaDatos(Some(uuid), Resolver(servicios, ids.value), Suma(Resolver(servicios, ids.value)), false)
                && ObtenerFactura(uuid) == Ok(r.value)
    {
      if ids.None? || ids.value == [] {
        return Err(IllegalArgument(MsgSinServicios));
      }
      var lista := ids.value;
      var resueltos := ResolverServicios(lista);
      if resueltos.Err? {
        return Err(resueltos.error);
      }
      var nueva := new Factura(Some(uuid), resueltos.value);
      facturas := facturas[uuid := nueva];
      r := Ok(nueva);
    }

    /**
     * The loop of `crearFactura` (`for (String id : serviciosIds)`): looks
     * each id up in order and stops at the first unknown one.
     */
    method ResolverServicios(lista: seq<string>) returns (r: Result<seq<Servicio>>)
      requires Valid()
      ensures Registrados(servicios, lista) ==> r == Ok(Resolver(servicios, lista))
      ensures !Registrados(servicios, lista) ==>
                r == Err(IllegalArgument(MsgNoServicio(lista[PrimerFaltante(servicios, lista)])))
      ensures r.Ok? ==> TodosRegistrables(r.value)
    {
      var serviciosFactura: seq<Servicio> := [];
      var i := 0;
      while i < |lista|
        invariant 0 <= i <= |lista|
        invariant forall j :: 0 <= j < i ==> lista[j] in servicios
        invariant |serviciosFactura| == i
        invariant forall j :: 0 <= j < i ==> serviciosFactura[j] == servicios[lista[j]]
      {
        if lista[i] !in servicios {
          assert PrimerFaltante(servicios, lista) == i;
          return Err(IllegalArgument(MsgNoServicio(lista[i])));
        }
        serviciosFactura := serviciosFactura + [servicios[lista[i]]];
        i := i + 1;
      }
      assert serviciosFactura == Resolver(servicios, lista);
      r := Ok(serviciosFactura);
    }

    /** `obtenerFactura`: the stored invoice, or an argument error naming the id. */
    function ObtenerFactura(id: string): (r: Result<Factura>)
      reads this
      ensures r.Ok? <==> id in facturas
      ensures r.Ok? ==> r.value == facturas[id]
      ensures r.Err? ==> r.error == IllegalArgument(MsgNoFactura(id))
    {
      if id in facturas then Ok(facturas[id]) else Err(IllegalArgument(MsgNoFactura(id)))
    }

    /**
     * `pagarFactura`: unpaid to paid, once. A missing invoice is an argument
     * error, a paid one a state error; otherwise only its flag changes.
     * Besides `this`, only the invoice stored under `id` may change.
     */
    method PagarFactura(id: string) returns (r: Result<Factura>)
      requires Valid()
      modifies this, if id in facturas then {facturas[id]} else {}
      ensures Valid()
      ensures servicios == old(servicios) && facturas == old(facturas)
      ensures id !in facturas ==> r == Err(IllegalArgument(MsgNoFactura(id)))
      ensures id in facturas && old(facturas[id].pagada) ==> r == Err(IllegalState(MsgYaPagada))
      ensures r.Err? ==> id in facturas ==> facturas[id].Datos() == old(facturas[id].Datos())
      ensures id in facturas && !old(facturas[id].pagada) ==>
                && r == Ok(facturas[id])
                && facturas[id].pagada
                && facturas[id].Datos() == old(facturas[id].Datos()).(pagada := true)
    {
      var encontrada := ObtenerFactura(id);
      if encontrada.Err? {
        return encontrada;
      }
      var factura := encontrada.value;
      if factura.pagada {
        return Err(IllegalState(MsgYaPagada));
      }
      factura.SetPagada(true);
      facturas := facturas[id := factura];
      r := Ok(factura);
    }

    /** `listarFacturas`: every stored invoice once; each is found again under its own id. */
    function ListarFacturas(): (r: set<Factura>)
      requires Valid()
      reads this, facturas.Values
      ensures |r| == |facturas|
      ensures forall k :: k in facturas ==> facturas[k] in r
      ensures forall f :: f in r ==> f.id.Some? && ObtenerFactura(f.id.value) == Ok(f)
    {
      assert Injective(facturas) by {
        forall a, b | a in facturas && b in facturas && a != b ensures facturas[a] != facturas[b] {
          assert facturas[a].id == Some(a) && facturas[b].id == Some(b);
        }
      }
      InjectiveValuesCount(facturas);
      facturas.Values
    }

    /** Every stored invoice has a positive total: positive costs, at least one service. */
    lemma TotalPositivo(id: string)
      requires Valid()
      requires id in facturas
      ensures facturas[id].total > 0.0
    {
      SumaPositiva(facturas[id].servicios);
    }
  }
}
