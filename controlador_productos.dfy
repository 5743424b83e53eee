/** The logic of src/controllers/productoController.js on product documents:
    transfer between floor and warehouse, the low-stock query, the stock and
    catalog updates, and deactivation. The handlers that look documents up and
    save them are methods of the store (module Tienda). */
module ControladorProductos {
  import opened Comun
  import opened Productos

  /** The location name that means the floor; any other origin is the warehouse. */
  const SALA := "Sala"

  /** The counts the transfer handler reports back. */
  datatype InformeStock = InformeStock(stockSala: int, stockBodega: int, stockTotal: int)

  /** The checks `transferirStock` makes before looking the product up. A
      missing origin or destination is modelled as the empty string. */
  function ValidarTransferencia(cantidad: Option<int>, origen: string, destino: string): (r: Option<Error>)
    ensures r.None? <==> cantidad.Some? && cantidad.value > 0 && origen != "" && destino != "" && origen != destino
    ensures cantidad.None? || cantidad.value <= 0 ==> r == Some(InvalidTransfer)
    ensures cantidad.Some? && cantidad.value > 0 && (origen == "" || destino == "") ==> r == Some(ValidationError)
  {
    if cantidad.None? || cantidad.value <= 0 then Some(InvalidTransfer)
    else if origen == "" || destino == "" then Some(ValidationError)
    else if origen == destino then Some(InvalidTransfer)
    else None
  }

  /** The stock held at the origin. */
  function StockOrigen(p: Producto, origen: string): int {
    if origen == SALA then p.stockSala else p.stockBodega
  }

  /** Moves `cantidad` units from the origin to the other location, or refuses
      when the origin holds fewer. */
  function Transferir(p: Producto, cantidad: int, origen: string): (r: Result<Producto>)
    ensures r.Failure? <==> StockOrigen(p, origen) < cantidad
    ensures r.Failure? ==> r.error == InsufficientStock
    ensures r.Success? ==> StockTotal(r.value) == StockTotal(p)
    ensures r.Success? && origen == SALA ==>
              r.value.stockSala == p.stockSala - cantidad && r.value.stockBodega == p.stockBodega + cantidad
    ensures r.Success? && origen != SALA ==>
              r.value.stockBodega == p.stockBodega - cantidad && r.value.stockSala == p.stockSala + cantidad
    ensures r.Success? ==> r.value.(stockSala := p.stockSala, stockBodega := p.stockBodega) == p
    ensures r.Success? && ProductoValido(p) && cantidad > 0 ==> ProductoValido(r.value)
  {
    if StockOrigen(p, origen) < cantidad then Failure(InsufficientStock)
    else if origen == SALA then
      Success(p.(stockSala := p.stockSala - cantidad, stockBodega := p.stockBodega + cantidad))
    else
      Success(p.(stockBodega := p.stockBodega - cantidad, stockSala := p.stockSala + cantidad))
  }

  /** Floor 15: moving 20 units from the floor to the warehouse is refused. */
  lemma EscenarioTransferenciaInsuficiente(p: Producto)
    requires p.stockSala == 15
    ensures Transferir(p, 20, SALA) == Failure(InsufficientStock)
  {
  }

  function Informe(p: Producto): (r: InformeStock)
    ensures r.stockSala == p.stockSala && r.stockBodega == p.stockBodega
    ensures r.stockTotal == r.stockSala + r.stockBodega
  {
    InformeStock(p.stockSala, p.stockBodega, p.stockSala + p.stockBodega)
  }

  /** `obtenerStockBajo`: the active products whose total stock is at most
      their minimum, in the store's order. */
  function ObtenerStockBajo(ps: seq<Producto>): (r: seq<Id>)
    ensures forall i :: i in r <==> 0 <= i < |ps| && ps[i].activo && VerificarStockBajo(ps[i])
    ensures forall a, b :: 0 <= a < b < |r| ==> r[a] < r[b]
  {
    StockBajoDesde(ps, 0)
  }

  function StockBajoDesde(ps: seq<Producto>, k: nat): (r: seq<Id>)
    requires k <= |ps|
    ensures forall i :: i in r <==> k <= i < |ps| && ps[i].activo && VerificarStockBajo(ps[i])
    ensures forall a, b :: 0 <= a < b < |r| ==> r[a] < r[b]
    decreases |ps| - k
  {
    if k == |ps| then []
    else
      var rest := StockBajoDesde(ps, k + 1);
      if ps[k].activo && VerificarStockBajo(ps[k]) then
        assert forall a :: 0 <= a < |rest| ==> k < rest[a] by {
          forall a | 0 <= a < |rest| ensures k < rest[a] { assert rest[a] in rest; }
        }
        [k] + rest
      else rest
  }

  /** `actualizarStock`: each counter given in the request overwrites the
      stored one; an absent one is kept. */
  function AplicarStock(p: Producto, stockSala: Option<int>, stockBodega: Option<int>): (r: Producto)
    ensures stockSala.None? ==> r.stockSala == p.stockSala
    ensures stockBodega.None? ==> r.stockBodega == p.stockBodega
    ensures stockSala.Some? ==> r.stockSala == stockSala.value
    ensures stockBodega.Some? ==> r.stockBodega == stockBodega.value
    ensures r.(stockSala := p.stockSala, stockBodega := p.stockBodega) == p
  {
    p.(stockSala := stockSala.GetOr(p.stockSala), stockBodega := stockBodega.GetOr(p.stockBodega))
  }

  /** The fields of a product-update request body; absent fields are None. */
  datatype CambiosProducto = CambiosProducto(
    nombre: Option<string>,
    proveedor: Option<Id>,
    precioCosto: Option<int>,
    porcentajeMargen: Option<int>,
    precioVenta: Option<real>,
    stockSala: Option<int>,
    stockBodega: Option<int>,
    stockMinimo: Option<int>,
    esAltaRotacion: Option<bool>,
    esPerecible: Option<bool>,
    fechaVencimiento: Option<int>,
    alertaVencimiento: Option<bool>,
    activo: Option<bool>)

  /** `Object.assign(producto, req.body)`. */
  function AplicarCambios(p: Producto, c: CambiosProducto): Producto {
    Producto(
      c.nombre.GetOr(p.nombre),
      c.proveedor.GetOr(p.proveedor),
      c.precioCosto.GetOr(p.precioCosto),
      c.porcentajeMargen.GetOr(p.porcentajeMargen),
      c.precioVenta.GetOr(p.precioVenta),
      c.stockSala.GetOr(p.stockSala),
      c.stockBodega.GetOr(p.stockBodega),
      c.stockMinimo.GetOr(p.stockMinimo),
      c.esAltaRotacion.GetOr(p.esAltaRotacion),
      c.esPerecible.GetOr(p.esPerecible),
      if c.fechaVencimiento.Some? then c.fechaVencimiento else p.fechaVencimiento,
      c.alertaVencimiento.GetOr(p.alertaVencimiento),
      c.activo.GetOr(p.activo))
  }

  /** `actualizarProducto` on the document: after the update is saved, the
      sale price follows the new cost and margin, whatever price the request
      sent; a request that breaks a validator is refused. */
  function ActualizarProducto(p: Producto, c: CambiosProducto): (r: Result<Producto>)
    ensures r.Failure? <==> !ProductoValido(AplicarCambios(p, c))
    ensures r.Success? ==> PrecioConsistente(r.value)
    ensures r.Success? ==> r.value.precioCosto == c.precioCosto.GetOr(p.precioCosto)
    ensures r.Success? ==> r.value.porcentajeMargen == c.porcentajeMargen.GetOr(p.porcentajeMargen)
    ensures r.Success? && c.precioCosto.None? && c.porcentajeMargen.None? && PrecioConsistente(p) ==>
              r.value.precioVenta == p.precioVenta
  {
    Guardar(AplicarCambios(p, c))
  }

  /** `eliminarProducto` on the document: a soft delete. */
  function Desactivar(p: Producto): (r: Producto)
    ensures !r.activo && r.(activo := p.activo) == p
  {
    p.(activo := false)
  }
}
