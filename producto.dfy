/** The product document (src/models/Producto.js): its schema bounds, the
    pre-save hook that derives the sale price, and the two alert predicates. */
module Productos {
  import opened Comun

  /** Default of `stockMinimo`. */
  const STOCK_MINIMO_POR_DEFECTO := 10
  /** Milliseconds in a day, the divisor of the expiry computation. */
  const MS_POR_DIA := 1000 * 60 * 60 * 24
  /** A product expires "soon" when at most this many days remain. */
  const DIAS_AVISO := 7

  /** Dates are milliseconds since the epoch. Money is an integer amount, except
      the derived sale price, which need not be whole. */
  datatype Producto = Producto(
    nombre: string,
    proveedor: Id,
    precioCosto: int,
    porcentajeMargen: int,
    precioVenta: real,
    stockSala: int,
    stockBodega: int,
    stockMinimo: int,
    esAltaRotacion: bool,
    esPerecible: bool,
    fechaVencimiento: Option<int>,
    alertaVencimiento: bool,
    activo: bool)

  /** `precioCosto * (1 + porcentajeMargen / 100)` in exact arithmetic. */
  function PrecioVenta(costo: int, margen: int): real {
    costo as real * (1.0 + margen as real / 100.0)
  }

  /** With a margin in [0, 100] the sale price lies between the cost and twice it. */
  lemma PrecioVentaAcotado(costo: int, margen: int)
    requires costo >= 0 && 0 <= margen <= 100
    ensures costo as real <= PrecioVenta(costo, margen) <= 2.0 * costo as real
  {
    var f := 1.0 + margen as real / 100.0;
    assert 1.0 <= f <= 2.0;
    assert costo as real * 1.0 <= costo as real * f <= costo as real * 2.0;
  }

  /** The stored price agrees with the current cost and margin. */
  predicate PrecioConsistente(p: Producto) {
    p.precioVenta == PrecioVenta(p.precioCosto, p.porcentajeMargen)
  }

  /** The schema's validators: cost, sale price and stock counters at least 0,
      margin in [0, 100], and an expiry date required on a perishable product. */
  predicate ProductoValido(p: Producto) {
    && p.precioCosto >= 0
    && 0 <= p.porcentajeMargen <= 100
    && p.precioVenta >= 0.0
    && p.stockSala >= 0
    && p.stockBodega >= 0
    && p.stockMinimo >= 0
    && (p.esPerecible ==> p.fechaVencimiento.Some?)
  }

  /** The pre-save hook: recomputes the sale price, whatever field changed. */
  function ConPrecioVenta(p: Producto): (r: Producto)
    ensures PrecioConsistente(r)
    ensures r.(precioVenta := p.precioVenta) == p
  {
    p.(precioVenta := PrecioVenta(p.precioCosto, p.porcentajeMargen))
  }

  /** `save()`: the validators see the document as the caller left it; only
      then does the hook run. */
  function Guardar(p: Producto): (r: Result<Producto>)
    ensures r.Success? <==> ProductoValido(p)
    ensures r.Success? ==> ProductoValido(r.value) && PrecioConsistente(r.value)
    ensures r.Success? ==> r.value.(precioVenta := p.precioVenta) == p
    ensures r.Failure? ==> r.error == ValidationError
  {
    if ProductoValido(p) then
      var q := ConPrecioVenta(p);
      PrecioVentaAcotado(p.precioCosto, p.porcentajeMargen);
      Success(q)
    else
      Failure(ValidationError)
  }

  /** Saving a saved product again changes nothing. */
  lemma GuardarIdempotente(p: Producto)
    requires Guardar(p).Success?
    ensures Guardar(Guardar(p).value) == Guardar(p)
  {
  }

  /** A valid product whose price is consistent is saved unchanged. */
  lemma GuardarConservaConsistente(p: Producto)
    requires ProductoValido(p) && PrecioConsistente(p)
    ensures Guardar(p) == Success(p)
  {
  }

  /** A document created with only the required fields: stock 0 in both
      locations, minimum stock 10, active, no flags. */
  function Nuevo(nombre: string, proveedor: Id, costo: int, margen: int,
                 esPerecible: bool, fechaVencimiento: Option<int>): (p: Producto)
    ensures StockTotal(p) == 0 && VerificarStockBajo(p)
    ensures Guardar(p).Success? <==>
              costo >= 0 && 0 <= margen <= 100 && (esPerecible ==> fechaVencimiento.Some?)
  {
    Producto(nombre, proveedor, costo, margen, 0.0, 0, 0, STOCK_MINIMO_POR_DEFECTO,
             false, esPerecible, fechaVencimiento, false, true)
  }

  /** Every product passes validation and carries the price its hook derives:
      what a collection holds when each of its products was last written by a save. */
  predicate Catalogo(ps: seq<Producto>) {
    forall i :: 0 <= i < |ps| ==> ProductoValido(ps[i]) && PrecioConsistente(ps[i])
  }

  /** Writing back what a save returned keeps the collection a saved catalogue. */
  lemma CatalogoGuardado(ps: seq<Producto>, i: nat, p: Producto)
    requires Catalogo(ps) && i < |ps| && Guardar(p).Success?
    ensures Catalogo(ps[i := Guardar(p).value])
  {
  }

  /** The units held by a collection of products, both locations together. */
  function StockGlobal(ps: seq<Producto>): int
    decreases |ps|
  {
    if ps == [] then 0 else StockGlobal(ps[..|ps| - 1]) + StockTotal(ps[|ps| - 1])
  }

  /** Replacing one product changes the collection's stock by the difference. */
  lemma {:induction false} StockGlobalActualizar(ps: seq<Producto>, i: nat, q: Producto)
    requires i < |ps|
    ensures StockGlobal(ps[i := q]) == StockGlobal(ps) - StockTotal(ps[i]) + StockTotal(q)
    decreases |ps|
  {
    var n := |ps| - 1;
    if i == n {
      assert ps[i := q][..n] == ps[..n];
    } else {
      assert ps[i := q][..n] == ps[..n][i := q];
      StockGlobalActualizar(ps[..n], i, q);
    }
  }

  function StockTotal(p: Producto): int {
    p.stockSala + p.stockBodega
  }

  /** `verificarStockBajo`. */
  predicate VerificarStockBajo(p: Producto) {
    StockTotal(p) <= p.stockMinimo
  }

  /** `Math.ceil(diferencia / MS_POR_DIA)` for a difference in milliseconds. */
  function DiasParaVencer(fecha: int, ahora: int): (d: int)
    ensures (d - 1) * MS_POR_DIA < fecha - ahora <= d * MS_POR_DIA
  {
    (fecha - ahora + MS_POR_DIA - 1) / MS_POR_DIA
  }

  /** `verificarVencimientoProximo`, with the current time as a parameter:
      false for a product that is not perishable or has no date; otherwise
      whether between 0 and 7 days (rounded up) remain. */
  function VerificarVencimientoProximo(p: Producto, ahora: int): (r: bool)
    ensures !p.esPerecible || p.fechaVencimiento.None? ==> !r
    ensures p.esPerecible && p.fechaVencimiento.Some? ==>
              (r <==> ahora - MS_POR_DIA < p.fechaVencimiento.value <= ahora + DIAS_AVISO * MS_POR_DIA)
  {
    if !p.esPerecible || p.fechaVencimiento.None? then false
    else
      var d := DiasParaVencer(p.fechaVencimiento.value, ahora);
      d <= DIAS_AVISO && d >= 0
  }

  /** Floor 3, warehouse 5, minimum 10: low stock (8 <= 10). */
  lemma EscenarioStockBajo(p: Producto)
    requires p.stockSala == 3 && p.stockBodega == 5 && p.stockMinimo == 10
    ensures VerificarStockBajo(p)
  {
  }
}
