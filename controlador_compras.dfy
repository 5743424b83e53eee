/** The logic of `crearFactura` in src/controllers/comprasController.js:
    the invoice is created, then every line that names an existing product adds
    its quantity to that product's warehouse stock, one product save per line. */
module ControladorCompras {
  import opened Comun
  import opened Productos
  import opened Facturas

  /** The outcome of the intake loop: the products as saved, and the error of
      the save that stopped it, if one did. */
  datatype Ingreso = Ingreso(productos: seq<Producto>, error: Option<Error>)

  /** One iteration: a line without a product reference, or with an unknown
      one, is skipped; otherwise the warehouse stock rises and the product is saved. */
  function IngresarLinea(ps: seq<Producto>, l: LineaFactura): (r: Result<seq<Producto>>)
    ensures (l.producto.None? || l.producto.value >= |ps|) ==> r == Success(ps)
    ensures r.Success? ==> |r.value| == |ps|
  {
    if l.producto.None? || l.producto.value >= |ps| then Success(ps)
    else
      var id := l.producto.value;
      match Productos.Guardar(ps[id].(stockBodega := ps[id].stockBodega + l.cantidad))
      case Failure(e) => Failure(e)
      case Success(q) => Success(ps[id := q])
  }

  /** The `for` loop over the saved invoice's lines. */
  function Ingresar(ps: seq<Producto>, ls: seq<LineaFactura>): Ingreso
    decreases |ls|
  {
    if ls == [] then Ingreso(ps, None)
    else
      match IngresarLinea(ps, ls[0])
      case Failure(e) => Ingreso(ps, Some(e))
      case Success(siguiente) => Ingresar(siguiente, ls[1..])
  }

  /** The units the lines bring to product `id`, repeated references added up. */
  function Recibido(ls: seq<LineaFactura>, id: Id): int
    decreases |ls|
  {
    if ls == [] then 0
    else (if ls[0].producto == Some(id) then ls[0].cantidad else 0) + Recibido(ls[1..], id)
  }

  /** The units the lines bring to existing products. */
  function RecibidoTotal(ls: seq<LineaFactura>, n: nat): int
    decreases |ls|
  {
    if ls == [] then 0
    else (if ls[0].producto.Some? && ls[0].producto.value < n then ls[0].cantidad else 0) + RecibidoTotal(ls[1..], n)
  }

  /** The loop from line `i` on: one line's outcome, then the rest. */
  lemma IngresarPaso(ps: seq<Producto>, ls: seq<LineaFactura>, i: nat)
    requires i < |ls|
    ensures IngresarLinea(ps, ls[i]).Failure? ==>
              Ingresar(ps, ls[i..]) == Ingreso(ps, Some(IngresarLinea(ps, ls[i]).error))
    ensures IngresarLinea(ps, ls[i]).Success? ==>
              Ingresar(ps, ls[i..]) == Ingresar(IngresarLinea(ps, ls[i]).value, ls[i + 1..])
  {
    assert ls[i..][0] == ls[i] && ls[i..][1..] == ls[i + 1..];
  }

  /** Floor stock is never touched by intake, whether or not the loop finishes. */
  lemma {:induction false} IngresarNoTocaSala(ps: seq<Producto>, ls: seq<LineaFactura>)
    ensures |Ingresar(ps, ls).productos| == |ps|
    ensures forall id :: 0 <= id < |ps| ==> Ingresar(ps, ls).productos[id].stockSala == ps[id].stockSala
    decreases |ls|
  {
    if ls != [] {
      match IngresarLinea(ps, ls[0])
      case Failure(_) =>
      case Success(siguiente) =>
        IngresarNoTocaSala(siguiente, ls[1..]);
    }
  }

  /** One line over a saved catalogue: its save succeeds, and only the product
      it names gains its quantity in the warehouse. */
  lemma IngresarLineaCatalogo(ps: seq<Producto>, l: LineaFactura)
    requires Catalogo(ps) && l.cantidad >= 0
    ensures IngresarLinea(ps, l).Success?
    ensures var s := IngresarLinea(ps, l).value;
              && |s| == |ps| && Catalogo(s)
              && forall id :: 0 <= id < |ps| ==>
                   s[id] == ps[id].(stockBodega := ps[id].stockBodega + (if l.producto == Some(id) then l.cantidad else 0))
  {
    if l.producto.Some? && l.producto.value < |ps| {
      var id := l.producto.value;
      GuardarConservaConsistente(ps[id].(stockBodega := ps[id].stockBodega + l.cantidad));
    }
  }

  /** With a saved catalogue and quantities of at least 0, every save succeeds;
      each product's warehouse stock rises by exactly what the lines bring it,
      and nothing else about it changes. */
  lemma {:induction false} IngresarBodega(ps: seq<Producto>, ls: seq<LineaFactura>)
    requires Catalogo(ps)
    requires forall k :: 0 <= k < |ls| ==> ls[k].cantidad >= 0
    ensures Ingresar(ps, ls).error.None?
    ensures |Ingresar(ps, ls).productos| == |ps| && Catalogo(Ingresar(ps, ls).productos)
    ensures forall id :: 0 <= id < |ps| ==>
              Ingresar(ps, ls).productos[id] == ps[id].(stockBodega := ps[id].stockBodega + Recibido(ls, id))
    decreases |ls|
  {
    if ls != [] {
      IngresarLineaCatalogo(ps, ls[0]);
      var siguiente := IngresarLinea(ps, ls[0]).value;
      IngresarBodega(siguiente, ls[1..]);
    }
  }

  /** With a saved catalogue and quantities of at least 0, the units held by
      the whole catalogue rise by exactly what the lines bring to existing products. */
  lemma {:induction false} IngresarStockGlobal(ps: seq<Producto>, ls: seq<LineaFactura>)
    requires Catalogo(ps)
    requires forall k :: 0 <= k < |ls| ==> ls[k].cantidad >= 0
    ensures StockGlobal(Ingresar(ps, ls).productos) == StockGlobal(ps) + RecibidoTotal(ls, |ps|)
    decreases |ls|
  {
    if ls != [] {
      var l := ls[0];
      IngresarLineaCatalogo(ps, l);
      var siguiente := IngresarLinea(ps, l).value;
      if l.producto.Some? && l.producto.value < |ps| {
        StockGlobalActualizar(ps, l.producto.value, siguiente[l.producto.value]);
        assert siguiente == ps[l.producto.value := siguiente[l.producto.value]];
      } else {
        assert siguiente == ps;
      }
      IngresarStockGlobal(siguiente, ls[1..]);
    }
  }

  /** An invoice number some stored invoice already carries (the unique index). */
  predicate NumeroUsado(fs: seq<Factura>, numero: string) {
    exists k :: 0 <= k < |fs| && fs[k].numeroFactura == numero
  }

  /** The outcome of `crearFactura`: invoices and products as left saved, and
      the created invoice or the error. */
  datatype Compra = Compra(facturas: seq<Factura>, productos: seq<Producto>, factura: Result<Factura>)

  /** `crearFactura`: `Factura.create` validates the request document, refuses
      a duplicate invoice number, runs the hook and stores the invoice; then the
      intake loop runs over the stored lines. */
  function CrearFactura(fs: seq<Factura>, ps: seq<Producto>, f: Factura): (r: Compra)
    ensures !FacturaValida(f) ==> r == Compra(fs, ps, Failure(ValidationError))
    ensures FacturaValida(f) && NumeroUsado(fs, f.numeroFactura) ==> r == Compra(fs, ps, Failure(ServerError))
    ensures FacturaValida(f) && !NumeroUsado(fs, f.numeroFactura) ==>
              r.facturas == fs + [FacturaGuardada(f)] && r.productos == Ingresar(ps, FacturaGuardada(f).productos).productos
    ensures r.factura.Success? ==> r.factura.value == FacturaGuardada(f)
  {
    if !FacturaValida(f) then Compra(fs, ps, Failure(ValidationError))
    else if NumeroUsado(fs, f.numeroFactura) then Compra(fs, ps, Failure(ServerError))
    else
      var g := FacturaGuardada(f);
      var ingreso := Ingresar(ps, g.productos);
      Compra(fs + [g], ingreso.productos, if ingreso.error.Some? then Failure(ingreso.error.value) else Success(g))
  }

  /** Over a saved catalogue an accepted invoice always completes its intake:
      each product's warehouse stock rises by the quantities of the lines that
      name it, its floor stock stays, and invoice numbers stay distinct. */
  lemma CrearFacturaIngresa(fs: seq<Factura>, ps: seq<Producto>, f: Factura)
    requires Catalogo(ps)
    requires FacturaValida(f) && !NumeroUsado(fs, f.numeroFactura)
    ensures var r := CrearFactura(fs, ps, f);
              && r.factura == Success(FacturaGuardada(f))
              && |r.productos| == |ps| && Catalogo(r.productos)
              && forall id :: 0 <= id < |ps| ==>
                   r.productos[id] == ps[id].(stockBodega := ps[id].stockBodega + Recibido(f.productos, id))
  {
    var g := FacturaGuardada(f);
    assert forall k :: 0 <= k < |g.productos| ==> g.productos[k].cantidad >= 0;
    IngresarBodega(ps, g.productos);
    RecibidoMismasCantidades(f.productos, g.productos);
  }

  /** The hook only writes line subtotals, so the lines bring the same units. */
  lemma {:induction false} RecibidoMismasCantidades(a: seq<LineaFactura>, b: seq<LineaFactura>)
    requires |a| == |b|
    requires forall k :: 0 <= k < |a| ==> a[k].producto == b[k].producto && a[k].cantidad == b[k].cantidad
    ensures forall id :: Recibido(a, id) == Recibido(b, id)
    decreases |a|
  {
    if a != [] {
      RecibidoMismasCantidades(a[1..], b[1..]);
    }
  }

  /** Two lines naming product 0 with 4 and 6 units, and one line naming no
      product: product 0's warehouse stock rises by 10. */
  lemma EscenarioIngresoAcumulado(ps: seq<Producto>, a: LineaFactura, b: LineaFactura, c: LineaFactura)
    requires Catalogo(ps) && |ps| >= 1
    requires a.producto == Some(0) && a.cantidad == 4
    requires b.producto == Some(0) && b.cantidad == 6
    requires c.producto.None? && c.cantidad == 3
    ensures |Ingresar(ps, [a, c, b]).productos| == |ps|
    ensures Ingresar(ps, [a, c, b]).productos[0].stockBodega == ps[0].stockBodega + 10
    ensures Ingresar(ps, [a, c, b]).productos[0].stockSala == ps[0].stockSala
  {
    var ls := [a, c, b];
    IngresarBodega(ps, ls);
    assert Recibido(ls, 0) == 10 by {
      assert ls[1..] == [c, b] && [c, b][1..] == [b] && [b][1..] == [];
      assert Recibido([b], 0) == 6;
      assert Recibido([c, b], 0) == 6;
    }
  }
}
