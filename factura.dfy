/** The supplier invoice document (src/models/Factura.js): lines, payment
    status, and the pre-save hook that derives line subtotals, the 19% Chilean
    VAT (IVA) and the total. */
module Facturas {
  import opened Comun

  datatype EstadoFactura = Pendiente | Pagada | Vencida
  datatype MetodoPago = Efectivo | Transferencia | Cheque | Credito

  /** `producto` is optional: a line may describe goods not in the catalog. */
  datatype LineaFactura = LineaFactura(
    producto: Option<Id>,
    descripcion: string,
    cantidad: int,
    precioUnitario: int,
    subtotal: int)

  /** `creado` is the `createdAt` timestamp the reports filter on. */
  datatype Factura = Factura(
    numeroFactura: string,
    proveedor: Id,
    ordenCompra: Option<Id>,
    usuario: Id,
    productos: seq<LineaFactura>,
    subtotal: int,
    impuestos: int,
    total: int,
    fechaFactura: int,
    estadoPago: EstadoFactura,
    metodoPago: MetodoPago,
    creado: int)

  /** Per cent rate of the IVA. */
  const TASA_IVA := 19

  /** The IVA of a subtotal, rounded to the nearest unit with halves rounded
      up: exactly what `Math.round(subtotal * 0.19)` means on exact numbers. */
  function Iva(subtotal: int): (r: int)
    ensures 100 * r - 50 <= TASA_IVA * subtotal < 100 * r + 50
    ensures subtotal >= 0 ==> r >= 0
  {
    (TASA_IVA * subtotal + 50) / 100
  }

  function ConSubtotal(l: LineaFactura): LineaFactura {
    l.(subtotal := l.cantidad * l.precioUnitario)
  }

  /** The `forEach` of the hook: each line gets `cantidad * precioUnitario`. */
  function LineasConSubtotal(ls: seq<LineaFactura>): (r: seq<LineaFactura>)
    ensures |r| == |ls|
    ensures forall i :: 0 <= i < |ls| ==>
              r[i].subtotal == ls[i].cantidad * ls[i].precioUnitario && r[i].(subtotal := ls[i].subtotal) == ls[i]
  {
    seq(|ls|, i requires 0 <= i < |ls| => ConSubtotal(ls[i]))
  }

  /** The `reduce` of the hook: the sum of the line subtotals, in line order. */
  function SumaLineas(ls: seq<LineaFactura>): int
    decreases |ls|
  {
    if ls == [] then 0 else SumaLineas(ls[..|ls| - 1]) + ls[|ls| - 1].subtotal
  }

  lemma SumaLineasAgregar(ls: seq<LineaFactura>, l: LineaFactura)
    ensures SumaLineas(ls + [l]) == SumaLineas(ls) + l.subtotal
  {
    assert (ls + [l])[..|ls|] == ls;
  }

  lemma {:induction false} SumaLineasNoNegativa(ls: seq<LineaFactura>)
    requires forall i :: 0 <= i < |ls| ==> ls[i].subtotal >= 0
    ensures SumaLineas(ls) >= 0
  {
    if ls != [] {
      SumaLineasNoNegativa(ls[..|ls| - 1]);
    }
  }

  /** The pre-save hook. */
  function FacturaGuardada(f: Factura): Factura {
    var lineas := LineasConSubtotal(f.productos);
    var subtotal := SumaLineas(lineas);
    var impuestos := Iva(subtotal);
    f.(productos := lineas, subtotal := subtotal, impuestos := impuestos, total := subtotal + impuestos)
  }

  /** The totals come from the lines alone, so a second save changes nothing. */
  lemma FacturaGuardadaIdempotente(f: Factura)
    ensures FacturaGuardada(FacturaGuardada(f)) == FacturaGuardada(f)
  {
    var g := FacturaGuardada(f);
    assert LineasConSubtotal(g.productos) == g.productos;
  }

  /** With quantities and prices at least 0, the saved total is at least the
      subtotal, which is at least 0, and the tax is the rest of the total. */
  lemma {:induction false} FacturaGuardadaTotales(f: Factura)
    requires forall i :: 0 <= i < |f.productos| ==>
               f.productos[i].cantidad >= 0 && f.productos[i].precioUnitario >= 0
    ensures var g := FacturaGuardada(f);
              0 <= g.subtotal <= g.total && g.total == g.subtotal + g.impuestos
              && 100 * g.impuestos - 50 <= TASA_IVA * g.subtotal < 100 * g.impuestos + 50
  {
    var lineas := LineasConSubtotal(f.productos);
    forall i | 0 <= i < |lineas| ensures lineas[i].subtotal >= 0 {
      assert lineas[i].subtotal == f.productos[i].cantidad * f.productos[i].precioUnitario;
    }
    SumaLineasNoNegativa(lineas);
  }

  /** The schema's validators, applied before the hook: an invoice number, line
      quantities at least 1, unit prices at least 0, and amount fields at least 0. */
  predicate FacturaValida(f: Factura) {
    && f.numeroFactura != ""
    && (forall i :: 0 <= i < |f.productos| ==>
          f.productos[i].cantidad >= 1 && f.productos[i].precioUnitario >= 0)
    && f.subtotal >= 0 && f.impuestos >= 0 && f.total >= 0
  }

  /** The hook as a sequence of updates: the `forEach` writes each line, then the
      `reduce` sums them, then the tax and the total are assigned. */
  method PreSaveFactura(f: Factura) returns (r: Factura)
    ensures r == FacturaGuardada(f)
  {
    var lineas := f.productos;
    var i := 0;
    while i < |lineas|
      invariant 0 <= i <= |lineas| == |f.productos|
      invariant forall k :: 0 <= k < i ==> lineas[k] == ConSubtotal(f.productos[k])
      invariant forall k :: i <= k < |lineas| ==> lineas[k] == f.productos[k]
    {
      lineas := lineas[i := lineas[i].(subtotal := lineas[i].cantidad * lineas[i].precioUnitario)];
      i := i + 1;
    }
    assert lineas == LineasConSubtotal(f.productos);
    var subtotal := 0;
    i := 0;
    while i < |lineas|
      invariant 0 <= i <= |lineas|
      invariant subtotal == SumaLineas(lineas[..i])
    {
      assert lineas[..i + 1] == lineas[..i] + [lineas[i]];
      SumaLineasAgregar(lineas[..i], lineas[i]);
      subtotal := subtotal + lineas[i].subtotal;
      i := i + 1;
    }
    assert lineas[..i] == lineas;
    r := f.(productos := lineas);
    r := r.(subtotal := subtotal);
    r := r.(impuestos := Iva(r.subtotal));
    r := r.(total := r.subtotal + r.impuestos);
  }
}
