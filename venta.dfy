/** The sale document (src/models/Venta.js): its lines, the enums, the
    validators, and the pre-save hook that derives subtotal, total, change and
    payment status. */
module Ventas {
  import opened Comun

  datatype TipoVenta = Contado | Credito
  datatype EstadoPago = Pagada | Pendiente

  datatype LineaVenta = LineaVenta(producto: Id, cantidad: int, precioUnitario: real, subtotal: real)

  /** `creado` is the `createdAt` timestamp the reports filter on. */
  datatype Venta = Venta(
    usuario: Id,
    caja: Id,
    productos: seq<LineaVenta>,
    subtotal: real,
    descuento: real,
    total: real,
    montoRecibido: Option<real>,
    vuelto: real,
    tipoVenta: TipoVenta,
    cliente: Option<Id>,
    estadoPago: EstadoPago,
    creado: int)

  /** The sum of the line subtotals, in line order. */
  function SumaSubtotales(ls: seq<LineaVenta>): real
    decreases |ls|
  {
    if ls == [] then 0.0 else SumaSubtotales(ls[..|ls| - 1]) + ls[|ls| - 1].subtotal
  }

  lemma SumaSubtotalesAgregar(ls: seq<LineaVenta>, l: LineaVenta)
    ensures SumaSubtotales(ls + [l]) == SumaSubtotales(ls) + l.subtotal
  {
    assert (ls + [l])[..|ls|] == ls;
  }

  /** Lines that are all worth at least 0 add up to at least 0. */
  lemma {:induction false} SumaSubtotalesNoNegativa(ls: seq<LineaVenta>)
    requires forall i :: 0 <= i < |ls| ==> ls[i].subtotal >= 0.0
    ensures SumaSubtotales(ls) >= 0.0
  {
    if ls != [] {
      SumaSubtotalesNoNegativa(ls[..|ls| - 1]);
    }
  }

  /** JavaScript truthiness of `this.montoRecibido`: present and not 0. */
  predicate RecibidoPresente(v: Venta) {
    v.montoRecibido.Some? && v.montoRecibido.value != 0.0
  }

  /** The pre-save hook as the source writes it. It runs on every save, the
      first one and every later one. */
  function VentaGuardada(v: Venta): (r: Venta)
    ensures r.subtotal == SumaSubtotales(v.productos)
    ensures r.total == SumaSubtotales(v.productos) - v.descuento
    ensures v.descuento == 0.0 ==> r.total == r.subtotal
    ensures v.tipoVenta == Contado && RecibidoPresente(v) ==> r.vuelto + r.total == v.montoRecibido.value
    ensures !(v.tipoVenta == Contado && RecibidoPresente(v)) ==> r.vuelto == v.vuelto
    ensures v.tipoVenta == Credito ==> r.estadoPago == Pendiente
    ensures v.tipoVenta == Contado ==> r.estadoPago == v.estadoPago
    ensures r.(subtotal := v.subtotal, total := v.total, vuelto := v.vuelto, estadoPago := v.estadoPago) == v
  {
    var subtotal := SumaSubtotales(v.productos);
    var total := subtotal - v.descuento;
    v.(subtotal := subtotal,
       total := total,
       vuelto := if v.tipoVenta == Contado && RecibidoPresente(v) then v.montoRecibido.value - total else v.vuelto,
       estadoPago := if v.tipoVenta == Credito then Pendiente else v.estadoPago)
  }

  /** The hook depends only on the lines, the discount, the payment type and
      the amount tendered, so a second save yields the same totals. */
  lemma VentaGuardadaIdempotente(v: Venta)
    ensures VentaGuardada(VentaGuardada(v)) == VentaGuardada(v)
  {
  }

  /** As written, the hook puts every credit sale back to Pendiente, including
      one that the settlement handler has just marked Pagada. */
  lemma PagoCreditoVuelvePendiente(v: Venta)
    requires v.tipoVenta == Credito
    ensures VentaGuardada(v.(estadoPago := Pagada)).estadoPago == Pendiente
  {
  }

  /** The hook as evidently intended: a credit sale starts Pendiente, and a
      later save keeps whatever status the document holds. */
  function VentaGuardadaCorregida(v: Venta, esNueva: bool): (r: Venta)
    ensures esNueva ==> r == VentaGuardada(v)
    ensures !esNueva ==> r == VentaGuardada(v).(estadoPago := v.estadoPago)
  {
    var subtotal := SumaSubtotales(v.productos);
    var total := subtotal - v.descuento;
    v.(subtotal := subtotal,
       total := total,
       vuelto := if v.tipoVenta == Contado && RecibidoPresente(v) then v.montoRecibido.value - total else v.vuelto,
       estadoPago := if esNueva && v.tipoVenta == Credito then Pendiente else v.estadoPago)
  }

  /** With the corrected hook a settled credit sale stays settled. */
  lemma PagoCorregidoQuedaPagado(v: Venta)
    ensures VentaGuardadaCorregida(v.(estadoPago := Pagada), false).estadoPago == Pagada
  {
  }

  /** The schema's validators, applied to the document before the hook runs:
      every line quantity at least 1, the amount fields at least 0, and a
      customer present on a credit sale. */
  predicate VentaValida(v: Venta) {
    && (forall i :: 0 <= i < |v.productos| ==> v.productos[i].cantidad >= 1)
    && v.subtotal >= 0.0
    && v.descuento >= 0.0
    && v.total >= 0.0
    && v.vuelto >= 0.0
    && (v.montoRecibido.Some? ==> v.montoRecibido.value >= 0.0)
    && (v.tipoVenta == Credito ==> v.cliente.Some?)
  }

  /** `save()` of a sale: the validators see the document as given, then the
      hook derives its totals. */
  function Guardar(v: Venta): (r: Result<Venta>)
    ensures r.Success? <==> VentaValida(v)
    ensures r.Success? ==> r.value == VentaGuardada(v)
    ensures r.Failure? ==> r.error == ValidationError
  {
    if VentaValida(v) then Success(VentaGuardada(v)) else Failure(ValidationError)
  }

  /** The `tipoVenta` of a request: absent takes the schema default Contado;
      a string outside the enum is None, which the enum validator rejects. */
  function TipoDesdeTexto(t: Option<string>): (r: Option<TipoVenta>)
    ensures t.None? ==> r == Some(Contado)
    ensures r == Some(Credito) <==> t == Some("Credito")
    ensures r.None? <==> t.Some? && t.value != "Contado" && t.value != "Credito"
  {
    match t
    case None => Some(Contado)
    case Some(s) => if s == "Contado" then Some(Contado) else if s == "Credito" then Some(Credito) else None
  }

  /** The document `Venta.create` builds before saving: the schema defaults
      (subtotal, discount, total and change 0, status Pagada) and the given
      fields. */
  function Nueva(usuario: Id, caja: Id, lineas: seq<LineaVenta>, tipo: TipoVenta,
                 cliente: Option<Id>, montoRecibido: Option<real>, ahora: int): (v: Venta)
    ensures v.descuento == 0.0 && v.estadoPago == Pagada
    ensures VentaValida(v) <==>
              (forall i :: 0 <= i < |lineas| ==> lineas[i].cantidad >= 1)
              && (montoRecibido.Some? ==> montoRecibido.value >= 0.0)
              && (tipo == Credito ==> cliente.Some?)
  {
    Venta(usuario, caja, lineas, 0.0, 0.0, 0.0, montoRecibido, 0.0, tipo, cliente, Pagada, ahora)
  }

  /** The hook as a step-by-step update of the document: the `reduce` over the
      lines becomes a loop. */
  method PreSaveVenta(v: Venta) returns (r: Venta)
    ensures r == VentaGuardada(v)
  {
    var subtotal := 0.0;
    var i := 0;
    while i < |v.productos|
      invariant 0 <= i <= |v.productos|
      invariant subtotal == SumaSubtotales(v.productos[..i])
    {
      assert v.productos[..i + 1] == v.productos[..i] + [v.productos[i]];
      SumaSubtotalesAgregar(v.productos[..i], v.productos[i]);
      subtotal := subtotal + v.productos[i].subtotal;
      i := i + 1;
    }
    assert v.productos[..i] == v.productos;
    r := v.(subtotal := subtotal);
    r := r.(total := r.subtotal - r.descuento);
    if r.tipoVenta == Contado && RecibidoPresente(r) {
      r := r.(vuelto := r.montoRecibido.value - r.total);
    }
    if r.tipoVenta == Credito {
      r := r.(estadoPago := Pendiente);
    }
  }
}
