/** The purchase order document (src/models/OrdenCompra.js) and its pre-save
    hook, which stores the order total. */
module OrdenesCompra {
  import opened Comun

  datatype EstadoOrden = Pendiente | Procesada | Recibida | Cancelada

  /** A line's unit price is optional. */
  datatype LineaOrden = LineaOrden(producto: Id, cantidad: int, precioUnitario: Option<int>)

  datatype OrdenCompra = OrdenCompra(
    proveedor: Id,
    usuario: Id,
    productos: seq<LineaOrden>,
    total: int,
    estado: EstadoOrden,
    observaciones: string)

  /** What one line adds: `cantidad * (precioUnitario || 0)`. */
  function ValorLinea(l: LineaOrden): int {
    l.cantidad * l.precioUnitario.GetOr(0)
  }

  /** The `reduce` of the hook over the lines, in order. */
  function TotalOrden(ls: seq<LineaOrden>): int
    decreases |ls|
  {
    if ls == [] then 0 else TotalOrden(ls[..|ls| - 1]) + ValorLinea(ls[|ls| - 1])
  }

  /** Appending a line adds its value; a line without a price adds nothing. */
  lemma TotalOrdenAgregar(ls: seq<LineaOrden>, l: LineaOrden)
    ensures TotalOrden(ls + [l]) == TotalOrden(ls) + ValorLinea(l)
    ensures l.precioUnitario.None? ==> TotalOrden(ls + [l]) == TotalOrden(ls)
  {
    assert (ls + [l])[..|ls|] == ls;
  }

  /** The schema's validators: quantities at least 1, prices at least 0. */
  predicate LineasValidas(ls: seq<LineaOrden>) {
    forall i :: 0 <= i < |ls| ==>
      ls[i].cantidad >= 1 && (ls[i].precioUnitario.Some? ==> ls[i].precioUnitario.value >= 0)
  }

  /** Valid lines make a total of at least 0. */
  lemma {:induction false} TotalOrdenNoNegativo(ls: seq<LineaOrden>)
    requires LineasValidas(ls)
    ensures TotalOrden(ls) >= 0
  {
    if ls != [] {
      var l := ls[|ls| - 1];
      assert LineasValidas(ls[..|ls| - 1]) by {
        forall i | 0 <= i < |ls| - 1 ensures ls[..|ls| - 1][i] == ls[i] { }
      }
      TotalOrdenNoNegativo(ls[..|ls| - 1]);
      assert ValorLinea(l) >= 0 by {
        assert l.cantidad >= 1 && l.precioUnitario.GetOr(0) >= 0;
      }
    }
  }

  /** The pre-save hook: the total is recomputed from the lines; nothing else changes. */
  function OrdenGuardada(o: OrdenCompra): (r: OrdenCompra)
    ensures r.(total := o.total) == o
    ensures r.total == TotalOrden(o.productos)
    ensures LineasValidas(o.productos) ==> r.total >= 0
  {
    TotalOrdenNoNegativoSiValidas(o.productos);
    o.(total := TotalOrden(o.productos))
  }

  lemma TotalOrdenNoNegativoSiValidas(ls: seq<LineaOrden>)
    ensures LineasValidas(ls) ==> TotalOrden(ls) >= 0
  {
    if LineasValidas(ls) {
      TotalOrdenNoNegativo(ls);
    }
  }

  /** Saving twice stores the same total. */
  lemma OrdenGuardadaIdempotente(o: OrdenCompra)
    ensures OrdenGuardada(OrdenGuardada(o)) == OrdenGuardada(o)
  {
  }

  /** A new order starts in state Pendiente with the total of its lines. */
  function Nueva(proveedor: Id, usuario: Id, lineas: seq<LineaOrden>): (o: OrdenCompra)
    ensures o.estado == Pendiente && o.productos == lineas
    ensures o.total == TotalOrden(lineas)
    ensures LineasValidas(lineas) ==> o.total >= 0
  {
    OrdenGuardada(OrdenCompra(proveedor, usuario, lineas, 0, Pendiente, ""))
  }
}
