/** The logic of src/controllers/ventaController.js: posting a sale (pricing
    each item, deducting stock floor first, charging a credit sale to the
    customer, recording the sale) and settling a credit sale. The store method
    `Tienda.Tienda.CrearVenta` performs the same steps on the store's state and
    is proved equal to `PostearVenta`. */
module ControladorVentas {
  import opened Comun
  import opened Productos
  import opened Ventas
  import Clientes
  import Cajas
  import ControladorCajas
  import ControladorClientes

  function IntMax(a: int, b: int): int {
    if a >= b then a else b
  }

  /** The deduction of one item: from the floor while it lasts, the rest from
      the warehouse. */
  function DescontarSalaPrimero(p: Producto, q: int): (r: Producto)
    ensures r.stockSala == IntMax(0, p.stockSala - q)
    ensures r.stockBodega == p.stockBodega - IntMax(0, q - p.stockSala)
    ensures StockTotal(r) == StockTotal(p) - q
    ensures r.stockBodega != p.stockBodega ==> r.stockSala == 0
    ensures p.stockSala >= 0 && p.stockBodega >= 0 && q <= StockTotal(p) ==> r.stockSala >= 0 && r.stockBodega >= 0
    ensures r.(stockSala := p.stockSala, stockBodega := p.stockBodega) == p
  {
    if p.stockSala >= q then p.(stockSala := p.stockSala - q)
    else p.(stockSala := 0, stockBodega := p.stockBodega - (q - p.stockSala))
  }

  /** Floor 3, warehouse 5, selling 5: the floor is emptied and 2 come from the warehouse. */
  lemma EscenarioDescuento(p: Producto)
    requires p.stockSala == 3 && p.stockBodega == 5
    ensures DescontarSalaPrimero(p, 5).stockSala == 0 && DescontarSalaPrimero(p, 5).stockBodega == 3
  {
  }

  /** One element of the request's `productos`. */
  datatype ItemPedido = ItemPedido(producto: Id, cantidad: int)

  /** The loop's state: the product collection as saved so far, the sale lines
      pushed so far and the running `subtotalVenta`. */
  datatype Paso = Paso(productos: seq<Producto>, lineas: seq<LineaVenta>, subtotal: real)

  /** The loop either goes on or returns early with an error, leaving the
      products as saved up to that point. */
  datatype Avance = Sigue(paso: Paso) | Corte(error: Error, productos: seq<Producto>)

  function ProductosDe(a: Avance): seq<Producto> {
    match a
    case Sigue(p) => p.productos
    case Corte(_, ps) => ps
  }

  /** The line pushed for an item: the product's current sale price and
      price times quantity. */
  function Linea(ps: seq<Producto>, item: ItemPedido): LineaVenta
    requires item.producto < |ps|
  {
    var p := ps[item.producto];
    LineaVenta(item.producto, item.cantidad, p.precioVenta, p.precioVenta * item.cantidad as real)
  }

  /** One iteration of the loop: look the product up, check total stock, push
      the line, deduct floor first and save the product. A failing iteration
      saves nothing. */
  function ProcesarItem(paso: Paso, item: ItemPedido): (r: Avance)
    ensures r.Corte? ==> r.productos == paso.productos
    ensures item.producto >= |paso.productos| ==> r == Corte(NotFound, paso.productos)
    ensures item.producto < |paso.productos| && StockTotal(paso.productos[item.producto]) < item.cantidad ==>
              r == Corte(InsufficientStock, paso.productos)
    ensures r.Corte? ==> r.error in {NotFound, InsufficientStock, ValidationError}
  {
    if item.producto >= |paso.productos| then Corte(NotFound, paso.productos)
    else
      var p := paso.productos[item.producto];
      if StockTotal(p) < item.cantidad then Corte(InsufficientStock, paso.productos)
      else
        var linea := Linea(paso.productos, item);
        match Productos.Guardar(DescontarSalaPrimero(p, item.cantidad))
        case Failure(e) => Corte(e, paso.productos)
        case Success(q) =>
          Sigue(Paso(paso.productos[item.producto := q], paso.lineas + [linea], paso.subtotal + linea.subtotal))
  }

  /** An iteration whose product exists, has the stock, and saves as `q`
      goes on with `q` stored and the line pushed. */
  lemma ProcesarItemGuardado(paso: Paso, item: ItemPedido, q: Producto)
    requires item.producto < |paso.productos| && StockTotal(paso.productos[item.producto]) >= item.cantidad
    requires Productos.Guardar(DescontarSalaPrimero(paso.productos[item.producto], item.cantidad)) == Success(q)
    ensures ProcesarItem(paso, item)
            == Sigue(Paso(paso.productos[item.producto := q], paso.lineas + [Linea(paso.productos, item)],
                          paso.subtotal + Linea(paso.productos, item).subtotal))
  {
  }

  /** The `for` loop over the request's items. */
  function ProcesarItems(paso: Paso, items: seq<ItemPedido>): Avance
    decreases |items|
  {
    if items == [] then Sigue(paso)
    else
      match ProcesarItem(paso, items[0])
      case Corte(e, ps) => Corte(e, ps)
      case Sigue(siguiente) => ProcesarItems(siguiente, items[1..])
  }

  /** The loop from item `i` on: one item's outcome, then the rest. */
  lemma ProcesarItemsPaso(paso: Paso, items: seq<ItemPedido>, i: nat)
    requires i < |items|
    ensures ProcesarItem(paso, items[i]).Corte? ==> ProcesarItems(paso, items[i..]) == ProcesarItem(paso, items[i])
    ensures ProcesarItem(paso, items[i]).Sigue? ==>
              ProcesarItems(paso, items[i..]) == ProcesarItems(ProcesarItem(paso, items[i]).paso, items[i + 1..])
  {
    assert items[i..][0] == items[i] && items[i..][1..] == items[i + 1..];
  }

  /** The quantity the items ask of product `id`, repeated references added up. */
  function Pedido(items: seq<ItemPedido>, id: Id): int
    decreases |items|
  {
    if items == [] then 0
    else (if items[0].producto == id then items[0].cantidad else 0) + Pedido(items[1..], id)
  }

  /** Only the stock counters of a product changed. */
  predicate SoloStock(p: Producto, q: Producto) {
    q.(stockSala := p.stockSala, stockBodega := p.stockBodega) == p
  }

  /** With a saved catalogue, an item that goes through deducts exactly its
      quantity, floor first; the saved product is the deducted one, and the
      line carries the price the product had. */
  lemma ProcesarItemPaso(paso: Paso, item: ItemPedido)
    requires Catalogo(paso.productos)
    requires ProcesarItem(paso, item).Sigue?
    ensures item.producto < |paso.productos|
    ensures var q := ProcesarItem(paso, item).paso;
              && q.productos == paso.productos[item.producto :=
                   DescontarSalaPrimero(paso.productos[item.producto], item.cantidad)]
              && q.lineas == paso.lineas + [Linea(paso.productos, item)]
              && q.subtotal == paso.subtotal + Linea(paso.productos, item).subtotal
              && Catalogo(q.productos)
  {
    var p := paso.productos[item.producto];
    var d := DescontarSalaPrimero(p, item.cantidad);
    assert Productos.Guardar(d).Success?;
    GuardarConservaConsistente(d);
  }

  /** The loop over a concatenation is the loop over the first part followed
      by the loop over the second. */
  lemma {:induction false} ProcesarItemsConcat(paso: Paso, a: seq<ItemPedido>, b: seq<ItemPedido>)
    ensures ProcesarItems(paso, a + b) ==
            match ProcesarItems(paso, a)
            case Corte(e, ps) => Corte(e, ps)
            case Sigue(q) => ProcesarItems(q, b)
    decreases |a|
  {
    if a == [] {
      assert a + b == b;
    } else {
      assert (a + b)[0] == a[0] && (a + b)[1..] == a[1..] + b;
      match ProcesarItem(paso, a[0])
      case Corte(_, _) =>
      case Sigue(siguiente) => ProcesarItemsConcat(siguiente, a[1..], b);
    }
  }

  /** The loop returns early only with the errors of one iteration. */
  lemma {:induction false} ProcesarItemsErrores(paso: Paso, items: seq<ItemPedido>)
    ensures ProcesarItems(paso, items).Corte? ==>
              ProcesarItems(paso, items).error in {NotFound, InsufficientStock, ValidationError}
    decreases |items|
  {
    if items != [] {
      match ProcesarItem(paso, items[0])
      case Corte(_, _) =>
      case Sigue(siguiente) => ProcesarItemsErrores(siguiente, items[1..]);
    }
  }

  /** Item `m` is the one the loop stops at: the items before it all went
      through, and their deductions are what the products hold afterwards. */
  predicate CorteEn(paso: Paso, items: seq<ItemPedido>, m: nat)
    requires m < |items|
  {
    var pre := ProcesarItems(paso, items[..m]);
    && pre.Sigue?
    && ProcesarItem(pre.paso, items[m]).Corte?
    && ProcesarItems(paso, items) == Corte(ProcesarItem(pre.paso, items[m]).error, pre.paso.productos)
  }

  /** Posting is not atomic: when the loop stops early, the products keep the
      deductions of every item before the failing one. */
  lemma {:induction false} ProcesarItemsCorte(paso: Paso, items: seq<ItemPedido>)
    requires ProcesarItems(paso, items).Corte?
    ensures exists m :: 0 <= m < |items| && CorteEn(paso, items, m)
    decreases |items|
  {
    assert items != [];
    match ProcesarItem(paso, items[0])
    case Corte(_, _) =>
      assert items[..0] == [];
      assert CorteEn(paso, items, 0);
    case Sigue(siguiente) =>
      ProcesarItemsCorte(siguiente, items[1..]);
      var m' :| 0 <= m' < |items[1..]| && CorteEn(siguiente, items[1..], m');
      CorteEnSiguiente(paso, items, siguiente, m');
  }

  /** A cut at item `m` of the rest is a cut at item `m + 1` of the whole. */
  lemma CorteEnSiguiente(paso: Paso, items: seq<ItemPedido>, siguiente: Paso, m: nat)
    requires items != [] && ProcesarItem(paso, items[0]) == Sigue(siguiente)
    requires m < |items| - 1 && CorteEn(siguiente, items[1..], m)
    ensures CorteEn(paso, items, m + 1)
  {
    assert items[..m + 1] == [items[0]] + items[1..][..m];
    ProcesarItemsConcat(paso, [items[0]], items[1..][..m]);
    assert ProcesarItems(paso, [items[0]]) == Sigue(siguiente) by {
      assert [items[0]][1..] == [];
    }
    assert items[m + 1] == items[1..][m];
  }

  /** The products the loop leaves are a saved catalogue of the same size,
      whether it finishes or stops early. */
  lemma {:induction false} ProcesarItemsCatalogo(paso: Paso, items: seq<ItemPedido>)
    requires Catalogo(paso.productos)
    ensures |ProductosDe(ProcesarItems(paso, items))| == |paso.productos|
    ensures Catalogo(ProductosDe(ProcesarItems(paso, items)))
    decreases |items|
  {
    if items != [] {
      match ProcesarItem(paso, items[0])
      case Corte(_, _) =>
      case Sigue(siguiente) =>
        ProcesarItemPaso(paso, items[0]);
        ProcesarItemsCatalogo(siguiente, items[1..]);
    }
  }

  /** Stock conservation: when every item goes through, each product's total
      stock drops by exactly the quantity asked of it, and nothing but its stock
      counters changes. */
  lemma {:induction false} ProcesarItemsStock(paso: Paso, items: seq<ItemPedido>)
    requires Catalogo(paso.productos)
    requires ProcesarItems(paso, items).Sigue?
    ensures var q := ProcesarItems(paso, items).paso;
              && |q.productos| == |paso.productos|
              && forall id :: 0 <= id < |q.productos| ==>
                   StockTotal(q.productos[id]) == StockTotal(paso.productos[id]) - Pedido(items, id)
                   && SoloStock(paso.productos[id], q.productos[id])
    decreases |items|
  {
    if items != [] {
      var siguiente := ProcesarItem(paso, items[0]).paso;
      ProcesarItemPaso(paso, items[0]);
      ProcesarItemsStock(siguiente, items[1..]);
    }
  }

  /** The loop pushes one line per item after the lines it started with. */
  lemma {:induction false} ProcesarItemsLargo(paso: Paso, items: seq<ItemPedido>)
    requires ProcesarItems(paso, items).Sigue?
    ensures |ProcesarItems(paso, items).paso.lineas| == |paso.lineas| + |items|
    ensures ProcesarItems(paso, items).paso.lineas[..|paso.lineas|] == paso.lineas
    decreases |items|
  {
    if items != [] {
      var siguiente := ProcesarItem(paso, items[0]).paso;
      ProcesarItemsLargo(siguiente, items[1..]);
      var q := ProcesarItems(paso, items).paso;
      var n := |paso.lineas|;
      assert q.lineas[..n + 1][..n] == q.lineas[..n];
    }
  }

  /** The lines: one per item, in order, each priced from the catalogue as it
      was before the sale. */
  lemma {:induction false} ProcesarItemsLineas(paso: Paso, items: seq<ItemPedido>)
    requires Catalogo(paso.productos)
    requires ProcesarItems(paso, items).Sigue?
    ensures var q := ProcesarItems(paso, items).paso;
              && |q.lineas| == |paso.lineas| + |items|
              && q.lineas[..|paso.lineas|] == paso.lineas
              && forall k :: 0 <= k < |items| ==>
                   items[k].producto < |paso.productos| && q.lineas[|paso.lineas| + k] == Linea(paso.productos, items[k])
    decreases |items|
  {
    ProcesarItemsLargo(paso, items);
    if items != [] {
      var siguiente := ProcesarItem(paso, items[0]).paso;
      ProcesarItemPaso(paso, items[0]);
      ProcesarItemsLineas(siguiente, items[1..]);
      var q := ProcesarItems(paso, items).paso;
      var n := |paso.lineas|;
      forall k | 0 <= k < |items|
        ensures items[k].producto < |paso.productos| && q.lineas[n + k] == Linea(paso.productos, items[k])
      {
        if k == 0 {
          assert q.lineas[n] == q.lineas[..n + 1][n];
        } else {
          assert items[k] == items[1..][k - 1];
          MismoPrecio(paso, items[0], items[k]);
        }
      }
    }
  }

  /** An iteration that goes through changes no product's price, so a later
      line is priced as the catalogue was before. */
  lemma MismoPrecio(paso: Paso, item: ItemPedido, otro: ItemPedido)
    requires Catalogo(paso.productos)
    requires ProcesarItem(paso, item).Sigue?
    requires otro.producto < |ProcesarItem(paso, item).paso.productos|
    ensures otro.producto < |paso.productos|
    ensures Linea(ProcesarItem(paso, item).paso.productos, otro) == Linea(paso.productos, otro)
  {
    ProcesarItemPaso(paso, item);
  }

  /** The running `subtotalVenta` is the sum of the pushed lines' subtotals. */
  lemma {:induction false} ProcesarItemsSubtotal(paso: Paso, items: seq<ItemPedido>)
    requires ProcesarItems(paso, items).Sigue?
    requires paso.subtotal == SumaSubtotales(paso.lineas)
    ensures ProcesarItems(paso, items).paso.subtotal == SumaSubtotales(ProcesarItems(paso, items).paso.lineas)
    decreases |items|
  {
    if items != [] {
      var siguiente := ProcesarItem(paso, items[0]).paso;
      SumaSubtotalesAgregar(paso.lineas, siguiente.lineas[|siguiente.lineas| - 1]);
      assert siguiente.lineas == paso.lineas + [siguiente.lineas[|siguiente.lineas| - 1]];
      ProcesarItemsSubtotal(siguiente, items[1..]);
    }
  }

  /** The outcome of posting: the products and customers as the handler leaves
      them saved, and the recorded sale or the error it answers with. */
  datatype Posteo = Posteo(productos: seq<Producto>, clientes: seq<Clientes.Cliente>, venta: Result<Venta>)

  /** `Venta.create`: the customer only on a credit sale, the amount tendered
      only on a sale whose request says Contado. */
  function Registrar(paso: Paso, cs: seq<Clientes.Cliente>, usuario: Id, caja: Id, tipo: Option<string>,
                     cliente: Option<Id>, monto: Option<real>, ahora: int): Posteo
  {
    match TipoDesdeTexto(tipo)
    case None => Posteo(paso.productos, cs, Failure(ValidationError))
    case Some(t) =>
      var doc := Nueva(usuario, caja, paso.lineas, t,
                       if tipo == Some("Credito") then cliente else None,
                       if tipo == Some("Contado") then monto else None, ahora);
      Posteo(paso.productos, cs, Ventas.Guardar(doc))
  }

  /** The credit branch: look the customer up, check the limit against
      `subtotalVenta`, add it to the debt and save the customer; then record. */
  function Cobrar(paso: Paso, cs: seq<Clientes.Cliente>, usuario: Id, caja: Id, tipo: Option<string>,
                  cliente: Option<Id>, monto: Option<real>, ahora: int): Posteo
  {
    if tipo == Some("Credito") then
      if cliente.None? || cliente.value >= |cs| then Posteo(paso.productos, cs, Failure(NotFound))
      else
        var c := cs[cliente.value];
        if !Clientes.PuedeComprarCredito(c, paso.subtotal) then
          Posteo(paso.productos, cs, Failure(CreditLimitExceeded))
        else
          match Clientes.Guardar(c.(deudaTotal := c.deudaTotal + paso.subtotal))
          case Failure(e) => Posteo(paso.productos, cs, Failure(e))
          case Success(c2) => Registrar(paso, cs[cliente.value := c2], usuario, caja, tipo, cliente, monto, ahora)
    else
      Registrar(paso, cs, usuario, caja, tipo, cliente, monto, ahora)
  }

  /** `crearVenta`: refused before touching anything when the operator has no
      open register; then the item loop, the credit branch and the record. */
  function PostearVenta(ps: seq<Producto>, cs: seq<Clientes.Cliente>, cajas: seq<Cajas.Caja>, usuario: Id,
                        items: seq<ItemPedido>, tipo: Option<string>, cliente: Option<Id>,
                        monto: Option<real>, ahora: int): (r: Posteo)
    ensures ControladorCajas.CajaAbiertaDe(cajas, usuario).None? ==> r == Posteo(ps, cs, Failure(NoOpenRegister))
    ensures r.venta.Success? ==> ControladorCajas.CajaAbiertaDe(cajas, usuario).Some?
                                 && r.venta.value.caja == ControladorCajas.CajaAbiertaDe(cajas, usuario).value
                                 && r.venta.value.usuario == usuario && r.venta.value.creado == ahora
    ensures tipo != Some("Credito") ==> r.clientes == cs
  {
    match ControladorCajas.CajaAbiertaDe(cajas, usuario)
    case None => Posteo(ps, cs, Failure(NoOpenRegister))
    case Some(caja) =>
      match ProcesarItems(Paso(ps, [], 0.0), items)
      case Corte(e, ps2) => Posteo(ps2, cs, Failure(e))
      case Sigue(paso) => Cobrar(paso, cs, usuario, caja, tipo, cliente, monto, ahora)
  }

  /** The state of the loop once every item went through. */
  function PasoFinal(ps: seq<Producto>, items: seq<ItemPedido>): Paso
    requires ProcesarItems(Paso(ps, [], 0.0), items).Sigue?
  {
    ProcesarItems(Paso(ps, [], 0.0), items).paso
  }

  /** What a recorded sale is made of: the loop went through every item, the
      products are those it saved, and the sale's lines are those it pushed,
      each with a quantity of at least 1, summing to the total. */
  lemma PostearVentaPaso(ps: seq<Producto>, cs: seq<Clientes.Cliente>, cajas: seq<Cajas.Caja>, usuario: Id,
                         items: seq<ItemPedido>, tipo: Option<string>, cliente: Option<Id>,
                         monto: Option<real>, ahora: int)
    requires PostearVenta(ps, cs, cajas, usuario, items, tipo, cliente, monto, ahora).venta.Success?
    ensures ProcesarItems(Paso(ps, [], 0.0), items).Sigue?
    ensures var r := PostearVenta(ps, cs, cajas, usuario, items, tipo, cliente, monto, ahora);
            var v := r.venta.value;
              && r.productos == PasoFinal(ps, items).productos
              && v.productos == PasoFinal(ps, items).lineas
              && (forall k :: 0 <= k < |v.productos| ==> v.productos[k].cantidad >= 1)
              && v.subtotal == SumaSubtotales(v.productos) && v.total == v.subtotal
              && (v.cliente.Some? <==> v.tipoVenta == Credito)
  {
  }

  /** A recorded sale: every item went through, so the products hold exactly
      their deductions; there is one line per item, priced from the catalogue
      as it was before the sale, each for at least one unit. */
  lemma PostearVentaRegistro(ps: seq<Producto>, cs: seq<Clientes.Cliente>, cajas: seq<Cajas.Caja>, usuario: Id,
                             items: seq<ItemPedido>, tipo: Option<string>, cliente: Option<Id>,
                             monto: Option<real>, ahora: int)
    requires Catalogo(ps)
    requires PostearVenta(ps, cs, cajas, usuario, items, tipo, cliente, monto, ahora).venta.Success?
    ensures var r := PostearVenta(ps, cs, cajas, usuario, items, tipo, cliente, monto, ahora);
              && |r.productos| == |ps| && Catalogo(r.productos)
              && forall id :: 0 <= id < |ps| ==>
                   StockTotal(r.productos[id]) == StockTotal(ps[id]) - Pedido(items, id)
                   && SoloStock(ps[id], r.productos[id])
    ensures var v := PostearVenta(ps, cs, cajas, usuario, items, tipo, cliente, monto, ahora).venta.value;
              && |v.productos| == |items|
              && forall k :: 0 <= k < |items| ==>
                   items[k].producto < |ps| && v.productos[k] == Linea(ps, items[k]) && items[k].cantidad >= 1
  {
    PostearVentaPaso(ps, cs, cajas, usuario, items, tipo, cliente, monto, ahora);
    PasoFinalRegistro(ps, items);
  }

  /** The loop's final state when every item went through, over a saved catalogue. */
  lemma PasoFinalRegistro(ps: seq<Producto>, items: seq<ItemPedido>)
    requires Catalogo(ps)
    requires ProcesarItems(Paso(ps, [], 0.0), items).Sigue?
    ensures var q := PasoFinal(ps, items);
              && |q.productos| == |ps| && Catalogo(q.productos)
              && (forall id :: 0 <= id < |ps| ==>
                    StockTotal(q.productos[id]) == StockTotal(ps[id]) - Pedido(items, id)
                    && SoloStock(ps[id], q.productos[id]))
              && |q.lineas| == |items|
              && forall k :: 0 <= k < |items| ==> items[k].producto < |ps| && q.lineas[k] == Linea(ps, items[k])
  {
    var paso0 := Paso(ps, [], 0.0);
    ProcesarItemsStock(paso0, items);
    ProcesarItemsCatalogo(paso0, items);
    PasoFinalLineas(ps, items);
  }

  lemma PasoFinalLineas(ps: seq<Producto>, items: seq<ItemPedido>)
    requires Catalogo(ps)
    requires ProcesarItems(Paso(ps, [], 0.0), items).Sigue?
    ensures |PasoFinal(ps, items).lineas| == |items|
    ensures forall k :: 0 <= k < |items| ==> items[k].producto < |ps| && PasoFinal(ps, items).lineas[k] == Linea(ps, items[k])
  {
    var paso0 := Paso(ps, [], 0.0);
    ProcesarItemsLineas(paso0, items);
    var q := PasoFinal(ps, items);
    assert forall k :: 0 <= k < |items| ==> q.lineas[0 + k] == q.lineas[k];
  }

  /** A recorded credit sale: its customer exists, the debt rose by exactly the
      sale's total and stays within the limit, no other customer and no other
      field changed, and the sale awaits payment. */
  lemma PostearVentaCredito(ps: seq<Producto>, cs: seq<Clientes.Cliente>, cajas: seq<Cajas.Caja>, usuario: Id,
                            items: seq<ItemPedido>, tipo: Option<string>, cliente: Option<Id>,
                            monto: Option<real>, ahora: int)
    requires PostearVenta(ps, cs, cajas, usuario, items, tipo, cliente, monto, ahora).venta.Success?
    requires PostearVenta(ps, cs, cajas, usuario, items, tipo, cliente, monto, ahora).venta.value.tipoVenta == Credito
    ensures tipo == Some("Credito") && cliente.Some? && cliente.value < |cs|
    ensures var r := PostearVenta(ps, cs, cajas, usuario, items, tipo, cliente, monto, ahora);
            var v := r.venta.value;
            var c := cliente.value;
              && v.cliente == cliente && v.estadoPago == Pendiente && v.montoRecibido.None?
              && |r.clientes| == |cs|
              && r.clientes[c].deudaTotal == cs[c].deudaTotal + v.total
              && r.clientes[c].deudaTotal <= r.clientes[c].limiteCredito
              && r.clientes[c].(deudaTotal := cs[c].deudaTotal) == cs[c]
              && forall j :: 0 <= j < |cs| && j != c ==> r.clientes[j] == cs[j]
  {
    var paso0 := Paso(ps, [], 0.0);
    assert ProcesarItems(paso0, items).Sigue?;
    ProcesarItemsSubtotal(paso0, items);
  }

  /** A recorded cash sale changes no customer, is paid, has no customer, and
      carries the amount tendered only when the request named Contado; a
      nonzero amount tendered gives the change. */
  lemma PostearVentaContado(ps: seq<Producto>, cs: seq<Clientes.Cliente>, cajas: seq<Cajas.Caja>, usuario: Id,
                            items: seq<ItemPedido>, tipo: Option<string>, cliente: Option<Id>,
                            monto: Option<real>, ahora: int)
    requires PostearVenta(ps, cs, cajas, usuario, items, tipo, cliente, monto, ahora).venta.Success?
    requires PostearVenta(ps, cs, cajas, usuario, items, tipo, cliente, monto, ahora).venta.value.tipoVenta == Contado
    ensures tipo == None || tipo == Some("Contado")
    ensures var r := PostearVenta(ps, cs, cajas, usuario, items, tipo, cliente, monto, ahora);
            var v := r.venta.value;
              && r.clientes == cs && v.cliente.None? && v.estadoPago == Pagada
              && (tipo == Some("Contado") ==> v.montoRecibido == monto)
              && (tipo == None ==> v.montoRecibido.None?)
              && (v.montoRecibido.Some? && v.montoRecibido.value != 0.0 ==> v.vuelto + v.total == v.montoRecibido.value)
  {
  }

  /** A credit charge the limit refuses still leaves every item's deduction
      saved: the products are exactly as the whole loop left them, while no
      customer changes. */
  lemma PostearVentaCreditoRechazado(ps: seq<Producto>, cs: seq<Clientes.Cliente>, cajas: seq<Cajas.Caja>,
                                     usuario: Id, items: seq<ItemPedido>, tipo: Option<string>,
                                     cliente: Option<Id>, monto: Option<real>, ahora: int)
    requires Catalogo(ps)
    requires PostearVenta(ps, cs, cajas, usuario, items, tipo, cliente, monto, ahora).venta
             == Failure(CreditLimitExceeded)
    ensures var r := PostearVenta(ps, cs, cajas, usuario, items, tipo, cliente, monto, ahora);
              && r.clientes == cs && |r.productos| == |ps|
              && forall id :: 0 <= id < |ps| ==> StockTotal(r.productos[id]) == StockTotal(ps[id]) - Pedido(items, id)
  {
    var paso0 := Paso(ps, [], 0.0);
    var r := PostearVenta(ps, cs, cajas, usuario, items, tipo, cliente, monto, ahora);
    ProcesarItemsErrores(paso0, items);
    assert ProcesarItems(paso0, items).Sigue?;
    assert r.productos == ProcesarItems(paso0, items).paso.productos;
    ProcesarItemsStock(paso0, items);
  }

  /** Posting that stops at an item keeps the deductions of the items before
      it: the products are those the loop over that prefix saved. */
  lemma PostearVentaCorte(ps: seq<Producto>, cs: seq<Clientes.Cliente>, cajas: seq<Cajas.Caja>, usuario: Id,
                          items: seq<ItemPedido>, tipo: Option<string>, cliente: Option<Id>,
                          monto: Option<real>, ahora: int)
    requires ControladorCajas.CajaAbiertaDe(cajas, usuario).Some?
    requires ProcesarItems(Paso(ps, [], 0.0), items).Corte?
    ensures exists m :: 0 <= m < |items| && CorteEn(Paso(ps, [], 0.0), items, m)
              && PostearVenta(ps, cs, cajas, usuario, items, tipo, cliente, monto, ahora)
                 == Posteo(ProcesarItems(Paso(ps, [], 0.0), items[..m]).paso.productos, cs,
                           Failure(ProcesarItems(Paso(ps, [], 0.0), items).error))
  {
    ProcesarItemsCorte(Paso(ps, [], 0.0), items);
  }

  /** Floor 3 and warehouse 5 at price 3000, a customer owing 90000 of a
      100000 limit, a credit sale of 5 units: the charge of 15000 is refused,
      yet the floor is already empty and the warehouse down to 3. */
  lemma EscenarioCreditoNoAtomico(p: Producto, c: Clientes.Cliente, caja: Cajas.Caja)
    requires ProductoValido(p) && PrecioConsistente(p)
    requires p.stockSala == 3 && p.stockBodega == 5 && p.precioCosto == 3000 && p.porcentajeMargen == 0
    requires c.deudaTotal == 90000.0 && c.limiteCredito == 100000.0
    requires caja.usuario == 7 && caja.estado == Cajas.Abierta
    ensures var r := PostearVenta([p], [c], [caja], 7, [ItemPedido(0, 5)], Some("Credito"), Some(0), None, 0);
              && r.venta == Failure(CreditLimitExceeded)
              && r.clientes == [c]
              && r.productos[0].stockSala == 0 && r.productos[0].stockBodega == 3
  {
    var paso0 := Paso([p], [], 0.0);
    var items := [ItemPedido(0, 5)];
    assert ControladorCajas.CajaAbiertaDe([caja], 7) == Some(0);
    assert p.precioVenta == 3000.0;
    var d := DescontarSalaPrimero(p, 5);
    GuardarConservaConsistente(d);
    assert items[1..] == [];
    var paso1 := Paso([d], [Linea([p], items[0])], 15000.0);
    assert ProcesarItem(paso0, items[0]) == Sigue(paso1) by {
      assert [p][0 := d] == [d];
    }
    assert ProcesarItems(paso0, items) == Sigue(paso1);
  }

  /** A quantity of -2 passes the stock check and raises the floor stock by 2;
      only the sale record then fails validation, and the raised stock stays. */
  lemma EscenarioCantidadNegativa(p: Producto, caja: Cajas.Caja)
    requires ProductoValido(p) && PrecioConsistente(p)
    requires p.stockSala == 3 && p.stockBodega == 5
    requires caja.usuario == 7 && caja.estado == Cajas.Abierta
    ensures var r := PostearVenta([p], [], [caja], 7, [ItemPedido(0, -2)], None, None, None, 0);
              && r.venta == Failure(ValidationError)
              && r.productos[0].stockSala == 5 && r.productos[0].stockBodega == 5
  {
    var paso0 := Paso([p], [], 0.0);
    var items := [ItemPedido(0, -2)];
    assert ControladorCajas.CajaAbiertaDe([caja], 7) == Some(0);
    var d := DescontarSalaPrimero(p, -2);
    GuardarConservaConsistente(d);
    assert items[1..] == [];
    var paso1 := Paso([d], [Linea([p], items[0])], p.precioVenta * -2.0);
    assert ProcesarItem(paso0, items[0]) == Sigue(paso1) by {
      assert [p][0 := d] == [d];
    }
    assert ProcesarItems(paso0, items) == Sigue(paso1);
  }

  /** The outcome of settling: customers and sales as left saved, and the
      settled sale or the error. */
  datatype Liquidacion = Liquidacion(clientes: seq<Clientes.Cliente>, ventas: seq<Venta>, venta: Result<Venta>)

  /** `pagarVentaCredito` for sale `id`. The customer's debt is lowered by the
      sale's total and the customer saved; then the sale is marked Pagada and
      saved, which runs the sale hook. `corregido` selects the hook: false is
      the hook as written (`VentaGuardada`), true the corrected one
      (`VentaGuardadaCorregida` on a document that is not new). A sale whose
      customer is missing makes the handler dereference null. */
  function PagarVentaCredito(vs: seq<Venta>, cs: seq<Clientes.Cliente>, id: Id, corregido: bool): (r: Liquidacion)
    ensures id >= |vs| ==> r == Liquidacion(cs, vs, Failure(NotFound))
    ensures id < |vs| && vs[id].tipoVenta != Credito ==> r == Liquidacion(cs, vs, Failure(NotCreditSale))
    ensures id < |vs| && vs[id].tipoVenta == Credito && vs[id].estadoPago == Pagada ==>
              r == Liquidacion(cs, vs, Failure(AlreadyPaid))
    ensures id < |vs| && vs[id].tipoVenta == Credito && vs[id].estadoPago == Pendiente
            && (vs[id].cliente.None? || vs[id].cliente.value >= |cs|)
            ==> r == Liquidacion(cs, vs, Failure(ServerError))
    ensures id < |vs| && vs[id].tipoVenta == Credito && vs[id].estadoPago == Pendiente
            && vs[id].cliente.Some? && vs[id].cliente.value < |cs|
            && cs[vs[id].cliente.value].deudaTotal < vs[id].total
            ==> r == Liquidacion(cs, vs, Failure(ValidationError))
    ensures r.venta.Failure? ==> r.ventas == vs
    ensures r.venta.Failure? && r.clientes != cs ==>
              && r.venta.error == ValidationError
              && id < |vs| && vs[id].cliente.Some? && vs[id].cliente.value < |cs|
              && var c := vs[id].cliente.value;
                 r.clientes == cs[c := cs[c].(deudaTotal := cs[c].deudaTotal - vs[id].total)]
    ensures r.venta.Success? ==>
              && id < |vs| && vs[id].tipoVenta == Credito && vs[id].estadoPago == Pendiente
              && vs[id].cliente.Some? && vs[id].cliente.value < |cs|
    ensures r.venta.Success? ==> var v := vs[id]; var c := v.cliente.value;
              && |r.clientes| == |cs|
              && r.clientes[c].deudaTotal == cs[c].deudaTotal - v.total
              && r.clientes[c].(deudaTotal := cs[c].deudaTotal) == cs[c]
              && (forall j :: 0 <= j < |cs| && j != c ==> r.clientes[j] == cs[j])
              && r.ventas == vs[id := r.venta.value]
              && (!corregido ==> r.venta.value == VentaGuardada(v))
              && (corregido ==> r.venta.value == VentaGuardada(v).(estadoPago := Pagada))
  {
    if id >= |vs| then Liquidacion(cs, vs, Failure(NotFound))
    else
      var v := vs[id];
      if v.tipoVenta != Credito then Liquidacion(cs, vs, Failure(NotCreditSale))
      else if v.estadoPago == Pagada then Liquidacion(cs, vs, Failure(AlreadyPaid))
      else if v.cliente.None? || v.cliente.value >= |cs| then Liquidacion(cs, vs, Failure(ServerError))
      else
        var c := cs[v.cliente.value];
        match Clientes.Guardar(c.(deudaTotal := c.deudaTotal - v.total))
        case Failure(e) => Liquidacion(cs, vs, Failure(e))
        case Success(c2) =>
          var cs2 := cs[v.cliente.value := c2];
          var doc := v.(estadoPago := Pagada);
          if !VentaValida(doc) then Liquidacion(cs2, vs, Failure(ValidationError))
          else
            var guardada := if corregido then VentaGuardadaCorregida(doc, false) else VentaGuardada(doc);
            Liquidacion(cs2, vs[id := guardada], Success(guardada))
  }

  /** A sale as the store keeps it: it passed validation, and its hook has run. */
  predicate Guardada(v: Venta) {
    VentaValida(v) && VentaGuardada(v) == v
  }

  /** As written, a settled credit sale stays Pendiente, so settling it again
      is accepted and lowers the customer's debt a second time. */
  lemma PagoTalCualSeRepite(vs: seq<Venta>, cs: seq<Clientes.Cliente>, id: Id)
    requires id < |vs| && Guardada(vs[id])
    requires PagarVentaCredito(vs, cs, id, false).venta.Success?
    requires var c := vs[id].cliente.value;
             PagarVentaCredito(vs, cs, id, false).clientes[c].deudaTotal >= vs[id].total
    ensures var r1 := PagarVentaCredito(vs, cs, id, false);
            var r2 := PagarVentaCredito(r1.ventas, r1.clientes, id, false);
            var c := vs[id].cliente.value;
              && r1.venta.value.estadoPago == Pendiente
              && r2.venta.Success?
              && r2.clientes[c].deudaTotal == cs[c].deudaTotal - 2.0 * vs[id].total
  {
  }

  /** With the corrected hook, a settled credit sale is Pagada, and settling it
      again is refused and changes nothing. */
  lemma PagoCorregidoUnaVez(vs: seq<Venta>, cs: seq<Clientes.Cliente>, id: Id)
    requires PagarVentaCredito(vs, cs, id, true).venta.Success?
    ensures var r1 := PagarVentaCredito(vs, cs, id, true);
              && r1.venta.value.estadoPago == Pagada
              && PagarVentaCredito(r1.ventas, r1.clientes, id, true) == Liquidacion(r1.clientes, r1.ventas, Failure(AlreadyPaid))
  {
  }

  /** A pending credit sale whose paid document passes validation, owed by a
      customer whose debt covers it, is settled: exactly that customer's debt
      drops by the sale's total. */
  lemma PagoAceptado(vs: seq<Venta>, cs: seq<Clientes.Cliente>, id: Id, corregido: bool)
    requires id < |vs| && vs[id].tipoVenta == Credito && vs[id].estadoPago == Pendiente
    requires vs[id].cliente.Some? && vs[id].cliente.value < |cs|
    requires VentaValida(vs[id].(estadoPago := Pagada))
    requires var c := cs[vs[id].cliente.value]; c.limiteCredito >= 0.0 && c.deudaTotal >= vs[id].total
    ensures var c := vs[id].cliente.value;
            var l := PagarVentaCredito(vs, cs, id, corregido);
              l.venta.Success? && l.clientes == cs[c := cs[c].(deudaTotal := cs[c].deudaTotal - vs[id].total)]
  {
  }

  /** A credit sale of 5000 whose customer has since paid 2000 of the debt
      through `registrarAbono`: the settlement's customer save is refused by
      the debt's `min: 0`, and nothing changes. */
  lemma EscenarioAbonoAntesDePago(v: Venta, c: Clientes.Cliente)
    requires v.tipoVenta == Credito && v.estadoPago == Pendiente && v.cliente == Some(0) && v.total == 5000.0
    requires Clientes.ClienteValido(c) && c.deudaTotal == 5000.0
    ensures ControladorClientes.RegistrarAbono(c, Some(2000.0)).Success?
    ensures var c' := ControladorClientes.RegistrarAbono(c, Some(2000.0)).value.0;
              && c'.deudaTotal == 3000.0
              && PagarVentaCredito([v], [c'], 0, false) == Liquidacion([c'], [v], Failure(ValidationError))
              && PagarVentaCredito([v], [c'], 0, true) == Liquidacion([c'], [v], Failure(ValidationError))
  {
  }

  /** A line priced from a saved catalogue for at least one unit is worth at least 0. */
  lemma LineaNoNegativa(ps: seq<Producto>, item: ItemPedido)
    requires Catalogo(ps) && item.producto < |ps| && item.cantidad >= 1
    ensures Linea(ps, item).subtotal >= 0.0
  {
    var p := ps[item.producto];
    assert p.precioVenta >= 0.0;
    assert p.precioVenta * item.cantidad as real >= p.precioVenta * 0.0;
  }

  /** Lines priced from a saved catalogue, each for at least one unit, add up
      to at least 0. */
  lemma {:induction false} LineasNoNegativas(ps: seq<Producto>, items: seq<ItemPedido>, ls: seq<LineaVenta>)
    requires Catalogo(ps) && |ls| == |items|
    requires forall k :: 0 <= k < |items| ==>
               items[k].producto < |ps| && ls[k] == Linea(ps, items[k]) && items[k].cantidad >= 1
    ensures SumaSubtotales(ls) >= 0.0
    decreases |ls|
  {
    if ls != [] {
      var n := |ls| - 1;
      LineaNoNegativa(ps, items[n]);
      assert forall k :: 0 <= k < n ==> items[..n][k] == items[k] && ls[..n][k] == ls[k];
      LineasNoNegativas(ps, items[..n], ls[..n]);
    }
  }

  /** The record of a credit sale: the hook applied to the new document with
      the customer and without an amount tendered. */
  lemma PostearVentaCreditoDocumento(ps: seq<Producto>, cs: seq<Clientes.Cliente>, cajas: seq<Cajas.Caja>,
                                     usuario: Id, items: seq<ItemPedido>, cliente: Option<Id>,
                                     monto: Option<real>, ahora: int)
    requires PostearVenta(ps, cs, cajas, usuario, items, Some("Credito"), cliente, monto, ahora).venta.Success?
    ensures ProcesarItems(Paso(ps, [], 0.0), items).Sigue? && ControladorCajas.CajaAbiertaDe(cajas, usuario).Some?
    ensures PostearVenta(ps, cs, cajas, usuario, items, Some("Credito"), cliente, monto, ahora).venta.value
            == VentaGuardada(Nueva(usuario, ControladorCajas.CajaAbiertaDe(cajas, usuario).value,
                                   PasoFinal(ps, items).lineas, Credito, cliente, None, ahora))
    ensures VentaValida(Nueva(usuario, ControladorCajas.CajaAbiertaDe(cajas, usuario).value,
                              PasoFinal(ps, items).lineas, Credito, cliente, None, ahora))
  {
  }

  /** The sale `PostearVenta` records on credit can be settled: its paid
      document passes validation and its total is at least 0. */
  lemma VentaCreditoLiquidable(ps: seq<Producto>, cs: seq<Clientes.Cliente>, cajas: seq<Cajas.Caja>,
                               usuario: Id, items: seq<ItemPedido>, cliente: Option<Id>, monto: Option<real>,
                               ahora: int)
    requires Catalogo(ps)
    requires PostearVenta(ps, cs, cajas, usuario, items, Some("Credito"), cliente, monto, ahora).venta.Success?
    ensures var v := PostearVenta(ps, cs, cajas, usuario, items, Some("Credito"), cliente, monto, ahora).venta.value;
              v.tipoVenta == Credito && v.estadoPago == Pendiente && v.total >= 0.0
              && VentaValida(v.(estadoPago := Pagada))
  {
    PostearVentaCreditoDocumento(ps, cs, cajas, usuario, items, cliente, monto, ahora);
    var paso0 := Paso(ps, [], 0.0);
    ProcesarItemsLineas(paso0, items);
    var ls := PasoFinal(ps, items).lineas;
    assert ls[..0] == [];
    LineasNoNegativas(ps, items, ls);
  }

  /** Charging a credit sale and then settling it returns the customers
      exactly to where they were before the sale, with either hook. */
  lemma CobroYPagoSeCancelan(ps: seq<Producto>, cs: seq<Clientes.Cliente>, cajas: seq<Cajas.Caja>, vs: seq<Venta>,
                             usuario: Id, items: seq<ItemPedido>, cliente: Option<Id>, monto: Option<real>,
                             ahora: int, corregido: bool)
    requires Catalogo(ps)
    requires forall j :: 0 <= j < |cs| ==> Clientes.ClienteValido(cs[j])
    requires PostearVenta(ps, cs, cajas, usuario, items, Some("Credito"), cliente, monto, ahora).venta.Success?
    ensures var r := PostearVenta(ps, cs, cajas, usuario, items, Some("Credito"), cliente, monto, ahora);
            var l := PagarVentaCredito(vs + [r.venta.value], r.clientes, |vs|, corregido);
              l.venta.Success? && l.clientes == cs
  {
    var r := PostearVenta(ps, cs, cajas, usuario, items, Some("Credito"), cliente, monto, ahora);
    var v := r.venta.value;
    VentaCreditoLiquidable(ps, cs, cajas, usuario, items, cliente, monto, ahora);
    PostearVentaCredito(ps, cs, cajas, usuario, items, Some("Credito"), cliente, monto, ahora);
    var c := cliente.value;
    var vs2 := vs + [v];
    assert vs2[|vs|] == v;
    PagoAceptado(vs2, r.clientes, |vs|, corregido);
    assert r.clientes[c := r.clientes[c].(deudaTotal := r.clientes[c].deudaTotal - v.total)] == cs;
  }
}
