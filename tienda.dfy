/** The store the handlers work on: one collection per model, a document's id
    being its position. Each method is one handler of the controllers: it looks
    documents up, makes the handler's checks in the handler's order, and saves
    each document when and as the handler does. */
module Tienda {
  import opened Comun
  import P = Productos
  import C = Clientes
  import K = Cajas
  import V = Ventas
  import F = Facturas
  import CP = ControladorProductos
  import CC = ControladorCajas
  import CL = ControladorClientes
  import CV = ControladorVentas
  import CF = ControladorCompras

  predicate ClientesValidos(cs: seq<C.Cliente>) {
    forall i :: 0 <= i < |cs| ==> C.ClienteValido(cs[i])
  }

  predicate CajasValidas(cajas: seq<K.Caja>) {
    (forall i :: 0 <= i < |cajas| ==> K.CajaValida(cajas[i])) && CC.UnaAbiertaPorUsuario(cajas)
  }

  class Tienda {
    var productos: seq<P.Producto>
    var clientes: seq<C.Cliente>
    var cajas: seq<K.Caja>
    var ventas: seq<V.Venta>
    var facturas: seq<F.Factura>

    /** What every save leaves true: each stored product, customer and
        register passed its validators, products carry their derived price, and
        no operator has two open registers. */
    ghost predicate Valid()
      reads this
    {
      P.Catalogo(productos) && ClientesValidos(clientes) && CajasValidas(cajas)
    }

    constructor()
      ensures productos == [] && clientes == [] && cajas == [] && ventas == [] && facturas == []
      ensures Valid()
    {
      productos, clientes, cajas, ventas, facturas := [], [], [], [], [];
    }

    // ---- productoController.js ----

    /** `crearProducto`: `Producto.create` stores the saved document. */
    method CrearProducto(p: P.Producto) returns (r: Result<Id>)
      modifies this
      ensures P.Guardar(p).Failure? ==> r == Failure(P.Guardar(p).error) && productos == old(productos)
      ensures P.Guardar(p).Success? ==> r == Success(|old(productos)|) && productos == old(productos) + [P.Guardar(p).value]
      ensures clientes == old(clientes) && cajas == old(cajas) && ventas == old(ventas) && facturas == old(facturas)
      ensures old(Valid()) ==> Valid()
    {
      var guardado := P.Guardar(p);
      if guardado.Failure? {
        return Failure(guardado.error);
      }
      r := Success(|productos|);
      productos := productos + [guardado.value];
    }

    /** `actualizarProducto`: the request's fields are assigned and the product
        saved, so the sale price is recomputed. */
    method ActualizarProducto(id: Id, cambios: CP.CambiosProducto) returns (r: Result<P.Producto>)
      modifies this
      ensures id >= |old(productos)| ==> r == Failure(NotFound)
      ensures id < |old(productos)| ==> r == CP.ActualizarProducto(old(productos)[id], cambios)
      ensures productos == if r.Success? then old(productos)[id := r.value] else old(productos)
      ensures clientes == old(clientes) && cajas == old(cajas) && ventas == old(ventas) && facturas == old(facturas)
      ensures old(Valid()) ==> Valid()
    {
      if id >= |productos| {
        return Failure(NotFound);
      }
      r := CP.ActualizarProducto(productos[id], cambios);
      if r.Success? {
        productos := productos[id := r.value];
      }
    }

    /** `actualizarStock`: the counters given overwrite the stored ones, then
        the product is saved. */
    method ActualizarStock(id: Id, stockSala: Option<int>, stockBodega: Option<int>) returns (r: Result<P.Producto>)
      modifies this
      ensures id >= |old(productos)| ==> r == Failure(NotFound)
      ensures id < |old(productos)| ==> r == P.Guardar(CP.AplicarStock(old(productos)[id], stockSala, stockBodega))
      ensures productos == if r.Success? then old(productos)[id := r.value] else old(productos)
      ensures clientes == old(clientes) && cajas == old(cajas) && ventas == old(ventas) && facturas == old(facturas)
      ensures old(Valid()) ==> Valid()
    {
      if id >= |productos| {
        return Failure(NotFound);
      }
      r := P.Guardar(CP.AplicarStock(productos[id], stockSala, stockBodega));
      if r.Success? {
        productos := productos[id := r.value];
      }
    }

    /** `eliminarProducto`: the product is marked inactive and saved. */
    method EliminarProducto(id: Id) returns (r: Result<P.Producto>)
      modifies this
      ensures id >= |old(productos)| ==> r == Failure(NotFound)
      ensures id < |old(productos)| ==> r == P.Guardar(CP.Desactivar(old(productos)[id]))
      ensures old(Valid()) && id < |old(productos)| ==>
                r.Success? && r.value == CP.Desactivar(old(productos)[id])
      ensures productos == if r.Success? then old(productos)[id := r.value] else old(productos)
      ensures clientes == old(clientes) && cajas == old(cajas) && ventas == old(ventas) && facturas == old(facturas)
      ensures old(Valid()) ==> Valid()
    {
      if id >= |productos| {
        return Failure(NotFound);
      }
      r := P.Guardar(CP.Desactivar(productos[id]));
      if r.Success? {
        productos := productos[id := r.value];
      }
    }

    /** `transferirStock`: the request is checked before the lookup; then the
        origin's stock, the move and the save. */
    method TransferirStock(id: Id, cantidad: Option<int>, origen: string, destino: string)
      returns (r: Result<CP.InformeStock>)
      modifies this
      ensures CP.ValidarTransferencia(cantidad, origen, destino).Some? ==>
                r == Failure(CP.ValidarTransferencia(cantidad, origen, destino).value) && productos == old(productos)
      ensures CP.ValidarTransferencia(cantidad, origen, destino).None? && id >= |old(productos)| ==>
                r == Failure(NotFound) && productos == old(productos)
      ensures CP.ValidarTransferencia(cantidad, origen, destino).None? && id < |old(productos)| ==>
                var t := CP.Transferir(old(productos)[id], cantidad.value, origen);
                  && (t.Failure? ==> r == Failure(t.error) && productos == old(productos))
                  && (t.Success? && P.Guardar(t.value).Failure? ==>
                        r == Failure(P.Guardar(t.value).error) && productos == old(productos))
                  && (t.Success? && P.Guardar(t.value).Success? ==>
                        productos == old(productos)[id := P.Guardar(t.value).value]
                        && r == Success(CP.Informe(productos[id])))
      ensures r.Success? ==> id < |productos| && P.StockTotal(productos[id]) == P.StockTotal(old(productos)[id])
      ensures old(Valid()) && r.Success? ==> productos == old(productos)[id := CP.Transferir(old(productos)[id], cantidad.value, origen).value]
      ensures clientes == old(clientes) && cajas == old(cajas) && ventas == old(ventas) && facturas == old(facturas)
      ensures old(Valid()) ==> Valid()
    {
      var invalida := CP.ValidarTransferencia(cantidad, origen, destino);
      if invalida.Some? {
        return Failure(invalida.value);
      }
      if id >= |productos| {
        return Failure(NotFound);
      }
      var movido := CP.Transferir(productos[id], cantidad.value, origen);
      if movido.Failure? {
        return Failure(movido.error);
      }
      var guardado := P.Guardar(movido.value);
      if guardado.Failure? {
        return Failure(guardado.error);
      }
      if old(Valid()) {
        P.GuardarIdempotente(movido.value);
      }
      productos := productos[id := guardado.value];
      r := Success(CP.Informe(guardado.value));
    }

    // ---- cajaController.js ----

    /** `abrirCaja`: refused while the operator has an open register; otherwise
        `Caja.create` stores a new open one. */
    method AbrirCaja(usuario: Id, montoInicial: Option<real>, ahora: int) returns (r: Result<Id>)
      modifies this
      ensures var a := CC.Apertura(old(cajas), usuario, montoInicial, ahora);
                && (a.Failure? ==> r == Failure(a.error) && cajas == old(cajas))
                && (a.Success? ==> r == Success(|old(cajas)|) && cajas == old(cajas) + [a.value])
      ensures productos == old(productos) && clientes == old(clientes) && ventas == old(ventas) && facturas == old(facturas)
      ensures old(Valid()) ==> Valid()
    {
      var apertura := CC.Apertura(cajas, usuario, montoInicial, ahora);
      if apertura.Failure? {
        return Failure(apertura.error);
      }
      if old(Valid()) {
        CC.AperturaConservaUnicidad(cajas, usuario, montoInicial, ahora);
      }
      r := Success(|cajas|);
      cajas := cajas + [apertura.value];
    }

    /** `cerrarCaja`: register `id` is looked up, a closed one refused, the
        paid cash sales recorded against it summed, and the closed register saved. */
    method CerrarCaja(id: Id, montoFinal: real, ahora: int) returns (r: Result<K.Caja>)
      modifies this
      ensures id >= |old(cajas)| ==> r == Failure(NotFound)
      ensures id < |old(cajas)| ==> r == CC.CerrarRegistro(old(cajas)[id], old(ventas), id, montoFinal, ahora)
      ensures cajas == if r.Success? then old(cajas)[id := r.value] else old(cajas)
      ensures productos == old(productos) && clientes == old(clientes) && ventas == old(ventas) && facturas == old(facturas)
      ensures old(Valid()) ==> Valid()
    {
      if id >= |cajas| {
        return Failure(NotFound);
      }
      r := CC.CerrarRegistro(cajas[id], ventas, id, montoFinal, ahora);
      if r.Success? {
        if old(Valid()) {
          CC.CierreConservaUnicidad(cajas, id, r.value);
        }
        cajas := cajas[id := r.value];
      }
    }

    // ---- clienteController.js ----

    /** `registrarAbono` for customer `id`. */
    method RegistrarAbono(id: Id, monto: Option<real>) returns (r: Result<CL.Abono>)
      modifies this
      ensures id >= |old(clientes)| ==> r == Failure(NotFound) && clientes == old(clientes)
      ensures id < |old(clientes)| ==> var a := CL.RegistrarAbono(old(clientes)[id], monto);
                && (a.Failure? ==> r == Failure(a.error) && clientes == old(clientes))
                && (a.Success? ==> r == Success(a.value.1) && clientes == old(clientes)[id := a.value.0])
      ensures productos == old(productos) && cajas == old(cajas) && ventas == old(ventas) && facturas == old(facturas)
      ensures old(Valid()) ==> Valid()
    {
      if id >= |clientes| {
        return Failure(NotFound);
      }
      var abono := CL.RegistrarAbono(clientes[id], monto);
      if abono.Failure? {
        return Failure(abono.error);
      }
      clientes := clientes[id := abono.value.0];
      r := Success(abono.value.1);
    }

    /** `eliminarCliente` for customer `id`. */
    method EliminarCliente(id: Id) returns (r: Result<C.Cliente>)
      modifies this
      ensures id >= |old(clientes)| ==> r == Failure(NotFound)
      ensures id < |old(clientes)| ==> r == CL.Eliminar(old(clientes)[id])
      ensures clientes == if r.Success? then old(clientes)[id := r.value] else old(clientes)
      ensures productos == old(productos) && cajas == old(cajas) && ventas == old(ventas) && facturas == old(facturas)
      ensures old(Valid()) ==> Valid()
    {
      if id >= |clientes| {
        return Failure(NotFound);
      }
      r := CL.Eliminar(clientes[id]);
      if r.Success? {
        clientes := clientes[id := r.value];
      }
    }

    // ---- ventaController.js ----

    /** The item loop of `crearVenta`: for each item the product is looked
        up, its stock checked, the line pushed and the deducted product saved.
        An early return keeps the saves already made. */
    method DescontarPedido(items: seq<CV.ItemPedido>) returns (a: CV.Avance)
      modifies this
      ensures a == CV.ProcesarItems(CV.Paso(old(productos), [], 0.0), items)
      ensures productos == CV.ProductosDe(a)
      ensures clientes == old(clientes) && cajas == old(cajas) && ventas == old(ventas) && facturas == old(facturas)
      ensures old(Valid()) ==> Valid()
    {
      ghost var inicio := CV.Paso(productos, [], 0.0);
      var lineas: seq<V.LineaVenta> := [];
      var subtotal := 0.0;
      var i := 0;
      while i < |items|
        invariant 0 <= i <= |items|
        invariant clientes == old(clientes) && cajas == old(cajas) && ventas == old(ventas) && facturas == old(facturas)
        invariant CV.ProcesarItems(CV.Paso(productos, lineas, subtotal), items[i..]) == CV.ProcesarItems(inicio, items)
        invariant old(Valid()) ==> P.Catalogo(productos)
      {
        CV.ProcesarItemsPaso(CV.Paso(productos, lineas, subtotal), items, i);
        var avance := DescontarItem(lineas, subtotal, items[i]);
        if avance.Corte? {
          return avance;
        }
        lineas := avance.paso.lineas;
        subtotal := avance.paso.subtotal;
        i := i + 1;
      }
      assert items[i..] == [];
      a := CV.Sigue(CV.Paso(productos, lineas, subtotal));
    }

    /** One iteration of the item loop of `crearVenta`: an unknown product or
        too little stock stops the loop; otherwise the line is priced, the
        units are taken floor first and the product is saved. */
    method DescontarItem(lineas: seq<V.LineaVenta>, subtotal: real, item: CV.ItemPedido) returns (a: CV.Avance)
      modifies this
      ensures a == CV.ProcesarItem(CV.Paso(old(productos), lineas, subtotal), item)
      ensures productos == CV.ProductosDe(a)
      ensures clientes == old(clientes) && cajas == old(cajas) && ventas == old(ventas) && facturas == old(facturas)
      ensures old(P.Catalogo(productos)) ==> P.Catalogo(productos)
    {
      if item.producto >= |productos| {
        return CV.Corte(NotFound, productos);
      }
      var p := productos[item.producto];
      if P.StockTotal(p) < item.cantidad {
        return CV.Corte(InsufficientStock, productos);
      }
      var linea := CV.Linea(productos, item);
      var guardado := P.Guardar(CV.DescontarSalaPrimero(p, item.cantidad));
      if guardado.Failure? {
        return CV.Corte(guardado.error, productos);
      }
      CV.ProcesarItemGuardado(CV.Paso(productos, lineas, subtotal), item, guardado.value);
      if P.Catalogo(productos) {
        P.CatalogoGuardado(productos, item.producto, CV.DescontarSalaPrimero(p, item.cantidad));
      }
      productos := productos[item.producto := guardado.value];
      a := CV.Sigue(CV.Paso(productos, lineas + [linea], subtotal + linea.subtotal));
    }

    /** The credit charge and the record of `crearVenta`, once the item loop
        went through: on a credit sale the customer is looked up, the limit
        checked and the raised debt saved; then `Venta.create`. */
    method CobrarYRegistrar(paso: CV.Paso, usuario: Id, caja: Id, tipo: Option<string>, cliente: Option<Id>,
                            monto: Option<real>, ahora: int) returns (r: Result<V.Venta>)
      modifies this
      ensures var p := CV.Cobrar(paso, old(clientes), usuario, caja, tipo, cliente, monto, ahora);
                clientes == p.clientes && r == p.venta
      ensures ventas == if r.Success? then old(ventas) + [r.value] else old(ventas)
      ensures productos == old(productos) && cajas == old(cajas) && facturas == old(facturas)
      ensures old(ClientesValidos(clientes)) ==> ClientesValidos(clientes)
    {
      if tipo == Some("Credito") {
        if cliente.None? || cliente.value >= |clientes| {
          return Failure(NotFound);
        }
        var c := clientes[cliente.value];
        if !C.PuedeComprarCredito(c, paso.subtotal) {
          return Failure(CreditLimitExceeded);
        }
        var cargado := C.Guardar(c.(deudaTotal := c.deudaTotal + paso.subtotal));
        if cargado.Failure? {
          return Failure(cargado.error);
        }
        clientes := clientes[cliente.value := cargado.value];
      }
      assert CV.Cobrar(paso, old(clientes), usuario, caja, tipo, cliente, monto, ahora)
             == CV.Registrar(paso, clientes, usuario, caja, tipo, cliente, monto, ahora);
      r := CV.Registrar(paso, clientes, usuario, caja, tipo, cliente, monto, ahora).venta;
      if r.Success? {
        ventas := ventas + [r.value];
      }
    }

    /** `crearVenta`: the operator's open register is looked up; then the item
        loop; then the credit charge and the record. Every save stays when a
        later step fails. */
    method CrearVenta(usuario: Id, items: seq<CV.ItemPedido>, tipo: Option<string>, cliente: Option<Id>,
                      monto: Option<real>, ahora: int) returns (r: Result<V.Venta>)
      modifies this
      ensures var p := CV.PostearVenta(old(productos), old(clientes), old(cajas), usuario, items, tipo, cliente, monto, ahora);
                productos == p.productos && clientes == p.clientes && r == p.venta
      ensures ventas == if r.Success? then old(ventas) + [r.value] else old(ventas)
      ensures cajas == old(cajas) && facturas == old(facturas)
      ensures old(Valid()) ==> Valid()
    {
      var caja := CC.CajaAbiertaDe(cajas, usuario);
      if caja.None? {
        return Failure(NoOpenRegister);
      }
      var avance := DescontarPedido(items);
      if avance.Corte? {
        return Failure(avance.error);
      }
      r := CobrarYRegistrar(avance.paso, usuario, caja.value, tipo, cliente, monto, ahora);
    }

    /** `pagarVentaCredito` for sale `id`, with the sale hook corrected so
        that the settled sale stays Pagada (see `ControladorVentas.PagarVentaCredito`
        for the hook as written). */
    method PagarVentaCredito(id: Id) returns (r: Result<V.Venta>)
      modifies this
      ensures var l := CV.PagarVentaCredito(old(ventas), old(clientes), id, true);
                clientes == l.clientes && ventas == l.ventas && r == l.venta
      ensures productos == old(productos) && cajas == old(cajas) && facturas == old(facturas)
      ensures old(Valid()) ==> Valid()
    {
      if id >= |ventas| {
        return Failure(NotFound);
      }
      var v := ventas[id];
      if v.tipoVenta != V.Credito {
        return Failure(NotCreditSale);
      }
      if v.estadoPago == V.Pagada {
        return Failure(AlreadyPaid);
      }
      if v.cliente.None? || v.cliente.value >= |clientes| {
        return Failure(ServerError);
      }
      var c := clientes[v.cliente.value];
      var abonado := C.Guardar(c.(deudaTotal := c.deudaTotal - v.total));
      if abonado.Failure? {
        return Failure(abonado.error);
      }
      clientes := clientes[v.cliente.value := abonado.value];
      var doc := v.(estadoPago := V.Pagada);
      if !V.VentaValida(doc) {
        return Failure(ValidationError);
      }
      var guardada := V.VentaGuardadaCorregida(doc, false);
      ventas := ventas[id := guardada];
      r := Success(guardada);
    }

    // ---- comprasController.js ----

    /** The intake loop of `crearFactura` over the stored invoice's lines: a
        line that names an existing product raises its warehouse stock and saves
        it; a failing save ends the loop with the earlier saves kept. */
    method IngresarLineas(ls: seq<F.LineaFactura>) returns (r: CF.Ingreso)
      modifies this
      ensures r == CF.Ingresar(old(productos), ls)
      ensures productos == r.productos
      ensures clientes == old(clientes) && cajas == old(cajas) && ventas == old(ventas) && facturas == old(facturas)
      ensures old(Valid()) ==> Valid()
    {
      ghost var inicio := productos;
      var i := 0;
      while i < |ls|
        invariant 0 <= i <= |ls|
        invariant clientes == old(clientes) && cajas == old(cajas) && ventas == old(ventas) && facturas == old(facturas)
        invariant CF.Ingresar(productos, ls[i..]) == CF.Ingresar(inicio, ls)
        invariant old(Valid()) ==> P.Catalogo(productos)
      {
        CF.IngresarPaso(productos, ls, i);
        var error := IngresarLinea(ls[i]);
        if error.Some? {
          return CF.Ingreso(productos, error);
        }
        i := i + 1;
      }
      assert ls[i..] == [];
      r := CF.Ingreso(productos, None);
    }

    /** One iteration of the intake loop: a line naming an existing product
        raises its warehouse stock and saves it; any other line is skipped. */
    method IngresarLinea(l: F.LineaFactura) returns (error: Option<Error>)
      modifies this
      ensures var s := CF.IngresarLinea(old(productos), l);
                && (s.Failure? ==> error == Some(s.error) && productos == old(productos))
                && (s.Success? ==> error.None? && productos == s.value)
      ensures clientes == old(clientes) && cajas == old(cajas) && ventas == old(ventas) && facturas == old(facturas)
      ensures old(P.Catalogo(productos)) ==> P.Catalogo(productos)
    {
      error := None;
      if l.producto.Some? && l.producto.value < |productos| {
        var id := l.producto.value;
        var d := productos[id].(stockBodega := productos[id].stockBodega + l.cantidad);
        var guardado := P.Guardar(d);
        if guardado.Failure? {
          return Some(guardado.error);
        }
        if P.Catalogo(productos) {
          P.CatalogoGuardado(productos, id, d);
        }
        productos := productos[id := guardado.value];
      }
    }

    /** `crearFactura`: the invoice is validated, refused when its number is
        taken, stored with its derived totals, and then its lines are taken in;
        a failing intake save leaves the invoice and the earlier saves in place. */
    method CrearFactura(f: F.Factura) returns (r: Result<F.Factura>)
      modifies this
      ensures var c := CF.CrearFactura(old(facturas), old(productos), f);
                facturas == c.facturas && productos == c.productos && r == c.factura
      ensures clientes == old(clientes) && cajas == old(cajas) && ventas == old(ventas)
      ensures old(Valid()) ==> Valid()
    {
      if !F.FacturaValida(f) {
        return Failure(ValidationError);
      }
      if CF.NumeroUsado(facturas, f.numeroFactura) {
        return Failure(ServerError);
      }
      var g := F.FacturaGuardada(f);
      facturas := facturas + [g];
      var ingreso := IngresarLineas(g.productos);
      r := if ingreso.error.Some? then Failure(ingreso.error.value) else Success(g);
    }
  }
}
