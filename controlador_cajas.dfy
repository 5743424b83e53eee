/** The logic of src/controllers/cajaController.js: finding an operator's open
    register, the one-open-register-per-operator invariant, and the
    controller's own closing rule, which sums the paid cash sales and is not the
    rule of the document method `Cajas.CerrarCaja`. */
module ControladorCajas {
  import opened Comun
  import opened Cajas
  import V = Ventas

  predicate AbiertaDe(c: Caja, usuario: Id) {
    c.usuario == usuario && c.estado == Abierta
  }

  /** `Caja.findOne({usuario, estado: 'Abierta'})`: the first such register in
      the store's order, if any. */
  function CajaAbiertaDe(cajas: seq<Caja>, usuario: Id): (r: Option<Id>)
    ensures r.Some? ==> r.value < |cajas| && AbiertaDe(cajas[r.value], usuario)
    ensures r.Some? ==> forall j :: 0 <= j < r.value ==> !AbiertaDe(cajas[j], usuario)
    ensures r.None? <==> forall j :: 0 <= j < |cajas| ==> !AbiertaDe(cajas[j], usuario)
  {
    AbiertaDesde(cajas, usuario, 0)
  }

  function AbiertaDesde(cajas: seq<Caja>, usuario: Id, k: nat): (r: Option<Id>)
    requires k <= |cajas|
    ensures r.Some? ==> k <= r.value < |cajas| && AbiertaDe(cajas[r.value], usuario)
    ensures r.Some? ==> forall j :: k <= j < r.value ==> !AbiertaDe(cajas[j], usuario)
    ensures r.None? <==> forall j :: k <= j < |cajas| ==> !AbiertaDe(cajas[j], usuario)
    decreases |cajas| - k
  {
    if k == |cajas| then None
    else if AbiertaDe(cajas[k], usuario) then Some(k)
    else AbiertaDesde(cajas, usuario, k + 1)
  }

  /** At most one open register per operator. */
  predicate UnaAbiertaPorUsuario(cajas: seq<Caja>) {
    forall i, j ::
      (0 <= i < |cajas| && 0 <= j < |cajas| && cajas[i].estado == Abierta
       && cajas[j].estado == Abierta && cajas[i].usuario == cajas[j].usuario) ==> i == j
  }

  /** Under the invariant, the open register the lookup finds is the only one. */
  lemma CajaAbiertaUnica(cajas: seq<Caja>, usuario: Id, k: nat)
    requires UnaAbiertaPorUsuario(cajas)
    requires k < |cajas| && AbiertaDe(cajas[k], usuario)
    ensures CajaAbiertaDe(cajas, usuario) == Some(k)
  {
  }

  /** `obtenerCajaActual`: the operator's open register, or NotFound. */
  function ObtenerCajaActual(cajas: seq<Caja>, usuario: Id): (r: Result<Caja>)
    ensures r.Success? <==> exists j :: 0 <= j < |cajas| && AbiertaDe(cajas[j], usuario)
    ensures r.Success? ==> r.value in cajas && AbiertaDe(r.value, usuario)
    ensures r.Failure? ==> r.error == NotFound
  {
    match CajaAbiertaDe(cajas, usuario)
    case None => Failure(NotFound)
    case Some(k) => Success(cajas[k])
  }

  /** `abrirCaja` on the register list: refused while the operator has an open
      register; otherwise the new record is the one `Caja.create` builds. */
  function Apertura(cajas: seq<Caja>, usuario: Id, montoInicial: Option<real>, ahora: int): (r: Result<Caja>)
    ensures CajaAbiertaDe(cajas, usuario).Some? ==> r == Failure(RegisterAlreadyOpen)
    ensures CajaAbiertaDe(cajas, usuario).None? ==> r == Abrir(usuario, montoInicial, ahora)
    ensures r.Success? ==> AbiertaDe(r.value, usuario) && CajaValida(r.value)
  {
    if CajaAbiertaDe(cajas, usuario).Some? then Failure(RegisterAlreadyOpen)
    else Abrir(usuario, montoInicial, ahora)
  }

  /** Appending what `Apertura` accepts keeps at most one open register per operator. */
  lemma AperturaConservaUnicidad(cajas: seq<Caja>, usuario: Id, montoInicial: Option<real>, ahora: int)
    requires UnaAbiertaPorUsuario(cajas)
    requires Apertura(cajas, usuario, montoInicial, ahora).Success?
    ensures UnaAbiertaPorUsuario(cajas + [Apertura(cajas, usuario, montoInicial, ahora).value])
  {
    var c := Apertura(cajas, usuario, montoInicial, ahora).value;
    assert c.usuario == usuario && CajaAbiertaDe(cajas, usuario).None?;
  }

  /** Replacing a register by a closed one keeps the invariant. */
  lemma CierreConservaUnicidad(cajas: seq<Caja>, k: nat, c: Caja)
    requires UnaAbiertaPorUsuario(cajas) && k < |cajas| && c.estado == Cerrada
    ensures UnaAbiertaPorUsuario(cajas[k := c])
  {
  }

  /** A sale the controller's closing total counts: on this register, cash and paid. */
  predicate CuentaEnCierre(v: V.Venta, caja: Id) {
    v.caja == caja && v.tipoVenta == V.Contado && v.estadoPago == V.Pagada
  }

  /** The `reduce` over `Venta.find({caja, tipoVenta: 'Contado', estadoPago: 'Pagada'})`. */
  function VentasTotales(ventas: seq<V.Venta>, caja: Id): real
    decreases |ventas|
  {
    if ventas == [] then 0.0
    else
      var v := ventas[|ventas| - 1];
      VentasTotales(ventas[..|ventas| - 1], caja) + (if CuentaEnCierre(v, caja) then v.total else 0.0)
  }

  /** Recording a sale adds its total when it is a paid cash sale of this register
      and nothing otherwise; in particular a credit sale never counts. */
  lemma VentasTotalesAgregar(ventas: seq<V.Venta>, v: V.Venta, caja: Id)
    ensures CuentaEnCierre(v, caja) ==> VentasTotales(ventas + [v], caja) == VentasTotales(ventas, caja) + v.total
    ensures !CuentaEnCierre(v, caja) ==> VentasTotales(ventas + [v], caja) == VentasTotales(ventas, caja)
    ensures v.tipoVenta == V.Credito ==> VentasTotales(ventas + [v], caja) == VentasTotales(ventas, caja)
  {
    assert (ventas + [v])[..|ventas|] == ventas;
  }

  /** Changing one recorded sale changes the total by that sale's contribution. */
  lemma VentasTotalesActualizar(ventas: seq<V.Venta>, k: nat, v: V.Venta, caja: Id)
    requires k < |ventas|
    ensures VentasTotales(ventas[k := v], caja)
            == VentasTotales(ventas, caja)
               - (if CuentaEnCierre(ventas[k], caja) then ventas[k].total else 0.0)
               + (if CuentaEnCierre(v, caja) then v.total else 0.0)
    decreases |ventas|
  {
    var n := |ventas| - 1;
    if k == n {
      assert ventas[k := v][..n] == ventas[..n];
    } else {
      assert ventas[k := v][..n] == ventas[..n][k := v];
      VentasTotalesActualizar(ventas[..n], k, v, caja);
    }
  }

  /** The controller's closing assignments (cajaController.js 77-81). */
  function Cierre(c: Caja, ventas: seq<V.Venta>, caja: Id, montoFinal: real, ahora: int): (r: Caja)
    ensures r.estado == Cerrada && r.montoFinal == Some(montoFinal) && r.fechaCierre == Some(ahora)
    ensures r.ventasTotales == VentasTotales(ventas, caja)
    ensures r.gananciaDelDia + c.montoInicial == montoFinal
    ensures r.(fechaCierre := c.fechaCierre, montoFinal := c.montoFinal, ventasTotales := c.ventasTotales,
               gananciaDelDia := c.gananciaDelDia, estado := c.estado) == c
  {
    c.(fechaCierre := Some(ahora), montoFinal := Some(montoFinal), ventasTotales := VentasTotales(ventas, caja),
       gananciaDelDia := montoFinal - c.montoInicial, estado := Cerrada)
  }

  /** `cerrarCaja` on a looked-up register: a closed register is refused; the
      closed record is saved only if it passes validation. */
  function CerrarRegistro(c: Caja, ventas: seq<V.Venta>, caja: Id, montoFinal: real, ahora: int): (r: Result<Caja>)
    ensures c.estado == Cerrada ==> r == Failure(RegisterAlreadyClosed)
    ensures c.estado == Abierta ==> (r.Success? <==> c.montoInicial >= 0.0 && montoFinal >= 0.0)
    ensures r.Success? ==> r.value == Cierre(c, ventas, caja, montoFinal, ahora) && CajaValida(r.value)
    ensures r.Failure? && c.estado == Abierta ==> r.error == ValidationError
  {
    if c.estado == Cerrada then Failure(RegisterAlreadyClosed)
    else Guardar(Cierre(c, ventas, caja, montoFinal, ahora))
  }

  /** Closing twice: the second attempt is refused. */
  lemma SegundoCierreFalla(c: Caja, ventas: seq<V.Venta>, caja: Id, m1: real, m2: real, t1: int, t2: int)
    requires CerrarRegistro(c, ventas, caja, m1, t1).Success?
    ensures CerrarRegistro(CerrarRegistro(c, ventas, caja, m1, t1).value, ventas, caja, m2, t2)
            == Failure(RegisterAlreadyClosed)
  {
  }

  /** The two closing rules disagree: with 50000 at opening, no recorded sales and
      62000 at closing, the document method reports sales of 12000 while the
      controller records sales of 0 and a day's gain of 12000. */
  lemma ReglasDeCierreDifieren(c: Caja, caja: Id, ahora: int)
    requires c.montoInicial == 50000.0
    ensures CerrarCaja(c, 62000.0, ahora).1 == 12000.0
    ensures Cierre(c, [], caja, 62000.0, ahora).ventasTotales == 0.0
    ensures Cierre(c, [], caja, 62000.0, ahora).gananciaDelDia == 12000.0
  {
  }

  /** Opening 50000, one paid cash sale of 12000 on the register and one credit
      sale of 5000, closing 62000: the controller records 12000 of sales and a
      gain of 12000. */
  lemma EscenarioCierre(c: Caja, caja: Id, contado: V.Venta, credito: V.Venta, ahora: int)
    requires c.montoInicial == 50000.0
    requires contado.caja == caja && contado.tipoVenta == V.Contado && contado.estadoPago == V.Pagada
    requires contado.total == 12000.0
    requires credito.caja == caja && credito.tipoVenta == V.Credito && credito.total == 5000.0
    ensures Cierre(c, [contado, credito], caja, 62000.0, ahora).ventasTotales == 12000.0
    ensures Cierre(c, [contado, credito], caja, 62000.0, ahora).gananciaDelDia == 12000.0
  {
    VentasTotalesAgregar([], contado, caja);
    assert [contado, credito] == [contado] + [credito];
    VentasTotalesAgregar([contado], credito, caja);
  }
}
