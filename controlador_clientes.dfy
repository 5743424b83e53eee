/** The logic of src/controllers/clienteController.js: part payments against a
    customer's debt, the debt guard on deactivation, and the query of customers
    who owe money. */
module ControladorClientes {
  import opened Comun
  import opened Clientes
  import Orden

  /** What `registrarAbono` reports about the payment. */
  datatype Abono = Abono(deudaAnterior: real, montoAbonado: real, deudaActual: real, saldada: bool)

  /** `registrarAbono` on a looked-up customer. A missing amount or one of 0 or
      less is refused, and so is one above the debt; otherwise `registrarPago`
      lowers the debt by exactly the amount and the customer is saved. */
  function RegistrarAbono(c: Cliente, monto: Option<real>): (r: Result<(Cliente, Abono)>)
    ensures (monto.None? || monto.value <= 0.0 || monto.value > c.deudaTotal) ==> r == Failure(InvalidPaymentAmount)
    ensures r.Success? ==> monto.Some? && 0.0 < monto.value <= c.deudaTotal
    ensures monto.Some? && 0.0 < monto.value <= c.deudaTotal ==> (r.Success? <==> c.limiteCredito >= 0.0)
    ensures r.Success? ==> var (c', a) := r.value;
              && c'.deudaTotal == c.deudaTotal - monto.value
              && c'.(deudaTotal := c.deudaTotal) == c
              && a.deudaAnterior == c.deudaTotal && a.montoAbonado == monto.value
              && a.deudaActual == c'.deudaTotal
              && (a.saldada <==> c'.deudaTotal == 0.0)
              && ClienteValido(c') && c'.deudaTotal < c.deudaTotal
    ensures r.Failure? && monto.Some? && 0.0 < monto.value <= c.deudaTotal ==> r.error == ValidationError
  {
    if monto.None? || monto.value <= 0.0 then Failure(InvalidPaymentAmount)
    else if monto.value > c.deudaTotal then Failure(InvalidPaymentAmount)
    else
      match Guardar(RegistrarPago(c, monto.value))
      case Failure(e) => Failure(e)
      case Success(c') =>
        Success((c', Abono(c.deudaTotal, monto.value, c'.deudaTotal, c'.deudaTotal == 0.0)))
  }

  /** Paying the whole debt settles it. */
  lemma AbonoTotalSalda(c: Cliente)
    requires ClienteValido(c) && c.deudaTotal > 0.0
    ensures RegistrarAbono(c, Some(c.deudaTotal)).Success?
    ensures RegistrarAbono(c, Some(c.deudaTotal)).value.1.saldada
  {
  }

  /** `eliminarCliente` on a looked-up customer: refused while the debt is above
      0; otherwise a soft delete. */
  function Eliminar(c: Cliente): (r: Result<Cliente>)
    ensures r.Failure? <==> c.deudaTotal > 0.0 || c.limiteCredito < 0.0 || c.deudaTotal < 0.0
    ensures c.deudaTotal > 0.0 ==> r == Failure(CustomerHasDebt)
    ensures r.Success? ==> !r.value.activo && r.value.(activo := c.activo) == c && r.value.deudaTotal == 0.0
  {
    if c.deudaTotal > 0.0 then Failure(CustomerHasDebt)
    else Guardar(c.(activo := false))
  }

  /** The filter of `obtenerClientesConDeuda`. */
  predicate ConDeuda(c: Cliente) {
    c.activo && c.deudaTotal > 0.0
  }

  /** The ids of the customers the filter keeps, in the store's order. */
  function ConDeudaDesde(cs: seq<Cliente>, k: nat): (r: seq<Id>)
    requires k <= |cs|
    ensures forall i :: i in r <==> k <= i < |cs| && ConDeuda(cs[i])
    ensures SinRepetidos(r)
    decreases |cs| - k
  {
    if k == |cs| then []
    else
      var resto := ConDeudaDesde(cs, k + 1);
      if ConDeuda(cs[k]) then
        assert k !in resto;
        [k] + resto
      else resto
  }

  /** The sort key: the debt of the customer with that id. */
  function DeudaDe(cs: seq<Cliente>): Id -> real {
    (i: Id) => if i < |cs| then cs[i].deudaTotal else 0.0
  }

  lemma OrdenPorDeuda(cs: seq<Cliente>, r: seq<Id>)
    requires forall i :: i in r ==> i < |cs|
    requires Orden.OrdenadoDesc(r, DeudaDe(cs))
    ensures forall k :: 0 <= k < |r| ==> r[k] < |cs|
    ensures forall a, b :: 0 <= a < b < |r| ==> cs[r[a]].deudaTotal >= cs[r[b]].deudaTotal
  {
    forall k | 0 <= k < |r| ensures r[k] < |cs| {
      assert r[k] in r;
    }
    forall a, b | 0 <= a < b < |r| ensures cs[r[a]].deudaTotal >= cs[r[b]].deudaTotal {
      assert DeudaDe(cs)(r[a]) >= DeudaDe(cs)(r[b]);
    }
  }

  /** `Cliente.find({activo: true, deudaTotal: {$gt: 0}}).sort({deudaTotal: -1})`:
      exactly the active customers who owe money, each once, largest debt first. */
  function ClientesConDeuda(cs: seq<Cliente>): (r: seq<Id>)
    ensures forall i :: i in r <==> 0 <= i < |cs| && ConDeuda(cs[i])
    ensures SinRepetidos(r)
    ensures forall k :: 0 <= k < |r| ==> r[k] < |cs|
    ensures forall a, b :: 0 <= a < b < |r| ==> cs[r[a]].deudaTotal >= cs[r[b]].deudaTotal
  {
    var ids := ConDeudaDesde(cs, 0);
    var r := Orden.Ordenar(ids, DeudaDe(cs));
    Orden.OrdenarMismosElementos(ids, DeudaDe(cs));
    SinRepetidosPorMultiset(r, ids);
    OrdenPorDeuda(cs, r);
    r
  }
}
