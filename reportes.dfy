/** The aggregations of src/controllers/reportesController.js: units sold and
    revenue per product, sorted by units; the net profit of the profit report;
    and the totals of the accounting export. */
module Reportes {
  import opened Comun
  import opened Ventas
  import F = Facturas
  import Orden

  /** The creation-date filter: applied only when both dates are given. */
  datatype Periodo = Todo | Entre(desde: int, hasta: int)

  function PeriodoDe(inicio: Option<int>, fin: Option<int>): (r: Periodo)
    ensures r.Entre? <==> inicio.Some? && fin.Some?
    ensures r.Entre? ==> r.desde == inicio.value && r.hasta == fin.value
  {
    if inicio.Some? && fin.Some? then Entre(inicio.value, fin.value) else Todo
  }

  predicate EnPeriodo(t: int, p: Periodo) {
    p.Todo? || p.desde <= t <= p.hasta
  }

  /** `Venta.find({createdAt: ...})`: the sales of the period, in the store's order. */
  function VentasDelPeriodo(vs: seq<Venta>, p: Periodo): (r: seq<Venta>)
    ensures forall v :: v in r <==> v in vs && EnPeriodo(v.creado, p)
    ensures p.Todo? ==> r == vs
    decreases |vs|
  {
    if vs == [] then []
    else
      var resto := VentasDelPeriodo(vs[..|vs| - 1], p);
      var v := vs[|vs| - 1];
      assert vs == vs[..|vs| - 1] + [v];
      if EnPeriodo(v.creado, p) then resto + [v] else resto
  }

  // ---- Units sold per product ----

  /** One entry of the report. */
  datatype Fila = Fila(producto: Id, cantidadVendida: int, totalIngresos: real)

  function CantidadEnLineas(ls: seq<LineaVenta>, pid: Id): int
    decreases |ls|
  {
    if ls == [] then 0
    else CantidadEnLineas(ls[..|ls| - 1], pid) + (if ls[|ls| - 1].producto == pid then ls[|ls| - 1].cantidad else 0)
  }

  function IngresosEnLineas(ls: seq<LineaVenta>, pid: Id): real
    decreases |ls|
  {
    if ls == [] then 0.0
    else IngresosEnLineas(ls[..|ls| - 1], pid) + (if ls[|ls| - 1].producto == pid then ls[|ls| - 1].subtotal else 0.0)
  }

  /** Units of product `pid` over every line of every sale. */
  function CantidadVendida(vs: seq<Venta>, pid: Id): int
    decreases |vs|
  {
    if vs == [] then 0 else CantidadVendida(vs[..|vs| - 1], pid) + CantidadEnLineas(vs[|vs| - 1].productos, pid)
  }

  /** Revenue of product `pid` over every line of every sale. */
  function IngresosVendidos(vs: seq<Venta>, pid: Id): real
    decreases |vs|
  {
    if vs == [] then 0.0 else IngresosVendidos(vs[..|vs| - 1], pid) + IngresosEnLineas(vs[|vs| - 1].productos, pid)
  }

  ghost predicate EnLineas(ls: seq<LineaVenta>, pid: Id) {
    exists k :: 0 <= k < |ls| && ls[k].producto == pid
  }

  /** Some line of some sale is for product `pid`. */
  ghost predicate Vendido(vs: seq<Venta>, pid: Id) {
    exists i :: 0 <= i < |vs| && EnLineas(vs[i].productos, pid)
  }

  function ProductosDe(filas: seq<Fila>): (r: seq<Id>)
    ensures |r| == |filas| && forall k :: 0 <= k < |filas| ==> r[k] == filas[k].producto
  {
    seq(|filas|, k requires 0 <= k < |filas| => filas[k].producto)
  }

  /** The key of `sort`: units sold, negated for the ascending order. */
  function Clave(tipo: string): Fila -> real {
    if tipo == "mas" then (f: Fila) => f.cantidadVendida as real else (f: Fila) => -(f.cantidadVendida as real)
  }

  lemma LineasPrefijo(ls: seq<LineaVenta>, j: nat, pid: Id)
    requires j < |ls|
    ensures CantidadEnLineas(ls[..j + 1], pid)
            == CantidadEnLineas(ls[..j], pid) + (if ls[j].producto == pid then ls[j].cantidad else 0)
    ensures IngresosEnLineas(ls[..j + 1], pid)
            == IngresosEnLineas(ls[..j], pid) + (if ls[j].producto == pid then ls[j].subtotal else 0.0)
    ensures EnLineas(ls[..j + 1], pid) <==> EnLineas(ls[..j], pid) || ls[j].producto == pid
  {
    assert ls[..j + 1][..j] == ls[..j];
    if EnLineas(ls[..j + 1], pid) && ls[j].producto != pid {
      var k :| 0 <= k < j + 1 && ls[..j + 1][k].producto == pid;
      assert ls[..j][k].producto == pid;
    }
    if EnLineas(ls[..j], pid) {
      var k :| 0 <= k < j && ls[..j][k].producto == pid;
      assert ls[..j + 1][k].producto == pid;
    }
    if ls[j].producto == pid {
      assert ls[..j + 1][j].producto == pid;
    }
  }

  lemma VentasPrefijo(vs: seq<Venta>, i: nat, pid: Id)
    requires i < |vs|
    ensures CantidadVendida(vs[..i + 1], pid) == CantidadVendida(vs[..i], pid) + CantidadEnLineas(vs[i].productos, pid)
    ensures IngresosVendidos(vs[..i + 1], pid) == IngresosVendidos(vs[..i], pid) + IngresosEnLineas(vs[i].productos, pid)
    ensures Vendido(vs[..i + 1], pid) <==> Vendido(vs[..i], pid) || EnLineas(vs[i].productos, pid)
  {
    assert vs[..i + 1][..i] == vs[..i];
    if Vendido(vs[..i + 1], pid) && !EnLineas(vs[i].productos, pid) {
      var k :| 0 <= k < i + 1 && EnLineas(vs[..i + 1][k].productos, pid);
      assert vs[..i][k] == vs[k];
    }
    if Vendido(vs[..i], pid) {
      var k :| 0 <= k < i && EnLineas(vs[..i][k].productos, pid);
      assert vs[..i + 1][k] == vs[k];
    }
    if EnLineas(vs[i].productos, pid) {
      assert vs[..i + 1][i] == vs[i];
    }
  }

  /** The dictionary as the nested `forEach` leaves it after sales `vs[..i]`
      and lines `ls[..j]` of the next sale: an entry per product seen so far,
      in `orden` by first appearance, each holding the sums so far. */
  ghost predicate Acumulado(acum: map<Id, Fila>, orden: seq<Id>, vs: seq<Venta>, ls: seq<LineaVenta>)
  {
    && SinRepetidos(orden)
    && (forall pid :: pid in acum <==> pid in orden)
    && (forall pid :: pid in acum <==> Vendido(vs, pid) || EnLineas(ls, pid))
    && (forall pid :: pid in acum ==>
          acum[pid] == Fila(pid, CantidadVendida(vs, pid) + CantidadEnLineas(ls, pid),
                            IngresosVendidos(vs, pid) + IngresosEnLineas(ls, pid)))
    && (forall pid :: pid !in acum ==>
          CantidadVendida(vs, pid) + CantidadEnLineas(ls, pid) == 0
          && IngresosVendidos(vs, pid) + IngresosEnLineas(ls, pid) == 0.0)
  }

  /** What one iteration of the inner `forEach` does to the dictionary: the
      entry of the line's product is created at zero if missing, then the
      line's quantity and subtotal are added to it. */
  predicate PasoLinea(acum: map<Id, Fila>, orden: seq<Id>, l: LineaVenta, acum2: map<Id, Fila>, orden2: seq<Id>) {
    var base := if l.producto in acum then acum[l.producto] else Fila(l.producto, 0, 0.0);
    && acum2 == acum[l.producto := base.(cantidadVendida := base.cantidadVendida + l.cantidad,
                                         totalIngresos := base.totalIngresos + l.subtotal)]
    && orden2 == if l.producto in acum then orden else orden + [l.producto]
  }

  lemma AcumuladoLinea(acum: map<Id, Fila>, orden: seq<Id>, vs: seq<Venta>, ls: seq<LineaVenta>, j: nat,
                       acum2: map<Id, Fila>, orden2: seq<Id>)
    requires j < |ls| && Acumulado(acum, orden, vs, ls[..j])
    requires PasoLinea(acum, orden, ls[j], acum2, orden2)
    ensures Acumulado(acum2, orden2, vs, ls[..j + 1])
  {
    OrdenLinea(acum, orden, ls[j], acum2, orden2);
    forall pid {
      SumasLinea(acum, orden, vs, ls, j, acum2, orden2, pid);
    }
  }

  /** The entry of one product after one line. */
  lemma SumasLinea(acum: map<Id, Fila>, orden: seq<Id>, vs: seq<Venta>, ls: seq<LineaVenta>, j: nat,
                   acum2: map<Id, Fila>, orden2: seq<Id>, pid: Id)
    requires j < |ls| && Acumulado(acum, orden, vs, ls[..j])
    requires PasoLinea(acum, orden, ls[j], acum2, orden2)
    ensures pid in acum2 <==> Vendido(vs, pid) || EnLineas(ls[..j + 1], pid)
    ensures pid in acum2 ==>
              acum2[pid] == Fila(pid, CantidadVendida(vs, pid) + CantidadEnLineas(ls[..j + 1], pid),
                                 IngresosVendidos(vs, pid) + IngresosEnLineas(ls[..j + 1], pid))
    ensures pid !in acum2 ==>
              CantidadVendida(vs, pid) + CantidadEnLineas(ls[..j + 1], pid) == 0
              && IngresosVendidos(vs, pid) + IngresosEnLineas(ls[..j + 1], pid) == 0.0
  {
    LineasPrefijo(ls, j, pid);
  }

  /** The insertion order gains the line's product exactly when it is new. */
  lemma OrdenLinea(acum: map<Id, Fila>, orden: seq<Id>, l: LineaVenta, acum2: map<Id, Fila>, orden2: seq<Id>)
    requires SinRepetidos(orden) && forall pid :: pid in acum <==> pid in orden
    requires PasoLinea(acum, orden, l, acum2, orden2)
    ensures SinRepetidos(orden2) && forall pid :: pid in acum2 <==> pid in orden2
  {
    forall pid ensures pid in acum2 <==> pid in orden2 {
      assert pid in orden2 <==> pid in orden || (l.producto !in acum && pid == l.producto);
    }
    if l.producto !in acum {
      forall a, b | 0 <= a < b < |orden2| ensures orden2[a] != orden2[b] {
        if b == |orden| {
          assert orden2[a] == orden[a] && orden[a] in orden;
        }
      }
    }
  }

  lemma AcumuladoVenta(acum: map<Id, Fila>, orden: seq<Id>, vs: seq<Venta>, i: nat)
    requires i < |vs| && Acumulado(acum, orden, vs[..i], vs[i].productos)
    ensures Acumulado(acum, orden, vs[..i + 1], [])
  {
    forall pid {
      VentasPrefijo(vs, i, pid);
    }
  }

  /** Orders the rows of the dictionary with the source's comparator. */
  function OrdenarFilas(filas: seq<Fila>, tipo: string): (r: seq<Fila>)
    ensures multiset(r) == multiset(filas)
    ensures forall f :: f in r <==> f in filas
    ensures tipo == "mas" ==> forall a, b :: 0 <= a < b < |r| ==> r[a].cantidadVendida >= r[b].cantidadVendida
    ensures tipo != "mas" ==> forall a, b :: 0 <= a < b < |r| ==> r[a].cantidadVendida <= r[b].cantidadVendida
  {
    var r := Orden.Ordenar(filas, Clave(tipo));
    Orden.OrdenarMismosElementos(filas, Clave(tipo));
    assert forall a, b :: 0 <= a < b < |r| ==> Clave(tipo)(r[a]) >= Clave(tipo)(r[b]);
    r
  }

  /** The inner `forEach`: adds the lines `ls` of one sale to the dictionary. */
  method AcumularLineas(acum0: map<Id, Fila>, orden0: seq<Id>, vs: seq<Venta>, ls: seq<LineaVenta>)
    returns (acum: map<Id, Fila>, orden: seq<Id>)
    requires Acumulado(acum0, orden0, vs, [])
    ensures Acumulado(acum, orden, vs, ls)
  {
    acum, orden := acum0, orden0;
    var j := 0;
    assert ls[..0] == [];
    while j < |ls|
      invariant 0 <= j <= |ls|
      invariant Acumulado(acum, orden, vs, ls[..j])
    {
      ghost var acumAntes, ordenAntes := acum, orden;
      var l := ls[j];
      var base := if l.producto in acum then acum[l.producto] else Fila(l.producto, 0, 0.0);
      if l.producto !in acum {
        orden := orden + [l.producto];
      }
      acum := acum[l.producto := base.(cantidadVendida := base.cantidadVendida + l.cantidad,
                                       totalIngresos := base.totalIngresos + l.subtotal)];
      AcumuladoLinea(acumAntes, ordenAntes, vs, ls, j, acum, orden);
      j := j + 1;
    }
    assert ls[..j] == ls;
  }

  /** `Object.values`: the entries in order of first appearance. */
  method Valores(acum: map<Id, Fila>, orden: seq<Id>) returns (valores: seq<Fila>)
    requires forall pid :: pid in orden ==> pid in acum
    ensures |valores| == |orden|
    ensures forall m :: 0 <= m < |orden| ==> orden[m] in acum && valores[m] == acum[orden[m]]
  {
    valores := [];
    var k := 0;
    while k < |orden|
      invariant 0 <= k <= |orden|
      invariant |valores| == k
      invariant forall m :: 0 <= m < k ==> orden[m] in acum && valores[m] == acum[orden[m]]
    {
      valores := valores + [acum[orden[k]]];
      k := k + 1;
    }
  }

  /** `reporteProductosVendidos`: groups the lines of the period's sales by
      product, then sorts the entries by units sold, most first when `tipo` is
      "mas" or absent and least first otherwise. */
  method ReporteProductosVendidos(vs: seq<Venta>, inicio: Option<int>, fin: Option<int>, tipo: Option<string>)
    returns (filas: seq<Fila>)
    ensures var sel := VentasDelPeriodo(vs, PeriodoDe(inicio, fin));
              && (forall pid :: pid in ProductosDe(filas) <==> Vendido(sel, pid))
              && SinRepetidos(ProductosDe(filas))
              && (forall k :: 0 <= k < |filas| ==>
                    filas[k].cantidadVendida == CantidadVendida(sel, filas[k].producto)
                    && filas[k].totalIngresos == IngresosVendidos(sel, filas[k].producto))
    ensures tipo.GetOr("mas") == "mas" ==>
              forall a, b :: 0 <= a < b < |filas| ==> filas[a].cantidadVendida >= filas[b].cantidadVendida
    ensures tipo.GetOr("mas") != "mas" ==>
              forall a, b :: 0 <= a < b < |filas| ==> filas[a].cantidadVendida <= filas[b].cantidadVendida
  {
    var sel := VentasDelPeriodo(vs, PeriodoDe(inicio, fin));
    var acum, orden := Agrupar(sel);
    var valores := Valores(acum, orden);
    filas := OrdenarFilas(valores, tipo.GetOr("mas"));
    FilasCorrectas(acum, orden, sel, valores, filas);
  }

  /** The outer `forEach` over the sales. */
  method Agrupar(sel: seq<Venta>) returns (acum: map<Id, Fila>, orden: seq<Id>)
    ensures Acumulado(acum, orden, sel, [])
  {
    acum, orden := map[], [];
    AcumuladoInicial(sel);
    var i := 0;
    while i < |sel|
      invariant 0 <= i <= |sel|
      invariant Acumulado(acum, orden, sel[..i], [])
    {
      acum, orden := AcumularLineas(acum, orden, sel[..i], sel[i].productos);
      AcumuladoVenta(acum, orden, sel, i);
      i := i + 1;
    }
    assert sel[..i] == sel;
  }

  lemma AcumuladoInicial(sel: seq<Venta>)
    ensures Acumulado(map[], [], sel[..0], [])
  {
    assert sel[..0] == [];
  }

  lemma FilasCorrectas(acum: map<Id, Fila>, orden: seq<Id>, sel: seq<Venta>, valores: seq<Fila>, filas: seq<Fila>)
    requires Acumulado(acum, orden, sel, [])
    requires |valores| == |orden| && forall m :: 0 <= m < |orden| ==> orden[m] in acum && valores[m] == acum[orden[m]]
    requires multiset(filas) == multiset(valores) && forall f :: f in filas <==> f in valores
    ensures forall pid :: pid in ProductosDe(filas) <==> Vendido(sel, pid)
    ensures SinRepetidos(ProductosDe(filas))
    ensures forall k :: 0 <= k < |filas| ==>
              filas[k].cantidadVendida == CantidadVendida(sel, filas[k].producto)
              && filas[k].totalIngresos == IngresosVendidos(sel, filas[k].producto)
  {
    ValoresDeAcum(acum, orden, valores);
    FilasCubren(acum, orden, sel, valores, filas);
    FilasDistintas(acum, orden, valores, filas);
    FilasSumas(acum, sel, valores, filas);
  }

  /** Every value taken from the dictionary is the entry of its product. */
  lemma ValoresDeAcum(acum: map<Id, Fila>, orden: seq<Id>, valores: seq<Fila>)
    requires forall pid :: pid in acum ==> acum[pid].producto == pid
    requires |valores| == |orden| && forall m :: 0 <= m < |orden| ==> orden[m] in acum && valores[m] == acum[orden[m]]
    ensures forall f :: f in valores ==> f.producto in acum && f == acum[f.producto]
  {
    forall f | f in valores ensures f.producto in acum && f == acum[f.producto] {
      var m :| 0 <= m < |valores| && valores[m] == f;
    }
  }

  lemma FilasCubren(acum: map<Id, Fila>, orden: seq<Id>, sel: seq<Venta>, valores: seq<Fila>, filas: seq<Fila>)
    requires Acumulado(acum, orden, sel, [])
    requires |valores| == |orden| && forall m :: 0 <= m < |orden| ==> orden[m] in acum && valores[m] == acum[orden[m]]
    requires forall f :: f in valores ==> f.producto in acum && f == acum[f.producto]
    requires forall f :: f in filas <==> f in valores
    ensures forall pid :: pid in ProductosDe(filas) <==> Vendido(sel, pid)
  {
    forall pid ensures pid in ProductosDe(filas) <==> Vendido(sel, pid) {
      if pid in ProductosDe(filas) {
        var k :| 0 <= k < |filas| && ProductosDe(filas)[k] == pid;
        assert filas[k] in filas;
      }
      if Vendido(sel, pid) {
        assert !EnLineas([], pid);
        assert pid in orden;
        var m :| 0 <= m < |orden| && orden[m] == pid;
        assert valores[m] in valores;
        var k :| 0 <= k < |filas| && filas[k] == valores[m];
        assert ProductosDe(filas)[k] == pid;
      }
    }
  }

  lemma FilasDistintas(acum: map<Id, Fila>, orden: seq<Id>, valores: seq<Fila>, filas: seq<Fila>)
    requires SinRepetidos(orden) && forall pid :: pid in acum ==> acum[pid].producto == pid
    requires |valores| == |orden| && forall m :: 0 <= m < |orden| ==> orden[m] in acum && valores[m] == acum[orden[m]]
    requires forall f :: f in valores ==> f.producto in acum && f == acum[f.producto]
    requires multiset(filas) == multiset(valores) && forall f :: f in filas <==> f in valores
    ensures SinRepetidos(ProductosDe(filas))
  {
    SinRepetidosFilas(orden, valores, acum);
    SinRepetidosPorMultiset(filas, valores);
    forall a, b | 0 <= a < b < |filas| ensures ProductosDe(filas)[a] != ProductosDe(filas)[b] {
      assert filas[a] in valores && filas[b] in valores;
      assert filas[a] != filas[b];
    }
  }

  lemma FilasSumas(acum: map<Id, Fila>, sel: seq<Venta>, valores: seq<Fila>, filas: seq<Fila>)
    requires forall pid :: pid in acum ==>
               acum[pid] == Fila(pid, CantidadVendida(sel, pid) + CantidadEnLineas([], pid),
                                 IngresosVendidos(sel, pid) + IngresosEnLineas([], pid))
    requires forall f :: f in valores ==> f.producto in acum && f == acum[f.producto]
    requires forall f :: f in filas <==> f in valores
    ensures forall k :: 0 <= k < |filas| ==>
              filas[k].cantidadVendida == CantidadVendida(sel, filas[k].producto)
              && filas[k].totalIngresos == IngresosVendidos(sel, filas[k].producto)
  {
    forall k | 0 <= k < |filas|
      ensures filas[k].cantidadVendida == CantidadVendida(sel, filas[k].producto)
              && filas[k].totalIngresos == IngresosVendidos(sel, filas[k].producto)
    {
      assert filas[k] in filas;
      assert CantidadEnLineas([], filas[k].producto) == 0 && IngresosEnLineas([], filas[k].producto) == 0.0;
    }
  }

  lemma SinRepetidosFilas(orden: seq<Id>, valores: seq<Fila>, acum: map<Id, Fila>)
    requires SinRepetidos(orden)
    requires |valores| == |orden| && forall m :: 0 <= m < |orden| ==> orden[m] in acum && valores[m] == acum[orden[m]]
    requires forall pid :: pid in acum ==> acum[pid].producto == pid
    ensures SinRepetidos(valores)
  {
    forall a, b | 0 <= a < b < |valores| ensures valores[a] != valores[b] {
      assert valores[a].producto == orden[a] && valores[b].producto == orden[b];
    }
  }

  // ---- Net profit and the accounting export ----

  /** The sales the profit report counts: in the period, cash and paid. */
  predicate CuentaEnGanancia(v: Venta, p: Periodo) {
    EnPeriodo(v.creado, p) && v.tipoVenta == Contado && v.estadoPago == Pagada
  }

  function TotalVentas(vs: seq<Venta>, p: Periodo): real
    decreases |vs|
  {
    if vs == [] then 0.0
    else
      var v := vs[|vs| - 1];
      TotalVentas(vs[..|vs| - 1], p) + (if CuentaEnGanancia(v, p) then v.total else 0.0)
  }

  /** The invoices the profit report counts as costs: in the period and paid. */
  function TotalCostos(fs: seq<F.Factura>, p: Periodo): int
    decreases |fs|
  {
    if fs == [] then 0
    else
      var f := fs[|fs| - 1];
      TotalCostos(fs[..|fs| - 1], p) + (if EnPeriodo(f.creado, p) && f.estadoPago == F.Pagada then f.total else 0)
  }

  /** Recording a sale changes the profit report's sales only by a paid cash
      sale of the period; a credit sale never counts, even once settled. */
  lemma TotalVentasAgregar(vs: seq<Venta>, v: Venta, p: Periodo)
    ensures CuentaEnGanancia(v, p) ==> TotalVentas(vs + [v], p) == TotalVentas(vs, p) + v.total
    ensures !CuentaEnGanancia(v, p) ==> TotalVentas(vs + [v], p) == TotalVentas(vs, p)
    ensures v.tipoVenta == Credito ==> TotalVentas(vs + [v], p) == TotalVentas(vs, p)
  {
    assert (vs + [v])[..|vs|] == vs;
  }

  /** Recording an invoice changes the costs only by a paid invoice of the period. */
  lemma TotalCostosAgregar(fs: seq<F.Factura>, f: F.Factura, p: Periodo)
    ensures EnPeriodo(f.creado, p) && f.estadoPago == F.Pagada ==> TotalCostos(fs + [f], p) == TotalCostos(fs, p) + f.total
    ensures f.estadoPago != F.Pagada ==> TotalCostos(fs + [f], p) == TotalCostos(fs, p)
  {
    assert (fs + [f])[..|fs|] == fs;
  }

  datatype Ganancia = Ganancia(totalVentas: real, totalCostos: int, gananciaNeta: real)

  /** `reporteGananciaReal`: paid cash sales minus paid invoices of the period. */
  function ReporteGananciaReal(vs: seq<Venta>, fs: seq<F.Factura>, inicio: Option<int>, fin: Option<int>): (r: Ganancia)
    ensures r.totalVentas == TotalVentas(vs, PeriodoDe(inicio, fin))
    ensures r.totalCostos == TotalCostos(fs, PeriodoDe(inicio, fin))
    ensures r.gananciaNeta + r.totalCostos as real == r.totalVentas
  {
    var p := PeriodoDe(inicio, fin);
    var ventas := TotalVentas(vs, p);
    var costos := TotalCostos(fs, p);
    Ganancia(ventas, costos, ventas - costos as real)
  }

  /** The export counts every paid sale of the period, cash or credit. */
  function TotalPagadas(vs: seq<Venta>, p: Periodo): real
    decreases |vs|
  {
    if vs == [] then 0.0
    else
      var v := vs[|vs| - 1];
      TotalPagadas(vs[..|vs| - 1], p) + (if EnPeriodo(v.creado, p) && v.estadoPago == Pagada then v.total else 0.0)
  }

  /** The paid credit sales of the period. */
  function TotalCreditoPagadas(vs: seq<Venta>, p: Periodo): real
    decreases |vs|
  {
    if vs == [] then 0.0
    else
      var v := vs[|vs| - 1];
      TotalCreditoPagadas(vs[..|vs| - 1], p)
      + (if EnPeriodo(v.creado, p) && v.estadoPago == Pagada && v.tipoVenta == Credito then v.total else 0.0)
  }

  /** The export counts every invoice of the period, whatever its state. */
  function TotalFacturas(fs: seq<F.Factura>, p: Periodo): int
    decreases |fs|
  {
    if fs == [] then 0
    else TotalFacturas(fs[..|fs| - 1], p) + (if EnPeriodo(fs[|fs| - 1].creado, p) then fs[|fs| - 1].total else 0)
  }

  datatype Resumen = Resumen(totalVentas: real, totalCompras: int, ganancia: real)

  /** The summary sheet of `exportarContable`: both dates are required; then all
      paid sales minus all invoices of the period. */
  function ExportarContable(vs: seq<Venta>, fs: seq<F.Factura>, inicio: Option<int>, fin: Option<int>): (r: Result<Resumen>)
    ensures r.Failure? <==> inicio.None? || fin.None?
    ensures r.Failure? ==> r.error == ValidationError
    ensures r.Success? ==> var p := Entre(inicio.value, fin.value);
              && r.value.totalVentas == TotalPagadas(vs, p)
              && r.value.totalCompras == TotalFacturas(fs, p)
              && r.value.ganancia + r.value.totalCompras as real == r.value.totalVentas
  {
    if inicio.None? || fin.None? then Failure(ValidationError)
    else
      var p := Entre(inicio.value, fin.value);
      Success(Resumen(TotalPagadas(vs, p), TotalFacturas(fs, p), TotalPagadas(vs, p) - TotalFacturas(fs, p) as real))
  }

  /** The export's sales are the profit report's plus the paid credit sales. */
  lemma {:induction false} TotalPagadasDescompone(vs: seq<Venta>, p: Periodo)
    ensures TotalPagadas(vs, p) == TotalVentas(vs, p) + TotalCreditoPagadas(vs, p)
    decreases |vs|
  {
    if vs != [] {
      TotalPagadasDescompone(vs[..|vs| - 1], p);
    }
  }

  /** With invoice totals of at least 0, the export's purchases are at least
      the profit report's costs, and equal when every invoice is paid. */
  lemma {:induction false} TotalFacturasCubreCostos(fs: seq<F.Factura>, p: Periodo)
    requires forall k :: 0 <= k < |fs| ==> fs[k].total >= 0
    ensures TotalFacturas(fs, p) >= TotalCostos(fs, p)
    ensures (forall k :: 0 <= k < |fs| ==> fs[k].estadoPago == F.Pagada) ==> TotalFacturas(fs, p) == TotalCostos(fs, p)
    decreases |fs|
  {
    if fs != [] {
      TotalFacturasCubreCostos(fs[..|fs| - 1], p);
    }
  }

  /** One paid cash sale of 12000 and one paid credit sale of 5000 in the
      period, one paid invoice of 7000 and one pending invoice of 3000: the
      profit report nets 5000, the export 7000. */
  lemma EscenarioGanancias(a: Venta, b: Venta, f: F.Factura, g: F.Factura)
    requires a.tipoVenta == Contado && a.estadoPago == Pagada && a.total == 12000.0 && a.creado == 5
    requires b.tipoVenta == Credito && b.estadoPago == Pagada && b.total == 5000.0 && b.creado == 5
    requires f.estadoPago == F.Pagada && f.total == 7000 && f.creado == 5
    requires g.estadoPago == F.Pendiente && g.total == 3000 && g.creado == 5
    ensures ReporteGananciaReal([a, b], [f, g], Some(0), Some(10)).gananciaNeta == 5000.0
    ensures ExportarContable([a, b], [f, g], Some(0), Some(10)) == Success(Resumen(17000.0, 10000, 7000.0))
  {
    var p := Entre(0, 10);
    assert [a, b][..1] == [a] && [a][..0] == [];
    assert [f, g][..1] == [f] && [f][..0] == [];
    assert TotalVentas([a], p) == 12000.0;
    assert TotalVentas([a, b], p) == 12000.0;
    assert TotalCostos([f], p) == 7000;
    assert TotalCostos([f, g], p) == 7000;
    assert TotalPagadas([a], p) == 12000.0;
    assert TotalPagadas([a, b], p) == 17000.0;
    assert TotalFacturas([f], p) == 7000;
    assert TotalFacturas([f, g], p) == 10000;
  }
}
