/** The register-session document (src/models/Caja.js) and its own closing
    method `cerrarCaja`, which the controller does not call. */
module Cajas {
  import opened Comun

  datatype EstadoCaja = Abierta | Cerrada

  datatype Caja = Caja(
    usuario: Id,
    fechaApertura: int,
    montoInicial: real,
    fechaCierre: Option<int>,
    montoFinal: Option<real>,
    ventasTotales: real,
    gananciaDelDia: real,
    estado: EstadoCaja,
    observaciones: string)

  /** The schema's validators: opening amount at least 0, and the closing
      amount, once there is one, at least 0. */
  predicate CajaValida(c: Caja) {
    c.montoInicial >= 0.0 && (c.montoFinal.Some? ==> c.montoFinal.value >= 0.0)
  }

  /** `save()`; the register schema has no pre-save hook. */
  function Guardar(c: Caja): (r: Result<Caja>)
    ensures r.Success? <==> CajaValida(c)
    ensures r.Success? ==> r.value == c
    ensures r.Failure? ==> r.error == ValidationError
  {
    if CajaValida(c) then Success(c) else Failure(ValidationError)
  }

  /** `Caja.create({usuario, montoInicial, estado: 'Abierta'})` at time `ahora`:
      the required opening amount missing or negative is a validation error;
      otherwise an open session with zero totals and no closing data. */
  function Abrir(usuario: Id, montoInicial: Option<real>, ahora: int): (r: Result<Caja>)
    ensures r.Success? <==> montoInicial.Some? && montoInicial.value >= 0.0
    ensures r.Success? ==> var c := r.value;
              && c.estado == Abierta && c.usuario == usuario && c.montoInicial == montoInicial.value
              && c.fechaApertura == ahora && c.fechaCierre.None? && c.montoFinal.None?
              && c.ventasTotales == 0.0 && c.gananciaDelDia == 0.0 && CajaValida(c)
    ensures r.Failure? ==> r.error == ValidationError
  {
    if montoInicial.None? then Failure(ValidationError)
    else Guardar(Caja(usuario, ahora, montoInicial.value, None, None, 0.0, 0.0, Abierta, ""))
  }

  /** The document method `cerrarCaja(montoFinal)`: records the closing time and
      amount, marks the session closed, and sets and returns
      `ventasTotales = montoFinal - montoInicial`. It does not save. */
  function CerrarCaja(c: Caja, montoFinal: real, ahora: int): (r: (Caja, real))
    ensures r.0.estado == Cerrada
    ensures r.0.montoFinal == Some(montoFinal) && r.0.fechaCierre == Some(ahora)
    ensures r.1 == r.0.ventasTotales && r.1 + c.montoInicial == montoFinal
    ensures r.0.(fechaCierre := c.fechaCierre, montoFinal := c.montoFinal,
                 ventasTotales := c.ventasTotales, estado := c.estado) == c
  {
    var cerrada := c.(fechaCierre := Some(ahora), montoFinal := Some(montoFinal),
                      ventasTotales := montoFinal - c.montoInicial, estado := Cerrada);
    (cerrada, cerrada.ventasTotales)
  }

  /** `cerrarCaja` as the method runs it: four assignments to the document,
      then the stored sales figure is returned. */
  method EjecutarCerrarCaja(c: Caja, montoFinal: real, ahora: int) returns (cerrada: Caja, ventasTotales: real)
    ensures (cerrada, ventasTotales) == CerrarCaja(c, montoFinal, ahora)
  {
    cerrada := c.(fechaCierre := Some(ahora));
    cerrada := cerrada.(montoFinal := Some(montoFinal));
    cerrada := cerrada.(ventasTotales := montoFinal - cerrada.montoInicial);
    cerrada := cerrada.(estado := Cerrada);
    ventasTotales := cerrada.ventasTotales;
  }
}
