/** The customer document (src/models/Cliente.js): debt and credit limit, the
    credit check and the payment method. */
module Clientes {
  import opened Comun

  /** Default credit limit of a new customer. */
  const LIMITE_CREDITO_POR_DEFECTO := 100000.0

  datatype Cliente = Cliente(
    nombre: string,
    telefono: string,
    direccion: string,
    deudaTotal: real,
    limiteCredito: real,
    activo: bool)

  /** The schema's validators: debt and limit at least 0. */
  predicate ClienteValido(c: Cliente) {
    c.deudaTotal >= 0.0 && c.limiteCredito >= 0.0
  }

  /** `save()`; the customer schema has no pre-save hook. */
  function Guardar(c: Cliente): (r: Result<Cliente>)
    ensures r.Success? <==> ClienteValido(c)
    ensures r.Success? ==> r.value == c
    ensures r.Failure? ==> r.error == ValidationError
  {
    if ClienteValido(c) then Success(c) else Failure(ValidationError)
  }

  /** A customer created with only a name and contact fields: no debt, the
      default limit, so exactly charges up to 100000 are allowed. */
  function Nuevo(nombre: string, telefono: string, direccion: string): (c: Cliente)
    ensures ClienteValido(c) && c.activo
    ensures forall monto: real :: PuedeComprarCredito(c, monto) <==> monto <= LIMITE_CREDITO_POR_DEFECTO
  {
    Cliente(nombre, telefono, direccion, 0.0, LIMITE_CREDITO_POR_DEFECTO, true)
  }

  /** `puedeComprarCredito(monto)`. */
  predicate PuedeComprarCredito(c: Cliente, monto: real) {
    c.deudaTotal + monto <= c.limiteCredito
  }

  /** `registrarPago(monto)`: the debt drops by `monto`, but never below 0.
      No other field changes. */
  function RegistrarPago(c: Cliente, monto: real): (r: Cliente)
    ensures r.deudaTotal >= 0.0
    ensures monto <= c.deudaTotal ==> r.deudaTotal == c.deudaTotal - monto
    ensures monto > c.deudaTotal ==> r.deudaTotal == 0.0
    ensures r.(deudaTotal := c.deudaTotal) == c
    ensures ClienteValido(c) && monto >= 0.0 ==> ClienteValido(r) && r.deudaTotal <= c.deudaTotal
  {
    c.(deudaTotal := Max(0.0, c.deudaTotal - monto))
  }

  /** Debt 90000, limit 100000: a credit charge of 15000 is refused. */
  lemma EscenarioLimiteCredito(c: Cliente)
    requires c.deudaTotal == 90000.0 && c.limiteCredito == 100000.0
    ensures !PuedeComprarCredito(c, 15000.0)
  {
  }
}
