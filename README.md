# Point-of-sale back office: a Dafny model

This project models the point-of-sale core of a small retail back office written on Node.js, Express and Mongoose. It covers the products kept on a shop floor ("Sala") and in a warehouse ("Bodega"), customers buying on credit, cash-register sessions (`Caja`), sales (`Venta`), supplier invoices (`Factura`) and purchase orders (`OrdenCompra`).

The model has three layers.

- **Documents** (`Productos`, `Clientes`, `Cajas`, `Ventas`, `Facturas`, `OrdenesCompra`).
  - Each document is a datatype value.
  - The schema validators are a predicate.
  - The `pre('save')` hook is a function.
  - A save validates the document as the caller left it, then runs the hook. That is the order in which Mongoose runs validation and user hooks, so `min: 0` on a field that a hook assigns is never enforced.
  - The hooks written as sequences of assignments (`Ventas.PreSaveVenta`, `Facturas.PreSaveFactura`, `Cajas.EjecutarCerrarCaja`) are also methods, proved equal to their functions.
- **Controller logic** (`ControladorProductos`, `ControladorClientes`, `ControladorCajas`, `ControladorVentas`, `ControladorCompras`, `Reportes`).
  - Each handler's checks, in the handler's order, become a pure function that returns a `Result` with an error kind.
  - The properties the handlers promise are proved about these functions.
- **The store** (`Tienda.Tienda`).
  - A class with one sequence per collection. A document's id is its position.
  - Each mutating handler is a method that looks documents up and saves them where the handler does.
  - Loops are `while` loops.
  - Each method is proved equal to the controller function.
  - Each method keeps the store invariant `Valid()`. The invariant says every stored product, customer and register passed its validators, every product carries its derived price, and no operator has two open registers.

## Behaviour of the code worth knowing

The model reproduces each of these as the code has it.

- **Posting a sale is not atomic.**
  - Each product's deduction is saved inside the item loop (`src/controllers/ventaController.js:72`), before the credit check (`src/controllers/ventaController.js:87-92`).
  - So a refused credit charge, or a missing or short product later in the list, leaves the earlier deductions saved.
  - `ControladorVentas.PostearVentaCorte`, `ControladorVentas.PostearVentaCreditoRechazado` and `ControladorVentas.EscenarioCreditoNoAtomico` state this.
- **`crearVenta` looks products up by id only.** The lookup at `src/controllers/ventaController.js:31-38` does not look at `activo`, so a deactivated product can still be sold.
- **`crearVenta` does not check that an item's quantity is positive.**
  - A quantity of -2 passes the stock check and raises the floor stock by 2.
  - Then only the sale record fails validation (`ControladorVentas.EscenarioCantidadNegativa`).
- **`cerrarCaja` looks the register up by id only.** It does not check that the register belongs to the caller (`src/controllers/cajaController.js:51-58`).
- **`actualizarProducto` copies the whole request body onto the product (`Object.assign`, `src/controllers/productoController.js:87`).** A request that carries stock fields therefore changes the stock counters too.
- **A duplicate invoice number is refused by the unique index.** That error reaches the handler's `catch` and surfaces as a server error, not a validation error.
- **Two closing rules exist, and they disagree.**
  - The document method `cerrarCaja` sets `ventasTotales = montoFinal - montoInicial`: `Cajas.CerrarCaja`.
  - The controller sums the paid cash sales and puts `montoFinal - montoInicial` into `gananciaDelDia`: `ControladorCajas.Cierre`.
  - `ControladorCajas.ReglasDeCierreDifieren` exhibits the difference.

## Model

| member | source | states |
|---|---|---|
| Productos.PrecioVentaAcotado | src/models/Producto.js:14-24 | with a cost of at least 0 and a margin in [0, 100], the sale price lies between the cost and twice the cost |
| Productos.ConPrecioVenta | src/models/Producto.js:72-75 | the hook makes the sale price equal cost × (1 + margin/100), whatever field changed, and changes nothing else |
| Productos.Guardar | src/models/Producto.js:14-58 | a save succeeds exactly when the validators hold (cost, sale price, stocks and minimum ≥ 0, margin in [0, 100], expiry date present on a perishable product); the saved product is valid, has a consistent price, and differs from the input only in the price; a failure is a validation error |
| Productos.GuardarIdempotente | src/models/Producto.js:72-75 | saving a saved product again gives the same result |
| Productos.GuardarConservaConsistente | src/models/Producto.js:72-75 | a valid product whose price is already consistent is saved unchanged |
| Productos.Nuevo | src/models/Producto.js:30-44 | a new product has stock 0 in both locations and minimum 10, so it is low on stock; its save succeeds exactly when cost ≥ 0, margin is in [0, 100] and a perishable product has a date |
| Productos.DiasParaVencer | src/models/Producto.js:88 | the result is the time difference in days rounded up: (d − 1) days < difference ≤ d days |
| Productos.VerificarVencimientoProximo | src/models/Producto.js:84-91 | false for a product that is not perishable or has no date; otherwise true exactly when the date lies after one day before now and at most 7 days after now, i.e. 0 ≤ ceil(days) ≤ 7 |
| Productos.EscenarioStockBajo | src/models/Producto.js:78-81 | floor 3, warehouse 5, minimum 10: low stock |
| Clientes.Guardar | src/models/Cliente.js:17-26 | a save succeeds exactly when debt and limit are ≥ 0, and returns the customer unchanged |
| Clientes.Nuevo | src/models/Cliente.js:17-29 | a new customer is valid and active, with no debt and a limit of 100000, so a credit amount is allowed exactly when it is at most 100000 |
| Clientes.RegistrarPago | src/models/Cliente.js:41-44 | the debt becomes max(0, debt − amount): never negative; exactly debt − amount when the amount is at most the debt, 0 otherwise; no other field changes |
| Clientes.EscenarioLimiteCredito | src/models/Cliente.js:36-38 | debt 90000 and limit 100000: a credit charge of 15000 is refused |
| Cajas.Guardar | src/models/Caja.js:14-25 | a save succeeds exactly when the opening amount is ≥ 0 and the closing amount, when present, is ≥ 0 |
| Cajas.Abrir | src/controllers/cajaController.js:24-28 | creation succeeds exactly when the opening amount is given and ≥ 0; the new register is open, belongs to the operator, has the given opening amount, zero totals and no closing data; a failure is a validation error |
| Cajas.CerrarCaja | src/models/Caja.js:48-54 | the register is closed with the closing time and amount recorded; the returned figure is the stored `ventasTotales`, equal to closing minus opening amount; no other field changes |
| Cajas.EjecutarCerrarCaja | src/models/Caja.js:48-54 | the method's four assignments and its return give exactly `CerrarCaja` |
| Ventas.VentaGuardada | src/models/Venta.js:80-98 | subtotal is the sum of the line subtotals; total = subtotal − discount, so total = subtotal with no discount; change = tendered − total for a cash sale with a nonzero amount tendered, otherwise kept; a credit sale becomes Pendiente and a cash sale keeps its status; no other field changes |
| Ventas.VentaGuardadaIdempotente | src/models/Venta.js:80-98 | saving twice gives the same document as saving once |
| Ventas.PagoCreditoVuelvePendiente | src/models/Venta.js:93-95 | as written, a credit sale marked Pagada is put back to Pendiente by its save |
| Ventas.VentaGuardadaCorregida | src/models/Venta.js:93-95 | the corrected hook is the written one on a new document, and on a later save keeps the status the document holds |
| Ventas.PagoCorregidoQuedaPagado | src/models/Venta.js:93-95 | with the corrected hook, a credit sale marked Pagada stays Pagada |
| Ventas.Guardar | src/models/Venta.js:14-74 | a save succeeds exactly when the validators hold on the document before the hook (line quantities ≥ 1, amounts ≥ 0, a customer on a credit sale); the stored document is the hook's output |
| Ventas.TipoDesdeTexto | src/models/Venta.js:58-62 | an absent type is Contado; Credito only for "Credito"; any string other than the two enum values is rejected |
| Ventas.Nueva | src/models/Venta.js:34-74 | a new sale has discount 0 and status Pagada; it is valid exactly when every line quantity is ≥ 1, the amount tendered is ≥ 0, and a credit sale names a customer |
| Ventas.PreSaveVenta | src/models/Venta.js:80-98 | the hook's step-by-step assignments, with the `reduce` as a loop, give exactly `VentaGuardada` |
| Facturas.Iva | src/models/Factura.js:96 | the tax is 19% of the subtotal rounded half up: 100·r − 50 ≤ 19·s < 100·r + 50; it is ≥ 0 for a subtotal ≥ 0 |
| Facturas.LineasConSubtotal | src/models/Factura.js:89-91 | each line gets subtotal = quantity × unit price; nothing else about it changes |
| Facturas.FacturaGuardadaIdempotente | src/models/Factura.js:87-102 | the hook computes the totals from the lines alone, so a second save changes nothing |
| Facturas.FacturaGuardadaTotales | src/models/Factura.js:93-99 | with quantities and prices ≥ 0: 0 ≤ subtotal ≤ total, total = subtotal + tax, and the tax is the half-up rounding of 19% of the subtotal |
| Facturas.PreSaveFactura | src/models/Factura.js:87-102 | the in-place `forEach` and the `reduce` as loops, then the tax and total assignments, give exactly `FacturaGuardada` |
| OrdenesCompra.TotalOrdenAgregar | src/models/OrdenCompra.js:50-52 | a line adds quantity × (unit price or 0), so a line without a price adds nothing |
| OrdenesCompra.TotalOrdenNoNegativo | src/models/OrdenCompra.js:20-28 | with quantities ≥ 1 and prices ≥ 0 the total is ≥ 0 |
| OrdenesCompra.OrdenGuardada | src/models/OrdenCompra.js:49-54 | the hook sets the total to the sum over the lines of quantity × (unit price or 0) and changes nothing else; the total is ≥ 0 for valid lines |
| OrdenesCompra.OrdenGuardadaIdempotente | src/models/OrdenCompra.js:49-54 | saving twice stores the same total |
| OrdenesCompra.Nueva | src/models/OrdenCompra.js:35-39 | a new order is Pendiente, keeps its lines, and its total is the sum over its lines of quantity × (unit price or 0), which is ≥ 0 for valid lines |
| Orden.Ordenar | src/controllers/reportesController.js:46-50 | the result is in non-increasing order of the key and is a permutation of the input |
| Orden.OrdenarMismosElementos | src/controllers/clienteController.js:117-120 | sorting keeps exactly the input's elements |
| ControladorProductos.ValidarTransferencia | src/controllers/productoController.js:232-251 | the request passes exactly when the quantity is given and > 0, origin and destination are given, and they differ; a missing or non-positive quantity is refused first |
| ControladorProductos.Transferir | src/controllers/productoController.js:263-279 | refused as insufficient exactly when the origin holds less than the quantity (any origin but "Sala" is the warehouse); otherwise the origin drops and the other location rises by the quantity, the total is unchanged, no other field changes, and a valid product stays valid |
| ControladorProductos.EscenarioTransferenciaInsuficiente | src/controllers/productoController.js:263-270 | floor 15: moving 20 from the floor is refused |
| ControladorProductos.Informe | src/controllers/productoController.js:286-290 | the reported total is floor plus warehouse |
| ControladorProductos.ObtenerStockBajo | src/controllers/productoController.js:146-151 | exactly the active products whose total stock is at most their minimum, in the store's order |
| ControladorProductos.AplicarStock | src/controllers/productoController.js:122-123 | each counter given overwrites the stored one; an absent one is kept; nothing else changes |
| ControladorProductos.ActualizarProducto | src/controllers/productoController.js:87-90 | refused exactly when the updated document breaks a validator; after the save the price follows the new cost and margin whatever price the request sent, and an update touching neither keeps the price of a product whose price was consistent |
| ControladorProductos.Desactivar | src/controllers/productoController.js:209 | only `activo` changes, to false |
| ControladorClientes.RegistrarAbono | src/controllers/clienteController.js:221-248 | a missing amount, one ≤ 0, or one above the debt is refused; on success the debt drops by exactly the amount, the report carries the previous debt, the amount and the new debt, and `saldada` holds exactly when the new debt is 0 |
| ControladorClientes.AbonoTotalSalda | src/controllers/clienteController.js:236-248 | paying the whole debt succeeds and settles it |
| ControladorClientes.Eliminar | src/controllers/clienteController.js:183-191 | refused while the debt is > 0; on success only `activo` changes, to false |
| ControladorClientes.ClientesConDeuda | src/controllers/clienteController.js:117-120 | exactly the active customers with debt > 0, each once, in non-increasing order of debt |
| ControladorCajas.CajaAbiertaDe | src/controllers/cajaController.js:12-15 | the first open register of the operator in the store's order; none exactly when the operator has no open register |
| ControladorCajas.CajaAbiertaUnica | src/controllers/cajaController.js:12-15 | with at most one open register per operator, the lookup finds that register |
| ControladorCajas.ObtenerCajaActual | src/controllers/cajaController.js:104-114 | succeeds exactly when the operator has an open register, and returns one; otherwise not found |
| ControladorCajas.Apertura | src/controllers/cajaController.js:12-28 | refused while the operator has an open register; otherwise the register `Caja.create` builds |
| ControladorCajas.AperturaConservaUnicidad | src/controllers/cajaController.js:24-28 | adding an accepted new register keeps at most one open register per operator |
| ControladorCajas.CierreConservaUnicidad | src/controllers/cajaController.js:77-83 | replacing a register by a closed one keeps the invariant |
| ControladorCajas.VentasTotalesAgregar | src/controllers/cajaController.js:68-74 | a new sale adds its total to the closing sum exactly when it is a paid cash sale of this register; a credit sale never counts |
| ControladorCajas.VentasTotalesActualizar | src/controllers/cajaController.js:68-74 | changing a recorded sale changes the closing sum by the difference of the two contributions |
| ControladorCajas.Cierre | src/controllers/cajaController.js:77-81 | closed, closing time and amount recorded, sales = the paid cash sales of the register, day's gain = closing − opening; nothing else changes |
| ControladorCajas.CerrarRegistro | src/controllers/cajaController.js:60-83 | a closed register is refused; an open one is closed and saved exactly when the opening and closing amounts are ≥ 0 |
| ControladorCajas.SegundoCierreFalla | src/controllers/cajaController.js:60-65 | closing a register a second time is refused |
| ControladorCajas.ReglasDeCierreDifieren | src/models/Caja.js:51 | opening 50000, no sales, closing 62000: the document method reports sales of 12000, the controller sales of 0 and a gain of 12000 |
| ControladorCajas.EscenarioCierre | src/controllers/cajaController.js:68-80 | a paid cash sale of 12000 and a credit sale of 5000: the controller records sales of 12000 and a gain of 12000 |
| ControladorVentas.DescontarSalaPrimero | src/controllers/ventaController.js:59-70 | the floor gives what it has, the warehouse the rest; total stock drops by exactly the quantity; the warehouse is touched only once the floor is empty; neither goes negative when the quantity is at most the total; nothing else changes |
| ControladorVentas.EscenarioDescuento | src/controllers/ventaController.js:59-70 | floor 3, warehouse 5, selling 5: floor 0, warehouse 3 |
| ControladorVentas.ProcesarItem | src/controllers/ventaController.js:31-72 | an unknown product stops the loop as not found, too little total stock as insufficient, and a stop leaves the products as they were |
| ControladorVentas.ProcesarItemPaso | src/controllers/ventaController.js:49-72 | over a saved catalogue, an item that goes through saves exactly the floor-first deduction and pushes the line priced at the current sale price |
| ControladorVentas.ProcesarItemsErrores | src/controllers/ventaController.js:30-73 | the loop stops only as not found, insufficient stock or a validation error |
| ControladorVentas.ProcesarItemsCorte | src/controllers/ventaController.js:30-73 | a loop that stops does so at some item, with the products holding the deductions of every item before it |
| ControladorVentas.ProcesarItemsCatalogo | src/controllers/ventaController.js:72 | the loop leaves a saved catalogue of the same size, whether it finishes or stops |
| ControladorVentas.ProcesarItemsStock | src/controllers/ventaController.js:59-72 | when every item goes through, each product's total stock drops by exactly what the items ask of it, and nothing but its stock counters changes |
| ControladorVentas.ProcesarItemsLineas | src/controllers/ventaController.js:49-57 | one line per item, in order, each priced from the catalogue as it was before the sale |
| ControladorVentas.ProcesarItemsSubtotal | src/controllers/ventaController.js:49-50 | the running subtotal is the sum of the pushed lines' subtotals |
| ControladorVentas.PostearVenta | src/controllers/ventaController.js:9-107 | without an open register nothing changes and posting fails; a recorded sale is on the operator's open register with the given time; a request that is not a credit sale changes no customer |
| ControladorVentas.PostearVentaPaso | src/controllers/ventaController.js:100-107 | a recorded sale has every item processed, its lines are the pushed lines with quantities ≥ 1, subtotal = total = their sum, and it has a customer exactly when it is a credit sale |
| ControladorVentas.PostearVentaRegistro | src/controllers/ventaController.js:30-73 | a recorded sale leaves a saved catalogue where each product's stock dropped by exactly what was asked of it, and has one line per item priced from the catalogue before the sale |
| ControladorVentas.PostearVentaCredito | src/controllers/ventaController.js:76-97 | a recorded credit sale names an existing customer whose debt rose by exactly the total and stays within the limit; no other customer or field changes; the sale is Pendiente with no amount tendered |
| ControladorVentas.PostearVentaContado | src/controllers/ventaController.js:100-107 | a recorded cash sale changes no customer, is Pagada, has no customer, carries the amount tendered when the request said Contado and none when the type was absent, and gives change = tendered − total |
| ControladorVentas.PostearVentaCreditoRechazado | src/controllers/ventaController.js:72-92 | a credit charge refused by the limit leaves no customer changed but every item's deduction saved |
| ControladorVentas.PostearVentaCorte | src/controllers/ventaController.js:30-73 | posting that stops at an item leaves the products as the loop over the items before it saved them |
| ControladorVentas.EscenarioCreditoNoAtomico | src/controllers/ventaController.js:59-92 | a refused credit sale of 5 units still empties the floor and takes 2 from the warehouse |
| ControladorVentas.EscenarioCantidadNegativa | src/controllers/ventaController.js:41-72 | a quantity of −2 raises the floor stock by 2 and only the record fails |
| ControladorVentas.PagarVentaCredito | src/controllers/ventaController.js:203-235 | not found, not a credit sale, and already paid are refused in that order, changing nothing; a sale without a customer fails; a customer whose debt is below the sale's total is refused by the debt's `min: 0` on save, changing nothing; when the customer was saved but the paid sale then fails validation, the error is a validation error and the lowered debt stays saved; on success exactly that customer's debt drops by the sale's total, with no clamp, and the sale is saved through the hook (as written or corrected) |
| ControladorVentas.EscenarioAbonoAntesDePago | src/controllers/ventaController.js:229-231 | a credit sale of 5000 whose customer first paid 2000 through an abono: settling it is refused as a validation error under either hook, and nothing changes |
| ControladorVentas.PagoTalCualSeRepite | src/controllers/ventaController.js:229-235 | with the hook as written, the settled sale is still Pendiente, and settling it again lowers the debt a second time |
| ControladorVentas.PagoCorregidoUnaVez | src/controllers/ventaController.js:229-235 | with the corrected hook, the settled sale is Pagada, and settling it again is refused and changes nothing |
| ControladorVentas.PagoAceptado | src/controllers/ventaController.js:229-235 | a pending credit sale owed by a customer whose debt covers it is settled, and only that customer's debt changes |
| ControladorVentas.PostearVentaCreditoDocumento | src/controllers/ventaController.js:100-107 | the recorded credit sale is the hook applied to the new document with the customer and without an amount tendered |
| ControladorVentas.VentaCreditoLiquidable | src/controllers/ventaController.js:100-107 | a recorded credit sale is Pendiente with a total ≥ 0, and its paid document passes validation |
| ControladorVentas.CobroYPagoSeCancelan | src/controllers/ventaController.js:229-231 | charging a credit sale and then settling it returns every customer to where they were |
| ControladorCompras.IngresarLinea | src/controllers/comprasController.js:112-118 | a line without a product reference, or with an unknown one, changes nothing |
| ControladorCompras.IngresarNoTocaSala | src/controllers/comprasController.js:116 | intake never changes floor stock, whether or not the loop finishes |
| ControladorCompras.IngresarLineaCatalogo | src/controllers/comprasController.js:112-117 | over a saved catalogue a line's save succeeds, and only the product it names gains its quantity in the warehouse |
| ControladorCompras.IngresarBodega | src/controllers/comprasController.js:111-120 | over a saved catalogue, every save succeeds and each product's warehouse stock rises by the sum of the lines naming it, repeats included; nothing else changes |
| ControladorCompras.IngresarStockGlobal | src/controllers/comprasController.js:108-121 | total stock rises by exactly the quantities of the lines naming existing products |
| ControladorCompras.CrearFactura | src/controllers/comprasController.js:102-121 | an invalid invoice fails validation and a used number fails; otherwise the saved invoice is stored and the intake loop runs over its lines, even if intake later fails |
| ControladorCompras.CrearFacturaIngresa | src/controllers/comprasController.js:102-121 | over a saved catalogue an accepted invoice completes its intake, and each product's warehouse stock rises by what its lines bring |
| ControladorCompras.EscenarioIngresoAcumulado | src/controllers/comprasController.js:111-120 | lines of 4 and 6 units for one product and one unreferenced line: its warehouse stock rises by 10, its floor stock stays |
| Reportes.PeriodoDe | src/controllers/reportesController.js:17-22 | there is a date filter exactly when both dates are given |
| Reportes.VentasDelPeriodo | src/controllers/reportesController.js:17-24 | exactly the sales created in the period; with no filter, all of them |
| Reportes.AcumuladoLinea | src/controllers/reportesController.js:32-40 | one step of the inner `forEach` keeps the grouping invariant: one entry per product seen so far, each holding the sums so far |
| Reportes.Agrupar | src/controllers/reportesController.js:29-42 | the dictionary has an entry exactly for each product sold, holding its summed units and revenue |
| Reportes.AcumularLineas | src/controllers/reportesController.js:30-41 | adding one sale's lines keeps the grouping invariant |
| Reportes.Valores | src/controllers/reportesController.js:45 | the entries in order of first appearance |
| Reportes.OrdenarFilas | src/controllers/reportesController.js:46-50 | a permutation of the rows, by units sold, descending for "mas" and ascending otherwise |
| Reportes.ReporteProductosVendidos | src/controllers/reportesController.js:12-50 | one row per product sold in the period, each once, holding its summed units and revenue; sorted descending when the type is "mas" or absent, ascending otherwise |
| Reportes.FilasCorrectas | src/controllers/reportesController.js:27-45 | the rows of the dictionary cover exactly the products sold, each once, with their sums |
| Reportes.TotalVentasAgregar | src/controllers/reportesController.js:83-89 | a new sale counts in the profit report exactly when it is a paid cash sale of the period; a credit sale never counts |
| Reportes.TotalCostosAgregar | src/controllers/reportesController.js:92-97 | a new invoice counts as a cost exactly when it is a paid invoice of the period |
| Reportes.ReporteGananciaReal | src/controllers/reportesController.js:70-100 | the totals are the paid cash sales and the paid invoices of the period, and the net profit is their difference |
| Reportes.ExportarContable | src/controllers/reportesController.js:129-197 | refused exactly when a date is missing; otherwise all paid sales and all invoices of the period, and the profit is their difference |
| Reportes.TotalPagadasDescompone | src/controllers/reportesController.js:144 | the export's sales are the profit report's plus the paid credit sales |
| Reportes.TotalFacturasCubreCostos | src/controllers/reportesController.js:147 | with invoice totals ≥ 0, the export's purchases are at least the profit report's costs, and equal when every invoice is paid |
| Reportes.EscenarioGanancias | src/controllers/reportesController.js:195-197 | a paid cash sale of 12000, a paid credit sale of 5000, a paid invoice of 7000 and a pending one of 3000: the profit report nets 5000, the export 7000 |
| Tienda.Tienda.CrearProducto | src/controllers/productoController.js:6-8 | a product that fails validation is refused; otherwise the saved product is appended under the next id |
| Tienda.Tienda.ActualizarProducto | src/controllers/productoController.js:75-90 | an unknown id is not found; otherwise the outcome of `ControladorProductos.ActualizarProducto`, stored on success; the invariant holds |
| Tienda.Tienda.ActualizarStock | src/controllers/productoController.js:109-125 | an unknown id is not found; otherwise the product with the given counters, saved, stored on success |
| Tienda.Tienda.EliminarProducto | src/controllers/productoController.js:198-210 | an unknown id is not found; in a valid store the product is deactivated and stored |
| Tienda.Tienda.TransferirStock | src/controllers/productoController.js:228-290 | the request checks come before the lookup; every refusal leaves the products unchanged; on success the product's total stock is unchanged, and in a valid store only that product changes, by the move |
| Tienda.Tienda.AbrirCaja | src/controllers/cajaController.js:7-28 | the outcome of `Apertura`, appended on success; at most one open register per operator |
| Tienda.Tienda.CerrarCaja | src/controllers/cajaController.js:47-83 | an unknown id is not found; otherwise the outcome of `CerrarRegistro` over the recorded sales, stored on success |
| Tienda.Tienda.RegistrarAbono | src/controllers/clienteController.js:209-248 | an unknown id is not found; otherwise the outcome of `ControladorClientes.RegistrarAbono`, stored on success |
| Tienda.Tienda.EliminarCliente | src/controllers/clienteController.js:172-191 | an unknown id is not found; otherwise the outcome of `Eliminar`, stored on success |
| Tienda.Tienda.DescontarPedido | src/controllers/ventaController.js:30-73 | the item loop over the store is the function `ProcesarItems`, including the saves kept by an early return |
| Tienda.Tienda.DescontarItem | src/controllers/ventaController.js:31-72 | one iteration over the store is the function `ProcesarItem` |
| Tienda.Tienda.CobrarYRegistrar | src/controllers/ventaController.js:76-107 | the credit charge and the record over the store are the function `Cobrar` |
| Tienda.Tienda.CrearVenta | src/controllers/ventaController.js:9-107 | products, customers and sales end exactly as `PostearVenta` says; registers and invoices do not change |
| Tienda.Tienda.PagarVentaCredito | src/controllers/ventaController.js:203-235 | customers and sales end as `PagarVentaCredito` with the corrected hook says |
| Tienda.Tienda.IngresarLineas | src/controllers/comprasController.js:108-121 | the intake loop over the store is the function `Ingresar`, including the saves kept when a save fails |
| Tienda.Tienda.IngresarLinea | src/controllers/comprasController.js:112-118 | one intake iteration over the store is the function `IngresarLinea` |
| Tienda.Tienda.CrearFactura | src/controllers/comprasController.js:99-121 | invoices and products end exactly as `ControladorCompras.CrearFactura` says |

## Left out

- HTTP routing, requests and responses, authentication and roles, the browser code, and the seed script. The operator id and the current time are parameters.
- Database queries become scans of the store's sequences. `populate` is not modelled. This includes the null dereference a report would hit on a line whose product document was removed; products are only ever deactivated here.
- Handlers outside this core are not part of this model. These are plain listing, lookup and edit handlers: `obtenerVentas`, `obtenerVenta`, `obtenerHistorialCajas`, `obtenerProximosVencer`, the customer, supplier, user, maintenance, order and invoice listing and editing handlers, and `crearOrden`. `OrdenCompra` is modelled as a document with its hook only.
- The Excel workbook of `exportarContable`: only its summary figures are modelled. The `margenGanancia` percentage string and the echoed period labels of `reporteGananciaReal` are left out too.
- Concurrency, and the absence of database transactions between concurrent requests. The model is sequential. The non-atomic order of saves within one request is modelled.
- IEEE floating point.
  - Prices and amounts are exact numbers.
  - `Facturas.Iva` is exact half-up rounding of 19% of the subtotal. `Math.round(subtotal * 0.19)` on floats can differ at the .5 boundary.
- Money downstream of the sale price is `real`, not integer. This covers sale lines, sale totals, customer debt and limits, and register amounts. The sale price need not be whole, and sale lines multiply it. Invoice and order amounts are integers.
- Dates are integers (milliseconds). Date strings and invalid dates are not parsed.
- JavaScript truthiness of request fields is reduced to present/absent, plus the comparisons the code makes. A missing transfer origin or destination is modelled as the empty string.
- Tienda.Tienda.CerrarCaja: the closing amount is always given. The code would store `undefined` and compute NaN when the request omits it.
- String validators beyond an invoice number being non-empty are not modelled: required names, `trim`, and the supplier and user references.
- Default values of an invoice's payment status and payment method are not modelled; they come with the request's document.
- Error kinds are finer than the HTTP status codes. For example, an invalid transfer and a missing origin are both a 400 there. Every exception caught by a handler is either a validation error or `ServerError`.
- Orden.Ordenar: it is an insertion sort that keeps equal keys in input order. That stability matches JavaScript's sort, but it is not stated or proved.
- ControladorClientes.ClientesConDeuda: the order among customers with equal debt is not stated.
- Tienda.Tienda.PagarVentaCredito: it uses the corrected sale hook (see Findings). The hook as written is modelled and proved about in `ControladorVentas.PagarVentaCredito` with `corregido == false`.

## Findings

| source | as written | input that shows it | evidently intended | confidence | as-written member | corrected member |
|---|---|---|---|---|---|---|
| src/controllers/ventaController.js:234-235 with src/models/Venta.js:93-95 | `pagarVentaCredito` sets the sale to Pagada and saves it. The sale's pre-save hook resets every credit sale to Pendiente on every save, so the settled sale stays Pendiente, and a second settlement is accepted and lowers the debt again | a pending credit sale of total T, owed by a customer with debt ≥ 2T, settled twice | a credit sale starts Pendiente when it is created, and a settled sale stays Pagada, so a second settlement is refused as already paid | not executed | ControladorVentas.PagoTalCualSeRepite | ControladorVentas.PagoCorregidoUnaVez |
