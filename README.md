# lofinett credit front end — a Dafny model

lofinett is a small credit-management web front end: clients, credit
operations, collections and payments, credit-risk analyses and client
documents, a loan calculator and a configurable table of monthly interest
rates by installment count. Almost everything lives in React components that
hold sample data, filter it, validate forms and build the records passed to
`onSave`.

This project models that logic in Dafny and proves what it does:

- **The rate service** (`TasasService`). It covers the default rate table, the first-match lookup by installment count with its 10 % fallback, and the key-value store read and written through `getTasasInteres`, `saveTasasInteres` and `resetTasasInteres`.
- **The rate editor** (`TasasConfig`). It covers row edits, the new-row id, deletion, the nested overlap check with its early returns, and the sort by `min` before saving.
- **The two financing calculations.**
  - The loan calculator's annuity ("French system") schedule (`Calculadora`), with the exact payoff proved for a positive rate.
  - The new-operation page's flat-interest plan (`OperacionForm`).
- **The dialogs** for new clients, new operations, collections, payments, analyses and documents. Each has its initial form, its field-by-field validation with the exact messages, its `handleChange` clearing of messages, and the record it hands to `onSave`.
- **The list pages** (clients, operations, payments, analyses, documents). Each covers the base list, the chain of guarded filters and deletion by id. The payment list also covers its total, and the analysis and document lists cover the new-id rule.
- **The detail pages** (client, operation): the lookup by route id, the related lists, and the sample installment schedule.
- **The thousands-separator formatter** of the amount inputs (`Miles`), proved to keep the digits, to group them correctly and to be idempotent.

Shared vocabulary lives in `Common`:

- `Option`;
- dates as `Fecha(mes, dia)`;
- an ASCII/Latin-1 `toLowerCase`, `includes`, `trim`;
- `Array.filter` and `Array.find` over sequences;
- `parseInt` of digit text;
- the `Math.max(...ids) + 1` id rule.

How JavaScript values are represented:

- Money is `real`.
- A form input that may be blank is an `Option` (`None` for `''`).
- `parseInt` of a route parameter is `Option<int>` (`None` for NaN).

A component's state (`useState`) becomes a class whose fields the handlers reassign. A pure helper becomes a function, and a loop becomes a method with its invariants.

## Model

| member | source | states |
|---|---|---|
| TasasService.BuscarRango | frontend/src/services/configuracionService.js:54-56 | the index found is the first range covering the count; it is absent exactly when no range covers it |
| TasasService.TasaPara | frontend/src/services/configuracionService.js:50-59 | the rate is that of the first covering range, or 10.0 when none covers the count |
| TasasService.DefaultTasaDoce | frontend/src/services/configuracionService.js:8-14 | with the default table, 12 installments get 12 % and 1000 installments get the 10 % fallback |
| TasasService.Leer | frontend/src/services/configuracionService.js:20-27 | the table read is the stored one when a table is stored and readable, and the defaults otherwise or when the read throws |
| TasasService.ConfigStore.constructor | frontend/src/services/configuracionService.js:5 | the store starts with the given entries and failure flags |
| TasasService.ConfigStore.GetTasasInteres | frontend/src/services/configuracionService.js:20-27 | returns the stored table or the defaults, as `Leer` says, and changes nothing |
| TasasService.ConfigStore.SaveTasasInteres | frontend/src/services/configuracionService.js:35-42 | returns true exactly when the write does not throw; a successful save is what a later read returns, and a failed one leaves the store as it was |
| TasasService.ConfigStore.GetTasaForCuotas | frontend/src/services/configuracionService.js:50-59 | the rate for the count in the table currently read |
| TasasService.ConfigStore.ResetTasasInteres | frontend/src/services/configuracionService.js:66-73 | always returns the defaults; when the write succeeds, a later read returns them too |
| TasasService.SaveThenRead | frontend/src/services/configuracionService.js:20-42 | reading after saving gives back the saved table; writing another key does not change what is read |
| TasasConfig.TablaInicial | frontend/src/components/configuracion/TasasInteresConfig.jsx:7-13 | the given table when it is non-empty, else the five default ranges |
| TasasConfig.AplicarCambio | frontend/src/components/configuracion/TasasInteresConfig.jsx:17-22 | the edited field takes the value (numeric fields through `Number`, blank as 0); the id and other fields are kept |
| TasasConfig.HandleInputChange | frontend/src/components/configuracion/TasasInteresConfig.jsx:16-23 | same length; rows with another id are unchanged; rows with that id get the edit |
| TasasConfig.NuevoId | frontend/src/components/configuracion/TasasInteresConfig.jsx:27 | the new id is at least 1 and above every listed id; it is 1 or one above a listed id, so it is one above the largest of the ids and 0 |
| TasasConfig.AgregarRango | frontend/src/components/configuracion/TasasInteresConfig.jsx:25-36 | the old rows are kept in order, followed by one row with id `NuevoId`, range 1..12, rate 10 and the description "Nuevo rango " and that id |
| TasasConfig.EliminarRangoExacto | frontend/src/components/configuracion/TasasInteresConfig.jsx:38-40 | deletion keeps, in order, exactly the rows with another id, every occurrence of each |
| TasasConfig.PrimerSolape | frontend/src/components/configuracion/TasasInteresConfig.jsx:59-68 | nothing is found exactly when row `i` overlaps none of the rows from `j` on; otherwise the message names row `i` and one of those rows it overlaps |
| TasasConfig.PrimerErrorNinguno | frontend/src/components/configuracion/TasasInteresConfig.jsx:42-74 | the scan-order first fault `PrimerError` is absent exactly on the tables where every row has min <= max and a non-negative rate and no two rows overlap |
| TasasConfig.PrimerErrorDesdeFalla | frontend/src/components/configuracion/TasasInteresConfig.jsx:44-69 | the fault the scan reports from row `i` on is the crossed bounds or negative rate of such a row, or an overlap of such a row with a later one |
| TasasConfig.PrimeraFilaCruzada | frontend/src/components/configuracion/TasasInteresConfig.jsx:47-51 | a first row with min > max is reported by its bounds, before its rate or any overlap is looked at |
| TasasConfig.BuscarSolape | frontend/src/components/configuracion/TasasInteresConfig.jsx:59-68 | the inner loop returns exactly `PrimerSolape` from the next row: the first later row overlapping row `i`, in order |
| TasasConfig.ValidarConfiguracion | frontend/src/components/configuracion/TasasInteresConfig.jsx:42-74 | accepts exactly the tables where every row has min <= max and a non-negative rate and no two rows overlap; the error is empty exactly on acceptance; otherwise it is exactly `PrimerError`, the first fault in scan order (per row: bounds, then rate, then its overlaps with later rows in order), which names a faulty row or an overlapping pair |
| TasasConfig.EscalonadaSinSuperposicion | frontend/src/components/configuracion/TasasInteresConfig.jsx:60-69 | a table whose ranges strictly ascend without touching has no overlap and is sorted by `min` |
| TasasConfig.DefaultTasasValidas | frontend/src/components/configuracion/TasasInteresConfig.jsx:7-13 | the default table passes validation and is already sorted by `min` |
| TasasConfig.ContactoEsSuperposicion | frontend/src/components/configuracion/TasasInteresConfig.jsx:64-65 | two ranges that share only a bound count as overlapping, so the table is rejected |
| TasasConfig.AgregarAlDefaultNoValida | frontend/src/components/configuracion/TasasInteresConfig.jsx:29-35 | a row added to the defaults (1..12) overlaps them, so the table no longer validates |
| TasasConfig.AgregarVeinticincoValida | frontend/src/components/configuracion/TasasInteresConfig.jsx:42-74 | the defaults plus a 25..36 range validate |
| TasasConfig.Insertar | frontend/src/components/configuracion/TasasInteresConfig.jsx:79 | inserting into a sorted table gives a sorted table that is a permutation of the old one plus the new row |
| TasasConfig.OrdenarPorMin | frontend/src/components/configuracion/TasasInteresConfig.jsx:79 | the result is sorted by `min` and is a permutation of the input |
| TasasConfig.GuardarConfiguracion | frontend/src/components/configuracion/TasasInteresConfig.jsx:76-82 | `onSave` receives a table exactly when validation passes, and that table is the input sorted by `min` (a permutation); the error is empty exactly then |
| Calculadora.CalculateFrenchSystem | frontend/src/components/calculadoras/CalculadoraPrestamos.jsx:14-59 | the installment is the annuity formula on principal plus fees; there is one row per payment, each the loop's step from the previous balance; the totals are as defined; with a positive rate the balance ends at 0 |
| Calculadora.PlanCorrectoExtendido | frontend/src/components/calculadoras/CalculadoraPrestamos.jsx:28-48 | appending the loop's next step to a correct schedule keeps it correct |
| Calculadora.SaldosAcotados | frontend/src/components/calculadoras/CalculadoraPrestamos.jsx:36-38 | every stored balance is 0 or at least the clamp threshold |
| Calculadora.SaldoGeometrico | frontend/src/components/calculadoras/CalculadoraPrestamos.jsx:28-40 | the capital paid grows geometrically with factor 1 + r, the fact behind the exact payoff |
| Calculadora.CuotaFrancesaAmortiza | frontend/src/components/calculadoras/CalculadoraPrestamos.jsx:22 | after n exact payments of the annuity installment the balance is 0 |
| Calculadora.CuotaNoNegativa | frontend/src/components/calculadoras/CalculadoraPrestamos.jsx:22 | with a positive rate the denominator is positive, and with a non-negative principal the installment is non-negative |
| Calculadora.SaldosDelPlan | frontend/src/components/calculadoras/CalculadoraPrestamos.jsx:28-48 | every balance of the generated schedule is 0 or the exact balance after that many payments |
| Calculadora.PlanAmortiza | frontend/src/components/calculadoras/CalculadoraPrestamos.jsx:28-48 | with a positive rate and a non-negative principal, the last balance of the schedule is 0 |
| Calculadora.ActualizarTasa | frontend/src/components/calculadoras/CalculadoraPrestamos.jsx:73-81 | with an installment count selected, the rate field takes the configured rate for that count; otherwise the form is unchanged |
| Calculadora.HandleCalcular | frontend/src/components/calculadoras/CalculadoraPrestamos.jsx:91-109 | the alert is shown exactly when amount, count or rate is missing; a non-finite result exactly when fees are blank or the power is 1; otherwise the installment is the annuity formula on amount plus fees, one row per installment, each row the loop's step from the previous balance (`PlanCorrecto`), the totals as defined, and with a positive rate a last balance of 0 |
| Calculadora.PlanCorrectoUnico | frontend/src/components/calculadoras/CalculadoraPrestamos.jsx:28-48 | two schedules that are each the loop's steps for the same principal, rate and installment, and of the same length, are equal: the schedule is determined |
| Miles.SoloDigitos | frontend/src/components/operaciones/OperacionModal.jsx:201 | the result holds only digits, is a subsequence of the input, and holds every occurrence of each of the input's digits |
| Miles.SinPuntos | frontend/src/components/operaciones/OperacionModal.jsx:212 | the result is a subsequence of the input holding every occurrence of each character other than `.` and no dot |
| Miles.Agrupar | frontend/src/components/operaciones/OperacionModal.jsx:203 | the spelled-out grouping adds one dot per full group of three digits after the first |
| Miles.ReemplazoEsAgrupar | frontend/src/components/operaciones/OperacionModal.jsx:203 | the regular-expression replacement equals the grouping from the right |
| Miles.AgruparBienAgrupado | frontend/src/components/operaciones/OperacionModal.jsx:203 | the grouping is 1 to 3 digits followed by groups of a dot and three digits |
| Miles.AgruparSinPuntos | frontend/src/components/operaciones/OperacionModal.jsx:203 | deleting the dots of the grouping gives the digits back |
| Miles.FormatoCorrecto | frontend/src/components/operaciones/OperacionModal.jsx:199-204 | the formatted text is the input's digits in order with dots inserted; it is empty exactly when the input has no digits, and well grouped otherwise |
| Miles.FormatoIdempotente | frontend/src/components/clientes/ClienteModal.jsx:107-112 | formatting a formatted text changes nothing |
| Miles.SoloDigitosSinPuntos | frontend/src/components/operaciones/OperacionModal.jsx:212-215 | deleting the dots first keeps the same digits |
| Miles.HandleCurrencyInput | frontend/src/components/operaciones/OperacionModal.jsx:207-221 | the input shows the formatted digits and the form stores their value (0 when there are none) |
| Miles.CincuentaMil | frontend/src/components/clientes/ClienteModal.jsx:274 | the default limit 50000 is shown as `50.000` |
| OperacionModal.BuscarCliente | frontend/src/components/operaciones/OperacionModal.jsx:98 | the client found is the first in the list with that id; none is found exactly when no client has it |
| OperacionModal.FormInicial | frontend/src/components/operaciones/OperacionModal.jsx:14-21 | the preselected client, no amount, 12 installments, 45 %, today, no remarks |
| OperacionModal.Redondear | frontend/src/components/operaciones/OperacionModal.jsx:67 | `Math.round`: the nearest integer, halves rounded up |
| OperacionModal.CalcularOperacion | frontend/src/components/operaciones/OperacionModal.jsx:58-84 | the total is the amount plus the rate charged once; the installment is the total divided by the count, rounded; the due date is the start plus the count in months |
| OperacionModal.CuotasCubrenTotal | frontend/src/components/operaciones/OperacionModal.jsx:65-67 | the installments add up to the total within half a unit per installment |
| OperacionModal.Recalcular | frontend/src/components/operaciones/OperacionModal.jsx:50-56 | the calculation is redone only when amount, count and rate are all set (and a start date exists); otherwise the last one is kept |
| OperacionModal.ValidateForm | frontend/src/components/operaciones/OperacionModal.jsx:109-150 | ok exactly when no message is set and the form is valid; the exact message of each field: a missing client, an inactive one, a missing amount, an amount over the limit, missing or non-positive installments or rate, a missing date |
| OperacionModal.InactivoRechazado | frontend/src/components/operaciones/OperacionModal.jsx:113-119 | sample client 4 is inactive and is refused; client 1 is not |
| OperacionModal.NuevaOperacion | frontend/src/components/operaciones/OperacionModal.jsx:167-176 | the record's id is the clock reading `Date.now()` passed in; it has state "Activa", the parsed amount, the last calculation, and the client's name or "Cliente"; the other fields come from the form |
| OperacionModal.DialogoOperacion.constructor | frontend/src/components/operaciones/OperacionModal.jsx:23-47 | the initial form; a preselected id that names a sample client selects it |
| OperacionModal.DialogoOperacion.CambiarCliente | frontend/src/components/operaciones/OperacionModal.jsx:88-107 | the id is stored; a chosen id looks the client up; the client's message is cleared |
| OperacionModal.DialogoOperacion.IngresarMonto | frontend/src/components/operaciones/OperacionModal.jsx:207-221 | the input shows the formatted text, the form stores the digits' value, and the calculation is refreshed |
| OperacionModal.DialogoOperacion.HandleChange | frontend/src/components/operaciones/OperacionModal.jsx:88-105 | the edited field (installments, rate, date or remarks) takes the value and only its own message is cleared; the calculation is refreshed except for the remarks; the selected client is kept |
| OperacionModal.DialogoOperacion.HandleSubmit | frontend/src/components/operaciones/OperacionModal.jsx:153-188 | a record is produced exactly when the form is valid; it is `NuevaOperacion` of the form with the given clock reading as id, and the form is reset; the messages are exactly `MensajesDe` the submitted form, one per faulty field |
| OperacionForm.FormInicial | frontend/src/pages/operaciones/OperacionForm.jsx:16-23 | no client, amount or rate; 12 installments, fees 0, today as start date |
| OperacionForm.GenerarPlan | frontend/src/pages/operaciones/OperacionForm.jsx:134-155 | the plan equals the closed-form `PlanPlano`: total = amount plus fees times (1 + rate × n); installment = total / n; for n > 0 exactly n rows, row k due k months after the start, leaving total − k installments; no rows and no date read for n < 0 |
| OperacionForm.PlanSaldaDeuda | frontend/src/pages/operaciones/OperacionForm.jsx:140-155 | the last balance is 0; due dates strictly increase; a positive amount at a non-negative rate gives a positive installment, and then the balances strictly decrease |
| OperacionForm.VencimientosCrecientes | frontend/src/pages/operaciones/OperacionForm.jsx:145-150 | the plan's due dates strictly increase |
| OperacionForm.SaldosDecrecientes | frontend/src/pages/operaciones/OperacionForm.jsx:146-153 | with a positive installment, each later balance is strictly below every earlier one |
| OperacionForm.Financiar | frontend/src/pages/operaciones/OperacionForm.jsx:113-163 | the message exactly when amount, count or rate is not a number; an exception exactly when the loop would run on a cleared start date; otherwise the results `Esperado` gives: non-finite when fees are blank or the count is 0, else the flat plan |
| OperacionForm.FormularioOperacion.constructor | frontend/src/pages/operaciones/OperacionForm.jsx:16-36 | the initial form, empty results, no error, not calculating |
| OperacionForm.FormularioOperacion.HandleChange | frontend/src/pages/operaciones/OperacionForm.jsx:104-110 | the edited input's field takes the value; the other fields, the results and the error are unchanged |
| OperacionForm.FormularioOperacion.ActualizarInteres | frontend/src/pages/operaciones/OperacionForm.jsx:93-101 | with a count set, the monthly rate becomes the configured one for that count; nothing else changes |
| OperacionForm.FormularioOperacion.CalcularFinanciamiento | frontend/src/pages/operaciones/OperacionForm.jsx:113-163 | on unreadable input it sets the message and keeps the results; it reports the exception exactly when the date conversion throws, changing nothing; otherwise the results become `Esperado`'s for the given fields and the form's start date |
| OperacionForm.FormularioOperacion.HandleCalcular | frontend/src/pages/operaciones/OperacionForm.jsx:166-181 | for the form's own fields: the message and the old results, not calculating; or, on a cleared start date, no error, the old results and still calculating; or no error and `Esperado`'s results, not calculating |
| OperacionForm.FormularioOperacion.HandleSubmit | frontend/src/pages/operaciones/OperacionForm.jsx:184-194 | accepted exactly when client, amount and count are filled in; otherwise the required-fields message; form and results unchanged |
| OperacionDetalle.GenerarCuotasEjemplo | frontend/src/pages/operaciones/OperacionDetalle.jsx:112-149 | one installment per count, each due k + 1 months after the start; "Pagada" for the first two of an active operation and for all of a cancelled one, with the payment date 5 or 3 days before the due date |
| OperacionDetalle.PagoAntesDelVencimiento | frontend/src/pages/operaciones/OperacionDetalle.jsx:116-137 | a paid installment carries a payment date before its due date, and due dates strictly increase |
| OperacionDetalle.FetchOperacionData | frontend/src/pages/operaciones/OperacionDetalle.jsx:160-195 | not found exactly when the id is NaN or no sample operation has it; otherwise the operation, its sample schedule and exactly its payments |
| OperacionesList.HandleBusqueda | frontend/src/pages/operaciones/OperacionesList.jsx:65-78 | every sample operation for an empty query; otherwise exactly those whose client name contains the query, ignoring case, in order |
| OperacionesList.MayusculasIndiferentes | frontend/src/pages/operaciones/OperacionesList.jsx:74 | two queries equal after lowercasing give the same list |
| OperacionesList.BusquedaEnMinusculas | frontend/src/pages/operaciones/OperacionesList.jsx:74 | the lowercased query gives the same list as the query |
| ClientesList.HandleBusqueda | frontend/src/pages/clientes/ClientesList.jsx:54-128 | the fixed list for an empty query; otherwise exactly the clients whose name (ignoring case) or document contains the query, in order |
| ClientesList.BusquedaVaciaEsFiltro | frontend/src/pages/clientes/ClientesList.jsx:58-126 | the empty-query branch gives what the filter would give |
| ClientesList.BuscarDocumento | frontend/src/pages/clientes/ClientesList.jsx:123-126 | part of a document number finds that client only |
| ClientesList.NoContiene | frontend/src/pages/clientes/ClientesList.jsx:124-125 | no text contains a query when no position where it would fit starts with its first character |
| ClientesList.HandleDelete | frontend/src/pages/clientes/ClientesList.jsx:130-135 | exactly the clients with another id, in order, every occurrence of each |
| ClientesList.BorradoReaparece | frontend/src/pages/clientes/ClientesList.jsx:54-135 | a client deleted from the list comes back after an empty search |
| ClienteDetalle.FetchClienteData | frontend/src/pages/clientes/ClienteDetalle.jsx:152-191 | not found exactly when no sample client has the route's id; otherwise that client with exactly its operations and payments, in order |
| ClienteDetalle.ClienteUno | frontend/src/pages/clientes/ClienteDetalle.jsx:160-180 | client 1 has operations 1 and 4 and payments 1 and 4 |
| ClienteDetalle.ClienteDesconocido | frontend/src/pages/clientes/ClienteDetalle.jsx:162-166 | an id no client has is reported as not found |
| ClienteDetalle.RutaNoNumerica | frontend/src/pages/clientes/ClienteDetalle.jsx:160-166 | a route that is not a number finds no client |
| ClienteModal.EmailEjemplo | frontend/src/components/clientes/ClienteModal.jsx:52 | an ordinary address matches the pattern |
| ClienteModal.EmailsInvalidos | frontend/src/components/clientes/ClienteModal.jsx:52 | addresses without a dot after the `@` part, or with nothing between `@` and the dot, do not match |
| ClienteModal.ValidateForm | frontend/src/components/clientes/ClienteModal.jsx:39-72 | ok exactly when no message is set and the form is valid; the exact message per field: blanks after trimming, a missing e-mail, a malformed one, a missing limit |
| ClienteModal.NombreEnBlanco | frontend/src/components/clientes/ClienteModal.jsx:42-44 | a name made of blanks only is rejected as missing |
| ClienteModal.LimiteSinDigitos | frontend/src/components/clientes/ClienteModal.jsx:64-68 | a limit typed without digits is stored as 0 and rejected as missing |
| ClienteModal.DialogoCliente.constructor | frontend/src/components/clientes/ClienteModal.jsx:6-15 | empty texts, a limit of 50000, "Activo", no messages |
| ClienteModal.DialogoCliente.HandleChange | frontend/src/components/clientes/ClienteModal.jsx:25-36 | the field takes the value; its message is cleared |
| ClienteModal.DialogoCliente.HandleCurrencyInput | frontend/src/components/clientes/ClienteModal.jsx:115-145 | the input shows the formatted digits, the limit stores their value, and only the limit's message is cleared |
| ClienteModal.DialogoCliente.HandleSubmit | frontend/src/components/clientes/ClienteModal.jsx:75-104 | a new client is produced exactly when the form is valid, with the clock's id and today's date; the form is reset; the messages are exactly `MensajesDe` the submitted form |
| ClienteModal.LimiteInicialMostrado | frontend/src/components/clientes/ClienteModal.jsx:274 | the initial limit is shown as `50.000` |
| PagosList.FiltrarPorBusquedaYFecha | frontend/src/pages/pagos/PagosList.jsx:111-139 | the search and date filters keep exactly the payments that pass both, in order |
| PagosList.Filtrar | frontend/src/pages/pagos/PagosList.jsx:104-171 | the guarded chain keeps exactly the payments that pass every active filter, in order |
| PagosList.FiltrarExacto | frontend/src/pages/pagos/PagosList.jsx:104-171 | the result is a subsequence of the base list, and a payment is in it exactly when it passes every filter |
| PagosList.BuscarPorMonto | frontend/src/pages/pagos/PagosList.jsx:114-166 | searching "5000" finds payment 3 by its amount; the range 5000..5000 keeps it; a different payment method drops it |
| PagosList.TotalConcat | frontend/src/pages/pagos/PagosList.jsx:182-184 | the total of a concatenation is the sum of the totals |
| PagosList.TotalParticion | frontend/src/pages/pagos/PagosList.jsx:182-184 | splitting a list by any predicate splits its total |
| PagosList.Eliminar | frontend/src/pages/pagos/PagosList.jsx:174-179 | exactly the payments with another id, in order, every occurrence of each |
| PagosList.TotalEliminar | frontend/src/pages/pagos/PagosList.jsx:174-184 | deleting lowers the total by exactly the amounts removed |
| PagosList.TotalMuestra | frontend/src/pages/pagos/PagosList.jsx:9-80 | the five sample payments add up to 50000 |
| PagosList.PaginaPagos.constructor | frontend/src/pages/pagos/PagosList.jsx:94-101 | the list shown is every sample payment |
| PagosList.PaginaPagos.HandleFilterChange | frontend/src/pages/pagos/PagosList.jsx:104-171 | the filters are stored and the list is recomputed from the sample list |
| PagosList.PaginaPagos.HandleDelete | frontend/src/pages/pagos/PagosList.jsx:174-179 | the payment is removed and the total drops by the amounts removed |
| AnalisisList.BaseDelCliente | frontend/src/pages/analisis/AnalisisList.jsx:337-339 | with a client in the route, the base holds exactly that client's analyses |
| Common.ClienteDeRuta | frontend/src/pages/analisis/AnalisisList.jsx:299-319 | no heading without a route id; otherwise the id read from the route and the name on the client's first entry, or "Cliente #" and the route text when it has none (the document list does the same at DocumentosList.jsx lines 245-265) |
| AnalisisList.ClienteUno | frontend/src/pages/analisis/AnalisisList.jsx:299-312 | client 1 has analyses 1 and 4, and the heading shows its name |
| AnalisisList.Filtrar | frontend/src/pages/analisis/AnalisisList.jsx:336-395 | the guarded chain keeps exactly the base analyses that pass every active filter, in order |
| AnalisisList.FiltrarExacto | frontend/src/pages/analisis/AnalisisList.jsx:336-395 | the result is a subsequence of the base, and membership is exactly passing every filter |
| AnalisisList.FiltradoDelCliente | frontend/src/pages/analisis/AnalisisList.jsx:337-339 | with a client in the route, everything the filters leave belongs to that client |
| AnalisisList.BuscarAna | frontend/src/pages/analisis/AnalisisList.jsx:342-349 | searching "ana" gives exactly analyses 1 and 4, Ana Martínez's, in that order: the other analysts' names do not contain it |
| AnalisisList.Eliminar | frontend/src/pages/analisis/AnalisisList.jsx:400-405 | exactly the analyses with another id, in order, every occurrence of each |
| AnalisisList.Agregar | frontend/src/pages/analisis/AnalisisList.jsx:407-416 | the new analysis comes first, with an id above every listed id (1 on an empty list); the rest follow unchanged |
| AnalisisList.PaginaAnalisis.constructor | frontend/src/pages/analisis/AnalisisList.jsx:294-327 | the list shown is the route's base list and the heading is `Common.ClienteDeRuta` of it |
| AnalisisList.PaginaAnalisis.HandleFilterChange | frontend/src/pages/analisis/AnalisisList.jsx:330-398 | the filters are stored and the list recomputed from the base |
| AnalisisList.PaginaAnalisis.HandleDelete | frontend/src/pages/analisis/AnalisisList.jsx:400-405 | the list loses exactly the analyses with that id |
| AnalisisList.PaginaAnalisis.HandleSaveAnalisis | frontend/src/pages/analisis/AnalisisList.jsx:407-416 | the list becomes `Agregar` of the list and the new analysis |
| DocumentosList.BaseDelCliente | frontend/src/pages/documentos/DocumentosList.jsx:283-285 | with a client in the route, exactly that client's documents |
| DocumentosList.Filtrar | frontend/src/pages/documentos/DocumentosList.jsx:282-326 | the guarded chain keeps exactly the base documents that pass every active filter, in order |
| DocumentosList.FiltrarExacto | frontend/src/pages/documentos/DocumentosList.jsx:282-326 | the result is a subsequence of the base, and membership is exactly passing every filter |
| DocumentosList.BuscarDni | frontend/src/pages/documentos/DocumentosList.jsx:288-326 | searching "dni" finds the DNI whatever the case; the "Aprobado" state filter drops the pending receipt; a one-day date range keeps it |
| DocumentosList.Eliminar | frontend/src/pages/documentos/DocumentosList.jsx:331-336 | exactly the documents with another id, in order, every occurrence of each |
| DocumentosList.Agregar | frontend/src/pages/documentos/DocumentosList.jsx:338-348 | the new document comes first with a fresh id and today's upload date; the rest follow unchanged |
| DocumentosList.PaginaDocumentos.constructor | frontend/src/pages/documentos/DocumentosList.jsx:240-273 | the list shown is the route's base list and the heading is `Common.ClienteDeRuta` of it |
| DocumentosList.PaginaDocumentos.HandleFilterChange | frontend/src/pages/documentos/DocumentosList.jsx:276-329 | the filters are stored and the list recomputed from the base |
| DocumentosList.PaginaDocumentos.HandleDelete | frontend/src/pages/documentos/DocumentosList.jsx:331-336 | the list loses exactly the documents with that id |
| DocumentosList.PaginaDocumentos.HandleSaveDocumento | frontend/src/pages/documentos/DocumentosList.jsx:338-348 | the list becomes `Agregar` of the list and the new document |
| CobranzaModal.CobranzaInicial | frontend/src/components/pagos/CobranzaModal.jsx:6-14 | nothing chosen, today's date, "Efectivo" |
| CobranzaModal.OperacionesDelCliente | frontend/src/components/pagos/CobranzaModal.jsx:38-49 | none without a client; otherwise exactly the operations whose client id `parseInt` reads from the selection, in order, every occurrence of each |
| CobranzaModal.ClienteElegido | frontend/src/components/pagos/CobranzaModal.jsx:44-48 | the first client whose id is `parseInt` of the selection; none exactly when no client has it |
| CobranzaModal.OperacionElegida | frontend/src/components/pagos/CobranzaModal.jsx:53-59 | the first operation, among all operations, whose id is `parseInt` of the selection; none exactly when none has it |
| CobranzaModal.ValidateForm | frontend/src/components/pagos/CobranzaModal.jsx:72-84 | ok exactly when no message is set and the form is valid; the exact message of each of the six fields, the amount also failing when it is not positive |
| CobranzaModal.InicialRechazado | frontend/src/components/pagos/CobranzaModal.jsx:72-84 | the form as opened is rejected |
| CobranzaModal.EtiquetaLegible | frontend/src/components/pagos/CobranzaModal.jsx:94 | the label `OP-` followed by the id reads back to the id |
| CobranzaModal.RegistroDe | frontend/src/components/pagos/CobranzaModal.jsx:91-97 | state "Pendiente", a positive amount, the client's name or "", the operation label or "", and the other fields copied |
| CobranzaModal.DialogoCobranza.constructor | frontend/src/components/pagos/CobranzaModal.jsx:6-19 | the initial form, nothing selected, no messages |
| CobranzaModal.DialogoCobranza.Sincronizar | frontend/src/components/pagos/CobranzaModal.jsx:38-60 | the options offered, the client and the operation selected follow the form's ids |
| CobranzaModal.DialogoCobranza.Abrir | frontend/src/components/pagos/CobranzaModal.jsx:22-35 | opening restores the initial form and clears the messages |
| CobranzaModal.DialogoCobranza.HandleChange | frontend/src/components/pagos/CobranzaModal.jsx:62-70 | the field takes the value, its message is cleared, and the selections are resynchronised |
| CobranzaModal.DialogoCobranza.HandleSubmit | frontend/src/components/pagos/CobranzaModal.jsx:86-101 | a record exactly when the form is valid, and it is `RegistroDe` of the form and the selections; the messages are exactly `MensajesDe` the form |
| CobranzaModal.OfrecidasAlClienteUno | frontend/src/components/pagos/CobranzaModal.jsx:40 | choosing client 1 offers exactly its operations |
| CobranzaModal.OperacionDeOtroCliente | frontend/src/components/pagos/CobranzaModal.jsx:38-70 | after switching client, the operation chosen earlier stays selected though it belongs to the previous client |
| FormularioPago.FormInicial | frontend/src/components/pagos/FormularioPago.jsx:13-22 | nothing chosen, today, "Efectivo", "Pendiente" |
| FormularioPago.OperacionesDe | frontend/src/components/pagos/FormularioPago.jsx:50-52 | exactly the client's operations, in order, every occurrence of each; the first of them when there is one |
| FormularioPago.OperacionesOfrecidas | frontend/src/components/pagos/FormularioPago.jsx:178-180 | every operation without a client selected; otherwise exactly the client's, in order, every occurrence of each |
| FormularioPago.ValidateForm | frontend/src/components/pagos/FormularioPago.jsx:113-125 | ok exactly when no message is set and the form is valid; the exact message of each field |
| FormularioPago.PlaceholderSinCliente | frontend/src/components/pagos/FormularioPago.jsx:113-125 | the form as opened is rejected |
| FormularioPago.FormularioPagoEstado.constructor | frontend/src/components/pagos/FormularioPago.jsx:13-26 | the initial form, nothing selected, no messages |
| FormularioPago.FormularioPagoEstado.HandleChange | frontend/src/components/pagos/FormularioPago.jsx:67-82 | the field takes the value, its message is cleared |
| FormularioPago.FormularioPagoEstado.HandleClienteChange | frontend/src/components/pagos/FormularioPago.jsx:84-98 | the client is looked up by the parsed id and the operation is cleared |
| FormularioPago.FormularioPagoEstado.HandleOperacionChange | frontend/src/components/pagos/FormularioPago.jsx:100-111 | the operation is looked up by the parsed id |
| FormularioPago.FormularioPagoEstado.AutoSeleccion | frontend/src/components/pagos/FormularioPago.jsx:47-65 | with a client and no operation, the client's first operation is selected, if it has one |
| FormularioPago.FormularioPagoEstado.ElegirCliente | frontend/src/components/pagos/FormularioPago.jsx:47-98 | choosing a client, then the effect, selects its first operation |
| FormularioPago.FormularioPagoEstado.HandleSubmit | frontend/src/components/pagos/FormularioPago.jsx:127-134 | the form reaches `onSubmit` exactly when it is valid; the messages are exactly `MensajesDe` the form |
| FormularioPago.PrimeraDelClienteDos | frontend/src/components/pagos/FormularioPago.jsx:47-65 | client 2's first operation is the one selected |
| NombreCliente.ClienteInicial | frontend/src/components/analisis/AnalisisModal.jsx:15 | the id's text for a truthy id, else ""; it reads back to the id |
| NombreCliente.NombreResuelto | frontend/src/components/analisis/AnalisisModal.jsx:122-124 | the given name, else the sample client's non-empty name, else the fallback; never empty |
| NombreCliente.NombresResueltos | frontend/src/components/analisis/AnalisisModal.jsx:122-124 | id "2" gives "María González"; an unknown id gives the fallback |
| AnalisisModal.FormInicial | frontend/src/components/analisis/AnalisisModal.jsx:14-22 | the given client, today, "En revisión", nothing else filled |
| AnalisisModal.ValidateForm | frontend/src/components/analisis/AnalisisModal.jsx:101-111 | ok exactly when no message is set and the form is valid; a missing or non-positive limit always ends with the "> 0" message |
| AnalisisModal.ParseEntero | frontend/src/components/analisis/AnalisisModal.jsx:125-126 | `parseInt` with an optional sign: NaN exactly when no digit follows the sign; a leading "+" reads the rest; a leading "-" negates it |
| AnalisisModal.PuntajeDe | frontend/src/components/analisis/AnalisisModal.jsx:125-126 | null for a blank score; the parsed score when it reads; unreadable exactly when a non-blank text does not read |
| AnalisisModal.AnalisisDe | frontend/src/components/analisis/AnalisisModal.jsx:119-127 | a positive numeric limit, the score resolved, the client's name resolved, the other fields copied |
| AnalisisModal.PuntajesLeidos | frontend/src/components/analisis/AnalisisModal.jsx:125-126 | "750" is saved as 750, "7.5" as 7 |
| AnalisisModal.DialogoAnalisis.constructor | frontend/src/components/analisis/AnalisisModal.jsx:14-24 | the initial form, no messages |
| AnalisisModal.DialogoAnalisis.Abrir | frontend/src/components/analisis/AnalisisModal.jsx:35-46 | opening restores the initial form and clears the messages |
| AnalisisModal.DialogoAnalisis.HandleChange | frontend/src/components/analisis/AnalisisModal.jsx:84-98 | the field takes the value, its message is cleared |
| AnalisisModal.DialogoAnalisis.HandleSubmit | frontend/src/components/analisis/AnalisisModal.jsx:114-131 | a record exactly when the form is valid, and it is `AnalisisDe` of the form; the messages are exactly `MensajesDe` the form |
| AnalisisModal.AbiertoParaCliente | frontend/src/components/analisis/AnalisisModal.jsx:14-22 | opened for a client, the form holds its id; opened without one, it is rejected |
| DocumentoModal.FormInicial | frontend/src/components/documentos/DocumentoModal.jsx:14-21 | the given client, no type or file, "Pendiente" |
| DocumentoModal.ValidateForm | frontend/src/components/documentos/DocumentoModal.jsx:88-97 | ok exactly when no message is set and the form is valid; the exact message of each field |
| DocumentoModal.InicialSinArchivo | frontend/src/components/documentos/DocumentoModal.jsx:14-21 | the form as opened is rejected; its client is empty exactly when none was given |
| DocumentoModal.DocumentoDe | frontend/src/components/documentos/DocumentoModal.jsx:105-111 | the form and the resolved client name |
| DocumentoModal.DialogoDocumento.constructor | frontend/src/components/documentos/DocumentoModal.jsx:14-24 | the initial form, no file, no messages |
| DocumentoModal.DialogoDocumento.Abrir | frontend/src/components/documentos/DocumentoModal.jsx:34-47 | opening restores the initial form, clears the file and the messages |
| DocumentoModal.DialogoDocumento.HandleChange | frontend/src/components/documentos/DocumentoModal.jsx:50-64 | the field takes the value, its message is cleared, the file is kept |
| DocumentoModal.DialogoDocumento.HandleFileChange | frontend/src/components/documentos/DocumentoModal.jsx:67-85 | the first file picked becomes the document's and gives its name; an empty pick changes nothing |
| DocumentoModal.DialogoDocumento.HandleSubmit | frontend/src/components/documentos/DocumentoModal.jsx:100-115 | a record exactly when the form is valid, and it is `DocumentoDe` of the form; the messages are exactly `MensajesDe` the form |
| DetalleCuotas.FinDeSlice | frontend/src/components/operaciones/DetalleCuotas.jsx:22 | where `slice(0, end)` stops on n elements: at the end itself within `0..n`, at n beyond it; a negative end `-j` stops j short of n, and at 0 when j reaches n |
| DetalleCuotas.Render | frontend/src/components/operaciones/DetalleCuotas.jsx:3-40 | the placeholder exactly for a missing or empty list; otherwise the prefix shown and a footer exactly when rows are left out, counting them |
| DetalleCuotas.VentanaCompleta | frontend/src/components/operaciones/DetalleCuotas.jsx:22-40 | with a non-negative window, the first min(len, window) rows are shown in order, and those shown plus those counted are all of them |
| DetalleCuotas.VentanaNegativa | frontend/src/components/operaciones/DetalleCuotas.jsx:22 | with a negative window `-j`, the last min(j, len) rows are left out and the rest are shown in order |
| DetalleCuotas.DoceCuotas | frontend/src/components/operaciones/DetalleCuotas.jsx:3-40 | twelve installments with the default window show six rows and "6 más" |
| DetalleCuotas.SinPie | frontend/src/components/operaciones/DetalleCuotas.jsx:36-40 | up to the window size, every row is shown and there is no footer |
| Common.Lower | frontend/src/pages/operaciones/OperacionesList.jsx:74 | `toLowerCase`: same length, letter by letter |
| Common.LowerIdempotent | frontend/src/pages/operaciones/OperacionesList.jsx:74 | lowercasing twice is lowercasing once |
| Common.ContainsAt | frontend/src/pages/clientes/ClientesList.jsx:124-125 | `includes` holds exactly when the text occurs at some position |
| Common.TrimEmptyIffBlank | frontend/src/components/clientes/ClienteModal.jsx:42 | the trimmed text is empty exactly when the text is all blanks |
| Common.FindEsPrimeroDelFiltro | frontend/src/components/pagos/CobranzaModal.jsx:44 | `find` gives nothing exactly when `filter` gives nothing, and otherwise the filter's first element |
| Common.ParseInt | frontend/src/pages/clientes/ClienteDetalle.jsx:160 | `parseInt` of the longest run of leading digits, i.e. of every prefix of digits not followed by a digit; NaN exactly when there are none |
| Common.FilterEsFiltrado | frontend/src/pages/pagos/PagosList.jsx:174-179 | `filter` keeps a subsequence holding every occurrence of each element that passes and none of the rest |
| Common.FiltradoDeUnico | frontend/src/pages/pagos/PagosList.jsx:174-179 | that characterisation determines the result: any such subsequence is the filter |
| Common.NextId | frontend/src/pages/analisis/AnalisisList.jsx:411 | 1 on an empty list, else above every id listed |

## Left out

- Floating point. Money and rates are exact reals.
  - NaN and Infinity appear only as explicit "not finite" outcomes.
  - JavaScript's rounding error in the schedules is not modelled.
- Display formatting.
  - `Intl`/`toLocaleString` currency formatting is a parameter (`moneda`) of the validations that print a limit.
  - Date formatting and the colour helpers are not modelled.
  - The row rendering of `DetalleCuotas` is not modelled.
- Dates.
  - A date is a month and day pair with month arithmetic.
  - Time zones, `toISOString` and calendar normalisation (a 31st plus one month) are not modelled.
  - "Today" and the clock-based ids are parameters.
- Timing and I/O.
  - `setTimeout` delays are not modelled; the new-operation page's `calculando` flag is.
  - `window.confirm` is taken as confirmed.
  - Navigation and the dialogs' `isOpen` rendering are not modelled.
  - The caret position that `handleCurrencyInput` restores is not modelled.
- The try/catch paths that only log and show "Error al cargar los datos" cannot be reached with the sample data and are not modelled. Nor are the submit catch paths that set `errors.submit` (OperacionModal.jsx:181-184, ClienteModal.jsx:98-101): only an `onSave` of the parent that throws reaches them. The storage failures of the rate service are modelled.
- `JSON.parse` of a stored value that is not an array is not modelled. The store holds either a table or an unreadable value.
- Text handling.
  - `trim` removes every character JavaScript counts as whitespace or a line terminator (`Common.IsSpace`).
  - Only the analysis score reads a sign.
  - Case folding covers ASCII and Latin-1 letters, not the rest of Unicode.
- Common.ParseInt: does not skip leading whitespace, and does not model the radix guess of `parseInt` without a radix, so a "0x" prefix reads as 0 rather than as a hexadecimal number. The route ids and select values it reads have neither.
- `OperacionModal.ValidateForm` follows the code: a client id that no listed client has passes the client check. Only a found client that is not "Activo" is refused.
  - An amount of 0 stands for the blank input.
- `ClienteModal.ValidateForm` models the "must be greater than zero" branch of the limit. The limit input stores only digit values, so that branch is never taken from the dialog.
- `OperacionForm`: the edit path (lines 54-81) is not modelled. After a timer it loads one fixed sample operation for id "1" and calculates it; that calculation is the one `Financiar` models.
- `FormularioPago`: the edit path that preloads `initialData` (lines 29-44) is not modelled.
- `AnalisisModal`: the effects that load the sample documents of the chosen client (lines 48-57 and 62-81) are not modelled; nothing the form saves depends on them.
- `CobranzaModal.DialogoCobranza.HandleChange` follows the code: switching client keeps the operation chosen for the previous client selected (see `CobranzaModal.OperacionDeOtroCliente`).
- `OperacionForm.Financiar` follows the code: a cleared start date makes `toISOString` throw inside the timer callback, so the page stays "calculating" with the old results (`Excepcion`).
- `Calculadora.CalculateFrenchSystem` requires that the formula's denominator is not zero, the one case where the source divides by zero. `HandleCalcular` routes that case to the non-finite outcome.
- The remaining page components' markup, the filter panels' own input handling, and the context files (dashboards, rows, navigation) are not part of this model.
