# Rust classroom exercises, modelled and verified in Dafny

This project models the logic of a set of Rust programming exercises: a
crypto exchange ledger, a streaming platform with subscription tiers (three
drafts), a veterinary clinic (two drafts), a lending library (three
drafts), a music playlist (two drafts), a car dealership (two drafts), a
sales system, and small utilities. The utilities are slice counting and
rewriting, trial-division primality, a Gregorian date type, exam statistics
for a student (three variants) and queries over persons. Each source file is
one Dafny module. A draft that behaves differently from its later version
(another tie-break rule, `swap` instead of remove and insert, `swap_remove`
instead of `retain`) is modelled as written, in its own module. Operations
it shares with the later version are specified by the later version's
functions. A method whose body is the same in two drafts is written out in
each draft's class, so that each class stands for its own file; the copies
share the functions that specify them.

Each stateful component is stated twice:
- first as functions on a value of its whole state, for example
  `Ledger.Comprar`, `StreamingEmail.AplicarCancelacion` and
  `Bibliotecas.ConDecremento`, which the lemmas reason about;
- then as a class whose methods perform the same steps in place, with the
  source's loops, and are proved to reach exactly the state and answer that
  the function describes.

Pure code (primality, dates, the tier ladder, the comparison predicates) is
written as functions and lemmas.

Shared modules:
- `Wrappers` holds `Option` and `Result`.
- `Seqs` holds finding, filtering, counting and removal on sequences.
- `Format` holds decimal printing with a parse-back round trip.
- `Enteros` holds the fixed-width integer types and the truncating `as` casts.
- `Mode` holds the three counting loops of the "most used" queries and what
  each one returns on ties.
- `Suscripciones` holds the Basic, Classic, Super ladder.
- `Fechas` holds the date type of src/tp03/ej03.rs, with a day-number
  mapping that makes adding days and comparing dates provable.

The earlier copy of the student exercise,
src/tp03/gustavo_lopez_v1.sync-conflict-20250519-150758-PP3QSQN.rs, has the
same four functions with the same bodies as src/tp03/gustavo_lopez_v2.rs.
Module `Estudiantes` models both, and some rows below cite the earlier copy.

## Behaviour of the code worth noting

The model follows the code in every case below.

- **Purchase check.** `comprar_criptomoneda` (src/tp04/ej05.rs:156-199)
  compares the cost with its `monto_fiat` argument (lines 164-167), not with
  the account's stored fiat balance, and then subtracts the cost from that
  balance (line 190). A purchase can therefore leave the stored balance
  negative (`Ledger.CompraPuedeDejarFiatNegativo`).
- **Purchase key.** The same function reads the crypto balance under the
  crypto's `prefijo` (lines 183-186) and writes the new balance under its
  `nombre` (lines 188-189). When the two differ, two purchases of one unit
  leave 1, not 2 (`Ledger.ComprasNoAcumulan`).
- **Sale.** `vender_criptomoneda` (src/tp04/ej05.rs:207-254) compares the
  fiat value with the caller's copy of the user's fiat balance (lines
  214-217), and subtracts that fiat value, not the quantity sold, from the
  crypto balance (line 237).
- **Tie-break.** The "most used" queries break ties three ways. The loop
  keeps the first key to reach the maximum with strict `>` in
  src/tp05/ej05bak.rs:217 and :249, and the last with `>=` in
  src/tp05/ej05.rs:158 and :188. With `and_modify`/`or_insert(1)` in
  src/tp04/ej03.rs:143-150 and :177-184, a key's first occurrence is never
  compared, so a key that occurs once is never returned. `Mode` proves what
  each rule returns.
- **Drafts.** The drafts of one exercise answer differently on some inputs
  (`PlaylistBorrador.MoverLejosDifiere`,
  `ConcesionarioBorrador.EliminarDuplicadoDifiere`,
  `BibliotecaConflicto.QuitarSinCoincidenciaQuitaPrimero`), so each is a
  module of its own.
- **Errors.** Failed operations return `false` (for example
  src/tp04/ej05.rs:166, :192 and :216) rather than an error value, and the
  model returns booleans too.

## Model

| member | source | states |
|---|---|---|
| Arreglos.NOdds | src/tp02/ej04.rs:3-11 | the counter ends equal to the number of elements that are not even, and never exceeds 5 |
| Arreglos.ImparesMasPares | src/tp02/ej04.rs:3-11 | odd and even counts add up to the length; the odd count is 0 exactly when every element is even |
| Arreglos.EjemplosNOdds | src/tp02/tests.rs:5-47 | `is_even` read as remainder 0 agrees with the values the tests pin; [1..5] has 3 odds, all evens 0, all odds 5, [0,0,0,0,1] one |
| Arreglos.Repeticiones | src/tp02/ej05.rs:5-10 | the inner loop for `i` writes at most one value per later index, each a copy of `arr[i]` |
| Arreglos.RepeticionesRepetidas | src/tp02/ej05.rs:5-10 | every value the inner loop writes occurs at two different positions |
| Arreglos.DuplicadosRepetidos | src/tp02/ej05.rs:4-11 | every value written by the nested loops occurs at two different positions |
| Arreglos.Relleno | src/tp02/ej05.rs:2-13 | the returned array has five slots: the values written, in order, then the untouched 0.0 slots |
| Arreglos.CotaParcial | src/tp02/ej05.rs:7-8 | at any point of the nested loops the running index is at most the total number of equal pairs, so a total of at most five keeps `dups[dup_i]` in bounds |
| Arreglos.DupVals | src/tp02/ej05.rs:1-14 | the result holds `arr[i]` once per equal pair i<j in lexicographic order, then zeros; callers must keep to at most five equal pairs, as a sixth write panics |
| Arreglos.DuplicadosSiiRepetido | src/tp02/ej05.rs:4-11 | a value is written if and only if it occurs at two positions of the input |
| Arreglos.SinRepetidosCeros | src/tp02/ej05.rs:2-13 | with no two equal elements nothing is written and the result is five zeros |
| Arreglos.EjemplosDupVals | src/tp02/ej05.rs:4-11 | [1.1,2.2,1.1,3.3,4.4] gives [1.1,0,0,0,0]; five equal values make ten pairs, more than the array holds |
| Arreglos.BytesUtf8 | src/tp02/ej06.rs:11-13 | a character takes 1 to 4 bytes, exactly 1 when it is ASCII |
| Arreglos.Largo | src/tp02/ej06.rs:11-13 | a string's byte length lies between its character count and four times it, and is 0 only for the empty string |
| Arreglos.LargoAscii | src/tp02/ej06.rs:11-13 | an ASCII string has as many bytes as characters |
| Arreglos.LongitudDeCadenas | src/tp02/ej06.rs:8-16 | the output has the input's length and slot i holds the byte length of string i; the input is left as it was |
| Arreglos.EjemplosLongitud | src/tp02/tests.rs:65-78 | "hola", "mundo", "rust" take 4, 5, 4 bytes; "", "a", "ab" take 0, 1, 2; "ñ" takes 2 |
| Arreglos.CantidadDeMayores | src/tp02/ej07.rs:5-15 | the counter ends equal to the number of elements strictly above `limite` |
| Arreglos.MayoresAntitono | src/tp02/ej07.rs:5-15 | a higher limit never counts more; a limit at or above every element counts 0; a limit below every element counts them all |
| Arreglos.EjemplosMayores | src/tp02/tests.rs:80-89 | [1,5,10,15,20] gives 2 above 10, 5 above 0, 0 above 20; an empty slice gives 0 |
| Arreglos.Sumas | src/tp02/ej08.rs:9-13 | the sum vector has `arr1`'s length and slot i is `arr1[i] + arr2[i]` |
| Arreglos.SumarArreglos | src/tp02/ej08.rs:6-14 | the loop builds exactly the element-wise sums; callers must pass an `arr2` at least as long as `arr1`, as a shorter one panics |
| Arreglos.SumasPropiedades | src/tp02/ej08.rs:9-10 | equal lengths make the sum symmetric; elements of `arr2` past `arr1`'s length play no part; adding zeros changes nothing |
| Arreglos.EjemplosSumas | src/tp02/tests.rs:91-107 | [1,2,3]+[4,5,6] is [5,7,9], [0.5,1.5,2.5]+[0.5,0.5,0.5] is [1,2,3], empty plus empty is empty |
| Arreglos.CantidadEnRango | src/tp02/ej09.rs:8-19 | the counter ends equal to the number of elements x with inf <= x <= sup |
| Arreglos.EnRangoPropiedades | src/tp02/ej09.rs:13 | an inverted range counts 0; otherwise the elements from `inf` up split into those in range and those above `sup` |
| Arreglos.EjemplosEnRango | src/tp02/tests.rs:109-118 | [1,5,10,15,20] has 3 in [5,15], 5 in [0,100], 0 in [50,100]; an empty slice has 0 |
| Arreglos.CantidadDeCadenasMayorA | src/tp02/ej10.rs:5-15 | the counter ends equal to the number of strings whose byte length exceeds `lim` |
| Arreglos.CadenasMayorACero | src/tp02/tests.rs:124 | with limit 0 exactly the non-empty strings count |
| Arreglos.EjemplosCadenas | src/tp02/tests.rs:120-129 | ["a","abc","abcde"] gives 2, 3 and 0 for limits 2, 0 and 5; an empty slice gives 0 |
| Arreglos.MultiplicarValores | src/tp02/ej11.rs:7-11 | afterwards each slot holds its old value times `factor`; callers must avoid an overflowing product, which panics |
| Arreglos.MultiplicadosPropiedades | src/tp02/ej11.rs:7-11 | factor 1 changes nothing, factor 0 zeroes every slot, and two calls multiply by the product of the factors |
| Arreglos.EjemplosMultiplicar | src/tp02/tests.rs:131-144 | [1,2,3] by 2 is [2,4,6], [5,10,15] by 0 is [0,0,0], and an empty array stays empty |
| Arreglos.ReemplazarPares | src/tp02/ej12.rs:6-12 | afterwards every slot that held an even number (0 and negatives included) holds -1 and the others hold their old value |
| Arreglos.SinParesPropiedades | src/tp02/ej12.rs:8-10 | no even element survives, odd elements stay put, and a second pass changes nothing since -1 is odd |
| Arreglos.EjemplosReemplazar | src/tp02/tests.rs:146-163 | [1,2,3,4,5] becomes [1,-1,3,-1,5], all evens become -1, all odds are unchanged |
| Primos.ISqrt | src/tp02/ej02.rs:16 | the integer square root r satisfies r*r <= n < (r+1)*(r+1) |
| Primos.CribaImpares | src/tp02/ej02.rs:16-23 | for odd n > 2, n is prime if and only if no odd number from 3 to the floor square root divides it |
| Primos.ProbarImpares | src/tp04/ej01.rs:29-36 | the loop over 3, 5, 7, ... with early return answers true exactly when no odd candidate up to the floor square root divides n |
| Primos.IsPrime | src/tp02/ej02.rs:3-24 | true if and only if n >= 2 and no d with 2 <= d < n divides it; for odd n > 2 this is the odd-divisor test |
| Primos.EsPrimo | src/tp04/ej01.rs:16-37 | the `i32` version: false for n <= 1 including negatives, and otherwise true exactly for primes |
| Primos.ParNoPrimo | src/tp04/ej01.rs:17-27 | an even number above 2 is not prime, which justifies the early `false` |
| Primos.CantPrimos | src/tp04/ej01.rs:7-9 | counts the prime elements: at most the length, and 0 exactly when no element is prime |
| Primos.EjemploCantPrimos | src/tp04/ej01.rs:41-50 | [0..7] has 4 primes, [0,1,4,6] none, the empty vector none |
| Primos.EjemploPrimos | src/tp02/tests.rs:16-31 | 2, 3, 5, 7, 11, 13, 17, 19 and 97 are prime; 0, 1, 4, 15 and 91 are not |
| Personas.SalarioMayorA | src/tp04/ej02.rs:34-40 | the result keeps, from the input, only persons earning strictly more than the bound, and keeps every one of them |
| Personas.EdadViveEn | src/tp04/ej02.rs:42-48 | the result keeps only persons strictly older than `edad` who live in `ciudad`, and keeps every one of them |
| Personas.TodosYAlguno | src/tp04/ej02.rs:50-56 | `viven_en` holds iff every person is a resident and `vive_almenos_uno` iff some is; on an empty list the first holds and the second does not |
| Personas.SalarioMayorAMonotono | src/tp04/ej02.rs:34-40 | filtering by a lower bound and then a higher one is the same as filtering by the higher one |
| Personas.EdadViveEnImplicaAlguno | src/tp04/ej02.rs:42-56 | when `edad_vive_en` returns anyone, `vive_almenos_uno` holds for that city |
| Personas.EjemploConsultas | src/tp04/ej02.rs:59-99 | on the two persons of the tests: one earns more than 1000000, two are older than 18 in "la plata", both live there and none in "capital" |
| Estudiantes.PosMaxima | src/tp03/gustavo_lopez_v2.rs:59-74 | the running maximum over the first n exams sits on a grade at least every other grade, and strictly above every grade before it: the first exam with the highest grade |
| Estudiantes.PosMinima | src/tp03/gustavo_lopez_v2.rs:76-91 | the running minimum sits on the first exam with the lowest grade |
| Estudiantes.PrimeraMaximaUnica | src/tp03/gustavo_lopez_v1.sync-conflict-20250519-150758-PP3QSQN.rs:58-73 | any position holding the highest grade with only lower grades before it is the one the scan selects |
| Estudiantes.PrimeraMinimaUnica | src/tp03/gustavo_lopez_v1.sync-conflict-20250519-150758-PP3QSQN.rs:75-90 | any position holding the lowest grade with only higher grades before it is the one the scan selects |
| Estudiantes.SumaAcotada | src/tp03/gustavo_lopez_v2.rs:46-57 | the total of grades within [lo, hi] lies between count*lo and count*hi |
| Estudiantes.PromedioEntreExtremos | src/tp03/gustavo_lopez_v1.sync-conflict-20250519-150758-PP3QSQN.rs:45-56 | the mean of a non-empty list lies between its lowest and its highest grade |
| Estudiantes.PromedioAcotado | src/tp03/gustavo_lopez_v2.rs:46-57 | grades within [lo, hi] have their mean within [lo, hi] |
| Estudiantes.TodasIguales | src/tp03/gustavo_lopez_v2.rs:46-91 | when every grade is equal, the mean is that grade and exam 0 is both the highest and the lowest |
| Estudiantes.InformeDe | src/tp03/gustavo_lopez_v1.sync-conflict-20250519-150758-PP3QSQN.rs:92-111 | no report without exams; otherwise it carries the student's name and two exams from the list, with the lowest grade <= mean <= highest grade |
| Estudiantes.Estudiante.ObtenerPromedio | src/tp03/gustavo_lopez_v2.rs:46-57 | 0 without exams, otherwise the running total over the count equals the sum of the grades over the count |
| Estudiantes.Estudiante.ObtenerCalificacionMasAlta | src/tp03/gustavo_lopez_v2.rs:59-74 | None exactly when there are no exams; otherwise the first exam with the highest grade |
| Estudiantes.Estudiante.ObtenerCalificacionMasBaja | src/tp03/gustavo_lopez_v2.rs:76-91 | None exactly when there are no exams; otherwise the first exam with the lowest grade |
| Estudiantes.Estudiante.GenerarInforme | src/tp03/gustavo_lopez_v2.rs:93-112 | None exactly when there are no exams; otherwise name, count as `u8` (wrapping modulo 256), mean, highest and lowest exam are those of the helpers |
| Estudiantes.EjemploExamenes | src/tp03/gustavo_lopez_v2.rs:143-183 | grades 8.5, 7.0, 9.0 have mean 49/6, highest "SO" with 9.0 and lowest "OO2" with 7.0; no exams give mean 0 |
| EstudiantesNotas.Estudiante.ObtenerPromedio | src/tp03/ej06.rs:30-41 | 0.0 without exams, otherwise the mean: the result times the count is the sum of the grades |
| EstudiantesNotas.Estudiante.ObtenerCalificacionMasAlta | src/tp03/ej06.rs:43-56 | 0.0 without exams; otherwise one of the grades, and no grade exceeds it |
| EstudiantesNotas.Estudiante.ObtenerCalificacionMasBaja | src/tp03/ej06.rs:58-71 | 0.0 without exams; otherwise one of the grades, and no grade is below it |
| EstudiantesNotas.NotasOrdenadas | src/tp03/ej06.rs:30-71 | for a non-empty list, lowest <= mean <= highest, and the two numbers are the grades of the exams the later draft selects |
| Fechas.Nueva | src/tp03/ej03.rs:13-15 | the three fields are stored as given, without validation |
| Fechas.DiasDelMes | src/tp03/ej03.rs:17-19 | a month has 28 to 31 days, and 29 exactly for February of a leap year |
| Fechas.BisiestoSiiVeintinueveDeFebrero | src/tp03/ej03.rs:17-23 | `es_bisiesto` holds exactly when 29 February of that year is a valid date, and exactly when the year has 366 days |
| Fechas.DesdeNumeroDia | src/tp03/ej03.rs:25-41 | every day number names a valid date whose number it is |
| Fechas.DesdeNumeroDiaInversa | src/tp03/ej03.rs:25-41 | numbering a valid date and decoding the number gives the date back |
| Fechas.NumeroDiaInyectivo | src/tp03/ej03.rs:25-41 | two valid dates with the same day number are the same date |
| Fechas.SumarDias | src/tp03/ej03.rs:25-32 | the result is a valid date exactly `dias` days after a valid input |
| Fechas.RestarDias | src/tp03/ej03.rs:34-41 | the result is a valid date exactly `dias` days before a valid input |
| Fechas.RestarDeshaceSumar | src/tp03/ej03.rs:25-41 | subtracting the days one added gives the original date back |
| Fechas.SumarCero | src/tp03/ej03.rs:25-32 | adding zero days leaves the date unchanged |
| Fechas.SumarCompone | src/tp03/ej03.rs:25-32 | adding a days and then b days is adding a+b days |
| Fechas.Comparar | src/tp03/ej03.rs:71-73 | `comparar` holds if and only if the two dates are equal |
| Fechas.AntesQueNumero | src/tp03/ej03.rs:43-69 | the field-by-field (year, month, day) order of valid dates agrees with their day numbers |
| Fechas.EsMayorCronologico | src/tp03/ej03.rs:43-55 | on valid dates `es_mayor` holds exactly when the first date is strictly later |
| Fechas.EsMenorCronologico | src/tp03/ej03.rs:57-69 | on valid dates `es_menor` holds exactly when the first date is strictly earlier |
| Fechas.MenorEsMayorInvertido | src/tp03/ej03.rs:43-73 | on valid dates `es_menor(a,b)` is `es_mayor(b,a)`, the two never both hold, and no date is later than itself |
| Fechas.SumarAvanza | src/tp03/ej03.rs:25-55 | adding a positive number of days, and only that, yields a date `es_mayor` than the original |
| Fechas.FechaMutable.Valor | src/tp03/ej03.rs:6-11 | the date value is the three fields of the struct |
| Fechas.FechaMutable.constructor | src/tp03/ej03.rs:13-15 | a new struct holds exactly the given fields |
| Fechas.FechaMutable.Sumar | src/tp03/ej03.rs:25-32 | on a valid date, the fields are overwritten with the date `dias` days later |
| Fechas.FechaMutable.Restar | src/tp03/ej03.rs:34-41 | on a valid date, the fields are overwritten with the date `dias` days earlier |
| Fechas.SumarYRestar | src/tp03/ej03.rs:25-41 | adding and then subtracting the same days in place restores every field |
| PersonasConDireccion.DireccionTexto | src/tp03/ej01.rs:17-26 | the printed address is the stored one, or "Sin dirección" when there is none |
| PersonasConDireccion.RenglonLegible | src/tp03/ej01.rs:17-26 | the line starts with "Nombre:" and the name, and ends with ':' followed by at most three digits that parse back to the age |
| PersonasConDireccion.RenglonDeterminaEdad | src/tp03/ej01.rs:17-26 | two persons printed as the same line have the same age |
| PersonasConDireccion.Persona.constructor | src/tp03/ej01.rs:9-15 | a new person holds exactly the given name, address and age |
| PersonasConDireccion.Persona.ToString | src/tp03/ej01.rs:17-26 | the line is the `Renglon` of the fields; it opens with "Nombre:" and the name, and its final digits read back as the age |
| PersonasConDireccion.Persona.ObtenerEdad | src/tp03/ej01.rs:28-30 | the age returned is the number printed at the end of the person's line |
| PersonasConDireccion.Persona.ActualizarDireccion | src/tp03/ej01.rs:32-34 | the address becomes `Some(nueva)`; name and age are unchanged |
| PersonasConDireccion.EjemploRenglon | src/tp03/tests.rs:5-12 | "Tao", address "marte", age 33 prints as "Nombre:Tao, Direccion: marte, Edad:33" |
| PersonasConDireccion.EjemploTao | src/tp03/tests.rs:5-12 | building the test's person, reading its age and updating its address yields 33 and the expected line |
| Ledger.BuscarUsuario | src/tp04/ej05.rs:119-121 | the position of the first user whose email equals the key, or None exactly when no user has that email |
| Ledger.Ingresar | src/tp04/ej05.rs:128-146 | succeeds exactly when the email is registered; then only that user changes, its fiat grows by the amount, and one IngresoFiat record without crypto or quote is appended; otherwise nothing changes |
| Ledger.Comprar | src/tp04/ej05.rs:156-199 | succeeds exactly when the prefix is quoted, quote*amount is within the budget argument, and the user is registered and validated; then only that user changes: fiat drops by the cost, the balance under the name becomes the old balance under the prefix plus the amount, and one Compra record with the budget and quote is appended; otherwise nothing changes |
| Ledger.Vender | src/tp04/ej05.rs:207-254 | succeeds exactly when the prefix is quoted, the cost is within the caller's copy of the fiat balance, the user is registered and validated, and the balance under the prefix minus the cost is not negative; then fiat grows by the cost, the balance under the name becomes the prefix balance minus the cost, and one Venta record with the cost is appended; otherwise nothing changes |
| Ledger.OperacionesPreservanIdentidadYRegistro | src/tp04/ej05.rs:128-254 | no operation adds, removes or re-identifies a user, and each keeps the old log and appends exactly one record when, and only when, it returns true |
| Ledger.BuscarMismasIdentidades | src/tp04/ej05.rs:119-121 | lists whose users have the same identities answer every email lookup alike |
| Ledger.IngresoRegistrado | src/tp04/ej05.rs:128-146 | a deposit to a registered user keeps that user at the same position, credits it, and logs the deposit |
| Ledger.IngresosAcumulan | src/tp04/ej05.rs:128-146 | a run of deposits to a registered user raises its fiat by their sum and leaves every identity as it was |
| Ledger.RegistrosDeIngreso | src/tp04/ej05.rs:132-141 | one IngresoFiat record per deposited amount, in order |
| Ledger.IngresosRegistrados | src/tp04/ej05.rs:128-146 | a run of deposits appends exactly one IngresoFiat record per amount, in order, after the old log |
| Ledger.EjemploIngresos | src/tp04/ej05.rs:304-318 | depositing 100 and then 200 takes the test user from 500 to 600 to 800 |
| Ledger.EjemploCompra | src/tp04/ej05.rs:321-330 | buying one Monero at 300 with a budget of 400 takes the test user from 500 to 200 and logs one record |
| Ledger.CompraPuedeDejarFiatNegativo | src/tp04/ej05.rs:163-190 | since only the budget argument is checked, a user with no fiat can buy and be left with a negative balance |
| Ledger.ComprasNoAcumulan | src/tp04/ej05.rs:183-189 | with prefix "Monero" and name "XMR", two purchases of one unit leave 1, not 2, under "XMR" |
| Ledger.Sistema.constructor | src/tp04/ej05.rs:98-109 | the new exchange holds the given users, quotes and cryptos and an empty log |
| Ledger.Sistema.AgregarCriptomoneda | src/tp04/ej05.rs:111-113 | appends the crypto and changes nothing else |
| Ledger.Sistema.AgregarUsuario | src/tp04/ej05.rs:115-117 | appends the user and changes nothing else |
| Ledger.Sistema.IngresarDinero | src/tp04/ej05.rs:128-146 | the in-place deposit leaves the state and returns the flag that `Ingresar` describes |
| Ledger.Sistema.ComprarCriptomoneda | src/tp04/ej05.rs:156-199 | the in-place purchase leaves the state and returns the flag that `Comprar` describes |
| Ledger.Sistema.VenderCriptomoneda | src/tp04/ej05.rs:207-254 | the in-place sale leaves the state and returns the flag that `Vender` describes |
| Mode.PrimeraModaUnica | src/tp05/ej05bak.rs:208-224 | at most one key is a most frequent key that reached the top count first, so the strict `>` rule names a single key |
| Mode.UltimaModaUnica | src/tp05/ej05.rs:150-164 | at most one key is a most frequent key that reached the top count last, so the `>=` rule names a single key |
| Mode.ModaEstricta | src/tp05/ej05.rs:180-205 | when one key strictly outnumbers all others, both tie-break rules return it |
| Mode.ModaPrimeroEnAlcanzar | src/tp05/ej05bak.rs:208-224 | the counting loop with strict `>` returns None exactly for an empty input, and otherwise a most frequent key whose final count was reached before any other's |
| Mode.ModaUltimoEnAlcanzar | src/tp05/ej05.rs:150-164 | the counting loop with `>=` returns None exactly for an empty input, and otherwise a most frequent key whose final count was reached after any other's |
| Mode.ModaPrimeroRepetido | src/tp04/ej03.rs:135-153 | the `and_modify`/`or_insert(1)` loop returns None exactly when no key occurs twice, and otherwise a most frequent key, occurring at least twice, that reached its count first |
| Suscripciones.Upgrade | src/tp05/ej05bak.rs:48-54 | one step up the ladder Basic, Classic, Super, staying at Super |
| Suscripciones.Downgrade | src/tp05/ej05bak.rs:56-62 | one step down the ladder, staying at Basic |
| Suscripciones.UpgradeDowngradeInversos | src/tp05/ej05.rs:46-60 | below Super a downgrade undoes an upgrade, and above Basic an upgrade undoes a downgrade |
| Suscripciones.PuntosFijos | src/tp04/ej03.rs:43-57 | Super is the only tier an upgrade leaves alone, and Basic the only one a downgrade leaves alone |
| Suscripciones.DosPasosSatura | src/tp05/ej05bak.rs:48-62 | two upgrades from any tier reach Super, and two downgrades reach Basic |
| StreamingEmail.PosicionPorEmail | src/tp05/ej05bak.rs:126-135 | the position of the first active user with this email, or None exactly when no active user has it |
| StreamingEmail.ConTipo | src/tp05/ej05bak.rs:137-152 | replacing one subscription's tier changes nothing else on the platform |
| StreamingEmail.AplicarUpgrade | src/tp05/ej05bak.rs:137-152 | succeeds exactly for a known email and an existing index; then only that subscription's tier changes, one step up with Super kept; otherwise nothing changes |
| StreamingEmail.AplicarCancelacion | src/tp05/ej05bak.rs:154-183 | succeeds exactly for a known email and an existing index; a user with one subscription is swap-removed, so the last active user takes its slot and every other slot is kept, and it is appended to the cancelled list; a user with several loses exactly that subscription and keeps the others in order; otherwise nothing changes |
| StreamingEmail.AplicarDowngrade | src/tp05/ej05bak.rs:185-206 | succeeds exactly for a known email and an existing index; a Basic subscription is cancelled as by `cancelar_subscripcion`, any other goes one step down with nothing else changed |
| StreamingEmail.Metodos | src/tp05/ej05bak.rs:208-224 | the payment methods in scan order, one per subscription |
| StreamingEmail.Tipos | src/tp05/ej05bak.rs:240-256 | the tiers in scan order, one per subscription |
| StreamingEmail.TotalSubsConcat | src/tp05/ej05bak.rs:230-238 | the subscriptions of two lists scanned in turn number the sum of each list's |
| StreamingEmail.MetodosConcat | src/tp05/ej05bak.rs:230-238 | scanning active then cancelled users sees the active users' methods, then the cancelled users' |
| StreamingEmail.TiposConcat | src/tp05/ej05bak.rs:262-270 | scanning active then cancelled users sees the active users' tiers, then the cancelled users' |
| StreamingEmail.TotalSubsReemplazo | src/tp05/ej05bak.rs:154-183 | replacing one user changes the subscription count by the difference of the two users' counts |
| StreamingEmail.TotalSubsSwapRemove | src/tp05/ej05bak.rs:168-172 | swap-removing a user takes away exactly its subscriptions |
| StreamingEmail.CancelarQuitaUna | src/tp05/ej05bak.rs:154-183 | a successful cancellation, in either case, removes exactly one active subscription and keeps the number of users |
| StreamingEmail.MetodosSinCambioDeTipo | src/tp05/ej05bak.rs:137-206 | upgrading or downgrading a tier keeps every payment method seen by the scan |
| StreamingEmail.MetodoMasUtilizadoGenerico | src/tp05/ej05bak.rs:208-224 | None exactly when there are no subscriptions; otherwise the most used method that reached its count first |
| StreamingEmail.SubscripcionMasContratadaGenerico | src/tp05/ej05bak.rs:240-256 | None exactly when there are no subscriptions; otherwise the most contracted tier that reached its count first |
| StreamingEmail.EjemploUpgrade | src/tp05/ej05bak.rs:363-376 | upgrading the test's Basic and Classic users gives Classic and Super |
| StreamingEmail.EjemploCancelar | src/tp05/ej05bak.rs:403-413 | cancelling tao's only subscription moves tao to the cancelled list and another user into slot 0 |
| StreamingEmail.EjemploMetodo | src/tp05/ej05bak.rs:416-420 | Efectivo is the most used method of the test users |
| StreamingEmail.MetodosDePrueba | src/tp05/ej05bak.rs:298-360 | the test users' payment methods in scan order are Efectivo, Efectivo, a card and a crypto address |
| StreamingEmail.EjemploTipo | src/tp05/ej05bak.rs:431-435 | Classic is the most contracted tier of the test users |
| StreamingEmail.TiposDePrueba | src/tp05/ej05bak.rs:298-360 | the test users' tiers in scan order are Basic, Classic, Super, Classic |
| StreamingEmail.StreamingRust.constructor | src/tp05/ej05bak.rs:99-106 | a new platform has no active and no cancelled users |
| StreamingEmail.StreamingRust.CrearUsr | src/tp05/ej05bak.rs:108-113 | the user is appended to the active list, and the cancelled list is unchanged |
| StreamingEmail.StreamingRust.BuscarUsuarioI | src/tp05/ej05bak.rs:126-135 | the position of the first active user with this email |
| StreamingEmail.StreamingRust.BuscarUsuario | src/tp05/ej05bak.rs:115-124 | None exactly when no active user has the email; otherwise the first such user |
| StreamingEmail.StreamingRust.UpgradeSubscripcion | src/tp05/ej05bak.rs:137-152 | the in-place upgrade leaves the lists and returns the flag that `AplicarUpgrade` describes |
| StreamingEmail.StreamingRust.CancelarSubscripcion | src/tp05/ej05bak.rs:154-183 | the in-place cancellation leaves the lists and returns the flag that `AplicarCancelacion` describes |
| StreamingEmail.StreamingRust.DowngradeSubscripcion | src/tp05/ej05bak.rs:185-206 | the in-place downgrade leaves the lists and returns the flag that `AplicarDowngrade` describes |
| StreamingEmail.StreamingRust.MetodoMasUtilizadoActivos | src/tp05/ej05bak.rs:226-228 | the rule applied to the active users' subscriptions only |
| StreamingEmail.StreamingRust.MetodoMasUtilizado | src/tp05/ej05bak.rs:230-238 | the rule applied to the active users' subscriptions followed by the cancelled users' |
| StreamingEmail.StreamingRust.SubscripcionMasContratadaActivos | src/tp05/ej05bak.rs:258-260 | the tier rule applied to the active users only |
| StreamingEmail.StreamingRust.SubscripcionMasContratada | src/tp05/ej05bak.rs:262-270 | the tier rule applied to active users followed by cancelled users |
| StreamingUnico.Posicion | src/tp05/ej05.rs:108-110 | the first position holding a user equal to the given one, or None exactly when no active user equals it |
| StreamingUnico.AplicarUpgrade | src/tp05/ej05.rs:112-121 | succeeds exactly when the user is active; then only that slot changes, one tier up with Super kept; otherwise nothing changes |
| StreamingUnico.AplicarCancelacion | src/tp05/ej05.rs:123-133 | succeeds exactly when the user is active; then the user leaves the active list, whose last user takes its slot and every other slot is kept, and is appended to the cancelled list; otherwise nothing changes |
| StreamingUnico.AplicarDowngrade | src/tp05/ej05.rs:135-148 | succeeds exactly when the user is active; a Basic user is cancelled exactly as by `cancelar_subscripcion`, any other goes one tier down in place; otherwise nothing changes |
| StreamingUnico.CancelarConservaUsuarios | src/tp05/ej05.rs:123-133 | cancelling moves a user between the lists: together they keep the same users |
| StreamingUnico.Metodos | src/tp05/ej05.rs:150-164 | the payment method of each user, in order |
| StreamingUnico.Tipos | src/tp05/ej05.rs:180-205 | the tier of each user, in order |
| StreamingUnico.MetodoMasUtilizadoGenerico | src/tp05/ej05.rs:150-164 | None exactly for no users; otherwise a most used method, the one whose final count was reached last |
| StreamingUnico.SubscripcionMasContratadaGenerico | src/tp05/ej05.rs:180-205 | None exactly for no users; otherwise a most contracted tier, the one whose final count was reached last |
| StreamingUnico.EjemploCancelar | src/tp05/ej05.rs:321-334 | cancelling tao moves tao to the cancelled list and the last user into slot 0 |
| StreamingUnico.EjemploDowngrade | src/tp05/ej05.rs:302-318 | downgrading Basic tao cancels it; downgrading clasico then leaves it Basic in slot 1 |
| StreamingUnico.EjemploMetodo | src/tp05/ej05.rs:337-341 | Efectivo, used twice, is the only most used method of the fixture |
| StreamingUnico.EjemploTipo | src/tp05/ej05.rs:352-356 | Classic, contracted twice, is the only most contracted tier of the fixture |
| StreamingUnico.StreamingRust.constructor | src/tp05/ej05.rs:90-95 | a new platform has no users |
| StreamingUnico.StreamingRust.CrearUsr | src/tp05/ej05.rs:97-102 | the user is appended to the active list, and the cancelled list is unchanged |
| StreamingUnico.StreamingRust.BuscarUsuario | src/tp05/ej05.rs:104-106 | None exactly when no active user equals the given one; otherwise that user |
| StreamingUnico.StreamingRust.UpgradeSubscripcion | src/tp05/ej05.rs:112-121 | the in-place upgrade reaches the state and answer that `AplicarUpgrade` describes |
| StreamingUnico.StreamingRust.CancelarSubscripcion | src/tp05/ej05.rs:123-133 | the in-place cancellation reaches the state and answer that `AplicarCancelacion` describes |
| StreamingUnico.StreamingRust.DowngradeSubscripcion | src/tp05/ej05.rs:135-148 | the in-place downgrade reaches the state and answer that `AplicarDowngrade` describes |
| StreamingUnico.StreamingRust.MetodoMasUtilizadoActivos | src/tp05/ej05.rs:166-168 | the method rule over the active users only |
| StreamingUnico.StreamingRust.MetodoMasUtilizado | src/tp05/ej05.rs:170-178 | the method rule over the active users followed by the cancelled users |
| StreamingUnico.StreamingRust.SubscripcionMasContratadaActivos | src/tp05/ej05.rs:207-209 | the tier rule over the active users only |
| StreamingUnico.StreamingRust.SubscripcionMasContratada | src/tp05/ej05.rs:211-219 | the tier rule over the active users followed by the cancelled users |
| StreamingMemoria.MetodoMasRepetido | src/tp04/ej03.rs:135-153 | None exactly when no payment method occurs twice, an empty list included; otherwise a most used method, occurring at least twice, the one whose final count was reached first |
| StreamingMemoria.SubscripcionMasRepetida | src/tp04/ej03.rs:169-187 | None exactly when no tier occurs twice; otherwise a most contracted tier, occurring at least twice, the one whose final count was reached first |
| StreamingMemoria.EjemploTipoTrasAltas | src/tp04/ej03.rs:325-340 | after two more Basic users join the fixture, Basic, contracted three times, is the most contracted tier |
| StreamingMemoria.StreamingRust.constructor | src/tp04/ej03.rs:87-92 | a new platform has no users |
| StreamingMemoria.StreamingRust.CrearUsr | src/tp04/ej03.rs:94-96 | the user is appended to the active list, and the cancelled list is unchanged |
| StreamingMemoria.StreamingRust.BuscarUsuario | src/tp04/ej03.rs:98-100 | None exactly when no active user equals the given one; otherwise that user |
| StreamingMemoria.StreamingRust.UpgradeSubscripcion | src/tp04/ej03.rs:106-112 | the in-place upgrade reaches the state and answer that `StreamingUnico.AplicarUpgrade` describes |
| StreamingMemoria.StreamingRust.CancelarSubscripcion | src/tp04/ej03.rs:114-121 | the in-place cancellation reaches the state and answer that `StreamingUnico.AplicarCancelacion` describes |
| StreamingMemoria.StreamingRust.DowngradeSubscripcion | src/tp04/ej03.rs:123-133 | the in-place downgrade reaches the state and answer that `StreamingUnico.AplicarDowngrade` describes |
| StreamingMemoria.StreamingRust.MetodoMasUtilizadoActivos | src/tp04/ej03.rs:155-157 | the repeated-method rule over the active users only |
| StreamingMemoria.StreamingRust.MetodoMasUtilizado | src/tp04/ej03.rs:159-167 | the repeated-method rule over the active users followed by the cancelled users |
| StreamingMemoria.StreamingRust.SubscripcionMasContratadaActivos | src/tp04/ej03.rs:189-191 | the repeated-tier rule over the active users only |
| StreamingMemoria.StreamingRust.SubscripcionMasContratada | src/tp04/ej03.rs:193-201 | the repeated-tier rule over the active users followed by the cancelled users |
| Veterinarias.MismaMascotaIgnoraTelefono | src/tp05/ej03.rs:159-161 | pets that differ only in the owner's phone, their age or their kind count as the same pet |
| Veterinarias.MismaAtencionEquivalencia | src/tp05/ej03.rs:206-208 | matching a record by pet and date is reflexive, symmetric and transitive, and so is matching pets |
| Veterinarias.PosicionMascota | src/tp05/ej03.rs:72-80 | the first queued entry that is the same pet, or None exactly when there is none |
| Veterinarias.SinMascota | src/tp05/ej03.rs:72-80 | the queue without its first entry for the pet, the rest in order; unchanged when the pet is absent |
| Veterinarias.EliminarDeshaceAgregar | src/tp05/ej03.rs:60-80 | removing a pet just queued at the back, when it was not queued, restores the queue |
| Veterinarias.EliminarDeshaceUrgente | src/tp05/ej03.rs:64-80 | removing a pet just queued at the front always restores the queue |
| Veterinarias.BuscarRegistro | src/tp05/ej03.rs:87-99 | the first record matching pet name, owner name and phone; None exactly when no record matches |
| Veterinarias.RegistrarLuegoBuscar | src/tp05/ej03.rs:82-99 | a record just registered is found by its own pet name, owner name and phone |
| Veterinarias.PosicionAtencion | src/tp05/ej03.rs:195-208 | the first record with the same pet and date, or None exactly when there is none |
| Veterinarias.ConDiagnostico | src/tp05/ej03.rs:101-114 | only the first matching record is replaced; no match leaves the records unchanged |
| Veterinarias.ConProximaFecha | src/tp05/ej03.rs:116-129 | only the first matching record changes, and only in its next date |
| Veterinarias.SinAtencion | src/tp05/ej03.rs:131-140 | the records without the first match, the others in order; no match leaves them unchanged |
| Veterinarias.ModificarFechaIdempotente | src/tp05/ej03.rs:116-129 | setting the next date keeps which record matches, so doing it twice equals doing it once |
| Veterinarias.ModificarDiagnosticoEncontrable | src/tp05/ej03.rs:101-114 | after a replacement, the replacement itself is found among the records |
| Veterinarias.ProximoDia | src/tp05/ej03.rs:210-220 | the day of the next visit, or 0 without one |
| Veterinarias.GetInfo | src/tp05/ej03.rs:210-220 | the diagnosis and treatment header followed by decimal digits only |
| Veterinarias.GetInfoDia | src/tp05/ej03.rs:210-220 | the digits at the end read back as the day of the next visit |
| Veterinarias.Veterinaria.constructor | src/tp05/ej03.rs:50-58 | the given name, address and id, an empty queue and no records |
| Veterinarias.Veterinaria.AgregarMascota | src/tp05/ej03.rs:60-62 | the pet joins the back of the queue; the records are unchanged; the name, address and id stay |
| Veterinarias.Veterinaria.AgregarMascotaUrgente | src/tp05/ej03.rs:64-66 | the pet joins the front of the queue; the records are unchanged; the name, address and id stay |
| Veterinarias.Veterinaria.Atender | src/tp05/ej03.rs:68-70 | the front pet leaves the queue and is returned; an empty queue gives None and stays empty; the name, address and id stay |
| Veterinarias.Veterinaria.EliminarMascota | src/tp05/ej03.rs:72-80 | true exactly when the pet was queued; the queue becomes `SinMascota` of the old one; the name, address and id stay |
| Veterinarias.Veterinaria.RegistrarAtencion | src/tp05/ej03.rs:82-85 | the record is appended; the queue is unchanged; the name, address and id stay |
| Veterinarias.Veterinaria.BuscarRegistroAtencion | src/tp05/ej03.rs:87-99 | the scan returns what `BuscarRegistro` specifies |
| Veterinarias.Veterinaria.ModificarDiagnostico | src/tp05/ej03.rs:101-114 | None exactly without a match, otherwise the replacement; the records become `ConDiagnostico` of the old ones; the name, address and id stay |
| Veterinarias.Veterinaria.ModificarFechaAtencion | src/tp05/ej03.rs:116-129 | None exactly without a match, otherwise the updated record; the records become `ConProximaFecha` of the old ones; the name, address and id stay |
| Veterinarias.Veterinaria.EliminarAtencion | src/tp05/ej03.rs:131-140 | true exactly when a record matched; the records become `SinAtencion` of the old ones; the name, address and id stay |
| VeterinariaBorrador.NuevoRegistro | src/tp03/ej09.rs:166-174 | a new record keeps the pet, diagnosis, treatment and date it is given and has no next date |
| VeterinariaBorrador.NuevoRegistroSinProximoDia | src/tp03/ej09.rs:166-201 | the summary of a new record reports day 0 for the next visit |
| VeterinariaBorrador.Veterinaria.constructor | src/tp03/ej09.rs:47-55 | the given name, address and id, an empty queue and no records |
| VeterinariaBorrador.Veterinaria.AgregarMascota | src/tp03/ej09.rs:57-59 | the pet joins the back of the queue; the records are unchanged; the name, address and id stay |
| VeterinariaBorrador.Veterinaria.AgregarMascotaUrgente | src/tp03/ej09.rs:61-63 | the pet joins the front of the queue; the records are unchanged; the name, address and id stay |
| VeterinariaBorrador.Veterinaria.Atender | src/tp03/ej09.rs:65-67 | the front pet leaves the queue and is returned; an empty queue gives None; the name, address and id stay |
| VeterinariaBorrador.Veterinaria.EliminarMascota | src/tp03/ej09.rs:69-77 | true exactly when the pet was queued; the queue becomes `Veterinarias.SinMascota` of the old one; the name, address and id stay |
| VeterinariaBorrador.Veterinaria.RegistrarAtencion | src/tp03/ej09.rs:79-81 | the record is appended; the queue is unchanged; the name, address and id stay |
| VeterinariaBorrador.Veterinaria.BuscarRegistroAtencion | src/tp03/ej09.rs:83-95 | the scan returns what `Veterinarias.BuscarRegistro` specifies |
| VeterinariaBorrador.Veterinaria.ModificarDiagnostico | src/tp03/ej09.rs:97-109 | None exactly without a match, otherwise the replacement; the records become `Veterinarias.ConDiagnostico` of the old ones; the name, address and id stay |
| VeterinariaBorrador.Veterinaria.ModificarFechaAtencion | src/tp03/ej09.rs:111-123 | None exactly without a match, otherwise the updated record; the records become `Veterinarias.ConProximaFecha` of the old ones; the name, address and id stay |
| VeterinariaBorrador.Veterinaria.EliminarAtencion | src/tp03/ej09.rs:125-133 | true exactly when a record matched; the records become `Veterinarias.SinAtencion` of the old ones; the name, address and id stay |
| Bibliotecas.AStr | src/tp05/ej04.rs:261-266 | Devuelto and EnPrestamo are named by their own names |
| Bibliotecas.EstadoIgualSiiMismo | src/tp05/ej04.rs:257-259 | comparing the names of two states holds exactly when they are the same state |
| Bibliotecas.NuevoPrestamo | src/tp05/ej04.rs:245-253 | a new loan is active, has no return date and keeps the book, client and due date given |
| Bibliotecas.PrestamosActivos | src/tp05/ej04.rs:153-161 | at most the number of loans, and 0 exactly when no loan is an active loan of the client |
| Bibliotecas.ActivosAgrega | src/tp05/ej04.rs:69-80 | appending a loan adds one to the count exactly when it is an active loan of that client |
| Bibliotecas.ActivosPrefijo | src/tp05/ej04.rs:153-161 | counting over a prefix of the loans never gives more |
| Bibliotecas.ActivosMismoEmail | src/tp05/ej04.rs:230-232 | clients with the same email have the same number of active loans |
| Bibliotecas.LimiteAcota | src/tp05/ej04.rs:69-80 | while every borrower is within five active loans, every client is, so the `u8` counter cannot overflow |
| Bibliotecas.PrestarRespetaLimite | src/tp05/ej04.rs:69-80 | a loan granted to a client below five active loans keeps every client within five |
| Bibliotecas.Marcar | src/tp05/ej04.rs:114-129 | a matching loan is marked returned on that date, keeping book, client and due date; any other loan is unchanged |
| Bibliotecas.Devueltos | src/tp05/ej04.rs:114-129 | every loan, in place, marked as `Marcar` says |
| Bibliotecas.DevolverReduceActivos | src/tp05/ej04.rs:114-129 | returning never increases any client's active loans |
| Bibliotecas.DevolverRespetaLimite | src/tp05/ej04.rs:114-129 | returning keeps every client within five active loans |
| Bibliotecas.DevolverCierraTodos | src/tp05/ej04.rs:114-129 | after a return, every loan of that book to that client is marked returned |
| Bibliotecas.Restantes | src/tp05/ej04.rs:180-184 | the retained loans are never more than before |
| Bibliotecas.RestantesContenido | src/tp05/ej04.rs:180-184 | no matching loan is kept, every other loan is kept, and nothing new appears |
| Bibliotecas.QuitarReduceActivos | src/tp05/ej04.rs:180-184 | removing never increases any client's active loans |
| Bibliotecas.QuitarRespetaLimite | src/tp05/ej04.rs:180-184 | removing keeps every client within five active loans |
| Bibliotecas.QuitarIdempotente | src/tp05/ej04.rs:180-184 | removing the same loans twice equals removing them once |
| Bibliotecas.PrimerPrestamo | src/tp05/ej04.rs:105-112 | the first loan of that book to that client; None exactly when there is none |
| Bibliotecas.QuitarLuegoBuscar | src/tp05/ej04.rs:105-129 | after a removal no matching loan is found, and a return with no match changes no loan |
| Bibliotecas.VencenHasta | src/tp05/ej04.rs:82-103 | exactly the loans due on or before the date, drawn from the list |
| Bibliotecas.VencenHastaAgrega | src/tp05/ej04.rs:82-103 | a new last loan is listed last exactly when it is due by the date |
| Bibliotecas.VencidosSonAVencerCero | src/tp05/ej04.rs:82-103 | the overdue loans are the loans due within zero days |
| Bibliotecas.AVencerMonotono | src/tp05/ej04.rs:82-92 | a longer horizon lists every loan a shorter one lists |
| Bibliotecas.PosicionLibro | src/tp05/ej04.rs:163-172 | the first counter for the ISBN, or None exactly when no counter has it |
| Bibliotecas.PosicionMismosLibros | src/tp05/ej04.rs:131-151 | counters over the same books in the same order are found at the same place |
| Bibliotecas.Disponibles | src/tp05/ej04.rs:163-172 | the first counter for the ISBN, and 0 for an unknown book |
| Bibliotecas.ConIncremento | src/tp05/ej04.rs:131-139 | only the first counter for the ISBN gains one copy; an unknown book changes nothing |
| Bibliotecas.ConDecremento | src/tp05/ej04.rs:141-151 | only the first counter for the ISBN loses one copy, never going below 0; an unknown book changes nothing |
| Bibliotecas.DisponiblesTrasCambios | src/tp05/ej04.rs:131-172 | after each update the count of that book moves by one, or stays at 0, and every other book's count is unchanged |
| Bibliotecas.IncrementoDeshaceDecremento | src/tp05/ej04.rs:131-151 | while a copy is available, giving it back undoes lending it |
| Bibliotecas.Biblioteca.constructor | src/tp05/ej04.rs:60-67 | the given name and address, no loans and no books |
| Bibliotecas.Biblioteca.CantPrestamosCli | src/tp05/ej04.rs:153-161 | the loop counts the client's active loans |
| Bibliotecas.Biblioteca.CantDisponibles | src/tp05/ej04.rs:163-172 | the loop returns what `Disponibles` specifies |
| Bibliotecas.Biblioteca.IncrementarDisponibilidad | src/tp05/ej04.rs:131-139 | the counters become `ConIncremento` of the old ones; the loans are unchanged; the name and address stay |
| Bibliotecas.Biblioteca.DecrementarDisponibilidad | src/tp05/ej04.rs:141-151 | the counters become `ConDecremento` of the old ones; the loans are unchanged; the name and address stay |
| Bibliotecas.Biblioteca.Prestar | src/tp05/ej04.rs:69-80 | granted exactly when the client has fewer than five active loans and a copy is available; then a new loan is appended and one copy is taken; otherwise nothing changes; the name and address stay |
| Bibliotecas.Biblioteca.PrestamosAVencer | src/tp05/ej04.rs:82-92 | the loans due within `dias` days of today, in order |
| Bibliotecas.Biblioteca.PrestamosVencidos | src/tp05/ej04.rs:94-103 | the loans due on or before today, in order |
| Bibliotecas.Biblioteca.BuscarPrestamo | src/tp05/ej04.rs:105-112 | the loop returns what `PrimerPrestamo` specifies |
| Bibliotecas.Biblioteca.DevolverLibro | src/tp05/ej04.rs:114-129 | true exactly when a matching loan exists; every match is marked returned, and one copy comes back only when there was a match; the name and address stay |
| Bibliotecas.Biblioteca.AgregarLibro | src/tp05/ej04.rs:174-178 | a new counter is appended; the loans are unchanged; the name and address stay |
| Bibliotecas.Biblioteca.QuitarPrestamo | src/tp05/ej04.rs:180-184 | the loans become `Restantes` of the old ones; the counters are unchanged; the name and address stay |
| BibliotecaConflicto.IndiceAQuitar | src/tp03/ej10.sync-conflict-20250519-150626-EOJTAIS.rs:175-183 | the last loan of that book to that client, or 0 when no loan matches |
| BibliotecaConflicto.IndiceAQuitarEs | src/tp03/ej10.sync-conflict-20250519-150626-EOJTAIS.rs:175-183 | the last matching index, or 0 without a match, is the only index the removal can pick |
| BibliotecaConflicto.QuitarSinCoincidenciaQuitaPrimero | src/tp03/ej10.sync-conflict-20250519-150626-EOJTAIS.rs:175-183 | with no matching loan, the first loan is removed, whoever holds it |
| BibliotecaConflicto.Biblioteca.constructor | src/tp03/ej10.sync-conflict-20250519-150626-EOJTAIS.rs:57-64 | the given name and address, no loans and no books |
| BibliotecaConflicto.Biblioteca.CantPrestamosCli | src/tp03/ej10.sync-conflict-20250519-150626-EOJTAIS.rs:149-157 | the loop counts the client's active loans |
| BibliotecaConflicto.Biblioteca.CantDisponibles | src/tp03/ej10.sync-conflict-20250519-150626-EOJTAIS.rs:159-168 | the loop returns what `Bibliotecas.Disponibles` specifies |
| BibliotecaConflicto.Biblioteca.IncrementarDisponibilidad | src/tp03/ej10.sync-conflict-20250519-150626-EOJTAIS.rs:129-136 | the counters become `Bibliotecas.ConIncremento` of the old ones; the name and address stay |
| BibliotecaConflicto.Biblioteca.DecrementarDisponibilidad | src/tp03/ej10.sync-conflict-20250519-150626-EOJTAIS.rs:138-147 | the counters become `Bibliotecas.ConDecremento` of the old ones; the name and address stay |
| BibliotecaConflicto.Biblioteca.Prestar | src/tp03/ej10.sync-conflict-20250519-150626-EOJTAIS.rs:66-79 | granted exactly below five active loans with a copy available; then one loan appended and one copy taken; otherwise nothing changes; the name and address stay |
| BibliotecaConflicto.Biblioteca.PrestamosAVencer | src/tp03/ej10.sync-conflict-20250519-150626-EOJTAIS.rs:81-91 | every loan when `dias` is not negative, none otherwise, since each due date is compared with itself shifted |
| BibliotecaConflicto.Biblioteca.PrestamosVencidos | src/tp03/ej10.sync-conflict-20250519-150626-EOJTAIS.rs:93-102 | the loans due on or before today, in order |
| BibliotecaConflicto.Biblioteca.BuscarPrestamo | src/tp03/ej10.sync-conflict-20250519-150626-EOJTAIS.rs:104-111 | the loop returns what `Bibliotecas.PrimerPrestamo` specifies |
| BibliotecaConflicto.Biblioteca.DevolverLibro | src/tp03/ej10.sync-conflict-20250519-150626-EOJTAIS.rs:113-127 | true exactly with a matching loan; every match is marked returned, and one copy comes back only then; the name and address stay |
| BibliotecaConflicto.Biblioteca.AgregarLibro | src/tp03/ej10.sync-conflict-20250519-150626-EOJTAIS.rs:170-173 | a new counter is appended; the loans are unchanged; the name and address stay |
| BibliotecaConflicto.Biblioteca.QuitarPrestamo | src/tp03/ej10.sync-conflict-20250519-150626-EOJTAIS.rs:175-183 | one loan is swap-removed, at `IndiceAQuitar`; the counters are unchanged; the name and address stay |
| BibliotecaInicial.DecCantDisponibles | src/tp03/ej10.rs:168-174 | one copy less unless there are none, and the count returned is the one stored |
| BibliotecaInicial.IncCantDisponibles | src/tp03/ej10.rs:176-179 | one copy more, and the count returned is the one stored |
| BibliotecaInicial.IncDecInversos | src/tp03/ej10.rs:168-179 | the two counter updates undo each other, a decrement only while a copy is left |
| BibliotecaInicial.PrestamosDe | src/tp03/ej10.rs:61-69 | at most the number of loans, and 0 exactly when no loan names that email |
| BibliotecaInicial.ActivosDe | src/tp03/ej10.rs:71-81 | the client's active loans never outnumber all of the client's loans |
| BibliotecaInicial.PrestamosDePrefijo | src/tp03/ej10.rs:61-77 | each loop step adds one exactly for a loan with that email, and for an active one in the active count |
| BibliotecaInicial.PrestamosDeMonotono | src/tp03/ej10.rs:61-69 | counting over a prefix never gives more |
| BibliotecaInicial.PosicionLibro | src/tp03/ej10.rs:84-91 | the first stored book with that ISBN, or None exactly when there is none |
| BibliotecaInicial.PrimerPrestamo | src/tp03/ej10.rs:123-130 | the first loan of that book to that client; None exactly when there is none |
| BibliotecaInicial.Biblioteca.constructor | src/tp03/ej10.rs:52-59 | the given name and address, no books and no loans |
| BibliotecaInicial.Biblioteca.CantPrestamosCliente | src/tp03/ej10.rs:61-69 | the loop counts every loan with that email, returned or not |
| BibliotecaInicial.Biblioteca.Prestar | src/tp03/ej10.rs:71-100 | granted exactly below five active loans when the ISBN is stored and the argument's own count is positive; then the stored book loses one copy and no loan is recorded; otherwise nothing changes; the name and address stay |
| BibliotecaInicial.Biblioteca.BuscarPrestamo | src/tp03/ej10.rs:123-130 | the loop returns what `PrimerPrestamo` specifies |
| BibliotecaInicial.Biblioteca.DevolverLibro | src/tp03/ej10.rs:132-142 | true exactly when a matching loan exists, and the library is unchanged |
| Playlists.GeneroIgualSiiMismo | src/tp05/ej02.rs:152-164 | two genres have equal labels exactly when they are the same genre |
| Playlists.CompararEquivalencia | src/tp05/ej02.rs:38-43 | comparing songs by title and artist is reflexive, symmetric and transitive |
| Playlists.PosicionCancion | src/tp05/ej02.rs:103-110 | the first song comparing equal, or None exactly when none does |
| Playlists.PosicionEn | src/tp05/ej02.rs:103-110 | the first index comparing equal is the only position returned |
| Playlists.PrimeraConTitulo | src/tp05/ej02.rs:93-101 | the first song with that title, drawn from the playlist; None exactly when no song has it |
| Playlists.SinCancion | src/tp05/ej02.rs:69-77 | the playlist without its first song comparing equal, the rest in order; unchanged when none does |
| Playlists.EliminarDeshaceAgregar | src/tp05/ej02.rs:64-77 | removing a song just appended, when no earlier song compared equal, restores the playlist |
| Playlists.EliminarQuitaUna | src/tp05/ej02.rs:69-77 | removal shortens the playlist by one exactly when a song compares equal, and keeps every song that does not |
| Playlists.Movida | src/tp05/ej02.rs:79-91 | the same songs, with the first match now at `pos`; unchanged when `pos` is out of range or nothing matches |
| Playlists.MoverConservaExtremos | src/tp05/ej02.rs:79-91 | songs before both slots, or after both, keep their place |
| Playlists.MoverDesplaza | src/tp05/ej02.rs:79-91 | the songs between the match and `pos` shift one slot: back when the song moves forward, on when it moves backward |
| Playlists.MoverAlMismoLugar | src/tp05/ej02.rs:79-91 | moving a song to its own slot changes nothing |
| Playlists.EjemploMover | src/tp05/ej02.rs:277-291 | moving the first of three songs to slot 2 gives the second, the third, then the first |
| Playlists.DeGenero | src/tp05/ej02.rs:112-120 | exactly the songs of that genre, drawn from the playlist |
| Playlists.DeArtista | src/tp05/ej02.rs:122-130 | exactly the songs by that artist, drawn from the playlist |
| Playlists.DeGeneroAgrega | src/tp05/ej02.rs:112-120 | each loop step appends the song exactly when it is of that genre |
| Playlists.DeArtistaAgrega | src/tp05/ej02.rs:122-130 | each loop step appends the song exactly when it is by that artist |
| Playlists.FiltrosConmutan | src/tp05/ej02.rs:112-130 | filtering by genre and by artist can be done in either order |
| Playlists.AgregarApareceEnSuGenero | src/tp05/ej02.rs:64-67 | an appended song comes last in its genre's list |
| Playlists.Playlist.constructor | src/tp05/ej02.rs:51-56 | the given name and no songs |
| Playlists.Playlist.AgregarCancion | src/tp05/ej02.rs:64-67 | the song is appended; the name is kept |
| Playlists.Playlist.EliminarCancion | src/tp05/ej02.rs:69-77 | the songs become `SinCancion` of the old ones; the name is kept |
| Playlists.Playlist.MoverCancion | src/tp05/ej02.rs:79-91 | the songs become `Movida` of the old ones; the name is kept |
| Playlists.Playlist.BuscarCancionPorNombre | src/tp05/ej02.rs:93-101 | the loop returns what `PrimeraConTitulo` specifies |
| Playlists.Playlist.GetPosicionCancion | src/tp05/ej02.rs:103-110 | the loop returns what `PosicionCancion` specifies |
| Playlists.Playlist.GetCancionesGenero | src/tp05/ej02.rs:112-120 | the loop returns what `DeGenero` specifies |
| Playlists.Playlist.GetCancionesArtista | src/tp05/ej02.rs:122-130 | the loop returns what `DeArtista` specifies |
| Playlists.Playlist.CambiarTitulo | src/tp05/ej02.rs:132-135 | only the name changes |
| Playlists.Playlist.DelAllCanciones | src/tp05/ej02.rs:137-140 | no songs are left; the name is kept |
| PlaylistBorrador.Intercambiada | src/tp03/ej08.rs:67-78 | the same songs, with the first match and the song at `pos` swapped and every other slot kept; unchanged when `pos` is out of range or nothing matches |
| PlaylistBorrador.MoverAdyacenteCoincide | src/tp03/ej08.rs:67-78 | a move by one slot, or to the song's own slot, gives the same playlist as in the later version |
| PlaylistBorrador.MoverLejosDifiere | src/tp03/ej08.rs:67-78 | a move over two slots gives a different playlist in the two versions |
| PlaylistBorrador.IntercambiarPrimeraCoincidencia | src/tp03/ej08.rs:67-97 | after a swap towards the front the moved song is the first match; after a swap towards the back the first match lies between the two slots |
| PlaylistBorrador.Playlist.constructor | src/tp03/ej08.rs:47-52 | the given name and no songs |
| PlaylistBorrador.Playlist.AgregarCancion | src/tp03/ej08.rs:54-56 | the song is appended; the name is kept |
| PlaylistBorrador.Playlist.EliminarCancion | src/tp03/ej08.rs:58-65 | the songs become `Playlists.SinCancion` of the old ones; the name is kept |
| PlaylistBorrador.Playlist.MoverCancion | src/tp03/ej08.rs:67-78 | the songs become `Intercambiada` of the old ones; the name is kept |
| PlaylistBorrador.Playlist.BuscarCancionPorNombre | src/tp03/ej08.rs:80-88 | the loop returns what `Playlists.PrimeraConTitulo` specifies |
| PlaylistBorrador.Playlist.GetPosicionCancion | src/tp03/ej08.rs:90-97 | the loop returns what `Playlists.PosicionCancion` specifies |
| PlaylistBorrador.Playlist.GetCancionesGenero | src/tp03/ej08.rs:99-107 | the loop returns what `Playlists.DeGenero` specifies |
| PlaylistBorrador.Playlist.GetCancionesArtista | src/tp03/ej08.rs:109-117 | the loop returns what `Playlists.DeArtista` specifies |
| PlaylistBorrador.Playlist.CambiarTitulo | src/tp03/ej08.rs:119-121 | only the name changes |
| PlaylistBorrador.Playlist.DelAllCanciones | src/tp03/ej08.rs:123-125 | no songs are left; the name is kept |
| Concesionarios.Mensaje | src/tp05/ej01.rs:38-44 | the fixed sentence followed by decimal digits that read back as the capacity |
| Concesionarios.MensajeInyectivo | src/tp05/ej01.rs:38-44 | different capacities give different messages |
| Concesionarios.MensajeCapacidadUno | src/tp05/ej01.rs:38-44 | the message for capacity 1 is the sentence ending in "1" |
| Concesionarios.PrimerAuto | src/tp05/ej01.rs:81-90 | the first car with the same make and model; None exactly when there is none |
| Concesionarios.SinModelo | src/tp05/ej01.rs:70-73 | exactly the cars of other makes or models, drawn from the list |
| Concesionarios.EliminarEsDefinitivo | src/tp05/ej01.rs:70-90 | after a removal no car of that model is found, and removing it again changes nothing |
| Concesionarios.EliminarConservaOtros | src/tp05/ej01.rs:70-90 | removing one model neither hides nor creates a car of another model |
| Concesionarios.CalcularPrecio | src/tp05/ej01.rs:112-127 | the step-by-step rate equals the sum of the colour, make and year adjustments, and the price of a non-negative gross price stays between 85% and 140% of it |
| Concesionarios.TasaAcotada | src/tp05/ej01.rs:112-127 | the rate lies between -15% and +40%, each bound reached by exactly one combination of colour, make and year |
| Concesionarios.PreciosDeEjemplo | src/tp05/ej01.rs:314-341 | a black 1999 Audi at 100 sells for 85 and a red 2015 BMW at 100 for 140 |
| Concesionarios.ConcesionarioAuto.constructor | src/tp05/ej01.rs:48-56 | the given name, address and capacity, and no cars |
| Concesionarios.ConcesionarioAuto.AgregarAuto | src/tp05/ej01.rs:59-68 | fails with the capacity error exactly when the `u16` length equals the capacity, leaving the cars unchanged; otherwise appends the car; the capacity is never exceeded |
| Concesionarios.ConcesionarioAuto.EliminarAuto | src/tp05/ej01.rs:70-73 | the cars become `SinModelo` of the old ones, within the capacity |
| Concesionarios.ConcesionarioAuto.BuscarAuto | src/tp05/ej01.rs:81-90 | the loop returns what `PrimerAuto` specifies |
| ConcesionarioBorrador.PosicionAuto | src/tp03/ej07.rs:49-56 | the first car with the same make and model, or None exactly when there is none |
| ConcesionarioBorrador.SinPrimerAuto | src/tp03/ej07.rs:49-56 | only the first car of the model is removed, and the last car takes its slot; unchanged when there is none |
| ConcesionarioBorrador.EliminarUnicoMismosAutos | src/tp03/ej07.rs:49-56 | with a single car of the model, both versions remove the same car |
| ConcesionarioBorrador.EliminarDuplicadoDifiere | src/tp03/ej07.rs:49-56 | with two cars of the model, this version keeps one and the later version keeps none |
| ConcesionarioBorrador.ConcesionarioAuto.constructor | src/tp03/ej07.rs:30-38 | the given name, address and capacity, and no cars |
| ConcesionarioBorrador.ConcesionarioAuto.AgregarAuto | src/tp03/ej07.rs:40-47 | false exactly when the `u16` length equals the capacity; otherwise the car is appended; the capacity is never exceeded |
| ConcesionarioBorrador.ConcesionarioAuto.EliminarAuto | src/tp03/ej07.rs:49-56 | the cars become `SinPrimerAuto` of the old ones |
| ConcesionarioBorrador.ConcesionarioAuto.BuscarAuto | src/tp03/ej07.rs:58-67 | the loop returns what `Concesionarios.PrimerAuto` specifies |
| Ventas.SubtotalConcat | src/tp04/ej04.rs:111-121 | the subtotal of two runs of lines is the sum of their subtotals |
| Ventas.SubtotalNoNegativo | src/tp04/ej04.rs:111-121 | with non-negative base prices and discounts of at most 100%, the subtotal is not negative |
| Ventas.PrecioFinalNewsletter | src/tp04/ej04.rs:123-128 | a newsletter subscriber pays 90% of the subtotal, anyone else the subtotal |
| Ventas.VentasCategoria | src/tp04/ej04.rs:138-150 | at most the number of sales, and 0 exactly when no sale has a line in the category |
| Ventas.VentasVendedor | src/tp04/ej04.rs:152-160 | at most the number of sales, and 0 exactly when no sale is by that seller |
| Ventas.VentasCategoriaAgrega | src/tp04/ej04.rs:138-150 | a new sale adds exactly one to its categories' counts, however many lines it has in them |
| Ventas.VentasVendedorAgrega | src/tp04/ej04.rs:152-160 | a new sale adds one exactly to its seller's count |
| Ventas.VentasCategoriaPrefijo | src/tp04/ej04.rs:138-150 | counting over a prefix of the sales never gives more |
| Ventas.ReporteVentasVendedor | src/tp04/ej04.rs:152-160 | the report names the seller and, below 2^32 sales, holds the exact count |
| Ventas.EjemploPrecios | src/tp04/ej04.rs:284-296 | two phones at 20% off with the newsletter cost 1440; a phone and three shirts cost 841.5 |
| Ventas.EjemploReporteCategoria | src/tp04/ej04.rs:316-329 | electronics are in both fixture sales, clothing in one, home goods in none |
| Ventas.VentasCategoriaDos | src/tp04/ej04.rs:138-150 | over two sales, the category count adds one per sale with a line in it |
| Ventas.CategoriasDeLaPrueba | src/tp04/ej04.rs:175-260 | which categories each fixture sale touches |
| Ventas.EjemploReporteVendedor | src/tp04/ej04.rs:331-340 | Juan made both fixture sales and María none |
| Ventas.Sistema.constructor | src/tp04/ej04.rs:71-77 | nothing is registered |
| Ventas.Sistema.CrearVenta | src/tp04/ej04.rs:81-98 | the new sale is appended and returned; products and discounts are unchanged |
| Ventas.Sistema.BuscarVenta | src/tp04/ej04.rs:132-134 | None exactly when the sale is not stored; otherwise that sale |
| Ventas.Sistema.CalcularPrecioFinal | src/tp04/ej04.rs:107-130 | None exactly for a sale that is not stored; otherwise the loop's total is `PrecioFinal` |
| Ventas.Sistema.ReporteVentasCategoria | src/tp04/ej04.rs:138-150 | the report names the category and holds the number of sales with a line in it |

## Left out

- JSON persistence (`persistir*`, `cargar`, serde and files) is not modelled. The in-memory state is taken as authoritative, and `cargar()` is taken to return the state last written, that is `self`.
- The system clock (`Fecha::fecha_actual`) is replaced by a `hoy` parameter wherever the source reads "today". Tests that only check the clock are not modelled.
- `chrono` is not modelled. Dates use the project's own Gregorian rules on unbounded years, so `chrono`'s year range is absent.
- Floating point (`f32`, `f64`) is modelled as `real`. There is no rounding, NaN or infinity, and no `as` truncation of floats.
- Primos.IsPrime: `(n as f64).sqrt() as u64` is taken as the exact floor square root. The `f64` computation agrees only while n is below 2^53.
- Primos.EsPrimo: the same floor square root stands for the `f64` square root.
- The ledger's withdraw-to-chain, receive-from-chain, fiat withdrawal, random hash and most-bought/most-sold queries exist only in the exercise text, so they are not modelled. The same goes for the empty `retirar_criptomoneda` stub.
- `prestamos_a_vencer` of src/tp03/ej10.rs is not modelled, because it does not type-check against the `Fecha` of src/tp03/ej03.rs: a `u8` field passes where `i64` is expected, and a `Fecha` passes where `&Fecha` is expected.
- `println!` output is not modelled. This covers the print inside `buscar_cancion_por_nombre` and the display strings `Cancion::info` and `Auto::get_info`, which only the tests and prints read.
- Constructors that only move their arguments into a struct have no row: `Usuario::new`, `Transaccion::new`, `Subscripcion::new`, `Cancion::new`, `Auto::new`, `Mascota::new`, `Cliente::new`, `Libro::new`, `Examen::new`, `Estudiante::new`, `Informe::new`, `Reporte::new`, `RegistroDisponible::new`, the `RegistroAtencion::new` of src/tp05/ej03.rs and the `Persona::new` of src/tp04/ej02.rs. The Dafny datatype constructors play their part. `Subscripcion::new` takes its start date from the `hoy` parameter.
- Plain getters have no row: `get_nombre`, `get_len_canciones`, `get_cant_copias`, `get_nota` and `get_examenes`. The fields are read directly.
- `Auto::calcular_precio` of src/tp03/ej07.rs has the same body as in src/tp05/ej01.rs, so `Concesionarios.CalcularPrecio` models both.
- The body of `is_even` is not part of this model. Arreglos.NOdds takes it as "remainder 0 modulo 2", the reading its tests fix.
- `dup_vals_hashmap` is not part of this model.
- Arreglos.NOdds: the `u64` counters are exact only while the slice has fewer than 2^64 elements. The same holds for the other counting utilities of src/tp02.
- Ventas.ReporteVentasVendedor: its contract states the exact count only below 2^32 sales. Above that the report holds the count truncated by `as u32`, which the function computes but does not state.
- The float-only formula files src/tp03/ej02.rs, src/tp03/ej04.rs and src/tp03/ej05.rs are not modelled: they are rectangle, triangle and percentage arithmetic with nothing to state beyond the formula.
- The interactive programs of src/tp01 and src/main.rs are not modelled: they read standard input and print.
- StreamingEmail.MetodoMasUtilizadoGenerico: the nested loop over users and their subscriptions is modelled as one loop over the subscriptions in the same scan order.
- StreamingEmail.SubscripcionMasContratadaGenerico: the same flattening to one loop applies.
- Bibliotecas.ConIncremento: requires the first counter for the ISBN to be below 255, because `cant_disponibles += 1` on a `u8` panics at 255 (src/tp05/ej04.rs:134).
- Bibliotecas.Biblioteca.IncrementarDisponibilidad: requires the same bound, for the same `u8` increment panic.
- Bibliotecas.Biblioteca.CantPrestamosCli: requires at most 255 active loans for the client, because the `u8` counter `cant_prestamos += 1` panics past 255 (src/tp05/ej04.rs:157).
- Bibliotecas.Biblioteca.Prestar: requires the same bound, because it calls `cant_prestamos_cli` first and would panic there.
- Bibliotecas.Biblioteca.DevolverLibro: requires, when a matching loan exists, the book's counter to be below 255, because the increment that follows would panic.
- Bibliotecas.Biblioteca.PrestamosAVencer: requires a valid `hoy`, because `sumar_dias` unwraps `NaiveDate::from_ymd_opt` and panics on an invalid date. The system clock always supplies a valid one.
- BibliotecaConflicto.Biblioteca.IncrementarDisponibilidad: requires the counter below 255, for the `u8` increment panic.
- BibliotecaConflicto.Biblioteca.CantPrestamosCli: requires at most 255 active loans, for the `u8` counter panic.
- BibliotecaConflicto.Biblioteca.Prestar: requires at most 255 active loans, because it counts them with that `u8` counter first.
- BibliotecaConflicto.Biblioteca.DevolverLibro: requires, when a matching loan exists, the counter below 255, for the increment panic.
- BibliotecaConflicto.Biblioteca.QuitarPrestamo: requires at least one loan, because `swap_remove(0)` on an empty `Vec` panics (src/tp03/ej10.sync-conflict-20250519-150626-EOJTAIS.rs:182).
- BibliotecaConflicto.Biblioteca.PrestamosAVencer: requires every due date to be valid, because `sumar_dias` panics on an invalid date (src/tp03/ej03.rs:26).
- BibliotecaInicial.IncCantDisponibles: requires fewer than 255 copies, because `cant_disponibles += 1` on a `u8` panics at 255 (src/tp03/ej10.rs:177).
- BibliotecaInicial.Biblioteca.CantPrestamosCliente: requires at most 255 loans with the email, because the `u8` counter panics past 255 (src/tp03/ej10.rs:65).
- BibliotecaInicial.Biblioteca.DevolverLibro: requires, when a matching loan exists, its book's count to be below 255, because the increment on the clone panics at 255 (src/tp03/ej10.rs:137).
- BibliotecaInicial.Biblioteca.Prestar: requires, for a call that passes the five-loan check, that a stored book matched with a positive argument count has a copy left, because `cant_disponibles -= 1` on a `u8` panics at 0 (src/tp03/ej10.rs:97). A call refused at five active loans needs nothing.
- Ventas.Sistema.ReporteVentasCategoria: requires fewer than 2^32 matching sales, because the `u32` counter `cantidad_ventas += 1` panics on overflow (src/tp04/ej04.rs:145).
- Fechas.SumarDias: requires a valid date, because `sumar_dias` unwraps `NaiveDate::from_ymd_opt` and panics on an invalid one (src/tp03/ej03.rs:26). The same holds for Fechas.RestarDias, Fechas.FechaMutable.Sumar and Fechas.FechaMutable.Restar.
- `Venta` in src/tp04/ej04.rs:20 derives `PartialEq`, but its `Fecha` field (src/tp03/ej03.rs:5) does not, so the structural `==` that `buscar_venta` and `calcular_precio_final` rely on does not compile as written. Ventas.Sistema.BuscarVenta and Ventas.Sistema.CalcularPrecioFinal take the field-wise equality that the derive evidently intends. The same holds for `Usuario` and `Subscripcion` in src/tp04/ej03.rs:11-24, src/tp05/ej05.rs:14-27 and src/tp05/ej05bak.rs:14-29, which derive `PartialEq` (and, in tp05, `Serialize`/`Deserialize`) over a `fecha_inicio: Fecha` field, and for the test at src/tp05/ej05.rs:560 that compares two `Fecha` values: StreamingUnico.Posicion, StreamingUnico.StreamingRust.BuscarUsuario, StreamingMemoria.StreamingRust.BuscarUsuario and the other user comparisons of those two modules take the field-wise equality of the datatypes, dates included. Likewise src/main.rs declares only `mod tp02;`, so the other exercise modules are not compiled with it; each is modelled as its own file states it.
- Concesionarios.ConcesionarioAuto.AgregarAuto: the car list is a `seq` field reassigned by each method. A `Vec`'s capacity and reallocation are not modelled, and the same holds in every class of this project.
