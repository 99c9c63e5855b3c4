/**
 * The crypto exchange of src/tp04/ej05.rs: users with a fiat balance and a
 * map of crypto balances, a quote per crypto prefix, and an append-only log
 * of transactions. Deposit, buy and sell either change one user and append
 * one record, or return false and change nothing.
 *
 * The operations are first stated as functions on the whole state
 * (`Ingresar`, `Comprar`, `Vender`), which the lemmas reason about; the class
 * `Sistema` performs them in place and is proved to agree with them.
 */
module Ledger {
  import opened Wrappers
  import opened Fechas
  import Seqs

  datatype Usuario = Usuario(
    nombre: string,
    apellido: string,
    email: string,
    dni: nat,
    validado: bool,
    montoFiat: real,
    balanceCriptos: map<string, real>)

  datatype Blockchain = Blockchain(nombre: string, prefijo: string)

  datatype Criptomoneda = Criptomoneda(nombre: string, prefijo: string, blockchainsSoportadas: seq<Blockchain>)

  datatype TipoTransaccion = IngresoFiat | IngresoCripto | RetiroFiat | RetiroCripto | Compra | Venta

  datatype Transaccion = Transaccion(
    fecha: Fecha,
    tipo: TipoTransaccion,
    monto: real,
    usuario: Usuario,
    criptomoneda: Option<Criptomoneda>,
    cotizacion: Option<real>)

  /** The four fields of the exchange, as one value. */
  datatype Estado = Estado(
    usuarios: seq<Usuario>,
    cotizaciones: map<string, real>,
    criptomonedas: seq<Criptomoneda>,
    transacciones: seq<Transaccion>)

  /** The state after an operation, and the boolean the operation returns. */
  datatype Paso = Paso(estado: Estado, ok: bool)

  /** `buscar_usuario`: the first user with this email, given by its position. */
  function BuscarUsuario(usuarios: seq<Usuario>, email: string): (r: Option<nat>)
    ensures r.Some? ==> r.value < |usuarios| && usuarios[r.value].email == email
    ensures r.Some? ==> forall j :: 0 <= j < r.value ==> usuarios[j].email != email
    ensures r.None? <==> forall j :: 0 <= j < |usuarios| ==> usuarios[j].email != email
  {
    Seqs.FindIndex(usuarios, (u: Usuario) => u.email == email)
  }

  /** A crypto balance, read with `unwrap_or(&0.0)`. */
  function Saldo(u: Usuario, clave: string): real {
    if clave in u.balanceCriptos then u.balanceCriptos[clave] else 0.0
  }

  /** Only the user at `i` differs between the two user lists. */
  predicate SoloCambia(antes: seq<Usuario>, despues: seq<Usuario>, i: nat) {
    |despues| == |antes| && i < |antes|
    && forall j :: 0 <= j < |antes| && j != i ==> despues[j] == antes[j]
  }

  /** `ingresar_dinero`: credit `montoFiat` to the user with the same email and log it. */
  function Ingresar(e: Estado, montoFiat: real, usuario: Usuario, hoy: Fecha): (r: Paso)
    ensures r.ok <==> BuscarUsuario(e.usuarios, usuario.email).Some?
    ensures !r.ok ==> r.estado == e
    ensures r.ok ==>
      var i := BuscarUsuario(e.usuarios, usuario.email).value;
      SoloCambia(e.usuarios, r.estado.usuarios, i)
      && r.estado.usuarios[i] == e.usuarios[i].(montoFiat := e.usuarios[i].montoFiat + montoFiat)
      && r.estado.transacciones == e.transacciones + [Transaccion(hoy, IngresoFiat, montoFiat, usuario, None, None)]
      && r.estado.cotizaciones == e.cotizaciones && r.estado.criptomonedas == e.criptomonedas
  {
    match BuscarUsuario(e.usuarios, usuario.email)
    case None => Paso(e, false)
    case Some(i) =>
      var u := e.usuarios[i];
      Paso(e.(usuarios := e.usuarios[i := u.(montoFiat := u.montoFiat + montoFiat)],
              transacciones := e.transacciones + [Transaccion(hoy, IngresoFiat, montoFiat, usuario, None, None)]),
           true)
  }

  /** Fiat value of `cantidad` units of a crypto at quote `cotizacion`. */
  function Valor(cantidad: real, cotizacion: real): real {
    cantidad * cotizacion
  }

  /**
   * `comprar_criptomoneda`: the cost `cotizacion * cantidad` is checked against
   * the budget argument `montoFiat` (not against the stored balance); the
   * balance is read under the crypto's `prefijo` and written under its
   * `nombre`; the record carries the budget and the quote.
   */
  function Comprar(e: Estado, montoFiat: real, cantidad: real, cripto: Criptomoneda, usuario: Usuario, hoy: Fecha): (r: Paso)
    ensures r.ok <==>
      cripto.prefijo in e.cotizaciones
      && Valor(cantidad, e.cotizaciones[cripto.prefijo]) <= montoFiat
      && BuscarUsuario(e.usuarios, usuario.email).Some?
      && e.usuarios[BuscarUsuario(e.usuarios, usuario.email).value].validado
    ensures !r.ok ==> r.estado == e
    ensures r.ok ==>
      var i := BuscarUsuario(e.usuarios, usuario.email).value;
      var cot := e.cotizaciones[cripto.prefijo];
      var u := e.usuarios[i];
      SoloCambia(e.usuarios, r.estado.usuarios, i)
      && r.estado.usuarios[i] == u.(montoFiat := u.montoFiat - Valor(cantidad, cot),
                                    balanceCriptos := u.balanceCriptos[cripto.nombre := Saldo(u, cripto.prefijo) + cantidad])
      && r.estado.transacciones == e.transacciones + [Transaccion(hoy, Compra, montoFiat, usuario, Some(cripto), Some(cot))]
      && r.estado.cotizaciones == e.cotizaciones && r.estado.criptomonedas == e.criptomonedas
  {
    if cripto.prefijo !in e.cotizaciones then Paso(e, false)
    else
      var cotizacion := e.cotizaciones[cripto.prefijo];
      var costo := Valor(cantidad, cotizacion);
      if costo > montoFiat then Paso(e, false)
      else
        var transaccion := Transaccion(hoy, Compra, montoFiat, usuario, Some(cripto), Some(cotizacion));
        match BuscarUsuario(e.usuarios, usuario.email)
        case None => Paso(e, false)
        case Some(i) =>
          var u := e.usuarios[i];
          if !u.validado then Paso(e, false)
          else
            var cantFinal := Saldo(u, cripto.prefijo) + cantidad;
            var u' := u.(balanceCriptos := u.balanceCriptos[cripto.nombre := cantFinal], montoFiat := u.montoFiat - costo);
            Paso(e.(usuarios := e.usuarios[i := u'], transacciones := e.transacciones + [transaccion]), true)
  }

  /**
   * `vender_criptomoneda`: the fiat value `costo = montoCripto * cotizacion` is
   * checked against the caller's copy of the user's fiat balance, subtracted
   * from the crypto balance read under `prefijo` (refused below 0), written
   * under `nombre`, and credited to the stored fiat balance; the record
   * carries `costo`.
   */
  function Vender(e: Estado, cripto: Criptomoneda, montoCripto: real, usuario: Usuario, hoy: Fecha): (r: Paso)
    ensures r.ok <==>
      cripto.prefijo in e.cotizaciones
      && Valor(montoCripto, e.cotizaciones[cripto.prefijo]) <= usuario.montoFiat
      && BuscarUsuario(e.usuarios, usuario.email).Some?
      && e.usuarios[BuscarUsuario(e.usuarios, usuario.email).value].validado
      && Saldo(e.usuarios[BuscarUsuario(e.usuarios, usuario.email).value], cripto.prefijo)
           - Valor(montoCripto, e.cotizaciones[cripto.prefijo]) >= 0.0
    ensures !r.ok ==> r.estado == e
    ensures r.ok ==>
      var i := BuscarUsuario(e.usuarios, usuario.email).value;
      var cot := e.cotizaciones[cripto.prefijo];
      var costo := Valor(montoCripto, cot);
      var u := e.usuarios[i];
      SoloCambia(e.usuarios, r.estado.usuarios, i)
      && r.estado.usuarios[i] == u.(montoFiat := u.montoFiat + costo,
                                    balanceCriptos := u.balanceCriptos[cripto.nombre := Saldo(u, cripto.prefijo) - costo])
      && r.estado.transacciones == e.transacciones + [Transaccion(hoy, Venta, costo, usuario, Some(cripto), Some(cot))]
      && r.estado.cotizaciones == e.cotizaciones && r.estado.criptomonedas == e.criptomonedas
  {
    if cripto.prefijo !in e.cotizaciones then Paso(e, false)
    else
      var cotizacion := e.cotizaciones[cripto.prefijo];
      var costo := Valor(montoCripto, cotizacion);
      if costo > usuario.montoFiat then Paso(e, false)
      else
        var transaccion := Transaccion(hoy, Venta, costo, usuario, Some(cripto), Some(cotizacion));
        match BuscarUsuario(e.usuarios, usuario.email)
        case None => Paso(e, false)
        case Some(i) =>
          var u := e.usuarios[i];
          if !u.validado then Paso(e, false)
          else
            var cantFinal := Saldo(u, cripto.prefijo) - costo;
            if cantFinal < 0.0 then Paso(e, false)
            else
              var u' := u.(balanceCriptos := u.balanceCriptos[cripto.nombre := cantFinal], montoFiat := u.montoFiat + costo);
              Paso(e.(usuarios := e.usuarios[i := u'], transacciones := e.transacciones + [transaccion]), true)
  }

  /** Name, surname, email, dni and validation of every user are the same in both lists. */
  predicate MismasIdentidades(a: seq<Usuario>, b: seq<Usuario>) {
    |a| == |b|
    && forall j :: 0 <= j < |a| ==>
         a[j].nombre == b[j].nombre && a[j].apellido == b[j].apellido && a[j].email == b[j].email
         && a[j].dni == b[j].dni && a[j].validado == b[j].validado
  }

  /** The log only grows: each operation keeps the old records and appends one exactly when it succeeds. */
  predicate RegistroExtendido(antes: Estado, despues: Paso) {
    |despues.estado.transacciones| == |antes.transacciones| + (if despues.ok then 1 else 0)
    && despues.estado.transacciones[..|antes.transacciones|] == antes.transacciones
  }

  /** No operation creates, removes or re-identifies a user, and each one extends the log. */
  lemma OperacionesPreservanIdentidadYRegistro(e: Estado, monto: real, cantidad: real, cripto: Criptomoneda, usuario: Usuario, hoy: Fecha)
    ensures MismasIdentidades(e.usuarios, Ingresar(e, monto, usuario, hoy).estado.usuarios)
    ensures MismasIdentidades(e.usuarios, Comprar(e, monto, cantidad, cripto, usuario, hoy).estado.usuarios)
    ensures MismasIdentidades(e.usuarios, Vender(e, cripto, cantidad, usuario, hoy).estado.usuarios)
    ensures RegistroExtendido(e, Ingresar(e, monto, usuario, hoy))
    ensures RegistroExtendido(e, Comprar(e, monto, cantidad, cripto, usuario, hoy))
    ensures RegistroExtendido(e, Vender(e, cripto, cantidad, usuario, hoy))
  {
  }

  function Suma(montos: seq<real>): real {
    if |montos| == 0 then 0.0 else Suma(montos[..|montos| - 1]) + montos[|montos| - 1]
  }

  /** One deposit after another, for the same user. */
  function IngresarVarios(e: Estado, montos: seq<real>, usuario: Usuario, hoy: Fecha): Estado {
    if |montos| == 0 then e
    else Ingresar(IngresarVarios(e, montos[..|montos| - 1], usuario, hoy), montos[|montos| - 1], usuario, hoy).estado
  }

  /** Lists with the same identities answer every email lookup alike. */
  lemma BuscarMismasIdentidades(a: seq<Usuario>, b: seq<Usuario>, email: string)
    requires MismasIdentidades(a, b)
    ensures BuscarUsuario(a, email) == BuscarUsuario(b, email)
  {
  }

  /** One deposit to a registered user, seen from the user's position. */
  lemma IngresoRegistrado(m: Estado, monto: real, usuario: Usuario, hoy: Fecha, i: nat)
    requires BuscarUsuario(m.usuarios, usuario.email) == Some(i)
    ensures var f := Ingresar(m, monto, usuario, hoy).estado;
      MismasIdentidades(m.usuarios, f.usuarios)
      && BuscarUsuario(f.usuarios, usuario.email) == Some(i)
      && f.usuarios[i].montoFiat == m.usuarios[i].montoFiat + monto
      && f.transacciones == m.transacciones + [Transaccion(hoy, IngresoFiat, monto, usuario, None, None)]
  {
    var f := Ingresar(m, monto, usuario, hoy).estado;
    assert MismasIdentidades(m.usuarios, f.usuarios);
    BuscarMismasIdentidades(m.usuarios, f.usuarios, usuario.email);
  }

  /**
   * Successive deposits to a registered user add up: nobody is added, removed
   * or re-identified, and the user's balance grows by their sum.
   */
  lemma {:induction false} IngresosAcumulan(e: Estado, montos: seq<real>, usuario: Usuario, hoy: Fecha)
    requires BuscarUsuario(e.usuarios, usuario.email).Some?
    ensures var i := BuscarUsuario(e.usuarios, usuario.email).value;
      var f := IngresarVarios(e, montos, usuario, hoy);
      MismasIdentidades(e.usuarios, f.usuarios)
      && BuscarUsuario(f.usuarios, usuario.email) == Some(i)
      && f.usuarios[i].montoFiat == e.usuarios[i].montoFiat + Suma(montos)
    decreases |montos|
  {
    if |montos| > 0 {
      var n := |montos| - 1;
      var i := BuscarUsuario(e.usuarios, usuario.email).value;
      IngresosAcumulan(e, montos[..n], usuario, hoy);
      IngresoRegistrado(IngresarVarios(e, montos[..n], usuario, hoy), montos[n], usuario, hoy, i);
    }
  }

  /** The IngresoFiat records of a run of deposits, one per amount, in order. */
  function RegistrosDeIngreso(montos: seq<real>, usuario: Usuario, hoy: Fecha): (r: seq<Transaccion>)
    ensures |r| == |montos|
    ensures forall k :: 0 <= k < |montos| ==> r[k] == Transaccion(hoy, IngresoFiat, montos[k], usuario, None, None)
  {
    if |montos| == 0 then []
    else RegistrosDeIngreso(montos[..|montos| - 1], usuario, hoy) + [Transaccion(hoy, IngresoFiat, montos[|montos| - 1], usuario, None, None)]
  }

  /**
   * Successive deposits to a registered user are logged one IngresoFiat
   * record per deposit, with its amount, in order, after the old records.
   */
  lemma {:induction false} IngresosRegistrados(e: Estado, montos: seq<real>, usuario: Usuario, hoy: Fecha)
    requires BuscarUsuario(e.usuarios, usuario.email).Some?
    ensures IngresarVarios(e, montos, usuario, hoy).transacciones == e.transacciones + RegistrosDeIngreso(montos, usuario, hoy)
    decreases |montos|
  {
    if |montos| > 0 {
      var n := |montos| - 1;
      var i := BuscarUsuario(e.usuarios, usuario.email).value;
      IngresosRegistrados(e, montos[..n], usuario, hoy);
      IngresosAcumulan(e, montos[..n], usuario, hoy);
      IngresoRegistrado(IngresarVarios(e, montos[..n], usuario, hoy), montos[n], usuario, hoy, i);
    }
  }

  /** The test fixture: one validated user with 500 in fiat, and Monero quoted at 300. */
  function UsuarioPrueba(): Usuario {
    Usuario("tao", "lop", "a@a.com", 12345678, true, 500.0, map[])
  }

  function MoneroPrueba(): Criptomoneda {
    Criptomoneda("XMR", "Monero", [Blockchain("Monero", "MNR")])
  }

  function EstadoPrueba(): Estado {
    Estado([UsuarioPrueba()], map["Monero" := 300.0], [MoneroPrueba()], [])
  }

  /** Depositing 100 and then 200 takes the fixture user from 500 to 600 to 800. */
  lemma EjemploIngresos(hoy: Fecha)
    ensures var p1 := Ingresar(EstadoPrueba(), 100.0, UsuarioPrueba(), hoy);
      var p2 := Ingresar(p1.estado, 200.0, UsuarioPrueba(), hoy);
      p1.ok && p1.estado.usuarios[0].montoFiat == 600.0
      && p2.ok && p2.estado.usuarios[0].montoFiat == 800.0
  {
  }

  /** Buying one Monero with a budget of 400 takes the fixture user from 500 to 200 and logs it. */
  lemma EjemploCompra(hoy: Fecha)
    ensures var p := Comprar(EstadoPrueba(), 400.0, 1.0, MoneroPrueba(), UsuarioPrueba(), hoy);
      p.ok && p.estado.usuarios[0].montoFiat == 200.0 && |p.estado.transacciones| == 1
  {
  }

  /**
   * The purchase never looks at the stored fiat balance: a user holding
   * nothing, with a large enough budget argument, is left owing.
   */
  lemma CompraPuedeDejarFiatNegativo(hoy: Fecha)
    ensures var pobre := UsuarioPrueba().(montoFiat := 0.0);
      var e := EstadoPrueba().(usuarios := [pobre]);
      var p := Comprar(e, 300.0, 1.0, MoneroPrueba(), pobre, hoy);
      p.ok && p.estado.usuarios[0].montoFiat < 0.0
  {
  }

  /**
   * Because the balance is read under the prefix and written under the name,
   * a second purchase of the same crypto does not add to the first one when
   * the two differ.
   */
  lemma ComprasNoAcumulan(hoy: Fecha)
    ensures var p1 := Comprar(EstadoPrueba(), 300.0, 1.0, MoneroPrueba(), UsuarioPrueba(), hoy);
      var p2 := Comprar(p1.estado, 300.0, 1.0, MoneroPrueba(), UsuarioPrueba(), hoy);
      p1.ok && p2.ok && Saldo(p2.estado.usuarios[0], "XMR") == 1.0
  {
  }

  class Sistema {
    var usuarios: seq<Usuario>
    var cotizaciones: map<string, real>
    var criptomonedas: seq<Criptomoneda>
    var transacciones: seq<Transaccion>

    function Actual(): Estado
      reads this
    {
      Estado(usuarios, cotizaciones, criptomonedas, transacciones)
    }

    /** `Sistema::new`: the given users, quotes and cryptos, and an empty log. */
    constructor (usuarios: seq<Usuario>, cotizaciones: map<string, real>, criptomonedas: seq<Criptomoneda>)
      ensures Actual() == Estado(usuarios, cotizaciones, criptomonedas, [])
    {
      this.usuarios := usuarios;
      this.cotizaciones := cotizaciones;
      this.criptomonedas := criptomonedas;
      this.transacciones := [];
    }

    method AgregarCriptomoneda(criptomoneda: Criptomoneda)
      modifies this
      ensures Actual() == old(Actual()).(criptomonedas := old(criptomonedas) + [criptomoneda])
    {
      criptomonedas := criptomonedas + [criptomoneda];
    }

    method AgregarUsuario(usuario: Usuario)
      modifies this
      ensures Actual() == old(Actual()).(usuarios := old(usuarios) + [usuario])
    {
      usuarios := usuarios + [usuario];
    }

    method IngresarDinero(montoFiat: real, usuario: Usuario, hoy: Fecha) returns (ok: bool)
      modifies this
      ensures Paso(Actual(), ok) == Ingresar(old(Actual()), montoFiat, usuario, hoy)
    {
      ok := false;
      var encontrado := BuscarUsuario(usuarios, usuario.email);
      if encontrado.Some? {
        var i := encontrado.value;
        usuarios := usuarios[i := usuarios[i].(montoFiat := usuarios[i].montoFiat + montoFiat)];
        transacciones := transacciones + [Transaccion(hoy, IngresoFiat, montoFiat, usuario, None, None)];
        ok := true;
      }
    }

    method ComprarCriptomoneda(montoFiat: real, cantidad: real, cripto: Criptomoneda, usuario: Usuario, hoy: Fecha)
      returns (ok: bool)
      modifies this
      ensures Paso(Actual(), ok) == Comprar(old(Actual()), montoFiat, cantidad, cripto, usuario, hoy)
    {
      ok := false;
      if cripto.prefijo in cotizaciones {
        var cotizacion := cotizaciones[cripto.prefijo];
        var costo := Valor(cantidad, cotizacion);
        if costo > montoFiat {
          return;
        }
        var transaccion := Transaccion(hoy, Compra, montoFiat, usuario, Some(cripto), Some(cotizacion));
        var encontrado := BuscarUsuario(usuarios, usuario.email);
        if encontrado.None? || !usuarios[encontrado.value].validado {
          return;
        }
        var i := encontrado.value;
        var usr := usuarios[i];
        var cantFinal := Saldo(usr, cripto.prefijo) + cantidad;
        usr := usr.(balanceCriptos := usr.balanceCriptos[cripto.nombre := cantFinal]);
        usr := usr.(montoFiat := usr.montoFiat - costo);
        usuarios := usuarios[i := usr];
        transacciones := transacciones + [transaccion];
        ok := true;
      }
    }

    method VenderCriptomoneda(cripto: Criptomoneda, montoCripto: real, usuario: Usuario, hoy: Fecha)
      returns (ok: bool)
      modifies this
      ensures Paso(Actual(), ok) == Vender(old(Actual()), cripto, montoCripto, usuario, hoy)
    {
      ok := false;
      if cripto.prefijo in cotizaciones {
        var cotizacion := cotizaciones[cripto.prefijo];
        var costo := Valor(montoCripto, cotizacion);
        if costo > usuario.montoFiat {
          return;
        }
        var transaccion := Transaccion(hoy, Venta, costo, usuario, Some(cripto), Some(cotizacion));
        var encontrado := BuscarUsuario(usuarios, usuario.email);
        if encontrado.None? || !usuarios[encontrado.value].validado {
          return;
        }
        var i := encontrado.value;
        var usr := usuarios[i];
        var cantFinal := Saldo(usr, cripto.prefijo) - costo;
        if cantFinal < 0.0 {
          return;
        }
        usr := usr.(balanceCriptos := usr.balanceCriptos[cripto.nombre := cantFinal]);
        usr := usr.(montoFiat := usr.montoFiat + costo);
        usuarios := usuarios[i := usr];
        transacciones := transacciones + [transaccion];
        ok := true;
      }
    }
  }
}
