/**
 * The streaming platform of src/tp05/ej05bak.rs: every user has an email and
 * a list of subscriptions; users are looked up by email and a subscription
 * by its position in that list. Cancelling the last subscription of a user
 * moves the user from the active list to the cancelled list.
 *
 * Each operation is stated first as a function on a `Plataforma` value,
 * about which the lemmas are proved; the class `StreamingRust` performs it in
 * place and is proved to agree with that function.
 */
module StreamingEmail {
  import opened Wrappers
  import opened Fechas
  import opened Suscripciones
  import Seqs
  import Mode

  datatype Subscripcion = Subscripcion(
    costoMensual: real,
    duracion: nat,
    fechaInicio: Fecha,
    metodoPago: MetodoPago,
    tipoSubscripcion: TipoSubscripcion,
    usrEmail: string)

  datatype Usuario = Usuario(nombre: string, subscripciones: seq<Subscripcion>, email: string)

  /** Both user lists, as one value. */
  datatype Plataforma = Plataforma(activos: seq<Usuario>, cancelados: seq<Usuario>)

  /** The platform after an operation, and the boolean the operation returns. */
  datatype Paso = Paso(plataforma: Plataforma, ok: bool)

  /** `Usuario::new`: a user with no subscriptions. */
  function NuevoUsuario(nombre: string, email: string): Usuario {
    Usuario(nombre, [], email)
  }

  /** `Subscripcion::new`, with the start date passed in instead of read from the clock. */
  function NuevaSubscripcion(costoMensual: real, duracion: nat, metodoPago: MetodoPago, tipo: TipoSubscripcion, usrEmail: string, hoy: Fecha): Subscripcion {
    Subscripcion(costoMensual, duracion, hoy, metodoPago, tipo, usrEmail)
  }

  /** `Usuario::add_subscripcion`. */
  function AgregarSubscripcion(u: Usuario, s: Subscripcion): Usuario {
    u.(subscripciones := u.subscripciones + [s])
  }

  /** `buscar_usuario_i`: the position of the first active user with this email. */
  function PosicionPorEmail(usuarios: seq<Usuario>, email: string): (r: Option<nat>)
    ensures r.Some? ==> r.value < |usuarios| && usuarios[r.value].email == email
    ensures r.Some? ==> forall j :: 0 <= j < r.value ==> usuarios[j].email != email
    ensures r.None? <==> forall j :: 0 <= j < |usuarios| ==> usuarios[j].email != email
  {
    Seqs.FindIndex(usuarios, (u: Usuario) => u.email == email)
  }

  /** There is an active user with this email, and it has a subscription at `subIndex`. */
  predicate SubscripcionExiste(p: Plataforma, email: string, subIndex: nat) {
    var i := PosicionPorEmail(p.activos, email);
    i.Some? && subIndex < |p.activos[i.value].subscripciones|
  }

  /** The tier of subscription `k` of active user `i`. */
  function Tipo(p: Plataforma, i: nat, k: nat): TipoSubscripcion
    requires i < |p.activos| && k < |p.activos[i].subscripciones|
  {
    p.activos[i].subscripciones[k].tipoSubscripcion
  }

  /** `q` differs from `p` at most in the tier of subscription `k` of active user `i`. */
  predicate SoloCambiaTipo(p: Plataforma, q: Plataforma, i: nat, k: nat) {
    q.cancelados == p.cancelados
    && |q.activos| == |p.activos| && i < |p.activos|
    && (forall j :: 0 <= j < |p.activos| && j != i ==> q.activos[j] == p.activos[j])
    && q.activos[i].nombre == p.activos[i].nombre && q.activos[i].email == p.activos[i].email
    && |q.activos[i].subscripciones| == |p.activos[i].subscripciones|
    && k < |p.activos[i].subscripciones|
    && (forall m :: 0 <= m < |p.activos[i].subscripciones| && m != k ==>
          q.activos[i].subscripciones[m] == p.activos[i].subscripciones[m])
    && q.activos[i].subscripciones[k]
         == p.activos[i].subscripciones[k].(tipoSubscripcion := q.activos[i].subscripciones[k].tipoSubscripcion)
  }

  /** Active user `i` with the tier of its subscription `k` replaced by `t`. */
  function ConTipo(p: Plataforma, i: nat, k: nat, t: TipoSubscripcion): (q: Plataforma)
    requires i < |p.activos| && k < |p.activos[i].subscripciones|
    ensures SoloCambiaTipo(p, q, i, k) && Tipo(q, i, k) == t
  {
    var u := p.activos[i];
    var s := u.subscripciones[k];
    p.(activos := p.activos[i := u.(subscripciones := u.subscripciones[k := s.(tipoSubscripcion := t)])])
  }

  /**
   * `upgrade_subscripcion`: for a known email and an existing subscription
   * index, moves that one subscription a step up the ladder (Super stays
   * Super) and answers true; otherwise false and nothing changes.
   */
  function AplicarUpgrade(p: Plataforma, email: string, subIndex: nat): (r: Paso)
    ensures r.ok <==> SubscripcionExiste(p, email, subIndex)
    ensures !r.ok ==> r.plataforma == p
    ensures r.ok ==>
      var i := PosicionPorEmail(p.activos, email).value;
      SoloCambiaTipo(p, r.plataforma, i, subIndex)
      && Nivel(Tipo(r.plataforma, i, subIndex)) == if Tipo(p, i, subIndex) == Super then 2 else Nivel(Tipo(p, i, subIndex)) + 1
  {
    if SubscripcionExiste(p, email, subIndex) then
      var i := PosicionPorEmail(p.activos, email).value;
      Paso(ConTipo(p, i, subIndex, Upgrade(Tipo(p, i, subIndex))), true)
    else Paso(p, false)
  }

  /**
   * `cancelar_subscripcion`: for a known email and an existing subscription
   * index, a user with several subscriptions loses the one at `subIndex`
   * (the others keep their order), and a user with only that one is
   * swap-removed from the active list and appended to the cancelled list;
   * otherwise false and nothing changes.
   */
  function AplicarCancelacion(p: Plataforma, email: string, subIndex: nat): (r: Paso)
    ensures r.ok <==> SubscripcionExiste(p, email, subIndex)
    ensures !r.ok ==> r.plataforma == p
    ensures r.ok ==>
      var i := PosicionPorEmail(p.activos, email).value;
      var u := p.activos[i];
      if |u.subscripciones| == 1 then
        multiset(r.plataforma.activos) == multiset(p.activos) - multiset{u}
        && r.plataforma.cancelados == p.cancelados + [u]
        && |r.plataforma.activos| == |p.activos| - 1
        && (forall j :: 0 <= j < |r.plataforma.activos| && j != i ==> r.plataforma.activos[j] == p.activos[j])
        && (i < |r.plataforma.activos| ==> r.plataforma.activos[i] == p.activos[|p.activos| - 1])
      else
        r.plataforma.cancelados == p.cancelados
        && |r.plataforma.activos| == |p.activos|
        && (forall j :: 0 <= j < |p.activos| && j != i ==> r.plataforma.activos[j] == p.activos[j])
        && r.plataforma.activos[i].nombre == u.nombre && r.plataforma.activos[i].email == u.email
        && multiset(r.plataforma.activos[i].subscripciones) == multiset(u.subscripciones) - multiset{u.subscripciones[subIndex]}
        && |r.plataforma.activos[i].subscripciones| == |u.subscripciones| - 1
        && (forall k :: 0 <= k < subIndex ==> r.plataforma.activos[i].subscripciones[k] == u.subscripciones[k])
        && (forall k :: subIndex <= k < |u.subscripciones| - 1 ==>
              r.plataforma.activos[i].subscripciones[k] == u.subscripciones[k + 1])
  {
    if SubscripcionExiste(p, email, subIndex) then
      var i := PosicionPorEmail(p.activos, email).value;
      var u := p.activos[i];
      if |u.subscripciones| == 1 then
        Paso(Plataforma(Seqs.SwapRemove(p.activos, i), p.cancelados + [u]), true)
      else
        var u' := u.(subscripciones := Seqs.RemoveAt(u.subscripciones, subIndex));
        Paso(p.(activos := p.activos[i := u']), true)
    else Paso(p, false)
  }

  /**
   * `downgrade_subscripcion`: a Basic subscription is cancelled as
   * `cancelar_subscripcion` does; any other goes a step down the ladder and
   * the answer is true; an unknown email or index gives false.
   */
  function AplicarDowngrade(p: Plataforma, email: string, subIndex: nat): (r: Paso)
    ensures r.ok <==> SubscripcionExiste(p, email, subIndex)
    ensures !r.ok ==> r.plataforma == p
    ensures r.ok && Tipo(p, PosicionPorEmail(p.activos, email).value, subIndex) == Basic ==>
      r == AplicarCancelacion(p, email, subIndex)
    ensures r.ok && Tipo(p, PosicionPorEmail(p.activos, email).value, subIndex) != Basic ==>
      var i := PosicionPorEmail(p.activos, email).value;
      SoloCambiaTipo(p, r.plataforma, i, subIndex)
      && Nivel(Tipo(r.plataforma, i, subIndex)) == Nivel(Tipo(p, i, subIndex)) - 1
  {
    if SubscripcionExiste(p, email, subIndex) then
      var i := PosicionPorEmail(p.activos, email).value;
      if Tipo(p, i, subIndex) == Basic then AplicarCancelacion(p, email, subIndex)
      else Paso(ConTipo(p, i, subIndex, Downgrade(Tipo(p, i, subIndex))), true)
    else Paso(p, false)
  }

  /** Number of subscriptions held by the users of a list. */
  function TotalSubs(usuarios: seq<Usuario>): nat {
    if |usuarios| == 0 then 0
    else TotalSubs(usuarios[..|usuarios| - 1]) + |usuarios[|usuarios| - 1].subscripciones|
  }

  /** The payment methods of a list's subscriptions, user by user, in scan order. */
  function Metodos(usuarios: seq<Usuario>): (r: seq<MetodoPago>)
    ensures |r| == TotalSubs(usuarios)
  {
    if |usuarios| == 0 then []
    else
      var u := usuarios[|usuarios| - 1];
      Metodos(usuarios[..|usuarios| - 1]) + seq(|u.subscripciones|, k requires 0 <= k < |u.subscripciones| => u.subscripciones[k].metodoPago)
  }

  /** The tiers of a list's subscriptions, user by user, in scan order. */
  function Tipos(usuarios: seq<Usuario>): (r: seq<TipoSubscripcion>)
    ensures |r| == TotalSubs(usuarios)
  {
    if |usuarios| == 0 then []
    else
      var u := usuarios[|usuarios| - 1];
      Tipos(usuarios[..|usuarios| - 1]) + seq(|u.subscripciones|, k requires 0 <= k < |u.subscripciones| => u.subscripciones[k].tipoSubscripcion)
  }

  lemma {:induction false} TotalSubsConcat(a: seq<Usuario>, b: seq<Usuario>)
    ensures TotalSubs(a + b) == TotalSubs(a) + TotalSubs(b)
    decreases |b|
  {
    if |b| > 0 {
      var n := |b| - 1;
      assert (a + b)[..|a + b| - 1] == a + b[..n];
      TotalSubsConcat(a, b[..n]);
    } else {
      assert a + b == a;
    }
  }

  /** Scanning two lists one after the other sees the payment methods of the first, then of the second. */
  lemma {:induction false} MetodosConcat(a: seq<Usuario>, b: seq<Usuario>)
    ensures Metodos(a + b) == Metodos(a) + Metodos(b)
    decreases |b|
  {
    if |b| > 0 {
      var n := |b| - 1;
      assert (a + b)[..|a + b| - 1] == a + b[..n];
      MetodosConcat(a, b[..n]);
    } else {
      assert a + b == a;
    }
  }

  /** Scanning two lists one after the other sees the tiers of the first, then of the second. */
  lemma {:induction false} TiposConcat(a: seq<Usuario>, b: seq<Usuario>)
    ensures Tipos(a + b) == Tipos(a) + Tipos(b)
    decreases |b|
  {
    if |b| > 0 {
      var n := |b| - 1;
      assert (a + b)[..|a + b| - 1] == a + b[..n];
      TiposConcat(a, b[..n]);
    } else {
      assert a + b == a;
    }
  }

  /** Replacing one user changes the subscription count by the difference of the two users' counts. */
  lemma TotalSubsReemplazo(s: seq<Usuario>, i: nat, u: Usuario)
    requires i < |s|
    ensures TotalSubs(s[i := u]) == TotalSubs(s) - |s[i].subscripciones| + |u.subscripciones|
  {
    assert s == s[..i] + [s[i]] + s[i + 1..];
    assert s[i := u] == s[..i] + [u] + s[i + 1..];
    TotalSubsConcat(s[..i] + [s[i]], s[i + 1..]);
    TotalSubsConcat(s[..i], [s[i]]);
    TotalSubsConcat(s[..i] + [u], s[i + 1..]);
    TotalSubsConcat(s[..i], [u]);
    assert [s[i]][..0] == [] && [u][..0] == [];
  }

  /** Swap-removing a user takes away exactly that user's subscriptions. */
  lemma TotalSubsSwapRemove(s: seq<Usuario>, i: nat)
    requires i < |s|
    ensures TotalSubs(Seqs.SwapRemove(s, i)) == TotalSubs(s) - |s[i].subscripciones|
  {
    var n := |s| - 1;
    assert TotalSubs(s) == TotalSubs(s[..n]) + |s[n].subscripciones|;
    var r := Seqs.SwapRemove(s, i);
    if i < n {
      assert r == s[..n][i := s[n]];
      TotalSubsReemplazo(s[..n], i, s[n]);
    } else {
      assert r == s[..n];
    }
  }

  /**
   * A successful cancellation takes away exactly one active subscription,
   * whichever of its two cases applies, and keeps the total number of users.
   */
  lemma CancelarQuitaUna(p: Plataforma, email: string, subIndex: nat)
    requires SubscripcionExiste(p, email, subIndex)
    ensures var q := AplicarCancelacion(p, email, subIndex).plataforma;
      TotalSubs(q.activos) == TotalSubs(p.activos) - 1
      && |q.activos| + |q.cancelados| == |p.activos| + |p.cancelados|
  {
    var i := PosicionPorEmail(p.activos, email).value;
    var u := p.activos[i];
    if |u.subscripciones| == 1 {
      TotalSubsSwapRemove(p.activos, i);
    } else {
      TotalSubsReemplazo(p.activos, i, u.(subscripciones := Seqs.RemoveAt(u.subscripciones, subIndex)));
    }
  }

  /** Changing a tier keeps every list's payment methods. */
  lemma {:induction false} MetodosSinCambioDeTipo(p: Plataforma, q: Plataforma, i: nat, k: nat)
    requires SoloCambiaTipo(p, q, i, k)
    ensures Metodos(q.activos) == Metodos(p.activos)
  {
    var n := |p.activos| - 1;
    assert p.activos == p.activos[..n] + [p.activos[n]];
    assert q.activos == q.activos[..n] + [q.activos[n]];
    MetodosConcat(p.activos[..n], [p.activos[n]]);
    MetodosConcat(q.activos[..n], [q.activos[n]]);
    assert [p.activos[n]][..0] == [] && [q.activos[n]][..0] == [];
    MetodosPrefijo(p, q, i, k, n);
  }

  lemma {:induction false} MetodosPrefijo(p: Plataforma, q: Plataforma, i: nat, k: nat, m: nat)
    requires SoloCambiaTipo(p, q, i, k) && m <= |p.activos|
    ensures Metodos(q.activos[..m]) == Metodos(p.activos[..m])
    ensures m < |p.activos| ==> Metodos([q.activos[m]]) == Metodos([p.activos[m]])
    decreases m
  {
    if m < |p.activos| {
      assert [q.activos[m]][..0] == [] && [p.activos[m]][..0] == [];
      if m == i {
        var a, b := q.activos[i].subscripciones, p.activos[i].subscripciones;
        forall t | 0 <= t < |b| ensures a[t].metodoPago == b[t].metodoPago {
          if t != k {
            assert a[t] == b[t];
          }
        }
      }
    }
    if m > 0 {
      MetodosPrefijo(p, q, i, k, m - 1);
      assert q.activos[..m] == q.activos[..m - 1] + [q.activos[m - 1]];
      assert p.activos[..m] == p.activos[..m - 1] + [p.activos[m - 1]];
      MetodosConcat(q.activos[..m - 1], [q.activos[m - 1]]);
      MetodosConcat(p.activos[..m - 1], [p.activos[m - 1]]);
    }
  }

  /**
   * `metodo_mas_utilizado_generico`: scans every subscription of every user
   * in order; with the strict `>` update the answer is the payment method
   * whose final count is highest and was reached first, or None when there
   * is no subscription at all.
   */
  method MetodoMasUtilizadoGenerico(coleccion: seq<Usuario>) returns (r: Option<MetodoPago>)
    ensures r.None? <==> TotalSubs(coleccion) == 0
    ensures r.Some? ==> Mode.PrimeraModa(Metodos(coleccion), r.value)
  {
    r := Mode.ModaPrimeroEnAlcanzar(Metodos(coleccion));
  }

  /** `subscripcion_mas_contratada_generico`: the same rule applied to the tiers. */
  method SubscripcionMasContratadaGenerico(usuarios: seq<Usuario>) returns (r: Option<TipoSubscripcion>)
    ensures r.None? <==> TotalSubs(usuarios) == 0
    ensures r.Some? ==> Mode.PrimeraModa(Tipos(usuarios), r.value)
  {
    r := Mode.ModaPrimeroEnAlcanzar(Tipos(usuarios));
  }

  /** The four users of the test fixture, each with one subscription. */
  function UsuariosPrueba(hoy: Fecha): seq<Usuario> {
    [ AgregarSubscripcion(NuevoUsuario("tao", "tao@example.com"),
        NuevaSubscripcion(5000.0, 12, Efectivo, Basic, "tao@example.com", hoy)),
      AgregarSubscripcion(NuevoUsuario("clasico", "clasico@example.com"),
        NuevaSubscripcion(5000.0, 12, Efectivo, Classic, "clasico@example.com", hoy)),
      AgregarSubscripcion(NuevoUsuario("super cred", "supercred@example.com"),
        NuevaSubscripcion(5000.0, 12, TarjetaCredito("123"), Super, "supercred@example.com", hoy)),
      AgregarSubscripcion(NuevoUsuario("classic cripto", "classicripto@example.com"),
        NuevaSubscripcion(5000.0, 12, Cripto("0x1829821", "ETH"), Classic, "classicripto@example.com", hoy)) ]
  }

  /** Upgrading tao's Basic and then clasico's Classic gives Classic and Super. */
  lemma EjemploUpgrade(hoy: Fecha)
    ensures var p := Plataforma(UsuariosPrueba(hoy), []);
      var q := AplicarUpgrade(AplicarUpgrade(p, "tao@example.com", 0).plataforma, "clasico@example.com", 0).plataforma;
      Tipo(q, 0, 0) == Classic && Tipo(q, 1, 0) == Super
  {
    var us := UsuariosPrueba(hoy);
    var p := Plataforma(us, []);
    assert PosicionPorEmail(us, "tao@example.com") == Some(0);
    var p1 := AplicarUpgrade(p, "tao@example.com", 0).plataforma;
    assert PosicionPorEmail(p1.activos, "clasico@example.com") == Some(1) by {
      assert p1.activos[0].email == "tao@example.com" != "clasico@example.com";
      assert p1.activos[1] == us[1];
    }
  }

  /** Cancelling tao's only subscription moves tao to the cancelled list, and another user into slot 0. */
  lemma EjemploCancelar(hoy: Fecha)
    ensures var c := AplicarCancelacion(Plataforma(UsuariosPrueba(hoy), []), "tao@example.com", 0);
      c.ok && |c.plataforma.cancelados| == 1 && c.plataforma.cancelados[0].nombre == "tao"
      && c.plataforma.activos[0].nombre != "tao"
  {
    var us := UsuariosPrueba(hoy);
    assert PosicionPorEmail(us, "tao@example.com") == Some(0);
  }

  /** Efectivo is the fixture's most used payment method. */
  lemma EjemploMetodo(hoy: Fecha)
    ensures Mode.PrimeraModa(Metodos(UsuariosPrueba(hoy)), Efectivo)
  {
    MetodosDePrueba(hoy);
    var m1: seq<MetodoPago> := [Efectivo];
    var m2 := m1 + [Efectivo];
    var m3 := m2 + [TarjetaCredito("123")];
    var ms := m3 + [Cripto("0x1829821", "ETH")];
    assert ms == [Efectivo, Efectivo, TarjetaCredito("123"), Cripto("0x1829821", "ETH")];
    Mode.VecesAgregaTodos([], Efectivo);
    Mode.VecesAgregaTodos(m1, Efectivo);
    Mode.VecesAgregaTodos(m2, TarjetaCredito("123"));
    Mode.VecesAgregaTodos(m3, Cripto("0x1829821", "ETH"));
    assert [] + [Efectivo] == m1;
    assert Mode.Veces(ms, Efectivo) == 2;
    assert Mode.Veces(ms, TarjetaCredito("123")) == 1;
    assert Mode.Veces(ms, Cripto("0x1829821", "ETH")) == 1;
    Mode.ModaEstricta(ms, Efectivo);
  }

  /** The fixture's payment methods in scan order. */
  lemma MetodosDePrueba(hoy: Fecha)
    ensures Metodos(UsuariosPrueba(hoy)) == [Efectivo, Efectivo, TarjetaCredito("123"), Cripto("0x1829821", "ETH")]
  {
    var us := UsuariosPrueba(hoy);
    assert us[..1] == [us[0]] && us[..2] == us[..1] + [us[1]] && us[..3] == us[..2] + [us[2]] && us[..4] == us;
    assert Metodos(us[..1]) == [Efectivo];
    assert Metodos(us[..2]) == [Efectivo, Efectivo];
    assert Metodos(us[..3]) == [Efectivo, Efectivo, TarjetaCredito("123")];
  }

  /** Classic is the fixture's most contracted tier. */
  lemma EjemploTipo(hoy: Fecha)
    ensures Mode.PrimeraModa(Tipos(UsuariosPrueba(hoy)), Classic)
  {
    TiposDePrueba(hoy);
    var t1: seq<TipoSubscripcion> := [Basic];
    var t2 := t1 + [Classic];
    var t3 := t2 + [Super];
    var ts := t3 + [Classic];
    assert ts == [Basic, Classic, Super, Classic];
    Mode.VecesAgregaTodos([], Basic);
    Mode.VecesAgregaTodos(t1, Classic);
    Mode.VecesAgregaTodos(t2, Super);
    Mode.VecesAgregaTodos(t3, Classic);
    assert [] + [Basic] == t1;
    assert Mode.Veces(ts, Classic) == 2;
    assert Mode.Veces(ts, Basic) == 1;
    assert Mode.Veces(ts, Super) == 1;
    Mode.ModaEstricta(ts, Classic);
  }

  /** The fixture's tiers in scan order. */
  lemma TiposDePrueba(hoy: Fecha)
    ensures Tipos(UsuariosPrueba(hoy)) == [Basic, Classic, Super, Classic]
  {
    var us := UsuariosPrueba(hoy);
    assert us[..1] == [us[0]] && us[..2] == us[..1] + [us[1]] && us[..3] == us[..2] + [us[2]] && us[..4] == us;
    assert Tipos(us[..1]) == [Basic];
    assert Tipos(us[..2]) == [Basic, Classic];
    assert Tipos(us[..3]) == [Basic, Classic, Super];
  }

  class StreamingRust {
    var usuariosActivos: seq<Usuario>
    var usuariosCancelados: seq<Usuario>

    function Actual(): Plataforma
      reads this
    {
      Plataforma(usuariosActivos, usuariosCancelados)
    }

    /** `StreamingRust::new`: no users. */
    constructor ()
      ensures Actual() == Plataforma([], [])
    {
      usuariosActivos := [];
      usuariosCancelados := [];
    }

    /** `crear_usr`: the user goes at the end of the active list. */
    method CrearUsr(usuario: Usuario)
      modifies this
      ensures usuariosActivos == old(usuariosActivos) + [usuario]
      ensures usuariosCancelados == old(usuariosCancelados)
    {
      usuariosActivos := usuariosActivos + [usuario];
    }

    /** `buscar_usuario_i`: position of the first active user with this email. */
    function BuscarUsuarioI(email: string): (r: Option<nat>)
      reads this
      ensures r == PosicionPorEmail(usuariosActivos, email)
      ensures r.Some? ==> usuariosActivos[r.value].email == email
    {
      PosicionPorEmail(usuariosActivos, email)
    }

    /** `buscar_usuario`: the first active user with this email. */
    function BuscarUsuario(email: string): (r: Option<Usuario>)
      reads this
      ensures r.None? <==> forall j :: 0 <= j < |usuariosActivos| ==> usuariosActivos[j].email != email
      ensures r.Some? ==> r.value.email == email && r.value == usuariosActivos[BuscarUsuarioI(email).value]
    {
      match BuscarUsuarioI(email)
      case None => None
      case Some(i) => Some(usuariosActivos[i])
    }

    method UpgradeSubscripcion(email: string, subIndex: nat) returns (ok: bool)
      modifies this
      ensures Paso(Actual(), ok) == AplicarUpgrade(old(Actual()), email, subIndex)
    {
      ok := false;
      var encontrado := PosicionPorEmail(usuariosActivos, email);
      if encontrado.Some? {
        var i := encontrado.value;
        var user := usuariosActivos[i];
        if subIndex < |user.subscripciones| {
          var sub := user.subscripciones[subIndex];
          sub := sub.(tipoSubscripcion := Upgrade(sub.tipoSubscripcion));
          user := user.(subscripciones := user.subscripciones[subIndex := sub]);
          usuariosActivos := usuariosActivos[i := user];
          ok := true;
        }
      }
    }

    method CancelarSubscripcion(email: string, subIndex: nat) returns (ok: bool)
      modifies this
      ensures Paso(Actual(), ok) == AplicarCancelacion(old(Actual()), email, subIndex)
    {
      ok := false;
      var encontrado := PosicionPorEmail(usuariosActivos, email);
      if encontrado.Some? {
        var user := usuariosActivos[encontrado.value];
        if subIndex < |user.subscripciones| {
          if |user.subscripciones| == 1 {
            var i := encontrado.value;
            var usuarioCancelado := usuariosActivos[i];
            usuariosActivos := Seqs.SwapRemove(usuariosActivos, i);
            usuariosCancelados := usuariosCancelados + [usuarioCancelado];
            ok := true;
          } else {
            user := user.(subscripciones := Seqs.RemoveAt(user.subscripciones, subIndex));
            usuariosActivos := usuariosActivos[encontrado.value := user];
            ok := true;
          }
        }
      }
    }

    method DowngradeSubscripcion(email: string, subIndex: nat) returns (ok: bool)
      modifies this
      ensures Paso(Actual(), ok) == AplicarDowngrade(old(Actual()), email, subIndex)
    {
      ok := false;
      var encontrado := PosicionPorEmail(usuariosActivos, email);
      if encontrado.Some? {
        var i := encontrado.value;
        var user := usuariosActivos[i];
        if subIndex < |user.subscripciones| {
          if user.subscripciones[subIndex].tipoSubscripcion == Basic {
            ok := CancelarSubscripcion(email, subIndex);
          } else {
            var sub := user.subscripciones[subIndex];
            sub := sub.(tipoSubscripcion := Downgrade(sub.tipoSubscripcion));
            user := user.(subscripciones := user.subscripciones[subIndex := sub]);
            usuariosActivos := usuariosActivos[i := user];
            ok := true;
          }
        }
      }
    }

    /** `metodo_mas_utilizado_activos`: the rule over the active users only. */
    method MetodoMasUtilizadoActivos() returns (r: Option<MetodoPago>)
      ensures r.None? <==> TotalSubs(usuariosActivos) == 0
      ensures r.Some? ==> Mode.PrimeraModa(Metodos(usuariosActivos), r.value)
    {
      r := MetodoMasUtilizadoGenerico(usuariosActivos);
    }

    /** `metodo_mas_utilizado`: the rule over the active users followed by the cancelled ones. */
    method MetodoMasUtilizado() returns (r: Option<MetodoPago>)
      ensures r.None? <==> TotalSubs(usuariosActivos) + TotalSubs(usuariosCancelados) == 0
      ensures r.Some? ==> Mode.PrimeraModa(Metodos(usuariosActivos) + Metodos(usuariosCancelados), r.value)
    {
      TotalSubsConcat(usuariosActivos, usuariosCancelados);
      MetodosConcat(usuariosActivos, usuariosCancelados);
      r := MetodoMasUtilizadoGenerico(usuariosActivos + usuariosCancelados);
    }

    /** `subscripcion_mas_contratada_activos`: the tier rule over the active users only. */
    method SubscripcionMasContratadaActivos() returns (r: Option<TipoSubscripcion>)
      ensures r.None? <==> TotalSubs(usuariosActivos) == 0
      ensures r.Some? ==> Mode.PrimeraModa(Tipos(usuariosActivos), r.value)
    {
      r := SubscripcionMasContratadaGenerico(usuariosActivos);
    }

    /** `subscripcion_mas_contratada`: the tier rule over the active users followed by the cancelled ones. */
    method SubscripcionMasContratada() returns (r: Option<TipoSubscripcion>)
      ensures r.None? <==> TotalSubs(usuariosActivos) + TotalSubs(usuariosCancelados) == 0
      ensures r.Some? ==> Mode.PrimeraModa(Tipos(usuariosActivos) + Tipos(usuariosCancelados), r.value)
    {
      TotalSubsConcat(usuariosActivos, usuariosCancelados);
      TiposConcat(usuariosActivos, usuariosCancelados);
      r := SubscripcionMasContratadaGenerico(usuariosActivos + usuariosCancelados);
    }
  }
}
