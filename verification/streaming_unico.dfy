/**
 * The streaming platform of src/tp05/ej05.rs: every user holds exactly one
 * subscription, and a user is located by structural equality with a given
 * user value (name and the whole subscription, start date included), the
 * first equal one winning. Cancelling swap-removes the user from the active
 * list and appends it to the cancelled list.
 *
 * The operations are stated as functions on a `Plataforma` value, and the
 * class `StreamingRust` performs them in place and is proved to agree.
 */
module StreamingUnico {
  import opened Wrappers
  import opened Fechas
  import opened Suscripciones
  import Seqs
  import Mode

  datatype Subscripcion = Subscripcion(
    costoMensual: real,
    duracion: nat,
    fechaInicio: Fecha,
    metodoPago: MetodoPago,
    tipoSubscripcion: TipoSubscripcion)

  datatype Usuario = Usuario(nombre: string, subscripcion: Subscripcion)

  /** Both user lists, as one value. */
  datatype Plataforma = Plataforma(activos: seq<Usuario>, cancelados: seq<Usuario>)

  /** The platform after an operation, and the boolean the operation returns. */
  datatype Paso = Paso(plataforma: Plataforma, ok: bool)

  /** `Subscripcion::new`, with the start date passed in instead of read from the clock. */
  function NuevaSubscripcion(costoMensual: real, duracion: nat, metodoPago: MetodoPago, tipo: TipoSubscripcion, hoy: Fecha): Subscripcion {
    Subscripcion(costoMensual, duracion, hoy, metodoPago, tipo)
  }

  /** `buscar_usuario_i`: the position of the first active user equal to `usuario`. */
  function Posicion(usuarios: seq<Usuario>, usuario: Usuario): (r: Option<nat>)
    ensures r.Some? ==> r.value < |usuarios| && usuarios[r.value] == usuario
    ensures r.Some? ==> forall j :: 0 <= j < r.value ==> usuarios[j] != usuario
    ensures r.None? <==> usuario !in usuarios
  {
    Seqs.FindIndex(usuarios, (u: Usuario) => u == usuario)
  }

  /** `usuario` with its subscription moved to tier `t`. */
  function ConTipo(usuario: Usuario, t: TipoSubscripcion): Usuario {
    usuario.(subscripcion := usuario.subscripcion.(tipoSubscripcion := t))
  }

  /** `q` differs from `p` only in active slot `i`, which holds `u`. */
  predicate SoloCambiaActivo(p: Plataforma, q: Plataforma, i: nat, u: Usuario) {
    q.cancelados == p.cancelados
    && |q.activos| == |p.activos| && i < |p.activos| && q.activos[i] == u
    && forall j :: 0 <= j < |p.activos| && j != i ==> q.activos[j] == p.activos[j]
  }

  /**
   * `upgrade_subscripcion`: an active user equal to `usuario` has its tier
   * moved a step up (Super stays Super) and the answer is true; an absent
   * user gives false and no change.
   */
  function AplicarUpgrade(p: Plataforma, usuario: Usuario): (r: Paso)
    ensures r.ok <==> usuario in p.activos
    ensures !r.ok ==> r.plataforma == p
    ensures r.ok ==>
      var i := Posicion(p.activos, usuario).value;
      var t := usuario.subscripcion.tipoSubscripcion;
      |r.plataforma.activos| == |p.activos|
      && SoloCambiaActivo(p, r.plataforma, i, ConTipo(usuario, r.plataforma.activos[i].subscripcion.tipoSubscripcion))
      && Nivel(r.plataforma.activos[i].subscripcion.tipoSubscripcion) == if t == Super then 2 else Nivel(t) + 1
  {
    match Posicion(p.activos, usuario)
    case None => Paso(p, false)
    case Some(i) =>
      var u := p.activos[i];
      Paso(p.(activos := p.activos[i := ConTipo(u, Upgrade(u.subscripcion.tipoSubscripcion))]), true)
  }

  /**
   * `cancelar_subscripcion`: the first active user equal to `usuario` is
   * swap-removed (the last active user takes its slot) and appended to the
   * cancelled list; an absent user gives false and no change.
   */
  function AplicarCancelacion(p: Plataforma, usuario: Usuario): (r: Paso)
    ensures r.ok <==> usuario in p.activos
    ensures !r.ok ==> r.plataforma == p
    ensures r.ok ==>
      var i := Posicion(p.activos, usuario).value;
      var q := r.plataforma;
      multiset(q.activos) == multiset(p.activos) - multiset{usuario}
      && q.cancelados == p.cancelados + [usuario]
      && |q.activos| == |p.activos| - 1
      && (forall j :: 0 <= j < |q.activos| && j != i ==> q.activos[j] == p.activos[j])
      && (i < |q.activos| ==> q.activos[i] == p.activos[|p.activos| - 1])
  {
    match Posicion(p.activos, usuario)
    case None => Paso(p, false)
    case Some(i) =>
      var cancelado := p.activos[i];
      Paso(Plataforma(Seqs.SwapRemove(p.activos, i), p.cancelados + [cancelado]), true)
  }

  /**
   * `downgrade_subscripcion`: an active user equal to `usuario` on Basic is
   * cancelled as `cancelar_subscripcion` does; any other tier goes a step
   * down; both answer true. An absent user gives false and no change.
   */
  function AplicarDowngrade(p: Plataforma, usuario: Usuario): (r: Paso)
    ensures r.ok <==> usuario in p.activos
    ensures !r.ok ==> r.plataforma == p
    ensures r.ok && usuario.subscripcion.tipoSubscripcion == Basic ==> r == AplicarCancelacion(p, usuario)
    ensures r.ok && usuario.subscripcion.tipoSubscripcion != Basic ==>
      var i := Posicion(p.activos, usuario).value;
      var t := usuario.subscripcion.tipoSubscripcion;
      |r.plataforma.activos| == |p.activos|
      && SoloCambiaActivo(p, r.plataforma, i, ConTipo(usuario, r.plataforma.activos[i].subscripcion.tipoSubscripcion))
      && Nivel(r.plataforma.activos[i].subscripcion.tipoSubscripcion) == Nivel(t) - 1
  {
    match Posicion(p.activos, usuario)
    case None => Paso(p, false)
    case Some(i) =>
      var u := p.activos[i];
      if u.subscripcion.tipoSubscripcion == Basic then AplicarCancelacion(p, usuario)
      else Paso(p.(activos := p.activos[i := ConTipo(u, Downgrade(u.subscripcion.tipoSubscripcion))]), true)
  }

  /** Cancelling only moves a user from one list to the other: together the two lists hold the same users. */
  lemma CancelarConservaUsuarios(p: Plataforma, usuario: Usuario)
    ensures var q := AplicarCancelacion(p, usuario).plataforma;
      multiset(q.activos) + multiset(q.cancelados) == multiset(p.activos) + multiset(p.cancelados)
  {
    if usuario in p.activos {
      var q := AplicarCancelacion(p, usuario).plataforma;
      assert multiset(q.cancelados) == multiset(p.cancelados) + multiset{usuario};
      assert multiset{usuario} <= multiset(p.activos);
    }
  }

  /** The payment method of each user of a list, in order. */
  function Metodos(usuarios: seq<Usuario>): (r: seq<MetodoPago>)
    ensures |r| == |usuarios|
    ensures forall j :: 0 <= j < |usuarios| ==> r[j] == usuarios[j].subscripcion.metodoPago
  {
    seq(|usuarios|, j requires 0 <= j < |usuarios| => usuarios[j].subscripcion.metodoPago)
  }

  /** The tier of each user of a list, in order. */
  function Tipos(usuarios: seq<Usuario>): (r: seq<TipoSubscripcion>)
    ensures |r| == |usuarios|
    ensures forall j :: 0 <= j < |usuarios| ==> r[j] == usuarios[j].subscripcion.tipoSubscripcion
  {
    seq(|usuarios|, j requires 0 <= j < |usuarios| => usuarios[j].subscripcion.tipoSubscripcion)
  }

  /**
   * `metodo_mas_utilizado_generico`: one count per user, updated with `>=`
   * against the running maximum, so the answer is the most used payment
   * method whose final count was reached last; None for no users.
   */
  method MetodoMasUtilizadoGenerico(coleccion: seq<Usuario>) returns (r: Option<MetodoPago>)
    ensures r.None? <==> |coleccion| == 0
    ensures r.Some? ==> Mode.UltimaModa(Metodos(coleccion), r.value)
  {
    r := Mode.ModaUltimoEnAlcanzar(Metodos(coleccion));
  }

  /** `subscripcion_mas_contratada_generico`: the same rule applied to the tiers. */
  method SubscripcionMasContratadaGenerico(usuarios: seq<Usuario>) returns (r: Option<TipoSubscripcion>)
    ensures r.None? <==> |usuarios| == 0
    ensures r.Some? ==> Mode.UltimaModa(Tipos(usuarios), r.value)
  {
    r := Mode.ModaUltimoEnAlcanzar(Tipos(usuarios));
  }

  /** The four users of the test fixture. */
  function UsuariosPrueba(hoy: Fecha): seq<Usuario> {
    [ Usuario("tao", NuevaSubscripcion(5000.0, 12, Efectivo, Basic, hoy)),
      Usuario("clasico", NuevaSubscripcion(5000.0, 12, Efectivo, Classic, hoy)),
      Usuario("super cred", NuevaSubscripcion(5000.0, 12, TarjetaCredito("123"), Super, hoy)),
      Usuario("classic cripto", NuevaSubscripcion(5000.0, 12, Cripto("0x1829821", "ETH"), Classic, hoy)) ]
  }

  /** Cancelling tao moves tao to the cancelled list, and "classic cripto" into slot 0. */
  lemma EjemploCancelar(hoy: Fecha)
    ensures var us := UsuariosPrueba(hoy);
      var c := AplicarCancelacion(Plataforma(us, []), us[0]);
      c.ok && c.plataforma.cancelados == [us[0]] && c.plataforma.activos == [us[3], us[1], us[2]]
  {
    var us := UsuariosPrueba(hoy);
    assert Posicion(us, us[0]) == Some(0);
  }

  /** Downgrading tao (Basic) cancels it, and then downgrading clasico leaves it Basic in slot 1. */
  lemma EjemploDowngrade(hoy: Fecha)
    ensures var us := UsuariosPrueba(hoy);
      var p1 := AplicarDowngrade(Plataforma(us, []), us[0]).plataforma;
      var p2 := AplicarDowngrade(p1, us[1]).plataforma;
      p2.cancelados == [us[0]] && p2.activos[1].nombre == "clasico"
      && p2.activos[1].subscripcion.tipoSubscripcion == Basic
  {
    var us := UsuariosPrueba(hoy);
    assert Posicion(us, us[0]) == Some(0);
    var p1 := AplicarDowngrade(Plataforma(us, []), us[0]).plataforma;
    assert p1.activos == [us[3], us[1], us[2]];
    assert us[3] != us[1];
    assert Posicion(p1.activos, us[1]) == Some(1);
  }

  /** Efectivo is the fixture's most used payment method. */
  lemma EjemploMetodo(hoy: Fecha)
    ensures Mode.UltimaModa(Metodos(UsuariosPrueba(hoy)), Efectivo)
    ensures Mode.PrimeraModa(Metodos(UsuariosPrueba(hoy)), Efectivo)
    ensures Mode.Veces(Metodos(UsuariosPrueba(hoy)), Efectivo) == 2
  {
    var ms := Metodos(UsuariosPrueba(hoy));
    var m1: seq<MetodoPago> := [Efectivo];
    var m2 := m1 + [Efectivo];
    var m3 := m2 + [TarjetaCredito("123")];
    assert ms == m3 + [Cripto("0x1829821", "ETH")];
    Mode.VecesAgregaTodos([], Efectivo);
    Mode.VecesAgregaTodos(m1, Efectivo);
    Mode.VecesAgregaTodos(m2, TarjetaCredito("123"));
    Mode.VecesAgregaTodos(m3, Cripto("0x1829821", "ETH"));
    assert [] + [Efectivo] == m1;
    Mode.ModaEstricta(ms, Efectivo);
  }

  /** Classic is the fixture's most contracted tier. */
  lemma EjemploTipo(hoy: Fecha)
    ensures Mode.UltimaModa(Tipos(UsuariosPrueba(hoy)), Classic)
    ensures Mode.PrimeraModa(Tipos(UsuariosPrueba(hoy)), Classic)
    ensures Mode.Veces(Tipos(UsuariosPrueba(hoy)), Classic) == 2
  {
    var ts := Tipos(UsuariosPrueba(hoy));
    var t1: seq<TipoSubscripcion> := [Basic];
    var t2 := t1 + [Classic];
    var t3 := t2 + [Super];
    assert ts == t3 + [Classic];
    Mode.VecesAgregaTodos([], Basic);
    Mode.VecesAgregaTodos(t1, Classic);
    Mode.VecesAgregaTodos(t2, Super);
    Mode.VecesAgregaTodos(t3, Classic);
    assert [] + [Basic] == t1;
    Mode.ModaEstricta(ts, Classic);
  }

  class StreamingRust {
    var usuariosActivos: seq<Usuario>
    var usuariosCancelados: seq<Usuario>

    function Actual(): Plataforma
      reads this
    {
      Plataforma(usuariosActivos, usuariosCancelados)
    }

    /** `StreamingRust::new`: no users. */
    constructor ()
      ensures Actual() == Plataforma([], [])
    {
      usuariosActivos := [];
      usuariosCancelados := [];
    }

    /** `crear_usr`: the user goes at the end of the active list. */
    method CrearUsr(usuario: Usuario)
      modifies this
      ensures usuariosActivos == old(usuariosActivos) + [usuario]
      ensures usuariosCancelados == old(usuariosCancelados)
    {
      usuariosActivos := usuariosActivos + [usuario];
    }

    /** `buscar_usuario`: the first active user equal to `usuario`, which is then `usuario` itself. */
    function BuscarUsuario(usuario: Usuario): (r: Option<Usuario>)
      reads this
      ensures r.None? <==> usuario !in usuariosActivos
      ensures r.Some? ==> r.value == usuario
    {
      match Posicion(usuariosActivos, usuario)
      case None => None
      case Some(i) => Some(usuariosActivos[i])
    }

    method UpgradeSubscripcion(usuario: Usuario) returns (ok: bool)
      modifies this
      ensures Paso(Actual(), ok) == AplicarUpgrade(old(Actual()), usuario)
    {
      ok := false;
      var encontrado := Posicion(usuariosActivos, usuario);
      if encontrado.Some? {
        var us := usuariosActivos[encontrado.value];
        us := ConTipo(us, Upgrade(us.subscripcion.tipoSubscripcion));
        usuariosActivos := usuariosActivos[encontrado.value := us];
        ok := true;
      }
    }

    method CancelarSubscripcion(usuario: Usuario) returns (ok: bool)
      modifies this
      ensures Paso(Actual(), ok) == AplicarCancelacion(old(Actual()), usuario)
    {
      ok := false;
      var encontrado := Posicion(usuariosActivos, usuario);
      if encontrado.Some? {
        var usuarioCancelado := usuariosActivos[encontrado.value];
        usuariosActivos := Seqs.SwapRemove(usuariosActivos, encontrado.value);
        usuariosCancelados := usuariosCancelados + [usuarioCancelado];
        ok := true;
      }
    }

    method DowngradeSubscripcion(usuario: Usuario) returns (ok: bool)
      modifies this
      ensures Paso(Actual(), ok) == AplicarDowngrade(old(Actual()), usuario)
    {
      ok := false;
      var encontrado := Posicion(usuariosActivos, usuario);
      if encontrado.Some? {
        var u := usuariosActivos[encontrado.value];
        if u.subscripcion.tipoSubscripcion == Basic {
          var _ := CancelarSubscripcion(usuario);
        } else {
          u := ConTipo(u, Downgrade(u.subscripcion.tipoSubscripcion));
          usuariosActivos := usuariosActivos[encontrado.value := u];
        }
        ok := true;
      }
    }

    /** `metodo_mas_utilizado_activos`: the rule over the active users only. */
    method MetodoMasUtilizadoActivos() returns (r: Option<MetodoPago>)
      ensures r.None? <==> |usuariosActivos| == 0
      ensures r.Some? ==> Mode.UltimaModa(Metodos(usuariosActivos), r.value)
    {
      r := MetodoMasUtilizadoGenerico(usuariosActivos);
    }

    /** `metodo_mas_utilizado`: the rule over the active users followed by the cancelled ones. */
    method MetodoMasUtilizado() returns (r: Option<MetodoPago>)
      ensures r.None? <==> |usuariosActivos| + |usuariosCancelados| == 0
      ensures r.Some? ==> Mode.UltimaModa(Metodos(usuariosActivos) + Metodos(usuariosCancelados), r.value)
    {
      assert Metodos(usuariosActivos + usuariosCancelados) == Metodos(usuariosActivos) + Metodos(usuariosCancelados);
      r := MetodoMasUtilizadoGenerico(usuariosActivos + usuariosCancelados);
    }

    /** `subscripcion_mas_contratada_activos`: the tier rule over the active users only. */
    method SubscripcionMasContratadaActivos() returns (r: Option<TipoSubscripcion>)
      ensures r.None? <==> |usuariosActivos| == 0
      ensures r.Some? ==> Mode.UltimaModa(Tipos(usuariosActivos), r.value)
    {
      r := SubscripcionMasContratadaGenerico(usuariosActivos);
    }

    /** `subscripcion_mas_contratada`: the tier rule over the active users followed by the cancelled ones. */
    method SubscripcionMasContratada() returns (r: Option<TipoSubscripcion>)
      ensures r.None? <==> |usuariosActivos| + |usuariosCancelados| == 0
      ensures r.Some? ==> Mode.UltimaModa(Tipos(usuariosActivos) + Tipos(usuariosCancelados), r.value)
    {
      assert Tipos(usuariosActivos + usuariosCancelados) == Tipos(usuariosActivos) + Tipos(usuariosCancelados);
      r := SubscripcionMasContratadaGenerico(usuariosActivos + usuariosCancelados);
    }
  }
}
