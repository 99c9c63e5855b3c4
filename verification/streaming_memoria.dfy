/**
 * The in-memory streaming draft of src/tp04/ej03.rs. Its users, lookups and
 * tier changes are those of src/tp05/ej05.rs (module `StreamingUnico`),
 * whose functions specify this class too; what differs is the counting loop
 * of the "most used" queries, which increments through
 * `entry().and_modify(..).or_insert(1)`: the first occurrence of a key only
 * inserts 1 and is never compared with the running maximum.
 */
module StreamingMemoria {
  import opened Wrappers
  import opened Fechas
  import opened Suscripciones
  import opened StreamingUnico
  import Seqs
  import Mode

  /**
   * `metodo_mas_utilizado_generico`: None when no payment method occurs
   * twice (an empty list included); otherwise the most used method whose
   * final count was reached first.
   */
  method MetodoMasRepetido(coleccion: seq<Usuario>) returns (r: Option<MetodoPago>)
    ensures r.None? <==> forall j :: 0 <= j < |coleccion| ==> Mode.Veces(Metodos(coleccion), coleccion[j].subscripcion.metodoPago) <= 1
    ensures r.Some? ==> Mode.PrimeraModa(Metodos(coleccion), r.value) && Mode.Veces(Metodos(coleccion), r.value) >= 2
  {
    r := Mode.ModaPrimeroRepetido(Metodos(coleccion));
  }

  /** `subscripcion_mas_contratada_generico`: the same rule applied to the tiers. */
  method SubscripcionMasRepetida(usuarios: seq<Usuario>) returns (r: Option<TipoSubscripcion>)
    ensures r.None? <==> forall j :: 0 <= j < |usuarios| ==> Mode.Veces(Tipos(usuarios), usuarios[j].subscripcion.tipoSubscripcion) <= 1
    ensures r.Some? ==> Mode.PrimeraModa(Tipos(usuarios), r.value) && Mode.Veces(Tipos(usuarios), r.value) >= 2
  {
    r := Mode.ModaPrimeroRepetido(Tipos(usuarios));
  }

  /** Two more Basic users after the fixture make Basic the most contracted tier. */
  lemma EjemploTipoTrasAltas(hoy: Fecha)
    ensures var extra := Usuario("basic inventado", NuevaSubscripcion(5000.0, 12, Efectivo, Basic, hoy));
      var extra2 := Usuario("basic inventado 2", NuevaSubscripcion(5000.0, 12, Efectivo, Basic, hoy));
      Mode.PrimeraModa(Tipos(UsuariosPrueba(hoy) + [extra, extra2]), Basic)
      && Mode.Veces(Tipos(UsuariosPrueba(hoy) + [extra, extra2]), Basic) == 3
  {
    var extra := Usuario("basic inventado", NuevaSubscripcion(5000.0, 12, Efectivo, Basic, hoy));
    var extra2 := Usuario("basic inventado 2", NuevaSubscripcion(5000.0, 12, Efectivo, Basic, hoy));
    var ts := Tipos(UsuariosPrueba(hoy) + [extra, extra2]);
    var t1: seq<TipoSubscripcion> := [Basic];
    var t2 := t1 + [Classic];
    var t3 := t2 + [Super];
    var t4 := t3 + [Classic];
    var t5 := t4 + [Basic];
    assert ts == t5 + [Basic];
    Mode.VecesAgregaTodos([], Basic);
    Mode.VecesAgregaTodos(t1, Classic);
    Mode.VecesAgregaTodos(t2, Super);
    Mode.VecesAgregaTodos(t3, Classic);
    Mode.VecesAgregaTodos(t4, Basic);
    Mode.VecesAgregaTodos(t5, Basic);
    assert [] + [Basic] == t1;
    Mode.ModaEstricta(ts, Basic);
  }

  class StreamingRust {
    var usuariosActivos: seq<Usuario>
    var usuariosCancelados: seq<Usuario>

    function Actual(): Plataforma
      reads this
    {
      Plataforma(usuariosActivos, usuariosCancelados)
    }

    /** `StreamingRust::new`: no users. */
    constructor ()
      ensures Actual() == Plataforma([], [])
    {
      usuariosActivos := [];
      usuariosCancelados := [];
    }

    /** `crear_usr`: the user goes at the end of the active list. */
    method CrearUsr(usuario: Usuario)
      modifies this
      ensures usuariosActivos == old(usuariosActivos) + [usuario]
      ensures usuariosCancelados == old(usuariosCancelados)
    {
      usuariosActivos := usuariosActivos + [usuario];
    }

    /** `buscar_usuario`: the first active user equal to `usuario`, which is then `usuario` itself. */
    function BuscarUsuario(usuario: Usuario): (r: Option<Usuario>)
      reads this
      ensures r.None? <==> usuario !in usuariosActivos
      ensures r.Some? ==> r.value == usuario
    {
      match Posicion(usuariosActivos, usuario)
      case None => None
      case Some(i) => Some(usuariosActivos[i])
    }

    method UpgradeSubscripcion(usuario: Usuario) returns (ok: bool)
      modifies this
      ensures Paso(Actual(), ok) == AplicarUpgrade(old(Actual()), usuario)
    {
      ok := false;
      var encontrado := Posicion(usuariosActivos, usuario);
      if encontrado.Some? {
        var us := usuariosActivos[encontrado.value];
        us := ConTipo(us, Upgrade(us.subscripcion.tipoSubscripcion));
        usuariosActivos := usuariosActivos[encontrado.value := us];
        ok := true;
      }
    }

    method CancelarSubscripcion(usuario: Usuario) returns (ok: bool)
      modifies this
      ensures Paso(Actual(), ok) == AplicarCancelacion(old(Actual()), usuario)
    {
      ok := false;
      var encontrado := Posicion(usuariosActivos, usuario);
      if encontrado.Some? {
        var usuarioCancelado := usuariosActivos[encontrado.value];
        usuariosActivos := Seqs.SwapRemove(usuariosActivos, encontrado.value);
        usuariosCancelados := usuariosCancelados + [usuarioCancelado];
        ok := true;
      }
    }

    method DowngradeSubscripcion(usuario: Usuario) returns (ok: bool)
      modifies this
      ensures Paso(Actual(), ok) == AplicarDowngrade(old(Actual()), usuario)
    {
      ok := false;
      var encontrado := Posicion(usuariosActivos, usuario);
      if encontrado.Some? {
        var u := usuariosActivos[encontrado.value];
        if u.subscripcion.tipoSubscripcion == Basic {
          var _ := CancelarSubscripcion(usuario);
        } else {
          u := ConTipo(u, Downgrade(u.subscripcion.tipoSubscripcion));
          usuariosActivos := usuariosActivos[encontrado.value := u];
        }
        ok := true;
      }
    }

    /** `metodo_mas_utilizado_activos`: the rule over the active users only. */
    method MetodoMasUtilizadoActivos() returns (r: Option<MetodoPago>)
      ensures r.None? <==> forall j :: 0 <= j < |usuariosActivos| ==> Mode.Veces(Metodos(usuariosActivos), usuariosActivos[j].subscripcion.metodoPago) <= 1
      ensures r.Some? ==> Mode.PrimeraModa(Metodos(usuariosActivos), r.value)
    {
      r := MetodoMasRepetido(usuariosActivos);
    }

    /** `metodo_mas_utilizado`: the rule over the active users followed by the cancelled ones. */
    method MetodoMasUtilizado() returns (r: Option<MetodoPago>)
      ensures r.Some? ==> Mode.PrimeraModa(Metodos(usuariosActivos) + Metodos(usuariosCancelados), r.value)
      ensures r.None? <==> forall j :: 0 <= j < |usuariosActivos + usuariosCancelados| ==>
        Mode.Veces(Metodos(usuariosActivos) + Metodos(usuariosCancelados), (usuariosActivos + usuariosCancelados)[j].subscripcion.metodoPago) <= 1
    {
      assert Metodos(usuariosActivos + usuariosCancelados) == Metodos(usuariosActivos) + Metodos(usuariosCancelados);
      r := MetodoMasRepetido(usuariosActivos + usuariosCancelados);
    }

    /** `subscripcion_mas_contratada_activos`: the tier rule over the active users only. */
    method SubscripcionMasContratadaActivos() returns (r: Option<TipoSubscripcion>)
      ensures r.None? <==> forall j :: 0 <= j < |usuariosActivos| ==> Mode.Veces(Tipos(usuariosActivos), usuariosActivos[j].subscripcion.tipoSubscripcion) <= 1
      ensures r.Some? ==> Mode.PrimeraModa(Tipos(usuariosActivos), r.value)
    {
      r := SubscripcionMasRepetida(usuariosActivos);
    }

    /** `subscripcion_mas_contratada`: the tier rule over the active users followed by the cancelled ones. */
    method SubscripcionMasContratada() returns (r: Option<TipoSubscripcion>)
      ensures r.Some? ==> Mode.PrimeraModa(Tipos(usuariosActivos) + Tipos(usuariosCancelados), r.value)
      ensures r.None? <==> forall j :: 0 <= j < |usuariosActivos + usuariosCancelados| ==>
        Mode.Veces(Tipos(usuariosActivos) + Tipos(usuariosCancelados), (usuariosActivos + usuariosCancelados)[j].subscripcion.tipoSubscripcion) <= 1
    {
      assert Tipos(usuariosActivos + usuariosCancelados) == Tipos(usuariosActivos) + Tipos(usuariosCancelados);
      r := SubscripcionMasRepetida(usuariosActivos + usuariosCancelados);
    }
  }
}
