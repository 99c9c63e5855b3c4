/**
 * The library draft src/tp03/ej10.sync-conflict-20250519-150626-EOJTAIS.rs.
 * Books, clients, loans, counters, the five-loan rule and the return logic
 * are those of src/tp05/ej04.rs (module `Bibliotecas`), whose functions
 * specify this class too. Two operations differ: the horizon of
 * `prestamos_a_vencer` is relative to each loan's own due date, and
 * `quitar_prestamo` `swap_remove`s a single loan.
 */
module BibliotecaConflicto {
  import opened Wrappers
  import opened Fechas
  import opened Enteros
  import opened Bibliotecas
  import Seqs

  /** The index `quitar_prestamo` removes: the last loan of that book to that client, or 0. */
  function IndiceAQuitar(ps: seq<Prestamo>, lib: Libro, cli: Cliente): (i: nat)
    requires |ps| > 0
    ensures i < |ps|
    ensures (exists j :: 0 <= j < |ps| && Corresponde(ps[j], lib, cli)) ==>
      Corresponde(ps[i], lib, cli) && forall j :: i < j < |ps| ==> !Corresponde(ps[j], lib, cli)
    ensures (forall j :: 0 <= j < |ps| ==> !Corresponde(ps[j], lib, cli)) ==> i == 0
  {
    match Seqs.FindLastIndex(ps, p => Corresponde(p, lib, cli))
    case None => 0
    case Some(k) => k
  }

  /** The last matching index, or 0 without a match, is the index `quitar_prestamo` removes. */
  lemma IndiceAQuitarEs(ps: seq<Prestamo>, lib: Libro, cli: Cliente, k: nat)
    requires k < |ps|
    requires (exists j :: 0 <= j < |ps| && Corresponde(ps[j], lib, cli)) ==>
      Corresponde(ps[k], lib, cli) && forall j :: k < j < |ps| ==> !Corresponde(ps[j], lib, cli)
    requires (forall j :: 0 <= j < |ps| ==> !Corresponde(ps[j], lib, cli)) ==> k == 0
    ensures IndiceAQuitar(ps, lib, cli) == k
  {
    var m := IndiceAQuitar(ps, lib, cli);
    assert !(m < k) && !(k < m);
  }

  /** With no matching loan the first loan is the one removed, whoever it belongs to. */
  lemma QuitarSinCoincidenciaQuitaPrimero(ps: seq<Prestamo>, lib: Libro, cli: Cliente)
    requires |ps| > 0
    requires forall j :: 0 <= j < |ps| ==> !Corresponde(ps[j], lib, cli)
    ensures multiset(Seqs.SwapRemove(ps, IndiceAQuitar(ps, lib, cli))) == multiset(ps) - multiset{ps[0]}
  {
  }

  class Biblioteca {
    var nombre: string
    var direccion: string
    var prestamos: seq<Prestamo>
    var disponibles: seq<RegistroDisponible>

    /** `Biblioteca::new`: no loans and no books. */
    constructor (nombre: string, direccion: string)
      ensures this.nombre == nombre && this.direccion == direccion
      ensures prestamos == [] && disponibles == []
    {
      this.nombre := nombre;
      this.direccion := direccion;
      prestamos := [];
      disponibles := [];
    }

    /** `cant_prestamos_cli`: a `u8` counter over the loans (it would panic past 255). */
    method CantPrestamosCli(cli: Cliente) returns (n: u8)
      requires PrestamosActivos(prestamos, cli) <= 255
      ensures n as int == PrestamosActivos(prestamos, cli)
    {
      n := 0;
      var i := 0;
      while i < |prestamos|
        invariant 0 <= i <= |prestamos|
        invariant n as int == PrestamosActivos(prestamos[..i], cli)
      {
        assert prestamos[..i + 1][..i] == prestamos[..i];
        if Activo(prestamos[i], cli) {
          ActivosPrefijo(prestamos, i + 1, cli);
          n := n + 1;
        }
        i := i + 1;
      }
      assert prestamos[..i] == prestamos;
    }

    /** `cant_disponibles`: the first counter for the ISBN, found by a loop that breaks. */
    method CantDisponibles(lib: Libro) returns (n: u8)
      ensures n == Disponibles(disponibles, lib)
    {
      n := 0;
      var i := 0;
      while i < |disponibles|
        invariant 0 <= i <= |disponibles|
        invariant forall j :: 0 <= j < i ==> !MismoLibro(disponibles[j].libro, lib)
      {
        if MismoLibro(disponibles[i].libro, lib) {
          assert PosicionLibro(disponibles, lib) == Some(i);
          n := disponibles[i].cantDisponibles;
          break;
        }
        i := i + 1;
      }
    }

    method IncrementarDisponibilidad(lib: Libro)
      requires Disponibles(disponibles, lib) < 255
      modifies this
      ensures nombre == old(nombre) && direccion == old(direccion)
      ensures disponibles == ConIncremento(old(disponibles), lib)
      ensures prestamos == old(prestamos)
    {
      var i := 0;
      while i < |disponibles|
        invariant 0 <= i <= |disponibles|
        invariant disponibles == old(disponibles)
        invariant forall j :: 0 <= j < i ==> !MismoLibro(disponibles[j].libro, lib)
      {
        if MismoLibro(disponibles[i].libro, lib) {
          assert PosicionLibro(disponibles, lib) == Some(i);
          disponibles := disponibles[i := disponibles[i].(cantDisponibles := disponibles[i].cantDisponibles + 1)];
          return;
        }
        i := i + 1;
      }
    }

    method DecrementarDisponibilidad(lib: Libro)
      modifies this
      ensures nombre == old(nombre) && direccion == old(direccion)
      ensures disponibles == ConDecremento(old(disponibles), lib)
      ensures prestamos == old(prestamos)
    {
      var i := 0;
      while i < |disponibles|
        invariant 0 <= i <= |disponibles|
        invariant disponibles == old(disponibles)
        invariant forall j :: 0 <= j < i ==> !MismoLibro(disponibles[j].libro, lib)
      {
        if MismoLibro(disponibles[i].libro, lib) {
          assert PosicionLibro(disponibles, lib) == Some(i);
          if disponibles[i].cantDisponibles > 0 {
            disponibles := disponibles[i := disponibles[i].(cantDisponibles := disponibles[i].cantDisponibles - 1)];
          }
          return;
        }
        i := i + 1;
      }
    }

    /** `prestar`: refused at five active loans or with no copy available; otherwise a new loan and one copy less. */
    method Prestar(cli: Cliente, lib: Libro, vencimiento: Fecha) returns (ok: bool)
      requires PrestamosActivos(prestamos, cli) <= 255
      modifies this
      ensures nombre == old(nombre) && direccion == old(direccion)
      ensures ok <==> PrestamosActivos(old(prestamos), cli) < 5 && Disponibles(old(disponibles), lib) > 0
      ensures ok ==> prestamos == old(prestamos) + [NuevoPrestamo(lib, cli, vencimiento)]
      ensures ok ==> disponibles == ConDecremento(old(disponibles), lib)
      ensures !ok ==> prestamos == old(prestamos) && disponibles == old(disponibles)
    {
      var n := CantPrestamosCli(cli);
      if n >= 5 {
        return false;
      }
      var d := CantDisponibles(lib);
      if d == 0 {
        return false;
      }
      prestamos := prestamos + [NuevoPrestamo(lib, cli, vencimiento)];
      DecrementarDisponibilidad(lib);
      return true;
    }

    /**
     * `prestamos_a_vencer` of this draft compares each due date with itself
     * shifted by `dias`, so it lists every loan when `dias >= 0` and none
     * otherwise. Shifting an invalid due date panics in the source.
     */
    method PrestamosAVencer(dias: int) returns (pres: seq<Prestamo>)
      requires forall j :: 0 <= j < |prestamos| ==> EsFechaValida(prestamos[j].fechaVencimiento)
      ensures pres == if dias >= 0 then prestamos else []
    {
      pres := [];
      var i := 0;
      while i < |prestamos|
        invariant 0 <= i <= |prestamos|
        invariant pres == if dias >= 0 then prestamos[..i] else []
      {
        var v := prestamos[i].fechaVencimiento;
        var f := SumarDias(v, dias);
        EsMayorCronologico(v, f);
        if !EsMayor(v, f) {
          pres := pres + [prestamos[i]];
        }
        assert prestamos[..i + 1] == prestamos[..i] + [prestamos[i]];
        i := i + 1;
      }
      assert prestamos[..i] == prestamos;
    }

    /** `prestamos_vencidos`: the loans due no later than `hoy`, in order. */
    method PrestamosVencidos(hoy: Fecha) returns (pres: seq<Prestamo>)
      ensures pres == VencenHasta(prestamos, hoy)
    {
      pres := [];
      var i := 0;
      var ps := prestamos;
      while i < |ps|
        invariant 0 <= i <= |ps|
        invariant pres == VencenHasta(ps[..i], hoy)
      {
        VencenHastaAgrega(ps[..i], ps[i], hoy);
        assert ps[..i + 1] == ps[..i] + [ps[i]];
        if !EsMayor(ps[i].fechaVencimiento, hoy) {
          pres := pres + [ps[i]];
        }
        i := i + 1;
      }
      assert ps[..i] == ps;
    }

    /** `buscar_prestamo`: the first loan of that book to that client. */
    method BuscarPrestamo(lib: Libro, cli: Cliente) returns (r: Option<Prestamo>)
      ensures r == PrimerPrestamo(prestamos, lib, cli)
    {
      var i := 0;
      while i < |prestamos|
        invariant 0 <= i <= |prestamos|
        invariant forall j :: 0 <= j < i ==> !Corresponde(prestamos[j], lib, cli)
      {
        if Corresponde(prestamos[i], lib, cli) {
          assert Seqs.FindIndex(prestamos, p => Corresponde(p, lib, cli)) == Some(i) by {
            var k := Seqs.FindIndex(prestamos, p => Corresponde(p, lib, cli));
            assert k.Some?;
            assert !(k.value < i) && !(i < k.value);
          }
          return Some(prestamos[i]);
        }
        i := i + 1;
      }
      return None;
    }

    /** `devolver_libro`: every matching loan returned on `hoy`, then one copy back; false with no match. */
    method DevolverLibro(lib: Libro, cli: Cliente, hoy: Fecha) returns (ok: bool)
      requires PrimerPrestamo(prestamos, lib, cli).Some? ==> Disponibles(disponibles, lib) < 255
      modifies this
      ensures nombre == old(nombre) && direccion == old(direccion)
      ensures ok <==> PrimerPrestamo(old(prestamos), lib, cli).Some?
      ensures prestamos == Devueltos(old(prestamos), lib, cli, hoy)
      ensures ok ==> disponibles == ConIncremento(old(disponibles), lib)
      ensures !ok ==> disponibles == old(disponibles)
    {
      var encontrado := false;
      var i := 0;
      while i < |prestamos|
        invariant 0 <= i <= |prestamos| == |old(prestamos)|
        invariant disponibles == old(disponibles)
        invariant nombre == old(nombre) && direccion == old(direccion)
        invariant forall j :: 0 <= j < i ==> prestamos[j] == Marcar(old(prestamos)[j], lib, cli, hoy)
        invariant forall j :: i <= j < |prestamos| ==> prestamos[j] == old(prestamos)[j]
        invariant encontrado <==> exists j :: 0 <= j < i && Corresponde(old(prestamos)[j], lib, cli)
      {
        if Corresponde(prestamos[i], lib, cli) {
          prestamos := prestamos[i := prestamos[i].(estado := Devuelto, fechaDevolucion := Some(hoy))];
          encontrado := true;
        }
        i := i + 1;
      }
      assert prestamos == Devueltos(old(prestamos), lib, cli, hoy);
      if encontrado {
        IncrementarDisponibilidad(lib);
        return true;
      }
      return false;
    }

    /** `agregar_libro`: a new counter at the end. */
    method AgregarLibro(libro: Libro, cant: u8)
      modifies this
      ensures nombre == old(nombre) && direccion == old(direccion)
      ensures disponibles == old(disponibles) + [RegistroDisponible(libro, cant)]
      ensures prestamos == old(prestamos)
    {
      disponibles := disponibles + [RegistroDisponible(libro, cant)];
    }

    /**
     * `quitar_prestamo` of this draft: `swap_remove` at the last matching
     * index, or at index 0 when nothing matches (which panics on an empty
     * list).
     */
    method QuitarPrestamo(cli: Cliente, lib: Libro)
      requires |prestamos| > 0
      modifies this
      ensures nombre == old(nombre) && direccion == old(direccion)
      ensures prestamos == Seqs.SwapRemove(old(prestamos), IndiceAQuitar(old(prestamos), lib, cli))
      ensures disponibles == old(disponibles)
    {
      var ps := prestamos;
      var prestamoI := 0;
      var i := 0;
      while i < |ps|
        invariant 0 <= i <= |ps|
        invariant prestamoI < |ps|
        invariant (exists j :: 0 <= j < i && Corresponde(ps[j], lib, cli)) ==>
          prestamoI < i && Corresponde(ps[prestamoI], lib, cli)
          && forall j :: prestamoI < j < i ==> !Corresponde(ps[j], lib, cli)
        invariant (forall j :: 0 <= j < i ==> !Corresponde(ps[j], lib, cli)) ==> prestamoI == 0
      {
        if Corresponde(ps[i], lib, cli) {
          prestamoI := i;
        }
        i := i + 1;
      }
      IndiceAQuitarEs(ps, lib, cli, prestamoI);
      prestamos := Seqs.SwapRemove(prestamos, prestamoI);
    }
  }
}
