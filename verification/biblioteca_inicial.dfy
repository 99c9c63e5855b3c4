/**
 * The earliest library draft, src/tp03/ej10.rs. Each book carries its own
 * `cant_disponibles` counter and the library keeps a list of books and a
 * list of loans. This draft never records a loan: `prestar` only checks the
 * five-loan rule and decrements the stored copy count, and `devolver_libro`
 * updates a clone, so the library itself is left as it was.
 */
module BibliotecaInicial {
  import opened Wrappers
  import opened Fechas
  import opened Enteros
  import B = Bibliotecas
  import Seqs

  datatype Libro = Libro(
    isbn: string,
    titulo: string,
    autor: string,
    cantPaginas: nat,
    genero: B.Genero,
    cantDisponibles: u8)

  datatype Prestamo = Prestamo(
    libro: Libro,
    cliente: B.Cliente,
    fechaVencimiento: Fecha,
    fechaDevolucion: Fecha,
    estado: B.Estado)

  /** `Libro::igual`: the same ISBN. */
  predicate MismoLibro(a: Libro, b: Libro) {
    a.isbn == b.isbn
  }

  /** `Libro::dec_cant_disponibles`: one copy less unless there are none; returns the count left. */
  function DecCantDisponibles(l: Libro): (r: (Libro, u8))
    ensures r.1 == r.0.cantDisponibles
    ensures r.0 == l.(cantDisponibles := r.1)
    ensures r.1 == if l.cantDisponibles == 0 then 0 else l.cantDisponibles - 1
  {
    if l.cantDisponibles == 0 then (l, 0)
    else
      var n := l.(cantDisponibles := l.cantDisponibles - 1);
      (n, n.cantDisponibles)
  }

  /** `Libro::inc_cant_disponibles`: one copy more (the `u8` increment panics at 255); returns the new count. */
  function IncCantDisponibles(l: Libro): (r: (Libro, u8))
    requires l.cantDisponibles < 255
    ensures r.1 == r.0.cantDisponibles
    ensures r.0 == l.(cantDisponibles := r.1)
    ensures r.1 as int == l.cantDisponibles as int + 1
  {
    var n := l.(cantDisponibles := l.cantDisponibles + 1);
    (n, n.cantDisponibles)
  }

  /** The two counter updates undo each other (a decrement only while a copy is left). */
  lemma IncDecInversos(l: Libro)
    ensures l.cantDisponibles > 0 ==> IncCantDisponibles(DecCantDisponibles(l).0).0 == l
    ensures l.cantDisponibles < 255 ==> DecCantDisponibles(IncCantDisponibles(l).0).0 == l
  {
  }

  /** How many loans name a client with that email, whatever their state (`cant_prestamos_cliente`). */
  function PrestamosDe(ps: seq<Prestamo>, email: string): (n: nat)
    ensures n <= |ps|
    ensures n == 0 <==> forall j :: 0 <= j < |ps| ==> ps[j].cliente.email != email
    decreases |ps|
  {
    if |ps| == 0 then 0
    else PrestamosDe(ps[..|ps| - 1], email) + if ps[|ps| - 1].cliente.email == email then 1 else 0
  }

  /** The active loans of the client with that email (the count `prestar` checks). */
  function ActivosDe(ps: seq<Prestamo>, email: string): (n: nat)
    ensures n <= PrestamosDe(ps, email)
    decreases |ps|
  {
    if |ps| == 0 then 0
    else ActivosDe(ps[..|ps| - 1], email) + if ps[|ps| - 1].cliente.email == email && ps[|ps| - 1].estado == B.EnPrestamo then 1 else 0
  }

  lemma PrestamosDePrefijo(ps: seq<Prestamo>, i: nat, email: string)
    requires i < |ps|
    ensures PrestamosDe(ps[..i + 1], email) == PrestamosDe(ps[..i], email) + if ps[i].cliente.email == email then 1 else 0
    ensures ActivosDe(ps[..i + 1], email) == ActivosDe(ps[..i], email) + if ps[i].cliente.email == email && ps[i].estado == B.EnPrestamo then 1 else 0
  {
    assert ps[..i + 1][..i] == ps[..i];
  }

  /** Counting a prefix never gives more. */
  lemma {:induction false} PrestamosDeMonotono(ps: seq<Prestamo>, i: nat, email: string)
    requires i <= |ps|
    ensures PrestamosDe(ps[..i], email) <= PrestamosDe(ps, email)
    decreases |ps| - i
  {
    if i < |ps| {
      PrestamosDeMonotono(ps[..|ps| - 1], i, email);
      assert ps[..|ps| - 1][..i] == ps[..i];
    } else {
      assert ps[..i] == ps;
    }
  }

  /** Index of the first stored book with the ISBN of `lib`. */
  function PosicionLibro(libros: seq<Libro>, lib: Libro): (r: Option<nat>)
    ensures r.Some? ==> r.value < |libros| && MismoLibro(libros[r.value], lib)
    ensures r.Some? ==> forall j :: 0 <= j < r.value ==> !MismoLibro(libros[j], lib)
    ensures r.None? <==> forall j :: 0 <= j < |libros| ==> !MismoLibro(libros[j], lib)
  {
    Seqs.FindIndex(libros, (l: Libro) => MismoLibro(l, lib))
  }

  /** `buscar_prestamo`: the first loan of that book (by ISBN) to that client (by email). */
  function PrimerPrestamo(ps: seq<Prestamo>, lib: Libro, cli: B.Cliente): (r: Option<Prestamo>)
    ensures r.Some? ==> MismoLibro(r.value.libro, lib) && r.value.cliente.email == cli.email
    ensures r.Some? ==>
      exists i :: 0 <= i < |ps| && ps[i] == r.value &&
        forall j :: 0 <= j < i ==> !(MismoLibro(ps[j].libro, lib) && ps[j].cliente.email == cli.email)
    ensures r.None? <==> forall j :: 0 <= j < |ps| ==> !(MismoLibro(ps[j].libro, lib) && ps[j].cliente.email == cli.email)
  {
    match Seqs.FindIndex(ps, (p: Prestamo) => MismoLibro(p.libro, lib) && p.cliente.email == cli.email)
    case None => None
    case Some(i) => Some(ps[i])
  }

  class Biblioteca {
    var nombre: string
    var direccion: string
    var libros: seq<Libro>
    var prestamos: seq<Prestamo>

    /** `Biblioteca::new`: no books and no loans. */
    constructor (nombre: string, direccion: string)
      ensures this.nombre == nombre && this.direccion == direccion
      ensures libros == [] && prestamos == []
    {
      this.nombre := nombre;
      this.direccion := direccion;
      libros := [];
      prestamos := [];
    }

    /** `cant_prestamos_cliente`: a `u8` count of the loans with that email, returned or not. */
    method CantPrestamosCliente(email: string) returns (cant: u8)
      requires PrestamosDe(prestamos, email) <= 255
      ensures cant as int == PrestamosDe(prestamos, email)
    {
      cant := 0;
      var i := 0;
      while i < |prestamos|
        invariant 0 <= i <= |prestamos|
        invariant cant as int == PrestamosDe(prestamos[..i], email)
      {
        PrestamosDePrefijo(prestamos, i, email);
        if prestamos[i].cliente.email == email {
          PrestamosDeMonotono(prestamos, i + 1, email);
          cant := cant + 1;
        }
        i := i + 1;
      }
      assert prestamos[..i] == prestamos;
    }

    /**
     * `prestar`: refused at five active loans; otherwise the copies counted
     * are those of the argument, and only when its ISBN is stored. On
     * success the stored book loses a copy (a `u8` decrement that panics at
     * 0, hence the precondition, which a refused call does not need) and no
     * loan is recorded.
     */
    method Prestar(cli: B.Cliente, lib: Libro) returns (ok: bool)
      requires ActivosDe(prestamos, cli.email) < 5 && PosicionLibro(libros, lib).Some? && lib.cantDisponibles > 0 ==>
        libros[PosicionLibro(libros, lib).value].cantDisponibles > 0
      modifies this
      ensures nombre == old(nombre) && direccion == old(direccion)
      ensures prestamos == old(prestamos)
      ensures ok <==> ActivosDe(old(prestamos), cli.email) < 5 && PosicionLibro(old(libros), lib).Some? && lib.cantDisponibles > 0
      ensures ok ==>
        var i := PosicionLibro(old(libros), lib).value;
        libros == old(libros)[i := old(libros)[i].(cantDisponibles := old(libros)[i].cantDisponibles - 1)]
      ensures !ok ==> libros == old(libros)
    {
      var cantPrestamos := 0;
      var k := 0;
      while k < |prestamos|
        invariant 0 <= k <= |prestamos|
        invariant cantPrestamos == ActivosDe(prestamos[..k], cli.email)
        invariant libros == old(libros) && prestamos == old(prestamos)
        invariant nombre == old(nombre) && direccion == old(direccion)
      {
        PrestamosDePrefijo(prestamos, k, cli.email);
        if prestamos[k].cliente.email == cli.email && prestamos[k].estado == B.EnPrestamo {
          cantPrestamos := cantPrestamos + 1;
        }
        k := k + 1;
      }
      assert prestamos[..k] == prestamos;
      if cantPrestamos >= 5 {
        return false;
      }
      var disponibles: u8 := 0;
      var libI := 0;
      var i := 0;
      while i < |libros|
        invariant 0 <= i <= |libros|
        invariant forall j :: 0 <= j < i ==> !MismoLibro(libros[j], lib)
        invariant disponibles == 0 && libI == 0
        invariant libros == old(libros) && prestamos == old(prestamos)
        invariant nombre == old(nombre) && direccion == old(direccion)
      {
        if MismoLibro(libros[i], lib) {
          assert PosicionLibro(libros, lib) == Some(i);
          disponibles := lib.cantDisponibles;
          libI := i;
          break;
        }
        i := i + 1;
      }
      if disponibles == 0 {
        return false;
      }
      libros := libros[libI := libros[libI].(cantDisponibles := libros[libI].cantDisponibles - 1)];
      return true;
    }

    /** `buscar_prestamo`, by a loop that returns at the first match. */
    method BuscarPrestamo(lib: Libro, cli: B.Cliente) returns (r: Option<Prestamo>)
      ensures r == PrimerPrestamo(prestamos, lib, cli)
    {
      var i := 0;
      while i < |prestamos|
        invariant 0 <= i <= |prestamos|
        invariant forall j :: 0 <= j < i ==> !(MismoLibro(prestamos[j].libro, lib) && prestamos[j].cliente.email == cli.email)
      {
        if MismoLibro(prestamos[i].libro, lib) && prestamos[i].cliente.email == cli.email {
          assert Seqs.FindIndex(prestamos, (p: Prestamo) => MismoLibro(p.libro, lib) && p.cliente.email == cli.email) == Some(i) by {
            var k := Seqs.FindIndex(prestamos, (p: Prestamo) => MismoLibro(p.libro, lib) && p.cliente.email == cli.email);
            assert k.Some?;
            assert !(k.value < i) && !(i < k.value);
          }
          return Some(prestamos[i]);
        }
        i := i + 1;
      }
      return None;
    }

    /**
     * `devolver_libro`: true iff a loan is found. The state change and the
     * extra copy are applied to a clone, so the library does not change;
     * the clone's `u8` increment still panics at 255.
     */
    method DevolverLibro(lib: Libro, cli: B.Cliente) returns (ok: bool)
      requires PrimerPrestamo(prestamos, lib, cli).Some? ==> PrimerPrestamo(prestamos, lib, cli).value.libro.cantDisponibles < 255
      ensures ok <==> PrimerPrestamo(prestamos, lib, cli).Some?
    {
      var prestamo := BuscarPrestamo(lib, cli);
      if prestamo.Some? {
        var p := prestamo.value;
        p := p.(estado := B.Devuelto);
        p := p.(libro := IncCantDisponibles(p.libro).0);
        ok := true;
      } else {
        ok := false;
      }
    }
  }
}
