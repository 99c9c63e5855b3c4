/**
 * The library of src/tp05/ej04.rs: a list of loans and a list of
 * per-book availability counters. A client may hold at most five active
 * loans, a book is lent only while a copy is available, and returning a
 * book marks every matching loan returned and gives one copy back.
 *
 * Books are identified by ISBN and clients by email only. "Today" is a
 * parameter where the source reads the system clock, and the JSON files the
 * source rewrites are not modelled. Counters are `u8`: an increment past
 * 255 panics in the source and is excluded here by a precondition.
 */
module Bibliotecas {
  import opened Wrappers
  import opened Fechas
  import opened Enteros
  import Seqs

  datatype Genero = Novela | Infantil | Tecnico | Otros

  datatype Estado = Devuelto | EnPrestamo

  datatype Libro = Libro(isbn: string, titulo: string, autor: string, cantPaginas: nat, genero: Genero)

  datatype Cliente = Cliente(nombre: string, telefono: string, email: string)

  datatype RegistroDisponible = RegistroDisponible(libro: Libro, cantDisponibles: u8)

  datatype Prestamo = Prestamo(
    libro: Libro,
    cliente: Cliente,
    fechaVencimiento: Fecha,
    fechaDevolucion: Option<Fecha>,
    estado: Estado)

  /** `Estado::a_str`. */
  function AStr(e: Estado): (s: string)
    ensures e == Devuelto ==> s == "Devuelto"
    ensures e == EnPrestamo ==> s == "EnPrestamo"
  {
    match e
    case Devuelto => "Devuelto"
    case EnPrestamo => "EnPrestamo"
  }

  /** `Estado::igual` compares the names, which tells the two states apart. */
  lemma EstadoIgualSiiMismo(a: Estado, b: Estado)
    ensures AStr(a) == AStr(b) <==> a == b
  {
    assert |AStr(Devuelto)| != |AStr(EnPrestamo)|;
  }

  /** `Libro::igual`: the same ISBN. */
  predicate MismoLibro(a: Libro, b: Libro) {
    a.isbn == b.isbn
  }

  /** `Cliente::igual`: the same email. */
  predicate MismoCliente(a: Cliente, b: Cliente) {
    a.email == b.email
  }

  /** The loan is of that book (by ISBN) to that client (by email). */
  predicate Corresponde(p: Prestamo, lib: Libro, cli: Cliente) {
    MismoLibro(p.libro, lib) && MismoCliente(p.cliente, cli)
  }

  /** The loan is an active one of that client. */
  predicate Activo(p: Prestamo, cli: Cliente) {
    MismoCliente(p.cliente, cli) && AStr(p.estado) == AStr(EnPrestamo)
  }

  /** `Prestamo::new`: active, with no return date. */
  function NuevoPrestamo(lib: Libro, cli: Cliente, vencimiento: Fecha): (p: Prestamo)
    ensures p.estado == EnPrestamo && p.fechaDevolucion.None?
    ensures p.libro == lib && p.cliente == cli && p.fechaVencimiento == vencimiento
  {
    Prestamo(lib, cli, vencimiento, None, EnPrestamo)
  }

  // ---------------------------------------------------------------------------
  // Active loans per client and the five-loan limit

  /** How many of the loans are active loans of `cli`. */
  function PrestamosActivos(ps: seq<Prestamo>, cli: Cliente): (n: nat)
    ensures n <= |ps|
    ensures n == 0 <==> forall j :: 0 <= j < |ps| ==> !Activo(ps[j], cli)
    decreases |ps|
  {
    if |ps| == 0 then 0
    else PrestamosActivos(ps[..|ps| - 1], cli) + if Activo(ps[|ps| - 1], cli) then 1 else 0
  }

  lemma ActivosAgrega(ps: seq<Prestamo>, x: Prestamo, cli: Cliente)
    ensures PrestamosActivos(ps + [x], cli) == PrestamosActivos(ps, cli) + if Activo(x, cli) then 1 else 0
  {
    assert (ps + [x])[..|ps|] == ps;
  }

  /** Counting a prefix never gives more. */
  lemma {:induction false} ActivosPrefijo(ps: seq<Prestamo>, i: nat, cli: Cliente)
    requires i <= |ps|
    ensures PrestamosActivos(ps[..i], cli) <= PrestamosActivos(ps, cli)
    decreases |ps| - i
  {
    if i < |ps| {
      ActivosPrefijo(ps[..|ps| - 1], i, cli);
      assert ps[..|ps| - 1][..i] == ps[..i];
    } else {
      assert ps[..i] == ps;
    }
  }

  /** Clients with the same email have the same active loans. */
  lemma {:induction false} ActivosMismoEmail(ps: seq<Prestamo>, a: Cliente, b: Cliente)
    requires MismoCliente(a, b)
    ensures PrestamosActivos(ps, a) == PrestamosActivos(ps, b)
    decreases |ps|
  {
    if |ps| > 0 {
      ActivosMismoEmail(ps[..|ps| - 1], a, b);
    }
  }

  /** Every client holding a loan has at most five active ones. */
  predicate LimiteRespetado(ps: seq<Prestamo>) {
    forall j :: 0 <= j < |ps| ==> PrestamosActivos(ps, ps[j].cliente) <= 5
  }

  /** Under the limit, no client at all has more than five active loans (so the `u8` counter cannot overflow). */
  lemma LimiteAcota(ps: seq<Prestamo>, cli: Cliente)
    requires LimiteRespetado(ps)
    ensures PrestamosActivos(ps, cli) <= 5
  {
    if PrestamosActivos(ps, cli) > 0 {
      var j :| 0 <= j < |ps| && Activo(ps[j], cli);
      ActivosMismoEmail(ps, ps[j].cliente, cli);
    }
  }

  /** A loan granted under the rule of `prestar` keeps every client within the limit. */
  lemma PrestarRespetaLimite(ps: seq<Prestamo>, lib: Libro, cli: Cliente, vencimiento: Fecha)
    requires LimiteRespetado(ps) && PrestamosActivos(ps, cli) < 5
    ensures LimiteRespetado(ps + [NuevoPrestamo(lib, cli, vencimiento)])
  {
    var x := NuevoPrestamo(lib, cli, vencimiento);
    var r := ps + [x];
    forall j | 0 <= j < |r|
      ensures PrestamosActivos(r, r[j].cliente) <= 5
    {
      var c := r[j].cliente;
      ActivosAgrega(ps, x, c);
      if MismoCliente(x.cliente, c) {
        ActivosMismoEmail(ps, c, cli);
      } else {
        LimiteAcota(ps, c);
      }
    }
  }

  // ---------------------------------------------------------------------------
  // Returning and removing loans

  /** A matching loan marked returned on `hoy`; any other loan as it was. */
  function Marcar(p: Prestamo, lib: Libro, cli: Cliente, hoy: Fecha): (r: Prestamo)
    ensures r.libro == p.libro && r.cliente == p.cliente && r.fechaVencimiento == p.fechaVencimiento
    ensures Corresponde(p, lib, cli) ==> r.estado == Devuelto && r.fechaDevolucion == Some(hoy)
    ensures !Corresponde(p, lib, cli) ==> r == p
  {
    if Corresponde(p, lib, cli) then p.(estado := Devuelto, fechaDevolucion := Some(hoy)) else p
  }

  /** The loans after `devolver_libro`: every match returned, in place. */
  function Devueltos(ps: seq<Prestamo>, lib: Libro, cli: Cliente, hoy: Fecha): (r: seq<Prestamo>)
    ensures |r| == |ps|
    ensures forall j :: 0 <= j < |ps| ==> r[j] == Marcar(ps[j], lib, cli, hoy)
  {
    seq(|ps|, j requires 0 <= j < |ps| => Marcar(ps[j], lib, cli, hoy))
  }

  /** Returning never adds an active loan to anyone. */
  lemma {:induction false} DevolverReduceActivos(ps: seq<Prestamo>, lib: Libro, cli: Cliente, hoy: Fecha, c: Cliente)
    ensures PrestamosActivos(Devueltos(ps, lib, cli, hoy), c) <= PrestamosActivos(ps, c)
    decreases |ps|
  {
    if |ps| > 0 {
      var r := Devueltos(ps, lib, cli, hoy);
      var init := ps[..|ps| - 1];
      DevolverReduceActivos(init, lib, cli, hoy, c);
      assert r[..|r| - 1] == Devueltos(init, lib, cli, hoy);
    }
  }

  /** Returning keeps every client within the limit. */
  lemma DevolverRespetaLimite(ps: seq<Prestamo>, lib: Libro, cli: Cliente, hoy: Fecha)
    requires LimiteRespetado(ps)
    ensures LimiteRespetado(Devueltos(ps, lib, cli, hoy))
  {
    var r := Devueltos(ps, lib, cli, hoy);
    forall j | 0 <= j < |r|
      ensures PrestamosActivos(r, r[j].cliente) <= 5
    {
      DevolverReduceActivos(ps, lib, cli, hoy, r[j].cliente);
      LimiteAcota(ps, r[j].cliente);
    }
  }

  /** After a return, the client holds no active loan of that book. */
  lemma DevolverCierraTodos(ps: seq<Prestamo>, lib: Libro, cli: Cliente, hoy: Fecha)
    ensures forall j :: 0 <= j < |ps| && Corresponde(ps[j], lib, cli) ==>
      Devueltos(ps, lib, cli, hoy)[j].estado == Devuelto
  {
  }

  /** `quitar_prestamo` (`retain`): the loans that do not match, in their order. */
  function Restantes(ps: seq<Prestamo>, lib: Libro, cli: Cliente): (r: seq<Prestamo>)
    ensures |r| <= |ps|
    decreases |ps|
  {
    if |ps| == 0 then []
    else Restantes(ps[..|ps| - 1], lib, cli) + if Corresponde(ps[|ps| - 1], lib, cli) then [] else [ps[|ps| - 1]]
  }

  /** What `retain` keeps: no matching loan, every other loan, nothing new. */
  lemma {:induction false} RestantesContenido(ps: seq<Prestamo>, lib: Libro, cli: Cliente)
    ensures forall j :: 0 <= j < |Restantes(ps, lib, cli)| ==> !Corresponde(Restantes(ps, lib, cli)[j], lib, cli)
    ensures forall j :: 0 <= j < |ps| && !Corresponde(ps[j], lib, cli) ==> ps[j] in Restantes(ps, lib, cli)
    ensures multiset(Restantes(ps, lib, cli)) <= multiset(ps)
    decreases |ps|
  {
    if |ps| > 0 {
      var init := ps[..|ps| - 1];
      var x := ps[|ps| - 1];
      assert ps == init + [x];
      RestantesContenido(init, lib, cli);
      var ri := Restantes(init, lib, cli);
      forall j | 0 <= j < |ps| && !Corresponde(ps[j], lib, cli)
        ensures ps[j] in Restantes(ps, lib, cli)
      {
        if j < |init| {
          assert ps[j] == init[j];
        }
      }
    }
  }

  /** Removing never adds an active loan to anyone. */
  lemma {:induction false} QuitarReduceActivos(ps: seq<Prestamo>, lib: Libro, cli: Cliente, c: Cliente)
    ensures PrestamosActivos(Restantes(ps, lib, cli), c) <= PrestamosActivos(ps, c)
    decreases |ps|
  {
    if |ps| > 0 {
      var init := ps[..|ps| - 1];
      var x := ps[|ps| - 1];
      var ri := Restantes(init, lib, cli);
      assert ps == init + [x] && ri + [] == ri;
      assert Restantes(ps, lib, cli) == ri + if Corresponde(x, lib, cli) then [] else [x];
      QuitarReduceActivos(init, lib, cli, c);
      ActivosAgrega(init, x, c);
      if !Corresponde(x, lib, cli) {
        ActivosAgrega(ri, x, c);
      }
    }
  }

  /** Removing keeps every client within the limit. */
  lemma QuitarRespetaLimite(ps: seq<Prestamo>, lib: Libro, cli: Cliente)
    requires LimiteRespetado(ps)
    ensures LimiteRespetado(Restantes(ps, lib, cli))
  {
    var r := Restantes(ps, lib, cli);
    forall j | 0 <= j < |r|
      ensures PrestamosActivos(r, r[j].cliente) <= 5
    {
      QuitarReduceActivos(ps, lib, cli, r[j].cliente);
      LimiteAcota(ps, r[j].cliente);
    }
  }

  /** Removing twice removes nothing more. */
  lemma {:induction false} QuitarIdempotente(ps: seq<Prestamo>, lib: Libro, cli: Cliente)
    ensures Restantes(Restantes(ps, lib, cli), lib, cli) == Restantes(ps, lib, cli)
    decreases |ps|
  {
    if |ps| > 0 {
      var init := ps[..|ps| - 1];
      var x := ps[|ps| - 1];
      var ri := Restantes(init, lib, cli);
      assert ri + [] == ri;
      assert Restantes(ps, lib, cli) == ri + if Corresponde(x, lib, cli) then [] else [x];
      QuitarIdempotente(init, lib, cli);
      if !Corresponde(x, lib, cli) {
        var r := ri + [x];
        assert r[..|r| - 1] == ri;
        assert Restantes(r, lib, cli) == Restantes(ri, lib, cli) + [x];
      }
    }
  }

  /** `buscar_prestamo`: the first loan of that book to that client. */
  function PrimerPrestamo(ps: seq<Prestamo>, lib: Libro, cli: Cliente): (r: Option<Prestamo>)
    ensures r.Some? ==> Corresponde(r.value, lib, cli)
    ensures r.Some? ==>
      exists i :: 0 <= i < |ps| && ps[i] == r.value &&
        forall j :: 0 <= j < i ==> !Corresponde(ps[j], lib, cli)
    ensures r.None? <==> forall j :: 0 <= j < |ps| ==> !Corresponde(ps[j], lib, cli)
  {
    match Seqs.FindIndex(ps, p => Corresponde(p, lib, cli))
    case None => None
    case Some(i) => Some(ps[i])
  }

  /** After a removal nothing matching is found, and a return without a match changes nothing. */
  lemma QuitarLuegoBuscar(ps: seq<Prestamo>, lib: Libro, cli: Cliente, hoy: Fecha)
    ensures PrimerPrestamo(Restantes(ps, lib, cli), lib, cli).None?
    ensures PrimerPrestamo(ps, lib, cli).None? ==> Devueltos(ps, lib, cli, hoy) == ps
  {
    RestantesContenido(ps, lib, cli);
  }

  // ---------------------------------------------------------------------------
  // Due dates

  /** The loans due no later than `f`, in order (`!vencimiento.es_mayor(f)`). */
  function VencenHasta(ps: seq<Prestamo>, f: Fecha): (r: seq<Prestamo>)
    ensures |r| <= |ps|
    ensures forall j :: 0 <= j < |r| ==> !EsMayor(r[j].fechaVencimiento, f) && r[j] in ps
    ensures forall j :: 0 <= j < |ps| && !EsMayor(ps[j].fechaVencimiento, f) ==> ps[j] in r
  {
    Seqs.Filter(ps, (p: Prestamo) => !EsMayor(p.fechaVencimiento, f))
  }

  lemma VencenHastaAgrega(ps: seq<Prestamo>, x: Prestamo, f: Fecha)
    ensures VencenHasta(ps + [x], f) == VencenHasta(ps, f) + if EsMayor(x.fechaVencimiento, f) then [] else [x]
  {
    assert (ps + [x])[..|ps|] == ps;
  }

  /** The overdue loans are those due within zero days. */
  lemma VencidosSonAVencerCero(ps: seq<Prestamo>, hoy: Fecha)
    requires EsFechaValida(hoy)
    ensures VencenHasta(ps, SumarDias(hoy, 0)) == VencenHasta(ps, hoy)
  {
    SumarCero(hoy);
  }

  /** A longer horizon keeps every loan a shorter one lists. */
  lemma AVencerMonotono(ps: seq<Prestamo>, hoy: Fecha, a: int, b: int)
    requires EsFechaValida(hoy) && a <= b
    ensures forall p :: p in VencenHasta(ps, SumarDias(hoy, a)) ==> p in VencenHasta(ps, SumarDias(hoy, b))
  {
    var fa := SumarDias(hoy, a);
    var fb := SumarDias(hoy, b);
    forall p | p in VencenHasta(ps, fa)
      ensures p in VencenHasta(ps, fb)
    {
      var v := p.fechaVencimiento;
      if EsFechaValida(v) {
        EsMayorCronologico(v, fa);
        EsMayorCronologico(v, fb);
      }
      var j :| 0 <= j < |ps| && ps[j] == p;
    }
  }

  // ---------------------------------------------------------------------------
  // Availability counters

  /** Index of the first counter for that ISBN. */
  function PosicionLibro(ds: seq<RegistroDisponible>, lib: Libro): (r: Option<nat>)
    ensures r.Some? ==> r.value < |ds| && MismoLibro(ds[r.value].libro, lib)
    ensures r.Some? ==> forall j :: 0 <= j < r.value ==> !MismoLibro(ds[j].libro, lib)
    ensures r.None? <==> forall j :: 0 <= j < |ds| ==> !MismoLibro(ds[j].libro, lib)
  {
    Seqs.FindIndex(ds, (d: RegistroDisponible) => MismoLibro(d.libro, lib))
  }

  /** Counters over the same books, in the same order, are found at the same place. */
  lemma PosicionMismosLibros(ds: seq<RegistroDisponible>, es: seq<RegistroDisponible>, lib: Libro)
    requires |ds| == |es| && forall j :: 0 <= j < |ds| ==> ds[j].libro == es[j].libro
    ensures PosicionLibro(ds, lib) == PosicionLibro(es, lib)
  {
    var p := PosicionLibro(ds, lib);
    var q := PosicionLibro(es, lib);
    if p.Some? {
      assert q.Some?;
      assert !(p.value < q.value) && !(q.value < p.value);
    } else {
      assert q.None?;
    }
  }

  /** `cant_disponibles`: the first counter for the ISBN, 0 for an unknown book. */
  function Disponibles(ds: seq<RegistroDisponible>, lib: Libro): (n: u8)
    ensures PosicionLibro(ds, lib).None? ==> n == 0
    ensures PosicionLibro(ds, lib).Some? ==> n == ds[PosicionLibro(ds, lib).value].cantDisponibles
  {
    match PosicionLibro(ds, lib)
    case None => 0
    case Some(i) => ds[i].cantDisponibles
  }

  /** `incrementar_disponibilidad`: one more copy on the first counter for the ISBN. */
  function ConIncremento(ds: seq<RegistroDisponible>, lib: Libro): (r: seq<RegistroDisponible>)
    requires Disponibles(ds, lib) < 255
    ensures |r| == |ds| && forall j :: 0 <= j < |ds| ==> r[j].libro == ds[j].libro
    ensures PosicionLibro(ds, lib).None? ==> r == ds
    ensures PosicionLibro(ds, lib).Some? ==>
      var i := PosicionLibro(ds, lib).value;
      r[i].cantDisponibles == ds[i].cantDisponibles + 1
      && forall j :: 0 <= j < |ds| && j != i ==> r[j] == ds[j]
  {
    match PosicionLibro(ds, lib)
    case None => ds
    case Some(i) => ds[i := ds[i].(cantDisponibles := ds[i].cantDisponibles + 1)]
  }

  /** `decrementar_disponibilidad`: one copy less on the first counter, never below 0. */
  function ConDecremento(ds: seq<RegistroDisponible>, lib: Libro): (r: seq<RegistroDisponible>)
    ensures |r| == |ds| && forall j :: 0 <= j < |ds| ==> r[j].libro == ds[j].libro
    ensures PosicionLibro(ds, lib).None? ==> r == ds
    ensures PosicionLibro(ds, lib).Some? ==>
      var i := PosicionLibro(ds, lib).value;
      r[i].cantDisponibles == (if ds[i].cantDisponibles == 0 then 0 else ds[i].cantDisponibles - 1)
      && forall j :: 0 <= j < |ds| && j != i ==> r[j] == ds[j]
  {
    match PosicionLibro(ds, lib)
    case None => ds
    case Some(i) =>
      if ds[i].cantDisponibles > 0 then ds[i := ds[i].(cantDisponibles := ds[i].cantDisponibles - 1)]
      else ds
  }

  /** What `cant_disponibles` reports after each update, for the book updated and for any other. */
  lemma DisponiblesTrasCambios(ds: seq<RegistroDisponible>, lib: Libro, otro: Libro)
    ensures Disponibles(ConDecremento(ds, lib), lib) == if Disponibles(ds, lib) == 0 then 0 else Disponibles(ds, lib) - 1
    ensures !MismoLibro(otro, lib) ==> Disponibles(ConDecremento(ds, lib), otro) == Disponibles(ds, otro)
    ensures Disponibles(ds, lib) < 255 ==>
      Disponibles(ConIncremento(ds, lib), lib) == Disponibles(ds, lib) + if PosicionLibro(ds, lib).Some? then 1 else 0
    ensures Disponibles(ds, lib) < 255 && !MismoLibro(otro, lib) ==>
      Disponibles(ConIncremento(ds, lib), otro) == Disponibles(ds, otro)
  {
    PosicionMismosLibros(ds, ConDecremento(ds, lib), lib);
    PosicionMismosLibros(ds, ConDecremento(ds, lib), otro);
    if Disponibles(ds, lib) < 255 {
      PosicionMismosLibros(ds, ConIncremento(ds, lib), lib);
      PosicionMismosLibros(ds, ConIncremento(ds, lib), otro);
    }
  }

  /** Giving a copy back undoes lending it, while a copy was available. */
  lemma IncrementoDeshaceDecremento(ds: seq<RegistroDisponible>, lib: Libro)
    requires Disponibles(ds, lib) > 0
    ensures Disponibles(ConDecremento(ds, lib), lib) < 255
    ensures ConIncremento(ConDecremento(ds, lib), lib) == ds
  {
    var d := ConDecremento(ds, lib);
    PosicionMismosLibros(ds, d, lib);
  }

  class Biblioteca {
    var nombre: string
    var direccion: string
    var prestamos: seq<Prestamo>
    var disponibles: seq<RegistroDisponible>

    /** `Biblioteca::new`: no loans and no books. */
    constructor (nombre: string, direccion: string)
      ensures this.nombre == nombre && this.direccion == direccion
      ensures prestamos == [] && disponibles == []
    {
      this.nombre := nombre;
      this.direccion := direccion;
      prestamos := [];
      disponibles := [];
    }

    /** `cant_prestamos_cli`: a `u8` counter over the loans (it would panic past 255). */
    method CantPrestamosCli(cli: Cliente) returns (n: u8)
      requires PrestamosActivos(prestamos, cli) <= 255
      ensures n as int == PrestamosActivos(prestamos, cli)
    {
      n := 0;
      var i := 0;
      while i < |prestamos|
        invariant 0 <= i <= |prestamos|
        invariant n as int == PrestamosActivos(prestamos[..i], cli)
      {
        assert prestamos[..i + 1][..i] == prestamos[..i];
        if Activo(prestamos[i], cli) {
          ActivosPrefijo(prestamos, i + 1, cli);
          n := n + 1;
        }
        i := i + 1;
      }
      assert prestamos[..i] == prestamos;
    }

    /** `cant_disponibles`: the first counter for the ISBN, found by a loop that breaks. */
    method CantDisponibles(lib: Libro) returns (n: u8)
      ensures n == Disponibles(disponibles, lib)
    {
      n := 0;
      var i := 0;
      while i < |disponibles|
        invariant 0 <= i <= |disponibles|
        invariant forall j :: 0 <= j < i ==> !MismoLibro(disponibles[j].libro, lib)
      {
        if MismoLibro(disponibles[i].libro, lib) {
          assert PosicionLibro(disponibles, lib) == Some(i);
          n := disponibles[i].cantDisponibles;
          break;
        }
        i := i + 1;
      }
    }

    method IncrementarDisponibilidad(lib: Libro)
      requires Disponibles(disponibles, lib) < 255
      modifies this
      ensures nombre == old(nombre) && direccion == old(direccion)
      ensures disponibles == ConIncremento(old(disponibles), lib)
      ensures prestamos == old(prestamos)
    {
      var i := 0;
      while i < |disponibles|
        invariant 0 <= i <= |disponibles|
        invariant disponibles == old(disponibles)
        invariant forall j :: 0 <= j < i ==> !MismoLibro(disponibles[j].libro, lib)
      {
        if MismoLibro(disponibles[i].libro, lib) {
          assert PosicionLibro(disponibles, lib) == Some(i);
          disponibles := disponibles[i := disponibles[i].(cantDisponibles := disponibles[i].cantDisponibles + 1)];
          return;
        }
        i := i + 1;
      }
    }

    method DecrementarDisponibilidad(lib: Libro)
      modifies this
      ensures nombre == old(nombre) && direccion == old(direccion)
      ensures disponibles == ConDecremento(old(disponibles), lib)
      ensures prestamos == old(prestamos)
    {
      var i := 0;
      while i < |disponibles|
        invariant 0 <= i <= |disponibles|
        invariant disponibles == old(disponibles)
        invariant forall j :: 0 <= j < i ==> !MismoLibro(disponibles[j].libro, lib)
      {
        if MismoLibro(disponibles[i].libro, lib) {
          assert PosicionLibro(disponibles, lib) == Some(i);
          if disponibles[i].cantDisponibles > 0 {
            disponibles := disponibles[i := disponibles[i].(cantDisponibles := disponibles[i].cantDisponibles - 1)];
          }
          return;
        }
        i := i + 1;
      }
    }

    /** `prestar`: refused at five active loans or with no copy available; otherwise a new loan and one copy less. */
    method Prestar(cli: Cliente, lib: Libro, vencimiento: Fecha) returns (ok: bool)
      requires PrestamosActivos(prestamos, cli) <= 255
      modifies this
      ensures nombre == old(nombre) && direccion == old(direccion)
      ensures ok <==> PrestamosActivos(old(prestamos), cli) < 5 && Disponibles(old(disponibles), lib) > 0
      ensures ok ==> prestamos == old(prestamos) + [NuevoPrestamo(lib, cli, vencimiento)]
      ensures ok ==> disponibles == ConDecremento(old(disponibles), lib)
      ensures !ok ==> prestamos == old(prestamos) && disponibles == old(disponibles)
    {
      var n := CantPrestamosCli(cli);
      if n >= 5 {
        return false;
      }
      var d := CantDisponibles(lib);
      if d == 0 {
        return false;
      }
      prestamos := prestamos + [NuevoPrestamo(lib, cli, vencimiento)];
      DecrementarDisponibilidad(lib);
      return true;
    }

    /** `prestamos_a_vencer`: the loans due no later than `dias` days after `hoy`, in order. */
    method PrestamosAVencer(dias: int, hoy: Fecha) returns (pres: seq<Prestamo>)
      requires EsFechaValida(hoy)
      ensures pres == VencenHasta(prestamos, SumarDias(hoy, dias))
    {
      var f := SumarDias(hoy, dias);
      pres := [];
      var i := 0;
      var ps := prestamos;
      while i < |ps|
        invariant 0 <= i <= |ps|
        invariant pres == VencenHasta(ps[..i], f)
      {
        VencenHastaAgrega(ps[..i], ps[i], f);
        assert ps[..i + 1] == ps[..i] + [ps[i]];
        if !EsMayor(ps[i].fechaVencimiento, f) {
          pres := pres + [ps[i]];
        }
        i := i + 1;
      }
      assert ps[..i] == ps;
    }

    /** `prestamos_vencidos`: the loans due no later than `hoy`, in order. */
    method PrestamosVencidos(hoy: Fecha) returns (pres: seq<Prestamo>)
      ensures pres == VencenHasta(prestamos, hoy)
    {
      pres := [];
      var i := 0;
      var ps := prestamos;
      while i < |ps|
        invariant 0 <= i <= |ps|
        invariant pres == VencenHasta(ps[..i], hoy)
      {
        VencenHastaAgrega(ps[..i], ps[i], hoy);
        assert ps[..i + 1] == ps[..i] + [ps[i]];
        if !EsMayor(ps[i].fechaVencimiento, hoy) {
          pres := pres + [ps[i]];
        }
        i := i + 1;
      }
      assert ps[..i] == ps;
    }

    /** `buscar_prestamo`: the first loan of that book to that client. */
    method BuscarPrestamo(lib: Libro, cli: Cliente) returns (r: Option<Prestamo>)
      ensures r == PrimerPrestamo(prestamos, lib, cli)
    {
      var i := 0;
      while i < |prestamos|
        invariant 0 <= i <= |prestamos|
        invariant forall j :: 0 <= j < i ==> !Corresponde(prestamos[j], lib, cli)
      {
        if Corresponde(prestamos[i], lib, cli) {
          assert Seqs.FindIndex(prestamos, p => Corresponde(p, lib, cli)) == Some(i) by {
            var k := Seqs.FindIndex(prestamos, p => Corresponde(p, lib, cli));
            assert k.Some?;
            assert !(k.value < i) && !(i < k.value);
          }
          return Some(prestamos[i]);
        }
        i := i + 1;
      }
      return None;
    }

    /** `devolver_libro`: every matching loan returned on `hoy`, then one copy back; false with no match. */
    method DevolverLibro(lib: Libro, cli: Cliente, hoy: Fecha) returns (ok: bool)
      requires PrimerPrestamo(prestamos, lib, cli).Some? ==> Disponibles(disponibles, lib) < 255
      modifies this
      ensures nombre == old(nombre) && direccion == old(direccion)
      ensures ok <==> PrimerPrestamo(old(prestamos), lib, cli).Some?
      ensures prestamos == Devueltos(old(prestamos), lib, cli, hoy)
      ensures ok ==> disponibles == ConIncremento(old(disponibles), lib)
      ensures !ok ==> disponibles == old(disponibles)
    {
      var encontrado := false;
      var i := 0;
      while i < |prestamos|
        invariant 0 <= i <= |prestamos| == |old(prestamos)|
        invariant disponibles == old(disponibles)
        invariant nombre == old(nombre) && direccion == old(direccion)
        invariant forall j :: 0 <= j < i ==> prestamos[j] == Marcar(old(prestamos)[j], lib, cli, hoy)
        invariant forall j :: i <= j < |prestamos| ==> prestamos[j] == old(prestamos)[j]
        invariant encontrado <==> exists j :: 0 <= j < i && Corresponde(old(prestamos)[j], lib, cli)
      {
        if Corresponde(prestamos[i], lib, cli) {
          prestamos := prestamos[i := prestamos[i].(estado := Devuelto, fechaDevolucion := Some(hoy))];
          encontrado := true;
        }
        i := i + 1;
      }
      assert prestamos == Devueltos(old(prestamos), lib, cli, hoy);
      if encontrado {
        IncrementarDisponibilidad(lib);
        return true;
      }
      return false;
    }

    /** `agregar_libro`: a new counter at the end. */
    method AgregarLibro(libro: Libro, cant: u8)
      modifies this
      ensures nombre == old(nombre) && direccion == old(direccion)
      ensures disponibles == old(disponibles) + [RegistroDisponible(libro, cant)]
      ensures prestamos == old(prestamos)
    {
      disponibles := disponibles + [RegistroDisponible(libro, cant)];
    }

    /** `quitar_prestamo`: drops every loan of that book to that client. */
    method QuitarPrestamo(cli: Cliente, lib: Libro)
      modifies this
      ensures nombre == old(nombre) && direccion == old(direccion)
      ensures prestamos == Restantes(old(prestamos), lib, cli)
      ensures disponibles == old(disponibles)
    {
      prestamos := Restantes(prestamos, lib, cli);
    }
  }
}
