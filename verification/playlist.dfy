/**
 * The playlist of src/tp05/ej02.rs: an ordered list of songs with a name.
 * Songs are identified by title and artist (`Cancion::comparar`), genres
 * by their upper-case label (`Genero::igual` compares `a_str`). Moving a
 * song removes its first match and reinserts it at the target position.
 */
module Playlists {
  import opened Wrappers
  import Seqs

  datatype Genero = Rock | Pop | Rap | Jazz | Otros

  datatype Cancion = Cancion(titulo: string, artista: string, genero: Genero)

  /** `Genero::a_str`: the genre's upper-case label. */
  function AStr(g: Genero): string {
    match g
    case Rock => "ROCK"
    case Pop => "POP"
    case Rap => "RAP"
    case Jazz => "JAZZ"
    case Otros => "OTROS"
  }

  /** `Genero::igual`: the labels are equal. */
  predicate GeneroIgual(a: Genero, b: Genero) {
    AStr(a) == AStr(b)
  }

  /** Comparing labels is comparing variants: no two genres share a label. */
  lemma GeneroIgualSiiMismo(a: Genero, b: Genero)
    ensures GeneroIgual(a, b) <==> a == b
  {
    if a != b {
      assert AStr(a)[0] != AStr(b)[0] || AStr(a)[1] != AStr(b)[1];
    }
  }

  /** `Cancion::comparar`: same title and same artist; the genre is ignored. */
  predicate Comparar(a: Cancion, b: Cancion) {
    a.titulo == b.titulo && a.artista == b.artista
  }

  /** `comparar` is an equivalence that does not look at the genre. */
  lemma CompararEquivalencia(a: Cancion, b: Cancion, c: Cancion, g: Genero)
    ensures Comparar(a, a)
    ensures Comparar(a, b) ==> Comparar(b, a)
    ensures Comparar(a, b) && Comparar(b, c) ==> Comparar(a, c)
    ensures Comparar(a, a.(genero := g))
  {
  }

  /** `get_posicion_cancion`: the index of the first song that compares equal to `c`. */
  function PosicionCancion(s: seq<Cancion>, c: Cancion): (r: Option<nat>)
    ensures r.Some? ==> r.value < |s| && Comparar(s[r.value], c)
    ensures r.Some? ==> forall j :: 0 <= j < r.value ==> !Comparar(s[j], c)
    ensures r.None? <==> forall j :: 0 <= j < |s| ==> !Comparar(s[j], c)
  {
    Seqs.FindIndex(s, (x: Cancion) => Comparar(x, c))
  }

  /** The first index whose song compares equal is the position. */
  lemma PosicionEn(s: seq<Cancion>, c: Cancion, i: nat)
    requires i < |s| && Comparar(s[i], c)
    requires forall j :: 0 <= j < i ==> !Comparar(s[j], c)
    ensures PosicionCancion(s, c) == Some(i)
  {
    var k := PosicionCancion(s, c);
    assert k.Some?;
    assert !(k.value < i) && !(i < k.value);
  }

  /** `buscar_cancion_por_nombre`: the first song with that title. */
  function PrimeraConTitulo(s: seq<Cancion>, titulo: string): (r: Option<Cancion>)
    ensures r.Some? ==> r.value.titulo == titulo && r.value in s
    ensures r.Some? ==> exists i :: 0 <= i < |s| && s[i] == r.value && forall j :: 0 <= j < i ==> s[j].titulo != titulo
    ensures r.None? <==> forall j :: 0 <= j < |s| ==> s[j].titulo != titulo
  {
    match Seqs.FindIndex(s, (x: Cancion) => x.titulo == titulo)
    case None => None
    case Some(i) => Some(s[i])
  }

  /** `eliminar_cancion`: the playlist without its first song comparing equal to `c`. */
  function SinCancion(s: seq<Cancion>, c: Cancion): (r: seq<Cancion>)
    ensures PosicionCancion(s, c).None? ==> r == s
    ensures PosicionCancion(s, c).Some? ==>
      var i := PosicionCancion(s, c).value;
      r == s[..i] + s[i + 1..] && multiset(r) == multiset(s) - multiset{s[i]}
  {
    match PosicionCancion(s, c)
    case None => s
    case Some(i) =>
      assert Seqs.RemoveAt(s, i) == s[..i] + s[i + 1..];
      Seqs.RemoveAt(s, i)
  }

  /** Removing a song just appended, when no earlier song compared equal, restores the playlist. */
  lemma EliminarDeshaceAgregar(s: seq<Cancion>, c: Cancion)
    requires PosicionCancion(s, c).None?
    ensures SinCancion(s + [c], c) == s
  {
    var t := s + [c];
    assert Comparar(t[|s|], c);
    var k := PosicionCancion(t, c);
    assert k.Some?;
    assert t[..|s|] == s;
    assert k.value == |s|;
    assert t[..|s|] + t[|s| + 1..] == s;
  }

  /** Removing drops exactly one song that compares equal, and only when there is one. */
  lemma EliminarQuitaUna(s: seq<Cancion>, c: Cancion)
    ensures |SinCancion(s, c)| == if PosicionCancion(s, c).Some? then |s| - 1 else |s|
    ensures forall x :: x in SinCancion(s, c) && !Comparar(x, c) ==> x in s
    ensures forall x :: x in s && !Comparar(x, c) ==> x in SinCancion(s, c)
  {
    if PosicionCancion(s, c).Some? {
      var i := PosicionCancion(s, c).value;
      forall x | x in s && !Comparar(x, c)
        ensures x in SinCancion(s, c)
      {
        assert multiset(SinCancion(s, c))[x] == multiset(s)[x];
      }
    }
  }

  /**
   * `mover_cancion` (remove, then insert): unchanged when `pos` is out of
   * range or no song compares equal; otherwise the first match is taken
   * out and put back at `pos`.
   */
  function Movida(s: seq<Cancion>, c: Cancion, pos: nat): (r: seq<Cancion>)
    ensures |r| == |s| && multiset(r) == multiset(s)
    ensures pos < |s| && PosicionCancion(s, c).Some? ==> r[pos] == s[PosicionCancion(s, c).value]
    ensures pos >= |s| || PosicionCancion(s, c).None? ==> r == s
  {
    if pos >= |s| then s
    else
      match PosicionCancion(s, c)
      case None => s
      case Some(i) => Seqs.InsertAt(Seqs.RemoveAt(s, i), pos, s[i])
  }

  /** Songs before both the match and `pos`, and after both, keep their slots. */
  lemma MoverConservaExtremos(s: seq<Cancion>, c: Cancion, pos: nat, k: nat)
    requires pos < |s| && PosicionCancion(s, c).Some?
    requires var i := PosicionCancion(s, c).value;
      k < |s| && ((k < i && k < pos) || (k > i && k > pos))
    ensures Movida(s, c, pos)[k] == s[k]
  {
  }

  /**
   * The songs between the match and `pos` shift one slot towards the
   * match's old place: back by one when moving forward, on by one when
   * moving backward.
   */
  lemma MoverDesplaza(s: seq<Cancion>, c: Cancion, pos: nat)
    requires pos < |s| && PosicionCancion(s, c).Some?
    ensures var i := PosicionCancion(s, c).value;
      i < pos ==> forall k :: i <= k < pos ==> Movida(s, c, pos)[k] == s[k + 1]
    ensures var i := PosicionCancion(s, c).value;
      pos < i ==> forall k :: pos < k <= i ==> Movida(s, c, pos)[k] == s[k - 1]
  {
    var i := PosicionCancion(s, c).value;
    var t := Seqs.RemoveAt(s, i);
    assert Movida(s, c, pos) == Seqs.InsertAt(t, pos, s[i]);
  }

  /** Moving a song to where it already is changes nothing. */
  lemma MoverAlMismoLugar(s: seq<Cancion>, c: Cancion)
    requires PosicionCancion(s, c).Some?
    ensures Movida(s, c, PosicionCancion(s, c).value) == s
  {
    var i := PosicionCancion(s, c).value;
    var r := Movida(s, c, i);
    forall k | 0 <= k < |s|
      ensures r[k] == s[k]
    {
    }
  }

  /** Three songs with distinct titles: moving the first to slot 2 gives [b, c, a]. */
  lemma EjemploMover()
    ensures var a := Cancion("Song1", "Artist1", Rock);
      var b := Cancion("Song2", "Artist2", Pop);
      var c := Cancion("Song3", "Artist3", Jazz);
      Movida([a, b, c], a, 2) == [b, c, a]
  {
    var a := Cancion("Song1", "Artist1", Rock);
    var b := Cancion("Song2", "Artist2", Pop);
    var c := Cancion("Song3", "Artist3", Jazz);
    PosicionEn([a, b, c], a, 0);
    assert Seqs.RemoveAt([a, b, c], 0) == [b, c];
    assert Seqs.InsertAt([b, c], 2, a) == [b, c, a];
  }

  /** `get_canciones_genero`: the songs whose genre is `igual` to `g`, in playlist order. */
  function DeGenero(s: seq<Cancion>, g: Genero): (r: seq<Cancion>)
    ensures |r| <= |s|
    ensures forall j :: 0 <= j < |r| ==> r[j].genero == g && r[j] in s
    ensures forall j :: 0 <= j < |s| && s[j].genero == g ==> s[j] in r
  {
    forall x: Genero
      ensures GeneroIgual(x, g) <==> x == g
    {
      GeneroIgualSiiMismo(x, g);
    }
    Seqs.Filter(s, (x: Cancion) => GeneroIgual(x.genero, g))
  }

  /** `get_canciones_artista`: the songs by `artista`, in playlist order. */
  function DeArtista(s: seq<Cancion>, artista: string): (r: seq<Cancion>)
    ensures |r| <= |s|
    ensures forall j :: 0 <= j < |r| ==> r[j].artista == artista && r[j] in s
    ensures forall j :: 0 <= j < |s| && s[j].artista == artista ==> s[j] in r
  {
    Seqs.Filter(s, (x: Cancion) => x.artista == artista)
  }

  lemma DeGeneroAgrega(s: seq<Cancion>, x: Cancion, g: Genero)
    ensures DeGenero(s + [x], g) == DeGenero(s, g) + if GeneroIgual(x.genero, g) then [x] else []
  {
    assert (s + [x])[..|s|] == s;
  }

  lemma DeArtistaAgrega(s: seq<Cancion>, x: Cancion, artista: string)
    ensures DeArtista(s + [x], artista) == DeArtista(s, artista) + if x.artista == artista then [x] else []
  {
    assert (s + [x])[..|s|] == s;
  }

  /** Filtering by genre and by artist can be done in either order. */
  lemma FiltrosConmutan(s: seq<Cancion>, g: Genero, artista: string)
    ensures DeGenero(DeArtista(s, artista), g) == DeArtista(DeGenero(s, g), artista)
  {
    Seqs.FilterCommute(s, (x: Cancion) => x.artista == artista, (x: Cancion) => GeneroIgual(x.genero, g));
  }

  /** Appending a song adds it to its genre's list, after the others. */
  lemma AgregarApareceEnSuGenero(s: seq<Cancion>, x: Cancion)
    ensures DeGenero(s + [x], x.genero) == DeGenero(s, x.genero) + [x]
  {
    DeGeneroAgrega(s, x, x.genero);
  }

  class Playlist {
    var canciones: seq<Cancion>
    var nombre: string

    /** `Playlist::new`: no songs. */
    constructor (nombre: string)
      ensures canciones == [] && this.nombre == nombre
    {
      canciones := [];
      this.nombre := nombre;
    }

    /** `agregar_cancion`: append at the end. */
    method AgregarCancion(c: Cancion)
      modifies this
      ensures canciones == old(canciones) + [c]
      ensures nombre == old(nombre)
    {
      canciones := canciones + [c];
    }

    /** `eliminar_cancion`: a loop that removes the first match and returns. */
    method EliminarCancion(c: Cancion)
      modifies this
      ensures canciones == SinCancion(old(canciones), c)
      ensures nombre == old(nombre)
    {
      var i := 0;
      while i < |canciones|
        invariant 0 <= i <= |canciones|
        invariant canciones == old(canciones) && nombre == old(nombre)
        invariant forall j :: 0 <= j < i ==> !Comparar(canciones[j], c)
      {
        if Comparar(canciones[i], c) {
          PosicionEn(canciones, c, i);
          canciones := Seqs.RemoveAt(canciones, i);
          return;
        }
        i := i + 1;
      }
    }

    /** `mover_cancion`: remove the first match and insert it at `pos`. */
    method MoverCancion(c: Cancion, pos: nat)
      modifies this
      ensures canciones == Movida(old(canciones), c, pos)
      ensures nombre == old(nombre)
    {
      if pos >= |canciones| {
        return;
      }
      var i := 0;
      while i < |canciones|
        invariant 0 <= i <= |canciones|
        invariant canciones == old(canciones) && nombre == old(nombre)
        invariant forall j :: 0 <= j < i ==> !Comparar(canciones[j], c)
      {
        if Comparar(canciones[i], c) {
          PosicionEn(canciones, c, i);
          var movida := canciones[i];
          ghost var esperada := Seqs.InsertAt(Seqs.RemoveAt(canciones, i), pos, movida);
          assert Movida(canciones, c, pos) == esperada;
          canciones := Seqs.RemoveAt(canciones, i);
          canciones := Seqs.InsertAt(canciones, pos, movida);
          return;
        }
        i := i + 1;
      }
    }

    /** `buscar_cancion_por_nombre`: the first song with that title. */
    method BuscarCancionPorNombre(titulo: string) returns (r: Option<Cancion>)
      ensures r == PrimeraConTitulo(canciones, titulo)
    {
      var i := 0;
      while i < |canciones|
        invariant 0 <= i <= |canciones|
        invariant forall j :: 0 <= j < i ==> canciones[j].titulo != titulo
      {
        if canciones[i].titulo == titulo {
          assert Seqs.FindIndex(canciones, (x: Cancion) => x.titulo == titulo) == Some(i) by {
            var k := Seqs.FindIndex(canciones, (x: Cancion) => x.titulo == titulo);
            assert k.Some?;
            assert !(k.value < i) && !(i < k.value);
          }
          return Some(canciones[i]);
        }
        i := i + 1;
      }
      return None;
    }

    /** `get_posicion_cancion`. */
    method GetPosicionCancion(c: Cancion) returns (r: Option<nat>)
      ensures r == PosicionCancion(canciones, c)
    {
      var i := 0;
      while i < |canciones|
        invariant 0 <= i <= |canciones|
        invariant forall j :: 0 <= j < i ==> !Comparar(canciones[j], c)
      {
        if Comparar(canciones[i], c) {
          PosicionEn(canciones, c, i);
          return Some(i);
        }
        i := i + 1;
      }
      return None;
    }

    /** `get_canciones_genero`: a loop pushing every song of the genre. */
    method GetCancionesGenero(g: Genero) returns (cs: seq<Cancion>)
      ensures cs == DeGenero(canciones, g)
    {
      cs := [];
      var i := 0;
      while i < |canciones|
        invariant 0 <= i <= |canciones|
        invariant cs == DeGenero(canciones[..i], g)
      {
        DeGeneroAgrega(canciones[..i], canciones[i], g);
        assert canciones[..i + 1] == canciones[..i] + [canciones[i]];
        if GeneroIgual(canciones[i].genero, g) {
          cs := cs + [canciones[i]];
        }
        i := i + 1;
      }
      assert canciones[..i] == canciones;
    }

    /** `get_canciones_artista`: a loop pushing every song by the artist. */
    method GetCancionesArtista(artista: string) returns (cs: seq<Cancion>)
      ensures cs == DeArtista(canciones, artista)
    {
      cs := [];
      var i := 0;
      while i < |canciones|
        invariant 0 <= i <= |canciones|
        invariant cs == DeArtista(canciones[..i], artista)
      {
        DeArtistaAgrega(canciones[..i], canciones[i], artista);
        assert canciones[..i + 1] == canciones[..i] + [canciones[i]];
        if canciones[i].artista == artista {
          cs := cs + [canciones[i]];
        }
        i := i + 1;
      }
      assert canciones[..i] == canciones;
    }

    /** `cambiar_titulo`: only the playlist's name changes. */
    method CambiarTitulo(titulo: string)
      modifies this
      ensures nombre == titulo && canciones == old(canciones)
    {
      nombre := titulo;
    }

    /** `del_all_canciones`: no songs left; the name is kept. */
    method DelAllCanciones()
      modifies this
      ensures canciones == [] && nombre == old(nombre)
    {
      canciones := [];
    }
  }
}
