/**
 * The earlier playlist draft, src/tp03/ej08.rs. Songs, genres, lookups and
 * filters are those of module `Playlists`; this draft's `mover_cancion`
 * swaps the first match with the song at the target position instead of
 * removing and reinserting it.
 */
module PlaylistBorrador {
  import opened Wrappers
  import opened Playlists
  import Seqs

  /** `mover_cancion` (swap): unchanged when `pos` is out of range or nothing compares equal. */
  function Intercambiada(s: seq<Cancion>, c: Cancion, pos: nat): (r: seq<Cancion>)
    ensures |r| == |s| && multiset(r) == multiset(s)
    ensures pos < |s| && PosicionCancion(s, c).Some? ==>
      var i := PosicionCancion(s, c).value;
      r[pos] == s[i] && r[i] == s[pos] && forall k :: 0 <= k < |s| && k != i && k != pos ==> r[k] == s[k]
    ensures pos >= |s| || PosicionCancion(s, c).None? ==> r == s
  {
    if pos >= |s| then s
    else
      match PosicionCancion(s, c)
      case None => s
      case Some(i) => Seqs.Swap(s, i, pos)
  }

  /**
   * Moving a song one slot forward or back, and moving it to its own slot,
   * give the same playlist in both drafts; any longer move differs (the
   * swap leaves the songs in between where they were).
   */
  lemma MoverAdyacenteCoincide(s: seq<Cancion>, c: Cancion, pos: nat)
    requires PosicionCancion(s, c).Some?
    requires var i := PosicionCancion(s, c).value; pos == i || pos == i + 1 || pos + 1 == i
    ensures Intercambiada(s, c, pos) == Movida(s, c, pos)
  {
    if pos < |s| {
      var i := PosicionCancion(s, c).value;
      var a := Intercambiada(s, c, pos);
      var b := Movida(s, c, pos);
      forall k | 0 <= k < |s|
        ensures a[k] == b[k]
      {
      }
    }
  }

  /** The two drafts disagree on a move over two slots. */
  lemma MoverLejosDifiere()
    ensures var a := Cancion("Song1", "Artist1", Rock);
      var b := Cancion("Song2", "Artist2", Pop);
      var c := Cancion("Song3", "Artist3", Jazz);
      Intercambiada([a, b, c], a, 2) == [c, b, a] && Movida([a, b, c], a, 2) == [b, c, a]
  {
    var a := Cancion("Song1", "Artist1", Rock);
    var b := Cancion("Song2", "Artist2", Pop);
    var c := Cancion("Song3", "Artist3", Jazz);
    PosicionEn([a, b, c], a, 0);
    assert Seqs.Swap([a, b, c], 0, 2) == [c, b, a];
    EjemploMover();
  }

  /**
   * After a swap towards the front the moved song is the first match; after
   * a swap towards the back the first match lies between the two slots.
   */
  lemma IntercambiarPrimeraCoincidencia(s: seq<Cancion>, c: Cancion, pos: nat)
    requires pos < |s| && PosicionCancion(s, c).Some?
    ensures var i := PosicionCancion(s, c).value;
      var k := PosicionCancion(Intercambiada(s, c, pos), c);
      k.Some? && (pos <= i ==> k.value == pos) && (i < pos ==> i <= k.value <= pos)
  {
    var i := PosicionCancion(s, c).value;
    var t := Intercambiada(s, c, pos);
    assert Comparar(t[pos], c);
    var k := PosicionCancion(t, c);
    if pos <= i {
      assert !(k.value < pos);
    } else {
      assert !(k.value < i);
    }
  }

  class Playlist {
    var canciones: seq<Cancion>
    var nombre: string

    /** `Playlist::new`: no songs. */
    constructor (nombre: string)
      ensures canciones == [] && this.nombre == nombre
    {
      canciones := [];
      this.nombre := nombre;
    }

    /** `agregar_cancion`: append at the end. */
    method AgregarCancion(c: Cancion)
      modifies this
      ensures canciones == old(canciones) + [c]
      ensures nombre == old(nombre)
    {
      canciones := canciones + [c];
    }

    /** `eliminar_cancion`: a loop that removes the first match and returns. */
    method EliminarCancion(c: Cancion)
      modifies this
      ensures canciones == SinCancion(old(canciones), c)
      ensures nombre == old(nombre)
    {
      var i := 0;
      while i < |canciones|
        invariant 0 <= i <= |canciones|
        invariant canciones == old(canciones) && nombre == old(nombre)
        invariant forall j :: 0 <= j < i ==> !Comparar(canciones[j], c)
      {
        if Comparar(canciones[i], c) {
          PosicionEn(canciones, c, i);
          canciones := Seqs.RemoveAt(canciones, i);
          return;
        }
        i := i + 1;
      }
    }

    /** `mover_cancion`: swap the first match with the song at `pos`. */
    method MoverCancion(c: Cancion, pos: nat)
      modifies this
      ensures canciones == Intercambiada(old(canciones), c, pos)
      ensures nombre == old(nombre)
    {
      if pos >= |canciones| {
        return;
      }
      var i := 0;
      while i < |canciones|
        invariant 0 <= i <= |canciones|
        invariant canciones == old(canciones) && nombre == old(nombre)
        invariant forall j :: 0 <= j < i ==> !Comparar(canciones[j], c)
      {
        if Comparar(canciones[i], c) {
          PosicionEn(canciones, c, i);
          canciones := Seqs.Swap(canciones, i, pos);
          return;
        }
        i := i + 1;
      }
    }

    /** `buscar_cancion_por_nombre`: the first song with that title. */
    method BuscarCancionPorNombre(titulo: string) returns (r: Option<Cancion>)
      ensures r == PrimeraConTitulo(canciones, titulo)
    {
      var i := 0;
      while i < |canciones|
        invariant 0 <= i <= |canciones|
        invariant forall j :: 0 <= j < i ==> canciones[j].titulo != titulo
      {
        if canciones[i].titulo == titulo {
          assert Seqs.FindIndex(canciones, (x: Cancion) => x.titulo == titulo) == Some(i) by {
            var k := Seqs.FindIndex(canciones, (x: Cancion) => x.titulo == titulo);
            assert k.Some?;
            assert !(k.value < i) && !(i < k.value);
          }
          return Some(canciones[i]);
        }
        i := i + 1;
      }
      return None;
    }

    /** `get_posicion_cancion`. */
    method GetPosicionCancion(c: Cancion) returns (r: Option<nat>)
      ensures r == PosicionCancion(canciones, c)
    {
      var i := 0;
      while i < |canciones|
        invariant 0 <= i <= |canciones|
        invariant forall j :: 0 <= j < i ==> !Comparar(canciones[j], c)
      {
        if Comparar(canciones[i], c) {
          PosicionEn(canciones, c, i);
          return Some(i);
        }
        i := i + 1;
      }
      return None;
    }

    /** `get_canciones_genero`: a loop pushing every song of the genre. */
    method GetCancionesGenero(g: Genero) returns (cs: seq<Cancion>)
      ensures cs == DeGenero(canciones, g)
    {
      cs := [];
      var i := 0;
      while i < |canciones|
        invariant 0 <= i <= |canciones|
        invariant cs == DeGenero(canciones[..i], g)
      {
        DeGeneroAgrega(canciones[..i], canciones[i], g);
        assert canciones[..i + 1] == canciones[..i] + [canciones[i]];
        if GeneroIgual(canciones[i].genero, g) {
          cs := cs + [canciones[i]];
        }
        i := i + 1;
      }
      assert canciones[..i] == canciones;
    }

    /** `get_canciones_artista`: a loop pushing every song by the artist. */
    method GetCancionesArtista(artista: string) returns (cs: seq<Cancion>)
      ensures cs == DeArtista(canciones, artista)
    {
      cs := [];
      var i := 0;
      while i < |canciones|
        invariant 0 <= i <= |canciones|
        invariant cs == DeArtista(canciones[..i], artista)
      {
        DeArtistaAgrega(canciones[..i], canciones[i], artista);
        assert canciones[..i + 1] == canciones[..i] + [canciones[i]];
        if canciones[i].artista == artista {
          cs := cs + [canciones[i]];
        }
        i := i + 1;
      }
      assert canciones[..i] == canciones;
    }

    /** `cambiar_titulo`: only the playlist's name changes. */
    method CambiarTitulo(titulo: string)
      modifies this
      ensures nombre == titulo && canciones == old(canciones)
    {
      nombre := titulo;
    }

    /** `del_all_canciones`: no songs left; the name is kept. */
    method DelAllCanciones()
      modifies this
      ensures canciones == [] && nombre == old(nombre)
    {
      canciones := [];
    }
  }
}
