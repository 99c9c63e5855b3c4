/**
 * The earlier dealership draft, src/tp03/ej07.rs. Cars, comparison,
 * lookup and price are those of module `Concesionarios`; here adding at
 * capacity returns false, and removing `swap_remove`s only the first car
 * of the model, so the last car takes its slot.
 */
module ConcesionarioBorrador {
  import opened Wrappers
  import opened Enteros
  import opened Concesionarios
  import Seqs

  /** Index of the first car that compares equal to `auto`. */
  function PosicionAuto(autos: seq<Auto>, auto: Auto): (r: Option<nat>)
    ensures r.Some? ==> r.value < |autos| && Comparar(autos[r.value], auto)
    ensures r.Some? ==> forall j :: 0 <= j < r.value ==> !Comparar(autos[j], auto)
    ensures r.None? <==> forall j :: 0 <= j < |autos| ==> !Comparar(autos[j], auto)
  {
    Seqs.FindIndex(autos, (a: Auto) => Comparar(a, auto))
  }

  /** `eliminar_auto` (`swap_remove` of the first match); unchanged when nothing matches. */
  function SinPrimerAuto(autos: seq<Auto>, auto: Auto): (r: seq<Auto>)
    ensures PosicionAuto(autos, auto).None? ==> r == autos
    ensures PosicionAuto(autos, auto).Some? ==>
      var i := PosicionAuto(autos, auto).value;
      |r| == |autos| - 1 && multiset(r) == multiset(autos) - multiset{autos[i]}
      && (i < |r| ==> r[i] == autos[|autos| - 1])
      && forall j :: 0 <= j < |r| && j != i ==> r[j] == autos[j]
  {
    match PosicionAuto(autos, auto)
    case None => autos
    case Some(i) => Seqs.SwapRemove(autos, i)
  }

  /**
   * With a single car of the model, both drafts remove the same car: the
   * later one keeps the order, this one moves the last car into the gap.
   */
  lemma EliminarUnicoMismosAutos(autos: seq<Auto>, auto: Auto, i: nat)
    requires i < |autos| && Comparar(autos[i], auto)
    requires forall j :: 0 <= j < |autos| && j != i ==> !Comparar(autos[j], auto)
    ensures SinModelo(autos, auto) == autos[..i] + autos[i + 1..]
    ensures multiset(SinPrimerAuto(autos, auto)) == multiset(SinModelo(autos, auto))
  {
    Seqs.FilterDropsOne(autos, (a: Auto) => !Comparar(a, auto), i);
    assert PosicionAuto(autos, auto) == Some(i);
    assert SinModelo(autos, auto) == Seqs.RemoveAt(autos, i);
  }

  /** Two cars of the same model: this draft keeps one, the later draft none. */
  lemma EliminarDuplicadoDifiere()
    ensures var a := Auto("Toyota", "Corolla", 2020, 20000.0, Azul);
      var b := Auto("Toyota", "Corolla", 2019, 18000.0, Rojo);
      SinPrimerAuto([a, b], a) == [b] && SinModelo([a, b], a) == []
  {
    var a := Auto("Toyota", "Corolla", 2020, 20000.0, Azul);
    var b := Auto("Toyota", "Corolla", 2019, 18000.0, Rojo);
    assert PosicionAuto([a, b], a) == Some(0);
    Seqs.CountIsFilterLength([a, b], (x: Auto) => !Comparar(x, a));
    assert SinModelo([a, b], a) == [];
  }

  class ConcesionarioAuto {
    var nombre: string
    var direccion: string
    var capacidad: u16
    var autos: seq<Auto>

    /** Never more cars than the capacity. */
    predicate Valid()
      reads this
    {
      |autos| <= capacidad as int
    }

    /** `ConcesionarioAuto::new`: no cars. */
    constructor (nombre: string, direccion: string, capacidad: u16)
      ensures Valid()
      ensures this.nombre == nombre && this.direccion == direccion && this.capacidad == capacidad
      ensures autos == []
    {
      this.nombre := nombre;
      this.direccion := direccion;
      this.capacidad := capacidad;
      autos := [];
    }

    /** `agregar_auto`: false at capacity (length cast to `u16`), otherwise append and true. */
    method AgregarAuto(auto: Auto) returns (ok: bool)
      modifies this
      ensures !ok <==> ComoU16(|old(autos)|) == capacidad
      ensures old(Valid()) ==> Valid() && (ok <==> |old(autos)| < capacidad as int)
      ensures autos == if ok then old(autos) + [auto] else old(autos)
      ensures capacidad == old(capacidad) && nombre == old(nombre) && direccion == old(direccion)
    {
      if capacidad == ComoU16(|autos|) {
        return false;
      }
      autos := autos + [auto];
      return true;
    }

    /** `eliminar_auto`: a loop that `swap_remove`s the first match and returns. */
    method EliminarAuto(auto: Auto)
      modifies this
      ensures autos == SinPrimerAuto(old(autos), auto)
      ensures old(Valid()) ==> Valid()
      ensures capacidad == old(capacidad) && nombre == old(nombre) && direccion == old(direccion)
    {
      var i := 0;
      while i < |autos|
        invariant 0 <= i <= |autos|
        invariant autos == old(autos) && capacidad == old(capacidad)
        invariant nombre == old(nombre) && direccion == old(direccion)
        invariant forall j :: 0 <= j < i ==> !Comparar(autos[j], auto)
      {
        if Comparar(autos[i], auto) {
          assert PosicionAuto(autos, auto) == Some(i);
          autos := Seqs.SwapRemove(autos, i);
          return;
        }
        i := i + 1;
      }
    }

    /** `buscar_auto`: the first car that compares equal. */
    method BuscarAuto(auto: Auto) returns (r: Option<Auto>)
      ensures r == PrimerAuto(autos, auto)
    {
      var i := 0;
      while i < |autos|
        invariant 0 <= i <= |autos|
        invariant forall j :: 0 <= j < i ==> !Comparar(autos[j], auto)
      {
        if Comparar(autos[i], auto) {
          assert Seqs.FindIndex(autos, (a: Auto) => Comparar(a, auto)) == Some(i) by {
            var k := Seqs.FindIndex(autos, (a: Auto) => Comparar(a, auto));
            assert k.Some?;
            assert !(k.value < i) && !(i < k.value);
          }
          return Some(autos[i]);
        }
        i := i + 1;
      }
      return None;
    }
  }
}
