/**
 * The car dealership of src/tp05/ej01.rs: a list of cars bounded by a
 * `u16` capacity. Adding at capacity fails with `CapacidadError`; removing
 * drops every car with the same make and model. A car's sale price applies
 * a rate built from its colour, its make and its year.
 */
module Concesionarios {
  import opened Wrappers
  import opened Enteros
  import Format
  import Seqs

  datatype Color = Rojo | Verde | Azul | Amarillo | Blanco | Negro

  datatype Auto = Auto(marca: string, modelo: string, anio: nat, precioBruto: real, color: Color)

  /** `CapacidadError`: the capacity that would be exceeded. */
  datatype CapacidadError = CapacidadError(capacidad: u16)

  /** `CapacidadError`'s `Display`: a fixed sentence followed by the capacity in decimal. */
  function Mensaje(e: CapacidadError): (r: string)
    ensures |r| > |PrefijoMensaje()| && r[..|PrefijoMensaje()|] == PrefijoMensaje()
    ensures var sufijo := r[|PrefijoMensaje()|..];
      (forall i :: 0 <= i < |sufijo| ==> Format.IsDigit(sufijo[i])) && Format.ParseNat(sufijo) == e.capacidad as int
  {
    var r := PrefijoMensaje() + Format.NatToString(e.capacidad as nat);
    assert r[|PrefijoMensaje()|..] == Format.NatToString(e.capacidad as nat);
    Format.ParseNatToString(e.capacidad as nat);
    r
  }

  function PrefijoMensaje(): string {
    "Agregar este auto hace que se supere la capacidad maxima "
  }

  /** Different capacities give different messages. */
  lemma MensajeInyectivo(a: CapacidadError, b: CapacidadError)
    requires Mensaje(a) == Mensaje(b)
    ensures a == b
  {
    var n := |PrefijoMensaje()|;
    assert Mensaje(a)[n..] == Mensaje(b)[n..];
  }

  /** The message of a one-car dealership. */
  lemma MensajeCapacidadUno()
    ensures Mensaje(CapacidadError(1)) == "Agregar este auto hace que se supere la capacidad maxima 1"
  {
    assert Format.NatToString(1) == "1";
  }

  /** `Auto::comparar`: same make and same model; year, price and colour are ignored. */
  predicate Comparar(a: Auto, b: Auto) {
    a.marca == b.marca && a.modelo == b.modelo
  }

  /** The first car that compares equal to `auto`. */
  function PrimerAuto(autos: seq<Auto>, auto: Auto): (r: Option<Auto>)
    ensures r.Some? ==> Comparar(r.value, auto) && r.value in autos
    ensures r.Some? ==> exists i :: 0 <= i < |autos| && autos[i] == r.value && forall j :: 0 <= j < i ==> !Comparar(autos[j], auto)
    ensures r.None? <==> forall j :: 0 <= j < |autos| ==> !Comparar(autos[j], auto)
  {
    match Seqs.FindIndex(autos, (a: Auto) => Comparar(a, auto))
    case None => None
    case Some(i) => Some(autos[i])
  }

  /** `eliminar_auto` (`retain`): every car that does not compare equal to `auto`, in order. */
  function SinModelo(autos: seq<Auto>, auto: Auto): (r: seq<Auto>)
    ensures |r| <= |autos|
    ensures forall j :: 0 <= j < |r| ==> !Comparar(r[j], auto) && r[j] in autos
    ensures forall j :: 0 <= j < |autos| && !Comparar(autos[j], auto) ==> autos[j] in r
  {
    Seqs.Filter(autos, (a: Auto) => !Comparar(a, auto))
  }

  /** After removing a model no car of that model can be found, and removing it again changes nothing. */
  lemma EliminarEsDefinitivo(autos: seq<Auto>, auto: Auto)
    ensures PrimerAuto(SinModelo(autos, auto), auto).None?
    ensures SinModelo(SinModelo(autos, auto), auto) == SinModelo(autos, auto)
  {
    Seqs.FilterIdempotent(autos, (a: Auto) => !Comparar(a, auto));
  }

  /** Removing one model never hides a car of another model. */
  lemma EliminarConservaOtros(autos: seq<Auto>, auto: Auto, otro: Auto)
    requires !Comparar(otro, auto)
    ensures PrimerAuto(SinModelo(autos, auto), otro).Some? <==> PrimerAuto(autos, otro).Some?
  {
    var r := SinModelo(autos, auto);
    if PrimerAuto(autos, otro).Some? {
      var j :| 0 <= j < |autos| && Comparar(autos[j], otro);
      assert !Comparar(autos[j], auto);
      var k :| 0 <= k < |r| && r[k] == autos[j];
    }
  }

  /** The rate of the colour alone: +25% for red, yellow and blue, -10% for the rest. */
  function TasaColor(c: Color): real {
    if c == Rojo || c == Amarillo || c == Azul then 0.25 else -0.10
  }

  /** The rate as the sum of the three independent adjustments. */
  function Tasa(a: Auto): real {
    TasaColor(a.color) + (if a.marca == "BMW" then 0.15 else 0.0) + (if a.anio < 2000 then -0.05 else 0.0)
  }

  /** `Auto::calcular_precio`: the rate is adjusted step by step, then applied to the gross price. */
  method CalcularPrecio(a: Auto) returns (precio: real)
    ensures precio == a.precioBruto * (1.0 + Tasa(a))
    ensures a.precioBruto >= 0.0 ==> 0.85 * a.precioBruto <= precio <= 1.40 * a.precioBruto
  {
    var tasa := if a.color == Rojo || a.color == Amarillo || a.color == Azul then 0.25 else -0.10;
    if a.marca == "BMW" {
      tasa := tasa + 0.15;
    }
    if a.anio < 2000 {
      tasa := tasa - 0.05;
    }
    precio := a.precioBruto * (1.0 + tasa);
  }

  /** The rate lies between -15% and +40%, both reached. */
  lemma TasaAcotada(a: Auto)
    ensures -0.15 <= Tasa(a) <= 0.40
    ensures Tasa(a) == -0.15 <==> TasaColor(a.color) < 0.0 && a.marca != "BMW" && a.anio < 2000
    ensures Tasa(a) == 0.40 <==> TasaColor(a.color) > 0.0 && a.marca == "BMW" && a.anio >= 2000
  {
  }

  /** A black pre-2000 Audi at 100 sells for 85; a red 2015 BMW at 100 sells for 140. */
  lemma PreciosDeEjemplo()
    ensures var a1 := Auto("Audi", "A3", 1999, 100.0, Negro);
      100.0 * (1.0 + Tasa(a1)) == 85.0
    ensures var a2 := Auto("BMW", "A4", 2015, 100.0, Rojo);
      100.0 * (1.0 + Tasa(a2)) == 140.0
  {
    assert "Audi" != "BMW" by {
      assert "Audi"[0] != "BMW"[0];
    }
  }

  class ConcesionarioAuto {
    var nombre: string
    var direccion: string
    var capacidad: u16
    var autos: seq<Auto>

    /** Never more cars than the capacity. */
    predicate Valid()
      reads this
    {
      |autos| <= capacidad as int
    }

    /** `ConcesionarioAuto::new`: no cars. */
    constructor (nombre: string, direccion: string, capacidad: u16)
      ensures Valid()
      ensures this.nombre == nombre && this.direccion == direccion && this.capacidad == capacidad
      ensures autos == []
    {
      this.nombre := nombre;
      this.direccion := direccion;
      this.capacidad := capacidad;
      autos := [];
    }

    /**
     * `agregar_auto`: the length is cast to `u16` before it is compared with
     * the capacity; while the capacity holds, the cast changes nothing.
     */
    method AgregarAuto(auto: Auto) returns (r: Result<(), CapacidadError>)
      modifies this
      ensures r.Err? <==> ComoU16(|old(autos)|) == capacidad
      ensures old(Valid()) ==> Valid() && (r.Err? <==> |old(autos)| == capacidad as int)
      ensures r.Err? ==> r.error == CapacidadError(capacidad) && autos == old(autos)
      ensures r.Ok? ==> autos == old(autos) + [auto]
      ensures capacidad == old(capacidad) && nombre == old(nombre) && direccion == old(direccion)
    {
      if capacidad == ComoU16(|autos|) {
        return Err(CapacidadError(capacidad));
      }
      autos := autos + [auto];
      return Ok(());
    }

    /** `eliminar_auto`: `retain` of the cars that do not compare equal. */
    method EliminarAuto(auto: Auto)
      modifies this
      ensures old(Valid()) ==> Valid()
      ensures autos == SinModelo(old(autos), auto)
      ensures capacidad == old(capacidad) && nombre == old(nombre) && direccion == old(direccion)
    {
      autos := SinModelo(autos, auto);
    }

    /** `buscar_auto`: the first car that compares equal. */
    method BuscarAuto(auto: Auto) returns (r: Option<Auto>)
      ensures r == PrimerAuto(autos, auto)
    {
      var i := 0;
      while i < |autos|
        invariant 0 <= i <= |autos|
        invariant forall j :: 0 <= j < i ==> !Comparar(autos[j], auto)
      {
        if Comparar(autos[i], auto) {
          assert Seqs.FindIndex(autos, (a: Auto) => Comparar(a, auto)) == Some(i) by {
            var k := Seqs.FindIndex(autos, (a: Auto) => Comparar(a, auto));
            assert k.Some?;
            assert !(k.value < i) && !(i < k.value);
          }
          return Some(autos[i]);
        }
        i := i + 1;
      }
      return None;
    }
  }

  /** A dealership of capacity one takes a first car and refuses a second. */
  method EjemploCapacidadUno()
  {
    var c := new ConcesionarioAuto("Concesionario", "Calle 1", 1);
    var a1 := Auto("Audi", "A3", 1999, 100.0, Negro);
    var a2 := Auto("BMW", "A4", 2015, 100.0, Rojo);
    var r1 := c.AgregarAuto(a1);
    assert r1.Ok?;
    var r2 := c.AgregarAuto(a2);
    assert r2 == Err(CapacidadError(1));
    var b := c.BuscarAuto(a2);
    assert "Audi"[0] != "BMW"[0];
    assert b.None?;
    c.EliminarAuto(a1);
    var b1 := c.BuscarAuto(a1);
    EliminarEsDefinitivo([a1], a1);
    assert b1.None?;
  }
}
