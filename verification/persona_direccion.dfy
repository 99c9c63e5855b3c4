/**
 * The person record of src/tp03/ej01.rs: a name, an optional address and
 * a `u8` age, rendered as one line of text, with the address the only
 * field that changes after construction.
 */
module PersonasConDireccion {
  import opened Wrappers
  import opened Enteros
  import opened Format

  /** What `to_string` prints for a person with no address. */
  const SinDireccion: string := "Sin dirección"

  /** The address as printed: the stored one, or `SinDireccion`. */
  function DireccionTexto(direccion: Option<string>): (d: string)
    ensures direccion.Some? ==> d == direccion.value
    ensures direccion.None? ==> d == SinDireccion
  {
    match direccion
    case Some(dir) => dir
    case None => SinDireccion
  }

  /** The line `to_string` builds from the three fields. */
  function Renglon(nombre: string, direccion: Option<string>, edad: u8): string {
    "Nombre:" + nombre + ", Direccion: " + DireccionTexto(direccion) + ", Edad:" + NatToString(edad as nat)
  }

  /**
   * The line starts with the name and ends with the age in decimal, so
   * both can be read back from it: the last digits parse to the age.
   */
  lemma RenglonLegible(nombre: string, direccion: Option<string>, edad: u8)
    ensures var r := Renglon(nombre, direccion, edad);
      var e := NatToString(edad as nat);
      |e| <= 3 && |e| < |r|
      && r[..7 + |nombre|] == "Nombre:" + nombre
      && r[|r| - |e|..] == e
      && r[|r| - |e| - 1] == ':'
      && (forall i :: |r| - |e| <= i < |r| ==> IsDigit(r[i]))
      && ParseNat(r[|r| - |e|..]) == edad as nat
  {
    var r := Renglon(nombre, direccion, edad);
    var e := NatToString(edad as nat);
    var cabeza := "Nombre:" + nombre + ", Direccion: " + DireccionTexto(direccion) + ", Edad:";
    assert r == cabeza + e;
    assert r[..7 + |nombre|] == "Nombre:" + nombre;
    assert r[|r| - |e|..] == e;
    assert r[|r| - |e| - 1] == cabeza[|cabeza| - 1];
    ParseNatToString(edad as nat);
    if edad >= 10 {
      assert |NatToString(edad as nat / 10)| <= 2;
    }
  }

  /**
   * Two persons whose lines agree have the same age, whatever digits
   * their names or addresses contain: the age is the run of digits after
   * the last colon.
   */
  lemma {:induction false} RenglonDeterminaEdad(n1: string, d1: Option<string>, e1: u8, n2: string, d2: Option<string>, e2: u8)
    requires Renglon(n1, d1, e1) == Renglon(n2, d2, e2)
    ensures e1 == e2
  {
    var r := Renglon(n1, d1, e1);
    var a := NatToString(e1 as nat);
    var b := NatToString(e2 as nat);
    RenglonLegible(n1, d1, e1);
    RenglonLegible(n2, d2, e2);
    assert a == b;
  }

  class Persona {
    var nombre: string
    var direccion: Option<string>
    var edad: u8

    /** `Persona::new`: the three fields as given. */
    constructor (nombre: string, direccion: Option<string>, edad: u8)
      ensures this.nombre == nombre && this.direccion == direccion && this.edad == edad
    {
      this.nombre := nombre;
      this.direccion := direccion;
      this.edad := edad;
    }

    /**
     * `to_string`: "Nombre:N, Direccion: D, Edad:E". The line opens with
     * the name and closes with the age in decimal, which reads back as the
     * age (`RenglonLegible`), so the line determines the age
     * (`RenglonDeterminaEdad`).
     */
    function ToString(): (r: string)
      reads this
      ensures r == Renglon(nombre, direccion, edad)
      ensures 7 + |nombre| <= |r| && r[..7 + |nombre|] == "Nombre:" + nombre
      ensures |NatToString(edad as nat)| < |r|
        && ParseNat(r[|r| - |NatToString(edad as nat)|..]) == edad as nat
    {
      RenglonLegible(nombre, direccion, edad);
      var dir := match direccion case Some(d) => d case None => SinDireccion;
      "Nombre:" + nombre + ", Direccion: " + dir + ", Edad:" + NatToString(edad as nat)
    }

    /** `obtener_edad`. */
    function ObtenerEdad(): (r: u8)
      reads this
      ensures r as nat == ParseNat(ToString()[|ToString()| - |NatToString(edad as nat)|..])
    {
      RenglonLegible(nombre, direccion, edad);
      edad
    }

    /** `actualizar_direccion`: the address becomes `Some(nueva)`; name and age stay. */
    method ActualizarDireccion(nueva: string)
      modifies this
      ensures direccion == Some(nueva)
      ensures nombre == old(nombre) && edad == old(edad)
    {
      direccion := Some(nueva);
    }
  }

  /** The line of the test's person once the address is "marte". */
  lemma EjemploRenglon()
    ensures Renglon("Tao", Some("marte"), 33) == "Nombre:Tao, Direccion: marte, Edad:33"
  {
    TreintaYTres();
  }

  lemma TreintaYTres()
    ensures NatToString(33) == "33"
  {
    assert DigitChar(3) == '3';
  }

  /** The test's person: age 33, and the line with the new address. */
  method EjemploTao() returns (edad: u8, s: string)
    ensures edad == 33
    ensures s == "Nombre:Tao, Direccion: marte, Edad:33"
  {
    var p := new Persona("Tao", Some("1 e/2 y 3"), 33);
    edad := p.ObtenerEdad();
    p.ActualizarDireccion("marte");
    s := p.ToString();
    EjemploRenglon();
  }
}
