/**
 * The person queries of src/tp04/ej02.rs: iterator filters and `all`/`any`
 * over a list of persons, each with a city, a salary and a `u8` age.
 */
module Personas {
  import opened Enteros
  import Seqs

  datatype Persona = Persona(
    nombre: string,
    apellido: string,
    direccion: string,
    ciudad: string,
    salario: real,
    edad: u8)

  /** `salario_mayor_a`: the persons earning strictly more than `salario`, in order. */
  function SalarioMayorA(personas: seq<Persona>, salario: real): (r: seq<Persona>)
    ensures |r| <= |personas|
    ensures forall j :: 0 <= j < |r| ==> r[j].salario > salario && r[j] in personas
    ensures forall j :: 0 <= j < |personas| && personas[j].salario > salario ==> personas[j] in r
  {
    Seqs.Filter(personas, (p: Persona) => p.salario > salario)
  }

  /** `edad_vive_en`: the persons strictly older than `edad` who live in `ciudad`, in order. */
  function EdadViveEn(personas: seq<Persona>, edad: u8, ciudad: string): (r: seq<Persona>)
    ensures |r| <= |personas|
    ensures forall j :: 0 <= j < |r| ==> r[j].edad > edad && r[j].ciudad == ciudad && r[j] in personas
    ensures forall j :: 0 <= j < |personas| && personas[j].edad > edad && personas[j].ciudad == ciudad ==> personas[j] in r
  {
    Seqs.Filter(personas, (p: Persona) => p.edad > edad && p.ciudad == ciudad)
  }

  /** `viven_en`: `all` persons live in `ciudad`. */
  predicate VivenEn(personas: seq<Persona>, ciudad: string) {
    forall j :: 0 <= j < |personas| ==> personas[j].ciudad == ciudad
  }

  /** `vive_almenos_uno`: `any` person lives in `ciudad`. */
  predicate ViveAlmenosUno(personas: seq<Persona>, ciudad: string) {
    exists j :: 0 <= j < |personas| && personas[j].ciudad == ciudad
  }

  /** How many persons live in `ciudad`. */
  function Residentes(personas: seq<Persona>, ciudad: string): nat {
    Seqs.Count(personas, (p: Persona) => p.ciudad == ciudad)
  }

  /**
   * `all` and `any` read through the number of residents: everyone, and at
   * least one. So on an empty list `viven_en` holds and `vive_almenos_uno`
   * does not, and on a non-empty list the first implies the second.
   */
  lemma TodosYAlguno(personas: seq<Persona>, ciudad: string)
    ensures VivenEn(personas, ciudad) <==> Residentes(personas, ciudad) == |personas|
    ensures ViveAlmenosUno(personas, ciudad) <==> Residentes(personas, ciudad) > 0
    ensures |personas| == 0 ==> VivenEn(personas, ciudad) && !ViveAlmenosUno(personas, ciudad)
    ensures |personas| > 0 && VivenEn(personas, ciudad) ==> ViveAlmenosUno(personas, ciudad)
  {
    if |personas| > 0 && VivenEn(personas, ciudad) {
      assert personas[0].ciudad == ciudad;
    }
  }

  /** A higher salary bound keeps a subset: filtering again by it gives the same list. */
  lemma SalarioMayorAMonotono(personas: seq<Persona>, a: real, b: real)
    requires a <= b
    ensures SalarioMayorA(SalarioMayorA(personas, a), b) == SalarioMayorA(personas, b)
  {
    Seqs.FilterImplied(personas, (p: Persona) => p.salario > a, (p: Persona) => p.salario > b);
  }

  /** Anyone `edad_vive_en` returns makes `vive_almenos_uno` true. */
  lemma EdadViveEnImplicaAlguno(personas: seq<Persona>, edad: u8, ciudad: string)
    requires |EdadViveEn(personas, edad, ciudad)| > 0
    ensures ViveAlmenosUno(personas, ciudad)
  {
    var r := EdadViveEn(personas, edad, ciudad);
    assert r[0] in personas;
    var j :| 0 <= j < |personas| && personas[j] == r[0];
  }

  /** The two persons of the fixture, both from "la plata". */
  function PersonasPrueba(): seq<Persona> {
    [Persona("tao", "lop", "calle 1", "la plata", 10000000.0, 23),
     Persona("opa", "lopa", "calle 2", "la plata", 1000000.0, 19)]
  }

  lemma EjemploConsultas()
    ensures |SalarioMayorA(PersonasPrueba(), 1000000.0)| == 1
    ensures SalarioMayorA(PersonasPrueba(), 10000000.0) == []
    ensures |EdadViveEn(PersonasPrueba(), 18, "la plata")| == 2
    ensures EdadViveEn(PersonasPrueba(), 40, "capital") == []
    ensures VivenEn(PersonasPrueba(), "la plata") && !VivenEn(PersonasPrueba(), "capital")
    ensures ViveAlmenosUno(PersonasPrueba(), "la plata") && !ViveAlmenosUno(PersonasPrueba(), "capital")
  {
    var ps := PersonasPrueba();
    assert "la plata"[0] != "capital"[0];
    assert ps[..1][..0] == [];
    assert ps[..1] == [ps[0]];
    assert |SalarioMayorA(ps[..1], 1000000.0)| == 1;
    assert |EdadViveEn(ps[..1], 18, "la plata")| == 1;
    assert ps[0].ciudad == "la plata";
  }
}
