/**
 * The exam statistics of src/tp03/gustavo_lopez_v2.rs: a student's exams,
 * their mean, the first exam with the highest and with the lowest grade,
 * and a report that gathers them. Grades are `f32` in the source and
 * `real` here. The earlier copy of the exercise
 * (src/tp03/gustavo_lopez_v1.sync-conflict-20250519-150758-PP3QSQN.rs)
 * has the same four functions with the same bodies, so this module models
 * both.
 */
module Estudiantes {
  import opened Wrappers
  import opened Enteros

  datatype Examen = Examen(nombre: string, nota: real)

  datatype Informe = Informe(
    nombreEstudiante: string,
    cantRendidos: u8,
    promedio: real,
    notaMasAlta: Examen,
    notaMasBaja: Examen)

  /** The sum of the grades. */
  function Suma(es: seq<Examen>): real {
    if |es| == 0 then 0.0 else Suma(es[..|es| - 1]) + es[|es| - 1].nota
  }

  /** The mean grade, 0 when there are no exams. */
  function Promedio(es: seq<Examen>): real {
    if |es| == 0 then 0.0 else Suma(es) / |es| as real
  }

  /**
   * Where the running maximum stands after the first `n` exams: it starts
   * at exam 0 and moves only to a strictly higher grade, so it is the
   * first exam with the highest grade.
   */
  function PosMaxima(es: seq<Examen>, n: nat): (k: nat)
    requires 0 < n <= |es|
    ensures k < n
    ensures forall j :: 0 <= j < n ==> es[j].nota <= es[k].nota
    ensures forall j :: 0 <= j < k ==> es[j].nota < es[k].nota
  {
    if n == 1 then 0
    else
      var k := PosMaxima(es, n - 1);
      if es[n - 1].nota > es[k].nota then n - 1 else k
  }

  /** The running minimum: the first exam with the lowest grade. */
  function PosMinima(es: seq<Examen>, n: nat): (k: nat)
    requires 0 < n <= |es|
    ensures k < n
    ensures forall j :: 0 <= j < n ==> es[k].nota <= es[j].nota
    ensures forall j :: 0 <= j < k ==> es[k].nota < es[j].nota
  {
    if n == 1 then 0
    else
      var k := PosMinima(es, n - 1);
      if es[n - 1].nota < es[k].nota then n - 1 else k
  }

  /** Only one position is the first with the highest grade. */
  lemma PrimeraMaximaUnica(es: seq<Examen>, k: nat)
    requires k < |es|
    requires forall j :: 0 <= j < |es| ==> es[j].nota <= es[k].nota
    requires forall j :: 0 <= j < k ==> es[j].nota < es[k].nota
    ensures PosMaxima(es, |es|) == k
  {
    var m := PosMaxima(es, |es|);
    assert !(m < k) && !(k < m);
  }

  /** Only one position is the first with the lowest grade. */
  lemma PrimeraMinimaUnica(es: seq<Examen>, k: nat)
    requires k < |es|
    requires forall j :: 0 <= j < |es| ==> es[k].nota <= es[j].nota
    requires forall j :: 0 <= j < k ==> es[k].nota < es[j].nota
    ensures PosMinima(es, |es|) == k
  {
    var m := PosMinima(es, |es|);
    assert !(m < k) && !(k < m);
  }

  /** The sum lies between the count times the lowest and the count times the highest grade. */
  lemma {:induction false} SumaAcotada(es: seq<Examen>, lo: real, hi: real)
    requires forall j :: 0 <= j < |es| ==> lo <= es[j].nota <= hi
    ensures |es| as real * lo <= Suma(es) <= |es| as real * hi
    decreases |es|
  {
    if |es| > 0 {
      SumaAcotada(es[..|es| - 1], lo, hi);
      assert |es| as real * lo == (|es| - 1) as real * lo + lo;
      assert |es| as real * hi == (|es| - 1) as real * hi + hi;
    }
  }

  /** The mean lies between the lowest and the highest grade. */
  lemma PromedioEntreExtremos(es: seq<Examen>)
    requires |es| > 0
    ensures es[PosMinima(es, |es|)].nota <= Promedio(es) <= es[PosMaxima(es, |es|)].nota
  {
    var lo := es[PosMinima(es, |es|)].nota;
    var hi := es[PosMaxima(es, |es|)].nota;
    PromedioAcotado(es, lo, hi);
  }

  /** The mean of grades that all lie in [lo, hi] lies in [lo, hi]. */
  lemma PromedioAcotado(es: seq<Examen>, lo: real, hi: real)
    requires |es| > 0
    requires forall j :: 0 <= j < |es| ==> lo <= es[j].nota <= hi
    ensures lo <= Promedio(es) <= hi
  {
    var n := |es| as real;
    var s := Suma(es);
    SumaAcotada(es, lo, hi);
    assert Promedio(es) == s / n;
    CocienteAcotado(n, n * lo, s, lo);
    CocienteAcotado(n, s, n * hi, hi);
  }

  lemma CocienteAcotado(n: real, a: real, b: real, c: real)
    requires n > 0.0 && a <= b
    ensures a / n <= b / n
    ensures (n * c) / n == c
  {
  }

  /** When every grade is the same, the mean, the highest and the lowest are that grade. */
  lemma TodasIguales(es: seq<Examen>, nota: real)
    requires |es| > 0
    requires forall j :: 0 <= j < |es| ==> es[j].nota == nota
    ensures Promedio(es) == nota
    ensures PosMaxima(es, |es|) == 0 && PosMinima(es, |es|) == 0
  {
    PromedioEntreExtremos(es);
    PrimeraMaximaUnica(es, 0);
    PrimeraMinimaUnica(es, 0);
  }

  /**
   * The report of a student named `nombre`: none without exams; otherwise
   * its mean lies between the grades of its lowest and its highest exam,
   * both taken from the list.
   */
  function InformeDe(nombre: string, es: seq<Examen>): (r: Option<Informe>)
    ensures r.None? <==> |es| == 0
    ensures r.Some? ==>
      r.value.nombreEstudiante == nombre
      && r.value.notaMasBaja in es && r.value.notaMasAlta in es
      && r.value.notaMasBaja.nota <= r.value.promedio <= r.value.notaMasAlta.nota
  {
    if |es| == 0 then None
    else
      PromedioEntreExtremos(es);
      Some(Informe(nombre, ComoU8(|es|), Promedio(es), es[PosMaxima(es, |es|)], es[PosMinima(es, |es|)]))
  }

  datatype Estudiante = Estudiante(nombre: string, id: u64, examenes: seq<Examen>) {

    /** `obtener_promedio`: 0 for no exams, otherwise a running total divided by the count. */
    method ObtenerPromedio() returns (r: real)
      ensures r == Promedio(examenes)
    {
      if |examenes| == 0 {
        return 0.0;
      }
      var tot := 0.0;
      for i := 0 to |examenes|
        invariant tot == Suma(examenes[..i])
      {
        assert examenes[..i + 1][..i] == examenes[..i];
        tot := tot + examenes[i].nota;
      }
      assert examenes[..|examenes|] == examenes;
      r := tot / |examenes| as real;
    }

    /**
     * `obtener_calificacion_mas_alta`: None for no exams; otherwise start
     * from exam 0 and move to each exam with a strictly higher grade.
     */
    method ObtenerCalificacionMasAlta() returns (r: Option<Examen>)
      ensures r.None? <==> |examenes| == 0
      ensures r.Some? ==> r.value == examenes[PosMaxima(examenes, |examenes|)]
    {
      if |examenes| == 0 {
        return None;
      }
      var examen := examenes[0];
      var max := examen.nota;
      for i := 0 to |examenes|
        invariant examen == examenes[PosMaxima(examenes, if i == 0 then 1 else i)]
        invariant max == examen.nota
      {
        if examenes[i].nota > max {
          max := examenes[i].nota;
          examen := examenes[i];
        }
      }
      return Some(examen);
    }

    /** `obtener_calificacion_mas_baja`: the same scan with a strictly lower grade. */
    method ObtenerCalificacionMasBaja() returns (r: Option<Examen>)
      ensures r.None? <==> |examenes| == 0
      ensures r.Some? ==> r.value == examenes[PosMinima(examenes, |examenes|)]
    {
      if |examenes| == 0 {
        return None;
      }
      var examen := examenes[0];
      var min := examen.nota;
      for i := 0 to |examenes|
        invariant examen == examenes[PosMinima(examenes, if i == 0 then 1 else i)]
        invariant min == examen.nota
      {
        if examenes[i].nota < min {
          min := examenes[i].nota;
          examen := examenes[i];
        }
      }
      return Some(examen);
    }

    /**
     * `generar_informe`: None for no exams; otherwise the name, the count
     * cast to `u8` (so 256 exams report 0), the mean and the two exams.
     */
    method GenerarInforme() returns (r: Option<Informe>)
      ensures r == InformeDe(nombre, examenes)
      ensures r.None? <==> |examenes| == 0
      ensures r.Some? ==>
        r.value.nombreEstudiante == nombre
        && r.value.cantRendidos == ComoU8(|examenes|)
        && r.value.promedio == Promedio(examenes)
        && r.value.notaMasAlta == examenes[PosMaxima(examenes, |examenes|)]
        && r.value.notaMasBaja == examenes[PosMinima(examenes, |examenes|)]
    {
      if |examenes| == 0 {
        return None;
      }
      var cantRendidos := ComoU8(|examenes|);
      var promedio := ObtenerPromedio();
      var notaMasAlta := ObtenerCalificacionMasAlta();
      var notaMasBaja := ObtenerCalificacionMasBaja();
      return Some(Informe(nombre, cantRendidos, promedio, notaMasAlta.value, notaMasBaja.value));
    }
  }

  /** The three exams of the test: mean 49/6, highest "SO" with 9, lowest "OO2" with 7. */
  lemma EjemploExamenes()
    ensures var es := [Examen("Rust", 8.5), Examen("OO2", 7.0), Examen("SO", 9.0)];
      Promedio(es) == (8.5 + 7.0 + 9.0) / 3.0
      && es[PosMaxima(es, 3)] == Examen("SO", 9.0)
      && es[PosMinima(es, 3)] == Examen("OO2", 7.0)
    ensures Promedio([]) == 0.0
  {
    var es := [Examen("Rust", 8.5), Examen("OO2", 7.0), Examen("SO", 9.0)];
    assert es[..2] == [Examen("Rust", 8.5), Examen("OO2", 7.0)];
    assert [Examen("Rust", 8.5), Examen("OO2", 7.0)][..1] == [Examen("Rust", 8.5)];
    assert [Examen("Rust", 8.5)][..0] == [];
    PrimeraMaximaUnica(es, 2);
    PrimeraMinimaUnica(es, 1);
  }
}
