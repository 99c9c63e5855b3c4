/**
 * The earlier exam statistics of src/tp03/ej06.rs: the same mean, but the
 * highest and lowest grades come back as plain numbers, 0 when the
 * student has no exams.
 */
module EstudiantesNotas {
  import opened Enteros
  import E = Estudiantes

  datatype Estudiante = Estudiante(nombre: string, id: u64, examenes: seq<E.Examen>) {

    /** `obtener_promedio`: 0 for no exams, otherwise the running total over the count. */
    method ObtenerPromedio() returns (r: real)
      ensures r == E.Promedio(examenes)
      ensures |examenes| > 0 ==> r * |examenes| as real == E.Suma(examenes)
    {
      if |examenes| == 0 {
        return 0.0;
      }
      var tot := 0.0;
      for i := 0 to |examenes|
        invariant tot == E.Suma(examenes[..i])
      {
        assert examenes[..i + 1][..i] == examenes[..i];
        tot := tot + examenes[i].nota;
      }
      assert examenes[..|examenes|] == examenes;
      r := tot / |examenes| as real;
    }

    /** `obtener_calificacion_mas_alta`: 0 for no exams, otherwise the highest grade. */
    method ObtenerCalificacionMasAlta() returns (max: real)
      ensures |examenes| == 0 ==> max == 0.0
      ensures |examenes| > 0 ==> exists j :: 0 <= j < |examenes| && examenes[j].nota == max
      ensures forall j :: 0 <= j < |examenes| ==> examenes[j].nota <= max
    {
      if |examenes| == 0 {
        return 0.0;
      }
      max := examenes[0].nota;
      for i := 0 to |examenes|
        invariant max == examenes[E.PosMaxima(examenes, if i == 0 then 1 else i)].nota
      {
        if examenes[i].nota > max {
          max := examenes[i].nota;
        }
      }
      var k := E.PosMaxima(examenes, |examenes|);
      assert examenes[k].nota == max;
    }

    /** `obtener_calificacion_mas_baja`: 0 for no exams, otherwise the lowest grade. */
    method ObtenerCalificacionMasBaja() returns (min: real)
      ensures |examenes| == 0 ==> min == 0.0
      ensures |examenes| > 0 ==> exists j :: 0 <= j < |examenes| && examenes[j].nota == min
      ensures forall j :: 0 <= j < |examenes| ==> min <= examenes[j].nota
    {
      if |examenes| == 0 {
        return 0.0;
      }
      min := examenes[0].nota;
      for i := 0 to |examenes|
        invariant min == examenes[E.PosMinima(examenes, if i == 0 then 1 else i)].nota
      {
        if examenes[i].nota < min {
          min := examenes[i].nota;
        }
      }
      var k := E.PosMinima(examenes, |examenes|);
      assert examenes[k].nota == min;
    }
  }

  /**
   * The three numbers are ordered: lowest <= mean <= highest, and they
   * are the grades of the exams the later draft reports.
   */
  lemma NotasOrdenadas(es: seq<E.Examen>, alta: real, baja: real)
    requires |es| > 0
    requires exists j :: 0 <= j < |es| && es[j].nota == alta
    requires forall j :: 0 <= j < |es| ==> es[j].nota <= alta
    requires exists j :: 0 <= j < |es| && es[j].nota == baja
    requires forall j :: 0 <= j < |es| ==> baja <= es[j].nota
    ensures baja <= E.Promedio(es) <= alta
    ensures alta == es[E.PosMaxima(es, |es|)].nota
    ensures baja == es[E.PosMinima(es, |es|)].nota
  {
    E.PromedioAcotado(es, baja, alta);
    var a :| 0 <= a < |es| && es[a].nota == alta;
    var b :| 0 <= b < |es| && es[b].nota == baja;
    assert es[a].nota <= es[E.PosMaxima(es, |es|)].nota;
    assert es[E.PosMinima(es, |es|)].nota <= es[b].nota;
  }
}
