/**
 * The date value of src/tp03/ej03.rs: a day, a month and a year stored
 * unchecked, validated against the proleptic Gregorian calendar, shifted by
 * a number of days and compared chronologically. Days are numbered
 * consecutively (day 0 is 1 January of year 0) so that shifting is
 * arithmetic on that number.
 */
module Fechas {
  datatype Fecha = Fecha(dia: nat, mes: nat, anio: int)

  /** `Fecha::new`: stores the three fields as given, valid or not. */
  function Nueva(dia: nat, mes: nat, anio: int): (f: Fecha)
    ensures f.dia == dia && f.mes == mes && f.anio == anio
  {
    Fecha(dia, mes, anio)
  }

  /**
   * `es_bisiesto`: divisible by 4 and not by 100, or by 400. Rust's `%`
   * truncates where Dafny's does not, but a zero remainder means the same.
   */
  predicate EsBisiesto(anio: int) {
    (anio % 4 == 0 && anio % 100 != 0) || anio % 400 == 0
  }

  function DiasDelMes(anio: int, mes: nat): (r: nat)
    requires 1 <= mes <= 12
    ensures 28 <= r <= 31
    ensures r == 29 <==> mes == 2 && EsBisiesto(anio)
  {
    if mes == 2 then (if EsBisiesto(anio) then 29 else 28)
    else if mes == 4 || mes == 6 || mes == 9 || mes == 11 then 30
    else 31
  }

  /** `es_fecha_valida`: the triple names a day of the calendar. */
  predicate EsFechaValida(f: Fecha) {
    1 <= f.mes <= 12 && 1 <= f.dia <= DiasDelMes(f.anio, f.mes)
  }

  function LargoAnio(anio: int): (r: nat)
    ensures r == 365 || r == 366
  {
    if EsBisiesto(anio) then 366 else 365
  }

  /** Days of the year before the first of `mes`; month 13 stands for the year's end. */
  function DiasAntesDelMes(anio: int, mes: nat): nat
    requires 1 <= mes <= 13
  {
    var extra := if EsBisiesto(anio) && mes > 2 then 1 else 0;
    extra + match mes
      case 1 => 0 case 2 => 31 case 3 => 59 case 4 => 90 case 5 => 120
      case 6 => 151 case 7 => 181 case 8 => 212 case 9 => 243
      case 10 => 273 case 11 => 304 case 12 => 334 case _ => 365
  }

  lemma DiasAntesPaso(anio: int, mes: nat)
    requires 1 <= mes <= 12
    ensures DiasAntesDelMes(anio, mes + 1) == DiasAntesDelMes(anio, mes) + DiasDelMes(anio, mes)
    ensures DiasAntesDelMes(anio, 13) == LargoAnio(anio)
  {
  }

  lemma {:induction false} DiasAntesMonotono(anio: int, a: nat, b: nat)
    requires 1 <= a <= b <= 13
    ensures DiasAntesDelMes(anio, a) <= DiasAntesDelMes(anio, b)
    decreases b - a
  {
    if a < b {
      DiasAntesPaso(anio, a);
      DiasAntesMonotono(anio, a + 1, b);
    }
  }

  /** Number of the first day of `anio`. */
  function InicioAnio(anio: int): int
    decreases if anio < 0 then -anio else anio
  {
    if anio == 0 then 0
    else if anio > 0 then InicioAnio(anio - 1) + LargoAnio(anio - 1)
    else InicioAnio(anio + 1) - LargoAnio(anio)
  }

  lemma InicioAnioPaso(anio: int)
    ensures InicioAnio(anio + 1) == InicioAnio(anio) + LargoAnio(anio)
  {
  }

  lemma {:induction false} InicioAnioMonotono(a: int, b: int)
    requires a <= b
    ensures InicioAnio(a) + 365 * (b - a) <= InicioAnio(b)
    decreases b - a
  {
    if a < b {
      InicioAnioMonotono(a, b - 1);
      InicioAnioPaso(b - 1);
    }
  }

  /** Two years cannot both contain day `n`. */
  lemma AnioUnico(n: int, x: int, y: int)
    requires InicioAnio(x) <= n < InicioAnio(x + 1)
    requires InicioAnio(y) <= n < InicioAnio(y + 1)
    ensures x == y
  {
    if x < y {
      InicioAnioMonotono(x + 1, y);
    } else if y < x {
      InicioAnioMonotono(y + 1, x);
    }
  }

  function BuscarAnioArriba(n: int, anio: int): (r: int)
    requires InicioAnio(anio) <= n
    ensures InicioAnio(r) <= n < InicioAnio(r + 1)
    decreases n - InicioAnio(anio)
  {
    InicioAnioPaso(anio);
    if n < InicioAnio(anio + 1) then anio else BuscarAnioArriba(n, anio + 1)
  }

  function BuscarAnioAbajo(n: int, anio: int): (r: int)
    requires n < InicioAnio(anio + 1)
    ensures InicioAnio(r) <= n < InicioAnio(r + 1)
    decreases InicioAnio(anio + 1) - n
  {
    InicioAnioPaso(anio);
    if InicioAnio(anio) <= n then anio else BuscarAnioAbajo(n, anio - 1)
  }

  /** The year that contains day number `n`. */
  function AnioDe(n: int): (r: int)
    ensures InicioAnio(r) <= n < InicioAnio(r + 1)
  {
    if n >= 0 then BuscarAnioArriba(n, 0) else BuscarAnioAbajo(n, -1)
  }

  /** The month of `anio` that contains its `k`-th day (counting from 0). */
  function BuscarMes(anio: int, k: int, mes: nat): (r: nat)
    requires 1 <= mes <= 12
    requires DiasAntesDelMes(anio, mes) <= k < LargoAnio(anio)
    ensures mes <= r <= 12
    ensures DiasAntesDelMes(anio, r) <= k < DiasAntesDelMes(anio, r + 1)
    decreases 12 - mes
  {
    if k < DiasAntesDelMes(anio, mes + 1) then mes else BuscarMes(anio, k, mes + 1)
  }

  lemma BuscarMesUnico(anio: int, k: int, mes: nat)
    requires 1 <= mes <= 12
    requires DiasAntesDelMes(anio, mes) <= k < DiasAntesDelMes(anio, mes + 1)
    ensures BuscarMes(anio, k, 1) == mes
  {
    DiasAntesPaso(anio, mes);
    DiasAntesMonotono(anio, mes + 1, 13);
    var r := BuscarMes(anio, k, 1);
    if r < mes {
      DiasAntesMonotono(anio, r + 1, mes);
    } else if mes < r {
      DiasAntesMonotono(anio, mes + 1, r);
    }
  }

  /** Consecutive numbering of the valid dates. */
  function NumeroDia(f: Fecha): int
    requires EsFechaValida(f)
  {
    InicioAnio(f.anio) + DiasAntesDelMes(f.anio, f.mes) + f.dia - 1
  }

  /** The valid date carrying day number `n`. */
  function DesdeNumeroDia(n: int): (f: Fecha)
    ensures EsFechaValida(f)
    ensures NumeroDia(f) == n
  {
    var anio := AnioDe(n);
    InicioAnioPaso(anio);
    var k := n - InicioAnio(anio);
    var mes := BuscarMes(anio, k, 1);
    DiasAntesPaso(anio, mes);
    Fecha(k - DiasAntesDelMes(anio, mes) + 1, mes, anio)
  }

  /** Numbering then decoding a valid date gives it back: the numbering is a bijection. */
  lemma DesdeNumeroDiaInversa(f: Fecha)
    requires EsFechaValida(f)
    ensures DesdeNumeroDia(NumeroDia(f)) == f
  {
    var n := NumeroDia(f);
    var k := DiasAntesDelMes(f.anio, f.mes) + f.dia - 1;
    assert n == InicioAnio(f.anio) + k;
    DiasAntesPaso(f.anio, f.mes);
    DiasAntesMonotono(f.anio, f.mes + 1, 13);
    assert k < LargoAnio(f.anio);
    InicioAnioPaso(f.anio);
    AnioUnico(n, AnioDe(n), f.anio);
    assert AnioDe(n) == f.anio;
    BuscarMesUnico(f.anio, k, f.mes);
    assert BuscarMes(f.anio, k, 1) == f.mes;
  }

  /** Distinct valid dates have distinct numbers. */
  lemma NumeroDiaInyectivo(f: Fecha, g: Fecha)
    requires EsFechaValida(f) && EsFechaValida(g)
    requires NumeroDia(f) == NumeroDia(g)
    ensures f == g
  {
    DesdeNumeroDiaInversa(f);
    DesdeNumeroDiaInversa(g);
  }

  /** `sumar_dias`: the date `dias` days later (`unwrap` panics on an invalid date). */
  function SumarDias(f: Fecha, dias: int): (r: Fecha)
    requires EsFechaValida(f)
    ensures EsFechaValida(r)
    ensures NumeroDia(r) == NumeroDia(f) + dias
  {
    DesdeNumeroDia(NumeroDia(f) + dias)
  }

  /** `restar_dias`: the date `dias` days earlier. */
  function RestarDias(f: Fecha, dias: int): (r: Fecha)
    requires EsFechaValida(f)
    ensures EsFechaValida(r)
    ensures NumeroDia(r) == NumeroDia(f) - dias
  {
    DesdeNumeroDia(NumeroDia(f) - dias)
  }

  /** Going back the days one went forward returns to the same date. */
  lemma RestarDeshaceSumar(f: Fecha, dias: int)
    requires EsFechaValida(f)
    ensures RestarDias(SumarDias(f, dias), dias) == f
  {
    DesdeNumeroDiaInversa(f);
  }

  /** Adding zero days changes nothing. */
  lemma SumarCero(f: Fecha)
    requires EsFechaValida(f)
    ensures SumarDias(f, 0) == f
  {
    DesdeNumeroDiaInversa(f);
  }

  /** Shifting twice is shifting by the sum. */
  lemma SumarCompone(f: Fecha, a: int, b: int)
    requires EsFechaValida(f)
    ensures SumarDias(SumarDias(f, a), b) == SumarDias(f, a + b)
  {
  }

  /** Chrono orders dates field by field: year, then month, then day. */
  predicate AntesQue(x: Fecha, y: Fecha) {
    x.anio < y.anio
    || (x.anio == y.anio && x.mes < y.mes)
    || (x.anio == y.anio && x.mes == y.mes && x.dia < y.dia)
  }

  /** `es_mayor`: false when `a` is invalid, true when only `b` is, else `a` is later. */
  predicate EsMayor(a: Fecha, b: Fecha) {
    if !EsFechaValida(a) then false
    else if !EsFechaValida(b) then true
    else AntesQue(b, a)
  }

  /** `es_menor`: false when `a` is invalid, true when only `b` is, else `a` is earlier. */
  predicate EsMenor(a: Fecha, b: Fecha) {
    if !EsFechaValida(a) then false
    else if !EsFechaValida(b) then true
    else AntesQue(a, b)
  }

  /** `comparar`: the same three fields. */
  function Comparar(a: Fecha, b: Fecha): (r: bool)
    ensures r <==> a == b
  {
    a.dia == b.dia && a.mes == b.mes && a.anio == b.anio
  }

  lemma AntesQueNumero(x: Fecha, y: Fecha)
    requires EsFechaValida(x) && EsFechaValida(y)
    requires AntesQue(x, y)
    ensures NumeroDia(x) < NumeroDia(y)
  {
    DiasAntesPaso(x.anio, x.mes);
    DiasAntesMonotono(x.anio, x.mes + 1, 13);
    if x.anio < y.anio {
      InicioAnioPaso(x.anio);
      InicioAnioMonotono(x.anio + 1, y.anio);
    } else if x.mes < y.mes {
      DiasAntesMonotono(x.anio, x.mes + 1, y.mes);
    }
  }

  /** On valid dates, `es_mayor` is the chronological order of day numbers. */
  lemma EsMayorCronologico(a: Fecha, b: Fecha)
    requires EsFechaValida(a) && EsFechaValida(b)
    ensures EsMayor(a, b) <==> NumeroDia(a) > NumeroDia(b)
  {
    if AntesQue(b, a) {
      AntesQueNumero(b, a);
    } else if AntesQue(a, b) {
      AntesQueNumero(a, b);
    }
  }

  /** On valid dates, `es_menor` is the chronological order of day numbers. */
  lemma EsMenorCronologico(a: Fecha, b: Fecha)
    requires EsFechaValida(a) && EsFechaValida(b)
    ensures EsMenor(a, b) <==> NumeroDia(a) < NumeroDia(b)
  {
    EsMayorCronologico(b, a);
  }

  /** `es_menor` and `es_mayor` are mirror images, and exclusive on valid dates. */
  lemma MenorEsMayorInvertido(a: Fecha, b: Fecha)
    requires EsFechaValida(a) && EsFechaValida(b)
    ensures EsMenor(a, b) <==> EsMayor(b, a)
    ensures !(EsMenor(a, b) && EsMayor(a, b))
    ensures !EsMayor(a, a)
  {
    EsMayorCronologico(a, b);
    EsMenorCronologico(a, b);
  }

  /** A later shift lands later: `sumar_dias` with a positive count moves forward. */
  lemma SumarAvanza(f: Fecha, dias: int)
    requires EsFechaValida(f)
    ensures dias > 0 <==> EsMayor(SumarDias(f, dias), f)
  {
    EsMayorCronologico(SumarDias(f, dias), f);
  }

  /** `es_bisiesto` agrees with the calendar: the year has a 29 February exactly then. */
  lemma BisiestoSiiVeintinueveDeFebrero(anio: int)
    ensures EsBisiesto(anio) <==> EsFechaValida(Fecha(29, 2, anio))
    ensures EsBisiesto(anio) <==> LargoAnio(anio) == 366
  {
  }

  /**
   * The struct as `sumar_dias` and `restar_dias` see it: a `&mut self`
   * whose three fields are overwritten with the shifted date.
   */
  class FechaMutable {
    var dia: nat
    var mes: nat
    var anio: int

    /** The date the fields currently hold. */
    function Valor(): (f: Fecha)
      reads this
      ensures f.dia == dia && f.mes == mes && f.anio == anio
    {
      Fecha(dia, mes, anio)
    }

    /** `Fecha::new`: the fields as given, valid or not. */
    constructor (dia: nat, mes: nat, anio: int)
      ensures Valor() == Nueva(dia, mes, anio)
    {
      this.dia := dia;
      this.mes := mes;
      this.anio := anio;
    }

    /** `sumar_dias`: moves this date `dias` days forward; an invalid date panics. */
    method Sumar(dias: int)
      requires EsFechaValida(Valor())
      modifies this
      ensures Valor() == SumarDias(old(Valor()), dias)
      ensures EsFechaValida(Valor())
    {
      var r := SumarDias(Fecha(dia, mes, anio), dias);
      dia := r.dia;
      mes := r.mes;
      anio := r.anio;
    }

    /** `restar_dias`: moves this date `dias` days back; an invalid date panics. */
    method Restar(dias: int)
      requires EsFechaValida(Valor())
      modifies this
      ensures Valor() == RestarDias(old(Valor()), dias)
      ensures EsFechaValida(Valor())
    {
      var r := RestarDias(Fecha(dia, mes, anio), dias);
      dia := r.dia;
      mes := r.mes;
      anio := r.anio;
    }
  }

  /** Shifting a date in place forward and then back by the same count restores its fields. */
  method SumarYRestar(f: FechaMutable, dias: int)
    requires EsFechaValida(f.Valor())
    modifies f
    ensures f.Valor() == old(f.Valor())
  {
    ghost var antes := f.Valor();
    f.Sumar(dias);
    f.Restar(dias);
    RestarDeshaceSumar(antes, dias);
  }
}
