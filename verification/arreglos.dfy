/**
 * The slice exercises of src/tp02 (ej04 to ej12): counters over a slice,
 * element-wise maps into a new vector, the duplicate-pairs array filled
 * through a running index, and two rewrites of a mutable slice in place.
 * Each loop is proved against a function that states what it computes.
 */
module Arreglos {
  import opened Enteros
  import Seqs

  /** 2^64: a slice never has this many elements, so a `u64` counter over it never overflows. */
  const LimiteU64: int := 0x1_0000_0000_0000_0000

  // ---------------------------------------------------------------------
  // ej04: n_odds

  /** `is_even`, defined outside this model: the remainder modulo 2 is zero. */
  predicate EsPar(n: u64) {
    n % 2 == 0
  }

  /** How many elements are not even. */
  function Impares(arr: seq<u64>): nat {
    Seqs.Count(arr, (x: u64) => !EsPar(x))
  }

  /** How many elements are even. */
  function Pares(arr: seq<u64>): nat {
    Seqs.Count(arr, (x: u64) => EsPar(x))
  }

  /** `n_odds`: a counter over the five elements, raised for each odd one. */
  method NOdds(arr: seq<u64>) returns (tot: u64)
    requires |arr| == 5
    ensures tot as int == Impares(arr)
    ensures tot <= 5
  {
    tot := 0;
    for i := 0 to |arr|
      invariant tot as int == Impares(arr[..i])
    {
      Seqs.CountSnoc(arr[..i], arr[i], (x: u64) => !EsPar(x));
      assert arr[..i + 1] == arr[..i] + [arr[i]];
      if !EsPar(arr[i]) {
        tot := tot + 1;
      }
    }
    assert arr[..|arr|] == arr;
  }

  /** Every element is odd or even, never both: the two counts add up to the length. */
  lemma ImparesMasPares(arr: seq<u64>)
    ensures Impares(arr) + Pares(arr) == |arr|
    ensures Impares(arr) == 0 <==> forall j :: 0 <= j < |arr| ==> EsPar(arr[j])
  {
    Seqs.CountSplit(arr, (x: u64) => true, (x: u64) => !EsPar(x), (x: u64) => EsPar(x));
  }

  /** The values `is_even` is pinned to, and the four arrays counted. */
  lemma EjemplosNOdds()
    ensures EsPar(0) && EsPar(2) && EsPar(4) && !EsPar(1) && !EsPar(3) && !EsPar(999)
    ensures Impares([1, 2, 3, 4, 5]) == 3
    ensures Impares([2, 4, 6, 8, 10]) == 0
    ensures Impares([1, 3, 5, 7, 9]) == 5
    ensures Impares([0, 0, 0, 0, 1]) == 1
  {
    var a: seq<u64> := [1, 2, 3, 4, 5];
    assert [1, 2, 3, 4, 5][..4] == [1, 2, 3, 4];
    assert [1, 2, 3, 4][..3] == [1, 2, 3];
    assert [1, 2, 3][..2] == [1, 2];
    assert [1, 2][..1] == [1];
    assert [1][..0] == [];
  }

  // ---------------------------------------------------------------------
  // ej05: dup_vals

  /**
   * The values written while `j` runs over `i+1 .. hasta`: one copy of
   * `arr[i]` for each later element equal to it.
   */
  function Repeticiones(arr: seq<real>, i: nat, hasta: nat): (r: seq<real>)
    requires i < hasta <= |arr|
    ensures |r| <= hasta - i - 1
    ensures forall k :: 0 <= k < |r| ==> r[k] == arr[i]
    decreases hasta
  {
    if hasta == i + 1 then []
    else Repeticiones(arr, i, hasta - 1) + if arr[hasta - 1] == arr[i] then [arr[i]] else []
  }

  /** `v` occurs at two different positions. */
  predicate Repetido(arr: seq<real>, v: real) {
    exists i, j :: 0 <= i < j < |arr| && arr[i] == v && arr[j] == v
  }

  /** Each value written for `i` occurs at `i` and at a later position. */
  lemma {:induction false} RepeticionesRepetidas(arr: seq<real>, i: nat, hasta: nat)
    requires i < hasta <= |arr|
    ensures forall k :: 0 <= k < |Repeticiones(arr, i, hasta)| ==> Repetido(arr, Repeticiones(arr, i, hasta)[k])
    decreases hasta
  {
    if hasta > i + 1 {
      RepeticionesRepetidas(arr, i, hasta - 1);
      if arr[hasta - 1] == arr[i] {
        assert Repetido(arr, arr[i]) by {
          assert 0 <= i < hasta - 1 < |arr|;
        }
      }
    }
  }

  /**
   * The values written for the first `n` outer indices, in writing order:
   * `arr[i]` once for each pair i < j with `arr[i] == arr[j]`, the pairs
   * in lexicographic order.
   */
  function Duplicados(arr: seq<real>, n: nat): seq<real>
    requires n <= |arr|
    decreases n
  {
    if n == 0 then [] else Duplicados(arr, n - 1) + Repeticiones(arr, n - 1, |arr|)
  }

  /** Every value written occurs twice in `arr`. */
  lemma {:induction false} DuplicadosRepetidos(arr: seq<real>, n: nat)
    requires n <= |arr|
    ensures forall k :: 0 <= k < |Duplicados(arr, n)| ==> Repetido(arr, Duplicados(arr, n)[k])
    decreases n
  {
    if n > 0 {
      DuplicadosRepetidos(arr, n - 1);
      RepeticionesRepetidas(arr, n - 1, |arr|);
    }
  }

  /** The returned array of five: the values written, then the initial zeros. */
  function Relleno(d: seq<real>): (r: seq<real>)
    requires |d| <= 5
    ensures |r| == 5
    ensures r[..|d|] == d
    ensures forall k :: |d| <= k < 5 ==> r[k] == 0.0
  {
    d + seq(5 - |d|, _ => 0.0)
  }

  lemma RellenoAgrega(d: seq<real>, x: real)
    requires |d| < 5
    ensures Relleno(d + [x]) == Relleno(d)[|d| := x]
  {
    assert forall k :: 0 <= k < 5 ==> Relleno(d + [x])[k] == Relleno(d)[|d| := x][k];
  }

  lemma {:induction false} RepeticionesCrecen(arr: seq<real>, i: nat, a: nat, b: nat)
    requires i < a <= b <= |arr|
    ensures |Repeticiones(arr, i, a)| <= |Repeticiones(arr, i, b)|
    decreases b - a
  {
    if a < b {
      RepeticionesCrecen(arr, i, a, b - 1);
    }
  }

  /** The values written grow with the outer index. */
  lemma {:induction false} DuplicadosCrecen(arr: seq<real>, i: nat)
    requires i < |arr|
    ensures |Duplicados(arr, i + 1)| <= |Duplicados(arr, |arr|)|
    decreases |arr| - i
  {
    if i + 1 < |arr| {
      DuplicadosCrecen(arr, i + 1);
    }
  }

  /** The values written for `i` so far are at most those written for `i` in all. */
  lemma EscritosEnI(arr: seq<real>, i: nat, j: nat)
    requires i < j <= |arr|
    ensures |Duplicados(arr, i)| + |Repeticiones(arr, i, j)| <= |Duplicados(arr, i + 1)|
  {
    RepeticionesCrecen(arr, i, j, |arr|);
    assert Duplicados(arr, i + 1) == Duplicados(arr, i) + Repeticiones(arr, i, |arr|);
  }

  /** While `dup_vals` runs, it has written no more values than it writes in total. */
  lemma {:induction false} CotaParcial(arr: seq<real>, i: nat, j: nat)
    requires i < j <= |arr|
    ensures |Duplicados(arr, i)| + |Repeticiones(arr, i, j)| <= |Duplicados(arr, |arr|)|
  {
    EscritosEnI(arr, i, j);
    DuplicadosCrecen(arr, i);
  }

  /** One step of the outer loop: the inner loop starts with nothing written for `i`, and ends with all of it. */
  lemma PasoExterno(arr: seq<real>, i: nat)
    requires i < |arr|
    ensures Duplicados(arr, i) + Repeticiones(arr, i, i + 1) == Duplicados(arr, i)
    ensures Duplicados(arr, i + 1) == Duplicados(arr, i) + Repeticiones(arr, i, |arr|)
  {
  }

  /** One step of the inner loop: at most one more value, and still within the total. */
  lemma PasoInterno(arr: seq<real>, i: nat, j: nat)
    requires i < j < |arr|
    requires |Duplicados(arr, |arr|)| <= 5
    ensures Duplicados(arr, i) + Repeticiones(arr, i, j + 1)
      == Duplicados(arr, i) + Repeticiones(arr, i, j) + if arr[j] == arr[i] then [arr[i]] else []
    ensures |Duplicados(arr, i)| + |Repeticiones(arr, i, j + 1)| <= 5
  {
    CotaParcial(arr, i, j + 1);
  }

  /**
   * `dup_vals`: for each pair i < j of equal elements, write `arr[i]` at
   * the running index `dup_i`. Writing a sixth value is out of bounds and
   * panics, hence the requirement of at most five equal pairs.
   */
  method DupVals(arr: seq<real>) returns (dups: seq<real>)
    requires |arr| == 5
    requires |Duplicados(arr, |arr|)| <= 5
    ensures dups == Relleno(Duplicados(arr, |arr|))
  {
    var d := new real[5](_ => 0.0);
    var dupI := 0;
    ghost var escritos: seq<real> := [];
    for i := 0 to |arr|
      invariant escritos == Duplicados(arr, i)
      invariant dupI == |escritos| <= 5
      invariant d[..] == Relleno(escritos)
    {
      PasoExterno(arr, i);
      for j := i + 1 to |arr|
        invariant escritos == Duplicados(arr, i) + Repeticiones(arr, i, j)
        invariant dupI == |escritos| <= 5
        invariant d[..] == Relleno(escritos)
      {
        PasoInterno(arr, i, j);
        if arr[i] == arr[j] {
          RellenoAgrega(escritos, arr[i]);
          d[dupI] := arr[i];
          dupI := dupI + 1;
          escritos := escritos + [arr[i]];
        }
      }
    }
    dups := d[..];
  }

  lemma {:induction false} RepeticionContenida(arr: seq<real>, i: nat, j: nat, hasta: nat)
    requires i < j < hasta <= |arr| && arr[i] == arr[j]
    ensures arr[i] in Repeticiones(arr, i, hasta)
    decreases hasta
  {
    if hasta > j + 1 {
      RepeticionContenida(arr, i, j, hasta - 1);
    }
  }

  lemma {:induction false} DuplicadoContenido(arr: seq<real>, i: nat, n: nat)
    requires i < n <= |arr|
    requires arr[i] in Repeticiones(arr, i, |arr|)
    ensures arr[i] in Duplicados(arr, n)
    decreases n
  {
    if n > i + 1 {
      DuplicadoContenido(arr, i, n - 1);
    }
  }

  /**
   * A value is written exactly when it occurs twice: every slot before the
   * number of equal pairs holds a repeated value, and every repeated value
   * is written.
   */
  lemma DuplicadosSiiRepetido(arr: seq<real>, v: real)
    ensures v in Duplicados(arr, |arr|) <==> Repetido(arr, v)
  {
    DuplicadosRepetidos(arr, |arr|);
    if Repetido(arr, v) {
      var i, j :| 0 <= i < j < |arr| && arr[i] == v && arr[j] == v;
      RepeticionContenida(arr, i, j, |arr|);
      DuplicadoContenido(arr, i, |arr|);
    }
  }

  /** With no two equal elements nothing is written, and the result is all zeros. */
  lemma SinRepetidosCeros(arr: seq<real>)
    requires |arr| == 5
    requires forall i, j :: 0 <= i < j < |arr| ==> arr[i] != arr[j]
    ensures Duplicados(arr, |arr|) == []
    ensures Relleno(Duplicados(arr, |arr|)) == [0.0, 0.0, 0.0, 0.0, 0.0]
  {
    var d := Duplicados(arr, |arr|);
    if |d| > 0 {
      DuplicadosSiiRepetido(arr, d[0]);
      assert false;
    }
  }

  /**
   * One equal pair writes its value once. Five equal values make ten pairs,
   * so `dup_vals` panics on them.
   */
  lemma EjemplosDupVals()
    ensures Relleno(Duplicados([1.1, 2.2, 1.1, 3.3, 4.4], 5)) == [1.1, 0.0, 0.0, 0.0, 0.0]
    ensures |Duplicados([1.1, 1.1, 1.1, 1.1, 1.1], 5)| == 10
  {
    var a := [1.1, 2.2, 1.1, 3.3, 4.4];
    assert Repeticiones(a, 0, 5) == [1.1];
    assert Repeticiones(a, 1, 5) == [];
    assert Repeticiones(a, 2, 5) == [];
    assert Repeticiones(a, 3, 5) == [];
    assert Repeticiones(a, 4, 5) == [];
    var b := [1.1, 1.1, 1.1, 1.1, 1.1];
    assert |Repeticiones(b, 0, 5)| == 4;
    assert |Repeticiones(b, 1, 5)| == 3;
    assert |Repeticiones(b, 2, 5)| == 2;
    assert |Repeticiones(b, 3, 5)| == 1;
  }

  // ---------------------------------------------------------------------
  // ej06: longitud_de_cadenas

  /** Bytes taken by `c` in UTF-8. */
  function BytesUtf8(c: char): (r: nat)
    ensures 1 <= r <= 4
    ensures r == 1 <==> (c as int) < 0x80
  {
    if (c as int) < 0x80 then 1
    else if (c as int) < 0x800 then 2
    else if (c as int) < 0x1_0000 then 3
    else 4
  }

  /** `String::len`: the length of the UTF-8 encoding, in bytes. */
  function Largo(s: string): (r: nat)
    ensures |s| <= r <= 4 * |s|
    ensures r == 0 <==> |s| == 0
  {
    if |s| == 0 then 0 else Largo(s[..|s| - 1]) + BytesUtf8(s[|s| - 1])
  }

  /** An ASCII string has one byte per character. */
  lemma {:induction false} LargoAscii(s: string)
    requires forall k :: 0 <= k < |s| ==> (s[k] as int) < 0x80
    ensures Largo(s) == |s|
    decreases |s|
  {
    if |s| > 0 {
      LargoAscii(s[..|s| - 1]);
    }
  }

  /** `longitud_de_cadenas`: an index loop pushing the byte length of each string. */
  method LongitudDeCadenas(arr: seq<string>) returns (longs: seq<nat>)
    ensures |longs| == |arr|
    ensures forall i :: 0 <= i < |arr| ==> longs[i] == Largo(arr[i])
  {
    longs := [];
    for i := 0 to |arr|
      invariant |longs| == i
      invariant forall k :: 0 <= k < i ==> longs[k] == Largo(arr[k])
    {
      longs := longs + [Largo(arr[i])];
    }
  }

  lemma EjemplosLongitud()
    ensures Largo("hola") == 4 && Largo("mundo") == 5 && Largo("rust") == 4
    ensures Largo("") == 0 && Largo("a") == 1 && Largo("ab") == 2
    ensures Largo("ñ") == 2
  {
    LargoAscii("hola");
    LargoAscii("mundo");
    LargoAscii("rust");
    LargoAscii("ab");
  }

  // ---------------------------------------------------------------------
  // ej07: cantidad_de_mayores

  /** How many elements are strictly greater than `limite`. */
  function Mayores(arr: seq<u64>, limite: u64): nat {
    Seqs.Count(arr, (x: u64) => x > limite)
  }

  /** `cantidad_de_mayores`: a counter raised for each element above the limit. */
  method CantidadDeMayores(arr: seq<u64>, limite: u64) returns (cant: u64)
    requires |arr| < LimiteU64
    ensures cant as int == Mayores(arr, limite)
  {
    cant := 0;
    for i := 0 to |arr|
      invariant cant as int == Mayores(arr[..i], limite)
    {
      Seqs.CountSnoc(arr[..i], arr[i], (x: u64) => x > limite);
      assert arr[..i + 1] == arr[..i] + [arr[i]];
      if arr[i] > limite {
        cant := cant + 1;
      }
    }
    assert arr[..|arr|] == arr;
  }

  /**
   * A higher limit never counts more; no element is above the maximum of
   * the slice, and every element is above a limit below the minimum.
   */
  lemma MayoresAntitono(arr: seq<u64>, a: u64, b: u64)
    requires a <= b
    ensures Mayores(arr, b) <= Mayores(arr, a)
    ensures (forall j :: 0 <= j < |arr| ==> arr[j] <= b) ==> Mayores(arr, b) == 0
    ensures (forall j :: 0 <= j < |arr| ==> arr[j] > a) ==> Mayores(arr, a) == |arr|
  {
    Seqs.CountMonotone(arr, (x: u64) => x > a, (x: u64) => x > b);
  }

  lemma EjemplosMayores()
    ensures Mayores([1, 5, 10, 15, 20], 10) == 2
    ensures Mayores([1, 5, 10, 15, 20], 0) == 5
    ensures Mayores([1, 5, 10, 15, 20], 20) == 0
    ensures Mayores([], 5) == 0
  {
    var a: seq<u64> := [1, 5, 10, 15, 20];
    assert a[..4] == [1, 5, 10, 15];
    assert [1, 5, 10, 15][..3] == [1, 5, 10];
    assert [1, 5, 10][..2] == [1, 5];
    assert [1, 5][..1] == [1];
    assert [1][..0] == [];
  }

  // ---------------------------------------------------------------------
  // ej08: sumar_arreglos

  /** Element-wise sums over the length of `a`; elements of `b` past it are ignored. */
  function Sumas(a: seq<real>, b: seq<real>): (r: seq<real>)
    requires |b| >= |a|
    ensures |r| == |a|
    ensures forall i :: 0 <= i < |a| ==> r[i] == a[i] + b[i]
  {
    if |a| == 0 then [] else Sumas(a[..|a| - 1], b) + [a[|a| - 1] + b[|a| - 1]]
  }

  /**
   * `sumar_arreglos`: an index loop over `arr1` pushing `arr1[i] + arr2[i]`.
   * Indexing a shorter `arr2` panics.
   */
  method SumarArreglos(arr1: seq<real>, arr2: seq<real>) returns (sums: seq<real>)
    requires |arr2| >= |arr1|
    ensures sums == Sumas(arr1, arr2)
  {
    sums := [];
    for i := 0 to |arr1|
      invariant sums == Sumas(arr1[..i], arr2)
    {
      assert arr1[..i + 1][..i] == arr1[..i];
      sums := sums + [arr1[i] + arr2[i]];
    }
    assert arr1[..|arr1|] == arr1;
  }

  /** Equal lengths make the sum symmetric, and the surplus of `arr2` plays no part. */
  lemma SumasPropiedades(a: seq<real>, b: seq<real>)
    requires |b| >= |a|
    ensures |b| == |a| ==> Sumas(a, b) == Sumas(b, a)
    ensures Sumas(a, b) == Sumas(a, b[..|a|])
    ensures Sumas(a, seq(|a|, _ => 0.0)) == a
  {
  }

  lemma EjemplosSumas()
    ensures Sumas([1.0, 2.0, 3.0], [4.0, 5.0, 6.0]) == [5.0, 7.0, 9.0]
    ensures Sumas([0.5, 1.5, 2.5], [0.5, 0.5, 0.5]) == [1.0, 2.0, 3.0]
    ensures Sumas([], []) == []
  {
  }

  // ---------------------------------------------------------------------
  // ej09: cantidad_en_rango

  /** How many elements lie in `inf..=sup`. */
  function EnRango(arr: seq<u64>, inf: u64, sup: u64): nat {
    Seqs.Count(arr, (x: u64) => inf <= x <= sup)
  }

  /** `cantidad_en_rango`: a counter raised for each element within both bounds. */
  method CantidadEnRango(arr: seq<u64>, inf: u64, sup: u64) returns (cant: u64)
    requires |arr| < LimiteU64
    ensures cant as int == EnRango(arr, inf, sup)
  {
    cant := 0;
    for i := 0 to |arr|
      invariant cant as int == EnRango(arr[..i], inf, sup)
    {
      Seqs.CountSnoc(arr[..i], arr[i], (x: u64) => inf <= x <= sup);
      assert arr[..i + 1] == arr[..i] + [arr[i]];
      if arr[i] >= inf && arr[i] <= sup {
        cant := cant + 1;
      }
    }
    assert arr[..|arr|] == arr;
  }

  /**
   * An empty range counts nothing. Otherwise the elements from `inf` up
   * are those in range plus those above `sup`.
   */
  lemma EnRangoPropiedades(arr: seq<u64>, inf: u64, sup: u64)
    ensures inf > sup ==> EnRango(arr, inf, sup) == 0
    ensures inf <= sup ==>
      Seqs.Count(arr, (x: u64) => x >= inf) == EnRango(arr, inf, sup) + Mayores(arr, sup)
  {
    if inf <= sup {
      Seqs.CountSplit(arr, (x: u64) => x >= inf, (x: u64) => inf <= x <= sup, (x: u64) => x > sup);
    }
  }

  lemma EjemplosEnRango()
    ensures EnRango([1, 5, 10, 15, 20], 5, 15) == 3
    ensures EnRango([1, 5, 10, 15, 20], 0, 100) == 5
    ensures EnRango([1, 5, 10, 15, 20], 50, 100) == 0
    ensures EnRango([], 1, 10) == 0
  {
    var a: seq<u64> := [1, 5, 10, 15, 20];
    assert a[..4] == [1, 5, 10, 15];
    assert [1, 5, 10, 15][..3] == [1, 5, 10];
    assert [1, 5, 10][..2] == [1, 5];
    assert [1, 5][..1] == [1];
    assert [1][..0] == [];
  }

  // ---------------------------------------------------------------------
  // ej10: cantidad_de_cadenas_mayor_a

  /** How many strings are longer than `lim` bytes. */
  function CadenasMayorA(arr: seq<string>, lim: nat): nat {
    Seqs.Count(arr, (s: string) => Largo(s) > lim)
  }

  /** `cantidad_de_cadenas_mayor_a`: a counter raised for each string longer than the limit. */
  method CantidadDeCadenasMayorA(arr: seq<string>, lim: nat) returns (cant: u64)
    requires |arr| < LimiteU64
    ensures cant as int == CadenasMayorA(arr, lim)
  {
    cant := 0;
    for i := 0 to |arr|
      invariant cant as int == CadenasMayorA(arr[..i], lim)
    {
      CadenasMayorAAgrega(arr[..i], arr[i], lim);
      assert arr[..i + 1] == arr[..i] + [arr[i]];
      if Largo(arr[i]) > lim {
        cant := cant + 1;
      }
    }
    assert arr[..|arr|] == arr;
  }

  lemma CadenasMayorAAgrega(arr: seq<string>, x: string, lim: nat)
    ensures CadenasMayorA(arr + [x], lim) == CadenasMayorA(arr, lim) + if Largo(x) > lim then 1 else 0
  {
    Seqs.CountSnoc(arr, x, (s: string) => Largo(s) > lim);
  }

  /** With limit 0 exactly the non-empty strings count. */
  lemma CadenasMayorACero(arr: seq<string>)
    ensures CadenasMayorA(arr, 0) == Seqs.Count(arr, (s: string) => |s| > 0)
  {
    Seqs.CountMonotone(arr, (s: string) => Largo(s) > 0, (s: string) => |s| > 0);
    Seqs.CountMonotone(arr, (s: string) => |s| > 0, (s: string) => Largo(s) > 0);
  }

  lemma EjemplosCadenas()
    ensures CadenasMayorA(["a", "abc", "abcde"], 2) == 2
    ensures CadenasMayorA(["a", "abc", "abcde"], 0) == 3
    ensures CadenasMayorA(["a", "abc", "abcde"], 5) == 0
    ensures CadenasMayorA([], 3) == 0
  {
    LargoAscii("a");
    LargoAscii("abc");
    LargoAscii("abcde");
    var a: seq<string> := ["a", "abc", "abcde"];
    assert a[..2][..1][..0] == [];
    assert a[..2][..1] == ["a"];
    assert a[..2] == ["a", "abc"];
  }

  // ---------------------------------------------------------------------
  // ej11: multiplicar_valores

  /** No element times `factor` leaves the `u64` range. */
  predicate SinDesborde(s: seq<u64>, factor: u64) {
    forall k :: 0 <= k < |s| ==> s[k] as int * factor as int < LimiteU64
  }

  /** Every element multiplied by `factor`. */
  function Multiplicados(s: seq<u64>, factor: u64): (r: seq<u64>)
    requires SinDesborde(s, factor)
    ensures |r| == |s|
  {
    seq(|s|, k requires 0 <= k < |s| && SinDesborde(s, factor) => (s[k] as int * factor as int) as u64)
  }

  /**
   * `multiplicar_valores`: each slot is overwritten with itself times
   * `factor`. An overflowing product panics, hence the requirement.
   */
  method MultiplicarValores(arr: array<u64>, factor: u64)
    requires SinDesborde(arr[..], factor)
    modifies arr
    ensures arr[..] == Multiplicados(old(arr[..]), factor)
  {
    for i := 0 to arr.Length
      invariant forall k :: 0 <= k < i ==> arr[k] as int == old(arr[k]) as int * factor as int
      invariant forall k :: i <= k < arr.Length ==> arr[k] == old(arr[k])
    {
      assert arr[i] == arr[..][i];
      arr[i] := arr[i] * factor;
    }
  }

  /**
   * Factor 1 changes nothing, factor 0 zeroes every slot, and two calls
   * multiply by the product of the factors.
   */
  lemma MultiplicadosPropiedades(s: seq<u64>, a: u64, b: u64)
    requires SinDesborde(s, a)
    ensures SinDesborde(s, 1) && Multiplicados(s, 1) == s
    ensures SinDesborde(s, 0) && Multiplicados(s, 0) == seq(|s|, _ => 0)
    ensures a as int * b as int < LimiteU64 && SinDesborde(Multiplicados(s, a), b) ==>
      SinDesborde(s, (a as int * b as int) as u64)
      && Multiplicados(Multiplicados(s, a), b) == Multiplicados(s, (a as int * b as int) as u64)
  {
    if a as int * b as int < LimiteU64 && SinDesborde(Multiplicados(s, a), b) {
      var ab := (a as int * b as int) as u64;
      forall k | 0 <= k < |s|
        ensures s[k] as int * ab as int == Multiplicados(s, a)[k] as int * b as int
      {
        assert s[k] as int * ab as int == (s[k] as int * a as int) * b as int;
      }
    }
  }

  lemma EjemplosMultiplicar()
    ensures Multiplicados([1, 2, 3], 2) == [2, 4, 6]
    ensures Multiplicados([5, 10, 15], 0) == [0, 0, 0]
    ensures Multiplicados([], 10) == []
  {
  }

  // ---------------------------------------------------------------------
  // ej12: reemplazar_pares

  /**
   * Every even element replaced by -1. Rust's `%` truncates where Dafny's
   * does not, but both give 0 exactly on the even numbers, negative or not.
   */
  function SinPares(s: seq<i64>): (r: seq<i64>)
    ensures |r| == |s|
  {
    seq(|s|, k requires 0 <= k < |s| => if s[k] % 2 == 0 then -1 else s[k])
  }

  /** `reemplazar_pares`: each even slot is overwritten with -1, the others are left alone. */
  method ReemplazarPares(arr: array<i64>)
    modifies arr
    ensures arr[..] == SinPares(old(arr[..]))
  {
    for i := 0 to arr.Length
      invariant forall k :: 0 <= k < i ==> arr[k] == if old(arr[k]) % 2 == 0 then -1 else old(arr[k])
      invariant forall k :: i <= k < arr.Length ==> arr[k] == old(arr[k])
    {
      if arr[i] % 2 == 0 {
        arr[i] := -1;
      }
    }
  }

  /**
   * Afterwards no element is even; odd elements are kept in place; and a
   * second pass changes nothing, since -1 is odd.
   */
  lemma SinParesPropiedades(s: seq<i64>)
    ensures forall k :: 0 <= k < |s| ==> SinPares(s)[k] % 2 != 0
    ensures forall k :: 0 <= k < |s| && s[k] % 2 != 0 ==> SinPares(s)[k] == s[k]
    ensures forall k :: 0 <= k < |s| && s[k] % 2 == 0 ==> SinPares(s)[k] == -1
    ensures SinPares(SinPares(s)) == SinPares(s)
  {
  }

  lemma EjemplosReemplazar()
    ensures SinPares([1, 2, 3, 4, 5]) == [1, -1, 3, -1, 5]
    ensures SinPares([2, 4, 6]) == [-1, -1, -1]
    ensures SinPares([1, 3, 5]) == [1, 3, 5]
    ensures SinPares([]) == []
  {
  }
}
