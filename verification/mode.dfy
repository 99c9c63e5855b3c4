/**
 * "Most used" queries: a single pass that counts each key in a hash map and
 * keeps the key whose count last beat (or equalled) the running maximum.
 * Three variants appear in the source; each is proved here against a
 * characterisation that does not mention the loop: the result is a most
 * frequent key, and among the most frequent keys it is the one whose final
 * count was reached first (or last).
 */
module Mode {
  import opened Wrappers

  /** Occurrences of `x` in `s`. */
  function Veces<T(==)>(s: seq<T>, x: T): nat {
    if |s| == 0 then 0
    else Veces(s[..|s| - 1], x) + if s[|s| - 1] == x then 1 else 0
  }

  lemma VecesAgrega<T>(p: seq<T>, x: T, y: T)
    ensures Veces(p + [x], y) == Veces(p, y) + if x == y then 1 else 0
  {
    assert (p + [x])[..|p|] == p;
  }

  /** `VecesAgrega` for every key at once. */
  lemma VecesAgregaTodos<T>(p: seq<T>, x: T)
    ensures forall y :: Veces(p + [x], y) == Veces(p, y) + if x == y then 1 else 0
  {
    forall y ensures Veces(p + [x], y) == Veces(p, y) + if x == y then 1 else 0 {
      VecesAgrega(p, x, y);
    }
  }

  lemma {:induction false} VecesPositivas<T>(s: seq<T>, x: T)
    ensures Veces(s, x) >= 1 <==> x in s
    decreases |s|
  {
    if |s| > 0 {
      var n := |s| - 1;
      VecesPositivas(s[..n], x);
      assert s == s[..n] + [s[n]];
    }
  }

  /** Position in `s` of the `c`-th occurrence of `k`. */
  function Alcance<T(==)>(s: seq<T>, k: T, c: nat): (p: nat)
    requires 1 <= c <= Veces(s, k)
    ensures p < |s| && s[p] == k
    ensures Veces(s[..p + 1], k) == c
    decreases |s|
  {
    var n := |s| - 1;
    if s[n] == k && Veces(s[..n], k) == c - 1 then
      assert s[..n + 1] == s;
      n
    else
      var p := Alcance(s[..n], k, c);
      assert s[..n][..p + 1] == s[..p + 1];
      p
  }

  /** `k` occurs in `s`, and no element occurs more often. */
  predicate EsModa<T(==)>(s: seq<T>, k: T) {
    Veces(s, k) >= 1 && forall j :: 0 <= j < |s| ==> Veces(s, s[j]) <= Veces(s, k)
  }

  /** `k` is a most frequent element, and the first one to reach that count. */
  predicate PrimeraModa<T(==)>(s: seq<T>, k: T) {
    EsModa(s, k)
    && forall j :: 0 <= j < |s| && Veces(s, s[j]) == Veces(s, k) ==>
         Alcance(s, k, Veces(s, k)) <= Alcance(s, s[j], Veces(s, k))
  }

  /** `k` is a most frequent element, and the last one to reach that count. */
  predicate UltimaModa<T(==)>(s: seq<T>, k: T) {
    EsModa(s, k)
    && forall j :: 0 <= j < |s| && Veces(s, s[j]) == Veces(s, k) ==>
         Alcance(s, s[j], Veces(s, k)) <= Alcance(s, k, Veces(s, k))
  }

  /** At most one element is the first mode. */
  lemma PrimeraModaUnica<T>(s: seq<T>, a: T, b: T)
    requires PrimeraModa(s, a) && PrimeraModa(s, b)
    ensures a == b
  {
    VecesPositivas(s, a);
    VecesPositivas(s, b);
    var i :| 0 <= i < |s| && s[i] == a;
    var j :| 0 <= j < |s| && s[j] == b;
    assert Veces(s, a) == Veces(s, b);
    assert Alcance(s, a, Veces(s, a)) == Alcance(s, b, Veces(s, a));
  }

  /** At most one element is the last mode. */
  lemma UltimaModaUnica<T>(s: seq<T>, a: T, b: T)
    requires UltimaModa(s, a) && UltimaModa(s, b)
    ensures a == b
  {
    VecesPositivas(s, a);
    VecesPositivas(s, b);
    var i :| 0 <= i < |s| && s[i] == a;
    var j :| 0 <= j < |s| && s[j] == b;
    assert Veces(s, a) == Veces(s, b);
    assert Alcance(s, a, Veces(s, a)) == Alcance(s, b, Veces(s, a));
  }

  /** When one element strictly outnumbers all others, every rule picks it. */
  lemma ModaEstricta<T>(s: seq<T>, k: T)
    requires Veces(s, k) >= 1
    requires forall j :: 0 <= j < |s| && s[j] != k ==> Veces(s, s[j]) < Veces(s, k)
    ensures PrimeraModa(s, k) && UltimaModa(s, k)
  {
  }

  lemma AlcanceExtiende<T>(p: seq<T>, x: T, k: T, c: nat)
    requires 1 <= c <= Veces(p, k)
    ensures Veces(p + [x], k) >= c
    ensures Alcance(p + [x], k, c) == Alcance(p, k, c)
  {
    VecesAgrega(p, x, k);
    assert (p + [x])[..|p|] == p;
  }

  lemma AlcanceNuevo<T>(p: seq<T>, x: T)
    ensures Veces(p + [x], x) == Veces(p, x) + 1
    ensures Alcance(p + [x], x, Veces(p, x) + 1) == |p|
  {
    VecesAgrega(p, x, x);
    AlcanceUltimo(p + [x], Veces(p, x) + 1);
  }

  /** The last element of `s` is its own occurrence number `c`. */
  lemma AlcanceUltimo<T>(s: seq<T>, c: nat)
    requires |s| > 0 && 1 <= c == Veces(s, s[|s| - 1])
    ensures Alcance(s, s[|s| - 1], c) == |s| - 1
  {
  }

  /** An element whose new count exceeds the old maximum becomes the only mode. */
  lemma PasoNuevaModa<T>(p: seq<T>, x: T, m: nat)
    requires forall j :: 0 <= j < |p| ==> Veces(p, p[j]) <= m
    requires Veces(p, x) + 1 > m
    ensures Veces(p + [x], x) == Veces(p, x) + 1
    ensures PrimeraModa(p + [x], x) && UltimaModa(p + [x], x)
  {
    var s := p + [x];
    VecesAgrega(p, x, x);
    forall j | 0 <= j < |s| && s[j] != x
      ensures Veces(s, s[j]) < Veces(s, x)
    {
      assert s[j] == p[j];
      VecesAgrega(p, x, s[j]);
    }
    ModaEstricta(s, x);
  }

  /** An element that does not overtake the first mode leaves it in place. */
  lemma PasoPrimeraMisma<T>(p: seq<T>, k: T, x: T)
    requires PrimeraModa(p, k)
    requires Veces(p, x) + 1 <= Veces(p, k)
    ensures Veces(p + [x], k) == Veces(p, k)
    ensures PrimeraModa(p + [x], k)
  {
    var s := p + [x];
    var m := Veces(p, k);
    VecesAgrega(p, x, k);
    AlcanceExtiende(p, x, k, m);
    forall j | 0 <= j < |s|
      ensures Veces(s, s[j]) <= m
      ensures Veces(s, s[j]) == m ==> Alcance(s, k, m) <= Alcance(s, s[j], m)
    {
      VecesAgrega(p, x, s[j]);
      if s[j] == x {
        AlcanceNuevo(p, x);
      } else {
        assert s[j] == p[j];
        if Veces(s, s[j]) == m {
          AlcanceExtiende(p, x, s[j], m);
        }
      }
    }
  }

  /** Appending a new element to a sequence without repeats keeps it without repeats. */
  lemma PasoSinRepetir<T>(p: seq<T>, x: T)
    requires forall j :: 0 <= j < |p| ==> Veces(p, p[j]) <= 1
    requires Veces(p, x) == 0
    ensures forall j :: 0 <= j < |p| + 1 ==> Veces(p + [x], (p + [x])[j]) <= 1
  {
    var s := p + [x];
    forall j | 0 <= j < |s|
      ensures Veces(s, s[j]) <= 1
    {
      VecesAgrega(p, x, s[j]);
      if j < |p| {
        assert s[j] == p[j];
      }
    }
  }

  /** An element that ties or overtakes the maximum becomes the last mode. */
  lemma PasoUltimaNueva<T>(p: seq<T>, x: T, m: nat)
    requires forall j :: 0 <= j < |p| ==> Veces(p, p[j]) <= m
    requires Veces(p, x) + 1 >= m
    ensures Veces(p + [x], x) == Veces(p, x) + 1
    ensures UltimaModa(p + [x], x)
  {
    var s := p + [x];
    var c := Veces(p, x) + 1;
    AlcanceNuevo(p, x);
    forall j | 0 <= j < |s|
      ensures Veces(s, s[j]) <= c
      ensures Veces(s, s[j]) == c ==> Alcance(s, s[j], c) <= Alcance(s, x, c)
    {
      VecesAgrega(p, x, s[j]);
      if s[j] != x {
        assert s[j] == p[j];
      }
    }
  }

  /** An element that stays below the maximum leaves the last mode in place. */
  lemma PasoUltimaMisma<T>(p: seq<T>, k: T, x: T)
    requires UltimaModa(p, k)
    requires Veces(p, x) + 1 < Veces(p, k)
    ensures Veces(p + [x], k) == Veces(p, k)
    ensures UltimaModa(p + [x], k)
  {
    var s := p + [x];
    var m := Veces(p, k);
    VecesAgrega(p, x, k);
    AlcanceExtiende(p, x, k, m);
    forall j | 0 <= j < |s|
      ensures Veces(s, s[j]) <= m
      ensures Veces(s, s[j]) == m ==> Alcance(s, s[j], m) <= Alcance(s, k, m)
    {
      VecesAgrega(p, x, s[j]);
      if s[j] != x {
        assert s[j] == p[j];
        if Veces(s, s[j]) == m {
          AlcanceExtiende(p, x, s[j], m);
        }
      }
    }
  }

  /** The per-key counter after one more element. */
  lemma ContadorAgrega<T>(p: seq<T>, x: T, cantidades: map<T, nat>)
    requires forall y :: y in cantidades ==> cantidades[y] == Veces(p, y) >= 1
    requires forall y :: y !in cantidades ==> Veces(p, y) == 0
    ensures var c := cantidades[x := (if x in cantidades then cantidades[x] else 0) + 1];
      (forall y :: y in c ==> c[y] == Veces(p + [x], y) >= 1)
      && (forall y :: y !in c ==> Veces(p + [x], y) == 0)
  {
    forall y ensures Veces(p + [x], y) == Veces(p, y) + if x == y then 1 else 0 {
      VecesAgrega(p, x, y);
    }
  }

  /**
   * The loop with `or_insert(0)`, `+= 1` and a strict `>` against the running
   * maximum: the first key to reach the final maximum count, or None for an
   * empty input.
   */
  method ModaPrimeroEnAlcanzar<T(==)>(s: seq<T>) returns (r: Option<T>)
    ensures r.None? <==> |s| == 0
    ensures r.Some? ==> PrimeraModa(s, r.value)
  {
    var cantidades: map<T, nat> := map[];
    var maxCant: nat := 0;
    r := None;
    var i := 0;
    while i < |s|
      invariant i <= |s|
      invariant forall x :: x in cantidades ==> cantidades[x] == Veces(s[..i], x) >= 1
      invariant forall x :: x !in cantidades ==> Veces(s[..i], x) == 0
      invariant r.None? <==> i == 0
      invariant r.None? ==> maxCant == 0
      invariant r.Some? ==> maxCant == Veces(s[..i], r.value) && PrimeraModa(s[..i], r.value)
    {
      var x := s[i];
      ghost var p := s[..i];
      assert s[..i + 1] == p + [x];
      var count := (if x in cantidades then cantidades[x] else 0) + 1;
      assert count == Veces(p, x) + 1;
      cantidades := cantidades[x := count];
      if count > maxCant {
        PasoNuevaModa(p, x, maxCant);
        r := Some(x);
        maxCant := count;
      } else {
        PasoPrimeraMisma(p, r.value, x);
      }
      i := i + 1;
    }
    assert s[..i] == s;
  }

  /**
   * The loop with `or_insert(0)`, `+= 1` and `>=` against the running
   * maximum: the last key to reach the final maximum count, or None for an
   * empty input.
   */
  method ModaUltimoEnAlcanzar<T(==)>(s: seq<T>) returns (r: Option<T>)
    ensures r.None? <==> |s| == 0
    ensures r.Some? ==> UltimaModa(s, r.value)
  {
    var cantidades: map<T, nat> := map[];
    var maxCant: nat := 0;
    r := None;
    var i := 0;
    while i < |s|
      invariant i <= |s|
      invariant forall x :: x in cantidades ==> cantidades[x] == Veces(s[..i], x) >= 1
      invariant forall x :: x !in cantidades ==> Veces(s[..i], x) == 0
      invariant r.None? <==> i == 0
      invariant r.None? ==> maxCant == 0
      invariant r.Some? ==> maxCant == Veces(s[..i], r.value) && UltimaModa(s[..i], r.value)
    {
      var x := s[i];
      ghost var p := s[..i];
      assert s[..i + 1] == p + [x];
      var count := (if x in cantidades then cantidades[x] else 0) + 1;
      assert count == Veces(p, x) + 1;
      cantidades := cantidades[x := count];
      if count >= maxCant {
        PasoUltimaNueva(p, x, maxCant);
        r := Some(x);
        maxCant := count;
      } else {
        PasoUltimaMisma(p, r.value, x);
      }
      i := i + 1;
    }
    assert s[..i] == s;
  }

  /**
   * The loop with `and_modify(+1 and compare with >)` and `or_insert(1)`: a
   * key's first occurrence only inserts 1 and is never compared, so no key
   * is reported until some key occurs twice; then the first key to reach
   * the final maximum count.
   */
  method ModaPrimeroRepetido<T(==)>(s: seq<T>) returns (r: Option<T>)
    ensures r.None? <==> forall j :: 0 <= j < |s| ==> Veces(s, s[j]) <= 1
    ensures r.Some? ==> PrimeraModa(s, r.value) && Veces(s, r.value) >= 2
  {
    var cantidades: map<T, nat> := map[];
    var maxCant: nat := 0;
    r := None;
    var i := 0;
    while i < |s|
      invariant i <= |s|
      invariant forall x :: x in cantidades ==> cantidades[x] == Veces(s[..i], x) >= 1
      invariant forall x :: x !in cantidades ==> Veces(s[..i], x) == 0
      invariant r.None? ==> maxCant == 0 && forall j :: 0 <= j < i ==> Veces(s[..i], s[j]) <= 1
      invariant r.Some? ==> maxCant == Veces(s[..i], r.value) >= 2 && PrimeraModa(s[..i], r.value)
    {
      var x := s[i];
      ghost var p := s[..i];
      assert s[..i + 1] == p + [x];
      assert forall j :: 0 <= j < i ==> s[j] == p[j];
      if x in cantidades {
        var count := cantidades[x] + 1;
        assert count == Veces(p, x) + 1;
        cantidades := cantidades[x := count];
        if count > maxCant {
          PasoNuevaModa(p, x, if r.None? then 1 else maxCant);
          r := Some(x);
          maxCant := count;
        } else {
          PasoPrimeraMisma(p, r.value, x);
        }
      } else {
        cantidades := cantidades[x := 1];
        if r.Some? {
          PasoPrimeraMisma(p, r.value, x);
        } else {
          PasoSinRepetir(p, x);
        }
      }
      i := i + 1;
    }
    assert s[..i] == s;
    if r.Some? {
      VecesPositivas(s, r.value);
    }
  }
}
