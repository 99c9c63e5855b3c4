/**
 * Trial-division primality, in two copies: `is_prime` on `u64`
 * (src/tp02/ej02.rs) and `EsPrimo for i32` (src/tp04/ej01.rs), with
 * `cant_primos` counting the primes of a vector. Both reject n <= 1,
 * accept 2, reject the other even numbers, and then try the odd divisors
 * 3, 5, ... up to the floor of the square root of n.
 */
module Primos {
  import opened Enteros
  import Seqs

  /** The reference definition: at least 2, and no divisor strictly between 1 and n. */
  predicate Primo(n: int) {
    n >= 2 && forall d :: 2 <= d < n ==> n % d != 0
  }

  /** `(n as f64).sqrt() as u64`, taken as the exact floor of the square root. */
  function ISqrt(n: nat): (r: nat)
    ensures r * r <= n < (r + 1) * (r + 1)
  {
    if n == 0 then 0
    else
      var s := ISqrt(n - 1);
      if (s + 1) * (s + 1) <= n then s + 1 else s
  }

  lemma MulMonotona(a: nat, b: nat)
    requires a <= b
    ensures a * a <= b * b
  {
    assert a * a <= a * b <= b * b;
  }

  /** The floor square root is the only r with r*r <= n < (r+1)*(r+1). */
  lemma ISqrtUnica(n: nat, r: nat)
    requires r * r <= n < (r + 1) * (r + 1)
    ensures ISqrt(n) == r
  {
    var s := ISqrt(n);
    if s < r {
      MulMonotona(s + 1, r);
    } else if r < s {
      MulMonotona(r + 1, s);
    }
  }

  /** No odd number in 3..lim divides n. */
  predicate SinDivisorImparHasta(n: int, lim: int) {
    forall i :: 3 <= i <= lim && i % 2 == 1 ==> n % i != 0
  }

  /** A divisor of an odd number is odd. */
  lemma DivisorDeImparEsImpar(n: nat, d: nat)
    requires n % 2 == 1 && d > 0 && n % d == 0
    ensures d % 2 == 1
  {
    var q := n / d;
    assert n == d * q;
    var h := d / 2;
    assert d == 2 * h + d % 2;
    assert n == 2 * (h * q) + (d % 2) * q;
  }

  /** A number from 3 up to the square root of n is smaller than n. */
  lemma BajoLaRaiz(n: nat, i: nat)
    requires 3 <= i <= ISqrt(n)
    ensures i < n
  {
    MulMonotona(i, ISqrt(n));
    assert i < i * i;
  }

  lemma MulCreciente(q: nat, k: nat)
    requires k >= 1
    ensures q * k >= q
  {
    assert q * k == q + q * (k - 1);
  }

  /** A multiple of q leaves remainder 0 when divided by q. */
  lemma ModDeProducto(n: nat, q: nat, d: nat)
    requires q > 0 && n == q * d
    ensures n % q == 0
  {
    var t := n / q;
    assert n == q * t + n % q;
    assert t <= d;
    assert q * (d - t) + q * t == n;
    if d - t >= 1 {
      MulCreciente(q, d - t);
    }
  }

  /** The cofactor of a proper divisor is itself a proper divisor. */
  lemma Cofactor(n: nat, d: nat) returns (q: nat)
    requires 2 <= d < n && n % d == 0
    ensures 2 <= q && n == d * q && n % q == 0
  {
    q := n / d;
    assert n == d * q;
    if q == 0 {
    } else if q == 1 {
    }
    ModDeProducto(n, q, d);
  }

  /** The smaller of two factors of n is at most the square root of n. */
  lemma FactorMenor(n: nat, e: nat, f: nat)
    requires e <= f && e * f == n
    ensures e <= ISqrt(n)
  {
    var r := ISqrt(n);
    assert e * f - e * e == e * (f - e);
    if e > r {
      MulMonotona(r + 1, e);
    }
  }

  /** A composite number has a divisor no larger than its square root. */
  lemma DivisorBajoLaRaiz(n: nat, d: nat) returns (e: nat)
    requires 2 <= d < n && n % d == 0
    ensures 2 <= e <= ISqrt(n) && n % e == 0
  {
    var q := Cofactor(n, d);
    if d <= q {
      e := d;
      FactorMenor(n, d, q);
    } else {
      e := q;
      assert q * d == n;
      FactorMenor(n, q, d);
    }
  }

  /**
   * For odd n > 2, trying the odd numbers up to the square root decides
   * primality: n is prime iff none of them divides it.
   */
  lemma CribaImpares(n: nat)
    requires n > 2 && n % 2 == 1
    ensures Primo(n) <==> SinDivisorImparHasta(n, ISqrt(n))
  {
    if Primo(n) {
      forall i | 3 <= i <= ISqrt(n) && i % 2 == 1
        ensures n % i != 0
      {
        BajoLaRaiz(n, i);
      }
    }
    if SinDivisorImparHasta(n, ISqrt(n)) && !Primo(n) {
      var d :| 2 <= d < n && n % d == 0;
      var e := DivisorBajoLaRaiz(n, d);
      DivisorDeImparEsImpar(n, e);
      assert false;
    }
  }

  /** Even numbers other than 2 are not prime. */
  lemma ParNoPrimo(n: nat)
    requires n > 2 && n % 2 == 0
    ensures !Primo(n)
  {
    assert n % 2 == 0;
  }

  /**
   * The loop shared by both copies: try 3, 5, 7, ... while the candidate is
   * at most the square root, and stop at the first that divides n.
   */
  method ProbarImpares(n: nat) returns (b: bool)
    ensures b <==> SinDivisorImparHasta(n, ISqrt(n))
  {
    var lim := ISqrt(n);
    var i := 3;
    while i <= lim
      invariant 3 <= i && i % 2 == 1
      invariant SinDivisorImparHasta(n, i - 1)
    {
      if n % i == 0 {
        return false;
      }
      i := i + 2;
    }
    return true;
  }

  /** `is_prime`: the early cases, then a loop over odd candidates with an early return. */
  method IsPrime(n: u64) returns (b: bool)
    ensures b <==> Primo(n as int)
    ensures n > 2 && n % 2 == 1 ==> (b <==> SinDivisorImparHasta(n as int, ISqrt(n as nat)))
  {
    if n <= 1 {
      return false;
    }
    if n == 2 {
      assert Primo(2);
      return true;
    }
    if n % 2 == 0 {
      ParNoPrimo(n as nat);
      return false;
    }
    CribaImpares(n as nat);
    b := ProbarImpares(n as nat);
  }

  /** `es_primo` on `i32`: negative numbers fall under the first case. */
  method EsPrimo(n: i32) returns (b: bool)
    ensures b <==> Primo(n as int)
    ensures n > 2 && n % 2 == 1 ==> (b <==> SinDivisorImparHasta(n as int, ISqrt(n as nat)))
  {
    if n <= 1 {
      return false;
    }
    if n == 2 {
      assert Primo(2);
      return true;
    }
    if n % 2 == 0 {
      ParNoPrimo(n as nat);
      return false;
    }
    CribaImpares(n as nat);
    b := ProbarImpares(n as nat);
  }

  /** `cant_primos`: how many elements are prime. */
  function CantPrimos(nums: seq<i32>): (c: nat)
    ensures c <= |nums|
    ensures c == 0 <==> forall j :: 0 <= j < |nums| ==> !Primo(nums[j] as int)
  {
    Seqs.Count(nums, (n: i32) => Primo(n as int))
  }

  lemma CantPrimosAgrega(nums: seq<i32>, x: i32)
    ensures CantPrimos(nums + [x]) == CantPrimos(nums) + if Primo(x as int) then 1 else 0
  {
    assert (nums + [x])[..|nums|] == nums;
  }

  /** Of 0..7 exactly 2, 3, 5 and 7 are prime; none of 0, 1, 4, 6 is; the empty vector has none. */
  lemma EjemploCantPrimos()
    ensures CantPrimos([0, 1, 2, 3, 4, 5, 6, 7]) == 4
    ensures CantPrimos([0, 1, 4, 6]) == 0
    ensures CantPrimos([]) == 0
  {
    assert Primo(2) && Primo(3);
    assert Primo(5) by {
      forall d | 2 <= d < 5 ensures 5 % d != 0 {
        assert d == 2 || d == 3 || d == 4;
      }
    }
    assert Primo(7) by {
      forall d | 2 <= d < 7 ensures 7 % d != 0 {
        assert d == 2 || d == 3 || d == 4 || d == 5 || d == 6;
      }
    }
    ParNoPrimo(4);
    ParNoPrimo(6);
    var s: seq<i32> := [0, 1, 2, 3, 4, 5, 6, 7];
    var k := 0;
    while k < 8
      invariant 0 <= k <= 8
      invariant CantPrimos(s[..k]) == if k <= 2 then 0 else if k <= 3 then 1 else if k <= 5 then 2 else if k <= 7 then 3 else 4
    {
      CantPrimosAgrega(s[..k], s[k]);
      assert s[..k + 1] == s[..k] + [s[k]];
      k := k + 1;
    }
    assert s[..8] == s;
    assert !Primo(0) && !Primo(1);
    var t: seq<i32> := [0, 1, 4, 6];
    assert forall j :: 0 <= j < |t| ==> !Primo(t[j] as int);
  }

  /** An odd n > 2 whose floor square root is r, with no odd divisor up to r, is prime. */
  lemma PrimoPorCriba(n: nat, r: nat)
    requires n > 2 && n % 2 == 1
    requires r * r <= n < (r + 1) * (r + 1)
    requires SinDivisorImparHasta(n, r)
    ensures Primo(n)
  {
    ISqrtUnica(n, r);
    CribaImpares(n);
  }

  /**
   * The values the tests pin: 2, 3, 5, 7, 11, 13, 17, 19 and 97 are prime;
   * 0, 1, 4, 15 and 91 = 7 * 13 are not.
   */
  lemma EjemploPrimos()
    ensures Primo(2) && Primo(3) && Primo(5) && Primo(7)
    ensures Primo(11) && Primo(13) && Primo(17) && Primo(19) && Primo(97)
    ensures !Primo(0) && !Primo(1) && !Primo(4) && !Primo(15) && !Primo(91)
  {
    PrimoPorCriba(3, 1);
    PrimoPorCriba(5, 2);
    PrimoPorCriba(7, 2);
    assert SinDivisorImparHasta(11, 3) by {
      forall i | 3 <= i <= 3 && i % 2 == 1 ensures 11 % i != 0 {
        assert i == 3;
      }
    }
    PrimoPorCriba(11, 3);
    assert SinDivisorImparHasta(13, 3) by {
      forall i | 3 <= i <= 3 && i % 2 == 1 ensures 13 % i != 0 {
        assert i == 3;
      }
    }
    PrimoPorCriba(13, 3);
    assert SinDivisorImparHasta(17, 4) by {
      forall i | 3 <= i <= 4 && i % 2 == 1 ensures 17 % i != 0 {
        assert i == 3;
      }
    }
    PrimoPorCriba(17, 4);
    assert SinDivisorImparHasta(19, 4) by {
      forall i | 3 <= i <= 4 && i % 2 == 1 ensures 19 % i != 0 {
        assert i == 3;
      }
    }
    PrimoPorCriba(19, 4);
    assert SinDivisorImparHasta(97, 9) by {
      forall i | 3 <= i <= 9 && i % 2 == 1 ensures 97 % i != 0 {
        assert i == 3 || i == 5 || i == 7 || i == 9;
      }
    }
    PrimoPorCriba(97, 9);
    assert Primo(2);
    ParNoPrimo(4);
    assert 91 % 7 == 0;
    assert 15 % 3 == 0;
  }
}
