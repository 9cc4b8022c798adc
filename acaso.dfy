/** The random sources of the engine, as oracles. `Math.random`, the seeded generator of the
    TypeScript version and Python's `random.Random` are all modelled as an arbitrary stream of
    values in [0, 1) read through a cursor: the model fixes nothing about the values, so every
    property proved about a generator holds whatever numbers the source produces.

    On top of the stream, Python's `random.sample` is modelled as `k` distinct positions
    drawn without replacement by a pool swap, and `random.choices` by cumulative weights and
    `bisect_right`. How CPython turns its generator's bits into indices is not modelled; the
    contracts hold for every stream. */
module Acaso {
  import opened Loteria

  type Unidade = r: real | 0.0 <= r < 1.0

  class Rng {
    /** The values the generator will produce, in order. */
    const fluxo: nat -> Unidade
    /** How many values have been consumed. */
    var pos: nat

    constructor (fluxo: nat -> Unidade)
      ensures this.fluxo == fluxo && pos == 0
    {
      this.fluxo := fluxo;
      pos := 0;
    }

    /** `random()` / `Math.random()` / `rng()`: the next value of the stream. */
    method Random() returns (u: real)
      modifies this
      ensures 0.0 <= u < 1.0
      ensures u == fluxo(old(pos)) && pos == old(pos) + 1
    {
      u := fluxo(pos);
      pos := pos + 1;
    }

    /** `Math.floor(rng() * n)`: an index in [0, n). Python's index draws are modelled by the
        same step. */
    method RandBelow(n: nat) returns (j: nat)
      requires n > 0
      modifies this
      ensures j < n
      ensures pos == old(pos) + 1
    {
      var u := Random();
      Limitado(u, n as real);
      j := Escalado(u, n as real).Floor;
    }

    /** `random.sample(populacao, k)`: `k` elements drawn without replacement, by a pool
        swap: draw an index below the pool size, take that element, and move the pool's last
        element into the hole. A `k` outside [0, |populacao|] raises `ValueError`. */
    method Sample(populacao: seq<int>, k: int) returns (r: Result<seq<int>, Falha>)
      modifies this
      ensures r.Failure? <==> !(0 <= k <= |populacao|)
      ensures r.Failure? ==> r.error.ValueError?
      ensures r.Success? ==> |r.value| == k && multiset(r.value) <= multiset(populacao)
    {
      var n := |populacao|;
      if !(0 <= k <= n) {
        return Failure(ValueError("Sample larger than population or is negative"));
      }
      var pool := populacao;
      var resultado: seq<int> := [];
      assert pool[..n] == populacao;
      for i := 0 to k
        invariant |pool| == n && |resultado| == i
        invariant multiset(resultado) + multiset(pool[..n - i]) == multiset(populacao)
      {
        var j := RandBelow(n - i);
        TrocaRemove(pool, j, n - i);
        resultado := resultado + [pool[j]];
        pool := pool[j := pool[n - i - 1]];
      }
      return Success(resultado);
    }

    /** `random.choices(populacao, weights=pesos, k=1)[0]`: draws `u`, scales it by the
        total weight and picks the element whose cumulative-weight interval holds it.
        CPython raises on an empty population or a non-positive total; every caller here
        passes a non-empty population with positive weights. */
    method Choices(populacao: seq<int>, pesos: seq<real>) returns (x: int, ghost u: real)
      requires |populacao| == |pesos| > 0
      requires forall i :: 0 <= i < |pesos| ==> pesos[i] >= 0.0
      requires SomaPesos(pesos) > 0.0
      modifies this
      ensures 0.0 <= u < 1.0
      ensures x == populacao[BisectRight(pesos, Escalado(u, SomaPesos(pesos)), 0, |pesos| - 1)]
      ensures pos == old(pos) + 1
    {
      var total := SomaPesos(pesos);
      var v := Random();
      u := v;
      var j := BisectRight(pesos, Escalado(v, total), 0, |pesos| - 1);
      x := populacao[j];
    }
  }

  /** Moving the last element of the live prefix `s[..m]` into position `j` removes exactly
      `s[j]` from it. */
  lemma TrocaRemove(s: seq<int>, j: nat, m: nat)
    requires j < m <= |s|
    ensures multiset(s[j := s[m - 1]][..m - 1]) + multiset{s[j]} == multiset(s[..m])
  {
    var t := s[j := s[m - 1]];
    if j < m - 1 {
      assert t[..m - 1] == s[..j] + [s[m - 1]] + s[j + 1..m - 1];
      assert s[..m] == s[..j] + [s[j]] + s[j + 1..m - 1] + [s[m - 1]];
    } else {
      assert t[..m - 1] == s[..j];
      assert s[..m] == s[..j] + [s[j]];
    }
  }

  /** `u * total`: a value of the stream scaled to the total weight. */
  function Escalado(u: real, total: real): real
  {
    u * total
  }

  /** `sum(pesos)`, accumulated left to right. */
  function SomaPesos(pesos: seq<real>): real
  {
    if pesos == [] then 0.0 else SomaPesos(pesos[..|pesos| - 1]) + pesos[|pesos| - 1]
  }

  /** `cum_weights[i]`: the total of the first `i + 1` weights. */
  function Acumulado(pesos: seq<real>, i: nat): real
    requires i < |pesos|
  {
    SomaPesos(pesos[..i + 1])
  }

  /** `bisect_right(cum_weights, x, lo, hi)`: the first position in [lo, hi) whose
      cumulative weight exceeds `x`, or `hi`. (Cumulative weights of non-negative weights are
      non-decreasing, so this is what the binary search returns.) */
  function BisectRight(pesos: seq<real>, x: real, lo: nat, hi: nat): (r: nat)
    requires lo <= hi < |pesos|
    ensures lo <= r <= hi
    ensures r < hi ==> x < Acumulado(pesos, r)
    ensures forall i :: lo <= i < r ==> Acumulado(pesos, i) <= x
    decreases hi - lo
  {
    if lo == hi then hi
    else if x < Acumulado(pesos, lo) then lo
    else BisectRight(pesos, x, lo + 1, hi)
  }

  lemma {:induction false} SomaPesosMonotona(pesos: seq<real>, a: nat, b: nat)
    requires a <= b <= |pesos|
    requires forall i :: 0 <= i < |pesos| ==> pesos[i] >= 0.0
    ensures SomaPesos(pesos[..a]) <= SomaPesos(pesos[..b])
    decreases b - a
  {
    if a < b {
      SomaPesosMonotona(pesos, a, b - 1);
      assert pesos[..b][..b - 1] == pesos[..b - 1];
    }
  }

  lemma {:induction false} SomaPesosNaoNegativa(pesos: seq<real>)
    requires forall i :: 0 <= i < |pesos| ==> pesos[i] >= 0.0
    ensures SomaPesos(pesos) >= 0.0
    decreases |pesos|
  {
    if pesos != [] { SomaPesosNaoNegativa(pesos[..|pesos| - 1]); }
  }

  /** Every element with a positive weight can be drawn: some value of the stream makes
      `choices` pick exactly position `j`. */
  lemma ChoicesAlcanca(pesos: seq<real>, j: nat) returns (u: real)
    requires j < |pesos|
    requires forall i :: 0 <= i < |pesos| ==> pesos[i] >= 0.0
    requires pesos[j] > 0.0
    ensures SomaPesos(pesos) > 0.0
    ensures 0.0 <= u < 1.0 && BisectRight(pesos, Escalado(u, SomaPesos(pesos)), 0, |pesos| - 1) == j
  {
    var total := SomaPesos(pesos);
    var antes := SomaPesos(pesos[..j]);
    AcumuladoPasso(pesos, j);
    SomaPesosMonotona(pesos, j + 1, |pesos|);
    assert pesos[..|pesos|] == pesos;
    SomaPesosNaoNegativa(pesos[..j]);
    u := antes / total;
    Escala(antes, total);
    forall i | 0 <= i < j ensures Acumulado(pesos, i) <= antes {
      SomaPesosMonotona(pesos, i + 1, j);
    }
    ghost var x := Escalado(u, SomaPesos(pesos));
    assert x == antes;
    BisectAte(pesos, x, 0, |pesos| - 1, j);
  }

  lemma AcumuladoPasso(pesos: seq<real>, j: nat)
    requires j < |pesos|
    ensures Acumulado(pesos, j) == SomaPesos(pesos[..j]) + pesos[j]
    ensures j > 0 ==> Acumulado(pesos, j - 1) == SomaPesos(pesos[..j])
  {
    assert pesos[..j + 1][..j] == pesos[..j];
  }

  lemma {:induction false} BisectAte(pesos: seq<real>, x: real, lo: nat, hi: nat, j: nat)
    requires lo <= j <= hi < |pesos|
    requires forall i :: lo <= i < j ==> Acumulado(pesos, i) <= x
    requires j < hi ==> x < Acumulado(pesos, j)
    ensures BisectRight(pesos, x, lo, hi) == j
    decreases j - lo
  {
    if lo < j { BisectAte(pesos, x, lo + 1, hi, j); }
  }

  /** `choices` never picks an element of weight zero: the drawn point lies inside the
      picked element's cumulative-weight interval, which is then non-empty. */
  lemma ChoicesPositivo(pesos: seq<real>, u: real)
    requires |pesos| > 0 && 0.0 <= u < 1.0
    requires forall i :: 0 <= i < |pesos| ==> pesos[i] >= 0.0
    requires SomaPesos(pesos) > 0.0
    ensures pesos[BisectRight(pesos, Escalado(u, SomaPesos(pesos)), 0, |pesos| - 1)] > 0.0
  {
    var total := SomaPesos(pesos);
    var x := Escalado(u, total);
    var n := |pesos|;
    var j := BisectRight(pesos, x, 0, n - 1);
    Limitado(u, total);
    assert x == Escalado(u, SomaPesos(pesos));
    AcumuladoPasso(pesos, j);
    if j == n - 1 {
      assert pesos[..j + 1] == pesos;
      assert Acumulado(pesos, j) == total;
    } else {
      assert x < Acumulado(pesos, j);
    }
    if j == 0 {
      assert pesos[..0] == [];
      assert SomaPesos(pesos[..j]) == 0.0;
      assert Acumulado(pesos, 0) == pesos[0];
      assert 0.0 <= x < pesos[0];
    } else {
      assert Acumulado(pesos, j - 1) <= x;
    }
  }

  /** `a / b` lies in [0, 1) when 0 <= a < b. */
  lemma Escala(a: real, b: real)
    requires 0.0 <= a < b
    ensures 0.0 <= a / b < 1.0 && Escalado(a / b, b) == a
  {
    assert (a / b) * b == a;
  }

  /** `u * b` lies in [0, b) when 0 <= u < 1 and b > 0. */
  lemma Limitado(u: real, b: real)
    requires 0.0 <= u < 1.0 && b > 0.0
    ensures 0.0 <= Escalado(u, b) < b
  {
    assert 0.0 <= u * b;
    assert b - u * b == (1.0 - u) * b;
    assert (1.0 - u) * b > 0.0;
  }
}
