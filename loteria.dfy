/** Vocabulary shared by the four versions of the engine: the universe of numbers 1..60,
    the game size 6, the three bands of the balance rule, the draw record, and the small
    sequence utilities (counting, stable sorting, sums over a range) they all rely on. */
module Loteria {

  const DezenaMin: int := 1
  const DezenaMax: int := 60
  const TamanhoJogo: int := 6
  /** The three equal-width bands `FAIXAS` of the Python versions. */
  const Faixas: seq<(int, int)> := [(1, 20), (21, 40), (41, 60)]

  datatype Option<+T> = None | Some(value: T)

  datatype Result<+R, +E> = Success(value: R) | Failure(error: E)

  /** What the Python versions raise, plus `SemCombustivel`: the model's stand-in for a loop
      the source keeps running forever (an unbounded loop cut short by a fuel bound). */
  datatype Falha = ValueError(mensagem: string) | ZeroDivisionError | SemCombustivel

  /** The weights of the four scoring heuristics (`pesos`); a missing Python key reads as 0. */
  datatype Pesos = Pesos(frequencia: real, markov: real, coocorrencia: real, atraso: real)

  function Min(a: int, b: int): int { if a <= b then a else b }
  function Max(a: int, b: int): int { if a >= b then a else b }

  predicate NoUniverso(d: int) { DezenaMin <= d <= DezenaMax }

  predicate Par(d: int) { d % 2 == 0 }

  predicate Distintos<T(==)>(s: seq<T>) { forall i, j :: 0 <= i < j < |s| ==> s[i] != s[j] }

  predicate Crescente(s: seq<int>) { forall i, j :: 0 <= i < j < |s| ==> s[i] <= s[j] }

  predicate EstritamenteCrescente(s: seq<int>) { forall i, j :: 0 <= i < j < |s| ==> s[i] < s[j] }

  /** A draw's numbers: six distinct numbers of the universe. */
  predicate EhSena(s: seq<int>) {
    |s| == TamanhoJogo && Distintos(s) && forall d :: d in s ==> NoUniverso(d)
  }

  type Sena = s: seq<int> | EhSena(s) witness [1, 2, 3, 4, 5, 6]

  /** One historical draw. `data` is the draw date as a day number (Python's
      `date.toordinal()`). The model assumes six distinct numbers in 1..60: the web apps'
      Excel loaders also accept a row that repeats a number, and such draws are not modelled. */
  datatype Concurso = Concurso(numero: int, data: int, dezenas: Sena)

  function DataDe(c: Concurso): int { c.data }

  // ---------------------------------------------------------------- counting

  /** How many elements of `s` satisfy `p` (`sum(1 for d in s if p(d))`, `filter(...).length`). */
  function Conta(s: seq<int>, p: int -> bool): nat
  {
    if s == [] then 0 else Conta(s[..|s| - 1], p) + (if p(s[|s| - 1]) then 1 else 0)
  }

  lemma {:induction false} ContaConcat(a: seq<int>, b: seq<int>, p: int -> bool)
    ensures Conta(a + b, p) == Conta(a, p) + Conta(b, p)
    decreases |b|
  {
    if b == [] {
      assert a + b == a;
    } else {
      assert (a + b)[..|a + b| - 1] == a + b[..|b| - 1];
      ContaConcat(a, b[..|b| - 1], p);
    }
  }

  lemma {:induction false} ContaLimite(s: seq<int>, p: int -> bool)
    ensures Conta(s, p) <= |s|
    ensures Conta(s, p) == |s| <==> forall d :: d in s ==> p(d)
    ensures Conta(s, p) == 0 <==> forall d :: d in s ==> !p(d)
    decreases |s|
  {
    if s != [] {
      var t := s[..|s| - 1];
      ContaLimite(t, p);
      assert s == t + [s[|s| - 1]];
      assert forall d :: d in s <==> d in t || d == s[|s| - 1];
    }
  }

  lemma {:induction false} ContaExt(s: seq<int>, p: int -> bool, q: int -> bool)
    requires forall d :: d in s ==> (p(d) <==> q(d))
    ensures Conta(s, p) == Conta(s, q)
    decreases |s|
  {
    if s != [] {
      var t := s[..|s| - 1];
      assert forall d :: d in t ==> d in s;
      var x := s[|s| - 1];
      assert x in s;
      assert p(x) <==> q(x);
      ContaExt(t, p, q);
    }
  }

  /** How many elements of `s` are even. */
  function QuantosPares(s: seq<int>): nat { Conta(s, Par) }

  /** On a duplicate-free sequence, counting the elements that belong to `a` gives the size
      of the intersection of its set with `a`. */
  lemma {:induction false} ContaConjunto(s: seq<int>, a: set<int>)
    requires Distintos(s)
    ensures |(set x | x in s) * a| == Conta(s, x => x in a)
    decreases |s|
  {
    if s != [] {
      var t := s[..|s| - 1];
      var y := s[|s| - 1];
      UltimoFora(s);
      ContaConjunto(t, a);
      ConjuntoUltimo(s, t, y);
      IntersecaoUltimo((set x | x in s), (set x | x in t), y, a);
    }
  }

  lemma IntersecaoUltimo(u: set<int>, v: set<int>, y: int, a: set<int>)
    requires u == v + {y} && y !in v
    ensures |u * a| == |v * a| + (if y in a then 1 else 0)
  {
    assert u * a == v * a + (if y in a then {y} else {});
  }

  /** Dropping the last element of a duplicate-free sequence leaves a duplicate-free
      sequence without it. */
  lemma UltimoFora(s: seq<int>)
    requires Distintos(s) && s != []
    ensures Distintos(s[..|s| - 1]) && s[|s| - 1] !in s[..|s| - 1]
  {
    var t := s[..|s| - 1];
    forall i, j | 0 <= i < j < |t| ensures t[i] != t[j] { assert t[i] == s[i] && t[j] == s[j]; }
    forall i | 0 <= i < |t| ensures t[i] != s[|s| - 1] { assert t[i] == s[i]; }
  }

  lemma ConjuntoUltimo(s: seq<int>, t: seq<int>, y: int)
    requires s != [] && t == s[..|s| - 1] && y == s[|s| - 1]
    ensures (set x | x in s) == (set x | x in t) + {y}
  {
    assert s == t + [y];
  }

  // ---------------------------------------------------------------- distinctness

  lemma {:induction false} DistintosMultiset<T>(s: seq<T>)
    ensures Distintos(s) <==> forall x :: multiset(s)[x] <= 1
    decreases |s|
  {
    if s != [] {
      var t := s[1..];
      assert s == [s[0]] + t;
      DistintosMultiset(t);
      if Distintos(s) {
        assert Distintos(t) by {
          forall i, j | 0 <= i < j < |t| ensures t[i] != t[j] { assert t[i] == s[i + 1] && t[j] == s[j + 1]; }
        }
        assert s[0] !in t by {
          forall k | 0 <= k < |t| ensures t[k] != s[0] { assert t[k] == s[k + 1]; }
        }
      } else {
        var i, j :| 0 <= i < j < |s| && s[i] == s[j];
        if i == 0 {
          assert s[j] == t[j - 1];
          assert multiset(s)[s[0]] == 1 + multiset(t)[s[0]];
        } else {
          assert s[i] == t[i - 1] && s[j] == t[j - 1];
          assert !Distintos(t);
          var x :| multiset(t)[x] > 1;
          assert multiset(s)[x] >= multiset(t)[x];
        }
      }
    }
  }

  /** A sub-multiset of a duplicate-free sequence is duplicate-free. */
  lemma DistintosSubmultiset<T>(a: seq<T>, b: seq<T>)
    requires multiset(a) <= multiset(b) && Distintos(b)
    ensures Distintos(a)
  {
    DistintosMultiset(a);
    DistintosMultiset(b);
  }

  lemma CrescenteDistintos(s: seq<int>)
    requires Crescente(s) && Distintos(s)
    ensures EstritamenteCrescente(s)
  {
  }

  // ---------------------------------------------------------------- stable sorting

  predicate OrdenadoPor<T>(s: seq<T>, chave: T -> int)
  {
    forall i, j :: 0 <= i < j < |s| ==> chave(s[i]) <= chave(s[j])
  }

  /** Inserts `x` before the first element whose key is not smaller: elements with equal
      keys keep their relative order, as in Python's `sorted` and JavaScript's `sort`. */
  function Inserir<T>(x: T, s: seq<T>, chave: T -> int): (r: seq<T>)
    ensures multiset(r) == multiset(s) + multiset{x}
    ensures |r| == |s| + 1
  {
    if s == [] || chave(x) <= chave(s[0]) then
      [x] + s
    else
      assert s == [s[0]] + s[1..];
      [s[0]] + Inserir(x, s[1..], chave)
  }

  /** Every key of `s` is at least `b`. */
  predicate CotaInferior<T>(s: seq<T>, b: int, chave: T -> int)
  {
    forall j :: 0 <= j < |s| ==> b <= chave(s[j])
  }

  /** Inserting into a sorted sequence keeps it sorted, and every key of the result is at
      least the smaller of the inserted key and the old first key. */
  lemma {:induction false} InserirOrdenado<T>(x: T, s: seq<T>, chave: T -> int)
    requires OrdenadoPor(s, chave)
    ensures OrdenadoPor(Inserir(x, s, chave), chave)
    ensures CotaInferior(Inserir(x, s, chave), if s == [] then chave(x) else Min(chave(x), chave(s[0])), chave)
    decreases |s|
  {
    var r := Inserir(x, s, chave);
    if s == [] || chave(x) <= chave(s[0]) {
      assert r == [x] + s;
    } else {
      var cauda := s[1..];
      var t := Inserir(x, cauda, chave);
      assert r == [s[0]] + t;
      assert OrdenadoPor(cauda, chave) by {
        forall i, j | 0 <= i < j < |cauda| ensures chave(cauda[i]) <= chave(cauda[j]) {
          assert cauda[i] == s[i + 1] && cauda[j] == s[j + 1];
        }
      }
      InserirOrdenado(x, cauda, chave);
      assert cauda != [] ==> chave(s[0]) <= chave(cauda[0]) by {
        if cauda != [] { assert cauda[0] == s[1]; }
      }
      assert CotaInferior(t, chave(s[0]), chave);
      assert OrdenadoPor(r, chave) by {
        forall i, j | 0 <= i < j < |r| ensures chave(r[i]) <= chave(r[j]) {
          assert r[j] == t[j - 1];
          if i > 0 {
            assert r[i] == t[i - 1];
          }
        }
      }
      assert CotaInferior(r, chave(s[0]), chave) by {
        forall j | 0 <= j < |r| ensures chave(s[0]) <= chave(r[j]) {
          if j > 0 {
            assert r[j] == t[j - 1];
          }
        }
      }
    }
  }

  /** A stable insertion sort by `chave` (ascending). */
  function OrdenarPor<T>(s: seq<T>, chave: T -> int): (r: seq<T>)
    ensures multiset(r) == multiset(s) && |r| == |s|
    ensures OrdenadoPor(r, chave)
  {
    if s == [] then [] else
      assert s == [s[0]] + s[1..];
      InserirOrdenado(s[0], OrdenarPor(s[1..], chave), chave);
      Inserir(s[0], OrdenarPor(s[1..], chave), chave)
  }

  function Identidade(x: int): int { x }

  /** Numeric ascending sort (`sorted(xs)`, `xs.sort((a, b) => a - b)`). */
  function Ordenar(s: seq<int>): (r: seq<int>)
    ensures multiset(r) == multiset(s) && |r| == |s|
    ensures Crescente(r)
    ensures forall x :: x in r <==> x in s
  {
    var r := OrdenarPor(s, Identidade);
    assert forall x :: x in r <==> x in s by {
      forall x ensures x in r <==> x in s { assert x in r <==> x in multiset(r); }
    }
    r
  }

  /** The first element of an ascending sequence is at most each of its elements. */
  lemma MenorPrimeiro(a: seq<int>, y: int)
    requires Crescente(a) && y in multiset(a)
    ensures a[0] <= y
  {
    var i :| 0 <= i < |a| && a[i] == y;
  }

  /** Two ascending sequences with the same elements start alike and continue with the
      same elements. */
  lemma MesmaCabeca(a: seq<int>, b: seq<int>)
    requires Crescente(a) && Crescente(b) && multiset(a) == multiset(b) && a != []
    ensures b != [] && a[0] == b[0]
    ensures Crescente(a[1..]) && Crescente(b[1..]) && multiset(a[1..]) == multiset(b[1..])
  {
    assert |multiset(a)| == |a| && |multiset(b)| == |b|;
    MenorPrimeiro(a, b[0]);
    MenorPrimeiro(b, a[0]);
    var x := a[0];
    assert a == [x] + a[1..];
    assert b == [x] + b[1..];
    assert multiset(a[1..]) == multiset(a) - multiset{x};
    assert multiset(b[1..]) == multiset(b) - multiset{x};
  }

  /** A multiset has one ascending arrangement: two ascending sequences with the same
      elements are equal. */
  lemma {:induction false} CrescenteUnica(a: seq<int>, b: seq<int>)
    requires Crescente(a) && Crescente(b) && multiset(a) == multiset(b)
    ensures a == b
    decreases |a|
  {
    if a == [] {
      assert |multiset(b)| == |b|;
    } else {
      MesmaCabeca(a, b);
      CrescenteUnica(a[1..], b[1..]);
      assert a == [a[0]] + a[1..];
      assert b == [b[0]] + b[1..];
    }
  }

  /** Every suffix of a sequence in order is in order. */
  lemma OrdenadoSufixo<T>(s: seq<T>, k: nat, chave: T -> int)
    requires OrdenadoPor(s, chave) && k <= |s|
    ensures OrdenadoPor(s[k..], chave)
  {
    var t := s[k..];
    forall i, j | 0 <= i < j < |t| ensures chave(t[i]) <= chave(t[j]) {
      assert t[i] == s[k + i] && t[j] == s[k + j];
    }
  }

  /** Sorting a sequence that is already in order leaves it as it is: the sort is stable. */
  lemma {:induction false} OrdenarOrdenado<T>(s: seq<T>, chave: T -> int)
    requires OrdenadoPor(s, chave)
    ensures OrdenarPor(s, chave) == s
  {
    if s != [] {
      var t := s[1..];
      assert OrdenadoPor(t, chave) by {
        forall i, j | 0 <= i < j < |t| ensures chave(t[i]) <= chave(t[j]) {
          assert t[i] == s[i + 1] && t[j] == s[j + 1];
        }
      }
      OrdenarOrdenado(t, chave);
      assert OrdenarPor(s, chave) == Inserir(s[0], t, chave);
      assert t == [] || chave(s[0]) <= chave(t[0]) by {
        if t != [] {
          assert t[0] == s[1];
        }
      }
      assert s == [s[0]] + t;
    }
  }

  /** The elements of `s` whose key is `v`, in their order in `s`. */
  function Filtro<T>(s: seq<T>, chave: T -> int, v: int): (r: seq<T>)
    ensures |r| <= |s|
    ensures forall i :: 0 <= i < |r| ==> chave(r[i]) == v
  {
    if s == [] then [] else (if chave(s[0]) == v then [s[0]] else []) + Filtro(s[1..], chave, v)
  }

  /** Filtering a concatenation filters each part. */
  lemma {:induction false} FiltroConcat<T>(a: seq<T>, b: seq<T>, chave: T -> int, v: int)
    ensures Filtro(a + b, chave, v) == Filtro(a, chave, v) + Filtro(b, chave, v)
  {
    if a != [] {
      var cabeca := if chave(a[0]) == v then [a[0]] else [];
      assert (a + b)[0] == a[0] && (a + b)[1..] == a[1..] + b;
      assert Filtro(a + b, chave, v) == cabeca + Filtro(a[1..] + b, chave, v);
      FiltroConcat(a[1..], b, chave, v);
      assert Filtro(a, chave, v) == cabeca + Filtro(a[1..], chave, v);
    } else {
      assert a + b == b;
    }
  }

  /** Filtering a prefix gives a prefix of the filtered sequence. */
  lemma FiltroPrefixo<T>(s: seq<T>, t: nat, chave: T -> int, v: int)
    requires t <= |s|
    ensures Filtro(s[..t], chave, v) <= Filtro(s, chave, v)
  {
    assert s == s[..t] + s[t..];
    FiltroConcat(s[..t], s[t..], chave, v);
  }

  /** Inserting `x` puts it ahead of every element with its key, and keeps the order of the
      others. */
  lemma {:induction false} FiltroInserir<T>(x: T, s: seq<T>, chave: T -> int, v: int)
    ensures Filtro(Inserir(x, s, chave), chave, v) == (if chave(x) == v then [x] else []) + Filtro(s, chave, v)
    decreases |s|
  {
    var r := Inserir(x, s, chave);
    if s == [] || chave(x) <= chave(s[0]) {
      assert r == [x] + s;
      assert r[1..] == s;
    } else {
      assert r == [s[0]] + Inserir(x, s[1..], chave);
      assert r[1..] == Inserir(x, s[1..], chave);
      FiltroInserir(x, s[1..], chave, v);
    }
  }

  /** The sort is stable: the elements of any one key come out in their input order. */
  lemma {:induction false} OrdenarPorEstavel<T>(s: seq<T>, chave: T -> int, v: int)
    ensures Filtro(OrdenarPor(s, chave), chave, v) == Filtro(s, chave, v)
  {
    if s != [] {
      OrdenarPorEstavel(s[1..], chave, v);
      FiltroInserir(s[0], OrdenarPor(s[1..], chave), chave, v);
    }
  }

  lemma OrdenarDistintos(s: seq<int>)
    requires Distintos(s)
    ensures Distintos(Ordenar(s)) && EstritamenteCrescente(Ordenar(s))
  {
    DistintosSubmultiset(Ordenar(s), s);
  }

  /** `s.splice(i, 1)`: the sequence without its element at position `i`. */
  function Remover<T>(s: seq<T>, i: nat): (r: seq<T>)
    requires i < |s|
    ensures |r| == |s| - 1
    ensures multiset(r) + multiset{s[i]} == multiset(s)
  {
    assert s == s[..i] + [s[i]] + s[i + 1..];
    s[..i] + s[i + 1..]
  }

  // ---------------------------------------------------------------- sets as lists

  /** The elements of a set as a duplicate-free list (`list(s)`; Python's iteration order is
      unspecified here, every caller sorts the result). */
  method ListaDoConjunto(s: set<int>) returns (r: seq<int>)
    ensures Distintos(r) && |r| == |s|
    ensures forall x :: x in r <==> x in s
  {
    r := [];
    var resto := s;
    while resto != {}
      invariant resto <= s
      invariant forall x :: x in r <==> x in s && x !in resto
      invariant Distintos(r) && |r| + |resto| == |s|
      decreases |resto|
    {
      if forall x :: x !in resto { assert false; }
      var x :| x in resto;
      r := r + [x];
      resto := resto - {x};
    }
  }

  /** `sorted(s)` for a set: the elements of the set, ascending, each once. */
  method Ordenado(s: set<int>) returns (r: seq<int>)
    ensures EstritamenteCrescente(r) && |r| == |s|
    ensures forall x :: x in r <==> x in s
  {
    var lista := ListaDoConjunto(s);
    OrdenarDistintos(lista);
    r := Ordenar(lista);
  }

  // ---------------------------------------------------------------- sums over a range

  /** `f(lo) + f(lo + 1) + ... + f(hi - 1)`. */
  function Soma(lo: int, hi: int, f: int -> int): int
    decreases hi - lo
  {
    if lo >= hi then 0 else f(lo) + Soma(lo + 1, hi, f)
  }

  lemma {:induction false} SomaExt(lo: int, hi: int, f: int -> int, g: int -> int)
    requires forall x :: lo <= x < hi ==> f(x) == g(x)
    ensures Soma(lo, hi, f) == Soma(lo, hi, g)
    decreases hi - lo
  {
    if lo < hi { SomaExt(lo + 1, hi, f, g); }
  }

  lemma {:induction false} SomaAdd(lo: int, hi: int, f: int -> int, g: int -> int, h: int -> int)
    requires forall x :: lo <= x < hi ==> h(x) == f(x) + g(x)
    ensures Soma(lo, hi, h) == Soma(lo, hi, f) + Soma(lo, hi, g)
    decreases hi - lo
  {
    if lo < hi { SomaAdd(lo + 1, hi, f, g, h); }
  }

  /** The sum of an indicator of the single point `p`. */
  lemma {:induction false} SomaPonto(lo: int, hi: int, f: int -> int, p: int)
    requires forall x :: lo <= x < hi ==> f(x) == if x == p then 1 else 0
    ensures Soma(lo, hi, f) == if lo <= p < hi then 1 else 0
    decreases hi - lo
  {
    if lo < hi { SomaPonto(lo + 1, hi, f, p); }
  }

  lemma {:induction false} SomaZero(lo: int, hi: int, f: int -> int)
    requires forall x :: lo <= x < hi ==> f(x) == 0
    ensures Soma(lo, hi, f) == 0
    decreases hi - lo
  {
    if lo < hi { SomaZero(lo + 1, hi, f); }
  }

  /** Summing the multiplicities of a multiset over a range that holds all its elements
      gives its size. */
  lemma {:induction false} SomaMultiset(lo: int, hi: int, m: multiset<int>)
    requires forall x :: x in m ==> lo <= x < hi
    ensures Soma(lo, hi, x => m[x]) == |m|
    decreases |m|
  {
    if |m| == 0 {
      SomaZero(lo, hi, x => m[x]);
    } else {
      if forall p :: p !in m { assert false; }
      var p :| p in m;
      var m' := m - multiset{p};
      assert m == m' + multiset{p};
      SomaMultiset(lo, hi, m');
      SomaPonto(lo, hi, x => multiset{p}[x], p);
      SomaAdd(lo, hi, x => m'[x], x => multiset{p}[x], x => m[x]);
    }
  }

  /** `f(a, lo) + ... + f(a, hi - 1)`: one row of a square sum. */
  function SomaLinha(lo: int, hi: int, f: (int, int) -> int, a: int): int
    decreases hi - lo
  {
    if lo >= hi then 0 else f(a, lo) + SomaLinha(lo + 1, hi, f, a)
  }

  /** The sum of `f(a, b)` over `a` in `[alo, hi)` and `b` in `[lo, hi)`. */
  function SomaLinhas(alo: int, lo: int, hi: int, f: (int, int) -> int): int
    decreases hi - alo
  {
    if alo >= hi then 0 else SomaLinha(lo, hi, f, alo) + SomaLinhas(alo + 1, lo, hi, f)
  }

  /** The sum of `f(a, b)` over the square `[lo, hi) x [lo, hi)`. */
  function Soma2(lo: int, hi: int, f: (int, int) -> int): int
  {
    SomaLinhas(lo, lo, hi, f)
  }

  lemma {:induction false} SomaLinhaAdd(lo: int, hi: int, f: (int, int) -> int, g: (int, int) -> int,
                                        h: (int, int) -> int, a: int)
    requires forall b :: lo <= b < hi ==> h(a, b) == f(a, b) + g(a, b)
    ensures SomaLinha(lo, hi, h, a) == SomaLinha(lo, hi, f, a) + SomaLinha(lo, hi, g, a)
    decreases hi - lo
  {
    if lo < hi { SomaLinhaAdd(lo + 1, hi, f, g, h, a); }
  }

  lemma {:induction false} SomaLinhaPonto(lo: int, hi: int, f: (int, int) -> int, a: int, p: (int, int))
    requires forall b :: lo <= b < hi ==> f(a, b) == if (a, b) == p then 1 else 0
    ensures SomaLinha(lo, hi, f, a) == if a == p.0 && lo <= p.1 < hi then 1 else 0
    decreases hi - lo
  {
    if lo < hi { SomaLinhaPonto(lo + 1, hi, f, a, p); }
  }

  lemma {:induction false} SomaLinhaExt(lo: int, hi: int, f: (int, int) -> int, g: (int, int) -> int, a: int)
    requires forall b :: lo <= b < hi ==> f(a, b) == g(a, b)
    ensures SomaLinha(lo, hi, f, a) == SomaLinha(lo, hi, g, a)
    decreases hi - lo
  {
    if lo < hi { SomaLinhaExt(lo + 1, hi, f, g, a); }
  }

  lemma {:induction false} SomaLinhasExt(alo: int, lo: int, hi: int, f: (int, int) -> int, g: (int, int) -> int)
    requires forall a, b :: alo <= a < hi && lo <= b < hi ==> f(a, b) == g(a, b)
    ensures SomaLinhas(alo, lo, hi, f) == SomaLinhas(alo, lo, hi, g)
    decreases hi - alo
  {
    if alo < hi {
      SomaLinhaExt(lo, hi, f, g, alo);
      SomaLinhasExt(alo + 1, lo, hi, f, g);
    }
  }

  lemma Soma2Ext(lo: int, hi: int, f: (int, int) -> int, g: (int, int) -> int)
    requires forall a, b :: lo <= a < hi && lo <= b < hi ==> f(a, b) == g(a, b)
    ensures Soma2(lo, hi, f) == Soma2(lo, hi, g)
  {
    SomaLinhasExt(lo, lo, hi, f, g);
  }

  lemma {:induction false} SomaLinhasAdd(alo: int, lo: int, hi: int, f: (int, int) -> int,
                                         g: (int, int) -> int, h: (int, int) -> int)
    requires forall a, b :: alo <= a < hi && lo <= b < hi ==> h(a, b) == f(a, b) + g(a, b)
    ensures SomaLinhas(alo, lo, hi, h) == SomaLinhas(alo, lo, hi, f) + SomaLinhas(alo, lo, hi, g)
    decreases hi - alo
  {
    if alo < hi {
      SomaLinhaAdd(lo, hi, f, g, h, alo);
      SomaLinhasAdd(alo + 1, lo, hi, f, g, h);
    }
  }

  lemma {:induction false} SomaLinhasPonto(alo: int, lo: int, hi: int, f: (int, int) -> int, p: (int, int))
    requires forall a, b :: alo <= a < hi && lo <= b < hi ==> f(a, b) == if (a, b) == p then 1 else 0
    ensures SomaLinhas(alo, lo, hi, f) == if alo <= p.0 < hi && lo <= p.1 < hi then 1 else 0
    decreases hi - alo
  {
    if alo < hi {
      SomaLinhaPonto(lo, hi, f, alo, p);
      SomaLinhasPonto(alo + 1, lo, hi, f, p);
    }
  }

  /** Summing the multiplicities of a multiset of pairs over a square holding all of them
      gives its size. */
  lemma {:induction false} SomaMultisetPares(lo: int, hi: int, m: multiset<(int, int)>)
    requires forall p :: p in m ==> lo <= p.0 < hi && lo <= p.1 < hi
    ensures Soma2(lo, hi, (a, b) => m[(a, b)]) == |m|
    decreases |m|
  {
    if |m| == 0 {
      SomaLinhasPonto(lo, lo, hi, (a, b) => m[(a, b)], (hi, hi));
    } else {
      if forall p :: p !in m { assert false; }
      var p :| p in m;
      var m' := m - multiset{p};
      assert m == m' + multiset{p};
      SomaMultisetPares(lo, hi, m');
      var um := multiset{p};
      SomaLinhasPonto(lo, lo, hi, (a, b) => um[(a, b)], p);
      SomaLinhasAdd(lo, lo, hi, (a, b) => m'[(a, b)], (a, b) => um[(a, b)], (a, b) => m[(a, b)]);
    }
  }

  // ---------------------------------------------------------------- bands and balance

  function FaixaDesde(d: int, idx: nat): (r: int)
    requires idx <= |Faixas|
    decreases |Faixas| - idx
  {
    if idx == |Faixas| then -1
    else if Faixas[idx].0 <= d <= Faixas[idx].1 then idx
    else FaixaDesde(d, idx + 1)
  }

  /** `_faixa`: the index of the band holding `d`, or -1 outside the universe. */
  function Faixa(d: int): (r: int)
    ensures r == -1 <==> !NoUniverso(d)
    ensures r != -1 ==> 0 <= r < |Faixas| && Faixas[r].0 <= d <= Faixas[r].1
  {
    FaixaDesde(d, 0)
  }

  /** `faixas.count(i)` for `faixas = [_faixa(d) for d in dezenas]`. */
  function ContaFaixa(dezenas: seq<int>, i: int): nat
  {
    Conta(dezenas, d => Faixa(d) == i)
  }

  function FaixasEquilibradas(dezenas: seq<int>, i: nat): bool
    requires i <= |Faixas|
    decreases |Faixas| - i
  {
    if i == |Faixas| then true
    else
      var count := ContaFaixa(dezenas, i);
      if count < 1 || count > 3 then false else FaixasEquilibradas(dezenas, i + 1)
  }

  /** `_verificar_balanceamento` of the Python versions: exactly three even numbers, and each
      of the three bands holds between one and three of the numbers. */
  function VerificarBalanceamento(dezenas: seq<int>): (ok: bool)
    ensures ok <==> QuantosPares(dezenas) == 3 &&
                    forall i :: 0 <= i < |Faixas| ==> 1 <= ContaFaixa(dezenas, i) <= 3
  {
    assert forall i :: 0 <= i <= |Faixas| ==>
      (FaixasEquilibradas(dezenas, i) <==> forall k :: i <= k < |Faixas| ==> 1 <= ContaFaixa(dezenas, k) <= 3);
    if QuantosPares(dezenas) != 3 then false else FaixasEquilibradas(dezenas, 0)
  }

  // ---------------------------------------------------------------- filtering by date

  /** The draws dated on or after `limite`, in their original order. */
  function FiltrarDesde(cs: seq<Concurso>, limite: int): (r: seq<Concurso>)
    ensures |r| <= |cs|
    ensures forall c :: c in r <==> c in cs && c.data >= limite
    ensures (forall c :: c in cs ==> c.data < limite) ==> r == []
  {
    if cs == [] then []
    else
      var resto := FiltrarDesde(cs[..|cs| - 1], limite);
      assert forall c :: c in cs <==> c in cs[..|cs| - 1] || c == cs[|cs| - 1];
      if cs[|cs| - 1].data >= limite then resto + [cs[|cs| - 1]] else resto
  }

  /** A suffix of a sequence is the same suffix of it without its last element, followed
      by that element. */
  lemma SufixoSemUltimo<T>(s: seq<T>, k: nat)
    requires k < |s|
    ensures s[k..] == s[..|s| - 1][k..] + [s[|s| - 1]]
  {
  }

  /** On draws sorted by date, the filter keeps a suffix: the most recent draws, from
      position `k` on. */
  lemma {:induction false} FiltrarDesdeSufixo(cs: seq<Concurso>, limite: int) returns (k: nat)
    requires OrdenadoPor(cs, DataDe)
    ensures k <= |cs| && FiltrarDesde(cs, limite) == cs[k..]
    decreases |cs|
  {
    if cs == [] {
      k := 0;
    } else {
      var t := cs[..|cs| - 1];
      var ultimo := cs[|cs| - 1];
      OrdenadoSemUltimo(cs);
      var kt := FiltrarDesdeSufixo(t, limite);
      if ultimo.data >= limite {
        k := kt;
        assert FiltrarDesde(cs, limite) == FiltrarDesde(t, limite) + [ultimo];
        SufixoSemUltimo(cs, k);
      } else {
        k := |cs|;
        AntigosAntes(cs, limite);
        assert cs[k..] == [];
      }
    }
  }

  lemma OrdenadoSemUltimo(cs: seq<Concurso>)
    requires OrdenadoPor(cs, DataDe) && cs != []
    ensures OrdenadoPor(cs[..|cs| - 1], DataDe)
  {
    var t := cs[..|cs| - 1];
    forall i, j | 0 <= i < j < |t| ensures DataDe(t[i]) <= DataDe(t[j]) {
      assert t[i] == cs[i] && t[j] == cs[j];
    }
  }

  /** When the latest draw is older than the limit, so is every draw. */
  lemma AntigosAntes(cs: seq<Concurso>, limite: int)
    requires OrdenadoPor(cs, DataDe) && cs != [] && cs[|cs| - 1].data < limite
    ensures FiltrarDesde(cs, limite) == []
  {
    forall c | c in cs ensures c.data < limite {
      var i :| 0 <= i < |cs| && cs[i] == c;
      assert DataDe(cs[i]) <= DataDe(cs[|cs| - 1]);
    }
  }
}
