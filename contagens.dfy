/** The four tallies the analyzers compute from the history of draws, defined once as
    multisets (what is being counted), together with the counting loops that both analyzers
    run to fill their dictionaries and the max-normalisation that turns a tally into scores
    in [0, 1]. */
module Contagens {
  import opened Loteria

  // ---------------------------------------------------------------- what is counted

  /** Every number drawn, with multiplicity. */
  function Sorteadas(cs: seq<Concurso>): (m: multiset<int>)
    ensures |m| == TamanhoJogo * |cs|
    ensures forall d :: d in m ==> NoUniverso(d)
  {
    if cs == [] then multiset{} else Sorteadas(cs[..|cs| - 1]) + multiset(cs[|cs| - 1].dezenas)
  }

  /** How many draws list `d`. */
  function Listam(cs: seq<Concurso>, d: int): nat
  {
    if cs == [] then 0 else Listam(cs[..|cs| - 1], d) + (if d in cs[|cs| - 1].dezenas then 1 else 0)
  }

  /** The pairs `(x, y)` for `y` in `b`, in order. */
  function LinhaDe(x: int, b: seq<int>): (m: multiset<(int, int)>)
    ensures |m| == |b|
    ensures forall p :: p in m ==> p.0 == x && p.1 in b
  {
    if b == [] then multiset{} else LinhaDe(x, b[..|b| - 1]) + multiset{(x, b[|b| - 1])}
  }

  /** The pairs `(x, y)` for `x` in `a` and `y` in `b`. */
  function Produto(a: seq<int>, b: seq<int>): (m: multiset<(int, int)>)
    ensures forall p :: p in m ==> p.0 in a && p.1 in b
  {
    if a == [] then multiset{} else Produto(a[..|a| - 1], b) + LinhaDe(a[|a| - 1], b)
  }

  lemma {:induction false} ProdutoTamanho(a: seq<int>, b: seq<int>)
    ensures |Produto(a, b)| == |a| * |b|
  {
    if a != [] {
      ProdutoTamanho(a[..|a| - 1], b);
      assert (|a| - 1) * |b| + |b| == |a| * |b|;
    }
  }

  /** The "Markov" transitions: for each pair of consecutive draws, every number of the
      earlier one paired with every number of the later one. */
  function Transicoes(cs: seq<Concurso>): (m: multiset<(int, int)>)
    ensures forall p :: p in m ==> NoUniverso(p.0) && NoUniverso(p.1)
  {
    if |cs| < 2 then multiset{}
    else Transicoes(cs[..|cs| - 1]) + Produto(cs[|cs| - 2].dezenas, cs[|cs| - 1].dezenas)
  }

  /** How many consecutive pairs of draws have `x` in the earlier and `y` in the later. */
  function Seguidas(cs: seq<Concurso>, x: int, y: int): nat
  {
    if |cs| < 2 then 0
    else Seguidas(cs[..|cs| - 1], x, y) +
         (if x in cs[|cs| - 2].dezenas && y in cs[|cs| - 1].dezenas then 1 else 0)
  }

  /** The pairs `(s[k], s[j])` for `k < i` and `k < j`. */
  function ParesAte(s: seq<int>, i: nat): multiset<(int, int)>
    requires i <= |s|
  {
    if i == 0 then multiset{} else ParesAte(s, i - 1) + LinhaDe(s[i - 1], s[i..])
  }

  /** The pairs of positions `i < j` of `s`. */
  function ParesDe(s: seq<int>): multiset<(int, int)>
  {
    ParesAte(s, |s|)
  }

  /** The co-occurrence pairs: every pair of numbers of each draw, the smaller first. */
  function Coocorrencias(cs: seq<Concurso>): multiset<(int, int)>
  {
    if cs == [] then multiset{}
    else Coocorrencias(cs[..|cs| - 1]) + ParesDe(Ordenar(cs[|cs| - 1].dezenas))
  }

  /** How many draws hold both `a` and `b`. */
  function Juntas(cs: seq<Concurso>, a: int, b: int): nat
  {
    if cs == [] then 0
    else Juntas(cs[..|cs| - 1], a, b) +
         (if a in cs[|cs| - 1].dezenas && b in cs[|cs| - 1].dezenas then 1 else 0)
  }

  /** The delay of `d`: how many of the latest draws, counted back from the last, miss it. */
  function Atraso(cs: seq<Concurso>, d: int): (r: nat)
    ensures r <= |cs|
    ensures r == 0 <==> cs == [] || d in cs[|cs| - 1].dezenas
  {
    if cs == [] || d in cs[|cs| - 1].dezenas then 0 else 1 + Atraso(cs[..|cs| - 1], d)
  }

  // ---------------------------------------------------------------- facts about the tallies

  /** A non-empty list is its prefix plus its last element, which the prefix lacks when the
      list has no repetitions. */
  lemma UltimoSeparado(a: seq<int>)
    requires a != []
    ensures forall y :: y in a <==> y in a[..|a| - 1] || y == a[|a| - 1]
    ensures Distintos(a) ==> Distintos(a[..|a| - 1]) && a[|a| - 1] !in a[..|a| - 1]
  {
    assert a == a[..|a| - 1] + [a[|a| - 1]];
  }

  lemma MultisetSena(s: Sena, d: int)
    ensures multiset(s)[d] == if d in s then 1 else 0
  {
    DistintosMultiset(s);
  }

  /** The frequency of `d` is the number of draws that list it. */
  lemma {:induction false} FrequenciaConta(cs: seq<Concurso>, d: int)
    ensures Sorteadas(cs)[d] == Listam(cs, d) <= |cs|
  {
    if cs != [] {
      FrequenciaConta(cs[..|cs| - 1], d);
      MultisetSena(cs[|cs| - 1].dezenas, d);
    }
  }

  /** The frequencies over 1..60 add up to six per draw. */
  lemma FrequenciaTotal(cs: seq<Concurso>)
    ensures Soma(DezenaMin, DezenaMax + 1, x => Sorteadas(cs)[x]) == TamanhoJogo * |cs|
  {
    SomaMultiset(DezenaMin, DezenaMax + 1, Sorteadas(cs));
  }

  lemma {:induction false} LinhaConta(x: int, b: seq<int>, p: (int, int))
    requires Distintos(b)
    ensures LinhaDe(x, b)[p] == if p.0 == x && p.1 in b then 1 else 0
  {
    if b != [] {
      var c := b[..|b| - 1];
      UltimoSeparado(b);
      LinhaConta(x, c, p);
    }
  }

  /** Between two draws, each pair of an earlier and a later number is one transition. */
  lemma {:induction false} ProdutoConta(a: seq<int>, b: seq<int>, p: (int, int))
    requires Distintos(a) && Distintos(b)
    ensures Produto(a, b)[p] == if p.0 in a && p.1 in b then 1 else 0
  {
    if a != [] {
      var c, x := a[..|a| - 1], a[|a| - 1];
      UltimoSeparado(a);
      ProdutoConta(c, b, p);
      LinhaConta(x, b, p);
    }
  }

  /** The transition count of `(x, y)` is the number of consecutive pairs of draws with `x`
      in the earlier and `y` in the later. */
  lemma {:induction false} TransicoesConta(cs: seq<Concurso>, x: int, y: int)
    ensures Transicoes(cs)[(x, y)] == Seguidas(cs, x, y)
  {
    if |cs| >= 2 {
      TransicoesConta(cs[..|cs| - 1], x, y);
      ProdutoConta(cs[|cs| - 2].dezenas, cs[|cs| - 1].dezenas, (x, y));
      assert cs[..|cs| - 1][|cs| - 2] == cs[|cs| - 2];
    }
  }

  /** Each pair of consecutive draws adds 36 transitions. */
  lemma {:induction false} TransicoesTotal(cs: seq<Concurso>)
    ensures |Transicoes(cs)| == if |cs| <= 1 then 0 else TamanhoJogo * TamanhoJogo * (|cs| - 1)
  {
    if |cs| >= 2 {
      TransicoesTotal(cs[..|cs| - 1]);
      ProdutoTamanho(cs[|cs| - 2].dezenas, cs[|cs| - 1].dezenas);
    }
  }

  /** Summed over the 60 x 60 square, the transition counts give the same total. */
  lemma TransicoesSoma(cs: seq<Concurso>)
    ensures Soma2(DezenaMin, DezenaMax + 1, (a, b) => Transicoes(cs)[(a, b)]) == |Transicoes(cs)|
  {
    SomaMultisetPares(DezenaMin, DezenaMax + 1, Transicoes(cs));
  }

  /** Six numbers make 5 + 4 + 3 + 2 + 1 = 15 pairs. */
  lemma ParesDeSeis(s: seq<int>)
    requires |s| == TamanhoJogo
    ensures |ParesDe(s)| == 15
  {
    assert |ParesAte(s, 1)| == 5;
    assert |ParesAte(s, 2)| == 9;
    assert |ParesAte(s, 3)| == 12;
    assert |ParesAte(s, 4)| == 14;
    assert |ParesAte(s, 5)| == 15;
  }

  /** The pairs of a list are the pairs of its first number with the rest, then the pairs
      of the rest. */
  lemma {:induction false} ParesAteCauda(s: seq<int>, i: nat)
    requires i < |s|
    ensures ParesAte(s, i + 1) == LinhaDe(s[0], s[1..]) + ParesAte(s[1..], i)
  {
    if i > 0 {
      ParesAteCauda(s, i - 1);
      assert s[1..][i - 1] == s[i] && s[1..][i..] == s[i + 1..];
    }
  }

  /** `ParesAteCauda` over the whole list. */
  lemma ParesDeCauda(s: seq<int>)
    requires s != []
    ensures ParesDe(s) == LinhaDe(s[0], s[1..]) + ParesDe(s[1..])
  {
    var n := |s| - 1;
    ParesAteCauda(s, n);
    assert |s[1..]| == n && |s| == n + 1;
  }

  /** The first number of a strictly increasing list is smaller than all the rest, so it is
      not among them, and a number follows it in the rest exactly when it is a larger member
      of the list. */
  lemma PrimeiroMenor(s: seq<int>, y: int)
    requires s != [] && EstritamenteCrescente(s)
    ensures EstritamenteCrescente(s[1..]) && Distintos(s[1..])
    ensures y in s <==> y == s[0] || y in s[1..]
    ensures y in s[1..] <==> y in s && s[0] < y
  {
    assert s == [s[0]] + s[1..];
    if y in s[1..] {
      var j :| 0 <= j < |s| - 1 && s[1..][j] == y;
      assert s[j + 1] == y;
    }
  }

  /** On a strictly increasing list, every pair is (smaller, larger) and each pair of its
      members appears exactly once. */
  lemma {:induction false} ParesConta(s: seq<int>, p: (int, int))
    requires EstritamenteCrescente(s)
    ensures ParesDe(s)[p] == if p.0 in s && p.1 in s && p.0 < p.1 then 1 else 0
    decreases |s|
  {
    if s != [] {
      PrimeiroMenor(s, p.0);
      var resto := ParesDe(s[1..])[p];
      ParesConta(s[1..], p);
      ParesContaPasso(s, p, resto);
    }
  }

  /** One step of `ParesConta`: the first number's row adds the pair when the pair starts
      with it. */
  lemma ParesContaPasso(s: seq<int>, p: (int, int), resto: int)
    requires s != [] && EstritamenteCrescente(s)
    requires resto == ParesDe(s[1..])[p]
    requires resto == if p.0 in s[1..] && p.1 in s[1..] && p.0 < p.1 then 1 else 0
    ensures ParesDe(s)[p] == if p.0 in s && p.1 in s && p.0 < p.1 then 1 else 0
  {
    ParesDeCauda(s);
    PrimeiroMenor(s, p.0);
    PrimeiroMenor(s, p.1);
    LinhaConta(s[0], s[1..], p);
    IndicadorPasso(s[0], p.0, p.1, ParesDe(s)[p], LinhaDe(s[0], s[1..])[p], resto,
                   p.0 in s, p.1 in s, p.0 in s[1..], p.1 in s[1..]);
  }

  /** The arithmetic of one step of `ParesConta`, on the step's counts and memberships. */
  lemma IndicadorPasso(x: int, u: int, v: int, total: int, linha: int, resto: int,
                       a0: bool, a1: bool, r0: bool, r1: bool)
    requires total == linha + resto
    requires linha == (if u == x && r1 then 1 else 0)
    requires resto == (if r0 && r1 && u < v then 1 else 0)
    requires (a0 <==> u == x || r0) && (r0 <==> a0 && x < u) && (r1 <==> a1 && x < v)
    ensures total == if a0 && a1 && u < v then 1 else 0
  {
  }

  /** The co-occurrence count of `(a, b)` with `a < b` is the number of draws holding both;
      no other key is ever counted. */
  lemma {:induction false} CoocorrenciasConta(cs: seq<Concurso>, p: (int, int))
    ensures Coocorrencias(cs)[p] == if p.0 < p.1 then Juntas(cs, p.0, p.1) else 0
  {
    if cs != [] {
      CoocorrenciasConta(cs[..|cs| - 1], p);
      var s := cs[|cs| - 1].dezenas;
      OrdenarDistintos(s);
      ParesConta(Ordenar(s), p);
    }
  }

  /** Each draw adds 15 pairs, keyed (smaller, larger), both in the universe. */
  lemma {:induction false} CoocorrenciasTotal(cs: seq<Concurso>)
    ensures |Coocorrencias(cs)| == 15 * |cs|
    ensures forall p :: p in Coocorrencias(cs) ==> p.0 < p.1 && NoUniverso(p.0) && NoUniverso(p.1)
  {
    if cs != [] {
      CoocorrenciasTotal(cs[..|cs| - 1]);
      var s := cs[|cs| - 1].dezenas;
      ParesDeSeis(Ordenar(s));
      OrdenarDistintos(s);
      forall p | p in ParesDe(Ordenar(s)) ensures p.0 < p.1 && NoUniverso(p.0) && NoUniverso(p.1) {
        ParesConta(Ordenar(s), p);
      }
    }
  }

  /** A delay equals the number of draws exactly when the number was never drawn. */
  lemma {:induction false} AtrasoAusente(cs: seq<Concurso>, d: int)
    ensures Atraso(cs, d) == |cs| <==> forall i :: 0 <= i < |cs| ==> d !in cs[i].dezenas
  {
    if cs != [] {
      var t := cs[..|cs| - 1];
      AtrasoAusente(t, d);
      assert forall i :: 0 <= i < |t| ==> t[i] == cs[i];
    }
  }

  /** A set of `n` integers leaves one of 1..n+1 out. */
  lemma {:induction false} Ausente(s: set<int>, n: nat) returns (d: int)
    requires |s| <= n
    ensures 1 <= d <= n + 1 && d !in s
  {
    if n + 1 !in s {
      d := n + 1;
    } else {
      d := Ausente(s - {n + 1}, n - 1);
    }
  }

  /** After at least one draw, some number of the universe has a positive delay. */
  lemma AtrasoPositivo(cs: seq<Concurso>) returns (d: int)
    requires cs != []
    ensures NoUniverso(d) && Atraso(cs, d) >= 1
  {
    var s := cs[|cs| - 1].dezenas;
    TamanhoConjunto(s);
    d := Ausente(set x | x in s, 6);
    assert d !in s;
  }

  lemma {:induction false} TamanhoConjunto(s: seq<int>)
    ensures |set x | x in s| <= |s|
  {
    if s != [] {
      var t := s[..|s| - 1];
      TamanhoConjunto(t);
      assert (set x | x in s) == (set x | x in t) + {s[|s| - 1]};
    }
  }

  // ---------------------------------------------------------------- dictionaries of counts

  /** `m.get(k, 0)` / `m.get(k) || 0`. */
  function Get<K>(m: map<K, nat>, k: K): nat
  {
    if k in m then m[k] else 0
  }

  /** The dictionary `m` holds exactly the counts of `s`: its keys are the elements of `s`. */
  ghost predicate ContagemDe<K(!new)>(m: map<K, nat>, s: multiset<K>)
  {
    (forall k :: k in m <==> k in s) && (forall k :: k in m ==> m[k] == s[k])
  }

  /** The dictionary `m` holds the positive values of `f`, and only those. */
  ghost predicate TabelaDe(m: map<int, nat>, f: int -> nat)
  {
    (forall k :: k in m <==> f(k) > 0) && (forall k :: k in m ==> m[k] == f(k))
  }

  /** `mat.get(a, {}).get(b, 0)`: a cell of a nested dictionary of counts. */
  function Celula(mat: map<int, map<int, nat>>, a: int, b: int): nat
  {
    if a in mat then Get(mat[a], b) else 0
  }

  /** The nested dictionary `mat` holds the counts of the pairs of `s`: every cell is the
      multiplicity of its pair, and no row holds an entry of 0. */
  ghost predicate MatrizDe(mat: map<int, map<int, nat>>, s: multiset<(int, int)>)
  {
    (forall a, b :: Celula(mat, a, b) == s[(a, b)]) &&
    (forall a, b :: a in mat && b in mat[a] ==> mat[a][b] > 0)
  }

  /** `mat[a][b] += 1` on a nested dictionary whose row `a` is created on first use. */
  function MaisUmNaMatriz(mat: map<int, map<int, nat>>, a: int, b: int): (r: map<int, map<int, nat>>)
    ensures forall x, y :: Celula(r, x, y) == Celula(mat, x, y) + (if (x, y) == (a, b) then 1 else 0)
  {
    var linha := if a in mat then mat[a] else map[];
    mat[a := linha[b := Get(linha, b) + 1]]
  }

  lemma ContagemGet<K(!new)>(m: map<K, nat>, s: multiset<K>, k: K)
    requires ContagemDe(m, s)
    ensures Get(m, k) == s[k]
  {
  }

  /** `m[k] += 1` on a `defaultdict(int)`, `m.set(k, (m.get(k) || 0) + 1)` on a `Map`. */
  function MaisUm<K(!new)>(m: map<K, nat>, k: K): (r: map<K, nat>)
    ensures forall x :: Get(r, x) == Get(m, x) + (if x == k then 1 else 0)
    ensures forall x :: x in r <==> x in m || x == k
  {
    m[k := Get(m, k) + 1]
  }

  /** Incrementing keeps `m` the tally of `s` plus one `k`. */
  lemma ContagemIncrementa<K(!new)>(m: map<K, nat>, s: multiset<K>, k: K)
    requires ContagemDe(m, s)
    ensures ContagemDe(MaisUm(m, k), s + multiset{k})
  {
  }

  /** `ordem` lists the keys of `m` once each. Which order that is, is stated separately
      (`PrimeirasOcorrencias`). */
  ghost predicate OrdemDe<K(!new)>(ordem: seq<K>, m: map<K, nat>)
  {
    Distintos(ordem) && forall k :: k in ordem <==> k in m
  }

  /** A key seen for the first time goes to the end of the insertion order. */
  lemma OrdemIncrementa<K(!new)>(ordem: seq<K>, m: map<K, nat>, k: K)
    requires OrdemDe(ordem, m)
    ensures OrdemDe(if k in m then ordem else ordem + [k], MaisUm(m, k))
  {
  }

  // ---------------------------------------------------------------- insertion order

  /** The elements of `xs` once each, in the order of their first occurrence: the key order
      of a dictionary (or `Map`) into which `xs` is inserted in turn. */
  function PrimeirasOcorrencias<K(==,!new)>(xs: seq<K>): (r: seq<K>)
    ensures forall x :: x in r <==> x in xs
  {
    if xs == [] then []
    else
      var r := PrimeirasOcorrencias(xs[..|xs| - 1]);
      var x := xs[|xs| - 1];
      assert xs == xs[..|xs| - 1] + [x];
      if x in r then r else r + [x]
  }

  /** Each element is listed once. */
  lemma {:induction false} PrimeirasOcorrenciasDistintas<K(!new)>(xs: seq<K>)
    ensures Distintos(PrimeirasOcorrencias(xs))
  {
    if xs != [] {
      var ys := xs[..|xs| - 1];
      PrimeirasOcorrenciasDistintas(ys);
      PrimeirasOcorrenciasPasso(ys, xs[|xs| - 1]);
      assert xs == ys + [xs[|xs| - 1]];
    }
  }

  /** Inserting one more element appends it when it is new and changes nothing otherwise. */
  lemma PrimeirasOcorrenciasPasso<K(!new)>(xs: seq<K>, x: K)
    ensures PrimeirasOcorrencias(xs + [x]) ==
              if x in PrimeirasOcorrencias(xs) then PrimeirasOcorrencias(xs) else PrimeirasOcorrencias(xs) + [x]
  {
    assert (xs + [x])[..|xs|] == xs;
  }

  /** The position of the first occurrence of `x` in `xs`. */
  function PrimeiraPosicao<K(==,!new)>(xs: seq<K>, x: K): (i: nat)
    requires x in xs
    ensures i < |xs| && xs[i] == x && x !in xs[..i]
  {
    if xs[0] == x then 0 else
      assert xs[1..][..PrimeiraPosicao(xs[1..], x)] == xs[1..1 + PrimeiraPosicao(xs[1..], x)];
      1 + PrimeiraPosicao(xs[1..], x)
  }

  /** A position holding `x` with no `x` before it is the first position of `x`. */
  lemma PrimeiraPosicaoUnica<K(!new)>(xs: seq<K>, x: K, i: nat)
    requires i < |xs| && xs[i] == x && x !in xs[..i]
    ensures PrimeiraPosicao(xs, x) == i
  {
  }

  /** Appending to `xs` does not move the first position of an element already there. */
  lemma PrimeiraPosicaoAcrescentar<K(!new)>(xs: seq<K>, y: K, x: K)
    requires x in xs
    ensures PrimeiraPosicao(xs + [y], x) == PrimeiraPosicao(xs, x)
  {
    var i := PrimeiraPosicao(xs, x);
    assert (xs + [y])[..i] == xs[..i];
    PrimeiraPosicaoUnica(xs + [y], x, i);
  }

  /** `PrimeirasOcorrencias` lists the elements by the position of their first occurrence:
      the dictionary's iteration order is first-insertion order. */
  lemma {:induction false} PrimeirasOcorrenciasOrdem<K(!new)>(xs: seq<K>)
    ensures var r := PrimeirasOcorrencias(xs);
            forall i, j :: 0 <= i < j < |r| ==> PrimeiraPosicao(xs, r[i]) < PrimeiraPosicao(xs, r[j])
  {
    if xs != [] {
      var ys := xs[..|xs| - 1];
      var x := xs[|xs| - 1];
      assert xs == ys + [x];
      var r0 := PrimeirasOcorrencias(ys);
      var r := PrimeirasOcorrencias(xs);
      PrimeirasOcorrenciasPasso(ys, x);
      assert r == if x in r0 then r0 else r0 + [x];
      PrimeirasOcorrenciasOrdem(ys);
      forall i, j | 0 <= i < j < |r| ensures PrimeiraPosicao(xs, r[i]) < PrimeiraPosicao(xs, r[j]) {
        assert r[i] == r0[i] && r0[i] in ys;
        PrimeiraPosicaoAcrescentar(ys, x, r0[i]);
        if j < |r0| {
          assert r[j] == r0[j] && r0[j] in ys;
          PrimeiraPosicaoAcrescentar(ys, x, r0[j]);
        } else {
          assert r[j] == x && x !in ys;
          assert xs[..|ys|] == ys;
          PrimeiraPosicaoUnica(xs, x, |ys|);
        }
      }
    }
  }

  /** The pairs `(x, y)` for `y` in `b`, as a list in loop order. */
  function ListaLinha(x: int, b: seq<int>): (r: seq<(int, int)>)
    ensures |r| == |b| && forall k :: 0 <= k < |b| ==> r[k] == (x, b[k])
  {
    seq(|b|, k requires 0 <= k < |b| => (x, b[k]))
  }

  /** The pairs of `ParesAte(s, i)`, in the order the two loops visit them. */
  function ListaParesAte(s: seq<int>, i: nat): (r: seq<(int, int)>)
    requires i <= |s|
    ensures multiset(r) == ParesAte(s, i)
  {
    if i == 0 then [] else
      ListaLinhaMultiset(s[i - 1], s[i..]);
      ListaParesAte(s, i - 1) + ListaLinha(s[i - 1], s[i..])
  }

  function ListaPares(s: seq<int>): (r: seq<(int, int)>)
    ensures multiset(r) == ParesDe(s)
  {
    ListaParesAte(s, |s|)
  }

  /** Every co-occurrence pair, in the order the counting loops visit them: the same pairs
      as `Coocorrencias`, with the same multiplicities. */
  function ListaCoocorrencias(cs: seq<Concurso>): (r: seq<(int, int)>)
    ensures multiset(r) == Coocorrencias(cs)
  {
    if cs == [] then []
    else ListaCoocorrencias(cs[..|cs| - 1]) + ListaPares(Ordenar(cs[|cs| - 1].dezenas))
  }

  /** The keys of the co-occurrence dictionary in its iteration order: each pair counted at
      least once, once, in the order the loops first meet it. */
  function PrimeirosPares(cs: seq<Concurso>): (r: seq<(int, int)>)
    ensures Distintos(r)
    ensures forall p :: p in r <==> p in Coocorrencias(cs)
  {
    var l := ListaCoocorrencias(cs);
    assert forall p :: p in l <==> p in multiset(l);
    PrimeirasOcorrenciasDistintas(l);
    PrimeirasOcorrencias(l)
  }

  lemma {:induction false} ListaLinhaMultiset(x: int, b: seq<int>)
    ensures multiset(ListaLinha(x, b)) == LinhaDe(x, b)
    decreases |b|
  {
    if b != [] {
      var a := b[..|b| - 1];
      var l := ListaLinha(x, a);
      ListaLinhaMultiset(x, a);
      assert ListaLinha(x, b) == l + [(x, b[|b| - 1])];
      assert multiset(l + [(x, b[|b| - 1])]) == multiset(l) + multiset{(x, b[|b| - 1])};
    }
  }

  /** `mat[a][b] += 1` keeps `mat` the tally of `s` plus one `(a, b)`. */
  lemma MatrizIncrementa(mat: map<int, map<int, nat>>, s: multiset<(int, int)>, a: int, b: int)
    requires MatrizDe(mat, s)
    ensures MatrizDe(MaisUmNaMatriz(mat, a, b), s + multiset{(a, b)})
  {
  }

  // ---------------------------------------------------------------- max-normalisation

  /** The largest of `f(lo), ..., f(hi - 1)`, or 0 for an empty range. */
  function MaximoEm(lo: int, hi: int, f: int -> nat): (r: nat)
    ensures forall x :: lo <= x < hi ==> f(x) <= r
    decreases hi - lo
  {
    if hi <= lo then 0 else Max(MaximoEm(lo, hi - 1, f), f(hi - 1))
  }

  /** The maximum is one of the values. */
  lemma {:induction false} MaximoEmAtingido(lo: int, hi: int, f: int -> nat) returns (x: int)
    requires lo < hi
    ensures lo <= x < hi && f(x) == MaximoEm(lo, hi, f)
    decreases hi - lo
  {
    if hi - 1 == lo || MaximoEm(lo, hi - 1, f) <= f(hi - 1) {
      x := hi - 1;
    } else {
      x := MaximoEmAtingido(lo, hi - 1, f);
    }
  }

  /** A bound that is reached (or 0 with nothing above it) is the maximum. */
  lemma MaximoEmUnico(lo: int, hi: int, f: int -> nat, m: nat, w: int)
    requires forall x :: lo <= x < hi ==> f(x) <= m
    requires (lo <= w < hi && f(w) == m) || m == 0
    ensures MaximoEm(lo, hi, f) == m
  {
    if lo < hi {
      var x := MaximoEmAtingido(lo, hi, f);
    }
  }

  /** The divisor of the normalisation: the largest tally over 1..60, or 1 when every tally
      is 0 (`max(...) or 1`, `Math.max(...) || 1`). */
  function Divisor(f: int -> nat): (r: nat)
    ensures r >= 1
  {
    var m := MaximoEm(DezenaMin, DezenaMax + 1, f);
    if m == 0 then 1 else m
  }

  /** `scores` maps every number of the universe to its tally divided by the divisor. */
  ghost predicate Normalizado(scores: map<int, real>, f: int -> nat)
  {
    (forall d :: d in scores <==> NoUniverso(d)) &&
    forall d :: d in scores ==> scores[d] == f(d) as real / Divisor(f) as real
  }

  lemma Quociente(x: real, y: real, q: real)
    requires q > 0.0
    ensures x <= y <==> x / q <= y / q
    ensures x / q == 0.0 <==> x == 0.0
    ensures x / q == 1.0 <==> x == q
    ensures 0.0 <= x <= q ==> 0.0 <= x / q <= 1.0
  {
    assert x / q * q == x && y / q * q == y;
  }

  /** What a normalised score means: it lies in [0, 1], it is 0 exactly for a zero tally,
      1 exactly for a positive largest tally, and it orders the numbers as their tallies do. */
  lemma PropriedadesNormalizado(scores: map<int, real>, f: int -> nat)
    requires Normalizado(scores, f)
    ensures forall d :: d in scores ==> 0.0 <= scores[d] <= 1.0
    ensures forall d :: d in scores ==> (scores[d] == 0.0 <==> f(d) == 0)
    ensures forall d :: d in scores ==>
              (scores[d] == 1.0 <==> f(d) > 0 && forall e :: NoUniverso(e) ==> f(e) <= f(d))
    ensures forall d, e :: d in scores && e in scores ==> (scores[d] <= scores[e] <==> f(d) <= f(e))
  {
    forall d | d in scores
      ensures 0.0 <= scores[d] <= 1.0
      ensures scores[d] == 0.0 <==> f(d) == 0
      ensures scores[d] == 1.0 <==> f(d) > 0 && forall e :: NoUniverso(e) ==> f(e) <= f(d)
    {
      ScoreNormalizado(scores, f, d);
    }
    forall d, e | d in scores && e in scores ensures scores[d] <= scores[e] <==> f(d) <= f(e) {
      Quociente(f(d) as real, f(e) as real, Divisor(f) as real);
    }
  }

  /** One normalised score: in [0, 1], 0 exactly for a zero tally, 1 exactly for a positive
      largest tally. */
  lemma ScoreNormalizado(scores: map<int, real>, f: int -> nat, d: int)
    requires Normalizado(scores, f) && d in scores
    ensures 0.0 <= scores[d] <= 1.0
    ensures scores[d] == 0.0 <==> f(d) == 0
    ensures scores[d] == 1.0 <==> f(d) > 0 && forall e :: NoUniverso(e) ==> f(e) <= f(d)
  {
    DivisorMaximo(f, d);
    Quociente(f(d) as real, 0.0, Divisor(f) as real);
  }

  /** A tally of the universe is at most the divisor, and equals it exactly when it is a
      positive largest tally. */
  lemma DivisorMaximo(f: int -> nat, d: int)
    requires NoUniverso(d)
    ensures f(d) <= Divisor(f)
    ensures f(d) == Divisor(f) <==> f(d) > 0 && forall e :: NoUniverso(e) ==> f(e) <= f(d)
  {
    var x := MaximoEmAtingido(DezenaMin, DezenaMax + 1, f);
  }

  /** A dictionary of counts read as a tally over all integers (`m.get(d, 0)`). */
  function Valores(m: map<int, nat>): int -> nat
  {
    d => Get(m, d)
  }

  lemma {:induction false} MaximoEmExt(lo: int, hi: int, f: int -> nat, g: int -> nat)
    requires forall x :: lo <= x < hi ==> f(x) == g(x)
    ensures MaximoEm(lo, hi, f) == MaximoEm(lo, hi, g)
    decreases hi - lo
  {
    if lo < hi { MaximoEmExt(lo, hi - 1, f, g); }
  }

  /** Normalisation only looks at the tallies of 1..60. */
  lemma NormalizadoExt(scores: map<int, real>, f: int -> nat, g: int -> nat)
    requires forall d :: NoUniverso(d) ==> f(d) == g(d)
    requires Normalizado(scores, f)
    ensures Normalizado(scores, g)
  {
    MaximoEmExt(DezenaMin, DezenaMax + 1, f, g);
  }

  /** All-zero tallies give all-zero scores. */
  lemma NormalizadoZero(scores: map<int, real>, f: int -> nat)
    requires Normalizado(scores, f)
    requires forall d :: NoUniverso(d) ==> f(d) == 0
    ensures forall d :: d in scores ==> scores[d] == 0.0
  {
    PropriedadesNormalizado(scores, f);
  }

  // ---------------------------------------------------------------- Markov follower scores

  lemma {:induction false} SomaNaoNegativa(lo: int, hi: int, f: int -> int)
    requires forall x :: lo <= x < hi ==> f(x) >= 0
    ensures Soma(lo, hi, f) >= 0
    ensures Soma(lo, hi, f) == 0 <==> forall x :: lo <= x < hi ==> f(x) == 0
    decreases hi - lo
  {
    if lo < hi { SomaNaoNegativa(lo + 1, hi, f); }
  }

  lemma {:induction false} SomaPontoValor(lo: int, hi: int, f: int -> int, p: int, v: int)
    requires forall x :: lo <= x < hi ==> f(x) == if x == p then v else 0
    ensures Soma(lo, hi, f) == if lo <= p < hi then v else 0
    decreases hi - lo
  {
    if lo < hi { SomaPontoValor(lo + 1, hi, f, p, v); }
  }

  /** The Markov score before normalisation: over the reference numbers `refs`, how many
      transitions lead to `d`. */
  function Seguidores(cs: seq<Concurso>, refs: set<int>, d: int): nat
  {
    SomaNaoNegativa(DezenaMin, DezenaMax + 1, Parcelas(cs, refs, d));
    Soma(DezenaMin, DezenaMax + 1, Parcelas(cs, refs, d))
  }

  /** The transitions from each reference number `r` to `d`. */
  function Parcelas(cs: seq<Concurso>, refs: set<int>, d: int): int -> int
  {
    r => if r in refs then Transicoes(cs)[(r, d)] else 0
  }

  /** A number scores zero exactly when it never followed a draw holding a reference number. */
  lemma SeguidoresZero(cs: seq<Concurso>, refs: set<int>, d: int)
    ensures Seguidores(cs, refs, d) == 0 <==>
              forall r :: r in refs && NoUniverso(r) ==> Seguidas(cs, r, d) == 0
  {
    var f := Parcelas(cs, refs, d);
    SomaNaoNegativa(DezenaMin, DezenaMax + 1, f);
    forall r ensures f(r) == if r in refs then Seguidas(cs, r, d) else 0 {
      TransicoesConta(cs, r, d);
    }
    assert (forall x :: DezenaMin <= x < DezenaMax + 1 ==> f(x) == 0) <==>
           (forall r :: r in refs && NoUniverso(r) ==> Seguidas(cs, r, d) == 0);
  }

  /** With fewer than two draws there are no transitions, so every follower score is 0. */
  lemma SeguidoresSemTransicoes(cs: seq<Concurso>, refs: set<int>, d: int)
    requires |cs| <= 1
    ensures Seguidores(cs, refs, d) == 0
  {
    SeguidoresZero(cs, refs, d);
  }

  /** Only numbers of the universe follow anything. */
  lemma SeguidoresForaDoUniverso(cs: seq<Concurso>, refs: set<int>, d: int)
    requires !NoUniverso(d)
    ensures Seguidores(cs, refs, d) == 0
  {
    SeguidoresZero(cs, refs, d);
    forall r | r in refs && NoUniverso(r) ensures Seguidas(cs, r, d) == 0 {
      TransicoesConta(cs, r, d);
      assert (r, d) !in Transicoes(cs);
    }
  }

  /** Adding one reference number adds its row of the transition matrix. */
  lemma SeguidoresMais(cs: seq<Concurso>, refs: set<int>, r: int, d: int)
    requires r !in refs
    ensures Seguidores(cs, refs + {r}, d) ==
              Seguidores(cs, refs, d) + (if NoUniverso(r) then Transicoes(cs)[(r, d)] else 0)
  {
    var t := Transicoes(cs);
    var g := (x: int) => if x == r then t[(r, d)] else 0;
    SomaAdd(DezenaMin, DezenaMax + 1, Parcelas(cs, refs, d), g, Parcelas(cs, refs + {r}, d));
    SomaPontoValor(DezenaMin, DezenaMax + 1, g, r, t[(r, d)]);
  }

  // ---------------------------------------------------------------- co-occurrence scores

  /** The co-occurrence score before normalisation: the counts of the listed pairs that
      contain `d` (`scores[d1] += contagem; scores[d2] += contagem`). */
  function PontosPares(top: seq<((int, int), nat)>, d: int): nat
  {
    if top == [] then 0
    else
      var e := top[|top| - 1];
      PontosPares(top[..|top| - 1], d) + (if e.0.0 == d then e.1 else 0) + (if e.0.1 == d then e.1 else 0)
  }

  /** With positive counts, a number scores zero exactly when no listed pair contains it. */
  lemma {:induction false} PontosParesZero(top: seq<((int, int), nat)>, d: int)
    requires forall i :: 0 <= i < |top| ==> top[i].1 > 0
    ensures PontosPares(top, d) == 0 <==> forall i :: 0 <= i < |top| ==> top[i].0.0 != d && top[i].0.1 != d
  {
    if top != [] {
      var t := top[..|top| - 1];
      PontosParesZero(t, d);
      assert forall i :: 0 <= i < |t| ==> t[i] == top[i];
    }
  }

  // ---------------------------------------------------------------- the most frequent entries

  function Entradas<K>(ordem: seq<K>, m: map<K, nat>): (r: seq<(K, nat)>)
    requires forall k :: k in ordem ==> k in m
    ensures |r| == |ordem| && forall i :: 0 <= i < |r| ==> r[i] == (ordem[i], m[ordem[i]])
  {
    seq(|ordem|, i requires 0 <= i < |ordem| => (ordem[i], m[ordem[i]]))
  }

  function MenosContagem<K>(e: (K, nat)): int { -(e.1 as int) }

  /** The length of Python's `xs[:n]` for a list of length `len`. */
  function Fatia(len: nat, n: int): (r: nat)
    ensures r <= len
  {
    if n >= 0 then (if n <= len then n else len) else (if len + n >= 0 then len + n else 0)
  }

  function Chaves<K>(r: seq<(K, nat)>): (ks: seq<K>)
    ensures |ks| == |r| && forall i :: 0 <= i < |r| ==> ks[i] == r[i].0
  {
    seq(|r|, i requires 0 <= i < |r| => r[i].0)
  }

  /** `sorted(m.items(), key=lambda x: x[1], reverse=True)[:n]` and
      `Array.from(m.entries()).sort((a, b) => b[1] - a[1]).slice(0, n)`, where `ordem` is the
      dictionary's iteration order: a stable sort by decreasing count, then a prefix. */
  function MaisFrequentes<K>(ordem: seq<K>, m: map<K, nat>, n: int): seq<(K, nat)>
    requires forall k :: k in ordem ==> k in m
  {
    OrdenarPor(Entradas(ordem, m), MenosContagem)[..Fatia(|ordem|, n)]
  }

  /** Sorting the entries keeps them: each is a real entry, all are distinct, and every
      entry of the map is among them. */
  lemma EntradasOrdenadas<K>(ordem: seq<K>, m: map<K, nat>)
    requires Distintos(ordem) && forall k :: k in ordem <==> k in m
    ensures var srt := OrdenarPor(Entradas(ordem, m), MenosContagem);
            && |srt| == |ordem|
            && Distintos(srt)
            && (forall i :: 0 <= i < |srt| ==> srt[i].0 in m && srt[i].1 == m[srt[i].0])
            && (forall k :: k in m ==> (k, m[k]) in srt)
            && OrdenadoPor(srt, MenosContagem)
  {
    var e := Entradas(ordem, m);
    var srt := OrdenarPor(e, MenosContagem);
    assert Distintos(e) by {
      forall i, j | 0 <= i < j < |e| ensures e[i] != e[j] { assert e[i].0 == ordem[i]; }
    }
    DistintosSubmultiset(srt, e);
    forall i | 0 <= i < |srt| ensures srt[i].0 in m && srt[i].1 == m[srt[i].0] {
      assert srt[i] in multiset(e);
      var j :| 0 <= j < |e| && e[j] == srt[i];
    }
    forall k | k in m ensures (k, m[k]) in srt {
      var a :| 0 <= a < |ordem| && ordem[a] == k;
      assert e[a] in multiset(srt);
    }
  }

  /** An entry of a sorted list whose key is not among the first `t` keys sits at or after
      position `t`. */
  lemma ForaDoPrefixo<K>(srt: seq<(K, nat)>, t: nat, b: nat)
    requires t <= |srt| && b < |srt| && srt[b].0 !in Chaves(srt[..t])
    ensures b >= t
  {
  }

  /** The most frequent entries are real entries with distinct keys, listed by decreasing
      count, and no entry left out has a larger count than one kept. */
  lemma MaisFrequentesPropriedades<K>(ordem: seq<K>, m: map<K, nat>, n: int)
    requires Distintos(ordem) && forall k :: k in ordem <==> k in m
    ensures var r := MaisFrequentes(ordem, m, n);
            && |r| == Fatia(|ordem|, n)
            && (forall i :: 0 <= i < |r| ==> r[i].0 in m && r[i].1 == m[r[i].0])
            && Distintos(Chaves(r))
            && (forall i, j :: 0 <= i < j < |r| ==> r[i].1 >= r[j].1)
            && (forall k :: k in m && k !in Chaves(r) ==> forall i :: 0 <= i < |r| ==> m[k] <= r[i].1)
  {
    var srt := OrdenarPor(Entradas(ordem, m), MenosContagem);
    var t := Fatia(|ordem|, n);
    EntradasOrdenadas(ordem, m);
    PrefixoPropriedades(srt, t, m, MaisFrequentes(ordem, m, n));
  }

  /** What `MaisFrequentesPropriedades` states, for a prefix `r` of any sorted list of the
      entries of `m`. */
  lemma PrefixoPropriedades<K>(srt: seq<(K, nat)>, t: nat, m: map<K, nat>, r: seq<(K, nat)>)
    requires t <= |srt| && r == srt[..t]
    requires Distintos(srt) && OrdenadoPor(srt, MenosContagem)
    requires forall i :: 0 <= i < |srt| ==> srt[i].0 in m && srt[i].1 == m[srt[i].0]
    requires forall k :: k in m ==> (k, m[k]) in srt
    ensures |r| == t
    ensures forall i :: 0 <= i < |r| ==> r[i].0 in m && r[i].1 == m[r[i].0]
    ensures Distintos(Chaves(r))
    ensures forall i, j :: 0 <= i < j < |r| ==> r[i].1 >= r[j].1
    ensures forall k :: k in m && k !in Chaves(r) ==> forall i :: 0 <= i < |r| ==> m[k] <= r[i].1
  {
    PrefixoChavesDistintas(srt, t);
    PrefixoDecrescente(srt, t);
    PrefixoDomina(srt, t, m);
  }

  /** A prefix of a list of distinct entries of a map has distinct keys. */
  lemma PrefixoChavesDistintas<K>(srt: seq<(K, nat)>, t: nat)
    requires t <= |srt| && Distintos(srt)
    requires forall i, j :: 0 <= i < j < |srt| && srt[i].0 == srt[j].0 ==> srt[i].1 == srt[j].1
    ensures Distintos(Chaves(srt[..t]))
  {
    var r := srt[..t];
    forall i, j | 0 <= i < j < |r| ensures Chaves(r)[i] != Chaves(r)[j] {
      assert r[i] == srt[i] && r[j] == srt[j];
    }
  }

  /** A prefix of a list sorted by decreasing count is sorted by decreasing count. */
  lemma PrefixoDecrescente<K>(srt: seq<(K, nat)>, t: nat)
    requires t <= |srt| && OrdenadoPor(srt, MenosContagem)
    ensures forall i, j :: 0 <= i < j < |srt[..t]| ==> srt[..t][i].1 >= srt[..t][j].1
  {
    var r := srt[..t];
    forall i, j | 0 <= i < j < |r| ensures r[i].1 >= r[j].1 {
      assert MenosContagem(srt[i]) <= MenosContagem(srt[j]);
    }
  }

  /** In a list of all the entries of a map sorted by decreasing count, an entry left out of a
      prefix has a count no larger than any entry kept. */
  lemma PrefixoDomina<K>(srt: seq<(K, nat)>, t: nat, m: map<K, nat>)
    requires t <= |srt| && OrdenadoPor(srt, MenosContagem)
    requires forall k :: k in m ==> (k, m[k]) in srt
    ensures forall k :: k in m && k !in Chaves(srt[..t]) ==>
              forall i :: 0 <= i < |srt[..t]| ==> m[k] <= srt[..t][i].1
  {
    var r := srt[..t];
    forall k | k in m && k !in Chaves(r) ensures forall i :: 0 <= i < |r| ==> m[k] <= r[i].1 {
      var b :| 0 <= b < |srt| && srt[b] == (k, m[k]);
      ForaDoPrefixo(srt, t, b);
      forall i | 0 <= i < |r| ensures m[k] <= r[i].1 {
        assert MenosContagem(srt[i]) <= MenosContagem(srt[b]);
      }
    }
  }

  /** When `n` reaches the number of entries, every key is among the most frequent. */
  lemma MaisFrequentesTodas<K>(ordem: seq<K>, m: map<K, nat>, n: int)
    requires Distintos(ordem) && forall k :: k in ordem <==> k in m
    requires n >= |ordem|
    ensures forall k :: k in m ==> k in Chaves(MaisFrequentes(ordem, m, n))
  {
    var srt := OrdenarPor(Entradas(ordem, m), MenosContagem);
    EntradasOrdenadas(ordem, m);
    assert MaisFrequentes(ordem, m, n) == srt[..|srt|];
    assert srt[..|srt|] == srt;
    EntradasChaves(srt, m);
  }

  /** A list holding every entry of a map holds every key of the map among its keys. */
  lemma EntradasChaves<K>(srt: seq<(K, nat)>, m: map<K, nat>)
    requires forall k :: k in m ==> (k, m[k]) in srt
    ensures forall k :: k in m ==> k in Chaves(srt)
  {
    forall k | k in m ensures k in Chaves(srt) {
      var b :| 0 <= b < |srt| && srt[b] == (k, m[k]);
      assert Chaves(srt)[b] == k;
    }
  }

  // ---------------------------------------------------------------- ties

  /** The entries of `r` with count `c`, in their order in `r`. */
  function ComContagem<K>(r: seq<(K, nat)>, c: nat): seq<(K, nat)>
  {
    Filtro(r, MenosContagem, -(c as int))
  }

  /** Ties among the most frequent entries: the entries kept with any one count are the
      first entries with that count in the dictionary's order, still in that order. */
  lemma MaisFrequentesEmpates<K>(ordem: seq<K>, m: map<K, nat>, n: int, c: nat)
    requires forall k :: k in ordem ==> k in m
    ensures ComContagem(MaisFrequentes(ordem, m, n), c) <= ComContagem(Entradas(ordem, m), c)
  {
    var e := Entradas(ordem, m);
    var srt := OrdenarPor(e, MenosContagem);
    var v := -(c as int);
    FiltroPrefixo(srt, Fatia(|ordem|, n), MenosContagem, v);
    OrdenarPorEstavel(e, MenosContagem, v);
  }

  /** The co-occurrence dictionary as a value: its keys in iteration order and their counts. */
  ghost function ContagemPares(cs: seq<Concurso>): map<(int, int), nat>
  {
    map p | p in PrimeirosPares(cs) :: Juntas(cs, p.0, p.1)
  }

  /** A dictionary holding, for exactly the keys of `PrimeirosPares`, the number of draws
      holding both numbers, is `ContagemPares`. */
  lemma ContagemParesDe(cs: seq<Concurso>, cooc: map<(int, int), nat>)
    requires forall p :: Get(cooc, p) == if p.0 < p.1 then Juntas(cs, p.0, p.1) else 0
    requires forall p :: p in cooc <==> p in PrimeirosPares(cs)
    ensures cooc == ContagemPares(cs)
  {
    forall p | p in cooc ensures p.0 < p.1 {
      assert p in Coocorrencias(cs);
      CoocorrenciasTotal(cs);
    }
  }

  /** The delay dictionary as a value: every number of 1..60 with its delay. */
  ghost function MapaAtrasos(cs: seq<Concurso>): map<int, nat>
  {
    map d | DezenaMin <= d <= DezenaMax :: Atraso(cs, d)
  }
}
