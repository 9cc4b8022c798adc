/** The TypeScript engine (`mega-sena-next/src/lib/algoritmos.ts`): the analyzer class that
    turns the draw history into four scores normalised to [0, 1], and the generator class that
    draws games from those scores. Each `Map` the source fills is a Dafny `map`; each counting
    loop is one of the `Contadores` methods, proved against the tallies of `Contagens`. */
module Algoritmos {
  import opened Loteria
  import opened Texto
  import opened Contagens
  import opened Contadores
  import opened Acaso

  // ---------------------------------------------------------------- the tallies behind the scores

  /** How many draws list each number. */
  function Frequencia(cs: seq<Concurso>): int -> nat
  {
    d => Listam(cs, d)
  }

  /** The reference numbers of the Markov score: those of the most recent draw. */
  function Referencias(cs: seq<Concurso>): set<int>
  {
    if cs == [] then {} else Conjunto(cs[|cs| - 1].dezenas)
  }

  /** `set(s)`. */
  function Conjunto(s: seq<int>): set<int>
  {
    set x | x in s
  }

  /** How many transitions lead from a reference number to each number. */
  function Markov(cs: seq<Concurso>): int -> nat
  {
    d => Seguidores(cs, Referencias(cs), d)
  }

  /** How many of the latest draws each number has been absent from. */
  function Atrasos(cs: seq<Concurso>): int -> nat
  {
    d => Atraso(cs, d)
  }

  /** The summed counts of the listed pairs that hold each number. */
  function Pontos(top: seq<((int, int), nat)>): int -> nat
  {
    d => PontosPares(top, d)
  }

  /** Normalising a dictionary that tabulates `f` on 1..60 normalises `f`: each score lies
      in [0, 1] and is 0 exactly where `f` is. */
  lemma Normalizacao(scores: map<int, real>, m: map<int, nat>, f: int -> nat)
    requires Normalizado(scores, Valores(m))
    requires forall d :: NoUniverso(d) ==> Get(m, d) == f(d)
    ensures Normalizado(scores, f)
    ensures forall d :: d in scores ==> 0.0 <= scores[d] <= 1.0
    ensures forall d :: d in scores ==> (scores[d] == 0.0 <==> f(d) == 0)
  {
    NormalizadoExt(scores, Valores(m), f);
    PropriedadesNormalizado(scores, f);
  }

  /** The follower sums over the numbers of the last draw are the Markov scores before
      normalisation, and only numbers of the universe have a positive sum. */
  lemma SomaMarkov(cs: seq<Concurso>, ultimas: seq<int>, soma: map<int, nat>)
    requires cs != [] && ultimas == cs[|cs| - 1].dezenas
    requires forall d :: Get(soma, d) == Seguidores(cs, (set r | r in ultimas), d)
    requires forall d :: d in soma ==> soma[d] > 0
    ensures forall d :: Get(soma, d) == Markov(cs)(d)
    ensures forall d :: d in soma ==> NoUniverso(d)
  {
    assert (set r | r in ultimas) == Referencias(cs);
    forall d ensures Get(soma, d) == Markov(cs)(d) {
      assert Get(soma, d) == Seguidores(cs, Referencias(cs), d);
    }
    forall d | d in soma ensures NoUniverso(d) {
      assert Get(soma, d) == soma[d] > 0;
      if !NoUniverso(d) {
        SeguidoresForaDoUniverso(cs, Referencias(cs), d);
      }
    }
  }

  /** With fewer than two draws there is no transition, so every Markov score is 0. */
  lemma MarkovSemTransicoes(cs: seq<Concurso>)
    requires |cs| <= 1
    ensures forall d :: Markov(cs)(d) == 0
  {
    forall d ensures Markov(cs)(d) == 0 {
      SeguidoresSemTransicoes(cs, Referencias(cs), d);
    }
  }

  // ---------------------------------------------------------------- the analyzer

  class AnalisadorMegaSena {
    /** The draws in the order the caller gives them. */
    const concursos: seq<Concurso>

    constructor (concursos: seq<Concurso>)
      ensures this.concursos == concursos
    {
      this.concursos := concursos;
    }

    /** `filtrarPorAnos`: a new analyzer over the draws dated on or after `limite`, the day
        `anos` years before today (the clock is the caller's). */
    method FiltrarPorAnos(limite: int) returns (a: AnalisadorMegaSena)
      ensures fresh(a) && a.concursos == FiltrarDesde(concursos, limite)
    {
      a := new AnalisadorMegaSena(FiltrarDesde(concursos, limite));
    }

    /** `calcularFrequencias`: every number some draw lists, with how many draws list it. */
    method CalcularFrequencias() returns (freq: map<int, nat>)
      ensures TabelaDe(freq, Frequencia(concursos))
      ensures forall d :: d in freq ==> NoUniverso(d)
    {
      freq := ContarFrequencias(concursos);
      forall d ensures Get(freq, d) == Listam(concursos, d) {
        FrequenciaConta(concursos, d);
      }
    }

    /** `scoresFrequencia`: each number's frequency over the largest frequency; all 0 when
        there are no draws. */
    method ScoresFrequencia() returns (scores: map<int, real>)
      ensures Normalizado(scores, Frequencia(concursos))
      ensures forall d :: d in scores ==> 0.0 <= scores[d] <= 1.0
      ensures concursos == [] ==> forall d :: d in scores ==> scores[d] == 0.0
    {
      var freq := CalcularFrequencias();
      var divisor: nat := 1;
      var maxFreq: nat := 0;
      if |freq| > 0 {
        maxFreq := MaiorValor(freq);
        divisor := maxFreq;
      }
      scores := Dividido(freq, divisor);
      DivididoNormalizado(freq, maxFreq, divisor);
      Normalizacao(scores, freq, Frequencia(concursos));
      if concursos == [] {
        NormalizadoZero(scores, Frequencia(concursos));
      }
    }

    /** `calcularMatrizMarkov`: cell (a, b) counts the consecutive draws with `a` in the
        earlier one and `b` in the later one. */
    method CalcularMatrizMarkov() returns (matriz: map<int, map<int, nat>>)
      ensures MatrizDe(matriz, Transicoes(concursos))
      ensures forall a, b :: Celula(matriz, a, b) == Seguidas(concursos, a, b)
    {
      matriz := ContarTransicoes(concursos);
      forall a, b ensures Celula(matriz, a, b) == Seguidas(concursos, a, b) {
        TransicoesConta(concursos, a, b);
      }
    }

    /** `scoresMarkov`: for each number, the transitions leading to it from the numbers of
        the last draw, over the largest such count (or 1); all 0 with fewer than two draws. */
    method ScoresMarkov() returns (scores: map<int, real>)
      ensures Normalizado(scores, Markov(concursos))
      ensures forall d :: d in scores ==> 0.0 <= scores[d] <= 1.0
      ensures |concursos| <= 1 ==> forall d :: d in scores ==> scores[d] == 0.0
    {
      if |concursos| == 0 {
        var vazio: map<int, nat> := map[];
        scores := Dividido(vazio, 1);
        DivididoNormalizado(vazio, 0, 1);
        forall d ensures Get(vazio, d) == Markov(concursos)(d) {
          SeguidoresSemTransicoes(concursos, {}, d);
        }
        Normalizacao(scores, vazio, Markov(concursos));
      } else {
        var referencia := concursos[|concursos| - 1].dezenas;
        var matriz := CalcularMatrizMarkov();
        var soma := SomarSeguidores(concursos, matriz, referencia);
        SomaMarkov(concursos, referencia, soma);
        scores := NormalizarTs(soma);
        Normalizacao(scores, soma, Markov(concursos));
      }
      if |concursos| <= 1 {
        MarkovSemTransicoes(concursos);
        NormalizadoZero(scores, Markov(concursos));
      }
    }

    /** `calcularCoocorrencias`: for every pair a < b drawn together, how many draws hold
        both, and the order in which the pairs were first seen. The source keys the map by
        the text `${a}-${b}`; `Texto.ChavePar` shows that key is one-to-one, so the model
        keys it by the pair itself. */
    method CalcularCoocorrencias() returns (cooc: map<(int, int), nat>, ordem: seq<(int, int)>)
      ensures forall p :: Get(cooc, p) == if p.0 < p.1 then Juntas(concursos, p.0, p.1) else 0
      ensures forall p :: p in cooc ==> cooc[p] > 0 && p.0 < p.1 && NoUniverso(p.0) && NoUniverso(p.1)
      ensures OrdemDe(ordem, cooc)
      ensures ordem == PrimeirosPares(concursos) && cooc == ContagemPares(concursos)
    {
      cooc, ordem := ContarCoocorrencias(concursos);
      CoocorrenciasTotal(concursos);
      forall p ensures Get(cooc, p) == if p.0 < p.1 then Juntas(concursos, p.0, p.1) else 0 {
        CoocorrenciasConta(concursos, p);
      }
      ContagemParesDe(concursos, cooc);
    }

    /** The first half of `scoresCoocorrencia`: the pair counts sorted by decreasing count
        and cut to the first 100. */
    method ParesMaisFrequentes() returns (top: seq<((int, int), nat)>)
      ensures TopoDe(top, concursos)
      ensures top == MaisFrequentes(PrimeirosPares(concursos), ContagemPares(concursos), 100)
    {
      var cooc, ordem := CalcularCoocorrencias();
      top := MaisFrequentes(ordem, cooc, 100);
      MaisFrequentesTopo(concursos, cooc, ordem);
    }

    /** `scoresCoocorrencia`: the 100 pairs with the largest counts (`top`), then each number's
        summed count over those pairs, normalised. A number in none of them scores 0. */
    method ScoresCoocorrencia() returns (scores: map<int, real>, ghost top: seq<((int, int), nat)>)
      ensures TopoDe(top, concursos)
      ensures Normalizado(scores, Pontos(top))
      ensures forall d :: d in scores ==> 0.0 <= scores[d] <= 1.0
      ensures forall d :: d in scores ==>
                (scores[d] == 0.0 <==> forall i :: 0 <= i < |top| ==> top[i].0.0 != d && top[i].0.1 != d)
      ensures top == MaisFrequentes(PrimeirosPares(concursos), ContagemPares(concursos), 100)
    {
      var topPares := ParesMaisFrequentes();
      top := topPares;
      scores := PontuarParesTs(topPares, concursos);
    }

    /** `calcularAtrasos`: for every number, how many of the latest draws miss it. */
    method CalcularAtrasos() returns (atrasos: map<int, nat>)
      ensures forall d :: d in atrasos <==> NoUniverso(d)
      ensures forall d :: d in atrasos ==> atrasos[d] == Atraso(concursos, d) <= |concursos|
      ensures forall d :: d in atrasos ==>
                (atrasos[d] == 0 <==> concursos == [] || d in concursos[|concursos| - 1].dezenas)
      ensures forall d :: d in atrasos ==>
                (atrasos[d] == |concursos| <==> forall i :: 0 <= i < |concursos| ==> d !in concursos[i].dezenas)
    {
      atrasos := ContarAtrasos(concursos);
      forall d | d in atrasos
        ensures atrasos[d] == |concursos| <==> forall i :: 0 <= i < |concursos| ==> d !in concursos[i].dezenas
      {
        AtrasoAusente(concursos, d);
      }
    }

    /** `scoresAtraso`: each delay over the largest delay, or over 1 when every delay is 0. */
    method ScoresAtraso() returns (scores: map<int, real>)
      ensures Normalizado(scores, Atrasos(concursos))
      ensures forall d :: d in scores ==> 0.0 <= scores[d] <= 1.0
      ensures forall d :: d in scores ==>
                (scores[d] == 0.0 <==> concursos == [] || d in concursos[|concursos| - 1].dezenas)
    {
      var atrasos := CalcularAtrasos();
      scores := NormalizarTs(atrasos);
      NormalizadoExt(scores, Valores(atrasos), Atrasos(concursos));
      PropriedadesNormalizado(scores, Atrasos(concursos));
    }
  }

  /** The second half of `scoresCoocorrencia`: each number's summed count over the listed
      pairs, normalised with the `|| 1` divisor. A number in none of them scores 0. */
  method PontuarParesTs(top: seq<((int, int), nat)>, ghost cs: seq<Concurso>) returns (scores: map<int, real>)
    requires TopoDe(top, cs)
    ensures Normalizado(scores, Pontos(top))
    ensures forall d :: d in scores ==> 0.0 <= scores[d] <= 1.0
    ensures forall d :: d in scores ==>
              (scores[d] == 0.0 <==> forall i :: 0 <= i < |top| ==> top[i].0.0 != d && top[i].0.1 != d)
  {
    var soma := SomarContagensPares(top);
    forall d | d in soma ensures NoUniverso(d) {
      var i :| 0 <= i < |top| && (top[i].0.0 == d || top[i].0.1 == d);
    }
    scores := NormalizarTs(soma);
    Normalizacao(scores, soma, Pontos(top));
    forall d | d in scores
      ensures scores[d] == 0.0 <==> forall i :: 0 <= i < |top| ==> top[i].0.0 != d && top[i].0.1 != d
    {
      PontosParesZero(top, d);
    }
  }

  /** `top` is a top-100 list of the pairs drawn together: at most 100 distinct pairs a < b
      with their counts, by decreasing count, and a pair is left out only when 100 pairs
      with counts at least as large are kept. */
  ghost predicate TopoDe(top: seq<((int, int), nat)>, cs: seq<Concurso>)
  {
    |top| <= 100 && Distintos(Chaves(top)) &&
    (forall i :: 0 <= i < |top| ==>
       NoUniverso(top[i].0.0) && NoUniverso(top[i].0.1) &&
       top[i].0.0 < top[i].0.1 && top[i].1 == Juntas(cs, top[i].0.0, top[i].0.1) > 0) &&
    (forall i, j :: 0 <= i < j < |top| ==> top[i].1 >= top[j].1) &&
    (forall a, b :: a < b && Juntas(cs, a, b) > 0 && (a, b) !in Chaves(top) ==>
       |top| == 100 && forall i :: 0 <= i < |top| ==> Juntas(cs, a, b) <= top[i].1)
  }

  /** The 100 most frequent entries of the pair dictionary form a top-100 list. */
  lemma MaisFrequentesTopo(cs: seq<Concurso>, cooc: map<(int, int), nat>, ordem: seq<(int, int)>)
    requires forall p :: Get(cooc, p) == if p.0 < p.1 then Juntas(cs, p.0, p.1) else 0
    requires forall p :: p in cooc ==> cooc[p] > 0 && p.0 < p.1 && NoUniverso(p.0) && NoUniverso(p.1)
    requires OrdemDe(ordem, cooc)
    ensures TopoDe(MaisFrequentes(ordem, cooc, 100), cs)
  {
    var top := MaisFrequentes(ordem, cooc, 100);
    MaisFrequentesPropriedades(ordem, cooc, 100);
    forall i | 0 <= i < |top|
      ensures top[i].0.0 < top[i].0.1 && top[i].1 == Juntas(cs, top[i].0.0, top[i].0.1) > 0
    {
      assert Get(cooc, top[i].0) == top[i].1;
    }
    forall a, b | a < b && Juntas(cs, a, b) > 0 && (a, b) !in Chaves(top)
      ensures |top| == 100 && forall i :: 0 <= i < |top| ==> Juntas(cs, a, b) <= top[i].1
    {
      assert Get(cooc, (a, b)) > 0;
      if |ordem| <= 100 {
        MaisFrequentesTodas(ordem, cooc, 100);
        assert false;
      }
    }
  }

  // ---------------------------------------------------------------- the generator: balance

  /** The band of `verificarBalanceamento`: up to 20, 21 to 40, and everything above 40.
      Unlike the Python `_faixa`, a number outside 1..60 still lands in a band. */
  function FaixaTs(d: int): nat
  {
    if d <= 20 then 0 else if d <= 40 then 1 else 2
  }

  /** How many of the numbers fall in band `i`. */
  function ContaFaixaTs(dezenas: seq<int>, i: nat): nat
  {
    Conta(dezenas, d => FaixaTs(d) == i)
  }

  /** Exactly three even numbers, and one to three numbers in each band. */
  predicate BalanceadoTs(dezenas: seq<int>)
  {
    QuantosPares(dezenas) == 3 && forall i :: 0 <= i < 3 ==> 1 <= ContaFaixaTs(dezenas, i) <= 3
  }

  /** On numbers of 1..60 the TypeScript balance test and the Python one agree. */
  lemma BalanceamentoConcorda(dezenas: seq<int>)
    requires forall d :: d in dezenas ==> NoUniverso(d)
    ensures BalanceadoTs(dezenas) == VerificarBalanceamento(dezenas)
  {
    forall i | 0 <= i < 3 ensures ContaFaixaTs(dezenas, i) == ContaFaixa(dezenas, i) {
      forall d | d in dezenas ensures (FaixaTs(d) == i) <==> (Faixa(d) == i) {
        assert Faixa(d) != -1;
      }
      ContaExt(dezenas, d => FaixaTs(d) == i, d => Faixa(d) == i);
    }
  }

  // ---------------------------------------------------------------- the generator: composing a game

  /** The numbers of `lo..n` that are neither fixed nor removed, ascending: the list
      `gerarUniforme` builds, and the key order of the combined scores of `gerarPorScores`. */
  function DisponiveisAte(n: int, fixos: seq<int>, removidos: seq<int>): (r: seq<int>)
    ensures forall d :: d in r <==> DezenaMin <= d <= n && d !in fixos && d !in removidos
    ensures EstritamenteCrescente(r)
    decreases n
  {
    if n < DezenaMin then []
    else
      var antes := DisponiveisAte(n - 1, fixos, removidos);
      assert forall d :: d in antes ==> d < n;
      assert forall i :: 0 <= i < |antes| ==> antes[i] in antes;
      if n in fixos || n in removidos then antes else antes + [n]
  }

  function Disponiveis(fixos: seq<int>, removidos: seq<int>): seq<int>
  {
    DisponiveisAte(DezenaMax, fixos, removidos)
  }

  /** A game made of the fixed numbers plus numbers drawn from the available ones: sorted,
      each fixed number as often as it is fixed, every other number once, from 1..60 and not
      removed. (A fixed number is kept even when it is also removed.) */
  predicate Composto(jogo: seq<int>, fixos: seq<int>, removidos: seq<int>)
  {
    Crescente(jogo) &&
    (forall d :: d in fixos ==> multiset(jogo)[d] == multiset(fixos)[d]) &&
    (forall d :: d in jogo && d !in fixos ==> multiset(jogo)[d] == 1 && NoUniverso(d) && d !in removidos)
  }

  /** The size of a `gerarUniforme` game: the fixed numbers alone when there are six or more,
      otherwise topped up to six, or to all the available numbers when fewer remain. */
  function TamanhoUniforme(nFixos: nat, nDisponiveis: nat): nat
  {
    if nFixos >= TamanhoJogo then nFixos else Min(TamanhoJogo, nFixos + nDisponiveis)
  }

  predicate Uniforme(jogo: seq<int>, fixos: seq<int>, removidos: seq<int>)
  {
    Composto(jogo, fixos, removidos) &&
    |jogo| == TamanhoUniforme(|fixos|, |Disponiveis(fixos, removidos)|)
  }

  /** Sorting the fixed numbers plus distinct available ones gives a composed game. */
  lemma ComporJogo(fixos: seq<int>, removidos: seq<int>, extras: seq<int>, jogo: seq<int>)
    requires multiset(extras) <= multiset(Disponiveis(fixos, removidos))
    requires multiset(jogo) == multiset(fixos) + multiset(extras)
    requires Crescente(jogo)
    ensures Composto(jogo, fixos, removidos)
  {
    var base := Disponiveis(fixos, removidos);
    DistintosMultiset(base);
    forall d | d in fixos ensures multiset(jogo)[d] == multiset(fixos)[d] {
      assert d !in base;
      assert multiset(extras)[d] == 0;
    }
    forall d | d in jogo && d !in fixos
      ensures multiset(jogo)[d] == 1 && NoUniverso(d) && d !in removidos
    {
      assert d in multiset(jogo);
      assert multiset(extras)[d] >= 1;
      assert d in base;
    }
  }

  /** With distinct fixed numbers from 1..60, a composed game of six numbers is a valid
      ticket: six distinct numbers of 1..60, strictly ascending. */
  lemma CompostoSena(jogo: seq<int>, fixos: seq<int>, removidos: seq<int>)
    requires Composto(jogo, fixos, removidos)
    requires Distintos(fixos) && forall d :: d in fixos ==> NoUniverso(d)
    requires |jogo| == TamanhoJogo
    ensures EhSena(jogo) && EstritamenteCrescente(jogo)
  {
    DistintosMultiset(fixos);
    forall x ensures multiset(jogo)[x] <= 1 {
      if x in fixos {
      } else if x in jogo {
      } else {
        assert x !in multiset(jogo);
      }
    }
    DistintosMultiset(jogo);
    CrescenteDistintos(jogo);
  }

  // ---------------------------------------------------------------- the generator: weighted choice

  /** `weightedChoice` on `x = rng() * total`: the first position whose cumulative weight
      reaches `x` (from `lo` on), or the last position when none does. */
  function PrimeiroAlcance(pesos: seq<real>, x: real, lo: nat): (r: nat)
    requires lo < |pesos|
    ensures lo <= r < |pesos|
    ensures r < |pesos| - 1 ==> x <= Acumulado(pesos, r)
    ensures forall j :: lo <= j < r ==> Acumulado(pesos, j) < x
    decreases |pesos| - lo
  {
    if lo == |pesos| - 1 || x <= Acumulado(pesos, lo) then lo
    else PrimeiroAlcance(pesos, x, lo + 1)
  }

  /** The position the scan stops at is determined by the two facts that characterise it. */
  lemma {:induction false} PrimeiroAlcanceEm(pesos: seq<real>, x: real, lo: nat, j: nat)
    requires lo <= j < |pesos|
    requires forall k :: lo <= k < j ==> Acumulado(pesos, k) < x
    requires j < |pesos| - 1 ==> x <= Acumulado(pesos, j)
    ensures PrimeiroAlcance(pesos, x, lo) == j
    decreases j - lo
  {
    if lo < j {
      PrimeiroAlcanceEm(pesos, x, lo + 1, j);
    }
  }

  /** Every position of positive weight can be chosen: some value of the generator makes
      `weightedChoice` return exactly `j`. */
  lemma PrimeiroAlcanceTodos(pesos: seq<real>, j: nat) returns (u: real)
    requires j < |pesos|
    requires forall i :: 0 <= i < |pesos| ==> pesos[i] >= 0.0
    requires pesos[j] > 0.0
    ensures SomaPesos(pesos) > 0.0
    ensures 0.0 <= u < 1.0 && PrimeiroAlcance(pesos, Escalado(u, SomaPesos(pesos)), 0) == j
  {
    var total := SomaPesos(pesos);
    var antes := SomaPesos(pesos[..j]);
    AcumuladoPasso(pesos, j);
    SomaPesosMonotona(pesos, j + 1, |pesos|);
    assert pesos[..|pesos|] == pesos;
    SomaPesosNaoNegativa(pesos[..j]);
    var x := antes + pesos[j] / 2.0;
    u := x / total;
    Escala(x, total);
    forall k | 0 <= k < j ensures Acumulado(pesos, k) < x {
      SomaPesosMonotona(pesos, k + 1, j);
    }
    assert Escalado(u, SomaPesos(pesos)) == x;
    PrimeiroAlcanceEm(pesos, x, 0, j);
  }

  // ---------------------------------------------------------------- the generator: combined scores

  /** `scores.get(d) || 0`. */
  function GetReal(m: map<int, real>, d: int): real
  {
    if d in m then m[d] else 0.0
  }

  /** The combined score of `d`: the four scores weighted, plus the base of 0.1. */
  function Combinado(p: Pesos, sf: map<int, real>, sm: map<int, real>, sc: map<int, real>,
                     sa: map<int, real>, d: int): real
  {
    GetReal(sf, d) * p.frequencia + GetReal(sm, d) * p.markov +
    GetReal(sc, d) * p.coocorrencia + GetReal(sa, d) * p.atraso + 0.1
  }

  /** With non-negative weights and non-negative scores, every combined score is at least the
      base of 0.1. */
  lemma CombinadoLimites(p: Pesos, sf: map<int, real>, sm: map<int, real>, sc: map<int, real>,
                         sa: map<int, real>, d: int)
    requires p.frequencia >= 0.0 && p.markov >= 0.0 && p.coocorrencia >= 0.0 && p.atraso >= 0.0
    requires GetReal(sf, d) >= 0.0 && GetReal(sm, d) >= 0.0
    requires GetReal(sc, d) >= 0.0 && GetReal(sa, d) >= 0.0
    ensures Combinado(p, sf, sm, sc, sa, d) >= 0.1
  {
    var f := Produto(GetReal(sf, d), p.frequencia);
    var m := Produto(GetReal(sm, d), p.markov);
    var c := Produto(GetReal(sc, d), p.coocorrencia);
    var a := Produto(GetReal(sa, d), p.atraso);
    assert Combinado(p, sf, sm, sc, sa, d) == f + m + c + a + 0.1;
  }

  lemma Produto(s: real, w: real) returns (r: real)
    requires s >= 0.0 && w >= 0.0
    ensures r == s * w && r >= 0.0
  {
    r := s * w;
  }

  /** Scores in [0, 1], or no scores at all. */
  predicate Unitarios(m: map<int, real>)
  {
    forall d :: d in m ==> 0.0 <= m[d] <= 1.0
  }

  // ---------------------------------------------------------------- the generator: the batch

  /** The four score algorithms `gerarJogos` recognises. */
  const NomesScore: seq<string> := ["frequencia", "markov", "coocorrencia", "atraso"]

  /** `algoritmos.filter(a => [...].includes(a))`. */
  function AlgoritmosScore(algoritmos: seq<string>): (r: seq<string>)
    ensures forall a :: a in r <==> a in algoritmos && a in NomesScore
    ensures |r| <= |algoritmos|
  {
    if algoritmos == [] then []
    else
      var resto := AlgoritmosScore(algoritmos[..|algoritmos| - 1]);
      var a := algoritmos[|algoritmos| - 1];
      assert forall b :: b in algoritmos <==> b in algoritmos[..|algoritmos| - 1] || b == a;
      if a in NomesScore then resto + [a] else resto
  }

  /** The weights of a single algorithm: 1 for it, 0 for the others. */
  function PesosUnicos(alg: string): Pesos
  {
    Pesos(if alg == "frequencia" then 1.0 else 0.0, if alg == "markov" then 1.0 else 0.0,
          if alg == "coocorrencia" then 1.0 else 0.0, if alg == "atraso" then 1.0 else 0.0)
  }

  /** The weights of the mixed games: `1 / algoritmosScore.length` for each selected
      algorithm (a repeated name still counts once in the weights but twice in the divisor). */
  function PesosMisto(algs: seq<string>): Pesos
    requires |algs| > 0
  {
    var base := 1.0 / |algs| as real;
    Pesos(if "frequencia" in algs then base else 0.0, if "markov" in algs then base else 0.0,
          if "coocorrencia" in algs then base else 0.0, if "atraso" in algs then base else 0.0)
  }

  /** `c.toUpperCase()` on the ASCII letters. */
  function Maiuscula(c: char): char
  {
    if 'a' <= c <= 'z' then (c as int - 32) as char else c
  }

  /** `alg.charAt(0).toUpperCase() + alg.slice(1)`. */
  function Capitalizar(s: string): (r: string)
    ensures |r| == |s|
  {
    if s == [] then [] else [Maiuscula(s[0])] + s[1..]
  }

  /** The labels of the selected score algorithms. */
  function Rotulos(algs: seq<string>): (r: seq<string>)
    ensures |r| == |algs| && forall i :: 0 <= i < |algs| ==> r[i] == Capitalizar(algs[i])
  {
    seq(|algs|, i requires 0 <= i < |algs| => Capitalizar(algs[i]))
  }

  /** `Math.ceil(q / n)` for a positive `n`. */
  function Teto(q: int, n: int): (r: int)
    requires n > 0
    ensures (r - 1) * n < q <= r * n
  {
    -((-q) / n)
  }

  /** The result of `gerarJogos`: the games and, position by position, the label of the
      algorithm that produced each. */
  datatype Lote = Lote(jogos: seq<seq<int>>, algoritmosUsados: seq<string>)

  /** A batch under construction, with the set `jogosGerados` of the keys already taken. */
  datatype Progresso = Progresso(lote: Lote, gerados: set<string>)

  /** The batch is well formed: one label per game, no game twice, and `gerados` holds
      exactly the keys of the games. */
  predicate ProgressoValido(p: Progresso)
  {
    |p.lote.jogos| == |p.lote.algoritmosUsados| &&
    (forall i, j :: 0 <= i < j < |p.lote.jogos| ==> p.lote.jogos[i] != p.lote.jogos[j]) &&
    p.gerados == set i | 0 <= i < |p.lote.jogos| :: Chave(p.lote.jogos[i])
  }

  /** `if (!jogosGerados.has(jogoStr)) { ... push ... }`: a game is added, with its label,
      exactly when it is not in the batch yet. */
  function Registrar(p: Progresso, jogo: seq<int>, rotulo: string): (r: Progresso)
    requires ProgressoValido(p)
    ensures ProgressoValido(r)
    ensures jogo in p.lote.jogos ==> r == p
    ensures jogo !in p.lote.jogos ==>
              r.lote == Lote(p.lote.jogos + [jogo], p.lote.algoritmosUsados + [rotulo])
  {
    if Chave(jogo) in p.gerados then
      assert jogo in p.lote.jogos by {
        var i :| 0 <= i < |p.lote.jogos| && Chave(p.lote.jogos[i]) == Chave(jogo);
        ChaveInjetiva(p.lote.jogos[i], jogo);
      }
      p
    else
      var jogos := p.lote.jogos + [jogo];
      assert jogo !in p.lote.jogos;
      assert (set i | 0 <= i < |jogos| :: Chave(jogos[i])) == p.gerados + {Chave(jogo)} by {
        forall k | k in p.gerados + {Chave(jogo)} ensures k in set i | 0 <= i < |jogos| :: Chave(jogos[i]) {
          if k != Chave(jogo) {
            var i :| 0 <= i < |p.lote.jogos| && Chave(p.lote.jogos[i]) == k;
            assert jogos[i] == p.lote.jogos[i];
          } else {
            assert jogos[|jogos| - 1] == jogo;
          }
        }
      }
      Progresso(Lote(jogos, p.lote.algoritmosUsados + [rotulo]), p.gerados + {Chave(jogo)})
  }

  /** What each game of the batch satisfies: it is composed from the fixed and available
      numbers; a game labelled `Uniforme` is a `gerarUniforme` game; any other game is either
      the uniform fallback or six numbers, balanced when balance is forced. */
  predicate JogoAceito(jogo: seq<int>, rotulo: string, forcar: bool, fixos: seq<int>, removidos: seq<int>)
  {
    Composto(jogo, fixos, removidos) &&
    (rotulo == "Uniforme" ==> Uniforme(jogo, fixos, removidos)) &&
    (Uniforme(jogo, fixos, removidos) || (|jogo| == TamanhoJogo && (forcar ==> BalanceadoTs(jogo))))
  }

  /** The labels `gerarJogos` may use: `Uniforme` when no score algorithm is selected or
      `uniforme` is; `Misto` with two or more score algorithms; the capitalised name of a
      selected score algorithm. */
  predicate RotuloPermitido(rotulo: string, algoritmos: seq<string>)
  {
    var algs := AlgoritmosScore(algoritmos);
    (rotulo == "Uniforme" && (algs == [] || "uniforme" in algoritmos)) ||
    (rotulo == "Misto" && |algs| > 1) ||
    rotulo in Rotulos(algs)
  }

  /** Every game of the batch is accepted under its label, and every label is permitted. */
  predicate LoteAceito(l: Lote, algoritmos: seq<string>, forcar: bool, fixos: seq<int>, removidos: seq<int>)
    requires |l.jogos| == |l.algoritmosUsados|
  {
    forall i :: 0 <= i < |l.jogos| ==>
      JogoAceito(l.jogos[i], l.algoritmosUsados[i], forcar, fixos, removidos) &&
      RotuloPermitido(l.algoritmosUsados[i], algoritmos)
  }

  /** Registering an accepted game under a permitted label keeps the batch accepted. */
  lemma RegistrarAceito(p: Progresso, jogo: seq<int>, rotulo: string, algoritmos: seq<string>,
                        forcar: bool, fixos: seq<int>, removidos: seq<int>)
    requires ProgressoValido(p) && LoteAceito(p.lote, algoritmos, forcar, fixos, removidos)
    requires JogoAceito(jogo, rotulo, forcar, fixos, removidos) && RotuloPermitido(rotulo, algoritmos)
    ensures LoteAceito(Registrar(p, jogo, rotulo).lote, algoritmos, forcar, fixos, removidos)
  {
  }

  /** A finished batch: `quantidade` games (none when it is not positive), no game twice,
      each accepted under a permitted label. */
  predicate LoteCorreto(l: Lote, quantidade: int, algoritmos: seq<string>, forcar: bool,
                        fixos: seq<int>, removidos: seq<int>)
  {
    |l.jogos| == |l.algoritmosUsados| == Max(quantidade, 0) &&
    (forall i, j :: 0 <= i < j < |l.jogos| ==> l.jogos[i] != l.jogos[j]) &&
    LoteAceito(l, algoritmos, forcar, fixos, removidos)
  }

  /** The label of a selected score algorithm is permitted, and is neither `Uniforme` nor
      `Misto`: no score algorithm's name has their length. */
  lemma RotuloDeScore(algs: seq<string>, k: nat)
    requires k < |algs| && forall a :: a in algs ==> a in NomesScore
    ensures Capitalizar(algs[k]) in Rotulos(algs)
    ensures Capitalizar(algs[k]) != "Uniforme" && Capitalizar(algs[k]) != "Misto"
  {
    assert algs[k] in NomesScore;
    assert Rotulos(algs)[k] == Capitalizar(algs[k]);
  }

  /** With six fixed numbers, the only game of six numbers composed from them is those six
      numbers sorted. */
  lemma SeisFixosUnico(jogo: seq<int>, fixos: seq<int>, removidos: seq<int>)
    requires Composto(jogo, fixos, removidos) && |fixos| == TamanhoJogo && |jogo| == TamanhoJogo
    ensures jogo == Ordenar(fixos)
  {
    assert multiset(fixos) <= multiset(jogo) by {
      forall d ensures multiset(fixos)[d] <= multiset(jogo)[d] {
        if d in fixos {
        } else {
          assert d !in multiset(fixos);
        }
      }
    }
    var resto := multiset(jogo) - multiset(fixos);
    assert multiset(jogo) == multiset(fixos) + resto;
    assert |resto| == 0;
    CrescenteUnica(jogo, Ordenar(fixos));
  }

  /** With six fixed numbers no correct batch of two or more games exists: every game,
      uniform or scored, is the six fixed numbers sorted, and the games of a batch must
      differ. `gerarJogos` then loops for ever (here, it runs out of `combustivel`). */
  lemma SeisFixosSemLote(l: Lote, quantidade: int, algoritmos: seq<string>, forcar: bool,
                         fixos: seq<int>, removidos: seq<int>)
    requires |fixos| == TamanhoJogo && quantidade >= 2
    ensures !LoteCorreto(l, quantidade, algoritmos, forcar, fixos, removidos)
  {
    if LoteCorreto(l, quantidade, algoritmos, forcar, fixos, removidos) {
      assert JogoAceito(l.jogos[0], l.algoritmosUsados[0], forcar, fixos, removidos);
      assert JogoAceito(l.jogos[1], l.algoritmosUsados[1], forcar, fixos, removidos);
      SeisFixosUnico(l.jogos[0], fixos, removidos);
      SeisFixosUnico(l.jogos[1], fixos, removidos);
    }
  }

  class GeradorJogos {
    const analisador: AnalisadorMegaSena
    /** `this.rng`: `Math.random`, or the seeded generator when a seed is given. */
    const rng: Rng

    constructor (analisador: AnalisadorMegaSena, rng: Rng)
      ensures this.analisador == analisador && this.rng == rng
    {
      this.analisador := analisador;
      this.rng := rng;
    }

    /** `verificarBalanceamento`: counts the even numbers, then the numbers of each band in
        a three-slot array. */
    method VerificarBalanceamento(dezenas: seq<int>) returns (ok: bool)
      ensures ok <==> BalanceadoTs(dezenas)
    {
      if QuantosPares(dezenas) != 3 {
        return false;
      }
      var faixas := new nat[3](_ => 0);
      for k := 0 to |dezenas|
        invariant forall i :: 0 <= i < 3 ==> faixas[i] == ContaFaixaTs(dezenas[..k], i)
      {
        var d := dezenas[k];
        assert dezenas[..k + 1][..k] == dezenas[..k];
        if d <= 20 {
          faixas[0] := faixas[0] + 1;
        } else if d <= 40 {
          faixas[1] := faixas[1] + 1;
        } else {
          faixas[2] := faixas[2] + 1;
        }
      }
      assert dezenas[..|dezenas|] == dezenas;
      ok := forall i :: 0 <= i < 3 ==> 1 <= faixas[i] <= 3;
    }

    /** `gerarUniforme`: lists the available numbers, then moves randomly chosen ones into
        the game, after the fixed numbers, until it holds six or none is left; then sorts. */
    method GerarUniforme(fixos: seq<int>, removidos: seq<int>) returns (jogo: seq<int>)
      modifies rng
      ensures Uniforme(jogo, fixos, removidos)
    {
      var disponiveis := ListarDisponiveis(fixos, removidos);
      var novo, extras, resto := Sortear(rng, fixos, disponiveis);
      jogo := Ordenar(novo);
      UniformeFinal(fixos, removidos, extras, resto, jogo);
    }

    /** `weightedChoice`: scales a value of the generator by the total weight, then subtracts
        the weights in turn and stops at the first position where nothing is left; the last
        position when rounding leaves something over, and -1 on an empty list. */
    method WeightedChoice(weights: seq<real>) returns (i: int, ghost u: real)
      modifies rng
      ensures weights == [] ==> i == -1
      ensures weights != [] ==> 0 <= i < |weights|
      ensures weights != [] ==> 0.0 <= u < 1.0 && i == PrimeiroAlcance(weights, Escalado(u, SomaPesos(weights)), 0)
    {
      var v := rng.Random();
      u := v;
      var random := Escalado(v, SomaPesos(weights));
      ghost var x := random;
      var k := 0;
      assert weights[..0] == [];
      while k < |weights|
        invariant 0 <= k <= |weights|
        invariant random == x - SomaPesos(weights[..k])
        invariant forall j :: 0 <= j < k ==> Acumulado(weights, j) < x
      {
        random := random - weights[k];
        AcumuladoPasso(weights, k);
        if random <= 0.0 {
          PrimeiroAlcanceEm(weights, x, 0, k);
          i := k;
          return;
        }
        k := k + 1;
      }
      i := |weights| - 1;
      if weights != [] {
        PrimeiroAlcanceEm(weights, x, 0, |weights| - 1);
      }
    }

    /** The scores of the algorithms with a positive weight; no scores for the others. */
    method ScoresSelecionados(p: Pesos)
      returns (sf: map<int, real>, sm: map<int, real>, sc: map<int, real>, sa: map<int, real>,
               ghost top: seq<((int, int), nat)>)
      ensures if p.frequencia > 0.0 then Normalizado(sf, Frequencia(analisador.concursos)) else sf == map[]
      ensures if p.markov > 0.0 then Normalizado(sm, Markov(analisador.concursos)) else sm == map[]
      ensures if p.coocorrencia > 0.0 then TopoDe(top, analisador.concursos) && Normalizado(sc, Pontos(top))
              else sc == map[]
      ensures if p.atraso > 0.0 then Normalizado(sa, Atrasos(analisador.concursos)) else sa == map[]
      ensures Unitarios(sf) && Unitarios(sm) && Unitarios(sc) && Unitarios(sa)
    {
      sf, sm, sc, sa := map[], map[], map[], map[];
      top := [];
      if p.frequencia > 0.0 {
        sf := analisador.ScoresFrequencia();
      }
      if p.markov > 0.0 {
        sm := analisador.ScoresMarkov();
      }
      if p.coocorrencia > 0.0 {
        sc, top := analisador.ScoresCoocorrencia();
      }
      if p.atraso > 0.0 {
        sa := analisador.ScoresAtraso();
      }
    }

    /** The first half of `gerarPorScores`: the selected scores, then for each available
        number, in ascending order, its combined score. */
    method CombinarScores(p: Pesos, fixos: seq<int>, removidos: seq<int>)
      returns (dezenas: seq<int>, valores: seq<real>,
               ghost sf: map<int, real>, ghost sm: map<int, real>, ghost sc: map<int, real>,
               ghost sa: map<int, real>, ghost top: seq<((int, int), nat)>)
      ensures dezenas == Disponiveis(fixos, removidos) && |valores| == |dezenas|
      ensures forall i :: 0 <= i < |dezenas| ==> valores[i] == Combinado(p, sf, sm, sc, sa, dezenas[i])
      ensures if p.frequencia > 0.0 then Normalizado(sf, Frequencia(analisador.concursos)) else sf == map[]
      ensures if p.markov > 0.0 then Normalizado(sm, Markov(analisador.concursos)) else sm == map[]
      ensures if p.coocorrencia > 0.0 then TopoDe(top, analisador.concursos) && Normalizado(sc, Pontos(top))
              else sc == map[]
      ensures if p.atraso > 0.0 then Normalizado(sa, Atrasos(analisador.concursos)) else sa == map[]
      ensures p.frequencia >= 0.0 && p.markov >= 0.0 && p.coocorrencia >= 0.0 && p.atraso >= 0.0 ==>
                forall i :: 0 <= i < |valores| ==> valores[i] >= 0.1
    {
      var scoresFreq, scoresMarkov, scoresCooc, scoresAtraso;
      scoresFreq, scoresMarkov, scoresCooc, scoresAtraso, top := ScoresSelecionados(p);
      sf, sm, sc, sa := scoresFreq, scoresMarkov, scoresCooc, scoresAtraso;
      dezenas, valores := CombinarDisponiveis(p, scoresFreq, scoresMarkov, scoresCooc, scoresAtraso, fixos, removidos);
      if p.frequencia >= 0.0 && p.markov >= 0.0 && p.coocorrencia >= 0.0 && p.atraso >= 0.0 {
        forall i | 0 <= i < |valores| ensures valores[i] >= 0.1 {
          CombinadoLimites(p, sf, sm, sc, sa, dezenas[i]);
        }
      }
    }

    /** One of the 500 attempts of `gerarPorScores`: starting from the fixed numbers, picks an
        available number by weight, adds it unless the game already holds it, and removes it
        and its weight from the lists, until the game has six numbers or nothing is left. */
    method Tentativa(fixos: seq<int>, dezenasBase: seq<int>, pesosBase: seq<real>)
      returns (jogo: seq<int>, ghost extras: seq<int>)
      requires |dezenasBase| == |pesosBase|
      requires Distintos(dezenasBase) && forall d :: d in dezenasBase ==> d !in fixos
      modifies rng
      ensures jogo == fixos + extras && multiset(extras) <= multiset(dezenasBase)
      ensures |jogo| == TamanhoUniforme(|fixos|, |dezenasBase|)
    {
      var dezenasDisponiveis := dezenasBase;
      var pesosArray := pesosBase;
      jogo := fixos;
      extras := [];
      DistintosMultiset(dezenasBase);
      while |jogo| < TamanhoJogo && |dezenasDisponiveis| > 0
        invariant |dezenasDisponiveis| == |pesosArray|
        invariant jogo == fixos + extras
        invariant multiset(extras) + multiset(dezenasDisponiveis) == multiset(dezenasBase)
        invariant |fixos| >= TamanhoJogo ==> extras == []
        invariant |fixos| < TamanhoJogo ==> |jogo| <= TamanhoJogo
        decreases |dezenasDisponiveis|
      {
        var idx;
        ghost var u;
        idx, u := WeightedChoice(pesosArray);
        assert 0 <= idx < |pesosArray|;
        var escolhida := dezenasDisponiveis[idx];
        assert escolhida !in jogo by {
          assert escolhida in multiset(dezenasDisponiveis);
          assert escolhida in multiset(dezenasBase);
          assert multiset(extras)[escolhida] == 0;
        }
        if escolhida !in jogo {
          jogo := jogo + [escolhida];
          extras := extras + [escolhida];
        }
        dezenasDisponiveis := Remover(dezenasDisponiveis, idx);
        pesosArray := Remover(pesosArray, idx);
      }
      TamanhoFinal(fixos, extras, dezenasDisponiveis, dezenasBase);
    }

    /** `gerarPorScores`: up to 500 attempts; an attempt that reaches six numbers is sorted and
        returned, unless balance is forced and it is not balanced. When every attempt fails,
        a `gerarUniforme` game (`fallback`). */
    method GerarPorScores(p: Pesos, forcar: bool, fixos: seq<int>, removidos: seq<int>)
      returns (jogo: seq<int>, ghost fallback: bool)
      modifies rng
      ensures Composto(jogo, fixos, removidos)
      ensures fallback ==> Uniforme(jogo, fixos, removidos)
      ensures !fallback ==> |jogo| == TamanhoJogo && (forcar ==> BalanceadoTs(jogo))
    {
      var dezenasBase, pesosBase;
      ghost var sf, sm, sc, sa, top;
      dezenasBase, pesosBase, sf, sm, sc, sa, top := CombinarScores(p, fixos, removidos);
      assert Distintos(dezenasBase);
      for tentativa := 0 to 500 {
        var novo;
        ghost var extras;
        novo, extras := Tentativa(fixos, dezenasBase, pesosBase);
        if |novo| == TamanhoJogo {
          var ordenado := Ordenar(novo);
          var aceito := true;
          if forcar {
            aceito := VerificarBalanceamento(ordenado);
          }
          if aceito {
            ComporJogo(fixos, removidos, extras, ordenado);
            return ordenado, false;
          }
        }
      }
      jogo := GerarUniforme(fixos, removidos);
      fallback := true;
    }

    /** `gerarUniforme`, retried up to 100 times while balance is forced and the game is not
        balanced. */
    method UniformeBalanceado(forcar: bool, fixos: seq<int>, removidos: seq<int>) returns (jogo: seq<int>)
      modifies rng
      ensures Uniforme(jogo, fixos, removidos)
    {
      jogo := GerarUniforme(fixos, removidos);
      if forcar {
        for tentativa := 0 to 100
          invariant Uniforme(jogo, fixos, removidos)
        {
          var ok := VerificarBalanceamento(jogo);
          if ok {
            break;
          }
          jogo := GerarUniforme(fixos, removidos);
        }
      }
    }

    /** `gerarJogos` when no score algorithm is selected: uniform games until the batch is
        full. The source loops until it finds enough distinct games; `combustivel` bounds the
        number of rounds. */
    method GerarApenasUniforme(quantidade: int, algoritmos: seq<string>, forcar: bool, fixos: seq<int>,
                               removidos: seq<int>, combustivel: nat) returns (r: Result<Lote, Falha>)
      requires AlgoritmosScore(algoritmos) == []
      modifies rng
      ensures r.Failure? ==> r.error == SemCombustivel
      ensures r.Success? ==> LoteCorreto(r.value, quantidade, algoritmos, forcar, fixos, removidos)
      ensures r.Success? ==> forall i :: 0 <= i < |r.value.algoritmosUsados| ==> r.value.algoritmosUsados[i] == "Uniforme"
    {
      var p := Progresso(Lote([], []), {});
      var restante := combustivel;
      while |p.lote.jogos| < quantidade
        invariant ProgressoValido(p) && LoteAceito(p.lote, algoritmos, forcar, fixos, removidos)
        invariant |p.lote.jogos| <= Max(quantidade, 0)
        invariant forall i :: 0 <= i < |p.lote.algoritmosUsados| ==> p.lote.algoritmosUsados[i] == "Uniforme"
        decreases restante
      {
        if restante == 0 {
          return Failure(SemCombustivel);
        }
        restante := restante - 1;
        var jogo := UniformeBalanceado(forcar, fixos, removidos);
        RegistrarAceito(p, jogo, "Uniforme", algoritmos, forcar, fixos, removidos);
        p := Registrar(p, jogo, "Uniforme");
      }
      return Success(p.lote);
    }

    /** Phase 1 of `gerarJogos`: for each selected score algorithm in turn, up to
        `ceil(quantidade / n)` games with that algorithm alone, never past `quantidade`. */
    method Fase1(quantidade: int, algoritmos: seq<string>, forcar: bool, fixos: seq<int>, removidos: seq<int>)
      returns (p: Progresso)
      requires |AlgoritmosScore(algoritmos)| > 0
      modifies rng
      ensures ProgressoValido(p) && LoteAceito(p.lote, algoritmos, forcar, fixos, removidos)
      ensures |p.lote.jogos| <= Max(quantidade, 0)
    {
      var algs := AlgoritmosScore(algoritmos);
      var porAlgoritmo := Teto(quantidade, |algs|);
      p := Progresso(Lote([], []), {});
      for k := 0 to |algs|
        invariant ProgressoValido(p) && LoteAceito(p.lote, algoritmos, forcar, fixos, removidos)
        invariant |p.lote.jogos| <= Max(quantidade, 0)
      {
        var alg := algs[k];
        var rotulo := Capitalizar(alg);
        RotuloDeScore(algs, k);
        var n := Min(porAlgoritmo, quantidade - |p.lote.jogos|);
        var i := 0;
        while i < n
          invariant ProgressoValido(p) && LoteAceito(p.lote, algoritmos, forcar, fixos, removidos)
          invariant |p.lote.jogos| <= Max(quantidade, 0)
          decreases n - i
        {
          if |p.lote.jogos| >= quantidade {
            break;
          }
          var jogo;
          ghost var fallback;
          jogo, fallback := GerarPorScores(PesosUnicos(alg), forcar, fixos, removidos);
          RegistrarAceito(p, jogo, rotulo, algoritmos, forcar, fixos, removidos);
          p := Registrar(p, jogo, rotulo);
          i := i + 1;
        }
      }
    }

    /** Phase 2 of `gerarJogos`: until the batch is full, a uniform game when `uniforme` is
        selected and `Math.random()` (the `moeda` generator) exceeds 0.5; otherwise a mixed
        game when two or more score algorithms are selected, or a game of the only one.
        `combustivel` bounds the number of rounds. */
    method Fase2(p0: Progresso, quantidade: int, algoritmos: seq<string>, forcar: bool, fixos: seq<int>,
                 removidos: seq<int>, moeda: Rng, combustivel: nat) returns (r: Result<Lote, Falha>)
      requires |AlgoritmosScore(algoritmos)| > 0
      requires ProgressoValido(p0) && LoteAceito(p0.lote, algoritmos, forcar, fixos, removidos)
      requires |p0.lote.jogos| <= Max(quantidade, 0)
      modifies rng, moeda
      ensures r.Failure? ==> r.error == SemCombustivel
      ensures r.Success? ==> LoteCorreto(r.value, quantidade, algoritmos, forcar, fixos, removidos)
    {
      var algs := AlgoritmosScore(algoritmos);
      var usarUniforme := "uniforme" in algoritmos;
      var p := p0;
      var restante := combustivel;
      while |p.lote.jogos| < quantidade
        invariant ProgressoValido(p) && LoteAceito(p.lote, algoritmos, forcar, fixos, removidos)
        invariant |p.lote.jogos| <= Max(quantidade, 0)
        decreases restante
      {
        if restante == 0 {
          return Failure(SemCombustivel);
        }
        restante := restante - 1;
        var uniforme := false;
        if usarUniforme {
          var v := moeda.Random();
          uniforme := v > 0.5;
        }
        var jogo: seq<int>;
        var rotulo: string;
        ghost var fallback: bool;
        if uniforme {
          jogo := UniformeBalanceado(forcar, fixos, removidos);
          rotulo := "Uniforme";
        } else if |algs| > 1 {
          jogo, fallback := GerarPorScores(PesosMisto(algs), forcar, fixos, removidos);
          rotulo := "Misto";
        } else {
          var alg := algs[0];
          RotuloDeScore(algs, 0);
          jogo, fallback := GerarPorScores(PesosUnicos(alg), forcar, fixos, removidos);
          rotulo := Capitalizar(alg);
        }
        RegistrarAceito(p, jogo, rotulo, algoritmos, forcar, fixos, removidos);
        p := Registrar(p, jogo, rotulo);
      }
      return Success(p.lote);
    }

    /** `gerarJogos`: `quantidade` distinct games with the label of the algorithm behind each.
        Only uniform games when no score algorithm is selected; otherwise phase 1, then
        phase 2. */
    method GerarJogos(quantidade: int, algoritmos: seq<string>, forcar: bool, fixos: seq<int>,
                      removidos: seq<int>, moeda: Rng, combustivel: nat) returns (r: Result<Lote, Falha>)
      modifies rng, moeda
      ensures r.Failure? ==> r.error == SemCombustivel
      ensures r.Success? ==> LoteCorreto(r.value, quantidade, algoritmos, forcar, fixos, removidos)
      ensures r.Success? && AlgoritmosScore(algoritmos) == [] ==>
                forall i :: 0 <= i < |r.value.algoritmosUsados| ==> r.value.algoritmosUsados[i] == "Uniforme"
    {
      var algs := AlgoritmosScore(algoritmos);
      if |algs| == 0 {
        r := GerarApenasUniforme(quantidade, algoritmos, forcar, fixos, removidos, combustivel);
        return;
      }
      var p := Fase1(quantidade, algoritmos, forcar, fixos, removidos);
      r := Fase2(p, quantidade, algoritmos, forcar, fixos, removidos, moeda, combustivel);
    }
  }

  /** The loop of `gerarPorScores` that combines the scores of the numbers neither fixed nor
      removed. The source fills a `Map` and reads back its keys and values, which come out in
      insertion order: ascending. */
  method CombinarDisponiveis(p: Pesos, sf: map<int, real>, sm: map<int, real>, sc: map<int, real>,
                             sa: map<int, real>, fixos: seq<int>, removidos: seq<int>)
    returns (dezenas: seq<int>, valores: seq<real>)
    ensures dezenas == Disponiveis(fixos, removidos) && |valores| == |dezenas|
    ensures forall i :: 0 <= i < |dezenas| ==> valores[i] == Combinado(p, sf, sm, sc, sa, dezenas[i])
  {
    dezenas, valores := [], [];
    for d := DezenaMin to DezenaMax + 1
      invariant dezenas == DisponiveisAte(d - 1, fixos, removidos) && |valores| == |dezenas|
      invariant forall i :: 0 <= i < |dezenas| ==> valores[i] == Combinado(p, sf, sm, sc, sa, dezenas[i])
    {
      if d in fixos || d in removidos {
        continue;
      }
      var score := Combinado(p, sf, sm, sc, sa, d);
      dezenas := dezenas + [d];
      valores := valores + [score];
    }
  }

  /** The loop of `gerarUniforme` that lists the available numbers. */
  method ListarDisponiveis(fixos: seq<int>, removidos: seq<int>) returns (disponiveis: seq<int>)
    ensures disponiveis == Disponiveis(fixos, removidos)
  {
    disponiveis := [];
    for i := DezenaMin to DezenaMax + 1
      invariant disponiveis == DisponiveisAte(i - 1, fixos, removidos)
    {
      DisponiveisPasso(i, fixos, removidos);
      if i !in fixos && i !in removidos {
        disponiveis := disponiveis + [i];
      }
      assert disponiveis == DisponiveisAte(i, fixos, removidos);
    }
  }

  /** One more number of the universe is appended unless it is fixed or removed. */
  lemma DisponiveisPasso(n: int, fixos: seq<int>, removidos: seq<int>)
    requires DezenaMin <= n
    ensures n in fixos || n in removidos ==> DisponiveisAte(n, fixos, removidos) == DisponiveisAte(n - 1, fixos, removidos)
    ensures n !in fixos && n !in removidos ==>
              DisponiveisAte(n, fixos, removidos) == DisponiveisAte(n - 1, fixos, removidos) + [n]
  {
  }

  /** The loop of `gerarUniforme`: moves randomly chosen numbers of `base` after the fixed
      ones until the game holds six or none is left. */
  method Sortear(rng: Rng, fixos: seq<int>, base: seq<int>)
    returns (novo: seq<int>, ghost extras: seq<int>, ghost resto: seq<int>)
    modifies rng
    ensures novo == fixos + extras
    ensures multiset(extras) + multiset(resto) == multiset(base)
    ensures |fixos| >= TamanhoJogo ==> extras == []
    ensures |fixos| < TamanhoJogo ==> |fixos| + |extras| <= TamanhoJogo
    ensures !(|fixos| + |extras| < TamanhoJogo && |resto| > 0)
  {
    var disponiveis := base;
    novo := fixos;
    extras := [];
    while |novo| < TamanhoJogo && |disponiveis| > 0
      invariant novo == fixos + extras
      invariant multiset(extras) + multiset(disponiveis) == multiset(base)
      invariant |fixos| >= TamanhoJogo ==> extras == []
      invariant |fixos| < TamanhoJogo ==> |novo| <= TamanhoJogo
      decreases |disponiveis|
    {
      var idx := rng.RandBelow(|disponiveis|);
      novo := novo + [disponiveis[idx]];
      extras := extras + [disponiveis[idx]];
      disponiveis := Remover(disponiveis, idx);
    }
    resto := disponiveis;
  }

  /** When `gerarUniforme`'s loop stops, the sorted game is a uniform game. */
  lemma UniformeFinal(fixos: seq<int>, removidos: seq<int>, extras: seq<int>, resto: seq<int>, jogo: seq<int>)
    requires multiset(extras) + multiset(resto) == multiset(Disponiveis(fixos, removidos))
    requires |fixos| >= TamanhoJogo ==> extras == []
    requires |fixos| < TamanhoJogo ==> |fixos| + |extras| <= TamanhoJogo
    requires !(|fixos| + |extras| < TamanhoJogo && |resto| > 0)
    requires multiset(jogo) == multiset(fixos + extras) && Crescente(jogo)
    ensures Uniforme(jogo, fixos, removidos)
  {
    ComporJogo(fixos, removidos, extras, jogo);
    TamanhoFinal(fixos, extras, resto, Disponiveis(fixos, removidos));
    assert |jogo| == |multiset(jogo)| == |fixos + extras|;
  }

  /** When the drawing loop of `gerarUniforme` stops, the game has its expected size. */
  lemma TamanhoFinal(fixos: seq<int>, extras: seq<int>, resto: seq<int>, base: seq<int>)
    requires multiset(extras) + multiset(resto) == multiset(base)
    requires |fixos| >= TamanhoJogo ==> extras == []
    requires |fixos| < TamanhoJogo ==> |fixos| + |extras| <= TamanhoJogo
    requires !(|fixos| + |extras| < TamanhoJogo && |resto| > 0)
    ensures |fixos + extras| == TamanhoUniforme(|fixos|, |base|)
  {
    assert |extras| + |resto| == |base| by {
      assert |multiset(extras) + multiset(resto)| == |multiset(base)|;
    }
  }
}
