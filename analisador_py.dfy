/** The Python analyzer, `AnalisadorMegaSena` of `app_web.py` and of `mega_sena_app.py` (the
    two copies agree line for line; `app_web.py` adds `conferir_jogo` and `simular_jogo`).
    It keeps the draws sorted by date and computes the same four tallies as the TypeScript
    analyzer, with the Python normalisation, which raises `ZeroDivisionError` when every
    tally of a non-empty dictionary is 0. */
module AnalisadorPy {
  import opened Loteria
  import opened Contagens
  import opened Contadores
  import opened Algoritmos

  class AnalisadorMegaSena {
    /** The draws, sorted by date. */
    const concursos: seq<Concurso>
    /** The most recent draw, if any. */
    const ultimoConcurso: Option<Concurso>

    /** The draws are in date order and `ultimoConcurso` is the last of them. */
    ghost predicate Valido()
    {
      OrdenadoPor(concursos, DataDe) && UltimoValido()
    }

    /** `ultimoConcurso` is the last draw, if any. */
    ghost predicate UltimoValido()
    {
      ultimoConcurso == if concursos == [] then None else Some(concursos[|concursos| - 1])
    }

    /** `__init__`: the draws sorted by date (a stable sort, so draws of the same day keep
        the caller's order), and the last of them. */
    constructor (entrada: seq<Concurso>)
      ensures concursos == OrdenarPor(entrada, DataDe)
      ensures multiset(concursos) == multiset(entrada)
      ensures Valido()
    {
      var ordenados := OrdenarPor(entrada, DataDe);
      concursos := ordenados;
      ultimoConcurso := if ordenados == [] then None else Some(ordenados[|ordenados| - 1]);
    }

    /** `filtrar_por_anos`: a new analyzer over the draws dated on or after `limite` (the day
        `anos * 365` days before today; the clock is the caller's). The draws kept are the
        most recent ones, and re-sorting them changes nothing. */
    method FiltrarPorAnos(limite: int) returns (a: AnalisadorMegaSena)
      requires Valido()
      ensures fresh(a) && a.Valido()
      ensures a.concursos == FiltrarDesde(concursos, limite)
      ensures exists k :: 0 <= k <= |concursos| && a.concursos == concursos[k..]
    {
      var filtrados := FiltrarDesde(concursos, limite);
      var k := FiltrarDesdeSufixo(concursos, limite);
      OrdenadoSufixo(concursos, k, DataDe);
      OrdenarOrdenado(filtrados, DataDe);
      a := new AnalisadorMegaSena(filtrados);
      assert a.concursos == concursos[k..];
    }

    /** `calcular_frequencias`: every number some draw lists, with how many draws list it. */
    method CalcularFrequencias() returns (freq: map<int, nat>)
      ensures TabelaDe(freq, Frequencia(concursos))
      ensures forall d :: d in freq ==> NoUniverso(d)
    {
      freq := ContarFrequencias(concursos);
      forall d ensures Get(freq, d) == Listam(concursos, d) {
        FrequenciaConta(concursos, d);
      }
    }

    /** `scores_frequencia`: all 0 when nothing was drawn, otherwise each frequency over the
        largest one, so that the most frequent numbers score exactly 1. */
    method ScoresFrequencia() returns (scores: map<int, real>)
      ensures Normalizado(scores, Frequencia(concursos))
      ensures forall d :: d in scores ==> 0.0 <= scores[d] <= 1.0
      ensures forall d :: d in scores ==> (scores[d] == 0.0 <==> Listam(concursos, d) == 0)
      ensures forall d :: d in scores ==>
                (scores[d] == 1.0 <==>
                   Listam(concursos, d) > 0 && forall e :: NoUniverso(e) ==> Listam(concursos, e) <= Listam(concursos, d))
    {
      var freq := CalcularFrequencias();
      if |freq| == 0 {
        scores := Dividido(freq, 1);
        DivididoNormalizado(freq, 0, 1);
      } else {
        var maxFreq := MaiorValor(freq);
        scores := Dividido(freq, maxFreq);
        DivididoNormalizado(freq, maxFreq, maxFreq);
      }
      Normalizacao(scores, freq, Frequencia(concursos));
      PropriedadesNormalizado(scores, Frequencia(concursos));
    }

    /** `calcular_matriz_markov`: cell (a, b) counts the consecutive draws with `a` in the
        earlier one and `b` in the later one. */
    method CalcularMatrizMarkov() returns (matriz: map<int, map<int, nat>>)
      ensures MatrizDe(matriz, Transicoes(concursos))
      ensures forall a, b :: Celula(matriz, a, b) == Seguidas(concursos, a, b)
    {
      matriz := ContarTransicoes(concursos);
      forall a, b ensures Celula(matriz, a, b) == Seguidas(concursos, a, b) {
        TransicoesConta(concursos, a, b);
      }
    }

    /** `scores_markov()` (no reference set given): all 0 without draws; otherwise, over the
        numbers of the last draw, the transitions leading to each number, normalised. */
    method ScoresMarkov() returns (scores: map<int, real>)
      requires UltimoValido()
      ensures Normalizado(scores, Markov(concursos))
      ensures forall d :: d in scores ==> 0.0 <= scores[d] <= 1.0
      ensures forall d :: d in scores ==>
                (scores[d] == 0.0 <==>
                   forall r :: r in Referencias(concursos) && NoUniverso(r) ==> Seguidas(concursos, r, d) == 0)
      ensures |concursos| <= 1 ==> forall d :: d in scores ==> scores[d] == 0.0
    {
      match ultimoConcurso {
      case None =>
        var vazio: map<int, nat> := map[];
        scores := Dividido(vazio, 1);
        DivididoNormalizado(vazio, 0, 1);
        MarkovSemTransicoes(concursos);
        NormalizadoExt(scores, Valores(vazio), Markov(concursos));
      case Some(ultimo) =>
        var matriz := CalcularMatrizMarkov();
        scores := SeguidoresNormalizados(concursos, matriz, ultimo.dezenas);
      }
      MarkovZeros(scores, concursos);
    }

    /** `calcular_coocorrencias`: for every pair a < b drawn together, how many draws hold
        both, and the order in which the pairs were first seen (the dictionary's order). */
    method CalcularCoocorrencias() returns (cooc: map<(int, int), nat>, ordem: seq<(int, int)>)
      ensures forall p :: Get(cooc, p) == if p.0 < p.1 then Juntas(concursos, p.0, p.1) else 0
      ensures forall p :: p in cooc ==> cooc[p] > 0 && p.0 < p.1 && NoUniverso(p.0) && NoUniverso(p.1)
      ensures OrdemDe(ordem, cooc)
      ensures ordem == PrimeirosPares(concursos) && cooc == ContagemPares(concursos)
    {
      cooc, ordem := ContarCoocorrencias(concursos);
      CoocorrenciasTotal(concursos);
      forall p ensures Get(cooc, p) == if p.0 < p.1 then Juntas(concursos, p.0, p.1) else 0 {
        CoocorrenciasConta(concursos, p);
      }
      ContagemParesDe(concursos, cooc);
    }

    /** `scores_coocorrencia`: the 100 pairs with the largest counts (`top`), then each
        number's summed count over those pairs, normalised; a number in none of them scores 0. */
    method ScoresCoocorrencia() returns (scores: map<int, real>, ghost top: seq<((int, int), nat)>)
      ensures TopoDe(top, concursos)
      ensures Normalizado(scores, Pontos(top))
      ensures forall d :: d in scores ==> 0.0 <= scores[d] <= 1.0
      ensures forall d :: d in scores ==>
                (scores[d] == 0.0 <==> forall i :: 0 <= i < |top| ==> top[i].0.0 != d && top[i].0.1 != d)
      ensures top == MaisFrequentes(PrimeirosPares(concursos), ContagemPares(concursos), 100)
    {
      var topPares := TopPares();
      top := topPares;
      scores := PontuarPares(topPares, concursos);
    }

    /** The first half of `scores_coocorrencia`: the pair counts sorted by decreasing count
        and cut to the first 100. */
    method TopPares() returns (top: seq<((int, int), nat)>)
      ensures TopoDe(top, concursos)
      ensures top == MaisFrequentes(PrimeirosPares(concursos), ContagemPares(concursos), 100)
    {
      var cooc, ordem := CalcularCoocorrencias();
      top := MaisFrequentes(ordem, cooc, 100);
      MaisFrequentesTopo(concursos, cooc, ordem);
    }

    /** `pares_mais_frequentes(top_n)`: the pair counts by decreasing count, cut to the first
        `top_n` (Python slicing: a negative `top_n` drops that many from the end). Fewer than
        `top_n` pairs come back only when every pair ever drawn together is among them. */
    method ParesMaisFrequentes(topN: int) returns (top: seq<((int, int), nat)>)
      ensures ParesPorContagem(top, concursos)
      ensures topN >= 0 ==> |top| <= topN
      ensures 0 <= |top| < topN ==> forall a, b :: a < b && Juntas(concursos, a, b) > 0 ==> (a, b) in Chaves(top)
      ensures top == MaisFrequentes(PrimeirosPares(concursos), ContagemPares(concursos), topN)
    {
      var cooc, ordem := CalcularCoocorrencias();
      top := MaisFrequentes(ordem, cooc, topN);
      MaisFrequentesPares(concursos, cooc, ordem, topN);
    }

    /** `calcular_atrasos`: for every number, how many of the latest draws miss it. */
    method CalcularAtrasos() returns (atrasos: map<int, nat>)
      ensures forall d :: d in atrasos <==> NoUniverso(d)
      ensures forall d :: d in atrasos ==> atrasos[d] == Atraso(concursos, d) <= |concursos|
      ensures forall d :: d in atrasos ==>
                (atrasos[d] == 0 <==> concursos == [] || d in concursos[|concursos| - 1].dezenas)
    {
      atrasos := ContarAtrasos(concursos);
    }

    /** `scores_atraso`: each delay over the largest delay. Without draws every delay is 0 and
        the division raises `ZeroDivisionError`; with at least one draw some number is missing
        from the last draw, so the largest delay is positive. */
    method ScoresAtraso() returns (r: Result<map<int, real>, Falha>)
      ensures r.Failure? <==> concursos == []
      ensures r.Failure? ==> r.error == ZeroDivisionError
      ensures r.Success? ==> Normalizado(r.value, Atrasos(concursos))
      ensures r.Success? ==> forall d :: d in r.value ==> 0.0 <= r.value[d] <= 1.0
      ensures r.Success? ==> forall d :: d in r.value ==>
                (r.value[d] == 0.0 <==> d in concursos[|concursos| - 1].dezenas)
    {
      var atrasos := CalcularAtrasos();
      if concursos == [] {
        assert DezenaMin in atrasos && atrasos[DezenaMin] == 0;
      } else {
        var d := AtrasoPositivo(concursos);
        assert d in atrasos && atrasos[d] > 0;
      }
      r := Normalizar(atrasos);
      if r.Success? {
        Normalizacao(r.value, atrasos, Atrasos(concursos));
      }
    }

    /** `dezenas_mais_atrasadas(top_n)`: the numbers with their delays, by decreasing delay
        (numbers with equal delays in ascending order), cut to the first `top_n`. */
    method DezenasMaisAtrasadas(topN: int) returns (r: seq<(int, nat)>)
      ensures |r| == Fatia(DezenaMax - DezenaMin + 1, topN)
      ensures forall i :: 0 <= i < |r| ==> NoUniverso(r[i].0) && r[i].1 == Atraso(concursos, r[i].0)
      ensures Distintos(Chaves(r))
      ensures forall i, j :: 0 <= i < j < |r| ==> r[i].1 >= r[j].1
      ensures forall d :: NoUniverso(d) && d !in Chaves(r) ==>
                forall i :: 0 <= i < |r| ==> Atraso(concursos, d) <= r[i].1
      ensures r == MaisFrequentes(Universo(), MapaAtrasos(concursos), topN)
    {
      var atrasos := CalcularAtrasos();
      assert atrasos == MapaAtrasos(concursos);
      UniversoChaves();
      forall k ensures k in Universo() <==> k in atrasos {
        assert k in Universo() <==> NoUniverso(k);
      }
      r := MaisFrequentes(Universo(), atrasos, topN);
      MaisFrequentesPropriedades(Universo(), atrasos, topN);
    }

    /** `simular_jogo(dezenas, ultimos_n)`: checks the game against each of the latest
        `ultimos_n` draws, counting how many draws it hits 0, 1, ..., 6 times and listing the
        draws it hits at least four times, in order. */
    method SimularJogo(dezenas: seq<int>, ultimosN: int) returns (res: Simulacao)
      ensures res.totalConcursos == |Janela(concursos, ultimosN)|
      ensures res.acertos == Histograma(Janela(concursos, ultimosN), dezenas)
      ensures res.detalhes == DetalhesDe(Janela(concursos, ultimosN), dezenas)
    {
      var sim := Janela(concursos, ultimosN);
      var acertos, detalhes := ConferirTodos(sim, dezenas);
      res := Simulacao(|sim|, acertos, detalhes);
    }
  }

  /** The second half of `scores_coocorrencia`: each number's summed count over the listed
      pairs, normalised. A number in none of them scores 0. */
  method PontuarPares(top: seq<((int, int), nat)>, ghost cs: seq<Concurso>) returns (scores: map<int, real>)
    requires TopoDe(top, cs)
    ensures Normalizado(scores, Pontos(top))
    ensures forall d :: d in scores ==> 0.0 <= scores[d] <= 1.0
    ensures forall d :: d in scores ==>
              (scores[d] == 0.0 <==> forall i :: 0 <= i < |top| ==> top[i].0.0 != d && top[i].0.1 != d)
  {
    var soma := SomarContagensPares(top);
    PontosPositivos(top, cs, soma);
    scores := PontosNormalizados(top, soma);
  }

  /** The second half of `scores_coocorrencia`: the summed pair counts of the top pairs,
      normalised; 0 exactly for the numbers in none of them. */
  method PontosNormalizados(ghost top: seq<((int, int), nat)>, soma: map<int, nat>)
    returns (scores: map<int, real>)
    requires forall i :: 0 <= i < |top| ==> top[i].1 > 0
    requires forall d :: Get(soma, d) == PontosPares(top, d)
    requires forall d :: d in soma ==> NoUniverso(d) && soma[d] > 0
    ensures Normalizado(scores, Pontos(top))
    ensures forall d :: d in scores ==> 0.0 <= scores[d] <= 1.0
    ensures forall d :: d in scores ==>
              (scores[d] == 0.0 <==> forall i :: 0 <= i < |top| ==> top[i].0.0 != d && top[i].0.1 != d)
  {
    ChavePositiva(soma);
    var r := Normalizar(soma);
    if r.Failure? {
      assert false;
    }
    scores := r.value;
    Normalizacao(scores, soma, Pontos(top));
    forall d | d in scores
      ensures scores[d] == 0.0 <==> forall i :: 0 <= i < |top| ==> top[i].0.0 != d && top[i].0.1 != d
    {
      PontosParesZero(top, d);
    }
  }

  /** The second half of `scores_markov`: sums the followers of the reference numbers and
      divides by the largest sum. The follower tally is never empty of positive counts when
      it has keys, so the division cannot be by zero. */
  method SeguidoresNormalizados(ghost cs: seq<Concurso>, matriz: map<int, map<int, nat>>, referencia: seq<int>)
    returns (scores: map<int, real>)
    requires cs != [] && referencia == cs[|cs| - 1].dezenas
    requires MatrizDe(matriz, Transicoes(cs))
    ensures Normalizado(scores, Markov(cs))
  {
    var soma := SomarSeguidores(cs, matriz, referencia);
    SomaMarkov(cs, referencia, soma);
    ChavePositiva(soma);
    var r := Normalizar(soma);
    if r.Failure? {
      assert false;
    }
    scores := r.value;
    NormalizadoExt(scores, Valores(soma), Markov(cs));
  }

  /** A normalised Markov score lies in 0..1, is 0 exactly for the numbers that no reference
      number of the universe was ever followed by, and is 0 everywhere with fewer than two
      draws. */
  lemma MarkovZeros(scores: map<int, real>, cs: seq<Concurso>)
    requires Normalizado(scores, Markov(cs))
    ensures forall d :: d in scores ==> 0.0 <= scores[d] <= 1.0
    ensures forall d :: d in scores ==>
              (scores[d] == 0.0 <==> forall r :: r in Referencias(cs) && NoUniverso(r) ==> Seguidas(cs, r, d) == 0)
    ensures |cs| <= 1 ==> forall d :: d in scores ==> scores[d] == 0.0
  {
    PropriedadesNormalizado(scores, Markov(cs));
    forall d | d in scores
      ensures scores[d] == 0.0 <==> forall r :: r in Referencias(cs) && NoUniverso(r) ==> Seguidas(cs, r, d) == 0
    {
      SeguidoresZero(cs, Referencias(cs), d);
    }
    if |cs| <= 1 {
      MarkovSemTransicoes(cs);
      NormalizadoZero(scores, Markov(cs));
    }
  }

  // ---------------------------------------------------------------- the most frequent pairs

  /** The pair scores before normalisation are positive for every number they hold, and
      every such number belongs to the universe. */
  lemma PontosPositivos(top: seq<((int, int), nat)>, cs: seq<Concurso>, soma: map<int, nat>)
    requires TopoDe(top, cs)
    requires forall d :: Get(soma, d) == PontosPares(top, d)
    requires forall d :: d in soma ==> exists i :: 0 <= i < |top| && (top[i].0.0 == d || top[i].0.1 == d)
    ensures forall d :: d in soma ==> NoUniverso(d) && soma[d] > 0
  {
    forall d | d in soma ensures NoUniverso(d) && soma[d] > 0 {
      var i :| 0 <= i < |top| && (top[i].0.0 == d || top[i].0.1 == d);
      assert Get(soma, d) == PontosPares(top, d);
      PontosParesZero(top, d);
    }
  }

  /** `top` lists pairs a < b of the universe drawn together, each once, with their counts, by
      decreasing count; a pair left out has a count no larger than any listed. */
  ghost predicate ParesPorContagem(top: seq<((int, int), nat)>, cs: seq<Concurso>)
  {
    Distintos(Chaves(top)) &&
    (forall i :: 0 <= i < |top| ==>
       NoUniverso(top[i].0.0) && NoUniverso(top[i].0.1) &&
       top[i].0.0 < top[i].0.1 && top[i].1 == Juntas(cs, top[i].0.0, top[i].0.1) > 0) &&
    (forall i, j :: 0 <= i < j < |top| ==> top[i].1 >= top[j].1) &&
    (forall a, b :: a < b && Juntas(cs, a, b) > 0 && (a, b) !in Chaves(top) ==>
       forall i :: 0 <= i < |top| ==> Juntas(cs, a, b) <= top[i].1)
  }

  /** The `n` most frequent entries of the pair dictionary are listed by decreasing count, and
      a list shorter than `n` holds every pair. */
  lemma MaisFrequentesPares(cs: seq<Concurso>, cooc: map<(int, int), nat>, ordem: seq<(int, int)>, n: int)
    requires forall p :: Get(cooc, p) == if p.0 < p.1 then Juntas(cs, p.0, p.1) else 0
    requires forall p :: p in cooc ==> cooc[p] > 0 && p.0 < p.1 && NoUniverso(p.0) && NoUniverso(p.1)
    requires OrdemDe(ordem, cooc)
    ensures var top := MaisFrequentes(ordem, cooc, n);
            && ParesPorContagem(top, cs)
            && (n >= 0 ==> |top| <= n)
            && (0 <= |top| < n ==> forall a, b :: a < b && Juntas(cs, a, b) > 0 ==> (a, b) in Chaves(top))
  {
    var top := MaisFrequentes(ordem, cooc, n);
    MaisFrequentesPropriedades(ordem, cooc, n);
    forall i | 0 <= i < |top|
      ensures top[i].0.0 < top[i].0.1 && top[i].1 == Juntas(cs, top[i].0.0, top[i].0.1) > 0
    {
      assert Get(cooc, top[i].0) == top[i].1;
    }
    forall a, b | a < b && Juntas(cs, a, b) > 0 && (a, b) !in Chaves(top)
      ensures forall i :: 0 <= i < |top| ==> Juntas(cs, a, b) <= top[i].1
    {
      assert Get(cooc, (a, b)) > 0;
    }
    if 0 <= |top| < n {
      MaisFrequentesTodas(ordem, cooc, n);
      forall a, b | a < b && Juntas(cs, a, b) > 0 ensures (a, b) in Chaves(top) {
        assert Get(cooc, (a, b)) > 0;
      }
    }
  }

  // ---------------------------------------------------------------- checking a game

  /** `conferir_jogo`: how many numbers the game shares with the draw, counted as a set
      intersection. It is the number of drawn numbers the game holds, so at most 6, and 6
      exactly when the game holds the whole draw. */
  function ConferirJogo(dezenas: seq<int>, c: Concurso): (r: nat)
    ensures r == Conta(c.dezenas, d => d in dezenas)
    ensures r <= TamanhoJogo
    ensures r == TamanhoJogo <==> forall d :: d in c.dezenas ==> d in dezenas
  {
    var jogo := set d | d in dezenas;
    var sorteio := set d | d in c.dezenas;
    ContaConjunto(c.dezenas, jogo);
    ContaExt(c.dezenas, x => x in jogo, d => d in dezenas);
    ContaLimite(c.dezenas, d => d in dezenas);
    assert jogo * sorteio == sorteio * jogo;
    |jogo * sorteio|
  }

  /** One line of the simulation's details: a draw the game hit at least four times. */
  datatype Detalhe = Detalhe(concurso: int, data: int, acertos: nat, dezenasSorteadas: seq<int>)

  /** The result of `simular_jogo`: the number of draws checked, how many of them the game hit
      exactly k times (k = 0..6), and the details of the draws hit at least four times. */
  datatype Simulacao = Simulacao(totalConcursos: nat, acertos: seq<nat>, detalhes: seq<Detalhe>)

  /** `concursos[-n:] if len(concursos) > n else concursos`, with Python's slicing: the last `n`
      draws for a positive `n`, all of them for `n == 0` (`[-0:]` is `[0:]`), and all but the
      first `-n` for a negative `n`. */
  function Janela(cs: seq<Concurso>, n: int): (r: seq<Concurso>)
    ensures |r| <= |cs| && r == cs[|cs| - |r|..]
    ensures n > 0 ==> |r| == Min(n, |cs|)
    ensures n <= 0 ==> |r| == Max(|cs| + n, 0)
  {
    if |cs| <= n then cs
    else if n > 0 then cs[|cs| - n..]
    else cs[Min(-n, |cs|)..]
  }

  /** The loop of `simular_jogo`: checks the game against each draw in turn, adding one to
      the bar of its hit count and, from four hits on, one line of details. */
  method ConferirTodos(sim: seq<Concurso>, dezenas: seq<int>) returns (acertos: seq<nat>, detalhes: seq<Detalhe>)
    ensures acertos == Histograma(sim, dezenas)
    ensures detalhes == DetalhesDe(sim, dezenas)
  {
    acertos := [0, 0, 0, 0, 0, 0, 0];
    detalhes := [];
    assert acertos == Histograma(sim[..0], dezenas);
    for i := 0 to |sim|
      invariant acertos == Histograma(sim[..i], dezenas)
      invariant detalhes == DetalhesDe(sim[..i], dezenas)
    {
      var c := sim[i];
      var n := ConferirJogo(dezenas, c);
      HistogramaPasso(sim, dezenas, i);
      acertos := acertos[n := acertos[n] + 1];
      if n >= 4 {
        detalhes := detalhes + [Detalhe(c.numero, c.data, n, c.dezenas)];
      }
    }
    assert sim[..|sim|] == sim;
  }

  /** How many of the draws the game hits exactly `k` times. */
  function ComAcertos(cs: seq<Concurso>, dezenas: seq<int>, k: int): nat
  {
    if cs == [] then 0
    else ComAcertos(cs[..|cs| - 1], dezenas, k) + (if ConferirJogo(dezenas, cs[|cs| - 1]) == k then 1 else 0)
  }

  /** The hit histogram `{0: ..., 1: ..., ..., 6: ...}` as a list indexed by the hit count. */
  function Histograma(cs: seq<Concurso>, dezenas: seq<int>): (h: seq<nat>)
    ensures |h| == TamanhoJogo + 1
  {
    seq(TamanhoJogo + 1, k => ComAcertos(cs, dezenas, k))
  }

  /** The details of the draws the game hits at least four times, in order. */
  function DetalhesDe(cs: seq<Concurso>, dezenas: seq<int>): seq<Detalhe>
  {
    if cs == [] then []
    else
      var c := cs[|cs| - 1];
      var n := ConferirJogo(dezenas, c);
      DetalhesDe(cs[..|cs| - 1], dezenas) + (if n >= 4 then [Detalhe(c.numero, c.data, n, c.dezenas)] else [])
  }

  /** One more draw adds one to the bar of its hit count. */
  lemma HistogramaPasso(cs: seq<Concurso>, dezenas: seq<int>, i: nat)
    requires i < |cs|
    ensures Histograma(cs[..i + 1], dezenas) ==
              Histograma(cs[..i], dezenas)[ConferirJogo(dezenas, cs[i]) := Histograma(cs[..i], dezenas)[ConferirJogo(dezenas, cs[i])] + 1]
    ensures DetalhesDe(cs[..i + 1], dezenas) ==
              DetalhesDe(cs[..i], dezenas) +
              (if ConferirJogo(dezenas, cs[i]) >= 4
               then [Detalhe(cs[i].numero, cs[i].data, ConferirJogo(dezenas, cs[i]), cs[i].dezenas)] else [])
  {
    assert cs[..i + 1][..i] == cs[..i];
  }

  /** The bars of the histogram add up to the number of draws checked. */
  lemma {:induction false} HistogramaTotal(cs: seq<Concurso>, dezenas: seq<int>)
    ensures Soma(0, TamanhoJogo + 1, k => ComAcertos(cs, dezenas, k)) == |cs|
  {
    var f := k => ComAcertos(cs, dezenas, k);
    if cs == [] {
      SomaZero(0, TamanhoJogo + 1, f);
    } else {
      var t := cs[..|cs| - 1];
      var n := ConferirJogo(dezenas, cs[|cs| - 1]);
      var g := k => ComAcertos(t, dezenas, k);
      var um := k => if k == n then 1 else 0;
      HistogramaTotal(t, dezenas);
      SomaAdd(0, TamanhoJogo + 1, g, um, f);
      SomaPonto(0, TamanhoJogo + 1, um, n);
    }
  }

  /** The details list exactly the draws hit four, five or six times, each with its own hit
      count. */
  lemma {:induction false} DetalhesQuadraOuMais(cs: seq<Concurso>, dezenas: seq<int>)
    ensures |DetalhesDe(cs, dezenas)| ==
              ComAcertos(cs, dezenas, 4) + ComAcertos(cs, dezenas, 5) + ComAcertos(cs, dezenas, 6)
    ensures forall e :: e in DetalhesDe(cs, dezenas) ==>
              4 <= e.acertos <= TamanhoJogo &&
              exists c :: c in cs && e == Detalhe(c.numero, c.data, ConferirJogo(dezenas, c), c.dezenas)
  {
    if cs != [] {
      var t := cs[..|cs| - 1];
      DetalhesQuadraOuMais(t, dezenas);
      assert forall c :: c in t ==> c in cs;
    }
  }
}
