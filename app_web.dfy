/** The generator of the Streamlit application (`app_web.py`): games from the Python analyzer's
    scores, with fixed and removed numbers given as Python sets; the closure ("fechamento")
    generator; the next id of a saved game; and the CSV export. */
module AppWeb {
  import opened Loteria
  import opened Contagens
  import opened Acaso
  import opened C = Combinacoes
  import opened Texto
  import opened AnalisadorPy
  import Algoritmos

  // ---------------------------------------------------------------- composing a game

  /** `[d for d in range(DEZENA_MIN, n + 1) if d not in numeros_removidos and d not in
      numeros_fixos]`. */
  function DisponiveisAte(n: int, fixos: set<int>, removidos: set<int>): (r: seq<int>)
    ensures forall d :: d in r <==> DezenaMin <= d <= n && d !in fixos && d !in removidos
    ensures EstritamenteCrescente(r)
    decreases n
  {
    if n < DezenaMin then []
    else
      var antes := DisponiveisAte(n - 1, fixos, removidos);
      assert forall i :: 0 <= i < |antes| ==> antes[i] in antes;
      if n in fixos || n in removidos then antes else antes + [n]
  }

  /** The available numbers: those of 1..60 neither fixed nor removed, ascending. */
  function Disponiveis(fixos: set<int>, removidos: set<int>): (r: seq<int>)
    ensures forall d :: d in r <==> NoUniverso(d) && d !in fixos && d !in removidos
    ensures EstritamenteCrescente(r) && Distintos(r)
  {
    DisponiveisAte(DezenaMax, fixos, removidos)
  }

  /** A game of the Python generator: strictly ascending, holding every fixed number, and
      otherwise only numbers of 1..60 that are not removed. */
  predicate JogoPy(jogo: seq<int>, fixos: set<int>, removidos: set<int>)
  {
    EstritamenteCrescente(jogo) &&
    (forall d :: d in fixos ==> d in jogo) &&
    (forall d :: d in jogo && d !in fixos ==> NoUniverso(d) && d !in removidos)
  }

  /** With fixed numbers from 1..60, a six-number game is a valid ticket. */
  lemma JogoPySena(jogo: seq<int>, fixos: set<int>, removidos: set<int>)
    requires JogoPy(jogo, fixos, removidos) && |jogo| == TamanhoJogo
    requires forall d :: d in fixos ==> NoUniverso(d)
    ensures EhSena(jogo)
  {
    forall d | d in jogo ensures NoUniverso(d) {
      if d !in fixos {
      }
    }
  }

  lemma DistintosConcat(a: seq<int>, b: seq<int>)
    requires Distintos(a) && Distintos(b)
    requires forall x :: x in a ==> x !in b
    ensures Distintos(a + b)
  {
    forall i, j | 0 <= i < j < |a + b| ensures (a + b)[i] != (a + b)[j] {
      if j < |a| {
        assert (a + b)[i] == a[i] && (a + b)[j] == a[j];
      } else if i >= |a| {
        assert (a + b)[i] == b[i - |a|] && (a + b)[j] == b[j - |a|];
      } else {
        assert (a + b)[i] == a[i] && (a + b)[j] == b[j - |a|];
        assert a[i] in a && b[j - |a|] in b;
      }
    }
  }

  /** The fixed numbers, listed, followed by distinct available numbers, sort into a game
      of the Python generator holding exactly those numbers. */
  lemma ComporPy(fixos: set<int>, removidos: set<int>, lista: seq<int>, extras: seq<int>)
    requires Distintos(lista) && forall x :: x in lista <==> x in fixos
    requires multiset(extras) <= multiset(Disponiveis(fixos, removidos))
    ensures JogoPy(Ordenar(lista + extras), fixos, removidos)
    ensures |Ordenar(lista + extras)| == |lista| + |extras|
  {
    var disponiveis := Disponiveis(fixos, removidos);
    DistintosSubmultiset(extras, disponiveis);
    forall x | x in lista ensures x !in extras {
      assert multiset(disponiveis)[x] == 0;
      assert multiset(extras)[x] == 0;
    }
    DistintosConcat(lista, extras);
    OrdenarDistintos(lista + extras);
    forall d | d in Ordenar(lista + extras) && d !in fixos ensures NoUniverso(d) && d !in removidos {
      assert d in extras;
      assert d in multiset(disponiveis);
    }
  }

  // ---------------------------------------------------------------- combined scores

  /** `ScoreDezena`: the four scores of one number. */
  datatype ScoreDezena = ScoreDezena(dezena: int, frequencia: real, markov: real, coocorrencia: real,
                                     atraso: real)

  /** `score_total(pesos)`: the scores weighted (a missing weight is 0). */
  function ScoreTotal(s: ScoreDezena, p: Pesos): real
  {
    s.frequencia * p.frequencia + s.markov * p.markov + s.coocorrencia * p.coocorrencia + s.atraso * p.atraso
  }

  predicate PesosNaoNegativos(p: Pesos)
  {
    p.frequencia >= 0.0 && p.markov >= 0.0 && p.coocorrencia >= 0.0 && p.atraso >= 0.0
  }

  /** With weights that are not negative and scores in [0, 1], the total lies between 0 and
      the sum of the weights. */
  lemma ScoreTotalLimites(s: ScoreDezena, p: Pesos)
    requires PesosNaoNegativos(p)
    requires 0.0 <= s.frequencia <= 1.0 && 0.0 <= s.markov <= 1.0
    requires 0.0 <= s.coocorrencia <= 1.0 && 0.0 <= s.atraso <= 1.0
    ensures 0.0 <= ScoreTotal(s, p) <= p.frequencia + p.markov + p.coocorrencia + p.atraso
  {
    var f := Parcela(s.frequencia, p.frequencia);
    var m := Parcela(s.markov, p.markov);
    var c := Parcela(s.coocorrencia, p.coocorrencia);
    var a := Parcela(s.atraso, p.atraso);
    assert ScoreTotal(s, p) == f + m + c + a;
  }

  lemma Parcela(x: real, w: real) returns (r: real)
    requires 0.0 <= x <= 1.0 && w >= 0.0
    ensures r == x * w && 0.0 <= r <= w
  {
    r := x * w;
    var resto := Algoritmos.Produto(1.0 - x, w);
    assert resto == 1.0 * w - x * w;
  }

  /** The four score dictionaries `gerar_por_scores` reads; `{}` for an unselected one. */
  datatype Scores = Scores(frequencia: map<int, real>, markov: map<int, real>,
                           coocorrencia: map<int, real>, atraso: map<int, real>)

  /** The `ScoreDezena` of `d`: each score looked up with `.get(d, 0)`. */
  function ScoreDe(s: Scores, d: int): ScoreDezena
  {
    ScoreDezena(d, Algoritmos.GetReal(s.frequencia, d), Algoritmos.GetReal(s.markov, d),
                Algoritmos.GetReal(s.coocorrencia, d), Algoritmos.GetReal(s.atraso, d))
  }

  /** Each selected score dictionary is the analyzer's normalised score; each other one is
      empty. All scores lie in [0, 1]. */
  ghost predicate ScoresDe(p: Pesos, s: Scores, top: seq<((int, int), nat)>, cs: seq<Concurso>)
  {
    (if p.frequencia > 0.0 then Normalizado(s.frequencia, Algoritmos.Frequencia(cs)) else s.frequencia == map[]) &&
    (if p.markov > 0.0 then Normalizado(s.markov, Algoritmos.Markov(cs)) else s.markov == map[]) &&
    (if p.coocorrencia > 0.0 then Algoritmos.TopoDe(top, cs) && Normalizado(s.coocorrencia, Algoritmos.Pontos(top))
     else s.coocorrencia == map[]) &&
    (if p.atraso > 0.0 then Normalizado(s.atraso, Algoritmos.Atrasos(cs)) else s.atraso == map[]) &&
    ScoresUnitarios(s)
  }

  /** Every score lies in [0, 1]. */
  predicate ScoresUnitarios(s: Scores)
  {
    Algoritmos.Unitarios(s.frequencia) && Algoritmos.Unitarios(s.markov) &&
    Algoritmos.Unitarios(s.coocorrencia) && Algoritmos.Unitarios(s.atraso)
  }

  /** The combined score of an available number, plus the 0.1 floor, is the weight the
      TypeScript generator gives it too; with weights that are not negative it is at least
      0.1, so every available number can be drawn. */
  lemma PesoEscolha(p: Pesos, s: Scores, d: int)
    requires PesosNaoNegativos(p) && ScoresUnitarios(s)
    ensures 0.1 <= Algoritmos.Combinado(p, s.frequencia, s.markov, s.coocorrencia, s.atraso, d)
               <= p.frequencia + p.markov + p.coocorrencia + p.atraso + 0.1
  {
    ScoreTotalLimites(ScoreDe(s, d), p);
    TotalCombinado(p, s, d);
  }

  lemma TotalCombinado(p: Pesos, s: Scores, d: int)
    ensures ScoreTotal(ScoreDe(s, d), p) + 0.1 ==
              Algoritmos.Combinado(p, s.frequencia, s.markov, s.coocorrencia, s.atraso, d)
  {
  }

  /** The weights of `gerar_jogos`: `1 / len(algoritmos)` for each selected score algorithm
      (the divisor counts every entry, `"uniforme"` and repeated names included), 0 for the
      others and for all of them when no algorithm is given. */
  function PesosPy(algoritmos: seq<string>): (p: Pesos)
    ensures PesosNaoNegativos(p)
    ensures p.frequencia > 0.0 <==> "frequencia" in algoritmos
    ensures p.markov > 0.0 <==> "markov" in algoritmos
    ensures p.coocorrencia > 0.0 <==> "coocorrencia" in algoritmos
    ensures p.atraso > 0.0 <==> "atraso" in algoritmos
    ensures forall w :: w in [p.frequencia, p.markov, p.coocorrencia, p.atraso] ==>
              w == 0.0 || w == 1.0 / |algoritmos| as real
  {
    if algoritmos == [] then Pesos(0.0, 0.0, 0.0, 0.0) else Algoritmos.PesosMisto(algoritmos)
  }

  predicate SemPesos(p: Pesos)
  {
    p.frequencia == 0.0 && p.markov == 0.0 && p.coocorrencia == 0.0 && p.atraso == 0.0
  }

  /** The sizes a game of `gerar_jogos` can have: six (or all the fixed numbers when there are
      more), or the size of a `gerar_uniforme` game. */
  predicate TamanhoAceito(n: nat, fixos: set<int>, removidos: set<int>)
  {
    n == Max(|fixos|, TamanhoJogo) ||
    n == Algoritmos.TamanhoUniforme(|fixos|, |Disponiveis(fixos, removidos)|)
  }

  /** With at most six fixed numbers and enough available ones to complete them, every
      accepted size is six. */
  lemma TamanhoSeis(n: nat, fixos: set<int>, removidos: set<int>)
    requires TamanhoAceito(n, fixos, removidos)
    requires |fixos| <= TamanhoJogo <= |fixos| + |Disponiveis(fixos, removidos)|
    ensures n == TamanhoJogo
  {
  }

  /** The entry of `scores_combinados` for `d`: 0 for a removed number, its total score
      otherwise. */
  function ValorCombinado(p: Pesos, s: Scores, removidos: set<int>, d: int): real
  {
    if d in removidos then 0.0 else ScoreTotal(ScoreDe(s, d), p)
  }

  /** `self.analisador.scores_coocorrencia()`, with the facts the weighting relies on: the
      scores are the normalised sums over a top-100 pair list. */
  method PontuarCoocorrencia(a: AnalisadorMegaSena) returns (sc: map<int, real>, ghost top: seq<((int, int), nat)>)
    ensures Algoritmos.TopoDe(top, a.concursos) && Normalizado(sc, Algoritmos.Pontos(top))
    ensures forall d :: d in sc ==> 0.0 <= sc[d] <= 1.0
  {
    sc, top := a.ScoresCoocorrencia();
  }

  /** The loop of `gerar_por_scores` that fills `scores_combinados` for 1..60. */
  method CombinarDezenas(p: Pesos, s: Scores, removidos: set<int>) returns (combinados: map<int, real>)
    ensures forall d :: d in combinados <==> NoUniverso(d)
    ensures forall d :: d in combinados ==> combinados[d] == ValorCombinado(p, s, removidos, d)
  {
    combinados := map[];
    for d := DezenaMin to DezenaMax + 1
      invariant forall x :: x in combinados <==> DezenaMin <= x < d
      invariant forall x :: x in combinados ==> combinados[x] == ValorCombinado(p, s, removidos, x)
    {
      if d in removidos {
        combinados := combinados[d := 0.0];
      } else {
        var score := ScoreDe(s, d);
        combinados := combinados[d := ScoreTotal(score, p)];
      }
    }
  }

  // ---------------------------------------------------------------- the generator

  class GeradorJogos {
    const analisador: AnalisadorMegaSena
    /** `self.rng`: the generator given, or a fresh `random.Random()`. */
    const rng: Rng

    constructor (analisador: AnalisadorMegaSena, rng: Rng)
      ensures this.analisador == analisador && this.rng == rng
    {
      this.analisador := analisador;
      this.rng := rng;
    }

    /** `gerar_uniforme`: the fixed numbers plus a sample of the available ones, enough to
        reach six (or all of them when fewer remain), sorted. More than six fixed numbers ask
        `random.sample` for a negative count, which raises `ValueError`. */
    method GerarUniforme(fixos: set<int>, removidos: set<int>) returns (r: Result<seq<int>, Falha>)
      modifies rng
      ensures r.Failure? <==> |fixos| > TamanhoJogo
      ensures r.Failure? ==> r.error.ValueError?
      ensures r.Success? ==> JogoPy(r.value, fixos, removidos)
      ensures r.Success? ==> |r.value| == Algoritmos.TamanhoUniforme(|fixos|, |Disponiveis(fixos, removidos)|)
    {
      var disponiveis := Disponiveis(fixos, removidos);
      var faltam := TamanhoJogo - |fixos|;
      if faltam > |disponiveis| {
        faltam := |disponiveis|;
      }
      var amostra := rng.Sample(disponiveis, faltam);
      if amostra.Failure? {
        return Failure(amostra.error);
      }
      var lista := ListaDoConjunto(fixos);
      var escolhidos := lista + amostra.value;
      ComporPy(fixos, removidos, lista, amostra.value);
      var ordenados := Ordenar(escolhidos);
      assert |ordenados| == |fixos| + faltam <= TamanhoJogo;
      assert |ordenados| == Algoritmos.TamanhoUniforme(|fixos|, |disponiveis|);
      assert ordenados[..Min(TamanhoJogo, |ordenados|)] == ordenados;
      r := Success(ordenados[..Min(TamanhoJogo, |ordenados|)]);
    }

    /** The four scores the weights select, in the order the source computes them;
        `scores_atraso` raises `ZeroDivisionError` when there are no draws. */
    method ScoresSelecionados(p: Pesos) returns (r: Result<Scores, Falha>, ghost top: seq<((int, int), nat)>)
      requires analisador.UltimoValido()
      ensures r.Failure? <==> p.atraso > 0.0 && analisador.concursos == []
      ensures r.Failure? ==> r.error == ZeroDivisionError
      ensures r.Success? ==> ScoresDe(p, r.value, top, analisador.concursos)
    {
      var sf: map<int, real> := map[];
      var sm: map<int, real> := map[];
      var sc: map<int, real> := map[];
      var sa: map<int, real> := map[];
      top := [];
      if p.frequencia > 0.0 {
        sf := analisador.ScoresFrequencia();
      }
      if p.markov > 0.0 {
        sm := analisador.ScoresMarkov();
      }
      if p.coocorrencia > 0.0 {
        sc, top := PontuarCoocorrencia(analisador);
      }
      if p.atraso > 0.0 {
        var ra := analisador.ScoresAtraso();
        if ra.Failure? {
          return Failure(ra.error), top;
        }
        sa := ra.value;
      }
      r := Success(Scores(sf, sm, sc, sa));
    }

    /** The first half of `gerar_por_scores`: `scores_combinados` over 1..60 (0 for a removed
        number), then the available numbers and their weights, each combined score plus 0.1. */
    method CombinarScores(p: Pesos, s: Scores, fixos: set<int>, removidos: set<int>)
      returns (combinados: map<int, real>, dezenas: seq<int>, pesos: seq<real>)
      ensures forall d :: d in combinados <==> NoUniverso(d)
      ensures forall d :: d in combinados ==> combinados[d] == ValorCombinado(p, s, removidos, d)
      ensures dezenas == Disponiveis(fixos, removidos) && |pesos| == |dezenas|
      ensures forall i :: 0 <= i < |dezenas| ==>
                pesos[i] == Algoritmos.Combinado(p, s.frequencia, s.markov, s.coocorrencia, s.atraso, dezenas[i])
      ensures PesosNaoNegativos(p) && ScoresUnitarios(s) ==> forall i :: 0 <= i < |pesos| ==> pesos[i] >= 0.1
    {
      combinados := CombinarDezenas(p, s, removidos);
      dezenas := Disponiveis(fixos, removidos);
      pesos := seq(|dezenas|, i requires 0 <= i < |dezenas| => Algoritmos.GetReal(combinados, dezenas[i]) + 0.1);
      forall i | 0 <= i < |dezenas|
        ensures pesos[i] == Algoritmos.Combinado(p, s.frequencia, s.markov, s.coocorrencia, s.atraso, dezenas[i])
      {
        var d := dezenas[i];
        assert d in dezenas;
        assert Algoritmos.GetReal(combinados, d) == ScoreTotal(ScoreDe(s, d), p);
        TotalCombinado(p, s, d);
      }
      if PesosNaoNegativos(p) && ScoresUnitarios(s) {
        forall i | 0 <= i < |pesos| ensures pesos[i] >= 0.1 {
          PesoEscolha(p, s, dezenas[i]);
        }
      }
    }

    /** One attempt of `gerar_por_scores`: starting from the fixed numbers, up to 100 weighted
        draws (with replacement) of an available number into the set, stopping once it holds
        six. */
    method Tentativa(fixos: set<int>, dezenas: seq<int>, pesos: seq<real>) returns (escolhidas: set<int>)
      requires |dezenas| == |pesos|
      requires forall i :: 0 <= i < |pesos| ==> pesos[i] >= 0.1
      modifies rng
      ensures fixos <= escolhidas
      ensures forall d :: d in escolhidas && d !in fixos ==> d in dezenas
      ensures |fixos| >= TamanhoJogo ==> escolhidas == fixos
      ensures |escolhidas| <= Max(|fixos|, TamanhoJogo)
    {
      escolhidas := fixos;
      var internas := 0;
      while |escolhidas| < TamanhoJogo && internas < 100
        invariant fixos <= escolhidas
        invariant forall d :: d in escolhidas && d !in fixos ==> d in dezenas
        invariant |fixos| >= TamanhoJogo ==> escolhidas == fixos
        invariant |escolhidas| <= Max(|fixos|, TamanhoJogo)
        decreases 100 - internas
      {
        if |dezenas| > 0 && |pesos| > 0 {
          ghost var alcance := ChoicesAlcanca(pesos, 0);
          var escolha;
          ghost var u;
          escolha, u := rng.Choices(dezenas, pesos);
          assert escolha == dezenas[BisectRight(pesos, Escalado(u, SomaPesos(pesos)), 0, |pesos| - 1)];
          assert escolha in dezenas;
          escolhidas := escolhidas + {escolha};
        }
        internas := internas + 1;
      }
    }

    /** `gerar_por_scores`: up to `max_tentativas` attempts; an attempt that reaches six
        numbers is sorted and returned, unless balance is forced and it is not balanced. When
        every attempt fails, a `gerar_uniforme` game (`fallback`). */
    method GerarPorScores(p: Pesos, forcar: bool, fixos: set<int>, removidos: set<int>, maxTentativas: int)
      returns (r: Result<seq<int>, Falha>, ghost fallback: bool)
      requires analisador.UltimoValido()
      requires PesosNaoNegativos(p)
      modifies rng
      ensures p.atraso > 0.0 && analisador.concursos == [] ==> r == Failure(ZeroDivisionError) && !fallback
      ensures r.Failure? ==> (r == Failure(ZeroDivisionError) && p.atraso > 0.0 && analisador.concursos == []) ||
                             (fallback && r.error.ValueError?)
      ensures fallback ==> (r.Failure? <==> |fixos| > TamanhoJogo)
      ensures r.Success? ==> JogoPy(r.value, fixos, removidos)
      ensures r.Success? && !fallback ==>
                |r.value| == Max(|fixos|, TamanhoJogo) && (forcar ==> VerificarBalanceamento(r.value))
      ensures r.Success? && fallback ==>
                |r.value| == Algoritmos.TamanhoUniforme(|fixos|, |Disponiveis(fixos, removidos)|)
    {
      var rs;
      ghost var top;
      rs, top := ScoresSelecionados(p);
      if rs.Failure? {
        return Failure(rs.error), false;
      }
      var combinados, dezenas, pesos := CombinarScores(p, rs.value, fixos, removidos);
      for tentativa := 0 to Max(maxTentativas, 0) {
        var escolhidas := Tentativa(fixos, dezenas, pesos);
        if |escolhidas| < TamanhoJogo {
          continue;
        }
        var jogo := Ordenado(escolhidas);
        if !forcar || VerificarBalanceamento(jogo) {
          return Success(jogo), false;
        }
      }
      r := GerarUniforme(fixos, removidos);
      fallback := true;
    }

    /** One generation of `gerar_jogos`: `gerar_uniforme` when `"uniforme"` is selected and
        no weight is, `gerar_por_scores` otherwise. `fallback` tells that the scored
        generator gave up and returned a uniform game. */
    method GerarUm(algoritmos: seq<string>, p: Pesos, forcar: bool, fixos: set<int>, removidos: set<int>)
      returns (r: Result<seq<int>, Falha>, ghost fallback: bool)
      requires analisador.UltimoValido() && p == PesosPy(algoritmos)
      modifies rng
      ensures r.Success? ==> JogoPy(r.value, fixos, removidos) && TamanhoAceito(|r.value|, fixos, removidos)
      ensures r.Failure? ==>
                (r.error == ZeroDivisionError && "atraso" in algoritmos && analisador.concursos == []) ||
                (r.error.ValueError? && |fixos| > TamanhoJogo)
      ensures "atraso" in algoritmos && analisador.concursos == [] ==> r == Failure(ZeroDivisionError)
      // the uniform branch
      ensures "uniforme" in algoritmos && SemPesos(p) ==>
                !fallback && (r.Failure? <==> |fixos| > TamanhoJogo)
      ensures "uniforme" in algoritmos && SemPesos(p) && r.Success? ==>
                |r.value| == Algoritmos.TamanhoUniforme(|fixos|, |Disponiveis(fixos, removidos)|)
      // the scored branch
      ensures !("uniforme" in algoritmos && SemPesos(p)) && r.Success? && !fallback ==>
                |r.value| == Max(|fixos|, TamanhoJogo) && (forcar ==> VerificarBalanceamento(r.value))
      ensures !("uniforme" in algoritmos && SemPesos(p)) && fallback ==>
                (r.Failure? <==> |fixos| > TamanhoJogo) &&
                (r.Success? ==> |r.value| == Algoritmos.TamanhoUniforme(|fixos|, |Disponiveis(fixos, removidos)|))
      ensures !("uniforme" in algoritmos && SemPesos(p)) && r.Failure? && !fallback ==>
                r == Failure(ZeroDivisionError) && "atraso" in algoritmos && analisador.concursos == []
    {
      if "uniforme" in algoritmos && SemPesos(p) {
        r := GerarUniforme(fixos, removidos);
        fallback := false;
      } else {
        r, fallback := GerarPorScores(p, forcar, fixos, removidos, 500);
      }
    }

    /** `gerar_jogos`: up to `10 * quantidade` generations, each a `gerar_uniforme` game when
        `"uniforme"` is selected and no score algorithm is, a `gerar_por_scores` game
        otherwise; a game already in the batch is dropped. */
    method GerarJogos(quantidade: int, algoritmos: seq<string>, forcar: bool, fixos: set<int>,
                      removidos: set<int>)
      returns (r: Result<seq<seq<int>>, Falha>, ghost tentativas: nat)
      requires analisador.UltimoValido()
      modifies rng
      ensures tentativas <= Max(10 * quantidade, 0)
      ensures r.Success? ==> |r.value| <= Max(quantidade, 0) && Distintos(r.value)
      ensures r.Success? ==> forall j :: j in r.value ==>
                JogoPy(j, fixos, removidos) && TamanhoAceito(|j|, fixos, removidos)
      ensures r.Success? && |r.value| < quantidade ==> tentativas == 10 * quantidade
      ensures r.Failure? ==>
                (r.error == ZeroDivisionError && "atraso" in algoritmos && analisador.concursos == []) ||
                (r.error.ValueError? && |fixos| > TamanhoJogo)
      ensures quantidade > 0 && "atraso" in algoritmos && analisador.concursos == [] ==>
                r == Failure(ZeroDivisionError)
    {
      var p := PesosPy(algoritmos);
      var jogos: seq<seq<int>> := [];
      var gerados: set<seq<int>> := {};
      var t := 0;
      while |jogos| < quantidade && t < 10 * quantidade
        invariant 0 <= t <= Max(10 * quantidade, 0)
        invariant gerados == set j | j in jogos
        invariant |jogos| <= Max(quantidade, 0) && Distintos(jogos)
        invariant forall j :: j in jogos ==> JogoPy(j, fixos, removidos) && TamanhoAceito(|j|, fixos, removidos)
        invariant quantidade > 0 && "atraso" in algoritmos && analisador.concursos == [] ==> t == 0 && jogos == []
        decreases 10 * quantidade - t
      {
        t := t + 1;
        var rj;
        ghost var recuo;
        rj, recuo := GerarUm(algoritmos, p, forcar, fixos, removidos);
        if rj.Failure? {
          return Failure(rj.error), t;
        }
        var jogo := rj.value;
        if jogo !in gerados {
          gerados := gerados + {jogo};
          jogos := jogos + [jogo];
        }
      }
      tentativas := t;
      r := Success(jogos);
    }
  }

  // ---------------------------------------------------------------- closures

  /** Every `g`-combination in `alvos` lies inside some game of `jogos`. */
  ghost predicate Cobre(jogos: seq<seq<int>>, alvos: seq<seq<int>>, g: nat)
  {
    forall t :: t in alvos ==> exists j :: j in jogos && t in Combinacoes(j, g)
  }

  /** `GeradorFechamento.gerar_fechamento`: up to six base numbers give the sorted base
      alone; `garantia == 6` gives every 6-combination of the sorted base; otherwise the
      6-combinations are scanned in order and one is kept when it covers a
      `garantia`-combination not covered yet, stopping once all are. A negative `garantia`
      makes `itertools.combinations` raise `ValueError`. */
  method GerarFechamento(base: seq<int>, garantia: int) returns (r: Result<seq<seq<int>>, Falha>)
    ensures |base| <= TamanhoJogo ==> r == Success([Ordenar(base)])
    ensures |base| > TamanhoJogo && garantia == TamanhoJogo ==>
              r == Success(Combinacoes(Ordenar(base), TamanhoJogo))
    ensures r.Failure? <==> |base| > TamanhoJogo && garantia < 0
    ensures r.Failure? ==> r.error.ValueError?
    ensures r.Success? && |base| > TamanhoJogo ==> forall j :: j in r.value ==> j in Combinacoes(Ordenar(base), TamanhoJogo)
    ensures r.Success? && |base| > TamanhoJogo && garantia != TamanhoJogo ==> Distintos(r.value)
    ensures r.Success? && |base| > TamanhoJogo && 0 <= garantia <= TamanhoJogo ==>
              Cobre(r.value, Combinacoes(Ordenar(base), garantia), garantia)
    ensures |base| > TamanhoJogo && garantia > TamanhoJogo ==> r == Success([])
  {
    if |base| <= TamanhoJogo {
      return Success([Ordenar(base)]);
    }
    var ordenada := Ordenar(base);
    var todas := Combinacoes(ordenada, TamanhoJogo);
    if garantia == TamanhoJogo {
      assert Cobre(todas, Combinacoes(ordenada, TamanhoJogo), TamanhoJogo) by {
        forall t | t in Combinacoes(ordenada, TamanhoJogo)
          ensures exists j :: j in todas && t in Combinacoes(j, TamanhoJogo)
        {
          CombinacoesTamanho(ordenada, TamanhoJogo, t);
          CombinacoesTodas(t);
        }
      }
      return Success(todas);
    }
    if garantia < 0 {
      return Failure(ValueError("r must be non-negative"));
    }
    var jogos := CobrirGuloso(ordenada, garantia);
    r := Success(jogos);
  }

  /** Adding a game to the closure adds its `g`-subsets to the covered ones, and it stays
      without repetitions when the game is new. */
  lemma AcrescentarCobertas(jogos: seq<seq<int>>, combo: seq<int>, cobertas: set<seq<int>>,
                            subs: set<seq<int>>, g: nat)
    requires forall t :: t in cobertas <==> exists j :: j in jogos && t in Combinacoes(j, g)
    requires subs == set t | t in Combinacoes(combo, g)
    requires Distintos(jogos) && combo !in jogos
    ensures forall t :: t in cobertas + subs <==> exists j :: j in jogos + [combo] && t in Combinacoes(j, g)
    ensures Distintos(jogos + [combo])
  {
    var novos := jogos + [combo];
    forall t ensures t in cobertas + subs <==> exists j :: j in novos && t in Combinacoes(j, g) {
      if t in subs {
        assert combo in novos;
      }
      if exists j :: j in novos && t in Combinacoes(j, g) {
        var j :| j in novos && t in Combinacoes(j, g);
        if j != combo {
          assert j in jogos;
        }
      }
    }
  }

  /** The greedy loop of `gerar_fechamento` over the 6-combinations of `ordenada`, for a
      coverage size `g` other than 6. */
  method CobrirGuloso(ordenada: seq<int>, g: nat) returns (jogos: seq<seq<int>>)
    requires |ordenada| > TamanhoJogo
    ensures forall j :: j in jogos ==> j in Combinacoes(ordenada, TamanhoJogo)
    ensures Distintos(jogos)
    ensures g <= TamanhoJogo ==> Cobre(jogos, Combinacoes(ordenada, g), g)
    ensures g > TamanhoJogo ==> jogos == []
  {
    var todas := Combinacoes(ordenada, TamanhoJogo);
    var necessarios := set t | t in Combinacoes(ordenada, g);
    jogos := [];
    var cobertas: set<seq<int>> := {};
    ghost var completo := false;
    var i := 0;
    while i < |todas|
      invariant 0 <= i <= |todas|
      invariant forall j :: j in jogos ==> j in todas
      invariant Distintos(jogos)
      invariant g > TamanhoJogo ==> jogos == []
      invariant forall t :: t in cobertas <==> exists j :: j in jogos && t in Combinacoes(j, g)
      invariant forall k, t :: 0 <= k < i && t in Combinacoes(todas[k], g) ==> t in cobertas
      invariant !completo
    {
      ghost var antes := cobertas;
      var combo := todas[i];
      var subs := set t | t in Combinacoes(combo, g);
      if g > TamanhoJogo {
        CombinacoesTamanho(ordenada, TamanhoJogo, combo);
        assert Combinacoes(combo, g) == [];
        assert subs == {};
      }
      if subs - cobertas != {} {
        assert combo !in jogos;
        AcrescentarCobertas(jogos, combo, cobertas, subs, g);
        jogos := jogos + [combo];
        cobertas := cobertas + subs;
        if necessarios <= cobertas {
          completo := true;
          break;
        }
      }
      assert antes <= cobertas;
      assert subs <= cobertas by {
        forall t | t in subs ensures t in cobertas {
          assert t !in subs - cobertas || t in cobertas;
        }
      }
      forall k, t | 0 <= k < i + 1 && t in Combinacoes(todas[k], g) ensures t in cobertas {
        if k == i {
          assert t in subs;
        } else {
          assert t in antes;
        }
      }
      i := i + 1;
    }
    if g <= TamanhoJogo {
      forall t | t in Combinacoes(ordenada, g) ensures t in cobertas {
        if !completo {
          var c := CombinacaoEstende(ordenada, t, g, TamanhoJogo);
          var k :| 0 <= k < |todas| && todas[k] == c;
        }
      }
    }
  }

  /** With distinct base numbers, the closure for the sena lists all C(n, 6) games, each a
      strictly ascending 6-subset of the base, in lexicographic order (so none twice). */
  lemma FechamentoSena(base: seq<int>)
    requires Distintos(base) && |base| > TamanhoJogo
    ensures |Combinacoes(Ordenar(base), TamanhoJogo)| == Binomial(|base|, TamanhoJogo)
    ensures LexOrdenada(Combinacoes(Ordenar(base), TamanhoJogo))
    ensures forall j :: j in Combinacoes(Ordenar(base), TamanhoJogo) ==>
              |j| == TamanhoJogo && EstritamenteCrescente(j) && forall x :: x in j ==> x in base
  {
    OrdenarDistintos(base);
    CombinacoesQuantidade(Ordenar(base), TamanhoJogo);
    CombinacoesLexicograficas(Ordenar(base), TamanhoJogo);
    CombinacoesCrescentes(Ordenar(base), TamanhoJogo);
  }

  // ---------------------------------------------------------------- saved games

  /** `JogoSalvo`: a saved game. */
  datatype JogoSalvo = JogoSalvo(id: int, dezenas: seq<int>, dataCriacao: string, algoritmos: seq<string>,
                                 conferido: bool, acertos: map<int, int>)

  /** `max(j.id for j in jogos)`. */
  function MaiorId(jogos: seq<JogoSalvo>): (m: int)
    requires jogos != []
    ensures forall j :: j in jogos ==> j.id <= m
    ensures exists j :: j in jogos && j.id == m
  {
    if |jogos| == 1 then jogos[0].id
    else
      var resto := MaiorId(jogos[1..]);
      assert forall j :: j in jogos ==> j == jogos[0] || j in jogos[1..];
      if jogos[0].id >= resto then jogos[0].id else resto
  }

  /** `proximo_id_jogo`: 1 for no saved games, otherwise one more than the largest id, so
      larger than every id in use. */
  function ProximoIdJogo(jogos: seq<JogoSalvo>): (r: int)
    ensures jogos == [] ==> r == 1
    ensures forall j :: j in jogos ==> j.id < r
    ensures jogos != [] ==> exists j :: j in jogos && r == j.id + 1
  {
    if jogos == [] then 1 else MaiorId(jogos) + 1
  }

  // ---------------------------------------------------------------- CSV export

  /** The columns of the header line `Jogo,Dezena1,...,Dezena6`. */
  const ColunasCsv: seq<string> := ["Jogo", "Dezena1", "Dezena2", "Dezena3", "Dezena4", "Dezena5", "Dezena6"]

  const CabecalhoCsv: string := Juntar(",", ColunasCsv)

  /** `f'{i},{",".join(str(d) for d in jogo)}'`. */
  function LinhaCsv(i: nat, jogo: seq<int>): string
  {
    NaturalTexto(i) + "," + Chave(jogo)
  }

  /** The lines of `enumerate(jogos, inicio)`. */
  function LinhasCsv(jogos: seq<seq<int>>, inicio: nat): (r: seq<string>)
    ensures |r| == |jogos| && forall i :: 0 <= i < |jogos| ==> r[i] == LinhaCsv(inicio + i, jogos[i])
  {
    seq(|jogos|, i requires 0 <= i < |jogos| => LinhaCsv(inicio + i, jogos[i]))
  }

  /** `gerar_csv_jogos`: the header, then one numbered line per game, joined by newlines. */
  function GerarCsvJogos(jogos: seq<seq<int>>): string
  {
    Juntar("\n", [CabecalhoCsv] + LinhasCsv(jogos, 1))
  }

  /** Reads one CSV line back: its number and its game. */
  function LerLinhaCsv(linha: string): (int, seq<int>)
  {
    var partes := Separar(linha, ',');
    (LerNatural(partes[0]), LerInteiros(partes[1..]))
  }

  /** Reads a CSV text back: its header and its lines. */
  function LerCsv(csv: string): (string, seq<(int, seq<int>)>)
  {
    var linhas := Separar(csv, '\n');
    (linhas[0], seq(|linhas| - 1, i requires 0 <= i < |linhas| - 1 => LerLinhaCsv(linhas[i + 1])))
  }

  lemma {:induction false} JuntarSem(sep: string, partes: seq<string>, c: char)
    requires c !in sep && forall i :: 0 <= i < |partes| ==> c !in partes[i]
    ensures c !in Juntar(sep, partes)
    decreases |partes|
  {
    if |partes| > 1 {
      JuntarSem(sep, partes[1..], c);
    }
  }

  /** A line of a non-empty game reads back as its number and its game. */
  lemma LerLinhaCsvLinha(i: nat, jogo: seq<int>)
    requires jogo != []
    ensures '\n' !in LinhaCsv(i, jogo)
    ensures LerLinhaCsv(LinhaCsv(i, jogo)) == (i, jogo)
  {
    var partes := [NaturalTexto(i)] + Textos(jogo);
    TextosSemSeparador(jogo, ',');
    TextosSemSeparador(jogo, '\n');
    assert ',' !in NaturalTexto(i) && '\n' !in NaturalTexto(i);
    forall k | 0 <= k < |partes| ensures ',' !in partes[k] && '\n' !in partes[k] {
      if k > 0 {
        assert partes[k] == Textos(jogo)[k - 1];
      }
    }
    assert partes[1..] == Textos(jogo);
    assert Juntar(",", partes) == LinhaCsv(i, jogo);
    JuntarSem(",", partes, '\n');
    SepararJuntar(partes, ',');
    LerNaturalTexto(i);
    LerInteirosTextos(jogo);
  }

  /** No line of the export holds a newline. */
  lemma LinhasSemQuebra(jogos: seq<seq<int>>)
    requires forall i :: 0 <= i < |jogos| ==> jogos[i] != []
    ensures forall k :: 0 <= k < |jogos| + 1 ==> '\n' !in ([CabecalhoCsv] + LinhasCsv(jogos, 1))[k]
  {
    var linhas := [CabecalhoCsv] + LinhasCsv(jogos, 1);
    forall k | 0 <= k < |linhas| ensures '\n' !in linhas[k] {
      if k > 0 {
        assert linhas[k] == LinhaCsv(k, jogos[k - 1]);
        LerLinhaCsvLinha(k, jogos[k - 1]);
      } else {
        assert '\n' !in "Jogo" && '\n' !in "Dezena1" && '\n' !in "Dezena2" && '\n' !in "Dezena3";
        assert '\n' !in "Dezena4" && '\n' !in "Dezena5" && '\n' !in "Dezena6";
        JuntarSem(",", ColunasCsv, '\n');
      }
    }
  }

  /** The CSV export reads back as its header and, line by line, the game numbers 1, 2, ...
      with their games, when no game is empty. */
  lemma LerCsvGerar(jogos: seq<seq<int>>)
    requires forall i :: 0 <= i < |jogos| ==> jogos[i] != []
    ensures LerCsv(GerarCsvJogos(jogos)).0 == CabecalhoCsv
    ensures |LerCsv(GerarCsvJogos(jogos)).1| == |jogos|
    ensures forall i :: 0 <= i < |jogos| ==> LerCsv(GerarCsvJogos(jogos)).1[i] == (i + 1, jogos[i])
  {
    var linhas := [CabecalhoCsv] + LinhasCsv(jogos, 1);
    CsvSepara(jogos);
    LinhasLidas(jogos);
    var lidas := LerCsv(GerarCsvJogos(jogos)).1;
    assert |lidas| == |jogos|;
    forall i | 0 <= i < |jogos| ensures lidas[i] == (i + 1, jogos[i]) {
      assert lidas[i] == LerLinhaCsv(linhas[i + 1]);
      assert linhas[i + 1] == LinhasCsv(jogos, 1)[i];
    }
  }

  /** Splitting the export at newlines gives back its header and its lines. */
  lemma CsvSepara(jogos: seq<seq<int>>)
    requires forall i :: 0 <= i < |jogos| ==> jogos[i] != []
    ensures Separar(GerarCsvJogos(jogos), '\n') == [CabecalhoCsv] + LinhasCsv(jogos, 1)
  {
    LinhasSemQuebra(jogos);
    SepararJuntar([CabecalhoCsv] + LinhasCsv(jogos, 1), '\n');
  }

  /** Each exported line reads back as its number and its game. */
  lemma LinhasLidas(jogos: seq<seq<int>>)
    requires forall i :: 0 <= i < |jogos| ==> jogos[i] != []
    ensures forall i :: 0 <= i < |jogos| ==> LerLinhaCsv(LinhasCsv(jogos, 1)[i]) == (i + 1, jogos[i])
  {
    forall i | 0 <= i < |jogos| ensures LerLinhaCsv(LinhasCsv(jogos, 1)[i]) == (i + 1, jogos[i]) {
      LerLinhaCsvLinha(i + 1, jogos[i]);
    }
  }
}
