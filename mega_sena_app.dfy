/** The generator of mega_sena_app.py, the console version of the engine. Its analyzer is
    the `AnalisadorMegaSena` of `AnalisadorPy` (the same code as in app_web.py). Its
    `GeradorJogos` is the generator of app_web.py without fixed and removed numbers: with
    both sets empty the web version samples from all of 1..60, starts each attempt from an
    empty set and always has numbers to draw from, which is what the console version's code
    does, draw for draw. The class below runs the web generator with two empty sets and
    proves what that gives. */
module MegaSenaApp {
  import opened Loteria
  import opened Acaso
  import opened Texto
  import opened AnalisadorPy
  import AppWeb
  import Algoritmos

  /** With nothing fixed and nothing removed, all sixty numbers are available. */
  lemma {:induction false} TodasDisponiveisAte(n: int)
    requires 0 <= n
    ensures |AppWeb.DisponiveisAte(n, {}, {})| == n
    decreases n
  {
    if n >= DezenaMin {
      TodasDisponiveisAte(n - 1);
      assert AppWeb.DisponiveisAte(n, {}, {}) == AppWeb.DisponiveisAte(n - 1, {}, {}) + [n];
    }
  }

  /** A game of the web generator with no fixed and no removed numbers, of an accepted
      size, is a ticket: six distinct numbers of 1..60, ascending. */
  lemma SemRestricoes(jogo: seq<int>)
    requires AppWeb.JogoPy(jogo, {}, {})
    requires AppWeb.TamanhoAceito(|jogo|, {}, {})
    ensures EhSena(jogo) && EstritamenteCrescente(jogo)
  {
    TodasDisponiveisAte(DezenaMax);
    AppWeb.TamanhoSeis(|jogo|, {}, {});
    AppWeb.JogoPySena(jogo, {}, {});
  }

  /** A game of the web `gerar_uniforme` with no fixed and no removed numbers is a ticket. */
  lemma UniformeSemRestricoes(jogo: seq<int>)
    requires AppWeb.JogoPy(jogo, {}, {})
    requires |jogo| == Algoritmos.TamanhoUniforme(0, |AppWeb.Disponiveis({}, {})|)
    ensures EhSena(jogo) && EstritamenteCrescente(jogo)
  {
    TodasDisponiveisAte(DezenaMax);
    assert |AppWeb.Disponiveis({}, {})| == DezenaMax;
    AppWeb.JogoPySena(jogo, {}, {});
  }

  class GeradorJogos {
    const analisador: AnalisadorMegaSena
    const rng: Rng
    /** The web generator over the same analyzer and random source. */
    const web: AppWeb.GeradorJogos

    ghost predicate Valido()
    {
      web.analisador == analisador && web.rng == rng
    }

    constructor (analisador: AnalisadorMegaSena, rng: Rng)
      ensures this.analisador == analisador && this.rng == rng && Valido()
    {
      this.analisador := analisador;
      this.rng := rng;
      web := new AppWeb.GeradorJogos(analisador, rng);
    }

    /** `gerar_uniforme`: six numbers sampled from 1..60, sorted. */
    method GerarUniforme() returns (jogo: seq<int>)
      requires Valido()
      modifies rng
      ensures EhSena(jogo) && EstritamenteCrescente(jogo)
    {
      var r := web.GerarUniforme({}, {});
      if r.Failure? {
        assert false;
      }
      jogo := r.value;
      UniformeSemRestricoes(jogo);
    }

    /** `gerar_por_scores`: six numbers weighted by the combined scores of the selected
        algorithms, balanced when asked for unless every attempt failed (`fallback`, a
        `gerar_uniforme` game). The only error is the division by zero of `scores_atraso`
        when delay is selected and there are no draws. */
    method GerarPorScores(p: Pesos, forcar: bool, maxTentativas: int)
      returns (r: Result<seq<int>, Falha>, ghost fallback: bool)
      requires Valido() && analisador.UltimoValido()
      requires AppWeb.PesosNaoNegativos(p)
      modifies rng
      ensures r.Failure? <==> p.atraso > 0.0 && analisador.concursos == []
      ensures r.Failure? ==> r.error == ZeroDivisionError
      ensures r.Success? ==> EhSena(r.value) && EstritamenteCrescente(r.value)
      ensures r.Success? && forcar && !fallback ==> VerificarBalanceamento(r.value)
    {
      r, fallback := web.GerarPorScores(p, forcar, {}, {}, maxTentativas);
      if r.Success? {
        TodasDisponiveisAte(DezenaMax);
        AppWeb.JogoPySena(r.value, {}, {});
      }
    }

    /** `gerar_jogos`: up to `quantidade` distinct games, each paired with the weights it
        was generated with, `1 / len(algoritmos)` for every selected score algorithm and 0
        for the others. */
    method GerarJogos(quantidade: int, algoritmos: seq<string>, forcar: bool)
      returns (r: Result<seq<(seq<int>, Pesos)>, Falha>)
      requires Valido() && analisador.UltimoValido()
      modifies rng
      ensures r.Success? ==> |r.value| <= Max(quantidade, 0)
      ensures r.Success? ==> forall i, j :: 0 <= i < j < |r.value| ==> r.value[i].0 != r.value[j].0
      ensures r.Success? ==> forall i :: 0 <= i < |r.value| ==>
                EhSena(r.value[i].0) && EstritamenteCrescente(r.value[i].0) &&
                r.value[i].1 == AppWeb.PesosPy(algoritmos)
      ensures r.Failure? ==> r.error == ZeroDivisionError && "atraso" in algoritmos && analisador.concursos == []
      ensures quantidade > 0 && "atraso" in algoritmos && analisador.concursos == [] ==>
                r == Failure(ZeroDivisionError)
    {
      var pesos := AppWeb.PesosPy(algoritmos);
      ghost var tentativas;
      var jogos;
      jogos, tentativas := web.GerarJogos(quantidade, algoritmos, forcar, {}, {});
      if jogos.Failure? {
        return Failure(jogos.error);
      }
      var lista := jogos.value;
      forall j | j in lista ensures EhSena(j) && EstritamenteCrescente(j) {
        SemRestricoes(j);
      }
      r := Success(seq(|lista|, i requires 0 <= i < |lista| => (lista[i], pesos)));
    }
  }

  /** `formatar_jogo`: the numbers, two digits each, separated by `" - "`; a game of numbers
      0..99 reads back from it. */
  function FormatarJogo(jogo: seq<int>): (r: string)
    ensures |jogo| >= 1 && (forall i :: 0 <= i < |jogo| ==> 0 <= jogo[i] <= 99) ==>
              LerFormatado(r, " - ") == jogo
  {
    if |jogo| >= 1 && (forall i :: 0 <= i < |jogo| ==> 0 <= jogo[i] <= 99) then
      LerFormatadoFormatar(jogo, " - ");
      Formatar(jogo, " - ")
    else
      Formatar(jogo, " - ")
  }
}
