/** The command-line generator of gerador_megasena.py: draws of the last years, the frequency
    list of each number, and three ways to draw a game (uniform, weighted by frequency,
    weighted and balanced), mixed or alone. Dates are day numbers and "today" is a parameter;
    the random source is the oracle of `Acaso`; the unbounded weighted draw carries a fuel
    bound. `parse_data` is modelled in `Datas`. */
module GeradorMegaSena {
  import opened Loteria
  import opened Acaso
  import opened Texto

  /** A draw as the loaders build it: a date and a set of numbers. */
  datatype Sorteio = Sorteio(data: int, dezenas: set<int>)

  /** The loaders keep only draws of six distinct numbers of 1..60. */
  predicate SorteioValido(c: Sorteio)
  {
    |c.dezenas| == TamanhoJogo && forall d :: d in c.dezenas ==> NoUniverso(d)
  }

  // ---------------------------------------------------------------- filtering by date

  /** The draws dated on or after `limite`, in their original order. */
  function Filtrar(concursos: seq<Sorteio>, limite: int): (r: seq<Sorteio>)
    ensures |r| <= |concursos|
    ensures forall c :: c in r <==> c in concursos && c.data >= limite
  {
    if concursos == [] then []
    else
      var resto := Filtrar(concursos[..|concursos| - 1], limite);
      var ultimo := concursos[|concursos| - 1];
      assert forall c :: c in concursos <==> c in concursos[..|concursos| - 1] || c == ultimo;
      if ultimo.data >= limite then resto + [ultimo] else resto
  }

  /** `filtrar_por_anos`: no draws give no draws; otherwise the draws dated on or after
      `hoje - 365 * anos`, where `hoje` is the day number of `date.today()`. */
  function FiltrarPorAnos(concursos: seq<Sorteio>, anos: int, hoje: int): (r: seq<Sorteio>)
    ensures concursos == [] ==> r == []
    ensures forall c :: c in r <==> c in concursos && c.data >= hoje - anos * 365
  {
    if concursos == [] then [] else Filtrar(concursos, hoje - anos * 365)
  }

  /** The filter keeps the order of the draws: filtering two runs of draws one after the
      other is filtering each run. */
  lemma {:induction false} FiltrarConcat(a: seq<Sorteio>, b: seq<Sorteio>, limite: int)
    ensures Filtrar(a + b, limite) == Filtrar(a, limite) + Filtrar(b, limite)
    decreases |b|
  {
    if b == [] {
      assert a + b == a;
    } else {
      assert (a + b)[..|a + b| - 1] == a + b[..|b| - 1];
      FiltrarConcat(a, b[..|b| - 1], limite);
    }
  }

  /** A draw dated on or after the limit is kept, in place: nothing recent is dropped. */
  lemma {:induction false} FiltrarRecentes(concursos: seq<Sorteio>, limite: int)
    requires forall c :: c in concursos ==> c.data >= limite
    ensures Filtrar(concursos, limite) == concursos
    decreases |concursos|
  {
    if concursos != [] {
      var t := concursos[..|concursos| - 1];
      assert forall c :: c in t ==> c in concursos;
      FiltrarRecentes(t, limite);
      assert concursos == t + [concursos[|concursos| - 1]];
    }
  }

  // ---------------------------------------------------------------- frequencies

  /** How many of the draws hold `d`. */
  function Ocorrencias(concursos: seq<Sorteio>, d: int): nat
  {
    if concursos == [] then 0
    else Ocorrencias(concursos[..|concursos| - 1], d) + (if d in concursos[|concursos| - 1].dezenas then 1 else 0)
  }

  /** `frequencias`: a list of 61 counters, the one at index `d` counting the draws that
      hold `d`. */
  method Frequencias(concursos: seq<Sorteio>) returns (freq: array<int>)
    requires forall c :: c in concursos ==> SorteioValido(c)
    ensures fresh(freq) && freq.Length == DezenaMax + 1
    ensures forall d :: 0 <= d < freq.Length ==> freq[d] == Ocorrencias(concursos, d)
  {
    freq := new int[DezenaMax + 1](_ => 0);
    for i := 0 to |concursos|
      invariant forall d :: 0 <= d < freq.Length ==> freq[d] == Ocorrencias(concursos[..i], d)
    {
      var c := concursos[i];
      assert SorteioValido(c);
      var resto := c.dezenas;
      while resto != {}
        invariant resto <= c.dezenas
        invariant forall d :: 0 <= d < freq.Length ==>
                    freq[d] == Ocorrencias(concursos[..i], d) + (if d in c.dezenas - resto then 1 else 0)
        decreases |resto|
      {
        if forall x :: x !in resto { assert false; }
        var d :| d in resto;
        freq[d] := freq[d] + 1;
        resto := resto - {d};
      }
      assert concursos[..i + 1][..i] == concursos[..i];
    }
    assert concursos[..|concursos|] == concursos;
  }

  /** A number outside 1..60 is in no valid draw: index 0 of the list stays 0. */
  lemma {:induction false} OcorrenciasForaDoUniverso(concursos: seq<Sorteio>, d: int)
    requires forall c :: c in concursos ==> SorteioValido(c)
    requires !NoUniverso(d)
    ensures Ocorrencias(concursos, d) == 0
    decreases |concursos|
  {
    if concursos != [] {
      var t := concursos[..|concursos| - 1];
      assert forall c :: c in t ==> c in concursos;
      assert concursos[|concursos| - 1] in concursos;
      OcorrenciasForaDoUniverso(t, d);
    }
  }

  /** The counters add up to six per draw. */
  lemma {:induction false} SomaFrequencias(concursos: seq<Sorteio>)
    requires forall c :: c in concursos ==> SorteioValido(c)
    ensures Soma(0, DezenaMax + 1, d => Ocorrencias(concursos, d)) == TamanhoJogo * |concursos|
    decreases |concursos|
  {
    if concursos == [] {
      SomaZero(0, DezenaMax + 1, d => Ocorrencias(concursos, d));
    } else {
      var t := concursos[..|concursos| - 1];
      var c := concursos[|concursos| - 1];
      assert c in concursos;
      assert forall x :: x in t ==> x in concursos;
      SomaFrequencias(t);
      var m := multiset(c.dezenas);
      SomaMultiset(0, DezenaMax + 1, m);
      SomaAdd(0, DezenaMax + 1, d => Ocorrencias(t, d), d => m[d], d => Ocorrencias(concursos, d));
    }
  }

  // ---------------------------------------------------------------- drawing a number

  /** `range(DEZENA_MIN, DEZENA_MAX + 1)` as a list. */
  function Universo(): (r: seq<int>)
    ensures |r| == DezenaMax && forall i :: 0 <= i < |r| ==> r[i] == i + 1
    ensures forall d :: d in r <==> NoUniverso(d)
    ensures EstritamenteCrescente(r) && Distintos(r)
  {
    var r := seq(DezenaMax, i => i + 1);
    assert forall d :: NoUniverso(d) ==> r[d - 1] == d;
    r
  }

  /** A frequency list `_escolher_com_peso` can index at 1..60, with counts that are not
      negative. */
  predicate FrequenciasValidas(freq: seq<int>)
  {
    |freq| > DezenaMax && forall d :: DezenaMin <= d <= DezenaMax ==> freq[d] >= 0
  }

  /** The weights of `_escolher_com_peso`: one more than the frequency, for 1..60. */
  function PesosFrequencia(freq: seq<int>): (r: seq<real>)
    requires FrequenciasValidas(freq)
    ensures |r| == DezenaMax && forall i :: 0 <= i < |r| ==> r[i] >= 1.0
  {
    seq(DezenaMax, i requires 0 <= i < DezenaMax => (freq[i + 1] + 1) as real)
  }

  /** The number `random.choices` picks from 1..60 with those weights when the stream gives
      `u`. */
  function Escolha(freq: seq<int>, u: real): int
    requires FrequenciasValidas(freq)
  {
    var pesos := PesosFrequencia(freq);
    Universo()[BisectRight(pesos, Escalado(u, SomaPesos(pesos)), 0, |pesos| - 1)]
  }

  /** `_escolher_com_peso`: one draw of `random.choices` over 1..60 weighted by
      frequency plus one. */
  method EscolherComPeso(freq: seq<int>, rng: Rng) returns (d: int, ghost u: real)
    requires FrequenciasValidas(freq)
    modifies rng
    ensures NoUniverso(d) && 0.0 <= u < 1.0 && d == Escolha(freq, u)
    ensures rng.pos == old(rng.pos) + 1
  {
    var pesos := PesosFrequencia(freq);
    ghost var _ := ChoicesAlcanca(pesos, 0);
    var universo := Universo();
    var escolha;
    ghost var v;
    escolha, v := rng.Choices(universo, pesos);
    assert escolha == universo[BisectRight(pesos, Escalado(v, SomaPesos(pesos)), 0, |pesos| - 1)];
    ghost var k := BisectRight(pesos, Escalado(v, SomaPesos(pesos)), 0, |pesos| - 1);
    d, u := escolha, v;
    assert universo[k] == k + 1;
  }

  /** Every weight is at least one, so every number of 1..60 can be drawn, whatever the
      frequencies: some value of the stream picks it. */
  lemma EscolhaAlcanca(freq: seq<int>, d: int) returns (u: real)
    requires FrequenciasValidas(freq) && NoUniverso(d)
    ensures 0.0 <= u < 1.0 && Escolha(freq, u) == d
  {
    var pesos := PesosFrequencia(freq);
    u := ChoicesAlcanca(pesos, d - 1);
    assert BisectRight(pesos, Escalado(u, SomaPesos(pesos)), 0, |pesos| - 1) == d - 1;
    assert Universo()[d - 1] == d;
  }

  // ---------------------------------------------------------------- the three generators

  /** `gerar_uniforme`: six numbers sampled from 1..60, sorted. */
  method GerarUniforme(rng: Rng) returns (jogo: seq<int>)
    modifies rng
    ensures EhSena(jogo) && EstritamenteCrescente(jogo)
  {
    var amostra := rng.Sample(Universo(), TamanhoJogo);
    if amostra.Failure? {
      assert false;
    }
    DistintosSubmultiset(amostra.value, Universo());
    OrdenarDistintos(amostra.value);
    jogo := Ordenar(amostra.value);
    forall d | d in jogo ensures NoUniverso(d) {
      assert d in multiset(Universo());
    }
  }

  /** `gerar_ponderado`: weighted draws added to a set until it holds six numbers, sorted.
      The source draws for as long as it takes; here at most `combustivel` draws are made and
      running out is reported as `SemCombustivel`. */
  method GerarPonderado(freq: seq<int>, rng: Rng, combustivel: nat) returns (r: Result<seq<int>, Falha>)
    requires FrequenciasValidas(freq)
    modifies rng
    ensures r.Success? ==> EhSena(r.value) && EstritamenteCrescente(r.value)
    ensures r.Failure? ==> r.error == SemCombustivel
  {
    var dezenas: set<int> := {};
    var restante := combustivel;
    while |dezenas| < TamanhoJogo
      invariant |dezenas| <= TamanhoJogo
      invariant forall d :: d in dezenas ==> NoUniverso(d)
      decreases restante
    {
      if restante == 0 {
        return Failure(SemCombustivel);
      }
      restante := restante - 1;
      var d, u := EscolherComPeso(freq, rng);
      assert |dezenas + {d}| <= |dezenas| + 1;
      dezenas := dezenas + {d};
    }
    var jogo := Ordenado(dezenas);
    CrescenteDistintos(jogo);
    r := Success(jogo);
  }

  /** `cond_pares and cond_faixas` of `gerar_balanceado`, written as the source writes it:
      `TAMANHO_JOGO // 2` even numbers, every band holding at least one number and every
      band holding at most three. */
  predicate CondicaoBalanceado(dezenas: seq<int>)
  {
    QuantosPares(dezenas) == TamanhoJogo / 2 &&
    (forall i :: 0 <= i < |Faixas| ==> ContaFaixa(dezenas, i) >= 1) &&
    (forall i :: 0 <= i < |Faixas| ==> ContaFaixa(dezenas, i) <= 3)
  }

  /** The condition of `gerar_balanceado` is the `_verificar_balanceamento` of the other
      Python generators. */
  lemma CondicaoVerificar(dezenas: seq<int>)
    ensures CondicaoBalanceado(dezenas) <==> VerificarBalanceamento(dezenas)
  {
  }

  /** `gerar_balanceado`: up to `max_tentativas` weighted games, the first that meets the
      balance condition returned; when none does, one more weighted game, unconstrained.
      `fallback` tells which case occurred. */
  method GerarBalanceado(freq: seq<int>, rng: Rng, maxTentativas: int, combustivel: nat)
    returns (r: Result<seq<int>, Falha>, ghost fallback: bool)
    requires FrequenciasValidas(freq)
    modifies rng
    ensures r.Success? ==> EhSena(r.value) && EstritamenteCrescente(r.value)
    ensures r.Success? && !fallback ==> CondicaoBalanceado(r.value) && VerificarBalanceamento(r.value)
    ensures r.Failure? ==> r.error == SemCombustivel
  {
    for tentativa := 0 to Max(maxTentativas, 0) {
      var dezenas := GerarPonderado(freq, rng, combustivel);
      if dezenas.Failure? {
        return dezenas, false;
      }
      if CondicaoBalanceado(dezenas.value) {
        CondicaoVerificar(dezenas.value);
        return dezenas, false;
      }
    }
    r := GerarPonderado(freq, rng, combustivel);
    fallback := true;
  }

  // ---------------------------------------------------------------- batches

  /** The rotation of the `mix` mode. */
  const Sequencia: seq<string> := ["balanceado", "ponderado", "uniforme"]

  /** The keys of `geradores`. */
  predicate ModoConhecido(modo: string)
  {
    modo == "uniforme" || modo == "ponderado" || modo == "balanceado"
  }

  /** `geradores[modo]()`: one game of the named generator (`gerar_balanceado` with its
      default of 500 attempts). `fallback` is set only when `balanceado` ran out of
      attempts; a `balanceado` game without it is balanced. */
  method Gerar(modo: string, freq: seq<int>, rng: Rng, combustivel: nat)
    returns (r: Result<seq<int>, Falha>, ghost fallback: bool)
    requires ModoConhecido(modo) && FrequenciasValidas(freq)
    modifies rng
    ensures r.Success? ==> EhSena(r.value) && EstritamenteCrescente(r.value)
    ensures r.Failure? ==> r.error == SemCombustivel && modo != "uniforme"
    ensures fallback ==> modo == "balanceado"
    ensures r.Success? && modo == "balanceado" && !fallback ==>
              CondicaoBalanceado(r.value) && VerificarBalanceamento(r.value)
  {
    fallback := false;
    if modo == "uniforme" {
      var jogo := GerarUniforme(rng);
      r := Success(jogo);
    } else if modo == "ponderado" {
      r := GerarPonderado(freq, rng, combustivel);
    } else {
      r, fallback := GerarBalanceado(freq, rng, 500, combustivel);
    }
  }

  /** `gerar_jogos`: `qtd` games. In `mix` mode game `i` comes from `balanceado`,
      `ponderado` or `uniforme` as `i % 3` is 0, 1 or 2; otherwise every game comes from the
      named generator, and a name that is none of the three raises `ValueError` before any
      game is drawn. `usados` names the generator of each game and `fallbacks` marks the
      `balanceado` games that came from its unconstrained last attempt; every other
      `balanceado` game is balanced. */
  method GerarJogos(modo: string, qtd: int, freq: seq<int>, rng: Rng, combustivel: nat)
    returns (r: Result<seq<seq<int>>, Falha>, ghost usados: seq<string>, ghost fallbacks: seq<bool>)
    requires FrequenciasValidas(freq)
    modifies rng
    ensures r.Failure? && r.error.ValueError? <==> modo != "mix" && !ModoConhecido(modo)
    ensures r.Failure? ==> r.error.ValueError? || r.error == SemCombustivel
    ensures r.Success? ==> |r.value| == Max(qtd, 0) && |usados| == |r.value|
    ensures r.Success? ==> forall i :: 0 <= i < |r.value| ==> EhSena(r.value[i]) && EstritamenteCrescente(r.value[i])
    ensures r.Success? && modo == "mix" ==> forall i :: 0 <= i < |usados| ==> usados[i] == Sequencia[i % |Sequencia|]
    ensures r.Success? && modo != "mix" ==> forall i :: 0 <= i < |usados| ==> usados[i] == modo
    ensures r.Success? ==> |fallbacks| == |r.value|
    ensures r.Success? ==> forall i :: 0 <= i < |r.value| && fallbacks[i] ==> usados[i] == "balanceado"
    ensures r.Success? ==> forall i :: 0 <= i < |r.value| && usados[i] == "balanceado" && !fallbacks[i] ==>
              VerificarBalanceamento(r.value[i])
  {
    if modo != "mix" && !ModoConhecido(modo) {
      return Failure(ValueError("Modo inválido: " + modo)), [], [];
    }
    var jogos: seq<seq<int>> := [];
    ghost var nomes: seq<string> := [];
    ghost var recuos: seq<bool> := [];
    for i := 0 to Max(qtd, 0)
      invariant |jogos| == i && |nomes| == i && |recuos| == i
      invariant forall k :: 0 <= k < i ==> EhSena(jogos[k]) && EstritamenteCrescente(jogos[k])
      invariant modo == "mix" ==> forall k :: 0 <= k < i ==> nomes[k] == Sequencia[k % |Sequencia|]
      invariant modo != "mix" ==> forall k :: 0 <= k < i ==> nomes[k] == modo
      invariant forall k :: 0 <= k < i ==> (recuos[k] ==> nomes[k] == "balanceado")
      invariant forall k :: 0 <= k < i && nomes[k] == "balanceado" && !recuos[k] ==>
                  VerificarBalanceamento(jogos[k])
    {
      var nome := if modo == "mix" then Sequencia[i % |Sequencia|] else modo;
      var jogo, recuo := Gerar(nome, freq, rng, combustivel);
      if jogo.Failure? {
        return Failure(jogo.error), nomes, recuos;
      }
      jogos := jogos + [jogo.value];
      nomes := nomes + [nome];
      recuos := recuos + [recuo];
    }
    r := Success(jogos);
    usados := nomes;
    fallbacks := recuos;
  }

  /** `formatar_jogo`: the numbers, two digits each, separated by a space; a game of numbers
      0..99 reads back from it. */
  function FormatarJogo(jogo: seq<int>): (r: string)
    ensures |jogo| >= 1 && (forall i :: 0 <= i < |jogo| ==> 0 <= jogo[i] <= 99) ==>
              LerFormatado(r, " ") == jogo
  {
    if |jogo| >= 1 && (forall i :: 0 <= i < |jogo| ==> 0 <= jogo[i] <= 99) then
      LerFormatadoFormatar(jogo, " ");
      Formatar(jogo, " ")
    else
      Formatar(jogo, " ")
  }
}
