/** The counting loops that both analyzers run (the TypeScript `Map`s and the Python
    `defaultdict`s are filled the same way), each proved to fill its dictionary with the
    tally that `Contagens` defines, and the two max-normalisations: Python's, which raises on
    an all-zero tally, and TypeScript's `Math.max(...) || 1`. */
module Contadores {
  import opened Loteria
  import opened Contagens

  // ---------------------------------------------------------------- frequency

  /** `freq[d] += 1` for every number of every draw. */
  method ContarFrequencias(cs: seq<Concurso>) returns (freq: map<int, nat>)
    ensures ContagemDe(freq, Sorteadas(cs))
  {
    freq := map[];
    for i := 0 to |cs|
      invariant ContagemDe(freq, Sorteadas(cs[..i]))
    {
      freq := SomarDezenas(freq, Sorteadas(cs[..i]), cs[i].dezenas);
      assert cs[..i + 1][..i] == cs[..i];
    }
    assert cs[..|cs|] == cs;
  }

  /** The inner loop of the frequency count, for one draw. */
  method SomarDezenas(freq0: map<int, nat>, ghost s: multiset<int>, dezenas: seq<int>) returns (freq: map<int, nat>)
    requires ContagemDe(freq0, s)
    ensures ContagemDe(freq, s + multiset(dezenas))
  {
    freq := freq0;
    for j := 0 to |dezenas|
      invariant ContagemDe(freq, s + multiset(dezenas[..j]))
    {
      ContagemIncrementa(freq, s + multiset(dezenas[..j]), dezenas[j]);
      freq := MaisUm(freq, dezenas[j]);
      assert dezenas[..j + 1] == dezenas[..j] + [dezenas[j]];
    }
    assert dezenas[..|dezenas|] == dezenas;
  }

  // ---------------------------------------------------------------- Markov transitions

  /** `matriz[atual][proximo] += 1` for every number of each draw and every number of the
      draw after it. */
  method ContarTransicoes(cs: seq<Concurso>) returns (matriz: map<int, map<int, nat>>)
    ensures MatrizDe(matriz, Transicoes(cs))
  {
    matriz := map[];
    if |cs| < 2 {
      // `range(len(concursos) - 1)` is empty
      return;
    }
    for i := 0 to |cs| - 1
      invariant MatrizDe(matriz, Transicoes(cs[..i + 1]))
    {
      matriz := SomarProduto(matriz, Transicoes(cs[..i + 1]), cs[i].dezenas, cs[i + 1].dezenas);
      TransicoesPasso(cs, i);
    }
    assert cs[..|cs|] == cs;
  }

  /** One more draw adds the transitions from the draw before it. */
  lemma TransicoesPasso(cs: seq<Concurso>, i: nat)
    requires i + 1 < |cs|
    ensures Transicoes(cs[..i + 2]) == Transicoes(cs[..i + 1]) + Produto(cs[i].dezenas, cs[i + 1].dezenas)
  {
    var t := cs[..i + 2];
    assert t[..|t| - 1] == cs[..i + 1];
    assert t[|t| - 2] == cs[i] && t[|t| - 1] == cs[i + 1];
  }

  /** The middle loop of the matrix count, for one pair of consecutive draws. */
  method SomarProduto(matriz0: map<int, map<int, nat>>, ghost s: multiset<(int, int)>, atual: seq<int>, proximo: seq<int>)
    returns (matriz: map<int, map<int, nat>>)
    requires MatrizDe(matriz0, s)
    ensures MatrizDe(matriz, s + Produto(atual, proximo))
  {
    matriz := matriz0;
    for j := 0 to |atual|
      invariant MatrizDe(matriz, s + Produto(atual[..j], proximo))
    {
      matriz := SomarLinha(matriz, s + Produto(atual[..j], proximo), atual[j], proximo);
      assert atual[..j + 1][..j] == atual[..j];
      assert Produto(atual[..j + 1], proximo) == Produto(atual[..j], proximo) + LinhaDe(atual[j], proximo);
    }
    assert atual[..|atual|] == atual;
  }

  /** The innermost loop of the matrix count: `a`'s row gains one for each number of the next
      draw. */
  method SomarLinha(matriz0: map<int, map<int, nat>>, ghost s: multiset<(int, int)>, a: int, proximo: seq<int>)
    returns (matriz: map<int, map<int, nat>>)
    requires MatrizDe(matriz0, s)
    ensures MatrizDe(matriz, s + LinhaDe(a, proximo))
  {
    matriz := matriz0;
    for k := 0 to |proximo|
      invariant MatrizDe(matriz, s + LinhaDe(a, proximo[..k]))
    {
      PassoLinha(matriz, s, a, proximo, k);
      matriz := MaisUmNaMatriz(matriz, a, proximo[k]);
    }
    assert proximo[..|proximo|] == proximo;
  }

  lemma PassoLinha(matriz: map<int, map<int, nat>>, s: multiset<(int, int)>, a: int, proximo: seq<int>, k: nat)
    requires k < |proximo| && MatrizDe(matriz, s + LinhaDe(a, proximo[..k]))
    ensures MatrizDe(MaisUmNaMatriz(matriz, a, proximo[k]), s + LinhaDe(a, proximo[..k + 1]))
  {
    assert proximo[..k + 1][..k] == proximo[..k];
    MatrizIncrementa(matriz, s + LinhaDe(a, proximo[..k]), a, proximo[k]);
  }

  /** The follower tally of the reference numbers `refs`: for each one, every entry of its row
      of the matrix (`matriz.get(d_ref, {})`) is added to `scores`. */
  method SomarSeguidores(ghost cs: seq<Concurso>, matriz: map<int, map<int, nat>>, refs: seq<int>)
    returns (scores: map<int, nat>)
    requires MatrizDe(matriz, Transicoes(cs))
    requires Distintos(refs)
    ensures forall d :: Get(scores, d) == Seguidores(cs, (set r | r in refs), d)
    ensures forall d :: d in scores ==> scores[d] > 0
  {
    scores := map[];
    ghost var vistos: set<int> := {};
    forall d ensures Seguidores(cs, vistos, d) == 0 {
      SeguidoresZero(cs, vistos, d);
    }
    for i := 0 to |refs|
      invariant vistos == set r | r in refs[..i]
      invariant forall d :: Get(scores, d) == Seguidores(cs, vistos, d)
      invariant forall d :: d in scores ==> scores[d] > 0
    {
      var r := refs[i];
      var linha := if r in matriz then matriz[r] else map[];
      ghost var antes := scores;
      scores := SomarLinhaDe(scores, linha);
      SeguidoresPasso(cs, matriz, refs, i, vistos);
      forall d | d in scores ensures scores[d] > 0 {
        assert Get(scores, d) == Get(antes, d) + Get(linha, d);
      }
      assert refs[..i + 1] == refs[..i] + [r];
      vistos := vistos + {r};
    }
    assert refs[..|refs|] == refs;
  }

  /** One reference number more adds its row of the matrix to every follower count. */
  lemma SeguidoresPasso(cs: seq<Concurso>, matriz: map<int, map<int, nat>>, refs: seq<int>, i: nat, vistos: set<int>)
    requires MatrizDe(matriz, Transicoes(cs)) && Distintos(refs)
    requires i < |refs| && vistos == set r | r in refs[..i]
    ensures var r := refs[i];
            var linha := if r in matriz then matriz[r] else map[];
            && (forall d :: Seguidores(cs, vistos + {r}, d) == Seguidores(cs, vistos, d) + Get(linha, d))
            && (forall d :: d in linha ==> linha[d] > 0)
  {
    var r := refs[i];
    assert refs[..i + 1] == refs[..i] + [r];
    assert r !in vistos by {
      forall j | 0 <= j < i ensures refs[j] != r { }
    }
    forall d ensures Seguidores(cs, vistos + {r}, d) ==
                     Seguidores(cs, vistos, d) + Celula(matriz, r, d) {
      SeguidoresMais(cs, vistos, r, d);
    }
  }

  /** The inner loop: `scores[d] += contagem` for every entry of one row. */
  method SomarLinhaDe(scores0: map<int, nat>, linha: map<int, nat>) returns (scores: map<int, nat>)
    ensures forall d :: Get(scores, d) == Get(scores0, d) + Get(linha, d)
    ensures forall d :: d in scores <==> d in scores0 || d in linha
  {
    scores := scores0;
    var ks := ListaDoConjunto(linha.Keys);
    for j := 0 to |ks|
      invariant forall d :: Get(scores, d) == Get(scores0, d) + (if d in ks[..j] then linha[d] else 0)
      invariant forall d :: d in scores <==> d in scores0 || d in ks[..j]
    {
      var d := ks[j];
      assert d !in ks[..j] by {
        forall t | 0 <= t < j ensures ks[t] != d { }
      }
      assert forall x :: x in ks[..j + 1] <==> x in ks[..j] || x == d by {
        assert ks[..j + 1] == ks[..j] + [d];
      }
      scores := scores[d := Get(scores, d) + linha[d]];
    }
    assert ks[..|ks|] == ks;
  }

  // ---------------------------------------------------------------- co-occurrence

  /** `cooc[(dezenas[i], dezenas[j])] += 1` for every pair of positions `i < j` of each draw
      sorted ascending. `ordem` is the dictionary's insertion order: each pair once, in the
      order the loops first meet it, which the later sort by count keeps among equal counts. */
  method ContarCoocorrencias(cs: seq<Concurso>) returns (cooc: map<(int, int), nat>, ordem: seq<(int, int)>)
    ensures ContagemDe(cooc, Coocorrencias(cs))
    ensures OrdemDe(ordem, cooc)
    ensures ordem == PrimeirosPares(cs)
  {
    cooc := map[];
    ordem := [];
    for n := 0 to |cs|
      invariant ContagemDe(cooc, Coocorrencias(cs[..n]))
      invariant OrdemDe(ordem, cooc)
      invariant ordem == PrimeirasOcorrencias(ListaCoocorrencias(cs[..n]))
    {
      var dezenas := Ordenar(cs[n].dezenas);
      CoocorrenciasPasso(cs, n);
      cooc, ordem := SomarPares(cooc, ordem, Coocorrencias(cs[..n]), ListaCoocorrencias(cs[..n]), dezenas);
    }
    assert cs[..|cs|] == cs;
  }

  lemma CoocorrenciasPasso(cs: seq<Concurso>, n: nat)
    requires n < |cs|
    ensures Coocorrencias(cs[..n + 1]) == Coocorrencias(cs[..n]) + ParesDe(Ordenar(cs[n].dezenas))
    ensures ListaCoocorrencias(cs[..n + 1]) == ListaCoocorrencias(cs[..n]) + ListaPares(Ordenar(cs[n].dezenas))
  {
    assert cs[..n + 1][..n] == cs[..n];
  }

  /** The two inner loops of the co-occurrence count, for one sorted draw. `l` is the list of
      pairs met so far, whose first occurrences make up `ordem0`. */
  method SomarPares(cooc0: map<(int, int), nat>, ordem0: seq<(int, int)>, ghost s: multiset<(int, int)>,
                    ghost l: seq<(int, int)>, dezenas: seq<int>)
    returns (cooc: map<(int, int), nat>, ordem: seq<(int, int)>)
    requires ContagemDe(cooc0, s) && OrdemDe(ordem0, cooc0) && ordem0 == PrimeirasOcorrencias(l)
    ensures ContagemDe(cooc, s + ParesDe(dezenas)) && OrdemDe(ordem, cooc)
    ensures ordem == PrimeirasOcorrencias(l + ListaPares(dezenas))
  {
    cooc, ordem := cooc0, ordem0;
    ghost var contagem, lista := s, l;
    assert s + ParesAte(dezenas, 0) == s;
    assert l + ListaParesAte(dezenas, 0) == l;
    for i := 0 to |dezenas|
      invariant contagem == s + ParesAte(dezenas, i) && lista == l + ListaParesAte(dezenas, i)
      invariant ParesSomados(cooc, ordem, contagem, lista)
    {
      cooc, ordem := SomarParesCom(cooc, ordem, contagem, lista, dezenas, i);
      contagem := contagem + LinhaDe(dezenas[i], dezenas[i + 1..]);
      lista := lista + ListaLinha(dezenas[i], dezenas[i + 1..]);
      ParesAtePasso(s, dezenas, i);
      ListaParesAtePasso(l, dezenas, i);
    }
  }

  /** `cooc` counts the pairs of `s`, and `ordem` lists its keys in the order in which `l` first
      meets them. */
  ghost predicate ParesSomados(cooc: map<(int, int), nat>, ordem: seq<(int, int)>, s: multiset<(int, int)>,
                               l: seq<(int, int)>)
  {
    ContagemDe(cooc, s) && OrdemDe(ordem, cooc) && ordem == PrimeirasOcorrencias(l)
  }

  /** The innermost loop: the pairs of `dezenas[i]` with each later number. A pair seen for
      the first time joins the insertion order. */
  method SomarParesCom(cooc0: map<(int, int), nat>, ordem0: seq<(int, int)>, ghost s: multiset<(int, int)>,
                       ghost l: seq<(int, int)>, dezenas: seq<int>, i: nat)
    returns (cooc: map<(int, int), nat>, ordem: seq<(int, int)>)
    requires i < |dezenas|
    requires ContagemDe(cooc0, s) && OrdemDe(ordem0, cooc0) && ordem0 == PrimeirasOcorrencias(l)
    ensures ContagemDe(cooc, s + LinhaDe(dezenas[i], dezenas[i + 1..])) && OrdemDe(ordem, cooc)
    ensures ordem == PrimeirasOcorrencias(l + ListaLinha(dezenas[i], dezenas[i + 1..]))
  {
    cooc, ordem := cooc0, ordem0;
    ghost var lista := l;
    assert s + LinhaDe(dezenas[i], dezenas[i + 1..i + 1]) == s by {
      assert dezenas[i + 1..i + 1] == [];
    }
    assert l + ListaLinha(dezenas[i], dezenas[i + 1..i + 1]) == l;
    for j := i + 1 to |dezenas|
      invariant ContagemDe(cooc, s + LinhaDe(dezenas[i], dezenas[i + 1..j])) && OrdemDe(ordem, cooc)
      invariant lista == l + ListaLinha(dezenas[i], dezenas[i + 1..j]) && ordem == PrimeirasOcorrencias(lista)
    {
      var par := (dezenas[i], dezenas[j]);
      PassoPar(cooc, s, dezenas, i, j);
      PassoListaPar(l, dezenas, i, j);
      OrdemPasso(ordem, cooc, lista, par);
      if par !in cooc {
        ordem := ordem + [par];
      }
      cooc := MaisUm(cooc, par);
      lista := lista + [par];
    }
    assert dezenas[i + 1..|dezenas|] == dezenas[i + 1..];
  }

  lemma ListaParesAtePasso(l: seq<(int, int)>, dezenas: seq<int>, i: nat)
    requires i < |dezenas|
    ensures l + ListaParesAte(dezenas, i + 1) == l + ListaParesAte(dezenas, i) + ListaLinha(dezenas[i], dezenas[i + 1..])
  {
  }

  /** A pair met by the innermost loop joins the insertion order exactly when it is new. */
  lemma OrdemPasso(ordem: seq<(int, int)>, cooc: map<(int, int), nat>, lista: seq<(int, int)>, par: (int, int))
    requires OrdemDe(ordem, cooc) && ordem == PrimeirasOcorrencias(lista)
    ensures var nova := if par in cooc then ordem else ordem + [par];
            OrdemDe(nova, MaisUm(cooc, par)) && nova == PrimeirasOcorrencias(lista + [par])
  {
    OrdemIncrementa(ordem, cooc, par);
    PrimeirasOcorrenciasPasso(lista, par);
  }

  lemma PassoListaPar(l: seq<(int, int)>, dezenas: seq<int>, i: nat, j: nat)
    requires i < j < |dezenas|
    ensures l + ListaLinha(dezenas[i], dezenas[i + 1..j + 1]) ==
              l + ListaLinha(dezenas[i], dezenas[i + 1..j]) + [(dezenas[i], dezenas[j])]
  {
  }

  lemma ParesAtePasso(s: multiset<(int, int)>, dezenas: seq<int>, i: nat)
    requires i < |dezenas|
    ensures s + ParesAte(dezenas, i + 1) == s + ParesAte(dezenas, i) + LinhaDe(dezenas[i], dezenas[i + 1..])
  {
  }

  lemma PassoPar(cooc: map<(int, int), nat>, s: multiset<(int, int)>, dezenas: seq<int>, i: nat, j: nat)
    requires i < j < |dezenas|
    requires ContagemDe(cooc, s + LinhaDe(dezenas[i], dezenas[i + 1..j]))
    ensures ContagemDe(MaisUm(cooc, (dezenas[i], dezenas[j])), s + LinhaDe(dezenas[i], dezenas[i + 1..j + 1]))
  {
    assert dezenas[i + 1..j + 1][..j - i - 1] == dezenas[i + 1..j];
    ContagemIncrementa(cooc, s + LinhaDe(dezenas[i], dezenas[i + 1..j]), (dezenas[i], dezenas[j]));
  }

  // ---------------------------------------------------------------- delays

  /** `scores[d1] += contagem; scores[d2] += contagem` over the listed pairs: the summed
      count of the pairs holding each number. */
  method SomarContagensPares(top: seq<((int, int), nat)>) returns (scores: map<int, nat>)
    ensures forall d :: Get(scores, d) == PontosPares(top, d)
    ensures forall d :: d in scores ==> exists i :: 0 <= i < |top| && (top[i].0.0 == d || top[i].0.1 == d)
  {
    scores := map[];
    for i := 0 to |top|
      invariant forall d :: Get(scores, d) == PontosPares(top[..i], d)
      invariant forall d :: d in scores ==> exists j :: 0 <= j < i && (top[j].0.0 == d || top[j].0.1 == d)
    {
      var (par, contagem) := top[i];
      var (d1, d2) := par;
      scores := scores[d1 := Get(scores, d1) + contagem];
      scores := scores[d2 := Get(scores, d2) + contagem];
      assert top[..i + 1][..i] == top[..i];
    }
    assert top[..|top|] == top;
  }

  /** Walks the draws from the last one back, counting until one lists `d`. */
  method CalcularAtraso(cs: seq<Concurso>, d: int) returns (atraso: nat)
    ensures atraso == Atraso(cs, d)
  {
    atraso := 0;
    var i := |cs|;
    assert cs[..i] == cs;
    while i > 0
      invariant 0 <= i <= |cs|
      invariant Atraso(cs, d) == atraso + Atraso(cs[..i], d)
    {
      if d in cs[i - 1].dezenas {
        break;
      }
      assert cs[..i][..i - 1] == cs[..i - 1];
      atraso := atraso + 1;
      i := i - 1;
    }
  }

  /** The numbers 1..60 in order: the keys of the delay dictionary, as they are inserted. */
  function Universo(): (u: seq<int>)
    ensures |u| == DezenaMax - DezenaMin + 1
    ensures forall i :: 0 <= i < |u| ==> u[i] == DezenaMin + i
  {
    seq(DezenaMax - DezenaMin + 1, i => DezenaMin + i)
  }

  lemma UniversoChaves()
    ensures Distintos(Universo())
    ensures forall d :: d in Universo() <==> NoUniverso(d)
  {
    var u := Universo();
    forall d | NoUniverso(d) ensures d in u {
      assert u[d - DezenaMin] == d;
    }
  }

  /** The delay of every number of the universe. */
  method ContarAtrasos(cs: seq<Concurso>) returns (atrasos: map<int, nat>)
    ensures forall d :: d in atrasos <==> NoUniverso(d)
    ensures forall d :: d in atrasos ==> atrasos[d] == Atraso(cs, d)
  {
    atrasos := map[];
    for d := DezenaMin to DezenaMax + 1
      invariant forall x :: x in atrasos <==> DezenaMin <= x < d
      invariant forall x :: x in atrasos ==> atrasos[x] == Atraso(cs, x)
    {
      var atraso := CalcularAtraso(cs, d);
      atrasos := atrasos[d := atraso];
    }
  }

  // ---------------------------------------------------------------- normalisation

  /** `max(m.values())` for a non-empty dictionary. */
  method MaiorValor(m: map<int, nat>) returns (r: nat)
    requires |m| > 0
    ensures forall k :: k in m ==> m[k] <= r
    ensures exists k :: k in m && m[k] == r
  {
    var ks := ListaDoConjunto(m.Keys);
    forall j | 0 <= j < |ks| ensures ks[j] in m {
      assert ks[j] in ks;
    }
    assert |ks| > 0;
    r := m[ks[0]];
    for i := 1 to |ks|
      invariant forall j :: 0 <= j < i ==> m[ks[j]] <= r
      invariant exists j :: 0 <= j < i && m[ks[j]] == r
    {
      if m[ks[i]] > r {
        r := m[ks[i]];
      }
    }
    forall k | k in m ensures m[k] <= r {
      var j :| 0 <= j < |ks| && ks[j] == k;
    }
  }

  /** A dictionary of positive counts is all-zero only when it is empty. */
  lemma ChavePositiva(m: map<int, nat>)
    requires forall k :: k in m ==> m[k] > 0
    ensures |m| > 0 ==> exists k :: k in m && m[k] > 0
  {
    if |m| > 0 {
      if forall k :: k !in m { assert false; }
      var k :| k in m;
    }
  }

  /** The largest count of `m` is the largest tally over 1..60 when every key is a number of
      the universe. */
  lemma MaiorValorUniverso(m: map<int, nat>, r: nat)
    requires forall k :: k in m ==> NoUniverso(k)
    requires forall k :: k in m ==> m[k] <= r
    requires (exists k :: k in m && m[k] == r) || r == 0
    ensures MaximoEm(DezenaMin, DezenaMax + 1, Valores(m)) == r
  {
    if exists k :: k in m && m[k] == r {
      var w :| w in m && m[w] == r;
      MaximoEmUnico(DezenaMin, DezenaMax + 1, Valores(m), r, w);
    } else {
      MaximoEmUnico(DezenaMin, DezenaMax + 1, Valores(m), r, DezenaMin);
    }
  }

  /** `{d: m.get(d, 0) / divisor for d in range(1, 61)}`. */
  function Dividido(m: map<int, nat>, divisor: nat): (r: map<int, real>)
    requires divisor > 0
    ensures forall d :: d in r <==> NoUniverso(d)
  {
    map d | DezenaMin <= d <= DezenaMax :: Get(m, d) as real / divisor as real
  }

  /** Dividing by the largest count (or by 1 when it is 0) normalises the tally. */
  lemma DivididoNormalizado(m: map<int, nat>, maximo: nat, q: nat)
    requires forall k :: k in m ==> NoUniverso(k)
    requires forall k :: k in m ==> m[k] <= maximo
    requires (exists k :: k in m && m[k] == maximo) || maximo == 0
    requires q == if maximo == 0 then 1 else maximo
    ensures Normalizado(Dividido(m, q), Valores(m))
  {
    MaiorValorUniverso(m, maximo);
    var scores := Dividido(m, q);
    var f := Valores(m);
    assert Divisor(f) == q;
    forall d | d in scores ensures scores[d] == f(d) as real / Divisor(f) as real {
      var x := Get(m, d) as real;
      assert scores[d] == x / q as real;
      assert f(d) as real == x;
    }
  }

  /** Python's `max_score = max(m.values()) if m else 1` followed by
      `{d: m.get(d, 0) / max_score for d in range(1, 61)}`: raises `ZeroDivisionError` when
      the dictionary is non-empty and all its counts are 0. */
  method Normalizar(m: map<int, nat>) returns (r: Result<map<int, real>, Falha>)
    ensures r.Failure? <==> |m| > 0 && forall k :: k in m ==> m[k] == 0
    ensures r.Failure? ==> r.error == ZeroDivisionError
    ensures r.Success? ==> forall d :: d in r.value <==> NoUniverso(d)
    ensures r.Success? && (forall k :: k in m ==> NoUniverso(k)) ==> Normalizado(r.value, Valores(m))
  {
    var maximo: nat := 1;
    if |m| > 0 {
      maximo := MaiorValor(m);
    } else {
      assert forall k :: k !in m;
    }
    if maximo == 0 {
      return Failure(ZeroDivisionError);
    }
    if forall k :: k in m ==> NoUniverso(k) {
      if |m| == 0 {
        DivididoNormalizado(m, 0, maximo);
      } else {
        DivididoNormalizado(m, maximo, maximo);
      }
    }
    return Success(Dividido(m, maximo));
  }

  /** TypeScript's `Math.max(...m.values()) || 1` followed by the division for 1..60. On an
      empty dictionary `Math.max()` is `-Infinity`, which `|| 1` keeps, and every quotient is
      `-0`; the model divides by 1 instead, which gives the same zeros. */
  method NormalizarTs(m: map<int, nat>) returns (scores: map<int, real>)
    ensures forall d :: d in scores <==> NoUniverso(d)
    ensures (forall k :: k in m ==> NoUniverso(k)) ==> Normalizado(scores, Valores(m))
  {
    var maximo: nat := 0;
    if |m| > 0 {
      maximo := MaiorValor(m);
    }
    var divisor := if maximo == 0 then 1 else maximo;
    scores := Dividido(m, divisor);
    if forall k :: k in m ==> NoUniverso(k) {
      DivididoNormalizado(m, maximo, divisor);
    }
  }
}
