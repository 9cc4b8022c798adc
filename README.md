# Mega-Sena analysis and game generation — a Dafny model

The repository helps a player choose tickets for the Mega-Sena lottery. A ticket (`jogo`) is six distinct numbers (`dezenas`) from 1 to 60. The history of draws (`concursos`) feeds four statistical scores:

- **frequency**: how often each number was drawn;
- **Markov**: how often each number followed the numbers of the last draw;
- **co-occurrence**: how many of the 100 most frequent pairs contain the number;
- **delay** (`atraso`): how many draws since the number last appeared.

Each score is normalised to the range 0..1. The generators draw tickets uniformly, or weighted by a combination of the scores. Optionally, they keep only "balanced" tickets: three even numbers, and one to three numbers in each of the bands 1-20, 21-40 and 41-60.

The engine exists four times:

- `mega-sena-next/src/lib/algoritmos.ts`: the TypeScript engine of the web app. Its analyzer and generator classes are in module `Algoritmos`.
- `app_web.py`: the Python engine of the Streamlit app. Its analyzer is `AnalisadorPy.AnalisadorMegaSena`. The generator, the covering designs (`fechamentos`), saved-game ids and the CSV export are in `AppWeb`.
- `mega_sena_app.py`: the console version. Its analyzer (lines 66-211) is the same code as `app_web.py`'s, so it is modelled once, by `AnalisadorPy`. Its generator is `MegaSenaApp.GeradorJogos`: the `app_web.py` generator with no fixed and no removed numbers, which is what its code does draw for draw.
- `gerador_megasena.py`: a standalone script with a frequency-weighted generator and a date parser. It is modelled by `GeradorMegaSena` and `Datas`.

The shared building blocks are:

| Module | Contents |
|---|---|
| `Loteria` | Constants, draws, counting, sorting, bands, balance, filtering by date |
| `Contagens` | The multisets the counts are specified by, and normalisation |
| `Contadores` | The counting loops, proved against `Contagens` |
| `Texto` | Decimal rendering, join/split, the game keys |
| `Combinacoes` | `itertools.combinations` |
| `Acaso` | The random sources, as a stream oracle (`Rng`) |

Loops that update dictionaries, lists or sets are methods with loop invariants. Each is proved against a specification function on values. Analyzer and generator objects are classes. A draw is a value of the subtype `Sena`: six distinct numbers of 1..60. The model assumes this of every draw (see "## Left out"). The top-pair and most-delayed lists are a stable sort by count over the dictionary's iteration order, as with Python's `sorted` and JavaScript's `Array.prototype.sort`. The model proves the sort stable (`Loteria.OrdenarPorEstavel`). It follows that, for each count, the entries kept are the first entries with that count in iteration order (`Contagens.MaisFrequentesEmpates`). That order is 1..60 for the delays (`Contadores.Universo`). For the pairs it is the order in which the counting loops first meet each pair (`Contagens.PrimeirosPares`, proved by `Contagens.PrimeirasOcorrenciasOrdem`), and the counting loops are proved to produce exactly that order.

## Model

| member | source | states |
|---|---|---|
| Loteria.Faixa | app_web.py:239-243 | `_faixa`: -1 exactly for numbers outside 1..60, otherwise the index of the band that contains the number |
| Loteria.VerificarBalanceamento | app_web.py:245-254 | `_verificar_balanceamento` holds exactly when three numbers are even and every band holds one to three numbers |
| Loteria.FiltrarDesde | app_web.py:113-116 | The filtered history keeps exactly the draws dated on or after the limit, never grows, and is empty when every draw is older |
| Loteria.FiltrarDesdeSufixo | app_web.py:105-116 | On the date-sorted history of the analyzer, the filter keeps a suffix: the most recent draws |
| Loteria.Ordenar | app_web.py:268 | `sorted(xs)`: a permutation of the input, in ascending order, with the same elements |
| Loteria.CrescenteUnica | app_web.py:268 | Two ascending permutations of the same multiset are equal, so a sort result is determined by its input |
| Loteria.OrdenarPor | app_web.py:106 | `sorted(concursos, key=data)`: a permutation of the draws, ordered by date |
| Loteria.InserirOrdenado | app_web.py:106 | Inserting one draw into a date-ordered list keeps it ordered, and every key stays at or above the smaller of the new key and the old first key |
| Loteria.OrdenarOrdenado | app_web.py:106 | The sort by date is stable: a history already in date order comes back unchanged, which is why re-sorting the filtered history changes nothing |
| Loteria.OrdenarPorEstavel | app_web.py:174 | `sorted` is stable: for every key, the elements with that key come out in their input order |
| Loteria.FiltroInserir | app_web.py:174 | Inserting an element puts it ahead of every element with the same key and keeps the order of the others |
| Loteria.FiltroPrefixo | app_web.py:174 | The elements with one key in a slice `xs[:n]` are a prefix of the elements with that key in `xs` |
| Loteria.ListaDoConjunto | app_web.py:267 | `list(numeros_fixos)`: a duplicate-free list with the same elements as the set |
| Loteria.Ordenado | app_web.py:312 | `sorted(escolhidas)` of a set: strictly ascending, same elements, same size |
| Loteria.ContaConjunto | app_web.py:207-209 | Counting the numbers of a duplicate-free ticket that belong to a set gives the size of the intersection |
| Contagens.Sorteadas | app_web.py:118-124 | The multiset of all drawn numbers has six entries per draw, all in 1..60 |
| Contagens.FrequenciaConta | app_web.py:118-124 | A number's count in that multiset is the number of draws that list it, at most the number of draws |
| Contagens.FrequenciaTotal | app_web.py:118-124 | The frequencies over 1..60 add up to six times the number of draws |
| Contagens.TransicoesConta | app_web.py:133-142 | The transition multiset counts, for `(x, y)`, the consecutive draw pairs in which `x` is followed by `y` |
| Contagens.TransicoesTotal | app_web.py:133-142 | A history of n > 1 draws has 36 (n - 1) transitions; with at most one draw there are none |
| Contagens.TransicoesSoma | app_web.py:133-142 | Summing the matrix cells over 1..60 × 1..60 gives the number of transitions |
| Contagens.ParesConta | app_web.py:165-169 | The pairs `(dezenas[i], dezenas[j])`, `i < j`, of a sorted draw are exactly its ordered pairs of distinct numbers, once each |
| Contagens.ParesAteCauda | app_web.py:166-169 | The pairs of a list are its first number paired with each later number, followed by the pairs of the rest |
| Contagens.ParesDeSeis | app_web.py:165-169 | A draw contributes 15 pairs |
| Contagens.CoocorrenciasConta | app_web.py:161-170 | The count of pair `(a, b)` is the number of draws that list both, when `a < b`, and zero otherwise |
| Contagens.CoocorrenciasTotal | app_web.py:161-170 | The pair multiset has 15 entries per draw, each an ascending pair of numbers of 1..60 |
| Contagens.Atraso | app_web.py:186-196 | The delay is at most the number of draws, and is zero exactly when there are no draws or the last draw lists the number |
| Contagens.AtrasoAusente | app_web.py:186-196 | The delay equals the number of draws exactly when the number was never drawn |
| Contagens.AtrasoPositivo | app_web.py:198-201 | With at least one draw, some number has a positive delay, so the largest delay is positive |
| Contagens.SeguidoresZero | app_web.py:153-156 | A number's follower tally is zero exactly when no reference number was ever followed by it |
| Contagens.SeguidoresSemTransicoes | app_web.py:144-159 | With at most one draw every follower tally is zero |
| Contagens.SeguidoresMais | app_web.py:153-156 | Adding a reference number adds its matrix row to the tally |
| Contagens.PontosParesZero | app_web.py:176-178 | A number's pair score is zero exactly when no listed pair contains it |
| Contagens.PropriedadesNormalizado | app_web.py:126-131 | A normalised score lies in 0..1, is 0 exactly for a zero count, is 1 exactly for a maximal positive count, and preserves the order of the counts |
| Contagens.ScoreNormalizado | app_web.py:130-131 | One number's normalised score lies in 0..1, is 0 exactly for a zero count and 1 exactly for a maximal positive count |
| Contagens.DivisorMaximo | app_web.py:130 | The divisor is at least every count of 1..60, and equals a count exactly when that count is positive and maximal |
| Contagens.NormalizadoZero | app_web.py:128-129 | When every count is zero every score is 0.0 |
| Contagens.MaisFrequentesPropriedades | app_web.py:182-184 | `sorted(items, by count, reverse)[:n]`: at most n distinct entries, each with its true count, in non-increasing order, and no entry left out has a larger count than one kept |
| Contagens.MaisFrequentesTodas | app_web.py:182-184 | When n is at least the number of keys, every key is listed |
| Contagens.MaisFrequentesEmpates | app_web.py:182-184 | Ties: for every count, the entries kept with that count are the first entries with that count in the dictionary's iteration order, in that order |
| Contagens.PrimeirasOcorrencias | app_web.py:161-170 | A dictionary's key order after a series of insertions: holds every inserted key and nothing else |
| Contagens.PrimeirasOcorrenciasDistintas | app_web.py:161-170 | Each key appears once in that order |
| Contagens.PrimeirasOcorrenciasPasso | app_web.py:169 | One more insertion appends the key when it is new and leaves the order alone otherwise |
| Contagens.PrimeirasOcorrenciasOrdem | app_web.py:161-170 | The keys come in the order of their first insertion |
| Contagens.ListaCoocorrencias | app_web.py:163-169 | The pairs in the order the loops visit them are, as a multiset, the counted co-occurrence pairs |
| Contagens.PrimeirosPares | app_web.py:161-170 | The co-occurrence dictionary's key order: each pair that occurs, once, in first-visit order |
| Contagens.ContagemParesDe | app_web.py:161-170 | A dictionary with the keys of `PrimeirosPares`, each with the number of draws holding both numbers, is the co-occurrence dictionary |
| Contagens.Fatia | app_web.py:184 | The length of `xs[:n]` never exceeds the length of `xs` |
| Contadores.ContarFrequencias | app_web.py:118-124 | The `freq[d] += 1` loop yields the count of every drawn number, and no other key |
| Contadores.ContarTransicoes | app_web.py:133-142 | The nested loop yields a matrix whose cells count the transitions |
| Contadores.TransicoesPasso | app_web.py:136-141 | Each further draw adds the transitions from the draw before it |
| Contadores.SomarSeguidores | app_web.py:153-156 | Adding the rows of the reference numbers gives each number's follower tally, and lists only positive tallies |
| Contadores.ContarCoocorrencias | app_web.py:161-170 | The pair loops yield the pair counts, and the key order is exactly `PrimeirosPares`: each pair once, in the order the loops first meet it |
| Contadores.SomarContagensPares | app_web.py:175-178 | `scores[d1] += contagem; scores[d2] += contagem` gives each number the summed counts of the listed pairs that contain it |
| Contadores.CalcularAtraso | app_web.py:189-195 | The backwards walk counts the draws since the number last appeared |
| Contadores.ContarAtrasos | app_web.py:186-196 | The delay dictionary has exactly the keys 1..60, each with its delay |
| Contadores.MaiorValor | app_web.py:130 | `max(m.values())` is an upper bound that some key attains |
| Contadores.Normalizar | app_web.py:158-159 | Dividing by the largest value fails with ZeroDivisionError exactly when the dictionary is non-empty and all zero; otherwise the result has keys 1..60 and is normalised |
| Contadores.NormalizarTs | mega-sena-next/src/lib/algoritmos.ts:101-106 | `Math.max(...) \|\| 1`: keys 1..60, normalised, with no failure |
| Algoritmos.AnalisadorMegaSena.constructor | mega-sena-next/src/lib/algoritmos.ts:16 | The analyzer keeps the draws as given |
| Algoritmos.AnalisadorMegaSena.FiltrarPorAnos | mega-sena-next/src/lib/algoritmos.ts:18-23 | A new analyzer over exactly the draws on or after the limit |
| Algoritmos.AnalisadorMegaSena.CalcularFrequencias | mega-sena-next/src/lib/algoritmos.ts:25-35 | The map gives each number its number of draws, with keys only in 1..60 |
| Algoritmos.AnalisadorMegaSena.ScoresFrequencia | mega-sena-next/src/lib/algoritmos.ts:37-51 | Frequencies normalised to 0..1; all zero with no draws |
| Algoritmos.AnalisadorMegaSena.CalcularMatrizMarkov | mega-sena-next/src/lib/algoritmos.ts:53-75 | Cell `(a, b)` counts the consecutive draws in which `a` is followed by `b` |
| Algoritmos.AnalisadorMegaSena.ScoresMarkov | mega-sena-next/src/lib/algoritmos.ts:77-107 | The follower tallies of the last draw's numbers, normalised; all zero with at most one draw |
| Algoritmos.SomaMarkov | mega-sena-next/src/lib/algoritmos.ts:85-99 | The summed rows of the last draw's numbers are the transition counts from those numbers, and only numbers of 1..60 appear |
| Algoritmos.MarkovSemTransicoes | mega-sena-next/src/lib/algoritmos.ts:77-106 | With at most one draw there is no transition, so every Markov score is 0 |
| Algoritmos.AnalisadorMegaSena.CalcularCoocorrencias | mega-sena-next/src/lib/algoritmos.ts:109-125 | Each pair `a < b` counts the draws that list both; only positive counts of ascending pairs in 1..60 are stored; the `Map`'s key order is `PrimeirosPares` |
| Algoritmos.AnalisadorMegaSena.ParesMaisFrequentes | mega-sena-next/src/lib/algoritmos.ts:129-131 | The list is the top 100 pairs by count, and is exactly the stable sort of the entries in `PrimeirosPares` order, cut to 100, so ties are decided |
| Algoritmos.AnalisadorMegaSena.ScoresCoocorrencia | mega-sena-next/src/lib/algoritmos.ts:127-146 | Each number's summed count over the top pairs, normalised; 0 exactly for numbers in no top pair; the top pairs are the determined list above |
| Algoritmos.PontuarParesTs | mega-sena-next/src/lib/algoritmos.ts:133-145 | Summing the counts of a top list per number and dividing by the `\|\| 1` maximum gives scores in [0, 1], 0 exactly for numbers in no listed pair |
| Algoritmos.AnalisadorMegaSena.CalcularAtrasos | mega-sena-next/src/lib/algoritmos.ts:148-164 | Keys exactly 1..60; the delay is 0 iff the last draw lists the number, and equals the history length iff the number never appeared |
| Algoritmos.AnalisadorMegaSena.ScoresAtraso | mega-sena-next/src/lib/algoritmos.ts:166-174 | Delays normalised; 0 exactly for the numbers of the last draw, or for every number when there are no draws |
| Algoritmos.Normalizacao | mega-sena-next/src/lib/algoritmos.ts:45-50 | Normalising a map of counts gives scores in 0..1 that are 0 exactly for zero counts |
| Algoritmos.MaisFrequentesTopo | mega-sena-next/src/lib/algoritmos.ts:129-131 | Sorting the pair entries by count and taking 100 gives a valid top list |
| Algoritmos.BalanceamentoConcorda | mega-sena-next/src/lib/algoritmos.ts:195-207 | On numbers of 1..60, the TypeScript balance check (`<= 20`, `<= 40`, else) agrees with the Python one |
| Algoritmos.GeradorJogos.constructor | mega-sena-next/src/lib/algoritmos.ts:180-185 | The generator keeps its analyzer and random source |
| Algoritmos.GeradorJogos.VerificarBalanceamento | mega-sena-next/src/lib/algoritmos.ts:195-207 | The loop answers exactly the balance predicate |
| Algoritmos.DisponiveisAte | mega-sena-next/src/lib/algoritmos.ts:210-215 | The available numbers are exactly the numbers of 1..60 that are neither fixed nor removed, in ascending order |
| Algoritmos.GeradorJogos.GerarUniforme | mega-sena-next/src/lib/algoritmos.ts:209-227 | The fixed numbers plus distinct available numbers, sorted, topped up to six or to all that are available |
| Algoritmos.Sortear | mega-sena-next/src/lib/algoritmos.ts:218-224 | The drawing loop only moves numbers out of the pool into the game, after the fixed ones, and stops at six numbers or with the pool empty |
| Algoritmos.UniformeFinal | mega-sena-next/src/lib/algoritmos.ts:218-226 | Once the loop stops, the sorted game holds the fixed numbers and distinct available ones, topped up to six or to all that are available |
| Algoritmos.TamanhoFinal | mega-sena-next/src/lib/algoritmos.ts:221-224 | The fill loop stops at six numbers or when the pool is empty, which gives the uniform size |
| Algoritmos.ComporJogo | mega-sena-next/src/lib/algoritmos.ts:218-226 | Sorting the fixed numbers plus distinct available ones gives a composed game |
| Algoritmos.CompostoSena | mega-sena-next/src/lib/algoritmos.ts:218-226 | A composed game of six numbers, with distinct fixed numbers of 1..60, is a valid ticket in ascending order |
| Algoritmos.SeisFixosUnico | mega-sena-next/src/lib/algoritmos.ts:218-226 | With six fixed numbers, the only possible game is the sorted fixed numbers |
| Algoritmos.SeisFixosSemLote | mega-sena-next/src/lib/algoritmos.ts:323-341 | With six fixed numbers no batch of two or more distinct games exists, so `gerarJogos` cannot finish |
| Algoritmos.GeradorJogos.WeightedChoice | mega-sena-next/src/lib/algoritmos.ts:293-303 | -1 for no weights; otherwise the first index whose running total reaches the drawn point `u * total` |
| Algoritmos.PrimeiroAlcance | mega-sena-next/src/lib/algoritmos.ts:297-302 | The chosen index is the first whose prefix sum reaches the point, or the last index |
| Algoritmos.PrimeiroAlcanceTodos | mega-sena-next/src/lib/algoritmos.ts:293-303 | Every index with a positive weight is chosen for some value of the random source |
| Algoritmos.CombinadoLimites | mega-sena-next/src/lib/algoritmos.ts:245-250 | With non-negative weights and scores the combined score is at least the 0.1 base |
| Algoritmos.GeradorJogos.ScoresSelecionados | mega-sena-next/src/lib/algoritmos.ts:235-238 | Each selected score is computed and normalised; an unselected one is the empty map |
| Algoritmos.GeradorJogos.CombinarScores | mega-sena-next/src/lib/algoritmos.ts:240-257 | One combined weight per available number, in ascending order, each at least 0.1 for non-negative weights |
| Algoritmos.GeradorJogos.Tentativa | mega-sena-next/src/lib/algoritmos.ts:261-279 | One attempt: the fixed numbers followed by distinct numbers taken from the pool, of the uniform size |
| Algoritmos.GeradorJogos.GerarPorScores | mega-sena-next/src/lib/algoritmos.ts:229-291 | A composed game: six numbers, balanced when forced, unless every attempt failed and the uniform fallback was used |
| Algoritmos.AlgoritmosScore | mega-sena-next/src/lib/algoritmos.ts:317-319 | Keeps exactly the selected names that are score algorithms |
| Algoritmos.Capitalizar | mega-sena-next/src/lib/algoritmos.ts:371 | `charAt(0).toUpperCase() + slice(1)` keeps the length |
| Algoritmos.Rotulos | mega-sena-next/src/lib/algoritmos.ts:371 | One capitalised label per selected score algorithm |
| Algoritmos.RotuloDeScore | mega-sena-next/src/lib/algoritmos.ts:371 | The label of a score algorithm is permitted and differs from `Uniforme` and `Misto` |
| Algoritmos.Teto | mega-sena-next/src/lib/algoritmos.ts:346 | `Math.ceil(q / n)`: the least r with q <= r n |
| Algoritmos.Registrar | mega-sena-next/src/lib/algoritmos.ts:366-372 | The batch is unchanged for a game already in it; otherwise the game and its label are appended; no game twice |
| Algoritmos.RegistrarAceito | mega-sena-next/src/lib/algoritmos.ts:415-420 | Registering an accepted game under a permitted label keeps the batch accepted |
| Algoritmos.GeradorJogos.UniformeBalanceado | mega-sena-next/src/lib/algoritmos.ts:325-333 | The up-to-100 retries for balance still return a uniform game |
| Algoritmos.GeradorJogos.GerarApenasUniforme | mega-sena-next/src/lib/algoritmos.ts:323-343 | With no score algorithm selected: `quantidade` distinct uniform games, all labelled `Uniforme` |
| Algoritmos.GeradorJogos.Fase1 | mega-sena-next/src/lib/algoritmos.ts:349-374 | Phase one yields at most `quantidade` distinct accepted games under permitted labels |
| Algoritmos.GeradorJogos.Fase2 | mega-sena-next/src/lib/algoritmos.ts:377-421 | Phase two completes the batch to exactly `quantidade` distinct accepted games |
| Algoritmos.GeradorJogos.GerarJogos | mega-sena-next/src/lib/algoritmos.ts:305-424 | Exactly `max(quantidade, 0)` distinct games, each accepted under its label and each label permitted; all `Uniforme` when no score algorithm is selected |
| Algoritmos.CombinarDisponiveis | mega-sena-next/src/lib/algoritmos.ts:240-253 | The combining loop skips fixed and removed numbers and gives each other number its combined score |
| Algoritmos.ListarDisponiveis | mega-sena-next/src/lib/algoritmos.ts:210-215 | The pool loop gives the available numbers |
| AnalisadorPy.AnalisadorMegaSena.constructor | app_web.py:105-111 | The analyzer keeps the draws sorted by date, as a permutation of the input |
| AnalisadorPy.AnalisadorMegaSena.FiltrarPorAnos | app_web.py:113-116 | A new analyzer over the draws on or after the limit, which is a suffix of the sorted history |
| AnalisadorPy.AnalisadorMegaSena.CalcularFrequencias | app_web.py:118-124 | Each number's number of draws, with keys only in 1..60 |
| AnalisadorPy.AnalisadorMegaSena.ScoresFrequencia | app_web.py:126-131 | Normalised frequencies: 0 exactly for numbers never drawn, 1 exactly for the most drawn |
| AnalisadorPy.AnalisadorMegaSena.CalcularMatrizMarkov | app_web.py:133-142 | Cell `(a, b)` counts the consecutive draws in which `a` is followed by `b` |
| AnalisadorPy.AnalisadorMegaSena.ScoresMarkov | app_web.py:144-159 | Normalised follower tallies of the last draw; 0 exactly for numbers no reference number was followed by; all 0 with at most one draw |
| AnalisadorPy.SeguidoresNormalizados | app_web.py:150-159 | Summing the matrix rows of the last draw's numbers and dividing by the maximum gives the normalised transition count from that draw |
| AnalisadorPy.MarkovZeros | app_web.py:144-159 | Markov scores lie in [0, 1]; 0 exactly for a number that never followed a number of the last draw; all 0 with at most one draw |
| AnalisadorPy.AnalisadorMegaSena.CalcularCoocorrencias | app_web.py:161-170 | Each ascending pair counts the draws that list both, and the dictionary's key order is `PrimeirosPares` |
| AnalisadorPy.AnalisadorMegaSena.TopPares | app_web.py:174 | The 100 most frequent pairs, exactly the stable sort of the entries in `PrimeirosPares` order, cut to 100 |
| AnalisadorPy.AnalisadorMegaSena.ScoresCoocorrencia | app_web.py:172-180 | Normalised pair scores over the top 100 pairs; 0 exactly for numbers in none of them; the top pairs are the determined list of `TopPares` |
| AnalisadorPy.PontuarPares | app_web.py:175-180 | Summing the counts of a top list per number and normalising gives scores in [0, 1], 0 exactly for numbers in no listed pair |
| AnalisadorPy.PontosNormalizados | app_web.py:176-180 | Dividing the summed top-pair counts by their maximum gives scores in [0, 1], 0 exactly for a number in no top pair |
| AnalisadorPy.AnalisadorMegaSena.ParesMaisFrequentes | app_web.py:182-184 | At most `top_n` pairs with their true counts, by non-increasing count; with room to spare, every co-occurring pair; exactly the stable sort of the entries in `PrimeirosPares` order, sliced |
| AnalisadorPy.MaisFrequentesPares | app_web.py:182-184 | The sort-and-slice of the pair counts has those properties |
| AnalisadorPy.AnalisadorMegaSena.CalcularAtrasos | app_web.py:186-196 | Keys exactly 1..60, each with its delay; 0 exactly for the numbers of the last draw |
| AnalisadorPy.AnalisadorMegaSena.ScoresAtraso | app_web.py:198-201 | ZeroDivisionError exactly when there are no draws; otherwise normalised delays, 0 exactly for the last draw's numbers |
| AnalisadorPy.AnalisadorMegaSena.DezenasMaisAtrasadas | app_web.py:203-205 | The `top_n` most delayed numbers, distinct, with their delays, in non-increasing order; no number left out is more delayed; exactly the stable sort of the delays in 1..60 order, sliced, so ties go to the smaller numbers |
| AnalisadorPy.ConferirJogo | app_web.py:207-209 | The hits are the drawn numbers the ticket contains, at most six, and six exactly when every drawn number is on the ticket |
| AnalisadorPy.Janela | app_web.py:213 | The simulation window is a suffix of the history, of length min(n, len) for positive n |
| AnalisadorPy.ConferirTodos | app_web.py:220-229 | The loop over the simulated draws ends with the histogram of hit counts and the details of the draws hit four or more times, in order |
| AnalisadorPy.AnalisadorMegaSena.SimularJogo | app_web.py:211-231 | The total, the histogram of hits and the details of the draws with four or more hits, over the window |
| AnalisadorPy.HistogramaPasso | app_web.py:220-229 | One more draw adds one to the bucket of its hit count, and one detail entry when it has four or more hits |
| AnalisadorPy.HistogramaTotal | app_web.py:216-222 | The histogram buckets add up to the number of simulated draws |
| AnalisadorPy.DetalhesQuadraOuMais | app_web.py:223-229 | The details are exactly as many as the draws with four, five or six hits, each a draw of the window with its true hit count |
| AppWeb.Disponiveis | app_web.py:260-261 | Exactly the numbers of 1..60 that are neither fixed nor removed, ascending and distinct |
| AppWeb.ComporPy | app_web.py:267-268 | The fixed numbers plus sampled available numbers, sorted, form a game of the expected size |
| AppWeb.JogoPySena | app_web.py:256-268 | A generated game of six numbers with fixed numbers in 1..60 is a valid ticket |
| AppWeb.GeradorJogos.constructor | app_web.py:235-237 | The generator keeps its analyzer and random source |
| AppWeb.GeradorJogos.GerarUniforme | app_web.py:256-268 | ValueError (from `sample`) exactly when more than six numbers are fixed; otherwise the fixed numbers plus sampled available ones, sorted, of the uniform size |
| AppWeb.ScoreTotalLimites | app_web.py:95-101 | With non-negative weights and scores in 0..1, `score_total` lies between 0 and the sum of the weights |
| AppWeb.TotalCombinado | app_web.py:293-296 | The choice weight of a number is its `score_total` plus 0.1 |
| AppWeb.PesoEscolha | app_web.py:296 | Every choice weight lies between 0.1 and the sum of the weights plus 0.1 |
| AppWeb.PesosPy | app_web.py:320-325 | Each weight is positive exactly when its algorithm is selected, and is then `1 / len(algoritmos)` |
| AppWeb.GeradorJogos.ScoresSelecionados | app_web.py:276-279 | Only the selected scores are computed; the only failure is the ZeroDivisionError of the delay score over no draws |
| AppWeb.CombinarDezenas | app_web.py:281-293 | Keys exactly 1..60: 0 for removed numbers, `score_total` for the others |
| AppWeb.GeradorJogos.CombinarScores | app_web.py:281-296 | The combined map, the available numbers and one weight each, every weight at least 0.1 |
| AppWeb.GeradorJogos.Tentativa | app_web.py:301-307 | One attempt keeps the fixed numbers and adds only available numbers, never beyond six |
| AppWeb.GeradorJogos.GerarPorScores | app_web.py:270-316 | ZeroDivisionError exactly when delay is selected over no draws; otherwise a game with all fixed numbers, of size max(fixed, 6), balanced when forced, unless the uniform fallback ran |
| AppWeb.TamanhoSeis | app_web.py:298-316 | When the fixed numbers fit, every accepted game size is six |
| AppWeb.GeradorJogos.GerarUm | app_web.py:334-337 | With `uniforme` selected and no weight: the uniform size, ValueError exactly when more than six numbers are fixed. Otherwise: `max(len(fixos), 6)` numbers, balanced when forced, or the uniform fallback with its size and failures; ZeroDivisionError exactly when delay is selected over no draws |
| AppWeb.GeradorJogos.GerarJogos | app_web.py:318-344 | At most `quantidade` distinct games, each from the generators; fewer only after `10 * quantidade` attempts; the failures of the generators |
| AppWeb.GerarFechamento | app_web.py:351-389 | Six or fewer numbers give the sorted base; guarantee 6 gives every 6-combination; otherwise distinct 6-combinations of the base that cover every `garantia`-subset; ValueError for a negative guarantee |
| AppWeb.CobrirGuloso | app_web.py:370-389 | The greedy pass keeps distinct combinations that together cover every subset of the guaranteed size |
| AppWeb.AcrescentarCobertas | app_web.py:380-385 | Keeping a new combination adds exactly its subsets of the guaranteed size to the covered ones, and repeats no game |
| AppWeb.FechamentoSena | app_web.py:363-367 | The full design has C(n, 6) games, in lexicographic order, each a sorted 6-subset of the base |
| AppWeb.MaiorId | app_web.py:438 | `max(j.id for j in jogos)` bounds every id and is attained |
| AppWeb.ProximoIdJogo | app_web.py:434-438 | 1 for no saved games; otherwise one more than the largest id, so it is above every id |
| AppWeb.LinhasCsv | app_web.py:687-688 | One line per game, numbered from 1 |
| AppWeb.LerLinhaCsvLinha | app_web.py:688 | A CSV line has no line break and reads back to its number and its game |
| AppWeb.LinhasSemQuebra | app_web.py:686-689 | Neither the header nor any game line contains a line break |
| AppWeb.LerCsvGerar | app_web.py:684-689 | Reading the generated CSV gives back the header and every game with its number |
| AppWeb.CsvSepara | app_web.py:684-689 | Splitting the CSV at line breaks gives the header and one line per game |
| AppWeb.LinhasLidas | app_web.py:687-688 | Each CSV line reads back as the game's number and the game |
| Texto.LerNaturalTexto | app_web.py:688 | `str(n)` of a natural number reads back to n |
| Texto.LerInteiroTexto | app_web.py:688 | `str(n)` of any integer reads back to n |
| Texto.SepararJuntar | app_web.py:689 | Splitting on a one-character separator undoes joining with it, when no part contains it |
| Texto.LerInteirosTextos | app_web.py:688 | The rendered numbers of a game read back to the game |
| Texto.LerChaveChave | mega-sena-next/src/lib/algoritmos.ts:335 | The key `jogo.join(',')` reads back to the game |
| Texto.ChaveInjetiva | mega-sena-next/src/lib/algoritmos.ts:335-340 | Two games with the same key are the same game, so the key set de-duplicates games |
| Texto.LerChavePar | mega-sena-next/src/lib/algoritmos.ts:135 | `par.split('-').map(Number)` recovers a pair keyed `${a}-${b}` |
| Texto.ChaveParInjetiva | mega-sena-next/src/lib/algoritmos.ts:118 | Distinct pairs of non-negative numbers have distinct keys |
| Texto.Pad2 | mega_sena_app.py:482 | `f"{d:02d}"` of 0..99 has two characters and reads back to d |
| Texto.LerFormatadoFormatar | mega_sena_app.py:480-482 | A non-empty game of numbers 0..99, rendered with any separator, reads back to the game |
| Combinacoes.CombinacoesQuantidade | app_web.py:363 | `itertools.combinations` yields C(n, k) combinations |
| Combinacoes.CombinacoesSubSeq | app_web.py:363 | Every combination has k elements and is a sub-sequence of the input |
| Combinacoes.CombinacoesCrescentes | app_web.py:363 | On a sorted base, every combination is strictly ascending and drawn from the base |
| Combinacoes.CombinacoesTodas | app_web.py:363 | The whole sequence is its own n-combination |
| Combinacoes.CombinacaoEstende | app_web.py:375-379 | Every g-subset lies inside some 6-combination, which is why a cover exists |
| Combinacoes.EstendeCombinacao | app_web.py:375-379 | Every g-combination of the base lies inside some k-combination of it, g <= k |
| Combinacoes.EhCombinacaoMembro | app_web.py:363 | A list is among the k-combinations exactly when it is built by keeping or skipping each element in turn, keeping k |
| Combinacoes.CombinacoesLexicograficas | app_web.py:363 | The combinations come out in strictly increasing lexicographic order |
| Acaso.Rng.Random | app_web.py:305 | The next value of the stream, in [0, 1), consuming one value |
| Acaso.Rng.RandBelow | mega-sena-next/src/lib/algoritmos.ts:222 | `Math.floor(rng() * n)` is an index below n |
| Acaso.Rng.Sample | app_web.py:267 | `random.sample`: ValueError exactly when k is out of 0..len; otherwise k elements drawn without replacement |
| Acaso.Rng.Choices | app_web.py:305 | `random.choices(..., k=1)`: the element at `bisect_right` of the cumulative weights for the point `u * total` |
| Acaso.BisectRight | app_web.py:305 | The first cumulative weight above the point |
| Acaso.ChoicesAlcanca | app_web.py:305 | Every element with a positive weight can be drawn |
| Acaso.ChoicesPositivo | app_web.py:305 | An element of weight zero is never drawn |
| Datas.Strptime | gerador_megasena.py:49 | A parsed date is a valid calendar date |
| Datas.PrimeiroFormato | gerador_megasena.py:47-51 | No date exactly when every format fails; otherwise the result of a format that succeeds |
| Datas.ParseData | gerador_megasena.py:45-52 | A valid date; ValueError exactly when no format parses the stripped text |
| Datas.StripIgnoraEspacos | gerador_megasena.py:46 | Leading or trailing whitespace does not change the stripped text |
| Datas.ParseDataIso | gerador_megasena.py:45-52 | Every valid date written `YYYY-MM-DD` parses back to itself; an invalid one is rejected |
| Datas.ParseDataDma | gerador_megasena.py:45-52 | Every valid date written `DD/MM/YYYY` or `DD-MM-YYYY` parses back to itself; an invalid one is rejected |
| Datas.ParseDataTres | gerador_megasena.py:47-51 | The formats are tried in order: `YYYY-MM-DD`, then `DD/MM/YYYY`, then `DD-MM-YYYY`; the first that parses wins |
| Datas.ParseDataVazio | gerador_megasena.py:45-52 | Blank text is rejected |
| GeradorMegaSena.Filtrar | gerador_megasena.py:153-154 | Keeps exactly the draws on or after the limit, never more |
| GeradorMegaSena.FiltrarPorAnos | gerador_megasena.py:150-154 | An empty history stays empty; otherwise keeps exactly the draws of the last `anos * 365` days before today |
| GeradorMegaSena.FiltrarConcat | gerador_megasena.py:154 | Filtering distributes over concatenation, so the order of the draws is kept |
| GeradorMegaSena.FiltrarRecentes | gerador_megasena.py:154 | When every draw is recent enough, nothing is dropped |
| GeradorMegaSena.Frequencias | gerador_megasena.py:157-162 | A fresh 61-slot array whose slot d is the number of draws listing d |
| GeradorMegaSena.OcorrenciasForaDoUniverso | gerador_megasena.py:158-161 | Slots outside 1..60, including slot 0, stay zero |
| GeradorMegaSena.SomaFrequencias | gerador_megasena.py:157-162 | The slots add up to six times the number of draws |
| GeradorMegaSena.Universo | gerador_megasena.py:172 | `range(1, 61)`: the numbers 1..60 in order |
| GeradorMegaSena.PesosFrequencia | gerador_megasena.py:170 | One weight per number of 1..60, each at least 1 |
| GeradorMegaSena.EscolherComPeso | gerador_megasena.py:169-172 | A number of 1..60, the weighted choice for the drawn value |
| GeradorMegaSena.EscolhaAlcanca | gerador_megasena.py:169-172 | Every number of 1..60 can be drawn |
| GeradorMegaSena.GerarUniforme | gerador_megasena.py:165-166 | A valid ticket in ascending order |
| GeradorMegaSena.GerarPonderado | gerador_megasena.py:175-179 | A valid ticket in ascending order |
| GeradorMegaSena.CondicaoVerificar | gerador_megasena.py:190-199 | The script's balance condition is the shared balance predicate |
| GeradorMegaSena.GerarBalanceado | gerador_megasena.py:189-202 | A valid ascending ticket, balanced unless the fallback ran |
| GeradorMegaSena.Gerar | gerador_megasena.py:207-211 | The generator of a known mode gives a valid ascending ticket; `uniforme` never fails; a `balanceado` game is balanced unless its fallback ran, and no other mode has a fallback |
| GeradorMegaSena.GerarJogos | gerador_megasena.py:205-221 | ValueError exactly for an unknown mode other than `mix`; otherwise `max(qtd, 0)` valid tickets, labelled in mode order `balanceado, ponderado, uniforme` repeated for `mix`; every game labelled `balanceado` is balanced unless its own fallback ran |
| GeradorMegaSena.FormatarJogo | gerador_megasena.py:224-225 | The space-separated two-digit rendering reads back to the game |
| MegaSenaApp.TodasDisponiveisAte | mega_sena_app.py:243 | With nothing fixed or removed, the pool is all of 1..60 |
| MegaSenaApp.SemRestricoes | mega_sena_app.py:241-243 | A generated game of accepted size is a valid ascending ticket |
| MegaSenaApp.GeradorJogos.constructor | mega_sena_app.py:217-219 | The generator keeps its analyzer and random source |
| MegaSenaApp.GeradorJogos.GerarUniforme | mega_sena_app.py:241-243 | A valid ticket in ascending order |
| MegaSenaApp.UniformeSemRestricoes | mega_sena_app.py:241-243 | Six numbers sampled from all of 1..60, sorted, are a valid ticket |
| MegaSenaApp.GeradorJogos.GerarPorScores | mega_sena_app.py:245-294 | ZeroDivisionError exactly when delay is selected over no draws; otherwise a valid ascending ticket, balanced when forced unless the fallback ran |
| MegaSenaApp.GeradorJogos.GerarJogos | mega_sena_app.py:296-332 | At most `quantidade` distinct valid tickets, each paired with the weights `1 / len(algoritmos)` for the selected score algorithms; ZeroDivisionError exactly when delay is selected over no draws |
| MegaSenaApp.FormatarJogo | mega_sena_app.py:480-482 | The `" - "`-separated rendering reads back to the game |

## Left out

- Network access is not part of this model. This covers the Caixa API (`buscar_concurso_caixa`, `atualizar_arquivo_resultados`) and `baixar_resultados`.
- The Excel, CSV and pandas loaders are not part of this model: they are file I/O. Draws enter the model as values, and the model assumes their numbers are six distinct numbers in 1..60. Only the console script's loaders (`gerador_megasena.py:79-86`, `gerador_megasena.py:125-135`) collect the numbers into a set. The web apps' Excel loaders (`app_web.py:606-608`, `mega_sena_app.py:372-374`) check only the count and the range, so they also accept a row that repeats a number, such as 5, 5, 10, 20, 30, 40. Such draws are not modelled. On one, the source would count the repeated number twice in the frequencies and form the pair (5, 5) in the co-occurrences.
- Saved games are not stored: the JSON load and save (`carregar_jogos_salvos`, `salvar_jogos`, `JogoSalvo.to_dict`/`from_dict`) are file I/O. Only `proximo_id_jogo` is modelled.
- `gerar_excel_jogos`, `criar_volante_html`, the Streamlit and console `main` functions, the menus, `styles.py`, the Next.js pages and the `bicho` API route are not modelled: they are presentation.
- `info_fechamento` is not modelled: it is a table of displayed estimates with no property of its own.
- Datas.ParseData: digits are ASCII `0`..`9` only. In Python, the `\d` of `strptime`'s patterns and `int()` also accept every other Unicode decimal digit. So a text such as `２０２４-01-01`, with a fullwidth year, parses in the source but is a ValueError in the model. "ValueError exactly when no format parses" holds for texts whose digits are ASCII.
- Datas.Strptime: the same restriction applies. The `%Y` and `%d` directives match only ASCII digits, and `ValorDigito` reads only those.
- Floating point is modelled as exact reals. Rounding in the normalisations and in the weighted choices is not captured.
- The random sources (`random.Random`, `Math.random`, the seeded `Math.sin` generator of `algoritmos.ts:187-193`) are a stream of values in [0, 1) that the model does not fix. So the model proves what holds for every stream, not the distribution.
- Today's date is a parameter (`limite`, `hoje`). TypeScript's calendar-year subtraction and Python's `timedelta` overflow are therefore not modelled.
- The analyzers' caches are modelled as recomputation. The results are the same.
- Python set iteration order is not modelled. The model states each set-valued result up to its elements and sorts where the source sorts. Dictionary iteration order is modelled as insertion order, and only where it decides a result: the co-occurrence and delay dictionaries that feed the ranked lists.
- The optional `dezenas_referencia` parameter of `scores_markov` is not modelled, because no caller passes it. The last draw is always the reference.
- The TypeScript `Concurso` type comes from `mega-sena-next/src/lib/supabase.ts`, which is not part of this model. Its six `dezena` fields are modelled as the `Sena` of the shared `Concurso`, and its date as a day number.
- Algoritmos.GeradorJogos.GerarJogos: takes a fuel bound (`combustivel`) and fails with `SemCombustivel` when it runs out. The source loops without bound, and never ends with six fixed numbers and two or more games (see `Algoritmos.SeisFixosSemLote`).
- Algoritmos.GeradorJogos.Fase2: the same fuel bound as `GerarJogos`.
- Algoritmos.GeradorJogos.GerarApenasUniforme: the same fuel bound as `GerarJogos`.
- GeradorMegaSena.GerarPonderado: takes a fuel bound for its unbounded `while len(dezenas) < 6` loop.
- GeradorMegaSena.GerarBalanceado: the same fuel bound, passed on to `gerar_ponderado`.
- GeradorMegaSena.Gerar: the same fuel bound.
- GeradorMegaSena.GerarJogos: the same fuel bound. Only a `balanceado` game is tied to its generator by a property of the game itself. A `ponderado` game and a `uniforme` game have the same proved property, a valid ascending ticket, so the model does not state which of the two produced a game.
- GeradorMegaSena.Frequencias: requires every draw to list numbers of 1..60. On the 61-slot list `freq[d] += 1` raises IndexError only for d >= 61 or d < -61; it silently counts 0 in slot 0 and a negative d in slot 61 + d. Neither case is modelled, because both loaders keep only draws of 1..60 (gerador_megasena.py:85-86 and 134-135).
- AppWeb.GeradorJogos.GerarPorScores: requires non-negative weights. The source accepts any dictionary, but its only caller passes weights of 0 or `1 / len(algoritmos)`.
- MegaSenaApp.GeradorJogos.GerarPorScores: requires non-negative weights, for the same reason.
- AppWeb.GeradorJogos.GerarJogos: states each game's size as one of the sizes the generators can give, not which one.
- MegaSenaApp.GeradorJogos.GerarJogos: states at most `quantidade` games, not when fewer occur.
