# DSS decision engine in Dafny

This project models the decision engine of the DSS repository and proves properties of it.
DSS is a decision-support tool: it ranks alternatives against weighted criteria. The core has
three Python files:

- **ahp_wsm.py.** Importance weights are normalised. Interval data becomes one representative
  value per alternative: the midpoint of `<criterion>_Min` and `<criterion>_Max`, else the
  plain column, else 0. Each value is scaled to `[0, 1]` against the global range, in the
  criterion's direction (`maximizar`/`minimizar`). Alternatives are scored by weighted sum and
  sorted, best first.
- **montecarlo.py.** Global ranges are taken over every interval endpoint. Each alternative is
  scored once per draw. The scores are summarised (mean, std, percentiles 5 and 95, min, max)
  and the spread gets a risk label. The win probability is the share of draws in which an
  alternative had the highest score. The winner is the alternative with the highest mean.
- **dss_model.py.** Two models:
  - WSM on an explicit score matrix: column min-max normalisation with benefit/cost flags,
    weighted sum, and a descending ranking.
  - AHP: a reciprocal pairwise comparison matrix is filled in. Priorities are row means of the
    column-normalised matrix. The consistency check computes λmax, CI and CR with Saaty's
    random index. Global scores are priority-weighted sums.

Modules:

- `Common`: shared pieces.
  - The `Result`/`Error` type.
  - Sums with their lemmas.
  - Minimum and maximum, and the first index of a maximum.
  - Python's insertion-ordered `dict` as a sequence of `Entry(key, val)`. It has `Find`,
    `Lookup` and `Put`. `Put` overwrites in place, keeping the key's first position, or
    appends a new key.
- `Sorting`: Python's stable `sorted(..., reverse=True)` on indices. Both the specification
  `StableRanking` and the constructive `RankDescending` are here.
- `Records`: criterion and alternative rows, and the ASCII `tipo.lower() == 'minimizar'` test.
- `AhpWsm`: ahp_wsm.py.
- `Estadisticas`: `calcular_estadisticas` and `clasificar_riesgo`, including numpy's
  linear-interpolation percentile.
- `MonteCarlo`: the rest of montecarlo.py.
- `DssWsm` and `DssAhp`: dss_model.py.

Where the source works in steps, the model follows it:

- A loop in the source is a `method` with a `while`/`for` loop. It is proved equal to a
  specification function, and the properties are proved about that function.
- What the source computes without loops is a function.
- An explicit `raise`, a `KeyError` and a `ValueError` that a caller can trigger become an
  `Err`. This covers a missing column or weight, `min()`/`max()` of an empty list, score
  lists numpy cannot stack, and an empty numpy array.
- A zero divisor, and a matrix or vector of the wrong shape (an `IndexError` in the source),
  are preconditions instead. The callers never reach them; "## Left out" lists them.

## Model

| member | source | states |
|---|---|---|
| AhpWsm.Pesos | ahp_wsm.py:4-20 | empty criteria list and zero importance total are the two errors (in that order) and the only ones; otherwise one weight per criterion, in order, with weight × total = importance, and the weights sum to 1 |
| AhpWsm.NormalizarPesos | ahp_wsm.py:4-20 | the loop building the weighted copies returns exactly `Pesos` |
| AhpWsm.PesosAcotados | ahp_wsm.py:9-18 | with non-negative importances every weight lies in [0, 1], and is positive when every importance is |
| AhpWsm.PonderarNormaliza | ahp_wsm.py:14-18 | proportional weights from a non-zero total sum to 1 and scale back to the importances |
| AhpWsm.PonderarAcotado | ahp_wsm.py:14-18 | non-negative importances give weights in [0, 1], positive ones positive weights |
| AhpWsm.NormalizarValores | ahp_wsm.py:23-34 | equal min and max give 0.5; a value inside the range maps into [0, 1]; the range ends map to 0 and 1, swapped for `minimizar` in any capitalisation |
| AhpWsm.NormalizarComplementario | ahp_wsm.py:29-34 | the `minimizar` and `maximizar` scalings of the same value are complementary (sum 1) |
| Records.MinimizarSinMayusculas | ahp_wsm.py:29 | `tipo.lower()` makes "Minimizar" and "MINIMIZAR" select minimising and "maximizar" not |
| AhpWsm.Obtener | ahp_wsm.py:43 | a criterion missing from the normalised values counts as 0.0 |
| AhpWsm.CalcularScore | ahp_wsm.py:37-46 | the accumulating loop returns the weighted sum `Score` |
| AhpWsm.ScoreSinValor | ahp_wsm.py:40-44 | a criterion without a normalised value adds nothing to the score |
| AhpWsm.ScoreAcotado | ahp_wsm.py:37-46 | non-negative weights and values in [0, 1] give a score between 0 and the sum of the weights |
| AhpWsm.Representativo | ahp_wsm.py:69-76 | with both interval columns the representative is their midpoint (between them and equidistant); otherwise the plain column, else 0.0 |
| AhpWsm.Representativos | ahp_wsm.py:68-77 | one representative value per alternative, in order |
| AhpWsm.RangosGlobales | ahp_wsm.py:61-83 | one entry per criterion name holding the min and max of the representatives |
| AhpWsm.RangosGlobalesAcotan | ahp_wsm.py:79-81 | every alternative's representative lies in its criterion's global range, whose ends are attained |
| AhpWsm.RangosGlobalesTipo | ahp_wsm.py:79-83 | a range's direction is that of the last criterion with that name (later assignments overwrite) |
| AhpWsm.CalcularRangos | ahp_wsm.py:61-83 | the nested loop returns exactly `RangosGlobales` |
| AhpWsm.Desglose | ahp_wsm.py:90-111 | the breakdown has one distinct key per criterion name, each holding the alternative's scaled representative |
| AhpWsm.DesgloseSiguiente | ahp_wsm.py:92-111 | one more criterion stores its scaled value under its name, in the dictionary's order |
| AhpWsm.PesosDict | ahp_wsm.py:87 | the weights dictionary has exactly the criterion names as distinct keys |
| AhpWsm.PesosDictUltimo | ahp_wsm.py:87 | a name maps to the weight of its last occurrence |
| AhpWsm.EvaluarAlternativa | ahp_wsm.py:89-120 | the per-alternative loop body yields `Evaluar`: breakdown, score and weights |
| AhpWsm.Evaluaciones | ahp_wsm.py:89-120 | one result per alternative, in input order |
| AhpWsm.EvaluarTodas | ahp_wsm.py:89-120 | the loop over the alternatives returns exactly `Evaluaciones` |
| AhpWsm.RankingWsm | ahp_wsm.py:49-125 | no alternatives, no criteria and zero importance total are the errors, checked in that order, and the only ones; a ranking has one result per alternative |
| AhpWsm.RankearAlternativas | ahp_wsm.py:49-125 | the method returns exactly `RankingWsm` |
| AhpWsm.Ordenar | ahp_wsm.py:57-123 | ranges, weights dictionary, evaluation loop and sort return exactly `Clasificar` |
| AhpWsm.RangosCubren | ahp_wsm.py:61-83 | every criterion has a global range, so the lookups at line 105 succeed |
| AhpWsm.PorScoreOrdenado | ahp_wsm.py:123 | the sort is a permutation of the results, by a stable descending ranking of their scores, with non-increasing scores |
| AhpWsm.PorScorePesos | ahp_wsm.py:119-123 | sorting keeps every result's weights dictionary |
| AhpWsm.ClasificarOrdenado | ahp_wsm.py:86-123 | the returned list is a stable descending permutation of the per-alternative results, each carrying the weights dictionary |
| AhpWsm.ClasificarDe | ahp_wsm.py:86-123 | the steps of `Ordenar` compose to `Clasificar` |
| AhpWsm.EvaluacionesSon | ahp_wsm.py:89-120 | pointwise agreement with `Evaluar` is `Evaluaciones` |
| AhpWsm.DesgloseAcotado | ahp_wsm.py:98-111 | every normalised value in a breakdown lies in [0, 1] |
| AhpWsm.EvaluarAcotado | ahp_wsm.py:105-113 | breakdown values in [0, 1]; with valid weights the score is in [0, 1] |
| AhpWsm.ScoreEnUnidad | ahp_wsm.py:37-46 | non-negative weights summing to 1 and values in [0, 1] give a score in [0, 1] |
| AhpWsm.ClasificarAcotado | ahp_wsm.py:86-123 | every ranked result has its breakdown in [0, 1] and, with valid weights, its score in [0, 1] |
| AhpWsm.RankingAcotado | ahp_wsm.py:49-125 | a successful ranking is `Clasificar` on the normalised weights; with non-negative importances every score lies in [0, 1] |
| MonteCarlo.Extremos | montecarlo.py:12-18 | succeeds exactly when every alternative has both interval columns; then it lists every alternative's min and max, in order |
| MonteCarlo.ExtremosPrefijo | montecarlo.py:16-18 | the first missing column stops the collection, with that error |
| MonteCarlo.RangosMC | montecarlo.py:6-26 | succeeds exactly when there are no criteria, or some alternatives that all have both interval columns of every criterion; no alternatives with criteria is the empty-`min` error; the keys are the criterion names |
| MonteCarlo.RangosMCPrefijo | montecarlo.py:9-24 | the first failing criterion decides the error |
| MonteCarlo.CalcularRangosGlobales | montecarlo.py:6-26 | the nested loop returns exactly `RangosMC` |
| MonteCarlo.RangosMCContienen | montecarlo.py:20-24 | every alternative's both endpoints lie in the criterion's global range |
| MonteCarlo.RangosMCTipo | montecarlo.py:20-24 | a range's direction is that of the last criterion with that name |
| MonteCarlo.NormalizarValorMonotono | montecarlo.py:30-40 | the scaling is monotone: increasing for maximising, decreasing for `minimizar` |
| MonteCarlo.Falta | montecarlo.py:58-77 | an alternative fails on a criterion exactly when an interval column, the range or the weight is missing |
| MonteCarlo.SinFaltaUltimo | montecarlo.py:53-78 | an alternative simulates without lookup errors exactly when the earlier criteria and the last one succeed |
| MonteCarlo.Terminos | montecarlo.py:69-78 | the per-iteration terms are weight × scaled draw, one per criterion |
| MonteCarlo.ScoresSim | montecarlo.py:44-80 | a simulation yields one score per iteration |
| MonteCarlo.ScoresSimOk | montecarlo.py:53-78 | the simulation succeeds exactly when no criterion lacks a column, range or weight |
| MonteCarlo.ScoresSimSuma | montecarlo.py:51-78 | every iteration's score is the sum over all criteria of weight × scaled draw |
| MonteCarlo.SimUltimo | montecarlo.py:53-78 | a successful simulation is the one over the earlier criteria plus the last criterion's terms |
| MonteCarlo.SumarCriterio | montecarlo.py:69-78 | `scores += peso * valores_norm`: each iteration's score gains that criterion's term |
| MonteCarlo.SimPaso | montecarlo.py:53-78 | one more criterion either fails with its first missing key or adds its terms |
| MonteCarlo.TerminosUltimo | montecarlo.py:53-78 | the sum of terms splits off the last criterion |
| MonteCarlo.SimularAlternativa | montecarlo.py:44-80 | the loop over the criteria, with an array of scores, returns exactly `ScoresSim` |
| MonteCarlo.AcumularCriterio | montecarlo.py:68-78 | the scores array becomes its old contents plus the criterion's terms |
| MonteCarlo.SimPrefijo | montecarlo.py:53-63 | the first failing criterion decides the simulation's error |
| MonteCarlo.SorteosPrefijo | montecarlo.py:66 | a prefix of well-shaped draws is well shaped |
| MonteCarlo.PesosSim | montecarlo.py:77 | the weight of each criterion, in order |
| MonteCarlo.RangosContienenSorteos | montecarlo.py:20-66 | draws inside an alternative's own intervals lie inside the global ranges |
| MonteCarlo.SimAcotado | montecarlo.py:44-80 | with non-negative weights and draws inside the global ranges every score lies between 0 and the sum of the weights |
| MonteCarlo.TerminoAcotado | montecarlo.py:69-78 | a draw inside the global range contributes between 0 and its weight |
| MonteCarlo.SimConstante | montecarlo.py:44-80 | draws that do not vary across iterations give the same score in every iteration |
| MonteCarlo.Columna | montecarlo.py:116-120 | the k-th column of the score matrix is every alternative's k-th score |
| MonteCarlo.Ganadores | montecarlo.py:120 | `np.argmax(axis=0)`: per iteration an index with the highest score, the first such |
| MonteCarlo.Conteo | montecarlo.py:124 | a win count never exceeds the number of iterations |
| MonteCarlo.Conteos | montecarlo.py:123-124 | one win count per alternative |
| MonteCarlo.ConteosTotal | montecarlo.py:120-124 | the win counts add up to the number of iterations |
| MonteCarlo.ConteoUnanime | montecarlo.py:124 | an alternative winning every iteration counts all of them; every other one counts none |
| MonteCarlo.ProbGanadora | montecarlo.py:114-127 | fails on no alternatives or ragged rows, as the source does, and on zero iterations, where the source gives NaN shares; only then; otherwise the keys are kept and the probabilities lie in [0, 1] and sum to 1 |
| MonteCarlo.ProbResumen | montecarlo.py:122-125 | count / iterations over counts that add up to the iterations gives shares in [0, 1] with sum 1 |
| MonteCarlo.ProbDominante | montecarlo.py:114-127 | an alternative strictly best in every iteration has probability 1, all others 0 |
| MonteCarlo.GanadorDominante | montecarlo.py:120 | such an alternative is the argmax of every iteration |
| MonteCarlo.ProbGanadoraValor | montecarlo.py:124-125 | each probability is the win count over the iterations |
| MonteCarlo.CalcularProbGanadora | montecarlo.py:114-127 | the loops return exactly `ProbGanadora` |
| MonteCarlo.Paso | montecarlo.py:147-155 | an iteration of the main loop succeeds exactly when the earlier ones did and the simulation gave a non-empty score list |
| MonteCarlo.AcumularCoherente | montecarlo.py:143-155 | after the loop both dictionaries have the same distinct keys in order, every score list has one entry per iteration, and each entry's statistics and label are those of its scores |
| MonteCarlo.AcumularOk | montecarlo.py:143-155 | the loop succeeds exactly when every alternative simulates without lookup errors and, with alternatives, there is at least one iteration |
| MonteCarlo.CompletoUltimo | montecarlo.py:143-150 | all alternatives simulate exactly when the earlier ones and the last one do |
| MonteCarlo.AgregarCoherente | montecarlo.py:152-155 | storing an alternative's scores and statistics keeps the two dictionaries aligned |
| MonteCarlo.PutFilas | montecarlo.py:152 | storing a score list of the common length keeps all rows that long |
| MonteCarlo.PutResume | montecarlo.py:152-155 | storing scores and their statistics under the same name keeps each entry the summary of its scores |
| MonteCarlo.AcumularTodas | montecarlo.py:143-155 | a property every alternative's simulation has holds of every stored score list |
| MonteCarlo.PasoScores | montecarlo.py:152 | a successful iteration stores its scores under the alternative's name |
| MonteCarlo.CumplenPrefijo | montecarlo.py:143-150 | the property carries over to the earlier alternatives and to the last one |
| MonteCarlo.TiradasPrefijo | montecarlo.py:143-150 | the draws of the first alternatives are well shaped |
| MonteCarlo.PutTodas | montecarlo.py:152 | storing a list with the property keeps it true of every value |
| MonteCarlo.Completar | montecarlo.py:159-160 | the win probability is added to every result; keys, order, statistics and labels are kept |
| MonteCarlo.Medias | montecarlo.py:163 | every result's mean, in order |
| MonteCarlo.Probabilidades | montecarlo.py:160 | every result's win probability, in order |
| MonteCarlo.EscogerGanador | montecarlo.py:163 | the winner is the first result with the highest mean, and the results are returned unchanged |
| MonteCarlo.SimularTodasSpec | montecarlo.py:131-171 | with no alternatives the run fails |
| MonteCarlo.SimularTodasPartes | montecarlo.py:131-171 | a successful run is the ranges, the loop, the probabilities and the winner, each succeeding |
| MonteCarlo.SimularTodasOk | montecarlo.py:131-171 | the run succeeds exactly when there are alternatives and iterations and every lookup succeeds |
| MonteCarlo.SimularTodasSi | montecarlo.py:131-171 | those conditions suffice for success |
| MonteCarlo.SimularTodasSolo | montecarlo.py:131-171 | those conditions are necessary for success |
| MonteCarlo.SimularTodasGanador | montecarlo.py:162-171 | the reported winner is the first alternative with the highest mean |
| MonteCarlo.Puntajes | montecarlo.py:93-152 | every result's stored score list, keyed by name |
| MonteCarlo.CompletarConsistente | montecarlo.py:153-160 | every result carries the statistics and label of its scores and the win probability computed from all score lists |
| MonteCarlo.CompletarPuntajes | montecarlo.py:93-152 | the score lists kept in the results are exactly `scores_todas` |
| MonteCarlo.CompletarProb | montecarlo.py:159-160 | each result's probability is the one computed for its position |
| MonteCarlo.ConsistentesProb | montecarlo.py:114-160 | the reported probabilities lie in [0, 1] and sum to 1 |
| MonteCarlo.ProbabilidadesDe | montecarlo.py:159-160 | probabilities copied position by position keep their bounds and sum |
| MonteCarlo.SimularTodasConsistente | montecarlo.py:131-171 | every reported result is consistent with its scores and the win probabilities |
| MonteCarlo.SimularTodasProb | montecarlo.py:131-171 | the reported win probabilities lie in [0, 1] and sum to 1 |
| MonteCarlo.SimularTodasCumplen | montecarlo.py:131-171 | a property of every per-alternative simulation holds of every reported score list |
| MonteCarlo.SimularTodasAcotada | montecarlo.py:131-171 | with non-negative weights and draws inside the intervals, 0 ≤ min ≤ mean ≤ max ≤ sum of weights for every alternative |
| MonteCarlo.TodasAcotadas | montecarlo.py:44-80 | under the same conditions every simulation stays between 0 and the sum of the weights |
| MonteCarlo.ResultadosAcotados | montecarlo.py:83-94 | score lists inside [0, w] have min, mean and max inside [0, w] |
| MonteCarlo.SimularTodasConstante | montecarlo.py:131-171 | draws that do not vary give zero variance and the label BAJO for every alternative |
| MonteCarlo.TodasConstantes | montecarlo.py:44-80 | draws that do not vary give constant simulations |
| MonteCarlo.ResultadosConstantes | montecarlo.py:83-110 | constant score lists have zero variance and label BAJO |
| MonteCarlo.AcumularPrefijo | montecarlo.py:143-155 | once an alternative has failed the whole loop fails with that error |
| MonteCarlo.AcumularPrefijoPaso | montecarlo.py:143-155 | the failure carries past one more alternative |
| MonteCarlo.AcumularArrastra | montecarlo.py:143-155 | an earlier failure is kept by the last alternative |
| MonteCarlo.AcumularUltimo | montecarlo.py:143-155 | the loop over all alternatives is the loop over the earlier ones plus one step for the last |
| MonteCarlo.PasoFallido | montecarlo.py:143-155 | a failed loop stays failed |
| MonteCarlo.AcumularSiguiente | montecarlo.py:143-155 | the loop over a prefix one longer is one more step |
| MonteCarlo.AcumularUnPaso | montecarlo.py:147-155 | a failed simulation or an empty score list ends the loop with its error; otherwise the alternative is recorded |
| MonteCarlo.AcumularEntero | montecarlo.py:143-155 | the loop over the full prefix is the loop over all alternatives |
| MonteCarlo.Registrar | montecarlo.py:152-155 | storing the scores and their labelled statistics is exactly `Agregar` |
| MonteCarlo.SimularCadaAlternativa | montecarlo.py:143-155 | the loop over the alternatives returns exactly `Acumular` |
| MonteCarlo.AgregarProbabilidades | montecarlo.py:159-160 | the loop adding probabilities returns exactly `Completar` |
| MonteCarlo.CompletarEn | montecarlo.py:160 | the j-th result gains the probability stored under its name |
| MonteCarlo.ElegirGanador | montecarlo.py:163 | the loop returns the first index with the highest mean |
| MonteCarlo.SimularTodas | montecarlo.py:131-171 | the method returns exactly `SimularTodasSpec` |
| Estadisticas.Media | montecarlo.py:87 | the mean lies between the minimum and the maximum |
| Estadisticas.Cuadrados | montecarlo.py:88 | the squared deviations from the mean, each non-negative |
| Estadisticas.Varianza | montecarlo.py:88 | the population variance is non-negative |
| Estadisticas.Reverso | montecarlo.py:89-90 | the list reversed |
| Estadisticas.ReversoMultiset | montecarlo.py:89-90 | reversing keeps the same elements |
| Estadisticas.Ascendente | montecarlo.py:89-90 | the sorted copy used by the percentile is an ascending permutation of the scores |
| Estadisticas.AscendenteAcotado | montecarlo.py:89-90 | every element of the sorted copy lies between min and max |
| Estadisticas.Rango | montecarlo.py:89-90 | the fractional rank q/100·(n−1) lies in [0, n−1] |
| Estadisticas.Inferior | montecarlo.py:89-90 | the lower neighbour is the floor of the rank |
| Estadisticas.Superior | montecarlo.py:89-90 | the upper neighbour is the next position, capped at the last |
| Estadisticas.Interpolar | montecarlo.py:89-90 | linear interpolation stays between its two ends |
| Estadisticas.PercentilOrdenado | montecarlo.py:89-90 | on a sorted list the percentile lies between the first and last values |
| Estadisticas.Percentil | montecarlo.py:89-90 | numpy's linear percentile lies between min and max |
| Estadisticas.PercentilMonotono | montecarlo.py:89-90 | a higher percentile is never smaller, so percentil_5 ≤ percentil_95 |
| Estadisticas.PercentilOrdenadoMonotono | montecarlo.py:89-90 | the same on a sorted list |
| Estadisticas.RangoMonotono | montecarlo.py:89-90 | the rank grows with q |
| Estadisticas.InterpolarMonotono | montecarlo.py:89-90 | interpolation grows with its fraction |
| Estadisticas.CalcularEstadisticas | montecarlo.py:83-94 | fails exactly on an empty list; otherwise keeps the scores, min and max are attained and bound every score, min ≤ mean ≤ max, min ≤ p5 ≤ p95 ≤ max, variance ≥ 0 |
| Estadisticas.ClasificarRiesgo | montecarlo.py:98-110 | BAJO below 0.08, MEDIO from 0.08 below 0.15, ALTO from 0.15, each both ways |
| Estadisticas.RiesgoMonotono | montecarlo.py:105-110 | a larger deviation never gets a lower label |
| Estadisticas.RiesgoDeVarianza | montecarlo.py:105-110 | the same thresholds squared on the variance: BAJO below 0.0064, ALTO from 0.0225 |
| Estadisticas.RiesgoDeVarianzaCoincide | montecarlo.py:154 | labelling the variance gives the label of its standard deviation |
| Estadisticas.EstadisticasConstantes | montecarlo.py:83-94 | a constant list has min, mean, max and both percentiles equal to the constant, variance 0 and label BAJO |
| Estadisticas.VarianzaConstante | montecarlo.py:88 | a constant list has variance 0 |
| DssWsm.NormalizarPesos | dss_model.py:70-75 | fails exactly when the weights sum to 0; otherwise one weight per input, each times the total gives the input, summing to 1 |
| DssWsm.NormalizarPesosOrden | dss_model.py:75 | normalising with a positive total keeps the order of the weights |
| DssWsm.NormalizarPesosIdempotente | dss_model.py:70-75 | normalising normalised weights changes nothing |
| DssWsm.Columna | dss_model.py:100 | the column of criterion j, one value per alternative |
| DssWsm.EscalarAcotado | dss_model.py:105-109 | a value inside a proper range scales into [0, 1], the ends to 0 and 1 by direction |
| DssWsm.CeldaAcotada | dss_model.py:99-109 | with max ≠ min every normalised cell lies in [0, 1], column max and min mapping to 1 and 0 (swapped for cost criteria) |
| DssWsm.CeldaConstante | dss_model.py:103-109 | a constant column (range replaced by 1) normalises to 0 |
| DssWsm.EscalarMonotono | dss_model.py:105-109 | the scaling keeps the order for benefits and reverses it for costs |
| DssWsm.CeldaMonotona | dss_model.py:99-109 | a better raw value never gets a lower normalised value |
| DssWsm.Normalizados | dss_model.py:98-109 | the normalised matrix has the matrix's shape |
| DssWsm.Ponderados | dss_model.py:114 | the weighted cells of one row |
| DssWsm.Puntajes | dss_model.py:112-115 | one weighted-sum score per alternative |
| DssWsm.Wsm | dss_model.py:78-123 | fails (empty `max`) exactly when there are criteria but no alternatives; otherwise one normalised row and one score per alternative, and the ranking is the stable descending order of the scores |
| DssWsm.PuntajeAcotado | dss_model.py:113-114 | non-negative weights and cells in [0, 1] give a score between 0 and the sum of the weights |
| DssWsm.WsmAcotado | dss_model.py:78-123 | with non-negative weights every normalised cell lies in [0, 1] and every score between 0 and the sum of the weights |
| DssWsm.WsmDominancia | dss_model.py:78-123 | an alternative at least as good on every criterion never scores lower |
| DssWsm.PuntajeMonotono | dss_model.py:114 | pointwise larger rows score at least as much under non-negative weights |
| DssWsm.WsmCalcular | dss_model.py:78-123 | the method returns exactly `Wsm` |
| DssWsm.NormalizarMatriz | dss_model.py:98-109 | the loop over the columns returns exactly `Normalizados` |
| DssWsm.CalcularPuntajes | dss_model.py:112-115 | the loop over the alternatives returns exactly `Puntajes` |
| DssWsm.NormalizarColumna | dss_model.py:100-109 | column j is written with its normalised cells and every other column is untouched |
| DssWsm.SumaPonderada | dss_model.py:114 | the accumulating loop returns the weighted sum of one row |
| DssAhp.RI | dss_model.py:214-233 | RI is 0 exactly for n = 1, 2; every other n lies in [0.58, 1.49], the default 1.49 from n = 11 |
| DssAhp.RIMonotono | dss_model.py:214-233 | RI never decreases with n and is 1.49 from 10 on |
| DssAhp.SumasFilas | dss_model.py:222 | the row sums |
| DssAhp.SumasColumnas | dss_model.py:220 | the column sums |
| DssAhp.Intercambio | dss_model.py:220-222 | the sum of the row sums equals the sum of the column sums |
| DssAhp.Normalizada | dss_model.py:221 | every cell divided by its column's sum |
| DssAhp.AhpNormalizarMatriz | dss_model.py:218-223 | one priority per row |
| DssAhp.ColumnasUnitarias | dss_model.py:221 | every column of the normalised matrix sums to 1 |
| DssAhp.ColumnaUnitaria | dss_model.py:221 | one column of the normalised matrix sums to 1 |
| DssAhp.AhpPrioridadesSuman | dss_model.py:218-223 | the priorities sum to 1 |
| DssAhp.AhpPrioridadesPositivas | dss_model.py:218-223 | a positive matrix has non-zero column sums and priorities in (0, 1] summing to 1 |
| DssAhp.ColumnaRazones | dss_model.py:220 | for a consistent matrix wᵢ/wⱼ the column sum is Σw / wⱼ |
| DssAhp.FilaRazones | dss_model.py:221-222 | for such a matrix every priority is wᵢ / Σw |
| DssAhp.AhpRecuperaPesos | dss_model.py:218-223 | a matrix of ratios of positive weights yields those weights, normalised |
| DssAhp.AhpUnos | dss_model.py:218-223 | the all-ones matrix yields equal priorities 1/n |
| DssAhp.Ponderado | dss_model.py:229 | the weighted vector, row by row |
| DssAhp.Cocientes | dss_model.py:231 | the quotients weighted / priority |
| DssAhp.AhpConsistency | dss_model.py:226-235 | CI is 0 for n = 1; for n > 1 CI is 0 exactly when λmax = n and non-negative exactly when λmax ≥ n; CR is 0 when RI is 0; otherwise CR is 0 exactly when CI is, and CR ≤ 0.10 exactly when CI ≤ 0.10·RI |
| DssAhp.CocienteRazones | dss_model.py:229-231 | for a ratio matrix every quotient weighted / priority is n |
| DssAhp.FilaPonderada | dss_model.py:229 | a row of ratios weighted by the normalised weights gives n times that weight |
| DssAhp.AhpConsistenciaPerfecta | dss_model.py:218-235 | a perfectly consistent matrix has λmax = n, CI = 0, CR = 0 and passes the CR ≤ 0.10 test |
| DssAhp.ConsistenciaExacta | dss_model.py:226-235 | quotients all equal to n give λmax = n, CI = CR = 0 |
| DssAhp.AhpConsistenciaUnos | dss_model.py:218-235 | the all-ones matrix is perfectly consistent |
| DssAhp.MatrizPareada | dss_model.py:275-280 | the filled matrix is n × n |
| DssAhp.Reciprocidad | dss_model.py:275-280 | the filled matrix is positive, has ones on the diagonal, the answers above it, and m[a][b]·m[b][a] = 1 everywhere |
| DssAhp.LlenarMatrizPareada | dss_model.py:275-280 | the nested loop returns exactly `MatrizPareada` |
| DssAhp.PareadaDosConsistente | dss_model.py:275-283 | any two-element comparison is perfectly consistent |
| DssAhp.PrioridadAlt | dss_model.py:305-311 | the priorities of one criterion's alternatives are positive, at most 1, and sum to 1 |
| DssAhp.PrioridadesAlternativas | dss_model.py:302-312 | one priority vector per criterion, each from that criterion's comparisons |
| DssAhp.Aportes | dss_model.py:317 | the contributions of every criterion to one alternative |
| DssAhp.ScoresGlobales | dss_model.py:315-318 | one global score per alternative, the sum of its contributions |
| DssAhp.CalcularScores | dss_model.py:315-320 | the loop returns exactly `ScoresGlobales`, and the ranking is their stable descending order |
| DssAhp.MatrizAportes | dss_model.py:317 | the contributions, one row per alternative |
| DssAhp.ColumnaAportes | dss_model.py:317 | a criterion's contributions add up to its priority times the sum of its alternative priorities |
| DssAhp.ScoresSuman | dss_model.py:315-318 | priorities summing to 1 give global scores summing to 1 |
| DssAhp.ScoreNoNegativo | dss_model.py:317 | non-negative priorities give a non-negative score |
| DssAhp.ScorePositivo | dss_model.py:317 | positive priorities give a positive score |
| DssAhp.ScoresAcotados | dss_model.py:315-318 | such priorities give every score in [0, 1] |
| DssAhp.AhpCompleto | dss_model.py:275-318 | from any positive answers, the global scores are positive, at most 1, and sum to 1 |
| Sorting.RankDescending | dss_model.py:118 | the ranking is a stable descending order of the scores |
| Sorting.RankPrefixOrdered | dss_model.py:118 | the ranking built by insertion is descending and stable |
| Sorting.RankPrefixRange | dss_model.py:118 | the ranking built by insertion is a permutation of the positions |
| Sorting.PermuteRanked | ahp_wsm.py:123 | applying a ranking to a list keeps its elements |
| Sorting.Insert | ahp_wsm.py:123 | one inserted position adds exactly that position |
| Common.Put | montecarlo.py:152-155 | dictionary assignment: an existing key keeps its place, a new key goes last, keys stay distinct, the key maps to the new value and every other key keeps its value |
| Common.Find | montecarlo.py:160 | key lookup finds the first entry with that key, or reports it absent |
| Common.FirstMaxIndex | montecarlo.py:163 | the first position of a maximum |
| Common.SeqMin | montecarlo.py:21 | `min`: an element no larger than any |
| Common.SeqMax | montecarlo.py:22 | `max`: an element no smaller than any |

## Left out

- Rounding to 4 decimals is not modelled: every number is an exact real. This covers
  `round(..., 4)` in ahp_wsm.py:117-118, montecarlo.py:87-92 and 125, and dss_model.py:115
  and 318. Floating-point error is not modelled either.
- The sorts in ahp_wsm.py:123 and dss_model.py:118,320 sort by the rounded score. The model
  sorts by the exact one, so two scores equal after rounding may be ordered differently.
  The same holds for the Monte Carlo winner (montecarlo.py:163, picked by the rounded mean
  of montecarlo.py:87). When two means tie after rounding, the source picks the first in
  insertion order, while MonteCarlo.EscogerGanador and MonteCarlo.SimularTodasGanador pick
  the one whose exact mean is larger.
- Estadisticas.CalcularEstadisticas: reports the population variance instead of `np.std`. Dafny
  reals have no square root. The risk label is computed from the variance with the thresholds
  squared. Estadisticas.RiesgoDeVarianzaCoincide shows this gives the label of the deviation.
  The source labels the rounded deviation; the model labels the exact one.
- `np.random.uniform` (montecarlo.py:66) is an input instead: `draws[a][c][k]` is the k-th draw
  of criterion c for alternative a. The bound lemmas assume the draws lie in the alternative's
  own interval, as a uniform draw does.
- NaN and infinite values cannot occur in the model.
- `str.lower()` is modelled on ASCII letters only.
- `pedir_comparacion_pareada` (dss_model.py:238-256) and the other console I/O helpers are not
  modelled. So are `ejecutar_wsm`/`ejecutar_ahp` apart from the loops listed above, the display
  functions and the `print` calls. The answers are an input; the check that they are positive
  becomes the precondition `Respuestas`.
- MonteCarlo.ProbGanadora: on score lists that are all empty, the source computes 0/0 and
  yields NaN shares with a warning (montecarlo.py:117-125). The model has no NaN, so it
  returns `Err(EmptySequence)` instead. `simular_todas` never reaches this case, because
  the statistics of an empty list fail first (MonteCarlo.Paso).
- Shape preconditions stand in for the source's `IndexError` on ill-shaped input:
  - DssWsm.Wsm requires a full `nAlt` × `nCrit` matrix and at least `nCrit` flags and
    weights (dss_model.py:101, 106, 114).
  - DssAhp.AhpNormalizarMatriz and DssAhp.AhpConsistency require a square matrix.
  - DssAhp.AhpConsistency also requires at least one priority per row (dss_model.py:220,
    229).
  The console callers always build these shapes, as documented at dss_model.py:86-90.
- DssAhp.AhpNormalizarMatriz: requires non-zero column sums, where the source would raise
  ZeroDivisionError. Positive answers always give such sums (DssAhp.AhpPrioridadesPositivas).
- DssAhp.AhpConsistency: requires non-zero priorities and a non-empty matrix, where the source
  would raise ZeroDivisionError.
- `wsm_calcular`'s `alternativas` and `criterios` lists are only used through their lengths,
  `nAlt` and `nCrit`.
- Reading the workbook (excel_reader.py), the user interface (app.py), the template generator
  (crear_plantilla.py) and the recommendation text (recomendacion.py) all concern input,
  display or text. They are not part of this model.
- Estadisticas.RiesgoMonotono and DssAhp.RIMonotono are small facts about constant thresholds
  and tables. They are proved by case analysis the verifier performs unaided.
