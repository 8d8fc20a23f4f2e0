/** The list-based weighted sum model of the console engine (dss_model.py): weights divided by
    their total, every column of the score matrix scaled to [0,1] between its minimum and
    maximum (1 as the range of a constant column), weighted row sums, and a stable ranking of
    the alternatives by score. */
module DssWsm {
  import opened Common
  import opened Sorting

  // ----- normalizar_pesos -----

  /** normalizar_pesos: every weight divided by the total; a zero total is an error. */
  function NormalizarPesos(pesos: seq<real>): (r: Result<seq<real>>)
    ensures r.Err? <==> Sum(pesos) == 0.0
    ensures r.Err? ==> r.error == ZeroWeightTotal
    ensures r.Ok? ==> |r.value| == |pesos|
    ensures r.Ok? ==> forall i :: 0 <= i < |pesos| ==> r.value[i] * Sum(pesos) == pesos[i]
    ensures r.Ok? ==> Sum(r.value) == 1.0
  {
    var total := Sum(pesos);
    if total == 0.0 then Err(ZeroWeightTotal)
    else
      var r := seq(|pesos|, i requires 0 <= i < |pesos| => pesos[i] / total);
      SumScaled(pesos, r, total);
      assert total / total == 1.0;
      Ok(r)
  }

  /** Normalised weights keep the order of the raw weights when the total is positive, and
      normalising them again changes nothing. */
  lemma NormalizarPesosOrden(pesos: seq<real>, i: nat, j: nat)
    requires Sum(pesos) > 0.0 && i < |pesos| && j < |pesos| && pesos[i] <= pesos[j]
    ensures NormalizarPesos(pesos).value[i] <= NormalizarPesos(pesos).value[j]
  {
    DivMonotona(pesos[i], pesos[j], Sum(pesos));
  }

  /** Dividing by a positive number keeps the order. */
  lemma DivMonotona(x: real, y: real, d: real)
    requires d > 0.0 && x <= y
    ensures x / d <= y / d
  {
    var t, u := x / d, y / d;
    assert t * d == x && u * d == y;
    assert (u - t) * d == y - x;
  }

  lemma NormalizarPesosIdempotente(pesos: seq<real>)
    requires Sum(pesos) != 0.0
    ensures NormalizarPesos(NormalizarPesos(pesos).value) == NormalizarPesos(pesos)
  {
    var r := NormalizarPesos(pesos).value;
    assert Sum(r) == 1.0;
    var q := NormalizarPesos(r).value;
    forall i | 0 <= i < |r| ensures q[i] == r[i] {
      assert q[i] * Sum(r) == r[i];
    }
    assert q == r;
  }

  // ----- wsm_calcular -----

  /** `normalizados`, `puntajes` and `ranking`. */
  datatype SalidaWsm = SalidaWsm(normalizados: seq<seq<real>>, puntajes: seq<real>, ranking: seq<nat>)

  /** The score matrix has a row for every alternative and a column for every criterion. */
  predicate Tabla(matriz: seq<seq<real>>, nAlt: nat, nCrit: nat)
  {
    |matriz| >= nAlt && forall i :: 0 <= i < nAlt ==> |matriz[i]| >= nCrit
  }

  /** `columna = [matriz_puntajes[i][j] for i in range(n_alt)]`. */
  function Columna(matriz: seq<seq<real>>, nAlt: nat, j: nat): (col: seq<real>)
    requires Tabla(matriz, nAlt, j + 1)
    ensures |col| == nAlt && forall i :: 0 <= i < nAlt ==> col[i] == matriz[i][j]
  {
    seq(nAlt, i requires 0 <= i < nAlt && Tabla(matriz, nAlt, j + 1) => matriz[i][j])
  }

  /** Min-max scaling of x between lo and hi: distance from the minimum for a benefit
      criterion, from the maximum for a cost criterion, over the range `hi - lo`, or over 1
      when the column is constant. */
  function Escalar(x: real, lo: real, hi: real, beneficio: bool): real
  {
    var rango := if hi != lo then hi - lo else 1.0;
    if beneficio then (x - lo) / rango else (hi - x) / rango
  }

  /** The normalised entry of row i of a column. */
  function Celda(col: seq<real>, i: nat, beneficio: bool): real
    requires i < |col|
  {
    Escalar(col[i], SeqMin(col), SeqMax(col), beneficio)
  }

  /** Between distinct extremes the scaled value lies in [0,1], the best raw value in the
      criterion's direction maps to 1 and the worst to 0. */
  lemma EscalarAcotado(x: real, lo: real, hi: real, beneficio: bool)
    requires lo < hi && lo <= x <= hi
    ensures 0.0 <= Escalar(x, lo, hi, beneficio) <= 1.0
    ensures x == hi ==> Escalar(x, lo, hi, beneficio) == (if beneficio then 1.0 else 0.0)
    ensures x == lo ==> Escalar(x, lo, hi, beneficio) == (if beneficio then 0.0 else 1.0)
  {
    Escala(x, lo, hi);
  }

  /** Every normalised entry of a non-constant column lies in [0,1]; the best raw value in the
      criterion's direction maps to 1 and the worst to 0. */
  lemma CeldaAcotada(col: seq<real>, i: nat, beneficio: bool)
    requires i < |col| && SeqMax(col) != SeqMin(col)
    ensures 0.0 <= Celda(col, i, beneficio) <= 1.0
    ensures col[i] == SeqMax(col) ==> Celda(col, i, beneficio) == (if beneficio then 1.0 else 0.0)
    ensures col[i] == SeqMin(col) ==> Celda(col, i, beneficio) == (if beneficio then 0.0 else 1.0)
  {
    var lo, hi, x := SeqMin(col), SeqMax(col), col[i];
    assert lo <= x <= hi && lo < hi;
    EscalarAcotado(x, lo, hi, beneficio);
  }

  /** A constant column normalises to 0 everywhere (the range falls back to 1). */
  lemma CeldaConstante(col: seq<real>, i: nat, beneficio: bool)
    requires i < |col| && SeqMax(col) == SeqMin(col)
    ensures Celda(col, i, beneficio) == 0.0
  {
    assert SeqMin(col) <= col[i] <= SeqMax(col);
  }

  /** A better raw value in the criterion's direction is never scaled lower. */
  lemma EscalarMonotono(x: real, y: real, lo: real, hi: real, beneficio: bool)
    requires lo < hi && if beneficio then x <= y else y <= x
    ensures Escalar(x, lo, hi, beneficio) <= Escalar(y, lo, hi, beneficio)
  {
    if beneficio {
      DivMonotona(x - lo, y - lo, hi - lo);
    } else {
      DivMonotona(hi - x, hi - y, hi - lo);
    }
  }

  /** A better raw value in the criterion's direction never gets a lower normalised value. */
  lemma CeldaMonotona(col: seq<real>, a: nat, b: nat, beneficio: bool)
    requires a < |col| && b < |col|
    requires if beneficio then col[a] <= col[b] else col[b] <= col[a]
    ensures Celda(col, a, beneficio) <= Celda(col, b, beneficio)
  {
    var lo, hi := SeqMin(col), SeqMax(col);
    if lo == hi {
      CeldaConstante(col, a, beneficio);
      CeldaConstante(col, b, beneficio);
    } else {
      assert lo < hi by { assert lo <= col[a] <= hi; }
      EscalarMonotono(col[a], col[b], lo, hi, beneficio);
    }
  }

  /** `normalizados[i][j]` for every alternative i and criterion j. */
  function Normalizados(matriz: seq<seq<real>>, beneficio: seq<bool>, nAlt: nat, nCrit: nat): (nz: seq<seq<real>>)
    requires nAlt > 0 && Tabla(matriz, nAlt, nCrit) && |beneficio| >= nCrit
    ensures |nz| == nAlt && forall i :: 0 <= i < nAlt ==> |nz[i]| == nCrit
  {
    seq(nAlt, i requires 0 <= i < nAlt =>
      seq(nCrit, j requires 0 <= j < nCrit => Celda(Columna(matriz, nAlt, j), i, beneficio[j])))
  }

  /** `sum(normalizados[i][j] * pesos[j] for j in range(n_crit))`. */
  function Puntaje(fila: seq<real>, pesos: seq<real>, nCrit: nat): real
    requires |fila| >= nCrit && |pesos| >= nCrit
  {
    Sum(Ponderados(fila, pesos, nCrit))
  }

  function Ponderados(fila: seq<real>, pesos: seq<real>, nCrit: nat): (t: seq<real>)
    requires |fila| >= nCrit && |pesos| >= nCrit
    ensures |t| == nCrit && forall j :: 0 <= j < nCrit ==> t[j] == fila[j] * pesos[j]
  {
    seq(nCrit, j requires 0 <= j < nCrit => fila[j] * pesos[j])
  }

  function Puntajes(nz: seq<seq<real>>, pesos: seq<real>, nCrit: nat): (ps: seq<real>)
    requires (forall i :: 0 <= i < |nz| ==> |nz[i]| >= nCrit) && |pesos| >= nCrit
    ensures |ps| == |nz| && forall i :: 0 <= i < |nz| ==> ps[i] == Puntaje(nz[i], pesos, nCrit)
  {
    seq(|nz|, i requires 0 <= i < |nz| => Puntaje(nz[i], pesos, nCrit))
  }

  /** wsm_calcular: the normalised matrix, the weighted row sums and the stable descending
      ranking of the alternatives by score. With criteria but no alternatives, max() of the
      first (empty) column fails. */
  function Wsm(nAlt: nat, nCrit: nat, pesos: seq<real>, matriz: seq<seq<real>>, beneficio: seq<bool>): (r: Result<SalidaWsm>)
    requires Tabla(matriz, nAlt, nCrit)
    requires nAlt > 0 ==> |beneficio| >= nCrit && |pesos| >= nCrit
    ensures r.Err? <==> nAlt == 0 && nCrit > 0
    ensures r.Err? ==> r.error == EmptySequence
    ensures r.Ok? ==> |r.value.normalizados| == nAlt && |r.value.puntajes| == nAlt
    ensures r.Ok? ==> StableRanking(r.value.puntajes, r.value.ranking)
  {
    if nAlt == 0 then
      if nCrit > 0 then Err(EmptySequence) else Ok(SalidaWsm([], [], []))
    else
      var nz := Normalizados(matriz, beneficio, nAlt, nCrit);
      var ps := Puntajes(nz, pesos, nCrit);
      Ok(SalidaWsm(nz, ps, RankDescending(ps)))
  }

  /** Entries in [0,1] under non-negative weights give a weighted sum between 0 and the sum
      of the weights. */
  lemma PuntajeAcotado(fila: seq<real>, pesos: seq<real>, nCrit: nat)
    requires |fila| >= nCrit && |pesos| >= nCrit
    requires forall j :: 0 <= j < nCrit ==> pesos[j] >= 0.0 && 0.0 <= fila[j] <= 1.0
    ensures 0.0 <= Puntaje(fila, pesos, nCrit) <= Sum(pesos[..nCrit])
  {
    var t := Ponderados(fila, pesos, nCrit);
    var ceros := seq(nCrit, j => 0.0);
    var w := pesos[..nCrit];
    forall j | 0 <= j < nCrit ensures 0.0 <= t[j] <= w[j] {
      var p, v := pesos[j], fila[j];
      MulUnidad(p, v);
      assert t[j] == v * p == p * v;
    }
    SumPointwise(ceros, t);
    SumConstant(ceros, 0.0);
    SumPointwise(t, w);
  }

  /** Every normalised entry lies in [0,1], so with non-negative weights every score lies
      between 0 and the sum of the weights. */
  lemma WsmAcotado(nAlt: nat, nCrit: nat, pesos: seq<real>, matriz: seq<seq<real>>, beneficio: seq<bool>, i: nat)
    requires Tabla(matriz, nAlt, nCrit) && nAlt > 0 && |beneficio| >= nCrit && |pesos| >= nCrit && i < nAlt
    requires forall j :: 0 <= j < nCrit ==> pesos[j] >= 0.0
    ensures var o := Wsm(nAlt, nCrit, pesos, matriz, beneficio).value;
      && (forall j :: 0 <= j < nCrit ==> 0.0 <= o.normalizados[i][j] <= 1.0)
      && 0.0 <= o.puntajes[i] <= Sum(pesos[..nCrit])
  {
    var nz := Normalizados(matriz, beneficio, nAlt, nCrit);
    forall j | 0 <= j < nCrit ensures 0.0 <= nz[i][j] <= 1.0 {
      var col := Columna(matriz, nAlt, j);
      if SeqMax(col) != SeqMin(col) {
        CeldaAcotada(col, i, beneficio[j]);
      } else {
        CeldaConstante(col, i, beneficio[j]);
      }
    }
    PuntajeAcotado(nz[i], pesos, nCrit);
  }

  /** With non-negative weights, an alternative at least as good as another on every criterion,
      in each criterion's direction, scores at least as much. */
  lemma WsmDominancia(nAlt: nat, nCrit: nat, pesos: seq<real>, matriz: seq<seq<real>>, beneficio: seq<bool>, a: nat, b: nat)
    requires Tabla(matriz, nAlt, nCrit) && nAlt > 0 && |beneficio| >= nCrit && |pesos| >= nCrit
    requires a < nAlt && b < nAlt
    requires forall j :: 0 <= j < nCrit ==> pesos[j] >= 0.0
    requires forall j :: 0 <= j < nCrit ==> if beneficio[j] then matriz[b][j] <= matriz[a][j] else matriz[a][j] <= matriz[b][j]
    ensures var ps := Wsm(nAlt, nCrit, pesos, matriz, beneficio).value.puntajes;
      ps[b] <= ps[a]
  {
    var nz := Normalizados(matriz, beneficio, nAlt, nCrit);
    forall j | 0 <= j < nCrit ensures nz[b][j] <= nz[a][j] {
      var col := Columna(matriz, nAlt, j);
      assert nz[a][j] == Celda(col, a, beneficio[j]) && nz[b][j] == Celda(col, b, beneficio[j]);
      CeldaMonotona(col, b, a, beneficio[j]);
    }
    PuntajeMonotono(nz[b], nz[a], pesos, nCrit);
    assert Wsm(nAlt, nCrit, pesos, matriz, beneficio).value.puntajes == Puntajes(nz, pesos, nCrit);
  }

  /** Under non-negative weights the weighted sum grows with every entry. */
  lemma PuntajeMonotono(fb: seq<real>, fa: seq<real>, pesos: seq<real>, nCrit: nat)
    requires |fb| >= nCrit && |fa| >= nCrit && |pesos| >= nCrit
    requires forall j :: 0 <= j < nCrit ==> pesos[j] >= 0.0 && fb[j] <= fa[j]
    ensures Puntaje(fb, pesos, nCrit) <= Puntaje(fa, pesos, nCrit)
  {
    var tb, ta := Ponderados(fb, pesos, nCrit), Ponderados(fa, pesos, nCrit);
    forall j | 0 <= j < nCrit ensures tb[j] <= ta[j] {
      ProductoMonotono(fb[j], fa[j], pesos[j]);
    }
    SumPointwise(tb, ta);
  }

  lemma ProductoMonotono(y: real, x: real, p: real)
    requires y <= x && p >= 0.0
    ensures y * p <= x * p
  {
  }

  /** wsm_calcular, loop by loop: each column is read, its extremes and range computed and its
      entries written into `normalizados`; then every row's weighted sum is appended to
      `puntajes`; then the alternatives are sorted by score. */
  method WsmCalcular(nAlt: nat, nCrit: nat, pesos: seq<real>, matriz: seq<seq<real>>, beneficio: seq<bool>)
    returns (r: Result<SalidaWsm>)
    requires Tabla(matriz, nAlt, nCrit)
    requires nAlt > 0 ==> |beneficio| >= nCrit && |pesos| >= nCrit
    ensures r == Wsm(nAlt, nCrit, pesos, matriz, beneficio)
  {
    if nAlt == 0 {
      if nCrit > 0 {
        return Err(EmptySequence);
      }
      return Ok(SalidaWsm([], [], []));
    }
    var normalizados := NormalizarMatriz(matriz, beneficio, nAlt, nCrit);
    var puntajesFinales := CalcularPuntajes(normalizados, pesos, nCrit);
    var ranking := RankDescending(puntajesFinales);
    r := Ok(SalidaWsm(normalizados, puntajesFinales, ranking));
  }

  /** The first loop of wsm_calcular: `normalizados` starts as zeros and is filled column by
      column. */
  method NormalizarMatriz(matriz: seq<seq<real>>, beneficio: seq<bool>, nAlt: nat, nCrit: nat)
    returns (normalizados: seq<seq<real>>)
    requires nAlt > 0 && Tabla(matriz, nAlt, nCrit) && |beneficio| >= nCrit
    ensures normalizados == Normalizados(matriz, beneficio, nAlt, nCrit)
  {
    normalizados := seq(nAlt, i => seq(nCrit, j => 0.0));
    for j := 0 to nCrit
      invariant |normalizados| == nAlt && forall i :: 0 <= i < nAlt ==> |normalizados[i]| == nCrit
      invariant forall i, k :: 0 <= i < nAlt && 0 <= k < j ==>
        normalizados[i][k] == Celda(Columna(matriz, nAlt, k), i, beneficio[k])
    {
      normalizados := NormalizarColumna(normalizados, matriz, nAlt, nCrit, j, beneficio[j]);
    }
    var esperado := Normalizados(matriz, beneficio, nAlt, nCrit);
    forall i | 0 <= i < nAlt ensures normalizados[i] == esperado[i] {
      assert forall k :: 0 <= k < nCrit ==> normalizados[i][k] == esperado[i][k];
    }
  }

  /** The second loop of wsm_calcular: one weighted row sum per alternative. */
  method CalcularPuntajes(normalizados: seq<seq<real>>, pesos: seq<real>, nCrit: nat) returns (puntajes: seq<real>)
    requires (forall i :: 0 <= i < |normalizados| ==> |normalizados[i]| >= nCrit) && |pesos| >= nCrit
    ensures puntajes == Puntajes(normalizados, pesos, nCrit)
  {
    puntajes := [];
    for i := 0 to |normalizados|
      invariant puntajes == Puntajes(normalizados[..i], pesos, nCrit)
    {
      var score := SumaPonderada(normalizados[i], pesos, nCrit);
      puntajes := puntajes + [score];
    }
    assert normalizados[..|normalizados|] == normalizados;
  }

  /** One pass of the outer loop: column j of the matrix normalised into `normalizados`, every
      other column unchanged. */
  method NormalizarColumna(normalizados: seq<seq<real>>, matriz: seq<seq<real>>, nAlt: nat, nCrit: nat, j: nat, beneficio: bool)
    returns (nz: seq<seq<real>>)
    requires nAlt > 0 && j < nCrit && Tabla(matriz, nAlt, nCrit)
    requires |normalizados| == nAlt && forall i :: 0 <= i < nAlt ==> |normalizados[i]| == nCrit
    ensures |nz| == nAlt && forall i :: 0 <= i < nAlt ==> |nz[i]| == nCrit
    ensures forall i, k :: 0 <= i < nAlt && 0 <= k < nCrit && k != j ==> nz[i][k] == normalizados[i][k]
    ensures forall i :: 0 <= i < nAlt ==> nz[i][j] == Celda(Columna(matriz, nAlt, j), i, beneficio)
  {
    var columna := Columna(matriz, nAlt, j);
    var colMax := SeqMax(columna);
    var colMin := SeqMin(columna);
    var rango := if colMax != colMin then colMax - colMin else 1.0;
    nz := normalizados;
    for i := 0 to nAlt
      invariant |nz| == nAlt && forall x :: 0 <= x < nAlt ==> |nz[x]| == nCrit
      invariant forall x, k :: 0 <= x < nAlt && 0 <= k < nCrit && (k != j || x >= i) ==> nz[x][k] == normalizados[x][k]
      invariant forall x :: 0 <= x < i ==> nz[x][j] == Celda(columna, x, beneficio)
    {
      var v := if beneficio then (columna[i] - colMin) / rango else (colMax - columna[i]) / rango;
      nz := nz[i := nz[i][j := v]];
    }
  }

  /** `sum(fila[j] * pesos[j] for j in range(n_crit))`, one term at a time. */
  method SumaPonderada(fila: seq<real>, pesos: seq<real>, nCrit: nat) returns (score: real)
    requires |fila| >= nCrit && |pesos| >= nCrit
    ensures score == Puntaje(fila, pesos, nCrit)
  {
    var t := Ponderados(fila, pesos, nCrit);
    score := 0.0;
    for j := 0 to nCrit
      invariant score == Sum(t[..j])
    {
      SumPrefixStep(t, j);
      score := score + fila[j] * pesos[j];
    }
    assert t[..nCrit] == t;
  }
}
