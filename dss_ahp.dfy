/** The analytic hierarchy process of the console engine (dss_model.py): Saaty's random index
    table, priorities from a pairwise comparison matrix by column normalisation and row
    averages, lambda max with the consistency index and ratio, the reciprocal fill of a
    comparison matrix, and the global scores that weight every alternative's priorities by the
    priorities of the criteria. */
module DssAhp {
  import opened Common
  import opened Sorting
  import opened DssWsm

  // ----- RI -----

  /** `RI.get(n, 1.49)`: Saaty's random consistency index for n = 1..10, 1.49 for any other n. */
  function RI(n: nat): (r: real)
    ensures r == 0.0 <==> n == 1 || n == 2
    ensures n != 1 && n != 2 ==> 0.58 <= r <= 1.49
  {
    if n == 1 || n == 2 then 0.0
    else if n == 3 then 0.58
    else if n == 4 then 0.90
    else if n == 5 then 1.12
    else if n == 6 then 1.24
    else if n == 7 then 1.32
    else if n == 8 then 1.41
    else if n == 9 then 1.45
    else 1.49
  }

  /** The table grows with the size of the matrix and stays at 1.49 from 10 on. */
  lemma RIMonotono(a: nat, b: nat)
    requires 1 <= a <= b
    ensures RI(a) <= RI(b)
    ensures b >= 10 ==> RI(b) == 1.49
  {
  }

  // ----- sums over a matrix -----

  /** The row sums of a matrix. */
  function SumasFilas(a: seq<seq<real>>): (s: seq<real>)
    ensures |s| == |a| && forall i :: 0 <= i < |a| ==> s[i] == Sum(a[i])
  {
    seq(|a|, i requires 0 <= i < |a| => Sum(a[i]))
  }

  /** `[sum(matriz[i][j] for i in range(n)) for j in range(c)]`: the column sums. */
  function SumasColumnas(a: seq<seq<real>>, c: nat): (s: seq<real>)
    requires Tabla(a, |a|, c)
    ensures |s| == c && forall j :: 0 <= j < c ==> s[j] == Sum(Columna(a, |a|, j))
  {
    seq(c, j requires 0 <= j < c && Tabla(a, |a|, c) => Sum(Columna(a, |a|, j)))
  }

  /** Adding up a matrix row by row or column by column gives the same total. */
  lemma {:induction false} Intercambio(a: seq<seq<real>>, c: nat)
    requires forall i :: 0 <= i < |a| ==> |a[i]| == c
    ensures Sum(SumasFilas(a)) == Sum(SumasColumnas(a, c))
    decreases |a|
  {
    var cols := SumasColumnas(a, c);
    if |a| == 0 {
      SumConstant(cols, 0.0);
    } else {
      var n := |a| - 1;
      var b := a[..n];
      Intercambio(b, c);
      assert SumasFilas(a)[..n] == SumasFilas(b);
      var colsB := SumasColumnas(b, c);
      forall j | 0 <= j < c ensures cols[j] == colsB[j] + a[n][j] {
        assert Columna(a, |a|, j)[..n] == Columna(b, |b|, j);
      }
      SumAdd(colsB, a[n], cols);
    }
  }

  // ----- ahp_normalizar_matriz -----

  /** An n×n matrix with n = len(matriz); longer rows are read only up to n. */
  predicate Cuadrada(m: seq<seq<real>>)
  {
    Tabla(m, |m|, |m|)
  }

  /** Every column sum is non-zero, so dividing by it does not fail. */
  predicate ColumnasNoNulas(m: seq<seq<real>>)
    requires Cuadrada(m)
  {
    forall j :: 0 <= j < |m| ==> SumasColumnas(m, |m|)[j] != 0.0
  }

  /** Every entry is positive, as the comparisons of the console are. */
  predicate Positiva(m: seq<seq<real>>)
    requires Cuadrada(m)
  {
    forall i, j :: 0 <= i < |m| && 0 <= j < |m| ==> m[i][j] > 0.0
  }

  /** `normalizada[i][j] = matriz[i][j] / sumas_col[j]`. */
  function Normalizada(m: seq<seq<real>>): (a: seq<seq<real>>)
    requires Cuadrada(m) && ColumnasNoNulas(m)
    ensures |a| == |m|
    ensures forall i :: 0 <= i < |m| ==> |a[i]| == |m|
    ensures forall i, j :: 0 <= i < |m| && 0 <= j < |m| ==> a[i][j] == m[i][j] / SumasColumnas(m, |m|)[j]
  {
    var n := |m|;
    var c := SumasColumnas(m, n);
    seq(n, i requires 0 <= i < n => seq(n, j requires 0 <= j < n => m[i][j] / c[j]))
  }

  /** ahp_normalizar_matriz: the average of every row of the column-normalised matrix. */
  function AhpNormalizarMatriz(m: seq<seq<real>>): (p: seq<real>)
    requires Cuadrada(m) && ColumnasNoNulas(m)
    ensures |p| == |m|
  {
    var n := |m|;
    var a := Normalizada(m);
    seq(n, i requires 0 <= i < n => Sum(a[i]) / n as real)
  }

  /** Every column of the normalised matrix sums to 1. */
  lemma ColumnasUnitarias(m: seq<seq<real>>)
    requires Cuadrada(m) && ColumnasNoNulas(m)
    ensures forall j :: 0 <= j < |m| ==> SumasColumnas(Normalizada(m), |m|)[j] == 1.0
  {
    forall j | 0 <= j < |m| ensures SumasColumnas(Normalizada(m), |m|)[j] == 1.0 {
      ColumnaUnitaria(m, j);
    }
  }

  lemma ColumnaUnitaria(m: seq<seq<real>>, j: nat)
    requires Cuadrada(m) && ColumnasNoNulas(m) && j < |m|
    ensures Sum(Columna(Normalizada(m), |m|, j)) == 1.0
  {
    var n := |m|;
    var a := Normalizada(m);
    var cj := SumasColumnas(m, n)[j];
    var col, ca := Columna(m, n, j), Columna(a, n, j);
    forall k | 0 <= k < n ensures ca[k] == col[k] / cj {
      assert ca[k] == a[k][j];
    }
    SumScaled(col, ca, cj);
    CocienteUno(Sum(col), cj);
  }

  /** The columns of the normalised matrix sum to 1, so the priorities sum to 1. */
  lemma AhpPrioridadesSuman(m: seq<seq<real>>)
    requires Cuadrada(m) && ColumnasNoNulas(m) && |m| > 0
    ensures Sum(AhpNormalizarMatriz(m)) == 1.0
  {
    var n := |m|;
    var a := Normalizada(m);
    ColumnasUnitarias(m);
    SumConstant(SumasColumnas(a, n), 1.0);
    Intercambio(a, n);
    var nr := n as real;
    assert Sum(SumasFilas(a)) == nr;
    var p := AhpNormalizarMatriz(m);
    var filas := SumasFilas(a);
    forall k | 0 <= k < n ensures p[k] == filas[k] / nr {
    }
    SumScaled(filas, p, nr);
    CocienteUno(Sum(filas), nr);
  }

  lemma MulUno(x: real, y: real)
    requires y == 1.0
    ensures x * y == x
  {
  }

  lemma CocienteUno(x: real, y: real)
    requires y != 0.0 && x == y
    ensures x / y == 1.0
  {
  }

  /** A sum of positive numbers is positive. */
  lemma SumPositiva(s: seq<real>)
    requires |s| > 0 && forall k :: 0 <= k < |s| ==> s[k] > 0.0
    ensures Sum(s) > 0.0
  {
    SumElement(s, 0);
  }

  /** For a matrix of positive entries the division never fails, every priority is positive
      and at most 1, and the priorities sum to 1. */
  lemma AhpPrioridadesPositivas(m: seq<seq<real>>)
    requires Cuadrada(m) && Positiva(m) && |m| > 0
    ensures ColumnasNoNulas(m)
    ensures var p := AhpNormalizarMatriz(m);
      Sum(p) == 1.0 && forall i :: 0 <= i < |m| ==> 0.0 < p[i] <= 1.0
  {
    var n := |m|;
    var c := SumasColumnas(m, n);
    forall j | 0 <= j < n ensures c[j] > 0.0 {
      SumPositiva(Columna(m, n, j));
    }
    var a := Normalizada(m);
    var p := AhpNormalizarMatriz(m);
    forall i | 0 <= i < n ensures p[i] > 0.0 {
      forall j | 0 <= j < n ensures a[i][j] > 0.0 {
        DivPositivo(m[i][j], c[j]);
      }
      SumPositiva(a[i]);
      DivPositivo(Sum(a[i]), n as real);
    }
    AhpPrioridadesSuman(m);
    forall i | 0 <= i < n ensures p[i] <= 1.0 {
      SumElement(p, i);
    }
  }

  /** The matrix of ratios of a positive weight vector: `matriz[i][j] == w[i] / w[j]`, the
      perfectly consistent comparison matrix. */
  predicate DeRazones(m: seq<seq<real>>, w: seq<real>)
  {
    && Cuadrada(m) && |w| == |m|
    && (forall k :: 0 <= k < |w| ==> w[k] > 0.0)
    && forall i, j :: 0 <= i < |m| && 0 <= j < |m| ==> m[i][j] == w[i] / w[j]
  }

  /** Dividing two quotients by the same divisor. */
  lemma CocienteComun(x: real, y: real, d: real)
    requires d != 0.0 && y != 0.0
    ensures (x / d) / (y / d) == x / y
  {
    var q := x / d;
    var r := y / d;
    assert q * d == x && r * d == y && r != 0.0;
    assert (q / r) * y == (q / r) * r * d;
  }

  /** Column j of the ratio matrix of w sums to Sum(w) / w[j]. */
  lemma ColumnaRazones(m: seq<seq<real>>, w: seq<real>, j: nat)
    requires DeRazones(m, w) && j < |m|
    ensures Sum(w) > 0.0 && SumasColumnas(m, |m|)[j] == Sum(w) / w[j]
    ensures SumasColumnas(m, |m|)[j] > 0.0
  {
    SumPositiva(w);
    SumScaled(w, Columna(m, |m|, j), w[j]);
    DivPositivo(Sum(w), w[j]);
  }

  /** Row i of the normalised ratio matrix holds w[i] / Sum(w) in every column, so its average
      is w[i] / Sum(w). */
  lemma FilaRazones(m: seq<seq<real>>, w: seq<real>, i: nat)
    requires DeRazones(m, w) && i < |m| && ColumnasNoNulas(m)
    ensures Sum(w) > 0.0 && AhpNormalizarMatriz(m)[i] == w[i] / Sum(w)
  {
    var n := |m|;
    var s := Sum(w);
    SumPositiva(w);
    var a := Normalizada(m);
    forall j | 0 <= j < n ensures a[i][j] == w[i] / s {
      ColumnaRazones(m, w, j);
      CocienteComun(w[i], s, w[j]);
    }
    Promedio(a[i], w[i] / s);
  }

  /** The average of a row that holds x everywhere is x. */
  lemma Promedio(fila: seq<real>, x: real)
    requires |fila| > 0 && forall j :: 0 <= j < |fila| ==> fila[j] == x
    ensures Sum(fila) / |fila| as real == x
  {
    SumConstant(fila, x);
    MulCociente(Sum(fila), |fila| as real, x, |fila| as real);
  }

  /** On the ratio matrix of a positive vector w the priorities are w scaled to sum 1: the
      method recovers the weights exactly. */
  lemma AhpRecuperaPesos(m: seq<seq<real>>, w: seq<real>)
    requires DeRazones(m, w) && |m| > 0
    ensures ColumnasNoNulas(m) && Sum(w) > 0.0
    ensures forall i :: 0 <= i < |m| ==> AhpNormalizarMatriz(m)[i] == w[i] / Sum(w)
  {
    forall j | 0 <= j < |m| ensures SumasColumnas(m, |m|)[j] != 0.0 {
      ColumnaRazones(m, w, j);
    }
    SumPositiva(w);
    forall i | 0 <= i < |m| ensures AhpNormalizarMatriz(m)[i] == w[i] / Sum(w) {
      FilaRazones(m, w, i);
    }
  }

  /** The all-ones matrix (every comparison "equal") gives every element priority 1/n. */
  lemma AhpUnos(m: seq<seq<real>>)
    requires Cuadrada(m) && |m| > 0
    requires forall i, j :: 0 <= i < |m| && 0 <= j < |m| ==> m[i][j] == 1.0
    ensures ColumnasNoNulas(m)
    ensures forall i :: 0 <= i < |m| ==> AhpNormalizarMatriz(m)[i] == 1.0 / |m| as real
  {
    var w := seq(|m|, k => 1.0);
    assert DeRazones(m, w);
    SumConstant(w, 1.0);
    AhpRecuperaPesos(m, w);
  }

  // ----- ahp_consistency -----

  /** The triple `(lambda_max, ci, cr)`. */
  datatype Consistencia = Consistencia(lambdaMax: real, ci: real, cr: real)

  /** `weighted[i] = sum(matriz[i][j] * prioridades[j] for j in range(n))`. */
  function Ponderado(m: seq<seq<real>>, p: seq<real>): (t: seq<real>)
    requires Cuadrada(m) && |p| >= |m|
    ensures |t| == |m|
    ensures forall i :: 0 <= i < |m| ==> t[i] == Sum(Ponderados(m[i], p, |m|))
  {
    seq(|m|, i requires 0 <= i < |m| && Cuadrada(m) => Sum(Ponderados(m[i], p, |m|)))
  }

  /** `weighted[i] / prioridades[i]`. */
  function Cocientes(m: seq<seq<real>>, p: seq<real>): (q: seq<real>)
    requires Cuadrada(m) && |p| >= |m| && forall i :: 0 <= i < |m| ==> p[i] != 0.0
    ensures |q| == |m| && forall i :: 0 <= i < |m| ==> q[i] == Ponderado(m, p)[i] / p[i]
  {
    var t := Ponderado(m, p);
    seq(|m|, i requires 0 <= i < |m| => t[i] / p[i])
  }

  /** ahp_consistency: lambda max is the mean of the ratios, CI = (lambda max - n)/(n - 1)
      (0 for n = 1) and CR = CI/RI (0 where RI is 0). CI vanishes exactly when lambda max
      equals n, and CR exactly when CI does; CR is at most 0.10, the console's acceptance
      threshold, exactly when CI is at most a tenth of RI. */
  function AhpConsistency(m: seq<seq<real>>, p: seq<real>): (r: Consistencia)
    requires Cuadrada(m) && |m| > 0 && |p| >= |m| && forall i :: 0 <= i < |m| ==> p[i] != 0.0
    ensures |m| == 1 ==> r.ci == 0.0
    ensures |m| > 1 ==> (r.ci == 0.0 <==> r.lambdaMax == |m| as real)
    ensures |m| > 1 ==> (r.ci >= 0.0 <==> r.lambdaMax >= |m| as real)
    ensures RI(|m|) == 0.0 ==> r.cr == 0.0
    ensures RI(|m|) > 0.0 ==> (r.cr == 0.0 <==> r.ci == 0.0)
    ensures RI(|m|) > 0.0 ==> (r.cr <= 0.10 <==> r.ci <= 0.10 * RI(|m|))
  {
    var n := |m|;
    var lambdaMax := Sum(Cocientes(m, p)) / n as real;
    var ci := if n > 1 then (lambdaMax - n as real) / (n - 1) as real else 0.0;
    var ri := RI(n);
    var cr := if ri > 0.0 then ci / ri else 0.0;
    assert n > 1 ==> ci * (n - 1) as real == lambdaMax - n as real;
    assert ri > 0.0 ==> cr * ri == ci;
    Consistencia(lambdaMax, ci, cr)
  }

  /** The console's verdict: the comparisons are consistent when CR <= 0.10. */
  predicate Consistente(r: Consistencia)
  {
    r.cr <= 0.10
  }

  /** On the ratio matrix of w with the priorities w / Sum(w), row i of the weighted vector
      is n times the priority of i, so its ratio to that priority is n. */
  lemma CocienteRazones(m: seq<seq<real>>, w: seq<real>, s: real, p: seq<real>, i: nat)
    requires DeRazones(m, w) && i < |m| && s == Sum(w) && s > 0.0
    requires |p| == |m| && forall k :: 0 <= k < |m| ==> p[k] == w[k] / s
    ensures p[i] > 0.0 && Ponderado(m, p)[i] / p[i] == |m| as real
  {
    FilaPonderada(m[i], p, w, w[i], s, |m|);
  }

  /** A row of ratios w_i / w_j weighted by the priorities w_j / s adds up to n w_i / s, which
      is n times w_i / s. */
  lemma FilaPonderada(fila: seq<real>, p: seq<real>, w: seq<real>, wi: real, s: real, n: nat)
    requires |fila| >= n && |p| >= n && |w| >= n && s > 0.0 && wi > 0.0
    requires forall j :: 0 <= j < n ==> w[j] != 0.0 && fila[j] == wi / w[j] && p[j] == w[j] / s
    ensures wi / s > 0.0 && Sum(Ponderados(fila, p, n)) / (wi / s) == n as real
  {
    var t := Ponderados(fila, p, n);
    forall j | 0 <= j < n ensures t[j] == wi / s {
      RazonPorPeso(fila[j], p[j], wi, w[j], s);
    }
    SumConstant(t, wi / s);
    DivPositivo(wi, s);
    MulCociente(Sum(t), wi / s, n as real, wi / s);
  }

  lemma RazonPorPeso(a: real, b: real, x: real, y: real, s: real)
    requires y != 0.0 && s != 0.0 && a == x / y && b == y / s
    ensures a * b == x / s
  {
    assert (x / y) * y == x;
  }

  lemma MulCociente(a: real, b: real, n: real, x: real)
    requires x != 0.0 && a == n * x && b == x
    ensures a / b == n
  {
  }

  /** On the ratio matrix of a positive vector the priorities give lambda max = n, CI = 0 and
      CR = 0, so it is judged consistent. */
  lemma AhpConsistenciaPerfecta(m: seq<seq<real>>, w: seq<real>)
    requires DeRazones(m, w) && |m| > 0
    ensures ColumnasNoNulas(m)
    ensures var p := AhpNormalizarMatriz(m);
      && (forall i :: 0 <= i < |m| ==> p[i] != 0.0)
      && var r := AhpConsistency(m, p);
      && r.lambdaMax == |m| as real && r.ci == 0.0 && r.cr == 0.0 && Consistente(r)
  {
    var n := |m|;
    AhpRecuperaPesos(m, w);
    var p := AhpNormalizarMatriz(m);
    forall i | 0 <= i < n ensures p[i] > 0.0 && Ponderado(m, p)[i] / p[i] == n as real {
      CocienteRazones(m, w, Sum(w), p, i);
    }
    ConsistenciaExacta(m, p);
  }

  /** When every ratio weighted[i] / prioridades[i] equals n, lambda max is n and CI and CR
      are 0. */
  lemma ConsistenciaExacta(m: seq<seq<real>>, p: seq<real>)
    requires Cuadrada(m) && |m| > 0 && |p| >= |m|
    requires forall i :: 0 <= i < |m| ==> p[i] != 0.0 && Ponderado(m, p)[i] / p[i] == |m| as real
    ensures var r := AhpConsistency(m, p);
      r.lambdaMax == |m| as real && r.ci == 0.0 && r.cr == 0.0 && Consistente(r)
  {
    var n := |m| as real;
    var q := Cocientes(m, p);
    SumConstant(q, n);
    MulCociente(Sum(q), n, n, n);
  }

  /** The all-ones matrix gives lambda max = n, CI = 0 and CR = 0. */
  lemma AhpConsistenciaUnos(m: seq<seq<real>>)
    requires Cuadrada(m) && |m| > 0
    requires forall i, j :: 0 <= i < |m| && 0 <= j < |m| ==> m[i][j] == 1.0
    ensures ColumnasNoNulas(m)
    ensures var p := AhpNormalizarMatriz(m);
      && (forall i :: 0 <= i < |m| ==> p[i] != 0.0)
      && var r := AhpConsistency(m, p);
      && r.lambdaMax == |m| as real && r.ci == 0.0 && r.cr == 0.0
  {
    var w := seq(|m|, k => 1.0);
    assert DeRazones(m, w);
    AhpConsistenciaPerfecta(m, w);
  }

  // ----- the reciprocal pairwise matrix -----

  /** The answers of the pairwise prompts: `comp[a][b]` for every pair a < b, each positive
      as `pedir_comparacion_pareada` insists. */
  predicate Respuestas(comp: seq<seq<real>>, n: nat)
  {
    Tabla(comp, n, n) && forall a, b :: 0 <= a < b < n ==> comp[a][b] > 0.0
  }

  /** The filled matrix: 1 on the diagonal, the answer above it and its reciprocal below. */
  function MatrizPareada(comp: seq<seq<real>>, n: nat): (m: seq<seq<real>>)
    requires Respuestas(comp, n)
    ensures |m| == n && forall a :: 0 <= a < n ==> |m[a]| == n
  {
    seq(n, a requires 0 <= a < n => seq(n, b requires 0 <= b < n && Respuestas(comp, n) =>
      if a == b then 1.0 else if a < b then comp[a][b] else 1.0 / comp[b][a]))
  }

  /** The filled matrix is a positive reciprocal matrix: ones on the diagonal, the answers
      above it and `m[b][a] * m[a][b] == 1` everywhere. */
  lemma Reciprocidad(comp: seq<seq<real>>, n: nat)
    requires Respuestas(comp, n)
    ensures var m := MatrizPareada(comp, n);
      && Cuadrada(m) && Positiva(m)
      && (forall a :: 0 <= a < n ==> m[a][a] == 1.0)
      && (forall a, b :: 0 <= a < b < n ==> m[a][b] == comp[a][b])
      && (forall a, b :: 0 <= a < n && 0 <= b < n ==> m[a][b] * m[b][a] == 1.0)
  {
    var m := MatrizPareada(comp, n);
    forall a, b | 0 <= a < n && 0 <= b < n ensures m[a][b] > 0.0 && m[a][b] * m[b][a] == 1.0 {
      if a < b {
        assert m[b][a] == 1.0 / comp[a][b];
      } else if b < a {
        assert m[a][b] == 1.0 / comp[b][a];
      }
    }
  }

  /** The entry (a, b) once the pairs before (i, j) have been filled in loop order. */
  function Parcial(comp: seq<seq<real>>, n: nat, i: nat, j: nat, a: nat, b: nat): real
    requires Respuestas(comp, n) && a < n && b < n
  {
    if a < b && (a < i || (a == i && b < j)) then comp[a][b]
    else if b < a && (b < i || (b == i && a < j)) then 1.0 / comp[b][a]
    else 1.0
  }

  /** A matrix of n rows of n entries whose entries are those of the fill after the pairs
      before (i, j). */
  ghost predicate Llenada(mat: seq<seq<real>>, comp: seq<seq<real>>, n: nat, i: nat, j: nat)
    requires Respuestas(comp, n)
  {
    && |mat| == n && (forall a :: 0 <= a < n ==> |mat[a]| == n)
    && forall a, b :: 0 <= a < n && 0 <= b < n ==> mat[a][b] == Parcial(comp, n, i, j, a, b)
  }

  /** The reciprocal fill of `mat_crit` and `mat_alt` in `ejecutar_ahp`: start from all ones,
      then for every pair i < j in row order store the answer at (i, j) and its reciprocal at
      (j, i). */
  method LlenarMatrizPareada(comp: seq<seq<real>>, n: nat) returns (mat: seq<seq<real>>)
    requires Respuestas(comp, n)
    ensures mat == MatrizPareada(comp, n)
  {
    mat := seq(n, _ => seq(n, _ => 1.0));
    for i := 0 to n
      invariant Llenada(mat, comp, n, i, 0)
    {
      for j := i + 1 to n
        invariant Llenada(mat, comp, n, i, j)
      {
        var val := comp[i][j];
        mat := mat[i := mat[i][j := val]];
        mat := mat[j := mat[j][i := 1.0 / val]];
      }
    }
    var m := MatrizPareada(comp, n);
    forall a | 0 <= a < n ensures mat[a] == m[a] {
      assert forall b :: 0 <= b < n ==> mat[a][b] == m[a][b];
    }
  }

  /** Two elements are always compared consistently: the 2×2 reciprocal matrix is the ratio
      matrix of (answer, 1), so lambda max = 2 and CI = CR = 0. */
  lemma PareadaDosConsistente(comp: seq<seq<real>>)
    requires Respuestas(comp, 2)
    ensures var m := MatrizPareada(comp, 2);
      && Cuadrada(m) && ColumnasNoNulas(m)
      && var p := AhpNormalizarMatriz(m);
      && (forall i :: 0 <= i < 2 ==> p[i] != 0.0)
      && var r := AhpConsistency(m, p);
      && r.lambdaMax == 2.0 && r.ci == 0.0 && r.cr == 0.0
  {
    var m := MatrizPareada(comp, 2);
    var c := comp[0][1];
    var w := [c, 1.0];
    assert m[0][0] == 1.0 && m[0][1] == c && m[1][0] == 1.0 / c && m[1][1] == 1.0;
    CocienteUno(c, c);
    forall i, j | 0 <= i < 2 && 0 <= j < 2 ensures m[i][j] == w[i] / w[j] {
    }
    assert DeRazones(m, w);
    AhpConsistenciaPerfecta(m, w);
  }

  // ----- the priorities of the alternatives and the global scores -----

  /** One answer table per criterion, each on the alternatives. */
  predicate RespuestasAlt(compAlt: seq<seq<seq<real>>>, nCrit: nat, nAlt: nat)
  {
    |compAlt| >= nCrit && forall j :: 0 <= j < nCrit ==> Respuestas(compAlt[j], nAlt)
  }

  /** The priorities of the alternatives under one criterion. */
  function PrioridadAlt(comp: seq<seq<real>>, nAlt: nat): (p: seq<real>)
    requires Respuestas(comp, nAlt) && nAlt > 0
    ensures |p| == nAlt && Sum(p) == 1.0 && forall i :: 0 <= i < nAlt ==> 0.0 < p[i] <= 1.0
  {
    Reciprocidad(comp, nAlt);
    AhpPrioridadesPositivas(MatrizPareada(comp, nAlt));
    AhpNormalizarMatriz(MatrizPareada(comp, nAlt))
  }

  /** The loop over the criteria in `ejecutar_ahp`: fill the comparison matrix of the
      alternatives under every criterion and append its priorities to `prioridades_alt`. */
  method PrioridadesAlternativas(compAlt: seq<seq<seq<real>>>, nCrit: nat, nAlt: nat)
    returns (prioridadesAlt: seq<seq<real>>)
    requires RespuestasAlt(compAlt, nCrit, nAlt) && nAlt > 0
    ensures |prioridadesAlt| == nCrit
    ensures forall j :: 0 <= j < nCrit ==> prioridadesAlt[j] == PrioridadAlt(compAlt[j], nAlt)
  {
    prioridadesAlt := [];
    for j := 0 to nCrit
      invariant |prioridadesAlt| == j
      invariant forall k :: 0 <= k < j ==> prioridadesAlt[k] == PrioridadAlt(compAlt[k], nAlt)
    {
      var matAlt := LlenarMatrizPareada(compAlt[j], nAlt);
      Reciprocidad(compAlt[j], nAlt);
      AhpPrioridadesPositivas(matAlt);
      var prio := AhpNormalizarMatriz(matAlt);
      prioridadesAlt := prioridadesAlt + [prio];
    }
  }

  /** The priorities of the alternatives fit the global score: one row per criterion with
      an entry for every alternative. */
  predicate PrioridadesTabla(prioridadesAlt: seq<seq<real>>, nCrit: nat, nAlt: nat)
  {
    Tabla(prioridadesAlt, nCrit, nAlt)
  }

  /** `prioridades_crit[j] * prioridades_alt[j][i]` for every criterion j. */
  function Aportes(pc: seq<real>, pa: seq<seq<real>>, nCrit: nat, i: nat): (t: seq<real>)
    requires |pc| >= nCrit && PrioridadesTabla(pa, nCrit, i + 1)
    ensures |t| == nCrit && forall j :: 0 <= j < nCrit ==> t[j] == pc[j] * pa[j][i]
  {
    seq(nCrit, j requires 0 <= j < nCrit && PrioridadesTabla(pa, nCrit, i + 1) => pc[j] * pa[j][i])
  }

  /** The unrounded global score of every alternative. */
  function ScoresGlobales(pc: seq<real>, pa: seq<seq<real>>, nCrit: nat, nAlt: nat): (s: seq<real>)
    requires |pc| >= nCrit && PrioridadesTabla(pa, nCrit, nAlt)
    ensures |s| == nAlt && forall i :: 0 <= i < nAlt ==> s[i] == Sum(Aportes(pc, pa, nCrit, i))
  {
    seq(nAlt, i requires 0 <= i < nAlt && PrioridadesTabla(pa, nCrit, nAlt) => Sum(Aportes(pc, pa, nCrit, i)))
  }

  /** The score loop and the ranking of `ejecutar_ahp`: one global score per alternative and
      the stable descending ranking of the alternatives by score. */
  method CalcularScores(pc: seq<real>, pa: seq<seq<real>>, nCrit: nat, nAlt: nat)
    returns (scores: seq<real>, ranking: seq<nat>)
    requires |pc| >= nCrit && PrioridadesTabla(pa, nCrit, nAlt)
    ensures scores == ScoresGlobales(pc, pa, nCrit, nAlt)
    ensures StableRanking(scores, ranking)
  {
    scores := [];
    for i := 0 to nAlt
      invariant |scores| == i
      invariant forall k :: 0 <= k < i ==> scores[k] == Sum(Aportes(pc, pa, nCrit, k))
    {
      var score := Sum(Aportes(pc, pa, nCrit, i));
      scores := scores + [score];
    }
    ranking := RankDescending(scores);
  }

  /** The contributions as a matrix: one row per alternative, one column per criterion. */
  function MatrizAportes(pc: seq<real>, pa: seq<seq<real>>, nCrit: nat, nAlt: nat): (b: seq<seq<real>>)
    requires |pc| >= nCrit && PrioridadesTabla(pa, nCrit, nAlt)
    ensures |b| == nAlt && forall i :: 0 <= i < nAlt ==> b[i] == Aportes(pc, pa, nCrit, i)
  {
    seq(nAlt, i requires 0 <= i < nAlt && PrioridadesTabla(pa, nCrit, nAlt) => Aportes(pc, pa, nCrit, i))
  }

  /** Column j of the contributions adds up to the criterion's priority times the sum of the
      alternatives' priorities under it. */
  lemma ColumnaAportes(pc: seq<real>, pa: seq<seq<real>>, nCrit: nat, nAlt: nat, j: nat)
    requires |pc| >= nCrit && |pa| >= nCrit && forall k :: 0 <= k < nCrit ==> |pa[k]| == nAlt
    requires j < nCrit
    ensures Tabla(MatrizAportes(pc, pa, nCrit, nAlt), nAlt, j + 1)
    ensures Sum(Columna(MatrizAportes(pc, pa, nCrit, nAlt), nAlt, j)) == pc[j] * Sum(pa[j])
  {
    var b := MatrizAportes(pc, pa, nCrit, nAlt);
    SumTimes(pa[j], Columna(b, nAlt, j), pc[j]);
  }

  /** With criteria priorities summing to 1 and every criterion's alternative priorities
      summing to 1, the global scores sum to 1. */
  lemma ScoresSuman(pc: seq<real>, pa: seq<seq<real>>, nCrit: nat, nAlt: nat)
    requires |pc| == nCrit && |pa| == nCrit && forall j :: 0 <= j < nCrit ==> |pa[j]| == nAlt
    requires Sum(pc) == 1.0 && forall j :: 0 <= j < nCrit ==> Sum(pa[j]) == 1.0
    ensures Sum(ScoresGlobales(pc, pa, nCrit, nAlt)) == 1.0
  {
    var b := MatrizAportes(pc, pa, nCrit, nAlt);
    Intercambio(b, nCrit);
    var filas := SumasFilas(b);
    assert filas == ScoresGlobales(pc, pa, nCrit, nAlt);
    var cols := SumasColumnas(b, nCrit);
    forall j | 0 <= j < nCrit ensures cols[j] == pc[j] {
      ColumnaAportes(pc, pa, nCrit, nAlt, j);
      MulUno(pc[j], Sum(pa[j]));
    }
    Iguales(cols, pc);
  }

  /** Two sequences that agree at every index are equal. */
  lemma Iguales(s: seq<real>, t: seq<real>)
    requires |s| == |t| && forall k :: 0 <= k < |s| ==> s[k] == t[k]
    ensures s == t
  {
  }

  /** Non-negative priorities give a non-negative score. */
  lemma ScoreNoNegativo(pc: seq<real>, pa: seq<seq<real>>, nCrit: nat, i: nat)
    requires |pc| >= nCrit && PrioridadesTabla(pa, nCrit, i + 1)
    requires forall j :: 0 <= j < nCrit ==> pc[j] >= 0.0 && pa[j][i] >= 0.0
    ensures Sum(Aportes(pc, pa, nCrit, i)) >= 0.0
  {
    var t := Aportes(pc, pa, nCrit, i);
    forall j | 0 <= j < nCrit ensures t[j] >= 0.0 {
      MulNoNegativo(pc[j], pa[j][i]);
    }
    NonNegSum(t);
  }

  /** Positive priorities over at least one criterion give a positive score. */
  lemma ScorePositivo(pc: seq<real>, pa: seq<seq<real>>, nCrit: nat, i: nat)
    requires |pc| >= nCrit && PrioridadesTabla(pa, nCrit, i + 1) && nCrit > 0
    requires forall j :: 0 <= j < nCrit ==> pc[j] > 0.0 && pa[j][i] > 0.0
    ensures Sum(Aportes(pc, pa, nCrit, i)) > 0.0
  {
    var t := Aportes(pc, pa, nCrit, i);
    forall j | 0 <= j < nCrit ensures t[j] > 0.0 {
      MulPositivo(pc[j], pa[j][i]);
    }
    SumPositiva(t);
  }

  lemma DivPositivo(x: real, y: real)
    requires x > 0.0 && y > 0.0
    ensures x / y > 0.0
  {
  }

  lemma MulNoNegativo(x: real, y: real)
    requires x >= 0.0 && y >= 0.0
    ensures x * y >= 0.0
  {
  }

  lemma MulPositivo(x: real, y: real)
    requires x > 0.0 && y > 0.0
    ensures x * y > 0.0
  {
  }

  /** Non-negative priorities whose sums are 1 give global scores in [0,1]. */
  lemma ScoresAcotados(pc: seq<real>, pa: seq<seq<real>>, nCrit: nat, nAlt: nat, i: nat)
    requires |pc| == nCrit && |pa| == nCrit && forall j :: 0 <= j < nCrit ==> |pa[j]| == nAlt
    requires Sum(pc) == 1.0 && forall j :: 0 <= j < nCrit ==> Sum(pa[j]) == 1.0
    requires (forall j :: 0 <= j < nCrit ==> pc[j] >= 0.0)
    requires forall j, k :: 0 <= j < nCrit && 0 <= k < nAlt ==> pa[j][k] >= 0.0
    requires i < nAlt
    ensures 0.0 <= ScoresGlobales(pc, pa, nCrit, nAlt)[i] <= 1.0
  {
    var s := ScoresGlobales(pc, pa, nCrit, nAlt);
    ScoresSuman(pc, pa, nCrit, nAlt);
    forall k | 0 <= k < nAlt ensures s[k] >= 0.0 {
      ScoreNoNegativo(pc, pa, nCrit, k);
    }
    SumElement(s, i);
  }

  /** The whole console run on positive answers: the criteria priorities and every
      criterion's alternative priorities are positive and sum to 1, so every global score is
      positive, at most 1, and the scores sum to 1. */
  lemma AhpCompleto(compCrit: seq<seq<real>>, compAlt: seq<seq<seq<real>>>, nCrit: nat, nAlt: nat)
    requires Respuestas(compCrit, nCrit) && RespuestasAlt(compAlt, nCrit, nAlt)
    requires nCrit > 0 && nAlt > 0
    ensures var mc := MatrizPareada(compCrit, nCrit);
      && Cuadrada(mc) && ColumnasNoNulas(mc)
      && var pc := AhpNormalizarMatriz(mc);
      && var pa := seq(nCrit, j requires 0 <= j < nCrit => PrioridadAlt(compAlt[j], nAlt));
      && var s := ScoresGlobales(pc, pa, nCrit, nAlt);
      && Sum(s) == 1.0 && forall i :: 0 <= i < nAlt ==> 0.0 < s[i] <= 1.0
  {
    var mc := MatrizPareada(compCrit, nCrit);
    Reciprocidad(compCrit, nCrit);
    AhpPrioridadesPositivas(mc);
    var pc := AhpNormalizarMatriz(mc);
    var pa := seq(nCrit, j requires 0 <= j < nCrit => PrioridadAlt(compAlt[j], nAlt));
    assert PrioridadesTabla(pa, nCrit, nAlt);
    var s := ScoresGlobales(pc, pa, nCrit, nAlt);
    ScoresSuman(pc, pa, nCrit, nAlt);
    forall i | 0 <= i < nAlt ensures 0.0 < s[i] <= 1.0 {
      ScorePositivo(pc, pa, nCrit, i);
      ScoresAcotados(pc, pa, nCrit, nAlt, i);
    }
  }
}
