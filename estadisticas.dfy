/** Summary statistics of the simulated scores (calcular_estadisticas) and the risk label
    (clasificar_riesgo). The spread is kept as the population variance, the square of numpy's
    default standard deviation; percentiles follow numpy's default linear interpolation. */
module Estadisticas {
  import opened Common
  import opened Sorting

  datatype Riesgo = Bajo | Medio | Alto

  /** The statistics record: mean, spread, 5th and 95th percentiles, extremes and the scores. */
  datatype Resumen = Resumen(media: real, varianza: real, percentil5: real, percentil95: real,
                             minimo: real, maximo: real, scores: seq<real>)

  /** `np.mean`. */
  function Media(s: seq<real>): (m: real)
    requires |s| > 0
    ensures SeqMin(s) <= m <= SeqMax(s)
  {
    SumBounds(s, SeqMin(s), SeqMax(s));
    DivAcotada(Sum(s), |s| as real, SeqMin(s), SeqMax(s));
    Sum(s) / |s| as real
  }

  /** x / n lies in [lo, hi] when n·lo <= x <= n·hi and n > 0. */
  lemma DivAcotada(x: real, n: real, lo: real, hi: real)
    requires n > 0.0 && n * lo <= x <= n * hi
    ensures lo <= x / n <= hi
  {
    var q := x / n;
    assert q * n == x;
    assert (q - lo) * n == x - n * lo;
    assert (hi - q) * n == n * hi - x;
  }

  /** The squared deviations from m. */
  function Cuadrados(s: seq<real>, m: real): (r: seq<real>)
    ensures |r| == |s| && forall k :: 0 <= k < |s| ==> r[k] == (s[k] - m) * (s[k] - m) && r[k] >= 0.0
  {
    seq(|s|, k requires 0 <= k < |s| => (s[k] - m) * (s[k] - m))
  }

  /** The population variance: the mean squared deviation from the mean. */
  function Varianza(s: seq<real>): (v: real)
    requires |s| > 0
    ensures v >= 0.0
  {
    var c := Cuadrados(s, Media(s));
    NonNegSum(c);
    CocienteNoNegativo(Sum(c), |s| as real);
    Sum(c) / |s| as real
  }

  lemma CocienteNoNegativo(x: real, n: real)
    requires x >= 0.0 && n > 0.0
    ensures x / n >= 0.0
  {
  }

  function Reverso(t: seq<real>): (r: seq<real>)
    ensures |r| == |t| && forall k :: 0 <= k < |t| ==> r[k] == t[|t| - 1 - k]
  {
    seq(|t|, k requires 0 <= k < |t| => t[|t| - 1 - k])
  }

  lemma {:induction false} ReversoMultiset(t: seq<real>)
    ensures multiset(Reverso(t)) == multiset(t)
  {
    if |t| > 0 {
      var init := t[..|t| - 1];
      ReversoMultiset(init);
      assert Reverso(t) == [t[|t| - 1]] + Reverso(init);
      assert t == init + [t[|t| - 1]];
    }
  }

  /** The sorted copy numpy works on: the same values in non-decreasing order. */
  function Ascendente(s: seq<real>): (a: seq<real>)
    ensures |a| == |s| && multiset(a) == multiset(s)
    ensures forall x, y :: 0 <= x < y < |a| ==> a[x] <= a[y]
  {
    var p := RankDescending(s);
    var t := Permute(s, p);
    PermuteRanked(s, s);
    ReversoMultiset(t);
    assert forall x, y :: 0 <= x < y < |t| ==> t[x] >= t[y];
    Reverso(t)
  }

  /** Every element of the sorted copy lies between the minimum and the maximum. */
  lemma AscendenteAcotado(s: seq<real>)
    requires |s| > 0
    ensures var a := Ascendente(s); forall k :: 0 <= k < |a| ==> SeqMin(s) <= a[k] <= SeqMax(s)
  {
    var a := Ascendente(s);
    forall k | 0 <= k < |a| ensures SeqMin(s) <= a[k] <= SeqMax(s) {
      assert a[k] in multiset(s);
    }
  }

  /** The fractional position of the q-th percentile among n sorted values. */
  function Rango(n: nat, q: real): (r: real)
    requires n > 0 && 0.0 <= q <= 100.0
    ensures 0.0 <= r <= (n - 1) as real
  {
    var m, f := (n - 1) as real, q / 100.0;
    MulUnidad(m, f);
    m * f
  }

  /** The sorted position just below the fractional position r. */
  function Inferior(n: nat, r: real): (i: nat)
    requires 0.0 <= r <= (n - 1) as real
    ensures i < n && i as real <= r < i as real + 1.0
  {
    r.Floor
  }

  /** The sorted position just above, clipped to the last. */
  function Superior(n: nat, i: nat): (j: nat)
    requires i < n
    ensures i <= j < n && j <= i + 1
  {
    if i + 1 < n then i + 1 else n - 1
  }

  /** The point a fraction t of the way from x to y. */
  function Interpolar(x: real, y: real, t: real): (v: real)
    ensures x <= y && 0.0 <= t <= 1.0 ==> x <= v <= y
  {
    MulUnidadSi(y - x, t);
    x + (y - x) * t
  }

  lemma MulUnidadSi(p: real, v: real)
    ensures p >= 0.0 && 0.0 <= v <= 1.0 ==> 0.0 <= p * v <= p
  {
    if p >= 0.0 && 0.0 <= v <= 1.0 {
      MulUnidad(p, v);
    }
  }

  /** Non-decreasing order. */
  predicate Ordenada(a: seq<real>)
  {
    forall x, y :: 0 <= x < y < |a| ==> a[x] <= a[y]
  }

  /** The q-th percentile of the sorted values a: the two values around the fractional
      position q% of the way from the first to the last, interpolated linearly. */
  function PercentilOrdenado(a: seq<real>, q: real): (v: real)
    requires |a| > 0 && 0.0 <= q <= 100.0
    ensures Ordenada(a) ==> a[0] <= v <= a[|a| - 1]
  {
    var r := Rango(|a|, q);
    var i := Inferior(|a|, r);
    var j := Superior(|a|, i);
    Interpolar(a[i], a[j], r - i as real)
  }

  /** The q-th percentile of s, numpy's default: that of the sorted copy. */
  function Percentil(s: seq<real>, q: real): (v: real)
    requires |s| > 0 && 0.0 <= q <= 100.0
    ensures SeqMin(s) <= v <= SeqMax(s)
  {
    var a := Ascendente(s);
    AscendenteAcotado(s);
    PercentilOrdenado(a, q)
  }

  /** A higher percentile is never smaller. */
  lemma PercentilMonotono(s: seq<real>, q1: real, q2: real)
    requires |s| > 0 && 0.0 <= q1 <= q2 <= 100.0
    ensures Percentil(s, q1) <= Percentil(s, q2)
  {
    PercentilOrdenadoMonotono(Ascendente(s), q1, q2);
  }

  lemma PercentilOrdenadoMonotono(a: seq<real>, q1: real, q2: real)
    requires |a| > 0 && Ordenada(a) && 0.0 <= q1 <= q2 <= 100.0
    ensures PercentilOrdenado(a, q1) <= PercentilOrdenado(a, q2)
  {
    var n := |a|;
    var r1, r2 := Rango(n, q1), Rango(n, q2);
    RangoMonotono(n, q1, q2);
    var i1, i2 := Inferior(n, r1), Inferior(n, r2);
    var j1, j2 := Superior(n, i1), Superior(n, i2);
    var t1, t2 := r1 - i1 as real, r2 - i2 as real;
    assert a[i1] <= a[j1] && a[i2] <= a[j2];
    if i1 == i2 {
      InterpolarMonotono(a[i1], a[j1], t1, t2);
    } else {
      assert j1 <= i2;
      assert a[j1] <= a[i2];
    }
  }

  lemma RangoMonotono(n: nat, q1: real, q2: real)
    requires n > 0 && 0.0 <= q1 <= q2 <= 100.0
    ensures Rango(n, q1) <= Rango(n, q2)
  {
    var m := (n - 1) as real;
    assert m * (q2 / 100.0) - m * (q1 / 100.0) == m * ((q2 - q1) / 100.0);
    MulUnidad(m, (q2 - q1) / 100.0);
  }

  /** Moving further along the segment from x to y never moves left. */
  lemma InterpolarMonotono(x: real, y: real, t1: real, t2: real)
    requires x <= y && t1 <= t2
    ensures Interpolar(x, y, t1) <= Interpolar(x, y, t2)
  {
    assert (y - x) * t2 - (y - x) * t1 == (y - x) * (t2 - t1);
    MulNoNegativo(y - x, t2 - t1);
  }

  /** calcular_estadisticas: fails on no scores (numpy's min and max refuse an empty array);
      otherwise the minimum, mean and maximum are ordered, the two percentiles lie between the
      extremes in order, and the spread is non-negative. */
  function CalcularEstadisticas(s: seq<real>): (r: Result<Resumen>)
    ensures r.Err? <==> |s| == 0
    ensures r.Err? ==> r.error == EmptySequence
    ensures r.Ok? ==> r.value.scores == s
    ensures r.Ok? ==> r.value.minimo in s && r.value.maximo in s
    ensures r.Ok? ==> forall k :: 0 <= k < |s| ==> r.value.minimo <= s[k] <= r.value.maximo
    ensures r.Ok? ==> r.value.minimo <= r.value.media <= r.value.maximo
    ensures r.Ok? ==> r.value.minimo <= r.value.percentil5 <= r.value.percentil95 <= r.value.maximo
    ensures r.Ok? ==> r.value.varianza >= 0.0
  {
    if |s| == 0 then Err(EmptySequence)
    else
      PercentilMonotono(s, 5.0, 95.0);
      Ok(Resumen(Media(s), Varianza(s), Percentil(s, 5.0), Percentil(s, 95.0), SeqMin(s), SeqMax(s), s))
  }

  /** clasificar_riesgo, on the standard deviation. */
  function ClasificarRiesgo(desviacion: real): (r: Riesgo)
    ensures r == Bajo <==> desviacion < 0.08
    ensures r == Medio <==> 0.08 <= desviacion < 0.15
    ensures r == Alto <==> 0.15 <= desviacion
  {
    if desviacion < 0.08 then Bajo
    else if desviacion < 0.15 then Medio
    else Alto
  }

  function Nivel(r: Riesgo): nat
  {
    match r
    case Bajo => 0
    case Medio => 1
    case Alto => 2
  }

  /** More spread never lowers the label. */
  lemma RiesgoMonotono(d1: real, d2: real)
    requires d1 <= d2
    ensures Nivel(ClasificarRiesgo(d1)) <= Nivel(ClasificarRiesgo(d2))
  {
  }

  /** The same label read off the variance: the thresholds squared. */
  function RiesgoDeVarianza(varianza: real): (r: Riesgo)
    ensures r == Bajo <==> varianza < 0.0064
    ensures r == Alto <==> 0.0225 <= varianza
  {
    if varianza < 0.0064 then Bajo
    else if varianza < 0.0225 then Medio
    else Alto
  }

  /** For a standard deviation d >= 0, classifying its square d·d against the squared
      thresholds gives the label of d. */
  lemma RiesgoDeVarianzaCoincide(d: real)
    requires d >= 0.0
    ensures RiesgoDeVarianza(d * d) == ClasificarRiesgo(d)
  {
    Cuadrado(d, 0.08);
    Cuadrado(d, 0.15);
  }

  /** For non-negative d and t, d < t exactly when d·d < t·t. */
  lemma Cuadrado(d: real, t: real)
    requires d >= 0.0 && t >= 0.0
    ensures d < t <==> d * d < t * t
  {
    assert d * d - t * t == (d - t) * (d + t);
    if d < t {
      MulPositivo(t - d, d + t);
    } else {
      MulNoNegativo(d - t, d + t);
    }
  }

  lemma MulPositivo(a: real, b: real)
    requires a > 0.0 && b > 0.0
    ensures a * b > 0.0
  {
  }

  lemma MulNoNegativo(a: real, b: real)
    requires a >= 0.0 && b >= 0.0
    ensures a * b >= 0.0
  {
  }

  /** Scores that all equal c have c as minimum, mean, maximum and both percentiles, no spread,
      and the label BAJO. */
  lemma EstadisticasConstantes(s: seq<real>, c: real)
    requires |s| > 0 && forall k :: 0 <= k < |s| ==> s[k] == c
    ensures var r := CalcularEstadisticas(s).value;
      && r.minimo == c && r.media == c && r.maximo == c
      && r.percentil5 == c && r.percentil95 == c
      && r.varianza == 0.0 && RiesgoDeVarianza(r.varianza) == Bajo
  {
    var lo, hi := SeqMin(s), SeqMax(s);
    assert lo == c && hi == c by {
      assert lo in s && hi in s;
    }
    VarianzaConstante(s, c);
  }

  /** Scores that all equal the mean have no spread. */
  lemma VarianzaConstante(s: seq<real>, c: real)
    requires |s| > 0 && forall k :: 0 <= k < |s| ==> s[k] == c
    requires Media(s) == c
    ensures Varianza(s) == 0.0
  {
    CuadradosNulos(s, c);
    SumConstant(Cuadrados(s, c), 0.0);
  }

  /** No value differs from m, so every squared deviation is 0. */
  lemma CuadradosNulos(s: seq<real>, m: real)
    requires forall k :: 0 <= k < |s| ==> s[k] == m
    ensures forall k :: 0 <= k < |s| ==> Cuadrados(s, m)[k] == 0.0
  {
    forall k | 0 <= k < |s| ensures Cuadrados(s, m)[k] == 0.0 {
      assert Cuadrados(s, m)[k] == (s[k] - m) * (s[k] - m);
    }
  }
}
