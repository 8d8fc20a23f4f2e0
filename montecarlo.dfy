/** The Monte Carlo layer (montecarlo.py): global ranges over the interval endpoints, the
    per-iteration weighted score of an alternative over given draws, the win probability of
    every alternative, and the overall run that picks the winner by mean score. The random
    draws are an input: draws[c][k] is the k-th draw of criterion c. */
module MonteCarlo {
  import opened Common
  import opened Records
  import opened Estadisticas
  import AhpWsm

  // ----- calcular_rangos_globales -----

  /** `todos_los_valores` for one criterion: every alternative's `_Min` then `_Max` value, or
      the first column that is missing. */
  function Extremos(alts: seq<Alternativa>, nombre: string): (r: Result<seq<real>>)
    ensures r.Ok? <==> forall a :: 0 <= a < |alts| ==> TieneIntervalo(alts[a], nombre)
    ensures r.Ok? ==> |r.value| == 2 * |alts|
    ensures r.Ok? ==> forall a :: 0 <= a < |alts| ==>
      r.value[2 * a] == alts[a].campos[ColMin(nombre)] && r.value[2 * a + 1] == alts[a].campos[ColMax(nombre)]
  {
    if |alts| == 0 then Ok([])
    else
      var init, alt := alts[..|alts| - 1], alts[|alts| - 1];
      match Extremos(init, nombre)
      case Err(e) => Err(e)
      case Ok(vs) =>
        if ColMin(nombre) !in alt.campos then Err(MissingKey(ColMin(nombre)))
        else if ColMax(nombre) !in alt.campos then Err(MissingKey(ColMax(nombre)))
        else
          var r := vs + [alt.campos[ColMin(nombre)], alt.campos[ColMax(nombre)]];
          assert forall a :: 0 <= a < |init| ==> r[2 * a] == vs[2 * a] && r[2 * a + 1] == vs[2 * a + 1];
          Ok(r)
  }

  /** `rangos`: for every criterion, the smallest and the largest endpoint over all
      alternatives with the criterion's direction; the first missing column, or no alternatives
      at all (min() of an empty list), is an error. */
  function RangosMC(alts: seq<Alternativa>, cs: seq<Criterio>): (r: Result<map<string, Rango>>)
    ensures r.Ok? <==> |cs| == 0 || (|alts| > 0 && forall i, a :: 0 <= i < |cs| && 0 <= a < |alts| ==> TieneIntervalo(alts[a], cs[i].nombre))
    ensures |cs| > 0 && |alts| == 0 ==> r == Err(EmptySequence)
    ensures r.Ok? ==> forall k :: k in r.value <==> k in NombresCriterios(cs)
  {
    if |cs| == 0 then Ok(map[])
    else
      var init, c := cs[..|cs| - 1], cs[|cs| - 1];
      assert NombresCriterios(cs) == NombresCriterios(init) + [c.nombre];
      match RangosMC(alts, init)
      case Err(e) => Err(e)
      case Ok(m) =>
        match Extremos(alts, c.nombre)
        case Err(e) => Err(e)
        case Ok(vs) =>
          if |vs| == 0 then Err(EmptySequence)
          else Ok(m[c.nombre := Rango(SeqMin(vs), SeqMax(vs), c.tipo)])
  }

  /** Once a prefix of the alternatives lacks a column, the whole list fails the same way. */
  lemma {:induction false} ExtremosPrefijo(alts: seq<Alternativa>, nombre: string, a: nat)
    requires a <= |alts| && Extremos(alts[..a], nombre).Err?
    ensures Extremos(alts, nombre).Err? && Extremos(alts, nombre).error == Extremos(alts[..a], nombre).error
  {
    if a < |alts| {
      var init := alts[..|alts| - 1];
      assert init[..a] == alts[..a];
      ExtremosPrefijo(init, nombre, a);
    } else {
      assert alts[..a] == alts;
    }
  }

  /** Once a prefix of the criteria fails, the whole list fails the same way. */
  lemma {:induction false} RangosMCPrefijo(alts: seq<Alternativa>, cs: seq<Criterio>, i: nat)
    requires i <= |cs| && RangosMC(alts, cs[..i]).Err?
    ensures RangosMC(alts, cs).Err? && RangosMC(alts, cs).error == RangosMC(alts, cs[..i]).error
  {
    if i < |cs| {
      var cm := cs[..|cs| - 1];
      assert cm[..i] == cs[..i];
      RangosMCPrefijo(alts, cm, i);
    } else {
      assert cs[..i] == cs;
    }
  }

  /** calcular_rangos_globales: one pass over the alternatives per criterion. */
  method CalcularRangosGlobales(alts: seq<Alternativa>, cs: seq<Criterio>) returns (r: Result<map<string, Rango>>)
    ensures r == RangosMC(alts, cs)
  {
    var rangos: map<string, Rango> := map[];
    for i := 0 to |cs|
      invariant RangosMC(alts, cs[..i]) == Ok(rangos)
    {
      assert cs[..i + 1][..i] == cs[..i];
      var nombre, tipo := cs[i].nombre, cs[i].tipo;
      var todos: seq<real> := [];
      for a := 0 to |alts|
        invariant Extremos(alts[..a], nombre) == Ok(todos)
      {
        assert alts[..a + 1][..a] == alts[..a];
        if ColMin(nombre) !in alts[a].campos {
          ExtremosPrefijo(alts, nombre, a + 1);
          RangosMCPrefijo(alts, cs, i + 1);
          return Err(MissingKey(ColMin(nombre)));
        }
        var lo := alts[a].campos[ColMin(nombre)];
        if ColMax(nombre) !in alts[a].campos {
          ExtremosPrefijo(alts, nombre, a + 1);
          RangosMCPrefijo(alts, cs, i + 1);
          return Err(MissingKey(ColMax(nombre)));
        }
        todos := todos + [lo, alts[a].campos[ColMax(nombre)]];
      }
      assert alts[..|alts|] == alts;
      if |todos| == 0 {
        RangosMCPrefijo(alts, cs, i + 1);
        return Err(EmptySequence);
      }
      rangos := rangos[nombre := Rango(SeqMin(todos), SeqMax(todos), tipo)];
    }
    assert cs[..|cs|] == cs;
    r := Ok(rangos);
  }

  /** Both endpoints of every alternative lie within the global range of every criterion. */
  lemma {:induction false} RangosMCContienen(alts: seq<Alternativa>, cs: seq<Criterio>, i: nat, a: nat)
    requires RangosMC(alts, cs).Ok? && i < |cs| && a < |alts|
    ensures var rg := RangosMC(alts, cs).value; var n := cs[i].nombre;
      && n in rg && TieneIntervalo(alts[a], n)
      && rg[n].min <= alts[a].campos[ColMin(n)] <= rg[n].max
      && rg[n].min <= alts[a].campos[ColMax(n)] <= rg[n].max
  {
    var init := cs[..|cs| - 1];
    var n := cs[i].nombre;
    if i < |cs| - 1 && n != cs[|cs| - 1].nombre {
      RangosMCContienen(alts, init, i, a);
    } else {
      var vs := Extremos(alts, n).value;
      assert vs[2 * a] == alts[a].campos[ColMin(n)];
      assert vs[2 * a + 1] == alts[a].campos[ColMax(n)];
    }
  }

  /** Each range keeps the direction of the last criterion with its name. */
  lemma {:induction false} RangosMCTipo(alts: seq<Alternativa>, cs: seq<Criterio>, i: nat)
    requires RangosMC(alts, cs).Ok? && i < |cs|
    requires forall j :: i < j < |cs| ==> cs[j].nombre != cs[i].nombre
    ensures cs[i].nombre in RangosMC(alts, cs).value && RangosMC(alts, cs).value[cs[i].nombre].tipo == cs[i].tipo
  {
    if i < |cs| - 1 {
      RangosMCTipo(alts, cs[..|cs| - 1], i);
    }
  }

  // ----- normalizar_valor -----

  /** normalizar_valor is the same scaling as normalizar_valores; over a proper range it
      preserves the order of values for a maximising criterion and reverses it for a
      minimising one. */
  lemma NormalizarValorMonotono(x: real, y: real, minimo: real, maximo: real, tipo: string)
    requires minimo < maximo && x <= y
    ensures var nx, ny := AhpWsm.NormalizarValores(x, minimo, maximo, tipo), AhpWsm.NormalizarValores(y, minimo, maximo, tipo);
      if EsMinimizar(tipo) then ny <= nx else nx <= ny
  {
    var d := maximo - minimo;
    var a, b := (x - minimo) / d, (y - minimo) / d;
    assert a * d == x - minimo && b * d == y - minimo;
    assert (b - a) * d == y - x;
    if b < a {
      MulPositivo(a - b, d);
      assert false;
    }
    Escala(x, minimo, maximo);
    Escala(y, minimo, maximo);
  }

  // ----- simular_alternativa -----

  /** The draws of one alternative: m criteria, n iterations each. */
  ghost predicate Sorteos(draws: seq<seq<real>>, m: nat, n: nat)
  {
    |draws| == m && forall i :: 0 <= i < m ==> |draws[i]| == n
  }

  /** The first lookup of criterion c that fails, in the order simular_alternativa makes them:
      the alternative's `_Min` and `_Max`, the global range, then the weight. */
  function Falta(alt: Alternativa, c: Criterio, pesos: map<string, real>, rangos: map<string, Rango>): (r: Option<Error>)
    ensures r == None <==> TieneIntervalo(alt, c.nombre) && c.nombre in rangos && c.nombre in pesos
  {
    if ColMin(c.nombre) !in alt.campos then Some(MissingKey(ColMin(c.nombre)))
    else if ColMax(c.nombre) !in alt.campos then Some(MissingKey(ColMax(c.nombre)))
    else if c.nombre !in rangos then Some(MissingKey(c.nombre))
    else if c.nombre !in pesos then Some(MissingKey(c.nombre))
    else None
  }

  /** No lookup fails for any criterion of the alternative. */
  ghost predicate SinFalta(alt: Alternativa, cs: seq<Criterio>, pesos: map<string, real>, rangos: map<string, Rango>)
  {
    forall i :: 0 <= i < |cs| ==> Falta(alt, cs[i], pesos, rangos) == None
  }

  lemma SinFaltaUltimo(alt: Alternativa, cs: seq<Criterio>, pesos: map<string, real>, rangos: map<string, Rango>)
    requires |cs| > 0
    ensures SinFalta(alt, cs, pesos, rangos)
      <==> SinFalta(alt, cs[..|cs| - 1], pesos, rangos) && Falta(alt, cs[|cs| - 1], pesos, rangos) == None
  {
    assert forall i :: 0 <= i < |cs| - 1 ==> cs[..|cs| - 1][i] == cs[i];
  }

  /** Criterion c's contribution to one iteration: its weight times the drawn value normalised
      over the global range, in the range's direction. */
  function Termino(c: Criterio, pesos: map<string, real>, rangos: map<string, Rango>, x: real): real
    requires c.nombre in rangos && c.nombre in pesos
  {
    var rg := rangos[c.nombre];
    pesos[c.nombre] * AhpWsm.NormalizarValores(x, rg.min, rg.max, rg.tipo)
  }

  /** Every criterion's contribution to iteration k. */
  function Terminos(cs: seq<Criterio>, pesos: map<string, real>, rangos: map<string, Rango>,
                    draws: seq<seq<real>>, k: nat): (r: seq<real>)
    requires |draws| == |cs| && forall i :: 0 <= i < |cs| ==> k < |draws[i]|
    requires forall i :: 0 <= i < |cs| ==> cs[i].nombre in rangos && cs[i].nombre in pesos
    ensures |r| == |cs| && forall i :: 0 <= i < |cs| ==> r[i] == Termino(cs[i], pesos, rangos, draws[i][k])
  {
    seq(|cs|, i requires 0 <= i < |cs| => Termino(cs[i], pesos, rangos, draws[i][k]))
  }

  /** The n simulated scores of one alternative, or the first failing lookup. Starting from
      zeros, each criterion adds its weighted normalised draws. */
  function ScoresSim(alt: Alternativa, cs: seq<Criterio>, pesos: map<string, real>,
                     rangos: map<string, Rango>, draws: seq<seq<real>>, n: nat): (r: Result<seq<real>>)
    requires Sorteos(draws, |cs|, n)
    ensures r.Ok? ==> |r.value| == n
  {
    if |cs| == 0 then Ok(seq(n, k => 0.0))
    else
      var i := |cs| - 1;
      match ScoresSim(alt, cs[..i], pesos, rangos, draws[..i], n)
      case Err(e) => Err(e)
      case Ok(s) =>
        match Falta(alt, cs[i], pesos, rangos)
        case Some(e) => Err(e)
        case None =>
          Ok(SumarCriterio(s, cs[i], pesos, rangos, draws[i]))
  }

  /** The simulation of an alternative completes exactly when none of its lookups fails. */
  lemma {:induction false} ScoresSimOk(alt: Alternativa, cs: seq<Criterio>, pesos: map<string, real>,
                                       rangos: map<string, Rango>, draws: seq<seq<real>>, n: nat)
    requires Sorteos(draws, |cs|, n)
    ensures ScoresSim(alt, cs, pesos, rangos, draws, n).Ok? <==> SinFalta(alt, cs, pesos, rangos)
  {
    if |cs| > 0 {
      var i := |cs| - 1;
      SorteosPrefijo(draws, |cs|, n, i);
      ScoresSimOk(alt, cs[..i], pesos, rangos, draws[..i], n);
      SinFaltaUltimo(alt, cs, pesos, rangos);
    }
  }

  /** Iteration k's simulated score is the sum over the criteria of weight times normalised
      draw. */
  lemma {:induction false} ScoresSimSuma(alt: Alternativa, cs: seq<Criterio>, pesos: map<string, real>,
                                         rangos: map<string, Rango>, draws: seq<seq<real>>, n: nat, k: nat)
    requires Sorteos(draws, |cs|, n) && ScoresSim(alt, cs, pesos, rangos, draws, n).Ok? && k < n
    ensures SinFalta(alt, cs, pesos, rangos)
    ensures ScoresSim(alt, cs, pesos, rangos, draws, n).value[k] == Sum(Terminos(cs, pesos, rangos, draws, k))
  {
    if |cs| > 0 {
      var m := |cs| - 1;
      SorteosPrefijo(draws, |cs|, n, m);
      SimUltimo(alt, cs, pesos, rangos, draws, n);
      ScoresSimSuma(alt, cs[..m], pesos, rangos, draws[..m], n, k);
      TerminosUltimo(cs, pesos, rangos, draws, k);
    }
  }

  /** A completed simulation is the one over all but the last criterion plus its contribution. */
  lemma SimUltimo(alt: Alternativa, cs: seq<Criterio>, pesos: map<string, real>,
                  rangos: map<string, Rango>, draws: seq<seq<real>>, n: nat)
    requires Sorteos(draws, |cs|, n) && |cs| > 0 && ScoresSim(alt, cs, pesos, rangos, draws, n).Ok?
    ensures Sorteos(draws[..|cs| - 1], |cs| - 1, n)
    ensures ScoresSim(alt, cs[..|cs| - 1], pesos, rangos, draws[..|cs| - 1], n).Ok?
    ensures Falta(alt, cs[|cs| - 1], pesos, rangos).None?
    ensures ScoresSim(alt, cs, pesos, rangos, draws, n).value
      == SumarCriterio(ScoresSim(alt, cs[..|cs| - 1], pesos, rangos, draws[..|cs| - 1], n).value,
                       cs[|cs| - 1], pesos, rangos, draws[|cs| - 1])
  {
    SorteosPrefijo(draws, |cs|, n, |cs| - 1);
  }

  /** `scores + peso * valores_norm`: criterion c's contribution added to every iteration. */
  function SumarCriterio(s: seq<real>, c: Criterio, pesos: map<string, real>, rangos: map<string, Rango>,
                         valores: seq<real>): (r: seq<real>)
    requires c.nombre in rangos && c.nombre in pesos && |valores| == |s|
    ensures |r| == |s| && forall k :: 0 <= k < |s| ==> r[k] == s[k] + Termino(c, pesos, rangos, valores[k])
  {
    seq(|s|, k requires 0 <= k < |s| => s[k] + Termino(c, pesos, rangos, valores[k]))
  }

  /** One more criterion either fails its lookups or adds its contribution. */
  lemma SimPaso(alt: Alternativa, cs: seq<Criterio>, pesos: map<string, real>,
                rangos: map<string, Rango>, draws: seq<seq<real>>, n: nat, i: nat)
    requires Sorteos(draws, |cs|, n) && i < |cs|
    requires ScoresSim(alt, cs[..i], pesos, rangos, draws[..i], n).Ok?
    ensures Sorteos(draws[..i + 1], i + 1, n)
    ensures Falta(alt, cs[i], pesos, rangos).Some? ==>
      ScoresSim(alt, cs[..i + 1], pesos, rangos, draws[..i + 1], n) == Err(Falta(alt, cs[i], pesos, rangos).value)
    ensures Falta(alt, cs[i], pesos, rangos).None? ==>
      ScoresSim(alt, cs[..i + 1], pesos, rangos, draws[..i + 1], n)
      == Ok(SumarCriterio(ScoresSim(alt, cs[..i], pesos, rangos, draws[..i], n).value, cs[i], pesos, rangos, draws[i]))
  {
    assert cs[..i + 1][..i] == cs[..i] && draws[..i + 1][..i] == draws[..i];
    assert cs[..i + 1][i] == cs[i] && draws[..i + 1][i] == draws[i];
  }

  lemma TerminosUltimo(cs: seq<Criterio>, pesos: map<string, real>, rangos: map<string, Rango>,
                       draws: seq<seq<real>>, k: nat)
    requires |cs| > 0 && |draws| == |cs| && forall i :: 0 <= i < |cs| ==> k < |draws[i]|
    requires forall i :: 0 <= i < |cs| ==> cs[i].nombre in rangos && cs[i].nombre in pesos
    ensures var i := |cs| - 1;
      Sum(Terminos(cs, pesos, rangos, draws, k))
      == Sum(Terminos(cs[..i], pesos, rangos, draws[..i], k)) + Termino(cs[i], pesos, rangos, draws[i][k])
  {
    var i := |cs| - 1;
    assert Terminos(cs, pesos, rangos, draws, k)[..i] == Terminos(cs[..i], pesos, rangos, draws[..i], k);
  }

  /** simular_alternativa: a zero-filled buffer of n scores, to which every criterion adds
      its weighted normalised draws. */
  method SimularAlternativa(alt: Alternativa, cs: seq<Criterio>, pesos: map<string, real>,
                            rangos: map<string, Rango>, draws: seq<seq<real>>, n: nat)
    returns (r: Result<seq<real>>)
    requires Sorteos(draws, |cs|, n)
    ensures r == ScoresSim(alt, cs, pesos, rangos, draws, n)
  {
    var scores := new real[n](k => 0.0);
    assert scores[..] == seq(n, k => 0.0);
    for i := 0 to |cs|
      invariant ScoresSim(alt, cs[..i], pesos, rangos, draws[..i], n) == Ok(scores[..])
    {
      SimPaso(alt, cs, pesos, rangos, draws, n, i);
      var falta := Falta(alt, cs[i], pesos, rangos);
      if falta.Some? {
        SimPrefijo(alt, cs, pesos, rangos, draws, n, i + 1);
        return Err(falta.value);
      }
      AcumularCriterio(scores, cs[i], pesos, rangos, draws[i]);
    }
    assert cs[..|cs|] == cs && draws[..|cs|] == draws;
    r := Ok(scores[..]);
  }

  /** `scores += peso * valores_norm` for one criterion. */
  method AcumularCriterio(scores: array<real>, c: Criterio, pesos: map<string, real>,
                          rangos: map<string, Rango>, valores: seq<real>)
    requires c.nombre in rangos && c.nombre in pesos && |valores| == scores.Length
    modifies scores
    ensures scores[..] == SumarCriterio(old(scores[..]), c, pesos, rangos, valores)
  {
    var rg, peso := rangos[c.nombre], pesos[c.nombre];
    for k := 0 to scores.Length
      invariant forall j :: 0 <= j < k ==> scores[j] == old(scores[j]) + Termino(c, pesos, rangos, valores[j])
      invariant forall j :: k <= j < scores.Length ==> scores[j] == old(scores[j])
    {
      scores[k] := scores[k] + peso * AhpWsm.NormalizarValores(valores[k], rg.min, rg.max, rg.tipo);
    }
    assert scores[..] == SumarCriterio(old(scores[..]), c, pesos, rangos, valores);
  }

  /** Once a prefix of the criteria fails, the whole simulation fails the same way. */
  lemma {:induction false} SimPrefijo(alt: Alternativa, cs: seq<Criterio>, pesos: map<string, real>,
                                      rangos: map<string, Rango>, draws: seq<seq<real>>, n: nat, i: nat)
    requires Sorteos(draws, |cs|, n) && i <= |cs|
    requires ScoresSim(alt, cs[..i], pesos, rangos, draws[..i], n).Err?
    ensures ScoresSim(alt, cs, pesos, rangos, draws, n).Err?
    ensures ScoresSim(alt, cs, pesos, rangos, draws, n).error == ScoresSim(alt, cs[..i], pesos, rangos, draws[..i], n).error
  {
    if i < |cs| {
      var m := |cs| - 1;
      var cm, dm := cs[..m], draws[..m];
      SorteosPrefijo(draws, |cs|, n, m);
      assert cm[..i] == cs[..i] && dm[..i] == draws[..i];
      SimPrefijo(alt, cm, pesos, rangos, dm, n, i);
    } else {
      assert cs[..i] == cs && draws[..i] == draws;
    }
  }

  lemma SorteosPrefijo(draws: seq<seq<real>>, m: nat, n: nat, i: nat)
    requires Sorteos(draws, m, n) && i <= m
    ensures Sorteos(draws[..i], i, n)
  {
    assert forall x :: 0 <= x < i ==> draws[..i][x] == draws[x];
  }

  /** The weight of every criterion, in criterion order. */
  function PesosSim(cs: seq<Criterio>, pesos: map<string, real>): (r: seq<real>)
    requires forall i :: 0 <= i < |cs| ==> cs[i].nombre in pesos
    ensures |r| == |cs| && forall i :: 0 <= i < |cs| ==> r[i] == pesos[cs[i].nombre]
  {
    seq(|cs|, i requires 0 <= i < |cs| => pesos[cs[i].nombre])
  }

  /** Every draw lies inside the global range of its criterion. */
  ghost predicate DentroDeRangos(cs: seq<Criterio>, rangos: map<string, Rango>, draws: seq<seq<real>>)
  {
    && |draws| == |cs|
    && (forall i :: 0 <= i < |cs| ==> cs[i].nombre in rangos)
    && (forall i, k :: 0 <= i < |cs| && 0 <= k < |draws[i]| ==>
          cs[i].nombre in rangos && rangos[cs[i].nombre].min <= draws[i][k] <= rangos[cs[i].nombre].max)
  }

  /** x lies between a and b, in either order (np.random.uniform accepts low > high). */
  predicate Entre(x: real, a: real, b: real)
  {
    (a <= x <= b) || (b <= x <= a)
  }

  /** Every draw of the alternative lies inside its own `_Min`/`_Max` interval. */
  ghost predicate EnIntervalo(alt: Alternativa, cs: seq<Criterio>, draws: seq<seq<real>>)
  {
    && |draws| == |cs|
    && (forall i :: 0 <= i < |cs| ==> TieneIntervalo(alt, cs[i].nombre))
    && (forall i, k :: 0 <= i < |cs| && 0 <= k < |draws[i]| ==>
          TieneIntervalo(alt, cs[i].nombre)
          && Entre(draws[i][k], alt.campos[ColMin(cs[i].nombre)], alt.campos[ColMax(cs[i].nombre)]))
  }

  /** A draw inside an alternative's interval is inside the global range. */
  lemma RangosContienenSorteos(alts: seq<Alternativa>, cs: seq<Criterio>, a: nat, draws: seq<seq<real>>)
    requires RangosMC(alts, cs).Ok? && a < |alts| && EnIntervalo(alts[a], cs, draws)
    ensures DentroDeRangos(cs, RangosMC(alts, cs).value, draws)
  {
    var rg := RangosMC(alts, cs).value;
    forall i | 0 <= i < |cs| ensures cs[i].nombre in rg {
      RangosMCContienen(alts, cs, i, a);
    }
    forall i, k | 0 <= i < |cs| && 0 <= k < |draws[i]|
      ensures rg[cs[i].nombre].min <= draws[i][k] <= rg[cs[i].nombre].max
    {
      RangosMCContienen(alts, cs, i, a);
    }
  }

  /** With non-negative weights and every draw inside its global range, each simulated score
      lies between 0 and the sum of the criteria's weights. */
  lemma {:induction false} SimAcotado(alt: Alternativa, cs: seq<Criterio>, pesos: map<string, real>,
                   rangos: map<string, Rango>, draws: seq<seq<real>>, n: nat)
    requires Sorteos(draws, |cs|, n) && ScoresSim(alt, cs, pesos, rangos, draws, n).Ok?
    requires forall i :: 0 <= i < |cs| ==> cs[i].nombre in pesos && pesos[cs[i].nombre] >= 0.0
    requires DentroDeRangos(cs, rangos, draws)
    ensures var r := ScoresSim(alt, cs, pesos, rangos, draws, n).value;
      forall k :: 0 <= k < n ==> 0.0 <= r[k] <= Sum(PesosSim(cs, pesos))
  {
    var r := ScoresSim(alt, cs, pesos, rangos, draws, n).value;
    forall k | 0 <= k < n ensures 0.0 <= r[k] <= Sum(PesosSim(cs, pesos)) {
      ScoresSimSuma(alt, cs, pesos, rangos, draws, n, k);
      var t := Terminos(cs, pesos, rangos, draws, k);
      forall i | 0 <= i < |cs| ensures 0.0 <= t[i] <= PesosSim(cs, pesos)[i] {
        TerminoAcotado(cs[i], pesos, rangos, draws[i][k]);
      }
      NonNegSum(t);
      SumPointwise(t, PesosSim(cs, pesos));
    }
  }

  lemma TerminoAcotado(c: Criterio, pesos: map<string, real>, rangos: map<string, Rango>, x: real)
    requires c.nombre in rangos && c.nombre in pesos && pesos[c.nombre] >= 0.0
    requires rangos[c.nombre].min <= x <= rangos[c.nombre].max
    ensures 0.0 <= Termino(c, pesos, rangos, x) <= pesos[c.nombre]
  {
    var rg := rangos[c.nombre];
    var p, v := pesos[c.nombre], AhpWsm.NormalizarValores(x, rg.min, rg.max, rg.tipo);
    assert 0.0 <= v <= 1.0;
    MulUnidad(p, v);
  }

  /** When no criterion's draws vary across iterations (as when every interval has zero width),
      all n simulated scores are equal. */
  lemma {:induction false} SimConstante(alt: Alternativa, cs: seq<Criterio>, pesos: map<string, real>,
                     rangos: map<string, Rango>, draws: seq<seq<real>>, n: nat)
    requires Sorteos(draws, |cs|, n) && n > 0 && ScoresSim(alt, cs, pesos, rangos, draws, n).Ok?
    requires forall i, k :: 0 <= i < |cs| && 0 <= k < n ==> draws[i][k] == draws[i][0]
    ensures var r := ScoresSim(alt, cs, pesos, rangos, draws, n).value;
      forall k :: 0 <= k < n ==> r[k] == r[0]
  {
    ScoresSimSuma(alt, cs, pesos, rangos, draws, n, 0);
    forall k | 0 <= k < n
      ensures ScoresSim(alt, cs, pesos, rangos, draws, n).value[k] == ScoresSim(alt, cs, pesos, rangos, draws, n).value[0]
    {
      ScoresSimSuma(alt, cs, pesos, rangos, draws, n, k);
      assert Terminos(cs, pesos, rangos, draws, k) == Terminos(cs, pesos, rangos, draws, 0);
    }
  }

  // ----- calcular_prob_ganadora -----

  /** Every score list has n entries. */
  ghost predicate Filas(d: seq<Entry<seq<real>>>, n: nat)
  {
    forall i :: 0 <= i < |d| ==> |d[i].val| == n
  }

  /** The scores of every alternative at iteration k: one column of the score matrix. */
  function Columna(d: seq<Entry<seq<real>>>, k: nat): (c: seq<real>)
    requires forall i :: 0 <= i < |d| ==> k < |d[i].val|
    ensures |c| == |d| && forall i :: 0 <= i < |d| ==> c[i] == d[i].val[k]
  {
    seq(|d|, i requires 0 <= i < |d| => d[i].val[k])
  }

  /** `np.argmax(matriz, axis=0)`: at each iteration, the first alternative with the highest
      score. */
  function Ganadores(d: seq<Entry<seq<real>>>, n: nat): (g: seq<nat>)
    requires |d| > 0 && Filas(d, n)
    ensures |g| == n
    ensures forall k :: 0 <= k < n ==> g[k] < |d|
    ensures forall k, j :: 0 <= k < n && 0 <= j < |d| ==> d[j].val[k] <= d[g[k]].val[k]
    ensures forall k, j :: 0 <= k < n && 0 <= j < g[k] ==> d[j].val[k] < d[g[k]].val[k]
  {
    seq(n, k requires 0 <= k < n => FirstMaxIndex(Columna(d, k)))
  }

  /** `np.sum(ganadores == i)`: in how many iterations alternative i won. */
  function Conteo(g: seq<nat>, i: nat): (c: nat)
    ensures c <= |g|
  {
    if |g| == 0 then 0 else Conteo(g[..|g| - 1], i) + (if g[|g| - 1] == i then 1 else 0)
  }

  /** The win counts of alternatives 0..m-1. */
  function Conteos(g: seq<nat>, m: nat): (r: seq<real>)
    ensures |r| == m && forall i :: 0 <= i < m ==> r[i] == Conteo(g, i) as real
  {
    seq(m, i requires 0 <= i < m => Conteo(g, i) as real)
  }

  /** Every iteration has exactly one winner, so the win counts add up to the iterations. */
  lemma {:induction false} ConteosTotal(g: seq<nat>, m: nat)
    requires forall k :: 0 <= k < |g| ==> g[k] < m
    ensures Sum(Conteos(g, m)) == |g| as real
  {
    if |g| > 0 {
      var l := |g| - 1;
      ConteosTotal(g[..l], m);
      var antes := Conteos(g[..l], m);
      assert Conteos(g, m) == antes[g[l] := antes[g[l]] + 1.0];
      SumIncrement(antes, g[l]);
    } else {
      SumConstant(Conteos(g, m), 0.0);
    }
  }

  /** An alternative that wins every iteration is counted every time, and the others never. */
  lemma {:induction false} ConteoUnanime(g: seq<nat>, i: nat, j: nat)
    requires forall k :: 0 <= k < |g| ==> g[k] == i
    ensures Conteo(g, i) == |g| && (j != i ==> Conteo(g, j) == 0)
  {
    if |g| > 0 {
      ConteoUnanime(g[..|g| - 1], i, j);
    }
  }

  /** calcular_prob_ganadora: each alternative's share of the iterations it wins. No
      alternatives is an error (the score matrix has no second axis); so are score lists of
      different lengths (numpy cannot stack them). Lists with no iterations give 0/0, a NaN
      share, which has no real value; the model reports that case as an error as well. */
  function ProbGanadora(d: seq<Entry<seq<real>>>): (r: Result<seq<Entry<real>>>)
    ensures |d| == 0 ==> r == Err(EmptyAlternatives)
    ensures r.Ok? <==> |d| > 0 && Filas(d, |d[0].val|) && |d[0].val| > 0
    ensures r.Ok? ==> Keys(r.value) == Keys(d)
    ensures r.Ok? ==> forall i :: 0 <= i < |d| ==> 0.0 <= r.value[i].val <= 1.0
    ensures r.Ok? ==> Sum(Values(r.value)) == 1.0
  {
    if |d| == 0 then Err(EmptyAlternatives)
    else
      var n := |d[0].val|;
      if !(forall i :: 0 <= i < |d| ==> |d[i].val| == n) then Err(UnequalLengths)
      else if n == 0 then Err(EmptySequence)
      else
        var g := Ganadores(d, n);
        var r := seq(|d|, i requires 0 <= i < |d| => Entry(d[i].key, Conteo(g, i) as real / n as real));
        ProbResumen(r, g, |d|, n);
        Ok(r)
  }

  lemma ProbResumen(r: seq<Entry<real>>, g: seq<nat>, m: nat, n: nat)
    requires n > 0 && |g| == n && |r| == m && forall k :: 0 <= k < n ==> g[k] < m
    requires forall i :: 0 <= i < m ==> r[i].val == Conteo(g, i) as real / n as real
    ensures forall i :: 0 <= i < m ==> 0.0 <= r[i].val <= 1.0
    ensures Sum(Values(r)) == 1.0
  {
    var nn := n as real;
    var cs := Conteos(g, m);
    forall i | 0 <= i < m ensures 0.0 <= r[i].val <= 1.0 {
      var c := cs[i];
      assert 0.0 <= c <= nn;
      DivUnidad(c, nn);
    }
    var vs := Values(r);
    assert forall k :: 0 <= k < m ==> vs[k] == cs[k] / nn;
    ConteosTotal(g, m);
    assert Sum(cs) == nn;
    SumScaled(cs, vs, nn);
    Escala(nn, 0.0, nn);
    assert nn / nn == 1.0;
  }

  /** An alternative that strictly beats every other one in every iteration wins with
      probability 1, and every other alternative with probability 0. */
  lemma ProbDominante(d: seq<Entry<seq<real>>>, i: nat)
    requires ProbGanadora(d).Ok? && i < |d|
    requires forall j, k :: 0 <= j < |d| && j != i && 0 <= k < |d[i].val| ==> d[j].val[k] < d[i].val[k]
    ensures var p := ProbGanadora(d).value;
      p[i].val == 1.0 && forall j :: 0 <= j < |d| && j != i ==> p[j].val == 0.0
  {
    var n := |d[0].val|;
    var g := Ganadores(d, n);
    GanadorDominante(d, i);
    var p := ProbGanadora(d).value;
    forall j | 0 <= j < |d| ensures p[j].val == if j == i then 1.0 else 0.0 {
      ConteoUnanime(g, i, j);
      ProbGanadoraValor(d, j);
      Proporcion(Conteo(g, j), n);
    }
  }

  /** The alternative that strictly beats every other one wins every iteration. */
  lemma GanadorDominante(d: seq<Entry<seq<real>>>, i: nat)
    requires ProbGanadora(d).Ok? && i < |d|
    requires forall j, k :: 0 <= j < |d| && j != i && 0 <= k < |d[i].val| ==> d[j].val[k] < d[i].val[k]
    ensures forall k :: 0 <= k < |d[0].val| ==> Ganadores(d, |d[0].val|)[k] == i
  {
    var n := |d[0].val|;
    var g := Ganadores(d, n);
    assert |d[i].val| == n;
    forall k | 0 <= k < n ensures g[k] == i {
      assert d[i].val[k] <= d[g[k]].val[k];
    }
  }

  lemma Proporcion(c: nat, n: nat)
    requires n > 0
    ensures c == n ==> c as real / n as real == 1.0
    ensures c == 0 ==> c as real / n as real == 0.0
  {
  }

  lemma ProbGanadoraValor(d: seq<Entry<seq<real>>>, i: nat)
    requires ProbGanadora(d).Ok? && i < |d|
    ensures ProbGanadora(d).value[i].val == Conteo(Ganadores(d, |d[0].val|), i) as real / |d[0].val| as real
  {
  }

  /** calcular_prob_ganadora, one alternative at a time in dictionary order. */
  method CalcularProbGanadora(d: seq<Entry<seq<real>>>) returns (r: Result<seq<Entry<real>>>)
    ensures r == ProbGanadora(d)
  {
    if |d| == 0 {
      return Err(EmptyAlternatives);
    }
    var n := |d[0].val|;
    for i := 0 to |d|
      invariant forall j :: 0 <= j < i ==> |d[j].val| == n
    {
      if |d[i].val| != n {
        assert !Filas(d, n);
        return Err(UnequalLengths);
      }
    }
    if n == 0 {
      return Err(EmptySequence);
    }
    var ganadores := Ganadores(d, n);
    var probabilidades: seq<Entry<real>> := [];
    for i := 0 to |d|
      invariant |probabilidades| == i
      invariant forall j :: 0 <= j < i ==> probabilidades[j] == Entry(d[j].key, Conteo(ganadores, j) as real / n as real)
    {
      var veces := Conteo(ganadores, i);
      probabilidades := probabilidades + [Entry(d[i].key, veces as real / n as real)];
    }
    assert probabilidades == seq(|d|, i requires 0 <= i < |d| => Entry(d[i].key, Conteo(ganadores, i) as real / n as real));
    r := Ok(probabilidades);
  }

  // ----- simular_todas -----

  /** One alternative's statistics and risk label, before its win probability is added. */
  datatype Estadistica = Estadistica(resumen: Resumen, riesgo: Riesgo)

  /** One alternative's result: statistics, risk label and win probability. */
  datatype ResultadoMC = ResultadoMC(resumen: Resumen, riesgo: Riesgo, probGanar: real)

  /** The winner by mean score and every alternative's result, keyed by name. */
  datatype SalidaMC = SalidaMC(ganador: string, resultados: seq<Entry<ResultadoMC>>)

  /** `scores_todas` and `resultados` as the loop over the alternatives leaves them. */
  datatype Acumulado = Acumulado(scores: seq<Entry<seq<real>>>, stats: seq<Entry<Estadistica>>)

  /** The draws of every alternative: m alternatives, each with c criteria of n iterations. */
  ghost predicate Tiradas(draws: seq<seq<seq<real>>>, m: nat, c: nat, n: nat)
  {
    |draws| == m && forall a :: 0 <= a < m ==> Sorteos(draws[a], c, n)
  }

  /** The two dictionaries have the same keys in the same order, every score list has n entries,
      and each entry's statistics and label are those of the scores stored beside it. */
  ghost predicate Coherente(acc: Acumulado, n: nat)
  {
    && DistinctKeys(acc.scores) && Keys(acc.stats) == Keys(acc.scores)
    && Filas(acc.scores, n)
    && forall j :: 0 <= j < |acc.stats| ==> Resume(acc.scores[j].val, acc.stats[j].val)
  }

  /** e holds the statistics of s and the label of their spread. */
  ghost predicate Resume(s: seq<real>, e: Estadistica)
  {
    CalcularEstadisticas(s) == Ok(e.resumen) && e.riesgo == RiesgoDeVarianza(e.resumen.varianza)
  }

  /** The loop of simular_todas over the alternatives: simulate, store the scores under the
      alternative's name, summarise them and label the risk; the first failure stops it. */
  function Acumular(alts: seq<Alternativa>, cs: seq<Criterio>, pesos: map<string, real>,
                    rangos: map<string, Rango>, draws: seq<seq<seq<real>>>, n: nat): (r: Result<Acumulado>)
    requires Tiradas(draws, |alts|, |cs|, n)
  {
    if |alts| == 0 then Ok(Acumulado([], []))
    else
      var a := |alts| - 1;
      Paso(Acumular(alts[..a], cs, pesos, rangos, draws[..a], n), ScoresSim(alts[a], cs, pesos, rangos, draws[a], n), alts[a].nombre)
  }

  /** One iteration of that loop: an earlier failure stands, then a failed simulation, then an
      empty score list (numpy cannot summarise it); otherwise the alternative is recorded. */
  function Paso(prev: Result<Acumulado>, s: Result<seq<real>>, nombre: string): (r: Result<Acumulado>)
    ensures r.Ok? <==> prev.Ok? && s.Ok? && |s.value| > 0
  {
    match prev
    case Err(e) => Err(e)
    case Ok(acc) =>
      match s
      case Err(e) => Err(e)
      case Ok(v) =>
        if |v| == 0 then Err(EmptySequence)
        else Ok(Agregar(acc, nombre, v))
  }

  /** A completed loop stores scores of length n under every name, the summary of those scores
      under the same names, and at least one entry when there is an alternative. */
  lemma {:induction false} AcumularCoherente(alts: seq<Alternativa>, cs: seq<Criterio>, pesos: map<string, real>,
                                             rangos: map<string, Rango>, draws: seq<seq<seq<real>>>, n: nat)
    requires Tiradas(draws, |alts|, |cs|, n) && Acumular(alts, cs, pesos, rangos, draws, n).Ok?
    ensures Coherente(Acumular(alts, cs, pesos, rangos, draws, n).value, n)
    ensures |Acumular(alts, cs, pesos, rangos, draws, n).value.scores| > 0 <==> |alts| > 0
  {
    if |alts| > 0 {
      var a := |alts| - 1;
      TiradasPrefijo(draws, |alts|, |cs|, n, a);
      AcumularCoherente(alts[..a], cs, pesos, rangos, draws[..a], n);
      var acc := Acumular(alts[..a], cs, pesos, rangos, draws[..a], n).value;
      var s := ScoresSim(alts[a], cs, pesos, rangos, draws[a], n).value;
      assert Acumular(alts, cs, pesos, rangos, draws, n).value == Agregar(acc, alts[a].nombre, s);
      AgregarCoherente(acc, n, alts[a].nombre, s);
    }
  }

  /** The loop completes exactly when no lookup fails and, if there is an alternative, there is
      at least one iteration (numpy cannot summarise no scores). */
  lemma {:induction false} AcumularOk(alts: seq<Alternativa>, cs: seq<Criterio>, pesos: map<string, real>,
                                      rangos: map<string, Rango>, draws: seq<seq<seq<real>>>, n: nat)
    requires Tiradas(draws, |alts|, |cs|, n)
    ensures Acumular(alts, cs, pesos, rangos, draws, n).Ok? <==> (|alts| == 0 || n > 0) && Completo(alts, cs, pesos, rangos)
  {
    if |alts| > 0 {
      var a := |alts| - 1;
      AcumularUltimo(alts, cs, pesos, rangos, draws, n);
      AcumularOk(alts[..a], cs, pesos, rangos, draws[..a], n);
      ScoresSimOk(alts[a], cs, pesos, rangos, draws[a], n);
      CompletoUltimo(alts, cs, pesos, rangos);
    }
  }

  /** No lookup of the simulation fails, for any alternative and criterion. */
  ghost predicate Completo(alts: seq<Alternativa>, cs: seq<Criterio>, pesos: map<string, real>, rangos: map<string, Rango>)
  {
    forall a :: 0 <= a < |alts| ==> SinFalta(alts[a], cs, pesos, rangos)
  }

  lemma CompletoUltimo(alts: seq<Alternativa>, cs: seq<Criterio>, pesos: map<string, real>, rangos: map<string, Rango>)
    requires |alts| > 0
    ensures Completo(alts, cs, pesos, rangos)
      <==> Completo(alts[..|alts| - 1], cs, pesos, rangos) && SinFalta(alts[|alts| - 1], cs, pesos, rangos)
  {
    assert forall a :: 0 <= a < |alts| - 1 ==> alts[..|alts| - 1][a] == alts[a];
  }

  /** One step of the loop: `scores_todas[nombre] = scores`, then `resultados[nombre] = stats`
      with the risk label. */
  function Agregar(acc: Acumulado, nombre: string, s: seq<real>): (r: Acumulado)
    requires |s| > 0
  {
    var res := CalcularEstadisticas(s).value;
    Acumulado(Put(acc.scores, nombre, s), Put(acc.stats, nombre, Estadistica(res, RiesgoDeVarianza(res.varianza))))
  }

  lemma AgregarCoherente(acc: Acumulado, n: nat, nombre: string, s: seq<real>)
    requires Coherente(acc, n) && |s| == n && n > 0
    ensures Coherente(Agregar(acc, nombre, s), n)
    ensures |Agregar(acc, nombre, s).scores| > 0
  {
    var res := CalcularEstadisticas(s).value;
    var e := Estadistica(res, RiesgoDeVarianza(res.varianza));
    assert Resume(s, e);
    PutFilas(acc.scores, nombre, s, n);
    PutResume(acc.scores, acc.stats, nombre, s, e);
    var sc, st := Put(acc.scores, nombre, s), Put(acc.stats, nombre, e);
    assert |sc| == |Keys(sc)|;
    assert Agregar(acc, nombre, s) == Acumulado(sc, st);
  }

  lemma PutFilas(d: seq<Entry<seq<real>>>, k: string, s: seq<real>, n: nat)
    requires Filas(d, n) && |s| == n
    ensures Filas(Put(d, k, s), n)
  {
  }

  lemma PutResume(sc: seq<Entry<seq<real>>>, st: seq<Entry<Estadistica>>, k: string, s: seq<real>, e: Estadistica)
    requires Keys(st) == Keys(sc) && Resume(s, e)
    requires forall j :: 0 <= j < |st| ==> Resume(sc[j].val, st[j].val)
    ensures Keys(Put(st, k, e)) == Keys(Put(sc, k, s))
    ensures forall j :: 0 <= j < |Put(st, k, e)| ==> Resume(Put(sc, k, s)[j].val, Put(st, k, e)[j].val)
  {
    PutAlineado(sc, st, k, s, e);
  }


  /** The alternative's simulated scores, when there are any, have property P. */
  ghost predicate SimCumple(alt: Alternativa, cs: seq<Criterio>, pesos: map<string, real>,
                            rangos: map<string, Rango>, d: seq<seq<real>>, n: nat, P: seq<real> -> bool)
    requires Sorteos(d, |cs|, n)
  {
    ScoresSim(alt, cs, pesos, rangos, d, n).Ok? ==> P(ScoresSim(alt, cs, pesos, rangos, d, n).value)
  }

  /** Every property that each alternative's simulated scores have is shared by every score
      list the loop stores. */
  lemma {:induction false} AcumularTodas(alts: seq<Alternativa>, cs: seq<Criterio>, pesos: map<string, real>,
                                         rangos: map<string, Rango>, draws: seq<seq<seq<real>>>, n: nat,
                                         P: seq<real> -> bool)
    requires Tiradas(draws, |alts|, |cs|, n) && Acumular(alts, cs, pesos, rangos, draws, n).Ok?
    requires forall a :: 0 <= a < |alts| ==> SimCumple(alts[a], cs, pesos, rangos, draws[a], n, P)
    ensures var acc := Acumular(alts, cs, pesos, rangos, draws, n).value;
      forall j :: 0 <= j < |acc.scores| ==> P(acc.scores[j].val)
  {
    if |alts| > 0 {
      var a := |alts| - 1;
      var init, dinit := alts[..a], draws[..a];
      AcumularUltimo(alts, cs, pesos, rangos, draws, n);
      var prev := Acumular(init, cs, pesos, rangos, dinit, n);
      var sim := ScoresSim(alts[a], cs, pesos, rangos, draws[a], n);
      PasoScores(prev, sim, alts[a].nombre);
      CumplenPrefijo(alts, cs, pesos, rangos, draws, n, P);
      AcumularTodas(init, cs, pesos, rangos, dinit, n, P);
      PutTodas(prev.value.scores, alts[a].nombre, sim.value, P);
    }
  }

  /** A recorded step stores the new scores in the scores dictionary. */
  lemma PasoScores(prev: Result<Acumulado>, s: Result<seq<real>>, nombre: string)
    requires Paso(prev, s, nombre).Ok?
    ensures prev.Ok? && s.Ok? && |s.value| > 0
    ensures Paso(prev, s, nombre).value.scores == Put(prev.value.scores, nombre, s.value)
  {
  }

  lemma CumplenPrefijo(alts: seq<Alternativa>, cs: seq<Criterio>, pesos: map<string, real>,
                       rangos: map<string, Rango>, draws: seq<seq<seq<real>>>, n: nat, P: seq<real> -> bool)
    requires Tiradas(draws, |alts|, |cs|, n) && |alts| > 0
    requires forall a :: 0 <= a < |alts| ==> SimCumple(alts[a], cs, pesos, rangos, draws[a], n, P)
    ensures Tiradas(draws[..|alts| - 1], |alts| - 1, |cs|, n)
    ensures var m := |alts| - 1;
      && (forall x :: 0 <= x < m ==> SimCumple(alts[..m][x], cs, pesos, rangos, draws[..m][x], n, P))
      && (ScoresSim(alts[m], cs, pesos, rangos, draws[m], n).Ok? ==> P(ScoresSim(alts[m], cs, pesos, rangos, draws[m], n).value))
  {
    var m := |alts| - 1;
    TiradasPrefijo(draws, |alts|, |cs|, n, m);
    forall x | 0 <= x < m ensures SimCumple(alts[..m][x], cs, pesos, rangos, draws[..m][x], n, P) {
      assert alts[..m][x] == alts[x] && draws[..m][x] == draws[x];
    }
    assert SimCumple(alts[m], cs, pesos, rangos, draws[m], n, P);
  }

  lemma TiradasPrefijo(draws: seq<seq<seq<real>>>, m: nat, c: nat, n: nat, a: nat)
    requires Tiradas(draws, m, c, n) && a <= m
    ensures Tiradas(draws[..a], a, c, n)
  {
    assert forall x :: 0 <= x < a ==> draws[..a][x] == draws[x];
  }

  lemma PutTodas(d: seq<Entry<seq<real>>>, k: string, s: seq<real>, P: seq<real> -> bool)
    requires P(s) && forall j :: 0 <= j < |d| ==> P(d[j].val)
    ensures forall j :: 0 <= j < |Put(d, k, s)| ==> P(Put(d, k, s)[j].val)
  {
    PutAlineado(d, d, k, s, s);
  }

  /** The final results: each alternative's statistics with `prob_ganar` looked up by name. */
  function Completar(stats: seq<Entry<Estadistica>>, probs: seq<Entry<real>>): (r: seq<Entry<ResultadoMC>>)
    requires Keys(probs) == Keys(stats)
    ensures |r| == |stats| && Keys(r) == Keys(stats)
    ensures forall j :: 0 <= j < |stats| ==> r[j].val.resumen == stats[j].val.resumen && r[j].val.riesgo == stats[j].val.riesgo
  {
    seq(|stats|, j requires 0 <= j < |stats| =>
      assert Keys(stats)[j] == stats[j].key;
      Entry(stats[j].key, ResultadoMC(stats[j].val.resumen, stats[j].val.riesgo, Lookup(probs, stats[j].key))))
  }

  function Medias(rs: seq<Entry<ResultadoMC>>): (m: seq<real>)
    ensures |m| == |rs| && forall j :: 0 <= j < |rs| ==> m[j] == rs[j].val.resumen.media
  {
    seq(|rs|, j requires 0 <= j < |rs| => rs[j].val.resumen.media)
  }

  function Probabilidades(rs: seq<Entry<ResultadoMC>>): (p: seq<real>)
    ensures |p| == |rs| && forall j :: 0 <= j < |rs| ==> p[j] == rs[j].val.probGanar
  {
    seq(|rs|, j requires 0 <= j < |rs| => rs[j].val.probGanar)
  }

  /** The winner: the first result, in dictionary order, with the highest mean score. */
  function Escoger(res: seq<Entry<ResultadoMC>>): (o: SalidaMC)
    requires |res| > 0
  {
    SalidaMC(res[FirstMaxIndex(Medias(res))].key, res)
  }

  /** The results have one entry per distinct name, and the winner is the first of them with
      the highest mean score: no result has a higher mean, and every result before it a lower one. */
  ghost predicate GanadorCorrecto(o: SalidaMC)
  {
    && |o.resultados| > 0 && DistinctKeys(o.resultados) && o.ganador in Keys(o.resultados)
    && var g := Find(o.resultados, o.ganador);
       && 0 <= g
       && (forall j :: 0 <= j < |o.resultados| ==> o.resultados[j].val.resumen.media <= o.resultados[g].val.resumen.media)
       && (forall j :: 0 <= j < g ==> o.resultados[j].val.resumen.media < o.resultados[g].val.resumen.media)
  }

  lemma EscogerGanador(res: seq<Entry<ResultadoMC>>)
    requires |res| > 0 && DistinctKeys(res)
    ensures Escoger(res).resultados == res && GanadorCorrecto(Escoger(res))
  {
    var g := FirstMaxIndex(Medias(res));
    FindDistinct(res, g);
    assert Keys(res)[g] == res[g].key;
  }

  /** simular_todas: the global ranges, the loop over the alternatives, the win probabilities
      added to every result, and the winner. */
  function SimularTodasSpec(alts: seq<Alternativa>, cs: seq<Criterio>, pesos: map<string, real>,
                            draws: seq<seq<seq<real>>>, n: nat): (r: Result<SalidaMC>)
    requires Tiradas(draws, |alts|, |cs|, n)
    ensures |alts| == 0 ==> r.Err?
  {
    match RangosMC(alts, cs)
    case Err(e) => Err(e)
    case Ok(rangos) =>
      match Acumular(alts, cs, pesos, rangos, draws, n)
      case Err(e) => Err(e)
      case Ok(acc) =>
        AcumularCoherente(alts, cs, pesos, rangos, draws, n);
        match ProbGanadora(acc.scores)
        case Err(e) => Err(e)
        case Ok(probs) => Ok(Escoger(Completar(acc.stats, probs)))
  }

  /** The pieces a completed run is made of. */
  lemma SimularTodasPartes(alts: seq<Alternativa>, cs: seq<Criterio>, pesos: map<string, real>,
                           draws: seq<seq<seq<real>>>, n: nat)
    returns (rangos: map<string, Rango>, acc: Acumulado, probs: seq<Entry<real>>)
    requires Tiradas(draws, |alts|, |cs|, n) && SimularTodasSpec(alts, cs, pesos, draws, n).Ok?
    ensures RangosMC(alts, cs) == Ok(rangos)
    ensures Acumular(alts, cs, pesos, rangos, draws, n) == Ok(acc) && Coherente(acc, n)
    ensures ProbGanadora(acc.scores) == Ok(probs) && Keys(probs) == Keys(acc.stats) && |acc.stats| > 0
    ensures SimularTodasSpec(alts, cs, pesos, draws, n).value == Escoger(Completar(acc.stats, probs))
  {
    rangos := RangosMC(alts, cs).value;
    acc := Acumular(alts, cs, pesos, rangos, draws, n).value;
    AcumularCoherente(alts, cs, pesos, rangos, draws, n);
    probs := ProbGanadora(acc.scores).value;
  }

  /** Every alternative has both interval columns of every criterion, and every criterion has
      a weight. */
  ghost predicate Ejecutable(alts: seq<Alternativa>, cs: seq<Criterio>, pesos: map<string, real>)
  {
    && (forall a, i :: 0 <= a < |alts| && 0 <= i < |cs| ==> TieneIntervalo(alts[a], cs[i].nombre))
    && (forall i :: 0 <= i < |cs| ==> cs[i].nombre in pesos)
  }

  /** simular_todas completes exactly when there is an alternative and an iteration and no
      column or weight is missing. */
  lemma SimularTodasOk(alts: seq<Alternativa>, cs: seq<Criterio>, pesos: map<string, real>,
                       draws: seq<seq<seq<real>>>, n: nat)
    requires Tiradas(draws, |alts|, |cs|, n)
    ensures SimularTodasSpec(alts, cs, pesos, draws, n).Ok? <==> |alts| > 0 && n > 0 && Ejecutable(alts, cs, pesos)
  {
    if |alts| > 0 && n > 0 && Ejecutable(alts, cs, pesos) {
      SimularTodasSi(alts, cs, pesos, draws, n);
    } else if SimularTodasSpec(alts, cs, pesos, draws, n).Ok? {
      SimularTodasSolo(alts, cs, pesos, draws, n);
    }
  }

  lemma SimularTodasSi(alts: seq<Alternativa>, cs: seq<Criterio>, pesos: map<string, real>,
                       draws: seq<seq<seq<real>>>, n: nat)
    requires Tiradas(draws, |alts|, |cs|, n)
    requires |alts| > 0 && n > 0 && Ejecutable(alts, cs, pesos)
    ensures SimularTodasSpec(alts, cs, pesos, draws, n).Ok?
  {
    var rangos := RangosMC(alts, cs).value;
    forall a | 0 <= a < |alts| ensures SinFalta(alts[a], cs, pesos, rangos) {
      forall i | 0 <= i < |cs| ensures Falta(alts[a], cs[i], pesos, rangos) == None {
        assert rangos.Keys == set k | k in NombresCriterios(cs);
        assert NombresCriterios(cs)[i] == cs[i].nombre;
      }
    }
    AcumularOk(alts, cs, pesos, rangos, draws, n);
    AcumularCoherente(alts, cs, pesos, rangos, draws, n);
  }

  lemma SimularTodasSolo(alts: seq<Alternativa>, cs: seq<Criterio>, pesos: map<string, real>,
                         draws: seq<seq<seq<real>>>, n: nat)
    requires Tiradas(draws, |alts|, |cs|, n)
    requires SimularTodasSpec(alts, cs, pesos, draws, n).Ok?
    ensures |alts| > 0 && n > 0 && Ejecutable(alts, cs, pesos)
  {
    var rangos, acc, probs := SimularTodasPartes(alts, cs, pesos, draws, n);
    AcumularOk(alts, cs, pesos, rangos, draws, n);
    assert Completo(alts, cs, pesos, rangos);
    forall a, i | 0 <= a < |alts| && 0 <= i < |cs|
      ensures TieneIntervalo(alts[a], cs[i].nombre) && cs[i].nombre in pesos
    {
      assert SinFalta(alts[a], cs, pesos, rangos);
      assert Falta(alts[a], cs[i], pesos, rangos) == None;
    }
  }

  /** Every completed run names a winner as GanadorCorrecto describes. */
  lemma SimularTodasGanador(alts: seq<Alternativa>, cs: seq<Criterio>, pesos: map<string, real>,
                            draws: seq<seq<seq<real>>>, n: nat)
    requires Tiradas(draws, |alts|, |cs|, n) && SimularTodasSpec(alts, cs, pesos, draws, n).Ok?
    ensures GanadorCorrecto(SimularTodasSpec(alts, cs, pesos, draws, n).value)
  {
    var rangos, acc, probs := SimularTodasPartes(alts, cs, pesos, draws, n);
    var res := Completar(acc.stats, probs);
    DistintasMismasClaves(acc.scores, res);
    EscogerGanador(res);
  }

  /** The score list behind every result, under its name. */
  function Puntajes(rs: seq<Entry<ResultadoMC>>): (d: seq<Entry<seq<real>>>)
    ensures |d| == |rs| && Keys(d) == Keys(rs)
    ensures forall j :: 0 <= j < |rs| ==> d[j].val == rs[j].val.resumen.scores
  {
    seq(|rs|, j requires 0 <= j < |rs| => Entry(rs[j].key, rs[j].val.resumen.scores))
  }

  /** Every result holds n scores, their statistics and the label of their spread, and the win
      probability computed from the score lists of all the results. */
  ghost predicate Consistentes(rs: seq<Entry<ResultadoMC>>, n: nat)
  {
    && (forall j :: 0 <= j < |rs| ==> |rs[j].val.resumen.scores| == n)
    && (forall j :: 0 <= j < |rs| ==> Resume(rs[j].val.resumen.scores, Estadistica(rs[j].val.resumen, rs[j].val.riesgo)))
    && ProbGanadora(Puntajes(rs)).Ok?
    && (forall j :: 0 <= j < |rs| ==> rs[j].val.probGanar == ProbGanadora(Puntajes(rs)).value[j].val)
  }

  lemma CompletarConsistente(acc: Acumulado, probs: seq<Entry<real>>, n: nat)
    requires Coherente(acc, n) && ProbGanadora(acc.scores) == Ok(probs) && Keys(probs) == Keys(acc.stats)
    ensures Consistentes(Completar(acc.stats, probs), n)
  {
    var res := Completar(acc.stats, probs);
    CompletarPuntajes(acc, probs, n);
    CompletarProb(acc.stats, probs, acc.scores);
    forall j | 0 <= j < |res|
      ensures |res[j].val.resumen.scores| == n
      ensures Resume(res[j].val.resumen.scores, Estadistica(res[j].val.resumen, res[j].val.riesgo))
    {
      assert Resume(acc.scores[j].val, acc.stats[j].val);
    }
  }

  lemma CompletarPuntajes(acc: Acumulado, probs: seq<Entry<real>>, n: nat)
    requires Coherente(acc, n) && Keys(probs) == Keys(acc.stats)
    ensures Puntajes(Completar(acc.stats, probs)) == acc.scores
  {
    var d := Puntajes(Completar(acc.stats, probs));
    forall j | 0 <= j < |d| ensures d[j] == acc.scores[j] {
      assert Resume(acc.scores[j].val, acc.stats[j].val);
      assert Keys(d)[j] == d[j].key && Keys(acc.scores)[j] == acc.scores[j].key;
    }
  }

  lemma CompletarProb(stats: seq<Entry<Estadistica>>, probs: seq<Entry<real>>, scores: seq<Entry<seq<real>>>)
    requires Keys(probs) == Keys(stats) && Keys(stats) == Keys(scores) && DistinctKeys(scores)
    ensures forall j :: 0 <= j < |stats| ==> Completar(stats, probs)[j].val.probGanar == probs[j].val
  {
    DistintasMismasClaves(scores, stats);
    forall j | 0 <= j < |stats| ensures Completar(stats, probs)[j].val.probGanar == probs[j].val {
      LookupAlineado(stats, probs, j);
    }
  }

  /** The win probabilities of consistent results lie in [0, 1] and add up to 1. */
  lemma ConsistentesProb(rs: seq<Entry<ResultadoMC>>, n: nat)
    requires Consistentes(rs, n)
    ensures forall j :: 0 <= j < |rs| ==> 0.0 <= rs[j].val.probGanar <= 1.0
    ensures Sum(Probabilidades(rs)) == 1.0
  {
    var p := ProbGanadora(Puntajes(rs)).value;
    ProbabilidadesDe(rs, p);
  }

  lemma ProbabilidadesDe(rs: seq<Entry<ResultadoMC>>, p: seq<Entry<real>>)
    requires |p| == |rs| && forall j :: 0 <= j < |rs| ==> rs[j].val.probGanar == p[j].val
    requires (forall i :: 0 <= i < |p| ==> 0.0 <= p[i].val <= 1.0) && Sum(Values(p)) == 1.0
    ensures forall j :: 0 <= j < |rs| ==> 0.0 <= rs[j].val.probGanar <= 1.0
    ensures Sum(Probabilidades(rs)) == 1.0
  {
    assert Probabilidades(rs) == Values(p);
  }

  /** Every completed run gives results as Consistentes describes. */
  lemma SimularTodasConsistente(alts: seq<Alternativa>, cs: seq<Criterio>, pesos: map<string, real>,
                                draws: seq<seq<seq<real>>>, n: nat)
    requires Tiradas(draws, |alts|, |cs|, n) && SimularTodasSpec(alts, cs, pesos, draws, n).Ok?
    ensures Consistentes(SimularTodasSpec(alts, cs, pesos, draws, n).value.resultados, n)
  {
    var rangos, acc, probs := SimularTodasPartes(alts, cs, pesos, draws, n);
    CompletarConsistente(acc, probs, n);
  }

  /** The win probabilities of a completed run lie in [0, 1] and add up to 1. */
  lemma SimularTodasProb(alts: seq<Alternativa>, cs: seq<Criterio>, pesos: map<string, real>,
                         draws: seq<seq<seq<real>>>, n: nat)
    requires Tiradas(draws, |alts|, |cs|, n) && SimularTodasSpec(alts, cs, pesos, draws, n).Ok?
    ensures var rs := SimularTodasSpec(alts, cs, pesos, draws, n).value.resultados;
      && (forall j :: 0 <= j < |rs| ==> 0.0 <= rs[j].val.probGanar <= 1.0)
      && Sum(Probabilidades(rs)) == 1.0
  {
    SimularTodasConsistente(alts, cs, pesos, draws, n);
    ConsistentesProb(SimularTodasSpec(alts, cs, pesos, draws, n).value.resultados, n);
  }

  /** Every stored score list of a completed loop has the property every simulated list has,
      and so do the score lists behind the final results. */
  lemma SimularTodasCumplen(alts: seq<Alternativa>, cs: seq<Criterio>, pesos: map<string, real>,
                            draws: seq<seq<seq<real>>>, n: nat, P: seq<real> -> bool)
    requires Tiradas(draws, |alts|, |cs|, n) && SimularTodasSpec(alts, cs, pesos, draws, n).Ok?
    requires forall a :: 0 <= a < |alts| ==> SimCumple(alts[a], cs, pesos, RangosMC(alts, cs).value, draws[a], n, P)
    ensures var rs := SimularTodasSpec(alts, cs, pesos, draws, n).value.resultados;
      forall j :: 0 <= j < |rs| ==> P(rs[j].val.resumen.scores)
  {
    var rangos, acc, probs := SimularTodasPartes(alts, cs, pesos, draws, n);
    AcumularTodas(alts, cs, pesos, rangos, draws, n, P);
    CompletarPuntajes(acc, probs, n);
    var rs := Completar(acc.stats, probs);
    forall j | 0 <= j < |rs| ensures P(rs[j].val.resumen.scores) {
      assert Puntajes(rs)[j].val == acc.scores[j].val;
    }
  }

  /** Every score lies between 0 and w. */
  ghost predicate EntreCeroY(s: seq<real>, w: real)
  {
    forall k :: 0 <= k < |s| ==> 0.0 <= s[k] <= w
  }

  /** Every score equals the first. */
  ghost predicate SinVariacion(s: seq<real>)
  {
    forall k :: 0 <= k < |s| ==> s[k] == s[0]
  }

  /** Every criterion has a weight, and none is negative. */
  ghost predicate PesosNoNegativos(cs: seq<Criterio>, pesos: map<string, real>)
  {
    forall i :: 0 <= i < |cs| ==> cs[i].nombre in pesos && pesos[cs[i].nombre] >= 0.0
  }

  /** Every alternative's draws lie inside its own intervals. */
  ghost predicate TodasEnIntervalo(alts: seq<Alternativa>, cs: seq<Criterio>, draws: seq<seq<seq<real>>>)
    requires |draws| == |alts|
  {
    forall a :: 0 <= a < |alts| ==> EnIntervalo(alts[a], cs, draws[a])
  }

  /** With non-negative weights and every draw inside its alternative's interval, every score,
      and so every statistic of every result, lies between 0 and the sum of the weights. */
  lemma SimularTodasAcotada(alts: seq<Alternativa>, cs: seq<Criterio>, pesos: map<string, real>,
                            draws: seq<seq<seq<real>>>, n: nat)
    requires Tiradas(draws, |alts|, |cs|, n) && SimularTodasSpec(alts, cs, pesos, draws, n).Ok?
    requires PesosNoNegativos(cs, pesos) && TodasEnIntervalo(alts, cs, draws)
    ensures var rs := SimularTodasSpec(alts, cs, pesos, draws, n).value.resultados;
      forall j :: 0 <= j < |rs| ==>
        0.0 <= rs[j].val.resumen.minimo <= rs[j].val.resumen.media <= rs[j].val.resumen.maximo <= Sum(PesosSim(cs, pesos))
  {
    var w := Sum(PesosSim(cs, pesos));
    var P := (s: seq<real>) => EntreCeroY(s, w);
    TodasAcotadas(alts, cs, pesos, draws, n, w, P);
    SimularTodasCumplen(alts, cs, pesos, draws, n, P);
    SimularTodasConsistente(alts, cs, pesos, draws, n);
    ResultadosAcotados(SimularTodasSpec(alts, cs, pesos, draws, n).value.resultados, n, w, P);
  }

  lemma TodasAcotadas(alts: seq<Alternativa>, cs: seq<Criterio>, pesos: map<string, real>,
                      draws: seq<seq<seq<real>>>, n: nat, w: real, P: seq<real> -> bool)
    requires Tiradas(draws, |alts|, |cs|, n) && RangosMC(alts, cs).Ok?
    requires PesosNoNegativos(cs, pesos) && TodasEnIntervalo(alts, cs, draws)
    requires w == Sum(PesosSim(cs, pesos))
    requires forall s :: EntreCeroY(s, w) ==> P(s)
    ensures forall a :: 0 <= a < |alts| ==> SimCumple(alts[a], cs, pesos, RangosMC(alts, cs).value, draws[a], n, P)
  {
    var rangos := RangosMC(alts, cs).value;
    forall a | 0 <= a < |alts| ensures SimCumple(alts[a], cs, pesos, rangos, draws[a], n, P) {
      assert Sorteos(draws[a], |cs|, n);
      if ScoresSim(alts[a], cs, pesos, rangos, draws[a], n).Ok? {
        RangosContienenSorteos(alts, cs, a, draws[a]);
        SimAcotado(alts[a], cs, pesos, rangos, draws[a], n);
        assert EntreCeroY(ScoresSim(alts[a], cs, pesos, rangos, draws[a], n).value, w);
      }
    }
  }

  lemma ResultadosAcotados(rs: seq<Entry<ResultadoMC>>, n: nat, w: real, P: seq<real> -> bool)
    requires Consistentes(rs, n)
    requires forall s :: P(s) ==> EntreCeroY(s, w)
    requires forall j :: 0 <= j < |rs| ==> P(rs[j].val.resumen.scores)
    ensures forall j :: 0 <= j < |rs| ==>
      0.0 <= rs[j].val.resumen.minimo <= rs[j].val.resumen.media <= rs[j].val.resumen.maximo <= w
  {
    forall j | 0 <= j < |rs|
      ensures 0.0 <= rs[j].val.resumen.minimo <= rs[j].val.resumen.media <= rs[j].val.resumen.maximo <= w
    {
      var e := rs[j].val.resumen;
      assert Resume(e.scores, Estadistica(e, rs[j].val.riesgo));
      assert P(e.scores);
    }
  }

  /** When no draw varies across the iterations, every alternative scores the same in all of
      them, so every result has no spread and a low risk. */
  lemma SimularTodasConstante(alts: seq<Alternativa>, cs: seq<Criterio>, pesos: map<string, real>,
                              draws: seq<seq<seq<real>>>, n: nat)
    requires Tiradas(draws, |alts|, |cs|, n) && SimularTodasSpec(alts, cs, pesos, draws, n).Ok?
    requires forall a, i, k :: 0 <= a < |alts| && 0 <= i < |cs| && 0 <= k < n ==> draws[a][i][k] == draws[a][i][0]
    ensures var rs := SimularTodasSpec(alts, cs, pesos, draws, n).value.resultados;
      forall j :: 0 <= j < |rs| ==> rs[j].val.resumen.varianza == 0.0 && rs[j].val.riesgo == Bajo
  {
    var P := (s: seq<real>) => SinVariacion(s);
    TodasConstantes(alts, cs, pesos, draws, n, P);
    SimularTodasCumplen(alts, cs, pesos, draws, n, P);
    SimularTodasConsistente(alts, cs, pesos, draws, n);
    ResultadosConstantes(SimularTodasSpec(alts, cs, pesos, draws, n).value.resultados, n, P);
  }

  lemma TodasConstantes(alts: seq<Alternativa>, cs: seq<Criterio>, pesos: map<string, real>,
                        draws: seq<seq<seq<real>>>, n: nat, P: seq<real> -> bool)
    requires Tiradas(draws, |alts|, |cs|, n) && RangosMC(alts, cs).Ok?
    requires forall a, i, k :: 0 <= a < |alts| && 0 <= i < |cs| && 0 <= k < n ==> draws[a][i][k] == draws[a][i][0]
    requires forall s :: SinVariacion(s) ==> P(s)
    ensures forall a :: 0 <= a < |alts| ==> SimCumple(alts[a], cs, pesos, RangosMC(alts, cs).value, draws[a], n, P)
  {
    var rangos := RangosMC(alts, cs).value;
    forall a | 0 <= a < |alts| ensures SimCumple(alts[a], cs, pesos, rangos, draws[a], n, P) {
      if ScoresSim(alts[a], cs, pesos, rangos, draws[a], n).Ok? && n > 0 {
        SimConstante(alts[a], cs, pesos, rangos, draws[a], n);
      }
    }
  }

  lemma ResultadosConstantes(rs: seq<Entry<ResultadoMC>>, n: nat, P: seq<real> -> bool)
    requires Consistentes(rs, n)
    requires forall s :: P(s) ==> SinVariacion(s)
    requires forall j :: 0 <= j < |rs| ==> P(rs[j].val.resumen.scores)
    ensures forall j :: 0 <= j < |rs| ==> rs[j].val.resumen.varianza == 0.0 && rs[j].val.riesgo == Bajo
  {
    forall j | 0 <= j < |rs| ensures rs[j].val.resumen.varianza == 0.0 && rs[j].val.riesgo == Bajo {
      var e := rs[j].val.resumen;
      assert Resume(e.scores, Estadistica(e, rs[j].val.riesgo));
      assert P(e.scores);
      EstadisticasConstantes(e.scores, e.scores[0]);
    }
  }

  /** A failure in the loop over the first a alternatives is the failure of the whole loop. */
  lemma {:induction false} AcumularPrefijo(alts: seq<Alternativa>, cs: seq<Criterio>, pesos: map<string, real>,
                                           rangos: map<string, Rango>, draws: seq<seq<seq<real>>>, n: nat, a: nat)
    requires Tiradas(draws, |alts|, |cs|, n) && a <= |alts|
    requires Tiradas(draws[..a], a, |cs|, n)
    requires Acumular(alts[..a], cs, pesos, rangos, draws[..a], n).Err?
    ensures Acumular(alts, cs, pesos, rangos, draws, n) == Acumular(alts[..a], cs, pesos, rangos, draws[..a], n)
    decreases |alts|, 1
  {
    if a < |alts| {
      AcumularPrefijoPaso(alts, cs, pesos, rangos, draws, n, a);
    } else {
      AcumularEntero(alts, cs, pesos, rangos, draws, n);
    }
  }

  lemma AcumularPrefijoPaso(alts: seq<Alternativa>, cs: seq<Criterio>, pesos: map<string, real>,
                            rangos: map<string, Rango>, draws: seq<seq<seq<real>>>, n: nat, a: nat)
    requires Tiradas(draws, |alts|, |cs|, n) && a < |alts|
    requires Tiradas(draws[..a], a, |cs|, n)
    requires Acumular(alts[..a], cs, pesos, rangos, draws[..a], n).Err?
    ensures Acumular(alts, cs, pesos, rangos, draws, n) == Acumular(alts[..a], cs, pesos, rangos, draws[..a], n)
    decreases |alts|, 0
  {
    var e := Acumular(alts[..a], cs, pesos, rangos, draws[..a], n);
    var m := |alts| - 1;
    var am, dm := alts[..m], draws[..m];
    TiradasPrefijo(draws, |alts|, |cs|, n, m);
    assert am[..a] == alts[..a] && dm[..a] == draws[..a];
    TiradasPrefijo(dm, m, |cs|, n, a);
    AcumularPrefijo(am, cs, pesos, rangos, dm, n, a);
    assert Acumular(am, cs, pesos, rangos, dm, n) == e;
    AcumularArrastra(alts, cs, pesos, rangos, draws, n, m);
  }

  /** A failure over all but the last alternative is the failure of the whole loop. */
  lemma AcumularArrastra(alts: seq<Alternativa>, cs: seq<Criterio>, pesos: map<string, real>,
                         rangos: map<string, Rango>, draws: seq<seq<seq<real>>>, n: nat, m: nat)
    requires Tiradas(draws, |alts|, |cs|, n) && m + 1 == |alts|
    requires Tiradas(draws[..m], m, |cs|, n)
    requires Acumular(alts[..m], cs, pesos, rangos, draws[..m], n).Err?
    ensures Acumular(alts, cs, pesos, rangos, draws, n) == Acumular(alts[..m], cs, pesos, rangos, draws[..m], n)
  {
    AcumularUltimo(alts, cs, pesos, rangos, draws, n);
    PasoFallido(Acumular(alts[..m], cs, pesos, rangos, draws[..m], n), ScoresSim(alts[m], cs, pesos, rangos, draws[m], n), alts[m].nombre);
  }

  /** The loop over all the alternatives is the loop over all but the last plus one step. */
  lemma AcumularUltimo(alts: seq<Alternativa>, cs: seq<Criterio>, pesos: map<string, real>,
                       rangos: map<string, Rango>, draws: seq<seq<seq<real>>>, n: nat)
    requires Tiradas(draws, |alts|, |cs|, n) && |alts| > 0
    ensures Tiradas(draws[..|alts| - 1], |alts| - 1, |cs|, n) && Sorteos(draws[|alts| - 1], |cs|, n)
    ensures var m := |alts| - 1;
      Acumular(alts, cs, pesos, rangos, draws, n)
      == Paso(Acumular(alts[..m], cs, pesos, rangos, draws[..m], n), ScoresSim(alts[m], cs, pesos, rangos, draws[m], n), alts[m].nombre)
  {
    TiradasPrefijo(draws, |alts|, |cs|, n, |alts| - 1);
  }

  /** An earlier failure stands. */
  lemma PasoFallido(prev: Result<Acumulado>, s: Result<seq<real>>, nombre: string)
    requires prev.Err?
    ensures Paso(prev, s, nombre) == prev
  {
  }

  /** The loop over the first a + 1 alternatives is the loop over the first a plus one step. */
  lemma AcumularSiguiente(alts: seq<Alternativa>, cs: seq<Criterio>, pesos: map<string, real>,
                          rangos: map<string, Rango>, draws: seq<seq<seq<real>>>, n: nat, a: nat)
    requires Tiradas(draws, |alts|, |cs|, n) && a < |alts|
    ensures Tiradas(draws[..a], a, |cs|, n) && Tiradas(draws[..a + 1], a + 1, |cs|, n)
    ensures Sorteos(draws[a], |cs|, n)
    ensures Acumular(alts[..a + 1], cs, pesos, rangos, draws[..a + 1], n)
      == Paso(Acumular(alts[..a], cs, pesos, rangos, draws[..a], n), ScoresSim(alts[a], cs, pesos, rangos, draws[a], n), alts[a].nombre)
  {
    TiradasPrefijo(draws, |alts|, |cs|, n, a);
    TiradasPrefijo(draws, |alts|, |cs|, n, a + 1);
    var an, dn := alts[..a + 1], draws[..a + 1];
    assert an[..a] == alts[..a] && dn[..a] == draws[..a];
    assert an[a] == alts[a] && dn[a] == draws[a];
    assert Acumular(an[..a], cs, pesos, rangos, dn[..a], n) == Acumular(alts[..a], cs, pesos, rangos, draws[..a], n);
    assert ScoresSim(an[a], cs, pesos, rangos, dn[a], n) == ScoresSim(alts[a], cs, pesos, rangos, draws[a], n);
  }

  /** One iteration of the loop at alternative a, given the simulated scores s of that
      alternative: a failed lookup or an empty score list ends the whole loop with that error,
      otherwise the dictionaries grow by one entry. */
  lemma AcumularUnPaso(alts: seq<Alternativa>, cs: seq<Criterio>, pesos: map<string, real>,
                       rangos: map<string, Rango>, draws: seq<seq<seq<real>>>, n: nat, a: nat,
                       acc: Acumulado, s: Result<seq<real>>)
    requires Tiradas(draws, |alts|, |cs|, n) && a < |alts|
    requires Tiradas(draws[..a], a, |cs|, n) && Acumular(alts[..a], cs, pesos, rangos, draws[..a], n) == Ok(acc)
    requires Sorteos(draws[a], |cs|, n) && s == ScoresSim(alts[a], cs, pesos, rangos, draws[a], n)
    ensures s.Err? ==> Acumular(alts, cs, pesos, rangos, draws, n) == Err(s.error)
    ensures s.Ok? && |s.value| == 0 ==> Acumular(alts, cs, pesos, rangos, draws, n) == Err(EmptySequence)
    ensures s.Ok? && |s.value| > 0 ==> Tiradas(draws[..a + 1], a + 1, |cs|, n)
    ensures s.Ok? && |s.value| > 0 ==>
      Acumular(alts[..a + 1], cs, pesos, rangos, draws[..a + 1], n) == Ok(Agregar(acc, alts[a].nombre, s.value))
  {
    AcumularSiguiente(alts, cs, pesos, rangos, draws, n, a);
    if s.Err? || |s.value| == 0 {
      AcumularPrefijo(alts, cs, pesos, rangos, draws, n, a + 1);
    }
  }

  /** The loop over all the alternatives' prefix is the loop over all of them. */
  lemma AcumularEntero(alts: seq<Alternativa>, cs: seq<Criterio>, pesos: map<string, real>,
                       rangos: map<string, Rango>, draws: seq<seq<seq<real>>>, n: nat)
    requires Tiradas(draws, |alts|, |cs|, n)
    ensures Tiradas(draws[..|alts|], |alts|, |cs|, n)
    ensures Acumular(alts[..|alts|], cs, pesos, rangos, draws[..|alts|], n) == Acumular(alts, cs, pesos, rangos, draws, n)
  {
    assert alts[..|alts|] == alts && draws[..|alts|] == draws;
  }

  /** The body of that loop once the scores are in: `scores_todas[nombre] = scores`, then the
      statistics of the scores with their risk label under the same name. */
  method Registrar(scoresTodas: seq<Entry<seq<real>>>, resultados: seq<Entry<Estadistica>>,
                   nombre: string, scores: seq<real>)
    returns (scoresTodas': seq<Entry<seq<real>>>, resultados': seq<Entry<Estadistica>>)
    requires |scores| > 0
    ensures Acumulado(scoresTodas', resultados') == Agregar(Acumulado(scoresTodas, resultados), nombre, scores)
  {
    scoresTodas' := Put(scoresTodas, nombre, scores);
    var stats := CalcularEstadisticas(scores).value;
    resultados' := Put(resultados, nombre, Estadistica(stats, RiesgoDeVarianza(stats.varianza)));
  }

  /** The loop of simular_todas over the alternatives: simulate each one, store its scores
      under its name, and summarise them with their risk label. */
  method SimularCadaAlternativa(alts: seq<Alternativa>, cs: seq<Criterio>, pesos: map<string, real>,
                                rangos: map<string, Rango>, draws: seq<seq<seq<real>>>, n: nat)
    returns (r: Result<Acumulado>)
    requires Tiradas(draws, |alts|, |cs|, n)
    ensures r == Acumular(alts, cs, pesos, rangos, draws, n)
  {
    var scoresTodas: seq<Entry<seq<real>>> := [];
    var resultados: seq<Entry<Estadistica>> := [];
    assert alts[..0] == [] && draws[..0] == [];
    for a := 0 to |alts|
      invariant Tiradas(draws[..a], a, |cs|, n)
      invariant Acumular(alts[..a], cs, pesos, rangos, draws[..a], n) == Ok(Acumulado(scoresTodas, resultados))
    {
      assert Sorteos(draws[a], |cs|, n);
      var nombre := alts[a].nombre;
      var scores := SimularAlternativa(alts[a], cs, pesos, rangos, draws[a], n);
      AcumularUnPaso(alts, cs, pesos, rangos, draws, n, a, Acumulado(scoresTodas, resultados), scores);
      if scores.Err? {
        return Err(scores.error);
      }
      if |scores.value| == 0 {
        return Err(EmptySequence);
      }
      scoresTodas, resultados := Registrar(scoresTodas, resultados, nombre, scores.value);
    }
    AcumularEntero(alts, cs, pesos, rangos, draws, n);
    r := Ok(Acumulado(scoresTodas, resultados));
  }

  /** `resultados[nombre]["prob_ganar"] = probs[nombre]` for every name, in dictionary order. */
  method AgregarProbabilidades(stats: seq<Entry<Estadistica>>, probs: seq<Entry<real>>)
    returns (finales: seq<Entry<ResultadoMC>>)
    requires Keys(probs) == Keys(stats)
    ensures finales == Completar(stats, probs)
  {
    ghost var c := Completar(stats, probs);
    finales := [];
    for j := 0 to |stats|
      invariant |finales| == j && forall k :: 0 <= k < j ==> finales[k] == c[k]
    {
      CompletarEn(stats, probs, j);
      var e := stats[j];
      var x := Entry(e.key, ResultadoMC(e.val.resumen, e.val.riesgo, Lookup(probs, e.key)));
      PrefijoCrece(finales, c, x);
      finales := finales + [x];
    }
  }

  /** A prefix of c extended by c's next element is the next prefix. */
  lemma PrefijoCrece<T>(f: seq<T>, c: seq<T>, x: T)
    requires |f| < |c| && x == c[|f|] && forall k :: 0 <= k < |f| ==> f[k] == c[k]
    ensures forall k :: 0 <= k < |f| + 1 ==> (f + [x])[k] == c[k]
  {
  }

  lemma CompletarEn(stats: seq<Entry<Estadistica>>, probs: seq<Entry<real>>, j: nat)
    requires Keys(probs) == Keys(stats) && j < |stats|
    ensures stats[j].key in Keys(probs)
    ensures Completar(stats, probs)[j]
      == Entry(stats[j].key, ResultadoMC(stats[j].val.resumen, stats[j].val.riesgo, Lookup(probs, stats[j].key)))
  {
    assert Keys(stats)[j] == stats[j].key;
  }

  /** `max(resultados, key=media)`: the position of the first result with the highest mean. */
  method ElegirGanador(finales: seq<Entry<ResultadoMC>>) returns (g: nat)
    requires |finales| > 0
    ensures g == FirstMaxIndex(Medias(finales))
  {
    var medias := Medias(finales);
    g := 0;
    for j := 1 to |finales|
      invariant g == FirstMaxIndex(medias[..j])
    {
      assert medias[..j + 1][..j] == medias[..j];
      if finales[j].val.resumen.media > finales[g].val.resumen.media {
        g := j;
      }
    }
    assert medias[..|finales|] == medias;
  }

  /** simular_todas: the global ranges, one simulation per alternative, the win probabilities
      added to every result, and the winner. */
  method SimularTodas(alts: seq<Alternativa>, cs: seq<Criterio>, pesos: map<string, real>,
                      draws: seq<seq<seq<real>>>, n: nat) returns (r: Result<SalidaMC>)
    requires Tiradas(draws, |alts|, |cs|, n)
    ensures r == SimularTodasSpec(alts, cs, pesos, draws, n)
  {
    var rangosGlobales := CalcularRangosGlobales(alts, cs);
    if rangosGlobales.Err? {
      return Err(rangosGlobales.error);
    }
    var acc := SimularCadaAlternativa(alts, cs, pesos, rangosGlobales.value, draws, n);
    if acc.Err? {
      return Err(acc.error);
    }
    AcumularCoherente(alts, cs, pesos, rangosGlobales.value, draws, n);
    var probs := CalcularProbGanadora(acc.value.scores);
    if probs.Err? {
      return Err(probs.error);
    }
    var finales := AgregarProbabilidades(acc.value.stats, probs.value);
    var g := ElegirGanador(finales);
    r := Ok(SalidaMC(finales[g].key, finales));
  }
}
