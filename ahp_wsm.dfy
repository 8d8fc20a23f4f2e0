/** The weighted-sum ranking (ahp_wsm.py): importances become weights that sum to 1, every
    alternative gets a representative value per criterion, values are scaled to [0,1] over the
    range of the representatives, and alternatives are ranked by their weighted sum. */
module AhpWsm {
  import opened Common
  import opened Sorting
  import opened Records

  /** A criterion row copied with its normalised weight added (`copia['peso']`). */
  datatype Ponderado = Ponderado(criterio: Criterio, peso: real)

  /** One ranking entry: the alternative's name, its score, the normalised value of every
      criterion (`desglose`) and the weight of every criterion (`pesos`). */
  datatype Resultado = Resultado(alternativa: string, score: real, desglose: seq<Entry<real>>, pesos: seq<Entry<real>>)

  function Importancias(cs: seq<Criterio>): (r: seq<real>)
    ensures |r| == |cs| && forall i :: 0 <= i < |cs| ==> r[i] == cs[i].importancia
  {
    seq(|cs|, i requires 0 <= i < |cs| => cs[i].importancia)
  }

  function PesosDe(ps: seq<Ponderado>): (r: seq<real>)
    ensures |r| == |ps| && forall i :: 0 <= i < |ps| ==> r[i] == ps[i].peso
  {
    seq(|ps|, i requires 0 <= i < |ps| => ps[i].peso)
  }

  function Nombres(ps: seq<Ponderado>): (r: seq<string>)
    ensures |r| == |ps| && forall i :: 0 <= i < |ps| ==> r[i] == ps[i].criterio.nombre
  {
    seq(|ps|, i requires 0 <= i < |ps| => ps[i].criterio.nombre)
  }

  // ----- normalizar_pesos -----

  /** Every criterion, in order and unchanged, with weight importance / total. */
  function Ponderar(cs: seq<Criterio>, total: real): (ps: seq<Ponderado>)
    requires total != 0.0
    ensures |ps| == |cs| && forall i :: 0 <= i < |cs| ==> ps[i] == Ponderado(cs[i], cs[i].importancia / total)
  {
    seq(|cs|, i requires 0 <= i < |cs| => Ponderado(cs[i], cs[i].importancia / total))
  }

  /** Dividing by the importance total gives weights proportional to the importances that sum
      to 1. */
  lemma PonderarNormaliza(cs: seq<Criterio>)
    requires Sum(Importancias(cs)) != 0.0
    ensures var total := Sum(Importancias(cs)); var ps := Ponderar(cs, total);
      && Sum(PesosDe(ps)) == 1.0
      && forall i :: 0 <= i < |cs| ==> ps[i].peso * total == cs[i].importancia
  {
    var w, total := Importancias(cs), Sum(Importancias(cs));
    var ps := Ponderar(cs, total);
    PonderarSuma(w, total, PesosDe(ps));
    PonderarProporcional(cs, total, ps);
  }

  /** With no negative importance every weight is in [0,1], and above 0 for a positive
      importance. */
  lemma PonderarAcotado(cs: seq<Criterio>)
    requires Sum(Importancias(cs)) != 0.0
    requires forall i :: 0 <= i < |cs| ==> cs[i].importancia >= 0.0
    ensures var ps := Ponderar(cs, Sum(Importancias(cs)));
      forall i :: 0 <= i < |cs| ==> 0.0 <= ps[i].peso <= 1.0 && (cs[i].importancia > 0.0 ==> ps[i].peso > 0.0)
  {
    var w, total := Importancias(cs), Sum(Importancias(cs));
    var ps := Ponderar(cs, total);
    NonNegSum(w);
    forall i | 0 <= i < |cs|
      ensures 0.0 <= ps[i].peso <= 1.0 && (cs[i].importancia > 0.0 ==> ps[i].peso > 0.0)
    {
      SumElement(w, i);
      Fraccion(w[i], total, ps[i].peso);
    }
  }

  lemma PonderarProporcional(cs: seq<Criterio>, total: real, ps: seq<Ponderado>)
    requires total != 0.0 && |ps| == |cs|
    requires forall i :: 0 <= i < |cs| ==> ps[i].peso == cs[i].importancia / total
    ensures forall i :: 0 <= i < |cs| ==> ps[i].peso * total == cs[i].importancia
  {
    forall i | 0 <= i < |cs| ensures ps[i].peso * total == cs[i].importancia {
      Recupera(cs[i].importancia, total, ps[i].peso);
    }
  }

  /** Weights w[i] / total over total == Sum(w) sum to 1. */
  lemma PonderarSuma(w: seq<real>, total: real, p: seq<real>)
    requires total == Sum(w) && total != 0.0 && |p| == |w|
    requires forall i :: 0 <= i < |w| ==> p[i] == w[i] / total
    ensures Sum(p) == 1.0
  {
    SumScaled(w, p, total);
    Propio(total);
  }

  lemma Propio(x: real)
    requires x != 0.0
    ensures x / x == 1.0
  {
  }

  lemma Recupera(x: real, t: real, q: real)
    requires t != 0.0 && q == x / t
    ensures q * t == x
  {
  }

  /** A part x of a positive whole t is a fraction in [0,1], positive when the part is. */
  lemma Fraccion(x: real, t: real, q: real)
    requires 0.0 <= x <= t && t > 0.0 && q == x / t
    ensures 0.0 <= q <= 1.0 && (x > 0.0 ==> q > 0.0)
  {
    DivUnidad(x, t);
  }

  /** The weighted criteria: an error for no criteria or a zero importance total, otherwise
      every criterion, in order and unchanged, with weight importance / total. */
  function Pesos(cs: seq<Criterio>): (r: Result<seq<Ponderado>>)
    ensures |cs| == 0 ==> r == Err(EmptyCriteria)
    ensures |cs| > 0 && Sum(Importancias(cs)) == 0.0 ==> r == Err(ZeroImportanceTotal)
    ensures r.Ok? <==> |cs| > 0 && Sum(Importancias(cs)) != 0.0
    ensures r.Ok? ==> |r.value| == |cs|
    ensures r.Ok? ==> forall i :: 0 <= i < |cs| ==>
      r.value[i].criterio == cs[i] && r.value[i].peso * Sum(Importancias(cs)) == cs[i].importancia
    ensures r.Ok? ==> Sum(PesosDe(r.value)) == 1.0
  {
    var total := Sum(Importancias(cs));
    if |cs| == 0 then Err(EmptyCriteria)
    else if total == 0.0 then Err(ZeroImportanceTotal)
    else
      PonderarNormaliza(cs);
      Ok(Ponderar(cs, total))
  }

  /** With no negative importance every weight is in [0,1]; with only positive importances
      every weight is above 0. */
  lemma PesosAcotados(cs: seq<Criterio>)
    requires Pesos(cs).Ok? && forall i :: 0 <= i < |cs| ==> cs[i].importancia >= 0.0
    ensures var ps := Pesos(cs).value;
      && (forall i :: 0 <= i < |cs| ==> 0.0 <= ps[i].peso <= 1.0)
      && ((forall i :: 0 <= i < |cs| ==> cs[i].importancia > 0.0) ==> forall i :: 0 <= i < |cs| ==> 0.0 < ps[i].peso)
  {
    PonderarAcotado(cs);
  }

  /** normalizar_pesos: copies every criterion and adds its weight, one loop step per row. */
  method NormalizarPesos(cs: seq<Criterio>) returns (r: Result<seq<Ponderado>>)
    ensures r == Pesos(cs)
  {
    if |cs| == 0 {
      return Err(EmptyCriteria);
    }
    var total := Sum(Importancias(cs));
    if total == 0.0 {
      return Err(ZeroImportanceTotal);
    }
    var resultado: seq<Ponderado> := [];
    for i := 0 to |cs|
      invariant |resultado| == i
      invariant forall j :: 0 <= j < i ==> resultado[j] == Ponderado(cs[j], cs[j].importancia / total)
    {
      resultado := resultado + [Ponderado(cs[i], cs[i].importancia / total)];
    }
    assert resultado == Ponderar(cs, total);
    r := Ok(resultado);
  }

  // ----- normalizar_valores -----

  /** A value scaled to [0,1] over [minimo, maximo]: 0.5 on a degenerate range, reversed for a
      minimising criterion. */
  function NormalizarValores(valor: real, minimo: real, maximo: real, tipo: string): (r: real)
    ensures maximo == minimo ==> r == 0.5
    ensures minimo < maximo && minimo <= valor <= maximo ==> 0.0 <= r <= 1.0
    ensures minimo != maximo && valor == minimo ==> r == if EsMinimizar(tipo) then 1.0 else 0.0
    ensures minimo != maximo && valor == maximo ==> r == if EsMinimizar(tipo) then 0.0 else 1.0
  {
    if maximo == minimo then 0.5
    else
      Escala(valor, minimo, maximo);
      if EsMinimizar(tipo) then (maximo - valor) / (maximo - minimo)
      else (valor - minimo) / (maximo - minimo)
  }

  /** The two directions mirror each other: for the same value they add up to 1. */
  lemma NormalizarComplementario(valor: real, minimo: real, maximo: real, min: string, max: string)
    requires minimo != maximo && EsMinimizar(min) && !EsMinimizar(max)
    ensures NormalizarValores(valor, minimo, maximo, min) + NormalizarValores(valor, minimo, maximo, max) == 1.0
  {
    Escala(valor, minimo, maximo);
  }

  // ----- calcular_score -----

  /** `valores_normalizados.get(nombre, 0.0)`. */
  function Obtener(vals: seq<Entry<real>>, k: string): (v: real)
    ensures k !in Keys(vals) ==> v == 0.0
  {
    if k in Keys(vals) then Lookup(vals, k) else 0.0
  }

  /** Σ peso · valor over the criteria, in order. */
  function Score(vals: seq<Entry<real>>, ps: seq<Ponderado>): real
  {
    if |ps| == 0 then 0.0
    else
      var c := ps[|ps| - 1];
      Score(vals, ps[..|ps| - 1]) + c.peso * Obtener(vals, c.criterio.nombre)
  }

  /** calcular_score: the `score +=` loop over the weighted criteria. */
  method CalcularScore(vals: seq<Entry<real>>, ps: seq<Ponderado>) returns (score: real)
    ensures score == Score(vals, ps)
  {
    score := 0.0;
    for i := 0 to |ps|
      invariant score == Score(vals, ps[..i])
    {
      assert ps[..i + 1][..i] == ps[..i];
      var nombre := ps[i].criterio.nombre;
      score := score + ps[i].peso * Obtener(vals, nombre);
    }
    assert ps[..|ps|] == ps;
  }

  /** A criterion with no normalised value adds nothing to the score. */
  lemma ScoreSinValor(vals: seq<Entry<real>>, ps: seq<Ponderado>, c: Ponderado)
    requires c.criterio.nombre !in Keys(vals)
    ensures Score(vals, ps + [c]) == Score(vals, ps)
  {
    assert (ps + [c])[..|ps|] == ps;
  }

  /** With non-negative weights and every value in [0,1], the score lies between 0 and the
      total weight; so in [0,1] when the weights sum to 1. */
  lemma {:induction false} ScoreAcotado(vals: seq<Entry<real>>, ps: seq<Ponderado>)
    requires forall i :: 0 <= i < |ps| ==> ps[i].peso >= 0.0
    requires forall i :: 0 <= i < |ps| ==> 0.0 <= Obtener(vals, ps[i].criterio.nombre) <= 1.0
    ensures 0.0 <= Score(vals, ps) <= Sum(PesosDe(ps))
  {
    if |ps| > 0 {
      var init, c := ps[..|ps| - 1], ps[|ps| - 1];
      ScoreAcotado(vals, init);
      assert PesosDe(ps)[..|ps| - 1] == PesosDe(init);
      var p, v := c.peso, Obtener(vals, c.criterio.nombre);
      assert p >= 0.0 && 0.0 <= v <= 1.0;
      MulUnidad(p, v);
      var term := p * v;
      assert Score(vals, ps) == Score(vals, init) + term;
      assert Sum(PesosDe(ps)) == Sum(PesosDe(init)) + c.peso;
    }
  }

  // ----- rankear_alternativas -----

  /** The representative value of an alternative for a criterion: the midpoint of its `_Min`
      and `_Max` columns, else its single column, else 0.0. */
  function Representativo(alt: Alternativa, nombre: string): (v: real)
    ensures ColMin(nombre) in alt.campos && ColMax(nombre) in alt.campos ==>
      var lo, hi := alt.campos[ColMin(nombre)], alt.campos[ColMax(nombre)];
      (lo <= v <= hi || hi <= v <= lo) && v - lo == hi - v
    ensures !(ColMin(nombre) in alt.campos && ColMax(nombre) in alt.campos) ==>
      v == if nombre in alt.campos then alt.campos[nombre] else 0.0
  {
    if ColMin(nombre) in alt.campos && ColMax(nombre) in alt.campos then
      (alt.campos[ColMin(nombre)] + alt.campos[ColMax(nombre)]) / 2.0
    else if nombre in alt.campos then alt.campos[nombre]
    else 0.0
  }

  /** `promedios`: one representative per alternative, in order. */
  function Representativos(alts: seq<Alternativa>, nombre: string): (r: seq<real>)
    ensures |r| == |alts| && forall i :: 0 <= i < |alts| ==> r[i] == Representativo(alts[i], nombre)
  {
    seq(|alts|, i requires 0 <= i < |alts| => Representativo(alts[i], nombre))
  }

  /** Every criterion name has a range. */
  ghost predicate Cubre(rg: map<string, Rango>, ps: seq<Ponderado>)
  {
    forall k :: k in Nombres(ps) ==> k in rg
  }

  /** `rangos_globales`: for every criterion name, the smallest and the largest representative
      over all alternatives, with the direction of the last criterion of that name. */
  function RangosGlobales(alts: seq<Alternativa>, ps: seq<Ponderado>): (rg: map<string, Rango>)
    requires |alts| > 0
    ensures forall k :: k in rg <==> k in Nombres(ps)
    ensures forall k :: k in rg ==>
      rg[k].min == SeqMin(Representativos(alts, k)) && rg[k].max == SeqMax(Representativos(alts, k))
  {
    if |ps| == 0 then map[]
    else
      var c := ps[|ps| - 1].criterio;
      var init := ps[..|ps| - 1];
      assert Nombres(ps) == Nombres(init) + [c.nombre];
      var promedios := Representativos(alts, c.nombre);
      RangosGlobales(alts, init)[c.nombre := Rango(SeqMin(promedios), SeqMax(promedios), c.tipo)]
  }

  /** Every alternative's representative lies in the global range of its criterion, and both
      ends of the range are representatives of some alternative. */
  lemma RangosGlobalesAcotan(alts: seq<Alternativa>, ps: seq<Ponderado>, k: string)
    requires |alts| > 0 && k in Nombres(ps)
    ensures var rg := RangosGlobales(alts, ps);
      && k in rg
      && (forall a :: 0 <= a < |alts| ==> rg[k].min <= Representativo(alts[a], k) <= rg[k].max)
      && rg[k].min in Representativos(alts, k) && rg[k].max in Representativos(alts, k)
  {
    var reps := Representativos(alts, k);
    assert forall a :: 0 <= a < |alts| ==> reps[a] == Representativo(alts[a], k);
  }

  /** Each range keeps the direction of the last criterion with its name. */
  lemma {:induction false} RangosGlobalesTipo(alts: seq<Alternativa>, ps: seq<Ponderado>, i: nat)
    requires |alts| > 0 && i < |ps|
    requires forall j :: i < j < |ps| ==> ps[j].criterio.nombre != ps[i].criterio.nombre
    ensures var rg := RangosGlobales(alts, ps);
      ps[i].criterio.nombre in rg && rg[ps[i].criterio.nombre].tipo == ps[i].criterio.tipo
  {
    assert Nombres(ps)[i] == ps[i].criterio.nombre;
    if i < |ps| - 1 {
      RangosGlobalesTipo(alts, ps[..|ps| - 1], i);
    }
  }

  /** The normalised value of an alternative for one criterion name. */
  function Normalizado(alt: Alternativa, rg: map<string, Rango>, nombre: string): real
    requires nombre in rg
  {
    NormalizarValores(Representativo(alt, nombre), rg[nombre].min, rg[nombre].max, rg[nombre].tipo)
  }

  /** `valores_normalizados`: one entry per distinct criterion name, in first-seen order. */
  function Desglose(alt: Alternativa, ps: seq<Ponderado>, rg: map<string, Rango>): (d: seq<Entry<real>>)
    requires Cubre(rg, ps)
    ensures DistinctKeys(d)
    ensures forall k :: k in Keys(d) <==> k in Nombres(ps)
    ensures forall k :: k in Keys(d) ==> k in rg && Lookup(d, k) == Normalizado(alt, rg, k)
  {
    if |ps| == 0 then []
    else
      var n := ps[|ps| - 1].criterio.nombre;
      var init := ps[..|ps| - 1];
      assert Nombres(ps) == Nombres(init) + [n];
      Put(Desglose(alt, init, rg), n, Normalizado(alt, rg, n))
  }

  /** The breakdown over the first c + 1 criteria is that over the first c with criterion c's
      normalised value stored under its name. */
  lemma DesgloseSiguiente(alt: Alternativa, ps: seq<Ponderado>, rg: map<string, Rango>, c: nat)
    requires Cubre(rg, ps) && c < |ps|
    ensures Cubre(rg, ps[..c]) && Cubre(rg, ps[..c + 1]) && ps[c].criterio.nombre in rg
    ensures Desglose(alt, ps[..c + 1], rg)
      == Put(Desglose(alt, ps[..c], rg), ps[c].criterio.nombre, Normalizado(alt, rg, ps[c].criterio.nombre))
  {
    assert ps[..c + 1][..c] == ps[..c];
    assert Nombres(ps)[c] == ps[c].criterio.nombre;
  }

  /** `pesos_dict`: criterion name to weight, one entry per distinct name. */
  function PesosDict(ps: seq<Ponderado>): (d: seq<Entry<real>>)
    ensures DistinctKeys(d)
    ensures forall k :: k in Keys(d) <==> k in Nombres(ps)
  {
    if |ps| == 0 then []
    else
      var c := ps[|ps| - 1];
      var init := ps[..|ps| - 1];
      assert Nombres(ps) == Nombres(init) + [c.criterio.nombre];
      Put(PesosDict(init), c.criterio.nombre, c.peso)
  }

  /** The weight stored under a name is that of the last criterion with the name. */
  lemma {:induction false} PesosDictUltimo(ps: seq<Ponderado>, i: nat)
    requires i < |ps|
    requires forall j :: i < j < |ps| ==> ps[j].criterio.nombre != ps[i].criterio.nombre
    ensures ps[i].criterio.nombre in Keys(PesosDict(ps)) && Lookup(PesosDict(ps), ps[i].criterio.nombre) == ps[i].peso
  {
    assert Nombres(ps)[i] == ps[i].criterio.nombre;
    if i < |ps| - 1 {
      PesosDictUltimo(ps[..|ps| - 1], i);
    }
  }

  function Evaluar(alt: Alternativa, ps: seq<Ponderado>, rg: map<string, Rango>, pd: seq<Entry<real>>): Resultado
    requires Cubre(rg, ps)
  {
    var d := Desglose(alt, ps, rg);
    Resultado(alt.nombre, Score(d, ps), d, pd)
  }

  function Evaluaciones(alts: seq<Alternativa>, ps: seq<Ponderado>, rg: map<string, Rango>, pd: seq<Entry<real>>): (r: seq<Resultado>)
    requires Cubre(rg, ps)
    ensures |r| == |alts| && forall i :: 0 <= i < |alts| ==> r[i] == Evaluar(alts[i], ps, rg, pd)
  {
    seq(|alts|, i requires 0 <= i < |alts| => Evaluar(alts[i], ps, rg, pd))
  }

  function Scores(rs: seq<Resultado>): (r: seq<real>)
    ensures |r| == |rs| && forall i :: 0 <= i < |rs| ==> r[i] == rs[i].score
  {
    seq(|rs|, i requires 0 <= i < |rs| => rs[i].score)
  }

  /** What rankear_alternativas returns: the error cases first, otherwise every alternative's
      evaluation, stably sorted by descending score. */
  function RankingWsm(alts: seq<Alternativa>, cs: seq<Criterio>): (r: Result<seq<Resultado>>)
    ensures |alts| == 0 ==> r == Err(EmptyAlternatives)
    ensures |alts| > 0 && |cs| == 0 ==> r == Err(EmptyCriteria)
    ensures |alts| > 0 && |cs| > 0 && Sum(Importancias(cs)) == 0.0 ==> r == Err(ZeroImportanceTotal)
    ensures r.Ok? <==> |alts| > 0 && |cs| > 0 && Sum(Importancias(cs)) != 0.0
    ensures r.Ok? ==> |r.value| == |alts|
  {
    if |alts| == 0 then Err(EmptyAlternatives)
    else if |cs| == 0 then Err(EmptyCriteria)
    else match Pesos(cs)
      case Err(e) => Err(e)
      case Ok(ps) => Ok(Clasificar(alts, ps))
  }

  /** Steps 2 to 5 for given weights: every alternative's evaluation over the global ranges,
      stably sorted by descending score. */
  function Clasificar(alts: seq<Alternativa>, ps: seq<Ponderado>): (r: seq<Resultado>)
    requires |alts| > 0
    ensures |r| == |alts|
  {
    var evs := Evaluaciones(alts, ps, RangosGlobales(alts, ps), PesosDict(ps));
    PorScore(evs)
  }

  /** `sorted(resultados, key=lambda x: x['score'], reverse=True)`: Python's sort is stable. */
  function PorScore(rs: seq<Resultado>): (r: seq<Resultado>)
    ensures |r| == |rs|
  {
    Permute(rs, RankDescending(Scores(rs)))
  }

  /** Step 2 of rankear_alternativas: the global range of every criterion, filled one
      criterion at a time from the list of representatives. */
  method CalcularRangos(alts: seq<Alternativa>, ps: seq<Ponderado>) returns (rg: map<string, Rango>)
    requires |alts| > 0
    ensures rg == RangosGlobales(alts, ps)
  {
    rg := map[];
    for i := 0 to |ps|
      invariant rg == RangosGlobales(alts, ps[..i])
    {
      assert ps[..i + 1][..i] == ps[..i];
      var c := ps[i].criterio;
      var promedios: seq<real> := [];
      for j := 0 to |alts|
        invariant |promedios| == j
        invariant forall k :: 0 <= k < j ==> promedios[k] == Representativo(alts[k], c.nombre)
      {
        promedios := promedios + [Representativo(alts[j], c.nombre)];
      }
      assert promedios == Representativos(alts, c.nombre);
      rg := rg[c.nombre := Rango(SeqMin(promedios), SeqMax(promedios), c.tipo)];
    }
    assert ps[..|ps|] == ps;
  }

  /** Steps 3 and 4 of rankear_alternativas for one alternative: its normalised value for every
      criterion, then its score. */
  method EvaluarAlternativa(alt: Alternativa, ps: seq<Ponderado>, rg: map<string, Rango>, pd: seq<Entry<real>>)
    returns (res: Resultado)
    requires Cubre(rg, ps)
    ensures res == Evaluar(alt, ps, rg, pd)
  {
    var vals: seq<Entry<real>> := [];
    for c := 0 to |ps|
      invariant vals == Desglose(alt, ps[..c], rg)
    {
      DesgloseSiguiente(alt, ps, rg, c);
      var nombre := ps[c].criterio.nombre;
      var rango := rg[nombre];
      vals := Put(vals, nombre, NormalizarValores(Representativo(alt, nombre), rango.min, rango.max, rango.tipo));
    }
    assert ps[..|ps|] == ps;
    var score := CalcularScore(vals, ps);
    res := Resultado(alt.nombre, score, vals, pd);
  }

  /** rankear_alternativas: weights, then the global ranges, then each alternative's breakdown
      and score, then the stable sort by descending score. */
  method RankearAlternativas(alts: seq<Alternativa>, cs: seq<Criterio>) returns (r: Result<seq<Resultado>>)
    ensures r == RankingWsm(alts, cs)
  {
    if |alts| == 0 {
      return Err(EmptyAlternatives);
    }
    if |cs| == 0 {
      return Err(EmptyCriteria);
    }
    var pr := NormalizarPesos(cs);
    if pr.Err? {
      return Err(pr.error);
    }
    var ranking := Ordenar(alts, pr.value);
    r := Ok(ranking);
  }

  /** Steps 2 to 5 of rankear_alternativas once the weights are known. */
  method Ordenar(alts: seq<Alternativa>, ps: seq<Ponderado>) returns (r: seq<Resultado>)
    requires |alts| > 0
    ensures r == Clasificar(alts, ps)
  {
    var rg := CalcularRangos(alts, ps);
    var pd := PesosDict(ps);
    RangosCubren(alts, ps);
    var resultados := EvaluarTodas(alts, ps, rg, pd);
    r := PorScore(resultados);
    ClasificarDe(alts, ps, rg, pd, resultados, r);
  }

  lemma RangosCubren(alts: seq<Alternativa>, ps: seq<Ponderado>)
    requires |alts| > 0
    ensures Cubre(RangosGlobales(alts, ps), ps)
  {
  }

  /** Step 3 of rankear_alternativas: the evaluation of every alternative, in input order. */
  method EvaluarTodas(alts: seq<Alternativa>, ps: seq<Ponderado>, rg: map<string, Rango>, pd: seq<Entry<real>>)
    returns (resultados: seq<Resultado>)
    requires Cubre(rg, ps)
    ensures resultados == Evaluaciones(alts, ps, rg, pd)
  {
    resultados := [];
    for a := 0 to |alts|
      invariant |resultados| == a
      invariant forall k :: 0 <= k < a ==> resultados[k] == Evaluar(alts[k], ps, rg, pd)
    {
      var res := EvaluarAlternativa(alts[a], ps, rg, pd);
      resultados := resultados + [res];
    }
    EvaluacionesSon(alts, ps, rg, pd, resultados);
  }

  lemma ClasificarDe(alts: seq<Alternativa>, ps: seq<Ponderado>, rg: map<string, Rango>, pd: seq<Entry<real>>,
                     rs: seq<Resultado>, r: seq<Resultado>)
    requires |alts| > 0 && rg == RangosGlobales(alts, ps) && pd == PesosDict(ps)
    requires Cubre(rg, ps) && rs == Evaluaciones(alts, ps, rg, pd) && r == PorScore(rs)
    ensures r == Clasificar(alts, ps)
  {
  }

  lemma EvaluacionesSon(alts: seq<Alternativa>, ps: seq<Ponderado>, rg: map<string, Rango>, pd: seq<Entry<real>>,
                        rs: seq<Resultado>)
    requires Cubre(rg, ps) && |rs| == |alts|
    requires forall k :: 0 <= k < |alts| ==> rs[k] == Evaluar(alts[k], ps, rg, pd)
    ensures rs == Evaluaciones(alts, ps, rg, pd)
  {
  }

  /** The ranking rearranges the evaluations of all alternatives: a stable descending ranking
      of their scores picks them, so scores never increase and ties keep input order. Every
      entry carries the same weight map. */
  lemma ClasificarOrdenado(alts: seq<Alternativa>, ps: seq<Ponderado>)
    requires |alts| > 0
    ensures var evs := Evaluaciones(alts, ps, RangosGlobales(alts, ps), PesosDict(ps));
      var r := Clasificar(alts, ps);
      && multiset(r) == multiset(evs)
      && (exists p :: StableRanking(Scores(evs), p) && r == Permute(evs, p))
      && (forall a, b :: 0 <= a < b < |r| ==> r[a].score >= r[b].score)
      && (forall k :: 0 <= k < |r| ==> r[k].pesos == PesosDict(ps))
  {
    var pd := PesosDict(ps);
    var evs := Evaluaciones(alts, ps, RangosGlobales(alts, ps), pd);
    assert Clasificar(alts, ps) == PorScore(evs);
    PorScoreOrdenado(evs);
    forall i | 0 <= i < |evs| ensures evs[i].pesos == pd {
      assert evs[i] == Evaluar(alts[i], ps, RangosGlobales(alts, ps), pd);
    }
    PorScorePesos(evs, pd);
  }

  lemma PorScorePesos(rs: seq<Resultado>, pd: seq<Entry<real>>)
    requires forall i :: 0 <= i < |rs| ==> rs[i].pesos == pd
    ensures forall k :: 0 <= k < |rs| ==> PorScore(rs)[k].pesos == pd
  {
    var p := RankDescending(Scores(rs));
    assert PorScore(rs) == Permute(rs, p);
  }

  /** Sorting by score: a rearrangement by a stable descending ranking of the scores, so the
      scores never increase. */
  lemma PorScoreOrdenado(rs: seq<Resultado>)
    ensures multiset(PorScore(rs)) == multiset(rs)
    ensures exists p :: StableRanking(Scores(rs), p) && PorScore(rs) == Permute(rs, p)
    ensures forall a, b :: 0 <= a < b < |rs| ==> PorScore(rs)[a].score >= PorScore(rs)[b].score
  {
    var keys := Scores(rs);
    var p := RankDescending(keys);
    PermuteRanked(rs, keys);
    var r := Permute(rs, p);
    assert PorScore(rs) == r;
    forall a, b | 0 <= a < b < |r| ensures r[a].score >= r[b].score {
      assert keys[p[a]] >= keys[p[b]];
    }
  }

  /** Every stored value lies in [0,1]. */
  ghost predicate EnUnidad(d: seq<Entry<real>>)
  {
    forall j :: 0 <= j < |d| ==> 0.0 <= d[j].val <= 1.0
  }

  /** Every breakdown value lies in [0,1]: the ranges are taken over exactly the values being
      normalised. */
  lemma DesgloseAcotado(alts: seq<Alternativa>, ps: seq<Ponderado>, a: nat)
    requires a < |alts|
    ensures EnUnidad(Desglose(alts[a], ps, RangosGlobales(alts, ps)))
  {
    var rg := RangosGlobales(alts, ps);
    var d := Desglose(alts[a], ps, rg);
    forall j | 0 <= j < |d| ensures 0.0 <= d[j].val <= 1.0 {
      LookupDistinct(d, j);
      RangosGlobalesAcotan(alts, ps, d[j].key);
    }
  }


  /** Non-negative weights that sum to 1. */
  ghost predicate PesosValidos(ps: seq<Ponderado>)
  {
    (forall i :: 0 <= i < |ps| ==> ps[i].peso >= 0.0) && Sum(PesosDe(ps)) == 1.0
  }

  /** An alternative's evaluation has its breakdown in [0,1], and with valid weights its score
      in [0,1]. */
  lemma EvaluarAcotado(alts: seq<Alternativa>, ps: seq<Ponderado>, pd: seq<Entry<real>>, a: nat)
    requires a < |alts|
    ensures var e := Evaluar(alts[a], ps, RangosGlobales(alts, ps), pd);
      EnUnidad(e.desglose) && (PesosValidos(ps) ==> 0.0 <= e.score <= 1.0)
  {
    var d := Desglose(alts[a], ps, RangosGlobales(alts, ps));
    DesgloseAcotado(alts, ps, a);
    if PesosValidos(ps) {
      ScoreEnUnidad(d, ps);
    }
  }

  /** With valid weights and every stored value in [0,1], the score lies in [0,1]. */
  lemma ScoreEnUnidad(d: seq<Entry<real>>, ps: seq<Ponderado>)
    requires PesosValidos(ps) && EnUnidad(d)
    ensures 0.0 <= Score(d, ps) <= 1.0
  {
    forall i | 0 <= i < |ps| ensures 0.0 <= Obtener(d, ps[i].criterio.nombre) <= 1.0 {
      var n := ps[i].criterio.nombre;
      if n in Keys(d) {
        assert Lookup(d, n) == d[Find(d, n)].val;
      }
    }
    ScoreAcotado(d, ps);
  }

  /** Every entry of the ranking has its breakdown in [0,1]; with non-negative weights that sum
      to 1 its score is in [0,1] too. */
  lemma ClasificarAcotado(alts: seq<Alternativa>, ps: seq<Ponderado>)
    requires |alts| > 0
    ensures var r := Clasificar(alts, ps);
      forall k :: 0 <= k < |r| ==> EnUnidad(r[k].desglose) && (PesosValidos(ps) ==> 0.0 <= r[k].score <= 1.0)
  {
    var rg := RangosGlobales(alts, ps);
    var evs := Evaluaciones(alts, ps, rg, PesosDict(ps));
    var p := RankDescending(Scores(evs));
    var r := Permute(evs, p);
    assert r == Clasificar(alts, ps);
    forall k | 0 <= k < |r|
      ensures EnUnidad(r[k].desglose) && (PesosValidos(ps) ==> 0.0 <= r[k].score <= 1.0)
    {
      assert r[k] == evs[p[k]];
      EvaluarAcotado(alts, ps, PesosDict(ps), p[k]);
    }
  }

  /** rankear_alternativas succeeds with the ranking of its normalised weights; when no
      importance is negative every score lies in [0,1]. */
  lemma RankingAcotado(alts: seq<Alternativa>, cs: seq<Criterio>)
    requires RankingWsm(alts, cs).Ok?
    ensures Pesos(cs).Ok? && RankingWsm(alts, cs).value == Clasificar(alts, Pesos(cs).value)
    ensures (forall i :: 0 <= i < |cs| ==> cs[i].importancia >= 0.0) ==>
      var r := RankingWsm(alts, cs).value;
      forall k :: 0 <= k < |r| ==> 0.0 <= r[k].score <= 1.0
  {
    var ps := Pesos(cs).value;
    assert RankingWsm(alts, cs).value == Clasificar(alts, ps);
    ClasificarAcotado(alts, ps);
    if forall i :: 0 <= i < |cs| ==> cs[i].importancia >= 0.0 {
      PesosAcotados(cs);
      assert PesosValidos(ps);
    }
  }
}
