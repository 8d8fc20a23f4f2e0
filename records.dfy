/** The records the engine reads: a criterion row (name, importance, direction) and an
    alternative row (name plus numeric fields such as `Costo_Min`, `Costo_Max` or `Costo`). */
module Records {

  /** A criterion row: `Criterio`, `Importancia (1-10)` and `Tipo`. */
  datatype Criterio = Criterio(nombre: string, importancia: real, tipo: string)

  /** An alternative row: its `Alternativa` name and every other column by header. */
  datatype Alternativa = Alternativa(nombre: string, campos: map<string, real>)

  /** A global range entry: `{'min': ..., 'max': ..., 'tipo': ...}`. */
  datatype Rango = Rango(min: real, max: real, tipo: string)

  function NombresCriterios(cs: seq<Criterio>): (r: seq<string>)
    ensures |r| == |cs| && forall i :: 0 <= i < |cs| ==> r[i] == cs[i].nombre
  {
    seq(|cs|, i requires 0 <= i < |cs| => cs[i].nombre)
  }

  function ColMin(nombre: string): string
  {
    nombre + "_Min"
  }

  function ColMax(nombre: string): string
  {
    nombre + "_Max"
  }

  /** The alternative has both interval columns of the criterion. */
  predicate TieneIntervalo(alt: Alternativa, nombre: string)
  {
    ColMin(nombre) in alt.campos && ColMax(nombre) in alt.campos
  }

  /** Lower-casing of one character, on the ASCII letters. */
  function Minuscula(c: char): (d: char)
    ensures 'A' <= c <= 'Z' ==> 'a' <= d <= 'z'
    ensures !('A' <= c <= 'Z') ==> d == c
  {
    if 'A' <= c <= 'Z' then (c as int + 32) as char else c
  }

  /** `str.lower()`, on the ASCII letters. */
  function Minusculas(s: string): (t: string)
    ensures |t| == |s| && forall i :: 0 <= i < |s| ==> t[i] == Minuscula(s[i])
  {
    seq(|s|, i requires 0 <= i < |s| => Minuscula(s[i]))
  }

  /** `tipo.lower() == 'minimizar'`: the criterion is a cost, lower is better. */
  predicate EsMinimizar(tipo: string)
  {
    Minusculas(tipo) == "minimizar"
  }

  /** Any capitalisation of "minimizar" selects the minimising direction. */
  lemma MinimizarSinMayusculas()
    ensures EsMinimizar("minimizar") && EsMinimizar("Minimizar") && EsMinimizar("MINIMIZAR")
    ensures !EsMinimizar("maximizar") && !EsMinimizar("Maximizar")
  {
    assert Minusculas("Minimizar") == "minimizar";
    assert Minusculas("MINIMIZAR") == "minimizar";
    assert Minusculas("maximizar")[2] == 'x';
    assert Minusculas("Maximizar")[2] == 'x';
  }
}
