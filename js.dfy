/**
 * JavaScript values as the helpers and the audit utilities handle them: plain objects
 * are their entries in key order, and a property that is absent reads as `undefined`.
 */
module Js {

  /** `Composto` is an object or an array, carried as its JSON text. */
  datatype Valor = Indefinido | Nulo | Booleano(b: bool) | Numero(n: real) | Texto(s: string) | Composto(json: string)

  /** `Object.entries(obj)`. */
  type Objeto = seq<(string, Valor)>

  predicate ChavesUnicas(o: Objeto)
  {
    forall i, j :: 0 <= i < j < |o| ==> o[i].0 != o[j].0
  }

  /** `Object.keys(obj)`. */
  function Chaves(o: Objeto): (r: seq<string>)
    ensures |r| == |o| && forall k :: 0 <= k < |o| ==> r[k] == o[k].0
  {
    seq(|o|, k requires 0 <= k < |o| => o[k].0)
  }

  /** `obj?.[chave]`: the value of the first entry with that key, `undefined` when there is none. */
  function Obter(o: Objeto, chave: string): (v: Valor)
    ensures (forall k :: 0 <= k < |o| ==> o[k].0 != chave) ==> v == Indefinido
    ensures forall k :: 0 <= k < |o| && o[k].0 == chave && (forall j :: 0 <= j < k ==> o[j].0 != chave) ==> v == o[k].1
  {
    if o == [] then Indefinido
    else if o[0].0 == chave then o[0].1
    else Obter(o[1..], chave)
  }

  /** JavaScript truthiness: objects and arrays are always truthy. */
  predicate Verdadeiro(v: Valor)
  {
    match v
    case Indefinido => false
    case Nulo => false
    case Booleano(b) => b
    case Numero(n) => n != 0.0
    case Texto(s) => s != ""
    case Composto(_) => true
  }

  /**
   * `JSON.stringify(a) === JSON.stringify(b)`. Distinct values of this type serialize to
   * distinct texts (objects by their text), and `undefined` has no text on either side.
   */
  predicate MesmoJson(a: Valor, b: Valor) { a == b }
}
