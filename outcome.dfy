/**
 * Handler outcomes shared by every route module.
 *
 * Each HTTP handler of the backend answers with a success status (200/201) or
 * an error status; only the error class matters to the model.
 */
module Outcome {

  /** Row identifiers (UUIDs in the database) and foreign keys. */
  type Id = string

  datatype Option<T> = None | Some(value: T)
  {
    /** `x || fallback` in the source: the value when present, else the fallback. */
    function GetOr(fallback: T): T
    {
      if this.Some? then this.value else fallback
    }
  }

  /** JavaScript truthiness of an optional string: present and non-empty. */
  predicate Truthy(s: Option<string>) { s.Some? && s.value != "" }

  /** `s || null`: an empty string is stored as null. */
  function OrNull(s: Option<string>): (r: Option<string>)
    ensures r.Some? <==> Truthy(s)
    ensures r.Some? ==> r == s
  {
    if Truthy(s) then s else None
  }

  /**
   * A field of a request body that no schema checks: absent (`undefined`), JSON
   * `null`, or a value.
   */
  datatype Campo<T> = Ausente | Nulo | Valor(valor: T)

  /** The column went from `antes` to `depois` as the body field `c` says. */
  predicate Aplicado<T(==)>(c: Campo<T>, antes: Option<T>, depois: Option<T>)
  {
    (c.Ausente? ==> depois == antes) && (c.Nulo? ==> depois.None?) && (c.Valor? ==> depois == Some(c.valor))
  }

  /**
   * A nullable column written only when the body has the field (`!== undefined`):
   * an absent field keeps the column, `null` clears it, a value replaces it.
   */
  function Escrito<T(==)>(c: Campo<T>, atual: Option<T>): (r: Option<T>)
    ensures Aplicado(c, atual, r)
  {
    match c
    case Ausente => atual
    case Nulo => None
    case Valor(v) => Some(v)
  }

  /**
   * 2xx, 404, 400 and 409 responses, and the 500 the application's error handler
   * answers when a handler throws.
   */
  datatype Outcome = Ok | NotFound | BadRequest | Conflict | ServerError
  {
    predicate IsError() { !this.Ok? }
  }

  /** A response carrying a value on success. */
  datatype Result<T> = Success(value: T) | Failure(error: Outcome)
  {
    predicate IsSuccess() { this.Success? }
  }

  function Max(a: int, b: int): int { if a >= b then a else b }

  function MaxReal(a: real, b: real): real { if a >= b then a else b }
}
