/**
 * The fragment of JavaScript values the console's frontend manipulates:
 * optional object properties (which may be absent, `null` or set) and the
 * values that end up inside a JSON command payload.
 */
module JsValues {

  /**
   * An optional property of a JavaScript options object. `Missing` is an
   * absent key (reading it yields `undefined`), `Null` is an explicit `null`,
   * and `Given(v)` is a supplied value. The distinction matters because the
   * nullish-coalescing operator `??` replaces both `Missing` and `Null`,
   * whereas a test `x !== undefined` only rejects `Missing`.
   */
  datatype Nullable<+T> = Missing | Null | Given(value: T) {

    /** `this ?? fallback`: the supplied value unless it is null or undefined. */
    function Coalesce(fallback: T): (r: T)
      ensures Given? ==> r == value
      ensures !Given? ==> r == fallback
    {
      if Given? then value else fallback
    }

    /** `this !== undefined`: true for a supplied value and for an explicit null. */
    function IsDefined(): (defined: bool)
      ensures defined <==> (Given? || Null?)
    {
      !Missing?
    }
  }

  /**
   * The two tests disagree exactly on an explicit `null`: it passes
   * `!== undefined`, yet `??` still replaces it with the fallback.
   */
  lemma DefinedVersusCoalesce<T>(x: Nullable<T>, fallback: T)
    ensures x.Missing? ==> !x.IsDefined() && x.Coalesce(fallback) == fallback
    ensures x.Null? ==> x.IsDefined() && x.Coalesce(fallback) == fallback
    ensures x.Given? ==> x.IsDefined() && x.Coalesce(fallback) == x.value
  {
  }

  /**
   * A JSON value as it appears in a command payload. JavaScript numbers are
   * modelled as exact reals: the payload builders only copy them.
   */
  datatype Value = Str(s: string) | Num(n: real) | NullValue

  /** A JSON object: property name to value. */
  type Payload = map<string, Value>
}
