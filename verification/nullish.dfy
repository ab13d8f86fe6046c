/**
 * JSON fields as the JavaScript source sees them: a key is either present
 * with a value or missing. A missing key and a key holding `null` are not
 * told apart here; the nullish operator `??` treats them alike.
 */
module Nullish {

  /** A possibly missing field value. */
  datatype Option<T> = None | Some(value: T)
  {
    /** JavaScript's `x ?? d`: the value when present, `d` otherwise. */
    function Or(d: T): T
    {
      match this
      case Some(v) => v
      case None => d
    }
  }

  /**
   * One key of an object spread `{...under, ...over}`: the later object's
   * value wins whenever it has the key.
   */
  function Spread<T>(under: Option<T>, over: Option<T>): Option<T>
  {
    if over.Some? then over else under
  }

  /** `over` holds a value wherever `under` does. */
  predicate Covers<T>(over: Option<T>, under: Option<T>)
  {
    under.Some? ==> over.Some?
  }
}
