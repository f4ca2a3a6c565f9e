/**
 * The pieces of SQL text the repositories assemble: parameter values bound
 * to `$n` placeholders, sort directions, and JavaScript truthiness of the
 * optional filter arguments that decides whether a condition is added.
 */
module Query {
  import opened Wrappers

  /** A value bound to a placeholder. */
  datatype Value = VText(s: string) | VTextList(list: seq<string>) | VInt(n: int) | VBool(b: bool) | VNull

  datatype Dir = Asc | Desc

  /** A filter argument that may be one string or an array of strings. */
  datatype OneOrMany = One(s: string) | Many(list: seq<string>)

  /** An optional property of a JavaScript argument object: `undefined`, or a value (which may itself be null). */
  datatype Field<T> = Undefined | Defined(value: T) {
    /** `arg !== undefined ? arg : current`. */
    function Or(current: T): (r: T)
      ensures Defined? ==> r == value
      ensures Undefined? ==> r == current
    {
      if Defined? then value else current
    }
  }

  /** `if (arg)` on an optional string: absent and "" are falsy. */
  predicate Present(arg: Option<string>) {
    arg.Some? && arg.value != ""
  }

  /** `if (arg)` on a string-or-array: an array is truthy even when empty. */
  predicate PresentList(arg: Option<OneOrMany>) {
    arg.Some? && (arg.value.Many? || arg.value.s != "")
  }

  /** `Array.isArray(x) ? x : [x]`. */
  function AsList(x: OneOrMany): (r: seq<string>)
    ensures x.One? ==> r == [x.s]
    ensures x.Many? ==> r == x.list
  {
    match x
    case One(s) => [s]
    case Many(list) => list
  }

  /** `(page - 1) * pageSize`, the number of rows skipped before a page. */
  function Offset(page: int, pageSize: int): (r: int)
    ensures page >= 1 && pageSize >= 0 ==> r >= 0
    ensures r + pageSize == page * pageSize
  {
    (page - 1) * pageSize
  }

  /** Consecutive pages do not overlap and leave no gap: page p + 1 starts where page p ends. */
  lemma OffsetsAdjacent(page: int, pageSize: int)
    ensures Offset(page + 1, pageSize) == Offset(page, pageSize) + pageSize
  {
  }

  /** `Math.min(hi, Math.max(lo, x))`. */
  function Clamp(lo: int, hi: int, x: int): (r: int)
    requires lo <= hi
    ensures lo <= r <= hi
    ensures lo <= x <= hi ==> r == x
    ensures x < lo ==> r == lo
    ensures x > hi ==> r == hi
  {
    if x < lo then lo else if x > hi then hi else x
  }

  /** Clamping twice is clamping once. */
  lemma ClampIdempotent(lo: int, hi: int, x: int)
    requires lo <= hi
    ensures Clamp(lo, hi, Clamp(lo, hi, x)) == Clamp(lo, hi, x)
  {
  }
}
