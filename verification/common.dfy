/**
 * Shared value types for the model: an Option datatype and JavaScript's
 * notion of a "truthy" optional string, which the source uses everywhere
 * (`a || b`, `if (x)`), so that `undefined`, `null` and `""` all count as absent.
 */
module Common {

  datatype Option<+T> = None | Some(value: T) {

    /** The carried value, or `default` when there is none. */
    function GetOr(default: T): T {
      match this
      case Some(v) => v
      case None => default
    }
  }

  /** An optional string is truthy when it is present and not empty. */
  predicate Truthy(o: Option<string>) {
    o.Some? && o.value != ""
  }

  /** JavaScript `o || d` for an optional string and a fallback string. */
  function OrElse(o: Option<string>, d: string): (r: string)
    ensures Truthy(o) ==> r == o.value
    ensures !Truthy(o) ==> r == d
  {
    if Truthy(o) then o.value else d
  }

  /** JavaScript `s || d` for a plain string. */
  function StrOr(s: string, d: string): (r: string)
    ensures s != "" ==> r == s
    ensures s == "" ==> r == d
  {
    if s != "" then s else d
  }

  /** Truthy optional strings only: `""` becomes None. */
  function Normalize(o: Option<string>): (r: Option<string>)
    ensures r.Some? <==> Truthy(o)
    ensures r.Some? ==> r.value == o.value
  {
    if Truthy(o) then o else None
  }

  /**
   * The property names every plain JavaScript object inherits from
   * `Object.prototype`. Indexing an object literal with one of them finds a
   * function (or, for `__proto__`, the prototype object), not `undefined`.
   */
  const InheritedKeys: set<string> := {
    "constructor", "__proto__", "hasOwnProperty", "isPrototypeOf", "propertyIsEnumerable",
    "toString", "toLocaleString", "valueOf",
    "__defineGetter__", "__defineSetter__", "__lookupGetter__", "__lookupSetter__"}

  function Min(a: int, b: int): int {
    if a <= b then a else b
  }

  function Max(a: int, b: int): int {
    if a >= b then a else b
  }
}
