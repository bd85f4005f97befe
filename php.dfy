/** The few pieces of PHP's runtime semantics that the importer depends on. */
module Php {

  /** A value that may be missing: PHP's null, false or an unset array key. */
  datatype Option<+T> = None | Some(value: T) {

    /** The `??` operator: the value, or the default when missing. */
    function GetOr(default: T): T {
      match this
      case Some(v) => v
      case None => default
    }
  }

  /** PHP's `empty()` on a string: the empty string and "0" are both empty. */
  predicate Empty(s: string) {
    s == "" || s == "0"
  }

  /** The truthiness of an optional string (`false` or a string) in an `if`. */
  predicate Truthy(v: Option<string>) {
    v.Some? && !Empty(v.value)
  }

  /** array_reverse on a list: the same elements, last first. */
  function ArrayReverse<T>(s: seq<T>): (r: seq<T>)
    ensures |r| == |s|
    ensures forall i :: 0 <= i < |s| ==> r[i] == s[|s| - 1 - i]
  {
    seq(|s|, i requires 0 <= i < |s| => s[|s| - 1 - i])
  }
}
