/**
  The loosely typed hash that the deployment manifest parser hands to the
  cloud provider interface, and the Ruby lookups the manual network performs on it.
 */
module RawSpec {

  /** A value of the raw network spec. `Null` is Ruby's `nil`. */
  datatype Value = Null | Str(s: string) | List(items: seq<Value>) | Map(entries: map<string, Value>)

  /** `hash[key]`: a key that is missing reads as `nil`, exactly like one bound to `nil`. */
  function Get(m: map<string, Value>, key: string): (r: Value)
    ensures key in m ==> r == m[key]
    ensures r != Null ==> key in m
  {
    if key in m then m[key] else Null
  }

  /** `value[key]` on a nested hash; a value that is not a hash has no entries. */
  function Field(v: Value, key: string): (r: Value)
    ensures v.Map? && key in v.entries ==> r == v.entries[key]
    ensures !(v.Map? && key in v.entries) ==> r == Null
  {
    if v.Map? then Get(v.entries, key) else Null
  }

  /** Ruby's `Array#include?`: scans the list from the front for an element equal to `x`. */
  function Includes(xs: seq<Value>, x: Value): (r: bool)
    ensures r <==> x in xs
  {
    if xs == [] then false else xs[0] == x || Includes(xs[1..], x)
  }
}
