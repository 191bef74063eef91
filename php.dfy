/**
 * The PHP values the gateway reads and stores, with the few PHP rules it relies on
 * fixed as explicit definitions instead of loose comparison.
 *
 * Representation: a numeric value is always `Int`; everything else is `Str`. WordPress
 * stores a NULL meta value as the empty string and `get_post_meta(..., true)` answers the
 * empty string for a key that was never written, so both read as `Str("")`.
 */
module Php {
  import opened Wrappers

  datatype Value = Int(n: int) | Str(s: string)

  /** PHP's `empty()` on a string: the empty string and "0". */
  predicate EmptyText(s: string) {
    s == "" || s == "0"
  }

  /** A decoded text field that is present and not `empty()`. */
  predicate Filled(o: Option<string>) {
    o.Some? && !EmptyText(o.value)
  }

  /** A decoded integer field that is present and not `empty()` (not 0). */
  predicate FilledInt(o: Option<int>) {
    o.Some? && o.value != 0
  }

  /** `empty($x) ? NULL : $x` on a text field, as it is then stored. */
  function TextField(o: Option<string>): Value {
    if Filled(o) then Str(o.value) else Str("")
  }

  /** `empty($x) ? NULL : $x` on an integer field, as it is then stored. */
  function IntField(o: Option<int>): Value {
    if FilledInt(o) then Int(o.value) else Str("")
  }

  /** `get_post_meta($order_id, $key, true)`. */
  function MetaGet(meta: map<string, Value>, key: string): Value {
    if key in meta then meta[key] else Str("")
  }

  /** The numeric comparison `$v >= bound`; a non-numeric value never passes. */
  predicate AtLeast(v: Value, bound: int) {
    v.Int? && v.n >= bound
  }

  /** Decimal digits of a natural number. */
  function NatDigits(n: nat): string
    decreases n
  {
    if n < 10 then [(48 + n) as char] else NatDigits(n / 10) + [(48 + n % 10) as char]
  }

  /** The text PHP substitutes for a value inside a string. */
  function Text(v: Value): string {
    match v
    case Str(s) => s
    case Int(n) => if n < 0 then "-" + NatDigits(-n) else NatDigits(n)
  }
}
