/**
 * The JavaScript values the loader passes around, reduced to what its
 * branches look at: whether a value is truthy, and which string a
 * "literal string or function of props" field evaluates to.
 */
module JsValues {
  import opened Wrappers

  /** An opaque JavaScript value. `FalsyValue` covers null, false, 0, '' and NaN. */
  datatype Value = Undefined | FalsyValue(code: nat) | TruthyValue(handle: nat)

  predicate Truthy(v: Value) {
    v.TruthyValue?
  }

  /** The identity of a JavaScript function value (a loader, onLoad or onError). */
  datatype Fn = Fn(handle: nat)

  /** Component props; only string-valued props are modelled. */
  type Props = map<string, string>

  /** A cache key: the evaluated chunk name, `None` when the field is undefined. */
  type Key = Option<string>

  /** A config field that is absent, a literal string, or a function of props. */
  datatype StrSpec = Missing | Literal(text: string) | Derived(f: Props -> string)

  /** JavaScript truthiness of the field itself: a function is truthy, so is a non-empty string. */
  predicate SpecTruthy(s: StrSpec) {
    s.Derived? || (s.Literal? && s.text != "")
  }

  /** Truthiness of an evaluated field. */
  predicate TextTruthy(o: Option<string>) {
    o.Some? && o.value != ""
  }

  /** The one evaluation of a field against props, as `callForString` does it. */
  function Evaluate(s: StrSpec, props: Props): Option<string> {
    match s
    case Missing => None
    case Literal(text) => Some(text)
    case Derived(f) => Some(f(props))
  }

  /** `x || ''` on an evaluated field. */
  function OrEmpty(o: Option<string>): string {
    if o.Some? then o.value else ""
  }
}
