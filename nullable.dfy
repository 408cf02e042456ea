/** Values that TypeScript types as `T | null | undefined`, and the truthiness tests the
    components apply to them. */
module Nullable {

  /** `None` stands for both `null` and `undefined`. */
  datatype Option<+T> = None | Some(value: T)

  /** JavaScript truthiness of an optional string: absent and `''` are falsy. */
  predicate TruthyText(s: Option<string>) {
    s.Some? && s.value != ""
  }

  /** JavaScript truthiness of an optional integer: absent and `0` are falsy. */
  predicate TruthyNumber(n: Option<int>) {
    n.Some? && n.value != 0
  }

  /** `value || fallback` for an optional string. */
  function TextOr(s: Option<string>, fallback: string): string
  {
    if TruthyText(s) then s.value else fallback
  }

  /** `value || false` for an optional boolean. */
  function FlagOrFalse(b: Option<bool>): bool
  {
    b.Some? && b.value
  }
}
