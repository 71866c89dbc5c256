/** Values shared by every part of the dashboard model: optional values, the settled state of an
    awaited call, the errors the managers throw, and JavaScript truthiness of optional fields. */
module Common {

  /** `T | undefined` in the source: an optional field that may be absent. */
  datatype Option<+T> = None | Some(value: T)

  /** One element of a validation error as thrown by the managers: `{location, message}`. */
  datatype ErrorItem = ErrorItem(location: string, message: string)

  /** What a caught exception can be: an array of validation items, or anything else. */
  datatype Thrown = ValidationList(items: seq<ErrorItem>) | Unexpected

  /** The settled state of an awaited call that yields a value. */
  datatype Outcome<+T> = Resolved(value: T) | Rejected(error: Thrown)

  /** The settled state of an awaited call whose value is not used. */
  datatype Completion = Completed | Threw(error: Thrown)

  /** `if (s)` on an optional string: `undefined`, `null` and `""` are falsy. */
  predicate TruthyText(s: Option<string>) {
    s.Some? && s.value != ""
  }

  /** `if (n)` on an optional integer: `undefined`, `null` and `0` are falsy. */
  predicate TruthyNumber(n: Option<int>) {
    n.Some? && n.value != 0
  }

  /** `if (b)` on an optional boolean: only `true` is truthy. */
  predicate TruthyFlag(b: Option<bool>) {
    b == Some(true)
  }

  /** Position of the first occurrence of `c` in `s`. */
  function FirstIndex(s: string, c: char): (k: nat)
    requires c in s
    ensures k < |s| && s[k] == c && c !in s[..k]
  {
    if s[0] == c then 0
    else
      var k := 1 + FirstIndex(s[1..], c);
      assert s[..k] == [s[0]] + s[1..][..k - 1];
      k
  }
}
