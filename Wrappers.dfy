/** Failure-compatible wrappers shared by every module of the model. */
module Wrappers {

  /** A value that may be absent (JavaScript `undefined`). */
  datatype Option<+T> = None | Some(value: T) {
    function GetOr(default: T): T {
      match this
      case Some(v) => v
      case None => default
    }
  }

  /** The outcome of an operation that either returns a value or throws an error message. */
  datatype Result<+T> = Ok(value: T) | Err(error: string) {
    predicate IsFailure() {
      Err?
    }

    function PropagateFailure<U>(): Result<U>
      requires Err?
    {
      Err(error)
    }

    function Extract(): T
      requires Ok?
    {
      value
    }
  }

  /** JavaScript truthiness of an optional string: present and non-empty. */
  predicate Truthy(s: Option<string>) {
    s.Some? && s.value != ""
  }

  /** The text JavaScript produces when an optional string is interpolated into a template literal. */
  function Show(s: Option<string>): string {
    match s
    case Some(v) => v
    case None => "undefined"
  }

  predicate NoDash(s: string) {
    forall i :: 0 <= i < |s| ==> s[i] != '-'
  }

  /** A lookup key `a-b` built by concatenation names the pair `(x, y)` only if `a == x` and `b == y`,
      when `x` and `y` are dash-free codes (such as currency or country codes). */
  lemma PairKeyMatches(a: string, b: string, x: string, y: string)
    requires NoDash(x) && NoDash(y)
    ensures a + "-" + b == x + "-" + y <==> a == x && b == y
  {
    var k := a + "-" + b;
    var k2 := x + "-" + y;
    if k == k2 {
      assert k[|a|] == '-';
      assert a == k[..|a|] && x == k2[..|x|];
      assert b == k[|a| + 1..] && y == k2[|x| + 1..];
    }
  }
}
