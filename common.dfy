/** Values shared by every screen of the client: optional values, the closed
    set of session roles, and the JavaScript truthiness rules the screens rely
    on when they test an optional string. */
module Common {

  datatype Option<+T> = None | Some(value: T)

  /** The role held by the session store; an absent role is `None`. */
  datatype Role = Admin | Teacher | Student

  /** JavaScript truthiness of a string that may be null or undefined:
      `null`, `undefined` and the empty string are falsy. */
  predicate Truthy(s: Option<string>)
  {
    s.Some? && s.value != ""
  }

  /** `a || fallback` where `a` is an optional string. */
  function OrElse(a: Option<string>, fallback: string): (r: string)
    ensures Truthy(a) ==> r == a.value
    ensures !Truthy(a) ==> r == fallback
  {
    if Truthy(a) then a.value else fallback
  }

  /** `s.startsWith(p)` */
  predicate StartsWith(s: string, p: string)
  {
    |p| <= |s| && s[..|p|] == p
  }

  /** `s.endsWith(p)` */
  predicate EndsWith(s: string, p: string)
  {
    |p| <= |s| && s[|s| - |p|..] == p
  }

  /** Two prefixes of one string are prefixes of each other. */
  lemma PrefixesOfOneString(s: string, p: string, q: string)
    requires StartsWith(s, p) && StartsWith(s, q) && |p| <= |q|
    ensures StartsWith(q, p)
  {
  }

  /** A common prefix can be cancelled from two equal strings. */
  lemma CancelPrefix(p: string, x: string, y: string)
    requires p + x == p + y
    ensures x == y
  {
    assert x == (p + x)[|p|..];
    assert y == (p + y)[|p|..];
  }
}
