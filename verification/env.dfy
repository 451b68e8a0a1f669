/** The process environment as both handlers see it, together with the small
    pieces of JavaScript string semantics the handlers rely on: truthiness of an
    environment value, `value || default`, `value === 'true'`,
    `String.prototype.includes` and the decimal rendering of a count inside a
    template literal.
 */
module Env {

  datatype Option<+T> = None | Some(value: T)

  /** A snapshot of `process.env`: a variable that is not a key is undefined. */
  type Environment = map<string, string>

  /** `process.env[name]`: undefined when the variable does not exist. */
  function Get(env: Environment, name: string): Option<string> {
    if name in env then Some(env[name]) else None
  }

  /** JavaScript truthiness of an optional string: undefined and "" are falsy. */
  predicate Truthy(v: Option<string>) {
    v.Some? && v.value != ""
  }

  /** `!!process.env[name]`: the variable exists and is not empty. */
  predicate IsSet(env: Environment, name: string) {
    Truthy(Get(env, name))
  }

  /** `process.env[name] || fallback`. */
  function OrDefault(env: Environment, name: string, fallback: string): (r: string)
    ensures IsSet(env, name) ==> name in env && r == env[name]
    ensures !IsSet(env, name) ==> r == fallback
  {
    OrElse(Get(env, name), fallback)
  }

  /** `v || fallback` for an optional string. */
  function OrElse(v: Option<string>, fallback: string): string {
    match v
    case Some(s) => if s != "" then s else fallback
    case None => fallback
  }

  /** `process.env[name] === literal`: strict equality, so undefined never matches. */
  predicate Equals(env: Environment, name: string, literal: string) {
    Get(env, name) == Some(literal)
  }

  /** `process.env[name] === 'true'`. */
  predicate IsTrue(env: Environment, name: string) {
    Equals(env, name, "true")
  }

  /** `name` reads the same in both environments as far as the handlers can
      tell: set in both with the same value, or unset (absent or empty) in both. */
  predicate SameReading(env1: Environment, env2: Environment, name: string) {
    (IsSet(env1, name) <==> IsSet(env2, name))
    && (IsSet(env1, name) ==> env1[name] == env2[name])
  }

  /** `SameReading` on every listed name. */
  predicate AgreeOn(env1: Environment, env2: Environment, names: seq<string>) {
    forall i :: 0 <= i < |names| ==> SameReading(env1, env2, names[i])
  }

  /** Every read the handlers make of a variable, `||` with a fallback and
      strict equality with a non-empty literal, sees no difference between
      environments that read `name` the same. */
  lemma SameReadingSameResults(env1: Environment, env2: Environment, name: string, fallback: string, literal: string)
    requires SameReading(env1, env2, name)
    requires literal != ""
    ensures OrDefault(env1, name, fallback) == OrDefault(env2, name, fallback)
    ensures Equals(env1, name, literal) <==> Equals(env2, name, literal)
  {
  }

  /** An empty value reads the same as no value at all. */
  lemma EmptyReadsAsUnset(env: Environment, name: string)
    ensures SameReading(env[name := ""], env - {name}, name)
    ensures !IsSet(env[name := ""], name)
  {
  }

  // ---------------------------------------------------------------------------
  // Substring search (`String.prototype.includes`)
  // ---------------------------------------------------------------------------

  predicate StartsWith(s: string, prefix: string) {
    |prefix| <= |s| && s[..|prefix|] == prefix
  }

  /** `s.includes(sub)`, searched from the left one position at a time. */
  predicate Contains(s: string, sub: string)
    decreases |s|
  {
    StartsWith(s, sub) || (|s| > 0 && Contains(s[1..], sub))
  }

  /** `sub` occurs in `s` starting at index `i`. */
  ghost predicate OccursAt(s: string, sub: string, i: int) {
    0 <= i && i + |sub| <= |s| && s[i..i + |sub|] == sub
  }

  lemma {:induction false} OccursAtShift(s: string, sub: string, i: int)
    requires |s| > 0 && 0 <= i
    ensures OccursAt(s[1..], sub, i) <==> OccursAt(s, sub, i + 1)
  {
    if 0 <= i && i + |sub| <= |s| - 1 {
      assert s[1..][i..i + |sub|] == s[i + 1..i + 1 + |sub|];
    }
  }

  /** The search agrees with the positional definition of a substring. */
  lemma {:induction false} ContainsIffOccurs(s: string, sub: string)
    ensures Contains(s, sub) <==> exists i :: OccursAt(s, sub, i)
    decreases |s|
  {
    if StartsWith(s, sub) {
      assert OccursAt(s, sub, 0);
    } else if |s| > 0 {
      ContainsIffOccurs(s[1..], sub);
      if Contains(s[1..], sub) {
        var j :| OccursAt(s[1..], sub, j);
        OccursAtShift(s, sub, j);
      }
      if exists i :: OccursAt(s, sub, i) {
        var i :| OccursAt(s, sub, i);
        assert i != 0;
        OccursAtShift(s, sub, i - 1);
      }
    }
  }

  // ---------------------------------------------------------------------------
  // Decimal rendering of a count (`${n}` in a template literal)
  // ---------------------------------------------------------------------------

  predicate IsDigit(c: char) {
    '0' <= c <= '9'
  }

  predicate AllDigits(s: string) {
    forall i :: 0 <= i < |s| ==> IsDigit(s[i])
  }

  function DigitChar(d: nat): (c: char)
    requires d < 10
    ensures IsDigit(c)
  {
    (48 + d) as char
  }

  function DigitValue(c: char): (d: nat)
    requires IsDigit(c)
    ensures d < 10
  {
    (c as int - 48) as nat
  }

  /** The shortest decimal numeral of `n`, as JavaScript renders a non-negative integer. */
  function NatToString(n: nat): (s: string)
    ensures 1 <= |s|
    ensures AllDigits(s)
    ensures s[0] == '0' ==> n == 0
    decreases n
  {
    if n < 10 then [DigitChar(n)] else NatToString(n / 10) + [DigitChar(n % 10)]
  }

  /** The value of a decimal numeral (a reader's view of the rendered count). */
  function ParseDigits(s: string): (n: nat)
    requires AllDigits(s)
    decreases |s|
  {
    if s == [] then 0 else ParseDigits(s[..|s| - 1]) * 10 + DigitValue(s[|s| - 1])
  }

  lemma {:induction false} ParseNatToString(n: nat)
    ensures ParseDigits(NatToString(n)) == n
    decreases n
  {
    var s := NatToString(n);
    if n < 10 {
      assert s[..|s| - 1] == [];
    } else {
      ParseNatToString(n / 10);
      assert s[..|s| - 1] == NatToString(n / 10);
    }
  }

  /** The longest prefix of `s` made of decimal digits. */
  function LeadingDigits(s: string): (p: string)
    ensures AllDigits(p)
    ensures |p| <= |s| && p == s[..|p|]
    ensures |p| < |s| ==> !IsDigit(s[|p|])
    decreases |s|
  {
    if s != [] && IsDigit(s[0]) then [s[0]] + LeadingDigits(s[1..]) else []
  }

  lemma {:induction false} LeadingDigitsOfNumeral(digits: string, rest: string)
    requires AllDigits(digits)
    requires rest == [] || !IsDigit(rest[0])
    ensures LeadingDigits(digits + rest) == digits
    decreases |digits|
  {
    if digits != [] {
      assert (digits + rest)[1..] == digits[1..] + rest;
      LeadingDigitsOfNumeral(digits[1..], rest);
    } else {
      assert digits + rest == rest;
    }
  }
}
