/** The few JavaScript value rules the configuration code leans on: truthiness of
    `undefined` and of the empty string, the `||` fallback, `process.env` as a map,
    decimal rendering of integers, and the hexadecimal-address regular expression. */
module JsText {
  import opened Wrappers

  /** `process.env`: every variable that is set, with its (possibly empty) text. */
  type Env = map<string, string>

  /** A string-valued JavaScript expression is falsy exactly when it is `undefined` or "". */
  predicate Truthy(s: Option<string>) {
    s.Some? && |s.value| > 0
  }

  /** `a || b` for a string-or-undefined `a` and a string `b`. */
  function OrElse(a: Option<string>, b: string): (r: string)
    ensures Truthy(a) ==> r == a.value
    ensures !Truthy(a) ==> r == b
  {
    if Truthy(a) then a.value else b
  }

  /** `a || null`: `undefined` and "" both collapse to null. */
  function OrNull(a: Option<string>): (r: Option<string>)
    ensures r.Some? <==> Truthy(a)
    ensures r.Some? ==> r == a
  {
    if Truthy(a) then a else None
  }

  function Lookup<K, V>(m: map<K, V>, k: K): (r: Option<V>)
    ensures r.Some? <==> k in m
    ensures r.Some? ==> r.value == m[k]
  {
    if k in m then Some(m[k]) else None
  }

  /** `process.env[k]`. */
  function EnvVar(env: Env, k: string): Option<string> {
    Lookup(env, k)
  }

  /** `!!process.env[k]`: the variable is present and not empty. */
  predicate EnvSet(env: Env, k: string) {
    k in env && |env[k]| > 0
  }

  /** Whether a variable is set depends on its value alone. */
  lemma EnvSetFollowsEnvVar(env1: Env, env2: Env, k: string)
    requires EnvVar(env1, k) == EnvVar(env2, k)
    ensures EnvSet(env1, k) == EnvSet(env2, k)
  {
    assert EnvSet(env1, k) == Truthy(EnvVar(env1, k));
  }

  // ---------------------------------------------------------------------------
  // Decimal rendering (`BigInt.prototype.toString()` / `Number.prototype.toString()`
  // for integers) and its inverse.

  predicate IsDigit(c: char) {
    '0' <= c <= '9'
  }

  predicate AllDigits(s: string) {
    forall i :: 0 <= i < |s| ==> IsDigit(s[i])
  }

  function DigitChar(d: nat): (c: char)
    requires d < 10
    ensures IsDigit(c) && c as int - '0' as int == d
  {
    (d + '0' as int) as char
  }

  function NatToString(n: nat): (s: string)
    ensures |s| > 0 && AllDigits(s)
    ensures s[0] == '0' <==> n == 0
    decreases n
  {
    if n < 10 then [DigitChar(n)] else NatToString(n / 10) + [DigitChar(n % 10)]
  }

  /** The JavaScript rendering of an integer number: a minus sign before a negative one. */
  function IntToString(n: int): (s: string)
    ensures |s| > 0
    ensures n >= 0 ==> s == NatToString(n)
    ensures n < 0 ==> s == "-" + NatToString(-n)
  {
    if n >= 0 then NatToString(n) else "-" + NatToString(-n)
  }

  /** The value of a string of decimal digits. */
  function DecimalValue(s: string): nat
    requires AllDigits(s)
    decreases |s|
  {
    if s == [] then 0 else DecimalValue(s[..|s| - 1]) * 10 + (s[|s| - 1] as int - '0' as int)
  }

  /** Rendering then reading back gives the number again. */
  lemma {:induction false} DecimalRoundTrip(n: nat)
    ensures DecimalValue(NatToString(n)) == n
    decreases n
  {
    var s := NatToString(n);
    if n >= 10 {
      var p := NatToString(n / 10);
      assert s[..|s| - 1] == p;
      DecimalRoundTrip(n / 10);
    }
  }

  /** Two numbers with the same rendering are equal. */
  lemma NatToStringInjective(a: nat, b: nat)
    requires NatToString(a) == NatToString(b)
    ensures a == b
  {
    DecimalRoundTrip(a);
    DecimalRoundTrip(b);
  }

  function Pow10(k: nat): (p: nat)
    ensures p >= 1
  {
    if k == 0 then 1 else 10 * Pow10(k - 1)
  }

  /** Appending a digit multiplies by ten and adds it. */
  lemma DecimalAppend(s: string, c: char)
    requires AllDigits(s) && IsDigit(c)
    ensures AllDigits(s + [c])
    ensures DecimalValue(s + [c]) == DecimalValue(s) * 10 + (c as int - '0' as int)
  {
    assert (s + [c])[..|s|] == s;
  }

  /** A one followed by k zeros is ten to the k. */
  lemma {:induction false} OneThenZeros(k: nat)
    ensures AllDigits("1" + seq(k, _ => '0'))
    ensures DecimalValue("1" + seq(k, _ => '0')) == Pow10(k)
  {
    if k > 0 {
      OneThenZeros(k - 1);
      var s := "1" + seq(k - 1, _ => '0');
      assert "1" + seq(k, _ => '0') == s + ['0'];
      DecimalAppend(s, '0');
    }
  }

  // ---------------------------------------------------------------------------
  // The regular expression /^0x[a-fA-F0-9]{40}$/.

  predicate IsHexChar(c: char) {
    ('0' <= c <= '9') || ('a' <= c <= 'f') || ('A' <= c <= 'F')
  }

  predicate IsHexAddress(s: string) {
    |s| == 42 && s[0] == '0' && s[1] == 'x' && forall i :: 2 <= i < 42 ==> IsHexChar(s[i])
  }

  /** `arr.join(', ')`. */
  function JoinComma(parts: seq<string>): string
    decreases |parts|
  {
    if parts == [] then "" else if |parts| == 1 then parts[0] else parts[0] + ", " + JoinComma(parts[1..])
  }

  /** `xs.filter(keep).length`. */
  function CountWhere<T>(xs: seq<T>, keep: T -> bool): (n: nat)
    ensures n <= |xs|
    decreases |xs|
  {
    if xs == [] then 0 else (if keep(xs[0]) then 1 else 0) + CountWhere(xs[1..], keep)
  }

  /** A filter and the filter of its negation split the list between them. */
  lemma {:induction false} CountComplement<T>(xs: seq<T>, keep: T -> bool, drop: T -> bool)
    requires forall x :: drop(x) == !keep(x)
    ensures CountWhere(xs, keep) + CountWhere(xs, drop) == |xs|
    decreases |xs|
  {
    if xs != [] {
      CountComplement(xs[1..], keep, drop);
    }
  }

  /** The value an object built from the literal `props` holds for `key`: that of the last
      property naming the key, since a later property of a literal overwrites an earlier
      one. */
  function PropertyValue<V>(props: seq<(string, V)>, key: string): (v: Option<V>)
    ensures v.None? <==> forall i :: 0 <= i < |props| ==> props[i].0 != key
    ensures v.Some? ==>
      exists i :: 0 <= i < |props| && props[i] == (key, v.value) && forall j :: i < j < |props| ==> props[j].0 != key
    decreases |props|
  {
    if props == [] then None
    else if props[|props| - 1].0 == key then Some(props[|props| - 1].1)
    else
      var front := props[..|props| - 1];
      assert forall i :: 0 <= i < |front| ==> front[i] == props[i];
      PropertyValue(front, key)
  }

  /** The ASCII white space and line terminators `BigInt(text)` trims. */
  predicate IsJsSpace(c: char) {
    c == ' ' || c == '\t' || c == '\n' || c == '\r' || c == '\U{000B}' || c == '\U{000C}'
  }

  function TrimSpace(s: string): (t: string)
    ensures |t| <= |s|
    ensures |t| > 0 ==> !IsJsSpace(t[0]) && !IsJsSpace(t[|t| - 1])
    decreases |s|
  {
    if |s| > 0 && IsJsSpace(s[0]) then TrimSpace(s[1..])
    else if |s| > 0 && IsJsSpace(s[|s| - 1]) then TrimSpace(s[..|s| - 1])
    else s
  }

  predicate AllOf(s: string, digit: char -> bool) {
    forall i :: 0 <= i < |s| ==> digit(s[i])
  }

  /** A decimal integer with an optional sign, or a `0x`, `0o` or `0b` literal without one. */
  predicate IsIntegerLiteral(t: string) {
    var unsigned := if |t| > 0 && (t[0] == '+' || t[0] == '-') then t[1..] else t;
    || (|unsigned| > 0 && AllOf(unsigned, (c: char) => '0' <= c <= '9'))
    || (|t| > 2 && t[0] == '0' && (t[1] == 'x' || t[1] == 'X') && AllOf(t[2..], IsHexChar))
    || (|t| > 2 && t[0] == '0' && (t[1] == 'o' || t[1] == 'O') && AllOf(t[2..], (c: char) => '0' <= c <= '7'))
    || (|t| > 2 && t[0] == '0' && (t[1] == 'b' || t[1] == 'B') && AllOf(t[2..], (c: char) => c == '0' || c == '1'))
  }

  /** `BigInt(text)` succeeds: the trimmed text is empty (giving 0) or an integer literal;
      anything else, such as a decimal fraction, throws a SyntaxError. */
  predicate BigIntAccepts(text: string) {
    var t := TrimSpace(text);
    t == "" || IsIntegerLiteral(t)
  }

  /** Text without surrounding white space is read as it stands. */
  lemma TrimSpaceOfTrimmed(s: string)
    requires |s| > 0 && !IsJsSpace(s[0]) && !IsJsSpace(s[|s| - 1])
    ensures TrimSpace(s) == s
  {
  }

  /** Integers with or without sign or padding, a hexadecimal literal, and the empty
      text are read. */
  lemma BigIntAcceptsIntegers()
    ensures BigIntAccepts("1") && BigIntAccepts("-7") && BigIntAccepts("0x1F") && BigIntAccepts("")
    ensures BigIntAccepts(" 42 ")
  {
    TrimSpaceOfTrimmed("1");
    TrimSpaceOfTrimmed("-7");
    assert "-7"[1..] == "7";
    TrimSpaceOfTrimmed("0x1F");
    assert "0x1F"[2..] == "1F";
    TrimSpaceOfTrimmed("42");
    assert " 42 "[1..] == "42 ";
    assert "42 "[..2] == "42";
  }

  /** A decimal fraction, an exponent, a word and a signed hexadecimal literal throw. */
  lemma BigIntRejectsNonIntegers()
    ensures !BigIntAccepts("1.5") && !BigIntAccepts("1e3") && !BigIntAccepts("abc") && !BigIntAccepts("-0x1")
  {
    TrimSpaceOfTrimmed("1.5");
    TrimSpaceOfTrimmed("1e3");
    TrimSpaceOfTrimmed("abc");
    TrimSpaceOfTrimmed("-0x1");
    assert "1.5"[1] == '.' && "1e3"[1] == 'e' && "abc"[0] == 'a';
    assert "-0x1"[1..][1] == 'x';
  }
}
