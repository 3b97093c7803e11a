/** The pieces of the Kotlin and JVM runtime that the app's core relies on:
    nullable values, `kotlin.Result`, the string functions `contains`,
    `substringAfter`, `substringBefore` and `Int.toString()`, the rendering of a
    nullable value inside a string template, and the JVM exception classes the
    network layer distinguishes. */
module Kotlin {

  /** A nullable value `T?`. */
  datatype Option<+T> = None | Some(value: T) {
    /** Kotlin's elvis operator `this ?: default`. */
    function OrElse(default: T): T {
      match this
      case Some(v) => v
      case None => default
    }
  }

  /** `kotlin.Result<T>`: `Result.success(value)` or `Result.failure(exception)`. */
  datatype Result<+T, +E> = Ok(value: T) | Err(exception: E) {
    predicate IsSuccess() { Ok? }

    /** `Result.exceptionOrNull()`. */
    function ExceptionOrNull(): (e: Option<E>)
      ensures e.Some? <==> Err?
      ensures Err? ==> e == Some(exception)
    {
      match this
      case Ok(_) => None
      case Err(x) => Some(x)
    }
  }

  /** How a string template renders a nullable string: `"${s}"` gives `"null"` for null. */
  function Render(s: Option<string>): string {
    match s
    case Some(t) => t
    case None => "null"
  }

  /** A rendered template is the string itself when non-null, and `"null"` exactly
      for null or for the string `"null"`. */
  lemma RenderNull(s: Option<string>)
    ensures s.Some? ==> Render(s) == s.value
    ensures Render(s) == "null" <==> s == None || s == Some("null")
  {
  }

  // ---------------------------------------------------------------------------
  // Substring search, as in kotlin.text

  /** `d` occurs in `s` starting at index `i`. */
  predicate OccursAt(s: string, d: string, i: int) {
    0 <= i && i + |d| <= |s| && s[i..i + |d|] == d
  }

  /** The first index at or after `from` where `d` occurs in `s` (`indexOf(d, from)`). */
  function IndexOfFrom(s: string, d: string, from: nat): (r: Option<nat>)
    requires from <= |s|
    ensures r.Some? ==> from <= r.value && OccursAt(s, d, r.value)
    ensures r.Some? ==> forall j :: from <= j < r.value ==> !OccursAt(s, d, j)
    ensures r.None? ==> forall j :: from <= j ==> !OccursAt(s, d, j)
    decreases |s| - from
  {
    if from + |d| > |s| then None
    else if s[from..from + |d|] == d then Some(from)
    else IndexOfFrom(s, d, from + 1)
  }

  /** `s.indexOf(d)`: the first occurrence of `d` in `s`, if any. */
  function IndexOf(s: string, d: string): Option<nat> {
    IndexOfFrom(s, d, 0)
  }

  /** `s.contains(d)`. */
  function Contains(s: string, d: string): bool {
    IndexOf(s, d).Some?
  }

  /** `s.substringAfter(d)`: the text after the first `d`, or all of `s` when `d` is absent. */
  function SubstringAfter(s: string, d: string): string {
    match IndexOf(s, d)
    case Some(i) => s[i + |d|..]
    case None => s
  }

  /** `s.substringBefore(d)`: the text before the first `d`, or all of `s` when `d` is absent. */
  function SubstringBefore(s: string, d: string): string {
    match IndexOf(s, d)
    case Some(i) => s[..i]
    case None => s
  }

  /** `contains` holds exactly when there is an occurrence. */
  lemma ContainsIff(s: string, d: string, i: int)
    ensures OccursAt(s, d, i) ==> Contains(s, d)
    ensures Contains(s, d) ==> OccursAt(s, d, IndexOf(s, d).value)
  {
  }

  /** The text before the first `c` no longer contains `c`. */
  lemma SubstringBeforeCharFree(s: string, c: char)
    ensures c !in SubstringBefore(s, [c])
  {
    var r := SubstringBefore(s, [c]);
    if c in r {
      var k :| 0 <= k < |r| && r[k] == c;
      assert s[k..k + 1] == [c];
      assert OccursAt(s, [c], k);
    }
  }

  /** A delimiter cannot occur where its first character does not. */
  lemma FirstCharMismatch(s: string, d: string, j: nat)
    requires 0 < |d| && j < |s| && s[j] != d[0]
    ensures !OccursAt(s, d, j)
  {
    if j + |d| <= |s| {
      assert s[j..j + |d|][0] == s[j];
    }
  }

  /** When `d` first occurs at `i`, `substringAfter` gives what follows it. */
  lemma SubstringAfterAt(s: string, d: string, i: nat)
    requires OccursAt(s, d, i)
    requires forall j :: 0 <= j < i ==> !OccursAt(s, d, j)
    ensures IndexOf(s, d) == Some(i)
    ensures SubstringAfter(s, d) == s[i + |d|..]
  {
  }

  /** For a one-character delimiter absent from `m`, `substringBefore` recovers `m`
      from `m + [c] + rest`. */
  lemma SubstringBeforeChar(m: string, c: char, rest: string)
    requires c !in m
    ensures SubstringBefore(m + [c] + rest, [c]) == m
  {
    var s := m + [c] + rest;
    assert s[|m|..|m| + 1] == [c];
    forall j | 0 <= j < |m| ensures !OccursAt(s, [c], j) {
      assert s[j..j + 1] == [m[j]];
    }
    SubstringAfterAt(s, [c], |m|);
    assert s[..|m|] == m;
  }

  // ---------------------------------------------------------------------------
  // Int.toString()

  function DigitChar(d: int): char
    requires 0 <= d < 10
  {
    "0123456789"[d]
  }

  function DigitValue(c: char): int {
    if '0' <= c <= '9' then c as int - '0' as int else 0
  }

  predicate IsDigit(c: char) { '0' <= c <= '9' }

  /** The decimal digits of `n`, most significant first, with no leading zero. */
  function NatToString(n: nat): (s: string)
    ensures |s| > 0
    ensures forall i :: 0 <= i < |s| ==> IsDigit(s[i])
    decreases n
  {
    if n < 10 then [DigitChar(n)] else NatToString(n / 10) + [DigitChar(n % 10)]
  }

  /** `Int.toString()`, as a string template `"$n"` renders it: a minus sign, then the digits. */
  function IntToString(n: int): string {
    if n < 0 then "-" + NatToString(-n) else NatToString(n)
  }

  /** The value of a string of decimal digits (the inverse of NatToString). */
  function DigitsValue(s: string): int
    decreases |s|
  {
    if s == [] then 0 else 10 * DigitsValue(s[..|s| - 1]) + DigitValue(s[|s| - 1])
  }

  /** Reads back what IntToString wrote. */
  function ParseInt(s: string): int {
    if |s| > 0 && s[0] == '-' then -DigitsValue(s[1..]) else DigitsValue(s)
  }

  lemma {:induction false} NatToStringRoundTrip(n: nat)
    ensures DigitsValue(NatToString(n)) == n
    decreases n
  {
    if n >= 10 {
      var s := NatToString(n / 10) + [DigitChar(n % 10)];
      assert s[..|s| - 1] == NatToString(n / 10);
      NatToStringRoundTrip(n / 10);
    }
  }

  /** `"$n"` loses nothing: the integer can be read back from its text. */
  lemma IntToStringRoundTrip(n: int)
    ensures ParseInt(IntToString(n)) == n
  {
    if n < 0 {
      var s := "-" + NatToString(-n);
      assert s[1..] == NatToString(-n);
      NatToStringRoundTrip(-n);
    } else {
      NatToStringRoundTrip(n);
      assert IsDigit(NatToString(n)[0]);
    }
  }

  /** Distinct integers render as distinct strings. */
  lemma IntToStringInjective(a: int, b: int)
    requires IntToString(a) == IntToString(b)
    ensures a == b
  {
    IntToStringRoundTrip(a);
    IntToStringRoundTrip(b);
  }

  // ---------------------------------------------------------------------------
  // JVM exceptions

  /** The most specific class of a thrown exception, as far as the app distinguishes them. */
  datatype ExceptionClass =
    | SocketTimeoutException  // java.net.SocketTimeoutException, a subclass of IOException
    | UnknownHostException    // java.net.UnknownHostException, a subclass of IOException
    | OtherIOException        // any other java.io.IOException
    | IllegalStateException   // java.lang.IllegalStateException, not an IOException
    | OtherException          // java.lang.Exception or any other subclass

  /** The `is IOException` test, with the JVM's subclass relation. */
  predicate IsIOException(c: ExceptionClass) {
    c.SocketTimeoutException? || c.UnknownHostException? || c.OtherIOException?
  }

  /** A JVM exception: its class and its (nullable) message, treated as opaque text. */
  datatype JvmException = JvmException(cls: ExceptionClass, message: Option<string>)

  /** `e?.message` for a nullable exception. */
  function MessageOf(e: Option<JvmException>): Option<string> {
    match e
    case Some(x) => x.message
    case None => None
  }
}
