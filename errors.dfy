/** The two-level error taxonomy shared by the domain code: repositories
    raise `RepositoryError`s, the domain raises `DomainError`s, and a domain
    error that wraps a repository failure keeps it as its source. The Rust
    error types carry a boxed `dyn Error` source; here the only source the
    core ever attaches is a repository error. */
module Errors {
  import opened Prelude

  datatype DomainErrorKind = InvalidInput | Fail | NotFound

  datatype RepositoryErrorKind = RepositoryNotFound | RepositoryFail

  datatype RepositoryError = RepositoryError(kind: RepositoryErrorKind, message: string)

  datatype DomainError = DomainError(kind: DomainErrorKind, message: string, source: Option<RepositoryError>)

  type DomainResult<T> = Result<T, DomainError>

  type RepositoryResult<T> = Result<T, RepositoryError>

  /** `DomainError::new`: an error without a source. */
  function NewError(kind: DomainErrorKind, message: string): (e: DomainError)
    ensures e.kind == kind && e.message == message && e.source.None?
  {
    DomainError(kind, message, None)
  }

  /** `DomainError::new_with_source`: an error that keeps its cause. */
  function NewErrorWithSource(kind: DomainErrorKind, message: string, source: RepositoryError): (e: DomainError)
    ensures e.kind == kind && e.message == message && e.source == Some(source)
  {
    DomainError(kind, message, Some(source))
  }

  /** The strings the value objects accept: every non-empty string. */
  type NonBlank = s: string | s != [] witness "_"
}

/** The pieces of Rust's `format!` the error messages use: `{}` of an
    unsigned integer and `{:?}` of a string. */
module Format {

  /** The digit of value `d`, lower-case above nine as Rust writes
      hexadecimal. */
  function DigitChar(d: nat): (c: char)
    requires d < 16
    ensures '0' <= c <= '9' || 'a' <= c <= 'f'
    ensures DigitValue(c) == d
  {
    if d < 10 then ('0' as int + d) as char else ('a' as int + d - 10) as char
  }

  /** The value of a decimal or lower-case hexadecimal digit. */
  function DigitValue(c: char): nat {
    if '0' <= c <= '9' then c as int - '0' as int
    else if 'a' <= c <= 'f' then c as int - 'a' as int + 10
    else 0
  }

  /** Euclidean division by a base, once `n` has more than one digit. */
  lemma DivideByBase(n: nat, base: nat)
    requires 2 <= base <= n
    ensures 1 <= n / base < n && n % base < base
    ensures n == n / base * base + n % base
  {
    var q, r := n / base, n % base;
    assert q * base + r == n && 0 <= r < base;
    assert q >= 1;
    assert q * base == q * (base - 2) + 2 * q;
    assert q * (base - 2) >= 0;
  }

  /** The digits of `n` in `base`, most significant first, with no leading
      zero. */
  function Digits(n: nat, base: nat): (s: string)
    requires 2 <= base <= 16
    ensures |s| >= 1
    ensures s[0] == '0' ==> n == 0 && s == "0"
    ensures forall i :: 0 <= i < |s| ==> DigitValue(s[i]) < base && s[i] == DigitChar(DigitValue(s[i]))
    decreases n
  {
    if n < base then [DigitChar(n)]
    else
      DivideByBase(n, base);
      Digits(n / base, base) + [DigitChar(n % base)]
  }

  /** Reads a string of digits in `base` back as a number. */
  function ParseDigits(s: string, base: nat): nat
    decreases |s|
  {
    if s == [] then 0 else ParseDigits(s[..|s| - 1], base) * base + DigitValue(s[|s| - 1])
  }

  /** The digits of a number read back as that number: no two numbers are
      written alike. */
  lemma {:induction false} DigitsRoundTrip(n: nat, base: nat)
    requires 2 <= base <= 16
    ensures ParseDigits(Digits(n, base), base) == n
    decreases n
  {
    var s := Digits(n, base);
    if n < base {
      assert s[..|s| - 1] == [];
    } else {
      DivideByBase(n, base);
      DigitsRoundTrip(n / base, base);
      assert s[..|s| - 1] == Digits(n / base, base);
      assert s[|s| - 1] == DigitChar(n % base);
    }
  }

  /** `{}` of an unsigned integer: its decimal digits, which read back as
      the number. */
  function Decimal(n: nat): (s: string)
    ensures |s| >= 1 && (s[0] == '0' ==> s == "0")
    ensures forall i :: 0 <= i < |s| ==> '0' <= s[i] <= '9'
    ensures ParseDigits(s, 10) == n
  {
    DigitsRoundTrip(n, 10);
    Digits(n, 10)
  }

  /** `{:x}` of an unsigned integer, as the `\u{…}` escape writes it. */
  function LowerHex(n: nat): (s: string)
    ensures |s| >= 1 && (s[0] == '0' ==> s == "0")
    ensures ParseDigits(s, 16) == n
  {
    DigitsRoundTrip(n, 16);
    Digits(n, 16)
  }

  /** The characters up to U+00FF that Rust's printable-character table marks
      as not printable, which `{:?}` writes as `\u{…}`: the C0 controls, DEL
      and the C1 controls up to the no-break space, and the soft hyphen. */
  predicate NotPrintable(c: char) {
    c as int < 0x20 || 0x7f <= c as int <= 0xa0 || c as int == 0xad
  }

  /** A character `{:?}` of a string writes as it is. */
  predicate Plain(c: char) {
    !NotPrintable(c) && c != '"' && c != '\\'
  }

  /** `char::escape_debug` as `{:?}` of a string applies it: a backslash
      escape for the quote, the backslash and four controls, `\u{…}` in
      lower-case hexadecimal for the other characters that are not
      printable, and the character itself otherwise. */
  function EscapeDebug(c: char): (r: string)
    ensures r == [c] <==> Plain(c)
    ensures !Plain(c) ==> |r| >= 2 && r[0] == '\\'
    ensures forall i :: 0 <= i < |r| ==> !NotPrintable(r[i])
  {
    match c
    case '"' => "\\\""
    case '\\' => "\\\\"
    case '\n' => "\\n"
    case '\r' => "\\r"
    case '\t' => "\\t"
    case '\0' => "\\0"
    case _ => if NotPrintable(c) then "\\u{" + LowerHex(c as int) + "}" else [c]
  }

  /** The characters of `s`, each escaped. The result has no unprintable
      character and is at least as long as `s`. */
  function Escaped(s: string): (r: string)
    ensures |r| >= |s|
    ensures forall i :: 0 <= i < |r| ==> !NotPrintable(r[i])
    decreases |s|
  {
    if s == [] then [] else EscapeDebug(s[0]) + Escaped(s[1..])
  }

  /** A string made of plain characters is written unchanged. */
  lemma {:induction false} EscapedOfPlain(s: string)
    requires forall i :: 0 <= i < |s| ==> Plain(s[i])
    ensures Escaped(s) == s
    decreases |s|
  {
    if s != [] {
      assert Plain(s[0]);
      EscapedOfPlain(s[1..]);
      assert s == [s[0]] + s[1..];
    }
  }

  /** `{:?}` of a string: the escaped characters between double quotes; a
      string of plain characters is just quoted. */
  function DebugStr(s: string): (r: string)
    ensures |r| >= |s| + 2 && r[0] == '"' && r[|r| - 1] == '"'
    ensures (forall i :: 0 <= i < |s| ==> Plain(s[i])) ==> r == "\"" + s + "\""
  {
    if forall i :: 0 <= i < |s| ==> Plain(s[i]) then EscapedOfPlain(s); "\"" + Escaped(s) + "\""
    else "\"" + Escaped(s) + "\""
  }

  /** The message the minute value objects give for an out-of-range value:
      it begins with the value and ends with the upper limit, both of which
      read back from it. */
  function OutsideLimitsMessage(value: nat, min: nat, max: nat): (m: string)
    ensures |Decimal(value)| < |m| && ParseDigits(m[..|Decimal(value)|], 10) == value
    ensures |Decimal(max)| < |m| && ParseDigits(m[|m| - |Decimal(max)|..], 10) == max
  {
    var m := Decimal(value) + " is outside of limits. the range are min:" + Decimal(min) + " ~ max:" + Decimal(max);
    assert m[..|Decimal(value)|] == Decimal(value);
    assert m[|m| - |Decimal(max)|..] == Decimal(max);
    m
  }

  /** `{}` of the limits and of the values next to them. */
  lemma DecimalExamples()
    ensures Decimal(0) == "0" && Decimal(1) == "1" && Decimal(60) == "60" && Decimal(61) == "61"
  {
    assert Decimal(6) == "6";
    assert Decimal(61) == Digits(6, 10) + "1";
    assert Decimal(60) == Digits(6, 10) + "0";
  }

  /** The message for 61 minutes, between the limits 1 and 60. */
  lemma OutsideLimitsMessageExample()
    ensures OutsideLimitsMessage(61, 1, 60) == "61" + " is outside of limits. the range are min:" + "1" + " ~ max:" + "60"
  {
    DecimalExamples();
  }

  /** `{:?}` of a plain kind is the kind between quotes. */
  lemma DebugStrPlainExample()
    ensures DebugStr("theme_kind1") == "\"" + "theme_kind1" + "\""
  {
    assert forall i :: 0 <= i < |"theme_kind1"| ==> Plain("theme_kind1"[i]);
  }

  /** `{:?}` writes a quote inside the string with a backslash. */
  lemma DebugStrQuoteExample()
    ensures DebugStr("a\"b") == "\"" + "a" + "\\\"" + "b" + "\""
  {
    assert "a\"b"[1..] == "\"b" && "\"b"[1..] == "b" && "b"[1..] == [];
  }

  /** `{:?}` writes the control character U+0001 as `\u{1}`. */
  lemma DebugStrControlExample()
    ensures DebugStr("\U{1}") == "\"" + "\\u{" + "1" + "}" + "\""
  {
    assert LowerHex(1) == "1";
  }
}
