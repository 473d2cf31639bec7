/**
 * The text primitives the core relies on: decimal formatting as done by
 * fmt's `%d`, base-10 integer parsing as done by strconv.ParseInt(s, 10, 64),
 * strings.Join / strings.Split on a one-character separator, ASCII lower
 * casing and substring search.
 */
module Text {
  import opened Wrappers

  /** A byte of a Go `[]byte` or of a file. */
  newtype byte = x: int | 0 <= x < 256

  const Newline: byte := 10
  const Nul: char := 0 as char

  const Int64Min: int := -0x8000_0000_0000_0000
  const Int64Max: int := 0x7FFF_FFFF_FFFF_FFFF
  const Uint64Max: int := 0xFFFF_FFFF_FFFF_FFFF

  predicate IsInt64(n: int) { Int64Min <= n <= Int64Max }

  predicate IsDigit(c: char) { '0' <= c <= '9' }

  predicate AllDigits(s: string) { forall i | 0 <= i < |s| :: IsDigit(s[i]) }

  function DigitChar(d: nat): (c: char)
    requires d < 10
    ensures IsDigit(c) && c as int - '0' as int == d
  {
    ('0' as int + d) as char
  }

  /** The value of a string of decimal digits, most significant digit first. */
  function DigitsValue(s: string): nat
    requires AllDigits(s)
  {
    if |s| == 0 then 0 else DigitsValue(s[..|s| - 1]) * 10 + (s[|s| - 1] as int - '0' as int)
  }

  /** `%d` of a non-negative integer: its decimal digits without leading zeros. */
  function FormatNat(n: nat): (s: string)
    ensures |s| > 0 && AllDigits(s)
    ensures |s| > 1 ==> s[0] != '0'
  {
    if n < 10 then [DigitChar(n)] else FormatNat(n / 10) + [DigitChar(n % 10)]
  }

  /** `%d` of any integer: a minus sign before the digits of a negative value. */
  function FormatInt(n: int): (s: string)
    ensures |s| > 0
    ensures n < 0 <==> s[0] == '-'
  {
    if n < 0 then "-" + FormatNat(-n) else FormatNat(n)
  }

  lemma {:induction false} FormatNatValue(n: nat)
    ensures DigitsValue(FormatNat(n)) == n
  {
    if n >= 10 {
      var s := FormatNat(n);
      assert s[..|s| - 1] == FormatNat(n / 10);
      FormatNatValue(n / 10);
    }
  }

  /** Distinct numbers print as distinct strings. */
  lemma FormatNatInjective(a: nat, b: nat)
    ensures FormatNat(a) == FormatNat(b) <==> a == b
  {
    FormatNatValue(a);
    FormatNatValue(b);
  }

  /** Why strconv rejects a string (NumError.Err). */
  datatype NumError = ErrSyntax | ErrRange {
    function Text(): string {
      match this
      case ErrSyntax => "invalid syntax"
      case ErrRange => "value out of range"
    }
  }

  /** Index of the first character that is not a decimal digit, or |s|. */
  function FirstNonDigit(s: string): (k: nat)
    ensures k <= |s| && AllDigits(s[..k])
    ensures k < |s| ==> !IsDigit(s[k])
  {
    if |s| == 0 || !IsDigit(s[0]) then 0
    else
      var k := 1 + FirstNonDigit(s[1..]);
      assert forall i | 1 <= i < k :: s[..k][i] == s[1..][..k - 1][i - 1];
      k
  }

  /**
   * strconv.ParseUint(s, 10, 64). The digits are read left to right; the
   * first digit that makes the value exceed 2^64-1 gives a range error, the
   * first non-digit before that a syntax error. Base 10 admits neither a
   * prefix nor underscores.
   */
  function ParseUint64(s: string): Result<nat, NumError> {
    if |s| == 0 then Failure(ErrSyntax)
    else
      var k := FirstNonDigit(s);
      if DigitsValue(s[..k]) > Uint64Max then Failure(ErrRange)
      else if k < |s| then Failure(ErrSyntax)
      else assert s[..k] == s; Success(DigitsValue(s))
  }

  /** strconv.ParseInt(s, 10, 64): an optional sign, then ParseUint64, then the int64 range. */
  function ParseInt64(s: string): (r: Result<int, NumError>)
    ensures r.Success? ==> IsInt64(r.value)
  {
    if |s| == 0 then Failure(ErrSyntax)
    else
      var neg := s[0] == '-';
      var body := if s[0] == '+' || s[0] == '-' then s[1..] else s;
      match ParseUint64(body)
      case Failure(e) => Failure(e)
      case Success(u) =>
        if !neg && u >= 0x8000_0000_0000_0000 then Failure(ErrRange)
        else if neg && u > 0x8000_0000_0000_0000 then Failure(ErrRange)
        else
          var magnitude: int := u;
          Success(if neg then -magnitude else magnitude)
  }

  /** Every int64 printed with `%d` parses back to itself. */
  lemma ParseFormatRoundTrip(n: int)
    requires IsInt64(n)
    ensures ParseInt64(FormatInt(n)) == Success(n)
  {
    var m: nat := if n < 0 then -n else n;
    var digits := FormatNat(m);
    FormatNatValue(m);
    assert FirstNonDigit(digits) == |digits|;
    assert digits[..|digits|] == digits;
    if n < 0 {
      assert FormatInt(n)[1..] == digits;
    }
  }

  /** A decimal string followed by a newline, as `echo` prints it, is a syntax error. */
  lemma TrailingNewlineRejected(n: int)
    requires IsInt64(n)
    ensures ParseInt64(FormatInt(n) + "\n") == Failure(ErrSyntax)
  {
    var m: nat := if n < 0 then -n else n;
    var digits := FormatNat(m);
    var body := digits + "\n";
    FormatNatValue(m);
    assert FirstNonDigit(body) == |digits| by {
      assert AllDigits(body[..|digits|]) by { assert body[..|digits|] == digits; }
      FirstNonDigitAt(body, |digits|);
    }
    assert body[..|digits|] == digits;
    if n < 0 {
      assert (FormatInt(n) + "\n")[1..] == body;
    } else {
      assert FormatInt(n) + "\n" == body;
    }
  }

  lemma {:induction false} FirstNonDigitAt(s: string, k: nat)
    requires k < |s| && AllDigits(s[..k]) && !IsDigit(s[k])
    ensures FirstNonDigit(s) == k
  {
    if k > 0 {
      assert s[1..][..k - 1] == s[..k][1..];
      assert s[1..][k - 1] == s[k];
      FirstNonDigitAt(s[1..], k - 1);
    }
  }

  /** Bytes read as a Go string, one character per byte. */
  function BytesToString(b: seq<byte>): (s: string)
    ensures |s| == |b| && forall i | 0 <= i < |b| :: s[i] as int == b[i] as int
  {
    seq(|b|, i requires 0 <= i < |b| => b[i] as int as char)
  }

  /** Characters below 256 written as the bytes of the same value (ASCII text as Go bytes). */
  function StringToBytes(s: string): (b: seq<byte>)
    requires forall i | 0 <= i < |s| :: s[i] as int < 256
    ensures |b| == |s| && BytesToString(b) == s
  {
    seq(|s|, i requires 0 <= i < |s| => s[i] as int as byte)
  }

  const HexDigits: string := "0123456789abcdef"

  /** How strconv.Quote writes one byte of ASCII text, or a byte it cannot print. */
  function QuoteByte(b: byte): string {
    if b == 34 then "\\\"" else if b == 92 then "\\\\"
    else if b == 7 then "\\a" else if b == 8 then "\\b" else if b == 12 then "\\f"
    else if b == 10 then "\\n" else if b == 13 then "\\r" else if b == 9 then "\\t" else if b == 11 then "\\v"
    else if 32 <= b < 127 then [b as int as char]
    else "\\x" + [HexDigits[b as int / 16], HexDigits[b as int % 16]]
  }

  function QuoteBytes(s: seq<byte>): string {
    if |s| == 0 then "" else QuoteBytes(s[..|s| - 1]) + QuoteByte(s[|s| - 1])
  }

  /** A byte strconv.Quote writes as itself: printable ASCII other than the quote and the backslash. */
  predicate Plain(b: byte) {
    32 <= b < 127 && b != 34 && b != 92
  }

  /** strconv.Quote: the text between double quotes, escaped. */
  function Quote(s: seq<byte>): (q: string)
    ensures |q| >= 2 && q[0] == '"' && q[|q| - 1] == '"'
    ensures (forall i | 0 <= i < |s| :: Plain(s[i])) ==> q == "\"" + BytesToString(s) + "\""
  {
    PlainQuotedAsIs(s);
    "\"" + QuoteBytes(s) + "\""
  }

  /** Plain text is quoted as itself. */
  lemma {:induction false} PlainQuotedAsIs(s: seq<byte>)
    ensures (forall i | 0 <= i < |s| :: Plain(s[i])) ==> QuoteBytes(s) == BytesToString(s)
  {
    if |s| > 0 && forall i | 0 <= i < |s| :: Plain(s[i]) {
      var init := s[..|s| - 1];
      assert forall i | 0 <= i < |init| :: Plain(init[i]) by {
        forall i | 0 <= i < |init| ensures Plain(init[i]) { assert init[i] == s[i]; }
      }
      PlainQuotedAsIs(init);
      assert BytesToString(s) == BytesToString(init) + [s[|s| - 1] as int as char];
    }
  }

  /** strings.Join with a one-character separator. */
  function Join(xs: seq<string>, sep: char): string {
    if |xs| == 0 then "" else if |xs| == 1 then xs[0] else xs[0] + [sep] + Join(xs[1..], sep)
  }

  /** Index of the first occurrence of c in s. */
  function IndexOf(s: string, c: char): (i: nat)
    requires c in s
    ensures i < |s| && s[i] == c && c !in s[..i]
  {
    if s[0] == c then 0 else 1 + IndexOf(s[1..], c)
  }

  /** strings.Split with a one-character separator: always at least one part. */
  function Split(s: string, sep: char): (parts: seq<string>)
    ensures |parts| > 0
    decreases |s|
  {
    if sep !in s then [s]
    else
      var i := IndexOf(s, sep);
      [s[..i]] + Split(s[i + 1..], sep)
  }

  /** Joining parts that contain no separator can be undone by splitting. */
  lemma {:induction false} SplitJoin(xs: seq<string>, sep: char)
    requires |xs| > 0
    requires forall i | 0 <= i < |xs| :: sep !in xs[i]
    ensures Split(Join(xs, sep), sep) == xs
  {
    if |xs| > 1 {
      var rest := Join(xs[1..], sep);
      var s := xs[0] + [sep] + rest;
      assert s[|xs[0]|] == sep;
      assert s[..|xs[0]|] == xs[0];
      assert IndexOf(s, sep) == |xs[0]| by {
        IndexOfAt(s, sep, |xs[0]|);
      }
      assert s[|xs[0]| + 1..] == rest;
      SplitJoin(xs[1..], sep);
    }
  }

  lemma {:induction false} IndexOfAt(s: string, c: char, k: nat)
    requires k < |s| && s[k] == c && c !in s[..k]
    ensures IndexOf(s, c) == k
  {
    if k > 0 {
      assert s[0] in s[..k];
      assert s[1..][..k - 1] == s[..k][1..];
      IndexOfAt(s[1..], c, k - 1);
    }
  }

  /** String.prototype.toLowerCase restricted to ASCII letters. */
  function LowerChar(c: char): char {
    if 'A' <= c <= 'Z' then (c as int + 32) as char else c
  }

  function Lower(s: string): (r: string)
    ensures |r| == |s| && forall i | 0 <= i < |s| :: r[i] == LowerChar(s[i])
  {
    seq(|s|, i requires 0 <= i < |s| => LowerChar(s[i]))
  }

  /** `s` contains `sub` as a contiguous substring (String.prototype.includes). */
  predicate Contains(s: string, sub: string)
    decreases |s|
  {
    sub <= s || (|s| > 0 && Contains(s[1..], sub))
  }
}
